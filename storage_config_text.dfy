/**
 * The `parameters` setting of the SuiteCRM storage client: the settings
 * form shows it as text with one `key=value` per line, and saving the form
 * parses that text back into an array of parameters.
 */
module SuiteCrmConfigText {
  import opened Common

  /** The `parameters` configuration: an array of pairs, or text that is not an array. */
  datatype ParamConfig = Pairs(pairs: OMap<string, string>) | Text(text: string)

  /** `explode($d, $line, 2)` for a line that holds `d`: the text before the first `d` and the rest. */
  function SplitAtFirst(line: string, d: char): Option<(string, string)> {
    if line == [] then None
    else if line[0] == d then Some(([], line[1..]))
    else match SplitAtFirst(line[1..], d)
      case None => None
      case Some((a, b)) => Some(([line[0]] + a, b))
  }

  lemma {:induction false} SplitAtFirstOf(a: string, b: string, d: char)
    requires d !in a
    ensures SplitAtFirst(a + [d] + b, d) == Some((a, b))
  {
    if a == [] {
      assert a + [d] + b == [d] + b;
      assert ([d] + b)[1..] == b;
    } else {
      SplitAtFirstOf(a[1..], b, d);
      assert (a + [d] + b)[1..] == a[1..] + [d] + b;
      assert [a[0]] + a[1..] == a;
    }
  }

  /** One line of the configuration text: `key=value`, blank lines and `#` comments skipped. */
  function ParseLine(acc: OMap<string, string>, line: string): OMap<string, string> {
    var t := Trim(line);
    if Falsy(t) || StartsWith(t, "#") then acc
    else match SplitAtFirst(t, '=')
      case None => acc
      case Some((k, v)) => Put(acc, Trim(k), Trim(v))
  }

  function ParseLines(lines: seq<string>): OMap<string, string> {
    if lines == [] then [] else ParseLine(ParseLines(lines[..|lines| - 1]), lines[|lines| - 1])
  }

  function ParseSpec(text: string): OMap<string, string> {
    if Falsy(text) then [] else ParseLines(Split(text, '\n'))
  }

  lemma ParseLinesStep(lines: seq<string>, i: nat)
    requires i < |lines|
    ensures ParseLines(lines[..i + 1]) == ParseLine(ParseLines(lines[..i]), lines[i])
  {
    assert lines[..i + 1][..i] == lines[..i];
  }

  method ParseParameters(text: string) returns (parameters: OMap<string, string>)
    ensures parameters == ParseSpec(text)
  {
    if Falsy(text) {
      return [];
    }
    parameters := [];
    var lines := Split(text, '\n');
    var i := 0;
    while i < |lines|
      invariant 0 <= i <= |lines|
      invariant parameters == ParseLines(lines[..i])
    {
      ParseLinesStep(lines, i);
      var line := Trim(lines[i]);
      if !(Falsy(line) || StartsWith(line, "#")) {
        var parts := SplitAtFirst(line, '=');
        if parts.Some? {
          parameters := Put(parameters, Trim(parts.value.0), Trim(parts.value.1));
        }
      }
      i := i + 1;
    }
    assert lines[..i] == lines;
  }

  function FormatLines(p: OMap<string, string>): (lines: seq<string>)
    ensures |lines| == |p|
    ensures forall i :: 0 <= i < |p| ==> lines[i] == p[i].0 + "=" + p[i].1
  {
    seq(|p|, i requires 0 <= i < |p| => p[i].0 + "=" + p[i].1)
  }

  function FormatSpec(config: ParamConfig): string {
    match config
    case Text(s) => s
    case Pairs(p) => if p == [] then "" else Join(FormatLines(p), '\n')
  }

  method FormatParameters(config: ParamConfig) returns (text: string)
    ensures text == FormatSpec(config)
  {
    if config.Text? {
      return config.text;
    }
    var p := config.pairs;
    if p == [] {
      return "";
    }
    var lines: seq<string> := [];
    var i := 0;
    while i < |p|
      invariant 0 <= i <= |p|
      invariant lines == FormatLines(p[..i])
    {
      var (key, value) := p[i];
      lines := lines + [key + "=" + value];
      i := i + 1;
    }
    assert p[..i] == p;
    text := Join(lines, '\n');
  }

  /** Pairs whose text form reads back as the same pairs. */
  ghost predicate Formattable(p: OMap<string, string>) {
    && UniqueKeys(p)
    && forall i :: 0 <= i < |p| ==>
         && Trim(p[i].0) == p[i].0 && Trim(p[i].1) == p[i].1
         && '\n' !in p[i].0 && '\n' !in p[i].1
         && '=' !in p[i].0 && !StartsWith(p[i].0, "#")
  }

  lemma FormattedLineEnds(k: string, v: string)
    ensures (k + "=" + v)[0] == if k == [] then '=' else k[0]
    ensures (k + "=" + v)[|k + "=" + v| - 1] == if v == [] then '=' else v[|v| - 1]
    ensures (k + "=" + v)[|k|] == '='
  {
  }

  /** A line `key=value` built from trimmed parts is left alone by `trim`. */
  lemma FormattedLineTrimmed(k: string, v: string)
    requires Trim(k) == k && Trim(v) == v
    ensures Trim(k + "=" + v) == k + "=" + v
  {
    var line := k + "=" + v;
    FormattedLineEnds(k, v);
    assert !IsTrimmed(line[0]) && !IsTrimmed(line[|line| - 1]);
    TrimFixpoint(line);
  }

  /** A line `key=value` with a key free of `=` and `#` is neither empty nor a comment. */
  lemma FormattedLineKept(k: string, v: string)
    requires '=' !in k && !StartsWith(k, "#")
    ensures !Falsy(k + "=" + v) && !StartsWith(k + "=" + v, "#")
  {
    var line := k + "=" + v;
    FormattedLineEnds(k, v);
    if |line| == 1 { assert line[0] == '='; }
    if k != [] { assert k[..1] == line[..1]; }
  }

  /** A trimmed line that is kept and splits into trimmed parts stores exactly those parts. */
  lemma ParseCleanLine(acc: OMap<string, string>, line: string, k: string, v: string)
    requires Trim(line) == line && !Falsy(line) && !StartsWith(line, "#")
    requires SplitAtFirst(line, '=') == Some((k, v))
    requires Trim(k) == k && Trim(v) == v
    ensures ParseLine(acc, line) == Put(acc, k, v)
  {
  }

  lemma ParseFormattedLine(acc: OMap<string, string>, k: string, v: string)
    requires Trim(k) == k && Trim(v) == v
    requires '=' !in k && !StartsWith(k, "#")
    ensures ParseLine(acc, k + "=" + v) == Put(acc, k, v)
  {
    FormattedLineTrimmed(k, v);
    FormattedLineKept(k, v);
    SplitAtFirstOf(k, v, '=');
    ParseCleanLine(acc, k + "=" + v, k, v);
  }

  lemma FormattableInit(p: OMap<string, string>)
    requires Formattable(p) && p != []
    ensures Formattable(p[..|p| - 1])
    ensures Get(p[..|p| - 1], p[|p| - 1].0).None?
    ensures p == p[..|p| - 1] + [p[|p| - 1]]
  {
    LastKeyFresh(p);
    var init := p[..|p| - 1];
    forall i | 0 <= i < |init|
      ensures && Trim(init[i].0) == init[i].0 && Trim(init[i].1) == init[i].1
              && '\n' !in init[i].0 && '\n' !in init[i].1
              && '=' !in init[i].0 && !StartsWith(init[i].0, "#")
    {
      assert init[i] == p[i];
    }
  }

  lemma FormatLinesInit(p: OMap<string, string>)
    requires p != []
    ensures FormatLines(p) == FormatLines(p[..|p| - 1]) + [p[|p| - 1].0 + "=" + p[|p| - 1].1]
  {
  }

  lemma {:induction false} ParseFormattedLines(p: OMap<string, string>)
    requires Formattable(p)
    ensures ParseLines(FormatLines(p)) == p
  {
    if p != [] {
      var n := |p| - 1;
      var init, k, v := p[..n], p[n].0, p[n].1;
      var lines := FormatLines(p);
      FormattableInit(p);
      FormatLinesInit(p);
      ParseFormattedLines(init);
      assert lines[..n] == FormatLines(init);
      ParseFormattedLine(init, k, v);
      PutKeys(init, k, v);
    }
  }

  lemma FormattedTextSplits(p: OMap<string, string>)
    requires Formattable(p) && p != []
    ensures Split(Join(FormatLines(p), '\n'), '\n') == FormatLines(p)
  {
    var lines := FormatLines(p);
    forall i | 0 <= i < |lines| ensures '\n' !in lines[i] {
      assert lines[i] == p[i].0 + "=" + p[i].1;
    }
    SplitJoin(lines, '\n');
  }

  lemma FormattedTextKept(p: OMap<string, string>)
    requires p != []
    ensures !Falsy(Join(FormatLines(p), '\n'))
  {
    var lines := FormatLines(p);
    JoinStartsWith(lines, '\n');
    FormattedLineEnds(p[0].0, p[0].1);
    assert lines[0][|p[0].0|] == '=';
  }

  /** Formatting configured pairs as text and parsing the text back gives the same pairs. */
  lemma ParseFormatRoundTrip(p: OMap<string, string>)
    requires Formattable(p)
    ensures ParseSpec(FormatSpec(Pairs(p))) == p
  {
    if p != [] {
      FormattedTextSplits(p);
      FormattedTextKept(p);
      ParseFormattedLines(p);
    }
  }
}
