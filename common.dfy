/**
 * Vocabulary shared by every module of the model: optional values, PHP's
 * ordered arrays with keys, PHP's notion of an "empty" string, and the
 * string functions of PHP and JavaScript that the core relies on
 * (`explode`, `implode`, `trim`, `str_replace` on one character,
 * `strpos(...) === 0`, `String(n)`).
 */
module Common {

  datatype Option<+T> = None | Some(value: T) {
    function GetOr(default: T): T {
      if Some? then value else default
    }
  }

  // ---------------------------------------------------------------------------
  // PHP ordered arrays
  // ---------------------------------------------------------------------------

  /** A PHP array with keys: its entries in insertion order. */
  type OMap<K, V> = seq<(K, V)>

  function Keys<K, V>(m: OMap<K, V>): (ks: seq<K>)
    ensures |ks| == |m|
    ensures forall i :: 0 <= i < |m| ==> ks[i] == m[i].0
  {
    if m == [] then [] else [m[0].0] + Keys(m[1..])
  }

  /** Every PHP array has pairwise distinct keys. */
  ghost predicate UniqueKeys<K, V>(m: OMap<K, V>) {
    forall i, j :: 0 <= i < j < |m| ==> m[i].0 != m[j].0
  }

  /** `$m[$k] ?? null`: the value stored under `k`, if any. */
  function Get<K(==), V>(m: OMap<K, V>, k: K): Option<V> {
    if m == [] then None
    else if m[0].0 == k then Some(m[0].1)
    else Get(m[1..], k)
  }

  /** A key is found exactly when it is one of the array's keys. */
  lemma {:induction false} GetKey<K, V>(m: OMap<K, V>, k: K)
    ensures Get(m, k).Some? <==> k in Keys(m)
  {
    if m != [] {
      GetKey(m[1..], k);
      assert Keys(m) == [m[0].0] + Keys(m[1..]);
    }
  }

  /**
   * `$m[$k] = $v`: an existing key keeps its position and gets the new
   * value; a new key is appended at the end.
   */
  function Put<K(==,!new), V>(m: OMap<K, V>, k: K, v: V): (r: OMap<K, V>)
    ensures Get(r, k) == Some(v)
    ensures forall k' :: k' != k ==> Get(r, k') == Get(m, k')
  {
    if m == [] then [(k, v)]
    else if m[0].0 == k then [(k, v)] + m[1..]
    else
      var rest := Put(m[1..], k, v);
      var r := [m[0]] + rest;
      assert r[0] == m[0] && r[1..] == rest;
      r
  }

  /** Writing a key keeps the order of the keys; a new key goes last. */
  lemma {:induction false} PutKeys<K(!new), V>(m: OMap<K, V>, k: K, v: V)
    ensures Keys(Put(m, k, v)) == if Get(m, k).Some? then Keys(m) else Keys(m) + [k]
    ensures Get(m, k).None? ==> Put(m, k, v) == m + [(k, v)]
  {
    if m != [] && m[0].0 != k {
      PutKeys(m[1..], k, v);
      var rest := Put(m[1..], k, v);
      assert Put(m, k, v) == [m[0]] + rest;
      assert Keys([m[0]] + rest) == [m[0].0] + Keys(rest);
      assert Keys(m) == [m[0].0] + Keys(m[1..]);
    }
  }

  /** Writing a key keeps the keys of a PHP array distinct. */
  lemma PutUnique<K(!new), V>(m: OMap<K, V>, k: K, v: V)
    requires UniqueKeys(m)
    ensures UniqueKeys(Put(m, k, v))
  {
    var r := Put(m, k, v);
    PutKeys(m, k, v);
    GetKey(m, k);
    var ks := Keys(r);
    forall i, j | 0 <= i < j < |r| ensures r[i].0 != r[j].0 {
      assert ks[i] == r[i].0 && ks[j] == r[j].0;
      if Get(m, k).None? {
        assert r == m + [(k, v)];
      } else {
        assert ks == Keys(m);
      }
    }
  }

  /** `unset($m[$k])`, keeping the order of the other entries. */
  function RemoveKey<K(==,!new), V>(m: OMap<K, V>, k: K): (r: OMap<K, V>)
    ensures Get(r, k) == None
    ensures forall k' :: k' != k ==> Get(r, k') == Get(m, k')
    ensures |r| <= |m|
  {
    if m == [] then []
    else if m[0].0 == k then RemoveKey(m[1..], k)
    else
      var rest := RemoveKey(m[1..], k);
      var r := [m[0]] + rest;
      assert r[0] == m[0] && r[1..] == rest;
      r
  }

  /** The values of a PHP array in order (`array_values`). */
  function Values<K, V>(m: OMap<K, V>): (vs: seq<V>)
    ensures |vs| == |m|
    ensures forall i :: 0 <= i < |m| ==> vs[i] == m[i].1
  {
    if m == [] then [] else [m[0].1] + Values(m[1..])
  }

  lemma KeysAppend<K, V>(a: OMap<K, V>, b: OMap<K, V>)
    ensures Keys(a + b) == Keys(a) + Keys(b)
  {
  }

  /** Looking a key up in an array with one more entry at the end. */
  lemma {:induction false} GetSnoc<K, V>(m: OMap<K, V>, k: K, v: V, q: K)
    ensures Get(m + [(k, v)], q) == if Get(m, q).Some? then Get(m, q) else if q == k then Some(v) else None
  {
    if m != [] {
      GetSnoc(m[1..], k, v, q);
      assert (m + [(k, v)])[1..] == m[1..] + [(k, v)];
    }
  }

  /** In a PHP array every key maps to the value stored beside it. */
  lemma {:induction false} GetAt<K, V>(m: OMap<K, V>, i: nat)
    requires UniqueKeys(m)
    requires i < |m|
    ensures Get(m, m[i].0) == Some(m[i].1)
  {
    if i > 0 {
      assert UniqueKeys(m[1..]);
      GetAt(m[1..], i - 1);
    }
  }

  /** A key that is found sits at some position, beside the value found. */
  lemma {:induction false} GetFound<K, V>(m: OMap<K, V>, k: K) returns (i: nat)
    requires Get(m, k).Some?
    ensures i < |m| && m[i] == (k, Get(m, k).value)
  {
    if m[0].0 == k {
      i := 0;
    } else {
      var j := GetFound(m[1..], k);
      i := j + 1;
    }
  }

  /** Splitting off the last entry of a PHP array: its key is not among the others. */
  lemma LastKeyFresh<K, V>(m: OMap<K, V>)
    requires UniqueKeys(m)
    requires m != []
    ensures UniqueKeys(m[..|m| - 1])
    ensures Get(m[..|m| - 1], m[|m| - 1].0).None?
    ensures m == m[..|m| - 1] + [m[|m| - 1]]
  {
    GetKey(m[..|m| - 1], m[|m| - 1].0);
  }

  /**
   * `foreach ($e as $k => $v) { $m[$k] = $v; }`, which is also
   * `array_merge($m, $e)` when every key is a string.
   */
  function PutAll<K(==,!new), V>(m: OMap<K, V>, e: OMap<K, V>): OMap<K, V> {
    if e == [] then m else Put(PutAll(m, e[..|e| - 1]), e[|e| - 1].0, e[|e| - 1].1)
  }

  /** After the loop, a key written by `e` has its value there; every other key is as in `m`. */
  lemma {:induction false} PutAllGet<K(!new), V>(m: OMap<K, V>, e: OMap<K, V>, q: K)
    requires UniqueKeys(e)
    ensures Get(PutAll(m, e), q) == if Get(e, q).Some? then Get(e, q) else Get(m, q)
  {
    if e != [] {
      var init, k, v := e[..|e| - 1], e[|e| - 1].0, e[|e| - 1].1;
      LastKeyFresh(e);
      PutAllGet(m, init, q);
      GetSnoc(init, k, v, q);
    }
  }

  // ---------------------------------------------------------------------------
  // PHP truthiness of strings
  // ---------------------------------------------------------------------------

  /** PHP's `empty($s)` for a string: the empty string and "0" are empty. */
  predicate Falsy(s: string) {
    s == "" || s == "0"
  }

  /** PHP's `empty($x)` for a string that may be null. */
  predicate FalsyOpt(s: Option<string>) {
    s.None? || Falsy(s.value)
  }

  // ---------------------------------------------------------------------------
  // Strings
  // ---------------------------------------------------------------------------

  /** `strpos($s, $p) === 0`. */
  predicate StartsWith(s: string, p: string) {
    |p| <= |s| && s[..|p|] == p
  }

  /** `str_replace($a, $b, $s)` for single characters `a` and `b`. */
  function ReplaceChar(s: string, a: char, b: char): (r: string)
    ensures |r| == |s|
    ensures forall i :: 0 <= i < |s| ==> r[i] == (if s[i] == a then b else s[i])
    ensures a != b ==> a !in r
  {
    seq(|s|, i requires 0 <= i < |s| => if s[i] == a then b else s[i])
  }

  /** The characters PHP's `trim` removes: " \t\n\r\0\x0B". */
  predicate IsTrimmed(c: char) {
    c == ' ' || c == '\t' || c == '\n' || c == '\r' || c == '\0' || c == '\U{B}'
  }

  function TrimLeft(s: string): (r: string)
    ensures |r| <= |s|
    ensures r == s[|s| - |r|..]
    ensures r != [] ==> !IsTrimmed(r[0])
  {
    if s != [] && IsTrimmed(s[0]) then TrimLeft(s[1..]) else s
  }

  function TrimRight(s: string): (r: string)
    ensures |r| <= |s|
    ensures r == s[..|r|]
    ensures r != [] ==> !IsTrimmed(r[|r| - 1])
  {
    if s != [] && IsTrimmed(s[|s| - 1]) then TrimRight(s[..|s| - 1]) else s
  }

  /** PHP's `trim`. */
  function Trim(s: string): (r: string)
    ensures |r| <= |s|
    ensures r != [] ==> !IsTrimmed(r[0]) && !IsTrimmed(r[|r| - 1])
  {
    var l := TrimLeft(s);
    var r := TrimRight(l);
    assert r != [] ==> r[0] == l[0];
    r
  }

  /** A string is left alone by `trim` exactly when it has no trimmable character at either end. */
  lemma TrimFixpoint(s: string)
    ensures Trim(s) == s <==> (s == [] || (!IsTrimmed(s[0]) && !IsTrimmed(s[|s| - 1])))
  {
    if s != [] && !IsTrimmed(s[0]) && !IsTrimmed(s[|s| - 1]) {
      assert TrimLeft(s) == s;
      assert TrimRight(s) == s;
    }
  }

  /** `explode($d, $s)`: the pieces of `s` between occurrences of `d` (always at least one). */
  function Split(s: string, d: char): (r: seq<string>)
    ensures |r| >= 1
    ensures forall i :: 0 <= i < |r| ==> d !in r[i]
  {
    if s == [] then [""]
    else
      var rest := Split(s[1..], d);
      if s[0] == d then [""] + rest
      else [[s[0]] + rest[0]] + rest[1..]
  }

  /** `implode($d, $lines)`. */
  function Join(lines: seq<string>, d: char): string {
    if lines == [] then ""
    else if |lines| == 1 then lines[0]
    else lines[0] + [d] + Join(lines[1..], d)
  }

  lemma {:induction false} SplitPrefix(a: string, b: string, d: char)
    requires d !in a
    ensures Split(a + [d] + b, d) == [a] + Split(b, d)
    decreases |a|
  {
    if a == [] {
      assert a + [d] + b == [d] + b;
      assert ([d] + b)[1..] == b;
    } else {
      SplitPrefix(a[1..], b, d);
      assert (a + [d] + b)[1..] == a[1..] + [d] + b;
      assert [a[0]] + a[1..] == a;
    }
  }

  lemma {:induction false} SplitNoDelimiter(a: string, d: char)
    requires d !in a
    ensures Split(a, d) == [a]
    decreases |a|
  {
    if a != [] {
      SplitNoDelimiter(a[1..], d);
      assert [a[0]] + a[1..] == a;
    }
  }

  /** `explode` undoes `implode` when no piece contains the delimiter. */
  lemma {:induction false} SplitJoin(lines: seq<string>, d: char)
    requires |lines| >= 1
    requires forall i :: 0 <= i < |lines| ==> d !in lines[i]
    ensures Split(Join(lines, d), d) == lines
    decreases |lines|
  {
    if |lines| == 1 {
      SplitNoDelimiter(lines[0], d);
    } else {
      SplitJoin(lines[1..], d);
      SplitPrefix(lines[0], Join(lines[1..], d), d);
      assert [lines[0]] + lines[1..] == lines;
    }
  }

  lemma {:induction false} JoinStartsWith(lines: seq<string>, d: char)
    requires |lines| >= 1
    ensures StartsWith(Join(lines, d), lines[0])
  {
    if |lines| > 1 {
      assert Join(lines, d) == lines[0] + ([d] + Join(lines[1..], d));
    }
  }

  function DigitChar(n: nat): char
    requires n < 10
  {
    "0123456789"[n]
  }

  /** The decimal representation of a natural number, as PHP and JavaScript print it. */
  function NatToString(n: nat): (r: string)
    ensures |r| >= 1
    ensures forall i :: 0 <= i < |r| ==> '0' <= r[i] <= '9'
    ensures r[0] == '0' ==> n == 0
  {
    if n < 10 then [DigitChar(n)] else NatToString(n / 10) + [DigitChar(n % 10)]
  }

  /** `String(n)` for an integer. */
  function IntToString(n: int): (r: string)
    ensures |r| >= 1
  {
    if n < 0 then "-" + NatToString(-n) else NatToString(n)
  }
}
