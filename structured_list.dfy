/**
 * The Carbon structured list field-group formatter: `preRender` turns the
 * fields of a group into the rows of a `carbon_design_system:structured_list`
 * component, optionally with two custom column headers, marks every field it
 * shows as printed with its label hidden, and gives the group a heading whose
 * id is the group's anchor.
 *
 * The render element is an object whose children and properties `preRender`
 * updates in place. The entity's fields are a map from field name to field
 * definition; what the parent formatter's `preRender` does is not part of this
 * model.
 */
module CarbonStructuredList {
  import opened Common

  /** A field's render array: its `#label_display`, its `#printed` flag and the rest of it. */
  datatype Child = Child(labelDisplay: Option<string>, printed: bool, content: string)

  /** The definition of an entity field: its label and its field type. */
  datatype FieldDefinition = FieldDefinition(caption: string, fieldType: string)

  /** The field group: its machine name, its label and the names of its children, in order. */
  datatype Group = Group(name: string, caption: string, children: seq<string>)

  /** The formatter's settings; unset values are `None`. */
  datatype Settings = Settings(customHeaders: Option<string>, size: Option<string>, selection: Option<string>,
                               flush: Option<string>)

  /** One row of the list: the label shown, and the field's render array. */
  datatype Row = Row(caption: string, value: Child)

  /** The `h2` heading of the group, with the anchor as its id. */
  datatype Heading = Heading(text: string, anchor: string)

  /** The `#props` of the structured list; a header keeps its line number as its key. */
  datatype ListProps = ListProps(headers: seq<(nat, string)>, rows: seq<Row>, size: string, selection: bool, flush: bool)

  const FormModeLinksType := "form_mode_links"
  const Library := "carbon_design_system/structured_list_custom"
  const ContainerClass := "field-group-carbon-structured-list"

  // ---------------------------------------------------------------------------
  // The group anchor
  // ---------------------------------------------------------------------------

  /** The id of a group's heading: `group-` and the group name with `_` replaced by `-`. */
  function GroupAnchor(name: string): (anchor: string)
    ensures |anchor| == |name| + 6
    ensures StartsWith(anchor, "group-")
    ensures '_' !in anchor
  {
    var a := "group-" + ReplaceChar(name, '_', '-');
    assert forall i :: 0 <= i < |a| ==> a[i] != '_' by {
      forall i | 0 <= i < |a| ensures a[i] != '_' {
        if i >= 6 {
          assert a[i] == ReplaceChar(name, '_', '-')[i - 6];
        }
      }
    }
    a
  }

  /** On machine names, which hold no `-`, different groups get different anchors. */
  lemma GroupAnchorInjective(a: string, b: string)
    requires '-' !in a && '-' !in b
    requires GroupAnchor(a) == GroupAnchor(b)
    ensures a == b
  {
    assert |a| == |b|;
    forall i | 0 <= i < |a| ensures a[i] == b[i] {
      assert GroupAnchor(a)[i + 6] == GroupAnchor(b)[i + 6];
    }
  }

  /** A name with `-` shares its anchor with the same name spelled with `_`. */
  lemma GroupAnchorCollision()
    ensures GroupAnchor("a_b") == GroupAnchor("a-b")
  {
    assert ReplaceChar("a_b", '_', '-') == "a-b";
    assert ReplaceChar("a-b", '_', '-') == "a-b";
  }

  // ---------------------------------------------------------------------------
  // Custom headers
  // ---------------------------------------------------------------------------

  /**
   * `array_filter(array_map('trim', $lines))`: the trimmed lines that are not
   * empty, each with its line number, which `array_filter` keeps as its key.
   */
  function KeptLines(lines: seq<string>): seq<(nat, string)> {
    if lines == [] then []
    else
      var n := |lines| - 1;
      KeptLines(lines[..n]) + if Falsy(Trim(lines[n])) then [] else [(n, Trim(lines[n]))]
  }

  /** The headers: the kept lines of the setting, used only when there are exactly two. */
  function CustomHeaders(setting: Option<string>): seq<(nat, string)> {
    if FalsyOpt(setting) then []
    else
      var kept := KeptLines(Split(setting.value, '\n'));
      if |kept| == 2 then kept else []
  }

  /** Every kept line is a trimmed, non-empty line of the input. */
  lemma {:induction false} KeptLinesSound(lines: seq<string>)
    ensures forall j :: 0 <= j < |KeptLines(lines)| ==>
              KeptLines(lines)[j].0 < |lines|
              && KeptLines(lines)[j].1 == Trim(lines[KeptLines(lines)[j].0])
              && !Falsy(KeptLines(lines)[j].1)
  {
    if lines != [] {
      var n := |lines| - 1;
      var prev := KeptLines(lines[..n]);
      KeptLinesSound(lines[..n]);
      var kept := KeptLines(lines);
      assert kept == prev + if Falsy(Trim(lines[n])) then [] else [(n, Trim(lines[n]))];
      forall j | 0 <= j < |kept|
        ensures kept[j].0 < |lines| && kept[j].1 == Trim(lines[kept[j].0]) && !Falsy(kept[j].1)
      {
        if j < |prev| {
          assert kept[j] == prev[j];
          assert lines[..n][prev[j].0] == lines[prev[j].0];
        }
      }
    }
  }

  /** The kept lines are in line order. */
  lemma {:induction false} KeptLinesOrdered(lines: seq<string>)
    ensures forall j, j' :: 0 <= j < j' < |KeptLines(lines)| ==> KeptLines(lines)[j].0 < KeptLines(lines)[j'].0
  {
    if lines != [] {
      var n := |lines| - 1;
      var prev := KeptLines(lines[..n]);
      KeptLinesOrdered(lines[..n]);
      KeptLinesSound(lines[..n]);
      var kept := KeptLines(lines);
      var t := Trim(lines[n]);
      if Falsy(t) {
        assert kept == prev;
      } else {
        assert kept == prev + [(n, t)];
        forall j, j' | 0 <= j < j' < |kept| ensures kept[j].0 < kept[j'].0 {
          assert kept[j] == prev[j] && prev[j].0 < n;
          if j' < |prev| {
            assert kept[j'] == prev[j'];
          }
        }
      }
    }
  }

  /** The headers are none or two, each a trimmed non-empty line, in line order. */
  lemma CustomHeadersShape(setting: Option<string>)
    ensures |CustomHeaders(setting)| == 0 || |CustomHeaders(setting)| == 2
    ensures forall j :: 0 <= j < |CustomHeaders(setting)| ==>
              !Falsy(CustomHeaders(setting)[j].1) && Trim(CustomHeaders(setting)[j].1) == CustomHeaders(setting)[j].1
    ensures |CustomHeaders(setting)| == 2 ==> CustomHeaders(setting)[0].0 < CustomHeaders(setting)[1].0
  {
    var h := CustomHeaders(setting);
    if |h| == 2 {
      var lines := Split(setting.value, '\n');
      assert h == KeptLines(lines);
      KeptLinesSound(lines);
      KeptLinesOrdered(lines);
      TrimFixpoint(h[0].1);
      TrimFixpoint(h[1].1);
    }
  }

  lemma KeptTwoLines(a: string, b: string)
    requires !Falsy(Trim(a)) && !Falsy(Trim(b))
    ensures KeptLines([a, b]) == [(0, Trim(a)), (1, Trim(b))]
  {
    assert [a, b][..1] == [a];
    assert [a][..0] == [];
    assert KeptLines([a]) == KeptLines([]) + [(0, Trim(a))];
    assert KeptLines([a, b]) == KeptLines([a]) + [(1, Trim(b))];
  }

  lemma SplitTwoLines(a: string, b: string)
    requires '\n' !in a && '\n' !in b
    ensures Split(a + "\n" + b, '\n') == [a, b]
    ensures !Falsy(a + "\n" + b)
  {
    SplitPrefix(a, b, '\n');
    SplitNoDelimiter(b, '\n');
    assert (a + "\n" + b)[|a|] == '\n';
  }

  /** Two lines with text give exactly those two headers, trimmed. */
  lemma TwoLineHeaders(a: string, b: string)
    requires '\n' !in a && '\n' !in b
    requires !Falsy(Trim(a)) && !Falsy(Trim(b))
    ensures CustomHeaders(Some(a + "\n" + b)) == [(0, Trim(a)), (1, Trim(b))]
  {
    SplitTwoLines(a, b);
    KeptTwoLines(a, b);
  }

  // ---------------------------------------------------------------------------
  // Rows
  // ---------------------------------------------------------------------------

  /** A row's label: empty for a form-mode-links field, the field label otherwise. */
  function RowLabel(def: FieldDefinition): string {
    if def.fieldType == FormModeLinksType then "" else def.caption
  }

  /** A child as the loop leaves it: label hidden and printed. */
  function Flagged(c: Child): Child {
    c.(labelDisplay := Some("hidden"), printed := true)
  }

  /** The loop over the group's children: the rows so far and the children as updated so far. */
  function Walk(names: seq<string>, fields: map<string, FieldDefinition>, children: map<string, Child>)
    : (seq<Row>, map<string, Child>)
  {
    if names == [] then ([], children)
    else
      var n := |names| - 1;
      var (rows, kids) := Walk(names[..n], fields, children);
      var name := names[n];
      if name in fields && name in kids then
        var shown := kids[name].(labelDisplay := Some("hidden"));
        (rows + [Row(RowLabel(fields[name]), shown)], kids[name := shown.(printed := true)])
      else (rows, kids)
  }

  /** The names of the children that get a row, in the group's order. */
  function RowNames(names: seq<string>, fields: map<string, FieldDefinition>, children: map<string, Child>)
    : seq<string>
  {
    if names == [] then []
    else
      var n := |names| - 1;
      RowNames(names[..n], fields, children) + if names[n] in fields && names[n] in children then [names[n]] else []
  }

  /**
   * The loop keeps the set of children; every child that gets a row ends up
   * hidden-labelled and printed, and every other child is untouched.
   */
  lemma {:induction false} WalkChildren(names: seq<string>, fields: map<string, FieldDefinition>,
                                         children: map<string, Child>)
    ensures Walk(names, fields, children).1.Keys == children.Keys
    ensures forall k :: k in children ==>
              Walk(names, fields, children).1[k] == if k in names && k in fields then Flagged(children[k]) else children[k]
  {
    if names != [] {
      var n := |names| - 1;
      WalkChildren(names[..n], fields, children);
      assert names == names[..n] + [names[n]];
    }
  }

  /** One row for every child the entity has and the element holds, in order, with its label and its field's content. */
  lemma {:induction false} WalkRows(names: seq<string>, fields: map<string, FieldDefinition>, children: map<string, Child>)
    ensures var rows := Walk(names, fields, children).0;
            var rn := RowNames(names, fields, children);
            && |rows| == |rn|
            && forall j :: 0 <= j < |rows| ==>
                 rn[j] in fields && rn[j] in children
                 && rows[j].caption == RowLabel(fields[rn[j]])
                 && rows[j].value.labelDisplay == Some("hidden")
                 && rows[j].value.content == children[rn[j]].content
  {
    if names != [] {
      var n := |names| - 1;
      WalkRows(names[..n], fields, children);
      WalkChildren(names[..n], fields, children);
    }
  }

  // ---------------------------------------------------------------------------
  // The render element
  // ---------------------------------------------------------------------------

  /** The field group's render element. */
  class GroupElement {
    /** The render arrays of the fields, by field name. */
    var children: map<string, Child>
    /** `$element['group_label']`. */
    var heading: Option<Heading>
    /** `$element['structured_list']`'s props. */
    var structuredList: Option<ListProps>
    /** `#type` and the classes of `#attributes`. */
    var elementType: Option<string>
    var classes: Option<seq<string>>
    /** `#attached['library']`. */
    var libraries: seq<string>

    constructor (children: map<string, Child>, elementType: Option<string>, classes: Option<seq<string>>)
      ensures this.children == children && heading == None && structuredList == None
      ensures this.elementType == elementType && this.classes == classes && libraries == []
    {
      this.children := children;
      heading := None;
      structuredList := None;
      this.elementType := elementType;
      this.classes := classes;
      libraries := [];
    }

    /**
     * The loop over the group's children: each child the entity has and the
     * element holds gets its label hidden, becomes a row, and is marked printed.
     */
    method ShowChildren(names: seq<string>, fields: map<string, FieldDefinition>) returns (rows: seq<Row>)
      modifies this`children
      ensures (rows, children) == Walk(names, fields, old(children))
    {
      rows := [];
      var i := 0;
      while i < |names|
        invariant 0 <= i <= |names|
        invariant (rows, children) == Walk(names[..i], fields, old(children))
      {
        assert names[..i + 1][..i] == names[..i];
        var name := names[i];
        assert names[..i + 1][i] == name;
        if name in fields && name in children {
          ghost var before := children;
          var def := fields[name];
          children := children[name := children[name].(labelDisplay := Some("hidden"))];
          rows := rows + [Row(if def.fieldType == FormModeLinksType then "" else def.caption, children[name])];
          children := children[name := children[name].(printed := true)];
          assert children == before[name := before[name].(labelDisplay := Some("hidden")).(printed := true)];
        }
        i := i + 1;
      }
      assert names[..i] == names;
    }

    /**
     * `preRender`: the rows and children as `Walk` leaves them, the custom
     * headers, a heading only for a group with a label, `size` defaulting to
     * `lg`, `selection` and `flush` as booleans, container defaults only where
     * unset, and the library attached.
     */
    method PreRender(group: Group, settings: Settings, fields: map<string, FieldDefinition>)
      modifies this
      ensures var (rows, kids) := Walk(group.children, fields, old(children));
              && children == kids
              && structuredList == Some(ListProps(CustomHeaders(settings.customHeaders), rows, settings.size.GetOr("lg"),
                                                  !FalsyOpt(settings.selection), !FalsyOpt(settings.flush)))
      ensures heading == if Falsy(group.caption) then old(heading) else Some(Heading(group.caption, GroupAnchor(group.name)))
      ensures elementType == if old(elementType).Some? then old(elementType) else Some("container")
      ensures classes == if old(classes).Some? then old(classes) else Some([ContainerClass])
      ensures libraries == old(libraries) + [Library]
    {
      var headers := CustomHeaders(settings.customHeaders);

      var rows := ShowChildren(group.children, fields);

      var anchor := "group-" + ReplaceChar(group.name, '_', '-');
      if !Falsy(group.caption) {
        heading := Some(Heading(group.caption, anchor));
      }
      structuredList := Some(ListProps(headers, rows, settings.size.GetOr("lg"),
                                       !FalsyOpt(settings.selection), !FalsyOpt(settings.flush)));
      if elementType.None? {
        elementType := Some("container");
      }
      if classes.None? {
        classes := Some([ContainerClass]);
      }
      libraries := libraries + [Library];
    }
  }
}
