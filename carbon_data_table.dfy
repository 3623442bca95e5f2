/**
 * The Carbon data table style of Views: `render` turns the view's fields and
 * result rows into the props of the `carbon_design_system:datatable`
 * component, one header per field that is not excluded, one row per result
 * with its cells keyed by field id, and, when row actions are on, the edit and
 * delete links the user may follow.
 *
 * The view's fields are a PHP array keyed by field id. What `advancedRender`
 * produces for a row and a field is the function parameter `render`; whether
 * the user may update or delete a row's entity, and the URLs of its edit and
 * delete forms, come with the entity.
 */
module CarbonViewsDataTable {
  import opened Common

  /** A field handler of the view: its label (`caption`) and whether its `exclude` option is set. */
  datatype ViewField = ViewField(caption: string, excluded: bool)

  type Fields = OMap<string, ViewField>

  /** One entry of the `headers` prop. */
  datatype Header = Header(key: string, header: string, width: string)

  /** The entity of a result row, with the access checks and form URLs `render` asks of it. */
  datatype Entity = Entity(canUpdate: bool, canDelete: bool, editUrl: string, deleteUrl: string)

  /** A result row of the view: its position and its `_entity`, if any. */
  datatype ResultRow = ResultRow(index: nat, entity: Option<Entity>)

  /** `$field->advancedRender($row)` for a row and a field id. */
  type Renderer = (ResultRow, string) -> string

  /** A value of a row: a rendered cell, or the links of `dynamic_actions`. */
  datatype Cell = Markup(markup: string) | Actions(links: OMap<string, string>)

  type RowData = OMap<string, Cell>

  /** The style options `render` reads. */
  datatype Options = Options(title: string, description: string, size: string, rowActions: bool,
                             widths: OMap<string, string>)

  /** The `#props` of the rendered component. */
  datatype Props = Props(title: string, description: string, size: string, headers: seq<Header>,
                         rows: seq<RowData>, rowActions: bool)

  /** The row key that holds the row actions. */
  const ActionsKey := "dynamic_actions"

  /**
   * The header of a field: its label, or its id when the label is empty; its
   * configured width, or `auto` when none is set or the setting is empty.
   */
  function HeaderFor(id: string, field: ViewField, widths: OMap<string, string>): (h: Header)
    ensures h.key == id
    ensures !Falsy(field.caption) ==> h.header == field.caption
    ensures Falsy(field.caption) ==> h.header == id
    ensures !Falsy(id) ==> !Falsy(h.header)
    ensures !Falsy(h.width)
    ensures Get(widths, id).Some? && !Falsy(Get(widths, id).value) ==> h.width == Get(widths, id).value
  {
    var w := Get(widths, id);
    Header(id, if Falsy(field.caption) then id else field.caption, if w.Some? && !Falsy(w.value) then w.value else "auto")
  }

  /** The ids of the fields that are not excluded, in field order. */
  function IncludedIds(fields: Fields): seq<string> {
    if fields == [] then []
    else
      var n := |fields| - 1;
      IncludedIds(fields[..n]) + if fields[n].1.excluded then [] else [fields[n].0]
  }

  /** The headers the first loop of `render` builds. */
  function Headers(fields: Fields, widths: OMap<string, string>): seq<Header> {
    if fields == [] then []
    else
      var n := |fields| - 1;
      Headers(fields[..n], widths)
      + if fields[n].1.excluded then [] else [HeaderFor(fields[n].0, fields[n].1, widths)]
  }

  /** The cells of a row: every field that is not excluded, rendered for that row. */
  function RowCells(fields: Fields, row: ResultRow, render: Renderer): RowData {
    if fields == [] then []
    else
      var n := |fields| - 1;
      var prev := RowCells(fields[..n], row, render);
      if fields[n].1.excluded then prev else Put(prev, fields[n].0, Markup(render(row, fields[n].0)))
  }

  /** The `$actions` of an entity: `edit` when it may be updated, `delete` when it may be deleted. */
  function ActionLinks(e: Entity): (links: OMap<string, string>)
    ensures Get(links, "edit") == if e.canUpdate then Some(e.editUrl) else None
    ensures Get(links, "delete") == if e.canDelete then Some(e.deleteUrl) else None
  {
    var withEdit := if e.canUpdate then Put([], "edit", e.editUrl) else [];
    if e.canDelete then Put(withEdit, "delete", e.deleteUrl) else withEdit
  }

  /** A whole row: the cells, plus the actions when the row has an entity and row actions are on. */
  function RowFor(fields: Fields, row: ResultRow, render: Renderer, rowActions: bool): RowData {
    var cells := RowCells(fields, row, render);
    if row.entity.Some? && rowActions then Put(cells, ActionsKey, Actions(ActionLinks(row.entity.value))) else cells
  }

  // ---------------------------------------------------------------------------
  // render
  // ---------------------------------------------------------------------------

  /** The cells and actions of one result row: the body of the second loop of `render`. */
  method RenderRow(fields: Fields, row: ResultRow, render: Renderer, rowActions: bool) returns (data: RowData)
    ensures data == RowFor(fields, row, render, rowActions)
  {
    data := [];
    var i := 0;
    while i < |fields|
      invariant 0 <= i <= |fields|
      invariant data == RowCells(fields[..i], row, render)
    {
      assert fields[..i + 1][..i] == fields[..i];
      var (id, field) := fields[i];
      if !field.excluded {
        data := Put(data, id, Markup(render(row, id)));
      }
      i := i + 1;
    }
    assert fields[..i] == fields;
    if row.entity.Some? && rowActions {
      var entity := row.entity.value;
      var actions: OMap<string, string> := [];
      if entity.canUpdate {
        actions := Put(actions, "edit", entity.editUrl);
      }
      if entity.canDelete {
        actions := Put(actions, "delete", entity.deleteUrl);
      }
      data := Put(data, ActionsKey, Actions(actions));
    }
  }

  /** The first loop of `render`: a header for each field that is not excluded. */
  method RenderHeaders(fields: Fields, widths: OMap<string, string>) returns (headers: seq<Header>)
    ensures headers == Headers(fields, widths)
  {
    headers := [];
    var i := 0;
    while i < |fields|
      invariant 0 <= i <= |fields|
      invariant headers == Headers(fields[..i], widths)
    {
      assert fields[..i + 1][..i] == fields[..i];
      var (id, field) := fields[i];
      if !field.excluded {
        var w := Get(widths, id);
        headers := headers + [Header(id, if Falsy(field.caption) then id else field.caption,
                                     if w.Some? && !Falsy(w.value) then w.value else "auto")];
      }
      i := i + 1;
    }
    assert fields[..i] == fields;
  }

  /** `render`: the headers, one row per result in result order, and the options passed through. */
  method Render(fields: Fields, results: seq<ResultRow>, options: Options, render: Renderer) returns (props: Props)
    ensures props.headers == Headers(fields, options.widths)
    ensures |props.rows| == |results|
    ensures forall k :: 0 <= k < |results| ==> props.rows[k] == RowFor(fields, results[k], render, options.rowActions)
    ensures props.title == options.title && props.description == options.description
    ensures props.size == options.size && props.rowActions == options.rowActions
  {
    var headers := RenderHeaders(fields, options.widths);
    var rows: seq<RowData> := [];
    var k := 0;
    while k < |results|
      invariant 0 <= k <= |results|
      invariant |rows| == k
      invariant forall j :: 0 <= j < k ==> rows[j] == RowFor(fields, results[j], render, options.rowActions)
    {
      var data := RenderRow(fields, results[k], render, options.rowActions);
      rows := rows + [data];
      k := k + 1;
    }
    props := Props(options.title, options.description, options.size, headers, rows, options.rowActions);
  }

  // ---------------------------------------------------------------------------
  // Properties
  // ---------------------------------------------------------------------------

  /** The headers are exactly the fields that are not excluded, in field order. */
  lemma {:induction false} HeadersKeys(fields: Fields, widths: OMap<string, string>)
    ensures |Headers(fields, widths)| == |IncludedIds(fields)|
    ensures forall j :: 0 <= j < |IncludedIds(fields)| ==> Headers(fields, widths)[j].key == IncludedIds(fields)[j]
  {
    if fields != [] {
      HeadersKeys(fields[..|fields| - 1], widths);
    }
  }

  /** An included id is the id of a field that is not excluded. */
  lemma {:induction false} IncludedIdsGet(fields: Fields, q: string)
    requires UniqueKeys(fields)
    ensures q in IncludedIds(fields) <==> Get(fields, q).Some? && !Get(fields, q).value.excluded
  {
    if fields != [] {
      var n := |fields| - 1;
      LastKeyFresh(fields);
      IncludedIdsGet(fields[..n], q);
      GetSnoc(fields[..n], fields[n].0, fields[n].1, q);
    }
  }

  /** A row holds a rendered cell exactly for the ids of the headers. */
  lemma {:induction false} RowCellsGet(fields: Fields, row: ResultRow, render: Renderer, q: string)
    ensures Get(RowCells(fields, row, render), q) == if q in IncludedIds(fields) then Some(Markup(render(row, q))) else None
  {
    if fields != [] {
      RowCellsGet(fields[..|fields| - 1], row, render, q);
    }
  }

  /** The cells of a row are keyed by the header keys, in header order, so cells line up with headers. */
  lemma {:induction false} CellsAlign(fields: Fields, row: ResultRow, render: Renderer)
    requires UniqueKeys(fields)
    ensures Keys(RowCells(fields, row, render)) == IncludedIds(fields)
  {
    if fields != [] {
      var n := |fields| - 1;
      LastKeyFresh(fields);
      CellsAlign(fields[..n], row, render);
      var prev := RowCells(fields[..n], row, render);
      if !fields[n].1.excluded {
        var id := fields[n].0;
        IncludedIdsGet(fields[..n], id);
        RowCellsGet(fields[..n], row, render, id);
        PutKeys(prev, id, Markup(render(row, id)));
      }
    }
  }

  /** The actions list `edit` before `delete`, each only with the matching access. */
  lemma ActionLinksKeys(e: Entity)
    ensures Keys(ActionLinks(e)) == (if e.canUpdate then ["edit"] else []) + (if e.canDelete then ["delete"] else [])
  {
    var withEdit := if e.canUpdate then Put([], "edit", e.editUrl) else [];
    if e.canUpdate {
      PutKeys([], "edit", e.editUrl);
    }
    if e.canDelete {
      PutKeys(withEdit, "delete", e.deleteUrl);
    }
  }

  /**
   * `dynamic_actions` holds the entity's links exactly when the row has an
   * entity and row actions are on; otherwise the row is its cells alone, and
   * the actions never change the cell of any other key.
   */
  lemma RowActions(fields: Fields, row: ResultRow, render: Renderer, rowActions: bool, q: string)
    ensures row.entity.Some? && rowActions ==>
              Get(RowFor(fields, row, render, rowActions), ActionsKey) == Some(Actions(ActionLinks(row.entity.value)))
    ensures !(row.entity.Some? && rowActions) ==> RowFor(fields, row, render, rowActions) == RowCells(fields, row, render)
    ensures q != ActionsKey ==> Get(RowFor(fields, row, render, rowActions), q) == Get(RowCells(fields, row, render), q)
  {
  }
}
