/**
 * The table-of-contents block for structured lists: for the entity of the
 * current route it lists the field groups of its display that are Carbon
 * structured lists marked "show in table of contents", ordered by weight,
 * each linking to the group's heading.
 *
 * The route parameters are a list of values, some of them entities. The
 * field-group settings of a view display are what `groupsOf(entityType,
 * bundle, mode)` returns: the groups by name, in configuration order. PHP's
 * `usort`, which is stable, is the stable insertion sort of `Sorting`.
 */
module CarbonStructuredListToc {
  import opened Common
  import Sorting
  import CarbonStructuredList

  /** An entity found among the route parameters. */
  datatype EntityRef = EntityRef(entityType: string, bundle: string, cacheTags: seq<string>)

  /** A route parameter: an entity or any other value. */
  datatype RouteParam = EntityParam(entity: EntityRef) | OtherParam

  /** The settings of one field group that the block reads; unset values are `None`. */
  datatype GroupInfo = GroupInfo(formatType: Option<string>, showInToc: Option<string>, caption: string,
                                 weight: Option<int>)

  type GroupSettings = OMap<string, GroupInfo>

  /** `getThirdPartySettings('field_group')` of the display of an entity type and bundle in a view mode. */
  type DisplayLookup = (string, string, string) -> GroupSettings

  /** An entry of `$toc_items`. */
  datatype TocItem = TocItem(caption: string, anchor: string, weight: int)

  /** A link of the list: its title and the URL it targets. */
  datatype Link = Link(title: string, url: string)

  /** The rendered `item_list`; the block renders nothing at all when it is `None`. */
  datatype Toc = Toc(links: seq<Link>, cacheTags: seq<string>)

  const StructuredListFormat := "carbon_structured_list"

  /** The first route parameter that is an entity. */
  function FirstEntity(params: seq<RouteParam>): (e: Option<EntityRef>)
    ensures e.Some? <==> exists i :: 0 <= i < |params| && params[i].EntityParam?
    ensures e.Some? ==> exists i :: 0 <= i < |params| && params[i] == EntityParam(e.value)
                                    && forall j :: 0 <= j < i ==> params[j].OtherParam?
  {
    if params == [] then None
    else if params[0].EntityParam? then Some(params[0].entity)
    else
      var r := FirstEntity(params[1..]);
      assert forall i :: 1 <= i < |params| ==> params[i] == params[1..][i - 1];
      if r.Some? then
        var i :| 0 <= i < |params[1..]| && params[1..][i] == EntityParam(r.value)
                 && forall j :: 0 <= j < i ==> params[1..][j].OtherParam?;
        assert params[i + 1] == EntityParam(r.value);
        r
      else r
  }

  /** The group settings used: the `full` display's, or the `default` display's when `full` has none. */
  function ChosenGroups(entity: EntityRef, groupsOf: DisplayLookup): GroupSettings {
    var full := groupsOf(entity.entityType, entity.bundle, "full");
    if full == [] then groupsOf(entity.entityType, entity.bundle, "default") else full
  }

  /** A group is listed when it is a structured list with `show_in_toc` set. */
  predicate Listed(info: GroupInfo) {
    info.formatType.GetOr("") == StructuredListFormat && !FalsyOpt(info.showInToc)
  }

  /** The entry of a listed group: its label, its anchor, and its weight (0 when unset). */
  function ItemFor(name: string, info: GroupInfo): TocItem {
    TocItem(info.caption, CarbonStructuredList.GroupAnchor(name), info.weight.GetOr(0))
  }

  /** `$toc_items`: an entry for each listed group, in configuration order. */
  function TocItems(groups: GroupSettings): seq<TocItem> {
    if groups == [] then []
    else
      var n := |groups| - 1;
      TocItems(groups[..n]) + if Listed(groups[n].1) then [ItemFor(groups[n].0, groups[n].1)] else []
  }

  /** The names of the listed groups, in configuration order. */
  function ListedNames(groups: GroupSettings): seq<string> {
    if groups == [] then []
    else
      var n := |groups| - 1;
      ListedNames(groups[..n]) + if Listed(groups[n].1) then [groups[n].0] else []
  }

  /** The comparison of `usort`: by weight. */
  function WeightLe(): (TocItem, TocItem) -> bool {
    (a: TocItem, b: TocItem) => a.weight <= b.weight
  }

  lemma WeightLeTotalPreorder()
    ensures Sorting.TotalPreorder(WeightLe())
  {
  }

  /** The links of the sorted entries, each to `#` and the anchor. */
  function Links(items: seq<TocItem>): (links: seq<Link>)
    ensures |links| == |items|
    ensures forall j :: 0 <= j < |items| ==> links[j] == Link(items[j].caption, "#" + items[j].anchor)
  {
    if items == [] then [] else [Link(items[0].caption, "#" + items[0].anchor)] + Links(items[1..])
  }

  /** What `build` renders, as a value. */
  function TocOf(params: seq<RouteParam>, groupsOf: DisplayLookup): Option<Toc> {
    var entity := FirstEntity(params);
    if entity.None? then None
    else
      var items := TocItems(ChosenGroups(entity.value, groupsOf));
      if items == [] then None
      else Some(Toc(Links(Sorting.InsertionSort(items, WeightLe())), entity.value.cacheTags))
  }

  // ---------------------------------------------------------------------------
  // build
  // ---------------------------------------------------------------------------

  /** The loop over the route parameters, stopping at the first entity. */
  method FindEntity(params: seq<RouteParam>) returns (entity: Option<EntityRef>)
    ensures entity == FirstEntity(params)
  {
    entity := None;
    var i := 0;
    while i < |params|
      invariant 0 <= i <= |params|
      invariant FirstEntity(params) == FirstEntity(params[i..])
    {
      assert params[i..][1..] == params[i + 1..];
      if params[i].EntityParam? {
        entity := Some(params[i].entity);
        return;
      }
      i := i + 1;
    }
  }

  /** The loop over the groups that builds `$toc_items`. */
  method CollectItems(groups: GroupSettings) returns (items: seq<TocItem>)
    ensures items == TocItems(groups)
  {
    items := [];
    var i := 0;
    while i < |groups|
      invariant 0 <= i <= |groups|
      invariant items == TocItems(groups[..i])
    {
      assert groups[..i + 1][..i] == groups[..i];
      var (name, info) := groups[i];
      if info.formatType.GetOr("") == StructuredListFormat {
        if !FalsyOpt(info.showInToc) {
          items := items + [TocItem(info.caption, "group-" + ReplaceChar(name, '_', '-'), info.weight.GetOr(0))];
        }
      }
      i := i + 1;
    }
    assert groups[..i] == groups;
  }

  /** The loop that turns the sorted entries into links. */
  method RenderLinks(items: seq<TocItem>) returns (links: seq<Link>)
    ensures links == Links(items)
  {
    links := [];
    var i := 0;
    while i < |items|
      invariant 0 <= i <= |items|
      invariant links == Links(items[..i])
    {
      LinksSnoc(items[..i], items[i]);
      assert items[..i + 1] == items[..i] + [items[i]];
      links := links + [Link(items[i].caption, "#" + items[i].anchor)];
      i := i + 1;
    }
    assert items[..i] == items;
  }

  /** `build`. */
  method Build(params: seq<RouteParam>, groupsOf: DisplayLookup) returns (toc: Option<Toc>)
    ensures toc == TocOf(params, groupsOf)
  {
    var entity := FindEntity(params);
    if entity.None? {
      return None;
    }
    var e := entity.value;
    var groups := groupsOf(e.entityType, e.bundle, "full");
    if groups == [] {
      groups := groupsOf(e.entityType, e.bundle, "default");
    }
    var tocItems: seq<TocItem> := [];
    if groups != [] {
      tocItems := CollectItems(groups);
    }
    if tocItems == [] {
      return None;
    }
    tocItems := Sorting.InsertionSort(tocItems, WeightLe());
    var links := RenderLinks(tocItems);
    toc := Some(Toc(links, e.cacheTags));
  }

  lemma LinksSnoc(items: seq<TocItem>, x: TocItem)
    ensures Links(items + [x]) == Links(items) + [Link(x.caption, "#" + x.anchor)]
  {
  }

  // ---------------------------------------------------------------------------
  // Properties
  // ---------------------------------------------------------------------------

  /** Without an entity among the route parameters the block renders nothing. */
  lemma NoEntityNothing(params: seq<RouteParam>, groupsOf: DisplayLookup)
    requires forall i :: 0 <= i < |params| ==> params[i].OtherParam?
    ensures TocOf(params, groupsOf).None?
  {
  }

  /** The `default` display is consulted only when `full` has no field groups. */
  lemma FullDisplayFirst(entity: EntityRef, groupsOf: DisplayLookup)
    ensures groupsOf(entity.entityType, entity.bundle, "full") != [] ==>
              ChosenGroups(entity, groupsOf) == groupsOf(entity.entityType, entity.bundle, "full")
    ensures groupsOf(entity.entityType, entity.bundle, "full") == [] ==>
              ChosenGroups(entity, groupsOf) == groupsOf(entity.entityType, entity.bundle, "default")
  {
  }

  /**
   * The entries are exactly the listed groups, in configuration order, and
   * each one's anchor is the anchor the structured-list formatter gives the
   * heading of the group of that name.
   */
  lemma {:induction false} TocItemsListed(groups: GroupSettings)
    ensures |TocItems(groups)| == |ListedNames(groups)|
    ensures forall j :: 0 <= j < |TocItems(groups)| ==>
              TocItems(groups)[j].anchor == CarbonStructuredList.GroupAnchor(ListedNames(groups)[j])
  {
    if groups != [] {
      TocItemsListed(groups[..|groups| - 1]);
    }
  }

  /** A group name is listed exactly when its group is a structured list shown in the TOC. */
  lemma {:induction false} ListedNamesIff(groups: GroupSettings, q: string)
    requires UniqueKeys(groups)
    ensures q in ListedNames(groups) <==> Get(groups, q).Some? && Listed(Get(groups, q).value)
  {
    if groups != [] {
      var n := |groups| - 1;
      LastKeyFresh(groups);
      ListedNamesIff(groups[..n], q);
      GetSnoc(groups[..n], groups[n].0, groups[n].1, q);
    }
  }

  /** With no listed group the block renders nothing. */
  lemma NoListedNothing(params: seq<RouteParam>, groupsOf: DisplayLookup)
    requires FirstEntity(params).Some?
    requires ListedNames(ChosenGroups(FirstEntity(params).value, groupsOf)) == []
    ensures TocOf(params, groupsOf).None?
  {
    TocItemsListed(ChosenGroups(FirstEntity(params).value, groupsOf));
  }

  /**
   * The rendered links are the entries sorted by weight: ascending, a
   * permutation of the entries, and entries of equal weight in configuration
   * order; each link targets `#` and the entry's anchor.
   */
  lemma TocOrdered(params: seq<RouteParam>, groupsOf: DisplayLookup)
    requires TocOf(params, groupsOf).Some?
    ensures var items := TocItems(ChosenGroups(FirstEntity(params).value, groupsOf));
            var sorted := Sorting.InsertionSort(items, WeightLe());
            && TocOf(params, groupsOf).value.links == Links(sorted)
            && (forall j, k :: 0 <= j < k < |sorted| ==> sorted[j].weight <= sorted[k].weight)
            && multiset(sorted) == multiset(items)
            && (forall e :: Sorting.TiedWith(sorted, e, WeightLe()) == Sorting.TiedWith(items, e, WeightLe()))
  {
    var items := TocItems(ChosenGroups(FirstEntity(params).value, groupsOf));
    WeightLeTotalPreorder();
    Sorting.SortSorted(items, WeightLe());
    Sorting.SortPermutes(items, WeightLe());
    forall e ensures Sorting.TiedWith(Sorting.InsertionSort(items, WeightLe()), e, WeightLe())
                     == Sorting.TiedWith(items, e, WeightLe()) {
      Sorting.SortStable(items, e, WeightLe());
    }
  }
}
