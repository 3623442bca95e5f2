/**
 * The Drupal behaviour that connects Carbon's `<cds-pagination>` to Drupal's
 * pager: each pagination element gets its two listeners once, a page change
 * rewrites the `page` query parameter (Carbon counts pages from 1, Drupal
 * from 0), and a page-size change sets `items_per_page` and goes back to the
 * first page.
 *
 * The query of the current URL is a `URLSearchParams` object, an ordered
 * list of name/value pairs in which a name may repeat. Navigating to the
 * rewritten URL is left to the caller.
 */
module PaginationHandler {
  import opened Common

  type Entries = seq<(string, string)>

  /** The entries whose name is not `name`, in order. */
  function Without(e: Entries, name: string): (r: Entries)
    ensures forall i :: 0 <= i < |r| ==> r[i].0 != name
  {
    if e == [] then []
    else (if e[0].0 == name then [] else [e[0]]) + Without(e[1..], name)
  }

  /** `searchParams.get(name)`: the value of the first entry named `name`. */
  function GetParam(e: Entries, name: string): Option<string> {
    if e == [] then None
    else if e[0].0 == name then Some(e[0].1)
    else GetParam(e[1..], name)
  }

  /**
   * `searchParams.set(name, value)`: the first entry named `name` takes the
   * value and the later ones are removed; without one, the pair is appended.
   */
  function SetParam(e: Entries, name: string, value: string): Entries {
    if e == [] then [(name, value)]
    else if e[0].0 == name then [(name, value)] + Without(e[1..], name)
    else [e[0]] + SetParam(e[1..], name, value)
  }

  /** Removing a name twice is removing it once; removing two names commutes. */
  lemma {:induction false} WithoutWithout(e: Entries, a: string, b: string)
    ensures Without(Without(e, a), b) == Without(Without(e, b), a)
  {
    if e != [] {
      WithoutWithout(e[1..], a, b);
      var x := (if e[0].0 == a then [] else [e[0]]);
      assert Without(e, a) == x + Without(e[1..], a);
      WithoutAppend(x, Without(e[1..], a), b);
      var y := (if e[0].0 == b then [] else [e[0]]);
      assert Without(e, b) == y + Without(e[1..], b);
      WithoutAppend(y, Without(e[1..], b), a);
    }
  }

  lemma {:induction false} WithoutAppend(x: Entries, y: Entries, name: string)
    ensures Without(x + y, name) == Without(x, name) + Without(y, name)
  {
    if x == [] {
      assert x + y == y;
    } else {
      var h := if x[0].0 == name then [] else [x[0]];
      var xy := x + y;
      assert xy[0] == x[0] && xy[1..] == x[1..] + y;
      calc {
        Without(xy, name);
        h + Without(x[1..] + y, name);
        { WithoutAppend(x[1..], y, name); }
        h + (Without(x[1..], name) + Without(y, name));
        (h + Without(x[1..], name)) + Without(y, name);
      }
    }
  }

  /** After `delete(name)` no entry is named `name`. */
  lemma {:induction false} WithoutGet(e: Entries, name: string, q: string)
    ensures GetParam(Without(e, name), q) == if q == name then None else GetParam(e, q)
  {
    if e != [] {
      WithoutGet(e[1..], name, q);
      if e[0].0 != name {
        assert Without(e, name) == [e[0]] + Without(e[1..], name);
      } else {
        assert Without(e, name) == Without(e[1..], name);
      }
    }
  }

  lemma {:induction false} WithoutIdempotent(e: Entries, name: string)
    ensures Without(Without(e, name), name) == Without(e, name)
  {
    if e != [] {
      WithoutIdempotent(e[1..], name);
      var x := (if e[0].0 == name then [] else [e[0]]);
      WithoutAppend(x, Without(e[1..], name), name);
    }
  }

  /** After `set(name, value)`, `get(name)` is `value` and the entries with other names are as before. */
  lemma {:induction false} SetParamEffect(e: Entries, name: string, value: string)
    ensures GetParam(SetParam(e, name, value), name) == Some(value)
    ensures Without(SetParam(e, name, value), name) == Without(e, name)
  {
    if e == [] {
    } else if e[0].0 == name {
      var r := [(name, value)] + Without(e[1..], name);
      assert r[1..] == Without(e[1..], name);
      WithoutIdempotent(e[1..], name);
    } else {
      SetParamEffect(e[1..], name, value);
      var r := [e[0]] + SetParam(e[1..], name, value);
      assert r[1..] == SetParam(e[1..], name, value);
    }
  }

  /** `url.searchParams`. */
  class SearchParams {
    var entries: Entries

    constructor (entries: Entries)
      ensures this.entries == entries
    {
      this.entries := entries;
    }

    method Set(name: string, value: string)
      modifies this
      ensures entries == SetParam(old(entries), name, value)
    {
      entries := SetParam(entries, name, value);
    }

    method Delete(name: string)
      modifies this
      ensures entries == Without(old(entries), name)
    {
      entries := Without(entries, name);
    }
  }

  /** The query after Carbon reports page `newPage`. */
  function PageChanged(e: Entries, newPage: int): Entries {
    var drupalPage := newPage - 1;
    if drupalPage == 0 then Without(e, "page") else SetParam(e, "page", IntToString(drupalPage))
  }

  /** The query after Carbon reports page size `newPageSize`. */
  function PageSizeChanged(e: Entries, newPageSize: string): Entries {
    Without(SetParam(e, "items_per_page", newPageSize), "page")
  }

  /**
   * Carbon page `p` becomes Drupal page `p - 1`: page 1 removes `page`, any
   * other page sets it to `p - 1`, and no other parameter changes.
   */
  lemma PageChangedEffect(e: Entries, newPage: int)
    ensures GetParam(PageChanged(e, newPage), "page")
            == if newPage == 1 then None else Some(IntToString(newPage - 1))
    ensures Without(PageChanged(e, newPage), "page") == Without(e, "page")
  {
    if newPage == 1 {
      WithoutGet(e, "page", "page");
      WithoutIdempotent(e, "page");
    } else {
      SetParamEffect(e, "page", IntToString(newPage - 1));
    }
  }

  /**
   * A page-size change sets `items_per_page`, always removes `page`, and
   * leaves every other parameter as it was.
   */
  lemma PageSizeChangedEffect(e: Entries, newPageSize: string)
    ensures GetParam(PageSizeChanged(e, newPageSize), "items_per_page") == Some(newPageSize)
    ensures GetParam(PageSizeChanged(e, newPageSize), "page").None?
    ensures Without(Without(PageSizeChanged(e, newPageSize), "items_per_page"), "page")
         == Without(Without(e, "items_per_page"), "page")
  {
    var s := SetParam(e, "items_per_page", newPageSize);
    SetParamEffect(e, "items_per_page", newPageSize);
    WithoutGet(s, "page", "items_per_page");
    WithoutGet(s, "page", "page");
    WithoutWithout(s, "page", "items_per_page");
    WithoutIdempotent(Without(s, "items_per_page"), "page");
    WithoutWithout(e, "items_per_page", "page");
  }

  /** The `cds-pagination-changed-current` listener. */
  method OnPageChange(url: SearchParams, newPage: int)
    modifies url
    ensures url.entries == PageChanged(old(url.entries), newPage)
  {
    var drupalPage := newPage - 1;
    if drupalPage == 0 {
      url.Delete("page");
    } else {
      url.Set("page", IntToString(drupalPage));
    }
  }

  /** The `cds-page-sizes-select-changed` listener. */
  method OnPageSizeChange(url: SearchParams, newPageSize: string)
    modifies url
    ensures url.entries == PageSizeChanged(old(url.entries), newPageSize)
  {
    url.Set("items_per_page", newPageSize);
    url.Delete("page");
  }

  // ---------------------------------------------------------------------------
  // Attaching the listeners once
  // ---------------------------------------------------------------------------

  /** The events the behaviour listens to on each pagination element. */
  const Handled: seq<string> := ["cds-pagination-changed-current", "cds-page-sizes-select-changed"]

  /** A JavaScript string value (or `undefined`) is truthy when it is present and not empty. */
  predicate Truthy(s: Option<string>) {
    s.Some? && s.value != ""
  }

  /** A `cds-pagination` element: its `data-listener-attached` value and the events it has listeners for. */
  class PaginationElement {
    var listenerAttached: Option<string>
    var listeners: seq<string>

    constructor (listenerAttached: Option<string>, listeners: seq<string>)
      ensures this.listenerAttached == listenerAttached && this.listeners == listeners
    {
      this.listenerAttached := listenerAttached;
      this.listeners := listeners;
    }

    /** The body of the `forEach`: skip a marked element, otherwise mark it and add both listeners. */
    method Attach()
      modifies this
      ensures Truthy(old(listenerAttached)) ==> listenerAttached == old(listenerAttached) && listeners == old(listeners)
      ensures !Truthy(old(listenerAttached)) ==> listenerAttached == Some("true") && listeners == old(listeners) + Handled
    {
      if Truthy(listenerAttached) {
        return;
      }
      listenerAttached := Some("true");
      listeners := listeners + Handled;
    }
  }

  /**
   * `attach`: every pagination element ends up marked, and gains the two
   * listeners only if it was not marked before, even when `attach` meets the
   * same element more than once.
   */
  method AttachAll(elements: seq<PaginationElement>)
    modifies set e | e in elements
    ensures forall e :: e in elements ==> Truthy(e.listenerAttached)
    ensures forall e :: e in elements ==>
              e.listeners == old(e.listeners) + if Truthy(old(e.listenerAttached)) then [] else Handled
  {
    var i := 0;
    while i < |elements|
      invariant 0 <= i <= |elements|
      invariant forall e :: e in elements[..i] ==> Truthy(e.listenerAttached)
      invariant forall e :: e in elements[..i] ==>
                  e.listeners == old(e.listeners) + if Truthy(old(e.listenerAttached)) then [] else Handled
      invariant forall e :: e in elements && e !in elements[..i] ==>
                  e.listeners == old(e.listeners) && e.listenerAttached == old(e.listenerAttached)
    {
      assert elements[..i + 1] == elements[..i] + [elements[i]];
      elements[i].Attach();
      i := i + 1;
    }
    assert elements[..i] == elements;
  }
}
