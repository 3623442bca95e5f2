/**
 * The SuiteCRM storage client of the external-entities module: it asks the
 * CRM's list endpoint for every case, flattens the JSON:API items into
 * records keyed by case number, keeps that whole result set in Drupal's
 * cache for 300 seconds under one fixed key, and sorts, slices, looks up
 * and filters records in memory.
 *
 * The HTTP exchange is a `Response` value supplied by the caller (already
 * JSON-decoded, with the configured data path taken out); the current time
 * is the parameter `now`.
 */
module SuiteCrmStorage {
  import opened Common
  import Sorting
  import opened SuiteCrmConfigText

  // ---------------------------------------------------------------------------
  // Data
  // ---------------------------------------------------------------------------

  /** An attribute value of a case: a string or JSON null. */
  datatype Value = Str(s: string) | Null

  /** A flattened case record, an array keyed by attribute name. */
  type Record = OMap<string, Value>

  /** One element of the JSON:API `data` array. */
  datatype Item = Item(id: Option<string>, attributes: Option<Record>)

  /** The decoded body the list endpoint answered with. */
  datatype Body = ItemList(items: seq<Item>) | NotArray

  /** The outcome of the HTTP request: a body, or an exception from the client. */
  datatype Response = Reply(body: Body) | Failed

  /** A key of the result set: a case number, or a position after sorting re-indexed it. */
  datatype Key = CaseKey(caseNumber: string) | Position(index: nat)

  type ResultSet = OMap<Key, Record>

  /** A GET request sent to the CRM. */
  datatype Request = Request(endpoint: string, params: OMap<string, string>)

  /** A cache item: the stored data and its expiry timestamp. */
  datatype CacheEntry = CacheEntry(data: ResultSet, expire: int)

  const CacheKey := "suitecrm_cases_all"
  const CacheTtl := 300
  /** Drupal's `CACHE_PERMANENT`. */
  const Permanent := -1
  /** Drupal's `SAVED_NEW`. */
  const SavedNew := 1

  // ---------------------------------------------------------------------------
  // Outgoing query parameters
  // ---------------------------------------------------------------------------

  /** A caller parameter the CRM accepts: not `offset`, not `limit`, not starting with `sort`. */
  predicate Supported(key: string) {
    key != "offset" && key != "limit" && !StartsWith(key, "sort")
  }

  /** The caller parameters that survive the filter loop, in their order. */
  function FilterSupported(params: OMap<string, string>): OMap<string, string> {
    if params == [] then []
    else
      var prev := FilterSupported(params[..|params| - 1]);
      var (k, v) := params[|params| - 1];
      if Supported(k) then Put(prev, k, v) else prev
  }

  /** A supported caller parameter keeps its value; an unsupported one is gone. */
  lemma {:induction false} FilterSupportedGet(params: OMap<string, string>, q: string)
    requires UniqueKeys(params)
    ensures Get(FilterSupported(params), q) == if Supported(q) then Get(params, q) else None
  {
    if params != [] {
      var init, k, v := params[..|params| - 1], params[|params| - 1].0, params[|params| - 1].1;
      LastKeyFresh(params);
      FilterSupportedGet(init, q);
      GetSnoc(init, k, v, q);
    }
  }

  /** The filter loop over the caller's parameters. */
  method FilterParameters(params: OMap<string, string>) returns (filtered: OMap<string, string>)
    ensures filtered == FilterSupported(params)
  {
    filtered := [];
    var i := 0;
    while i < |params|
      invariant 0 <= i <= |params|
      invariant filtered == FilterSupported(params[..i])
    {
      var (key, value) := params[i];
      assert params[..i + 1][..i] == params[..i];
      if Supported(key) {
        filtered := Put(filtered, key, value);
      }
      i := i + 1;
    }
    assert params[..i] == params;
  }

  /** `$this->configuration['parameters'] ?? []`, replaced by `[]` when it is not an array. */
  function ConfigPairs(config: Option<ParamConfig>): OMap<string, string> {
    match config
    case Some(Pairs(p)) => p
    case _ => []
  }

  /** `array_merge($config_params, $filtered_params)`. */
  function Outgoing(config: Option<ParamConfig>, params: OMap<string, string>): OMap<string, string> {
    PutAll(ConfigPairs(config), FilterSupported(params))
  }

  /**
   * A supported caller parameter overrides the configured one of the same
   * name; under every other name the request carries the configured value,
   * so `offset`, `limit` and `sort...` from the caller never reach the CRM.
   */
  lemma OutgoingGet(config: Option<ParamConfig>, params: OMap<string, string>, q: string)
    requires UniqueKeys(params)
    ensures Get(Outgoing(config, params), q)
         == if Supported(q) && Get(params, q).Some? then Get(params, q) else Get(ConfigPairs(config), q)
  {
    var f := FilterSupported(params);
    FilterSupportedGet(params, q);
    FilterSupportedUnique(params);
    PutAllGet(ConfigPairs(config), f, q);
  }

  lemma {:induction false} FilterSupportedUnique(params: OMap<string, string>)
    ensures UniqueKeys(FilterSupported(params))
  {
    if params != [] {
      FilterSupportedUnique(params[..|params| - 1]);
      var (k, v) := params[|params| - 1];
      if Supported(k) {
        PutUnique(FilterSupported(params[..|params| - 1]), k, v);
      }
    }
  }

  // ---------------------------------------------------------------------------
  // The request guard
  // ---------------------------------------------------------------------------

  /** What `makeRequest` returns: `[]` for an empty endpoint or a failed request. */
  function RequestBody(endpoint: string, resp: Response): (b: Body)
    ensures Falsy(endpoint) || resp.Failed? ==> b == ItemList([])
    ensures !Falsy(endpoint) && resp.Reply? ==> b == resp.body
  {
    if Falsy(endpoint) then ItemList([])
    else match resp
      case Failed => ItemList([])
      case Reply(body) => body
  }

  // ---------------------------------------------------------------------------
  // Flattening
  // ---------------------------------------------------------------------------

  /** `isset($item['attributes']) && isset($item['id'])`. */
  predicate Kept(item: Item) {
    item.id.Some? && item.attributes.Some?
  }

  /** `$attributes['case_number']`, null when it is missing. */
  function CaseNumber(attributes: Record): Value {
    Get(attributes, "case_number").GetOr(Null)
  }

  /** The array key PHP makes of a case number: null becomes "". */
  function KeyOf(v: Value): string {
    match v
    case Str(s) => s
    case Null => ""
  }

  function ItemKey(item: Item): Key
    requires Kept(item)
  {
    CaseKey(KeyOf(CaseNumber(item.attributes.value)))
  }

  /** `['id' => case_number] + $attributes`: `id` first, then the other attributes. */
  function FlatRecord(attributes: Record): (r: Record)
    ensures Get(r, "id") == Some(CaseNumber(attributes))
    ensures forall a :: a != "id" ==> Get(r, a) == Get(attributes, a)
  {
    [("id", CaseNumber(attributes))] + RemoveKey(attributes, "id")
  }

  /** The transformed result set built from the items. */
  function Flatten(items: seq<Item>): ResultSet {
    if items == [] then []
    else
      var prev := Flatten(items[..|items| - 1]);
      var item := items[|items| - 1];
      if Kept(item) then Put(prev, ItemKey(item), FlatRecord(item.attributes.value)) else prev
  }

  /** The transformation loop over the items. */
  method FlattenItems(items: seq<Item>) returns (transformed: ResultSet)
    ensures transformed == Flatten(items)
  {
    transformed := [];
    var i := 0;
    while i < |items|
      invariant 0 <= i <= |items|
      invariant transformed == Flatten(items[..i])
    {
      var item := items[i];
      assert items[..i + 1][..i] == items[..i];
      if item.id.Some? && item.attributes.Some? {
        var flat := FlatRecord(item.attributes.value);
        var key := CaseKey(KeyOf(CaseNumber(item.attributes.value)));
        transformed := Put(transformed, key, flat);
      }
      i := i + 1;
    }
    assert items[..i] == items;
  }

  /** Item `i` is kept and lands under key `k`. */
  predicate KeptAs(items: seq<Item>, i: int, k: Key) {
    0 <= i < |items| && Kept(items[i]) && ItemKey(items[i]) == k
  }

  /** One step of the loop: the last item decides its own key and leaves the others alone. */
  lemma FlattenStep(items: seq<Item>, k: Key)
    requires items != []
    ensures Get(Flatten(items), k)
         == if KeptAs(items, |items| - 1, k) then Some(FlatRecord(items[|items| - 1].attributes.value))
            else Get(Flatten(items[..|items| - 1]), k)
  {
    var item := items[|items| - 1];
    var prev := Flatten(items[..|items| - 1]);
    if Kept(item) {
      var r := Put(prev, ItemKey(item), FlatRecord(item.attributes.value));
      assert Flatten(items) == r;
      if ItemKey(item) != k {
        assert Get(r, k) == Get(prev, k);
      }
    } else {
      assert Flatten(items) == prev;
    }
  }

  /** The result set holds a key exactly when some kept item has that case number. */
  lemma {:induction false} FlattenHas(items: seq<Item>, k: Key)
    ensures Get(Flatten(items), k).Some? <==> exists i :: KeptAs(items, i, k)
  {
    if items != [] {
      var n := |items| - 1;
      var init := items[..n];
      FlattenStep(items, k);
      FlattenHas(init, k);
      if exists i :: KeptAs(init, i, k) {
        var i :| KeptAs(init, i, k);
        assert init[i] == items[i];
        assert KeptAs(items, i, k);
      }
      if i :| KeptAs(items, i, k) && i < n {
        assert init[i] == items[i];
        assert KeptAs(init, i, k);
      }
    }
  }

  /** Items after position `m` with a different case number leave the key's entry alone. */
  lemma {:induction false} FlattenUnchanged(items: seq<Item>, m: nat, k: Key)
    requires m <= |items|
    requires forall j :: m <= j < |items| ==> !KeptAs(items, j, k)
    ensures Get(Flatten(items), k) == Get(Flatten(items[..m]), k)
  {
    if m < |items| {
      var init := items[..|items| - 1];
      FlattenStep(items, k);
      forall j | m <= j < |init| ensures !KeptAs(init, j, k) {
        assert init[j] == items[j];
        assert !KeptAs(items, j, k);
      }
      assert !KeptAs(items, |items| - 1, k);
      FlattenUnchanged(init, m, k);
      assert init[..m] == items[..m];
    } else {
      assert items[..m] == items;
    }
  }

  /** Under a key sits the flattened attributes of the LAST kept item with that case number. */
  lemma FlattenLast(items: seq<Item>, i: nat, k: Key)
    requires KeptAs(items, i, k)
    requires forall j :: i < j < |items| ==> !KeptAs(items, j, k)
    ensures Get(Flatten(items), k) == Some(FlatRecord(items[i].attributes.value))
  {
    FlattenUnchanged(items, i + 1, k);
    var upto := items[..i + 1];
    assert upto[i] == items[i];
    assert upto[..i] == items[..i];
    FlattenStep(upto, k);
  }

  /** Every record sits under its own case number, and its `id` is that case number. */
  lemma {:induction false} FlattenIds(items: seq<Item>)
    ensures forall i :: 0 <= i < |Flatten(items)| ==>
              var (k, rec) := Flatten(items)[i];
              k.CaseKey? && Get(rec, "id").Some? && k.caseNumber == KeyOf(Get(rec, "id").value)
    ensures UniqueKeys(Flatten(items))
  {
    if items != [] {
      var init := items[..|items| - 1];
      FlattenIds(init);
      var item := items[|items| - 1];
      if Kept(item) {
        var prev := Flatten(init);
        var k, rec := ItemKey(item), FlatRecord(item.attributes.value);
        PutUnique(prev, k, rec);
        var r := Put(prev, k, rec);
        forall i | 0 <= i < |r|
          ensures r[i].0.CaseKey? && Get(r[i].1, "id").Some? && r[i].0.caseNumber == KeyOf(Get(r[i].1, "id").value)
        {
          GetAt(r, i);
          if r[i].0 != k {
            var j := GetFound(prev, r[i].0);
          }
        }
      }
    }
  }

  // ---------------------------------------------------------------------------
  // The cached result set
  // ---------------------------------------------------------------------------

  /** Drupal returns a cache item only while it is valid. */
  predicate Live(e: CacheEntry, now: int) {
    e.expire == Permanent || e.expire >= now
  }

  /** The cached set `query` uses: a valid item with non-empty data. */
  function CachedSet(entries: map<string, CacheEntry>, now: int): (r: Option<ResultSet>)
    ensures r.Some? <==> CacheKey in entries && Live(entries[CacheKey], now) && entries[CacheKey].data != []
    ensures r.Some? ==> r.value == entries[CacheKey].data
  {
    if CacheKey in entries && Live(entries[CacheKey], now) && entries[CacheKey].data != []
    then Some(entries[CacheKey].data)
    else None
  }

  /** What the first half of `query` yields: the set, the new cache, the requests sent. */
  datatype Fetched = Fetched(data: ResultSet, entries: map<string, CacheEntry>, sent: seq<Request>)

  /** `$this->configuration['list_endpoint'] ?? ''`. */
  function EndpointOf(listEndpoint: Option<string>): string {
    listEndpoint.GetOr("")
  }

  function Fetch(entries: map<string, CacheEntry>, now: int, listEndpoint: Option<string>,
                 config: Option<ParamConfig>, params: OMap<string, string>, resp: Response): Fetched
  {
    match CachedSet(entries, now)
    case Some(data) => Fetched(data, entries, [])
    case None =>
      var endpoint := EndpointOf(listEndpoint);
      var sent := if Falsy(endpoint) then [] else [Request(endpoint, Outgoing(config, params))];
      match RequestBody(endpoint, resp)
      case ItemList(items) =>
        var data := Flatten(items);
        Fetched(data, entries[CacheKey := CacheEntry(data, now + CacheTtl)], sent)
      case NotArray => Fetched([], entries, sent)
  }

  /** A usable cached set is returned as is: no request, no cache write. */
  lemma FetchHit(entries: map<string, CacheEntry>, now: int, listEndpoint: Option<string>,
                 config: Option<ParamConfig>, params: OMap<string, string>, resp: Response)
    requires CacheKey in entries && Live(entries[CacheKey], now) && entries[CacheKey].data != []
    ensures Fetch(entries, now, listEndpoint, config, params, resp)
         == Fetched(entries[CacheKey].data, entries, [])
  {
  }

  /**
   * On a miss, one request carrying the outgoing parameters is sent unless the
   * endpoint is empty. Every array result is flattened, returned and cached
   * until `now + 300`, the `[]` of an empty endpoint or a failed request
   * included; a body that is not an array returns `[]` and writes nothing.
   */
  lemma FetchMiss(entries: map<string, CacheEntry>, now: int, listEndpoint: Option<string>,
                  config: Option<ParamConfig>, params: OMap<string, string>, resp: Response)
    requires CachedSet(entries, now).None?
    ensures var f := Fetch(entries, now, listEndpoint, config, params, resp);
            var endpoint := EndpointOf(listEndpoint);
            && f.sent == (if Falsy(endpoint) then [] else [Request(endpoint, Outgoing(config, params))])
            && (Falsy(endpoint) || resp.Failed? ==> f.data == [] && f.entries == entries[CacheKey := CacheEntry([], now + 300)])
            && (!Falsy(endpoint) && resp.Reply? && resp.body.ItemList? ==>
                  && f.data == Flatten(resp.body.items)
                  && f.entries == entries[CacheKey := CacheEntry(Flatten(resp.body.items), now + 300)])
            && (!Falsy(endpoint) && resp == Reply(NotArray) ==> f.data == [] && f.entries == entries)
  {
  }

  /** The cache key is the same for every parameter set: a hit ignores the parameters. */
  lemma FetchIgnoresParameters(entries: map<string, CacheEntry>, now: int, listEndpoint: Option<string>,
                               config: Option<ParamConfig>, p1: OMap<string, string>, p2: OMap<string, string>,
                               resp: Response)
    requires CachedSet(entries, now).Some?
    ensures Fetch(entries, now, listEndpoint, config, p1, resp).data
         == Fetch(entries, now, listEndpoint, config, p2, resp).data
  {
  }

  /** A non-empty set fetched from the CRM at `now` is served from the cache until `now + 300`. */
  lemma FetchThenHit(entries: map<string, CacheEntry>, now: int, later: int, listEndpoint: Option<string>,
                     config: Option<ParamConfig>, params: OMap<string, string>, resp: Response,
                     params2: OMap<string, string>, resp2: Response)
    requires CachedSet(entries, now).None?
    requires now <= later <= now + CacheTtl
    ensures var f := Fetch(entries, now, listEndpoint, config, params, resp);
            f.data != [] ==> Fetch(f.entries, later, listEndpoint, config, params2, resp2) == Fetched(f.data, f.entries, [])
  {
  }

  /** Once the cache key is deleted, the next fetch misses. */
  lemma ClearedMisses(entries: map<string, CacheEntry>, now: int)
    ensures CachedSet(entries - {CacheKey}, now).None?
  {
  }

  // ---------------------------------------------------------------------------
  // Sorting and slicing in memory
  // ---------------------------------------------------------------------------

  /** `$record[$field] ?? ''`. */
  function SortField(rec: Record, field: string): string {
    var v := Get(rec, field);
    if v.Some? && v.value.Str? then v.value.s else ""
  }

  /** The comparison handed to `usort`, as "compares at most 0". */
  function SortLe(field: string, descending: bool): (Record, Record) -> bool {
    (a: Record, b: Record) =>
      if descending then Sorting.StrLe(SortField(b, field), SortField(a, field))
      else Sorting.StrLe(SortField(a, field), SortField(b, field))
  }

  /** The comparison orders records totally: it is total and transitive. */
  lemma SortLeTotalPreorder(field: string, descending: bool)
    ensures Sorting.TotalPreorder(SortLe(field, descending))
  {
    var le := SortLe(field, descending);
    forall a, b ensures le(a, b) || le(b, a) {
      Sorting.StrLeTotal(SortField(a, field), SortField(b, field));
    }
    forall a, b, c | le(a, b) && le(b, c) ensures le(a, c) {
      if descending {
        Sorting.StrLeTransitive(SortField(c, field), SortField(b, field), SortField(a, field));
      } else {
        Sorting.StrLeTransitive(SortField(a, field), SortField(b, field), SortField(c, field));
      }
    }
  }

  /** `usort` re-indexes: positions 0..n-1 replace the old keys. */
  function Reindex(records: seq<Record>): (r: ResultSet)
    ensures |r| == |records|
    ensures forall i :: 0 <= i < |r| ==> r[i] == (Position(i), records[i])
  {
    seq(|records|, i requires 0 <= i < |records| => (Position(i), records[i]))
  }

  /** The sort step: by the first sort key only, `DESC` negating the comparison. */
  function SortBy(data: ResultSet, sorts: OMap<string, string>): ResultSet {
    if sorts == [] then data
    else
      var (field, direction) := sorts[0];
      Reindex(Sorting.InsertionSort(Values(data), SortLe(field, direction == "DESC")))
  }

  /** The bounds PHP's `array_slice` computes for `n` entries, an offset and a length. */
  function SliceBounds(n: nat, offset: int, length: int): (b: (nat, nat))
    ensures b.0 <= b.1 <= n
  {
    if offset > n then (n, n)
    else
      var o := if offset >= 0 then offset else if n + offset < 0 then 0 else n + offset;
      var l := if length < 0 then n - o + length else if o + length > n then n - o else length;
      if l <= 0 then (o, o) else (o, o + l)
  }

  /** `array_slice($m, $offset, $length, true)`: keys are preserved. */
  function Slice<T>(m: seq<T>, offset: int, length: int): seq<T> {
    var b := SliceBounds(|m|, offset, length);
    m[b.0..b.1]
  }

  /** The part of `query` after the result set is known. */
  function Present(data: ResultSet, sorts: OMap<string, string>, start: Option<int>, length: Option<int>): ResultSet {
    var sorted := SortBy(data, sorts);
    if start.None? && length.None? then sorted
    else Slice(sorted, start.GetOr(0), length.GetOr(|sorted|))
  }

  /**
   * With sorts, the result is the records of the set, reordered and keyed
   * 0..n-1, ordered by the first sort field (reversed for `DESC`), and records
   * that compare equal keep their order in the set.
   */
  lemma PresentSorted(data: ResultSet, sorts: OMap<string, string>, e: Record)
    requires sorts != []
    ensures var r := Present(data, sorts, None, None);
            var le := SortLe(sorts[0].0, sorts[0].1 == "DESC");
            && (forall i :: 0 <= i < |r| ==> r[i].0 == Position(i))
            && multiset(Values(r)) == multiset(Values(data))
            && Sorting.SortedBy(Values(r), le)
            && Sorting.TiedWith(Values(r), e, le) == Sorting.TiedWith(Values(data), e, le)
            && r == Present(data, [sorts[0]], None, None)
  {
    var le := SortLe(sorts[0].0, sorts[0].1 == "DESC");
    var sorted := Sorting.InsertionSort(Values(data), le);
    SortLeTotalPreorder(sorts[0].0, sorts[0].1 == "DESC");
    Sorting.SortPermutes(Values(data), le);
    Sorting.SortSorted(Values(data), le);
    Sorting.SortStable(Values(data), e, le);
    assert Values(Reindex(sorted)) == sorted;
  }

  /** Without sorts, start or length, `query` returns the set unchanged, keys included. */
  lemma PresentIdentity(data: ResultSet)
    ensures Present(data, [], None, None) == data
  {
  }

  /**
   * For a non-negative start and length the slice is the entries from
   * `start` on, `max(0, min(length, n - start))` of them.
   */
  lemma SliceNonNegative<T>(m: seq<T>, start: int, length: int)
    requires start >= 0 && length >= 0
    ensures var size := if length < |m| - start then length else if |m| - start < 0 then 0 else |m| - start;
            && |Slice(m, start, length)| == size
            && (size > 0 ==> Slice(m, start, length) == m[start..start + size])
  {
  }

  /** A negative start counts from the end, and is clamped to the first entry. */
  lemma SliceNegativeStart<T>(m: seq<T>, start: int, length: int)
    requires start < 0 && length >= 0
    ensures var from := if |m| + start < 0 then 0 else |m| + start;
            Slice(m, start, length) == m[from..if from + length > |m| then |m| else from + length]
  {
  }

  // ---------------------------------------------------------------------------
  // Looking records up
  // ---------------------------------------------------------------------------

  /** `isset($case['id']) && $case['id'] == $id`. */
  predicate HasId(rec: Record, id: string) {
    Get(rec, "id") == Some(Str(id))
  }

  /** `r` is the first record of the set whose `id` is `id`, or none when no record has it. */
  predicate FirstMatch(cases: ResultSet, id: string, r: Option<Record>) {
    && (r.None? <==> forall i :: 0 <= i < |cases| ==> !HasId(cases[i].1, id))
    && (r.Some? ==> exists i :: 0 <= i < |cases| && cases[i].1 == r.value && HasId(cases[i].1, id)
                      && forall j :: 0 <= j < i ==> !HasId(cases[j].1, id))
  }

  /** The search loop of `load`. */
  method FindCase(cases: ResultSet, id: string) returns (r: Option<Record>)
    ensures FirstMatch(cases, id, r)
  {
    var i := 0;
    while i < |cases|
      invariant 0 <= i <= |cases|
      invariant forall j :: 0 <= j < i ==> !HasId(cases[j].1, id)
    {
      var (_, c) := cases[i];
      var v := Get(c, "id");
      if v.Some? && v.value != Null && v.value == Str(id) {
        return Some(c);
      }
      i := i + 1;
    }
    return None;
  }

  /** The keys `loadMultiple` returns: each requested id that exists, once, in request order. */
  function RequestOrder(all: ResultSet, ids: seq<string>): seq<Key> {
    if ids == [] then []
    else
      var prev := RequestOrder(all, ids[..|ids| - 1]);
      var k := CaseKey(ids[|ids| - 1]);
      if Get(all, k).Some? && k !in prev then prev + [k] else prev
  }

  /** The array `loadMultiple` builds from the requested ids. */
  function Selected(all: ResultSet, ids: seq<string>): ResultSet {
    if ids == [] then []
    else
      var prev := Selected(all, ids[..|ids| - 1]);
      var k := CaseKey(ids[|ids| - 1]);
      var v := Get(all, k);
      if v.Some? then Put(prev, k, v.value) else prev
  }

  /** A requested case that exists is returned with its record; nothing else is returned. */
  lemma {:induction false} SelectedGet(all: ResultSet, ids: seq<string>, k: Key)
    ensures Get(Selected(all, ids), k) == if k.CaseKey? && k.caseNumber in ids then Get(all, k) else None
  {
    if ids != [] {
      var init := ids[..|ids| - 1];
      SelectedGet(all, init, k);
      assert ids == init + [ids[|ids| - 1]];
    }
  }

  /** The returned cases come in the order they were first requested. */
  lemma {:induction false} SelectedKeys(all: ResultSet, ids: seq<string>)
    ensures Keys(Selected(all, ids)) == RequestOrder(all, ids)
  {
    if ids != [] {
      var init := ids[..|ids| - 1];
      var k := CaseKey(ids[|ids| - 1]);
      var prev := Selected(all, init);
      SelectedKeys(all, init);
      GetKey(prev, k);
      if Get(all, k).Some? {
        PutKeys(prev, k, Get(all, k).value);
      }
    }
  }

  /** The filter loop of `loadMultiple`. */
  method SelectIds(all: ResultSet, ids: seq<string>) returns (filtered: ResultSet)
    ensures filtered == Selected(all, ids)
  {
    filtered := [];
    var i := 0;
    while i < |ids|
      invariant 0 <= i <= |ids|
      invariant filtered == Selected(all, ids[..i])
    {
      var id := ids[i];
      assert ids[..i + 1][..i] == ids[..i];
      var v := Get(all, CaseKey(id));
      if v.Some? {
        filtered := Put(filtered, CaseKey(id), v.value);
      }
      i := i + 1;
    }
    assert ids[..i] == ids;
  }

  // ---------------------------------------------------------------------------
  // Drupal filters to CRM filters
  // ---------------------------------------------------------------------------

  /** A Drupal query condition: `field`, `value` and `operator`, each possibly unset. */
  datatype Filter = Filter(field: Option<string>, value: Option<string>, operator: Option<string>)

  function FieldOf(f: Filter): string { f.field.GetOr("") }

  function ValueOf(f: Filter): string { f.value.GetOr("") }

  /** The CRM parameter name for a field; every operator becomes `eq`. */
  function FilterKey(field: string): string {
    "filter[" + field + "][eq]"
  }

  /** Different fields give different parameter names. */
  lemma FilterKeyInjective(f: string, g: string)
    requires FilterKey(f) == FilterKey(g)
    ensures f == g
  {
    assert |f| == |g|;
    assert FilterKey(f)[7..7 + |f|] == f;
    assert FilterKey(g)[7..7 + |g|] == g;
  }

  function Transliterated(filters: seq<Filter>): OMap<string, string> {
    if filters == [] then []
    else
      var f := filters[|filters| - 1];
      Put(Transliterated(filters[..|filters| - 1]), FilterKey(FieldOf(f)), ValueOf(f))
  }

  /** The translation loop; both branches of the operator switch write the same `eq` parameter. */
  method TransliterateFilters(filters: seq<Filter>) returns (translated: OMap<string, string>)
    ensures translated == Transliterated(filters)
  {
    translated := [];
    var i := 0;
    while i < |filters|
      invariant 0 <= i <= |filters|
      invariant translated == Transliterated(filters[..i])
    {
      var filter := filters[i];
      assert filters[..i + 1][..i] == filters[..i];
      var field := filter.field.GetOr("");
      var value := filter.value.GetOr("");
      var operator := filter.operator.GetOr("=");
      if operator == "=" {
        translated := Put(translated, "filter[" + field + "][eq]", value);
      } else {
        translated := Put(translated, "filter[" + field + "][eq]", value);
      }
      i := i + 1;
    }
    assert filters[..i] == filters;
  }

  /** Every translated parameter comes from some filter's field. */
  lemma {:induction false} TransliteratedKeys(filters: seq<Filter>, q: string)
    requires Get(Transliterated(filters), q).Some?
    ensures exists i :: 0 <= i < |filters| && q == FilterKey(FieldOf(filters[i]))
  {
    var n := |filters| - 1;
    var init := filters[..n];
    if q != FilterKey(FieldOf(filters[n])) {
      TransliteratedKeys(init, q);
      var i :| 0 <= i < |init| && q == FilterKey(FieldOf(init[i]));
      assert init[i] == filters[i];
    }
  }

  /** The value sent for a field is the value of the LAST filter on that field, whatever the operators. */
  lemma {:induction false} TransliteratedLast(filters: seq<Filter>, i: nat)
    requires i < |filters|
    requires forall j :: i < j < |filters| ==> FieldOf(filters[j]) != FieldOf(filters[i])
    ensures Get(Transliterated(filters), FilterKey(FieldOf(filters[i]))) == Some(ValueOf(filters[i]))
  {
    var n := |filters| - 1;
    var init := filters[..n];
    if i < n {
      assert init[i] == filters[i];
      forall j | i < j < |init| ensures FieldOf(init[j]) != FieldOf(init[i]) {
        assert init[j] == filters[j];
        assert FieldOf(filters[j]) != FieldOf(filters[i]);
      }
      TransliteratedLast(init, i);
      if FilterKey(FieldOf(filters[n])) == FilterKey(FieldOf(filters[i])) {
        FilterKeyInjective(FieldOf(filters[n]), FieldOf(filters[i]));
        assert false;
      }
    }
  }

  /** The operator plays no part: filters that differ only in operators translate alike. */
  lemma {:induction false} TransliterateIgnoresOperator(f1: seq<Filter>, f2: seq<Filter>)
    requires |f1| == |f2|
    requires forall i :: 0 <= i < |f1| ==> f1[i].field == f2[i].field && f1[i].value == f2[i].value
    ensures Transliterated(f1) == Transliterated(f2)
  {
    if f1 != [] {
      var n := |f1| - 1;
      TransliterateIgnoresOperator(f1[..n], f2[..n]);
      assert f1[n].field == f2[n].field && f1[n].value == f2[n].value;
    }
  }

  // ---------------------------------------------------------------------------
  // The cache backend and the client object
  // ---------------------------------------------------------------------------

  /** Drupal's default cache bin, reduced to the items it holds. */
  class CacheBackend {
    var entries: map<string, CacheEntry>

    constructor ()
      ensures entries == map[]
    {
      entries := map[];
    }

    /** `get($key)`: the item while it is valid; an expired item is not returned. */
    function Lookup(key: string, now: int): (r: Option<CacheEntry>)
      reads this
      ensures r.Some? <==> key in entries && Live(entries[key], now)
      ensures r.Some? ==> r.value == entries[key]
    {
      if key in entries && Live(entries[key], now) then Some(entries[key]) else None
    }

    /** `set($key, $data, $expire)`. */
    method Set(key: string, data: ResultSet, expire: int)
      modifies this
      ensures entries == old(entries)[key := CacheEntry(data, expire)]
    {
      entries := entries[key := CacheEntry(data, expire)];
    }

    /** `delete($key)`. */
    method Delete(key: string)
      modifies this
      ensures entries == old(entries) - {key}
    {
      entries := entries - {key};
    }
  }

  /**
   * The storage client: its configuration, the cache bin it shares, the
   * per-instance memo `casesCache`, and (as a ghost record) the requests it
   * has sent to the CRM.
   */
  class StorageClient {
    const cache: CacheBackend
    /** `$this->configuration['list_endpoint']`, null when unset. */
    const listEndpoint: Option<string>
    /** `$this->configuration['parameters']`, null when unset. */
    const parameters: Option<ParamConfig>
    var casesCache: Option<ResultSet>
    ghost var requests: seq<Request>

    constructor (cache: CacheBackend, listEndpoint: Option<string>, parameters: Option<ParamConfig>)
      ensures this.cache == cache && this.listEndpoint == listEndpoint && this.parameters == parameters
      ensures casesCache.None? && requests == []
    {
      this.cache := cache;
      this.listEndpoint := listEndpoint;
      this.parameters := parameters;
      casesCache := None;
      requests := [];
    }

    /** The guard of `makeRequest`: no request for an empty endpoint, `[]` when the request fails. */
    method MakeRequest(endpoint: string, params: OMap<string, string>, resp: Response) returns (body: Body)
      modifies this`requests
      ensures body == RequestBody(endpoint, resp)
      ensures requests == old(requests) + if Falsy(endpoint) then [] else [Request(endpoint, params)]
    {
      if Falsy(endpoint) {
        return ItemList([]);
      }
      requests := requests + [Request(endpoint, params)];
      match resp
      case Failed =>
        body := ItemList([]);
      case Reply(b) =>
        body := b;
    }

    /** The first half of `query`: the cached set, or the set fetched from the CRM and cached. */
    method FetchResultSet(params: OMap<string, string>, now: int, resp: Response) returns (transformed: ResultSet)
      modifies this`requests, cache
      ensures var f := Fetch(old(cache.entries), now, listEndpoint, parameters, params, resp);
              && transformed == f.data
              && cache.entries == f.entries
              && requests == old(requests) + f.sent
    {
      var cached := cache.Lookup(CacheKey, now);
      if cached.Some? && cached.value.data != [] {
        transformed := cached.value.data;
      } else {
        var endpoint := listEndpoint.GetOr("");
        var configParams := ConfigPairs(parameters);
        var filtered := FilterParameters(params);
        var merged := PutAll(configParams, filtered);
        var body := MakeRequest(endpoint, merged, resp);
        transformed := [];
        if body.ItemList? {
          transformed := FlattenItems(body.items);
          cache.Set(CacheKey, transformed, now + CacheTtl);
        }
      }
    }

    /** `query`: the result set from the cache or the CRM, then sorted and sliced. */
    method Query(params: OMap<string, string>, sorts: OMap<string, string>, start: Option<int>, length: Option<int>,
                 now: int, resp: Response) returns (result: ResultSet)
      modifies this`requests, cache
      ensures var f := Fetch(old(cache.entries), now, listEndpoint, parameters, params, resp);
              && result == Present(f.data, sorts, start, length)
              && cache.entries == f.entries
              && requests == old(requests) + f.sent
    {
      var transformed := FetchResultSet(params, now, resp);
      ghost var data := transformed;
      if sorts != [] {
        var (field, direction) := sorts[0];
        transformed := Reindex(Sorting.InsertionSort(Values(transformed), SortLe(field, direction == "DESC")));
      }
      assert transformed == SortBy(data, sorts);
      if start.Some? || length.Some? {
        var from := start.GetOr(0);
        var count := length.GetOr(|transformed|);
        transformed := Slice(transformed, from, count);
      }
      result := transformed;
    }

    /** `countQuery`: the size of the whole result set for the parameters. */
    method CountQuery(params: OMap<string, string>, now: int, resp: Response) returns (n: nat)
      modifies this`requests, cache
      ensures var f := Fetch(old(cache.entries), now, listEndpoint, parameters, params, resp);
              && n == |f.data|
              && cache.entries == f.entries
              && requests == old(requests) + f.sent
    {
      var all := Query(params, [], None, None, now, resp);
      n := |all|;
    }

    /**
     * `load`: the result set is fetched only while the memo is empty; the
     * answer is the first record whose `id` is `id`.
     */
    method Load(id: string, now: int, resp: Response) returns (r: Option<Record>)
      modifies this`casesCache, this`requests, cache
      ensures old(casesCache).Some? ==>
                casesCache == old(casesCache) && cache.entries == old(cache.entries) && requests == old(requests)
      ensures old(casesCache).None? ==>
                var f := Fetch(old(cache.entries), now, listEndpoint, parameters, [], resp);
                casesCache == Some(f.data) && cache.entries == f.entries && requests == old(requests) + f.sent
      ensures casesCache.Some? && FirstMatch(casesCache.value, id, r)
    {
      if casesCache.None? {
        var all := Query([], [], None, None, now, resp);
        casesCache := Some(all);
      }
      r := FindCase(casesCache.value, id);
    }

    /** `loadMultiple`: every case for null, otherwise the requested ones that exist. */
    method LoadMultiple(ids: Option<seq<string>>, now: int, resp: Response) returns (r: ResultSet)
      modifies this`requests, cache
      ensures var f := Fetch(old(cache.entries), now, listEndpoint, parameters, [], resp);
              && r == (if ids.None? then f.data else Selected(f.data, ids.value))
              && cache.entries == f.entries
              && requests == old(requests) + f.sent
    {
      var all := Query([], [], None, None, now, resp);
      if ids.None? {
        return all;
      }
      r := SelectIds(all, ids.value);
    }

    /** `clearCache`: only the one cache key goes. */
    method ClearCache()
      modifies cache
      ensures cache.entries == old(cache.entries) - {CacheKey}
    {
      cache.Delete(CacheKey);
    }

    /** `save`: clears the cache and reports a new entity; nothing is sent to the CRM. */
    method Save() returns (status: int)
      modifies cache
      ensures status == SavedNew
      ensures cache.entries == old(cache.entries) - {CacheKey}
    {
      ClearCache();
      status := SavedNew;
    }

    /** `delete`: clears the cache; nothing is sent to the CRM. */
    method Delete()
      modifies cache
      ensures cache.entries == old(cache.entries) - {CacheKey}
    {
      ClearCache();
    }
  }
}
