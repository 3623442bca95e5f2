# SuiteCRM case management: a Dafny model of its core

This project models the logic at the centre of the Drupal site that manages
Ofqual cases held in SuiteCRM, and proves properties of that logic:

- **The SuiteCRM storage client** (`SuiteCrmStorage`, `SuiteCrmConfigText`).
  It filters and merges the outgoing query parameters. It flattens the JSON:API
  `data` array into records keyed by case number. It caches the whole result
  set under one key for 300 seconds. It sorts and slices in memory, memoizes
  `load`, filters in `loadMultiple`, and translates Drupal filters. It also
  turns the `parameters` setting into text and back.
- **The Entra token lifecycle** (`EntraTokens`, `EntraTokenRenewal`,
  `EntraTokenStatus`). The token service stores tokens in two tiers: the
  session and the private temp store. It also checks whether a token is
  expiring soon. A per-request subscriber decides when to renew. The status
  page classifies expiry and checks the audience.
- **Tables and pagination** (`CdsDataTable`, `PaginationHandler`,
  `CarbonViewsDataTable`). This covers the page arithmetic of the Carbon data
  table and the query rewriting of the pagination behaviour. It also covers the
  headers, rows and row actions of the Carbon Views style.
- **Names shared between files** (`CarbonStructuredList`,
  `CarbonStructuredListToc`, `FormModePermissions`, `FormModeLinksFormatter`,
  `SuiteCrmRouteSubscriber`).
  - The structured-list formatter and the table-of-contents block use the same
    group anchor.
  - The permission provider, the form-mode links formatter and the route
    subscriber use the same permission string `use <type>.<mode> form mode`.

Two shared modules support the others:

- `Common` holds PHP ordered arrays as association lists, PHP truthiness and
  string helpers.
- `Sorting` is a stable insertion sort. It stands for PHP 8's `usort`, which is
  stable.

Where the source mutates an object, the model has a class that does the same:
- the cache bin and the storage client with its `casesCache` memo;
- the token service with its session and temp store;
- the pager, rows and empty state of a data table;
- `URLSearchParams` and the pagination elements;
- the structured-list render element;
- the route.

Each loop is a method proved against a function that states its result.

Two groups whose names differ only in `_` versus `-` share an anchor
(`CarbonStructuredList.GroupAnchorCollision`). Drupal machine names hold no
`-`, and on such names the anchors are distinct
(`CarbonStructuredList.GroupAnchorInjective`).

Outside services are parameters of the model:
- the HTTP response (already JSON-decoded);
- the current time;
- base64 and JSON decoding of a JWT payload;
- the token service's `getTimeUntilExpiry` and `renewToken`;
- access checks, permissions, the route provider and the form-mode repository.

## Model

| member | source | states |
|---|---|---|
| SuiteCrmStorage.FilterParameters | web/modules/custom/external_entities_suitecrm/src/Plugin/ExternalEntities/StorageClient/SuiteCrmStorageClient.php:250-256 | the filter loop yields exactly the caller parameters other than `offset`, `limit` and `sort...`, in order |
| SuiteCrmStorage.FilterSupportedGet | web/modules/custom/external_entities_suitecrm/src/Plugin/ExternalEntities/StorageClient/SuiteCrmStorageClient.php:250-256 | a supported parameter keeps its value; an unsupported one is absent |
| SuiteCrmStorage.FilterSupportedUnique | web/modules/custom/external_entities_suitecrm/src/Plugin/ExternalEntities/StorageClient/SuiteCrmStorageClient.php:250-256 | the filtered parameters have distinct keys |
| SuiteCrmStorage.OutgoingGet | web/modules/custom/external_entities_suitecrm/src/Plugin/ExternalEntities/StorageClient/SuiteCrmStorageClient.php:242-258 | a supported caller parameter overrides the configured one of the same name; every other name carries the configured value, so `offset`, `limit` and `sort...` from the caller never reach the CRM |
| SuiteCrmStorage.RequestBody | web/modules/custom/external_entities_suitecrm/src/Plugin/ExternalEntities/StorageClient/SuiteCrmStorageClient.php:197-226 | an empty endpoint or a failed request gives `[]`; otherwise the decoded body |
| SuiteCrmStorage.StorageClient.MakeRequest | web/modules/custom/external_entities_suitecrm/src/Plugin/ExternalEntities/StorageClient/SuiteCrmStorageClient.php:197-226 | no request is sent for an empty endpoint, otherwise exactly one; the body is `RequestBody` |
| SuiteCrmStorage.FlatRecord | web/modules/custom/external_entities_suitecrm/src/Plugin/ExternalEntities/StorageClient/SuiteCrmStorageClient.php:266-271 | the record's `id` is the case number and every other attribute is unchanged |
| SuiteCrmStorage.FlattenItems | web/modules/custom/external_entities_suitecrm/src/Plugin/ExternalEntities/StorageClient/SuiteCrmStorageClient.php:263-273 | the transformation loop computes `Flatten` of the items |
| SuiteCrmStorage.FlattenStep | web/modules/custom/external_entities_suitecrm/src/Plugin/ExternalEntities/StorageClient/SuiteCrmStorageClient.php:264-272 | the last item writes only its own case number's entry, and only if it has `attributes` and `id` |
| SuiteCrmStorage.FlattenHas | web/modules/custom/external_entities_suitecrm/src/Plugin/ExternalEntities/StorageClient/SuiteCrmStorageClient.php:264-273 | a key is present exactly when some item with `attributes` and `id` has that case number |
| SuiteCrmStorage.FlattenUnchanged | web/modules/custom/external_entities_suitecrm/src/Plugin/ExternalEntities/StorageClient/SuiteCrmStorageClient.php:264-273 | later items with other case numbers leave an entry alone |
| SuiteCrmStorage.FlattenLast | web/modules/custom/external_entities_suitecrm/src/Plugin/ExternalEntities/StorageClient/SuiteCrmStorageClient.php:264-273 | a duplicate case number holds the LAST such item, flattened |
| SuiteCrmStorage.FlattenIds | web/modules/custom/external_entities_suitecrm/src/Plugin/ExternalEntities/StorageClient/SuiteCrmStorageClient.php:264-273 | every record sits under its case number, its `id` equals that case number, and the keys are distinct |
| SuiteCrmStorage.CachedSet | web/modules/custom/external_entities_suitecrm/src/Plugin/ExternalEntities/StorageClient/SuiteCrmStorageClient.php:231-238 | the cache is used exactly when the fixed key holds a valid item with non-empty data |
| SuiteCrmStorage.FetchHit | web/modules/custom/external_entities_suitecrm/src/Plugin/ExternalEntities/StorageClient/SuiteCrmStorageClient.php:231-238 | on a hit the cached set is returned, with no request and no cache write |
| SuiteCrmStorage.FetchMiss | web/modules/custom/external_entities_suitecrm/src/Plugin/ExternalEntities/StorageClient/SuiteCrmStorageClient.php:240-277 | on a miss: one request with the outgoing parameters unless the endpoint is empty; a reply holding an item array returns its flattened records and caches exactly them until `now + 300`; `[]` from an empty endpoint or a failed request is cached until `now + 300` too; a non-array body returns `[]` and is not cached |
| SuiteCrmStorage.FetchIgnoresParameters | web/modules/custom/external_entities_suitecrm/src/Plugin/ExternalEntities/StorageClient/SuiteCrmStorageClient.php:231-238 | the cache key does not depend on the parameters, so a hit returns the same set for any parameters |
| SuiteCrmStorage.FetchThenHit | web/modules/custom/external_entities_suitecrm/src/Plugin/ExternalEntities/StorageClient/SuiteCrmStorageClient.php:231-276 | a non-empty set fetched at `now` is served from the cache up to `now + 300` |
| SuiteCrmStorage.ClearedMisses | web/modules/custom/external_entities_suitecrm/src/Plugin/ExternalEntities/StorageClient/SuiteCrmStorageClient.php:380-383 | after the cache key is deleted, the next lookup misses |
| SuiteCrmStorage.SortLeTotalPreorder | web/modules/custom/external_entities_suitecrm/src/Plugin/ExternalEntities/StorageClient/SuiteCrmStorageClient.php:281-288 | the `usort` comparison on the first sort field, negated for `DESC`, is total and transitive |
| SuiteCrmStorage.Reindex | web/modules/custom/external_entities_suitecrm/src/Plugin/ExternalEntities/StorageClient/SuiteCrmStorageClient.php:284-287 | after `usort` the keys are the positions 0..n-1 |
| SuiteCrmStorage.PresentSorted | web/modules/custom/external_entities_suitecrm/src/Plugin/ExternalEntities/StorageClient/SuiteCrmStorageClient.php:281-288 | sorting uses only the first sort key; the result is keyed 0..n-1, is a permutation of the records, is ordered, and keeps equal records in their order |
| SuiteCrmStorage.PresentIdentity | web/modules/custom/external_entities_suitecrm/src/Plugin/ExternalEntities/StorageClient/SuiteCrmStorageClient.php:281-295 | with no sorts, start or length the set is returned unchanged, keys included |
| SuiteCrmStorage.SliceBounds | web/modules/custom/external_entities_suitecrm/src/Plugin/ExternalEntities/StorageClient/SuiteCrmStorageClient.php:291-295 | `array_slice` bounds lie within the set |
| SuiteCrmStorage.SliceNonNegative | web/modules/custom/external_entities_suitecrm/src/Plugin/ExternalEntities/StorageClient/SuiteCrmStorageClient.php:291-295 | for non-negative start and length, the slice is the entries from `start`, `max(0, min(length, n - start))` of them |
| SuiteCrmStorage.SliceNegativeStart | web/modules/custom/external_entities_suitecrm/src/Plugin/ExternalEntities/StorageClient/SuiteCrmStorageClient.php:291-295 | a negative start counts from the end, clamped to the first entry |
| SuiteCrmStorage.StorageClient.FetchResultSet | web/modules/custom/external_entities_suitecrm/src/Plugin/ExternalEntities/StorageClient/SuiteCrmStorageClient.php:229-278 | the first half of `query` returns the set of `Fetch`, writes its cache and sends its requests |
| SuiteCrmStorage.StorageClient.Query | web/modules/custom/external_entities_suitecrm/src/Plugin/ExternalEntities/StorageClient/SuiteCrmStorageClient.php:229-298 | `query` returns the fetched set sorted and sliced, with the cache and requests of `Fetch` |
| SuiteCrmStorage.StorageClient.CountQuery | web/modules/custom/external_entities_suitecrm/src/Plugin/ExternalEntities/StorageClient/SuiteCrmStorageClient.php:307-311 | the count is the size of the whole fetched set |
| SuiteCrmStorage.FindCase | web/modules/custom/external_entities_suitecrm/src/Plugin/ExternalEntities/StorageClient/SuiteCrmStorageClient.php:338-344 | the result is the first record whose `id` equals the argument, or none when no record has it |
| SuiteCrmStorage.StorageClient.Load | web/modules/custom/external_entities_suitecrm/src/Plugin/ExternalEntities/StorageClient/SuiteCrmStorageClient.php:331-345 | the set is fetched only while the memo is empty, then memoized; the answer is the first match |
| SuiteCrmStorage.SelectIds | web/modules/custom/external_entities_suitecrm/src/Plugin/ExternalEntities/StorageClient/SuiteCrmStorageClient.php:357-363 | the filter loop of `loadMultiple` computes `Selected` |
| SuiteCrmStorage.SelectedGet | web/modules/custom/external_entities_suitecrm/src/Plugin/ExternalEntities/StorageClient/SuiteCrmStorageClient.php:353-363 | a requested case that exists is returned with its record, and nothing else is returned |
| SuiteCrmStorage.SelectedKeys | web/modules/custom/external_entities_suitecrm/src/Plugin/ExternalEntities/StorageClient/SuiteCrmStorageClient.php:353-363 | the returned cases come in request order, missing ids omitted |
| SuiteCrmStorage.StorageClient.LoadMultiple | web/modules/custom/external_entities_suitecrm/src/Plugin/ExternalEntities/StorageClient/SuiteCrmStorageClient.php:347-364 | null ids return the whole set; otherwise the requested cases that exist |
| SuiteCrmStorage.FilterKeyInjective | web/modules/custom/external_entities_suitecrm/src/Plugin/ExternalEntities/StorageClient/SuiteCrmStorageClient.php:313-329 | different fields give different `filter[field][eq]` names |
| SuiteCrmStorage.TransliterateFilters | web/modules/custom/external_entities_suitecrm/src/Plugin/ExternalEntities/StorageClient/SuiteCrmStorageClient.php:313-329 | the translation loop computes `Transliterated` |
| SuiteCrmStorage.TransliteratedKeys | web/modules/custom/external_entities_suitecrm/src/Plugin/ExternalEntities/StorageClient/SuiteCrmStorageClient.php:313-329 | every translated parameter is `filter[field][eq]` for some filter's field |
| SuiteCrmStorage.TransliteratedLast | web/modules/custom/external_entities_suitecrm/src/Plugin/ExternalEntities/StorageClient/SuiteCrmStorageClient.php:313-329 | the value sent for a field is the value of the last filter on that field |
| SuiteCrmStorage.TransliterateIgnoresOperator | web/modules/custom/external_entities_suitecrm/src/Plugin/ExternalEntities/StorageClient/SuiteCrmStorageClient.php:320-326 | every operator becomes `eq`: filters that differ only in operators translate alike |
| SuiteCrmStorage.CacheBackend.Lookup | web/modules/custom/external_entities_suitecrm/src/Plugin/ExternalEntities/StorageClient/SuiteCrmStorageClient.php:231 | the cache returns an item exactly while it is valid |
| SuiteCrmStorage.CacheBackend.Set | web/modules/custom/external_entities_suitecrm/src/Plugin/ExternalEntities/StorageClient/SuiteCrmStorageClient.php:276 | the key now holds the data with its expiry, and no other key changes |
| SuiteCrmStorage.CacheBackend.Delete | web/modules/custom/external_entities_suitecrm/src/Plugin/ExternalEntities/StorageClient/SuiteCrmStorageClient.php:382 | only that key is removed |
| SuiteCrmStorage.StorageClient.constructor | web/modules/custom/external_entities_suitecrm/src/Plugin/ExternalEntities/StorageClient/SuiteCrmStorageClient.php:32-62 | a new client has no memo and has sent no request |
| SuiteCrmStorage.StorageClient.ClearCache | web/modules/custom/external_entities_suitecrm/src/Plugin/ExternalEntities/StorageClient/SuiteCrmStorageClient.php:380-383 | only the `suitecrm_cases_all` key is deleted |
| SuiteCrmStorage.StorageClient.Save | web/modules/custom/external_entities_suitecrm/src/Plugin/ExternalEntities/StorageClient/SuiteCrmStorageClient.php:366-370 | `save` returns `SAVED_NEW` and only clears the cache key |
| SuiteCrmStorage.StorageClient.Delete | web/modules/custom/external_entities_suitecrm/src/Plugin/ExternalEntities/StorageClient/SuiteCrmStorageClient.php:372-375 | `delete` only clears the cache key |
| SuiteCrmConfigText.SplitAtFirstOf | web/modules/custom/external_entities_suitecrm/src/Plugin/ExternalEntities/StorageClient/SuiteCrmStorageClient.php:400 | `explode('=', $line, 2)` splits at the first `=` |
| SuiteCrmConfigText.ParseParameters | web/modules/custom/external_entities_suitecrm/src/Plugin/ExternalEntities/StorageClient/SuiteCrmStorageClient.php:385-406 | the parsing loop computes `ParseSpec` of the text |
| SuiteCrmConfigText.FormatLines | web/modules/custom/external_entities_suitecrm/src/Plugin/ExternalEntities/StorageClient/SuiteCrmStorageClient.php:418-421 | one `key=value` line per parameter, in order |
| SuiteCrmConfigText.FormatParameters | web/modules/custom/external_entities_suitecrm/src/Plugin/ExternalEntities/StorageClient/SuiteCrmStorageClient.php:408-424 | the formatting loop computes `FormatSpec` of the setting |
| SuiteCrmConfigText.FormattedLineTrimmed | web/modules/custom/external_entities_suitecrm/src/Plugin/ExternalEntities/StorageClient/SuiteCrmStorageClient.php:394 | a line built from trimmed parts is left alone by `trim` |
| SuiteCrmConfigText.FormattedLineKept | web/modules/custom/external_entities_suitecrm/src/Plugin/ExternalEntities/StorageClient/SuiteCrmStorageClient.php:395-397 | such a line is neither blank nor a `#` comment |
| SuiteCrmConfigText.ParseCleanLine | web/modules/custom/external_entities_suitecrm/src/Plugin/ExternalEntities/StorageClient/SuiteCrmStorageClient.php:393-402 | a clean line stores exactly its trimmed key and value |
| SuiteCrmConfigText.ParseFormattedLine | web/modules/custom/external_entities_suitecrm/src/Plugin/ExternalEntities/StorageClient/SuiteCrmStorageClient.php:393-402 | parsing a formatted line stores its key and value |
| SuiteCrmConfigText.ParseFormattedLines | web/modules/custom/external_entities_suitecrm/src/Plugin/ExternalEntities/StorageClient/SuiteCrmStorageClient.php:385-424 | parsing the formatted lines gives back the parameters |
| SuiteCrmConfigText.FormattedTextSplits | web/modules/custom/external_entities_suitecrm/src/Plugin/ExternalEntities/StorageClient/SuiteCrmStorageClient.php:391 | splitting the joined text at newlines gives back the lines |
| SuiteCrmConfigText.ParseFormatRoundTrip | web/modules/custom/external_entities_suitecrm/src/Plugin/ExternalEntities/StorageClient/SuiteCrmStorageClient.php:385-424 | `parseParameters(formatParameters(p)) == p` for trimmed keys and values without newlines, keys without `=` and not starting with `#`, distinct keys |
| EntraTokens.SlotsDistinct | web/modules/custom/entra_jwt_token/src/EntraJwtTokenService.php:47-102 | the two kinds of token never share a session or temp-store slot |
| EntraTokens.UrlSafeToStandard | web/modules/custom/entra_jwt_token/src/EntraJwtTokenService.php:111 | `-` becomes `+`, `_` becomes `/`, everything else is unchanged |
| EntraTokens.MalformedNotExpiring | web/modules/custom/entra_jwt_token/src/EntraJwtTokenService.php:107-127 | a token without exactly three segments is never expiring soon |
| EntraTokens.UndottedNotExpiring | web/modules/custom/entra_jwt_token/src/EntraJwtTokenService.php:108-110 | a token without `.` is never expiring soon |
| EntraTokens.NoExpNotExpiring | web/modules/custom/entra_jwt_token/src/EntraJwtTokenService.php:113-126 | a token without `exp` is "not expiring soon" at every time |
| EntraTokens.ExpiringSoonStays | web/modules/custom/entra_jwt_token/src/EntraJwtTokenService.php:113-119 | once expiring soon, a token stays so at every later time |
| EntraTokens.ExpiringSoonWindow | web/modules/custom/entra_jwt_token/src/EntraJwtTokenService.php:113-119 | with `exp`, the check holds exactly when `exp - now < 300` |
| EntraTokens.Pick | web/modules/custom/entra_jwt_token/src/EntraJwtTokenService.php:75-79 | the session value when truthy, otherwise the temp-store value |
| EntraTokens.PickFromSlots | web/modules/custom/entra_jwt_token/src/EntraJwtTokenService.php:75-102 | a getter returns only what one of the slots holds, and null exactly when neither holds a usable value |
| EntraTokens.PickAfterStore | web/modules/custom/entra_jwt_token/src/EntraJwtTokenService.php:47-56 | after a token is written to both slots, the getter returns exactly it |
| EntraTokens.PickOtherKind | web/modules/custom/entra_jwt_token/src/EntraJwtTokenService.php:47-70 | storing one kind does not change what the other kind's getter returns |
| EntraTokens.PickAfterClear | web/modules/custom/entra_jwt_token/src/EntraJwtTokenService.php:132-138 | with both slots of a kind removed, its getter returns null |
| EntraTokens.TokenService.constructor | web/modules/custom/entra_jwt_token/src/EntraJwtTokenService.php:38-42 | the service starts from the given session and temp store with an empty log |
| EntraTokens.TokenService.Store | web/modules/custom/entra_jwt_token/src/EntraJwtTokenService.php:47-70 | the token goes to the session then the temp store; an exception stops the remaining writes and is logged, never raised |
| EntraTokens.TokenService.StoreJwtToken | web/modules/custom/entra_jwt_token/src/EntraJwtTokenService.php:47-56 | the session and temp-store writes up to a fault; without a fault the JWT getter returns the token and the access getter is unchanged; one success or failure event is logged |
| EntraTokens.TokenService.StoreAccessToken | web/modules/custom/entra_jwt_token/src/EntraJwtTokenService.php:61-70 | the session and temp-store writes up to a fault; without a fault the access getter returns the token and the JWT getter is unchanged; one success or failure event is logged |
| EntraTokens.TokenService.Get | web/modules/custom/entra_jwt_token/src/EntraJwtTokenService.php:75-102 | the getter returns `Pick` and changes no slot; the expiry check only logs |
| EntraTokens.TokenService.GetJwtToken | web/modules/custom/entra_jwt_token/src/EntraJwtTokenService.php:75-86 | returns the current JWT and changes no slot; an expiring-soon warning is logged iff the token is truthy and expires within 300 seconds |
| EntraTokens.TokenService.GetAccessToken | web/modules/custom/entra_jwt_token/src/EntraJwtTokenService.php:91-102 | returns the current access token and changes no slot; an expiring-soon warning is logged iff the token is truthy and expires within 300 seconds |
| EntraTokens.TokenService.ClearTokens | web/modules/custom/entra_jwt_token/src/EntraJwtTokenService.php:132-138 | all four slots are removed, so both getters return null |
| EntraTokenRenewal.OnRequest | web/modules/custom/entra_jwt_token/src/EventSubscriber/TokenRenewalSubscriber.php:82-129 | renewal is asked for at most once, and never unless every guard passes |
| EntraTokenRenewal.RenewIff | web/modules/custom/entra_jwt_token/src/EventSubscriber/TokenRenewalSubscriber.php:84-128 | renewal happens exactly once when the guards pass and `t <= 0` or `t < threshold*60`, otherwise never |
| EntraTokenRenewal.NoRenewalOutsideWindow | web/modules/custom/entra_jwt_token/src/EventSubscriber/TokenRenewalSubscriber.php:109-128 | an unknown time, or one at or beyond the threshold, triggers nothing and logs nothing |
| EntraTokenRenewal.ExpiredRenewed | web/modules/custom/entra_jwt_token/src/EventSubscriber/TokenRenewalSubscriber.php:125-128 | an expired token is renewed whatever the threshold, and a warning is logged |
| EntraTokenRenewal.SuccessLoggedIff | web/modules/custom/entra_jwt_token/src/EventSubscriber/TokenRenewalSubscriber.php:118-122 | the success line is logged exactly when renewal of an unexpired token returned true and `log_renewals` is on |
| EntraTokenRenewal.DefaultSettings | web/modules/custom/entra_jwt_token/src/EventSubscriber/TokenRenewalSubscriber.php:89-108 | unset settings mean renewal on and a 10-minute (600 s) threshold |
| EntraTokenStatus.Classify | web/modules/custom/entra_jwt_token/src/Controller/TokenStatusController.php:89-104 | expired iff `t <= 0` (or unknown), expiring iff `0 < t < 300`, valid iff `t >= 300`; minutes are `floor(t / 60)` |
| EntraTokenStatus.Status | web/modules/custom/entra_jwt_token/src/Controller/TokenStatusController.php:46-150 | availability iff present; details iff three segments, with scopes, expiry, status and audience; messages in source order; the note and the no-token warning iff both tokens are absent, and then the warning is the only message and no details are shown |
| EntraTokenStatus.AudienceExact | web/modules/custom/entra_jwt_token/src/Controller/TokenStatusController.php:113-114 | the audience is correct iff `aud` is exactly `api://` followed by the client id |
| EntraTokenStatus.ExpiringNotValid | web/modules/custom/entra_jwt_token/src/Controller/TokenStatusController.php:94-104 | a token the service calls expiring soon is never shown as valid at the same time |
| CdsDataTable.Clamp | web/themes/custom/carbon_design_system/components/cds-data-table/cds-data-table.js:5 | the result lies in `[lo, hi]`, is `n` inside it and the nearer bound outside |
| CdsDataTable.TotalPages | web/themes/custom/carbon_design_system/components/cds-data-table/cds-data-table.js:20 | the page count is at least 1 |
| CdsDataTable.TotalPagesCeil | web/themes/custom/carbon_design_system/components/cds-data-table/cds-data-table.js:20 | the page count is the least number of pages that hold every row |
| CdsDataTable.PageStartInside | web/themes/custom/carbon_design_system/components/cds-data-table/cds-data-table.js:20-34 | the first row of a clamped page lies inside a non-empty table |
| CdsDataTable.VisibleCount | web/themes/custom/carbon_design_system/components/cds-data-table/cds-data-table.js:21-36 | the visible rows are the index range `[start, start + min(pageSize, total - start))`, at least one on a non-empty table |
| CdsDataTable.Pager.Sync | web/themes/custom/carbon_design_system/components/cds-data-table/cds-data-table.js:25-30 | `total-items` becomes the total; `page` is written only when the property differs |
| CdsDataTable.ShowSlice | web/themes/custom/carbon_design_system/components/cds-data-table/cds-data-table.js:33-36 | exactly the rows with index in `[start, end)` are shown |
| CdsDataTable.Wrapper.ApplyPagination | web/themes/custom/carbon_design_system/components/cds-data-table/cds-data-table.js:8-41 | a no-op when pagination is off or there is no pager: rows, empty state and pager all unchanged; otherwise exactly the clamped page's rows are shown, the pager gets the total and (when its property differs) the page, its other fields unchanged, and the empty state is shown iff there are no rows |
| PaginationHandler.Without | web/themes/custom/carbon_design_system/src/js/pagination-handler.js:36 | after `delete(name)` no entry has that name |
| PaginationHandler.WithoutGet | web/themes/custom/carbon_design_system/src/js/pagination-handler.js:36 | deleting one name leaves `get` of every other name unchanged |
| PaginationHandler.WithoutWithout | web/themes/custom/carbon_design_system/src/js/pagination-handler.js:53-56 | removing two names commutes |
| PaginationHandler.WithoutAppend | web/themes/custom/carbon_design_system/src/js/pagination-handler.js:36 | deletion distributes over concatenation |
| PaginationHandler.WithoutIdempotent | web/themes/custom/carbon_design_system/src/js/pagination-handler.js:36 | deleting twice is deleting once |
| PaginationHandler.SetParamEffect | web/themes/custom/carbon_design_system/src/js/pagination-handler.js:38 | after `set(name, v)`, `get(name)` is `v` and entries with other names are unchanged |
| PaginationHandler.SearchParams.Set | web/themes/custom/carbon_design_system/src/js/pagination-handler.js:38 | the entries become `SetParam` of the old ones |
| PaginationHandler.SearchParams.Delete | web/themes/custom/carbon_design_system/src/js/pagination-handler.js:36 | the entries become `Without` of the old ones |
| PaginationHandler.PageChangedEffect | web/themes/custom/carbon_design_system/src/js/pagination-handler.js:26-43 | Carbon page 1 removes `page`, page `p` sets it to `p - 1`, and no other parameter changes |
| PaginationHandler.PageSizeChangedEffect | web/themes/custom/carbon_design_system/src/js/pagination-handler.js:46-60 | `items_per_page` is set, `page` is always removed, and no other parameter changes |
| PaginationHandler.OnPageChange | web/themes/custom/carbon_design_system/src/js/pagination-handler.js:26-43 | the page-change listener rewrites the query to `PageChanged` |
| PaginationHandler.OnPageSizeChange | web/themes/custom/carbon_design_system/src/js/pagination-handler.js:46-60 | the page-size listener rewrites the query to `PageSizeChanged` |
| PaginationHandler.PaginationElement.Attach | web/themes/custom/carbon_design_system/src/js/pagination-handler.js:18-26 | a marked element is skipped; otherwise it is marked and gains both listeners |
| PaginationHandler.AttachAll | web/themes/custom/carbon_design_system/src/js/pagination-handler.js:14-62 | every element ends up marked and gains the listeners only if it was not marked before, even when it appears twice |
| CarbonViewsDataTable.HeaderFor | web/modules/custom/carbon_design_system_views/src/Plugin/views/style/CarbonDataTable.php:129-135 | the label falls back to the field id; the width is the configured one, or `auto` when it is unset or empty |
| CarbonViewsDataTable.RenderHeaders | web/modules/custom/carbon_design_system_views/src/Plugin/views/style/CarbonDataTable.php:127-136 | the header loop computes `Headers` |
| CarbonViewsDataTable.HeadersKeys | web/modules/custom/carbon_design_system_views/src/Plugin/views/style/CarbonDataTable.php:127-136 | the headers are exactly the non-excluded fields, in field order |
| CarbonViewsDataTable.IncludedIdsGet | web/modules/custom/carbon_design_system_views/src/Plugin/views/style/CarbonDataTable.php:128-131 | an id is included iff it is a field that is not excluded |
| CarbonViewsDataTable.RowCellsGet | web/modules/custom/carbon_design_system_views/src/Plugin/views/style/CarbonDataTable.php:142-147 | a row holds a rendered cell exactly for the included ids |
| CarbonViewsDataTable.CellsAlign | web/modules/custom/carbon_design_system_views/src/Plugin/views/style/CarbonDataTable.php:142-147 | the cell keys are the header keys, in header order |
| CarbonViewsDataTable.ActionLinks | web/modules/custom/carbon_design_system_views/src/Plugin/views/style/CarbonDataTable.php:149-157 | `edit` iff update access, `delete` iff delete access |
| CarbonViewsDataTable.ActionLinksKeys | web/modules/custom/carbon_design_system_views/src/Plugin/views/style/CarbonDataTable.php:149-157 | the actions list `edit` before `delete` |
| CarbonViewsDataTable.RowActions | web/modules/custom/carbon_design_system_views/src/Plugin/views/style/CarbonDataTable.php:149-158 | `dynamic_actions` is present iff the row has an entity and row actions are on, and changes no other cell |
| CarbonViewsDataTable.RenderRow | web/modules/custom/carbon_design_system_views/src/Plugin/views/style/CarbonDataTable.php:139-159 | the body of the row loop computes `RowFor` |
| CarbonViewsDataTable.Render | web/modules/custom/carbon_design_system_views/src/Plugin/views/style/CarbonDataTable.php:122-174 | the headers, one row per result in result order, and title, description, size and row actions passed through |
| CarbonStructuredList.GroupAnchor | web/modules/custom/carbon_design_system_content/src/Plugin/field_group/FieldGroupFormatter/CarbonStructuredList.php:58 | the anchor starts with `group-`, is 6 longer than the name and holds no `_` |
| CarbonStructuredList.GroupAnchorInjective | web/modules/custom/carbon_design_system_content/src/Plugin/field_group/FieldGroupFormatter/CarbonStructuredList.php:58 | names without `-` get distinct anchors |
| CarbonStructuredList.GroupAnchorCollision | web/modules/custom/carbon_design_system_content/src/Plugin/field_group/FieldGroupFormatter/CarbonStructuredList.php:58 | `a_b` and `a-b` share an anchor |
| CarbonStructuredList.KeptLinesSound | web/modules/custom/carbon_design_system_content/src/Plugin/field_group/FieldGroupFormatter/CarbonStructuredList.php:33 | every kept line is a trimmed non-empty line of the input, under its line number |
| CarbonStructuredList.KeptLinesOrdered | web/modules/custom/carbon_design_system_content/src/Plugin/field_group/FieldGroupFormatter/CarbonStructuredList.php:33 | the kept lines are in line order |
| CarbonStructuredList.CustomHeadersShape | web/modules/custom/carbon_design_system_content/src/Plugin/field_group/FieldGroupFormatter/CarbonStructuredList.php:31-37 | the headers are none or two, each trimmed and non-empty, in line order |
| CarbonStructuredList.TwoLineHeaders | web/modules/custom/carbon_design_system_content/src/Plugin/field_group/FieldGroupFormatter/CarbonStructuredList.php:31-37 | two lines with text give exactly those two headers, trimmed |
| CarbonStructuredList.WalkChildren | web/modules/custom/carbon_design_system_content/src/Plugin/field_group/FieldGroupFormatter/CarbonStructuredList.php:40-56 | every child that gets a row is hidden-labelled and printed; every other child is untouched |
| CarbonStructuredList.WalkRows | web/modules/custom/carbon_design_system_content/src/Plugin/field_group/FieldGroupFormatter/CarbonStructuredList.php:40-56 | one row per child the entity has and the element holds, in group order; the label is empty for `form_mode_links` fields |
| CarbonStructuredList.GroupElement.ShowChildren | web/modules/custom/carbon_design_system_content/src/Plugin/field_group/FieldGroupFormatter/CarbonStructuredList.php:39-56 | the loop leaves the rows and children as `Walk` says |
| CarbonStructuredList.GroupElement.PreRender | web/modules/custom/carbon_design_system_content/src/Plugin/field_group/FieldGroupFormatter/CarbonStructuredList.php:25-94 | rows and children per `Walk`; a heading only for a labelled group, with the group anchor; `size` defaults to `lg`; `selection` and `flush` become booleans; container defaults only where unset; the library is attached |
| CarbonStructuredListToc.FirstEntity | web/modules/custom/carbon_design_system_content/src/Plugin/Block/CarbonStructuredListTocBlock.php:46-51 | the first route parameter that is an entity, and none only when no parameter is one |
| CarbonStructuredListToc.FindEntity | web/modules/custom/carbon_design_system_content/src/Plugin/Block/CarbonStructuredListTocBlock.php:46-51 | the parameter loop computes `FirstEntity` |
| CarbonStructuredListToc.NoEntityNothing | web/modules/custom/carbon_design_system_content/src/Plugin/Block/CarbonStructuredListTocBlock.php:53-55 | with no entity the block renders nothing |
| CarbonStructuredListToc.FullDisplayFirst | web/modules/custom/carbon_design_system_content/src/Plugin/Block/CarbonStructuredListTocBlock.php:61-68 | the `full` display's groups, or the `default` display's only when `full` has none |
| CarbonStructuredListToc.CollectItems | web/modules/custom/carbon_design_system_content/src/Plugin/Block/CarbonStructuredListTocBlock.php:70-84 | the group loop computes `TocItems` |
| CarbonStructuredListToc.TocItemsListed | web/modules/custom/carbon_design_system_content/src/Plugin/Block/CarbonStructuredListTocBlock.php:70-84 | one entry per listed group, in order, whose anchor is the structured-list formatter's `GroupAnchor` of its name |
| CarbonStructuredListToc.ListedNamesIff | web/modules/custom/carbon_design_system_content/src/Plugin/Block/CarbonStructuredListTocBlock.php:72-76 | a group is listed iff it is a `carbon_structured_list` with a truthy `show_in_toc` |
| CarbonStructuredListToc.NoListedNothing | web/modules/custom/carbon_design_system_content/src/Plugin/Block/CarbonStructuredListTocBlock.php:86-88 | with no listed group the block renders nothing |
| CarbonStructuredListToc.WeightLeTotalPreorder | web/modules/custom/carbon_design_system_content/src/Plugin/Block/CarbonStructuredListTocBlock.php:90 | comparing by weight is a total preorder |
| CarbonStructuredListToc.Links | web/modules/custom/carbon_design_system_content/src/Plugin/Block/CarbonStructuredListTocBlock.php:92-100 | one link per entry, in order, to `#` and the entry's anchor |
| CarbonStructuredListToc.RenderLinks | web/modules/custom/carbon_design_system_content/src/Plugin/Block/CarbonStructuredListTocBlock.php:92-100 | the link loop computes `Links` |
| CarbonStructuredListToc.Build | web/modules/custom/carbon_design_system_content/src/Plugin/Block/CarbonStructuredListTocBlock.php:43-115 | `build` returns `TocOf` of the route parameters and displays |
| CarbonStructuredListToc.TocOrdered | web/modules/custom/carbon_design_system_content/src/Plugin/Block/CarbonStructuredListTocBlock.php:79-100 | the links follow the entries sorted ascending by weight: a permutation, with equal weights in configuration order |
| Sorting.SortSorted | web/modules/custom/carbon_design_system_content/src/Plugin/Block/CarbonStructuredListTocBlock.php:90 | `usort` leaves the sequence ordered by its comparison |
| Sorting.SortPermutes | web/modules/custom/carbon_design_system_content/src/Plugin/Block/CarbonStructuredListTocBlock.php:90 | `usort` permutes its input |
| Sorting.SortStable | web/modules/custom/carbon_design_system_content/src/Plugin/Block/CarbonStructuredListTocBlock.php:90 | `usort` keeps elements that compare equal in their input order |
| FormModePermissions.PermissionName | web/modules/custom/external_entities_suitecrm/src/Permissions/FormModePermissions.php:71 | `use <type>.<mode> form mode`: starts with `use `, ends with ` form mode` |
| FormModePermissions.PermissionNameInjective | web/modules/custom/external_entities_suitecrm/src/Permissions/FormModePermissions.php:71 | for one entity type, different modes give different permissions |
| FormModePermissions.UcwordsFromChars | web/modules/custom/external_entities_suitecrm/src/Permissions/FormModePermissions.php:59 | `ucwords` upper-cases exactly the characters that begin a word (the first, and each after a delimiter) and keeps every other character |
| FormModePermissions.SuiteCrmCaseTitle | web/modules/custom/external_entities_suitecrm/src/Permissions/FormModePermissions.php:59 | `ucwords('suitecrm case')` is `Suitecrm Case` |
| FormModePermissions.SuiteCrmCaseName | web/modules/custom/external_entities_suitecrm/src/Permissions/FormModePermissions.php:59-62 | `suitecrm_case` is shown as `suitecrm case` in descriptions and, through `ucwords`, as `Suitecrm Case` in titles: the default permission's title is `Use default form mode for Suitecrm Case` |
| FormModePermissions.AddFormModes | web/modules/custom/external_entities_suitecrm/src/Permissions/FormModePermissions.php:69-81 | the form-mode loop computes `AddModes` |
| FormModePermissions.AddTypePermissions | web/modules/custom/external_entities_suitecrm/src/Permissions/FormModePermissions.php:53-86 | one round of the outer loop computes `AddType` |
| FormModePermissions.BuildPermissions | web/modules/custom/external_entities_suitecrm/src/Permissions/FormModePermissions.php:49-90 | `permissions` computes `AllPermissions` |
| FormModePermissions.AddModesGet | web/modules/custom/external_entities_suitecrm/src/Permissions/FormModePermissions.php:69-81 | each form mode gets its permission with its label; every other name is unchanged |
| FormModePermissions.SuiteCrmPermissions | web/modules/custom/external_entities_suitecrm/src/Permissions/FormModePermissions.php:53-86 | the default permission is always present; each returned mode adds its own; a mode that is not returned has none |
| FormModePermissions.LookupFailureDefaultOnly | web/modules/custom/external_entities_suitecrm/src/Permissions/FormModePermissions.php:83-86 | when the lookup throws, only the default permission remains |
| FormModeLinksFormatter.SelectedModes | web/modules/custom/external_entities_suitecrm/src/Plugin/Field/FieldFormatter/FormModeLinksFormatter.php:221 | the selected modes are the truthy setting values, in order |
| FormModeLinksFormatter.CollectModeLinks | web/modules/custom/external_entities_suitecrm/src/Plugin/Field/FieldFormatter/FormModeLinksFormatter.php:227-259 | the mode loop, with its `continue` guards, computes `AddModeLinks` |
| FormModeLinksFormatter.ViewElements | web/modules/custom/external_entities_suitecrm/src/Plugin/Field/FieldFormatter/FormModeLinksFormatter.php:196-282 | `viewElements` returns `ViewOf` |
| FormModeLinksFormatter.AddModeLinksGet | web/modules/custom/external_entities_suitecrm/src/Plugin/Field/FieldFormatter/FormModeLinksFormatter.php:227-259 | an allowed selected mode gets its link; every other key is unchanged |
| FormModeLinksFormatter.NoAccessNoElements | web/modules/custom/external_entities_suitecrm/src/Plugin/Field/FieldFormatter/FormModeLinksFormatter.php:202-204 | without update access there are no elements |
| FormModeLinksFormatter.LinksIff | web/modules/custom/external_entities_suitecrm/src/Plugin/Field/FieldFormatter/FormModeLinksFormatter.php:209-259 | when no selected mode is named `default`: the Edit link, with `[link_class, 'button--primary']`, iff `show_default` and an edit form; for every mode not named `default`: its link iff the form-mode lookup succeeded and the mode is selected, exists, is permitted and its route exists, and the link is that mode's link |
| FormModeLinksFormatter.AllowedModesIn | web/modules/custom/external_entities_suitecrm/src/Plugin/Field/FieldFormatter/FormModeLinksFormatter.php:227 | only selected modes get links |
| FormModeLinksFormatter.AddModeLinksKeys | web/modules/custom/external_entities_suitecrm/src/Plugin/Field/FieldFormatter/FormModeLinksFormatter.php:227-259 | the mode links follow the earlier keys, in settings order |
| FormModeLinksFormatter.LinksOrder | web/modules/custom/external_entities_suitecrm/src/Plugin/Field/FieldFormatter/FormModeLinksFormatter.php:209-259 | when the selected modes are distinct and none is named `default`: the Edit link (when shown) comes first, then the allowed modes in settings order |
| FormModeLinksFormatter.ElementsIffLinks | web/modules/custom/external_entities_suitecrm/src/Plugin/Field/FieldFormatter/FormModeLinksFormatter.php:267-279 | with access, one `item_list` with class `form-mode-links`, context `user.permissions` and the entity's tags iff there is a link |
| FormModeLinksFormatter.SettingsSummary | web/modules/custom/external_entities_suitecrm/src/Plugin/Field/FieldFormatter/FormModeLinksFormatter.php:171-191 | a default line iff `show_default`; a modes line, joined with `, `, iff a mode is selected; a class line iff `link_class` is set; in that order |
| SuiteCrmRouteSubscriber.AlterRoutes | web/modules/custom/external_entities_suitecrm/src/Routing/RouteSubscriber.php:34-51 | with a custom mode and the add-form route: `_entity_form` becomes `suitecrm_case.<mode>` and `_permission` the mode's permission; otherwise nothing changes |
| SuiteCrmRouteSubscriber.RoutePermissionDefined | web/modules/custom/external_entities_suitecrm/src/Routing/RouteSubscriber.php:48-49 | the permission the route requires is one the permission provider defines, for any mode the repository returns |

## Left out

- HTTP, OAuth and JSON: `getHttpHeaders`, the Guzzle call and `json_decode` in `makeRequest` are out. The outcome is a `Response` parameter, already decoded, with the data path taken out.
- The token service's `getTimeUntilExpiry` and `renewToken` are outside the token service source. They are the parameters `timeUntilExpiry` and `renewed`.
- base64 and JSON decoding of a JWT payload are out. They are the `decode` parameter.
- Wall-clock time is the parameter `now`. `date()` formatting of the expiry is out.
- Loggers and the messenger are ghost event logs or returned message lists. Their text and translation (`t()`) are out.
- PHP loose comparison is out:
  - In the sort, attribute values are strings or null, compared byte-wise; `<=>` numeric juggling is not modelled.
  - In `load`, `==` is exact string equality.
- Integer keys: PHP turns numeric-string array keys into integers. The model keeps them as strings.
- Exception types are not distinguished. A store fault is one of the three places it can occur; a failed route lookup is `routeExists` being false.
- `SuiteCrmStorage.StorageClient.Save` and `Delete` do not clear `casesCache`, and neither does the source.
- `CdsDataTable.Wrapper.ApplyPagination`: requires a positive page size. `Number()` of a missing or non-numeric attribute (NaN) and fractional sizes are not modelled. Attributes are held as integers.
- `initDataTable` in `cds-data-table.js`, `window.location` navigation and `new URL` parsing are out. The query is a sequence of name/value entries.
- The TOC block's fixed markup is not modelled: its wrapper, heading, CSS classes, library and the `url.path` cache context. The model keeps the links and the entity's cache tags.
- The fixed render-array keys of the other renderers are not modelled: `#type`, `#weight` and the heading tag. The model keeps the values the code computes.
- `parent::preRender` in `CarbonStructuredList.php` is not part of this model.
- Form builders, option forms and settings forms are not part of this model, and neither are the widgets, field types, the case form, the notification service, the cases controller and block, `autologout.js`, build configuration and tests.
