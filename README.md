# mapa_eleitoral views: a Dafny model

This project models the logic of `siteDjangoProject/mapa_eleitoral/views.py`, the
views of a Django dashboard that maps Rio de Janeiro election results by
neighbourhood (bairro). The model covers four parts of that file:

- **Vote aggregation** (`get_complete_candidate_data`). The rows of one
  (year, party, ballot name) triple are ordered by neighbourhood. They are
  folded into a neighbourhood → votes dictionary and a running total. A
  summary is built from the first row. The result is `None` when nothing
  matches.
- **The memoising cache.**
  - `safe_key`, with its digest taken as a parameter.
  - `cached_qs`.
  - The cached candidate data.
  - `clear_cache_view`.
  - The `CACHE_TIMES` table and the clamp DEBUG applies to it.
- **The dropdown queries and the AJAX endpoints.**
  - Years are distinct and in descending order.
  - Parties and candidates are distinct and in ascending order. Their year and party filters apply only when those values are given.
  - Each endpoint returns an empty list when the parameters it needs are missing.
- **The selection fallbacks of `home_view`.** Year, party and candidate are resolved in turn. The map is attempted only when a candidate and a year are selected.

The record store `DadoEleitoral` is a sequence of rows (`Records.Record`).
The shared cache is a class over a dictionary (`CacheStore.Cache`).
Operations that read or write the cache are methods. Each method that may
add entries states that every old entry is kept unchanged, which keys it may
add, and what those keys hold afterwards, with their time-to-live when new.
`Cache.queries` is a ghost counter of the queries run; it exists only to state
that a hit runs no query. The DEBUG clamp and the
vote-folding loop are methods with loops, proved against the functions that
specify them. The queries and the fallback expressions are functions.

Modules, one file each:

- `Wrappers`: `Option`.
- `Order`: string order and sorted-distinct lists.
- `Records`: rows, vote coercion, filters and the dropdown queries.
- `Aggregation`: neighbourhood sums and the candidate data.
- `Config`: `CACHE_TIMES`.
- `CacheStore`: keys and the cache.
- `Views`: the views.
- `Scenarios`: worked cases.

Three behaviours of `home_view` worth noting:

- A supplied year, party or candidate is used as given. It is never checked against the offered lists.
- A missing year becomes the literal `'2024'`. It is not the most recent year in the store, so an empty store still yields year `2024`.
- The map is attempted when the candidate and the year are non-empty. The party is not looked at.

`safe_key` joins its arguments with `_` before hashing, so it is not
injective. Two argument lists join to the same text when one has `x_y` where
the other has `x, y`; `CacheStore.SafeKeyCollides` proves this for every
digest. `Scenarios.CollidingCandidates` shows the effect: candidate `A_B` of
party `C` is answered with the cached data of candidate `A` of party `B_C`.

## Model

| member | source | states |
|---|---|---|
| Records.TruncDiv | siteDjangoProject/mapa_eleitoral/views.py:84 | `int()` of a fraction truncates toward zero. For a non-negative numerator the result is the largest multiple not above it; for a negative one, the smallest multiple not below it. |
| Records.Coerce | siteDjangoProject/mapa_eleitoral/views.py:84 | A whole vote value is kept and a non-numeric one becomes 0. |
| Records.CoerceFraction | siteDjangoProject/mapa_eleitoral/views.py:84 | A fraction becomes its quotient truncated toward zero (`int()` of a float), an integer between 0 and its numerator. |
| Records.Filter | siteDjangoProject/mapa_eleitoral/views.py:73-75 | An exact-match filter keeps exactly the rows whose column has the value, each as many times as it occurs in the store, and adds no rows. |
| Records.Values | siteDjangoProject/mapa_eleitoral/views.py:50 | `values_list(col, flat=True)` has one entry per row: that row's column value. |
| Records.YearsQuery | siteDjangoProject/mapa_eleitoral/views.py:48-51 | The year list is strictly descending (distinct, most recent first) and holds exactly the years some row carries. |
| Records.PartiesQuery | siteDjangoProject/mapa_eleitoral/views.py:53-57 | The party list is strictly ascending. It holds exactly the parties of rows in the given year, or of all rows when no year is given. |
| Records.CandidatesQuery | siteDjangoProject/mapa_eleitoral/views.py:59-65 | The candidate list is strictly ascending. It holds exactly the ballot names of rows matching the year and the party, each filter applied only when its value is given. |
| Records.PartiesOfAbsentYear | siteDjangoProject/mapa_eleitoral/views.py:54-56 | A non-empty year that no row carries has an empty party list. (An empty year is falsy, so it lists every party.) |
| Records.Matching | siteDjangoProject/mapa_eleitoral/views.py:73-75 | The aggregation query keeps exactly the rows of the (year, party, ballot name) triple, each as many times as it occurs in the store. |
| Records.MatchingKeepsAll | siteDjangoProject/mapa_eleitoral/views.py:73-75 | When every row belongs to the triple, the query returns all rows in store order. |
| Order.SortedDistinct | siteDjangoProject/mapa_eleitoral/views.py:56 | `.distinct().order_by(col)` yields a strictly ascending list with the same members as the column. |
| Order.SortedDistinctDescending | siteDjangoProject/mapa_eleitoral/views.py:50 | `.distinct().order_by('-col')` yields a strictly descending list with the same members. |
| Order.Insert | siteDjangoProject/mapa_eleitoral/views.py:56 | Inserting into an ascending list keeps it ascending and adds exactly the one value. |
| Order.LessTotal | siteDjangoProject/mapa_eleitoral/views.py:56 | The text order is total: of two different strings, one comes first. |
| Order.LessTransitive | siteDjangoProject/mapa_eleitoral/views.py:56 | The text order is transitive. |
| Aggregation.SortByNeighbourhood | siteDjangoProject/mapa_eleitoral/views.py:76 | `order_by('nm_bairro')` returns a permutation of the rows ordered by neighbourhood. |
| Aggregation.InsertKeepsOrder | siteDjangoProject/mapa_eleitoral/views.py:76 | Inserting a row into rows ordered by neighbourhood keeps them ordered. |
| Aggregation.SortKeepsSums | siteDjangoProject/mapa_eleitoral/views.py:76-86 | Ordering the rows changes neither a neighbourhood's sum nor the total. |
| Aggregation.VotesByNeighbourhoodSnoc | siteDjangoProject/mapa_eleitoral/views.py:85 | One more row changes the dictionary as `votos_dict[b] = votos_dict.get(b, 0) + v` does: its neighbourhood gains its votes and no other entry changes. |
| Aggregation.NonNumericRowAddsKeyOnly | siteDjangoProject/mapa_eleitoral/views.py:84-85 | A non-numeric vote adds 0 to the total. Its neighbourhood still becomes a key, with 0 if it was new. |
| Aggregation.SumOfNeighbourhoodsIsTotal | siteDjangoProject/mapa_eleitoral/views.py:81-86 | The neighbourhood sums add up to the total of all rows' coerced votes. |
| Aggregation.SumValuesUpdate | siteDjangoProject/mapa_eleitoral/views.py:85 | Setting one dictionary entry changes the sum of the values by the difference. |
| Aggregation.SumValuesAdd | siteDjangoProject/mapa_eleitoral/views.py:85 | Adding `v` to one entry, new or existing, adds `v` to the sum of the values. |
| Aggregation.FoldVotes | siteDjangoProject/mapa_eleitoral/views.py:81-86 | The loop builds exactly the reference dictionary (each neighbourhood of the rows with its summed votes). Its running total equals both the total of the rows and the sum of the dictionary's values. |
| Aggregation.FoldStep | siteDjangoProject/mapa_eleitoral/views.py:81-86 | One iteration adds the row's coerced votes to its neighbourhood's entry (0 if new) and to the total, on the reference definitions. |
| Aggregation.NoDataIffNoRows | siteDjangoProject/mapa_eleitoral/views.py:78-79 | The result is `None` exactly when no row carries the (year, party, ballot name) triple. |
| Aggregation.ComputeCandidateData | siteDjangoProject/mapa_eleitoral/views.py:73-94 | The result is `None` exactly when no row matches. Otherwise the summary names the requested candidate and year, and `total_votos` equals `info['votos_total']`. |
| Aggregation.SortedAggregate | siteDjangoProject/mapa_eleitoral/views.py:76-86 | Ordering and then folding the rows gives each of their neighbourhoods the sum of its rows, and a total equal to the sum of the dictionary's values and to the coerced votes of all rows. |
| Aggregation.PermutationKeepsNeighbourhoods | siteDjangoProject/mapa_eleitoral/views.py:76 | Reordering the rows keeps the set of neighbourhoods they mention. |
| Aggregation.FirstOfOrderedIsLeast | siteDjangoProject/mapa_eleitoral/views.py:76-89 | The first row after ordering is a matching row whose neighbourhood no matching row precedes. |
| Aggregation.TotalsAgree | siteDjangoProject/mapa_eleitoral/views.py:81-94 | `total_votos` equals `info['votos_total']`. Both equal the sum of `votos_dict`'s values and the coerced votes of all matching rows. |
| Aggregation.PerNeighbourhood | siteDjangoProject/mapa_eleitoral/views.py:73-85 | `votos_dict`'s keys are exactly the neighbourhoods of the matching rows. Each value is the sum over all of that neighbourhood's rows, so duplicates are added, not overwritten. |
| Aggregation.InfoFromFirstRow | siteDjangoProject/mapa_eleitoral/views.py:88-93 | The summary names the requested candidate and year. Its office is that of a matching row in the first neighbourhood in order. |
| Config.ConfiguredTimes | siteDjangoProject/mapa_eleitoral/views.py:16-22 | The table has exactly the eight kinds (`geojson_data`, `map_html`, `candidato_info`, `anos_eleicao`, `partidos`, `candidatos`, `votos_bairro`, `complete_data`), each at least 300. |
| Config.Clamped | siteDjangoProject/mapa_eleitoral/views.py:23-24 | The capped table keeps the keys. Each value is at most the cap and at most its old value, and is either its old value or the cap. |
| Config.ClampForDebug | siteDjangoProject/mapa_eleitoral/views.py:23-24 | The in-place DEBUG loop keeps the key set. Each value becomes at most 300 and at most its old value, and is either its old value or 300. The result is the table capped at 300. |
| Config.CacheTimes | siteDjangoProject/mapa_eleitoral/views.py:16-24 | The DEBUG setting never changes which result kinds have a time-to-live. |
| Config.ConfiguredValues | siteDjangoProject/mapa_eleitoral/views.py:16-22 | Without DEBUG the table has the eight kinds: `geojson_data`, `map_html`, `candidato_info` and `anos_eleicao` at 86400, `partidos`, `candidatos` and `complete_data` at 43200, and `votos_bairro` at 21600. |
| Config.DebugTimesCapped | siteDjangoProject/mapa_eleitoral/views.py:23-24 | Under DEBUG the key set is unchanged and every entry is at most 300 and at most its configured value. Every entry is in fact exactly 300. |
| CacheStore.SafeKey | siteDjangoProject/mapa_eleitoral/views.py:27-28 | A key is its prefix followed by `_` and the digest. |
| CacheStore.Join | siteDjangoProject/mapa_eleitoral/views.py:28 | `"_".join(args)` is empty exactly for no arguments or one empty one. It starts with the first argument, followed by `_` when there are more. |
| CacheStore.KeyKindsDisjoint | siteDjangoProject/mapa_eleitoral/views.py:27-28 | Candidate-data keys start with `complete_data_`. Party-list keys, candidate-list keys and `anos_eleicao` do not, and they never coincide with each other. |
| CacheStore.JoinMerges | siteDjangoProject/mapa_eleitoral/views.py:28 | Joining with `_` loses argument boundaries: `x, y` and `x_y` join to the same text anywhere in the list. |
| CacheStore.SafeKeyCollides | siteDjangoProject/mapa_eleitoral/views.py:27-28 | Two different argument lists share a key whatever the digest, so `safe_key` is not injective. |
| CacheStore.Cache.Get | siteDjangoProject/mapa_eleitoral/views.py:31 | `cache.get` returns the stored value when the key is present and `None` otherwise. |
| CacheStore.Cache.Set | siteDjangoProject/mapa_eleitoral/views.py:34 | `cache.set` replaces the one entry and leaves every other entry unchanged. |
| CacheStore.Cache.CachedQs | siteDjangoProject/mapa_eleitoral/views.py:30-35 | On a hit, any stored list including the empty one is returned, no query is run and nothing changes. On a miss, the query runs once and its rows are stored under the key and returned. In both cases the result is the stored list or else the query's, every old entry is kept unchanged, and only the key may be new. A new entry holds the list with the given time-to-live. |
| CacheStore.Cache.Clear | siteDjangoProject/mapa_eleitoral/views.py:193 | `cache.clear()` leaves no entries. |
| CacheStore.ExtendsTransitive | siteDjangoProject/mapa_eleitoral/views.py:30-35 | Two steps that each keep the old entries and add only their own keys together keep the old entries and add only the union of the keys. |
| CacheStore.DataOutcome | siteDjangoProject/mapa_eleitoral/views.py:67-96 | The candidate-data lookup returns the stored data or the computed data, keeps every old entry, may add only its key, and leaves returned data stored under that key, with the `complete_data` time-to-live when the key is new. |
| Views.GetCachedAnos | siteDjangoProject/mapa_eleitoral/views.py:48-51 | The year list is served through the cache under `anos_eleicao`, with that kind's time-to-live. The list returned is the one stored under `anos_eleicao` before the call, or else the query's. Old entries are kept, only that key may be new, and afterwards it holds the list returned (with the `anos_eleicao` time-to-live when new). |
| Views.GetCachedPartidos | siteDjangoProject/mapa_eleitoral/views.py:53-57 | The party list is served through the cache, keyed by the year or by `all`. The list returned is the one stored under the party key before the call, or else the query's. Old entries are kept, only that key may be new, and afterwards it holds the list returned (with the `partidos` time-to-live when new). |
| Views.GetCachedCandidatos | siteDjangoProject/mapa_eleitoral/views.py:59-65 | The candidate list is served through the cache, keyed by `str` of party and year. The list returned is the one stored under the candidate key before the call, or else the query's. Old entries are kept, only that key may be new, and afterwards it holds the list returned (with the `candidatos` time-to-live when new). |
| Views.GetCompleteCandidateData | siteDjangoProject/mapa_eleitoral/views.py:67-96 | A stored result is returned unchanged without a query. Otherwise the rows are queried once: when none match, `None` is returned and the cache is untouched; when some match, the aggregate is stored under the key with the `complete_data` time-to-live and returned. Old entries are kept and only that key may be new. |
| Views.PartiesKey | siteDjangoProject/mapa_eleitoral/views.py:57 | Party-list keys are never `anos_eleicao` and never candidate-data keys. |
| Views.AbsentYearKeyedAsAll | siteDjangoProject/mapa_eleitoral/views.py:57 | No year, an empty year and the year `all` share one party-list key (`ano or 'all'`). |
| Views.CandidatesKey | siteDjangoProject/mapa_eleitoral/views.py:65 | Candidate-list keys are never `anos_eleicao`, a candidate-data key or a party-list key. |
| Views.AbsentPartyKeyedAsNone | siteDjangoProject/mapa_eleitoral/views.py:65 | A missing party and the party `None` share one candidate-list key (`str(None)`). |
| Views.CandidateDataKey | siteDjangoProject/mapa_eleitoral/views.py:68 | Candidate-data keys are always recognised as such (they start with `complete_data_`). |
| Views.ResolveYear | siteDjangoProject/mapa_eleitoral/views.py:143 | The year is the supplied one if non-empty, else `2024`, and is never empty. |
| Views.ResolveChoice | siteDjangoProject/mapa_eleitoral/views.py:145-147 | A non-empty supplied value wins, unchecked. Otherwise the preferred default if offered, else the first option, else `''`. Any fallback is one of the options. |
| Views.MapAttempted | siteDjangoProject/mapa_eleitoral/views.py:150 | The map is attempted exactly when the candidate and the year are both non-empty. |
| Views.MapAttemptedIffCandidate | siteDjangoProject/mapa_eleitoral/views.py:143-150 | Since the resolved year is never empty, the map is attempted exactly when a candidate is selected. |
| Views.ColdPage | siteDjangoProject/mapa_eleitoral/views.py:141-154 | The page computed straight from the store has a non-empty year, years in descending order, parties and candidates in ascending order, and a summary exactly when there is map data. The map data is for the selected candidate and year. |
| Views.PageFor | siteDjangoProject/mapa_eleitoral/views.py:141-154 | The page served from a given cache has the resolved year, party and candidate, each resolved against the list it offers. Map data comes with the matching summary and only for a selected candidate. With an empty cache it is the cold page. |
| Views.SelectFilters | siteDjangoProject/mapa_eleitoral/views.py:142-147 | The three lists are served through the cache in turn, each keyed by the selection made before it. Each is the stored list or else the query's. Old entries are kept and only the three keys may be new. Afterwards each key holds its list, with its kind's time-to-live when new. |
| Views.MapData | siteDjangoProject/mapa_eleitoral/views.py:148-154 | There is no map data unless the map is attempted. Otherwise it is the stored or computed candidate data, and the summary is its `candidato_info`. Old entries are kept and only the candidate-data key may be new. When there is map data it is stored under that key (with the `complete_data` time-to-live when new). When there is none, the cache is unchanged. |
| Views.ComposeHome | siteDjangoProject/mapa_eleitoral/views.py:141-154 | The list step and the map step together keep every old entry and add only the four keys, and the list step does not touch the candidate-data key. |
| Views.HomeView | siteDjangoProject/mapa_eleitoral/views.py:141-165 | The page is the one determined by the cache as it was before the request (`PageFor`). Old entries are kept unchanged, only the year, party-list, candidate-list and candidate-data keys may be new, and afterwards they hold the lists on the page, and the map data when the page has some, each with its kind's time-to-live when new. When the page has no map data, the candidate-data key is present afterwards exactly when it was before, so "no data" is never stored. On an empty cache the page is the one computed directly from the store. |
| Views.EmptyStorePage | siteDjangoProject/mapa_eleitoral/views.py:141-154 | With an empty store the page never fails: no lists, party and candidate as supplied or empty, year as supplied or `2024`, and no map. |
| Views.ColdPageMap | siteDjangoProject/mapa_eleitoral/views.py:147-154 | On a cold cache a map is drawn exactly when a candidate is selected and some row carries the selected triple. |
| Views.ColdPageFallbacks | siteDjangoProject/mapa_eleitoral/views.py:144-147 | An unsupplied party or candidate whose default is not offered falls back to the alphabetically first option. That option is backed by a row of the selected year (and, for a candidate, the selected party). |
| Views.AnosAjax | siteDjangoProject/mapa_eleitoral/views.py:168-169 | The year endpoint serves the cached year list. |
| Views.CandidatosAjax | siteDjangoProject/mapa_eleitoral/views.py:171-174 | Without a party the candidate endpoint returns `[]` and leaves the cache untouched. With one, it serves the cached candidate list. |
| Views.PartidosAjax | siteDjangoProject/mapa_eleitoral/views.py:176-179 | Without a year the party endpoint returns `[]` and leaves the cache untouched. With one, it serves the cached party list. |
| Views.FilterDataAjax | siteDjangoProject/mapa_eleitoral/views.py:181-188 | Parties are `[]` without a year; candidates are `[]` unless both year and party are given. Each list given is the stored one or else the query's. Old entries are kept, and only the keys of the lists actually looked up may be new. Those keys then hold those lists, with their kind's time-to-live when new. On an empty cache the three lists are the store's answers. |
| Views.ClearCacheView | siteDjangoProject/mapa_eleitoral/views.py:191-193 | A non-superuser gets 403 `Acesso negado` and the cache is unchanged. A superuser gets 200 and an empty cache. |
| Views.CacheStatsView | siteDjangoProject/mapa_eleitoral/views.py:195-197 | The status is 403 exactly for a non-superuser, with an `error` field. |
| Scenarios.ThreeRowsAggregate | siteDjangoProject/mapa_eleitoral/views.py:81-94 | Two Centro rows (100 and 50) and one Zona Sul row (30) give Centro 150, Zona Sul 30 and a total of 180 in both places. |
| Scenarios.CollidingKeys | siteDjangoProject/mapa_eleitoral/views.py:68 | (`A`, `B_C`, `2024`) and (`A_B`, `C`, `2024`) share one candidate-data key. |
| Scenarios.CollidingCandidates | siteDjangoProject/mapa_eleitoral/views.py:67-71 | After `A` of party `B_C` is looked up, asking for `A_B` of party `C` returns `A`'s data. |
| Scenarios.RepeatedLookup | siteDjangoProject/mapa_eleitoral/views.py:67-96 | Asking twice for the same candidate returns the same data, with at most one query in all. Missing data is queried again each time, since it is never stored. |

## Left out

- Map generation (`generate_static_map_html`, views.py lines 100-138): folium, the GeoJSON file, the file-name hash and the file write are a foreign library and file I/O. The map step is represented only by `Page.mapInput`, the data it would be given. The tooltip's `if total_votos` guard is float formatting and is not modelled.
- `load_geojson` and `cleanup_old_maps`: file reads and deletions driven by wall-clock time.
- Views.HomeView: when a map is drawn, `load_geojson` also stores the parsed GeoJSON under `geojson_data` in the shared cache (views.py lines 37-44). The model does not capture that write, so the contract lists only the four keys the views write themselves.
- `PerformanceMiddleware`: timing and floating point.
- `render`, `JsonResponse`, URL routing and the `@cache_page` decorators: framework plumbing. A response is modelled as its status and one field; page caching by URL is not modelled.
- The MD5 inside `safe_key` is a parameter (`Env.digest`), any function of the joined text. Its own collisions are not modelled.
- Time-to-live is stored with each entry but never expires. Backend eviction (`MAX_ENTRIES`, `CULL_FREQUENCY`) is not modelled.
- Concurrent requests on the shared cache are not modelled. Every operation runs alone.
- The record store's text order is modelled as lexicographic order by character code. Database collation and locale rules are not modelled. The order of rows sharing a neighbourhood is modelled as store order (a stable sort); the database does not promise one.
- Vote values: floats are modelled as exact fractions. NaN and infinity are not modelled (`int()` raises on them).
- CacheStore.Cache.CachedQs: requires a key that does not start with `complete_data_`, and keeps the invariant that candidate data is stored only under such keys. Every call site in views.py meets this, since `partidos`, `candidatos` and `anos_eleicao` differ from that prefix. A cache shared with other code could hold any value under any key, which the model does not capture.
- `settings.py` and `models.py` are configuration and ORM declarations. Only the six columns the views read are kept in `Records.Record`.
