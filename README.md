# Leaderboard sheet proxy, modelled in Dafny

The service answers `GET /sheet/:eventname` with the rows of the spreadsheet tab
named after the event and a top-10 leaderboard computed from them. A process-wide
cache keyed by event name holds `{fullData, top10}` for five hours.

This project models the two pieces of logic in `index.js`:

- **the ranking `computeTop10(rows)`**, as pure functions:
  - `Score` models `parseFloat(cell) || 0`. It reads the longest decimal prefix of the cell: leading white space, a sign, digits, a fraction and an exponent. A cell with no such prefix scores 0, and so does a missing cell.
  - `StableSort` models the stable, highest-first `Array.prototype.sort` of the data rows.
  - `Ranking` drops the header, sorts, keeps ten rows and projects each to `{name, points}`.
- **the route handler**, in `SheetHandler`:
  - `Serve` is a pure specification of one request: the response, the cache afterwards, and whether the spreadsheet was called.
  - The class `SheetCache` holds the cache as a `map<string, CacheEntry>` field.
  - Its method `HandleSheet` performs the request imperatively with `cache.get` / `cache.set` (`Get` / `Set`), and its postcondition is `Serve`.

The spreadsheet call is a foreign network call. It appears only as its outcome, a
`FetchResult` parameter: `Rows(rows)`, `NoRows` (no `values` in the reply) or
`Failure(message)` (a thrown error). The handler looks at this parameter only on a miss.
Time is not modelled. A cache entry whose TTL has run out leaves the map through `SheetCache.Evict`.

Files: `wrappers.dfy` (Option), `score.dfy`, `stable_sort.dfy`, `ranking.dfy`, `sheet_handler.dfy`.

## Model

| member | source | states |
|---|---|---|
| Score.ParseFloat | index.js:35-36 | `parseFloat` is NaN (None) exactly when, after leading white space and one optional sign, the text does not start with a digit or with a point followed by a digit (the literal `Infinity` aside, see below) |
| Score.CellScore | index.js:35-36 | `parseFloat(cell) \|\| 0`: a missing cell (`undefined`) and a cell that parses to NaN both score 0; otherwise the score is the value `parseFloat` reads |
| Score.CellScoreOfDigits | index.js:35-36 | a cell holding exactly the decimal digits of a natural n scores n |
| Score.CellScoreOfWord | index.js:35-36 | a cell starting with anything but white space, a sign, a digit or a point ("x", "n/a") scores 0 (other than `Infinity`, see below) |
| Score.NonNegativeRoundTrip | index.js:35-36 | the decimal digits of any natural n parse back to n, also when followed by text that cannot continue the literal (lenient parsing: "12abc" scores 12) |
| Score.NegativeRoundTrip | index.js:35-36 | `-` followed by the digits of n parses back to -n, under the same condition on what follows |
| Score.ParseFloatSkipsWhiteSpace | index.js:35-36 | any leading white space (ECMAScript StrWhiteSpaceChar) leaves the parsed value unchanged |
| Ranking.Points | index.js:35-36 | the sort key `parseFloat(row[1]) \|\| 0`: a row without cell 1, or whose cell 1 has no numeric prefix (other than `Infinity`, see below), scores 0; otherwise it scores the value `parseFloat` reads |
| Ranking.ToEntry | index.js:43-44 | the `map` callback: the entry's name is cell 0 (absent past the row's end) and its points are the row's score |
| Ranking.SortedRows | index.js:34-38 | `dataRows.sort(...)`: the data rows, same length and multiset, ordered by score highest first (stability: `StableSort.SortStable`, as used in `Ranking.Top10Stable`) |
| Ranking.TopRows | index.js:31-40 | the `rows.length < 2` guard gives no rows; otherwise `slice(0, 10)` keeps exactly min(10, rows - 1) rows, a prefix of the sorted data rows; rows are cut only when ten were kept |
| StableSort.Sort | index.js:34-38 | the sorted data rows are a permutation of the data rows (same length, same multiset) |
| StableSort.SortDescending | index.js:34-38 | the comparator `key(b) - key(a)` orders the rows by key, highest first |
| StableSort.SortStable | index.js:34-38 | the sort is stable: for every key value, the rows with that key appear in their input order |
| StableSort.PrefixIsTop | index.js:40 | in a descending sequence, every element that `slice(0, n)` leaves out has a key no higher than the last element kept, and nothing is left out when n covers the sequence |
| Ranking.Cell | index.js:35-36 | `row[i]` is present exactly when i is below the row's length, and is then that cell |
| Ranking.DataRows | index.js:33 | `rows.slice(1)`: every row but the header, in order, and nothing for an empty sheet |
| Ranking.ComputeTop10 | index.js:30-46 | fewer than two rows give an empty leaderboard; otherwise the leaderboard has exactly min(10, rows - 1) entries |
| Ranking.Top10Sorted | index.js:34-40 | the leaderboard's points never increase from one entry to the next |
| Ranking.Top10Entries | index.js:33-45 | entry i is `{name: cell 0, points: score of cell 1}` of the i-th kept row; the kept rows, with multiplicity, are among the data rows, so the header never contributes; every entry is the projection of some row at index 1 or above |
| Ranking.Top10IsTop | index.js:34-40 | the leaderboard is the true top ten: a data row left out exists only when there are ten entries, and it scores no more than the tenth |
| Ranking.Top10Stable | index.js:34-40 | for every score, the kept rows with that score are the first rows with that score in sheet order |
| Ranking.Project | index.js:42-45 | the map keeps the length and turns each kept row into its `{name, points}` entry, in order |
| Ranking.PointsOfDigits | index.js:35-36 | a row whose cell 1 holds the digits of n scores n |
| Ranking.PointsOfWord | index.js:35-36 | a row whose cell 1 starts with anything but white space, a sign, a digit or a point scores 0 (other than `Infinity`, see below) |
| Ranking.ScoreTen | index.js:35-36 | the row Alice "10" scores 10 |
| Ranking.ScoreTwentyFive | index.js:35-36 | the row Bob "25" scores 25 |
| Ranking.ScoreWord | index.js:35-36 | the row Cara "x" scores 0 |
| Ranking.ExampleScores | index.js:35-36 | the cells "10", "25" and "x" score 10, 25 and 0 |
| Ranking.ExampleOrder | index.js:33-40 | data rows scoring 10, 25, 0 are kept in the order 25, 10, 0 |
| Ranking.Example | index.js:30-46 | Name/Score header with Alice "10", Bob "25", Cara "x" ranks Bob 25, Alice 10, Cara 0 |
| SheetHandler.SourceName | index.js:56 | the `source` string is "cache" exactly for a cache hit and "google-sheets" (index.js:89) exactly for a fresh fetch |
| SheetHandler.HasRows | index.js:75 | the negation of `!rows \|\| rows.length === 0`: true exactly for a fetch that gave at least one row; no `values`, a thrown error and zero rows all give false |
| SheetHandler.Status | index.js:76-77 | the status code is 200 for a found sheet, 404 for no data, 500 for a fetch failure (index.js:96) |
| SheetHandler.Serve | index.js:49-101 | the spreadsheet is called exactly on a miss; the answer is 200 exactly on a hit or when the fetch gave rows; only that successful miss writes the cache, only under the event name, so no other key changes |
| SheetHandler.HitServesCache | index.js:53-61 | a hit answers 200 with source "cache", the stored fullData and top10, without fetching and without changing the cache |
| SheetHandler.MissWithoutRows | index.js:73-79 | a miss whose fetch has no `values` or zero rows answers 404 with "No data found for event sheet: " followed by the event, and leaves the cache unchanged |
| SheetHandler.MissWithFailure | index.js:94-100 | a miss whose fetch throws answers 500 with "Failed to fetch sheet data" and the error's message, and leaves the cache unchanged |
| SheetHandler.MissWithRows | index.js:82-93 | a miss whose fetch gives rows answers 200 with source "google-sheets", exactly the fetched rows and `computeTop10` of them, and stores `{fullData: rows, top10}` under the event; a header-only sheet gives an empty top10 and is still cached |
| SheetHandler.ServeKeepsConsistent | index.js:82-85 | every request keeps the cache invariant: each cached top10 is `computeTop10` of the non-empty rows cached beside it |
| SheetHandler.FoundIsRanked | index.js:53-61 | against a consistent cache, every 200, from cache or fresh, names the event and carries the leaderboard of the rows it carries |
| SheetHandler.MissThenHit | index.js:53-93 | right after a successful miss, a request for the same event is a hit with the same data and top10, fetches nothing and changes nothing |
| SheetHandler.EvictedIsMiss | index.js:21 | once an event's entry has expired and left the cache, the next request for it fetches again |
| SheetHandler.SheetCache.constructor | index.js:21 | the cache starts empty (and consistent) |
| SheetHandler.SheetCache.Get | index.js:53 | `cache.get` returns the stored entry exactly when the key is present |
| SheetHandler.SheetCache.Set | index.js:85 | `cache.set` replaces the entry under the key and touches no other key |
| SheetHandler.SheetCache.Evict | index.js:21 | expiry removes that key's entry and no other |
| SheetHandler.SheetCache.HandleSheet | index.js:49-101 | the handler's response, its fetch-or-not, and the new cache are exactly those of `Serve` on the old cache, and the cache invariant is kept |

## Left out

- Express setup, CORS, JSON middleware, dotenv, `app.listen`, `console` logging and the `GET /` route (index.js:1-14, index.js:24-26, index.js:104-108): framework plumbing, not logic.
- The googleapis client and its call (index.js:65-71): a foreign network call, modelled only by the `FetchResult` outcome it produces.
- Score.ParseFloat, Score.CellScore, Score.CellScoreOfWord, Ranking.Points, Ranking.PointsOfWord: the exact rational value of the decimal prefix, not the IEEE-754 double. Rounding is not modelled, so two long decimals that round to the same double rank as distinct scores here. Overflow to `Infinity` is not modelled, and neither is the literal `Infinity` (JavaScript reads `Infinity`, `+Infinity` and `-Infinity` as infinite numbers; `Score.ParseFloat` gives None for them, so `Score.CellScore` gives 0).
- The `bPoints - aPoints` comparator's float arithmetic: replaced by a comparison of exact scores, which orders the same way for finite scores.
- JSON serialisation of the response: a missing cell 0 gives `name: undefined`, which JSON omits. The model keeps it as `None`.
- `error.message` of a thrown value that is not an `Error` (it is then `undefined`): the model always has a message string.
- node-cache's clock, its 5-hour TTL arithmetic and its check period (index.js:21): time is not modelled. Expiry is the separate step `SheetCache.Evict`, taken whenever the environment decides.
- Concurrent requests for the same event during a miss, which can fetch twice: concurrency is not modelled. Each request runs to completion before the next starts.
- index.test.js: apart from `GET /` (index.test.js:6-10, the plumbing route left out above), every test targets an endpoint that index.js does not define. The import at index.test.js:3 also expects an export `server` that index.js:108 does not provide (it exports only `app`). So the tests say nothing about the modelled logic.
