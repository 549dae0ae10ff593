/**
 * The `/sheet/:eventname` route (index.js:49-101) and the process-wide cache it
 * shares across requests (index.js:21).
 *
 * A request first looks the event name up in the cache. On a hit it answers
 * from the cache and calls nothing else. On a miss it consults the spreadsheet
 * once: no rows gives 404, a thrown error gives 500, and rows give 200 after
 * the rows and their leaderboard are stored under the event name.
 *
 * The spreadsheet call is a foreign network call: the model takes its one
 * outcome as the input `fetch`, which a request reads only on a miss.
 */
module SheetHandler {
  import opened Wrappers
  import opened Ranking

  /** What the cache keeps per event: `{fullData, top10}` (index.js:85). */
  datatype CacheEntry = CacheEntry(fullData: Sheet, top10: seq<RankedEntry>)

  /**
   * The outcome of fetching the sheet named after the event: its rows
   * (`response.data.values`), no `values` at all, or a thrown error with its message.
   */
  datatype FetchResult = Rows(rows: Sheet) | NoRows | Failure(message: string)

  /** Where a 200 response got its data. */
  datatype Source = Cache | GoogleSheets

  /** The `source` string a 200 response carries. */
  function SourceName(s: Source): (name: string)
    ensures name == "cache" <==> s == Cache
    ensures name == "google-sheets" <==> s == GoogleSheets
  {
    match s
    case Cache => "cache"
    case GoogleSheets => "google-sheets"
  }

  /** The JSON body the route answers with; its status code is `Status`. */
  datatype Response =
    | Found(source: Source, event: string, data: Sheet, top10: seq<RankedEntry>)
    | NotFound(error: string)
    | FetchFailed(error: string, details: string)

  function Status(r: Response): (code: nat)
    ensures code == 200 <==> r.Found?
    ensures code == 404 <==> r.NotFound?
    ensures code == 500 <==> r.FetchFailed?
  {
    match r
    case Found(_, _, _, _) => 200
    case NotFound(_) => 404
    case FetchFailed(_, _) => 500
  }

  const NotFoundPrefix: string := "No data found for event sheet: "
  const FetchFailedError: string := "Failed to fetch sheet data"

  /** True when the fetch gave at least one row (`rows && rows.length !== 0`). */
  predicate HasRows(fetch: FetchResult): (b: bool)
    ensures b ==> fetch.Rows? && |fetch.rows| >= 1
    ensures fetch.Rows? && fetch.rows != [] ==> b
    ensures fetch.NoRows? || fetch.Failure? || fetch == Rows([]) ==> !b
  {
    fetch.Rows? && |fetch.rows| > 0
  }

  /** What one request leaves behind: its response, the cache after it, and whether it fetched. */
  datatype Outcome = Outcome(response: Response, cache: map<string, CacheEntry>, fetched: bool)

  /** Every cached leaderboard is the ranking of the rows cached beside it, and those rows are not empty. */
  ghost predicate Consistent(cache: map<string, CacheEntry>) {
    forall e :: e in cache ==> cache[e].fullData != [] && cache[e].top10 == ComputeTop10(cache[e].fullData)
  }

  /** One request for `event` against `cache`; `fetch` is what the spreadsheet would answer. */
  function Serve(cache: map<string, CacheEntry>, event: string, fetch: FetchResult): (o: Outcome)
    ensures o.fetched <==> event !in cache
    ensures Status(o.response) == 200 <==> event in cache || HasRows(fetch)
    // only a successful fetch writes the cache, and only under `event`
    ensures o.cache != cache ==> !(event in cache) && HasRows(fetch)
    ensures o.cache.Keys == cache.Keys + (if o.fetched && HasRows(fetch) then {event} else {})
    ensures forall e :: e in cache && e != event ==> o.cache[e] == cache[e]
  {
    if event in cache then
      Outcome(Found(Cache, event, cache[event].fullData, cache[event].top10), cache, false)
    else
      match fetch
      case Failure(message) => Outcome(FetchFailed(FetchFailedError, message), cache, true)
      case NoRows => Outcome(NotFound(NotFoundPrefix + event), cache, true)
      case Rows(rows) =>
        if |rows| == 0 then Outcome(NotFound(NotFoundPrefix + event), cache, true)
        else
          var top10 := ComputeTop10(rows);
          Outcome(Found(GoogleSheets, event, rows, top10), cache[event := CacheEntry(rows, top10)], true)
  }

  // ---------------------------------------------------------------------------
  // Properties of a request

  /** A hit answers 200 from the cache with what is stored, fetches nothing and changes nothing. */
  lemma HitServesCache(cache: map<string, CacheEntry>, event: string, fetch: FetchResult)
    requires event in cache
    ensures var o := Serve(cache, event, fetch);
      && o.response == Found(Cache, event, cache[event].fullData, cache[event].top10)
      && SourceName(o.response.source) == "cache"
      && o.cache == cache && !o.fetched
  {
  }

  /** A miss whose fetch gives no rows (absent or empty) answers 404 naming the event, and leaves the cache alone. */
  lemma MissWithoutRows(cache: map<string, CacheEntry>, event: string, fetch: FetchResult)
    requires event !in cache
    requires fetch.NoRows? || (fetch.Rows? && fetch.rows == [])
    ensures var o := Serve(cache, event, fetch);
      o.response == NotFound(NotFoundPrefix + event) && o.cache == cache && o.fetched
  {
  }

  /** A miss whose fetch throws answers 500 with the error's message, and leaves the cache alone. */
  lemma MissWithFailure(cache: map<string, CacheEntry>, event: string, message: string)
    requires event !in cache
    ensures var o := Serve(cache, event, Failure(message));
      o.response == FetchFailed(FetchFailedError, message) && o.cache == cache && o.fetched
  {
  }

  /**
   * A miss whose fetch gives rows answers 200 with exactly those rows and their
   * leaderboard, and stores both under the event; a header-only sheet too,
   * with an empty leaderboard.
   */
  lemma MissWithRows(cache: map<string, CacheEntry>, event: string, rows: Sheet)
    requires event !in cache && rows != []
    ensures var o := Serve(cache, event, Rows(rows));
      && o.response == Found(GoogleSheets, event, rows, ComputeTop10(rows))
      && SourceName(o.response.source) == "google-sheets"
      && o.cache == cache[event := CacheEntry(rows, ComputeTop10(rows))]
      && (|rows| == 1 ==> o.response.top10 == [])
  {
  }

  /** A request keeps every cached leaderboard the ranking of its cached rows. */
  lemma ServeKeepsConsistent(cache: map<string, CacheEntry>, event: string, fetch: FetchResult)
    requires Consistent(cache)
    ensures Consistent(Serve(cache, event, fetch).cache)
  {
    var o := Serve(cache, event, fetch);
    forall e | e in o.cache ensures o.cache[e].fullData != [] && o.cache[e].top10 == ComputeTop10(o.cache[e].fullData) {
      if e !in cache {
        assert e == event && HasRows(fetch);
        assert o.cache[e] == CacheEntry(fetch.rows, ComputeTop10(fetch.rows));
      } else {
        assert o.cache[e] == cache[e];
      }
    }
  }

  /** Against a consistent cache, every 200 carries the leaderboard of the rows it carries, and names the event. */
  lemma FoundIsRanked(cache: map<string, CacheEntry>, event: string, fetch: FetchResult)
    requires Consistent(cache)
    ensures var r := Serve(cache, event, fetch).response;
      r.Found? ==> r.event == event && r.data != [] && r.top10 == ComputeTop10(r.data)
  {
  }

  /** Cache round trip: right after a successful miss, a request for the same event is a hit with the same data and leaderboard. */
  lemma MissThenHit(cache: map<string, CacheEntry>, event: string, fetch: FetchResult, later: FetchResult)
    requires event !in cache && HasRows(fetch)
    ensures var first := Serve(cache, event, fetch);
      var second := Serve(first.cache, event, later);
      && second.response.Found? && second.response.source == Cache && !second.fetched
      && second.response.data == first.response.data
      && second.response.top10 == first.response.top10
      && second.cache == first.cache
  {
  }

  /** Once an event's entry has expired and gone, the next request for it is a miss again. */
  lemma EvictedIsMiss(cache: map<string, CacheEntry>, event: string, fetch: FetchResult)
    ensures Serve(cache - {event}, event, fetch).fetched
  {
  }

  // ---------------------------------------------------------------------------
  // The shared cache

  /**
   * The `NodeCache` every request shares (index.js:21), holding the entries
   * that have not expired. Time is not modelled: an entry whose five-hour TTL
   * has run out leaves the map through `Evict`.
   */
  class SheetCache {
    var entries: map<string, CacheEntry>

    ghost predicate Valid()
      reads this
    {
      Consistent(entries)
    }

    constructor ()
      ensures Valid() && entries == map[]
    {
      entries := map[];
    }

    /** `cache.get(event)`. */
    method Get(event: string) returns (cached: Option<CacheEntry>)
      ensures cached.Some? <==> event in entries
      ensures cached.Some? ==> cached.value == entries[event]
    {
      cached := if event in entries then Some(entries[event]) else None;
    }

    /** `cache.set(event, entry)`: replaces whatever was stored under `event`. */
    method Set(event: string, entry: CacheEntry)
      requires Valid()
      requires entry.fullData != [] && entry.top10 == ComputeTop10(entry.fullData)
      modifies this
      ensures Valid()
      ensures entries == old(entries)[event := entry]
    {
      entries := entries[event := entry];
    }

    /** The expiry of `event`'s entry once its TTL has run out. */
    method Evict(event: string)
      requires Valid()
      modifies this
      ensures Valid()
      ensures entries == old(entries) - {event}
    {
      entries := entries - {event};
    }

    /** The `/sheet/:eventname` handler for `event`; `fetched` tells whether it called the spreadsheet. */
    method HandleSheet(event: string, fetch: FetchResult) returns (response: Response, fetched: bool)
      requires Valid()
      modifies this
      ensures Valid()
      ensures Outcome(response, entries, fetched) == Serve(old(entries), event, fetch)
    {
      var cached := Get(event);
      if cached.Some? {
        return Found(Cache, event, cached.value.fullData, cached.value.top10), false;
      }
      fetched := true;
      match fetch {
        case Failure(message) =>
          response := FetchFailed(FetchFailedError, message);
        case NoRows =>
          response := NotFound(NotFoundPrefix + event);
        case Rows(rows) =>
          if |rows| == 0 {
            response := NotFound(NotFoundPrefix + event);
          } else {
            var top10 := ComputeTop10(rows);
            Set(event, CacheEntry(rows, top10));
            response := Found(GoogleSheets, event, rows, top10);
          }
      }
    }
  }
}
