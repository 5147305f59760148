/** The streak overview of the analytics pages. Responses are kept in a
    module-level cache keyed by request path that is written on every load and
    never invalidated; a 204 from either endpoint leaves the shown data as it was. */
module Overview {
  import opened JsValues

  const StreakPrefix := "/analytics/user-streak/"
  const ConsistencyPrefix := "/analytics/user-consistency/"

  /** The cache key, and the path requested, for the streak of a period ("weekly" or "monthly"). */
  function StreakKey(selected: string): (k: string)
    ensures StartsWith(k, StreakPrefix) && k[|StreakPrefix|..] == selected
  {
    StreakPrefix + selected
  }

  function ConsistencyKey(selected: string): (k: string)
    ensures StartsWith(k, ConsistencyPrefix) && k[|ConsistencyPrefix|..] == selected
  {
    ConsistencyPrefix + selected
  }

  /** The two kinds of key never collide, and each period has keys of its own. */
  lemma KeysDistinct(a: string, b: string)
    ensures StreakKey(a) != ConsistencyKey(b)
    ensures StreakKey(a) == StreakKey(b) <==> a == b
    ensures ConsistencyKey(a) == ConsistencyKey(b) <==> a == b
  {
    assert StreakKey(a)[16] == 's';
    assert ConsistencyKey(b)[16] == 'c';
    if StreakKey(a) == StreakKey(b) {
      assert a == StreakKey(a)[|StreakPrefix|..] == StreakKey(b)[|StreakPrefix|..] == b;
    }
    if ConsistencyKey(a) == ConsistencyKey(b) {
      assert a == ConsistencyKey(a)[|ConsistencyPrefix|..] == ConsistencyKey(b)[|ConsistencyPrefix|..] == b;
    }
  }

  /** `data.data` of a reply: the streak figures, the consistency percentage, or
      a body without the expected fields. */
  datatype Body =
    | StreakStats(currentStreak: int, currentStreakInterval: string, bestStreak: int, bestStreakInterval: string)
    | ConsistencyStats(percentage: real)
    | Malformed

  /** A cached axios response: its HTTP status and body. */
  datatype Response = Response(status: int, body: Body)

  /** `Number.prototype.toFixed(0)` on a non-negative number: the nearest
      integer, a tie going up. */
  function RoundHalfUp(x: real): (n: int)
    requires x >= 0.0
    ensures (n as real) - 0.5 <= x < (n as real) + 0.5
  {
    (x + 0.5).Floor
  }

  /** `toFixed(0)` on any number: the sign is taken off first, so a negative
      value rounds away from zero and may give "-0". */
  function Fixed0(x: real): (v: CardValue)
    ensures v.Fixed?
    ensures x >= 0.0 ==> !v.negative && v.magnitude as real - 0.5 <= x < v.magnitude as real + 0.5
    ensures x < 0.0 ==> v.negative && v.magnitude as real - 0.5 <= -x < v.magnitude as real + 0.5
  {
    if x < 0.0 then Fixed(true, RoundHalfUp(-x)) else Fixed(false, RoundHalfUp(x))
  }

  /** The value of an overview card: a number, or the string `toFixed`
      produces (its sign and digits). */
  datatype CardValue = Number(n: int) | Fixed(negative: bool, magnitude: nat)

  /** `value === 0 ? "-_-" : value`: only the number 0 shows the placeholder; a
      string "0" does not. */
  predicate ShowsPlaceholder(v: CardValue) {
    v == Number(0)
  }

  datatype Streak = Streak(days: int, interval: string)
  datatype OverviewData = OverviewData(currentStreak: Streak, bestStreak: Streak, consistency: CardValue)

  const InitialData := OverviewData(Streak(0, ""), Streak(0, ""), Number(0))

  /** What one run of `fetchData` leaves behind: the cache, the shown data, the
      paths requested in order, whether the failure toast was raised, and
      whether the queued `setData` updater throws. That updater runs outside the
      `try`, so its error never reaches the `catch`: no toast is raised and the
      component fails at its next render. */
  datatype LoadResult = LoadResult(cache: map<string, Response>, data: OverviewData, requested: seq<string>,
                                   failed: bool, renderFailed: bool)

  /** The data a pair of usable replies produces, or `None` when a body lacks the
      fields read (reading them throws). */
  function Extract(prev: OverviewData, streak: Response, consistency: Response): (r: Option<OverviewData>)
    ensures r.Some? <==> streak.body.StreakStats? && consistency.body.ConsistencyStats?
    ensures r.Some? ==>
      && r.value.currentStreak == Streak(streak.body.currentStreak, streak.body.currentStreakInterval)
      && r.value.bestStreak == Streak(streak.body.bestStreak, streak.body.bestStreakInterval)
      && r.value.consistency == Fixed0(consistency.body.percentage)
  {
    match (streak.body, consistency.body)
    case (StreakStats(c, ci, b, bi), ConsistencyStats(p)) =>
      Some(prev.(currentStreak := Streak(c, ci), bestStreak := Streak(b, bi), consistency := Fixed0(p)))
    case _ => None
  }

  /** One run of `fetchData` for `selected`. An uncached key is requested, with
      `streakFetch` / `consistencyFetch` as the outcome of that request; a cached
      key is read from the cache. Both keys are written only after both replies
      are in. */
  function Load(cache: map<string, Response>, prev: OverviewData, selected: string,
                streakFetch: Fetched<Response>, consistencyFetch: Fetched<Response>): LoadResult
  {
    var sk, ck := StreakKey(selected), ConsistencyKey(selected);
    var streakReq := if sk in cache then [] else [sk];
    var streak := if sk in cache then Returned(cache[sk]) else streakFetch;
    if streak.Threw? then LoadResult(cache, prev, streakReq, true, false)
    else
      var consistencyReq := if ck in cache then [] else [ck];
      var consistency := if ck in cache then Returned(cache[ck]) else consistencyFetch;
      if consistency.Threw? then LoadResult(cache, prev, streakReq + consistencyReq, true, false)
      else
        var cache' := cache[sk := streak.result][ck := consistency.result];
        var requested := streakReq + consistencyReq;
        if streak.result.status == 204 || consistency.result.status == 204 then
          LoadResult(cache', prev, requested, false, false)
        else
          match Extract(prev, streak.result, consistency.result)
          case None => LoadResult(cache', prev, requested, false, true)
          case Some(data) => LoadResult(cache', data, requested, false, false)
  }

  /** A key that is already cached is never requested again. */
  lemma CachedNeverRefetched(cache: map<string, Response>, prev: OverviewData, selected: string,
                             streakFetch: Fetched<Response>, consistencyFetch: Fetched<Response>)
    ensures var r := Load(cache, prev, selected, streakFetch, consistencyFetch);
      && (StreakKey(selected) in cache ==> StreakKey(selected) !in r.requested)
      && (ConsistencyKey(selected) in cache ==> ConsistencyKey(selected) !in r.requested)
      && (forall k :: k in r.requested ==> k !in cache)
  {
    KeysDistinct(selected, selected);
  }

  /** Entries are never removed and never change once written. */
  lemma EntriesPersist(cache: map<string, Response>, prev: OverviewData, selected: string,
                       streakFetch: Fetched<Response>, consistencyFetch: Fetched<Response>)
    ensures var r := Load(cache, prev, selected, streakFetch, consistencyFetch);
      forall k :: k in cache ==> k in r.cache && r.cache[k] == cache[k]
  {
  }

  /** Both keys end up cached exactly when no request that was made threw; a
      request that throws leaves the whole cache as it was. */
  lemma BothKeysCached(cache: map<string, Response>, prev: OverviewData, selected: string,
                       streakFetch: Fetched<Response>, consistencyFetch: Fetched<Response>)
    ensures var r := Load(cache, prev, selected, streakFetch, consistencyFetch);
      var threw := (StreakKey(selected) !in cache && streakFetch.Threw?)
                || (ConsistencyKey(selected) !in cache && consistencyFetch.Threw?);
      && (!threw <==> StreakKey(selected) in r.cache && ConsistencyKey(selected) in r.cache)
      && (threw ==> r.cache == cache && r.data == prev && r.failed)
  {
  }

  /** The toast is raised exactly when a request that was made threw. A body
      without the fields read is not caught: it raises no toast, keeps the cards
      and fails the render, and only after both replies are in and neither is a
      204. */
  lemma ToastIffThrew(cache: map<string, Response>, prev: OverviewData, selected: string,
                      streakFetch: Fetched<Response>, consistencyFetch: Fetched<Response>)
    ensures var r := Load(cache, prev, selected, streakFetch, consistencyFetch);
      var threw := (StreakKey(selected) !in cache && streakFetch.Threw?)
                || (ConsistencyKey(selected) !in cache && consistencyFetch.Threw?);
      var sk, ck := StreakKey(selected), ConsistencyKey(selected);
      && (r.failed <==> threw)
      && (r.renderFailed <==>
            && !threw && r.cache[sk].status != 204 && r.cache[ck].status != 204
            && !(r.cache[sk].body.StreakStats? && r.cache[ck].body.ConsistencyStats?))
      && (r.renderFailed ==> r.data == prev && !r.failed)
  {
    KeysDistinct(selected, selected);
  }

  /** After a load with no thrown request, the next load for the same period
      requests nothing and gives the same cache and data, whatever a request would
      have returned. */
  lemma SecondLoadFromCache(cache: map<string, Response>, prev: OverviewData, selected: string,
                            streakFetch: Fetched<Response>, consistencyFetch: Fetched<Response>,
                            streakFetch2: Fetched<Response>, consistencyFetch2: Fetched<Response>)
    requires !(StreakKey(selected) !in cache && streakFetch.Threw?)
    requires !(ConsistencyKey(selected) !in cache && consistencyFetch.Threw?)
    ensures var r := Load(cache, prev, selected, streakFetch, consistencyFetch);
      var r2 := Load(r.cache, r.data, selected, streakFetch2, consistencyFetch2);
      r2.requested == [] && r2.cache == r.cache && r2.data == r.data
  {
    KeysDistinct(selected, selected);
  }

  /** A cached 204 for either key keeps the shown data unchanged on every later load. */
  lemma NoContentIsSticky(cache: map<string, Response>, prev: OverviewData, selected: string,
                          streakFetch: Fetched<Response>, consistencyFetch: Fetched<Response>)
    requires (StreakKey(selected) in cache && cache[StreakKey(selected)].status == 204)
          || (ConsistencyKey(selected) in cache && cache[ConsistencyKey(selected)].status == 204)
    ensures Load(cache, prev, selected, streakFetch, consistencyFetch).data == prev
  {
  }

  /** With neither key cached and two usable replies of any status but 204, both
      keys are requested and cached with the replies, and the shown data is the
      streak figures and the rounded consistency, which is a string and never the
      placeholder, even for 0%. */
  lemma SuccessfulLoad(cache: map<string, Response>, prev: OverviewData, selected: string,
                       streak: Response, consistency: Response)
    requires StreakKey(selected) !in cache && ConsistencyKey(selected) !in cache
    requires streak.status != 204 && consistency.status != 204
    requires streak.body.StreakStats? && consistency.body.ConsistencyStats?
    ensures var r := Load(cache, prev, selected, Returned(streak), Returned(consistency));
      && !r.failed && !r.renderFailed
      && r.requested == [StreakKey(selected), ConsistencyKey(selected)]
      && r.cache == cache[StreakKey(selected) := streak][ConsistencyKey(selected) := consistency]
      && r.data.currentStreak.days == streak.body.currentStreak
      && r.data.currentStreak.interval == streak.body.currentStreakInterval
      && r.data.bestStreak.days == streak.body.bestStreak
      && r.data.bestStreak.interval == streak.body.bestStreakInterval
      && r.data.consistency == Fixed0(consistency.body.percentage)
      && !ShowsPlaceholder(r.data.consistency)
  {
    KeysDistinct(selected, selected);
  }

  /** The module-level cache object, shared by every mounted overview. */
  class ResponseCache {
    var entries: map<string, Response>

    constructor ()
      ensures entries == map[]
    {
      entries := map[];
    }
  }

  class OverviewPanel {
    var loading: bool
    var data: OverviewData

    constructor ()
      ensures loading && data == InitialData
    {
      loading, data := true, InitialData;
    }

    /** `fetchData`, step by step: read or request each key, write both, stop on
        a 204, otherwise copy the figures. `requested` lists the paths requested. */
    method FetchData(cache: ResponseCache, selected: string,
                     streakFetch: Fetched<Response>, consistencyFetch: Fetched<Response>)
      returns (requested: seq<string>, failed: bool, renderFailed: bool)
      modifies this, cache
      ensures var r := Load(old(cache.entries), old(data), selected, streakFetch, consistencyFetch);
        && cache.entries == r.cache && data == r.data && requested == r.requested
        && failed == r.failed && renderFailed == r.renderFailed
      ensures !loading
    {
      loading := true;
      requested, failed, renderFailed := [], false, false;
      var sk, ck := StreakKey(selected), ConsistencyKey(selected);
      var streakData: Response;
      if sk in cache.entries {
        streakData := cache.entries[sk];
      } else {
        requested := requested + [sk];
        if streakFetch.Threw? {
          failed, loading := true, false;
          return;
        }
        streakData := streakFetch.result;
      }
      var consistencyData: Response;
      if ck in cache.entries {
        consistencyData := cache.entries[ck];
      } else {
        requested := requested + [ck];
        if consistencyFetch.Threw? {
          failed, loading := true, false;
          return;
        }
        consistencyData := consistencyFetch.result;
      }
      cache.entries := cache.entries[sk := streakData];
      cache.entries := cache.entries[ck := consistencyData];
      if streakData.status == 204 || consistencyData.status == 204 {
        loading := false;
        return;
      }
      var extracted := Extract(data, streakData, consistencyData);
      if extracted.None? {
        renderFailed := true;
      } else {
        data := extracted.value;
      }
      loading := false;
    }
  }
}
