/** The cache of token verification keys. Callers overlap: each step is what one of them does while it holds the
    mutex. */
module KeyCache {
  import opened Prelude

  type Time = int
  type Keys = set<string>

  datatype Config = Config(refreshInterval: int, cacheTTL: int, threshold: int, cooldown: int)
  {
    predicate Valid() {
      refreshInterval > 0 && cacheTTL > 0 && threshold >= 1 && cooldown > 0
    }
  }

  /** `nextFetch` and `openUntil` are None where the source has a zero time. */
  datatype Cache = Cache(
    keys: Option<Keys>, expires: Time, nextFetch: Option<Time>, openUntil: Option<Time>,
    failures: nat, lastFailed: bool, inFlight: bool)

  const EMPTY_CACHE := Cache(None, 0, None, None, 0, false, false)

  /** What a caller that takes the lock finds. */
  datatype Found = Serve(keys: Keys) | Unavailable | Wait | Fetch

  predicate Fresh(c: Cache, now: Time) {
    c.keys.Some? && now < c.expires
  }

  predicate Throttled(c: Cache, now: Time) {
    (c.nextFetch.Some? && now < c.nextFetch.value) || (c.openUntil.Some? && now < c.openUntil.value)
  }

  function Look(c: Cache, kid: string, now: Time): (f: Found) {
    if Fresh(c, now) && (kid == "" || kid in c.keys.value) then Serve(c.keys.value)
    else if c.inFlight then Wait
    else if Throttled(c, now) then
      if Fresh(c, now) && !c.lastFailed then Serve(c.keys.value) else Unavailable
    else Fetch
  }

  /** The cache after a fetch came back: with keys, or with an error. */
  function Publish(cfg: Config, c: Cache, fetched: Option<Keys>, now: Time): (c': Cache) {
    var next := c.(nextFetch := Some(now + cfg.refreshInterval), lastFailed := fetched.None?, inFlight := false);
    if fetched.Some? then next.(keys := fetched, expires := now + cfg.cacheTTL, failures := 0, openUntil := None)
    else
      next.(failures := c.failures + 1,
            openUntil := if c.failures + 1 >= cfg.threshold then Some(now + cfg.cooldown) else c.openUntil)
  }

  datatype Stats = Stats(cacheHits: nat, throttled: nat)

  class KeyCache {
    const cfg: Config
    var keys: Option<Keys>
    var expires: Time
    var nextFetch: Option<Time>
    var openUntil: Option<Time>
    var failures: nat
    var lastFailed: bool
    var inFlight: bool
    var stats: Stats

    ghost function Value(): (c: Cache)
      reads this
    {
      Cache(keys, expires, nextFetch, openUntil, failures, lastFailed, inFlight)
    }

    constructor (cfg: Config)
      ensures this.cfg == cfg && Value() == EMPTY_CACHE && stats == Stats(0, 0)
    {
      this.cfg := cfg;
      keys, expires, nextFetch, openUntil, failures, lastFailed, inFlight, stats := None, 0, None, None, 0, false,
        false, Stats(0, 0);
    }

    /** What a caller does with the lock before it may have to fetch. */
    method Enter(kid: string, now: Time) returns (f: Found)
      modifies this
      ensures f == Look(old(Value()), kid, now)
      ensures Value() == old(Value()).(inFlight := old(inFlight) || f == Fetch)
      ensures f.Serve? ==> old(keys) == Some(f.keys) && now < old(expires)
      ensures var hit := old(keys).Some? && now < old(expires) && (kid == "" || kid in old(keys).value);
        && stats.cacheHits == old(stats).cacheHits + (if hit then 1 else 0)
        && stats.throttled == old(stats).throttled + if !hit && (f.Serve? || f.Unavailable?) then 1 else 0
    {
      var isFresh := keys.Some? && now < expires;
      var found := kid == "";
      if isFresh && kid != "" {
        found := kid in keys.value;
      }
      if isFresh && found {
        stats := stats.(cacheHits := stats.cacheHits + 1);
        return Serve(keys.value);
      }
      if inFlight {
        return Wait;
      }
      if (nextFetch.Some? && now < nextFetch.value) || (openUntil.Some? && now < openUntil.value) {
        stats := stats.(throttled := stats.throttled + 1);
        if isFresh && !lastFailed {
          return Serve(keys.value);
        }
        return Unavailable;
      }
      inFlight := true;
      f := Fetch;
    }

    /** What the caller that fetched does when the answer is there. */
    method Leave(fetched: Option<Keys>, now: Time)
      modifies this
      ensures Value() == Publish(cfg, old(Value()), fetched, now) && stats == old(stats)
    {
      nextFetch := Some(now + cfg.refreshInterval);
      lastFailed := fetched.None?;
      if fetched.None? {
        failures := failures + 1;
        if failures >= cfg.threshold {
          openUntil := Some(now + cfg.cooldown);
        }
      } else {
        keys, expires := fetched, now + cfg.cacheTTL;
        failures := 0;
        openUntil := None;
      }
      inFlight := false;
    }
  }

  // ---------------------------------------------------------------- overlapping callers

  /** A fetch from its start to its end, and what it brought. */
  datatype Fetched = Fetched(start: Time, end: Time, keys: Option<Keys>, failuresAfter: nat)

  /** A set handed out, with the expiry it had. */
  datatype Handed = Handed(keys: Keys, at: Time, expires: Time)

  /** The cache, the callers that are fetching since when, the fetches that ended and what was handed out. */
  datatype Callers = Callers(cache: Cache, fetching: map<nat, Time>, ended: seq<Fetched>, handed: seq<Handed>)

  datatype Step =
    | Ask(caller: nat, kid: string, now: Time)
    | Answer(caller: nat, fetched: Option<Keys>, now: Time)

  function Do(cfg: Config, w: Callers, s: Step): (w': Callers) {
    match s
    case Ask(caller, kid, now) =>
      if caller in w.fetching then w
      else
        (match Look(w.cache, kid, now)
         case Serve(keys) => w.(handed := w.handed + [Handed(keys, now, w.cache.expires)])
         case Fetch => w.(cache := w.cache.(inFlight := true), fetching := w.fetching[caller := now])
         case _ => w)
    case Answer(caller, fetched, now) =>
      if caller !in w.fetching then w
      else
        var c := Publish(cfg, w.cache, fetched, now);
        Callers(c, w.fetching - {caller}, w.ended + [Fetched(w.fetching[caller], now, fetched, c.failures)],
                if fetched.Some? then w.handed + [Handed(fetched.value, now, c.expires)] else w.handed)
  }

  function Run(cfg: Config, steps: seq<Step>): (w: Callers) {
    if steps == [] then Callers(EMPTY_CACHE, map[], [], [])
    else Do(cfg, Run(cfg, steps[..|steps| - 1]), steps[|steps| - 1])
  }

  /** The flag is set exactly while one caller fetches. */
  ghost predicate OneFetch(w: Callers) {
    && (w.cache.inFlight <==> w.fetching != map[])
    && (forall a, b :: a in w.fetching && b in w.fetching ==> a == b)
  }

  /** Nothing expired is ever handed out. */
  ghost predicate HandedFresh(w: Callers) {
    forall i :: 0 <= i < |w.handed| ==> w.handed[i].at < w.handed[i].expires
  }

  ghost predicate Safe(w: Callers) {
    OneFetch(w) && HandedFresh(w)
  }

  lemma StepIsSafe(cfg: Config, w: Callers, s: Step)
    requires cfg.Valid() && Safe(w)
    ensures Safe(Do(cfg, w, s))
  {
    var w' := Do(cfg, w, s);
    if s.Answer? && s.caller in w.fetching {
      assert w'.fetching == map[];
    }
    if s.Ask? && s.caller !in w.fetching && Look(w.cache, s.kid, s.now) == Fetch {
      assert s.caller in w'.fetching;
    }
  }

  /** After any interleaving of callers, at most one fetch is in flight and no caller was handed an expired set. */
  lemma {:induction false} SafeInRuns(cfg: Config, steps: seq<Step>)
    requires cfg.Valid()
    ensures Safe(Run(cfg, steps))
  {
    hide Do, Safe;
    if steps == [] {
      assert Safe(Callers(EMPTY_CACHE, map[], [], [])) by { NobodyYet(); }
    } else {
      SafeInRuns(cfg, steps[..|steps| - 1]);
      StepIsSafe(cfg, Run(cfg, steps[..|steps| - 1]), steps[|steps| - 1]);
    }
  }

  lemma NobodyYet()
    ensures Safe(Callers(EMPTY_CACHE, map[], [], []))
  {
  }

  // ---------------------------------------------------------------- spacing

  /** The clock never goes back. */
  ghost predicate Monotone(steps: seq<Step>) {
    forall i, j :: 0 <= i < j < |steps| ==> steps[i].now <= steps[j].now
  }

  /** A fetch may start only this long after the one before it ended. */
  predicate Apart(cfg: Config, before: Fetched, start: Time) {
    && start >= before.end + cfg.refreshInterval
    && (before.failuresAfter >= cfg.threshold ==> start >= before.end + cfg.cooldown)
  }

  ghost predicate Spaced(cfg: Config, w: Callers) {
    && (forall i :: 0 <= i < |w.ended| ==> w.ended[i].start <= w.ended[i].end)
    && (forall i :: 0 <= i < |w.ended| - 1 ==> Apart(cfg, w.ended[i], w.ended[i + 1].start))
    && (forall a :: a in w.fetching && w.ended != [] ==> Apart(cfg, w.ended[|w.ended| - 1], w.fetching[a]))
  }

  /** What the cache remembers of the last fetch. */
  ghost predicate Remembers(cfg: Config, w: Callers, clock: Time) {
    && (forall a :: a in w.fetching ==> w.fetching[a] <= clock)
    && (w.ended == [] ==> w.cache.failures == 0 && w.cache.openUntil.None?)
    && (w.ended != [] ==>
          var last := w.ended[|w.ended| - 1];
          && w.cache.nextFetch == Some(last.end + cfg.refreshInterval) && w.cache.failures == last.failuresAfter
          && (last.failuresAfter >= cfg.threshold ==> w.cache.openUntil == Some(last.end + cfg.cooldown)))
  }

  lemma StepIsSpaced(cfg: Config, w: Callers, s: Step, clock: Time)
    requires cfg.Valid() && OneFetch(w) && Spaced(cfg, w) && Remembers(cfg, w, clock) && clock <= s.now
    ensures Spaced(cfg, Do(cfg, w, s)) && Remembers(cfg, Do(cfg, w, s), s.now)
  {
    var w' := Do(cfg, w, s);
    if s.Answer? && s.caller in w.fetching {
      var n := |w.ended|;
      assert forall i :: 0 <= i < n ==> w'.ended[i] == w.ended[i];
      assert w'.fetching == map[];
    }
  }

  lemma {:induction false} SpacedInRuns(cfg: Config, steps: seq<Step>, clock: Time)
    requires cfg.Valid() && Monotone(steps) && forall i :: 0 <= i < |steps| ==> steps[i].now <= clock
    ensures Spaced(cfg, Run(cfg, steps)) && Remembers(cfg, Run(cfg, steps), clock)
    decreases |steps|
  {
    hide Do, Spaced, OneFetch, HandedFresh;
    if steps == [] {
      NoFetches(cfg, clock);
    } else {
      var n := |steps| - 1;
      SpacedInRuns(cfg, steps[..n], steps[n].now);
      SafeInRuns(cfg, steps[..n]);
      StepIsSpaced(cfg, Run(cfg, steps[..n]), steps[n], steps[n].now);
    }
  }

  lemma NoFetches(cfg: Config, clock: Time)
    ensures var w := Callers(EMPTY_CACHE, map[], [], []); Spaced(cfg, w) && Remembers(cfg, w, clock)
  {
  }

  /** When fetches started, oldest first; the one in flight last. */
  ghost function Starts(w: Callers): (ts: seq<Time>) {
    seq(|w.ended|, i requires 0 <= i < |w.ended| => w.ended[i].start)
      + if w.fetching != map[] then (var a :| a in w.fetching; [w.fetching[a]]) else []
  }

  lemma StartsApart(cfg: Config, w: Callers, i: nat)
    requires cfg.Valid() && OneFetch(w) && Spaced(cfg, w) && i + 1 < |Starts(w)|
    ensures Starts(w)[i + 1] >= Starts(w)[i] + cfg.refreshInterval
  {
  }

  lemma {:induction false} StartsFarApart(cfg: Config, w: Callers, i: nat, j: nat)
    requires cfg.Valid() && OneFetch(w) && Spaced(cfg, w) && i <= j < |Starts(w)|
    ensures Starts(w)[j] >= Starts(w)[i] + (j - i) * cfg.refreshInterval
    decreases j - i
  {
    hide Starts, OneFetch, Spaced;
    if i < j {
      StartsFarApart(cfg, w, i, j - 1);
      StartsApart(cfg, w, j - 1);
    }
  }

  /** Any fetches i..j that start within a window of length W number at most W / RefreshInterval + 1. */
  ghost predicate FewStarts(cfg: Config, w: Callers)
    requires cfg.Valid()
  {
    forall i, j, from, window :: 0 <= i <= j < |Starts(w)| && InWindow(w, i, j, from, window) && window >= 0 ==>
      (j - i + 1) <= window / cfg.refreshInterval + 1
  }

  ghost predicate InWindow(w: Callers, i: nat, j: nat, from: Time, window: int)
    requires i < |Starts(w)| && j < |Starts(w)|
  {
    from <= Starts(w)[i] && Starts(w)[j] <= from + window
  }

  lemma SmallerFactor(a: int, b: int, k: int)
    requires k > 0 && a * k < b * k
    ensures a < b
  {
    assert (b - a) * k > 0;
  }

  lemma DivideWindow(n: nat, interval: int, window: int)
    requires interval > 0 && n * interval <= window
    ensures n <= window / interval
  {
    var q := window / interval;
    assert window < q * interval + interval;
    assert n * interval < (q + 1) * interval;
    SmallerFactor(n, q + 1, interval);
  }

  /** Under a clock that never goes back, after any interleaving: fetches keep their distance, also the longer one once
      failures reach the threshold, so no window holds more than its share of them. */
  lemma FetchesAreRare(cfg: Config, steps: seq<Step>)
    requires cfg.Valid() && Monotone(steps)
    ensures Spaced(cfg, Run(cfg, steps)) && FewStarts(cfg, Run(cfg, steps))
  {
    hide Run, Starts, Spaced, OneFetch, HandedFresh, Remembers;
    var clock := if steps == [] then 0 else steps[|steps| - 1].now;
    SpacedInRuns(cfg, steps, clock);
    SafeInRuns(cfg, steps);
    var w := Run(cfg, steps);
    forall i, j, from, window | 0 <= i <= j < |Starts(w)| && InWindow(w, i, j, from, window) && window >= 0
      ensures (j - i + 1) <= window / cfg.refreshInterval + 1
    {
      StartsFarApart(cfg, w, i, j);
      DivideWindow(j - i, cfg.refreshInterval, window);
    }
  }

  // ---------------------------------------------------------------- what a caller gets, by what was fetched

  /** The last fetch that brought keys. */
  function LastGood(ended: seq<Fetched>): (f: Option<Fetched>) {
    if ended == [] then None
    else if ended[|ended| - 1].keys.Some? then Some(ended[|ended| - 1])
    else LastGood(ended[..|ended| - 1])
  }

  /** The failures since then. */
  function Failed(ended: seq<Fetched>): (n: nat) {
    if ended == [] || ended[|ended| - 1].keys.Some? then 0 else Failed(ended[..|ended| - 1]) + 1
  }

  /** The cache holds the last keys fetched until they are a TTL old, and knows the last fetch's end and the
      failures. */
  ghost predicate Knows(cfg: Config, w: Callers) {
    var good, c := LastGood(w.ended), w.cache;
    && (if good.None? then c.keys.None? else c.keys == good.value.keys && c.expires == good.value.end + cfg.cacheTTL)
    && c.failures == Failed(w.ended)
    && if w.ended == [] then c.nextFetch.None? && c.openUntil.None? && !c.lastFailed
       else
         var last := w.ended[|w.ended| - 1];
         && c.lastFailed == last.keys.None? && c.nextFetch == Some(last.end + cfg.refreshInterval)
         && c.openUntil == if Failed(w.ended) >= cfg.threshold then Some(last.end + cfg.cooldown) else None
  }

  lemma HistoryGrows(ended: seq<Fetched>, f: Fetched)
    ensures LastGood(ended + [f]) == if f.keys.Some? then Some(f) else LastGood(ended)
    ensures Failed(ended + [f]) == if f.keys.Some? then 0 else Failed(ended) + 1
  {
    assert (ended + [f])[..|ended|] == ended;
  }

  lemma StepKnows(cfg: Config, w: Callers, s: Step)
    requires cfg.Valid() && Knows(cfg, w)
    ensures Knows(cfg, Do(cfg, w, s))
  {
    if s.Answer? && s.caller in w.fetching {
      var w' := Do(cfg, w, s);
      HistoryGrows(w.ended, w'.ended[|w.ended|]);
    }
    hide LastGood, Failed;
  }

  lemma {:induction false} KnowsInRuns(cfg: Config, steps: seq<Step>)
    requires cfg.Valid()
    ensures Knows(cfg, Run(cfg, steps))
  {
    hide Do;
    if steps != [] {
      KnowsInRuns(cfg, steps[..|steps| - 1]);
      StepKnows(cfg, Run(cfg, steps[..|steps| - 1]), steps[|steps| - 1]);
    }
  }

  /** The last keys fetched are not a TTL old. */
  ghost predicate StillGood(cfg: Config, w: Callers, now: Time) {
    LastGood(w.ended).Some? && now < LastGood(w.ended).value.end + cfg.cacheTTL
  }

  /** It is too soon to fetch again: within the refresh interval, or within the cool-down of too many failures. */
  ghost predicate TooSoon(cfg: Config, w: Callers, now: Time) {
    w.ended != [] &&
    var end := w.ended[|w.ended| - 1].end;
    now < end + cfg.refreshInterval || (Failed(w.ended) >= cfg.threshold && now < end + cfg.cooldown)
  }

  /** The caller is given the last keys fetched. */
  ghost predicate Given(cfg: Config, w: Callers, w': Callers, now: Time) {
    && LastGood(w.ended).Some? && w'.cache == w.cache && w'.fetching == w.fetching && w'.ended == w.ended
    && var good := LastGood(w.ended).value;
    && good.keys.Some? && w'.handed == w.handed + [Handed(good.keys.value, now, good.end + cfg.cacheTTL)]
  }

  /** A caller that asks for a key is given a good set that has it; waits for a fetch under way; is given a good set
      without it, if it is too soon to fetch and the last fetch worked; is refused if it did not; and fetches
      otherwise. */
  ghost predicate AskAnswered(cfg: Config, w: Callers, caller: nat, kid: string, now: Time) {
    var w' := Do(cfg, w, Ask(caller, kid, now));
    caller !in w.fetching ==>
      if StillGood(cfg, w, now) && (kid == "" || HasKey(w, kid)) then Given(cfg, w, w', now)
      else if w.fetching != map[] then w' == w
      else if !TooSoon(cfg, w, now) then
        w' == w.(cache := w.cache.(inFlight := true), fetching := map[caller := now])
      else if StillGood(cfg, w, now) && w.ended[|w.ended| - 1].keys.Some? then Given(cfg, w, w', now)
      else w' == w
  }

  ghost predicate HasKey(w: Callers, kid: string) {
    LastGood(w.ended).Some? && LastGood(w.ended).value.keys.Some? && kid in LastGood(w.ended).value.keys.value
  }

  lemma {:induction false} GoodHasKeys(ended: seq<Fetched>)
    ensures LastGood(ended).Some? ==> LastGood(ended).value.keys.Some?
  {
    if ended != [] {
      GoodHasKeys(ended[..|ended| - 1]);
    }
  }

  /** After any interleaving of callers, under any clock. */
  lemma AsksInRuns(cfg: Config, steps: seq<Step>, caller: nat, kid: string, now: Time)
    requires cfg.Valid()
    ensures AskAnswered(cfg, Run(cfg, steps), caller, kid, now)
  {
    hide Run, LastGood, Failed, HandedFresh;
    KnowsInRuns(cfg, steps);
    SafeInRuns(cfg, steps);
    GoodHasKeys(Run(cfg, steps).ended);
  }
}
