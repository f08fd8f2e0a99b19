/** The one owner of profile fetching: who is wanted, what is in flight, when the next dispatch may
    go out, and which timer wakes the coordinator.

    One input is one await-free stretch of the source: `flush` up to its first await only queues
    (FlushResumes is the rest), a dispatch goes out in one input and comes back in another, and the
    scheduling that follows it is a third. The order in which a JavaScript map or set is walked never
    shows: every loop below takes its keys in any order. */
module ProfileCoordinator {
  import opened Doubling
  import opened ProfileBackoff
  import opened Options

  const BOOT_AGGREGATION_MS := 2_000
  const FAST_RETRY_MS := 5_000
  const FAST_RETRY_WINDOW_MS := 60_000
  const FAST_RETRY_MAX_ATTEMPTS := 2
  const DISPATCH_MIN_SPACING_MS := 5_000

  type Pubkey = string
  type Ledger = map<Pubkey, FailedFetch>

  /** One retain call: the keys its release function still holds. */
  datatype Hold = Hold(keys: set<Pubkey>, released: bool)

  datatype Dispatch = Dispatch(keys: set<Pubkey>, at: int, outstanding: bool)

  datatype State = State(
    start: int,                       // when the service was created
    clock: int,
    hydrated: bool,
    cached: set<Pubkey>,
    wanted: map<Pubkey, nat>,
    holds: seq<Hold>,
    inFlight: set<Pubkey>,
    failures: Ledger,
    dispatches: seq<Dispatch>,
    lastDispatchAt: int,
    flushes: nat,                     // flush calls waiting to resume
    settling: nat,                    // flushes whose dispatch came back, about to schedule a retry
    bootTimer: Option<int>,
    retryTimer: Option<int>)

  datatype Input =
    | Elapsed(ms: nat)
    | Hydrated
    | MissesLoaded(keys: set<Pubkey>)
    | Retain(keys: set<Pubkey>)
    | Release(hold: nat)
    | FlushResumes
    | BootTimerFires
    | RetryTimerFires
    | DispatchReturns(dispatch: nat, found: set<Pubkey>)
    | DispatchThrows(dispatch: nat)
    | FlushEnds
    | EarlyProfile(key: Pubkey)       // a kind 0 streamed in ahead of its batch
    | CacheStores(key: Pubkey)        // another surface cached a profile
    | CacheDrops(key: Pubkey)         // the shared cache evicted or expired one

  function Initial(now: int): State {
    State(now, now, false, {}, map[], [], {}, map[], [], 0, 0, 0, None, None)
  }

  function Max(a: int, b: int): int { if a < b then b else a }

  function EarliestDispatchAt(s: State): int {
    Max(s.start + BOOT_AGGREGATION_MS, s.lastDispatchAt + DISPATCH_MIN_SPACING_MS)
  }

  predicate Cooling(failures: Ledger, key: Pubkey, now: int) { key in failures && now < failures[key].nextRetryAt }

  predicate Due(s: State, p: Pubkey) {
    p in s.wanted && p !in s.cached && p !in s.inFlight && !Cooling(s.failures, p, s.clock)
  }

  /** What a dispatch asks for. */
  function Missing(s: State): set<Pubkey> { set p | p in s.wanted && Due(s, p) }

  function Counted(wanted: map<Pubkey, nat>, keys: set<Pubkey>): map<Pubkey, nat> {
    wanted + (map p | p in keys :: (if p in wanted then wanted[p] else 0) + 1)
  }

  function Uncounted(wanted: map<Pubkey, nat>, keys: set<Pubkey>): map<Pubkey, nat> {
    map p | p in wanted && !(p in keys && wanted[p] <= 1) :: if p in keys then wanted[p] - 1 else wanted[p]
  }

  function Missed(failures: Ledger, keys: set<Pubkey>, now: int): Ledger {
    failures + (map p | p in keys :: Failure(Attempts(failures, p), now))
  }

  /** Misses remembered from an earlier session start on the slow lane. */
  function Seeded(failures: Ledger, missed: set<Pubkey>): Ledger {
    (map p | p in missed :: FailedFetch(RETRY_MAX_ATTEMPTS, 0)) + failures
  }

  function Hastened(f: FailedFetch, fastRetryAt: int): FailedFetch {
    if Exhausted(f) || f.attempts > FAST_RETRY_MAX_ATTEMPTS then f
    else f.(nextRetryAt := Min(f.nextRetryAt, fastRetryAt))
  }

  function FastLane(failures: Ledger, keys: set<Pubkey>, start: int, now: int): Ledger {
    if now >= start + FAST_RETRY_WINDOW_MS then failures
    else
      map p | p in failures ::
        if p in keys then Hastened(failures[p], RoundUp(now + FAST_RETRY_MS, FAST_RETRY_MS)) else failures[p]
  }

  function Comeback(s: State, d: nat, found: set<Pubkey>): State
    requires d < |s.dispatches|
  {
    var keys := s.dispatches[d].keys;
    s.(cached := s.cached + found * keys,
       inFlight := s.inFlight - keys,
       failures := FastLane(Missed(s.failures - found * keys, keys - found, s.clock), keys, s.start, s.clock),
       dispatches := s.dispatches[d := s.dispatches[d].(outstanding := false)],
       settling := s.settling + 1)
  }

  /** The earliest retry time still ahead among the keys, if any. */
  ghost predicate IsEarliest(keys: set<Pubkey>, failures: Ledger, now: int, r: Option<int>) {
    match r
    case None => forall p :: p in keys ==> !Cooling(failures, p, now)
    case Some(t) =>
      && (exists p :: p in keys && Cooling(failures, p, now) && failures[p].nextRetryAt == t)
      && (forall p :: p in keys && Cooling(failures, p, now) ==> t <= failures[p].nextRetryAt)
  }

  function Sooner(failures: Ledger, now: int, k: Pubkey, r: Option<int>): Option<int> {
    if Cooling(failures, k, now) && (r.None? || failures[k].nextRetryAt < r.value)
    then Some(failures[k].nextRetryAt) else r
  }

  ghost function Earliest(keys: set<Pubkey>, failures: Ledger, now: int): Option<int> {
    if keys == {} then None
    else
      var k :| k in keys;
      Sooner(failures, now, k, Earliest(keys - {k}, failures, now))
  }

  lemma {:induction false} EarliestIs(keys: set<Pubkey>, failures: Ledger, now: int)
    ensures IsEarliest(keys, failures, now, Earliest(keys, failures, now))
    decreases |keys|
  {
    if keys != {} {
      var k :| k in keys
        && Earliest(keys, failures, now) == Sooner(failures, now, k, Earliest(keys - {k}, failures, now));
      EarliestIs(keys - {k}, failures, now);
      SoonerIs(keys - {k}, failures, now, k, Earliest(keys - {k}, failures, now));
      assert keys - {k} + {k} == keys;
    }
  }

  lemma SoonerIs(keys: set<Pubkey>, failures: Ledger, now: int, k: Pubkey, r: Option<int>)
    requires IsEarliest(keys, failures, now, r)
    ensures IsEarliest(keys + {k}, failures, now, Sooner(failures, now, k, r))
  {
  }

  lemma EarliestIsUnique(keys: set<Pubkey>, failures: Ledger, now: int, r: Option<int>, r': Option<int>)
    requires IsEarliest(keys, failures, now, r) && IsEarliest(keys, failures, now, r')
    ensures r == r'
  {
  }

  ghost function ScheduleRetry(s: State): State { s.(retryTimer := Earliest(s.wanted.Keys, s.failures, s.clock)) }

  function Send(s: State, keys: set<Pubkey>): State {
    s.(lastDispatchAt := s.clock, inFlight := s.inFlight + keys,
       dispatches := s.dispatches + [Dispatch(keys, s.clock, true)])
  }

  ghost function Flush(s: State): State {
    if EarliestDispatchAt(s) > s.clock then
      if s.bootTimer.None? then s.(bootTimer := Some(EarliestDispatchAt(s))) else s
    else if s.wanted == map[] then s.(retryTimer := None)
    else if Missing(s) == {} then ScheduleRetry(s)
    else Send(s, Missing(s))
  }

  predicate Enabled(s: State, i: Input) {
    match i
    case Release(h) => h < |s.holds|
    case FlushResumes => s.flushes > 0 && s.hydrated
    case BootTimerFires => s.bootTimer.Some? && s.bootTimer.value <= s.clock
    case RetryTimerFires => s.retryTimer.Some? && s.retryTimer.value <= s.clock
    case DispatchReturns(d, _) => d < |s.dispatches| && s.dispatches[d].outstanding
    case DispatchThrows(d) => d < |s.dispatches| && s.dispatches[d].outstanding
    case FlushEnds => s.settling > 0
    case _ => true
  }

  ghost function Next(s: State, i: Input): State
    requires Enabled(s, i)
  {
    match i
    case Elapsed(ms) => s.(clock := s.clock + ms)
    case Hydrated => s.(hydrated := true)
    case MissesLoaded(keys) =>
      s.(failures := Seeded(s.failures, keys))
    case Retain(keys) =>
      s.(wanted := Counted(s.wanted, keys), holds := s.holds + [Hold(keys, false)], flushes := s.flushes + 1)
    case Release(h) =>
      if s.holds[h].released then s
      else
        ScheduleRetry(s.(wanted := Uncounted(s.wanted, s.holds[h].keys),
                         holds := s.holds[h := s.holds[h].(released := true)]))
    case FlushResumes => Flush(s.(flushes := s.flushes - 1))
    case BootTimerFires => s.(bootTimer := None, flushes := s.flushes + 1)
    case RetryTimerFires => s.(retryTimer := None, flushes := s.flushes + 1)
    case DispatchReturns(d, found) => Comeback(s, d, found)
    case DispatchThrows(d) => Comeback(s, d, {})
    case FlushEnds => ScheduleRetry(s.(settling := s.settling - 1))
    case EarlyProfile(p) => s.(cached := s.cached + {p}, failures := s.failures - {p})
    case CacheStores(p) => s.(cached := s.cached + {p})
    case CacheDrops(p) => s.(cached := s.cached - {p})
  }

  /** A run: one state more than inputs, each the successor of the one before. */
  ghost predicate IsRun(now: int, run: seq<State>, inputs: seq<Input>) {
    && |run| == |inputs| + 1 && run[0] == Initial(now)
    && (forall k :: 0 <= k < |inputs| ==> Enabled(run[k], inputs[k]) && run[k + 1] == Next(run[k], inputs[k]))
  }

  // ---------------------------------------------------------------- demand

  function HoldersOf(holds: seq<Hold>, p: Pubkey): nat {
    if holds == [] then 0
    else
      var last := holds[|holds| - 1];
      HoldersOf(holds[..|holds| - 1], p) + (if p in last.keys && !last.released then 1 else 0)
  }

  ghost predicate DemandOk(s: State) {
    forall p :: (if p in s.wanted then s.wanted[p] else 0) == HoldersOf(s.holds, p)
      && (p in s.wanted ==> s.wanted[p] > 0)
  }

  lemma {:induction false} ReleaseCounts(holds: seq<Hold>, h: nat, p: Pubkey)
    requires h < |holds| && !holds[h].released
    ensures HoldersOf(holds[h := holds[h].(released := true)], p)
         == HoldersOf(holds, p) - (if p in holds[h].keys then 1 else 0)
  {
    var n := |holds| - 1;
    var after := holds[h := holds[h].(released := true)];
    if h == n {
      assert after[..n] == holds[..n];
    } else {
      assert after[..n] == holds[..n][h := holds[h].(released := true)];
      ReleaseCounts(holds[..n], h, p);
    }
  }

  lemma StepKeepsDemand(s: State, i: Input)
    requires DemandOk(s) && Enabled(s, i)
    ensures DemandOk(Next(s, i))
  {
    var t := Next(s, i);
    forall p ensures (if p in t.wanted then t.wanted[p] else 0) == HoldersOf(t.holds, p)
      && (p in t.wanted ==> t.wanted[p] > 0)
    {
      assert (if p in s.wanted then s.wanted[p] else 0) == HoldersOf(s.holds, p) && (p in s.wanted ==> s.wanted[p] > 0);
      if i.Retain? {
        assert t.holds[..|t.holds| - 1] == s.holds;
      } else if i.Release? && !s.holds[i.hold].released {
        ReleaseCounts(s.holds, i.hold, p);
      }
    }
  }

  /** A key is wanted as many times as there are retain calls naming it that were not released, and
      absent when there are none; releasing twice changes nothing. */
  lemma {:induction false} DemandIsCounted(now: int, run: seq<State>, inputs: seq<Input>, k: nat)
    requires IsRun(now, run, inputs) && k <= |inputs|
    ensures DemandOk(run[k])
  {
    if k > 0 {
      DemandIsCounted(now, run, inputs, k - 1);
      assert run[k] == Next(run[k - 1], inputs[k - 1]);
      StepKeepsDemand(run[k - 1], inputs[k - 1]);
    }
  }

  // ---------------------------------------------------------------- flights

  ghost predicate FlightsOk(s: State) { AreFlights(s.inFlight, s.dispatches) }

  ghost predicate AreFlights(inFlight: set<Pubkey>, dispatches: seq<Dispatch>) {
    && (forall p :: p in inFlight <==>
          exists d :: 0 <= d < |dispatches| && dispatches[d].outstanding && p in dispatches[d].keys)
    && (forall c, d :: 0 <= c < d < |dispatches| && dispatches[c].outstanding && dispatches[d].outstanding ==>
          dispatches[c].keys !! dispatches[d].keys)
  }

  ghost predicate PacingOk(s: State) {
    && (forall d :: 0 <= d < |s.dispatches| ==> s.start + BOOT_AGGREGATION_MS <= s.dispatches[d].at <= s.lastDispatchAt)
    && (forall c, d :: 0 <= c < d < |s.dispatches| ==>
          s.dispatches[c].at + DISPATCH_MIN_SPACING_MS <= s.dispatches[d].at)
    && (s.dispatches != [] ==> s.dispatches[|s.dispatches| - 1].at == s.lastDispatchAt <= s.clock)
  }

  /** A flush either sends what is missing or leaves flights, failures and dispatches alone. */
  lemma FlushSendsOrNot(s: State)
    ensures var t := Flush(s);
      || t == Send(s, Missing(s))
      || t == s.(bootTimer := t.bootTimer, retryTimer := t.retryTimer)
  {
  }

  lemma SendKeepsFlights(s: State)
    requires FlightsOk(s)
    ensures FlightsOk(Send(s, Missing(s)))
  {
    var t, keys := Send(s, Missing(s)), Missing(s);
    var n := |s.dispatches|;
    assert t.dispatches[n].outstanding && t.dispatches[n].keys == keys;
    forall p ensures p in t.inFlight
        <==> exists d :: 0 <= d < |t.dispatches| && t.dispatches[d].outstanding && p in t.dispatches[d].keys {
      if p in s.inFlight {
        var d :| 0 <= d < n && s.dispatches[d].outstanding && p in s.dispatches[d].keys;
        assert t.dispatches[d] == s.dispatches[d];
      }
    }
    forall c | 0 <= c < n && s.dispatches[c].outstanding ensures s.dispatches[c].keys !! keys {
      forall p | p in s.dispatches[c].keys ensures p in s.inFlight {}
    }
  }

  lemma ComebackKeepsFlights(s: State, d: nat, found: set<Pubkey>)
    requires FlightsOk(s) && d < |s.dispatches| && s.dispatches[d].outstanding
    ensures FlightsOk(Comeback(s, d, found))
  {
    var t := Comeback(s, d, found);
    forall p ensures p in t.inFlight
        <==> exists e :: 0 <= e < |t.dispatches| && t.dispatches[e].outstanding && p in t.dispatches[e].keys {
      if p in t.inFlight {
        var e :| 0 <= e < |s.dispatches| && s.dispatches[e].outstanding && p in s.dispatches[e].keys;
        assert t.dispatches[e] == s.dispatches[e];
      }
    }
  }

  lemma FlightsDependOn(s: State, t: State)
    requires FlightsOk(s) && t.inFlight == s.inFlight && t.dispatches == s.dispatches
    ensures FlightsOk(t)
  {
  }

  lemma FlushedKeepsFlights(s: State, u: State, t: State)
    requires FlightsOk(s) && u == s.(flushes := u.flushes)
    requires t == Send(u, Missing(u)) || t == u.(bootTimer := t.bootTimer, retryTimer := t.retryTimer)
    ensures FlightsOk(t)
  {
    FlightsDependOn(s, u);
    if t == Send(u, Missing(u)) { SendKeepsFlights(u); } else { FlightsDependOn(u, t); }
  }

  lemma ResumeSendsOrNot(s: State)
    requires Enabled(s, FlushResumes)
    ensures var u, t := s.(flushes := s.flushes - 1), Next(s, FlushResumes);
      || t == Send(u, Missing(u))
      || t == u.(bootTimer := t.bootTimer, retryTimer := t.retryTimer)
  {
    FlushSendsOrNot(s.(flushes := s.flushes - 1));
  }

  lemma ResumeKeepsFlights(s: State, t: State)
    requires FlightsOk(s) && Enabled(s, FlushResumes) && t == Next(s, FlushResumes)
    ensures FlightsOk(t)
  {
    ResumeSendsOrNot(s);
    FlushedKeepsFlights(s, s.(flushes := s.flushes - 1), t);
  }

  lemma StepKeepsFlights(s: State, i: Input)
    requires FlightsOk(s) && Enabled(s, i)
    ensures FlightsOk(Next(s, i))
  {
    if i.FlushResumes? {
      ResumeKeepsFlights(s, Next(s, i));
    } else if i.DispatchReturns? {
      ComebackKeepsFlights(s, i.dispatch, i.found);
    } else if i.DispatchThrows? {
      ComebackKeepsFlights(s, i.dispatch, {});
    } else {
      FlightsDependOn(s, Next(s, i));
    }
  }

  lemma PacingDependsOn(s: State, t: State)
    requires PacingOk(s) && t.start == s.start && t.lastDispatchAt == s.lastDispatchAt && s.clock <= t.clock
    requires |t.dispatches| == |s.dispatches| && forall d :: 0 <= d < |s.dispatches| ==>
      t.dispatches[d].at == s.dispatches[d].at
    ensures PacingOk(t)
  {
  }

  lemma ResumeKeepsPacing(s: State)
    requires PacingOk(s) && Enabled(s, FlushResumes)
    ensures PacingOk(Next(s, FlushResumes))
  {
    var u := s.(flushes := s.flushes - 1);
    FlushSendsOrNot(u);
    if Flush(u) != Send(u, Missing(u)) { PacingDependsOn(s, Flush(u)); }
  }

  lemma StepKeepsPacing(s: State, i: Input)
    requires PacingOk(s) && Enabled(s, i)
    ensures PacingOk(Next(s, i))
    ensures Next(s, i).start == s.start
  {
    if i.FlushResumes? { ResumeKeepsPacing(s); } else { PacingDependsOn(s, Next(s, i)); }
  }

  /** What is in flight is exactly the disjoint union of the dispatches still out; consecutive
      dispatches lie the spacing apart and none goes out before the boot window has closed. */
  lemma {:induction false} DispatchDiscipline(now: int, run: seq<State>, inputs: seq<Input>, k: nat)
    requires IsRun(now, run, inputs) && k <= |inputs|
    ensures FlightsOk(run[k]) && PacingOk(run[k]) && run[k].start == now
  {
    if k > 0 {
      DispatchDiscipline(now, run, inputs, k - 1);
      assert run[k] == Next(run[k - 1], inputs[k - 1]);
      StepKeepsFlights(run[k - 1], inputs[k - 1]);
      StepKeepsPacing(run[k - 1], inputs[k - 1]);
    }
  }

  /** A flush that sends anything asks for exactly the keys that are wanted, uncached, not in flight
      and out of cooldown; and it sends whenever there is such a key and the pacing allows. */
  lemma DispatchedExactly(s: State)
    requires Enabled(s, FlushResumes)
    ensures var t := Next(s, FlushResumes); var n := |s.dispatches|;
      && (|t.dispatches| > n <==> (EarliestDispatchAt(s) <= s.clock && exists p :: Due(s, p)))
      && (|t.dispatches| > n ==>
            && t.dispatches == s.dispatches + [Dispatch(t.dispatches[n].keys, s.clock, true)]
            && forall p :: p in t.dispatches[n].keys <==> Due(s, p))
  {
    var u := s.(flushes := s.flushes - 1);
    assert Missing(u) == Missing(s);
    if Missing(s) == {} {
      forall p ensures !Due(s, p) { assert p !in Missing(s); }
    } else {
      var p :| p in Missing(s);
      assert Due(s, p);
    }
  }

  // ---------------------------------------------------------------- how often one key is asked for

  /** When the dispatches naming p went out. */
  function Times(dispatches: seq<Dispatch>, p: Pubkey): seq<int> {
    if dispatches == [] then []
    else
      var last := dispatches[|dispatches| - 1];
      Times(dispatches[..|dispatches| - 1], p) + (if p in last.keys then [last.at] else [])
  }

  /** The least wait after the n-th attempt, fast lane included. */
  function Gap(n: nat): int {
    if n <= FAST_RETRY_MAX_ATTEMPTS then FAST_RETRY_MS else Cooldown(n)
  }

  ghost predicate Spaced(times: seq<int>) {
    forall i, j :: 0 <= i < j < |times| ==> times[i] + Gap(i + 1) <= times[j]
  }

  ghost predicate RateOk(s: State, p: Pubkey) {
    var times := Times(s.dispatches, p); var n := |times|;
    && Spaced(times)
    && (n > 0 ==> times[n - 1] <= s.clock)
    && (p in s.inFlight ==> n > 0 && Attempts(s.failures, p) >= n - 1)
    && (p !in s.inFlight && n > 0 ==>
          p in s.failures && s.failures[p].attempts >= n && times[n - 1] + Gap(n) <= s.failures[p].nextRetryAt)
  }

  /** The input tells the coordinator nothing about p's profile. */
  predicate Silent(i: Input, p: Pubkey) {
    && !(i.DispatchReturns? && p in i.found)
    && !(i.EarlyProfile? && i.key == p)
  }

  lemma {:induction false} GapGrows(m: nat, n: nat)
    requires m <= n
    ensures FAST_RETRY_MS <= Gap(m) <= Gap(n)
    ensures n >= 5 ==> Gap(n) == RETRY_MAX_MS
    decreases n - m
  {
    if n > 2 { CooldownLadder(n); }
    if m < n { GapGrows(m, n - 1); if n > 3 { CooldownLadder(n - 1); } }
  }

  /** Failing once more puts the next attempt at least the gap away, on either lane, and within ten
      seconds for an early attempt of the first minute. */
  lemma MissWaits(failures: Ledger, keys: set<Pubkey>, start: int, now: int, p: Pubkey)
    requires p in keys
    ensures var after := FastLane(Missed(failures, keys, now), keys, start, now);
      && p in after && after[p].attempts == Attempts(failures, p) + 1
      && now + Gap(after[p].attempts) <= after[p].nextRetryAt < now + RETRY_MAX_MS + RETRY_BUCKET_MS
      && if now < start + FAST_RETRY_WINDOW_MS && after[p].attempts <= FAST_RETRY_MAX_ATTEMPTS
         then now + FAST_RETRY_MS <= after[p].nextRetryAt < now + 2 * FAST_RETRY_MS
         else now + Cooldown(after[p].attempts) <= after[p].nextRetryAt
              < now + Cooldown(after[p].attempts) + RETRY_BUCKET_MS
  {
    var n := Attempts(failures, p);
    RetryWindow(n, now);
    CooldownLadder(n + 1);
  }

  lemma {:induction false} TimesIgnoreOutcome(dispatches: seq<Dispatch>, d: nat, p: Pubkey)
    requires d < |dispatches|
    ensures Times(dispatches[d := dispatches[d].(outstanding := false)], p) == Times(dispatches, p)
  {
    var n := |dispatches| - 1;
    var after := dispatches[d := dispatches[d].(outstanding := false)];
    if d < n {
      assert after[..n] == dispatches[..n][d := dispatches[d].(outstanding := false)];
      TimesIgnoreOutcome(dispatches[..n], d, p);
    } else {
      assert after[..n] == dispatches[..n];
    }
  }

  lemma ComebackKeepsRate(s: State, d: nat, found: set<Pubkey>, p: Pubkey)
    requires RateOk(s, p) && FlightsOk(s) && d < |s.dispatches| && s.dispatches[d].outstanding && p !in found
    ensures RateOk(Comeback(s, d, found), p)
  {
    var t, keys := Comeback(s, d, found), s.dispatches[d].keys;
    TimesIgnoreOutcome(s.dispatches, d, p);
    assert Attempts(s.failures - found * keys, p) == Attempts(s.failures, p);
    if p in keys {
      assert p in s.inFlight;
      FastLaneIgnoresFound(s, keys, found, p);
      MissWaits(s.failures - found * keys, keys - found, s.start, s.clock, p);
      GapGrows(|Times(s.dispatches, p)|, t.failures[p].attempts);
    }
  }

  /** The lane runs over every key of the batch, but the found ones have left the ledger. */
  lemma FastLaneIgnoresFound(s: State, keys: set<Pubkey>, found: set<Pubkey>, p: Pubkey)
    requires p in keys && p !in found
    ensures var before := Missed(s.failures - found * keys, keys - found, s.clock);
      p in before && FastLane(before, keys, s.start, s.clock)[p] == FastLane(before, keys - found, s.start, s.clock)[p]
  {
  }

  lemma AskKeepsRate(s: State, p: Pubkey)
    requires RateOk(s, p) && Due(s, p)
    ensures Spaced(Times(s.dispatches, p) + [s.clock])
  {
    var times := Times(s.dispatches, p);
    var n := |times|;
    forall i | 0 <= i < n ensures times[i] + Gap(i + 1) <= s.clock {
      if i == n - 1 {
        assert times[n - 1] + Gap(n) <= s.failures[p].nextRetryAt <= s.clock;
      } else {
        assert times[i] + Gap(i + 1) <= times[n - 1];
      }
    }
  }

  lemma SendKeepsRate(s: State, keys: set<Pubkey>, t: State, p: Pubkey)
    requires RateOk(s, p) && t == Send(s, keys) && (p in keys ==> Due(s, p))
    ensures RateOk(t, p)
  {
    var last := Dispatch(keys, s.clock, true);
    assert t.dispatches[..|s.dispatches|] == s.dispatches;
    assert Times(t.dispatches, p) == Times(s.dispatches, p) + (if p in keys then [last.at] else []);
    if p in keys { AskKeepsRate(s, p); }
  }

  lemma RateDependsOn(s: State, t: State, p: Pubkey)
    requires RateOk(s, p) && t.inFlight == s.inFlight && t.dispatches == s.dispatches && s.clock <= t.clock
    requires p in s.failures ==> p in t.failures && t.failures[p] == s.failures[p]
    ensures RateOk(t, p)
  {
  }

  lemma FlushedKeepsRate(s: State, u: State, t: State, p: Pubkey)
    requires RateOk(s, p) && u == s.(flushes := u.flushes)
    requires t == Send(u, Missing(u)) || t == u.(bootTimer := t.bootTimer, retryTimer := t.retryTimer)
    ensures RateOk(t, p)
  {
    RateDependsOn(s, u, p);
    if t == Send(u, Missing(u)) { SendKeepsRate(u, Missing(u), t, p); } else { RateDependsOn(u, t, p); }
  }

  lemma ResumeKeepsRate(s: State, t: State, p: Pubkey)
    requires RateOk(s, p) && Enabled(s, FlushResumes) && t == Next(s, FlushResumes)
    ensures RateOk(t, p)
  {
    ResumeSendsOrNot(s);
    FlushedKeepsRate(s, s.(flushes := s.flushes - 1), t, p);
  }

  lemma OthersKeepRate(s: State, i: Input, p: Pubkey)
    requires RateOk(s, p) && Enabled(s, i) && Silent(i, p)
    requires !i.FlushResumes? && !i.DispatchReturns? && !i.DispatchThrows?
    ensures RateOk(Next(s, i), p)
  {
    var t := Next(s, i);
    assert t.dispatches == s.dispatches && t.inFlight == s.inFlight && s.clock <= t.clock;
    assert p in s.failures ==> p in t.failures && t.failures[p] == s.failures[p];
    RateDependsOn(s, t, p);
  }

  lemma StepKeepsRate(s: State, i: Input, p: Pubkey)
    requires RateOk(s, p) && FlightsOk(s) && Enabled(s, i) && Silent(i, p)
    ensures RateOk(Next(s, i), p)
  {
    if i.FlushResumes? {
      ResumeKeepsRate(s, Next(s, i), p);
    } else if i.DispatchReturns? {
      ComebackKeepsRate(s, i.dispatch, i.found, p);
    } else if i.DispatchThrows? {
      ComebackKeepsRate(s, i.dispatch, {}, p);
    } else {
      OthersKeepRate(s, i, p);
    }
  }

  lemma {:induction false} RunKeepsRate(now: int, run: seq<State>, inputs: seq<Input>, k: nat, p: Pubkey)
    requires IsRun(now, run, inputs) && k <= |inputs|
    requires forall j :: 0 <= j < k ==> Silent(inputs[j], p)
    ensures RateOk(run[k], p)
  {
    if k > 0 {
      RunKeepsRate(now, run, inputs, k - 1, p);
      DispatchDiscipline(now, run, inputs, k - 1);
      assert run[k] == Next(run[k - 1], inputs[k - 1]);
      StepKeepsRate(run[k - 1], inputs[k - 1], p);
    }
  }

  lemma {:induction false} SpacedSpan(times: seq<int>, a: nat, b: nat)
    requires Spaced(times) && a <= b < |times|
    ensures times[a] <= times[b]
    ensures (b - a - 4) * RETRY_MAX_MS <= times[b] - times[a]
    decreases b - a
  {
    if a < b {
      SpacedSpan(times, a, b - 1);
      GapGrows(b, b);
      assert times[b - 1] + Gap(b - 1 + 1) <= times[b] && b - 1 + 1 == b;
      if b <= 4 {
        assert (b - a - 4) * RETRY_MAX_MS <= 0;
      }
    }
  }

  /** The rate bound: a profile that never turns up is asked for at most five times, and once more
      for every five minutes, in any window of time, the fast retry lane included. */
  lemma MissingProfilesAreRare(now: int, run: seq<State>, inputs: seq<Input>, k: nat, p: Pubkey, a: nat, b: nat,
      window: nat)
    requires IsRun(now, run, inputs) && k <= |inputs|
    requires forall j :: 0 <= j < k ==> Silent(inputs[j], p)
    requires a <= b < |Times(run[k].dispatches, p)|
    requires Times(run[k].dispatches, p)[b] <= Times(run[k].dispatches, p)[a] + window
    ensures b - a + 1 <= 5 + window / RETRY_MAX_MS
  {
    RunKeepsRate(now, run, inputs, k, p);
    SpacedSpan(Times(run[k].dispatches, p), a, b);
  }

  ghost predicate RetriesAhead(s: State) {
    forall p :: p in s.failures ==> s.failures[p].nextRetryAt < s.clock + RETRY_MAX_MS + RETRY_BUCKET_MS
  }

  lemma StepKeepsRetriesAhead(s: State, i: Input)
    requires RetriesAhead(s) && Enabled(s, i) && s.clock > -RETRY_MAX_MS
    ensures RetriesAhead(Next(s, i))
  {
    if i.DispatchReturns? || i.DispatchThrows? {
      var found := if i.DispatchReturns? then i.found else {};
      var t, keys := Next(s, i), s.dispatches[i.dispatch].keys;
      forall p | p in t.failures ensures t.failures[p].nextRetryAt < s.clock + RETRY_MAX_MS + RETRY_BUCKET_MS {
        if p in keys && p !in found {
          FastLaneIgnoresFound(s, keys, found, p);
          MissWaits(s.failures - found * keys, keys - found, s.start, s.clock, p);
        }
      }
    }
  }

  /** A miss is never terminal: at every moment each recorded miss may be retried within 330 s. */
  lemma {:induction false} MissesHeal(now: int, run: seq<State>, inputs: seq<Input>, k: nat)
    requires IsRun(now, run, inputs) && k <= |inputs| && now >= 0
    ensures RetriesAhead(run[k]) && run[k].clock >= 0
  {
    if k > 0 {
      MissesHeal(now, run, inputs, k - 1);
      assert run[k] == Next(run[k - 1], inputs[k - 1]);
      StepKeepsRetriesAhead(run[k - 1], inputs[k - 1]);
    }
  }

  // ---------------------------------------------------------------- what the inputs amount to

  /** The input brings p's profile into the cache. */
  predicate Stores(s: State, i: Input, p: Pubkey) {
    || (i.DispatchReturns? && i.dispatch < |s.dispatches| && p in i.found && p in s.dispatches[i.dispatch].keys)
    || i == EarlyProfile(p) || i == CacheStores(p)
  }

  ghost predicate StoredSince(run: seq<State>, inputs: seq<Input>, n: nat, k: nat, p: Pubkey)
    requires |run| == |inputs| + 1 && k <= |inputs|
  {
    n < k && Stores(run[n], inputs[n], p) && forall j :: n < j < k ==> inputs[j] != CacheDrops(p)
  }

  lemma CacheStep(s: State, i: Input, t: State, p: Pubkey)
    requires Enabled(s, i) && t == Next(s, i)
    ensures p in t.cached <==> Stores(s, i, p) || (p in s.cached && i != CacheDrops(p))
  {
  }

  /** A profile is cached exactly when an answer, an early event or another surface brought it and it has
      not been dropped since. What a batch was asked for and did not bring is not cached. */
  lemma {:induction false} CachedExactly(now: int, run: seq<State>, inputs: seq<Input>, k: nat, p: Pubkey)
    requires IsRun(now, run, inputs) && k <= |inputs|
    ensures p in run[k].cached <==> WasStored(run, inputs, k, p)
  {
    if k > 0 {
      CachedExactly(now, run, inputs, k - 1, p);
      CacheStep(run[k - 1], inputs[k - 1], run[k], p);
      StoredStep(run, inputs, k, p);
    }
  }

  ghost predicate WasStored(run: seq<State>, inputs: seq<Input>, k: nat, p: Pubkey)
    requires |run| == |inputs| + 1 && k <= |inputs|
  {
    exists n :: StoredSince(run, inputs, n, k, p)
  }

  lemma StoredStep(run: seq<State>, inputs: seq<Input>, k: nat, p: Pubkey)
    requires |run| == |inputs| + 1 && 0 < k <= |inputs|
    ensures WasStored(run, inputs, k, p) <==>
      Stores(run[k - 1], inputs[k - 1], p) || (WasStored(run, inputs, k - 1, p) && inputs[k - 1] != CacheDrops(p))
  {
    if Stores(run[k - 1], inputs[k - 1], p) { assert StoredSince(run, inputs, k - 1, k, p); }
    if WasStored(run, inputs, k, p) {
      var n: nat :| StoredSince(run, inputs, n, k, p);
      if n < k - 1 { assert StoredSince(run, inputs, n, k - 1, p); }
    }
    if WasStored(run, inputs, k - 1, p) && inputs[k - 1] != CacheDrops(p) {
      var n: nat :| StoredSince(run, inputs, n, k - 1, p);
      assert StoredSince(run, inputs, n, k, p);
    }
  }

  /** The answer to a dispatch has come, or it threw. */
  ghost predicate Answered(inputs: seq<Input>, d: nat) {
    DispatchThrows(d) in inputs || exists i :: i in inputs && i.DispatchReturns? && i.dispatch == d
  }

  /** A dispatch is outstanding exactly until its answer. */
  lemma {:induction false} OutstandingExactly(now: int, run: seq<State>, inputs: seq<Input>, k: nat, d: nat)
    requires IsRun(now, run, inputs) && k <= |inputs| && d < |run[k].dispatches|
    ensures run[k].dispatches[d].outstanding <==> !Answered(inputs[..k], d)
  {
    if k > 0 {
      var before, i := inputs[..k - 1], inputs[k - 1];
      assert inputs[..k] == before + [i];
      AnsweredBy(before, i, d);
      OutstandingStep(run[k - 1], i, run[k], d);
      if d < |run[k - 1].dispatches| {
        OutstandingExactly(now, run, inputs, k - 1, d);
      } else {
        NotYetSent(now, run, inputs, k - 1, d);
      }
    }
  }

  lemma AnsweredBy(before: seq<Input>, i: Input, d: nat)
    ensures Answered(before + [i], d) <==> Answered(before, d) || Answers(i, d)
  {
    assert i in before + [i];
  }

  predicate Answers(i: Input, d: nat) { i == DispatchThrows(d) || (i.DispatchReturns? && i.dispatch == d) }

  lemma OutstandingStep(s: State, i: Input, t: State, d: nat)
    requires Enabled(s, i) && t == Next(s, i) && d < |t.dispatches|
    ensures |s.dispatches| <= |t.dispatches|
    ensures Answers(i, d) ==> d < |s.dispatches| && s.dispatches[d].outstanding
    ensures t.dispatches[d].outstanding <==> (d < |s.dispatches| ==> s.dispatches[d].outstanding) && !Answers(i, d)
  {
    if i.FlushResumes? { ResumeSendsOrNot(s); }
  }

  lemma {:induction false} NotYetSent(now: int, run: seq<State>, inputs: seq<Input>, k: nat, d: nat)
    requires IsRun(now, run, inputs) && k <= |inputs| && d >= |run[k].dispatches|
    ensures !Answered(inputs[..k], d)
  {
    if k > 0 {
      assert inputs[..k] == inputs[..k - 1] + [inputs[k - 1]];
      AnsweredBy(inputs[..k - 1], inputs[k - 1], d);
      DispatchesGrow(run[k - 1], inputs[k - 1], run[k]);
      NotYetSent(now, run, inputs, k - 1, d);
    }
  }

  lemma DispatchesGrow(s: State, i: Input, t: State)
    requires Enabled(s, i) && t == Next(s, i)
    ensures |s.dispatches| <= |t.dispatches|
  {
    if i.FlushResumes? { ResumeSendsOrNot(s); }
  }

  /** The failed attempts for p since its profile was last found. */
  ghost function TriesBy(run: seq<State>, inputs: seq<Input>, k: nat, p: Pubkey): nat
    requires |run| == |inputs| + 1 && k <= |inputs|
  {
    if k == 0 then 0
    else
      var before, s := TriesBy(run, inputs, k - 1, p), run[k - 1];
      match inputs[k - 1]
      case DispatchReturns(d, found) =>
        if d < |s.dispatches| && p in s.dispatches[d].keys then if p in found then 0 else before + 1 else before
      case DispatchThrows(d) => if d < |s.dispatches| && p in s.dispatches[d].keys then before + 1 else before
      case EarlyProfile(key) => if key == p then 0 else before
      case MissesLoaded(keys) => if p in keys && before == 0 then RETRY_MAX_ATTEMPTS else before
      case _ => before
  }

  ghost predicate LedgerPositive(s: State) { forall p :: p in s.failures ==> s.failures[p].attempts > 0 }

  lemma TriesStep(s: State, i: Input, t: State, p: Pubkey)
    requires Enabled(s, i) && t == Next(s, i) && LedgerPositive(s)
    ensures LedgerPositive(t)
    ensures Attempts(t.failures, p) ==
      match i
      case DispatchReturns(d, found) =>
        if p in s.dispatches[d].keys then if p in found then 0 else Attempts(s.failures, p) + 1
        else Attempts(s.failures, p)
      case DispatchThrows(d) => Attempts(s.failures, p) + if p in s.dispatches[d].keys then 1 else 0
      case EarlyProfile(key) => if key == p then 0 else Attempts(s.failures, p)
      case MissesLoaded(keys) =>
        if p in keys && Attempts(s.failures, p) == 0 then RETRY_MAX_ATTEMPTS else Attempts(s.failures, p)
      case _ => Attempts(s.failures, p)
  {
    match i {
      case DispatchReturns(d, found) => ComebackTries(s, d, found, p);
      case DispatchThrows(d) => ComebackTries(s, d, {}, p);
      case FlushResumes => ResumeSendsOrNot(s);
      case _ =>
    }
  }

  lemma ComebackTries(s: State, d: nat, found: set<Pubkey>, p: Pubkey)
    requires d < |s.dispatches| && LedgerPositive(s)
    ensures LedgerPositive(Comeback(s, d, found))
    ensures Attempts(Comeback(s, d, found).failures, p) ==
      if p !in s.dispatches[d].keys then Attempts(s.failures, p)
      else if p in found then 0 else Attempts(s.failures, p) + 1
  {
  }

  /** The ledger counts exactly the misses and throws since p was last found. */
  lemma {:induction false} TriesExactly(now: int, run: seq<State>, inputs: seq<Input>, k: nat, p: Pubkey)
    requires IsRun(now, run, inputs) && k <= |inputs|
    ensures LedgerPositive(run[k]) && Attempts(run[k].failures, p) == TriesBy(run, inputs, k, p)
  {
    if k > 0 {
      TriesExactly(now, run, inputs, k - 1, p);
      TriesStep(run[k - 1], inputs[k - 1], run[k], p);
    }
  }

  /** The keys of every retain call so far, in order. */
  function RetainedBy(inputs: seq<Input>): seq<set<Pubkey>> {
    if inputs == [] then []
    else
      var i := inputs[|inputs| - 1];
      RetainedBy(inputs[..|inputs| - 1]) + if i.Retain? then [i.keys] else []
  }

  /** Every retain call has its hold, and a hold is released exactly by its release. */
  lemma {:induction false} HoldsAreRetains(now: int, run: seq<State>, inputs: seq<Input>, k: nat)
    requires IsRun(now, run, inputs) && k <= |inputs|
    ensures |run[k].holds| == |RetainedBy(inputs[..k])|
    ensures forall h: nat :: h < |run[k].holds| ==>
      && run[k].holds[h].keys == RetainedBy(inputs[..k])[h]
      && (run[k].holds[h].released <==> Release(h) in inputs[..k])
    ensures forall h: nat :: Release(h) in inputs[..k] ==> h < |run[k].holds|
  {
    if k > 0 {
      HoldsAreRetains(now, run, inputs, k - 1);
      assert inputs[..k] == inputs[..k - 1] + [inputs[k - 1]];
      assert inputs[..k][..k - 1] == inputs[..k - 1];
      HoldsStep(run[k - 1], inputs[k - 1], run[k]);
    }
  }

  lemma HoldsStep(s: State, i: Input, t: State)
    requires Enabled(s, i) && t == Next(s, i)
    ensures |t.holds| == |s.holds| + (if i.Retain? then 1 else 0)
    ensures i.Retain? ==> t.holds[|s.holds|] == Hold(i.keys, false)
    ensures forall h: nat :: h < |s.holds| ==>
      t.holds[h].keys == s.holds[h].keys && (t.holds[h].released <==> s.holds[h].released || i == Release(h))
    ensures i.Release? ==> i.hold < |s.holds|
  {
    if i.FlushResumes? { ResumeSendsOrNot(s); }
  }

  /** Nothing has told the coordinator or its cache about p so far. */
  ghost predicate Unheard(inputs: seq<Input>, p: Pubkey) {
    forall i :: i in inputs ==> Silent(i, p) && i != CacheStores(p)
  }

  lemma UnheardIsUncached(now: int, run: seq<State>, inputs: seq<Input>, k: nat, p: Pubkey)
    requires IsRun(now, run, inputs) && k <= |inputs| && Unheard(inputs[..k], p)
    ensures p !in run[k].cached
  {
    CachedExactly(now, run, inputs, k, p);
    forall n | 0 <= n < k ensures !Stores(run[n], inputs[n], p) {
      assert inputs[n] == inputs[..k][n] && inputs[n] in inputs[..k];
    }
  }

  /** The key may be asked for again: it never failed, or its cooldown is over. */
  predicate MayBeAsked(s: State, p: Pubkey) { p in s.failures ==> s.failures[p].nextRetryAt <= s.clock }

  /** A dispatch may go out: the boot aggregation is over, and so is the spacing behind the last one. */
  predicate MayGoOut(s: State, at: int) {
    && s.start + BOOT_AGGREGATION_MS <= at
    && LastSentAt(s.dispatches) + DISPATCH_MIN_SPACING_MS <= at
  }

  function LastSentAt(dispatches: seq<Dispatch>): int {
    if dispatches == [] then 0 else dispatches[|dispatches| - 1].at
  }

  ghost predicate Prompt(s: State) {
    && s.lastDispatchAt == LastSentAt(s.dispatches) <= Max(s.clock, 0)
    && (s.bootTimer.Some? ==> s.bootTimer.value <= EarliestDispatchAt(s))
  }

  /** The pacing timer is never set later than the first moment at which a dispatch may go out: from then on
      one may, and at no moment before. */
  lemma {:induction false} PacingIsPrompt(now: int, run: seq<State>, inputs: seq<Input>, k: nat, at: int)
    requires IsRun(now, run, inputs) && k <= |inputs|
    ensures Prompt(run[k])
    ensures MayGoOut(run[k], at) <==> EarliestDispatchAt(run[k]) <= at
    ensures run[k].bootTimer.Some? && MayGoOut(run[k], at) ==> run[k].bootTimer.value <= at
  {
    if k > 0 {
      PacingIsPrompt(now, run, inputs, k - 1, at);
      PromptStep(run[k - 1], inputs[k - 1], run[k]);
    }
  }

  lemma PromptStep(s: State, i: Input, t: State)
    requires Enabled(s, i) && t == Next(s, i) && Prompt(s)
    ensures Prompt(t)
  {
  }

  /** A miss is never terminal: a wanted key that nothing was ever heard of is unserved whenever it is not
      in flight, and from its retry time on every flush that the pacing allows asks for it again. */
  lemma MissesAreAskedAgain(now: int, run: seq<State>, inputs: seq<Input>, k: nat, p: Pubkey)
    requires IsRun(now, run, inputs) && k < |inputs| && Unheard(inputs[..k], p)
    requires p in run[k].wanted && p !in run[k].inFlight
    ensures Unserved(run[k], p)
    ensures inputs[k].FlushResumes? && MayGoOut(run[k], run[k].clock) && MayBeAsked(run[k], p) ==>
      |run[k + 1].dispatches| == |run[k].dispatches| + 1 && p in run[k + 1].dispatches[|run[k].dispatches|].keys
  {
    UnheardIsUncached(now, run, inputs, k, p);
    PacingIsPrompt(now, run, inputs, k, run[k].clock);
    if inputs[k].FlushResumes? {
      assert Enabled(run[k], inputs[k]) && run[k + 1] == Next(run[k], inputs[k]);
      DispatchedExactly(run[k]);
      if MayBeAsked(run[k], p) { assert Due(run[k], p); }
    }
  }


  // ---------------------------------------------------------------- wake-ups

  /** A flush is queued or its pacing timer is armed. */
  predicate Pending(s: State) { s.flushes > 0 || s.bootTimer.Some? }

  /** Something is under way that ends in a flush or in scheduling a retry. */
  ghost predicate Acting(s: State) {
    Pending(s) || s.settling > 0 || exists d :: 0 <= d < |s.dispatches| && s.dispatches[d].outstanding
  }

  predicate Unserved(s: State, p: Pubkey) { p in s.wanted && p !in s.cached && p !in s.inFlight }

  ghost predicate WokenFor(s: State, p: Pubkey) {
    p in s.failures && s.retryTimer.Some? && s.retryTimer.value <= s.failures[p].nextRetryAt
  }

  ghost predicate WakeOk(s: State, p: Pubkey) {
    Unserved(s, p) ==>
      && (p in s.failures || Pending(s))
      && (Cooling(s.failures, p, s.clock) ==> Acting(s) || WokenFor(s, p))
  }

  lemma ScheduleWakes(s: State, p: Pubkey)
    requires Unserved(s, p) ==> p in s.failures || Pending(s)
    ensures WakeOk(ScheduleRetry(s), p)
  {
    EarliestIs(s.wanted.Keys, s.failures, s.clock);
  }

  lemma SendWakes(s: State, p: Pubkey)
    requires Unserved(s, p) && p !in Missing(s) ==> p in s.failures
    ensures WakeOk(Send(s, Missing(s)), p)
  {
    var t := Send(s, Missing(s));
    assert t.dispatches[|s.dispatches|].outstanding;
  }

  lemma FlushWakes(s: State, p: Pubkey)
    ensures WakeOk(Flush(s), p)
  {
    if EarliestDispatchAt(s) > s.clock {
      assert Pending(Flush(s));
    } else if s.wanted == map[] {
      assert !Unserved(Flush(s), p);
    } else {
      assert Unserved(s, p) && p !in s.failures ==> p in Missing(s);
      if Missing(s) == {} { ScheduleWakes(s, p); } else { SendWakes(s, p); }
    }
  }

  lemma ComebackWakes(s: State, d: nat, found: set<Pubkey>, p: Pubkey)
    requires WakeOk(s, p) && d < |s.dispatches|
    ensures WakeOk(Comeback(s, d, found), p)
  {
    var t := Comeback(s, d, found);
    assert t.settling > 0;
    if Unserved(t, p) && p !in s.dispatches[d].keys {
      assert Unserved(s, p);
    }
  }

  lemma WakeDependsOn(s: State, t: State, p: Pubkey)
    requires WakeOk(s, p) && (Pending(s) ==> Pending(t)) && s.settling <= t.settling && t.dispatches == s.dispatches
    requires Unserved(t, p) ==> Unserved(s, p) || Pending(t)
    requires p in s.failures && Unserved(t, p) ==> p in t.failures && t.failures[p] == s.failures[p]
    requires p in t.failures && p !in s.failures ==> t.failures[p].nextRetryAt <= t.clock
    requires s.clock <= t.clock && t.retryTimer == s.retryTimer
    ensures WakeOk(t, p)
  {
    if Acting(s) && !Pending(s) && s.settling == 0 {
      var d :| 0 <= d < |s.dispatches| && s.dispatches[d].outstanding;
      assert t.dispatches[d].outstanding;
    }
  }

  lemma StepWakes(s: State, i: Input, p: Pubkey)
    requires WakeOk(s, p) && Enabled(s, i) && s.clock >= 0 && i != CacheDrops(p)
    ensures WakeOk(Next(s, i), p)
  {
    match i {
      case FlushResumes => FlushWakes(s.(flushes := s.flushes - 1), p);
      case DispatchReturns(d, found) => ComebackWakes(s, d, found, p);
      case DispatchThrows(d) => ComebackWakes(s, d, {}, p);
      case FlushEnds => ScheduleWakes(s.(settling := s.settling - 1), p);
      case BootTimerFires => assert Pending(Next(s, i));
      case RetryTimerFires => assert Pending(Next(s, i));
      case Release(h) =>
        if !s.holds[h].released {
          var u := s.(wanted := Uncounted(s.wanted, s.holds[h].keys),
                      holds := s.holds[h := s.holds[h].(released := true)]);
          assert Unserved(u, p) ==> Unserved(s, p);
          ScheduleWakes(u, p);
        }
      case _ => WakeDependsOn(s, Next(s, i), p);
    }
  }

  /** No cooling key is ever forgotten: while a wanted key is unserved and its cooldown runs, either
      work is under way or the retry timer is set no later than its retry. Only a key whose cooldown
      has already lapsed can be left with nothing to wake it (or one the cache evicted). */
  lemma {:induction false} CoolingKeysAreWoken(now: int, run: seq<State>, inputs: seq<Input>, k: nat, p: Pubkey)
    requires IsRun(now, run, inputs) && k <= |inputs| && now >= 0
    requires forall j :: 0 <= j < k ==> inputs[j] != CacheDrops(p)
    ensures WakeOk(run[k], p)
    ensures Unserved(run[k], p) && !Acting(run[k]) && !WokenFor(run[k], p)
        ==> p in run[k].failures && run[k].failures[p].nextRetryAt <= run[k].clock
  {
    if k > 0 {
      CoolingKeysAreWoken(now, run, inputs, k - 1, p);
      MissesHeal(now, run, inputs, k - 1);
      assert run[k] == Next(run[k - 1], inputs[k - 1]);
      StepWakes(run[k - 1], inputs[k - 1], p);
    }
  }

  /** Scheduling sets a timer exactly when some wanted key's cooldown still runs, for the earliest. */
  lemma RetryIsScheduled(s: State)
    ensures var t := ScheduleRetry(s);
      && (t.retryTimer.Some? <==> exists p :: p in s.wanted && Cooling(s.failures, p, s.clock))
      && (forall p :: p in s.wanted && Cooling(s.failures, p, s.clock) ==> WokenFor(t, p))
  {
    EarliestIs(s.wanted.Keys, s.failures, s.clock);
  }

  /** The input ends in scheduling: it finishes a flush or releases a hold. */
  predicate Schedules(s: State, i: Input) {
    i.FlushEnds? || i.FlushResumes? || (i.Release? && i.hold < |s.holds| && !s.holds[i.hold].released)
  }

  lemma FlushRests(s: State)
    requires !Acting(Flush(s)) && Flush(s).wanted != map[]
    ensures Flush(s) == ScheduleRetry(s)
  {
    if EarliestDispatchAt(s) <= s.clock && Missing(s) != {} { SendingActs(s, Missing(s)); }
  }

  lemma SendingActs(s: State, keys: set<Pubkey>)
    ensures Acting(Send(s, keys))
  {
    assert Send(s, keys).dispatches[|s.dispatches|].outstanding;
  }

  lemma RestIsScheduled(s: State, i: Input)
    requires Enabled(s, i) && Schedules(s, i) && !Acting(Next(s, i)) && Next(s, i).wanted != map[]
    ensures var t := Next(s, i); t.retryTimer == Earliest(t.wanted.Keys, t.failures, t.clock)
  {
    if i.FlushResumes? { FlushRests(s.(flushes := s.flushes - 1)); }
  }

  /** The coordinator has rested ever since the j-th input made it schedule. */
  ghost predicate RestsSince(run: seq<State>, inputs: seq<Input>, j: nat, k: nat)
    requires |run| == |inputs| + 1 && k <= |inputs|
  {
    && 0 < j <= k && Schedules(run[j - 1], inputs[j - 1])
    && (forall m :: j <= m <= k ==> !Acting(run[m]))
    && (forall m :: j <= m < k ==> !Schedules(run[m], inputs[m]))
  }

  /** Rest is entered by scheduling, and until the next scheduling changes neither demand nor timer. */
  lemma RestStep(s: State, i: Input, t: State)
    requires Enabled(s, i) && t == Next(s, i) && !Acting(t) && t.wanted != map[] && !Schedules(s, i)
    ensures !Acting(s) && t.wanted == s.wanted && t.retryTimer == s.retryTimer
  {
    assert t.settling == 0 && t.dispatches == s.dispatches;
  }

  ghost predicate WokenSince(run: seq<State>, inputs: seq<Input>, j: nat, k: nat)
    requires |run| == |inputs| + 1 && k <= |inputs|
  {
    RestsSince(run, inputs, j, k) && run[k].wanted == run[j].wanted
    && IsEarliest(run[j].wanted.Keys, run[j].failures, run[j].clock, run[k].retryTimer)
  }

  /** Exactly when a key is left without a wake-up, at every moment of any run: while the coordinator
      rests with a wanted key unserved, its timer is still the one of its last scheduling, and that is
      none if and only if no wanted key was cooling then, and otherwise the first to cool down. */
  lemma {:induction false} RestWakesExactly(now: int, run: seq<State>, inputs: seq<Input>, k: nat)
    requires IsRun(now, run, inputs) && k <= |inputs| && !Acting(run[k]) && run[k].wanted != map[]
    ensures exists j :: WokenSince(run, inputs, j, k)
  {
    if k > 0 {
      var s, i, t := run[k - 1], inputs[k - 1], run[k];
      assert t == Next(s, i);
      if Schedules(s, i) {
        RestIsScheduled(s, i);
        EarliestIs(t.wanted.Keys, t.failures, t.clock);
        assert WokenSince(run, inputs, k, k);
      } else {
        RestStep(s, i, t);
        RestWakesExactly(now, run, inputs, k - 1);
        var j :| WokenSince(run, inputs, j, k - 1);
        assert WokenSince(run, inputs, j, k);
      }
    }
  }

  // ---------------------------------------------------------------- a wake-up that is lost

  function Wanting(p: Pubkey, flushes: nat): State {
    State(0, 60_000, true, {}, map[p := 1], [Hold({p}, false)], {}, map[], [], 0, flushes, 0, None, None)
  }

  function Asked(p: Pubkey): State {
    State(0, 60_000, true, {}, map[p := 1], [Hold({p}, false)], {p}, map[], [Dispatch({p}, 60_000, true)],
          60_000, 0, 0, None, None)
  }

  function Thrown(p: Pubkey): State {
    State(0, 60_000, true, {}, map[p := 1], [Hold({p}, false)], {}, map[p := FailedFetch(1, 90_000)],
          [Dispatch({p}, 60_000, false)], 60_000, 0, 1, None, None)
  }

  /** A key has missed once, at 60 s, and been released; its cooldown ends at 90 s. */
  function Cooled(p: Pubkey): State {
    State(0, 60_000, true, {}, map[], [Hold({p}, true)], {}, map[p := FailedFetch(1, 90_000)],
          [Dispatch({p}, 60_000, false)], 60_000, 0, 0, None, None)
  }

  /** At 70 s it is wanted again, together with q; only q is asked for. */
  function Rejoined(p: Pubkey, q: Pubkey, flushes: nat): State {
    Cooled(p).(clock := 70_000, wanted := map[p := 1, q := 1],
               holds := [Hold({p}, true), Hold({p, q}, false)], flushes := flushes)
  }

  function AskedOther(p: Pubkey, q: Pubkey): State {
    Rejoined(p, q, 0).(inFlight := {q}, lastDispatchAt := 70_000,
                       dispatches := [Dispatch({p}, 60_000, false), Dispatch({q}, 70_000, true)])
  }

  /** q's answer takes until 100 s; nothing is left that would ever ask for p again. */
  function Abandoned(p: Pubkey, q: Pubkey): State {
    Rejoined(p, q, 0).(clock := 100_000, cached := {q}, lastDispatchAt := 70_000,
                       dispatches := [Dispatch({p}, 60_000, false), Dispatch({q}, 70_000, false)])
  }

  lemma StepsToWanting(p: Pubkey)
    ensures Next(Next(Next(Initial(0), Hydrated), Elapsed(60_000)), Retain({p})) == Wanting(p, 1)
  {
    assert Counted(map[], {p}) == map[p := 1];
  }

  lemma StepToAsked(p: Pubkey)
    ensures Next(Wanting(p, 1), FlushResumes) == Asked(p)
  {
    assert p in Missing(Wanting(p, 0));
    assert Missing(Wanting(p, 0)) == {p};
  }

  lemma StepToThrown(p: Pubkey)
    ensures Next(Asked(p), DispatchThrows(0)) == Thrown(p)
  {
    var found: set<Pubkey> := {};
    SmallPowers();
    assert Failure(0, 60_000) == FailedFetch(1, 90_000);
    var t := Comeback(Asked(p), 0, found);
    assert t.failures == map[p := FailedFetch(1, 90_000)];
    assert t.inFlight == {} && t.cached == {};
  }

  lemma StepsToCooled(p: Pubkey)
    ensures Next(Next(Thrown(p), FlushEnds), Release(0)) == Cooled(p)
  {
    assert Uncounted(Thrown(p).wanted, {p}) == map[];
    EarliestIs({}, Thrown(p).failures, 60_000);
  }

  lemma StepsToRejoined(p: Pubkey, q: Pubkey)
    requires p != q
    ensures Next(Next(Cooled(p), Elapsed(10_000)), Retain({p, q})) == Rejoined(p, q, 1)
  {
    assert Counted(map[], {p, q}) == map[p := 1, q := 1];
  }

  lemma StepToAskedOther(p: Pubkey, q: Pubkey)
    requires p != q
    ensures Next(Rejoined(p, q, 1), FlushResumes) == AskedOther(p, q)
  {
    assert q in Missing(Rejoined(p, q, 0));
    assert Missing(Rejoined(p, q, 0)) == {q};
  }

  lemma StepsToAbandoned(p: Pubkey, q: Pubkey)
    requires p != q
    ensures Next(Next(Next(AskedOther(p, q), Elapsed(30_000)), DispatchReturns(1, {q})), FlushEnds) == Abandoned(p, q)
  {
    var s := Next(AskedOther(p, q), Elapsed(30_000));
    var ledger := s.failures;
    var found := {q};
    assert found * {q} == {q} && ledger - {q} == ledger && {q} - {q} == {};
    assert Missed(ledger, {}, 100_000) == ledger;
    assert Comeback(s, 1, {q}).inFlight == {};
    EarliestIs(s.wanted.Keys, ledger, 100_000);
  }

  /** Some run of a service created at time 0, without evictions, comes to this state. */
  ghost predicate Reachable(t: State) {
    exists run, inputs: seq<Input> ::
      IsRun(0, run, inputs) && run[|inputs|] == t && forall i :: i in inputs ==> !i.CacheDrops?
  }

  lemma Go(s: State, i: Input, t: State)
    requires Reachable(s) && Enabled(s, i) && Next(s, i) == t && !i.CacheDrops?
    ensures Reachable(t)
  {
    var run, inputs: seq<Input> :|
      IsRun(0, run, inputs) && run[|inputs|] == s && forall i :: i in inputs ==> !i.CacheDrops?;
    var run', inputs' := run + [t], inputs + [i];
    assert IsRun(0, run', inputs') && run'[|inputs'|] == t;
  }

  lemma CooledIsReachable(p: Pubkey)
    ensures Reachable(Cooled(p))
  {
    var s0 := Initial(0);
    var s1 := Next(s0, Hydrated);
    var s2 := Next(s1, Elapsed(60_000));
    assert IsRun(0, [s0], []);
    assert Reachable(s0);
    Go(s0, Hydrated, s1);
    Go(s1, Elapsed(60_000), s2);
    StepsToWanting(p);
    Go(s2, Retain({p}), Wanting(p, 1));
    StepToAsked(p);
    Go(Wanting(p, 1), FlushResumes, Asked(p));
    StepToThrown(p);
    Go(Asked(p), DispatchThrows(0), Thrown(p));
    StepsToCooled(p);
    var s6 := Next(Thrown(p), FlushEnds);
    Go(Thrown(p), FlushEnds, s6);
    Go(s6, Release(0), Cooled(p));
  }

  lemma AskedOtherIsReachable(p: Pubkey, q: Pubkey)
    requires p != q
    ensures Reachable(AskedOther(p, q))
  {
    CooledIsReachable(p);
    var s8 := Next(Cooled(p), Elapsed(10_000));
    Go(Cooled(p), Elapsed(10_000), s8);
    StepsToRejoined(p, q);
    Go(s8, Retain({p, q}), Rejoined(p, q, 1));
    StepToAskedOther(p, q);
    Go(Rejoined(p, q, 1), FlushResumes, AskedOther(p, q));
  }

  lemma AbandonedIsReachable(p: Pubkey, q: Pubkey, s: State, s11: State, s12: State)
    requires p != q && s == AskedOther(p, q)
    requires s11 == Next(s, Elapsed(30_000)) && Enabled(s11, DispatchReturns(1, {q}))
      && s12 == Next(s11, DispatchReturns(1, {q}))
    requires Enabled(s12, FlushEnds) && Next(s12, FlushEnds) == Abandoned(p, q)
    ensures Reachable(Abandoned(p, q))
  {
    AskedOtherIsReachable(p, q);
    Go(s, Elapsed(30_000), s11);
    Go(s11, DispatchReturns(1, {q}), s12);
    Go(s12, FlushEnds, Abandoned(p, q));
  }

  /** The heartbeat does lose a key: it lapsed while the other key's fetch was out, so when that came
      back no timer was set for it. It is still wanted, was never found, and nothing is under way. */
  lemma LapsedKeyIsAbandoned(p: Pubkey, q: Pubkey)
    requires p != q
    ensures exists s :: Reachable(s) && Unserved(s, p) && !Acting(s) && s.retryTimer.None?
  {
    var s := AskedOther(p, q);
    var s11 := Next(s, Elapsed(30_000));
    var s12 := Next(s11, DispatchReturns(1, {q}));
    StepsToAbandoned(p, q);
    AbandonedIsReachable(p, q, s, s11, s12);
    NothingActs(p, q);
  }

  lemma NothingActs(p: Pubkey, q: Pubkey)
    requires p != q
    ensures var s := Abandoned(p, q); Unserved(s, p) && !Acting(s) && s.retryTimer.None?
  {
  }

  // ---------------------------------------------------------------- the helpers

  function MissingAmong(pubkeys: set<Pubkey>, cached: set<Pubkey>, requested: set<Pubkey>, failures: Ledger,
                        now: int): set<Pubkey>
  {
    set p | p in pubkeys && p !in cached && p !in requested && !Cooling(failures, p, now)
  }

  method PartitionPubkeys(pubkeys: set<Pubkey>, cached: set<Pubkey>, requested: set<Pubkey>, failures: Ledger, now: int)
    returns (cachedProfiles: set<Pubkey>, missing: set<Pubkey>)
    ensures cachedProfiles == pubkeys * cached
    ensures missing == set p | p in pubkeys && p !in cached && p !in requested && !Cooling(failures, p, now)
  {
    cachedProfiles, missing := {}, {};
    var todo := pubkeys;
    ghost var seen: set<Pubkey> := {};
    while todo != {}
      invariant seen + todo == pubkeys
      invariant cachedProfiles == seen * cached && missing == MissingAmong(seen, cached, requested, failures, now)
      decreases |todo|
    {
      var p :| p in todo;
      todo, seen := todo - {p}, seen + {p};
      if p in cached {
        cachedProfiles := cachedProfiles + {p};
      } else if p in requested {
        continue;
      } else if p in failures && now < failures[p].nextRetryAt {
        continue;
      } else {
        missing := missing + {p};
      }
    }
  }

  method EarliestRetryAt(pubkeys: set<Pubkey>, failures: Ledger, now: int) returns (earliest: Option<int>)
    ensures IsEarliest(pubkeys, failures, now, earliest)
  {
    earliest := None;
    var todo := pubkeys;
    while todo != {}
      invariant todo <= pubkeys
      invariant IsEarliest(pubkeys - todo, failures, now, earliest)
      decreases |todo|
    {
      var p :| p in todo;
      ghost var seen := pubkeys - todo;
      todo := todo - {p};
      assert pubkeys - todo == seen + {p};
      if p in failures && now < failures[p].nextRetryAt {
        if earliest.None? || failures[p].nextRetryAt < earliest.value {
          earliest := Some(failures[p].nextRetryAt);
        }
      }
    }
    assert pubkeys - todo == pubkeys;
  }

  lemma MissedOneMore(failures: Ledger, seen: set<Pubkey>, p: Pubkey, now: int)
    requires p !in seen
    ensures Recorded(Missed(failures, seen, now), p, now) == Missed(failures, seen + {p}, now)
  {
  }

  lemma MissedNone(failures: Ledger, now: int)
    ensures Missed(failures, {}, now) == failures
  {
  }

  /** The keys before and after one of those to come is taken. */
  predicate Divides(keys: set<Pubkey>, seen: set<Pubkey>, todo: set<Pubkey>) { seen + todo == keys && seen !! todo }

  method RecordMisses(failures: Ledger, keys: set<Pubkey>, now: int) returns (after: Ledger)
    ensures after == Missed(failures, keys, now)
  {
    after := failures;
    MissedNone(failures, now);
    var todo := keys;
    ghost var seen: set<Pubkey> := {};
    while todo != {}
      invariant Divides(keys, seen, todo) && after == Missed(failures, seen, now)
      decreases |todo|
    {
      var p :| p in todo;
      after := RecordNext(failures, seen, after, p, now);
      todo, seen := todo - {p}, seen + {p};
    }
    assert seen == keys;
  }

  method RecordNext(failures: Ledger, ghost seen: set<Pubkey>, before: Ledger, p: Pubkey, now: int)
    returns (after: Ledger)
    requires p !in seen && before == Missed(failures, seen, now)
    ensures after == Missed(failures, seen + {p}, now)
  {
    MissedOneMore(failures, seen, p, now);
    after := RecordFailedProfileFetch(before, p, now);
  }

  method ApplyBootFastRetryLane(failures: Ledger, keys: set<Pubkey>, start: int, now: int) returns (after: Ledger)
    ensures after == FastLane(failures, keys, start, now)
  {
    after := failures;
    if now >= start + FAST_RETRY_WINDOW_MS { return; }
    var fastRetryAt := RoundUp(now + FAST_RETRY_MS, FAST_RETRY_MS);
    var todo := keys;
    while todo != {}
      invariant todo <= keys && after == FastLane(failures, keys - todo, start, now)
      decreases |todo|
    {
      var p :| p in todo;
      ghost var done := keys - todo;
      todo := todo - {p};
      assert keys - todo == done + {p};
      if p in after && !Exhausted(after[p]) && after[p].attempts <= FAST_RETRY_MAX_ATTEMPTS {
        after := after[p := after[p].(nextRetryAt := Min(after[p].nextRetryAt, fastRetryAt))];
      }
    }
    assert keys - todo == keys;
  }

  /** What a batch's outcome leaves in the ledger: found keys are forgotten, the others have missed
      once more, and early misses of the first minute are pulled forward. */
  method ApplyOutcome(failures: Ledger, keys: set<Pubkey>, found: set<Pubkey>, start: int, now: int)
    returns (after: Ledger)
    ensures after == FastLane(Missed(failures - found * keys, keys - found, now), keys, start, now)
  {
    var recorded := RecordMisses(failures - found * keys, keys - found, now);
    after := ApplyBootFastRetryLane(recorded, keys, start, now);
  }

  lemma CountedOneMore(wanted: map<Pubkey, nat>, seen: set<Pubkey>, p: Pubkey)
    requires p !in seen
    ensures var before := Counted(wanted, seen);
      before[p := (if p in before then before[p] else 0) + 1] == Counted(wanted, seen + {p})
  {
  }

  lemma UncountedOneMore(wanted: map<Pubkey, nat>, seen: set<Pubkey>, p: Pubkey)
    requires p !in seen
    ensures var before, after := Uncounted(wanted, seen), Uncounted(wanted, seen + {p});
      if p !in before then after == before
      else if before[p] <= 1 then after == before - {p}
      else after == before[p := before[p] - 1]
  {
  }

  method CountIn(wanted: map<Pubkey, nat>, keys: set<Pubkey>) returns (after: map<Pubkey, nat>)
    ensures after == Counted(wanted, keys)
  {
    after := wanted;
    var todo := keys;
    ghost var seen: set<Pubkey> := {};
    while todo != {}
      invariant seen + todo == keys && seen !! todo && after == Counted(wanted, seen)
      decreases |todo|
    {
      var p :| p in todo;
      CountedOneMore(wanted, seen, p);
      after := after[p := (if p in after then after[p] else 0) + 1];
      assert after == Counted(wanted, seen + {p});
      todo, seen := todo - {p}, seen + {p};
    }
  }

  /** A count that reaches zero leaves the map. */
  method CountOut(wanted: map<Pubkey, nat>, keys: set<Pubkey>) returns (after: map<Pubkey, nat>)
    ensures after == Uncounted(wanted, keys)
  {
    after := wanted;
    var todo := keys;
    ghost var seen: set<Pubkey> := {};
    while todo != {}
      invariant seen + todo == keys && seen !! todo && after == Uncounted(wanted, seen)
      decreases |todo|
    {
      var p :| p in todo;
      UncountedOneMore(wanted, seen, p);
      todo, seen := todo - {p}, seen + {p};
      if p in after {
        after := if after[p] <= 1 then after - {p} else after[p := after[p] - 1];
      }
    }
  }

  lemma SeededOneMore(failures: Ledger, seen: set<Pubkey>, p: Pubkey)
    ensures var before := Seeded(failures, seen);
      Seeded(failures, seen + {p}) == if p in before then before else before[p := FailedFetch(RETRY_MAX_ATTEMPTS, 0)]
  {
  }

  // ---------------------------------------------------------------- the coordinator itself

  class ProfileRequestCoordinator {
    const start: int
    var clock: int
    var hydrated: bool
    var cached: set<Pubkey>
    var wanted: map<Pubkey, nat>
    var holds: seq<Hold>
    var inFlight: set<Pubkey>
    var failures: Ledger
    var dispatches: seq<Dispatch>
    var lastDispatchAt: int
    var flushes: nat
    var settling: nat
    var bootTimer: Option<int>
    var retryTimer: Option<int>

    ghost function View(): State reads this {
      State(start, clock, hydrated, cached, wanted, holds, inFlight, failures, dispatches, lastDispatchAt,
            flushes, settling, bootTimer, retryTimer)
    }

    constructor (now: int)
      ensures View() == Initial(now)
    {
      start, clock, hydrated, cached, wanted, holds := now, now, false, {}, map[], [];
      inFlight, failures, dispatches, lastDispatchAt := {}, map[], [], 0;
      flushes, settling, bootTimer, retryTimer := 0, 0, None, None;
    }

    method RetainKeys(keys: set<Pubkey>)
      modifies this`wanted, this`holds, this`flushes
      ensures View() == Next(old(View()), Retain(keys))
    {
      wanted := CountIn(wanted, keys);
      holds := holds + [Hold(keys, false)];
      flushes := flushes + 1;
    }

    method ReleaseHold(h: nat)
      requires Enabled(View(), Release(h))
      modifies this`wanted, this`holds, this`retryTimer
      ensures View() == Next(old(View()), Release(h))
    {
      if holds[h].released { return; }
      wanted := CountOut(wanted, holds[h].keys);
      holds := holds[h := holds[h].(released := true)];
      Schedule();
    }

    method Schedule()
      modifies this`retryTimer
      ensures View() == ScheduleRetry(old(View()))
    {
      var earliest := EarliestRetryAt(wanted.Keys, failures, clock);
      EarliestIs(wanted.Keys, failures, clock);
      EarliestIsUnique(wanted.Keys, failures, clock, earliest, Earliest(wanted.Keys, failures, clock));
      retryTimer := earliest;
    }

    /** flush from its first await on. */
    method ResumeFlush()
      requires Enabled(View(), FlushResumes)
      modifies this`flushes, this`bootTimer, this`retryTimer, this`lastDispatchAt, this`inFlight, this`dispatches
      ensures View() == Next(old(View()), FlushResumes)
    {
      flushes := flushes - 1;
      var earliestDispatchAt := Max(start + BOOT_AGGREGATION_MS, lastDispatchAt + DISPATCH_MIN_SPACING_MS);
      if earliestDispatchAt > clock {
        if bootTimer.None? { bootTimer := Some(earliestDispatchAt); }
        return;
      }
      if wanted == map[] {
        retryTimer := None;
        return;
      }
      var _, missing := PartitionPubkeys(wanted.Keys, cached, inFlight, failures, clock);
      assert missing == Missing(View());
      if missing == {} {
        Schedule();
      } else {
        lastDispatchAt := clock;
        inFlight := inFlight + missing;
        dispatches := dispatches + [Dispatch(missing, clock, true)];
      }
    }

    method OnFlushEnd()
      requires Enabled(View(), FlushEnds)
      modifies this`settling, this`retryTimer
      ensures View() == Next(old(View()), FlushEnds)
    {
      settling := settling - 1;
      Schedule();
    }

    method OnDispatchReturned(d: nat, found: set<Pubkey>)
      requires Enabled(View(), DispatchReturns(d, found))
      modifies this`cached, this`failures, this`inFlight, this`dispatches, this`settling
      ensures View() == Next(old(View()), DispatchReturns(d, found))
    {
      var keys := dispatches[d].keys;
      cached := cached + found * keys;
      failures := ApplyOutcome(failures, keys, found, start, clock);
      inFlight := inFlight - keys;
      dispatches := dispatches[d := dispatches[d].(outstanding := false)];
      settling := settling + 1;
    }

    method OnDispatchThrew(d: nat)
      requires Enabled(View(), DispatchThrows(d))
      modifies this`failures, this`inFlight, this`dispatches, this`settling
      ensures View() == Next(old(View()), DispatchThrows(d))
    {
      var keys := dispatches[d].keys;
      ghost var none: set<Pubkey> := {};
      assert cached + none * keys == cached;
      inFlight := inFlight - keys;
      failures := ApplyOutcome(failures, keys, {}, start, clock);
      dispatches := dispatches[d := dispatches[d].(outstanding := false)];
      settling := settling + 1;
    }

    method OnBootTimer()
      requires Enabled(View(), BootTimerFires)
      modifies this`bootTimer, this`flushes
      ensures View() == Next(old(View()), BootTimerFires)
    {
      bootTimer := None;
      flushes := flushes + 1;
    }

    method OnRetryTimer()
      requires Enabled(View(), RetryTimerFires)
      modifies this`retryTimer, this`flushes
      ensures View() == Next(old(View()), RetryTimerFires)
    {
      retryTimer := None;
      flushes := flushes + 1;
    }

    method OnMissesHydrated(missed: set<Pubkey>)
      modifies this`failures
      ensures View() == Next(old(View()), MissesLoaded(missed))
    {
      var todo := missed;
      ghost var seen: set<Pubkey> := {};
      assert failures == Seeded(failures, seen);
      while todo != {}
        invariant seen + todo == missed && failures == Seeded(old(failures), seen)
        decreases |todo|
      {
        var p :| p in todo;
        SeededOneMore(old(failures), seen, p);
        todo, seen := todo - {p}, seen + {p};
        if p !in failures { failures := failures[p := FailedFetch(RETRY_MAX_ATTEMPTS, 0)]; }
      }
    }

    method ApplyEarlyProfileEvent(key: Pubkey)
      modifies this`cached, this`failures
      ensures View() == Next(old(View()), EarlyProfile(key))
    {
      cached := cached + {key};
      failures := failures - {key};
    }
  }
}
