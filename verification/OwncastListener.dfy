/** The reconnect machine of the Owncast chat listener.

    Each await-free stretch of the listener is one input. `probing` and `registering` count the
    connect() calls suspended at their two awaits and `sockets` the sockets whose close is still to
    come, so nothing in the model presupposes that only one of them is ever alive. */
module OwncastListener {
  import opened Doubling
  import opened Options

  const MAX_CONSECUTIVE_FAILURES := 5
  const FIRST_DELAY_MS := 15_000
  const MAX_RECONNECT_DELAY_MS := 300_000
  const DORMANT_INTERVAL_MS := 1_800_000
  const MIN_HEALTHY_CONNECTION_MS := 30_000

  /** An armed reconnect timer; `slow` when it was armed on the dormant cadence. */
  datatype Timer = Timer(since: int, delay: int, slow: bool)

  /** The observable history: every dial, with the arming that led to it, and every proof of health. */
  datatype Mark = Dial(at: int, slow: bool, armedAt: int) | Healthy(at: int)

  datatype State = State(
    clock: int,
    stopped: bool,
    failures: nat,
    dormant: bool,
    provenHealthy: bool,
    reconnectDelay: int,
    reconnectTimer: Option<Timer>,
    healthyDue: Option<int>,
    probing: nat,
    registering: nat,
    sockets: set<nat>,
    handshaken: set<nat>,
    held: Option<nat>,            // the socket this.ws refers to
    closeAsked: set<nat>,         // the sockets stop() has closed
    log: seq<Mark>)

  datatype Input =
    | ConfigAnswered(chatDisabled: bool)
    | Registered(socket: nat)
    | RegisterFailed
    | SocketOpened(socket: nat)
    | SocketClosed(socket: nat)
    | HealthyTimerFires
    | ReconnectTimerFires
    | StopCalled
    | Elapsed(ms: nat)

  // ------------------------------------------------------------ the steps

  function Connect(s: State, slow: bool, armedAt: int): State {
    if s.stopped then s
    else s.(probing := s.probing + 1, log := s.log + [Dial(s.clock, slow, armedAt)])
  }

  /** start(), called once at time `now` on a new listener. */
  function Started(now: int): State {
    Connect(State(now, false, 0, false, false, FIRST_DELAY_MS, None, None, 0, 0, {}, {}, None, {}, []), false, now)
  }

  function Arm(s: State, delay: int, slow: bool): State {
    if s.stopped || s.reconnectTimer.Some? then s
    else s.(reconnectTimer := Some(Timer(s.clock, delay, slow)))
  }

  function Doubled(delay: int): int {
    if delay * 2 < MAX_RECONNECT_DELAY_MS then delay * 2 else MAX_RECONNECT_DELAY_MS
  }

  function ScheduleReconnect(s: State, countAsFailure: bool): State {
    if s.stopped || s.reconnectTimer.Some? then s
    else
      var t := s.(failures := if countAsFailure then s.failures + 1 else s.failures);
      var u := if t.failures >= MAX_CONSECUTIVE_FAILURES then t.(dormant := true) else t;
      if u.dormant then Arm(u, DORMANT_INTERVAL_MS, true)
      else Arm(u.(reconnectDelay := Doubled(u.reconnectDelay)), u.reconnectDelay, false)
  }

  function MarkHealthy(s: State): State {
    s.(healthyDue := None, provenHealthy := true, failures := 0, reconnectDelay := FIRST_DELAY_MS,
       dormant := false, log := s.log + [Healthy(s.clock)])
  }

  /** When an input can occur: a suspended call resumes, a socket opens at most once and closes
      once, and timers are never early. They may be late by any amount. */
  ghost predicate Enabled(s: State, i: Input) {
    match i
    case ConfigAnswered(_) => s.probing > 0
    case Registered(socket) => s.registering > 0 && socket !in s.sockets && socket !in s.handshaken
    case RegisterFailed => s.registering > 0
    case SocketOpened(socket) => socket in s.sockets && socket !in s.handshaken
    case SocketClosed(socket) => socket in s.sockets
    case HealthyTimerFires => s.healthyDue.Some? && s.clock >= s.healthyDue.value
    case ReconnectTimerFires =>
      s.reconnectTimer.Some? && s.clock >= s.reconnectTimer.value.since + s.reconnectTimer.value.delay
    case StopCalled => true
    case Elapsed(_) => true
  }

  function Next(s: State, i: Input): State
    requires Enabled(s, i)
  {
    match i
    case ConfigAnswered(chatDisabled) =>
      var t := s.(probing := s.probing - 1);
      if chatDisabled then Arm(t.(dormant := true), DORMANT_INTERVAL_MS, true)
      else if t.stopped then t
      else t.(registering := t.registering + 1)
    case Registered(socket) =>
      var t := s.(registering := s.registering - 1);
      if t.stopped then t else t.(sockets := t.sockets + {socket}, held := Some(socket), provenHealthy := false)
    case RegisterFailed => ScheduleReconnect(s.(registering := s.registering - 1), true)
    case SocketOpened(socket) =>
      s.(handshaken := s.handshaken + {socket}, healthyDue := Some(s.clock + MIN_HEALTHY_CONNECTION_MS))
    case SocketClosed(socket) =>
      ScheduleReconnect(s.(sockets := s.sockets - {socket}, healthyDue := None), !s.provenHealthy)
    case HealthyTimerFires => MarkHealthy(s)
    case ReconnectTimerFires =>
      var timer := s.reconnectTimer.value;
      Connect(s.(reconnectTimer := None), timer.slow, timer.since)
    case StopCalled =>
      var asked := s.closeAsked + if s.held.Some? then {s.held.value} else {};
      s.(stopped := true, reconnectTimer := None, healthyDue := None, held := None, closeAsked := asked)
    case Elapsed(ms) => s.(clock := s.clock + ms)
  }

  /** The states reached from start() by some run of inputs, listed in order. */
  ghost predicate IsRun(run: seq<State>, inputs: seq<Input>) {
    && |run| == |inputs| + 1
    && run[0] == Started(run[0].clock)
    && forall k :: 0 <= k < |inputs| ==> Enabled(run[k], inputs[k]) && run[k + 1] == Next(run[k], inputs[k])
  }

  // ------------------------------------------------------------ the invariant

  /** How many things currently hold the promise of another attempt. */
  function Pending(s: State): nat {
    s.probing + s.registering + |s.sockets| + if s.reconnectTimer.Some? then 1 else 0
  }

  function FastSinceHealthy(log: seq<Mark>): nat {
    if log == [] || log[|log| - 1].Healthy? then 0
    else FastSinceHealthy(log[..|log| - 1]) + if log[|log| - 1].slow then 0 else 1
  }

  predicate SlowSinceHealthy(log: seq<Mark>) {
    log != [] && log[|log| - 1].Dial? && (log[|log| - 1].slow || SlowSinceHealthy(log[..|log| - 1]))
  }

  /** The failure budget against the dials spent since start or the last healthy connection. */
  ghost predicate Budget(s: State) {
    && FastSinceHealthy(s.log) <= MAX_CONSECUTIVE_FAILURES
    && (!s.dormant ==>
        && s.failures < MAX_CONSECUTIVE_FAILURES
        && !SlowSinceHealthy(s.log)
        && FIRST_DELAY_MS <= s.reconnectDelay <= FIRST_DELAY_MS * Pow2(s.failures + 1)
        && (s.stopped || FastSinceHealthy(s.log) ==
             s.failures + if s.reconnectTimer.Some? || (s.sockets != {} && s.provenHealthy) then 0 else 1))
    && (s.provenHealthy && s.sockets != {} ==>
        && s.sockets <= s.handshaken && s.failures == 0
        && s.reconnectDelay == FIRST_DELAY_MS && !s.dormant)
  }

  ghost predicate TimersSane(s: State) {
    && (s.healthyDue.Some? ==> s.sockets <= s.handshaken)
    && (s.healthyDue.Some? && !s.stopped ==> s.sockets != {} && !s.provenHealthy)
    && (s.reconnectTimer.Some? ==>
        var t := s.reconnectTimer.value;
        && !s.stopped && (t.slow <==> s.dormant)
        && t.since <= s.clock
        && (t.slow ==> t.delay == DORMANT_INTERVAL_MS)
        && (!t.slow ==> FIRST_DELAY_MS <= t.delay <= 240_000))
  }

  /** A slow dial comes half an hour after it was armed, and so after the mark before it. */
  ghost predicate SlowGap(log: seq<Mark>, j: nat)
    requires 0 < j < |log| && log[j].Dial?
  {
    && log[j].at >= log[j - 1].at + DORMANT_INTERVAL_MS
    && log[j].at >= log[j].armedAt + DORMANT_INTERVAL_MS
  }

  /** In the history, time runs forwards and no slow dial is early. */
  ghost predicate Paced(log: seq<Mark>) {
    && (forall i, j :: 0 <= i < j < |log| ==> log[i].at <= log[j].at)
    && (forall j {:trigger SlowGap(log, j)} :: 0 < j < |log| && log[j].Dial? && log[j].slow ==> SlowGap(log, j))
  }

  /** The socket still to close is the one this.ws holds or, after stop(), one stop() has closed. */
  ghost predicate SocketOwned(s: State) {
    && (s.stopped ==> s.sockets <= s.closeAsked)
    && (!s.stopped ==> s.closeAsked == {} && forall x :: x in s.sockets ==> s.held == Some(x))
  }

  ghost predicate Inv(s: State) {
    && Pending(s) <= 1
    && SocketOwned(s)
    && (!s.stopped ==> Pending(s) == 1)
    && Budget(s)
    && TimersSane(s)
    && s.log != [] && (s.log[0].Dial? && !s.log[0].slow)
    && Paced(s.log)
    && (forall j :: 0 <= j < |s.log| ==> s.log[j].at <= s.clock)
    && (s.reconnectTimer.Some? ==> s.log[|s.log| - 1].at <= s.reconnectTimer.value.since)
  }

  lemma {:induction false} InitiallyInv(now: int)
    ensures Inv(Started(now))
  {
    assert Pow2(1) == 2;
  }

  lemma {:induction false} StepKeepsInv(s: State, i: Input)
    requires Inv(s) && Enabled(s, i)
    ensures Inv(Next(s, i))
  {
    match i
    case SocketClosed(socket) =>
      OneSocket(s, socket);
      ScheduleKeepsInv(s, s.(sockets := s.sockets - {socket}, healthyDue := None), !s.provenHealthy);
    case RegisterFailed =>
      ScheduleKeepsInv(s, s.(registering := s.registering - 1), true);
    case ReconnectTimerFires => RedialKeepsInv(s);
    case HealthyTimerFires => HealthKeepsInv(s);
    case SocketOpened(socket) => OpeningKeepsInv(s, socket);
    case StopCalled => StoppingKeepsInv(s);
    case _ => OthersKeepInv(s, i);
  }

  lemma OpeningKeepsInv(s: State, socket: nat)
    requires Inv(s) && Enabled(s, SocketOpened(socket))
    ensures Inv(Next(s, SocketOpened(socket)))
  {
    OneSocket(s, socket);
  }

  lemma StoppingKeepsInv(s: State)
    requires Inv(s) && Enabled(s, StopCalled)
    ensures Inv(Next(s, StopCalled))
  {
  }

  lemma OthersKeepInv(s: State, i: Input)
    requires Inv(s) && Enabled(s, i) && (i.ConfigAnswered? || i.Registered? || i.Elapsed?)
    ensures Inv(Next(s, i))
  {
    if i.ConfigAnswered? {
      ConfigKeepsInv(s, i.chatDisabled);
    } else if i.Registered? {
      RegisteredKeepsInv(s, i.socket);
    }
  }

  lemma ConfigKeepsInv(s: State, chatDisabled: bool)
    requires Inv(s) && Enabled(s, ConfigAnswered(chatDisabled))
    ensures Inv(Next(s, ConfigAnswered(chatDisabled)))
  {
  }

  lemma RegisteredKeepsInv(s: State, socket: nat)
    requires Inv(s) && Enabled(s, Registered(socket))
    ensures Inv(Next(s, Registered(socket)))
  {
  }

  /** Once the last attempt is gone, scheduling arms exactly one timer within budget. */
  lemma ScheduleKeepsInv(s: State, t: State, countAsFailure: bool)
    requires Inv(s) && Pending(s) == 1 && s.reconnectTimer.None? && s.probing == 0
    requires t == s.(sockets := {}, registering := 0, healthyDue := t.healthyDue)
    requires t.healthyDue.Some? ==> t.stopped
    requires countAsFailure <==> !(s.provenHealthy && s.sockets != {})
    ensures Inv(ScheduleReconnect(t, countAsFailure))
  {
    assert Pending(t) == 0;
    PowersUpToFive(s.failures);
    PowersUpToFive(s.failures + 1);
  }

  lemma RedialKeepsInv(s: State)
    requires Inv(s) && Enabled(s, ReconnectTimerFires)
    ensures Inv(Next(s, ReconnectTimerFires))
  {
    var m := Dial(s.clock, s.reconnectTimer.value.slow, s.reconnectTimer.value.since);
    AppendMark(s.log, m);
    PacedAppend(s.log, m);
  }

  lemma HealthKeepsInv(s: State)
    requires Inv(s) && Enabled(s, HealthyTimerFires)
    ensures Inv(Next(s, HealthyTimerFires))
  {
    AppendMark(s.log, Healthy(s.clock));
    PacedAppend(s.log, Healthy(s.clock));
    assert Pow2(1) == 2;
  }

  lemma PacedAppend(log: seq<Mark>, m: Mark)
    requires log != [] && Paced(log) && forall x :: x in log ==> x.at <= m.at
    requires m.Dial? && m.slow ==> SlowGap(log + [m], |log|)
    ensures Paced(log + [m])
  {
    forall j | 0 < j < |log| && log[j].Dial? && log[j].slow ensures SlowGap(log + [m], j) {
      assert SlowGap(log, j);
    }
  }

  lemma PowersUpToFive(n: nat)
    ensures Pow2(n + 1) == 2 * Pow2(n)
    ensures n < MAX_CONSECUTIVE_FAILURES ==> 1 <= Pow2(n) <= 16
  {
    SmallPowers();
  }

  lemma OneSocket(s: State, socket: nat)
    requires Pending(s) <= 1 && socket in s.sockets
    ensures s.sockets == {socket} && s.probing == s.registering == 0 && s.reconnectTimer.None?
  {
    assert |s.sockets - {socket}| == |s.sockets| - 1;
    assert s.sockets == {socket} + (s.sockets - {socket});
  }

  lemma AppendMark(log: seq<Mark>, m: Mark)
    ensures FastSinceHealthy(log + [m]) == if m.Healthy? then 0 else FastSinceHealthy(log) + if m.slow then 0 else 1
    ensures SlowSinceHealthy(log + [m]) <==> m.Dial? && (m.slow || SlowSinceHealthy(log))
  {
    assert (log + [m])[..|log|] == log;
  }

  // ------------------------------------------------------------ what every run guarantees

  lemma {:induction false} RunKeepsInv(run: seq<State>, inputs: seq<Input>, k: nat)
    requires IsRun(run, inputs) && k <= |inputs|
    ensures Inv(run[k])
  {
    if k == 0 {
      InitiallyInv(run[0].clock);
    } else {
      RunKeepsInv(run, inputs, k - 1);
      StepKeepsInv(run[k - 1], inputs[k - 1]);
    }
  }

  /** Dormancy is never terminal: until stop(), exactly one attempt, socket or timer is outstanding,
      and an armed timer is due within the half hour. */
  lemma {:induction false} NeverTerminal(run: seq<State>, inputs: seq<Input>, k: nat)
    requires IsRun(run, inputs) && k <= |inputs| && !run[k].stopped
    ensures Pending(run[k]) == 1
    ensures run[k].reconnectTimer.Some? ==>
      run[k].reconnectTimer.value.since + run[k].reconnectTimer.value.delay <= run[k].clock + DORMANT_INTERVAL_MS
  {
    RunKeepsInv(run, inputs, k);
  }

  /** The failure budget: five failures put the listener on the slow cadence, at most five dials are
      fast between proofs of health, and the doubling delay never gets past four minutes, so the
      five-minute cap is never the delay in use. */
  lemma {:induction false} FailureBudget(run: seq<State>, inputs: seq<Input>, k: nat)
    requires IsRun(run, inputs) && k <= |inputs|
    ensures !run[k].dormant ==> run[k].failures < MAX_CONSECUTIVE_FAILURES
    ensures FastSinceHealthy(run[k].log) <= MAX_CONSECUTIVE_FAILURES
    ensures run[k].reconnectTimer.Some? && !run[k].dormant ==> run[k].reconnectTimer.value.delay <= 240_000
    ensures run[k].reconnectTimer.Some? && run[k].dormant ==> run[k].reconnectTimer.value.delay == DORMANT_INTERVAL_MS
    ensures forall j :: 0 < j < |run[k].log| && run[k].log[j].Dial? && run[k].log[j].slow ==> SlowGap(run[k].log, j)
  {
    RunKeepsInv(run, inputs, k);
  }

  /** The dial bound: over any stretch of the history with no proof of health in it, an instance is
      dialled at most five times plus once per half hour. */
  lemma {:induction false} DialRate(run: seq<State>, inputs: seq<Input>, k: nat, i: nat, j: nat)
    requires IsRun(run, inputs) && k <= |inputs| && i <= j < |run[k].log|
    requires forall m :: i <= m <= j ==> run[k].log[m].Dial?
    ensures j - i + 1 <= MAX_CONSECUTIVE_FAILURES + (run[k].log[j].at - run[k].log[i].at) / DORMANT_INTERVAL_MS
  {
    RunKeepsInv(run, inputs, k);
    LogIsShaped(run, inputs, k);
    Spread(run[k].log, i, j);
  }

  /** Every prefix of the history respects the fast budget, and fast dials never follow slow ones. */
  ghost predicate Shaped(log: seq<Mark>) {
    forall n :: 0 <= n <= |log| ==> PrefixShaped(log[..n])
  }

  ghost predicate PrefixShaped(log: seq<Mark>) {
    && FastSinceHealthy(log) <= MAX_CONSECUTIVE_FAILURES
    && (log != [] && log[|log| - 1].Dial? && !log[|log| - 1].slow ==> !SlowSinceHealthy(log))
  }

  lemma {:induction false} LogIsShaped(run: seq<State>, inputs: seq<Input>, k: nat)
    requires IsRun(run, inputs) && k <= |inputs|
    ensures Shaped(run[k].log)
  {
    if k == 0 {
      FirstLog(run[0].clock);
    } else {
      LogIsShaped(run, inputs, k - 1);
      RunKeepsInv(run, inputs, k - 1);
      ShapedStep(run[k - 1], inputs[k - 1], run[k]);
    }
  }

  lemma FirstLog(now: int)
    ensures Shaped(Started(now).log)
  {
    var log := Started(now).log;
    forall n | 0 <= n <= |log| ensures PrefixShaped(log[..n]) {
      assert log[..1] == log;
    }
  }

  lemma ShapedStep(s: State, i: Input, t: State)
    requires Inv(s) && Enabled(s, i) && t == Next(s, i) && Shaped(s.log)
    ensures Shaped(t.log)
  {
    assert s.log[..|s.log|] == s.log;
    StepKeepsInv(s, i);
    LogStep(s, i, t);
    var before, after := s.log, t.log;
    forall n | 0 <= n <= |after| ensures PrefixShaped(after[..n]) {
      if n <= |before| { assert after[..n] == before[..n]; } else { assert after[..n] == after; }
    }
  }

  lemma LogStep(s: State, i: Input, t: State)
    requires Budget(s) && TimersSane(s) && Enabled(s, i) && t == Next(s, i) && Budget(t) && PrefixShaped(s.log)
    ensures var log' := t.log;
      |s.log| <= |log'| <= |s.log| + 1 && log'[..|s.log|] == s.log && PrefixShaped(log')
  {
    if i.ReconnectTimerFires? {
      DialStep(s, Dial(s.clock, s.reconnectTimer.value.slow, s.reconnectTimer.value.since));
    } else if !i.HealthyTimerFires? {
      QuietStep(s, i);
      assert s.log[..|s.log|] == s.log;
    }
  }

  lemma QuietStep(s: State, i: Input)
    requires Enabled(s, i) && !i.ReconnectTimerFires? && !i.HealthyTimerFires?
    ensures Next(s, i).log == s.log
  {
  }

  lemma DialStep(s: State, m: Mark)
    requires Budget(s) && PrefixShaped(s.log) && m.Dial? && (m.slow <==> s.dormant)
    requires FastSinceHealthy(s.log + [m]) <= MAX_CONSECUTIVE_FAILURES
    ensures PrefixShaped(s.log + [m]) && (s.log + [m])[..|s.log|] == s.log
  {
    AppendMark(s.log, m);
  }

  // ------------------------------------------------------------ how long it waits

  /** The fast redials since start, or since health was last proven; the dial of start() is none. */
  function FastRedials(log: seq<Mark>): nat {
    if |log| <= 1 || log[|log| - 1].Healthy? then 0
    else FastRedials(log[..|log| - 1]) + if log[|log| - 1].slow then 0 else 1
  }

  /** The delay before the next fast redial when there were n. */
  function Backoff(n: nat): int { FIRST_DELAY_MS * Pow2(n) }

  function NextDelay(n: nat): int { if n <= 4 then Backoff(n) else MAX_RECONNECT_DELAY_MS }

  /** Until the listener goes dormant the delay doubles with every fast redial, and never otherwise. */
  ghost predicate DelayDoubles(s: State) {
    var n := FastRedials(s.log);
    && n <= FastSinceHealthy(s.log)
    && (!s.stopped && !s.dormant && s.reconnectTimer.None? ==> s.reconnectDelay == NextDelay(n))
    && (s.reconnectTimer.Some? && !s.reconnectTimer.value.slow ==>
        n <= 4 && s.reconnectTimer.value.delay == Backoff(n) && s.reconnectDelay == NextDelay(n + 1))
  }

  lemma DoublingSteps(s: State, i: Input, t: State)
    requires Inv(s) && DelayDoubles(s) && Enabled(s, i) && t == Next(s, i)
    ensures DelayDoubles(t)
  {
    if i.ReconnectTimerFires? {
      RedialsGrow(s.log, Dial(s.clock, s.reconnectTimer.value.slow, s.reconnectTimer.value.since));
    } else if i.HealthyTimerFires? {
      RedialsGrow(s.log, Healthy(s.clock));
      SmallPowers();
    } else {
      QuietStep(s, i);
      QuietDoubles(s, i, t);
    }
  }

  lemma QuietDoubles(s: State, i: Input, t: State)
    requires Inv(s) && DelayDoubles(s) && Enabled(s, i) && t == Next(s, i) && t.log == s.log
    requires !i.ReconnectTimerFires? && !i.HealthyTimerFires?
    ensures DelayDoubles(t)
  {
    SmallPowers();
    match i {
      case SocketClosed(socket) =>
        OneSocket(s, socket);
        ArmingDoubles(s, s.(sockets := {}, healthyDue := None), !s.provenHealthy);
      case RegisterFailed => ArmingDoubles(s, s.(registering := s.registering - 1), true);
      case _ =>
    }
  }

  lemma ArmingDoubles(s: State, t: State, countAsFailure: bool)
    requires Inv(s) && DelayDoubles(s) && s.reconnectTimer.None? && s.probing == 0
    requires t == s.(sockets := {}, registering := t.registering, healthyDue := t.healthyDue)
    requires countAsFailure <==> !(s.provenHealthy && s.sockets != {})
    ensures DelayDoubles(ScheduleReconnect(t, countAsFailure))
  {
    PowerDoubles(FastRedials(s.log));
    SmallPowers();
  }

  lemma PowerDoubles(n: nat)
    ensures Backoff(n + 1) == 2 * Backoff(n)
  {
    assert Pow2(n + 1) == 2 * Pow2(n);
  }

  lemma RedialsGrow(log: seq<Mark>, m: Mark)
    requires log != []
    ensures FastRedials(log + [m]) == if m.Healthy? then 0 else FastRedials(log) + if m.slow then 0 else 1
    ensures FastSinceHealthy(log + [m]) == if m.Healthy? then 0 else FastSinceHealthy(log) + if m.slow then 0 else 1
  {
    assert (log + [m])[..|log|] == log;
  }

  /** A fast redial comes no earlier than its delay after it was armed, and after the mark before it. */
  ghost predicate FastGap(log: seq<Mark>, j: nat)
    requires 0 < j < |log| && log[j].Dial?
  {
    && log[j].at >= log[j].armedAt + Backoff(FastRedials(log[..j]))
    && log[j].armedAt >= log[j - 1].at
  }

  ghost predicate FastPaced(log: seq<Mark>) {
    forall j {:trigger FastGap(log, j)} :: 0 < j < |log| && log[j].Dial? && !log[j].slow ==> FastGap(log, j)
  }

  lemma FastPacedStep(s: State, i: Input, t: State)
    requires Inv(s) && DelayDoubles(s) && FastPaced(s.log) && Enabled(s, i) && t == Next(s, i)
    ensures FastPaced(t.log)
  {
    if i.ReconnectTimerFires? {
      FastPacedAppend(s.log, Dial(s.clock, s.reconnectTimer.value.slow, s.reconnectTimer.value.since));
    } else if i.HealthyTimerFires? {
      FastPacedAppend(s.log, Healthy(s.clock));
    } else {
      QuietStep(s, i);
    }
  }

  lemma FastPacedAppend(log: seq<Mark>, m: Mark)
    requires log != [] && FastPaced(log)
    requires m.Dial? && !m.slow ==> m.at >= m.armedAt + Backoff(FastRedials(log)) && m.armedAt >= log[|log| - 1].at
    ensures FastPaced(log + [m])
  {
    var after := log + [m];
    forall j | 0 < j < |after| && after[j].Dial? && !after[j].slow ensures FastGap(after, j) {
      assert after[..j] == if j < |log| then log[..j] else log;
      if j < |log| { assert FastGap(log, j); }
    }
  }

  /** Main theorem on the backoff: a fast timer's delay is 15 s doubled once for every fast redial since
      start or the last proof of health, exactly, and each fast redial keeps to its delay. */
  lemma {:induction false} BackoffExactly(run: seq<State>, inputs: seq<Input>, k: nat)
    requires IsRun(run, inputs) && k <= |inputs|
    ensures DelayDoubles(run[k]) && FastPaced(run[k].log)
    ensures run[k].reconnectTimer.Some? && !run[k].dormant ==>
      run[k].reconnectTimer.value.delay == FIRST_DELAY_MS * Pow2(FastRedials(run[k].log))
  {
    RunKeepsInv(run, inputs, k);
    if k == 0 {
      SmallPowers();
    } else {
      BackoffExactly(run, inputs, k - 1);
      RunKeepsInv(run, inputs, k - 1);
      BackoffStep(run[k - 1], inputs[k - 1], run[k]);
    }
  }

  lemma BackoffStep(s: State, i: Input, t: State)
    requires Inv(s) && DelayDoubles(s) && FastPaced(s.log) && Enabled(s, i) && t == Next(s, i)
    ensures DelayDoubles(t) && FastPaced(t.log)
  {
    DoublingSteps(s, i, t);
    FastPacedStep(s, i, t);
  }

  // ------------------------------------------------------------ what counts as failure, dormancy and health

  /** Whether the present socket has proven its health, by the inputs. */
  predicate ProvenBy(inputs: seq<Input>) {
    inputs != [] &&
    match inputs[|inputs| - 1]
    case HealthyTimerFires => true
    case Registered(_) => false
    case _ => ProvenBy(inputs[..|inputs| - 1])
  }

  /** The failed attempts since start or the last proof of health. */
  function FailedBy(inputs: seq<Input>): nat {
    if inputs == [] then 0
    else
      var before := inputs[..|inputs| - 1];
      match inputs[|inputs| - 1]
      case HealthyTimerFires => 0
      case RegisterFailed => FailedBy(before) + 1
      case SocketClosed(_) => FailedBy(before) + if ProvenBy(before) then 0 else 1
      case _ => FailedBy(before)
  }

  /** Whether the instance has said since then that it runs no chat. */
  predicate DisabledBy(inputs: seq<Input>) {
    inputs != [] &&
    match inputs[|inputs| - 1]
    case HealthyTimerFires => false
    case ConfigAnswered(chatDisabled) => chatDisabled || DisabledBy(inputs[..|inputs| - 1])
    case _ => DisabledBy(inputs[..|inputs| - 1])
  }

  /** Until stop(), the listener counts exactly the failures, and it is on the slow cadence exactly when
      there were five, or chat was reported off, since start or the last proof of health. */
  lemma {:induction false} DormantExactly(run: seq<State>, inputs: seq<Input>, k: nat)
    requires IsRun(run, inputs) && k <= |inputs| && !run[k].stopped
    ensures run[k].failures == FailedBy(inputs[..k]) && run[k].provenHealthy == ProvenBy(inputs[..k])
    ensures run[k].dormant <==> FailedBy(inputs[..k]) >= MAX_CONSECUTIVE_FAILURES || DisabledBy(inputs[..k])
  {
    if k > 0 {
      RunKeepsInv(run, inputs, k - 1);
      CountStep(run[k - 1], inputs[k - 1], run[k]);
      DormantExactly(run, inputs, k - 1);
      assert inputs[..k][..k - 1] == inputs[..k - 1];
    }
  }

  lemma CountStep(s: State, i: Input, t: State)
    requires Inv(s) && Enabled(s, i) && t == Next(s, i) && !t.stopped
    ensures !s.stopped
    ensures t.provenHealthy == (i.HealthyTimerFires? || (s.provenHealthy && !i.Registered?))
    ensures t.failures == if i.HealthyTimerFires? then 0
      else s.failures + if i.RegisterFailed? || (i.SocketClosed? && !s.provenHealthy) then 1 else 0
    ensures s.dormant || s.failures < MAX_CONSECUTIVE_FAILURES
    ensures t.dormant ==
      (!i.HealthyTimerFires? &&
       (s.dormant || i == ConfigAnswered(true) || t.failures >= MAX_CONSECUTIVE_FAILURES))
  {
    if i.SocketClosed? { OneSocket(s, i.socket); }
  }

  /** The socket that opened at the m-th input has been up ever since, and its proof is still to come. */
  ghost predicate UpSince(run: seq<State>, inputs: seq<Input>, m: nat, k: nat)
    requires |run| == |inputs| + 1 && k <= |inputs|
  {
    && m < k && inputs[m].SocketOpened? && inputs[m].socket in run[k].sockets
    && run[k].healthyDue == Some(run[m].clock + MIN_HEALTHY_CONNECTION_MS)
    && (forall j :: m < j < k ==> !inputs[j].SocketClosed? && !inputs[j].HealthyTimerFires?)
  }

  lemma {:induction false} DueIsUptime(run: seq<State>, inputs: seq<Input>, k: nat)
    requires IsRun(run, inputs) && k <= |inputs| && !run[k].stopped && run[k].healthyDue.Some?
    ensures exists m :: UpSince(run, inputs, m, k)
  {
    if k > 0 {
      RunKeepsInv(run, inputs, k - 1);
      DueStep(run[k - 1], inputs[k - 1], run[k]);
      if inputs[k - 1].SocketOpened? {
        assert UpSince(run, inputs, k - 1, k);
      } else {
        DueIsUptime(run, inputs, k - 1);
        var m :| UpSince(run, inputs, m, k - 1);
        assert UpSince(run, inputs, m, k);
      }
    }
  }

  /** And a socket that is up and not yet proven has its proof due. */
  lemma {:induction false} UpIsDue(run: seq<State>, inputs: seq<Input>, k: nat)
    requires IsRun(run, inputs) && k <= |inputs| && !run[k].stopped
    requires run[k].sockets != {} && run[k].sockets <= run[k].handshaken && !run[k].provenHealthy
    ensures run[k].healthyDue.Some?
  {
    if k > 0 {
      RunKeepsInv(run, inputs, k - 1);
      DueStep(run[k - 1], inputs[k - 1], run[k]);
      if !inputs[k - 1].SocketOpened? && !inputs[k - 1].SocketClosed? && !inputs[k - 1].HealthyTimerFires? {
        UpIsDue(run, inputs, k - 1);
      }
    }
  }

  lemma DueStep(s: State, i: Input, t: State)
    requires Inv(s) && Enabled(s, i) && t == Next(s, i) && !t.stopped
    ensures !s.stopped
    ensures i.SocketOpened? ==> t.healthyDue == Some(s.clock + MIN_HEALTHY_CONNECTION_MS) && i.socket in t.sockets
    ensures i.SocketClosed? || i.HealthyTimerFires? ==> t.healthyDue.None?
    ensures !i.SocketOpened? && t.healthyDue.Some? ==> t.healthyDue == s.healthyDue && s.sockets <= t.sockets
    ensures !i.SocketClosed? && !i.HealthyTimerFires? && !i.SocketOpened? ==> t.healthyDue == s.healthyDue
    ensures t.sockets != {} && t.sockets <= t.handshaken && !t.provenHealthy && !i.SocketOpened? ==>
      s.sockets != {} && s.sockets <= s.handshaken && !s.provenHealthy
  {
    if i.SocketClosed? { OneSocket(s, i.socket); }
    if i.HealthyTimerFires? { assert t.provenHealthy; }
    if i.Registered? { assert i.socket in t.sockets && i.socket !in t.handshaken; }
  }

  /** Proof of health is half a minute of uptime: when it is given, the socket opened that long ago at
      least and has not closed since. */
  lemma {:induction false} HealthIsUptime(run: seq<State>, inputs: seq<Input>, k: nat)
    requires IsRun(run, inputs) && k < |inputs| && !run[k].stopped && inputs[k].HealthyTimerFires?
    ensures exists m: nat ::
      m < k && UpSince(run, inputs, m, k) && run[k].clock >= run[m].clock + MIN_HEALTHY_CONNECTION_MS
  {
    DueIsUptime(run, inputs, k);
    assert Enabled(run[k], inputs[k]);
    var m :| UpSince(run, inputs, m, k);
  }

  /** Counting the dials of a stretch: the slow ones after the first are half an hour apart. */
  lemma {:induction false} Spread(log: seq<Mark>, i: nat, j: nat)
    requires i <= j < |log| && Paced(log) && Shaped(log)
    requires forall m :: i <= m <= j ==> log[m].Dial?
    ensures j - i + 1 <= MAX_CONSECUTIVE_FAILURES + (log[j].at - log[i].at) / DORMANT_INTERVAL_MS
  {
    SpreadCount(log, i, j);
    var fast := FastSinceHealthy(log[..j + 1]);
    assert PrefixShaped(log[..j + 1]);
  }

  lemma {:induction false} SpreadCount(log: seq<Mark>, i: nat, j: nat)
    requires i <= j < |log| && Paced(log) && Shaped(log)
    requires forall m :: i <= m <= j ==> log[m].Dial?
    ensures var fast := if SlowSinceHealthy(log[..i + 1]) then 1 else FastSinceHealthy(log[..j + 1]);
      j - i + 1 <= fast + (log[j].at - log[i].at) / DORMANT_INTERVAL_MS
    ensures SlowSinceHealthy(log[..i + 1]) ==> SlowSinceHealthy(log[..j + 1])
  {
    assert log[..j + 1][..j] == log[..j];
    AppendMark(log[..j], log[j]);
    assert log[..j + 1] == log[..j] + [log[j]];
    if i < j {
      SpreadCount(log, i, j - 1);
      assert PrefixShaped(log[..j + 1]);
      if log[j].slow {
        assert SlowGap(log, j);
      }
    }
  }

  /** stop() is final for this listener: no later step dials. */
  lemma {:induction false} StopIsSilent(run: seq<State>, inputs: seq<Input>, k: nat, n: nat)
    requires IsRun(run, inputs) && k <= n <= |inputs| && run[k].stopped
    ensures run[n].stopped && run[n].reconnectTimer.None?
    ensures forall m :: |run[k].log| <= m < |run[n].log| ==> run[n].log[m].Healthy?
    ensures |run[k].log| <= |run[n].log|
  {
    RunKeepsInv(run, inputs, n);
    if k < n {
      StopIsSilent(run, inputs, k, n - 1);
    }
  }

  /** No socket outlives stop() unowned: whatever socket is still to close has been told to, wherever
      in a connect() the stop landed; and nothing but stop() closes one. */
  lemma {:induction false} StopClosesTheSocket(run: seq<State>, inputs: seq<Input>, k: nat)
    requires IsRun(run, inputs) && k <= |inputs|
    ensures run[k].stopped ==> run[k].sockets <= run[k].closeAsked
    ensures !run[k].stopped ==> run[k].closeAsked == {}
  {
    RunKeepsInv(run, inputs, k);
  }

  // ------------------------------------------------------------ the listener, as an object

  class OwncastChatListener {
    var stopped: bool
    var failures: nat
    var dormant: bool
    var provenHealthy: bool
    var reconnectDelayMs: int
    var reconnectTimer: Option<Timer>
    var healthyDue: Option<int>
    var probing: nat
    var registering: nat
    var sockets: set<nat>
    var handshaken: set<nat>
    var ws: Option<nat>
    var closeAsked: set<nat>
    var log: seq<Mark>

    ghost function View(clock: int): State
      reads this
    {
      State(clock, stopped, failures, dormant, provenHealthy, reconnectDelayMs, reconnectTimer, healthyDue,
            probing, registering, sockets, handshaken, ws, closeAsked, log)
    }

    constructor (now: int)
      ensures View(now) == Started(now)
    {
      stopped, failures, dormant, provenHealthy := false, 0, false, false;
      reconnectDelayMs, reconnectTimer, healthyDue := FIRST_DELAY_MS, None, None;
      probing, registering, sockets, handshaken, ws, closeAsked, log := 0, 0, {}, {}, None, {}, [];
      new;
      Dial(now, false, now);
    }

    /** connect(), up to its first await. */
    method Dial(now: int, slow: bool, armedAt: int)
      modifies this
      ensures View(now) == Connect(old(View(now)), slow, armedAt)
    {
      if stopped { return; }
      probing := probing + 1;
      log := log + [Mark.Dial(now, slow, armedAt)];
    }

    method ArmTimer(now: int, delay: int, slow: bool)
      modifies this
      ensures View(now) == Arm(old(View(now)), delay, slow)
    {
      if stopped || reconnectTimer.Some? { return; }
      reconnectTimer := Some(Timer(now, delay, slow));
    }

    method Reschedule(now: int, countAsFailure: bool)
      modifies this
      ensures View(now) == ScheduleReconnect(old(View(now)), countAsFailure)
    {
      if stopped || reconnectTimer.Some? { return; }
      if countAsFailure { failures := failures + 1; }
      if failures >= MAX_CONSECUTIVE_FAILURES { dormant := true; }
      if dormant {
        ArmTimer(now, DORMANT_INTERVAL_MS, true);
        return;
      }
      var delay := reconnectDelayMs;
      reconnectDelayMs := if delay * 2 < MAX_RECONNECT_DELAY_MS then delay * 2 else MAX_RECONNECT_DELAY_MS;
      ArmTimer(now, delay, false);
    }

    method OnConfig(now: int, chatDisabled: bool)
      requires Enabled(View(now), ConfigAnswered(chatDisabled))
      modifies this
      ensures View(now) == Next(old(View(now)), ConfigAnswered(chatDisabled))
    {
      probing := probing - 1;
      if chatDisabled {
        dormant := true;
        ArmTimer(now, DORMANT_INTERVAL_MS, true);
        return;
      }
      if stopped { return; }
      registering := registering + 1;
    }

    method OnRegistered(now: int, socket: nat)
      requires Enabled(View(now), Registered(socket))
      modifies this
      ensures View(now) == Next(old(View(now)), Registered(socket))
    {
      registering := registering - 1;
      if stopped { return; }
      sockets := sockets + {socket};
      ws := Some(socket);
      provenHealthy := false;
    }

    method OnRegisterFailed(now: int)
      requires Enabled(View(now), RegisterFailed)
      modifies this
      ensures View(now) == Next(old(View(now)), RegisterFailed)
    {
      registering := registering - 1;
      Reschedule(now, true);
    }

    method OnSocketOpen(now: int, socket: nat)
      requires Enabled(View(now), SocketOpened(socket))
      modifies this
      ensures View(now) == Next(old(View(now)), SocketOpened(socket))
    {
      handshaken := handshaken + {socket};
      healthyDue := Some(now + MIN_HEALTHY_CONNECTION_MS);
    }

    method OnSocketClose(now: int, socket: nat)
      requires Enabled(View(now), SocketClosed(socket))
      modifies this
      ensures View(now) == Next(old(View(now)), SocketClosed(socket))
    {
      sockets := sockets - {socket};
      healthyDue := None;
      Reschedule(now, !provenHealthy);
    }

    method OnHealthyTimer(now: int)
      requires Enabled(View(now), HealthyTimerFires)
      modifies this
      ensures View(now) == Next(old(View(now)), HealthyTimerFires)
    {
      healthyDue := None;
      provenHealthy := true;
      failures := 0;
      reconnectDelayMs := FIRST_DELAY_MS;
      if dormant { dormant := false; }
      log := log + [Healthy(now)];
    }

    method OnReconnectTimer(now: int)
      requires Enabled(View(now), ReconnectTimerFires)
      modifies this
      ensures View(now) == Next(old(View(now)), ReconnectTimerFires)
    {
      var timer := reconnectTimer.value;
      reconnectTimer := None;
      Dial(now, timer.slow, timer.since);
    }

    method Stop(now: int)
      modifies this
      ensures View(now) == Next(old(View(now)), StopCalled)
    {
      stopped := true;
      if reconnectTimer.Some? { reconnectTimer := None; }
      healthyDue := None;
      if ws.Some? { closeAsked := closeAsked + {ws.value}; }
      ws := None;
    }
  }
}
