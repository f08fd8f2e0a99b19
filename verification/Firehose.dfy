/** The chat bridge's two standing subscriptions and the watchdog over the local one.

    The client may call a handle's onclose once: by itself, when the relay ends the subscription, or
    synchronously from inside close(). A superseded handle may still do so later. Re-entrant calls
    are carried out by the class at the end; `Next` says what a step comes to, and that the class
    meets it shows the re-entrance to be harmless. */
module Firehose {
  import opened Options

  const MAX_SILENCE_MS := 3_600_000
  const HEALTH_CHECK_MS := 60_000
  const ECHO_MISS_RESTART := 2
  const MIN_RESTART_INTERVAL_MS := 30_000
  const DISCONNECT_THRESHOLD_PERCENT := 75

  datatype Side = Local | Network

  /** A subscription: how often the service closed it, and whether its onclose has fired. */
  datatype Handle = Handle(side: Side, closes: nat, fired: bool)

  datatype Cause = ByClose | ByEcho | BySilence

  /** What the watchdog's verdicts are judged against. */
  datatype Entry =
    | Began                       // start() wiped the slate
    | Sent                        // a bridged message was published
    | Heard                       // the local firehose delivered an event
    | Checked                     // a health check looked at its window
    | Deferred(at: int)           // a close came too soon after a restart
    | Restarted(at: int, cause: Cause)

  datatype Config = Config(chatFromNostr: bool, hasNetworkRelays: bool)

  datatype State = State(
    clock: int,
    stopped: bool,
    local: Option<nat>,
    network: Option<nat>,
    handles: seq<Handle>,
    lastEventTime: int,
    disconnected: nat,
    publishedSinceCheck: nat,
    seenSinceCheck: nat,
    echoMissStreak: nat,
    lastRestartAt: int,
    log: seq<Entry>)

  /** `sync` says whether a close() made by the step calls back synchronously. */
  datatype Input =
    | Elapsed(ms: nat)
    | Start
    | Stop(sync: bool)
    | RefreshEnds                 // the tail of refreshRooms, whenever its awaits end
    | Publishes
    | LocalEvent
    | Closes(handle: nat, reasons: nat, sync: bool)
    | HealthTick(sync: bool)

  function Initial(now: int): State { State(now, false, None, None, [], now, 0, 0, 0, 0, 0, []) }

  /** A handle calls back at most once, and time moves forward; nothing else is promised. */
  predicate Enabled(s: State, i: Input) { i.Closes? ==> i.handle < |s.handles| && !s.handles[i.handle].fired }

  function Opened(s: State, side: Side): State {
    var h := |s.handles|;
    var t := s.(handles := s.handles + [Handle(side, 0, false)]);
    if side.Local? then t.(local := Some(h)) else t.(network := Some(h))
  }

  function EnsureLocal(cfg: Config, s: State): State {
    if s.stopped || !cfg.chatFromNostr || s.local.Some? then s else Opened(s, Local)
  }

  function EnsureNetwork(cfg: Config, s: State): State {
    if s.stopped || !cfg.chatFromNostr || s.network.Some? || !cfg.hasNetworkRelays then s else Opened(s, Network)
  }

  /** close() on a handle the service has already let go of. */
  function Shut(s: State, h: Option<nat>, sync: bool): State {
    if h.None? || h.value >= |s.handles| then s
    else
      var was := s.handles[h.value];
      s.(handles := s.handles[h.value := was.(closes := was.closes + 1, fired := was.fired || sync)])
  }

  function Wiped(s: State, cause: Cause): State {
    s.(disconnected := 0, publishedSinceCheck := 0, seenSinceCheck := 0, echoMissStreak := 0,
       lastRestartAt := s.clock, local := None, log := s.log + [Restarted(s.clock, cause)])
  }

  function Restart(cfg: Config, s: State, sync: bool, cause: Cause): State {
    EnsureLocal(cfg, Shut(Wiped(s, cause), s.local, sync).(lastEventTime := s.clock))
  }

  function LocalClosed(cfg: Config, s: State, reasons: nat, sync: bool): State {
    if s.stopped || s.local.None? then s
    else
      var t := s.(disconnected := s.disconnected + reasons);
      if t.disconnected * 100 <= DISCONNECT_THRESHOLD_PERCENT then t
      else if s.clock - s.lastRestartAt < MIN_RESTART_INTERVAL_MS then t.(log := s.log + [Deferred(s.clock)])
      else Restart(cfg, t, sync, ByClose)
  }

  function NetworkClosed(cfg: Config, s: State, sync: bool): State {
    if s.stopped || s.network.None? then s
    else EnsureNetwork(cfg, Shut(s.(network := None), s.network, sync))
  }

  predicate EchoMissing(s: State) { s.publishedSinceCheck > 0 && s.seenSinceCheck == 0 }

  function HealthChecked(cfg: Config, s: State, sync: bool): State {
    if !cfg.chatFromNostr || s.local.None? then s
    else
      var streak := if EchoMissing(s) then s.echoMissStreak + 1 else 0;
      var t := s.(publishedSinceCheck := 0, seenSinceCheck := 0, echoMissStreak := streak, log := s.log + [Checked]);
      if streak >= ECHO_MISS_RESTART then Restart(cfg, t.(echoMissStreak := 0), sync, ByEcho)
      else if s.clock - s.lastEventTime < MAX_SILENCE_MS then t
      else Restart(cfg, t, sync, BySilence)
  }

  function Fired(s: State, h: nat): State {
    if h < |s.handles| then s.(handles := s.handles[h := s.handles[h].(fired := true)]) else s
  }

  function Next(cfg: Config, s: State, i: Input): State {
    match i
    case Elapsed(ms) => s.(clock := s.clock + ms)
    case Start =>
      s.(stopped := false, lastEventTime := s.clock, disconnected := 0, publishedSinceCheck := 0, seenSinceCheck := 0,
         echoMissStreak := 0, lastRestartAt := 0, log := s.log + [Began])
    case Stop(sync) => Shut(Shut(s.(stopped := true, local := None, network := None), s.local, sync), s.network, sync)
    case RefreshEnds => EnsureNetwork(cfg, EnsureLocal(cfg, s))
    case Publishes => s.(publishedSinceCheck := s.publishedSinceCheck + 1, log := s.log + [Sent])
    case LocalEvent => s.(seenSinceCheck := s.seenSinceCheck + 1, lastEventTime := s.clock, log := s.log + [Heard])
    case Closes(h, reasons, sync) =>
      if h < |s.handles| && s.handles[h].side.Network? then NetworkClosed(cfg, Fired(s, h), sync)
      else LocalClosed(cfg, Fired(s, h), reasons, sync)
    case HealthTick(sync) => HealthChecked(cfg, s, sync)
  }

  ghost predicate IsRun(cfg: Config, now: int, run: seq<State>, inputs: seq<Input>) {
    && |run| == |inputs| + 1 && run[0] == Initial(now)
    && (forall k :: 0 <= k < |inputs| ==> Enabled(run[k], inputs[k]) && run[k + 1] == Next(cfg, run[k], inputs[k]))
  }

  // ---------------------------------------------------------------- handles

  predicate Current(s: State, h: nat) { s.local == Some(h) || s.network == Some(h) }

  ghost predicate HandlesOk(s: State) {
    && (s.local.Some? ==> s.local.value < |s.handles| && s.handles[s.local.value].side.Local?)
    && (s.network.Some? ==> s.network.value < |s.handles| && s.handles[s.network.value].side.Network?)
    && (forall h :: 0 <= h < |s.handles| ==> s.handles[h].closes == if Current(s, h) then 0 else 1)
    && (s.stopped ==> s.local.None? && s.network.None?)
  }

  lemma RestartKeepsHandles(cfg: Config, s: State, sync: bool, cause: Cause)
    requires HandlesOk(s)
    ensures HandlesOk(Restart(cfg, s, sync, cause))
  {
  }

  lemma LocalCloseKeepsHandles(cfg: Config, s: State, reasons: nat, sync: bool)
    requires HandlesOk(s)
    ensures HandlesOk(LocalClosed(cfg, s, reasons, sync))
  {
    RestartKeepsHandles(cfg, s.(disconnected := s.disconnected + reasons), sync, ByClose);
  }

  lemma NetworkCloseKeepsHandles(cfg: Config, s: State, sync: bool)
    requires HandlesOk(s)
    ensures HandlesOk(NetworkClosed(cfg, s, sync))
  {
  }

  lemma CheckKeepsHandles(cfg: Config, s: State, sync: bool)
    requires HandlesOk(s)
    ensures HandlesOk(HealthChecked(cfg, s, sync))
  {
    var streak := if EchoMissing(s) then s.echoMissStreak + 1 else 0;
    var t := s.(publishedSinceCheck := 0, seenSinceCheck := 0, echoMissStreak := streak, log := s.log + [Checked]);
    RestartKeepsHandles(cfg, t.(echoMissStreak := 0), sync, ByEcho);
    RestartKeepsHandles(cfg, t, sync, BySilence);
  }

  lemma StopKeepsHandles(cfg: Config, s: State, sync: bool)
    requires HandlesOk(s)
    ensures HandlesOk(Next(cfg, s, Stop(sync)))
  {
  }

  lemma StepKeepsHandles(cfg: Config, s: State, i: Input)
    requires HandlesOk(s) && Enabled(s, i)
    ensures HandlesOk(Next(cfg, s, i))
  {
    if i.Closes? {
      var t := Fired(s, i.handle);
      assert HandlesOk(t);
      LocalCloseKeepsHandles(cfg, t, i.reasons, i.sync);
      NetworkCloseKeepsHandles(cfg, t, i.sync);
    } else if i.HealthTick? {
      CheckKeepsHandles(cfg, s, i.sync);
    } else if i.Stop? {
      StopKeepsHandles(cfg, s, i.sync);
    }
  }

  /** Whatever the relays and timers do, and however close() calls back, every handle but the current
      one of each side was closed by the service exactly once, and the current ones never were. */
  lemma {:induction false} HandleDiscipline(cfg: Config, now: int, run: seq<State>, inputs: seq<Input>, k: nat)
    requires IsRun(cfg, now, run, inputs) && k <= |inputs|
    ensures HandlesOk(run[k])
  {
    if k > 0 {
      HandleDiscipline(cfg, now, run, inputs, k - 1);
      assert run[k] == Next(cfg, run[k - 1], inputs[k - 1]);
      StepKeepsHandles(cfg, run[k - 1], inputs[k - 1]);
    }
  }

  /** After a stop nothing is opened until the next start, not even by a refresh that was under way. */
  lemma {:induction false} StopIsFinal(cfg: Config, now: int, run: seq<State>, inputs: seq<Input>, j: nat, k: nat)
    requires IsRun(cfg, now, run, inputs) && j <= k <= |inputs|
    requires run[j].stopped && forall n :: j <= n < k ==> !inputs[n].Start?
    ensures run[k].stopped && run[k].local.None? && run[k].network.None?
    ensures |run[k].handles| == |run[j].handles|
    ensures forall h :: 0 <= h < |run[k].handles| ==> run[k].handles[h].closes == 1
  {
    HandleDiscipline(cfg, now, run, inputs, k);
    if j < k {
      StopIsFinal(cfg, now, run, inputs, j, k - 1);
      assert run[k] == Next(cfg, run[k - 1], inputs[k - 1]);
    }
  }

  // ---------------------------------------------------------------- the watchdog's verdicts

  /** Messages published and events heard since the last check, restart or start. */
  function SentSince(log: seq<Entry>): nat {
    if log == [] then 0
    else
      match log[|log| - 1]
      case Sent => SentSince(log[..|log| - 1]) + 1
      case Heard => SentSince(log[..|log| - 1])
      case Deferred(_) => SentSince(log[..|log| - 1])
      case _ => 0
  }

  function HeardSince(log: seq<Entry>): nat {
    if log == [] then 0
    else
      match log[|log| - 1]
      case Heard => HeardSince(log[..|log| - 1]) + 1
      case Sent => HeardSince(log[..|log| - 1])
      case Deferred(_) => HeardSince(log[..|log| - 1])
      case _ => 0
  }

  predicate WindowMisses(log: seq<Entry>) { SentSince(log) > 0 && HeardSince(log) == 0 }

  /** Consecutive checks, up to the last one, that found something published and nothing heard. */
  function MissStreak(log: seq<Entry>): nat {
    if log == [] then 0
    else
      var before := log[..|log| - 1];
      match log[|log| - 1]
      case Checked => if WindowMisses(before) then MissStreak(before) + 1 else 0
      case Began => 0
      case Restarted(_, _) => 0
      case _ => MissStreak(before)
  }

  /** When the subscription was last rebuilt since the service was started. */
  function LastRestart(log: seq<Entry>): Option<int> {
    if log == [] then None
    else
      match log[|log| - 1]
      case Restarted(at, _) => Some(at)
      case Began => None
      case _ => LastRestart(log[..|log| - 1])
  }

  ghost predicate CountsOk(s: State) {
    && s.publishedSinceCheck == SentSince(s.log) && s.seenSinceCheck == HeardSince(s.log)
    && s.echoMissStreak == MissStreak(s.log) < ECHO_MISS_RESTART
    && s.lastRestartAt == (if LastRestart(s.log).Some? then LastRestart(s.log).value else 0)
  }

  /** Every restart in the log had its reason. */
  ghost predicate RestartOk(log: seq<Entry>, n: nat)
    requires n < |log|
  {
    log[n].Restarted? ==>
      && (log[n].cause.ByEcho? <==> MissStreak(log[..n]) == ECHO_MISS_RESTART)
      && (log[n].cause.ByClose? && LastRestart(log[..n]).Some? ==>
            LastRestart(log[..n]).value + MIN_RESTART_INTERVAL_MS <= log[n].at)
  }

  ghost predicate LogOk(log: seq<Entry>) { forall n :: 0 <= n < |log| ==> RestartOk(log, n) }

  lemma LogAppend(log: seq<Entry>, e: Entry)
    requires LogOk(log) && RestartOk(log + [e], |log|)
    ensures LogOk(log + [e])
  {
    forall n | 0 <= n < |log + [e]| ensures RestartOk(log + [e], n) {
      if n < |log| { assert (log + [e])[..n] == log[..n] && RestartOk(log, n); }
    }
  }

  lemma Counted(log: seq<Entry>, e: Entry)
    ensures var t := log + [e];
      && t[..|log|] == log
      && SentSince(t) == (match e
           case Sent => SentSince(log) + 1
           case Heard => SentSince(log)
           case Deferred(_) => SentSince(log)
           case _ => 0)
      && HeardSince(t) == (match e
           case Heard => HeardSince(log) + 1
           case Sent => HeardSince(log)
           case Deferred(_) => HeardSince(log)
           case _ => 0)
      && MissStreak(t) == (match e
           case Checked => if WindowMisses(log) then MissStreak(log) + 1 else 0
           case Began => 0
           case Restarted(_, _) => 0
           case _ => MissStreak(log))
      && LastRestart(t) == (match e case Restarted(at, _) => Some(at) case Began => None case _ => LastRestart(log))
  {
    assert (log + [e])[..|log|] == log;
  }

  lemma RestartCounts(cfg: Config, s: State, sync: bool, cause: Cause)
    requires LogOk(s.log) && RestartOk(s.log + [Restarted(s.clock, cause)], |s.log|)
    ensures var t := Restart(cfg, s, sync, cause);
      && CountsOk(t) && t.log == s.log + [Restarted(s.clock, cause)] && LogOk(t.log)
      && t.lastEventTime == t.clock == s.clock
  {
    Counted(s.log, Restarted(s.clock, cause));
    LogAppend(s.log, Restarted(s.clock, cause));
  }

  lemma CloseCounts(cfg: Config, s: State, reasons: nat, sync: bool)
    requires CountsOk(s) && LogOk(s.log)
    ensures var t := LocalClosed(cfg, s, reasons, sync); CountsOk(t) && LogOk(t.log)
  {
    var u := s.(disconnected := s.disconnected + reasons);
    if s.clock - s.lastRestartAt >= MIN_RESTART_INTERVAL_MS {
      assert (s.log + [Restarted(s.clock, ByClose)])[..|s.log|] == s.log;
      RestartCounts(cfg, u, sync, ByClose);
    } else {
      LogOne(s, u.(log := s.log + [Deferred(s.clock)]), Deferred(s.clock));
    }
    CountsDependOn(s, u);
  }

  lemma CheckCounts(cfg: Config, s: State, sync: bool)
    requires CountsOk(s) && LogOk(s.log)
    ensures var t := HealthChecked(cfg, s, sync); CountsOk(t) && LogOk(t.log)
  {
    var log := s.log + [Checked];
    Counted(s.log, Checked);
    LogAppend(s.log, Checked);
    var streak := if EchoMissing(s) then s.echoMissStreak + 1 else 0;
    var t := s.(publishedSinceCheck := 0, seenSinceCheck := 0, echoMissStreak := streak, log := log);
    if streak >= ECHO_MISS_RESTART {
      assert (log + [Restarted(s.clock, ByEcho)])[..|log|] == log;
      RestartCounts(cfg, t.(echoMissStreak := 0), sync, ByEcho);
    } else {
      assert (log + [Restarted(s.clock, BySilence)])[..|log|] == log;
      RestartCounts(cfg, t, sync, BySilence);
    }
  }

  lemma StepCounts(cfg: Config, s: State, i: Input)
    requires CountsOk(s) && LogOk(s.log)
    ensures CountsOk(Next(cfg, s, i)) && LogOk(Next(cfg, s, i).log)
  {
    match i {
      case Closes(h, reasons, sync) => CloseCounts(cfg, Fired(s, h), reasons, sync);
      case HealthTick(sync) => CheckCounts(cfg, s, sync);
      case _ => OtherCounts(cfg, s, i);
    }
  }

  lemma OtherCounts(cfg: Config, s: State, i: Input)
    requires CountsOk(s) && LogOk(s.log) && !i.Closes? && !i.HealthTick?
    ensures CountsOk(Next(cfg, s, i)) && LogOk(Next(cfg, s, i).log)
  {
    match i {
      case Start => LogOne(s, Next(cfg, s, i), Began);
      case Publishes => LogOne(s, Next(cfg, s, i), Sent);
      case LocalEvent => LogOne(s, Next(cfg, s, i), Heard);
      case _ => CountsDependOn(s, Next(cfg, s, i));
    }
  }

  lemma CountsDependOn(s: State, t: State)
    requires CountsOk(s) && LogOk(s.log) && t.log == s.log
    requires t.publishedSinceCheck == s.publishedSinceCheck && t.seenSinceCheck == s.seenSinceCheck
    requires t.echoMissStreak == s.echoMissStreak && t.lastRestartAt == s.lastRestartAt
    ensures CountsOk(t) && LogOk(t.log)
  {
  }

  lemma LogOne(s: State, t: State, e: Entry)
    requires CountsOk(s) && LogOk(s.log) && t.log == s.log + [e]
    requires e.Began? || e.Sent? || e.Heard? || e.Deferred?
    requires t.publishedSinceCheck == if e.Began? then 0 else s.publishedSinceCheck + if e.Sent? then 1 else 0
    requires t.seenSinceCheck == if e.Began? then 0 else s.seenSinceCheck + if e.Heard? then 1 else 0
    requires t.echoMissStreak == if e.Began? then 0 else s.echoMissStreak
    requires t.lastRestartAt == if e.Began? then 0 else s.lastRestartAt
    ensures CountsOk(t) && LogOk(t.log)
  {
    Counted(s.log, e);
    LogAppend(s.log, e);
  }

  lemma {:induction false} RunCounts(cfg: Config, now: int, run: seq<State>, inputs: seq<Input>, k: nat)
    requires IsRun(cfg, now, run, inputs) && k <= |inputs|
    ensures CountsOk(run[k]) && LogOk(run[k].log)
  {
    if k > 0 {
      RunCounts(cfg, now, run, inputs, k - 1);
      assert run[k] == Next(cfg, run[k - 1], inputs[k - 1]);
      StepCounts(cfg, run[k - 1], inputs[k - 1]);
    }
  }

  /** Restarts are never idle: one caused by a close comes at least half a minute after the one before
      it, and the echo rule speaks only after two misses in a row with no restart between. */
  lemma RestartsHaveReasons(cfg: Config, now: int, run: seq<State>, inputs: seq<Input>, k: nat, n: nat)
    requires IsRun(cfg, now, run, inputs) && k <= |inputs| && n < |run[k].log| && run[k].log[n].Restarted?
    ensures var e, before := run[k].log[n], run[k].log[..n];
      && (e.cause.ByEcho? <==> MissStreak(before) == ECHO_MISS_RESTART)
      && (e.cause.ByClose? && LastRestart(before).Some? ==> LastRestart(before).value + MIN_RESTART_INTERVAL_MS <= e.at)
  {
    RunCounts(cfg, now, run, inputs, k);
    assert RestartOk(run[k].log, n);
  }

  /** What a health check does, exactly: it rebuilds on the second miss in a row, or after an hour of
      silence, and for no other reason. A close that was deferred is not among them. */
  lemma CheckRebuildsExactly(cfg: Config, now: int, run: seq<State>, inputs: seq<Input>, k: nat, sync: bool)
    requires IsRun(cfg, now, run, inputs) && k <= |inputs| && cfg.chatFromNostr && run[k].local.Some?
    ensures var s, t := run[k], Next(cfg, run[k], HealthTick(sync));
      var echo := WindowMisses(s.log) && MissStreak(s.log) == 1;
      var silent := s.clock - QuietFrom(run, inputs, k) >= MAX_SILENCE_MS;
      && t.log == s.log + [Checked] + (if echo then [Restarted(s.clock, ByEcho)]
                                       else if silent then [Restarted(s.clock, BySilence)]
                                       else [])
      && (t.local == s.local <==> !echo && !silent)
      && t.local.Some?
  {
    RunCounts(cfg, now, run, inputs, k);
    HandleDiscipline(cfg, now, run, inputs, k);
    QuietExactly(cfg, now, run, inputs, k);
    CheckDoes(cfg, run[k], sync);
  }

  lemma CheckDoes(cfg: Config, s: State, sync: bool)
    requires CountsOk(s) && HandlesOk(s) && cfg.chatFromNostr && s.local.Some?
    ensures var t := Next(cfg, s, HealthTick(sync));
      var echo := WindowMisses(s.log) && MissStreak(s.log) == 1;
      var silent := s.clock - s.lastEventTime >= MAX_SILENCE_MS;
      && t.log == s.log + [Checked] + (if echo then [Restarted(s.clock, ByEcho)]
                                       else if silent then [Restarted(s.clock, BySilence)]
                                       else [])
      && (t.local == s.local <==> !echo && !silent)
      && t.local.Some?
  {
  }

  ghost predicate Grows(s: State, t: State) { s.clock <= t.clock && s.log <= t.log }

  lemma RestartShape(cfg: Config, s: State, sync: bool, cause: Cause)
    ensures var t := Restart(cfg, s, sync, cause);
      && t.clock == s.clock && t.log == s.log + [Restarted(s.clock, cause)] && t.stopped == s.stopped
      && (!s.stopped && cfg.chatFromNostr ==> t.local.Some?)
  {
  }

  /** A close logs at most one entry, and anything but a restart leaves the subscription as it was. */
  lemma CloseShape(cfg: Config, s: State, reasons: nat, sync: bool)
    ensures var t := LocalClosed(cfg, s, reasons, sync);
      && Grows(s, t) && t.stopped == s.stopped
      && (Rebuilt(s, t) || (t.local == s.local && t.lastEventTime == s.lastEventTime))
  {
    var u := s.(disconnected := s.disconnected + reasons);
    var t := LocalClosed(cfg, s, reasons, sync);
    RestartShape(cfg, u, sync, ByClose);
    if t == Restart(cfg, u, sync, ByClose) { assert t.log[|s.log|].Restarted?; }
  }

  lemma CheckShape(cfg: Config, s: State, sync: bool)
    ensures var t := HealthChecked(cfg, s, sync);
      && Grows(s, t) && t.stopped == s.stopped
      && (Rebuilt(s, t) || (t.local == s.local && t.lastEventTime == s.lastEventTime))
  {
    var streak := if EchoMissing(s) then s.echoMissStreak + 1 else 0;
    var u := s.(publishedSinceCheck := 0, seenSinceCheck := 0, echoMissStreak := streak, log := s.log + [Checked]);
    var t := HealthChecked(cfg, s, sync);
    RestartShape(cfg, u.(echoMissStreak := 0), sync, ByEcho);
    RestartShape(cfg, u, sync, BySilence);
    if t.log != s.log && t.log != s.log + [Checked] { assert t.log[|s.log| + 1].Restarted?; }
  }

  lemma LogGrows(cfg: Config, s: State, i: Input)
    ensures Grows(s, Next(cfg, s, i))
  {
    match i {
      case Closes(h, reasons, sync) => CloseShape(cfg, Fired(s, h), reasons, sync);
      case HealthTick(sync) => CheckShape(cfg, s, sync);
      case _ =>
    }
  }

  lemma {:induction false} ClockRuns(cfg: Config, now: int, run: seq<State>, inputs: seq<Input>, j: nat, k: nat)
    requires IsRun(cfg, now, run, inputs) && j <= k <= |inputs|
    ensures Grows(run[j], run[k])
  {
    if j < k {
      ClockRuns(cfg, now, run, inputs, j, k - 1);
      LogGrows(cfg, run[k - 1], inputs[k - 1]);
      GrowsOn(run[j], run[k - 1], Next(cfg, run[k - 1], inputs[k - 1]));
    }
  }

  lemma GrowsOn(s: State, t: State, u: State)
    requires Grows(s, t) && Grows(t, u)
    ensures Grows(s, u)
    ensures Rebuilt(s, t) || Rebuilt(t, u) ==> Rebuilt(s, u)
  {
    if Rebuilt(s, t) {
      var n :| |s.log| <= n < |t.log| && t.log[n].Restarted?;
      assert u.log[n] == t.log[n];
    }
  }

  /** A rebuild was logged between two states. */
  ghost predicate Rebuilt(s: State, t: State) { exists n :: |s.log| <= n < |t.log| && t.log[n].Restarted? }

  /** Neither an event, nor a stop or start. */
  predicate Undisturbed(i: Input) { !i.LocalEvent? && !i.Start? && !i.Stop? }

  lemma QuietStep(cfg: Config, s: State, i: Input)
    requires Undisturbed(i) && !s.stopped && s.local.Some?
    ensures var t := Next(cfg, s, i);
      Rebuilt(s, t) || (t.lastEventTime == s.lastEventTime && !t.stopped && t.local.Some?)
  {
    match i {
      case Closes(h, reasons, sync) => CloseShape(cfg, Fired(s, h), reasons, sync);
      case HealthTick(sync) => CheckShape(cfg, s, sync);
      case _ =>
    }
  }

  lemma {:induction false} QuietRun(cfg: Config, now: int, run: seq<State>, inputs: seq<Input>, a: nat, k: nat)
    requires IsRun(cfg, now, run, inputs) && a <= k <= |inputs|
    requires !run[a].stopped && run[a].local.Some? && forall n :: a <= n < k ==> Undisturbed(inputs[n])
    ensures Rebuilt(run[a], run[k])
         || (run[k].lastEventTime == run[a].lastEventTime && !run[k].stopped && run[k].local.Some?)
  {
    if a < k {
      QuietRun(cfg, now, run, inputs, a, k - 1);
      ClockRuns(cfg, now, run, inputs, a, k - 1);
      LogGrows(cfg, run[k - 1], inputs[k - 1]);
      var t := Next(cfg, run[k - 1], inputs[k - 1]);
      assert run[k] == t;
      GrowsOn(run[a], run[k - 1], t);
      if !Rebuilt(run[a], run[k - 1]) { QuietStep(cfg, run[k - 1], inputs[k - 1]); }
    }
  }

  /** A dead firehose is found: with a health check in every minute, when no local event has come for
      an hour and a minute since time T, the subscription has been rebuilt in between. The premises
      at b: the last check, at tick, is at most a minute old. */
  lemma SilenceIsBounded(cfg: Config, now: int, run: seq<State>, inputs: seq<Input>, a: nat, tick: nat, b: nat)
    requires IsRun(cfg, now, run, inputs) && a <= b <= |inputs| && tick < b && cfg.chatFromNostr
    requires !run[a].stopped && run[a].local.Some? && forall n :: a <= n < b ==> Undisturbed(inputs[n])
    requires QuietFrom(run, inputs, a) <= run[a].clock < QuietFrom(run, inputs, a) + MAX_SILENCE_MS
    requires inputs[tick].HealthTick? && run[b].clock <= run[tick].clock + HEALTH_CHECK_MS
    requires run[b].clock >= QuietFrom(run, inputs, a) + MAX_SILENCE_MS + HEALTH_CHECK_MS
    ensures Rebuilt(run[a], run[b])
  {
    QuietExactly(cfg, now, run, inputs, a);
    QuietExactly(cfg, now, run, inputs, tick);
    if tick < a { ClockRuns(cfg, now, run, inputs, tick, a); }
    ClockRuns(cfg, now, run, inputs, a, tick);
    ClockRuns(cfg, now, run, inputs, tick, tick + 1);
    ClockRuns(cfg, now, run, inputs, tick + 1, b);
    GrowsOn(run[a], run[tick], run[tick + 1]);
    GrowsOn(run[a], run[tick + 1], run[b]);
    QuietRun(cfg, now, run, inputs, a, tick);
    if !Rebuilt(run[a], run[tick]) {
      CheckRebuildsExactly(cfg, now, run, inputs, tick, inputs[tick].sync);
      var t := Next(cfg, run[tick], inputs[tick]);
      assert run[tick + 1] == t && t.log[|t.log| - 1].Restarted?;
      assert Rebuilt(run[tick], run[tick + 1]);
    }
  }

  /** The close handler counts on the next health check for what it defers, but that check need not
      act: here the relay ends the rebuilt subscription at once, a minute later the check runs, and
      the dead handle is still the current one. */
  lemma DeferredCloseIsLeft(cfg: Config, now: int)
    requires cfg.chatFromNostr && now >= MIN_RESTART_INTERVAL_MS
    ensures exists run, inputs :: IsRun(cfg, now, run, inputs) && LeavesDeadHandle(run, inputs)
  {
    var inputs := [Start, RefreshEnds, Closes(0, 1, false), Closes(if cfg.hasNetworkRelays then 2 else 1, 1, false),
                   Elapsed(HEALTH_CHECK_MS), HealthTick(false)];
    var s0 := Initial(now);
    var s1 := Next(cfg, s0, inputs[0]);
    var s2 := Next(cfg, s1, inputs[1]);
    var s3 := Next(cfg, s2, inputs[2]);
    var s4 := Next(cfg, s3, inputs[3]);
    var s5 := Next(cfg, s4, inputs[4]);
    var s6 := Next(cfg, s5, inputs[5]);
    var run := [s0, s1, s2, s3, s4, s5, s6];
    RebuiltOnce(cfg, now, s3);
    assert s4 == Fired(s3, s3.local.value).(disconnected := 1, log := s3.log + [Deferred(now)]);
    assert IsRun(cfg, now, run, inputs) && LeavesDeadHandle(run, inputs);
  }

  lemma RebuiltOnce(cfg: Config, now: int, s3: State)
    requires cfg.chatFromNostr && now >= MIN_RESTART_INTERVAL_MS
    requires s3 == Next(cfg, Next(cfg, Next(cfg, Initial(now), Start), RefreshEnds), Closes(0, 1, false))
    ensures s3.local == Some(if cfg.hasNetworkRelays then 2 else 1)
    ensures |s3.handles| == s3.local.value + 1 && !s3.handles[s3.local.value].fired
    ensures s3.handles[s3.local.value].side.Local?
    ensures s3.clock == s3.lastRestartAt == s3.lastEventTime == now && !s3.stopped && s3.disconnected == 0
    ensures s3.publishedSinceCheck == s3.seenSinceCheck == s3.echoMissStreak == 0
    ensures s3.log == [Began, Restarted(now, ByClose)]
  {
  }

  ghost predicate LeavesDeadHandle(run: seq<State>, inputs: seq<Input>) {
    && |inputs| >= 2 && |run| == |inputs| + 1
    && inputs[|inputs| - 1].HealthTick?
    && (exists at :: Deferred(at) in run[|inputs| - 1].log)
    && var s := run[|inputs|];
       && s.local.Some? && s.local.value < |s.handles| && s.handles[s.local.value].fired
       && s.local == run[|inputs| - 1].local
  }

  // ---------------------------------------------------------------- what is held, by the inputs

  /** stop() was called, and start() not again since. */
  predicate StoppedBy(inputs: seq<Input>) {
    inputs != [] &&
    match inputs[|inputs| - 1]
    case Stop(_) => true
    case Start => false
    case _ => StoppedBy(inputs[..|inputs| - 1])
  }

  /** A refresh has ended on the running service, and stop() has not been called since. */
  predicate RefreshedBy(inputs: seq<Input>) {
    inputs != [] &&
    var before := inputs[..|inputs| - 1];
    match inputs[|inputs| - 1]
    case Stop(_) => false
    case RefreshEnds => !StoppedBy(before)
    case _ => RefreshedBy(before)
  }

  /** A subscription never goes missing: a side is held exactly while it is wanted. */
  ghost predicate HeldBy(cfg: Config, inputs: seq<Input>, s: State) {
    && s.stopped == StoppedBy(inputs)
    && (s.local.Some? <==> cfg.chatFromNostr && RefreshedBy(inputs))
    && (s.network.Some? <==> cfg.chatFromNostr && cfg.hasNetworkRelays && RefreshedBy(inputs))
    && NetworkAlive(s)
  }

  predicate NetworkAlive(s: State) {
    s.network.Some? ==> s.network.value < |s.handles| && !s.handles[s.network.value].fired
  }

  predicate Wanted(cfg: Config, s: State) {
    && (s.local.Some? ==> cfg.chatFromNostr && !s.stopped)
    && (s.network.Some? ==> cfg.chatFromNostr && cfg.hasNetworkRelays && !s.stopped)
  }

  lemma CloseHolds(cfg: Config, s: State, h: nat, reasons: nat, sync: bool, t: State)
    requires HandlesOk(s) && NetworkAlive(s) && Wanted(cfg, s) && h < |s.handles|
    requires t == Next(cfg, s, Closes(h, reasons, sync))
    ensures t.stopped == s.stopped && t.local.Some? == s.local.Some? && t.network.Some? == s.network.Some?
    ensures NetworkAlive(t)
  {
    var f := Fired(s, h);
    if s.handles[h].side.Network? {
      NetworkReopens(cfg, f, sync, t);
    } else {
      LocalReopens(cfg, f, reasons, sync, t);
    }
  }

  lemma NetworkReopens(cfg: Config, s: State, sync: bool, t: State)
    requires HandlesOk(s) && Wanted(cfg, s) && t == NetworkClosed(cfg, s, sync)
    ensures t.stopped == s.stopped && t.local == s.local && t.network.Some? == s.network.Some?
    ensures NetworkAlive(t)
  {
  }

  lemma LocalReopens(cfg: Config, s: State, reasons: nat, sync: bool, t: State)
    requires HandlesOk(s) && NetworkAlive(s) && Wanted(cfg, s) && t == LocalClosed(cfg, s, reasons, sync)
    ensures t.stopped == s.stopped && t.local.Some? == s.local.Some? && t.network == s.network
    ensures NetworkAlive(t)
  {
    RestartHolds(cfg, s.(disconnected := s.disconnected + reasons), sync, ByClose);
  }

  /** A restart puts a new handle that has not fired in the place of the old one. */
  lemma RestartHolds(cfg: Config, s: State, sync: bool, cause: Cause)
    requires HandlesOk(s) && NetworkAlive(s) && Wanted(cfg, s)
    ensures var t := Restart(cfg, s, sync, cause);
      && t.stopped == s.stopped && t.network == s.network && NetworkAlive(t)
      && (s.local.Some? ==> t.local == Some(|s.handles|) && |t.handles| == |s.handles| + 1
                            && !t.handles[|s.handles|].fired)
  {
  }

  lemma CheckHolds(cfg: Config, s: State, sync: bool, t: State)
    requires HandlesOk(s) && NetworkAlive(s) && Wanted(cfg, s) && t == HealthChecked(cfg, s, sync)
    ensures t.stopped == s.stopped && t.local.Some? == s.local.Some? && t.network == s.network
    ensures NetworkAlive(t)
  {
    var streak := if EchoMissing(s) then s.echoMissStreak + 1 else 0;
    var u := s.(publishedSinceCheck := 0, seenSinceCheck := 0, echoMissStreak := streak, log := s.log + [Checked]);
    RestartHolds(cfg, u.(echoMissStreak := 0), sync, ByEcho);
    RestartHolds(cfg, u, sync, BySilence);
  }

  lemma StepHolds(cfg: Config, before: seq<Input>, s: State, i: Input, t: State, inputs: seq<Input>)
    requires HandlesOk(s) && HeldBy(cfg, before, s) && Enabled(s, i) && t == Next(cfg, s, i)
    requires inputs != [] && inputs[|inputs| - 1] == i && inputs[..|inputs| - 1] == before
    ensures HeldBy(cfg, inputs, t)
  {
    match i {
      case Closes(h, reasons, sync) => CloseHolds(cfg, s, h, reasons, sync, t);
      case HealthTick(sync) => CheckHolds(cfg, s, sync, t);
      case RefreshEnds => RefreshHolds(cfg, s, t);
      case _ =>
    }
  }

  lemma RefreshHolds(cfg: Config, s: State, t: State)
    requires HandlesOk(s) && NetworkAlive(s) && t == Next(cfg, s, RefreshEnds)
    ensures t.stopped == s.stopped && NetworkAlive(t)
    ensures t.local.Some? <==> s.local.Some? || (cfg.chatFromNostr && !s.stopped)
    ensures t.network.Some? <==> s.network.Some? || (cfg.chatFromNostr && cfg.hasNetworkRelays && !s.stopped)
  {
  }

  /** Main theorem: from the end of the first refresh after start() until stop(), the local subscription
      is held without a gap, and the network one too where there are relays for it, whatever the relays
      end meanwhile; and the network handle held is one that has not been ended. */
  lemma {:induction false} HeldExactly(cfg: Config, now: int, run: seq<State>, inputs: seq<Input>, k: nat)
    requires IsRun(cfg, now, run, inputs) && k <= |inputs|
    ensures HeldBy(cfg, inputs[..k], run[k])
  {
    if k > 0 {
      HeldExactly(cfg, now, run, inputs, k - 1);
      HandleDiscipline(cfg, now, run, inputs, k - 1);
      assert inputs[..k][..k - 1] == inputs[..k - 1];
      StepHolds(cfg, inputs[..k - 1], run[k - 1], inputs[k - 1], run[k], inputs[..k]);
    }
  }

  // ---------------------------------------------------------------- what is counted, by the inputs

  /** What the watchdog takes note of. */
  function NotedBy(cfg: Config, inputs: seq<Input>): seq<Entry> {
    if inputs == [] then []
    else
      var before := inputs[..|inputs| - 1];
      NotedBy(cfg, before) + Note(inputs[|inputs| - 1], cfg.chatFromNostr && RefreshedBy(before))
  }

  function Note(i: Input, held: bool): seq<Entry> {
    match i
    case Start => [Began]
    case Publishes => [Sent]
    case LocalEvent => [Heard]
    case HealthTick(_) => if held then [Checked] else []
    case _ => []
  }

  /** The log without the watchdog's own verdicts. */
  function Notes(log: seq<Entry>): seq<Entry> {
    if log == [] then []
    else
      var e := log[|log| - 1];
      Notes(log[..|log| - 1]) + if e.Deferred? || e.Restarted? then [] else [e]
  }

  lemma NotesGrow(log: seq<Entry>, e: Entry)
    ensures Notes(log + [e]) == Notes(log) + if e.Deferred? || e.Restarted? then [] else [e]
  {
    assert (log + [e])[..|log|] == log;
  }

  lemma StepNotes(cfg: Config, s: State, i: Input, t: State)
    requires t == Next(cfg, s, i) && (s.local.Some? ==> cfg.chatFromNostr)
    ensures Notes(t.log) == Notes(s.log) + Note(i, s.local.Some?)
  {
    match i {
      case HealthTick(sync) => CheckNotes(cfg, s, sync);
      case Closes(h, reasons, sync) =>
        CloseNotes(cfg, Fired(s, h), reasons, sync);
        NetworkCloseNotes(cfg, Fired(s, h), sync);
      case _ => OtherNotes(cfg, s, i, t);
    }
  }

  lemma OtherNotes(cfg: Config, s: State, i: Input, t: State)
    requires t == Next(cfg, s, i) && !i.Closes? && !i.HealthTick?
    ensures Notes(t.log) == Notes(s.log) + Note(i, s.local.Some?)
  {
    match i {
      case Start => NotesGrow(s.log, Began);
      case Publishes => NotesGrow(s.log, Sent);
      case LocalEvent => NotesGrow(s.log, Heard);
      case _ =>
    }
  }

  lemma NetworkCloseNotes(cfg: Config, s: State, sync: bool)
    ensures NetworkClosed(cfg, s, sync).log == s.log
  {
  }

  lemma CloseNotes(cfg: Config, s: State, reasons: nat, sync: bool)
    ensures Notes(LocalClosed(cfg, s, reasons, sync).log) == Notes(s.log)
  {
    NotesGrow(s.log, Deferred(s.clock));
    NotesGrow(s.log, Restarted(s.clock, ByClose));
    RestartShape(cfg, s.(disconnected := s.disconnected + reasons), sync, ByClose);
  }

  lemma CheckNotes(cfg: Config, s: State, sync: bool)
    requires s.local.Some? ==> cfg.chatFromNostr
    ensures Notes(HealthChecked(cfg, s, sync).log) == Notes(s.log) + if s.local.Some? then [Checked] else []
  {
    var streak := if EchoMissing(s) then s.echoMissStreak + 1 else 0;
    var u := s.(publishedSinceCheck := 0, seenSinceCheck := 0, echoMissStreak := streak, log := s.log + [Checked]);
    RestartShape(cfg, u.(echoMissStreak := 0), sync, ByEcho);
    RestartShape(cfg, u, sync, BySilence);
    NotesGrow(s.log, Checked);
    NotesGrow(u.log, Restarted(s.clock, ByEcho));
    NotesGrow(u.log, Restarted(s.clock, BySilence));
  }

  /** The watchdog overlooks nothing: between its verdicts the log holds every start, publish, local
      event and check, in order. */
  lemma {:induction false} NothingOverlooked(cfg: Config, now: int, run: seq<State>, inputs: seq<Input>, k: nat)
    requires IsRun(cfg, now, run, inputs) && k <= |inputs|
    ensures Notes(run[k].log) == NotedBy(cfg, inputs[..k])
  {
    if k > 0 {
      NothingOverlooked(cfg, now, run, inputs, k - 1);
      HeldExactly(cfg, now, run, inputs, k - 1);
      assert inputs[..k][..k - 1] == inputs[..k - 1];
      StepNotes(cfg, run[k - 1], inputs[k - 1], run[k]);
    }
  }

  /** The time of the last local event, start or restart, and the relays lost since the last of these. */
  ghost function QuietFrom(run: seq<State>, inputs: seq<Input>, k: nat): int
    requires |run| == |inputs| + 1 && k <= |inputs|
  {
    if k == 0 || inputs[k - 1].LocalEvent? || inputs[k - 1].Start? || Rebuilt(run[k - 1], run[k]) then run[k].clock
    else QuietFrom(run, inputs, k - 1)
  }

  ghost predicate LocalCloses(s: State, i: Input) {
    i.Closes? && i.handle < |s.handles| && s.handles[i.handle].side.Local? && s.local.Some?
  }

  ghost function LostSince(run: seq<State>, inputs: seq<Input>, k: nat): nat
    requires |run| == |inputs| + 1 && k <= |inputs|
  {
    if k == 0 || inputs[k - 1].Start? || Rebuilt(run[k - 1], run[k]) then 0
    else
      LostSince(run, inputs, k - 1)
      + if LocalCloses(run[k - 1], inputs[k - 1]) then inputs[k - 1].reasons else 0
  }

  predicate RestartedNow(s: State, t: State) { t.lastEventTime == t.clock == s.clock && t.disconnected == 0 }

  lemma StepQuiets(cfg: Config, s: State, i: Input, t: State)
    requires HandlesOk(s) && Enabled(s, i) && t == Next(cfg, s, i)
    ensures if Rebuilt(s, t) then RestartedNow(s, t)
            else if i.Start? then RestartedNow(s, t)
            else
              && t.lastEventTime == (if i.LocalEvent? then t.clock else s.lastEventTime)
              && t.disconnected == s.disconnected + (if LocalCloses(s, i) then i.reasons else 0)
  {
    match i {
      case Closes(h, reasons, sync) => CloseQuiets(cfg, Fired(s, h), reasons, sync);
      case HealthTick(sync) => CheckQuiets(cfg, s, sync);
      case _ =>
    }
  }

  lemma CloseQuiets(cfg: Config, s: State, reasons: nat, sync: bool)
    ensures var t := LocalClosed(cfg, s, reasons, sync);
      if Rebuilt(s, t) then RestartedNow(s, t)
      else
        && t.lastEventTime == s.lastEventTime
        && t.disconnected == s.disconnected + if s.stopped || s.local.None? then 0 else reasons
  {
    var u := s.(disconnected := s.disconnected + reasons);
    RestartShape(cfg, u, sync, ByClose);
    var t := LocalClosed(cfg, s, reasons, sync);
    if t == Restart(cfg, u, sync, ByClose) { assert t.log[|s.log|].Restarted?; }
  }

  lemma CheckQuiets(cfg: Config, s: State, sync: bool)
    ensures var t := HealthChecked(cfg, s, sync);
      if Rebuilt(s, t) then RestartedNow(s, t)
      else t.lastEventTime == s.lastEventTime && t.disconnected == s.disconnected
  {
    var streak := if EchoMissing(s) then s.echoMissStreak + 1 else 0;
    var u := s.(publishedSinceCheck := 0, seenSinceCheck := 0, echoMissStreak := streak, log := s.log + [Checked]);
    RestartShape(cfg, u.(echoMissStreak := 0), sync, ByEcho);
    RestartShape(cfg, u, sync, BySilence);
    var t := HealthChecked(cfg, s, sync);
    if |t.log| == |s.log| + 2 { assert t.log[|s.log| + 1].Restarted?; }
  }

  lemma {:induction false} QuietExactly(cfg: Config, now: int, run: seq<State>, inputs: seq<Input>, k: nat)
    requires IsRun(cfg, now, run, inputs) && k <= |inputs|
    ensures run[k].lastEventTime == QuietFrom(run, inputs, k) && run[k].disconnected == LostSince(run, inputs, k)
  {
    if k > 0 {
      QuietExactly(cfg, now, run, inputs, k - 1);
      HandleDiscipline(cfg, now, run, inputs, k - 1);
      StepQuiets(cfg, run[k - 1], inputs[k - 1], run[k]);
    }
  }

  /** What a local close does, exactly: once a relay is lost it rebuilds, unless the last rebuild is less
      than half a minute ago, which is put off; and rebuilding puts a new handle in the old one's place. */
  lemma CloseRebuildsExactly(cfg: Config, now: int, run: seq<State>, inputs: seq<Input>, k: nat)
    requires IsRun(cfg, now, run, inputs) && k < |inputs| && LocalCloses(run[k], inputs[k])
    ensures var s, t := run[k], run[k + 1];
      var lost := LostSince(run, inputs, k) + inputs[k].reasons > 0;
      var floor := if LastRestart(s.log).Some? then LastRestart(s.log).value + MIN_RESTART_INTERVAL_MS
                   else MIN_RESTART_INTERVAL_MS;
      if lost && s.clock >= floor then
        && t.log == s.log + [Restarted(s.clock, ByClose)]
        && t.local == Some(|s.handles|) && |t.handles| == |s.handles| + 1 && !t.handles[|s.handles|].fired
      else t.local == s.local && t.log == s.log + if lost then [Deferred(s.clock)] else []
  {
    QuietExactly(cfg, now, run, inputs, k);
    HandleDiscipline(cfg, now, run, inputs, k);
    HeldExactly(cfg, now, run, inputs, k);
    RunCounts(cfg, now, run, inputs, k);
    var s, i := run[k], inputs[k];
    var f := Fired(s, i.handle);
    RestartHolds(cfg, f.(disconnected := s.disconnected + i.reasons), i.sync, ByClose);
    RestartShape(cfg, f.(disconnected := s.disconnected + i.reasons), i.sync, ByClose);
  }

  // ---------------------------------------------------------------- the service itself

  class Subscriptions {
    const cfg: Config
    var clock: int
    var stopped: bool
    var nostrSub: Option<nat>
    var networkSub: Option<nat>
    var handles: seq<Handle>
    var lastEventTime: int
    var disconnectedRelayCount: nat
    var publishedSinceCheck: nat
    var seenSinceCheck: nat
    var echoMissStreak: nat
    var lastRestartAt: int
    ghost var log: seq<Entry>

    ghost function View(): State reads this {
      State(clock, stopped, nostrSub, networkSub, handles, lastEventTime, disconnectedRelayCount,
            publishedSinceCheck, seenSinceCheck, echoMissStreak, lastRestartAt, log)
    }

    ghost predicate Valid() reads this { HandlesOk(View()) }

    /** How many subscriptions are held: what re-entrant closing uses up. */
    ghost function Held(): nat reads this { (if nostrSub.Some? then 1 else 0) + (if networkSub.Some? then 1 else 0) }

    constructor (cfg: Config, now: int)
      ensures this.cfg == cfg && View() == Initial(now) && Valid()
    {
      this.cfg, clock, stopped, nostrSub, networkSub, handles := cfg, now, false, None, None, [];
      lastEventTime, disconnectedRelayCount, publishedSinceCheck, seenSinceCheck := now, 0, 0, 0;
      echoMissStreak, lastRestartAt, log := 0, 0, [];
    }

    method Start()
      modifies this
      ensures View() == Next(cfg, old(View()), Input.Start)
    {
      stopped := false;
      lastEventTime, disconnectedRelayCount, publishedSinceCheck := clock, 0, 0;
      seenSinceCheck, echoMissStreak, lastRestartAt := 0, 0, 0;
      log := log + [Began];
    }

    method Stop(sync: bool)
      requires Valid()
      modifies this
      ensures View() == Next(cfg, old(View()), Input.Stop(sync)) && Valid()
    {
      ghost var s := View();
      stopped := true;
      var local, network := nostrSub, networkSub;
      nostrSub, networkSub := None, None;
      if local.Some? { CallClose(local.value, sync); }
      if network.Some? { CallClose(network.value, sync); }
      StepKeepsHandles(cfg, s, Input.Stop(sync));
    }

    method EnsureNostrSub()
      modifies this`nostrSub, this`handles
      ensures View() == EnsureLocal(cfg, old(View()))
    {
      if stopped || !cfg.chatFromNostr || nostrSub.Some? { return; }
      handles := handles + [Handle(Local, 0, false)];
      nostrSub := Some(|handles| - 1);
    }

    method EnsureNetworkSub()
      modifies this`networkSub, this`handles
      ensures View() == EnsureNetwork(cfg, old(View()))
    {
      if stopped || !cfg.chatFromNostr || networkSub.Some? { return; }
      if !cfg.hasNetworkRelays { return; }
      handles := handles + [Handle(Network, 0, false)];
      networkSub := Some(|handles| - 1);
    }

    method FinishRefresh()
      modifies this`nostrSub, this`networkSub, this`handles
      ensures View() == Next(cfg, old(View()), RefreshEnds)
    {
      EnsureNostrSub();
      EnsureNetworkSub();
    }

    /** The client's close(): a handle that is still open may call straight back into its handler,
        which finds the service's reference gone and leaves everything as it is. */
    method CallClose(h: nat, sync: bool)
      requires h < |handles|
      requires stopped || (if handles[h].side.Local? then nostrSub.None? else networkSub.None?)
      modifies this
      ensures View() == Shut(old(View()), Some(h), sync)
      decreases Held(), 2
    {
      var was := handles[h];
      handles := handles[h := was.(closes := was.closes + 1, fired := was.fired || sync)];
      if sync && !was.fired {
        if was.side.Local? { OnLocalClosed(1, sync); } else { OnNetworkClosed(sync); }
      }
    }

    method OnLocalClosed(reasons: nat, sync: bool)
      requires !stopped && nostrSub.Some? ==> nostrSub.value < |handles| && handles[nostrSub.value].side.Local?
      modifies this
      ensures View() == LocalClosed(cfg, old(View()), reasons, sync)
      decreases Held(), 1
    {
      if stopped || nostrSub.None? { return; }
      disconnectedRelayCount := disconnectedRelayCount + reasons;
      if disconnectedRelayCount * 100 > DISCONNECT_THRESHOLD_PERCENT {
        if clock - lastRestartAt < MIN_RESTART_INTERVAL_MS {
          log := log + [Deferred(clock)];
          return;
        }
        RestartNostrSub(sync, ByClose);
      }
    }

    method OnNetworkClosed(sync: bool)
      requires !stopped && networkSub.Some? ==> networkSub.value < |handles| && handles[networkSub.value].side.Network?
      modifies this
      ensures View() == NetworkClosed(cfg, old(View()), sync)
      decreases Held(), 1
    {
      if stopped || networkSub.None? { return; }
      var sub := networkSub.value;
      networkSub := None;
      CallClose(sub, sync);
      EnsureNetworkSub();
    }

    method RestartNostrSub(sync: bool, ghost cause: Cause)
      requires nostrSub.Some? ==> nostrSub.value < |handles| && handles[nostrSub.value].side.Local?
      modifies this
      ensures View() == Restart(cfg, old(View()), sync, cause)
      decreases Held(), 0
    {
      ghost var wiped := Wiped(View(), cause);
      disconnectedRelayCount, publishedSinceCheck, seenSinceCheck, echoMissStreak := 0, 0, 0, 0;
      lastRestartAt := clock;
      log := log + [Restarted(clock, cause)];
      var sub := nostrSub;
      nostrSub := None;
      assert View() == wiped;
      if sub.Some? { CallClose(sub.value, sync); }
      assert View() == Shut(wiped, sub, sync);
      lastEventTime := clock;
      EnsureNostrSub();
    }

    /** The relay's own end of a subscription. */
    method OnRelayClose(h: nat, reasons: nat, sync: bool)
      requires Valid() && Enabled(View(), Closes(h, reasons, sync))
      modifies this
      ensures View() == Next(cfg, old(View()), Closes(h, reasons, sync)) && Valid()
    {
      StepKeepsHandles(cfg, View(), Closes(h, reasons, sync));
      handles := handles[h := handles[h].(fired := true)];
      if handles[h].side.Network? { OnNetworkClosed(sync); } else { OnLocalClosed(reasons, sync); }
    }

    method OnPublished()
      modifies this`publishedSinceCheck, this`log
      ensures View() == Next(cfg, old(View()), Publishes)
    {
      publishedSinceCheck := publishedSinceCheck + 1;
      log := log + [Sent];
    }

    method OnLocalEvent()
      modifies this`seenSinceCheck, this`lastEventTime, this`log
      ensures View() == Next(cfg, old(View()), LocalEvent)
    {
      seenSinceCheck := seenSinceCheck + 1;
      lastEventTime := clock;
      log := log + [Heard];
    }

    method CheckSubscriptionHealth(sync: bool)
      requires Valid()
      modifies this
      ensures View() == Next(cfg, old(View()), HealthTick(sync)) && Valid()
    {
      StepKeepsHandles(cfg, View(), HealthTick(sync));
      if !cfg.chatFromNostr || nostrSub.None? { return; }
      var echoMissing := publishedSinceCheck > 0 && seenSinceCheck == 0;
      publishedSinceCheck, seenSinceCheck := 0, 0;
      echoMissStreak := if echoMissing then echoMissStreak + 1 else 0;
      log := log + [Checked];
      if echoMissStreak >= ECHO_MISS_RESTART {
        echoMissStreak := 0;
        RestartNostrSub(sync, ByEcho);
        return;
      }
      var silentMs := clock - lastEventTime;
      if silentMs < MAX_SILENCE_MS { return; }
      RestartNostrSub(sync, BySilence);
    }
  }
}
