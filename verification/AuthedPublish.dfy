/** One-shot authenticated publish (the "Protocol flow" of NIP-42) over one short-lived socket.

    The closure flags of the source are the fields of AuthedPublish; every callback and timer is
    one method, and `Next` gives each of them as a transition. Runs are arbitrary interleavings of
    frames and timers, including frames that still arrive after the promise has settled. */
module AuthedPublish {
  import opened Options

  const RESEND_FALLBACK_MS := 1500

  /** A signed AUTH event and when it was sent. */
  datatype Auth = Auth(id: string, challenge: string, at: int)

  datatype Frame = EventFrame | AuthFrame(auth: Auth)

  datatype Outcome = Resolved | TimedOut | SocketFailed | AuthRejected | EventRejected

  /** What one publish is about: the event's id, the deadline, and how late a timer may run. */
  datatype Job = Job(eventId: string, timeoutMs: nat, lateness: nat)

  /** Everything the outside can do to the connection. `authId` is the id the signer gives to an
      AUTH event should this input cause one to be signed. */
  datatype Input =
    | Opened
    | Challenged(text: string)
    | Ok(id: string, accepted: bool, authRequired: bool, authId: string)
    | SocketError
    | TimeoutFires
    | ResendFires
    | AuthWaitFires(wait: nat, authId: string)
    | AuthWaitStops(wait: nat)
    | Elapsed(ms: nat)

  datatype State = State(
    clock: int,
    isOpen: bool,
    challenge: string,            // "" until a challenge arrives: the source tests it for truth
    auth: Option<Auth>,           // the AUTH that was sent: authSent and authEventId
    resentAt: Option<int>,        // eventResent, with its time
    settlements: seq<Outcome>,    // every call of resolve or reject
    deadline: Option<int>,        // armed at construction, cleared by settle
    resendDue: Option<int>,
    authWaits: seq<int>,          // running authWait intervals, by the time they stop
    sent: seq<Frame>)
  {
    predicate Settled() { settlements != [] }
  }

  function Started(job: Job): State { State(0, false, "", None, None, [], Some(job.timeoutMs), None, [], []) }

  function Settle(s: State, o: Outcome): State {
    if s.Settled() then s else s.(settlements := s.settlements + [o], deadline := None)
  }

  /** A timer that is armed lets time pass it by no more than its lateness. */
  predicate InTime(job: Job, timer: Option<int>, clock: int) { timer.Some? ==> clock <= timer.value + job.lateness }

  function ResendEvent(s: State): State {
    if s.resentAt.Some? || s.Settled() then s else s.(resentAt := Some(s.clock), sent := s.sent + [EventFrame])
  }

  function SendAuth(s: State, authId: string): State {
    if s.challenge == "" || s.auth.Some? then s
    else
      var auth := Auth(authId, s.challenge, s.clock);
      s.(auth := Some(auth), sent := s.sent + [AuthFrame(auth)], resendDue := Some(s.clock + RESEND_FALLBACK_MS))
  }

  function Answer(job: Job, s: State, ok: Input): State
    requires ok.Ok?
  {
    if s.auth.Some? && ok.id == s.auth.value.id then
      if ok.accepted then ResendEvent(s) else Settle(s, AuthRejected)
    else if ok.id != job.eventId then s
    else if ok.accepted then Settle(s, Resolved)
    else if ok.authRequired && s.auth.None? then
      if s.challenge != "" then SendAuth(s, ok.authId)
      else s.(authWaits := s.authWaits + [s.clock + job.timeoutMs])
    else Settle(s, EventRejected)
  }

  /** When an input can occur. A socket opens once and carries frames only afterwards; an armed timer
      fires when due or a little later, never before. */
  ghost predicate Enabled(job: Job, s: State, i: Input) {
    match i
    case Opened => !s.isOpen
    case Challenged(_) => s.isOpen
    case Ok(_, _, _, _) => s.isOpen
    case SocketError => true
    case TimeoutFires => s.deadline.Some? && s.clock >= s.deadline.value
    case ResendFires => s.resendDue.Some? && s.clock >= s.resendDue.value
    case AuthWaitFires(w, _) => w < |s.authWaits|
    case AuthWaitStops(w) => w < |s.authWaits| && s.clock >= s.authWaits[w]
    case Elapsed(ms) =>
      && InTime(job, s.deadline, s.clock + ms) && InTime(job, s.resendDue, s.clock + ms)
      && forall w :: w in s.authWaits ==> s.clock + ms <= w + job.lateness
  }

  function Drop(waits: seq<int>, w: nat): seq<int> { if w < |waits| then waits[..w] + waits[w + 1..] else waits }

  function Next(job: Job, s: State, i: Input): State {
    match i
    case Opened => s.(isOpen := true, sent := s.sent + [EventFrame])
    case Challenged(c) => s.(challenge := c)
    case Ok(_, _, _, _) => Answer(job, s, i)
    case SocketError => Settle(s, SocketFailed)
    case TimeoutFires => Settle(s.(deadline := None), TimedOut)
    case ResendFires => ResendEvent(s.(resendDue := None))
    case AuthWaitFires(w, authId) =>
      if s.challenge != "" then SendAuth(s.(authWaits := Drop(s.authWaits, w)), authId) else s
    case AuthWaitStops(w) => s.(authWaits := Drop(s.authWaits, w))
    case Elapsed(ms) => s.(clock := s.clock + ms)
  }

  function Run(job: Job, inputs: seq<Input>): State {
    if inputs == [] then Started(job)
    else Next(job, Run(job, inputs[..|inputs| - 1]), inputs[|inputs| - 1])
  }

  ghost predicate Legal(job: Job, inputs: seq<Input>) {
    inputs == [] ||
    (Legal(job, inputs[..|inputs| - 1]) && Enabled(job, Run(job, inputs[..|inputs| - 1]), inputs[|inputs| - 1]))
  }

  // ------------------------------------------------------------ what every run guarantees

  ghost predicate SawAccept(job: Job, inputs: seq<Input>) {
    exists i :: i in inputs && i.Ok? && i.id == job.eventId && i.accepted
  }

  ghost predicate SawAuthDemand(job: Job, inputs: seq<Input>) {
    exists i :: i in inputs && i.Ok? && i.id == job.eventId && !i.accepted && i.authRequired
  }

  ghost predicate SawAuthAccepted(inputs: seq<Input>, id: string) {
    exists i :: i in inputs && i.Ok? && i.id == id && i.accepted
  }

  ghost predicate ResendLicensed(inputs: seq<Input>, auth: Auth, at: int) {
    SawAuthAccepted(inputs, auth.id) || at >= auth.at + RESEND_FALLBACK_MS
  }

  /** The only thing that can ever be on the wire: EVENT, then AUTH, then EVENT again. */
  function Script(s: State): seq<Frame> {
    (if s.isOpen then [EventFrame] else [])
    + (if s.auth.Some? then [AuthFrame(s.auth.value)] else [])
    + (if s.resentAt.Some? then [EventFrame] else [])
  }

  ghost predicate Inv(job: Job, s: State, inputs: seq<Input>) {
    && s.sent == Script(s)
    && |s.settlements| <= 1
    && (Resolved in s.settlements ==> SawAccept(job, inputs))
    && (s.challenge != "" ==> Challenged(s.challenge) in inputs)
    && (s.authWaits != [] || s.auth.Some? ==> s.isOpen && SawAuthDemand(job, inputs))
    && (s.auth.Some? ==> s.auth.value.challenge != "" && Challenged(s.auth.value.challenge) in inputs)
    && (s.resendDue.Some? ==> s.auth.Some? && s.resendDue.value == s.auth.value.at + RESEND_FALLBACK_MS)
    && (s.resentAt.Some? ==> s.auth.Some? && ResendLicensed(inputs, s.auth.value, s.resentAt.value))
    && (if s.Settled() then s.deadline.None? else s.deadline == Some(job.timeoutMs) && InTime(job, s.deadline, s.clock))
  }

  lemma {:induction false} StepKeepsInv(job: Job, s: State, inputs: seq<Input>, i: Input)
    requires Inv(job, s, inputs) && Enabled(job, s, i)
    ensures Inv(job, Next(job, s, i), inputs + [i])
  {
    HistoryGrows(job, s, inputs, i);
    assert Inv(job, s, inputs + [i]);
    if i.Ok? {
      OkIsHistory(job, s, inputs + [i], i);
    } else {
      OthersKeepInv(job, s, inputs + [i], i);
    }
  }

  lemma OthersKeepInv(job: Job, s: State, inputs: seq<Input>, i: Input)
    requires Inv(job, s, inputs) && Enabled(job, s, i) && !i.Ok? && i in inputs
    ensures Inv(job, Next(job, s, i), inputs)
  {
    match i {
      case ResendFires => ResendKeepsInv(job, s, inputs);
      case AuthWaitFires(w, authId) => AuthWaitKeepsInv(job, s, inputs, i);
      case _ =>
    }
  }

  lemma ResendKeepsInv(job: Job, s: State, inputs: seq<Input>)
    requires Inv(job, s, inputs) && Enabled(job, s, ResendFires)
    ensures Inv(job, Next(job, s, ResendFires), inputs)
  {
  }

  lemma AuthWaitKeepsInv(job: Job, s: State, inputs: seq<Input>, i: Input)
    requires Inv(job, s, inputs) && Enabled(job, s, i) && i.AuthWaitFires?
    ensures Inv(job, Next(job, s, i), inputs)
  {
  }

  lemma HistoryGrows(job: Job, s: State, inputs: seq<Input>, i: Input)
    requires Inv(job, s, inputs)
    ensures Inv(job, s, inputs + [i]) && i in inputs + [i]
  {
    var all := inputs + [i];
    assert i in all && forall x :: x in inputs ==> x in all;
    if SawAccept(job, inputs) {
      var x :| x in inputs && x.Ok? && x.id == job.eventId && x.accepted;
      assert x in all;
    }
    if SawAuthDemand(job, inputs) {
      var x :| x in inputs && x.Ok? && x.id == job.eventId && !x.accepted && x.authRequired;
      assert x in all;
    }
    if s.auth.Some? && SawAuthAccepted(inputs, s.auth.value.id) {
      var x :| x in inputs && x.Ok? && x.id == s.auth.value.id && x.accepted;
      assert x in all;
    }
  }

  lemma OkIsHistory(job: Job, s: State, all: seq<Input>, i: Input)
    requires Inv(job, s, all) && i.Ok? && s.isOpen && i in all
    ensures Inv(job, Answer(job, s, i), all)
  {
    if i.id == job.eventId && i.accepted {
      assert SawAccept(job, all);
    } else if i.id == job.eventId && i.authRequired {
      assert SawAuthDemand(job, all);
    }
    if s.auth.Some? && i.id == s.auth.value.id && i.accepted {
      assert SawAuthAccepted(all, s.auth.value.id);
    }
  }

  lemma {:induction false} RunKeepsInv(job: Job, inputs: seq<Input>)
    requires Legal(job, inputs)
    ensures Inv(job, Run(job, inputs), inputs)
  {
    if inputs != [] {
      var before := inputs[..|inputs| - 1];
      RunKeepsInv(job, before);
      StepGives(job, Run(job, before), before, inputs[|inputs| - 1], Run(job, inputs), inputs);
    }
  }

  lemma StepGives(job: Job, s: State, before: seq<Input>, i: Input, t: State, inputs: seq<Input>)
    requires Inv(job, s, before) && Enabled(job, s, i) && t == Next(job, s, i)
    requires inputs != [] && before == inputs[..|inputs| - 1] && i == inputs[|inputs| - 1]
    ensures Inv(job, t, inputs)
  {
    StepKeepsInv(job, s, before, i);
    assert before + [i] == inputs;
  }

  /** The promise settles at most once, and resolves only after an accepting OK for the event itself.
      It cannot stay open: the deadline is armed for as long as it does and disarmed when it settles,
      so that once the deadline's last moment has passed it has settled. */
  lemma {:induction false} SettlesOnceAndHonestly(job: Job, inputs: seq<Input>)
    requires Legal(job, inputs)
    ensures |Run(job, inputs).settlements| <= 1
    ensures Resolved in Run(job, inputs).settlements ==> SawAccept(job, inputs)
    ensures var s := Run(job, inputs); if s.Settled() then s.deadline == None else s.deadline == Some(job.timeoutMs)
    ensures Run(job, inputs).clock > job.timeoutMs + job.lateness ==> Run(job, inputs).Settled()
  {
    RunKeepsInv(job, inputs);
  }

  /** AUTH goes out at most once, answering a challenge that really arrived, and only once the relay
      demanded it; the event goes out at most twice, the second time after that AUTH. */
  lemma {:induction false} WireIsTheHandshake(job: Job, inputs: seq<Input>)
    requires Legal(job, inputs)
    ensures var sent := Run(job, inputs).sent;
      && |sent| <= 3
      && (|sent| >= 1 ==> sent[0] == EventFrame)
      && (|sent| >= 2 ==>
           sent[1].AuthFrame? && Challenged(sent[1].auth.challenge) in inputs && SawAuthDemand(job, inputs))
      && (|sent| == 3 ==> sent[2] == EventFrame)
  {
    RunKeepsInv(job, inputs);
  }

  /** The second EVENT waits for the relay to accept the AUTH, or for 1500 ms without word of it. */
  lemma {:induction false} ResendNeedsAckOrPatience(job: Job, inputs: seq<Input>)
    requires Legal(job, inputs)
    ensures var s := Run(job, inputs);
      s.resentAt.Some? ==> s.auth.Some? && ResendLicensed(inputs, s.auth.value, s.resentAt.value)
  {
    RunKeepsInv(job, inputs);
  }

  // ------------------------------------------------------------ what becomes of it, from the inputs alone

  function TimeOf(inputs: seq<Input>): int {
    if inputs == [] then 0
    else TimeOf(inputs[..|inputs| - 1]) + if inputs[|inputs| - 1].Elapsed? then inputs[|inputs| - 1].ms else 0
  }

  /** The challenge that came last; "" without one. */
  function LastChallenge(inputs: seq<Input>): string {
    if inputs == [] then ""
    else if inputs[|inputs| - 1].Challenged? then inputs[|inputs| - 1].text
    else LastChallenge(inputs[..|inputs| - 1])
  }

  predicate Demands(job: Job, i: Input) { i.Ok? && i.id == job.eventId && !i.accepted && i.authRequired }

  /** The input asks for an AUTH, and there is a challenge to sign. */
  predicate Signs(job: Job, before: seq<Input>, i: Input) {
    LastChallenge(before) != "" && (Demands(job, i) || i.AuthWaitFires?)
  }

  /** The AUTH that goes out: the first that is asked for. */
  function SentAuth(job: Job, inputs: seq<Input>): Option<Auth> {
    if inputs == [] then None
    else
      var before, i := inputs[..|inputs| - 1], inputs[|inputs| - 1];
      if SentAuth(job, before).Some? then SentAuth(job, before)
      else if Signs(job, before, i) then Some(Auth(i.authId, LastChallenge(before), TimeOf(before)))
      else None
  }

  predicate IsAuth(auth: Option<Auth>, id: string) { auth.Some? && auth.value.id == id }

  /** What an input would settle an open promise with. */
  function Verdict(job: Job, before: seq<Input>, i: Input): Option<Outcome> {
    if i == SocketError then Some(SocketFailed)
    else if i == TimeoutFires then Some(TimedOut)
    else if !i.Ok? then None
    else if IsAuth(SentAuth(job, before), i.id) then (if i.accepted then None else Some(AuthRejected))
    else if i.id != job.eventId then None
    else if i.accepted then Some(Resolved)
    else if Demands(job, i) && SentAuth(job, before).None? then None
    else Some(EventRejected)
  }

  /** The first verdict. */
  function Settlement(job: Job, inputs: seq<Input>): Option<Outcome> {
    if inputs == [] then None
    else
      var before, i := inputs[..|inputs| - 1], inputs[|inputs| - 1];
      if Settlement(job, before).Some? then Settlement(job, before) else Verdict(job, before, i)
  }

  /** The AUTH is acknowledged, or the fallback timer loses patience. */
  predicate Licenses(job: Job, before: seq<Input>, i: Input) {
    i == ResendFires || (i.Ok? && i.accepted && IsAuth(SentAuth(job, before), i.id))
  }

  /** When the event goes out again: on the first licence that finds the promise open. */
  function ResentTime(job: Job, inputs: seq<Input>): Option<int> {
    if inputs == [] then None
    else
      var before, i := inputs[..|inputs| - 1], inputs[|inputs| - 1];
      if ResentTime(job, before).Some? then ResentTime(job, before)
      else if Licenses(job, before, i) && Settlement(job, before).None? then Some(TimeOf(before))
      else None
  }

  /** A demand there is no challenge for yet. */
  predicate Waits(job: Job, before: seq<Input>, i: Input) {
    Demands(job, i) && SentAuth(job, before).None? && LastChallenge(before) == ""
  }

  /** How many intervals wait for a challenge: begun by such demands, ended by their own timeouts and by the
      ticks that find a challenge. */
  function Waiting(job: Job, inputs: seq<Input>): int {
    if inputs == [] then 0
    else
      var before, i := inputs[..|inputs| - 1], inputs[|inputs| - 1];
      Waiting(job, before) + (if Waits(job, before, i) then 1 else 0)
        - (if i.AuthWaitStops? || (i.AuthWaitFires? && LastChallenge(before) != "") then 1 else 0)
  }

  ghost predicate IsWait(job: Job, inputs: seq<Input>, until: int) {
    exists n :: 0 <= n < |inputs| && Waits(job, inputs[..n], inputs[n]) && until == TimeOf(inputs[..n]) + job.timeoutMs
  }

  /** The flags of the closure, as the inputs have left them. */
  ghost predicate Flags(job: Job, inputs: seq<Input>, s: State) {
    && s.clock == TimeOf(inputs)
    && (s.isOpen <==> Opened in inputs)
    && s.challenge == LastChallenge(inputs)
    && s.auth == SentAuth(job, inputs)
    && s.settlements == (if Settlement(job, inputs).Some? then [Settlement(job, inputs).value] else [])
    && s.resentAt == ResentTime(job, inputs)
  }

  ghost predicate Timers(job: Job, inputs: seq<Input>, s: State) {
    && (SentAuth(job, inputs).None? ==> ResendFires !in inputs)
    && s.resendDue == (if SentAuth(job, inputs).None? || ResendFires in inputs then None
                       else Some(SentAuth(job, inputs).value.at + RESEND_FALLBACK_MS))
    && |s.authWaits| == Waiting(job, inputs)
    && forall w :: w in s.authWaits ==> IsWait(job, inputs, w)
  }

  lemma OkFlags(job: Job, s: State, i: Input, t: State, before: seq<Input>, inputs: seq<Input>)
    requires Flags(job, before, s) && t == Next(job, s, i) && i.Ok?
    requires inputs != [] && before == inputs[..|inputs| - 1] && i == inputs[|inputs| - 1]
    ensures Flags(job, inputs, t)
  {
    assert forall x :: x in inputs <==> x in before || x == i;
  }

  lemma OtherFlags(job: Job, s: State, i: Input, t: State, before: seq<Input>, inputs: seq<Input>)
    requires Flags(job, before, s) && t == Next(job, s, i) && !i.Ok?
    requires inputs != [] && before == inputs[..|inputs| - 1] && i == inputs[|inputs| - 1]
    ensures Flags(job, inputs, t)
  {
    assert forall x :: x in inputs <==> x in before || x == i;
  }

  lemma FlagsStep(job: Job, s: State, i: Input, t: State, before: seq<Input>, inputs: seq<Input>)
    requires Flags(job, before, s) && t == Next(job, s, i)
    requires inputs != [] && before == inputs[..|inputs| - 1] && i == inputs[|inputs| - 1]
    ensures Flags(job, inputs, t)
  {
    if i.Ok? {
      OkFlags(job, s, i, t, before, inputs);
    } else {
      OtherFlags(job, s, i, t, before, inputs);
    }
  }

  lemma TimersStep(job: Job, s: State, i: Input, t: State, before: seq<Input>, inputs: seq<Input>)
    requires Flags(job, before, s) && Timers(job, before, s) && Enabled(job, s, i) && t == Next(job, s, i)
    requires inputs != [] && before == inputs[..|inputs| - 1] && i == inputs[|inputs| - 1]
    ensures Timers(job, inputs, t)
  {
    assert forall x :: x in inputs <==> x in before || x == i;
    forall w | w in t.authWaits ensures IsWait(job, inputs, w) {
      if w in s.authWaits {
        WaitStays(job, before, inputs, w);
      } else {
        assert Waits(job, inputs[..|before|], inputs[|before|]);
      }
    }
  }

  lemma WaitStays(job: Job, before: seq<Input>, inputs: seq<Input>, until: int)
    requires IsWait(job, before, until) && before <= inputs
    ensures IsWait(job, inputs, until)
  {
    var n :| 0 <= n < |before| && Waits(job, before[..n], before[n]) && until == TimeOf(before[..n]) + job.timeoutMs;
    assert before[..n] == inputs[..n] && before[n] == inputs[n];
  }

  /** Main theorem: every flag and timer of the closure, and with them everything on the wire, from the
      inputs alone. */
  lemma {:induction false} PublishExactly(job: Job, inputs: seq<Input>)
    requires Legal(job, inputs)
    ensures Flags(job, inputs, Run(job, inputs)) && Timers(job, inputs, Run(job, inputs))
    ensures Run(job, inputs).sent == Script(Run(job, inputs))
  {
    RunKeepsInv(job, inputs);
    if inputs != [] {
      var before, i := inputs[..|inputs| - 1], inputs[|inputs| - 1];
      PublishExactly(job, before);
      FlagsStep(job, Run(job, before), i, Run(job, inputs), before, inputs);
      TimersStep(job, Run(job, before), i, Run(job, inputs), before, inputs);
    }
  }

  /** The n-th input is the first with a verdict. */
  ghost predicate Decides(job: Job, inputs: seq<Input>, n: nat, o: Outcome)
    requires n < |inputs|
  {
    && Verdict(job, inputs[..n], inputs[n]) == Some(o)
    && forall m :: 0 <= m < n ==> Verdict(job, inputs[..m], inputs[m]).None?
  }

  lemma SameBefore(job: Job, inputs: seq<Input>, last: nat, m: nat, o: Outcome)
    requires m < last < |inputs|
    ensures var before := inputs[..last];
      && Verdict(job, before[..m], before[m]) == Verdict(job, inputs[..m], inputs[m])
      && (Decides(job, before, m, o) <==> Decides(job, inputs, m, o))
  {
    var before := inputs[..last];
    assert forall k :: 0 <= k <= m ==> before[..k] == inputs[..k] && before[k] == inputs[k];
  }

  lemma {:induction false} SettlementIsFirst(job: Job, inputs: seq<Input>, o: Outcome)
    ensures Settlement(job, inputs) == Some(o) <==> exists n :: 0 <= n < |inputs| && Decides(job, inputs, n, o)
    ensures Settlement(job, inputs).None?
       <==> forall m :: 0 <= m < |inputs| ==> Verdict(job, inputs[..m], inputs[m]).None?
  {
    if inputs != [] {
      var last := |inputs| - 1;
      var before := inputs[..last];
      SettlementIsFirst(job, before, o);
      forall m | 0 <= m < last
        ensures Verdict(job, before[..m], before[m]) == Verdict(job, inputs[..m], inputs[m])
        ensures Decides(job, before, m, o) <==> Decides(job, inputs, m, o)
      {
        SameBefore(job, inputs, last, m, o);
      }
      if Settlement(job, before).None? && Verdict(job, before, inputs[last]) == Some(o) {
        assert Decides(job, inputs, last, o);
      }
    }
  }

  /** So the promise settles with the first verdict there is, and stays open exactly as long as there is
      none: an accepting OK for the event resolves it, and a demand for AUTH never settles it the first
      time. */
  lemma OutcomeExactly(job: Job, inputs: seq<Input>, o: Outcome)
    requires Legal(job, inputs)
    ensures Run(job, inputs).settlements == [o] <==> exists n :: 0 <= n < |inputs| && Decides(job, inputs, n, o)
    ensures Run(job, inputs).settlements == []
       <==> forall m :: 0 <= m < |inputs| ==> Verdict(job, inputs[..m], inputs[m]).None?
  {
    PublishExactly(job, inputs);
    SettlementIsFirst(job, inputs, o);
  }

  /** The happy path when the challenge comes first. */
  lemma {:induction false} HandshakeCompletes(job: Job, c: string, authId: string)
    requires c != "" && authId != job.eventId
    ensures var inputs := [Opened, Challenged(c), Ok(job.eventId, false, true, authId),
                           Ok(authId, true, false, ""), Ok(job.eventId, true, false, "")];
      && Legal(job, inputs)
      && Run(job, inputs).settlements == [Resolved]
      && Run(job, inputs).sent == [EventFrame, AuthFrame(Auth(authId, c, 0)), EventFrame]
  {
    var demand := Ok(job.eventId, false, true, authId);
    var ack, accept := Ok(authId, true, false, ""), Ok(job.eventId, true, false, "");
    var i1 := [Opened];
    var i2 := i1 + [Challenged(c)];
    var i3 := i2 + [demand];
    var i4 := i3 + [ack];
    Snoc(job, [], Opened);
    Snoc(job, i1, Challenged(c));
    Snoc(job, i2, demand);
    Snoc(job, i3, ack);
    Snoc(job, i4, accept);
    assert [] + [Opened] == i1 && i4 + [accept] == [Opened, Challenged(c), demand, ack, accept];
  }

  /** The happy path when the challenge races past the rejection and the interval picks it up. */
  lemma {:induction false} LateChallengeCompletes(job: Job, c: string, authId: string)
    requires c != "" && authId != job.eventId
    ensures var inputs := [Opened, Ok(job.eventId, false, true, authId), Challenged(c), AuthWaitFires(0, authId),
                           Ok(authId, true, false, ""), Ok(job.eventId, true, false, "")];
      && Legal(job, inputs)
      && Run(job, inputs).settlements == [Resolved]
      && Run(job, inputs).sent == [EventFrame, AuthFrame(Auth(authId, c, 0)), EventFrame]
  {
    var demand, wait := Ok(job.eventId, false, true, authId), AuthWaitFires(0, authId);
    var ack, accept := Ok(authId, true, false, ""), Ok(job.eventId, true, false, "");
    var i3 := DemandThenChallenge(job, c, authId);
    Snoc(job, i3, wait);
    Snoc(job, i3 + [wait], ack);
    Snoc(job, i3 + [wait] + [ack], accept);
    assert i3 + [wait] + [ack] + [accept] == [Opened, demand, Challenged(c), wait, ack, accept];
  }

  lemma DemandThenChallenge(job: Job, c: string, authId: string) returns (inputs: seq<Input>)
    requires c != ""
    ensures inputs == [Opened, Ok(job.eventId, false, true, authId), Challenged(c)]
    ensures Legal(job, inputs)
    ensures Run(job, inputs)
         == Started(job).(isOpen := true, challenge := c, authWaits := [job.timeoutMs], sent := [EventFrame])
  {
    var demand := Ok(job.eventId, false, true, authId);
    var i1 := [Opened];
    var i2 := i1 + [demand];
    Snoc(job, [], Opened);
    Snoc(job, i1, demand);
    assert [] + [Opened] == i1 && Run(job, i2).authWaits == [job.timeoutMs];
    Snoc(job, i2, Challenged(c));
    inputs := i2 + [Challenged(c)];
  }

  lemma Snoc(job: Job, inputs: seq<Input>, i: Input)
    ensures Run(job, inputs + [i]) == Next(job, Run(job, inputs), i)
    ensures Legal(job, inputs + [i]) <==> Legal(job, inputs) && Enabled(job, Run(job, inputs), i)
  {
    assert (inputs + [i])[..|inputs|] == inputs;
  }

  // ------------------------------------------------------------ the closure, as an object

  class Publisher {
    const job: Job
    var isOpen: bool
    var challenge: string
    var auth: Option<Auth>
    var resentAt: Option<int>
    var settlements: seq<Outcome>
    var deadline: Option<int>
    var resendDue: Option<int>
    var authWaits: seq<int>
    var sent: seq<Frame>

    ghost function View(clock: int): State
      reads this
    {
      State(clock, isOpen, challenge, auth, resentAt, settlements, deadline, resendDue, authWaits, sent)
    }

    constructor (job: Job)
      ensures this.job == job && View(0) == Started(job)
    {
      this.job := job;
      deadline := Some(job.timeoutMs);
      isOpen, challenge, auth, resentAt := false, "", None, None;
      settlements, resendDue, authWaits, sent := [], None, [], [];
    }

    method SettleWith(o: Outcome)
      modifies this
      ensures forall clock :: View(clock) == Settle(old(View(clock)), o)
    {
      if settlements != [] { return; }
      settlements := settlements + [o];
      deadline := None;
    }

    method Resend(clock: int)
      modifies this
      ensures View(clock) == ResendEvent(old(View(clock)))
    {
      if resentAt.Some? || settlements != [] { return; }
      resentAt := Some(clock);
      sent := sent + [EventFrame];
    }

    method SignAndSendAuth(authId: string, clock: int)
      modifies this
      ensures View(clock) == SendAuth(old(View(clock)), authId)
    {
      if challenge == "" || auth.Some? { return; }
      auth := Some(Auth(authId, challenge, clock));
      sent := sent + [AuthFrame(auth.value)];
      resendDue := Some(clock + RESEND_FALLBACK_MS);
    }

    method OnOpen(clock: int)
      modifies this
      ensures View(clock) == Next(job, old(View(clock)), Opened)
    {
      isOpen := true;
      sent := sent + [EventFrame];
    }

    method OnChallenge(text: string, clock: int)
      modifies this
      ensures View(clock) == Next(job, old(View(clock)), Challenged(text))
    {
      challenge := text;
    }

    method OnOk(id: string, accepted: bool, authRequired: bool, authId: string, clock: int)
      modifies this
      ensures View(clock) == Next(job, old(View(clock)), Ok(id, accepted, authRequired, authId))
    {
      if auth.Some? && id == auth.value.id {
        if accepted { Resend(clock); } else { SettleWith(AuthRejected); }
        return;
      }
      if id != job.eventId { return; }
      if accepted {
        SettleWith(Resolved);
        return;
      }
      if authRequired && auth.None? {
        if challenge != "" {
          SignAndSendAuth(authId, clock);
        } else {
          authWaits := authWaits + [clock + job.timeoutMs];
        }
        return;
      }
      SettleWith(EventRejected);
    }

    method OnAuthWait(wait: nat, authId: string, clock: int)
      requires wait < |authWaits|
      modifies this
      ensures View(clock) == Next(job, old(View(clock)), AuthWaitFires(wait, authId))
    {
      if challenge != "" {
        authWaits := Drop(authWaits, wait);
        SignAndSendAuth(authId, clock);
      }
    }

    method OnResendTimer(clock: int)
      modifies this
      ensures View(clock) == Next(job, old(View(clock)), ResendFires)
    {
      resendDue := None;
      Resend(clock);
    }

    method OnSocketErrorOrTimeout(timedOut: bool, clock: int)
      modifies this
      ensures View(clock) == Next(job, old(View(clock)), if timedOut then TimeoutFires else SocketError)
    {
      if timedOut { deadline := None; }
      SettleWith(if timedOut then TimedOut else SocketFailed);
    }
  }
}
