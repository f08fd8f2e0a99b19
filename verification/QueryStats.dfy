/** One query fanned out over several relays, under every interleaving of connections, events,
    EOSE, CLOSED, deadlines and early completion.

    Closing a subscription calls its onclose synchronously, so every close settles its relay on the
    spot; a late EOSE or CLOSED may still be delivered to a relay that has settled. */
module QueryStats {
  import opened LoaderKeys
  import opened ReplaceableLoader
  import opened Options

  datatype Cause = ByEose | ByClosed | ByDeadline | ByCompletion

  datatype Phase = Connecting | Unreachable | Skipped | Open | Settled(cause: Cause)

  type Relay = string

  type Goal = Option<seq<Event> -> bool>

  datatype State = State(
    relays: map<Relay, Phase>,
    events: seq<Event>,
    knownIds: set<string>,
    eoseCount: nat,
    completedEarly: bool,
    earlyClosers: seq<Relay>,
    reqsOpened: seq<Relay>,       // every recordReqOpened, in order
    reqsClosed: seq<Relay>)       // every recordReqClosed, in order

  datatype Input =
    | Connected(relay: Relay)
    | ConnectFails(relay: Relay)
    | Received(relay: Relay, event: Event)
    | Eose(relay: Relay)
    | ClosedByRelay(relay: Relay)
    | DeadlineFires(relay: Relay)

  function Initial(urls: set<Relay>): State {
    State(map u | u in urls :: Connecting, [], {}, 0, false, [], [], [])
  }

  function PhaseOf(s: State, relay: Relay): Phase { if relay in s.relays then s.relays[relay] else Unreachable }

  predicate Subscribed(s: State, relay: Relay) { PhaseOf(s, relay).Open? || PhaseOf(s, relay).Settled? }

  /** A settled relay's deadline timer is cleared; its subscription's callbacks may still run. */
  predicate Enabled(s: State, i: Input) {
    match i
    case Connected(r) => r in s.relays && s.relays[r].Connecting?
    case ConnectFails(r) => r in s.relays && s.relays[r].Connecting?
    case DeadlineFires(r) => PhaseOf(s, r).Open?
    case _ => Subscribed(s, i.relay)
  }

  /** finish: the first call settles the relay, later ones do nothing. */
  function Finish(s: State, relay: Relay, cause: Cause): State {
    if PhaseOf(s, relay).Open?
    then s.(relays := s.relays[relay := Settled(cause)], reqsClosed := s.reqsClosed + [relay]) else s
  }

  function FinishAll(s: State, relays: seq<Relay>): State {
    if relays == [] then s
    else Finish(FinishAll(s, relays[..|relays| - 1]), relays[|relays| - 1], ByCompletion)
  }

  predicate Achieved(goal: Goal, events: seq<Event>) { goal.Some? && goal.value(events) }

  function MaybeCompleteEarly(goal: Goal, s: State): State {
    if s.completedEarly || !Achieved(goal, s.events) then s else FinishAll(s.(completedEarly := true), s.earlyClosers)
  }

  function Subscribe(s: State, relay: Relay): State {
    s.(relays := s.relays[relay := Open], reqsOpened := s.reqsOpened + [relay],
       earlyClosers := s.earlyClosers + [relay])
  }

  function Next(goal: Goal, s: State, i: Input): State {
    match i
    case Connected(r) =>
      if s.completedEarly then s.(relays := s.relays[r := Skipped]) else MaybeCompleteEarly(goal, Subscribe(s, r))
    case ConnectFails(r) => s.(relays := s.relays[r := Unreachable])
    case Received(_, e) =>
      if e.id in s.knownIds then s
      else MaybeCompleteEarly(goal, s.(knownIds := s.knownIds + {e.id}, events := s.events + [e]))
    case Eose(r) => Finish(if PhaseOf(s, r).Open? then s.(eoseCount := s.eoseCount + 1) else s, r, ByEose)
    case ClosedByRelay(r) => Finish(s, r, ByClosed)
    case DeadlineFires(r) => Finish(s, r, ByDeadline)
  }

  function Run(goal: Goal, urls: set<Relay>, inputs: seq<Input>): State {
    if inputs == [] then Initial(urls)
    else Next(goal, Run(goal, urls, inputs[..|inputs| - 1]), inputs[|inputs| - 1])
  }

  ghost predicate Legal(goal: Goal, urls: set<Relay>, inputs: seq<Input>) {
    inputs == [] ||
    (&& Legal(goal, urls, inputs[..|inputs| - 1])
     && Enabled(Run(goal, urls, inputs[..|inputs| - 1]), inputs[|inputs| - 1]))
  }

  /** The query returns once every relay's promise has. */
  ghost predicate Returned(s: State) {
    forall r :: r in s.relays ==> !s.relays[r].Connecting? && !s.relays[r].Open?
  }

  // ---------------------------------------------------------------- the invariant

  ghost predicate Distinct<T>(xs: seq<T>) { forall i, j :: 0 <= i < j < |xs| ==> xs[i] != xs[j] }

  ghost predicate EventsOk(s: State) {
    && (forall i, j :: 0 <= i < j < |s.events| ==> s.events[i].id != s.events[j].id)
    && (forall e :: e in s.events ==> e.id in s.knownIds)
  }

  ghost predicate ReqsOk(s: State) {
    && Distinct(s.reqsOpened) && Distinct(s.reqsClosed)
    && (forall r :: r in s.reqsOpened <==> Subscribed(s, r))
    && (forall r :: r in s.reqsClosed <==> PhaseOf(s, r).Settled?)
    && s.earlyClosers == s.reqsOpened
  }

  ghost function AnsweredByEose(s: State): set<Relay> { set r | r in s.relays && s.relays[r] == Settled(ByEose) }

  ghost predicate CompletionOk(goal: Goal, s: State) {
    && (s.completedEarly ==> exists n :: 0 <= n <= |s.events| && Achieved(goal, s.events[..n]))
    && (s.completedEarly ==> forall r :: r in s.relays ==> !s.relays[r].Open?)
    && (!s.completedEarly && s.reqsOpened != [] ==> !Achieved(goal, s.events))
  }

  ghost predicate Inv(goal: Goal, s: State) {
    EventsOk(s) && ReqsOk(s) && s.eoseCount == |AnsweredByEose(s)| && CompletionOk(goal, s)
  }

  // ---------------------------------------------------------------- closing everything

  /** What closing a list of relays changes: the open ones among them settle, and nothing else. */
  lemma {:induction false} FinishAllMeans(s: State, relays: seq<Relay>)
    requires ReqsOk(s)
    ensures var t := FinishAll(s, relays);
      && t == s.(relays := t.relays, reqsClosed := t.reqsClosed)
      && t.relays.Keys == s.relays.Keys
      && (forall r :: r in s.relays ==>
            t.relays[r] == if s.relays[r].Open? && r in relays then Settled(ByCompletion) else s.relays[r])
      && ReqsOk(t)
  {
    if relays != [] {
      var n := |relays| - 1;
      FinishAllMeans(s, relays[..n]);
      var before, t := FinishAll(s, relays[..n]), FinishAll(s, relays);
      assert forall r :: r in relays <==> r in relays[..n] || r == relays[n];
      FinishKeepsReqs(before, relays[n], ByCompletion);
    }
  }

  lemma FinishKeepsReqs(s: State, relay: Relay, cause: Cause)
    requires ReqsOk(s)
    ensures ReqsOk(Finish(s, relay, cause))
  {
    var t := Finish(s, relay, cause);
    forall r ensures r in t.reqsClosed <==> PhaseOf(t, r).Settled? {}
    forall r ensures r in t.reqsOpened <==> Subscribed(t, r) {
      assert r in s.reqsOpened <==> Subscribed(s, r);
    }
  }

  lemma CompletionStep(goal: Goal, s: State)
    requires EventsOk(s) && ReqsOk(s) && s.eoseCount == |AnsweredByEose(s)|
    requires s.completedEarly ==> CompletionOk(goal, s)
    ensures Inv(goal, MaybeCompleteEarly(goal, s))
  {
    var t := MaybeCompleteEarly(goal, s);
    if !s.completedEarly && Achieved(goal, s.events) {
      var begun := s.(completedEarly := true);
      assert ReqsOk(begun);
      FinishAllMeans(begun, s.earlyClosers);
      assert AnsweredByEose(t) == AnsweredByEose(s);
      assert s.events[..|s.events|] == s.events;
      forall r | r in t.relays ensures !t.relays[r].Open? {
        if s.relays[r].Open? { assert r in s.reqsOpened; }
      }
    }
  }

  lemma SettleStep(goal: Goal, s: State, relay: Relay, cause: Cause)
    requires Inv(goal, s)
    ensures cause != ByEose ==> Inv(goal, Finish(s, relay, cause))
    ensures cause == ByEose && PhaseOf(s, relay).Open? ==>
      Inv(goal, Finish(s.(eoseCount := s.eoseCount + 1), relay, cause))
  {
    if cause != ByEose {
      OtherEnd(goal, s, relay, cause);
    } else if PhaseOf(s, relay).Open? {
      EoseEnd(goal, s, relay);
    }
  }

  lemma OtherEnd(goal: Goal, s: State, relay: Relay, cause: Cause)
    requires Inv(goal, s) && cause != ByEose
    ensures Inv(goal, Finish(s, relay, cause))
  {
    FinishKeepsReqs(s, relay, cause);
    assert AnsweredByEose(Finish(s, relay, cause)) == AnsweredByEose(s);
  }

  lemma EoseEnd(goal: Goal, s: State, relay: Relay)
    requires Inv(goal, s) && PhaseOf(s, relay).Open?
    ensures Inv(goal, Finish(s.(eoseCount := s.eoseCount + 1), relay, ByEose))
  {
    var counted := s.(eoseCount := s.eoseCount + 1);
    FinishKeepsReqs(counted, relay, ByEose);
    assert AnsweredByEose(Finish(counted, relay, ByEose)) == AnsweredByEose(s) + {relay};
  }

  lemma GivesUp(goal: Goal, s: State, relay: Relay, p: Phase)
    requires Inv(goal, s) && relay in s.relays && s.relays[relay].Connecting? && (p.Skipped? || p.Unreachable?)
    ensures Inv(goal, s.(relays := s.relays[relay := p]))
  {
    var t := s.(relays := s.relays[relay := p]);
    assert AnsweredByEose(t) == AnsweredByEose(s);
    assert forall r :: r in s.reqsOpened <==> Subscribed(s, r);
    assert forall r :: Subscribed(t, r) <==> Subscribed(s, r);
    assert forall r :: PhaseOf(t, r).Settled? <==> PhaseOf(s, r).Settled?;
  }

  lemma ConnectStep(goal: Goal, s: State, relay: Relay)
    requires Inv(goal, s) && relay in s.relays && s.relays[relay].Connecting?
    ensures Inv(goal, Next(goal, s, Connected(relay)))
    ensures Inv(goal, Next(goal, s, ConnectFails(relay)))
  {
    GivesUp(goal, s, relay, Skipped);
    GivesUp(goal, s, relay, Unreachable);
    if !s.completedEarly {
      var t := Subscribe(s, relay);
      assert AnsweredByEose(t) == AnsweredByEose(s);
      assert relay !in s.reqsOpened;
      assert forall r :: Subscribed(t, r) <==> Subscribed(s, r) || r == relay;
      assert forall r :: PhaseOf(t, r).Settled? <==> PhaseOf(s, r).Settled?;
      CompletionStep(goal, t);
    }
  }

  lemma ReceiveStep(goal: Goal, s: State, relay: Relay, e: Event)
    requires Inv(goal, s) && Subscribed(s, relay)
    ensures Inv(goal, Next(goal, s, Received(relay, e)))
  {
    if e.id !in s.knownIds {
      var t := s.(knownIds := s.knownIds + {e.id}, events := s.events + [e]);
      assert forall r :: Subscribed(t, r) <==> Subscribed(s, r);
      assert forall r :: PhaseOf(t, r).Settled? <==> PhaseOf(s, r).Settled?;
      assert AnsweredByEose(t) == AnsweredByEose(s);
      if s.completedEarly {
        var n :| 0 <= n <= |s.events| && Achieved(goal, s.events[..n]);
        assert t.events[..n] == s.events[..n];
      }
      CompletionStep(goal, t);
    }
  }

  lemma {:induction false} RunKeepsInv(goal: Goal, urls: set<Relay>, inputs: seq<Input>)
    requires Legal(goal, urls, inputs)
    ensures Inv(goal, Run(goal, urls, inputs))
  {
    if inputs == [] {
      assert AnsweredByEose(Initial(urls)) == {};
    } else {
      var s, i := Run(goal, urls, inputs[..|inputs| - 1]), inputs[|inputs| - 1];
      RunKeepsInv(goal, urls, inputs[..|inputs| - 1]);
      match i {
        case Connected(r) => ConnectStep(goal, s, r);
        case ConnectFails(r) => ConnectStep(goal, s, r);
        case Received(r, e) => ReceiveStep(goal, s, r, e);
        case Eose(r) => SettleStep(goal, s, r, ByEose);
        case ClosedByRelay(r) => SettleStep(goal, s, r, ByClosed);
        case DeadlineFires(r) => SettleStep(goal, s, r, ByDeadline);
      }
    }
  }

  // ---------------------------------------------------------------- what the caller gets

  /** The relay's EOSE arrived while its REQ was still undecided. */
  ghost predicate AnsweredInTime(goal: Goal, urls: set<Relay>, inputs: seq<Input>, relay: Relay) {
    exists n :: 0 <= n < |inputs| && inputs[n] == Eose(relay) && PhaseOf(Run(goal, urls, inputs[..n]), relay).Open?
  }

  /** The state in which a completing step starts to close the REQs. */
  function Begun(s: State, i: Input): State {
    match i
    case Connected(r) => Subscribe(s, r).(completedEarly := true)
    case Received(_, e) => s.(knownIds := s.knownIds + {e.id}, events := s.events + [e], completedEarly := true)
    case _ => s
  }

  lemma BegunOk(s: State, i: Input)
    requires ReqsOk(s) && Enabled(s, i)
    ensures ReqsOk(Begun(s, i))
  {
    var t := Begun(s, i);
    if i.Connected? { assert i.relay !in s.reqsOpened; }
    forall r ensures (Subscribed(t, r) <==> Subscribed(s, r) || i == Connected(r))
      && PhaseOf(t, r).Settled? == PhaseOf(s, r).Settled?
    {
      assert r in s.reqsOpened <==> Subscribed(s, r);
    }
  }

  lemma ClosingAllTouches(s: State, i: Input, relay: Relay)
    requires ReqsOk(s) && Enabled(s, i) && (i.Connected? || i.Received?)
    ensures var t := FinishAll(Begun(s, i), Begun(s, i).earlyClosers);
      t.relays.Keys == s.relays.Keys && (PhaseOf(t, relay) == Settled(ByEose) <==> PhaseOf(s, relay) == Settled(ByEose))
  {
    BegunOk(s, i);
    FinishAllMeans(Begun(s, i), Begun(s, i).earlyClosers);
  }

  lemma StepSettles(goal: Goal, s: State, i: Input, relay: Relay)
    requires ReqsOk(s) && Enabled(s, i)
    ensures Next(goal, s, i).relays.Keys == s.relays.Keys
    ensures PhaseOf(Next(goal, s, i), relay) == Settled(ByEose)
       <==> PhaseOf(s, relay) == Settled(ByEose) || (i == Eose(relay) && PhaseOf(s, relay).Open?)
  {
    if i.Connected? || i.Received? {
      ClosingAllTouches(s, i, relay);
      var t := Next(goal, s, i);
      if t.completedEarly && !s.completedEarly {
        assert t == FinishAll(Begun(s, i), Begun(s, i).earlyClosers);
      }
    }
  }

  lemma {:induction false} EoseCause(goal: Goal, urls: set<Relay>, inputs: seq<Input>, relay: Relay)
    requires Legal(goal, urls, inputs)
    ensures PhaseOf(Run(goal, urls, inputs), relay) == Settled(ByEose) <==> AnsweredInTime(goal, urls, inputs, relay)
  {
    if inputs != [] {
      var before, i := inputs[..|inputs| - 1], inputs[|inputs| - 1];
      EoseCause(goal, urls, before, relay);
      RunKeepsInv(goal, urls, before);
      StepSettles(goal, Run(goal, urls, before), i, relay);
      AnsweredByNow(goal, urls, inputs, relay);
    }
  }

  lemma AnsweredByNow(goal: Goal, urls: set<Relay>, inputs: seq<Input>, relay: Relay)
    requires inputs != []
    ensures var before, i := inputs[..|inputs| - 1], inputs[|inputs| - 1];
      AnsweredInTime(goal, urls, inputs, relay)
      <==> AnsweredInTime(goal, urls, before, relay) ||
           (i == Eose(relay) && PhaseOf(Run(goal, urls, before), relay).Open?)
  {
    var last := |inputs| - 1;
    var before := inputs[..last];
    if AnsweredInTime(goal, urls, inputs, relay) {
      var n :| 0 <= n < |inputs| && inputs[n] == Eose(relay) && PhaseOf(Run(goal, urls, inputs[..n]), relay).Open?;
      if n < last { assert before[..n] == inputs[..n] && before[n] == inputs[n]; }
    }
    if AnsweredInTime(goal, urls, before, relay) {
      var n :| 0 <= n < last && before[n] == Eose(relay) && PhaseOf(Run(goal, urls, before[..n]), relay).Open?;
      assert before[..n] == inputs[..n] && before[n] == inputs[n];
    }
  }

  ghost function RelaysAnswering(goal: Goal, urls: set<Relay>, inputs: seq<Input>): set<Relay> {
    set r | r in urls && AnsweredInTime(goal, urls, inputs, r)
  }

  lemma {:induction false} RelaysStay(goal: Goal, urls: set<Relay>, inputs: seq<Input>)
    requires Legal(goal, urls, inputs)
    ensures Run(goal, urls, inputs).relays.Keys == urls
  {
    if inputs != [] {
      var before := inputs[..|inputs| - 1];
      RelaysStay(goal, urls, before);
      RunKeepsInv(goal, urls, before);
      StepSettles(goal, Run(goal, urls, before), inputs[|inputs| - 1], "");
    }
  }

  /** At any moment of any run: events are distinct by id, and eoseCount is exactly the number of
      relays whose EOSE came before anything else settled them. */
  lemma CountsAreExact(goal: Goal, urls: set<Relay>, inputs: seq<Input>)
    requires Legal(goal, urls, inputs)
    ensures var s := Run(goal, urls, inputs);
      && (forall i, j :: 0 <= i < j < |s.events| ==> s.events[i].id != s.events[j].id)
      && s.eoseCount == |RelaysAnswering(goal, urls, inputs)|
  {
    RunKeepsInv(goal, urls, inputs);
    RelaysStay(goal, urls, inputs);
    forall r ensures PhaseOf(Run(goal, urls, inputs), r) == Settled(ByEose) <==> AnsweredInTime(goal, urls, inputs, r) {
      EoseCause(goal, urls, inputs, r);
    }
    assert AnsweredByEose(Run(goal, urls, inputs)) == RelaysAnswering(goal, urls, inputs);
  }

  /** Every opened REQ is recorded closed exactly once by the time the query returns, and never more
      than once before. */
  lemma ReqsAreClosedOnce(goal: Goal, urls: set<Relay>, inputs: seq<Input>)
    requires Legal(goal, urls, inputs)
    ensures var s := Run(goal, urls, inputs);
      && Distinct(s.reqsOpened) && Distinct(s.reqsClosed)
      && (forall r :: r in s.reqsClosed ==> r in s.reqsOpened)
      && (Returned(s) <==>
            forall r :: r in urls && PhaseOf(s, r) != Skipped && PhaseOf(s, r) != Unreachable ==> r in s.reqsClosed)
      && (Returned(s) ==> forall r :: r in s.reqsOpened <==> r in s.reqsClosed)
  {
    RunKeepsInv(goal, urls, inputs);
    RelaysStay(goal, urls, inputs);
    var s := Run(goal, urls, inputs);
    forall r ensures (r in s.reqsOpened <==> Subscribed(s, r)) && (r in s.reqsClosed <==> PhaseOf(s, r).Settled?) {}
  }

  /** Completion closes every REQ, happens only when the goal held of what had arrived, and is not
      missed: while some REQ is open and the goal holds, the query has completed. */
  lemma CompletionIsExact(goal: Goal, urls: set<Relay>, inputs: seq<Input>)
    requires Legal(goal, urls, inputs)
    ensures var s := Run(goal, urls, inputs);
      && (s.completedEarly ==> exists n :: 0 <= n <= |s.events| && Achieved(goal, s.events[..n]))
      && (s.completedEarly ==> forall r :: PhaseOf(s, r) != Open)
      && (s.reqsOpened != [] && Achieved(goal, s.events) ==> s.completedEarly)
  {
    RunKeepsInv(goal, urls, inputs);
  }

  /** For the loader's own goal, a query that completed early returns events that resolve every key. */
  lemma EarlyAnswersAreComplete(keys: seq<string>, requests: seq<Request>, goal: Goal, urls: set<Relay>,
      inputs: seq<Input>)
    requires |keys| == |requests|
    requires goal.Some? && forall es :: goal.value(es) <==> Complete(keys, requests, es)
    requires Legal(goal, urls, inputs) && Run(goal, urls, inputs).completedEarly
    ensures Complete(keys, requests, Run(goal, urls, inputs).events)
  {
    CompletionIsExact(goal, urls, inputs);
    var events := Run(goal, urls, inputs).events;
    var n :| 0 <= n <= |events| && Achieved(goal, events[..n]);
    CompletionIsMonotone(keys, requests, events[..n], events[n..]);
    assert events[..n] + events[n..] == events;
  }

  // ---------------------------------------------------------------- the whole query, from the inputs alone

  ghost predicate WasHeard(inputs: seq<Input>, id: string) {
    exists x :: x in inputs && x.Received? && x.event.id == id
  }

  /** The events that arrived, each on its first arrival. */
  ghost function Heard(inputs: seq<Input>): seq<Event> {
    if inputs == [] then []
    else
      var before, i := inputs[..|inputs| - 1], inputs[|inputs| - 1];
      Heard(before) + if i.Received? && !WasHeard(before, i.event.id) then [i.event] else []
  }

  /** The goal was achieved when a relay was subscribed to or a new event came. */
  ghost predicate Completed(goal: Goal, inputs: seq<Input>) {
    inputs != [] &&
    var before, i := inputs[..|inputs| - 1], inputs[|inputs| - 1];
    || Completed(goal, before)
    || ((i.Connected? || Heard(inputs) != Heard(before)) && Achieved(goal, Heard(inputs)))
  }

  /** The relays that were sent the REQ, in order: those that connected before completion. */
  ghost function Asked(goal: Goal, inputs: seq<Input>): seq<Relay> {
    if inputs == [] then []
    else
      var before, i := inputs[..|inputs| - 1], inputs[|inputs| - 1];
      Asked(goal, before) + if i.Connected? && !Completed(goal, before) then [i.relay] else []
  }

  /** How the last input ends the relay's REQ, if it does. */
  ghost function LastEnd(goal: Goal, inputs: seq<Input>, relay: Relay): Option<Cause>
    requires inputs != []
  {
    var before, i := inputs[..|inputs| - 1], inputs[|inputs| - 1];
    if i == Eose(relay) then Some(ByEose)
    else if i == ClosedByRelay(relay) then Some(ByClosed)
    else if i == DeadlineFires(relay) then Some(ByDeadline)
    else if !Completed(goal, before) && Completed(goal, inputs) then Some(ByCompletion)
    else None
  }

  /** The first such end since the REQ was sent. */
  ghost function EndOf(goal: Goal, inputs: seq<Input>, relay: Relay): Option<Cause> {
    if inputs == [] then None
    else
      var before := inputs[..|inputs| - 1];
      if EndOf(goal, before, relay).Some? then EndOf(goal, before, relay)
      else if relay in Asked(goal, inputs) then LastEnd(goal, inputs, relay)
      else None
  }

  ghost function PhaseBy(goal: Goal, inputs: seq<Input>, relay: Relay): Phase {
    if relay in Asked(goal, inputs) then
      if EndOf(goal, inputs, relay).Some? then Settled(EndOf(goal, inputs, relay).value) else Open
    else if Connected(relay) in inputs then Skipped
    else if ConnectFails(relay) in inputs then Unreachable
    else Connecting
  }

  ghost predicate LogBy(goal: Goal, inputs: seq<Input>, s: State) {
    && s.events == Heard(inputs)
    && (forall id :: id in s.knownIds <==> WasHeard(inputs, id))
    && s.completedEarly == Completed(goal, inputs)
    && s.reqsOpened == Asked(goal, inputs)
  }

  /** What completion does to a state in which every open relay has its closer. */
  lemma CompletionMeans(goal: Goal, s: State)
    requires ReqsOk(s)
    ensures var t := MaybeCompleteEarly(goal, s);
      && t == s.(relays := t.relays, reqsClosed := t.reqsClosed, completedEarly := t.completedEarly)
      && t.completedEarly == (s.completedEarly || Achieved(goal, s.events))
      && t.relays.Keys == s.relays.Keys
      && forall r :: r in s.relays ==> t.relays[r] == Ended(s.relays[r], t.completedEarly && !s.completedEarly)
  {
    var begun := s.(completedEarly := true);
    forall r ensures (r in begun.reqsOpened <==> Subscribed(begun, r))
      && (r in begun.reqsClosed <==> PhaseOf(begun, r).Settled?)
    {
      assert r in s.reqsOpened <==> Subscribed(s, r);
    }
    FinishAllMeans(begun, s.earlyClosers);
    forall r | r in s.relays && s.relays[r].Open? ensures r in s.earlyClosers { assert Subscribed(s, r); }
  }

  function Ended(p: Phase, completes: bool): Phase { if completes && p.Open? then Settled(ByCompletion) else p }

  /** What a completing step works on before it looks at the goal. */
  function Prepared(s: State, i: Input): State {
    match i
    case Connected(r) => Subscribe(s, r)
    case Received(_, e) => s.(knownIds := s.knownIds + {e.id}, events := s.events + [e])
    case _ => s
  }

  lemma PreparedOk(s: State, i: Input)
    requires ReqsOk(s) && Enabled(s, i)
    ensures ReqsOk(Prepared(s, i))
  {
    var t := Prepared(s, i);
    if i.Connected? { assert i.relay !in s.reqsOpened; }
    forall r ensures (Subscribed(t, r) <==> Subscribed(s, r) || i == Connected(r))
      && PhaseOf(t, r).Settled? == PhaseOf(s, r).Settled?
    {
      assert r in s.reqsOpened <==> Subscribed(s, r);
    }
  }

  /** What one step makes of one relay. */
  function PhaseNext(s: State, i: Input, completed: bool, relay: Relay): Phase
    requires relay in s.relays
  {
    var p, completes := s.relays[relay], completed && !s.completedEarly;
    if i == Connected(relay) then (if s.completedEarly then Skipped else Ended(Open, completes))
    else if i == ConnectFails(relay) then Unreachable
    else if !p.Open? then p
    else if i == Eose(relay) then Settled(ByEose)
    else if i == ClosedByRelay(relay) then Settled(ByClosed)
    else if i == DeadlineFires(relay) then Settled(ByDeadline)
    else Ended(p, completes)
  }

  lemma PhaseStep(goal: Goal, s: State, i: Input, relay: Relay)
    requires ReqsOk(s) && Enabled(s, i) && relay in s.relays
    ensures var t := Next(goal, s, i);
      relay in t.relays && t.relays[relay] == PhaseNext(s, i, t.completedEarly, relay)
  {
    if (i.Connected? && !s.completedEarly) || (i.Received? && i.event.id !in s.knownIds) {
      PreparedOk(s, i);
      CompletionMeans(goal, Prepared(s, i));
    }
  }

  lemma LogStep(goal: Goal, s: State, i: Input, t: State, before: seq<Input>, inputs: seq<Input>)
    requires ReqsOk(s) && LogBy(goal, before, s) && Enabled(s, i) && t == Next(goal, s, i)
    requires inputs != [] && before == inputs[..|inputs| - 1] && i == inputs[|inputs| - 1]
    ensures LogBy(goal, inputs, t)
  {
    HeardStep(before, inputs);
    if (i.Connected? && !s.completedEarly) || (i.Received? && i.event.id !in s.knownIds) {
      PreparedOk(s, i);
      CompletionMeans(goal, Prepared(s, i));
      assert t == MaybeCompleteEarly(goal, Prepared(s, i));
      assert Prepared(s, i).events == Heard(inputs);
    } else {
      assert t.events == s.events == Heard(inputs) && t.completedEarly == s.completedEarly;
    }
  }

  lemma HeardStep(before: seq<Input>, inputs: seq<Input>)
    requires inputs != [] && before == inputs[..|inputs| - 1]
    ensures forall id :: WasHeard(inputs, id) <==>
      WasHeard(before, id) || (inputs[|inputs| - 1].Received? && inputs[|inputs| - 1].event.id == id)
  {
    var i := inputs[|inputs| - 1];
    assert forall x :: x in inputs <==> x in before || x == i;
  }

  lemma PhaseByStep(goal: Goal, s: State, i: Input, completed: bool, before: seq<Input>, inputs: seq<Input>,
      relay: Relay)
    requires inputs != [] && before == inputs[..|inputs| - 1] && i == inputs[|inputs| - 1]
    requires relay in s.relays && s.relays[relay] == PhaseBy(goal, before, relay) && Enabled(s, i)
    requires s.completedEarly == Completed(goal, before) && completed == Completed(goal, inputs)
    ensures PhaseNext(s, i, completed, relay) == PhaseBy(goal, inputs, relay)
  {
    assert forall x :: x in inputs <==> x in before || x == i;
    assert Asked(goal, inputs)
      == Asked(goal, before) + if i.Connected? && !Completed(goal, before) then [i.relay] else [];
    if i == Connected(relay) {
      AskedNow(goal, before, inputs, relay);
    } else if i == ConnectFails(relay) {
      assert relay !in Asked(goal, inputs);
    } else {
      StillAsked(goal, before, inputs, relay);
    }
  }

  lemma AskedNow(goal: Goal, before: seq<Input>, inputs: seq<Input>, relay: Relay)
    requires inputs != [] && before == inputs[..|inputs| - 1] && inputs[|inputs| - 1] == Connected(relay)
    requires relay !in Asked(goal, before)
    ensures relay in Asked(goal, inputs) <==> !Completed(goal, before)
    ensures !Completed(goal, before) ==>
      EndOf(goal, inputs, relay) == if Completed(goal, inputs) then Some(ByCompletion) else None
  {
    assert Asked(goal, inputs) == Asked(goal, before) + if Completed(goal, before) then [] else [relay];
    if !Completed(goal, before) {
      UnaskedIsUnended(goal, before, relay);
      assert EndOf(goal, inputs, relay) == LastEnd(goal, inputs, relay);
    }
  }

  lemma StillAsked(goal: Goal, before: seq<Input>, inputs: seq<Input>, relay: Relay)
    requires inputs != [] && before == inputs[..|inputs| - 1] && inputs[|inputs| - 1] != Connected(relay)
    ensures relay in Asked(goal, inputs) <==> relay in Asked(goal, before)
    ensures EndOf(goal, inputs, relay) == if EndOf(goal, before, relay).Some? then EndOf(goal, before, relay)
      else if relay in Asked(goal, before) then LastEnd(goal, inputs, relay) else None
  {
  }

  lemma {:induction false} UnaskedIsUnended(goal: Goal, inputs: seq<Input>, relay: Relay)
    requires relay !in Asked(goal, inputs)
    ensures EndOf(goal, inputs, relay).None?
  {
    if inputs != [] { UnaskedIsUnended(goal, inputs[..|inputs| - 1], relay); }
  }

  /** Main theorem: everything a query keeps, from the inputs alone: the events are those that arrived, once
      each and in order; it completes early exactly when the goal was achieved at a subscription or a new
      event; the relays asked are those that connected before that; and each of them is settled by the
      first thing that ended its REQ. */
  lemma {:induction false} QueryExactly(goal: Goal, urls: set<Relay>, inputs: seq<Input>)
    requires Legal(goal, urls, inputs)
    ensures LogBy(goal, inputs, Run(goal, urls, inputs))
    ensures Run(goal, urls, inputs).relays == map r | r in urls :: PhaseBy(goal, inputs, r)
  {
    RelaysStay(goal, urls, inputs);
    var t := Run(goal, urls, inputs);
    if inputs != [] {
      var before, i := inputs[..|inputs| - 1], inputs[|inputs| - 1];
      QueryExactly(goal, urls, before);
      RunKeepsInv(goal, urls, before);
      RelaysStay(goal, urls, before);
      var s := Run(goal, urls, before);
      LogStep(goal, s, i, t, before, inputs);
      forall r | r in urls ensures t.relays[r] == PhaseBy(goal, inputs, r) {
        assert s.relays[r] == PhaseBy(goal, before, r);
        PhaseStep(goal, s, i, r);
        PhaseByStep(goal, s, i, t.completedEarly, before, inputs, r);
      }
    }
  }

  // ---------------------------------------------------------------- the query itself

  class Query {
    const goal: Goal
    var relays: map<Relay, Phase>
    var events: seq<Event>
    var knownIds: set<string>
    var eoseCount: nat
    var completedEarly: bool
    var earlyClosers: seq<Relay>
    var reqsOpened: seq<Relay>
    var reqsClosed: seq<Relay>

    ghost function View(): State reads this {
      State(relays, events, knownIds, eoseCount, completedEarly, earlyClosers, reqsOpened, reqsClosed)
    }

    constructor (goal: Goal, urls: set<Relay>)
      ensures this.goal == goal && View() == Initial(urls)
    {
      this.goal := goal;
      relays := map u | u in urls :: Connecting;
      events, knownIds, eoseCount, completedEarly, earlyClosers, reqsOpened, reqsClosed := [], {}, 0, false, [], [], [];
    }

    method Settle(relay: Relay, cause: Cause)
      modifies this`relays, this`reqsClosed
      ensures View() == Finish(old(View()), relay, cause)
    {
      if relay in relays && relays[relay].Open? {
        relays := relays[relay := Settled(cause)];
        reqsClosed := reqsClosed + [relay];
      }
    }

    method CheckCompletion()
      modifies this`relays, this`reqsClosed, this`completedEarly
      ensures View() == MaybeCompleteEarly(goal, old(View()))
    {
      if completedEarly || goal.None? || !goal.value(events) { return; }
      completedEarly := true;
      ghost var begun := View();
      for i := 0 to |earlyClosers|
        invariant View() == FinishAll(begun, earlyClosers[..i])
        invariant earlyClosers == begun.earlyClosers && completedEarly
      {
        assert earlyClosers[..i + 1][..i] == earlyClosers[..i];
        Settle(earlyClosers[i], ByCompletion);
      }
      assert earlyClosers[..|earlyClosers|] == earlyClosers;
    }

    method OnConnected(relay: Relay)
      requires Enabled(View(), Connected(relay))
      modifies this
      ensures View() == Next(goal, old(View()), Connected(relay))
    {
      if completedEarly {
        relays := relays[relay := Skipped];
        return;
      }
      reqsOpened := reqsOpened + [relay];
      relays := relays[relay := Open];
      earlyClosers := earlyClosers + [relay];
      CheckCompletion();
    }

    method OnConnectFailed(relay: Relay)
      requires Enabled(View(), ConnectFails(relay))
      modifies this`relays
      ensures View() == Next(goal, old(View()), ConnectFails(relay))
    {
      relays := relays[relay := Unreachable];
    }

    method OnEvent(relay: Relay, event: Event)
      requires Enabled(View(), Received(relay, event))
      modifies this
      ensures View() == Next(goal, old(View()), Received(relay, event))
    {
      if event.id in knownIds { return; }
      knownIds := knownIds + {event.id};
      events := events + [event];
      CheckCompletion();
    }

    method OnEose(relay: Relay)
      requires Enabled(View(), Eose(relay))
      modifies this
      ensures View() == Next(goal, old(View()), Eose(relay))
    {
      if relay in relays && relays[relay].Open? { eoseCount := eoseCount + 1; }
      Settle(relay, ByEose);
    }

    method OnClosed(relay: Relay)
      requires Enabled(View(), ClosedByRelay(relay))
      modifies this
      ensures View() == Next(goal, old(View()), ClosedByRelay(relay))
    {
      Settle(relay, ByClosed);
    }

    method OnDeadline(relay: Relay)
      requires Enabled(View(), DeadlineFires(relay))
      modifies this
      ensures View() == Next(goal, old(View()), DeadlineFires(relay))
    {
      Settle(relay, ByDeadline);
    }
  }
}
