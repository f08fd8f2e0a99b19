/** One pooled sender's connection to a source chat: its queue, the loop that drains it, and every
    socket it ever made.

    The loop holds its socket in one field, `ws`, which the close event of any socket of the sender
    clears, whichever socket the field holds by then. A socket is closing from the moment either side
    starts to, and its close event comes later. `Drain` runs the loop up to its next await: a
    registration, a handshake, or the pause that keeps messages apart. When an await or the loop
    itself is over, the code behind it runs only later, and until then anything may come between. */
module SenderPool {
  import opened Options

  const SEND_SPACING_MS := 700

  datatype Status = Connecting | Open | Closing | Closed

  datatype Phase =
    | Idle
    | Registering               // connect(), before there is a socket
    | Handshaking(socket: nat)
    | Connected                 // the handshake is over, the loop still to go on
    | Pausing(until: int)
    | Ending                    // the loop is over, its `finally` still to run

  /** A payload taken off the queue; sent is false when `ws` held no open socket to send it on. */
  datatype Shipment = Shipment(payload: string, at: int, sent: bool)

  datatype State = State(
    clock: int,
    queue: seq<string>,
    phase: Phase,
    sockets: seq<Status>,       // every socket ever made, by order of dialling
    ws: Option<nat>,
    lastSentAt: int,
    accepted: seq<string>,
    shipped: seq<Shipment>,
    detached: bool)             // destroyInstance has dropped this connection from the pool

  datatype Input =
    | Elapsed(ms: nat)
    | Send(payload: string)
    | Registered
    | RegisterFails
    | SocketOpens
    | HandshakeFails
    | LoopResumes
    | PauseEnds
    | FinallyRuns
    | StartsClosing(socket: nat)
    | CloseEvent(socket: nat)
    | DestroyInstance

  const INITIAL := State(0, [], Idle, [], None, 0, [], [], false)

  function StatusOf(s: State, socket: nat): Status { if socket < |s.sockets| then s.sockets[socket] else Closed }

  /** The close event of a socket whose handshake is still awaited comes after its error event. */
  predicate Enabled(s: State, i: Input) {
    match i
    case Elapsed(_) => true
    case Send(_) => !s.detached
    case Registered => s.phase.Registering?
    case RegisterFails => s.phase.Registering?
    case SocketOpens => s.phase.Handshaking? && StatusOf(s, s.phase.socket).Connecting?
    case HandshakeFails => s.phase.Handshaking?
    case LoopResumes => s.phase.Connected?
    case PauseEnds => s.phase.Pausing? && s.clock >= s.phase.until
    case FinallyRuns => s.phase.Ending?
    case StartsClosing(j) => StatusOf(s, j).Open?
    case CloseEvent(j) => StatusOf(s, j).Closing? && s.phase != Handshaking(j)
    case DestroyInstance => !s.detached
  }

  /** `ws` is there and its readyState is OPEN. */
  predicate Usable(s: State) { s.ws.Some? && StatusOf(s, s.ws.value).Open? }

  function Turn(s: State, socket: nat, status: Status): State {
    if socket < |s.sockets| then s.(sockets := s.sockets[socket := status]) else s
  }

  /** ws?.close() */
  function CloseHeld(s: State): State {
    if s.ws.Some? && !StatusOf(s, s.ws.value).Closed? then Turn(s, s.ws.value, Closing) else s
  }

  /** Take one payload off the queue; nothing checks that the socket is still there. */
  function Ship(s: State): State
    requires s.queue != []
  {
    s.(queue := s.queue[1..], shipped := s.shipped + [Shipment(s.queue[0], s.clock, Usable(s))],
       lastSentAt := s.clock)
  }

  predicate Spaced(s: State) { s.lastSentAt + SEND_SPACING_MS <= s.clock }

  predicate MayShip(s: State) { s.queue != [] && Usable(s) && Spaced(s) }

  /** Where the loop stops when there is nothing it may ship. */
  function Await(s: State): State {
    if s.queue == [] then s.(phase := Ending)
    else if !Usable(s) then s.(phase := Registering)
    else s.(phase := Pausing(s.lastSentAt + SEND_SPACING_MS))
  }

  /** The loop from its head takes at most one payload before it has to wait again. */
  function Drain(s: State): State { if MayShip(s) then Await(Ship(s)) else Await(s) }

  /** The loop behind its pause. */
  function Take(s: State): State { if s.queue == [] then s.(phase := Ending) else Await(Ship(s)) }

  /** The loop behind connect(): it pauses if it must, and looks at the socket no more. */
  function Resume(s: State): State {
    if Spaced(s) then Take(s) else s.(phase := Pausing(s.lastSentAt + SEND_SPACING_MS))
  }

  function Next(s: State, i: Input): State {
    match i
    case Elapsed(ms) => s.(clock := s.clock + ms)
    case Send(payload) =>
      var t := s.(queue := s.queue + [payload], accepted := s.accepted + [payload]);
      if s.phase.Idle? then Drain(t) else t
    case Registered =>
      s.(phase := Handshaking(|s.sockets|), sockets := s.sockets + [Connecting], ws := Some(|s.sockets|))
    case RegisterFails => s.(phase := Ending)
    case SocketOpens => if s.phase.Handshaking? then Turn(s, s.phase.socket, Open).(phase := Connected) else s
    case HandshakeFails => if s.phase.Handshaking? then Turn(s, s.phase.socket, Closing).(phase := Ending) else s
    case LoopResumes => Resume(s)
    case PauseEnds => Take(s)
    case FinallyRuns => s.(phase := Idle)
    case StartsClosing(j) => Turn(s, j, Closing)
    case CloseEvent(j) => Turn(s, j, Closed).(ws := None)
    case DestroyInstance => CloseHeld(s).(detached := true)
  }

  function Run(inputs: seq<Input>): State {
    if inputs == [] then INITIAL else Next(Run(inputs[..|inputs| - 1]), inputs[|inputs| - 1])
  }

  ghost predicate Legal(inputs: seq<Input>) {
    inputs == [] || (Legal(inputs[..|inputs| - 1]) && Enabled(Run(inputs[..|inputs| - 1]), inputs[|inputs| - 1]))
  }

  // ---------------------------------------------------------------- what is kept

  function Payloads(shipped: seq<Shipment>): seq<string> {
    if shipped == [] then [] else Payloads(shipped[..|shipped| - 1]) + [shipped[|shipped| - 1].payload]
  }

  ghost predicate Paced(s: State) {
    && (forall i, j :: 0 <= i < j < |s.shipped| ==> s.shipped[i].at + SEND_SPACING_MS <= s.shipped[j].at)
    && (s.shipped != [] ==> s.shipped[|s.shipped| - 1].at == s.lastSentAt)
  }

  /** A message is on its way: the loop will take one as soon as its await is over. */
  predicate UnderWay(p: Phase) { p.Handshaking? || p.Connected? || p.Pausing? }

  ghost predicate PhaseOk(s: State) {
    && (s.phase.Registering? || UnderWay(s.phase) ==> s.queue != [])
    && (s.phase.Pausing? ==> s.phase.until == s.lastSentAt + SEND_SPACING_MS)
  }

  ghost predicate Kept(s: State) { Payloads(s.shipped) + s.queue == s.accepted && Paced(s) }

  ghost predicate Inv(s: State) { Kept(s) && PhaseOk(s) }

  /** Only the socket whose handshake is awaited is connecting, and `ws` holds it or nothing; `ws`
      never holds a socket whose close event has come. */
  ghost predicate SocketsOk(s: State) {
    && (s.ws.Some? ==> !StatusOf(s, s.ws.value).Closed?)
    && (forall j :: StatusOf(s, j).Connecting? ==> s.phase == Handshaking(j))
    && (s.phase.Handshaking? ==>
        && (StatusOf(s, s.phase.socket).Connecting? || (StatusOf(s, s.phase.socket).Closing? && s.detached))
        && (s.ws.Some? ==> s.ws.value == s.phase.socket))
  }

  /** Ready to ship: the spacing has passed. */
  ghost predicate Due(s: State) { s.shipped != [] ==> Spaced(s) }

  lemma ShipKeeps(s: State)
    requires s.queue != [] && Kept(s) && Due(s)
    ensures Kept(Ship(s))
  {
    var t := Ship(s);
    assert t.shipped[..|s.shipped|] == s.shipped;
    assert Payloads(s.shipped) + [s.queue[0]] + s.queue[1..] == Payloads(s.shipped) + s.queue;
  }

  lemma AwaitKeeps(s: State)
    requires Kept(s)
    ensures Inv(Await(s)) && !Await(s).phase.Idle?
    ensures Await(s).phase.Ending? ==> Await(s).queue == []
  {
    var t := Await(s);
    assert t == s.(phase := t.phase);
    assert Kept(t) by { assert Paced(t); }
  }

  lemma DrainKeeps(s: State)
    requires Kept(s)
    ensures Inv(Drain(s)) && !Drain(s).phase.Idle? && Drain(s).accepted == s.accepted
    ensures Drain(s).phase.Ending? ==> Drain(s).queue == []
  {
    if MayShip(s) {
      ShipKeeps(s);
      AwaitKeeps(Ship(s));
    } else {
      AwaitKeeps(s);
    }
  }

  lemma TakeKeeps(s: State)
    requires Inv(s) && s.queue != [] && Due(s)
    ensures Inv(Take(s)) && !Take(s).phase.Idle?
    ensures Take(s).phase.Ending? ==> Take(s).queue == []
  {
    ShipKeeps(s);
    AwaitKeeps(Ship(s));
  }

  lemma SendWakes(s: State, payload: string)
    requires Inv(s) && Enabled(s, Send(payload))
    ensures Inv(Next(s, Send(payload))) && !Next(s, Send(payload)).phase.Idle?
    ensures Next(s, Send(payload)).accepted == s.accepted + [payload]
    ensures s.phase.Idle? && Next(s, Send(payload)).phase.Ending? ==> Next(s, Send(payload)).queue == []
  {
    var t := s.(queue := s.queue + [payload], accepted := s.accepted + [payload]);
    assert Payloads(t.shipped) + t.queue == Payloads(s.shipped) + s.queue + [payload];
    DrainKeeps(t);
  }

  lemma StepKeeps(s: State, i: Input)
    requires Inv(s) && Enabled(s, i)
    ensures Inv(Next(s, i))
  {
    match i {
      case Send(payload) => SendWakes(s, payload);
      case LoopResumes => if Spaced(s) { TakeKeeps(s); }
      case PauseEnds => TakeKeeps(s);
      case _ => InvDependsOn(s, Next(s, i));
    }
  }

  lemma InvDependsOn(s: State, t: State)
    requires Inv(s) && t.shipped == s.shipped && t.queue == s.queue && t.accepted == s.accepted
      && t.lastSentAt == s.lastSentAt
    requires t.phase == s.phase || t.phase.Ending? || t.phase.Idle?
      || ((t.phase.Handshaking? || t.phase.Connected?) && (s.phase.Registering? || UnderWay(s.phase)))
    ensures Inv(t)
  {
  }

  lemma CloseKeepsSockets(s: State, i: Input)
    requires SocketsOk(s) && Enabled(s, i)
    requires i.StartsClosing? || i.CloseEvent? || i.DestroyInstance?
    ensures SocketsOk(Next(s, i))
  {
  }

  lemma LoopKeepsSockets(s: State, i: Input)
    requires SocketsOk(s) && Enabled(s, i)
    requires i.Send? || i.LoopResumes? || i.PauseEnds?
    ensures SocketsOk(Next(s, i))
  {
  }

  lemma StepKeepsSockets(s: State, i: Input)
    requires SocketsOk(s) && Enabled(s, i)
    ensures SocketsOk(Next(s, i))
  {
    if i.StartsClosing? || i.CloseEvent? || i.DestroyInstance? {
      CloseKeepsSockets(s, i);
    } else if i.Send? || i.LoopResumes? || i.PauseEnds? {
      LoopKeepsSockets(s, i);
    }
  }

  lemma {:induction false} RunKeeps(inputs: seq<Input>)
    requires Legal(inputs)
    ensures Inv(Run(inputs)) && SocketsOk(Run(inputs))
  {
    if inputs != [] {
      var before := inputs[..|inputs| - 1];
      RunKeeps(before);
      StepKeeps(Run(before), inputs[|inputs| - 1]);
      StepKeepsSockets(Run(before), inputs[|inputs| - 1]);
    }
  }

  /** A sender's messages leave the queue in the order they were accepted, each once, and at least
      700 ms apart, however its sockets come and go. Leaving the queue is not being sent: which of
      them no socket carried is the next section's business. */
  lemma {:induction false} PacedFifo(inputs: seq<Input>)
    requires Legal(inputs)
    ensures var s := Run(inputs);
      && Payloads(s.shipped) + s.queue == s.accepted
      && forall i, j :: 0 <= i < j < |s.shipped| ==> s.shipped[i].at + SEND_SPACING_MS <= s.shipped[j].at
  {
    RunKeeps(inputs);
  }

  /** Nothing waits longer than the spacing asks: a pause ends 700 ms after the last message that left, and it
      is never begun, nor begun anew, unless that time is still to come. */
  lemma {:induction false} PauseIsNeeded(inputs: seq<Input>)
    requires Legal(inputs) && Run(inputs).phase.Pausing?
    ensures var s := Run(inputs);
      s.shipped != [] ==> s.phase.until == s.shipped[|s.shipped| - 1].at + SEND_SPACING_MS
    ensures var s, before := Run(inputs), Run(inputs[..|inputs| - 1]);
      !before.phase.Pausing? || |before.shipped| < |s.shipped| ==> s.clock < s.phase.until
  {
    RunKeeps(inputs);
  }

  // ---------------------------------------------------------------- messages that are lost

  /** The loop takes a payload without looking at its socket. */
  predicate Takes(s: State, i: Input) { i.PauseEnds? || (i.LoopResumes? && Spaced(s)) }

  /** What takes the socket from a message on its way: the held socket starts closing, the instance is
      destroyed, or the close event of any socket comes, also of one given up long before. */
  predicate Breaks(s: State, i: Input) {
    i.CloseEvent? || i.DestroyInstance? || (i.StartsClosing? && s.ws == Some(i.socket))
  }

  /** It has happened since the loop last found its socket open or made a new one, whichever set the
      message under way that still is. */
  predicate Broken(inputs: seq<Input>) {
    inputs != [] &&
    var before, i := inputs[..|inputs| - 1], inputs[|inputs| - 1];
    UnderWay(Run(before).phase) && !Takes(Run(before), i) && (Breaks(Run(before), i) || Broken(before))
  }

  predicate Live(s: State) { s.ws.Some? && (StatusOf(s, s.ws.value).Connecting? || StatusOf(s, s.ws.value).Open?) }

  lemma LiveStep(s: State, i: Input)
    requires SocketsOk(s) && Enabled(s, i) && UnderWay(Next(s, i).phase)
    ensures Live(Next(s, i)) <==> !UnderWay(s.phase) || Takes(s, i) || (Live(s) && !Breaks(s, i))
  {
  }

  lemma {:induction false} UnderWayKnows(inputs: seq<Input>)
    requires Legal(inputs) && UnderWay(Run(inputs).phase)
    ensures Live(Run(inputs)) <==> !Broken(inputs)
  {
    if inputs != [] {
      var before, i := inputs[..|inputs| - 1], inputs[|inputs| - 1];
      RunKeeps(before);
      LiveStep(Run(before), i);
      if UnderWay(Run(before).phase) { UnderWayKnows(before); }
    }
  }

  /** A step takes at most one payload, and the unsent ones are those that were broken on their way. */
  lemma StepShips(inputs: seq<Input>, i: Input)
    requires Legal(inputs) && Enabled(Run(inputs), i)
    ensures var s, t := Run(inputs), Next(Run(inputs), i);
      || (t.shipped == s.shipped && !Takes(s, i))
      || (|t.shipped| == |s.shipped| + 1 && t.shipped[..|s.shipped|] == s.shipped
          && (!t.shipped[|s.shipped|].sent <==> Takes(s, i) && Broken(inputs)))
  {
    RunKeeps(inputs);
    if Takes(Run(inputs), i) { UnderWayKnows(inputs); }
  }

  /** The n-th input takes the k-th payload off the queue, broken on its way. */
  ghost predicate LostAt(inputs: seq<Input>, n: nat, k: nat)
    requires n < |inputs|
  {
    Takes(Run(inputs[..n]), inputs[n]) && Broken(inputs[..n]) && |Run(inputs[..n]).shipped| == k
  }

  lemma {:induction false} ShippedGrows(inputs: seq<Input>, n: nat)
    requires Legal(inputs) && n <= |inputs|
    ensures Legal(inputs[..n]) && |Run(inputs[..n]).shipped| <= |Run(inputs).shipped|
    ensures n < |inputs| && Takes(Run(inputs[..n]), inputs[n]) ==>
      |Run(inputs[..n]).shipped| < |Run(inputs).shipped|
  {
    if n == |inputs| {
      assert inputs[..n] == inputs;
    } else {
      var before := inputs[..|inputs| - 1];
      ShippedGrows(before, n);
      assert before[..n] == inputs[..n];
      StepShips(before, inputs[|inputs| - 1]);
      assert n == |before| ==> before[..n] == before;
    }
  }

  /** Main theorem: a payload that left the queue was not sent exactly when, between the moment the
      loop found or made a socket for it and the moment it was taken, that socket started to close, the
      instance was destroyed, or the close event of any socket of the sender came. */
  lemma {:induction false} LostExactly(inputs: seq<Input>, k: nat)
    requires Legal(inputs) && k < |Run(inputs).shipped|
    ensures !Run(inputs).shipped[k].sent <==> exists n :: 0 <= n < |inputs| && LostAt(inputs, n, k)
  {
    if inputs != [] {
      var last := |inputs| - 1;
      var before, i := inputs[..last], inputs[last];
      var s := Run(before);
      StepShips(before, i);
      forall n | 0 <= n < last ensures LostAt(before, n, k) <==> LostAt(inputs, n, k) {
        assert before[..n] == inputs[..n] && before[n] == inputs[n];
      }
      assert LostAt(inputs, last, k) <==> Takes(s, i) && Broken(before) && |s.shipped| == k;
      if k < |s.shipped| {
        LostExactly(before, k);
      } else {
        forall n | 0 <= n < last ensures !LostAt(before, n, k) {
          if LostAt(before, n, k) { ShippedGrows(before, n); }
        }
      }
    }
  }

  /** Nothing of the kind while a message is on its way: every payload that left the queue was sent. */
  lemma {:induction false} SentUnlessBroken(inputs: seq<Input>)
    requires Legal(inputs)
    requires forall n :: 0 <= n < |inputs| && Breaks(Run(inputs[..n]), inputs[n]) ==>
      !UnderWay(Run(inputs[..n]).phase)
    ensures forall shipment :: shipment in Run(inputs).shipped ==> shipment.sent
  {
    forall k | 0 <= k < |Run(inputs).shipped| ensures Run(inputs).shipped[k].sent {
      LostExactly(inputs, k);
      forall n | 0 <= n < |inputs| ensures !LostAt(inputs, n, k) { NeverBroken(inputs, n); }
    }
  }

  lemma {:induction false} NeverBroken(inputs: seq<Input>, n: nat)
    requires n <= |inputs|
    requires forall m :: 0 <= m < |inputs| && Breaks(Run(inputs[..m]), inputs[m]) ==>
      !UnderWay(Run(inputs[..m]).phase)
    ensures !Broken(inputs[..n])
  {
    if n > 0 {
      assert inputs[..n][..n - 1] == inputs[..n - 1];
      NeverBroken(inputs, n - 1);
    }
  }

  // ---------------------------------------------------------------- one socket at a time

  ghost predicate AllClosed(s: State) { forall j :: 0 <= j < |s.sockets| ==> s.sockets[j].Closed? }

  /** No socket is made before the close event of every older one has come. */
  ghost predicate ClosedBeforeDial(inputs: seq<Input>) {
    forall n :: 0 <= n < |inputs| && inputs[n].Registered? ==> AllClosed(Run(inputs[..n]))
  }

  ghost predicate OnlyHeld(s: State) { forall j :: 0 <= j < |s.sockets| && !s.sockets[j].Closed? ==> s.ws == Some(j) }

  lemma {:induction false} HeldOnly(inputs: seq<Input>)
    requires Legal(inputs) && ClosedBeforeDial(inputs)
    ensures OnlyHeld(Run(inputs))
  {
    if inputs != [] {
      var before := inputs[..|inputs| - 1];
      PrefixDials(inputs);
      HeldOnly(before);
      RunKeeps(before);
      OnlyHeldStep(Run(before), inputs[|inputs| - 1]);
    }
  }

  lemma OnlyHeldStep(s: State, i: Input)
    requires OnlyHeld(s) && SocketsOk(s) && Enabled(s, i) && (i.Registered? ==> AllClosed(s))
    ensures OnlyHeld(Next(s, i))
  {
  }

  lemma PrefixDials(inputs: seq<Input>)
    requires inputs != [] && ClosedBeforeDial(inputs)
    ensures ClosedBeforeDial(inputs[..|inputs| - 1])
    ensures inputs[|inputs| - 1].Registered? ==> AllClosed(Run(inputs[..|inputs| - 1]))
  {
    var before := inputs[..|inputs| - 1];
    forall n | 0 <= n < |before| && before[n].Registered? ensures AllClosed(Run(before[..n])) {
      assert before[..n] == inputs[..n];
    }
  }

  /** Then no socket is left open that the sender does not hold, and the way of a message is as good as
      safe: it can only be lost once its socket is open, to a close or a destroy before it is taken. */
  lemma {:induction false} OneSocketAtATime(inputs: seq<Input>, i: Input)
    requires Legal(inputs) && ClosedBeforeDial(inputs) && Enabled(Run(inputs), i)
    ensures OnlyHeld(Run(inputs))
    ensures Run(inputs).phase.Handshaking? && Breaks(Run(inputs), i) ==>
      i.DestroyInstance? && StatusOf(Next(Run(inputs), i), Run(inputs).phase.socket).Closing?
  {
    HeldOnly(inputs);
    RunKeeps(inputs);
  }

  // ---------------------------------------------------------------- messages left in the queue

  /** Messages wait and nothing is under way to send them. */
  predicate Stranded(s: State) { s.queue != [] && s.phase.Idle? }

  /** The two ways to leave a message behind: the connection fails, or the message comes while the
      last loop is ending. */
  predicate LeavesBehind(s: State, i: Input) {
    i.RegisterFails? || i.HandshakeFails? || (i.Send? && s.phase.Ending?)
  }

  ghost predicate NoneLeftBehindSince(inputs: seq<Input>, n: nat) {
    forall m :: n <= m < |inputs| ==> !LeavesBehind(Run(inputs[..m]), inputs[m])
  }

  /** The loop is done only with an empty queue. */
  predicate DoneIsEmpty(s: State) { s.phase.Idle? || s.phase.Ending? ==> s.queue == [] }

  lemma DoneStep(s: State, i: Input)
    requires Inv(s) && Enabled(s, i) && !LeavesBehind(s, i) && (DoneIsEmpty(s) || (i.Send? && s.phase.Idle?))
    ensures DoneIsEmpty(Next(s, i))
  {
    match i {
      case Send(payload) => SendWakes(s, payload);
      case LoopResumes => if Spaced(s) { TakeKeeps(s); }
      case PauseEnds => TakeKeeps(s);
      case _ =>
    }
  }

  lemma {:induction false} StaysDone(inputs: seq<Input>, n: nat)
    requires Legal(inputs) && n <= |inputs| && DoneIsEmpty(Run(inputs[..n])) && NoneLeftBehindSince(inputs, n)
    ensures DoneIsEmpty(Run(inputs))
  {
    if n == |inputs| {
      assert inputs[..n] == inputs;
    } else {
      var before := inputs[..|inputs| - 1];
      assert before[..n] == inputs[..n];
      forall m | n <= m < |before| ensures !LeavesBehind(Run(before[..m]), before[m]) {
        assert before[..m] == inputs[..m];
      }
      StaysDone(before, n);
      RunKeeps(before);
      assert !LeavesBehind(Run(inputs[..|before|]), inputs[|before|]);
      DoneStep(Run(before), inputs[|inputs| - 1]);
    }
  }

  lemma {:induction false} NothingLeftBehind(inputs: seq<Input>)
    requires Legal(inputs) && NoneLeftBehindSince(inputs, 0)
    ensures Run(inputs).phase.Idle? || Run(inputs).phase.Ending? ==> Run(inputs).queue == []
  {
    assert inputs[..0] == [];
    StaysDone(inputs, 0);
  }

  /** When a step strands messages, exactly: it ends a loop behind which some were left. Each leaving
      behind does strand what is queued, once the loop has ended. */
  lemma {:induction false} StrandsExactly(inputs: seq<Input>, i: Input)
    requires Legal(inputs) && Enabled(Run(inputs), i) && !Stranded(Run(inputs))
    ensures var s := Run(inputs);
      && (Stranded(Next(s, i)) <==> i.FinallyRuns? && s.queue != [])
      && (LeavesBehind(s, i) ==> Next(s, i).phase.Ending? && Stranded(Next(Next(s, i), FinallyRuns)))
  {
    RunKeeps(inputs);
    IdleExactly(Run(inputs), i);
  }

  lemma IdleExactly(s: State, i: Input)
    requires Inv(s) && Enabled(s, i)
    ensures Next(s, i).phase.Idle? <==> i.FinallyRuns? || (s.phase.Idle? && !i.Send?)
    ensures Next(s, i).phase.Idle? ==> Next(s, i).queue == s.queue
  {
    match i {
      case Send(payload) => SendWakes(s, payload);
      case LoopResumes => if Spaced(s) { TakeKeeps(s); }
      case PauseEnds => TakeKeeps(s);
      case _ =>
    }
  }

  /** The loop's own steps: an await of its comes back, or its `finally` runs. */
  predicate LoopStep(i: Input) {
    i.Registered? || i.RegisterFails? || i.SocketOpens? || i.HandshakeFails? || i.LoopResumes? || i.PauseEnds?
    || i.FinallyRuns?
  }

  /** The loop has no step left, and it is not the pause it is waiting for. */
  ghost predicate LoopRests(s: State) {
    (forall i :: LoopStep(i) ==> !Enabled(s, i)) && (s.phase.Pausing? ==> s.clock >= s.phase.until)
  }

  lemma RestIsIdle(s: State)
    requires LoopRests(s)
    ensures s.phase.Idle?
  {
    var i := match s.phase
      case Registering => Registered
      case Handshaking(_) => HandshakeFails
      case Connected => LoopResumes
      case Pausing(_) => PauseEnds
      case _ => FinallyRuns;
    assert LoopStep(i);
  }

  /** A failed send is not dropped. The sender's next message sets the loop going again, and unless that
      leaves something behind in its turn, the loop comes to rest only when everything that was
      accepted has left the queue, in order. */
  lemma {:induction false} FailedSendIsResumed(inputs: seq<Input>, n: nat)
    requires Legal(inputs) && n < |inputs| && Stranded(Run(inputs[..n])) && inputs[n].Send?
    requires NoneLeftBehindSince(inputs, n) && LoopRests(Run(inputs))
    ensures Run(inputs).queue == [] && Payloads(Run(inputs).shipped) == Run(inputs).accepted
  {
    NextIsDone(inputs, n);
    StaysDone(inputs, n + 1);
    RunKeeps(inputs);
    RestIsDone(Run(inputs));
  }

  lemma NextIsDone(inputs: seq<Input>, n: nat)
    requires Legal(inputs) && n < |inputs| && Stranded(Run(inputs[..n])) && inputs[n].Send?
    requires NoneLeftBehindSince(inputs, n)
    ensures DoneIsEmpty(Run(inputs[..n + 1]))
  {
    var first := inputs[..n + 1];
    assert first[..n] == inputs[..n];
    LegalPrefix(inputs, n + 1);
    RunKeeps(inputs[..n]);
    DoneStep(Run(inputs[..n]), inputs[n]);
  }

  lemma RestIsDone(s: State)
    requires LoopRests(s) && DoneIsEmpty(s) && Kept(s)
    ensures s.queue == [] && Payloads(s.shipped) == s.accepted
  {
    RestIsIdle(s);
    assert Payloads(s.shipped) + [] == Payloads(s.shipped);
  }

  lemma {:induction false} LegalPrefix(inputs: seq<Input>, n: nat)
    requires Legal(inputs) && n <= |inputs|
    ensures Legal(inputs[..n])
  {
    if n < |inputs| {
      LegalPrefix(inputs[..|inputs| - 1], n);
      assert inputs[..|inputs| - 1][..n] == inputs[..n];
    } else {
      assert inputs[..n] == inputs;
    }
  }

  function LoopSteps(inputs: seq<Input>): nat {
    if inputs == [] then 0
    else LoopSteps(inputs[..|inputs| - 1]) + if LoopStep(inputs[|inputs| - 1]) then 1 else 0
  }

  /** How many steps the loop may still take for what is queued. */
  function Ahead(s: State): nat {
    5 * |s.queue| +
    match s.phase
    case Idle => 0
    case Registering => 4
    case Handshaking(_) => 3
    case Connected => 2
    case Pausing(_) => 1
    case Ending => 1
  }

  lemma LoopAdvances(s: State, i: Input)
    requires PhaseOk(s) && Enabled(s, i)
    ensures if LoopStep(i) then Ahead(Next(s, i)) < Ahead(s)
            else Ahead(Next(s, i)) <= Ahead(s) + if i.Send? then 9 else 0
  {
  }

  /** The loop comes to rest: it takes at most nine steps for each message accepted, whatever fails. */
  lemma {:induction false} LoopIsShort(inputs: seq<Input>)
    requires Legal(inputs)
    ensures LoopSteps(inputs) + Ahead(Run(inputs)) <= 9 * |Run(inputs).accepted|
  {
    if inputs != [] {
      var before := inputs[..|inputs| - 1];
      LoopIsShort(before);
      RunKeeps(before);
      LoopAdvances(Run(before), inputs[|inputs| - 1]);
      AcceptedGrows(Run(before), inputs[|inputs| - 1]);
    }
  }

  lemma AcceptedGrows(s: State, i: Input)
    ensures |Next(s, i).accepted| == |s.accepted| + if i.Send? then 1 else 0
  {
  }

  lemma More(inputs: seq<Input>, i: Input)
    ensures Run(inputs + [i]) == Next(Run(inputs), i)
    ensures Legal(inputs + [i]) <==> Legal(inputs) && Enabled(Run(inputs), i)
  {
    assert (inputs + [i])[..|inputs|] == inputs;
  }

  /** One more step of a run, from one known state to the next. */
  lemma Go(inputs: seq<Input>, s: State, i: Input, t: State)
    requires Legal(inputs) && Run(inputs) == s && Enabled(s, i) && t == Next(s, i)
    ensures Legal(inputs + [i]) && Run(inputs + [i]) == t
  {
    More(inputs, i);
  }

  // ---------------------------------------------------------------- lost without being destroyed

  /** No destroy and no failure. */
  predicate Harmless(i: Input) { !i.DestroyInstance? && !i.RegisterFails? && !i.HandshakeFails? }

  /** A first message, asking for a socket. */
  function Asking(queue: seq<string>): State {
    State(SEND_SPACING_MS, queue, Registering, [], None, 0, queue, [], false)
  }

  /** Its socket has opened. */
  function Ready(queue: seq<string>): State {
    State(SEND_SPACING_MS, queue, Connected, [Open], Some(0), 0, queue, [], false)
  }

  lemma FirstAsks(a: string) returns (inputs: seq<Input>)
    ensures Legal(inputs) && Run(inputs) == Asking([a])
    ensures forall i :: i in inputs ==> Harmless(i) && !i.PauseEnds?
  {
    var s1 := INITIAL.(clock := SEND_SPACING_MS);
    Go([], INITIAL, Elapsed(SEND_SPACING_MS), s1);
    inputs := [Elapsed(SEND_SPACING_MS)];
    assert [] + [Elapsed(SEND_SPACING_MS)] == inputs;
    Go(inputs, s1, Send(a), Asking([a]));
    inputs := inputs + [Send(a)];
  }

  lemma Opens(before: seq<Input>, queue: seq<string>) returns (inputs: seq<Input>)
    requires Legal(before) && Run(before) == Asking(queue)
    ensures Legal(inputs) && Run(inputs) == Ready(queue)
    ensures inputs == before + [Registered] + [SocketOpens]
  {
    var s1 := Asking(queue).(phase := Handshaking(0), sockets := [Connecting], ws := Some(0));
    Go(before, Asking(queue), Registered, s1);
    Go(before + [Registered], s1, SocketOpens, Ready(queue));
    inputs := before + [Registered] + [SocketOpens];
  }

  /** The first of two messages has gone out, the second waits for its turn. */
  function SecondWaits(a: string, b: string): State {
    State(SEND_SPACING_MS, [b], Pausing(2 * SEND_SPACING_MS), [Open], Some(0), SEND_SPACING_MS,
          [a, b], [Shipment(a, SEND_SPACING_MS, true)], false)
  }

  lemma TwoMessages(a: string, b: string) returns (inputs: seq<Input>)
    ensures Legal(inputs) && Run(inputs) == SecondWaits(a, b) && forall i :: i in inputs ==> Harmless(i)
  {
    inputs := FirstAsks(a);
    Go(inputs, Asking([a]), Send(b), Asking([a, b]));
    inputs := inputs + [Send(b)];
    inputs := Opens(inputs, [a, b]);
    assert [a, b][1..] == [b];
    Go(inputs, Ready([a, b]), LoopResumes, SecondWaits(a, b));
    inputs := inputs + [LoopResumes];
  }

  /** An ordinary close is enough: it comes between two messages, and the second is taken off the
      queue and gone. */
  lemma OrdinaryCloseLoses(a: string, b: string) returns (inputs: seq<Input>)
    ensures Legal(inputs) && forall i :: i in inputs ==> Harmless(i)
    ensures Run(inputs).queue == [] && Run(inputs).accepted == [a, b]
    ensures |Run(inputs).shipped| == 2 && !Run(inputs).shipped[1].sent
  {
    inputs := TwoMessages(a, b);
    var s0 := SecondWaits(a, b);
    var s1 := s0.(sockets := [Closing]);
    Go(inputs, s0, StartsClosing(0), s1);
    inputs := inputs + [StartsClosing(0)];
    var s2 := s1.(clock := 2 * SEND_SPACING_MS);
    Go(inputs, s1, Elapsed(SEND_SPACING_MS), s2);
    inputs := inputs + [Elapsed(SEND_SPACING_MS)];
    Go(inputs, s2, PauseEnds, Take(s2));
    inputs := inputs + [PauseEnds];
  }

  /** A message has gone out, and later its socket begins to close. */
  function OldOneCloses(a: string): State {
    State(2 * SEND_SPACING_MS, [], Idle, [Closing], Some(0), SEND_SPACING_MS,
          [a], [Shipment(a, SEND_SPACING_MS, true)], false)
  }

  /** The next message dials while it does. */
  function NewOneOpens(a: string, b: string): State {
    State(2 * SEND_SPACING_MS, [b], Handshaking(1), [Closing, Connecting], Some(1), SEND_SPACING_MS,
          [a, b], [Shipment(a, SEND_SPACING_MS, true)], false)
  }

  lemma ClosesWhenIdle(a: string) returns (inputs: seq<Input>)
    ensures Legal(inputs) && Run(inputs) == OldOneCloses(a)
    ensures forall i :: i in inputs ==> Harmless(i) && !i.PauseEnds?
  {
    inputs := OneSent(a);
    var s1 := OneDone(a).(phase := Idle);
    Go(inputs, OneDone(a), FinallyRuns, s1);
    inputs := inputs + [FinallyRuns];
    var s2 := s1.(sockets := [Closing]);
    Go(inputs, s1, StartsClosing(0), s2);
    inputs := inputs + [StartsClosing(0)];
    Go(inputs, s2, Elapsed(SEND_SPACING_MS), OldOneCloses(a));
    inputs := inputs + [Elapsed(SEND_SPACING_MS)];
  }

  function OneDone(a: string): State {
    State(SEND_SPACING_MS, [], Ending, [Open], Some(0), SEND_SPACING_MS,
          [a], [Shipment(a, SEND_SPACING_MS, true)], false)
  }

  lemma OneSent(a: string) returns (inputs: seq<Input>)
    ensures Legal(inputs) && Run(inputs) == OneDone(a)
    ensures forall i :: i in inputs ==> Harmless(i) && !i.PauseEnds?
  {
    inputs := FirstAsks(a);
    inputs := Opens(inputs, [a]);
    assert [a][1..] == [];
    Go(inputs, Ready([a]), LoopResumes, OneDone(a));
    inputs := inputs + [LoopResumes];
  }

  lemma DialsWhileClosing(a: string, b: string) returns (inputs: seq<Input>)
    ensures Legal(inputs) && Run(inputs) == NewOneOpens(a, b)
    ensures forall i :: i in inputs ==> Harmless(i) && !i.PauseEnds?
  {
    inputs := ClosesWhenIdle(a);
    var s1 := OldOneCloses(a).(queue := [b], accepted := [a, b], phase := Registering);
    Go(inputs, OldOneCloses(a), Send(b), s1);
    inputs := inputs + [Send(b)];
    Go(inputs, s1, Registered, NewOneOpens(a, b));
    inputs := inputs + [Registered];
  }

  /** So is the close event of a socket already given up: a message comes while the old socket is
      closing, a new socket is made for it, the late event clears the new one, and the message is taken
      off the queue and gone. No pause comes into it, and the new socket stays open, held by nobody. */
  lemma StaleCloseLoses(a: string, b: string) returns (inputs: seq<Input>)
    ensures Legal(inputs) && forall i :: i in inputs ==> Harmless(i) && !i.PauseEnds?
    ensures Run(inputs).queue == [] && Run(inputs).accepted == [a, b]
    ensures |Run(inputs).shipped| == 2 && !Run(inputs).shipped[1].sent
    ensures Run(inputs).sockets == [Closed, Open] && Run(inputs).ws == None
  {
    inputs := DialsWhileClosing(a, b);
    var s0 := NewOneOpens(a, b);
    var s1 := s0.(sockets := [Closed, Connecting], ws := None);
    Go(inputs, s0, CloseEvent(0), s1);
    inputs := inputs + [CloseEvent(0)];
    var s2 := s1.(sockets := [Closed, Open], phase := Connected);
    Go(inputs, s1, SocketOpens, s2);
    inputs := inputs + [SocketOpens];
    Go(inputs, s2, LoopResumes, Take(s2));
    inputs := inputs + [LoopResumes];
  }

  // ---------------------------------------------------------------- after the instance is destroyed

  /** The sender gets through to the source: it dials, or a socket carries a message. */
  ghost predicate ReachesAgain(s: State, t: State) {
    |t.sockets| > |s.sockets| || exists k :: |s.shipped| <= k < |t.shipped| && t.shipped[k].sent
  }

  /** Destroyed, and nothing under way that could ever dial or send. */
  ghost predicate Silent(s: State) {
    && s.detached && !Usable(s) && !s.phase.Registering?
    && (s.phase.Handshaking? ==> StatusOf(s, s.phase.socket).Closing? || (s.ws.None? && |s.queue| <= 1))
    && (s.phase.Connected? || s.phase.Pausing? ==> |s.queue| <= 1)
  }

  /** Destroyed, and no socket will open any more. */
  ghost predicate Shut(s: State) {
    Silent(s) && (s.phase.Handshaking? ==> StatusOf(s, s.phase.socket).Closing?)
  }

  lemma SilentStep(s: State, i: Input)
    requires Silent(s) && Enabled(s, i)
    ensures Silent(Next(s, i)) && |Next(s, i).sockets| == |s.sockets|
    ensures s.shipped <= Next(s, i).shipped
    ensures forall k :: |s.shipped| <= k < |Next(s, i).shipped| ==> !Next(s, i).shipped[k].sent
    ensures Shut(s) ==> Shut(Next(s, i)) && !i.SocketOpens?
  {
  }

  lemma {:induction false} SilentForGood(inputs: seq<Input>, n: nat)
    requires Legal(inputs) && n <= |inputs| && Silent(Run(inputs[..n]))
    ensures Silent(Run(inputs)) && !ReachesAgain(Run(inputs[..n]), Run(inputs))
    ensures Run(inputs[..n]).shipped <= Run(inputs).shipped
    ensures Shut(Run(inputs[..n])) ==> Shut(Run(inputs)) && SocketOpens !in inputs[n..]
  {
    if n == |inputs| {
      assert inputs[..n] == inputs;
    } else {
      var before := inputs[..|inputs| - 1];
      assert before[..n] == inputs[..n];
      assert inputs[n..] == before[n..] + [inputs[|inputs| - 1]];
      SilentForGood(before, n);
      SilentStep(Run(before), inputs[|inputs| - 1]);
      SilentSince(Run(inputs[..n]), Run(before), Run(inputs));
    }
  }

  lemma SilentSince(s: State, t: State, u: State)
    requires !ReachesAgain(s, t) && s.shipped <= t.shipped
    requires |u.sockets| == |t.sockets| && t.shipped <= u.shipped
    requires forall k :: |t.shipped| <= k < |u.shipped| ==> !u.shipped[k].sent
    ensures !ReachesAgain(s, u) && s.shipped <= u.shipped
  {
    forall k | |s.shipped| <= k < |u.shipped| ensures !u.shipped[k].sent {
      if k < |t.shipped| { assert u.shipped[k] == t.shipped[k]; }
    }
  }

  /** Some continuation in which the destroyed sender reaches the source again. */
  ghost predicate MayReturn(inputs: seq<Input>) {
    exists after :: inputs < after && Legal(after) && ReachesAgain(Run(inputs), Run(after))
  }

  /** Some continuation in which a socket of the destroyed sender opens. */
  ghost predicate MayOpen(inputs: seq<Input>) {
    exists after :: inputs < after && Legal(after) && SocketOpens in after[|inputs|..]
  }

  /** The sender shakes hands over a socket that a late close event has made it forget. */
  predicate ForgotItsSocket(s: State) { s.phase.Handshaking? && s.ws.None? }

  predicate HasOpened(s: State) { s.phase.Connected? || s.phase.Pausing? }

  /** Main theorem: what destroying the instance does not stop, over all that may follow. The sender
      dials or sends again if it was registering at the time, or if more than one message was queued
      and its socket was already open or forgotten; otherwise never. A socket of its still opens in the
      same cases, and also when a forgotten one was opening for a single message. */
  lemma DestroyedReturnsExactly(inputs: seq<Input>)
    requires Legal(inputs) && !Run(inputs).detached
    ensures var s := Run(inputs);
      && (MayReturn(inputs + [DestroyInstance]) <==>
          s.phase.Registering? || (|s.queue| > 1 && (HasOpened(s) || ForgotItsSocket(s))))
      && (MayOpen(inputs + [DestroyInstance]) <==>
          s.phase.Registering? || (|s.queue| > 1 && HasOpened(s)) || ForgotItsSocket(s))
  {
    var s, gone := Run(inputs), inputs + [DestroyInstance];
    More(inputs, DestroyInstance);
    RunKeeps(inputs);
    Destroyed(s, Run(gone));
    if s.phase.Registering? {
      DialsAgain(gone, gone);
    } else if |s.queue| > 1 && HasOpened(s) {
      TakesAndDials(gone, gone);
    } else if ForgotItsSocket(s) {
      ForgottenOpens(gone);
    } else {
      SilentNeverReturns(gone);
    }
  }

  /** What destroying does at once. */
  lemma Destroyed(s: State, t: State)
    requires SocketsOk(s) && !s.detached && t == Next(s, DestroyInstance)
    ensures t.detached && !Usable(t) && t.phase == s.phase && t.queue == s.queue
    ensures ForgotItsSocket(s) ==>
      ForgotItsSocket(t) && StatusOf(t, t.phase.socket).Connecting? && (Silent(t) <==> |t.queue| <= 1)
    ensures !s.phase.Registering? && !(|s.queue| > 1 && HasOpened(s)) && !ForgotItsSocket(s) ==> Shut(t)
  {
  }

  lemma SilentNeverReturns(gone: seq<Input>)
    requires Silent(Run(gone))
    ensures !MayReturn(gone)
    ensures Shut(Run(gone)) ==> !MayOpen(gone)
  {
    forall after | gone < after && Legal(after)
      ensures !ReachesAgain(Run(gone), Run(after)) && (Shut(Run(gone)) ==> SocketOpens !in after[|gone|..])
    {
      assert after[..|gone|] == gone;
      SilentForGood(after, |gone|);
    }
  }

  lemma DialsAgain(gone: seq<Input>, after: seq<Input>)
    requires gone <= after && Legal(after) && Run(after).phase.Registering?
    requires |Run(after).sockets| == |Run(gone).sockets|
    ensures MayReturn(gone) && MayOpen(gone)
  {
    var s := Run(after);
    DialOpens(s);
    var dialled := after + [Registered];
    Go(after, s, Registered, Next(s, Registered));
    assert gone < dialled;
    More(dialled, SocketOpens);
    OpensLater(gone, dialled);
  }

  lemma DialOpens(s: State)
    requires s.phase.Registering?
    ensures |Next(s, Registered).sockets| > |s.sockets| && Enabled(Next(s, Registered), SocketOpens)
  {
  }

  lemma OpensLater(gone: seq<Input>, after: seq<Input>)
    requires gone <= after && Legal(after + [SocketOpens])
    ensures MayOpen(gone)
  {
    var finished := after + [SocketOpens];
    assert gone < finished && finished[|gone|..][|after| - |gone|] == SocketOpens;
  }

  /** With another message behind the one on its way, the loop takes that and then dials. */
  lemma TakesAndDials(gone: seq<Input>, after: seq<Input>)
    requires gone <= after && Legal(after) && |Run(after).sockets| == |Run(gone).sockets|
    requires var s := Run(after); HasOpened(s) && |s.queue| > 1 && !Usable(s)
    ensures MayReturn(gone) && MayOpen(gone)
  {
    var s := Run(after);
    RunKeeps(after);
    var due := s.lastSentAt + SEND_SPACING_MS;
    var wait: nat := if due > s.clock then due - s.clock else 0;
    var i := if s.phase.Pausing? then PauseEnds else LoopResumes;
    var later := after + [Elapsed(wait)];
    More(after, Elapsed(wait));
    More(later, i);
    TakenBeforeDial(s, wait, i);
    DialsAgain(gone, later + [i]);
  }

  lemma TakenBeforeDial(s: State, wait: nat, i: Input)
    requires PhaseOk(s) && HasOpened(s) && |s.queue| > 1 && !Usable(s)
    requires s.clock + wait >= s.lastSentAt + SEND_SPACING_MS
    requires i == if s.phase.Pausing? then PauseEnds else LoopResumes
    ensures Enabled(Next(s, Elapsed(wait)), i)
    ensures var t := Next(Next(s, Elapsed(wait)), i); t.phase.Registering? && t.sockets == s.sockets
  {
  }

  lemma ForgottenOpens(gone: seq<Input>)
    requires Legal(gone) && Run(gone).detached && ForgotItsSocket(Run(gone))
    requires StatusOf(Run(gone), Run(gone).phase.socket).Connecting?
    ensures MayOpen(gone) && (MayReturn(gone) <==> |Run(gone).queue| > 1)
  {
    var after := gone + [SocketOpens];
    More(gone, SocketOpens);
    OpensLater(gone, gone);
    if |Run(gone).queue| > 1 {
      TakesAndDials(gone, after);
    } else {
      SilentNeverReturns(gone);
    }
  }

  /** The destroyed sender does not only dial: one that was registering goes on to open a socket that
      the pool has lost sight of, and sends on it. */
  lemma DestroyedSenderSends(a: string) returns (inputs: seq<Input>)
    ensures Legal(inputs) && DestroyInstance in inputs && Run(inputs).detached && Usable(Run(inputs))
    ensures Run(inputs).shipped == [Shipment(a, SEND_SPACING_MS, true)]
  {
    inputs := FirstAsks(a);
    var s1 := Asking([a]).(detached := true);
    Go(inputs, Asking([a]), DestroyInstance, s1);
    inputs := inputs + [DestroyInstance];
    var s2 := s1.(phase := Handshaking(0), sockets := [Connecting], ws := Some(0));
    Go(inputs, s1, Registered, s2);
    inputs := inputs + [Registered];
    var s3 := s2.(phase := Connected, sockets := [Open]);
    Go(inputs, s2, SocketOpens, s3);
    inputs := inputs + [SocketOpens];
    Go(inputs, s3, LoopResumes, Take(s3));
    inputs := inputs + [LoopResumes];
    assert [a][1..] == [];
  }

  // ---------------------------------------------------------------- the connection itself

  class ChatterConn {
    var clock: int
    var queue: seq<string>
    var phase: Phase
    var sockets: seq<Status>
    var ws: Option<nat>
    var lastSentAt: int
    ghost var accepted: seq<string>
    var shipped: seq<Shipment>
    var detached: bool

    ghost function View(): State reads this {
      State(clock, queue, phase, sockets, ws, lastSentAt, accepted, shipped, detached)
    }

    constructor ()
      ensures View() == INITIAL
    {
      clock, queue, phase, sockets, ws, lastSentAt := 0, [], Idle, [], None, 0;
      accepted, shipped, detached := [], [], false;
    }

    method OnSend(payload: string)
      requires Enabled(View(), Send(payload))
      modifies this
      ensures View() == Next(old(View()), Send(payload))
    {
      queue := queue + [payload];
      accepted := accepted + [payload];
      if phase.Idle? { DrainLoop(); }
    }

    /** readyState === OPEN */
    predicate IsOpen()
      reads this
    {
      ws.Some? && ws.value < |sockets| && sockets[ws.value].Open?
    }

    /** The drain loop from its head to its next await. */
    method DrainLoop()
      modifies this`queue, this`phase, this`shipped, this`lastSentAt
      ensures View() == Drain(old(View()))
    {
      ghost var s := View();
      while |queue| > 0
        invariant View() == s || (MayShip(s) && View() == Ship(s))
        decreases |queue|
      {
        if !IsOpen() {
          phase := Registering;
          return;
        }
        if lastSentAt + SEND_SPACING_MS > clock {
          phase := Pausing(lastSentAt + SEND_SPACING_MS);
          return;
        }
        TakeOne();
      }
      phase := Ending;
    }

    method TakeOne()
      requires queue != []
      modifies this`queue, this`shipped, this`lastSentAt
      ensures View() == Ship(old(View()))
    {
      shipped := shipped + [Shipment(queue[0], clock, IsOpen())];
      queue := queue[1..];
      lastSentAt := clock;
    }

    /** connect() has its token: the socket is created. */
    method OnRegistered()
      requires Enabled(View(), Registered)
      modifies this`phase, this`sockets, this`ws
      ensures View() == Next(old(View()), Registered)
    {
      phase := Handshaking(|sockets|);
      ws := Some(|sockets|);
      sockets := sockets + [Connecting];
    }

    method OnRegisterFailed()
      requires Enabled(View(), RegisterFails)
      modifies this`phase
      ensures View() == Next(old(View()), RegisterFails)
    {
      phase := Ending;
    }

    method OnSocketOpen()
      requires Enabled(View(), SocketOpens)
      modifies this`phase, this`sockets
      ensures View() == Next(old(View()), SocketOpens)
    {
      sockets := sockets[phase.socket := Open];
      phase := Connected;
    }

    method OnHandshakeError()
      requires Enabled(View(), HandshakeFails) && phase.socket < |sockets|
      modifies this`phase, this`sockets
      ensures View() == Next(old(View()), HandshakeFails)
    {
      sockets := sockets[phase.socket := Closing];
      phase := Ending;
    }

    /** The loop goes on behind connect(). */
    method OnConnected()
      requires Enabled(View(), LoopResumes)
      modifies this
      ensures View() == Next(old(View()), LoopResumes)
    {
      if lastSentAt + SEND_SPACING_MS > clock {
        phase := Pausing(lastSentAt + SEND_SPACING_MS);
        return;
      }
      AfterPause();
    }

    /** The loop behind its pause, and round to its head. */
    method AfterPause()
      modifies this
      ensures View() == Take(old(View()))
    {
      if queue == [] {
        phase := Ending;
        return;
      }
      TakeOne();
      DrainLoop();
    }

    method OnPauseEnd()
      requires Enabled(View(), PauseEnds)
      modifies this
      ensures View() == Next(old(View()), PauseEnds)
    {
      AfterPause();
    }

    method OnFinally()
      requires Enabled(View(), FinallyRuns)
      modifies this`phase
      ensures View() == Next(old(View()), FinallyRuns)
    {
      phase := Idle;
    }

    /** The close handler, which asks no questions. */
    method OnCloseEvent(socket: nat)
      requires Enabled(View(), CloseEvent(socket))
      modifies this`sockets, this`ws
      ensures View() == Next(old(View()), CloseEvent(socket))
    {
      sockets := sockets[socket := Closed];
      ws := None;
    }

    method Destroy()
      requires Enabled(View(), Input.DestroyInstance)
      modifies this`sockets, this`detached
      ensures View() == Next(old(View()), Input.DestroyInstance)
    {
      if ws.Some? && ws.value < |sockets| && !sockets[ws.value].Closed? { sockets := sockets[ws.value := Closing]; }
      detached := true;
    }
  }
}
