/** One room's delivery chain, from Nostr into the source chat.

    Every accepted event becomes a link of the room's promise chain. A link resolves a name, is
    checked against the fingerprints, renders, checks that its room is still open and then hands the
    message to the adapter, which may first fetch the instance's emoji before it turns to the sender
    pool. Each of those awaits is a point where anything else may happen. */
module RoomDelivery {
  import opened ChatEvents
  import opened Fingerprints
  import opened Options

  const FINGERPRINT_TTL_MS := 60_000

  datatype Outcome = Delivered | Failed | Repeated | TornDown

  datatype Phase =
    | Waiting                     // chained behind the link before it
    | Resolving
    | Rendering
    | FetchingEmoji               // inside sendMessage, before the pool
    | Sending                     // handed to the pool
    | Settled(outcome: Outcome)

  datatype Task = Task(event: ChatEvent, phase: Phase)

  /** What identifies the room: the bridge's name for layer 1 and the room's `a` tag. */
  datatype RoomAddress = RoomAddress(bridgeName: string, aTag: string)

  datatype State = State(
    clock: int,
    isOpen: bool,                 // this Room object is the one in the room map
    bridged: set<string>,
    tasks: seq<Task>,             // in arrival order
    guard: Guard,
    offers: seq<Offer>,           // every fingerprint offered, from either side
    handed: seq<nat>,             // calls of sendMessage, by task
    pooled: seq<nat>)             // messages given to the sender pool, by task

  datatype Input =
    | Elapsed(ms: nat)
    | Arrives(event: ChatEvent)
    | Starts(task: nat)
    | NameResolves(task: nat, name: string)
    | NameFails(task: nat)
    | Renders(task: nat, hasEmoji: bool)
    | RenderFails(task: nat)
    | EmojiArrives(task: nat)
    | SendEnds(task: nat, ok: bool)
    | SourceSays(name: string, text: string)
    | ChatterAppears(pubkey: string)
    | RoomCloses

  const INITIAL := State(0, true, {}, [], Guard([], []), [], [], [])

  function FingerprintKey(name: string, content: string): string { name + ":" + content }

  function PhaseOf(s: State, k: nat): Phase { if k < |s.tasks| then s.tasks[k].phase else Waiting }

  predicate MayStart(s: State, k: nat) {
    k < |s.tasks| && s.tasks[k].phase.Waiting? && (k > 0 ==> s.tasks[k - 1].phase.Settled?)
  }

  predicate Enabled(s: State, i: Input) {
    match i
    case Starts(k) => MayStart(s, k)
    case NameResolves(k, _) => PhaseOf(s, k).Resolving?
    case NameFails(k) => PhaseOf(s, k).Resolving?
    case Renders(k, _) => PhaseOf(s, k).Rendering?
    case RenderFails(k) => PhaseOf(s, k).Rendering?
    case EmojiArrives(k) => PhaseOf(s, k).FetchingEmoji?
    case SendEnds(k, _) => PhaseOf(s, k).Sending?
    case _ => true
  }

  function Enter(s: State, k: nat, p: Phase): State {
    if k < |s.tasks| then s.(tasks := s.tasks[k := s.tasks[k].(phase := p)]) else s
  }

  function Offered(s: State, key: string): State {
    s.(guard := Admit(s.guard, Offer(key, s.clock), FINGERPRINT_TTL_MS), offers := s.offers + [Offer(key, s.clock)])
  }

  predicate Seen(s: State, key: string) { Duplicate(s.guard, Offer(key, s.clock), FINGERPRINT_TTL_MS) }

  function ContentOf(s: State, k: nat): string { if k < |s.tasks| then s.tasks[k].event.content else "" }

  function Next(room: RoomAddress, s: State, i: Input): State {
    match i
    case Elapsed(ms) => s.(clock := s.clock + ms)
    case Arrives(e) =>
      if s.isOpen && PassesFilters(room.bridgeName, s.bridged, room.aTag, e)
      then s.(tasks := s.tasks + [Task(e, Waiting)]) else s
    case Starts(k) => Enter(s, k, Resolving)
    case NameResolves(k, name) =>
      var key := FingerprintKey(name, ContentOf(s, k));
      Enter(Offered(s, key), k, if Seen(s, key) then Settled(Repeated) else Rendering)
    case NameFails(k) => Enter(s, k, Settled(Failed))
    case Renders(k, hasEmoji) =>
      if !s.isOpen then Enter(s, k, Settled(TornDown))
      else if hasEmoji then Enter(s.(handed := s.handed + [k]), k, FetchingEmoji)
      else Enter(s.(handed := s.handed + [k], pooled := s.pooled + [k]), k, Sending)
    case RenderFails(k) => Enter(s, k, Settled(Failed))
    case EmojiArrives(k) => Enter(s.(pooled := s.pooled + [k]), k, Sending)
    case SendEnds(k, ok) => Enter(s, k, Settled(if ok then Delivered else Failed))
    case SourceSays(name, text) => if text == "" then s else Offered(s, FingerprintKey(name, text))
    case ChatterAppears(p) => s.(bridged := s.bridged + {p})
    case RoomCloses => s.(isOpen := false)
  }

  function Run(room: RoomAddress, inputs: seq<Input>): State {
    if inputs == [] then INITIAL else Next(room, Run(room, inputs[..|inputs| - 1]), inputs[|inputs| - 1])
  }

  ghost predicate Legal(room: RoomAddress, inputs: seq<Input>) {
    inputs == [] ||
    (Legal(room, inputs[..|inputs| - 1]) && Enabled(Run(room, inputs[..|inputs| - 1]), inputs[|inputs| - 1]))
  }

  // ---------------------------------------------------------------- what a fingerprint tells apart

  /** The longer name goes on as the other message begins, colon and all. */
  ghost predicate Shifted(name: string, content: string, longer: string, rest: string) {
    exists m: string :: longer == name + ":" + m && content == m + ":" + rest
  }

  /** Two messages share a fingerprint exactly when they are the same words of the same name, or when a colon
      in a name can be taken for the one between name and words. */
  lemma SameFingerprint(name: string, content: string, name': string, content': string)
    ensures FingerprintKey(name, content) == FingerprintKey(name', content')
       <==> || (name == name' && content == content')
            || Shifted(name, content, name', content') || Shifted(name', content', name, content)
  {
    if FingerprintKey(name, content) == FingerprintKey(name', content') {
      if |name| < |name'| {
        KeySplits(name, content, name', content');
      } else if |name'| < |name| {
        KeySplits(name', content', name, content);
      } else {
        KeyParts(name, content);
        KeyParts(name', content');
      }
    } else {
      ShiftedIsSame(name, content, name', content');
      ShiftedIsSame(name', content', name, content);
    }
  }

  lemma KeyParts(name: string, content: string)
    ensures var key := FingerprintKey(name, content);
      key[..|name|] == name && key[|name|] == ':' && key[|name| + 1..] == content
  {
  }

  lemma KeySplits(name: string, content: string, longer: string, rest: string)
    requires |name| < |longer| && FingerprintKey(name, content) == FingerprintKey(longer, rest)
    ensures Shifted(name, content, longer, rest)
  {
    var key, n := FingerprintKey(name, content), |name|;
    KeyParts(name, content);
    KeyParts(longer, rest);
    var m := key[n + 1..|longer|];
    assert longer == name + ":" + m by { assert key[..|longer|] == key[..n] + [key[n]] + m; }
    assert content == m + ":" + rest by { assert key[n + 1..] == m + [key[|longer|]] + key[|longer| + 1..]; }
  }

  lemma ShiftedIsSame(name: string, content: string, longer: string, rest: string)
    ensures Shifted(name, content, longer, rest) ==> FingerprintKey(name, content) == FingerprintKey(longer, rest)
  {
    if m :| longer == name + ":" + m && content == m + ":" + rest {
      assert name + ":" + (m + ":" + rest) == (name + ":" + m) + ":" + rest;
    }
  }

  // ---------------------------------------------------------------- one link at a time

  predicate Active(p: Phase) { !p.Waiting? && !p.Settled? }

  /** Everything before the frontier has settled, everything after it still waits. */
  ghost predicate Frontier(tasks: seq<Task>, f: nat) {
    && f <= |tasks|
    && (forall k :: 0 <= k < f ==> tasks[k].phase.Settled?)
    && (forall k :: f < k < |tasks| ==> tasks[k].phase.Waiting?)
    && (f < |tasks| ==> !tasks[f].phase.Settled?)
  }

  predicate WasHanded(p: Phase) {
    p.FetchingEmoji? || p.Sending? || (p.Settled? && (p.outcome.Delivered? || p.outcome.Failed?))
  }

  predicate WasPooled(p: Phase) { p.Sending? || (p.Settled? && (p.outcome.Delivered? || p.outcome.Failed?)) }

  ghost predicate Increasing(ks: seq<nat>) { forall i, j :: 0 <= i < j < |ks| ==> ks[i] < ks[j] }

  ghost predicate SendsOk(s: State, f: nat) {
    && Increasing(s.handed) && Increasing(s.pooled)
    && (forall k :: k in s.handed ==> k <= f && k < |s.tasks| && WasHanded(s.tasks[k].phase))
    && (forall k :: k in s.pooled ==> k in s.handed && WasPooled(s.tasks[k].phase))
    && (f < |s.tasks| && s.tasks[f].phase.FetchingEmoji? ==> f in s.handed)
    && (f < |s.tasks| && s.tasks[f].phase.Sending? ==> f in s.handed && f in s.pooled)
    && (forall k :: 0 <= k < |s.tasks| && s.tasks[k].phase == Settled(Delivered) ==> k in s.pooled)
  }

  ghost predicate GuardOk(s: State) {
    && s.guard == AdmitAll(s.offers, FINGERPRINT_TTL_MS)
    && Ordered(s.offers) && (forall o :: o in s.offers ==> o.at <= s.clock)
  }

  ghost predicate Inv(room: RoomAddress, s: State) {
    (exists f: nat :: Frontier(s.tasks, f) && SendsOk(s, f)) && GuardOk(s)
  }

  lemma Append(ks: seq<nat>, k: nat)
    requires Increasing(ks) && forall j :: j in ks ==> j < k
    ensures Increasing(ks + [k])
  {
    forall i, j | 0 <= i < j < |ks + [k]| ensures (ks + [k])[i] < (ks + [k])[j] { assert ks[i] in ks; }
  }

  /** The frontier after a step: where it was, or one further when the link there settles. */
  lemma EnterKeepsFrontier(tasks: seq<Task>, f: nat, p: Phase) returns (g: nat)
    requires Frontier(tasks, f) && f < |tasks|
    ensures Frontier(tasks[f := tasks[f].(phase := p)], g) && g == if p.Settled? then f + 1 else f
  {
    g := if p.Settled? then f + 1 else f;
  }

  lemma ActiveIsFrontier(s: State, f: nat, k: nat)
    requires Frontier(s.tasks, f) && k < |s.tasks| && (Active(s.tasks[k].phase) || MayStart(s, k))
    ensures k == f
  {
    if MayStart(s, k) && k > 0 { assert s.tasks[k - 1].phase.Settled?; }
  }

  lemma LinkStep(s: State, f: nat, i: Input, room: RoomAddress)
    requires Frontier(s.tasks, f) && SendsOk(s, f) && Enabled(s, i)
    requires i.Starts? || i.NameResolves? || i.NameFails? || i.Renders? || i.RenderFails? || i.EmojiArrives?
      || i.SendEnds?
    ensures exists g: nat :: Frontier(Next(room, s, i).tasks, g) && SendsOk(Next(room, s, i), g)
  {
    ActiveIsFrontier(s, f, i.task);
    var t := Next(room, s, i);
    var g := EnterKeepsFrontier(s.tasks, f, t.tasks[f].phase);
    if i.Renders? && s.isOpen {
      HandOver(s, f, i.hasEmoji);
    } else if i.EmojiArrives? {
      PoolUp(s, f);
    } else if i.SendEnds? {
      EndSend(s, f, i.ok);
    } else {
      EnterKeepsSends(s, f, t.tasks[f].phase);
      SendsDependOn(Enter(s, f, t.tasks[f].phase), t, g);
    }
    assert Frontier(t.tasks, g) && SendsOk(t, g);
  }

  lemma SendsDependOn(s: State, t: State, f: nat)
    requires SendsOk(s, f) && t.tasks == s.tasks && t.handed == s.handed && t.pooled == s.pooled
    ensures SendsOk(t, f)
  {
  }

  /** A link that has handed nothing over moves on, without doing so. */
  lemma EnterKeepsSends(s: State, f: nat, p: Phase)
    requires Frontier(s.tasks, f) && SendsOk(s, f) && f < |s.tasks|
    requires !WasHanded(s.tasks[f].phase) && !p.FetchingEmoji? && !p.Sending? && p != Settled(Delivered)
    ensures SendsOk(Enter(s, f, p), if p.Settled? then f + 1 else f)
  {
  }

  lemma HandOver(s: State, f: nat, hasEmoji: bool)
    requires Frontier(s.tasks, f) && SendsOk(s, f) && f < |s.tasks| && s.tasks[f].phase.Rendering?
    ensures SendsOk(if hasEmoji then Enter(s.(handed := s.handed + [f]), f, FetchingEmoji)
                    else Enter(s.(handed := s.handed + [f], pooled := s.pooled + [f]), f, Sending), f)
  {
    Append(s.handed, f);
    Append(s.pooled, f);
  }

  lemma PoolUp(s: State, f: nat)
    requires Frontier(s.tasks, f) && SendsOk(s, f) && f < |s.tasks| && s.tasks[f].phase.FetchingEmoji?
    ensures SendsOk(Enter(s.(pooled := s.pooled + [f]), f, Sending), f)
  {
    Append(s.pooled, f);
  }

  lemma EndSend(s: State, f: nat, ok: bool)
    requires Frontier(s.tasks, f) && SendsOk(s, f) && f < |s.tasks| && s.tasks[f].phase.Sending?
    ensures SendsOk(Enter(s, f, Settled(if ok then Delivered else Failed)), f + 1)
  {
  }

  lemma OtherStep(s: State, f: nat, i: Input, room: RoomAddress)
    requires Frontier(s.tasks, f) && SendsOk(s, f)
    requires i.Elapsed? || i.Arrives? || i.SourceSays? || i.ChatterAppears? || i.RoomCloses?
    ensures exists g: nat :: Frontier(Next(room, s, i).tasks, g) && SendsOk(Next(room, s, i), g)
  {
    var t := Next(room, s, i);
    assert Frontier(t.tasks, f) && SendsOk(t, f);
  }

  lemma OfferKeepsGuard(s: State, key: string)
    requires GuardOk(s)
    ensures GuardOk(Offered(s, key))
  {
    var offers := s.offers + [Offer(key, s.clock)];
    assert offers[..|s.offers|] == s.offers;
    forall i, j | 0 <= i < j < |offers| ensures offers[i].at <= offers[j].at {
      assert offers[i] in offers && (j < |s.offers| || offers[i] in s.offers);
    }
  }

  lemma StepKeepsInv(room: RoomAddress, s: State, i: Input)
    requires Inv(room, s) && Enabled(s, i)
    ensures Inv(room, Next(room, s, i))
  {
    var f: nat :| Frontier(s.tasks, f) && SendsOk(s, f);
    if i.Elapsed? || i.Arrives? || i.SourceSays? || i.ChatterAppears? || i.RoomCloses? {
      OtherStep(s, f, i, room);
    } else {
      LinkStep(s, f, i, room);
    }
    StepKeepsGuard(room, s, i);
  }

  lemma StepKeepsGuard(room: RoomAddress, s: State, i: Input)
    requires GuardOk(s)
    ensures GuardOk(Next(room, s, i))
  {
    if i.NameResolves? {
      NamingKeepsGuard(room, s, i.task, i.name);
    } else if i.SourceSays? {
      if i.text != "" { OfferKeepsGuard(s, FingerprintKey(i.name, i.text)); }
    } else {
      GuardDependsOn(s, Next(room, s, i));
    }
  }

  lemma NamingKeepsGuard(room: RoomAddress, s: State, k: nat, name: string)
    requires GuardOk(s)
    ensures GuardOk(Next(room, s, NameResolves(k, name)))
  {
    var key := FingerprintKey(name, ContentOf(s, k));
    OfferKeepsGuard(s, key);
    GuardDependsOn(Offered(s, key), Next(room, s, NameResolves(k, name)));
  }

  lemma GuardDependsOn(s: State, t: State)
    requires GuardOk(s) && t.guard == s.guard && t.offers == s.offers && s.clock <= t.clock
    ensures GuardOk(t)
  {
  }

  lemma {:induction false} RunKeepsInv(room: RoomAddress, inputs: seq<Input>)
    requires Legal(room, inputs)
    ensures Inv(room, Run(room, inputs))
  {
    if inputs == [] {
      assert Frontier(INITIAL.tasks, 0) && SendsOk(INITIAL, 0);
    } else {
      RunKeepsInv(room, inputs[..|inputs| - 1]);
      StepKeepsInv(room, Run(room, inputs[..|inputs| - 1]), inputs[|inputs| - 1]);
    }
  }

  // ---------------------------------------------------------------- what every run guarantees

  /** The event of a delivery arrived while the room was open and passed all the filters as they were
      then, among them the keys made up for source chatters by that time. */
  ghost predicate PassedAt(room: RoomAddress, inputs: seq<Input>, n: nat, k: nat)
    requires n < |inputs| && k < |Run(room, inputs).tasks|
  {
    var s, e := Run(room, inputs[..n]), Run(room, inputs).tasks[k].event;
    inputs[n] == Arrives(e) && |s.tasks| == k && s.isOpen && PassesFilters(room.bridgeName, s.bridged, room.aTag, e)
  }

  lemma StepKeepsTasks(room: RoomAddress, s: State, i: Input)
    ensures var t := Next(room, s, i);
      && |s.tasks| <= |t.tasks| <= |s.tasks| + 1
      && (forall k :: 0 <= k < |s.tasks| ==> t.tasks[k].event == s.tasks[k].event)
      && (|t.tasks| > |s.tasks| ==>
            i == Arrives(t.tasks[|s.tasks|].event) && s.isOpen
            && PassesFilters(room.bridgeName, s.bridged, room.aTag, i.event))
  {
  }

  /** Every delivery, in its place in the order of arrival, is an event that passed the filters. */
  lemma {:induction false} FilteredOnArrival(room: RoomAddress, inputs: seq<Input>, k: nat)
    requires k < |Run(room, inputs).tasks|
    ensures exists n :: 0 <= n < |inputs| && PassedAt(room, inputs, n, k)
  {
    var last := |inputs| - 1;
    var before := inputs[..last];
    StepKeepsTasks(room, Run(room, before), inputs[last]);
    if k < |Run(room, before).tasks| {
      FilteredOnArrival(room, before, k);
      var n :| 0 <= n < last && PassedAt(room, before, n, k);
      assert before[..n] == inputs[..n] && before[n] == inputs[n];
      assert PassedAt(room, inputs, n, k);
    } else {
      assert PassedAt(room, inputs, last, k);
    }
  }

  /** Deliveries never overlap, keep the order of arrival, and happen at most once each; nothing is
      delivered that was not handed over, and nothing is handed over that the filters stopped. */
  lemma FifoDelivery(room: RoomAddress, inputs: seq<Input>)
    requires Legal(room, inputs)
    ensures var s := Run(room, inputs);
      && (forall j, k :: 0 <= j < k < |s.tasks| ==> !Active(s.tasks[j].phase) || !Active(s.tasks[k].phase))
      && Increasing(s.handed) && Increasing(s.pooled)
      && (forall k :: k in s.pooled ==> k in s.handed)
      && (forall k :: k in s.handed ==> k < |s.tasks| && exists n :: 0 <= n < |inputs| && PassedAt(room, inputs, n, k))
      && (forall j, k :: 0 <= j < k < |s.tasks| && !s.tasks[k].phase.Waiting? ==> s.tasks[j].phase.Settled?)
      && (forall k :: 0 <= k < |s.tasks| && s.tasks[k].phase == Settled(Delivered) ==> k in s.pooled)
  {
    RunKeepsInv(room, inputs);
    var s := Run(room, inputs);
    var f: nat :| Frontier(s.tasks, f) && SendsOk(s, f);
    forall k | k in s.handed ensures exists n :: 0 <= n < |inputs| && PassedAt(room, inputs, n, k) {
      FilteredOnArrival(room, inputs, k);
    }
  }

  /** How many awaits a link still has ahead of it. */
  function Ahead(p: Phase): nat {
    match p
    case Waiting => 5
    case Resolving => 4
    case Rendering => 3
    case FetchingEmoji => 2
    case Sending => 1
    case Settled(_) => 0
  }

  /** The steps of one delivery's own link: it starts, an await of its comes back or fails. */
  predicate LinkStepOf(i: Input, k: nat) {
    match i
    case Starts(j) => j == k
    case NameResolves(j, _) => j == k
    case NameFails(j) => j == k
    case Renders(j, _) => j == k
    case RenderFails(j) => j == k
    case EmojiArrives(j) => j == k
    case SendEnds(j, _) => j == k
    case _ => false
  }

  /** Nothing blocks: when no link can take a step any more, every delivery has settled, whatever
      became of those before it. */
  lemma QuiescentMeansSettled(room: RoomAddress, inputs: seq<Input>)
    requires Legal(room, inputs)
    requires forall i, k :: LinkStepOf(i, k) ==> !Enabled(Run(room, inputs), i)
    ensures forall k :: 0 <= k < |Run(room, inputs).tasks| ==> Run(room, inputs).tasks[k].phase.Settled?
  {
    RunKeepsInv(room, inputs);
    var s := Run(room, inputs);
    var f: nat :| Frontier(s.tasks, f) && SendsOk(s, f);
    if f < |s.tasks| {
      var i := match s.tasks[f].phase
        case Waiting => Starts(f)
        case Resolving => NameResolves(f, "")
        case Rendering => Renders(f, false)
        case FetchingEmoji => EmojiArrives(f)
        case _ => SendEnds(f, true);
      assert LinkStepOf(i, f) && Enabled(s, i);
    }
  }

  function LinkSteps(inputs: seq<Input>, k: nat): nat {
    if inputs == [] then 0
    else LinkSteps(inputs[..|inputs| - 1], k) + (if LinkStepOf(inputs[|inputs| - 1], k) then 1 else 0)
  }

  /** And that comes soon: a link takes at most five steps in any run, each bringing it nearer to
      settling, so only as many steps are ever left as its awaits are ahead. */
  lemma {:induction false} LinksAreShort(room: RoomAddress, inputs: seq<Input>, k: nat)
    requires Legal(room, inputs)
    ensures LinkSteps(inputs, k) + Ahead(PhaseOf(Run(room, inputs), k)) <= 5
  {
    if inputs != [] {
      var before, i := inputs[..|inputs| - 1], inputs[|inputs| - 1];
      LinksAreShort(room, before, k);
      LinkAdvances(room, Run(room, before), i, k);
    }
  }

  lemma LinkAdvances(room: RoomAddress, s: State, i: Input, k: nat)
    requires Enabled(s, i)
    ensures var after := Ahead(PhaseOf(Next(room, s, i), k)); var before := Ahead(PhaseOf(s, k));
      if LinkStepOf(i, k) then after < before else after <= before
  {
    if k >= |s.tasks| { StepKeepsTasks(room, s, i); }
  }

  // ---------------------------------------------------------------- what becomes of each delivery

  /** The time, the keys of chatters, the accepted events and the fingerprints offered, by the inputs. */
  function TimeOf(inputs: seq<Input>): int {
    if inputs == [] then 0
    else
      var i := inputs[|inputs| - 1];
      TimeOf(inputs[..|inputs| - 1]) + if i.Elapsed? then i.ms else 0
  }

  function BridgedBy(inputs: seq<Input>): set<string> { set i | i in inputs && i.ChatterAppears? :: i.pubkey }

  function Accepted(room: RoomAddress, inputs: seq<Input>): seq<ChatEvent> {
    if inputs == [] then []
    else
      var before, i := inputs[..|inputs| - 1], inputs[|inputs| - 1];
      var passes := i.Arrives? && RoomCloses !in before
        && PassesFilters(room.bridgeName, BridgedBy(before), room.aTag, i.event);
      Accepted(room, before) + if passes then [i.event] else []
  }

  function ContentIn(events: seq<ChatEvent>, k: nat): string { if k < |events| then events[k].content else "" }

  /** What an input says to the fingerprints. */
  function Says(room: RoomAddress, before: seq<Input>, i: Input): seq<Offer> {
    match i
    case NameResolves(k, name) => [Offer(FingerprintKey(name, ContentIn(Accepted(room, before), k)), TimeOf(before))]
    case SourceSays(name, text) => if text == "" then [] else [Offer(FingerprintKey(name, text), TimeOf(before))]
    case _ => []
  }

  function Offers(room: RoomAddress, inputs: seq<Input>): seq<Offer> {
    if inputs == [] then []
    else
      var before := inputs[..|inputs| - 1];
      Offers(room, before) + Says(room, before, inputs[|inputs| - 1])
  }

  /** The room's memory is that history: an event is queued exactly when it passes on arrival. */
  lemma {:induction false} MemoryIsHistory(room: RoomAddress, inputs: seq<Input>)
    ensures Remembers(room, inputs, Run(room, inputs))
  {
    if inputs != [] {
      var before, i := inputs[..|inputs| - 1], inputs[|inputs| - 1];
      MemoryIsHistory(room, before);
      assert inputs == before + [i];
      StepRemembers(room, before, Run(room, before), i, Run(room, inputs), inputs);
    }
  }

  ghost predicate Remembers(room: RoomAddress, inputs: seq<Input>, s: State) {
    && (s.isOpen <==> RoomCloses !in inputs) && s.clock == TimeOf(inputs) && s.bridged == BridgedBy(inputs)
    && SameEvents(s.tasks, Accepted(room, inputs)) && s.offers == Offers(room, inputs)
  }

  predicate SameEvents(tasks: seq<Task>, events: seq<ChatEvent>) {
    |tasks| == |events| && forall k :: 0 <= k < |tasks| ==> tasks[k].event == events[k]
  }

  lemma StepRemembers(room: RoomAddress, before: seq<Input>, s: State, i: Input, t: State, inputs: seq<Input>)
    requires Remembers(room, before, s) && t == Next(room, s, i)
    requires inputs == before + [i] && inputs[..|before|] == before
    ensures Remembers(room, inputs, t)
  {
    assert BridgedBy(inputs) == BridgedBy(before) + if i.ChatterAppears? then {i.pubkey} else {};
    StepAccepts(room, s, i, Accepted(room, before));
    StepSays(room, before, s, i);
    StepForgetsNothing(room, s, i);
  }

  lemma StepForgetsNothing(room: RoomAddress, s: State, i: Input)
    ensures var t := Next(room, s, i);
      && t.isOpen == (s.isOpen && i != RoomCloses)
      && t.clock == s.clock + (if i.Elapsed? then i.ms else 0)
      && t.bridged == s.bridged + (if i.ChatterAppears? then {i.pubkey} else {})
  {
  }

  lemma StepSays(room: RoomAddress, before: seq<Input>, s: State, i: Input)
    requires SameEvents(s.tasks, Accepted(room, before)) && s.clock == TimeOf(before)
    ensures Next(room, s, i).offers == s.offers + Says(room, before, i)
  {
    if i.NameResolves? { assert ContentIn(Accepted(room, before), i.task) == ContentOf(s, i.task); }
  }

  lemma StepAccepts(room: RoomAddress, s: State, i: Input, events: seq<ChatEvent>)
    requires SameEvents(s.tasks, events)
    ensures var passes := i.Arrives? && s.isOpen && PassesFilters(room.bridgeName, s.bridged, room.aTag, i.event);
      SameEvents(Next(room, s, i).tasks, events + if passes then [i.event] else [])
  {
  }

  /** The third filter: at its n-th input the run drops a delivery whose sender's name and content had
      been admitted, from either side, within the last minute and the last 500 admissions. */
  ghost predicate RepeatAt(room: RoomAddress, inputs: seq<Input>, n: nat, k: nat)
    requires n < |inputs|
  {
    var before := inputs[..n];
    && inputs[n].NameResolves? && inputs[n].task == k
    && var key := FingerprintKey(inputs[n].name, ContentIn(Accepted(room, before), k));
       RecentlyAdmitted(Admissions(Offers(room, before), FINGERPRINT_TTL_MS), key, TimeOf(before), FINGERPRINT_TTL_MS)
  }

  ghost predicate HandedAt(inputs: seq<Input>, n: nat, k: nat)
    requires n < |inputs|
  {
    inputs[n].Renders? && inputs[n].task == k && RoomCloses !in inputs[..n]
  }

  ghost predicate PooledAt(inputs: seq<Input>, n: nat, k: nat)
    requires n < |inputs|
  {
    HandedAt(inputs, n, k) && !inputs[n].hasEmoji
  }

  ghost predicate TornAt(inputs: seq<Input>, n: nat, k: nat)
    requires n < |inputs|
  {
    inputs[n].Renders? && inputs[n].task == k && RoomCloses in inputs[..n]
  }

  ghost predicate Repeats(room: RoomAddress, inputs: seq<Input>, k: nat) {
    exists n :: 0 <= n < |inputs| && RepeatAt(room, inputs, n, k)
  }

  ghost predicate IsHanded(inputs: seq<Input>, k: nat) { exists n :: 0 <= n < |inputs| && HandedAt(inputs, n, k) }

  ghost predicate IsPooled(inputs: seq<Input>, k: nat) {
    (exists n :: 0 <= n < |inputs| && PooledAt(inputs, n, k)) || EmojiArrives(k) in inputs
  }

  ghost predicate IsTorn(inputs: seq<Input>, k: nat) { exists n :: 0 <= n < |inputs| && TornAt(inputs, n, k) }

  predicate IsFailed(inputs: seq<Input>, k: nat) {
    NameFails(k) in inputs || RenderFails(k) in inputs || SendEnds(k, false) in inputs
  }

  lemma RepeatsGrow(room: RoomAddress, inputs: seq<Input>, k: nat)
    requires inputs != []
    ensures var n := |inputs| - 1;
      Repeats(room, inputs, k) <==> Repeats(room, inputs[..n], k) || RepeatAt(room, inputs, n, k)
  {
    var last := |inputs| - 1;
    forall n | 0 <= n < last ensures RepeatAt(room, inputs, n, k) <==> RepeatAt(room, inputs[..last], n, k) {
      assert inputs[..last][..n] == inputs[..n] && inputs[..last][n] == inputs[n];
    }
  }

  lemma OthersGrow(inputs: seq<Input>, k: nat)
    requires inputs != []
    ensures var n := |inputs| - 1;
      && (IsHanded(inputs, k) <==> IsHanded(inputs[..n], k) || HandedAt(inputs, n, k))
      && (IsPooled(inputs, k) <==> IsPooled(inputs[..n], k) || PooledAt(inputs, n, k) || inputs[n] == EmojiArrives(k))
      && (IsTorn(inputs, k) <==> IsTorn(inputs[..n], k) || TornAt(inputs, n, k))
      && (IsFailed(inputs, k) <==> IsFailed(inputs[..n], k) || FailsBy(inputs[n], k))
  {
    var last := |inputs| - 1;
    assert inputs == inputs[..last] + [inputs[last]];
    forall n | 0 <= n < last
      ensures HandedAt(inputs, n, k) <==> HandedAt(inputs[..last], n, k)
      ensures PooledAt(inputs, n, k) <==> PooledAt(inputs[..last], n, k)
      ensures TornAt(inputs, n, k) <==> TornAt(inputs[..last], n, k)
    {
      assert inputs[..last][..n] == inputs[..n] && inputs[..last][n] == inputs[n];
    }
  }

  predicate FailsBy(i: Input, k: nat) { i == NameFails(k) || i == RenderFails(k) || i == SendEnds(k, false) }

  /** What one step does to one delivery, seen from outside. */
  lemma StepDecides(room: RoomAddress, s: State, i: Input, t: State, k: nat)
    requires Enabled(s, i) && t == Next(room, s, i)
    ensures k in t.handed <==> k in s.handed || (i.Renders? && i.task == k && s.isOpen)
    ensures k in t.pooled <==>
      k in s.pooled || (i.Renders? && i.task == k && s.isOpen && !i.hasEmoji) || i == EmojiArrives(k)
    ensures PhaseOf(t, k) == Settled(TornDown) <==>
      PhaseOf(s, k) == Settled(TornDown) || (i.Renders? && i.task == k && !s.isOpen)
    ensures PhaseOf(t, k) == Settled(Failed) <==> PhaseOf(s, k) == Settled(Failed) || FailsBy(i, k)
    ensures PhaseOf(t, k) == Settled(Delivered) <==> PhaseOf(s, k) == Settled(Delivered) || i == SendEnds(k, true)
    ensures PhaseOf(t, k) == Settled(Repeated) <==>
      || PhaseOf(s, k) == Settled(Repeated)
      || (i.NameResolves? && i.task == k && Seen(s, FingerprintKey(i.name, ContentOf(s, k))))
  {
  }

  lemma SeenIsRepeat(room: RoomAddress, inputs: seq<Input>, i: Input)
    requires Legal(room, inputs) && Enabled(Run(room, inputs), i) && i.NameResolves?
    ensures Seen(Run(room, inputs), FingerprintKey(i.name, ContentOf(Run(room, inputs), i.task)))
       <==> RepeatAt(room, inputs + [i], |inputs|, i.task)
  {
    RunKeepsInv(room, inputs);
    MemoryIsHistory(room, inputs);
    var s := Run(room, inputs);
    var o := Offer(FingerprintKey(i.name, ContentOf(s, i.task)), s.clock);
    forall j, m | 0 <= j < m < |s.offers + [o]| ensures (s.offers + [o])[j].at <= (s.offers + [o])[m].at {
      assert s.offers[j] in s.offers;
    }
    CacheRefinesLog(s.offers, o, FINGERPRINT_TTL_MS);
    assert (inputs + [i])[..|inputs|] == inputs;
  }

  /** Main theorem: what becomes of a delivery, by the inputs alone. It is handed to the adapter exactly
      when its content is rendered while the room is open, and given to the sender pool then if it needs
      no emoji and otherwise when they arrive; it is dropped for a closed room exactly when it is rendered
      later than that, as a repeat exactly when it is one, and it has been delivered or has failed
      exactly when the pool or one of its awaits said so. */
  lemma {:induction false} FatesExactly(room: RoomAddress, inputs: seq<Input>, k: nat)
    requires Legal(room, inputs)
    ensures var s := Run(room, inputs);
      && (k in s.handed <==> IsHanded(inputs, k))
      && (k in s.pooled <==> IsPooled(inputs, k))
      && (PhaseOf(s, k) == Settled(TornDown) <==> IsTorn(inputs, k))
      && (PhaseOf(s, k) == Settled(Repeated) <==> Repeats(room, inputs, k))
      && (PhaseOf(s, k) == Settled(Failed) <==> IsFailed(inputs, k))
      && (PhaseOf(s, k) == Settled(Delivered) <==> SendEnds(k, true) in inputs)
  {
    if inputs != [] {
      var before, i := inputs[..|inputs| - 1], inputs[|inputs| - 1];
      assert inputs == before + [i];
      FatesExactly(room, before, k);
      MemoryIsHistory(room, before);
      StepDecides(room, Run(room, before), i, Run(room, inputs), k);
      OthersGrow(inputs, k);
      RepeatsGrow(room, inputs, k);
      if i.NameResolves? { SeenIsRepeat(room, before, i); }
    }
  }

  // ---------------------------------------------------------------- after the room has closed

  /** Once the Room object has left the map it stays out, and no message is handed to the adapter. */
  lemma {:induction false} NothingHandedAfterClose(room: RoomAddress, inputs: seq<Input>, n: nat)
    requires n <= |inputs| && !Run(room, inputs[..n]).isOpen
    ensures !Run(room, inputs).isOpen && Run(room, inputs).handed == Run(room, inputs[..n]).handed
  {
    if n == |inputs| {
      assert inputs[..n] == inputs;
    } else {
      var before := inputs[..|inputs| - 1];
      assert before[..n] == inputs[..n];
      NothingHandedAfterClose(room, before, n);
    }
  }

  predicate Fetching(s: State, k: nat) { PhaseOf(s, k).FetchingEmoji? }

  /** One step after the close: a delivery that was fetching goes on fetching until its emoji arrive,
      which pools it, and none begins to. */
  lemma ClosedStep(room: RoomAddress, s: State, i: Input)
    requires !s.isOpen && Enabled(s, i)
    ensures var t := Next(room, s, i);
      && !t.isOpen
      && (forall k: nat :: Fetching(t, k) <==> Fetching(s, k) && i != EmojiArrives(k))
      && t.pooled == (if i.EmojiArrives? then s.pooled + [i.task] else s.pooled)
      && (i.EmojiArrives? ==> Fetching(s, i.task))
  {
    var t := Next(room, s, i);
    forall k: nat ensures Fetching(t, k) <==> Fetching(s, k) && i != EmojiArrives(k) {
      StepKeepsTasks(room, s, i);
    }
  }

  /** The sender pool is another matter, since nothing is checked again after the emoji fetch: at most
      one more message of a closed room reaches it, namely that of the delivery that was fetching when
      the room closed, and exactly when its emoji arrive afterwards. */
  lemma {:induction false} PooledAfterClose(room: RoomAddress, inputs: seq<Input>, n: nat)
    requires Legal(room, inputs) && n <= |inputs| && !Run(room, inputs[..n]).isOpen
    ensures var s, t := Run(room, inputs[..n]), Run(room, inputs);
      && (forall j: nat, k: nat :: Fetching(s, j) && Fetching(s, k) ==> j == k)
      && (forall k: nat :: Fetching(s, k) ==>
            t.pooled == if EmojiArrives(k) in inputs[n..] then s.pooled + [k] else s.pooled)
      && ((forall k: nat :: !Fetching(s, k)) ==> t.pooled == s.pooled)
  {
    LegalPrefix(room, inputs, n);
    OneFetches(room, inputs[..n]);
    PooledSince(room, inputs, n);
  }

  lemma {:induction false} LegalPrefix(room: RoomAddress, inputs: seq<Input>, n: nat)
    requires Legal(room, inputs) && n <= |inputs|
    ensures Legal(room, inputs[..n])
  {
    if n < |inputs| {
      LegalPrefix(room, inputs[..|inputs| - 1], n);
      assert inputs[..|inputs| - 1][..n] == inputs[..n];
    } else {
      assert inputs[..n] == inputs;
    }
  }

  lemma OneFetches(room: RoomAddress, inputs: seq<Input>)
    requires Legal(room, inputs)
    ensures forall j: nat, k: nat :: Fetching(Run(room, inputs), j) && Fetching(Run(room, inputs), k) ==> j == k
  {
    RunKeepsInv(room, inputs);
    var s := Run(room, inputs);
    var f: nat :| Frontier(s.tasks, f) && SendsOk(s, f);
    forall k: nat | Fetching(s, k) ensures k == f {}
  }

  lemma {:induction false} PooledSince(room: RoomAddress, inputs: seq<Input>, n: nat)
    requires Legal(room, inputs) && n <= |inputs| && !Run(room, inputs[..n]).isOpen
    requires forall j: nat, k: nat ::
      Fetching(Run(room, inputs[..n]), j) && Fetching(Run(room, inputs[..n]), k) ==> j == k
    ensures var s, t := Run(room, inputs[..n]), Run(room, inputs);
      && !t.isOpen
      && (forall k: nat :: Fetching(t, k) <==> Fetching(s, k) && EmojiArrives(k) !in inputs[n..])
      && (forall k: nat :: Fetching(s, k) ==>
            t.pooled == if EmojiArrives(k) in inputs[n..] then s.pooled + [k] else s.pooled)
      && ((forall k: nat :: !Fetching(s, k)) ==> t.pooled == s.pooled)
  {
    if n == |inputs| {
      assert inputs[..n] == inputs;
    } else {
      var before, i := inputs[..|inputs| - 1], inputs[|inputs| - 1];
      assert before[..n] == inputs[..n] && inputs[n..] == before[n..] + [i];
      PooledSince(room, before, n);
      ClosedStep(room, Run(room, before), i);
    }
  }

  /** Such a run: a message with emoji is rendered, the room closes, and the pool gets the message. */
  lemma EmojiOutlivesRoom(room: RoomAddress, e: ChatEvent, name: string)
    requires PassesFilters(room.bridgeName, {}, room.aTag, e)
    ensures exists inputs, n: nat ::
      && n < |inputs| && Legal(room, inputs)
      && !Run(room, inputs[..n]).isOpen && Run(room, inputs[..n]).pooled == [] && Run(room, inputs).pooled == [0]
  {
    var i1 := [Arrives(e)];
    var i2 := i1 + [Starts(0)];
    var i3 := i2 + [NameResolves(0, name)];
    var i4 := i3 + [Renders(0, true)];
    var i5 := i4 + [RoomCloses];
    var i6 := i5 + [EmojiArrives(0)];
    More(room, [], Arrives(e));
    assert [] + [Arrives(e)] == i1;
    More(room, i1, Starts(0));
    More(room, i2, NameResolves(0, name));
    More(room, i3, Renders(0, true));
    More(room, i4, RoomCloses);
    More(room, i5, EmojiArrives(0));
    assert i6[..5] == i5;
  }

  lemma More(room: RoomAddress, inputs: seq<Input>, i: Input)
    ensures Run(room, inputs + [i]) == Next(room, Run(room, inputs), i)
    ensures Legal(room, inputs + [i]) <==> Legal(room, inputs) && Enabled(Run(room, inputs), i)
  {
    assert (inputs + [i])[..|inputs|] == inputs;
  }

  // ---------------------------------------------------------------- the room itself

  class ChatRoom {
    const room: RoomAddress
    const fingerprints: FingerprintCache
    var clock: int
    var isOpen: bool
    var bridged: set<string>
    var tasks: seq<Task>
    ghost var admitted: seq<Entry>
    ghost var offers: seq<Offer>
    var handed: seq<nat>
    var pooled: seq<nat>

    ghost function View(): State reads this, fingerprints {
      State(clock, isOpen, bridged, tasks, Guard(fingerprints.entries, admitted), offers, handed, pooled)
    }

    ghost predicate Valid() reads this, fingerprints {
      && fingerprints.ttlMs == FINGERPRINT_TTL_MS
      && Consistent(Guard(fingerprints.entries, admitted), clock, FINGERPRINT_TTL_MS)
    }

    constructor (room: RoomAddress)
      ensures this.room == room && Valid() && View() == INITIAL && fresh(fingerprints)
    {
      this.room := room;
      fingerprints := new FingerprintCache(FINGERPRINT_TTL_MS);
      clock, isOpen, bridged, tasks, handed, pooled := 0, true, {}, [], [], [];
      admitted, offers := [], [];
    }

    method Offer(name: string, content: string) returns (repeated: bool)
      requires Valid()
      modifies this`admitted, this`offers, fingerprints
      ensures Valid()
      ensures repeated == Seen(old(View()), FingerprintKey(name, content))
      ensures View() == Offered(old(View()), FingerprintKey(name, content))
    {
      var key := FingerprintKey(name, content);
      AdmitConsistent(Guard(fingerprints.entries, admitted), Fingerprints.Offer(key, clock), clock, FINGERPRINT_TTL_MS);
      ghost var log;
      repeated, log := CheckThenAdd(fingerprints, key, clock, admitted);
      admitted := log;
      offers := offers + [Fingerprints.Offer(key, clock)];
    }

    method HandleNostrEvent(event: ChatEvent)
      requires Valid()
      modifies this`tasks
      ensures Valid() && View() == Next(room, old(View()), Arrives(event))
    {
      if !isOpen { return; }
      if event.kind != CHAT_MESSAGE { return; }
      if HasClientTag(event.tags, room.bridgeName) { return; }
      if event.pubkey in bridged { return; }
      var aTag := FirstATag(event.tags);
      if aTag.None? || aTag.value == "" || aTag.value != room.aTag { return; }
      tasks := tasks + [Task(event, Waiting)];
    }

    method Start(k: nat)
      requires Valid() && Enabled(View(), Starts(k))
      modifies this`tasks
      ensures Valid() && View() == Next(room, old(View()), Starts(k))
    {
      tasks := tasks[k := tasks[k].(phase := Resolving)];
    }

    method OnName(k: nat, name: string)
      requires Valid() && Enabled(View(), NameResolves(k, name))
      modifies this`tasks, this`admitted, this`offers, fingerprints
      ensures Valid() && View() == Next(room, old(View()), NameResolves(k, name))
    {
      var repeated := Offer(name, tasks[k].event.content);
      tasks := tasks[k := tasks[k].(phase := if repeated then Settled(Repeated) else Rendering)];
    }

    method OnRendered(k: nat, hasEmoji: bool)
      requires Valid() && Enabled(View(), Renders(k, hasEmoji))
      modifies this`tasks, this`handed, this`pooled
      ensures Valid() && View() == Next(room, old(View()), Renders(k, hasEmoji))
    {
      if !isOpen {
        tasks := tasks[k := tasks[k].(phase := Settled(TornDown))];
        return;
      }
      handed := handed + [k];
      if hasEmoji {
        tasks := tasks[k := tasks[k].(phase := FetchingEmoji)];
      } else {
        pooled := pooled + [k];
        tasks := tasks[k := tasks[k].(phase := Sending)];
      }
    }

    method OnEmoji(k: nat)
      requires Valid() && Enabled(View(), EmojiArrives(k))
      modifies this`tasks, this`pooled
      ensures Valid() && View() == Next(room, old(View()), EmojiArrives(k))
    {
      pooled := pooled + [k];
      tasks := tasks[k := tasks[k].(phase := Sending)];
    }

    /** Any failure of a link is swallowed by the link itself. */
    method OnFailure(k: nat)
      requires Valid()
      requires Enabled(View(), NameFails(k)) || Enabled(View(), RenderFails(k)) || Enabled(View(), SendEnds(k, false))
      modifies this`tasks
      ensures Valid() && View() == Next(room, old(View()), NameFails(k))
      ensures View() == Next(room, old(View()), RenderFails(k)) == Next(room, old(View()), SendEnds(k, false))
    {
      tasks := tasks[k := tasks[k].(phase := Settled(Failed))];
    }

    method OnSent(k: nat)
      requires Valid() && Enabled(View(), SendEnds(k, true))
      modifies this`tasks
      ensures Valid() && View() == Next(room, old(View()), SendEnds(k, true))
    {
      tasks := tasks[k := tasks[k].(phase := Settled(Delivered))];
    }

    /** The source side of the third filter; an empty message is ignored. */
    method OnSourceChat(name: string, text: string) returns (publish: bool)
      requires Valid()
      modifies this`admitted, this`offers, fingerprints
      ensures Valid() && View() == Next(room, old(View()), SourceSays(name, text))
      ensures publish <==> text != "" && !Seen(old(View()), FingerprintKey(name, text))
    {
      if text == "" { return false; }
      var repeated := Offer(name, text);
      return !repeated;
    }

    method Close()
      requires Valid()
      modifies this`isOpen
      ensures Valid() && View() == Next(room, old(View()), RoomCloses)
    {
      isOpen := false;
    }
  }
}
