/** Bridge, relay and source chat as one system: does anything the bridge says come back to it?

    The relay hands any published event to the bridge any number of times, on either firehose, and
    the source rebroadcasts any message or join any number of times. A restart forgets everything the
    process holds. Keys and source user ids are fresh when made; registering a pool sender and
    remembering its id is one step. */
module EchoFreedom {
  import opened ChatEvents
  import opened Options

  type Url = string
  type Pubkey = string
  type UserId = string
  type RoomId = nat

  /** Anything the source broadcasts about a user. */
  datatype Utterance =
    | Said(url: Url, userId: UserId, name: string, text: string)
    | Joined(url: Url, userId: UserId, name: string)

  datatype Room = Room(url: Url, aTag: string)

  /** What the running process holds: the open rooms, the keys it made up for source chatters, the
      set of those keys (layer 2), and the sender pool's registrations. */
  datatype Process = Process(
    rooms: map<RoomId, Room>,
    chatters: map<(RoomId, UserId), Pubkey>,
    bridged: set<Pubkey>,
    tokens: map<Url, map<Pubkey, UserId>>)

  datatype Delivery = Delivery(url: Url, event: ChatEvent)

  datatype Publication = Publication(utterance: Utterance, event: ChatEvent, epoch: nat)

  datatype World = World(
    process: Process,
    epoch: nat,                             // how many restarts there were
    relay: set<ChatEvent>,                  // everything ever published
    wire: set<Utterance>,                   // everything ever broadcast by a source
    madeAt: map<Pubkey, nat>,               // chatter keys, by the epoch that made them
    registeredAt: map<(Url, UserId), nat>,  // pool senders, by the epoch that registered them
    roomsMade: nat,                           // room objects made so far
    delivered: seq<Delivery>,               // events passed to sendMessage
    published: seq<Publication>)            // events published for source utterances

  /** What becomes of an utterance the adapter lets through: the fingerprints drop it, or it is signed
      and published, which may fail before or after the relay has taken the event. */
  datatype Fate = Repeated | Publishes | FailsUnpublished

  datatype Input =
    | StrangerPublishes(event: ChatEvent)
    | StrangerSpeaks(utterance: Utterance)
    | RoomOpens(room: Room)
    | RoomCloses(id: RoomId)
    | Hears(id: RoomId, utterance: Utterance, newKey: Pubkey, fate: Fate)
    | Receives(event: ChatEvent, id: RoomId)
    | PoolRegisters(url: Url, sender: Pubkey, userId: UserId)
    | PoolSpeaks(utterance: Utterance, sender: Pubkey)
    | Restarts

  const FRESH := Process(map[], map[], {}, map[])
  const INITIAL := World(FRESH, 0, {}, {}, map[], map[], 0, [], [])

  /** Signing appends the client tag, whatever is signed. */
  function Signed(bridgeName: string, key: Pubkey, kind: nat, content: string, tags: seq<seq<string>>): ChatEvent {
    ChatEvent(kind, key, content, tags + [["client", bridgeName]])
  }

  /** getOwncastUserIds. */
  function PoolIds(p: Process, url: Url): set<UserId> { if url in p.tokens then p.tokens[url].Values else {} }

  function SignerFor(p: Process, id: RoomId, user: UserId, newKey: Pubkey): Pubkey {
    if (id, user) in p.chatters then p.chatters[(id, user)] else newKey
  }

  function WithSigner(p: Process, id: RoomId, user: UserId, newKey: Pubkey): Process {
    if (id, user) in p.chatters then p
    else p.(chatters := p.chatters[(id, user) := newKey], bridged := p.bridged + {newKey})
  }

  function Tokens(p: Process, url: Url): map<Pubkey, UserId> { if url in p.tokens then p.tokens[url] else map[] }

  function Registered(p: Process, url: Url, sender: Pubkey, user: UserId): Process {
    p.(tokens := p.tokens[url := Tokens(p, url)[sender := user]])
  }

  /** What an utterance is published as: a message, or a line of room presence. */
  function Bridged(bridgeName: string, room: Room, u: Utterance, key: Pubkey): ChatEvent {
    match u
    case Said(_, _, _, text) => Signed(bridgeName, key, CHAT_MESSAGE, text, [["a", room.aTag]])
    case Joined(_, _, _) => Signed(bridgeName, key, ROOM_PRESENCE, "", [["a", room.aTag]])
  }

  /** Dropped by the adapter: one of the pool's own senders, or nothing left to say. */
  predicate Ignored(p: Process, u: Utterance) { u.userId in PoolIds(p, u.url) || (u.Said? && u.text == "") }

  /** Fingerprints are taken of messages only. */
  predicate Unsaid(p: Process, u: Utterance, repeated: bool) { Ignored(p, u) || (u.Said? && repeated) }

  ghost predicate Unused(w: World, key: Pubkey) { key !in w.madeAt && forall e :: e in w.relay ==> e.pubkey != key }

  ghost predicate Enabled(w: World, i: Input) {
    match i
    case StrangerPublishes(e) => e.pubkey !in w.madeAt
    case StrangerSpeaks(u) => (u.url, u.userId) !in w.registeredAt
    case RoomOpens(_) => true
    case RoomCloses(id) => id in w.process.rooms
    case Hears(id, u, key, _) =>
      id in w.process.rooms && w.process.rooms[id].url == u.url && u in w.wire && Unused(w, key)
    case Receives(e, id) => e in w.relay && id in w.process.rooms
    case PoolRegisters(url, sender, user) =>
      && (exists d :: d in w.delivered && d.url == url && d.event.pubkey == sender)
      && sender !in Tokens(w.process, url)
      && (url, user) !in w.registeredAt && forall u :: u in w.wire ==> (u.url, u.userId) != (url, user)
    case PoolSpeaks(u, sender) => sender in Tokens(w.process, u.url) && Tokens(w.process, u.url)[sender] == u.userId
    case Restarts => true
  }

  function Hear(bridgeName: string, w: World, i: Input): World
    requires i.Hears? && i.id in w.process.rooms
  {
    if Unsaid(w.process, i.utterance, i.fate.Repeated?) then w
    else
      var user := i.utterance.userId;
      var key := SignerFor(w.process, i.id, user, i.newKey);
      var event := Bridged(bridgeName, w.process.rooms[i.id], i.utterance, key);
      w.(process := WithSigner(w.process, i.id, user, i.newKey),
         madeAt := if (i.id, user) in w.process.chatters then w.madeAt else w.madeAt[key := w.epoch],
         relay := if i.fate.FailsUnpublished? then w.relay else w.relay + {event},
         published := if i.fate.FailsUnpublished? then w.published
           else w.published + [Publication(i.utterance, event, w.epoch)])
  }

  ghost function Next(bridgeName: string, w: World, i: Input): World
    requires Enabled(w, i)
  {
    match i
    case StrangerPublishes(e) => w.(relay := w.relay + {e})
    case StrangerSpeaks(u) => w.(wire := w.wire + {u})
    case RoomOpens(room) =>
      w.(roomsMade := w.roomsMade + 1, process := w.process.(rooms := w.process.rooms[w.roomsMade := room]))
    case RoomCloses(id) => w.(process := w.process.(rooms := w.process.rooms - {id}))
    case Hears(_, _, _, _) => Hear(bridgeName, w, i)
    case Receives(e, id) =>
      var room := w.process.rooms[id];
      if PassesFilters(bridgeName, w.process.bridged, room.aTag, e)
      then w.(delivered := w.delivered + [Delivery(room.url, e)]) else w
    case PoolRegisters(url, sender, user) =>
      w.(process := Registered(w.process, url, sender, user), registeredAt := w.registeredAt[(url, user) := w.epoch])
    case PoolSpeaks(u, _) => w.(wire := w.wire + {u})
    case Restarts => w.(process := FRESH, epoch := w.epoch + 1)
  }

  ghost predicate IsRun(bridgeName: string, run: seq<World>, inputs: seq<Input>) {
    && |run| == |inputs| + 1 && run[0] == INITIAL
    && (forall k :: 0 <= k < |inputs| ==>
          Enabled(run[k], inputs[k]) && run[k + 1] == Next(bridgeName, run[k], inputs[k]))
  }

  // ---------------------------------------------------------------- the invariant

  /** Layer 1's ground: every event under a key the bridge made carries the client tag. */
  ghost predicate Tagged(bridgeName: string, w: World) {
    forall e :: e in w.relay && e.pubkey in w.madeAt ==> HasClientTag(e.tags, bridgeName)
  }

  /** Layer 2's ground: the set holds exactly the keys made since the last restart. */
  ghost predicate KeysKnown(w: World) {
    && (forall p :: p in w.process.bridged <==> p in w.madeAt && w.madeAt[p] == w.epoch)
    && (forall c :: c in w.process.chatters ==> w.process.chatters[c] in w.process.bridged)
    && (forall p :: p in w.madeAt ==> w.madeAt[p] <= w.epoch)
  }

  /** The adapter's ground: the pool knows exactly the ids registered since the last restart. */
  ghost predicate IdsKnown(w: World) {
    && (forall url, user :: user in PoolIds(w.process, url) <==>
          (url, user) in w.registeredAt && w.registeredAt[(url, user)] == w.epoch)
    && (forall x :: x in w.registeredAt ==> w.registeredAt[x] <= w.epoch)
  }

  ghost predicate NothingReturns(w: World) {
    && (forall d :: d in w.delivered ==> d.event.pubkey !in w.madeAt && d.event in w.relay)
    && (forall p :: p in w.published ==> p.utterance in w.wire && p.event.pubkey in w.madeAt)
    && (forall p :: p in w.published && (p.utterance.url, p.utterance.userId) in w.registeredAt ==>
          w.registeredAt[(p.utterance.url, p.utterance.userId)] < p.epoch)
  }

  ghost predicate Inv(bridgeName: string, w: World) {
    Tagged(bridgeName, w) && KeysKnown(w) && IdsKnown(w) && NothingReturns(w)
  }

  lemma SignedIsTagged(bridgeName: string, room: Room, u: Utterance, key: Pubkey)
    ensures HasClientTag(Bridged(bridgeName, room, u, key).tags, bridgeName)
  {
    assert ["client", bridgeName] in Bridged(bridgeName, room, u, key).tags;
  }

  lemma HearKeeps(bridgeName: string, w: World, i: Input)
    requires Inv(bridgeName, w) && Enabled(w, i) && i.Hears?
    ensures Inv(bridgeName, Next(bridgeName, w, i))
  {
    var u := i.utterance;
    if !Unsaid(w.process, u, i.fate.Repeated?) {
      var t := Next(bridgeName, w, i);
      SignedIsTagged(bridgeName, w.process.rooms[i.id], u, SignerFor(w.process, i.id, u.userId, i.newKey));
      assert forall url :: PoolIds(t.process, url) == PoolIds(w.process, url);
      assert u.userId !in PoolIds(w.process, u.url);
      assert NothingReturns(t);
    }
  }

  lemma AddsOneValue(before: map<Pubkey, UserId>, sender: Pubkey, user: UserId)
    requires sender !in before
    ensures before[sender := user].Values == before.Values + {user}
  {
    var after := before[sender := user];
    forall v ensures v in after.Values <==> v in before.Values || v == user {
      if v in before.Values {
        var k :| k in before && before[k] == v;
        assert after[k] == v;
      } else if v == user {
        assert after[sender] == v;
      }
    }
  }

  lemma RegisterKeeps(bridgeName: string, w: World, i: Input)
    requires Inv(bridgeName, w) && Enabled(w, i) && i.PoolRegisters?
    ensures Inv(bridgeName, Next(bridgeName, w, i))
  {
    var t := Next(bridgeName, w, i);
    forall url, user ensures user in PoolIds(t.process, url)
        <==> (url, user) in t.registeredAt && t.registeredAt[(url, user)] == t.epoch {
      assert user in PoolIds(w.process, url) <==>
        (url, user) in w.registeredAt && w.registeredAt[(url, user)] == w.epoch;
      if url == i.url {
        var before, after := Tokens(w.process, url), Tokens(t.process, url);
        assert after == before[i.sender := i.userId];
        AddsOneValue(before, i.sender, i.userId);
      }
    }
  }

  lemma StepKeeps(bridgeName: string, w: World, i: Input)
    requires Inv(bridgeName, w) && Enabled(w, i)
    ensures Inv(bridgeName, Next(bridgeName, w, i))
  {
    match i {
      case Hears(_, _, _, _) => HearKeeps(bridgeName, w, i);
      case PoolRegisters(_, _, _) => RegisterKeeps(bridgeName, w, i);
      case Restarts =>
        var t := Next(bridgeName, w, i);
        assert forall url :: PoolIds(t.process, url) == {};
      case _ =>
        var t := Next(bridgeName, w, i);
        assert forall url :: PoolIds(t.process, url) == PoolIds(w.process, url);
    }
  }

  lemma {:induction false} RunKeeps(bridgeName: string, run: seq<World>, inputs: seq<Input>, k: nat)
    requires IsRun(bridgeName, run, inputs) && k <= |inputs|
    ensures Inv(bridgeName, run[k])
  {
    if k > 0 {
      RunKeeps(bridgeName, run, inputs, k - 1);
      assert run[k] == Next(bridgeName, run[k - 1], inputs[k - 1]);
      StepKeeps(bridgeName, run[k - 1], inputs[k - 1]);
    }
  }

  // ---------------------------------------------------------------- no echo

  /** From Nostr: no event under a key the bridge made is ever passed to sendMessage, over any number
      of replays on either firehose and any number of restarts. */
  lemma NoNostrEcho(bridgeName: string, run: seq<World>, inputs: seq<Input>, k: nat)
    requires IsRun(bridgeName, run, inputs) && k <= |inputs|
    ensures forall d :: d in run[k].delivered ==> d.event.pubkey !in run[k].madeAt
    ensures forall p :: p in run[k].published ==> p.event.pubkey in run[k].madeAt
  {
    RunKeeps(bridgeName, run, inputs, k);
  }

  /** The second layer alone does it within one life of the process: an event under one of the
      bridge's keys, were it stripped of its client tag, would pass the filters only if the key was
      made before the last restart. */
  lemma SecondLayerAlone(bridgeName: string, run: seq<World>, inputs: seq<Input>, k: nat, aTag: string, e: ChatEvent)
    requires IsRun(bridgeName, run, inputs) && k <= |inputs| && e.pubkey in run[k].madeAt
    requires e.kind == CHAT_MESSAGE && FirstATag(e.tags) == Some(aTag) && aTag != ""
      && !HasClientTag(e.tags, bridgeName)
    ensures PassesFilters(bridgeName, run[k].process.bridged, aTag, e) <==> run[k].madeAt[e.pubkey] < run[k].epoch
  {
    RunKeeps(bridgeName, run, inputs, k);
  }

  /** From the source: nothing said or joined by a pool sender is published back by the process that
      registered it. */
  lemma NoSourceEcho(bridgeName: string, run: seq<World>, inputs: seq<Input>, k: nat, p: Publication)
    requires IsRun(bridgeName, run, inputs) && k <= |inputs| && p in run[k].published
    requires (p.utterance.url, p.utterance.userId) in run[k].registeredAt
    ensures run[k].registeredAt[(p.utterance.url, p.utterance.userId)] < p.epoch
  {
    RunKeeps(bridgeName, run, inputs, k);
  }

  /** Exactly when the source's echo of a pool sender is dropped: when the sender was registered since
      the last restart. */
  lemma SourceEchoExactly(bridgeName: string, run: seq<World>, inputs: seq<Input>, k: nat, u: Utterance)
    requires IsRun(bridgeName, run, inputs) && k <= |inputs|
    requires (u.url, u.userId) in run[k].registeredAt && (u.Said? ==> u.text != "")
    ensures Ignored(run[k].process, u) <==> run[k].registeredAt[(u.url, u.userId)] == run[k].epoch
  {
    RunKeeps(bridgeName, run, inputs, k);
  }

  lemma StrangerHeard(bridgeName: string, e: ChatEvent, room: Room) returns (w: World)
    requires PassesFilters(bridgeName, {}, room.aTag, e)
    ensures Reachable(bridgeName, w) && w.process == FRESH.(rooms := map[0 := room])
    ensures w.delivered == [Delivery(room.url, e)]
    ensures w.relay == {e} && w.wire == {} && w.madeAt == map[] && w.registeredAt == map[] && w.published == []
  {
    assert IsRun(bridgeName, [INITIAL], []);
    assert Reachable(bridgeName, INITIAL);
    var w1 := Go(bridgeName, INITIAL, StrangerPublishes(e));
    var w2 := Go(bridgeName, w1, RoomOpens(room));
    w := Go(bridgeName, w2, Receives(e, 0));
  }

  /** A stranger's message reaches the pool, which registers a sender for it and speaks. */
  lemma PoolSpoke(bridgeName: string, e: ChatEvent, room: Room, u: Utterance) returns (w: World)
    requires PassesFilters(bridgeName, {}, room.aTag, e) && u.url == room.url
    ensures Reachable(bridgeName, w) && u in w.wire && (u.url, u.userId) in w.registeredAt
    ensures w.relay == {e} && w.madeAt == map[] && w.published == []
  {
    var w3 := StrangerHeard(bridgeName, e, room);
    assert Delivery(room.url, e) in w3.delivered;
    var w4 := Go(bridgeName, w3, PoolRegisters(room.url, e.pubkey, u.userId));
    w := Go(bridgeName, w4, PoolSpeaks(u, e.pubkey));
  }

  /** The registrations do not survive a restart, so neither does this: a replayed message of an old
      pool sender is published as if a third party had said it. */
  lemma RestartForgetsSenders(bridgeName: string, e: ChatEvent, room: Room, u: Utterance, key: Pubkey)
      returns (w: World)
    requires PassesFilters(bridgeName, {}, room.aTag, e) && u.url == room.url && key != e.pubkey
      && (u.Said? ==> u.text != "")
    ensures Reachable(bridgeName, w)
    ensures |w.published| == 1 && w.published[0].utterance == u && (u.url, u.userId) in w.registeredAt
  {
    var w5 := PoolSpoke(bridgeName, e, room, u);
    var w6 := Go(bridgeName, w5, Restarts);
    var w7 := Go(bridgeName, w6, RoomOpens(room));
    w := Go(bridgeName, w7, Hears(w6.roomsMade, u, key, Publishes));
  }

  ghost predicate Reachable(bridgeName: string, w: World) {
    exists run, inputs :: IsRun(bridgeName, run, inputs) && run[|inputs|] == w
  }

  lemma Go(bridgeName: string, w: World, i: Input) returns (t: World)
    requires Reachable(bridgeName, w) && Enabled(w, i)
    ensures t == Next(bridgeName, w, i) && Reachable(bridgeName, t)
  {
    t := Next(bridgeName, w, i);
    var run, inputs :| IsRun(bridgeName, run, inputs) && run[|inputs|] == w;
    var run', inputs' := run + [t], inputs + [i];
    assert IsRun(bridgeName, run', inputs') && run'[|inputs'|] == t;
  }

  // ---------------------------------------------------------------- what gets through, from the inputs alone

  function Openings(inputs: seq<Input>): nat {
    if inputs == [] then 0
    else Openings(inputs[..|inputs| - 1]) + if inputs[|inputs| - 1].RoomOpens? then 1 else 0
  }

  function Restarted(inputs: seq<Input>): nat {
    if inputs == [] then 0
    else Restarted(inputs[..|inputs| - 1]) + if inputs[|inputs| - 1].Restarts? then 1 else 0
  }

  /** The id-th room to open, until it closes or the process restarts. */
  function RoomBy(inputs: seq<Input>, id: RoomId): Option<Room> {
    if inputs == [] then None
    else
      var before, i := inputs[..|inputs| - 1], inputs[|inputs| - 1];
      if i.RoomOpens? && Openings(before) == id then Some(i.room)
      else if i.Restarts? || i == RoomCloses(id) then None
      else RoomBy(before, id)
  }

  /** A pool sender was registered under that id since the last restart. */
  predicate PoolKnows(inputs: seq<Input>, url: Url, user: UserId) {
    inputs != [] &&
    var before, i := inputs[..|inputs| - 1], inputs[|inputs| - 1];
    !i.Restarts? && ((i.PoolRegisters? && i.url == url && i.userId == user) || PoolKnows(before, url, user))
  }

  /** The last input is an utterance that gets as far as being signed. */
  predicate Speaks(inputs: seq<Input>) {
    inputs != [] &&
    var before, i := inputs[..|inputs| - 1], inputs[|inputs| - 1];
    && i.Hears? && !PoolKnows(before, i.utterance.url, i.utterance.userId)
    && (i.utterance.Said? ==> i.utterance.text != "" && !i.fate.Repeated?)
  }

  /** The key made when the chatter was first heard in the room since the last restart. */
  function KeyBy(inputs: seq<Input>, id: RoomId, user: UserId): Option<Pubkey> {
    if inputs == [] then None
    else
      var before, i := inputs[..|inputs| - 1], inputs[|inputs| - 1];
      if i.Restarts? then None
      else if KeyBy(before, id, user).None? && Speaks(inputs) && i.id == id && i.utterance.userId == user
      then Some(i.newKey)
      else KeyBy(before, id, user)
  }

  /** The key was made for some chatter since the last restart. */
  predicate Ours(inputs: seq<Input>, key: Pubkey) {
    inputs != [] &&
    var before, i := inputs[..|inputs| - 1], inputs[|inputs| - 1];
    && !i.Restarts?
    && (Ours(before, key)
        || (Speaks(inputs) && KeyBy(before, i.id, i.utterance.userId).None? && i.newKey == key))
  }

  /** The event says it is meant for the address, in the first of its `a` tags. */
  predicate MeantFor(e: ChatEvent, aTag: string) { aTag != "" && FirstATag(e.tags) == Some(aTag) }

  /** Every event passed on to the source: the chat messages meant for an open room that are neither tagged
      by the bridge nor signed by a key it made since the last restart. */
  function DeliveredBy(bridgeName: string, inputs: seq<Input>): seq<Delivery> {
    if inputs == [] then []
    else
      var before, i := inputs[..|inputs| - 1], inputs[|inputs| - 1];
      DeliveredBy(bridgeName, before) +
      if i.Receives? && RoomBy(before, i.id).Some? && MeantFor(i.event, RoomBy(before, i.id).value.aTag)
        && i.event.kind == 1311 && !HasClientTag(i.event.tags, bridgeName) && !Ours(before, i.event.pubkey)
      then [Delivery(RoomBy(before, i.id).value.url, i.event)] else []
  }

  /** Every event published for an utterance: under the chatter's key, addressed to the room, with the
      message as it was said. */
  function PublishedBy(bridgeName: string, inputs: seq<Input>): seq<Publication> {
    if inputs == [] then []
    else
      var before, i := inputs[..|inputs| - 1], inputs[|inputs| - 1];
      PublishedBy(bridgeName, before) +
      if Speaks(inputs) && !i.fate.FailsUnpublished? && RoomBy(before, i.id).Some?
        && KeyBy(inputs, i.id, i.utterance.userId).Some?
      then
        var said := i.utterance.Said?;
        [Publication(i.utterance,
                     ChatEvent(if said then 1311 else 10312, KeyBy(inputs, i.id, i.utterance.userId).value,
                               if said then i.utterance.text else "",
                               [["a", RoomBy(before, i.id).value.aTag], ["client", bridgeName]]),
                     Restarted(before))]
      else []
  }

  function Lookup<K, V>(m: map<K, V>, k: K): Option<V> { if k in m then Some(m[k]) else None }

  ghost predicate RoomsBy(inputs: seq<Input>, w: World) {
    && w.roomsMade == Openings(inputs) && w.epoch == Restarted(inputs)
    && forall id :: Lookup(w.process.rooms, id) == RoomBy(inputs, id)
  }

  ghost predicate PoolBy(inputs: seq<Input>, w: World) {
    forall url, user :: user in PoolIds(w.process, url) <==> PoolKnows(inputs, url, user)
  }

  ghost predicate KeysBy(inputs: seq<Input>, w: World) {
    && (forall id, user :: Lookup(w.process.chatters, (id, user)) == KeyBy(inputs, id, user))
    && (forall key :: key in w.process.bridged <==> Ours(inputs, key))
  }

  ghost predicate Follows(bridgeName: string, inputs: seq<Input>, w: World) {
    RoomsBy(inputs, w) && PoolBy(inputs, w) && KeysBy(inputs, w)
    && w.delivered == DeliveredBy(bridgeName, inputs) && w.published == PublishedBy(bridgeName, inputs)
  }

  ghost predicate Steps(bridgeName: string, w: World, i: Input, t: World, before: seq<Input>, inputs: seq<Input>) {
    && Enabled(w, i) && t == Next(bridgeName, w, i)
    && inputs != [] && before == inputs[..|inputs| - 1] && i == inputs[|inputs| - 1]
  }

  lemma RoomsStep(bridgeName: string, w: World, i: Input, t: World, before: seq<Input>, inputs: seq<Input>)
    requires Steps(bridgeName, w, i, t, before, inputs) && RoomsBy(before, w)
    ensures RoomsBy(inputs, t)
  {
    forall id ensures Lookup(t.process.rooms, id) == RoomBy(inputs, id) {
      assert Lookup(w.process.rooms, id) == RoomBy(before, id);
    }
  }

  lemma PoolStep(bridgeName: string, w: World, i: Input, t: World, before: seq<Input>, inputs: seq<Input>)
    requires Steps(bridgeName, w, i, t, before, inputs) && PoolBy(before, w)
    ensures PoolBy(inputs, t)
  {
    forall url, user ensures user in PoolIds(t.process, url) <==> PoolKnows(inputs, url, user) {
      assert user in PoolIds(w.process, url) <==> PoolKnows(before, url, user);
      if i.PoolRegisters? && url == i.url {
        AddsOneValue(Tokens(w.process, url), i.sender, i.userId);
        assert t.process.tokens[url] == Tokens(w.process, url)[i.sender := i.userId];
      }
    }
  }

  lemma KeysStep(bridgeName: string, w: World, i: Input, t: World, before: seq<Input>, inputs: seq<Input>)
    requires Steps(bridgeName, w, i, t, before, inputs) && PoolBy(before, w) && KeysBy(before, w)
    ensures KeysBy(inputs, t)
    ensures i.Hears? ==> (Speaks(inputs) <==> !Unsaid(w.process, i.utterance, i.fate.Repeated?))
  {
    if i.Hears? {
      var u := i.utterance;
      assert u.userId in PoolIds(w.process, u.url) <==> PoolKnows(before, u.url, u.userId);
      assert Lookup(w.process.chatters, (i.id, u.userId)) == KeyBy(before, i.id, u.userId);
    }
    forall id, user ensures Lookup(t.process.chatters, (id, user)) == KeyBy(inputs, id, user) {
      assert Lookup(w.process.chatters, (id, user)) == KeyBy(before, id, user);
    }
    forall key ensures key in t.process.bridged <==> Ours(inputs, key) {
      assert key in w.process.bridged <==> Ours(before, key);
    }
  }

  lemma OutcomeStep(bridgeName: string, w: World, i: Input, t: World, before: seq<Input>, inputs: seq<Input>)
    requires Steps(bridgeName, w, i, t, before, inputs) && Follows(bridgeName, before, w) && KeysBy(inputs, t)
    requires i.Hears? ==> (Speaks(inputs) <==> !Unsaid(w.process, i.utterance, i.fate.Repeated?))
    ensures t.delivered == DeliveredBy(bridgeName, inputs) && t.published == PublishedBy(bridgeName, inputs)
  {
    match i {
      case Receives(e, id) =>
        assert Lookup(w.process.rooms, id) == RoomBy(before, id);
        assert e.pubkey in w.process.bridged <==> Ours(before, e.pubkey);
      case Hears(id, u, _, _) =>
        assert Lookup(w.process.rooms, id) == RoomBy(before, id);
        assert Lookup(t.process.chatters, (id, u.userId)) == KeyBy(inputs, id, u.userId);
        if Speaks(inputs) { SpokenIsBridged(bridgeName, w, i, t); }
      case _ =>
    }
  }

  lemma SpokenIsBridged(bridgeName: string, w: World, i: Input, t: World)
    requires Enabled(w, i) && i.Hears? && t == Next(bridgeName, w, i)
    requires !Unsaid(w.process, i.utterance, i.fate.Repeated?)
    ensures var u, room := i.utterance, w.process.rooms[i.id];
      && (i.id, u.userId) in t.process.chatters && t.delivered == w.delivered
      && t.published == w.published + if i.fate.FailsUnpublished? then [] else
           [Publication(u, ChatEvent(if u.Said? then 1311 else 10312, t.process.chatters[(i.id, u.userId)],
                                     if u.Said? then u.text else "", [["a", room.aTag], ["client", bridgeName]]),
                        w.epoch)]
  {
    var room := w.process.rooms[i.id];
    assert [["a", room.aTag]] + [["client", bridgeName]] == [["a", room.aTag], ["client", bridgeName]];
  }

  /** Main theorem: what gets through, in both directions and in order, over any run with any number of
      restarts. Every event handed to the source and every event published is there exactly because of the
      inputs, and no other is. */
  lemma {:induction false} TrafficExactly(bridgeName: string, run: seq<World>, inputs: seq<Input>, k: nat)
    requires IsRun(bridgeName, run, inputs) && k <= |inputs|
    ensures Follows(bridgeName, inputs[..k], run[k])
  {
    if k > 0 {
      TrafficExactly(bridgeName, run, inputs, k - 1);
      var before, after := inputs[..k - 1], inputs[..k];
      var w, i, t := run[k - 1], inputs[k - 1], run[k];
      assert after[..|after| - 1] == before;
      RoomsStep(bridgeName, w, i, t, before, after);
      PoolStep(bridgeName, w, i, t, before, after);
      KeysStep(bridgeName, w, i, t, before, after);
      OutcomeStep(bridgeName, w, i, t, before, after);
    }
  }

  // ---------------------------------------------------------------- the process itself

  class Bridge {
    const bridgeName: string
    var rooms: map<RoomId, Room>
    var chatterSigners: map<(RoomId, UserId), Pubkey>
    var bridgedPubkeys: set<Pubkey>
    var tokens: map<Url, map<Pubkey, UserId>>

    ghost function View(): Process reads this { Process(rooms, chatterSigners, bridgedPubkeys, tokens) }

    constructor (bridgeName: string)
      ensures this.bridgeName == bridgeName && View() == FRESH
    {
      this.bridgeName := bridgeName;
      rooms, chatterSigners, bridgedPubkeys, tokens := map[], map[], {}, map[];
    }

    /** The key a chatter speaks under in a room; a new one joins the set the second layer checks. */
    method ChatterSigner(id: RoomId, user: UserId, random: Pubkey) returns (key: Pubkey)
      modifies this`chatterSigners, this`bridgedPubkeys
      ensures key == SignerFor(old(View()), id, user, random)
      ensures View() == WithSigner(old(View()), id, user, random)
    {
      if (id, user) in chatterSigners { return chatterSigners[(id, user)]; }
      chatterSigners := chatterSigners[(id, user) := random];
      bridgedPubkeys := bridgedPubkeys + {random};
      return random;
    }

    method GetOwncastUserIds(url: Url) returns (ids: set<UserId>)
      ensures ids == PoolIds(View(), url)
    {
      ids := {};
      if url !in tokens { return; }
      var byPubkey := tokens[url];
      var todo := byPubkey.Keys;
      while todo != {}
        invariant todo <= byPubkey.Keys
        invariant forall v :: v in ids <==> exists k :: k in byPubkey.Keys - todo && byPubkey[k] == v
        decreases |todo|
      {
        var k :| k in todo;
        todo := todo - {k};
        ids := ids + {byPubkey[k]};
      }
    }

    /** A cached registration is reused; otherwise the server's answer is remembered. */
    method Register(url: Url, sender: Pubkey, answer: UserId) returns (user: UserId)
      modifies this`tokens
      ensures user == if sender in Tokens(old(View()), url) then Tokens(old(View()), url)[sender] else answer
      ensures View() == if sender in Tokens(old(View()), url) then old(View())
        else Registered(old(View()), url, sender, answer)
    {
      var byPubkey := if url in tokens then tokens[url] else map[];
      if sender in byPubkey { return byPubkey[sender]; }
      tokens := tokens[url := byPubkey[sender := answer]];
      return answer;
    }

    /** What the listener hears, through the adapter's echo filter and the fingerprints, to the event that
        goes out to be published. The key is made before publishing can fail. */
    method OnUtterance(id: RoomId, u: Utterance, random: Pubkey, repeated: bool) returns (published: Option<ChatEvent>)
      requires id in rooms && rooms[id].url == u.url
      modifies this`chatterSigners, this`bridgedPubkeys
      ensures published.None? <==> Unsaid(old(View()), u, repeated)
      ensures published.Some? ==>
        && published.value == Bridged(bridgeName, rooms[id], u, SignerFor(old(View()), id, u.userId, random))
        && View() == WithSigner(old(View()), id, u.userId, random)
      ensures published.None? ==> View() == old(View())
    {
      var ids := GetOwncastUserIds(u.url);
      if u.userId in ids { return None; }
      if u.Said? && u.text == "" { return None; }
      if u.Said? && repeated { return None; }
      var key := ChatterSigner(id, u.userId, random);
      return Some(Bridged(bridgeName, rooms[id], u, key));
    }

    method OnNostrEvent(id: RoomId, event: ChatEvent) returns (deliver: bool)
      requires id in rooms
      ensures deliver <==> PassesFilters(bridgeName, View().bridged, rooms[id].aTag, event)
    {
      if event.kind != CHAT_MESSAGE { return false; }
      if HasClientTag(event.tags, bridgeName) { return false; }
      if event.pubkey in bridgedPubkeys { return false; }
      var aTag := FirstATag(event.tags);
      if aTag.None? || aTag.value == "" { return false; }
      return aTag.value == rooms[id].aTag;
    }
  }
}
