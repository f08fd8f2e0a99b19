/** The two-tier lookup of replaceable and addressable events.

    `Newest` says which event a key should resolve to; the maps, the completion predicate, the
    fallback tier and the miss ledger are all stated against it. */
module ReplaceableLoader {
  import opened LoaderKeys
  import opened ProfileBackoff
  import opened Options

  const METADATA_KIND := 0

  datatype Event = Event(id: string, pubkey: string, kind: nat, createdAt: int, tags: seq<seq<string>>)

  predicate Addressable(kind: nat): (addressable: bool)
    ensures addressable <==> kind / 10_000 == 3
  {
    30000 <= kind < 40000
  }

  /** The value of the first d tag; empty without one. */
  function DTag(tags: seq<seq<string>>): string {
    if tags == [] then ""
    else if tags[0] != [] && tags[0][0] == "d" then (if |tags[0]| > 1 then tags[0][1] else "")
    else DTag(tags[1..])
  }

  function Coordinate(e: Event): string {
    ToKey(Request(e.pubkey, e.kind, Some(if Addressable(e.kind) then DTag(e.tags) else "")))
  }

  function KindPubkey(kind: nat, pubkey: string): string { Decimal(kind) + ":" + pubkey }

  function Author(e: Event): string { KindPubkey(e.kind, e.pubkey) }

  /** The event a filing (by Coordinate, or by Author alone) keeps for a key: greatest created_at,
      first arrived on ties. */
  function Newest(filed: Event -> string, events: seq<Event>, key: string): Option<Event> {
    if events == [] then None
    else Newer(filed, Newest(filed, events[..|events| - 1], key), events[|events| - 1], key)
  }

  function Newer(filed: Event -> string, before: Option<Event>, e: Event, key: string): Option<Event> {
    if filed(e) == key && (before.None? || before.value.createdAt < e.createdAt) then Some(e) else before
  }

  /** e is the newest, first arrived, of the events satisfying a test. */
  ghost predicate NewestSuch(events: seq<Event>, such: Event -> bool, e: Event) {
    exists i :: 0 <= i < |events| && events[i] == e && WinsAt(events, such, i)
  }

  ghost predicate WinsAt(events: seq<Event>, such: Event -> bool, i: nat)
    requires i < |events|
  {
    && such(events[i])
    && (forall j :: 0 <= j < |events| && such(events[j]) ==>
          events[j].createdAt < events[i].createdAt || (events[j].createdAt == events[i].createdAt && i <= j))
  }

  ghost predicate NoneSuch(events: seq<Event>, such: Event -> bool) {
    forall j :: 0 <= j < |events| ==> !such(events[j])
  }

  /** Newest is that event, for any test that agrees with the filing, and there is none only when
      nothing passes. */
  lemma {:induction false} NewestWins(filed: Event -> string, events: seq<Event>, key: string, such: Event -> bool)
    requires forall e :: e in events ==> (filed(e) == key <==> such(e))
    ensures var r := Newest(filed, events, key);
      if r.None? then NoneSuch(events, such) else NewestSuch(events, such, r.value)
  {
    if events != [] {
      var init, n := events[..|events| - 1], |events| - 1;
      NewestWins(filed, init, key, such);
      assert events[n] in events;
      var before := Newest(filed, init, key);
      if Newest(filed, events, key) == before {
        if before.Some? {
          var i :| 0 <= i < |init| && init[i] == before.value && WinsAt(init, such, i);
          assert WinsAt(events, such, i);
        }
      } else {
        assert WinsAt(events, such, n);
      }
    }
  }

  // ---------------------------------------------------------------- the maps

  function Lookup(m: map<string, Event>, key: string): Option<Event> {
    if key in m then Some(m[key]) else None
  }

  ghost predicate Files(filed: Event -> string, m: map<string, Event>, events: seq<Event>) {
    forall key :: Lookup(m, key) == Newest(filed, events, key)
  }

  function Filed(filed: Event -> string, m: map<string, Event>, e: Event): map<string, Event> {
    if filed(e) !in m || m[filed(e)].createdAt < e.createdAt then m[filed(e) := e] else m
  }

  lemma FileOneMore(filed: Event -> string, m: map<string, Event>, events: seq<Event>, e: Event)
    requires Files(filed, m, events)
    ensures Files(filed, Filed(filed, m, e), events + [e])
  {
    assert (events + [e])[..|events|] == events;
    forall key ensures Lookup(Filed(filed, m, e), key) == Newest(filed, events + [e], key) {
      assert Lookup(m, key) == Newest(filed, events, key);
    }
  }

  method BuildNewestMaps(events: seq<Event>) returns (byCoordinate: map<string, Event>, byAuthor: map<string, Event>)
    ensures Files(Coordinate, byCoordinate, events) && Files(Author, byAuthor, events)
  {
    byCoordinate, byAuthor := map[], map[];
    for i := 0 to |events|
      invariant Files(Coordinate, byCoordinate, events[..i]) && Files(Author, byAuthor, events[..i])
    {
      var e := events[i];
      FileOneMore(Coordinate, byCoordinate, events[..i], e);
      FileOneMore(Author, byAuthor, events[..i], e);
      assert events[..i + 1] == events[..i] + [e];
      var coordinate, author := Coordinate(e), Author(e);
      if coordinate !in byCoordinate || byCoordinate[coordinate].createdAt < e.createdAt {
        byCoordinate := byCoordinate[coordinate := e];
      }
      if author !in byAuthor || byAuthor[author].createdAt < e.createdAt {
        byAuthor := byAuthor[author := e];
      }
    }
    assert events[..|events|] == events;
  }

  predicate WantsAnyD(r: Request) { Addressable(r.kind) && (r.d.None? || r.d == Some("")) }

  /** resolveRequest on the newest maps of some events. */
  function Resolve(key: string, r: Request, events: seq<Event>): Option<Event> {
    var exact := Newest(Coordinate, events, key);
    if exact.Some? then exact
    else if WantsAnyD(r) then Newest(Author, events, KindPubkey(r.kind, r.pubkey))
    else None
  }

  method ResolveRequest(key: string, r: Request, byCoordinate: map<string, Event>, byAuthor: map<string, Event>,
                        ghost events: seq<Event>) returns (found: Option<Event>)
    requires Files(Coordinate, byCoordinate, events) && Files(Author, byAuthor, events)
    ensures found == Resolve(key, r, events)
  {
    assert Lookup(byCoordinate, key) == Newest(Coordinate, events, key);
    assert Lookup(byAuthor, KindPubkey(r.kind, r.pubkey)) == Newest(Author, events, KindPubkey(r.kind, r.pubkey));
    if key in byCoordinate { return Some(byCoordinate[key]); }
    if WantsAnyD(r) { return Lookup(byAuthor, KindPubkey(r.kind, r.pubkey)); }
    return None;
  }

  // ---------------------------------------------------------------- what resolving means

  /** The event is one the request asks for; without a d, an addressable request takes any. */
  predicate Answers(r: Request, e: Event) {
    && e.kind == r.kind && e.pubkey == r.pubkey
    && (Normal(r).d.None? || (Addressable(r.kind) && DTag(e.tags) == r.d.value))
  }

  /** The event sits at the request's own coordinate. */
  predicate Exact(r: Request, e: Event) {
    Answers(r, e) && (WantsAnyD(r) ==> DTag(e.tags) == "")
  }

  ghost predicate HexPubkeys(events: seq<Event>) { forall e :: e in events ==> ':' !in e.pubkey }

  lemma CoordinateIsExact(r: Request, e: Event)
    requires ':' !in r.pubkey && ':' !in e.pubkey
    ensures Coordinate(e) == ToKey(r) <==> Exact(r, e)
  {
    KeysAreCoordinates(r, Request(e.pubkey, e.kind, Some(if Addressable(e.kind) then DTag(e.tags) else "")));
  }

  lemma AuthorIsKindAndPubkey(kind: nat, pubkey: string, e: Event)
    requires ':' !in pubkey && ':' !in e.pubkey
    ensures Author(e) == KindPubkey(kind, pubkey) <==> e.kind == kind && e.pubkey == pubkey
  {
    KeyShape(kind, pubkey);
    KeyShape(e.kind, e.pubkey);
  }

  lemma KeyShape(kind: nat, pubkey: string)
    ensures var parts := SplitColon(KindPubkey(kind, pubkey));
      ParseDecimal(parts[0]) == kind && JoinColon(parts[1..]) == pubkey
  {
    DecimalRoundTrip(kind);
    SplitFirst(Decimal(kind), pubkey);
    JoinSplit(pubkey);
    var rest := SplitColon(pubkey);
    assert ([Decimal(kind)] + rest)[1..] == rest;
  }

  /** A request resolves to the newest event at its own coordinate, or, when it names no d and
      nothing sits there, to the newest of its author and kind; it fails only when nothing answers. */
  lemma ResolutionMeaning(r: Request, events: seq<Event>)
    requires ':' !in r.pubkey && HexPubkeys(events)
    ensures var found := Resolve(ToKey(r), r, events);
      && (found.None? <==> NoneSuch(events, e => Answers(r, e)))
      && (found.Some? && !NoneSuch(events, e => Exact(r, e)) ==> NewestSuch(events, e => Exact(r, e), found.value))
      && (found.Some? && NoneSuch(events, e => Exact(r, e)) ==> NewestSuch(events, e => Answers(r, e), found.value))
  {
    ExactTier(r, events);
    if WantsAnyD(r) { LooseTier(r, events); }
  }

  lemma ExactTier(r: Request, events: seq<Event>)
    requires ':' !in r.pubkey && HexPubkeys(events)
    ensures var found := Newest(Coordinate, events, ToKey(r));
      if found.None? then NoneSuch(events, e => Exact(r, e)) else NewestSuch(events, e => Exact(r, e), found.value)
    ensures !WantsAnyD(r) ==> forall e: Event :: Exact(r, e) == Answers(r, e)
  {
    forall e | e in events ensures Coordinate(e) == ToKey(r) <==> Exact(r, e) { CoordinateIsExact(r, e); }
    NewestWins(Coordinate, events, ToKey(r), e => Exact(r, e));
  }

  lemma LooseTier(r: Request, events: seq<Event>)
    requires ':' !in r.pubkey && HexPubkeys(events) && WantsAnyD(r)
    ensures var found := Newest(Author, events, KindPubkey(r.kind, r.pubkey));
      if found.None? then NoneSuch(events, e => Answers(r, e)) else NewestSuch(events, e => Answers(r, e), found.value)
  {
    forall e | e in events ensures Author(e) == KindPubkey(r.kind, r.pubkey) <==> Answers(r, e) {
      AuthorIsKindAndPubkey(r.kind, r.pubkey, e);
    }
    NewestWins(Author, events, KindPubkey(r.kind, r.pubkey), e => Answers(r, e));
  }

  // ---------------------------------------------------------------- completion

  predicate Complete(keys: seq<string>, requests: seq<Request>, events: seq<Event>)
    requires |keys| == |requests|
  {
    forall i :: 0 <= i < |keys| ==> Resolve(keys[i], requests[i], events).Some?
  }

  method IsComplete(keys: seq<string>, requests: seq<Request>, events: seq<Event>) returns (complete: bool)
    requires |keys| == |requests|
    ensures complete <==> Complete(keys, requests, events)
  {
    var byCoordinate, byAuthor := BuildNewestMaps(events);
    for i := 0 to |keys|
      invariant forall k :: 0 <= k < i ==> Resolve(keys[k], requests[k], events).Some?
    {
      var found := ResolveRequest(keys[i], requests[i], byCoordinate, byAuthor, events);
      if found.None? { return false; }
    }
    return true;
  }

  lemma {:induction false} NewestPersists(filed: Event -> string, events: seq<Event>, more: seq<Event>, key: string)
    requires Newest(filed, events, key).Some?
    ensures Newest(filed, events + more, key).Some?
  {
    if more == [] {
      assert events + more == events;
    } else {
      NewestPersists(filed, events, more[..|more| - 1], key);
      assert (events + more)[..|events + more| - 1] == events + more[..|more| - 1];
    }
  }

  /** Once complete, a tier stays complete however many events still arrive. */
  lemma {:induction false} CompletionIsMonotone(keys: seq<string>, requests: seq<Request>, events: seq<Event>,
      more: seq<Event>)
    requires |keys| == |requests| && Complete(keys, requests, events)
    ensures Complete(keys, requests, events + more)
  {
    forall i | 0 <= i < |keys| ensures Resolve(keys[i], requests[i], events + more).Some? {
      var r := requests[i];
      if Newest(Coordinate, events, keys[i]).Some? {
        NewestPersists(Coordinate, events, more, keys[i]);
      } else {
        NewestPersists(Author, events, more, KindPubkey(r.kind, r.pubkey));
      }
    }
  }

  // ---------------------------------------------------------------- the two tiers

  /** What one tier's query came back with; None when it threw. */
  datatype Answer = Answer(events: seq<Event>, eoseCount: nat)

  /** The keys a tier left unresolved, in order. */
  function Unresolved(keys: seq<string>, requests: seq<Request>, events: seq<Event>): seq<nat>
    requires |keys| == |requests|
  {
    UnresolvedUpTo(keys, requests, events, |keys|)
  }

  function UnresolvedUpTo(keys: seq<string>, requests: seq<Request>, events: seq<Event>, n: nat): (u: seq<nat>)
    requires |keys| == |requests| && n <= |keys|
    ensures forall i :: i in u <==> 0 <= i < n && Resolve(keys[i], requests[i], events).None?
  {
    if n == 0 then []
    else
      var before := UnresolvedUpTo(keys, requests, events, n - 1);
      if Resolve(keys[n - 1], requests[n - 1], events).None? then before + [n - 1] else before
  }

  function Outcome(ledger: map<string, FailedFetch>, key: string, kind: nat, found: Option<Event>, eoseTotal: nat,
      now: int)
    : map<string, FailedFetch>
  {
    if kind == METADATA_KIND then ledger
    else if found.Some? then ledger - {key}
    else if eoseTotal > 0 then Recorded(ledger, key, now)
    else ledger
  }

  class ReplaceableEventLoader {
    const hasFallback: bool
    var missLedger: map<string, FailedFetch>

    constructor (hasFallback: bool)
      ensures this.hasFallback == hasFallback && missLedger == map[]
    {
      this.hasFallback := hasFallback;
      missLedger := map[];
    }

    method RecordOutcome(key: string, kind: nat, found: Option<Event>, eoseTotal: nat, now: int)
      modifies this
      ensures missLedger == Outcome(old(missLedger), key, kind, found, eoseTotal, now)
    {
      if kind == METADATA_KIND { return; }
      if found.Some? {
        missLedger := missLedger - {key};
      } else if eoseTotal > 0 {
        missLedger := Recorded(missLedger, key, now);
      }
    }

    /** One batch. `asked` is what the fallback tier was asked for; its answer, were it needed, is
        `fallback`. When a query throws, every key stays unresolved and nothing is recorded. */
    method LoadViaBigRelays(keys: seq<string>, requests: seq<Request>, primary: Option<Answer>,
        fallback: Option<Answer>, now: int)
      returns (results: seq<Option<Event>>, asked: seq<nat>)
      requires |keys| == |requests|
      requires forall i, j :: 0 <= i < j < |keys| ==> keys[i] != keys[j]
      modifies this
      ensures asked == if primary.Some? && hasFallback then Unresolved(keys, requests, primary.value.events) else []
      ensures |results| == |keys|
      ensures primary.None? || (asked != [] && fallback.None?) ==>
        missLedger == old(missLedger) && forall i :: 0 <= i < |keys| ==> results[i] == None
      ensures primary.Some? && asked == [] ==>
        AllSettled(keys, requests, primary.value, old(missLedger), missLedger, now, results)
      ensures primary.Some? && asked != [] && fallback.Some? ==>
        AllSettled(keys, requests, BothTiers(primary.value, fallback.value), old(missLedger), missLedger, now, results)
    {
      results := seq(|keys|, _ => None);
      asked := [];
      if primary.None? { return; }
      if hasFallback {
        asked := FindUnresolved(keys, requests, primary.value.events);
        if |asked| > 0 && fallback.None? { return; }
      }
      var all := if |asked| > 0 then BothTiers(primary.value, fallback.value) else primary.value;
      results := SettleAll(keys, requests, all, now);
    }

    method SettleAll(keys: seq<string>, requests: seq<Request>, all: Answer, now: int)
      returns (results: seq<Option<Event>>)
      requires |keys| == |requests|
      requires forall i, j :: 0 <= i < j < |keys| ==> keys[i] != keys[j]
      modifies this
      ensures |results| == |keys|
      ensures AllSettled(keys, requests, all, old(missLedger), missLedger, now, results)
    {
      var byCoordinate, byAuthor := BuildNewestMaps(all.events);
      results := [];
      for i := 0 to |keys|
        invariant |results| == i
        invariant AllSettled(keys[..i], requests[..i], all, old(missLedger), missLedger, now, results)
      {
        var found := ResolveRequest(keys[i], requests[i], byCoordinate, byAuthor, all.events);
        SettleOneMore(keys, requests, i, all, old(missLedger), missLedger, now, results);
        results := results + [found];
        RecordOutcome(keys[i], requests[i].kind, found, all.eoseCount, now);
      }
      assert keys[..|keys|] == keys && requests[..|keys|] == requests;
    }

    method FindUnresolved(keys: seq<string>, requests: seq<Request>, events: seq<Event>) returns (u: seq<nat>)
      requires |keys| == |requests|
      ensures u == Unresolved(keys, requests, events)
    {
      var byCoordinate, byAuthor := BuildNewestMaps(events);
      u := [];
      for i := 0 to |keys|
        invariant u == UnresolvedUpTo(keys, requests, events, i)
      {
        var found := ResolveRequest(keys[i], requests[i], byCoordinate, byAuthor, events);
        if found.None? { u := u + [i]; }
      }
    }
  }

  /** Everything both tiers returned. */
  function BothTiers(primary: Answer, fallback: Answer): Answer {
    Answer(primary.events + fallback.events, primary.eoseCount + fallback.eoseCount)
  }

  function Failures(m: map<string, FailedFetch>, key: string): Option<FailedFetch> {
    if key in m then Some(m[key]) else None
  }

  /** The key resolves over everything gathered. A miss is recorded only for an unresolved key,
      never for profiles, and only when some relay answered; a hit forgets earlier misses. */
  ghost predicate Settled(key: string, r: Request, all: Answer, before: map<string, FailedFetch>,
                          after: map<string, FailedFetch>, now: int, found: Option<Event>) {
    && found == Resolve(key, r, all.events)
    && (r.kind == METADATA_KIND ==> Failures(after, key) == Failures(before, key))
    && (r.kind != METADATA_KIND && found.Some? ==> Failures(after, key) == None)
    && (r.kind != METADATA_KIND && found.None? && all.eoseCount == 0 ==> Failures(after, key) == Failures(before, key))
    && (r.kind != METADATA_KIND && found.None? && all.eoseCount > 0 ==>
          Failures(after, key) == Some(Failure(Attempts(before, key), now)))
  }

  ghost predicate AllSettled(keys: seq<string>, requests: seq<Request>, all: Answer, before: map<string, FailedFetch>,
                             after: map<string, FailedFetch>, now: int, results: seq<Option<Event>>)
    requires |keys| == |requests| == |results|
  {
    && (forall i :: 0 <= i < |keys| ==> Settled(keys[i], requests[i], all, before, after, now, results[i]))
    && (forall key :: key !in keys ==> Failures(after, key) == Failures(before, key))
  }

  lemma SettleOneMore(keys: seq<string>, requests: seq<Request>, i: nat, all: Answer, before: map<string, FailedFetch>,
                      after: map<string, FailedFetch>, now: int, results: seq<Option<Event>>)
    requires |keys| == |requests| && i < |keys| && |results| == i
    requires forall j, k :: 0 <= j < k < |keys| ==> keys[j] != keys[k]
    requires AllSettled(keys[..i], requests[..i], all, before, after, now, results)
    ensures var found := Resolve(keys[i], requests[i], all.events);
      AllSettled(keys[..i + 1], requests[..i + 1], all, before,
                 Outcome(after, keys[i], requests[i].kind, found, all.eoseCount, now), now, results + [found])
  {
    var found := Resolve(keys[i], requests[i], all.events);
    var then' := Outcome(after, keys[i], requests[i].kind, found, all.eoseCount, now);
    assert keys[i] !in keys[..i];
    assert Failures(after, keys[i]) == Failures(before, keys[i]);
    forall key | key !in keys[..i + 1] ensures Failures(then', key) == Failures(before, key) {
      assert key !in keys[..i] && key != keys[i] by { assert keys[..i + 1] == keys[..i] + [keys[i]]; }
    }
    forall k | 0 <= k < i ensures Settled(keys[k], requests[k], all, before, then', now, (results + [found])[k]) {
      assert Settled(keys[..i][k], requests[..i][k], all, before, after, now, results[k]);
      assert Failures(then', keys[k]) == Failures(after, keys[k]);
    }
  }

  /** A key is left unresolved exactly when neither tier holds anything for it, and a key the primary
      resolved stays resolved. */
  lemma TwoTiersAreOne(r: Request, primary: seq<Event>, fallback: seq<Event>)
    requires ':' !in r.pubkey && HexPubkeys(primary) && HexPubkeys(fallback)
    ensures Resolve(ToKey(r), r, primary + fallback).None?
       <==> NoneSuch(primary, e => Answers(r, e)) && NoneSuch(fallback, e => Answers(r, e))
    ensures Resolve(ToKey(r), r, primary).Some? ==> Resolve(ToKey(r), r, primary + fallback).Some?
  {
    ResolutionMeaning(r, primary);
    ResolutionMeaning(r, primary + fallback);
    NoneInBoth(primary, fallback, e => Answers(r, e));
  }

  /** So a load comes back empty-handed for a key exactly when neither tier holds anything for it, and asks
      the fallback for exactly the keys the primary holds nothing for. */
  lemma LoadedExactly(keys: seq<string>, requests: seq<Request>, primary: Answer, fallback: Answer, i: nat)
    requires |keys| == |requests| && i < |keys| && keys[i] == ToKey(requests[i])
    requires ':' !in requests[i].pubkey && HexPubkeys(primary.events) && HexPubkeys(fallback.events)
    ensures i in Unresolved(keys, requests, primary.events) <==> NoneSuch(primary.events, e => Answers(requests[i], e))
    ensures Resolve(keys[i], requests[i], BothTiers(primary, fallback).events).None?
       <==> && i in Unresolved(keys, requests, primary.events)
            && NoneSuch(fallback.events, e => Answers(requests[i], e))
  {
    ResolutionMeaning(requests[i], primary.events);
    TwoTiersAreOne(requests[i], primary.events, fallback.events);
  }

  /** And a key that is left empty-handed is counted as missed exactly when a relay of either tier answered. */
  lemma MissesAreAnswered(key: string, r: Request, primary: Answer, fallback: Answer, before: map<string, FailedFetch>,
      after: map<string, FailedFetch>, now: int)
    requires Settled(key, r, BothTiers(primary, fallback), before, after, now, None) && r.kind != METADATA_KIND
    ensures Attempts(after, key)
         == Attempts(before, key) + if primary.eoseCount > 0 || fallback.eoseCount > 0 then 1 else 0
  {
    assert Failures(after, key) == Failures(before, key) || Failures(after, key).Some?;
  }

  /** The later of two finds, the earlier one on ties. */
  function LaterOf(x: Option<Event>, y: Option<Event>): Option<Event> {
    if y.Some? && (x.None? || x.value.createdAt < y.value.createdAt) then y else x
  }

  lemma {:induction false} NewestOfBoth(filed: Event -> string, a: seq<Event>, b: seq<Event>, key: string)
    ensures Newest(filed, a + b, key) == LaterOf(Newest(filed, a, key), Newest(filed, b, key))
  {
    if b == [] {
      assert a + b == a;
    } else {
      var n := |b| - 1;
      NewestOfBoth(filed, a, b[..n], key);
      assert (a + b)[..|a + b| - 1] == a + b[..n] && (a + b)[|a + b| - 1] == b[n];
    }
  }

  /** The same answer, or a strictly newer one. */
  predicate SameOrNewer(before: Option<Event>, after: Option<Event>) {
    before.Some? ==> after.Some? && (after == before || before.value.createdAt < after.value.createdAt)
  }

  /** Some exact event of the fallback takes the place of the primary's loose answer. */
  ghost predicate Displaced(r: Request, primary: seq<Event>, fallback: seq<Event>) {
    WantsAnyD(r) && NoneSuch(primary, e => Exact(r, e)) && !NoneSuch(fallback, e => Exact(r, e))
  }

  /** What the second tier does to an answer of the first, in all cases. It leaves it or finds a newer
      one, except that a request without a d which the primary could only answer loosely takes the
      newest event the fallback holds at its own coordinate, however old. */
  lemma FallbackOnAnswers(r: Request, primary: seq<Event>, fallback: seq<Event>)
    requires ':' !in r.pubkey && HexPubkeys(primary) && HexPubkeys(fallback)
    ensures var p, c := Resolve(ToKey(r), r, primary), Resolve(ToKey(r), r, primary + fallback);
      if Displaced(r, primary, fallback) then c.Some? && NewestSuch(fallback, e => Exact(r, e), c.value)
      else SameOrNewer(p, c)
  {
    NewestOfBoth(Coordinate, primary, fallback, ToKey(r));
    NewestOfBoth(Author, primary, fallback, KindPubkey(r.kind, r.pubkey));
    ExactTier(r, primary);
    ExactTier(r, fallback);
    SuchIsNotNone(primary, e => Exact(r, e), Newest(Coordinate, primary, ToKey(r)));
    SuchIsNotNone(fallback, e => Exact(r, e), Newest(Coordinate, fallback, ToKey(r)));
  }

  lemma SuchIsNotNone(events: seq<Event>, such: Event -> bool, found: Option<Event>)
    ensures found.Some? && NewestSuch(events, such, found.value) ==> !NoneSuch(events, such)
  {
  }

  lemma NewestIsOne(events: seq<Event>, such: Event -> bool, x: Event, y: Event)
    requires NewestSuch(events, such, x) && NewestSuch(events, such, y)
    ensures x == y
  {
    var i :| 0 <= i < |events| && events[i] == x && WinsAt(events, such, i);
    var j :| 0 <= j < |events| && events[j] == y && WinsAt(events, such, j);
  }

  ghost predicate WinnerOlderThan(events: seq<Event>, such: Event -> bool, age: int) {
    exists x :: NewestSuch(events, such, x) && x.createdAt < age
  }

  /** So an answer gets older exactly when the request names no d, the primary held nothing at its own
      coordinate, and the newest thing the fallback holds there is older than the loose answer. */
  lemma FallbackAgesExactly(r: Request, primary: seq<Event>, fallback: seq<Event>)
    requires ':' !in r.pubkey && HexPubkeys(primary) && HexPubkeys(fallback)
    requires Resolve(ToKey(r), r, primary).Some?
    ensures var p, c := Resolve(ToKey(r), r, primary), Resolve(ToKey(r), r, primary + fallback);
      c.Some? && (c.value.createdAt < p.value.createdAt <==>
        && WantsAnyD(r) && NoneSuch(primary, e => Exact(r, e))
        && WinnerOlderThan(fallback, e => Exact(r, e), p.value.createdAt))
  {
    var p, c := Resolve(ToKey(r), r, primary), Resolve(ToKey(r), r, primary + fallback);
    FallbackOnAnswers(r, primary, fallback);
    var exact := e => Exact(r, e);
    if WinnerOlderThan(fallback, exact, p.value.createdAt) {
      var x :| NewestSuch(fallback, exact, x) && x.createdAt < p.value.createdAt;
      SuchIsNotNone(fallback, exact, Some(x));
      if Displaced(r, primary, fallback) { NewestIsOne(fallback, exact, x, c.value); }
    }
  }

  /** Two events that show it: the primary's answer gives way to an older one. */
  lemma LooseAnswerGivesWay(author: string, kind: nat, newer: Event, older: Event)
    requires Addressable(kind) && ':' !in author
    requires newer == Event("a", author, kind, 10, [["d", "x"]]) && older == Event("b", author, kind, 5, [])
    ensures var r := Request(author, kind, None);
      Resolve(ToKey(r), r, [newer]) == Some(newer) && Resolve(ToKey(r), r, [newer] + [older]) == Some(older)
  {
    var r := Request(author, kind, None);
    assert DTag(newer.tags) == "x" && DTag(older.tags) == "";
    CoordinateIsExact(r, newer);
    CoordinateIsExact(r, older);
    NewestOfOne(Coordinate, newer, ToKey(r));
    NewestOfOne(Coordinate, older, ToKey(r));
    NewestOfOne(Author, newer, KindPubkey(kind, author));
    NewestOfBoth(Coordinate, [newer], [older], ToKey(r));
  }

  lemma NewestOfOne(filed: Event -> string, e: Event, key: string)
    ensures Newest(filed, [e], key) == if filed(e) == key then Some(e) else None
  {
    assert [e][..0] == [];
  }

  lemma NoneInBoth(a: seq<Event>, b: seq<Event>, such: Event -> bool)
    ensures NoneSuch(a + b, such) <==> NoneSuch(a, such) && NoneSuch(b, such)
  {
    if NoneSuch(a + b, such) {
      forall j | 0 <= j < |a| ensures !such(a[j]) { assert (a + b)[j] == a[j]; }
      forall j | 0 <= j < |b| ensures !such(b[j]) { assert (a + b)[|a| + j] == b[j]; }
    }
  }

  // ---------------------------------------------------------------- what is asked for

  /** One filter per kind; no ds means no `#d` condition. */
  datatype Filter = Filter(kind: nat, authors: set<string>, ds: set<string>, limit: nat)

  datatype Group = Group(authors: set<string>, ds: set<string>)

  predicate NamesD(r: Request) { Addressable(r.kind) && r.d.Some? && r.d.value != "" }

  ghost predicate Gathers(g: Group, kind: nat, requests: seq<Request>) {
    && g.authors == (set r | r in requests && r.kind == kind :: r.pubkey)
    && g.ds == (set r | r in requests && r.kind == kind && NamesD(r) :: r.d.value)
  }

  /** The filters of a batch: one for each kind asked for, and no other. */
  ghost predicate FiltersFor(filters: seq<Filter>, requests: seq<Request>) {
    && (forall i, j :: 0 <= i < j < |filters| ==> filters[i].kind != filters[j].kind)
    && (forall r :: r in requests ==> exists i :: 0 <= i < |filters| && filters[i].kind == r.kind)
    && (forall i :: 0 <= i < |filters| ==>
          && Gathers(Group(filters[i].authors, filters[i].ds), filters[i].kind, requests)
          && filters[i].limit == |filters[i].authors| * (if filters[i].ds == {} then 1 else |filters[i].ds|) * 3)
  }

  method BuildBatchFilters(requests: seq<Request>) returns (filters: seq<Filter>)
    ensures FiltersFor(filters, requests)
  {
    var kinds: seq<nat>, groups: map<nat, Group> := [], map[];
    for i := 0 to |requests|
      invariant forall k :: k in kinds <==> k in groups
      invariant forall a, b :: 0 <= a < b < |kinds| ==> kinds[a] != kinds[b]
      invariant forall r :: r in requests[..i] ==> r.kind in groups
      invariant forall k :: k in groups ==> Gathers(groups[k], k, requests[..i])
    {
      var r := requests[i];
      if r.kind !in groups {
        groups := groups[r.kind := Group({}, {})];
        kinds := kinds + [r.kind];
        assert Gathers(groups[r.kind], r.kind, requests[..i]);
      }
      var g := groups[r.kind];
      var g' := Group(g.authors + {r.pubkey}, if NamesD(r) then g.ds + {r.d.value} else g.ds);
      ghost var before := groups;
      groups := groups[r.kind := g'];
      assert requests[..i + 1] == requests[..i] + [r];
      forall k | k in groups ensures Gathers(groups[k], k, requests[..i + 1]) {
        assert Gathers(before[k], k, requests[..i]);
        GatherOneMore(before[k], k, requests[..i], r);
      }
    }
    assert requests[..|requests|] == requests;
    filters := [];
    for i := 0 to |kinds|
      invariant |filters| == i
      invariant forall j :: 0 <= j < i ==>
        && filters[j].kind == kinds[j]
        && Group(filters[j].authors, filters[j].ds) == groups[kinds[j]]
        && filters[j].limit == |filters[j].authors| * (if filters[j].ds == {} then 1 else |filters[j].ds|) * 3
    {
      var g := groups[kinds[i]];
      filters := filters + [Filter(kinds[i], g.authors, g.ds, |g.authors| * (if |g.ds| < 1 then 1 else |g.ds|) * 3)];
    }
    forall r | r in requests ensures exists i :: 0 <= i < |filters| && filters[i].kind == r.kind {
      assert r.kind in kinds;
      var i :| 0 <= i < |kinds| && kinds[i] == r.kind;
      assert filters[i].kind == r.kind;
    }
  }

  lemma GatherOneMore(g: Group, kind: nat, requests: seq<Request>, r: Request)
    requires Gathers(g, kind, requests)
    ensures Gathers(if r.kind != kind then g
                    else Group(g.authors + {r.pubkey}, if NamesD(r) then g.ds + {r.d.value} else g.ds),
                    kind, requests + [r])
  {
    assert forall s :: s in requests + [r] <==> s in requests || s == r;
  }

  /** A relay serves an event to a filter (NIP-01, "Communication between clients and relays"). */
  ghost predicate Admits(f: Filter, e: Event) {
    && e.kind == f.kind && e.pubkey in f.authors
    && (f.ds != {} ==> exists t :: t in e.tags && |t| > 1 && t[0] == "d" && t[1] in f.ds)
  }

  ghost predicate AdmitsAllAnswers(filters: seq<Filter>, requests: seq<Request>) {
    forall r, e :: r in requests && Answers(r, e) ==> exists i :: 0 <= i < |filters| && Admits(filters[i], e)
  }

  /** Some addressable kind is asked for both with and without a d. */
  ghost predicate MixesKinds(requests: seq<Request>) {
    exists r, s :: r in requests && s in requests && r.kind == s.kind && WantsAnyD(r) && NamesD(s)
  }

  lemma {:induction false} DTagIsATag(tags: seq<seq<string>>)
    requires DTag(tags) != ""
    ensures exists t :: t in tags && |t| > 1 && t[0] == "d" && t[1] == DTag(tags)
  {
    if tags[0] != [] && tags[0][0] == "d" {
      assert tags[0] in tags;
    } else {
      DTagIsATag(tags[1..]);
      var t :| t in tags[1..] && |t| > 1 && t[0] == "d" && t[1] == DTag(tags[1..]);
      assert t in tags;
    }
  }

  /** The filters reach every event that could answer some request exactly when no addressable kind
      mixes requests with a d and without: then the `#d` condition narrows the d-less ones too. */
  lemma FiltersReachAnswers(requests: seq<Request>, filters: seq<Filter>)
    requires FiltersFor(filters, requests)
    ensures AdmitsAllAnswers(filters, requests) <==> !MixesKinds(requests)
  {
    if MixesKinds(requests) {
      var r, s :| r in requests && s in requests && r.kind == s.kind && WantsAnyD(r) && NamesD(s);
      MixedKindMisses(requests, filters, r, s);
    } else {
      forall r, e | r in requests && Answers(r, e) ensures exists i :: 0 <= i < |filters| && Admits(filters[i], e) {
        UnmixedKindReaches(requests, filters, r, e);
      }
    }
  }

  lemma MixedKindMisses(requests: seq<Request>, filters: seq<Filter>, r: Request, s: Request)
    requires FiltersFor(filters, requests)
    requires r in requests && s in requests && r.kind == s.kind && WantsAnyD(r) && NamesD(s)
    ensures !AdmitsAllAnswers(filters, requests)
  {
    var e := Event("", r.pubkey, r.kind, 0, []);
    assert Answers(r, e);
    forall i | 0 <= i < |filters| ensures !Admits(filters[i], e) {
      if filters[i].kind == r.kind {
        assert Gathers(Group(filters[i].authors, filters[i].ds), filters[i].kind, requests);
        assert s.d.value in filters[i].ds;
      }
    }
  }

  lemma UnmixedKindReaches(requests: seq<Request>, filters: seq<Filter>, r: Request, e: Event)
    requires FiltersFor(filters, requests) && !MixesKinds(requests)
    requires r in requests && Answers(r, e)
    ensures exists i :: 0 <= i < |filters| && Admits(filters[i], e)
  {
    var i :| 0 <= i < |filters| && filters[i].kind == r.kind;
    var f := filters[i];
    assert Gathers(Group(f.authors, f.ds), f.kind, requests);
    assert r.pubkey in f.authors;
    if f.ds != {} {
      var d :| d in f.ds;
      var s :| s in requests && s.kind == f.kind && NamesD(s) && s.d.value == d;
      assert !WantsAnyD(r);
      assert r.d.value in f.ds;
      DTagIsATag(e.tags);
    }
    assert Admits(f, e);
  }

  // ---------------------------------------------------------------- what an honest fallback can do

  /** Every d tag of the event says the same. */
  ghost predicate OneD(e: Event) { forall t :: t in e.tags && |t| > 1 && t[0] == "d" ==> t[1] == DTag(e.tags) }

  /** Relays that keep to the filters they are sent cannot make an answer older: what the fallback is
      asked for never includes the coordinate of a request the primary resolved. It takes an event with
      several d tags to get around that. */
  lemma HonestFallbackNeverAges(r: Request, primary: seq<Event>, fallback: seq<Event>, asked: seq<Request>,
      filters: seq<Filter>)
    requires ':' !in r.pubkey && HexPubkeys(primary) && HexPubkeys(fallback)
    requires forall q :: q in asked ==> ToKey(q) != ToKey(r)
    requires FiltersFor(filters, asked)
    requires forall e :: e in fallback ==> OneD(e) && exists i :: 0 <= i < |filters| && Admits(filters[i], e)
    ensures SameOrNewer(Resolve(ToKey(r), r, primary), Resolve(ToKey(r), r, primary + fallback))
  {
    FallbackOnAnswers(r, primary, fallback);
    if Displaced(r, primary, fallback) {
      var j :| 0 <= j < |fallback| && Exact(r, fallback[j]);
      var e := fallback[j];
      assert e in fallback;
      var i :| 0 <= i < |filters| && Admits(filters[i], e);
      ExactIsNotAskedFor(r, e, asked, filters[i]);
    }
  }

  lemma ExactIsNotAskedFor(r: Request, e: Event, asked: seq<Request>, f: Filter)
    requires WantsAnyD(r) && Exact(r, e) && OneD(e) && Admits(f, e)
    requires Gathers(Group(f.authors, f.ds), f.kind, asked)
    ensures exists q :: q in asked && ToKey(q) == ToKey(r)
  {
    NamedDsOnly(asked, f);
    assert e.pubkey in f.authors;
    var q :| q in asked && q.kind == f.kind && q.pubkey == e.pubkey;
    assert ToKey(q) == ToKey(r);
  }

  lemma NamedDsOnly(asked: seq<Request>, f: Filter)
    requires Gathers(Group(f.authors, f.ds), f.kind, asked)
    ensures "" !in f.ds
    ensures forall q :: q in asked && q.kind == f.kind && NamesD(q) ==> q.d.value in f.ds
  {
  }
}
