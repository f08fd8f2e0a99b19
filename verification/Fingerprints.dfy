/** The layer-3 duplicate guard: a capped, expiring map of content fingerprints.

    The cache is an insertion-ordered map kept as a sequence of entries with distinct keys.
    Its meaning is given against an unbounded log of everything its callers ever admitted:
    a fingerprint is reported exactly when its last admission is fresh and among the last 500. */
module Fingerprints {

  const MAX_ENTRIES := 500

  /** One fingerprint and the time it was recorded. */
  datatype Entry = Entry(key: string, at: int)

  predicate Fresh(e: Entry, now: int, ttl: int) { now - e.at <= ttl }

  predicate HasKey(s: seq<Entry>, key: string) { exists e :: e in s && e.key == key }

  /** The entries not older than the time to live. */
  function FreshOf(s: seq<Entry>, now: int, ttl: int): seq<Entry>
  {
    if s == [] then []
    else (if Fresh(s[0], now, ttl) then [s[0]] else []) + FreshOf(s[1..], now, ttl)
  }

  /** The last n entries. */
  function Last(s: seq<Entry>, n: nat): seq<Entry> { if |s| <= n then s else s[|s| - n..] }

  function Without(s: seq<Entry>, key: string): seq<Entry>
  {
    if s == [] then []
    else (if s[0].key == key then [] else [s[0]]) + Without(s[1..], key)
  }

  ghost predicate TimeOrdered(s: seq<Entry>) { forall i, j :: 0 <= i < j < |s| ==> s[i].at <= s[j].at }

  ghost predicate DistinctKeys(s: seq<Entry>) { forall i, j :: 0 <= i < j < |s| ==> s[i].key != s[j].key }

  /** Insertion-ordered map write: an existing key keeps its place. */
  function Put(s: seq<Entry>, e: Entry): seq<Entry>
  {
    if s == [] then [e]
    else if s[0].key == e.key then [e] + s[1..]
    else [s[0]] + Put(s[1..], e)
  }

  // ---------------------------------------------------------------- the cache

  class FingerprintCache {
    const ttlMs: int
    var entries: seq<Entry>

    constructor (ttlMs: int)
      ensures entries == [] && this.ttlMs == ttlMs
    {
      this.ttlMs := ttlMs;
      entries := [];
    }

    /** True when the fingerprint was seen within the time to live; an expired one is dropped. */
    method Has(key: string, now: int) returns (seen: bool)
      requires DistinctKeys(entries)
      modifies this
      ensures seen == HasKey(FreshOf(old(entries), now, ttlMs), key)
      ensures entries == Probed(old(entries), key, now, ttlMs)
    {
      var i := 0;
      while i < |entries| && entries[i].key != key
        invariant 0 <= i <= |entries|
        invariant entries == old(entries)
        invariant !HasKey(entries[..i], key)
      {
        NotYetFound(entries, i, key);
        i := i + 1;
      }
      FreshMembers(entries, now, ttlMs);
      if i == |entries| {
        assert entries[..i] == entries;
        WithoutAbsent(entries, key);
        return false;
      }
      if now - entries[i].at > ttlMs {
        WithoutAt(entries, i);
        entries := entries[..i] + entries[i + 1..];
        return false;
      }
      assert entries[i] in FreshOf(entries, now, ttlMs);
      return true;
    }

    /** Record a fingerprint, first dropping expired entries and then the oldest beyond the cap. */
    method Add(key: string, now: int)
      modifies this
      ensures entries == Put(Last(FreshOf(old(entries), now, ttlMs), MAX_ENTRIES - 1), Entry(key, now))
    {
      Prune(now);
      var i := 0;
      while i < |entries| && entries[i].key != key
        invariant 0 <= i <= |entries|
        invariant entries == Last(FreshOf(old(entries), now, ttlMs), MAX_ENTRIES - 1)
        invariant !HasKey(entries[..i], key)
      {
        NotYetFound(entries, i, key);
        i := i + 1;
      }
      assert i == |entries| ==> entries[..i] == entries;
      PutAt(entries, i, Entry(key, now));
      entries := if i < |entries| then entries[i := Entry(key, now)] else entries + [Entry(key, now)];
    }

    method Prune(now: int)
      modifies this
      ensures entries == Last(FreshOf(old(entries), now, ttlMs), MAX_ENTRIES - 1)
    {
      DropExpired(now);
      ghost var all := entries;
      while |entries| >= MAX_ENTRIES
        invariant Last(entries, MAX_ENTRIES - 1) == Last(all, MAX_ENTRIES - 1)
      {
        entries := entries[1..];
      }
    }

    method DropExpired(now: int)
      modifies this
      ensures entries == FreshOf(old(entries), now, ttlMs)
    {
      var i := 0;
      while i < |entries|
        invariant 0 <= i <= |entries|
        invariant entries[..i] + FreshOf(entries[i..], now, ttlMs) == FreshOf(old(entries), now, ttlMs)
        decreases |entries| - i
      {
        OneExamined(entries, i, now, ttlMs);
        if now - entries[i].at > ttlMs {
          entries := entries[..i] + entries[i + 1..];
        } else {
          i := i + 1;
        }
      }
      assert entries[..i] == entries && entries[i..] == [];
    }
  }

  /** One entry of the walk: dropped when it has expired, passed over otherwise. */
  lemma OneExamined(s: seq<Entry>, i: nat, now: int, ttl: int)
    requires i < |s|
    ensures var all := s[..i] + FreshOf(s[i..], now, ttl);
      if now - s[i].at > ttl
      then var t := s[..i] + s[i + 1..]; t[..i] + FreshOf(t[i..], now, ttl) == all
      else s[..i + 1] + FreshOf(s[i + 1..], now, ttl) == all
  {
    FreshStep(s[i..], now, ttl);
    assert s[i..][1..] == s[i + 1..];
    if now - s[i].at > ttl {
      var t := s[..i] + s[i + 1..];
      assert t[..i] == s[..i] && t[i..] == s[i + 1..];
    } else {
      assert s[..i + 1] == s[..i] + [s[i]];
    }
  }

  /** The entries left behind by a lookup: an expired hit is deleted, anything else is untouched. */
  function Probed(s: seq<Entry>, key: string, now: int, ttl: int): seq<Entry>
  {
    if HasKey(FreshOf(s, now, ttl), key) then s else Without(s, key)
  }

  // ------------------------------------------------- check-then-add, over whole runs

  /** One use by the bridge: look the fingerprint up and record it only when it was not seen. */
  datatype Offer = Offer(key: string, at: int)

  /** The cache together with the log of everything admitted so far. */
  datatype Guard = Guard(entries: seq<Entry>, log: seq<Entry>)

  predicate Duplicate(g: Guard, o: Offer, ttl: int) { HasKey(FreshOf(g.entries, o.at, ttl), o.key) }

  /** One call of Has followed, when it answers false, by Add: exactly what the two callers do. */
  function Admit(g: Guard, o: Offer, ttl: int): Guard
  {
    var probed := Probed(g.entries, o.key, o.at, ttl);
    if Duplicate(g, o, ttl) then g.(entries := probed)
    else
      var e := Entry(o.key, o.at);
      Guard(Put(Last(FreshOf(probed, o.at, ttl), MAX_ENTRIES - 1), e), g.log + [e])
  }

  function AdmitAll(offers: seq<Offer>, ttl: int): Guard
  {
    if offers == [] then Guard([], [])
    else Admit(AdmitAll(offers[..|offers| - 1], ttl), offers[|offers| - 1], ttl)
  }

  /** The clock never runs backwards. */
  ghost predicate Ordered(offers: seq<Offer>) {
    forall i, j :: 0 <= i < j < |offers| ==> offers[i].at <= offers[j].at
  }

  /** The callers' idiom: give up on a fingerprint already seen, otherwise record it. */
  method CheckThenAdd(cache: FingerprintCache, key: string, now: int, ghost log: seq<Entry>)
    returns (duplicate: bool, ghost admitted: seq<Entry>)
    requires DistinctKeys(cache.entries)
    modifies cache
    ensures duplicate == Duplicate(Guard(old(cache.entries), log), Offer(key, now), cache.ttlMs)
    ensures Guard(cache.entries, admitted) == Admit(Guard(old(cache.entries), log), Offer(key, now), cache.ttlMs)
  {
    duplicate := cache.Has(key, now);
    admitted := log;
    if !duplicate {
      cache.Add(key, now);
      admitted := log + [Entry(key, now)];
    }
  }

  /** The specification: the last admission of the key is fresh, with fewer than 500 after it. */
  ghost predicate RecentlyAdmitted(log: seq<Entry>, key: string, now: int, ttl: int) {
    exists i :: 0 <= i < |log| && LastAdmission(log, key, i) && now - log[i].at <= ttl && |log| - 1 - i < MAX_ENTRIES
  }

  ghost predicate LastAdmission(log: seq<Entry>, key: string, i: nat) {
    i < |log| && log[i].key == key && forall j :: i < j < |log| ==> log[j].key != key
  }

  /** What every reachable cache satisfies; in particular it agrees with the log's last 500
      entries as far as anybody asking from now on can tell. */
  ghost predicate Consistent(g: Guard, clock: int, ttl: int) {
    && DistinctKeys(g.entries)
    && TimeOrdered(g.entries) && TimeOrdered(g.log)
    && |g.entries| <= MAX_ENTRIES
    && (forall e :: e in g.entries || e in g.log ==> e.at <= clock)
    && FreshOf(g.entries, clock, ttl) == FreshOf(Last(g.log, MAX_ENTRIES), clock, ttl)
  }

  /** The admissions by themselves, without any cache: every offer that repeats no recent one. */
  ghost function Admissions(offers: seq<Offer>, ttl: int): seq<Entry> {
    if offers == [] then []
    else
      var before, o := Admissions(offers[..|offers| - 1], ttl), offers[|offers| - 1];
      if RecentlyAdmitted(before, o.key, o.at, ttl) then before else before + [Entry(o.key, o.at)]
  }

  /** Main theorem: after any run, the cache answers a lookup exactly as the admissions would, and what
      it has admitted are exactly those. */
  lemma {:induction false} CacheRefinesLog(offers: seq<Offer>, o: Offer, ttl: int)
    requires Ordered(offers + [o])
    ensures AdmitAll(offers, ttl).log == Admissions(offers, ttl)
    ensures Duplicate(AdmitAll(offers, ttl), o, ttl) <==> RecentlyAdmitted(Admissions(offers, ttl), o.key, o.at, ttl)
  {
    if offers != [] {
      var before, last := offers[..|offers| - 1], offers[|offers| - 1];
      assert before + [last] == offers;
      OrderedPrefix(offers, o);
      CacheRefinesLog(before, last, ttl);
    }
    CacheAnswers(offers, o, ttl);
  }

  lemma CacheAnswers(offers: seq<Offer>, o: Offer, ttl: int)
    requires Ordered(offers + [o])
    ensures Duplicate(AdmitAll(offers, ttl), o, ttl)
            <==> RecentlyAdmitted(AdmitAll(offers, ttl).log, o.key, o.at, ttl)
  {
    var clock := if offers == [] then o.at else offers[|offers| - 1].at;
    OrderedPrefix(offers, o);
    RunConsistent(offers, clock, ttl);
    var g := AdmitAll(offers, ttl);
    FreshLater(g.entries, clock, o.at, ttl);
    FreshLater(Last(g.log, MAX_ENTRIES), clock, o.at, ttl);
    FreshMembers(Last(g.log, MAX_ENTRIES), o.at, ttl);
    WindowAnswers(g.log, o.key, o.at, ttl);
  }

  /** Companion: at every reachable point map order is time order and the cap holds. */
  lemma {:induction false} RunConsistent(offers: seq<Offer>, clock: int, ttl: int)
    requires Ordered(offers)
    requires offers != [] ==> clock == offers[|offers| - 1].at
    ensures Consistent(AdmitAll(offers, ttl), clock, ttl)
  {
    if offers != [] {
      var before, o := offers[..|offers| - 1], offers[|offers| - 1];
      var earlier := if before == [] then o.at else before[|before| - 1].at;
      RunConsistent(before, earlier, ttl);
      AdmitConsistent(AdmitAll(before, ttl), o, earlier, ttl);
    }
  }

  lemma {:induction false} AdmitConsistent(g: Guard, o: Offer, clock: int, ttl: int)
    requires Consistent(g, clock, ttl) && clock <= o.at
    ensures Consistent(Admit(g, o, ttl), o.at, ttl)
  {
    FreshLater(g.entries, clock, o.at, ttl);
    FreshLater(Last(g.log, MAX_ENTRIES), clock, o.at, ttl);
    assert Consistent(g, o.at, ttl);
    if !Duplicate(g, o, ttl) {
      var e := Entry(o.key, o.at);
      var room := Last(FreshOf(g.entries, o.at, ttl), MAX_ENTRIES - 1);
      RoomShape(g.entries, room, e, ttl);
      AdmitNew(g, o, room, e, ttl);
      SameFreshWindow(g.log, room, e, ttl);
      Appended(room, e);
      Appended(g.log, e);
    }
  }

  lemma AdmitNew(g: Guard, o: Offer, room: seq<Entry>, e: Entry, ttl: int)
    requires !Duplicate(g, o, ttl) && e == Entry(o.key, o.at)
    requires room == Last(FreshOf(g.entries, o.at, ttl), MAX_ENTRIES - 1) && !HasKey(room, e.key)
    ensures Admit(g, o, ttl) == Guard(room + [e], g.log + [e])
  {
    FreshIgnoresExpired(g.entries, o.key, o.at, ttl);
    PutAbsent(room, e);
  }

  lemma Appended(s: seq<Entry>, e: Entry)
    requires TimeOrdered(s) && forall x :: x in s ==> x.at <= e.at
    ensures TimeOrdered(s + [e])
    ensures DistinctKeys(s) && !HasKey(s, e.key) ==> DistinctKeys(s + [e])
  {
  }

  lemma RoomShape(entries: seq<Entry>, room: seq<Entry>, e: Entry, ttl: int)
    requires DistinctKeys(entries) && TimeOrdered(entries)
    requires !HasKey(FreshOf(entries, e.at, ttl), e.key)
    requires room == Last(FreshOf(entries, e.at, ttl), MAX_ENTRIES - 1)
    ensures DistinctKeys(room) && TimeOrdered(room) && !HasKey(room, e.key)
    ensures forall x :: x in room ==> x in entries
  {
    FreshMembers(entries, e.at, ttl);
    FreshKeepsShape(entries, e.at, ttl);
  }

  /** Admitting one more entry shifts the cache and the log's window in step. */
  lemma SameFreshWindow(log: seq<Entry>, room: seq<Entry>, e: Entry, ttl: int)
    requires TimeOrdered(log)
    requires room == Last(FreshOf(Last(log, MAX_ENTRIES), e.at, ttl), MAX_ENTRIES - 1)
    ensures FreshOf(room + [e], e.at, ttl) == FreshOf(Last(log + [e], MAX_ENTRIES), e.at, ttl)
  {
    var window := Last(log, MAX_ENTRIES);
    var newer := Last(window, MAX_ENTRIES - 1);
    assert Last(log + [e], MAX_ENTRIES) == newer + [e];
    FreshOfTail(window, MAX_ENTRIES - 1, e.at, ttl);
    FreshMembers(newer, e.at, ttl);
    FreshIdempotent(room, e.at, ttl);
    FreshConcat(newer, [e], e.at, ttl);
    FreshConcat(room, [e], e.at, ttl);
  }

  // ---------------------------------------------------------------- lemmas on sequences

  lemma OrderedPrefix(offers: seq<Offer>, o: Offer)
    requires Ordered(offers + [o])
    ensures Ordered(offers) && (offers != [] ==> offers[|offers| - 1].at <= o.at)
  {
    var all := offers + [o];
    assert forall i :: 0 <= i < |offers| ==> all[i] == offers[i];
    assert all[|offers|] == o;
  }

  lemma WindowAnswers(log: seq<Entry>, key: string, now: int, ttl: int)
    requires TimeOrdered(log)
    ensures HasKey(FreshOf(Last(log, MAX_ENTRIES), now, ttl), key) <==> RecentlyAdmitted(log, key, now, ttl)
  {
    if HasKey(FreshOf(Last(log, MAX_ENTRIES), now, ttl), key) { WindowKeyIsRecent(log, key, now, ttl); }
    if RecentlyAdmitted(log, key, now, ttl) { RecentIsInWindow(log, key, now, ttl); }
  }

  lemma WindowKeyIsRecent(log: seq<Entry>, key: string, now: int, ttl: int)
    requires TimeOrdered(log) && HasKey(FreshOf(Last(log, MAX_ENTRIES), now, ttl), key)
    ensures RecentlyAdmitted(log, key, now, ttl)
  {
    var w := Last(log, MAX_ENTRIES);
    FreshMembers(w, now, ttl);
    var e :| e in FreshOf(w, now, ttl) && e.key == key;
    var j :| 0 <= j < |w| && w[j] == e;
    SeenIsRecent(log, key, now, ttl, |log| - |w| + j);
  }

  lemma RecentIsInWindow(log: seq<Entry>, key: string, now: int, ttl: int)
    requires RecentlyAdmitted(log, key, now, ttl)
    ensures HasKey(FreshOf(Last(log, MAX_ENTRIES), now, ttl), key)
  {
    var w := Last(log, MAX_ENTRIES);
    FreshMembers(w, now, ttl);
    var i :| 0 <= i < |log| && LastAdmission(log, key, i) && Fresh(log[i], now, ttl) && |log| - 1 - i < MAX_ENTRIES;
    assert w[i - (|log| - |w|)] == log[i];
    assert log[i] in FreshOf(w, now, ttl);
  }

  lemma SeenIsRecent(log: seq<Entry>, key: string, now: int, ttl: int, at: nat)
    requires TimeOrdered(log) && at < |log| && |log| - at <= MAX_ENTRIES
    requires log[at].key == key && Fresh(log[at], now, ttl)
    ensures RecentlyAdmitted(log, key, now, ttl)
  {
    var i := LastOf(log, key, at);
    assert log[at].at <= log[i].at;
    assert LastAdmission(log, key, i) && Fresh(log[i], now, ttl);
  }

  lemma {:induction false} LastOf(log: seq<Entry>, key: string, at: nat) returns (i: nat)
    requires at < |log| && log[at].key == key
    ensures at <= i && LastAdmission(log, key, i)
    decreases |log| - at
  {
    if j :| at < j < |log| && log[j].key == key {
      i := LastOf(log, key, j);
    } else {
      i := at;
    }
  }

  lemma FreshStep(s: seq<Entry>, now: int, ttl: int)
    requires s != []
    ensures FreshOf(s, now, ttl) == (if Fresh(s[0], now, ttl) then [s[0]] else []) + FreshOf(s[1..], now, ttl)
  {
  }

  lemma FreshMembers(s: seq<Entry>, now: int, ttl: int)
    ensures forall e :: e in FreshOf(s, now, ttl) <==> e in s && Fresh(e, now, ttl)
  {
  }

  lemma {:induction false} FreshConcat(a: seq<Entry>, b: seq<Entry>, now: int, ttl: int)
    ensures FreshOf(a + b, now, ttl) == FreshOf(a, now, ttl) + FreshOf(b, now, ttl)
  {
    if a == [] {
      assert a + b == b;
    } else {
      FreshConcat(a[1..], b, now, ttl);
      var head, x, y := if Fresh(a[0], now, ttl) then [a[0]] else [], FreshOf(a[1..], now, ttl), FreshOf(b, now, ttl);
      assert (a + b)[0] == a[0] && (a + b)[1..] == a[1..] + b;
      assert head + (x + y) == (head + x) + y;
    }
  }

  /** Freshness at a later time can be read off the entries that were fresh earlier. */
  lemma FreshLater(s: seq<Entry>, now: int, later: int, ttl: int)
    requires now <= later
    ensures FreshOf(s, later, ttl) == FreshOf(FreshOf(s, now, ttl), later, ttl)
  {
    if s != [] {
      var head := if Fresh(s[0], now, ttl) then [s[0]] else [];
      FreshLater(s[1..], now, later, ttl);
      FreshConcat(head, FreshOf(s[1..], now, ttl), later, ttl);
    }
  }

  lemma FreshIdempotent(s: seq<Entry>, now: int, ttl: int)
    requires forall e :: e in s ==> Fresh(e, now, ttl)
    ensures FreshOf(s, now, ttl) == s
  {
  }

  lemma {:induction false} FreshKeepsShape(s: seq<Entry>, now: int, ttl: int)
    requires DistinctKeys(s) && TimeOrdered(s)
    ensures DistinctKeys(FreshOf(s, now, ttl)) && TimeOrdered(FreshOf(s, now, ttl))
  {
    if s != [] {
      TailKeepsShape(s);
      FreshKeepsShape(s[1..], now, ttl);
      FreshMembers(s[1..], now, ttl);
      var rest := FreshOf(s[1..], now, ttl);
      forall e | e in rest ensures e.key != s[0].key && s[0].at <= e.at { BehindHead(s, e); }
      HeadKeepsShape(s[0], rest);
    }
  }

  lemma TailKeepsShape(s: seq<Entry>)
    requires s != [] && DistinctKeys(s) && TimeOrdered(s)
    ensures DistinctKeys(s[1..]) && TimeOrdered(s[1..])
  {
  }

  lemma HeadKeepsShape(e: Entry, rest: seq<Entry>)
    requires DistinctKeys(rest) && TimeOrdered(rest) && forall x :: x in rest ==> x.key != e.key && e.at <= x.at
    ensures DistinctKeys([e] + rest) && TimeOrdered([e] + rest)
  {
  }

  lemma BehindHead(s: seq<Entry>, e: Entry)
    requires DistinctKeys(s) && TimeOrdered(s) && s != [] && e in s[1..]
    ensures e.key != s[0].key && s[0].at <= e.at
  {
    var j :| 0 <= j < |s[1..]| && s[1..][j] == e;
    assert s[j + 1] == e;
  }

  /** In time order the fresh entries form a tail, so capping and expiring commute. */
  lemma {:induction false} FreshOfTail(s: seq<Entry>, n: nat, now: int, ttl: int)
    requires TimeOrdered(s)
    ensures FreshOf(Last(s, n), now, ttl) == Last(FreshOf(s, now, ttl), n)
  {
    if |s| > n {
      var rest := s[1..];
      assert Last(rest, n) == Last(s, n);
      FreshOfTail(rest, n, now, ttl);
      if Fresh(s[0], now, ttl) {
        FreshIdempotent(rest, now, ttl);
        assert FreshOf(s, now, ttl) == [s[0]] + rest == s;
      } else {
        assert FreshOf(s, now, ttl) == FreshOf(rest, now, ttl);
      }
    } else {
      FreshNoLonger(s, now, ttl);
    }
  }

  lemma FreshNoLonger(s: seq<Entry>, now: int, ttl: int)
    ensures |FreshOf(s, now, ttl)| <= |s|
  {
  }

  lemma {:induction false} FreshIgnoresExpired(s: seq<Entry>, key: string, now: int, ttl: int)
    requires !HasKey(FreshOf(s, now, ttl), key)
    ensures FreshOf(Without(s, key), now, ttl) == FreshOf(s, now, ttl)
  {
    if s != [] {
      FreshMembers(s, now, ttl);
      FreshMembers(s[1..], now, ttl);
      FreshIgnoresExpired(s[1..], key, now, ttl);
      if s[0].key == key {
        assert Without(s, key) == Without(s[1..], key);
      } else {
        assert Without(s, key)[1..] == Without(s[1..], key);
      }
    }
  }

  lemma NotYetFound(s: seq<Entry>, i: nat, key: string)
    requires i < |s| && !HasKey(s[..i], key) && s[i].key != key
    ensures !HasKey(s[..i + 1], key)
  {
    assert s[..i + 1] == s[..i] + [s[i]];
  }

  lemma PutAbsent(s: seq<Entry>, e: Entry)
    requires !HasKey(s, e.key)
    ensures Put(s, e) == s + [e]
  {
    if s != [] {
      assert s[0].key != e.key;
      assert forall x :: x in s[1..] ==> x in s;
      PutAbsent(s[1..], e);
    }
  }

  lemma {:induction false} PutAt(s: seq<Entry>, i: nat, e: Entry)
    requires i <= |s| && !HasKey(s[..i], e.key) && (i < |s| ==> s[i].key == e.key)
    ensures Put(s, e) == if i < |s| then s[i := e] else s + [e]
  {
    if i == |s| {
      assert s[..i] == s;
      PutAbsent(s, e);
    } else if i > 0 {
      assert s[0] in s[..i];
      var rest := s[1..];
      assert forall x :: x in rest[..i - 1] ==> x in s[..i];
      PutAt(rest, i - 1, e);
      assert s[i := e] == [s[0]] + rest[i - 1 := e];
    }
  }

  lemma WithoutAbsent(s: seq<Entry>, key: string)
    requires !HasKey(s, key)
    ensures Without(s, key) == s
  {
    if s != [] {
      assert s[0] in s;
      assert forall x :: x in s[1..] ==> x in s;
      WithoutAbsent(s[1..], key);
    }
  }

  lemma {:induction false} WithoutAt(s: seq<Entry>, i: nat)
    requires i < |s| && DistinctKeys(s)
    ensures Without(s, s[i].key) == s[..i] + s[i + 1..]
  {
    var rest := s[1..];
    if i == 0 {
      forall e | e in rest ensures e.key != s[0].key {
        var j :| 0 <= j < |rest| && rest[j] == e;
        assert e == s[j + 1];
      }
      WithoutAbsent(rest, s[0].key);
      assert [] + rest == rest && s[..0] + rest == rest;
    } else {
      assert rest[i - 1] == s[i] && s[0].key != s[i].key;
      WithoutAt(rest, i - 1);
      assert [s[0]] + (rest[..i - 1] + rest[i..]) == s[..i] + s[i + 1..];
    }
  }
}
