/** The batching, caching loader: concurrent loads join one pending batch, one fetch serves every
    load of a key, and each load is answered from its own position in its batch.

    A promise chain resolves in several steps of its own (the batch's promise, the per-key `then`,
    the `finally` that ends the key's flight), so those are separate inputs here and anything may
    come between them. Batches are kept for good, so that answers can be traced to them. */
module BatchLoading {
  import opened Options

  datatype Phase<V> = Collecting | Dispatched | Returned(values: seq<Option<V>>) | Threw
  {
    predicate Done() { Returned? || Threw? }
  }

  datatype Batch<K, V> = Batch(keys: seq<K>, phase: Phase<V>)

  datatype Slot = Slot(batch: nat, index: nat)

  /** What one call of load came to: answered from the cache on the spot, or promised a slot. */
  datatype Call<K, V> =
    | Cached(key: K, hit: V)
    | Waiting(key: K, slot: Slot)
    | Answered(key: K, slot: Slot, answer: Option<V>)

  datatype State<K, V> = State(
    cache: map<K, V>,
    batches: seq<Batch<K, V>>,
    pending: Option<nat>,
    inFlight: map<K, Slot>,
    calls: seq<Call<K, V>>)

  datatype Input<K, V> =
    | Load(key: K)
    | TimerFires(batch: nat)
    | BatchReturns(batch: nat, values: seq<Option<V>>)
    | BatchThrows(batch: nat)
    | FlightEnds(key: K)
    | Prime(key: K, value: V)
    | Drop(key: K)                       // clear(), or the cache evicting an old entry

  function Initial<K, V>(): State<K, V> { State(map[], [], None, map[], []) }

  /** What a finished batch holds at a position: undefined past the end, or when it threw. */
  function At<V>(p: Phase<V>, i: nat): Option<V> {
    if p.Returned? && i < |p.values| then p.values[i] else None
  }

  ghost predicate Enabled<K, V>(s: State<K, V>, i: Input<K, V>) {
    match i
    case TimerFires(b) => b < |s.batches| && s.batches[b].phase.Collecting?
    case BatchReturns(b, _) => b < |s.batches| && s.batches[b].phase.Dispatched?
    case BatchThrows(b) => b < |s.batches| && s.batches[b].phase.Dispatched?
    case FlightEnds(key) =>
      key in s.inFlight && s.inFlight[key].batch < |s.batches| && s.batches[s.inFlight[key].batch].phase.Done()
    case _ => true
  }

  function InPhase<K, V>(s: State<K, V>, b: nat, p: Phase<V>): State<K, V> {
    if b < |s.batches| then s.(batches := s.batches[b := s.batches[b].(phase := p)]) else s
  }

  function KeysOf<K, V>(s: State<K, V>, b: nat): seq<K> { if b < |s.batches| then s.batches[b].keys else [] }

  predicate HasRoom<K, V>(batchSize: nat, s: State<K, V>) {
    s.pending.Some? && s.pending.value < |s.batches| && |s.batches[s.pending.value].keys| < batchSize
  }

  /** The cache after storing every defined value of a batch, in order. */
  function Stored<K, V>(cache: map<K, V>, keys: seq<K>, p: Phase<V>): map<K, V> {
    if keys == [] then cache
    else
      var n := |keys| - 1;
      var before := Stored(cache, keys[..n], p);
      if At(p, n).Some? then before[keys[n] := At(p, n).value] else before
  }

  function Join<K, V>(batchSize: nat, s: State<K, V>, key: K): State<K, V> {
    if HasRoom(batchSize, s) then
      var b := s.pending.value;
      var slot := Slot(b, |s.batches[b].keys|);
      s.(batches := s.batches[b := s.batches[b].(keys := s.batches[b].keys + [key])],
         inFlight := s.inFlight[key := slot], calls := s.calls + [Waiting(key, slot)])
    else
      var slot := Slot(|s.batches|, 0);
      s.(batches := s.batches + [Batch([key], Collecting)], pending := Some(|s.batches|),
         inFlight := s.inFlight[key := slot], calls := s.calls + [Waiting(key, slot)])
  }

  function Answer<K(==), V>(s: State<K, V>, key: K, c: Call<K, V>): Call<K, V> {
    if c.Waiting? && c.key == key && c.slot.batch < |s.batches|
    then Answered(key, c.slot, At(s.batches[c.slot.batch].phase, c.slot.index))
    else c
  }

  function Next<K(==), V>(batchSize: nat, s: State<K, V>, i: Input<K, V>): State<K, V> {
    match i
    case Load(key) =>
      if key in s.cache then s.(calls := s.calls + [Cached(key, s.cache[key])])
      else if key in s.inFlight then s.(calls := s.calls + [Waiting(key, s.inFlight[key])])
      else Join(batchSize, s, key)
    case TimerFires(b) => InPhase(s.(pending := if s.pending == Some(b) then None else s.pending), b, Dispatched)
    case BatchReturns(b, values) =>
      InPhase(s.(cache := Stored(s.cache, KeysOf(s, b), Returned(values))), b, Returned(values))
    case BatchThrows(b) => InPhase(s, b, Threw)
    case FlightEnds(key) =>
      s.(inFlight := s.inFlight - {key},
         calls := seq(|s.calls|, j requires 0 <= j < |s.calls| => Answer(s, key, s.calls[j])))
    case Prime(key, value) => s.(cache := s.cache[key := value])
    case Drop(key) => s.(cache := s.cache - {key})
  }

  // ---------------------------------------------------------------- the invariant

  ghost predicate Holds<K, V>(s: State<K, V>, slot: Slot, key: K) {
    && slot.batch < |s.batches| && slot.index < |s.batches[slot.batch].keys|
    && s.batches[slot.batch].keys[slot.index] == key
  }

  ghost predicate BatchesOk<K, V>(batchSize: nat, s: State<K, V>) {
    && (s.pending.Some? ==> s.pending.value < |s.batches| && s.batches[s.pending.value].phase.Collecting?)
    && (forall b :: 0 <= b < |s.batches| ==> 0 < |s.batches[b].keys| <= batchSize)
    && (forall b :: 0 <= b < |s.batches| && s.batches[b].phase.Collecting? && s.pending != Some(b) ==>
          |s.batches[b].keys| == batchSize)
  }

  ghost predicate FlightsOk<K, V>(s: State<K, V>) {
    && (forall key :: key in s.inFlight ==> Holds(s, s.inFlight[key], key))
    && (forall b, i :: 0 <= b < |s.batches| && 0 <= i < |s.batches[b].keys| && !s.batches[b].phase.Done() ==>
          s.batches[b].keys[i] in s.inFlight && s.inFlight[s.batches[b].keys[i]] == Slot(b, i))
  }

  /** The batch function returned v at the key's own position. */
  ghost predicate ReturnedFor<K, V>(s: State<K, V>, key: K, v: V) {
    exists slot :: Holds(s, slot, key) && At(s.batches[slot.batch].phase, slot.index) == Some(v)
  }

  ghost predicate Sourced<K, V>(s: State<K, V>, primed: set<(K, V)>, key: K, v: V) {
    (key, v) in primed || ReturnedFor(s, key, v)
  }

  ghost predicate CallOk<K, V>(s: State<K, V>, primed: set<(K, V)>, c: Call<K, V>) {
    match c
    case Cached(key, v) => Sourced(s, primed, key, v)
    case Waiting(key, slot) => key in s.inFlight && s.inFlight[key] == slot
    case Answered(key, slot, v) =>
      Holds(s, slot, key) && s.batches[slot.batch].phase.Done() && v == At(s.batches[slot.batch].phase, slot.index)
  }

  ghost predicate AnswersOk<K, V>(s: State<K, V>, primed: set<(K, V)>) {
    && (forall key :: key in s.cache ==> Sourced(s, primed, key, s.cache[key]))
    && (forall c :: c in s.calls ==> CallOk(s, primed, c))
  }

  ghost predicate Inv<K, V>(batchSize: nat, s: State<K, V>, primed: set<(K, V)>) {
    BatchesOk(batchSize, s) && FlightsOk(s) && AnswersOk(s, primed)
  }

  ghost function PrimedBy<K, V>(i: Input<K, V>): set<(K, V)> { if i.Prime? then {(i.key, i.value)} else {} }

  /** Batches only grow, and only while they are collecting; a finished one never changes. */
  ghost predicate Extends<K, V>(s: State<K, V>, t: State<K, V>) {
    && |s.batches| <= |t.batches|
    && (forall b :: 0 <= b < |s.batches| ==>
          && s.batches[b].keys <= t.batches[b].keys
          && (s.batches[b].phase.Collecting? || t.batches[b].keys == s.batches[b].keys)
          && (!s.batches[b].phase.Collecting? ==> !t.batches[b].phase.Collecting?)
          && (s.batches[b].phase.Done() ==> t.batches[b].phase == s.batches[b].phase))
  }

  lemma StepExtends<K, V>(batchSize: nat, s: State<K, V>, i: Input<K, V>)
    requires BatchesOk(batchSize, s) && Enabled(s, i)
    ensures Extends(s, Next(batchSize, s, i))
  {
  }

  lemma SourcedPersists<K, V>(s: State<K, V>, t: State<K, V>, primed: set<(K, V)>, more: set<(K, V)>, key: K, v: V)
    requires Extends(s, t) && Sourced(s, primed, key, v)
    ensures Sourced(t, primed + more, key, v)
  {
    if (key, v) !in primed {
      var slot :| Holds(s, slot, key) && At(s.batches[slot.batch].phase, slot.index) == Some(v);
      assert Holds(t, slot, key);
    }
  }

  lemma StepKeepsBatches<K, V>(batchSize: nat, s: State<K, V>, i: Input<K, V>)
    requires batchSize > 0 && BatchesOk(batchSize, s) && FlightsOk(s) && Enabled(s, i)
    ensures BatchesOk(batchSize, Next(batchSize, s, i))
  {
  }

  lemma JoinKeepsFlights<K, V>(batchSize: nat, s: State<K, V>, key: K)
    requires batchSize > 0 && BatchesOk(batchSize, s) && FlightsOk(s) && key !in s.inFlight
    ensures FlightsOk(Join(batchSize, s, key))
  {
    var t := Join(batchSize, s, key);
    forall k | k in t.inFlight ensures Holds(t, t.inFlight[k], k) {
      if k != key { assert Holds(s, s.inFlight[k], k); }
    }
    forall b, i | 0 <= b < |t.batches| && 0 <= i < |t.batches[b].keys| && !t.batches[b].phase.Done()
      ensures t.batches[b].keys[i] in t.inFlight && t.inFlight[t.batches[b].keys[i]] == Slot(b, i)
    {
      if b < |s.batches| && i < |s.batches[b].keys| {
        assert s.batches[b].keys[i] == t.batches[b].keys[i] && s.batches[b].keys[i] in s.inFlight;
      }
    }
  }

  lemma StepKeepsFlights<K, V>(batchSize: nat, s: State<K, V>, i: Input<K, V>)
    requires batchSize > 0 && BatchesOk(batchSize, s) && FlightsOk(s) && Enabled(s, i)
    ensures FlightsOk(Next(batchSize, s, i))
  {
    if i.Load? && i.key !in s.cache && i.key !in s.inFlight {
      JoinKeepsFlights(batchSize, s, i.key);
    } else {
      var t := Next(batchSize, s, i);
      forall k | k in t.inFlight ensures Holds(t, t.inFlight[k], k) {
        assert Holds(s, s.inFlight[k], k);
      }
      forall b, j | 0 <= b < |t.batches| && 0 <= j < |t.batches[b].keys| && !t.batches[b].phase.Done()
        ensures t.batches[b].keys[j] in t.inFlight && t.inFlight[t.batches[b].keys[j]] == Slot(b, j)
      {
        assert s.batches[b].keys == t.batches[b].keys && !s.batches[b].phase.Done();
        assert s.batches[b].keys[j] in s.inFlight;
      }
    }
  }

  lemma {:induction false} StoredIsSourced<K, V>(cache: map<K, V>, keys: seq<K>, p: Phase<V>, key: K)
    requires key in Stored(cache, keys, p)
    ensures var v := Stored(cache, keys, p)[key];
      (key in cache && cache[key] == v) || exists i: nat :: i < |keys| && keys[i] == key && At(p, i) == Some(v)
  {
    if keys != [] {
      var n := |keys| - 1;
      if At(p, n).None? || keys[n] != key {
        StoredIsSourced(cache, keys[..n], p, key);
      }
    }
  }

  lemma StepKeepsCache<K, V>(batchSize: nat, s: State<K, V>, i: Input<K, V>, primed: set<(K, V)>)
    requires batchSize > 0 && Inv(batchSize, s, primed) && Enabled(s, i)
    ensures var t := Next(batchSize, s, i);
      forall key :: key in t.cache ==> Sourced(t, primed + PrimedBy(i), key, t.cache[key])
  {
    var t := Next(batchSize, s, i);
    StepExtends(batchSize, s, i);
    forall key | key in t.cache ensures Sourced(t, primed + PrimedBy(i), key, t.cache[key]) {
      if key in s.cache && s.cache[key] == t.cache[key] {
        SourcedPersists(s, t, primed, PrimedBy(i), key, t.cache[key]);
      } else if i.BatchReturns? {
        StoredIsSourced(s.cache, s.batches[i.batch].keys, Returned(i.values), key);
        var j: nat :| j < |s.batches[i.batch].keys| && s.batches[i.batch].keys[j] == key
          && At(Returned(i.values), j) == Some(t.cache[key]);
        assert Holds(t, Slot(i.batch, j), key);
      }
    }
  }

  lemma AnswerIsOk<K, V>(s: State<K, V>, key: K, primed: set<(K, V)>, c: Call<K, V>)
    requires Enabled(s, FlightEnds(key)) && FlightsOk(s) && CallOk(s, primed, c)
    ensures CallOk(Next(1, s, FlightEnds(key)), primed, Answer(s, key, c))
  {
    var t := Next(1, s, FlightEnds(key));
    assert t.batches == s.batches;
    match c {
      case Cached(k, v) => SourcedPersists(s, t, primed, {}, k, v); assert primed + {} == primed;
      case Waiting(k, slot) => assert Holds(s, s.inFlight[k], k);
      case Answered(_, _, _) =>
    }
  }

  lemma CallStaysOk<K, V>(batchSize: nat, s: State<K, V>, i: Input<K, V>, primed: set<(K, V)>, c: Call<K, V>)
    requires batchSize > 0 && BatchesOk(batchSize, s) && Enabled(s, i) && !i.FlightEnds? && CallOk(s, primed, c)
    ensures CallOk(Next(batchSize, s, i), primed + PrimedBy(i), c)
  {
    StepExtends(batchSize, s, i);
    if c.Cached? { SourcedPersists(s, Next(batchSize, s, i), primed, PrimedBy(i), c.key, c.hit); }
  }

  lemma StepKeepsCalls<K, V>(batchSize: nat, s: State<K, V>, i: Input<K, V>, primed: set<(K, V)>)
    requires batchSize > 0 && Inv(batchSize, s, primed) && Enabled(s, i)
    ensures var t := Next(batchSize, s, i); forall c :: c in t.calls ==> CallOk(t, primed + PrimedBy(i), c)
  {
    var t := Next(batchSize, s, i);
    forall c | c in t.calls ensures CallOk(t, primed + PrimedBy(i), c) {
      if i.FlightEnds? {
        var j :| 0 <= j < |s.calls| && c == Answer(s, i.key, s.calls[j]);
        AnswerIsOk(s, i.key, primed, s.calls[j]);
        assert primed + {} == primed;
      } else if c in s.calls {
        CallStaysOk(batchSize, s, i, primed, c);
      } else if i.key in s.cache {
        StepExtends(batchSize, s, i);
        SourcedPersists(s, t, primed, PrimedBy(i), i.key, s.cache[i.key]);
      }
    }
  }

  lemma StepKeepsInv<K, V>(batchSize: nat, s: State<K, V>, i: Input<K, V>, primed: set<(K, V)>)
    requires batchSize > 0 && Inv(batchSize, s, primed) && Enabled(s, i)
    ensures Inv(batchSize, Next(batchSize, s, i), primed + PrimedBy(i))
    ensures Extends(s, Next(batchSize, s, i))
  {
    StepExtends(batchSize, s, i);
    StepKeepsBatches(batchSize, s, i);
    StepKeepsFlights(batchSize, s, i);
    StepKeepsCache(batchSize, s, i, primed);
    StepKeepsCalls(batchSize, s, i, primed);
  }

  // ---------------------------------------------------------------- runs

  function Run<K(==), V>(batchSize: nat, inputs: seq<Input<K, V>>): State<K, V> {
    if inputs == [] then Initial()
    else Next(batchSize, Run(batchSize, inputs[..|inputs| - 1]), inputs[|inputs| - 1])
  }

  ghost predicate Legal<K, V>(batchSize: nat, inputs: seq<Input<K, V>>) {
    inputs == [] ||
    (Legal(batchSize, inputs[..|inputs| - 1]) && Enabled(Run(batchSize, inputs[..|inputs| - 1]), inputs[|inputs| - 1]))
  }

  ghost function Primed<K, V>(inputs: seq<Input<K, V>>): set<(K, V)> {
    if inputs == [] then {} else Primed(inputs[..|inputs| - 1]) + PrimedBy(inputs[|inputs| - 1])
  }

  lemma {:induction false} RunKeepsInv<K, V>(batchSize: nat, inputs: seq<Input<K, V>>)
    requires batchSize > 0 && Legal(batchSize, inputs)
    ensures Inv(batchSize, Run(batchSize, inputs), Primed(inputs))
  {
    if inputs != [] {
      var before := inputs[..|inputs| - 1];
      RunKeepsInv(batchSize, before);
      StepKeepsInv(batchSize, Run(batchSize, before), inputs[|inputs| - 1], Primed(before));
    }
  }

  /** A position of a batch whose fetch has not come back. */
  ghost predicate Unsettled<K, V>(s: State<K, V>, slot: Slot) {
    slot.batch < |s.batches| && slot.index < |s.batches[slot.batch].keys| && !s.batches[slot.batch].phase.Done()
  }

  function KeyAt<K, V>(s: State<K, V>, slot: Slot): K
    requires slot.batch < |s.batches| && slot.index < |s.batches[slot.batch].keys|
  {
    s.batches[slot.batch].keys[slot.index]
  }

  /** At every moment no key is being fetched twice, within one batch or across batches, and no
      batch is larger than the limit. */
  lemma OneFetchPerKey<K, V>(batchSize: nat, inputs: seq<Input<K, V>>)
    requires batchSize > 0 && Legal(batchSize, inputs)
    ensures var s := Run(batchSize, inputs);
      forall x, y :: Unsettled(s, x) && Unsettled(s, y) && KeyAt(s, x) == KeyAt(s, y) ==> x == y
    ensures forall b :: b in Run(batchSize, inputs).batches ==> 0 < |b.keys| <= batchSize
  {
    RunKeepsInv(batchSize, inputs);
  }

  /** Loads coalesce: a second batch is only ever begun because the one before it is full, so of the
      batches still waiting for their timer at most one has room. */
  lemma OnlyFullBatchesWait<K, V>(batchSize: nat, inputs: seq<Input<K, V>>, b: nat, c: nat)
    requires batchSize > 0 && Legal(batchSize, inputs)
    requires var s := Run(batchSize, inputs);
      b < c < |s.batches| && s.batches[b].phase.Collecting? && s.batches[c].phase.Collecting?
    ensures var s := Run(batchSize, inputs); |s.batches[b].keys| == batchSize || |s.batches[c].keys| == batchSize
  {
    RunKeepsInv(batchSize, inputs);
  }

  /** A batch's keys are fixed once it is dispatched, and its answers once it is finished, however
      the run goes on. */
  lemma {:induction false} BatchesFreeze<K, V>(batchSize: nat, inputs: seq<Input<K, V>>, n: nat)
    requires batchSize > 0 && Legal(batchSize, inputs) && n <= |inputs|
    ensures Legal(batchSize, inputs[..n])
    ensures Extends(Run(batchSize, inputs[..n]), Run(batchSize, inputs))
  {
    if n == |inputs| {
      assert inputs[..n] == inputs;
    } else {
      var before := inputs[..|inputs| - 1];
      BatchesFreeze(batchSize, before, n);
      assert before[..n] == inputs[..n];
      RunKeepsInv(batchSize, before);
      StepExtends(batchSize, Run(batchSize, before), inputs[|inputs| - 1]);
    }
  }

  ghost predicate WasPrimed<K, V>(inputs: seq<Input<K, V>>, key: K, v: V) {
    exists n :: 0 <= n < |inputs| && inputs[n] == Prime(key, v)
  }

  lemma {:induction false} PrimedMeans<K, V>(inputs: seq<Input<K, V>>, key: K, v: V)
    requires (key, v) in Primed(inputs)
    ensures WasPrimed(inputs, key, v)
  {
    var n := |inputs| - 1;
    if (key, v) in PrimedBy(inputs[n]) {
      assert inputs[n] == Prime(key, v);
    } else {
      PrimedMeans(inputs[..n], key, v);
      var m :| 0 <= m < n && inputs[..n][m] == Prime(key, v);
      assert inputs[m] == Prime(key, v);
    }
  }

  /** Every load is told the truth about its own key: what its batch returned at the key's own
      position (undefined when it threw or came back short), or a value cached under that key, which
      in turn was primed for the key or returned at its position. */
  lemma AnswersAreOnesOwn<K, V>(batchSize: nat, inputs: seq<Input<K, V>>, c: nat)
    requires batchSize > 0 && Legal(batchSize, inputs) && c < |Run(batchSize, inputs).calls|
    ensures var s := Run(batchSize, inputs);
      match s.calls[c]
      case Cached(key, v) => WasPrimed(inputs, key, v) || ReturnedFor(s, key, v)
      case Waiting(key, slot) => Holds(s, slot, key)
      case Answered(key, slot, v) =>
        Holds(s, slot, key) && s.batches[slot.batch].phase.Done() && v == At(s.batches[slot.batch].phase, slot.index)
  {
    RunKeepsInv(batchSize, inputs);
    var s := Run(batchSize, inputs);
    var call := s.calls[c];
    assert CallOk(s, Primed(inputs), call);
    if call.Cached? && !ReturnedFor(s, call.key, call.hit) {
      PrimedMeans(inputs, call.key, call.hit);
    } else if call.Waiting? {
      assert Holds(s, s.inFlight[call.key], call.key);
    }
  }

  /** Loads of one key that wait at the same time wait for the same fetch, and none is forgotten:
      its batch's timer is armed, its fetch is out, or its flight can end, which answers it. */
  lemma NoLoadIsForgotten<K, V>(batchSize: nat, inputs: seq<Input<K, V>>, c: nat, d: nat)
    requires batchSize > 0 && Legal(batchSize, inputs)
    requires c < |Run(batchSize, inputs).calls| && d < |Run(batchSize, inputs).calls|
    requires Run(batchSize, inputs).calls[c].Waiting? && Run(batchSize, inputs).calls[d].Waiting?
    ensures var s := Run(batchSize, inputs); var w := s.calls[c];
      && (s.calls[d].key == w.key ==> s.calls[d].slot == w.slot)
      && (Enabled(s, TimerFires(w.slot.batch)) || Enabled(s, BatchThrows(w.slot.batch))
          || Enabled(s, FlightEnds(w.key)))
      && (Enabled(s, FlightEnds(w.key)) ==> Next(batchSize, s, FlightEnds(w.key)).calls[c].Answered?)
  {
    RunKeepsInv(batchSize, inputs);
    var s := Run(batchSize, inputs);
    assert CallOk(s, Primed(inputs), s.calls[c]) && CallOk(s, Primed(inputs), s.calls[d]);
    assert Holds(s, s.inFlight[s.calls[c].key], s.calls[c].key);
  }

  /** No timer is armed, no fetch is out, no flight can end. */
  ghost predicate AtRest<K, V>(s: State<K, V>) {
    && (forall b: nat :: !Enabled(s, TimerFires(b)) && !Enabled(s, BatchThrows(b)))
    && (forall key :: key in s.inFlight ==> !Enabled(s, FlightEnds(key)))
  }

  /** So a loader at rest has answered every load. */
  lemma RestMeansAnswered<K, V>(batchSize: nat, inputs: seq<Input<K, V>>)
    requires batchSize > 0 && Legal(batchSize, inputs) && AtRest(Run(batchSize, inputs))
    ensures forall c :: 0 <= c < |Run(batchSize, inputs).calls| ==> !Run(batchSize, inputs).calls[c].Waiting?
  {
    var s := Run(batchSize, inputs);
    forall c | 0 <= c < |s.calls| ensures !s.calls[c].Waiting? {
      if s.calls[c].Waiting? {
        RunKeepsInv(batchSize, inputs);
        assert CallOk(s, Primed(inputs), s.calls[c]);
        NoLoadIsForgotten(batchSize, inputs, c, c);
      }
    }
  }

  predicate LoaderStep<K, V>(i: Input<K, V>) { i.TimerFires? || i.BatchReturns? || i.BatchThrows? || i.FlightEnds? }

  function LoaderSteps<K, V>(inputs: seq<Input<K, V>>): nat {
    if inputs == [] then 0
    else LoaderSteps(inputs[..|inputs| - 1]) + if LoaderStep(inputs[|inputs| - 1]) then 1 else 0
  }

  function StepsLeft<V>(p: Phase<V>): nat { if p.Collecting? then 2 else if p.Dispatched? then 1 else 0 }

  function BatchSteps<K, V>(batches: seq<Batch<K, V>>): nat {
    if batches == [] then 0 else BatchSteps(batches[..|batches| - 1]) + StepsLeft(batches[|batches| - 1].phase)
  }

  lemma {:induction false} BatchStepsChange<K, V>(batches: seq<Batch<K, V>>, b: nat, changed: Batch<K, V>)
    requires b < |batches|
    ensures BatchSteps(batches[b := changed]) + StepsLeft(batches[b].phase)
         == BatchSteps(batches) + StepsLeft(changed.phase)
  {
    var last := |batches| - 1;
    if b < last {
      BatchStepsChange(batches[..last], b, changed);
      assert batches[b := changed][..last] == batches[..last][b := changed];
    } else {
      assert batches[b := changed][..last] == batches[..last];
    }
  }

  /** The steps the loader may still take for the loads it was given. */
  function Ahead<K, V>(s: State<K, V>): nat { BatchSteps(s.batches) + |s.inFlight| }

  lemma LoadAdds<K, V>(batchSize: nat, s: State<K, V>, key: K)
    requires BatchesOk(batchSize, s)
    ensures Ahead(Next(batchSize, s, Load(key))) <= Ahead(s) + 3
  {
    if key !in s.cache && key !in s.inFlight {
      if HasRoom(batchSize, s) {
        var b := s.pending.value;
        BatchStepsChange(s.batches, b, s.batches[b].(keys := s.batches[b].keys + [key]));
      } else {
        assert (s.batches + [Batch([key], Collecting)])[..|s.batches|] == s.batches;
      }
    }
  }

  lemma LoaderAdvances<K, V>(batchSize: nat, s: State<K, V>, i: Input<K, V>)
    requires BatchesOk(batchSize, s) && Enabled(s, i) && LoaderStep(i)
    ensures Ahead(Next(batchSize, s, i)) < Ahead(s)
  {
    match i {
      case TimerFires(b) => BatchStepsChange(s.batches, b, s.batches[b].(phase := Dispatched));
      case BatchReturns(b, values) => BatchStepsChange(s.batches, b, s.batches[b].(phase := Returned(values)));
      case BatchThrows(b) => BatchStepsChange(s.batches, b, s.batches[b].(phase := Threw));
      case FlightEnds(key) =>
        assert s.inFlight.Keys == (s.inFlight - {key}).Keys + {key};
    }
  }

  /** And it comes to rest: it takes at most three steps for each load, in any run. */
  lemma {:induction false} LoadingIsShort<K, V>(batchSize: nat, inputs: seq<Input<K, V>>)
    requires batchSize > 0 && Legal(batchSize, inputs)
    ensures LoaderSteps(inputs) + Ahead(Run(batchSize, inputs)) <= 3 * |Run(batchSize, inputs).calls|
  {
    if inputs != [] {
      var before, i := inputs[..|inputs| - 1], inputs[|inputs| - 1];
      LoadingIsShort(batchSize, before);
      RunKeepsInv(batchSize, before);
      var s := Run(batchSize, before);
      CallsGrow(batchSize, s, i);
      if LoaderStep(i) {
        LoaderAdvances(batchSize, s, i);
      } else if i.Load? {
        LoadAdds(batchSize, s, i.key);
      }
    }
  }

  lemma CallsGrow<K, V>(batchSize: nat, s: State<K, V>, i: Input<K, V>)
    ensures |Next(batchSize, s, i).calls| == |s.calls| + if i.Load? then 1 else 0
  {
  }

  // ---------------------------------------------------------------- the whole loader, from the inputs alone

  /** What a batch brought back for a key: the value at its position. */
  function Brought<K(==), V>(keys: seq<K>, values: seq<Option<V>>, key: K): Option<V> {
    if keys == [] || values == [] then None
    else if keys[0] == key && values[0].Some? then values[0]
    else Brought(keys[1..], values[1..], key)
  }

  /** The value cached for a key: the last that was primed or brought back for it, unless dropped since. */
  function CachedBy<K(==), V>(batchSize: nat, inputs: seq<Input<K, V>>, key: K): Option<V> {
    if inputs == [] then None
    else
      var before, i := inputs[..|inputs| - 1], inputs[|inputs| - 1];
      if i.Prime? && i.key == key then Some(i.value)
      else if i == Drop(key) then None
      else if i.BatchReturns? && Brought(KeysOf(Run(batchSize, before), i.batch), i.values, key).Some?
      then Brought(KeysOf(Run(batchSize, before), i.batch), i.values, key)
      else CachedBy(batchSize, before, key)
  }

  /** The key has been loaded, found neither cached nor flying, and its flight has not ended since. */
  predicate Flying<K(==), V>(batchSize: nat, inputs: seq<Input<K, V>>, key: K) {
    inputs != [] &&
    var before, i := inputs[..|inputs| - 1], inputs[|inputs| - 1];
    if i == FlightEnds(key) then false
    else Flying(batchSize, before, key) || (i == Load(key) && CachedBy(batchSize, before, key).None?)
  }

  /** Every call of load, with what the cache held for it. */
  datatype Loaded<K, V> = Loaded(key: K, hit: Option<V>)

  function Loads<K(==), V>(batchSize: nat, inputs: seq<Input<K, V>>): seq<Loaded<K, V>> {
    if inputs == [] then []
    else
      var before, i := inputs[..|inputs| - 1], inputs[|inputs| - 1];
      Loads(batchSize, before) + if i.Load? then [Loaded(i.key, CachedBy(batchSize, before, i.key))] else []
  }

  /** The keys asked of the batch function, in order: those loads that found their key neither cached nor
      flying. */
  function Fetched<K(==), V>(batchSize: nat, inputs: seq<Input<K, V>>): seq<K> {
    if inputs == [] then []
    else
      var before, i := inputs[..|inputs| - 1], inputs[|inputs| - 1];
      Fetched(batchSize, before) +
      if i.Load? && CachedBy(batchSize, before, i.key).None? && !Flying(batchSize, before, i.key) then [i.key] else []
  }

  function AllKeys<K, V>(batches: seq<Batch<K, V>>): seq<K> {
    if batches == [] then [] else AllKeys(batches[..|batches| - 1]) + batches[|batches| - 1].keys
  }

  function Told<K, V>(c: Call<K, V>): Loaded<K, V> { Loaded(c.key, if c.Cached? then Some(c.hit) else None) }

  function Lookup<K, V>(cache: map<K, V>, key: K): Option<V> { if key in cache then Some(cache[key]) else None }

  ghost predicate CacheBy<K(!new), V>(batchSize: nat, inputs: seq<Input<K, V>>, s: State<K, V>) {
    forall key :: Lookup(s.cache, key) == CachedBy(batchSize, inputs, key)
  }

  ghost predicate FlightsBy<K(!new), V>(batchSize: nat, inputs: seq<Input<K, V>>, s: State<K, V>) {
    forall key :: key in s.inFlight <==> Flying(batchSize, inputs, key)
  }

  ghost predicate CallsBy<K, V>(batchSize: nat, inputs: seq<Input<K, V>>, s: State<K, V>) {
    && |s.calls| == |Loads(batchSize, inputs)|
    && forall c :: 0 <= c < |s.calls| ==> Told(s.calls[c]) == Loads(batchSize, inputs)[c]
  }

  ghost predicate FetchesBy<K, V>(batchSize: nat, inputs: seq<Input<K, V>>, s: State<K, V>) {
    AllKeys(s.batches) == Fetched(batchSize, inputs) && (s.pending.Some? ==> s.pending.value == |s.batches| - 1)
  }

  lemma {:induction false} StoredMeans<K, V>(cache: map<K, V>, keys: seq<K>, values: seq<Option<V>>, key: K)
    requires forall i, j :: 0 <= i < j < |keys| ==> keys[i] != keys[j]
    ensures Lookup(Stored(cache, keys, Returned(values)), key)
         == if Brought(keys, values, key).Some? then Brought(keys, values, key) else Lookup(cache, key)
  {
    BroughtMeans(keys, values, key);
    if keys != [] {
      var n := |keys| - 1;
      StoredMeans(cache, keys[..n], values, key);
      BroughtMeans(keys[..n], values, key);
    }
  }

  lemma {:induction false} BroughtMeans<K, V>(keys: seq<K>, values: seq<Option<V>>, key: K)
    requires forall i, j :: 0 <= i < j < |keys| ==> keys[i] != keys[j]
    ensures forall i :: 0 <= i < |keys| && keys[i] == key ==> Brought(keys, values, key) == At(Returned(values), i)
    ensures key !in keys ==> Brought(keys, values, key).None?
  {
    if keys != [] && values != [] {
      BroughtMeans(keys[1..], values[1..], key);
      forall i | 0 <= i < |keys| && keys[i] == key ensures Brought(keys, values, key) == At(Returned(values), i) {
        if i > 0 { assert keys[1..][i - 1] == key; }
      }
    }
  }

  lemma CacheStep<K(!new), V>(batchSize: nat, s: State<K, V>, i: Input<K, V>, t: State<K, V>, before: seq<Input<K, V>>,
      inputs: seq<Input<K, V>>)
    requires CacheBy(batchSize, before, s) && FlightsOk(s) && Enabled(s, i) && t == Next(batchSize, s, i)
    requires inputs != [] && before == inputs[..|inputs| - 1] && i == inputs[|inputs| - 1]
    requires s == Run(batchSize, before)
    ensures CacheBy(batchSize, inputs, t)
  {
    forall key ensures Lookup(t.cache, key) == CachedBy(batchSize, inputs, key) {
      assert Lookup(s.cache, key) == CachedBy(batchSize, before, key);
      if i.BatchReturns? { StoredMeans(s.cache, KeysOf(s, i.batch), i.values, key); }
    }
  }

  lemma FlightStep<K(!new), V>(batchSize: nat, s: State<K, V>, i: Input<K, V>, t: State<K, V>, before: seq<Input<K, V>>,
      inputs: seq<Input<K, V>>)
    requires CacheBy(batchSize, before, s) && FlightsBy(batchSize, before, s) && t == Next(batchSize, s, i)
    requires inputs != [] && before == inputs[..|inputs| - 1] && i == inputs[|inputs| - 1]
    ensures FlightsBy(batchSize, inputs, t)
  {
    forall key ensures key in t.inFlight <==> Flying(batchSize, inputs, key) {
      assert Lookup(s.cache, key) == CachedBy(batchSize, before, key);
      assert key in s.inFlight <==> Flying(batchSize, before, key);
    }
  }

  lemma CallStep<K(!new), V>(batchSize: nat, s: State<K, V>, i: Input<K, V>, t: State<K, V>, before: seq<Input<K, V>>,
      inputs: seq<Input<K, V>>)
    requires CacheBy(batchSize, before, s) && CallsBy(batchSize, before, s) && t == Next(batchSize, s, i)
    requires inputs != [] && before == inputs[..|inputs| - 1] && i == inputs[|inputs| - 1]
    ensures CallsBy(batchSize, inputs, t)
  {
    if i.Load? { assert Lookup(s.cache, i.key) == CachedBy(batchSize, before, i.key); }
  }

  lemma {:induction false} KeysOfJoined<K, V>(batches: seq<Batch<K, V>>, p: Phase<V>, b: nat)
    requires b < |batches|
    ensures AllKeys(batches[b := batches[b].(phase := p)]) == AllKeys(batches)
  {
    var last := |batches| - 1;
    if b < last {
      KeysOfJoined(batches[..last], p, b);
      assert batches[b := batches[b].(phase := p)][..last] == batches[..last][b := batches[b].(phase := p)];
    } else {
      assert batches[b := batches[b].(phase := p)][..last] == batches[..last];
    }
  }

  lemma JoinAddsKey<K, V>(batchSize: nat, s: State<K, V>, key: K)
    requires s.pending.Some? ==> s.pending.value == |s.batches| - 1
    ensures AllKeys(Join(batchSize, s, key).batches) == AllKeys(s.batches) + [key]
    ensures Join(batchSize, s, key).pending == Some(|Join(batchSize, s, key).batches| - 1)
  {
    var t, last := Join(batchSize, s, key), |s.batches| - 1;
    if HasRoom(batchSize, s) {
      assert t.batches[..last] == s.batches[..last];
      assert AllKeys(s.batches[..last]) + (s.batches[last].keys + [key])
        == AllKeys(s.batches[..last]) + s.batches[last].keys + [key];
    } else {
      assert t.batches[..|s.batches|] == s.batches;
    }
  }

  lemma FetchStep<K(!new), V>(batchSize: nat, s: State<K, V>, i: Input<K, V>, t: State<K, V>, before: seq<Input<K, V>>,
      inputs: seq<Input<K, V>>)
    requires CacheBy(batchSize, before, s) && FlightsBy(batchSize, before, s) && FetchesBy(batchSize, before, s)
    requires Enabled(s, i) && t == Next(batchSize, s, i)
    requires inputs != [] && before == inputs[..|inputs| - 1] && i == inputs[|inputs| - 1]
    ensures FetchesBy(batchSize, inputs, t)
  {
    match i {
      case Load(key) =>
        assert Lookup(s.cache, key) == CachedBy(batchSize, before, key);
        assert key in s.inFlight <==> Flying(batchSize, before, key);
        JoinAddsKey(batchSize, s, key);
      case TimerFires(b) => KeysOfJoined(s.batches, Dispatched, b);
      case BatchReturns(b, values) => KeysOfJoined(s.batches, Returned(values), b);
      case BatchThrows(b) => KeysOfJoined(s.batches, Threw, b);
      case _ =>
    }
  }

  /** Main theorem: everything the loader keeps, from the inputs alone. The cache holds for each key the last
      value primed or brought back for it and not dropped since; a load is answered from it exactly when
      there is one; and the keys asked of the batch function are, in order, those of the loads that found
      their key neither cached nor on its way. */
  lemma {:induction false} LoaderExactly<K(!new), V>(batchSize: nat, inputs: seq<Input<K, V>>)
    requires batchSize > 0 && Legal(batchSize, inputs)
    ensures var s := Run(batchSize, inputs);
      && CacheBy(batchSize, inputs, s) && FlightsBy(batchSize, inputs, s)
      && CallsBy(batchSize, inputs, s) && FetchesBy(batchSize, inputs, s)
  {
    if inputs != [] {
      var before, i := inputs[..|inputs| - 1], inputs[|inputs| - 1];
      var s, t := Run(batchSize, before), Run(batchSize, inputs);
      LoaderExactly(batchSize, before);
      RunKeepsInv(batchSize, before);
      CacheStep(batchSize, s, i, t, before, inputs);
      FlightStep(batchSize, s, i, t, before, inputs);
      CallStep(batchSize, s, i, t, before, inputs);
      FetchStep(batchSize, s, i, t, before, inputs);
    }
  }

  // ---------------------------------------------------------------- the loader itself

  class BatchLoader<K(==), V> {
    const batchSize: nat
    var cache: map<K, V>
    var batches: seq<Batch<K, V>>
    var pendingBatch: Option<nat>
    var inFlight: map<K, Slot>
    var calls: seq<Call<K, V>>

    ghost function View(): State<K, V> reads this { State(cache, batches, pendingBatch, inFlight, calls) }

    /** A size of 0 means the default. */
    constructor (batchSize: nat)
      ensures View() == Initial() && this.batchSize == (if batchSize == 0 then 100 else batchSize)
    {
      this.batchSize := if batchSize == 0 then 100 else batchSize;
      cache, batches, pendingBatch, inFlight, calls := map[], [], None, map[], [];
    }

    method LoadKey(key: K)
      modifies this
      ensures View() == Next(batchSize, old(View()), Load(key))
    {
      if key in cache {
        calls := calls + [Cached(key, cache[key])];
        return;
      }
      if key in inFlight {
        calls := calls + [Waiting(key, inFlight[key])];
        return;
      }
      var slot := JoinBatch(key);
      inFlight := inFlight[key := slot];
      calls := calls + [Waiting(key, slot)];
    }

    method JoinBatch(key: K) returns (slot: Slot)
      modifies this`batches, this`pendingBatch
      ensures View().(inFlight := inFlight[key := slot], calls := calls + [Waiting(key, slot)])
           == Join(batchSize, old(View()), key)
    {
      ghost var s := View();
      if pendingBatch.None? || pendingBatch.value >= |batches| || |batches[pendingBatch.value].keys| >= batchSize {
        batches := batches + [Batch([], Collecting)];
        pendingBatch := Some(|batches| - 1);
      }
      var b := pendingBatch.value;
      batches := batches[b := batches[b].(keys := batches[b].keys + [key])];
      slot := Slot(b, |batches[b].keys| - 1);
      if !HasRoom(batchSize, s) {
        assert [] + [key] == [key];
        assert batches == s.batches + [Batch([key], Collecting)];
      }
    }

    method Dispatch(b: nat)
      requires Enabled(View(), TimerFires(b))
      modifies this`batches, this`pendingBatch
      ensures View() == Next(batchSize, old(View()), TimerFires(b))
    {
      if pendingBatch == Some(b) { pendingBatch := None; }
      batches := batches[b := batches[b].(phase := Dispatched)];
    }

    method Resolve(b: nat, values: seq<Option<V>>)
      requires Enabled(View(), BatchReturns(b, values))
      modifies this`batches, this`cache
      ensures View() == Next(batchSize, old(View()), BatchReturns(b, values))
    {
      var keys := batches[b].keys;
      for i := 0 to |keys|
        invariant cache == Stored(old(cache), keys[..i], Returned(values))
        invariant batches == old(batches)
      {
        assert keys[..i + 1][..i] == keys[..i];
        if i < |values| && values[i].Some? { cache := cache[keys[i] := values[i].value]; }
      }
      assert keys[..|keys|] == keys;
      batches := batches[b := batches[b].(phase := Returned(values))];
    }

    method Fail(b: nat)
      requires Enabled(View(), BatchThrows(b))
      modifies this`batches
      ensures View() == Next(batchSize, old(View()), BatchThrows(b))
    {
      batches := batches[b := batches[b].(phase := Threw)];
    }

    /** The `finally` of a key's promise: the flight ends and every load waiting on it is answered. */
    method EndFlight(key: K)
      requires Enabled(View(), FlightEnds(key))
      modifies this`inFlight, this`calls
      ensures View() == Next(batchSize, old(View()), FlightEnds(key))
    {
      ghost var s := View();
      inFlight := inFlight - {key};
      for i := 0 to |calls|
        invariant |calls| == |s.calls| && inFlight == s.inFlight - {key}
        invariant forall j :: 0 <= j < i ==> calls[j] == Answer(s, key, s.calls[j])
        invariant calls[i..] == s.calls[i..]
      {
        var c := calls[i];
        assert c == s.calls[i];
        if c.Waiting? && c.key == key && c.slot.batch < |batches| {
          calls := calls[i := Answered(key, c.slot, At(batches[c.slot.batch].phase, c.slot.index))];
        }
      }
      assert calls == Next(batchSize, s, FlightEnds(key)).calls;
    }

    method PrimeKey(key: K, value: V)
      modifies this`cache
      ensures View() == Next(batchSize, old(View()), Prime(key, value))
    {
      cache := cache[key := value];
    }

    method Clear(key: K)
      modifies this`cache
      ensures View() == Next(batchSize, old(View()), Drop(key))
    {
      cache := cache - {key};
    }
  }
}
