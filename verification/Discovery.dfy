/** The discovery lifecycle: each cycle walks the directory's listing, then the manual rows, then the
    rows that disappeared, and publishes what it finds.

    What a turn does to one row is a function of that row and of the answers it gets (`LiveTurn`,
    `ManualTurn`, `ReconcileTurn`); a cycle is three folds of turns over the store. The answers of
    the outside world are a function of the position in the log, so they may differ every time. The
    order in which the database lists rows is arbitrary. */
module Discovery {
  import opened Options

  type Url = string

  datatype Status = Live | Ended

  datatype Liveness = IsLive | HasEnded | ProbeError

  /** undefined (could not be read), null (hidden by the operator), or a number. */
  datatype Viewers = Unread | Hidden | Count(n: int)

  datatype Row = Row(
    manual: bool,
    status: Status,
    discoveryEnabled: bool,
    chatEnabled: bool,
    failures: nat,
    viewerCount: Option<int>,
    lastPublishedAt: Option<int>,
    lastLiveness: Option<Liveness>,
    profileHash: Option<string>)

  datatype Pass = Directory | Manual | Reconcile

  datatype Entry =
    | Probed(url: Url, pass: Pass, liveness: Liveness)
    | ProfilePublished(url: Url, hash: string)
    | Published(url: Url, pass: Pass, status: Status, participants: Option<int>, at: int)

  datatype Config = Config(
    republishIntervalMs: int,
    maxConsecutiveFailures: int,
    defaultDiscovery: bool,
    defaultChat: bool)

  /** What the world says at one point: the probe, the viewer count, the profile's hash, the time. */
  datatype Answers = Answers(liveness: Liveness, viewers: Viewers, profile: string, now: int)

  type World = nat -> Answers

  datatype State = State(rows: map<Url, Row>, log: seq<Entry>)

  /** What one turn leaves behind: the row and the entries it logs. */
  datatype Turn = Turn(row: Row, entries: seq<Entry>)

  // ---------------------------------------------------------------- one row's turn

  function Fresh(cfg: Config): Row {
    Row(false, Live, cfg.defaultDiscovery, cfg.defaultChat, 0, None, None, None, None)
  }

  function Read(v: Viewers): Option<int> { if v.Count? then Some(v.n) else None }

  /** The participants a live event carries: what was polled, else what is stored. */
  function Shown(v: Viewers, stored: Option<int>): Option<int> { if v.Unread? then stored else Read(v) }

  predicate ViewersChanged(v: Viewers, stored: Option<int>) { !v.Unread? && Read(v) != stored }

  predicate RepublishDue(cfg: Config, row: Row, now: int) {
    row.lastPublishedAt.None? || now - row.lastPublishedAt.value >= cfg.republishIntervalMs
  }

  function ProfileEntries(url: Url, row: Row, hash: string): seq<Entry> {
    if row.profileHash == Some(hash) then [] else [ProfilePublished(url, hash)]
  }

  function LiveTurn(cfg: Config, url: Url, row: Row, isNew: bool, a: Answers): Turn {
    if !row.discoveryEnabled then Turn(row, [])
    else
      var status := if a.liveness.HasEnded? then Ended else Live;
      var polled := if status.Live? then a.viewers else Unread;
      var publish := isNew || row.status != status || RepublishDue(cfg, row, a.now)
        || ViewersChanged(polled, row.viewerCount);
      Turn(
        row.(status := status, lastLiveness := Some(a.liveness), profileHash := Some(a.profile),
             failures := if a.liveness.ProbeError? then row.failures else 0,
             lastPublishedAt := if publish then Some(a.now) else row.lastPublishedAt,
             viewerCount := if publish then Shown(polled, row.viewerCount) else row.viewerCount),
        [Probed(url, Directory, a.liveness)] + ProfileEntries(url, row, a.profile)
          + (if publish then [Published(url, Directory, status, Shown(polled, row.viewerCount), a.now)] else []))
  }

  function ManualTurn(cfg: Config, url: Url, row: Row, a: Answers): Turn {
    if !row.discoveryEnabled then Turn(row, [])
    else if !a.liveness.IsLive? then Turn(row, [Probed(url, Manual, a.liveness)])
    else
      var publish := row.status.Ended? || RepublishDue(cfg, row, a.now) || ViewersChanged(a.viewers, row.viewerCount);
      Turn(
        row.(status := Live, lastLiveness := Some(IsLive), profileHash := Some(a.profile), failures := 0,
             lastPublishedAt := if publish then Some(a.now) else row.lastPublishedAt,
             viewerCount := if publish then Shown(a.viewers, row.viewerCount) else row.viewerCount),
        [Probed(url, Manual, IsLive)] + ProfileEntries(url, row, a.profile)
          + (if publish then [Published(url, Manual, Live, Shown(a.viewers, row.viewerCount), a.now)] else []))
  }

  function ReconcileTurn(cfg: Config, url: Url, row: Row, a: Answers): Turn {
    if !row.discoveryEnabled then Turn(row, [])
    else
      var probed := Probed(url, Reconcile, a.liveness);
      var counted := row.(lastLiveness := Some(a.liveness), failures := row.failures + 1);
      if a.liveness.IsLive? then Turn(row.(failures := 0, lastLiveness := Some(IsLive)), [probed])
      else if row.failures + 1 < cfg.maxConsecutiveFailures then Turn(counted, [probed])
      else
        Turn(counted.(status := Ended, lastPublishedAt := Some(a.now)),
          [probed] + [Published(url, Reconcile, Ended, None, a.now)])
  }

  // ---------------------------------------------------------------- what holds of a row and its history

  function LastPublished(history: seq<Entry>): Option<Entry> {
    if history == [] then None
    else if history[|history| - 1].Published? then Some(history[|history| - 1])
    else LastPublished(history[..|history| - 1])
  }

  /** Non-live answers to reconciliation since the last live answer of any probe. */
  function Misses(history: seq<Entry>): nat {
    if history == [] then 0
    else
      var before, e := Misses(history[..|history| - 1]), history[|history| - 1];
      if !e.Probed? then before
      else if e.liveness.IsLive? then 0
      else if e.pass.Reconcile? then before + 1
      else before
  }

  /** What a probe does to the failure count. Only a probe of the directory pass that errs leaves it. */
  function Recount(failures: nat, pass: Pass, liveness: Liveness): nat {
    match pass
    case Directory => if liveness.ProbeError? then failures else 0
    case Manual => if liveness.IsLive? then 0 else failures
    case Reconcile => if liveness.IsLive? then 0 else failures + 1
  }

  /** What one entry of its history says about a row. */
  function Noted(row: Row, e: Entry): Row {
    match e
    case Probed(_, pass, liveness) =>
      row.(failures := Recount(row.failures, pass, liveness),
           lastLiveness := if pass.Manual? && !liveness.IsLive? then row.lastLiveness else Some(liveness))
    case ProfilePublished(_, hash) => row.(profileHash := Some(hash))
    case Published(_, pass, status, participants, at) =>
      row.(status := status, lastPublishedAt := Some(at),
           viewerCount := if pass.Reconcile? then row.viewerCount else participants)
  }

  /** The row as its history tells it, from the row it was at first. */
  function Replay(first: Row, history: seq<Entry>): Row {
    if history == [] then first else Noted(Replay(first, history[..|history| - 1]), history[|history| - 1])
  }

  datatype Answer = Answer(pass: Pass, liveness: Liveness)

  function LastProbe(history: seq<Entry>): Option<Answer> {
    if history == [] then None
    else if history[|history| - 1].Probed? then
      Some(Answer(history[|history| - 1].pass, history[|history| - 1].liveness))
    else LastProbe(history[..|history| - 1])
  }

  /** There is something to say: a first event, a new status, a new count, or the heartbeat. */
  predicate WorthSaying(cfg: Config, row: Row, status: Status, participants: Option<int>, at: int) {
    RepublishDue(cfg, row, at) || row.status != status || row.viewerCount != participants
  }

  /** Why an entry is in the history: a listed instance is published as the probe before it found it, a
      manual one only when found live, both only when there is something to say, and an ending by
      reconciliation only when the probe is not live and the count full; a profile is published only when
      it differs from the one last stored. */
  ghost predicate EntryOk(cfg: Config, first: Row, history: seq<Entry>, n: nat)
    requires n < |history|
  {
    var row, probe := Replay(first, history[..n]), LastProbe(history[..n]);
    match history[n]
    case Probed(_, _, _) => true
    case ProfilePublished(_, hash) =>
      && row.profileHash != Some(hash)
      && probe.Some? && !probe.value.pass.Reconcile? && (probe.value.pass.Manual? ==> probe.value.liveness.IsLive?)
    case Published(_, pass, status, participants, at) =>
      && probe.Some? && probe.value.pass == pass
      && (!pass.Reconcile? ==> WorthSaying(cfg, row, status, participants, at))
      && match pass
         case Directory => status.Ended? <==> probe.value.liveness.HasEnded?
         case Manual => status.Live? && probe.value.liveness.IsLive?
         case Reconcile =>
           status.Ended? && !probe.value.liveness.IsLive? && row.failures >= cfg.maxConsecutiveFailures
  }

  ghost predicate EntriesOk(cfg: Config, first: Row, history: seq<Entry>) {
    forall n :: 0 <= n < |history| ==> EntryOk(cfg, first, history, n)
  }

  /** The two rows differ at most in what an operator sets. */
  predicate SameColumns(row: Row, other: Row) {
    row == other.(manual := row.manual, discoveryEnabled := row.discoveryEnabled, chatEnabled := row.chatEnabled)
  }

  ghost predicate Tells(cfg: Config, first: Row, row: Row, history: seq<Entry>) {
    && SameColumns(row, Replay(first, history)) && EntriesOk(cfg, first, history)
    && first.failures == 0 && (!row.manual ==> first == Fresh(cfg))
  }

  ghost predicate RowOk(cfg: Config, row: Row, history: seq<Entry>) { exists first :: Tells(cfg, first, row, history) }

  lemma {:induction false} LastPublishedIs(history: seq<Entry>)
    ensures LastPublished(history).Some? ==> LastPublished(history).value.Published?
  {
    if history != [] { LastPublishedIs(history[..|history| - 1]); }
  }

  /** A history one entry longer. */
  lemma OneMore(cfg: Config, first: Row, row: Row, history: seq<Entry>, e: Entry)
    requires Tells(cfg, first, row, history) && EntryOk(cfg, first, history + [e], |history|)
    ensures Tells(cfg, first, Noted(row, e), history + [e])
  {
    var after := history + [e];
    assert after[..|history|] == history;
    forall n | 0 <= n < |after| ensures EntryOk(cfg, first, after, n) {
      if n < |history| { assert after[..n] == history[..n] && EntryOk(cfg, first, history, n); }
    }
  }

  lemma ProbeMore(cfg: Config, first: Row, row: Row, history: seq<Entry>, probe: Entry)
    requires Tells(cfg, first, row, history) && probe.Probed?
    ensures Tells(cfg, first, Noted(row, probe), history + [probe])
    ensures LastProbe(history + [probe]) == Some(Answer(probe.pass, probe.liveness))
  {
    OneMore(cfg, first, row, history, probe);
    assert (history + [probe])[..|history|] == history;
  }

  lemma ProfileMore(cfg: Config, first: Row, row: Row, history: seq<Entry>, url: Url, hash: string)
    requires Tells(cfg, first, row, history) && LastProbe(history).Some?
    requires var probe := LastProbe(history).value;
      !probe.pass.Reconcile? && (probe.pass.Manual? ==> probe.liveness.IsLive?)
    ensures var after := history + ProfileEntries(url, row, hash);
      Tells(cfg, first, row.(profileHash := Some(hash)), after) && LastProbe(after) == LastProbe(history)
  {
    if row.profileHash == Some(hash) {
      assert history + [] == history && row.(profileHash := Some(hash)) == row;
    } else {
      var e := ProfilePublished(url, hash);
      assert (history + [e])[..|history|] == history;
      OneMore(cfg, first, row, history, e);
    }
  }

  lemma EventMore(cfg: Config, first: Row, row: Row, history: seq<Entry>, event: Entry)
    requires Tells(cfg, first, row, history) && event.Published? && LastProbe(history).Some?
    requires var probe := LastProbe(history).value;
      && probe.pass == event.pass
      && (!event.pass.Reconcile? ==> WorthSaying(cfg, row, event.status, event.participants, event.at))
      && match event.pass
         case Directory => event.status.Ended? <==> probe.liveness.HasEnded?
         case Manual => event.status.Live? && probe.liveness.IsLive?
         case Reconcile => event.status.Ended? && !probe.liveness.IsLive? && row.failures >= cfg.maxConsecutiveFailures
    ensures Tells(cfg, first, Noted(row, event), history + [event])
  {
    assert (history + [event])[..|history|] == history;
    OneMore(cfg, first, row, history, event);
  }

  /** A probe, perhaps a profile, perhaps a live event: the shape of every published turn. */
  lemma ThreeMore(cfg: Config, first: Row, row: Row, history: seq<Entry>, probe: Entry, hash: string, event: seq<Entry>)
    requires Tells(cfg, first, row, history) && probe.Probed? && !probe.pass.Reconcile?
    requires probe.pass.Manual? ==> probe.liveness.IsLive?
    requires |event| <= 1
    requires event != [] ==>
      && event[0].Published? && event[0].pass == probe.pass
      && WorthSaying(cfg, row, event[0].status, event[0].participants, event[0].at)
      && (if probe.pass.Manual? then event[0].status.Live? else event[0].status.Ended? <==> probe.liveness.HasEnded?)
    ensures var after := Noted(row, probe).(profileHash := Some(hash));
      Tells(cfg, first, if event == [] then after else Noted(after, event[0]),
            history + ([probe] + ProfileEntries(probe.url, row, hash) + event))
  {
    var row1, h1 := Noted(row, probe), history + [probe];
    ProbeMore(cfg, first, row, history, probe);
    var profile := ProfileEntries(probe.url, row, hash);
    assert profile == ProfileEntries(probe.url, row1, hash);
    ProfileMore(cfg, first, row1, h1, probe.url, hash);
    var h2 := h1 + profile;
    if event == [] {
      assert history + ([probe] + profile + event) == h2;
    } else {
      EventMore(cfg, first, row1.(profileHash := Some(hash)), h2, event[0]);
      assert event == [event[0]];
      assert history + ([probe] + profile + event) == h2 + [event[0]];
    }
  }

  lemma LiveTurnKeeps(cfg: Config, url: Url, row: Row, isNew: bool, a: Answers, history: seq<Entry>)
    requires RowOk(cfg, row, history) && (isNew ==> row.lastPublishedAt.None?)
    ensures var t := LiveTurn(cfg, url, row, isNew, a); RowOk(cfg, t.row, history + t.entries)
  {
    var first :| Tells(cfg, first, row, history);
    if row.discoveryEnabled {
      var t := LiveTurn(cfg, url, row, isNew, a);
      var probe, profile := Probed(url, Directory, a.liveness), ProfileEntries(url, row, a.profile);
      var event := t.entries[|[probe] + profile|..];
      assert t.entries == [probe] + profile + event;
      ThreeMore(cfg, first, row, history, probe, a.profile, event);
      var after := Noted(row, probe).(profileHash := Some(a.profile));
      assert t.row == if event == [] then after else Noted(after, event[0]);
    } else {
      assert history + [] == history;
    }
  }

  lemma ManualTurnKeeps(cfg: Config, url: Url, row: Row, a: Answers, history: seq<Entry>)
    requires RowOk(cfg, row, history)
    ensures var t := ManualTurn(cfg, url, row, a); RowOk(cfg, t.row, history + t.entries)
  {
    var first :| Tells(cfg, first, row, history);
    var probe := Probed(url, Manual, a.liveness);
    if !row.discoveryEnabled {
      assert history + [] == history;
    } else if !a.liveness.IsLive? {
      ProbeMore(cfg, first, row, history, probe);
      assert Noted(row, probe) == row;
    } else {
      var t := ManualTurn(cfg, url, row, a);
      var profile := ProfileEntries(url, row, a.profile);
      var event := t.entries[|[probe] + profile|..];
      assert t.entries == [probe] + profile + event;
      ThreeMore(cfg, first, row, history, probe, a.profile, event);
      var after := Noted(row, probe).(profileHash := Some(a.profile));
      assert t.row == if event == [] then after else Noted(after, event[0]);
    }
  }

  lemma ReconcileTurnKeeps(cfg: Config, url: Url, row: Row, a: Answers, history: seq<Entry>)
    requires RowOk(cfg, row, history)
    ensures var t := ReconcileTurn(cfg, url, row, a); RowOk(cfg, t.row, history + t.entries)
  {
    var first :| Tells(cfg, first, row, history);
    if !row.discoveryEnabled {
      assert history + [] == history;
    } else {
      var probe := Probed(url, Reconcile, a.liveness);
      ProbeMore(cfg, first, row, history, probe);
      if !a.liveness.IsLive? && row.failures + 1 >= cfg.maxConsecutiveFailures {
        var event := Published(url, Reconcile, Ended, None, a.now);
        EventMore(cfg, first, Noted(row, probe), history + [probe], event);
        assert history + ([probe] + [event]) == history + [probe] + [event];
      }
    }
  }

  // ---------------------------------------------------------------- what a history shows

  /** Every teardown so far came after enough misses. */
  ghost predicate EndsAreEarned(cfg: Config, history: seq<Entry>) {
    forall n :: 0 <= n < |history| && history[n].Published? && history[n].pass.Reconcile? ==>
      history[n].status.Ended? && Misses(history[..n]) >= cfg.maxConsecutiveFailures
  }

  lemma {:induction false} CountedMisses(first: Row, history: seq<Entry>)
    requires first.failures == 0
    ensures Replay(first, history).failures <= Misses(history)
  {
    if history != [] { CountedMisses(first, history[..|history| - 1]); }
  }

  lemma EndsEarned(cfg: Config, first: Row, row: Row, history: seq<Entry>)
    requires Tells(cfg, first, row, history)
    ensures EndsAreEarned(cfg, history)
  {
    forall n | 0 <= n < |history| && history[n].Published? && history[n].pass.Reconcile?
      ensures history[n].status.Ended? && Misses(history[..n]) >= cfg.maxConsecutiveFailures
    {
      assert EntryOk(cfg, first, history, n);
      CountedMisses(first, history[..n]);
    }
  }

  ghost predicate Agrees(row: Row, history: seq<Entry>) {
    var last := LastPublished(history);
    last.Some? && last.value.Published? ==>
      && row.status == last.value.status && row.lastPublishedAt == Some(last.value.at)
      && (row.status.Live? ==> row.viewerCount == last.value.participants)
  }

  lemma {:induction false} ReplayAgrees(cfg: Config, first: Row, history: seq<Entry>)
    requires EntriesOk(cfg, first, history)
    ensures Agrees(Replay(first, history), history)
  {
    if history != [] {
      var n := |history| - 1;
      forall m | 0 <= m < n ensures EntryOk(cfg, first, history[..n], m) {
        assert history[..n][..m] == history[..m] && EntryOk(cfg, first, history, m);
      }
      ReplayAgrees(cfg, first, history[..n]);
      assert EntryOk(cfg, first, history, n);
    }
  }

  // ---------------------------------------------------------------- the heartbeat

  ghost predicate Publishes(t: Turn) { exists e :: e in t.entries && e.Published? }

  /** After a turn at time now: what the row says was published within the republish interval, and if the turn
      published nothing, nothing a subscriber could see has changed. */
  ghost predicate Timely(cfg: Config, row: Row, t: Turn, now: int) {
    && t.row.lastPublishedAt.Some? && now - t.row.lastPublishedAt.value < cfg.republishIntervalMs
    && (Publishes(t) ==> t.row.lastPublishedAt == Some(now))
    && (!Publishes(t) ==>
          && t.row.lastPublishedAt == row.lastPublishedAt && t.row.status == row.status
          && t.row.viewerCount == row.viewerCount)
  }

  /** Every turn that finds an enabled instance listed, or a manual one live, leaves it freshly
      published; and a viewer count that was read is the count the row then holds. */
  lemma HeartbeatIsKept(cfg: Config, url: Url, row: Row, isNew: bool, a: Answers)
    requires row.discoveryEnabled && cfg.republishIntervalMs > 0
    ensures Timely(cfg, row, LiveTurn(cfg, url, row, isNew, a), a.now)
    ensures a.liveness.IsLive? ==> Timely(cfg, row, ManualTurn(cfg, url, row, a), a.now)
    ensures !a.viewers.Unread? && !a.liveness.HasEnded? ==>
      LiveTurn(cfg, url, row, isNew, a).row.viewerCount == Read(a.viewers)
  {
    var t := LiveTurn(cfg, url, row, isNew, a);
    var n := |t.entries| - 1;
    assert t.entries[n] in t.entries;
    assert forall e :: e in ProfileEntries(url, row, a.profile) ==> !e.Published?;
    if a.liveness.IsLive? {
      var m := ManualTurn(cfg, url, row, a);
      assert m.entries[|m.entries| - 1] in m.entries;
    }
  }

  // ---------------------------------------------------------------- the passes of a cycle

  function Apply(s: State, url: Url, t: Turn): State { State(s.rows[url := t.row], s.log + t.entries) }

  /** upsertSeen: a new row takes the default posture, an existing one keeps its own. */
  function Upserted(cfg: Config, s: State, url: Url): State {
    if url in s.rows then s else s.(rows := s.rows[url := Fresh(cfg)])
  }

  function ProcessLive(cfg: Config, w: World, s: State, url: Url): State {
    var u := Upserted(cfg, s, url);
    Apply(u, url, LiveTurn(cfg, url, u.rows[url], url !in s.rows, w(|s.log|)))
  }

  function LivePass(cfg: Config, w: World, s: State, listing: seq<Url>): State {
    if listing == [] then s
    else ProcessLive(cfg, w, LivePass(cfg, w, s, listing[..|listing| - 1]), listing[|listing| - 1])
  }

  predicate TakesManualTurn(s: State, live: set<Url>, url: Url) { url in s.rows && url !in live }

  function ProcessManual(cfg: Config, w: World, s: State, live: set<Url>, url: Url): State {
    if TakesManualTurn(s, live, url) then Apply(s, url, ManualTurn(cfg, url, s.rows[url], w(|s.log|))) else s
  }

  /** A manual row found live joins the live set, so reconciliation leaves it alone. */
  function LiveAfterManual(w: World, s: State, live: set<Url>, url: Url): set<Url> {
    if TakesManualTurn(s, live, url) && s.rows[url].discoveryEnabled && w(|s.log|).liveness.IsLive?
    then live + {url} else live
  }

  function ManualPass(cfg: Config, w: World, s: State, live: set<Url>, urls: seq<Url>): (State, set<Url>) {
    if urls == [] then (s, live)
    else
      var (t, found) := ManualPass(cfg, w, s, live, urls[..|urls| - 1]);
      (ProcessManual(cfg, w, t, found, urls[|urls| - 1]), LiveAfterManual(w, t, found, urls[|urls| - 1]))
  }

  function ProcessGone(cfg: Config, w: World, s: State, live: set<Url>, url: Url): State {
    if url in s.rows && url !in live then Apply(s, url, ReconcileTurn(cfg, url, s.rows[url], w(|s.log|))) else s
  }

  function ReconcilePass(cfg: Config, w: World, s: State, live: set<Url>, urls: seq<Url>): State {
    if urls == [] then s
    else ProcessGone(cfg, w, ReconcilePass(cfg, w, s, live, urls[..|urls| - 1]), live, urls[|urls| - 1])
  }

  ghost function Listed(listing: seq<Url>): set<Url> { set u | u in listing }

  /** A database listing: every row that qualifies, once, in any order. */
  ghost predicate Lists(urls: seq<Url>, rows: map<Url, Row>, which: Row -> bool) {
    && (forall i, j :: 0 <= i < j < |urls| ==> urls[i] != urls[j])
    && (forall u :: u in urls <==> u in rows && which(rows[u]))
  }

  ghost predicate CycleIs(cfg: Config, w: World, s: State, listing: seq<Url>, manual: seq<Url>, active: seq<Url>,
                          t: State)
  {
    var afterLive := LivePass(cfg, w, s, listing);
    var (afterManual, live) := ManualPass(cfg, w, afterLive, Listed(listing), manual);
    && Lists(manual, afterLive.rows, (row: Row) => row.manual)
    && Lists(active, afterManual.rows, (row: Row) => row.status.Live?)
    && t == ReconcilePass(cfg, w, afterManual, live, active)
  }

  /** What can happen to the store: a cycle (no listing is a directory outage), or, between cycles,
      the operator setting a row's flags or adding a row by hand. */
  datatype Input =
    | Cycle(listing: Option<seq<Url>>, world: World)
    | SetFlags(url: Url, discovery: bool, chat: bool)
    | AddManual(url: Url, row: Row)

  ghost predicate Step(cfg: Config, s: State, i: Input, t: State) {
    match i
    case Cycle(None, _) => t == s
    case Cycle(Some(listing), w) => exists manual, active :: CycleIs(cfg, w, s, listing, manual, active, t)
    case SetFlags(url, d, c) =>
      url in s.rows && t == s.(rows := s.rows[url := s.rows[url].(discoveryEnabled := d, chatEnabled := c)])
    case AddManual(url, row) =>
      url !in s.rows && row.manual && row.failures == 0 && t == s.(rows := s.rows[url := row])
  }

  ghost predicate IsRun(cfg: Config, run: seq<State>, inputs: seq<Input>) {
    && |run| == |inputs| + 1 && run[0] == State(map[], [])
    && (forall k :: 0 <= k < |inputs| ==> Step(cfg, run[k], inputs[k], run[k + 1]))
  }

  // ---------------------------------------------------------------- from one row to the store

  function History(log: seq<Entry>, url: Url): seq<Entry> {
    if log == [] then []
    else
      var before := History(log[..|log| - 1], url);
      if log[|log| - 1].url == url then before + [log[|log| - 1]] else before
  }

  predicate About(entries: seq<Entry>, url: Url) { forall e :: e in entries ==> e.url == url }

  lemma HistoryOneMore(log: seq<Entry>, e: Entry, url: Url)
    ensures History(log + [e], url) == if e.url == url then History(log, url) + [e] else History(log, url)
  {
    assert (log + [e])[..|log|] == log;
  }

  lemma LastJoins(log: seq<Entry>, entries: seq<Entry>)
    requires entries != []
    ensures log + entries[..|entries| - 1] + [entries[|entries| - 1]] == log + entries
  {
  }

  lemma {:induction false} HistoryGrows(log: seq<Entry>, entries: seq<Entry>, url: Url, of: Url)
    requires About(entries, of)
    ensures History(log + entries, url) == if url == of then History(log, url) + entries else History(log, url)
  {
    if entries == [] {
      assert log + entries == log && History(log, url) + entries == History(log, url);
    } else {
      var n := |entries| - 1;
      var front, last := entries[..n], entries[n];
      assert last in entries && About(front, of);
      HistoryGrows(log, front, url, of);
      HistoryOneMore(log + front, last, url);
      LastJoins(log, entries);
      LastJoins(History(log, url), entries);
    }
  }

  ghost predicate UrlOk(cfg: Config, s: State, url: Url) {
    if url in s.rows then RowOk(cfg, s.rows[url], History(s.log, url)) else History(s.log, url) == []
  }

  ghost predicate Ok(cfg: Config, s: State) { forall url :: UrlOk(cfg, s, url) }

  /** Rows never disappear and keep their flags; only enabled rows are probed or published. */
  ghost predicate Progress(s: State, t: State) {
    && (forall u :: u in s.rows ==> u in t.rows && SameFlags(s.rows[u], t.rows[u]))
    && s.log <= t.log
    && (forall n :: |s.log| <= n < |t.log| ==> t.log[n].url in t.rows && t.rows[t.log[n].url].discoveryEnabled)
  }

  predicate SameFlags(row: Row, after: Row) {
    after.discoveryEnabled == row.discoveryEnabled && after.chatEnabled == row.chatEnabled && after.manual == row.manual
  }

  lemma ProgressComposes(s: State, t: State, u: State)
    requires Progress(s, t) && Progress(t, u)
    ensures Progress(s, u)
  {
    forall n | |s.log| <= n < |u.log| ensures u.log[n].url in u.rows && u.rows[u.log[n].url].discoveryEnabled {
      if n < |t.log| { assert u.log[n] == t.log[n]; }
    }
  }

  lemma ApplyKeeps(cfg: Config, s: State, url: Url, t: Turn)
    requires Ok(cfg, s) && url in s.rows && About(t.entries, url)
    requires RowOk(cfg, t.row, History(s.log, url) + t.entries)
    requires SameFlags(s.rows[url], t.row) && (t.entries != [] ==> s.rows[url].discoveryEnabled)
    ensures Ok(cfg, Apply(s, url, t)) && Progress(s, Apply(s, url, t))
  {
    var after := Apply(s, url, t);
    forall u ensures UrlOk(cfg, after, u) {
      assert UrlOk(cfg, s, u);
      HistoryGrows(s.log, t.entries, u, url);
    }
    forall n | |s.log| <= n < |after.log| ensures after.log[n].url == url {
      assert after.log[n] == t.entries[n - |s.log|];
    }
  }

  lemma UpsertKeeps(cfg: Config, s: State, url: Url)
    requires Ok(cfg, s)
    ensures Ok(cfg, Upserted(cfg, s, url)) && Progress(s, Upserted(cfg, s, url))
  {
    var t := Upserted(cfg, s, url);
    forall u ensures UrlOk(cfg, t, u) {
      assert UrlOk(cfg, s, u);
      if u == url && u !in s.rows { assert Tells(cfg, Fresh(cfg), t.rows[u], History(t.log, u)); }
    }
  }

  lemma TurnsAreAbout(cfg: Config, url: Url, row: Row, isNew: bool, a: Answers)
    ensures About(LiveTurn(cfg, url, row, isNew, a).entries, url)
    ensures About(ManualTurn(cfg, url, row, a).entries, url)
    ensures About(ReconcileTurn(cfg, url, row, a).entries, url)
  {
  }

  lemma LiveKeeps(cfg: Config, w: World, s: State, url: Url)
    requires Ok(cfg, s)
    ensures Ok(cfg, ProcessLive(cfg, w, s, url)) && Progress(s, ProcessLive(cfg, w, s, url))
  {
    var u, a := Upserted(cfg, s, url), w(|s.log|);
    UpsertKeeps(cfg, s, url);
    assert UrlOk(cfg, s, url) && UrlOk(cfg, u, url);
    LiveTurnKeeps(cfg, url, u.rows[url], url !in s.rows, a, History(s.log, url));
    TurnsAreAbout(cfg, url, u.rows[url], url !in s.rows, a);
    ApplyKeeps(cfg, u, url, LiveTurn(cfg, url, u.rows[url], url !in s.rows, a));
    ProgressComposes(s, u, ProcessLive(cfg, w, s, url));
  }

  lemma ManualKeeps(cfg: Config, w: World, s: State, live: set<Url>, url: Url)
    requires Ok(cfg, s)
    ensures Ok(cfg, ProcessManual(cfg, w, s, live, url)) && Progress(s, ProcessManual(cfg, w, s, live, url))
  {
    if TakesManualTurn(s, live, url) {
      assert UrlOk(cfg, s, url);
      ManualTurnKeeps(cfg, url, s.rows[url], w(|s.log|), History(s.log, url));
      TurnsAreAbout(cfg, url, s.rows[url], false, w(|s.log|));
      ApplyKeeps(cfg, s, url, ManualTurn(cfg, url, s.rows[url], w(|s.log|)));
    }
  }

  lemma GoneKeeps(cfg: Config, w: World, s: State, live: set<Url>, url: Url)
    requires Ok(cfg, s)
    ensures Ok(cfg, ProcessGone(cfg, w, s, live, url)) && Progress(s, ProcessGone(cfg, w, s, live, url))
  {
    if url in s.rows && url !in live {
      var row, a := s.rows[url], w(|s.log|);
      assert UrlOk(cfg, s, url);
      ReconcileTurnKeeps(cfg, url, row, a, History(s.log, url));
      TurnsAreAbout(cfg, url, row, false, a);
      ReconcileTurnKeepsFlags(cfg, url, row, a);
      ApplyKeeps(cfg, s, url, ReconcileTurn(cfg, url, row, a));
    }
  }

  lemma ReconcileTurnKeepsFlags(cfg: Config, url: Url, row: Row, a: Answers)
    ensures var t := ReconcileTurn(cfg, url, row, a);
      SameFlags(row, t.row) && (t.entries != [] ==> row.discoveryEnabled)
  {
  }

  lemma {:induction false} LivePassKeeps(cfg: Config, w: World, s: State, listing: seq<Url>)
    requires Ok(cfg, s)
    ensures var t := LivePass(cfg, w, s, listing); Ok(cfg, t) && Progress(s, t)
  {
    if listing != [] {
      var n := |listing| - 1;
      LivePassKeeps(cfg, w, s, listing[..n]);
      var t := LivePass(cfg, w, s, listing[..n]);
      LiveKeeps(cfg, w, t, listing[n]);
      ProgressComposes(s, t, ProcessLive(cfg, w, t, listing[n]));
    }
  }

  lemma {:induction false} ManualPassKeeps(cfg: Config, w: World, s: State, live: set<Url>, urls: seq<Url>)
    requires Ok(cfg, s)
    ensures var (t, found) := ManualPass(cfg, w, s, live, urls);
      && Ok(cfg, t) && Progress(s, t) && live <= found
      && forall u :: u in live && u in s.rows ==> t.rows[u] == s.rows[u]
  {
    if urls != [] {
      var n := |urls| - 1;
      ManualPassKeeps(cfg, w, s, live, urls[..n]);
      var (t, found) := ManualPass(cfg, w, s, live, urls[..n]);
      ManualKeeps(cfg, w, t, found, urls[n]);
      ProgressComposes(s, t, ProcessManual(cfg, w, t, found, urls[n]));
    }
  }

  lemma {:induction false} ReconcilePassKeeps(cfg: Config, w: World, s: State, live: set<Url>, urls: seq<Url>)
    requires Ok(cfg, s)
    ensures var t := ReconcilePass(cfg, w, s, live, urls);
      Ok(cfg, t) && Progress(s, t) && forall u :: u in live && u in s.rows ==> t.rows[u] == s.rows[u]
  {
    if urls != [] {
      var n := |urls| - 1;
      ReconcilePassKeeps(cfg, w, s, live, urls[..n]);
      var t := ReconcilePass(cfg, w, s, live, urls[..n]);
      GoneKeeps(cfg, w, t, live, urls[n]);
      ProgressComposes(s, t, ProcessGone(cfg, w, t, live, urls[n]));
    }
  }

  /** A completed cycle, in whatever order the database lists its rows, keeps every row in agreement
      with its history; it changes no flag, and leaves no trace of a row that is opted out. */
  lemma CycleKeeps(cfg: Config, w: World, s: State, listing: seq<Url>, manual: seq<Url>, active: seq<Url>, t: State)
    requires Ok(cfg, s) && CycleIs(cfg, w, s, listing, manual, active, t)
    ensures Ok(cfg, t) && Progress(s, t)
  {
    var afterLive := LivePass(cfg, w, s, listing);
    var (afterManual, live) := ManualPass(cfg, w, afterLive, Listed(listing), manual);
    LivePassKeeps(cfg, w, s, listing);
    ManualPassKeeps(cfg, w, afterLive, Listed(listing), manual);
    ReconcilePassKeeps(cfg, w, afterManual, live, active);
    ProgressComposes(s, afterLive, afterManual);
    ProgressComposes(s, afterManual, t);
  }

  /** The rows of before and those of the listed, and no other: old ones keep their flags, new ones take the
      configured posture. */
  ghost predicate Grows(cfg: Config, s: State, t: State, listed: set<Url>) {
    && t.rows.Keys == s.rows.Keys + listed
    && (forall u :: u in t.rows && u in s.rows ==> SameFlags(s.rows[u], t.rows[u]))
    && (forall u :: u in t.rows && u !in s.rows ==> InDefaultPosture(cfg, t.rows[u]))
  }

  predicate InDefaultPosture(cfg: Config, row: Row) {
    !row.manual && row.discoveryEnabled == cfg.defaultDiscovery && row.chatEnabled == cfg.defaultChat
  }

  lemma {:induction false} LivePassGrows(cfg: Config, w: World, s: State, listing: seq<Url>)
    ensures Grows(cfg, s, LivePass(cfg, w, s, listing), Listed(listing))
  {
    if listing == [] {
      assert Listed(listing) == {};
    } else {
      var n := |listing| - 1;
      LivePassGrows(cfg, w, s, listing[..n]);
      assert Listed(listing) == Listed(listing[..n]) + {listing[n]};
    }
  }

  lemma {:induction false} ManualPassAddsNone(cfg: Config, w: World, s: State, live: set<Url>, urls: seq<Url>)
    ensures ManualPass(cfg, w, s, live, urls).0.rows.Keys == s.rows.Keys
  {
    if urls != [] { ManualPassAddsNone(cfg, w, s, live, urls[..|urls| - 1]); }
  }

  lemma {:induction false} ReconcilePassAddsNone(cfg: Config, w: World, s: State, live: set<Url>, urls: seq<Url>)
    ensures ReconcilePass(cfg, w, s, live, urls).rows.Keys == s.rows.Keys
  {
    if urls != [] { ReconcilePassAddsNone(cfg, w, s, live, urls[..|urls| - 1]); }
  }

  /** What rows a cycle leaves, and in which posture. */
  lemma CycleGrows(cfg: Config, w: World, s: State, listing: seq<Url>, manual: seq<Url>, active: seq<Url>, t: State)
    requires Ok(cfg, s) && CycleIs(cfg, w, s, listing, manual, active, t)
    ensures Grows(cfg, s, t, Listed(listing))
  {
    var afterLive := LivePass(cfg, w, s, listing);
    var (afterManual, live) := ManualPass(cfg, w, afterLive, Listed(listing), manual);
    LivePassGrows(cfg, w, s, listing);
    ManualPassAddsNone(cfg, w, afterLive, Listed(listing), manual);
    ReconcilePassAddsNone(cfg, w, afterManual, live, active);
    LivePassKeeps(cfg, w, s, listing);
    ManualPassKeeps(cfg, w, afterLive, Listed(listing), manual);
    ReconcilePassKeeps(cfg, w, afterManual, live, active);
    ProgressComposes(afterLive, afterManual, t);
  }

  lemma StepKeeps(cfg: Config, s: State, i: Input, t: State)
    requires Ok(cfg, s) && Step(cfg, s, i, t)
    ensures Ok(cfg, t)
    ensures i.Cycle? ==> Progress(s, t)
  {
    match i {
      case Cycle(None, _) =>
      case Cycle(Some(listing), w) =>
        var manual, active :| CycleIs(cfg, w, s, listing, manual, active, t);
        CycleKeeps(cfg, w, s, listing, manual, active, t);
      case SetFlags(url, d, c) => FlagsKeep(cfg, s, url, d, c, t);
      case AddManual(url, row) => AddingKeeps(cfg, s, url, row, t);
    }
  }

  lemma FlagsKeep(cfg: Config, s: State, url: Url, d: bool, c: bool, t: State)
    requires Ok(cfg, s) && Step(cfg, s, SetFlags(url, d, c), t)
    ensures Ok(cfg, t)
  {
    forall u ensures UrlOk(cfg, t, u) {
      assert UrlOk(cfg, s, u);
      if u == url {
        var first :| Tells(cfg, first, s.rows[u], History(s.log, u));
        assert Tells(cfg, first, t.rows[u], History(t.log, u));
      }
    }
  }

  lemma AddingKeeps(cfg: Config, s: State, url: Url, row: Row, t: State)
    requires Ok(cfg, s) && Step(cfg, s, AddManual(url, row), t)
    ensures Ok(cfg, t)
  {
    forall u ensures UrlOk(cfg, t, u) {
      assert UrlOk(cfg, s, u);
      if u == url { assert Tells(cfg, row, t.rows[u], History(t.log, u)); }
    }
  }

  lemma {:induction false} RunKeeps(cfg: Config, run: seq<State>, inputs: seq<Input>, k: nat)
    requires IsRun(cfg, run, inputs) && k <= |inputs|
    ensures Ok(cfg, run[k])
  {
    if k > 0 {
      RunKeeps(cfg, run, inputs, k - 1);
      StepKeeps(cfg, run[k - 1], inputs[k - 1], run[k]);
    } else {
      forall u ensures UrlOk(cfg, run[0], u) {}
    }
  }

  // ---------------------------------------------------------------- what every run guarantees

  /** Whatever was published last for an instance is what its row says: the same status and, while it
      is live, the same participant count. */
  lemma RowsAgreeWithTheRelay(cfg: Config, run: seq<State>, inputs: seq<Input>, k: nat, url: Url)
    requires IsRun(cfg, run, inputs) && k <= |inputs|
    ensures var s := run[k]; var last := LastPublished(History(s.log, url));
      last.Some? ==>
        && last.value.Published? && url in s.rows
        && s.rows[url].status == last.value.status && s.rows[url].lastPublishedAt == Some(last.value.at)
        && (s.rows[url].status.Live? ==> s.rows[url].viewerCount == last.value.participants)
  {
    RunKeeps(cfg, run, inputs, k);
    var s := run[k];
    assert UrlOk(cfg, s, url);
    LastPublishedIs(History(s.log, url));
    if url in s.rows {
      var first :| Tells(cfg, first, s.rows[url], History(s.log, url));
      ReplayAgrees(cfg, first, History(s.log, url));
    }
  }

  /** Reconciliation publishes nothing but endings, and each only after the configured number of
      misses, over however many cycles, without one live answer in between. */
  lemma EndingsAreEarned(cfg: Config, run: seq<State>, inputs: seq<Input>, k: nat, url: Url, n: nat)
    requires IsRun(cfg, run, inputs) && k <= |inputs|
    requires n < |History(run[k].log, url)|
    requires var e := History(run[k].log, url)[n]; e.Published? && e.pass.Reconcile?
    ensures History(run[k].log, url)[n].status.Ended?
    ensures Misses(History(run[k].log, url)[..n]) >= cfg.maxConsecutiveFailures
  {
    RunKeeps(cfg, run, inputs, k);
    assert UrlOk(cfg, run[k], url);
    var first :| Tells(cfg, first, run[k].rows[url], History(run[k].log, url));
    EndsEarned(cfg, first, run[k].rows[url], History(run[k].log, url));
  }

  /** A row is what its history tells, column by column, from the row it was at first, which for a
      discovered instance is the fresh row; and every entry of that history has its reason. */
  lemma RowsAreTold(cfg: Config, run: seq<State>, inputs: seq<Input>, k: nat, url: Url)
    requires IsRun(cfg, run, inputs) && k <= |inputs| && url in run[k].rows
    ensures exists first :: Tells(cfg, first, run[k].rows[url], History(run[k].log, url))
  {
    RunKeeps(cfg, run, inputs, k);
    assert UrlOk(cfg, run[k], url);
  }

  // ---------------------------------------------------------------- whose turn it is

  /** What a turn leaves of an instance that is published as its probe found it. */
  predicate UpToDate(cfg: Config, row: Row, a: Answers) {
    && (row.status.Ended? <==> a.liveness.HasEnded?)
    && row.lastLiveness == Some(a.liveness) && row.profileHash == Some(a.profile)
    && row.lastPublishedAt.Some? && a.now - row.lastPublishedAt.value < cfg.republishIntervalMs
    && (!a.viewers.Unread? && !a.liveness.HasEnded? ==> row.viewerCount == Read(a.viewers))
  }

  /** Between the two states the instance was probed in that pass, with the world's answer of the moment. */
  ghost predicate AskedAt(w: World, s: State, t: State, url: Url, pass: Pass, n: nat) {
    |s.log| <= n < |t.log| && t.log[n] == Probed(url, pass, w(n).liveness)
  }

  lemma LiveTurnIsCurrent(cfg: Config, url: Url, row: Row, isNew: bool, a: Answers)
    requires row.discoveryEnabled && cfg.republishIntervalMs > 0
    ensures UpToDate(cfg, LiveTurn(cfg, url, row, isNew, a).row, a)
    ensures LiveTurn(cfg, url, row, isNew, a).entries[..1] == [Probed(url, Directory, a.liveness)]
    ensures a.liveness.IsLive? ==> UpToDate(cfg, ManualTurn(cfg, url, row, a).row, a)
    ensures !a.liveness.IsLive? ==> ManualTurn(cfg, url, row, a).row == row
    ensures ManualTurn(cfg, url, row, a).entries[..1] == [Probed(url, Manual, a.liveness)]
  {
  }

  ghost predicate ListedTurn(cfg: Config, w: World, s: State, t: State, url: Url, n: nat) {
    AskedAt(w, s, t, url, Directory, n) && url in t.rows && UpToDate(cfg, t.rows[url], w(n))
  }

  lemma {:induction false} LivePassAsks(cfg: Config, w: World, s: State, listing: seq<Url>, url: Url)
    requires cfg.republishIntervalMs > 0
    ensures var t := LivePass(cfg, w, s, listing);
      && s.log <= t.log
      && (url !in listing ==> (url in t.rows <==> url in s.rows) && (url in s.rows ==> t.rows[url] == s.rows[url]))
      && (url in listing ==>
            && url in t.rows && t.rows[url].discoveryEnabled == EnabledIn(cfg, s, url)
            && (EnabledIn(cfg, s, url) ==> exists n :: ListedTurn(cfg, w, s, t, url, n)))
  {
    if listing != [] {
      var last := |listing| - 1;
      var u, t := LivePass(cfg, w, s, listing[..last]), LivePass(cfg, w, s, listing);
      LivePassAsks(cfg, w, s, listing[..last], url);
      assert listing == listing[..last] + [listing[last]];
      LivePassEnables(cfg, w, s, listing[..last], url);
      var v := Upserted(cfg, u, listing[last]);
      if listing[last] == url {
        if v.rows[url].discoveryEnabled {
          LiveTurnIsCurrent(cfg, url, v.rows[url], url !in u.rows, w(|u.log|));
          assert t.log[|u.log|] == LiveTurn(cfg, url, v.rows[url], url !in u.rows, w(|u.log|)).entries[..1][0];
          assert ListedTurn(cfg, w, s, t, url, |u.log|);
        }
      } else if url in listing && EnabledIn(cfg, s, url) {
        var n :| ListedTurn(cfg, w, s, u, url, n);
        assert ListedTurn(cfg, w, s, t, url, n);
      }
    }
  }

  /** The posture of an instance: its row's, or the default when it has none yet. */
  predicate EnabledIn(cfg: Config, s: State, url: Url) {
    if url in s.rows then s.rows[url].discoveryEnabled else cfg.defaultDiscovery
  }

  lemma {:induction false} LivePassEnables(cfg: Config, w: World, s: State, listing: seq<Url>, url: Url)
    ensures EnabledIn(cfg, LivePass(cfg, w, s, listing), url) == EnabledIn(cfg, s, url)
  {
    if listing != [] { LivePassEnables(cfg, w, s, listing[..|listing| - 1], url); }
  }

  ghost predicate ManualTurned(cfg: Config, w: World, s: State, t: State, found: set<Url>, url: Url, n: nat) {
    && AskedAt(w, s, t, url, Manual, n) && url in t.rows
    && (url in found <==> w(n).liveness.IsLive?)
    && (if w(n).liveness.IsLive? then UpToDate(cfg, t.rows[url], w(n)) else url in s.rows && t.rows[url] == s.rows[url])
  }

  lemma {:induction false} ManualPassAsks(cfg: Config, w: World, s: State, live: set<Url>, urls: seq<Url>, url: Url)
    requires cfg.republishIntervalMs > 0 && url in s.rows && url !in live && s.rows[url].discoveryEnabled
    requires forall i, j :: 0 <= i < j < |urls| ==> urls[i] != urls[j]
    ensures var (t, found) := ManualPass(cfg, w, s, live, urls);
      && s.log <= t.log && url in t.rows
      && if url in urls then exists n :: ManualTurned(cfg, w, s, t, found, url, n)
         else url !in found && t.rows[url] == s.rows[url]
  {
    if urls != [] {
      var last := |urls| - 1;
      var (u, before) := ManualPass(cfg, w, s, live, urls[..last]);
      var (t, found) := ManualPass(cfg, w, s, live, urls);
      ManualPassAsks(cfg, w, s, live, urls[..last], url);
      assert urls == urls[..last] + [urls[last]];
      if urls[last] == url {
        assert url !in urls[..last];
        LiveTurnIsCurrent(cfg, url, u.rows[url], false, w(|u.log|));
        assert t.log[|u.log|] == ManualTurn(cfg, url, u.rows[url], w(|u.log|)).entries[..1][0];
        assert ManualTurned(cfg, w, s, t, found, url, |u.log|);
      } else if url in urls {
        var n :| ManualTurned(cfg, w, s, u, before, url, n);
        assert ManualTurned(cfg, w, s, t, found, url, n);
      }
    }
  }

  /** What reconciliation leaves of a row: a live answer clears the count; any other adds to it, and ends
      the stream when that fills it. */
  predicate Reconciled(cfg: Config, row: Row, after: Row, a: Answers) {
    && after.lastLiveness == Some(a.liveness)
    && after.failures == (if a.liveness.IsLive? then 0 else row.failures + 1)
    && (after.status.Ended? <==> !a.liveness.IsLive? && after.failures >= cfg.maxConsecutiveFailures)
    && after.lastPublishedAt == (if after.status.Ended? then Some(a.now) else row.lastPublishedAt)
  }

  ghost predicate GoneTurn(cfg: Config, w: World, s: State, t: State, url: Url, n: nat) {
    && AskedAt(w, s, t, url, Reconcile, n) && url in s.rows && url in t.rows
    && Reconciled(cfg, s.rows[url], t.rows[url], w(n))
  }

  lemma {:induction false} ReconcilePassAsks(cfg: Config, w: World, s: State, live: set<Url>, urls: seq<Url>, url: Url)
    requires url in s.rows && url !in live && s.rows[url].discoveryEnabled && s.rows[url].status.Live?
    requires forall i, j :: 0 <= i < j < |urls| ==> urls[i] != urls[j]
    ensures var t := ReconcilePass(cfg, w, s, live, urls);
      && s.log <= t.log && url in t.rows
      && if url in urls then exists n :: GoneTurn(cfg, w, s, t, url, n) else t.rows[url] == s.rows[url]
  {
    if urls != [] {
      var last := |urls| - 1;
      var u, t := ReconcilePass(cfg, w, s, live, urls[..last]), ReconcilePass(cfg, w, s, live, urls);
      ReconcilePassAsks(cfg, w, s, live, urls[..last], url);
      assert urls == urls[..last] + [urls[last]];
      if urls[last] == url {
        assert url !in urls[..last];
        assert GoneTurn(cfg, w, s, t, url, |u.log|);
      } else if url in urls {
        var n :| GoneTurn(cfg, w, s, u, url, n);
        assert GoneTurn(cfg, w, s, t, url, n);
      }
    }
  }

  lemma {:induction false} PassesKeepLog(cfg: Config, w: World, s: State, live: set<Url>, urls: seq<Url>)
    ensures s.log <= ReconcilePass(cfg, w, s, live, urls).log && s.log <= ManualPass(cfg, w, s, live, urls).0.log
  {
    if urls != [] { PassesKeepLog(cfg, w, s, live, urls[..|urls| - 1]); }
  }

  /** Main theorem on listed instances: a cycle probes every enabled one that the directory lists, and
      leaves it as the probe found it: ended if and only if the probe said so, its answer recorded, its
      profile and its live event published as they now are. */
  lemma ListedAreBridged(cfg: Config, run: seq<State>, inputs: seq<Input>, k: nat, url: Url)
    requires IsRun(cfg, run, inputs) && k < |inputs| && cfg.republishIntervalMs > 0
    requires inputs[k].Cycle? && inputs[k].listing.Some? && url in inputs[k].listing.value
    requires EnabledIn(cfg, run[k], url)
    ensures var w, s, t := inputs[k].world, run[k], run[k + 1]; exists n :: ListedTurn(cfg, w, s, t, url, n)
  {
    var listing, w, s, t := inputs[k].listing.value, inputs[k].world, run[k], run[k + 1];
    RunKeeps(cfg, run, inputs, k);
    assert Step(cfg, s, inputs[k], t);
    var manual, active :| CycleIs(cfg, w, s, listing, manual, active, t);
    var u := LivePass(cfg, w, s, listing);
    var (v, live) := ManualPass(cfg, w, u, Listed(listing), manual);
    LivePassAsks(cfg, w, s, listing, url);
    LivePassKeeps(cfg, w, s, listing);
    ManualPassKeeps(cfg, w, u, Listed(listing), manual);
    ReconcilePassKeeps(cfg, w, v, live, active);
    PassesKeepLog(cfg, w, u, Listed(listing), manual);
    PassesKeepLog(cfg, w, v, live, active);
    var n :| ListedTurn(cfg, w, s, u, url, n);
    assert ListedTurn(cfg, w, s, t, url, n);
  }

  ghost predicate ManualFoundLive(cfg: Config, w: World, s: State, t: State, url: Url, n: nat) {
    AskedAt(w, s, t, url, Manual, n) && w(n).liveness.IsLive? && url in t.rows && UpToDate(cfg, t.rows[url], w(n))
  }

  ghost predicate ManualNotLive(w: World, s: State, t: State, url: Url, n: nat) {
    AskedAt(w, s, t, url, Manual, n) && !w(n).liveness.IsLive?
  }

  /** And on the others: an enabled row that is not listed is probed as a manual one if it is one, and left
      published as live when found so; failing that it is probed again by reconciliation if it counts as
      live, and nothing else happens to it. */
  lemma UnlistedAreReconciled(cfg: Config, run: seq<State>, inputs: seq<Input>, k: nat, url: Url)
    requires IsRun(cfg, run, inputs) && k < |inputs| && cfg.republishIntervalMs > 0
    requires inputs[k].Cycle? && inputs[k].listing.Some? && url !in inputs[k].listing.value
    requires url in run[k].rows && run[k].rows[url].discoveryEnabled
    ensures var w, s, t := inputs[k].world, run[k], run[k + 1];
      || (s.rows[url].manual && exists n :: ManualFoundLive(cfg, w, s, t, url, n))
      || (&& (s.rows[url].manual ==> exists n :: ManualNotLive(w, s, t, url, n))
          && if s.rows[url].status.Live? then exists n :: GoneTurn(cfg, w, s, t, url, n)
             else url in t.rows && t.rows[url] == s.rows[url])
  {
    var listing, w, s, t := inputs[k].listing.value, inputs[k].world, run[k], run[k + 1];
    assert Step(cfg, s, inputs[k], t);
    var manual, active :| CycleIs(cfg, w, s, listing, manual, active, t);
    LivePassAsks(cfg, w, s, listing, url);
    UnlistedPasses(cfg, w, s, listing, manual, active, t, url);
  }

  lemma UnlistedPasses(cfg: Config, w: World, s: State, listing: seq<Url>, manual: seq<Url>, active: seq<Url>,
      t: State, url: Url)
    requires CycleIs(cfg, w, s, listing, manual, active, t) && cfg.republishIntervalMs > 0 && url !in listing
    requires url in s.rows && s.rows[url].discoveryEnabled
    requires var u := LivePass(cfg, w, s, listing); s.log <= u.log && url in u.rows && u.rows[url] == s.rows[url]
    ensures
      || (s.rows[url].manual && exists n :: ManualFoundLive(cfg, w, s, t, url, n))
      || (&& (s.rows[url].manual ==> exists n :: ManualNotLive(w, s, t, url, n))
          && if s.rows[url].status.Live? then exists n :: GoneTurn(cfg, w, s, t, url, n)
             else url in t.rows && t.rows[url] == s.rows[url])
  {
    var u := LivePass(cfg, w, s, listing);
    var (v, live) := ManualPass(cfg, w, u, Listed(listing), manual);
    ManualPassAsks(cfg, w, u, Listed(listing), manual, url);
    PassesKeepLog(cfg, w, v, live, active);
    if url in live {
      var n :| ManualTurned(cfg, w, u, v, live, url, n);
      ReconcileSpares(cfg, w, v, live, active, url);
      assert ManualFoundLive(cfg, w, s, t, url, n);
    } else {
      if s.rows[url].manual {
        var n :| ManualTurned(cfg, w, u, v, live, url, n);
        assert ManualNotLive(w, s, t, url, n);
      }
      assert v.rows[url] == s.rows[url];
      if s.rows[url].status.Live? {
        ReconcilePassAsks(cfg, w, v, live, active, url);
        var n :| GoneTurn(cfg, w, v, t, url, n);
        assert GoneTurn(cfg, w, s, t, url, n);
      } else {
        ReconcileIgnores(cfg, w, v, live, active, url);
      }
    }
  }

  lemma {:induction false} ReconcileSpares(cfg: Config, w: World, s: State, live: set<Url>, urls: seq<Url>, url: Url)
    requires url in live && url in s.rows
    ensures var t := ReconcilePass(cfg, w, s, live, urls); url in t.rows && t.rows[url] == s.rows[url]
  {
    if urls != [] { ReconcileSpares(cfg, w, s, live, urls[..|urls| - 1], url); }
  }

  lemma {:induction false} ReconcileIgnores(cfg: Config, w: World, s: State, live: set<Url>, urls: seq<Url>, url: Url)
    requires url !in urls && url in s.rows
    ensures var t := ReconcilePass(cfg, w, s, live, urls); url in t.rows && t.rows[url] == s.rows[url]
  {
    if urls != [] {
      assert urls[|urls| - 1] in urls;
      ReconcileIgnores(cfg, w, s, live, urls[..|urls| - 1], url);
    }
  }

  /** Enabled after the cycle, and before it too if the row was there. */
  predicate WasEnabled(s: State, t: State, url: Url) {
    url in t.rows && t.rows[url].discoveryEnabled && (url in s.rows ==> s.rows[url].discoveryEnabled)
  }

  ghost predicate TouchesOnlyEnabled(s: State, t: State) {
    forall n :: |s.log| <= n < |t.log| ==> WasEnabled(s, t, t.log[n].url)
  }

  /** A cycle never changes a flag, and probes and publishes only rows that are enabled. */
  lemma CyclesRespectOptOut(cfg: Config, run: seq<State>, inputs: seq<Input>, k: nat)
    requires IsRun(cfg, run, inputs) && k < |inputs| && inputs[k].Cycle?
    ensures forall u :: u in run[k].rows ==> u in run[k + 1].rows && SameFlags(run[k].rows[u], run[k + 1].rows[u])
    ensures run[k].log <= run[k + 1].log
    ensures TouchesOnlyEnabled(run[k], run[k + 1])
  {
    RunKeeps(cfg, run, inputs, k);
    StepKeeps(cfg, run[k], inputs[k], run[k + 1]);
  }

  lemma {:induction false} LivePassAdvancesNothing(cfg: Config, w: World, s: State, listing: seq<Url>, url: Url)
    requires url in s.rows
    ensures var t := LivePass(cfg, w, s, listing);
      && url in t.rows && t.rows[url].failures <= s.rows[url].failures
      && (!s.rows[url].discoveryEnabled ==> t.rows[url] == s.rows[url])
      && SameFlags(s.rows[url], t.rows[url])
  {
    if listing != [] { LivePassAdvancesNothing(cfg, w, s, listing[..|listing| - 1], url); }
  }

  lemma {:induction false} OptedOutIsUntouched(cfg: Config, w: World, s: State, live: set<Url>, urls: seq<Url>,
      url: Url)
    requires url in s.rows && !s.rows[url].discoveryEnabled
    ensures var (t, _) := ManualPass(cfg, w, s, live, urls); url in t.rows && t.rows[url] == s.rows[url]
    ensures var t := ReconcilePass(cfg, w, s, live, urls); url in t.rows && t.rows[url] == s.rows[url]
  {
    if urls != [] { OptedOutIsUntouched(cfg, w, s, live, urls[..|urls| - 1], url); }
  }

  /** Only being away advances the count: an outage changes nothing at all, a cycle that lists the
      instance never raises its count whatever the probes answer, and a row that is opted out stays
      exactly as it was. */
  lemma OnlyAbsenceCounts(cfg: Config, run: seq<State>, inputs: seq<Input>, k: nat, url: Url)
    requires IsRun(cfg, run, inputs) && k < |inputs| && inputs[k].Cycle? && url in run[k].rows
    ensures inputs[k].listing.None? ==> run[k + 1] == run[k]
    ensures url in run[k + 1].rows
    ensures inputs[k].listing.Some? && url in inputs[k].listing.value ==>
      run[k + 1].rows[url].failures <= run[k].rows[url].failures
    ensures !run[k].rows[url].discoveryEnabled ==> run[k + 1].rows[url] == run[k].rows[url]
  {
    RunKeeps(cfg, run, inputs, k);
    var s, t := run[k], run[k + 1];
    assert Step(cfg, s, inputs[k], t);
    StepKeeps(cfg, s, inputs[k], t);
    if inputs[k].listing.Some? {
      var listing, w := inputs[k].listing.value, inputs[k].world;
      var manual, active :| CycleIs(cfg, w, s, listing, manual, active, t);
      CycleAdvances(cfg, w, s, listing, manual, active, t, url);
    }
  }

  lemma CycleAdvances(cfg: Config, w: World, s: State, listing: seq<Url>, manual: seq<Url>, active: seq<Url>,
      t: State, url: Url)
    requires Ok(cfg, s) && CycleIs(cfg, w, s, listing, manual, active, t) && url in s.rows
    ensures url in t.rows
    ensures url in listing ==> t.rows[url].failures <= s.rows[url].failures
    ensures !s.rows[url].discoveryEnabled ==> t.rows[url] == s.rows[url]
  {
    var afterLive := LivePass(cfg, w, s, listing);
    var (afterManual, live) := ManualPass(cfg, w, afterLive, Listed(listing), manual);
    LivePassKeeps(cfg, w, s, listing);
    LivePassAdvancesNothing(cfg, w, s, listing, url);
    ManualPassKeeps(cfg, w, afterLive, Listed(listing), manual);
    ReconcilePassKeeps(cfg, w, afterManual, live, active);
    if !s.rows[url].discoveryEnabled {
      OptedOutIsUntouched(cfg, w, afterLive, Listed(listing), manual, url);
      OptedOutIsUntouched(cfg, w, afterManual, live, active, url);
    }
  }

  /** Being listed again restarts the count only if the probe answers: after a probe error the misses
      from before are carried over, so the next miss may end the stream by itself. */
  lemma ErrorsCarryMissesOver(cfg: Config, url: Url, row: Row, a: Answers, b: Answers)
    requires row.discoveryEnabled && !a.liveness.HasEnded? && !b.liveness.IsLive?
    ensures var back := LiveTurn(cfg, url, row, false, a).row; var gone := ReconcileTurn(cfg, url, back, b);
      && back.status.Live?
      && (gone.row.status.Ended? <==>
            (if a.liveness.ProbeError? then row.failures + 1 else 1) >= cfg.maxConsecutiveFailures)
      && (gone.row.status.Ended? <==> Published(url, Reconcile, Ended, None, b.now) in gone.entries)
  {
    var gone := ReconcileTurn(cfg, url, LiveTurn(cfg, url, row, false, a).row, b);
    assert Probed(url, Reconcile, b.liveness) != Published(url, Reconcile, Ended, None, b.now);
    if gone.row.status.Ended? { assert gone.entries[1] == Published(url, Reconcile, Ended, None, b.now); }
  }

  // ---------------------------------------------------------------- a stream that ends after one miss

  /** A world that gives the same answers all through a cycle. */
  function Always(a: Answers): World { (n: nat) => a }

  /** The store holds one row, discovered, enabled and live. */
  ghost predicate OneLive(s: State, url: Url) {
    && s.rows.Keys == {url}
    && var row := s.rows[url]; !row.manual && row.status.Live? && row.discoveryEnabled
  }

  ghost predicate Reachable(cfg: Config, s: State) {
    exists run, inputs :: IsRun(cfg, run, inputs) && run[|inputs|] == s
  }

  lemma Go(cfg: Config, s: State, i: Input, t: State)
    requires Reachable(cfg, s) && Step(cfg, s, i, t)
    ensures Reachable(cfg, t)
  {
    var run, inputs :| IsRun(cfg, run, inputs) && run[|inputs|] == s;
    var run', inputs' := run + [t], inputs + [i];
    assert IsRun(cfg, run', inputs') && run'[|inputs'|] == t;
  }

  /** A cycle that lists just this instance, and whose probe does not say it has ended. */
  lemma ListedCycle(cfg: Config, s: State, url: Url, a: Answers)
    requires (s.rows == map[] && cfg.defaultDiscovery) || OneLive(s, url)
    requires !a.liveness.HasEnded?
    ensures var t := ProcessLive(cfg, Always(a), s, url);
      Step(cfg, s, Cycle(Some([url]), Always(a)), t) && OneLive(t, url)
  {
    var w, listing := Always(a), [url];
    var t := ProcessLive(cfg, w, s, url);
    assert listing[..0] == [];
    assert LivePass(cfg, w, s, listing) == t;
    var none: seq<Url> := [];
    assert ManualPass(cfg, w, t, Listed(listing), none) == (t, Listed(listing));
    assert url in Listed(listing);
    assert ReconcilePass(cfg, w, t, Listed(listing), listing) == t;
    assert CycleIs(cfg, w, s, listing, none, listing, t);
  }

  /** A cycle that does not list it. */
  lemma AbsentCycle(cfg: Config, s: State, url: Url, a: Answers)
    requires OneLive(s, url)
    ensures Step(cfg, s, Cycle(Some([]), Always(a)), Apply(s, url, ReconcileTurn(cfg, url, s.rows[url], a)))
  {
    var w, active := Always(a), [url];
    var t := Apply(s, url, ReconcileTurn(cfg, url, s.rows[url], a));
    var none: seq<Url> := [];
    assert LivePass(cfg, w, s, none) == s && Listed(none) == {};
    assert ManualPass(cfg, w, s, {}, none) == (s, {});
    assert active[..0] == [];
    assert ReconcilePass(cfg, w, s, {}, active) == t;
    assert CycleIs(cfg, w, s, none, none, active, t);
  }

  lemma {:induction false} MissedTimes(cfg: Config, url: Url, misses: nat) returns (s: State)
    requires cfg.defaultDiscovery && misses < cfg.maxConsecutiveFailures
    ensures Reachable(cfg, s) && OneLive(s, url) && s.rows[url].failures == misses
  {
    if misses == 0 {
      var empty, a := State(map[], []), Answers(IsLive, Unread, "", 0);
      assert IsRun(cfg, [empty], []);
      assert Reachable(cfg, empty);
      ListedCycle(cfg, empty, url, a);
      s := ProcessLive(cfg, Always(a), empty, url);
      Go(cfg, empty, Cycle(Some([url]), Always(a)), s);
    } else {
      var before := MissedTimes(cfg, url, misses - 1);
      var a := Answers(ProbeError, Unread, "", 0);
      AbsentCycle(cfg, before, url, a);
      s := Apply(before, url, ReconcileTurn(cfg, url, before.rows[url], a));
      Go(cfg, before, Cycle(Some([]), Always(a)), s);
    }
  }

  /** Such a run from an empty store, whatever the limit: the instance is one miss short of it, is listed
      again while its probe errs, which publishes it as live, and then ends at the very next miss. */
  lemma EndsAfterOneMiss(cfg: Config, url: Url) returns (s: State, t: State, u: State)
    requires cfg.defaultDiscovery && cfg.maxConsecutiveFailures >= 1
    ensures Reachable(cfg, s) && url in s.rows && s.rows[url].failures == cfg.maxConsecutiveFailures - 1
    ensures Step(cfg, s, Cycle(Some([url]), Always(Answers(ProbeError, Unread, "", 0))), t)
    ensures url in t.rows && t.rows[url].status.Live? && t.rows[url].failures == s.rows[url].failures
    ensures Step(cfg, t, Cycle(Some([]), Always(Answers(ProbeError, Unread, "", 0))), u) && Reachable(cfg, u)
    ensures url in u.rows && u.rows[url].status.Ended?
    ensures |t.log| < |u.log| && u.log[|u.log| - 1] == Published(url, Reconcile, Ended, None, 0)
  {
    var a := Answers(ProbeError, Unread, "", 0);
    s := MissedTimes(cfg, url, cfg.maxConsecutiveFailures - 1);
    ListedCycle(cfg, s, url, a);
    t := ProcessLive(cfg, Always(a), s, url);
    Go(cfg, s, Cycle(Some([url]), Always(a)), t);
    AbsentCycle(cfg, t, url, a);
    u := Apply(t, url, ReconcileTurn(cfg, url, t.rows[url], a));
    Go(cfg, t, Cycle(Some([]), Always(a)), u);
  }

  // ---------------------------------------------------------------- the store and the engine

  /** The columns an update sets; None leaves a column alone. */
  datatype Fields = Fields(
    status: Option<Status>,
    lastLiveness: Option<Liveness>,
    failures: Option<nat>,
    lastPublishedAt: Option<int>,
    viewerCount: Option<Option<int>>,
    profileHash: Option<string>)

  const NO_FIELDS := Fields(None, None, None, None, None, None)

  function Updated(row: Row, f: Fields): Row {
    row.(status := if f.status.Some? then f.status.value else row.status,
         lastLiveness := if f.lastLiveness.Some? then f.lastLiveness else row.lastLiveness,
         failures := if f.failures.Some? then f.failures.value else row.failures,
         lastPublishedAt := if f.lastPublishedAt.Some? then f.lastPublishedAt else row.lastPublishedAt,
         viewerCount := if f.viewerCount.Some? then f.viewerCount.value else row.viewerCount,
         profileHash := if f.profileHash.Some? then f.profileHash else row.profileHash)
  }

  datatype Listing = Listing(url: Url, row: Row)

  function UrlsOf(listings: seq<Listing>): seq<Url> {
    seq(|listings|, i requires 0 <= i < |listings| => listings[i].url)
  }

  class InstanceStore {
    var rows: map<Url, Row>

    constructor ()
      ensures rows == map[]
    {
      rows := map[];
    }

    method UpsertSeen(cfg: Config, url: Url) returns (row: Row, isNew: bool)
      modifies this
      ensures isNew <==> url !in old(rows)
      ensures rows == if isNew then old(rows)[url := Fresh(cfg)] else old(rows)
      ensures url in rows && row == rows[url]
    {
      isNew := url !in rows;
      if isNew { rows := rows[url := Fresh(cfg)]; }
      row := rows[url];
    }

    method Update(url: Url, fields: Fields)
      modifies this
      ensures rows == if url in old(rows) then old(rows)[url := Updated(old(rows)[url], fields)] else old(rows)
    {
      if url in rows { rows := rows[url := Updated(rows[url], fields)]; }
    }

    /** The rows that qualify, each once, in no particular order. */
    method List(which: Row -> bool) returns (listings: seq<Listing>)
      ensures Lists(UrlsOf(listings), rows, which)
      ensures forall l :: l in listings ==> l.url in rows && rows[l.url] == l.row
    {
      listings := [];
      var todo := rows.Keys;
      while todo != {}
        invariant todo <= rows.Keys
        invariant forall i, j :: 0 <= i < j < |listings| ==> listings[i].url != listings[j].url
        invariant forall l :: l in listings ==> l.url in rows && l.url !in todo && rows[l.url] == l.row && which(l.row)
        invariant forall u :: u in rows && u !in todo && which(rows[u]) ==> Listing(u, rows[u]) in listings
        decreases |todo|
      {
        var u :| u in todo;
        todo := todo - {u};
        if which(rows[u]) { listings := listings + [Listing(u, rows[u])]; }
      }
      forall u ensures u in UrlsOf(listings) <==> u in rows && which(rows[u]) {
        if u in rows && which(rows[u]) {
          var i :| 0 <= i < |listings| && listings[i] == Listing(u, rows[u]);
          assert UrlsOf(listings)[i] == u;
        }
      }
    }
  }

  class DiscoveryBridgeService {
    const cfg: Config
    const world: World
    const store: InstanceStore
    var log: seq<Entry>

    ghost function View(): State reads this, store { State(store.rows, log) }

    constructor (cfg: Config, world: World, store: InstanceStore)
      ensures this.cfg == cfg && this.world == world && this.store == store && log == []
    {
      this.cfg, this.world, this.store, log := cfg, world, store, [];
    }

    /** One full poll cycle over what the directory returned; None when fetching it failed. */
    method RunCycle(live: Option<seq<Url>>)
      modifies this, store
      ensures Step(cfg, old(View()), Cycle(live, world), View())
    {
      if live.None? { return; }
      var listing := live.value;
      ghost var s := View();
      var liveUrls: set<Url> := {};
      for i := 0 to |listing|
        invariant View() == LivePass(cfg, world, s, listing[..i])
        invariant liveUrls == Listed(listing[..i])
      {
        assert listing[..i + 1][..i] == listing[..i];
        assert listing[..i + 1] == listing[..i] + [listing[i]];
        liveUrls := liveUrls + {listing[i]};
        TakeLiveTurn(listing[i]);
      }
      assert listing[..|listing|] == listing;
      ghost var manual;
      liveUrls, manual := ManualRows(liveUrls);
      ghost var active := ReconcileDisappeared(liveUrls);
      assert CycleIs(cfg, world, s, listing, manual, active, View());
    }

    method MaybePublishProfile(url: Url, row: Row, hash: string)
      modifies this, store
      ensures log == old(log) + ProfileEntries(url, row, hash)
      ensures url in old(store.rows) && row == old(store.rows)[url] ==>
        store.rows == old(store.rows)[url := row.(profileHash := Some(hash))]
    {
      if row.profileHash == Some(hash) {
        assert url in store.rows && row == store.rows[url] ==>
          store.rows[url := row.(profileHash := Some(hash))] == store.rows;
        return;
      }
      log := log + [ProfilePublished(url, hash)];
      store.Update(url, NO_FIELDS.(profileHash := Some(hash)));
    }

    method TakeLiveTurn(url: Url)
      modifies this, store
      ensures View() == ProcessLive(cfg, world, old(View()), url)
    {
      ghost var s := View();
      var a := world(|log|);
      var row, isNew := store.UpsertSeen(cfg, url);
      ghost var u := View();
      if !row.discoveryEnabled {
        assert Apply(u, url, Turn(row, [])).log == u.log;
        return;
      }
      CheckListed(url, row, isNew, a);
    }

    method CheckListed(url: Url, row: Row, isNew: bool, a: Answers)
      requires url in store.rows && store.rows[url] == row && row.discoveryEnabled
      modifies this, store
      ensures View() == Apply(old(View()), url, LiveTurn(cfg, url, row, isNew, a))
    {
      ghost var u, t := View(), LiveTurn(cfg, url, row, isNew, a);
      log := log + [Probed(url, Directory, a.liveness)];
      var status := if a.liveness.HasEnded? then Ended else Live;
      MaybePublishProfile(url, row, a.profile);
      var polled := if status.Live? then a.viewers else Unread;
      var shouldPublish := isNew || row.status != status || RepublishDue(cfg, row, a.now)
        || ViewersChanged(polled, row.viewerCount);
      if shouldPublish { log := log + [Published(url, Directory, status, Shown(polled, row.viewerCount), a.now)]; }
      assert log == u.log + t.entries;
      var fields := NO_FIELDS.(
        status := Some(status), lastLiveness := Some(a.liveness),
        failures := Some(if a.liveness.ProbeError? then row.failures else 0),
        lastPublishedAt := if shouldPublish then Some(a.now) else None,
        viewerCount := if shouldPublish && !polled.Unread? then Some(Read(polled)) else None);
      assert Updated(row.(profileHash := Some(a.profile)), fields) == t.row;
      store.Update(url, fields);
    }

    method ManualRows(liveUrls: set<Url>) returns (found: set<Url>, ghost urls: seq<Url>)
      modifies this, store
      ensures Lists(urls, old(store.rows), (row: Row) => row.manual)
      ensures (View(), found) == ManualPass(cfg, world, old(View()), liveUrls, urls)
    {
      ghost var s := View();
      found := liveUrls;
      var listings := store.List((row: Row) => row.manual);
      urls := UrlsOf(listings);
      for i := 0 to |listings|
        invariant (View(), found) == ManualPass(cfg, world, s, liveUrls, urls[..i])
        invariant forall j :: i <= j < |listings| ==>
          listings[j].url in store.rows && store.rows[listings[j].url] == listings[j].row
      {
        assert urls[..i + 1][..i] == urls[..i];
        forall j | i < j < |listings| ensures listings[j].url != listings[i].url {
          assert urls[i] != urls[j];
        }
        found := TakeManualTurn(found, listings[i].url, listings[i].row);
      }
      assert urls[..|urls|] == urls;
    }

    method TakeManualTurn(live: set<Url>, url: Url, row: Row) returns (found: set<Url>)
      requires url in store.rows && store.rows[url] == row
      modifies this, store
      ensures View() == ProcessManual(cfg, world, old(View()), live, url)
      ensures found == LiveAfterManual(world, old(View()), live, url)
      ensures forall u :: u in old(store.rows) && u != url ==> u in store.rows && store.rows[u] == old(store.rows)[u]
    {
      ghost var s := View();
      found := live;
      if url in live { return; }
      if !row.discoveryEnabled {
        assert s.log + [] == s.log && s.rows[url := row] == s.rows;
        return;
      }
      var a := world(|log|);
      log := log + [Probed(url, Manual, a.liveness)];
      if !a.liveness.IsLive? {
        assert s.rows[url := row] == s.rows;
        return;
      }
      found := found + {url};
      KeepManualLive(url, row, a);
      assert log == s.log + ManualTurn(cfg, url, row, a).entries;
    }

    /** A manual row that is live: its profile, and its live event when one is due. */
    method KeepManualLive(url: Url, row: Row, a: Answers)
      requires url in store.rows && store.rows[url] == row && row.discoveryEnabled && a.liveness.IsLive?
      modifies this, store
      ensures log == old(log) + ManualTurn(cfg, url, row, a).entries[1..]
      ensures store.rows == old(store.rows)[url := ManualTurn(cfg, url, row, a).row]
    {
      ghost var t := ManualTurn(cfg, url, row, a);
      MaybePublishProfile(url, row, a.profile);
      var fields := NO_FIELDS.(status := Some(Live), lastLiveness := Some(a.liveness), failures := Some(0));
      if row.status.Ended? || RepublishDue(cfg, row, a.now) || ViewersChanged(a.viewers, row.viewerCount) {
        log := log + [Published(url, Manual, Live, Shown(a.viewers, row.viewerCount), a.now)];
        fields := fields.(lastPublishedAt := Some(a.now),
                          viewerCount := if !a.viewers.Unread? then Some(Read(a.viewers)) else None);
      }
      assert Updated(row.(profileHash := Some(a.profile)), fields) == t.row;
      store.Update(url, fields);
    }

    method ReconcileDisappeared(liveUrls: set<Url>) returns (ghost urls: seq<Url>)
      modifies this, store
      ensures Lists(urls, old(store.rows), (row: Row) => row.status.Live?)
      ensures View() == ReconcilePass(cfg, world, old(View()), liveUrls, urls)
    {
      ghost var s := View();
      var listings := store.List((row: Row) => row.status.Live?);
      urls := UrlsOf(listings);
      for i := 0 to |listings|
        invariant View() == ReconcilePass(cfg, world, s, liveUrls, urls[..i])
        invariant forall j :: i <= j < |listings| ==>
          listings[j].url in store.rows && store.rows[listings[j].url] == listings[j].row
      {
        assert urls[..i + 1][..i] == urls[..i];
        forall j | i < j < |listings| ensures listings[j].url != listings[i].url {
          assert urls[i] != urls[j];
        }
        TakeReconcileTurn(liveUrls, listings[i].url, listings[i].row);
      }
      assert urls[..|urls|] == urls;
    }

    method TakeReconcileTurn(live: set<Url>, url: Url, row: Row)
      requires url in store.rows && store.rows[url] == row
      modifies this, store
      ensures View() == ProcessGone(cfg, world, old(View()), live, url)
      ensures forall u :: u in old(store.rows) && u != url ==> u in store.rows && store.rows[u] == old(store.rows)[u]
    {
      ghost var s := View();
      if url in live { return; }
      if !row.discoveryEnabled {
        assert s.log + [] == s.log && s.rows[url := row] == s.rows;
        return;
      }
      var a := world(|log|);
      log := log + [Probed(url, Reconcile, a.liveness)];
      if a.liveness.IsLive? {
        store.Update(url, NO_FIELDS.(failures := Some(0), lastLiveness := Some(IsLive)));
        return;
      }
      var failures := row.failures + 1;
      if failures < cfg.maxConsecutiveFailures {
        store.Update(url, NO_FIELDS.(failures := Some(failures), lastLiveness := Some(a.liveness)));
        return;
      }
      log := log + [Published(url, Reconcile, Ended, None, a.now)];
      store.Update(url, NO_FIELDS.(
        status := Some(Ended), lastLiveness := Some(a.liveness), failures := Some(failures),
        lastPublishedAt := Some(a.now)));
      ghost var t := ReconcileTurn(cfg, url, row, a);
      assert log == s.log + t.entries;
    }
  }
}
