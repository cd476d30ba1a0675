/** The batch enrichment of one import as a protocol: every interleaving of the courts' chains,
    with snapshots that go stale between scan and apply, redeliveries, lost acknowledgements,
    workers that die, archived steps and single-path re-polls in between. */
module BatchProtocol {
  import opened Wrappers
  import opened CourtRecords
  import opened Enrichment
  import opened EnrichmentLaws
  import opened EnrichmentBatch
  import opened BatchLaws
  import opened EnrichmentRuns

  /** A delivery between its scan and its write. One that never writes has died; one that
      writes twice stands for two deliveries with the same snapshot. */
  datatype Worker = Scan(step: BatchStep, due: seq<DueRecord>) | Drained(step: BatchStep)

  /** One applied step: what it marked attempted, what it graded, what it could not parse. */
  datatype Entry = Entry(step: BatchStep, marked: set<RecordId>, graded: set<RecordId>, errs: nat)

  /** `next` is each court's newest published pass; `log` the applied steps, oldest first. */
  datatype State = State(
    t: Tables, workers: set<Worker>, acked: set<BatchStep>, archived: set<BatchStep>,
    next: map<Court, nat>, log: seq<Entry>)

  datatype Action =
    | Deliver(step: BatchStep)
    | Apply(step: BatchStep, due: seq<DueRecord>, hits: Hits, errs: nat, nextSync: Instant, ack: bool)
    | CloseImport(step: BatchStep, ack: bool)
    | ArchiveStep(step: BatchStep)
    | Poll(ev: ObservedEvent, fetched: Fetched, nextSync: Instant)

  predicate Published(t: Tables, step: BatchStep) {
    BatchRequested(step) in t.outbox
  }

  function GradedIds(due: seq<DueRecord>, hits: Hits): set<RecordId> {
    set d | d in due && Gradable(d, hits) :: d.id
  }

  function EntryOf(step: BatchStep, due: seq<DueRecord>, hits: Hits, errs: nat): Entry {
    Entry(step, Ids(due), GradedIds(due, hits), errs)
  }

  ghost predicate Enabled(s: State, a: Action, reports: Reports) {
    match a
    case Deliver(step) => Published(s.t, step)
    case Apply(step, due, hits, errs, nextSync, ack) => Scan(step, due) in s.workers && HitsFor(hits, reports)
    case CloseImport(step, ack) => Drained(step) in s.workers
    case ArchiveStep(step) => Published(s.t, step)
    case Poll(ev, fetched, nextSync) => ObservationOf(s.t, ev, fetched, reports)
  }

  ghost function Acknowledged(acked: set<BatchStep>, step: BatchStep, ack: bool): set<BatchStep> {
    if ack then acked + {step} else acked
  }

  ghost function After(s: State, a: Action): State {
    match a
    case Deliver(step) =>
      var due := SelectDue(s.t.records, step.court, ENRICHMENT_BATCH_SCAN_LIMIT);
      s.(workers := s.workers + {if due == [] then Drained(step) else Scan(step, due)})
    case Apply(step, due, hits, errs, nextSync, ack) =>
      var acked := s.(acked := Acknowledged(s.acked, step, ack));
      if BatchDone(step) in s.t.processed then acked
      else
        (match ApplyTx(s.t, step, due, hits, errs, nextSync)
         case Err(_) => s
         case Ok(t) =>
           acked.(t := t, next := s.next[step.court := step.pass + 1],
                  log := s.log + [EntryOf(step, due, hits, errs)]))
    case CloseImport(step, ack) => s.(t := CloseTx(s.t), acked := Acknowledged(s.acked, step, ack))
    case ArchiveStep(step) => s.(archived := s.archived + {step})
    case Poll(ev, fetched, nextSync) =>
      s.(t := if Triage(ev, fetched).Some? then s.t else Committed(s.t, EnrichTx(s.t, ev, fetched.process, nextSync)))
  }

  /** The import as discovery leaves it: one first step for every court with due records, and
      every court has a name, or its steps would be acknowledged unread. */
  ghost predicate Init(s: State, reports: Reports) {
    && Sound(s.t, reports) && s.t.run == None
    && s.workers == {} && s.acked == {} && s.archived == {} && s.log == []
    && s.next.Keys != {} && "" !in s.next
    && (forall r | r in s.t.records && Due(s.t.records[r]) :: s.t.records[r].court in s.next)
    && (forall c | c in s.next :: s.next[c] == 0)
    && (forall step :: Count(s.t, BatchRequested(step)) == if step.court in s.next && step.pass == 0 then 1 else 0)
    && (forall step :: BatchDone(step) !in s.t.processed)
  }

  /** `ss` is what the actions `as_` make of `ss[0]`, one after the other. */
  ghost predicate Continues(ss: seq<State>, as_: seq<Action>, reports: Reports) {
    && |ss| == |as_| + 1
    && forall i | 0 <= i < |as_| :: Enabled(ss[i], as_[i], reports) && ss[i + 1] == After(ss[i], as_[i])
  }

  ghost predicate Execution(ss: seq<State>, as_: seq<Action>, reports: Reports) {
    Continues(ss, as_, reports) && Init(ss[0], reports)
  }

  // ---- The scan ----

  ghost predicate DistinctIds(due: seq<DueRecord>) {
    forall i, j | 0 <= i < j < |due| :: due[i].id < due[j].id
  }

  /** ORDER BY id LIMIT lim: in order, nothing but the rows asked for, nothing smaller left out. */
  ghost predicate FirstRows(records: map<RecordId, CourtRecord>, ids: set<RecordId>, lim: nat, due: seq<DueRecord>)
    requires ids <= records.Keys
  {
    && |due| <= lim && DistinctIds(due)
    && (forall d | d in due :: d.id in ids && d.cnj == records[d.id].cnj)
    && (forall o, d | o in ids && o !in Ids(due) && d in due :: d.id < o)
    && (Ids(due) == ids || |due| == lim)
  }

  lemma {:induction false} ScanLaw(records: map<RecordId, CourtRecord>, ids: set<RecordId>, lim: nat)
    requires ids <= records.Keys
    ensures FirstRows(records, ids, lim, ScanFrom(records, ids, lim))
    decreases lim
  {
    var due := ScanFrom(records, ids, lim);
    if lim > 0 && ids != {} {
      var first, rest := due[0], due[1..];
      assert due == [first] + rest;
      ScanLaw(records, ids - {first.id}, lim - 1);
      LeastExists(ids);
      assert forall o | o in ids :: first.id <= o;
      assert rest == ScanFrom(records, ids - {first.id}, lim - 1);
      LeastFirst(records, ids, lim, first, rest);
    } else {
      assert due == [] && Ids(due) == {};
    }
  }

  lemma LeastFirst(records: map<RecordId, CourtRecord>, ids: set<RecordId>, lim: nat, first: DueRecord, rest: seq<DueRecord>)
    requires ids <= records.Keys && lim > 0
    requires first.id in ids && first.cnj == records[first.id].cnj && forall o | o in ids :: first.id <= o
    requires FirstRows(records, ids - {first.id}, lim - 1, rest)
    ensures FirstRows(records, ids, lim, [first] + rest)
  {
    var due := [first] + rest;
    assert forall d :: d in due <==> d == first || d in rest;
    assert Ids(due) == {first.id} + Ids(rest);
    assert Ids(rest) == ids - {first.id} ==> Ids(due) == ids;
    LeastFirstDistinct(first, rest);
  }

  lemma LeastFirstDistinct(first: DueRecord, rest: seq<DueRecord>)
    requires DistinctIds(rest) && forall d | d in rest :: first.id < d.id
    ensures DistinctIds([first] + rest)
  {
    var due := [first] + rest;
    forall i, j | 0 <= i < j < |due| ensures due[i].id < due[j].id {
      assert due[j] == rest[j - 1] && due[j] in rest;
    }
  }

  lemma GradedIdsGrow(due: seq<DueRecord>, hits: Hits)
    requires due != []
    ensures var n := |due| - 1;
            GradedIds(due, hits) == GradedIds(due[..n], hits) + if Gradable(due[n], hits) then {due[n].id} else {}
  {
    assert forall d :: d in due <==> d in due[..|due| - 1] || d == due[|due| - 1];
  }

  lemma {:induction false} GradedCountIsGradedIds(due: seq<DueRecord>, hits: Hits)
    requires DistinctIds(due)
    ensures |GradedIds(due, hits)| == GradedCount(due, hits)
  {
    if due == [] {
      assert GradedIds(due, hits) == {};
    } else {
      var n := |due| - 1;
      GradedCountIsGradedIds(due[..n], hits);
      GradedIdsGrow(due, hits);
      assert forall d | d in due[..n] :: d.id < due[n].id;
    }
  }

  // ---- What every reachable state keeps ----

  function Marked(log: seq<Entry>): set<RecordId> {
    if log == [] then {} else Marked(log[..|log| - 1]) + log[|log| - 1].marked
  }

  function SumGraded(log: seq<Entry>): nat {
    if log == [] then 0 else SumGraded(log[..|log| - 1]) + |log[|log| - 1].graded|
  }

  function SumErrs(log: seq<Entry>): nat {
    if log == [] then 0 else SumErrs(log[..|log| - 1]) + log[|log| - 1].errs
  }

  ghost predicate Exclusive(log: seq<Entry>) {
    forall i, j | 0 <= i < j < |log| :: log[i].marked !! log[j].marked && log[i].step != log[j].step
  }

  ghost predicate Applied(log: seq<Entry>, step: BatchStep) {
    exists e :: e in log && e.step == step
  }

  /** Per court the passes 0..next are published, each once, and all but the newest are done. */
  ghost predicate Chained(s: State) {
    && (forall step :: Count(s.t, BatchRequested(step)) == if step.court in s.next && step.pass <= s.next[step.court] then 1 else 0)
    && (forall step :: BatchDone(step) in s.t.processed <==> step.court in s.next && step.pass < s.next[step.court])
    && (forall step :: BatchDone(step) in s.t.processed <==> Applied(s.log, step))
    && (forall step | step in s.acked :: Published(s.t, step))
  }

  /** A snapshot taken of a court: rows that were due there when the import began. */
  ghost predicate SnapshotOf(t0: Tables, due: seq<DueRecord>, court: Court) {
    && due != [] && DistinctIds(due)
    && forall d | d in due :: d.id in DueIdsOf(t0.records, court) && t0.records[d.id].cnj == d.cnj
  }

  ghost predicate Untouched(records: map<RecordId, CourtRecord>, due: seq<DueRecord>) {
    forall d | d in due :: d.id in records && !records[d.id].attempted
  }

  /** A stale snapshot of a step not yet applied still holds only unattempted rows. */
  ghost predicate WorkerOk(t0: Tables, s: State, w: Worker) {
    && Published(s.t, w.step)
    && match w
       case Scan(step, due) => SnapshotOf(t0, due, step.court) && (BatchDone(step) in s.t.processed || Untouched(s.t.records, due))
       case Drained(step) => DueIdsOf(s.t.records, step.court) == {}
  }

  ghost predicate WorkersOk(t0: Tables, s: State) {
    forall w | w in s.workers :: WorkerOk(t0, s, w)
  }

  ghost predicate EntryOk(t0: Tables, e: Entry) {
    e.marked != {} && e.marked <= DueIdsOf(t0.records, e.step.court) && e.graded <= e.marked
  }

  ghost predicate Logged(t0: Tables, s: State) {
    && (forall e | e in s.log :: EntryOk(t0, e))
    && Exclusive(s.log)
    && forall r | r in t0.records && r in s.t.records :: s.t.records[r].attempted <==> t0.records[r].attempted || r in Marked(s.log)
  }

  ghost predicate Counted(run: Option<EnrichmentRun>, log: seq<Entry>) {
    match run
    case None => SumGraded(log) == 0 && SumErrs(log) == 0
    case Some(r) => r.updated == SumGraded(log) && r.errors == SumErrs(log)
  }

  predicate Quiet(s: State) {
    forall c | c in s.next :: BatchStep(c, s.next[c]) in s.acked
  }

  ghost predicate Settling(t0: Tables, s: State) {
    && (forall r | r in t0.records && Due(t0.records[r]) :: t0.records[r].court in s.next)
    && (forall c | c in s.next && BatchStep(c, s.next[c]) in s.acked :: DueIdsOf(s.t.records, c) == {})
    && (s.next.Keys != {})
    && (Quiet(s) ==> s.t.run.Some? && s.t.run.value.status == TerminalStatus(s.t.run.value.errors))
  }

  ghost predicate Inv(t0: Tables, s: State, reports: Reports) {
    && Sound(s.t, reports) && RecordsProgress(t0.records, s.t.records)
    && Chained(s) && WorkersOk(t0, s) && Logged(t0, s) && Counted(s.t.run, s.log) && Settling(t0, s)
  }

  lemma InitHolds(s: State, reports: Reports)
    requires Init(s, reports)
    ensures Inv(s.t, s, reports)
  {
    var c := Pick(s.next.Keys);
    assert BatchStep(c, s.next[c]) !in s.acked;
  }

  // ---- Tables that move under the protocol's feet ----

  /** A transaction that marks nothing, finishes no step and publishes none. */
  ghost predicate Aside(t: Tables, u: Tables, reports: Reports) {
    Sound(u, reports) && Beside(t, u)
  }

  ghost predicate Beside(t: Tables, u: Tables) {
    && RecordsProgress(t.records, u.records)
    && (forall r | r in t.records :: u.records[r].attempted == t.records[r].attempted)
    && (forall step :: BatchDone(step) in u.processed <==> BatchDone(step) in t.processed)
    && (forall step :: Count(u, BatchRequested(step)) == Count(t, BatchRequested(step)))
  }

  lemma DueShrinks(before: map<RecordId, CourtRecord>, after: map<RecordId, CourtRecord>, court: Court)
    requires RecordsProgress(before, after)
    ensures DueIdsOf(after, court) <= DueIdsOf(before, court) && DueIds(after) <= DueIds(before)
  {
    forall r | r in DueIds(after) ensures r in before && Due(before[r]) && before[r].court == after[r].court {
      assert r in after.Keys && r in before.Keys;
    }
  }

  lemma AsideKeepsWorkers(t0: Tables, s: State, u: Tables, reports: Reports)
    requires WorkersOk(t0, s) && Aside(s.t, u, reports)
    ensures WorkersOk(t0, s.(t := u))
  {
    forall w | w in s.workers ensures WorkerOk(t0, s.(t := u), w) {
      assert WorkerOk(t0, s, w);
      assert Count(u, BatchRequested(w.step)) == Count(s.t, BatchRequested(w.step));
      DueShrinks(s.t.records, u.records, w.step.court);
      assert u.records.Keys == s.t.records.Keys;
    }
  }

  lemma AsideKeepsChain(s: State, u: Tables, reports: Reports)
    requires Chained(s) && Aside(s.t, u, reports)
    ensures Chained(s.(t := u))
  {
    forall step | step in s.acked ensures Published(u, step) {
      assert Published(s.t, step) && Count(u, BatchRequested(step)) == Count(s.t, BatchRequested(step));
    }
  }

  lemma AsideKeepsInv(t0: Tables, s: State, u: Tables, reports: Reports)
    requires Inv(t0, s, reports) && Aside(s.t, u, reports) && u.run == s.t.run
    ensures Inv(t0, s.(t := u), reports)
  {
    AsideKeepsWorkers(t0, s, u, reports);
    AsideKeepsChain(s, u, reports);
    ProgressTransitive(t0.records, s.t.records, u.records);
    forall c ensures DueIdsOf(u.records, c) <= DueIdsOf(s.t.records, c) {
      DueShrinks(s.t.records, u.records, c);
    }
    assert Quiet(s.(t := u)) == Quiet(s);
  }

  lemma PollIsAside(t: Tables, ev: ObservedEvent, p: ParsedProcess, nextSync: Instant, reports: Reports)
    requires Sound(t, reports) && HitFor(t.records, ev.recordId, p, reports)
    ensures EnrichTx(t, ev, p, nextSync).Ok?
    ensures Aside(t, EnrichTx(t, ev, p, nextSync).value, reports) && EnrichTx(t, ev, p, nextSync).value.run == t.run
  {
    hide EnrichTx, Sound, SoundRecords, ForeignKeys, RecordsProgress, ChildrenStay, Progress, HitFor;
    EnrichLaw(t, ev, p, nextSync, reports);
    EnrichFrame(t, ev, p, nextSync, reports);
    var u := EnrichTx(t, ev, p, nextSync).value;
    forall step ensures Count(u, BatchRequested(step)) == Count(t, BatchRequested(step)) {
      EnrichPays(t, ev, p, nextSync, reports, BatchRequested(step));
    }
  }

  lemma InvIsSound(t0: Tables, s: State, reports: Reports)
    requires Inv(t0, s, reports)
    ensures Sound(s.t, reports) && RecordsProgress(t0.records, s.t.records) && Chained(s) && WorkersOk(t0, s)
  {
    hide Sound, RecordsProgress, Chained, WorkersOk, Logged, Counted, Settling;
  }

  lemma PollKeepsInv(t0: Tables, s: State, ev: ObservedEvent, fetched: Fetched, nextSync: Instant, reports: Reports)
    requires Inv(t0, s, reports) && ObservationOf(s.t, ev, fetched, reports)
    ensures Inv(t0, After(s, Poll(ev, fetched, nextSync)), reports)
  {
    hide Inv, Aside, Sound;
    if Triage(ev, fetched).None? {
      InvIsSound(t0, s, reports);
      PollIsAside(s.t, ev, fetched.process, nextSync, reports);
      AsideKeepsInv(t0, s, EnrichTx(s.t, ev, fetched.process, nextSync).value, reports);
    }
  }

  // ---- A delivery scans ----

  lemma ScanIsSnapshot(t0: Tables, s: State, court: Court)
    requires RecordsProgress(t0.records, s.t.records)
    ensures var due := SelectDue(s.t.records, court, ENRICHMENT_BATCH_SCAN_LIMIT);
            if due == [] then DueIdsOf(s.t.records, court) == {}
            else SnapshotOf(t0, due, court) && Untouched(s.t.records, due)
  {
    ScanLaw(s.t.records, DueIdsOf(s.t.records, court), ENRICHMENT_BATCH_SCAN_LIMIT);
    DueShrinks(t0.records, s.t.records, court);
  }

  lemma DeliverKeepsInv(t0: Tables, s: State, step: BatchStep, reports: Reports)
    requires Inv(t0, s, reports) && Published(s.t, step)
    ensures Inv(t0, After(s, Deliver(step)), reports)
  {
    ScanIsSnapshot(t0, s, step.court);
    var due := SelectDue(s.t.records, step.court, ENRICHMENT_BATCH_SCAN_LIMIT);
    var w := if due == [] then Drained(step) else Scan(step, due);
    var s' := After(s, Deliver(step));
    assert s'.workers == s.workers + {w};
    forall v | v in s'.workers ensures WorkerOk(t0, s', v) {
      if v == w {
        assert WorkerOk(t0, s, w);
      } else {
        assert WorkerOk(t0, s, v);
      }
    }
    assert Quiet(s') == Quiet(s);
  }

  // ---- A delivery applies ----

  lemma Appended(log: seq<Entry>, e: Entry)
    ensures Marked(log + [e]) == Marked(log) + e.marked
    ensures SumGraded(log + [e]) == SumGraded(log) + |e.graded| && SumErrs(log + [e]) == SumErrs(log) + e.errs
    ensures forall x :: x in log + [e] <==> x in log || x == e
  {
    assert (log + [e])[..|log + [e]| - 1] == log;
  }

  lemma {:induction false} MarkedHolds(log: seq<Entry>, e: Entry)
    requires e in log
    ensures e.marked <= Marked(log)
  {
    if log[|log| - 1] != e {
      assert log == log[..|log| - 1] + [log[|log| - 1]];
      MarkedHolds(log[..|log| - 1], e);
    }
  }

  /** An unfinished published step is its court's newest. */
  lemma Newest(s: State, step: BatchStep)
    requires Chained(s) && Published(s.t, step) && BatchDone(step) !in s.t.processed
    ensures step.court in s.next && s.next[step.court] == step.pass
    ensures BatchStep(step.court, step.pass + 1) !in s.acked
  {
    assert Count(s.t, BatchRequested(step)) > 0;
    var later := BatchStep(step.court, step.pass + 1);
    assert Count(s.t, BatchRequested(later)) == 0;
    assert !Published(s.t, later);
  }

  ghost predicate FirstApply(t0: Tables, s: State, step: BatchStep, due: seq<DueRecord>, hits: Hits, reports: Reports) {
    Inv(t0, s, reports) && Scan(step, due) in s.workers && HitsFor(hits, reports) && BatchDone(step) !in s.t.processed
  }

  lemma FirstApplyFits(t0: Tables, s: State, step: BatchStep, due: seq<DueRecord>, hits: Hits, reports: Reports)
    requires FirstApply(t0, s, step, due, hits, reports)
    ensures Published(s.t, step) && SnapshotOf(t0, due, step.court) && Untouched(s.t.records, due)
    ensures Scanned(s.t.records, due)
  {
    assert WorkerOk(t0, s, Scan(step, due));
    assert forall d | d in due :: d.id in t0.records;
  }

  /** All the protocol needs to know of a first apply. */
  ghost predicate Advance(s: State, s': State, e: Entry, ack: bool) {
    && s'.log == s.log + [e] && s'.next == s.next[e.step.court := e.step.pass + 1] && s'.workers == s.workers
    && s'.acked == Acknowledged(s.acked, e.step, ack)
    && TablesAdvance(s.t, s'.t, e)
  }

  ghost predicate TablesAdvance(t: Tables, u: Tables, e: Entry) {
    && RecordsProgress(t.records, u.records)
    && (forall r | r in t.records :: u.records[r].attempted == (t.records[r].attempted || r in e.marked))
    && u.processed == t.processed + {BatchDone(e.step)}
    && (forall x :: Count(u, BatchRequested(x)) == Count(t, BatchRequested(x)) + if x == NextStep(e.step) then 1 else 0)
    && (u.run == if e.graded != {} || e.errs > 0 then Bumped(t.run, |e.graded|, e.errs) else t.run)
  }

  lemma FirstApplyAdvances(s: State, step: BatchStep, due: seq<DueRecord>, hits: Hits, errs: nat, nextSync: Instant, ack: bool, reports: Reports)
    requires Sound(s.t, reports) && HitsFor(hits, reports) && Scanned(s.t.records, due) && BatchDone(step) !in s.t.processed && DistinctIds(due)
    ensures Advance(s, After(s, Apply(step, due, hits, errs, nextSync, ack)), EntryOf(step, due, hits, errs), ack)
  {
    ApplyAdvancesTables(s.t, step, due, hits, errs, nextSync, reports);
    var u := ApplyTx(s.t, step, due, hits, errs, nextSync).value;
    assert After(s, Apply(step, due, hits, errs, nextSync, ack))
        == s.(t := u, acked := Acknowledged(s.acked, step, ack), next := s.next[step.court := step.pass + 1],
              log := s.log + [EntryOf(step, due, hits, errs)]);
  }

  lemma ApplyAdvancesTables(t: Tables, step: BatchStep, due: seq<DueRecord>, hits: Hits, errs: nat, nextSync: Instant, reports: Reports)
    requires Sound(t, reports) && HitsFor(hits, reports) && Scanned(t.records, due) && BatchDone(step) !in t.processed && DistinctIds(due)
    ensures ApplyTx(t, step, due, hits, errs, nextSync).Ok?
    ensures TablesAdvance(t, ApplyTx(t, step, due, hits, errs, nextSync).value, EntryOf(step, due, hits, errs))
  {
    FirstApplyPublishes(t, step, due, hits, errs, nextSync, reports);
    FirstApplyCounts(t, step, due, hits, errs, nextSync, reports);
    ApplyMarks(t, step, due, hits, errs, nextSync, reports);
  }

  lemma FirstApplyPublishes(t: Tables, step: BatchStep, due: seq<DueRecord>, hits: Hits, errs: nat, nextSync: Instant, reports: Reports)
    requires Sound(t, reports) && HitsFor(hits, reports) && Scanned(t.records, due) && BatchDone(step) !in t.processed
    ensures ApplyTx(t, step, due, hits, errs, nextSync).Ok?
    ensures var u := ApplyTx(t, step, due, hits, errs, nextSync).value;
            forall x :: Count(u, BatchRequested(x)) == Count(t, BatchRequested(x)) + if x == NextStep(step) then 1 else 0
  {
    BatchLaw(t, step, due, hits, errs, nextSync, reports);
    forall x ensures var r := ApplyTx(t, step, due, hits, errs, nextSync);
                     r.Ok? && Count(r.value, BatchRequested(x)) == Count(t, BatchRequested(x)) + if x == NextStep(step) then 1 else 0 {
      ApplyPays(t, step, due, hits, errs, nextSync, reports, BatchRequested(x));
    }
  }

  lemma FirstApplyCounts(t: Tables, step: BatchStep, due: seq<DueRecord>, hits: Hits, errs: nat, nextSync: Instant, reports: Reports)
    requires Sound(t, reports) && HitsFor(hits, reports) && Scanned(t.records, due) && BatchDone(step) !in t.processed && DistinctIds(due)
    ensures ApplyTx(t, step, due, hits, errs, nextSync).Ok?
    ensures var u, e := ApplyTx(t, step, due, hits, errs, nextSync).value, EntryOf(step, due, hits, errs);
            && u.processed == t.processed + {BatchDone(step)}
            && u.run == if e.graded != {} || e.errs > 0 then Bumped(t.run, |e.graded|, e.errs) else t.run
  {
    ApplyRemembers(t, step, due, hits, errs, nextSync, reports);
    GradedCountIsGradedIds(due, hits);
  }

  /** The entry of an unfinished step: rows of its court nobody has attempted yet. */
  ghost predicate Fits(t0: Tables, s: State, e: Entry) {
    && Published(s.t, e.step) && BatchDone(e.step) !in s.t.processed
    && EntryOk(t0, e) && forall r | r in e.marked :: r in s.t.records && !s.t.records[r].attempted
  }

  lemma EntryFits(t0: Tables, s: State, step: BatchStep, due: seq<DueRecord>, hits: Hits, errs: nat, reports: Reports)
    requires FirstApply(t0, s, step, due, hits, reports)
    ensures Fits(t0, s, EntryOf(step, due, hits, errs))
  {
    FirstApplyFits(t0, s, step, due, hits, reports);
    assert due[0] in due && due[0].id in Ids(due);
  }

  lemma AdvanceChains(s: State, s': State, e: Entry, ack: bool)
    requires Chained(s) && Published(s.t, e.step) && BatchDone(e.step) !in s.t.processed && Advance(s, s', e, ack)
    ensures Chained(s')
  {
    Newest(s, e.step);
    LogTells(s.log, e);
    hide RecordsProgress, Bumped;
    forall x | x in s'.acked ensures Published(s'.t, x) {
      assert Published(s.t, x);
      assert Count(s'.t, BatchRequested(x)) >= Count(s.t, BatchRequested(x)) > 0;
    }
    hide Count, Published;
    forall x ensures BatchDone(x) in s'.t.processed <==> Applied(s'.log, x) {
      assert BatchDone(x) in s.t.processed <==> Applied(s.log, x);
    }
    hide Applied;
  }

  lemma LogTells(log: seq<Entry>, e: Entry)
    ensures forall x :: Applied(log + [e], x) <==> Applied(log, x) || x == e.step
  {
    forall x ensures Applied(log + [e], x) <==> Applied(log, x) || x == e.step {
      if Applied(log, x) {
        var f :| f in log && f.step == x;
        assert f in log + [e];
      } else if x == e.step {
        assert e in log + [e];
      }
    }
  }

  /** Two unfinished steps are of different courts, and so are the rows they hold. */
  lemma OtherCourt(t0: Tables, s: State, e: Entry, w: Worker)
    requires Chained(s) && Fits(t0, s, e) && w.Scan? && WorkerOk(t0, s, w)
    requires BatchDone(w.step) !in s.t.processed && w.step != e.step
    ensures forall d | d in w.due :: d.id !in e.marked
  {
    Newest(s, e.step);
    Newest(s, w.step);
  }

  lemma AdvanceLeavesWorkers(t0: Tables, s: State, s': State, e: Entry, ack: bool)
    requires Chained(s) && WorkersOk(t0, s) && Fits(t0, s, e) && Advance(s, s', e, ack)
    ensures WorkersOk(t0, s')
  {
    forall w | w in s'.workers ensures WorkerOk(t0, s', w) {
      assert WorkerOk(t0, s, w);
      assert Count(s'.t, BatchRequested(w.step)) >= Count(s.t, BatchRequested(w.step)) > 0;
      DueShrinks(s.t.records, s'.t.records, w.step.court);
      if w.Scan? && BatchDone(w.step) !in s'.t.processed {
        OtherCourt(t0, s, e, w);
        assert s'.t.records.Keys == s.t.records.Keys;
      }
    }
  }

  lemma AdvanceIsExclusive(t0: Tables, s: State, e: Entry)
    requires Chained(s) && Logged(t0, s) && Fits(t0, s, e)
    ensures Exclusive(s.log + [e])
  {
    forall i | 0 <= i < |s.log| ensures s.log[i].marked !! e.marked && s.log[i].step != e.step {
      var f := s.log[i];
      assert f in s.log;
      MarkedHolds(s.log, f);
      assert BatchDone(f.step) in s.t.processed;
      forall r | r in e.marked ensures r !in f.marked {
        assert r in t0.records && r in s.t.records && !s.t.records[r].attempted;
      }
    }
  }

  lemma AdvanceLogs(t0: Tables, s: State, s': State, e: Entry, ack: bool)
    requires Chained(s) && Logged(t0, s) && Fits(t0, s, e) && Advance(s, s', e, ack)
    ensures Logged(t0, s')
  {
    Appended(s.log, e);
    AdvanceIsExclusive(t0, s, e);
    forall r | r in t0.records && r in s'.t.records
      ensures s'.t.records[r].attempted <==> t0.records[r].attempted || r in Marked(s'.log)
    {
      assert r in s'.t.records.Keys && r in s.t.records;
    }
  }

  lemma AdvanceCounts(s: State, s': State, e: Entry, ack: bool)
    requires Counted(s.t.run, s.log) && Advance(s, s', e, ack)
    ensures Counted(s'.t.run, s'.log)
  {
    Appended(s.log, e);
  }

  lemma AdvanceSettles(t0: Tables, s: State, s': State, e: Entry, ack: bool)
    requires Chained(s) && Settling(t0, s) && Fits(t0, s, e) && Advance(s, s', e, ack)
    ensures Settling(t0, s')
  {
    Newest(s, e.step);
    assert BatchStep(e.step.court, s'.next[e.step.court]) !in s'.acked;
    forall c ensures DueIdsOf(s'.t.records, c) <= DueIdsOf(s.t.records, c) {
      DueShrinks(s.t.records, s'.t.records, c);
    }
  }

  lemma RepeatKeepsInv(t0: Tables, s: State, step: BatchStep, reports: Reports)
    requires Inv(t0, s, reports) && Published(s.t, step) && BatchDone(step) in s.t.processed
    ensures Inv(t0, s.(acked := s.acked + {step}), reports)
  {
    var s' := s.(acked := s.acked + {step});
    forall w | w in s'.workers ensures WorkerOk(t0, s', w) {
      assert WorkerOk(t0, s, w);
    }
    assert step.pass < s.next[step.court];
    assert Quiet(s') == Quiet(s);
  }

  lemma ApplyKeepsInv(t0: Tables, s: State, step: BatchStep, due: seq<DueRecord>, hits: Hits, errs: nat, nextSync: Instant, ack: bool, reports: Reports)
    requires Inv(t0, s, reports) && Scan(step, due) in s.workers && HitsFor(hits, reports)
    ensures Inv(t0, After(s, Apply(step, due, hits, errs, nextSync, ack)), reports)
  {
    assert WorkerOk(t0, s, Scan(step, due));
    if BatchDone(step) in s.t.processed {
      hide Sound, Chained, WorkersOk, Logged, Counted, Settling, RecordsProgress, SnapshotOf;
      RepeatKeepsInv(t0, s, step, reports);
    } else {
      hide Inv, Sound, Advance, After, EntryOf;
      FirstApplyFits(t0, s, step, due, hits, reports);
      InvIsSound(t0, s, reports);
      FirstApplyAdvances(s, step, due, hits, errs, nextSync, ack, reports);
      EntryFits(t0, s, step, due, hits, errs, reports);
      FirstApplyKeepsSound(s, step, due, hits, errs, nextSync, ack, reports);
      AdvanceKeepsInv(t0, s, After(s, Apply(step, due, hits, errs, nextSync, ack)), EntryOf(step, due, hits, errs), ack, reports);
    }
  }

  lemma FirstApplyKeepsSound(s: State, step: BatchStep, due: seq<DueRecord>, hits: Hits, errs: nat, nextSync: Instant, ack: bool, reports: Reports)
    requires Sound(s.t, reports) && HitsFor(hits, reports) && Scanned(s.t.records, due) && BatchDone(step) !in s.t.processed
    ensures Sound(After(s, Apply(step, due, hits, errs, nextSync, ack)).t, reports)
  {
    hide Sound, ApplyTx, Progress, HitsFor, Scanned;
    BatchLaw(s.t, step, due, hits, errs, nextSync, reports);
  }

  lemma AdvanceKeepsInv(t0: Tables, s: State, s': State, e: Entry, ack: bool, reports: Reports)
    requires Inv(t0, s, reports) && Fits(t0, s, e) && Advance(s, s', e, ack) && Sound(s'.t, reports)
    ensures Inv(t0, s', reports)
  {
    hide Sound, Chained, WorkersOk, Logged, Counted, Settling, RecordsProgress, EntryOk;
    ProgressTransitive(t0.records, s.t.records, s'.t.records);
    AdvanceChains(s, s', e, ack);
    AdvanceLeavesWorkers(t0, s, s', e, ack);
    AdvanceLogs(t0, s, s', e, ack);
    AdvanceCounts(s, s', e, ack);
    AdvanceSettles(t0, s, s', e, ack);
  }

  // ---- A delivery finds its court drained ----

  lemma CloseIsBeside(t: Tables)
    ensures Beside(t, CloseTx(t))
  {
    var u := CloseTx(t);
    assert u.records == t.records && u.processed == t.processed && u.outbox == t.outbox;
  }

  lemma CloseSettles(t0: Tables, s: State, step: BatchStep, ack: bool, reports: Reports)
    requires Inv(t0, s, reports) && Drained(step) in s.workers
    ensures Settling(t0, After(s, CloseImport(step, ack)))
  {
    assert WorkerOk(t0, s, Drained(step));
    var s' := After(s, CloseImport(step, ack));
    if DueIds(s.t.records) != {} {
      var r := Pick(DueIds(s.t.records));
      var c := s.t.records[r].court;
      assert r in DueIdsOf(s.t.records, c);
      DueShrinks(t0.records, s.t.records, c);
      assert BatchStep(c, s'.next[c]) !in s'.acked;
    }
  }

  lemma AckKeepsChain(s: State, step: BatchStep, ack: bool)
    requires Chained(s) && Published(s.t, step)
    ensures Chained(s.(acked := Acknowledged(s.acked, step, ack)))
  {
  }

  lemma AckKeepsWorkers(t0: Tables, s: State, acked: set<BatchStep>)
    requires WorkersOk(t0, s)
    ensures WorkersOk(t0, s.(acked := acked))
  {
    var s' := s.(acked := acked);
    forall w | w in s'.workers ensures WorkerOk(t0, s', w) {
      assert WorkerOk(t0, s, w);
    }
  }

  lemma CloseKeepsBooks(t0: Tables, s: State)
    requires Logged(t0, s) && Counted(s.t.run, s.log)
    ensures var u := s.(t := CloseTx(s.t));
            u.t.records == s.t.records && Logged(t0, u) && Counted(u.t.run, u.log)
  {
  }

  lemma CloseKeepsInv(t0: Tables, s: State, step: BatchStep, ack: bool, reports: Reports)
    requires Inv(t0, s, reports) && Drained(step) in s.workers
    ensures Inv(t0, After(s, CloseImport(step, ack)), reports)
  {
    hide Sound, Settling, RecordsProgress, Beside, Chained, Counted, Published;
    var u := s.(t := CloseTx(s.t));
    CloseKeepsBooks(t0, s);
    CloseIsBeside(s.t);
    CloseIsSound(s.t, reports);
    CloseSettles(t0, s, step, ack, reports);
    assert WorkerOk(t0, s, Drained(step));
    hide Logged, WorkersOk, CloseTx;
    AsideKeepsWorkers(t0, s, u.t, reports);
    AsideKeepsChain(s, u.t, reports);
    AckKeepsChain(u, step, ack);
    AckKeepsWorkers(t0, u, Acknowledged(s.acked, step, ack));
    assert After(s, CloseImport(step, ack)) == u.(acked := Acknowledged(s.acked, step, ack));
  }

  lemma CloseIsSound(t: Tables, reports: Reports)
    requires Sound(t, reports)
    ensures Sound(CloseTx(t), reports)
  {
    hide Sound;
    SameTablesSound(t, CloseTx(t), reports);
  }
}
