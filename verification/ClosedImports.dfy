/** What a closed import says of its records: what its count counts, with and without
    single-path polls in between, and when a closed import stays as it is. */
module ClosedImports {
  import opened CourtRecords
  import opened Enrichment
  import opened EnrichmentLaws
  import opened EnrichmentBatch
  import opened BatchLaws
  import opened EnrichmentRuns
  import opened BatchProtocol
  import opened BatchRuns
  import opened FinalRows

  // ---- What a step does to single rows ----

  /** Enriched, that is graded, or merged away. */
  predicate SettledRow(r: CourtRecord) {
    r.degree != Unknown || r.lifecycle == Superseded
  }

  /** The records in `ids` are settled and only they may be retired; no other placeholder
      changes at all. */
  ghost predicate SettlesOnly(before: map<RecordId, CourtRecord>, after: map<RecordId, CourtRecord>, ids: set<RecordId>) {
    && after.Keys == before.Keys
    && forall r | r in before ::
         && (r in ids ==> SettledRow(after[r]))
         && (SettledRow(before[r]) ==> SettledRow(after[r]))
         && (r !in ids && before[r].degree == Unknown ==> after[r] == before[r])
         && (r !in ids && before[r].lifecycle != Superseded ==> after[r].lifecycle != Superseded)
  }

  lemma GradeSettlesOnly(t: Tables, id: RecordId, p: ParsedProcess, nextSync: Instant, reports: Reports)
    requires SoundRecords(t.records, reports) && ForeignKeys(t) && HitFor(t.records, id, p, reports)
    ensures GradeTx(t, id, p, nextSync).Ok?
    ensures SettlesOnly(t.records, GradeTx(t, id, p, nextSync).value.tables.records, {id})
  {
    GradeCommits(t, id, p, nextSync, reports);
    RivalIsAlive(t, id, p, reports);
  }

  lemma {:induction false} LoopSettlesOnly(t: Tables, due: seq<DueRecord>, hits: Hits, nextSync: Instant, reports: Reports)
    requires Sound(t, reports) && HitsFor(hits, reports) && Scanned(t.records, due)
    ensures GradeAll(t, due, hits, nextSync).Ok?
    ensures SettlesOnly(t.records, GradeAll(t, due, hits, nextSync).value.records, GradedIds(due, hits))
  {
    if due != [] {
      var n := |due| - 1;
      LoopSettlesOnly(t, due[..n], hits, nextSync, reports);
      GradeAllLaw(t, due[..n], hits, nextSync, reports);
      var mid := GradeAll(t, due[..n], hits, nextSync).value;
      GradedIdsGrow(due, hits);
      assert due[n] in due;
      if Gradable(due[n], hits) {
        OneSettlesOnly(mid, due[n], hits, nextSync, reports);
        SettlesMore(t.records, mid.records, GradeOne(mid, due[n], hits, nextSync).value.records, GradedIds(due[..n], hits), due[n].id);
      }
    }
  }

  lemma OneSettlesOnly(mid: Tables, d: DueRecord, hits: Hits, nextSync: Instant, reports: Reports)
    requires Sound(mid, reports) && HitsFor(hits, reports) && Gradable(d, hits)
    requires d.id in mid.records && mid.records[d.id].cnj == d.cnj
    ensures GradeOne(mid, d, hits, nextSync).Ok?
    ensures SettlesOnly(mid.records, GradeOne(mid, d, hits, nextSync).value.records, {d.id})
  {
    GradeSettlesOnly(mid, d.id, hits[d.cnj], nextSync, reports);
  }

  lemma SettlesMore(a: map<RecordId, CourtRecord>, b: map<RecordId, CourtRecord>, c: map<RecordId, CourtRecord>, ids: set<RecordId>, id: RecordId)
    requires SettlesOnly(a, b, ids) && SettlesOnly(b, c, {id})
    ensures SettlesOnly(a, c, ids + {id})
  {
  }

  lemma ApplySettlesOnly(t: Tables, step: BatchStep, due: seq<DueRecord>, hits: Hits, errs: nat, nextSync: Instant, reports: Reports)
    requires Sound(t, reports) && HitsFor(hits, reports) && Scanned(t.records, due) && BatchDone(step) !in t.processed
    ensures ApplyTx(t, step, due, hits, errs, nextSync).Ok?
    ensures var after := ApplyTx(t, step, due, hits, errs, nextSync).value.records;
            var ids := GradedIds(due, hits);
            && after.Keys == t.records.Keys
            && forall r | r in t.records ::
                 && (r in ids ==> SettledRow(after[r]))
                 && (SettledRow(t.records[r]) ==> SettledRow(after[r]))
                 && (r !in ids && t.records[r].degree == Unknown ==>
                       after[r] == t.records[r].(attempted := t.records[r].attempted || r in Ids(due)))
                 && (r !in ids && t.records[r].lifecycle != Superseded ==> after[r].lifecycle != Superseded)
  {
    var marked := t.(processed := t.processed + {BatchDone(step)});
    SameTablesSound(t, marked, reports);
    LoopSettlesOnly(marked, due, hits, nextSync, reports);
    var g := GradeAll(marked, due, hits, nextSync).value;
    assert ApplyTx(t, step, due, hits, errs, nextSync).value.records == MarkAttempted(g.records, Ids(due));
  }

  // ---- What was graded stays settled ----

  ghost predicate GradedAreSettled(t0: Tables, s: State) {
    forall r | r in GradedBy(s.log) || (r in t0.records && SettledRow(t0.records[r])) ::
      r in s.t.records && SettledRow(s.t.records[r])
  }

  lemma GradedGrows(log: seq<Entry>, e: Entry)
    ensures GradedBy(log + [e]) == GradedBy(log) + e.graded
  {
    assert (log + [e])[..|log + [e]| - 1] == log;
  }

  /** The rows of an import after one more step. */
  lemma ApplyTellsRows(t0: Tables, s: State, step: BatchStep, due: seq<DueRecord>, hits: Hits, errs: nat, nextSync: Instant, ack: bool, reports: Reports)
    requires FirstApply(t0, s, step, due, hits, reports)
    ensures var s' := After(s, Apply(step, due, hits, errs, nextSync, ack));
            var ids := GradedIds(due, hits);
            && GradedBy(s'.log) == GradedBy(s.log) + ids && Marked(s'.log) == Marked(s.log) + Ids(due)
            && s'.t.records.Keys == s.t.records.Keys && ids <= s.t.records.Keys && s'.workers == s.workers
            && s'.t.processed == s.t.processed + {BatchDone(step)}
            && forall r | r in s.t.records ::
                 && (r in ids || SettledRow(s.t.records[r]) ==> SettledRow(s'.t.records[r]))
                 && (r !in ids && s.t.records[r].degree == Unknown ==>
                       s'.t.records[r] == s.t.records[r].(attempted := s.t.records[r].attempted || r in Ids(due)))
                 && (r !in ids && s.t.records[r].lifecycle != Superseded ==> s'.t.records[r].lifecycle != Superseded)
  {
    FirstApplyFits(t0, s, step, due, hits, reports);
    InvIsSound(t0, s, reports);
    hide Inv, Sound, RecordsProgress, SnapshotOf, Untouched, HitsFor, ApplyTx, SettledRow, ForeignKeys, ChildrenStay;
    ApplySettlesOnly(s.t, step, due, hits, errs, nextSync, reports);
    ApplyRemembers(s.t, step, due, hits, errs, nextSync, reports);
    AppliedShape(s, step, due, hits, errs, nextSync, ack);
    hide After;
    Appended(s.log, EntryOf(step, due, hits, errs));
    GradedGrows(s.log, EntryOf(step, due, hits, errs));
    assert forall d | d in due :: d.id in s.t.records;
  }

  lemma AppliedShape(s: State, step: BatchStep, due: seq<DueRecord>, hits: Hits, errs: nat, nextSync: Instant, ack: bool)
    requires BatchDone(step) !in s.t.processed && ApplyTx(s.t, step, due, hits, errs, nextSync).Ok?
    ensures var s' := After(s, Apply(step, due, hits, errs, nextSync, ack));
            && s'.t == ApplyTx(s.t, step, due, hits, errs, nextSync).value
            && s'.log == s.log + [EntryOf(step, due, hits, errs)] && s'.workers == s.workers
  {
    hide ApplyTx;
  }

  lemma PollSettles(t: Tables, ev: ObservedEvent, p: ParsedProcess, nextSync: Instant, reports: Reports)
    requires Sound(t, reports) && HitFor(t.records, ev.recordId, p, reports)
    ensures EnrichTx(t, ev, p, nextSync).Ok?
    ensures var after := EnrichTx(t, ev, p, nextSync).value.records;
            after.Keys == t.records.Keys && forall r | r in t.records :: SettledRow(t.records[r]) ==> SettledRow(after[r])
  {
    if EnrichmentDone(ev.eventId) !in t.processed {
      var marked := t.(processed := t.processed + {EnrichmentDone(ev.eventId)});
      SameTablesSound(t, marked, reports);
      GradeSettlesOnly(marked, ev.recordId, p, nextSync, reports);
    }
  }

  lemma StepKeepsGradedSettled(t0: Tables, s: State, a: Action, reports: Reports)
    requires Inv(t0, s, reports) && Enabled(s, a, reports) && GradedAreSettled(t0, s)
    ensures GradedAreSettled(t0, After(s, a))
  {
    hide Inv, ApplyTx, EnrichTx, GradedBy, SettledRow, HitsFor, ObservationOf;
    match a
    case Apply(step, due, hits, errs, nextSync, ack) =>
      ApplyKeepsGradedSettled(t0, s, step, due, hits, errs, nextSync, ack, reports);
    case Poll(ev, fetched, nextSync) =>
      PollKeepsGradedSettled(t0, s, ev, fetched, nextSync, reports);
    case Deliver(step) =>
    case CloseImport(step, ack) =>
    case ArchiveStep(step) =>
  }

  lemma ApplyKeepsGradedSettled(t0: Tables, s: State, step: BatchStep, due: seq<DueRecord>, hits: Hits, errs: nat, nextSync: Instant, ack: bool, reports: Reports)
    requires Inv(t0, s, reports) && Scan(step, due) in s.workers && HitsFor(hits, reports) && GradedAreSettled(t0, s)
    ensures GradedAreSettled(t0, After(s, Apply(step, due, hits, errs, nextSync, ack)))
  {
    hide Inv, ApplyTx, SettledRow, HitsFor, GradedBy, Marked;
    if BatchDone(step) !in s.t.processed {
      ApplyTellsRows(t0, s, step, due, hits, errs, nextSync, ack, reports);
      hide After;
      var s' := After(s, Apply(step, due, hits, errs, nextSync, ack));
      forall r | r in GradedBy(s'.log) || (r in t0.records && SettledRow(t0.records[r]))
        ensures r in s'.t.records && SettledRow(s'.t.records[r])
      {
        assert r in s.t.records.Keys;
      }
    }
  }

  lemma PollKeepsGradedSettled(t0: Tables, s: State, ev: ObservedEvent, fetched: Fetched, nextSync: Instant, reports: Reports)
    requires Inv(t0, s, reports) && ObservationOf(s.t, ev, fetched, reports) && GradedAreSettled(t0, s)
    ensures GradedAreSettled(t0, After(s, Poll(ev, fetched, nextSync)))
  {
    hide Inv, EnrichTx, SettledRow, GradedBy, Sound, HitFor;
    if Triage(ev, fetched).None? {
      InvIsSound(t0, s, reports);
      PolledHit(s.t, ev, fetched, reports);
      hide ObservationOf;
      PollSettles(s.t, ev, fetched.process, nextSync, reports);
      var u := EnrichTx(s.t, ev, fetched.process, nextSync).value;
      forall r | r in GradedBy(s.log) || (r in t0.records && SettledRow(t0.records[r])) ensures r in u.records && SettledRow(u.records[r]) {
        assert r in s.t.records.Keys;
      }
    }
  }

  lemma {:induction false} WhatWasGradedIsSettled(ss: seq<State>, as_: seq<Action>, reports: Reports, i: nat)
    requires Execution(ss, as_, reports) && i < |ss|
    ensures GradedAreSettled(ss[0].t, ss[i])
  {
    hide Inv, Enabled, After;
    if i > 0 {
      WhatWasGradedIsSettled(ss, as_, reports, i - 1);
      EveryStateIsSound(ss, as_, reports, i - 1);
      StepKeepsGradedSettled(ss[0].t, ss[i - 1], as_[i - 1], reports);
    }
  }

  /** Of the records due when the import began, those that are graded or merged away now. */
  ghost function SettledNow(t0: Tables, t: Tables): set<RecordId> {
    set r | r in DueIds(t0.records) && r in t.records && SettledRow(t.records[r])
  }

  lemma SubsetOfSameSize(a: set<RecordId>, b: set<RecordId>)
    requires a <= b
    ensures |a| <= |b| && (|a| == |b| <==> b <= a)
  {
    SubsetFits(a, b);
    assert b == a + (b - a) && |b| == |a| + |b - a|;
  }

  /** A concluded import has attempted every record it began with that was not merged away
      under it. Its count is the number of records its steps graded, each of which is settled;
      it is the number of all settled records exactly when a step graded every one of them,
      and none was graded only by a poll or only before the import. Its status is PARTIAL
      exactly when a step met a hit it could not parse. */
  lemma TheClosedRowTellsTheTruth(ss: seq<State>, as_: seq<Action>, reports: Reports, i: nat)
    requires Execution(ss, as_, reports) && i < |ss| && Concluded(ss[i])
    ensures var records, row, settled := ss[i].t.records, ss[i].t.run.value, SettledNow(ss[0].t, ss[i].t);
            && (forall r | r in DueIds(ss[0].t.records) :: r in records && (records[r].attempted || records[r].lifecycle == Superseded))
            && row.updated == |GradedBy(ss[i].log)| && GradedBy(ss[i].log) <= settled && row.updated <= |settled|
            && (row.updated == |settled| <==> settled <= GradedBy(ss[i].log))
            && (row.status == RunPartial <==> exists e :: e in ss[i].log && e.errs > 0)
  {
    EveryStateIsSound(ss, as_, reports, i);
    WhatWasGradedIsSettled(ss, as_, reports, i);
    hide Execution, Inv, GradedAreSettled, Concluded, SettledNow;
    Audit(ss[0].t, ss[i], reports);
  }

  lemma Audit(t0: Tables, s: State, reports: Reports)
    requires Inv(t0, s, reports) && GradedAreSettled(t0, s) && Concluded(s)
    ensures var records, row, settled := s.t.records, s.t.run.value, SettledNow(t0, s.t);
            && (forall r | r in DueIds(t0.records) :: r in records && (records[r].attempted || records[r].lifecycle == Superseded))
            && row.updated == |GradedBy(s.log)| && GradedBy(s.log) <= settled && row.updated <= |settled|
            && (row.updated == |settled| <==> settled <= GradedBy(s.log))
            && (row.status == RunPartial <==> exists e :: e in s.log && e.errs > 0)
  {
    hide Chained, WorkersOk, Settling, UniqueKeys, ForeignKeys, HonestOutbox, GradedTwin;
    NoneIsLeft(t0, s);
    hide Sound, RecordsProgress, SoundRecords;
    SomeErrs(s.log);
    GradedSum(t0, s.log);
    EachEntryMarks(t0, s.log);
    hide Logged, GradedBy, Marked;
    forall r | r in GradedBy(s.log) ensures r in SettledNow(t0, s.t) {
      assert r in s.t.records && SettledRow(s.t.records[r]);
    }
    SubsetOfSameSize(GradedBy(s.log), SettledNow(t0, s.t));
  }

  lemma NoneIsLeft(t0: Tables, s: State)
    requires RecordsProgress(t0.records, s.t.records) && DueIds(s.t.records) == {}
    requires forall r | r in s.t.records :: s.t.records[r].completeness <= DATAJUD_COMPLETENESS
    ensures forall r | r in DueIds(t0.records) :: r in s.t.records && (s.t.records[r].attempted || s.t.records[r].lifecycle == Superseded)
  {
    forall r | r in DueIds(t0.records)
      ensures r in s.t.records && (s.t.records[r].attempted || s.t.records[r].lifecycle == Superseded) {
      assert r in s.t.records.Keys && r !in DueIds(s.t.records);
    }
  }

  // ---- What every state keeps while nobody polls ----

  predicate Closed(t: Tables) {
    t.run.Some? && t.run.value.status != Running
  }

  ghost predicate SnapshotsDue(s: State) {
    forall w | w in s.workers && w.Scan? && BatchDone(w.step) !in s.t.processed ::
      forall d | d in w.due :: d.id in s.t.records && s.t.records[d.id].lifecycle != Superseded
  }

  /** A placeholder of the import that no step has graded is still as discovery left it. */
  ghost predicate RowsTold(t0: Tables, s: State) {
    forall r | r in DueIds(t0.records) && t0.records[r].degree == Unknown && r !in GradedBy(s.log) ::
      r in s.t.records && s.t.records[r] == t0.records[r].(attempted := r in Marked(s.log))
  }

  ghost predicate Unpolled(t0: Tables, s: State) {
    SnapshotsDue(s) && RowsTold(t0, s) && (Closed(s.t) ==> Concluded(s))
  }

  lemma DeliverStaysUnpolled(t0: Tables, s: State, step: BatchStep, reports: Reports)
    requires Inv(t0, s, reports) && Unpolled(t0, s) && Published(s.t, step)
    ensures Unpolled(t0, After(s, Deliver(step)))
  {
    ScanLaw(s.t.records, DueIdsOf(s.t.records, step.court), ENRICHMENT_BATCH_SCAN_LIMIT);
  }

  lemma HoldsDueRows(t0: Tables, s: State, step: BatchStep, due: seq<DueRecord>, reports: Reports)
    requires Inv(t0, s, reports) && SnapshotsDue(s) && Scan(step, due) in s.workers && BatchDone(step) !in s.t.processed
    ensures DueIds(s.t.records) != {}
  {
    var w := Scan(step, due);
    assert WorkerOk(t0, s, w);
    var d := w.due[0];
    assert d in w.due && d.id in s.t.records;
    assert s.t.records[d.id].completeness <= DATAJUD_COMPLETENESS;
    assert d.id in DueIds(s.t.records);
  }

  lemma ApplyTellsPlaceholders(t0: Tables, s: State, step: BatchStep, due: seq<DueRecord>, hits: Hits, errs: nat, nextSync: Instant, ack: bool, reports: Reports)
    requires FirstApply(t0, s, step, due, hits, reports) && RowsTold(t0, s)
    ensures RowsTold(t0, After(s, Apply(step, due, hits, errs, nextSync, ack)))
  {
    ApplyTellsRows(t0, s, step, due, hits, errs, nextSync, ack, reports);
    hide FirstApply, After, GradedBy, Marked, SettledRow;
    var s' := After(s, Apply(step, due, hits, errs, nextSync, ack));
    forall r | r in DueIds(t0.records) && t0.records[r].degree == Unknown && r !in GradedBy(s'.log)
      ensures r in s'.t.records && s'.t.records[r] == t0.records[r].(attempted := r in Marked(s'.log))
    {
      assert r in s.t.records.Keys && r !in GradedIds(due, hits);
    }
  }

  lemma ApplyLeavesSnapshotsDue(t0: Tables, s: State, step: BatchStep, due: seq<DueRecord>, hits: Hits, errs: nat, nextSync: Instant, ack: bool, reports: Reports)
    requires FirstApply(t0, s, step, due, hits, reports) && SnapshotsDue(s)
    ensures SnapshotsDue(After(s, Apply(step, due, hits, errs, nextSync, ack)))
  {
    ApplyTellsRows(t0, s, step, due, hits, errs, nextSync, ack, reports);
    EntryFits(t0, s, step, due, hits, errs, reports);
    InvIsSound(t0, s, reports);
    hide Inv, After, SettledRow, Sound, GradedBy, Marked;
    var s' := After(s, Apply(step, due, hits, errs, nextSync, ack));
    forall w, d | w in s'.workers && w.Scan? && BatchDone(w.step) !in s'.t.processed && d in w.due
      ensures d.id in s'.t.records && s'.t.records[d.id].lifecycle != Superseded
    {
      assert WorkerOk(t0, s, w);
      OtherCourt(t0, s, EntryOf(step, due, hits, errs), w);
      assert d.id in s.t.records.Keys && d.id !in GradedIds(due, hits);
    }
  }

  lemma ApplyStaysUnpolled(t0: Tables, s: State, step: BatchStep, due: seq<DueRecord>, hits: Hits, errs: nat, nextSync: Instant, ack: bool, reports: Reports)
    requires Inv(t0, s, reports) && Unpolled(t0, s) && Scan(step, due) in s.workers && HitsFor(hits, reports)
    ensures Unpolled(t0, After(s, Apply(step, due, hits, errs, nextSync, ack)))
  {
    if BatchDone(step) !in s.t.processed {
      FirstApplyFits(t0, s, step, due, hits, reports);
      InvIsSound(t0, s, reports);
      HoldsDueRows(t0, s, step, due, reports);
      ApplyTellsPlaceholders(t0, s, step, due, hits, errs, nextSync, ack, reports);
      ApplyLeavesSnapshotsDue(t0, s, step, due, hits, errs, nextSync, ack, reports);
      hide Inv, Sound, SnapshotsDue, RowsTold, SnapshotOf, Untouched, HitsFor;
      ApplyRemembers(s.t, step, due, hits, errs, nextSync, reports);
    }
  }

  lemma StepStaysUnpolled(t0: Tables, s: State, a: Action, reports: Reports)
    requires Inv(t0, s, reports) && Unpolled(t0, s) && Enabled(s, a, reports) && !a.Poll?
    ensures Unpolled(t0, After(s, a))
  {
    match a
    case Deliver(step) => DeliverStaysUnpolled(t0, s, step, reports);
    case Apply(step, due, hits, errs, nextSync, ack) => ApplyStaysUnpolled(t0, s, step, due, hits, errs, nextSync, ack, reports);
    case CloseImport(step, ack) =>
    case ArchiveStep(step) =>
  }

  lemma InitIsUnpolled(s: State, reports: Reports)
    requires Init(s, reports)
    ensures Unpolled(s.t, s)
  {
  }

  lemma {:induction false} EveryStateIsUnpolled(ss: seq<State>, as_: seq<Action>, reports: Reports, i: nat)
    requires Execution(ss, as_, reports) && i < |ss| && forall a | a in as_[..i] :: !a.Poll?
    ensures Inv(ss[0].t, ss[i], reports) && Unpolled(ss[0].t, ss[i])
  {
    hide Inv, Enabled, After;
    EveryStateIsSound(ss, as_, reports, i);
    if i == 0 {
      InitIsUnpolled(ss[0], reports);
    } else {
      assert forall a | a in as_[..i - 1] :: a in as_[..i];
      EveryStateIsUnpolled(ss, as_, reports, i - 1);
      assert as_[i - 1] in as_[..i];
      StepStaysUnpolled(ss[0].t, ss[i - 1], as_[i - 1], reports);
    }
  }

  // ---- The theorems ----

  /** An import that closes before any poll is closed for good: whatever follows, polls
      included, its row is final. */
  lemma ClosedForGood(ss: seq<State>, as_: seq<Action>, reports: Reports, i: nat)
    requires Execution(ss, as_, reports) && i < |ss| && Closed(ss[i].t)
    requires forall a | a in as_[..i] :: !a.Poll?
    ensures Resting(ss[i]) && RowIsFinal(ss[i], reports)
  {
    EveryStateIsUnpolled(ss, as_, reports, i);
    hide Inv, Execution, RowIsFinal, SnapshotsDue, RowsTold;
    WhenTheRowIsFinal(ss, as_, reports, i);
    if OpenScan(ss[i]) {
      var w :| w in ss[i].workers && w.Scan? && BatchDone(w.step) !in ss[i].t.processed;
      assert w == Scan(w.step, w.due);
      HoldsDueRows(ss[0].t, ss[i], w.step, w.due, reports);
    }
  }

  lemma RestingTablesRest(t0: Tables, s: State, a: Action, reports: Reports)
    requires Inv(t0, s, reports) && Resting(s) && Enabled(s, a, reports) && !a.Poll?
    ensures After(s, a).t == s.t
  {
    hide Inv;
    if a.Apply? {
      assert Scan(a.step, a.due).Scan?;
    }
  }

  /** Once an import rests, no later, repeated or late step changes anything: only a poll
      still writes. */
  lemma {:induction false} OnlyPollsStillWrite(ss: seq<State>, as_: seq<Action>, reports: Reports, i: nat, j: nat)
    requires Execution(ss, as_, reports) && i <= j < |ss| && Resting(ss[i])
    requires forall a | a in as_[i..j] :: !a.Poll?
    ensures Resting(ss[j]) && ss[j].t == ss[i].t
  {
    hide Inv, Enabled, After, Init, Resting;
    if i < j {
      assert forall a | a in as_[i..j - 1] :: a in as_[i..j];
      OnlyPollsStillWrite(ss, as_, reports, i, j - 1);
      EveryStateIsSound(ss, as_, reports, j - 1);
      assert as_[j - 1] in as_[i..j];
      StepLeavesTheRow(ss[0].t, ss[j - 1], as_[j - 1], reports);
      RestingTablesRest(ss[0].t, ss[j - 1], as_[j - 1], reports);
    }
  }

  /** Without a poll, a placeholder is settled exactly when a step graded it; so the count of a
      concluded import is the number of settled records if and only if every record that
      already had its grade when the import began was found again. */
  lemma WhenTheCountIsEverySettledRecord(ss: seq<State>, as_: seq<Action>, reports: Reports, i: nat)
    requires Execution(ss, as_, reports) && i < |ss| && Concluded(ss[i])
    requires forall a | a in as_[..i] :: !a.Poll?
    ensures var t0, s := ss[0].t, ss[i];
            && (forall r | r in DueIds(t0.records) && t0.records[r].degree == Unknown ::
                  r in SettledNow(t0, s.t) <==> r in GradedBy(s.log))
            && (s.t.run.value.updated == |SettledNow(t0, s.t)|
                <==> forall r | r in DueIds(t0.records) && t0.records[r].degree != Unknown :: r in GradedBy(s.log))
  {
    TheClosedRowTellsTheTruth(ss, as_, reports, i);
    EveryStateIsUnpolled(ss, as_, reports, i);
    WhatWasGradedIsSettled(ss, as_, reports, i);
    hide Inv, Execution, Concluded, SnapshotsDue, RowsTold, GradedAreSettled, SettledNow, GradedBy;
    OnlyGradedPlaceholders(ss[0].t, ss[i]);
  }

  lemma OnlyGradedPlaceholders(t0: Tables, s: State)
    requires RowsTold(t0, s) && GradedAreSettled(t0, s)
    ensures forall r | r in DueIds(t0.records) ::
              if t0.records[r].degree == Unknown then r in SettledNow(t0, s.t) <==> r in GradedBy(s.log)
              else r in SettledNow(t0, s.t)
    ensures SettledNow(t0, s.t) <= GradedBy(s.log)
            <==> forall r | r in DueIds(t0.records) && t0.records[r].degree != Unknown :: r in GradedBy(s.log)
  {
    hide GradedBy, Marked;
    forall r | r in DueIds(t0.records) && t0.records[r].degree == Unknown && r !in GradedBy(s.log)
      ensures r !in SettledNow(t0, s.t) {
      assert s.t.records[r] == t0.records[r].(attempted := r in Marked(s.log));
    }
    assert forall r | r in DueIds(t0.records) && t0.records[r].degree != Unknown :: r in SettledNow(t0, s.t);
    assert SettledNow(t0, s.t) <= DueIds(t0.records);
    if forall r | r in DueIds(t0.records) && t0.records[r].degree != Unknown :: r in GradedBy(s.log) {
      forall r | r in SettledNow(t0, s.t) ensures r in GradedBy(s.log) {
        assert r in DueIds(t0.records);
      }
    }
  }
}
