/** The batch protocol seen from the tables: every execution of it is a run of enrichment
    transactions, so the laws of runs hold of an import, and, as nothing lands in between,
    sharper ones do. */
module ImportRuns {
  import opened Wrappers
  import opened CourtRecords
  import opened Enrichment
  import opened EnrichmentLaws
  import opened EnrichmentBatch
  import opened BatchLaws
  import opened EnrichmentRuns
  import opened BatchProtocol
  import opened BatchRuns

  ghost function History(ss: seq<State>): (ts: seq<Tables>)
    ensures |ts| == |ss| && forall i | 0 <= i < |ss| :: ts[i] == ss[i].t
  {
    seq(|ss|, i requires 0 <= i < |ss| => ss[i].t)
  }

  // ---- Executions are runs ----

  /** A landing of nothing stands for the actions that touch no table. */
  lemma NothingLands(t: Tables, reports: Reports)
    requires Sound(t, reports)
    ensures Lands(t, t, reports)
  {
  }

  lemma SnapshotsAreScanned(t0: Tables, s: State, step: BatchStep, due: seq<DueRecord>, reports: Reports)
    requires Inv(t0, s, reports) && Scan(step, due) in s.workers
    ensures Scanned(s.t.records, due)
  {
    assert WorkerOk(t0, s, Scan(step, due));
    forall d | d in due ensures d.id in s.t.records && s.t.records[d.id].cnj == d.cnj {
      assert d.id in t0.records.Keys;
    }
  }

  lemma RepeatIsNothing(t: Tables, step: BatchStep, due: seq<DueRecord>, hits: Hits, errs: nat, nextSync: Instant)
    ensures BatchDone(step) in t.processed ==> ApplyTx(t, step, due, hits, errs, nextSync) == Ok(t)
  {
    hide GradeAll;
  }

  /** Each action of the protocol is one transaction on the tables; only a stutter is a landing. */
  lemma ActionIsATransaction(t0: Tables, s: State, a: Action, reports: Reports) returns (x: Tx)
    requires Inv(t0, s, reports) && Enabled(s, a, reports)
    ensures Step(s.t, x, After(s, a).t, reports)
    ensures x.Landing? ==> After(s, a).t == s.t
  {
    InvIsSound(t0, s, reports);
    hide Inv, Sound, Lands, SelectDue, Scanned, HitsFor, ObservationOf, ApplyTx, EnrichTx, CloseTx, EntryOf, Triage;
    match a
    case Deliver(step) =>
      x := Landing;
      NothingLands(s.t, reports);
    case ArchiveStep(step) =>
      x := Landing;
      NothingLands(s.t, reports);
    case Apply(step, due, hits, errs, nextSync, ack) =>
      x := Batch(step, due, hits, errs, nextSync);
      SnapshotsAreScanned(t0, s, step, due, reports);
      AnApplyIsABatch(s, step, due, hits, errs, nextSync, ack, reports);
    case CloseImport(step, ack) =>
      x := Close;
    case Poll(ev, fetched, nextSync) =>
      x := Observe(ev, fetched, nextSync);
      APollIsAnObservation(s, ev, fetched, nextSync, reports);
  }

  lemma AnApplyIsABatch(s: State, step: BatchStep, due: seq<DueRecord>, hits: Hits, errs: nat, nextSync: Instant, ack: bool, reports: Reports)
    requires HitsFor(hits, reports) && Scanned(s.t.records, due)
    ensures Step(s.t, Batch(step, due, hits, errs, nextSync), After(s, Apply(step, due, hits, errs, nextSync, ack)).t, reports)
  {
    RepeatIsNothing(s.t, step, due, hits, errs, nextSync);
    hide ApplyTx, HitsFor, Scanned, EntryOf;
  }

  lemma APollIsAnObservation(s: State, ev: ObservedEvent, fetched: Fetched, nextSync: Instant, reports: Reports)
    requires ObservationOf(s.t, ev, fetched, reports)
    ensures Step(s.t, Observe(ev, fetched, nextSync), After(s, Poll(ev, fetched, nextSync)).t, reports)
  {
    hide EnrichTx, Triage, ObservationOf;
  }

  lemma {:induction false} AnExecutionIsARun(ss: seq<State>, as_: seq<Action>, reports: Reports) returns (xs: seq<Tx>)
    requires Execution(ss, as_, reports)
    ensures Run(History(ss), xs, reports) && Sound(ss[0].t, reports)
    ensures forall i | 0 <= i < |xs| :: xs[i].Landing? ==> ss[i + 1].t == ss[i].t
    decreases |as_|
  {
    hide Inv, Sound, Step, Enabled, After;
    var n := |as_|;
    EveryStateIsSound(ss, as_, reports, 0);
    InvIsSound(ss[0].t, ss[0], reports);
    if n == 0 {
      xs := [];
    } else {
      var before := AnExecutionIsARun(ss[..n], as_[..n - 1], reports);
      EveryStateIsSound(ss, as_, reports, n - 1);
      var x := ActionIsATransaction(ss[0].t, ss[n - 1], as_[n - 1], reports);
      xs := before + [x];
      forall i | 0 <= i < n ensures Step(ss[i].t, xs[i], ss[i + 1].t, reports) {
        if i < n - 1 {
          assert Step(History(ss[..n])[i], before[i], History(ss[..n])[i + 1], reports);
        }
      }
    }
  }

  /** Under every interleaving of chains, stale snapshots, redeliveries and polls, an import
      announces each entry into ARCHIVED once, and a retirement once and only if it happened;
      it undoes nothing, and it neither gains nor loses an intimation or a deadline. */
  lemma AnImportAnnouncesItsTransitions(ss: seq<State>, as_: seq<Action>, reports: Reports, r: RecordId)
    requires Execution(ss, as_, reports) && r in ss[0].t.records
    ensures var first, last := ss[0].t, ss[|as_|].t;
            && Count(last, RecordArchived(r)) == Count(first, RecordArchived(r)) + Entries(History(ss), r, Archived)
            && Count(last, RecordSuperseded(r))
               == Count(first, RecordSuperseded(r)) + (if Enters(first.records, last.records, r, Superseded) then 1 else 0)
            && Progress(first, last)
            && last.intimations.Keys == first.intimations.Keys && last.deadlines.Keys == first.deadlines.Keys
  {
    hide Execution, Run, Sound, Progress, Entries, Enters, Count;
    var xs := AnExecutionIsARun(ss, as_, reports);
    RunLengths(ss, as_, xs, reports);
    ConclusionsAreAnnouncedOncePerEntry(History(ss), xs, reports, r);
    NothingIsUndone(History(ss), xs, reports, 0, |as_|);
    RetirementsHappenOnce(History(ss), xs, reports, r);
    ChildrenAreConserved(History(ss), xs, reports);
  }

  lemma RunLengths(ss: seq<State>, as_: seq<Action>, xs: seq<Tx>, reports: Reports)
    requires Execution(ss, as_, reports) && Run(History(ss), xs, reports)
    ensures |ss| == |as_| + 1 && |xs| == |as_|
  {
    hide Step, Enabled, After, Init;
  }

  /** With retirement final, a record enters it at most once over a whole run. */
  lemma {:induction false} RetirementsHappenOnce(ts: seq<Tables>, xs: seq<Tx>, reports: Reports, r: RecordId)
    requires Run(ts, xs, reports) && Sound(ts[0], reports) && r in ts[0].records
    ensures r in ts[|xs|].records
    ensures Entries(ts, r, Superseded) == if Enters(ts[0].records, ts[|xs|].records, r, Superseded) then 1 else 0
    decreases |xs|
  {
    hide Sound, Step;
    if xs != [] {
      var n := |xs|;
      RetirementsHappenOnce(ts[..n], xs[..n - 1], reports, r);
      NothingIsUndone(ts, xs, reports, 0, n - 1);
      StepProgress(ts, xs, reports, n - 1);
    }
  }

  lemma {:induction false} ChildrenAreConserved(ts: seq<Tables>, xs: seq<Tx>, reports: Reports)
    requires Run(ts, xs, reports) && Sound(ts[0], reports)
    requires forall i | 0 <= i < |xs| :: xs[i].Landing? ==> ts[i + 1] == ts[i]
    ensures ts[|xs|].intimations.Keys == ts[0].intimations.Keys && ts[|xs|].deadlines.Keys == ts[0].deadlines.Keys
    decreases |xs|
  {
    hide Sound, Step;
    if xs != [] {
      var n := |xs|;
      ChildrenAreConserved(ts[..n], xs[..n - 1], reports);
      ConclusionsAreAnnouncedOncePerEntry(ts, xs, reports, 0);
      if !xs[n - 1].Landing? {
        OnlyLandingsAddChildren(ts[n - 1], xs[n - 1], ts[n], reports);
      }
    }
  }

  // ---- Nothing hangs off a retired record ----

  ghost predicate Anchored(t: Tables) {
    && (forall i | i in t.intimations :: t.intimations[i].recordId in t.records && t.records[t.intimations[i].recordId].lifecycle != Superseded)
    && (forall d | d in t.deadlines :: t.deadlines[d].recordId in t.records && t.records[t.deadlines[d].recordId].lifecycle != Superseded)
  }

  lemma GradeKeepsAnchored(t: Tables, id: RecordId, p: ParsedProcess, nextSync: Instant, reports: Reports)
    requires SoundRecords(t.records, reports) && ForeignKeys(t) && HitFor(t.records, id, p, reports) && Anchored(t)
    ensures GradeTx(t, id, p, nextSync).Ok? && Anchored(GradeTx(t, id, p, nextSync).value.tables)
  {
    GradeCommits(t, id, p, nextSync, reports);
    ChildrenFollowTheGrade(t, id, p, nextSync, reports);
    GradeMovesTwoLifecycles(t, id, p, nextSync, reports);
    var after := GradeTx(t, id, p, nextSync).value.tables;
    var target := Target(t, id, p);
    AnchorsAside(t.intimations, after.intimations, id, target);
    assert after.records == RecordsAfter(t, id, p, nextSync);
    assert MovesTwoLifecycles(t.records, after.records, id, target);
    hide GradeTx, Target, Rival, RecordsAfter, SoundRecords, ForeignKeys, HitFor, OnlyReanchored;
    forall i | i in after.intimations
      ensures after.intimations[i].recordId in after.records && after.records[after.intimations[i].recordId].lifecycle != Superseded {
      assert t.intimations[i].recordId in t.records.Keys;
    }
    forall d | d in after.deadlines
      ensures after.deadlines[d].recordId in after.records && after.records[after.deadlines[d].recordId].lifecycle != Superseded {
      assert t.deadlines[d].recordId in t.records.Keys;
    }
  }

  lemma {:induction false} GradeAllKeepsAnchored(t: Tables, due: seq<DueRecord>, hits: Hits, nextSync: Instant, reports: Reports)
    requires Sound(t, reports) && HitsFor(hits, reports) && Scanned(t.records, due) && Anchored(t)
    ensures GradeAll(t, due, hits, nextSync).Ok? && Anchored(GradeAll(t, due, hits, nextSync).value)
  {
    hide Anchored, GradeTx;
    if due != [] {
      var n := |due| - 1;
      GradeAllKeepsAnchored(t, due[..n], hits, nextSync, reports);
      GradeAllLaw(t, due[..n], hits, nextSync, reports);
      var mid := GradeAll(t, due[..n], hits, nextSync).value;
      assert due[n] in due;
      if Gradable(due[n], hits) {
        assert HitFor(mid.records, due[n].id, hits[due[n].cnj], reports);
        GradeKeepsAnchored(mid, due[n].id, hits[due[n].cnj], nextSync, reports);
      }
    }
  }

  lemma StepKeepsAnchored(t: Tables, x: Tx, after: Tables, reports: Reports)
    requires Sound(t, reports) && Step(t, x, after, reports) && Anchored(t) && !x.Landing?
    ensures Anchored(after)
  {
    hide GradeTx, GradeAll, SoundRecords, ForeignKeys, HonestOutbox;
    match x
    case Observe(ev, fetched, nextSync) =>
      if Triage(ev, fetched).None? && EnrichmentDone(ev.eventId) !in t.processed {
        var marked := t.(processed := t.processed + {EnrichmentDone(ev.eventId)});
        SameTablesSound(t, marked, reports);
        GradeKeepsAnchored(marked, ev.recordId, fetched.process, nextSync, reports);
      }
    case Batch(step, due, hits, errs, nextSync) =>
      if BatchDone(step) !in t.processed {
        var marked := t.(processed := t.processed + {BatchDone(step)});
        SameTablesSound(t, marked, reports);
        GradeAllKeepsAnchored(marked, due, hits, nextSync, reports);
      }
    case Close =>
  }

  /** If no intimation or deadline hangs off a retired record when an import begins, none does
      at any moment of it, however many placeholders it merges away. */
  lemma {:induction false} NothingHangsOffARetiredRecord(ss: seq<State>, as_: seq<Action>, reports: Reports, i: nat)
    requires Execution(ss, as_, reports) && Anchored(ss[0].t) && i < |ss|
    ensures Anchored(ss[i].t)
  {
    hide Anchored, Inv, Sound, Step, Enabled, After;
    if i > 0 {
      NothingHangsOffARetiredRecord(ss, as_, reports, i - 1);
      EveryStateIsSound(ss, as_, reports, i - 1);
      InvIsSound(ss[0].t, ss[i - 1], reports);
      var x := ActionIsATransaction(ss[0].t, ss[i - 1], as_[i - 1], reports);
      if !x.Landing? {
        StepKeepsAnchored(ss[i - 1].t, x, ss[i].t, reports);
      }
    }
  }
}
