/** When the counter row of an import is final: no continuation whatever, polls and repeats
    included, changes it any more. */
module FinalRows {
  import opened CourtRecords
  import opened Enrichment
  import opened EnrichmentLaws
  import opened EnrichmentBatch
  import opened BatchLaws
  import opened EnrichmentRuns
  import opened BatchProtocol
  import opened BatchRuns

  /** Some delivery has scanned rows for a step that is not applied yet. */
  ghost predicate OpenScan(s: State) {
    exists w :: w in s.workers && w.Scan? && BatchDone(w.step) !in s.t.processed
  }

  ghost predicate RowIsFinal(s: State, reports: Reports) {
    forall ss: seq<State>, as_: seq<Action> :: Continues(ss, as_, reports) && ss[0] == s ==> ss[|as_|].t.run == s.t.run
  }

  /** The import is closed under the right status with nothing due, and no scan is open. */
  ghost predicate Resting(s: State) {
    Concluded(s) && !OpenScan(s)
  }

  // ---- A resting row stands ----

  lemma NothingIsScanned(s: State, step: BatchStep)
    requires DueIds(s.t.records) == {}
    ensures After(s, Deliver(step)) == s.(workers := s.workers + {Drained(step)})
  {
    assert forall r :: r in DueIdsOf(s.t.records, step.court) ==> r in DueIds(s.t.records);
    assert DueIdsOf(s.t.records, step.court) == {};
  }

  lemma PollLeavesTheRow(t0: Tables, s: State, ev: ObservedEvent, fetched: Fetched, nextSync: Instant, reports: Reports)
    requires Inv(t0, s, reports) && ObservationOf(s.t, ev, fetched, reports) && DueIds(s.t.records) == {}
    ensures var s' := After(s, Poll(ev, fetched, nextSync));
            && s'.t.run == s.t.run && s'.workers == s.workers && DueIds(s'.t.records) == {}
            && forall step :: BatchDone(step) in s'.t.processed <==> BatchDone(step) in s.t.processed
  {
    hide Sound, Chained, WorkersOk, Logged, Counted, Settling, EnrichTx, RecordsProgress, ObservationOf;
    if Triage(ev, fetched).None? {
      assert HitFor(s.t.records, ev.recordId, fetched.process, reports) by {
        PolledHit(s.t, ev, fetched, reports);
      }
      PollIsAside(s.t, ev, fetched.process, nextSync, reports);
      DueShrinks(s.t.records, EnrichTx(s.t, ev, fetched.process, nextSync).value.records, "");
    }
  }

  lemma PolledHit(t: Tables, ev: ObservedEvent, fetched: Fetched, reports: Reports)
    requires ObservationOf(t, ev, fetched, reports) && Triage(ev, fetched).None?
    ensures HitFor(t.records, ev.recordId, fetched.process, reports)
  {
  }

  lemma StepLeavesTheRow(t0: Tables, s: State, a: Action, reports: Reports)
    requires Inv(t0, s, reports) && Enabled(s, a, reports) && Resting(s)
    ensures Resting(After(s, a)) && After(s, a).t.run == s.t.run
  {
    hide Inv, RecordsProgress, ObservationOf, HitsFor;
    match a
    case Deliver(step) =>
      NothingIsScanned(s, step);
    case Apply(step, due, hits, errs, nextSync, ack) =>
      assert Scan(step, due).Scan?;
    case CloseImport(step, ack) =>
    case ArchiveStep(step) =>
    case Poll(ev, fetched, nextSync) =>
      PollLeavesTheRow(t0, s, ev, fetched, nextSync, reports);
  }

  lemma {:induction false} TheRowStands(t0: Tables, s: State, ss: seq<State>, as_: seq<Action>, reports: Reports, k: nat)
    requires Inv(t0, s, reports) && Resting(s) && Continues(ss, as_, reports) && ss[0] == s && k < |ss|
    ensures Inv(t0, ss[k], reports) && Resting(ss[k]) && ss[k].t.run == s.t.run
  {
    hide Inv, Resting, Enabled, After;
    if k > 0 {
      TheRowStands(t0, s, ss, as_, reports, k - 1);
      StepKeepsInv(t0, ss[k - 1], as_[k - 1], reports);
      StepLeavesTheRow(t0, ss[k - 1], as_[k - 1], reports);
    }
  }

  // ---- Any other row can still change ----

  lemma OneMore(s: State, a: Action, reports: Reports)
    requires Enabled(s, a, reports) && RowIsFinal(s, reports)
    ensures After(s, a).t.run == s.t.run
  {
    var ss, as_ := [s, After(s, a)], [a];
    assert Continues(ss, as_, reports) && ss[0] == s;
  }

  lemma TwoMore(s: State, a: Action, b: Action, reports: Reports)
    requires Enabled(s, a, reports) && Enabled(After(s, a), b, reports) && RowIsFinal(s, reports)
    ensures After(After(s, a), b).t.run == s.t.run
  {
    hide Enabled, After;
    var ss, as_ := [s, After(s, a), After(After(s, a), b)], [a, b];
    assert Continues(ss, as_, reports) && ss[0] == s;
  }

  /** A fetch of nothing but one hit that does not parse. */
  function Unparsed(step: BatchStep, due: seq<DueRecord>): Action {
    Apply(step, due, map[], 1, 0, false)
  }

  lemma AnOpenScanCanCount(t0: Tables, s: State, step: BatchStep, due: seq<DueRecord>, reports: Reports)
    requires Inv(t0, s, reports) && Scan(step, due) in s.workers && BatchDone(step) !in s.t.processed
    ensures Enabled(s, Unparsed(step, due), reports) && After(s, Unparsed(step, due)).t.run != s.t.run
  {
    var hits: Hits := map[];
    assert HitsFor(hits, reports);
    FirstApplyFits(t0, s, step, due, hits, reports);
    InvIsSound(t0, s, reports);
    hide Inv, Sound, SnapshotOf, Untouched;
    FirstApplyCounts(s.t, step, due, hits, 1, 0, reports);
  }

  /** The newest step of every court is published and not applied. */
  lemma NewestIsOpen(t0: Tables, s: State, c: Court, reports: Reports)
    requires Inv(t0, s, reports) && c in s.next
    ensures Published(s.t, BatchStep(c, s.next[c])) && BatchDone(BatchStep(c, s.next[c])) !in s.t.processed
  {
    assert Count(s.t, BatchRequested(BatchStep(c, s.next[c]))) == 1;
  }

  lemma DueRowsCanBeScanned(t0: Tables, s: State, reports: Reports)
    requires Inv(t0, s, reports) && DueIds(s.t.records) != {}
    ensures !RowIsFinal(s, reports)
  {
    var r := Pick(DueIds(s.t.records));
    var c := s.t.records[r].court;
    assert r in t0.records.Keys && Due(t0.records[r]) && t0.records[r].court == c;
    NewestIsOpen(t0, s, c, reports);
    var step := BatchStep(c, s.next[c]);
    var due := SelectDue(s.t.records, c, ENRICHMENT_BATCH_SCAN_LIMIT);
    ScanIsSnapshot(t0, s, c);
    assert r in DueIdsOf(s.t.records, c);
    DeliverKeepsInv(t0, s, step, reports);
    hide Inv, SelectDue, RowIsFinal;
    var s' := After(s, Deliver(step));
    assert s' == s.(workers := s.workers + {Scan(step, due)});
    AnOpenScanCanCount(t0, s', step, due, reports);
    if RowIsFinal(s, reports) {
      TwoMore(s, Deliver(step), Unparsed(step, due), reports);
    }
  }

  lemma AnUnclosedImportCloses(t0: Tables, s: State, reports: Reports)
    requires Inv(t0, s, reports) && DueIds(s.t.records) == {} && !Concluded(s)
    ensures !RowIsFinal(s, reports)
  {
    var c := Pick(s.next.Keys);
    NewestIsOpen(t0, s, c, reports);
    var step := BatchStep(c, s.next[c]);
    NothingIsScanned(s, step);
    hide Inv, RowIsFinal;
    if RowIsFinal(s, reports) {
      TwoMore(s, Deliver(step), CloseImport(step, false), reports);
    }
  }

  // ---- The theorems ----

  /** The counter row of an import is final if and only if the import is concluded and no
      delivery still holds rows for a step that is not applied. */
  lemma WhenTheRowIsFinal(ss: seq<State>, as_: seq<Action>, reports: Reports, i: nat)
    requires Execution(ss, as_, reports) && i < |ss|
    ensures RowIsFinal(ss[i], reports) <==> Resting(ss[i])
  {
    hide Inv, Enabled, After, Init;
    EveryStateIsSound(ss, as_, reports, i);
    var t0, s := ss[0].t, ss[i];
    if OpenScan(s) {
      var w :| w in s.workers && w.Scan? && BatchDone(w.step) !in s.t.processed;
      assert w == Scan(w.step, w.due);
      AnOpenScanCanCount(t0, s, w.step, w.due, reports);
      if RowIsFinal(s, reports) {
        OneMore(s, Unparsed(w.step, w.due), reports);
      }
    } else if DueIds(s.t.records) != {} {
      DueRowsCanBeScanned(t0, s, reports);
    } else if !Concluded(s) {
      AnUnclosedImportCloses(t0, s, reports);
    } else {
      forall more: seq<State>, bs: seq<Action> | Continues(more, bs, reports) && more[0] == s ensures more[|bs|].t.run == s.t.run {
        TheRowStands(t0, s, more, bs, reports, |bs|);
      }
    }
  }

  /** What an open scan holds when nothing is due any more: placeholders merged away since the
      import began, though no step has attempted them; only a poll does that. */
  lemma AnOpenScanWasOvertaken(ss: seq<State>, as_: seq<Action>, reports: Reports, i: nat, w: Worker)
    requires Execution(ss, as_, reports) && i < |ss| && DueIds(ss[i].t.records) == {}
    requires w in ss[i].workers && w.Scan? && BatchDone(w.step) !in ss[i].t.processed
    ensures w.due != []
    ensures forall d | d in w.due ::
              && d.id in ss[i].t.records && ss[i].t.records[d.id].lifecycle == Superseded && !ss[i].t.records[d.id].attempted
              && d.id in ss[0].t.records && ss[0].t.records[d.id].lifecycle != Superseded
  {
    EveryStateIsSound(ss, as_, reports, i);
    var s := ss[i];
    assert WorkerOk(ss[0].t, s, w);
    forall d | d in w.due ensures d.id in s.t.records && s.t.records[d.id].lifecycle == Superseded && !s.t.records[d.id].attempted {
      assert d.id !in DueIds(s.t.records) && !s.t.records[d.id].attempted;
    }
  }
}
