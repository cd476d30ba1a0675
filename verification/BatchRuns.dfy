/** What holds of every execution of the batch protocol: no due record is attempted twice, no
    import is forgotten, the chain ends, and the counter row tells the truth. */
module BatchRuns {
  import opened CourtRecords
  import opened EnrichmentLaws
  import opened EnrichmentBatch
  import opened BatchProtocol

  lemma StepKeepsInv(t0: Tables, s: State, a: Action, reports: Reports)
    requires Inv(t0, s, reports) && Enabled(s, a, reports)
    ensures Inv(t0, After(s, a), reports)
  {
    match a
    case Deliver(step) => DeliverKeepsInv(t0, s, step, reports);
    case Apply(step, due, hits, errs, nextSync, ack) => ApplyKeepsInv(t0, s, step, due, hits, errs, nextSync, ack, reports);
    case CloseImport(step, ack) => CloseKeepsInv(t0, s, step, ack, reports);
    case ArchiveStep(step) => ArchiveKeepsInv(t0, s, step, reports);
    case Poll(ev, fetched, nextSync) => PollKeepsInv(t0, s, ev, fetched, nextSync, reports);
  }

  lemma ArchiveKeepsInv(t0: Tables, s: State, step: BatchStep, reports: Reports)
    requires Inv(t0, s, reports)
    ensures Inv(t0, s.(archived := s.archived + {step}), reports)
  {
    var s' := s.(archived := s.archived + {step});
    forall w | w in s'.workers ensures WorkerOk(t0, s', w) {
      assert WorkerOk(t0, s, w);
    }
    assert Quiet(s') == Quiet(s);
  }

  lemma {:induction false} EveryStateIsSound(ss: seq<State>, as_: seq<Action>, reports: Reports, i: nat)
    requires Execution(ss, as_, reports) && i < |ss|
    ensures Inv(ss[0].t, ss[i], reports)
  {
    if i == 0 {
      InitHolds(ss[0], reports);
    } else {
      EveryStateIsSound(ss, as_, reports, i - 1);
      StepKeepsInv(ss[0].t, ss[i - 1], as_[i - 1], reports);
    }
  }

  // ---- Exactly once ----

  /** In how many applied steps record `r` was marked attempted. */
  function Times(log: seq<Entry>, r: RecordId): nat {
    if log == [] then 0 else Times(log[..|log| - 1], r) + if r in log[|log| - 1].marked then 1 else 0
  }

  lemma {:induction false} ExclusiveTimes(log: seq<Entry>, r: RecordId)
    requires Exclusive(log)
    ensures Times(log, r) == if r in Marked(log) then 1 else 0
  {
    if log != [] {
      var n := |log| - 1;
      ExclusiveTimes(log[..n], r);
      if r in log[n].marked && r in Marked(log[..n]) {
        var e := MarkedBy(log[..n], r);
        assert false;
      }
    }
  }

  lemma {:induction false} MarkedBy(log: seq<Entry>, r: RecordId) returns (e: Entry)
    requires r in Marked(log)
    ensures e in log && r in e.marked
  {
    var n := |log| - 1;
    if r in log[n].marked {
      e := log[n];
    } else {
      e := MarkedBy(log[..n], r);
    }
  }

  /** Under every interleaving, redelivery and aborted attempt, a record due when the import
      began is marked attempted by exactly one applied step or, while unmarked, by none; a
      record that was not due is marked by none. */
  lemma EachDueRecordIsAttemptedOnce(ss: seq<State>, as_: seq<Action>, reports: Reports, i: nat, r: RecordId)
    requires Execution(ss, as_, reports) && i < |ss| && r in ss[0].t.records
    ensures r in ss[i].t.records
    ensures Times(ss[i].log, r) == if ss[i].t.records[r].attempted && r in DueIds(ss[0].t.records) then 1 else 0
  {
    EveryStateIsSound(ss, as_, reports, i);
    ExclusiveTimes(ss[i].log, r);
    assert r in ss[0].t.records.Keys;
    if r in Marked(ss[i].log) {
      var e := MarkedBy(ss[i].log, r);
      assert EntryOk(ss[0].t, e);
    }
  }

  // ---- Pending, archived, or closed ----

  ghost predicate Pending(s: State) {
    exists c :: c in s.next && Published(s.t, BatchStep(c, s.next[c]))
                && BatchStep(c, s.next[c]) !in s.acked && BatchStep(c, s.next[c]) !in s.archived
  }

  predicate Stalled(s: State) {
    exists c :: c in s.next && BatchStep(c, s.next[c]) in s.archived
  }

  predicate Concluded(s: State) {
    && s.t.run.Some? && s.t.run.value.status == TerminalStatus(s.t.run.value.errors)
    && DueIds(s.t.records) == {}
  }

  /** No import is forgotten: in every reachable state some step is still owed a delivery, or
      a step was archived, or the import is closed under the right status with nothing due. */
  lemma NoImportIsForgotten(ss: seq<State>, as_: seq<Action>, reports: Reports, i: nat)
    requires Execution(ss, as_, reports) && i < |ss|
    ensures Pending(ss[i]) || Stalled(ss[i]) || Concluded(ss[i])
  {
    EveryStateIsSound(ss, as_, reports, i);
    var s := ss[i];
    if !Pending(s) && !Stalled(s) {
      forall c | c in s.next ensures BatchStep(c, s.next[c]) in s.acked {
        assert Count(s.t, BatchRequested(BatchStep(c, s.next[c]))) == 1;
      }
      assert Quiet(s);
      QuietIsDrained(ss[0].t, s, reports);
    }
  }

  lemma QuietIsDrained(t0: Tables, s: State, reports: Reports)
    requires Inv(t0, s, reports) && Quiet(s)
    ensures DueIds(s.t.records) == {}
  {
    assert forall c | c in s.next :: DueIdsOf(s.t.records, c) == {};
    forall r | r in s.t.records ensures !Due(s.t.records[r]) {
      var c := s.t.records[r].court;
      assert r in s.t.records.Keys && r in t0.records;
      assert c in s.next ==> r !in DueIdsOf(s.t.records, c);
    }
  }

  // ---- The chain ends ----

  /** The records of the import no step has marked yet. */
  ghost function Backlog(t0: Tables, t: Tables): set<RecordId>
    requires t0.records.Keys == t.records.Keys
  {
    set r | r in DueIds(t0.records) && !t.records[r].attempted
  }

  /** Every applied step shortens the backlog, for good: there are at most as many applied
      steps, over all courts, as there were due records. */
  lemma TheChainEnds(ss: seq<State>, as_: seq<Action>, reports: Reports, i: nat)
    requires Execution(ss, as_, reports) && i < |ss|
    ensures ss[0].t.records.Keys == ss[i].t.records.Keys
    ensures |ss[i].log| + |Backlog(ss[0].t, ss[i].t)| <= |DueIds(ss[0].t.records)|
    ensures forall j, k | 0 <= j < k < |ss[i].log| :: ss[i].log[j].step != ss[i].log[k].step
  {
    EveryStateIsSound(ss, as_, reports, i);
    BacklogShrinks(ss[0].t, ss[i]);
  }

  lemma BacklogShrinks(t0: Tables, s: State)
    requires Logged(t0, s) && t0.records.Keys == s.t.records.Keys
    ensures |s.log| + |Backlog(t0, s.t)| <= |DueIds(t0.records)|
  {
    EachEntryMarks(t0, s.log);
    forall r | r in Backlog(t0, s.t) ensures r !in Marked(s.log) && r in DueIds(t0.records) {
      assert r in t0.records && r in s.t.records.Keys;
    }
    UnionFits(Backlog(t0, s.t), Marked(s.log), DueIds(t0.records));
  }

  lemma UnionFits(a: set<RecordId>, b: set<RecordId>, c: set<RecordId>)
    requires a <= c && b <= c && a !! b
    ensures |a| + |b| <= |c|
  {
    assert |a + b| == |a| + |b|;
    SubsetFits(a + b, c);
  }

  lemma {:induction false} SubsetFits(a: set<RecordId>, b: set<RecordId>)
    requires a <= b
    ensures |a| <= |b|
  {
    assert b == a + (b - a) && |b| == |a| + |b - a|;
  }

  lemma {:induction false} EachEntryMarks(t0: Tables, log: seq<Entry>)
    requires Exclusive(log) && forall e | e in log :: EntryOk(t0, e)
    ensures |log| <= |Marked(log)| && Marked(log) <= DueIds(t0.records)
  {
    if log != [] {
      var n := |log| - 1;
      var last := log[n];
      EachEntryMarks(t0, log[..n]);
      assert last in log && EntryOk(t0, last);
      forall r | r in Marked(log[..n]) ensures r !in last.marked {
        var e := MarkedBy(log[..n], r);
      }
      assert |Marked(log)| == |Marked(log[..n])| + |last.marked|;
      assert |last.marked| > 0;
    }
  }

  // ---- The counter row ----

  function GradedBy(log: seq<Entry>): set<RecordId> {
    if log == [] then {} else GradedBy(log[..|log| - 1]) + log[|log| - 1].graded
  }

  lemma {:induction false} GradedSum(t0: Tables, log: seq<Entry>)
    requires Exclusive(log) && forall e | e in log :: EntryOk(t0, e)
    ensures |GradedBy(log)| == SumGraded(log) && GradedBy(log) <= Marked(log)
  {
    if log != [] {
      var n := |log| - 1;
      var last := log[n];
      GradedSum(t0, log[..n]);
      assert last in log && EntryOk(t0, last);
      forall r | r in GradedBy(log[..n]) ensures r !in last.graded {
        var e := MarkedBy(log[..n], r);
      }
    }
  }

  lemma {:induction false} SomeErrs(log: seq<Entry>)
    ensures SumErrs(log) > 0 <==> exists e :: e in log && e.errs > 0
  {
    if log != [] {
      var n := |log| - 1;
      SomeErrs(log[..n]);
      assert forall e :: e in log <==> e in log[..n] || e == log[n];
    }
  }

  /** At every moment the applied count is the number of distinct records graded so far. */
  lemma TheCountIsExact(ss: seq<State>, as_: seq<Action>, reports: Reports, i: nat)
    requires Execution(ss, as_, reports) && i < |ss|
    ensures var s := ss[i];
            && (s.t.run.None? ==> GradedBy(s.log) == {})
            && (s.t.run.Some? ==> s.t.run.value.updated == |GradedBy(s.log)|)
  {
    EveryStateIsSound(ss, as_, reports, i);
    GradedSum(ss[0].t, ss[i].log);
  }

  /** When nothing is pending and nothing was archived, the status is PARTIAL exactly when some
      applied step met a hit it could not parse, and OK otherwise, whatever was not found. */
  lemma TheStatusIsExact(ss: seq<State>, as_: seq<Action>, reports: Reports, i: nat)
    requires Execution(ss, as_, reports) && i < |ss|
    requires !Pending(ss[i]) && !Stalled(ss[i])
    ensures var s := ss[i];
            && s.t.run.Some?
            && (s.t.run.value.status == RunPartial <==> exists e :: e in s.log && e.errs > 0)
            && (s.t.run.value.status == RunOk <==> forall e | e in s.log :: e.errs == 0)
  {
    EveryStateIsSound(ss, as_, reports, i);
    NoImportIsForgotten(ss, as_, reports, i);
    SomeErrs(ss[i].log);
  }
}
