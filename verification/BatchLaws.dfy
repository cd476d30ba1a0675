/** What a whole batch transaction does to the tables: it commits, it keeps them sound, it can
    only shrink the backlog, and it announces the transitions it makes as if they were one. */
module BatchLaws {
  import opened Wrappers
  import opened CourtRecords
  import opened Enrichment
  import opened EnrichmentLaws
  import opened EnrichmentBatch

  /** ParseBatch keys every process by its own number, with what DATAJUD reports of it. */
  ghost predicate HitsFor(hits: Hits, reports: Reports) {
    forall k | k in hits ::
      hits[k].record.cnj == k && Reported(hits[k].record, reports)
  }

  /** The scanned rows still exist under the numbers they were scanned with. */
  ghost predicate Scanned(records: map<RecordId, CourtRecord>, due: seq<DueRecord>) {
    forall d | d in due :: d.id in records && records[d.id].cnj == d.cnj
  }

  // ---- What no transaction ever undoes ----

  /** Records stay, under their number, case and court; retirement is final; nothing becomes
      due. */
  ghost predicate RecordsProgress(before: map<RecordId, CourtRecord>, after: map<RecordId, CourtRecord>) {
    && after.Keys == before.Keys
    && forall r | r in before ::
         && after[r].cnj == before[r].cnj && after[r].caseId == before[r].caseId && after[r].court == before[r].court
         && (before[r].attempted ==> after[r].attempted)
         && (before[r].lifecycle == Superseded ==> after[r].lifecycle == Superseded)
         && (Due(after[r]) ==> Due(before[r]))
  }

  /** The children stay: same intimations and deadlines, only anchors and assignees move. */
  ghost predicate ChildrenStay(before: Tables, after: Tables) {
    && after.intimations.Keys == before.intimations.Keys
    && after.deadlines.Keys == before.deadlines.Keys
    && (forall i | i in before.intimations ::
          after.intimations[i].hash == before.intimations[i].hash && after.intimations[i].caseId == before.intimations[i].caseId)
    && (forall d | d in before.deadlines :: after.deadlines[d].intimationId == before.deadlines[d].intimationId)
  }

  /** Everything a grade leaves alone. */
  ghost predicate Frame(before: Tables, after: Tables) {
    && RecordsProgress(before.records, after.records)
    && (forall r | r in before.records :: after.records[r].attempted == before.records[r].attempted)
    && ChildrenStay(before, after)
    && after.cases == before.cases && after.processed == before.processed && after.run == before.run
    && before.docket <= after.docket
  }

  lemma GradeFrame(t: Tables, id: RecordId, p: ParsedProcess, nextSync: Instant, reports: Reports)
    requires SoundRecords(t.records, reports) && ForeignKeys(t) && HitFor(t.records, id, p, reports)
    ensures GradeTx(t, id, p, nextSync).Ok?
    ensures Frame(t, GradeTx(t, id, p, nextSync).value.tables)
  {
    GradeCommits(t, id, p, nextSync, reports);
    ChildrenFollowTheGrade(t, id, p, nextSync, reports);
    RivalIsAlive(t, id, p, reports);
    RowsProgress(t, id, p, nextSync, reports);
    hide GradeTx, Target, Rival, RecordsAfter, SoundRecords, ForeignKeys, HitFor, OnlyReanchored, Announcements, RecordsProgress;
    AnchorsAside(t.intimations, GradeTx(t, id, p, nextSync).value.tables.intimations, id, Target(t, id, p));
  }

  lemma RowsProgress(t: Tables, id: RecordId, p: ParsedProcess, nextSync: Instant, reports: Reports)
    requires SoundRecords(t.records, reports) && HitFor(t.records, id, p, reports)
    ensures var after := RecordsAfter(t, id, p, nextSync);
            RecordsProgress(t.records, after) && forall r | r in t.records :: after[r].attempted == t.records[r].attempted
  {
    RivalIsAlive(t, id, p, reports);
    var target := Target(t, id, p);
    assert t.records[target].cnj == p.record.cnj;
    hide Rival, Target, UniqueKeys, GradedTwin;
  }

  lemma AnchorsAside(before: map<IntimationId, Intimation>, after: map<IntimationId, Intimation>, from: RecordId, to: RecordId)
    requires OnlyReanchored(before, after, from, to)
    ensures forall i | i in before :: after[i].hash == before[i].hash && after[i].caseId == before[i].caseId
    ensures forall i | i in before :: after[i].recordId == if before[i].recordId == from then to else before[i].recordId
  {
    forall i | i in before
      ensures after[i].hash == before[i].hash && after[i].caseId == before[i].caseId
      ensures after[i].recordId == if before[i].recordId == from then to else before[i].recordId
    {
      var a, b := after[i].(assignee := None), before[i].(assignee := None, recordId := if before[i].recordId == from then to else before[i].recordId);
      assert a == b;
      assert a.hash == b.hash && a.caseId == b.caseId && a.recordId == b.recordId;
    }
  }

  lemma GradeKeepsForeignKeys(t: Tables, id: RecordId, p: ParsedProcess, nextSync: Instant, reports: Reports)
    requires SoundRecords(t.records, reports) && ForeignKeys(t) && HitFor(t.records, id, p, reports)
    ensures GradeTx(t, id, p, nextSync).Ok?
    ensures ForeignKeys(GradeTx(t, id, p, nextSync).value.tables)
  {
    GradeFrame(t, id, p, nextSync, reports);
    ChildrenFollowTheGrade(t, id, p, nextSync, reports);
    RivalIsAlive(t, id, p, reports);
    AnchorsAside(t.intimations, GradeTx(t, id, p, nextSync).value.tables.intimations, id, Target(t, id, p));
  }

  ghost function OwedDocket(t: Tables, after: Tables, r: RecordId, h: Hash): nat {
    if (r, h) in after.docket && (r, h) !in t.docket then 1 else 0
  }

  /** Everything a committed transaction may have to announce. */
  ghost function OwedInAll(t: Tables, after: Tables, e: Event): nat {
    Owed(t.records, after.records, e) + if e.DocketObserved? then OwedDocket(t, after, e.recordId, e.hash) else 0
  }

  /** Announcing no more than is owed keeps the outbox honest: retirement is final, the
      docket only grows. */
  lemma PayingKeepsHonest(t: Tables, after: Tables)
    requires HonestOutbox(t) && RecordsProgress(t.records, after.records) && t.docket <= after.docket
    requires forall e: Event | !e.BatchRequested? :: Count(after, e) <= Count(t, e) + OwedInAll(t, after, e)
    ensures HonestOutbox(after)
  {
    forall r ensures Count(after, RecordSuperseded(r)) <= if r in after.records && after.records[r].lifecycle == Superseded then 1 else 0 {
      assert Count(after, RecordSuperseded(r)) <= Count(t, RecordSuperseded(r)) + Owed(t.records, after.records, RecordSuperseded(r));
      assert r in after.records <==> r in t.records;
    }
    forall r, h ensures Count(after, DocketObserved(r, h)) <= if (r, h) in after.docket then 1 else 0 {
      assert Count(after, DocketObserved(r, h)) <= Count(t, DocketObserved(r, h)) + OwedDocket(t, after, r, h);
    }
  }

  /** One grade keeps the tables sound. */
  lemma GradeKeepsSound(t: Tables, id: RecordId, p: ParsedProcess, nextSync: Instant, reports: Reports)
    requires Sound(t, reports) && HitFor(t.records, id, p, reports)
    ensures GradeTx(t, id, p, nextSync).Ok?
    ensures Sound(GradeTx(t, id, p, nextSync).value.tables, reports)
  {
    GradeCommits(t, id, p, nextSync, reports);
    GradeKeepsRecordsSound(t, id, p, nextSync, reports);
    GradeKeepsForeignKeys(t, id, p, nextSync, reports);
    GradeFrame(t, id, p, nextSync, reports);
    hide GradeTx, SoundRecords, ForeignKeys, HitFor, RecordsProgress, ChildrenStay, HonestOutbox, Announcements, Target, RecordsAfter, Count, Owed, OwedDocket;
    var after := GradeTx(t, id, p, nextSync).value.tables;
    forall e ensures Count(after, e) == Count(t, e) + Owed(t.records, after.records, e) {
      GradeAnnouncesItsTransitions(t, id, p, nextSync, reports, e);
    }
    PayingKeepsHonest(t, after);
  }

  // ---- The loop over the scanned records ----

  /** Where the loop leaves a record's lifecycle: untouched, retired, or at what DATAJUD says. */
  ghost predicate Settled(before: map<RecordId, CourtRecord>, after: map<RecordId, CourtRecord>, hits: Hits) {
    forall r | r in before && r in after ::
      || after[r].lifecycle == before[r].lifecycle
      || after[r].lifecycle == Superseded
      || (after[r].degree != Unknown && after[r].cnj in hits && hits[after[r].cnj].record.lifecycle == Some(after[r].lifecycle))
  }

  lemma FrameTransitive(a: Tables, b: Tables, c: Tables)
    requires Frame(a, b) && Frame(b, c)
    ensures Frame(a, c)
  {
  }

  /** How one grade moves a lifecycle: to what the hit says, or into retirement. */
  lemma GradeSettles(t: Tables, id: RecordId, p: ParsedProcess, nextSync: Instant, reports: Reports, r: RecordId)
    requires SoundRecords(t.records, reports) && ForeignKeys(t) && HitFor(t.records, id, p, reports) && r in t.records
    ensures GradeTx(t, id, p, nextSync).Ok?
    ensures var after := GradeTx(t, id, p, nextSync).value.tables.records;
            && r in after && after[r].cnj == t.records[r].cnj
            && (t.records[r].degree != Unknown ==> after[r].degree == t.records[r].degree)
            && (after[r].lifecycle != t.records[r].lifecycle ==>
                  || (after[r].lifecycle == Superseded && t.records[r].degree == Unknown)
                  || (after[r].degree != Unknown && after[r].cnj == p.record.cnj && p.record.lifecycle == Some(after[r].lifecycle)))
  {
    GradeCommits(t, id, p, nextSync, reports);
    RivalIsAlive(t, id, p, reports);
  }

  /** Announcing the transitions of two stretches is announcing those of the whole. */
  lemma OwedAdds(a: map<RecordId, CourtRecord>, b: map<RecordId, CourtRecord>, c: map<RecordId, CourtRecord>, hits: Hits, e: Event)
    requires RecordsProgress(a, b) && RecordsProgress(b, c)
    requires Settled(a, b, hits)
    requires forall r | r in b && r in c && c[r].lifecycle != b[r].lifecycle ::
               || (c[r].lifecycle == Superseded && b[r].degree == Unknown)
               || (b[r].cnj in hits && hits[b[r].cnj].record.lifecycle == Some(c[r].lifecycle))
    ensures Owed(a, b, e) + Owed(b, c, e) == Owed(a, c, e)
  {
    if (e.RecordArchived? || e.RecordSuperseded?) && e.recordId in a {
      var r := e.recordId;
      assert r in b && r in c;
    }
  }

  ghost predicate LoopLaw(t: Tables, after: Tables, hits: Hits, reports: Reports) {
    && Sound(after, reports) && Frame(t, after) && Settled(t.records, after.records, hits)
    && (forall e :: Count(after, e) == Count(t, e) + Owed(t.records, after.records, e))
  }

  /** The loop never faults, and at its end the books balance. */
  lemma {:induction false} GradeAllLaw(t: Tables, due: seq<DueRecord>, hits: Hits, nextSync: Instant, reports: Reports)
    requires Sound(t, reports) && HitsFor(hits, reports) && Scanned(t.records, due)
    ensures GradeAll(t, due, hits, nextSync).Ok?
    ensures LoopLaw(t, GradeAll(t, due, hits, nextSync).value, hits, reports)
  {
    if due != [] {
      var n := |due| - 1;
      GradeAllLaw(t, due[..n], hits, nextSync, reports);
      var mid := GradeAll(t, due[..n], hits, nextSync).value;
      assert due[n] in due;
      GradeOneLaw(t, mid, due[n], hits, nextSync, reports);
    }
  }

  lemma GradeOneLaw(t: Tables, mid: Tables, d: DueRecord, hits: Hits, nextSync: Instant, reports: Reports)
    requires HitsFor(hits, reports) && LoopLaw(t, mid, hits, reports)
    requires d.id in t.records && t.records[d.id].cnj == d.cnj
    ensures GradeOne(mid, d, hits, nextSync).Ok?
    ensures LoopLaw(t, GradeOne(mid, d, hits, nextSync).value, hits, reports)
  {
    if Gradable(d, hits) {
      var p := hits[d.cnj];
      assert HitFor(mid.records, d.id, p, reports);
      GradeKeepsSound(mid, d.id, p, nextSync, reports);
      GradeFrame(mid, d.id, p, nextSync, reports);
      var after := GradeTx(mid, d.id, p, nextSync).value.tables;
      FrameTransitive(t, mid, after);
      forall r | r in mid.records
        ensures after.records[r].lifecycle != mid.records[r].lifecycle ==>
                  || (after.records[r].lifecycle == Superseded && mid.records[r].degree == Unknown)
                  || (mid.records[r].cnj in hits && hits[mid.records[r].cnj].record.lifecycle == Some(after.records[r].lifecycle))
        ensures || after.records[r].lifecycle == t.records[r].lifecycle
                || after.records[r].lifecycle == Superseded
                || (after.records[r].degree != Unknown && after.records[r].cnj in hits
                    && hits[after.records[r].cnj].record.lifecycle == Some(after.records[r].lifecycle))
      {
        GradeSettles(mid, d.id, p, nextSync, reports, r);
      }
      forall e ensures Count(after, e) == Count(t, e) + Owed(t.records, after.records, e) {
        GradeAnnouncesItsTransitions(mid, d.id, p, nextSync, reports, e);
        OwedAdds(t.records, mid.records, after.records, hits, e);
      }
    }
  }

  // ---- The whole transaction ----

  /** Marking attempted rows touches nothing the grade laws speak of. */
  lemma MarkingKeeps(records: map<RecordId, CourtRecord>, ids: set<RecordId>, reports: Reports)
    requires SoundRecords(records, reports)
    ensures var marked := MarkAttempted(records, ids);
            && SoundRecords(marked, reports) && RecordsProgress(records, marked)
            && (forall r | r in records :: marked[r] == records[r].(attempted := records[r].attempted || r in ids))
  {
    var marked := MarkAttempted(records, ids);
    forall r | r in marked && marked[r].lifecycle == Superseded
      ensures GradedTwin(marked, r, reports)
    {
      var twin :| twin in records && records[twin].cnj == records[r].cnj && records[twin].degree == reports(records[r].cnj).degree;
      assert marked[twin].degree == reports(marked[r].cnj).degree;
    }
  }

  lemma ProgressTransitive(a: map<RecordId, CourtRecord>, b: map<RecordId, CourtRecord>, c: map<RecordId, CourtRecord>)
    requires RecordsProgress(a, b) && RecordsProgress(b, c)
    ensures RecordsProgress(a, c)
  {
  }

  /** The tables once the loop of a first delivery is through. */
  ghost function Looped(t: Tables, step: BatchStep, due: seq<DueRecord>, hits: Hits, nextSync: Instant): Result<Tables, Fault> {
    GradeAll(t.(processed := t.processed + {BatchDone(step)}), due, hits, nextSync)
  }

  lemma LoopedLaw(t: Tables, step: BatchStep, due: seq<DueRecord>, hits: Hits, nextSync: Instant, reports: Reports)
    requires Sound(t, reports) && HitsFor(hits, reports) && Scanned(t.records, due)
    ensures Looped(t, step, due, hits, nextSync).Ok?
    ensures LoopLaw(t.(processed := t.processed + {BatchDone(step)}), Looped(t, step, due, hits, nextSync).value, hits, reports)
  {
    var marked := t.(processed := t.processed + {BatchDone(step)});
    SameTablesSound(t, marked, reports);
    GradeAllLaw(marked, due, hits, nextSync, reports);
  }

  /** A first delivery of a step always commits, marks the whole snapshot attempted and
      nothing else, and undoes nothing. */
  lemma ApplyMarks(t: Tables, step: BatchStep, due: seq<DueRecord>, hits: Hits, errs: nat, nextSync: Instant, reports: Reports)
    requires Sound(t, reports) && HitsFor(hits, reports) && Scanned(t.records, due)
    requires BatchDone(step) !in t.processed
    ensures ApplyTx(t, step, due, hits, errs, nextSync).Ok?
    ensures var after := ApplyTx(t, step, due, hits, errs, nextSync).value;
            && SoundRecords(after.records, reports)
            && RecordsProgress(t.records, after.records)
            && (forall r | r in t.records :: after.records[r].attempted == (t.records[r].attempted || r in Ids(due)))
  {
    LoopedLaw(t, step, due, hits, nextSync, reports);
    var g := Looped(t, step, due, hits, nextSync).value;
    MarkingKeeps(g.records, Ids(due), reports);
    var after := MarkAttempted(g.records, Ids(due));
    ProgressTransitive(t.records, g.records, after);
    assert ApplyTx(t, step, due, hits, errs, nextSync).value.records == after;
  }

  lemma MarkingKeepsAnchors(t: Tables, ids: set<RecordId>)
    requires ForeignKeys(t)
    ensures ForeignKeys(t.(records := MarkAttempted(t.records, ids)))
  {
  }

  /** Its other tables: no child is lost, the step is remembered, the counter moves by what the
      step graded and could not parse. */
  lemma ApplyRemembers(t: Tables, step: BatchStep, due: seq<DueRecord>, hits: Hits, errs: nat, nextSync: Instant, reports: Reports)
    requires Sound(t, reports) && HitsFor(hits, reports) && Scanned(t.records, due)
    requires BatchDone(step) !in t.processed
    ensures ApplyTx(t, step, due, hits, errs, nextSync).Ok?
    ensures var after := ApplyTx(t, step, due, hits, errs, nextSync).value;
            var graded := GradedCount(due, hits);
            && ForeignKeys(after) && ChildrenStay(t, after)
            && t.docket <= after.docket && after.cases == t.cases
            && after.processed == t.processed + {BatchDone(step)}
            && after.run == (if graded > 0 || errs > 0 then Bumped(t.run, graded, errs) else t.run)
  {
    LoopedLaw(t, step, due, hits, nextSync, reports);
    var g := Looped(t, step, due, hits, nextSync).value;
    MarkingKeepsAnchors(g, Ids(due));
    var after := ApplyTx(t, step, due, hits, errs, nextSync).value;
    assert after.records == MarkAttempted(g.records, Ids(due));
    assert after.intimations == g.intimations && after.deadlines == g.deadlines && after.cases == g.cases;
  }

  /** What a first delivery announces: the transitions the whole step makes, and no movement. */
  lemma ApplyPays(t: Tables, step: BatchStep, due: seq<DueRecord>, hits: Hits, errs: nat, nextSync: Instant, reports: Reports, e: Event)
    requires Sound(t, reports) && HitsFor(hits, reports) && Scanned(t.records, due)
    requires BatchDone(step) !in t.processed
    ensures ApplyTx(t, step, due, hits, errs, nextSync).Ok?
    ensures var after := ApplyTx(t, step, due, hits, errs, nextSync).value;
            Count(after, e) == Count(t, e) + Owed(t.records, after.records, e) + if e == BatchRequested(NextStep(step)) then 1 else 0
  {
    LoopedLaw(t, step, due, hits, nextSync, reports);
    var g := Looped(t, step, due, hits, nextSync).value;
    MarkingKeeps(g.records, Ids(due), reports);
    CountAppend(g.outbox, [BatchRequested(NextStep(step))], e);
    assert Count(g, e) == Count(t, e) + Owed(t.records, g.records, e);
  }

  lemma SameTablesSound(t: Tables, u: Tables, reports: Reports)
    requires Sound(t, reports)
    requires u.records == t.records && u.intimations == t.intimations && u.deadlines == t.deadlines
             && u.docket == t.docket && u.cases == t.cases && u.outbox == t.outbox
    ensures Sound(u, reports)
  {
    assert forall e :: Count(u, e) == Count(t, e);
  }
}
