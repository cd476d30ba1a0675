/** A grade column by column: what each row of court_record holds after it, and what it announces,
    said of the hit and the rows before. */
module GradeColumns {
  import opened Wrappers
  import opened CourtRecords
  import opened Enrichment
  import opened EnrichmentLaws
  import opened EnrichmentBatch
  import opened BatchLaws
  import opened BatchProtocol

  /** The row carries everything the hit discloses. */
  predicate Carries(row: CourtRecord, g: ParsedRecord) {
    && row.degree == g.degree && row.court == g.court && row.details == g.details && row.completeness == g.completeness
    && (g.phase != "" ==> row.phase == g.phase)
    && (g.lifecycle.Some? ==> row.lifecycle == g.lifecycle.value)
  }

  /** What the hit leaves alone: the key's number, the case, the attempt, a schedule that was set,
      and the phase and lifecycle where it discloses none. */
  predicate KeepsTheRest(old_: CourtRecord, row: CourtRecord, g: ParsedRecord, nextSync: Instant) {
    && row.cnj == old_.cnj && row.caseId == old_.caseId && row.attempted == old_.attempted
    && row.nextSyncAt == (if old_.nextSyncAt.Some? then old_.nextSyncAt else Some(nextSync))
    && (g.phase == "" ==> row.phase == old_.phase)
    && (g.lifecycle.None? ==> row.lifecycle == old_.lifecycle)
  }

  /** A placeholder retired by a merge: no schedule, everything else as it was. */
  predicate Retires(old_: CourtRecord, row: CourtRecord) {
    && row.lifecycle == Superseded
    && row.caseId == old_.caseId && row.cnj == old_.cnj && row.degree == old_.degree && row.court == old_.court
    && row.details == old_.details && row.phase == old_.phase && row.completeness == old_.completeness
    && row.attempted == old_.attempted
    && (if old_.lifecycle == Superseded then row.nextSyncAt == old_.nextSyncAt else row.nextSyncAt == None)
  }

  /** Another record already holds the grade: the merge target. */
  ghost predicate HeldBy(records: map<RecordId, CourtRecord>, id: RecordId, g: ParsedRecord, other: RecordId) {
    other in records && other != id && records[other].cnj == g.cnj && records[other].degree == g.degree
  }

  lemma TargetIs(t: Tables, id: RecordId, p: ParsedProcess, reports: Reports)
    requires SoundRecords(t.records, reports) && HitFor(t.records, id, p, reports)
    ensures var target := Target(t, id, p);
            if target == id then forall o :: !HeldBy(t.records, id, p.record, o) else HeldBy(t.records, id, p.record, target)
  {
    if o :| HeldBy(t.records, id, p.record, o) {
      assert SameKey(t.records[o], t.records[o]);
      var found := FindByKey(t.records, p.record.cnj, p.record.degree);
      assert found.Some? && SameKey(t.records[found.value], t.records[o]);
    }
  }

  /** The whole of court_record after a grade, column by column. */
  lemma WhatAGradeWrites(t: Tables, id: RecordId, p: ParsedProcess, nextSync: Instant, reports: Reports)
    requires SoundRecords(t.records, reports) && ForeignKeys(t) && HitFor(t.records, id, p, reports)
    ensures GradeTx(t, id, p, nextSync).Ok?
    ensures var after, target := GradeTx(t, id, p, nextSync).value.tables.records, Target(t, id, p);
            && (if target == id then forall o :: !HeldBy(t.records, id, p.record, o) else HeldBy(t.records, id, p.record, target))
            && target in t.records && after.Keys == t.records.Keys
            && Carries(after[target], p.record) && KeepsTheRest(t.records[target], after[target], p.record, nextSync)
            && (target != id ==> Retires(t.records[id], after[id]))
            && (forall o | o in t.records && o != id && o != target :: after[o] == t.records[o])
  {
    GradeCommits(t, id, p, nextSync, reports);
    RivalIsAlive(t, id, p, reports);
    TargetIs(t, id, p, reports);
    hide GradeTx, SoundRecords, ForeignKeys, Rival, Target, FindByKey;
  }

  /** What it announces: a conclusion exactly when the hit says so of a record that was not
      concluded, a retirement exactly when a living placeholder was merged. */
  lemma WhatAGradeAnnounces(t: Tables, id: RecordId, p: ParsedProcess, nextSync: Instant, reports: Reports, r: RecordId)
    requires SoundRecords(t.records, reports) && ForeignKeys(t) && HitFor(t.records, id, p, reports)
    ensures GradeTx(t, id, p, nextSync).Ok?
    ensures var after, target := GradeTx(t, id, p, nextSync).value.tables, Target(t, id, p);
            && target in t.records
            && Count(after, RecordArchived(r)) == Count(t, RecordArchived(r))
                 + (if r == target && p.record.lifecycle == Some(Archived) && t.records[target].lifecycle != Archived then 1 else 0)
            && Count(after, RecordSuperseded(r)) == Count(t, RecordSuperseded(r))
                 + (if r == id && target != id && t.records[id].lifecycle != Superseded then 1 else 0)
  {
    WhatAGradeWrites(t, id, p, nextSync, reports);
    GradeAnnouncesItsTransitions(t, id, p, nextSync, reports, RecordArchived(r));
    GradeAnnouncesItsTransitions(t, id, p, nextSync, reports, RecordSuperseded(r));
    RivalIsAlive(t, id, p, reports);
    hide GradeTx, SoundRecords, ForeignKeys, Rival, Target, Count, HeldBy;
    var after, target := GradeTx(t, id, p, nextSync).value.tables, Target(t, id, p);
    assert r in t.records.Keys <==> r in after.records.Keys;
  }

  /** The docket gains the hit's movements, under the graded record, and nothing else. */
  lemma WhatTheDocketGains(t: Tables, id: RecordId, p: ParsedProcess, nextSync: Instant, reports: Reports, r: RecordId, h: Hash)
    requires SoundRecords(t.records, reports) && ForeignKeys(t) && HitFor(t.records, id, p, reports)
    ensures GradeTx(t, id, p, nextSync).Ok?
    ensures (r, h) in GradeTx(t, id, p, nextSync).value.tables.docket
            <==> (r, h) in t.docket || (r == Target(t, id, p) && h in p.movimentos)
  {
    GradeCommits(t, id, p, nextSync, reports);
    hide GradeTx, Target, SoundRecords, ForeignKeys;
  }

  /** An observation reaches the transaction exactly when it names a record of a live sync and
      DATAJUD answered with a grade that is the record's, if it has one; it is retried exactly
      for a fetch that failed and archived exactly for an answer that does not parse. */
  lemma WhichObservationsAreApplied(ev: ObservedEvent, fetched: Fetched)
    ensures var asked := ev.cnj != "" && ev.court != "" && !ev.backfill;
            && (Triage(ev, fetched) == None
                <==> asked && fetched.Hit? && fetched.process.record.degree != Unknown
                     && (ev.degree == Unknown || fetched.process.record.degree == ev.degree))
            && (Triage(ev, fetched) == Some(Retry) <==> asked && fetched == FetchFault)
            && (Triage(ev, fetched) == Some(Archive) <==> asked && fetched == ParseFault)
  {
  }

  // ---- A whole step ----

  /** DATAJUD returned the number with a grade. */
  predicate Found(d: DueRecord, hits: Hits) {
    d.cnj in hits && hits[d.cnj].record.degree != Unknown
  }

  /** Enriched by the hit of its number, or merged away. */
  predicate Enriched(r: CourtRecord, hits: Hits) {
    r.lifecycle == Superseded || (r.cnj in hits && Carries(r, hits[r.cnj].record))
  }

  lemma OneGradeEnriches(t: Tables, id: RecordId, p: ParsedProcess, nextSync: Instant, hits: Hits, reports: Reports, r: RecordId)
    requires SoundRecords(t.records, reports) && ForeignKeys(t) && HitFor(t.records, id, p, reports)
    requires p.record.cnj in hits && hits[p.record.cnj] == p && r in t.records
    requires r == id || Enriched(t.records[r], hits)
    ensures GradeTx(t, id, p, nextSync).Ok?
    ensures var after := GradeTx(t, id, p, nextSync).value.tables.records; r in after && Enriched(after[r], hits)
  {
    WhatAGradeWrites(t, id, p, nextSync, reports);
    hide GradeTx, SoundRecords, ForeignKeys, Rival, Target;
  }

  /** Every scanned record DATAJUD returned with a grade is enriched by the loop, or merged away. */
  lemma {:induction false} TheLoopEnriches(t: Tables, due: seq<DueRecord>, hits: Hits, nextSync: Instant, reports: Reports)
    requires Sound(t, reports) && HitsFor(hits, reports) && Scanned(t.records, due)
    ensures GradeAll(t, due, hits, nextSync).Ok?
    ensures var after := GradeAll(t, due, hits, nextSync).value.records;
            forall d | d in due && Found(d, hits) :: d.id in after && Enriched(after[d.id], hits)
  {
    if due != [] {
      var n := |due| - 1;
      TheLoopEnriches(t, due[..n], hits, nextSync, reports);
      GradeAllLaw(t, due[..n], hits, nextSync, reports);
      var mid := GradeAll(t, due[..n], hits, nextSync).value;
      assert due == due[..n] + [due[n]] && due[n] in due;
      hide Enriched, Sound, GradeTx, HitsFor;
      StepEnriches(t, mid, due[..n], due[n], hits, nextSync, reports);
    }
  }

  lemma StepEnriches(t: Tables, mid: Tables, before: seq<DueRecord>, last: DueRecord, hits: Hits, nextSync: Instant, reports: Reports)
    requires HitsFor(hits, reports) && LoopLaw(t, mid, hits, reports)
    requires last.id in t.records && t.records[last.id].cnj == last.cnj
    requires forall d | d in before && Found(d, hits) :: d.id in mid.records && Enriched(mid.records[d.id], hits)
    ensures GradeOne(mid, last, hits, nextSync).Ok?
    ensures var after := GradeOne(mid, last, hits, nextSync).value.records;
            forall d | d in before + [last] && Found(d, hits) :: d.id in after && Enriched(after[d.id], hits)
  {
    if Found(last, hits) {
      var p := hits[last.cnj];
      assert last.id in mid.records.Keys && HitFor(mid.records, last.id, p, reports);
      GradeCommits(mid, last.id, p, nextSync, reports);
      forall d | d in before + [last] && Found(d, hits)
        ensures var after := GradeTx(mid, last.id, p, nextSync).value.tables.records; d.id in after && Enriched(after[d.id], hits)
      {
        OneGradeEnriches(mid, last.id, p, nextSync, hits, reports, d.id);
      }
    }
  }

  function FoundIds(due: seq<DueRecord>, hits: Hits): set<RecordId> {
    set d | d in due && Found(d, hits) :: d.id
  }

  /** What a step's first delivery comes to: every scanned record is attempted, every one DATAJUD
      returned with a grade is enriched or merged away, and the import's row grows by how many
      those are and by the hits that did not parse. It opens RUNNING, and only for one of the two. */
  lemma WhatAStepDoes(t: Tables, step: BatchStep, due: seq<DueRecord>, hits: Hits, errs: nat, nextSync: Instant, reports: Reports)
    requires Sound(t, reports) && HitsFor(hits, reports) && Scanned(t.records, due) && DistinctIds(due)
    requires BatchDone(step) !in t.processed
    ensures ApplyTx(t, step, due, hits, errs, nextSync).Ok?
    ensures var after, found := ApplyTx(t, step, due, hits, errs, nextSync).value, FoundIds(due, hits);
            && (forall d | d in due :: d.id in after.records && after.records[d.id].attempted)
            && (forall d | d in due && Found(d, hits) :: Enriched(after.records[d.id], hits))
            && (if found == {} && errs == 0 then after.run == t.run
                else && after.run.Some?
                     && after.run.value.updated == (if t.run.Some? then t.run.value.updated else 0) + |found|
                     && after.run.value.errors == (if t.run.Some? then t.run.value.errors else 0) + errs
                     && after.run.value.status == (if t.run.Some? then t.run.value.status else Running))
  {
    ApplyMarks(t, step, due, hits, errs, nextSync, reports);
    FirstApplyCounts(t, step, due, hits, errs, nextSync, reports);
    assert FoundIds(due, hits) == GradedIds(due, hits);
    StepIsLoopAndMarks(t, step, due, hits, errs, nextSync, reports);
    hide ApplyTx, Sound, SoundRecords, HitsFor, Enriched, Found;
    var after := ApplyTx(t, step, due, hits, errs, nextSync).value;
    forall d | d in due ensures d.id in after.records && after.records[d.id].attempted {
      assert d.id in Ids(due) && d.id in t.records;
    }
  }

  lemma StepIsLoopAndMarks(t: Tables, step: BatchStep, due: seq<DueRecord>, hits: Hits, errs: nat, nextSync: Instant, reports: Reports)
    requires Sound(t, reports) && HitsFor(hits, reports) && Scanned(t.records, due) && BatchDone(step) !in t.processed
    ensures ApplyTx(t, step, due, hits, errs, nextSync).Ok?
    ensures var after := ApplyTx(t, step, due, hits, errs, nextSync).value.records;
            forall d | d in due && Found(d, hits) :: d.id in after && Enriched(after[d.id], hits)
  {
    var marked := t.(processed := t.processed + {BatchDone(step)});
    SameTablesSound(t, marked, reports);
    TheLoopEnriches(marked, due, hits, nextSync, reports);
    hide GradeAll, Sound, HitsFor;
    var g := GradeAll(marked, due, hits, nextSync).value;
    assert ApplyTx(t, step, due, hits, errs, nextSync).value.records == MarkAttempted(g.records, Ids(due));
  }
}
