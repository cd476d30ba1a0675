/** Every run of one tenant's enrichment: single and batch transactions, closes, redeliveries
    of any of them, and whatever discovery and the deadline slice land in between. */
module EnrichmentRuns {
  import opened Wrappers
  import opened CourtRecords
  import opened Enrichment
  import opened EnrichmentLaws
  import opened EnrichmentBatch
  import opened BatchLaws

  /** What the rest of the system may do to these tables: land placeholders, intimations and
      deadlines, reassign a case, re-observe a record. */
  ghost predicate Lands(t: Tables, after: Tables, reports: Reports) {
    && UniqueKeys(after.records) && ForeignKeys(after)
    && t.records.Keys <= after.records.Keys && t.cases.Keys <= after.cases.Keys
    && (forall r | r in after.records ::
          if r in t.records then
            && after.records[r].cnj == t.records[r].cnj && after.records[r].degree == t.records[r].degree
            && after.records[r].caseId == t.records[r].caseId && after.records[r].lifecycle == t.records[r].lifecycle
            && after.records[r].court == t.records[r].court
          else
            && after.records[r].degree == Unknown && after.records[r].lifecycle == Active
            && after.records[r].court == reports(after.records[r].cnj).court)
    && (forall r | r in after.records :: after.records[r].completeness <= DATAJUD_COMPLETENESS)
    && t.intimations.Keys <= after.intimations.Keys && t.deadlines.Keys <= after.deadlines.Keys
    && (forall i | i in t.intimations :: after.intimations[i].(assignee := None) == t.intimations[i].(assignee := None))
    && (forall d | d in t.deadlines :: after.deadlines[d] == t.deadlines[d])
    && after.docket == t.docket && after.outbox == t.outbox && after.processed == t.processed && after.run == t.run
  }

  datatype Tx =
    | Observe(ev: ObservedEvent, fetched: Fetched, nextSync: Instant)
    | Batch(step: BatchStep, due: seq<DueRecord>, hits: Hits, errs: nat, nextSync: Instant)
    | Close
    | Landing

  /** The event names a record by its own number, and a hit is DATAJUD's answer for it. */
  ghost predicate ObservationOf(t: Tables, ev: ObservedEvent, fetched: Fetched, reports: Reports) {
    && ev.recordId in t.records && ev.cnj == t.records[ev.recordId].cnj
    && (fetched.Hit? ==>
          var g := fetched.process.record;
          g.cnj == ev.cnj && Reported(g, reports))
  }

  /** A transaction that faults leaves the tables as it found them. */
  ghost function Committed(t: Tables, r: Result<Tables, Fault>): Tables {
    match r
    case Ok(after) => after
    case Err(_) => t
  }

  ghost predicate Step(t: Tables, x: Tx, after: Tables, reports: Reports) {
    match x
    case Observe(ev, fetched, nextSync) =>
      && ObservationOf(t, ev, fetched, reports)
      && after == if Triage(ev, fetched).Some? then t else Committed(t, EnrichTx(t, ev, fetched.process, nextSync))
    case Batch(step, due, hits, errs, nextSync) =>
      && HitsFor(hits, reports) && Scanned(t.records, due)
      && after == Committed(t, ApplyTx(t, step, due, hits, errs, nextSync))
    case Close => after == CloseTx(t)
    case Landing => Lands(t, after, reports)
  }

  /** `ts` is the history of the tables, `xs` the transactions between them. */
  ghost predicate Run(ts: seq<Tables>, xs: seq<Tx>, reports: Reports) {
    |ts| == |xs| + 1 && forall i | 0 <= i < |xs| :: Step(ts[i], xs[i], ts[i + 1], reports)
  }

  // ---- One transaction ----

  /** What holds between the tables before and after any transaction. */
  ghost predicate Progress(t: Tables, after: Tables) {
    && t.records.Keys <= after.records.Keys
    && (forall r | r in t.records ::
          && after.records[r].cnj == t.records[r].cnj && after.records[r].caseId == t.records[r].caseId
          && (t.records[r].lifecycle == Superseded ==> after.records[r].lifecycle == Superseded))
    && t.intimations.Keys <= after.intimations.Keys && t.deadlines.Keys <= after.deadlines.Keys
    && (forall i | i in t.intimations ::
          after.intimations[i].hash == t.intimations[i].hash && after.intimations[i].caseId == t.intimations[i].caseId)
    && (forall d | d in t.deadlines :: after.deadlines[d].intimationId == t.deadlines[d].intimationId)
    && t.docket <= after.docket
  }

  lemma EnrichPays(t: Tables, ev: ObservedEvent, p: ParsedProcess, nextSync: Instant, reports: Reports, e: Event)
    requires Sound(t, reports) && HitFor(t.records, ev.recordId, p, reports)
    ensures EnrichTx(t, ev, p, nextSync).Ok?
    ensures var after := EnrichTx(t, ev, p, nextSync).value;
            Count(after, e) == Count(t, e) + OwedInAll(t, after, e)
  {
    if EnrichmentDone(ev.eventId) !in t.processed {
      var marked := t.(processed := t.processed + {EnrichmentDone(ev.eventId)});
      GradeCommits(marked, ev.recordId, p, nextSync, reports);
      GradeAnnouncesItsTransitions(marked, ev.recordId, p, nextSync, reports, e);
      var g := GradeTx(marked, ev.recordId, p, nextSync).value;
      CountAppend(g.tables.outbox, Observed(g.target, g.newDocket), e);
      CountObserved(g.target, g.newDocket, e);
      if e.DocketObserved? {
        DocketIsOwed(t.docket, g.target, p.movimentos, e);
      }
    }
  }

  lemma EnrichFrame(t: Tables, ev: ObservedEvent, p: ParsedProcess, nextSync: Instant, reports: Reports)
    requires Sound(t, reports) && HitFor(t.records, ev.recordId, p, reports)
    ensures EnrichTx(t, ev, p, nextSync).Ok?
    ensures var after := EnrichTx(t, ev, p, nextSync).value;
            && SoundRecords(after.records, reports) && ForeignKeys(after)
            && RecordsProgress(t.records, after.records) && ChildrenStay(t, after)
            && t.docket <= after.docket && after.run == t.run && after.cases == t.cases
            && (forall r | r in t.records :: after.records[r].attempted == t.records[r].attempted)
            && after.processed == t.processed + {EnrichmentDone(ev.eventId)}
  {
    if EnrichmentDone(ev.eventId) in t.processed {
      assert t.processed + {EnrichmentDone(ev.eventId)} == t.processed;
    } else {
      var marked := t.(processed := t.processed + {EnrichmentDone(ev.eventId)});
      SameTablesSound(t, marked, reports);
      GradeCommits(marked, ev.recordId, p, nextSync, reports);
      GradeKeepsSound(marked, ev.recordId, p, nextSync, reports);
      GradeFrame(marked, ev.recordId, p, nextSync, reports);
    }
  }

  /** The single path: it commits, and it announces each transition it makes and each
      movement it adds to a docket, once. */
  lemma EnrichLaw(t: Tables, ev: ObservedEvent, p: ParsedProcess, nextSync: Instant, reports: Reports)
    requires Sound(t, reports) && HitFor(t.records, ev.recordId, p, reports)
    ensures EnrichTx(t, ev, p, nextSync).Ok?
    ensures var after := EnrichTx(t, ev, p, nextSync).value;
            && Sound(after, reports) && Progress(t, after)
            && (forall e :: Count(after, e) == Count(t, e) + OwedInAll(t, after, e))
  {
    EnrichFrame(t, ev, p, nextSync, reports);
    var after := EnrichTx(t, ev, p, nextSync).value;
    forall e ensures Count(after, e) == Count(t, e) + OwedInAll(t, after, e) {
      EnrichPays(t, ev, p, nextSync, reports, e);
    }
    PayingKeepsHonest(t, after);
  }

  lemma DocketIsOwed(docket: set<(RecordId, Hash)>, target: RecordId, movs: seq<Hash>, e: Event)
    requires e.DocketObserved?
    ensures var after := DocketWith(docket, target, movs);
            (if e.recordId == target then multiset(NewHashes(docket, target, movs))[e.hash] else 0)
            == if (e.recordId, e.hash) in after && (e.recordId, e.hash) !in docket then 1 else 0
  {
    NewHashesAreNew(docket, target, movs);
  }

  // ---- Any transaction ----

  ghost predicate StepLaw(t: Tables, after: Tables, reports: Reports) {
    && Sound(after, reports) && Progress(t, after)
    && (forall e: Event | !e.BatchRequested? ::
          Count(t, e) + Owed(t.records, after.records, e) <= Count(after, e) <= Count(t, e) + OwedInAll(t, after, e))
  }

  lemma StandingStill(t: Tables, reports: Reports)
    requires Sound(t, reports)
    ensures StepLaw(t, t, reports)
  {
  }

  lemma ObserveLaw(t: Tables, ev: ObservedEvent, fetched: Fetched, nextSync: Instant, reports: Reports)
    requires Sound(t, reports) && ObservationOf(t, ev, fetched, reports)
    ensures Triage(ev, fetched).None? ==>
              && EnrichTx(t, ev, fetched.process, nextSync).Ok?
              && StepLaw(t, EnrichTx(t, ev, fetched.process, nextSync).value, reports)
  {
    if Triage(ev, fetched).None? {
      EnrichLaw(t, ev, fetched.process, nextSync, reports);
    }
  }

  lemma BatchLaw(t: Tables, step: BatchStep, due: seq<DueRecord>, hits: Hits, errs: nat, nextSync: Instant, reports: Reports)
    requires Sound(t, reports) && HitsFor(hits, reports) && Scanned(t.records, due)
    ensures ApplyTx(t, step, due, hits, errs, nextSync).Ok?
    ensures StepLaw(t, ApplyTx(t, step, due, hits, errs, nextSync).value, reports)
  {
    if BatchDone(step) in t.processed {
      StandingStill(t, reports);
    } else {
      ApplyMarks(t, step, due, hits, errs, nextSync, reports);
      ApplyRemembers(t, step, due, hits, errs, nextSync, reports);
      var after := ApplyTx(t, step, due, hits, errs, nextSync).value;
      BatchBalances(t, step, due, hits, errs, nextSync, reports);
      PayingKeepsHonest(t, after);
    }
  }

  /** A whole step announces its transitions and leaves every docket alone in the outbox. */
  lemma BatchBalances(t: Tables, step: BatchStep, due: seq<DueRecord>, hits: Hits, errs: nat, nextSync: Instant, reports: Reports)
    requires Sound(t, reports) && HitsFor(hits, reports) && Scanned(t.records, due)
    requires BatchDone(step) !in t.processed
    ensures ApplyTx(t, step, due, hits, errs, nextSync).Ok?
    ensures var after := ApplyTx(t, step, due, hits, errs, nextSync).value;
            forall e: Event | !e.BatchRequested? :: Count(after, e) == Count(t, e) + Owed(t.records, after.records, e)
  {
    forall e: Event | !e.BatchRequested?
      ensures var r := ApplyTx(t, step, due, hits, errs, nextSync);
              r.Ok? && Count(r.value, e) == Count(t, e) + Owed(t.records, r.value.records, e)
    {
      ApplyPays(t, step, due, hits, errs, nextSync, reports, e);
    }
  }

  /** Tables that differ in no way a grade law speaks of. */
  lemma SameRowsLaw(t: Tables, after: Tables, reports: Reports)
    requires Sound(t, reports) && Sound(after, reports) && after.outbox == t.outbox
    requires after.records == t.records && after.docket == t.docket
             && after.intimations == t.intimations && after.deadlines == t.deadlines
    ensures StepLaw(t, after, reports)
  {
    assert forall e: Event :: Owed(t.records, after.records, e) == 0;
  }

  lemma CloseLaw(t: Tables, reports: Reports)
    requires Sound(t, reports)
    ensures StepLaw(t, CloseTx(t), reports)
  {
    hide Sound, StepLaw;
    SameTablesSound(t, CloseTx(t), reports);
    SameRowsLaw(t, CloseTx(t), reports);
  }

  lemma LandingKeepsRecordsSound(t: Tables, after: Tables, reports: Reports)
    requires Sound(t, reports) && Lands(t, after, reports)
    ensures SoundRecords(after.records, reports)
  {
    forall id | id in after.records && after.records[id].lifecycle == Superseded
      ensures GradedTwin(after.records, id, reports)
    {
      assert id in t.records && GradedTwin(t.records, id, reports);
      var twin :| twin in t.records && t.records[twin].cnj == t.records[id].cnj && t.records[twin].degree == reports(t.records[id].cnj).degree;
      assert twin in after.records && after.records[twin].cnj == after.records[id].cnj;
    }
  }

  lemma LandingKeepsHonest(t: Tables, after: Tables, reports: Reports)
    requires HonestOutbox(t) && Lands(t, after, reports)
    ensures HonestOutbox(after)
  {
    assert forall e :: Count(after, e) == Count(t, e);
    assert forall r | r in t.records :: r in after.records;
  }

  lemma LandingLaw(t: Tables, after: Tables, reports: Reports)
    requires Sound(t, reports) && Lands(t, after, reports)
    ensures StepLaw(t, after, reports)
  {
    LandingKeepsRecordsSound(t, after, reports);
    LandingKeepsHonest(t, after, reports);
    LandingUndoesNothing(t, after, reports);
    forall e: Event | !e.BatchRequested?
      ensures Count(after, e) == Count(t, e) && Owed(t.records, after.records, e) == 0
    {
      if (e.RecordArchived? || e.RecordSuperseded?) && e.recordId in t.records {
        assert after.records[e.recordId].lifecycle == t.records[e.recordId].lifecycle;
      }
    }
  }

  lemma LandingUndoesNothing(t: Tables, after: Tables, reports: Reports)
    requires Lands(t, after, reports)
    ensures Progress(t, after)
  {
    forall i | i in t.intimations
      ensures after.intimations[i].hash == t.intimations[i].hash && after.intimations[i].caseId == t.intimations[i].caseId
    {
      var a, b := after.intimations[i].(assignee := None), t.intimations[i].(assignee := None);
      assert a == b && a.hash == b.hash && a.caseId == b.caseId;
    }
    assert forall r | r in t.records :: r in after.records;
  }

  /** Every transaction of every kind keeps the tables sound, undoes nothing, and announces
      exactly the lifecycle transitions it makes. */
  lemma StepKeepsTheLaw(t: Tables, x: Tx, after: Tables, reports: Reports)
    requires Sound(t, reports) && Step(t, x, after, reports)
    ensures StepLaw(t, after, reports)
  {
    match x
    case Observe(ev, fetched, nextSync) =>
      ObserveLaw(t, ev, fetched, nextSync, reports);
      if Triage(ev, fetched).Some? {
        StandingStill(t, reports);
      }
    case Batch(step, due, hits, errs, nextSync) =>
      BatchLaw(t, step, due, hits, errs, nextSync, reports);
    case Close =>
      CloseLaw(t, reports);
    case Landing =>
      LandingLaw(t, after, reports);
  }

  // ---- Whole runs ----

  /** How often record `r` entered lifecycle `l` over a history. */
  ghost function Entries(ts: seq<Tables>, r: RecordId, l: Lifecycle): nat {
    if |ts| < 2 then 0
    else
      var n := |ts| - 1;
      Entries(ts[..n], r, l) + if Enters(ts[n - 1].records, ts[n].records, r, l) then 1 else 0
  }

  /** Soundness holds at every moment of every run, and the log of a conclusion is exact: one
      announcement for each entry into ARCHIVED, under any redelivery. */
  lemma {:induction false} ConclusionsAreAnnouncedOncePerEntry(ts: seq<Tables>, xs: seq<Tx>, reports: Reports, r: RecordId)
    requires Run(ts, xs, reports) && Sound(ts[0], reports)
    ensures forall i | 0 <= i < |ts| :: Sound(ts[i], reports)
    ensures Count(ts[|ts| - 1], RecordArchived(r)) == Count(ts[0], RecordArchived(r)) + Entries(ts, r, Archived)
    ensures Count(ts[|ts| - 1], RecordSuperseded(r)) == Count(ts[0], RecordSuperseded(r)) + Entries(ts, r, Superseded)
    decreases |xs|
  {
    hide Sound, Step, Progress, OwedDocket;
    if xs != [] {
      var n := |xs|;
      ConclusionsAreAnnouncedOncePerEntry(ts[..n], xs[..n - 1], reports, r);
      assert Sound(ts[..n][n - 1], reports);
      StepKeepsTheLaw(ts[n - 1], xs[n - 1], ts[n], reports);
      assert ts[..n][|ts[..n]| - 1] == ts[n - 1];
      var a, s := RecordArchived(r), RecordSuperseded(r);
      assert Count(ts[n], a) == Count(ts[n - 1], a) + Owed(ts[n - 1].records, ts[n].records, a);
      assert Count(ts[n], s) == Count(ts[n - 1], s) + Owed(ts[n - 1].records, ts[n].records, s);
      assert forall i | 0 <= i < n :: ts[i] == ts[..n][i];
    }
  }

  lemma ProgressStandsStill(t: Tables)
    ensures Progress(t, t)
  {
  }

  lemma ProgressComposes(a: Tables, b: Tables, c: Tables)
    requires Progress(a, b) && Progress(b, c)
    ensures Progress(a, c)
  {
    assert forall r | r in a.records :: r in b.records;
    assert forall i | i in a.intimations :: i in b.intimations;
    assert forall d | d in a.deadlines :: d in b.deadlines;
  }

  lemma StepProgress(ts: seq<Tables>, xs: seq<Tx>, reports: Reports, i: nat)
    requires Run(ts, xs, reports) && Sound(ts[0], reports) && i < |xs|
    ensures Progress(ts[i], ts[i + 1])
  {
    ConclusionsAreAnnouncedOncePerEntry(ts, xs, reports, 0);
    StepKeepsTheLaw(ts[i], xs[i], ts[i + 1], reports);
  }

  /** Between any two moments of a run: no record changes number or case, retirement is
      final, no intimation or deadline is lost or changes what it is about. */
  lemma {:induction false} NothingIsUndone(ts: seq<Tables>, xs: seq<Tx>, reports: Reports, i: nat, j: nat)
    requires Run(ts, xs, reports) && Sound(ts[0], reports) && i <= j < |ts|
    ensures Progress(ts[i], ts[j])
    decreases j
  {
    hide Progress, Sound, Step;
    if i < j {
      NothingIsUndone(ts, xs, reports, i, j - 1);
      StepProgress(ts, xs, reports, j - 1);
      ProgressComposes(ts[i], ts[j - 1], ts[j]);
    } else {
      ProgressStandsStill(ts[i]);
    }
  }

  /** At any moment of any run every retirement was announced at most once, never for a record
      that is not retired, and a retired record is a placeholder of a number whose graded
      record is alive: a merge target is never retired. Each movement of a docket was announced
      at most once. */
  lemma RetirementIsSettled(ts: seq<Tables>, xs: seq<Tx>, reports: Reports, i: nat, r: RecordId, h: Hash)
    requires Run(ts, xs, reports) && Sound(ts[0], reports) && i < |ts|
    ensures Count(ts[i], RecordSuperseded(r)) <= 1
    ensures Count(ts[i], RecordSuperseded(r)) == 1 ==> r in ts[i].records && ts[i].records[r].lifecycle == Superseded
    ensures r in ts[i].records && ts[i].records[r].lifecycle == Superseded ==>
              && ts[i].records[r].degree == Unknown
              && exists o | o in ts[i].records :: ts[i].records[o].cnj == ts[i].records[r].cnj
                                                  && ts[i].records[o].degree != Unknown && ts[i].records[o].lifecycle != Superseded
    ensures Count(ts[i], DocketObserved(r, h)) <= if (r, h) in ts[i].docket then 1 else 0
  {
    ConclusionsAreAnnouncedOncePerEntry(ts, xs, reports, r);
    assert Sound(ts[i], reports);
    if r in ts[i].records && ts[i].records[r].lifecycle == Superseded {
      assert GradedTwin(ts[i].records, r, reports);
    }
  }

  /** Conservation: only a landing brings intimations or deadlines in, nothing takes one out. */
  lemma OnlyLandingsAddChildren(t: Tables, x: Tx, after: Tables, reports: Reports)
    requires Sound(t, reports) && Step(t, x, after, reports) && !x.Landing?
    ensures after.intimations.Keys == t.intimations.Keys && after.deadlines.Keys == t.deadlines.Keys
  {
    hide Sound, RecordsProgress, ForeignKeys, SoundRecords;
    match x
    case Observe(ev, fetched, nextSync) =>
      if Triage(ev, fetched).None? {
        EnrichFrame(t, ev, fetched.process, nextSync, reports);
      }
    case Batch(step, due, hits, errs, nextSync) =>
      if BatchDone(step) !in t.processed {
        ApplyRemembers(t, step, due, hits, errs, nextSync, reports);
      }
    case Close =>
  }
}
