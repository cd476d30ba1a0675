/** Two imports that show what the conditions of FinalRows and ClosedImports shut out: one whose
    closed row a late step still bumps, and one whose count misses an enriched record. */
module OvertakenClose {
  import opened Wrappers
  import opened CourtRecords
  import opened Enrichment
  import opened EnrichmentLaws
  import opened EnrichmentBatch
  import opened BatchLaws
  import opened EnrichmentRuns
  import opened BatchProtocol
  import opened BatchRuns
  import opened FinalRows
  import opened ClosedImports

  const G1: Reports := _ => Disclosed(Grade("G1"), "TJSP")
  const PASS0 := BatchStep("TJSP", 0)
  const PASS1 := BatchStep("TJSP", 1)
  const ONE: seq<DueRecord> := [DueRecord(1, "0001")]

  function Placeholder(): CourtRecord {
    CourtRecord(1, "0001", Unknown, "TJSP", "", "", 0.3, Active, None, false)
  }

  function AlreadyGraded(attempted: bool): CourtRecord {
    CourtRecord(1, "0001", Grade("G1"), "TJSP", "", "", DATAJUD_COMPLETENESS, Active, None, attempted)
  }

  function Start(records: map<RecordId, CourtRecord>): State {
    State(Tables(records, map[], map[], {}, map[1 := None], {}, [BatchRequested(PASS0)], None),
          {}, {}, {}, map["TJSP" := 0], [])
  }

  lemma StartsSound(records: map<RecordId, CourtRecord>)
    requires SoundRecords(records, G1) && forall r | r in records :: records[r].caseId == 1
    ensures Sound(Start(records).t, G1)
    ensures forall e :: Count(Start(records).t, e) == if e == BatchRequested(PASS0) then 1 else 0
  {
    var t := Start(records).t;
    StartCounts(t);
    StartLinks(t);
    hide SoundRecords, Count;
  }

  lemma StartCounts(t: Tables)
    requires t.outbox == [BatchRequested(PASS0)]
    ensures forall e :: Count(t, e) == if e == BatchRequested(PASS0) then 1 else 0
  {
  }

  lemma StartLinks(t: Tables)
    requires t.intimations == map[] && t.deadlines == map[] && 1 in t.cases && forall r | r in t.records :: t.records[r].caseId == 1
    ensures ForeignKeys(t)
  {
  }

  lemma Starts(records: map<RecordId, CourtRecord>)
    requires SoundRecords(records, G1) && forall r | r in records :: records[r].caseId == 1
    ensures Init(Start(records), G1)
  {
    StartsSound(records);
    AllAtTjsp(records);
    hide Sound, SoundRecords, Count, Init;
    OneChain(Start(records));
  }

  lemma OneChain(s: State)
    requires Sound(s.t, G1) && s.t.run == None && s.t.processed == {}
    requires s.workers == {} && s.acked == {} && s.archived == {} && s.log == [] && s.next == map["TJSP" := 0]
    requires forall r | r in s.t.records :: s.t.records[r].court == "TJSP"
    requires forall e :: Count(s.t, e) == if e == BatchRequested(PASS0) then 1 else 0
    ensures Init(s, G1)
  {
    hide Sound, Count, Due;
    assert s.next.Keys == {"TJSP"} && "" != "TJSP";
    FirstPasses();
  }

  lemma AllAtTjsp(records: map<RecordId, CourtRecord>)
    requires SoundRecords(records, G1)
    ensures forall r | r in records :: records[r].court == "TJSP"
  {
    forall r | r in records ensures records[r].court == "TJSP" {
      assert records[r].court == G1(records[r].cnj).court;
    }
  }

  lemma FirstPasses()
    ensures forall step: BatchStep :: step.court == "TJSP" && step.pass == 0 <==> step == PASS0
  {
    forall step: BatchStep ensures step.court == "TJSP" && step.pass == 0 <==> step == PASS0 {
      assert step == BatchStep(step.court, step.pass);
    }
  }

  // ---- Single actions ----

  lemma OneIsScanned(s: State)
    requires 1 in s.t.records && s.t.records[1].cnj == "0001" && DueIdsOf(s.t.records, "TJSP") == {1}
    ensures After(s, Deliver(PASS0)) == s.(workers := s.workers + {Scan(PASS0, ONE)})
  {
    var due := ScanFrom(s.t.records, {1}, ENRICHMENT_BATCH_SCAN_LIMIT);
    ScanLaw(s.t.records, {1}, ENRICHMENT_BATCH_SCAN_LIMIT);
    assert 1 in Ids(due);
    assert forall i | 0 <= i < |due| :: due[i] in due && due[i] == DueRecord(1, "0001");
    assert |due| == 1 && due == ONE;
    assert SelectDue(s.t.records, "TJSP", ENRICHMENT_BATCH_SCAN_LIMIT) == due;
  }

  lemma NothingToClose(s: State, step: BatchStep)
    requires s.t.run == None && DueIds(s.t.records) == {}
    ensures After(s, CloseImport(step, false)) == s.(t := s.t.(run := Some(EnrichmentRun(RunOk, 0, 0))))
  {
  }

  /** A step that graded nothing only marks, and counts what it could not parse. */
  lemma NothingGraded(t: Tables, errs: nat)
    requires BatchDone(PASS0) !in t.processed
    ensures ApplyTx(t, PASS0, ONE, map[], errs, 0)
            == Ok(t.(processed := t.processed + {BatchDone(PASS0)}, records := MarkAttempted(t.records, {1}),
                     run := if errs > 0 then Bumped(t.run, 0, errs) else t.run,
                     outbox := t.outbox + [BatchRequested(PASS1)]))
  {
    var marked := t.(processed := t.processed + {BatchDone(PASS0)});
    assert ONE[..0] == [];
    assert GradeAll(marked, ONE[..0], map[], 0) == Ok(marked);
    assert GradeAll(marked, ONE, map[], 0) == Ok(marked);
    assert GradedCount(ONE, map[]) == GradedCount(ONE[..0], map[]) == 0;
    assert Ids(ONE) == {1};
  }

  lemma FourActions(s0: State, a: Action, b: Action, c: Action, d: Action)
    requires Init(s0, G1) && Enabled(s0, a, G1)
    requires var s1 := After(s0, a);
             var s2 := After(s1, b);
             var s3 := After(s2, c);
             Enabled(s1, b, G1) && Enabled(s2, c, G1) && Enabled(s3, d, G1)
    ensures var s1 := After(s0, a);
            var s2 := After(s1, b);
            var s3 := After(s2, c);
            Execution([s0, s1, s2, s3, After(s3, d)], [a, b, c, d], G1)
  {
    hide Init, Enabled, After;
  }

  lemma OneMoreAction(ss: seq<State>, as_: seq<Action>, a: Action)
    requires Execution(ss, as_, G1) && Enabled(ss[|as_|], a, G1)
    ensures Execution(ss + [After(ss[|as_|], a)], as_ + [a], G1)
  {
    hide Init, Enabled, After;
  }

  // ---- A poll merges the scanned placeholder away ----

  const HIT := ParsedProcess(ParsedRecord("0001", Grade("G1"), "TJSP", "", "", DATAJUD_COMPLETENESS, Some(Active)), [])
  const OBSERVATION := ObservedEvent(1, 1, "0001", "TJSP", Unknown, false)
  const POLL := Poll(OBSERVATION, Hit(HIT), 0)

  function Twins(): map<RecordId, CourtRecord> {
    map[1 := Placeholder(), 2 := AlreadyGraded(true)]
  }

  lemma TwinsAreSound()
    ensures SoundRecords(Twins(), G1) && HitFor(Twins(), 1, HIT, G1)
  {
  }

  lemma TheTwinIsTheTarget(t: Tables)
    requires t.records == Twins()
    ensures Target(t, 1, HIT) == 2
  {
    assert t.records[2].cnj == "0001" && t.records[2].degree == Grade("G1");
    assert t.records[1].degree == Unknown;
  }

  lemma MarkedRetires(t: Tables)
    requires t.records == Twins() && Sound(t, G1)
    ensures GradeTx(t, 1, HIT, 0).Ok?
    ensures var u := GradeTx(t, 1, HIT, 0).value.tables; 1 in u.records && u.records[1].lifecycle == Superseded
  {
    TwinsAreSound();
    TheTwinIsTheTarget(t);
    GradeCommits(t, 1, HIT, 0, G1);
    GradeMovesTwoLifecycles(t, 1, HIT, 0, G1);
  }

  lemma EnrichingGrades(t: Tables, ev: ObservedEvent, p: ParsedProcess)
    requires EnrichmentDone(ev.eventId) !in t.processed
    requires GradeTx(t.(processed := t.processed + {EnrichmentDone(ev.eventId)}), ev.recordId, p, 0).Ok?
    ensures EnrichTx(t, ev, p, 0).Ok?
    ensures EnrichTx(t, ev, p, 0).value.records
            == GradeTx(t.(processed := t.processed + {EnrichmentDone(ev.eventId)}), ev.recordId, p, 0).value.tables.records
  {
    hide GradeTx;
  }

  lemma ThePollRetiresIt(t: Tables)
    requires t.records == Twins() && Sound(t, G1) && EnrichmentDone(1) !in t.processed
    ensures EnrichTx(t, OBSERVATION, HIT, 0).Ok?
    ensures var u := EnrichTx(t, OBSERVATION, HIT, 0).value; 1 in u.records && u.records[1].lifecycle == Superseded
  {
    var marked := t.(processed := t.processed + {EnrichmentDone(1)});
    SameTablesSound(t, marked, G1);
    hide Sound, Twins, GradeTx, EnrichTx;
    MarkedRetires(marked);
    EnrichingGrades(t, OBSERVATION, HIT);
  }

  lemma ThePollMarksNothing(t: Tables)
    requires t.records == Twins() && Sound(t, G1)
    ensures EnrichTx(t, OBSERVATION, HIT, 0).Ok?
    ensures var u := EnrichTx(t, OBSERVATION, HIT, 0).value; u.records.Keys == {1, 2} && u.records[2].attempted
  {
    TwinsAreSound();
    assert t.records.Keys == {1, 2};
    hide Sound, SoundRecords, ForeignKeys, ChildrenStay, EnrichTx, HitFor;
    EnrichFrame(t, OBSERVATION, HIT, 0, G1);
    assert 2 in t.records && t.records[2].attempted;
  }

  lemma ThePollPublishesNothing(t: Tables)
    requires t == Start(Twins()).t
    ensures EnrichTx(t, OBSERVATION, HIT, 0).Ok?
    ensures var u := EnrichTx(t, OBSERVATION, HIT, 0).value;
            u.run == None && BatchDone(PASS0) !in u.processed && Published(u, PASS0)
  {
    TwinsAreSound();
    StartsSound(Twins());
    hide Sound, RecordsProgress, SoundRecords, EnrichTx, HitFor, Twins, Count;
    PollIsAside(t, OBSERVATION, HIT, 0, G1);
    StillPublished(EnrichTx(t, OBSERVATION, HIT, 0).value);
  }

  lemma StillPublished(t: Tables)
    requires Count(t, BatchRequested(PASS0)) == 1
    ensures Published(t, PASS0)
  {
  }

  lemma TwoRowsDone(records: map<RecordId, CourtRecord>)
    requires records.Keys == {1, 2} && records[1].lifecycle == Superseded && records[2].attempted
    ensures DueIds(records) == {}
  {
    assert forall r | r in records :: r in records.Keys;
  }

  lemma ThePollCommits(s: State)
    requires s.t.records == Twins() && EnrichTx(s.t, OBSERVATION, HIT, 0).Ok?
    ensures Enabled(s, POLL, G1) && After(s, POLL) == s.(t := EnrichTx(s.t, OBSERVATION, HIT, 0).value)
  {
    hide EnrichTx;
  }

  lemma TheMergeDrains(s: State)
    requires s.t == Start(Twins()).t
    ensures Enabled(s, POLL, G1)
    ensures var s' := After(s, POLL);
            && s' == s.(t := s'.t) && DueIds(s'.t.records) == {} && s'.t.run == None
            && BatchDone(PASS0) !in s'.t.processed && Published(s'.t, PASS0)
  {
    TwinsAreSound();
    StartsSound(Twins());
    hide EnrichTx, Published, Sound, SoundRecords, Twins, DueIds, Enabled, After;
    ThePollRetiresIt(s.t);
    ThePollMarksNothing(s.t);
    ThePollPublishesNothing(s.t);
    ThePollCommits(s);
    TwoRowsDone(EnrichTx(s.t, OBSERVATION, HIT, 0).value.records);
  }

  lemma TheTwinsAreScanned()
    ensures var s0 := Start(Twins());
            && Init(s0, G1) && Enabled(s0, Deliver(PASS0), G1)
            && After(s0, Deliver(PASS0)) == s0.(workers := s0.workers + {Scan(PASS0, ONE)})
  {
    TwinsAreSound();
    OneTwinIsDue();
    hide SoundRecords, Init, After, HitFor, DueIdsOf;
    Starts(Twins());
    OneIsScanned(Start(Twins()));
  }

  lemma OneTwinIsDue()
    ensures DueIdsOf(Twins(), "TJSP") == {1} && Twins()[1].cnj == "0001" && forall r | r in Twins() :: Twins()[r].caseId == 1
  {
  }

  /** Scanned, overtaken by the poll, drained and closed: the run up to the close. */
  lemma TheImportCloses() returns (ss: seq<State>, as_: seq<Action>)
    ensures Execution(ss, as_, G1) && |as_| == 4 && |ss| == 5
    ensures Concluded(ss[4]) && ss[4].t.run == Some(EnrichmentRun(RunOk, 0, 0))
    ensures BatchDone(PASS0) !in ss[4].t.processed && Scan(PASS0, ONE) in ss[4].workers
  {
    hide Twins, After, Init, Execution, DueIds, Published;
    var s0 := Start(Twins());
    TheTwinsAreScanned();
    var s1 := After(s0, Deliver(PASS0));
    TheMergeDrains(s1);
    var s2 := After(s1, POLL);
    NothingIsScanned(s2, PASS0);
    var s3 := After(s2, Deliver(PASS0));
    NothingToClose(s3, PASS0);
    hide Start;
    FourActions(s0, Deliver(PASS0), POLL, Deliver(PASS0), CloseImport(PASS0, false));
    ss := [s0, s1, s2, s3, After(s3, CloseImport(PASS0, false))];
    as_ := [Deliver(PASS0), POLL, Deliver(PASS0), CloseImport(PASS0, false)];
  }

  /** A poll that merges a scanned placeholder into its graded twin leaves the court drained and
      the scan open: the import closes, and the late write still counts a parse error in a row
      that says OK. */
  lemma APollCanOvertakeTheClose() returns (ss: seq<State>, as_: seq<Action>)
    ensures Execution(ss, as_, G1) && |as_| == 5
    ensures Concluded(ss[4]) && ss[4].t.run == Some(EnrichmentRun(RunOk, 0, 0))
    ensures ss[5].t.run == Some(EnrichmentRun(RunOk, 0, 1))
  {
    ss, as_ := TheImportCloses();
    hide Execution, Concluded;
    var late := Unparsed(PASS0, ONE);
    NothingGraded(ss[4].t, 1);
    var hits: Hits := map[];
    assert HitsFor(hits, G1);
    OneMoreAction(ss, as_, late);
    ss, as_ := ss + [After(ss[4], late)], as_ + [late];
  }

  // ---- A record that had its grade is not found again ----

  function Enriched(): map<RecordId, CourtRecord> {
    map[1 := AlreadyGraded(false)]
  }

  /** A record a live sync enriched before the import is due in it all the same; when the batch
      does not find it again, the closed row counts nothing and the record is enriched. */
  lemma AnEnrichedRecordIsNotCounted() returns (ss: seq<State>, as_: seq<Action>)
    ensures Execution(ss, as_, G1) && |as_| == 4
    ensures Concluded(ss[4]) && ss[4].t.run.value.updated == 0
    ensures SettledNow(ss[0].t, ss[4].t) == {1}
  {
    var s0 := Start(Enriched());
    TheEnrichedIsDue();
    hide SoundRecords, Init, Execution, After, DueIds, DueIdsOf, Published;
    Starts(Enriched());
    OneIsScanned(s0);
    var s1 := After(s0, Deliver(PASS0));
    var blank := Apply(PASS0, ONE, map[], 0, 0, false);
    var s2 := After(s1, blank);
    ABlankStep(s1);
    NothingIsScanned(s2, PASS1);
    var s3 := After(s2, Deliver(PASS1));
    NothingToClose(s3, PASS1);
    FourActions(s0, Deliver(PASS0), blank, Deliver(PASS1), CloseImport(PASS1, false));
    ss := [s0, s1, s2, s3, After(s3, CloseImport(PASS1, false))];
    as_ := [Deliver(PASS0), blank, Deliver(PASS1), CloseImport(PASS1, false)];
  }

  lemma TheEnrichedIsDue()
    ensures SoundRecords(Enriched(), G1) && DueIdsOf(Enriched(), "TJSP") == {1} == DueIds(Enriched())
    ensures Published(Start(Enriched()).t, PASS0)
  {
  }

  lemma ABlankStep(s: State)
    requires s.t == Start(Enriched()).t && Scan(PASS0, ONE) in s.workers
    ensures var blank := Apply(PASS0, ONE, map[], 0, 0, false);
            var s' := After(s, blank);
            && Enabled(s, blank, G1) && Published(s'.t, PASS1) && s'.t.run == None && DueIds(s'.t.records) == {}
            && s'.t.records == map[1 := AlreadyGraded(true)]
  {
    NothingGraded(s.t, 0);
    var hits: Hits := map[];
    assert HitsFor(hits, G1);
    hide ApplyTx;
    var s' := After(s, Apply(PASS0, ONE, map[], 0, 0, false));
    assert s'.t.outbox[1] == BatchRequested(PASS1);
    assert s'.t.records == map[1 := AlreadyGraded(true)];
  }
}
