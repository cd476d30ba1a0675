/** What one grade does, for every table contents and every hit: it always goes through, it
    keeps the constraint and the shape of the tables, it loses and invents no child, and it
    announces exactly the transitions it makes. */
module EnrichmentLaws {
  import opened Wrappers
  import opened CourtRecords
  import opened Enrichment

  datatype Disclosed = Disclosed(degree: Degree, court: Court)

  /** DATAJUD reports one grade per process number, and the number's own court. */
  type Reports = Cnj -> Disclosed

  ghost predicate GradedTwin(records: map<RecordId, CourtRecord>, id: RecordId, reports: Reports)
    requires id in records
  {
    reports(records[id].cnj).degree != Unknown
    && exists o | o in records :: records[o].cnj == records[id].cnj && records[o].degree == reports(records[id].cnj).degree
  }

  /** The court records as every transaction finds and leaves them: one row per key, no grade
      other than DATAJUD's, each number at its court, no row more complete than DATAJUD makes
      it, a retired row still a placeholder whose graded twin exists. */
  ghost predicate SoundRecords(records: map<RecordId, CourtRecord>, reports: Reports) {
    && UniqueKeys(records)
    && (forall id | id in records :: records[id].degree == Unknown || records[id].degree == reports(records[id].cnj).degree)
    && (forall id | id in records :: records[id].court == reports(records[id].cnj).court)
    && (forall id | id in records :: records[id].completeness <= DATAJUD_COMPLETENESS)
    && (forall id | id in records :: records[id].lifecycle == Superseded ==>
          records[id].degree == Unknown && GradedTwin(records, id, reports))
  }

  ghost predicate ForeignKeys(t: Tables) {
    && (forall id | id in t.records :: t.records[id].caseId in t.cases)
    && (forall i | i in t.intimations :: t.intimations[i].recordId in t.records)
    && (forall d | d in t.deadlines :: t.deadlines[d].recordId in t.records)
  }

  ghost function Count(t: Tables, e: Event): nat {
    multiset(t.outbox)[e]
  }

  /** Every announcement so far is backed by the fact it announces, and none was repeated. */
  ghost predicate HonestOutbox(t: Tables) {
    && (forall id :: Count(t, RecordSuperseded(id)) <=
          if id in t.records && t.records[id].lifecycle == Superseded then 1 else 0)
    && (forall id, h :: Count(t, DocketObserved(id, h)) <= if (id, h) in t.docket then 1 else 0)
  }

  ghost predicate Sound(t: Tables, reports: Reports) {
    SoundRecords(t.records, reports) && ForeignKeys(t) && HonestOutbox(t)
  }

  /** A parsed hit carries what DATAJUD reports of its number. */
  ghost predicate Reported(g: ParsedRecord, reports: Reports) {
    Disclosed(g.degree, g.court) == reports(g.cnj) && FromDatajud(g)
  }

  /** The hit fetched for record `id`, with a grade in it. */
  ghost predicate HitFor(records: map<RecordId, CourtRecord>, id: RecordId, p: ParsedProcess, reports: Reports) {
    && id in records
    && p.record.cnj == records[id].cnj
    && p.record.degree != Unknown
    && Reported(p.record, reports)
  }

  /** The record that already holds the grade `p` reveals, when it is not `id` itself. */
  ghost function Rival(t: Tables, id: RecordId, p: ParsedProcess): Option<RecordId> {
    var existing := FindByKey(t.records, p.record.cnj, p.record.degree);
    if existing.Some? && existing.value != id then existing else None
  }

  ghost function Target(t: Tables, id: RecordId, p: ParsedProcess): RecordId {
    var rival := Rival(t, id, p);
    if rival.Some? then rival.value else id
  }

  // ---- The records after a grade ----

  ghost function RecordsAfter(t: Tables, id: RecordId, p: ParsedProcess, nextSync: Instant): map<RecordId, CourtRecord>
    requires id in t.records
  {
    var target := Target(t, id, p);
    var records := if target == id then t.records else t.records[id := SupersededRow(t.records[id])];
    records[target := GradedRow(t.records[target], p.record, nextSync)]
  }

  /** A record that meets a rival is still a placeholder; the rival is graded and alive. */
  lemma RivalIsAlive(t: Tables, id: RecordId, p: ParsedProcess, reports: Reports)
    requires SoundRecords(t.records, reports) && HitFor(t.records, id, p, reports)
    ensures var target := Target(t, id, p);
            target in t.records && t.records[target].cnj == t.records[id].cnj
    ensures Rival(t, id, p).Some? ==>
              var target := Target(t, id, p);
              t.records[target].degree == p.record.degree && t.records[target].lifecycle != Superseded
              && t.records[id].degree == Unknown
    ensures Rival(t, id, p).None? ==> t.records[id].lifecycle != Superseded
  {
  }

  ghost function Maybe(c: bool, x: Event): seq<Event> {
    if c then [x] else []
  }

  ghost function Conclusion(r: CourtRecord, id: RecordId, p: ParsedProcess, nextSync: Instant): seq<Event> {
    Maybe(r.lifecycle != Archived && GradedRow(r, p.record, nextSync).lifecycle == Archived, RecordArchived(id))
  }

  /** The announcements of one grade: the retirement, then the conclusion. */
  ghost function Announcements(t: Tables, id: RecordId, p: ParsedProcess, nextSync: Instant): seq<Event>
    requires id in t.records && Target(t, id, p) in t.records
  {
    var target := Target(t, id, p);
    Maybe(target != id && t.records[id].lifecycle != Superseded, RecordSuperseded(id))
    + Conclusion(t.records[target], target, p, nextSync)
  }

  /** The whole of the tables after a grade that commits. */
  ghost function AfterGrade(t: Tables, id: RecordId, p: ParsedProcess, nextSync: Instant): Tables
    requires id in t.records && Target(t, id, p) in t.records && t.records[Target(t, id, p)].caseId in t.cases
  {
    var target := Target(t, id, p);
    var caseId := t.records[target].caseId;
    t.(records := RecordsAfter(t, id, p, nextSync),
       outbox := t.outbox + Announcements(t, id, p, nextSync),
       intimations := if target == id then t.intimations
                      else Cascaded(t.records, Repointed(t.intimations, id, target), caseId, t.cases[caseId]),
       deadlines := if target == id then t.deadlines else RepointedDeadlines(t.deadlines, id, target),
       docket := DocketWith(t.docket, target, p.movimentos))
  }

  lemma CascadeSeesOnlyCases(r1: map<RecordId, CourtRecord>, r2: map<RecordId, CourtRecord>,
                             intimations: map<IntimationId, Intimation>, caseId: CaseId, user: Option<UserId>)
    requires r1.Keys == r2.Keys && forall id | id in r1 :: r1[id].caseId == r2[id].caseId
    ensures Cascaded(r1, intimations, caseId, user) == Cascaded(r2, intimations, caseId, user)
  {
    assert forall id :: id in r1 <==> id in r1.Keys;
    assert forall i | i in intimations :: UnderCase(r1, intimations[i], caseId) == UnderCase(r2, intimations[i], caseId);
  }

  /** The lookup in front of the grade is enough: the UNIQUE constraint never fires, no row
      is missing, the transaction commits; and this is what it leaves. */
  lemma GradeCommits(t: Tables, id: RecordId, p: ParsedProcess, nextSync: Instant, reports: Reports)
    requires SoundRecords(t.records, reports) && ForeignKeys(t) && HitFor(t.records, id, p, reports)
    ensures var target := Target(t, id, p);
            && target in t.records
            && GradeTx(t, id, p, nextSync)
               == Ok(Graded(AfterGrade(t, id, p, nextSync), target, NewHashes(t.docket, target, p.movimentos)))
  {
    if Rival(t, id, p).Some? {
      GradeCommitsByMerge(t, id, p, nextSync, reports);
    } else {
      GradeCommitsInPlace(t, id, p, nextSync, reports);
    }
  }

  lemma GradeCommitsInPlace(t: Tables, id: RecordId, p: ParsedProcess, nextSync: Instant, reports: Reports)
    requires SoundRecords(t.records, reports) && ForeignKeys(t) && HitFor(t.records, id, p, reports)
    requires Rival(t, id, p).None?
    ensures GradeTx(t, id, p, nextSync)
            == Ok(Graded(AfterGrade(t, id, p, nextSync), id, NewHashes(t.docket, id, p.movimentos)))
  {
    assert !HeldByAnother(t.records, id, GradedRow(t.records[id], p.record, nextSync));
    GradedTables(t, id, p, nextSync);
    assert Announcements(t, id, p, nextSync) == Conclusion(t.records[id], id, p, nextSync);
  }

  lemma GradeCommitsByMerge(t: Tables, id: RecordId, p: ParsedProcess, nextSync: Instant, reports: Reports)
    requires SoundRecords(t.records, reports) && ForeignKeys(t) && HitFor(t.records, id, p, reports)
    requires Rival(t, id, p).Some?
    ensures var target := Target(t, id, p);
            && target in t.records
            && GradeTx(t, id, p, nextSync)
               == Ok(Graded(AfterGrade(t, id, p, nextSync), target, NewHashes(t.docket, target, p.movimentos)))
  {
    RivalIsAlive(t, id, p, reports);
    var target := Target(t, id, p);
    var merged := Merge(t, id, target).value;
    assert !HeldByAnother(merged.records, target, GradedRow(t.records[target], p.record, nextSync));
    GradedTables(merged, target, p, nextSync);
    var retired := Maybe(t.records[id].lifecycle != Superseded, RecordSuperseded(id));
    var last := Conclusion(t.records[target], target, p, nextSync);
    assert t.outbox + [] == t.outbox;
    assert (t.outbox + retired) + last == t.outbox + (retired + last);
    var caseId := t.records[target].caseId;
    CascadeSeesOnlyCases(t.records, merged.records, Repointed(t.intimations, id, target), caseId, t.cases[caseId]);
    var a := AfterGrade(t, id, p, nextSync);
    var b := GradeTx(t, id, p, nextSync).value.tables;
    assert a.records == b.records;
    assert a.outbox == b.outbox;
    assert a.intimations == b.intimations;
    assert a.docket == b.docket;
  }

  lemma GradedTables(t: Tables, target: RecordId, p: ParsedProcess, nextSync: Instant)
    requires target in t.records && !HeldByAnother(t.records, target, GradedRow(t.records[target], p.record, nextSync))
    ensures var row := GradedRow(t.records[target], p.record, nextSync);
            GradeRow(t, target, p, nextSync) == Ok(Graded(
              t.(records := t.records[target := row],
                 outbox := t.outbox + Conclusion(t.records[target], target, p, nextSync),
                 docket := DocketWith(t.docket, target, p.movimentos)),
              target, NewHashes(t.docket, target, p.movimentos)))
  {
    assert t.outbox + [] == t.outbox;
  }

  lemma RecordsAfterKeys(t: Tables, id: RecordId, p: ParsedProcess, nextSync: Instant, reports: Reports)
    requires SoundRecords(t.records, reports) && HitFor(t.records, id, p, reports)
    ensures UniqueKeys(RecordsAfter(t, id, p, nextSync))
  {
    RivalIsAlive(t, id, p, reports);
    hide GradedTwin;
  }

  lemma GradeKeepsRecordsSound(t: Tables, id: RecordId, p: ParsedProcess, nextSync: Instant, reports: Reports)
    requires SoundRecords(t.records, reports) && HitFor(t.records, id, p, reports)
    ensures SoundRecords(RecordsAfter(t, id, p, nextSync), reports)
  {
    RivalIsAlive(t, id, p, reports);
    var after := RecordsAfter(t, id, p, nextSync);
    var target := Target(t, id, p);
    RecordsAfterKeys(t, id, p, nextSync, reports);
    hide UniqueKeys;
    assert after[target].degree == reports(after[target].cnj).degree;
    forall o | o in after && after[o].lifecycle == Superseded
      ensures after[o].degree == Unknown && GradedTwin(after, o, reports)
    {
      if o != id {
        var twin :| twin in t.records && t.records[twin].cnj == t.records[o].cnj && t.records[twin].degree == reports(t.records[o].cnj).degree;
        assert after[twin].degree == reports(after[o].cnj).degree;
      }
    }
  }

  // ---- The children ----

  /** Intimations before and after: the same ones, only the anchor of those on `from` moved
      to `to`; `assignees` aside. */
  ghost predicate OnlyReanchored(before: map<IntimationId, Intimation>, after: map<IntimationId, Intimation>, from: RecordId, to: RecordId) {
    && after.Keys == before.Keys
    && forall i | i in before ::
         after[i].(assignee := None)
         == before[i].(assignee := None, recordId := if before[i].recordId == from then to else before[i].recordId)
  }

  ghost predicate OnlyDeadlinesReanchored(before: map<DeadlineId, Deadline>, after: map<DeadlineId, Deadline>, from: RecordId, to: RecordId) {
    && after.Keys == before.Keys
    && forall d | d in before ::
         after[d] == before[d].(recordId := if before[d].recordId == from then to else before[d].recordId)
  }

  /** Every intimation under the case carries its assignee; no other assignee changed. */
  ghost predicate CaseAssigneeSpread(before: Tables, after: Tables, caseId: CaseId)
    requires before.intimations.Keys == after.intimations.Keys && caseId in before.cases
  {
    forall i | i in after.intimations ::
      after.intimations[i].assignee
      == if UnderCase(after.records, after.intimations[i], caseId) then before.cases[caseId] else before.intimations[i].assignee
  }

  /** No child is lost, invented or altered beyond its anchor and its assignee; whatever hung
      off the record that met a rival hangs off the rival afterwards, and the intimations of
      the rival's case all carry that case's assignee. Without a rival no child is touched. */
  lemma ChildrenFollowTheGrade(t: Tables, id: RecordId, p: ParsedProcess, nextSync: Instant, reports: Reports)
    requires SoundRecords(t.records, reports) && ForeignKeys(t) && HitFor(t.records, id, p, reports)
    ensures GradeTx(t, id, p, nextSync).Ok?
    ensures var after := GradeTx(t, id, p, nextSync).value.tables;
            var target := Target(t, id, p);
            && OnlyReanchored(t.intimations, after.intimations, id, target)
            && OnlyDeadlinesReanchored(t.deadlines, after.deadlines, id, target)
            && (Rival(t, id, p).None? ==> after.intimations == t.intimations && after.deadlines == t.deadlines)
            && (Rival(t, id, p).Some? ==>
                  && (forall i | i in after.intimations :: after.intimations[i].recordId != id)
                  && (forall d | d in after.deadlines :: after.deadlines[d].recordId != id)
                  && CaseAssigneeSpread(t, after, t.records[target].caseId))
  {
    GradeCommits(t, id, p, nextSync, reports);
    hide GradeTx, SoundRecords, HitFor, Announcements;
    var after := AfterGrade(t, id, p, nextSync);
    if Rival(t, id, p).Some? {
      var target := Target(t, id, p);
      var caseId := t.records[target].caseId;
      var moved := Repointed(t.intimations, id, target);
      CascadeSeesOnlyCases(t.records, after.records, moved, caseId, t.cases[caseId]);
      assert after.intimations == Cascaded(after.records, moved, caseId, t.cases[caseId]);
      MovedChildren(t.intimations, after.records, id, target, caseId, t.cases[caseId]);
    }
  }

  lemma MovedChildren(intimations: map<IntimationId, Intimation>, records: map<RecordId, CourtRecord>,
                      from: RecordId, to: RecordId, caseId: CaseId, user: Option<UserId>)
    requires from != to
    ensures var after := Cascaded(records, Repointed(intimations, from, to), caseId, user);
            && OnlyReanchored(intimations, after, from, to)
            && (forall i | i in after :: after[i].recordId != from)
            && forall i | i in after :: after[i].assignee == if UnderCase(records, after[i], caseId) then user else intimations[i].assignee
  {
  }

  // ---- The announcements ----

  predicate Enters(before: map<RecordId, CourtRecord>, after: map<RecordId, CourtRecord>, id: RecordId, l: Lifecycle) {
    id in before && id in after && before[id].lifecycle != l && after[id].lifecycle == l
  }

  lemma CountAppend(s: seq<Event>, u: seq<Event>, e: Event)
    ensures multiset(s + u)[e] == multiset(s)[e] + multiset(u)[e]
  {
  }

  /** How often `e` has to be announced when the records go from `before` to `after`. */
  ghost function Owed(before: map<RecordId, CourtRecord>, after: map<RecordId, CourtRecord>, e: Event): nat {
    match e
    case RecordArchived(r) => if Enters(before, after, r, Archived) then 1 else 0
    case RecordSuperseded(r) => if Enters(before, after, r, Superseded) then 1 else 0
    case DocketObserved(_, _) => 0
    case BatchRequested(_) => 0
  }

  /** Which lifecycles a grade can move: the target's, and, at a merge, the placeholder's. */
  ghost predicate MovesTwoLifecycles(before: map<RecordId, CourtRecord>, after: map<RecordId, CourtRecord>, id: RecordId, target: RecordId) {
    && id in before && target in before && after.Keys == before.Keys
    && before[target].lifecycle != Superseded && after[target].lifecycle != Superseded
    && (target != id ==> after[id].lifecycle == Superseded)
    && (forall o | o in before && o != id && o != target :: after[o].lifecycle == before[o].lifecycle)
  }

  lemma GradeMovesTwoLifecycles(t: Tables, id: RecordId, p: ParsedProcess, nextSync: Instant, reports: Reports)
    requires SoundRecords(t.records, reports) && HitFor(t.records, id, p, reports)
    ensures MovesTwoLifecycles(t.records, RecordsAfter(t, id, p, nextSync), id, Target(t, id, p))
  {
    RivalIsAlive(t, id, p, reports);
  }

  lemma CountMaybe(c: bool, x: Event, e: Event)
    ensures multiset(Maybe(c, x))[e] == if c && x == e then 1 else 0
  {
  }

  lemma AnnouncementsAreOwed(before: map<RecordId, CourtRecord>, after: map<RecordId, CourtRecord>, id: RecordId, target: RecordId, e: Event)
    requires MovesTwoLifecycles(before, after, id, target)
    ensures multiset(Maybe(target != id && before[id].lifecycle != Superseded, RecordSuperseded(id))
                     + Maybe(Enters(before, after, target, Archived), RecordArchived(target)))[e]
            == Owed(before, after, e)
  {
    var c, d := target != id && before[id].lifecycle != Superseded, Enters(before, after, target, Archived);
    CountAppend(Maybe(c, RecordSuperseded(id)), Maybe(d, RecordArchived(target)), e);
    CountMaybe(c, RecordSuperseded(id), e);
    CountMaybe(d, RecordArchived(target), e);
    TwoMovesAreOwed(before, after, id, target, e);
    hide Maybe, MovesTwoLifecycles, Owed, Enters;
  }

  lemma TwoMovesAreOwed(before: map<RecordId, CourtRecord>, after: map<RecordId, CourtRecord>, id: RecordId, target: RecordId, e: Event)
    requires MovesTwoLifecycles(before, after, id, target)
    ensures Owed(before, after, e)
            == (if target != id && before[id].lifecycle != Superseded && RecordSuperseded(id) == e then 1 else 0)
               + (if Enters(before, after, target, Archived) && RecordArchived(target) == e then 1 else 0)
  {
  }

  /** A grade announces exactly the lifecycle transitions it makes, once each, and nothing else. */
  lemma GradeAnnouncesItsTransitions(t: Tables, id: RecordId, p: ParsedProcess, nextSync: Instant, reports: Reports, e: Event)
    requires SoundRecords(t.records, reports) && ForeignKeys(t) && HitFor(t.records, id, p, reports)
    ensures GradeTx(t, id, p, nextSync).Ok?
    ensures var after := GradeTx(t, id, p, nextSync).value.tables;
            Count(after, e) == Count(t, e) + Owed(t.records, after.records, e)
  {
    GradeCommits(t, id, p, nextSync, reports);
    CountAppend(t.outbox, Announcements(t, id, p, nextSync), e);
    GradeMovesTwoLifecycles(t, id, p, nextSync, reports);
    AnnouncementsAreOwed(t.records, RecordsAfter(t, id, p, nextSync), id, Target(t, id, p), e);
  }

  /** The docket upsert returns each genuinely new movement once, and only those. */
  lemma NewHashesAreNew(docket: set<(RecordId, Hash)>, target: RecordId, movs: seq<Hash>)
    ensures var fresh_ := NewHashes(docket, target, movs);
            && (forall h :: h in fresh_ <==> h in movs && (target, h) !in docket)
            && (forall h :: multiset(fresh_)[h] <= 1)
  {
    if movs != [] {
      NewHashesAreNew(docket, target, movs[..|movs| - 1]);
      assert movs == movs[..|movs| - 1] + [movs[|movs| - 1]];
    }
  }

  lemma CountObserved(target: RecordId, hashes: seq<Hash>, e: Event)
    ensures multiset(Observed(target, hashes))[e]
            == if e.DocketObserved? && e.recordId == target then multiset(hashes)[e.hash] else 0
  {
    if hashes == [] {
      assert Observed(target, hashes) == [];
    } else {
      var n := |hashes| - 1;
      CountObserved(target, hashes[..n], e);
      assert hashes == hashes[..n] + [hashes[n]];
      assert Observed(target, hashes) == Observed(target, hashes[..n]) + [DocketObserved(target, hashes[n])];
    }
  }

  /** The scan's ceiling shuts no record out: DATAJUD's completeness, as the column stores it,
      lies below it, so a graded record is due until it is attempted. */
  lemma GradedRowsStayDue(records: map<RecordId, CourtRecord>, reports: Reports, id: RecordId)
    requires SoundRecords(records, reports) && id in records
    ensures Due(records[id]) <==> !records[id].attempted && records[id].lifecycle != Superseded
  {
    assert records[id].completeness <= DATAJUD_COMPLETENESS;
  }

  // ---- Why one grade and one court per number ----

  function Alive(caseId: CaseId, degree: Degree): CourtRecord {
    CourtRecord(caseId, "0001", degree, "TJSP", "", "", DATAJUD_COMPLETENESS, Active, None, false)
  }

  /** If DATAJUD answered two grades for one number over time, an observation of the first
      graded record could meet the second as its rival and retire a record that is no
      placeholder at all. */
  lemma MovingGradesRetireAGradedRecord(t: Tables, p: ParsedProcess)
    requires t.records == map[1 := Alive(1, Grade("G1")), 2 := Alive(2, Grade("G2"))]
    requires t.cases == map[1 := None, 2 := None]
    requires p.record.cnj == "0001" && p.record.degree == Grade("G2")
    ensures GradeTx(t, 1, p, 0).Ok?
    ensures GradeTx(t, 1, p, 0).value.tables.records[1].lifecycle == Superseded
    ensures GradeTx(t, 1, p, 0).value.tables.records[1].degree == Grade("G1")
  {
    assert FindByKey(t.records, "0001", Grade("G2")) == Some(2) by {
      assert t.records[2].cnj == "0001" && t.records[2].degree == Grade("G2");
    }
    var merged := Merge(t, 1, 2).value;
    assert !HeldByAnother(merged.records, 2, GradedRow(merged.records[2], p.record, 0));
  }

  /** If a hit named another court, an unattempted record would turn due at that court, whose
      chain may have drained long ago. */
  lemma AMovedCourtIsDueElsewhere(t: Tables, p: ParsedProcess)
    requires t.records == map[1 := Alive(1, Grade("G1"))] && t.cases == map[1 := None]
    requires p.record.cnj == "0001" && p.record.degree == Grade("G1") && p.record.court == "TJMG" && FromDatajud(p.record)
    ensures GradeTx(t, 1, p, 0).Ok?
    ensures DueIdsOf(t.records, "TJMG") == {} && DueIdsOf(GradeTx(t, 1, p, 0).value.tables.records, "TJMG") == {1}
  {
    assert FindByKey(t.records, "0001", Grade("G1")) == Some(1) by {
      assert t.records[1].cnj == "0001" && t.records[1].degree == Grade("G1");
    }
    assert !HeldByAnother(t.records, 1, GradedRow(t.records[1], p.record, 0));
  }
}
