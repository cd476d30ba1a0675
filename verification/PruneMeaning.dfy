/** What a prune removes, said in columns and instants: which intimations, records and cases, and
    that everything else goes only because what it hangs off went. */
module PruneMeaning {
  import opened SqlTables
  import opened Prune
  import opened PruneSteps
  import opened PrunePlan
  import opened PruneLaws
  import opened PruneTheorems

  /** The rows of a table that are no longer there. */
  function Goes(db: Db, after: Db, t: Table): set<Id> {
    Rows(db, t).Keys - Rows(after, t).Keys
  }

  /** The tables a prune that goes through leaves. */
  function Survivors(db: Db, tenant: int, clock: Clock): Db
    requires PruneTx(db, tenant, clock).Ok?
  {
    PruneTx(db, tenant, clock).value.0
  }

  lemma TheScopeGoes(db: Db, tenant: int, clock: Clock)
    requires Pruned(db, tenant, clock)
    ensures var sc, after := BuildScopeSets(db, tenant, clock), Survivors(db, tenant, clock);
            && sc.emptied == EmptiedCases(db, tenant, sc.noise, sc.dormant)
            && Goes(db, after, Intimation) == sc.noise && Goes(db, after, CourtRecord) == sc.dormant && Goes(db, after, CourtCase) == sc.emptied
  {
    GoneIs(db, tenant, clock, Intimation);
    GoneIs(db, tenant, clock, CourtRecord);
    GoneIs(db, tenant, clock, CourtCase);
    hide Noise, DormantRecords, EmptiedCases, Goes, Survivors, Pruned;
  }

  predicate NoiseRow(row: Row, tenant: int, clock: Clock) {
    row.tenant == tenant && (row.kind == "COMUNICACAO" || row.at < clock.noiseCut)
  }

  predicate PointsTo(row: Row, c: Column, id: Id) {
    c in row.refs && row.refs[c] == id
  }

  lemma GoneIs(db: Db, tenant: int, clock: Clock, t: Table)
    requires Pruned(db, tenant, clock)
    ensures Goes(db, Survivors(db, tenant, clock), t) == GoneAfter(db, BuildScopeSets(db, tenant, clock), 29, t)
  {
    hide BuildScopeSets, Run, ScopeOk, GoneAfter, Kept, NoKeyCrossesTenants;
    WhatThePruneLeaves(db, tenant, clock);
    var sc := BuildScopeSets(db, tenant, clock);
    GoneWasThere(db, sc, t);
    KeptKeys(Rows(db, t), t, GoneAfter(db, sc, 29, t), ClearedBy(3), sc);
  }

  /** An intimation goes exactly when it is the tenant's, and a communication or older than thirty
      days. */
  lemma WhichIntimationsGo(db: Db, tenant: int, clock: Clock, i: Id)
    requires Pruned(db, tenant, clock) && i in Rows(db, Intimation)
    ensures i in Goes(db, Survivors(db, tenant, clock), Intimation) <==> NoiseRow(Rows(db, Intimation)[i], tenant, clock)
  {
    GoneIs(db, tenant, clock, Intimation);
    hide DormantRecords, EmptiedCases, Run;
  }

  /** Every movement of its docket is older than the cut, and so is every intimation of it that
      does not go as noise. */
  ghost predicate Silent(db: Db, tenant: int, clock: Clock, r: Id) {
    && (forall e | e in Rows(db, DocketEntry) && PointsTo(Rows(db, DocketEntry)[e], CourtRecordId, r) ::
          Rows(db, DocketEntry)[e].at < clock.dormantCut)
    && (forall i | i in Rows(db, Intimation) && PointsTo(Rows(db, Intimation)[i], CourtRecordId, r) ::
          Rows(db, Intimation)[i].at < clock.dormantCut || NoiseRow(Rows(db, Intimation)[i], tenant, clock))
  }

  /** A record goes exactly when it is the tenant's and was silent for twelve months. */
  lemma WhichRecordsGo(db: Db, tenant: int, clock: Clock, r: Id)
    requires Pruned(db, tenant, clock) && r in Rows(db, CourtRecord)
    ensures r in Goes(db, Survivors(db, tenant, clock), CourtRecord)
            <==> Rows(db, CourtRecord)[r].tenant == tenant && Silent(db, tenant, clock, r)
  {
    GoneIs(db, tenant, clock, CourtRecord);
    DormantMeans(db, tenant, clock, r);
    hide EmptiedCases, Dormant, Noise, Silent, Goes, Survivors, NoKeyCrossesTenants, PruneTx;
  }

  lemma DormantMeans(db: Db, tenant: int, clock: Clock, r: Id)
    requires Sensible(clock)
    ensures Dormant(db, Noise(db, tenant, clock), r, clock) <==> Silent(db, tenant, clock, r)
  {
    assert forall e :: e in Under(db, DocketEntry, CourtRecordId, r)
                       <==> e in Rows(db, DocketEntry) && PointsTo(Rows(db, DocketEntry)[e], CourtRecordId, r);
    assert forall i :: i in Under(db, Intimation, CourtRecordId, r) - Noise(db, tenant, clock)
                       <==> i in Rows(db, Intimation) && PointsTo(Rows(db, Intimation)[i], CourtRecordId, r)
                            && !NoiseRow(Rows(db, Intimation)[i], tenant, clock);
  }

  /** It has records, all of them go, and so do all intimations under it. */
  ghost predicate Emptied(db: Db, k: Id, records: set<Id>, intimations: set<Id>) {
    && (exists r :: r in Rows(db, CourtRecord) && PointsTo(Rows(db, CourtRecord)[r], CaseId, k))
    && (forall r | r in Rows(db, CourtRecord) && PointsTo(Rows(db, CourtRecord)[r], CaseId, k) :: r in records)
    && (forall i | i in Rows(db, Intimation) && PointsTo(Rows(db, Intimation)[i], CaseId, k) :: i in intimations)
  }

  /** A case goes exactly when it is the tenant's and the prune empties it. */
  lemma WhichCasesGo(db: Db, tenant: int, clock: Clock, k: Id)
    requires Pruned(db, tenant, clock) && k in Rows(db, CourtCase)
    ensures var after := Survivors(db, tenant, clock);
            k in Goes(db, after, CourtCase)
            <==> Rows(db, CourtCase)[k].tenant == tenant && Emptied(db, k, Goes(db, after, CourtRecord), Goes(db, after, Intimation))
  {
    TheScopeGoes(db, tenant, clock);
    var sc := BuildScopeSets(db, tenant, clock);
    hide BuildScopeSets, EmptiedCases, Emptied, Goes, Survivors, Pruned;
    EmptiedMeans(db, tenant, sc.noise, sc.dormant, k);
  }

  lemma EmptiedMeans(db: Db, tenant: int, noise: set<Id>, dormant: set<Id>, k: Id)
    requires k in Rows(db, CourtCase)
    ensures k in EmptiedCases(db, tenant, noise, dormant)
            <==> Rows(db, CourtCase)[k].tenant == tenant && Emptied(db, k, dormant, noise)
  {
    var records, intimations := Under(db, CourtRecord, CaseId, k), Under(db, Intimation, CaseId, k);
    assert forall r :: r in records <==> r in Rows(db, CourtRecord) && PointsTo(Rows(db, CourtRecord)[r], CaseId, k);
    assert forall i :: i in intimations <==> i in Rows(db, Intimation) && PointsTo(Rows(db, Intimation)[i], CaseId, k);
    if Emptied(db, k, dormant, noise) {
      var r :| r in Rows(db, CourtRecord) && PointsTo(Rows(db, CourtRecord)[r], CaseId, k);
      assert r in records * dormant;
      forall o | o in records ensures o in dormant {
        assert PointsTo(Rows(db, CourtRecord)[o], CaseId, k);
      }
      forall i | i in intimations ensures i in noise {
        assert PointsTo(Rows(db, Intimation)[i], CaseId, k);
      }
    }
    if records * dormant != {} && records <= dormant && intimations <= noise {
      var r := PickOne(records * dormant, {});
      assert r in Rows(db, CourtRecord) && PointsTo(Rows(db, CourtRecord)[r], CaseId, k);
      assert Emptied(db, k, dormant, noise);
    }
  }

  lemma GoneIsGone(db: Db, tenant: int, clock: Clock)
    requires Pruned(db, tenant, clock)
    ensures forall t :: Goes(db, Survivors(db, tenant, clock), t) == GoneAfter(db, BuildScopeSets(db, tenant, clock), 29, t)
  {
    forall t ensures Goes(db, Survivors(db, tenant, clock), t) == GoneAfter(db, BuildScopeSets(db, tenant, clock), 29, t) {
      GoneIs(db, tenant, clock, t);
    }
  }

  /** Rows that go with the intimation, the record or the case they hang off. */
  ghost predicate GoWithThoseThree(db: Db, g: Gone) {
    && g(Deadline) == Pointing(db, Deadline, NotificationId, g(Intimation)) + Pointing(db, Deadline, CourtRecordId, g(CourtRecord))
    && g(Task) == Pointing(db, Task, IntimationId, g(Intimation)) + Pointing(db, Task, CourtRecordId, g(CourtRecord))
                  + Pointing(db, Task, DeadlineId, Pointing(db, Deadline, NotificationId, g(Intimation)))
    && g(Draft) == Pointing(db, Draft, IntimationId, g(Intimation))
    && g(Document) == Pointing(db, Document, CourtRecordId, g(CourtRecord))
    && g(DocketEntry) == Pointing(db, DocketEntry, CourtRecordId, g(CourtRecord))
    && g(Party) == Pointing(db, Party, CaseId, g(CourtCase))
    && g(CaseLink) == Pointing(db, CaseLink, FromRecordId, g(CourtRecord)) + Pointing(db, CaseLink, ToRecordId, g(CourtRecord))
    && g(SyncRun) == {}
  }

  /** And rows that go with those. */
  ghost predicate GoWithTheirParents(db: Db, g: Gone) {
    && g(TaskItem) == Pointing(db, TaskItem, TaskId, g(Task))
    && g(TaskSuggestion) == Pointing(db, TaskSuggestion, IntimationId, g(Intimation)) + Pointing(db, TaskSuggestion, DeadlineId, g(Deadline))
    && g(DraftAttachment) == Pointing(db, DraftAttachment, DraftId, g(Draft))
    && g(Review) == Pointing(db, Review, DraftId, g(Draft))
    && g(Petition) == Pointing(db, Petition, DraftId, g(Draft)) + Pointing(db, Petition, CourtRecordId, g(CourtRecord))
    && g(Chunk) == Pointing(db, Chunk, DocumentId, g(Document))
    && g(PartyCounsel) == Pointing(db, PartyCounsel, PartyId, g(Party))
  }

  lemma PlanFollows(db: Db, sc: Scope, g: Gone)
    requires forall t :: g(t) == GoneAfter(db, sc, 29, t)
    ensures GoWithThoseThree(db, g)
  {
    hide Pointing;
  }

  lemma PointingUnion(db: Db, t: Table, c: Column, a: set<Id>, b: set<Id>)
    ensures Pointing(db, t, c, a + b) == Pointing(db, t, c, a) + Pointing(db, t, c, b)
  {
    forall id ensures id in Pointing(db, t, c, a + b) <==> id in Pointing(db, t, c, a) + Pointing(db, t, c, b) {
    }
  }

  lemma PlanFollowsFurther(db: Db, sc: Scope, g: Gone)
    requires forall t :: g(t) == GoneAfter(db, sc, 29, t)
    ensures GoWithTheirParents(db, g)
  {
    PointingUnion(db, TaskItem, TaskId, NoiseTasks(db, sc), DormantTasks(db, sc));
    PointingUnion(db, TaskSuggestion, DeadlineId, NoiseDeadlines(db, sc), DormantDeadlines(db, sc));
    hide Pointing, NoiseTasks, DormantTasks, NoiseDeadlines, DormantDeadlines, NoiseDrafts, DormantDocuments, EmptiedParties;
  }

  ghost function GoesOf(db: Db, after: Db): Gone {
    t => Goes(db, after, t)
  }

  /** Apart from intimations, records and cases a row goes only with what it hangs off, and
      then it does. */
  lemma EverythingElseFollows(db: Db, tenant: int, clock: Clock)
    requires Pruned(db, tenant, clock)
    ensures var g := GoesOf(db, Survivors(db, tenant, clock)); GoWithThoseThree(db, g) && GoWithTheirParents(db, g)
  {
    GoneIsGone(db, tenant, clock);
    hide GoWithThoseThree, GoWithTheirParents, GoneAfter, BuildScopeSets, Survivors, Goes, PruneTx;
    PlanFollows(db, BuildScopeSets(db, tenant, clock), GoesOf(db, Survivors(db, tenant, clock)));
    PlanFollowsFurther(db, BuildScopeSets(db, tenant, clock), GoesOf(db, Survivors(db, tenant, clock)));
  }

  /** A record whose docket moved within twelve months stays, with its docket and its case. */
  lemma AMovingRecordStays(db: Db, tenant: int, clock: Clock, r: Id, e: Id)
    requires Pruned(db, tenant, clock) && Integrity(db) && r in Rows(db, CourtRecord)
    requires e in Rows(db, DocketEntry) && PointsTo(Rows(db, DocketEntry)[e], CourtRecordId, r) && Rows(db, DocketEntry)[e].at >= clock.dormantCut
    ensures var after := Survivors(db, tenant, clock);
            && r in Rows(after, CourtRecord)
            && (forall d | d in Rows(db, DocketEntry) && PointsTo(Rows(db, DocketEntry)[d], CourtRecordId, r) :: d in Rows(after, DocketEntry))
            && (CaseId in Rows(db, CourtRecord)[r].refs ==> Rows(db, CourtRecord)[r].refs[CaseId] in Rows(after, CourtCase))
  {
    WhichRecordsGo(db, tenant, clock, r);
    assert r !in Goes(db, Survivors(db, tenant, clock), CourtRecord) by {
      hide Survivors, Goes;
    }
    ItsDocketStays(db, tenant, clock, r);
    if CaseId in Rows(db, CourtRecord)[r].refs {
      ItsCaseStays(db, tenant, clock, r);
    }
    hide Survivors, Silent, Integrity, NoKeyCrossesTenants;
  }

  lemma ItsDocketStays(db: Db, tenant: int, clock: Clock, r: Id)
    requires Pruned(db, tenant, clock) && r in Rows(db, CourtRecord) && r !in Goes(db, Survivors(db, tenant, clock), CourtRecord)
    ensures forall d | d in Rows(db, DocketEntry) && PointsTo(Rows(db, DocketEntry)[d], CourtRecordId, r) ::
              d in Rows(Survivors(db, tenant, clock), DocketEntry)
  {
    EverythingElseFollows(db, tenant, clock);
    var after := Survivors(db, tenant, clock);
    hide Survivors, Pruned, GoWithTheirParents;
    assert GoesOf(db, after)(DocketEntry) == Pointing(db, DocketEntry, CourtRecordId, GoesOf(db, after)(CourtRecord));
    hide GoWithThoseThree;
    forall d | d in Rows(db, DocketEntry) && PointsTo(Rows(db, DocketEntry)[d], CourtRecordId, r) ensures d in Rows(after, DocketEntry) {
      assert d !in Goes(db, after, DocketEntry);
    }
  }

  lemma ItsCaseStays(db: Db, tenant: int, clock: Clock, r: Id)
    requires Pruned(db, tenant, clock) && Integrity(db) && r in Rows(db, CourtRecord)
    requires r !in Goes(db, Survivors(db, tenant, clock), CourtRecord) && CaseId in Rows(db, CourtRecord)[r].refs
    ensures Rows(db, CourtRecord)[r].refs[CaseId] in Rows(Survivors(db, tenant, clock), CourtCase)
  {
    var k := Rows(db, CourtRecord)[r].refs[CaseId];
    PointsAt(db, CourtRecord, CaseId, r);
    WhichCasesGo(db, tenant, clock, k);
    hide Survivors, Pruned, Integrity;
    var after := Survivors(db, tenant, clock);
    assert PointsTo(Rows(db, CourtRecord)[r], CaseId, k);
    assert k !in Goes(db, after, CourtCase);
  }

  /** A row that stays keeps every column, but that a link of a sync run to a record that goes, and
      of a draft or a merged case to a case that goes, is cleared. */
  lemma WhatStaysKeepsItsColumns(db: Db, tenant: int, clock: Clock, t: Table, id: Id, c: Column)
    requires Pruned(db, tenant, clock) && id in Rows(db, t) && id in Rows(Survivors(db, tenant, clock), t)
    ensures var after := Survivors(db, tenant, clock);
            var before, now := Rows(db, t)[id], Rows(after, t)[id];
            var cleared := c in before.refs
                           && ((t == SyncRun && c == CourtRecordId && before.refs[c] in Goes(db, after, CourtRecord))
                               || (t == Draft && c == CaseId && before.refs[c] in Goes(db, after, CourtCase))
                               || (t == CourtCase && c == MergedIntoId && before.refs[c] in Goes(db, after, CourtCase)));
            && now.tenant == before.tenant && now.kind == before.kind && now.at == before.at
            && (c in now.refs <==> c in before.refs && !cleared) && (c in now.refs ==> now.refs[c] == before.refs[c])
  {
    TheScopeGoes(db, tenant, clock);
    RowsNow(db, tenant, clock, t, id);
    var after, sc := Survivors(db, tenant, clock), BuildScopeSets(db, tenant, clock);
    hide BuildScopeSets, Pruned, Goes, Survivors, Rows;
    OneColumn(Rows(db, t)[id], t, sc, c);
  }

  lemma OneColumn(row: Row, t: Table, sc: Scope, c: Column)
    ensures var now := Scrubbed(row, t, ClearedBy(3), sc);
            var cleared := c in row.refs
                           && ((t == SyncRun && c == CourtRecordId && row.refs[c] in sc.dormant)
                               || (t == Draft && c == CaseId && row.refs[c] in sc.emptied)
                               || (t == CourtCase && c == MergedIntoId && row.refs[c] in sc.emptied));
            && now.tenant == row.tenant && now.kind == row.kind && now.at == row.at
            && (c in now.refs <==> c in row.refs && !cleared) && (c in now.refs ==> now.refs[c] == row.refs[c])
  {
  }

  lemma RowsNow(db: Db, tenant: int, clock: Clock, t: Table, id: Id)
    requires Pruned(db, tenant, clock) && id in Rows(db, t) && id in Rows(Survivors(db, tenant, clock), t)
    ensures Rows(Survivors(db, tenant, clock), t)[id] == Scrubbed(Rows(db, t)[id], t, ClearedBy(3), BuildScopeSets(db, tenant, clock))
  {
    WhatThePruneLeaves(db, tenant, clock);
    hide BuildScopeSets, Run, ScopeOk, GoneAfter, Scrubbed, NoKeyCrossesTenants;
    var sc, after := BuildScopeSets(db, tenant, clock), Survivors(db, tenant, clock);
    assert Rows(after, t) == Kept(Rows(db, t), t, GoneAfter(db, sc, 29, t), ClearedBy(3), sc);
  }
}
