/** The pruner as its operator sees it. */
module PruneTheorems {
  import opened Wrappers
  import opened SqlTables
  import opened Prune
  import opened PruneSteps
  import opened PrunePlan
  import opened PruneAdvance
  import opened PruneLaws

  /** The prune of a tenant goes through if and only if none of five rows is in its way. A
      foreign key violation rolls the whole tenant back. */
  lemma WhenThePruneGoesThrough(db: Db, tenant: int, clock: Clock)
    requires Sensible(clock) && NoKeyCrossesTenants(db)
    ensures PruneTx(db, tenant, clock).Ok? <==> Unblocked(db, BuildScopeSets(db, tenant, clock))
  {
    hide At, ScopeOk, BuildScopeSets, NoDraftOfNoiseTask, NoDraftSupersededByNoise, NoDraftOfDormantTask,
         NoTaskOfDormantDeadline, NoAttachmentOfDormantDocument;
    var sc, steps := BuildScopeSets(db, tenant, clock), PLAN;
    ScopeIsOk(db, tenant, clock);
    if !NoDraftOfNoiseTask(db, sc) {
      RefusedForNoiseTask(db, sc, steps);
    } else if !NoDraftSupersededByNoise(db, sc) {
      RefusedForSuperseded(db, sc, steps);
    } else if !NoDraftOfDormantTask(db, sc) {
      RefusedForDormantTask(db, sc, steps);
    } else if !NoTaskOfDormantDeadline(db, sc) {
      RefusedForDeadline(db, sc, steps);
    } else if !NoAttachmentOfDormantDocument(db, sc) {
      RefusedForDocument(db, sc, steps);
    } else {
      PlanGoesThrough(db, sc, steps);
      WentThrough(db, sc, steps);
    }
  }

  /** Every table without the rows that hang off a scope set, every surviving link into one
      cleared, and a tally of exactly that. */
  ghost predicate Leaves(db: Db, sc: Scope, after: Db, tally: Counts) {
    && (forall t :: Rows(after, t) == Kept(Rows(db, t), t, GoneAfter(db, sc, 29, t), ClearedBy(3), sc))
    && (forall t :: Tally(tally, Deleted(t)) == if t == Chunk then 0 else |GoneAfter(db, sc, 29, t)|)
    && Tally(tally, SyncRunsCleared) == |RunsCleared(db, sc)|
    && Tally(tally, CaseDraftLinksCleared) == |DraftsCleared(db, sc)|
  }

  lemma WentThrough(db: Db, sc: Scope, steps: seq<Step>)
    requires |steps| == 29 && At(db, sc, steps, 29)
    ensures Run(db, sc, steps).Ok? && Leaves(db, sc, Run(db, sc, steps).value.0, Run(db, sc, steps).value.1)
  {
    assert steps[..29] == steps;
    var r := Run(db, sc, steps).value;
    forall t ensures Rows(r.0, t) == Kept(Rows(db, t), t, GoneAfter(db, sc, 29, t), ClearedBy(3), sc)
                     && Tally(r.1, Deleted(t)) == if t == Chunk then 0 else |GoneAfter(db, sc, 29, t)| {
      assert GoneBy(db, sc, 29)(t) == GoneAfter(db, sc, 29, t);
    }
  }

  /** No statement of the plan, wherever the run stops, leaves a row pointing at a removed one. */
  lemma {:induction false} EveryStatementKeepsIntegrity(db: Db, sc: Scope, steps: seq<Step>, n: nat)
    requires Integrity(db) && n <= |steps| && Run(db, sc, steps[..n]).Ok?
    ensures Integrity(Run(db, sc, steps[..n]).value.0)
  {
    if n > 0 {
      var upTo := steps[..n];
      assert upTo[..n - 1] == steps[..n - 1];
      EveryStatementKeepsIntegrity(db, sc, steps, n - 1);
      ExecKeepsIntegrity(Run(db, sc, steps[..n - 1]).value.0, sc, steps[n - 1].stmt);
    }
  }

  // ---- What it leaves ----

  ghost predicate Pruned(db: Db, tenant: int, clock: Clock) {
    Sensible(clock) && NoKeyCrossesTenants(db) && PruneTx(db, tenant, clock).Ok?
  }

  /** What twenty-nine statements come to. */
  lemma WhatThePruneLeaves(db: Db, tenant: int, clock: Clock)
    requires Pruned(db, tenant, clock)
    ensures var sc, r := BuildScopeSets(db, tenant, clock), PruneTx(db, tenant, clock).value;
            ScopeOk(db, sc) && Leaves(db, sc, r.0, r.1)
  {
    hide BuildScopeSets, ScopeOk, At, Unblocked, Leaves, NoKeyCrossesTenants;
    var sc, steps := BuildScopeSets(db, tenant, clock), PLAN;
    WhenThePruneGoesThrough(db, tenant, clock);
    ScopeIsOk(db, tenant, clock);
    PlanGoesThrough(db, sc, steps);
    WentThrough(db, sc, steps);
  }

  lemma GoneWasThere(db: Db, sc: Scope, t: Table)
    requires ScopeOk(db, sc)
    ensures GoneAfter(db, sc, 29, t) <= Rows(db, t).Keys
  {
  }

  lemma KeptKeys(rows: map<Id, Row>, t: Table, gone: set<Id>, cl: Cleared, sc: Scope)
    requires gone <= rows.Keys
    ensures rows.Keys - Kept(rows, t, gone, cl, sc).Keys == gone && Kept(rows, t, gone, cl, sc).Keys <= rows.Keys
  {
  }

  /** The tally of a table is the number of its rows that are no longer there. */
  lemma TheTallyIsRowsRemoved(db: Db, tenant: int, clock: Clock, t: Table)
    requires Pruned(db, tenant, clock) && t != Chunk
    ensures var r := PruneTx(db, tenant, clock).value;
            Tally(r.1, Deleted(t)) == |Rows(db, t).Keys - Rows(r.0, t).Keys| && Rows(r.0, t).Keys <= Rows(db, t).Keys
  {
    hide BuildScopeSets, Run, ScopeOk, GoneAfter, Kept, NoKeyCrossesTenants;
    WhatThePruneLeaves(db, tenant, clock);
    var sc := BuildScopeSets(db, tenant, clock);
    GoneWasThere(db, sc, t);
    KeptKeys(Rows(db, t), t, GoneAfter(db, sc, 29, t), ClearedBy(3), sc);
  }

  // ---- What it never touches ----

  /** An intimation of another tenant, or neither a communication nor older than thirty days,
      stays as it is, and so do its record and its case. */
  lemma LiveDataStays(db: Db, tenant: int, clock: Clock, i: Id)
    requires Pruned(db, tenant, clock) && Integrity(db)
    requires i in Rows(db, Intimation)
    requires var row := Rows(db, Intimation)[i];
             row.tenant == tenant ==> row.kind != "COMUNICACAO" && row.at >= clock.noiseCut
    ensures var after, row := PruneTx(db, tenant, clock).value.0, Rows(db, Intimation)[i];
            && i in Rows(after, Intimation) && Rows(after, Intimation)[i] == row
            && (CourtRecordId in row.refs ==>
                  var r := row.refs[CourtRecordId];
                  r in Rows(after, CourtRecord) && Rows(after, CourtRecord)[r] == Rows(db, CourtRecord)[r])
            && (CaseId in row.refs ==> row.refs[CaseId] in Rows(after, CourtCase))
  {
    hide Run, DormantRecords, EmptiedCases, ScopeOk, Leaves, NoKeyCrossesTenants, Integrity;
    assert i !in Noise(db, tenant, clock);
    hide Noise;
    WhatThePruneLeaves(db, tenant, clock);
    var r := PruneTx(db, tenant, clock).value;
    LiveRowStays(db, BuildScopeSets(db, tenant, clock), r.0, r.1, i);
  }

  lemma LiveRowStays(db: Db, sc: Scope, after: Db, tally: Counts, i: Id)
    requires Leaves(db, sc, after, tally) && ScopeOk(db, sc) && Integrity(db)
    requires i in Rows(db, Intimation) && i !in sc.noise
    ensures var row := Rows(db, Intimation)[i];
            && i in Rows(after, Intimation) && Rows(after, Intimation)[i] == row
            && (CourtRecordId in row.refs ==>
                  var r := row.refs[CourtRecordId];
                  r in Rows(after, CourtRecord) && Rows(after, CourtRecord)[r] == Rows(db, CourtRecord)[r])
            && (CaseId in row.refs ==> row.refs[CaseId] in Rows(after, CourtCase))
  {
    hide Integrity, Leaves, Scrubbed, Kept;
    var row := Rows(db, Intimation)[i];
    StaysIn(db, sc, after, tally, Intimation, i);
    if CourtRecordId in row.refs {
      PointsAt(db, Intimation, CourtRecordId, i);
      var r := row.refs[CourtRecordId];
      assert r in sc.dormant ==> i in Pointing(db, Intimation, CourtRecordId, sc.dormant);
      StaysIn(db, sc, after, tally, CourtRecord, r);
    }
    if CaseId in row.refs {
      PointsAt(db, Intimation, CaseId, i);
      assert row.refs[CaseId] in sc.emptied ==> i in Pointing(db, Intimation, CaseId, sc.emptied);
      StaysIn(db, sc, after, tally, CourtCase, row.refs[CaseId]);
    }
  }

  lemma PointsAt(db: Db, t: Table, c: Column, id: Id)
    requires Integrity(db) && Parent(t, c).Some? && id in Rows(db, t) && c in Rows(db, t)[id].refs
    ensures Rows(db, t)[id].refs[c] in Rows(db, Parent(t, c).value)
  {
  }

  /** A row outside what is gone stays; outside the three cleared columns it stays as it is. */
  lemma StaysIn(db: Db, sc: Scope, after: Db, tally: Counts, t: Table, id: Id)
    requires Leaves(db, sc, after, tally) && id in Rows(db, t) && id !in GoneAfter(db, sc, 29, t)
    ensures id in Rows(after, t) && Rows(after, t)[id] == Scrubbed(Rows(db, t)[id], t, ClearedBy(3), sc)
    ensures t !in {SyncRun, Draft, CourtCase} ==> Rows(after, t)[id] == Rows(db, t)[id]
  {
    hide GoneAfter;
    assert Rows(after, t) == Kept(Rows(db, t), t, GoneAfter(db, sc, 29, t), ClearedBy(3), sc);
    if t !in {SyncRun, Draft, CourtCase} {
      Unscrubbed(Rows(db, t)[id], t, sc);
    }
  }

  /** Only three columns of three tables are ever cleared. */
  lemma Unscrubbed(r: Row, t: Table, sc: Scope)
    requires t !in {SyncRun, Draft, CourtCase}
    ensures Scrubbed(r, t, ClearedBy(3), sc) == r
  {
    assert Scrubbed(r, t, ClearedBy(3), sc).refs == r.refs;
  }

  /** All rows of `ids` belong to the tenant. */
  ghost predicate Own(db: Db, tenant: int, t: Table, ids: set<Id>) {
    forall id | id in ids && id in Rows(db, t) :: Rows(db, t)[id].tenant == tenant
  }

  lemma OwnPointing(db: Db, tenant: int, p: Table, ids: set<Id>, t: Table, c: Column)
    requires NoKeyCrossesTenants(db) && Names(t, c) == Some(p) && ids <= Rows(db, p).Keys && Own(db, tenant, p, ids)
    ensures Own(db, tenant, t, Pointing(db, t, c, ids)) && Pointing(db, t, c, ids) <= Rows(db, t).Keys
  {
    forall id | id in Pointing(db, t, c, ids) ensures Rows(db, t)[id].tenant == tenant {
      var ref := Rows(db, t)[id].refs[c];
      assert ref in ids && ref in Rows(db, p);
      SameTenant(db, t, c, id);
    }
  }

  lemma SameTenant(db: Db, t: Table, c: Column, id: Id)
    requires NoKeyCrossesTenants(db) && id in Rows(db, t) && c in Rows(db, t)[id].refs && Names(t, c).Some?
    requires Rows(db, t)[id].refs[c] in Rows(db, Names(t, c).value)
    ensures Rows(db, Names(t, c).value)[Rows(db, t)[id].refs[c]].tenant == Rows(db, t)[id].tenant
  {
  }

  ghost predicate ScopeIsOwn(db: Db, tenant: int, sc: Scope) {
    && NoKeyCrossesTenants(db) && ScopeOk(db, sc)
    && Own(db, tenant, Intimation, sc.noise) && Own(db, tenant, CourtRecord, sc.dormant) && Own(db, tenant, CourtCase, sc.emptied)
  }

  lemma NoiseIsOwn(db: Db, tenant: int, sc: Scope)
    requires ScopeIsOwn(db, tenant, sc)
    ensures Own(db, tenant, Deadline, NoiseDeadlines(db, sc)) && Own(db, tenant, Task, NoiseTasks(db, sc))
    ensures Own(db, tenant, Draft, NoiseDrafts(db, sc)) && Own(db, tenant, TaskSuggestion, NoiseSuggestions(db, sc))
    ensures NoiseDeadlines(db, sc) <= Rows(db, Deadline).Keys && NoiseTasks(db, sc) <= Rows(db, Task).Keys && NoiseDrafts(db, sc) <= Rows(db, Draft).Keys
  {
    hide NoKeyCrossesTenants;
    OwnPointing(db, tenant, Intimation, sc.noise, Deadline, NotificationId);
    OwnPointing(db, tenant, Intimation, sc.noise, Task, IntimationId);
    OwnPointing(db, tenant, Intimation, sc.noise, TaskSuggestion, IntimationId);
    OwnPointing(db, tenant, Intimation, sc.noise, Draft, IntimationId);
    OwnPointing(db, tenant, Deadline, NoiseDeadlines(db, sc), Task, DeadlineId);
    OwnPointing(db, tenant, Deadline, NoiseDeadlines(db, sc), TaskSuggestion, DeadlineId);
  }

  lemma NoiseChildrenAreOwn(db: Db, tenant: int, sc: Scope)
    requires ScopeIsOwn(db, tenant, sc)
    ensures Own(db, tenant, TaskItem, Pointing(db, TaskItem, TaskId, NoiseTasks(db, sc)))
    ensures forall u | u in {DraftAttachment, Petition, Review} :: Own(db, tenant, u, Pointing(db, u, DraftId, NoiseDrafts(db, sc)))
  {
    hide NoKeyCrossesTenants, ScopeOk, NoiseTasks, NoiseDrafts;
    NoiseIsOwn(db, tenant, sc);
    OwnPointing(db, tenant, Task, NoiseTasks(db, sc), TaskItem, TaskId);
    forall u | u in {DraftAttachment, Petition, Review} ensures Own(db, tenant, u, Pointing(db, u, DraftId, NoiseDrafts(db, sc))) {
      OwnPointing(db, tenant, Draft, NoiseDrafts(db, sc), u, DraftId);
    }
  }

  lemma DormantRowsAreOwn(db: Db, tenant: int, sc: Scope)
    requires ScopeIsOwn(db, tenant, sc)
    ensures forall u | u in {Task, Deadline, Petition, Document, DocketEntry} ::
              var ids := Pointing(db, u, CourtRecordId, sc.dormant);
              Own(db, tenant, u, ids) && ids <= Rows(db, u).Keys
    ensures Own(db, tenant, CaseLink, DormantLinks(db, sc))
    ensures Own(db, tenant, Party, EmptiedParties(db, sc)) && EmptiedParties(db, sc) <= Rows(db, Party).Keys
  {
    hide NoKeyCrossesTenants;
    forall u | u in {Task, Deadline, Petition, Document, DocketEntry}
      ensures Own(db, tenant, u, Pointing(db, u, CourtRecordId, sc.dormant)) && Pointing(db, u, CourtRecordId, sc.dormant) <= Rows(db, u).Keys
    {
      OwnPointing(db, tenant, CourtRecord, sc.dormant, u, CourtRecordId);
    }
    OwnPointing(db, tenant, CourtRecord, sc.dormant, CaseLink, FromRecordId);
    OwnPointing(db, tenant, CourtRecord, sc.dormant, CaseLink, ToRecordId);
    OwnPointing(db, tenant, CourtCase, sc.emptied, Party, CaseId);
  }

  lemma DormantChildrenAreOwn(db: Db, tenant: int, sc: Scope)
    requires ScopeIsOwn(db, tenant, sc)
    ensures Own(db, tenant, TaskItem, Pointing(db, TaskItem, TaskId, DormantTasks(db, sc)))
    ensures Own(db, tenant, TaskSuggestion, Pointing(db, TaskSuggestion, DeadlineId, DormantDeadlines(db, sc)))
    ensures Own(db, tenant, Chunk, Pointing(db, Chunk, DocumentId, DormantDocuments(db, sc)))
    ensures Own(db, tenant, PartyCounsel, Pointing(db, PartyCounsel, PartyId, EmptiedParties(db, sc)))
  {
    hide NoKeyCrossesTenants, ScopeOk, Own, Pointing;
    DormantRowsAreOwn(db, tenant, sc);
    OwnPointing(db, tenant, Task, DormantTasks(db, sc), TaskItem, TaskId);
    OwnPointing(db, tenant, Deadline, DormantDeadlines(db, sc), TaskSuggestion, DeadlineId);
    OwnPointing(db, tenant, Document, DormantDocuments(db, sc), Chunk, DocumentId);
    OwnPointing(db, tenant, Party, EmptiedParties(db, sc), PartyCounsel, PartyId);
  }

  /** Whatever the plan removes belongs to the tenant being cleaned. */
  lemma GoneIsOwn(db: Db, tenant: int, sc: Scope, t: Table)
    requires ScopeIsOwn(db, tenant, sc)
    ensures Own(db, tenant, t, GoneAfter(db, sc, 29, t))
  {
    hide NoKeyCrossesTenants, ScopeOk;
    NoiseIsOwn(db, tenant, sc);
    NoiseChildrenAreOwn(db, tenant, sc);
    DormantRowsAreOwn(db, tenant, sc);
    DormantChildrenAreOwn(db, tenant, sc);
  }

  /** Rows of other tenants stay, every column of them. */
  lemma OtherTenantsStay(db: Db, tenant: int, clock: Clock, t: Table, id: Id)
    requires Pruned(db, tenant, clock) && Integrity(db)
    requires id in Rows(db, t) && Rows(db, t)[id].tenant != tenant
    ensures var after := PruneTx(db, tenant, clock).value.0;
            id in Rows(after, t) && Rows(after, t)[id] == Rows(db, t)[id]
  {
    hide Run, Leaves, ScopeOk, NoKeyCrossesTenants, Integrity, DormantRecords, EmptiedCases, Noise, Scrubbed;
    WhatThePruneLeaves(db, tenant, clock);
    var sc, r := BuildScopeSets(db, tenant, clock), PruneTx(db, tenant, clock).value;
    TheScopeIsOwn(db, tenant, clock);
    GoneIsOwn(db, tenant, sc, t);
    StaysIn(db, sc, r.0, r.1, t, id);
    ForeignRowUnscrubbed(db, tenant, sc, t, id);
  }

  lemma TheScopeIsOwn(db: Db, tenant: int, clock: Clock)
    requires Sensible(clock) && NoKeyCrossesTenants(db)
    ensures ScopeIsOwn(db, tenant, BuildScopeSets(db, tenant, clock))
  {
    ScopeIsOk(db, tenant, clock);
  }

  lemma ForeignRowUnscrubbed(db: Db, tenant: int, sc: Scope, t: Table, id: Id)
    requires ScopeIsOwn(db, tenant, sc) && id in Rows(db, t) && Rows(db, t)[id].tenant != tenant
    ensures Scrubbed(Rows(db, t)[id], t, ClearedBy(3), sc) == Rows(db, t)[id]
  {
    hide NoKeyCrossesTenants;
    var row := Rows(db, t)[id];
    forall c | c in row.refs && ClearedBy(3)(t, c) ensures row.refs[c] !in ClearedInto(sc, t) {
      var p, ref := if t == SyncRun then CourtRecord else CourtCase, row.refs[c];
      assert Names(t, c) == Some(p);
      if ref in Rows(db, p) {
        SameTenant(db, t, c, id);
        assert Rows(db, p)[ref].tenant != tenant;
      }
    }
    assert Scrubbed(row, t, ClearedBy(3), sc).refs == row.refs;
  }

  // ---- A second run ----

  const NOTHING := Scope({}, {}, {})

  /** With the same clock a second run selects nothing: every row the scope queries would pick
      is gone, and the rows they look at are as they were. */
  lemma TheSecondRunSelectsNothing(db: Db, tenant: int, clock: Clock)
    requires Pruned(db, tenant, clock)
    ensures BuildScopeSets(PruneTx(db, tenant, clock).value.0, tenant, clock) == NOTHING
  {
    hide Run, ScopeOk, Leaves, NoKeyCrossesTenants, Dormant, EmptiedCases;
    WhatThePruneLeaves(db, tenant, clock);
    var sc, r := BuildScopeSets(db, tenant, clock), PruneTx(db, tenant, clock).value;
    NoNoiseIsLeft(db, sc, r.0, r.1, tenant, clock);
    NoRecordIsDormant(db, sc, r.0, r.1, tenant, clock);
    assert EmptiedCases(r.0, tenant, {}, {}) == {} by {
      NoCaseIsEmptied(r.0, tenant);
    }
  }

  lemma NoCaseIsEmptied(db: Db, tenant: int)
    ensures EmptiedCases(db, tenant, {}, {}) == {}
  {
    assert forall k :: Under(db, CourtRecord, CaseId, k) * {} == {};
  }

  /** The rows of an untouched table, less those gone. */
  lemma TableOf(db: Db, sc: Scope, after: Db, tally: Counts, t: Table)
    requires Leaves(db, sc, after, tally) && t !in {SyncRun, Draft, CourtCase}
    ensures Rows(after, t).Keys == Rows(db, t).Keys - GoneAfter(db, sc, 29, t)
    ensures forall id | id in Rows(after, t) :: Rows(after, t)[id] == Rows(db, t)[id]
  {
    hide GoneAfter;
    assert Rows(after, t) == Kept(Rows(db, t), t, GoneAfter(db, sc, 29, t), ClearedBy(3), sc);
    forall id | id in Rows(after, t) ensures Rows(after, t)[id] == Rows(db, t)[id] {
      Unscrubbed(Rows(db, t)[id], t, sc);
    }
  }

  lemma NoNoiseIsLeft(db: Db, sc: Scope, after: Db, tally: Counts, tenant: int, clock: Clock)
    requires Leaves(db, sc, after, tally) && sc.noise == Noise(db, tenant, clock)
    ensures Noise(after, tenant, clock) == {}
  {
    hide Leaves;
    TableOf(db, sc, after, tally, Intimation);
    forall i | i in Noise(after, tenant, clock) ensures i in sc.noise {
      assert i in Rows(after, Intimation).Keys;
    }
  }

  /** A record that stays sees the movements and the living intimations it saw before. */
  lemma SameSignals(db: Db, sc: Scope, after: Db, tally: Counts, r: Id, clock: Clock)
    requires Leaves(db, sc, after, tally) && r !in sc.dormant
    ensures Dormant(after, {}, r, clock) == Dormant(db, sc.noise, r, clock)
  {
    hide Leaves;
    TableOf(db, sc, after, tally, Intimation);
    TableOf(db, sc, after, tally, DocketEntry);
    assert Under(after, DocketEntry, CourtRecordId, r) == Under(db, DocketEntry, CourtRecordId, r) by {
      forall id ensures id in Under(after, DocketEntry, CourtRecordId, r) <==> id in Under(db, DocketEntry, CourtRecordId, r) {
        assert id in Rows(after, DocketEntry).Keys ==> id in Rows(db, DocketEntry);
        assert id in Under(db, DocketEntry, CourtRecordId, r) ==> id in Rows(after, DocketEntry).Keys;
      }
    }
    assert Under(after, Intimation, CourtRecordId, r) - {} == Under(db, Intimation, CourtRecordId, r) - sc.noise by {
      forall id ensures id in Under(after, Intimation, CourtRecordId, r) <==> id in Under(db, Intimation, CourtRecordId, r) && id !in sc.noise {
        assert id in Rows(after, Intimation).Keys <==> id in Rows(db, Intimation).Keys && id !in sc.noise;
      }
    }
  }

  lemma NoRecordIsDormant(db: Db, sc: Scope, after: Db, tally: Counts, tenant: int, clock: Clock)
    requires Leaves(db, sc, after, tally) && sc.dormant == DormantRecords(db, tenant, sc.noise, clock)
    ensures DormantRecords(after, tenant, {}, clock) == {}
  {
    hide Leaves, Dormant;
    TableOf(db, sc, after, tally, CourtRecord);
    forall r | r in Rows(after, CourtRecord) && Rows(after, CourtRecord)[r].tenant == tenant
      ensures !Dormant(after, {}, r, clock)
    {
      assert r in Rows(after, CourtRecord).Keys && r in Rows(db, CourtRecord);
      SameSignals(db, sc, after, tally, r, clock);
    }
  }

  lemma NothingIsScrubbed(rows: map<Id, Row>, t: Table)
    ensures Kept(rows, t, {}, ClearedBy(3), NOTHING) == rows
  {
    forall id | id in rows ensures Scrubbed(rows[id], t, ClearedBy(3), NOTHING) == rows[id] {
      assert Scrubbed(rows[id], t, ClearedBy(3), NOTHING).refs == rows[id].refs;
    }
  }

  lemma NothingGoes(db: Db, t: Table)
    ensures GoneAfter(db, NOTHING, 29, t) == {}
  {
    NothingPointsToNothing(db);
    assert NoiseDeadlines(db, NOTHING) == {} && NoiseTasks(db, NOTHING) == {} && NoiseSuggestions(db, NOTHING) == {} && NoiseDrafts(db, NOTHING) == {};
    assert DormantTasks(db, NOTHING) == {} && DormantDeadlines(db, NOTHING) == {} && DormantDocuments(db, NOTHING) == {};
    assert DormantLinks(db, NOTHING) == {} && EmptiedParties(db, NOTHING) == {};
    hide NoiseDeadlines, NoiseTasks, NoiseSuggestions, NoiseDrafts, DormantTasks, DormantDeadlines, DormantDocuments, DormantLinks,
         EmptiedParties, Pointing;
  }

  lemma NothingIsInTheWay(db: Db)
    ensures ScopeOk(db, NOTHING) && Unblocked(db, NOTHING)
  {
    NothingPointsToNothing(db);
    assert NoiseTasks(db, NOTHING) == {} && NoiseDrafts(db, NOTHING) == {} && DormantTasks(db, NOTHING) == {};
  }

  /** Idempotence: the second run goes through, changes no table and reports zeros. */
  lemma TheSecondRunDoesNothing(db: Db, tenant: int, clock: Clock)
    requires Pruned(db, tenant, clock)
    ensures var once := PruneTx(db, tenant, clock).value.0;
            var again := PruneTx(once, tenant, clock);
            && again.Ok?
            && (forall t :: Rows(again.value.0, t) == Rows(once, t))
            && (forall f :: Tally(again.value.1, f) == 0)
  {
    hide Run, ScopeOk, Leaves, Unblocked, NoKeyCrossesTenants, BuildScopeSets, At;
    var once := PruneTx(db, tenant, clock).value.0;
    TheSecondRunSelectsNothing(db, tenant, clock);
    NothingIsInTheWay(once);
    PlanGoesThrough(once, NOTHING, PLAN);
    WentThrough(once, NOTHING, PLAN);
    var again := PruneTx(once, tenant, clock).value;
    NothingLeaves(once, again.0, again.1);
  }

  lemma NothingLeaves(db: Db, after: Db, tally: Counts)
    requires Leaves(db, NOTHING, after, tally)
    ensures (forall t :: Rows(after, t) == Rows(db, t)) && forall f :: Tally(tally, f) == 0
  {
    forall t ensures Rows(after, t) == Rows(db, t) && Tally(tally, Deleted(t)) == 0 {
      NothingGoes(db, t);
      NothingIsScrubbed(Rows(db, t), t);
    }
    NothingPointsToNothing(db);
    assert RunsCleared(db, NOTHING) == {} && DraftsCleared(db, NOTHING) == {};
    forall f ensures Tally(tally, f) == 0 {
      assert f == SyncRunsCleared || f == CaseDraftLinksCleared || exists t :: f == Deleted(t);
    }
  }
}
