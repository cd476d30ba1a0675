/** What the whole prune does, for every content of the tables: exactly when it goes through,
    exactly what it leaves, and that a second run finds nothing. */
module PruneLaws {
  import opened Wrappers
  import opened SqlTables
  import opened Prune
  import opened PruneSteps
  import opened PrunePlan
  import opened PruneAdvance

  // ---- The scope sets ----

  /** The thirty-day cut implies it: a record that was silent for twelve months has no
      intimation outside the noise. The case query sees to the rest. */
  lemma ScopeIsOk(db: Db, tenant: int, clock: Clock)
    requires Sensible(clock) && NoKeyCrossesTenants(db)
    ensures ScopeOk(db, BuildScopeSets(db, tenant, clock))
  {
    var sc := BuildScopeSets(db, tenant, clock);
    forall i | i in Pointing(db, Intimation, CourtRecordId, sc.dormant) ensures i in sc.noise {
      var r := Rows(db, Intimation)[i].refs[CourtRecordId];
      assert Names(Intimation, CourtRecordId) == Some(CourtRecord);
      assert Rows(db, Intimation)[i].tenant == tenant;
      assert i in Under(db, Intimation, CourtRecordId, r);
      assert Dormant(db, sc.noise, r, clock);
      assert i in Under(db, Intimation, CourtRecordId, r) - sc.noise || i in sc.noise;
    }
    forall r | r in Pointing(db, CourtRecord, CaseId, sc.emptied) ensures r in sc.dormant {
      assert r in Under(db, CourtRecord, CaseId, Rows(db, CourtRecord)[r].refs[CaseId]);
    }
    forall i | i in Pointing(db, Intimation, CaseId, sc.emptied) ensures i in sc.noise {
      assert i in Under(db, Intimation, CaseId, Rows(db, Intimation)[i].refs[CaseId]);
    }
  }

  // ---- When it goes through ----

  ghost predicate Unblocked(db: Db, sc: Scope) {
    && NoDraftOfNoiseTask(db, sc) && NoDraftSupersededByNoise(db, sc) && NoDraftOfDormantTask(db, sc)
    && NoTaskOfDormantDeadline(db, sc) && NoAttachmentOfDormantDocument(db, sc)
  }

  lemma NoiseDraftChildrenAreGone(db: Db, sc: Scope, steps: seq<Step>)
    requires steps == PLAN && NoDraftOfNoiseTask(db, sc)
    ensures At(db, sc, steps, 7)
  {
    hide At, NoDraftOfNoiseTask;
    Start(db, sc, steps);
    NoiseTaskItemsGo(db, sc, steps);
    NoiseTasksGo(db, sc, steps);
    NoiseDraftChildrenGo(db, sc, steps);
  }

  lemma NoiseIsGone(db: Db, sc: Scope, steps: seq<Step>)
    requires steps == PLAN && ScopeOk(db, sc) && NoDraftOfNoiseTask(db, sc) && NoDraftSupersededByNoise(db, sc)
    ensures At(db, sc, steps, 10)
  {
    hide At, ScopeOk, NoDraftOfNoiseTask, NoDraftSupersededByNoise;
    NoiseDraftChildrenAreGone(db, sc, steps);
    NoiseDraftsGo(db, sc, steps);
    DormantTaskItemsGo(db, sc, steps);
  }

  lemma DormantDeadlinesAreGone(db: Db, sc: Scope, steps: seq<Step>)
    requires steps == PLAN && ScopeOk(db, sc) && NoDraftOfNoiseTask(db, sc) && NoDraftSupersededByNoise(db, sc)
    requires NoDraftOfDormantTask(db, sc) && NoTaskOfDormantDeadline(db, sc)
    ensures At(db, sc, steps, 18)
  {
    hide At, ScopeOk, NoDraftOfNoiseTask, NoDraftSupersededByNoise, NoDraftOfDormantTask, NoTaskOfDormantDeadline;
    NoiseIsGone(db, sc, steps);
    DormantTasksGo(db, sc, steps);
    DormantDeadlinesGo(db, sc, steps);
    DormantPapersGo(db, sc, steps);
    DormantChunksGo(db, sc, steps);
  }

  lemma PlanGoesThrough(db: Db, sc: Scope, steps: seq<Step>)
    requires steps == PLAN && ScopeOk(db, sc) && Unblocked(db, sc)
    ensures At(db, sc, steps, 29)
  {
    hide At, ScopeOk, NoDraftOfNoiseTask, NoDraftSupersededByNoise, NoDraftOfDormantTask, NoTaskOfDormantDeadline, NoAttachmentOfDormantDocument;
    DormantDeadlinesAreGone(db, sc, steps);
    DormantLeavesGo(db, sc, steps);
    EmptiedPartiesGo(db, sc, steps);
    RecordsAndCasesGo(db, sc, steps);
  }

  /** One row that stays and refers to what step k + 1 removes is enough to fail the run. */
  lemma RefusedBy(db: Db, sc: Scope, steps: seq<Step>, k: nat, t: Table, cond: Cond, ids: set<Id>, u: Table, d: Column, id: Id)
    requires k < |steps| && At(db, sc, steps, k) && steps[k] == Step(FieldOf(t), Delete(t, cond))
    requires Members(Now(db, sc, steps, k), sc, Select(t, cond)) == ids - GoneAfter(db, sc, k, t)
    requires !ClearedBy(Clears(k))(u, d) && Parent(u, d) == Some(t) && forall x :: !(Cascades(u, x) && Parent(u, x) == Some(t))
    requires id in Pointing(db, u, d, ids - GoneAfter(db, sc, k, t)) && id !in GoneAfter(db, sc, k, u) && (u == t ==> id !in ids)
    ensures Run(db, sc, steps).Err?
  {
    RunStep(db, sc, steps, k);
    DeleteRefused(db, sc, GoneBy(db, sc, k), ClearedBy(Clears(k)), Now(db, sc, steps, k), t, cond, ids, u, d, id);
    ErrStays(db, sc, steps, k + 1);
  }

  lemma RefusedDirect(db: Db, sc: Scope, steps: seq<Step>, k: nat, t: Table, c: Column, e: Ids, u: Table, d: Column, id: Id)
    requires k < |steps| && At(db, sc, steps, k) && steps[k] == Step(FieldOf(t), Delete(t, In(c, e)))
    requires !e.Select? && !ClearedBy(Clears(k))(t, c) && !ClearedBy(Clears(k))(u, d)
    requires Parent(u, d) == Some(t) && forall x :: !(Cascades(u, x) && Parent(u, x) == Some(t))
    requires var ids := Pointing(db, t, c, ScopeSet(sc, e));
             && id in Pointing(db, u, d, ids - GoneAfter(db, sc, k, t)) && id !in GoneAfter(db, sc, k, u)
             && (u == t ==> id !in ids)
    ensures Run(db, sc, steps).Err?
  {
    Sees(db, sc, steps, k, t, c, e);
    RefusedBy(db, sc, steps, k, t, In(c, e), Pointing(db, t, c, ScopeSet(sc, e)), u, d, id);
  }

  lemma PickOne<T>(a: set<T>, b: set<T>) returns (x: T)
    requires !(a <= b)
    ensures x in a && x !in b
  {
    x :| x in a && x !in b;
  }

  lemma RefusedForNoiseTask(db: Db, sc: Scope, steps: seq<Step>)
    requires steps == PLAN && !NoDraftOfNoiseTask(db, sc)
    ensures Run(db, sc, steps).Err?
  {
    hide At;
    Start(db, sc, steps);
    NoiseTaskItemsGo(db, sc, steps);
    SeesNoise(db, sc, steps, 1, Task);
    var d := PickOne(Pointing(db, Draft, TaskId, NoiseTasks(db, sc)), {});
    RefusedBy(db, sc, steps, 1, Task, FROM_NOISE, NoiseTasks(db, sc), Draft, TaskId, d);
  }

  lemma RefusedForSuperseded(db: Db, sc: Scope, steps: seq<Step>)
    requires steps == PLAN && NoDraftOfNoiseTask(db, sc) && !NoDraftSupersededByNoise(db, sc)
    ensures Run(db, sc, steps).Err?
  {
    hide At;
    NoiseDraftChildrenAreGone(db, sc, steps);
    var d := PickOne(Pointing(db, Draft, SupersededById, NoiseDrafts(db, sc)), NoiseDrafts(db, sc));
    RefusedDirect(db, sc, steps, 7, Draft, IntimationId, DelIntim, Draft, SupersededById, d);
  }

  lemma RefusedForDormantTask(db: Db, sc: Scope, steps: seq<Step>)
    requires steps == PLAN && ScopeOk(db, sc) && NoDraftOfNoiseTask(db, sc) && NoDraftSupersededByNoise(db, sc)
    requires !NoDraftOfDormantTask(db, sc)
    ensures Run(db, sc, steps).Err?
  {
    hide At, ScopeOk;
    NoiseIsGone(db, sc, steps);
    var d := PickOne(Pointing(db, Draft, TaskId, DormantTasks(db, sc)), NoiseDrafts(db, sc));
    assert d !in Pointing(db, Draft, TaskId, NoiseTasks(db, sc));
    RefusedDirect(db, sc, steps, 10, Task, CourtRecordId, DelCr, Draft, TaskId, d);
  }

  lemma RefusedForDeadline(db: Db, sc: Scope, steps: seq<Step>)
    requires steps == PLAN && ScopeOk(db, sc) && NoDraftOfNoiseTask(db, sc) && NoDraftSupersededByNoise(db, sc)
    requires NoDraftOfDormantTask(db, sc) && !NoTaskOfDormantDeadline(db, sc)
    ensures Run(db, sc, steps).Err?
  {
    hide At, ScopeOk;
    NoiseIsGone(db, sc, steps);
    DormantTasksGo(db, sc, steps);
    var d := PickOne(Pointing(db, Task, DeadlineId, DormantDeadlines(db, sc)), NoiseTasks(db, sc) + DormantTasks(db, sc));
    assert d !in Pointing(db, Task, DeadlineId, NoiseDeadlines(db, sc));
    RefusedDirect(db, sc, steps, 12, Deadline, CourtRecordId, DelCr, Task, DeadlineId, d);
  }

  lemma RefusedForDocument(db: Db, sc: Scope, steps: seq<Step>)
    requires steps == PLAN && ScopeOk(db, sc) && NoDraftOfNoiseTask(db, sc) && NoDraftSupersededByNoise(db, sc)
    requires NoDraftOfDormantTask(db, sc) && NoTaskOfDormantDeadline(db, sc) && !NoAttachmentOfDormantDocument(db, sc)
    ensures Run(db, sc, steps).Err?
  {
    hide At, ScopeOk;
    DormantDeadlinesAreGone(db, sc, steps);
    var a := PickOne(Pointing(db, DraftAttachment, DocumentId, DormantDocuments(db, sc)),
                     Pointing(db, DraftAttachment, DraftId, NoiseDrafts(db, sc)));
    RefusedDirect(db, sc, steps, 18, Document, CourtRecordId, DelCr, DraftAttachment, DocumentId, a);
  }
}
