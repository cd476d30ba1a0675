/** Each of the twenty-nine statements, from the tables it finds to the tables it leaves. Five
    of them can be refused; the condition of each is its lemma's requirement. */
module PruneAdvance {
  import opened Wrappers
  import opened SqlTables
  import opened Prune
  import opened PruneSteps
  import opened PrunePlan

  lemma SeesEither(db: Db, sc: Scope, t: Table, a: Cond, b: Cond)
    ensures Members(db, sc, Select(t, Or(a, b))) == Members(db, sc, Select(t, a)) + Members(db, sc, Select(t, b))
  {
  }

  /** A scope set names the rows of it that are left. */
  lemma SeesScope(db: Db, sc: Scope, steps: seq<Step>, k: nat, t: Table, e: Ids, ids: set<Id>)
    requires k <= |steps| && At(db, sc, steps, k) && Members(Now(db, sc, steps, k), sc, e) == ids && ids <= Rows(db, t).Keys
    ensures Members(Now(db, sc, steps, k), sc, Select(t, IdIn(e))) == ids - GoneAfter(db, sc, k, t)
  {
    assert Rows(Now(db, sc, steps, k), t) == Kept(Rows(db, t), t, GoneBy(db, sc, k)(t), ClearedBy(Clears(k)), sc);
  }

  /** Before step 4 the noise deadlines are all there. */
  lemma SeesNoise(db: Db, sc: Scope, steps: seq<Step>, k: nat, t: Table)
    requires k < 4 && k <= |steps| && At(db, sc, steps, k)
    ensures Members(Now(db, sc, steps, k), sc, NOISE_DEADLINES) == NoiseDeadlines(db, sc)
    ensures Members(Now(db, sc, steps, k), sc, Select(t, FROM_NOISE))
            == Pointing(db, t, IntimationId, sc.noise) + Pointing(db, t, DeadlineId, NoiseDeadlines(db, sc)) - GoneAfter(db, sc, k, t)
  {
    hide Reached;
    Sees(db, sc, steps, k, Deadline, NotificationId, DelIntim);
    Sees(db, sc, steps, k, t, IntimationId, DelIntim);
    Sees(db, sc, steps, k, t, DeadlineId, NOISE_DEADLINES);
    SeesEither(Now(db, sc, steps, k), sc, t, In(IntimationId, DelIntim), In(DeadlineId, NOISE_DEADLINES));
  }

  // ---- The five ways to be refused ----

  /** No draft was written for a task the noise takes along; such tasks go before any draft. */
  ghost predicate NoDraftOfNoiseTask(db: Db, sc: Scope) {
    Pointing(db, Draft, TaskId, NoiseTasks(db, sc)) == {}
  }

  /** No draft that stays was superseded by one that goes. */
  ghost predicate NoDraftSupersededByNoise(db: Db, sc: Scope) {
    Pointing(db, Draft, SupersededById, NoiseDrafts(db, sc)) <= NoiseDrafts(db, sc)
  }

  /** No draft that stays was written for a task of a dormant record. */
  ghost predicate NoDraftOfDormantTask(db: Db, sc: Scope) {
    Pointing(db, Draft, TaskId, DormantTasks(db, sc)) <= NoiseDrafts(db, sc)
  }

  /** No task that stays has its deadline with a dormant record. */
  ghost predicate NoTaskOfDormantDeadline(db: Db, sc: Scope) {
    Pointing(db, Task, DeadlineId, DormantDeadlines(db, sc)) <= NoiseTasks(db, sc) + DormantTasks(db, sc)
  }

  /** No draft that stays carries a document of a dormant record as an attachment. */
  ghost predicate NoAttachmentOfDormantDocument(db: Db, sc: Scope) {
    Pointing(db, DraftAttachment, DocumentId, DormantDocuments(db, sc)) <= Pointing(db, DraftAttachment, DraftId, NoiseDrafts(db, sc))
  }

  // ---- What each step loses ----

  lemma NothingPointsToNothing(db: Db)
    ensures forall t, c :: Pointing(db, t, c, {}) == {}
  {
    forall t, c ensures Pointing(db, t, c, {}) == {} {
      assert forall id :: id !in Pointing(db, t, c, {});
    }
  }

  lemma Effect1(db: Db, sc: Scope)
    ensures Loses(db, sc, 0, TaskItem, Pointing(db, TaskItem, TaskId, NoiseTasks(db, sc)))
  {
    hide Pointing, NoiseTasks;
  }

  lemma Effect2(db: Db, sc: Scope)
    requires NoDraftOfNoiseTask(db, sc)
    ensures Loses(db, sc, 1, Task, NoiseTasks(db, sc))
  {
    hide Pointing, NoiseTasks;
  }

  lemma Effect3(db: Db, sc: Scope)
    ensures Loses(db, sc, 2, TaskSuggestion, NoiseSuggestions(db, sc))
  {
    hide Pointing, NoiseSuggestions;
  }

  lemma Effect4(db: Db, sc: Scope)
    ensures Loses(db, sc, 3, Deadline, NoiseDeadlines(db, sc))
  {
    hide Pointing;
  }

  lemma Effect5(db: Db, sc: Scope)
    ensures Loses(db, sc, 4, DraftAttachment, Pointing(db, DraftAttachment, DraftId, NoiseDrafts(db, sc)))
    ensures Pointing(db, DraftAttachment, DraftId, GoneAfter(db, sc, 4, Draft)) <= GoneAfter(db, sc, 4, DraftAttachment)
  {
    NothingPointsToNothing(db);
    hide Pointing, NoiseDeadlines, NoiseTasks, NoiseSuggestions, NoiseDrafts, DormantTasks, DormantDeadlines, DormantDocuments, DormantLinks, EmptiedParties;
    assert GoneAfter(db, sc, 4, Draft) == {};
  }

  lemma Effect6(db: Db, sc: Scope)
    ensures Loses(db, sc, 5, Petition, Pointing(db, Petition, DraftId, NoiseDrafts(db, sc)))
    ensures Pointing(db, Petition, DraftId, GoneAfter(db, sc, 5, Draft)) <= GoneAfter(db, sc, 5, Petition)
  {
    NothingPointsToNothing(db);
    hide Pointing, NoiseDeadlines, NoiseTasks, NoiseSuggestions, NoiseDrafts, DormantTasks, DormantDeadlines, DormantDocuments, DormantLinks, EmptiedParties;
    assert GoneAfter(db, sc, 5, Draft) == {};
  }

  lemma Effect7(db: Db, sc: Scope)
    ensures Loses(db, sc, 6, Review, Pointing(db, Review, DraftId, NoiseDrafts(db, sc)))
    ensures Pointing(db, Review, DraftId, GoneAfter(db, sc, 6, Draft)) <= GoneAfter(db, sc, 6, Review)
  {
    NothingPointsToNothing(db);
    hide Pointing, NoiseDeadlines, NoiseTasks, NoiseSuggestions, NoiseDrafts, DormantTasks, DormantDeadlines, DormantDocuments, DormantLinks, EmptiedParties;
    assert GoneAfter(db, sc, 6, Draft) == {};
  }

  lemma Effect8(db: Db, sc: Scope)
    requires NoDraftSupersededByNoise(db, sc)
    ensures Loses(db, sc, 7, Draft, NoiseDrafts(db, sc))
  {
    hide Pointing, NoiseDrafts;
  }

  lemma NoiseChildrenAreGone(db: Db, sc: Scope)
    ensures Pointing(db, Task, IntimationId, sc.noise) <= NoiseTasks(db, sc)
    ensures Pointing(db, Deadline, NotificationId, sc.noise) <= NoiseDeadlines(db, sc)
    ensures Pointing(db, Draft, IntimationId, sc.noise) <= NoiseDrafts(db, sc)
  {
  }

  lemma Effect9(db: Db, sc: Scope)
    requires ScopeOk(db, sc)
    ensures Loses(db, sc, 8, Intimation, sc.noise)
  {
    NoiseChildrenAreGone(db, sc);
    hide Pointing, ScopeOk, NoiseDeadlines, NoiseTasks, NoiseSuggestions, NoiseDrafts, DormantTasks, DormantDeadlines, DormantDocuments, DormantLinks, EmptiedParties;
  }

  lemma Effect10(db: Db, sc: Scope)
    ensures Loses(db, sc, 9, TaskItem, Pointing(db, TaskItem, TaskId, DormantTasks(db, sc)))
    ensures Pointing(db, TaskItem, TaskId, GoneAfter(db, sc, 9, Task)) <= GoneAfter(db, sc, 9, TaskItem)
  {
    hide Pointing, NoiseDeadlines, NoiseTasks, NoiseSuggestions, NoiseDrafts, DormantTasks, DormantDeadlines, DormantDocuments, DormantLinks, EmptiedParties;
    assert GoneAfter(db, sc, 9, Task) == NoiseTasks(db, sc);
  }

  lemma Effect11(db: Db, sc: Scope)
    requires NoDraftOfDormantTask(db, sc)
    ensures Loses(db, sc, 10, Task, DormantTasks(db, sc))
  {
    hide Pointing, DormantTasks, NoiseTasks, NoiseDrafts;
  }

  lemma Effect12(db: Db, sc: Scope)
    ensures Loses(db, sc, 11, TaskSuggestion, Pointing(db, TaskSuggestion, DeadlineId, DormantDeadlines(db, sc)))
    ensures Pointing(db, TaskSuggestion, DeadlineId, GoneAfter(db, sc, 11, Deadline)) <= GoneAfter(db, sc, 11, TaskSuggestion)
  {
    hide Pointing, NoiseDeadlines, NoiseTasks, NoiseDrafts, DormantTasks, DormantDeadlines, DormantDocuments, DormantLinks, EmptiedParties;
    assert GoneAfter(db, sc, 11, Deadline) == NoiseDeadlines(db, sc);
  }

  lemma Effect13(db: Db, sc: Scope)
    requires NoTaskOfDormantDeadline(db, sc)
    ensures Loses(db, sc, 12, Deadline, DormantDeadlines(db, sc))
  {
    hide Pointing, DormantDeadlines, NoiseDeadlines, NoiseTasks, DormantTasks, NoiseDrafts;
  }

  lemma Effect14(db: Db, sc: Scope)
    ensures Loses(db, sc, 13, DraftAttachment, {})
  {
    NothingPointsToNothing(db);
  }

  lemma Effect15(db: Db, sc: Scope)
    ensures Loses(db, sc, 14, Petition, Pointing(db, Petition, CourtRecordId, sc.dormant))
  {
    hide Pointing, NoiseDrafts;
  }

  lemma Effect16(db: Db, sc: Scope)
    ensures Loses(db, sc, 15, Review, {})
  {
    NothingPointsToNothing(db);
  }

  lemma Effect17(db: Db, sc: Scope)
    ensures Loses(db, sc, 16, Draft, {})
  {
    NothingPointsToNothing(db);
  }

  lemma Effect18(db: Db, sc: Scope)
    ensures Loses(db, sc, 17, Chunk, Pointing(db, Chunk, DocumentId, DormantDocuments(db, sc)))
    ensures Pointing(db, Chunk, DocumentId, GoneAfter(db, sc, 17, Document)) <= GoneAfter(db, sc, 17, Chunk)
  {
    NothingPointsToNothing(db);
    hide Pointing, NoiseDeadlines, NoiseTasks, NoiseSuggestions, NoiseDrafts, DormantTasks, DormantDeadlines, DormantDocuments, DormantLinks, EmptiedParties;
    assert GoneAfter(db, sc, 17, Document) == {};
  }

  lemma Effect19(db: Db, sc: Scope)
    requires NoAttachmentOfDormantDocument(db, sc)
    ensures Loses(db, sc, 18, Document, DormantDocuments(db, sc))
  {
    hide Pointing, DormantDocuments;
  }

  lemma Effect20(db: Db, sc: Scope)
    ensures Loses(db, sc, 19, DocketEntry, Pointing(db, DocketEntry, CourtRecordId, sc.dormant))
  {
  }

  lemma Effect21(db: Db, sc: Scope)
    ensures Loses(db, sc, 20, Intimation, {})
  {
    NothingPointsToNothing(db);
  }

  lemma Effect22(db: Db, sc: Scope)
    ensures Loses(db, sc, 21, PartyCounsel, Pointing(db, PartyCounsel, PartyId, EmptiedParties(db, sc)))
    ensures Pointing(db, PartyCounsel, PartyId, GoneAfter(db, sc, 21, Party)) <= GoneAfter(db, sc, 21, PartyCounsel)
  {
    NothingPointsToNothing(db);
    hide Pointing, NoiseDeadlines, NoiseTasks, NoiseSuggestions, NoiseDrafts, DormantTasks, DormantDeadlines, DormantDocuments, DormantLinks, EmptiedParties;
    assert GoneAfter(db, sc, 21, Party) == {};
  }

  lemma Effect23(db: Db, sc: Scope)
    ensures Loses(db, sc, 22, Party, EmptiedParties(db, sc))
  {
  }

  lemma Effect24(db: Db, sc: Scope)
    ensures Loses(db, sc, 23, CaseLink, DormantLinks(db, sc))
  {
    hide Pointing, DormantLinks;
  }

  lemma Effect26(db: Db, sc: Scope)
    requires ScopeOk(db, sc)
    ensures Loses(db, sc, 25, CourtRecord, sc.dormant)
  {
    RecordsUnreferenced(db, sc);
    hide Unreferenced, Pointing;
  }

  /** All that hangs off a dormant record is gone by then, or its link is cleared. */
  lemma RecordsUnreferenced(db: Db, sc: Scope)
    requires ScopeOk(db, sc)
    ensures Unreferenced(db, sc, GoneBy(db, sc, 26), ClearedBy(1), CourtRecord, sc.dormant)
  {
    DormantChildrenAreGone(db, sc);
    hide Pointing, GoneAfter, ScopeOk, Unreferenced;
    NothingOfTheDormant(db, sc, GoneBy(db, sc, 26));
  }

  lemma NothingOfTheDormant(db: Db, sc: Scope, g: Gone)
    requires forall u | u in {Intimation, Task, Deadline, Petition, Document, DocketEntry} :: Pointing(db, u, CourtRecordId, sc.dormant) <= g(u)
    requires Pointing(db, CaseLink, FromRecordId, sc.dormant) + Pointing(db, CaseLink, ToRecordId, sc.dormant) <= g(CaseLink)
    ensures Unreferenced(db, sc, g, ClearedBy(1), CourtRecord, sc.dormant)
  {
    hide Pointing;
  }

  lemma DormantChildrenAreGone(db: Db, sc: Scope)
    requires ScopeOk(db, sc)
    ensures Pointing(db, Intimation, CourtRecordId, sc.dormant) <= GoneAfter(db, sc, 26, Intimation)
    ensures Pointing(db, Task, CourtRecordId, sc.dormant) <= GoneAfter(db, sc, 26, Task)
    ensures Pointing(db, Deadline, CourtRecordId, sc.dormant) <= GoneAfter(db, sc, 26, Deadline)
    ensures Pointing(db, Petition, CourtRecordId, sc.dormant) <= GoneAfter(db, sc, 26, Petition)
    ensures Pointing(db, Document, CourtRecordId, sc.dormant) <= GoneAfter(db, sc, 26, Document)
    ensures Pointing(db, DocketEntry, CourtRecordId, sc.dormant) <= GoneAfter(db, sc, 26, DocketEntry)
    ensures Pointing(db, CaseLink, FromRecordId, sc.dormant) + Pointing(db, CaseLink, ToRecordId, sc.dormant) <= GoneAfter(db, sc, 26, CaseLink)
  {
    hide Pointing, NoiseTasks, NoiseDeadlines, NoiseDrafts;
  }

  /** Nothing alive hangs off an emptied case: its intimations were noise, its records dormant. */
  lemma CasesUnreferenced(db: Db, sc: Scope)
    requires ScopeOk(db, sc)
    ensures Unreferenced(db, sc, GoneBy(db, sc, 29), ClearedBy(3), CourtCase, sc.emptied)
  {
    EmptiedChildrenAreGone(db, sc);
    hide Pointing, GoneAfter, ScopeOk, Unreferenced;
    NothingOfTheEmptied(db, sc, GoneBy(db, sc, 29));
  }

  lemma EmptiedChildrenAreGone(db: Db, sc: Scope)
    requires ScopeOk(db, sc)
    ensures Pointing(db, Intimation, CaseId, sc.emptied) <= GoneAfter(db, sc, 29, Intimation)
    ensures Pointing(db, Party, CaseId, sc.emptied) <= GoneAfter(db, sc, 29, Party)
    ensures Pointing(db, CourtRecord, CaseId, sc.emptied) <= GoneAfter(db, sc, 29, CourtRecord)
  {
    hide Pointing;
  }

  lemma NothingOfTheEmptied(db: Db, sc: Scope, g: Gone)
    requires forall u | u in {Intimation, Party, CourtRecord} :: Pointing(db, u, CaseId, sc.emptied) <= g(u)
    ensures Unreferenced(db, sc, g, ClearedBy(3), CourtCase, sc.emptied)
  {
    hide Pointing;
  }

  lemma Effect29(db: Db, sc: Scope)
    requires ScopeOk(db, sc)
    ensures Loses(db, sc, 28, CourtCase, sc.emptied)
  {
    hide Unreferenced;
    CasesUnreferenced(db, sc);
  }

  // ---- The shapes of the statements ----

  function ScopeSet(sc: Scope, e: Ids): set<Id>
    requires !e.Select?
  {
    match e
    case DelIntim => sc.noise
    case DelCr => sc.dormant
    case DelCase => sc.emptied
  }

  lemma DeletesDirect(db: Db, sc: Scope, steps: seq<Step>, k: nat, t: Table, c: Column, e: Ids, ids: set<Id>)
    requires k < |steps| && At(db, sc, steps, k) && steps[k] == Step(FieldOf(t), Delete(t, In(c, e)))
    requires !e.Select? && ids == Pointing(db, t, c, ScopeSet(sc, e)) && !ClearedBy(Clears(k))(t, c)
    requires Loses(db, sc, k, t, ids) && Clears(k + 1) == Clears(k)
    ensures At(db, sc, steps, k + 1)
  {
    hide Reached, Loses;
    Sees(db, sc, steps, k, t, c, e);
    Deletes(db, sc, steps, k, t, In(c, e), ids);
  }

  lemma DeletesVia(db: Db, sc: Scope, steps: seq<Step>, k: nat, p: Table, pc: Column, e: Ids, t: Table, c: Column, ids: set<Id>)
    requires k < |steps| && At(db, sc, steps, k) && steps[k] == Step(FieldOf(t), Delete(t, In(c, Select(p, In(pc, e)))))
    requires !e.Select? && !ClearedBy(Clears(k))(t, c) && !ClearedBy(Clears(k))(p, pc)
    requires ids == Pointing(db, t, c, Pointing(db, p, pc, ScopeSet(sc, e)))
    requires Pointing(db, t, c, GoneAfter(db, sc, k, p)) <= GoneAfter(db, sc, k, t)
    requires Loses(db, sc, k, t, ids) && Clears(k + 1) == Clears(k)
    ensures At(db, sc, steps, k + 1)
  {
    hide Reached, Loses;
    Sees(db, sc, steps, k, p, pc, e);
    Sees(db, sc, steps, k, t, c, Select(p, In(pc, e)));
    Deletes(db, sc, steps, k, t, In(c, Select(p, In(pc, e))), ids);
  }

  lemma DeletesScope(db: Db, sc: Scope, steps: seq<Step>, k: nat, t: Table, e: Ids, ids: set<Id>)
    requires k < |steps| && At(db, sc, steps, k) && steps[k] == Step(FieldOf(t), Delete(t, IdIn(e)))
    requires !e.Select? && ids == ScopeSet(sc, e) && ids <= Rows(db, t).Keys
    requires Loses(db, sc, k, t, ids) && Clears(k + 1) == Clears(k)
    ensures At(db, sc, steps, k + 1)
  {
    hide Reached, Loses;
    SeesScope(db, sc, steps, k, t, e, ids);
    Deletes(db, sc, steps, k, t, IdIn(e), ids);
  }

  /** A dormant record has no intimation left, so no draft hangs off one. */
  lemma FindsNothing(db: Db, sc: Scope, steps: seq<Step>, k: nat, t: Table, cond: Cond)
    requires 9 <= k < 24 && k < |steps| && At(db, sc, steps, k) && steps[k] == Step(FieldOf(t), Delete(t, cond))
    requires ScopeOk(db, sc) && Loses(db, sc, k, t, {})
    requires (t == Intimation && cond == OF_DORMANT) || (t == Draft && cond == In(IntimationId, DORMANT_INTIMATIONS))
             || (t in {DraftAttachment, Review} && cond == In(DraftId, DORMANT_DRAFTS))
    ensures At(db, sc, steps, k + 1)
  {
    hide Reached, Loses;
    Sees(db, sc, steps, k, Intimation, CourtRecordId, DelCr);
    assert Members(Now(db, sc, steps, k), sc, DORMANT_INTIMATIONS) == {};
    Sees(db, sc, steps, k, Draft, IntimationId, DORMANT_INTIMATIONS);
    assert Members(Now(db, sc, steps, k), sc, DORMANT_DRAFTS) == {};
    if t in {DraftAttachment, Review} {
      Sees(db, sc, steps, k, t, DraftId, DORMANT_DRAFTS);
    }
    Deletes(db, sc, steps, k, t, cond, {});
  }

  lemma SameGone(db: Db, sc: Scope, steps: seq<Step>, g: Gone, g': Gone, cl: Cleared, runs: nat, drafts: nat)
    requires Reached(db, sc, steps, g, cl, runs, drafts) && forall t :: g'(t) == g(t)
    ensures Reached(db, sc, steps, g', cl, runs, drafts)
  {
  }

  /** Clearing a column moves the closed form by that column alone. */
  lemma ClearsNext(db: Db, sc: Scope, steps: seq<Step>, k: nat, g: Gone, cl: Cleared, cl': Cleared, runs: nat, drafts: nat,
                   field: Option<Field>, t: Table, c: Column, e: Ids)
    requires k < |steps| && Reached(db, sc, steps[..k], g, cl, runs, drafts)
    requires steps[k] == Step(field, SetNull(t, c, e)) && !e.Select? && ScopeSet(sc, e) == ClearedInto(sc, t)
    requires field == None || field == Some(SyncRunsCleared) || field == Some(CaseDraftLinksCleared)
    requires !cl(t, c) && cl'(t, c) && forall u, d | !(u == t && d == c) :: cl'(u, d) == cl(u, d)
    ensures var n := |Pointing(db, t, c, ClearedInto(sc, t)) - g(t)|;
            Reached(db, sc, steps[..k + 1], g, cl', runs + (if field == Some(SyncRunsCleared) then n else 0),
                    drafts + (if field == Some(CaseDraftLinksCleared) then n else 0))
  {
    hide Run, Like, Exec, Pointing, ClearedInto;
    RunStep(db, sc, steps, k);
    var before := Run(db, sc, steps[..k]).value;
    ScopeMembers(before.0, sc, e);
    ClearStep(db, sc, g, cl, cl', before.0, t, c, e);
  }

  lemma ScopeMembers(db: Db, sc: Scope, e: Ids)
    requires !e.Select?
    ensures Members(db, sc, e) == ScopeSet(sc, e)
  {
  }

  // ---- The steps ----

  lemma Step1(db: Db, sc: Scope, steps: seq<Step>)
    requires |steps| > 0 && steps[0] == Step(FieldOf(TaskItem), Delete(TaskItem, In(TaskId, NOISE_TASKS))) && At(db, sc, steps, 0)
    ensures At(db, sc, steps, 1)
  {
    hide Reached, Loses;
    Effect1(db, sc);
    SeesNoise(db, sc, steps, 0, Task);
    Sees(db, sc, steps, 0, TaskItem, TaskId, NOISE_TASKS);
    Deletes(db, sc, steps, 0, TaskItem, In(TaskId, NOISE_TASKS), Pointing(db, TaskItem, TaskId, NoiseTasks(db, sc)));
  }

  lemma Step24(db: Db, sc: Scope, steps: seq<Step>)
    requires |steps| > 23 && steps[23] == Step(FieldOf(CaseLink), Delete(CaseLink, Or(In(FromRecordId, DelCr), In(ToRecordId, DelCr)))) && At(db, sc, steps, 23)
    ensures At(db, sc, steps, 24)
  {
    hide Reached, Loses;
    Effect24(db, sc);
    Sees(db, sc, steps, 23, CaseLink, FromRecordId, DelCr);
    Sees(db, sc, steps, 23, CaseLink, ToRecordId, DelCr);
    SeesEither(Now(db, sc, steps, 23), sc, CaseLink, In(FromRecordId, DelCr), In(ToRecordId, DelCr));
    Deletes(db, sc, steps, 23, CaseLink, Or(In(FromRecordId, DelCr), In(ToRecordId, DelCr)), DormantLinks(db, sc));
  }

  lemma Step25(db: Db, sc: Scope, steps: seq<Step>)
    requires |steps| > 24 && steps[24] == Step(Some(SyncRunsCleared), SetNull(SyncRun, CourtRecordId, DelCr)) && At(db, sc, steps, 24)
    requires ScopeOk(db, sc)
    ensures At(db, sc, steps, 25)
  {
    hide Reached, Loses;
    ClearsNext(db, sc, steps, 24, GoneBy(db, sc, 24), ClearedBy(0), ClearedBy(1),
               RunsClearedBy(db, sc, 24), DraftsClearedBy(db, sc, 24), Some(SyncRunsCleared), SyncRun, CourtRecordId, DelCr);
    SameGone(db, sc, steps[..25], GoneBy(db, sc, 24), GoneBy(db, sc, 25), ClearedBy(1),
             RunsClearedBy(db, sc, 25), DraftsClearedBy(db, sc, 25));
  }

  lemma Step27(db: Db, sc: Scope, steps: seq<Step>)
    requires |steps| > 26 && steps[26] == Step(Some(CaseDraftLinksCleared), SetNull(Draft, CaseId, DelCase)) && At(db, sc, steps, 26)
    requires ScopeOk(db, sc)
    ensures At(db, sc, steps, 27)
  {
    hide Reached, Loses;
    ClearsNext(db, sc, steps, 26, GoneBy(db, sc, 26), ClearedBy(1), ClearedBy(2),
               RunsClearedBy(db, sc, 26), DraftsClearedBy(db, sc, 26), Some(CaseDraftLinksCleared), Draft, CaseId, DelCase);
    SameGone(db, sc, steps[..27], GoneBy(db, sc, 26), GoneBy(db, sc, 27), ClearedBy(2),
             RunsClearedBy(db, sc, 27), DraftsClearedBy(db, sc, 27));
  }

  lemma Step28(db: Db, sc: Scope, steps: seq<Step>)
    requires |steps| > 27 && steps[27] == Step(None, SetNull(CourtCase, MergedIntoId, DelCase)) && At(db, sc, steps, 27)
    requires ScopeOk(db, sc)
    ensures At(db, sc, steps, 28)
  {
    hide Reached, Loses;
    ClearsNext(db, sc, steps, 27, GoneBy(db, sc, 27), ClearedBy(2), ClearedBy(3),
               RunsClearedBy(db, sc, 27), DraftsClearedBy(db, sc, 27), None, CourtCase, MergedIntoId, DelCase);
    SameGone(db, sc, steps[..28], GoneBy(db, sc, 27), GoneBy(db, sc, 28), ClearedBy(3),
             RunsClearedBy(db, sc, 28), DraftsClearedBy(db, sc, 28));
  }

  lemma NoiseTaskItemsGo(db: Db, sc: Scope, steps: seq<Step>)
    requires steps == PLAN && At(db, sc, steps, 0)
    ensures At(db, sc, steps, 1)
  {
    hide Reached, Loses;
    Step1(db, sc, steps);
  }

  lemma NoiseTasksGo(db: Db, sc: Scope, steps: seq<Step>)
    requires steps == PLAN && At(db, sc, steps, 1)
    requires NoDraftOfNoiseTask(db, sc)
    ensures At(db, sc, steps, 4)
  {
    hide Reached, Loses;
    Effect2(db, sc);
    SeesNoise(db, sc, steps, 1, Task);
    Deletes(db, sc, steps, 1, Task, FROM_NOISE, NoiseTasks(db, sc));
    Effect3(db, sc);
    SeesNoise(db, sc, steps, 2, TaskSuggestion);
    Deletes(db, sc, steps, 2, TaskSuggestion, FROM_NOISE, NoiseSuggestions(db, sc));
    Effect4(db, sc);
    DeletesDirect(db, sc, steps, 3, Deadline, NotificationId, DelIntim, NoiseDeadlines(db, sc));
  }

  lemma NoiseDraftChildrenGo(db: Db, sc: Scope, steps: seq<Step>)
    requires steps == PLAN && At(db, sc, steps, 4)
    ensures At(db, sc, steps, 7)
  {
    hide Reached, Loses, At, Pointing;
    Effect5(db, sc);
    DeletesVia(db, sc, steps, 4, Draft, IntimationId, DelIntim, DraftAttachment, DraftId, Pointing(db, DraftAttachment, DraftId, NoiseDrafts(db, sc)));
    Effect6(db, sc);
    DeletesVia(db, sc, steps, 5, Draft, IntimationId, DelIntim, Petition, DraftId, Pointing(db, Petition, DraftId, NoiseDrafts(db, sc)));
    Effect7(db, sc);
    DeletesVia(db, sc, steps, 6, Draft, IntimationId, DelIntim, Review, DraftId, Pointing(db, Review, DraftId, NoiseDrafts(db, sc)));
  }

  lemma NoiseDraftsGo(db: Db, sc: Scope, steps: seq<Step>)
    requires steps == PLAN && At(db, sc, steps, 7) && ScopeOk(db, sc)
    requires NoDraftSupersededByNoise(db, sc)
    ensures At(db, sc, steps, 9)
  {
    hide Reached, Loses;
    Effect8(db, sc);
    DeletesDirect(db, sc, steps, 7, Draft, IntimationId, DelIntim, NoiseDrafts(db, sc));
    Effect9(db, sc);
    DeletesScope(db, sc, steps, 8, Intimation, DelIntim, sc.noise);
  }

  lemma DormantTaskItemsGo(db: Db, sc: Scope, steps: seq<Step>)
    requires steps == PLAN && At(db, sc, steps, 9)
    ensures At(db, sc, steps, 10)
  {
    hide Reached, Loses;
    Effect10(db, sc);
    DeletesVia(db, sc, steps, 9, Task, CourtRecordId, DelCr, TaskItem, TaskId, Pointing(db, TaskItem, TaskId, DormantTasks(db, sc)));
  }

  lemma DormantTasksGo(db: Db, sc: Scope, steps: seq<Step>)
    requires steps == PLAN && At(db, sc, steps, 10)
    requires NoDraftOfDormantTask(db, sc)
    ensures At(db, sc, steps, 12)
  {
    hide Reached, Loses;
    Effect11(db, sc);
    DeletesDirect(db, sc, steps, 10, Task, CourtRecordId, DelCr, DormantTasks(db, sc));
    Effect12(db, sc);
    DeletesVia(db, sc, steps, 11, Deadline, CourtRecordId, DelCr, TaskSuggestion, DeadlineId, Pointing(db, TaskSuggestion, DeadlineId, DormantDeadlines(db, sc)));
  }

  lemma DormantDeadlinesGo(db: Db, sc: Scope, steps: seq<Step>)
    requires steps == PLAN && At(db, sc, steps, 12) && ScopeOk(db, sc)
    requires NoTaskOfDormantDeadline(db, sc)
    ensures At(db, sc, steps, 14)
  {
    hide Reached, Loses;
    Effect13(db, sc);
    DeletesDirect(db, sc, steps, 12, Deadline, CourtRecordId, DelCr, DormantDeadlines(db, sc));
    Effect14(db, sc);
    FindsNothing(db, sc, steps, 13, DraftAttachment, In(DraftId, DORMANT_DRAFTS));
  }

  lemma DormantPapersGo(db: Db, sc: Scope, steps: seq<Step>)
    requires steps == PLAN && At(db, sc, steps, 14) && ScopeOk(db, sc)
    ensures At(db, sc, steps, 17)
  {
    hide Reached, Loses;
    Effect15(db, sc);
    DeletesDirect(db, sc, steps, 14, Petition, CourtRecordId, DelCr, Pointing(db, Petition, CourtRecordId, sc.dormant));
    Effect16(db, sc);
    FindsNothing(db, sc, steps, 15, Review, In(DraftId, DORMANT_DRAFTS));
    Effect17(db, sc);
    FindsNothing(db, sc, steps, 16, Draft, In(IntimationId, DORMANT_INTIMATIONS));
  }

  lemma DormantChunksGo(db: Db, sc: Scope, steps: seq<Step>)
    requires steps == PLAN && At(db, sc, steps, 17)
    ensures At(db, sc, steps, 18)
  {
    hide Reached, Loses;
    Effect18(db, sc);
    DeletesVia(db, sc, steps, 17, Document, CourtRecordId, DelCr, Chunk, DocumentId, Pointing(db, Chunk, DocumentId, DormantDocuments(db, sc)));
  }

  lemma DormantLeavesGo(db: Db, sc: Scope, steps: seq<Step>)
    requires steps == PLAN && At(db, sc, steps, 18) && ScopeOk(db, sc)
    requires NoAttachmentOfDormantDocument(db, sc)
    ensures At(db, sc, steps, 21)
  {
    hide Reached, Loses;
    Effect19(db, sc);
    DeletesDirect(db, sc, steps, 18, Document, CourtRecordId, DelCr, DormantDocuments(db, sc));
    Effect20(db, sc);
    DeletesDirect(db, sc, steps, 19, DocketEntry, CourtRecordId, DelCr, Pointing(db, DocketEntry, CourtRecordId, sc.dormant));
    Effect21(db, sc);
    FindsNothing(db, sc, steps, 20, Intimation, OF_DORMANT);
  }

  lemma EmptiedPartiesGo(db: Db, sc: Scope, steps: seq<Step>)
    requires steps == PLAN && At(db, sc, steps, 21)
    ensures At(db, sc, steps, 24)
  {
    hide Reached, Loses;
    Effect22(db, sc);
    DeletesVia(db, sc, steps, 21, Party, CaseId, DelCase, PartyCounsel, PartyId, Pointing(db, PartyCounsel, PartyId, EmptiedParties(db, sc)));
    Effect23(db, sc);
    DeletesDirect(db, sc, steps, 22, Party, CaseId, DelCase, EmptiedParties(db, sc));
    Step24(db, sc, steps);
  }

  lemma RecordsAndCasesGo(db: Db, sc: Scope, steps: seq<Step>)
    requires steps == PLAN && At(db, sc, steps, 24) && ScopeOk(db, sc)
    ensures At(db, sc, steps, 29)
  {
    hide Reached, Loses;
    Step25(db, sc, steps);
    Effect26(db, sc);
    DeletesScope(db, sc, steps, 25, CourtRecord, DelCr, sc.dormant);
    Step27(db, sc, steps);
    Step28(db, sc, steps);
    Effect29(db, sc);
    DeletesScope(db, sc, steps, 28, CourtCase, DelCase, sc.emptied);
  }
}
