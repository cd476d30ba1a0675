/** Each of the five rows that stop a prune occurs in a database the schema accepts, with every
    key intact. */
module PruneBlockers {
  import opened SqlTables
  import opened Prune
  import opened PruneSteps
  import opened PruneAdvance
  import opened PruneLaws
  import opened PruneTheorems

  const CLOCK := Clock(100, 50)

  // ---- Databases row by row ----

  function Of(at: int, refs: map<Column, Id>): Row {
    Row(1, refs, "INTIMACAO", at)
  }

  function Add(db: Db, t: Table, id: Id, at: int, refs: map<Column, Id>): Db {
    db[t := Rows(db, t)[id := Of(at, refs)]]
  }

  /** The NOT NULL columns. */
  predicate Required(t: Table, c: Column) {
    match t
    case TaskItem => c == TaskId
    case TaskSuggestion => c == DeadlineId || c == IntimationId
    case Deadline => c == CourtRecordId || c == NotificationId
    case DraftAttachment => c == DraftId || c == DocumentId
    case Petition => c == DraftId || c == CourtRecordId
    case Review => c == DraftId
    case Intimation => c == CaseId || c == CourtRecordId
    case Chunk => c == DocumentId
    case DocketEntry => c == CourtRecordId
    case PartyCounsel => c == PartyId
    case Party => c == CaseId
    case CaseLink => c == FromRecordId || c == ToRecordId
    case CourtRecord => c == CaseId
    case Task | Draft | Document | SyncRun | CourtCase => false
  }

  /** The UNIQUE columns: one deadline per intimation, one petition per draft. */
  predicate Unique(t: Table, c: Column) {
    (t == Deadline && c == NotificationId) || (t == Petition && c == DraftId)
  }

  /** What the schema accepts of columns that name rows. */
  ghost predicate Storable(db: Db) {
    && (forall t, c, id | Required(t, c) && id in Rows(db, t) :: c in Rows(db, t)[id].refs)
    && (forall t, c, i, j | Unique(t, c) && i in Rows(db, t) && j in Rows(db, t)
                            && c in Rows(db, t)[i].refs && c in Rows(db, t)[j].refs && i != j ::
          Rows(db, t)[i].refs[c] != Rows(db, t)[j].refs[c])
  }

  /** Intact keys, storable rows, and a single tenant. */
  ghost predicate Intact(db: Db) {
    Integrity(db) && Storable(db) && forall t, id | id in Rows(db, t) :: Rows(db, t)[id].tenant == 1
  }

  /** A row the schema accepts beside those that are there. */
  ghost predicate Fits(db: Db, t: Table, id: Id, refs: map<Column, Id>) {
    && id !in Rows(db, t)
    && (forall c | c in refs && Parent(t, c).Some? :: refs[c] in Rows(db, Parent(t, c).value))
    && (forall c | Required(t, c) :: c in refs)
    && (forall c, x | Unique(t, c) && c in refs && x in Rows(db, t) && c in Rows(db, t)[x].refs :: Rows(db, t)[x].refs[c] != refs[c])
  }

  lemma Adds(db: Db, t: Table, id: Id, at: int, refs: map<Column, Id>)
    requires Intact(db) && Fits(db, t, id, refs)
    ensures Intact(Add(db, t, id, at, refs))
    ensures forall u :: Rows(Add(db, t, id, at, refs), u) == if u == t then Rows(db, t)[id := Of(at, refs)] else Rows(db, u)
  {
    AddsIntegrity(db, t, id, at, refs);
    AddsStorable(db, t, id, at, refs);
    hide Fits, Integrity, Storable;
    var after := Add(db, t, id, at, refs);
    forall u, x | x in Rows(after, u) ensures Rows(after, u)[x].tenant == 1 {
      if !(u == t && x == id) {
        assert x in Rows(db, u);
      }
    }
  }

  lemma AddsIntegrity(db: Db, t: Table, id: Id, at: int, refs: map<Column, Id>)
    requires Integrity(db) && Fits(db, t, id, refs)
    ensures Integrity(Add(db, t, id, at, refs))
  {
    hide Parent, Required, Unique;
    var after := Add(db, t, id, at, refs);
    forall u, c, x | Parent(u, c).Some? && x in Rows(after, u) && c in Rows(after, u)[x].refs
      ensures Rows(after, u)[x].refs[c] in Rows(after, Parent(u, c).value)
    {
      if !(u == t && x == id) {
        assert x in Rows(db, u) && c in Rows(db, u)[x].refs;
      }
    }
  }

  lemma AddsStorable(db: Db, t: Table, id: Id, at: int, refs: map<Column, Id>)
    requires Storable(db) && Fits(db, t, id, refs)
    ensures Storable(Add(db, t, id, at, refs))
  {
    hide Parent, Required, Unique;
    var after := Add(db, t, id, at, refs);
    forall u, c, x | Required(u, c) && x in Rows(after, u) ensures c in Rows(after, u)[x].refs {
      if !(u == t && x == id) {
        assert x in Rows(db, u);
      }
    }
    forall u, c, i, j | Unique(u, c) && i in Rows(after, u) && j in Rows(after, u)
                        && c in Rows(after, u)[i].refs && c in Rows(after, u)[j].refs && i != j
      ensures Rows(after, u)[i].refs[c] != Rows(after, u)[j].refs[c]
    {
      assert (u == t && i == id) || (i in Rows(db, u) && Rows(db, u)[i] == Rows(after, u)[i]);
      assert (u == t && j == id) || (j in Rows(db, u) && Rows(db, u)[j] == Rows(after, u)[j]);
    }
  }

  lemma FitsRecord(db: Db, id: Id, caseId: Id)
    requires id !in Rows(db, CourtRecord) && caseId in Rows(db, CourtCase)
    ensures Fits(db, CourtRecord, id, map[CaseId := caseId])
  {
  }

  lemma FitsIntimation(db: Db, id: Id, caseId: Id, record: Id)
    requires id !in Rows(db, Intimation) && caseId in Rows(db, CourtCase) && record in Rows(db, CourtRecord)
    ensures Fits(db, Intimation, id, map[CaseId := caseId, CourtRecordId := record])
  {
  }

  lemma FitsDeadline(db: Db, id: Id, record: Id, intimation: Id)
    requires Rows(db, Deadline) == map[] && record in Rows(db, CourtRecord) && intimation in Rows(db, Intimation)
    ensures Fits(db, Deadline, id, map[CourtRecordId := record, NotificationId := intimation])
  {
  }

  lemma FitsAttachment(db: Db, id: Id, draft: Id, document: Id)
    requires id !in Rows(db, DraftAttachment) && draft in Rows(db, Draft) && document in Rows(db, Document)
    ensures Fits(db, DraftAttachment, id, map[DraftId := draft, DocumentId := document])
  {
  }

  /** These tables have neither a NOT NULL nor a UNIQUE column among those that name rows. */
  lemma FitsFreely(db: Db, t: Table, id: Id, refs: map<Column, Id>)
    requires t in {Task, Draft, Document, CourtCase} && id !in Rows(db, t)
    requires forall c | c in refs && Parent(t, c).Some? :: refs[c] in Rows(db, Parent(t, c).value)
    ensures Fits(db, t, id, refs)
  {
    hide Parent;
  }

  lemma OneTenant(db: Db)
    requires Intact(db)
    ensures NoKeyCrossesTenants(db)
  {
    hide Names, Integrity;
    forall t, c, id | id in Rows(db, t) && c in Rows(db, t)[id].refs && Names(t, c).Some?
                      && Rows(db, t)[id].refs[c] in Rows(db, Names(t, c).value)
      ensures Rows(db, Names(t, c).value)[Rows(db, t)[id].refs[c]].tenant == Rows(db, t)[id].tenant
    {
      var p, ref := Names(t, c).value, Rows(db, t)[id].refs[c];
      assert ref in Rows(db, p) && Rows(db, p)[ref].tenant == 1;
    }
  }

  function OneRecord(): Db {
    Add(Add(map[], CourtCase, 1, 0, map[]), CourtRecord, 1, 0, map[CaseId := 1])
  }

  lemma OneRecordIsIntact()
    ensures Intact(OneRecord()) && forall t :: t !in {CourtCase, CourtRecord} ==> Rows(OneRecord(), t) == map[]
    ensures Rows(OneRecord(), CourtCase) == map[1 := Of(0, map[])] && Rows(OneRecord(), CourtRecord) == map[1 := Of(0, map[CaseId := 1])]
  {
    var none: Db := map[];
    assert Intact(none) && forall t :: Rows(none, t) == map[];
    hide Add, Rows, Intact, Fits;
    FitsFreely(none, CourtCase, 1, map[]);
    Adds(none, CourtCase, 1, 0, map[]);
    FitsRecord(Add(none, CourtCase, 1, 0, map[]), 1, 1);
    Adds(Add(none, CourtCase, 1, 0, map[]), CourtRecord, 1, 0, map[CaseId := 1]);
  }

  /** One case with one record nothing has happened to for years, and its one intimation, older
      than thirty days. */
  function Silent(): Db {
    Add(OneRecord(), Intimation, 1, 0, map[CaseId := 1, CourtRecordId := 1])
  }

  ghost predicate Extends(db: Db) {
    && Intact(db)
    && Rows(db, CourtCase) == map[1 := Of(0, map[])]
    && Rows(db, CourtRecord) == map[1 := Of(0, map[CaseId := 1])] && Rows(db, DocketEntry) == map[]
    && Rows(db, Intimation) == map[1 := Of(0, map[CaseId := 1, CourtRecordId := 1])]
  }

  lemma SilentIsIntact()
    ensures Extends(Silent()) && forall t :: t !in {CourtCase, CourtRecord, Intimation} ==> Rows(Silent(), t) == map[]
  {
    OneRecordIsIntact();
    hide Add, Rows, Intact, Fits, OneRecord;
    FitsIntimation(OneRecord(), 1, 1, 1);
    Adds(OneRecord(), Intimation, 1, 0, map[CaseId := 1, CourtRecordId := 1]);
  }

  /** The noise and the dormant record of such a database. */
  lemma TheScope(db: Db)
    requires Extends(db)
    ensures var sc := BuildScopeSets(db, 1, CLOCK); sc.noise == {1} && sc.dormant == {1}
  {
    hide Intact;
    var noise := Noise(db, 1, CLOCK);
    assert forall i | i in Rows(db, Intimation) :: i in noise <==> i == 1;
    assert noise == {1};
    assert Under(db, DocketEntry, CourtRecordId, 1) == {};
    assert forall i | i in Under(db, Intimation, CourtRecordId, 1) :: i == 1;
    assert Under(db, Intimation, CourtRecordId, 1) - noise == {};
    assert Dormant(db, noise, 1, CLOCK);
    assert DormantRecords(db, 1, noise, CLOCK) == {1};
  }

  /** The prune fails on intact keys the schema accepts, in spite of all it assumes. */
  ghost predicate FailsThoughIntact(db: Db) {
    Integrity(db) && Storable(db) && NoKeyCrossesTenants(db) && Sensible(CLOCK) && PruneTx(db, 1, CLOCK).Err?
  }

  lemma Blocked(db: Db)
    requires Intact(db) && !Unblocked(db, BuildScopeSets(db, 1, CLOCK))
    ensures FailsThoughIntact(db)
  {
    OneTenant(db);
    hide PruneTx, Unblocked, Integrity, Storable, NoKeyCrossesTenants;
    WhenThePruneGoesThrough(db, 1, CLOCK);
  }

  // ---- The five ----

  /** A draft written for a task of a noise intimation. */
  function DraftOfNoiseTask(): Db {
    var tasks := Add(Silent(), Task, 1, 0, map[IntimationId := 1]);
    Add(tasks, Draft, 1, 0, map[TaskId := 1])
  }

  lemma DraftOfNoiseTaskIsBuilt()
    ensures Extends(DraftOfNoiseTask())
    ensures Rows(DraftOfNoiseTask(), Task) == map[1 := Of(0, map[IntimationId := 1])]
    ensures Rows(DraftOfNoiseTask(), Draft) == map[1 := Of(0, map[TaskId := 1])]
  {
    hide Intact, Add, Rows, Fits, Silent;
    SilentIsIntact();
    FitsFreely(Silent(), Task, 1, map[IntimationId := 1]);
    Adds(Silent(), Task, 1, 0, map[IntimationId := 1]);
    var tasks := Add(Silent(), Task, 1, 0, map[IntimationId := 1]);
    FitsFreely(tasks, Draft, 1, map[TaskId := 1]);
    Adds(tasks, Draft, 1, 0, map[TaskId := 1]);
  }

  lemma ADraftOfANoiseTaskStopsIt()
    ensures FailsThoughIntact(DraftOfNoiseTask())
  {
    hide PruneTx, BuildScopeSets, Intact, Rows, DraftOfNoiseTask, FailsThoughIntact;
    DraftOfNoiseTaskIsBuilt();
    var db := DraftOfNoiseTask();
    TheScope(db);
    var sc := BuildScopeSets(db, 1, CLOCK);
    assert 1 in NoiseTasks(db, sc);
    assert 1 in Pointing(db, Draft, TaskId, NoiseTasks(db, sc));
    Blocked(db);
  }

  /** A draft that a draft about a noise intimation superseded. */
  function DraftSupersededByNoise(): Db {
    var first := Add(Silent(), Draft, 1, 0, map[IntimationId := 1]);
    Add(first, Draft, 2, 0, map[SupersededById := 1])
  }

  lemma DraftSupersededByNoiseIsBuilt()
    ensures Extends(DraftSupersededByNoise())
    ensures Rows(DraftSupersededByNoise(), Draft) == map[1 := Of(0, map[IntimationId := 1]), 2 := Of(0, map[SupersededById := 1])]
  {
    hide Intact, Add, Rows, Fits, Silent;
    SilentIsIntact();
    FitsFreely(Silent(), Draft, 1, map[IntimationId := 1]);
    Adds(Silent(), Draft, 1, 0, map[IntimationId := 1]);
    var first := Add(Silent(), Draft, 1, 0, map[IntimationId := 1]);
    FitsFreely(first, Draft, 2, map[SupersededById := 1]);
    Adds(first, Draft, 2, 0, map[SupersededById := 1]);
  }

  lemma ASupersededDraftStopsIt()
    ensures FailsThoughIntact(DraftSupersededByNoise())
  {
    hide PruneTx, BuildScopeSets, Intact, Rows, DraftSupersededByNoise, FailsThoughIntact;
    DraftSupersededByNoiseIsBuilt();
    var db := DraftSupersededByNoise();
    TheScope(db);
    var sc := BuildScopeSets(db, 1, CLOCK);
    assert 1 in NoiseDrafts(db, sc) && 2 !in NoiseDrafts(db, sc);
    assert 2 in Pointing(db, Draft, SupersededById, NoiseDrafts(db, sc));
    Blocked(db);
  }

  /** A draft written for a task of the dormant record. */
  function DraftOfDormantTask(): Db {
    var tasks := Add(Silent(), Task, 1, 0, map[CourtRecordId := 1]);
    Add(tasks, Draft, 1, 0, map[TaskId := 1])
  }

  lemma DraftOfDormantTaskIsBuilt()
    ensures Extends(DraftOfDormantTask())
    ensures Rows(DraftOfDormantTask(), Task) == map[1 := Of(0, map[CourtRecordId := 1])]
    ensures Rows(DraftOfDormantTask(), Draft) == map[1 := Of(0, map[TaskId := 1])]
  {
    hide Intact, Add, Rows, Fits, Silent;
    SilentIsIntact();
    FitsFreely(Silent(), Task, 1, map[CourtRecordId := 1]);
    Adds(Silent(), Task, 1, 0, map[CourtRecordId := 1]);
    var tasks := Add(Silent(), Task, 1, 0, map[CourtRecordId := 1]);
    FitsFreely(tasks, Draft, 1, map[TaskId := 1]);
    Adds(tasks, Draft, 1, 0, map[TaskId := 1]);
  }

  lemma ADraftOfADormantTaskStopsIt()
    ensures FailsThoughIntact(DraftOfDormantTask())
  {
    hide PruneTx, BuildScopeSets, Intact, Rows, DraftOfDormantTask, FailsThoughIntact;
    DraftOfDormantTaskIsBuilt();
    var db := DraftOfDormantTask();
    TheScope(db);
    var sc := BuildScopeSets(db, 1, CLOCK);
    assert 1 in DormantTasks(db, sc) && 1 !in NoiseDrafts(db, sc);
    assert 1 in Pointing(db, Draft, TaskId, DormantTasks(db, sc));
    Blocked(db);
  }

  /** A silent record beside one whose intimation is recent. */
  function TwoRecords(): Db {
    Add(Add(OneRecord(), CourtRecord, 2, 0, map[CaseId := 1]), Intimation, 2, 200, map[CaseId := 1, CourtRecordId := 2])
  }

  lemma TwoRecordsAreIntact()
    ensures Intact(TwoRecords())
    ensures forall t :: t !in {CourtCase, CourtRecord, Intimation} ==> Rows(TwoRecords(), t) == map[]
    ensures Rows(TwoRecords(), CourtRecord) == map[1 := Of(0, map[CaseId := 1]), 2 := Of(0, map[CaseId := 1])]
    ensures Rows(TwoRecords(), Intimation) == map[2 := Of(200, map[CaseId := 1, CourtRecordId := 2])]
  {
    OneRecordIsIntact();
    hide Add, Rows, Intact, Fits, OneRecord;
    FitsRecord(OneRecord(), 2, 1);
    Adds(OneRecord(), CourtRecord, 2, 0, map[CaseId := 1]);
    FitsIntimation(Add(OneRecord(), CourtRecord, 2, 0, map[CaseId := 1]), 2, 1, 2);
    Adds(Add(OneRecord(), CourtRecord, 2, 0, map[CaseId := 1]), Intimation, 2, 200, map[CaseId := 1, CourtRecordId := 2]);
  }

  /** Only the silent one is dormant, and nothing is noise. */
  lemma TheScopeOfTwo(db: Db)
    requires Rows(db, CourtRecord) == map[1 := Of(0, map[CaseId := 1]), 2 := Of(0, map[CaseId := 1])]
    requires Rows(db, Intimation) == map[2 := Of(200, map[CaseId := 1, CourtRecordId := 2])] && Rows(db, DocketEntry) == map[]
    ensures var sc := BuildScopeSets(db, 1, CLOCK); sc.noise == {} && sc.dormant == {1}
  {
    assert Noise(db, 1, CLOCK) == {};
    assert Under(db, DocketEntry, CourtRecordId, 1) == {} && Under(db, Intimation, CourtRecordId, 1) == {};
    assert Under(db, Intimation, CourtRecordId, 1) - {} == {};
    assert Dormant(db, {}, 1, CLOCK);
    assert 2 in Under(db, Intimation, CourtRecordId, 2) - {};
    assert !Dormant(db, {}, 2, CLOCK);
    assert DormantRecords(db, 1, {}, CLOCK) == {1};
  }

  /** A deadline on the dormant record although its intimation is on the other one, as the event
      of an intimation that a merge has moved in the meantime leaves it, and a task for it that
      is on the other one too. */
  function TaskOfDormantDeadline(): Db {
    var deadlines := Add(TwoRecords(), Deadline, 1, 0, map[CourtRecordId := 1, NotificationId := 2]);
    Add(deadlines, Task, 1, 0, map[DeadlineId := 1, CourtRecordId := 2])
  }

  lemma TaskOfDormantDeadlineIsBuilt()
    ensures var db := TaskOfDormantDeadline();
            && Intact(db) && Rows(db, CourtRecord) == Rows(TwoRecords(), CourtRecord)
            && Rows(db, Intimation) == Rows(TwoRecords(), Intimation) && Rows(db, DocketEntry) == map[]
            && Rows(db, Deadline) == map[1 := Of(0, map[CourtRecordId := 1, NotificationId := 2])]
            && Rows(db, Task) == map[1 := Of(0, map[DeadlineId := 1, CourtRecordId := 2])]
  {
    hide Intact, Add, Rows, Fits, TwoRecords;
    TwoRecordsAreIntact();
    FitsDeadline(TwoRecords(), 1, 1, 2);
    Adds(TwoRecords(), Deadline, 1, 0, map[CourtRecordId := 1, NotificationId := 2]);
    var deadlines := Add(TwoRecords(), Deadline, 1, 0, map[CourtRecordId := 1, NotificationId := 2]);
    FitsFreely(deadlines, Task, 1, map[DeadlineId := 1, CourtRecordId := 2]);
    Adds(deadlines, Task, 1, 0, map[DeadlineId := 1, CourtRecordId := 2]);
  }

  lemma ATaskOfADormantDeadlineStopsIt()
    ensures FailsThoughIntact(TaskOfDormantDeadline())
  {
    hide PruneTx, BuildScopeSets, Intact, Rows, TwoRecords, TaskOfDormantDeadline, FailsThoughIntact;
    TwoRecordsAreIntact();
    TaskOfDormantDeadlineIsBuilt();
    var db := TaskOfDormantDeadline();
    TheScopeOfTwo(db);
    var sc := BuildScopeSets(db, 1, CLOCK);
    assert 1 in DormantDeadlines(db, sc);
    assert 1 !in NoiseTasks(db, sc) && 1 !in DormantTasks(db, sc);
    assert 1 in Pointing(db, Task, DeadlineId, DormantDeadlines(db, sc));
    Blocked(db);
  }

  /** A document of the dormant record attached to a draft that stays. */
  function AttachmentOfDormantDocument(): Db {
    var documents := Add(Silent(), Document, 1, 0, map[CourtRecordId := 1]);
    var drafts := Add(documents, Draft, 1, 0, map[]);
    Add(drafts, DraftAttachment, 1, 0, map[DraftId := 1, DocumentId := 1])
  }

  lemma AttachmentOfDormantDocumentIsBuilt()
    ensures Extends(AttachmentOfDormantDocument())
    ensures Rows(AttachmentOfDormantDocument(), Document) == map[1 := Of(0, map[CourtRecordId := 1])]
    ensures Rows(AttachmentOfDormantDocument(), Draft) == map[1 := Of(0, map[])]
    ensures Rows(AttachmentOfDormantDocument(), DraftAttachment) == map[1 := Of(0, map[DraftId := 1, DocumentId := 1])]
  {
    hide Intact, Add, Rows, Fits, Silent;
    SilentIsIntact();
    FitsFreely(Silent(), Document, 1, map[CourtRecordId := 1]);
    Adds(Silent(), Document, 1, 0, map[CourtRecordId := 1]);
    var documents := Add(Silent(), Document, 1, 0, map[CourtRecordId := 1]);
    FitsFreely(documents, Draft, 1, map[]);
    Adds(documents, Draft, 1, 0, map[]);
    var drafts := Add(documents, Draft, 1, 0, map[]);
    FitsAttachment(drafts, 1, 1, 1);
    Adds(drafts, DraftAttachment, 1, 0, map[DraftId := 1, DocumentId := 1]);
  }

  lemma AnAttachedDocumentStopsIt()
    ensures FailsThoughIntact(AttachmentOfDormantDocument())
  {
    hide PruneTx, BuildScopeSets, Intact, Rows, AttachmentOfDormantDocument, FailsThoughIntact;
    AttachmentOfDormantDocumentIsBuilt();
    var db := AttachmentOfDormantDocument();
    TheScope(db);
    var sc := BuildScopeSets(db, 1, CLOCK);
    assert 1 in DormantDocuments(db, sc) && 1 !in NoiseDrafts(db, sc);
    assert 1 in Pointing(db, DraftAttachment, DocumentId, DormantDocuments(db, sc));
    Blocked(db);
  }

  /** Every deadline is on the record of its intimation. */
  ghost predicate DeadlinesFollowTheirIntimations(db: Db) {
    forall d | d in Rows(db, Deadline) && CourtRecordId in Rows(db, Deadline)[d].refs ::
      && NotificationId in Rows(db, Deadline)[d].refs && Rows(db, Deadline)[d].refs[NotificationId] in Rows(db, Intimation)
      && var i := Rows(db, Intimation)[Rows(db, Deadline)[d].refs[NotificationId]];
         CourtRecordId in i.refs && i.refs[CourtRecordId] == Rows(db, Deadline)[d].refs[CourtRecordId]
  }

  /** The fourth way needs such a stray deadline: where deadlines follow their intimations, the
      tasks of a dormant record's deadlines are noise and go first. */
  lemma TheFourthNeedsAStrayDeadline(db: Db, tenant: int, clock: Clock)
    requires Sensible(clock) && NoKeyCrossesTenants(db) && DeadlinesFollowTheirIntimations(db)
    ensures NoTaskOfDormantDeadline(db, BuildScopeSets(db, tenant, clock))
  {
    ScopeIsOk(db, tenant, clock);
    var sc := BuildScopeSets(db, tenant, clock);
    hide BuildScopeSets, NoKeyCrossesTenants;
    forall k | k in Pointing(db, Task, DeadlineId, DormantDeadlines(db, sc)) ensures k in NoiseTasks(db, sc) {
      var d := Rows(db, Task)[k].refs[DeadlineId];
      var i := Rows(db, Deadline)[d].refs[NotificationId];
      assert i in Pointing(db, Intimation, CourtRecordId, sc.dormant);
      assert d in NoiseDeadlines(db, sc);
    }
  }

  /** Every task for a deadline is on the record of the deadline. */
  ghost predicate TasksFollowTheirDeadlines(db: Db) {
    forall k | k in Rows(db, Task) && DeadlineId in Rows(db, Task)[k].refs && Rows(db, Task)[k].refs[DeadlineId] in Rows(db, Deadline) ::
      var d := Rows(db, Deadline)[Rows(db, Task)[k].refs[DeadlineId]];
      CourtRecordId in d.refs ==>
        CourtRecordId in Rows(db, Task)[k].refs && Rows(db, Task)[k].refs[CourtRecordId] == d.refs[CourtRecordId]
  }

  /** It needs a stray task as well: where tasks follow their deadlines, the tasks of a dormant
      record's deadlines go with the record's own. */
  lemma TheFourthNeedsAStrayTask(db: Db, sc: Scope)
    requires TasksFollowTheirDeadlines(db)
    ensures NoTaskOfDormantDeadline(db, sc)
  {
    forall k | k in Pointing(db, Task, DeadlineId, DormantDeadlines(db, sc)) ensures k in DormantTasks(db, sc) {
      var ref := Rows(db, Task)[k].refs[DeadlineId];
      assert ref in Pointing(db, Deadline, CourtRecordId, sc.dormant);
      assert Points(Rows(db, Deadline)[ref], CourtRecordId, sc.dormant);
      assert Points(Rows(db, Task)[k], CourtRecordId, sc.dormant);
    }
  }
}
