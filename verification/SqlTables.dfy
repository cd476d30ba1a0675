/** The tables the retention pruner names, as rows with foreign keys, and the few SQL forms its
    plan is written in. A statement whose result would leave a row pointing at a removed one
    fails, as it does in the database. */
module SqlTables {
  import opened Wrappers

  type Id = int

  datatype Table =
    | TaskItem | Task | TaskSuggestion | Deadline | DraftAttachment | Petition | Review | Draft
    | Intimation | Chunk | Document | DocketEntry | PartyCounsel | Party | CaseLink | SyncRun
    | CourtRecord | CourtCase

  datatype Column =
    | TaskId | IntimationId | DeadlineId | NotificationId | CourtRecordId | DraftId | SupersededById
    | DocumentId | PartyId | CaseId | FromRecordId | ToRecordId | MergedIntoId

  /** A column absent from `refs` is NULL. `at` is published_at of an intimation (the midnight
      of its date) and occurred_at of a docket entry; `kind` an intimation's type. */
  datatype Row = Row(tenant: int, refs: map<Column, Id>, kind: string, at: int)

  type Db = map<Table, map<Id, Row>>

  function Rows(db: Db, t: Table): map<Id, Row> {
    if t in db then db[t] else map[]
  }

  /** The table a foreign key column refers to; task_suggestion.intimation_id is not one. */
  function Parent(t: Table, c: Column): Option<Table> {
    match (t, c)
    case (TaskItem, TaskId) => Some(Task)
    case (Task, CourtRecordId) => Some(CourtRecord)
    case (Task, DeadlineId) => Some(Deadline)
    case (Task, IntimationId) => Some(Intimation)
    case (TaskSuggestion, DeadlineId) => Some(Deadline)
    case (Deadline, CourtRecordId) => Some(CourtRecord)
    case (Deadline, NotificationId) => Some(Intimation)
    case (DraftAttachment, DraftId) => Some(Draft)
    case (DraftAttachment, DocumentId) => Some(Document)
    case (Petition, DraftId) => Some(Draft)
    case (Petition, CourtRecordId) => Some(CourtRecord)
    case (Review, DraftId) => Some(Draft)
    case (Draft, CaseId) => Some(CourtCase)
    case (Draft, IntimationId) => Some(Intimation)
    case (Draft, TaskId) => Some(Task)
    case (Draft, SupersededById) => Some(Draft)
    case (Intimation, CaseId) => Some(CourtCase)
    case (Intimation, CourtRecordId) => Some(CourtRecord)
    case (Chunk, DocumentId) => Some(Document)
    case (Document, CourtRecordId) => Some(CourtRecord)
    case (DocketEntry, CourtRecordId) => Some(CourtRecord)
    case (PartyCounsel, PartyId) => Some(Party)
    case (Party, CaseId) => Some(CourtCase)
    case (CaseLink, FromRecordId) => Some(CourtRecord)
    case (CaseLink, ToRecordId) => Some(CourtRecord)
    case (SyncRun, CourtRecordId) => Some(CourtRecord)
    case (CourtRecord, CaseId) => Some(CourtCase)
    case (CourtCase, MergedIntoId) => Some(CourtCase)
    case _ => None
  }

  /** ON DELETE CASCADE; every other key refuses. */
  predicate Cascades(t: Table, c: Column) {
    (t == TaskItem && c == TaskId) || (t == TaskSuggestion && c == DeadlineId)
    || (t == DraftAttachment && c == DraftId) || (t == PartyCounsel && c == PartyId)
  }

  /** No row points at a row that is not there. */
  ghost predicate Integrity(db: Db) {
    forall t, c, id | Parent(t, c).Some? && id in Rows(db, t) && c in Rows(db, t)[id].refs ::
      Rows(db, t)[id].refs[c] in Rows(db, Parent(t, c).value)
  }

  /** What a column names, foreign key or not. */
  function Names(t: Table, c: Column): Option<Table> {
    if t == TaskSuggestion && c == IntimationId then Some(Intimation) else Parent(t, c)
  }

  ghost predicate NoKeyCrossesTenants(db: Db) {
    forall t, c, id | id in Rows(db, t) && c in Rows(db, t)[id].refs && Names(t, c).Some?
                      && Rows(db, t)[id].refs[c] in Rows(db, Names(t, c).value) ::
      Rows(db, Names(t, c).value)[Rows(db, t)[id].refs[c]].tenant == Rows(db, t)[id].tenant
  }

  // ---- Statements ----

  /** The three temporary tables the plan deletes against. */
  datatype Scope = Scope(noise: set<Id>, dormant: set<Id>, emptied: set<Id>)

  datatype Ids = DelIntim | DelCr | DelCase | Select(from: Table, cond: Cond)

  datatype Cond = IdIn(ids: Ids) | In(column: Column, ids: Ids) | Or(left: Cond, right: Cond)

  datatype Stmt = Delete(table: Table, cond: Cond) | SetNull(table: Table, column: Column, ids: Ids)

  predicate Points(r: Row, c: Column, ids: set<Id>) {
    c in r.refs && r.refs[c] in ids
  }

  function Members(db: Db, sc: Scope, e: Ids): set<Id> {
    match e
    case DelIntim => sc.noise
    case DelCr => sc.dormant
    case DelCase => sc.emptied
    case Select(t, cond) => set id | id in Rows(db, t) && Holds(db, sc, cond, id, Rows(db, t)[id])
  }

  predicate Holds(db: Db, sc: Scope, cond: Cond, id: Id, r: Row) {
    match cond
    case IdIn(e) => id in Members(db, sc, e)
    case In(c, e) => Points(r, c, Members(db, sc, e))
    case Or(a, b) => Holds(db, sc, a, id, r) || Holds(db, sc, b, id, r)
  }

  /** The children a DELETE takes along. */
  function Orphans(db: Db, t: Table, ids: set<Id>, u: Table): set<Id> {
    set id | id in Rows(db, u) && exists c :: Cascades(u, c) && Parent(u, c) == Some(t) && Points(Rows(db, u)[id], c, ids)
  }

  function Removed(db: Db, t: Table, ids: set<Id>): Db {
    var gone := db[t := Rows(db, t) - ids];
    map u | u in gone :: gone[u] - Orphans(gone, t, ids, u)
  }

  /** Some surviving row still refers to a removed one. */
  predicate Refused(db: Db, t: Table, ids: set<Id>) {
    exists u, c, id :: id in Rows(db, u) && Parent(u, c) == Some(t) && Points(Rows(db, u)[id], c, ids)
  }

  datatype Fault = ForeignKeyViolation

  /** A statement's outcome: the new tables and the rows affected. */
  function Exec(db: Db, sc: Scope, stmt: Stmt): Result<(Db, nat), Fault> {
    match stmt
    case Delete(t, cond) =>
      var ids := Members(db, sc, Select(t, cond));
      var after := Removed(db, t, ids);
      if Refused(after, t, ids) then Err(ForeignKeyViolation) else Ok((after, |ids|))
    case SetNull(t, c, e) =>
      var hit := Members(db, sc, Select(t, In(c, e)));
      Ok((db[t := map id | id in Rows(db, t) :: if id in hit then Rows(db, t)[id].(refs := Rows(db, t)[id].refs - {c}) else Rows(db, t)[id]],
          |hit|))
  }

  /** No table that is swept along has children of its own. */
  lemma ParentsAreSpared(db: Db, t: Table, ids: set<Id>, p: Table)
    requires exists u, c :: Parent(u, c) == Some(p)
    ensures Orphans(db, t, ids, p) == {}
  {
    forall c ensures !Cascades(p, c) {
    }
  }

  /** Whatever statement succeeds, the tables keep their integrity. */
  lemma ExecKeepsIntegrity(db: Db, sc: Scope, stmt: Stmt)
    requires Integrity(db)
    ensures Exec(db, sc, stmt).Ok? ==> Integrity(Exec(db, sc, stmt).value.0)
  {
    if Exec(db, sc, stmt).Ok? {
      var after := Exec(db, sc, stmt).value.0;
      forall t, c, id | Parent(t, c).Some? && id in Rows(after, t) && c in Rows(after, t)[id].refs
        ensures Rows(after, t)[id].refs[c] in Rows(after, Parent(t, c).value)
      {
        var p, ref := Parent(t, c).value, Rows(after, t)[id].refs[c];
        assert id in Rows(db, t) && c in Rows(db, t)[id].refs && Rows(db, t)[id].refs[c] == ref;
        assert ref in Rows(db, p);
        if stmt.Delete? {
          var ids := Members(db, sc, Select(stmt.table, stmt.cond));
          if p == stmt.table {
            assert ref !in ids;
          }
          ParentsAreSpared(db[stmt.table := Rows(db, stmt.table) - ids], stmt.table, ids, p);
        }
      }
    }
  }
}
