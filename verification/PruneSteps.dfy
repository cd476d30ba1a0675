/** The plan step by step: after k statements the tables are what a closed form says, or the
    transaction has failed at one of the five places where it can. */
module PruneSteps {
  import opened Wrappers
  import opened SqlTables

  function Pointing(db: Db, t: Table, c: Column, ids: set<Id>): set<Id> {
    set id | id in Rows(db, t) && Points(Rows(db, t)[id], c, ids)
  }

  // ---- What the plan is after ----

  function NoiseDeadlines(db: Db, sc: Scope): set<Id> { Pointing(db, Deadline, NotificationId, sc.noise) }

  function NoiseTasks(db: Db, sc: Scope): set<Id> {
    Pointing(db, Task, IntimationId, sc.noise) + Pointing(db, Task, DeadlineId, NoiseDeadlines(db, sc))
  }

  function NoiseSuggestions(db: Db, sc: Scope): set<Id> {
    Pointing(db, TaskSuggestion, IntimationId, sc.noise) + Pointing(db, TaskSuggestion, DeadlineId, NoiseDeadlines(db, sc))
  }

  function NoiseDrafts(db: Db, sc: Scope): set<Id> { Pointing(db, Draft, IntimationId, sc.noise) }

  function DormantTasks(db: Db, sc: Scope): set<Id> { Pointing(db, Task, CourtRecordId, sc.dormant) }

  function DormantDeadlines(db: Db, sc: Scope): set<Id> { Pointing(db, Deadline, CourtRecordId, sc.dormant) }

  function DormantDocuments(db: Db, sc: Scope): set<Id> { Pointing(db, Document, CourtRecordId, sc.dormant) }

  function DormantLinks(db: Db, sc: Scope): set<Id> {
    Pointing(db, CaseLink, FromRecordId, sc.dormant) + Pointing(db, CaseLink, ToRecordId, sc.dormant)
  }

  function EmptiedParties(db: Db, sc: Scope): set<Id> { Pointing(db, Party, CaseId, sc.emptied) }

  function From(k: nat, n: nat, ids: set<Id>): set<Id> {
    if n <= k then ids else {}
  }

  /** The rows of table `t` that are gone after the first `k` steps. */
  function GoneAfter(db: Db, sc: Scope, k: nat, t: Table): set<Id> {
    match t
    case TaskItem => From(k, 1, Pointing(db, TaskItem, TaskId, NoiseTasks(db, sc))) + From(k, 10, Pointing(db, TaskItem, TaskId, DormantTasks(db, sc)))
    case Task => From(k, 2, NoiseTasks(db, sc)) + From(k, 11, DormantTasks(db, sc))
    case TaskSuggestion =>
      From(k, 3, NoiseSuggestions(db, sc))
      + From(k, 12, Pointing(db, TaskSuggestion, DeadlineId, DormantDeadlines(db, sc)))
    case Deadline => From(k, 4, NoiseDeadlines(db, sc)) + From(k, 13, DormantDeadlines(db, sc))
    case DraftAttachment => From(k, 5, Pointing(db, DraftAttachment, DraftId, NoiseDrafts(db, sc)))
    case Petition => From(k, 6, Pointing(db, Petition, DraftId, NoiseDrafts(db, sc))) + From(k, 15, Pointing(db, Petition, CourtRecordId, sc.dormant))
    case Review => From(k, 7, Pointing(db, Review, DraftId, NoiseDrafts(db, sc)))
    case Draft => From(k, 8, NoiseDrafts(db, sc))
    case Intimation => From(k, 9, sc.noise)
    case Chunk => From(k, 18, Pointing(db, Chunk, DocumentId, DormantDocuments(db, sc)))
    case Document => From(k, 19, DormantDocuments(db, sc))
    case DocketEntry => From(k, 20, Pointing(db, DocketEntry, CourtRecordId, sc.dormant))
    case PartyCounsel => From(k, 22, Pointing(db, PartyCounsel, PartyId, EmptiedParties(db, sc)))
    case Party => From(k, 23, EmptiedParties(db, sc))
    case CaseLink => From(k, 24, DormantLinks(db, sc))
    case SyncRun => {}
    case CourtRecord => From(k, 26, sc.dormant)
    case CourtCase => From(k, 29, sc.emptied)
  }

  function ClearedInto(sc: Scope, t: Table): set<Id> {
    if t == SyncRun then sc.dormant else sc.emptied
  }

  type Gone = Table -> set<Id>
  type Cleared = (Table, Column) -> bool

  function Scrubbed(r: Row, t: Table, cl: Cleared, sc: Scope): Row {
    r.(refs := map c | c in r.refs && !(cl(t, c) && r.refs[c] in ClearedInto(sc, t)) :: r.refs[c])
  }

  /** A table without the rows that are gone and the links that are cleared. */
  function Kept(rows: map<Id, Row>, t: Table, gone: set<Id>, cl: Cleared, sc: Scope): map<Id, Row> {
    map id | id in rows && id !in gone :: Scrubbed(rows[id], t, cl, sc)
  }

  ghost predicate Like(db0: Db, sc: Scope, g: Gone, cl: Cleared, db: Db) {
    forall t :: Rows(db, t) == Kept(Rows(db0, t), t, g(t), cl, sc)
  }

  // ---- One statement ----

  lemma NothingScrubbed(rows: map<Id, Row>, t: Table, cl: Cleared, sc: Scope)
    requires forall c :: !cl(t, c)
    ensures Kept(rows, t, {}, cl, sc) == rows
  {
    forall id | id in rows ensures Scrubbed(rows[id], t, cl, sc) == rows[id] {
      assert Scrubbed(rows[id], t, cl, sc).refs == rows[id].refs;
    }
  }

  lemma KeptPoints(rows: map<Id, Row>, t: Table, gone: set<Id>, cl: Cleared, sc: Scope, id: Id, c: Column, ids: set<Id>)
    requires id in Kept(rows, t, gone, cl, sc)
    ensures id in rows && id !in gone
    ensures Points(Kept(rows, t, gone, cl, sc)[id], c, ids) ==> Points(rows[id], c, ids)
    ensures !cl(t, c) ==> Points(Kept(rows, t, gone, cl, sc)[id], c, ids) == Points(rows[id], c, ids)
    ensures cl(t, c) && ids <= ClearedInto(sc, t) ==> !Points(Kept(rows, t, gone, cl, sc)[id], c, ids)
  {
  }

  /** What still points somewhere is what pointed there and is still here. */
  lemma StillPointing(db0: Db, sc: Scope, g: Gone, cl: Cleared, db: Db, t: Table, c: Column, ids: set<Id>)
    requires Like(db0, sc, g, cl, db) && !cl(t, c)
    ensures Pointing(db, t, c, ids) == Pointing(db0, t, c, ids) - g(t)
  {
    assert Rows(db, t) == Kept(Rows(db0, t), t, g(t), cl, sc);
    forall id ensures id in Pointing(db, t, c, ids) <==> id in Pointing(db0, t, c, ids) && id !in g(t) {
      if id in Rows(db, t) {
        KeptPoints(Rows(db0, t), t, g(t), cl, sc, id, c, ids);
      }
    }
  }

  /** Deleting `ids` from `t` leaves nothing that refers to them. */
  ghost predicate Unreferenced(db0: Db, sc: Scope, g: Gone, cl: Cleared, t: Table, ids: set<Id>) {
    forall u, c | Parent(u, c) == Some(t) ::
      if cl(u, c) then ids <= ClearedInto(sc, u) else Pointing(db0, u, c, ids) <= g(u)
  }

  /** From `g` to `g'` only `ids` of `t` are lost. */
  ghost predicate OnlyLoses(g: Gone, g': Gone, t: Table, ids: set<Id>) {
    g'(t) == g(t) + ids && forall u | u != t :: g'(u) == g(u)
  }

  lemma DeleteStep(db0: Db, sc: Scope, g: Gone, g': Gone, cl: Cleared, db: Db, t: Table, cond: Cond, ids: set<Id>)
    requires Like(db0, sc, g, cl, db)
    requires Members(db, sc, Select(t, cond)) == ids - g(t)
    requires OnlyLoses(g, g', t, ids) && Unreferenced(db0, sc, g', cl, t, ids)
    ensures Exec(db, sc, Delete(t, cond)).Ok?
    ensures Like(db0, sc, g', cl, Exec(db, sc, Delete(t, cond)).value.0)
    ensures Exec(db, sc, Delete(t, cond)).value.1 == |ids - g(t)|
  {
    var doomed := ids - g(t);
    var gone := db[t := Rows(db, t) - doomed];
    forall u ensures Rows(gone, u) == Kept(Rows(db0, u), u, g'(u), cl, sc) {
      assert Rows(db, u) == Kept(Rows(db0, u), u, g(u), cl, sc);
    }
    forall u, c, id | Parent(u, c) == Some(t) && id in Rows(gone, u)
      ensures !Points(Rows(gone, u)[id], c, doomed)
    {
      assert Rows(gone, u) == Kept(Rows(db0, u), u, g'(u), cl, sc);
      KeptPoints(Rows(db0, u), u, g'(u), cl, sc, id, c, doomed);
      assert id !in Pointing(db0, u, c, ids) || cl(u, c);
    }
    NothingSwept(db, t, doomed, gone);
  }

  lemma NothingSwept(db: Db, t: Table, ids: set<Id>, gone: Db)
    requires gone == db[t := Rows(db, t) - ids]
    requires forall u, c, id | Parent(u, c) == Some(t) && id in Rows(gone, u) :: !Points(Rows(gone, u)[id], c, ids)
    ensures forall u :: Rows(Removed(db, t, ids), u) == Rows(gone, u)
    ensures !Refused(Removed(db, t, ids), t, ids)
  {
    forall u ensures Rows(Removed(db, t, ids), u) == Rows(gone, u) {
      forall id ensures id !in Orphans(gone, t, ids, u) {
        assert forall c | Parent(u, c) == Some(t) && id in Rows(gone, u) :: !Points(Rows(gone, u)[id], c, ids);
      }
      assert Orphans(gone, t, ids, u) == {};
    }
  }

  /** A row that stays refers to one of `ids` through a key that refuses: the statement fails. */
  lemma DeleteRefused(db0: Db, sc: Scope, g: Gone, cl: Cleared, db: Db, t: Table, cond: Cond, ids: set<Id>, u: Table, c: Column, id: Id)
    requires Like(db0, sc, g, cl, db)
    requires Members(db, sc, Select(t, cond)) == ids - g(t)
    requires Parent(u, c) == Some(t) && !cl(u, c) && forall d :: !(Cascades(u, d) && Parent(u, d) == Some(t))
    requires id in Pointing(db0, u, c, ids - g(t)) && id !in g(u) && (u == t ==> id !in ids)
    ensures Exec(db, sc, Delete(t, cond)).Err?
  {
    var doomed := ids - g(t);
    var gone := db[t := Rows(db, t) - doomed];
    assert Rows(db, u) == Kept(Rows(db0, u), u, g(u), cl, sc);
    KeptPoints(Rows(db0, u), u, g(u), cl, sc, id, c, doomed);
    assert id in Rows(gone, u) && Orphans(gone, t, doomed, u) == {};
    assert id in Rows(Removed(db, t, doomed), u) && Points(Rows(Removed(db, t, doomed), u)[id], c, doomed);
  }

  lemma ScrubsOneMore(r: Row, t: Table, cl: Cleared, cl': Cleared, sc: Scope, c: Column)
    requires !cl(t, c) && cl'(t, c) && forall d | d != c :: cl'(t, d) == cl(t, d)
    ensures var s := Scrubbed(r, t, cl, sc);
            Scrubbed(r, t, cl', sc) == if Points(s, c, ClearedInto(sc, t)) then s.(refs := s.refs - {c}) else s
  {
    var s := Scrubbed(r, t, cl, sc);
    if Points(s, c, ClearedInto(sc, t)) {
      assert Scrubbed(r, t, cl', sc).refs == s.refs - {c};
    } else {
      assert Scrubbed(r, t, cl', sc).refs == s.refs;
    }
  }

  lemma ScrubsTheSame(rows: map<Id, Row>, t: Table, gone: set<Id>, cl: Cleared, cl': Cleared, sc: Scope)
    requires forall d :: cl'(t, d) == cl(t, d)
    ensures Kept(rows, t, gone, cl', sc) == Kept(rows, t, gone, cl, sc)
  {
    forall id | id in rows ensures Scrubbed(rows[id], t, cl', sc) == Scrubbed(rows[id], t, cl, sc) {
      assert Scrubbed(rows[id], t, cl', sc).refs == Scrubbed(rows[id], t, cl, sc).refs;
    }
  }

  lemma ClearedRows(rows: map<Id, Row>, t: Table, gone: set<Id>, cl: Cleared, cl': Cleared, sc: Scope, c: Column, hit: set<Id>)
    requires !cl(t, c) && cl'(t, c) && forall d | d != c :: cl'(t, d) == cl(t, d)
    requires var now := Kept(rows, t, gone, cl, sc);
             hit == set id | id in now && Points(now[id], c, ClearedInto(sc, t))
    ensures var now := Kept(rows, t, gone, cl, sc);
            (map id | id in now :: if id in hit then now[id].(refs := now[id].refs - {c}) else now[id]) == Kept(rows, t, gone, cl', sc)
  {
    forall id | id in rows {
      ScrubsOneMore(rows[id], t, cl, cl', sc, c);
    }
  }

  lemma SelectIn(db: Db, sc: Scope, t: Table, c: Column, e: Ids)
    ensures Members(db, sc, Select(t, In(c, e))) == Pointing(db, t, c, Members(db, sc, e))
  {
  }

  /** Clearing the links of a column into its scope set. */
  lemma ClearStep(db0: Db, sc: Scope, g: Gone, cl: Cleared, cl': Cleared, db: Db, t: Table, c: Column, e: Ids)
    requires Like(db0, sc, g, cl, db) && !cl(t, c)
    requires Members(db, sc, e) == ClearedInto(sc, t)
    requires cl'(t, c) && forall u, d | !(u == t && d == c) :: cl'(u, d) == cl(u, d)
    ensures Exec(db, sc, SetNull(t, c, e)).Ok?
    ensures Like(db0, sc, g, cl', Exec(db, sc, SetNull(t, c, e)).value.0)
    ensures Exec(db, sc, SetNull(t, c, e)).value.1 == |Pointing(db0, t, c, ClearedInto(sc, t)) - g(t)|
  {
    SelectIn(db, sc, t, c, e);
    StillPointing(db0, sc, g, cl, db, t, c, ClearedInto(sc, t));
    var hit := Pointing(db, t, c, ClearedInto(sc, t));
    var now := Rows(db, t);
    var cleared := map id | id in now :: if id in hit then now[id].(refs := now[id].refs - {c}) else now[id];
    assert Exec(db, sc, SetNull(t, c, e)) == Ok((db[t := cleared], |hit|));
    assert now == Kept(Rows(db0, t), t, g(t), cl, sc);
    ClearedRows(Rows(db0, t), t, g(t), cl, cl', sc, c, hit);
    ClearedLike(db0, sc, g, cl, cl', db, t, c, cleared);
  }

  lemma ClearedLike(db0: Db, sc: Scope, g: Gone, cl: Cleared, cl': Cleared, db: Db, t: Table, c: Column, cleared: map<Id, Row>)
    requires Like(db0, sc, g, cl, db)
    requires cl'(t, c) && forall u, d | !(u == t && d == c) :: cl'(u, d) == cl(u, d)
    requires cleared == Kept(Rows(db0, t), t, g(t), cl', sc)
    ensures Like(db0, sc, g, cl', db[t := cleared])
  {
    var after := db[t := cleared];
    forall u ensures Rows(after, u) == Kept(Rows(db0, u), u, g(u), cl', sc) {
      if u != t {
        ScrubsTheSame(Rows(db0, u), u, g(u), cl, cl', sc);
      }
    }
  }
}
