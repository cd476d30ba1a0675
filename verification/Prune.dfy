/** The retention pruner: three scope sets, then an ordered plan of statements in one
    transaction per tenant, which a dry run rolls back. */
module Prune {
  import opened Wrappers
  import opened SqlTables

  const EPOCH: int := 0

  /** The instants the two intervals reach back to: the midnight of the day 30 days ago, and
      12 months ago. */
  datatype Clock = Clock(noiseCut: int, dormantCut: int)

  /** Twelve months reach further back than thirty days, and not before 1970. */
  predicate Sensible(clock: Clock) {
    EPOCH < clock.dormantCut <= clock.noiseCut
  }

  // ---- The scope sets ----

  function Noise(db: Db, tenant: int, clock: Clock): set<Id> {
    set i | i in Rows(db, Intimation)
            && Rows(db, Intimation)[i].tenant == tenant
            && (Rows(db, Intimation)[i].kind == "COMUNICACAO" || Rows(db, Intimation)[i].at < clock.noiseCut)
  }

  /** The rows of `t` that point at `ref` through `c`. */
  function Under(db: Db, t: Table, c: Column, ref: Id): set<Id> {
    set id | id in Rows(db, t) && c in Rows(db, t)[id].refs && Rows(db, t)[id].refs[c] == ref
  }

  /** COALESCE(max(at), epoch) < cut over some rows of a table. */
  predicate NewestBefore(rows: map<Id, Row>, ids: set<Id>, cut: int)
    requires ids <= rows.Keys
  {
    if ids == {} then EPOCH < cut else forall i | i in ids :: rows[i].at < cut
  }

  /** No living signal since the cut: neither a movement nor an intimation that is not noise. */
  predicate Dormant(db: Db, noise: set<Id>, record: Id, clock: Clock) {
    && NewestBefore(Rows(db, DocketEntry), Under(db, DocketEntry, CourtRecordId, record), clock.dormantCut)
    && NewestBefore(Rows(db, Intimation), Under(db, Intimation, CourtRecordId, record) - noise, clock.dormantCut)
  }

  function DormantRecords(db: Db, tenant: int, noise: set<Id>, clock: Clock): set<Id> {
    set r | r in Rows(db, CourtRecord) && Rows(db, CourtRecord)[r].tenant == tenant && Dormant(db, noise, r, clock)
  }

  function EmptiedCases(db: Db, tenant: int, noise: set<Id>, dormant: set<Id>): set<Id> {
    set k | k in Rows(db, CourtCase) && Rows(db, CourtCase)[k].tenant == tenant
            && Under(db, CourtRecord, CaseId, k) * dormant != {}
            && Under(db, CourtRecord, CaseId, k) <= dormant
            && Under(db, Intimation, CaseId, k) <= noise
  }

  function BuildScopeSets(db: Db, tenant: int, clock: Clock): Scope {
    var noise := Noise(db, tenant, clock);
    var dormant := DormantRecords(db, tenant, noise, clock);
    Scope(noise, dormant, EmptiedCases(db, tenant, noise, dormant))
  }

  // ---- The plan ----

  /** The tally: rows deleted of a table, or links cleared. */
  datatype Field = Deleted(table: Table) | SyncRunsCleared | CaseDraftLinksCleared

  datatype Step = Step(field: Option<Field>, stmt: Stmt)

  const NOISE_DEADLINES := Select(Deadline, In(NotificationId, DelIntim))
  const FROM_NOISE := Or(In(IntimationId, DelIntim), In(DeadlineId, NOISE_DEADLINES))
  const NOISE_TASKS := Select(Task, FROM_NOISE)
  const NOISE_DRAFTS := Select(Draft, In(IntimationId, DelIntim))
  const OF_DORMANT := In(CourtRecordId, DelCr)
  const DORMANT_INTIMATIONS := Select(Intimation, OF_DORMANT)
  const DORMANT_DRAFTS := Select(Draft, In(IntimationId, DORMANT_INTIMATIONS))

  function Counted(t: Table, cond: Cond): Step {
    Step(Some(Deleted(t)), Delete(t, cond))
  }

  /** Child first. Deleting the chunks and clearing the merge links are not tallied. */
  const PLAN: seq<Step> := [
    Counted(TaskItem, In(TaskId, NOISE_TASKS)),
    Counted(Task, FROM_NOISE),
    Counted(TaskSuggestion, FROM_NOISE),
    Counted(Deadline, In(NotificationId, DelIntim)),
    Counted(DraftAttachment, In(DraftId, NOISE_DRAFTS)),
    Counted(Petition, In(DraftId, NOISE_DRAFTS)),
    Counted(Review, In(DraftId, NOISE_DRAFTS)),
    Counted(Draft, In(IntimationId, DelIntim)),
    Counted(Intimation, IdIn(DelIntim)),
    Counted(TaskItem, In(TaskId, Select(Task, OF_DORMANT))),
    Counted(Task, OF_DORMANT),
    Counted(TaskSuggestion, In(DeadlineId, Select(Deadline, OF_DORMANT))),
    Counted(Deadline, OF_DORMANT),
    Counted(DraftAttachment, In(DraftId, DORMANT_DRAFTS)),
    Counted(Petition, OF_DORMANT),
    Counted(Review, In(DraftId, DORMANT_DRAFTS)),
    Counted(Draft, In(IntimationId, DORMANT_INTIMATIONS)),
    Step(None, Delete(Chunk, In(DocumentId, Select(Document, OF_DORMANT)))),
    Counted(Document, OF_DORMANT),
    Counted(DocketEntry, OF_DORMANT),
    Counted(Intimation, OF_DORMANT),
    Counted(PartyCounsel, In(PartyId, Select(Party, In(CaseId, DelCase)))),
    Counted(Party, In(CaseId, DelCase)),
    Counted(CaseLink, Or(In(FromRecordId, DelCr), In(ToRecordId, DelCr))),
    Step(Some(SyncRunsCleared), SetNull(SyncRun, CourtRecordId, DelCr)),
    Counted(CourtRecord, IdIn(DelCr)),
    Step(Some(CaseDraftLinksCleared), SetNull(Draft, CaseId, DelCase)),
    Step(None, SetNull(CourtCase, MergedIntoId, DelCase)),
    Counted(CourtCase, IdIn(DelCase))
  ]

  type Counts = map<Field, nat>

  function Tally(c: Counts, f: Field): nat {
    if f in c then c[f] else 0
  }

  function Tallied(c: Counts, f: Option<Field>, rows: nat): Counts {
    if f.None? then c else c[f.value := Tally(c, f.value) + rows]
  }

  /** The steps in order; the first violation aborts the transaction. */
  function Run(db: Db, sc: Scope, steps: seq<Step>): Result<(Db, Counts), Fault> {
    if steps == [] then Ok((db, map[]))
    else
      var last := steps[|steps| - 1];
      match Run(db, sc, steps[..|steps| - 1])
      case Err(e) => Err(e)
      case Ok(before) =>
        match Exec(before.0, sc, last.stmt)
        case Err(e) => Err(e)
        case Ok(after) => Ok((after.0, Tallied(before.1, last.field, after.1)))
  }

  function PruneTx(db: Db, tenant: int, clock: Clock): Result<(Db, Counts), Fault> {
    Run(db, BuildScopeSets(db, tenant, clock), PLAN)
  }

  lemma ErrStays(db: Db, sc: Scope, steps: seq<Step>, n: nat)
    requires n <= |steps| && Run(db, sc, steps[..n]).Err?
    ensures Run(db, sc, steps) == Run(db, sc, steps[..n])
    decreases |steps| - n
  {
    if n < |steps| {
      assert steps[..n + 1][..n] == steps[..n];
      ErrStays(db, sc, steps, n + 1);
    } else {
      assert steps[..n] == steps;
    }
  }

  // ---- The same, run on the database ----

  class Database {
    var tables: Db

    constructor (db: Db)
      ensures tables == db
    {
      tables := db;
    }

    /** One statement in the open transaction. */
    method Execute(sc: Scope, stmt: Stmt) returns (r: Result<nat, Fault>)
      modifies this
      ensures match Exec(old(tables), sc, stmt)
              case Err(e) => r == Err(e) && tables == old(tables)
              case Ok(after) => r == Ok(after.1) && tables == after.0
    {
      match stmt
      case Delete(t, cond) =>
        var ids := Members(tables, sc, Select(t, cond));
        var after := Removed(tables, t, ids);
        if Refused(after, t, ids) {
          return Err(ForeignKeyViolation);
        }
        tables := after;
        r := Ok(|ids|);
      case SetNull(t, c, e) =>
        var hit := Members(tables, sc, Select(t, In(c, e)));
        tables := tables[t := map id | id in Rows(tables, t) ::
          if id in hit then Rows(tables, t)[id].(refs := Rows(tables, t)[id].refs - {c}) else Rows(tables, t)[id]];
        r := Ok(|hit|);
    }

    method ExecuteAll(sc: Scope, steps: seq<Step>) returns (r: Result<Counts, Fault>)
      modifies this
      ensures match Run(old(tables), sc, steps)
              case Err(e) => r == Err(e)
              case Ok(done) => r == Ok(done.1) && tables == done.0
    {
      var c: Counts := map[];
      ghost var start := tables;
      for i := 0 to |steps|
        invariant Run(start, sc, steps[..i]) == Ok((tables, c))
      {
        assert steps[..i + 1][..i] == steps[..i];
        var s := steps[i];
        var affected := Execute(sc, s.stmt);
        if affected.Err? {
          ErrStays(start, sc, steps, i + 1);
          return Err(affected.error);
        }
        if s.field.Some? {
          c := c[s.field.value := Tally(c, s.field.value) + affected.value];
        }
      }
      assert steps[..|steps|] == steps;
      r := Ok(c);
    }

    method PruneInTx(tenant: int, clock: Clock) returns (r: Result<Counts, Fault>)
      modifies this
      ensures match PruneTx(old(tables), tenant, clock)
              case Err(e) => r == Err(e)
              case Ok(done) => r == Ok(done.1) && tables == done.0
    {
      var sc := BuildScopeSets(tables, tenant, clock);
      r := ExecuteAll(sc, PLAN);
    }

    /** The whole prune in one unit of work. A dry run hands out the tally and rolls back. */
    method CleanTenant(tenant: int, clock: Clock, dryRun: bool) returns (r: Result<Counts, Fault>)
      modifies this
      ensures match PruneTx(old(tables), tenant, clock)
              case Err(e) => r == Err(e) && tables == old(tables)
              case Ok(done) => r == Ok(done.1) && tables == if dryRun then old(tables) else done.0
    {
      var before := tables;
      r := PruneInTx(tenant, clock);
      if r.Err? || dryRun {
        tables := before;
      }
    }
  }
}
