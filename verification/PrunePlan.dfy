/** The plan, followed statement by statement from one closed form to the next. */
module PrunePlan {
  import opened Wrappers
  import opened SqlTables
  import opened Prune
  import opened PruneSteps

  /** What the three queries guarantee of the scope sets: they name rows, a dormant record has
      no intimation that is not noise, and nothing alive hangs off an emptied case. */
  ghost predicate ScopeOk(db: Db, sc: Scope) {
    && sc.noise <= Rows(db, Intimation).Keys && sc.dormant <= Rows(db, CourtRecord).Keys && sc.emptied <= Rows(db, CourtCase).Keys
    && Pointing(db, Intimation, CourtRecordId, sc.dormant) <= sc.noise
    && Pointing(db, CourtRecord, CaseId, sc.emptied) <= sc.dormant
    && Pointing(db, Intimation, CaseId, sc.emptied) <= sc.noise
  }

  ghost function GoneBy(db: Db, sc: Scope, k: nat): Gone {
    t => GoneAfter(db, sc, k, t)
  }

  /** How many of the three columns the first `k` steps have cleared. */
  function Clears(k: nat): nat {
    if k >= 28 then 3 else if k >= 27 then 2 else if k >= 25 then 1 else 0
  }

  /** Which links no longer point into a scope set after `n` columns were cleared. */
  function ClearedBy(n: nat): Cleared {
    (t, c) => (t == SyncRun && c == CourtRecordId && n >= 1) || (t == Draft && c == CaseId && n >= 2)
              || (t == CourtCase && c == MergedIntoId && n >= 3)
  }

  function RunsCleared(db: Db, sc: Scope): set<Id> { Pointing(db, SyncRun, CourtRecordId, sc.dormant) }

  function DraftsCleared(db: Db, sc: Scope): set<Id> { Pointing(db, Draft, CaseId, sc.emptied) - NoiseDrafts(db, sc) }

  ghost predicate TalliesGone(g: Gone, c: Counts) {
    forall t :: Tally(c, Deleted(t)) == if t == Chunk then 0 else |g(t)|
  }

  ghost function RunsClearedBy(db: Db, sc: Scope, k: nat): nat {
    if k >= 25 then |RunsCleared(db, sc)| else 0
  }

  ghost function DraftsClearedBy(db: Db, sc: Scope, k: nat): nat {
    if k >= 27 then |DraftsCleared(db, sc)| else 0
  }

  /** The first `k` steps went through, left exactly the closed form and tallied it. */
  ghost predicate At(db: Db, sc: Scope, steps: seq<Step>, k: nat)
    requires k <= |steps|
  {
    Reached(db, sc, steps[..k], GoneBy(db, sc, k), ClearedBy(Clears(k)), RunsClearedBy(db, sc, k), DraftsClearedBy(db, sc, k))
  }

  function Now(db: Db, sc: Scope, steps: seq<Step>, k: nat): Db
    requires k <= |steps|
  {
    var r := Run(db, sc, steps[..k]);
    if r.Ok? then r.value.0 else db
  }

  lemma RunStep(db: Db, sc: Scope, steps: seq<Step>, k: nat)
    requires k < |steps| && Run(db, sc, steps[..k]).Ok?
    ensures var before := Run(db, sc, steps[..k]).value;
            Run(db, sc, steps[..k + 1])
            == match Exec(before.0, sc, steps[k].stmt)
               case Err(e) => Err(e)
               case Ok(after) => Ok((after.0, Tallied(before.1, steps[k].field, after.1)))
  {
    var upTo := steps[..k + 1];
    assert upTo[..|upTo| - 1] == steps[..k] && upTo[|upTo| - 1] == steps[k];
  }

  function FieldOf(t: Table): Option<Field> {
    if t == Chunk then None else Some(Deleted(t))
  }

  ghost predicate Reached(db: Db, sc: Scope, steps: seq<Step>, g: Gone, cl: Cleared, runs: nat, drafts: nat) {
    var r := Run(db, sc, steps);
    && r.Ok? && Like(db, sc, g, cl, r.value.0) && TalliesGone(g, r.value.1)
    && Tally(r.value.1, SyncRunsCleared) == runs && Tally(r.value.1, CaseDraftLinksCleared) == drafts
  }

  lemma DeletesNext(db: Db, sc: Scope, steps: seq<Step>, k: nat, g: Gone, g': Gone, cl: Cleared, runs: nat, drafts: nat,
                    t: Table, cond: Cond, ids: set<Id>)
    requires k < |steps| && Reached(db, sc, steps[..k], g, cl, runs, drafts)
    requires steps[k] == Step(FieldOf(t), Delete(t, cond))
    requires Members(Run(db, sc, steps[..k]).value.0, sc, Select(t, cond)) == ids - g(t)
    requires OnlyLoses(g, g', t, ids) && Unreferenced(db, sc, g', cl, t, ids)
    ensures Reached(db, sc, steps[..k + 1], g', cl, runs, drafts)
  {
    hide Like, Unreferenced;
    RunStep(db, sc, steps, k);
    var before := Run(db, sc, steps[..k]).value;
    DeleteStep(db, sc, g, g', cl, before.0, t, cond, ids);
    DeletesTally(g, g', before.1, t, ids);
  }

  /** Step k + 1 takes `ids` out of `t` and nothing that stays refers to them. */
  ghost predicate Loses(db: Db, sc: Scope, k: nat, t: Table, ids: set<Id>) {
    && OnlyLoses(GoneBy(db, sc, k), GoneBy(db, sc, k + 1), t, ids)
    && Unreferenced(db, sc, GoneBy(db, sc, k + 1), ClearedBy(Clears(k)), t, ids)
  }

  /** Step k + 1 deletes `ids` of `t`. */
  lemma Deletes(db: Db, sc: Scope, steps: seq<Step>, k: nat, t: Table, cond: Cond, ids: set<Id>)
    requires k < |steps| && At(db, sc, steps, k)
    requires steps[k] == Step(FieldOf(t), Delete(t, cond))
    requires Members(Now(db, sc, steps, k), sc, Select(t, cond)) == ids - GoneAfter(db, sc, k, t)
    requires Loses(db, sc, k, t, ids) && Clears(k + 1) == Clears(k)
    ensures At(db, sc, steps, k + 1)
  {
    DeletesNext(db, sc, steps, k, GoneBy(db, sc, k), GoneBy(db, sc, k + 1), ClearedBy(Clears(k)),
                RunsClearedBy(db, sc, k), DraftsClearedBy(db, sc, k), t, cond, ids);
  }

  lemma DeletesTally(g: Gone, g': Gone, c: Counts, t: Table, ids: set<Id>)
    requires TalliesGone(g, c) && OnlyLoses(g, g', t, ids)
    ensures TalliesGone(g', Tallied(c, FieldOf(t), |ids - g(t)|))
  {
    UnionSize(g(t), ids);
  }

  lemma UnionSize(a: set<Id>, b: set<Id>)
    ensures |a + b| == |a| + |b - a|
  {
    assert a + b == a + (b - a);
  }

  // ---- The sub-selects, midway ----

  /** A select on one column of a table sees what is left of it. */
  lemma Sees(db: Db, sc: Scope, steps: seq<Step>, k: nat, t: Table, c: Column, e: Ids)
    requires k <= |steps| && At(db, sc, steps, k) && !ClearedBy(Clears(k))(t, c)
    ensures Members(Now(db, sc, steps, k), sc, Select(t, In(c, e)))
            == Pointing(db, t, c, Members(Now(db, sc, steps, k), sc, e)) - GoneAfter(db, sc, k, t)
  {
    SelectIn(Now(db, sc, steps, k), sc, t, c, e);
    StillPointing(db, sc, GoneBy(db, sc, k), ClearedBy(Clears(k)), Now(db, sc, steps, k), t, c, Members(Now(db, sc, steps, k), sc, e));
  }

  lemma Start(db: Db, sc: Scope, steps: seq<Step>)
    ensures At(db, sc, steps, 0)
  {
    assert steps[..0] == [];
    forall t ensures Rows(db, t) == Kept(Rows(db, t), t, GoneBy(db, sc, 0)(t), ClearedBy(0), sc) {
      NothingScrubbed(Rows(db, t), t, ClearedBy(0), sc);
    }
  }
}
