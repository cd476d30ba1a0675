/** Landing a sync window's court records under the tenant's write lock: record by record
    (find or create, then mark synced) and as a handful of set-based statements. */
module CourtRecordUpsert {
  import opened Wrappers

  type Instant = int

  /** The natural key of a record within its tenant. */
  datatype Key = Key(cnj: string, degree: string)

  /** One discovered record; an empty text is one the source did not disclose. */
  datatype Param = Param(
    cnj: string, degree: string, court: string, classOf: string, subject: string, judgingBody: string,
    completeness: real, nextSyncAt: Instant, syncRunId: int)

  /** A row of court_record; an empty text is NULL, `active` says that lifecycle is ACTIVE. */
  datatype Row = Row(
    id: nat, caseId: nat, court: string, classOf: string, subject: string, judgingBody: string,
    completeness: real, nextSyncAt: Option<Instant>, syncRunId: int, active: bool)

  /** The tenant's rows under their UNIQUE key, its cases, and the identifiers given out so far. */
  datatype Ledger = Ledger(records: map<Key, Row>, cases: set<nat>, nextRecord: nat, nextCase: nat)

  /** What one input comes back with: the record it resolved to, or the refused ceiling. */
  datatype Outcome = Resolved(id: nat, caseId: nat) | Blocked

  function KeyOf(p: Param): Key {
    Key(p.cnj, p.degree)
  }

  function Coalesce(new_: string, prior: string): string {
    if new_ == "" then prior else new_
  }

  predicate Active(records: map<Key, Row>, k: Key) {
    k in records && records[k].active
  }

  function ActiveKeys(records: map<Key, Row>): set<Key> {
    set k | k in records && records[k].active
  }

  // ---- Record by record ----

  /** The row form overwrites the completeness, whatever it was. */
  function Synced(r: Row, p: Param): Row {
    r.(completeness := p.completeness, nextSyncAt := Some(p.nextSyncAt), judgingBody := Coalesce(p.judgingBody, r.judgingBody))
  }

  function Created(t: Ledger, p: Param): Row {
    Row(t.nextRecord, t.nextCase, p.court, p.classOf, p.subject, p.judgingBody, p.completeness, None, p.syncRunId, true)
  }

  function FindOrCreate(t: Ledger, limit: int, p: Param): (Ledger, Outcome, nat) {
    var k := KeyOf(p);
    if k in t.records then
      (t.(records := t.records[k := Synced(t.records[k], p)]), Resolved(t.records[k].id, t.records[k].caseId), 0)
    else if |ActiveKeys(t.records)| >= limit then (t, Blocked, 0)
    else
      (Ledger(t.records[k := Synced(Created(t, p), p)], t.cases + {t.nextCase}, t.nextRecord + 1, t.nextCase + 1),
       Resolved(t.nextRecord, t.nextCase), 1)
  }

  /** The loop the batch replaces: every input in order, a refused one skipped. */
  function OneByOne(t: Ledger, limit: int, ps: seq<Param>): (Ledger, seq<Outcome>, nat) {
    if ps == [] then (t, [], 0)
    else
      var before := OneByOne(t, limit, ps[..|ps| - 1]);
      var last := FindOrCreate(before.0, limit, ps[|ps| - 1]);
      (last.0, before.1 + [last.1], before.2 + last.2)
  }

  // ---- As a set ----

  /** The distinct keys of the inputs, in the order they first appear. */
  function FirstSeen(ps: seq<Param>): seq<Key> {
    if ps == [] then []
    else
      var before := FirstSeen(ps[..|ps| - 1]);
      var k := KeyOf(ps[|ps| - 1]);
      if k in before then before else before + [k]
  }

  function Without(keys: seq<Key>, known: set<Key>): seq<Key> {
    if keys == [] then []
    else
      var before := Without(keys[..|keys| - 1], known);
      var k := keys[|keys| - 1];
      if k in known then before else before + [k]
  }

  function NewKeys(t: Ledger, ps: seq<Param>): seq<Key> {
    Without(FirstSeen(ps), t.records.Keys)
  }

  /** The one input that speaks for a key: the last. */
  function Latest(ps: seq<Param>): map<Key, Param> {
    if ps == [] then map[] else Latest(ps[..|ps| - 1])[KeyOf(ps[|ps| - 1]) := ps[|ps| - 1]]
  }

  /** How many creates the ceiling still allows. */
  function Remaining(t: Ledger, limit: int): nat {
    var left := limit - |ActiveKeys(t.records)|;
    if left < 0 then 0 else left
  }

  function Admitted(t: Ledger, limit: int, ps: seq<Param>): seq<Key> {
    var keys := NewKeys(t, ps);
    if |keys| > Remaining(t, limit) then keys[..Remaining(t, limit)] else keys
  }

  /** The set form never lowers a completeness and lets a correction of class or subject in. */
  function Resynced(r: Row, p: Param): Row {
    r.(completeness := if p.completeness >= r.completeness then p.completeness else r.completeness,
       nextSyncAt := Some(p.nextSyncAt), judgingBody := Coalesce(p.judgingBody, r.judgingBody),
       classOf := Coalesce(p.classOf, r.classOf), subject := Coalesce(p.subject, r.subject))
  }

  function Inserted(id: nat, caseId: nat, p: Param): Row {
    Row(id, caseId, p.court, p.classOf, p.subject, p.judgingBody, p.completeness, Some(p.nextSyncAt), p.syncRunId, true)
  }

  /** The records after the creates: the i-th admitted key gets the i-th fresh id and case. */
  function WithInserted(t: Ledger, keys: seq<Key>, latest: map<Key, Param>): Ledger
    requires forall k | k in keys :: k in latest
  {
    if keys == [] then t
    else
      var before := WithInserted(t, keys[..|keys| - 1], latest);
      var k := keys[|keys| - 1];
      Ledger(before.records[k := Inserted(before.nextRecord, before.nextCase, latest[k])],
             before.cases + {before.nextCase}, before.nextRecord + 1, before.nextCase + 1)
  }

  function WithResynced(records: map<Key, Row>, keys: set<Key>, latest: map<Key, Param>): map<Key, Row>
    requires keys <= latest.Keys
  {
    map k | k in records :: if k in keys then Resynced(records[k], latest[k]) else records[k]
  }

  ghost predicate Distinct(keys: seq<Key>) {
    forall i, j | 0 <= i < j < |keys| :: keys[i] != keys[j]
  }

  function SetOf(keys: seq<Key>): set<Key> {
    set k | k in keys
  }

  /** What the set form makes of the ledger. */
  function AsASet(t: Ledger, limit: int, ps: seq<Param>): Ledger
  {
    var latest := Latest(ps);
    LatestCovers(t, limit, ps);
    var grown := WithInserted(t, Admitted(t, limit, ps), latest);
    grown.(records := WithResynced(grown.records, latest.Keys * t.records.Keys, latest))
  }

  /** Its outcomes, read off the ledger it leaves. */
  function OutcomeOf(after: Ledger, p: Param): Outcome {
    var k := KeyOf(p);
    if k in after.records then Resolved(after.records[k].id, after.records[k].caseId) else Blocked
  }

  // ---- Keys, in order of appearance ----

  lemma {:induction false} FirstSeenLaw(ps: seq<Param>)
    ensures SetOf(FirstSeen(ps)) == Latest(ps).Keys
    ensures Distinct(FirstSeen(ps))
  {
    if ps != [] {
      FirstSeenLaw(ps[..|ps| - 1]);
      var before, k := FirstSeen(ps[..|ps| - 1]), KeyOf(ps[|ps| - 1]);
      assert forall x :: x in before + [k] <==> x in before || x == k;
      assert k in before <==> k in SetOf(before);
    }
  }

  lemma {:induction false} WithoutLaw(keys: seq<Key>, known: set<Key>)
    requires Distinct(keys)
    ensures var rest := Without(keys, known);
            && (forall k :: k in rest <==> k in keys && k !in known)
            && Distinct(rest)
  {
    if keys != [] {
      var n := |keys| - 1;
      WithoutLaw(keys[..n], known);
      assert forall x :: x in keys <==> x in keys[..n] || x == keys[n];
      assert keys[n] !in keys[..n];
    }
  }

  lemma LatestCovers(t: Ledger, limit: int, ps: seq<Param>)
    ensures forall k | k in Admitted(t, limit, ps) :: k in Latest(ps) && k !in t.records
    ensures Distinct(Admitted(t, limit, ps))
  {
    FirstSeenLaw(ps);
    WithoutLaw(FirstSeen(ps), t.records.Keys);
    var keys := NewKeys(t, ps);
    assert forall k | k in Admitted(t, limit, ps) :: k in keys;
    assert forall k | k in keys :: k in SetOf(FirstSeen(ps));
  }

  lemma NewKeysGrow(t: Ledger, ps: seq<Param>, p: Param)
    ensures var k, before := KeyOf(p), NewKeys(t, ps);
            NewKeys(t, ps + [p]) == if k !in t.records && k !in before then before + [k] else before
  {
    var all := ps + [p];
    assert all[..|all| - 1] == ps;
    var k, seen := KeyOf(p), FirstSeen(ps);
    FirstSeenLaw(ps);
    WithoutLaw(seen, t.records.Keys);
    if k !in seen {
      assert (seen + [k])[..|seen|] == seen;
    }
  }

  /** One more input admits its key exactly when the key is new and room is left; a new key
      that was seen and not admitted stays refused. */
  lemma AdmittedGrows(t: Ledger, limit: int, ps: seq<Param>, p: Param)
    ensures var k, before, after := KeyOf(p), Admitted(t, limit, ps), Admitted(t, limit, ps + [p]);
            && after == (if k !in t.records && k !in before && |before| < Remaining(t, limit) then before + [k] else before)
            && |before| <= Remaining(t, limit)
  {
    NewKeysGrow(t, ps, p);
  }
}
