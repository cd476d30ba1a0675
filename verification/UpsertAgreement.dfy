/** How far the set form agrees with the record-by-record loop, for every ledger, ceiling and
    list of inputs, repeated keys included. */
module UpsertAgreement {
  import opened Wrappers
  import opened CourtRecordUpsert

  /** Fresh identifiers, in the order the keys were admitted. */
  ghost predicate Allotted(t: Ledger, admitted: seq<Key>, after: Ledger) {
    && after.records.Keys == t.records.Keys + SetOf(admitted)
    && after.nextRecord == t.nextRecord + |admitted| && after.nextCase == t.nextCase + |admitted|
    && (forall c :: c in after.cases <==> c in t.cases || t.nextCase <= c < t.nextCase + |admitted|)
    && (forall j | 0 <= j < |admitted| ::
          var r := after.records[admitted[j]];
          r.id == t.nextRecord + j && r.caseId == t.nextCase + j && r.active)
    && (forall k | k in t.records ::
          var r := after.records[k];
          r.id == t.records[k].id && r.caseId == t.records[k].caseId && r.active == t.records[k].active)
  }

  /** The schedule is the last input's; a row no input names is as it was. */
  ghost predicate Scheduled(t: Ledger, latest: map<Key, Param>, after: Ledger) {
    && (forall k | k in after.records && k in latest :: after.records[k].nextSyncAt == Some(latest[k].nextSyncAt))
    && (forall k | k in t.records && k !in latest :: k in after.records && after.records[k] == t.records[k])
  }

  ghost predicate Answered(after: Ledger, ps: seq<Param>, outcomes: seq<Outcome>) {
    |outcomes| == |ps| && forall i | 0 <= i < |ps| :: outcomes[i] == OutcomeOf(after, ps[i])
  }

  lemma LatestGrows(ps: seq<Param>, p: Param)
    ensures Latest(ps + [p]) == Latest(ps)[KeyOf(p) := p]
  {
    assert (ps + [p])[..|ps + [p]| - 1] == ps;
  }

  // ---- Record by record ----

  lemma ActiveGrows(t: Ledger, admitted: seq<Key>, after: Ledger)
    requires Allotted(t, admitted, after)
    requires forall k | k in admitted :: k !in t.records
    requires Distinct(admitted)
    ensures |ActiveKeys(after.records)| == |ActiveKeys(t.records)| + |admitted|
  {
    DistinctSize(admitted);
    forall k ensures k in ActiveKeys(after.records) <==> k in ActiveKeys(t.records) || k in SetOf(admitted) {
      Belongs(t, admitted, after, k);
    }
    assert ActiveKeys(after.records) == ActiveKeys(t.records) + SetOf(admitted);
    assert ActiveKeys(t.records) !! SetOf(admitted);
  }

  lemma Belongs(t: Ledger, admitted: seq<Key>, after: Ledger, k: Key)
    requires Allotted(t, admitted, after)
    ensures k in after.records <==> k in t.records || k in admitted
    ensures k in admitted ==> after.records[k].active
    ensures k in t.records ==> after.records[k].active == t.records[k].active
  {
    assert k in after.records <==> k in after.records.Keys;
    if k in admitted {
      var j :| 0 <= j < |admitted| && admitted[j] == k;
    }
  }

  /** Touching a row without giving it another identity. */
  lemma AllottedTouched(t: Ledger, admitted: seq<Key>, before: Ledger, k: Key, row: Row)
    requires Allotted(t, admitted, before) && k in before.records
    requires row.id == before.records[k].id && row.caseId == before.records[k].caseId && row.active == before.records[k].active
    ensures Allotted(t, admitted, before.(records := before.records[k := row]))
  {
    assert before.records[k := row].Keys == before.records.Keys;
  }

  lemma AllottedNext(t: Ledger, admitted: seq<Key>, before: Ledger, k: Key, row: Row)
    requires Allotted(t, admitted, before) && k !in before.records
    requires row.id == before.nextRecord && row.caseId == before.nextCase && row.active
    ensures Allotted(t, admitted + [k], Ledger(before.records[k := row], before.cases + {before.nextCase}, before.nextRecord + 1, before.nextCase + 1))
  {
    assert SetOf(admitted + [k]) == SetOf(admitted) + {k};
    forall j | 0 <= j < |admitted| ensures admitted[j] != k {
      Belongs(t, admitted, before, admitted[j]);
    }
    assert forall x | x in t.records :: x in before.records.Keys;
  }

  lemma {:induction false} DistinctSize(keys: seq<Key>)
    requires Distinct(keys)
    ensures |SetOf(keys)| == |keys|
  {
    if keys == [] {
      assert SetOf(keys) == {};
    } else {
      var n := |keys| - 1;
      DistinctSize(keys[..n]);
      assert forall x :: x in keys <==> x in keys[..n] || x == keys[n];
      assert SetOf(keys) == SetOf(keys[..n]) + {keys[n]};
    }
  }

  ghost predicate Followed(t: Ledger, limit: int, ps: seq<Param>, r: (Ledger, seq<Outcome>, nat)) {
    && Allotted(t, Admitted(t, limit, ps), r.0) && Scheduled(t, Latest(ps), r.0) && Answered(r.0, ps, r.1)
    && r.2 == |Admitted(t, limit, ps)|
    && (forall k | k in r.0.records && k in Latest(ps) :: r.0.records[k].completeness == Latest(ps)[k].completeness)
  }

  /** What the loop leaves, said without the loop. */
  lemma {:induction false} TheLoopFollowed(t: Ledger, limit: int, ps: seq<Param>)
    ensures Followed(t, limit, ps, OneByOne(t, limit, ps))
  {
    if ps == [] {
      assert SetOf(Admitted(t, limit, ps)) == {};
    } else {
      var n := |ps| - 1;
      TheLoopFollowed(t, limit, ps[..n]);
      assert ps == ps[..n] + [ps[n]];
      OneMoreFollowed(t, limit, ps[..n], ps[n], OneByOne(t, limit, ps[..n]));
    }
  }

  lemma OneMoreFollowed(t: Ledger, limit: int, ps: seq<Param>, p: Param, r: (Ledger, seq<Outcome>, nat))
    requires Followed(t, limit, ps, r)
    ensures var last := FindOrCreate(r.0, limit, p);
            Followed(t, limit, ps + [p], (last.0, r.1 + [last.1], r.2 + last.2))
  {
    var admitted := Admitted(t, limit, ps);
    AdmittedGrows(t, limit, ps, p);
    LatestCovers(t, limit, ps);
    ActiveGrows(t, admitted, r.0);
    Belongs(t, admitted, r.0, KeyOf(p));
    hide Allotted, Admitted, Scheduled, Answered, Latest;
    if KeyOf(p) in r.0.records {
      FoundFollowed(t, limit, ps, p, r);
    } else if |admitted| < Remaining(t, limit) {
      CreatedFollowed(t, limit, ps, p, r);
    } else {
      RefusedFollowed(t, limit, ps, p, r);
    }
  }

  lemma FoundFollowed(t: Ledger, limit: int, ps: seq<Param>, p: Param, r: (Ledger, seq<Outcome>, nat))
    requires Followed(t, limit, ps, r) && KeyOf(p) in r.0.records && Admitted(t, limit, ps + [p]) == Admitted(t, limit, ps)
    ensures var last := FindOrCreate(r.0, limit, p);
            Followed(t, limit, ps + [p], (last.0, r.1 + [last.1], r.2 + last.2))
  {
    hide Admitted, Latest;
    var k := KeyOf(p);
    LatestGrows(ps, p);
    AllottedTouched(t, Admitted(t, limit, ps), r.0, k, Synced(r.0.records[k], p));
    hide Allotted;
    AnsweredOnward(r.0, FindOrCreate(r.0, limit, p).0, ps, p, r.1);
  }

  lemma RefusedFollowed(t: Ledger, limit: int, ps: seq<Param>, p: Param, r: (Ledger, seq<Outcome>, nat))
    requires Followed(t, limit, ps, r) && KeyOf(p) !in r.0.records && Admitted(t, limit, ps + [p]) == Admitted(t, limit, ps)
    requires |ActiveKeys(r.0.records)| >= limit
    ensures var last := FindOrCreate(r.0, limit, p);
            Followed(t, limit, ps + [p], (last.0, r.1 + [last.1], r.2 + last.2))
  {
    hide Admitted, Latest, Answered;
    LatestGrows(ps, p);
    assert forall k :: k in t.records ==> k in r.0.records.Keys;
    hide Allotted, ActiveKeys, Synced, Created, OutcomeOf;
    AnsweredOnward(r.0, r.0, ps, p, r.1);
    assert OutcomeOf(r.0, p) == Blocked by {
      NoRow(r.0, p);
    }
  }

  lemma NoRow(t: Ledger, p: Param)
    requires KeyOf(p) !in t.records
    ensures OutcomeOf(t, p) == Blocked
  {
  }

  lemma CreatedFollowed(t: Ledger, limit: int, ps: seq<Param>, p: Param, r: (Ledger, seq<Outcome>, nat))
    requires Followed(t, limit, ps, r) && KeyOf(p) !in r.0.records && |ActiveKeys(r.0.records)| < limit
    requires |Admitted(t, limit, ps)| < Remaining(t, limit) && Admitted(t, limit, ps + [p]) == Admitted(t, limit, ps) + [KeyOf(p)]
    ensures var last := FindOrCreate(r.0, limit, p);
            Followed(t, limit, ps + [p], (last.0, r.1 + [last.1], r.2 + last.2))
  {
    hide Admitted, Latest, FindOrCreate, ActiveKeys, Remaining, Synced, Created, Allotted, Scheduled, Answered;
    var k := KeyOf(p);
    Belongs(t, Admitted(t, limit, ps), r.0, k);
    NewcomerIsUnseen(t, limit, ps, k);
    LatestGrows(ps, p);
    var row := Synced(Created(r.0, p), p);
    var after := Ledger(r.0.records[k := row], r.0.cases + {r.0.nextCase}, r.0.nextRecord + 1, r.0.nextCase + 1);
    CreatedShape(r.0, limit, p);
    AllottedNext(t, Admitted(t, limit, ps), r.0, k, row);
    ScheduledNext(t, Latest(ps), r.0, p, row, after);
    AnsweredOnward(r.0, after, ps, p, r.1);
  }

  lemma CreatedShape(t: Ledger, limit: int, p: Param)
    requires KeyOf(p) !in t.records && |ActiveKeys(t.records)| < limit
    ensures var row := Synced(Created(t, p), p);
            var after := Ledger(t.records[KeyOf(p) := row], t.cases + {t.nextCase}, t.nextRecord + 1, t.nextCase + 1);
            && FindOrCreate(t, limit, p) == (after, OutcomeOf(after, p), 1)
            && row.id == t.nextRecord && row.caseId == t.nextCase && row.active
            && row.nextSyncAt == Some(p.nextSyncAt) && row.completeness == p.completeness
  {
  }

  lemma ScheduledNext(t: Ledger, latest: map<Key, Param>, before: Ledger, p: Param, row: Row, after: Ledger)
    requires Scheduled(t, latest, before) && KeyOf(p) !in before.records && KeyOf(p) !in t.records
    requires row.nextSyncAt == Some(p.nextSyncAt) && after.records == before.records[KeyOf(p) := row]
    ensures Scheduled(t, latest[KeyOf(p) := p], after)
  {
  }

  /** A key that still finds room was never named before. */
  lemma NewcomerIsUnseen(t: Ledger, limit: int, ps: seq<Param>, k: Key)
    requires k !in t.records && k !in Admitted(t, limit, ps) && |Admitted(t, limit, ps)| < Remaining(t, limit)
    ensures k !in Latest(ps) && forall q | q in ps :: KeyOf(q) != k
  {
    FirstSeenLaw(ps);
    WithoutLaw(FirstSeen(ps), t.records.Keys);
    assert k !in FirstSeen(ps) && k !in SetOf(FirstSeen(ps));
    forall q | q in ps ensures KeyOf(q) in Latest(ps) {
      NamedInLatest(ps, q);
    }
  }

  lemma {:induction false} NamedInLatest(ps: seq<Param>, q: Param)
    requires q in ps
    ensures KeyOf(q) in Latest(ps)
  {
    var n := |ps| - 1;
    if q != ps[n] {
      assert q in ps[..n];
      NamedInLatest(ps[..n], q);
    }
  }

  /** Answers given earlier stay true: what was found stays under its identity, and what was
      refused is still not there. */
  lemma AnsweredOnward(before: Ledger, after: Ledger, ps: seq<Param>, p: Param, outcomes: seq<Outcome>)
    requires Answered(before, ps, outcomes)
    requires forall q | q in ps :: OutcomeOf(after, q) == OutcomeOf(before, q)
    ensures Answered(after, ps + [p], outcomes + [OutcomeOf(after, p)])
  {
  }

  // ---- As a set ----

  ghost predicate InsertedRows(t: Ledger, keys: seq<Key>, latest: map<Key, Param>, after: Ledger) {
    && (forall k | k in t.records :: k in after.records && after.records[k] == t.records[k])
    && (forall k | k in keys :: k in after.records && k in latest && after.records[k].nextSyncAt == Some(latest[k].nextSyncAt)
                                && after.records[k].completeness == latest[k].completeness)
  }

  lemma NothingInserted(t: Ledger, latest: map<Key, Param>)
    ensures Allotted(t, [], t) && InsertedRows(t, [], latest, t)
  {
    assert SetOf([]) == {};
  }

  lemma {:induction false} InsertsFollowed(t: Ledger, keys: seq<Key>, latest: map<Key, Param>)
    requires forall k | k in keys :: k in latest && k !in t.records
    requires Distinct(keys)
    ensures Allotted(t, keys, WithInserted(t, keys, latest)) && InsertedRows(t, keys, latest, WithInserted(t, keys, latest))
  {
    hide Allotted, InsertedRows;
    if keys == [] {
      NothingInserted(t, latest);
    } else {
      var n := |keys| - 1;
      InsertsFollowed(t, keys[..n], latest);
      assert keys == keys[..n] + [keys[n]] && keys[n] !in keys[..n];
      InsertsOneMore(t, keys[..n], latest, WithInserted(t, keys[..n], latest), keys[n]);
    }
  }

  lemma InsertsOneMore(t: Ledger, keys: seq<Key>, latest: map<Key, Param>, before: Ledger, k: Key)
    requires Allotted(t, keys, before) && InsertedRows(t, keys, latest, before)
    requires k !in keys && k !in t.records && k in latest
    ensures var row := Inserted(before.nextRecord, before.nextCase, latest[k]);
            var after := Ledger(before.records[k := row], before.cases + {before.nextCase}, before.nextRecord + 1, before.nextCase + 1);
            Allotted(t, keys + [k], after) && InsertedRows(t, keys + [k], latest, after)
  {
    Belongs(t, keys, before, k);
    AllottedNext(t, keys, before, k, Inserted(before.nextRecord, before.nextCase, latest[k]));
  }

  lemma AllottedResynced(t: Ledger, admitted: seq<Key>, grown: Ledger, keys: set<Key>, latest: map<Key, Param>)
    requires Allotted(t, admitted, grown) && keys <= latest.Keys
    ensures Allotted(t, admitted, grown.(records := WithResynced(grown.records, keys, latest)))
  {
    assert WithResynced(grown.records, keys, latest).Keys == grown.records.Keys;
  }

  function Max(a: real, b: real): real {
    if a >= b then a else b
  }

  /** What the set form leaves: the same identities and schedule, the higher completeness. */
  lemma TheSetFollowed(t: Ledger, limit: int, ps: seq<Param>)
    ensures var after, latest := AsASet(t, limit, ps), Latest(ps);
            && Allotted(t, Admitted(t, limit, ps), after) && Scheduled(t, latest, after)
            && (forall k | k in after.records && k in latest ::
                  after.records[k].completeness
                  == if k in t.records then Max(latest[k].completeness, t.records[k].completeness) else latest[k].completeness)
  {
    var admitted, latest := Admitted(t, limit, ps), Latest(ps);
    LatestCovers(t, limit, ps);
    InsertsFollowed(t, admitted, latest);
    var grown := WithInserted(t, admitted, latest);
    AllottedResynced(t, admitted, grown, latest.Keys * t.records.Keys, latest);
    forall k | k in grown.records && k !in t.records ensures k in admitted {
      Belongs(t, admitted, grown, k);
    }
  }

  // ---- The agreement ----

  /** Same records under the same identifiers and cases, same refusals, same count of creates,
      same schedule, whatever the inputs and the ceiling. */
  lemma TheTwoFormsAgree(t: Ledger, limit: int, ps: seq<Param>)
    ensures var row, batch := OneByOne(t, limit, ps), AsASet(t, limit, ps);
            && batch.records.Keys == row.0.records.Keys && batch.cases == row.0.cases
            && batch.nextRecord == row.0.nextRecord && batch.nextCase == row.0.nextCase
            && row.2 == |Admitted(t, limit, ps)|
            && |row.1| == |ps| && (forall i | 0 <= i < |ps| :: row.1[i] == OutcomeOf(batch, ps[i]))
            && (forall k | k in batch.records ::
                  var a, b := row.0.records[k], batch.records[k];
                  a.id == b.id && a.caseId == b.caseId && a.active == b.active && a.nextSyncAt == b.nextSyncAt)
  {
    TheLoopFollowed(t, limit, ps);
    TheSetFollowed(t, limit, ps);
    var row, batch, admitted := OneByOne(t, limit, ps), AsASet(t, limit, ps), Admitted(t, limit, ps);
    hide OneByOne, AsASet, Admitted, Latest;
    SameIdentities(t, admitted, row.0, batch);
    forall k | k in batch.records ensures row.0.records[k].nextSyncAt == batch.records[k].nextSyncAt {
      Belongs(t, admitted, batch, k);
      if k !in Latest(ps) {
        AdmittedIsNamed(t, limit, ps);
      }
    }
    assert forall k :: k in batch.records <==> k in row.0.records;
  }

  lemma AdmittedIsNamed(t: Ledger, limit: int, ps: seq<Param>)
    ensures forall k | k in Admitted(t, limit, ps) :: k in Latest(ps)
  {
    LatestCovers(t, limit, ps);
  }

  lemma SameIdentities(t: Ledger, admitted: seq<Key>, a: Ledger, b: Ledger)
    requires Allotted(t, admitted, a) && Allotted(t, admitted, b)
    ensures a.records.Keys == b.records.Keys && a.cases == b.cases && a.nextRecord == b.nextRecord && a.nextCase == b.nextCase
    ensures forall k | k in b.records ::
              a.records[k].id == b.records[k].id && a.records[k].caseId == b.records[k].caseId && a.records[k].active == b.records[k].active
  {
    forall k | k in b.records
      ensures a.records[k].id == b.records[k].id && a.records[k].caseId == b.records[k].caseId && a.records[k].active == b.records[k].active
    {
      Belongs(t, admitted, b, k);
      if k in admitted {
        var j :| 0 <= j < |admitted| && admitted[j] == k;
      }
    }
  }

  /** They agree on a record's completeness if and only if the last input that names it does
      not fall short of what an existing row already held: there the row form lowers it, the
      set form does not. */
  lemma WhenCompletenessAgrees(t: Ledger, limit: int, ps: seq<Param>, k: Key)
    requires k in AsASet(t, limit, ps).records
    ensures k in OneByOne(t, limit, ps).0.records
    ensures var latest := Latest(ps);
            OneByOne(t, limit, ps).0.records[k].completeness == AsASet(t, limit, ps).records[k].completeness
            <==> (k in t.records && k in latest ==> latest[k].completeness >= t.records[k].completeness)
  {
    TheLoopFollowed(t, limit, ps);
    TheSetFollowed(t, limit, ps);
    TheTwoFormsAgree(t, limit, ps);
    AdmittedIsNamed(t, limit, ps);
    var row, batch, admitted := OneByOne(t, limit, ps), AsASet(t, limit, ps), Admitted(t, limit, ps);
    hide OneByOne, AsASet, Admitted, Latest;
    assert k in batch.records.Keys;
    Belongs(t, admitted, batch, k);
  }

  const HELD := Row(1, 1, "TJSP", "", "", "", 0.9, None, 0, true)
  const SEEN_AGAIN := Param("0001", "G1", "TJSP", "", "", "", 0.3, 7, 1)

  /** It happens: a record held at 0.9 that a source of 0.3 lists again keeps its 0.9 in the set
      form and falls to 0.3 in the row form. */
  lemma AReobservationTellsThemApart(limit: int)
    ensures var t, k := Ledger(map[Key("0001", "G1") := HELD], {1}, 2, 2), Key("0001", "G1");
            && k in OneByOne(t, limit, [SEEN_AGAIN]).0.records && k in AsASet(t, limit, [SEEN_AGAIN]).records
            && OneByOne(t, limit, [SEEN_AGAIN]).0.records[k].completeness == 0.3
            && AsASet(t, limit, [SEEN_AGAIN]).records[k].completeness == 0.9
  {
    var t, k := Ledger(map[Key("0001", "G1") := HELD], {1}, 2, 2), Key("0001", "G1");
    var none: seq<Param> := [];
    assert [SEEN_AGAIN][..0] == none && OneByOne(t, limit, none) == (t, [], 0);
    assert Latest(none) == map[] && Latest([SEEN_AGAIN])[k] == SEEN_AGAIN;
    TheSetFollowed(t, limit, [SEEN_AGAIN]);
    hide AsASet, Admitted;
    assert k in AsASet(t, limit, [SEEN_AGAIN]).records.Keys;
  }

  /** No create crosses the ceiling: either nothing was created, or the active records still
      fit; a refused key is not there afterwards. */
  lemma TheCeilingHolds(t: Ledger, limit: int, ps: seq<Param>)
    ensures var after, n := AsASet(t, limit, ps), |Admitted(t, limit, ps)|;
            && |ActiveKeys(after.records)| == |ActiveKeys(t.records)| + n
            && (n > 0 ==> |ActiveKeys(after.records)| <= limit)
            && (n < |NewKeys(t, ps)| ==> |ActiveKeys(after.records)| >= limit)
            && (forall p | p in ps :: OutcomeOf(after, p) == Blocked <==> KeyOf(p) !in t.records && KeyOf(p) !in Admitted(t, limit, ps))
  {
    TheSetFollowed(t, limit, ps);
    LatestCovers(t, limit, ps);
    var after, admitted := AsASet(t, limit, ps), Admitted(t, limit, ps);
    ActiveGrows(t, admitted, after);
    forall p | p in ps ensures OutcomeOf(after, p) == Blocked <==> KeyOf(p) !in t.records && KeyOf(p) !in admitted {
      Belongs(t, admitted, after, KeyOf(p));
    }
  }

  /** One distinct fresh case and one distinct fresh identifier per created record. */
  lemma CasesAreFresh(t: Ledger, limit: int, ps: seq<Param>, k: Key, l: Key)
    requires forall c | c in t.cases :: c < t.nextCase
    requires k in Admitted(t, limit, ps) && l in Admitted(t, limit, ps) && k != l
    ensures var r := AsASet(t, limit, ps).records;
            && k in r && l in r && r[k].caseId != r[l].caseId && r[k].id != r[l].id
            && r[k].caseId !in t.cases && r[k].caseId in AsASet(t, limit, ps).cases
  {
    TheSetFollowed(t, limit, ps);
    var admitted := Admitted(t, limit, ps);
    var i :| 0 <= i < |admitted| && admitted[i] == k;
    var j :| 0 <= j < |admitted| && admitted[j] == l;
    Belongs(t, admitted, AsASet(t, limit, ps), k);
    Belongs(t, admitted, AsASet(t, limit, ps), l);
  }
}
