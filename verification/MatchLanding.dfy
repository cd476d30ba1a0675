/** The match lands its records through the set-based upsert with no ceiling: what MatchCapture
    says of identities is what CourtRecordUpsert says of the ledger. */
module MatchLanding {
  import opened CourtRecordUpsert
  import opened UpsertAgreement
  import M = MatchCapture

  function IdsOf(records: map<Key, Row>): map<Key, int> {
    map k | k in records :: records[k].id
  }

  function KeysOf(ps: seq<Param>): seq<Key> {
    seq(|ps|, i requires 0 <= i < |ps| => KeyOf(ps[i]))
  }

  /** Some known records, and the new ones under consecutive identifiers. */
  ghost predicate Numbered(known: map<Key, int>, nextId: nat, new_: seq<Key>, records: map<Key, int>) {
    && records.Keys == known.Keys + SetOf(new_)
    && (forall k | k in known :: k in records && records[k] == known[k])
    && (forall j | 0 <= j < |new_| :: new_[j] in records && records[new_[j]] == nextId + j)
  }

  lemma {:induction false} LandedNumbersTheNew(t: Ledger, ps: seq<Param>)
    ensures var landed := M.Landed(IdsOf(t.records), t.nextRecord, KeysOf(ps));
            Numbered(IdsOf(t.records), t.nextRecord, NewKeys(t, ps), landed.0) && landed.1 == t.nextRecord + |NewKeys(t, ps)|
  {
    hide M.Landed, NewKeys, IdsOf, Numbered;
    if ps == [] {
      NoneIsNew(t);
    } else {
      var n := |ps| - 1;
      LandedNumbersTheNew(t, ps[..n]);
      assert ps == ps[..n] + [ps[n]];
      NewKeysGrow(t, ps[..n], ps[n]);
      assert KeysOf(ps) == KeysOf(ps[..n]) + [KeyOf(ps[n])];
      M.LandedStep(IdsOf(t.records), t.nextRecord, KeysOf(ps[..n]), KeyOf(ps[n]));
      SameKeys(t);
      var before := M.Landed(IdsOf(t.records), t.nextRecord, KeysOf(ps[..n]));
      OneMoreNumbered(IdsOf(t.records), t.nextRecord, NewKeys(t, ps[..n]), before.0, KeyOf(ps[n]));
    }
  }

  lemma NoneIsNew(t: Ledger)
    ensures KeysOf([]) == [] && NewKeys(t, []) == [] && Numbered(IdsOf(t.records), t.nextRecord, [], IdsOf(t.records))
    ensures M.Landed(IdsOf(t.records), t.nextRecord, []) == (IdsOf(t.records), t.nextRecord)
  {
    assert SetOf([]) == {};
  }

  lemma SameKeys(t: Ledger)
    ensures IdsOf(t.records).Keys == t.records.Keys
  {
  }

  lemma OneMoreNumbered(known: map<Key, int>, nextId: nat, new_: seq<Key>, records: map<Key, int>, k: Key)
    requires Numbered(known, nextId, new_, records)
    ensures k in records <==> k in known || k in new_
    ensures k !in records ==> Numbered(known, nextId, new_ + [k], records[k := nextId + |new_|])
  {
    assert k in records.Keys <==> k in known || k in new_;
    if k !in records {
      assert SetOf(new_ + [k]) == SetOf(new_) + {k};
    }
  }

  lemma SameNumbers(known: map<Key, int>, nextId: nat, new_: seq<Key>, a: map<Key, int>, b: map<Key, int>)
    requires Numbered(known, nextId, new_, a) && Numbered(known, nextId, new_, b)
    ensures a == b
  {
    forall k | k in a ensures k in b && a[k] == b[k] {
      assert k in a.Keys && k in b.Keys;
      if k !in known {
        var j :| 0 <= j < |new_| && new_[j] == k;
      }
    }
    assert a.Keys == b.Keys;
  }

  /** With room for every new key, the set-based upsert leaves the identifiers a tick lands, and
      hands out the next one. */
  lemma TheUngatedUpsertLands(t: Ledger, limit: int, ps: seq<Param>)
    requires |NewKeys(t, ps)| <= Remaining(t, limit)
    ensures var after := AsASet(t, limit, ps);
            M.Landed(IdsOf(t.records), t.nextRecord, KeysOf(ps)) == (IdsOf(after.records), after.nextRecord)
    ensures forall p | p in ps :: OutcomeOf(AsASet(t, limit, ps), p) != Blocked
  {
    hide AsASet, NewKeys, M.Landed, IdsOf, Numbered, Remaining;
    LandedNumbersTheNew(t, ps);
    SetAllots(t, limit, ps);
    var after, new_ := AsASet(t, limit, ps), NewKeys(t, ps);
    SameNumbers(IdsOf(t.records), t.nextRecord, new_,
                M.Landed(IdsOf(t.records), t.nextRecord, KeysOf(ps)).0, IdsOf(after.records));
    forall p | p in ps ensures KeyOf(p) in after.records {
      NamedIsLanded(t, ps, p);
    }
  }

  lemma SetAllots(t: Ledger, limit: int, ps: seq<Param>)
    requires |NewKeys(t, ps)| <= Remaining(t, limit)
    ensures var after, new_ := AsASet(t, limit, ps), NewKeys(t, ps);
            && Numbered(IdsOf(t.records), t.nextRecord, new_, IdsOf(after.records)) && after.nextRecord == t.nextRecord + |new_|
            && forall k | k in t.records || k in new_ :: k in after.records
  {
    assert Admitted(t, limit, ps) == NewKeys(t, ps);
    hide AsASet, NewKeys, Admitted, Latest, Remaining, Scheduled, Numbered, Allotted, IdsOf;
    TheSetFollowed(t, limit, ps);
    AllottedNumbers(t, NewKeys(t, ps), AsASet(t, limit, ps));
  }

  lemma AllottedNumbers(t: Ledger, new_: seq<Key>, after: Ledger)
    requires Allotted(t, new_, after)
    ensures Numbered(IdsOf(t.records), t.nextRecord, new_, IdsOf(after.records)) && after.nextRecord == t.nextRecord + |new_|
    ensures forall k | k in t.records || k in new_ :: k in after.records
  {
    SameKeys(t);
    SameKeys(after);
    forall k | k in t.records || k in new_ ensures k in after.records {
      Belongs(t, new_, after, k);
    }
  }

  /** Every key an input names is known or new. */
  lemma NamedIsLanded(t: Ledger, ps: seq<Param>, p: Param)
    requires p in ps
    ensures KeyOf(p) in t.records || KeyOf(p) in NewKeys(t, ps)
  {
    NamedInLatest(ps, p);
    FirstSeenLaw(ps);
    WithoutLaw(FirstSeen(ps), t.records.Keys);
    assert KeyOf(p) in SetOf(FirstSeen(ps));
  }
}
