/** The columns of a landed record, said of the inputs that name its key: what either form writes
    when it creates it and what it leaves alone when it finds it. */
module UpsertColumns {
  import opened Wrappers
  import opened CourtRecordUpsert
  import opened UpsertAgreement

  predicate FirstNaming(ps: seq<Param>, i: nat, k: Key) {
    i < |ps| && KeyOf(ps[i]) == k && forall j | 0 <= j < i :: KeyOf(ps[j]) != k
  }

  predicate LastNaming(ps: seq<Param>, i: nat, k: Key) {
    i < |ps| && KeyOf(ps[i]) == k && forall j | i < j < |ps| :: KeyOf(ps[j]) != k
  }

  lemma {:induction false} LatestIsLast(ps: seq<Param>, k: Key)
    ensures k in Latest(ps) <==> exists i: nat :: LastNaming(ps, i, k)
    ensures forall i: nat | LastNaming(ps, i, k) :: k in Latest(ps) && Latest(ps)[k] == ps[i]
  {
    if ps != [] {
      var n := |ps| - 1;
      LatestIsLast(ps[..n], k);
      assert ps == ps[..n] + [ps[n]];
      LatestGrows(ps[..n], ps[n]);
      if KeyOf(ps[n]) == k {
        assert LastNaming(ps, n, k);
      } else {
        assert forall i: nat :: LastNaming(ps, i, k) <==> LastNaming(ps[..n], i, k);
      }
    }
  }

  // ---- The set form ----

  /** A record the set form creates holds every column of the last input that names it. One it
      finds keeps its identity, its court and its lineage; it takes over what that input discloses
      and never a lower completeness. */
  ghost predicate SetColumns(t: Ledger, ps: seq<Param>, after: Ledger, k: Key)
    requires k in after.records
  {
    var row := after.records[k];
    && (k in t.records ==> Keeps(t.records[k], row))
    && (k in t.records && (forall i: nat :: !LastNaming(ps, i, k)) ==> row == t.records[k])
    && (k !in t.records ==> row.active && exists i: nat :: LastNaming(ps, i, k))
    && (forall i: nat | LastNaming(ps, i, k) ::
          var p := ps[i];
          && row.nextSyncAt == Some(p.nextSyncAt)
          && if k in t.records then
               var prior := t.records[k];
               && row.classOf == (if p.classOf == "" then prior.classOf else p.classOf)
               && row.subject == (if p.subject == "" then prior.subject else p.subject)
               && row.judgingBody == (if p.judgingBody == "" then prior.judgingBody else p.judgingBody)
               && row.completeness == Max(prior.completeness, p.completeness)
             else
               && row.court == p.court && row.classOf == p.classOf && row.subject == p.subject
               && row.judgingBody == p.judgingBody && row.completeness == p.completeness && row.syncRunId == p.syncRunId)
  }

  /** The columns no landing ever writes on a row it finds. */
  predicate Keeps(prior: Row, row: Row) {
    && row.id == prior.id && row.caseId == prior.caseId && row.court == prior.court
    && row.syncRunId == prior.syncRunId && row.active == prior.active
  }

  lemma {:induction false} InsertedColumns(t: Ledger, keys: seq<Key>, latest: map<Key, Param>, k: Key)
    requires forall j | j in keys :: j in latest && j !in t.records
    requires Distinct(keys) && k in WithInserted(t, keys, latest).records
    ensures k in t.records ==> WithInserted(t, keys, latest).records[k] == t.records[k]
    ensures k !in t.records ==>
              var row := WithInserted(t, keys, latest).records[k];
              && k in latest && row.active && row.nextSyncAt == Some(latest[k].nextSyncAt) && row.court == latest[k].court && row.classOf == latest[k].classOf && row.subject == latest[k].subject
              && row.judgingBody == latest[k].judgingBody && row.completeness == latest[k].completeness && row.syncRunId == latest[k].syncRunId
  {
    if keys != [] {
      var n := |keys| - 1;
      assert forall j | j in keys[..n] :: j in keys;
      assert keys[n] in keys;
      if k != keys[n] {
        InsertedColumns(t, keys[..n], latest, k);
      }
    }
  }

  lemma WhatTheSetFormWrites(t: Ledger, limit: int, ps: seq<Param>, k: Key)
    requires k in AsASet(t, limit, ps).records
    ensures SetColumns(t, ps, AsASet(t, limit, ps), k)
  {
    LatestCovers(t, limit, ps);
    LatestIsLast(ps, k);
    var latest := Latest(ps);
    InsertedColumns(t, Admitted(t, limit, ps), latest, k);
    hide WithInserted, Admitted, Latest, LastNaming;
  }

  // ---- The row form ----

  /** The last judging body the inputs disclose for a key, if any. */
  function Disclosed(ps: seq<Param>, k: Key, prior: string): string {
    if ps == [] then prior
    else
      var p, before := ps[|ps| - 1], Disclosed(ps[..|ps| - 1], k, prior);
      if KeyOf(p) == k && p.judgingBody != "" then p.judgingBody else before
  }

  /** A record the loop creates holds the court, the lineage, the class and the subject of the
      first input that names it, one it finds keeps its own; either takes over the last judging
      body disclosed. */
  ghost predicate RowColumns(t: Ledger, ps: seq<Param>, after: Ledger, k: Key)
    requires k in after.records
  {
    var row := after.records[k];
    if k in t.records then
      var prior := t.records[k];
      && Keeps(prior, row) && row.classOf == prior.classOf && row.subject == prior.subject
      && row.judgingBody == Disclosed(ps, k, prior.judgingBody)
    else
      && row.active && row.judgingBody == Disclosed(ps, k, "")
      && (exists i: nat :: FirstNaming(ps, i, k))
      && (forall i: nat | FirstNaming(ps, i, k) ::
            var p := ps[i];
            row.court == p.court && row.syncRunId == p.syncRunId && row.classOf == p.classOf && row.subject == p.subject)
  }

  lemma {:induction false} WhatTheLoopWrites(t: Ledger, limit: int, ps: seq<Param>, k: Key)
    requires k in OneByOne(t, limit, ps).0.records
    ensures RowColumns(t, ps, OneByOne(t, limit, ps).0, k)
  {
    if ps != [] {
      var n := |ps| - 1;
      var before := OneByOne(t, limit, ps[..n]);
      assert ps == ps[..n] + [ps[n]];
      LoopKnows(t, limit, ps[..n], ps[n]);
      if k in before.0.records {
        WhatTheLoopWrites(t, limit, ps[..n], k);
      }
      hide RowColumns, OneByOne;
      OneMoreRow(t, limit, ps[..n], ps[n], before.0, k);
    }
  }

  /** A record that is not there yet and still finds room was never named before. */
  lemma LoopKnows(t: Ledger, limit: int, ps: seq<Param>, p: Param)
    ensures var before := OneByOne(t, limit, ps).0;
            KeyOf(p) !in before.records && |ActiveKeys(before.records)| < limit ==> forall q | q in ps :: KeyOf(q) != KeyOf(p)
    ensures forall k | k in t.records :: k in OneByOne(t, limit, ps).0.records
  {
    TheLoopFollowed(t, limit, ps);
    var before, admitted := OneByOne(t, limit, ps).0, Admitted(t, limit, ps);
    AdmittedGrows(t, limit, ps, p);
    LatestCovers(t, limit, ps);
    ActiveGrows(t, admitted, before);
    Belongs(t, admitted, before, KeyOf(p));
    forall k | k in t.records ensures k in before.records {
      Belongs(t, admitted, before, k);
    }
    if KeyOf(p) !in before.records && |ActiveKeys(before.records)| < limit {
      NewcomerIsUnseen(t, limit, ps, KeyOf(p));
    }
  }

  lemma OneMoreRow(t: Ledger, limit: int, ps: seq<Param>, p: Param, before: Ledger, k: Key)
    requires k in before.records ==> RowColumns(t, ps, before, k)
    requires forall j | j in t.records :: j in before.records
    requires KeyOf(p) !in before.records && |ActiveKeys(before.records)| < limit ==> forall q | q in ps :: KeyOf(q) != KeyOf(p)
    requires k in FindOrCreate(before, limit, p).0.records
    ensures RowColumns(t, ps + [p], FindOrCreate(before, limit, p).0, k)
  {
    var all := ps + [p];
    assert all[..|all| - 1] == ps;
    if k in before.records {
      assert forall i: nat :: FirstNaming(ps, i, k) ==> FirstNaming(all, i, k);
      assert forall i: nat | FirstNaming(all, i, k) :: i < |ps| ==> FirstNaming(ps, i, k);
      if k !in t.records {
        var i: nat :| FirstNaming(ps, i, k);
        assert FirstNaming(all, i, k) && forall j: nat | FirstNaming(all, j, k) :: j == i;
      }
    } else {
      NeverDisclosed(ps, k, "");
      assert FirstNaming(all, |ps|, k);
      assert forall j | 0 <= j < |ps| :: all[j] == ps[j] && ps[j] in ps;
      assert forall j: nat | FirstNaming(all, j, k) :: all[j] == p;
      assert Disclosed(all, k, "") == p.judgingBody;
    }
  }

  lemma {:induction false} NeverDisclosed(ps: seq<Param>, k: Key, prior: string)
    requires forall q | q in ps :: KeyOf(q) != k
    ensures Disclosed(ps, k, prior) == prior
  {
    if ps != [] {
      assert ps[|ps| - 1] in ps && forall q | q in ps[..|ps| - 1] :: q in ps;
      NeverDisclosed(ps[..|ps| - 1], k, prior);
    }
  }

  /** The loop's schedule and completeness are the last input's; a row no input names is as it
      was. */
  lemma WhatTheLoopSchedules(t: Ledger, limit: int, ps: seq<Param>, k: Key)
    requires k in OneByOne(t, limit, ps).0.records
    ensures var row := OneByOne(t, limit, ps).0.records[k];
            && (forall i: nat | LastNaming(ps, i, k) ::
                  row.completeness == ps[i].completeness && row.nextSyncAt == Some(ps[i].nextSyncAt))
            && (k in t.records && (forall i: nat :: !LastNaming(ps, i, k)) ==> row == t.records[k])
  {
    TheLoopFollowed(t, limit, ps);
    LatestIsLast(ps, k);
    hide OneByOne, Latest, Allotted, Answered, LastNaming;
  }

  // ---- Where the two agree ----

  /** All inputs that name the key name one court. */
  predicate OneCourt(ps: seq<Param>, k: Key) {
    forall i, j | 0 <= i < |ps| && 0 <= j < |ps| && KeyOf(ps[i]) == k && KeyOf(ps[j]) == k :: ps[i].court == ps[j].court
  }

  /** Both forms put a record at one court: its own if it was there, else the one its inputs name;
      and where a single input names it, a created record is the same in both, column by column. */
  lemma TheyAgreeOnTheCourt(t: Ledger, limit: int, ps: seq<Param>, k: Key)
    requires k in AsASet(t, limit, ps).records && OneCourt(ps, k)
    ensures k in OneByOne(t, limit, ps).0.records
    ensures OneByOne(t, limit, ps).0.records[k].court == AsASet(t, limit, ps).records[k].court
    ensures k !in t.records && (exists i: nat :: FirstNaming(ps, i, k) && LastNaming(ps, i, k)) ==>
              OneByOne(t, limit, ps).0.records[k] == AsASet(t, limit, ps).records[k]
  {
    TheTwoFormsAgree(t, limit, ps);
    WhenCompletenessAgrees(t, limit, ps, k);
    WhatTheSetFormWrites(t, limit, ps, k);
    assert k in AsASet(t, limit, ps).records.Keys;
    WhatTheLoopWrites(t, limit, ps, k);
    LatestIsLast(ps, k);
    var row, batch := OneByOne(t, limit, ps).0, AsASet(t, limit, ps);
    hide OneByOne, AsASet, Latest;
    if k !in t.records {
      var i: nat :| FirstNaming(ps, i, k);
      LastExists(ps, k, i);
      var j: nat :| LastNaming(ps, j, k);
      assert row.records[k].court == ps[i].court && batch.records[k].court == ps[j].court;
      if o: nat :| FirstNaming(ps, o, k) && LastNaming(ps, o, k) {
        OnceDisclosed(ps, k, o);
      }
    }
  }

  lemma {:induction false} LastExists(ps: seq<Param>, k: Key, i: nat)
    requires i < |ps| && KeyOf(ps[i]) == k
    ensures exists j: nat :: LastNaming(ps, j, k)
    decreases |ps| - i
  {
    if !LastNaming(ps, i, k) {
      var j :| i < j < |ps| && KeyOf(ps[j]) == k;
      LastExists(ps, k, j);
    }
  }

  lemma OnceDisclosed(ps: seq<Param>, k: Key, o: nat)
    requires FirstNaming(ps, o, k) && LastNaming(ps, o, k)
    ensures Disclosed(ps, k, "") == ps[o].judgingBody
    decreases |ps|
  {
    var n := |ps| - 1;
    if o < n {
      assert ps[..n][o] == ps[o];
      OnceDisclosed(ps[..n], k, o);
    } else {
      forall q | q in ps[..n] ensures KeyOf(q) != k {
        var j :| 0 <= j < n && ps[..n][j] == q;
      }
      NeverDisclosed(ps[..n], k, "");
    }
  }
}
