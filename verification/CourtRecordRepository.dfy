/** The repository that lands court records, statement by statement, in both forms. */
module CourtRecordRepository {
  import opened Wrappers
  import opened CourtRecordUpsert
  import opened UpsertAgreement

  class Repository {
    var records: map<Key, Row>
    var cases: set<nat>
    var nextRecord: nat
    var nextCase: nat

    ghost function View(): Ledger
      reads this
    {
      Ledger(records, cases, nextRecord, nextCase)
    }

    /** Identifiers given out are never given out again. */
    ghost predicate Valid()
      reads this
    {
      forall c | c in cases :: c < nextCase
    }

    constructor (t: Ledger)
      ensures View() == t
    {
      records, cases, nextRecord, nextCase := t.records, t.cases, t.nextRecord, t.nextCase;
    }

    method InsertCourtCase() returns (id: nat)
      modifies this`cases, this`nextCase
      ensures id == old(nextCase) && nextCase == id + 1 && cases == old(cases) + {id}
    {
      id := nextCase;
      cases, nextCase := cases + {id}, nextCase + 1;
    }

    /** INSERT ... ON CONFLICT DO NOTHING: no id comes back when the key is taken. */
    method InsertCourtRecord(caseId: nat, p: Param) returns (id: Option<nat>)
      modifies this`records, this`nextRecord
      ensures KeyOf(p) in old(records) ==> id == None && records == old(records) && nextRecord == old(nextRecord)
      ensures KeyOf(p) !in old(records) ==>
                && id == Some(old(nextRecord)) && nextRecord == old(nextRecord) + 1
                && records == old(records)[KeyOf(p) := Created(Ledger(old(records), cases, old(nextRecord), caseId), p)]
    {
      if KeyOf(p) in records {
        return None;
      }
      id := Some(nextRecord);
      records := records[KeyOf(p) := Row(nextRecord, caseId, p.court, p.classOf, p.subject, p.judgingBody, p.completeness, None, p.syncRunId, true)];
      nextRecord := nextRecord + 1;
    }

    method MarkCourtRecordSynced(k: Key, p: Param)
      requires k in records
      modifies this`records
      ensures records == old(records)[k := Synced(old(records)[k], p)]
    {
      var r := records[k];
      r := r.(completeness := p.completeness, nextSyncAt := Some(p.nextSyncAt));
      if p.judgingBody != "" {
        r := r.(judgingBody := p.judgingBody);
      }
      records := records[k := r];
    }

    /** Loses the create race when the key is taken meanwhile: the orphan case is dropped and
        the winner marked synced. */
    method CreateCourtRecord(p: Param) returns (outcome: Outcome, created: bool)
      requires Valid()
      modifies this
      ensures Valid()
      ensures created == (KeyOf(p) !in old(records))
      ensures created ==>
                && outcome == Resolved(old(nextRecord), old(nextCase))
                && View() == Ledger(old(records)[KeyOf(p) := Synced(Created(old(View()), p), p)], old(cases) + {old(nextCase)},
                                    old(nextRecord) + 1, old(nextCase) + 1)
      ensures !created ==>
                var winner := old(records)[KeyOf(p)];
                && outcome == Resolved(winner.id, winner.caseId)
                && View() == Ledger(old(records)[KeyOf(p) := Synced(winner, p)], old(cases), old(nextRecord), old(nextCase) + 1)
    {
      var caseId := InsertCourtCase();
      var recId := InsertCourtRecord(caseId, p);
      if recId.None? {
        cases := cases - {caseId};
        assert cases == old(cases);
        MarkCourtRecordSynced(KeyOf(p), p);
        return Resolved(records[KeyOf(p)].id, records[KeyOf(p)].caseId), false;
      }
      MarkCourtRecordSynced(KeyOf(p), p);
      return Resolved(recId.value, caseId), true;
    }

    /** The ceiling gates only a record that is not there yet. */
    method FindOrCreateCourtRecord(limit: int, p: Param) returns (outcome: Outcome, created: bool)
      requires Valid()
      modifies this
      ensures Valid()
      ensures (View(), outcome, if created then 1 else 0) == FindOrCreate(old(View()), limit, p)
    {
      if KeyOf(p) in records {
        var r := records[KeyOf(p)];
        MarkCourtRecordSynced(KeyOf(p), p);
        return Resolved(r.id, r.caseId), false;
      }
      if |ActiveKeys(records)| >= limit {
        return Blocked, false;
      }
      outcome, created := CreateCourtRecord(p);
    }

    /** BatchInsertCourtCases: one fresh case per requested row. */
    method InsertCourtCases(n: nat) returns (ids: seq<nat>)
      modifies this`cases, this`nextCase
      ensures |ids| == n && forall i | 0 <= i < n :: ids[i] == old(nextCase) + i
      ensures nextCase == old(nextCase) + n
      ensures forall c :: c in cases <==> c in old(cases) || old(nextCase) <= c < old(nextCase) + n
    {
      ids := [];
      for i := 0 to n
        invariant |ids| == i && forall j | 0 <= j < i :: ids[j] == old(nextCase) + j
        invariant nextCase == old(nextCase) + i
        invariant forall c :: c in cases <==> c in old(cases) || old(nextCase) <= c < old(nextCase) + i
      {
        var id := InsertCourtCase();
        ids := ids + [id];
      }
    }

    /** The bulk insert of the admitted keys, each under the case of its position; what comes
        back is a row per insert, the key beside the new id. */
    method BatchInsertCourtRecords(keys: seq<Key>, caseIds: seq<nat>, paramByKey: map<Key, Param>, ghost t: Ledger)
      returns (inserted: seq<(Key, nat)>)
      requires t.records == records && t.nextRecord == nextRecord
      requires |caseIds| == |keys| && forall i | 0 <= i < |keys| :: caseIds[i] == t.nextCase + i
      requires forall k | k in keys :: k in paramByKey
      modifies this`records, this`nextRecord
      ensures records == WithInserted(t, keys, paramByKey).records && nextRecord == WithInserted(t, keys, paramByKey).nextRecord
      ensures |inserted| == |keys| && forall i | 0 <= i < |keys| :: inserted[i] == (keys[i], t.nextRecord + i)
    {
      inserted := [];
      for i := 0 to |keys|
        invariant records == WithInserted(t, keys[..i], paramByKey).records
        invariant nextRecord == WithInserted(t, keys[..i], paramByKey).nextRecord == t.nextRecord + i
        invariant WithInserted(t, keys[..i], paramByKey).nextCase == t.nextCase + i
        invariant |inserted| == i && forall j | 0 <= j < i :: inserted[j] == (keys[j], t.nextRecord + j)
      {
        var k := keys[i];
        assert keys[..i + 1][..i] == keys[..i];
        records := records[k := Inserted(nextRecord, caseIds[i], paramByKey[k])];
        inserted := inserted + [(k, nextRecord)];
        nextRecord := nextRecord + 1;
      }
      assert keys[..|keys|] == keys;
    }

    /** Creates the admitted keys and fills `resolved` with them. */
    method BatchCreateCourtRecords(toCreate: seq<Key>, paramByKey: map<Key, Param>) returns (resolved: map<Key, (nat, nat)>, created: nat)
      requires forall k | k in toCreate :: k in paramByKey && k !in records
      requires Distinct(toCreate)
      modifies this
      ensures View() == WithInserted(old(View()), toCreate, paramByKey) && created == |toCreate|
      ensures forall k :: k in resolved <==> k in toCreate
      ensures forall k | k in resolved :: k in records && resolved[k] == (records[k].id, records[k].caseId)
    {
      ghost var t := View();
      hide Allotted, InsertedRows, Distinct;
      var caseIds := InsertCourtCases(|toCreate|);
      var inserted := BatchInsertCourtRecords(toCreate, caseIds, paramByKey, t);
      ghost var grown := WithInserted(t, toCreate, paramByKey);
      InsertsFollowed(t, toCreate, paramByKey);
      AllottedIds(t, toCreate, grown);
      AllottedCases(t, toCreate, grown, cases);
      resolved := ByKey(inserted, caseIds);
      created := |inserted|;
    }

    /** Maps the returned rows back: each key to its record and case. */
    static method ByKey(inserted: seq<(Key, nat)>, caseIds: seq<nat>) returns (resolved: map<Key, (nat, nat)>)
      requires |caseIds| == |inserted|
      ensures forall i | 0 <= i < |inserted| :: inserted[i].0 in resolved
      ensures forall k | k in resolved :: exists i :: 0 <= i < |inserted| && inserted[i].0 == k && resolved[k] == (inserted[i].1, caseIds[i])
    {
      resolved := map[];
      for i := 0 to |inserted|
        invariant forall j | 0 <= j < i :: inserted[j].0 in resolved
        invariant forall k | k in resolved :: exists j :: 0 <= j < i && inserted[j].0 == k && resolved[k] == (inserted[j].1, caseIds[j])
      {
        resolved := resolved[inserted[i].0 := (inserted[i].1, caseIds[i])];
      }
    }

    /** UPDATE ... FROM the list of updates: one statement over all of them. */
    method BatchMarkCourtRecordsSynced(keys: set<Key>, paramByKey: map<Key, Param>)
      requires keys <= paramByKey.Keys
      modifies this`records
      ensures records == WithResynced(old(records), keys, paramByKey)
    {
      records := map k | k in records :: if k in keys then Resynced(records[k], paramByKey[k]) else records[k];
    }

    method BatchUpsertCourtRecords(limit: int, params: seq<Param>) returns (outcomes: seq<Outcome>, newCount: nat)
      modifies this
      ensures View() == AsASet(old(View()), limit, params)
      ensures newCount == |Admitted(old(View()), limit, params)|
      ensures Answered(View(), params, outcomes)
    {
      ghost var t := View();
      var newKeys, updateKeys, paramByKey := Partition(params);
      LatestCovers(t, limit, params);
      var remaining := limit - |ActiveKeys(records)|;
      if remaining < 0 {
        remaining := 0;
      }
      var toCreate := newKeys;
      if |toCreate| > remaining {
        toCreate := toCreate[..remaining];
      }
      assert toCreate == Admitted(t, limit, params);
      var resolved;
      resolved, newCount := BatchCreateCourtRecords(toCreate, paramByKey);
      ghost var grown := View();
      BatchMarkCourtRecordsSynced(updateKeys, paramByKey);
      assert View() == AsASet(t, limit, params);
      InsertsFollowed(t, toCreate, paramByKey);
      hide AsASet, Admitted, WithInserted, NewKeys;
      forall k ensures k in records <==> k in resolved || k in t.records {
        Belongs(t, toCreate, grown, k);
      }
      hide Allotted, InsertedRows;
      NamedAreLatest(params);
      outcomes := Assemble(params, resolved, updateKeys);
    }

    /** The outcomes, parallel to the inputs. */
    method Assemble(params: seq<Param>, resolved: map<Key, (nat, nat)>, updateKeys: set<Key>) returns (outcomes: seq<Outcome>)
      requires forall k | k in resolved :: k in records && resolved[k] == (records[k].id, records[k].caseId)
      requires updateKeys <= records.Keys
      requires forall p | p in params && KeyOf(p) in records :: KeyOf(p) in resolved || KeyOf(p) in updateKeys
      ensures Answered(View(), params, outcomes)
    {
      outcomes := [];
      for i := 0 to |params|
        invariant |outcomes| == i && forall j | 0 <= j < i :: outcomes[j] == OutcomeOf(View(), params[j])
      {
        var k := KeyOf(params[i]);
        assert params[i] in params;
        if k in resolved {
          outcomes := outcomes + [Resolved(resolved[k].0, resolved[k].1)];
        } else if k in updateKeys {
          outcomes := outcomes + [Resolved(records[k].id, records[k].caseId)];
        } else {
          outcomes := outcomes + [Blocked];
        }
      }
    }

    /** One pass over the inputs: keys to create in first-seen order, keys to refresh, and the
        last input of each key. */
    method Partition(params: seq<Param>) returns (newKeys: seq<Key>, updateKeys: set<Key>, paramByKey: map<Key, Param>)
      ensures newKeys == NewKeys(View(), params)
      ensures paramByKey == Latest(params)
      ensures updateKeys == Latest(params).Keys * records.Keys
    {
      newKeys, updateKeys, paramByKey := [], {}, map[];
      for i := 0 to |params|
        invariant newKeys == NewKeys(View(), params[..i])
        invariant paramByKey == Latest(params[..i])
        invariant updateKeys == paramByKey.Keys * records.Keys
      {
        assert params[..i + 1][..i] == params[..i];
        FirstSeenLaw(params[..i]);
        var k := KeyOf(params[i]);
        if k !in paramByKey {
          if k in records {
            updateKeys := updateKeys + {k};
          } else {
            newKeys := newKeys + [k];
          }
        }
        paramByKey := paramByKey[k := params[i]];
      }
      assert params[..|params|] == params;
    }
  }

  lemma NamedAreLatest(ps: seq<Param>)
    ensures forall p | p in ps :: KeyOf(p) in Latest(ps)
  {
    forall p | p in ps ensures KeyOf(p) in Latest(ps) {
      NamedInLatest(ps, p);
    }
  }

  lemma AllottedCases(t: Ledger, keys: seq<Key>, after: Ledger, cases: set<nat>)
    requires Allotted(t, keys, after) && forall c :: c in cases <==> c in t.cases || t.nextCase <= c < t.nextCase + |keys|
    ensures after.cases == cases && after.nextCase == t.nextCase + |keys|
  {
    assert forall c :: c in after.cases <==> c in cases;
  }

  lemma AllottedIds(t: Ledger, keys: seq<Key>, after: Ledger)
    requires Allotted(t, keys, after)
    ensures forall j | 0 <= j < |keys| ::
              keys[j] in after.records && after.records[keys[j]].id == t.nextRecord + j && after.records[keys[j]].caseId == t.nextCase + j
  {
    forall j | 0 <= j < |keys| ensures keys[j] in after.records {
      Belongs(t, keys, after, keys[j]);
    }
  }
}
