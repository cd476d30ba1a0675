/** What one tick leaves in the tables, said of the parsed matches alone: the records, the
    intimations and the day's row, column by column. */
module MatchColumns {
  import opened Wrappers
  import opened MatchCapture
  import I = Intimations

  type Records = map<RecordKey, RecordId>

  ghost predicate OneNumberEach(records: Records) {
    forall j, k | j in records && k in records && j != k :: records[j] != records[k]
  }

  /** No two of the records that came share a number. */
  ghost predicate OneNumberEachNew(before: Records, after: Records) {
    forall j, k | j in after && k in after && j !in before && k !in before && j != k :: after[j] != after[k]
  }

  /** Every key named has a record, the new ones under fresh, distinct numbers; no other record
      came and none changed. */
  ghost predicate RecordsLanded(before: Records, nextId: nat, keys: seq<RecordKey>, after: Records, next: nat) {
    && (forall k :: k in after <==> k in before || k in keys)
    && (forall k | k in before :: after[k] == before[k])
    && (forall k | k in after && k !in before :: nextId <= after[k] < next)
    && OneNumberEachNew(before, after)
    && next == nextId + |after.Keys - before.Keys|
  }

  /** The row of an intimation: under its record's case, by its hash. */
  predicate Files(records: Records, p: ParsedIntimation, r: I.Key) {
    p.key in records && r == I.Key(records[p.key], p.hash)
  }

  /** Every intimation has its row with the status it came with; a row that was there keeps the
      record it was first filed under. No other row came and none changed. */
  ghost predicate IntimationsLanded(records: Records, before: I.Rows, ps: seq<ParsedIntimation>, after: I.Rows) {
    && (forall p, r | p in ps && Files(records, p, r) ::
          && r in after && after[r].status == p.status
          && after[r].recordId == if r in before then before[r].recordId else records[p.key])
    && (forall r | r in before :: r in after)
    && (forall r | r in after && (forall p | p in ps :: !Files(records, p, r)) :: r in before && after[r] == before[r])
  }

  lemma {:induction false} LandedAreDistinct(records: Records, nextId: nat, keys: seq<RecordKey>)
    ensures var l := Landed(records, nextId, keys).0;
            OneNumberEachNew(records, l)
  {
    if keys != [] {
      var n := |keys| - 1;
      LandedAreDistinct(records, nextId, keys[..n]);
      LandedNumbers(records, nextId, keys[..n]);
    }
  }

  lemma TheRecordsLand(before: Records, nextId: nat, keys: seq<RecordKey>)
    ensures var landed := Landed(before, nextId, keys);
            RecordsLanded(before, nextId, keys, landed.0, landed.1)
  {
    hide Landed, OneNumberEachNew;
    LandedGrows(before, nextId, keys);
    LandedNumbers(before, nextId, keys);
    LandedAreDistinct(before, nextId, keys);
    forall k ensures k in Landed(before, nextId, keys).0 <==> k in before || k in keys {
      LandedMember(before, nextId, keys, k);
    }
  }

  /** Each item is its intimation under the record of its key. */
  ghost predicate Itemized(records: Records, ps: seq<ParsedIntimation>, items: seq<I.Item>) {
    && |items| == |ps|
    && forall n | 0 <= n < |ps| ::
         && ps[n].key in records
         && items[n] == I.Item(I.Key(records[ps[n].key], ps[n].hash), records[ps[n].key], ps[n].status)
  }

  lemma NamedRowsLand(records: Records, before: I.Rows, ps: seq<ParsedIntimation>, items: seq<I.Item>, after: I.Rows)
    requires Itemized(records, ps, items) && forall i | i in items :: i.key in after && after[i.key] == I.RowAfter(before, i)
    ensures forall p, r | p in ps && Files(records, p, r) ::
              r in after && after[r] == I.Row(if r in before then before[r].recordId else records[p.key], p.status)
  {
    forall p, r | p in ps && Files(records, p, r)
      ensures r in after && after[r] == I.Row(if r in before then before[r].recordId else records[p.key], p.status)
    {
      var n :| 0 <= n < |ps| && ps[n] == p;
      assert items[n] in items;
    }
  }

  lemma OnlyNamedRowsLand(records: Records, before: I.Rows, ps: seq<ParsedIntimation>, items: seq<I.Item>, after: I.Rows)
    requires Itemized(records, ps, items)
    requires forall k | k in after && (forall i | i in items :: i.key != k) :: k in before && after[k] == before[k]
    ensures forall r | r in after && (forall p | p in ps :: !Files(records, p, r)) :: r in before && after[r] == before[r]
  {
    forall r | r in after && (forall p | p in ps :: !Files(records, p, r)) ensures r in before && after[r] == before[r] {
      forall i | i in items ensures i.key != r {
        var n :| 0 <= n < |items| && items[n] == i;
        assert ps[n] in ps && Files(records, ps[n], i.key);
      }
    }
  }

  lemma TheIntimationsLand(records: Records, keys: seq<RecordKey>, before: I.Rows, ps: seq<ParsedIntimation>)
    requires Resolved(Window(records, keys), ps).Some? && I.DistinctKeys(Resolved(Window(records, keys), ps).value)
    ensures IntimationsLanded(records, before, ps, I.After(before, Resolved(Window(records, keys), ps).value))
    ensures forall p | p in ps :: p.key in keys && p.key in records
  {
    hide Resolved, I.After, I.DistinctKeys, I.RowAfter, Files;
    var window := Window(records, keys);
    ResolvedAt(window, ps);
    var items := Resolved(window, ps).value;
    AfterAt(before, items);
    var after := I.After(before, items);
    assert Itemized(records, ps, items) by {
      assert forall n | 0 <= n < |ps| :: ps[n] in ps;
    }
    NamedRowsLand(records, before, ps, items, after);
    OnlyNamedRowsLand(records, before, ps, items, after);
  }

  /** What a tick that goes through writes. */
  lemma WhatATickWrites(d: Day, x: Parsed)
    requires TickTx(d, x).Ok?
    ensures var after := Tick(d, x);
            && RecordsLanded(d.records, d.nextId, x.records, after.records, after.nextId)
            && IntimationsLanded(after.records, d.rows, x.intimations, after.rows)
            && forall p | p in x.intimations :: p.key in x.records && p.key in after.records
  {
    TheRecordsLand(d.records, d.nextId, x.records);
    hide RecordsLanded, IntimationsLanded, Landed, Resolved, Window;
    TheIntimationsLand(Tick(d, x).records, x.records, d.rows, x.intimations);
  }

  /** Two intimations of one tick for the same process and the same text. */
  predicate Twice(ps: seq<ParsedIntimation>, i: nat, j: nat) {
    i < j < |ps| && ps[i].key == ps[j].key && ps[i].hash == ps[j].hash
  }

  lemma LandedKeepsNumbers(d: Day, keys: seq<RecordKey>)
    requires Numbered(d) && OneNumberEach(d.records)
    ensures var records := Landed(d.records, d.nextId, keys).0;
            OneNumberEach(records) && OneNumberEach(Window(records, keys)) && forall k | k in keys :: k in records
  {
    hide Landed;
    var records := Landed(d.records, d.nextId, keys).0;
    LandedNumbers(d.records, d.nextId, keys);
    LandedAreDistinct(d.records, d.nextId, keys);
    forall k | k in keys ensures k in records {
      LandedMember(d.records, d.nextId, keys, k);
    }
    assert OneNumberEach(records);
  }

  /** When a tick goes through: exactly when each of its intimations belongs to a process it names
      itself and none comes twice. A tick that does not leaves everything as it was. */
  lemma WhenATickGoesThrough(d: Day, x: Parsed)
    requires Numbered(d) && OneNumberEach(d.records)
    ensures TickTx(d, x).Ok? <==> (forall p | p in x.intimations :: p.key in x.records) && forall i: nat, j: nat :: !Twice(x.intimations, i, j)
    ensures TickTx(d, x) == Err(UnknownRecord) <==> exists p :: p in x.intimations && p.key !in x.records
    ensures TickTx(d, x).Err? ==> Tick(d, x) == d
  {
    hide Landed, Resolved, I.After, I.Opened, OneNumberEach, Numbered;
    var records, ps := Landed(d.records, d.nextId, x.records).0, x.intimations;
    LandedKeepsNumbers(d, x.records);
    ResolvedAt(Window(records, x.records), ps);
    if forall p | p in ps :: p.key in x.records {
      assert forall p | p in ps :: p.key in Window(records, x.records);
      SameRows(Window(records, x.records), ps, Resolved(Window(records, x.records), ps).value);
    }
  }

  lemma SameRows(records: Records, ps: seq<ParsedIntimation>, items: seq<I.Item>)
    requires OneNumberEach(records) && |items| == |ps|
    requires forall n | 0 <= n < |ps| :: ps[n].key in records && items[n].key == I.Key(records[ps[n].key], ps[n].hash)
    ensures I.DistinctKeys(items) <==> forall i: nat, j: nat :: !Twice(ps, i, j)
  {
    forall i: nat, j: nat | i < j < |ps| ensures items[i].key == items[j].key <==> Twice(ps, i, j) {
    }
  }

  lemma TheRowIsSummed(d: Day, x: Parsed)
    ensures var e, capture := EffectOf(d, x), Tick(d, x).capture;
            capture == if e.created == 0 && e.fresh_ == [] then d.capture else Summed(d.capture, e.created, Updated(|e.touched|, e.created), |e.fresh_|)
  {
    hide Landed, Resolved, I.Upsert, Window, Touched, Summed, Updated;
  }

  lemma TheCountsAreRead(d: Day, x: Parsed)
    ensures EffectOf(d, x).created == |Tick(d, x).records.Keys - d.records.Keys| && |EffectOf(d, x).fresh_| == |LandedBy(d, x)|
  {
    hide Tick, EffectOf, LandedBy, KeysOf;
    EveryTickLands(d, x);
  }

  /** What a tick adds to the day's row, read off the tables before and after: the new records,
      the intimations that landed alive, and the records those hang off beyond the new ones. A tick
      that brings neither leaves the row alone. */
  lemma WhatATickAdds(d: Day, x: Parsed)
    ensures var after := Tick(d, x);
            var created, landed, touched := |after.records.Keys - d.records.Keys|, |LandedBy(d, x)|, |TouchedBy(d, x)|;
            if created == 0 && landed == 0 then after.capture == d.capture
            else
              && after.capture.Some?
              && after.capture.value.recordsNew == NewSoFar(d.capture) + created
              && after.capture.value.intimationsNew == IntimationsSoFar(d.capture) + landed
              && after.capture.value.recordsUpdated == UpdatedSoFar(d.capture) + (if touched > created then touched - created else 0)
  {
    hide Tick, EffectOf, LandedBy, TouchedBy, KeysOf, TablesLaw;
    TheRowIsSummed(d, x);
    TheCountsAreRead(d, x);
    TouchedIsReadOffTheTables(d, x);
  }
}
