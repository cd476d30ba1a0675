/** The national match: what one tick writes for a tenant, and the day's capture row that sums
    it up however often the day is ticked again. */
module MatchCapture {
  import opened Wrappers
  import I = Intimations
  import U = CourtRecordUpsert

  type RecordId = int
  type TenantId = int

  type RecordKey = U.Key

  datatype ParsedIntimation = ParsedIntimation(key: RecordKey, hash: string, status: I.Status)

  datatype Parsed = Parsed(records: seq<RecordKey>, intimations: seq<ParsedIntimation>)

  /** The DAILY_CAPTURE row of capture_run. */
  datatype Capture = Capture(recordsNew: nat, recordsUpdated: nat, intimationsNew: nat)

  /** A record and its case share one number: every record is landed with a case of its own. */
  datatype Day = Day(records: map<RecordKey, RecordId>, nextId: nat, rows: I.Rows, capture: Option<Capture>)

  datatype Fault = UnknownRecord | RowTouchedTwice

  // ---- Grouping the matches ----

  datatype Match = Match(tenant: TenantId, oab: string, payload: string)

  datatype Bucket = Bucket(keys: set<string>, items: seq<string>)

  /** A tenant's distinct payloads, in the order the store returned them. */
  function Payloads(ms: seq<Match>, tenant: TenantId): seq<string> {
    if ms == [] then []
    else
      var before := Payloads(ms[..|ms| - 1], tenant);
      var m := ms[|ms| - 1];
      if m.tenant == tenant && m.payload !in before then before + [m.payload] else before
  }

  function Oabs(ms: seq<Match>, tenant: TenantId): set<string> {
    set m | m in ms && m.tenant == tenant :: m.oab
  }

  predicate Matched(ms: seq<Match>, tenant: TenantId) {
    exists m :: m in ms && m.tenant == tenant
  }

  method GroupMatches(ms: seq<Match>) returns (byTenant: map<TenantId, Bucket>)
    ensures forall t :: t in byTenant <==> Matched(ms, t)
    ensures forall t | t in byTenant :: byTenant[t] == Bucket(Oabs(ms, t), Payloads(ms, t))
  {
    hide Matched, Oabs, Payloads;
    byTenant := map[];
    NoBuckets();
    assert ms[..0] == [];
    for n := 0 to |ms|
      invariant forall t :: t in byTenant <==> Matched(ms[..n], t)
      invariant forall t :: (if t in byTenant then byTenant[t] else Bucket({}, [])) == Bucket(Oabs(ms[..n], t), Payloads(ms[..n], t))
    {
      assert ms[..n + 1] == ms[..n] + [ms[n]];
      var m := ms[n];
      BucketsGrow(ms[..n], m);
      var b := if m.tenant in byTenant then byTenant[m.tenant] else Bucket({}, []);
      var items := if m.payload in b.items then b.items else b.items + [m.payload];
      byTenant := byTenant[m.tenant := Bucket(b.keys + {m.oab}, items)];
    }
    assert ms[..|ms|] == ms;
  }

  lemma NoBuckets()
    ensures forall t :: !Matched([], t) && Oabs([], t) == {} && Payloads([], t) == []
  {
  }

  lemma BucketsGrow(ms: seq<Match>, m: Match)
    ensures forall t :: Matched(ms + [m], t) <==> Matched(ms, t) || m.tenant == t
    ensures forall t :: Oabs(ms + [m], t) == Oabs(ms, t) + if m.tenant == t then {m.oab} else {}
    ensures forall t :: Payloads(ms + [m], t)
                        == if m.tenant == t && m.payload !in Payloads(ms, t) then Payloads(ms, t) + [m.payload] else Payloads(ms, t)
  {
    assert forall x :: x in ms + [m] <==> x in ms || x == m;
    assert (ms + [m])[..|ms|] == ms;
  }

  /** Nothing matched is lost, nothing is written twice, nothing leaks to another tenant. */
  lemma {:induction false} PayloadsAreDistinctMatches(ms: seq<Match>, tenant: TenantId)
    ensures forall p :: p in Payloads(ms, tenant) <==> exists m :: m in ms && m.tenant == tenant && m.payload == p
    ensures forall p :: multiset(Payloads(ms, tenant))[p] <= 1
    ensures forall o :: o in Oabs(ms, tenant) <==> exists m :: m in ms && m.tenant == tenant && m.oab == o
  {
    if ms != [] {
      var n := |ms| - 1;
      PayloadsAreDistinctMatches(ms[..n], tenant);
      assert forall m :: m in ms <==> m in ms[..n] || m == ms[n];
    }
  }

  predicate Shows(ms: seq<Match>, n: nat, tenant: TenantId, payload: string) {
    n < |ms| && ms[n].tenant == tenant && ms[n].payload == payload
  }

  /** A payload comes before another exactly when it was matched before the other ever was. */
  lemma {:induction false} PayloadsKeepTheirOrder(ms: seq<Match>, tenant: TenantId, a: nat, b: nat)
    requires a < b < |Payloads(ms, tenant)|
    ensures exists n: nat :: Shows(ms, n, tenant, Payloads(ms, tenant)[a])
                             && forall m: nat | m <= n :: !Shows(ms, m, tenant, Payloads(ms, tenant)[b])
  {
    var last := |ms| - 1;
    var before, p, q := Payloads(ms[..last], tenant), Payloads(ms, tenant)[a], Payloads(ms, tenant)[b];
    PayloadsAreDistinctMatches(ms[..last], tenant);
    if b < |before| {
      PayloadsKeepTheirOrder(ms[..last], tenant, a, b);
      var n: nat :| Shows(ms[..last], n, tenant, p) && forall m: nat | m <= n :: !Shows(ms[..last], m, tenant, q);
      assert Shows(ms, n, tenant, p);
      assert forall m: nat | m <= n :: Shows(ms, m, tenant, q) ==> Shows(ms[..last], m, tenant, q);
    } else {
      assert p in before && q !in before;
      var w :| w in ms[..last] && w.tenant == tenant && w.payload == p;
      var n :| 0 <= n < last && ms[..last][n] == w;
      assert Shows(ms, n, tenant, p);
      forall m: nat | m <= n ensures !Shows(ms, m, tenant, q) {
        assert ms[m] in ms[..last];
      }
    }
  }

  // ---- One tick ----

  function Landed(records: map<RecordKey, RecordId>, nextId: nat, keys: seq<RecordKey>): (map<RecordKey, RecordId>, nat) {
    if keys == [] then (records, nextId)
    else
      var before := Landed(records, nextId, keys[..|keys| - 1]);
      var k := keys[|keys| - 1];
      if k in before.0 then before else (before.0[k := before.1], before.1 + 1)
  }

  /** The records a tick resolved its own keys to; its intimations are looked up in nothing else. */
  function Window(records: map<RecordKey, RecordId>, keys: seq<RecordKey>): map<RecordKey, RecordId> {
    map k | k in keys && k in records :: records[k]
  }

  function Resolved(records: map<RecordKey, RecordId>, ps: seq<ParsedIntimation>): Option<seq<I.Item>> {
    if ps == [] then Some([])
    else
      var p := ps[|ps| - 1];
      match Resolved(records, ps[..|ps| - 1])
      case None => None
      case Some(before) =>
        if p.key !in records then None
        else Some(before + [I.Item(I.Key(records[p.key], p.hash), records[p.key], p.status)])
  }

  function Touched(changes: seq<I.Change>): set<RecordId> {
    set c | c in changes :: c.recordId
  }

  /** Already-known records that gained an intimation, clamped. */
  function Updated(touched: nat, created: nat): nat {
    if touched < created then 0 else touched - created
  }

  /** The day's row is opened or summed into. */
  function Summed(capture: Option<Capture>, created: nat, updated: nat, fresh_: nat): Option<Capture> {
    match capture
    case None => Some(Capture(created, updated, fresh_))
    case Some(c) => Some(Capture(c.recordsNew + created, c.recordsUpdated + updated, c.intimationsNew + fresh_))
  }

  /** What a tick adds to the day. */
  datatype Effect = Effect(created: nat, touched: set<RecordId>, fresh_: seq<I.Change>)

  function TickTx(d: Day, x: Parsed): Result<(Day, Effect), Fault> {
    var landed := Landed(d.records, d.nextId, x.records);
    match Resolved(Window(landed.0, x.records), x.intimations)
    case None => Err(UnknownRecord)
    case Some(items) =>
      match I.Upsert(d.rows, items)
      case Err(_) => Err(RowTouchedTwice)
      case Ok(u) =>
        var created := landed.1 - d.nextId;
        LandedGrows(d.records, d.nextId, x.records);
        var e := Effect(created, Touched(u.fresh_), u.fresh_);
        Ok((Day(landed.0, landed.1, u.rows,
                if created == 0 && u.fresh_ == [] then d.capture
                else Summed(d.capture, created, Updated(|e.touched|, created), |u.fresh_|)), e))
  }

  ghost predicate Grown<K, V(!new)>(records: map<K, V>, after: map<K, V>, created: int) {
    && created == |after.Keys - records.Keys| && records.Keys <= after.Keys
    && Preserved(records, after)
  }

  ghost predicate Preserved<K, V(!new)>(records: map<K, V>, after: map<K, V>) {
    forall k | k in records :: k in after && after[k] == records[k]
  }

  lemma GrownOnce<K, V(!new)>(records: map<K, V>, before: map<K, V>, created: int, k: K, id: V)
    requires Grown(records, before, created) && k !in before
    ensures Grown(records, before[k := id], created + 1)
  {
    var after := before[k := id];
    assert after.Keys == before.Keys + {k};
    OneMoreOutside(before.Keys, records.Keys, k);
    PreservedUnder(records, before, k, id);
    hide Preserved;
  }

  lemma PreservedUnder<K, V(!new)>(records: map<K, V>, before: map<K, V>, k: K, id: V)
    requires k !in before && Preserved(records, before)
    ensures Preserved(records, before[k := id])
  {
  }

  lemma OneMoreOutside<T>(a: set<T>, b: set<T>, x: T)
    requires x !in a && b <= a
    ensures |(a + {x}) - b| == |a - b| + 1
  {
    assert (a + {x}) - b == (a - b) + {x};
  }

  lemma NoneLanded(records: map<RecordKey, RecordId>, nextId: nat)
    ensures Landed(records, nextId, []) == (records, nextId)
  {
  }

  lemma LandedStep(records: map<RecordKey, RecordId>, nextId: nat, keys: seq<RecordKey>, k: RecordKey)
    ensures var before := Landed(records, nextId, keys);
            Landed(records, nextId, keys + [k]) == if k in before.0 then before else (before.0[k := before.1], before.1 + 1)
  {
    assert (keys + [k])[..|keys|] == keys;
  }

  lemma NoWindow(records: map<RecordKey, RecordId>)
    ensures Window(records, []) == map[]
  {
  }

  /** One more key: the records may gain it, and the window does. */
  lemma WindowStep(records: map<RecordKey, RecordId>, nextId: nat, keys: seq<RecordKey>, k: RecordKey)
    ensures var before, after := Landed(records, nextId, keys), Landed(records, nextId, keys + [k]).0;
            k in after && Window(after, keys + [k]) == Window(before.0, keys)[k := after[k]]
  {
    LandedStep(records, nextId, keys, k);
    var before, after := Landed(records, nextId, keys), Landed(records, nextId, keys + [k]).0;
    hide Landed;
    forall j | j in keys ensures j in before.0 {
      LandedMember(records, nextId, keys, j);
    }
    WidensWindow(before.0, after, keys, k);
  }

  lemma WidensWindow(before: map<RecordKey, RecordId>, after: map<RecordKey, RecordId>, keys: seq<RecordKey>, k: RecordKey)
    requires (forall j | j in keys :: j in before) && k in after && forall j | j in before :: j in after && after[j] == before[j]
    ensures Window(after, keys + [k]) == Window(before, keys)[k := after[k]]
  {
    assert forall j :: j in keys + [k] <==> j in keys || j == k;
  }

  /** A record is created for each key that was not there, and for no other. */
  lemma {:induction false} LandedGrows(records: map<RecordKey, RecordId>, nextId: nat, keys: seq<RecordKey>)
    ensures Grown(records, Landed(records, nextId, keys).0, Landed(records, nextId, keys).1 - nextId)
    ensures Landed(records, nextId, keys).1 >= nextId
  {
    hide Grown, Landed;
    if keys == [] {
      NoneLanded(records, nextId);
      GrownAtAll(records);
    } else {
      var n := |keys| - 1;
      LandedGrows(records, nextId, keys[..n]);
      var before := Landed(records, nextId, keys[..n]);
      assert keys == keys[..n] + [keys[n]];
      LandedStep(records, nextId, keys[..n], keys[n]);
      if keys[n] !in before.0 {
        GrownOnce(records, before.0, before.1 - nextId, keys[n], before.1);
      }
    }
  }

  lemma {:induction false} LandedMember(records: map<RecordKey, RecordId>, nextId: nat, keys: seq<RecordKey>, k: RecordKey)
    ensures k in Landed(records, nextId, keys).0 <==> k in records || k in keys
  {
    if keys != [] {
      var n := |keys| - 1;
      LandedMember(records, nextId, keys[..n], k);
      assert keys == keys[..n] + [keys[n]];
    }
  }

  lemma GrownAtAll<K, V(!new)>(records: map<K, V>)
    ensures Grown(records, records, 0)
  {
    assert records.Keys - records.Keys == {};
  }

  // ---- The same, on the tables ----

  class MatchTables {
    var records: map<RecordKey, RecordId>
    var nextId: nat
    var rows: I.Rows
    var capture: Option<Capture>

    ghost function View(): Day
      reads this
    {
      Day(records, nextId, rows, capture)
    }

    constructor (d: Day)
      ensures View() == d
    {
      records, nextId, rows, capture := d.records, d.nextId, d.rows, d.capture;
    }

    /** The ungated set-based upsert, as far as identity goes, and the records it came back
        with. */
    method LandRecords(keys: seq<RecordKey>) returns (window: map<RecordKey, RecordId>, newCount: nat)
      modifies this`records, this`nextId
      ensures (records, nextId) == Landed(old(records), old(nextId), keys)
      ensures window == Window(records, keys) && newCount == nextId - old(nextId)
    {
      hide Landed, Window;
      window, newCount := map[], 0;
      NoneLanded(records, nextId);
      NoWindow(records);
      assert keys[..0] == [];
      for n := 0 to |keys|
        invariant (records, nextId) == Landed(old(records), old(nextId), keys[..n])
        invariant window == Window(records, keys[..n])
        invariant nextId == old(nextId) + newCount
      {
        assert keys[..n + 1] == keys[..n] + [keys[n]];
        LandedStep(old(records), old(nextId), keys[..n], keys[n]);
        WindowStep(old(records), old(nextId), keys[..n], keys[n]);
        if keys[n] !in records {
          records, nextId, newCount := records[keys[n] := nextId], nextId + 1, newCount + 1;
        }
        window := window[keys[n] := records[keys[n]]];
      }
      assert keys[..|keys|] == keys;
    }

    /** Fails closed on an intimation of a record the window did not resolve. */
    static method IntimationParamsFor(window: map<RecordKey, RecordId>, ps: seq<ParsedIntimation>) returns (items: Option<seq<I.Item>>)
      ensures items == Resolved(window, ps)
    {
      var out := [];
      for n := 0 to |ps|
        invariant Resolved(window, ps[..n]) == Some(out)
      {
        assert ps[..n + 1][..n] == ps[..n];
        if ps[n].key !in window {
          ResolvedStops(window, ps, n + 1);
          return None;
        }
        var id := window[ps[n].key];
        out := out + [I.Item(I.Key(id, ps[n].hash), id, ps[n].status)];
      }
      assert ps[..|ps|] == ps;
      items := Some(out);
    }

    method WriteForTenant(x: Parsed) returns (r: Result<Effect, Fault>)
      modifies this
      ensures match TickTx(old(View()), x)
              case Err(e) => r == Err(e) && View() == old(View())
              case Ok(done) => r == Ok(done.1) && View() == done.0
    {
      var before := (records, nextId, rows, capture);
      var window, newCount := LandRecords(x.records);
      var items := IntimationParamsFor(window, x.intimations);
      if items.None? {
        records, nextId, rows, capture := before.0, before.1, before.2, before.3;
        return Err(UnknownRecord);
      }
      var u := I.Upsert(rows, items.value);
      if u.Err? {
        records, nextId, rows, capture := before.0, before.1, before.2, before.3;
        return Err(RowTouchedTwice);
      }
      rows := u.value.rows;
      var newIntim := u.value.fresh_;
      var touched := {};
      for n := 0 to |newIntim|
        invariant touched == Touched(newIntim[..n])
      {
        assert newIntim[..n + 1] == newIntim[..n] + [newIntim[n]];
        touched := touched + {newIntim[n].recordId};
      }
      assert newIntim[..|newIntim|] == newIntim;
      r := Ok(Effect(newCount, touched, newIntim));
      if newCount == 0 && |newIntim| == 0 {
        return;
      }
      capture := Summed(capture, newCount, if |touched| - newCount < 0 then 0 else |touched| - newCount, |newIntim|);
    }
  }

  lemma ResolvedStops(records: map<RecordKey, RecordId>, ps: seq<ParsedIntimation>, n: nat)
    requires n <= |ps| && Resolved(records, ps[..n]) == None
    ensures Resolved(records, ps) == None
    decreases |ps| - n
  {
    if n < |ps| {
      assert ps[..n + 1][..n] == ps[..n];
      ResolvedStops(records, ps, n + 1);
    } else {
      assert ps[..n] == ps;
    }
  }

  // ---- What a tick counts ----

  /** The keys that land alive for the first time. */
  function FirstLanded(rows: I.Rows, items: seq<I.Item>): set<I.Key> {
    set i | i in items && I.Opens(rows, i) :: i.key
  }

  function KeysOf(changes: seq<I.Change>): set<I.Key> {
    set c | c in changes :: c.key
  }

  lemma {:induction false} OpenedOnceEach(rows: I.Rows, items: seq<I.Item>)
    requires I.DistinctKeys(items)
    ensures |I.Opened(rows, items)| == |KeysOf(I.Opened(rows, items))|
    ensures KeysOf(I.Opened(rows, items)) == FirstLanded(rows, items)
  {
    if items == [] {
      assert KeysOf(I.Opened(rows, items)) == {} == FirstLanded(rows, items);
    } else {
      var n := |items| - 1;
      OpenedOnceEach(rows, items[..n]);
      OpenedGrows(rows, items[..n], items[n]);
      assert items == items[..n] + [items[n]];
    }
  }

  lemma OpenedGrows(rows: I.Rows, items: seq<I.Item>, i: I.Item)
    requires KeysOf(I.Opened(rows, items)) == FirstLanded(rows, items) && |I.Opened(rows, items)| == |KeysOf(I.Opened(rows, items))|
    requires forall x | x in items :: x.key != i.key
    ensures var more := I.Opened(rows, items) + if I.Opens(rows, i) then [I.Change(i.key, I.RowAfter(rows, i).recordId)] else [];
            && KeysOf(more) == FirstLanded(rows, items + [i]) && |more| == |KeysOf(more)|
  {
    var before, c := I.Opened(rows, items), I.Change(i.key, I.RowAfter(rows, i).recordId);
    FirstLandedGrows(rows, items, i);
    KeysGrow(before, c);
    hide KeysOf, FirstLanded, I.Opened, I.RowAfter, I.Opens;
    assert before + [] == before;
  }

  lemma FirstLandedGrows(rows: I.Rows, items: seq<I.Item>, i: I.Item)
    requires forall x | x in items :: x.key != i.key
    ensures FirstLanded(rows, items + [i]) == FirstLanded(rows, items) + if I.Opens(rows, i) then {i.key} else {}
    ensures i.key !in FirstLanded(rows, items)
  {
    hide I.Opens;
    assert forall x :: x in items + [i] <==> x in items || x == i;
  }

  lemma KeysGrow(changes: seq<I.Change>, c: I.Change)
    ensures KeysOf(changes + [c]) == KeysOf(changes) + {c.key}
  {
    assert forall x :: x in changes + [c] <==> x in changes || x == c;
  }

  // ---- A day of ticks ----

  function Tick(d: Day, x: Parsed): Day {
    match TickTx(d, x)
    case Err(_) => d
    case Ok(done) => done.0
  }

  function EffectOf(d: Day, x: Parsed): Effect {
    match TickTx(d, x)
    case Err(_) => Effect(0, {}, [])
    case Ok(done) => done.1
  }

  function Ticked(d: Day, run: seq<Parsed>): Day {
    if run == [] then d else Tick(Ticked(d, run[..|run| - 1]), run[|run| - 1])
  }

  function NewSoFar(c: Option<Capture>): nat { if c.Some? then c.value.recordsNew else 0 }

  function UpdatedSoFar(c: Option<Capture>): nat { if c.Some? then c.value.recordsUpdated else 0 }

  function IntimationsSoFar(c: Option<Capture>): nat { if c.Some? then c.value.intimationsNew else 0 }

  /** The intimations a tick lands alive for the first time: not in the table before it, living
      after it. */
  function LandedBy(d: Day, x: Parsed): set<I.Key> {
    var after := Tick(d, x);
    set k | k in after.rows && k !in d.rows && after.rows[k].status == I.Active
  }

  /** The records those intimations hang off. */
  function TouchedBy(d: Day, x: Parsed): set<RecordId> {
    var after := Tick(d, x);
    set k | k in LandedBy(d, x) && k in after.rows :: after.rows[k].recordId
  }

  /** The intimations that landed alive over a run, each where it first landed. */
  function AliveLanded(d: Day, run: seq<Parsed>): set<I.Key> {
    if run == [] then {}
    else AliveLanded(d, run[..|run| - 1]) + LandedBy(Ticked(d, run[..|run| - 1]), run[|run| - 1])
  }

  /** What one tick does to the tables. */
  ghost predicate TablesLaw(d: Day, after: Day, e: Effect) {
    && d.records.Keys <= after.records.Keys && e.created == |after.records.Keys - d.records.Keys|
    && (forall k | k in d.records :: after.records[k] == d.records[k])
    && d.rows.Keys <= after.rows.Keys
    && |e.fresh_| == |KeysOf(e.fresh_)| && KeysOf(e.fresh_) <= after.rows.Keys && KeysOf(e.fresh_) !! d.rows.Keys
  }

  /** What it adds to the day's row. */
  ghost predicate CaptureLaw(d: Day, after: Day, e: Effect) {
    && NewSoFar(after.capture) == NewSoFar(d.capture) + e.created
    && IntimationsSoFar(after.capture) == IntimationsSoFar(d.capture) + |e.fresh_|
    && UpdatedSoFar(after.capture) == UpdatedSoFar(d.capture) + Updated(|e.touched|, e.created)
  }

  lemma {:induction false} UpsertGrows(rows: I.Rows, items: seq<I.Item>)
    ensures rows.Keys <= I.After(rows, items).Keys
    ensures FirstLanded(rows, items) <= I.After(rows, items).Keys && FirstLanded(rows, items) !! rows.Keys
    ensures forall i | i in items :: i.key in I.After(rows, items)
    ensures I.DistinctKeys(items) ==> forall i | i in items :: I.After(rows, items)[i.key].status == i.status
  {
    if items != [] {
      var n := |items| - 1;
      UpsertGrows(rows, items[..n]);
      assert forall x :: x in items <==> x in items[..n] || x == items[n];
    }
  }

  /** What the statement makes of the table, row by row. */
  lemma {:induction false} AfterAt(rows: I.Rows, items: seq<I.Item>)
    requires I.DistinctKeys(items)
    ensures forall k :: k in I.After(rows, items) <==> k in rows || exists i :: i in items && i.key == k
    ensures forall i | i in items :: I.After(rows, items)[i.key] == I.RowAfter(rows, i)
    ensures forall k | k in rows && (forall i | i in items :: i.key != k) :: I.After(rows, items)[k] == rows[k]
  {
    hide I.RowAfter;
    if items != [] {
      var n := |items| - 1;
      AfterAt(rows, items[..n]);
      assert forall x :: x in items <==> x in items[..n] || x == items[n];
    }
  }

  lemma {:induction false} OpenedAt(rows: I.Rows, items: seq<I.Item>)
    ensures forall c :: c in I.Opened(rows, items) <==> exists i :: i in items && I.Opens(rows, i) && c == I.Change(i.key, i.recordId)
  {
    if items != [] {
      var n := |items| - 1;
      OpenedAt(rows, items[..n]);
      assert forall x :: x in items <==> x in items[..n] || x == items[n];
    }
  }

  /** What is announced as new is what the table gained alive, under the record it was filed at. */
  lemma OpenedIsWhatLanded(rows: I.Rows, items: seq<I.Item>)
    requires I.DistinctKeys(items)
    ensures var after, landed := I.After(rows, items), I.Opened(rows, items);
            && KeysOf(landed) == (set k | k in after && k !in rows && after[k].status == I.Active)
            && Touched(landed) == (set k | k in after && k !in rows && after[k].status == I.Active :: after[k].recordId)
  {
    AfterAt(rows, items);
    OpenedAt(rows, items);
    var after, landed := I.After(rows, items), I.Opened(rows, items);
    hide I.After, I.Opened, I.DistinctKeys;
    forall k | k in after && k !in rows && after[k].status == I.Active
      ensures I.Change(k, after[k].recordId) in landed
    {
      var i :| i in items && i.key == k;
    }
    forall c | c in landed ensures c.key in after && c.key !in rows && after[c.key] == I.Row(c.recordId, I.Active) {
      var i :| i in items && I.Opens(rows, i) && c == I.Change(i.key, i.recordId);
    }
  }

  /** The records a tick counts as touched are read off the tables it leaves. */
  lemma TouchedIsReadOffTheTables(d: Day, x: Parsed)
    ensures EffectOf(d, x).touched == TouchedBy(d, x)
    ensures KeysOf(EffectOf(d, x).fresh_) == LandedBy(d, x)
  {
    hide Landed, Resolved, I.After, I.Opened, Window;
    if TickTx(d, x).Ok? {
      var items := Resolved(Window(Landed(d.records, d.nextId, x.records).0, x.records), x.intimations).value;
      OpenedIsWhatLanded(d.rows, items);
      assert TouchedBy(d, x) == set k | k in LandedBy(d, x) :: Tick(d, x).rows[k].recordId;
    } else {
      NoChanges();
    }
  }

  lemma EveryTickLands(d: Day, x: Parsed)
    ensures TablesLaw(d, Tick(d, x), EffectOf(d, x)) && KeysOf(EffectOf(d, x).fresh_) == LandedBy(d, x)
  {
    hide Landed, Resolved, Window, I.After, I.Opened, FirstLanded, KeysOf, LandedBy, Touched;
    TouchedIsReadOffTheTables(d, x);
    if TickTx(d, x).Ok? {
      LandedGrows(d.records, d.nextId, x.records);
      var landed := Landed(d.records, d.nextId, x.records);
      var items := Resolved(Window(landed.0, x.records), x.intimations).value;
      OpenedOnceEach(d.rows, items);
      UpsertGrows(d.rows, items);
    } else {
      NoChanges();
      assert d.records.Keys - d.records.Keys == {};
    }
  }

  lemma NoChanges()
    ensures KeysOf([]) == {}
  {
  }

  /** A tick that lands nothing new adds nothing; it leaves even the row unopened. */
  lemma EveryTickCounts(d: Day, x: Parsed)
    ensures CaptureLaw(d, Tick(d, x), EffectOf(d, x))
  {
    hide I.Upsert, Landed, Resolved;
    assert Touched([]) == {};
  }

  /** Conservation over any run of ticks, repeated or growing: the row counts the records the
      run created and the intimations it landed alive, each once. */
  lemma {:induction false} TheDayAddsUp(d: Day, run: seq<Parsed>)
    ensures var after := Ticked(d, run);
            && d.records.Keys <= after.records.Keys && (forall k | k in d.records :: after.records[k] == d.records[k])
            && NewSoFar(after.capture) == NewSoFar(d.capture) + |after.records.Keys - d.records.Keys|
            && IntimationsSoFar(after.capture) == IntimationsSoFar(d.capture) + |AliveLanded(d, run)|
            && d.rows.Keys <= after.rows.Keys && AliveLanded(d, run) <= after.rows.Keys - d.rows.Keys
  {
    if run == [] {
      assert d.records.Keys - d.records.Keys == {};
    } else {
      var n := |run| - 1;
      TheDayAddsUp(d, run[..n]);
      var before := Ticked(d, run[..n]);
      EveryTickLands(before, run[n]);
      EveryTickCounts(before, run[n]);
      hide Tick, EffectOf, TickTx, LandedBy;
      assert forall k | k in d.records :: k in before.records;
      GrowthAdds(d.records.Keys, before.records.Keys, Ticked(d, run).records.Keys);
      LandingsAdd(d.rows.Keys, AliveLanded(d, run[..n]), before.rows.Keys, KeysOf(EffectOf(before, run[n]).fresh_), Ticked(d, run).rows.Keys);
    }
  }

  lemma GrowthAdds<T>(a: set<T>, b: set<T>, c: set<T>)
    requires a <= b <= c
    ensures |c - a| == |c - b| + |b - a|
  {
    assert c - a == (c - b) + (b - a);
  }

  lemma LandingsAdd<T>(a: set<T>, landed: set<T>, b: set<T>, fresh_: set<T>, c: set<T>)
    requires a <= b <= c && landed <= b - a && fresh_ <= c && fresh_ !! b
    ensures landed + fresh_ <= c - a && |landed + fresh_| == |landed| + |fresh_|
  {
    assert landed !! fresh_;
  }

  /** A tick over what the day already holds changes nothing at all. */
  lemma TickingAgainChangesNothing(d: Day, x: Parsed)
    requires TickTx(d, x).Ok?
    ensures Tick(Tick(d, x), x) == Tick(d, x)
  {
    var once := Tick(d, x);
    forall k | k in x.records ensures k in once.records {
      LandedMember(d.records, d.nextId, x.records, k);
    }
    LandedAgain(once.records, once.nextId, x.records);
    var items := Resolved(Window(once.records, x.records), x.intimations).value;
    UpsertGrows(d.rows, items);
    UpsertAgain(once.rows, items);
  }

  lemma {:induction false} LandedAgain(records: map<RecordKey, RecordId>, nextId: nat, keys: seq<RecordKey>)
    requires forall k | k in keys :: k in records
    ensures Landed(records, nextId, keys) == (records, nextId)
  {
    if keys != [] {
      LandedAgain(records, nextId, keys[..|keys| - 1]);
    }
  }

  lemma {:induction false} UpsertAgain(after: I.Rows, items: seq<I.Item>)
    requires forall i | i in items :: i.key in after && after[i.key].status == i.status
    ensures I.After(after, items) == after && I.Opened(after, items) == []
  {
    if items != [] {
      var n := |items| - 1;
      assert forall i | i in items[..n] :: i in items;
      UpsertAgain(after, items[..n]);
      assert items[n] in items && I.RowAfter(after, items[n]) == after[items[n].key];
    }
  }

  lemma {:induction false} OpensNothing(rows: I.Rows, items: seq<I.Item>)
    requires forall i | i in items :: i.key in rows
    ensures I.Opened(rows, items) == []
  {
    if items != [] {
      var n := |items| - 1;
      assert forall i | i in items[..n] :: i in items;
      OpensNothing(rows, items[..n]);
      assert items[n] in items;
    }
  }

  /** Resolving takes each intimation to the record under its key, and fails without one. */
  lemma {:induction false} ResolvedAt(records: map<RecordKey, RecordId>, ps: seq<ParsedIntimation>)
    ensures Resolved(records, ps).Some? <==> forall p | p in ps :: p.key in records
    ensures Resolved(records, ps).Some? ==>
              var items := Resolved(records, ps).value;
              && |items| == |ps|
              && forall n | 0 <= n < |ps| :: items[n] == I.Item(I.Key(records[ps[n].key], ps[n].hash), records[ps[n].key], ps[n].status)
  {
    if ps != [] {
      var n := |ps| - 1;
      ResolvedAt(records, ps[..n]);
      assert ps == ps[..n] + [ps[n]];
      assert forall p :: p in ps <==> p in ps[..n] || p == ps[n];
    }
  }

  lemma SameWindow(a: map<RecordKey, RecordId>, b: map<RecordKey, RecordId>, keys: seq<RecordKey>)
    requires forall k | k in keys :: k in a && k in b && b[k] == a[k]
    ensures Window(b, keys) == Window(a, keys)
  {
  }

  /** What a tick that went through leaves behind for a later one: its keys and, under the same
      records, its intimations. */
  lemma TickLeaves(d: Day, x: Parsed)
    requires TickTx(d, x).Ok?
    ensures var once := Tick(d, x);
            && (forall k | k in x.records :: k in once.records)
            && Resolved(Window(once.records, x.records), x.intimations).Some?
            && var items := Resolved(Window(once.records, x.records), x.intimations).value;
               I.DistinctKeys(items) && forall i | i in items :: i.key in once.rows && once.rows[i.key].status == i.status
  {
    var once := Tick(d, x);
    forall k | k in x.records ensures k in once.records {
      LandedMember(d.records, d.nextId, x.records, k);
    }
    UpsertGrows(d.rows, Resolved(Window(once.records, x.records), x.intimations).value);
  }

  /** A tick over the same keys and intimations that are all there adds nothing to the row. */
  lemma NothingNewAddsNothing(d: Day, x: Parsed, items: seq<I.Item>)
    requires forall k | k in x.records :: k in d.records
    requires Resolved(Window(d.records, x.records), x.intimations) == Some(items) && I.DistinctKeys(items)
    requires forall i | i in items :: i.key in d.rows
    ensures TickTx(d, x).Ok? && Tick(d, x).capture == d.capture && Tick(d, x).records == d.records
  {
    LandedAgain(d.records, d.nextId, x.records);
    OpensNothing(d.rows, items);
  }

  /** At whatever later moment of the day the same items are ticked again, no record is created
      and the row stays as it is. */
  lemma TickingLaterAddsNothing(d: Day, x: Parsed, run: seq<Parsed>)
    requires TickTx(d, x).Ok?
    ensures var later := Ticked(Tick(d, x), run);
            Tick(later, x).capture == later.capture && Tick(later, x).records == later.records
  {
    var once := Tick(d, x);
    TickLeaves(d, x);
    TheDayAddsUp(once, run);
    var later, items := Ticked(once, run), Resolved(Window(once.records, x.records), x.intimations).value;
    SameWindow(once.records, later.records, x.records);
    hide Tick, TickTx, Resolved, Ticked, Window;
    assert forall i | i in items :: i.key in later.rows.Keys;
    NothingNewAddsNothing(later, x, items);
  }

  // ---- The updated records ----

  /** The records known before the tick that gained an intimation in it. */
  function Gained(d: Day, x: Parsed): set<RecordId> {
    set id | id in TouchedBy(d, x) && id in d.records.Values
  }

  /** The records the tick created for the intimations it landed. */
  function CreatedAndTouched(d: Day, x: Parsed): set<RecordId> {
    TouchedBy(d, x) - d.records.Values
  }

  lemma {:induction false} LandedNumbers(records: map<RecordKey, RecordId>, nextId: nat, keys: seq<RecordKey>)
    ensures var l := Landed(records, nextId, keys);
            && l.1 >= nextId
            && (forall k | k in records :: k in l.0)
            && forall k | k in l.0 :: if k in records then l.0[k] == records[k] else nextId <= l.0[k] < l.1
  {
    if keys != [] {
      LandedNumbers(records, nextId, keys[..|keys| - 1]);
    }
  }

  lemma ItemsAreNumbered(records: map<RecordKey, RecordId>, nextId: nat, keys: seq<RecordKey>, ps: seq<ParsedIntimation>)
    ensures var landed := Landed(records, nextId, keys);
            var items := Resolved(Window(landed.0, keys), ps);
            items.Some? ==> forall i | i in items.value :: i.recordId in records.Values || nextId <= i.recordId < landed.1
  {
    var landed := Landed(records, nextId, keys);
    LandedNumbers(records, nextId, keys);
    ResolvedAt(Window(landed.0, keys), ps);
    var items := Resolved(Window(landed.0, keys), ps);
    hide Landed, Resolved;
    if items.Some? {
      forall n | 0 <= n < |ps| ensures items.value[n].recordId in records.Values || nextId <= items.value[n].recordId < landed.1 {
        var k := ps[n].key;
        assert ps[n] in ps && k in landed.0 && items.value[n].recordId == landed.0[k];
        if k in records {
          assert records[k] in records.Values;
        }
      }
    }
  }

  /** Whatever a tick touches is a record it knew or one it numbered itself. */
  lemma TouchedAreNumbered(d: Day, x: Parsed)
    ensures forall id | id in TouchedBy(d, x) :: id in d.records.Values || d.nextId <= id < Tick(d, x).nextId
    ensures Tick(d, x).nextId == d.nextId + EffectOf(d, x).created
  {
    TouchedIsReadOffTheTables(d, x);
    ItemsAreNumbered(d.records, d.nextId, x.records, x.intimations);
    var landed := Landed(d.records, d.nextId, x.records);
    var resolved := Resolved(Window(landed.0, x.records), x.intimations);
    hide Landed, Resolved, Window, I.After, I.DistinctKeys, TouchedBy;
    if TickTx(d, x).Ok? {
      OpenedAt(d.rows, resolved.value);
      hide I.Opened;
    }
  }

  lemma {:induction false} IntervalSize(ids: set<int>, low: int, high: int)
    requires low <= high && forall id | id in ids :: low <= id < high
    ensures |ids| <= high - low
    decreases high - low
  {
    if low < high {
      IntervalSize(ids - {low}, low + 1, high);
    } else {
      assert ids == {};
    }
  }

  /** A tick never reports more updated records than already-known ones gained an intimation,
      and reports exactly those if and only if every record it created was touched too, or no
      known one was; a tick that creates no record always does. */
  lemma UpdatedIsHonest(d: Day, x: Parsed)
    ensures var e := EffectOf(d, x);
            && Updated(|e.touched|, e.created) <= |Gained(d, x)|
            && (Updated(|e.touched|, e.created) == |Gained(d, x)|
                <==> |CreatedAndTouched(d, x)| == e.created || Gained(d, x) == {})
            && (e.created == 0 ==> Updated(|e.touched|, e.created) == |Gained(d, x)|)
  {
    TouchedIsReadOffTheTables(d, x);
    TouchedAreNumbered(d, x);
    assert Gained(d, x) == TouchedBy(d, x) * d.records.Values;
    KnownAndCreated(TouchedBy(d, x), d.records.Values, d.nextId, EffectOf(d, x).created);
    hide Tick, TickTx, EffectOf, TouchedBy, Gained;
  }

  lemma KnownAndCreated(touched: set<int>, known: set<int>, nextId: int, created: nat)
    requires forall id | id in touched :: id in known || nextId <= id < nextId + created
    ensures |touched| == |touched * known| + |touched - known|
    ensures |touched - known| <= created
  {
    IntervalSize(touched - known, nextId, nextId + created);
    assert touched == touched * known + (touched - known);
  }

  function GainedInAll(d: Day, run: seq<Parsed>): nat {
    if run == [] then 0
    else GainedInAll(d, run[..|run| - 1]) + |Gained(Ticked(d, run[..|run| - 1]), run[|run| - 1])|
  }

  lemma {:induction false} UpdatedNeverExceedsGained(d: Day, run: seq<Parsed>)
    ensures UpdatedSoFar(Ticked(d, run).capture) <= UpdatedSoFar(d.capture) + GainedInAll(d, run)
  {
    if run != [] {
      var n := |run| - 1;
      UpdatedNeverExceedsGained(d, run[..n]);
      UpdatedIsHonest(Ticked(d, run[..n]), run[n]);
      EveryTickCounts(Ticked(d, run[..n]), run[n]);
      hide Tick, EffectOf, Gained;
    }
  }

  // ---- A grade in between ----

  /** Identifiers given out so far lie below the next one. */
  ghost predicate Numbered(d: Day) {
    forall k | k in d.records :: 0 <= d.records[k] < d.nextId
  }

  lemma NumberedStays(d: Day, x: Parsed)
    requires Numbered(d)
    ensures Numbered(Tick(d, x))
  {
    LandedNumbers(d.records, d.nextId, x.records);
    hide Landed, Resolved, Window, I.Upsert;
  }

  /** What a grade does to the keys the match looks records up by: in place it moves the record
      to the graded key; where a record holds that key it merges, and the placeholder keeps its
      own while its intimations move over. */
  function Regraded(d: Day, k: RecordKey, degree: string): Day
    requires k in d.records
  {
    var to := U.Key(k.cnj, degree);
    if to in d.records then
      d.(rows := map r | r in d.rows ::
           if d.rows[r].recordId == d.records[k] then d.rows[r].(recordId := d.records[to]) else d.rows[r])
    else
      d.(records := (map x | x in d.records && x != k :: d.records[x])[to := d.records[k]])
  }

  lemma {:induction false} LandedOne(records: map<RecordKey, RecordId>, nextId: nat, keys: seq<RecordKey>, k: RecordKey)
    requires k !in records && forall j | j in keys :: j in records || j == k
    ensures Landed(records, nextId, keys) == if k in keys then (records[k := nextId], nextId + 1) else (records, nextId)
  {
    if keys != [] {
      var n := |keys| - 1;
      assert keys == keys[..n] + [keys[n]] && forall j | j in keys[..n] :: j in keys;
      LandedOne(records, nextId, keys[..n], k);
    }
  }

  /** The intimations of the moved key resolve to the new record; they stay distinct. */
  lemma MovedStayDistinct(a: map<RecordKey, RecordId>, b: map<RecordKey, RecordId>, ps: seq<ParsedIntimation>, k: RecordKey, id: RecordId)
    requires k in a && k in b && b[k] == id && Resolved(a, ps).Some? && I.DistinctKeys(Resolved(a, ps).value)
    requires forall j | j in a && j != k :: j in b && b[j] == a[j] && a[j] != id
    ensures Resolved(b, ps).Some? && I.DistinctKeys(Resolved(b, ps).value)
  {
    ResolvedAt(a, ps);
    ResolvedAt(b, ps);
    var x, y := Resolved(a, ps).value, Resolved(b, ps).value;
    forall i, j | 0 <= i < j < |y| ensures y[i].key != y[j].key {
      assert ps[i] in ps && ps[j] in ps && x[i].key != x[j].key;
    }
  }

  /** What a tick that went through finds of its own when it is repeated. */
  ghost predicate AllThere(once: Day, x: Parsed) {
    && (forall j | j in x.records :: j in once.records)
    && Resolved(Window(once.records, x.records), x.intimations).Some?
    && var items := Resolved(Window(once.records, x.records), x.intimations).value;
       I.DistinctKeys(items) && forall i | i in items :: i.key in once.rows
  }

  /** A grade that moved a key the tick names: the tick lands a second record and counts it. */
  lemma AMovedKeyCountsAgain(once: Day, x: Parsed, k: RecordKey, degree: string)
    requires Numbered(once) && AllThere(once, x)
    requires k in once.records && k in x.records && U.Key(k.cnj, degree) !in once.records
    ensures Tick(Regraded(once, k, degree), x).capture != once.capture
  {
    var graded := Regraded(once, k, degree);
    LandedOne(graded.records, graded.nextId, x.records, k);
    var landed := graded.records[k := graded.nextId];
    MovedStayDistinct(Window(once.records, x.records), Window(landed, x.records), x.intimations, k, graded.nextId);
    hide Resolved, Landed, Window, I.After, I.Opened;
    assert TickTx(graded, x).Ok?;
  }

  lemma AnUnnamedKeyCountsNothing(once: Day, x: Parsed, k: RecordKey, degree: string)
    requires AllThere(once, x) && k in once.records && k !in x.records && U.Key(k.cnj, degree) !in once.records
    ensures Tick(Regraded(once, k, degree), x).capture == once.capture
  {
    var graded := Regraded(once, k, degree);
    SameWindow(once.records, graded.records, x.records);
    NothingNewAddsNothing(graded, x, Resolved(Window(once.records, x.records), x.intimations).value);
  }

  /** When a grade between two ticks of the same items leaves the day's row alone: exactly when
      the tick does not name the graded record, or the record kept its key, because it had that
      grade already or was merged into a record that had. */
  lemma WhenAGradeInBetweenIsHarmless(d: Day, x: Parsed, k: RecordKey, degree: string)
    requires Numbered(d) && TickTx(d, x).Ok? && k in Tick(d, x).records
    ensures var once := Tick(d, x);
            Tick(Regraded(once, k, degree), x).capture == once.capture
            <==> k !in x.records || U.Key(k.cnj, degree) in once.records
  {
    var once := Tick(d, x);
    NumberedStays(d, x);
    TickLeaves(d, x);
    hide Tick, TickTx, Resolved, Landed, Window, I.DistinctKeys;
    assert AllThere(once, x);
    if U.Key(k.cnj, degree) in once.records {
      var graded := Regraded(once, k, degree);
      assert graded.rows.Keys == once.rows.Keys;
      NothingNewAddsNothing(graded, x, Resolved(Window(once.records, x.records), x.intimations).value);
    } else if k in x.records {
      AMovedKeyCountsAgain(once, x, k, degree);
    } else {
      AnUnnamedKeyCountsNothing(once, x, k, degree);
    }
  }

  const FOUND := U.Key("0001", "UNKNOWN")
  const NOTICE := Parsed([FOUND], [ParsedIntimation(FOUND, "h", I.Active)])

  /** It happens: a record graded between two ticks of the same publication; the second tick
      lands the publication anew, under a second record, and counts it again. */
  lemma AGradeInBetweenCountsAgain()
    ensures var once := Tick(Day(map[], 0, map[], None), NOTICE);
            && FOUND in once.records
            && once.capture == Some(Capture(1, 0, 1))
            && Tick(once, NOTICE).capture == Some(Capture(1, 0, 1))
            && Tick(Regraded(once, FOUND, "G1"), NOTICE).capture == Some(Capture(2, 0, 2))
  {
    var empty := Day(map[], 0, map[], None);
    FirstTick(empty);
    var once := Tick(empty, NOTICE);
    TickingAgainChangesNothing(empty, NOTICE);
    var graded := Regraded(once, FOUND, "G1");
    FirstTick(graded);
  }

  /** The notice lands on a day that has neither its record nor its intimation. */
  lemma FirstTick(d: Day)
    requires FOUND !in d.records && I.Key(d.nextId, "h") !in d.rows
    ensures TickTx(d, NOTICE).Ok?
    ensures Tick(d, NOTICE) == Day(d.records[FOUND := d.nextId], d.nextId + 1, d.rows[I.Key(d.nextId, "h") := I.Row(d.nextId, I.Active)],
                                   Summed(d.capture, 1, 0, 1))
  {
    var none: seq<RecordKey> := [];
    assert [FOUND][..0] == none && Landed(d.records, d.nextId, none) == (d.records, d.nextId);
    var landed := d.records[FOUND := d.nextId];
    assert Landed(d.records, d.nextId, [FOUND]) == (landed, d.nextId + 1);
    var noItems: seq<ParsedIntimation> := [];
    var window := Window(landed, [FOUND]);
    assert NOTICE.intimations[..0] == noItems && Resolved(window, noItems) == Some([]);
    var item := I.Item(I.Key(d.nextId, "h"), d.nextId, I.Active);
    assert [] + [item] == [item];
    assert Resolved(window, NOTICE.intimations) == Some([item]);
    var before: seq<I.Item> := [];
    assert [item][..0] == before && I.After(d.rows, before) == d.rows && I.Opened(d.rows, before) == [];
    var change := I.Change(item.key, d.nextId);
    assert I.Opened(d.rows, [item]) == [] + [change] == [change];
    assert Touched([change]) == {d.nextId};
  }
}
