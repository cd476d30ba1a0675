/** The set-based upsert of a window's intimations and the events it calls for. */
module Intimations {
  import opened Wrappers

  type CaseId = int
  type RecordId = int
  type Hash = string

  /** ON CONFLICT (tenant, case, hash). */
  datatype Key = Key(caseId: CaseId, hash: Hash)

  datatype Status = Active | Cancelled

  datatype Item = Item(key: Key, recordId: RecordId, status: Status)

  /** A conflict refreshes the status and keeps the record the row was first filed under. */
  datatype Row = Row(recordId: RecordId, status: Status)

  datatype Change = Change(key: Key, recordId: RecordId)

  /** ON CONFLICT DO UPDATE refuses to touch a row twice in one statement. */
  datatype Fault = RowTouchedTwice

  type Rows = map<Key, Row>

  datatype Upserted = Upserted(rows: Rows, fresh_: seq<Change>, cancelled: seq<Change>)

  predicate DistinctKeys(items: seq<Item>) {
    forall i, j | 0 <= i < j < |items| :: items[i].key != items[j].key
  }

  function RowAfter(rows: Rows, i: Item): Row {
    Row(if i.key in rows then rows[i.key].recordId else i.recordId, i.status)
  }

  /** A first insert that is alive. One that arrives already cancelled opens nothing. */
  predicate Opens(rows: Rows, i: Item) {
    i.key !in rows && i.status == Active
  }

  /** A row that was alive and is retracted now. */
  predicate Revokes(rows: Rows, i: Item) {
    i.key in rows && rows[i.key].status == Active && i.status == Cancelled
  }

  function After(rows: Rows, items: seq<Item>): Rows {
    if items == [] then rows
    else After(rows, items[..|items| - 1])[items[|items| - 1].key := RowAfter(rows, items[|items| - 1])]
  }

  function Opened(rows: Rows, items: seq<Item>): seq<Change> {
    if items == [] then []
    else
      var i := items[|items| - 1];
      Opened(rows, items[..|items| - 1]) + if Opens(rows, i) then [Change(i.key, RowAfter(rows, i).recordId)] else []
  }

  function Revoked(rows: Rows, items: seq<Item>): seq<Change> {
    if items == [] then []
    else
      var i := items[|items| - 1];
      Revoked(rows, items[..|items| - 1]) + if Revokes(rows, i) then [Change(i.key, RowAfter(rows, i).recordId)] else []
  }

  function Upsert(rows: Rows, items: seq<Item>): Result<Upserted, Fault> {
    if !DistinctKeys(items) then Err(RowTouchedTwice)
    else Ok(Upserted(After(rows, items), Opened(rows, items), Revoked(rows, items)))
  }

  // ---- The same, on the table ----

  /** A returned row: what the statement wrote beside the status before it. */
  datatype Returned = Returned(key: Key, row: Row, inserted: bool, oldStatus: Option<Status>)

  class IntimationTable {
    var rows: Rows

    constructor (r: Rows)
      ensures rows == r
    {
      rows := r;
    }

    /** BatchUpsertIntimations: one statement; the old statuses are those of its snapshot. */
    method BatchUpsert(items: seq<Item>) returns (r: Result<seq<Returned>, Fault>)
      modifies this
      ensures !DistinctKeys(items) ==> r == Err(RowTouchedTwice) && rows == old(rows)
      ensures DistinctKeys(items) ==>
                && r.Ok? && rows == After(old(rows), items) && |r.value| == |items|
                && forall i | 0 <= i < |items| ::
                     r.value[i] == Returned(items[i].key, RowAfter(old(rows), items[i]), items[i].key !in old(rows),
                                            if items[i].key in old(rows) then Some(old(rows)[items[i].key].status) else None)
    {
      if !DistinctKeys(items) {
        return Err(RowTouchedTwice);
      }
      var snapshot := rows;
      var out := [];
      for n := 0 to |items|
        invariant rows == After(snapshot, items[..n]) && snapshot == old(rows)
        invariant |out| == n
        invariant forall i | 0 <= i < n ::
                    out[i] == Returned(items[i].key, RowAfter(snapshot, items[i]), items[i].key !in snapshot,
                                       if items[i].key in snapshot then Some(snapshot[items[i].key].status) else None)
      {
        assert items[..n + 1][..n] == items[..n];
        var i := items[n];
        var row := RowAfter(snapshot, i);
        rows := rows[i.key := row];
        out := out + [Returned(i.key, row, i.key !in snapshot, if i.key in snapshot then Some(snapshot[i.key].status) else None)];
      }
      assert items[..|items|] == items;
      r := Ok(out);
    }

    method UpsertIntimations(items: seq<Item>) returns (r: Result<(seq<Change>, seq<Change>), Fault>)
      modifies this
      ensures match Upsert(old(rows), items)
              case Err(e) => r == Err(e) && rows == old(rows)
              case Ok(u) => r == Ok((u.fresh_, u.cancelled)) && rows == u.rows
    {
      ghost var before := rows;
      var upserted := BatchUpsert(items);
      if upserted.Err? {
        return Err(upserted.error);
      }
      var newRows, cancelledRows := [], [];
      for n := 0 to |items|
        invariant newRows == Opened(before, items[..n]) && cancelledRows == Revoked(before, items[..n])
      {
        assert items[..n + 1][..n] == items[..n];
        var row := upserted.value[n];
        var change := Change(row.key, row.row.recordId);
        if row.inserted {
          if row.row.status != Cancelled {
            newRows := newRows + [change];
          }
        } else if row.oldStatus != Some(Cancelled) && row.row.status == Cancelled {
          cancelledRows := cancelledRows + [change];
        }
      }
      assert items[..|items|] == items;
      r := Ok((newRows, cancelledRows));
    }
  }

  // ---- What a statement says of one intimation ----

  datatype Event = Observed | Retracted

  /** The status a statement presents for a key, if it names it. */
  function Presented(items: seq<Item>, k: Key): Option<Status> {
    if items == [] then None
    else if items[|items| - 1].key == k then Some(items[|items| - 1].status)
    else Presented(items[..|items| - 1], k)
  }

  function Names(changes: seq<Change>, k: Key): nat {
    if changes == [] then 0 else Names(changes[..|changes| - 1], k) + if changes[|changes| - 1].key == k then 1 else 0
  }

  function EventsOf(u: Upserted, k: Key): seq<Event> {
    seq(Names(u.fresh_, k), i => Observed) + seq(Names(u.cancelled, k), i => Retracted)
  }

  lemma NamesAppend(a: seq<Change>, k: Key, c: Change)
    ensures Names(a + [c], k) == Names(a, k) + if c.key == k then 1 else 0
  {
    assert (a + [c])[..|a + [c]| - 1] == a;
  }

  lemma {:induction false} OneStatement(rows: Rows, items: seq<Item>, k: Key)
    requires DistinctKeys(items)
    ensures var s := Presented(items, k);
            && (s.None? ==> (k in After(rows, items) <==> k in rows) && (k in rows ==> After(rows, items)[k] == rows[k]))
            && (s.Some? ==> k in After(rows, items) && After(rows, items)[k].status == s.value)
            && Names(Opened(rows, items), k) == (if s == Some(Active) && k !in rows then 1 else 0)
            && Names(Revoked(rows, items), k) == (if s == Some(Cancelled) && k in rows && rows[k].status == Active then 1 else 0)
            && (s.Some? <==> exists i :: i in items && i.key == k)
  {
    hide Names, Opened, Revoked, After, Presented;
    if items == [] {
      NoItems(rows, k);
    } else {
      var n := |items| - 1;
      OneStatement(rows, items[..n], k);
      assert items == items[..n] + [items[n]] && forall x | x in items[..n] :: x.key != items[n].key;
      OneMoreItem(rows, items[..n], items[n], k);
    }
  }

  lemma NoItems(rows: Rows, k: Key)
    ensures After(rows, []) == rows && Presented([], k) == None && Names(Opened(rows, []), k) == 0 && Names(Revoked(rows, []), k) == 0
  {
  }

  /** How one more item shows in what the statement says of a key. */
  lemma OneMoreItem(rows: Rows, items: seq<Item>, i: Item, k: Key)
    ensures var all := items + [i];
            && After(rows, all) == After(rows, items)[i.key := RowAfter(rows, i)]
            && Presented(all, k) == (if i.key == k then Some(i.status) else Presented(items, k))
            && Names(Opened(rows, all), k) == Names(Opened(rows, items), k) + (if Opens(rows, i) && i.key == k then 1 else 0)
            && Names(Revoked(rows, all), k) == Names(Revoked(rows, items), k) + (if Revokes(rows, i) && i.key == k then 1 else 0)
            && forall x :: x in all <==> x in items || x == i
  {
    OneMoreOpened(rows, items, i, k);
    OneMoreRevoked(rows, items, i, k);
    hide Names, Opened, Revoked, RowAfter, Opens, Revokes;
    var all := items + [i];
    assert all[..|items|] == items && all[|items|] == i;
  }

  lemma OneMoreOpened(rows: Rows, items: seq<Item>, i: Item, k: Key)
    ensures Names(Opened(rows, items + [i]), k) == Names(Opened(rows, items), k) + (if Opens(rows, i) && i.key == k then 1 else 0)
  {
    NamesAppend(Opened(rows, items), k, Change(i.key, RowAfter(rows, i).recordId));
    hide Names, RowAfter, Opens;
    assert (items + [i])[..|items|] == items;
    assert Opened(rows, items) + [] == Opened(rows, items);
  }

  lemma OneMoreRevoked(rows: Rows, items: seq<Item>, i: Item, k: Key)
    ensures Names(Revoked(rows, items + [i]), k) == Names(Revoked(rows, items), k) + (if Revokes(rows, i) && i.key == k then 1 else 0)
  {
    NamesAppend(Revoked(rows, items), k, Change(i.key, RowAfter(rows, i).recordId));
    hide Names, RowAfter, Revokes;
    assert (items + [i])[..|items|] == items;
    assert Revoked(rows, items) + [] == Revoked(rows, items);
  }

  /** What the table knows of an intimation. */
  function StateOf(rows: Rows, k: Key): Option<Status> {
    if k in rows then Some(rows[k].status) else None
  }

  /** What a statement that commits says of it. */
  function Said(items: seq<Item>, k: Key): Option<Status> {
    if DistinctKeys(items) then Presented(items, k) else None
  }

  /** A statement that faults is rolled back and says nothing. */
  function Commit(rows: Rows, items: seq<Item>): Rows {
    match Upsert(rows, items)
    case Err(_) => rows
    case Ok(u) => u.rows
  }

  function Emitted(rows: Rows, items: seq<Item>, k: Key): seq<Event> {
    match Upsert(rows, items)
    case Err(_) => []
    case Ok(u) => EventsOf(u, k)
  }

  /** Observed on a first living insert, retracted on a transition, else nothing. */
  lemma EventsOfOneStatement(rows: Rows, items: seq<Item>, k: Key)
    ensures var s, said := StateOf(rows, k), Said(items, k);
            && StateOf(Commit(rows, items), k) == (if said.Some? then said else s)
            && Emitted(rows, items, k) == (if s == None && said == Some(Active) then [Observed]
                                           else if s == Some(Active) && said == Some(Cancelled) then [Retracted]
                                           else [])
  {
    if DistinctKeys(items) {
      OneStatement(rows, items, k);
    }
  }

  // ---- Any run of upserts ----

  function RowsAfter(rows: Rows, run: seq<seq<Item>>): Rows {
    if run == [] then rows else Commit(RowsAfter(rows, run[..|run| - 1]), run[|run| - 1])
  }

  /** The events of one intimation over a run, in order. */
  function History(rows: Rows, run: seq<seq<Item>>, k: Key): seq<Event> {
    if run == [] then []
    else History(rows, run[..|run| - 1], k) + Emitted(RowsAfter(rows, run[..|run| - 1]), run[|run| - 1], k)
  }

  /** The source never takes a retraction back: no committed statement presents a key as alive
      that the table holds as cancelled. */
  ghost predicate NeverRevived(rows: Rows, run: seq<seq<Item>>, k: Key) {
    forall n | 0 <= n < |run| :: Said(run[n], k) == Some(Active) ==> StateOf(RowsAfter(rows, run[..n]), k) != Some(Cancelled)
  }

  /** Then the life of an intimation is a prefix of observed, retracted: each at most once, in
      that order, and nothing at all for one that first arrives cancelled. */
  lemma {:induction false} OneLife(rows: Rows, run: seq<seq<Item>>, k: Key)
    requires StateOf(rows, k) == None && NeverRevived(rows, run, k)
    ensures match StateOf(RowsAfter(rows, run), k)
            case None => History(rows, run, k) == []
            case Some(Active) => History(rows, run, k) == [Observed]
            case Some(Cancelled) => History(rows, run, k) == [] || History(rows, run, k) == [Observed, Retracted]
  {
    hide Commit, Emitted, Said, StateOf;
    if run != [] {
      var n := |run| - 1;
      forall m | 0 <= m < n
        ensures Said(run[..n][m], k) == Some(Active) ==> StateOf(RowsAfter(rows, run[..n][..m]), k) != Some(Cancelled)
      {
        assert run[..n][..m] == run[..m];
      }
      OneLife(rows, run[..n], k);
      EventsOfOneStatement(RowsAfter(rows, run[..n]), run[n], k);
    }
  }

  /** How often the row of `k` went from alive to cancelled. */
  function Transitions(rows: Rows, run: seq<seq<Item>>, k: Key): nat {
    if run == [] then 0
    else
      var before, after := StateOf(RowsAfter(rows, run[..|run| - 1]), k), StateOf(RowsAfter(rows, run), k);
      Transitions(rows, run[..|run| - 1], k) + if before == Some(Active) && after == Some(Cancelled) then 1 else 0
  }

  /** How often `e` occurs among the events. */
  function Count(h: seq<Event>, e: Event): nat {
    multiset(h)[e]
  }

  /** Whatever the source does: one retraction for each transition, and one observation in all,
      for the first living insert. */
  lemma {:induction false} RetractionsAreTransitions(rows: Rows, run: seq<seq<Item>>, k: Key)
    ensures Count(History(rows, run, k), Retracted) == Transitions(rows, run, k)
    ensures Count(History(rows, run, k), Observed) <= if StateOf(rows, k) == None && StateOf(RowsAfter(rows, run), k) != None then 1 else 0
    ensures StateOf(rows, k) != None ==> StateOf(RowsAfter(rows, run), k) != None
  {
    hide Commit, Emitted, Said, StateOf;
    if run != [] {
      var n := |run| - 1;
      RetractionsAreTransitions(rows, run[..n], k);
      EventsOfOneStatement(RowsAfter(rows, run[..n]), run[n], k);
    }
  }
}
