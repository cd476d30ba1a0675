/** Deriving a process's liveness from its movements: an in-place stable sort, newest first, and
    a scan. */
module Lifecycle {
  import opened Wrappers

  /** A movement whose date does not parse has no instant. */
  datatype Movement = Movement(code: int, at: Option<int>)

  datatype Timed = Timed(code: int, at: int)

  datatype Liveness = Active | Suspended | Archived

  predicate Terminal(m: Timed) { m.code in {22, 196} }

  predicate Suspends(m: Timed) { m.code in {25, 12065} }

  predicate Reactivates(m: Timed) { m.code in {893, 12066} }

  predicate Anything(m: Timed) { true }

  /** A movement that decides whether a terminal one stands. */
  predicate Signals(m: Timed) { Terminal(m) || Reactivates(m) }

  function Valid(movs: seq<Movement>): seq<Timed> {
    if movs == [] then []
    else
      var m := movs[|movs| - 1];
      Valid(movs[..|movs| - 1]) + if m.at.Some? then [Timed(m.code, m.at.value)] else []
  }

  // ---- The sort ----

  /** Past everything strictly older, behind everything newer or as old. */
  function Insert(s: seq<Timed>, x: Timed): seq<Timed> {
    if s == [] || x.at <= s[|s| - 1].at then s + [x] else Insert(s[..|s| - 1], x) + [s[|s| - 1]]
  }

  function Sorted(s: seq<Timed>): seq<Timed> {
    if s == [] then [] else Insert(Sorted(s[..|s| - 1]), s[|s| - 1])
  }

  lemma {:induction false} InsertSize(s: seq<Timed>, x: Timed)
    ensures |Insert(s, x)| == |s| + 1
  {
    if s != [] && x.at > s[|s| - 1].at {
      InsertSize(s[..|s| - 1], x);
    }
  }

  lemma {:induction false} SortedSize(s: seq<Timed>)
    ensures |Sorted(s)| == |s|
  {
    if s != [] {
      SortedSize(s[..|s| - 1]);
      InsertSize(Sorted(s[..|s| - 1]), s[|s| - 1]);
    }
  }

  predicate Descending(s: seq<Timed>) {
    forall i, j | 0 <= i < j < |s| :: s[i].at >= s[j].at
  }

  lemma {:induction false} InsertMembers(s: seq<Timed>, x: Timed)
    ensures forall y :: y in Insert(s, x) <==> y in s || y == x
  {
    if s != [] && x.at > s[|s| - 1].at {
      InsertMembers(s[..|s| - 1], x);
      assert s == s[..|s| - 1] + [s[|s| - 1]];
    }
  }

  lemma {:induction false} InsertDescends(s: seq<Timed>, x: Timed)
    requires Descending(s)
    ensures Descending(Insert(s, x))
  {
    if s != [] && x.at > s[|s| - 1].at {
      var n := |s| - 1;
      InsertDescends(s[..n], x);
      InsertMembers(s[..n], x);
      var front := Insert(s[..n], x);
      forall i | 0 <= i < |front| ensures front[i].at >= s[n].at {
        assert front[i] in front;
      }
    }
  }

  /** The movements of one instant, in their order. */
  function AtInstant(s: seq<Timed>, t: int): seq<Timed> {
    if s == [] then [] else AtInstant(s[..|s| - 1], t) + if s[|s| - 1].at == t then [s[|s| - 1]] else []
  }

  lemma AtInstantGrows(s: seq<Timed>, x: Timed, t: int)
    ensures AtInstant(s + [x], t) == AtInstant(s, t) + if x.at == t then [x] else []
  {
    assert (s + [x])[..|s|] == s;
  }

  /** Moving past strictly older movements overtakes none of its own instant. */
  lemma {:induction false} InsertIsStable(s: seq<Timed>, x: Timed, t: int)
    ensures AtInstant(Insert(s, x), t) == AtInstant(s, t) + if x.at == t then [x] else []
  {
    if s == [] || x.at <= s[|s| - 1].at {
      AtInstantGrows(s, x, t);
    } else {
      var n := |s| - 1;
      InsertIsStable(s[..n], x, t);
      var before, after := s[..n], Insert(s[..n], x);
      assert s == before + [s[n]] && Insert(s, x) == after + [s[n]];
      hide Insert, AtInstant;
      AtInstantGrows(before, s[n], t);
      AtInstantGrows(after, s[n], t);
      assert s[n].at == t ==> x.at != t;
    }
  }

  lemma {:induction false} InsertPermutes(s: seq<Timed>, x: Timed)
    ensures multiset(Insert(s, x)) == multiset(s) + multiset{x}
  {
    if s != [] && x.at > s[|s| - 1].at {
      InsertPermutes(s[..|s| - 1], x);
      assert s == s[..|s| - 1] + [s[|s| - 1]];
    }
  }

  /** A stable sort, newest first: the same movements, no older one before a newer, and those of
      any one instant in the order they came. */
  ghost predicate StablyNewestFirst(input: seq<Timed>, output: seq<Timed>) {
    && multiset(output) == multiset(input) && Descending(output)
    && forall t :: AtInstant(output, t) == AtInstant(input, t)
  }

  lemma {:induction false} SortedIsStable(s: seq<Timed>)
    ensures StablyNewestFirst(s, Sorted(s))
  {
    if s != [] {
      var n := |s| - 1;
      SortedIsStable(s[..n]);
      InsertDescends(Sorted(s[..n]), s[n]);
      InsertPermutes(Sorted(s[..n]), s[n]);
      assert s == s[..n] + [s[n]];
      forall t ensures AtInstant(Sorted(s), t) == AtInstant(s, t) {
        InsertIsStable(Sorted(s[..n]), s[n], t);
      }
    }
  }

  lemma InsertStep(prefix: seq<Timed>, x: Timed, j: nat)
    requires 0 < j <= |prefix| && x.at > prefix[j - 1].at
    requires Insert(prefix, x) == Insert(prefix[..j], x) + prefix[j..]
    ensures Insert(prefix, x) == Insert(prefix[..j - 1], x) + prefix[j - 1..]
  {
    assert prefix[..j][..j - 1] == prefix[..j - 1] && [prefix[j - 1]] + prefix[j..] == prefix[j - 1..];
  }

  lemma InsertStops(prefix: seq<Timed>, x: Timed, j: nat)
    requires j <= |prefix| && (j == 0 || x.at <= prefix[j - 1].at)
    requires Insert(prefix, x) == Insert(prefix[..j], x) + prefix[j..]
    ensures Insert(prefix, x) == prefix[..j] + [x] + prefix[j..]
  {
  }

  /** The inner loop: the i-th element moves up past everything strictly older. */
  method MoveUp(a: array<Timed>, i: nat)
    requires i < a.Length
    modifies a
    ensures a[..i + 1] == Insert(old(a[..i]), old(a[i])) && a[i + 1..] == old(a[i + 1..])
  {
    hide Insert;
    ghost var x, prefix := a[i], a[..i];
    var j := i;
    assert prefix[..i] == prefix && prefix[i..] == [];
    while j > 0 && a[j].at > a[j - 1].at
      invariant 0 <= j <= i && a[j] == x
      invariant forall k | 0 <= k < j :: a[k] == prefix[k]
      invariant forall k | j < k <= i :: a[k] == prefix[k - 1]
      invariant forall k | i < k < a.Length :: a[k] == old(a[k])
      invariant Insert(prefix, x) == Insert(prefix[..j], x) + prefix[j..]
    {
      InsertStep(prefix, x, j);
      a[j], a[j - 1] := a[j - 1], a[j];
      j := j - 1;
    }
    InsertStops(prefix, x, j);
    assert a[..i + 1] == prefix[..j] + [x] + prefix[j..];
  }

  method SortNewestFirst(a: array<Timed>)
    modifies a
    ensures StablyNewestFirst(old(a[..]), a[..])
    ensures a[..] == Sorted(old(a[..]))
  {
    ghost var input := a[..];
    SortedIsStable(input);
    if a.Length == 0 {
      return;
    }
    assert input[..1] == [input[0]] && Sorted([]) == [] && input[..1][..0] == [];
    for i := 1 to a.Length
      invariant a[..i] == Sorted(input[..i])
      invariant a[i..] == input[i..]
    {
      assert a[i] == a[i..][0] == input[i] && input[..i + 1][..i] == input[..i];
      assert a[i..][1..] == a[i + 1..] && input[i..][1..] == input[i + 1..];
      MoveUp(a, i);
    }
    assert a[..a.Length] == a[..] && input[..a.Length] == input;
  }

  // ---- The scan ----

  /** Walking from the newest, a terminal movement is met before any reactivation. */
  predicate Concluded(s: seq<Timed>) {
    s != [] && !Reactivates(s[0]) && (Terminal(s[0]) || Concluded(s[1..]))
  }

  function Verdict(valid: seq<Timed>): Liveness {
    if valid == [] then Active
    else
      SortedSize(valid);
      if Concluded(Sorted(valid)) then Archived
      else if Suspends(Sorted(valid)[0]) then Suspended
      else Active
  }

  method LifecycleFromMovimentos(movs: seq<Movement>) returns (l: Liveness)
    ensures l == Verdict(Valid(movs))
  {
    var valid: seq<Timed> := [];
    for i := 0 to |movs|
      invariant valid == Valid(movs[..i])
    {
      assert movs[..i + 1][..i] == movs[..i];
      if movs[i].at.Some? {
        valid := valid + [Timed(movs[i].code, movs[i].at.value)];
      }
    }
    assert movs[..|movs|] == movs;
    if |valid| == 0 {
      return Active;
    }
    var a := new Timed[|valid|](i requires 0 <= i < |valid| => valid[i]);
    assert a[..] == valid;
    SortNewestFirst(a);
    SortedSize(valid);
    ghost var sorted := a[..];
    var n := 0;
    while n < a.Length
      invariant 0 <= n <= a.Length && a[..] == sorted
      invariant Concluded(sorted) == Concluded(sorted[n..])
    {
      assert sorted[n..][1..] == sorted[n + 1..];
      if Reactivates(a[n]) {
        break;
      }
      if Terminal(a[n]) {
        return Archived;
      }
      n := n + 1;
    }
    if Suspends(a[0]) {
      return Suspended;
    }
    l := Active;
  }

  // ---- The verdict, in terms of the input ----

  /** The newest movement of a kind, the first in the input on ties. */
  function Newest(s: seq<Timed>, p: Timed -> bool): Option<Timed> {
    if s == [] then None
    else
      var before, x := Newest(s[..|s| - 1], p), s[|s| - 1];
      if p(x) && (before.None? || x.at > before.value.at) then Some(x) else before
  }

  function First(s: seq<Timed>, p: Timed -> bool): Option<Timed> {
    if s == [] then None else if p(s[0]) then Some(s[0]) else First(s[1..], p)
  }

  lemma {:induction false} FirstAppend(s: seq<Timed>, t: seq<Timed>, p: Timed -> bool)
    ensures First(s + t, p) == if First(s, p).Some? then First(s, p) else First(t, p)
  {
    if s == [] {
      assert s + t == t;
    } else {
      assert (s + t)[1..] == s[1..] + t;
      FirstAppend(s[1..], t, p);
    }
  }

  lemma {:induction false} FirstIsMember(s: seq<Timed>, p: Timed -> bool)
    ensures First(s, p).Some? ==> First(s, p).value in s && p(First(s, p).value)
  {
    if s != [] && !p(s[0]) {
      FirstIsMember(s[1..], p);
    }
  }

  /** Inserting into a descending list makes x the first of its kind only if it is newer. */
  lemma {:induction false} InsertKeepsFirst(s: seq<Timed>, x: Timed, p: Timed -> bool)
    requires Descending(s)
    ensures First(Insert(s, x), p) == if p(x) && (First(s, p).None? || x.at > First(s, p).value.at) then Some(x) else First(s, p)
  {
    if s == [] || x.at <= s[|s| - 1].at {
      FirstAppend(s, [x], p);
      FirstIsMember(s, p);
      assert First([x], p) == if p(x) then Some(x) else None;
    } else {
      var n := |s| - 1;
      InsertKeepsFirst(s[..n], x, p);
      FirstAppend(Insert(s[..n], x), [s[n]], p);
      FirstAppend(s[..n], [s[n]], p);
      FirstIsMember(s[..n], p);
      assert s == s[..n] + [s[n]];
      assert First([s[n]], p) == if p(s[n]) then Some(s[n]) else None;
    }
  }

  lemma {:induction false} SortedFirst(s: seq<Timed>, p: Timed -> bool)
    ensures Descending(Sorted(s)) && First(Sorted(s), p) == Newest(s, p)
  {
    if s != [] {
      var n := |s| - 1;
      SortedFirst(s[..n], p);
      InsertDescends(Sorted(s[..n]), s[n]);
      InsertKeepsFirst(Sorted(s[..n]), s[n], p);
    }
  }

  lemma {:induction false} ConcludedIsFirstSignal(s: seq<Timed>)
    ensures Concluded(s) <==> First(s, Signals).Some? && Terminal(First(s, Signals).value)
  {
    if s != [] {
      ConcludedIsFirstSignal(s[1..]);
    }
  }

  /** Movement i is met before movement j: newer, or as old and earlier in the input. */
  predicate Precedes(s: seq<Timed>, i: nat, j: nat)
    requires i < |s| && j < |s|
  {
    s[i].at > s[j].at || (s[i].at == s[j].at && i < j)
  }

  lemma {:induction false} NewestIs(s: seq<Timed>, p: Timed -> bool)
    ensures Newest(s, p).None? ==> forall i | 0 <= i < |s| :: !p(s[i])
    ensures Newest(s, p).Some? ==>
              exists i | 0 <= i < |s| :: s[i] == Newest(s, p).value && p(s[i]) && forall j | 0 <= j < |s| && p(s[j]) :: i == j || Precedes(s, i, j)
  {
    if s != [] {
      var n := |s| - 1;
      NewestIs(s[..n], p);
      assert forall i, j | 0 <= i < n && 0 <= j < n :: Precedes(s[..n], i, j) == Precedes(s, i, j);
      if p(s[n]) && (Newest(s[..n], p).None? || s[n].at > Newest(s[..n], p).value.at) {
        forall j | 0 <= j < n && p(s[j]) ensures Precedes(s, n, j) {
          var i :| 0 <= i < n && s[..n][i] == Newest(s[..n], p).value && forall k | 0 <= k < n && p(s[..n][k]) :: i == k || Precedes(s[..n], i, k);
          assert p(s[..n][j]);
        }
      } else if Newest(s[..n], p).Some? {
        var i :| 0 <= i < n && s[..n][i] == Newest(s[..n], p).value && p(s[..n][i])
                 && forall k | 0 <= k < n && p(s[..n][k]) :: i == k || Precedes(s[..n], i, k);
        forall j | 0 <= j < |s| && p(s[j]) ensures i == j || Precedes(s, i, j) {
          if j < n {
            assert p(s[..n][j]);
          }
        }
      }
    }
  }

  /** ARCHIVED exactly when some terminal movement has no reactivation that is newer, or as old
      and earlier in the input; else SUSPENDED exactly when the newest movement, the first in
      the input on ties, suspends; else ACTIVE. */
  lemma TheVerdict(s: seq<Timed>)
    ensures Verdict(s) == Archived <==>
              exists i | 0 <= i < |s| :: Terminal(s[i]) && forall j | 0 <= j < |s| && Reactivates(s[j]) :: !Precedes(s, j, i)
    ensures Verdict(s) == Suspended <==>
              && Verdict(s) != Archived
              && exists i | 0 <= i < |s| :: Suspends(s[i]) && forall j | 0 <= j < |s| && j != i :: Precedes(s, i, j)
  {
    if s != [] {
      SortedSize(s);
      SortedFirst(s, Signals);
      SortedFirst(s, Anything);
      ConcludedIsFirstSignal(Sorted(s));
      NewestIs(s, Signals);
      NewestIs(s, Anything);
      ArchivedFromNewest(s);
      SuspendedFromNewest(s);
    }
  }

  lemma ArchivedFromNewest(s: seq<Timed>)
    ensures Newest(s, Signals).Some? && Terminal(Newest(s, Signals).value) <==>
              exists i | 0 <= i < |s| :: Terminal(s[i]) && forall j | 0 <= j < |s| && Reactivates(s[j]) :: !Precedes(s, j, i)
  {
    NewestIs(s, Signals);
    if Newest(s, Signals).Some? {
      var n :| 0 <= n < |s| && s[n] == Newest(s, Signals).value && Signals(s[n])
               && forall j | 0 <= j < |s| && Signals(s[j]) :: n == j || Precedes(s, n, j);
      if Terminal(s[n]) {
        forall j | 0 <= j < |s| && Reactivates(s[j]) ensures !Precedes(s, j, n) {
          assert Signals(s[j]) && (n == j || Precedes(s, n, j));
        }
      } else {
        forall i | 0 <= i < |s| && Terminal(s[i]) ensures Reactivates(s[n]) && Precedes(s, n, i) {
          assert Signals(s[i]) && n != i;
        }
      }
    } else {
      forall i | 0 <= i < |s| ensures !Terminal(s[i]) {
        assert !Signals(s[i]);
      }
    }
  }

  lemma SuspendedFromNewest(s: seq<Timed>)
    requires s != []
    ensures Newest(s, Anything).Some?
    ensures Suspends(Newest(s, Anything).value) <==>
              exists i | 0 <= i < |s| :: Suspends(s[i]) && forall j | 0 <= j < |s| && j != i :: Precedes(s, i, j)
  {
    NewestIs(s, Anything);
    assert Anything(s[0]);
    var n :| 0 <= n < |s| && s[n] == Newest(s, Anything).value && Anything(s[n])
             && forall j | 0 <= j < |s| && Anything(s[j]) :: n == j || Precedes(s, n, j);
    forall j | 0 <= j < |s| && j != n ensures Precedes(s, n, j) && !Precedes(s, j, n) {
      assert Anything(s[j]);
    }
    if exists i | 0 <= i < |s| :: Suspends(s[i]) && forall j | 0 <= j < |s| && j != i :: Precedes(s, i, j) {
      var i :| 0 <= i < |s| && Suspends(s[i]) && forall j | 0 <= j < |s| && j != i :: Precedes(s, i, j);
      assert i == n;
    }
  }

  // ---- The verdict, in terms of the movements ----

  /** Movement i has a date and is newer than j, or as old and listed earlier. */
  predicate Outranks(movs: seq<Movement>, i: nat, j: nat)
    requires i < |movs| && j < |movs| && movs[i].at.Some? && movs[j].at.Some?
  {
    movs[i].at.value > movs[j].at.value || (movs[i].at.value == movs[j].at.value && i < j)
  }

  predicate Dated(movs: seq<Movement>, i: nat, codes: set<int>) {
    i < |movs| && movs[i].at.Some? && movs[i].code in codes
  }

  /** Where a dated movement lands once the undated ones are gone. */
  function Place(movs: seq<Movement>, i: nat): nat
    requires i <= |movs|
  {
    |Valid(movs[..i])|
  }

  lemma {:induction false} PlaceOf(movs: seq<Movement>, i: nat)
    requires i < |movs| && movs[i].at.Some?
    ensures Place(movs, i) < |Valid(movs)| && Valid(movs)[Place(movs, i)] == Timed(movs[i].code, movs[i].at.value)
    ensures forall j | 0 <= j < i && movs[j].at.Some? :: Place(movs, j) < Place(movs, i)
  {
    var n := |movs| - 1;
    if i < n {
      PlaceOf(movs[..n], i);
      assert forall j | 0 <= j <= i :: movs[..n][..j] == movs[..j];
    } else {
      assert movs[..i] == movs[..n];
      forall j | 0 <= j < i && movs[j].at.Some? ensures Place(movs, j) < Place(movs, i) {
        PlaceOf(movs[..n], j);
        assert movs[..n][..j] == movs[..j];
      }
    }
  }

  lemma {:induction false} PlacedBy(movs: seq<Movement>, k: nat) returns (i: nat)
    requires k < |Valid(movs)|
    ensures i < |movs| && movs[i].at.Some? && Place(movs, i) == k
  {
    var n := |movs| - 1;
    if k < |Valid(movs[..n])| {
      i := PlacedBy(movs[..n], k);
      assert movs[..n][..i] == movs[..i];
    } else {
      i := n;
    }
  }

  /** The places keep rank and code. */
  lemma PlacesKeepRank(movs: seq<Movement>, i: nat, j: nat)
    requires i < |movs| && j < |movs| && movs[i].at.Some? && movs[j].at.Some?
    ensures Place(movs, i) < |Valid(movs)| && Place(movs, j) < |Valid(movs)|
    ensures Precedes(Valid(movs), Place(movs, i), Place(movs, j)) <==> Outranks(movs, i, j)
    ensures Place(movs, i) == Place(movs, j) ==> i == j
  {
    PlaceOf(movs, i);
    PlaceOf(movs, j);
  }

  ghost predicate Stands(movs: seq<Movement>, i: nat) {
    Dated(movs, i, {22, 196}) && forall j: nat | Dated(movs, j, {893, 12066}) :: !Outranks(movs, j, i)
  }

  ghost predicate Leads(movs: seq<Movement>, i: nat) {
    Dated(movs, i, {25, 12065}) && forall j: nat | j < |movs| && j != i && movs[j].at.Some? :: Outranks(movs, i, j)
  }

  /** Of the movements as they were disclosed: ARCHIVED exactly when a dated terminal one (22, 196)
      is outranked by no dated reactivation (893, 12066); otherwise SUSPENDED exactly when the
      dated one that outranks all others suspends (25, 12065). */
  lemma TheVerdictOfMovements(movs: seq<Movement>)
    ensures Verdict(Valid(movs)) == Archived <==> exists i: nat :: Stands(movs, i)
    ensures Verdict(Valid(movs)) == Suspended <==> Verdict(Valid(movs)) != Archived && exists i: nat :: Leads(movs, i)
  {
    var s := Valid(movs);
    TheVerdict(s);
    hide Verdict, Valid, Precedes, Outranks, Place;
    forall i: nat | Stands(movs, i)
      ensures Place(movs, i) < |s| && Terminal(s[Place(movs, i)]) && forall j | 0 <= j < |s| && Reactivates(s[j]) :: !Precedes(s, j, Place(movs, i))
    {
      PlaceOf(movs, i);
      forall j | 0 <= j < |s| && Reactivates(s[j]) ensures !Precedes(s, j, Place(movs, i)) {
        var m := PlacedBy(movs, j);
        PlaceOf(movs, m);
        PlacesKeepRank(movs, m, i);
        assert Dated(movs, m, {893, 12066});
      }
    }
    forall i: nat | Leads(movs, i)
      ensures Place(movs, i) < |s| && Suspends(s[Place(movs, i)]) && forall j | 0 <= j < |s| && j != Place(movs, i) :: Precedes(s, Place(movs, i), j)
    {
      PlaceOf(movs, i);
      forall j | 0 <= j < |s| && j != Place(movs, i) ensures Precedes(s, Place(movs, i), j) {
        var m := PlacedBy(movs, j);
        PlacesKeepRank(movs, i, m);
      }
    }
    if Verdict(s) == Archived {
      var k :| 0 <= k < |s| && Terminal(s[k]) && forall j | 0 <= j < |s| && Reactivates(s[j]) :: !Precedes(s, j, k);
      StandsAt(movs, k);
    }
    if Verdict(s) == Suspended {
      var k :| 0 <= k < |s| && Suspends(s[k]) && forall j | 0 <= j < |s| && j != k :: Precedes(s, k, j);
      LeadsAt(movs, k);
    }
  }

  lemma StandsAt(movs: seq<Movement>, k: nat)
    requires var s := Valid(movs); k < |s| && Terminal(s[k]) && forall j | 0 <= j < |s| && Reactivates(s[j]) :: !Precedes(s, j, k)
    ensures exists i: nat :: Stands(movs, i)
  {
    hide Valid, Precedes, Outranks, Place;
    var i := PlacedBy(movs, k);
    PlaceOf(movs, i);
    forall j: nat | Dated(movs, j, {893, 12066}) ensures !Outranks(movs, j, i) {
      PlaceOf(movs, j);
      PlacesKeepRank(movs, j, i);
    }
    assert Stands(movs, i);
  }

  lemma LeadsAt(movs: seq<Movement>, k: nat)
    requires var s := Valid(movs); k < |s| && Suspends(s[k]) && forall j | 0 <= j < |s| && j != k :: Precedes(s, k, j)
    ensures exists i: nat :: Leads(movs, i)
  {
    hide Valid, Precedes, Outranks, Place;
    var i := PlacedBy(movs, k);
    PlaceOf(movs, i);
    forall j: nat | j < |movs| && j != i && movs[j].at.Some? ensures Outranks(movs, i, j) {
      PlaceOf(movs, j);
      PlacesKeepRank(movs, i, j);
    }
    assert Leads(movs, i);
  }

  ghost predicate DistinctInstants(s: seq<Timed>) {
    forall i, j | 0 <= i < j < |s| :: s[i].at != s[j].at
  }

  /** When no two movements share an instant, the order they are listed in does not matter. */
  lemma OrderDoesNotMatter(s: seq<Timed>, t: seq<Timed>)
    requires multiset(s) == multiset(t) && DistinctInstants(s) && DistinctInstants(t)
    ensures Verdict(s) == Verdict(t)
  {
    TheVerdict(s);
    TheVerdict(t);
    SameMembers(s, t);
    SameMembers(t, s);
    VerdictCarries(s, t);
    VerdictCarries(t, s);
  }

  lemma SameMembers(s: seq<Timed>, t: seq<Timed>)
    requires multiset(s) == multiset(t)
    ensures forall m | m in s :: m in t
  {
    forall m | m in s ensures m in t {
      assert m in multiset(s) && m in multiset(t);
    }
  }

  ghost predicate Reordered(s: seq<Timed>, t: seq<Timed>) {
    (forall m | m in s :: m in t) && (forall m | m in t :: m in s) && DistinctInstants(s) && DistinctInstants(t)
  }

  lemma VerdictCarries(s: seq<Timed>, t: seq<Timed>)
    requires Reordered(s, t)
    ensures Verdict(s) == Archived ==> Verdict(t) == Archived
    ensures Verdict(s) == Suspended && Verdict(t) != Archived ==> Verdict(t) == Suspended
  {
    if Verdict(s) == Archived {
      ArchivedCarries(s, t);
    } else if Verdict(s) == Suspended && Verdict(t) != Archived {
      SuspendedCarries(s, t);
    }
  }

  lemma IndexOf(s: seq<Timed>, m: Timed) returns (i: nat)
    requires m in s
    ensures i < |s| && s[i] == m
  {
    i :| i < |s| && s[i] == m;
  }

  lemma ArchivedCarries(s: seq<Timed>, t: seq<Timed>)
    requires Reordered(s, t) && Verdict(s) == Archived
    ensures Verdict(t) == Archived
  {
    TheVerdict(s);
    TheVerdict(t);
    hide Verdict;
    var i :| 0 <= i < |s| && Terminal(s[i]) && forall j | 0 <= j < |s| && Reactivates(s[j]) :: !Precedes(s, j, i);
    var k := IndexOf(t, s[i]);
    forall j | 0 <= j < |t| && Reactivates(t[j]) ensures !Precedes(t, j, k) {
      var m := IndexOf(s, t[j]);
      assert !Precedes(s, m, i) && j != k;
    }
  }

  lemma SuspendedCarries(s: seq<Timed>, t: seq<Timed>)
    requires Reordered(s, t) && Verdict(s) == Suspended && Verdict(t) != Archived
    ensures Verdict(t) == Suspended
  {
    TheVerdict(s);
    TheVerdict(t);
    hide Verdict;
    var i :| 0 <= i < |s| && Suspends(s[i]) && forall j | 0 <= j < |s| && j != i :: Precedes(s, i, j);
    var k := IndexOf(t, s[i]);
    forall j | 0 <= j < |t| && j != k ensures Precedes(t, k, j) {
      var m := IndexOf(s, t[j]);
      assert t[j].at != t[k].at && m != i && Precedes(s, i, m);
    }
  }
}
