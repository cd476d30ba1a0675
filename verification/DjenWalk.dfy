/** Discovering communications page by page, OAB by OAB, with one dedup over all of them, and
    reading a tribunal's gazette with none. */
module DjenWalk {
  import opened Wrappers
  import FetchBatch

  const DJEN_MAX_PAGES: nat := 200

  /** A raw communication: its hash, empty when the source gives none; or one whose hash does
      not decode. */
  datatype Item = Item(hash: string, body: int) | Garbled

  /** What the source lists for one query, and which of its pages cannot be had. */
  datatype Listing = Listing(items: seq<Item>, down: set<nat>)

  datatype Capability = DiscoverByOAB | OtherCapability

  function HashOf(x: Item): string {
    if x.Item? then x.hash else ""
  }

  function Hashes(items: seq<Item>): set<string> {
    set x | x in items && HashOf(x) != "" :: HashOf(x)
  }

  /** Page `page`, counted from 1. */
  function Page(l: Listing, size: nat, page: nat): Option<seq<Item>>
    requires page > 0
  {
    if page in l.down then None
    else Some(l.items[FetchBatch.Min((page - 1) * size, |l.items|)..FetchBatch.Min((page - 1) * size + size, |l.items|)])
  }

  /** How many pages a walk asks for: up to the first short one, the cap at most. */
  function PagesRead(l: Listing, size: nat): nat
    requires size > 0
  {
    FetchBatch.Min(DJEN_MAX_PAGES, |l.items| / size + 1)
  }

  function ReadPart(l: Listing, size: nat): seq<Item> {
    l.items[..FetchBatch.Min(DJEN_MAX_PAGES * size, |l.items|)]
  }

  ghost predicate Reachable(l: Listing, size: nat)
    requires size > 0
  {
    forall p | 1 <= p <= PagesRead(l, size) :: p !in l.down
  }

  ghost predicate Readable(l: Listing, size: nat)
    requires size > 0
  {
    Reachable(l, size) && Garbled !in ReadPart(l, size)
  }

  /** The items a walk keeps: those without a hash, and the first with each hash not yet seen. */
  function Kept(seen: set<string>, items: seq<Item>): seq<Item> {
    if items == [] then []
    else
      var before, x := items[..|items| - 1], items[|items| - 1];
      Kept(seen, before) + if HashOf(x) != "" && HashOf(x) in seen + Hashes(before) then [] else [x]
  }

  function ReadAll(listings: seq<Listing>, size: nat): seq<Item> {
    if listings == [] then []
    else ReadAll(listings[..|listings| - 1], size) + ReadPart(listings[|listings| - 1], size)
  }

  /** A page is asked for exactly while all before it were full. */
  lemma PageIsAskedFor(l: Listing, size: nat, page: nat)
    requires size > 0 && 1 <= page <= DJEN_MAX_PAGES && (page - 1) * size <= |l.items|
    ensures page <= PagesRead(l, size)
    ensures |l.items| < (page - 1) * size + size ==> PagesRead(l, size) == page
  {
    FullPages(|l.items|, size, page - 1);
  }

  lemma FullPages(n: nat, size: nat, k: nat)
    requires size > 0 && k * size <= n
    ensures k <= n / size
    ensures n < k * size + size ==> n / size == k
  {
    var rest := n - k * size;
    DivAdds(k, size, rest);
    assert 0 <= rest / size;
    if rest < size {
      OneQuotient(rest / size, rest % size, 0, rest, size);
    }
  }

  lemma DivAdds(k: nat, size: nat, rest: nat)
    requires size > 0
    ensures (k * size + rest) / size == k + rest / size
  {
    var all := k * size + rest;
    var q := k + rest / size;
    assert q * size == k * size + rest / size * size;
    OneQuotient(all / size, all % size, q, rest % size, size);
  }

  lemma OneQuotient(a: int, r: nat, b: int, s: nat, size: nat)
    requires r < size && s < size && a * size + r == b * size + s
    ensures a == b
  {
    if a > b {
      Further(a, b, size);
    } else if a < b {
      Further(b, a, size);
    }
  }

  lemma Further(a: int, b: int, size: nat)
    requires a > b
    ensures a * size >= b * size + size
  {
    var d := a - b - 1;
    assert a * size == (b + 1 + d) * size == b * size + size + d * size;
    assert d * size >= 0;
  }

  lemma Monotone(page: nat, size: nat)
    requires 1 <= page <= DJEN_MAX_PAGES
    ensures (page - 1) * size + size == page * size <= DJEN_MAX_PAGES * size
  {
  }

  lemma HashesAdd(a: seq<Item>, b: seq<Item>)
    ensures Hashes(a + b) == Hashes(a) + Hashes(b)
  {
  }

  lemma {:induction false} KeptAdds(seen: set<string>, a: seq<Item>, b: seq<Item>)
    ensures Kept(seen, a + b) == Kept(seen, a) + Kept(seen + Hashes(a), b)
  {
    if b == [] {
      assert a + b == a;
    } else {
      var n := |b| - 1;
      KeptAdds(seen, a, b[..n]);
      assert (a + b)[..|a + b| - 1] == a + b[..n];
      HashesAdd(a, b[..n]);
      assert seen + Hashes(a + b[..n]) == seen + Hashes(a) + Hashes(b[..n]);
    }
  }

  lemma KeptGrows(seen: set<string>, before: seq<Item>, x: Item)
    ensures var taken := if HashOf(x) != "" && HashOf(x) in seen + Hashes(before) then [] else [x];
            && Kept(seen, before + [x]) == Kept(seen, before) + taken
            && Hashes(Kept(seen, before + [x])) == Hashes(Kept(seen, before)) + Hashes(taken)
    ensures Hashes(before + [x]) == Hashes(before) + if HashOf(x) == "" then {} else {HashOf(x)}
    ensures Hashes([x]) == (if HashOf(x) == "" then {} else {HashOf(x)}) && Hashes([]) == {}
  {
    assert (before + [x])[..|before|] == before;
    var taken := if HashOf(x) != "" && HashOf(x) in seen + Hashes(before) then [] else [x];
    HashesAdd(Kept(seen, before), taken);
    HashesAdd(before, [x]);
    OneHash(x);
  }

  lemma OneHash(x: Item)
    ensures Hashes([x]) == if HashOf(x) == "" then {} else {HashOf(x)}
  {
    assert forall y :: y in [x] <==> y == x;
  }

  lemma NothingTaken(seen: set<string>)
    ensures Kept(seen, []) == [] && Hashes([]) == {}
  {
  }

  lemma PageIsDown(l: Listing, size: nat, page: nat)
    requires page > 0 && Page(l, size, page).None?
    ensures page in l.down
  {
  }

  /** What the next page adds to all before it. */
  lemma PageFollows(l: Listing, size: nat, page: nat, seen: set<string>)
    requires 1 <= page <= DJEN_MAX_PAGES && (page - 1) * size <= |l.items| && Page(l, size, page).Some?
    ensures page !in l.down
    ensures var done, resp := l.items[..(page - 1) * size], Page(l, size, page).value;
            && done + resp <= ReadPart(l, size)
            && (Garbled in resp ==> Garbled in ReadPart(l, size))
            && (|resp| < size ==> |l.items| < (page - 1) * size + size && done + resp == ReadPart(l, size))
            && (|resp| >= size ==> page * size <= |l.items| && done + resp == l.items[..page * size])
            && Kept(seen, done + resp) == Kept(seen, done) + Kept(seen + Hashes(done), resp)
            && Hashes(done + resp) == Hashes(done) + Hashes(resp)
  {
    Monotone(page, size);
    var done, resp := l.items[..(page - 1) * size], Page(l, size, page).value;
    assert done + resp == l.items[..FetchBatch.Min(page * size, |l.items|)];
    assert Garbled in resp ==> Garbled in done + resp;
    KeptAdds(seen, done, resp);
    HashesAdd(done, resp);
  }

  lemma AllPagesRead(l: Listing, size: nat)
    requires size > 0 && DJEN_MAX_PAGES * size <= |l.items|
    ensures ReadPart(l, size) == l.items[..DJEN_MAX_PAGES * size] && PagesRead(l, size) <= DJEN_MAX_PAGES
  {
  }

  /** The state the pages and the OABs of one fetch share. */
  class Walk {
    var seen: set<string>
    var out: seq<Item>

    constructor ()
      ensures seen == {} && out == []
    {
      seen, out := {}, [];
    }

    /** One page's items; false at one whose hash does not decode. */
    method TakeAll(items: seq<Item>) returns (ok: bool)
      modifies this
      ensures ok <==> Garbled !in items
      ensures ok ==> out == old(out) + Kept(old(seen), items) && seen == old(seen) + Hashes(items)
    {
      hide Kept, Hashes;
      ghost var seen0, out0, done := seen, out, [];
      NothingTaken(seen0);
      for i := 0 to |items|
        invariant done == items[..i] && Garbled !in done
        invariant out == out0 + Kept(seen0, done) && seen == seen0 + Hashes(done)
      {
        var raw := items[i];
        KeptGrows(seen0, done, raw);
        if raw.Garbled? {
          return false;
        }
        done := done + [raw];
        if raw.hash != "" {
          if raw.hash in seen {
            continue;
          }
          seen := seen + {raw.hash};
        }
        out := out + [raw];
      }
      assert items[..|items|] == items;
      ok := true;
    }

    method FetchOAB(l: Listing, size: nat) returns (ok: bool)
      requires size > 0
      modifies this
      ensures ok <==> Readable(l, size)
      ensures ok ==> out == old(out) + Kept(old(seen), ReadPart(l, size)) && seen == old(seen) + Hashes(ReadPart(l, size))
    {
      hide Kept, Hashes, Page, ReadPart, PagesRead;
      ghost var seen0, out0, done := seen, out, [];
      NothingTaken(seen0);
      for page := 1 to DJEN_MAX_PAGES + 1
        invariant (page - 1) * size <= |l.items| && done == l.items[..(page - 1) * size]
        invariant forall p | 1 <= p < page :: p !in l.down
        invariant Garbled !in done
        invariant out == out0 + Kept(seen0, done) && seen == seen0 + Hashes(done)
      {
        PageIsAskedFor(l, size, page);
        var resp := Page(l, size, page);
        if resp.None? {
          PageIsDown(l, size, page);
          return false;
        }
        PageFollows(l, size, page, seen0);
        var taken := TakeAll(resp.value);
        if !taken {
          return false;
        }
        done := done + resp.value;
        assert out == out0 + Kept(seen0, done);
        assert seen == seen0 + Hashes(done);
        if |resp.value| < size {
          return true;
        }
      }
      AllPagesRead(l, size);
      ok := true;
    }
  }

  /** Discovery by OAB: all listings or, at the first fault, none. */
  method Fetch(capability: Capability, listings: seq<Listing>, size: nat) returns (r: Option<seq<Item>>)
    requires size > 0
    ensures r.Some? <==> capability == DiscoverByOAB && forall l | l in listings :: Readable(l, size)
    ensures r.Some? ==> r.value == Kept({}, ReadAll(listings, size))
  {
    if capability != DiscoverByOAB {
      return None;
    }
    var walk := new Walk();
    for i := 0 to |listings|
      invariant forall l | l in listings[..i] :: Readable(l, size)
      invariant walk.out == Kept({}, ReadAll(listings[..i], size))
      invariant walk.seen == Hashes(ReadAll(listings[..i], size))
    {
      assert listings[..i + 1][..i] == listings[..i];
      KeptAdds({}, ReadAll(listings[..i], size), ReadPart(listings[i], size));
      HashesAdd(ReadAll(listings[..i], size), ReadPart(listings[i], size));
      assert {} + Hashes(ReadAll(listings[..i], size)) == walk.seen;
      var ok := walk.FetchOAB(listings[i], size);
      if !ok {
        return None;
      }
    }
    assert listings[..|listings|] == listings;
    r := Some(walk.out);
  }

  /** A tribunal's gazette: the same walk, every item kept as it came. */
  method FetchDiario(l: Listing, size: nat) returns (r: Option<seq<Item>>)
    requires size > 0
    ensures r.Some? <==> Reachable(l, size)
    ensures r.Some? ==> r.value == ReadPart(l, size)
  {
    var items: seq<Item> := [];
    for page := 1 to DJEN_MAX_PAGES + 1
      invariant (page - 1) * size <= |l.items|
      invariant forall p | 1 <= p < page :: p !in l.down
      invariant items == l.items[..(page - 1) * size]
    {
      Monotone(page, size);
      PageIsAskedFor(l, size, page);
      var resp := Page(l, size, page);
      if resp.None? {
        return None;
      }
      items := items + resp.value;
      assert items == l.items[..FetchBatch.Min(page * size, |l.items|)];
      if |resp.value| < size {
        break;
      }
    }
    r := Some(items);
  }

  // ---- What arrives ----

  /** The hashes that arrive are those read and not seen before. */
  lemma {:induction false} KeptHashes(seen: set<string>, items: seq<Item>)
    ensures Hashes(Kept(seen, items)) == Hashes(items) - seen
  {
    if items != [] {
      var before, x := items[..|items| - 1], items[|items| - 1];
      KeptHashes(seen, before);
      KeptGrows(seen, before, x);
      assert items == before + [x];
    }
  }

  ghost predicate NoRepeat(items: seq<Item>) {
    forall i, j | 0 <= i < j < |items| && HashOf(items[i]) != "" :: HashOf(items[i]) != HashOf(items[j])
  }

  /** No hash arrives twice. */
  lemma {:induction false} NoHashTwice(seen: set<string>, items: seq<Item>)
    ensures NoRepeat(Kept(seen, items))
  {
    if items != [] {
      var before, x := items[..|items| - 1], items[|items| - 1];
      NoHashTwice(seen, before);
      KeptHashes(seen, before);
      var kept := Kept(seen, before);
      hide Kept;
      assert forall i | 0 <= i < |kept| && HashOf(kept[i]) != "" :: kept[i] in kept && HashOf(kept[i]) in Hashes(kept);
    }
  }

  /** An item without a hash arrives as often as it was read: it is never taken for a repeat. */
  lemma {:induction false} HashlessItemsAllArrive(seen: set<string>, items: seq<Item>, x: Item)
    requires HashOf(x) == ""
    ensures multiset(Kept(seen, items))[x] == multiset(items)[x]
  {
    if items != [] {
      var n := |items| - 1;
      HashlessItemsAllArrive(seen, items[..n], x);
      assert items == items[..n] + [items[n]];
    }
  }

  /** Of several items with one hash the first arrives, in the place it was read. */
  lemma TheFirstIsKept(seen: set<string>, items: seq<Item>, k: nat)
    requires k < |items|
    requires HashOf(items[k]) == "" || HashOf(items[k]) !in seen + Hashes(items[..k])
    ensures var at := |Kept(seen, items[..k])|; at < |Kept(seen, items)| && Kept(seen, items)[at] == items[k]
  {
    hide Kept, Hashes;
    var read, rest := items[..k] + [items[k]], items[k + 1..];
    assert read + rest == items;
    KeptGrows(seen, items[..k], items[k]);
    KeptAdds(seen, read, rest);
    var kept := Kept(seen, items[..k]);
    assert Kept(seen, items) == kept + [items[k]] + Kept(seen + Hashes(read), rest);
  }

  lemma {:induction false} ReadAllHolds(listings: seq<Listing>, size: nat, h: string)
    ensures h in Hashes(ReadAll(listings, size)) <==> exists l :: l in listings && h in Hashes(ReadPart(l, size))
  {
    if listings != [] {
      var before, last := listings[..|listings| - 1], listings[|listings| - 1];
      ReadAllHolds(before, size, h);
      HashesAdd(ReadAll(before, size), ReadPart(last, size));
      assert listings == before + [last];
    }
  }

  /** The communications that arrive depend on which OABs are asked for only, not on their
      order, nor on how often one is named: the process of two advogados arrives once. */
  lemma OrderAndRepeatsDoNotMatter(one: seq<Listing>, other: seq<Listing>, size: nat)
    requires forall l :: l in one <==> l in other
    ensures Hashes(Kept({}, ReadAll(one, size))) == Hashes(Kept({}, ReadAll(other, size)))
  {
    KeptHashes({}, ReadAll(one, size));
    KeptHashes({}, ReadAll(other, size));
    forall h ensures h in Hashes(ReadAll(one, size)) <==> h in Hashes(ReadAll(other, size)) {
      ReadAllHolds(one, size, h);
      ReadAllHolds(other, size, h);
    }
  }

  /** As long as no listing outgrows the page cap, exactly what the listings hold arrives. */
  lemma ShortListingsArriveWhole(listings: seq<Listing>, size: nat, h: string)
    requires forall l | l in listings :: |l.items| <= DJEN_MAX_PAGES * size
    ensures h in Hashes(Kept({}, ReadAll(listings, size))) <==> exists l :: l in listings && h in Hashes(l.items)
  {
    KeptHashes({}, ReadAll(listings, size));
    ReadAllHolds(listings, size, h);
    assert forall l | l in listings :: ReadPart(l, size) == l.items;
  }

  /** For an OAB whose communications all differ the cap is exact: nothing is lost if and only
      if the listing fits in the pages. */
  lemma WhenAnOABArrivesWhole(l: Listing, size: nat)
    requires forall i, j | 0 <= i < j < |l.items| :: HashOf(l.items[i]) != HashOf(l.items[j])
    requires forall i | 0 <= i < |l.items| :: HashOf(l.items[i]) != ""
    ensures Hashes(Kept({}, ReadPart(l, size))) == Hashes(l.items) <==> |l.items| <= DJEN_MAX_PAGES * size
  {
    var part := ReadPart(l, size);
    KeptHashes({}, part);
    if |l.items| > DJEN_MAX_PAGES * size {
      var x := l.items[|l.items| - 1];
      assert x in l.items && HashOf(x) in Hashes(l.items);
      assert HashOf(x) !in Hashes(part);
    } else {
      assert part == l.items;
    }
  }
}
