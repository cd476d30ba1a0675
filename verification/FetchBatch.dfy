/** Pulling a tribunal's backlog page by page with search_after, and mapping the pages. */
module FetchBatch {
  import opened Wrappers

  const DATAJUD_BATCH_PAGE_SIZE: nat := 1000

  /** A process number; the index sorts by it, as whole numbers stand for its text. */
  type Numero = int

  datatype Process = Process(numero: Numero, degree: string)

  /** A hit parses, is broken, or discloses no grade. */
  datatype Source = Parsed(process: Process) | Broken | NoGrade

  /** `token` says that the hit carries its sort token, the number itself. */
  datatype Hit = Hit(numero: Numero, source: Source, token: bool)

  /** The hits the index holds for the requested numbers, in the order it sorts them. */
  ghost predicate Ascending(index: seq<Hit>) {
    forall i, j | 0 <= i < j < |index| :: index[i].numero <= index[j].numero
  }

  /** How many hits lie at or before a cursor. */
  function AtMost(index: seq<Hit>, cursor: Numero): nat {
    if index == [] then 0 else AtMost(index[..|index| - 1], cursor) + if index[|index| - 1].numero <= cursor then 1 else 0
  }

  function Min(a: nat, b: nat): nat {
    if a < b then a else b
  }

  lemma {:induction false} AtMostFits(index: seq<Hit>, cursor: Numero)
    ensures AtMost(index, cursor) <= |index|
  {
    if index != [] {
      AtMostFits(index[..|index| - 1], cursor);
    }
  }

  lemma {:induction false} AtMostPrefix(index: seq<Hit>, cursor: Numero)
    requires Ascending(index)
    ensures forall i | 0 <= i < |index| :: index[i].numero <= cursor <==> i < AtMost(index, cursor)
  {
    if index != [] {
      AtMostPrefix(index[..|index| - 1], cursor);
      AtMostFits(index[..|index| - 1], cursor);
    }
  }

  function From(index: seq<Hit>, size: nat, start: nat): seq<Hit>
    requires start <= |index|
  {
    index[start..Min(start + size, |index|)]
  }

  /** The server: the first `size` hits, strictly past the cursor if there is one. */
  function Page(index: seq<Hit>, size: nat, searchAfter: Option<Numero>): seq<Hit> {
    if searchAfter.None? then From(index, size, 0)
    else
      AtMostFits(index, searchAfter.value);
      From(index, size, AtMost(index, searchAfter.value))
  }

  /** Where the walk goes on after a page: a full one whose last hit carries its token may have
      a successor, past every hit of that last number. */
  function Next(index: seq<Hit>, size: nat, start: nat): Option<nat>
    requires start <= |index|
  {
    var page := From(index, size, start);
    if |page| < size || page == [] || !page[|page| - 1].token then None
    else Some(AtMost(index, page[|page| - 1].numero))
  }

  lemma CursorAdvances(index: seq<Hit>, size: nat, start: nat)
    requires Ascending(index) && start <= |index| && Next(index, size, start).Some?
    ensures start < start + |From(index, size, start)| <= Next(index, size, start).value <= |index|
  {
    var page := From(index, size, start);
    AtMostFits(index, page[|page| - 1].numero);
    AtMostPrefix(index, page[|page| - 1].numero);
    assert page[|page| - 1] == index[start + |page| - 1];
  }

  /** Every hit the walk returns from a position on. It ends where it would not advance, which
      an ascending index never lets happen. */
  function Returned(index: seq<Hit>, size: nat, start: nat): seq<Hit>
    requires start <= |index|
    decreases |index| - start
  {
    var next := Next(index, size, start);
    From(index, size, start) + if next.Some? && start < next.value <= |index| then Returned(index, size, next.value) else []
  }

  /** How many pages the walk asks for from a position on. */
  function PagesAsked(index: seq<Hit>, size: nat, start: nat): nat
    requires start <= |index|
    decreases |index| - start
  {
    var next := Next(index, size, start);
    1 + if next.Some? && start < next.value <= |index| then PagesAsked(index, size, next.value) else 0
  }

  function Flat(pages: seq<seq<Hit>>): seq<Hit> {
    if pages == [] then [] else Flat(pages[..|pages| - 1]) + pages[|pages| - 1]
  }

  lemma FlatMore(pages: seq<seq<Hit>>, page: seq<Hit>)
    ensures Flat(pages + [page]) == Flat(pages) + page
  {
    assert (pages + [page])[..|pages|] == pages;
  }

  lemma WalksOn(index: seq<Hit>, size: nat, start: nat, before: seq<Hit>)
    requires Ascending(index) && start <= |index|
    ensures var page, next := From(index, size, start), Next(index, size, start);
            if next.Some? then
              && start < next.value <= |index| && PagesAsked(index, size, start) == 1 + PagesAsked(index, size, next.value)
              && before + Returned(index, size, start) == before + page + Returned(index, size, next.value)
            else PagesAsked(index, size, start) == 1 && before + Returned(index, size, start) == before + page
  {
    hide From, Ascending;
    var page, next := From(index, size, start), Next(index, size, start);
    if next.Some? {
      CursorAdvances(index, size, start);
      Associative(before, page, Returned(index, size, next.value));
    } else {
      assert page + [] == page;
    }
  }

  lemma Associative(a: seq<Hit>, b: seq<Hit>, c: seq<Hit>)
    ensures a + (b + c) == a + b + c
  {
  }

  /** `numbers` is how many numbers are asked for, `down` the pages, counted from 0, that cannot
      be had. Without a court or a number there is nothing to ask; one page that cannot be had
      fails the whole fetch. */
  method FetchBatch(court: string, index: seq<Hit>, numbers: nat, down: set<nat>) returns (r: Option<seq<seq<Hit>>>)
    requires Ascending(index)
    ensures var size := Min(numbers, DATAJUD_BATCH_PAGE_SIZE);
            r.Some? <==> court != "" && numbers > 0 && forall n | 0 <= n < PagesAsked(index, size, 0) :: n !in down
    ensures r.Some? ==> Flat(r.value) == Returned(index, Min(numbers, DATAJUD_BATCH_PAGE_SIZE), 0)
  {
    hide Returned, AtMost, Ascending, From, Flat, PagesAsked;
    if court == "" || numbers == 0 {
      return None;
    }
    var size := DATAJUD_BATCH_PAGE_SIZE;
    if numbers < size {
      size := numbers;
    }
    var pages: seq<seq<Hit>> := [];
    NoPages();
    var searchAfter: Option<Numero> := None;
    ghost var start := 0;
    while true
      invariant start <= |index| && start == if searchAfter.None? then 0 else AtMost(index, searchAfter.value)
      invariant Returned(index, size, 0) == Flat(pages) + Returned(index, size, start)
      invariant PagesAsked(index, size, 0) == |pages| + PagesAsked(index, size, start)
      invariant forall n | 0 <= n < |pages| :: n !in down
      decreases |index| - start
    {
      WalksOn(index, size, start, Flat(pages));
      if |pages| in down {
        return None;
      }
      var page := Page(index, size, searchAfter);
      FlatMore(pages, page);
      pages := pages + [page];
      if |page| < size || |page| == 0 || !page[|page| - 1].token {
        break;
      }
      searchAfter := Some(page[|page| - 1].numero);
      start := Next(index, size, start).value;
    }
    r := Some(pages);
  }

  lemma NoPages()
    ensures Flat([]) == []
  {
  }

  /** Some full page ends between two hits of the same number: the rest of them is skipped. */
  predicate SplitsARun(index: seq<Hit>, size: nat, start: nat)
    requires start <= |index|
    decreases |index| - start
  {
    var next := Next(index, size, start);
    next.Some? && start < next.value <= |index|
    && (next.value > start + |From(index, size, start)| || SplitsARun(index, size, next.value))
  }

  /** How the walk and its losses unfold by one page. */
  lemma OnePage(index: seq<Hit>, size: nat, start: nat)
    requires Ascending(index) && start <= |index|
    ensures var end, next := Min(start + size, |index|), Next(index, size, start);
            if next.Some? then
              && start < end <= next.value <= |index|
              && Returned(index, size, start) == index[start..end] + Returned(index, size, next.value)
              && (SplitsARun(index, size, start) <==> next.value > end || SplitsARun(index, size, next.value))
            else !SplitsARun(index, size, start) && Returned(index, size, start) == index[start..end]
  {
    if Next(index, size, start).Some? {
      CursorAdvances(index, size, start);
    } else {
      assert From(index, size, start) + [] == From(index, size, start);
    }
  }

  /** No hit is returned twice: page after page is a later stretch of the index. */
  lemma {:induction false} NoHitTwice(index: seq<Hit>, size: nat, start: nat)
    requires Ascending(index) && start <= |index|
    ensures multiset(Returned(index, size, start)) <= multiset(index[start..])
    decreases |index| - start
  {
    hide Returned, SplitsARun, From, Ascending, Next;
    OnePage(index, size, start);
    var end, next := Min(start + size, |index|), Next(index, size, start);
    if next.Some? {
      NoHitTwice(index, size, next.value);
      Stretches(index, start, end, next.value, Returned(index, size, next.value));
    } else {
      Stretches(index, start, end, |index|, []);
      assert index[start..end] + [] == index[start..end];
    }
  }

  lemma Stretches(index: seq<Hit>, a: nat, b: nat, c: nat, rest: seq<Hit>)
    requires a <= b <= c <= |index| && multiset(rest) <= multiset(index[c..])
    ensures multiset(index[a..b] + rest) <= multiset(index[a..])
  {
    assert index[a..] == index[a..b] + (index[b..c] + index[c..]);
  }

  ghost predicate Tokens(index: seq<Hit>) {
    forall h | h in index :: h.token
  }

  /** Every number the index holds gets at least one hit, even when several hits share it
      across a page's end. */
  lemma {:induction false} EveryNumberAnswered(index: seq<Hit>, size: nat, start: nat, p: nat)
    requires Ascending(index) && Tokens(index) && size > 0 && start <= p < |index|
    ensures exists g :: g in Returned(index, size, start) && g.numero == index[p].numero
    decreases |index| - start
  {
    var page := From(index, size, start);
    if p < start + |page| {
      assert index[p] == page[p - start] && page[p - start] in page;
    } else {
      var last := page[|page| - 1];
      assert last == index[start + |page| - 1] && last in index && last in page;
      CursorAdvances(index, size, start);
      AtMostPrefix(index, last.numero);
      if index[p].numero != last.numero {
        EveryNumberAnswered(index, size, Next(index, size, start).value, p);
      }
    }
  }

  lemma NoNextIsTheEnd(index: seq<Hit>, size: nat, start: nat)
    requires Tokens(index) && size > 0 && start <= |index| && Next(index, size, start).None?
    ensures index[start..Min(start + size, |index|)] == index[start..]
  {
    var page := From(index, size, start);
    if page != [] {
      assert page[|page| - 1] == index[start + |page| - 1] && index[start + |page| - 1] in index;
    }
  }

  /** The k-th multiple of the page size falls between two hits of the same number. */
  predicate Straddles(index: seq<Hit>, size: nat, start: nat, k: nat) {
    k >= 1 && 0 < start + k * size < |index| && index[start + k * size - 1].numero == index[start + k * size].numero
  }

  ghost predicate SomeRunStraddles(index: seq<Hit>, size: nat, start: nat) {
    exists k: nat :: Straddles(index, size, start, k)
  }

  lemma OneFurther(index: seq<Hit>, size: nat, start: nat, k: nat)
    ensures Straddles(index, size, start + size, k) ==> Straddles(index, size, start, k + 1)
    ensures k >= 2 && Straddles(index, size, start, k) ==> Straddles(index, size, start + size, k - 1)
  {
    assert (k + 1) * size == k * size + size && (k - 1) * size == k * size - size;
  }

  lemma StraddlesAtOnce(index: seq<Hit>, size: nat, start: nat)
    ensures Straddles(index, size, start, 1)
            <==> 0 < start + size < |index| && index[start + size - 1].numero == index[start + size].numero
  {
  }

  lemma BeyondTheEnd(index: seq<Hit>, size: nat, start: nat, k: nat)
    requires start + size >= |index|
    ensures !Straddles(index, size, start, k)
  {
    if k >= 1 {
      assert k * size == size + (k - 1) * size >= size;
    }
  }

  /** A full page skips the rest of a run exactly when the run goes on behind it. */
  lemma WhenAPageSkips(index: seq<Hit>, size: nat, start: nat)
    requires Ascending(index) && size > 0 && start <= |index| && Next(index, size, start).Some?
    ensures start + size <= |index|
    ensures Next(index, size, start).value > start + size
            <==> start + size < |index| && index[start + size - 1].numero == index[start + size].numero
  {
    var page := From(index, size, start);
    var last := page[|page| - 1];
    assert last == index[start + size - 1];
    AtMostPrefix(index, last.numero);
    AtMostFits(index, last.numero);
    var end := start + size;
    if end < |index| {
      assert index[end].numero <= last.numero <==> end < AtMost(index, last.numero);
      assert index[end - 1].numero <= index[end].numero;
    }
  }

  /** Where the walk loses a hit, read off the index: a run of one number lies across a multiple
      of the page size. */
  lemma {:induction false} WhenAWalkSplitsARun(index: seq<Hit>, size: nat, start: nat)
    requires Ascending(index) && Tokens(index) && size > 0 && start <= |index|
    ensures SplitsARun(index, size, start) <==> SomeRunStraddles(index, size, start)
    decreases |index| - start
  {
    hide SplitsARun, From, Ascending, Tokens, Next, Straddles, Returned;
    OnePage(index, size, start);
    var next := Next(index, size, start);
    if next.None? {
      NoNextIsTheEnd(index, size, start);
      assert |index[start..Min(start + size, |index|)]| == |index[start..]|;
      forall k ensures !Straddles(index, size, start, k) {
        BeyondTheEnd(index, size, start, k);
      }
    } else {
      WhenAPageSkips(index, size, start);
      StraddlesAtOnce(index, size, start);
      if next.value == start + size {
        WhenAWalkSplitsARun(index, size, next.value);
        StraddlesOnward(index, size, start);
      }
    }
  }

  lemma StraddlesOnward(index: seq<Hit>, size: nat, start: nat)
    requires !Straddles(index, size, start, 1)
    ensures SomeRunStraddles(index, size, start) <==> SomeRunStraddles(index, size, start + size)
  {
    if SomeRunStraddles(index, size, start) {
      var k: nat :| Straddles(index, size, start, k);
      OneFurther(index, size, start, k);
      assert Straddles(index, size, start + size, k - 1);
    }
    if SomeRunStraddles(index, size, start + size) {
      var k: nat :| Straddles(index, size, start + size, k);
      OneFurther(index, size, start, k);
      assert Straddles(index, size, start, k + 1);
    }
  }

  /** All hits come back if and only if no run of one number lies across a multiple of the page
      size. */
  lemma WhenEveryHitComesBack(index: seq<Hit>, size: nat, start: nat)
    requires Ascending(index) && Tokens(index) && size > 0 && start <= |index|
    ensures Returned(index, size, start) == index[start..] <==> !SomeRunStraddles(index, size, start)
  {
    WhenNoPageSplits(index, size, start);
    WhenAWalkSplitsARun(index, size, start);
  }

  lemma {:induction false} WhenNoPageSplits(index: seq<Hit>, size: nat, start: nat)
    requires Ascending(index) && Tokens(index) && size > 0 && start <= |index|
    ensures |Returned(index, size, start)| <= |index| - start
    ensures Returned(index, size, start) == index[start..] <==> !SplitsARun(index, size, start)
    decreases |index| - start
  {
    hide Returned, SplitsARun, From, Ascending, Tokens, Next;
    OnePage(index, size, start);
    var end, next := Min(start + size, |index|), Next(index, size, start);
    if next.Some? {
      WhenNoPageSplits(index, size, next.value);
      var rest := Returned(index, size, next.value);
      SamePrefix(index, start, end, rest);
      assert next.value > end ==> |rest| < |index[end..]|;
    } else {
      NoNextIsTheEnd(index, size, start);
    }
  }

  lemma SamePrefix(index: seq<Hit>, a: nat, b: nat, rest: seq<Hit>)
    requires a <= b <= |index|
    ensures index[a..b] + rest == index[a..] <==> rest == index[b..]
  {
    assert index[a..] == index[a..b] + index[b..];
    if index[a..b] + rest == index[a..] {
      assert rest == (index[a..b] + rest)[b - a..] == index[a..][b - a..] == index[b..];
    }
  }

  /** Distinct numbers are never split. */
  lemma {:induction false} DistinctNumbersAreNeverSplit(index: seq<Hit>, size: nat, start: nat)
    requires Ascending(index) && size > 0 && start <= |index|
    requires forall i, j | 0 <= i < j < |index| :: index[i].numero != index[j].numero
    ensures !SplitsARun(index, size, start)
    decreases |index| - start
  {
    var page, next := From(index, size, start), Next(index, size, start);
    if next.Some? {
      CursorAdvances(index, size, start);
      AtMostPrefix(index, page[|page| - 1].numero);
      var end := start + |page|;
      assert end < |index| ==> index[end].numero > index[end - 1].numero;
      DistinctNumbersAreNeverSplit(index, size, next.value);
    }
  }

  lemma DistinctNumbersAllComeBack(index: seq<Hit>, size: nat, start: nat)
    requires Ascending(index) && size > 0 && start <= |index|
    requires forall i, j | 0 <= i < j < |index| :: index[i].numero != index[j].numero
    ensures !SplitsARun(index, size, start)
    ensures Tokens(index) ==> Returned(index, size, start) == index[start..]
  {
    DistinctNumbersAreNeverSplit(index, size, start);
    if Tokens(index) {
      WhenNoPageSplits(index, size, start);
    }
  }

  /** The loss is real: asked for one number that has two hits, the walk takes pages of one and
      returns only the first. */
  lemma ASecondHitCanBeLost(first: Hit, second: Hit)
    requires first.numero == second.numero && first.token && second.token
    ensures Returned([first, second], 1, 0) == [first]
  {
    var index := [first, second];
    assert index[..1] == [first] && AtMost([first], first.numero) == 1 + AtMost([], first.numero);
    assert AtMost(index, first.numero) == 2;
    assert From(index, 1, 0) == [first] && From(index, 1, 2) == [];
  }

  // ---- Mapping the pages ----

  /** A page whose envelope does not decode fails the whole batch. */
  datatype Body = Garbled | Hits(hits: seq<Hit>)

  function Processes(hits: seq<Hit>): map<Numero, Process> {
    if hits == [] then map[]
    else
      var before, h := Processes(hits[..|hits| - 1]), hits[|hits| - 1];
      if h.source.Parsed? then before[h.source.process.numero := h.source.process] else before
  }

  function Skipped(hits: seq<Hit>): seq<Numero> {
    if hits == [] then []
    else Skipped(hits[..|hits| - 1]) + if hits[|hits| - 1].source.Broken? then [hits[|hits| - 1].numero] else []
  }

  function HitsOf(pages: seq<Body>): seq<Hit> {
    if pages == [] then []
    else HitsOf(pages[..|pages| - 1]) + if pages[|pages| - 1].Hits? then pages[|pages| - 1].hits else []
  }

  lemma OneMoreHit(hits: seq<Hit>, h: Hit)
    ensures Processes(hits + [h]) == if h.source.Parsed? then Processes(hits)[h.source.process.numero := h.source.process] else Processes(hits)
    ensures Skipped(hits + [h]) == Skipped(hits) + if h.source.Broken? then [h.numero] else []
  {
    assert (hits + [h])[..|hits|] == hits;
  }

  method ParsePage(hits: seq<Hit>, before: map<Numero, Process>, skippedBefore: seq<Numero>, ghost seen: seq<Hit>)
    returns (out: map<Numero, Process>, skipped: seq<Numero>)
    requires before == Processes(seen) && skippedBefore == Skipped(seen)
    ensures out == Processes(seen + hits) && skipped == Skipped(seen + hits)
  {
    hide Processes, Skipped;
    out, skipped := before, skippedBefore;
    assert seen + hits[..0] == seen;
    for j := 0 to |hits|
      invariant out == Processes(seen + hits[..j]) && skipped == Skipped(seen + hits[..j])
    {
      assert seen + hits[..j + 1] == (seen + hits[..j]) + [hits[j]];
      OneMoreHit(seen + hits[..j], hits[j]);
      match hits[j].source
      case Parsed(p) => out := out[p.numero := p];
      case Broken => skipped := skipped + [hits[j].numero];
      case NoGrade =>
    }
    assert hits[..|hits|] == hits;
  }

  method ParseBatch(pages: seq<Body>) returns (r: Option<(map<Numero, Process>, seq<Numero>)>)
    ensures r.None? <==> Garbled in pages
    ensures r.Some? ==> r.value == (Processes(HitsOf(pages)), Skipped(HitsOf(pages)))
  {
    var out: map<Numero, Process>, skipped: seq<Numero> := map[], [];
    for i := 0 to |pages|
      invariant Garbled !in pages[..i]
      invariant out == Processes(HitsOf(pages[..i])) && skipped == Skipped(HitsOf(pages[..i]))
    {
      assert pages[..i + 1][..i] == pages[..i];
      if pages[i].Garbled? {
        return None;
      }
      out, skipped := ParsePage(pages[i].hits, out, skipped, HitsOf(pages[..i]));
    }
    assert pages[..|pages|] == pages;
    r := Some((out, skipped));
  }

  /** The hits of a batch are those of its pages, page after page. */
  lemma {:induction false} HitsPageByPage(pages: seq<Body>, i: nat)
    requires i < |pages|
    ensures HitsOf(pages) == HitsOf(pages[..i]) + (if pages[i].Hits? then pages[i].hits else []) + HitsOf(pages[i + 1..])
    ensures HitsOf([]) == []
  {
    var n := |pages| - 1;
    if i < n {
      HitsPageByPage(pages[..n], i);
      assert pages[..n][..i] == pages[..i] && pages[i + 1..][..n - i - 1] == pages[..n][i + 1..];
    } else {
      assert pages[i + 1..] == [] && pages[..i] == pages[..n];
    }
  }

  predicate LastParsed(hits: seq<Hit>, i: nat, n: Numero) {
    && i < |hits| && hits[i].source.Parsed? && hits[i].source.process.numero == n
    && forall j | i < j < |hits| && hits[j].source.Parsed? :: hits[j].source.process.numero != n
  }

  /** A number maps to the last hit that parsed to it, and to nothing when none did. */
  lemma {:induction false} TheLastParsedHitStands(hits: seq<Hit>, n: Numero)
    ensures n in Processes(hits) <==> exists i: nat :: LastParsed(hits, i, n)
    ensures forall i: nat | LastParsed(hits, i, n) :: Processes(hits)[n] == hits[i].source.process
  {
    if hits != [] {
      var m := |hits| - 1;
      TheLastParsedHitStands(hits[..m], n);
      if hits[m].source.Parsed? && hits[m].source.process.numero == n {
        assert LastParsed(hits, m, n);
      } else {
        assert forall i: nat :: LastParsed(hits, i, n) <==> LastParsed(hits[..m], i, n);
      }
    }
  }

  function BrokenAt(hits: seq<Hit>): set<nat> {
    set i: nat | i < |hits| && hits[i].source.Broken?
  }

  lemma NoneBroken()
    ensures BrokenAt([]) == {}
  {
  }

  lemma BrokenAtGrows(hits: seq<Hit>, h: Hit)
    ensures BrokenAt(hits + [h]) == BrokenAt(hits) + (if h.source.Broken? then {|hits|} else {})
    ensures |BrokenAt(hits + [h])| == |BrokenAt(hits)| + (if h.source.Broken? then 1 else 0)
  {
    assert |hits| !in BrokenAt(hits);
    assert BrokenAt(hits + [h]) == BrokenAt(hits) + (if h.source.Broken? then {|hits|} else {});
  }

  /** Every broken hit is counted, and counted once: the list is the broken hits' numbers, in
      order. */
  lemma {:induction false} EveryBrokenHitIsCounted(hits: seq<Hit>)
    ensures |Skipped(hits)| == |BrokenAt(hits)|
    ensures forall i | i in BrokenAt(hits) ::
              i < |hits| && |BrokenAt(hits[..i])| < |Skipped(hits)| && Skipped(hits)[|BrokenAt(hits[..i])|] == hits[i].numero
  {
    hide BrokenAt;
    if hits == [] {
      NoneBroken();
    } else {
      var m := |hits| - 1;
      EveryBrokenHitIsCounted(hits[..m]);
      assert hits == hits[..m] + [hits[m]];
      OneMoreHit(hits[..m], hits[m]);
      BrokenAtGrows(hits[..m], hits[m]);
      hide Skipped;
      forall i | i in BrokenAt(hits)
        ensures i < |hits| && |BrokenAt(hits[..i])| < |Skipped(hits)| && Skipped(hits)[|BrokenAt(hits[..i])|] == hits[i].numero
      {
        if i < m {
          assert i in BrokenAt(hits[..m]) && hits[..m][..i] == hits[..i];
        }
      }
    }
  }

  /** What makes a step count errors is a hit that came back broken, and nothing else; what it
      can grade is what came back parsed. A number the index does not hold does neither. */
  lemma {:induction false} OnlyBrokenHitsCount(hits: seq<Hit>)
    ensures |Skipped(hits)| > 0 <==> exists h :: h in hits && h.source.Broken?
    ensures forall n :: n in Processes(hits) <==> exists h :: h in hits && h.source.Parsed? && h.source.process.numero == n
  {
    if hits != [] {
      var n := |hits| - 1;
      OnlyBrokenHitsCount(hits[..n]);
      assert forall h :: h in hits <==> h in hits[..n] || h == hits[n];
    }
  }
}
