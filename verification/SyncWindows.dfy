/** Slicing a backfill horizon into windows of days. A date is the number of its day. */
module SyncWindows {

  /** [from, to): date bounds, the second exclusive. */
  datatype Window = Window(from: int, to: int)

  /** The ceiling of horizon / window; nothing to slice when either is not positive. */
  function CalculateSlices(horizonDays: int, windowDays: int): int {
    if horizonDays <= 0 || windowDays <= 0 then 0 else (horizonDays + windowDays - 1) / windowDays
  }

  ghost predicate Tiles(ws: seq<Window>, from: int, to: int, windowDays: int) {
    && ws != [] && ws[0].from == from && ws[|ws| - 1].to == to
    && (forall i | 0 <= i < |ws| :: 0 < ws[i].to - ws[i].from <= windowDays)
    && (forall i | 0 <= i < |ws| - 1 :: ws[i].to == ws[i + 1].from && ws[i].to - ws[i].from == windowDays)
  }

  lemma OneMoreTile(ws: seq<Window>, from: int, cur: int, next: int, windowDays: int)
    requires 0 < next - cur <= windowDays
    requires if ws == [] then cur == from else Tiles(ws, from, cur, windowDays) && ws[|ws| - 1].to - ws[|ws| - 1].from == windowDays
    ensures Tiles(ws + [Window(cur, next)], from, next, windowDays)
  {
  }

  method BuildSyncWindows(from: int, to: int, windowDays: int) returns (ws: seq<Window>)
    ensures windowDays <= 0 || to <= from ==> ws == []
    ensures windowDays > 0 && from < to ==> Tiles(ws, from, to, windowDays)
    ensures |ws| == CalculateSlices(to - from, windowDays)
  {
    ws := [];
    if windowDays <= 0 {
      return;
    }
    assert to <= from ==> CalculateSlices(to - from, windowDays) == 0;
    hide Tiles, CalculateSlices;
    var cur := from;
    assert |ws| * windowDays == 0;
    while cur < to
      invariant ws == [] ==> cur == from
      invariant ws != [] ==> Tiles(ws, from, cur, windowDays)
      invariant ws != [] && cur < to ==> ws[|ws| - 1].to - ws[|ws| - 1].from == windowDays
      invariant ws != [] ==> cur <= to
      invariant cur < to || ws == [] ==> cur == from + |ws| * windowDays
      invariant cur >= to && ws != [] ==> |ws| == CalculateSlices(to - from, windowDays)
      decreases if cur < to then to - cur else 0
    {
      var next := cur + windowDays;
      if next > to {
        next := to;
      }
      SliceOf(to - from, windowDays, |ws|);
      OneMoreTile(ws, from, cur, next, windowDays);
      ws := ws + [Window(cur, next)];
      cur := next;
    }
  }

  /** The number of the slice that reaches the end. */
  lemma SliceOf(horizon: int, window: int, n: nat)
    requires 0 < window && n * window < horizon
    ensures (n + 1) * window == n * window + window
    ensures horizon <= n * window + window ==> CalculateSlices(horizon, window) == n + 1
  {
    if horizon <= n * window + window {
      var x := horizon + window - 1;
      assert x == (n + 1) * window + (horizon - 1 - n * window);
      Quotient(x, window, n + 1, horizon - 1 - n * window);
    }
  }

  lemma Quotient(x: int, d: int, q: int, r: int)
    requires 0 < d && 0 <= r < d && x == q * d + r
    ensures x / d == q
  {
    assert x == (x / d) * d + x % d;
    assert (x / d - q) * d == r - x % d;
    Multiple(x / d - q, d);
  }

  /** A multiple of d other than zero is at least d away from it. */
  lemma Multiple(q: int, d: int)
    requires 0 < d
    ensures q >= 1 ==> q * d >= d
    ensures q <= -1 ==> q * d <= -d
  {
  }

  /** A tiling covers every day of the range by exactly one window, and no other day. */
  lemma {:induction false} EveryDayOnce(ws: seq<Window>, from: int, to: int, windowDays: int, day: int)
    requires Tiles(ws, from, to, windowDays)
    ensures from < to
    ensures from <= day < to <==> exists i :: 0 <= i < |ws| && ws[i].from <= day < ws[i].to
    ensures forall i, j | 0 <= i < |ws| && 0 <= j < |ws| && ws[i].from <= day < ws[i].to && ws[j].from <= day < ws[j].to :: i == j
    decreases |ws|
  {
    var n := |ws| - 1;
    if n > 0 {
      ButTheLast(ws, from, to, windowDays);
      EveryDayOnce(ws[..n], from, ws[n].from, windowDays, day);
      hide Tiles;
      assert forall i | 0 <= i < n :: ws[..n][i] == ws[i];
      if from <= day < ws[n].from {
        var i :| 0 <= i < n && ws[..n][i].from <= day < ws[..n][i].to;
        assert ws[i].from <= day < ws[i].to;
      }
    }
  }

  /** Without its last window a tiling tiles up to where that one starts. */
  lemma ButTheLast(ws: seq<Window>, from: int, to: int, windowDays: int)
    requires Tiles(ws, from, to, windowDays) && |ws| > 1
    ensures var n := |ws| - 1;
            && Tiles(ws[..n], from, ws[n].from, windowDays) && ws[n].from < ws[n].to == to
            && forall i | 0 <= i < n :: ws[i].to <= ws[n].from
  {
    var n := |ws| - 1;
    forall i | 0 <= i < n ensures ws[i].to <= ws[n].from {
      EdgesRise(ws, from, to, windowDays, i, n);
    }
  }

  lemma {:induction false} EdgesRise(ws: seq<Window>, from: int, to: int, windowDays: int, i: nat, j: nat)
    requires Tiles(ws, from, to, windowDays) && i < j < |ws|
    ensures ws[i].to <= ws[j].from
    decreases j
  {
    if i < j - 1 {
      EdgesRise(ws, from, to, windowDays, i, j - 1);
    }
  }
}
