/** The life of one watched OAB: when its catch-up mark is set, when it is cleared, and whether
    a cleared mark means that the downtime was really caught up. */
module CatchUpGaps {
  import opened Wrappers
  import opened CatchUp

  /** A catch-up sync: it fetches from `since` up to the instant it was dispatched at. */
  datatype Dispatch = Dispatch(since: Instant, at: Instant)

  /** A stretch the watch was off, from the disable to the real re-enable. */
  datatype Down = Down(from: Instant, to: Instant)

  /** `heard` are the re-enable events that became dispatches; `landed` the dispatches whose
      sync completed; `failed` those whose sync failed. */
  datatype Life = Life(
    watch: Option<Watch>, now: Instant, announced: seq<Instant>, heard: set<nat>,
    dispatches: seq<Dispatch>, landed: set<nat>, failed: set<nat>, downs: seq<Down>)

  datatype Step =
    | Activate(at: Instant)
    | ToggleOn(at: Instant)
    | ToggleOff(at: Instant)
    | Hear(event: nat, at: Instant)
    | CloseSync(dispatch: nat, ok: bool, at: Instant)

  ghost predicate Enabled(l: Life, x: Step) {
    && l.now <= x.at
    && match x
       case Hear(event, _) => event < |l.announced|
       case CloseSync(d, _, _) => d < |l.dispatches| && d !in l.landed && d !in l.failed
       case _ => true
  }

  function NewDown(w: Option<Watch>, at: Instant): seq<Down> {
    if Reenables(w) && w.value.disabledAt.Some? then [Down(w.value.disabledAt.value, at)] else []
  }

  /** The mark a real re-enable leaves, which is what it asks to catch up from. */
  function Asked(w: Option<Watch>): seq<Instant> {
    if Reenables(w) && Upserted(w).catchUpSince.Some? then [Upserted(w).catchUpSince.value] else []
  }

  function After(l: Life, x: Step): Life {
    var l := l.(now := x.at);
    match x
    case Activate(at) =>
      l.(watch := Some(Upserted(l.watch)), downs := l.downs + NewDown(l.watch, at),
         dispatches := l.dispatches + if Asked(l.watch) == [] then [] else [Dispatch(Asked(l.watch)[0], at)])
    case ToggleOn(at) =>
      if l.watch.None? then l
      else l.(watch := Some(Upserted(l.watch)), downs := l.downs + NewDown(l.watch, at), announced := l.announced + Asked(l.watch))
    case ToggleOff(at) =>
      if l.watch.None? then l else l.(watch := Some(Disabled(l.watch.value, at)))
    case Hear(event, at) =>
      if event in l.heard || event >= |l.announced| then l
      else l.(heard := l.heard + {event}, dispatches := l.dispatches + [Dispatch(l.announced[event], at)])
    case CloseSync(d, ok, at) =>
      if !ok then l.(failed := l.failed + {d})
      else if d < |l.dispatches| && l.watch.Some? then
        l.(landed := l.landed + {d}, watch := Some(Cleared(l.watch.value, l.dispatches[d].since)))
      else l.(landed := l.landed + {d})
  }

  function Mark(l: Life): Option<Instant> {
    if l.watch.Some? then l.watch.value.catchUpSince else None
  }

  const UNWATCHED := Life(None, 0, [], {}, [], {}, {}, [])

  function Lived(run: seq<Step>): Life {
    if run == [] then UNWATCHED else After(Lived(run[..|run| - 1]), run[|run| - 1])
  }

  ghost predicate Possible(run: seq<Step>) {
    forall i | 0 <= i < |run| :: Enabled(Lived(run[..i]), run[i])
  }

  // ---- What every life keeps ----

  /** The instants are in order, and only what was dispatched has closed. */
  ghost predicate Ordered(l: Life) {
    && (l.watch.Some? ==>
          var w := l.watch.value;
          && (w.disabledAt.Some? ==> w.disabledAt.value <= l.now)
          && (w.catchUpSince.Some? ==> w.disabledAt.Some? && w.catchUpSince.value <= w.disabledAt.value)
          && (!w.enabled ==> w.disabledAt.Some?))
    && (l.watch.None? ==> l.announced == [] && l.dispatches == [] && l.downs == [])
    && (forall d | d in l.landed :: d < |l.dispatches|)
    && (forall d | d in l.downs :: d.to <= l.now)
  }

  lemma StepKeepsOrder(l: Life, x: Step)
    requires Ordered(l) && Enabled(l, x)
    ensures Ordered(After(l, x))
  {
  }

  // ---- How a mark is cleared ----

  /** A set mark is never replaced, and only one thing clears it: a sync that completed and was
      dispatched with exactly that instant. A failed or a stale close leaves it. */
  lemma OnlyItsOwnSuccessClears(l: Life, x: Step)
    requires Enabled(l, x) && Mark(l).Some?
    ensures var cleared := x.CloseSync? && x.ok && Some(l.dispatches[x.dispatch].since) == Mark(l);
            Mark(After(l, x)) == if cleared then None else Mark(l)
  {
  }

  // ---- Whether a cleared mark means covered ----

  /** A completed sync fetched the whole of this downtime. */
  ghost predicate Covered(l: Life, d: Down) {
    exists i :: i in l.landed && i < |l.dispatches| && l.dispatches[i].since <= d.from && d.to <= l.dispatches[i].at
  }

  /** What the mark is there to say: without one nothing is missing, with one nothing older is. */
  ghost predicate Honest(l: Life) {
    forall d | d in l.downs && !Covered(l, d) :: Mark(l).Some? && Mark(l).value <= d.from
  }

  lemma CoveredStays(l: Life, x: Step, d: Down)
    requires Enabled(l, x) && Covered(l, d)
    ensures Covered(After(l, x), d)
  {
    var i :| i in l.landed && i < |l.dispatches| && l.dispatches[i].since <= d.from && d.to <= l.dispatches[i].at;
    var after := After(l, x);
    assert i in after.landed && i < |after.dispatches| && after.dispatches[i] == l.dispatches[i];
  }

  /** A close that would clear the mark although the watch was re-enabled, after its sync was
      dispatched, from a downtime no completed sync has fetched. */
  ghost predicate Overtaken(l: Life, x: Step) {
    x.CloseSync? && x.ok && x.dispatch < |l.dispatches| && Some(l.dispatches[x.dispatch].since) == Mark(l)
    && exists d :: d in l.downs && !Covered(l, d) && d.to > l.dispatches[x.dispatch].at
  }

  lemma MarkingStaysHonest(l: Life, x: Step)
    requires Ordered(l) && Honest(l) && Enabled(l, x) && (x.Activate? || x.ToggleOn?)
    ensures Honest(After(l, x))
  {
    var after := After(l, x);
    forall d | d in after.downs && !Covered(after, d) ensures Mark(after).Some? && Mark(after).value <= d.from {
      if d in l.downs {
        if Covered(l, d) {
          CoveredStays(l, x, d);
        }
      } else {
        assert d in NewDown(l.watch, x.at);
      }
    }
  }

  lemma LeavingStaysHonest(l: Life, x: Step)
    requires Ordered(l) && Honest(l) && Enabled(l, x) && Mark(After(l, x)) == Mark(l) && After(l, x).downs == l.downs
    ensures Honest(After(l, x))
  {
    forall d | d in l.downs && Covered(l, d) ensures Covered(After(l, x), d) {
      CoveredStays(l, x, d);
    }
  }

  /** Exactly when a step breaks the mark's promise: it is a close overtaken by a re-enable. The
      older mark was kept for both downtimes, so comparing instants does not tell them apart. */
  lemma WhenTheMarkStaysHonest(l: Life, x: Step)
    requires Ordered(l) && Honest(l) && Enabled(l, x)
    ensures Honest(After(l, x)) <==> !Overtaken(l, x)
  {
    if x.Activate? || x.ToggleOn? {
      MarkingStaysHonest(l, x);
    } else if x.CloseSync? && x.ok && Some(l.dispatches[x.dispatch].since) == Mark(l) {
      ClearingIsHonestUnlessOvertaken(l, x);
    } else {
      LeavingStaysHonest(l, x);
    }
  }

  lemma ClearingIsHonestUnlessOvertaken(l: Life, x: Step)
    requires Ordered(l) && Honest(l) && Enabled(l, x)
    requires x.CloseSync? && x.ok && Some(l.dispatches[x.dispatch].since) == Mark(l)
    ensures Honest(After(l, x)) <==> !Overtaken(l, x)
  {
    var after, sync := After(l, x), l.dispatches[x.dispatch];
    assert Mark(after) == None;
    forall d | d in l.downs && !Covered(l, d)
      ensures Covered(after, d) <==> d.to <= sync.at
    {
      assert sync.since <= d.from;
      if d.to <= sync.at {
        assert x.dispatch in after.landed && after.dispatches[x.dispatch] == sync;
      }
    }
    forall d | d in l.downs && Covered(l, d) ensures Covered(after, d) {
      CoveredStays(l, x, d);
    }
  }

  /** Any life without an overtaken close: whenever no mark is set, every downtime so far was
      fetched by a completed sync; while one is set, nothing older than it is missing. */
  lemma {:induction false} GapsAreNeverForgotten(run: seq<Step>)
    requires Possible(run)
    requires forall i | 0 <= i < |run| :: !Overtaken(Lived(run[..i]), run[i])
    ensures Ordered(Lived(run)) && Honest(Lived(run))
  {
    if run != [] {
      var n := |run| - 1;
      var before := run[..n];
      forall i | 0 <= i < n ensures Enabled(Lived(before[..i]), before[i]) && !Overtaken(Lived(before[..i]), before[i]) {
        assert before[..i] == run[..i];
      }
      GapsAreNeverForgotten(before);
      StepKeepsOrder(Lived(before), run[n]);
      WhenTheMarkStaysHonest(Lived(before), run[n]);
    }
  }

  // ---- Whether a mark has a sync under way ----

  /** A sync was dispatched, or a re-enable announced, for exactly the marked instant. */
  ghost predicate Backed(l: Life) {
    Mark(l).Some? ==>
      || (exists d :: d in l.dispatches && d.since == Mark(l).value)
      || (exists s :: s in l.announced && s == Mark(l).value)
  }

  /** A scope posted again over a watch that is on, has no mark, and was off before. */
  predicate Remarks(l: Life, x: Step) {
    (x.Activate? || x.ToggleOn?) && l.watch.Some? && l.watch.value.enabled
    && l.watch.value.catchUpSince.None? && l.watch.value.disabledAt.Some?
  }

  /** A re-post that marks the last disable again, when no sync was ever asked for from it. */
  ghost predicate Phantom(l: Life, x: Step) {
    Remarks(l, x)
    && var t := l.watch.value.disabledAt.value;
       !(exists d :: d in l.dispatches && d.since == t) && !(exists s :: s in l.announced && s == t)
  }

  /** Exactly when a step sets a mark that no sync was asked for: it is such a re-post. */
  lemma WhenAMarkIsBacked(l: Life, x: Step)
    requires Ordered(l) && Backed(l) && Enabled(l, x)
    ensures Backed(After(l, x)) <==> !Phantom(l, x)
  {
    var after := After(l, x);
    forall d | d in l.dispatches ensures d in after.dispatches {
    }
    if Mark(l).Some? {
      OnlyItsOwnSuccessClears(l, x);
      assert forall s | s in l.announced :: s in after.announced;
    } else if (x.Activate? || x.ToggleOn?) && Asked(l.watch) != [] {
      if x.Activate? {
        var d := Dispatch(Asked(l.watch)[0], x.at);
        assert d in after.dispatches && d.since == Mark(after).value;
      } else {
        assert Asked(l.watch)[0] in after.announced;
      }
    } else if Remarks(l, x) {
      assert Mark(after) == l.watch.value.disabledAt;
      assert after.dispatches == l.dispatches && after.announced == l.announced;
    } else {
      assert Mark(after) == None;
    }
  }

  /** Any life without such a re-post: every gap that is marked had a sync asked for, from
      exactly its instant. */
  lemma {:induction false} MarkedGapsAreAskedFor(run: seq<Step>)
    requires Possible(run)
    requires forall i | 0 <= i < |run| :: !Phantom(Lived(run[..i]), run[i])
    ensures Ordered(Lived(run)) && Backed(Lived(run))
  {
    hide Phantom, Backed, Ordered, After;
    if run == [] {
      UnwatchedIsBacked();
    } else {
      var n := |run| - 1;
      var before := run[..n];
      forall i | 0 <= i < n ensures Enabled(Lived(before[..i]), before[i]) && !Phantom(Lived(before[..i]), before[i]) {
        assert before[..i] == run[..i];
      }
      MarkedGapsAreAskedFor(before);
      StepKeepsOrder(Lived(before), run[n]);
      WhenAMarkIsBacked(Lived(before), run[n]);
    }
  }

  lemma UnwatchedIsBacked()
    ensures Ordered(UNWATCHED) && Backed(UNWATCHED)
  {
  }

  // ---- Two lives that go wrong ----

  const TWICE: seq<Step> := [Activate(0), ToggleOff(1), Activate(2), ToggleOff(3), Activate(4)]

  /** Off, on, off and on again before the first sync completes. */
  function OffAndOnTwice(): Life {
    Life(Some(Watch(true, Some(3), Some(1))), 4, [], {}, [Dispatch(1, 2), Dispatch(1, 4)], {}, {}, [Down(1, 2), Down(3, 4)])
  }

  lemma TwiceIsLived()
    ensures Possible(TWICE) && Lived(TWICE) == OffAndOnTwice()
  {
    var l1 := Life(Some(Watch(true, None, None)), 0, [], {}, [], {}, {}, []);
    var l2 := l1.(watch := Some(Watch(false, Some(1), None)), now := 1);
    var l3 := l2.(watch := Some(Watch(true, Some(1), Some(1))), now := 2, dispatches := [Dispatch(1, 2)], downs := [Down(1, 2)]);
    var l4 := l3.(watch := Some(Watch(false, Some(3), Some(1))), now := 3);
    Unfold(TWICE, [UNWATCHED, l1, l2, l3, l4, OffAndOnTwice()]);
  }

  /** The first sync's success clears the mark, and the second downtime stays unfetched if the
      second sync fails. */
  lemma AStaleSuccessForgetsTheNewerGap()
    ensures var run := TWICE + [CloseSync(0, true, 5)] + [CloseSync(1, false, 6)];
            && Possible(run) && Mark(Lived(run)) == None
            && Down(3, 4) in Lived(run).downs && !Covered(Lived(run), Down(3, 4))
  {
    TwiceIsLived();
    OneStepOn(TWICE, CloseSync(0, true, 5));
    OneStepOn(TWICE + [CloseSync(0, true, 5)], CloseSync(1, false, 6));
  }

  /** Both downtimes caught up by the second sync. */
  function CaughtUp(): Life {
    Life(Some(Watch(true, Some(3), None)), 5, [], {}, [Dispatch(1, 2), Dispatch(1, 4)], {1}, {}, [Down(1, 2), Down(3, 4)])
  }

  lemma BothAreCaughtUp()
    ensures var run := TWICE + [CloseSync(1, true, 5)]; Possible(run) && Lived(run) == CaughtUp()
  {
    TwiceIsLived();
    OneStepOn(TWICE, CloseSync(1, true, 5));
  }

  lemma TheRepostMarks()
    ensures Enabled(CaughtUp(), Activate(6))
    ensures var after := After(CaughtUp(), Activate(6)); Mark(after) == Some(3) && !Backed(after)
  {
  }

  /** Then the next post of the same scope marks the second disable, from which no sync was ever
      asked for. */
  lemma ARepostMarksAGapNobodyFetches()
    ensures var run := TWICE + [CloseSync(1, true, 5)] + [Activate(6)];
            Possible(run) && Mark(Lived(run)) == Some(3) && !Backed(Lived(run))
  {
    hide Lived, Possible, After, Mark, Backed, Enabled;
    BothAreCaughtUp();
    TheRepostMarks();
    OneStepOn(TWICE + [CloseSync(1, true, 5)], Activate(6));
  }

  lemma OneStepOn(run: seq<Step>, x: Step)
    requires Possible(run) && Enabled(Lived(run), x)
    ensures Possible(run + [x]) && Lived(run + [x]) == After(Lived(run), x)
  {
    var more := run + [x];
    assert more[..|run|] == run;
    forall i | 0 <= i < |more| ensures Enabled(Lived(more[..i]), more[i]) {
      if i < |run| {
        assert more[..i] == run[..i];
      }
    }
  }

  /** A list of states each reached from the one before is the history of the run. */
  lemma Unfold(run: seq<Step>, states: seq<Life>)
    requires |states| == |run| + 1 && states[0] == UNWATCHED
    requires forall i | 0 <= i < |run| :: Enabled(states[i], run[i]) && states[i + 1] == After(states[i], run[i])
    ensures Possible(run) && Lived(run) == states[|run|]
  {
    forall i | 0 <= i <= |run| ensures Lived(run[..i]) == states[i] {
      Reaches(run, states, i);
    }
    assert run[..|run|] == run;
  }

  lemma {:induction false} Reaches(run: seq<Step>, states: seq<Life>, n: nat)
    requires |states| == |run| + 1 && states[0] == UNWATCHED && n <= |run|
    requires forall i | 0 <= i < |run| :: states[i + 1] == After(states[i], run[i])
    ensures Lived(run[..n]) == states[n]
  {
    if n > 0 {
      Reaches(run, states, n - 1);
      assert run[..n][..n - 1] == run[..n - 1];
    }
  }
}
