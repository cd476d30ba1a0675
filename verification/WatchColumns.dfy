/** What happens to the row of a watch, column by column: at a close, at an activation and over a
    life; and that the life of one watch and the tables of all of them tell the same story. */
module WatchColumns {
  import opened Wrappers
  import opened CatchUp
  import B = Backfill
  import G = CatchUpGaps

  // ---- At a close ----

  /** The row holds a mark and this is the first delivery of a success that carries it. */
  predicate Answers(s: B.State, c: B.Close) {
    && s.watch.Some? && s.watch.value.catchUpSince.Some?
    && c.eventId !in s.processed && c.ok && c.catchUp == s.watch.value.catchUpSince
  }

  /** A close clears the mark exactly then, and writes nothing else of the watch, ever. */
  lemma WhatACloseDoesToTheWatch(s: B.State, c: B.Close)
    ensures B.OnClose(s, c).watch == if Answers(s, c) then Some(s.watch.value.(catchUpSince := None)) else s.watch
    ensures Answers(s, c) <==> B.OnClose(s, c).watch != s.watch
    ensures c.eventId in s.processed ==> B.OnClose(s, c) == s
  {
  }

  /** A redelivery is the event it redelivers. */
  ghost predicate OnePayloadEach(stream: seq<B.Close>) {
    forall c, d | c in stream && d in stream && c.eventId == d.eventId :: c == d
  }

  /** Some close of the stream, not heard before it, is a success that carries this mark. */
  ghost predicate Answered(s: B.State, stream: seq<B.Close>, mark: Instant) {
    exists c :: c in stream && c.eventId !in s.processed && c.ok && c.catchUp == Some(mark)
  }

  /** Over any stream of closes, duplicated or reordered, the mark goes if and only if one of them
      answers it; the switch and the disable are left alone. */
  lemma {:induction false} WhenAStreamClearsTheMark(s: B.State, stream: seq<B.Close>)
    requires s.watch.Some? && s.watch.value.catchUpSince.Some? && OnePayloadEach(stream)
    ensures var mark := s.watch.value.catchUpSince.value;
            B.After(s, stream).watch == Some(if Answered(s, stream, mark) then s.watch.value.(catchUpSince := None) else s.watch.value)
    ensures s.processed <= B.After(s, stream).processed
    ensures forall id :: id in B.After(s, stream).processed
                         ==> id in s.processed || exists c :: c in stream && c.eventId == id
  {
    if stream != [] {
      var n, mark := |stream| - 1, s.watch.value.catchUpSince.value;
      var before, c := stream[..n], stream[n];
      assert forall d :: d in stream <==> d in before || d == c;
      WhenAStreamClearsTheMark(s, before);
      WhatACloseDoesToTheWatch(B.After(s, before), c);
      HeardAtMost(B.After(s, before), c);
      hide B.OnClose;
      assert Answered(s, stream, mark) <==> Answered(s, before, mark) || (c.eventId !in s.processed && c.ok && c.catchUp == Some(mark));
      if !Answered(s, before, mark) && c.eventId in B.After(s, before).processed && c.eventId !in s.processed {
        var d :| d in before && d.eventId == c.eventId;
        assert d in stream && c in stream;
      }
    }
  }

  lemma HeardAtMost(s: B.State, c: B.Close)
    ensures s.processed <= B.OnClose(s, c).processed <= s.processed + {c.eventId}
    ensures c.catchUp.Some? || c.ofJob ==> c.eventId in B.OnClose(s, c).processed
  {
  }

  /** The close of a life is the close of the tables, for an event not heard before that carries
      the instant the sync was dispatched with. */
  lemma ACloseOfALifeIsACloseOfTheTables(l: G.Life, x: G.Step, s: B.State, c: B.Close)
    requires G.Enabled(l, x) && x.CloseSync?
    requires s.watch == l.watch && c.eventId !in s.processed
    requires c.ok == x.ok && c.catchUp == Some(l.dispatches[x.dispatch].since)
    ensures G.After(l, x).watch == B.OnClose(s, c).watch
  {
  }

  // ---- At an activation ----

  /** The row of a key of the scope afterwards: on, with its mark or else its last disable. */
  ghost predicate SwitchedOn(prior: Option<Watch>, row: Watch) {
    && row.enabled
    && (prior.None? ==> row.disabledAt == None && row.catchUpSince == None)
    && (prior.Some? ==>
          && row.disabledAt == prior.value.disabledAt
          && row.catchUpSince == if prior.value.catchUpSince.Some? then prior.value.catchUpSince else prior.value.disabledAt)
  }

  /** How many times each catch-up is asked for: once for a key that was off and leaves with a
      mark, from that mark; never otherwise, however often the scope repeats the key. */
  ghost predicate AskedOnce(ws: Watches, keys: seq<OabKey>, after: Watches, asked: seq<Message>, now: Instant) {
    && (forall m | m in asked :: m.CatchUpRequested? && m.at == now && m.key in keys && m.key in ws)
    && (forall k, since ::
          multiset(asked)[CatchUpRequested(k, since, now)]
          == if k in keys && k in ws && k in after && !ws[k].enabled && after[k].catchUpSince == Some(since) then 1 else 0)
  }

  ghost predicate Rows(ws: Watches, keys: seq<OabKey>, after: Watches) {
    && (forall k :: k in after <==> k in ws || k in keys)
    && (forall k | k in ws && k !in keys :: after[k] == ws[k])
    && (forall k | k in keys :: SwitchedOn(Find(ws, k), after[k]))
  }

  lemma {:induction false} WhatAnActivationWrites(ws: Watches, keys: seq<OabKey>)
    ensures Rows(ws, keys, AllUpserted(ws, keys))
  {
    if keys != [] {
      var n := |keys| - 1;
      WhatAnActivationWrites(ws, keys[..n]);
      assert forall k :: k in keys <==> k in keys[..n] || k == keys[n];
    }
  }

  /** The backfill is for the keys that had no row, each once. */
  lemma {:induction false} WhatAnActivationBackfills(ws: Watches, keys: seq<OabKey>)
    ensures forall k :: multiset(NewlyWatched(ws, keys))[k] == if k in keys && k !in ws then 1 else 0
  {
    if keys != [] {
      var n := |keys| - 1;
      WhatAnActivationBackfills(ws, keys[..n]);
      WhatAnActivationWrites(ws, keys[..n]);
      hide AllUpserted, SwitchedOn;
      assert forall k :: k in keys <==> k in keys[..n] || k == keys[n];
    }
  }

  lemma {:induction false} WhatAnActivationCatchesUp(ws: Watches, keys: seq<OabKey>, now: Instant)
    ensures AskedOnce(ws, keys, AllUpserted(ws, keys), CatchUps(ws, keys, now), now)
  {
    if keys != [] {
      var n := |keys| - 1;
      WhatAnActivationCatchesUp(ws, keys[..n], now);
      WhatAnActivationWrites(ws, keys[..n]);
      WhatAnActivationWrites(ws, keys);
      assert forall k :: k in keys <==> k in keys[..n] || k == keys[n];
      OneMoreKey(ws, keys[..n], AllUpserted(ws, keys[..n]), AllUpserted(ws, keys), CatchUps(ws, keys[..n], now), keys[n], now);
      assert keys == keys[..n] + [keys[n]];
    }
  }

  lemma OneMoreKey(ws: Watches, keys: seq<OabKey>, before: Watches, after: Watches, asked: seq<Message>, k: OabKey, now: Instant)
    requires AskedOnce(ws, keys, before, asked, now) && Rows(ws, keys, before) && Rows(ws, keys + [k], after)
    ensures AskedOnce(ws, keys + [k], after, asked + OneCatchUp(k, Find(before, k), now), now)
  {
  }

  /** One activation over a whole scope: who is in the backfill, who gets a catch-up and from when,
      and that a life lived through it has this row and this dispatch. */
  lemma AnActivationOfALifeIsOneOfTheTables(l: G.Life, ws: Watches, keys: seq<OabKey>, k: OabKey, at: Instant)
    requires k in keys && Find(ws, k) == l.watch
    ensures G.After(l, G.Activate(at)).watch == Find(AllUpserted(ws, keys), k)
    ensures l.watch.None? <==> k in NewlyWatched(ws, keys)
    ensures forall since ::
              CatchUpRequested(k, since, at) in CatchUps(ws, keys, at)
              <==> G.After(l, G.Activate(at)).dispatches == l.dispatches + [G.Dispatch(since, at)]
    ensures (forall since :: CatchUpRequested(k, since, at) !in CatchUps(ws, keys, at))
            <==> G.After(l, G.Activate(at)).dispatches == l.dispatches
  {
    WhatAnActivationWrites(ws, keys);
    WhatAnActivationBackfills(ws, keys);
    WhatAnActivationCatchesUp(ws, keys, at);
    hide AllUpserted, NewlyWatched, CatchUps;
    var asked := G.Asked(l.watch);
    assert forall since :: CatchUpRequested(k, since, at) in CatchUps(ws, keys, at) <==> asked == [since];
    forall since
      ensures l.dispatches + [G.Dispatch(since, at)] == G.After(l, G.Activate(at)).dispatches <==> asked == [since]
    {
      var grown := l.dispatches + [G.Dispatch(since, at)];
      assert grown[|l.dispatches|] == G.Dispatch(since, at) && |grown| == |l.dispatches| + 1;
      if asked != [] {
        assert (l.dispatches + [G.Dispatch(asked[0], at)])[|l.dispatches|] == G.Dispatch(asked[0], at);
      }
    }
  }

  // ---- Over a life ----

  predicate SwitchedOffAt(run: seq<G.Step>, i: nat, at: Instant) {
    && i < |run| && run[i] == G.ToggleOff(at)
    && G.Lived(run[..i]).watch.Some? && G.Lived(run[..i]).watch.value.enabled
    && forall j | i < j < |run| :: !run[j].Activate? && !run[j].ToggleOn?
  }

  /** A row that is off was switched off just now, at the step's instant, or was off before, at the
      same instant, and the step did not enable it. */
  lemma TurnedOff(l: G.Life, x: G.Step)
    ensures var before, w := l.watch, G.After(l, x).watch;
            w.Some? && !w.value.enabled ==>
              && before.Some? && !x.Activate? && !x.ToggleOn?
              && if before.value.enabled then x.ToggleOff? && w.value.disabledAt == Some(x.at)
                 else w.value.disabledAt == before.value.disabledAt
  {
  }

  /** The instant a disabled row holds is that of the switch-off that found it on; the repeats after
      it did not move it. */
  lemma {:induction false} ARepeatedDisableKeepsTheInstant(run: seq<G.Step>)
    ensures var w := G.Lived(run).watch;
            w.Some? && !w.value.enabled ==> w.value.disabledAt.Some? && exists i: nat :: SwitchedOffAt(run, i, w.value.disabledAt.value)
  {
    if run != [] {
      var n := |run| - 1;
      ARepeatedDisableKeepsTheInstant(run[..n]);
      var before, w := G.Lived(run[..n]).watch, G.Lived(run).watch;
      TurnedOff(G.Lived(run[..n]), run[n]);
      hide G.After, G.Lived;
      if w.Some? && !w.value.enabled {
        if before.value.enabled {
          assert SwitchedOffAt(run, n, run[n].at);
        } else {
          var i: nat :| SwitchedOffAt(run[..n], i, before.value.disabledAt.value);
          assert run[..n][..i] == run[..i];
          assert SwitchedOffAt(run, i, w.value.disabledAt.value);
        }
      }
    }
  }
}
