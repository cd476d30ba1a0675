/** The watch of one OAB: the switch, and the mark of a downtime that still has to be caught up. */
module CatchUp {
  import opened Wrappers

  type Instant = int

  datatype Watch = Watch(enabled: bool, disabledAt: Option<Instant>, catchUpSince: Option<Instant>)

  /** Inserts a watch, or enables it. An older pending mark is kept; otherwise the last disable
      becomes the mark, whether or not the watch was disabled just now. */
  function Upserted(w: Option<Watch>): Watch {
    match w
    case None => Watch(true, None, None)
    case Some(old_) =>
      old_.(enabled := true, catchUpSince := if old_.catchUpSince.Some? then old_.catchUpSince else old_.disabledAt)
  }

  /** Guarded to the enabled-to-disabled transition. */
  function Disabled(w: Watch, now: Instant): Watch {
    if w.enabled then w.(enabled := false, disabledAt := Some(now)) else w
  }

  /** Compare and clear. */
  function Cleared(w: Watch, since: Instant): Watch {
    if w.catchUpSince == Some(since) then w.(catchUpSince := None) else w
  }

  // ---- The use cases, on the tables ----

  type OabKey = string

  /** What the enabling use cases publish: a backfill of newly watched keys, a re-enable for the
      listener to hear, or a catch-up sync dispatched outright. */
  datatype Message =
    | BackfillRequested(keys: seq<OabKey>)
    | Reenabled(key: OabKey, since: Instant)
    | CatchUpRequested(key: OabKey, since: Instant, at: Instant)

  type Watches = map<OabKey, Watch>

  function Find(ws: Watches, key: OabKey): Option<Watch> {
    if key in ws then Some(ws[key]) else None
  }

  /** The row existed and was disabled: a real re-enable. */
  predicate Reenables(w: Option<Watch>) {
    w.Some? && !w.value.enabled
  }

  function AllUpserted(ws: Watches, keys: seq<OabKey>): Watches {
    if keys == [] then ws
    else
      var before, k := AllUpserted(ws, keys[..|keys| - 1]), keys[|keys| - 1];
      before[k := Upserted(Find(before, k))]
  }

  /** The keys of a scope that were not watched, in order. */
  function NewlyWatched(ws: Watches, keys: seq<OabKey>): seq<OabKey> {
    if keys == [] then []
    else
      var before, k := AllUpserted(ws, keys[..|keys| - 1]), keys[|keys| - 1];
      NewlyWatched(ws, keys[..|keys| - 1]) + if Find(before, k).None? then [k] else []
  }

  /** The catch-ups of a scope: one per key that was disabled, from its mark. */
  function CatchUps(ws: Watches, keys: seq<OabKey>, now: Instant): seq<Message> {
    if keys == [] then []
    else
      var before, k := AllUpserted(ws, keys[..|keys| - 1]), keys[|keys| - 1];
      CatchUps(ws, keys[..|keys| - 1], now) + OneCatchUp(k, Find(before, k), now)
  }

  function OneCatchUp(k: OabKey, w: Option<Watch>, now: Instant): seq<Message> {
    if Reenables(w) && Upserted(w).catchUpSince.Some? then [CatchUpRequested(k, Upserted(w).catchUpSince.value, now)] else []
  }

  class WatchTables {
    var watches: Watches
    var processed: set<int>
    var outbox: seq<Message>

    constructor (ws: Watches)
      ensures watches == ws && processed == {} && outbox == []
    {
      watches, processed, outbox := ws, {}, [];
    }

    method AddOrEnableWatchedOAB(key: OabKey) returns (row: Watch, needsHistory: bool, needsCatchUp: bool)
      modifies this`watches
      ensures watches == old(watches)[key := row] && row == Upserted(Find(old(watches), key))
      ensures needsHistory == Find(old(watches), key).None? && needsCatchUp == Reenables(Find(old(watches), key))
    {
      if key !in watches {
        row := Watch(true, None, None);
        watches := watches[key := row];
        return row, true, false;
      }
      var prior := watches[key];
      row := prior.(enabled := true);
      if prior.catchUpSince.None? {
        row := row.(catchUpSince := prior.disabledAt);
      }
      watches := watches[key := row];
      return row, false, !prior.enabled;
    }

    /** None when the key was never watched; a repeated disable keeps the earlier instant. */
    method DisableWatchedOAB(key: OabKey, now: Instant) returns (row: Option<Watch>)
      modifies this`watches
      ensures Find(old(watches), key).None? ==> row == None && watches == old(watches)
      ensures Find(old(watches), key).Some? ==>
                row == Some(Disabled(old(watches)[key], now)) && watches == old(watches)[key := row.value]
    {
      if key !in watches {
        return None;
      }
      if watches[key].enabled {
        watches := watches[key := watches[key].(enabled := false, disabledAt := Some(now))];
      }
      assert watches == old(watches)[key := watches[key]];
      row := Some(watches[key]);
    }

    /** Flips an existing watch only: the insert of an unknown key is rolled back. */
    method ToggleWatchedOAB(key: OabKey, enabled: bool, now: Instant) returns (row: Option<Watch>)
      modifies this`watches, this`outbox
      ensures Find(old(watches), key).None? ==> row == None && watches == old(watches) && outbox == old(outbox)
      ensures Find(old(watches), key).Some? && !enabled ==>
                row == Some(Disabled(old(watches)[key], now)) && watches == old(watches)[key := row.value] && outbox == old(outbox)
      ensures Find(old(watches), key).Some? && enabled ==>
                var w := Find(old(watches), key);
                && row == Some(Upserted(w)) && watches == old(watches)[key := row.value]
                && outbox == old(outbox) + if Reenables(w) && Upserted(w).catchUpSince.Some?
                                           then [Reenabled(key, Upserted(w).catchUpSince.value)] else []
    {
      if !enabled {
        row := DisableWatchedOAB(key, now);
        return;
      }
      var before := watches;
      var upserted, needsHistory, needsCatchUp := AddOrEnableWatchedOAB(key);
      if needsHistory {
        watches := before;
        return None;
      }
      if needsCatchUp && upserted.catchUpSince.Some? {
        outbox := outbox + [Reenabled(key, upserted.catchUpSince.value)];
      }
      row := Some(upserted);
    }

    method OnIntegrationActivated(eventId: int, keys: seq<OabKey>, now: Instant)
      modifies this
      ensures processed == old(processed) + {eventId}
      ensures eventId in old(processed) ==> watches == old(watches) && outbox == old(outbox)
      ensures eventId !in old(processed) ==>
                var fresh_ := NewlyWatched(old(watches), keys);
                && watches == AllUpserted(old(watches), keys)
                && outbox == old(outbox) + (if fresh_ != [] then [BackfillRequested(fresh_)] else []) + CatchUps(old(watches), keys, now)
    {
      hide Upserted;
      if eventId in processed {
        return;
      }
      processed := processed + {eventId};
      ghost var before, published := watches, outbox;
      var newKeys, catchUps := [], [];
      for i := 0 to |keys|
        invariant watches == AllUpserted(before, keys[..i]) && outbox == published
        invariant processed == old(processed) + {eventId}
        invariant newKeys == NewlyWatched(before, keys[..i])
        invariant catchUps == CatchUps(before, keys[..i], now)
      {
        assert keys[..i + 1][..i] == keys[..i];
        var row, needsHistory, needsCatchUp := AddOrEnableWatchedOAB(keys[i]);
        if needsHistory {
          newKeys := newKeys + [keys[i]];
        } else if needsCatchUp && row.catchUpSince.Some? {
          catchUps := catchUps + [CatchUpRequested(keys[i], row.catchUpSince.value, now)];
        }
      }
      assert keys[..|keys|] == keys;
      if |newKeys| > 0 {
        outbox := outbox + [BackfillRequested(newKeys)];
      }
      outbox := outbox + catchUps;
    }

    /** Heard once; the sync it asks for runs from the mark to now. */
    method OnWatchedOABReenabled(eventId: int, key: OabKey, since: Instant, now: Instant)
      modifies this`processed, this`outbox
      ensures processed == old(processed) + {eventId}
      ensures outbox == old(outbox) + if eventId in old(processed) then [] else [CatchUpRequested(key, since, now)]
    {
      if eventId in processed {
        return;
      }
      processed := processed + {eventId};
      outbox := outbox + [CatchUpRequested(key, since, now)];
    }
  }
}
