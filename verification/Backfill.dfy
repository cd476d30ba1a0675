/** A backfill job, from the activation that slices it to the close of its last slice, and the
    catch-up mark a closing sync may clear. */
module Backfill {
  import opened Wrappers
  import opened SyncWindows
  import opened CatchUp

  datatype JobStatus = Running | Completed | Partial

  datatype Job = Job(total: nat, slicesOk: nat, slicesError: nat, status: JobStatus)

  /** backfill_finished: the tallies of the closing slice and the terminal status. */
  datatype Finished = Finished(total: nat, slicesOk: nat, slicesError: nat, status: JobStatus)

  /** One closing slice: sync_completed (ok) or sync_failed, with the catch-up it carries. */
  datatype Close = Close(eventId: int, ofJob: bool, ok: bool, catchUp: Option<Instant>)

  datatype Requested = Requested(slice: nat, window: Window)

  datatype State = State(processed: set<int>, job: Option<Job>, watch: Option<Watch>, finished: seq<Finished>)

  // ---- The requests ----

  /** Emission order; the slice index stays chronological. */
  function NewestFirst(ws: seq<Window>): seq<Requested> {
    if ws == [] then [] else [Requested(|ws| - 1, ws[|ws| - 1])] + NewestFirst(ws[..|ws| - 1])
  }

  lemma NewestNone(before: seq<Requested>)
    ensures before + NewestFirst([]) == before
  {
  }

  lemma NewestNext(before: seq<Requested>, ws: seq<Window>)
    requires ws != []
    ensures before + NewestFirst(ws) == before + [Requested(|ws| - 1, ws[|ws| - 1])] + NewestFirst(ws[..|ws| - 1])
  {
  }

  /** One request per window, each window once, the last window first. */
  lemma {:induction false} NewestFirstAt(ws: seq<Window>, i: nat)
    requires i < |ws|
    ensures |NewestFirst(ws)| == |ws|
    ensures NewestFirst(ws)[i] == Requested(|ws| - 1 - i, ws[|ws| - 1 - i])
  {
    if |ws| > 1 {
      NewestFirstAt(ws[..|ws| - 1], if i > 0 then i - 1 else 0);
    }
  }

  // ---- The counter ----

  function Bumped(j: Job, ok: bool): Job {
    if ok then j.(slicesOk := j.slicesOk + 1) else j.(slicesError := j.slicesError + 1)
  }

  function Terminal(j: Job): JobStatus {
    if j.slicesError > 0 then Partial else Completed
  }

  predicate LastSlice(j: Job) {
    j.slicesOk + j.slicesError == j.total && j.status == Running
  }

  /** The counter half: a job that is gone leaves nothing to advance. */
  function Counted(s: State, ok: bool): State {
    match s.job
    case None => s
    case Some(j) =>
      var b := Bumped(j, ok);
      if LastSlice(b) then
        s.(job := Some(b.(status := Terminal(b))),
           finished := s.finished + [Finished(b.total, b.slicesOk, b.slicesError, Terminal(b))])
      else s.(job := Some(b))
  }

  /** The other half: only a success clears, and only the instant it was dispatched with. */
  function ClearedBy(s: State, c: Close): State {
    if c.ok && c.catchUp.Some? && s.watch.Some? then s.(watch := Some(Cleared(s.watch.value, c.catchUp.value))) else s
  }

  function OnClose(s: State, c: Close): State {
    if !c.ofJob && c.catchUp.None? then s
    else if c.eventId in s.processed then s
    else
      var marked := s.(processed := s.processed + {c.eventId});
      ClearedBy(if c.ofJob then Counted(marked, c.ok) else marked, c)
  }

  // ---- The same, on the tables ----

  class BackfillTables {
    var processed: set<int>
    var job: Option<Job>
    var watch: Option<Watch>
    var finished: seq<Finished>
    var requested: seq<Requested>

    ghost function View(): State
      reads this
    {
      State(processed, job, watch, finished)
    }

    constructor (s: State)
      ensures View() == s && requested == []
    {
      processed, job, watch, finished, requested := s.processed, s.job, s.watch, s.finished, [];
    }

    /** Opens the job and publishes one request per window, the newest first. */
    method CreateBackfillForScope(today: int, horizonDays: int, windowDays: int) returns (windows: seq<Window>)
      modifies this`job, this`requested
      ensures |windows| == CalculateSlices(horizonDays, windowDays)
      ensures windows != [] ==> Tiles(windows, today - horizonDays, today, windowDays)
      ensures job == Some(Job(|windows|, 0, 0, if windows == [] then Completed else Running))
      ensures requested == old(requested) + NewestFirst(windows)
    {
      hide NewestFirst, Tiles, CalculateSlices;
      windows := BuildSyncWindows(today - horizonDays, today, windowDays);
      var total := CalculateSlices(horizonDays, windowDays);
      job := Some(Job(total, 0, 0, if total == 0 then Completed else Running));
      var i := |windows|;
      assert windows[..|windows|] == windows;
      while i > 0
        invariant 0 <= i <= |windows|
        invariant job == Some(Job(total, 0, 0, if total == 0 then Completed else Running))
        invariant old(requested) + NewestFirst(windows) == requested + NewestFirst(windows[..i])
      {
        i := i - 1;
        assert windows[..i + 1][..i] == windows[..i];
        NewestNext(requested, windows[..i + 1]);
        requested := requested + [Requested(i, windows[i])];
      }
      assert windows[..0] == [];
      NewestNone(requested);
    }

    /** UPDATE ... SET slices_ok or slices_error, with the tallies read back. */
    method IncrementSlice(ok: bool) returns (counters: Option<Job>)
      modifies this`job
      ensures old(job).None? ==> counters == None && job == None
      ensures old(job).Some? ==> counters == Some(Bumped(old(job).value, ok)) && job == counters
    {
      if job.None? {
        return None;
      }
      if ok {
        job := Some(job.value.(slicesOk := job.value.slicesOk + 1));
      } else {
        job := Some(job.value.(slicesError := job.value.slicesError + 1));
      }
      counters := job;
    }

    method FinalizeIfComplete(counters: Job)
      requires job == Some(counters)
      modifies this`job, this`finished
      ensures if LastSlice(counters) then
                && job == Some(counters.(status := Terminal(counters)))
                && finished == old(finished) + [Finished(counters.total, counters.slicesOk, counters.slicesError, Terminal(counters))]
              else job == old(job) && finished == old(finished)
    {
      var done := counters.slicesOk + counters.slicesError == counters.total;
      if !done || counters.status != Running {
        return;
      }
      var status := Completed;
      if counters.slicesError > 0 {
        status := Partial;
      }
      job := Some(counters.(status := status));
      finished := finished + [Finished(counters.total, counters.slicesOk, counters.slicesError, status)];
    }

    method OnSliceClosed(c: Close)
      modifies this`processed, this`job, this`watch, this`finished
      ensures View() == OnClose(old(View()), c)
    {
      if !c.ofJob && c.catchUp.None? {
        return;
      }
      if c.eventId in processed {
        return;
      }
      processed := processed + {c.eventId};
      if c.ofJob {
        var counters := IncrementSlice(c.ok);
        if counters.Some? {
          FinalizeIfComplete(counters.value);
        }
      }
      if c.ok && c.catchUp.Some? && watch.Some? {
        watch := Some(Cleared(watch.value, c.catchUp.value));
      }
    }
  }

  // ---- Any stream of closes ----

  function After(s: State, stream: seq<Close>): State {
    if stream == [] then s else OnClose(After(s, stream[..|stream| - 1]), stream[|stream| - 1])
  }

  ghost predicate Names(cs: seq<Close>, id: int) {
    exists c :: c in cs && c.eventId == id
  }

  /** The closes that count: of each event id the first delivery, in order. */
  ghost function Distinct(stream: seq<Close>): seq<Close> {
    if stream == [] then []
    else
      var before, c := Distinct(stream[..|stream| - 1]), stream[|stream| - 1];
      if Names(before, c.eventId) then before else before + [c]
  }

  function Count(cs: seq<Close>, ok: bool): nat {
    if cs == [] then 0 else Count(cs[..|cs| - 1], ok) + if cs[|cs| - 1].ok == ok then 1 else 0
  }

  lemma {:induction false} CountSplits(cs: seq<Close>)
    ensures Count(cs, true) + Count(cs, false) == |cs|
  {
    if cs != [] {
      CountSplits(cs[..|cs| - 1]);
    }
  }

  function StatusOf(cs: seq<Close>): JobStatus {
    if Count(cs, false) > 0 then Partial else Completed
  }

  /** What the job and the outbox say after the distinct closes `cs`. */
  ghost predicate Told(total: nat, cs: seq<Close>, s: State) {
    && s.job == Some(Job(total, Count(cs, true), Count(cs, false),
                         if total == 0 then Completed else if |cs| < total then Running else StatusOf(cs[..total])))
    && s.finished == (if 0 < total <= |cs| then
                        [Finished(total, Count(cs[..total], true), Count(cs[..total], false), StatusOf(cs[..total]))]
                      else [])
  }

  lemma CountsOneMore(cs: seq<Close>, c: Close)
    ensures forall ok :: Count(cs + [c], ok) == Count(cs, ok) + if c.ok == ok then 1 else 0
  {
    assert (cs + [c])[..|cs|] == cs;
  }

  lemma OneMore(total: nat, cs: seq<Close>, c: Close, s: State)
    requires Told(total, cs, s)
    ensures Told(total, cs + [c], Counted(s, c.ok))
  {
    var next := cs + [c];
    CountsOneMore(cs, c);
    CountSplits(cs);
    CountSplits(next);
    if total <= |cs| {
      assert next[..total] == cs[..total];
    } else if |next| == total {
      assert next[..total] == next;
    }
    hide Count;
  }

  lemma NamesMore(cs: seq<Close>, c: Close)
    ensures forall id :: Names(cs + [c], id) <==> Names(cs, id) || id == c.eventId
  {
    assert c in cs + [c];
    forall id ensures Names(cs + [c], id) <==> Names(cs, id) || id == c.eventId {
      if Names(cs, id) {
        var d :| d in cs && d.eventId == id;
        assert d in cs + [c];
      }
    }
  }

  /** For every stream of the job's closes, duplicated, reordered or surplus: the tallies are
      those of the distinct closes; the finish is announced once, by the total-th distinct
      close and no other, with PARTIAL exactly when one of those failed. */
  lemma {:induction false} TheLastOneTurnsOffTheLight(total: nat, watch: Option<Watch>, stream: seq<Close>)
    requires forall c | c in stream :: c.ofJob
    ensures var s := After(State({}, Some(Job(total, 0, 0, if total == 0 then Completed else Running)), watch, []), stream);
            && Told(total, Distinct(stream), s)
            && (forall id :: id in s.processed <==> Names(Distinct(stream), id))
  {
    hide Told;
    var start := State({}, Some(Job(total, 0, 0, if total == 0 then Completed else Running)), watch, []);
    if stream == [] {
      NothingTold(total, watch);
    } else {
      var n := |stream| - 1;
      assert forall c | c in stream[..n] :: c in stream;
      TheLastOneTurnsOffTheLight(total, watch, stream[..n]);
      var c, cs, before := stream[n], Distinct(stream[..n]), After(start, stream[..n]);
      assert c in stream;
      if c.eventId !in before.processed {
        var marked := before.(processed := before.processed + {c.eventId});
        SameTold(total, cs, before, marked);
        OneMore(total, cs, c, marked);
        SameTold(total, cs + [c], Counted(marked, c.ok), OnClose(before, c));
        NamesMore(cs, c);
      }
    }
  }

  lemma NothingTold(total: nat, watch: Option<Watch>)
    ensures Told(total, [], State({}, Some(Job(total, 0, 0, if total == 0 then Completed else Running)), watch, []))
  {
  }

  lemma SameTold(total: nat, cs: seq<Close>, s: State, u: State)
    requires Told(total, cs, s) && u.job == s.job && u.finished == s.finished
    ensures Told(total, cs, u)
  {
  }

  /** A catch-up's close counts for no job. */
  lemma CatchUpClosesCountForNone(s: State, c: Close)
    requires !c.ofJob
    ensures OnClose(s, c).job == s.job && OnClose(s, c).finished == s.finished
  {
  }
}
