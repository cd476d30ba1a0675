/** The batch enrichment of one import: a self re-enqueuing chain of steps per court. A step
    scans the court's due records, fetches them outside any transaction, and applies what came
    back in one; the first step that finds its court empty tries to close the import. */
module EnrichmentBatch {
  import opened Wrappers
  import opened CourtRecords
  import opened Enrichment

  type Hits = map<Cnj, ParsedProcess>

  // ---- The scan ----

  /** ORDER BY id LIMIT lim over the due records of a court. */
  ghost function ScanFrom(records: map<RecordId, CourtRecord>, ids: set<RecordId>, lim: nat): (due: seq<DueRecord>)
    requires ids <= records.Keys
    decreases lim
  {
    if lim == 0 || ids == {} then []
    else
      LeastExists(ids);
      var id :| id in ids && forall o | o in ids :: id <= o;
      [DueRecord(id, records[id].cnj)] + ScanFrom(records, ids - {id}, lim - 1)
  }

  lemma Pick<T>(s: set<T>) returns (x: T)
    requires s != {}
    ensures x in s
  {
    x :| x in s;
  }

  lemma {:induction false} LeastExists(ids: set<int>)
    requires ids != {}
    ensures exists id :: id in ids && forall o | o in ids :: id <= o
  {
    var x := Pick(ids);
    var rest := ids - {x};
    if rest == {} {
      assert forall o | o in ids :: o == x || o in rest;
    } else {
      LeastExists(rest);
      var m :| m in rest && forall o | o in rest :: m <= o;
      var least := if m <= x then m else x;
      assert least in ids && forall o | o in ids :: o == x || o in rest;
      assert forall o | o in ids :: least <= o;
    }
  }

  ghost function SelectDue(records: map<RecordId, CourtRecord>, court: Court, lim: nat): seq<DueRecord> {
    ScanFrom(records, DueIdsOf(records, court), lim)
  }

  function Ids(due: seq<DueRecord>): set<RecordId> {
    set d | d in due :: d.id
  }

  // ---- One step's transaction ----

  predicate Gradable(d: DueRecord, hits: Hits) {
    d.cnj in hits && hits[d.cnj].record.degree != Unknown
  }

  ghost function GradeOne(t: Tables, d: DueRecord, hits: Hits, nextSync: Instant): Result<Tables, Fault> {
    if Gradable(d, hits) then
      match GradeTx(t, d.id, hits[d.cnj], nextSync)
      case Err(e) => Err(e)
      case Ok(g) => Ok(g.tables)
    else Ok(t)
  }

  ghost function GradeAll(t: Tables, due: seq<DueRecord>, hits: Hits, nextSync: Instant): Result<Tables, Fault> {
    if due == [] then Ok(t)
    else
      match GradeAll(t, due[..|due| - 1], hits, nextSync)
      case Err(e) => Err(e)
      case Ok(before) => GradeOne(before, due[|due| - 1], hits, nextSync)
  }

  /** How many of the scanned records the step grades. */
  function GradedCount(due: seq<DueRecord>, hits: Hits): nat {
    if due == [] then 0
    else GradedCount(due[..|due| - 1], hits) + if Gradable(due[|due| - 1], hits) then 1 else 0
  }

  function MarkAttempted(records: map<RecordId, CourtRecord>, ids: set<RecordId>): map<RecordId, CourtRecord> {
    map r | r in records :: if r in ids then records[r].(attempted := true) else records[r]
  }

  /** Insert-or-increment: the first bump opens the row RUNNING, later ones keep its status. */
  function Bumped(run: Option<EnrichmentRun>, graded: nat, errs: nat): Option<EnrichmentRun> {
    match run
    case None => Some(EnrichmentRun(Running, graded, errs))
    case Some(r) => Some(r.(updated := r.updated + graded, errors := r.errors + errs))
  }

  function NextStep(step: BatchStep): BatchStep {
    step.(pass := step.pass + 1)
  }

  ghost function ApplyTx(t: Tables, step: BatchStep, due: seq<DueRecord>, hits: Hits, errs: nat, nextSync: Instant): Result<Tables, Fault> {
    if BatchDone(step) in t.processed then Ok(t)
    else
      match GradeAll(t.(processed := t.processed + {BatchDone(step)}), due, hits, nextSync)
      case Err(e) => Err(e)
      case Ok(g) =>
        var graded := GradedCount(due, hits);
        Ok(g.(records := MarkAttempted(g.records, Ids(due)),
              run := if graded > 0 || errs > 0 then Bumped(g.run, graded, errs) else g.run,
              outbox := g.outbox + [BatchRequested(NextStep(step))]))
  }

  // ---- The close ----

  /** Decided by the real parse errors alone. */
  function TerminalStatus(errs: nat): RunStatus {
    if errs > 0 then RunPartial else RunOk
  }

  function CloseTx(t: Tables): Tables {
    if DueIds(t.records) != {} then t
    else
      match t.run
      case None => t.(run := Some(EnrichmentRun(TerminalStatus(0), 0, 0)))
      case Some(r) => t.(run := Some(r.(status := TerminalStatus(r.errors))))
  }

  // ---- The same, run statement by statement ----

  method SelectDueForEnrichment(db: Store, court: Court, lim: nat) returns (due: seq<DueRecord>)
    ensures due == SelectDue(db.records, court, lim)
  {
    var ids := DueIdsOf(db.records, court);
    due := [];
    var left := lim;
    hide ScanFrom;
    while left > 0 && ids != {}
      invariant ids <= db.records.Keys
      invariant ScanFrom(db.records, DueIdsOf(db.records, court), lim) == due + ScanFrom(db.records, ids, left)
      decreases left
    {
      LeastExists(ids);
      var id :| id in ids && forall o | o in ids :: id <= o;
      ScanStep(db.records, ids, left, id);
      due := due + [DueRecord(id, db.records[id].cnj)];
      ids, left := ids - {id}, left - 1;
    }
    ScanEnds(db.records, ids, left);
  }

  lemma ScanStep(records: map<RecordId, CourtRecord>, ids: set<RecordId>, lim: nat, id: RecordId)
    requires ids <= records.Keys && lim > 0 && id in ids && forall o | o in ids :: id <= o
    ensures ScanFrom(records, ids, lim) == [DueRecord(id, records[id].cnj)] + ScanFrom(records, ids - {id}, lim - 1)
  {
  }

  lemma ScanEnds(records: map<RecordId, CourtRecord>, ids: set<RecordId>, lim: nat)
    requires ids <= records.Keys && (lim == 0 || ids == {})
    ensures ScanFrom(records, ids, lim) == []
  {
  }

  method ApplyBatch(db: Store, step: BatchStep, due: seq<DueRecord>, hits: Hits, errs: nat, nextSync: Instant)
    returns (r: Result<(), Fault>)
    requires UniqueKeys(db.records)
    modifies db
    ensures match ApplyTx(old(db.View()), step, due, hits, errs, nextSync)
            case Err(e) => r == Err(e) && db.View() == old(db.View())
            case Ok(t) => r == Ok(()) && db.View() == t
  {
    hide GradeTx, UniqueKeys, MarkAttempted, Bumped;
    var before := db.Snapshot();
    if BatchDone(step) in db.processed {
      return Ok(());
    }
    db.processed := db.processed + {BatchDone(step)};
    ghost var start := db.View();
    var graded, attempted := 0, {};
    for i := 0 to |due|
      invariant GradeAll(start, due[..i], hits, nextSync) == Ok(db.View())
      invariant graded == GradedCount(due[..i], hits)
      invariant attempted == Ids(due[..i])
      invariant UniqueKeys(db.records)
    {
      assert due[..i + 1][..i] == due[..i];
      var d := due[i];
      attempted := attempted + {d.id};
      if d.cnj in hits && hits[d.cnj].record.degree != Unknown {
        GradeKeepsKeys(db.View(), d.id, hits[d.cnj], nextSync);
        var g := db.GradeInTx(d.id, hits[d.cnj], nextSync);
        if g.Err? {
          GradeAllStops(start, due, i + 1, hits, nextSync);
          db.Rollback(before);
          return Err(g.error);
        }
        graded := graded + 1;
      }
    }
    assert due[..|due|] == due;
    db.records := MarkAttempted(db.records, attempted);
    if graded > 0 || errs > 0 {
      db.run := Bumped(db.run, graded, errs);
    }
    db.outbox := db.outbox + [BatchRequested(NextStep(step))];
    r := Ok(());
  }

  /** A fault at one record is the fault of the whole loop. */
  lemma GradeAllStops(t: Tables, due: seq<DueRecord>, n: nat, hits: Hits, nextSync: Instant)
    requires n <= |due| && GradeAll(t, due[..n], hits, nextSync).Err?
    ensures GradeAll(t, due, hits, nextSync) == GradeAll(t, due[..n], hits, nextSync)
    decreases |due| - n
  {
    if n < |due| {
      assert due[..n + 1][..n] == due[..n];
      GradeAllStops(t, due, n + 1, hits, nextSync);
    } else {
      assert due[..n] == due;
    }
  }

  method CloseIfImportDrained(db: Store)
    modifies db`run
    ensures db.View() == CloseTx(old(db.View()))
  {
    if |DueIds(db.records)| > 0 {
      return;
    }
    match db.run
    case None =>
      db.run := Some(EnrichmentRun(TerminalStatus(0), 0, 0));
    case Some(row) =>
      db.run := Some(row.(status := TerminalStatus(row.errors)));
  }

  /** How the batch fetch and parse ended: an envelope that does not parse archives the step,
      a hit that does not parse is counted in `skipped`. */
  datatype BatchFetched = FetchFailed | EnvelopeFault | Parsed(hits: Hits, skipped: nat)

  /** One delivery of a step with no other writer in between. */
  method OnEnrichmentBatchRequested(db: Store, step: BatchStep, fetched: BatchFetched, nextSync: Instant) returns (ack: Ack)
    requires UniqueKeys(db.records)
    modifies db
    ensures var before := old(db.View());
            var due := SelectDue(before.records, step.court, ENRICHMENT_BATCH_SCAN_LIMIT);
            if step.court == "" then ack == Acked && db.View() == before
            else if due == [] then ack == Acked && db.View() == CloseTx(before)
            else match fetched
                 case FetchFailed => ack == Retry && db.View() == before
                 case EnvelopeFault => ack == Archive && db.View() == before
                 case Parsed(hits, skipped) =>
                   match ApplyTx(before, step, due, hits, skipped, nextSync)
                   case Err(_) => ack == Retry && db.View() == before
                   case Ok(t) => ack == Acked && db.View() == t
  {
    if step.court == "" {
      return Acked;
    }
    var due := SelectDueForEnrichment(db, step.court, ENRICHMENT_BATCH_SCAN_LIMIT);
    if |due| == 0 {
      CloseIfImportDrained(db);
      return Acked;
    }
    match fetched
    case FetchFailed => return Retry;
    case EnvelopeFault => return Archive;
    case Parsed(hits, skipped) =>
      var applied := ApplyBatch(db, step, due, hits, skipped, nextSync);
      return if applied.Ok? then Acked else Retry;
  }
}
