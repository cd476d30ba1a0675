/** Grading one court record in place, or merging it into the record that already holds the
    grade: the shared core of the single and the batch enrichment. The functions say what
    each transaction makes of the tables; class Store runs the same transactions statement
    by statement. */
module Enrichment {
  import opened Wrappers
  import opened CourtRecords

  // ---- The statements of the repository, on values ----

  ghost function FindByKey(records: map<RecordId, CourtRecord>, cnj: Cnj, degree: Degree): (found: Option<RecordId>)
    ensures found.Some? ==> found.value in records
                            && records[found.value].cnj == cnj && records[found.value].degree == degree
    ensures found.None? ==> forall id :: id in records ==> !(records[id].cnj == cnj && records[id].degree == degree)
  {
    if exists id :: id in records && records[id].cnj == cnj && records[id].degree == degree then
      var id :| id in records && records[id].cnj == cnj && records[id].degree == degree;
      Some(id)
    else
      None
  }

  function Repointed(intimations: map<IntimationId, Intimation>, from: RecordId, to: RecordId): map<IntimationId, Intimation> {
    map i | i in intimations ::
      if intimations[i].recordId == from then intimations[i].(recordId := to) else intimations[i]
  }

  function RepointedDeadlines(deadlines: map<DeadlineId, Deadline>, from: RecordId, to: RecordId): map<DeadlineId, Deadline> {
    map d | d in deadlines ::
      if deadlines[d].recordId == from then deadlines[d].(recordId := to) else deadlines[d]
  }

  predicate UnderCase(t: map<RecordId, CourtRecord>, i: Intimation, caseId: CaseId) {
    i.recordId in t && t[i.recordId].caseId == caseId
  }

  function Cascaded(records: map<RecordId, CourtRecord>, intimations: map<IntimationId, Intimation>,
                    caseId: CaseId, user: Option<UserId>): map<IntimationId, Intimation>
  {
    map i | i in intimations ::
      if UnderCase(records, intimations[i], caseId) then intimations[i].(assignee := user) else intimations[i]
  }

  /** The in-place grade: DATAJUD's fields overwrite, a retired record stays retired, an
      existing schedule and an undisclosed lifecycle or phase are kept. The key keeps its cnj. */
  function GradedRow(r: CourtRecord, g: ParsedRecord, nextSync: Instant): CourtRecord {
    r.(degree := g.degree, court := g.court, details := g.details, completeness := g.completeness,
       nextSyncAt := if r.nextSyncAt.Some? then r.nextSyncAt else Some(nextSync),
       lifecycle := if r.lifecycle == Superseded || g.lifecycle.None? then r.lifecycle else g.lifecycle.value,
       phase := if g.phase == "" then r.phase else g.phase)
  }

  /** The UNIQUE constraint as an UPDATE of row `id` to `row` meets it. */
  predicate HeldByAnother(records: map<RecordId, CourtRecord>, id: RecordId, row: CourtRecord) {
    exists o | o in records && o != id :: SameKey(records[o], row)
  }

  function SupersededRow(r: CourtRecord): CourtRecord {
    if r.lifecycle == Superseded then r else r.(lifecycle := Superseded, nextSyncAt := None)
  }

  /** The hashes of `movs` that are not yet in the docket of `target`, first occurrences only. */
  function NewHashes(docket: set<(RecordId, Hash)>, target: RecordId, movs: seq<Hash>): seq<Hash> {
    if movs == [] then []
    else
      var before := NewHashes(docket, target, movs[..|movs| - 1]);
      var h := movs[|movs| - 1];
      if (target, h) in docket || h in before then before else before + [h]
  }

  function DocketWith(docket: set<(RecordId, Hash)>, target: RecordId, movs: seq<Hash>): set<(RecordId, Hash)> {
    docket + set h | h in movs :: (target, h)
  }

  // ---- The grade, on values ----

  /** The merge: children move, the placeholder retires, the destination case's assignee
      spreads over every intimation now under it. */
  function Merge(t: Tables, placeholder: RecordId, existing: RecordId): Result<Tables, Fault>
    requires existing in t.records
  {
    var retiring := placeholder in t.records && t.records[placeholder].lifecycle != Superseded;
    var records := if retiring then t.records[placeholder := SupersededRow(t.records[placeholder])] else t.records;
    var outbox := if retiring then t.outbox + [RecordSuperseded(placeholder)] else t.outbox;
    var caseId := t.records[existing].caseId;
    if caseId !in t.cases then Err(CaseNotFound)
    else
      var moved := Repointed(t.intimations, placeholder, existing);
      Ok(t.(records := records, outbox := outbox,
            intimations := Cascaded(records, moved, caseId, t.cases[caseId]),
            deadlines := RepointedDeadlines(t.deadlines, placeholder, existing)))
  }

  datatype Graded = Graded(tables: Tables, target: RecordId, newDocket: seq<Hash>)

  /** The UPDATE of the graded row, the announcement of a real entry into ARCHIVED, and the
      docket upsert. A missing row and a key another record holds abort the transaction. */
  ghost function GradeRow(t: Tables, target: RecordId, p: ParsedProcess, nextSync: Instant): Result<Graded, Fault> {
    if target !in t.records then Err(RecordNotFound)
    else
      var row := GradedRow(t.records[target], p.record, nextSync);
      if HeldByAnother(t.records, target, row) then Err(DuplicateKey)
      else
        var outbox := if t.records[target].lifecycle != Archived && row.lifecycle == Archived
                      then t.outbox + [RecordArchived(target)] else t.outbox;
        Ok(Graded(
             t.(records := t.records[target := row], outbox := outbox,
                docket := DocketWith(t.docket, target, p.movimentos)),
             target, NewHashes(t.docket, target, p.movimentos)))
  }

  ghost function GradeTx(t: Tables, id: RecordId, p: ParsedProcess, nextSync: Instant): Result<Graded, Fault> {
    var existing := FindByKey(t.records, p.record.cnj, p.record.degree);
    if existing.Some? && existing.value != id then
      match Merge(t, id, existing.value)
      case Err(e) => Err(e)
      case Ok(merged) => GradeRow(merged, existing.value, p, nextSync)
    else
      GradeRow(t, id, p, nextSync)
  }

  /** Whatever DATAJUD reports, a committed grade leaves one row per key. */
  lemma GradeKeepsKeys(t: Tables, id: RecordId, p: ParsedProcess, nextSync: Instant)
    requires UniqueKeys(t.records)
    ensures GradeTx(t, id, p, nextSync).Ok? ==> UniqueKeys(GradeTx(t, id, p, nextSync).value.tables.records)
  {
    var existing := FindByKey(t.records, p.record.cnj, p.record.degree);
    if existing.Some? && existing.value != id {
      if Merge(t, id, existing.value).Ok? {
        RowKeepsKeys(Merge(t, id, existing.value).value, existing.value, p, nextSync);
      }
    } else {
      RowKeepsKeys(t, id, p, nextSync);
    }
  }

  lemma RowKeepsKeys(t: Tables, target: RecordId, p: ParsedProcess, nextSync: Instant)
    requires UniqueKeys(t.records)
    ensures GradeRow(t, target, p, nextSync).Ok? ==> UniqueKeys(GradeRow(t, target, p, nextSync).value.tables.records)
  {
  }

  function Observed(target: RecordId, hashes: seq<Hash>): seq<Event> {
    seq(|hashes|, i requires 0 <= i < |hashes| => DocketObserved(target, hashes[i]))
  }

  // ---- The single path ----

  datatype ObservedEvent = ObservedEvent(
    eventId: int, recordId: RecordId, cnj: Cnj, court: Court, degree: Degree, backfill: bool)

  /** What the by-number fetch and parse came back with. */
  datatype Fetched = FetchFault | ParseFault | NoHit | Hit(process: ParsedProcess)

  datatype Ack = Acked | Retry | Archive

  /** The guards in front of the transaction: what to do with the event without one. */
  function Triage(ev: ObservedEvent, fetched: Fetched): Option<Ack> {
    if ev.cnj == "" || ev.court == "" || ev.backfill then Some(Acked)
    else match fetched
         case FetchFault => Some(Retry)
         case ParseFault => Some(Archive)
         case NoHit => Some(Acked)
         case Hit(p) =>
           if p.record.degree == Unknown then Some(Acked)
           else if ev.degree != Unknown && p.record.degree != ev.degree then Some(Acked)
           else None
  }

  ghost function EnrichTx(t: Tables, ev: ObservedEvent, p: ParsedProcess, nextSync: Instant): Result<Tables, Fault> {
    if EnrichmentDone(ev.eventId) in t.processed then Ok(t)
    else
      match GradeTx(t.(processed := t.processed + {EnrichmentDone(ev.eventId)}), ev.recordId, p, nextSync)
      case Err(e) => Err(e)
      case Ok(g) => Ok(g.tables.(outbox := g.tables.outbox + Observed(g.target, g.newDocket)))
  }

  // ---- The same transactions, run statement by statement ----

  class Store {
    var records: map<RecordId, CourtRecord>
    var intimations: map<IntimationId, Intimation>
    var deadlines: map<DeadlineId, Deadline>
    var docket: set<(RecordId, Hash)>
    var cases: map<CaseId, Option<UserId>>
    var processed: set<Processed>
    var outbox: seq<Event>
    var run: Option<EnrichmentRun>

    ghost function View(): Tables
      reads this
    {
      Tables(records, intimations, deadlines, docket, cases, processed, outbox, run)
    }

    constructor (t: Tables)
      ensures View() == t
    {
      records, intimations, deadlines, docket := t.records, t.intimations, t.deadlines, t.docket;
      cases, processed, outbox, run := t.cases, t.processed, t.outbox, t.run;
    }

    method Snapshot() returns (t: Tables)
      ensures t == View()
    {
      t := Tables(records, intimations, deadlines, docket, cases, processed, outbox, run);
    }

    method Rollback(t: Tables)
      modifies this
      ensures View() == t
    {
      records, intimations, deadlines, docket := t.records, t.intimations, t.deadlines, t.docket;
      cases, processed, outbox, run := t.cases, t.processed, t.outbox, t.run;
    }

    method GetCourtRecordByKey(cnj: Cnj, degree: Degree) returns (found: Option<RecordId>)
      requires UniqueKeys(records)
      ensures found == FindByKey(records, cnj, degree)
    {
      if exists id | id in records :: records[id].cnj == cnj && records[id].degree == degree {
        var id :| id in records && records[id].cnj == cnj && records[id].degree == degree;
        found := Some(id);
      } else {
        found := None;
      }
    }

    method SupersedeCourtRecord(id: RecordId) returns (transitioned: bool)
      modifies this`records
      ensures transitioned == (id in old(records) && old(records[id]).lifecycle != Superseded)
      ensures records == if transitioned then old(records)[id := SupersededRow(old(records)[id])] else old(records)
    {
      transitioned := id in records && records[id].lifecycle != Superseded;
      if transitioned {
        records := records[id := records[id].(lifecycle := Superseded, nextSyncAt := None)];
      }
    }

    /** UPDATE ... RETURNING the lifecycle before and after; the UNIQUE constraint is checked. */
    method UpdateCourtRecordGrade(id: RecordId, g: ParsedRecord, nextSync: Instant)
      returns (r: Result<(Lifecycle, Lifecycle), Fault>)
      modifies this`records
      ensures r.Err? ==> records == old(records)
      ensures id !in old(records) <==> r == Err(RecordNotFound)
      ensures id in old(records) ==>
                var row := GradedRow(old(records)[id], g, nextSync);
                if HeldByAnother(old(records), id, row) then r == Err(DuplicateKey)
                else r == Ok((old(records)[id].lifecycle, row.lifecycle)) && records == old(records)[id := row]
    {
      if id !in records {
        return Err(RecordNotFound);
      }
      var before := records[id];
      var row := before.(degree := g.degree, court := g.court, details := g.details, completeness := g.completeness);
      if before.nextSyncAt.None? {
        row := row.(nextSyncAt := Some(nextSync));
      }
      if before.lifecycle != Superseded && g.lifecycle.Some? {
        row := row.(lifecycle := g.lifecycle.value);
      }
      if g.phase != "" {
        row := row.(phase := g.phase);
      }
      assert row == GradedRow(before, g, nextSync);
      if HeldByAnother(records, id, row) {
        return Err(DuplicateKey);
      }
      records := records[id := row];
      r := Ok((before.lifecycle, row.lifecycle));
    }

    /** INSERT ... ON CONFLICT DO NOTHING, then the rows that were new, back in input order,
        each taken once. */
    method UpsertDocketEntries(target: RecordId, movs: seq<Hash>) returns (fresh_: seq<Hash>)
      modifies this`docket
      ensures docket == DocketWith(old(docket), target, movs)
      ensures fresh_ == NewHashes(old(docket), target, movs)
    {
      ghost var before := docket;
      var inserted := set h | h in movs && (target, h) !in docket :: h;
      docket := docket + set h | h in movs :: (target, h);
      fresh_ := [];
      ghost var all := inserted;
      for i := 0 to |movs|
        invariant docket == DocketWith(before, target, movs)
        invariant all == set h | h in movs && (target, h) !in before :: h
        invariant fresh_ == NewHashes(before, target, movs[..i])
        invariant forall h :: h in inserted <==> h in all && h !in fresh_
      {
        assert movs[..i + 1][..i] == movs[..i];
        var h := movs[i];
        if h in inserted {
          inserted := inserted - {h};
          fresh_ := fresh_ + [h];
        }
      }
      assert movs[..|movs|] == movs;
    }

    method GradeInTx(id: RecordId, p: ParsedProcess, nextSync: Instant)
      returns (r: Result<(RecordId, seq<Hash>), Fault>)
      requires UniqueKeys(records)
      modifies this
      ensures match GradeTx(old(View()), id, p, nextSync)
              case Err(e) => r == Err(e)
              case Ok(g) => r == Ok((g.target, g.newDocket)) && View() == g.tables
    {
      hide GradedRow, SupersededRow, HeldByAnother, NewHashes, DocketWith, Repointed, RepointedDeadlines, Cascaded;
      var target := id;
      var existing := GetCourtRecordByKey(p.record.cnj, p.record.degree);
      if existing.Some? && existing.value != id {
        intimations := Repointed(intimations, id, existing.value);
        deadlines := RepointedDeadlines(deadlines, id, existing.value);
        var caseId := records[existing.value].caseId;
        var transitioned := SupersedeCourtRecord(id);
        if transitioned {
          outbox := outbox + [RecordSuperseded(id)];
        }
        if caseId !in cases {
          return Err(CaseNotFound);
        }
        intimations := Cascaded(records, intimations, caseId, cases[caseId]);
        target := existing.value;
        assert Merge(old(View()), id, existing.value) == Ok(View());
      }
      ghost var mid := View();
      var graded := UpdateCourtRecordGrade(target, p.record, nextSync);
      if graded.Err? {
        assert GradeRow(mid, target, p, nextSync) == Err(graded.error);
        return Err(graded.error);
      }
      if graded.value.0 != Archived && graded.value.1 == Archived {
        outbox := outbox + [RecordArchived(target)];
      }
      var newDocket := UpsertDocketEntries(target, p.movimentos);
      assert GradeRow(mid, target, p, nextSync) == Ok(Graded(View(), target, newDocket));
      r := Ok((target, newDocket));
    }

    /** One unit of work: it commits as a whole or leaves no trace. */
    method ApplyEnrichment(ev: ObservedEvent, p: ParsedProcess, nextSync: Instant) returns (r: Result<(), Fault>)
      requires UniqueKeys(records)
      modifies this
      ensures match EnrichTx(old(View()), ev, p, nextSync)
              case Err(e) => r == Err(e) && View() == old(View())
              case Ok(t) => r == Ok(()) && View() == t
    {
      var before := Snapshot();
      if EnrichmentDone(ev.eventId) in processed {
        return Ok(());
      }
      processed := processed + {EnrichmentDone(ev.eventId)};
      var graded := GradeInTx(ev.recordId, p, nextSync);
      if graded.Err? {
        Rollback(before);
        return Err(graded.error);
      }
      outbox := outbox + Observed(graded.value.0, graded.value.1);
      r := Ok(());
    }

    method OnCourtRecordObserved(ev: ObservedEvent, fetched: Fetched, nextSync: Instant) returns (ack: Ack)
      requires UniqueKeys(records)
      modifies this
      ensures match Triage(ev, fetched)
              case Some(a) => ack == a && View() == old(View())
              case None =>
                match EnrichTx(old(View()), ev, fetched.process, nextSync)
                case Err(_) => ack == Retry && View() == old(View())
                case Ok(t) => ack == Acked && View() == t
    {
      if ev.cnj == "" || ev.court == "" || ev.backfill {
        return Acked;
      }
      match fetched
      case FetchFault => return Retry;
      case ParseFault => return Archive;
      case NoHit => return Acked;
      case Hit(p) =>
        if p.record.degree == Unknown {
          return Acked;
        }
        if ev.degree != Unknown && p.record.degree != ev.degree {
          return Acked;
        }
        var applied := ApplyEnrichment(ev, p, nextSync);
        return if applied.Ok? then Acked else Retry;
    }
  }
}
