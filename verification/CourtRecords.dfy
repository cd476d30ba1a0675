/** The rows one tenant's enrichment reads and writes, and the events it publishes.
    Identifiers are integers; an instant is an integer; the tenant is fixed, because every
    statement the enrichment runs is scoped to one tenant. */
module CourtRecords {
  import opened Wrappers

  type RecordId = int
  type CaseId = int
  type UserId = int
  type IntimationId = int
  type DeadlineId = int
  type Cnj = string
  type Court = string
  type Hash = int
  type Instant = int

  /** DJEN never discloses the grade; DATAJUD reveals it as a code such as G1 or JE. */
  datatype Degree = Unknown | Grade(code: string)

  datatype Lifecycle = Active | Suspended | Archived | Superseded

  /** `details` stands for the columns a grade overwrites outright (class, subject, judging
      body, filing date, secrecy); `phase` for the one it keeps when it carries none. */
  datatype CourtRecord = CourtRecord(
    caseId: CaseId, cnj: Cnj, degree: Degree, court: Court, details: string, phase: string,
    completeness: real, lifecycle: Lifecycle, nextSyncAt: Option<Instant>, attempted: bool)

  datatype Intimation = Intimation(
    caseId: CaseId, recordId: RecordId, hash: Hash, assignee: Option<UserId>)

  datatype Deadline = Deadline(recordId: RecordId, intimationId: IntimationId)

  datatype Event =
    | RecordArchived(recordId: RecordId)
    | RecordSuperseded(recordId: RecordId)
    | DocketObserved(recordId: RecordId, hash: Hash)
    | BatchRequested(step: BatchStep)

  /** One step of the batch chain of a court, within the single import of the tenant. */
  datatype BatchStep = BatchStep(court: Court, pass: nat)

  /** A row of processed_event: the consumer together with the event it has handled. */
  datatype Processed = EnrichmentDone(eventId: int) | BatchDone(step: BatchStep)

  datatype RunStatus = Running | RunOk | RunPartial

  /** The import's ENRICHMENT row of capture_run. */
  datatype EnrichmentRun = EnrichmentRun(status: RunStatus, updated: nat, errors: nat)

  datatype Tables = Tables(
    records: map<RecordId, CourtRecord>,
    intimations: map<IntimationId, Intimation>,
    deadlines: map<DeadlineId, Deadline>,
    docket: set<(RecordId, Hash)>,
    cases: map<CaseId, Option<UserId>>,
    processed: set<Processed>,
    outbox: seq<Event>,
    run: Option<EnrichmentRun>)

  /** A process as the DATAJUD parser maps it. */
  datatype ParsedRecord = ParsedRecord(
    cnj: Cnj, degree: Degree, court: Court, details: string, phase: string,
    completeness: real, lifecycle: Option<Lifecycle>)

  datatype ParsedProcess = ParsedProcess(record: ParsedRecord, movimentos: seq<Hash>)

  datatype DueRecord = DueRecord(id: RecordId, cnj: Cnj)

  datatype Fault = RecordNotFound | CaseNotFound | DuplicateKey

  /** What DATAJUD stamps on every process it discloses: 0.9 in single precision, as the
      column stores it. No source stamps more. */
  const DATAJUD_COMPLETENESS: real := 0.89999997615814208984375

  /** The scan compares the stored value with 0.9 in double precision. */
  const SCAN_CEILING: real := 0.9

  const ENRICHMENT_BATCH_SCAN_LIMIT: nat := 1000

  predicate SameKey(a: CourtRecord, b: CourtRecord) {
    a.cnj == b.cnj && a.degree == b.degree
  }

  /** The UNIQUE (tenant, cnj, degree) constraint. */
  ghost predicate UniqueKeys(records: map<RecordId, CourtRecord>) {
    forall a, b | a in records && b in records :: SameKey(records[a], records[b]) ==> a == b
  }

  /** The predicate of the scan index: below the ceiling, never attempted, not retired. A row
      DATAJUD has graded is below the ceiling too. */
  predicate Due(r: CourtRecord) {
    r.completeness < SCAN_CEILING && !r.attempted && r.lifecycle != Superseded
  }

  function DueIds(records: map<RecordId, CourtRecord>): set<RecordId> {
    set r | r in records && Due(records[r])
  }

  function DueIdsOf(records: map<RecordId, CourtRecord>, court: Court): set<RecordId> {
    set r | r in records && Due(records[r]) && records[r].court == court
  }

  /** What the parser guarantees of a hit: DATAJUD's completeness, and a liveness read from
      the movements, which is never SUPERSEDED. */
  predicate FromDatajud(g: ParsedRecord) {
    g.completeness == DATAJUD_COMPLETENESS && g.lifecycle != Some(Superseded)
  }
}
