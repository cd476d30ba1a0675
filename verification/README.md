# Acquisition: enrichment, ingestion writes, retention and backfill

A model of the acquisition slice and of its retention pruner. The state of a component is a
record of tables; a handler is a transaction on it that commits as a whole or leaves no trace;
delivery is at least once, in any order. Where the Go code changes tables step by step, a class
with the same fields does too, and each of its methods is proved equal to a function of the
tables before it; the laws are then proved about those functions, over every table content and
every run.

## What is modelled

* **Grading a court record** (`CourtRecords`, `Enrichment`, `EnrichmentLaws`, `EnrichmentRuns`,
  `GradeColumns`):
  the in-place grade and the merge into a record that already holds the grade, with the UNIQUE
  key, the absorbing SUPERSEDED state and the announcements.
* **The batch enrichment of an import** (`EnrichmentBatch`, `BatchLaws`, `BatchProtocol`,
  `BatchRuns`, `ImportRuns`, `FinalRows`, `ClosedImports`, `OvertakenClose`, `StepIds`): one
  chain of steps per court as a concurrent protocol. A delivery scans, fetches outside any transaction, and
  applies what came back later, on a snapshot that may be stale; deliveries repeat, die, lose
  their acknowledgement, are archived, and single-path polls happen in between. The protocol
  knows a step by its court and pass; `StepIds` shows that the id it is deduplicated by says no
  less.
* **Landing a window's records** (`CourtRecordUpsert`, `UpsertAgreement`, `UpsertColumns`,
  `CourtRecordRepository`): the set-based upsert against the record-by-record loop.
* **Landing intimations and the national match** (`Intimations`, `MatchCapture`,
  `MatchColumns`, `MatchLanding`).
* **The retention pruner** (`SqlTables`, `Prune`, `PruneSteps`, `PrunePlan`, `PruneAdvance`,
  `PruneLaws`, `PruneTheorems`, `PruneMeaning`, `PruneBlockers`): its three scope queries and its twenty-nine statements, as SQL
  over tables with foreign keys.
* **Backfill and catch-up** (`SyncWindows`, `Backfill`, `CatchUp`, `CatchUpGaps`, `WatchColumns`).
* **Parsing and fetching** (`Lifecycle`, `FetchBatch`, `DjenWalk`, `HtmlText`, `HtmlLines`).

The modules called columns, `PruneMeaning` and `HtmlLines` say what those functions come to, column
by column, in terms of the inputs and the rows before and without naming them again.

## What turned out not to hold

The code is kept as it is; each of these is a lemma, with the exact condition beside it.

* The set-based upsert and the record-by-record form leave different completeness on an existing
  record whose last input falls short of the stored value: the set form keeps the higher one, the
  row form overwrites it (`UpsertAgreement.WhenCompletenessAgrees`,
  `UpsertAgreement.AReobservationTellsThemApart`). Of the inputs that name one key the set form
  writes the class, subject and judging body of the last, the row form the class and subject of
  the first and the last judging body disclosed (`UpsertColumns.WhatTheSetFormWrites`,
  `UpsertColumns.WhatTheLoopWrites`). Everything else they promise agrees, the court wherever the
  inputs of a key name one (`UpsertColumns.TheyAgreeOnTheCourt`).
* The prune can fail on a foreign key. Five kinds of rows stand in its way, and it goes through
  exactly when there is none (`PruneTheorems.WhenThePruneGoesThrough`): the plan does not reckon
  with `draft.task_id`, `draft.superseded_by_draft_id` and the RESTRICT of
  `draft_attachment.document_id`. Its comments say that it is safe against NO ACTION keys. Each
  of the five occurs in a database the schema accepts, with intact keys (`PruneBlockers`). The
  fourth needs a deadline that is not on the record of its intimation and a task that is not on
  the record of its deadline (`PruneBlockers.TheFourthNeedsAStrayDeadline`,
  `PruneBlockers.TheFourthNeedsAStrayTask`).
* A catch-up mark can be cleared by the success of an older sync although a newer downtime was
  never fetched, because the older instant is kept for both (`CatchUpGaps.WhenTheMarkStaysHonest`,
  `CatchUpGaps.AStaleSuccessForgetsTheNewerGap`); the comment at the compare-and-clear says the
  opposite. A scope posted again can mark a gap no sync was asked for
  (`CatchUpGaps.WhenAMarkIsBacked`, `CatchUpGaps.ARepostMarksAGapNobodyFetches`).
* The scan asks for completeness below 0.9, which reads as "not enriched yet". The column holds
  0.9 in single precision, which is less, so an enriched record is due until it is attempted
  (`EnrichmentLaws.GradedRowsStayDue`). The count of a closed import is therefore not the number
  of records now enriched: it misses one that had its grade before and was not found again
  (`OvertakenClose.AnEnrichedRecordIsNotCounted`). It is that number exactly when a step graded
  each of them (`ClosedImports.TheClosedRowTellsTheTruth`,
  `ClosedImports.WhenTheCountIsEverySettledRecord`).
* A single-path poll between a step's scan and its write can merge the scanned placeholder away;
  the import closes without it, and the late write still moves the closed row
  (`OvertakenClose.APollCanOvertakeTheClose`). The row of an import is final, whatever follows,
  if and only if the import is concluded and no delivery holds rows for an unfinished step
  (`FinalRows.WhenTheRowIsFinal`); an import that closes before any poll always is
  (`ClosedImports.ClosedForGood`).
* A match tick repeated over the same items counts nothing again, unless a grade in between moved
  the key of a record the tick names (`MatchCapture.WhenAGradeInBetweenIsHarmless`,
  `MatchCapture.AGradeInBetweenCountsAgain`).
* Asked for one number that has two hits, the page walk returns one of them
  (`FetchBatch.ASecondHitCanBeLost`); hits are lost exactly where a run of one number lies across
  a multiple of the page size (`FetchBatch.WhenEveryHitComesBack`).

## Assumptions

* DATAJUD reports one grade per process number and answers with the number it was asked for and
  the court the record is at (`EnrichmentLaws.MovingGradesRetireAGradedRecord` and
  `EnrichmentLaws.AMovedCourtIsDueElsewhere` show what a second grade or court would do). No
  source stamps a completeness above DATAJUD's; the two there are stamp 0.3 and 0.9.
* One import per tenant at a time; what it discovers is fixed before its chains start, and every
  court with due records gets a first step. A court has a name.
* Transactions of one tenant do not interleave (the tenant's advisory lock).
* In the prune: no key crosses tenants, `published_at` is set, and twelve months reach further
  back than thirty days.
* The pages of one walk come from one listing: the source does not change while it is read.

## Model

| member | source | states |
|---|---|---|
| Enrichment.Store.GetCourtRecordByKey | internal/acquisition/repository.go:1487-1510 | the one record under a natural key, or none |
| Enrichment.Store.SupersedeCourtRecord | internal/acquisition/queries/enrichment.sql:90-101 | retires a record once: only a real transition is reported, and it drops the schedule |
| Enrichment.Store.UpdateCourtRecordGrade | internal/acquisition/queries/enrichment.sql:22-64 | a missing row and a key another row holds fail and change nothing; otherwise the row is graded, a retired one stays retired, and the lifecycle before and after comes back |
| Enrichment.Store.UpsertDocketEntries | internal/acquisition/repository_batch.go:462-514 | the docket gains the movements; exactly the genuinely new ones come back, in input order |
| Enrichment.Store.GradeInTx | internal/acquisition/enrichment.go:248-344 | the shared core, statement by statement, does what the grade of the tables says, faults included |
| Enrichment.Store.ApplyEnrichment | internal/acquisition/enrichment.go:189-234 | one unit of work: dedup, grade and announcements commit together or leave no trace |
| Enrichment.Store.OnCourtRecordObserved | internal/acquisition/enrichment.go:126-182 | which observations are acknowledged without a transaction, retried, archived or applied |
| Enrichment.GradeKeepsKeys | internal/acquisition/enrichment.go:249-268 | whatever DATAJUD reports, a grade that commits leaves one row per (cnj, degree) |
| EnrichmentLaws.GradeCommits | internal/acquisition/enrichment.go:256-344 | the lookup in front is enough: a grade of sound tables never faults, and this is the whole of what it leaves |
| EnrichmentLaws.RivalIsAlive | internal/acquisition/enrichment.go:262-270 | a record that meets a rival is still a placeholder; the merge target is graded and not retired |
| EnrichmentLaws.ChildrenFollowTheGrade | internal/acquisition/enrichment.go:268-307 | no intimation or deadline is lost, invented or altered beyond its anchor; after a merge none hangs off the placeholder and every intimation under the destination case carries its assignee |
| EnrichmentLaws.GradeAnnouncesItsTransitions | internal/acquisition/enrichment.go:280-342 | a grade announces exactly the lifecycle transitions it makes, once each |
| GradeColumns.WhatAGradeWrites | internal/acquisition/queries/enrichment.sql:22-101 | every column of court_record afterwards: the graded row carries what the hit discloses and keeps the rest, a retired placeholder only loses its schedule, every other record is unchanged |
| GradeColumns.WhatAGradeAnnounces | internal/acquisition/enrichment.go:276-342 | a conclusion if and only if the hit says so of a record that was not concluded, a retirement if and only if a living placeholder was merged |
| GradeColumns.WhatTheDocketGains | internal/acquisition/enrichment.go:309-347 | the hit's movements, under the graded record, and nothing else |
| GradeColumns.WhichObservationsAreApplied | internal/acquisition/enrichment.go:126-182 | exactly which observations reach the transaction, which are retried and which archived |
| EnrichmentLaws.NewHashesAreNew | internal/acquisition/repository_batch.go:462-514 | a movement is returned as new if and only if the docket lacked it, and at most once |
| EnrichmentLaws.GradedRowsStayDue | internal/acquisition/queries/enrichment.sql:103-119 | below the ceiling is every record: one is due if and only if it is unattempted and not retired, graded or not |
| EnrichmentLaws.AMovedCourtIsDueElsewhere | internal/acquisition/queries/enrichment.sql:45-64 | a hit that named another court would turn a record due at a court whose chain may have ended |
| EnrichmentLaws.MovingGradesRetireAGradedRecord | internal/acquisition/enrichment.go:172-178 | with two grades over time for one number, a graded record can be retired |
| EnrichmentRuns.EnrichLaw | internal/acquisition/enrichment.go:189-234 | the single path commits, keeps the tables sound, and announces each transition and each movement it adds exactly once |
| EnrichmentRuns.StepKeepsTheLaw | internal/acquisition/enrichment.go:126-344 | every transaction of every kind keeps keys, foreign keys and the outbox honest and undoes nothing |
| EnrichmentRuns.ConclusionsAreAnnouncedOncePerEntry | internal/acquisition/enrichment.go:321-342 | over any run, court_record_archived counts the entries into ARCHIVED, record by record, and court_record_superseded the retirements |
| EnrichmentRuns.NothingIsUndone | internal/acquisition/enrichment.go:248-344 | between any two moments retirement is final and no child is lost |
| EnrichmentRuns.RetirementIsSettled | internal/acquisition/enrichment.go:276-343 | at most one retirement and one observation per movement are ever announced; a retired record is a placeholder whose graded record is alive |
| EnrichmentRuns.OnlyLandingsAddChildren | internal/acquisition/enrichment.go:268-283 | the sets of intimations and deadlines are conserved by every enrichment |
| EnrichmentBatch.SelectDueForEnrichment | internal/acquisition/queries/enrichment.sql:103-119 | the scan, in id order under its limit |
| EnrichmentBatch.ApplyBatch | internal/acquisition/enrichment_batch.go:185-255 | one step in one unit of work, with dedup, loop, marking, counter and re-enqueue, or nothing |
| EnrichmentBatch.CloseIfImportDrained | internal/acquisition/enrichment_batch.go:266-316 | stamps the terminal status only when no record of any court is due |
| EnrichmentBatch.OnEnrichmentBatchRequested | internal/acquisition/enrichment_batch.go:128-176 | what one delivery does for every outcome of the fetch and the parse |
| BatchLaws.GradeAllLaw | internal/acquisition/enrichment_batch.go:206-228 | the loop over a snapshot never faults and announces the transitions it makes as a whole, though it grades through one core many times |
| BatchLaws.ApplyMarks | internal/acquisition/enrichment_batch.go:206-234 | a first delivery marks its whole snapshot attempted and nothing else, nothing becomes due, and no record changes court |
| BatchLaws.ApplyPays | internal/acquisition/enrichment_batch.go:185-255 | a step announces its transitions and the next step, and nothing else |
| GradeColumns.TheLoopEnriches | internal/acquisition/enrichment_batch.go:206-228 | every scanned record DATAJUD returned with a grade is enriched by the hit of its number or merged away |
| GradeColumns.WhatAStepDoes | internal/acquisition/enrichment_batch.go:206-255 | every scanned record attempted, every one found enriched, the row grown by how many and by the broken hits, opened only for one of the two |
| BatchProtocol.ScanLaw | internal/acquisition/queries/enrichment.sql:103-119 | ORDER BY id LIMIT n: sorted, only rows asked for, nothing smaller left out |
| BatchProtocol.ApplyKeepsInv | internal/acquisition/enrichment_batch.go:185-255 | an apply on a stale snapshot keeps every invariant of the protocol, first delivery or repeat |
| BatchProtocol.CloseKeepsInv | internal/acquisition/enrichment_batch.go:266-316 | so does a close |
| BatchProtocol.PollKeepsInv | internal/acquisition/enrichment.go:189-234 | so does a single-path enrichment in between |
| BatchRuns.EachDueRecordIsAttemptedOnce | internal/acquisition/enrichment_batch.go:128-255 | under every interleaving each due record is marked by exactly one applied step, any other by none |
| BatchRuns.NoImportIsForgotten | internal/acquisition/enrichment_batch.go:128-316 | in every reachable state a step is still owed a delivery, or one was archived, or the import is closed with nothing due |
| BatchRuns.TheChainEnds | internal/acquisition/enrichment_batch.go:230-255 | applied steps plus unmarked records never exceed the due records; no step is applied twice |
| BatchRuns.TheCountIsExact | internal/acquisition/enrichment_batch.go:236-243 | the row's count is at every moment the number of distinct records graded |
| BatchRuns.TheStatusIsExact | internal/acquisition/enrichment_batch.go:45-56 | once nothing is pending, PARTIAL exactly when some applied step met an unparseable hit, OK otherwise |
| ImportRuns.AnExecutionIsARun | internal/acquisition/enrichment_batch.go:128-316 | every execution of the protocol is a run of enrichment transactions in which nothing lands |
| ImportRuns.AnImportAnnouncesItsTransitions | internal/acquisition/enrichment.go:276-342 | under every interleaving an import announces each conclusion and each retirement exactly once, undoes nothing and conserves intimations and deadlines |
| ImportRuns.GradeKeepsAnchored | internal/acquisition/enrichment.go:268-297 | no grade leaves an intimation or a deadline on a retired record if none was there before |
| ImportRuns.NothingHangsOffARetiredRecord | internal/acquisition/enrichment_batch.go:185-255 | nor does any moment of any import |
| FinalRows.WhenTheRowIsFinal | internal/acquisition/enrichment_batch.go:128-316 | no continuation, repeats, late steps and polls included, changes the counter row if and only if the import is concluded and no delivery holds rows for an unfinished step |
| FinalRows.AnOpenScanWasOvertaken | internal/acquisition/enrichment_batch.go:128-255 | what such a delivery holds once nothing is due: placeholders that were merged away unattempted |
| ClosedImports.ClosedForGood | internal/acquisition/enrichment_batch.go:258-316 | an import that closes before any poll has a final row, whatever follows |
| ClosedImports.OnlyPollsStillWrite | internal/acquisition/enrichment_batch.go:128-316 | once an import rests, no later, repeated or late step changes any table |
| ClosedImports.TheClosedRowTellsTheTruth | internal/acquisition/enrichment_batch.go:206-316 | in every execution a concluded import attempted every record not merged away, counts the records its steps graded, all of them settled, every settled one exactly when a step graded each, and says PARTIAL exactly for parse errors |
| ClosedImports.WhenTheCountIsEverySettledRecord | internal/acquisition/enrichment_batch.go:206-243 | without a poll the count is the number of records now enriched or merged away if and only if every record that had its grade at the start was found again |
| ClosedImports.LoopSettlesOnly | internal/acquisition/enrichment_batch.go:206-228 | the loop settles exactly the records it grades and touches no other placeholder |
| OvertakenClose.APollCanOvertakeTheClose | internal/acquisition/enrichment_batch.go:128-255 | an execution in which a closed row is bumped after its close |
| OvertakenClose.AnEnrichedRecordIsNotCounted | internal/acquisition/enrichment_batch.go:206-243 | an execution whose closed row counts nothing while its record is enriched |
| StepIds.WhenIdsCollide | internal/acquisition/events.go:571-576 | two steps share an id if and only if pass and job-colon-court agree |
| StepIds.StepIdsAreInjective | internal/acquisition/events.go:571-576 | job ids without a colon make the id injective |
| StepIds.AColonInTheJobCollides | internal/acquisition/events.go:571-576 | the assumption is needed |
| CourtRecordRepository.Repository.CreateCourtRecord | internal/acquisition/repository.go:1224-1267 | a fresh case and record, or, on a lost race, the orphan case dropped and the winner synced |
| CourtRecordRepository.Repository.FindOrCreateCourtRecord | internal/acquisition/repository.go:1168-1214 | find, refuse at the ceiling, or create; then mark synced |
| CourtRecordRepository.Repository.MarkCourtRecordSynced | internal/acquisition/queries/sync.sql:98-108 | completeness and schedule overwritten, an undisclosed judging body kept |
| CourtRecordRepository.Repository.Partition | internal/acquisition/repository_batch.go:112-131 | new keys in first-seen order, known keys, and the last input of each |
| CourtRecordRepository.Repository.BatchCreateCourtRecords | internal/acquisition/repository_batch.go:198-236 | one fresh case and one fresh record per admitted key, mapped back by key |
| CourtRecordRepository.Repository.BatchUpsertCourtRecords | internal/acquisition/repository_batch.go:71-192 | the loops and bulk statements leave what the set form says, and answer every input |
| UpsertAgreement.TheLoopFollowed | internal/acquisition/repository.go:1168-1267 | what the record-by-record loop leaves, said without the loop |
| UpsertAgreement.TheTwoFormsAgree | internal/acquisition/repository_batch.go:62-192 | same records, identifiers, cases, refusals, count and schedule, for every ledger, ceiling and input list |
| UpsertColumns.WhatTheSetFormWrites | internal/acquisition/queries/sync.sql:200-216 | a created record holds every column of the last input that names it; a found one keeps its court and its lineage, takes what is disclosed and never a lower completeness |
| UpsertColumns.WhatTheLoopWrites | internal/acquisition/repository.go:1168-1267 | a created record holds court, lineage, class and subject of the first input that names it; a found one keeps its own; both take the last judging body disclosed |
| UpsertColumns.WhatTheLoopSchedules | internal/acquisition/queries/sync.sql:98-108 | schedule and completeness are the last input's; a row no input names is untouched |
| UpsertColumns.TheyAgreeOnTheCourt | internal/acquisition/repository_batch.go:198-236 | both forms put a record at one court, and where one input names it they create the same row |
| UpsertAgreement.WhenCompletenessAgrees | internal/acquisition/queries/sync.sql:200-216 | they agree on completeness if and only if the last input does not fall short of an existing row's |
| UpsertAgreement.AReobservationTellsThemApart | internal/acquisition/queries/sync.sql:98-108 | a record held at 0.9 and listed again at 0.3, which the two forms leave different |
| UpsertAgreement.TheCeilingHolds | internal/acquisition/repository_batch.go:133-158 | no create crosses the ceiling, room is never wasted, and exactly the new keys past it are refused |
| UpsertAgreement.CasesAreFresh | internal/acquisition/repository_batch.go:198-216 | one distinct fresh case and identifier per created record |
| Intimations.IntimationTable.BatchUpsert | internal/acquisition/queries/sync.sql:218-262 | one statement over a snapshot; naming a row twice fails it |
| Intimations.IntimationTable.UpsertIntimations | internal/acquisition/repository_batch.go:272-337 | which returned rows are new and which were retracted, in order |
| Intimations.EventsOfOneStatement | internal/acquisition/repository_batch.go:321-335 | observed on a first living insert, retracted on a transition, else nothing |
| Intimations.OneLife | internal/acquisition/repository_batch.go:261-337 | if the source never revives a publication, its events over any run are a prefix of observed, retracted; nothing for one that arrives cancelled |
| Intimations.RetractionsAreTransitions | internal/acquisition/repository_batch.go:321-335 | whatever the source does, retractions count the transitions and there is at most one observation |
| MatchCapture.GroupMatches | internal/acquisition/match.go:112-127 | per tenant the matched keys and the distinct payloads in order |
| MatchCapture.PayloadsAreDistinctMatches | internal/acquisition/match.go:109-127 | no payload is lost, written twice or leaked to another tenant |
| MatchCapture.PayloadsKeepTheirOrder | internal/acquisition/match.go:112-127 | one payload comes before another exactly when it was matched first |
| MatchColumns.WhatATickWrites | internal/acquisition/match.go:150-186 | every key named gets a record, every intimation its row under that record with the status it came with; nothing else comes and nothing else changes |
| MatchColumns.WhenATickGoesThrough | internal/acquisition/match.go:168-186 | a tick commits if and only if every intimation belongs to a process it names and none comes twice; otherwise it leaves no trace |
| MatchColumns.WhatATickAdds | internal/acquisition/match.go:187-217 | the day's row grows by the new records, the intimations landed alive and the records those hang off beyond the new ones, or is left alone |
| MatchCapture.TouchedIsReadOffTheTables | internal/acquisition/match.go:199-202 | the touched records are exactly those the intimations landed by the tick hang off in the tables it leaves |
| MatchCapture.MatchTables.WriteForTenant | internal/acquisition/match.go:133-217 | one tick in one transaction, or no trace of it: an intimation of a record the tick did not resolve itself, or a row named twice, refuses it |
| MatchLanding.TheUngatedUpsertLands | internal/acquisition/match.go:158-172 | with room for every new key the set-based upsert leaves the identifiers a tick lands and blocks nothing |
| MatchCapture.TheDayAddsUp | internal/acquisition/match.go:187-217 | over any ticks the row counts exactly the records created and the intimations that first landed alive |
| MatchCapture.TickingAgainChangesNothing | internal/acquisition/match.go:187-195 | a tick repeated at once changes no table and no counter |
| MatchCapture.TickingLaterAddsNothing | internal/acquisition/match.go:187-217 | at any later moment of a run of ticks the same items create no record and add nothing to the row |
| MatchCapture.UpdatedIsHonest | internal/acquisition/match.go:196-207 | updated never exceeds the known records that gained an intimation; it equals them if and only if every created record gained one too or no known one did, and always when none was created |
| MatchCapture.UpdatedNeverExceedsGained | internal/acquisition/match.go:196-217 | the same, summed over any run |
| MatchCapture.WhenAGradeInBetweenIsHarmless | internal/acquisition/match.go:133-217 | a grade between two ticks of the same items leaves the row alone if and only if the tick does not name the graded record or the record kept its key |
| MatchCapture.AGradeInBetweenCountsAgain | internal/acquisition/match.go:133-217 | a day on which such a grade counts one publication twice |
| SqlTables.ExecKeepsIntegrity | cmd/cleanup-ingestao/prune.go:46-146 | no statement that succeeds leaves a row pointing at a removed one |
| Prune.Database.Execute | cmd/cleanup-ingestao/prune.go:136-144 | one statement: its effect and its row count, or a foreign key violation |
| Prune.Database.PruneInTx | cmd/cleanup-ingestao/prune.go:36-147 | the scope sets, then the plan in order with its tally |
| Prune.Database.CleanTenant | cmd/cleanup-ingestao/main.go:143-165 | all or nothing; a dry run reports the same tally and changes nothing |
| PruneTheorems.WhenThePruneGoesThrough | cmd/cleanup-ingestao/prune.go:46-134 | the prune goes through if and only if none of five kinds of rows is in its way |
| PruneBlockers.ADraftOfANoiseTaskStopsIt | cmd/cleanup-ingestao/prune.go:57-58 | a database the schema accepts with intact keys, and a draft written for a task of the noise stops the prune |
| PruneBlockers.ASupersededDraftStopsIt | cmd/cleanup-ingestao/prune.go:71 | so does a draft superseded by one about the noise |
| PruneBlockers.ADraftOfADormantTaskStopsIt | cmd/cleanup-ingestao/prune.go:80 | so does a draft written for a task of a dormant record |
| PruneBlockers.ATaskOfADormantDeadlineStopsIt | cmd/cleanup-ingestao/prune.go:80-83 | so does a task on a living record for a deadline on a dormant one whose intimation is on the living one |
| PruneBlockers.AnAttachedDocumentStopsIt | cmd/cleanup-ingestao/prune.go:84-97 | so does a dormant record's document attached to a draft that stays |
| PruneBlockers.TheFourthNeedsAStrayTask | cmd/cleanup-ingestao/prune.go:78-83 | where every task is on the record of its deadline, the fourth cannot occur either |
| PruneBlockers.TheFourthNeedsAStrayDeadline | cmd/cleanup-ingestao/prune.go:54-61 | where every deadline is on the record of its intimation, the fourth cannot occur |
| PruneTheorems.EveryStatementKeepsIntegrity | cmd/cleanup-ingestao/prune.go:46-146 | integrity holds after every statement of the plan |
| PruneTheorems.WhatThePruneLeaves | cmd/cleanup-ingestao/prune.go:46-134 | what the twenty-nine statements come to, table by table |
| PruneTheorems.TheTallyIsRowsRemoved | cmd/cleanup-ingestao/prune.go:136-146 | the tally of a table is the number of its rows that are gone |
| PruneLaws.ScopeIsOk | cmd/cleanup-ingestao/prune.go:160-204 | a dormant record has no intimation outside the noise, and nothing alive hangs off an emptied case |
| PruneMeaning.WhichIntimationsGo | cmd/cleanup-ingestao/prune.go:152-158 | an intimation goes if and only if it is the tenant's, and a communication or older than thirty days |
| PruneMeaning.WhichRecordsGo | cmd/cleanup-ingestao/prune.go:160-178 | a record goes if and only if it is the tenant's, every movement of it is older than the cut, and every intimation of it is too or goes as noise |
| PruneMeaning.WhichCasesGo | cmd/cleanup-ingestao/prune.go:180-200 | a case goes if and only if it is the tenant's, it has records, all of them go, and so does every intimation under it |
| PruneMeaning.EverythingElseFollows | cmd/cleanup-ingestao/prune.go:46-134 | in every other table a row goes exactly with the row it hangs off |
| PruneMeaning.AMovingRecordStays | cmd/cleanup-ingestao/prune.go:160-178 | a record with a movement since the cut stays, with its docket and its case |
| PruneMeaning.WhatStaysKeepsItsColumns | cmd/cleanup-ingestao/prune.go:46-134 | a surviving row keeps every column but the links the plan clears |
| PruneTheorems.LiveDataStays | cmd/cleanup-ingestao/prune.go:152-204 | an intimation of another tenant, or neither a communication nor older than thirty days, stays with its record and its case |
| PruneTheorems.OtherTenantsStay | cmd/cleanup-ingestao/prune.go:149-160 | rows of other tenants stay, every column of them |
| PruneTheorems.TheSecondRunSelectsNothing | cmd/cleanup-ingestao/prune.go:149-204 | with the same clock the three queries select nothing any more |
| PruneTheorems.TheSecondRunDoesNothing | cmd/cleanup-ingestao/prune.go:36-147 | the second run goes through, changes no table and reports zeros |
| SyncWindows.BuildSyncWindows | internal/acquisition/backfill.go:93-111 | consecutive non-empty windows of full width but the last, from start to end, as many as CalculateSlices says |
| SyncWindows.EveryDayOnce | internal/acquisition/backfill.go:84-111 | every day of the horizon lies in exactly one window, no other day in any |
| Backfill.BackfillTables.CreateBackfillForScope | internal/acquisition/backfill.go:375-410 | total_slices equals the requests published; an empty horizon lands COMPLETED |
| Backfill.NewestFirstAt | internal/acquisition/backfill.go:400-410 | one request per window, the last window first, chronological indices |
| Backfill.BackfillTables.FinalizeIfComplete | internal/acquisition/backfill.go:621-655 | closes a RUNNING job on its last slice, PARTIAL if one failed, and announces it |
| Backfill.BackfillTables.OnSliceClosed | internal/acquisition/backfill.go:554-596 | dedup, counter and finish, and the catch-up half on success |
| Backfill.CatchUpClosesCountForNone | internal/acquisition/backfill.go:575-596 | the close of a catch-up counts for no job and finishes none |
| WatchColumns.WhatACloseDoesToTheWatch | internal/acquisition/backfill.go:575-612 | a close clears the mark if and only if its event is new, its sync succeeded and it carries the mark; otherwise the watch is unchanged |
| WatchColumns.WhenAStreamClearsTheMark | internal/acquisition/backfill.go:554-612 | over any stream of closes, repeats included, the mark goes if and only if one of them answers it |
| WatchColumns.ACloseOfALifeIsACloseOfTheTables | internal/acquisition/backfill.go:584-612 | the watch after a close in a life is the watch after the tables' close that carries the dispatched instant |
| Backfill.TheLastOneTurnsOffTheLight | internal/acquisition/backfill.go:554-655 | for every stream of closes: tallies are the distinct closes; one finish, at the total-th distinct close exactly, PARTIAL exactly when one of those failed |
| CatchUp.WatchTables.AddOrEnableWatchedOAB | internal/acquisition/queries/watched_oab.sql:7-45 | inserts or enables, keeps an older mark, and tells new from re-enabled from unchanged |
| CatchUp.WatchTables.DisableWatchedOAB | internal/acquisition/queries/watched_oab.sql:47-55 | a repeated disable keeps the earlier instant |
| CatchUp.WatchTables.ToggleWatchedOAB | internal/acquisition/domain.go:179-228 | flips an existing watch only, and announces a real re-enable with its mark |
| CatchUp.WatchTables.OnIntegrationActivated | internal/acquisition/backfill.go:256-331 | handled once: a backfill for the newly watched keys, a catch-up for each re-enabled one |
| CatchUp.WatchTables.OnWatchedOABReenabled | internal/acquisition/backfill.go:345-368 | heard once: one sync from the mark to now |
| WatchColumns.WhatAnActivationWrites | internal/acquisition/queries/watched_oab.sql:7-45 | each key of the scope is on afterwards, with its older mark or else its last disable; no other row changes |
| WatchColumns.WhatAnActivationBackfills | internal/acquisition/backfill.go:256-331 | the backfill names exactly the keys that had no row, each once, however often the scope repeats them |
| WatchColumns.WhatAnActivationCatchesUp | internal/acquisition/backfill.go:256-331 | one catch-up, from the mark now on the row, for exactly the keys that were off and leave with a mark |
| WatchColumns.AnActivationOfALifeIsOneOfTheTables | internal/acquisition/backfill.go:256-331 | a life lived through an activation has the row and the dispatch the whole scope's activation gives its key |
| WatchColumns.ARepeatedDisableKeepsTheInstant | internal/acquisition/queries/watched_oab.sql:47-55 | in every life a disabled row holds the instant of the switch-off that found it on |
| CatchUpGaps.OnlyItsOwnSuccessClears | internal/acquisition/backfill.go:584-612 | a set mark is cleared only by a success carrying exactly that instant; failures and stale closes leave it |
| CatchUpGaps.WhenTheMarkStaysHonest | internal/acquisition/queries/watched_oab.sql:61-69 | exactly when a step breaks the mark's promise: a success overtaken by a later re-enable |
| CatchUpGaps.GapsAreNeverForgotten | internal/acquisition/backfill.go:345-368 | in any life without such a close, no downtime is forgotten |
| CatchUpGaps.WhenAMarkIsBacked | internal/acquisition/queries/watched_oab.sql:7-45 | exactly when a mark is set that no sync was asked for |
| CatchUpGaps.MarkedGapsAreAskedFor | internal/acquisition/backfill.go:256-368 | in any life without such a re-post every marked gap has a sync asked for from its instant |
| CatchUpGaps.AStaleSuccessForgetsTheNewerGap | internal/acquisition/queries/watched_oab.sql:61-69 | a life in which a downtime is forgotten |
| CatchUpGaps.ARepostMarksAGapNobodyFetches | internal/acquisition/queries/watched_oab.sql:7-45 | a life in which a gap is marked and no sync asked for |
| Lifecycle.SortNewestFirst | internal/acquisition/datajud_parser.go:203-208 | the in-place sort leaves the same movements, newest first, those of one instant in input order |
| Lifecycle.SortedIsStable | internal/acquisition/datajud_parser.go:203-208 | insertion by insertion, the sort permutes, descends and is stable |
| Lifecycle.LifecycleFromMovimentos | internal/acquisition/datajud_parser.go:185-225 | the loops and the scan compute the verdict on the movements whose date parses |
| Lifecycle.TheVerdict | internal/acquisition/datajud_parser.go:171-225 | ARCHIVED and SUSPENDED, both directions, in terms of the input list |
| Lifecycle.TheVerdictOfMovements | internal/acquisition/datajud_parser.go:171-225 | the same on the disclosed movements, with their codes: undated ones count for nothing, ties go to the one listed first |
| Lifecycle.OrderDoesNotMatter | internal/acquisition/datajud_parser.go:203-225 | without ties the listing order is irrelevant |
| FetchBatch.FetchBatch | internal/acquisition/datajud.go:238-277 | ends on every index; succeeds exactly when there is something to ask and every page asked for can be had, and then returns the walk's hits page by page |
| FetchBatch.CursorAdvances | internal/acquisition/datajud.go:338-354 | a full page moves the cursor strictly forward |
| FetchBatch.NoHitTwice | internal/acquisition/datajud.go:258-277 | no hit is returned twice |
| FetchBatch.EveryNumberAnswered | internal/acquisition/datajud.go:228-277 | every number the index holds gets a hit, even across a page's end |
| FetchBatch.WhenEveryHitComesBack | internal/acquisition/datajud.go:258-277 | all hits come back if and only if no run of one number lies across a multiple of the page size |
| FetchBatch.WhenAWalkSplitsARun | internal/acquisition/datajud.go:258-277 | where the walk splits a run, read off the index alone |
| FetchBatch.DistinctNumbersAllComeBack | internal/acquisition/datajud.go:258-277 | distinct numbers lose nothing |
| FetchBatch.ASecondHitCanBeLost | internal/acquisition/datajud.go:254-277 | a page size of one loses the second hit of a number |
| FetchBatch.ParseBatch | internal/acquisition/datajud_parser.go:355-378 | the last parsed hit of each number, the broken hits in order; a garbled page fails the batch |
| FetchBatch.HitsPageByPage | internal/acquisition/datajud_parser.go:355-378 | the hits of a batch are those of its pages, page after page |
| FetchBatch.TheLastParsedHitStands | internal/acquisition/datajud_parser.go:355-378 | a number maps to the last hit that parsed to it, and to nothing if and only if none did |
| FetchBatch.EveryBrokenHitIsCounted | internal/acquisition/datajud_parser.go:355-378 | as many numbers are skipped as hits are broken, the broken ones' in order |
| FetchBatch.OnlyBrokenHitsCount | internal/acquisition/datajud_parser.go:340-378 | errors come from broken hits alone; a number that is absent is neither graded nor an error |
| DjenWalk.Walk.FetchOAB | internal/acquisition/djen.go:250-274 | succeeds exactly when every page asked for can be had and every hash decodes, and then adds what the pages hold, deduplicated against everything before |
| DjenWalk.Fetch | internal/acquisition/djen.go:212-245 | all OABs or, at the first fault, none; one dedup over all of them |
| DjenWalk.FetchDiario | internal/acquisition/djen.go:282-307 | the same walk with every item kept |
| DjenWalk.PageIsAskedFor | internal/acquisition/djen.go:251-271 | how many pages a walk asks for: up to the first short one, an empty one after a full last page included |
| DjenWalk.NoHashTwice | internal/acquisition/djen.go:256-269 | no hash arrives twice |
| DjenWalk.KeptHashes | internal/acquisition/djen.go:256-269 | every hash read and not seen before arrives |
| DjenWalk.TheFirstIsKept | internal/acquisition/djen.go:256-269 | of items with one hash the first arrives, in reading order |
| DjenWalk.HashlessItemsAllArrive | internal/acquisition/djen.go:261-268 | an item without a hash is never taken for a repeat |
| DjenWalk.OrderAndRepeatsDoNotMatter | internal/acquisition/djen.go:206-245 | what arrives depends on neither the order of the OABs nor on naming one twice |
| DjenWalk.ShortListingsArriveWhole | internal/acquisition/djen.go:245-274 | below the page cap exactly what the listings hold arrives |
| DjenWalk.WhenAnOABArrivesWhole | internal/acquisition/djen.go:250-274 | an OAB whose communications all differ arrives whole if and only if it fits the page cap |
| HtmlText.CollapseWhitespace | internal/acquisition/htmltext.go:92-105 | the line loop and the squeeze loop end and compute the collapsed text |
| HtmlText.WhatComesOut | internal/acquisition/htmltext.go:90-105 | same words in the same order, every line trimmed and single-spaced, no three breaks in a row, no space at either end |
| HtmlLines.WhichBreaksSurvive | internal/acquisition/htmltext.go:90-105 | neighbouring words on one line stay on one, on two lines stay on two, and one blank line stays between them exactly where there was at least one |
| HtmlText.CollapsingIsIdempotent | internal/acquisition/htmltext.go:90-105 | collapsing twice is collapsing once |

## Left out

- HTTP handlers, queue servers, composition roots, telemetry, rate limits, TLS, JSON decoding, KMS, S3, Redis: plumbing.
- The language-model features, screen reads, title and work-stage derivation, the phase derivation, the request validation: they would only add easy members.
- The sync cycle itself: its completion and failure events are inputs of the model.
- Tables the prune plan does not name (action items, comments, activity, theses, signing events and others) and their foreign keys: a prune can also be stopped by those.
- Row-level security and bypassing roles: the scope queries filter by tenant explicitly, and that is what is modelled.
- Several tenants in the enrichment: every statement it runs is scoped to one.
- Concurrent discovery during an import, overlapping imports of one tenant.
- Single precision beyond 0.9: completeness is a real number, DATAJUD's being what a 4-byte column stores for 0.9; the rounding of other values is not modelled.
- The fields an entity returned by the upserts repeats from its input: only its identity and case are modelled.
- The history path of the activation (matching the stored publications instead of fetching): best effort after the commit.
- A catch-up instant that does not parse: logged and skipped.
