# Keplor in Dafny

Keplor ingests LLM events, prices them, batches them into a store with one storage engine per
retention tier, serves queries over the tiers, and moves old events to object storage. This
project models that core and proves what it promises over every input, every run or every
interleaving.

| area | files |
|---|---|
| shared types | `Wrappers`, `MachineInts`, `Events`, `Schema`, `Decimal`, `Money`, `Enumerations`, `Paths` |
| storage engines as the store relies on them | `Engines`, `Faults` |
| sharded batch writer | `BatchProtocol` (state machine), `BatchSafety` (invariant), `BatchTheorems`, `BatchStorage` (what ends up stored), `BatchProgress` (nothing gets stuck), `BatchLoop` (the loop bodies), `BatchRefinement` (the loop bodies as protocol steps) |
| tiered store and its readers | `Store`, `TopK`, `Paging`, `Routes`, `ErasureCount`, `Rollups`, `TierRegistry` |
| row codec and filters | `ErrorJson`, `Mapping`, `Filters` |
| archive | `Calendar`, `Manifests`, `Archive`, `ArchiveProtocol`, `Archiver` |
| pricing | `Pricing`, `Catalog`, `AliasIndex` |
| admission and ingestion | `RateLimit`, `Idempotency`, `Pipeline` |

Code that changes things step by step is modelled by methods and classes with loops, each proved
against a specification function or predicate; concurrent code (batch writer, lazy tier creation,
archive cycles with failures and restarts) is a step relation with an inductive invariant.

The storage engine (the crate `keplordb`) is not part of this model. `Engines` states what the
store relies on: an append goes to the write-ahead log all-or-error, a flush moves the log into
segments, queries see segments only, and a tombstone hides a row. An append that fails has stored either
nothing or its whole sub-batch. Time, hashes, failures, and the text forms of identifiers, addresses
and JSON documents are parameters. Hash-map
iteration orders are left open, so a proof holds for each of them. Integers are unbounded with
every saturation, wrap-around and truncating cast of the source written out; tokens and seconds of
the rate limiter are reals; strings of the catalogue and of trace ids are ASCII.

Where the code and its documentation disagree, the model follows the code:

- `export_events` is documented to stream every matching event. Its cursor is strictly older than
  the last row of a page, so rows tied with that row are skipped. `Store.KdbStore.ExportEvents`
  states exactly when: some page boundary falls between two equal timestamps.
  `Store.ExportOfOneStamp` is a store that loses a row.
- A failed flush answers every waiter with an error although some tiers may have been written. For
  the store's `append_batch_durable`, if engines fail cleanly, an error means "not stored" exactly
  for batches of at most one tier (`Faults.ErrorMeansNotStoredIff`). In the writer even a one-tier
  batch can be rejected and stored, when its blocking job is lost after the append; in general a
  rejected request is stored exactly if its own tier was written before the failure or is the one
  that failed after storing (`BatchStorage.RejectedIsStoredIff`).
- `delete_events_by_ids` reports how many ids it was given; the erasure handler's comment says it
  reports how many were tombstoned. The two agree exactly when the ids are distinct and visible
  (`Routes.DeletedCountIsExactIff`). The erasure loop still ends, because every round hides rows; its
  total is exact if and only if no page holds a row whose id a later row of the user also has
  (`Routes.ErasureCountIsExactIff`; for distinct timestamps `ErasureCount.ErasureCountIsExactIffNoTwins`
  reads this off the user's rows). Ingest draws a fresh id for every event
  (crates/keplor-server/src/pipeline.rs:534), so no input of the service itself produces such rows.
- The fields of a filter are documented as "only events with" a text or a status in a range. An event
  without status is stored with status zero and found below any positive bound, and asking for an
  empty text also finds events that have none (`Filters.WantedBeyondDocumented`,
  `Filters.StatusLessIsFound`).
- The day of an event truncates toward zero, so instants before 1970 that are not midnights are
  filed under the following day (`Calendar.DayNumberIsUtcDay`, `Calendar.DayStringBeforeEpoch`).
- A rate limit with `burst = 0` reports a finite `Retry-After` but never grants
  (`RateLimit.ZeroBurstRefusesAll`).
- The header of `mapping.rs` says provider errors are stored in their serde form; the code prints
  and parses its own flat object.
- The catalogue's comment says an unprefixed name is indexed when it does not collide; on a collision
  it is indexed too, at the price of whichever entry the hash map yields first. Hash-map order
  decides exactly where two entries that may price a name disagree
  (`Catalog.OrderDecidesExactlyBetweenRivals`).

## Model

| member | source | states |
|---|---|---|
| `BatchSafety.InvStep` | crates/keplor-store/src/batch.rs:275-404 | every step of producers, append loops, rotator and closing loops keeps the whole invariant: where each request is, who was answered, what is durable, what a running checkpoint still owes |
| `BatchSafety.RunEvolves` | crates/keplor-store/src/batch.rs:275-404 | between any two states of a run nothing is taken back: engines only grow, answers stay, accepted requests and closed channels stay |
| `BatchTheorems.AcceptedIsInOnePlace` | crates/keplor-store/src/batch.rs:152-200 | in every reachable state an accepted request is exactly once among answered, in flight, buffered and queued, and in its own shard only |
| `BatchTheorems.AckedIsDurable` | crates/keplor-store/src/batch.rs:360-404 | an `Ok(id)` answer carries the id of the very event that waiter sent, and the event is in its tier's log or segments from then on |
| `BatchTheorems.AnswersAreFinal` | crates/keplor-store/src/batch.rs:385-404 | an answer never changes |
| `BatchTheorems.RepliesGoToUnanswered` | crates/keplor-store/src/batch.rs:385-404 | a reply is only ever sent to a waiter that has none yet |
| `BatchTheorems.CheckpointPublishes` | crates/keplor-store/src/kdb_store.rs:722-727 | read your writes: after any completed checkpoint that began after the acknowledgement, the event is in the segments queries see, in every later state |
| `BatchTheorems.FlushesFollowAcceptance` | crates/keplor-store/src/batch.rs:275-333 | a shard's flushed batches, concatenated, are a prefix of its acceptance order; buffer and queue stay within their per-shard sizes |
| `BatchTheorems.ExitedLoopIsDrained` | crates/keplor-store/src/batch.rs:303-321 | a loop that exited on a closed channel had flushed and answered everything the channel ever accepted; nothing is accepted later; if its final checkpoint completed, all it acknowledged is visible |
| `BatchProgress.NoRequestIsStuck` | crates/keplor-store/src/batch.rs:275-404 | from every reachable state a shard's append loop can, by steps of its own, answer everything the shard has accepted, in order, and every waiter then has its answer |
| `BatchProtocol.ShardCapacityIsLeast` | crates/keplor-store/src/batch.rs:103-104 | a shard's channel is the smallest of at least one place with which all shards together have the configured capacity |
| `BatchProtocol.ShardBatchSizeIsGreatest` | crates/keplor-store/src/batch.rs:105-111 | a shard's batch is the largest with which all shards together stay within the configured size, but at least eight |
| `BatchTheorems.RejectedMayBeDurable` | crates/keplor-store/src/kdb_store.rs:302-317 | the failing input for "an error means not stored": any two events of different tiers, in a run that answers the first with an error although it is durable; the exact condition is the next row |
| `BatchStorage.RejectedIsStoredIff` | crates/keplor-store/src/batch.rs:360-404 | in every run, a rejected request was part of a flush that failed, and it is stored, then and ever after, if and only if at that failure its own tier had been written or was the one whose engine failed after storing |
| `BatchStorage.RowsAreAccountedFor` | crates/keplor-store/src/batch.rs:360-404 | in every run, a tier's rows are the initial ones and one per stored request of that tier: nothing appears that was not sent |
| `BatchStorage.StoredAtMostOnce` | crates/keplor-store/src/batch.rs:360-404 | stored requests are accepted ones, none twice, and every acknowledged one is among them |
| `Faults.ErrorMeansNotStoredIff` | crates/keplor-store/src/kdb_store.rs:302-317 | over all stores, tier orders and clean failures, an error of the batch append leaves every row as it was if and only if the batch touches at most one tier |
| `Faults.TornErrorMayStore` | crates/keplor-store/src/kdb_store.rs:312-315 | if an engine may fail after storing, that holds for the empty batch only |
| `Faults.StoredIff` | crates/keplor-store/src/kdb_store.rs:312-315 | a tier is stored by the attempt exactly when it comes before the first failing one, or is that one and failed after storing |
| `BatchLoop.AppendLoop.Receive` | crates/keplor-store/src/batch.rs:289-302 | filling keeps the order of requests, never exceeds the batch size, and stops short of it only on an empty channel |
| `BatchLoop.AppendLoop.AppendOnly` | crates/keplor-store/src/batch.rs:360-404 | the whole buffer becomes one batch; each request is answered in order, all with their own id and durable, or all with an error |
| `BatchRefinement.ReceiveRefines` | crates/keplor-store/src/batch.rs:289-302 | a call of `Receive` is, step by step, one receive, the further receives, and the end of the fill loop of the protocol |
| `BatchRefinement.AppendOnlyRefines` | crates/keplor-store/src/batch.rs:360-404 | a call of `AppendOnly` is one append step per tier up to the first failure, the end of the flush, and one reply per request, with the same tiers written and the same answers |
| `BatchRefinement.RepliesAreTheAnswers` | crates/keplor-store/src/batch.rs:385-404 | the replies `AppendOnly` returns are those answers |
| `BatchLoop.AppendTierIsOneTurn` | crates/keplor-store/src/kdb_store.rs:312-315 | one turn of the store's tier loop is one append step of the protocol, in any tier order |
| `Store.KdbStore.AppendBatchDurable` | crates/keplor-store/src/kdb_store.rs:302-317 | success exactly when no affected tier fails; whatever happens, exactly the tiers before the first failing one (and that one if it failed after storing) got all their events, in order |
| `Store.KdbStore.GroupByTier` | crates/keplor-store/src/kdb_store.rs:306-311 | ids in input order, and per tier exactly its events in input order |
| `Store.KdbStore.Query` | crates/keplor-store/src/kdb_store.rs:333-353 | a true top-k of all tiers together: min(limit, matches) rows, newest first, drawn from the matches, none left out strictly newer than one returned, although each tier supplied only its own page |
| `TopK.SufficesUnion` | crates/keplor-store/src/kdb_store.rs:340-350 | why merging per-tier pages is enough: rows outranked in their own tier are outranked in the union |
| `Paging.SortIsStable` | crates/keplor-store/src/kdb_store.rs:350-352 | sorting keeps the order of rows with the same timestamp |
| `Store.KdbStore.ExportEvents` | crates/keplor-store/src/kdb_store.rs:513-533 | terminates, newest first, no row twice; every row missed shares its timestamp with a page's last row; complete if and only if no page boundary splits equal timestamps |
| `Paging.DistinctStampsNeverTie` | crates/keplor-store/src/kdb_store.rs:513-533 | with distinct timestamps no boundary ties, so the export is exactly the matching rows |
| `Store.ExportOfOneStamp` | crates/keplor-store/src/kdb_store.rs:513-533 | the failing input: any rows of one timestamp, one more than a page holds, are exported short of exactly one |
| `Store.KdbStore.DeleteEventsByIds` | crates/keplor-store/src/kdb_store.rs:606-619 | hides exactly the rows with those ids in every tier and reports the number of ids; it fails exactly when an engine does and there is an id, and then each tier is either untouched or fully done |
| `Routes.DeletedCountIsExactIff` | crates/keplor-store/src/kdb_store.rs:606-619 | with distinct ids among the visible rows, the number returned is the number of rows hidden if and only if the ids given are pairwise distinct and each is visible |
| `Routes.DeletedCountMayBeTooHigh` | crates/keplor-store/src/kdb_store.rs:606-619 | the failing inputs: an unknown id, and an id given twice |
| `Store.KdbStore.WalCheckpoint` | crates/keplor-store/src/kdb_store.rs:722-727 | keeps every row and tombstone; succeeds exactly when no engine fails, and then everything durable before is in segments |
| `Routes.QueryEvents` | crates/keplor-server/src/routes.rs:290-302 | the page is the newest `limit` rows past the cursor; `has_more` exactly when there are more; the next cursor is the last row's timestamp |
| `Routes.EraseUser` | crates/keplor-server/src/routes.rs:930-973 | the loop terminates and, without concurrent ingest, ends with exactly the rows gone that share an id with one of the user's; it reports the sizes of the pages it erased; even when it fails half-way, rows with none of the user's ids stay as they were |
| `Routes.ErasureCountIsExactIff` | crates/keplor-server/src/routes.rs:930-973 | the number reported is never above the user's rows initially visible, and equal to it if and only if no page held a row whose id a row left for later also has |
| `ErasureCount.ErasureCountIsExactIffNoTwins` | crates/keplor-server/src/routes.rs:930-973 | with distinct timestamps the number reported is the number of the user's rows if and only if, newest first and cut into pages, no row has the id of a row on an earlier page |
| `Routes.ErasureCountIsExactWhen` | crates/keplor-server/src/routes.rs:930-973 | so it is exact when the user's rows have distinct ids or fit one page |
| `Routes.SplitTwinsAreReportedOnce` | crates/keplor-server/src/routes.rs:930-973 | the failing input, for every batch size: a full page of newer rows and one older row under an id of the page, as with an id present in two tiers, are reported as one page |
| `Routes.OthersAreUntouchedIff` | crates/keplor-server/src/routes.rs:930-973 | other users' rows all stay if and only if none shares an id with a row of the erased user |
| `TierRegistry.EntriesAreKept` | crates/keplor-store/src/kdb_store.rs:216-242 | under any interleaving of threads no tier entry is replaced or lost to a concurrent insert for another tier |
| `TierRegistry.OpenedAtMostOnce` | crates/keplor-store/src/kdb_store.rs:216-242 | each tier's engine is successfully opened at most once |
| `TierRegistry.CallersAgree` | crates/keplor-store/src/kdb_store.rs:216-242 | all callers for a tier, at any time, get the same engine, and it is the published one |
| `TierRegistry.NoCallIsStuck` | crates/keplor-store/src/kdb_store.rs:216-242 | from every reachable state each open call can be brought to its return, with an engine for its own tier, by steps of the calls there are: the lock is taken exactly while a call is in the critical section |
| `Rollups.QueryRollups` | crates/keplor-store/src/kdb_store.rs:395-429 | over all tiers, one row per key that occurs; each counter the two's-complement sum of the cast counters, the cost the capped true sum when no cost is negative |
| `Rollups.CountersAreTrueSums` | crates/keplor-store/src/kdb_store.rs:408-428 | after all casts and wrapping additions a counter is the engines' true unsigned sum, wrapped once, and that sum itself while it fits an i64 |
| `Rollups.AggregateStats` | crates/keplor-store/src/kdb_store.rs:457-489 | grouped by model, a provider and model have a row if and only if some rollup has both and is asked for (no provider asked for, or its own), and the row sums exactly those rollups; ungrouped, one row sums all that are asked for; although it aggregates already merged rollups in hash-map order |
| `Rollups.Regroup` | crates/keplor-store/src/kdb_store.rs:466-489 | aggregating the aggregates is aggregating the rows, in every counter and in capped cost |
| `Rollups.GroupsSumToWhole` | crates/keplor-store/src/kdb_store.rs:474-489 | per-model groups sum to the ungrouped row in every counter and, without negative costs, in cost up to the cap |
| `Rollups.SplitDoesNotMatter` | crates/keplor-store/src/kdb_store.rs:408-428 | sharing the same rollups out differently among tiers, or in another order, changes no group, no counter and, without negative costs, no cost |
| `Mapping.ToLogEvent` | crates/keplor-store/src/mapping.rs:184-252 | every field, dimension, counter, flag and label is in its place: tags are the metadata's texts, the error dimension names the variant and is empty exactly without an error, the is-error counter is 1 exactly with one; and the row reads back as the event, normalised |
| `Filters.ToQueryFilter` | crates/keplor-store/src/mapping.rs:367-390 | whatever the event, the engine selects its row if and only if the filter asks for the event, read off the event's own fields |
| `Filters.WantedBeyondDocumented` | crates/keplor-store/src/filter.rs:9-35 | a query finds every event the documentation promises, and beyond those exactly the wanted ones that lack something the filter constrains |
| `Filters.StatusLessIsFound` | crates/keplor-store/src/mapping.rs:386-387 | such events: any one without a status, under any positive upper bound |
| `Mapping.RowRoundTrip` | crates/keplor-store/src/mapping.rs:184-359 | for every event, decoding the encoded row gives it back up to: body hashes, receive time, unknown flags, empty versus absent text, fractions of a retry second |
| `Mapping.NormalisationKeeps` | crates/keplor-store/src/mapping.rs:184-359 | what survives a row unchanged, field by field |
| `Mapping.EncodeNormalised` | crates/keplor-store/src/mapping.rs:184-359 | storing what was read back writes the same row |
| `Mapping.SameRowIffSameNormalForm` | crates/keplor-store/src/mapping.rs:184-359 | two events share a row exactly when they differ only in what normalisation drops |
| `Mapping.DecodeSucceedsIff` | crates/keplor-store/src/mapping.rs:257-303 | a row reads back if and only if every text in it does; an empty one, and an error's without its flag, is not looked at |
| `Mapping.PackFlags` | crates/keplor-store/src/mapping.rs:399-434 | the word unpacks to the event's six kept flags, and each presence bit is set exactly when its optional field is there |
| `Mapping.FlagsRoundTrip` | crates/keplor-store/src/mapping.rs:399-457 | unpacking gives the six flags back and each presence bit tells its field, whatever the others are |
| `Mapping.ProviderRoundTrip` | crates/keplor-store/src/mapping.rs:459-468 | every provider, with any base URL, survives its id key and variant label |
| `Mapping.EveryProviderKeyReads` | crates/keplor-store/src/mapping.rs:459-468 | any stored key reads as the provider of that key or, when nobody has it, as a compatible provider of that name |
| `Mapping.TraceIdToHex` | crates/keplor-store/src/mapping.rs:483-490 | 32 lower-case digits of which pair i parses to byte i |
| `ErrorJson.HexDigits` | crates/keplor-store/src/mapping.rs:483-503 | the digit printed is the lower-case one of its value; the value read is that of the digit in either case |
| `Mapping.HexToTraceId` | crates/keplor-store/src/mapping.rs:492-503 | accepted if and only if there are 32 characters and every pair parses (a leading plus sign included, as `from_str_radix` allows), and then byte i is what pair i says |
| `Mapping.TraceIdRoundTrip` | crates/keplor-store/src/mapping.rs:483-503 | parsing a printed trace id gives it back |
| `ErrorJson.ErrorRoundTrip` | crates/keplor-store/src/mapping.rs:538-596 | every error variant, with any message text, survives printing and parsing, up to whole retry seconds |
| `Mapping.ErrorTextNamesKind` | crates/keplor-store/src/mapping.rs:546-575 | an error's text is an object whose `t` is the key the error dimension holds |
| `ErrorJson.ScanQuoted` | crates/keplor-store/src/mapping.rs:546-560 | any text, escaped as in section 7 of RFC 8259 and read back up to its closing quote, is the same text, whatever follows |
| `ErrorJson.ParsePrinted` | crates/keplor-store/src/mapping.rs:538-574 | any flat object of texts and unsigned integers parses back to its fields |
| `Calendar.CivilFromDaysCorrect` | crates/keplor-store/src/archive.rs:355-367 | every day number gives a valid Gregorian date whose standard day count is that number |
| `Calendar.CivilOfNextDay` | crates/keplor-store/src/archive.rs:355-367 | consecutive day numbers are consecutive dates |
| `Calendar.CivilOfCount` | crates/keplor-store/src/archive.rs:355-367 | the other inverse: a date's count maps back to that date |
| `Calendar.CivilFitsMachineIntegers` | crates/keplor-store/src/archive.rs:355-367 | no intermediate value leaves i64 or u32 unless the first addition does |
| `Calendar.DayNumberIsUtcDay` | crates/keplor-store/src/archive.rs:345-353 | the day computed is the UTC day if and only if the instant is not before the epoch or is a midnight |
| `Calendar.DayStringIsUtcDay` | crates/keplor-store/src/archive.rs:345-353 | from the epoch on, two events share a day string exactly when they share a UTC day |
| `Calendar.DayStringBeforeEpoch` | crates/keplor-store/src/archive.rs:345-353 | a concrete pair before the epoch for which that fails |
| `Calendar.FormatDayReadable` | crates/keplor-store/src/archive.rs:350-352 | ten characters: year, month and day in digits at fixed places, with dashes between |
| `Calendar.DayStringNamesDay` | crates/keplor-store/src/archive.rs:345-353 | read back, an event's day string is the valid date counted by its day number, and from the epoch on that of its UTC day, with day 0 the first of January 1970 |
| `Manifests.ManifestStore.constructor` | crates/keplor-store/src/kdb_store/manifests.rs:87-109 | opening the log rebuilds the index that replaying its lines gives |
| `Manifests.ManifestStore.Insert` | crates/keplor-store/src/kdb_store/manifests.rs:112-130 | appends one record and keeps index equal to replay; an error changes neither |
| `Manifests.ReplayPartitions` | crates/keplor-store/src/kdb_store/manifests.rs:87-109 | the replayed index holds, per user and day, exactly the recorded manifests in log order |
| `Manifests.TornLinesAreSkipped` | crates/keplor-store/src/kdb_store/manifests.rs:92-101 | blank or unparseable lines at the end change nothing |
| `Manifests.ManifestStore.AnyOverlapping` | crates/keplor-store/src/kdb_store/manifests.rs:134-148 | true if and only if some recorded manifest of that user (or any) overlaps the window |
| `Manifests.OverlapMeansMeetingIff` | crates/keplor-store/src/kdb_store/manifests.rs:134-148 | for every manifest, overlapping means that some instant lies in its range and in the window, if and only if the window is not inverted |
| `Archive.GroupEvents` | crates/keplor-store/src/archive.rs:330-342 | one group per key that occurs, each exactly the events of that key in order |
| `Archive.ArchiveOldEvents` | crates/keplor-store/src/archive.rs:93-186 | the chunks hold exactly the fetched events, each in a non-empty chunk of its own user and day, of which only the last may be short of a batch; archived, files and bytes count the chunks that were moved, failed those not archived, each read off the chunks' fates, and together they count what was fetched |
| `Archive.SerialiseChunk` | crates/keplor-store/src/archive.rs:204-218 | the object holds the chunk, ids are the chunk's in order, and the time range is the tightest that covers it |
| `Archive.KeyDeterminesId` | crates/keplor-store/src/archive.rs:224-231 | whatever user and day contain, two objects share a key only if they share an archive id |
| `Archive.ListingFindsPartition` | crates/keplor-store/src/archive.rs:224-231 | listing below `user_id=…/day=…/` finds exactly that partition's objects, for users and days without a slash |
| `Archiver.Archiver.ArchiveChunk` | crates/keplor-store/src/archive.rs:196-263 | nothing is recorded unless the upload was confirmed; success exactly when both steps succeed; the manifest describes the uploaded object, with the tightest time range and the bytes uploaded |
| `Archiver.FailedUpload` | crates/keplor-store/src/archive.rs:234-237 | a chunk whose upload fails is the protocol's failed-upload step, and the chunk is skipped |
| `Archiver.FailedManifest` | crates/keplor-store/src/archive.rs:234-251 | a chunk whose manifest fails is the upload step followed by the failed-manifest step: an object without a record |
| `Archiver.UploadedAndRecorded` | crates/keplor-store/src/archive.rs:196-263 | a successful `archive_chunk` is the protocol's upload step followed by its manifest step |
| `Archiver.Tombstoned` | crates/keplor-store/src/archive.rs:117-134 | a chunk archived and then deleted, in all engines or in some before an error, is upload, manifest and delete step |
| `Archiver.Archiver.ArchiveAndDelete` | crates/keplor-store/src/archive.rs:116-165 | whatever fails, the loop body for one chunk is a path of the protocol; its outcome is decided by what failed: upload or manifest, else an engine on the deletion, else nothing |
| `Archiver.PathIsSafe` | crates/keplor-store/src/archive.rs:93-263 | whatever was visible or archived before any steps of the protocol is visible or archived after them |
| `Archiver.Archiver.RunCycle` | crates/keplor-store/src/archive.rs:93-190 | a whole cycle of the code, with any failures, is a path of the protocol from idle to idle, so it loses no event; archived, files and bytes are those of the chunks uploaded, recorded and deleted, failed those of the chunks whose upload or manifest failed, and together they count what was fetched |
| `ArchiveProtocol.InvStep` | crates/keplor-store/src/archive.rs:93-263 | every step, including partial deletes, failed uploads that stored the object, and restarts, keeps the protocol's invariant |
| `ArchiveProtocol.NothingIsLost` | crates/keplor-store/src/archive.rs:93-263 | in every run, an event that was ever visible is from then on visible or in an uploaded object that a durable manifest names |
| `ArchiveProtocol.IndexSurvivesRestart` | crates/keplor-store/src/kdb_store/manifests.rs:87-130 | in every reachable state the index is what replaying the log gives, so a restart changes nothing in it |
| `ArchiveProtocol.ArchivedIsFindable` | crates/keplor-store/src/kdb_store.rs:679-690 | a window that contains an archived event overlaps the manifest whose object holds it, with and without its user |
| `ArchiveProtocol.ArchivedUnderUserAndDay` | crates/keplor-store/src/archive.rs:240-251 | with the archiver's grouping, that manifest carries the event's own user (or `_none`) and day string |
| `ArchiveProtocol.FetchedChunksStartACycle` | crates/keplor-store/src/archive.rs:102-119 | chunks cut from visible events may start a cycle of the protocol |
| `Pricing.ComputeCost` | crates/keplor-pricing/src/compute.rs:199-272 | the charges added in order with saturation; for prices that are not negative exactly min(i64::MAX, the bill), which the next two rows determine |
| `Pricing.OneMoreUnitCosts` | crates/keplor-pricing/src/compute.rs:199-332 | one more unit of any of the eleven counters costs its list price, in the model's own fields and the options: batch before above-200k before an hour's cache before the base price, each absent price with its own fallback; cached tokens apart for Anthropic and Bedrock, a moved input token for the others |
| `Pricing.NothingUsedCostsNothing` | crates/keplor-pricing/src/compute.rs:199-272 | no usage costs nothing, so the list prices determine every bill |
| `Pricing.SaturatingIsCapped` | crates/keplor-pricing/src/compute.rs:199-332 | at non-negative rates saturating each product and each sum only caps the exact bill |
| `Pricing.CachedReadCosts` | crates/keplor-pricing/src/compute.rs:214-240 | one more cached read adds the cache rate for Anthropic and Bedrock; for the others it also takes a token off the input rate while the prompt has one left |
| `Pricing.LongCacheCosts` | crates/keplor-pricing/src/compute.rs:315-327 | an hour's cache changes the bill by the difference of the two write rates per token written, for Anthropic and Bedrock only |
| `Pricing.ReasoningIsOutput` | crates/keplor-pricing/src/compute.rs:242-244 | without a reasoning rate, reasoning tokens cost what as many output tokens cost |
| `Pricing.BedrockIsBilledAsAnthropic` | crates/keplor-pricing/src/compute.rs:147-172 | for every model, usage and option, Bedrock is billed as Anthropic |
| `Pricing.UsageCounters.Merge` | crates/keplor-core/src/usage.rs:65-80 | every counter becomes the sum capped at u32::MAX |
| `Pricing.MergedBill` | crates/keplor-core/src/usage.rs:65-80 | the exact bill of merged usage never exceeds the parts' sum; without 32-bit saturation it is below it by exactly the prompt tokens that one part's spare cache reads hide |
| `Pricing.MergingNeverCostsMore` | crates/keplor-pricing/src/compute.rs:214-240 | pricing merged usage never exceeds the saturating sum of pricing the parts |
| `Pricing.MergingCostsTheSame` | crates/keplor-pricing/src/compute.rs:214-240 | without 32-bit saturation it equals that sum if and only if nothing is hidden, hidden tokens are free, or the bill is at the cap |
| `Pricing.NothingHidden` | crates/keplor-pricing/src/compute.rs:214-240 | nothing is hidden exactly for Anthropic and Bedrock, or when both parts are on the same side of "cache reads at most the prompt" |
| `Pricing.StreamBill` | crates/keplor-core/src/usage.rs:61-80 | the same over a whole stream of chunks: never more than the chunks' bills, and equal for Anthropic and Bedrock up to 32-bit saturation |
| `Pricing.IngestedNeverSaturates` | crates/keplor-server/src/validate.rs:96-116 | validated usage at rates up to 150·10^9 nanodollars is billed exactly |
| `Money.Sum` | crates/keplor-core/src/cost.rs:113-118 | exact while the magnitudes fit, and the capped true sum when nothing is negative |
| `Catalog.BuildIndex` | crates/keplor-pricing/src/catalog.rs:105-159 | the index is the fold of the loop body over the order the hash map yields; in every order it holds exactly the names of the priced entries, each at the price of an entry it names, and of one whose canonical key it is if there is one |
| `Catalog.LookupAgreesWithScan` | crates/keplor-pricing/src/catalog.rs:236-252 | the two probes find a name if and only if it, or it without one date suffix, names some priced entry |
| `Catalog.PriceBelongsToANamedEntry` | crates/keplor-pricing/src/catalog.rs:236-252 | the price found belongs to an entry that the probed name names |
| `Catalog.IndexedIffRated` | crates/keplor-pricing/src/catalog.rs:111-156 | a name is indexed if and only if it is one of an entry that is not the sample, parses, and has an input or an output rate |
| `Catalog.LowerAlike` | crates/keplor-pricing/src/catalog.rs:42-44 | two names become the same key if and only if they differ in ASCII case only |
| `Catalog.CanonicalKeyGetsItsOwnPrice` | crates/keplor-pricing/src/catalog.rs:135-136 | a canonical key that no other entry shares up to case gets its own price, in every order |
| `Catalog.OrderDecidesExactlyBetweenRivals` | crates/keplor-pricing/src/catalog.rs:111-156 | two orders give a name different prices if and only if two entries that may price it have different prices; every order resolves the same names |
| `Catalog.FirstRivalWins` | crates/keplor-pricing/src/catalog.rs:138-155 | a name that is nobody's canonical key goes to the first entry visited that has it |
| `Catalog.LastNamesakeWins` | crates/keplor-pricing/src/catalog.rs:135-136 | a canonical key shared up to case goes to the last such entry visited |
| `AliasIndex.FoldedPrice` | crates/keplor-pricing/src/catalog.rs:111-156 | for any entries and order, a name is indexed exactly when a visited entry has it, at the price of the entry those two rules pick |
| `AliasIndex.RivalCanWin` | crates/keplor-pricing/src/catalog.rs:111-156 | for each entry that may price a name some order of the whole document gives the name its price |
| `Catalog.BothOrdersOfTwoRivals` | crates/keplor-pricing/src/catalog.rs:146-155 | the loop itself on two providers' entries with a common unprefixed name: each order gives the name another price |
| `Catalog.StripDateIsExact` | crates/keplor-pricing/src/catalog.rs:263-285 | stripping yields a base if and only if the name is that non-empty base followed by one of the two date forms; there is at most one |
| `Catalog.DateForms` | crates/keplor-pricing/src/catalog.rs:262-285 | the two suffixes, piece by piece: a dash, four digits, two and two, with dashes between or without |
| `Catalog.NamesOfIsExact` | crates/keplor-pricing/src/catalog.rs:135-155 | the names the loop computes are exactly the key, the key without date, without provider prefix, and without both |
| `RateLimit.RateLimiter.TryAcquire` | crates/keplor-server/src/rate_limit.rs:59-83 | the call updates this key's own bucket by one refill and one attempt, and touches no other key |
| `RateLimit.TokensStayInRange` | crates/keplor-server/src/rate_limit.rs:62-80 | tokens stay within 0 and the burst through every sequence of calls |
| `RateLimit.LimiterBound` | crates/keplor-server/src/rate_limit.rs:59-92 | under any traffic on any keys and any hash, no window of length T grants a key more than burst + rate·T |
| `RateLimit.RefusedExactlyWhenSpent` | crates/keplor-server/src/rate_limit.rs:59-92 | from a fresh limiter, under any traffic, a key's call is refused if and only if, since some call of that key, it was granted more than burst - 1 plus rate times the time since |
| `RateLimit.BurstIsGranted` | crates/keplor-server/src/rate_limit.rs:66-68 | so a key's first burst calls are all granted, however fast they come |
| `RateLimit.KeysAreIndependent` | crates/keplor-server/src/rate_limit.rs:59-92 | sharding and other keys' calls never change a key's outcomes |
| `RateLimit.RefusedCallsAreTransparent` | crates/keplor-server/src/rate_limit.rs:66-82 | refused calls leave no trace: refilling in steps is refilling once |
| `RateLimit.WaitIsExact` | crates/keplor-server/src/rate_limit.rs:70-82 | after a refusal with wait w, whatever refused calls come between, the key is granted exactly from w on, if and only if the burst is at least one |
| `RateLimit.RetryAfterSuffices` | crates/keplor-server/src/rate_limit.rs:110-117 | waiting the rounded-up `Retry-After` of section 10.2.3 of RFC 9110 suffices |
| `RateLimit.RetryAfterIsLeast` | crates/keplor-server/src/rate_limit.rs:110-117 | and no smaller whole number of seconds covers the wait |
| `RateLimit.ZeroBurstRefusesAll` | crates/keplor-server/src/rate_limit.rs:59-82 | a zero burst refuses every call |
| `Idempotency.IdempotencyCache.Get` | crates/keplor-server/src/idempotency.rs:49-61 | a hit is the response of the key's latest insert, made less than one TTL ago; a miss means no such insert, or at least per-shard-capacity other keys of the shard used since; after a miss the key is gone |
| `Idempotency.IdempotencyCache.Insert` | crates/keplor-server/src/idempotency.rs:64-69 | records the insert and keeps the invariant |
| `Idempotency.GetKeeps` | crates/keplor-server/src/idempotency.rs:49-61 | the same for one shard, for every hash function and history |
| `Idempotency.PutKeeps` | crates/keplor-server/src/idempotency.rs:64-69 | inserting keeps the shard's relation to the history, eviction included |
| `Idempotency.ElsewhereKeeps` | crates/keplor-server/src/idempotency.rs:74-78 | an operation on a key of another shard changes nothing a shard promises |
| `Idempotency.EvictedWasOutlived` | crates/keplor-server/src/idempotency.rs:64-69 | an evicted key was outlived by a full shard of other keys used after it |
| `Idempotency.IdempotencyCache.SizeIsBounded` | crates/keplor-server/src/idempotency.rs:38-43 | never more than 16 times the per-shard capacity in all |
| `Pipeline.WriteMany` | crates/keplor-store/src/batch.rs:170-200 | one result per event in input order; unsent or unanswered ones are `ChannelClosed` |
| `Pipeline.IngestBatchDurable` | crates/keplor-server/src/pipeline.rs:255-338 | one result per position under validation errors, partial failure, timeout and a full database; rejected inputs keep their error; over any run of the batch writer, an `Ok` carries its own input's id, cost, model and provider and the event is durable in that state and every later one; the default is never used |
| `Pipeline.ReplyIsOwn` | crates/keplor-store/src/batch.rs:170-200 | in every run, an `Ok` reply to a send carries the id of the event that was sent, which is durable from then on |
| `Pipeline.Ingest` | crates/keplor-server/src/pipeline.rs:173-240 | a cache hit returns the remembered response and writes nothing; otherwise a full database and a rejected input answer with their own error, and only a successful write is remembered; over any run of the batch writer a fresh `Ok` carries the input's own id, cost, model and provider and its event is durable, and if every remembered response named a durable event before the call, every one does after it, and so does the one returned |
| `Pipeline.BackedLater` | crates/keplor-server/src/pipeline.rs:173-240 | remembered responses that name durable events do so at every later moment of the writer's run |

## Left out

- keplordb: write-ahead log files, segment format, bloom filters and the rollup store; only the behaviour stated in `Engines` is used.
- Read-side engine errors: `query`, `export_events` and the rollup queries return the first engine error; the model has no failing reads.
- Segment garbage collection and retention loops: they delete data on purpose, so the archive invariant speaks of runs without them and without user erasure.
- Sorting and paging of rollups and stats: ties are left in hash-map order, so nothing holds across pages; the cut at u32::MAX rows inside `aggregate_stats` is not modelled either.
- `Rollups.AggregateStats`: says nothing about the cost when some rollup's cost is negative, because saturation then depends on the order of the hash map; counters add in two's complement as in a release build, where a debug build stops on overflow.
- `BatchWriter::shutdown` and task abort: the senders stay alive during its wait, so only the channel-close path is modelled.
- Tombstones during a batch-writer run: `BatchTheorems.CheckpointPublishes` states that the event is in its tier's segments.
- One event per idempotency key: lookup and insert are separate steps around the write, so only the cache's own contract and the single call are stated.
- `Pipeline.IngestBatchDurable`: validation and event building (`process_event`) are a parameter, one outcome per input.
- Dollar-to-nanodollar conversion and the geo multiplier (f64; the catalogue never sets the multiplier), and model names outside ASCII, on which slicing by byte offset can panic.
- `ErrorJson.ParsePrinted`: the parser reads flat objects of texts and unsigned integers without white space, which is all the printer writes; other documents serde_json would accept are refused.
- Metadata documents, ULIDs and IP addresses are printed and parsed by libraries; the row codec assumes that their parsers invert their printers, which never print an empty text.
- How the engine applies a row filter is keplordb's; `Filters` states what the store relies on. Queries of the store take predicates on events.
- `query_events_for_archive`: the fetch and its sort; a cycle starts from any visible events.
- `ManifestStore::list` and `summary`.
- A torn manifest line without a newline followed by another insert: the two merge into one unparseable line; inserts are atomic here, as the log's own description says.
- Object-path normalisation of the S3 client, compression, and the JSON lines inside an object: an object is its events.
- Rotator and flush timing: the steps may happen at any moment; that a step does happen is not claimed, only that it can.
- HTTP routing, authentication, provider matching and classification, configuration, metrics, CLI.
