# Ledger history in stellar-rpc: a verified model

stellar-rpc ingests the ledgers of a Stellar network into a bounded SQL store and answers paged queries over it.
Many encodings and indexes have to agree with one simple thing: the history of ingested ledgers. This project models
them together in Dafny and proves that they do, or exactly when they do. `dafny verify dfyconfig.toml` checks it.

## What is modelled

- **Events and paging.** `Cursors` and `DecimalText` hold the event cursor, its packed TOID (SEP-35) and its text.
  `Chain` describes ledgers and the events they give rise to; `EventStore` the table keyed by cursor text.
  `EventFilters` and `EventPrefilter` relate the SQL prefilter to the filters themselves. `EventPages` is the
  `getEvents` handler, `EventAnswers` what its pages hold in the request's own numbers, `EventPositions` which event
  stands where, `EventPaging` a client that pages while ledgers are committed and trimmed, `EventChain` a chain
  of pages over a fixed store.
- **Storage over the life of the service.** `Tables`, `Retention`, `Migrations` and `Storage` describe the three tables,
  trimming and the startup migrations; `NodeRuns` is the state machine of startups and ingestion attempts, which may
  fail at any point, and stops, and `NodeResults` what holds over all its runs. `Ingestion` and `Initialization` are
  the step-by-step code, proved against it. `NodePaging` connects the service with the paging client, `LatestCache` is
  the latest-ledger cache under concurrency.
- **Fee statistics.** `BucketWindow` is the circular buffer, `FeeBuckets` what a ledger contributes, `FeeStats` the mode
  and the percentiles.
- **Transactions and ledgers.** `TransactionLookup`, `TransactionPages`, `TransactionAnswers`, `TransactionChain` and
  `LedgerPages` are the lookup by hash and the paging of `getTransactions` and `getLedgers`, the latter with the datastore.
- **Request limiters.** `BacklogQueue` and `DurationLimiter` are step systems; every schedule of their atomic steps,
  timers and handler outcomes is covered. `BacklogTraces` and `DurationTraces` record the steps and say what they led to.

## Assumptions

- An SQL table is a map, a range query answers in key order, and text is compared bytewise. `BatchGetLedgers` rows
  come in sequence order, and a read transaction sees the snapshot of its beginning.
- The ledger backend returns the ledger it was asked for. A transaction reader is positional: after `Seek(i)` the next
  `Read` gives item i + 1. XDR encodings are injective, so values are identified with them; strkey likewise.
- Window sizes and page limits are at least 1; the limits of `getLedgers` are at most 2^31 - 1, so that its 32-bit
  arithmetic does not wrap. Ledger sequences are at least 2 and below 2^31 - 1, a ledger has fewer than 2^20
  transactions and a transaction fewer than 2^32 events. Fewer than 2^64 requests are under way at a time.
- The first `getEvents` request of a paging client has no end ledger, or one after its start ledger; a single page is
  described for any.
- Errors of disk, backend and encoding are nondeterministic: each step of startup and ingestion may meet one. What
  does not fail takes effect as a whole. Timers are events that may come at any time.
- A database is found either with a guard set, and then its table covers some newest ledgers, or with the guard unset;
  then the event table is empty, and the transaction table holds anything.

## What the code does that one might not expect

- The SQL prefilter loses matches for mixed filter lists, for example one filter with contract ids beside one
  without. `EventPrefilter.PrefilterLossless` gives the exact class of lists for which it does not.
- `getEvents` reads the latest ledger, the oldest ledger and the events in three separate reads. A commit that trims
  the start ledger between range check and scan makes the page skip events without an error
  (`EventPaging.RaceSkips`); `EventPaging.ReceivedExactly` says when a client has missed nothing.
- Fees reach the in-memory windows before the database commits. When an attempt fails in between on a non-empty
  database, the windows are one ledger ahead and refuse that ledger for good: ingestion makes no progress until the
  process restarts (`NodeResults.FailureLeads`, `NodeResults.AheadForever`). `NodeResults.FeesInStep` says exactly when
  windows and database agree, also after failures on an empty database.
- When a guard write fails at the end of a startup, the loop over the migrations rolls back and goes on. The next guard
  is then written outside any transaction: it stays, its data does not, and the migration never runs again.
  `Storage.StartupEnds` and `NodeResults.SkippedWhen` say exactly when that happens, `NodeResults.LeakRun` is such a run.
- `GetMigrationLedgerRange` covers one ledger more than its window (`Storage.RangeHoldsOneMore`). A data migration
  started with a smaller window than the stored range leaves the older ledgers without lookup rows
  (`NodeResults.MigrationReach`); they stay so if the next start has a larger window again.
- A short `getTransactions` page that starts past all transactions of the latest ledger returns a cursor at that
  ledger's beginning, and one that starts past the latest ledger returns `0`. Clients should stop at the first short
  page, for which `TransactionChain.ChainHandsOut` gives completeness.
- A `getEvents` cursor at the end of a window has the largest event index; resuming wraps it to 0, at the largest
  transaction and operation. That is harmless only because every stored event has operation 0
  (`EventPaging.WrapHarmless`).

## Model

| member | source | states |
|---|---|---|
| Cursors.StringOrder | protocol/cursor.go:42-48 | The byte order of the printed cursors is the order of Cmp, and two cursors print alike only if they are equal |
| Cursors.StringShape | protocol/cursor.go:42-48 | A printed cursor is 19 digits of ledger * 2^32 + transaction * 2^12 + operation, a dash, and 10 digits of the event index |
| Cursors.ParseString | protocol/cursor.go:71-96 | Parsing a printed cursor gives the cursor back |
| Cursors.ParsedInRange | protocol/cursor.go:71-96 | Whatever text is accepted, the cursor it gives fits the TOID layout and can be printed again |
| Cursors.RankOrder | protocol/cursor.go:112-123 | Cmp is a total order on cursors, with equality only for equal cursors |
| Cursors.ToidRoundTrip | protocol/cursor.go:42-48 | Ledger, transaction and operation can be read back from the packed TOID |
| Chain.EventsOrdered | cmd/stellar-rpc/internal/db/event.go:102-183 | The ids given to the events of consecutive ledgers strictly increase, all with operation 0 and within their ledger |
| Ingestion.TransactionEventsIntoDiagnosticEvents | cmd/stellar-rpc/internal/db/event.go:56-80 | Operation events stand in only when there is no diagnostic event; transaction events always follow |
| EventPositions.DiagnosticsFirst | cmd/stellar-rpc/internal/db/event.go:56-80 | A recorded diagnostic event keeps its index, and no operation event counts beside it |
| EventPositions.OperationsFirst | cmd/stellar-rpc/internal/db/event.go:56-80 | Without diagnostic events, the j-th event of an operation stands behind those of the operations before it, in a successful contract call |
| EventPositions.TransactionLast | cmd/stellar-rpc/internal/db/event.go:56-80 | The transaction's own events stand behind all of these, in their order |
| EventPositions.EventsAre | cmd/stellar-rpc/internal/db/event.go:102-183 | The stored events are exactly the events of successful transactions, each under its ledger, application order from 1 and index, with its ledger's close time and its transaction's hash |
| Ingestion.WriteTx.EventRows | cmd/stellar-rpc/internal/db/event.go:140-177 | One row per event, keyed by the printed cursor of its position |
| Ingestion.WriteTx.InsertEvents | cmd/stellar-rpc/internal/db/event.go:82-186 | The transaction-by-transaction inserts succeed exactly when no row of the ledger collides with a stored one, and then add exactly the ledger's rows |
| Tables.InsertEventsOfHold | cmd/stellar-rpc/internal/db/event.go:82-186 | On a table that holds the events of a history, the events of the next ledger never collide, and afterwards it holds those of the longer history |
| EventStore.TrimHolds | cmd/stellar-rpc/internal/db/event.go:196-209 | Deleting by key text removes exactly the events of the ledgers before the cutoff |
| EventStore.QueryIds | cmd/stellar-rpc/internal/db/event.go:229-254 | The range query answers with the selected keys, each once, in text order |
| EventStore.QueryAnswers | cmd/stellar-rpc/internal/db/event.go:229-254 | On the table of a history, the answer is the prefiltered events between the two cursors, in event order |
| EventPrefilter.CombineContractIds | cmd/stellar-rpc/internal/methods/get_events.go:35-53 | Exactly the contract ids named by some filter are combined |
| EventPrefilter.CombineEventTypes | cmd/stellar-rpc/internal/methods/get_events.go:55-69 | Exactly the event types named by some filter are combined |
| EventPrefilter.CombineTopics | cmd/stellar-rpc/internal/methods/get_events.go:71-93 | A filter without topics cancels the topic condition; otherwise each position collects exactly the concrete segments the filters put there |
| EventPrefilter.PassesAsKept | cmd/stellar-rpc/internal/db/event.go:236-254 | What the combined SQL conditions let through, said in terms of the filters alone |
| EventPrefilter.PrefilterLossless | cmd/stellar-rpc/internal/methods/get_events.go:35-93 | The prefilter keeps every event that Matches accepts if and only if contract ids are set in all filters or none, event types in all or none unless every type is named somewhere, and, when every filter has topics, either all topic filters have a concrete segment or none has; for any other list some event is lost |
| EventPrefilter.MixedContractsLose | cmd/stellar-rpc/internal/methods/get_events.go:35-53 | A filter without contract ids beside one with them: an event that matches is not let through |
| EventPrefilter.MixedKindsLose | cmd/stellar-rpc/internal/methods/get_events.go:55-69 | The same for event types |
| EventPrefilter.MixedTopicsLose | cmd/stellar-rpc/internal/methods/get_events.go:71-93 | The same for topic filters with and without a concrete segment |
| EventFilters.TopicMatchesReads | protocol/get_events.go:292-317 | Comparing lengths and then position by position decides exactly what the filter says when read from left to right, a trailing double star standing for any number of topics |
| EventFilters.ContractChoice | protocol/get_events.go:208-235 | A filter with contract ids matches if and only if it does so with one of them alone |
| EventFilters.ContractChosen | protocol/get_events.go:208-235 | With one contract id alone, it matches exactly the events that carry this id and that it would match without the id |
| EventFilters.TypeChoice | protocol/get_events.go:208-235 | The same for event types: the filter is the union of its choices |
| EventFilters.TypeChosen | protocol/get_events.go:208-235 | One type alone asks for events of that type |
| EventFilters.TopicChoice | protocol/get_events.go:208-235 | The same for topic filters |
| EventFilters.TopicChosen | protocol/get_events.go:208-235 | One topic filter alone asks for events whose topics it reads |
| EventFilters.ListChoice | protocol/get_events.go:194-204 | A list matches if and only if it is empty or one of its filters alone does |
| EventFilters.ListLimits | protocol/get_events.go:163-192 | Which filter lists are accepted: at most five filters, each with at most five contract ids and five topic filters, and so on |
| EventPaging.ReceivedExactly | cmd/stellar-rpc/internal/methods/get_events.go:105-226 | Over every interleaving of pages and ingestion commits: what the client has received is exactly the events of the whole history from its start to its cursor that pass prefilter and filters, in order, if and only if no page overlooked one that was trimmed while it was being made |
| EventPaging.TrimmedStartRefused | cmd/stellar-rpc/internal/methods/get_events.go:143-152 | A page whose start ledger has been trimmed when it reads the oldest ledger is refused, whatever is committed before its scan, and hands out nothing |
| EventPages.ScanRows | cmd/stellar-rpc/internal/methods/get_events.go:173-180 | The scan keeps the first matching rows, up to the limit, and stops there |
| EventPages.ScanEvents | cmd/stellar-rpc/internal/db/event.go:219-335 | Prefilter, text-ordered scan, re-check and limit together are the first events of the window that the request asks for |
| EventPages.GetEvents | cmd/stellar-rpc/internal/methods/get_events.go:105-226 | The handler answers with the page that the stored events determine, and with the error of the first check that fails |
| EventAnswers.PageHolds | cmd/stellar-rpc/internal/methods/get_events.go:105-187 | An accepted page holds the first stored events, as many as the client's limit or the default, that come from the start on, lie in stored ledgers less than 10000 after the start and before the requested end ledger, and pass prefilter and filters |
| EventAnswers.PageBounds | cmd/stellar-rpc/internal/methods/get_events.go:133-138 | Nothing handed out lies at or after the requested end ledger, 10000 ledgers or more after the start, or past the latest ledger |
| EventAnswers.ShortPageComplete | cmd/stellar-rpc/internal/methods/get_events.go:133-187 | A page that is not full leaves none of these events out |
| EventAnswers.PageEnds | cmd/stellar-rpc/internal/methods/get_events.go:204-226 | A full page's cursor is the id of its last event, any other's the largest cursor of the greatest ledger it could show; latest and oldest ledger are those of the range; a page is never longer than its limit |
| EventAnswers.PageRefused | cmd/stellar-rpc/internal/methods/get_events.go:105-152 | Which requests are refused, and with which error |
| EventPaging.PageStretch | cmd/stellar-rpc/internal/methods/get_events.go:204-215 | A page is a stretch of the matching events from its start to its cursor, and it is full or reaches the end of its window |
| EventPaging.WrapHarmless | cmd/stellar-rpc/internal/methods/get_events.go:124-128 | No stored event lies between the wrapped restart position of a ledger-end cursor and the next ledger |
| EventPaging.ResumesAfter | cmd/stellar-rpc/internal/methods/get_events.go:120-128 | After either kind of cursor, nothing stored lies between the end of the page and where the next one starts |
| EventPaging.DueIsMatching | protocol/get_events.go:194-204 | For filter lists of the lossless class, what is due is exactly what Matches accepts |
| EventPaging.StoredStartOverlooksNothing | cmd/stellar-rpc/internal/methods/get_events.go:143-152 | A page whose start ledger is still stored at its scan overlooks nothing |
| EventPaging.NothingSkipped | cmd/stellar-rpc/internal/methods/get_events.go:105-226 | As long as the start ledger of each page stays stored until its scan, nothing is ever missed |
| EventPaging.RaceSkips | cmd/stellar-rpc/internal/methods/get_events.go:113-187 | A run in which a commit between the range check and the scan makes a page skip an event without an error |
| EventChain.ChainCompletes | cmd/stellar-rpc/internal/methods/get_events.go:105-226 | On a fixed store the chain of pages ends, its last page is short and reaches the latest ledger, and the pages together are all that remained |
| EventChain.RemainingIsFullScan | cmd/stellar-rpc/internal/methods/get_events.go:173-180 | What remained is one filtered scan of all stored events from the start |
| BucketWindow.LedgerBucketWindow.Append | cmd/stellar-rpc/internal/ledgerbucketwindow/ledgerbucketwindow.go:33-61 | The circular buffer takes a bucket as the sliding window does: it grows, or drops and returns the oldest one; a bucket out of sequence is refused and changes nothing |
| BucketWindow.LedgerBucketWindow.Get | cmd/stellar-rpc/internal/ledgerbucketwindow/ledgerbucketwindow.go:105-112 | Buckets are read oldest first, through every wrap of the buffer |
| BucketWindow.LedgerBucketWindow.GetLedgerRange | cmd/stellar-rpc/internal/ledgerbucketwindow/ledgerbucketwindow.go:85-102 | The oldest and the newest bucket, if there is one |
| BucketWindow.WindowIsLastAccepted | cmd/stellar-rpc/internal/ledgerbucketwindow/ledgerbucketwindow.go:33-61 | After any sequence of offered buckets, the window is the last ones of those accepted, with consecutive sequence numbers |
| BucketWindow.NextAttempt | cmd/stellar-rpc/internal/ledgerbucketwindow/ledgerbucketwindow.go:33-61 | After any attempts, the next bucket is refused exactly when it does not continue the last accepted one, with both numbers in the error |
| FeeStats.ModeOf | cmd/stellar-rpc/internal/feewindow/feewindow.go:72-95 | The scan of the sorted fees finds the smallest value of greatest multiplicity |
| FeeStats.Percentile | cmd/stellar-rpc/internal/feewindow/feewindow.go:97-103 | The nearest-rank element is the least fee that at least p percent of the unsorted fees do not exceed; the index is in bounds |
| FeeStats.ComputeFeeDistribution | cmd/stellar-rpc/internal/feewindow/feewindow.go:67-122 | All published numbers mean what they say about the fees given, in whatever order they came; without fees everything is zero |
| FeeStats.DistributionUnique | cmd/stellar-rpc/internal/feewindow/feewindow.go:67-122 | The distribution depends on the multiset of fees only |
| FeeStats.DistributionAscends | cmd/stellar-rpc/internal/feewindow/feewindow.go:104-121 | Min <= P10 <= ... <= P99 <= Max |
| FeeStats.FeeWindow.AppendLedgerFees | cmd/stellar-rpc/internal/feewindow/feewindow.go:50-65 | The published distribution is always that of the window's ledgers, the stored buckets are untouched by the sort, and a refused ledger changes nothing |
| FeeStats.AllFeesConcat | cmd/stellar-rpc/internal/feewindow/feewindow.go:50-65 | The fees of a window are those of its buckets, one bucket after the other |
| FeeBuckets.BucketTells | cmd/stellar-rpc/internal/feewindow/feewindow.go:151-208 | A bucket tells its ledger's number and close time and has one fee for each transaction of its kind, in order |
| FeeBuckets.ClassicFeeIs | cmd/stellar-rpc/internal/feewindow/feewindow.go:189-190 | A classic fee f of n operations satisfies f * n <= charged < (f + 1) * n; there is none without operations |
| FeeBuckets.SorobanFeeIs | cmd/stellar-rpc/internal/feewindow/feewindow.go:170-187 | A Soroban fee is the charged fee without the resource fee, in 64-bit arithmetic; there is none when the meta does not tell |
| Ingestion.CollectFees | cmd/stellar-rpc/internal/feewindow/feewindow.go:151-194 | Fees go to the Soroban or the classic list by the kind of the transaction, in order |
| Ingestion.FeeWindows.IngestFees | cmd/stellar-rpc/internal/feewindow/feewindow.go:146-208 | A ledger is offered to the classic window first and then to the Soroban one; the first refusal ends it |
| FeeBuckets.FeesOutcome | cmd/stellar-rpc/internal/feewindow/feewindow.go:146-208 | Windows that hold the newest ledgers of a history take exactly the ledger that continues it, and refuse any other unchanged |
| Retention.TrimTxsSince | cmd/stellar-rpc/internal/db/transaction.go:126-138 | Trimming leaves exactly the rows of the ledgers from the cutoff on, also beside rows that were there before |
| Tables.InsertBeside | cmd/stellar-rpc/internal/db/transaction.go:107-117 | Beside such rows, too, an insert is refused exactly when a hash is already there |
| Tables.InsertTxsHold | cmd/stellar-rpc/internal/db/transaction.go:63-118 | The lookup rows of the next ledger join those of the indexed ones |
| Tables.InsertRefused | cmd/stellar-rpc/internal/db/transaction.go:107-117 | The insert is refused exactly when an indexed ledger already has one of the hashes |
| Retention.TrimEventsSince | cmd/stellar-rpc/internal/db/event.go:196-209 | Trimming leaves exactly the events of the ledgers from the cutoff on |
| Ingestion.WriteTx.InsertTransactions | cmd/stellar-rpc/internal/db/transaction.go:63-118 | All rows of the ledger, under outer and inner hashes, or an error on a collision |
| Ingestion.WriteTx.Commit | cmd/stellar-rpc/internal/db/db.go:293-326 | Disk and cache change together or not at all; an error after the commit does not undo it |
| TransactionLookup.GetTransactionByHash | cmd/stellar-rpc/internal/db/transaction.go:175-211 | The join on the hash and the positional reader answer with a stored transaction that has the hash, or that there is none |
| TransactionLookup.LookupIsScan | cmd/stellar-rpc/internal/db/transaction.go:175-211 | A lookup finds a transaction exactly when some stored one has that outer or inner hash, and returns one that has it; all of them are in that ledger |
| Storage.TrimmedHolds | cmd/stellar-rpc/internal/db/db.go:293-326 | The deletes of a commit keep exactly the ledgers from the cutoff on, with exactly their rows, in all three tables |
| Storage.GuardWritesEnd | cmd/stellar-rpc/internal/db/migration.go:107-115 | The guard writes leave the transaction open exactly when none fails, and the disk as it was exactly when none goes through after one that failed |
| Storage.StartupEnds | cmd/stellar-rpc/internal/daemon/daemon.go:385-456 | A startup succeeds exactly when streaming, every guard write and the commit do; a fatal one leaves the disk as it was if and only if it wrote no guard after a failed one |
| Storage.PendingGuards | cmd/stellar-rpc/internal/db/migration.go:155-180 | However the map is iterated, writing the guards of the pending migrations sets both |
| Initialization.MultiMigration.Commit | cmd/stellar-rpc/internal/db/migration.go:107-115 | Guard writes one by one, each of which may fail; a failure rolls the transaction back and later writes take effect at once; then the commit |
| Initialization.InitializeStorage | cmd/stellar-rpc/internal/daemon/daemon.go:385-456 | Startup as a whole comes to the end that its faults lead to, on disk, in the cache and in the fee windows |
| Storage.RowsBetween | cmd/stellar-rpc/internal/db/ledger.go:135-161 | The range query answers with the stored ledgers of the range, in order |
| Storage.WrittenHolds | cmd/stellar-rpc/internal/ingest/service.go:224-250 | The writes of the next ledger keep ledgers and lookup tables exact, and fail only on a repeated transaction hash |
| Storage.CutoffBounds | cmd/stellar-rpc/internal/db/ledger.go:252-263 | After trimming, as many of the newest ledgers stay as the window allows |
| Migrations.MergedIsHull | cmd/stellar-rpc/internal/db/migration.go:26-40 | The merged range is the least one that spans all non-empty ranges |
| Migrations.MergedOrderIndependent | cmd/stellar-rpc/internal/db/migration.go:84-90 | The merged range does not depend on the order of the migrations, and covers each of them |
| Migrations.AllAchieve | cmd/stellar-rpc/internal/db/migration.go:92-105 | One streamed ledger moves every migration whose range includes it on by that ledger, whatever the order |
| Migrations.StreamAchieves | cmd/stellar-rpc/internal/daemon/daemon.go:415-439 | After streaming, each migration has been applied exactly once to every streamed ledger of its range |
| Migrations.StreamSucceeds | cmd/stellar-rpc/internal/db/migration.go:92-105 | Streaming fails exactly when the transactions migration meets one hash in two ledgers |
| Storage.RangeHoldsOneMore | cmd/stellar-rpc/internal/db/migration.go:182-195 | The migration range holds the newest ledgers, one more than the window, if that many are stored |
| Storage.StreamedShare | cmd/stellar-rpc/internal/db/migration.go:84-90 | Streaming the merged range instead of a migration's own one gives it the same ledgers |
| Storage.StartupHolds | cmd/stellar-rpc/internal/daemon/daemon.go:385-456 | Startup builds the missing lookup tables for exactly the stored ledgers of the retention range, keeps the others, and fills both fee windows with the newest stored ledgers |
| Storage.StartupSucceeds | cmd/stellar-rpc/internal/daemon/daemon.go:385-494 | Startup succeeds exactly when the fee windows fit the retention window and no hash repeats while the transactions are still to be indexed |
| Initialization.GetMigrationLedgerRange | cmd/stellar-rpc/internal/db/migration.go:182-195 | The range reaches one ledger further back than the window, and the latest-ledger cache is filled on the way |
| Initialization.BuildMigrations | cmd/stellar-rpc/internal/db/migration.go:197-243 | Completed migrations are skipped; creating the transactions migration empties its table; the order is that of the map iteration |
| Initialization.MultiMigration.ApplicableRange | cmd/stellar-rpc/internal/db/migration.go:84-90 | The loop computes the merged range |
| Initialization.MultiMigration.Apply | cmd/stellar-rpc/internal/db/migration.go:92-105 | Every migration in range applies the ledger; any failure rolls the common transaction back and is reported |
| Initialization.StreamLedgers | cmd/stellar-rpc/internal/daemon/daemon.go:414-442 | The streaming loop, against the fold of all migrations over the ledgers |
| Ingestion.Service.GetNextLedgerSequence | cmd/stellar-rpc/internal/ingest/service.go:159-186 | One after the latest ledger, or the archive's current one for an empty database, once the backend is prepared; which error otherwise; the cache is filled on the way |
| NodeResults.StoredInterval | cmd/stellar-rpc/internal/db/db.go:293-326 | At every point of every run, with failures anywhere and windows reconfigured: the stored ledgers are one contiguous stretch ending at the newest committed one, and a lookup table whose guard is set holds exactly the rows of the stored ledgers from its floor on, for transactions beside what a skipped migration has left in place |
| NodeResults.TxRowsExact | cmd/stellar-rpc/internal/db/transaction.go:126-138 | A transaction table is exact for the stored ledgers if and only if what was left in place is exact for those before its floor |
| NodeResults.MigrationsOnce | cmd/stellar-rpc/internal/db/migration.go:117-180 | Across crashes and restarts, a guard that has come to be set was set by its migration taking effect once, or without it, never both; while the events guard is unset the event table is empty |
| NodeResults.SkippedWhen | cmd/stellar-rpc/internal/db/migration.go:107-180 | A migration is skipped exactly by a startup that has both to do, fails to write the first guard and writes the second |
| NodeResults.LeakRun | cmd/stellar-rpc/internal/db/migration.go:107-115 | Such a run: after the next startup the events guard is set, its migration has never run, and the events of the stored ledgers are missing |
| NodeResults.FeesInStep | cmd/stellar-rpc/internal/feewindow/feewindow.go:146-208 | At every point of every run, both windows hold exactly the newest stored ledgers if and only if they have taken no uncommitted ledger, or only such from before the first commit that enough stored ones have followed |
| NodeResults.FailureLeads | cmd/stellar-rpc/internal/ingest/service.go:206-212 | A commit that fails behind the fee windows, with ledgers stored, leaves them with a ledger that is not stored |
| NodeResults.AheadForever | cmd/stellar-rpc/internal/ingest/service.go:206-212 | From then on no attempt of the process commits anything |
| NodeResults.AttemptCommits | cmd/stellar-rpc/internal/ingest/service.go:188-222 | Without a fault, a ledger is committed exactly when the windows can continue with it and it repeats no indexed hash; in step they can always continue |
| NodePaging.ReadsSeen | cmd/stellar-rpc/internal/db/ledger.go:169-215 | In every run, the cached latest ledger and the oldest row that a page reads are those of the paging protocol, and the event table is if and only if no stored ledger before its floor has events |
| NodePaging.BuiltSeen | cmd/stellar-rpc/internal/db/ledger.go:169-215 | For a service that started from an empty database, the event table always is |
| Ingestion.Service.IngestLedgerCloseMeta | cmd/stellar-rpc/internal/ingest/service.go:224-250 | The writes in order and then the fee windows; nothing reaches the fee windows after a failed write |
| Ingestion.Service.Ingest | cmd/stellar-rpc/internal/ingest/service.go:188-222 | One ledger is one step of the state machine: all of it is committed, or nothing of it is on disk |
| Ingestion.Service.Run | cmd/stellar-rpc/internal/ingest/service.go:146-157 | The ingestion loop walks a path of the state machine, one step for each ledger it asks the backend for, and ends at the first error |
| NodeRuns.StepKeeps | cmd/stellar-rpc/internal/ingest/service.go:146-250 | Every startup, attempt and stop keeps the invariant of disk, cache, guards and fee windows |
| NodeResults.StepLedgers | cmd/stellar-rpc/internal/ingest/service.go:188-222 | A commit adds its ledger, keeps at most a window of ledgers and caches the newest; every other step leaves the ledgers alone |
| NodeResults.BuiltExact | cmd/stellar-rpc/internal/ingest/service.go:146-250 | A service that started from an empty database has exactly the transaction and event rows of its stored ledgers, always |
| NodeResults.MigrationReach | cmd/stellar-rpc/internal/db/migration.go:182-195 | A migration of an older database is exact if and only if no stored ledger before the configured window has transactions (events) |
| NodeResults.EventRowsExact | cmd/stellar-rpc/internal/db/event.go:196-209 | The same for events |
| NodePaging.StepSeen | cmd/stellar-rpc/internal/db/db.go:293-326 | A commit of the service is a commit of the paging protocol, and no other step is |
| LatestCache.StepKeeps | cmd/stellar-rpc/internal/db/db.go:141-167 | Every lock-protected step of any thread keeps lock discipline, cache and read transactions consistent |
| LatestCache.CacheRight | cmd/stellar-rpc/internal/db/db.go:308-320 | Under any interleaving, with the write lock free the cached ledger is unknown or the newest; a read transaction's cached ledger is unknown or the newest of its snapshot |
| LatestCache.AnswerWasNewest | cmd/stellar-rpc/internal/db/db.go:141-167 | Whoever asks for the latest ledger is told one that was the newest of the table at some point during the call |
| LatestCache.SnapshotWasNewest | cmd/stellar-rpc/internal/db/ledger.go:99-112 | A read transaction sees the table as it was at some point since it began |
| LatestCache.LaterTxKnows | cmd/stellar-rpc/internal/db/ledger.go:99-112 | Once the latest ledger is known, every read transaction that begins later knows the newest one of its snapshot without a query |
| LatestCache.UnansweredWhenEmpty | cmd/stellar-rpc/internal/db/db.go:141-167 | A lookup ends with an answer unless the table is empty |
| LatestCache.CacheGrows | cmd/stellar-rpc/internal/db/ledger.go:99-112 | Within a process neither cache nor table ever goes back |
| TransactionPages.ProcessTransactionsInLedger | cmd/stellar-rpc/internal/methods/get_transactions.go:77-178 | The transactions of one ledger join the page until it is full; the cursor is the last one seen |
| TransactionPages.CollectTransactions | cmd/stellar-rpc/internal/methods/get_transactions.go:217-235 | The loop over the ledgers; a start before the oldest ledger is an error, one after the latest finds nothing |
| TransactionPages.GetTransactions | cmd/stellar-rpc/internal/methods/get_transactions.go:182-245 | The handler answers with the page that the stored ledgers determine |
| TransactionAnswers.ListedAt | cmd/stellar-rpc/internal/methods/get_transactions.go:106-178 | The i-th transaction of a ledger is listed behind those of the ledgers before and the i before it, with its ledger's number and close time and the order i + 1 |
| TransactionAnswers.FirstPage | cmd/stellar-rpc/internal/methods/get_transactions.go:32-54 | Without a cursor, an accepted page is the first transactions, as many as the limit, of all those in the stored ledgers from startLedger on |
| TransactionAnswers.FirstPageCursor | cmd/stellar-rpc/internal/methods/get_transactions.go:90-104 | Its cursor packs the last transaction handed out when it is full, and the last one of the latest ledger otherwise |
| TransactionAnswers.FirstPageRefused | cmd/stellar-rpc/internal/methods/get_transactions.go:182-215 | Which requests without a cursor are refused, and with which error |
| TransactionAnswers.CursorPage | cmd/stellar-rpc/internal/methods/get_transactions.go:32-54 | With the cursor of any position, an accepted page is the first transactions after it, in its ledger and the following ones |
| TransactionAnswers.CursorPageRefused | cmd/stellar-rpc/internal/methods/get_transactions.go:182-235 | Which requests with such a cursor are refused, and with which error |
| TransactionChain.AfterTx | cmd/stellar-rpc/internal/methods/get_transactions.go:44-47 | What follows a transaction in the listing is what a page starting at the next application order lists |
| TransactionChain.ChainHandsOut | cmd/stellar-rpc/internal/methods/get_transactions.go:182-245 | With ingestion and trimming between the pages, following cursors up to the first short page hands out every transaction of the ledgers from the start to the latest exactly once, in order |
| TransactionAnswers.FirstChain | cmd/stellar-rpc/internal/methods/get_transactions.go:182-245 | The same from a first request, said with ledger numbers: a chain hands out the first of all transactions of the history from startLedger on, and with a short last page all of them |
| TransactionChain.ChainEnds | cmd/stellar-rpc/internal/methods/get_transactions.go:222-235 | On a fixed store the chain comes to a short page |
| TransactionChain.ShortPageResumes | cmd/stellar-rpc/internal/methods/get_transactions.go:90-104 | The page after a short one repeats the latest ledger's transactions if and only if the short page started in that ledger past all of them, and is otherwise empty |
| TransactionChain.BeyondLatestDeadEnd | cmd/stellar-rpc/internal/methods/get_transactions.go:217-223 | A page ends with cursor 0 if and only if it started past the latest ledger, and a request with that cursor is always refused |
| LedgerPages.GetRemote | cmd/stellar-rpc/internal/rpcdatastore/ledger_reader.go:61-85 | All ledgers of the range from the datastore, or an error if one is unavailable |
| LedgerPages.FetchLedgers | cmd/stellar-rpc/internal/methods/get_ledgers.go:161-246 | Whichever way the range lies to the oldest local ledger, the result is the network's ledgers from start to the end or the latest one; it fails exactly when a ledger is neither stored nor reachable |
| LedgerPages.GetLedgers | cmd/stellar-rpc/internal/methods/get_ledgers.go:41-109 | The handler answers with that stretch and the number of its last ledger as the cursor |
| LedgerPages.FirstPage | cmd/stellar-rpc/internal/methods/get_ledgers.go:41-133 | Without a cursor: exactly which requests are accepted, with and without a datastore, and that the page begins with startLedger and has as many ledgers as were asked for or all up to the latest |
| LedgerPages.PageIsStretch | cmd/stellar-rpc/internal/methods/get_ledgers.go:85-98 | An accepted page is never empty and runs from the start to min(end, latest) |
| LedgerPages.FollowingStarts | cmd/stellar-rpc/internal/methods/get_ledgers.go:135-151 | A cursor leads to the ledger after it, or is refused when that one is out of range |
| LedgerPages.ChainCovers | cmd/stellar-rpc/internal/methods/get_ledgers.go:85-107 | However the database's range moves between pages, accepted pages cover the ledgers from the first start to the last cursor without gap or overlap |
| LedgerPages.ChainReaches | cmd/stellar-rpc/internal/methods/get_ledgers.go:111-133 | On a fixed store with every ledger within reach, following cursors reaches the latest ledger |
| DurationLimiter.NeverBlocks | cmd/stellar-rpc/internal/network/requestdurationlimiter.go:141-157 | At no point of any schedule does the handler's goroutine block on the completion channel |
| BacklogQueue.StepKeeps | cmd/stellar-rpc/internal/network/backlogQ.go:65-94 | Every atomic step of any request keeps counter, gauge, flag and log count consistent |
| BacklogQueue.LimiterSound | cmd/stellar-rpc/internal/network/backlogQ.go:65-94 | The pending counter is admitted plus not yet undone rejected requests and never wraps; at most the limit are admitted; there is at most one log line more than flag resets |
| BacklogQueue.RejectedWhenFull | cmd/stellar-rpc/internal/network/backlogQ.go:102-112 | A request is turned away exactly when admitted and not yet undone requests fill the limit |
| BacklogQueue.Quiescent | cmd/stellar-rpc/internal/network/backlogQ.go:85-93 | With no request under way, counter and gauge are back at zero |
| BacklogTraces.NextOfRequest | cmd/stellar-rpc/internal/network/backlogQ.go:65-94 | Which way every request takes: over the limit it undoes its count, tries the flag and logs if it found it clear; otherwise it goes through gauge, handler, both counts again and the reset |
| BacklogTraces.FirstOfRequest | cmd/stellar-rpc/internal/network/backlogQ.go:65-71 | A request begins with counting itself |
| BacklogTraces.FlagMeans | cmd/stellar-rpc/internal/network/backlogQ.go:75-93 | The flag is set if and only if some request has tried it since it was last reset |
| BacklogTraces.LogsCounted | cmd/stellar-rpc/internal/network/backlogQ.go:75-80 | Every first try after a reset leads to exactly one log line, and nothing else does |
| DurationLimiter.OneOutcome | cmd/stellar-rpc/internal/network/requestdurationlimiter.go:127-200 | In every schedule: nothing before the outcome, limit and completion exclude each other in answer and counters, and a completed request carries what its buffer holds or reports its panic |
| DurationTraces.RequestAnswer | cmd/stellar-rpc/internal/network/requestdurationlimiter.go:73-200 | A completed HTTP request whose handler returned is answered with all bytes its handler wrote, in order and unless the client has left, the last status and the last value of every header it set; after a panic with status 500; the warning counts exactly when it came first |
| DurationTraces.CallAnswer | cmd/stellar-rpc/internal/network/requestdurationlimiter.go:235-305 | A completed JSON-RPC call is answered with the handler's result, or with an internal error after a panic |
| DurationTraces.LimitAnswer | cmd/stellar-rpc/internal/network/requestdurationlimiter.go:127-200 | A request that ran into its limit is answered with 504 or the limit error, and with nothing or the context's error when the client has left before |
| DurationTraces.Undecided | cmd/stellar-rpc/internal/network/requestdurationlimiter.go:127-200 | Before one of the two nothing is answered and nothing counted |
| DurationTraces.NothingAfterwards | cmd/stellar-rpc/internal/network/requestdurationlimiter.go:141-157 | A handler that has ended writes, sets and returns nothing any more |
| DurationTraces.Timers | cmd/stellar-rpc/internal/network/requestdurationlimiter.go:98-140 | Which thresholds create which timer, and that no limit or warning comes without one |
| DurationLimiter.CompletedHow | cmd/stellar-rpc/internal/network/requestdurationlimiter.go:235-305 | The completion channel tells a normal end from a panic, for HTTP and JSON-RPC alike |
| DurationLimiter.LateOutputLost | cmd/stellar-rpc/internal/network/requestdurationlimiter.go:165-177 | After the outcome no output of the handler reaches the response |

## Left out

- HTTP and JSON-RPC plumbing, metrics, logging texts, response formatting and the JSON format of responses.
- The Rust preflight and xdr2json parts, `sendTransaction`, `simulateTransaction` and health checks.
- SQL engine internals: write-ahead log checkpoints are only a step that may fail after the commit.
- Sorting and expiry of `getLedgerEntries` results: local array and map handling, apart from the ledger history.
- `transactionalcache.go`, the preflight worker pool, configuration parsing and the history archive client.
- Close times in the latest-ledger cache of `LatestCache`: they travel with the sequence number, and `NodeRuns` has both.
- Close times of the oldest and latest ledger in the answers of the paged queries: they come from the same two rows as
  the sequence numbers.
- Metrics of the limiters beyond gauge and counters, and requests that pass them because no limit is configured.
- Ingestion.WriteTx.InsertTransactions: engine failures are a flag, not a taxonomy of SQL errors; the same goes for the other statements.
- LedgerPages.GetLedgers: page limits above 2^31 - 1, which the configuration does not rule out and whose sum with the start wraps around.
- Ingestion.CollectFees: the operation types and meta versions that tell a Soroban transaction are summed up in the transaction's kind.
- Ingestion.Service.Run: the retry policy around the loop, with its delays and its give-up after five attempts, is not modelled; a new run can start at any time.
- DurationLimiter.OneOutcome: a panic trace is taken to be non-empty; an empty one would count as a normal end.
- FeeStats.ComputeFeeDistribution: the library sort is modelled by its result, and the 64-bit product of percentage and count does not overflow.
- LatestCache.CacheRight: the lock is a plain read-write lock without a queueing order, so starvation is not excluded.
