# apt-cacher-ultra: a verified model of its cache database, path grammar and ACME retry record

apt-cacher-ultra is a caching proxy for Debian repositories. Everything it knows is in one SQLite database, and every
write goes through one FIFO writer, so each write is one atomic step over a few tables: blobs with reference counts,
cached paths, suite rows with a pointer to the current snapshot, snapshots with their members and declarations, markers
of signed history, and the queue of the legacy trust audit. This project models those steps and proves what holds over
every run of them; it models the version-aware retention pass, the suite and flat-repository path grammar, apt's
percent-encoding, Debian's version order, and the ACME manager's durable retry record.

`dafny verify dfyconfig.toml` checks the whole project.

## How the model is built

- `Tables` holds the tables as maps and the SQL statements the transactions are made of. `Transactions` gives, for each
  writer transaction, the error it reports or the whole database it commits. `Writers`, `Scans`, `RetentionPass`,
  `Prefetch` and `FlatLookup` hold the loops of the code, as methods proved against those tables; `CacheStore.Cache` is
  the object: it keeps the database in a field, each method runs one transaction on a copy and replaces the field at its
  commit, and every method keeps the invariant.
- `Runs` is the state machine: an operation is any of the transactions at any clock reading (the clock may step either
  way), with any rows the code's unordered `LIMIT` queries may pick. `Integrity` and `IntegritySteps` prove that every
  operation keeps the database sound; `Footprints` says which tables an operation can write.
- `Ledger` and `LedgerRuns` (refcounts and blob collection), `History` (signed history and never-downgrade), `HoldGrace`,
  `AdoptionOrder`, `SuiteTable` (caps and the generation fence), `Displaced` and `DisplacedRuns`, `RetiredChunks`, `Candidates` and `Prefetch` prove the
  properties that span operations and runs.
- Runs may start from any sound state; blob collection also wants no count above its pins (`LedgerRuns.EmptyCovered`).
  `Integrity.EmptyOk` and `Integrity.QueuedStartOk` give the two the code starts from:
  the empty database, and one just migrated with every adopted snapshot queued for the audit.

Where a promise turns out to fail, the code is kept and the exact condition is proved:

- The Debian version comparison gives the byte NUL the weight of a digit and of the string's end, so a NUL compares equal to
  every digit and the order is not transitive; it is transitive exactly on alphabets without NUL
  (`Versions.TransitiveExactlyWithoutNul`).
  Retention and prefetch are therefore stated for packages whose versions it ranks consistently, which every list
  without NUL bytes is (`Retention.NulFreeIsRankable`, `Prefetch.NulFreeRows`).
- The suffix fallback refuses paths of more than 32 segments, which changes answers; none of its other cut-offs does
  (`FlatLookup.FallbackIsExact`, `FlatLookup.SegmentBoundMatters`, `FlatLookup.ThirtyThreeSegmentsAreMissed`).
- A failed ACME attempt is not always spaced from the next by its backoff: the failure record may be lost, and then only
  the reservation made at its start holds (`AcmeRetry.FailedAttemptOwesExactly`, `AcmeRetry.OwedIsTight`).
- A snapshot-collection batch can change a displaced-snapshot lookup of as many snapshots as collection keeps, exactly when
  the lookup is shifted (`Displaced.RanksKeptExactly`, `Displaced.LookupKeptExactly`, `DisplacedRuns.ShiftedRunLoses`). Only
  the audit leaves a suite without a current snapshot and its others live, and it runs before anything serves or collects
  (cmd/apt-cacher-ultra/main.go:489-498), so a handler, which reads the current snapshot after it, is never shifted
  (`DisplacedRuns.ServedLookupsKept`).

## Model

| member | source | states |
|---|---|---|
| LedgerRuns.RefcountLedger | internal/cache/adoption.go:622-711 | in every state of every run a blob's refcount is the number of current snapshots with a member naming it, less the url_path rows naming it that were deleted since its row was created; for a blob the run starts with, the deletions before the run are whatever the start's own difference says |
| LedgerRuns.StepBalanced | internal/cache/adoption.go:729-742 | every operation moves each count exactly with the pins it takes and releases and the rows it deletes; a new blob starts unpinned at zero |
| Ledger.CommitPins | internal/cache/adoption.go:622-711 | a commit pins the new snapshot's distinct blobs once and releases the prior snapshot's, exactly as the pointer flips |
| Ledger.RepairPins | internal/cache/skipped_member.go:170-212 | a repair pins the skipped blob only if no member of the snapshot named it before |
| Ledger.ReconcilePins | internal/cache/reconcile.go:161-226 | a loop of reconciled members pins each newly named blob once for the snapshot, whatever duplicates the list holds |
| Ledger.QuarantinePins | internal/cache/legacy_audit.go:272-295 | a quarantine releases a snapshot's pins exactly when it was current |
| Ledger.DeleteSuitePins | internal/cache/suite_reap.go:186-199 | deleting a suite row releases its current snapshot's pins and no others |
| Ledger.DropUrlsBalanced | internal/cache/gc_urlpath.go:427-456 | deleting any set of rows lowers each blob's count by the number of its deleted rows |
| LedgerRuns.UnreferencedIsReapable | internal/cache/gc.go:70-91 | in every state of a run, a blob no row, member or anchor references has a count of at most zero and a stamp, and is reapable for exactly the cut-offs after that stamp |
| LedgerRuns.OnlyReapableBlobsGo | internal/cache/gc.go:156-181 | an operation that removes a blob row is a collection, and the blob had no reference, no pin and a stamp before the cut-off |
| Integrity.ReapBlobsKeeps | internal/cache/gc.go:167-181 | reaping unreferenced blobs leaves every foreign key satisfied |
| CacheStore.OldestReapable | internal/cache/gc.go:77-91 | the batch is as many reapable blobs as the limit allows, none stamped later than one left behind |
| CacheStore.Cache.RunBlobGcBatch | internal/cache/gc.go:70-207 | a batch size below one is refused; otherwise exactly the chosen oldest reapable blobs are gone and the invariant is kept |
| CacheStore.Cache.DrainBlobs | internal/cache/gc.go:70-207 | looping batches at one time until one is empty removes exactly the reapable blobs |
| CacheStore.Cache.PutBlob | internal/cache/queries.go:187-205 | inserts an unpinned, stamped blob or restamps an unpinned one |
| History.NeverDowngrade | internal/cache/adoption.go:411-433 | in any run, between a signed commit for a base and a later unsigned commit for the base or its twin under either scheme, one operation had the base marked before it and unmarked after it: a forget or sweep while the host had no suite row at either |
| History.MarkedStep | internal/cache/suite_reap.go:435-490 | a base's marker is lost only to a forget of that base, or a sweep, with no suite row of the base or twin under either scheme |
| History.HistoryStep | internal/cache/signed_seen.go:150-176 | a base's signed history is lost only so, or to an unsigned quarantine of a queued snapshot of an unmarked base |
| History.HistoryLostBetween | internal/cache/signed_seen.go:150-176 | in any run from a sound state, a base with signed history at one point and none at a later one lost it at one step between, in one of those ways |
| History.CollectPreserves | internal/cache/gc.go:286-312 | collecting displaced snapshots never takes a live signed snapshot whose base is unmarked |
| History.DeletePreserves | internal/cache/suite_reap.go:74-172 | deleting a suite row leaves each live signed snapshot in place or its base marked |
| History.DecideAllHistory | internal/cache/legacy_audit.go:164-214 | a batch of audit decisions that loses a base's history holds an unsigned quarantine of a snapshot queued, live and signed, of an unmarked base, when the batch began |
| History.UnsignedCommitUnmarked | internal/cache/signed_seen.go:150-176 | an accepted unsigned commit found neither a marker of the base nor a live signed snapshot at the base or twin |
| Runs.RunKeeps | internal/cache/schema.go:24-400 | every state of a run from a sound state is sound: foreign keys, anchor forms, unique natural keys, stamps, generations, current pointers and signed history |
| AdoptionOrder.CurrentIsNewest | internal/cache/adoption.go:751-779 | in every state of a run, under any clock, a current snapshot is an adopted live one of its row's suite; it was adopted strictly after every other of the suite whenever the suite was so ordered at the start or has been given a current snapshot since |
| AdoptionOrder.StepOrders | internal/cache/adoption.go:622-711 | no operation breaks that order for any suite, and one that points a suite at another snapshot establishes it |
| IntegritySteps.CommitKeeps | internal/cache/adoption.go:369-718 | a commit, accepted or refused, keeps all of that |
| AdoptionOrder.FlipNewest | internal/cache/adoption.go:751-779 | stamping past every earlier adoption makes the new current snapshot the strictly newest, ties before it or not |
| IntegritySteps.InsertCandidateKeeps | internal/cache/adoption.go:172-288 | inserting or refreshing a candidate keeps natural keys unique and anchor forms matched |
| IntegritySteps.SweepMarkersKeeps | internal/cache/marker_sweep.go:97-177 | a sweep never takes the marker of a base with a live signed, unqueued snapshot |
| IntegritySteps.ForgetSuiteKeeps | internal/cache/suite_reap.go:435-490 | forgetting a suite keeps the invariant, signed history included |
| IntegritySteps.DecideAllKeeps | internal/cache/legacy_audit.go:164-214 | the audit keeps the invariant when it drops only entries whose snapshot row is missing |
| Integrity.QueuedStartOk | internal/cache/schema.go:356-366 | a migrated database whose adopted snapshots are all queued is a sound start, whatever their adoption times |
| Transactions.CandidateForm | internal/cache/adoption.go:106-127 | a form is accepted exactly when the anchors have its shape; an unset form is read from the anchors and is never unsigned |
| Transactions.AdoptionStamp | internal/cache/adoption.go:751-779 | the stamp is at least now and past every adoption of the suite |
| CacheStore.Cache.InsertCandidate | internal/cache/adoption.go:172-288 | a new id, or the un-adopted snapshot with the same live natural key; an adopted one is refused and nothing changes |
| CacheStore.Cache.CommitAdoption | internal/cache/adoption.go:369-718 | the error or the whole committed database, with every refused commit leaving the database as it was |
| CacheStore.Cache.RepairSkipped | internal/cache/skipped_member.go:96-219 | the skip row is consumed and its content inserted at every given path, or nothing changes |
| CacheStore.Cache.Reconcile | internal/cache/reconcile.go:137-238 | identical members are skipped, contradictions refused, empty identity columns healed |
| CacheStore.Cache.EvictUrl | internal/cache/adoption.go:1222-1283 | the row goes and its blob is released once; a missing row changes nothing |
| CacheStore.Cache.RefreshUrl | internal/cache/anchorless.go:112-159 | compare-and-set of a row's blob, its drop stamp kept |
| CacheStore.Cache.DeleteUrlRows | internal/cache/anchorless.go:176-214 | exactly the rows that still hold what the caller saw are deleted, and counted |
| CacheStore.Cache.PutUrl | internal/cache/queries.go:59-95 | the row is replaced and loses its drop stamp; a blob that is not stored is refused |
| CacheStore.Cache.TouchUrl | internal/cache/queries.go:101-121 | a request counts once, stamps the row and clears its drop stamp |
| Writers.DropEach | internal/cache/suite_reap.go:257-305 | deleting paths one at a time is deleting their set, and counts the rows that were there |
| Writers.DropUnchanged | internal/cache/anchorless.go:184-203 | the compare-and-delete loop deletes the set of unchanged rows, each once, and counts them |
| Writers.InsertMembers | internal/cache/adoption.go:438-451 | the loop succeeds exactly when every path is new and every blob stored, and then all rows are added |
| Writers.InsertEach | internal/cache/adoption.go:475-489 | the loop succeeds exactly when every key is new and none comes twice |
| Writers.WarmEach | internal/cache/adoption.go:510-536 | every prefetched path is warmed, its hotness kept and its drop stamp cleared, or one has no stored blob |
| Writers.SeedEach | internal/cache/adoption.go:591-620 | each anchor of the snapshot's form is served at the suite's path |
| Writers.CheckRepair | internal/cache/skipped_member.go:132-152 | the check passes exactly when every member is the skipped content of this snapshot and one is at the skipped path |
| Writers.InsertOrAgree | internal/cache/skipped_member.go:187-212 | rows there already must agree; the others are added |
| Writers.ReconcileEach | internal/cache/reconcile.go:161-226 | the loop computes the fold of one-member reconciliations, errors included |
| Writers.HealEach | internal/cache/reconcile.go:33-112 | the loop computes the fold of one-declaration reconciliations, errors included |
| Writers.MarkEach | internal/cache/signed_seen.go:62-87 | chunks of 500 marks leave each marker at the latest time it was seen |
| Writers.DecideEach | internal/cache/legacy_audit.go:173-207 | the decisions take effect in order, and exactly the quarantined snapshots are reported, each with whether its last quarantine found it current and how many rows of its anchor that deleted |
| Writers.SeenEach | internal/cache/suite_rows.go:435-466 | the marker time a creation sets is the latest proof its unchanged, signed cached anchors give; it is unproven exactly when some listed row holds another blob by now |
| Writers.AnchorList | internal/cache/suite_reap.go:527-543 | the twelve anchor paths of a base: both schemes, base and twin, three names |
| Scans.DropLegacy | internal/cache/legacy_refresh.go:78-113 | the 256-row keyset loop deletes exactly the suite's metadata rows outside by-hash |
| Scans.SuiteLists | internal/cache/suite_reap.go:218-251 | the range query with its filter lists exactly the suite's rows, anchors apart; nothing for a non-canonical path |
| CacheStore.Cache.InvalidateLegacy | internal/cache/legacy_refresh.go:50-123 | an un-adopted suite whose anchor is unchanged loses its metadata and takes a new generation; otherwise an error and no change |
| CacheStore.Cache.DeleteSuiteMetadata | internal/cache/suite_reap.go:319-337 | the thousand-row batches, plain rows first, delete exactly the suite's rows and count them; nothing for a non-canonical path |
| CacheStore.Cache.ReapIdleSuite | internal/cache/suite_reap.go:363-393 | the row is deleted only if its pointer is the expected one and it is idle past the cut-off |
| CacheStore.Cache.ForgetSuite | internal/cache/suite_reap.go:435-490 | the suite goes and, once no suite row shares its base, so do the base's anchors and markers, counted; otherwise the rows that kept them are listed in order |
| CacheStore.Cache.SweepOrphanMarkers | internal/cache/marker_sweep.go:53-84 | the list-then-delete loop removes exactly the old markers of bases without a suite row, and counts them |
| CacheStore.Cache.MarkSignedSeenBatch | internal/cache/signed_seen.go:62-87 | every mark is kept at its latest time |
| CacheStore.Cache.ApplyLegacyAuditDecisions | internal/cache/legacy_audit.go:164-214 | the decisions take effect in order, in one transaction that keeps the invariant, with the effects reported |
| CacheStore.CreateTx | internal/cache/suite_rows.go:348-419 | the suite had a row exactly when the outcome says so; it has one after exactly when it had one or was created, and a created row is un-adopted with a generation past every earlier one; no other row changes but an evicted one, which was un-adopted and idle for a day; a refusal without eviction changes nothing |
| CacheStore.Cache.CreateSuite | internal/cache/suite_rows.go:181-276 | a creation's transaction committed as a whole, keeping the invariant, with its unproven flag |
| CacheStore.Cache.StoreFetched | internal/cache/fetched_row.go:87-171 | fence check, row, creation and marker in one step; a refused store changes nothing |
| SuiteTable.CapsNeverExceeded | internal/cache/suite_rows.go:348-419 | with fixed caps, a table within the global or per-host cap stays within it through every run |
| SuiteTable.CapsHold | internal/cache/suite_rows.go:365-403 | above a cap no operation grows the table |
| SuiteTable.EvictionShrinks | internal/cache/suite_rows.go:381-402 | an evicting creation shrinks a table above the cap by one and keeps the size of one at the cap, where alone it creates |
| SuiteTable.GenerationFence | internal/cache/legacy_refresh.go:25-44 | a suite whose token is the one read earlier from its row had that row, with its row id and generation, in every state between, with no invalidation |
| SuiteTable.AcceptedStoreIsFresh | internal/cache/fetched_row.go:111-116 | a store accepted with a token read while the suite had a row follows no invalidation and no delete-and-recreate since, whatever row ids are reused |
| SuiteTable.MovedStays | internal/cache/schema.go:367-374 | a deleted, recreated or invalidated suite never again has an earlier generation |
| NewestN.KeepNewest | internal/cache/queries.go:968-999 | whatever the order and duplicates, the result is exactly the listed versions with fewer than N strictly newer equivalence classes whenever the comparison ranks them consistently; for any list it is a part of the list and not empty unless the list is; N below one is three |
| NewestN.DebianPreorder | internal/debversion/debversion.go:20-31 | the comparison ranks every set of versions without NUL consistently |
| NewestN.TakeClasses | internal/cache/queries.go:982-998 | counting class boundaries over a sorted list gives that set, and always keeps the first version |
| NewestN.KeepsClassesWhole | internal/cache/queries.go:956-967 | versions that compare equal are kept or dropped together |
| Versions.VerRevCmp | internal/debversion/debversion.go:94-139 | the byte-walking comparison computes the alternating non-digit and digit run comparison, on every pair of strings |
| Versions.VerRevComparesKeys | internal/debversion/debversion.go:94-139 | without NUL it compares the strings' keys: character weights and run values |
| Versions.CompareComparesKeys | internal/debversion/debversion.go:20-31 | so the whole comparison is a comparison of epoch, upstream and revision keys |
| Versions.CompareReflexive | internal/debversion/debversion.go:20-31 | every string compares equal to itself |
| Versions.CompareAntisymmetric | internal/debversion/debversion.go:20-31 | for every two strings, swapping them negates the result |
| Versions.CompareTransitive | internal/debversion/debversion.go:20-31 | at most is transitive on versions without NUL |
| Versions.TransitiveExactlyWithoutNul | internal/debversion/debversion.go:141-168 | over any alphabet with the digits, the comparison is transitive if and only if NUL is not in the alphabet |
| RetentionPass.PagedPass | internal/gc/urlpath.go:35-88 | at one time, looping pages from the empty cursor ends, visits keys in strictly increasing order and leaves what one evaluation of every row leaves |
| RetentionPass.PageAdvances | internal/cache/gc_urlpath.go:94-123 | one prefiltered page settles everything up to its last key: the rows it skips would not change |
| RetentionPass.EvaluatePage | internal/cache/gc_urlpath.go:150-207 | the loop over a page with its ranking memo is a sweep of the page, and counts its verdicts |
| RetentionPass.IsRetained | internal/cache/gc_urlpath.go:247-368 | the verdict with the memo is the retention predicate |
| RetentionPass.TopVersions | internal/cache/gc_urlpath.go:375-420 | a memoised ranking is the ranking |
| Retention.SweepTwice | internal/cache/gc_urlpath.go:152-207 | sweeping two disjoint sets of rows one after the other is sweeping both at once |
| Retention.SweepSkipped | internal/cache/gc_urlpath.go:94-123 | rows requested within the TTL and never stamped are unaffected by evaluation |
| CacheStore.Cache.RunUrlGcBatch | internal/cache/gc_urlpath.go:61-214 | a batch size below one or a TTL that is not positive is refused without change; otherwise a batch sweeps the first candidates past the cursor, counts its verdicts and moves the cursor to the last of them |
| CacheStore.Cache.RunUrlGcPass | internal/gc/urlpath.go:35-88 | the whole pass is one evaluation of every row, or nothing when its first batch is refused |
| HoldGrace.HoldIsHonoured | internal/cache/gc_urlpath.go:152-207 | in any run, the collector deletes a row under a positive hold only if an evaluation at least a hold earlier found it not retained, or the run started with a stamp that old; since then it stayed, no evaluation retained it and no touch, store or commit re-established it |
| HoldGrace.OnlyCollectorStamps | internal/cache/queries.go:76-121 | no other operation gives a row a drop stamp |
| HoldGrace.Clears | internal/cache/adoption.go:591-620 | every touch, store, warming or seeding commit and every retaining evaluation leaves the row without a stamp |
| Prefetch.ComputeHotSet | internal/cache/queries.go:814-945 | the entries are exactly the candidate's rows of hot packages without a version or among the newest N it lists; a foreign row is an error |
| Prefetch.PrefetchIsRetained | internal/cache/gc_urlpath.go:305-367 | in the state a commit leaves, every row it warmed from the hot set of its own declarations is retained for the same N, whatever the TTL |
| Candidates.CommittedPrefetchIsRetained | internal/cache/adoption.go:471-536 | the same for every commit of every run |
| Candidates.RunDeclares | internal/cache/adoption.go:471-489 | in every state of a run only adopted snapshots have declarations |
| Displaced.CollectionKeepsLookups | internal/cache/gc.go:286-372 | no snapshot-collection batch changes a displaced-snapshot lookup that reads fewer snapshots than collection keeps, nor one that reads as many and is not shifted: shifted means that all it reads are displaced and the caller's snapshot is too, of the same suite and newer than the last of them |
| Displaced.RanksKeptExactly | internal/cache/gc.go:286-372 | every batch leaves a lookup of as many snapshots as collection keeps the same snapshots if and only if it is not shifted |
| Displaced.LookupKeptExactly | internal/cache/snapshot_reads.go:75-106 | every batch leaves it every row it found if and only if it is not shifted or the last snapshot it reads has no row at the path |
| DisplacedRuns.ServedLookupsKept | internal/handler/handler.go:948-957 | in any run from a sound state, no batch changes such a lookup of a caller that read the suite's current snapshot after the last audit |
| DisplacedRuns.ShiftedRunLoses | internal/cache/legacy_audit.go:272-295 | in one run an audit clears a suite's pointer and a batch then changes the lookup of a caller that holds an earlier snapshot for the current one |
| Displaced.HandlerKeepsRetained | internal/handler/handler.go:948-957 | the handler's lookup of one snapshot more than collection keeps begins, after any batch, with everything the kept ones held before it, or all but the last of them when it is shifted |
| Displaced.DrainingKeepsLookups | internal/cache/snapshot_reads.go:75-106 | no chunk of a retired snapshot changes any such lookup |
| Displaced.ExcessIsPast | internal/cache/gc.go:297-310 | a snapshot that collection may take ranks, in the lookup's own ranking, past as many as collection keeps; one fewer only when the caller's snapshot was displaced and nothing replaced it |
| CacheStore.Cache.RunSnapshotGcBatch | internal/cache/gc.go:243-392 | a batch size below one or a negative keep is refused; otherwise as many of the stale orphans and excess displaced snapshots as the batch allows go with all their rows, counted by class |
| RetiredChunks.ChunkReduces | internal/cache/gc.go:439-509 | every chunk strictly reduces the retired rows and headers left |
| RetiredChunks.ChunkKeepsGoal | internal/cache/gc.go:439-509 | no chunk changes what is left once all retired snapshots are drained |
| RetiredChunks.HeaderGoesLast | internal/cache/gc.go:480-498 | a header goes only when no child row of its snapshot remains |
| CacheStore.Cache.RunRetiredChunk | internal/cache/gc.go:439-509 | the countdown over three tables takes a chunk of the least retired snapshot, or reports that none is left |
| CacheStore.Cache.DrainRetired | internal/cache/gc.go:439-509 | looping until no more removes exactly the retired, non-current snapshots and their rows, for any chunk size, and reports how many |
| SuitePaths.SuiteIsProperPrefix | internal/aptpath/suite.go:43-94 | every path with a suite is the suite, a slash and a non-empty member |
| SuitePaths.SuitePathIsCanonical | internal/aptpath/suite.go:164-176 | every suite path is canonical: its own anchor's suite is itself |
| SuitePaths.RangeScanIsExact | internal/cache/suite_reap.go:218-251 | the byte range with the filter selects exactly the paths whose suite it is |
| FlatLookup.CompactSegments | internal/aptpath/suite.go:204-213 | the in-place compaction keeps exactly the segments other than ".", in order |
| FlatLookup.DotCleanSegments | internal/aptpath/suite.go:200-213 | cleaning leaves exactly the other segments, or the empty path when there is none, and is idempotent on every path |
| FlatLookup.FlatSplits | internal/cache/adoption.go:1001-1037 | the cuts are exactly the separators within the byte bounds of a splittable path, each with the name after it |
| FlatLookup.LookupBySuffix | internal/cache/adoption.go:1071-1115 | the lookup returns the rows of the last cut that admits any |
| FlatLookup.DeclaredForPath | internal/cache/adoption.go:885-894 | an exact row wins; the fallback runs only without one and when flat rows exist |
| FlatLookup.FallbackIsExact | internal/cache/adoption.go:966-1037 | for valid rows and every path the lookup answers its specification up to 32 segments and nothing past them |
| FlatLookup.SegmentBoundMatters | internal/cache/adoption.go:1013-1015 | past the bound every otherwise acceptable path has a valid row the specification finds and the lookup misses |
| FlatLookup.ThirtyThreeSegmentsAreMissed | internal/cache/adoption.go:1013-1015 | a concrete family of requests is found up to 32 segments and missed from 33 |
| FlatLookup.FilenameIsStored | internal/freshness/packages_parse.go:225-274 | the dot-cleaned form of every accepted Filename meets what the lookup assumes of stored names |
| FlatLookup.FlatSuiteBase | internal/aptpath/suite.go:182-198 | the base of every canonical flat suite within the length bound meets what the lookup assumes of bases |
| PercentEncoding.AptEncodePath | internal/aptpath/encode.go:19-42 | the builder computes the encoding, and returns the path itself exactly when no byte needs escaping |
| PercentEncoding.DecodeEncode | internal/aptpath/encode.go:10-42 | decoding an encoded path gives the path |
| PercentEncoding.EncodeIsInjective | internal/aptpath/encode.go:10-42 | different paths have different encodings |
| PercentEncoding.EncodingsExactly | internal/aptpath/encode.go:19-53 | the encodings are exactly the strings of unescaped bytes and lower-case triplets of escaped ones; only the '%' of a triplet needs escaping |
| AcmeRetry.AttemptsAreSpaced | internal/acme/manager.go:178-275 | for any kills, restarts and failed writes, the next attempt after one that stored no certificate starts no earlier than what that one owes |
| AcmeRetry.InterruptedAttemptOwes | internal/acme/manager.go:204-216 | an attempt cut off before it failed owes its start plus its time budget and its backoff, jitter included, and every Retry-After it recorded |
| AcmeRetry.FailedAttemptOwes | internal/acme/manager.go:253-268 | a failure durably recorded owes its end plus its backoff, jitter included, and every Retry-After it observed |
| AcmeRetry.FailedAttemptOwesExactly | internal/acme/manager.go:249-268 | however its record was written, a failed attempt owes its end plus its backoff if and only if the record is durable, it ended within its time budget and jitter, or it recorded a Retry-After that late |
| AcmeRetry.OwedIsTight | internal/acme/manager.go:178-275 | however its writes ended, every attempt that stored no certificate can be followed by a kill and a next attempt at exactly what it owes, so no more can be promised |
| AcmeRetry.OverrunIsNotSpaced | internal/acme/manager.go:253-275 | in one run an attempt fails at ten minutes, past its five-minute budget, its record is lost in a kill, and the next starts a second later |
| AcmeRetry.RecordsAreAccepted | internal/acme/manager.go:117-125 | in every run, every record a load may find is one load accepts |
| AcmeRetry.BackoffBounds | internal/acme/manager.go:297-299 | the backoff is at least a minute and under an hour and fifteen seconds, doubling with each failure up to an hour |
| AcmeRetry.RetryAfter | internal/acme/transport.go:103-123 | seconds up to a century are added to now without overflowing int64 nanoseconds, more of them mean the year 9999, other values are a later date or nothing |
| AcmeRetry.Classify | internal/acme/client.go:19-54 | every classification is a problem load accepts |
| AcmeRetry.Manager.Begin | internal/acme/manager.go:178-221 | an attempt starts only past the recorded time and with its own record the one durable record, deferring the next by its budget and backoff; without a start the directory changes only if a write failed |
| AcmeRetry.Manager.Respond | internal/acme/client.go:167-183 | a Retry-After never lowers the cooldown or the deferral and both reach it; while storage is healthy that deferral is durable, and storage fails only on a later time whose write failed |
| AcmeRetry.Manager.Fail | internal/acme/manager.go:253-268 | a durable failure record is the only one and defers to the backoff from now or the observed cooldown, whichever is later; a lost one leaves the directory as it was |
| AcmeRetry.Manager.Succeed | internal/acme/manager.go:234-246 | until the certificate is stored the record is left as it was; once it is, a durable write leaves only the cleared record |

## Left out

- SQL text, query plans, indexes and migrations: tables are maps; only the constraints the transactions rely on are kept.
- Hash and path validation at the entrances, sizes, creation times, HTTP validators, failure columns and the
  representation dates: easy members, and no property here depends on them.
- Times within one transaction: a transaction that reads the clock more than once is given one reading.
- Holding eviction candidates, touch coalescing and the reads that feed a transaction from outside it: a transaction takes
  what they found as parameters, and any value is allowed.
- HeartbeatBlobs, HeartbeatSnapshot, EnqueueLegacyTrustAudit and TouchSuite have no method on the object: they are
  operations of the runs, given by one-line functions.
- The path order inside one package of the hot set: its contents are proved, and the order of packages follows the query.
- RetentionPass.PagedPass: stated for packages whose versions the comparison ranks consistently, as Go's sort demands of it;
  on other lists, all with a NUL byte, the order of the sort's result is unspecified.
- RetentionPass.EvaluatePage: stated for the same packages.
- RetentionPass.IsRetained: stated for the same packages.
- RetentionPass.TopVersions: stated for the same packages.
- CacheStore.Cache.RunUrlGcBatch: stated for the same packages.
- CacheStore.Cache.RunUrlGcPass: stated for the same packages.
- Prefetch.ComputeHotSet: stated for the same packages.
- Reconciles in a run: its declarations name the reconciled snapshot, as its caller ensures; the transaction does not check it.
- SuiteTable.GenerationFence: stated for tokens read while the suite had a row; a token read without one is (0, 0) and says nothing.
- IntegritySteps.DecideAllKeeps: an audit decision to drop an entry is taken only for a missing snapshot row, as its callers ensure.
- ReapBlobs in a run: the rows a collection takes are any reapable ones; the oldest-first choice is on the batch method.
- Writers.ReconcileEach and Writers.HealEach are stated against folds because the first of two equal-content duplicates wins.
- The wire protocol, certificate parsing, renewal times and DNS workers of ACME: an attempt is any sequence of error
  responses ended by a failure, a success or a kill.
- Pool files, hashing, unlinking, handlers, the admin server, metrics, TLS and configuration.
