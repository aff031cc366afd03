# Community Pool: a verified model

The Community Pool is a mining pool that keeps its members' money. This project models the parts of it where a mistake
would lose evidence or money, and proves that they cannot go wrong in the ways they are built to prevent:

- **SpoolCollector**: collectors save evidence as shared chunk files while a garbage collector deletes unneeded ones
  beside them, with locks held only for short moments. One event of the model is one file-system action, so a run of
  events is an interleaving, crashes included.
- **BlockArchive**: the database of captured blocks, its conflicts, its contiguous cursor, and the incremental index of
  each chunk's last use that decides which chunks may go. **ArchiveIndex** says which rows that index has, and when a
  chunk is removed.
- **Paging** and **Packing**: content-defined paging and the encoder that turns an observation into a manifest and chunks.
- **SubmissionFence**: uncertain submissions are never sent twice; a lost response is recovered from the public feed.
- **MerkleBranch**: the sparse-branch proof check.
- **QualifierCredit** and **Rewards**: exact credit splitting and largest-remainder payout.
- **CompactView**: the projection of a whole-network snapshot to the pool's own part. **ChoiceLaws** says what selection
  chooses from it.
- **Ledger**, **Escrow**, **Rounds**, **Payments**: the journal and the state machines that post to it. **Treasury** runs
  them together over one journal and one clock; its theorems, and those of **Statements**, hold in every run.
- **EscrowLaws**, **RoundLaws**, **PaymentLaws**: what each of those operations does and when, case by case, in terms of
  rows and balances alone. **PoolLaws** carries the main ones over to every run of the whole pool.
- **CustodyObserver**: the watcher that credits incoming transfers and reconciles the custody wallet. **CustodyCheck**
  connects its health check with the payment tables.
- **Basics**, **Sorting** and **Sums**: helpers.

Each stateful part has a value-level state with one function per operation, an invariant kept by every operation, and
theorems over every run. Beside it a class holds the tables as fields and updates them with the loops and branches of the
original; its methods are proved equal to the functions.

How the original's world is represented:

- Hashes and canonical texts are injective functions or constructors; Merkle leaf and node hashes are different
  constructors. Fractions are `real`, token units are unbounded integers, as Python's are.
- A committed transaction is one step. Where the original uses several transactions, or files outside a lock, they are
  separate steps. Raising an error is returning a refusal with the state unchanged.
- Account balances follow the inserted entries, as `pool_manager/pool_v2/ledger.py:96` says.
- Checks on things outside a module are boolean inputs, true or false at will: `open` (pause, pilot, offer expiry),
  `permitted` (the archive and preflight of a submission), `allowed` (payment interval, preflight, approved route, and a
  greater reserve the operator names when sending), `exact` and `empty` (what a confirmed transaction contains), `complete`
  (captured reports), `clear` (no open report), `covered` (block and credit coverage), `confirmed` (the protocol's record of
  a top-up), `conflicted` and `knownCode` (alerts and delegation of the custody wallet).
- The submission fence assumes what its design states: after the preflight list only the pool creates matching
  precommits, and one POST creates at most one (`SubmissionFence.Possible`). The observer's crediting and telescoping
  theorems assume captures that show one finalized chain (`CustodyObserver.Truthful`); `CustodyCheck.HealthTheorem` also
  that the chain counts nonces, so a payment finalized in a block used a nonce of that block (`CustodyCheck.CountsNonces`).
- Spending windows are proved under one fixed cap, a clock that never runs backwards, and rounds of newest blocks that
  never decrease.

Where the code and its own documentation differ, the model follows the code:

- The paging docstring (`pool_manager/pool_v2/block_observer.py:31-36`) says that an added or removed element changes one
  page wherever it sits. `Paging.DocumentedRuleFails` gives an input where it does not; `Paging.OnePageChanges` says exactly
  when it does: for an element that is not selected, when the last page of the stretch it falls into has room for one more
  (with `left` elements of the stretch before it, `tail` after it and no equal ones next, when
  `1 <= left % limit + tail < limit`); for a selected one only at the end of a list with an unfinished page.
- `_track` (`pool_manager/pool_v2/block_observer.py:385-386`) speaks of rows only for chunks the newest block no longer
  references. A block captured again can bring chunks its stored manifest lacks, which get rows at the newest height;
  `BlockArchive.DocumentedRowsFail` shows such runs and `BlockArchive.StepApart` says exactly which recordings break the
  rule. The bound that retention needs holds all the same. The other half, that a chunk the newest block no longer uses has
  a row, fails when a block arrives after its successor: only rows that exist are raised, and
  `ArchiveIndex.LateBlockLeaks` shows chunks that no retention run removes until a later capture uses them or the index is
  built anew. `ArchiveIndex.StepTracks` gives the exact condition and `ArchiveIndex.RowsTheorem` the rule over all runs
  that meet it.
- `post` (`pool_manager/pool_v2/ledger.py:31-82`) balances each asset but not each location. `Ledger.PostingDoesNotCheckPlaces`
  shows a posting that breaks the backing of a place, `Ledger.PostingKeepsPlaces` that exactly the movements that balance
  at every place keep it, and `Treasury.BooksTheorem` that no operation makes any other.

## Model

| member | source | states |
|---|---|---|
| `SpoolCollector.NoInterleavingLosesEvidence` | pool_manager/pool_v2/retention.py:175-238 | From any recovered directory, after every interleaving of saves, recorder renames, one cleaner and crashes of any of them: every chunk a pending or recorded manifest refers to is on disk, and so is every chunk an unfinished save has found or written |
| `SpoolCollector.DeletionIsJustified` | pool_manager/pool_v2/retention.py:204-229 | Only a locked deletion batch removes a chunk, and then the chunk was offered, old enough, referred to by no published manifest and needed by no save in flight |
| `SpoolCollector.DeletionIsExact` | pool_manager/pool_v2/retention.py:204-215 | In every sound state a locked batch removes a chunk if and only if it was offered, is no newer than the limit, and neither the cleaner so far nor the pin lines it has not read yet name it; every other chunk keeps its time |
| `SpoolCollector.GarbageGoes` | pool_manager/pool_v2/retention.py:175-238 | The other direction, over every interleaving: a chunk that no pin file, pin line or manifest ever named is removed by the first batch that is offered it when it is old enough |
| `SpoolCollector.UnwantedUnlearned` | pool_manager/pool_v2/retention.py:181-202 | In every run the cleaner holds a chunk for needed only if something named it |
| `SpoolCollector.SaveRunCompletes` | pool_manager/pool_v2/spool.py:41-89 | At any point of any run a save whose events nobody disturbs leaves what the undisturbed method leaves: its missing chunks with the current time, its manifest pending, no pin |
| `SpoolCollector.CollectionRunPrunes` | pool_manager/pool_v2/retention.py:175-238 | At any point of any run a collection whose events nobody disturbs removes a chunk if and only if it was offered, old, in no pin file and in the references of no pending or recorded manifest, and changes nothing else |
| `SpoolCollector.ManifestsOnlyExpire` | pool_manager/pool_v2/spool.py:131-136 | A published manifest stays, or moves from pending to recorded unchanged, unless it is a recorded one that expires while no cleaner runs |
| `SpoolCollector.ManifestsAppear` | pool_manager/pool_v2/spool.py:41-89 | A manifest appears only by the one publication of a save that has all its chunks in place |
| `SpoolCollector.AnyListing` | pool_manager/pool_v2/retention.py:187-202 | The cleaner's listing of the pending area is not atomic: after any renames meanwhile, every listing that holds the names that stayed is one it may get |
| `SpoolCollector.StepKeeps` | pool_manager/pool_v2/spool.py:41-89 | Every single file-system action of a saver, the recorder or the cleaner keeps the invariant that ties pins, journal, scan progress and chunks together |
| `SpoolCollector.RunKeeps` | pool_manager/pool_v2/spool.py:41-136 | The invariant holds after every sequence of actions |
| `SpoolCollector.SpoolDirectory.PinAll` | pool_manager/pool_v2/spool.py:51-60 | A save pins all its chunks in its own pin file and, while a collection is active, in the pin journal |
| `SpoolCollector.SpoolDirectory.WriteOne` | pool_manager/pool_v2/spool.py:69-86 | A missing chunk is written with the current time, a present one is left as it is |
| `SpoolCollector.SpoolDirectory.SaveAlone` | pool_manager/pool_v2/spool.py:41-89 | An undisturbed save adds exactly its missing chunks, publishes its manifest as pending and leaves no pin |
| `SpoolCollector.SpoolDirectory.MarkRecorded` | pool_manager/pool_v2/spool.py:131-136 | The rename moves one manifest from pending to recorded |
| `SpoolCollector.SpoolDirectory.StartCollection` | pool_manager/pool_v2/retention.py:177-191 | The marker appears, the journal is emptied and the pins of all saves in flight are taken |
| `SpoolCollector.SpoolDirectory.ReadArchive` | pool_manager/pool_v2/retention.py:192-202 | The references of a manifest under either name, or a failure when it or one of its digest pages cannot be read |
| `SpoolCollector.SpoolDirectory.TakePins` | pool_manager/pool_v2/retention.py:204-211 | Exactly the journal lines after the old offset are added, and the offset moves to the end |
| `SpoolCollector.SpoolDirectory.UnlinkUnneeded` | pool_manager/pool_v2/retention.py:212-215 | A chunk is gone afterwards if and only if it was offered, not needed, and no newer than the limit; the rest keep their times, and the result counts those gone |
| `SpoolCollector.SpoolDirectory.RemoveBatch` | pool_manager/pool_v2/retention.py:204-215 | The same, with the newest pin lines read first |
| `SpoolCollector.SpoolDirectory.FinishCollection` | pool_manager/pool_v2/retention.py:230-233 | Marker and journal go away |
| `SpoolCollector.SpoolDirectory.ScanArchives` | pool_manager/pool_v2/retention.py:192-202 | The union of the references of all listed archives, or a failure exactly when one is unreadable |
| `SpoolCollector.SpoolDirectory.ScanAll` | pool_manager/pool_v2/retention.py:187-202 | Pins and all archives together are what the directory still needs |
| `SpoolCollector.SpoolDirectory.NeededMeaning` | pool_manager/pool_v2/retention.py:187-202 | What the directory needs, named one by one: pin files, pending manifests, recorded manifests |
| `SpoolCollector.SpoolDirectory.DeleteUnneeded` | pool_manager/pool_v2/retention.py:217-229 | Batching does not matter: gone if and only if a candidate, old and needed by nothing, in one pass or many |
| `SpoolCollector.SpoolDirectory.PruneFileChunks` | pool_manager/pool_v2/retention.py:175-238 | An undisturbed collection fails exactly when a listed archive is corrupt or lacks a page, and then removes nothing; otherwise a chunk is gone if and only if it was offered, old, in no pin file and in the references of no pending or recorded manifest. Manifests and pins are untouched |
| `BlockArchive.CursorTheorem` | pool_manager/pool_v2/block_observer.py:295-419 | After any captures, failures, resolutions, expiries and sweeps in any order: adjacent stored blocks are hash-linked and the cursor is the greatest height up to which every height from launch is stored, linked and free of open conflicts |
| `BlockArchive.RetentionTheorem` | pool_manager/pool_v2/block_observer.py:361-406 | After any such run every index row is at least the height of every unexpired block that uses the chunk, all their chunks are stored, and no sweep at any floor takes one |
| `BlockArchive.SweepSparesLiveBlocks` | pool_manager/pool_v2/retention.py:389-404 | What a sweep may remove is disjoint from what any stored, unexpired block refers to |
| `BlockArchive.TrackedBounds` | pool_manager/pool_v2/block_observer.py:385-406 | Tracking a block keeps the upper bound for all other blocks and for the new one, whatever the cached latest block is, also when older blocks arrive late or again |
| `BlockArchive.LoweredMeaning` | pool_manager/pool_v2/block_observer.py:355-360 | Pulling the cursor back leaves it just below the first open conflict it had passed, and never below launch - 1 |
| `BlockArchive.AdvancedMeaning` | pool_manager/pool_v2/block_observer.py:408-419 | Advancing from a sound cursor reaches exactly the greatest sound height |
| `BlockArchive.CursorMeaning` | pool_manager/pool_v2/block_observer.py:408-419 | An exact cursor, spelled out: every height from launch up to it is stored and free of open alerts, and a next stored block waits for an open alert |
| `BlockArchive.RecordedTables` | pool_manager/pool_v2/block_observer.py:350-383 | What one recording leaves in the chunk, attempt, block and alert tables, by what it raised; an alert leaves the index as it was |
| `BlockArchive.SweptRest` | pool_manager/pool_v2/retention.py:389-404 | After a batch exactly the rest remains removable |
| `BlockArchive.StoredLinks` | pool_manager/pool_v2/block_observer.py:313-366 | Storing a capture that raises no conflict keeps all adjacent blocks linked and loses none |
| `BlockArchive.StepKeeps` | pool_manager/pool_v2/block_observer.py:256-419 | Every operation on the archive keeps links, cursor exactness, filing and the index bound |
| `BlockArchive.RunKeeps` | pool_manager/pool_v2/block_observer.py:242-419 | They hold after every sequence of operations |
| `BlockArchive.IndexedKeeps` | pool_manager/pool_v2/retention.py:321-337 | Building the index from scratch gives an upper bound too |
| `ArchiveIndex.NewestRows` | pool_manager/pool_v2/block_observer.py:391-406 | When a block becomes the newest: each chunk of the previous newest that it does not use has a row, at the greater of that block and its earlier row, and no higher than the last stored block that used it; its own chunks have none; other rows stay |
| `ArchiveIndex.OlderRows` | pool_manager/pool_v2/block_observer.py:387-390 | A new block below the newest raises the rows of its own chunks to its height, and writes and loses none |
| `ArchiveIndex.AgainRows` | pool_manager/pool_v2/block_observer.py:361-382 | A block captured again: every chunk its stored evidence lacked has a row at the newest height or above |
| `ArchiveIndex.StepTracks` | pool_manager/pool_v2/block_observer.py:385-406 | The rule that every chunk of a stored, unexpired block which the newest does not use has a row survives a step if and only if the step neither records a new block below the newest with a chunk that has no row and is not the newest's, nor expires the newest block while an older one needs such a chunk |
| `ArchiveIndex.RowsTheorem` | pool_manager/pool_v2/block_observer.py:361-406 | That rule holds over every run without such steps, with any number of recording processes that each remember the last block they recorded |
| `ArchiveIndex.RunUnder` | pool_manager/pool_v2/block_observer.py:385-406 | In every run no row is above the newest block ever stored |
| `ArchiveIndex.SweepTakes` | pool_manager/pool_v2/retention.py:389-404 | A sweep takes every chunk it is offered whose row is at most the floor, once all evidence at or under the floor that needs it has expired |
| `ArchiveIndex.DroppedChunkGoes` | pool_manager/pool_v2/block_observer.py:385-406 | A chunk that leaves the newest block is removed: after any run, and any further run in which no capture needs it, a sweep took it or the next sweep at a floor at or above that block takes it, once the evidence at or under the floor that needs it has expired |
| `ArchiveIndex.UnreachedStays` | pool_manager/pool_v2/retention.py:389-404 | A chunk without a row is never removed, whatever expires and is swept |
| `ArchiveIndex.LateBlockLeaks` | pool_manager/pool_v2/block_observer.py:387-390 | For every height and every such chunks: a block recorded after its successor leaves a chunk of its own without a row, and it stays for good |
| `BlockArchive.StepApart` | pool_manager/pool_v2/block_observer.py:361-406 | The documented rule that no row names a chunk of the newest block survives a step if and only if the step is not a recording whose capture needs chunks that the stored block lacks and the newest block has |
| `BlockArchive.DocumentedRowsFail` | pool_manager/pool_v2/block_observer.py:372-378 | Runs that break it: an older block is captured again with a chunk of the newest |
| `BlockArchive.BlockStore.Inspect` | pool_manager/pool_v2/block_observer.py:313-349 | A capture raises exactly the alerts for a second block or changed content at its height, another height of its block, and broken links to either neighbour |
| `BlockArchive.BlockStore.FileAttempt` | pool_manager/pool_v2/block_observer.py:350-360 | An attempt is filed with its references and alerts, and the cursor drops below new conflicts |
| `BlockArchive.BlockStore.Record` | pool_manager/pool_v2/block_observer.py:256-382 | A capture is stored exactly when it raises nothing and its height is free; chunks, attempt and alerts are kept in any case; then it is tracked and the cursor advanced; the cache becomes this block unless a newer one is stored |
| `BlockArchive.BlockStore.RecordFailure` | pool_manager/pool_v2/block_observer.py:350-383 | A failed capture keeps its chunks and references and stores no block |
| `BlockArchive.BlockStore.PullBack` | pool_manager/pool_v2/block_observer.py:355-360 | The loop lowers the cursor to just below the lowest open conflict |
| `BlockArchive.BlockStore.Advance` | pool_manager/pool_v2/block_observer.py:408-419 | The loop walks the cursor through stored, linked, unconflicted heights |
| `BlockArchive.BlockStore.Track` | pool_manager/pool_v2/block_observer.py:385-406 | Index rows of a block: those that left the newest block, against the cache when it matches the neighbour and against the table otherwise |
| `BlockArchive.BlockStore.ResolveConflict` | pool_manager/pool_v2/ordering_conflicts.py:77-118 | One alert is resolved and the cursor advances again |
| `BlockArchive.BlockStore.TakeBatch` | pool_manager/pool_v2/retention.py:389-404 | Some of what is due, and something while anything is |
| `BlockArchive.BlockStore.RemoveChunks` | pool_manager/pool_v2/retention.py:389-404 | Bounded batches together remove a chunk with its row if and only if its row is at most the floor and no unexpired evidence at or under the floor needs it |
| `Paging.Split` | pool_manager/pool_v2/block_observer.py:31-46 | The loop produces the pages of the description |
| `Paging.PagesArePaging` | pool_manager/pool_v2/block_observer.py:31-46 | Pages concatenate to the input, none is empty or over the limit, each but the last ends at a selected element or is full, and none has an earlier end |
| `Paging.PagingIsUnique` | pool_manager/pool_v2/block_observer.py:31-46 | That description has only one solution |
| `Paging.Resynchronises` | pool_manager/pool_v2/block_observer.py:31-46 | After a selected element paging starts afresh, whatever forced cuts came before |
| `Paging.EditIsLocal` | pool_manager/pool_v2/block_observer.py:31-46 | Inserting or removing one element between two selected ones changes no page before the first or after the second |
| `Paging.OnePageChanges` | pool_manager/pool_v2/block_observer.py:31-46 | For every list, place and element: inserting it leaves the number of pages and changes exactly one of them if and only if it is not selected and the last page of its stretch between selected elements has room for it behind its equals, or it is selected and appended to an unfinished last page |
| `Paging.StretchInsertion` | pool_manager/pool_v2/block_observer.py:31-46 | The same for one stretch, closed by a selected element or ending the list |
| `Paging.SelectedSplits` | pool_manager/pool_v2/block_observer.py:31-46 | A selected element that comes to lie in the last page of a stretch splits exactly that page in two |
| `Paging.DocumentedRuleFails` | pool_manager/pool_v2/block_observer.py:31-46 | An input that breaks the docstring: one element in front of a full page without selected elements changes more than one page |
| `Paging.RestIsRemainder` | pool_manager/pool_v2/block_observer.py:31-46 | What full pages leave over is the remainder by the page limit |
| `Paging.ForcedCutsShift` | pool_manager/pool_v2/block_observer.py:31-46 | Without room every page from the insertion to the end of its stretch differs, when no neighbours are equal |
| `Packing.RoundTrip` | pool_manager/pool_v2/block_observer.py:169-211 | Replaying a packed observation over any store that holds its chunks gives its canonical form |
| `Packing.UnpagedKeepsOrder` | pool_manager/pool_v2/block_observer.py:99-101 | Without paging the canonical form is the observation itself |
| `Packing.OrderIsForgotten` | pool_manager/pool_v2/block_observer.py:49-97 | Observations that differ only in the order of record lists and active-ID lists have the same manifest, chunks and canonical form |
| `Packing.CanonicalReorders` | pool_manager/pool_v2/block_observer.py:99-101 | Canonicalising changes nothing but such orders |
| `Packing.CanonicalIsStable` | pool_manager/pool_v2/block_observer.py:99-101 | Canonicalising twice is canonicalising once, and a replayed observation packs to the same manifest and chunks |
| `Packing.ReferencesAreChunks` | pool_manager/pool_v2/block_observer.py:150-163 | The references of a manifest tree are exactly the digests of the chunks packing produced |
| `Packing.FiledRoundTrip` | pool_manager/pool_v2/block_observer.py:139-211 | A capture filed as one compact chunk, or as chunks with its tree stored as one more, replays to its observation, and its stored references are exactly its chunks |
| `Packing.StoredReplayReadsReferences` | pool_manager/pool_v2/block_observer.py:139-211 | Replay of any stored manifest (inline, by reference, compact or expired) reads its references only, and needs all of them |
| `Packing.EveryFiledChunkMatters` | pool_manager/pool_v2/block_observer.py:139-211 | Losing any one chunk of a filed capture makes its replay fail |
| `Packing.ReplayReadsReferences` | pool_manager/pool_v2/block_observer.py:139-211 | Replay depends on the referenced chunks only, and succeeds only if all of them are there |
| `Packing.JoinMeaning` | pool_manager/pool_v2/block_observer.py:132-136 | Pages of active IDs are joined exactly when each is a list of strings, in their order |
| `Packing.EveryChunkMatters` | pool_manager/pool_v2/block_observer.py:139-211 | Losing any one chunk makes replay fail |
| `SubmissionFence.FenceTheorem` | pool_manager/pool_v2/submissions.py:106-266 | In every run each intent is sent at most once, every recorded benchmark ID was created by that very intent, and no ID is recorded for or attached to two reservations |
| `SubmissionFence.RecoveryTheorem` | pool_manager/pool_v2/submissions.py:247-266 | Recovery from a feed that lists the own record attaches exactly that record; from one that does not, it changes nothing |
| `SubmissionFence.UploadTheorem` | pool_manager/pool_v2/submissions.py:139-151 | In every run an upload is accepted only after a successful answer to it (a confirmed payload counts as one), proofs leave only after the results were accepted, and nothing is posted but what a begin released, for a proposal a permitted one |
| `SubmissionFence.WorkMoves` | pool_manager/pool_v2/submissions.py:106-334 | A reservation's work moves only from reserved to sent, assigned and ended, or to released, each by its own event |
| `SubmissionFence.EndedForGood` | pool_manager/pool_v2/submissions.py:337-344 | After any run work that ended stays so, and whatever follows, nothing is posted for it but what was released before: a queued upload never becomes a late first POST |
| `SubmissionFence.UndisturbedWork` | pool_manager/pool_v2/submissions.py:106-334 | At any point of any run a proposal that nothing unresolved resembles and that nobody disturbs goes through: it, its results and its proofs are posted once each, in this order, and accepted, its benchmark is received, published and handed over, and nothing else changes |
| `SubmissionFence.OnlyOwnRecordQualifies` | pool_manager/pool_v2/submissions.py:247-266 | Over any reading of the feed the candidates for an uncertain proposal are exactly its own record, if listed |
| `SubmissionFence.ForeignCannotQualify` | pool_manager/pool_v2/submissions.py:236-266 | A feed record that qualifies for an uncertain proposal was created by it |
| `SubmissionFence.MatchesFixesKey` | pool_manager/pool_v2/submissions.py:236-244 | One record can match two proposals only if they have the same match key |
| `SubmissionFence.MatchIsExact` | pool_manager/pool_v2/submissions.py:236-244 | A record matches if and only if it equals the one record the proposal would make on one of its tracks |
| `SubmissionFence.StepKeeps` | pool_manager/pool_v2/submissions.py:106-344 | Every transaction, send, protocol reaction and foreign write keeps the fence invariant |
| `SubmissionFence.RunKeeps` | pool_manager/pool_v2/submissions.py:106-344 | It holds in every run |
| `SubmissionFence.SubmissionStore.Propose` | pool_manager/pool_v2/submissions.py:106-153 | A new reservation with a ready proposal |
| `SubmissionFence.SubmissionStore.Fenced` | pool_manager/pool_v2/submissions.py:132-138 | Whether another proposal with this match key is unresolved |
| `SubmissionFence.SubmissionStore.Begin` | pool_manager/pool_v2/submissions.py:106-153 | Permission to send is given exactly when the intent is ready and: for a proposal, the checks permit it, its work is reserved and no unresolved proposal has its settings and compute type; for an upload, the work is assigned and handed over; for proofs, the results are accepted. Then uncertainty and the seen IDs are committed first |
| `SubmissionFence.SubmissionStore.CancelUnsent` | pool_manager/pool_v2/submissions.py:156-166 | Only a ready intent is cancelled, with its reservation |
| `SubmissionFence.SubmissionStore.SaveReceipt` | pool_manager/pool_v2/submissions.py:169-181 | An identity is kept for good: contradicting it, or using it for another intent, is refused |
| `SubmissionFence.SubmissionStore.RecordResponse` | pool_manager/pool_v2/submissions.py:184-217 | An unsuccessful answer changes nothing, of any kind; a successful one turns an uncertain upload into an accepted one and touches nothing else; for a proposal it accepts only together with the receipt of the named benchmark |
| `SubmissionFence.SubmissionStore.Recover` | pool_manager/pool_v2/submissions.py:247-266 | Recovers only a listed match that was not seen before and is nobody else's, with its receipt; otherwise nothing changes |
| `SubmissionFence.SubmissionStore.Reject` | pool_manager/pool_v2/submissions.py:220-233 | A definitive rejection ends an uncertain intent without a receipt |
| `SubmissionFence.SubmissionStore.Publish` | pool_manager/pool_v2/submissions.py:269-320 | The assignment is published only for the received identity |
| `SubmissionFence.SubmissionStore.ConfirmPayload` | pool_manager/pool_v2/submissions.py:323-334 | A confirmed upload is accepted |
| `SubmissionFence.SubmissionStore.RetireUnsent` | pool_manager/pool_v2/submissions.py:337-344 | Only a ready upload is retired |
| `MerkleBranch.ProofRoot` | pool_manager/pool_v2/member_protocol.py:110-140 | The loop that shifts position by the skipped levels computes the climb that reads the bits of the nonce, with the same refusals |
| `MerkleBranch.HonestProofAccepted` | pool_manager/pool_v2/member_protocol.py:110-140 | For any number of leaves and any leaf the honest branch leads to the root of the tree with odd nodes promoted |
| `MerkleBranch.AcceptedProofIsCommitted` | pool_manager/pool_v2/member_protocol.py:110-140 | A proof mapped to the root of a tree whose i-th leaf carries nonce i has exactly the committed leaf, and the siblings of the honest branch |
| `MerkleBranch.BranchClimbs` | pool_manager/pool_v2/member_protocol.py:110-140 | From any node of any layer the rest of its branch climbs to the root |
| `MerkleBranch.PositionAloneIsNotBinding` | pool_manager/pool_v2/member_protocol.py:110-140 | Without numbered leaves the statement fails: a leaf stored under another position can be proved |
| `MerkleBranch.DepthsAreNotUnique` | pool_manager/pool_v2/member_protocol.py:110-140 | The depths in an accepted branch need not be the honest ones |
| `MerkleBranch.CheckProofs` | pool_manager/pool_v2/member_protocol.py:143-162 | Accepted exactly when every proof reaches the root and their nonces are the sampled ones, each once |
| `MerkleBranch.UploadIsCommitted` | pool_manager/pool_v2/member_protocol.py:143-162 | An accepted upload holds the committed leaf of every sampled nonce and nothing else |
| `Rewards.AllocateRewards` | pool_manager/pool_v2/money.py:55-72 | The loops compute everyone's units of the definition and a fee of five percent, or of everything without credit; refused exactly for an empty ID or negative credit |
| `Rewards.PaysExactlyThePot` | pool_manager/pool_v2/money.py:55-72 | Fee and units together are the pot |
| `Rewards.FeeIsFivePercent` | pool_manager/pool_v2/money.py:62-65 | The fee is five percent of the pot, rounded down; without credit it is the whole pot and nobody gets anything |
| `Rewards.WithinOneUnit` | pool_manager/pool_v2/money.py:62-72 | Everyone gets strictly within one unit of the exact share, never less than nothing, and nothing for no credit |
| `Rewards.MoreCreditNotLess` | pool_manager/pool_v2/money.py:62-72 | A strictly higher credit never gets less |
| `Rewards.MappingOrderIrrelevant` | pool_manager/pool_v2/money.py:55-72 | The order of the credit mapping changes neither fee nor units |
| `Rewards.LuckGoesByRemainder` | pool_manager/pool_v2/money.py:69-72 | A leftover unit never goes to a smaller remainder, nor to a later ID of an equal one, before a larger |
| `Rewards.LeftoverBounds` | pool_manager/pool_v2/money.py:66-72 | There are enough positive remainders for the leftover units |
| `Rewards.ShareOut` | pool_manager/pool_v2/money.py:62-72 | Floors first, then one unit each to the first of the order |
| `Rewards.RoundDown` | pool_manager/pool_v2/money.py:62-68 | Every share rounded down, with the total given out |
| `Rewards.AddOneEach` | pool_manager/pool_v2/money.py:70-71 | One unit more for exactly the named members |
| `QualifierCredit.EqualBundleCredit` | pool_manager/pool_v2/protocol.py:306-326 | Succeeds exactly when every quota fits its group and no group without bundles has one; then each bundle's credit is the closed form and the credits sum to the quotas |
| `QualifierCredit.CreditMeaning` | pool_manager/pool_v2/protocol.py:311-322 | The closed form, case by case: nothing when the better bundles use up the quota, one when better and tied fit, and an equal share of the rest between |
| `QualifierCredit.CreditGroup` | pool_manager/pool_v2/protocol.py:306-326 | One group: the served credits are clamp((quota - better) / tied, 0, 1), and credits and remaining quota make up the quota |
| `QualifierCredit.ServeRun` | pool_manager/pool_v2/protocol.py:311-322 | One run of equal quality keeps the served credits at the closed form |
| `QualifierCredit.RunMeaning` | pool_manager/pool_v2/protocol.py:306-326 | In sorted order the better bundles are those before a run and the tied ones are the run |
| `QualifierCredit.BetterIsServedFirst` | pool_manager/pool_v2/protocol.py:306-326 | A lower quality never gets more, and gets something only when every better bundle is full |
| `QualifierCredit.NoLowerQualityAhead` | pool_manager/pool_v2/protocol.py:306-326 | The same for two bundles of one group of a whole snapshot |
| `QualifierCredit.BundleOrderIrrelevant` | pool_manager/pool_v2/protocol.py:306-326 | The order of bundles changes no credit |
| `QualifierCredit.TotalsAgree` | pool_manager/pool_v2/protocol.py:323-325 | Awarded and promised totals agree exactly when no group without bundles has a quota |
| `QualifierCredit.Reconciled` | pool_manager/pool_v2/protocol.py:323-326 | The final check passes exactly on fitting quotas |
| `QualifierCredit.Grouped` | pool_manager/pool_v2/protocol.py:306-310 | Each group lists exactly its bundles, in order of appearance |
| `QualifierCredit.CollectBundles` | pool_manager/pool_v2/protocol.py:226-258 | The bundles are the active scores of live tracks, in benchmark order |
| `QualifierCredit.ScoresAreBundles` | pool_manager/pool_v2/protocol.py:226-258 | A bundle is in the snapshot if and only if it is a score of a live benchmark, with its place in the array |
| `QualifierCredit.ValidatedOnePerSlot` | pool_manager/pool_v2/protocol.py:226-258 | Validated bundles have distinct slots |
| `QualifierCredit.CheckCounts` | pool_manager/pool_v2/protocol.py:260-278 | Counts are refused exactly when one exceeds the bundles that could carry it; accepted quotas are the tally of the rows and fit |
| `QualifierCredit.CountOf` | pool_manager/pool_v2/protocol.py:263-278 | A tally holds the last count of every group |
| `QualifierCredit.CountedGroup` | pool_manager/pool_v2/protocol.py:263-278 | A tally holds no group without a row |
| `QualifierCredit.KeyNamesSlot` | pool_manager/pool_v2/protocol.py:319-320 | Among validated bundles benchmark and index name one bundle, so credits kept by them are credits by bundle |
| `QualifierCredit.CreditValidated` | pool_manager/pool_v2/protocol.py:260-326 | On counts that validation accepts, awarding credit never fails: every bundle has the closed-form credit of its group's count, and the credits sum to the counts |
| `CompactView.CreditsPreserved` | pool_manager/pool_v2/compact.py:40-122 | The credits computed from the compact snapshot are the network's, restricted to the pool's bundles |
| `CompactView.CompactIsValid` | pool_manager/pool_v2/compact.py:40-122 | A valid snapshot cut down to the pool still reconciles in every total |
| `CompactView.CompactIsAccepted` | pool_manager/pool_v2/compact.py:125-207 | It passes the stricter compact validation |
| `CompactView.ReferencesAreTheNetworksBest` | pool_manager/pool_v2/compact.py:40-122 | A reference exists for exactly the pairs with a bundle and is the best of the whole network there, with its own parameters |
| `CompactView.IndexReferences` | pool_manager/pool_v2/selection.py:48-60 | The loop finds the first bundle of each pair by quality, benchmark and position |
| `CompactView.BestIsFirst` | pool_manager/pool_v2/selection.py:48-60 | That bundle belongs to the pair and no bundle of it comes before |
| `CompactView.ViewPreserved` | pool_manager/pool_v2/selection.py:79-198 | Everything selection reads is the same in both snapshots |
| `CompactView.ChoicePreserved` | pool_manager/pool_v2/selection.py:79-198 | Selection from the compact snapshot equals selection from the network for every offer and every random draw |
| `CompactView.ChoiceIsFair` | pool_manager/pool_v2/selection.py:79-198 | Work is refused for want of candidates only when there is none; otherwise the challenge has fewest pool qualifiers and the algorithm the highest adoption among the usable |
| `ChoiceLaws.NoWorkLaw` | pool_manager/pool_v2/selection.py:85-131 | There is no work if and only if the snapshot is timely and complete and no pair of active challenge of the offered kind and active, unbanned, compiled algorithm exists |
| `ChoiceLaws.WorkLaw` | pool_manager/pool_v2/selection.py:79-198 | What a choice contains, field by field: a playable pair with fewest qualifiers and highest adoption, the snapshot's round and block, each track's bundles, fuel and reference parameters, ten tokens of collateral per bundle of the largest track, and its base and bundle fee |
| `ChoiceLaws.ErrorLaw` | pool_manager/pool_v2/selection.py:79-155 | Data out of time or torn is refused; otherwise a refusal of data means that a challenge which could be chosen asks for no bundles on a track or is offered more fuel than it allows |
| `ChoiceLaws.EveryTieCanBeDrawn` | pool_manager/pool_v2/selection.py:127-141 | Every pair that is tied for the choice is chosen by some draw, and is then offered unless its challenge is so set |
| `CompactView.PoolQuotas` | pool_manager/pool_v2/compact.py:40-122 | The pool's quotas survive unchanged and nobody else's do |
| `CompactView.PoolQualifiers` | pool_manager/pool_v2/compact.py:40-122 | Counts of the pool's own qualifiers are the same in both, those of others vanish |
| `CompactView.PoolTrack` | pool_manager/pool_v2/compact.py:40-122 | A compact track total is the pool's part of the network's total |
| `CompactView.CompactTotals` | pool_manager/pool_v2/compact.py:40-122 | In a valid snapshot cut down to the pool each track total is what the network reports for the pool on that track, its reports are the pool's entries unchanged, and the network's own total is everyone's qualifiers |
| `Ledger.EnterKeeps` | pool_manager/pool_v2/ledger.py:31-82 | A posting that succeeds keeps balances equal to the sums of entries and every non-external balance nonnegative; a new key moves exactly its amounts |
| `Ledger.PostEffect` | pool_manager/pool_v2/ledger.py:31-82 | A new posting moves the net of its movements, takes its key, and keeps every place balanced when the movements balance there |
| `Ledger.PostsExactly` | pool_manager/pool_v2/ledger.py:31-82 | A level posting under a new key succeeds if and only if it moves anything, every account it moves is open, and no account but an external one would go below zero |
| `Ledger.TransferPosts` | pool_manager/pool_v2/ledger.py:31-82 | So a transfer within one asset and place succeeds exactly when both accounts are open and the amount is covered |
| `Ledger.NettedAmounts` | pool_manager/pool_v2/ledger.py:40-45 | Netting keeps exactly the accounts whose movements do not cancel, with their sums |
| `Ledger.AssetByPlace` | pool_manager/pool_v2/ledger.py:68-75 | An asset's total is the sum of its two places' |
| `Ledger.ReplayChangesNothing` | pool_manager/pool_v2/ledger.py:52-57 | A recorded event key posts nothing more: it is answered with its own journal or refused |
| `Ledger.PostIsIdempotent` | pool_manager/pool_v2/ledger.py:31-82 | Posting twice equals posting once |
| `Ledger.ReversalUndoes` | pool_manager/pool_v2/ledger.py:85-93 | A reversal takes a journal's effect back from every account, and a second one is refused |
| `Ledger.NettedTotal` | pool_manager/pool_v2/ledger.py:40-45 | Netting movements per account keeps the total at every asset and place |
| `Ledger.EnteredTotals` | pool_manager/pool_v2/ledger.py:77-82 | A journal adds its own totals to those of the balances |
| `Ledger.BackingIsMinusOutside` | pool_manager/pool_v2/ledger.py:103-106 | What is held at a place is minus the external account of that place |
| `Ledger.PostingKeepsPlaces` | pool_manager/pool_v2/ledger.py:68-75 | A new posting keeps every place balanced if and only if its movements balance at every place |
| `Ledger.PostingDoesNotCheckPlaces` | pool_manager/pool_v2/ledger.py:68-75 | A posting that does not: TIG moved between two internal accounts of different places is accepted and breaks the backing |
| `Ledger.JournalStore.Open` | pool_manager/pool_v2/ledger.py:22-28 | An account is opened once, with zero |
| `Ledger.JournalStore.NetAmounts` | pool_manager/pool_v2/ledger.py:40-45 | The loop adds movements per account and drops zeros |
| `Ledger.JournalStore.CheckFunds` | pool_manager/pool_v2/ledger.py:63-75 | Refuses exactly an overdraft of a non-external account, and totals each asset |
| `Ledger.JournalStore.EnterJournal` | pool_manager/pool_v2/ledger.py:31-82 | Idempotent by key, otherwise refused without effect for the first reason that applies, otherwise entered |
| `Ledger.JournalStore.PostMovements` | pool_manager/pool_v2/ledger.py:31-82 | Movements are netted and entered |
| `Ledger.JournalStore.ReverseJournal` | pool_manager/pool_v2/ledger.py:85-93 | The negated amounts are entered as a reversal |
| `Ledger.JournalStore.BackingOf` | pool_manager/pool_v2/ledger.py:103-106 | The sum of the non-external balances at a place |
| `Ledger.JournalStore.Audit` | pool_manager/pool_v2/ledger.py:96-100 | Exactly the accounts whose balance is not the sum of their entries |
| `Escrow.EscrowMeaning` | pool_manager/pool_v2/benchmarks.py:71-277 | Collateral is held exactly while no outcome is set and the fee ceiling exactly while no fee is; collateral has left by exactly one journal; sent work is never released by the unsent path |
| `Escrow.NeverThreeSlots` | pool_manager/pool_v2/benchmarks.py:103-105 | No member has three reservations that hold a slot |
| `Escrow.KeepsReserve` | pool_manager/pool_v2/benchmarks.py:71-131 | Reserving keeps this, with the slot limit |
| `Escrow.KeepsMark` | pool_manager/pool_v2/benchmarks.py:134-152 | So does committing to send |
| `Escrow.KeepsAccept` | pool_manager/pool_v2/benchmarks.py:167-184 | So does acceptance |
| `Escrow.KeepsUnstarted` | pool_manager/pool_v2/benchmarks.py:187-209 | So does release of unsent or rejected work |
| `Escrow.KeepsUnhanded` | pool_manager/pool_v2/benchmarks.py:212-245 | So does the return of unclaimed work |
| `Escrow.KeepsAcknowledge` | pool_manager/pool_v2/benchmarks.py:248-259 | So does handover |
| `Escrow.KeepsOutcome` | pool_manager/pool_v2/benchmarks.py:262-277 | So does a protocol outcome |
| `Escrow.KeepsFinalize` | pool_manager/pool_v2/settlement.py:18-60 | So does finalizing collateral |
| `Escrow.FinalizeSteps` | pool_manager/pool_v2/settlement.py:18-60 | Finalizing adds to a round's pot exactly what it newly forfeits there |
| `Escrow.ResolvedForfeits` | pool_manager/pool_v2/settlement.py:18-60 | Once all outcomes of a round are known, its forfeited total is final |
| `Escrow.MarkKeepsWindow` | pool_manager/pool_v2/spending.py:60-90 | A send permitted by the cap keeps every window of the cap's length within its limit |
| `Escrow.ChargesWithinWindow` | pool_manager/pool_v2/spending.py:60-90 | So do the fees actually charged, in every window and not only those ending now |
| `EscrowLaws.ReserveLaw` | pool_manager/pool_v2/benchmarks.py:71-131 | A reservation is made exactly when it may be; its row is reserved, holds a slot, and has neither time of sending, fee nor outcome; collateral leaves the member and the ceiling the operator |
| `EscrowLaws.AcceptLaw` | pool_manager/pool_v2/benchmarks.py:155-184 | Accepted exactly when sent and no dearer than its ceiling; the charge leaves the pool, the rest returns to the operator |
| `EscrowLaws.UnstartedLaw` | pool_manager/pool_v2/benchmarks.py:187-209 | When unsent or rejected work is released, and what then happens to row, collateral and ceiling |
| `EscrowLaws.UnhandedLaw` | pool_manager/pool_v2/benchmarks.py:212-245 | Accepted work is returned whole exactly when it expired and nobody took it |
| `EscrowLaws.OutcomeLaw` | pool_manager/pool_v2/benchmarks.py:262-277 | Accepted work ends active, failed or expired, the first two only after handover; its slot is free then and an active height is kept |
| `EscrowLaws.FinalizeLaw` | pool_manager/pool_v2/settlement.py:18-60 | Collateral of work never handed over, or handed over, active and without an upheld report, returns to its member with exactly the amount; of handed-over work that never became active or has an upheld report it goes to the round, with exactly the amount. Nothing else moves, and once it may it happens |
| `EscrowLaws.SlotsOfMore` | pool_manager/pool_v2/benchmarks.py:103-105 | Held slots are counted reservation by reservation |
| `EscrowLaws.CommittedOfMore` | pool_manager/pool_v2/spending.py:60-77 | Committed fees are counted reservation by reservation: sent within the window, or reserved within it and unsent, except the asking one |
| `Escrow.BenchmarkDesk.SlotsHeld` | pool_manager/pool_v2/benchmarks.py:103-105 | Counts the member's held slots |
| `Escrow.BenchmarkDesk.CommittedFees` | pool_manager/pool_v2/spending.py:60-77 | Ceilings of work first sent in the window or still reserved from it |
| `Escrow.BenchmarkDesk.CheckFee` | pool_manager/pool_v2/spending.py:80-90 | Allowed exactly within the attempt and the window limit |
| `Escrow.BenchmarkDesk.ReserveWork` | pool_manager/pool_v2/benchmarks.py:71-131 | A reservation with its collateral and fee ceiling, or no change |
| `Escrow.BenchmarkDesk.Submit` | pool_manager/pool_v2/benchmarks.py:134-152 | Reserved work becomes uncertain, with its send time |
| `Escrow.BenchmarkDesk.PayFees` | pool_manager/pool_v2/benchmarks.py:155-164 | Charge leaves, the rest of the ceiling returns |
| `Escrow.BenchmarkDesk.AcceptWork` | pool_manager/pool_v2/benchmarks.py:167-184 | Uncertain work is accepted with its charge |
| `Escrow.BenchmarkDesk.Release` | pool_manager/pool_v2/benchmarks.py:187-209 | Unsent or rejected work ends, its slot and collateral return |
| `Escrow.BenchmarkDesk.ReleaseUnclaimed` | pool_manager/pool_v2/benchmarks.py:212-245 | Accepted work nobody took returns its collateral |
| `Escrow.BenchmarkDesk.HandOver` | pool_manager/pool_v2/benchmarks.py:248-259 | First handover to the owner is remembered |
| `Escrow.BenchmarkDesk.Conclude` | pool_manager/pool_v2/benchmarks.py:262-277 | Accepted work gets its one outcome and frees its slot |
| `Escrow.BenchmarkDesk.FinalizeCollateral` | pool_manager/pool_v2/settlement.py:18-60 | Refused without effect, or the outcome is set: returned for work never handed over and for handed-over work that became active without an upheld report, forfeited otherwise |
| `Rounds.DeskStepKeeps` | pool_manager/pool_v2/settlement.py:18-60 | Whatever reservations do, every pot stays equal to its inputs or, once settled, empty: new work gets the newest round, which cannot be settled |
| `Rounds.KeepsReserveNext` | pool_manager/pool_v2/work_requests.py:107-167 | Reserving the next request keeps that |
| `Rounds.KeepsObserve` | pool_manager/pool_v2/reports.py:136-179 | So do new blocks and seals, which need a block from round k + 3 |
| `Rounds.KeepsReceive` | pool_manager/pool_v2/deposits.py:52-70 | So does a received transfer, which is entered and attributed at most once |
| `Rounds.KeepsAttribute` | pool_manager/pool_v2/deposits.py:36-49 | So does attributing one |
| `Rounds.KeepsDeclare` | pool_manager/pool_v2/settlement.py:63-80 | So does declaring earnings |
| `Rounds.KeepsReceipt` | pool_manager/pool_v2/settlement.py:83-115 | So does attributing a reward receipt, never beyond what was declared |
| `Rounds.KeepsReimburse` | pool_manager/pool_v2/settlement.py:118-136 | So does the operator's reimbursement |
| `Rounds.KeepsSettle` | pool_manager/pool_v2/settlement.py:149-216 | So does settlement |
| `Rounds.SettleLevel` | pool_manager/pool_v2/settlement.py:192-212 | The settlement journal balances at every place, because the allocation pays exactly the pot |
| `Rounds.SettlementPaysInputs` | pool_manager/pool_v2/settlement.py:189-212 | The last check before paying never fails, and what is paid is exactly the inputs |
| `Rounds.SettledForGood` | pool_manager/pool_v2/settlement.py:149-216 | A settled round is empty and fully resolved, and the newest round is at least three later |
| `RoundLaws.DeclareLaw` | pool_manager/pool_v2/settlement.py:63-80 | Declared once, three rounds later, with the expected and the withheld amount each in its place; no balance moves |
| `RoundLaws.ReserveNextLaw` | pool_manager/pool_v2/work_requests.py:107-167 | New work belongs to the newest round, and only when there is one |
| `RoundLaws.FinalizeInLaw` | pool_manager/pool_v2/settlement.py:18-60 | Collateral is finalized only under the seal of its own round with no open report, then it is, and it goes to the member or the round by the three cases |
| `RoundLaws.AttributeLaw` | pool_manager/pool_v2/deposits.py:36-49 | A recorded transfer is attributed exactly when it has no destination yet and its whole amount reaches the account; then it moves there |
| `RoundLaws.ReviewedLaw` | pool_manager/pool_v2/deposits.py:73-94 | A reviewed receipt goes whole to the named member, or to the operator, exactly when it is recorded and unattributed |
| `RoundLaws.ReceiveNew` | pool_manager/pool_v2/deposits.py:52-70 | A transfer not seen before is entered with its amount and attributed to the member whose wallet sent it, or to nobody; the money comes from outside |
| `RoundLaws.ReceiveAgain` | pool_manager/pool_v2/deposits.py:13-70 | One seen before must have the same amount, and at most a missing attribution to that member is made up for |
| `RoundLaws.ReceivedOfMore` | pool_manager/pool_v2/settlement.py:178-181 | Receipts are summed one by one |
| `RoundLaws.ReceiptLaw` | pool_manager/pool_v2/settlement.py:83-115 | A reward joins a declared, unsettled round exactly when it is recorded, unattributed and fits what was declared |
| `RoundLaws.ReimburseLaw` | pool_manager/pool_v2/settlement.py:118-136 | The operator replaces exactly the withheld cost, once, before settlement |
| `RoundLaws.SettleHappens` | pool_manager/pool_v2/settlement.py:149-216 | Once a round is sealed, covered, declared, resolved, fully received and reimbursed, it settles |
| `RoundLaws.SettleLaw` | pool_manager/pool_v2/settlement.py:149-216 | Only then; the pot recorded is receipts, reimbursement and forfeited collateral, and the round's account is empty |
| `Rounds.RoundDesk.ObserveBlock` | pool_manager/pool_v2/work_requests.py:107-167 | The newest round never decreases |
| `Rounds.RoundDesk.SealReports` | pool_manager/pool_v2/reports.py:136-179 | A seal needs complete reports and a block from round k + 3 |
| `Rounds.RoundDesk.FinalizeWork` | pool_manager/pool_v2/settlement.py:18-60 | Finalizing needs the creation round's seal |
| `Rounds.RoundDesk.DeclareEarnings` | pool_manager/pool_v2/settlement.py:63-80 | Earnings are declared once, after the reporting delay |
| `Rounds.RoundDesk.AttributeTo` | pool_manager/pool_v2/deposits.py:36-49 | A transfer goes to one destination, once |
| `Rounds.RoundDesk.ReceiveTransfer` | pool_manager/pool_v2/deposits.py:52-70 | A transfer is entered and attributed in one transaction; contradicting a recorded one is refused |
| `Rounds.RoundDesk.TotalReceived` | pool_manager/pool_v2/settlement.py:178-181 | Sums the receipts of the round |
| `Rounds.RoundDesk.AttributeReward` | pool_manager/pool_v2/settlement.py:83-115 | A receipt joins its round |
| `Rounds.RoundDesk.ReimburseCost` | pool_manager/pool_v2/settlement.py:118-136 | The withheld cost is put back once |
| `Rounds.RoundDesk.TotalForfeited` | pool_manager/pool_v2/settlement.py:186-189 | Sums the forfeited collateral of the round |
| `Rounds.RoundDesk.Payments` | pool_manager/pool_v2/settlement.py:192-212 | The settlement movements for the allocation |
| `Rounds.RoundDesk.Prepare` | pool_manager/pool_v2/settlement.py:167-191 | Ready exactly when sealed, covered, declared, resolved and fully funded; then the pot is the inputs |
| `Rounds.RoundDesk.SettleRound` | pool_manager/pool_v2/settlement.py:149-216 | Pays the round out once and records pot and credits, or changes nothing |
| `Payments.WithdrawalMeaning` | pool_manager/pool_v2/withdrawals.py:19-312 | The hold is the amount exactly while asked, approved or unsettled; unsettled exactly when one attempt lacks an outcome, paid exactly when one attempt paid, and never two |
| `Payments.GasMeaning` | pool_manager/pool_v2/withdrawals.py:158-312 | A gas hold is full until its attempt is resolved, then empty |
| `Payments.OneExplanationEach` | pool_manager/pool_v2/custody.py:71-113 | Different sends never share a nonce, a transaction or a token event |
| `Payments.AllOrNothing` | pool_manager/pool_v2/withdrawals.py:228-312 | Resolving an attempt moves out of custody nothing, or the full amount exactly when it pays |
| `Payments.GasStaysWithin` | pool_manager/pool_v2/spending.py:93-104 | A permitted send keeps every window within the gas limit |
| `PaymentLaws.AskLaw` | pool_manager/pool_v2/withdrawals.py:19-96 | A withdrawal is asked for exactly when the amount is positive and available, no other is pending and the request is new, the operator's reserve remaining; the amount moves into its hold |
| `PaymentLaws.ReleaseLaw` | pool_manager/pool_v2/withdrawals.py:133-151 | A hold returns whole to where it came from, only before a send |
| `PaymentLaws.BeginLaw` | pool_manager/pool_v2/withdrawals.py:158-208 | When a send is committed, and that the gas ceiling is set aside and the nonce taken |
| `PaymentLaws.JudgedOnce` | pool_manager/pool_v2/withdrawals.py:272-291 | A transaction pays only if it succeeded with an exact event, reverts only if it failed without one, and voids only if it succeeded empty; everything else has no outcome |
| `PaymentLaws.ReconcileLaw` | pool_manager/pool_v2/withdrawals.py:228-312 | Reconciling changes nothing but the chain evidence, or settles the attempt as the transaction is judged: the withdrawal paid by that event, or approved again; hold, gas and custody move by exactly the amounts |
| `PaymentLaws.ReconcileHappens` | pool_manager/pool_v2/withdrawals.py:228-312 | With open accounts the attempt is settled if and only if the transaction is its own, the attempt is unresolved, it is judged, its hash and event are unused, and its fee is covered |
| `PaymentLaws.ConcludeLaw` | pool_manager/pool_v2/withdrawals.py:266-312 | An outcome settles one attempt or changes nothing |
| `PaymentLaws.ConcludeHappens` | pool_manager/pool_v2/withdrawals.py:266-312 | And exactly when it settles |
| `PaymentLaws.SponsoredLaw` | pool_manager/pool_v2/withdrawals.py:315-380 | A payment sent by somebody else settles an unresolved attempt as paid, at no cost, exactly when it succeeded with the exact transfer and is unused |
| `PaymentLaws.TopUpLaw` | pool_manager/pool_v2/topups.py:18-64 | When a top-up is committed, and that amount and gas ceiling are set aside |
| `PaymentLaws.ReconcileTopupLaw` | pool_manager/pool_v2/topups.py:91-151 | As for withdrawals: only the evidence changes, or the top-up awaits credit, failed or was dropped, as the transaction is judged |
| `PaymentLaws.ReconcileTopupHappens` | pool_manager/pool_v2/topups.py:91-151 | And exactly when |
| `PaymentLaws.ConcludeTopupLaw` | pool_manager/pool_v2/topups.py:118-151 | An outcome settles one top-up or changes nothing |
| `PaymentLaws.CreditLaw` | pool_manager/pool_v2/topups.py:154-184 | A top-up that left custody is credited exactly when the protocol confirms it under an unused identity, once, with its full amount |
| `PaymentLaws.GasOfMore` | pool_manager/pool_v2/spending.py:60-77 | Committed gas is counted send by send |
| `Payments.KeepsAsk` | pool_manager/pool_v2/withdrawals.py:19-96 | Asking keeps all holds and tables sound, and accounts for what left custody |
| `Payments.KeepsApprove` | pool_manager/pool_v2/withdrawals.py:111-130 | So does approving |
| `Payments.KeepsRelease` | pool_manager/pool_v2/withdrawals.py:133-151 | So does releasing |
| `Payments.KeepsBegin` | pool_manager/pool_v2/withdrawals.py:158-208 | So does committing a send |
| `Payments.KeepsConclude` | pool_manager/pool_v2/withdrawals.py:266-312 | So does an outcome |
| `Payments.KeepsReconcile` | pool_manager/pool_v2/withdrawals.py:228-312 | So does reconciling with a confirmed transaction |
| `Payments.KeepsSponsored` | pool_manager/pool_v2/withdrawals.py:315-380 | So does a payment sent by somebody else |
| `Payments.KeepsTopUp` | pool_manager/pool_v2/topups.py:18-64 | So does starting a top-up |
| `Payments.KeepsConcludeTopup` | pool_manager/pool_v2/topups.py:118-151 | So does its outcome |
| `Payments.KeepsReconcileTopup` | pool_manager/pool_v2/topups.py:111-151 | So does reconciling it |
| `Payments.KeepsCredit` | pool_manager/pool_v2/topups.py:154-184 | So does the protocol's credit |
| `Payments.PaymentDesk.CommittedGas` | pool_manager/pool_v2/spending.py:60-77 | Gas ceilings of all sends in the window |
| `Payments.PaymentDesk.CheckGas` | pool_manager/pool_v2/spending.py:93-104 | Allowed exactly within both limits |
| `Payments.PaymentDesk.SaveTransaction` | pool_manager/pool_v2/custody.py:32-56 | Facts are kept once; a hash or a sender's nonce gets no second meaning |
| `Payments.PaymentDesk.RequestWithdrawal` | pool_manager/pool_v2/withdrawals.py:19-96 | A withdrawal with its hold, or no change |
| `Payments.PaymentDesk.ApproveWithdrawal` | pool_manager/pool_v2/withdrawals.py:111-130 | Only an asked one is approved |
| `Payments.PaymentDesk.ReleaseWithdrawal` | pool_manager/pool_v2/withdrawals.py:133-151 | A hold returns only before any unresolved send |
| `Payments.PaymentDesk.BeginSend` | pool_manager/pool_v2/withdrawals.py:158-208 | Nonce and gas are committed before sending |
| `Payments.PaymentDesk.ConcludeSend` | pool_manager/pool_v2/withdrawals.py:266-312 | One outcome per attempt; a refusal changes nothing |
| `Payments.PaymentDesk.ReconcileSend` | pool_manager/pool_v2/withdrawals.py:228-312 | A withdrawal becomes paid only by a successful transaction with the exact event, an attempt fails only by a failed one without an event and is cancelled only by a successful empty one; otherwise nothing changes but the evidence, which is kept whatever becomes of the accounting |
| `Payments.PaymentDesk.StartTopup` | pool_manager/pool_v2/topups.py:18-64 | Amount, gas and nonce are committed |
| `Payments.PaymentDesk.ConcludeTopupSend` | pool_manager/pool_v2/topups.py:118-151 | One outcome per top-up |
| `Payments.PaymentDesk.ReconcileTopupSend` | pool_manager/pool_v2/topups.py:111-151 | The same for a top-up: it awaits credit, failed or was dropped by the same three cases only |
| `Payments.PaymentDesk.CreditProtocol` | pool_manager/pool_v2/topups.py:154-184 | A confirmation credits one top-up, once |
| `Treasury.Run` | pool_manager/pool_v2/ledger.py:31-106 | Every run of the whole pool ends in a sound state |
| `Treasury.StepKeeps` | pool_manager/pool_v2/ledger.py:31-106 | Every operation keeps reservations, rounds, payments, windows and conservation sound together |
| `Treasury.BooksTheorem` | pool_manager/pool_v2/ledger.py:96-106 | In every run balances are sums of entries, only external accounts are negative, and the backing of each place is minus its external account |
| `Treasury.CustodyConservation` | pool_manager/pool_v2/ledger.py:103-106 | In every run custody's TIG is the opening plus received transfers less paid withdrawals and sent top-ups |
| `Treasury.EscrowTheorem` | pool_manager/pool_v2/benchmarks.py:71-277 | The meaning of escrow, in every run |
| `Treasury.SlotTheorem` | pool_manager/pool_v2/benchmarks.py:103-105 | No member holds three slots, in every run |
| `Treasury.RoundTheorem` | pool_manager/pool_v2/settlement.py:149-216 | A round account is receipts plus reimbursement plus forfeited collateral until settled and zero afterwards, in every run |
| `Treasury.SettledOnce` | pool_manager/pool_v2/settlement.py:149-216 | Over every continuation of a run a settled round keeps its pot, credits and outcomes and gets no reservation |
| `Treasury.SpendingTheorem` | pool_manager/pool_v2/spending.py:60-104 | In every run under a fixed cap and a clock that never runs back, every interval of the window's length stays within the fee limit, by ceilings and by charges, and within the gas limit for withdrawals and top-ups together |
| `Treasury.PaymentTheorem` | pool_manager/pool_v2/withdrawals.py:19-380 | In every run a withdrawal's hold is its amount exactly while pending; it is unsettled exactly when one attempt, and only one, lacks an outcome, and paid exactly when one, and only one, paid |
| `Treasury.HoldTheorem` | pool_manager/pool_v2/withdrawals.py:158-312 | In every run gas holds of attempts, and both holds of top-ups, are full until resolved and then empty |
| `Treasury.ExplanationTheorem` | pool_manager/pool_v2/custody.py:71-113 | In every run each nonce, transaction and token event explains at most one send |
| `Treasury.EntersLaw` | pool_manager/pool_v2/ledger.py:31-82 | What is brought in from outside is the operator's, whole and once per key |
| `PoolLaws.OpensInRuns` | pool_manager/pool_v2/ledger.py:22-28 | At any point of any run of the whole pool: an account that belongs to no table row is opened, with zero |
| `PoolLaws.FundsInRuns` | pool_manager/pool_v2/custody.py:59-68 | So is gas brought in by a new transaction entered, whole |
| `PoolLaws.ReceivesInRuns` | pool_manager/pool_v2/deposits.py:52-70 | So is a transfer not seen before, where its sender's funds are or to wait unattributed |
| `PoolLaws.ReservesInRuns` | pool_manager/pool_v2/benchmarks.py:71-131 | So is work reserved for the newest round once it may, with collateral and ceiling set aside |
| `PoolLaws.FinalizesInRuns` | pool_manager/pool_v2/settlement.py:18-60 | So is collateral finalized under its round's seal, to the member or to the round |
| `PoolLaws.SettlesInRuns` | pool_manager/pool_v2/settlement.py:149-216 | So is a round settled for its inputs once it may, and every member's balance rises by exactly the allocation's amount |
| `PoolLaws.PaysInRuns` | pool_manager/pool_v2/withdrawals.py:228-312 | So is a withdrawal paid by a confirmed, exact and unused transfer of its own send: its hold and that amount leave custody, its fee the gas hold |
| `Statements.StatementTheorem` | pool_manager/pool_v2/ledger.py:96-106 | In every run the balances of every member, of the operator in TIG and gas, of unattributed funds and of protocol fees are what the tables explain: transfers by destination, awards of settled rounds, reimbursements, collateral not returned, fees, withdrawals, top-ups and gas |
| `Statements.GasTheorem` | pool_manager/pool_v2/withdrawals.py:292-298 | In every run the operator's gas is what was brought in less open ceilings and paid fees, and custody holds what was brought in less paid fees |
| `Statements.MemberTheorem` | pool_manager/pool_v2/settlement.py:149-216 | A member can spend exactly the transfers attributed to them plus their awards, less collateral not returned and withdrawals pending or paid |
| `Statements.AwardIsAllocation` | pool_manager/pool_v2/settlement.py:192-212 | A member's award in a settled round is the allocation's amount for their credit |
| `Statements.SettledBalance` | pool_manager/pool_v2/settlement.py:192-212 | Settling moves every explained account by its award |
| `Statements.FinalizeTells` | pool_manager/pool_v2/settlement.py:18-60 | Collateral returns to its own member or, forfeited, to nobody's balance |
| `Statements.UnstartedTells` | pool_manager/pool_v2/benchmarks.py:187-209 | Released work gives its collateral to its own member and the unused ceiling to the operator |
| `Statements.UnhandedTells` | pool_manager/pool_v2/benchmarks.py:212-245 | Unclaimed work gives its collateral to its own member |
| `Statements.StepStates` | pool_manager/pool_v2/ledger.py:31-106 | Every operation of the pool keeps all statements exact |
| `CustodyObserver.TilingTheorem` | pool_manager/pool_v2/chain_observer.py:160-289 | The batches cover every height from the start to the cursor exactly once and no other height |
| `CustodyObserver.CreditTheorem` | pool_manager/pool_v2/chain_observer.py:246-251 | Every external incoming transfer in range is credited exactly once, wherever the process stopped in between, and every credit is for an external transfer of the chain |
| `CustodyObserver.TelescopingTheorem` | pool_manager/pool_v2/chain_observer.py:39-95 | The wallet's TIG at the cursor is its TIG before the start plus all signed transfers |
| `CustodyObserver.ChangesOfMore` | pool_manager/pool_v2/chain_observer.py:39-95 | The sum of signed transfers, one by one: what comes in less what goes out |
| `CustodyObserver.HealthyMeansCovered` | pool_manager/pool_v2/chain_observer.py:252-289 | A healthy check on distinct nonces means the recorded payments use every nonce from start to closing |
| `CustodyCheck.RowsApart` | pool_manager/pool_v2/custody.py:71-113 | The shared nonce fence of withdrawals and top-ups makes the nonces of recorded payments distinct |
| `CustodyCheck.HealthTheorem` | pool_manager/pool_v2/chain_observer.py:252-289 | For every run of observer and pool a healthy check means: the wallet's TIG on the chain is the pool's opening plus recorded transfers less paid withdrawals and sent top-ups; its native balance is the gas brought in less fees; every nonce used since the observer's start is explained by exactly one recorded send; every transfer out of the wallet in range was made by a recorded payment; the capture reached its target, the history is not in conflict and the code is known |
| `CustodyCheck.OutgoingExplained` | pool_manager/pool_v2/chain_observer.py:260-265 | The check for unexplained transfers is exact: when it finds none, every event of the chain that took TIG out of the wallet belongs to a recorded payment |
| `CustodyCheck.AllSeen` | pool_manager/pool_v2/chain_observer.py:246-251 | When the check runs, every event of the chain from the start to the end of the capture is recorded |
| `CustodyObserver.Pigeonhole` | pool_manager/pool_v2/chain_observer.py:252-289 | A set as large as the range that contains it is the range |
| `CustodyObserver.CreditsKeep` | pool_manager/pool_v2/chain_observer.py:246-251 | Crediting keeps one posting per recorded transfer |
| `CustodyObserver.CreditsStop` | pool_manager/pool_v2/chain_observer.py:246-251 | After a contradiction nothing more is credited |
| `CustodyObserver.StepKeeps` | pool_manager/pool_v2/chain_observer.py:160-289 | Every start, record and interrupted record keeps batches end to end and their transfers credited |
| `CustodyObserver.RunKeeps` | pool_manager/pool_v2/chain_observer.py:160-289 | They hold in every run |
| `CustodyObserver.Watch.Initialize` | pool_manager/pool_v2/chain_observer.py:183-221 | The first capture fixes start and anchors, once |
| `CustodyObserver.Watch.Receive` | pool_manager/pool_v2/deposits.py:13-70 | One transfer is recorded and credited, or found unchanged, or refused as contradictory |
| `CustodyObserver.Watch.CreditAll` | pool_manager/pool_v2/chain_observer.py:246-251 | Transfers are credited one by one until a contradiction or a stop |
| `CustodyObserver.Watch.Record` | pool_manager/pool_v2/chain_observer.py:160-294 | The cursor moves only after all transfers of the batch were credited |
| `CustodyObserver.Watch.Check` | pool_manager/pool_v2/chain_observer.py:252-289 | Healthy exactly when both balances and the nonce count agree, nothing is unexplained or in conflict, the code is known and the capture reached its target |

## Left out

- HTTP API, website, dashboards, service factories and command-line tools: plumbing around the modelled functions.
- RPC and TIG clients, wallet signatures, token authentication, key recovery, gzip and fsync: foreign calls whose results
  are inputs here.
- SQL text, migrations and database locking: a committed transaction is one step.
- Byte formats of SHA-256, BLAKE3 and JSON, the hexadecimal form of a Merkle branch and the 64-bit truncation of a
  solution's hash: abstract injective values.
- Health checks, pilot limits, release manifests, starter and prelaunch credits and gap-policy bookkeeping: single guards.
- Backup relocation, trace-tree checks and the nonce search: easier properties of separate tools.
- Conflict-equivalence proofs: only that a resolution clears one conflict and advances the cursor again.
- Failed captures in the last-use property: it is about recorded blocks, and a sweep may take the chunks of a failed one.
- Pool-scoped observations, the external reference index, source digests and identity versions of compact observations.
- `money.collateral` and the storage of `qualifiers.credit_block` and `round_credits`: arithmetic and table filling whose
  results are inputs to reservations and settlements here.
- Reporting facts and their index: a seal's completeness is an input.
- Changing the spending cap, and reversals of journals within a whole run (a reversal is proved to undo at the ledger).
- Claiming a transaction hash ahead of reconciliation, which only records it.
- The second uniqueness check of a top-up credit, by transfer event: implied by distinct events.
