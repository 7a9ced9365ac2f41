# Verified model of LLM386's stores, pager and packer

LLM386 keeps conversation blocks in a content-addressed store, selects which of them go into a
model's context window under a token budget, and renders the selection as a prompt. This project
models its four load-bearing components and proves what they are for:

* **The Postgres store as a protocol** (`pg_*.dfy`). `put`, `delete` and `purge_session` are
  sequences of SQL statements under READ COMMITTED. A state holds the committed tables, the row
  locks and, per open transaction, a program counter with its uncommitted writes; one step is one
  statement with a fresh snapshot, one row of a multi-row statement, or a commit or rollback. A run is any
  interleaving of any number of transactions.
* **The greedy pager** (`budget`, `candidates`, `fill*`, `reach`, `bfs`, `neighbours`, `pull_*`,
  `expansion`, `forced`, `reconcile*`, `pager*`, `plan_causes`). The whole pipeline of `page`: pin,
  reserve the task, merge and rank candidates, fill System and the sections, expand over typed edges,
  reconcile contradictions. Iteration over a hash map is a loop that picks an arbitrary remaining key.
* **The LMDB store** (`lmdb_*.dfy`). Five tables as a class with a representation invariant,
  refining the same sequential store as Postgres (`abstract_store.dfy`), with `verify` and `repair`.
  Below it, `lmdb_bytes.dfy` relates the decoded rows to tables of byte keys and their cursors.
* **The packer** (`packer*`, `packed_text`, `packing_errors`, `chat*`, `stable_prefix`, `calendar`,
  `timestamps`). Text and chat rendering, the cache-stable prefix, and the hand-written calendar
  conversion.

`plan_causes`, `pull_table`, `reconcile_verdicts`, `packed_text` and `chat_facts` say what a finished
plan or prompt is over the store, the offers and the configuration alone.

`core.dfy`, `ids.dfy`, `digits.dfy`, `sorting.dfy`, `edges.dfy` and `paging.dfy` hold the shared
types and facts. `dafny verify dfyconfig.toml` checks everything.

## What the results rest on

* (a) Fresh ids: each `put` proposes an id no other `put` proposed, and `delete` is called on ids that a
  committed `put` returned. Absence of dangling references needs only fresh ids.
* (b) No `put` into a session overlaps a purge of that session. The simulation, orphan and deadlock
  results need this as well.
* One multi-row statement locks its rows in id order. Only the deadlock results need this.
* Each of these is needed: `PgRaces` drops one at a time, keeps the others, and reaches an orphaned
  block or a deadlock from the empty store. Where it drops (b), the second half of (a) or the row
  order, it does so from every reachable state in which no open transaction holds or has written
  anything (for the row order: in which none is open).
* The pager reads a frozen store whose blocks carry the ids they are stored under. At an input budget
  of exactly 2^32 - 1 a saturated total passes the check (`Paging.MaximalBudgetLosesCount`); results
  that need a smaller budget say so.
* Scores, priorities and budget fractions are exact real numbers, and no score is NaN.
* A tokenizer is an arbitrary function from bytes (or text) to 32-bit counts, the content hash an
  arbitrary function from bytes, the redundancy test an arbitrary relation on blocks, a retriever an
  arbitrary list of scored ids, the UTF-8 decoder an arbitrary partial function, and the clock an
  input.

## Where the code does not do what its comments suggest

* `crates/llm386-store-pg/src/store.rs:289-295` and `374-378` argue that the common lock order rules
  out deadlock. It does for one block, but step 4 of a purge deletes every reference of the session,
  including references to blocks it never locked: two purges and two puts can wait for each other in
  a cycle (`PgRaces.OverlappingPutsDeadlockTwoPurges`), and a block can lose its only reference
  (`PgRaces.OverlappingPutOrphansItsBlock`). The statement at `379-383` that locks several block rows
  has no ORDER BY; two purges that share two blocks can deadlock on it alone
  (`PgRaces.UnorderedPurgesDeadlock`).
* A clean LMDB `verify` report does not imply that the tables are sound: stale hash entries go
  unnoticed (`LmdbCheck.CleanMissesStaleEntry`; the exact gap is `LmdbCheck.CleanIsInvUpToStaleEntries`).
* With `summary_fallback` a summary can be selected twice (`PagerWitness.SummarySelectedTwice`): exactly
  when it is substituted and also selected another way (`PagerRepeats.PlanRepeatsExactly`). The plan
  can depend on the hash order of the sections (`PagerWitness.FallbackFollowsSectionOrder`), but not
  when no listed summary covers candidates of two sections (`PagerDeterminism.FillsLikeReference`).
* When the dependencies of the selected blocks do not all fit, the hash order of the edge kinds can
  decide which are pulled (`PagerWitness.TightBudgetFollowsKindOrder`). It cannot when the blocks
  reachable through blocks that fit on their own fit together (`Forced.ForcedPullsAgree`); then only
  reasons and notes on which edges disagree can follow it (`PagerDeterminism.PageDetermined`).
* With source suppression a dropped block need not have been ousted, directly or in a chain, by one
  that survives (`ReconcileWitness.NothingSurvives`). There is no such survivor exactly when the block
  lies in a set of selected blocks that only oust each other (`ReconcileChains.YieldsUnlessTrapped`),
  which cannot happen without suppression or where derivatives rank above their sources.
* `format_iso8601_utc` prints the RFC 3339 shape exactly up to the year 9999, which a 64-bit
  millisecond count can exceed (`Timestamps.ConformsUntilYear9999`).

## Model

| member | source | states |
|---|---|---|
| AbstractStore.PutReturnsHolder | crates/llm386-store-pg/src/store.rs:161-199 | a put returns the one block holding the content's hash, referenced from the session, and leaves the blocks alone when the hash was stored before |
| AbstractStore.PutChanges | crates/llm386-store-pg/src/store.rs:161-199 | a put of known content adds exactly one reference, to a block that holds it; a put of new content also stores the block under its own id; nothing else changes |
| AbstractStore.DeleteChanges | crates/llm386-store-pg/src/store.rs:280-320 | a delete removes exactly the block of that id and the references to it, and answers whether there was either |
| AbstractStore.PurgeChanges | crates/llm386-store-pg/src/store.rs:353-447 | a purge removes exactly the references of the session and the blocks only it references |
| AbstractStore.PutKeepsConsistent | crates/llm386-store-pg/src/store.rs:134-205 | unique hashes, no dangling reference and no unreferenced block survive a put of a known hash or an unused id |
| AbstractStore.DeleteKeepsConsistent | crates/llm386-store-pg/src/store.rs:280-320 | the same three invariants survive a delete |
| AbstractStore.PurgeKeepsConsistent | crates/llm386-store-pg/src/store.rs:323-453 | the same three invariants survive a purge |
| AbstractStore.PurgeRemovesExactly | crates/llm386-store-pg/src/store.rs:410-447 | a purge removes a block if and only if every reference to it comes from the purged session |
| AbstractStore.PurgeUndoesPut | crates/llm386-store-pg/src/store.rs:323-453 | purging a session right after its first put gives back exactly the store before the put |
| PgInvariant.StepKeepsInv | crates/llm386-store-pg/src/store.rs:134-453 | every statement, row lock and commit of any transaction keeps the lock and visibility invariant of the protocol |
| PgInvariant.CommitKeepsOther | crates/llm386-store-pg/src/store.rs:161-199 | a commit changes no row another open transaction has locked or decided on |
| PgInvariant.NoDanglingInAnyInterleaving | crates/llm386-store-pg/src/store.rs:161-199 | in every interleaving, with fresh ids alone, each committed reference names a committed block and hashes stay unique |
| PgSimulation.CommitIsSequential | crates/llm386-store-pg/src/store.rs:134-453 | each commit turns the committed store into exactly what the sequential operation gives on it, with the same answer to the client, or for a purge a count that is no smaller |
| PgSimulation.CommitKeepsOrphansExact | crates/llm386-store-pg/src/store.rs:385-447 | the orphan set a purge found in step 5 is still exact after any other transaction commits |
| PgSimulation.NoOrphanInAnyInterleaving | crates/llm386-store-pg/src/store.rs:353-447 | with any number of concurrent purges, deletes and puts every committed block keeps a committed reference |
| PgSimulation.EveryInterleavingIsSequential | crates/llm386-store-pg/src/store.rs:134-453 | every interleaving leaves the store, and answers every put and delete, as the committed operations run one at a time in commit order; a purge reports at least the count it would then |
| PgSimulation.PurgeCountExactly | crates/llm386-store-pg/src/store.rs:325-347 | the count a purge reports is never less than the references it drops, and equals it if and only if none of those it collected went away in between |
| PgSimulation.PurgeCountInAnyInterleaving | crates/llm386-store-pg/src/store.rs:325-347 | whenever a purge is about to commit, in any run, its count is at least the references it drops, and equals it if and only if every block it collected is still in the session |
| PgDeadlock.RefLockImpliesBlockLock | crates/llm386-store-pg/src/store.rs:289-295 | whoever holds a reference row holds its block row too |
| PgDeadlock.NoWaitCycle | crates/llm386-store-pg/src/store.rs:289-295 | no reachable state contains a cycle of waiting transactions |
| PgDeadlock.SomeTransactionAdvances | crates/llm386-store-pg/src/store.rs:360-401 | while a transaction is open, some open transaction can take its next statement, row or commit |
| PgRuns.AllRulesAreHypotheses | crates/llm386-store-pg/src/store.rs:289-295 | the four rules a run can obey are together exactly the hypotheses of the safety and deadlock results |
| PgRuns.PutAlone | crates/llm386-store-pg/src/store.rs:134-205 | from every quiet reachable state a put runs to its commit and leaves the block and its reference |
| PgRuns.PutKnown | crates/llm386-store-pg/src/store.rs:134-205 | from every quiet reachable state a put of known content runs to its commit, whether or not the session references the block already |
| PgRuns.DeleteAlone | crates/llm386-store-pg/src/store.rs:280-320 | from every quiet reachable state a delete of a stored block runs to its commit and commits the sequential delete |
| PgRuns.PurgeAlone | crates/llm386-store-pg/src/store.rs:323-453 | from every quiet reachable state a purge of a session with references runs to its commit and commits the sequential purge |
| PgRuns.PurgeFinishes | crates/llm386-store-pg/src/store.rs:353-453 | a purge that has collected its ids runs to its commit while nobody holds a lock: collected blocks that only it references go, with all references of its session |
| PgRaces.OverlappingPutOrphansItsBlock | crates/llm386-store-pg/src/store.rs:403-429 | without hypothesis (b): in every quiet reachable state a purge of any session with a reference, overlapped by any put of new content into it, can leave that block unreferenced at the end of the run |
| PgRaces.OverlappingPutOrphansExactly | crates/llm386-store-pg/src/store.rs:403-429 | in that schedule, from a store without orphans, a block is orphaned if and only if the content is new; a put of known content leaves exactly what the purge alone leaves |
| PgRaces.EarlyDeleteOrphansBlock | crates/llm386-store-pg/src/store.rs:280-320 | in every quiet reachable state a delete that names the id a put is about to store, whether not yet issued or proposed again, can leave that block unreferenced at the end of the run |
| PgRaces.OverlappingPutsDeadlockTwoPurges | crates/llm386-store-pg/src/store.rs:403-408 | without hypothesis (b): in every quiet reachable state two purges of sessions that share no block can wait for each other when a block of each is put into the other |
| PgRaces.UnorderedPurgesDeadlock | crates/llm386-store-pg/src/store.rs:379-383 | without the row order: any two purges of sessions that share two blocks can get stuck on each other, whatever row either tries next, in a run that keeps all other hypotheses |
| PgRaces.OrphanWithoutSessionsApart | crates/llm386-store-pg/src/store.rs:403-429 | an orphaned block is reachable from the empty store when only hypothesis (b) is dropped |
| PgRaces.OrphanWithoutIssuedDeletes | crates/llm386-store-pg/src/store.rs:280-320 | an orphaned block is reachable from the empty store when only the hypothesis on deletes is dropped |
| PgRaces.OrphanWithoutFreshIds | crates/llm386-store-pg/src/store.rs:280-320 | an orphaned block is reachable from the empty store when only fresh ids are dropped: a second delete of an id overlaps the put that reuses it |
| PgRaces.DeadlockWithoutSessionsApart | crates/llm386-store-pg/src/store.rs:403-408 | a wait cycle is reachable from the empty store when only hypothesis (b) is dropped |
| PgRaces.DeadlockWithoutRowOrder | crates/llm386-store-pg/src/store.rs:379-383 | a wait cycle in which no step is enabled is reachable when only the row order is dropped, even by two purges of one session |
| PgTables.Tables.Put | crates/llm386-store-pg/src/store.rs:134-205 | run alone, the statements of a put compute the sequential put and touch no edge, or fail and change nothing if and only if new content is put under a taken id |
| PgTables.Tables.Delete | crates/llm386-store-pg/src/store.rs:280-320 | run alone, a delete computes the sequential delete and scrubs every edge at the id, known or not |
| PgTables.Tables.PurgeSession | crates/llm386-store-pg/src/store.rs:323-453 | run alone on any tables, a purge computes the sequential purge, counts the session's references and scrubs exactly the edges of the removed blocks |
| PgTables.Tables.PutEdge | crates/llm386-store-pg/src/store.rs:455-469 | adds the edge once and changes nothing else |
| LmdbKeys.KindRoundTrip | crates/llm386-store-lmdb/src/store.rs:723-744 | edge kinds are filed as the bytes 1 to 5, which decode to the kind they encode, and no other byte decodes |
| LmdbKeys.IdKeysSortById | crates/llm386-store-lmdb/src/store.rs:687-702 | big-endian id keys sort bytewise as the ids sort numerically |
| LmdbKeys.SessionKeysFaithful | crates/llm386-store-lmdb/src/store.rs:687-702 | session keys are in bijection with (session, block) pairs |
| LmdbKeys.SessionKeysSortByRef | crates/llm386-store-lmdb/src/store.rs:687-692 | cursor order over session keys is the order of (session, block) pairs |
| LmdbKeys.PrefixSelectsSession | crates/llm386-store-lmdb/src/store.rs:192-214 | a prefix scan with a session's bytes finds exactly that session's rows |
| LmdbKeys.EdgeKeysFaithful | crates/llm386-store-lmdb/src/store.rs:704-721 | edge keys are in bijection with (primary, kind, other) rows |
| LmdbKeys.EdgeKeysSortByRow | crates/llm386-store-lmdb/src/store.rs:704-712 | cursor order over edge keys is the order of (primary, kind, other) rows |
| LmdbKeys.PrefixSelectsEdges | crates/llm386-store-lmdb/src/store.rs:267-306 | a prefix scan with a block's bytes finds exactly the edges filed under it |
| LmdbBytes.PutAndDelete | crates/llm386-store-lmdb/src/store.rs:135-173 | putting or deleting the key of a row in a byte table puts or deletes exactly that row of the table it stands for |
| LmdbBytes.CursorSeesRows | crates/llm386-store-lmdb/src/store.rs:192-214 | a cursor over a byte table visits exactly the keys of its rows, in the order of the rows |
| LmdbBytes.SessionScan | crates/llm386-store-lmdb/src/store.rs:377-399 | the prefix scan of a session over the byte table selects exactly the keys of its references |
| LmdbBytes.BlockScan | crates/llm386-store-lmdb/src/store.rs:329-344 | comparing the second half of every session key finds exactly the references to a block |
| LmdbBytes.SessionCursorListsSession | crates/llm386-store-lmdb/src/store.rs:192-214 | the keys under a session prefix decode, in cursor order, to exactly what `Lmdb.ListSession` returns |
| LmdbBytes.EdgeScan | crates/llm386-store-lmdb/src/store.rs:267-306 | the prefix scan of a block over an edge table selects exactly the keys of the rows filed under it |
| LmdbBytes.EdgeCursorListsEdgesFrom | crates/llm386-store-lmdb/src/store.rs:267-285 | the edge keys under a block parse, in cursor order, to exactly what `Lmdb.EdgesFrom` returns |
| LmdbBytes.EdgeCursorListsEdgesTo | crates/llm386-store-lmdb/src/store.rs:287-306 | the keys under a block in the other table parse, in cursor order, to exactly what `Lmdb.EdgesTo` returns |
| LmdbStore.Lmdb.Put | crates/llm386-store-lmdb/src/store.rs:135-173 | on an exact hash index computes the sequential put; keeps the invariant if and only if the hash was known or the id unused; on any tables writes exactly the entries named |
| LmdbStore.Lmdb.PutEdge | crates/llm386-store-lmdb/src/store.rs:252-265 | adds the edge to both edge tables, which keep mirroring each other if they did |
| LmdbStore.Lmdb.PurgeEdgesForBlock | crates/llm386-store-lmdb/src/store.rs:746-800 | on any tables removes the rows filed under the block from both edge tables, each with its mirror entry: from mirrored tables exactly the rows that touch the block |
| LmdbStore.Lmdb.Delete | crates/llm386-store-lmdb/src/store.rs:308-375 | on any tables, sound or not, computes the sequential delete, session rows without a block included; from mirrored edge tables it removes exactly the block's edges, except that an id no row names leaves edges alone |
| LmdbStore.Lmdb.PurgeSession | crates/llm386-store-lmdb/src/store.rs:377-453 | on any tables computes the sequential purge and counts the session's rows; from mirrored edge tables it removes exactly the edges of the blocks no other session references |
| LmdbStore.Lmdb.ListSession | crates/llm386-store-lmdb/src/store.rs:192-214 | lists exactly the session's blocks, each once, in id order |
| LmdbStore.Lmdb.LookupHash | crates/llm386-store-lmdb/src/store.rs:240-250 | answers what the index says, which for an exact index is the block with the hash exactly when one is stored |
| LmdbStore.Lmdb.EdgesFrom | crates/llm386-store-lmdb/src/store.rs:267-285 | lists exactly the edges that start at the block, each once, by kind and then by the other end |
| LmdbStore.Lmdb.EdgesTo | crates/llm386-store-lmdb/src/store.rs:287-306 | lists exactly the rows filed under the block, in mirrored tables the edges that end at it, each once, by kind and then by the other end |
| LmdbCheck.Verify | crates/llm386-store-lmdb/src/store.rs:460-534 | every list and count of the report is exactly what its field name says |
| LmdbCheck.CleanReportMeans | crates/llm386-store-lmdb/src/store.rs:647-655 | a report is clean if and only if hashes are honest, every block is indexed under its hash, no reference dangles and no block is unreferenced |
| LmdbCheck.CleanIsInvUpToStaleEntries | crates/llm386-store-lmdb/src/store.rs:460-534 | the store invariant with honest hashes is exactly a clean report plus no stale hash entry plus mirrored edges |
| LmdbCheck.CleanMissesStaleEntry | crates/llm386-store-lmdb/src/store.rs:460-534 | whenever new content is put under an id in use, the old hash entry stays behind and verify still reports clean |
| LmdbCheck.TwoPutsGoUnnoticed | crates/llm386-store-lmdb/src/store.rs:135-534 | two puts into an empty store reach such tables |
| LmdbCheck.Repair | crates/llm386-store-lmdb/src/store.rs:536-630 | from any tables, the hash index is rebuilt so that each stored hash maps to the largest id storing it, references to missing blocks are dropped, and the report lists exactly the mismatched and the unreferenced blocks |
| LmdbCheck.RepairIsIdempotent | crates/llm386-store-lmdb/src/store.rs:536-630 | repairing twice leaves what repairing once leaves |
| LmdbCheck.RepairKeepsSoundTables | crates/llm386-store-lmdb/src/store.rs:536-630 | repair changes nothing in sound tables |
| LmdbCheck.AfterRepair | crates/llm386-store-lmdb/src/store.rs:460-630 | a verify after a repair finds nothing missing or dangling, and its misroutes are exactly the blocks sharing a stored hash with a larger id |
| LmdbCheck.RunAll | crates/llm386-store-lmdb/src/store.rs:135-453 | over every run with fresh ids and honest hashes the invariant holds, the tables stand for the sequential store and its edges, and verify reports clean |
| Digits.OrderIsNumeric | crates/llm386-store-lmdb/src/store.rs:687-692 | equal-width big-endian digit strings compare bytewise as the numbers they write |
| Ids.TimestampRoundTrip | crates/llm386-core/src/ids.rs:27-38 | an id gives back the low 48 bits of the timestamp it was built from |
| Ids.LaterIsLarger | crates/llm386-core/src/ids.rs:22-33 | an id with a later timestamp is larger, whatever the random bits |
| Ids.PartsCoverIds | crates/llm386-core/src/ids.rs:27-38 | every id is built from its own timestamp and random bits, and the timestamp stands above 80 random bits |
| Ids.DisplayParseRoundTrip | crates/llm386-core/src/ids.rs:47-79 | the 32 printed hex digits of an id parse back to it |
| Ids.ParseDisplayRoundTrip | crates/llm386-core/src/ids.rs:47-79 | every string of 32 hex digits parses, and prints back as itself |
| Budget.SectionBudgetTable.Set | crates/llm386-pager/src/budget.rs:72-75 | changes one section's fraction, clamped to the unit interval |
| Budget.SectionBudgetTable.AllocateVariable | crates/llm386-pager/src/budget.rs:106-124 | each configured variable section gets its truncated scaled share, and all shares with Slack sum to at most the variable budget |
| Budget.ScaleNormalises | crates/llm386-pager/src/budget.rs:107-108 | after scaling the fractions sum to at most one, in both cases |
| Budget.AllocationsWithinVariable | crates/llm386-pager/src/budget.rs:100-124 | for all fractions in the unit interval and every variable budget the allocations sum to at most it |
| Budget.ShareIsProportional | crates/llm386-pager/src/budget.rs:106-124 | each configured variable section gets its fraction of the budget over the sum of the seven fractions, or over one when they sum to less, cut to an integer: less than one token below that and never above; no other section gets anything |
| Budget.SectionBudgetTable.Default | crates/llm386-pager/src/budget.rs:41-58 | the seven default fractions, which sum to one |
| Paging.TakeKeepsAccount | crates/llm386-pager/src/greedy.rs:345-351 | selecting a block that passes the budget check keeps the token totals right, capped at 2^32 - 1, and the plan within budget |
| Paging.WorldReadsStore | crates/llm386-pager/src/greedy.rs:501-508 | a block weighs its stored count for the tokenizer, else the live count of its bytes, and the edges read are the listed ones |
| Paging.AccountExact | crates/llm386-pager/src/greedy.rs:198-202 | below the maximal budget the cap is never reached, so the total is the exact sum |
| Paging.SumTokensPermutation | crates/llm386-pager/src/greedy.rs:181-187 | the token total of a plan does not depend on its order |
| Paging.MaximalBudgetLosesCount | crates/llm386-pager/src/greedy.rs:198-202 | with a budget of 2^32 - 1 the check passes although the total has saturated |
| Candidates.MergeCandidates | crates/llm386-pager/src/greedy.rs:224-240 | keeps, for every offered block that is not required, the best score any retriever gave it |
| Candidates.MergeIgnoresRetrieverOrder | crates/llm386-pager/src/greedy.rs:221-240 | retrievers that make the same offers, in whatever order, merge to the same scores |
| Candidates.RankCandidates | crates/llm386-pager/src/greedy.rs:242-272 | every stored scored block is ranked in its default section, each section sorted by score per token, score and id, for every hash order |
| Candidates.AheadIsTotalPreorder | crates/llm386-pager/src/greedy.rs:466-476 | the ranking comparison is a total preorder |
| Candidates.RankingUnique | crates/llm386-pager/src/greedy.rs:464-476 | candidates with distinct ids have exactly one ranking |
| Candidates.RankingPutsDenserFirst | crates/llm386-pager/src/greedy.rs:466-476 | of two ranked candidates the earlier has the larger score per token, compared by cross-multiplication with an empty block counted as one token; on equality the larger score, then the larger id |
| Candidates.RankedSectionHolds | crates/llm386-pager/src/greedy.rs:242-272 | a ranked section holds exactly the stored scored blocks of its kinds, each with its token count and its score plus the weighted priority cut to the unit interval |
| Candidates.RankedSectionOrder | crates/llm386-pager/src/greedy.rs:269-271 | in every ranked section candidates stand in that order, no id twice |
| Candidates.RankedSectionsUnique | crates/llm386-pager/src/greedy.rs:242-272 | the ranked sections are a function of the scores and the store |
| Fill.FillSystem | crates/llm386-pager/src/greedy.rs:274-295 | walks the System candidates in rank order, taking what fits the prompt budget and omitting the rest |
| Fill.ConsiderCandidates | crates/llm386-pager/src/greedy.rs:325-420 | fills one section within its allocation, with redundancy and summary fallback, candidate by candidate |
| Fill.FillSections | crates/llm386-pager/src/greedy.rs:311-421 | fills every section once, in an arbitrary order of the map, Slack only being omitted |
| FillFacts.SystemFillFacts | crates/llm386-pager/src/greedy.rs:274-295 | the account stays exact and every System candidate is selected or still does not fit at the end |
| FillFacts.ConsiderAllFacts | crates/llm386-pager/src/greedy.rs:326-420 | a section's charge stays within its allocation, every candidate is kept, redundant to a kept block, or omitted and would still not fit at the end |
| FillFacts.FillSectionFacts | crates/llm386-pager/src/greedy.rs:311-421 | one section adds at most its allocation to the plan and covers all its candidates |
| FillFacts.FillAllFacts | crates/llm386-pager/src/greedy.rs:311-421 | the account is exact after all sections, every candidate is selected or omitted, and the plan grew by at most the sum of the allocations |
| FillFacts.SectionSettles | crates/llm386-pager/src/greedy.rs:311-421 | within the whole fill each section stays within its allocation, charges exactly what it uses, and leaves each candidate selected, redundant to a selected block of its section, or refused and still without room at the end |
| FillCauses.ConsiderOneWay | crates/llm386-pager/src/greedy.rs:329-419 | each candidate is either kept, and then similar to nothing kept before it, or omitted once, as redundant if and only if it is similar to something kept |
| FillCauses.KeptAreUnlike | crates/llm386-pager/src/greedy.rs:329-342 | no block a section keeps is similar to one it kept before |
| FillCauses.DecidedExactly | crates/llm386-pager/src/greedy.rs:326-421 | a candidate is kept if and only if it is not omitted, and redundant if and only if a candidate ranked ahead of it is kept and similar to it |
| FillCauses.ConsiderAllCauses | crates/llm386-pager/src/greedy.rs:326-421 | every omission of a section has a cause that still holds at its end: similar to a kept block; no room, nor for a stored summary; or no room and its summary selected. Every selection is a candidate or the summary of one omitted as compressed, with its score |
| FillCauses.FillAllCauses | crates/llm386-pager/src/greedy.rs:311-421 | the same for the whole fill, each cause in the section it comes from |
| FillFacts.SlackStaysEmpty | crates/llm386-core/src/block.rs:52-62 | no block is ever routed to Slack or Task |
| FillOrder.FillAllIsLocal | crates/llm386-pager/src/greedy.rs:311-421 | when no summary serves two sections the fill, fallback included, is the concatenation of decisions each section makes on its own, because the global check never decides between sections |
| FillOrder.VisitedWithinVariable | crates/llm386-pager/src/greedy.rs:297-299 | the allocations of any set of sections sum to at most the variable budget |
| FillOrder.FillIgnoresSectionOrder | crates/llm386-pager/src/greedy.rs:297-421 | for any allocation within the variable budget, when no summary serves two sections every visiting order of the sections selects the same blocks with the same scores, omits the same blocks for the same reasons, substitutes the same summaries and reaches the same totals |
| FillOrder.SharedSummaryExactly | crates/llm386-pager/src/greedy.rs:360-401 | for two candidates in two sections that share a summary, the two orders give the same result if and only if the summary fits both sections or neither, and in the first case the candidates score alike |
| FillRepeats.FillRepeatsExactly | crates/llm386-pager/src/greedy.rs:311-421 | the filled plan repeats a block if and only if the plan before it did or a substituted summary is selected another way as well |
| FillRepeats.FillRepeatsNothing | crates/llm386-pager/src/greedy.rs:311-421 | the fill repeats nothing of its own when the summaries it may substitute are neither selected already nor candidates |
| Reach.WithinBound | crates/llm386-pager/src/greedy.rs:517-578 | in a graph of degree at most F, at most n(F + ... + F^d) further nodes lie within d hops of n nodes |
| Edges.EdgePolicy.EffectiveDepth | crates/llm386-pager/src/edges.rs:164-168 | the depth is the smaller of the policy's depth and the ceiling of five |
| Neighbours.CapKeepsNewest | crates/llm386-pager/src/greedy.rs:717-724 | whatever the fan-out cap cuts is no newer than whatever it keeps, and nothing is cut while there is room |
| PullTable.NewestExactly | crates/llm386-pager/src/greedy.rs:717-724 | the cap keeps an id if and only if fewer listed ids than the fan-out exceed it |
| Neighbours.CollectOutgoing | crates/llm386-pager/src/greedy.rs:710-724 | appends the capped targets kind after kind, for every order of the pulled kinds that have any; as a set they do not depend on the order |
| Neighbours.CollectChildren | crates/llm386-pager/src/greedy.rs:728-737 | appends exactly the capped sources of incoming Parent edges |
| Neighbours.CollectDependencies | crates/llm386-pager/src/greedy.rs:542-550 | lists provenance parents, pulled targets in some order of their kinds, and children: as a set exactly the neighbours the policy names |
| PullTable.NeighboursFollowTable | crates/llm386-pager/src/greedy.rs:542-550 | a block asks for another if and only if the table says so: provenance parents if followed; targets of Parent, DerivedFrom, Supports and ToolInvocation edges in their pulling modes, never of Contradicts edges; sources of incoming Parent edges in Bidirectional mode; each only if fewer than the fan-out of that kind are newer |
| PullTable.UncappedEdgesPull | crates/llm386-pager/src/edges.rs:172-185 | where no more edges of a pulled kind leave a block than the fan-out allows, the target of each is asked for |
| Neighbours.NeighbourBound | crates/llm386-pager/src/greedy.rs:708-737 | without provenance following a block asks for at most five times the fan-out |
| Bfs.DepthIsDistance | crates/llm386-pager/src/greedy.rs:530-576 | the first-in first-out queue selects every block at its shortest distance through selected blocks |
| Bfs.FinishedSearch | crates/llm386-pager/src/greedy.rs:530-576 | a finished search selected only blocks within the depth, and all of them if it refused none |
| Expansion.PullDependencies | crates/llm386-pager/src/greedy.rs:552-575 | each dependency not seen before is marked, and selected and queued if it is stored and fits |
| Expansion.WalkKeepsAccount | crates/llm386-pager/src/greedy.rs:517-578 | at every budget the walk keeps the account, the required blocks first and pinned, and everything selected or omitted before |
| Expansion.WalkAddsOnce | crates/llm386-pager/src/greedy.rs:552-575 | the walk pulls no block twice and none that was selected already |
| Expansion.WalkedExpands | crates/llm386-pager/src/greedy.rs:517-578 | every walk, whatever the order of the edge kinds, reaches what it pulls through selected blocks within the depth, pulls the wanted set if and only if that fits, leaves out no neighbour that would still fit, charges exactly and meets the size bound |
| PullCauses.WalkHasCauses | crates/llm386-pager/src/greedy.rs:517-578 | at every budget each selection of the result was there before or is a stored block, not selected before, that a selected block pulls by the table; with depth zero nothing changes |
| PullCauses.PulledOrTooBig | crates/llm386-pager/src/greedy.rs:517-578 | what a block selected before the pass pulls by the table is selected after it or would not fit any more, and is selected when there is room for everything within reach |
| Expansion.ExpandEdges | crates/llm386-pager/src/greedy.rs:517-578 | ends with what some walk, one round per queued block under some order of the edge kinds, ends with, at every budget |
| Forced.PullsForcedIffTheyFit | crates/llm386-pager/src/greedy.rs:517-578 | the pulled blocks lie among those reachable through blocks that fit on their own, and are exactly these if and only if these fit together |
| Forced.AllOrNothingIsForced | crates/llm386-pager/src/greedy.rs:517-578 | that is so when all wanted blocks fit together, and when none fits on its own |
| Forced.ForcedPullsAgree | crates/llm386-pager/src/greedy.rs:517-578 | when they do, any two walks from permuted plans pull the same blocks and charge the same tokens |
| Reconcile.AboveIsStrictTotalOrder | crates/llm386-pager/src/greedy.rs:679-705 | on stored blocks (created_at, priority, id) is a strict total order and both directions of a contradiction name the same winner |
| Reconcile.NewerWins | crates/llm386-pager/src/greedy.rs:679-705 | the newer block wins, ties go to the higher priority and then the larger id, and a missing block loses to a stored one |
| Reconcile.ReconcileEdges | crates/llm386-pager/src/greedy.rs:585-677 | drops exactly the blocks some edge condemns and annotates exactly those some edge annotates, each with the reason or winner of such an edge, and rebuilds the plan in order |
| ReconcileFacts.ReconcileKeepsAccount | crates/llm386-pager/src/greedy.rs:647-677 | at every budget the required blocks stay first and pinned; the total is that of the remaining blocks if and only if it had not hit its cap or nothing left weighs anything |
| ReconcileFacts.SurvivingLoserIsPinnedAndNoted | crates/llm386-pager/src/greedy.rs:618-641 | under PreferNewer, if both ends of a Contradicts edge survive, the loser is pinned and every selection of it names a selected block that contradicts it and ranks above it |
| ReconcileVerdicts.NoteReadsBack | crates/llm386-pager/src/greedy.rs:634-638 | a note is the fixed phrase and the 32 hex digits of the winner, which parse back to it and to no other block |
| ReconcileVerdicts.DroppedByRule | crates/llm386-pager/src/greedy.rs:603-671 | a selected block is dropped if and only if it is not pinned and, preferring newer, some selected block contradicts and outranks it, or, suppressing sources, some other selected block is derived from it; all others stay listed as often as before |
| ReconcileVerdicts.OmissionsOnlyAdded | crates/llm386-pager/src/greedy.rs:655-666 | nothing omitted is taken back, and each added omission has the reason its edge gives and the score of the selection it ends |
| ReconcileVerdicts.NotedByRule | crates/llm386-pager/src/greedy.rs:618-641 | a block is annotated if and only if a selected block contradicts and outranks it and contradictions are flagged, or newer ones preferred and the block pinned; the note names such a block |
| ReconcileVerdicts.SelectionsByRule | crates/llm386-pager/src/greedy.rs:655-674 | every selection left keeps block, score and reason and has a new note if and only if its block is annotated; every selection of a block that stays is left |
| ReconcileVerdicts.FlaggedContradictionIsNoted | crates/llm386-pager/src/greedy.rs:634-641 | under Flag the outranked one of two contradicting selected blocks stays where it was, unless a derivative supersedes it, and every selection of it names a block that contradicts and outranks it |
| ReconcileVerdicts.PlacesConserved | crates/llm386-pager/src/greedy.rs:655-674 | every position of the plan is either kept or omitted once |
| ReconcileWitness.NoteNamesDropped | crates/llm386-pager/src/greedy.rs:618-641 | a call and a run of it in which that named block is itself dropped |
| ReconcileChains.DroppedExactly | crates/llm386-pager/src/greedy.rs:585-677 | a selected block is dropped if and only if some selected block ousts it: defeats it in a contradiction or supersedes it as its derivative |
| ReconcileChains.YieldsUnlessTrapped | crates/llm386-pager/src/greedy.rs:585-677 | a block has a chain of ousters that ends in a survivor if and only if it lies in no set of selected blocks that holds at least one ouster of each member and all of them |
| ReconcileChains.AllYieldUnlessTrap | crates/llm386-pager/src/greedy.rs:585-677 | every dropped block has such a chain if and only if there is no nonempty set of that kind |
| ReconcileChains.DroppedHasRisingChain | crates/llm386-pager/src/greedy.rs:618-671 | with source suppression off, or where selected derivatives rank above their sources, every dropped block has a strictly rising chain of ousters that ends in a survivor |
| ReconcileChains.OutrankingLeavesNoTrap | crates/llm386-pager/src/greedy.rs:606-617 | under that condition no such set exists |
| ReconcileWitness.NothingSurvives | crates/llm386-pager/src/greedy.rs:606-641 | a call and a run of it that selects two blocks and drops both: one is derived from the other, which is newer and contradicts it |
| ReconcileFacts.SecondRunDropsNothing | crates/llm386-pager/src/greedy.rs:585-677 | run again on its own result with the same policy, the pass drops nothing |
| ReconcileFacts.ReconcileLosesNothing | crates/llm386-pager/src/greedy.rs:655-671 | whatever was selected or omitted before the pass is selected or omitted after it |
| ReconcileOrder.ReconcileForgetsOrder | crates/llm386-pager/src/greedy.rs:585-677 | on plans that differ in order alone reconciliation drops the same blocks and omits the same with the same scores |
| Pager.PinRequired | crates/llm386-pager/src/greedy.rs:189-211 | pins the required blocks in order, stopping at the first that is missing or does not fit |
| PagerFacts.PinOutcome | crates/llm386-pager/src/greedy.rs:189-211 | at every budget pinning succeeds if and only if all required blocks are stored and fit together; otherwise the error is that of the first one that fails |
| Pager.BuildSummaryIndex | crates/llm386-pager/src/greedy.rs:482-499 | maps every summarised id to the first listed summary of it, and nothing else |
| PagerFacts.Page | crates/llm386-pager/src/greedy.rs:169-461 | at every budget returns the tokenizer or pinning error, or else a plan that went through all stages as specified |
| PagerFacts.PageAccount | crates/llm386-pager/src/greedy.rs:169-461 | on success required blocks come first as Pinned, ids and selections stay in lockstep, and below the budget 2^32 - 1 the estimate is the exact token sum and plan and task fit the budget or the plan is exactly the required blocks; at that budget the estimate is exact if and only if the expanded plan has not passed it or nothing left weighs anything |
| PagerFacts.PageCovers | crates/llm386-pager/src/greedy.rs:221-453 | at every budget every stored block a retriever offers ends up selected or omitted |
| PagerFacts.PageIsMaximal | crates/llm386-pager/src/greedy.rs:274-421 | by the end of the fill every stored offered block is selected, redundant to a selected block of its section, or refused and still without room in the prompt or in the allocation of its section, which is never exceeded |
| PlanCauses.RankedAreOffered | crates/llm386-pager/src/greedy.rs:224-272 | every ranked candidate is a stored block, not required, with the best score some retriever offers for it raised by its priority |
| PlanCauses.RedundantExactly | crates/llm386-pager/src/greedy.rs:329-342 | over a whole call a candidate is omitted as redundant if and only if it is similar to a candidate ranked ahead of it in its section that the fill did not omit; what the fill did not omit it selected |
| PlanCauses.SelectionsDeserved | crates/llm386-pager/src/greedy.rs:169-461 | every selection of a finished plan is required and pinned with score one, an offered block with its score, the first listed summary of one omitted as compressed, or a stored block an expanded block pulls by the table; it has a note if and only if the policy is on and its block is annotated |
| PlanCauses.OmissionsDeserved | crates/llm386-pager/src/greedy.rs:311-453 | every omission of a finished plan is an offered block with its score that had no room, nor had its first listed summary, or whose summary is selected, or that is similar to a selected block; or a block reconciliation had reason to drop |
| PlanCauses.PinnedAreRequired | crates/llm386-pager/src/greedy.rs:189-211 | exactly the required blocks are pinned when reconciliation begins |
| PlanCauses.GoesExactly | crates/llm386-pager/src/greedy.rs:439-453 | of the expanded plan exactly the blocks go that the rules of an enabled policy name, all others stay listed as often as before |
| PlanCauses.DrawnIsSelected | crates/llm386-pager/src/greedy.rs:434-438 | with the policy on and a depth of at least one, what a block of the filled plan pulls by the table is in the expanded plan or no longer fits, and is there if everything within reach fits |
| PlanCauses.EstimateIsPriced | crates/llm386-pager/src/greedy.rs:181-202 | the estimate is the sum of stored or live token counts, and with the task it is within the context less reserved output and margin, unless only required blocks are selected |
| PlanCauses.RequiredArePriced | crates/llm386-pager/src/greedy.rs:189-211 | pinning succeeds if and only if all required blocks are stored and their counts sum to at most that |
| PlanCauses.SharesOfRun | crates/llm386-pager/src/greedy.rs:293-299 | the variable budget of a call is what pins, task and System blocks leave, and each section gets its proportional share of it |
| PagerReference.ReferenceFollows | crates/llm386-pager/src/greedy.rs:221-421 | a computation of the stages up to the fill, step by step from the inputs, is one of the runs |
| PagerDeterminism.FillsLikeReference | crates/llm386-pager/src/greedy.rs:221-421 | when no listed summary covers candidates of two sections, every run fills the plan as that computation does, up to order |
| PagerDeterminism.EdgesDetermined | crates/llm386-pager/src/greedy.rs:434-453 | then, if the forced dependencies of the computed plan fit, the selected blocks, how often each is listed, the omitted blocks with their scores, and the token estimate are functions of the inputs, whatever order retrievers and hash maps come in |
| PagerDeterminism.SelectionsDetermined | crates/llm386-pager/src/greedy.rs:434-453 | and if no two edges disagree on whom a note names, so are the selections with their notes |
| PagerDeterminism.PageDetermined | crates/llm386-pager/src/greedy.rs:169-461 | and if moreover no two edges disagree on the reason for a drop or on whom a note names, which the inputs decide, so is the whole plan up to its order |
| PagerWitness.TightBudgetFollowsKindOrder | crates/llm386-pager/src/greedy.rs:517-578 | one call with two runs: two dependencies, room for one, and the order of the edge kinds decides which is selected |
| PagerRepeats.PlanRepeatsExactly | crates/llm386-pager/src/greedy.rs:169-461 | at every budget the plan lists a block twice if and only if the caller required one twice or a substituted summary that is selected another way survives |
| PagerRepeats.PlanRepeatsOnlyRequired | crates/llm386-pager/src/greedy.rs:169-461 | for a caller who neither requires nor offers listed summaries of the candidates, the plan lists a block twice if and only if the caller required it twice |
| PagerWitness.SummarySelectedTwice | crates/llm386-pager/src/greedy.rs:360-401 | a call with fallback and a run of it that selects a summary twice, with nothing required |
| PagerWitness.FallbackFollowsSectionOrder | crates/llm386-pager/src/greedy.rs:366-419 | a call with fallback and two runs of it that omit the same block for different reasons |
| Calendar.CivilCountsBack | crates/llm386-packer/src/simple.rs:461-470 | for every day count the converted date is a calendar date and counting Gregorian days from January 1st 1970 to it gives the day count back |
| Calendar.CivilIsCorrect | crates/llm386-packer/src/simple.rs:453-470 | for every 64-bit millisecond count all fields are in range, the date is the right day and the clock the right second |
| Calendar.DateIsUnique | crates/llm386-packer/src/simple.rs:461-470 | no two calendar dates have the same day count, so the converted date is the only right one |
| Timestamps.FormatReadsBack | crates/llm386-packer/src/simple.rs:472-472 | the printed timestamp reads back as exactly the fields it was printed from |
| Timestamps.ConformsUntilYear9999 | crates/llm386-packer/src/simple.rs:448-472 | the text has the RFC 3339 shape with valid fields if and only if the moment lies before the year 10000 |
| Packer.Shelve | crates/llm386-packer/src/simple.rs:140-155 | groups the plan's blocks by section, each in id order, or reports the first missing one |
| PackedText.DefaultSectionIs | crates/llm386-core/src/block.rs:52-62 | which kinds of block each section holds |
| PackedText.ShelfHolds | crates/llm386-packer/src/simple.rs:148-155 | a section holds exactly the planned blocks of its kinds, in ascending id order, and is present if and only if there are any |
| Packer.Pack | crates/llm386-packer/src/simple.rs:139-230 | renders sections in canonical order with headers, notes and timestamps, stops at the first undecodable block, and checks the budget |
| PackedText.PackPrints | crates/llm386-packer/src/simple.rs:158-229 | a packed text is, in canonical order, each section with planned blocks under its heading, the clock and the task, and each planned block as note, stamp and body in id order; nothing else is printed, and the list names the printed blocks one by one with section and token count |
| PackingErrors.BudgetIs | crates/llm386-core/src/model.rs:74-79 | the input budget is the context less reserved output and margin, or zero |
| PackingErrors.PackGated | crates/llm386-packer/src/simple.rs:139-229 | without a limit packing succeeds if and only if every planned block is stored and decodes, else it blames the first missing or an undecodable one; a budget refuses exactly the texts that weigh more, with their weight, and changes no other result |
| PackerFacts.PackForgetsPlanOrder | crates/llm386-packer/src/simple.rs:139-230 | every order of the same plan packs to the same bytes |
| PackerFacts.ChatForgetsPlanOrder | crates/llm386-packer/src/simple.rs:263-445 | every order of the same plan gives the same chat prompt |
| PackerFacts.PackRendersThePlan | crates/llm386-packer/src/simple.rs:159-229 | a packed prompt lists each selected block exactly as often as the plan, section by section, and its text is within the input budget |
| PackerFacts.EveryBodyIsRendered | crates/llm386-packer/src/simple.rs:185-201 | the text contains every selected block as note, timestamp and decoded body, adjacent and in that order |
| PackerFacts.PackFailsExactlyWhen | crates/llm386-packer/src/simple.rs:142-222 | loading and decoding succeed if and only if every selected block is stored and valid UTF-8; then only the budget can refuse |
| PackerFacts.PageThenPackIsDetermined | crates/llm386-packer/src/simple.rs:139-230 | under the conditions of `PagerDeterminism.SelectionsDetermined`, reconciliation included, page followed by either packer gives the same bytes for the same inputs |
| PackerFacts.NotesCollected | crates/llm386-packer/src/simple.rs:479-484 | a block has a note exactly when some selection of it carries one, and the note is one of those |
| Chat.RenderSystemSide | crates/llm386-packer/src/simple.rs:288-353 | one message per nonempty system-side section, stable sections first, counting exactly the stable ones |
| Chat.RenderTurns | crates/llm386-packer/src/simple.rs:355-404 | one message per recent or tool block in id order, with no timestamp on assistant turns |
| Chat.TrimEnd | crates/llm386-packer/src/simple.rs:345-345 | cuts exactly the trailing white space |
| StablePrefix.TurnsCarryBodies | crates/llm386-packer/src/simple.rs:363-404 | each recent or tool block gets its own message with its role and body, stamped unless it is an assistant turn |
| Chat.PackChat | crates/llm386-packer/src/simple.rs:263-445 | system-side sections, recent turns, tool results and the task in that order, with the boundary behind the stable sections, within budget |
| ChatFacts.GroupsAre | crates/llm386-packer/src/simple.rs:294-320 | every section other than Task, Tools, Recent and Slack is in the stable or in the other group, by configuration, each in canonical order |
| ChatFacts.ChatSpeaks | crates/llm386-packer/src/simple.rs:263-445 | a chat prompt is exactly one message per system-side section with planned blocks, stable ones first, holding its heading and all its blocks up to trimmed white space, one per planned turn and then tool result in id order with its role, note, stamp unless the assistant speaks, and body, and the task last in the user role |
| ChatFacts.EveryBodyReachesChat | crates/llm386-packer/src/simple.rs:294-404 | every planned block is carried by a message of its own section, on the system side with note, stamp and body adjacent |
| ChatFacts.AsciiWhite | crates/llm386-packer/src/simple.rs:345-345 | which ASCII characters the trimming may cut |
| PackingErrors.ChatGated | crates/llm386-packer/src/simple.rs:263-445 | as for packing, and the prompt weighs the sum of its messages |
| StablePrefix.PrefixIsStableSections | crates/llm386-packer/src/simple.rs:288-353 | messages up to the cache boundary are exactly the nonempty stable system-side sections in canonical order, and no later message is one |
| StablePrefix.PrefixDependsOnStableSections | crates/llm386-packer/src/simple.rs:288-353 | two calls that agree on the stable sections' blocks, notes, section options and system-role support give the same prefix and boundary, whatever the task, turns, tools, other sections, clock, tokenizer and budget |

## Left out

- PgDeadlock.NoWaitCycle: assumes (a), (b) and that one statement locks rows in id order; a deadlock is reachable without (b) or without the order (`PgRaces.DeadlockWithoutSessionsApart`, `PgRaces.DeadlockWithoutRowOrder`).
- PgDeadlock.SomeTransactionAdvances: under the same assumptions.
- PgSimulation.EveryInterleavingIsSequential: assumes (a) and (b); a purge's count, which step 1 reads before any lock is taken, may exceed the sequential one, and `PgSimulation.PurgeCountInAnyInterleaving` says when.
- PgSimulation.NoOrphanInAnyInterleaving: assumes (a) and (b); an orphan is reachable without any one of them (`PgRaces.OrphanWithoutSessionsApart`, `PgRaces.OrphanWithoutFreshIds`, `PgRaces.OrphanWithoutIssuedDeletes`).
- PgRaces.OverlappingPutOrphansExactly: for one purge and one put in one schedule; other schedules and several purges are not covered.
- LmdbStore.Lmdb.Put: the class holds decoded rows; `LmdbBytes` gives the byte tables and cursors they stand for, and keys of a wrong width are not modelled.
- Budget.SectionBudgetTable.AllocateVariable: fractions are exact; the 32-bit float scale of the original can round up, so its allocations may exceed the variable budget by a few tokens, and the results on the fill order then do not apply.
- FillOrder.FillIgnoresSectionOrder: one-way when a summary serves two sections; `FillOrder.SharedSummaryExactly` gives the exact condition for two candidates, beyond that it depends on what each section still has room for.
- PagerDeterminism.PageDetermined: one-way under a budget too tight for the forced dependencies, where the facts of `Expansion.WalkedExpands` hold for every walk.
- PagerDeterminism.EdgesDetermined: which of several newer blocks a note names, and which of two reasons a dropped block is omitted for, can follow the order of the plan.
- PackingErrors.PackGated: of several undecodable blocks it does not say which one is blamed, nor does `PackingErrors.ChatGated`; the method contracts of `Packer.Pack` and `Chat.PackChat` fix it.
- The concurrent model does not raise primary-key violations: a put proposes an id that no stored block has and no open put proposes.
- PagerFacts.PageAccount: at the budget 2^32 - 1 plan and task are not shown to fit once a total has saturated.
- Edges in the concurrent Postgres model: `put_edge` takes no block lock, so edges appear only in the single-client tables.
- `AsyncPgStore`: the same statement sequence again.
- Postgres pools, TLS, schema creation and migration, retries after errors, crashes between statements.
- Storage and tokenizer failures inside `page` and the packers, except missing and undecodable blocks.
- Retrievers, BM25, embeddings, their limit of 4096 results, and the word-set similarity behind the redundancy test.
- `list_sessions` and `get` as operations, postcard and JSON encodings, tracing.
- Updating `updated_at`, labels and sources of provenance: no modelled operation reads them.
- The packer's `pack_with_plan` path, model names, and the clock.
- CLI, Python bindings, configuration files, summarizers, reducers, model resolver, plan diff, caches.
