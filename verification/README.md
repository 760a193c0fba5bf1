# memhub: a verified model of the shared memory store

memhub is a shared memory for several coding assistants: one PostgreSQL database in which
clients remember, revise, forget and supersede facts, search them, and ask for a brief that
fits a token budget. This project models that store and the algorithms around it in Dafny and
proves what they keep over every input, every run and every interleaving.

`dafny verify dfyconfig.toml` checks everything.

| files | what they hold |
|---|---|
| `Schema`, `Calls` | the tables with their keys and CHECKs, and each service call as one atomic step (level 1) |
| `Service` | a session whose methods issue the statements of each call in order, with savepoint and rollback; each method is proved to be that atomic step |
| `Invariants`, `History`, `Truth`, `Idempotency`, `Lineage` | what every step keeps and what whole runs of calls guarantee |
| `Effects` | what a caller finds in the tables after each call, row by row, and what stays there |
| `ReadCommitted`, `Transactions`, `Serializable`, `Interleaving`, `Deadlock`, `Winners`, `Prophet`, `Alone` | the same calls one statement at a time, many transactions at once, with row locks, waiting and the re-check of the WHERE clause (level 2) |
| `Retrieval`, `Fusion` | the stage-0 filter, hybrid search over moving snapshots, reciprocal rank fusion |
| `Outbox` | embedding workers claiming disjoint batches, retries, crashes |
| `Selector`, `Brief`, `Greedy` | the context selector, its guarantees, and how close greedy filling is to the best filling |
| `Ndcg`, `Projects` | the retrieval metric; project resolution by hints and aliases |
| `Basics`, `Sorting` | options, trimming, a stable sort and its facts |

Time is an integer on the database clock. Identifiers are numbers, ordered as UUIDs are. Each
retriever is any list of distinct rows of its retrieval set. Hashes and fingerprints are taken
as collision-free; scores, shares and densities are exact reals; the discount of nDCG is any
positive, strictly falling sequence.

## Where the code and its prose differ

The model follows the code.

- A revise never moves the dedup key, so "no two active memories share normalised content"
  (docs/architecture.md:1175) is false: `Truth.DuplicateContentHappens` is a run of three calls
  that works for any hash, `Truth.ReviseMayDuplicate` says exactly when a revise does it, and what
  does hold is the bijection between keys and active memories by the digest of revision 1.
- A deduplicated remember and a conflicted revise commit without completing their key, which
  stays in progress and makes every retry raise: `Idempotency.EveryRowHasAnOwner`,
  `Idempotency.OpenKeyRefuses`.
- The key is claimed trimmed and completed untrimmed: a request whose key carries surrounding
  white space never lands (`Idempotency.UntrimmedKeyNeverLands`).
- The fingerprint of a remember leaves out what it supersedes, its expiry, its author and its
  embedding model, so a retry that differs in these replays and the rest of it is not done
  (`Idempotency.FingerprintForgives`). A replay re-reads the memory's current revision, so it
  repeats the memory id and not the bytes.
- A purge is said to clear every table that holds a copy or a derivative of the memory
  (src/memhub/cli/admin.py:40-49), but stored responses keep naming it: `Truth.PurgeResidue` is the
  exact residue, and `Idempotency.RetryAfterPurge` what a retry under such a key then meets.
- A conflict names a newer revision only to a caller who expected one that existed:
  `Truth.ConflictReport` is the exact condition. A caller who guesses the next revision can be told
  it lost to that very revision, which no serial order explains (`Prophet.ProphetRun`).
- The semantic leg of hybrid search is meant to degrade when the statement timeout cancels it.
  The coverage query that follows runs in the aborted transaction, so the whole search raises
  (`Retrieval.HybridSearch`); only a failing embedder degrades it.
- The type and tag filters of a hybrid search bind its lexical half alone
  (`Retrieval.FiltersHoldExactly`).
- The lineage query returns up to 65 ids (depths 0 to 64).
- Agreement first in fused results holds up to 20 results and no further
  (`Fusion.AgreementExactlyUpToTwenty`).
- The token budget holds for all candidates exactly when the quotas together promise no more
  than it (`Brief.BudgetExactly`). The default shares sum to one, so it does for them; quotas
  supplied by a caller are not checked.
- A project call reads its aliases again before it records them, and leaves one that another
  session has taken meanwhile to that session's project, without a word: the call succeeds although
  one of its hints now names another project (`Projects.AgreesUnlessTaken`,
  `Projects.TakenAliasResolvesElsewhere`).

## Model

| member | source | states |
|---|---|---|
| Service.Session.Remember | src/memhub/services/memories.py:59-229 | one remember, statement by statement, ends in the store and answer of the atomic call, or gives up on its key, which takes three rivals in a row; a created memory with a model has one new pending job, due at once, and nothing else queues one; a raised error restores every table; the asserting client is counted on creation and on deduplication only |
| Service.Session.Establish | src/memhub/services/memories.py:180-229 | after the insert: supersession, the embedding job, attestation and completion together produce the tables of the atomic step, and fail exactly on an untrimmed key |
| Service.Session.EnqueueEmbedding | src/memhub/persistence/repositories/truth.py:279-305 | a named model gets a pending, untried job due at once for this revision, unless there is one already; no other job changes, and without a model none does |
| Service.Session.Speculate | src/memhub/services/memories.py:139-163 | the savepoint: a held dedup key leaves no trace of the speculative memory, otherwise exactly memory, revision 1 and key are added |
| Service.Session.ApplySupersession | src/memhub/services/memories.py:272-318 | targets in ascending id order, each retired or reported skipped; retired ones exactly the active ones of the project other than the winner, and their keys freed |
| Service.Session.Revise | src/memhub/services/memories.py:395-527 | one revise ends in the store and answer of the atomic call, conflicts, replays and rollbacks included, or gives up on its key; a new revision with a model has one new pending job, due at once, and nothing else queues one |
| Service.Session.CompareAndSet | src/memhub/persistence/repositories/memories.py:230-303 | succeeds exactly on an active row at the expected revision; then the counter moves by one, the outgoing revision is demoted and the new one appended, nothing else changes |
| Service.Session.Forget | src/memhub/services/memories.py:321-359 | tombstones an active memory and frees its key; an already retired one is a no-op, an absent one an error |
| Service.Session.Claim | src/memhub/services/idempotency.py:98-175 | the bounded loop grants a free key, replays a completed row of the same fingerprint, refuses another request, a bad length or an unfinished row, and is exhausted if and only if a free key of 8 to 128 characters met a rival that rolled back at the first, second and third attempt |
| Service.Session.Complete | src/memhub/services/idempotency.py:177-196 | completes the row found under the key as written; fails exactly when white space makes that another key |
| Service.Session.Supersede | src/memhub/persistence/sql/cas_supersede.sql:30-38 | compare-and-set from ACTIVE to SUPERSEDED with winner and time, releasing the dedup keys, else nothing |
| Service.Session.ForgetRow | src/memhub/persistence/sql/cas_forget.sql:19-25 | compare-and-set from ACTIVE to DELETED with time, releasing the dedup keys, else nothing |
| Service.CorroborationCountsClients | src/memhub/persistence/repositories/truth.py:88-115 | the corroboration count grows by one for a new client, never for a client asserting again, whose own row counts one more; other rows and memories are untouched |
| Service.Session.Purge | src/memhub/cli/admin.py:62-120 | the ordered deletes and the release of references are the atomic purge, with the true number of rows removed per table; the attestations left are those of other memories |
| Service.Session.CollectGarbage | src/memhub/cli/admin.py:123-145 | removes at most a batch of expired keys and of DEAD jobs older than thirty days, all of them if fewer, and nothing else |
| Service.Session.PurgeExpired | src/memhub/services/idempotency.py:199-218 | only keys whose expiry has passed go, at most the limit, and if fewer went none is left |
| Invariants.StepWellFormed | src/memhub/persistence/models.py:162-190 | every call, purge included, keeps the store well formed: revisions 1..n without gap, one current and equal to n, all status CHECKs, same-project keys, dedup keys and active memories one to one, key rows, jobs and vectors consistent |
| Invariants.CreateWellFormed | src/memhub/persistence/repositories/memories.py:73-102 | inserting a memory with revision 1, its dedup key and its retirements keeps all of it |
| Invariants.ReviseWellFormed | src/memhub/persistence/repositories/memories.py:263-303 | the three statements of a revise keep exactly one current revision, the last one |
| Invariants.PurgeWellFormed | src/memhub/cli/admin.py:77-108 | a purge leaves no dangling reference, key, job or vector |
| History.RunWellFormed | src/memhub/persistence/models.py:253-269 | any run of calls from a well-formed store ends in one |
| History.StepGrows | src/memhub/persistence/sql/cas_revise.sql:46-53 | no step reactivates a retired memory, makes a replaced revision current, rewrites recorded content or reuses an id |
| History.RevisionsAppendOnly | docs/architecture.md:1179 | until a purge of its memory, a recorded revision stays in every later store with its content, digest, tags and author unchanged |
| History.HistoryIsAPrefix | src/memhub/persistence/repositories/memories.py:284-303 | without purge the old list of contents of a memory is a prefix of the new one |
| Effects.RefusedExactly | src/memhub/domain/validation.py:41-93 | a write is refused for its arguments if and only if the text has not 1 to 8192 characters, there are more than 16 tags, the importance is outside 0 to 100, a task has no expiry or the trimmed key has not 8 to 128 characters; a call that raises changes nothing |
| Effects.CreatedAsAsked | src/memhub/persistence/repositories/memories.py:73-102 | a created memory is the only new one, active, of the type, importance and expiry asked for, with one revision of the text, tags and author asked for |
| Effects.RetiredAsReported | src/memhub/services/memories.py:272-318 | every target is reported once, in ascending order: retired if and only if it was an active memory of the project, else skipped; exactly the retired name the new memory as successor and lose their dedup key, and the new one holds that of its content |
| Effects.RevisedAsAsked | src/memhub/persistence/repositories/memories.py:263-303 | a successful revise found the memory visible at the expected revision, moves the number on by one, appends the new text and flags the replaced one; no other revision, memory or dedup key changes |
| Effects.ForgottenAsAsked | src/memhub/persistence/sql/cas_forget.sql:19-25 | a forget turns the row into a deletion as of now and frees exactly the dedup key of the memory |
| Effects.RetirementIsReported | src/memhub/services/memories.py:300-318 | apart from purges, a step takes a memory out of the active ones if and only if its answer says so, and leaves retired ones as they are |
| Effects.VisibleUntilExpiry | src/memhub/services/memories.py:139-151 | a created memory is visible exactly until the expiry asked for and from then on is in no later read by id, lexical or vector retrieval set, whatever is called in between |
| Effects.EmbeddingQueued | src/memhub/persistence/repositories/truth.py:287-305 | a call that writes a revision and names a model leaves in the same step a job for it, pending, untried, due and created now, in its project; all other jobs and all vectors stay, and without a model all jobs do |
| Effects.EveryRevisionHasItsJob | src/memhub/services/memories.py:191-194 | over any run, a revision written with a model has its job until its memory is purged or a sweep takes the job dead and over thirty days old, and a vector, that of its text, exactly when the job is done |
| Effects.BatchSettled | src/memhub/embeddings/worker.py:154-196 | an embedded batch marks exactly its jobs done; a failed one costs each an attempt and 2, 4, 8, then 16 seconds, and the fifth failure is death |
| Effects.BatchStored | src/memhub/embeddings/worker.py:126-149 | only an embedded batch stores vectors, one for each of its jobs, that of its revision's text |
| Effects.CollectedExactly | src/memhub/cli/admin.py:134-145 | a collection takes the keys it picked whose expiry has passed and the jobs it picked that are dead and over thirty days old, and nothing else |
| Effects.EveryReachableStore | src/memhub/persistence/models.py:253-269 | every store that calls can lead to satisfies the CHECKs, keys and indexes spelled out: statuses and their times, same-project successors, revisions exactly 1 to n with the n-th current, content and tag bounds, one dedup key per active memory, jobs dead exactly at five attempts and done exactly with their vector |
| Truth.OneWinnerPerRevision | docs/architecture.md:672-680 | over any run, at most one revise succeeds per memory and expected revision |
| Truth.RetiredAtMostOnce | src/memhub/persistence/sql/cas_supersede.sql:16-20 | a memory is retired at most once, by supersession or forgetting |
| Truth.ConflictReport | src/memhub/services/memories.py:471-493 | the re-read after a lost compare-and-set is sure to show a newer revision if and only if the expected revision is below the current one |
| Truth.RememberDecides | src/memhub/services/memories.py:139-178 | a remember, unkeyed or under a key it can claim, creates, deduplicates or raises exactly as no active memory, an unexpired one or an expired one was created with this content |
| Truth.ReviseDecides | src/memhub/services/memories.py:449-493 | a revise, unkeyed or under a key it can claim, raises, succeeds or conflicts exactly as the memory is not visible, at the expected revision or at another one, whose current text it then reports |
| Truth.StorableAfterRetirement | src/memhub/persistence/repositories/truth.py:73-85 | right after a memory is retired its content can be stored again, unkeyed or under any free key |
| Truth.ReviseMayDuplicate | src/memhub/services/memories.py:455-467 | a revise keeps current contents distinct if and only if no other active memory already says the new text |
| Truth.DuplicateContentHappens | src/memhub/services/memories.py:455-467 | for any hash and any two texts it tells apart, a run of three calls whose digests are those of their texts leaves two active memories with one content |
| Truth.PurgeErases | src/memhub/cli/admin.py:77-108 | a purge takes out exactly the rows of the memory in memories, revisions, dedup keys, jobs and vectors and every reference among memories; every other row stays, up to a retirement by the purged memory becoming a deletion |
| Truth.PurgeResidue | src/memhub/cli/admin.py:40-49 | after a purge some table still refers to the memory if and only if a stored idempotent response named it |
| Idempotency.RowWritten | src/memhub/services/memories.py:211-217 | a committed call leaves its key completed exactly when it created or revised, in progress exactly when it deduplicated or conflicted |
| Effects.KeyRowWritten | src/memhub/persistence/models.py:317-321 | a committed call writes the row of its own trimmed key and no other; it expires seven days on and holds the memory and revision written, or no response and in progress |
| Effects.KeyStaysSevenDays | src/memhub/services/idempotency.py:199-218 | a key row stands unchanged through every collection up to seven days after its call |
| Effects.RetryDecided | src/memhub/services/idempotency.py:147-170 | for those seven days a call under the key replays the memory if and only if it is valid, has the type, text, tags and importance (or target, expected revision, text and tags) of the first call and the memory is visible; it is told the key is taken if and only if one of these differs; it never changes anything |
| Idempotency.AtMostOneEffect | src/memhub/services/idempotency.py:124-175 | while a key row lives, at most one call under it changes anything; every other replays that memory under the same fingerprint or raises |
| Idempotency.FingerprintForgives | src/memhub/services/memories.py:108-115 | a retry that differs only in what it supersedes, its expiry, author or model replays the first memory and changes nothing |
| Idempotency.OpenKeyRefuses | src/memhub/services/idempotency.py:165-170 | after a deduplicated or conflicted owner every further call under the key raises |
| Idempotency.EveryRowHasAnOwner | src/memhub/services/memories.py:157-178 | each committed row has its owning call in the run, in progress if and only if that call ended deduplicated or conflicted |
| Idempotency.RetryAfterPurge | src/memhub/services/memories.py:530-541 | a retry under a completed key whose memory was purged raises until the row is collected |
| Winners.OneCommitPerRevision | src/memhub/persistence/sql/cas_revise.sql:1-53 | under every interleaving at most one committed revise won each revision of a memory |
| Winners.OneCommitRetires | docs/architecture.md:691 | under every interleaving at most one committed transaction retired each memory |
| Winners.OneCommitPerKey | docs/architecture.md:722-760 | under every interleaving, of two committed calls under one key with no collection of its row between them the first neither deduplicated nor conflicted, and if it had an effect the second replayed its memory under the same fingerprint |
| Winners.RowTellsItsOwner | src/memhub/services/memories.py:211-217 | under every interleaving, until it is collected, the row of a committed call is completed with the memory and revision it wrote, or in progress if it deduplicated or conflicted |
| Idempotency.UntrimmedKeyNeverLands | src/memhub/services/idempotency.py:122 | a request that would have had an effect has it if and only if its key equals its trimmed form, and otherwise leaves no trace |
| Basics.StripExactly | src/memhub/services/idempotency.py:87-95 | trimming takes off all white space around a text and nothing of the text |
| Transactions.StepTxnOk | docs/architecture.md:672-680 | each statement keeps what a transaction knows about the committed store it has matched |
| Transactions.ReadMeansExec | src/memhub/services/memories.py:157-178 | a transaction that ends by reading answers as the atomic call would at that read, if a revise expects a revision that was committed |
| Transactions.ReadyMeansExec | src/memhub/persistence/repositories/memories.py:263-303 | a transaction about to commit answers and writes as the atomic call would at its commit |
| Interleaving.MoveOk | docs/architecture.md:672-693 | every move of the machine keeps the claimed serial order exact |
| Interleaving.EveryRunIsSound | docs/architecture.md:672-691 | in every reachable state of every interleaving the committed store is well formed and each live transaction's knowledge of it is true |
| Interleaving.EveryRunIsSerial | docs/architecture.md:672-691 | every interleaving whose revises name a committed revision ends in the store and the answers of a serial order of exactly the committed calls, in which a call that began after another had committed stands after it, and each conflict names a revision newer than the expected one |
| Interleaving.TrailTells | docs/architecture.md:672-680 | the committed calls of a run are those its moves began and committed, each with the call and id it began with |
| Alone.CallAlone | src/memhub/services/memories.py:102-229 | from any quiet state the machine runs any call that does not raise to its commit, with the store and answer of the atomic call |
| Alone.ErrorAlone | src/memhub/services/idempotency.py:98-175 | and a call that raises to exactly that error, with nothing committed |
| Alone.EverySerialRunHappens | docs/architecture.md:672-691 | every serial run of remembers, revises, forgets, collections and embeddings is a run of the machine, with the same store and the same calls and answers committed in the same order |
| Prophet.ProphetRun | src/memhub/services/memories.py:455-493 | from every store with a visible memory the machine has a run in which a caller naming the revision after the current one is told it lost to that very revision, an answer that occurs in no serial run of any calls |
| Prophet.ForgetAcrossPurge | src/memhub/services/memories.py:337-343 | a forget overtaken by a purge gives an answer the atomic call gives neither before nor after it |
| Deadlock.WaitsClimb | src/memhub/services/memories.py:283-304 | a blocked transaction waits for one that, if blocked itself, waits for a resource further up: the key, then the dedup claim and memory rows by id, or then an attestation row |
| Deadlock.NoWaitCycle | docs/architecture.md:689 | no reachable state has a wait-for cycle of any length, attestation upserts included |
| Deadlock.AttestationsApart | src/memhub/persistence/repositories/truth.py:88-115 | in no reachable state have two live transactions counted the same client for the same memory: the second upsert waits |
| Deadlock.DeduplicatedHasCounted | src/memhub/services/memories.py:232-269 | every committed remember that found the memory already there has counted its client |
| Deadlock.AlwaysProgress | src/memhub/services/memories.py:102-189 | in every reachable state with live transactions one of them can execute, attest, commit or is rolling back on its own error |
| Lineage.ChainLinks | src/memhub/persistence/repositories/truth.py:226-258 | each member of the chain is superseded by the next, in the same project, younger; the last by nothing |
| Lineage.SupersessionAcyclic | src/memhub/services/memories.py:300-318 | no memory supersedes itself through any number of steps |
| Lineage.LineageExact | src/memhub/persistence/repositories/truth.py:226-258 | in every reachable store the query returns exactly the first 65 members of the chain, or all if fewer, and the end of the chain is not superseded |
| Retrieval.FormsAgree | src/memhub/retrieval/semantic.py:113-117 | the filter as an expression, as SQL in the vector query and by current number in the coverage query select the same rows, one per visible memory |
| Retrieval.GetFindsTheVisible | src/memhub/persistence/repositories/memories.py:104-113 | reading by id finds a memory exactly when it is visible and shows its current revision |
| Retrieval.CoverageMeans | src/memhub/persistence/repositories/truth.py:307-336 | coverage times the number of retrievable memories is the number that vector search reaches; it is one if and only if every retrievable revision's job is DONE, and one where there is none |
| Retrieval.HiddenStaysHidden | src/memhub/retrieval/filters.py:57-78 | what has existed and is not visible is not visible later |
| Retrieval.NeverAgain | src/memhub/retrieval/filters.py:57-78 | over any run a retired, expired or purged memory and a replaced revision are in no later retrieval set |
| Retrieval.HybridSearch | src/memhub/services/retrieval.py:54-134 | the answer shows the fusion of the two rankings, whole if it fits the limit and else its first so many, each as the statement that read it saw it and only if it still did; it counts the ids listed, raises exactly when the semantic leg was cancelled or failed in the database, and degrades exactly when the embedder is down |
| Retrieval.FiltersHoldExactly | src/memhub/services/retrieval.py:70-86 | all results are of the types and have the tags asked for, whatever the rankings, if and only if all that vector search reaches does |
| Retrieval.ResultWasVisible | src/memhub/services/retrieval.py:108-123 | each result was visible to a statement of this search and shows what that statement saw |
| Retrieval.VisibleIsReturned | src/memhub/services/retrieval.py:112-123 | a result within the limit that every statement of the search could see is returned |
| Retrieval.SearchNeverStale | src/memhub/services/retrieval.py:108-123 | with other calls committing while it runs, a search never returns what was retired, expired, purged or replaced before it began, at any limit and for any rankings |
| Retrieval.DegradesToLexical | src/memhub/services/retrieval.py:89-110 | without semantic rows the answer is the lexical answer, all of it if it fits the limit and else exactly its first so many, read by no further statement |
| Retrieval.AgreementLeadsTheResults | src/memhub/services/retrieval.py:68-110 | for limits up to 20 every result found by both halves precedes every result found by one |
| Fusion.Tally | src/memhub/retrieval/fusion.py:74-80 | one ranking adds its weight over k plus rank to each id it lists, at its place |
| Fusion.ReciprocalRankFusion | src/memhub/retrieval/fusion.py:53-92 | every id listed appears once with the sum of its contributions and its places, by falling score and then id |
| Fusion.WeightedPlaces | src/memhub/retrieval/fusion.py:74-80 | an id two rankings list scores the weight of each, one where none is given, over k plus its place |
| Fusion.PlacesReported | src/memhub/retrieval/fusion.py:82-92 | the ranks a result reports are its places in the two lists, counted from one, and absent exactly where it is not listed |
| Fusion.AgreementExactlyUpToTwenty | src/memhub/retrieval/fusion.py:74-92 | two over-fetched rankings always score agreement above single finds if and only if the limit is at most 20 |
| Fusion.AgreementPrecedes | src/memhub/retrieval/fusion.py:82-92 | in the fused list a result found by both precedes one found by only one |
| Fusion.LexicalOnly | src/memhub/services/retrieval.py:18-21 | with an empty semantic ranking the fused order is the lexical order |
| Outbox.EmbeddingWorker.ClaimJobs | src/memhub/embeddings/worker.py:51-64 | the rows are pending, of the model, due and unlocked, earliest first and at most a batch; every such job is among them, or the batch is full and none in it is later |
| Outbox.EmbeddingWorker.RunOnce | src/memhub/embeddings/worker.py:102-152 | a batch stores one vector per row and marks all DONE, or defers all; counts are exact, each row claimed uses up an attempt, and an idle answer means that every due job of the model is locked by somebody else |
| Outbox.EmbeddingWorker.Defer | src/memhub/embeddings/worker.py:154-196 | each row is one attempt further, dead at the fifth, otherwise pushed back by the doubled delay; the dead are counted |
| Outbox.EmbeddingWorker.Drain | src/memhub/embeddings/worker.py:198-213 | with other sessions committing between its batches, each batch is what the query answers on the tables of its moment and is settled as the embedder answered; the totals count each row of each batch once under what became of it, and never exceed five per job there was plus what others add; stopping early means that every due job of the model was locked by somebody else |
| Outbox.EveryRunOk | src/memhub/embeddings/worker.py:110-152 | under any interleaving of workers, crashes, writers, sweeps and purges a vector exists exactly for the DONE jobs and open batches are disjoint and still pending |
| Outbox.FinishIsEmbed | src/memhub/embeddings/worker.py:126-152 | finishing a batch is the atomic embedding call on the store of that moment, however long ago it was claimed |
| Outbox.ClaimedThenEmbedded | src/memhub/embeddings/worker.py:102-149 | from every state a claimed batch that is embedded ends done with the vectors of its texts, everything else as it was and its locks gone |
| Outbox.CrashLosesNothing | src/memhub/embeddings/worker.py:102-110 | a claim followed by a crash leaves everything as before the claim |
| Outbox.RetriedWhenDue | src/memhub/embeddings/worker.py:51-64 | a job is not claimed before 2, 4, 8 and 16 seconds after its first to fourth failure, and from then on every claim of its model that finds it unlocked takes it or is full of jobs due no later |
| Outbox.NoJobIsLost | src/memhub/persistence/repositories/truth.py:279-305 | a job stays, pending or settled for good, until its memory is purged or a sweep finds it DEAD and old |
| Outbox.RetryingEnds | src/memhub/embeddings/worker.py:146-196 | no run commits more than five batches for each job there was or was added |
| Outbox.DeathTakesThirtySeconds | src/memhub/embeddings/worker.py:162-181 | the back-offs before death sum to 30 seconds, and no job dies earlier than that after it was enqueued |
| Selector.Choose | src/memhub/context/builder.py:213-226 | the first affordable candidate of the highest value |
| Selector.Fill | src/memhub/context/builder.py:190-243 | the loop over mutable lists takes, spends and rejects what the recursive greedy filling does |
| Selector.Select | src/memhub/context/builder.py:118-187 | the passes, the redistribution and the counts are those of the specification, whose budget, order, guarantees and counts the rows of Brief state |
| Brief.BestDecides | src/memhub/context/builder.py:213-226 | the next pick is affordable, no affordable candidate is worth more, and none before it in density order is worth as much |
| Brief.WorthOf | src/memhub/context/builder.py:217-226 | a candidate is worth its score per token times one less three tenths of its greatest overlap with a text already chosen; one that scores nothing, a billionth of its novelty |
| Brief.FirstPick | src/memhub/context/builder.py:207-239 | a filling first looks at an affordable candidate of the highest value, among equals of the higher score per token, then of the smaller id, and takes it unless three fifths of the words of it and a chosen text are common to both |
| Brief.GreedyPartitions | src/memhub/context/builder.py:209-243 | one filling takes, rejects or leaves every candidate, exactly one of the three |
| Brief.GreedySpends | src/memhub/context/builder.py:211-243 | spending is the cost of what was taken, within the allowance, and nothing left would still fit |
| Brief.GreedyDiverse | src/memhub/context/builder.py:231-243 | what is taken is pairwise, and towards the earlier texts, below the duplicate threshold |
| Brief.AccountingExact | src/memhub/context/builder.py:139-187 | considered = selected + all drop counts, each count being the number of candidates that met that fate |
| Brief.BriefIsDiverse | src/memhub/context/builder.py:231-243 | any two memories of a brief share less than three fifths of their words, and each too_similar drop shares as much with a selected one |
| Brief.QuotaOrder | src/memhub/context/builder.py:154 | types are served by falling share, ties in the order given; the default is decisions 0.40, constraints 0.25, facts 0.20, tasks 0.15 |
| Brief.QuotaIsKept | src/memhub/context/builder.py:154-160 | if all memories of a type that fit at all cost no more than its share of the usable budget, each is in the brief or too similar to one that is |
| Brief.BriefIsMaximal | src/memhub/context/builder.py:166-183 | each no_budget_left drop costs more than the usable budget minus the tokens used |
| Brief.BriefInOrder | src/memhub/context/builder.py:246-263 | the brief is a permutation of the selection: constraints, decisions, facts, tasks; by falling score, then id |
| Brief.InputOrderIrrelevant | src/memhub/context/builder.py:154-187 | permuted candidates give the identical selection, order, total and counts |
| Brief.BudgetExactly | src/memhub/context/builder.py:131-185 | no list of candidates can exceed the usable budget if and only if the allowances together do not |
| Brief.CrowdOverspends | src/memhub/context/builder.py:154-160 | otherwise an ordinary list of distinct candidates of one token each does |
| Brief.NineTenths | src/memhub/context/tokens.py:115-122 | the usable budget is nine tenths of the budget rounded down, and one for a budget below two |
| Brief.FairSharesWithinBudget | src/memhub/context/builder.py:135-143 | with non-negative shares of at most one in all, as by default, a brief spends at most the usable budget, at most the budget, and at most nine tenths of a budget of two or more |
| Greedily.PriceExists | src/memhub/context/builder.py:209-243 | for every competing set some price per token makes the greedy filling plus one item at least as good |
| Greedily.WithinOneItem | src/memhub/context/builder.py:18-19 | with no shared words, positive scores and costs, the greedy score plus the largest single score is at least the score of every set that fits |
| Ndcg.GainDoubles | src/memhub/evaluation/metrics.py:33-41 | grade zero gains nothing and each grade gains twice the one below it and one more |
| Ndcg.TwoRanked | src/memhub/evaluation/metrics.py:33-57 | two judged results b, a score ((2^h - 1) d(0) + (2^g - 1) d(1)) over the same with the higher grade first, for any grades and falling discount |
| Ndcg.OneRelevant | src/memhub/evaluation/metrics.py:44-57 | with one relevant memory the score is the discount of its place over that of the first place, and zero beyond the first k |
| Ndcg.SummationByParts | src/memhub/evaluation/metrics.py:33-41 | lists of grades whose summed gains dominate at every length are worth more under any falling discount |
| Ndcg.IdealDominates | src/memhub/evaluation/metrics.py:44-57 | no duplicate-free ranking out-gains the ideal at any length |
| Ndcg.InUnitInterval | src/memhub/evaluation/metrics.py:44-57 | nDCG lies in [0, 1] for every duplicate-free ranking, judgment and k |
| Ndcg.PerfectExactly | src/memhub/evaluation/metrics.py:44-57 | nDCG is 1 if and only if there is something to find and the top k show, place by place, the ideal grades |
| Ndcg.BestFirstIsPerfect | src/memhub/evaluation/metrics.py:44-57 | all relevant results in falling grade order score 1 |
| Ndcg.NothingToFindIsZero | src/memhub/evaluation/metrics.py:47-54 | a query with nothing to find scores 0 |
| Ndcg.RepeatsExceedOne | src/memhub/evaluation/metrics.py:56-57 | a repeated result can score above 1 |
| Projects.ProjectService.UseProject | src/memhub/services/projects.py:46-174 | all hints looked up, then the outcome and the learnt aliases of the specification, with other sessions committing in between and a slug taken meanwhile refused |
| Projects.ProjectService.EnsureAliases | src/memhub/services/projects.py:177-194 | adds the aliases nobody owns and leaves owned ones with their owner |
| Projects.OwnersNeverChange | src/memhub/services/projects.py:183-194 | over any run, its calls overlapping as they may, no alias changes owner, no project its slug, and slugs stay unique |
| Projects.SuccessAgrees | src/memhub/services/projects.py:104-132 | a call nobody overtakes never returns a project while a supplied hint names another, and afterwards all its hints name that project |
| Projects.AgreesUnlessTaken | src/memhub/services/projects.py:134-142 | with others at work, afterwards all its hints name that project if and only if none of its aliases had been taken for another meanwhile |
| Projects.TakenAliasResolvesElsewhere | src/memhub/services/projects.py:183-194 | a remote taken meanwhile resolves to the other project in every later state |
| Projects.ResolvesExactly | src/memhub/services/projects.py:75-174 | exactly when a call resolves, and exactly when it creates |
| Projects.RefusesExactly | src/memhub/services/projects.py:84-157 | exactly which calls are told not found, ambiguous, with exactly the projects named, or invalid; none of them writes anything |
| Projects.WritesExactly | src/memhub/services/projects.py:159-194 | a success writes the slug of a project it created and the supplied aliases nobody owned, and nothing else |
| Projects.OverlapHappens | src/memhub/services/projects.py:177-194 | two overlapping calls that create a project each with one remote both succeed, and the remote stays with the first |
| Projects.ResolutionIsStable | src/memhub/services/projects.py:75-174 | after hints H returned p, any non-empty subset of H returns p after any further calls, if no alias of H had been taken for another project while the first call ran |

## Left out

- Interleaving.EveryRunIsSerial: excludes purge, which is an atomic step elsewhere (see `Prophet.ForgetAcrossPurge`); audit rows and the corroboration count an answer carries are not part of the order.
- Alone.EverySerialRunHappens: purges are not steps of the machine and calls that raise leave nothing to order (`Alone.ErrorAlone`).
- The interleaved model takes new ids to be unguessable (`FreshId`) and one transaction to run one service call.
- Service.Session.CollectGarbage: which rows a limited delete picks is left open.
- Retrieval.HybridSearch: the text match, the ranking by relevance, recency and importance and the distance threshold appear as "any list of rows that pass the filters".
- Brief.AccountingExact: requires distinct memory ids and one quota per type, as retrieval and the quota table guarantee.
- Projects.ProjectService.UseProject: an alias committed between the statement that finds it free and the one that inserts it, which the unique index turns into an error and a rollback.
- Normalisation and validation of text, slugs, remotes and paths: taken as done. White space is the ASCII kind.
- Audit events, created and updated timestamps, change reasons, sources and author kinds.
- Full-text matching, the vector index, embedding itself and token estimation.
- The MCP server, its schemas and error mapping, configuration, logging, metrics counters, migrations and the rendering of briefs.
