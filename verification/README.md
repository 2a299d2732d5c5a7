# Kasane: memory store, search index and evaluation consent

A Dafny model of the parts of Kasane in which several pieces of state have to agree: the memory
tables with their outbox and the search index behind them, the life of a relevance evaluation under
its owner's consent, the budgeted context with its usage accounting, the similarity map, and the
request limiter. Every result holds for all inputs, and the results about protocols hold in every
state of every run, of any length and with any number of concurrent transactions.

`dafny verify dfyconfig.toml` checks the whole project.

## How it is organised

| module | what it holds |
|---|---|
| `Memories` | the `memories` and `outbox` rows, what one committed write does to them, the table invariant |
| `Effects` | what create, update, move and forget leave behind and when each succeeds, said of the tables before and after |
| `Commits` | the ghost history of committed versions; what each kind of commit keeps |
| `Qdrant` | the index as one point per memory id, and `Apply` |
| `Protocol` | Remember, Move, Forget, Reindex and ProcessOne, one SQL statement at a time, with row locks |
| `Safety` | the invariant of that machine, kept by every step |
| `Guarantees` | what the invariant means to callers over whole runs |
| `Paths` | what can be reached from a state, and by which actions |
| `Locking` | the waits-for graph |
| `Recovery` | how a full Reindex repairs a damaged index while other transactions go on |
| `Store` | the same operations as methods on a class, each as one transaction; the worker's drain |
| `Worker` | retry delays, what a drain reaches, rebuilding a lost index |
| `Search` | stale hits and `Rehydrate` |
| `Progress` | what the interleaved store can always still do: work off its queue, take in a memory |
| `Service` | the three ways a search is answered |
| `Export` | judgements, relevance requests, decision responses, exported events |
| `Feedback` | the evaluation rows and policies; Save, Review, Withdraw, Purge, SetPolicy as methods on a class |
| `Consent` | the same calls interleaved, under the advisory lock, with a shared clock |
| `Packing`, `Usage` | context packing, the independent baseline count, daily counters and reports |
| `Similarity`, `KnowledgeMap` | normalised sparse vectors, cosine, the edges of the map |
| `Freshness` | what the map shows as indexed is what the store holds |
| `Limiter` | the fixed-window limiter and what it guarantees over any sequence of calls |
| `Wrappers`, `Sets` | the option type; sizes of finite sets |

The store and the evaluations appear at two levels. The classes `Store.Store` and
`Feedback.EvaluationStore` run each call as one atomic transaction. `Protocol` and `Consent` cut the
calls into statements that interleave. `Guarantees.CommitsAreAtomic` and `Consent.InsertsAreAtomic`
connect the two: whatever an interleaved call commits is what the whole call does when it runs alone
at the moment of its commit.

The store of evaluations takes any payload and any review; that they are aligned and complete
(`Feedback.ContentsOk`) is what the handlers see to, and `Consent` shows that it then always holds.

`{:induction false}` also stands on lemmas that mention a recursive function without recursing
themselves. It keeps Dafny from adding an induction hypothesis that their proofs do not use.

## What is assumed

- PostgreSQL at READ COMMITTED. A statement reads committed data; row locks and advisory locks are
  held until the transaction ends; a transaction's writes appear all at once at its commit.
- A transaction may be rolled back between any two statements. A commit that is lost after the index
  has taken the point is such a rollback.
- One clock, which never goes back, for the database and the process.
- Ids are canonical lower-case UUIDs and are modelled as numbers, so the text order that Move sorts
  by is the numeric order, and the evaluation lock's key identifies the workspace. A new UUID may
  collide with an old one; the insert then fails.
- `FOR UPDATE SKIP LOCKED` in ProcessOne may return any memory, or none. This includes every answer
  that a stale view of the outbox can give.
- A failed index call may or may not have taken effect. For the results on convergence only, no call
  takes effect after its memory lock is released. The results on search soundness need no such thing:
  they hold for any points the index was ever sent, however old, repeated or reordered.
- The index may also be damaged from outside at any moment (`Damage`). Results that need an intact
  index say so.
- Arithmetic on similarities is exact; the square root is a parameter that squares to its argument.
- Titles, contents and context texts are sequences of characters, request strings sequences of bytes.

## Where the code differs from what one might expect

- The outbox columns `revision` and `event_kind` can be stale, because Reindex reads revisions without
  locks and writes them later. No result uses them as the row's revision. Convergence holds because
  ProcessOne applies the locked current row.
- Concurrent full Reindex runs can deadlock: alone, exactly from the quiet states with two live
  memories (`Locking.ReindexesDeadlockIffTwoLive`). With at most one Reindex, or with several that
  follow one order, there is no deadlock.
- The update statement of Remember does not test `deleted`. It cannot revive a memory all the same
  (`Guarantees.GuardedCommit`), because its earlier unlocked read and the revision guard together act
  as a compare-and-set.
- Automatic training candidates keep the agent's labels under the submitted spelling of a rule id and
  look them up under the stored one. Every exported event has a label exactly when every rule id was
  submitted in lower case (`Export.AgentLabelsCompleteIffCanonical`), and every other spelling does
  lose its label (`Export.LabelGetsLost`). Reviewed evaluations always have all their labels.
- `ValidID` removes every dash before it decodes, so it accepts texts that are not UUIDs: those with
  further dashes (`Export.ValidIdIsUuidIffFourDashes`). It is modelled as written; such ids are refused
  later, when the memory is fetched.
- The count and the page of a listing are two statements and may see different tables.

## Model

| member | source | states |
|---|---|---|
| `Safety.RunKeeps` | internal/store/store.go:168-562 | in every state of every interleaved run the tables, the version history, the index, the locks and every transaction in progress are consistent with each other |
| `Safety.StepKeeps` | internal/store/store.go:168-562 | one statement, index call, rollback, clock tick, new workspace or damage to the index keeps that invariant |
| `Safety.StatementNext` | internal/store/store.go:180-341 | a statement takes at most the lock it asked for and re-establishes what the rest of its transaction relies on |
| `Safety.StatementEnd` | internal/store/store.go:232-372 | a transaction only ends in a write that the locks it holds and the checks it made justify: right revision, live row, free key, room in the profile |
| `Safety.Undisturbed` | internal/store/store.go:185-341 | what a transaction has read or counted under its locks survives the commit of any transaction with disjoint locks |
| `Safety.EffectEvolves` | internal/store/store.go:340-562 | every commit keeps tables and history consistent and touches nothing outside the committer's locks |
| `Safety.EffectConverges` | internal/store/store.go:340-562 | a commit leaves every memory queued or faithfully indexed, although outbox revision and kind may be stale |
| `Safety.CallKeeps` | internal/store/store.go:540-549 | an index call that succeeds, fails, or fails after taking effect keeps the invariant and disturbs no other transaction |
| `Safety.DamageKeeps` | internal/store/store.go:463-509 | arbitrary damage to one id's point keeps everything except that id's agreement |
| `Commits.PutConsistent` | internal/store/store.go:256-259 | a new version that its guards allow keeps keys unique, the profile within its cap, the status coherent and the history exact |
| `Commits.RequeueEvolves` | internal/store/store.go:499-507 | Reindex changes no version, even when the revisions it listed are stale |
| `Commits.SettleEvolves` | internal/store/store.go:550-557 | settling a job marks the row indexed at its own revision and keeps the tables consistent, whatever the job's revision says |
| `Commits.RetryEvolves` | internal/store/store.go:543-548 | postponing a job changes no version and keeps the tables consistent |
| `Guarantees.IndexConverges` | internal/store/store.go:511-562 | without outside damage, in every reachable state a memory that is not queued agrees with the index (live: its point is the projection of the row; deleted: no point), and no point belongs to an unknown memory |
| `Guarantees.StatusCoherent` | internal/store/store.go:144-159 | `indexed_revision` is 0 or the revision, and a live memory reads as indexed exactly when it has no outbox row, through Reindex races too |
| `Guarantees.RevisionDeterminesVersion` | internal/store/store.go:254-260 | an id and a revision fix workspace, kind, tags, text, key and deletion throughout a run |
| `Guarantees.RevisionCountsCommits` | internal/store/store.go:227-372 | a memory's revision is the number of committed creations, updates, moves and forgets of it |
| `Guarantees.GuardedCommit` | internal/store/store.go:238-268 | an update or move that commits found the expected revision on a live memory and leaves exactly the next one |
| `Guarantees.OneWinnerPerRevision` | internal/store/store.go:254-263 | for each memory and expected revision at most one guarded write of a run commits |
| `Guarantees.RevisionsGrow` | internal/store/store.go:254-362 | memories never disappear and revisions never fall |
| `Guarantees.ForgottenForever` | internal/store/store.go:352-373 | no later step of any run changes an authored field of a deleted memory or revives it |
| `Guarantees.OneHolderPerKey` | internal/store/store.go:188-205 | a workspace has at most one memory per idempotency key, deleted ones included |
| `Guarantees.ForgottenKeyStaysTaken` | internal/store/store.go:197-199 | a forgotten memory holds its key for the rest of the run, so every later create under it conflicts |
| `Guarantees.CreateNeedsFreeKey` | internal/store/store.go:223-237 | from just before its insert until it commits a create finds its key free in the committed tables, so the insert cannot collide on it |
| `Guarantees.MoveFreesKey` | internal/store/store.go:310-312 | a committed move frees the key in the source workspace and brings none to the target |
| `Guarantees.ProfileNeverCut` | internal/store/store.go:212-309 | in every reachable state a workspace has at most 100 live stack or practice memories, so the profile query's limit of 100 cuts nothing off |
| `Guarantees.CommitsAreAtomic` | internal/store/store.go:168-373 | every interleaved create, replayed or conflicting create, update, move or forget that commits equals the whole transaction run alone at its commit, in its answer and in the tables it leaves |
| `Guarantees.CommitsLeave` | internal/store/store.go:168-373 | what every answering commit of a run leaves in the tables: a create its content under its key, an update its content and kind in the same workspace, a move the memory in the target, a forget a blank, a replay nothing; every other row and job stays, and the answer is the row as stored |
| `Guarantees.EveryAnswerCounts` | internal/store/store.go:168-373 | every successful create, update, move and forget is among those that the results on answers, guards and revisions count |
| `Effects.CreateEffect` | internal/store/store.go:188-237 | under a taken key a create replays the holder exactly if that is live and equal, and conflicts otherwise; under a free key it adds the memory asked for unless the profile is full or the id taken |
| `Effects.UpdateEffect` | internal/store/store.go:238-268 | exactly when an update succeeds and why it is refused; on success title, content, tags, source and kind are those asked for, workspace and key stay, and the revision is the next one |
| `Effects.MoveEffect` | internal/store/store.go:272-327 | exactly when a move succeeds and why it is refused; on success the source loses exactly this memory and the target gains it, with content and kind as before and no key |
| `Effects.ForgetEffect` | internal/store/store.go:352-373 | a live memory is left deleted and blank with workspace, kind and key as before; anything else is left alone |
| `Guarantees.CreatesAgree` | internal/store/store.go:188-205 | after one create under a key has answered with a memory, a later successful create under the key answers with the same memory exactly if it has not been moved away in between |
| `Locking.NeverWaitsForOutbox` | internal/store/store.go:530-533 | nobody ever waits for an outbox row: its holder holds the memory too |
| `Locking.WaitClimbs` | internal/store/store.go:281-294 | along a wait the wanted locks climb: workspaces in id order, then memories |
| `Locking.NoCycle` | internal/store/store.go:185-533 | the waits-for graph has no cycle of any length |
| `Locking.OneReindexOrdered` | internal/store/store.go:499-507 | one Reindex at a time visits its memories along some order, whatever that order is |
| `Locking.DeadlockFree` | internal/store/store.go:185-533 | no reachable state is deadlocked in which the open Reindex runs, however many, follow one common order, and if any transaction is open one of them can take its next step |
| `Locking.OneReindexIsFree` | internal/store/store.go:185-533 | with at most one Reindex no reachable state is deadlocked and an open transaction can go on |
| `Locking.ReindexesDeadlockIffTwoLive` | internal/store/store.go:463-509 | from a quiet state any number of full Reindex runs alone can reach a deadlock exactly if there are two live memories |
| `Locking.TwoReindexesCanDeadlock` | internal/store/store.go:469-507 | two full Reindex runs, each with its own order of the listing, can reach a state in which each waits for the other |
| `Progress.DueJobCanBeDone` | internal/store/store.go:511-562 | from every quiet reachable state with a due job there is a run that applies its memory as it is and takes the job off the queue |
| `Progress.QueueCanBeEmptied` | internal/store/store.go:511-562 | from every state of an undamaged run a crash of everything, some time and one worker lead to an empty queue, with no version changed, the index equal to the projection of the live memories, and Rehydrate keeping every hit |
| `Progress.CreateCanBeDone` | internal/store/store.go:168-237 | from a quiet state every create that succeeds with a new memory when run alone is also a run of its statements |
| `Progress.TwoLiveIsReachable` | internal/store/store.go:168-237 | a quiet state with two live memories is reachable, so the condition for Reindex deadlocks does arise |
| `Recovery.ReindexRecovers` | internal/store/store.go:463-562 | whatever damage was done before and whatever runs beside it, once a full Reindex has listed and committed every live memory is queued or agrees with the index, for as long as there is no new damage |
| `Recovery.CommitMends` | internal/store/store.go:499-508 | when a full Reindex commits, only deleted memories may still have a damaged point that nobody will repair |
| `Store.Store.Remember` | internal/store/store.go:168-268 | the method's result and tables equal those of the transaction specification, with one new version in the history exactly when the tables change |
| `Store.Store.Create` | internal/store/store.go:188-237 | replays an equal live memory under the same key or adds the memory asked for; every refusal leaves the tables as they were |
| `Store.Store.Update` | internal/store/store.go:238-268 | a success stores the content and kind asked for at the next revision, in the same workspace under the same key; every refusal leaves the tables as they were |
| `Store.Store.Move` | internal/store/store.go:272-327 | a success leaves the memory in the target, without its key and otherwise unchanged but for the revision; every refusal leaves the tables as they were |
| `Store.Store.Forget` | internal/store/store.go:352-373 | blanks a live memory and queues its deletion, and leaves every other memory alone |
| `Store.Store.OutboxTx` | internal/store/store.go:340-343 | the memory has a job that is due at once with no attempts; an existing job keeps its creation time, and every other job is as before |
| `Store.Store.Reindex` | internal/store/store.go:463-509 | the loop queues exactly the listed memories again and resets their indexed revision |
| `Memories.RequeueNext` | internal/store/store.go:499-507 | one round of the loop turns the specification of a listing into that of the listing extended by one memory |
| `Store.Store.NextDue` | internal/store/store.go:517-525 | finds a job exactly when one is due, and none of those is due earlier or, at the same time, created earlier |
| `Store.Store.Attempt` | internal/store/store.go:526-561 | the index then has the memory as it is unless the call failed without effect; success ends the job and records the live revision, failure counts an attempt and keeps the rest of the job; everything else stays |
| `Store.Store.ProcessOne` | internal/store/store.go:511-562 | works exactly when a job is due, on the first due one, and otherwise changes nothing |
| `Store.Store.Drain` | internal/server/app.go:440-448 | at one instant the worker attempts every due job exactly once, in order of next attempt and creation, and stops with none due |
| `Store.StillDue` | internal/store/store.go:543-548 | an attempt takes its own job out of the due set, and no other job enters or leaves it |
| `Store.TriedMore` | internal/store/store.go:543-557 | attempting one more job extends the result of the attempts before it |
| `Worker.KthFailureDelay` | internal/store/store.go:543-548 | the k-th consecutive failure delays by exactly min(300, 2^k) seconds |
| `Worker.CapInvisible` | internal/store/store.go:544-544 | the cap of 9 on the exponent never changes a delay |
| `Worker.DrainReachesTruth` | internal/store/store.go:511-562 | in every state that a run without outside damage reaches, if all jobs are due and all applies succeed, a drain empties the outbox, makes the index equal to the projection of the live memories and changes no version |
| `Worker.DrainFromConverged` | internal/store/store.go:511-562 | the same for any consistent tables and any index in which unqueued memories agree |
| `Worker.RebuildRestores` | internal/store/store.go:463-557 | after any loss or damage of the index, and with any jobs put off for any time, a full Reindex and a successful drain restore every live memory; what stays queued is exactly the jobs of deleted memories that are put off further, and apart from due deletions their points stay as they were |
| `Search.Rehydrate` | internal/store/store.go:426-446 | returns exactly the hits that are current at their own read, in the order of the hits and with their scores |
| `Search.Kept` | internal/store/store.go:428-441 | the surviving hits are exactly the current ones, as an order-preserving subsequence |
| `Search.StaleHitsAreHarmless` | internal/search/qdrant.go:110-138 | a hit for any point ever sent, if Rehydrate keeps it later, names a live memory of the workspace at the hit's revision that passes the kind and tag filters as it is now |
| `Search.SearchSound` | internal/search/service.go:33-37 | every memory of an index search is live, in the workspace, at its hit's revision and passes the filters, although each hit is read at a different moment |
| `Service.List` | internal/store/store.go:383-425 | a page of the wanted rows in the sorted order, and the number of all rows asked for, counted by a separate statement; a first page that is not full holds everything asked for |
| `Service.Search` | internal/search/service.go:20-38 | without a query or without an index the live rows are listed, degraded exactly in the second case; every memory of every answer is live, in the workspace and passes the filters as it was read |
| `Search.SettledSearchDropsNothing` | internal/search/service.go:27-37 | with an empty outbox and an undamaged index Rehydrate keeps every hit |
| `Search.LeftoverPointsAreDropped` | internal/store/store.go:432-441 | whatever a damaged index answers, a hit for a memory that was deleted or newer at some step of a run is dropped at every later read |
| `Search.FreshPointIsCurrent` | internal/server/knowledge_map.go:64-64 | a point of equal revision read before or after its memory is exactly the memory's current projection |
| `Qdrant.PointHolds` | internal/search/qdrant.go:106-106 | a point carries its memory's own id, workspace, revision, kind and tags, and its document holds the title, the content and every tag |
| `Export.ValidateJudgements` | internal/server/decision_feedback.go:62-80 | the delete loop accepts exactly the one-to-one labelings of 1 to 64 distinct valid rule ids |
| `Export.Pigeonhole` | internal/server/decision_feedback.go:73-78 | as many distinct labels as rules, all naming rules, name every rule |
| `Export.Relevance` | internal/server/decision.go:32-57 | succeeds exactly when all of 1 to 64 distinct references resolve, with request and memory lists aligned to the references, each a practice at its expected revision |
| `Export.SubmissionAligned` | internal/decision/client.go:197-229 | a validated response to a built request lines up decision, memory and request rule at every index |
| `Export.Events` | internal/server/decision_feedback.go:290-327 | one event per rule, in order, with its own rule's revision and label; it says relevant exactly if the rule was included, insufficient context exactly if the service abstained, and not relevant otherwise |
| `Export.SubmissionExports` | internal/server/decision_feedback.go:290-327 | for a submission: event i is about reference i at its expected revision; a required or scope-matched rule exports as relevant and an abstained one as lacking context |
| `Export.LabelFound` | internal/server/decision_feedback.go:290-293 | the label map answers for an id with the mark of one of its judgements, and with nothing exactly if there is none |
| `Export.LabelledIffCanonical` | internal/server/decision_feedback.go:290-323 | a rule of an automatic candidate has a label exactly when its own id was submitted in lower case |
| `Export.AgentLabelsCompleteIffCanonical` | internal/server/decision_feedback.go:280-323 | an automatic candidate exports a label for every rule exactly when every rule id was submitted in lower case |
| `Export.LabelGetsLost` | internal/server/decision_feedback.go:290-323 | whatever UUID is submitted in another spelling than the canonical one, there is a submission that exports its rule without a label |
| `Export.UpperCaseLosesLabel` | internal/server/decision_feedback.go:290-323 | one such submission, with a concrete upper-case id |
| `Export.ValidIdIsUuidIffFourDashes` | internal/core/validation.go:23-29 | a text that ValidID accepts is a UUID exactly if it has no dashes besides the four |
| `Export.ReviewLabelsComplete` | internal/server/decision_feedback.go:213-217 | a checked human review yields a valid label, the reviewer's own, for every rule |
| `Feedback.EvaluationStore.SaveDecisionEvaluation` | internal/store/decision_feedback.go:46-92 | for any payload: answers a retry of the same request and submitter with the stored row, and otherwise stores fingerprint, submitter, payload and expiry, granted now exactly under the owner's policy; a refusal changes nothing; aligned payloads keep all stored contents aligned |
| `Feedback.SaveEffect` | internal/store/decision_feedback.go:46-92 | exactly when a save succeeds, which refusal is given when, and what it leaves |
| `Feedback.EvaluationStore.ReviewDecisionEvaluation` | internal/store/decision_feedback.go:112-121 | for any review: succeeds exactly on an unreviewed, unexpired row with content, which then carries the review and is granted now; anything else stays; checked reviews keep all stored reviews complete |
| `Feedback.EvaluationStore.WithdrawDecisionEvaluation` | internal/store/decision_feedback.go:122-131 | a row that is found is withdrawn without payload and review, with its registration and every other row as before; a missing one is reported |
| `Feedback.EvaluationStore.PurgeDecisionEvaluations` | internal/store/decision_feedback.go:132-135 | every expired row with content is withdrawn without it, and every other row is as before |
| `Feedback.EvaluationStore.SetDecisionTrainingPolicy` | internal/store/decision_feedback.go:160-181 | sets this workspace's policy and no other, and withdraws exactly its automatic candidates when it is switched off |
| `Feedback.InsertKeeps` | internal/store/decision_feedback.go:72-87 | an insert counted at the start of its transaction keeps the quota at any later commit time |
| `Feedback.PurgeKeeps` | internal/store/decision_feedback.go:132-135 | a purge only moves rows towards withdrawal and leaves no expired content |
| `Consent.RunKeeps` | internal/store/decision_feedback.go:46-181 | in every state of every interleaved run rows, policies, quota, lock and calls in progress are consistent |
| `Consent.RowsOnlyAge` | internal/store/decision_feedback.go:46-181 | rows never disappear, and fingerprint, submitter, expiry and grant time never change once set |
| `Consent.OffMeansNoCandidates` | internal/store/decision_feedback.go:160-181 | while a workspace's policy is off it has no automatic candidate |
| `Consent.StatusFitsContent` | internal/store/decision_feedback.go:83-133 | withdrawn exactly when the payload is null; reviewed or automatic implies a grant time, unreviewed implies none |
| `Consent.ConsentOnlyShrinks` | internal/store/decision_feedback.go:112-135 | withdrawal is final, and an automatic candidate never becomes a reviewed one |
| `Consent.QuotaHolds` | internal/store/decision_feedback.go:72-78 | at most 500 active evaluations per workspace at every moment |
| `Consent.AnswersAgree` | internal/server/decision_feedback.go:129-164 | all successful calls for one evaluation id, by unlocked pre-check, locked re-check or insert, answer with one payload, fingerprint and submitter |
| `Consent.SpentIdsNeverAnswer` | internal/store/decision_feedback.go:59-68 | once an id is withdrawn or expired no later call for it succeeds |
| `Consent.InsertsAreAtomic` | internal/store/decision_feedback.go:54-91 | an interleaved insert that commits equals the whole call run alone at its commit |
| `Consent.RepliesAreAnswers` | internal/server/decision_feedback.go:129-138 | the pre-check answers exactly with a readable row of the same request and submitter, and a locked step on a known id as the whole call does alone |
| `Consent.StepsLeave` | internal/store/decision_feedback.go:46-181 | every step of a run leaves in the tables what its call asks for and nothing else |
| `Consent.WithdrawalHolds` | internal/store/decision_feedback.go:122-131 | after a withdrawal, in every later state: no content, not readable, not exportable, registered as withdrawn, and no later answer for the id |
| `Consent.PurgeHolds` | internal/store/decision_feedback.go:132-135 | after a purge the same holds of every evaluation that had expired |
| `Consent.SwitchingOffHolds` | internal/store/decision_feedback.go:160-181 | after the policy is switched off the same holds of every automatic candidate of the workspace |
| `Consent.EligibilityAgrees` | internal/server/decision_feedback.go:86-275 | on every reachable row the receipt's readiness, the archive's guard and the registry's withdrawn flag agree: granted, content still there, not expired |
| `Consent.RegistryMonotone` | internal/store/decision_feedback.go:137-156 | a registry entry stays with its grant time, and its withdrawn flag never returns to false |
| `Consent.ExportWasEligibleThroughout` | internal/server/decision_feedback.go:354-375 | an export whose second read passes was eligible, on the same unchanged row, at every step since its first read |
| `Consent.ReviewedExportsAreComplete` | internal/server/decision_feedback.go:272-327 | every reachable reviewed row that can be exported has aligned lists and a label for every rule |
| `Packing.PackContext` | internal/core/validation.go:82-111 | for a budget of at least 1 the text is a prefix of everything within the budget, cut exactly when everything does not fit; the ids are the memories whose whole header and at least one body character are in it; room is only wasted before a header that does not fit |
| `Packing.LargerBudgetExtends` | internal/core/validation.go:82-111 | that specification fixes the result, and a larger budget only appends to text and ids |
| `Packing.PackedShows` | internal/core/validation.go:88-107 | every memory whose id is reported is shown at its place with its id, title and source, and its content from the beginning, whole unless the text ends there |
| `Packing.FullContextCharacters` | internal/server/usage.go:13-19 | the independent count is the length of everything there is to pack, which is the lengths of its parts and fifteen characters for each memory |
| `Usage.UsageStore.RecordContextUsage` | internal/store/usage.go:25-37 | accepts exactly the possible counts; adds one retrieval and both counts, rounded up to tokens, to this workspace and day and to no other; keeps the table equal to the tally of the accepted records |
| `Usage.UsageStore.RecordPacked` | internal/server/usage.go:20-26 | the bounds never reject a packed context with its independently counted baseline |
| `Usage.UsageStore.Report` | internal/store/usage.go:44-66 | thirty days, oldest first, with totals equal to the sum of the days, each day and the totals bounded as in ReportSaves |
| `Usage.TallyBounds` | internal/store/usage.go:29-35 | a tally counts its records; baseline and returned tokens each bracket their characters within three per retrieval; saved is their difference and not negative |
| `Usage.ReportSaves` | internal/store/usage.go:44-65 | the same bounds hold of every report over its whole window |
| `Usage.OwnerReportAddsUp` | internal/store/usage.go:41-43 | an owner's report is the sum of the reports of the owned workspaces |
| `Similarity.Normalized` | internal/search/vectors.go:61-87 | a vector is accepted exactly when every value is a number and not negative and some value is positive, and becomes a unit vector over the dimensions with a positive value, proportional to their totals |
| `Similarity.DotSymmetric` | internal/search/vectors.go:88-97 | iterating the smaller map instead of the first one does not change the sum |
| `Similarity.DotInRange` | internal/search/vectors.go:88-97 | for normalised vectors the dot product is in [0, 1], so the clamp changes nothing |
| `Similarity.Cosine` | internal/search/vectors.go:88-97 | the loop, in any order of the map, computes the clamped dot product, and on normalised vectors the dot product itself |
| `KnowledgeMap.NodeVectors` | internal/server/knowledge_map.go:58-78 | a node is shown as indexed and takes part with its normalised vector exactly when its point is up to date and its vector usable or empty; any other is unavailable if the index was degraded and pending if not |
| `Freshness.ShownIsCurrent` | internal/server/knowledge_map.go:64-76 | a node shown as indexed has no job, and the point it is drawn with is the present projection of its memory |
| `KnowledgeMap.ChosenIsClosest` | internal/server/knowledge_map.go:88-100 | nobody is chosen over a closer node, or at equal similarity over one of smaller id, or below 0.15 |
| `KnowledgeMap.PlaceCountsPreferred` | internal/server/knowledge_map.go:92-97 | the place of a neighbour after sorting is the number of neighbours preferred to it |
| `KnowledgeMap.NearestThree` | internal/server/knowledge_map.go:82-100 | the edges kept for a node lead exactly to the near nodes to which fewer than three are preferred; they are at most three, and all near nodes if fewer |
| `KnowledgeMap.Edges` | internal/server/knowledge_map.go:79-111 | the map draws each pair at most once, smaller id first, with its true similarity, and exactly the pairs of which one is among the three nearest of the other |
| `Limiter.Limiter.Allow` | internal/server/security.go:56-79 | the answer and the new table as functions of the old one, with the purge that may delete the caller's own expired entry |
| `Limiter.AtMostTenPerWindow` | internal/server/security.go:59-65 | at most ten allowed calls of a key fall into any window that one of its calls opens |
| `Limiter.AtMostTwentyPerInterval` | internal/server/security.go:56-79 | at most twenty allowed calls of a key fall into any fifteen minutes |
| `Limiter.TableBounded` | internal/server/security.go:66-75 | the table never has more than 10000 entries |
| `Limiter.NotStricterThanNeeded` | internal/server/security.go:59-78 | a call is refused exactly if its own key has used up a running window or 10000 keys have running entries; other keys and expired entries never count against it |

## Left out

- HTTP handlers, routing, MCP tools, cookies, the command line and the configuration.
- Database and network errors as such: a transaction that meets one is a rollback, and Rehydrate's early return on one is not modelled.
- The Qdrant wire protocol, text search and all ranking, in Qdrant and in PostgreSQL: the index may answer with any hits whose points pass the filters, and a listing takes its text condition and its order as parameters.
- The normalisation of inputs by the two Validate methods; inputs of Remember are taken as validated.
- Agent keys, grants, workspace ownership and its transfer; an owner's workspaces are a parameter of the usage report.
- The order of the profile query, timestamps that nothing depends on, and the columns last_error, reviewed_by and reviewed_at.
- JSON, SHA-256 and ZIP encoding: fingerprints are compared as texts and an archive is its list of events; limits on encoded sizes are dropped, which only admits more evaluations.
- The conversation with the decision service: its response is any response that passes validation.
- Rule paths, task and context of a relevance request, which are passed through unchanged; the limits on their sizes.
- Floating-point rounding and overflow in similarities, and the strongest weights listed for a node.
- The wrap-around of 64-bit counters and revisions.
- Limiter.Limiter.Allow: the mutex is not modelled; calls are taken in the order in which they obtain it.
- Locking.DeadlockFree: freedom is for open Reindex runs that follow one common order, because without one it is false.
