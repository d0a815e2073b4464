# Vennek: verified models of its protocols and algorithms

Vennek is a Telegram agent that answers questions about Cardano from an index of public
documents and compares private documents with them.  Most of its code is plumbing; what can go
wrong quietly sits in a few protocols over shared state and in some string and byte algorithms.
This project models those in Dafny and proves what they promise.

| file | what it models |
|---|---|
| `Knowledge.dfy` | the knowledge tables, the repository's transactions with rollback, and the revision |
| `Retrieval.dfy`, `RetrievalCache.dfy` | retrieval, hydration, and the cache in its three transactions beside indexers |
| `QueueAdmission.dfy` | concurrent admissions to the private queue with row locks, rollback and commit |
| `Promotion.dfy` | signed promotion requests, audit rows, single flight, completion and pruning |
| `ExtractorSlot.dfy` | the one extractor slot and the race that ends a worker run |
| `TextUnits.dfy`, `SplitText.dfy`, `ChunkDocument.dfy`, `DocumentChunks.dfy` | cutting documents into chunks, on UTF-16 units |
| `PdfTokens.dfy`, `PdfWalk.dfy`, `PdfItems.dfy`, `PdfForest.dfy`, `PdfSafety.dfy`, `PdfLength.dfy`, `PdfMisread.dfy` | the PDF safety walk and an independent reading of what it accepts |
| `Polling.dfy` | the polling loop, its offset and retained approval, bounded delivery |
| `Conversations.dfy` | idempotent storing of questions and answers |
| `GithubEtags.dfy` | GitHub endpoint states, indexing, and when ETags are committed |
| `EmbeddingBatches.dfy` | greedy batching of embedding inputs |
| `SecretScan.dfy` | budgeted scanning for wallet secrets |
| `RateLimiter.dfy` | the in-memory limiter, compared with the one in the database |
| `Encodings.dfy` | length-prefixed associated data and the signed text |
| `PrivateDelivery.dfy` | attempts at delivering a private comparison, and a job's lifetime |
| `Wrappers.dfy` | `Option` and `Result` |

The protocols are state machines: `Next` says what one statement, event or commit of one
participant may do, `Reachable` ranges over all runs of any length with any number of participants,
and the theorems speak about every reachable state.  The same operations are also written statement
by statement, as methods of classes with the source's fields, and proved to have the effect the
state machine gives them.  Loops of the source are loops here, proved against recursive functions,
about which the lemmas then prove the properties.

## Where the code and what is expected of it differ

- The PDF walk does not end on every input: at a bare `)` or a lone `>` its loop takes a turn that moves
  nothing on.  `PdfSafety.LoopsForeverExactly` gives the exact condition, in terms of the source alone, and
  `PdfSafety.BareParenthesisDiverges` an input.  Claims about accepted sources are untouched by it.
- The Length the PDF walk uses is not always that of the dictionary.  What it is in every case is
  `PdfItems.UsableLengthIsRead`; when it is the dictionary's own is `PdfLength.OwnLengthExactly`; and
  `PdfMisread.PairsAreNeeded` and `PdfMisread.ShortNamesAreNeeded` are sources the walk accepts, whatever
  integer objects they declare, whose stream has not its dictionary's Length.
- A private comparison is meant to be sent once.  It is acknowledged twice exactly when a process dies behind
  an acknowledged send and a retry is acknowledged again (`PrivateDelivery.DeliveredTwiceExactly`, with an
  input in `PrivateDelivery.DeathBehindTheSend`).
- The two rate limiters are meant to decide alike.  They do exactly while the clock is not behind the
  start of the window (`RateLimiter.LimitersAgreeExactly`); behind it only the one in memory starts over.
- The comment above the queue constants speaks of pauses of 1, 2 and 4 seconds; the constant allows for
  2, 4 and 8, as the comment beside it says.  The model follows the constant.
- Storing a version raises no revision although it changes the knowledge tables.  This is harmless,
  and `Knowledge.StoreVersionAccounted` says why: a version without chunks is never seen by a query.

## What the theorems take for granted

- SHA-256 is injective where its values are compared, so a cache fingerprint is the revision and a
  query hash the query; the body digest of a signed request is injective too.
- The database commits atomically, locks rows and gives snapshots as PostgreSQL documents it.  A throw
  behind an applied commit is considered in replacing chunks, committing endpoint states, indexing and
  writing the cache, and not elsewhere.  The row of the global revision exists.
- How well a chunk matches a query, and how far it is from it, are fixed functions of the chunk and the
  query (`Ranker`); the embedding of a query does not change.  Scores are real numbers, without rounding.
- Signed messages have unique request ids and nonces, all times come from one clock, a replay claims its
  row within 30 days less 121 seconds of passing the clock check, and completing an audit row either
  applies or throws without effect.
- In the extractor, timers fire when they are due and continuations run before time passes.
- getUpdates returns an ascending prefix of the updates at or above the offset, and Telegram numbers
  its updates upwards.
- A GitHub 200 carries the ETag of its own content; a 304 comes only to a conditional request and its
  ETag, if it has one, names the same content (section 15.4.5 of RFC 9110).  There is one embedding
  model, and a content has one list of chunk hashes.  The URL of an endpoint is fixed by source and endpoint,
  although re-registering a source could change the registry entry it is built from.
- Each Telegram update belongs to one user, one chat and one question.
- In the private delivery the abort signal does not fire.
- The regular expressions for headings and fences satisfy `Sensible`: a fence line is not blank, and
  the heading cut out of a well-formed line is well-formed.

## Model

| member | source | states |
|---|---|---|
| `Knowledge.KnowledgeRepository.EnsureSource` | packages/cardano-agent/src/knowledge/knowledgeRepository.ts:415-439 | inserts or rewrites a source only when its owner, tier or registry differs, keeping its fetch state, and raises the revision exactly then |
| `Knowledge.EnsureSourceAccounted` | packages/cardano-agent/src/knowledge/knowledgeRepository.ts:415-439 | registering a source keeps the tables' keys valid and either raises the revision by one or leaves all that retrieval can see unchanged |
| `Knowledge.KnowledgeRepository.StoreVersion` | packages/cardano-agent/src/knowledge/knowledgeRepository.ts:626-681 | returns the id of the one row with this source, URL and hash, inserting it when there is none; an unknown source throws and changes nothing |
| `Knowledge.StoreVersionAccounted` | packages/cardano-agent/src/knowledge/knowledgeRepository.ts:626-681 | storing a version, which raises no revision, changes nothing retrieval can see, because a version without chunks is invisible |
| `Knowledge.KnowledgeRepository.HasCompleteChunks` | packages/cardano-agent/src/knowledge/knowledgeRepository.ts:683-721 | true exactly when the version's rows of the model are numbered from zero without gap and carry the expected hashes, no more and no fewer |
| `Knowledge.KnowledgeRepository.ReplaceChunks` | packages/cardano-agent/src/knowledge/knowledgeRepository.ts:723-786 | deletes and reinserts row by row; all rows are replaced and the revision is one higher exactly for a known version, valid chunks and no failure up to the commit, and otherwise nothing has changed; it returns exactly when, besides, no deadline strikes behind the commit |
| `Knowledge.ReplaceChunksAccounted` | packages/cardano-agent/src/knowledge/knowledgeRepository.ts:723-786 | replacing chunks keeps foreign and unique keys and raises the revision by one |
| `Knowledge.KnowledgeRepository.CompareAndSetGithubEndpointStates` | packages/cardano-agent/src/knowledge/knowledgeRepository.ts:549-624 | update by update inside one transaction: all of them are applied exactly when every state is the expected one and nothing fails up to the commit, and otherwise none; true and false say which, and a throw behind the commit does not take it back |
| `Knowledge.CompareAndSetIsAllOrNothing` | packages/cardano-agent/src/knowledge/knowledgeRepository.ts:549-624 | the batch succeeds if and only if every target is in its expected state; then every target has its next state and every other endpoint, version and chunk is as before |
| `Knowledge.StateAfterAccounted` | packages/cardano-agent/src/knowledge/knowledgeRepository.ts:549-624 | committing endpoint states leaves the revision and all that retrieval can see unchanged |
| `Retrieval.Query` | packages/cardano-agent/src/knowledge/retrieveEvidence.ts:229-266 | at most ten rows, each once, each an eligible row of the tables with only its score set by the ranking |
| `Retrieval.ListedAreTheFirst` | packages/cardano-agent/src/knowledge/retrieveEvidence.ts:242-252 | each of the two fused lists has at most forty chunks, and whoever precedes a listed chunk is listed |
| `Retrieval.QueryIsTheBest` | packages/cardano-agent/src/knowledge/retrieveEvidence.ts:257-266 | the rows are ten or all candidates there are, with their fused scores; they come by descending score, and by ascending id where scores are equal; and no candidate left out precedes one of them |
| `Retrieval.HydrateInvertsQuery` | packages/cardano-agent/src/knowledge/retrieveEvidence.ts:268-315 | hydrating the ids and scores of a query on the same tables gives the very evidence of the query, in order and with its scores, and refuses exactly when some row is volatile |
| `Retrieval.QueryReadsTheView` | packages/cardano-agent/src/knowledge/retrieveEvidence.ts:229-266 | two databases that agree on registrations, chunks and the versions that have chunks answer every query alike |
| `RetrievalCache.CacheTable.ReadOnClient` | packages/cardano-agent/src/knowledge/retrievalCache.ts:73-101 | a lookup is absent, stale with the observed fingerprint, or the parsed entry, by fingerprint, expiry and shape in that order |
| `RetrievalCache.CacheTable.Write` | packages/cardano-agent/src/knowledge/retrievalCache.ts:103-138 | stores the entry exactly when the fingerprint is still current, and else changes nothing |
| `RetrievalCache.CacheTable.DeleteStale` | packages/cardano-agent/src/knowledge/retrievalCache.ts:140-156 | removes the row of the key only if it still has the observed fingerprint |
| `RetrievalCache.CacheHitEqualsQuery` | packages/cardano-agent/src/knowledge/retrieveEvidence.ts:105-124 | over every interleaving of readers, cache writers and indexers, a reader served from the cache gets exactly the evidence the uncached query gives on the tables of its own snapshot |
| `RetrievalCache.EveryAnswerIsSomeCommittedAnswer` | packages/cardano-agent/src/knowledge/retrieveEvidence.ts:90-152 | every answer, cached or not, is the uncached answer on one committed view, no older than the view the reader looked its entry up at and no newer than the present |
| `RetrievalCache.ForgetSparesCurrentEntries` | packages/cardano-agent/src/knowledge/retrievalCache.ts:140-156 | deleting a stale entry never removes an entry at the current revision, nor one of another key |
| `RetrievalCache.RevisionsOnlyGrow` | packages/cardano-agent/src/knowledge/knowledgeRepository.ts:415-439 | no step lowers the revision, every visible change raises it, and the view recorded for a past revision is never rewritten |
| `QueueAdmission.NeverDeadlocked` | apps/telegram-bot/src/privateComparisonQueue.ts:131-191 | in every reachable state of any number of concurrent transactions, some unfinished one is not waiting for a row |
| `QueueAdmission.HolderIsAhead` | apps/telegram-bot/src/privateComparisonQueue.ts:131-191 | whoever holds the row a transaction waits for is strictly further along the fixed lock order |
| `QueueAdmission.EveryoneCanFinish` | apps/telegram-bot/src/privateComparisonQueue.ts:126-191 | from every reachable state there is a run, with no failure, to a state in which all transactions are done, within nine statements each |
| `QueueAdmission.OneJobPerUpdate` | apps/telegram-bot/src/privateComparisonQueue.ts:126-191 | each update id has at most one queued job; a call ends with true if and only if its job is there, with its input, and its update is recorded as received |
| `QueueAdmission.WindowsAreTheReplayOfTheJobs` | apps/telegram-bot/src/privateComparisonQueue.ts:493-549 | each user and chat row is exactly what charging the queued jobs of that subject in commit order gives, each charge having been allowed, and its count lies between 0 and 10 |
| `QueueAdmission.AllowedStaysValid` | apps/telegram-bot/src/privateComparisonQueue.ts:532-540 | charging only when allowed keeps a window's count within the limit |
| `QueueAdmission.StoredRowsAreNeverInvalid` | apps/telegram-bot/src/privateComparisonQueue.ts:508-530 | the check for an invalid stored row never fires in a reachable state |
| `QueueAdmission.OutcomeDecidesTheEffect` | apps/telegram-bot/src/privateComparisonQueue.ts:126-191 | true: the job, the claim and one charge on each of two different rows commit together and nothing else changes; a refusal records the update as failed and charges nobody; a duplicate or a throw changes nothing |
| `QueueAdmission.LockingOpensBothWindows` | apps/telegram-bot/src/privateComparisonQueue.ts:507-530 | locking both rows one after the other inserts just the missing ones and reads the rows the transaction holds |
| `QueueAdmission.CallsAreTheMachines` | apps/telegram-bot/src/privateComparisonQueue.ts:126-191 | run by the state machine with nobody else about, the transaction of a call ends with the database and the outcome the method below is proved to give |
| `QueueAdmission.FinishedIsARun` | apps/telegram-bot/src/privateComparisonQueue.ts:126-191 | those statements are a run of the system, each enabled in turn |
| `QueueAdmission.AdmissionConnection.LockAdmissionState` | apps/telegram-bot/src/privateComparisonQueue.ts:507-530 | opens the row when it is missing and returns it as stored |
| `QueueAdmission.AdmissionConnection.AdmitUpdate` | apps/telegram-bot/src/privateComparisonQueue.ts:493-506 | throws on an invalid row, refuses without charging when either row is full, and else charges both |
| `QueueAdmission.AdmissionConnection.EnqueuePgBossJob` | apps/telegram-bot/src/privateComparisonQueue.ts:126-191 | the whole call: duplicate, invalid row, refusal, failed or id-less send, or success, each with its exact effect on updates, rows and jobs |
| `Promotion.PromotionAuditRepository.Claim` | packages/cardano-agent/src/knowledge/promotionAudit.ts:130-166 | grants a claim when no row has the request id or the nonce; reports running or the recorded outcome for the row with both; and a conflict otherwise |
| `Promotion.PromotionAuditRepository.Complete` | packages/cardano-agent/src/knowledge/promotionAudit.ts:168-187 | records an outcome exactly for a row that is still started, and throws without effect otherwise |
| `Promotion.PromotionAuditRepository.Prune` | packages/cardano-agent/src/knowledge/promotionAudit.ts:189-203 | removes at most 1000 expired rows and the oldest of them first, and no other row |
| `Promotion.ClaimedOnce` | packages/cardano-agent/src/knowledge/promotionAudit.ts:130-166 | a message that was claimed once and passes the clock check again still finds its row: rows outlive the signature window |
| `Promotion.PromotesAtMostOnce` | apps/telegram-bot/src/knowledgePromotionServer.ts:82-170 | over whole runs with prunes, crashes and replays, those to a restarted process included, no message makes `promote` run twice, and at most one handler is inside the promotion at a time |
| `Promotion.AnswersAgree` | apps/telegram-bot/src/knowledgePromotionServer.ts:113-211 | owner and replays report the status of the one recorded outcome; a refused replay gets 409; a 204 is sent only for a message `promote` was called for |
| `Promotion.ReplayGetsTheRecordedStatus` | apps/telegram-bot/src/knowledgePromotionServer.ts:104-121 | the first claim owns the request; every later one gets the recorded status, or 409 while there is none |
| `Promotion.OutcomesAreFinal` | packages/cardano-agent/src/knowledge/promotionAudit.ts:168-187 | a recorded outcome never changes, even when its row is pruned |
| `Promotion.CrashCutsShort` | apps/telegram-bot/src/knowledgePromotionServer.ts:113-170 | a crash leaves every claimed message without an outcome cut short: no handler is left that could record one |
| `Promotion.CutShortForGood` | packages/cardano-agent/src/knowledge/promotionAudit.ts:130-187 | a message cut short stays so in every later step: it is not promoted again, gets no outcome, and each replay of it, by a restarted process too, is refused with 409 |
| `ExtractorSlot.WorkerRun.FinishWith` | packages/cardano-agent/src/privateComparison/privateDocumentServer.ts:235-306 | the first ending wins: it stops the timer, calls `terminate` once and either settles at once, when that throws, or arms the grace timer |
| `ExtractorSlot.WorkerRun.SettleOnce` | packages/cardano-agent/src/privateComparison/privateDocumentServer.ts:260-286 | the first settlement decides the reply and whether the slot is poisoned, and later ones change nothing |
| `ExtractorSlot.ReadRequestBody` | packages/cardano-agent/src/privateComparison/privateDocumentServer.ts:391-434 | the body is accepted exactly when its pieces add up to the announced length, and is then their concatenation |
| `ExtractorSlot.AvailableMeansNoWorker` | packages/cardano-agent/src/privateComparison/privateDocumentServer.ts:133-182 | while the slot is available no worker thread of any request is alive |
| `ExtractorSlot.OneHolderForABoundedTime` | packages/cardano-agent/src/privateComparison/privateDocumentServer.ts:133-182 | the slot is busy exactly while one request holds it, and for at most that request's timeout plus 250 ms of model time |
| `ExtractorSlot.SettlesOnce` | packages/cardano-agent/src/privateComparison/privateDocumentServer.ts:226-342 | whatever races, `terminate` is called and the promise settled at most once, and exactly once by the time the request has left, with the reply its ending calls for |
| `ExtractorSlot.PoisonedExactly` | packages/cardano-agent/src/privateComparison/privateDocumentServer.ts:226-310 | the slot is poisoned if and only if some run's termination threw, failed or timed out |
| `ExtractorSlot.PoisonedIsNeverLeft` | packages/cardano-agent/src/privateComparison/privateDocumentServer.ts:133-182 | a poisoned slot stays poisoned, and every request that arrives then is turned away with 503 |
| `ExtractorSlot.SuccessIsEarned` | packages/cardano-agent/src/privateComparison/privateDocumentServer.ts:154-182 | 200 is answered only for a worker's result after its thread is known to be gone |
| `ExtractorSlot.TimeOrAnEvent` | packages/cardano-agent/src/privateComparison/privateDocumentServer.ts:226-342 | the time bound is not bought by stopping the clock: a millisecond may pass, or an event is due that waits for nobody |
| `ExtractorSlot.EventsAreBounded` | packages/cardano-agent/src/privateComparison/privateDocumentServer.ts:226-342 | each request sees at most 21 events in any run |
| `SplitText.SafeCut` | packages/cardano-agent/src/knowledge/chunkDocument.ts:208-212 | the cut lies strictly inside the text, within one unit of the requested place |
| `SplitText.SafeCutIsSafe` | packages/cardano-agent/src/knowledge/chunkDocument.ts:208-212 | in well-formed text it never falls inside a surrogate pair |
| `SplitText.SuffixSafe` | packages/cardano-agent/src/knowledge/chunkDocument.ts:214-218 | a suffix of at most the wanted length |
| `SplitText.SuffixSafeIsSafe` | packages/cardano-agent/src/knowledge/chunkDocument.ts:214-218 | a suffix of well-formed text taken so is well-formed |
| `SplitText.TruncateSafe` | packages/cardano-agent/src/knowledge/chunkDocument.ts:202-206 | a prefix of at most the wanted length |
| `SplitText.TruncateSafeIsSafe` | packages/cardano-agent/src/knowledge/chunkDocument.ts:202-206 | a prefix of well-formed text taken so is well-formed |
| `SplitText.ProseCut` | packages/cardano-agent/src/knowledge/chunkDocument.ts:171-175 | the last space or newline up to the target, or the target itself when there is none in the second half |
| `SplitText.SplitProse` | packages/cardano-agent/src/knowledge/chunkDocument.ts:155-169 | the loop, overlap put back in front included, terminates and yields the pieces of the fragments |
| `SplitText.ProseKeepsText` | packages/cardano-agent/src/knowledge/chunkDocument.ts:155-169 | dropping the overlaps, every non-blank unit survives once and in order |
| `SplitText.ProseEchoes` | packages/cardano-agent/src/knowledge/chunkDocument.ts:155-169 | what a fragment repeats is the end of the one before, at most 150 units |
| `SplitText.ProseFragmentsAreSound` | packages/cardano-agent/src/knowledge/chunkDocument.ts:155-169 | both of these for a whole text, short or long |
| `SplitText.ProseIsGood` | packages/cardano-agent/src/knowledge/chunkDocument.ts:155-169 | every fragment is non-blank, has 1 to 1200 units, and cuts no surrogate pair of well-formed text |
| `SplitText.ProseFragmentsAreGood` | packages/cardano-agent/src/knowledge/chunkDocument.ts:155-169 | the same for a whole non-blank text, of which there is at least one fragment |
| `SplitText.SplitCode` | packages/cardano-agent/src/knowledge/chunkDocument.ts:177-190 | the loop terminates and yields the code pieces |
| `SplitText.CodeCutIsSafe` | packages/cardano-agent/src/knowledge/chunkDocument.ts:177-190 | code too is never cut inside a surrogate pair |
| `SplitText.CodeIsGood` | packages/cardano-agent/src/knowledge/chunkDocument.ts:177-190 | every code piece is non-blank and has 1 to 1200 units, and is well-formed when the code is |
| `SplitText.CodeKeepsText` | packages/cardano-agent/src/knowledge/chunkDocument.ts:177-190 | the code pieces hold every non-blank unit once and in order |
| `ChunkDocument.HeadingSplits` | packages/cardano-agent/src/knowledge/chunkDocument.ts:192-200 | what bounding a heading cuts off is exactly its overflow: no non-blank unit is lost |
| `ChunkDocument.ParseBlocks` | packages/cardano-agent/src/knowledge/chunkDocument.ts:84-137 | the loop over the lines yields the blocks of the recursive reading |
| `ChunkDocument.BlocksKeepLines` | packages/cardano-agent/src/knowledge/chunkDocument.ts:84-137 | the blocks hold every non-blank unit of every line once and in order, under its heading and as code or prose |
| `ChunkDocument.BlocksAreGood` | packages/cardano-agent/src/knowledge/chunkDocument.ts:84-137 | blocks hold text, and well-formed text when the lines do |
| `DocumentChunks.Chunker.PushChunk` | packages/cardano-agent/src/knowledge/chunkDocument.ts:29-37 | a chunk is appended exactly when neither the count nor the size limit is passed |
| `DocumentChunks.Chunker.FlushProse` | packages/cardano-agent/src/knowledge/chunkDocument.ts:38-42 | the open prose chunk is closed exactly when the limits allow it |
| `DocumentChunks.Chunker.AppendProse` | packages/cardano-agent/src/knowledge/chunkDocument.ts:43-53 | joins the pieces to the open chunk of the same heading while they fit, and else starts a new one |
| `DocumentChunks.Chunker.AddBlockChunks` | packages/cardano-agent/src/knowledge/chunkDocument.ts:55-64 | one turn of the loop over the blocks, prose and code |
| `DocumentChunks.CutDocument` | packages/cardano-agent/src/knowledge/chunkDocument.ts:21-82 | the whole function, refusals included |
| `DocumentChunks.ChunksAreBounded` | packages/cardano-agent/src/knowledge/chunkDocument.ts:21-82 | headings have 1 to 200 units, contents 1 to 1200, neither cuts a surrogate pair of well-formed text, and code chunks repeat nothing |
| `DocumentChunks.ChunksKeepTheDocument` | packages/cardano-agent/src/knowledge/chunkDocument.ts:21-82 | dropping the overlaps, the chunks hold every non-blank unit of every line that is not a heading's label, once, in document order, under its heading and of its kind; every overlap repeats the end of the fragment before |
| `DocumentChunks.DocumentsAreChunkedWhole` | packages/cardano-agent/src/knowledge/chunkDocument.ts:21-82 | a document is refused exactly when it is blank or over a limit; else its chunks are all the assembled ones, each within its bounds |
| `DocumentChunks.NothingIsFiltered` | packages/cardano-agent/src/knowledge/chunkDocument.ts:66-82 | the final filter for blank chunks never drops one |
| `PdfTokens.SkipPdfComment` | packages/cardano-agent/src/privateComparison/privateDocumentWorker.ts:674-677 | stops at the first line end |
| `PdfTokens.SkipPdfLiteralString` | packages/cardano-agent/src/privateComparison/privateDocumentWorker.ts:679-693 | the loop that counts parentheses, escapes skipped |
| `PdfTokens.CountingIsNesting` | packages/cardano-agent/src/privateComparison/privateDocumentWorker.ts:679-693 | the counter stops behind the parenthesis that closes the string in the recursive grammar of section 7.3.4.2 of ISO 32000-1, or runs off the source when none does |
| `PdfTokens.SkipPdfHexString` | packages/cardano-agent/src/privateComparison/privateDocumentWorker.ts:695-699 | stops behind the first '>' or at the end |
| `PdfTokens.DecodePdfName` | packages/cardano-agent/src/privateComparison/privateDocumentWorker.ts:706-717 | the loop decodes #xx escapes, and only complete ones |
| `PdfTokens.RawAtMostThrice` | packages/cardano-agent/src/privateComparison/privateDocumentWorker.ts:706-717 | a name's raw length is at most three times its decoded length |
| `PdfTokens.TokensAreLeaves` | packages/cardano-agent/src/privateComparison/privateDocumentWorker.ts:536-623 | what a turn of the loop skips is exactly a token as sections 7.2 and 7.3 of ISO 32000-1 define it |
| `PdfTokens.StrayExactly` | packages/cardano-agent/src/privateComparison/privateDocumentWorker.ts:536-659 | there is no token at an offset exactly at a bare ')' or a lone '>' |
| `PdfWalk.PdfNameTokens` | packages/cardano-agent/src/privateComparison/privateDocumentWorker.ts:479-662 | the loop with its container stack, proved to reach the verdict of the specification |
| `PdfWalk.PassAdvances` | packages/cardano-agent/src/privateComparison/privateDocumentWorker.ts:536-659 | every turn moves the index on and keeps it inside, except at a bare ')' or a lone '>', where it stands still |
| `PdfWalk.WalkIsTheTurns` | packages/cardano-agent/src/privateComparison/privateDocumentWorker.ts:536-662 | the loop's turns run forever, return false or return true as the specification's verdict says |
| `PdfSafety.LoopsForeverExactly` | packages/cardano-agent/src/privateComparison/privateDocumentWorker.ts:536-662 | the loop runs forever if and only if the source reads, open bracket by open bracket, up to a bare ')' or a lone '>'; it returns false if and only if the source is readable, and true on every other |
| `PdfSafety.DivergesExactly` | packages/cardano-agent/src/privateComparison/privateDocumentWorker.ts:616-658 | the same of the verdict: the walk comes to such a place exactly when what stands before it reads as a forest and as members of the brackets left open |
| `PdfSafety.BareParenthesisDiverges` | packages/cardano-agent/src/privateComparison/privateDocumentWorker.ts:616-658 | the source consisting of one ')' is such an input |
| `PdfItems.RecordSaysTheItems` | packages/cardano-agent/src/privateComparison/privateDocumentWorker.ts:502-522 | whatever the members of a dictionary are, the record the walk keeps of them agrees in every field with what the list of their items says: the waiting key, an open reference, whether all is in order, the Length |
| `PdfItems.UsableLengthIsRead` | packages/cardano-agent/src/privateComparison/privateDocumentWorker.ts:502-522 | in particular the walk uses the Length of the items, and none exactly when the items have none |
| `PdfSafety.SafeExactlyWhenReadable` | packages/cardano-agent/src/privateComparison/privateDocumentWorker.ts:479-662 | the walk returns false if and only if the source reads as a forest in which all arrays and dictionaries close in order with no key or reference left open, every skipped stream body has exactly the Length its dictionary's items give and ends at `endstream`, and no refused name stands anywhere outside comments, strings and stream bodies |
| `PdfForest.SafeIsReadable` | packages/cardano-agent/src/privateComparison/privateDocumentWorker.ts:479-662 | from any point of the walk, a false answer leaves a forest that covers the source |
| `PdfForest.FollowKids` | packages/cardano-agent/src/privateComparison/privateDocumentWorker.ts:536-659 | the walk passes over any well-placed members and comes out behind them with the dictionary they amount to |
| `PdfSafety.NoActiveNameOccurs` | packages/cardano-agent/src/privateComparison/privateDocumentWorker.ts:523-534 | no name anywhere in an accepted source, however deep, escaped or long, decodes to one that is always refused |
| `PdfLength.WalkReadsTheShownLength` | packages/cardano-agent/src/privateComparison/privateDocumentWorker.ts:502-522 | where the members without the over-long names are a list of pairs, the Length the walk uses is the single Length among them, direct or resolved; it uses none when there is no single one or some value is a plain word |
| `PdfLength.OwnLengthExactly` | packages/cardano-agent/src/privateComparison/privateDocumentWorker.ts:502-522 | so, where the shown members are a list of pairs, the walk uses the dictionary's own Length if and only if the members give the same Length with and without the over-long names; and with no over-long name, a Length it uses is the dictionary's own if and only if the members are a list of pairs |
| `PdfLength.StreamsHaveTheShownLength` | packages/cardano-agent/src/privateComparison/privateDocumentWorker.ts:624-641 | every stream body of an accepted source has the Length of what a dictionary before it shows, and that dictionary's own Length exactly when the two are the same; if no name is over-long, exactly when the members are a list of pairs |
| `PdfMisread.PairsAreNeeded` | packages/cardano-agent/src/privateComparison/privateDocumentWorker.ts:502-522 | the walk accepts `<</Length 1()>>` with a stream of one byte, whatever integer objects there are, although the members are no list of pairs and have no Length |
| `PdfMisread.LongNamesMislead` | packages/cardano-agent/src/privateComparison/privateDocumentWorker.ts:596-600 | the walk also accepts, for any over-long name, a dictionary whose `/Length` is the value of that name and which has no Length |
| `PdfMisread.ShortNamesAreNeeded` | packages/cardano-agent/src/privateComparison/privateDocumentWorker.ts:596-600 | and such names exist |
| `Polling.DeliverMessage` | apps/telegram-bot/src/pollingRuntime.ts:330-361 | at most three attempts, each but the last one worth retrying; delivered exactly when the last was sent; given up only on a permanent status or after three |
| `Polling.PollingLoop.Advance` | apps/telegram-bot/src/pollingRuntime.ts:240-270 | the offset becomes the larger of itself and the update's successor and is saved, or saving throws with the offset moved in memory |
| `Polling.PollingLoop.HandleDocument` | apps/telegram-bot/src/pollingRuntime.ts:153-219 | the branch for documents: retained approval, rate limit, enqueue, retry and offset, each outcome with its exact effect and whether the limiter was asked |
| `Polling.SavedMeansDone` | apps/telegram-bot/src/pollingRuntime.ts:113-299 | over every run with failures, crashes and restarts each update below the saved offset has been skipped, limited, admitted, rejected, delivered or abandoned |
| `Polling.OffsetsOnlyGrow` | apps/telegram-bot/src/pollingRuntime.ts:113-299 | the saved offset never goes back, and the one in memory never within a process |
| `Polling.PrivateUpdatesAreChargedOnce` | apps/telegram-bot/src/pollingRuntime.ts:153-219 | within one process a private update is charged to the rate limiter at most once, however often its enqueue fails |
| `Conversations.ConversationRepository.Append` | packages/cardano-agent/src/conversations.ts:42-148 | reserves, inserts and links in one transaction; a repeated append stores nothing and returns the first interaction of the original; it succeeds exactly for a text that is no secret and when no statement fails, and a failure leaves only a used-up id |
| `Conversations.ConversationRepository.FindForUpdate` | packages/cardano-agent/src/conversations.ts:150-226 | the linked message of the update and role, of this user and chat, if there is one |
| `Conversations.OneMessagePerUpdateAndRole` | packages/cardano-agent/src/conversations.ts:42-148 | every stored message belongs to exactly one update and role, and is linked by its reservation |
| `Conversations.ExactlyOneFirstInteraction` | packages/cardano-agent/src/conversations.ts:42-148 | each known user has exactly one user-role update marked as first interaction, and no answer is |
| `Conversations.RetriesSeeTheOriginal` | apps/telegram-bot/src/agentWorker.ts:61-107 | no step changes a reservation, and every attempt works with the mark its update got originally |
| `Conversations.StoredAnswersAreFinal` | packages/cardano-agent/src/agent/answerQuestion.ts:505-573 | an attempt that begins once an answer is stored neither retrieves, completes nor stores again, and what it gets ready is the stored answer |
| `GithubEtags.ClampDate` | packages/cardano-agent/src/knowledge/githubSource.ts:237-242 | a date within a day of now, unchanged when it lay there |
| `GithubEtags.DeferUntil` | packages/cardano-agent/src/knowledge/githubSource.ts:244-257 | a deferral lasts until the later of the dates GitHub gave, clamped to a day, and a full day when it gave none |
| `GithubEtags.StoredEtagsNameIndexedVersions` | packages/cardano-agent/src/knowledge/githubSource.ts:89-174 | in every reachable state a stored ETag names a version all of whose chunks are stored |
| `GithubEtags.NotModifiedSkipsNothing` | packages/cardano-agent/src/knowledge/githubSource.ts:132-142 | when a fetcher takes a 304, the version its ETag names is completely indexed at that moment |
| `GithubEtags.OnlyWinnersChangeStates` | packages/cardano-agent/src/knowledge/githubSource.ts:244-296 | no endpoint state changes but by a compare-and-set that wins: a commit then had every state it expected and writes exactly its next states, a deferral exactly the deferred state of its endpoint; a stop, a crash, indexing and a lost compare-and-set leave every state of every endpoint as it was, and one is lost only when some state was not the expected one |
| `GithubEtags.IndexDocument` | packages/cardano-agent/src/knowledge/indexDocument.ts:34-87 | wherever the deadline or a failure strikes: the document is completely indexed afterwards exactly when it was before or its source is known and the writing commits; the call succeeds exactly when, besides, nothing strikes behind that; versions and complete chunk sets of others survive, and no endpoint state changes |
| `GithubEtags.IndexCrawlResult` | packages/cardano-agent/src/knowledge/indexDocument.ts:89-119 | the endpoint states are committed all together, after every document is indexed; a throw leaves them all as they were, unless it strikes behind the commit; when every document can be indexed and nothing interrupts the commit, it succeeds exactly if every state is the expected one |
| `EmbeddingBatches.ValidateInput` | packages/cardano-agent/src/llm/embeddingClient.ts:124-130 | accepts exactly a non-empty list of non-blank inputs of at most 100,000 units |
| `EmbeddingBatches.Embed` | packages/cardano-agent/src/llm/embeddingClient.ts:48-74 | the batches divide the input, each of 1 to 64 items and at most 100,000 units, each full; output i is what the request that held input i answered for it; it throws only on invalid input or a refused batch |
| `EmbeddingBatches.FullIsShortest` | packages/cardano-agent/src/llm/embeddingClient.ts:48-74 | from any start, no division of the rest into batches within the limits is shorter than one into full batches |
| `EmbeddingBatches.EmbedUsesFewestRequests` | packages/cardano-agent/src/llm/embeddingClient.ts:48-74 | no division of the input into batches within the limits has fewer batches than the ones sent |
| `EmbeddingBatches.DivisionsJoin` | packages/cardano-agent/src/llm/embeddingClient.ts:48-74 | the batches joined are the input |
| `SecretScan.Inspection.InspectJson` | packages/cardano-agent/src/security/walletSecrets.ts:102-138 | exhausted exactly when the tree has over 256 nodes or a value deeper than 8; otherwise all nodes are counted and both flags are exact |
| `SecretScan.InspectParsed` | packages/cardano-agent/src/security/walletSecrets.ts:152-160 | a parsed candidate is clean exactly when it is within the budget and lacks one of the two tell-tale fields |
| `SecretScan.PhraseScan.ValidateWindow` | packages/cardano-agent/src/security/walletSecrets.ts:219-223 | a find when the budget of 64 is spent or the window is valid; one more validation otherwise |
| `SecretScan.PhraseScan.InspectRun` | packages/cardano-agent/src/security/walletSecrets.ts:230-240 | checks every window of 12, 15, 18, 21 and 24 tokens of a run once; a run of over 24 tokens is a find |
| `SecretScan.HasValidRecoveryPhrase` | packages/cardano-agent/src/security/walletSecrets.ts:215-253 | false if and only if no run exceeds 24 tokens, all windows together number at most 64, and no window of the five lengths lying in one list is valid |
| `SecretScan.CountUnicodeCodePoints` | packages/cardano-agent/src/privateComparison/privateDocumentProtocol.ts:115-130 | the number of code points if the text is well-formed and has at most the maximum, and nothing otherwise |
| `SecretScan.HasWalletSecret` | packages/cardano-agent/src/privateComparison/privateDocumentProtocol.ts:132-148 | a long text holds a secret exactly when one of its windows does, or when the two fields occur in windows joined to the end of the one before |
| `SecretScan.StretchesLieInWindows` | packages/cardano-agent/src/privateComparison/privateDocumentProtocol.ts:132-148 | every stretch of up to 16,385 units lies whole inside one window that is scanned |
| `RateLimiter.FixedWindowRateLimiter.Allow` | apps/telegram-bot/src/accessControl.ts:14-26 | the decision and new window of the chat, with no other chat's window touched |
| `RateLimiter.ChatsAreIndependent` | apps/telegram-bot/src/accessControl.ts:14-26 | each chat's window is what its own calls alone would give |
| `RateLimiter.AtMostTwiceTheLimit` | apps/telegram-bot/src/accessControl.ts:14-26 | with a clock that does not run backwards, an interval of one window's length holds at most twice the limit of a chat's allowed calls |
| `RateLimiter.LimitersAgreeExactly` | apps/telegram-bot/src/privateComparisonQueue.ts:532-540 | the in-memory and the database limiter decide alike and leave the same window if and only if the clock has not fallen behind the window's start |
| `RateLimiter.ClockBehindTheWindow` | apps/telegram-bot/src/privateComparisonQueue.ts:532-540 | an input on which they differ: a full window and a clock that has fallen behind it |
| `Encodings.DecodesBack` | packages/cardano-agent/src/conversations.ts:19-34 | the length-prefixed concatenation has a left inverse |
| `Encodings.ConversationAadIsInjective` | packages/cardano-agent/src/conversations.ts:19-34 | equal associated data means equal user, chat, role, id and time |
| `Encodings.JoiningIsInjective` | apps/telegram-bot/src/knowledgePromotionProtocol.ts:225-242 | equally many newline-free fields are told apart by their newline-joined text |
| `Encodings.CanonicalSignatureIsInjective` | apps/telegram-bot/src/knowledgePromotionProtocol.ts:225-242 | equal signed text means equal key id, request id, timestamp, nonce and body, for fields without newlines and an injective digest |
| `PrivateDelivery.Attempt.Process` | apps/telegram-bot/src/privateComparisonRuntime.ts:106-251 | the whole attempt: its acknowledged sends and the statuses it writes, in order, and how it ends, on every path without an abort and wherever its process dies |
| `PrivateDelivery.OneAttempt` | apps/telegram-bot/src/privateComparisonRuntime.ts:106-251 | an attempt has at most one acknowledged send; `processed` is written only then, and if the process lives exactly then; the queue then does not retry unless the process died |
| `PrivateDelivery.DeliveredTwiceExactly` | apps/telegram-bot/src/main.ts:356-397 | over all attempts a second send is acknowledged if and only if the process of an attempt dies behind its acknowledgement and a later attempt is acknowledged again |
| `PrivateDelivery.DeathBehindTheSend` | apps/telegram-bot/src/main.ts:356-397 | an input on which that happens |
| `PrivateDelivery.DeliveredAtMostOnce` | apps/telegram-bot/src/main.ts:356-397 | while no process dies behind an acknowledgement, at most one send is acknowledged over all attempts, no attempt follows it, and only its attempt writes `processed` |
| `PrivateDelivery.LifetimeCoversEveryRetry` | apps/telegram-bot/src/privateComparisonQueue.ts:18-24 | for every retry limit the lifetime is the retention plus all attempt times plus the doubling pauses |
| `PrivateDelivery.ShippedLifetime` | apps/telegram-bot/src/privateComparisonQueue.ts:11-24 | with the shipped constants it is 1514 seconds |

## Left out

- HTTP, Telegram, language models, search and chain APIs: only their results appear, as events or parameters.
- HMAC, AES-GCM, SHA-256 and BIP-39 checksums: injective functions or parameters.
- Text search and vector distance inside the retrieval query; their values per chunk are parameters.
- The path of `ensureSource` for databases without `connect`, and the Stack Exchange fetch states.
- A stored endpoint state that is JSON null and one that is absent are one and the same here, as they are to every statement that reads them.
- Topic and network filters are sets here; their validation and canonical order, and the validation of requests and of stored versions, are not modelled.
- `ensureSource`, `storeVersion` and the single retrieval statements are interrupted as a whole; only the multi-statement transactions roll back half-way.
- `collectPdfIntegerObjects`: a regular expression over the file; the map it yields, or its refusal, is a parameter of the PDF walk.
- The rest of the extractor worker: pdf.js, mammoth, yauzl, text normalization and page limits.
- Line-ending and Unicode normalization before chunking, the three line expressions (`Marks`), chunk hashes and ids.
- Parsing JSON text and finding JSON objects in prose (`objectCandidateAt`); the wallet expressions, tokenizing and word lists are parameters of the scans.
- Conversation rows of the old format without a linked message, decryption failures, `recent`, and rewriting of an answer's text by `withNotice`.
- The branch of the polling loop for questions appears in the state machine and in `Polling.DeliverMessage` and `Polling.PollingLoop.Advance`, not as a method of its own.
- Polling.PollingLoop.HandleDocument: takes what the rate limiter and the queue answer as parameters.
- Promotion.PromotionAuditRepository.Prune: rows equally old are ordered by request id in the source; here either may go first.
- Promotion: reading the body and the headers of a promotion request, and verifying its signature; a request reaches the model once it is authentic.
- Promotion: the clock check uses whole seconds of the server's clock, as the source does, but not the format checks before it.
- GithubEtags.DeferUntil: parsing of the headers' dates is not modelled.
- PrivateDelivery.DeliveredAtMostOnce: a send whose acknowledgement is lost, or during which the process dies, may have reached the user all the same; only acknowledged sends are counted.
- PrivateDelivery.Attempt.Process: the work before the send is one event, its failure phase included.
- Encodings.ConversationAadIsInjective: texts with lone surrogates, which UTF-8 encoding replaces, are shut out by the injective `utf8`.
- ExtractorSlot.ReadRequestBody: the abort that ends the reading is an event of the state machine, not of the method.
- RateLimiter.AtMostTwiceTheLimit: stated for a clock that does not run backwards; the limiter promises nothing otherwise.
- Localized messages, prompts, language detection, answer rendering, evaluation, configuration, scripts, role provisioning and governance commands.
