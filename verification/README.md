# ReasonDB: a verified model

ReasonDB turns documents into heading trees, summarises them bottom-up with a language model (LLM), and answers
queries by a beam search over the tree. This project models the parts of it whose behaviour is hard to see from any
one function, and proves what they guarantee over every run.

| files | what they model |
|---|---|
| `SearchModel`, `SearchRuns`, `SearchTheorems`, `SearchSoundness`, `SearchMeaning`, `SearchTour`, `SearchEngine` | one query on one document: branches that interleave at lock sections and share results and counters; and the same traversal run one branch at a time, in place |
| `SummaryFold`, `BatchSummarizer` | bottom-up summaries: the plain recursive fold, and the level-by-level batched run with flushes, failed writes, crashes and resumption |
| `JobModel`, `JobQueue`, `JobRuns`, `JobTheorems`, `JobSafety`, `JobRecords`, `JobAttempts`, `JobDocuments`, `JobWitnesses` | the durable job queue: its methods, and a state machine of any number of workers with crashes, failed record writes, recovery and cleanup |
| `TreeShape`, `HeadingChains`, `TreeBuilder`, `TreeGrep` | the heading stack, the node list it builds, the second builder, and the walk that greps a built tree |
| `AgenticWindows` | overlapping windows over the lines of a document and the merge of what comes back |
| `DaemonRuns`, `DaemonTheorems`, `DaemonHealth`, `DaemonThread` | plugin daemons: callers with time-outs, the pool, daemon threads and processes that may die; and one daemon thread's request loop |
| `ReasonStream` | the client's incremental event-stream reader |
| `Cache` | the least-recently-used cache with expiry, and the query cache |
| `Common` | options, results, `u8`, and what filtering, joining and stable sorting mean |

How the parts are modelled:

- The reasoner, the LLM, keyword matching, JSON parsing, trimming and the plugins are function parameters: one fixed,
  deterministic answer for each input. Confidences are integers, scores are reals.
- Ids from `Uuid::new_v4` are fresh numbers; in a built tree the root is node 0 and chunk `i` is node `i + 1`.
- `u8` arithmetic wraps, as in a release build (`SearchRuns.NextDepth`, `HeadingChains.AsU8`).
- A parallel run is a list of turns or actions; every theorem about runs quantifies over all of them.
- Clocks are parameters, read once per call.

Where the code and its documentation disagree, the model follows the code:

- The doc comment on `claim_next_queued` calls the claim atomic (`crates/reasondb-server/src/jobs.rs:212`). It is two
  transactions: the record is first overwritten with empty bytes, then with the claimed job. A crash in between, or a
  second write that fails, loses the job and its checkpoint for good (`JobSafety.CheckpointIsLostIff`,
  `JobSafety.InterruptedClaimIsFinal`, `JobWitnesses.CheckpointMayBeLost`).
- The comment at `crates/reasondb-core/src/engine.rs:463` speaks of 30 leaves per batch; the code takes 25.
- With `max_depth` 255 the depth guard never fires, because `depth + 1` wraps: on a cycle the search need not end
  (`SearchSoundness.SearchNeedNotEnd`). All other theorems about the search hold for every `max_depth` below 255.
- A resumed run gives the summaries of an uninterrupted one except when the LLM answers an item with an empty summary
  and would answer differently once the parent's summary is known (`SummaryFold.ResumeAgreesIff`,
  `SummaryFold.ResumeMayDiffer`). When writes of the flush have failed, which the code logs and passes over, that holds
  exactly when every reply, not only a blank one, is the same again (`SummaryFold.LostWritesAgreeIff`).
- Only an attempt that did not start from a checkpoint indexes a document (`JobDocuments.OnlyNewAttemptsIndex`). So a
  job may complete without its document ever being indexed (`JobWitnesses.ResumedJobMayStayUnindexed`). The document is
  in the index exactly when the completing attempt did not start from a checkpoint, or an earlier one was cut off, or
  failed to write its status, after it had indexed (`JobDocuments.CompletedIsIndexedIff`).
- The two tree builders agree exactly when, before each unheaded chunk, the last heading of a level below 255 has a
  level below `max_depth`, or there is none (`TreeBuilder.BuildersAgreeIff`). At the default `max_depth` 10 they
  disagree on text below a heading of level 10 (`TreeBuilder.BuildersMayDisagree`).
- Of several data lines of one event, which the event-stream format would join, the client keeps the last
  (`apps/reasondb-client/src-tauri/src/lib.rs:69-70`).

## Model

| member | source | states |
|---|---|---|
| SearchTheorems.EveryScheduleAnswers | crates/reasondb-core/src/engine.rs:188-197 | for every interleaving of branches in which all return: exactly `min(max_results, full)` results, best first, all from the full traversal (the one without the two early exits); if that finds fewer than `max_results`, results and all four counters do not depend on the schedule. What the full traversal finds is said by `SearchTour.EveryScheduleTours` |
| SearchTour.EveryScheduleTours | crates/reasondb-core/src/engine.rs:355-672 | completeness, in terms of the nodes visited: there is a tour, that is the root and then each child that a visit goes on to, once for each time it does, where every visit weighs up its children, judges its leaf or its batch, and counts as the engine promises; the response of any finished run, parallel or not, has as many of the results that the visits find as it may, each at most as often as they find it, best first; with fewer than `max_results` it has them all, and its counters are the sums over the visits |
| SearchTour.RelevantLeafIsFound | crates/reasondb-core/src/engine.rs:676-760 | with fewer than `max_results` results no visited leaf is missing that shares a keyword with the query in its summary or first 500 characters and that the reasoner finds relevant and confident, asked about its text behind the first 300 characters of its summary; its result has its id, content, confidence and path |
| SearchTour.RelevantBatchIsFound | crates/reasondb-core/src/engine.rs:461-502 | the same for leaves judged in one call: the first 25 of the candidates, or of the chosen children, when those are all leaves |
| SearchTour.LoneLeafIsFound | crates/reasondb-core/src/engine.rs:743-757 | on every schedule, a root without children that passes the keyword test and is found relevant and confident is the one result, with its title as the path |
| SearchMeaning.VisitYields | crates/reasondb-core/src/engine.rs:386-624 | what one visit by itself finds, counts and goes on to: the stored children, the keyword filter, the beam of 1, 2 or 4 times the width, the 30 best candidates, the first confident replies that name a child; the events of the traversal amount to that |
| SearchTheorems.EveryScheduleEnds | crates/reasondb-core/src/engine.rs:355-389 | no schedule is longer than the full traversal has lock sections, and none is stuck before all branches have returned, also on cyclic child links |
| SearchTheorems.EveryScheduleIsCheap | crates/reasondb-core/src/engine.rs:428-434 | at every point of every run `llm_calls <= 2 * nodes_visited` and `nodes_visited <= sum of (4 * beam_width)^d` for d from 0 to `max_depth + 1` |
| SearchTheorems.EnoughIsEnough | crates/reasondb-core/src/engine.rs:691-696 | once `results` is full, no run of any length makes another call except those of branches that had already decided on one |
| SearchTheorems.SequentialIsDeterministic | crates/reasondb-core/src/engine.rs:654-667 | with parallel branches off there is never more than one next step, in any state of any run |
| SearchTheorems.AnyBranchMayStart | crates/reasondb-core/src/engine.rs:628-653 | with parallel branches on, any of several chosen children may be visited first |
| SearchTheorems.RunConserves | crates/reasondb-core/src/engine.rs:628-667 | conservation: what a run has done and what its branches still owe are together the full traversal's events, or a part of them once `results` is full |
| SearchTheorems.RespondKeeps | crates/reasondb-core/src/engine.rs:188-208 | the response is `min(max_results, collected)` of the collected results, as a multiset, in falling confidence, and no dropped result has a higher confidence than a kept one |
| SearchRuns.StepAdvances | crates/reasondb-core/src/engine.rs:581-591 | one lock section performs one owed event and leaves the rest owed; only a section that finds `results` full may drop the rest of its branch |
| SearchRuns.FrameAdvances | crates/reasondb-core/src/engine.rs:676-760 | the same for each kind of lock section, against the trace of the full traversal |
| SearchSoundness.EveryResultIsAnAnswer | crates/reasondb-core/src/engine.rs:743-757 | every result of every run is a leaf at the end of a chain of at most `max_depth` child links from the root, with its own content and at least the minimum confidence. Either the reasoner accepted it alone, and its path is the titles along the chain; or it accepted it at its own position in the batch that was asked under its parent, and its path is those titles without its own |
| SearchSoundness.BatchHitsAnswer | crates/reasondb-core/src/engine.rs:768-840 | hits of a batch call are children of the node whose position among the first 25 asked got a yes; their path is the parent's |
| SearchSoundness.EnoughCandidates | crates/reasondb-core/src/engine.rs:446-459 | the keyword filter leaves at least `min(beam, children)` candidates, and is exact when it applies |
| SearchSoundness.CapKeepsBest | crates/reasondb-core/src/engine.rs:504-536 | the cap of 30 drops no candidate that scores higher than one it keeps, and loses none otherwise |
| SearchSoundness.ExploredWasChosen | crates/reasondb-core/src/engine.rs:544-579 | an explored child was chosen by the reasoner with enough confidence, and no more children than the beam are explored |
| SearchSoundness.SearchNeedNotEnd | crates/reasondb-core/src/engine.rs:386-389 | with `max_depth` 255 a node that is its own child has runs of every length |
| SearchEngine.Search | crates/reasondb-core/src/engine.rs:162-209 | the sequential search has a tour as in `EveryScheduleTours` and answers with as many of the results that its visits find as it may, best first, and with all of them and the sums of their counters when it has fewer than `max_results`; a missing root gives an empty response |
| SearchEngine.SearchSession.Traverse | crates/reasondb-core/src/engine.rs:355-672 | run one branch at a time, the traversal performs the full trace in order, or a part of it that filled `results` |
| SearchEngine.SearchSession.VerifyLeaf | crates/reasondb-core/src/engine.rs:676-760 | a full `results` is left alone; otherwise exactly the result of the leaf is pushed if it passes the keyword test and is found relevant and confident, and the one call is counted |
| SearchEngine.SearchSession.BatchVerifyNodes | crates/reasondb-core/src/engine.rs:768-840 | one call about the first 25, none when there are none; pushes a result for each leaf whose own position got a relevant and confident verdict, in order, and nothing else |
| SummaryFold.ResumeAgreesIff | crates/reasondb-ingest/src/pipeline.rs:1002-1067 | resuming from any state that a run can leave in the store gives the uninterrupted run's summaries, exactly when blank replies repeat |
| SummaryFold.FoldSays | crates/reasondb-ingest/src/summarizer.rs:584-604 | what a summary is about: a leaf's own text; for a section one line "- title: summary" for each listed child with a summary, in the order of the list, with single newlines between; the summary is the reply to that, or "Section: title" when there is nothing to say or no reply |
| SummaryFold.FlushedSays | crates/reasondb-ingest/src/summarizer.rs:438-447 | and what the store holds after a run without failures: that summary where the node had none and something to say |
| SummaryFold.LostWritesAgreeIff | crates/reasondb-ingest/src/summarizer.rs:438-447 | the same when any of the writes may have failed, exactly when every reply is the same again once the parent is written |
| SummaryFold.AgreesIffAskedTheSame | crates/reasondb-ingest/src/summarizer.rs:341-350 | store by store: resuming from this store agrees exactly when each node that is asked again is replied the same beside the parent the store holds |
| SummaryFold.ManyCrashesAgree | crates/reasondb-ingest/src/summarizer.rs:438-447 | the same after any number of crashes, each during the resumption of the one before |
| SummaryFold.CrashesCompose | crates/reasondb-ingest/src/summarizer.rs:305-317 | a store left by a crash in a resumed run is one that a single crash could have left |
| SummaryFold.HeldFurther | crates/reasondb-ingest/src/summarizer.rs:438-447 | the same with failed writes: what a resumed run may leave, losing writes or not, a run over the original store could have left |
| SummaryFold.RealRepliesResume | crates/reasondb-ingest/src/summarizer.rs:402-436 | an LLM that never replies with an empty summary meets that condition |
| SummaryFold.ResumeMayDiffer | crates/reasondb-ingest/src/summarizer.rs:341-350 | an LLM and a three-node tree for which the resumed run differs |
| BatchSummarizer.Summarizer.SummarizeBatch | crates/reasondb-ingest/src/summarizer.rs:273-452 | for every batch size, order of replies and failing batch or write: if no batch fails, each node ends with the reply to its own text or to its children's lines (`AllSay`), which is the fold; the store too if no write fails; and at every moment the store is one that can be resumed |
| BatchSummarizer.Summarizer.SummarizeLevel | crates/reasondb-ingest/src/summarizer.rs:304-448 | one level: afterwards exactly its nodes have the fold's summaries, in memory and, where a reply was needed and no write failed, in the store |
| BatchSummarizer.Summarizer.PrepareBatches | crates/reasondb-ingest/src/summarizer.rs:323-373 | every pending node is in exactly the batches or named after its title, every item is the one the fold asks, and no batch is empty or larger than `batch_size` |
| BatchSummarizer.Summarizer.Dispatch | crates/reasondb-ingest/src/summarizer.rs:376-436 | whatever order the batches finish in, every item's reply reaches its node |
| BatchSummarizer.Summarizer.Flush | crates/reasondb-ingest/src/summarizer.rs:438-447 | every state of the store between two writes of a level is one that a crash may leave; a failed write is passed over |
| BatchSummarizer.Summarizer.GetContentForNode | crates/reasondb-ingest/src/summarizer.rs:584-604 | a leaf's own text, or one line "- title: summary" for each listed child that has a summary now, in order, joined by newlines, and nothing else |
| BatchSummarizer.ItemIsFolded | crates/reasondb-ingest/src/summarizer.rs:327-350 | the item built from nodes in the middle of a run is the item of the fold |
| BatchSummarizer.IngestCheckpointed | crates/reasondb-ingest/src/pipeline.rs:955-989 | ingest returns, for each node, the reply to its own text or its children's lines; every state of the store after the early flush can be resumed |
| BatchSummarizer.ResumeSummarization | crates/reasondb-ingest/src/pipeline.rs:1009-1067 | resumption over a crashed ingest, with or without failed writes and with the nodes listed in any order, returns each node of the original document with the uninterrupted summary, and itself only passes through resumable states |
| JobSafety.NoJobIsHeldTwice | crates/reasondb-server/src/jobs.rs:404-413 | in every reachable state no job is held by two workers, and a held job is neither queued nor finished |
| JobSafety.FinishedStaysFinished | crates/reasondb-server/src/jobs.rs:199-210 | a finished job keeps its record until it is deleted, over every continuation of every run |
| JobSafety.OnlyFinishedJobsAreDeleted | crates/reasondb-server/src/jobs.rs:311-349 | only cleanup deletes, and only finished jobs, although it works from a snapshot |
| JobSafety.CheckpointIsLostIff | crates/reasondb-core/src/store/jobs.rs:207-265 | a recorded checkpoint is lost in a step exactly when cleanup deletes the job, or the process dies between the two writes of a claim, or the second of them fails; no other crash and no other failed write loses one |
| JobSafety.InterruptedClaimIsFinal | crates/reasondb-server/src/jobs.rs:213-245 | after such a crash or failed write the record stays unreadable and unclaimed on every continuation |
| JobWitnesses.CheckpointMayBeLost | crates/reasondb-server/src/jobs.rs:265-308 | a reachable state in which a crash does that to a recorded checkpoint |
| JobDocuments.DocumentsPerJob | crates/reasondb-ingest/src/pipeline.rs:957-970 | a job stores one document for each crash, or failed write of its status, between `insert_document` and its persisted checkpoint, and at most one more |
| JobDocuments.IndexedAtMostOnce | crates/reasondb-server/src/jobs.rs:646-652 | a document is bulk-indexed at most once, and the document of a completion is one that its job stored |
| JobDocuments.OnlyNewAttemptsIndex | crates/reasondb-server/src/jobs.rs:488-520 | in every reachable state, a step that indexes is one of an attempt that did not start from a checkpoint, in its indexing phase, and indexes its own document |
| JobDocuments.CompletedIsIndexedIff | crates/reasondb-server/src/jobs.rs:646-652 | over every run, the document of a completed job is in the index exactly when the completing attempt did not start from a checkpoint, or an earlier attempt ended by a crash or a failed status write after it had indexed |
| JobWitnesses.ResumedJobMayStayUnindexed | crates/reasondb-server/src/jobs.rs:488-520 | a reachable state with a completed job whose document was never indexed |
| JobSafety.ClaimIsTwoWrites | crates/reasondb-server/src/jobs.rs:213-245 | the machine's two steps of a claim: the first queued job is blanked, and then stored as Processing, dated now, with request, creation time and checkpoint as they were; nothing else changes |
| JobSafety.RecoveryIsResume | crates/reasondb-server/src/jobs.rs:262-308 | recovery from a snapshot, when its writes succeed: each job still to do that is Processing is stored as Queued, dated now and otherwise unchanged, whether or not it has a checkpoint; no other record changes |
| JobSafety.RestartRequeuesAll | crates/reasondb-server/src/jobs.rs:262-308 | after such a restart from any reachable state no job is Processing, every other record is as it was, and the workers find a job to claim if one was interrupted |
| JobRecords.WorkersStartRecovered | crates/reasondb-server/src/jobs.rs:262-308 | over every run from a restart on: when the workers start and no recovery write has failed, no job is in Processing |
| JobAttempts.UndisturbedJobCompletes | crates/reasondb-server/src/jobs.rs:448-661 | an undisturbed attempt at a new job, from the claim on: one document is stored, recorded as the checkpoint, indexed once, and the job is Completed with it |
| JobAttempts.ResumedJobCompletes | crates/reasondb-server/src/jobs.rs:488-520 | an undisturbed attempt from a checkpoint completes with that document, and neither stores nor indexes anything |
| JobAttempts.FailureIsRecorded | crates/reasondb-server/src/jobs.rs:420-437 | whichever phase fails, the job is recorded as Failed with the checkpoint it has, and the worker is free |
| JobAttempts.LateFailureHasIndexed | crates/reasondb-server/src/jobs.rs:646-652 | an indexing that went through before its commit failed stays in the index of the failed job |
| JobAttempts.LostMarkIsPassedOver | crates/reasondb-server/src/jobs.rs:249-260 | a checkpoint that cannot be persisted leaves the record as it is, and the attempt goes on |
| JobRecords.WritesAreDated | crates/reasondb-server/src/jobs.rs:199-210 | whichever step changes a readable record leaves it with the time of that step |
| JobRecords.RequestIsKept | crates/reasondb-server/src/jobs.rs:158-178 | over every run a job's record, while readable, has the request and creation time it was enqueued with |
| JobRecords.CleanupListsOld | crates/reasondb-server/src/jobs.rs:311-333 | cleanup lists exactly the jobs that are Completed or Failed and were last written at least 3601 seconds ago |
| JobRecords.CleanupDeletesOld | crates/reasondb-server/src/jobs.rs:311-349 | the two transactions of a cleanup delete exactly those, from both tables; if the second fails, nothing |
| JobTheorems.DoKeeps | crates/reasondb-server/src/jobs.rs:390-438 | every step of every worker, crash, recovery and cleanup keeps the invariant behind these theorems |
| JobTheorems.ActOk | crates/reasondb-server/src/jobs.rs:448-661 | a worker's next action, however it turns out, keeps what holds of the worker |
| JobSafety.MoveIsLocal | crates/reasondb-server/src/jobs.rs:448-661 | a worker's step leaves the records of all other jobs, all other workers, the order index, recovery and cleanup as they are |
| JobModel.FirstQueuedIsFirst | crates/reasondb-core/src/store/jobs.rs:231-248 | the claimed job is the first in the order index whose record is queued; none is found only if none waits |
| JobQueue.JobQueue.Enqueue | crates/reasondb-server/src/jobs.rs:158-178 | a new id with a queued record without checkpoint, last in order, and nothing else |
| JobQueue.JobQueue.UpdateStatus | crates/reasondb-server/src/jobs.rs:199-210 | changes status and time of a readable record and nothing else; a missing or blank record is left alone |
| JobQueue.JobQueue.SetCheckpoint | crates/reasondb-server/src/jobs.rs:249-260 | changes checkpoint and time of a readable record and nothing else |
| JobQueue.JobQueue.ClaimNextJob | crates/reasondb-core/src/store/jobs.rs:207-265 | blanks the record of the first queued job and returns the old one |
| JobQueue.JobQueue.ClaimNextQueued | crates/reasondb-server/src/jobs.rs:213-245 | the first queued job becomes Processing, dated now and otherwise unchanged, and is returned with its checkpoint; none only if none is queued |
| JobQueue.JobQueue.ResumeIncompleteJobs | crates/reasondb-server/src/jobs.rs:265-308 | each Processing job is Queued afterwards, dated now, with request, creation time and checkpoint as they were, whether it has a checkpoint or not; no other record changes; no job is Processing; the count is that of the queued jobs |
| JobQueue.JobQueue.CleanupExpiredJobs | crates/reasondb-server/src/jobs.rs:311-349 | exactly the jobs that are Completed or Failed and were last written at least 3601 seconds ago are deleted; the count is theirs |
| JobQueue.JobQueue.DeleteJobs | crates/reasondb-core/src/store/jobs.rs:159-202 | removes the listed jobs from both tables and counts those that existed |
| TreeShape.PreorderIsIdentity | crates/reasondb-ingest/src/tree_builder.rs:98-177 | a list of parents that does not cross itself is the preorder of its own tree |
| HeadingChains.BuiltTreeFlattens | crates/reasondb-ingest/src/tree_builder.rs:125-173 | round trip: flattening the built tree and dropping the root gives back the chunk list in order |
| HeadingChains.ParentIsNearest | crates/reasondb-ingest/src/tree_builder.rs:138-143 | a heading is the parent exactly when its level is below the effective level of every chunk after it up to this one, and no later heading is such |
| HeadingChains.ParentIsRootIff | crates/reasondb-ingest/src/tree_builder.rs:138-143 | the parent is the root exactly when no earlier heading encloses the chunk |
| HeadingChains.ChainEncloses | crates/reasondb-ingest/src/tree_builder.rs:138-173 | the stack holds exactly the headings that enclose the chunk, in order, with rising levels |
| HeadingChains.DepthWithinLevel | crates/reasondb-ingest/src/tree_builder.rs:151 | with levels from 1 up, the depth is at most the effective level and `len() as u8` never wraps |
| HeadingChains.DepthWrapsIff | crates/reasondb-ingest/src/tree_builder.rs:151 | for all levels, it wraps exactly when the effective level is 255 and a heading of every level from 0 to 254 encloses the chunk |
| HeadingChains.DepthOfChild | crates/reasondb-ingest/src/tree_builder.rs:143-151 | a child lies one deeper than its parent, on a `u8` |
| HeadingChains.LeafIsLocal | crates/reasondb-ingest/src/tree_builder.rs:164-173 | a chunk stays a leaf exactly when it is unheaded, last, or followed by a chunk that is not nested deeper |
| TreeBuilder.TreeBuilder.BuildTree | crates/reasondb-ingest/src/tree_builder.rs:98-177 | the root with the document title, and a node for each chunk in order: titled by its heading, or by the title generated from its text if it has no level; with its text and summary, one deeper than there are headings around it, and linked both ways with the innermost of them |
| TreeBuilder.TreeBuilder.Build | crates/reasondb-ingest/src/tree_builder.rs:58-95 | the page of each such node: same title, depth, parent and children, with text and supplied summary exactly where nothing is nested; the deepest level that occurs; a lone root for no chunks |
| TreeBuilder.TreeBuilder.TextIsKeptIff | crates/reasondb-ingest/src/tree_builder.rs:198-215 | a chunk's text is kept exactly when it is not empty and nothing is nested in the chunk; interior nodes and the root have none |
| TreeBuilder.TreeBuilder.LinksAgree | crates/reasondb-ingest/src/tree_builder.rs:162-168 | children lists and parents are mutual inverses, in increasing order |
| TreeBuilder.TreeBuilder.ChildIsDeeper | crates/reasondb-ingest/src/tree_builder.rs:147-168 | every node but the root comes after its parent and lies one deeper |
| TreeBuilder.TreeBuilder.DepthWithinMax | crates/reasondb-ingest/src/tree_builder.rs:34 | with levels from 1 to `max_depth` no node lies deeper than `max_depth` |
| TreeBuilder.DepthMayWrap | crates/reasondb-ingest/src/tree_builder.rs:151 | 256 headings whose last one gets depth 0 |
| TreeBuilder.Organize | crates/reasondb-ingest/src/tree_builder.rs:313-344 | each chunk comes with exactly those whose innermost enclosing heading it is, in order, when unheaded chunks count as level 255 |
| TreeBuilder.BuildersAgreeIff | crates/reasondb-ingest/src/tree_builder.rs:124-174 | both builders give all chunks the same parents exactly when, before each unheaded chunk, the last heading of a level below 255 has a level below `max_depth`, or there is none |
| TreeBuilder.BuildersMayDisagree | crates/reasondb-ingest/src/tree_builder.rs:124-174 | an unheaded chunk after a heading of level 10, at `max_depth` 10: its parent is the root for one builder and the heading for the other |
| TreeBuilder.BuildersAgree | crates/reasondb-ingest/src/tree_builder.rs:313-344 | with all heading levels below `max_depth`, both give each chunk the same ordered children |
| TreeGrep.Grep | crates/reasondb-core/src/tree_grep.rs:37-86 | on a built tree: one hit, in document order, for each node that has a term in title, summary or text, with what matched where and how often, and none for the others; the score is the sum of frequency times depth weight times field weight, and positive exactly when there is a hit |
| TreeGrep.Grepper.GrepNode | crates/reasondb-core/src/tree_grep.rs:88-123 | the recursive walk pushes the hits of its subtree in preorder |
| TreeGrep.FieldScoreIsMax | crates/reasondb-core/src/tree_grep.rs:66-75 | the weight of a hit is one that applies, and the largest such; 0 exactly when none applies |
| TreeGrep.ShallowerAndTitlesScoreMore | crates/reasondb-core/src/tree_grep.rs:35-36 | the same match scores strictly more the shallower it lies, and strictly more in a title than elsewhere |
| TreeGrep.BuiltTreesAreStored | crates/reasondb-core/src/tree_grep.rs:117-120 | every built tree is one that the grep theorem is about |
| AgenticWindows.WindowLoopEndsIff | crates/reasondb-ingest/src/pipeline.rs:478-501 | the window loop ends exactly when `window_size > 5` or the document fits one window |
| AgenticWindows.SpansChain | crates/reasondb-ingest/src/pipeline.rs:482-501 | the last window reaches the last line, and each later cutoff is the previous window's last line plus 1 |
| AgenticWindows.NeighboursShare | crates/reasondb-ingest/src/pipeline.rs:478-500 | neighbouring windows share exactly 5 lines, or `size / 10` from size 60 on |
| AgenticWindows.LinesArePartitioned | crates/reasondb-ingest/src/pipeline.rs:485-489 | every line lies in the owned range of exactly one window |
| AgenticWindows.MakeWindows | crates/reasondb-ingest/src/pipeline.rs:477-501 | the loop produces window `k` from line `k * (size - overlap)` on, with its lines and cutoff, and ends with the first window that reaches the last line; `overlap` is 5, or `size / 10` from size 60 on |
| AgenticWindows.MergeGroups | crates/reasondb-ingest/src/pipeline.rs:527-550 | a stable sort by window, then of each window's groups all for the first window and those from the cutoff on for the others, then a stable sort by line; none when nothing is left |
| AgenticWindows.MergeIgnoresArrival | crates/reasondb-ingest/src/pipeline.rs:532-550 | whatever the groups are, two completion orders of the same replies, one for each window, merge to the same list |
| AgenticWindows.MergeIsDeterministic | crates/reasondb-ingest/src/pipeline.rs:532-550 | for windows tiled by their groups and every completion order: an ordered list in which no line lies in two groups |
| AgenticWindows.LineIsKeptIff | crates/reasondb-ingest/src/pipeline.rs:535-542 | a line is missing exactly when it lies at or behind a later window's cutoff, inside the group of that window that straddles it |
| AgenticWindows.AgenticChunkingLines | crates/reasondb-ingest/src/pipeline.rs:467-550 | all of this for the windows that the loop makes |
| DaemonTheorems.ResponsesMatchRequests | crates/reasondb-plugin/src/daemon.rs:79-91 | for every interleaving of callers, time-outs, errors, deaths and restarts, a response that a caller gets is the plugin's answer to its own request |
| DaemonTheorems.OneRequestInFlight | crates/reasondb-plugin/src/daemon.rs:122-152 | at most one line is in the pipes of a process, and none while its daemon waits for the next request |
| DaemonTheorems.OneHandlePerPlugin | crates/reasondb-plugin/src/daemon.rs:294-321 | however first calls race, all calls for a plugin go to the one daemon in the pool |
| DaemonTheorems.PoolOnlyGrows | crates/reasondb-plugin/src/daemon.rs:312-319 | the handle that was inserted first stays |
| DaemonTheorems.SendNeverFails | crates/reasondb-plugin/src/daemon.rs:82-84 | the daemon that a caller sends to is there and has not shut down, so no send fails |
| DaemonHealth.HealthyCallsAreAnswered | crates/reasondb-plugin/src/daemon.rs:79-91 | in every run in which nothing breaks, a call that ends without a time-out ends with its plugin's response if that is usable, and with an error if it is not |
| DaemonHealth.UndisturbedCallIsAnswered | crates/reasondb-plugin/src/daemon.rs:122-152 | a request to a listening daemon comes back after six steps; the process is kept after a usable response and replaced after any other |
| DaemonHealth.BrokenRequestFails | crates/reasondb-plugin/src/daemon.rs:233-278 | wherever a request breaks, in the write, in the read, or by the death of the process, its caller gets an error and the process is replaced |
| DaemonHealth.ServiceEnds | crates/reasondb-plugin/src/daemon.rs:122-152 | in every state of every run, whatever has broken before, a daemon that serves a call can reply to it within four steps of its own in which nothing breaks; then it listens or has its process replaced |
| DaemonHealth.LateReplyKillsProcess | crates/reasondb-plugin/src/daemon.rs:136-144 | when the caller has timed out before the reply, the process is replaced, however good its answer |
| DaemonHealth.UnstartableDaemonAnswers | crates/reasondb-plugin/src/daemon.rs:99-115 | a daemon whose process cannot be started answers its callers with an error and does not try again |
| DaemonHealth.UnstartableThreadFails | crates/reasondb-plugin/src/daemon.rs:61-73 | when not even a thread can be started, the call fails and the pool is as it was |
| DaemonHealth.FirstCallStartsDaemon | crates/reasondb-plugin/src/daemon.rs:294-321 | the first call for a plugin starts its daemon, puts it into the pool, and can then be served |
| DaemonHealth.DroppedDaemonStops | crates/reasondb-plugin/src/daemon.rs:122-130 | a daemon that lost the race for the pool, and that nobody can send to, shuts down |
| DaemonTheorems.DoKeeps | crates/reasondb-plugin/src/daemon.rs:95-154 | every step keeps the pairing of the request a daemon serves with the lines in its pipes |
| DaemonThread.InvokeViaDaemon | crates/reasondb-plugin/src/daemon.rs:233-278 | which reply the caller gets: the decoded response exactly when the request encodes, nothing breaks, and the plugin's line is a response that says ok; else the plugin's own error message, or the error of the step that failed. After an Ok reply the pipes are empty and the process is alive |
| DaemonThread.OkIffGood | crates/reasondb-plugin/src/daemon.rs:233-278 | a reply is Ok if and only if all of that went well, and is then the plugin's response to this very request |
| DaemonThread.ServeUntilError | crates/reasondb-plugin/src/daemon.rs:122-152 | one process serves requests in order until one errs or its caller has gone, and is then killed; the replies are those of the specification |
| DaemonThread.RunDaemon | crates/reasondb-plugin/src/daemon.rs:95-154 | over all restarts, the replies in order: each request up to the first that finds no process and cannot start one gets what its plugin's line means or the error of its own fault, and everybody after that gets the start-up error |
| DaemonThread.OkRepliesMatch | crates/reasondb-plugin/src/daemon.rs:122-152 | whatever breaks, an Ok reply is the response, with ok set, that the plugin's line for that very request decodes to, and nothing broke for it |
| DaemonThread.HealthyWorldAnswersAll | crates/reasondb-plugin/src/daemon.rs:95-154 | when nothing breaks, every request gets what its plugin's line means: the response if it says ok, else the plugin's error message; also after error answers and callers that have gone |
| ReasonStream.StreamReader.Execute | apps/reasondb-client/src-tauri/src/lib.rs:50-112 | progress and result are those of the whole text read at once, however it was cut and whether or not a network error ends it |
| ReasonStream.StreamReader.ConsumeLines | apps/reasondb-client/src-tauri/src/lib.rs:60-97 | consumes exactly the complete lines of the buffer and keeps the rest, or returns early |
| ReasonStream.StreamReader.DispatchEvent | apps/reasondb-client/src-tauri/src/lib.rs:71-96 | what a blank line does with the event collected so far |
| ReasonStream.LinesOfAppend | apps/reasondb-client/src-tauri/src/lib.rs:57-62 | reading on keeps the complete lines and goes on from the incomplete one |
| ReasonStream.ReturnedStays | apps/reasondb-client/src-tauri/src/lib.rs:85-91 | once a prefix of the text has returned, the rest does not matter |
| ReasonStream.ReadTwice | apps/reasondb-client/src-tauri/src/lib.rs:55-98 | two ways of cutting a text cannot be told apart |
| ReasonStream.ServerStreamsReadBack | crates/reasondb-server/src/routes/query.rs:635-653 | a server's events read back as the progress values up to the first result: whatever comments, repeated names and data, other fields and carriage returns they have, whether or not the last event is followed by its blank line, and with a partial line or a network error at the end |
| Cache.Cache.Get | crates/reasondb-core/src/cache.rs:35-51 | the latest value inserted under the key since its last remove or clear, exactly when its entry is there and in time; nothing else changes |
| Cache.Cache.Insert | crates/reasondb-core/src/cache.rs:54-73 | stores the value; a full cache pushes out exactly one least recently used entry; every key pushed out and not inserted again was last used no later than any key still there; the size is at most `max(max_size, 1)` |
| Cache.Cache.EvictLru | crates/reasondb-core/src/cache.rs:103-112 | removes one entry used no later than any other, whatever the order of iteration |
| Cache.Cache.Remove | crates/reasondb-core/src/cache.rs:76-80 | removes one key and nothing else |
| Cache.KeysAgreeIff | crates/reasondb-core/src/cache.rs:274-282 | when exactly two queries share a key, for all table ids |
| Cache.TablesDoNotMix | crates/reasondb-core/src/cache.rs:274-282 | for table ids without a colon: exactly when the table ids and the words of the two queries agree |
| Cache.TablesMayMix | crates/reasondb-core/src/cache.rs:274-282 | two queries on different tables, one with a colon in its id, that share a key |
| Cache.QueryCache.InvalidateTable | crates/reasondb-core/src/cache.rs:307-311 | drops the answers for every table, and keeps the counters |
| Cache.QueryCache.Get | crates/reasondb-core/src/cache.rs:285-298 | counts one hit or one miss per lookup, a hit exactly when an answer comes back |
| Cache.QueryCache.Insert | crates/reasondb-core/src/cache.rs:301-304 | the entry can be read back at once under the normalised key |

## Left out

- Cancellation flags, reasoning traces, cross-reference sections and the title field of a result: they do not influence which nodes are found.
- `verify_bm25_hits` and the lookup of a document's root in `search_document_with_cancel`: thin paths around the modelled batch call and traversal.
- Errors returned by the store or the reasoner during a search: the theorems are about runs in which none occurs.
- NaN confidences; and `nodes_pruned` is an integer here, where the code's unsigned subtraction needs at most one decision per child.
- Cross references, plugin and mock summaries, and the statistics of an ingest run.
- JobQueue.JobQueue.UpdateStatus: the queue's methods are stated for writes that succeed, and so for the other methods of the class; the machine in `JobRuns` has the failing ones.
- BatchSummarizer.Summarizer.SummarizeBatch: how many batches are in flight at once is not bounded, because no result depends on it.
- JobQueue.JobQueue.Enqueue: ids go to the end of the order index; the machine in `JobRuns` inserts them anywhere, as a clock that goes back would.
- Wake-ups of workers, leadership, temporary files, tags and metadata of a job, and job progress texts.
- Liveness: a missed wake-up, a plugin that never answers, and callers that block on the rendezvous channel.
- DaemonThread.InvokeViaDaemon: what breaks is a parameter, one fault for each request, and a process that has died answers nothing, also if its line was already in the pipe when it died; `DaemonRuns` models that case.
- Fallback chunking, the text of the chunks and the trimming of groups after the windowed merge.
- `build_from_toc`, page numbers, line ranges, attributes and timestamps of tree nodes.
- TreeGrep.Grep: the score is a real number; rounding of `f32` is not modelled.
- Invalid UTF-8 and chunks cut inside a character in the event stream; HTTP status errors before the stream starts.
- `SummaryCache`, the hit rate, and the poisoning of the cache's lock.
- The Raft cluster, RQL, the rate limiter, authentication, the text index and the node store itself.
