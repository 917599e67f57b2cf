# Verified model of the document-processing coordinator

A task names documents and requested operations (F1 transcription, F2 recognition, F3 summary,
F4 test, F5 terms, F6 recommendations). The coordinator builds a plan of subtasks with dependencies,
sends each ready subtask to its agent as a request, accepts informs and refuses, retries with a
backoff, fails subtasks whose upstreams failed, stores results so that a restart can resume, and
finally writes an artifact and a status. This project models that dispatch loop, its plan, payloads,
verdict, result tables and recovery, and six self-contained algorithms around it, and proves what
they are for.

How it is organised:

- `Dispatch` is the protocol: one state per task, with a cell per subtask and actions for every
  event (inform, refuse, send, skip, expire, republish, reading the clock). Replies are chosen by an
  adversary; time is a monotone real. A plan is any finite list of subtasks with an acyclicity rank;
  `Plans` shows that every built plan is one. Cells also record, as history, the requests sent and
  the replies routed.
- `Invariants`, `Budget`, `Confluence`, `Safety`, `Timing`, `Deadlines` and `Outcome` prove properties
  of every run, several of them with their exact condition; `Limits` shows that the situations those
  conditions exclude do occur; `Starts` deals with the first pass.
- `Rounds` is what `_advance` computes, loop by loop, as a function; `Ticks` makes a pass, and the
  whole life of a task, out of it.
- `TaskStates`, `Handlers` and `Coordination` are the imperative code: the record with its sets and
  dictionaries, the handlers statement by statement, the loop over many tasks with its gauge and
  store. `Advance` is proved to leave exactly the state `Rounds` computes. The coordinator keeps, as
  history, the life of every registered task; its invariant says that each task is in the state its
  own life leads to, after any calls. `Runs` shows that a life is a run of the protocol, so the
  results about runs hold of every task the class serves.
- `Payloads`, `Verdict`, `Artifacts` and `Retry` are what requests carry and what a task ends with.
- `Replies`, `Attempts`, `Joins` and `Reports` say what this comes to in plain terms, without the
  functions it is computed by: which reply decides a subtask, when requests go out and how long they
  may take, which operations succeed on which upstreams, and what the figures of the artifact count.
- `Mapping`, `Tables`, `Storage`, `Recovery`, `Durability` and `Restart` are the result rows, their
  tables, recovery, and what recovery finds after any sequence of saves.
- `Idempotency`, `Packing`, `Terms`, `Blocks`, `Choices` and `Extraction` are the duplicate filter,
  segment packing, near-duplicate terms, block splitting, choice de-duplication and batched
  extraction. `Basics`, `Selections`, `Sums` and `Texts` hold what they share.

Assumptions that a theorem needs are named in its statement: refuses are harmless (`Harmless`: for a
subtask already sent, out of retries, or with nothing left to wait for), the clock is read at least
every delta seconds (`Timely`), agents put their task's or document's id on what they return
(`Proper`). Task ids are fresh at submission and resumption (`task.id !in tasks`), as the code assumes.

## Where the code and its documentation differ

The model follows the code.

- src/agents/coordinator.py:225 accepts a refuse for any pending subtask, sent in this run or not.
  One left over from before a restart makes the coordinator send a request that ignores an unresolved
  dependency (`LeftoverRefuseBreaksSafety`); exactly the refuses that are not harmless do that
  (`RefuseStaysSafeIff`). After it the order in which the loops of `_advance` visit subtasks and timers
  can show (`LeftoverRefuseMakesOrderMatter`); while refuses answer requests of the run it never does
  (`ReachableIsOrderIndependent`).
- src/core/retry.py:23-25 presents the global deadline as a cap for overruns. It never cuts off a task
  with work pending exactly if it is at or past every critical path (`NeverCutsOffIff`); the configured
  1800 seconds (src/config.py:24) are not, and can cut off a transcription within its retries
  (`ConfiguredDeadlineCutsOff`).
- src/agents/terminology.py:125 calls the grouping union-find. The relation is not transitive
  (`NearIsNotTransitive`) and a lemma joins the first leader it is close to; members of one group
  need not be close to each other (`MembersNeedNotBeClose`).
- src/db/result_mapping.py speaks of a bijection. Terms lose their context, and rows come back in
  the order of their ids as strings, so more than ten terms change places (`TermOrder`).

## Model

| member | source | states |
|---|---|---|
| Plans.SubtaskIdInjective | src/plan.py:96-98 | Subtask ids determine their task and operation, so subtasks of different tasks never share an id. |
| Plans.EligibleOperations | src/plan.py:101-112 | The loop keeps exactly the requested operations whose required documents are there, in order, repetitions included. |
| Plans.BuildPlanEntries | src/plan.py:121-145 | The entries of a built plan are exactly those of the admissible requested operations. |
| Plans.EntryIsByName | src/plan.py:121-145 | Each operation of a built plan by name: its id, its agent, whether it is required, whether one surviving upstream is enough, and that it depends on exactly those of its named upstreams that are planned. |
| Plans.PlannedIff | src/plan.py:101-112 | An operation is in the plan exactly if it is requested and, for transcription or recognition, a recording, or a PDF or image, is attached. |
| Plans.BuildPlanWellFormed | src/plan.py:79-84 | Every built plan has no dangling dependency and no cycle, and repeated requests give equal entries. |
| Plans.DependenciesAreUpstreamsInPlan | src/plan.py:115-118 | An operation depends on exactly those of its upstreams that are in the plan. |
| Payloads.Chunks | src/agents/payloads.py:38-45 | The loop gives the list under "chunks" of the transcription followed by that of the recognition, element by element, each empty where there is no result or no list. |
| Payloads.PayloadShowsInputs | src/agents/payloads.py:48-110 | What every request shows, read off the task and the results: id and path of the first recording or scan with none before it, all chunks for summary and terms, the summary's content for test and recommendations, the list of terms for recommendations, and the fixed parameters. |
| Payloads.BuildPayload | src/agents/payloads.py:48-110 | The dispatch over the operations builds such a content. |
| Payloads.SameResultsShown | src/agents/payloads.py:33-35 | A content shows the same of two results maps that hold the same contents, whatever else failed or is missing. |
| Payloads.FindDocument | src/agents/payloads.py:26-30 | The scan returns the first document of the wanted types, and none exactly if there is none. |
| Payloads.PayloadIgnoresFailures | src/agents/payloads.py:33-35 | A failed upstream looks to a payload builder like one without an answer. |
| Payloads.PayloadReadsOnlyDependencies | src/agents/payloads.py:48-110 | A request of a built plan depends on the results of the named dependencies only. |
| Invariants.StepInv | src/agents/coordinator.py:217-335 | Every action keeps the bookkeeping: pending and resolved exclude each other and cover the plan, timers run only for pending subtasks, each awaited answer has a timer, retries stay in budget. |
| Invariants.ReachableInv | src/agents/coordinator.py:217-335 | That invariant holds in every reachable state, after submission or recovery, whatever replies arrive. |
| Invariants.ResolvedIsFrozen | src/agents/coordinator.py:224-226 | Results are write-once: a resolved subtask never changes again, whatever replies still arrive. |
| Invariants.PendingWaits | src/agents/coordinator.py:261-299 | At rest a pending subtask has a timer that has not gone off or is unsent behind a pending dependency. |
| Invariants.NoDeadlock | src/agents/coordinator.py:261-335 | While anything is pending some timer is running: an acyclic plan never deadlocks. |
| Budget.StepMeasure | src/agents/coordinator.py:217-335 | Every send, routed reply, expiry and failure lowers a measure of the remaining effort. |
| Budget.BoundedEffort | src/agents/coordinator.py:301-335 | Over any run, with any replies: at most nine effects per subtask, sends at most one more than retries and at most three, routed replies at most three. |
| Budget.ReachableMessages | src/agents/coordinator.py:75-77 | In every reachable state the message counter is the number of requests sent plus replies routed. |
| Starts.RegisteringResolvesNothing | src/agents/coordinator.py:128-142 | The first pass of a submitted or resumed task resolves no subtask, so no verdict is due before the first tick. |
| Confluence.Diamond | src/agents/coordinator.py:261-299 | Any two steps of `_advance` on different subtasks commute, in every state. |
| Confluence.OrderIndependentIff | src/agents/coordinator.py:261-299 | The order in which subtasks and timers are visited does not show exactly if advancing never opens two different steps to one subtask. |
| Confluence.NoRaceIsOrderIndependent | src/agents/coordinator.py:283-299 | It does not show if no retry is due for a subtask that is unsent or whose answer has also timed out. |
| Confluence.ReachableIsOrderIndependent | src/agents/coordinator.py:261-299 | While every refuse answers a request of the run it never shows, in any reachable state. |
| Rounds.ExpireOneMore | src/agents/coordinator.py:283-290 | Expiring one more of the passed deadlines, in any order, gives the state in which all of them so far have expired. |
| Rounds.ResendOneMore | src/agents/coordinator.py:292-299 | Sending one more of the due retries, in any order, gives the state in which all of them so far were sent, each request built from the same results. |
| Rounds.AdvancedSettles | src/agents/coordinator.py:261-281 | The state that the rounds of `_advance` compute is at rest and is reached by steps of the protocol. |
| Rounds.AnyOrderGivesAdvanced | src/agents/coordinator.py:261-281 | Where the order does not show, any way to rest gives that state. |
| Safety.SendsAreSafeAndStable | src/agents/coordinator.py:265-335 | With harmless refuses every request went out after all dependencies were resolved with the join condition met, and every re-send carries the content of the first. |
| Safety.RequestsCarryInputs | src/agents/coordinator.py:320-335 | In every such run each request ever sent names its subtask, agent and conversation and shows the documents, or the upstream results as they are at any time from then on. |
| Safety.RestStaysSafeIff | src/agents/coordinator.py:292-299 | A task at rest stays safe, whatever follows with harmless refuses, exactly if no backoff runs for an unsent subtask. |
| Safety.RefuseStaysSafeIff | src/agents/coordinator.py:225-232 | A refuse leaves a safe task at rest safe exactly if it is harmless. |
| Limits.LeftoverRefuseBreaksSafety | src/agents/coordinator.py:225-232 | From every submission or recovery in which a subtask has to wait, one leftover refuse for it leads to a request that ignores an unresolved dependency. |
| Limits.LeftoverRefuseExample | src/agents/coordinator.py:225-232 | An instance: transcription and summary of one recording. |
| Limits.LeftoverRefuseMakesOrderMatter | src/agents/coordinator.py:265-299 | From every such submission or recovery a leftover refuse leads to a state in which the order of the loops shows. |
| Timing.WorstCaseTime | src/agents/coordinator.py:283-335 | With clock readings at most delta apart: a sent pending subtask at rest is within three timeouts, both backoffs and four delta of its first attempt, late refuses included; every subtask is resolved by its critical-path bound. |
| Timing.DefaultWorstCase | src/core/retry.py:12-22 | With the built-in timeouts nothing is pending 2265 seconds plus fifteen delta after the start, whatever is requested. |
| Timing.ConfiguredWorstCase | src/main.py:143-152 | With a timeout configured for every agent: a sent pending subtask at rest is within three of its agent's timeouts, both backoffs and four delta of its first attempt; the task is within three times the longest timeouts of its three layers, 15 seconds and fifteen delta of its start. |
| Retry.TimeoutFor | src/agents/coordinator.py:338-344 | The configured number of seconds where there is one, else 600, 120, 90, 60, 30 or 15 by agent. |
| Attempts.ReachableAttempts | src/agents/coordinator.py:320-335 | In every reachable state a running deadline is the moment of the last request plus the configured, or else the built-in, seconds of its agent; there are at most three requests, in order; the first attempt is the first request's. |
| Attempts.AttemptsKeepDistance | src/agents/coordinator.py:301-308 | While refuses answer requests, the second request comes at least one second after the first and the third at least four seconds after the second. |
| Attempts.ReachableReasons | src/agents/coordinator.py:265-308 | A recorded failure is a timeout or refuse after two retries, or all upstreams failed, or one failed where all are needed; the recorded reason says which. |
| Deadlines.NeverCutsOffIff | src/agents/coordinator.py:198-204 | A global deadline never cuts off a task with work pending, in any run with timely clock readings, exactly if it is at or past every critical path. |
| Deadlines.SufficientNeverCutsOff | src/agents/coordinator.py:198-204 | Such a deadline is enough whatever was reloaded and whatever the replies, late refuses included. |
| Deadlines.ShortDeadlineCutsOff | src/agents/coordinator.py:352-365 | Below the critical path of a subtask some run without any failure is past the deadline with that subtask pending. |
| Deadlines.ConfiguredDeadlineCutsOff | src/config.py:24-24 | The configured 1800 seconds can cut off the transcription of every task that asks for one, however often the clock is read. |
| Outcome.OutcomeIsTheMeaning | src/agents/coordinator.py:154-176 | Under any interleaving of replies, timers, crashes and partial recoveries, a resolved subtask has a result exactly if the plan, evaluated over the working subtasks, yields one. |
| Joins.OperationsComeOut | src/plan.py:31-36 | Which operations of a finished task have a result, by name: an ingestion if wanted and working; summary and terms if moreover one ingestion succeeded or none was wanted; recommendations likewise on summary and terms; the test if its summary, when wanted, succeeded. |
| Outcome.StatusIsDetermined | src/core/status_fsm.py:19-42 | Any two histories that finish the task give it the same terminal status. |
| Verdict.StatusMatchesOperations | src/core/status_fsm.py:19-42 | Completed iff nothing is degraded, failed iff the plan is not empty and nothing succeeded, partial otherwise. |
| Verdict.StatusByResults | src/core/status_fsm.py:34-42 | The same read off the results: completed iff every subtask has a content, failed iff none of a non-empty plan has one, partial iff one has and one has not. |
| Verdict.OperationsByResults | src/agents/assembly.py:82-86 | An operation is listed as done iff one of its subtasks has a content, and as degraded iff one has none. |
| Verdict.OperationsInOrder | src/agents/assembly.py:82-86 | The lists of done and degraded operations keep the order and the repetitions of the plan. |
| Verdict.PlanFollowsRequest | src/plan.py:121-145 | The subtasks of a built plan are those of the admissible requested operations in the order of the request, repetitions included. |
| Verdict.OperationsPartition | src/agents/assembly.py:82-86 | Successful and degraded operations together are the operations of the plan. |
| Verdict.BuiltPlanOneEntryPerOperation | src/plan.py:121-145 | In a built plan two entries of one operation are equal. |
| Verdict.AssemblePayload | src/agents/assembly.py:50-65 | The loop over the plan fails at the first content that does not pass validation and otherwise sets the fields in plan order. |
| Verdict.AssemblyFailsOnInvalid | src/agents/assembly.py:50-65 | Assembly raises exactly if some result of the plan would raise on its own. |
| Verdict.PayloadShowsResults | src/agents/assembly.py:50-65 | The payload shows each result of the plan in its own field and nothing for operations without one. |
| Artifacts.ArtifactIsFaithful | src/agents/assembly.py:77-119 | The artifact carries the verdict, splits the plan into operations and degraded, lists one failure per degraded operation in order, and shows the results. |
| Artifacts.FailedMatchDegraded | src/agents/assembly.py:88-104 | The failure list matches the degraded operations one to one. |
| Artifacts.FailuresHaveReasons | src/agents/assembly.py:88-104 | The failures of the artifact, in plan order, carry the recorded reasons, and "no_reply" stands only for a subtask still pending. |
| Artifacts.AssembledReports | src/agents/assembly.py:68-119 | An artifact assembled from a record shows the figures of its state: duration, distinct agents and the coordinator, messages, and per missing operation, in plan order, agent, retries, reason and elapsed time. |
| Artifacts.LackingInOrder | src/agents/assembly.py:103-104 | The missing subtasks are those without a content, in plan order. |
| Reports.ReportedTotals | src/agents/assembly.py:106-111 | The duration runs from registration, agents are counted one per subtask of the plan and the coordinator, messages are the requests sent and replies routed of all subtasks. |
| Reports.ReportedFailure | src/agents/assembly.py:68-105 | A failure shows its agent, its retries (at least the requests sent less one) and the time from its first request to its resolution, or to now, zero if it was never sent. |
| TaskStates.TaskState.constructor | src/agents/coordinator.py:130-135 | A new record stands for the initial protocol state, with reloaded results counted as resolved and published. |
| Handlers.FailSubtask | src/agents/coordinator.py:310-318 | Exactly which fields a failure changes and to what. |
| Handlers.ScheduleRetryOrFail | src/agents/coordinator.py:301-308 | Within budget a retry is counted and timed by its backoff, otherwise the subtask fails; no other field changes. |
| Handlers.Publish | src/agents/coordinator.py:320-335 | Publishing appends one request to the subtask's, addressed to its agent and showing its inputs, and sets its deadline to now plus the configured or built-in seconds of the agent. |
| Handlers.AdvanceSubtask | src/agents/coordinator.py:265-281 | A turn of the loop sends a ready subtask, fails it with its upstreams, or changes nothing, and reports whether it acted. |
| Handlers.JoinBySuccesses | src/agents/coordinator.py:269-279 | The two tests on the number of successful upstreams decide the join condition and the reason. |
| Handlers.ExpireTimeouts | src/agents/coordinator.py:283-290 | A deadline strictly before now counts as a failed attempt: one more retry in one or four seconds, or the end of the subtask after two; nothing else changes; and the loop reports whether there was any, in whatever order it meets them. |
| Handlers.RepublishDue | src/agents/coordinator.py:292-299 | A retry due at or before now is sent again, with one more request and a new deadline; nothing else changes; and the loop reports whether there was any, in whatever order it meets them. |
| Handlers.SweepSubtasks | src/agents/coordinator.py:265-281 | The loop over the plan visits the entries in order and reports whether any was ready. |
| Handlers.Advance | src/agents/coordinator.py:261-281 | The while loop terminates and leaves the state that the rounds compute, at rest. |
| Handlers.RouteReply | src/agents/coordinator.py:217-241 | By fields: a reply that names no pending subtask changes nothing; a refuse schedules a retry in one or four seconds, or fails the subtask after two, and leaves nothing to store; any other reply makes its content the result and leaves exactly it, with task and operation, to be stored. |
| Ticks.RoutedAppend | src/agents/coordinator.py:189-192 | Routing one more reply sees the effect of all replies before it. |
| Replies.RepliesDecide | src/agents/coordinator.py:217-241 | Of any replies to a pending subtask the first that is no refuse gives its result, unless refuses before it use up the retries, which fails it; with refuses only, and few enough, it stays open with as many retries more. |
| Replies.DecisionsAreStored | src/agents/coordinator.py:236-241 | What is left to be stored are exactly the contents of the deciding replies, in order, each with its task and operation. |
| Replies.PassIsDecided | src/agents/coordinator.py:187-207 | After a whole pass a pending subtask has succeeded exactly if a reply decides it, with that content, and has failed if refused once too often. |
| Replies.OneReplyDelivered | src/agents/coordinator.py:178-212 | A tick with one reply: an inform resolves the subtask it names and leaves one job; a refuse leaves a sent subtask pending with its retry one or four seconds away, or fails it; every other task, and every task if the reply names no pending subtask, passes as if none had come. |
| Ticks.PassRests | src/agents/coordinator.py:187-207 | A pass, whatever its replies, leaves a task at rest with its bookkeeping intact. |
| Ticks.LifeDecidesState | src/agents/coordinator.py:178-215 | Task isolation over whole lives: the state of a task is decided by what was reloaded for it, its own replies and the clock readings, whatever the replies and whatever other tasks do. |
| Runs.PassIsRun | src/agents/coordinator.py:178-207 | A pass is a run of the protocol that keeps to the conditions the pass keeps to. |
| Runs.LifeIsRun | src/agents/coordinator.py:154-215 | The whole life of a task is one run from its registration. |
| Runs.RegisteredIsWellKept | src/agents/coordinator.py:154-215 | At any time every registered task of the class is in the state its own life leads to, with its bookkeeping intact, bounded effort, a right message count and its reloaded results untouched. |
| Runs.RegisteredIsSafe | src/agents/coordinator.py:265-335 | If its refuses were harmless, the requests of a registered task are safe and stable. |
| Runs.RegisteredRequests | src/agents/coordinator.py:320-335 | And each of its requests shows the task's documents or the results in its record. |
| Runs.RegisteredDeadlines | src/agents/coordinator.py:320-344 | The running deadlines of a registered task are those of its last requests under the coordinator's timeouts. |
| Runs.OnlyFinishedAreConcluded | src/agents/coordinator.py:193-207 | With an ample global deadline and timely passes a tick concludes only finished tasks. |
| Runs.LifeEnds | src/core/retry.py:12-22 | With the built-in timeouts and timely passes nothing of a task is pending after the worst-case time. |
| Coordination.Coordinator.Receive | src/agents/coordinator.py:179-185 | The accepted replies are those that are no duplicates within the filter's memory, in the order of the messages. |
| Coordination.MineInOrder | src/agents/coordinator.py:189-192 | A task is given the accepted replies addressed to it, in their order. |
| Coordination.Coordinator.Finalize | src/agents/coordinator.py:381-392 | The artifact and the one terminal status are written, or on an exception nothing is. |
| Coordination.Coordinator.Conclude | src/agents/coordinator.py:193-207 | A task with work pending in time stays untouched; any other is removed from registry and gauge with exactly one terminal status, that of its artifact or FAILED. |
| Coordination.Coordinator.SettleTasks | src/agents/coordinator.py:193-207 | The loop over the tasks brings each to rest and disposes of it without touching the others. |
| Coordination.Coordinator.Tick | src/agents/coordinator.py:178-215 | A tick gives every task its pass over its own replies, keeps exactly the tasks with work pending in time, concludes the others with an artifact that shows the results and figures of their last state, returns the contents to store, keeps the gauge equal to the number of tasks and each task in the state its own life leads to. |
| Coordination.Coordinator.Serve | src/agents/coordinator.py:110-122 | Over any ticks a task still registered has lived through all of them, and no task appears or is exchanged. |
| Coordination.Coordinator.RegisteredLives | src/agents/coordinator.py:178-215 | After any calls the state of a registered task is the one its own life leads to. |
| Coordination.Coordinator.Submit | src/agents/coordinator.py:124-142 | Submission records RUNNING and either dispatches the task or concludes the empty plan, and leaves other tasks alone. |
| Coordination.Coordinator.Resume | src/agents/coordinator.py:154-176 | Resumption uses exactly the reloaded results of the plan; a fully reloaded task is concluded, or its exception leaves no trace. |
| Coordination.Coordinator.Recover | src/agents/coordinator.py:144-152 | The tasks before the first one whose finalization raises are resumed; the exception ends the loop and leaves it and all later ones as they were. |
| Idempotency.IdempotentReceiver.Accept | src/core/idempotency.py:24-36 | A message is refused exactly if its id occurred before and fewer than the cache size other ids were touched since. |
| Idempotency.IdempotentReceiver.Make | src/core/idempotency.py:17-22 | A size that is not positive is an error. |
| Idempotency.CacheIsNewest | src/core/idempotency.py:24-36 | After any calls the cache is exactly the last distinct ids by last use, up to its size. |
| Idempotency.CacheDecides | src/core/idempotency.py:24-36 | The bounded cache gives the answer of the full history. |
| Idempotency.TouchedSince | src/core/idempotency.py:30-32 | Behind an id in the order of last use are exactly the ids touched since. |
| Mapping.MakeSummaryRow | src/db/result_mapping.py:25-41 | The loop leaves in each column the text of the last section of its type. |
| Mapping.SummaryRoundTrip | src/db/result_mapping.py:139-144 | A summary as the agent makes it comes back unchanged from its row. |
| Mapping.SummaryColumns | src/db/result_mapping.py:15-41 | The last section of type introduction, thesis or conclusion fills the column introduction, key points or conclusions. |
| Mapping.MakeTermRows | src/db/result_mapping.py:44-63 | The rows are those of the object items, numbered by position among all items. |
| Mapping.TermRoundTrip | src/db/result_mapping.py:147-160 | A term comes back from its row with everything but its context. |
| Mapping.TermColumns | src/db/result_mapping.py:44-63 | Which field of a term fills which column, and the numbered id of its row. |
| Mapping.MakeCitationRows | src/db/result_mapping.py:76-95 | The rows are those of the object items, numbered by position among all items. |
| Mapping.CitationRoundTrip | src/db/result_mapping.py:167-179 | A citation comes back unchanged from its row. |
| Mapping.CitationColumns | src/db/result_mapping.py:76-95 | Which field of a citation fills which column, and the numbered id of its row. |
| Mapping.QuizRoundTrip | src/db/result_mapping.py:66-73 | A quiz as the agent makes it comes back unchanged from its row. |
| Mapping.MakeChunkRows | src/db/result_mapping.py:98-118 | The rows are those of the object items; an index that is no number is an exception. |
| Mapping.ChunkRoundTrip | src/db/result_mapping.py:121-136 | A chunk comes back unchanged from its row. |
| Mapping.ChunkColumns | src/db/result_mapping.py:98-118 | Which field of a chunk fills which column. |
| Tables.OrderIds | src/db/repos.py:128-132 | Listing sorts the ids as strings. |
| Tables.AscendingIsUnique | src/db/repos.py:128-132 | There is only one list of given ids in that order. |
| Tables.ListingIsComplete | src/db/repos.py:128-132 | Listing returns every saved row once, in the order of the ids. |
| Tables.GoodBatchReplaces | src/db/repos.py:103-116 | Deleting the rows of an owner and inserting new ones of its own never collides and changes no other owner's rows. |
| Tables.LastBatchStands | src/db/repos.py:99-126 | After any replacements an owner has exactly the rows of its last one. |
| Storage.AddRows | src/db/repos.py:108-110 | Insertion fails exactly if an id is taken. |
| Storage.ResultRepo.SaveChunks | src/db/repos.py:103-110 | The rows of the documents named by the new rows are replaced, or nothing changes. |
| Storage.ResultRepo.SaveTerms | src/db/repos.py:112-116 | The terms of the task are replaced, or nothing changes. |
| Storage.ResultRepo.SaveCitations | src/db/repos.py:122-126 | The citations of the task are replaced, or nothing changes. |
| Storage.ResultRepo.SaveSummary | src/db/repos.py:99-101 | The summary is inserted or overwritten under its id. |
| Storage.ResultRepo.SaveQuiz | src/db/repos.py:118-120 | The quiz is inserted or overwritten under its id. |
| Storage.ResultRepo.SaveResult | src/agents/store.py:45-60 | An operation's content goes to its table; a failed save changes nothing. |
| Recovery.BucketChunks | src/agents/recovery.py:52-64 | The transcription gets exactly the chunks of origin "audio", the recognition those of origin "pdf_extracted" or "image", in order; any other origin is an error. |
| Recovery.LoadResults | src/agents/recovery.py:110-128 | Reloading gives the transcription's id exactly the audio chunks of the task, the recognition's id exactly the extracted and recognised ones, and the other operations their stored results; it fails exactly on a chunk of unknown origin or two summaries or quizzes of the task. |
| Durability.NumberedIds | src/db/result_mapping.py:54-54 | A numbered row id determines its task and number. |
| Durability.TermsFollow | src/db/repos.py:112-116 | No save of terms ever fails or disturbs another task's terms. |
| Durability.TermsAreDurable | src/agents/recovery.py:119-121 | After any saves the stored terms are the last saved ones, in the order of their ids; none after an empty save. |
| Durability.TermOrder | src/db/repos.py:138-140 | Terms keep their order exactly if there are at most ten. |
| Durability.TermsAreRecovered | src/agents/recovery.py:119-121 | Up to ten last saved terms are recovered as they were, without contexts. |
| Durability.CitationsAreDurable | src/agents/recovery.py:125-127 | After any saves the stored citations are the last saved ones, in the order of their ids. |
| Durability.SummaryIsDurable | src/agents/recovery.py:116-118 | After any proper saves there is at most one summary per task and it is the last saved one. |
| Durability.SummaryIsRecovered | src/agents/recovery.py:116-118 | The last saved summary is recovered unchanged. |
| Durability.QuizIsDurable | src/agents/recovery.py:122-124 | After any proper saves there is at most one quiz per task and it is the last saved one. |
| Durability.QuizIsRecovered | src/agents/recovery.py:122-124 | The last saved quiz is recovered unchanged. |
| Durability.ChunksAreDurable | src/agents/recovery.py:113-115 | After any proper saves the stored chunks of an ingestion are those of its last save that had any, in the order of their ids. |
| Durability.ReloadedChunks | src/agents/recovery.py:113-115 | What is reloaded under the id of an ingestion are the chunks that it saved last, where transcribed chunks are of origin "audio" and recognised ones of origin "pdf_extracted" or "image". |
| Durability.ChunksAreRecovered | src/agents/recovery.py:113-115 | Chunks whose ids ascend are recovered as they were saved. |
| Durability.RecoverySucceeds | src/agents/recovery.py:110-128 | After any proper saves recovery succeeds for every task. |
| Durability.ReloadedWasSaved | src/agents/recovery.py:110-128 | Whatever is reloaded was saved before, for that operation of that task. |
| Restart.ResumeSendsOnlyMissing | src/agents/coordinator.py:154-176 | In any run after a resume only subtasks of the plan without a reloaded result are sent, and reloaded results stay. |
| Restart.JobNamesSubtask | src/agents/coordinator.py:236-241 | A content to be stored names by task and operation the subtask whose inform left it. |
| Restart.ReloadingIsACrash | src/agents/recovery.py:110-128 | Reloading from the tables is a crash step of the histories for which the outcome is proved independent of crashes. |
| Packing.Flush | src/adapters/whisper_transcriber.py:68-86 | A flush appends the chunk of the buffered group, or nothing for an empty buffer; stripping the joined text changes nothing. |
| Packing.SegmentsToChunks | src/adapters/whisper_transcriber.py:54-101 | The chunks, with ids, texts, starts and ends, are those of a greedy partition of the non-blank segments, for any target. |
| Packing.SpokenInOrder | src/adapters/whisper_transcriber.py:88-92 | The segments packed are those with a character that is no white space, stripped, in order. |
| Packing.StartOf | src/adapters/whisper_transcriber.py:88-101 | The start of a chunk is that of its first segment that has one. |
| Packing.EndOf | src/adapters/whisper_transcriber.py:88-101 | The end of a chunk is that of the last segment so far that has one, or zero. |
| Packing.ChunksAreLossless | src/adapters/whisper_transcriber.py:54-101 | Joined by blanks the chunks are the non-blank segments joined by blanks. |
| Packing.ChunksFit | src/adapters/whisper_transcriber.py:57-60 | A chunk is within the target unless it is one segment whole. |
| Packing.AllChunksFitIff | src/adapters/whisper_transcriber.py:57-60 | All chunks are within the target exactly if all non-blank segments are. |
| Packing.FewestGroups | src/adapters/whisper_transcriber.py:88-101 | No partition under the same rule has fewer chunks. |
| Terms.NearSymmetric | src/agents/terminology.py:76-105 | Being near-duplicates is symmetric. |
| Terms.NearDuplicateIff | src/agents/terminology.py:52-105 | Two lemmas are near-duplicates exactly if they agree in all words but the last and those are equal, or one stem of four letters or more with one Russian ending each, or one of them is the other, of four letters or more, with one or two endings. |
| Terms.NearIsNotTransitive | src/agents/terminology.py:64-73 | For every long enough stem and every ending it is not transitive. |
| Terms.GroupKeys | src/agents/terminology.py:126-134 | The nested loops map every lemma to the first leader that is the lemma or close to it. |
| Terms.MembersAreClose | src/agents/terminology.py:126-134 | Every lemma is its leader or close to it, and leaders lead themselves. |
| Terms.MembersNeedNotBeClose | src/agents/terminology.py:126-134 | For every long enough stem and every ending, two lemmas that are not close end up in one group. |
| Terms.GroupsAreApart | src/agents/terminology.py:126-134 | Different leaders are never near-duplicates. |
| Terms.Reduce | src/agents/terminology.py:145-154 | A group gives its most frequent lemma, ties by string order, the sum of its frequencies and the union of its chunks. |
| Terms.MergeNearDuplicates | src/agents/terminology.py:114-155 | The merged tables have one entry per group with those values and the first sighting of the representative, and keep the total frequency. |
| Terms.OneEntryPerGroup | src/agents/terminology.py:145-154 | Representatives of different entries belong to different groups. |
| Terms.TotalIsKept | src/agents/terminology.py:145-154 | Merging keeps the total frequency. |
| Terms.NoChunkLost | src/agents/terminology.py:145-154 | Merging keeps the set of all chunk ids. |
| Terms.Aggregate | src/agents/terminology.py:209-227 | The loop tabulates how often, where and where first each counted lemma occurs. |
| Terms.OccurrencesAre | src/agents/terminology.py:213-221 | Counted are exactly the candidates whose stripped lemma has two characters or more, is no stopword and holds no dotted initial. |
| Terms.FrequencyIsCount | src/agents/terminology.py:222-222 | The frequency of a lemma is the number of its occurrences. |
| Terms.FirstSeenIsFirst | src/agents/terminology.py:224-225 | The first sighting is that of the first occurrence. |
| Terms.OccurrencesAreConserved | src/agents/terminology.py:209-229 | From candidates to merged terms no occurrence is lost or counted twice. |
| Blocks.SplitIsLossless | src/agents/summarizer.py:132-134 | The blocks cut at the next block's start are the text exactly if the overlap is not negative or one block holds all. |
| Blocks.SplitCount | src/agents/summarizer.py:132-134 | There are as many blocks as steps needed to cover the text. |
| Blocks.ShortWindowsStayWhole | src/agents/summarizer.py:132-134 | Every window of at most one character more than the overlap lies whole in a block. |
| Blocks.LongerWindowsAreTorn | src/agents/summarizer.py:132-134 | That bound is exact. |
| Blocks.Summarize | src/agents/summarizer.py:105-130 | A short text is asked once; otherwise there is no summary exactly if every block is declined, one partial stands alone, and a declined reduction falls back to the first partial. |
| Blocks.UsableMeans | src/agents/summarizer.py:115-122 | No partial is left exactly if every block was declined. |
| Blocks.UsableInOrder | src/agents/summarizer.py:115-122 | The partials are the answers to the blocks that were not declined, in the order of the blocks. |
| Choices.DedupChoices | src/agents/test_generator.py:129-160 | The loop gives the first occurrences with remapped answers; open questions and empty choices are untouched. |
| Choices.DistinctIsDistinct | src/agents/test_generator.py:142-149 | The kept choices have the keys of all choices, each once. |
| Choices.AnswerStaysCorrect | src/agents/test_generator.py:150-150 | An index in range still points to a choice with the same key, one out of range is dropped. |
| Choices.AnswerKeysAreKept | src/agents/test_generator.py:151-158 | The correct keys are the same before and after, and the indices come out strictly ascending and in range. |
| Choices.DedupIsIdempotent | src/agents/test_generator.py:129-160 | Doing it twice changes nothing more. |
| Choices.WellFormedAfterDedup | src/core/schemas.py:103-116 | A choice question survives the check that follows exactly if it has two different choices and a usable answer. |
| Extraction.SelectLanguage | src/adapters/spacy_ner.py:67-77 | A text is English exactly if the positions of its letters A-Z and a-z are more than those of U+0400 to U+04FF. |
| Extraction.SpacyNerAdapter.EnsureNlp | src/adapters/spacy_ner.py:79-111 | Whatever the caches hold, a language gets its preferred model, else the other, else an error. |
| Extraction.SpacyNerAdapter.GroupByLanguage | src/adapters/spacy_ner.py:137-140 | The groups partition the positions by language, ascending. |
| Extraction.SpacyNerAdapter.Scatter | src/adapters/spacy_ner.py:158-162 | The documents of a group go to its positions in order, and no other slot changes. |
| Extraction.SpacyNerAdapter.ExtractGroup | src/adapters/spacy_ner.py:142-162 | Given a pointwise pipeline, the batch of a group fills its positions with what extraction from each text alone gives; a batch of the wrong length is an error. |
| Extraction.SpacyNerAdapter.ExtractMany | src/adapters/spacy_ner.py:127-163 | Given a pointwise pipeline, batched extraction is pointwise extraction, and fails exactly if a pointwise one would. |
| Extraction.AllSomeAt | src/adapters/spacy_ner.py:142-163 | A batch succeeds exactly if every item does, slot by slot. |

## Left out

- The message bus, sessions, HTTP routes, uploads, settings, logging and metrics other than the
  in-flight gauge: the bus is any list of messages per tick, the database is maps.
- Concurrency inside the process: submission, resumption and a tick are atomic steps. Results are
  stored after a tick; whether a result was stored before a crash is left open (`ReloadingIsACrash`).
- Failures of the store during finalization, and the retries of `_persist_result`: writes of statuses
  and artifacts succeed.
- Two submissions of one task id: the registry is assumed not to hold it, as in the code.
- Mapping.MakeChunkRows: an index that is a string of digits counts as an exception, although `int`
  converts it; the agents give numbers.
- Rendering of numbers, lists and objects by `str`: such values become a placeholder.
- Rounding of times and statistics, and the floating-point ranking of terms by frequency and idf.
- Column types, foreign keys and the collation of the database: rows hold the values they are given
  and ids are ordered by code points.
- Language models, speech and image recognition, spaCy and pydantic validation: oracles that answer,
  decline or reject.
- `str.lower` and the script tests of the regular expressions: lemmas and choice keys come lowered.
- Prompt texts, grounding of open questions, evaluation metrics, and the agents' message handling.
- The order of entries in the merged term tables, which are sorted afterwards, and of the members in a
  group: both are sets here.
- Rebuilding of a task from its row in `_task_from_row`, a field-by-field copy.
