# Durable turn runtime: model and proofs

Several stateless workers share one append-only event log per session, one leased job queue and one
sandbox. A worker can die, stall or be delivered the same job twice at any await. This project models
that runtime and proves, for every interleaving of any number of workers, that the log still reads as
if one worker had written it, that no command runs twice, and that whoever lost a race stands down.

## How it is built

| layer | files | what they hold |
|---|---|---|
| vocabulary | `Prelude`, `Events`, `Reducer` | events, payloads, keys, the pure reducer |
| log | `EventStore` | the event table, its conditional and transactional appends, page reads |
| sandbox | `OutputFiles`, `Tail`, `Wire`, `Sandbox` | a command's files over time, both tail loops and `runExec`, shell quoting and the poll envelope, the mkdir lock |
| native loop | `NativeProtocol`, `NativeSafety`, `NativeRuns`, `TurnBounds`, `Decisions`, `Sequential`, `NativeTheorems`, `RedeliveredTurn`, `TerminalDiscipline`, `AnsweredTurns`, `NativeStrategy` | the machine, its inductive invariant, run theorems, the imperative loop |
| transformation | `Conversation`, `ModelMessages`, `Pairing`, `Requests` | log to chat context to provider messages |
| harness | `HarnessProtocol`, `HarnessSafety`, `HarnessSteps`, `HarnessRuns`, `HarnessDiscipline`, `HarnessStrategy`, `Transcript` | fence, recovery, driver, commit, the fenced transcript |
| dispatch | `Queue`, `Sessions`, `SessionFates`, `SessionService`, `Worker` | leases and backoff, one active turn, what a session can still become, sending, provisioning, the pull loop |
| readers | `Sse` | replay-then-live streaming and the fan-out |
| configuration | `Canonical`, `Agents` | JSON comparison, version history |

Two machines (`NativeProtocol`, `HarnessProtocol`) give each delivery its own copy of the log and a
program counter, and let the API, the provisioner and the running commands act in between. Their
invariants are inductive, so the run theorems hold after any number of steps. The imperative classes
(`Runtime`, `Api`, `SseStream`, ...) are the code between the awaits: at each await they let any
schedule of other steps happen, and each of their own effects is one step of the machine.

Assumptions, stated as contracts or as the shape of a step:

- each SQL statement is atomic and a transaction's writes land together;
- a transaction whose callback returned does commit; otherwise the delivery counts as crashed
  (`harness-strategy.ts:88` and `:182` push to `events` before COMMIT);
- a conditional append may also commit and then fail to be acknowledged (`acked` is false);
- the harness driver returns only after its appends have settled, and reports errors only once it has
  unwound;
- `out` is final before `exit` appears, and `exit` is stamped once;
- attempt tokens are never reused (a delivery's token is its own number);
- the database clock does not go back (only the waiting times of the queue depend on it);
- job ids are unique, and JSON values are objects with each key once.

What the model found the code not to do is proved too, each time with the exact condition and a failing
case that starts from the beginning:

- A provision delivery that loses the seq race to a user message is acked as if another provisioner had
  won. From its creation on, any session can be stranded that way (`MessageStrandsSession`), or by a
  provision job whose deliveries all give up (`DeadLetterStrands`). A provisioning session can still become
  ready iff a provision job of it is not dead or a delivery can still win its close
  (`ReadyIsReachableIff`), and stays provisioning for good iff it is stranded (`StrandedIff`). After a lost
  close it is still provisioning iff it is not archived and its log holds only messages (`LostCloseIff`).
- Archiving is permanent iff no provision delivery that can still win is past its status check
  (`ArchiveIsPermanentIff`, `ArchiveIsUndone`); a session that came back cannot be archived again
  (`RevivedStaysOpen`).
- Two deliveries of one provision job can both append session_provisioned (`ProvisionedTwice`). The
  provisioner writes once iff every close that wins finds only messages in the log (`ProvisionedOnceIff`);
  looking at the status again inside the closing transaction would see to that
  (`RecheckedClosesProvisionOnce`). Terminal discipline holds of a native log, and of a harness log, iff the
  provisioner never writes right behind a terminal event (`TerminalDisciplineIff`, `HarnessDisciplineIff`);
  from its creation on a session can come to a log that breaks it (`TwoTerminals`), and so can a harness run
  (`TurnFailsTwice`).
- A turn that fails while the call of its last reply is pending leaves that call unanswered in every later
  context (`AskedOverAnOpenCall`). All calls of the context are answered iff no message was sent, and the log
  does not end, at such a point (`ContextIsAnsweredIff`).
- The resume tip is read before the fence. It still is the tip at the fence iff no main row landed in
  between, or the last one to land is of the same transcript (`TipIsCurrentIff`, `TipGoesStale`).
- A stale worker's ack deletes its successor's job (`StaleAckDropsTheSuccessorsJob`). A job stays live iff
  nobody acks it and no nack meets it with its attempts spent (`LiveUntilAckOrDeath`); an ack removes the
  acker's own claim iff the row's attempts still are the ones it was claimed with (`AckIsOwnIff`).
- The transcript's unique index leaves the project out while `load` looks by project
  (`AcceptedIsLoadedIff`, `SecondProjectHidesEntry`). The store accepts such writes; the driver's fixed
  working directory keeps them from arising.
- `jsonEq` under a comparator that ties distinct keys also compares the relative order of tied keys
  (`JsonEqIff`). It decides equality up to key order against every value iff no object of the value has two
  tied keys (`TieFreeIsExact`, `TiedKeysAreTold`).

## Model

| member | source | states |
|---|---|---|
| Store.ConditionalAppend | packages/sessions/src/store.ts:79-108 | a writer whose view is a prefix of the log and inserts at its last seq plus one wins exactly when the view is the whole log; a win extends the log by its event and keeps seqs dense from 1 |
| Store.TransactionalAppend | packages/sessions/src/store.ts:117-128 | a writer that computes last seq plus one from the table itself always wins, and the log grows by exactly its event |
| Store.DenseReadAll | packages/sessions/src/store.ts:35-50 | a dense table reads back as rows 1, 2, ..., n, so the last seq is the length of the log |
| Store.EventStore.AppendEvent | packages/sessions/src/store.ts:79-115 | conflict exactly when the seq is in use; otherwise the contents grow by the event; a conflict changes nothing |
| Store.EventStore.ReadPage | packages/sessions/src/store.ts:53-72 | the page is the slice of the log above the cursor, at most limit long, and hasMore says exactly whether the log goes on |
| OutputFiles.TimelineMonotone | packages/ports/sandbox/src/drivers/subprocess.ts:107-115 | whatever the running command does, a later look at its files extends an earlier one, and nothing changes once exit is stamped |
| Tail.SubprocessTail.Drain | packages/ports/sandbox/src/drivers/subprocess.ts:150-164 | one drain keeps the yielded bytes equal to the clipped prefix of `out` at the offset, skipping and repeating nothing |
| Tail.SubprocessTail.Run | packages/ports/sandbox/src/drivers/subprocess.ts:142-179 | for every interleaving of output and polling the events carry exactly the first min(n, 200000) bytes of the final n, then the stamped code, truncated iff n > 200000 |
| Tail.ComputeSdkTail.Run | packages/ports/sandbox/src/drivers/computesdk.ts:244-268 | the same report through the polled, base64-coded envelope, unless a poll failed and the sandbox was unobservable |
| Tail.RunExec | packages/sessions/src/exec.ts:21-47 | folds a stream into its report; a stream without an exit event is unobservable, never a zero exit |
| Wire.ShqRoundTrip | packages/ports/sandbox/src/drivers/computesdk.ts:296-298 | quote removal by sections 2.2.1 and 2.2.2 of the POSIX.1-2017 Shell Command Language reads shq(s) back as the one word s, whatever follows it |
| Wire.Base64RoundTrip | packages/ports/sandbox/src/drivers/computesdk.ts:291-293 | decoding by section 4 of RFC 4648 undoes encoding for every byte sequence |
| Wire.KnownEncodings | packages/ports/sandbox/src/drivers/computesdk.ts:291-293 | the encoding is that of RFC 4648: three test vectors of its section 10 |
| Wire.LastSymbols | packages/ports/sandbox/src/drivers/computesdk.ts:291-293 | the last two symbols of the alphabet are plus and slash |
| Wire.EnvelopeRoundTrip | packages/ports/sandbox/src/drivers/computesdk.ts:228-260 | the exit line, the size line and the line-wrapped base64 are read back exactly, for any padding and any wrapping width |
| NativeSafety.InvNext | packages/sessions/src/native-strategy.ts:71-120 | every step of every delivery, the API, the provisioner and the commands keeps the invariant: views are prefixes, seqs dense, directories and results belong to journaled calls, each row prescribed |
| NativeRuns.RunsKeepInv | packages/sessions/src/turn.ts:81-133 | the invariant holds in every reachable state, for any number of deliveries and crashes |
| NativeRuns.SpawnRunsJournaledCall | packages/ports/sandbox/src/drivers/subprocess.ts:65-73 | a spawn is the first under its key and runs the command of the assistant message already in the shared log at the key's seq |
| NativeRuns.ExactlyOnceEffects | packages/sessions/src/native-strategy.ts:108-117 | at any point of any run no key was spawned twice, each spawn ran the call logged at its key, and each tool_result reports that one spawn's output and exit code |
| NativeRuns.AppendWinsIffCurrent | packages/sessions/src/turn.ts:80-90 | an append changes the log exactly when its delivery has seen the whole log; one that does not is the delivery's last word |
| NativeRuns.StaleForever | packages/sessions/src/turn.ts:80-90 | a delivery whose view has fallen behind never changes the log again, in any continuation |
| NativeRuns.HistoryGrows | packages/sessions/src/store.ts:74-108 | over any stretch of a run the log and the history of spawns are append-only |
| NativeRuns.ExternalIsRecorded | packages/sessions/src/turn.ts:81-90 | a row counts as an outside event exactly when the API or the provisioner added it, and each step that adds one adds the message sent, the model's very words and call, the observed result under its key, or the end it came to |
| Sequential.ReachableLog | packages/sessions/src/reducer.ts:24-75 | in every reachable log each event is the one the reducer prescribes for the log before it, unless it is a user message, a provisioning event or an error-path failure |
| Sequential.CrashScheduleIsPrefix | packages/sessions/src/native-strategy.ts:78-119 | when replies depend only on the context and results only on the key, what any crash schedule has written since the last outside event is a prefix of the single-worker log |
| Sequential.FinishedSchedulesAgree | packages/sessions/src/native-strategy.ts:78-119 | two schedules that start from the same log and both finish have written the same log |
| TurnBounds.BudgetHolds | packages/sessions/src/reducer.ts:68-75 | at any prefix of a native log the turn has at most max_iterations replies and as many results, and undisturbed at most twice that and one events; a turn failed for its budget had all max_iterations replies and no call pending |
| TurnBounds.RemainingDecreases | packages/sessions/src/native-strategy.ts:78-119 | every reply or result the loop appends lowers a bounded measure, so the loop ends |
| NativeTheorems.TurnsStayInBudget | packages/sessions/src/reducer.ts:68-75 | the same at every point of every run, crashes and redeliveries included, both the bounds and that a spent budget was spent |
| Decisions.NextActionDecides | packages/sessions/src/reducer.ts:24-75 | the decision table over what stands in the log: nothing behind an end; a reply iff a message waits or the last call is served and fewer than max_iterations replies were made; a result iff one is owed; done iff the last reply made no call; failed iff served with the budget used up |
| Decisions.ThrowsIff | packages/sessions/src/reducer.ts:24-42 | the reducer throws exactly on an unfinished log with neither a message nor a reply |
| Decisions.ExecRunsTheLastCall | packages/sessions/src/reducer.ts:44-66 | the call to run is the turn's last reply's first call, keyed by that reply's place |
| Decisions.EveryRowIsRight | packages/sessions/src/native-strategy.ts:78-119 | in a native log every row of a worker, errors aside, is the one its log called for: a reply, a result, the completion or the budget failure exactly when the log says so |
| Decisions.RowsOfRunsAreRight | packages/sessions/src/native-strategy.ts:78-119 | the same at every point of every run |
| NativeTheorems.ModelSeesEveryAnswer | packages/sessions/src/reducer.ts:55-66 | whenever the model is asked, every call since the last user message has its result |
| NativeTheorems.ModelSeesPairs | packages/sessions/src/native-strategy.ts:37-66 | in every context handed to the model a tool message directly follows the assistant message whose call it answers |
| NativeTheorems.RequestsArePaired | packages/ports/llm/src/drivers/ai-sdk.ts:148-200 | in every provider request a result carries the id of the call right before it and no two calls share an id |
| TerminalDiscipline.TerminalDisciplineIff | packages/sessions/src/reducer.ts:29-33 | a message follows every terminal event of a native log, if anything does, iff the provisioner never writes right behind one |
| TerminalDiscipline.OneTerminalPerTurn | packages/sessions/src/provision.ts:46-58 | on a session whose closes each found only messages, a user message separates any two terminal events of a native log |
| TerminalDiscipline.TwoTerminals | packages/sessions/src/provision.ts:26-58 | from its creation on any session can come to a log, each row of it the reducer's or the provisioner's, in which a late session_provisioned lets one turn end twice |
| AnsweredTurns.EndedTurnIsAnsweredIff | packages/sessions/src/reducer.ts:44-74 | once a turn has ended all its calls have their results, unless it failed while the call of its last reply was pending; a completed turn and one out of budget never did |
| AnsweredTurns.AllAnsweredIff | packages/sessions/src/reducer.ts:44-66 | every call of the log has its result iff no message was sent, and the log does not end, while the call of the last reply was pending |
| AnsweredTurns.AnsweredInContextIff | packages/sessions/src/native-strategy.ts:37-66 | every call of the context is directly followed by a result iff every call of the log has its own |
| AnsweredTurns.ContextIsAnsweredIff | packages/sessions/src/native-strategy.ts:78-119 | the same condition decides it for the context at every point of every run |
| AnsweredTurns.AskedOverAnOpenCall | packages/sessions/src/turn.ts:150-166 | from the start on the model can come to be asked with an unanswered call in its context: the sandbox failed before the call ran, and another message followed |
| Pairing.ResultFollowsItsCall | packages/sessions/src/reducer.ts:44-66 | a result answers the last reply before it, for the first time, with nothing but bookkeeping in between |
| Pairing.RequestIsPaired | packages/ports/llm/src/drivers/ai-sdk.ts:160-185 | a result in the request names, with its own id, a call journaled in the log, and that call stands right before it |
| ModelMessages.CallIdsDistinct | packages/ports/llm/src/drivers/ai-sdk.ts:194-200 | although the mapping of characters loses information, distinct calls of one session keep distinct ids |
| ModelMessages.OpenIdIsNoCallId | packages/ports/llm/src/drivers/ai-sdk.ts:162-163 | the placeholder of an unanswered call is never the id of an answered one |
| ModelMessages.ToModelMessages | packages/ports/llm/src/drivers/ai-sdk.ts:148-192 | the request renders every chat message but the system's once, in order: the same words, the same call, the text of a call iff it has one, the very bytes of a result; the one system text becomes the instructions |
| ModelMessages.JoinSplits | packages/ports/llm/src/drivers/ai-sdk.ts:188-191 | joined system texts have a blank line between any two and nothing else added |
| Requests.PlainTextSplits | packages/sessions/src/events.ts:30-32 | the text of a message is all its blocks in order with nothing between them |
| Requests.RequestTellsTheLog | packages/ports/llm/src/drivers/ai-sdk.ts:148-192 | whatever the log, the request built from it relays every message, reply and result once, in order, with its words, call or bytes, and the system prompt as instructions |
| Requests.RequestFor | packages/sessions/src/native-strategy.ts:37-66 | the two loops one after the other send exactly that |
| Conversation.BuildContext | packages/sessions/src/native-strategy.ts:37-66 | the fold over the log equals the context function the pairing theorems are about |
| Conversation.ContextIsTheConversation | packages/sessions/src/native-strategy.ts:32-66 | behind the system prompt the context repeats every conversation event of the log, in order, once each, and nothing else |
| NativeStrategy.ReadMaxIterations | packages/sessions/src/turn.ts:199-202 | the budget is at least one: a positive integer policy value as it is, 20 for anything else |
| NativeStrategy.Runtime.Append | packages/sessions/src/turn.ts:81-90 | won: the view is one event longer; lost: the view is stale and the delivery gone; broken: the view is unchanged and the store is to blame |
| NativeStrategy.Runtime.RunKey | packages/ports/sandbox/src/drivers/subprocess.ts:52-75 | whoever makes the directory spawns, everyone reads; an observed result belongs to the key asked for |
| NativeStrategy.Runtime.Exec | packages/sessions/src/exec.ts:53-72 | an unreachable sandbox, and only that, is rebooted, at most once, and once its handle is saved the same key is tried again; a result seen belongs to that key; what is reported is what failed |
| NativeStrategy.Runtime.InferRound | packages/sessions/src/native-strategy.ts:94-107 | the model is asked once with the context of the view; its reply is journaled with its very words and call unless the append is lost or breaks, and its error is thrown as it is |
| NativeStrategy.Runtime.Run | packages/sessions/src/native-strategy.ts:72-120 | the loop terminates; done means completed now or ended in the log that was read, failed means out of budget, a thrown conflict a stale view, any other error one that was thrown |
| NativeStrategy.Runtime.MapError | packages/sessions/src/native-strategy.ts:122-133 | before the last attempt any error but a refusal of the model or a conflict yields retry_later and appends nothing; a recorded failure is the view's last event with the class of its error; on the last attempt retry_later only if the store failed |
| NativeStrategy.Runtime.RunTurn | packages/sessions/src/turn.ts:59-133 | abandoned exactly on the gate's conditions, retry_later without touching anything while provisioning; before the last attempt only a spent budget or a refusal of the model is recorded, on it a lost sandbox as SANDBOX_FATAL and a transient or other error as INTERNAL; completed means completed now or ended before |
| HarnessSteps.InvNext | packages/sessions/src/harness-strategy.ts:46-185 | every step of fence, recovery, driver, commit and commands keeps the invariant, with any number of deliveries and of calls in flight |
| HarnessRuns.RunsKeepInv | packages/sessions/src/harness-strategy.ts:46-185 | the invariant holds in every reachable state |
| HarnessRuns.NothingLandsAfterALaterFence | packages/sessions/src/harness-strategy.ts:74-93 | once another attempt has started after an attempt's own start, no text, call, result, commit or failure of that attempt ever lands again |
| HarnessRuns.RowsBelongToTheLastAttempt | packages/sessions/src/harness-strategy.ts:165-183 | between two fences only the first one's attempt, the API, the provisioner, or the failure of a delivery that never fenced has written |
| HarnessRuns.AuthorsAreTheAppenders | packages/sessions/src/turn.ts:81-90 | the recorded author of a row is the delivery whose step added it, and the row says what that step did: the fence its token and the transcript it resumes from, the driver its words and calls, the handler what was seen under its key, the commit how the turn ended |
| HarnessRuns.TokenIsTheLastFence | packages/sessions/src/harness-strategy.ts:77-89 | the session row's token always equals the token of the last attempt event, and no token starts twice |
| HarnessRuns.RecoveryIsComplete | packages/sessions/src/harness-strategy.ts:102-113 | whenever the driver starts, after any number of crashed attempts and open calls, every exec call since the last user message has exactly one tool_result under its own key |
| HarnessRuns.CommitLeavesNothingOpen | packages/sessions/src/harness-strategy.ts:163-184 | a turn whose driver returned with no exec in flight commits with every call answered exactly once |
| HarnessRuns.ExactlyOnceEffects | packages/ports/harness/src/drivers/claude-code.ts:252-268 | no key spawned twice, each spawn ran the journaled call, no key has two results, each result reports the one spawn |
| HarnessDiscipline.NoTurnWritesBehindAnEnd | packages/sessions/src/harness-strategy.ts:50-55 | in every reachable state each row behind a terminal event came from outside: no attempt, failure or new fence lands there |
| HarnessDiscipline.HarnessDisciplineIff | packages/sessions/src/harness-strategy.ts:50-55 | a message follows every terminal event, if anything does, iff the provisioner never wrote right behind one |
| HarnessDiscipline.OneEndPerTurn | packages/sessions/src/harness-strategy.ts:50-55 | on a session whose closes each found only messages, a user message separates any two terminal events of a harness log |
| HarnessDiscipline.TurnFailsTwice | packages/sessions/src/harness-strategy.ts:50-62 | from the start on a provisioning behind a failed turn can let the next delivery fail the turn again |
| HarnessRuns.StaleForever | packages/sessions/src/harness-strategy.ts:119-148 | a delivery, driver included, whose view has fallen behind never changes the log again |
| HarnessSafety.OutstandingSpec | packages/sessions/src/harness-strategy.ts:201-222 | what is collected is exactly the calls in range without a result in the turn |
| HarnessStrategy.UnansweredCalls | packages/sessions/src/harness-strategy.ts:201-222 | the scan lists exactly the unanswered calls of the turn, each once, in log order |
| HarnessStrategy.Runtime.DriverStep | packages/ports/harness/src/drivers/claude-code.ts:95-100 | the first error is kept, and a conflict or a lost fence is latched only by a delivery that has been overtaken |
| HarnessStrategy.OutrunIsStale | packages/ports/harness/src/drivers/claude-code.ts:230-239 | a delivery whose token was replaced has not seen the whole log, so standing down on a lost fence is right |
| HarnessStrategy.Runtime.HandleExec | packages/ports/harness/src/drivers/claude-code.ts:252-285 | a result is handed to the model only if the call was journaled after the view at entry and that result recorded after it; giving up means the latch is set and that there are unseen events, the store failed or the exec did |
| HarnessStrategy.Runtime.Recover | packages/sessions/src/harness-strategy.ts:98-113 | the results of the unanswered calls are appended in log order, each under its own key, and then every call of the turn is answered exactly once |
| HarnessStrategy.Runtime.AcquireFence | packages/sessions/src/harness-strategy.ts:69-93 | won: the token is this attempt's, its row names the tip that was read, and exactly the turn's unanswered calls are held; a conflict means unseen events, anything else is retried |
| HarnessStrategy.Runtime.CommitTurn | packages/sessions/src/harness-strategy.ts:163-184 | success ends the view in turn_completed, a budget stop in turn_failed, a lost race leaves a stale view |
| HarnessStrategy.Runtime.MapError | packages/sessions/src/harness-strategy.ts:187-192 | fence loss and conflict map to conflict; before the last attempt any other error but a permanent one yields retry_later and appends nothing; a recorded failure has the class of its error |
| HarnessStrategy.Runtime.RunTurn | packages/sessions/src/harness-strategy.ts:46-192 | before the last attempt only a spent budget, a permanent error or a missing driver is recorded, on it also a lost sandbox as SANDBOX_FATAL and a transient or other error as INTERNAL; completed means nothing to do in the log that was read, or completed now behind the row of this attempt with the resume tip it was given; the last attempt yields retry_later only if the store failed |
| HarnessStrategy.Runtime.Exec | packages/sessions/src/exec.ts:53-72 | one reboot of an unreachable sandbox and then a second try under the same key, for the harness exec |
| Transcript.WriteKeepsValid | packages/ports/harness/src/drivers/claude-code-store.ts:47-62 | a guarded batch keeps rows in fence order and never adds a row of a superseded attempt |
| Transcript.DrizzleSessionStore.Append | packages/ports/harness/src/drivers/claude-code-store.ts:47-81 | a normal return has landed, in order, exactly the entries nobody had stored under their uuid, those without a uuid always; the fence error comes only when another attempt took over; a writer already superseded lands nothing and is told |
| Transcript.InsertLands | packages/ports/harness/src/drivers/claude-code-store.ts:47-66 | a batch adds exactly its rows that match no row in the table or earlier in the batch on session, subpath and uuid, in order; a row without a uuid always |
| Transcript.LoadSelects | packages/ports/harness/src/drivers/claude-code-store.ts:83-91 | load returns whole exactly the rows under the same project, session and subpath, in order |
| Transcript.LoadIsFirstSeen | packages/ports/harness/src/drivers/claude-code-store.ts:83-91 | whatever was delivered again, the uuid'd entries load once each in first-seen order |
| Transcript.FirstSeenPicks | packages/ports/harness/src/drivers/claude-code-store.ts:57-61 | first-seen order means: exactly the positions that bring a new uuid, in order |
| Transcript.PicksAgree | packages/ports/harness/src/drivers/claude-code-store.ts:83-91 | that description determines the loaded sequence uniquely |
| Transcript.RetriesLoadTheSame | packages/ports/harness/src/drivers/claude-code-store.ts:47-62 | any pattern of re-delivered batches loads the same as each batch delivered once |
| Transcript.AcceptedIsLoadedIff | packages/ports/harness/src/drivers/claude-code-store.ts:122-128 | an accepted entry is loaded under its key iff its uuid was new to the transcript or first stored under the same project |
| Transcript.SecondProjectHidesEntry | packages/ports/harness/src/drivers/claude-code-store.ts:47-62 | one entry written under two projects of one transcript is accepted both times and loaded under the first only |
| Transcript.TipIsNewestWriter | packages/ports/harness/src/drivers/claude-code-store.ts:134-152 | the resume tip names the transcript of the newest attempt that wrote a main row |
| Transcript.TipIsCurrentIff | packages/sessions/src/harness-strategy.ts:75-93 | the tip read before the fence is still the tip at it iff the last main row written in between, if any, is of the same transcript |
| Transcript.TipGoesStale | packages/sessions/src/harness-strategy.ts:75-93 | from the empty table two writes between which the tip was read leave it behind |
| Queue.DeadStaysDead | packages/sessions/src/queue.ts:107-119 | over any operations by anyone a dead job is never queued or running again |
| Queue.AttemptsCountClaims | packages/sessions/src/queue.ts:67-81 | attempts rise by exactly one per claim and by nothing else |
| Queue.LiveUntilAckOrDeath | packages/sessions/src/queue.ts:102-119 | a live job stays live iff nobody acks it and no nack meets it with its attempts spent |
| Queue.AckIsOwnIff | packages/sessions/src/queue.ts:102-105 | the row an acker deletes is its own claim, not a successor's, iff its attempts still equal the claim's |
| Queue.StaleAckDropsTheSuccessorsJob | apps/worker/src/worker.ts:149-152 | a concrete run in which the first claimant's late ack removes the row its successor runs under |
| Queue.LeaseIsExclusive | packages/sessions/src/queue.ts:94-100 | a claim stays exclusive while heartbeats come within a lease and nobody acks or nacks it |
| Queue.ClaimIsExclusive | packages/sessions/src/queue.ts:59-100 | from the claim on nobody else claims the job while heartbeats come within a minute of each other |
| Queue.SilentClaimIsFree | packages/sessions/src/queue.ts:59-80 | a claim without a heartbeat is free again exactly when more than a minute has passed |
| Queue.NackedJobWaits | packages/sessions/src/queue.ts:110-119 | in every run whose clock does not go back a nacked job is claimed no earlier than 2^attempts seconds later, whoever nacks it again meanwhile |
| Queue.BackoffIsBounded | packages/sessions/src/queue.ts:110-119 | whatever mix of nacks and expiries, the backoff of a new job sums to at most 2^max_attempts - 2 seconds |
| Queue.AllNacked | packages/sessions/src/queue.ts:110-119 | the bound is reached when every claim is nacked, and then the job is dead |
| Queue.JobQueue.Pull | packages/sessions/src/queue.ts:59-92 | none iff no unlocked row is queued with its run_at reached or running with its lease past; otherwise the one of these due first is claimed: running, leased for 60 s, one more attempt, everything else as it was |
| Queue.JobQueue.Nack | packages/sessions/src/queue.ts:110-119 | other rows untouched, attempts unchanged, the lease cleared; dead iff the attempts are spent, otherwise due again 2^attempts seconds from now |
| Queue.JobQueue.HasActiveTurn | packages/sessions/src/queue.ts:123-138 | while one turn job at most is active, enqueueing one more keeps that true iff the answer is no |
| Sessions.NeverTwoActiveTurns | packages/sessions/src/service.ts:205-250 | over all sends, claims, heartbeats, nacks, acks and expiries a session never has two queued-or-running turn jobs |
| Sessions.GatedTurnsAreComplete | packages/sessions/src/turn.ts:68-78 | every turn past the gate has a user message, a provisioned sandbox and its handle, and the reducer throws neither on what it reads nor on anything that log grows into |
| SessionFates.ReadyIsReachableIff | packages/sessions/src/provision.ts:17-64 | a provisioning session can become ready iff some provision job of it is not dead or some provision delivery can still win its close |
| SessionFates.StrandedIff | packages/sessions/src/provision.ts:17-64 | a provisioning session stays provisioning until archived iff it is stranded: no live provision job and no delivery that may yet write |
| SessionFates.LostCloseIff | packages/sessions/src/provision.ts:46-61 | after a lost close the session is still provisioning iff it is not archived and its log holds only messages, and then a message took the seq |
| SessionFates.MessageStrandsSession | packages/sessions/src/provision.ts:46-61 | from its creation on any session can be stranded by a message between the provisioner's read and its insert |
| SessionFates.DeadLetterStrands | packages/sessions/src/provision.ts:76-93 | from its creation on a session can be stranded by a provision job that ends dead because every delivery of it gave up, for any max_attempts |
| SessionFates.ArchiveIsPermanentIff | packages/sessions/src/service.ts:185-199 | archiving is permanent iff no provision delivery that can still win its seq is past its status check |
| SessionFates.ArchiveIsUndone | packages/sessions/src/provision.ts:46-51 | from its creation on a session can be archived under a provision delivery and become ready all the same |
| SessionFates.RevivedStaysOpen | packages/sessions/src/service.ts:185-199 | a session that came back from the archive is never archived again, for archived_at is already set |
| SessionFates.ProvisionedTwice | packages/sessions/src/provision.ts:26-58 | from its creation on two deliveries of one provision job can both append session_provisioned |
| SessionFates.SecondProvisionedIff | packages/sessions/src/provision.ts:46-58 | a second session_provisioned is exactly a successful close that finds its seq free in a log that has one |
| SessionFates.ProvisionedOnceIff | packages/sessions/src/provision.ts:46-95 | the provisioner has written once, before any turn, iff every close that won found only messages in the log |
| SessionFates.RecheckedClosesProvisionOnce | packages/sessions/src/provision.ts:46-51 | closes that only go on while the status is provisioning write once |
| SessionService.Api.SendMessage | packages/sessions/src/service.ts:205-250 | the message and its queued job land together, on a session that is provisioning or ready, and it is the only live turn job; otherwise no job was added, and a lost seq took two other events |
| SessionService.Api.RunProvision | packages/sessions/src/provision.ts:17-64 | completed means no longer provisioning; only a missing environment, a sandbox that stays down or a failed transaction makes it retry or, on the last attempt, end log and session with the failure; after a lost race another event landed and the session is still provisioning iff it is not archived and its log holds only messages |
| SessionService.Api.Close | packages/sessions/src/provision.ts:46-58 | status, handle and event land together or not at all |
| SessionService.Api.Settle | apps/worker/src/worker.ts:139-161 | the outcome table: finished, failed, abandoned and lost work is acked, the rest nacked, a killed worker does nothing, and one active turn is kept |
| Worker.Worker.Stop | apps/worker/src/worker.ts:194-200 | no more claims, nothing left in flight, and unless killed every running job was settled |
| Worker.Worker.Round | apps/worker/src/worker.ts:167-190 | claims only below the concurrency limit and never while draining; every claim is running, settled or left to expire, in exactly one way |
| Worker.Worker.Finish | apps/worker/src/worker.ts:133-165 | an ended job is settled once by its outcome, or left to its lease when the worker was killed; conflicts are counted |
| Sse.SseStream.Flush | apps/api/src/sse.ts:115-129 | afterwards the client has every event that was in the log at the start, and every event notified since unless a wake-up is pending |
| Sse.SseStream.WaitForWakeOrTimeout | apps/api/src/sse.ts:131-148 | the stream parks only when it has caught up with every notification it ever got |
| Sse.SseStream.Happens | apps/api/src/sse.ts:94-113 | a notification at any await either resolves the wait or is remembered |
| Sse.SseStream.Run | apps/api/src/sse.ts:86-167 | the client gets exactly the log events above its start cursor, in order, once each, across any paging and concurrent appends |
| Sse.PayloadNamesSession | apps/api/src/sse.ts:27-31 | the session id is read back from the notification's payload when it has no colon |
| Sse.EventBus.Notify | apps/api/src/sse.ts:27-42 | a notification wakes exactly the current subscribers of its session |
| Sse.EventBus.Unsubscribe | apps/api/src/sse.ts:48-61 | removes one subscriber, leaves all others, and keeps no empty entry |
| Canonical.JsonEqIff | packages/configs/src/util.ts:5-19 | under any total preorder on keys and an injective printer, jsonEq holds iff two values differ by key order only and tied keys keep their relative order, at any depth |
| Canonical.JsonEqDecides | packages/configs/src/util.ts:5-19 | if either value has no tied keys, jsonEq holds iff they differ by key order only, at any depth |
| Canonical.TieFreeIsExact | packages/configs/src/util.ts:9-19 | jsonEq decides that against every other value iff no object of this one has two tied keys |
| Canonical.SameIsEquivalence | packages/configs/src/util.ts:4-7 | differing by key order only is an equivalence, whatever the comparator |
| Canonical.TiedKeysAreTold | packages/configs/src/util.ts:12-16 | a comparator that ties two different keys makes jsonEq reject values that differ by key order only |
| Agents.HistoryIsImmutable | packages/configs/src/service.ts:123-179 | after any creates, updates and archives versions are exactly 1..latest and no minted version ever changes |
| Agents.LatestIsTheFold | packages/configs/src/service.ts:148-160 | the latest version is the first one with every behaviour patch applied in order |
| Agents.FoldTakesTheLast | packages/configs/src/service.ts:153-159 | each field of a fold is the last value set for it, an explicit null included, or the first version's |
| Agents.PinResolvesForever | packages/sessions/src/service.ts:287-317 | a session's pinned version resolves, after any later edits, to the content it was minted with |
| Agents.AgentsService.ResolveIdempotentCreate | packages/configs/src/service.ts:72-88 | a replayed create is accepted iff the agent matches the input up to key order, tied keys in their order; without tied keys in the input, iff it matches up to key order |
| Agents.AgentsService.Create | packages/configs/src/service.ts:30-70 | inserts version 1 with exactly the input, omitted policies and metadata empty, or compares with the agent as it stands, also after losing a race for the id |
| Agents.AgentsService.Update | packages/configs/src/service.ts:123-179 | refused on a missing or archived agent; otherwise every field the patch sets is set and every other keeps its value, in the identity row and in the latest version, which is a new one iff a behaviour field is set; no other agent and no minted version changes |
| Agents.AgentsService.ResolveAgent | packages/sessions/src/service.ts:287-317 | a pin names a minted version of an unarchived agent: the latest now, or the one asked for |
| Agents.AgentsService.PinAndRead | packages/configs/src/service.ts:226-239 | a pin taken now reads, after whatever others edit meanwhile, as what the version held when it was taken |

## Left out

- The React console, HTTP routes, edge validation, authentication, configuration and metrics text: I/O or one-branch code.
- The model SDKs, the Claude subprocess, Docker, E2B and Postgres internals: only their contracts appear, as nondeterministic replies, polls and atomic statements.
- The prompt handed to the harness driver (user text or continuation), token usage and failure message texts are not part of any payload here.
- Output agreement is per byte: each chunk is decoded as UTF-8 on its own in the original, and that decoding is not modelled.
- The worker-side timeout timer of `subprocess.ts:123-136`: the exit code is taken as stamped once.
- A spawn is at most once, not guaranteed: a death between mkdir and spawn leaves readers polling, and no lemma says otherwise.
- Path containment and network policies.
- One session per machine: the namespace and session columns that scope every query are left out of the log, the sandbox and the two turn machines; the queue and the transcript keep their session column.
- In the two turn machines the API and the provisioner may append at any time and in any number; `Sessions` models when they really may. The two are not composed into one machine; `TerminalDiscipline` and `HarnessDiscipline` join them on the log.
- The Claude driver does not await its text appends before returning; the model takes the port's word that appends have settled.
- The transcript's `delete` and `listSubkeys`, the queue's `depth`, listing and paging of agents and sessions, and session `create` (the same idempotent-create shape as agents, with the same `jsonEq`).
- Retry and backoff inside the LLM client: its reply or its error class is all the loop sees.
- HarnessRuns.CommitLeavesNothingOpen: asks that no exec be in flight at the commit, as the port promises; the machine itself also allows a commit with execs running.
- HarnessStrategy.Runtime.CommitTurn: a commit whose transaction fails after its row became durable is treated as a crash of the delivery, not as an error it maps.
- Sse.SseStream.Run: watched for any finite number of rounds and for logs that stop growing while one flush drains them; a client that never disconnects is an endless loop in the original.
- NativeStrategy.Runtime.TailKey: polls finitely often and then counts as unobservable; the original polls until the sandbox fails.
- Worker.Worker.Run: watched for any finite number of rounds of the pull loop.
- Canonical.JsonEqIff: numbers are integers, which print injectively, and entries stand in the order JavaScript enumerates them; that `Object.fromEntries` lists integer-like keys first again changes no answer, since both inputs already do.
- Transcript.RetriesLoadTheSame: speaks of entries with a uuid; an entry without one is stored again on every re-delivery (`InsertLands`).
