# Elasticclaw: verified core

A Dafny model of the parts of Elasticclaw where a mistake loses or repeats an agent's work, with
proofs of what those parts promise. Elasticclaw runs coding agents in sandboxes: a bridge in each
sandbox talks to the agent's gateway and to a hub, and the hub watches over every sandbox.

`dafny verify dfyconfig.toml` checks everything.

| modules | what they model |
|---|---|
| `Wrappers` | an optional value and a sequence without one element |
| `ControlStore`, `ControlProtocol` | the bridge's durable inbox and outbox over a duplicating link: table statements, the cancellation registry, and the threads of connections and executions as a state machine whose tables survive crashes |
| `ControlSafety`, `ControlOutcome`, `ControlReport`, `ControlCancel`, `ControlRecovery`, `ControlOutbox`, `ControlProgress` | what holds over all its runs: starts and events, the event that goes with each outcome and how the turn ended, exactly which executions a cancel frame stops, what a restart fails and starts again, what the outbox says of a message, and that frames reach their turns and executions end |
| `MsgQueue`, `QueueRuns`, `QueueLosses`, `QueueOrder`, `MessageDedup` | the queue of entries the hub could not take, with eviction, expiry, replay and the turn counter; every run of it with other goroutines in between; which inputs are lost and what notices say of them; the order of replies, notices and recovery edges; the window of known message ids |
| `SendMessage` | one message to the gateway: the retry loop, recovery of accepted turns and what the hub is told about the session |
| `ToolCalls` | pairing starts and ends of tool calls |
| `BridgeErrorPause`, `PauseRuns` | the pause after repeated bridge errors and its budgeted automatic lifts |
| `IdleResume` | one automatic prompt for each idle stretch |
| `ClawRetry`, `RetryRuns`, `RetryCheckpoint` | replacing a failed sandbox: the transaction, all runs of it, the choice of a checkpoint |
| `Governors` | these three recovery mechanisms together, with the resets they share |
| `YamlTree`, `YamlNodes`, `YamlMask`, `YamlRoundTrip` | masking secrets in a configuration tree and restoring them: on trees, in place on node objects, exactly what a mask hides, and what both guarantee together |
| `BusinessTime` | working time between two instants |
| `CheckpointCreate`, `CheckpointRestore`, `RestorePaths`, `RestoreRuns` | making a checkpoint of files that change meanwhile, restoring one, where its paths lead, and all runs of restores with crashes and edits |
| `ActivityCollapse` | collapsing bursts of log messages |

How the model is built. Objects the program updates in place are classes whose methods are
proved equal to a function of the old state; the promises are lemmas about those functions,
stated in the fields, texts and numbers of the program rather than by those functions.
Goroutines, crashes and the other side of a connection are steps of a state machine, a database
statement or transaction is one step, and a result holds for every sequence of steps. Where the
code may fail or the environment may answer in several ways, the answer is a parameter of the
step.

Some promises hold only under a condition, and for each the condition is proved exact or a run
that breaks it is given: the idle prompt is once per stretch if and only if re-seeded turn times
are at most the slack too late; a round trip through masking needs unique keys; business time is
additive unless the split is at the absent instant; entries reach the hub in order unless one is
queued behind a replay that fails; a cancel frame reaches an execution if and only if that has
registered and was not superseded; a terminal stop settles its attempt unless its transaction or
event fails or a pull request is open; a failed replacement does so only if, besides, the claw is
no longer in error; a restore that crashed can be finished if and only if every file it writes is
writable by its owner; a pause that the hub's recovery never lifts is lifted by any new material,
not by a person alone. In two places the code does less than it sets out to, and the model
follows the code: a comment says that an edge must be replayed before its empty reply
(cmd/claw-bridge/main.go:245-247), which a reply queued during a failing replay breaks; and a
replacement that fails is sent down the terminal path (pkg/hub/claw_retry.go:311-314), which skips
a claw that still is in error. The promise that a cancellation frame read after an assignment
finds its task (cmd/claw-bridge/control_v2.go:557-559) is made for agent tasks and kept; commands
(cmd/claw-bridge/exec_tasks.go:51-67) do not keep it.

## Model

| member | source | states |
|---|---|---|
| `ControlStore.BridgeControlStore.RecordIncomingRow` | cmd/claw-bridge/control_v2.go:128-143 | a known message id is reported as a duplicate and leaves the inbox row, its status included, as it is; a new one is stored as accepted |
| `ControlStore.BridgeControlStore.SetIncomingStatusRow` | cmd/claw-bridge/control_v2.go:145-154 | compare-and-set of an inbox status between any two statuses: it takes effect and reports so exactly when the row has the expected one, and a forward move keeps the table's history |
| `ControlStore.BridgeControlStore.EnqueueRow` | cmd/claw-bridge/control_v2.go:179-190 | an outbox row is inserted as pending and due at once; an id that is taken changes nothing and is no error |
| `ControlStore.BridgeControlStore.MarkSentRow` | cmd/claw-bridge/control_v2.go:218-223 | postpones the next attempt of an unacknowledged message only |
| `ControlStore.BridgeControlStore.AcknowledgeRow` | cmd/claw-bridge/control_v2.go:225-244 | the first receipt closes an open message; any other receipt is refused and changes nothing |
| `ControlStore.ReadyIsExact` | cmd/claw-bridge/control_v2.go:192-216 | the ready query lists due unacknowledged rows of the binding only, in order of creation and id, as many as fit the limit, and a due row it leaves out comes after all it lists |
| `ControlStore.OrderedIsUnique` | cmd/claw-bridge/control_v2.go:156-177 | the order of the inbox and outbox queries determines their result |
| `ControlStore.EnqueuedAreListedInOrder` | cmd/claw-bridge/control_v2.go:179-216 | messages of one binding that are enqueued one after another, with nothing else of it due, are due at once and listed in the order they were enqueued, up to the limit |
| `ControlStore.AcknowledgedIsNeverListed` | cmd/claw-bridge/control_v2.go:192-244 | whatever is done to the tables later, an acknowledged message is never listed again |
| `ControlOutbox.OutboxSaysWhatHappened` | cmd/claw-bridge/control_v2.go:179-244 | over every run with crashes an outbox row says when its message was enqueued, when it was last sent and which receipt was read for it first; so a message is due on its binding if and only if no receipt came back and it was not sent in the last five seconds |
| `ControlStore.ExtendsTransitive` | cmd/claw-bridge/control_v2.go:128-244 | the forward-only relation between table states composes over any number of statements |
| `ControlProtocol.ActiveTasks.RegisterTaskCancellation` | cmd/claw-bridge/control_v2.go:806-813 | installs a fresh cancellation for a task, replacing an older one, under the step the protocol uses |
| `ControlProtocol.ActiveTasks.LeaveTask` | cmd/claw-bridge/control_v2.go:580-584 | an execution that ends cancels its own context and removes its entry, never one that a later execution installed |
| `ControlProtocol.ActiveTasks.CancelTaskById` | cmd/claw-bridge/control_v2.go:797-804 | cancels exactly the execution currently registered for the task |
| `ControlProtocol.ActiveTasks.CancelAllTasks` | cmd/claw-bridge/control_v2.go:824-834 | the loop cancels exactly the registered executions |
| `ControlProtocol.ActiveTasks.ClaimRecoveryOf` | cmd/claw-bridge/control_v2.go:705-713 | only the first claim of a binding in a process recovers it |
| `ControlSafety.RunExtends` | cmd/claw-bridge/control_v2.go:128-244 | over every continuation of every run, with crashes, no row is lost, envelopes never change, inbox statuses only move forward and acknowledgements with their receipts are absorbing |
| `ControlSafety.StartsAtMostOnce` | cmd/claw-bridge/control_v2.go:533-540 | over every run with duplicate frames, reconnects, binding switches, recoveries and crashes, each assignment starts its turn or command at most once |
| `ControlProgress.FrameIsStoredExactlyWhen` | cmd/claw-bridge/control_v2.go:485-549 | a frame is stored as accepted if and only if it is valid, new, of the connection's binding and of a kind the bridge knows; any other changes nothing |
| `ControlProgress.AssignmentReachesItsTurn` | cmd/claw-bridge/control_v2.go:557-622 | in every reachable state a new assignment read by an idle connection reaches its turn in six steps: an execution of its own that the registry finds, its row running, and for an agent task the started event and the heartbeat in the outbox |
| `ControlProgress.EveryExecutionLeaves` | cmd/claw-bridge/control_v2.go:577-643 | from every reachable state, whichever statements fail, an execution is gone after seven steps of its own, its context cancelled and its registration, and no other, removed |
| `ControlProgress.EndedConnectionsStayGone` | cmd/claw-bridge/control_v2.go:421-452 | a receipt that cannot be written, a receipt read for no open message or a hang-up ends the connection for the rest of the run and nothing else: no execution is launched for an unwritten receipt |
| `ControlOutcome.TerminalEventIsDurable` | cmd/claw-bridge/control_v2.go:625-652 | at every point of every run an assignment marked completed or failed has an event of its task and binding in the outbox that fits the outcome: completed or failed of its own kind for a command, completed exactly for a completed agent task and failed exactly for a failed one |
| `ControlReport.OutcomeIsReported` | cmd/claw-bridge/exec_tasks.go:69-101 | over every run: the terminal event that an execution stored is the completed kind of its assignment if and only if its turn or command ended in success and the failed kind otherwise; a row is completed or failed as its turn ended, a command's completed whenever it ran, unless a recovery pass failed the agent task |
| `ControlReport.EndedTurnIsReported` | cmd/claw-bridge/control_v2.go:624-652 | from every reachable state a turn or command that ends is reported by three steps of its execution with the event that says how it ended, and settles its row unless recovery has done so |
| `ControlSafety.TerminalEventsBounded` | cmd/claw-bridge/control_v2.go:673-688 | the terminal events of an assignment number at most one by its execution plus one for each recovery pass that found it running, and those passes at most one more than the crashes; a command, which recovery skips, has at most one |
| `ControlSafety.PassesBoundedByProcesses` | cmd/claw-bridge/control_v2.go:705-713 | over every run the recovery passes of a binding never outnumber the processes, which are one more than the crashes |
| `ControlCancel.CancelledExactlyWhen` | cmd/claw-bridge/control_v2.go:557-584 | over every continuation of every run, while an execution has not left, its context is cancelled if and only if it was before or a cancel frame of its task, a suspend or a terminate was accepted while it was the registration of its task; no other execution's end or registration cancels it |
| `ControlCancel.CancelReachesExactly` | cmd/claw-bridge/exec_tasks.go:51-67 | an accepted cancel frame reaches a queued or running execution of its task, command or agent turn, if and only if that has registered and has not been superseded; one it misses is not cancelled before it leaves unless a further cancel, suspend or terminate frame comes |
| `ControlCancel.CancelReachesLatest` | cmd/claw-bridge/control_v2.go:560-575 | a cancel frame cancels the execution last registered for its task id unless that execution has already left |
| `ControlCancel.CancelAfterAssignment` | cmd/claw-bridge/control_v2.go:557-584 | in every run, a cancel frame read after an agent assignment of the same task finds that assignment's execution cancelled, left or superseded |
| `ControlCancel.CancelAfterRegistration` | cmd/claw-bridge/exec_tasks.go:60-65 | a cancel frame read any time after a command has registered finds it or its successor, or that one has left |
| `ControlCancel.RegistryHoldsTheLatest` | cmd/claw-bridge/control_v2.go:557-591 | in every reachable state each registration is that of one running execution of its task, and a running execution that registered last for its task is the one that is held |
| `ControlRecovery.RecoveryStartsEveryAccepted` | cmd/claw-bridge/control_v2.go:690-702 | a recovery that can read the accepted rows launches a new execution for every accepted agent assignment of the binding, whatever steps of other threads come in between: without a crash each is either still on its list or launched since the query |
| `ControlRecovery.PassStartsNext` | cmd/claw-bridge/control_v2.go:696-705 | one step of the pass launches and registers the next agent task of its list or passes over a command, and changes no row |
| `ControlRecovery.RecoveryFailsEveryInterrupted` | cmd/claw-bridge/control_v2.go:677-692 | a pass whose query succeeds gets to every agent task of its binding that was running: at any later point without a crash it is still to do or its failure event was stored, unless that statement failed |
| `ControlRecovery.PassFailsNext` | cmd/claw-bridge/control_v2.go:645-692 | two steps of the pass deal with the next entry whichever statements fail: an agent task gets its failure event and, if it still runs, is failed; a command is left alone |
| `ControlRecovery.RecoveryGoesByArrival` | cmd/claw-bridge/control_v2.go:156-177 | the lists of a pass are in the order in which the frames arrived, in whichever process |
| `ControlCancel.CommandCancelCanBeMissed` | cmd/claw-bridge/exec_tasks.go:51-67 | a run in which a cancel frame precedes the registration of a command, which then runs uncancelled: agent tasks register before launch, commands do not |
| `ControlRecovery.CrashDuplicatesTerminalEvent` | cmd/claw-bridge/control_v2.go:641-648 | a run with one crash between storing the terminal event and updating the status: the next process finds the finished task running and emits a second event |
| `ControlRecovery.FoundWithoutCrash` | cmd/claw-bridge/control_v2.go:705-713 | a run without a crash in which the recovering connection queries after another connection of its binding has started the task: the running task is found once and gets two events |
| `ControlRecovery.BoundIsTight` | cmd/claw-bridge/control_v2.go:673-688 | for every number of crashes n a run in which recovery finds an assignment 1 + n times and 2 + n terminal events exist: both bounds are reached |
| `MsgQueue.MessageQueue.EnqueueLocked` | cmd/claw-bridge/main.go:216-228 | on overflow the oldest input, and nothing else, makes room and is counted as dropped and as no longer active; otherwise the queue grows |
| `MsgQueue.MessageQueue.PushInput` | cmd/claw-bridge/main.go:231-236 | a queued input is counted as active |
| `MsgQueue.MessageQueue.PushReply` | cmd/claw-bridge/main.go:239-243 | a reply is appended whatever the length of the queue |
| `MsgQueue.MessageQueue.PushControl` | cmd/claw-bridge/main.go:245-252 | a recovery edge is appended whatever the length of the queue |
| `MsgQueue.MessageQueue.Drain` | cmd/claw-bridge/main.go:265-291 | the loop hands out every entry but expired inputs in order, behind one notice that counts all inputs lost so far, and empties the queue |
| `MsgQueue.MessageQueue.ReplayQueued` | cmd/claw-bridge/main.go:296-314 | an undisturbed replay hands each input to a turn, delivers what can be written, and leaves exactly the other entries in their order, with the turn counter unchanged but for expired inputs |
| `QueueRuns.LiveExactly` | cmd/claw-bridge/main.go:265-278 | a drain hands on exactly the entries that are not inputs of ten minutes or more |
| `QueueRuns.InputsExactlyOnce` | cmd/claw-bridge/main.go:206-314 | in every reachable state each queued input is in exactly one place: waiting, drained, handed to a turn once, or lost |
| `QueueRuns.LossesAreReported` | cmd/claw-bridge/main.go:280-289 | the inputs that expired or were evicted are those the notices report and the next notice will |
| `QueueRuns.NothingElseIsLost` | cmd/claw-bridge/main.go:238-314 | no reply, notice or recovery edge is dropped or duplicated in any run |
| `QueueRuns.TurnCounterIsExact` | cmd/claw-bridge/main.go:5524-5550 | the turn counter always is queued inputs plus drained inputs plus running turns, so it never is negative and is zero exactly when nothing is pending; the queue holds at most 256 entries or at most one input |
| `QueueLosses.LostExactlyWhen` | cmd/claw-bridge/main.go:228-289 | a step loses a waiting input if and only if it puts an entry into a queue of 256 and this is its oldest input, or it drains the queue and the input is ten minutes old |
| `QueueLosses.NoticesQuoteLosses` | cmd/claw-bridge/main.go:212-289 | in every reachable state each notice quotes in order the first ten of the inputs lost since the notice before it, by their first sixty characters, and counts them all; the next one will do so for those lost since |
| `QueueLosses.ReplayIsItsSteps` | cmd/claw-bridge/main.go:291-314 | the replay loop's result is what the reconnect and its single steps come to in the runs when nothing is queued in between |
| `QueueOrder.InOrderExactlyUnlessOvertaken` | cmd/claw-bridge/main.go:245-314 | with lasting write failures the replies, edges and notices are delivered and wait in the order they were queued, each notice in front of all that was undelivered when it was made, exactly when none was queued behind a replay that lost its connection; the same for replies and edges alone |
| `QueueOrder.DeliveredInOrder` | cmd/claw-bridge/main.go:262-314 | then what has been delivered is a prefix of that order |
| `QueueOrder.EdgeStaysAhead` | cmd/claw-bridge/main.go:245-252 | then every edge queued before a delivered reply was delivered before it |
| `QueueOrder.UndisturbedKeepsOrder` | cmd/claw-bridge/main.go:296-314 | the order of all entries but inputs holds in every run that queues no reply or edge during a replay |
| `QueueOrder.EdgeCanFallBehind` | cmd/claw-bridge/main.go:3024-3065 | a run in which the edge of a turn is in a replay when its reply is queued and ends up behind it |
| `MessageDedup.MessageDeduper.Seen` | cmd/claw-bridge/main.go:187-203 | an id is reported as seen exactly when it is in the window; otherwise it enters it and the oldest of more than 128 leaves |
| `MessageDedup.WindowIsRecent` | cmd/claw-bridge/main.go:178-203 | over any stream the window is the last 128 ids taken |
| `MessageDedup.TakenTwiceOnlyFarApart` | cmd/claw-bridge/main.go:178-203 | an id is taken twice only with at least 128 others in between |
| `SendMessage.SendMessage` | cmd/claw-bridge/main.go:3080-3264 | the loop makes the sends and ends with the outcome of the step-by-step specification, whatever the environment answers |
| `SendMessage.RecoverAcceptedTurn` | cmd/claw-bridge/main.go:3151-3228 | an accepted turn that failed ends as the specification of the recovery says; AcceptedTurnEnds and PreservedExactlyWhen say what that is |
| `SendMessage.ProbeLoop` | cmd/claw-bridge/main.go:3181-3206 | the probes stop at the first decisive answer among at most four |
| `SendMessage.AcceptedTurnEnds` | cmd/claw-bridge/main.go:3151-3228 | whatever came before, a send whose accepted turn failed ends the call: with the plain error, preserved, rotated with the reason that fits or failed, as lock conflict, deadline, abort, key check, the first decisive probe of four and the fresh session decide |
| `SendMessage.PreservedExactlyWhen` | cmd/claw-bridge/main.go:3175-3206 | a session is preserved if and only if the last accepted turn failed by lock conflict with the key unchanged at the check, or by deadline with the abort successful, and one of at most four probes was answered with the turn's key before and after, all earlier ones unexpired, unanswered and with that key |
| `SendMessage.ResentExactlyWhen` | cmd/claw-bridge/main.go:3108-3150 | a failed send is followed by another if and only if its request was rejected for a model failure in the first two attempts, for a closed gateway not yet reconnected by this call, or for a session conflict met less than five times, and the caller did not cancel; or once in a fresh session for an overflow or a rejected transcript |
| `SendMessage.RefusedEnds` | cmd/claw-bridge/main.go:3228-3264 | how a call ends whose request was refused and is not resent: cancelled, failed recovery, rotated for the lock conflict or the plain error |
| `SendMessage.BusyIsAskedFiveTimes` | cmd/claw-bridge/main.go:3145-3150 | a session that keeps refusing the turn is asked exactly five times and then given up |
| `SendMessage.AtMostOneAccepted` | cmd/claw-bridge/main.go:3108-3150 | every send but the last failed at the request; unless an unanswered request is mistaken for a rejection, none of them may have been accepted, so no accepted or possibly accepted turn is replayed |
| `SendMessage.ReplyIsTheLastAnswer` | cmd/claw-bridge/main.go:3108-3114 | the caller gets a reply exactly when the last send was answered with one |
| `SendMessage.SendsBounded` | cmd/claw-bridge/main.go:3098-3150 | at most nine sends, plus one for each time another goroutine had reconnected the gateway |
| `SendMessage.OthersKeepItSending` | cmd/claw-bridge/main.go:3123-3144 | that exception has no bound: the call keeps sending as long as others reconnect |
| `SendMessage.RotationNamesTheLostSession` | cmd/claw-bridge/main.go:3208-3242 | a session is given up only with the last send made on it, with the reason that fits: an accepted turn that failed, or a request that met five conflicts |
| `SendMessage.PreservedWasProbed` | cmd/claw-bridge/main.go:3181-3206 | a session counts as preserved only after a probe it answered with its key unchanged before and after |
| `SendMessage.IntactMeansTheSameSession` | cmd/claw-bridge/main.go:2990-3002 | the hub is told that history is intact only for the session on which the accepted turn failed by lock conflict or deadline, which a probe reached and which is still current |
| `SendMessage.HubIsToldExactly` | cmd/claw-bridge/main.go:2990-3002 | the hub is told that the session is intact exactly when it was preserved and still is the current one, that it is lost exactly when it was given up or replaced since, and nothing otherwise |
| `ToolCalls.InFlightState.FindEarliest` | cmd/claw-bridge/main.go:1053-1066 | the scan finds an open call of the signature that started no later than any other, or that there is none |
| `ToolCalls.InFlightState.ResolveToolCall` | cmd/claw-bridge/main.go:1036-1083 | one event opens, adopts or closes a call exactly as its id, signature and phase say |
| `ToolCalls.ClosesAtMostOne` | cmd/claw-bridge/main.go:1053-1083 | over a turn each event closes at most one call, only a terminal event does, with the time since that call's start, and one without an id closes the earliest of its signature |
| `ToolCalls.OpenExactlyWhen` | cmd/claw-bridge/main.go:1036-1083 | over a turn a call is open if and only if it was started and has not ended since, counting each event for the id it came with or was given; it holds the time and signature of the start that opened it, and an event that closes no call is passed on unchanged but for its id |
| `ToolCalls.SynthesizedInjective` | cmd/claw-bridge/main.go:1071-1072 | a synthesized id determines its signature and number |
| `ToolCalls.SynthesizedIdsNeverRepeat` | cmd/claw-bridge/main.go:1071-1072 | synthesized ids never repeat within a turn, whatever ids other events carry |
| `ToolCalls.AtMostOneOpenWithoutIds` | cmd/claw-bridge/main.go:1045-1073 | with events without ids only, at most one call of each signature is open, the one synthesized last |
| `BridgeErrorPause.ClawConn.ObserveGatewayHealth` | pkg/hub/bridge_error.go:130-139 | the healthy stamp is kept through a healthy run and dropped by any unhealthy report |
| `BridgeErrorPause.HubPause.PauseAutomaticContinuation` | pkg/hub/no_progress.go:299-340 | only an unpaused claw is paused, and only if the statement succeeds; the live connection then gets the kind and a fresh health window |
| `BridgeErrorPause.HubPause.MaybeLiftBridgeErrorPause` | pkg/hub/bridge_error.go:188-280 | one lift attempt, with any of its statements failing: the row decides, the budget is spent with the lift, a failed update lifts nothing, and a spent budget drops the kind so that the pause is not tried again |
| `BridgeErrorPause.HubPause.ObserveBridgeErrorTurn` | pkg/hub/bridge_error.go:282-390 | a failed turn counts when definite, pauses at its threshold if the statement succeeds, and a provider pause is lifted at once within its budget; PausesExactlyAtThreshold gives the threshold and the kind |
| `PauseRuns.LiftsAreBudgeted` | pkg/hub/bridge_error.go:166-186 | within one unit of work, in any mix of errors, pauses, human messages and reconnects, at most two gateway, three model transport and five lifts in all; the lift at position n is of a kind whose limit exceeds n |
| `PauseRuns.LiftsFollowHealth` | pkg/hub/bridge_error.go:141-164 | a gateway lift follows three minutes, a model transport lift at position n one, three or ten minutes of unbroken healthy heartbeats seen since the pause on that connection |
| `PauseRuns.PausesExactlyAtThreshold` | pkg/hub/bridge_error.go:282-345 | over every run a failed turn decides to pause if and only if the claw runs and it is the second definite failure in a row, or a definite one of a provider that is only temporarily unable; the kind is model transport if the text matches it, else provider, else gateway connectivity, else none |
| `PauseRuns.FirstFailureIsForgiven` | pkg/hub/bridge_error.go:282-345 | over every run the first failed turn after an authored turn, an input or a new connection pauses only for a provider that failed for certain |
| `PauseRuns.PauseRecoversIn` | pkg/hub/bridge_error.go:141-186 | over every run, after the failure that pauses an idle claw, healthy heartbeats lift the pause if and only if it is a model transport one after one, three or ten minutes with less than three lifts spent, a gateway one after three minutes with less than two, or a provider one with less than five |
| `PauseRuns.PauseOutlivesConnection` | pkg/hub/bridge_error.go:141-186 | the same holds when the connection that paused was replaced by another in between |
| `PauseRuns.KindsBelongToPauses` | pkg/hub/no_progress.go:299-340 | in every reachable state a kind, stored or known to the connection, belongs to a pause |
| `PauseRuns.SpentPauseIsGivenUp` | pkg/hub/bridge_error.go:237-280 | with the budget spent, an attempt to lift gives a model transport or provider pause up for this connection, also in the next unit of work, while a gateway pause is lifted there |
| `PauseRuns.SandboxLiftsExactlyTagged` | pkg/hub/claw_retry.go:507-565 | a new sandbox lifts every pause with a kind and no other |
| `PauseRuns.LiftsOverallBounded` | pkg/hub/bridge_error.go:166-186 | lifts number at most five for each unit of work over the life of a claw |
| `PauseRuns.UntaggedPauseNeedsMaterial` | pkg/hub/no_progress.go:118-140 | a pause without a kind holds through every heartbeat, lift attempt, reconnect, stage change, replaced sandbox and bookkeeping note of the hub, and is lifted if and only if a person writes, an event outside the hub is reported or the hub writes in the user's role, and the update succeeds |
| `PauseRuns.WatchdogPausesForGood` | pkg/hub/no_progress.go:299-340 | over every run a watchdog pause whose statement succeeds takes hold of row and connection and stays until new material arrives |
| `PauseRuns.LiftsExactlyWhen` | pkg/hub/bridge_error.go:188-252 | a lift happens if and only if row and connection hold the same tagged pause, the budget of its kind is not spent, the health and idleness it asks for are there and the statements it needs succeed |
| `PauseRuns.HealthyRunIsHealthy` | pkg/hub/bridge_error.go:130-139 | the window a lift relies on is the longest unbroken healthy run |
| `IdleResume.IdleWatch.CheckAgentIdleResume` | pkg/hub/agent_idle.go:511-618 | one tick latches before it prompts; it prompts exactly when the specification latches, and parks stretches that predate the feature; PromptsExactlyWhen says when |
| `IdleResume.PromptsExactlyWhen` | pkg/hub/agent_idle.go:511-618 | one tick latches a prompt if and only if the feature is on, no turn runs or may run unseen, nobody paused the claw, it has been idle for the threshold, the stretch was not handled, fewer than ten prompts are spent, the claw is eligible, the stretch began after the baseline and the statement succeeds; what any tick does to the row |
| `IdleResume.NoPromptDuringTurn` | pkg/hub/agent_idle.go:521-532 | from a turn's begin until it ends, is aborted or the claw connects anew, no prompt is latched and nothing but a reset changes the row |
| `IdleResume.BeginsSilence` | pkg/hub/agent_idle.go:521-545 | a turn that begins and a pause that is set lead into the states from which these results speak |
| `IdleResume.NoPromptWhilePaused` | pkg/hub/agent_idle.go:533-545 | likewise while the claw is paused |
| `IdleResume.NoPromptWhileDisabled` | pkg/hub/agent_idle.go:511-520 | likewise while the feature is off |
| `IdleResume.NoPromptWhileBlind` | pkg/hub/agent_idle.go:521-545 | likewise within seventy minutes of a connection as long as no turn was seen to end |
| `IdleResume.ReconnectDuringTurnIsBlind` | pkg/hub/server.go:2970-2985 | a connection that takes over while a turn runs is blind in this sense, whatever was seen before |
| `IdleResume.AbortAndReconnectKeepTurns` | pkg/hub/server.go:2970-2985 | an aborted turn leaves no trace, and what a connection record knows of the last turn is not overridden by a seed when the claw connects again |
| `IdleResume.OncePerStretch` | pkg/hub/agent_idle.go:596-606 | no idle stretch is prompted twice across turns, aborted turns, reconnects, hub restarts and crashes between latch and prompt, if re-seeded turn times are at most a minute too late |
| `IdleResume.OnceExactlyWithinSlack` | pkg/hub/agent_idle.go:96 | the promise holds for all runs if and only if the drift is at most the slack; how much too early a re-seeded time is does not matter |
| `IdleResume.LateSeedPromptsTwice` | pkg/hub/agent_idle.go:564-569 | a run with a larger drift that prompts one stretch twice |
| `IdleResume.LaterTurnRearms` | pkg/hub/agent_idle.go:564-580 | a turn that ends after the last latch re-arms the recovery: the next stretch long enough is prompted unless the budget is spent or it predates the feature |
| `IdleResume.PromptsBounded` | pkg/hub/agent_idle.go:412-470 | the stored counter is exactly the prompts latched in this unit of work, at most ten; parking spends nothing |
| `ClawRetry.RetryStore.PrepareClawRetryOnce` | pkg/hub/claw_retry.go:155-259 | the transaction fails the current attempt, puts the claw in error and creates the next attempt, or, at whichever statement it fails, does nothing |
| `ClawRetry.RetryStore.PrepareClawRetry` | pkg/hub/claw_retry.go:139-153 | a busy database is tried at most three times |
| `ClawRetry.RetryStore.StopAgentWithReason` | pkg/hub/pipeline_runner.go:2563-2574 | the decision is asked for at most three times, and the terminal path, with whatever fails on it, is taken when nothing was scheduled or handled |
| `ClawRetry.RetryStore.FinishClawTerminal` | pkg/hub/terminal_transitions.go:36-115 | two tries; a claw that is gone, deleted or in error is left alone, any other ends in error unless both tries fail |
| `ClawRetry.RetryStore.StopAgentTerminal` | pkg/hub/pipeline_runner.go:2590-2636 | a stop whose transaction failed or found nothing to end records nothing; otherwise the stop event is stored unless that fails, which is only logged |
| `ClawRetry.RetryStore.RecordAgentStopped` | pkg/hub/task_run_analytics.go:1111-1122 | storing the event writes the status that follows from the run's events and pull requests to the current attempt: an open pull request keeps it running, a merged or closed one makes it succeed |
| `ClawRetry.DoneIsDeterminate` | pkg/hub/claw_retry.go:139-153 | a transaction that ends without an error has decided |
| `RetryRuns.RetriesAreBounded` | pkg/hub/claw_retry.go:190-259 | over every run attempts are numbered 1 to at most 3, all but the current have failed, and at most two replacements are scheduled, each resetting the claw at most once |
| `RetryRuns.OnlyCurrentRuns` | pkg/hub/claw_retry.go:200-241 | at most one attempt runs, the current one |
| `RetryRuns.SecondDetectorConsumesNothing` | pkg/hub/claw_retry.go:136-138 | while a claw in error waits for its replacement no further detector or terminal stop consumes an attempt |
| `RetryRuns.ScheduledExactlyWhen` | pkg/hub/claw_retry.go:155-212 | over every run a retryable failure schedules a replacement if and only if the claw is provisioned for a run, has neither ended nor failed, its attempt runs, fewer than three were made and no statement fails; without a fault it is answered as handled exactly when the claw is gone or in error |
| `RetryRuns.StopSchedulesExactlyWhen` | pkg/hub/claw_retry.go:139-281 | a stop call schedules a replacement if and only if the failure is retryable, the claw may be replaced and one of the evaluations gets through, a busy database being tried again within it and any other fault leaving it to the next |
| `RetryRuns.EventDecidesAttempt` | pkg/hub/task_run_analytics.go:1182-1201 | over every run an event leaves the current attempt succeeded exactly for a complete run that needs no pull request or one with none open and one merged or closed, failed exactly for an excluded run or a reported failure without any of that, and running otherwise |
| `RetryRuns.SuccessIsKept` | pkg/hub/task_run_analytics.go:1182-1201 | an attempt that has succeeded stays so over every sequence of detectors, stops, replacements and restarts until an event is stored |
| `RetryRuns.StopEndsClaw` | pkg/hub/terminal_transitions.go:36-68 | over every run a terminal stop ends a claw that has not ended unless its transaction fails twice, and consumes no attempt |
| `RetryRuns.ReplacementResetsOrSettles` | pkg/hub/claw_retry.go:358-375 | after its backoff a replacement resets the claw exactly when it is in error or offline, and otherwise settles the attempt it was made for and no other |
| `RetryRuns.StopConsumesAtMostOne` | pkg/hub/claw_retry.go:268-281 | one stop call consumes one attempt exactly when it schedules a replacement, whatever fails in the database; the claw has ended afterwards if and only if it had before, a replacement is scheduled or the terminal transaction succeeds in one of two tries |
| `RetryRuns.StopSettlesExactlyWhen` | pkg/hub/task_run_analytics.go:1181-1195 | a stop that schedules nothing settles a running attempt if and only if the claw had not ended, the terminal transaction succeeds, the event is stored and no open pull request keeps the run waiting for its merge; it is then failed unless the run is complete without a pull request or had one merged or closed |
| `RetryRuns.OpenPRKeepsAttemptRunning` | pkg/hub/task_run_analytics.go:1188-1189 | the run that shows it: with an open pull request the attempt of a stopped claw goes on running whatever happens in the database |
| `RetryRuns.FailedReplacementSettlesExactlyWhen` | pkg/hub/claw_retry.go:303-316 | a replacement that fails before the reset settles the successor attempt if and only if the claw is no longer in error or deleted, the terminal transaction succeeds, the event is stored and no pull request is open |
| `RetryRuns.FailedReplacementLeavesAttemptRunning` | pkg/hub/terminal_transitions.go:36-68 | the run that shows it: the terminal stop skips a claw in error, and no later detector or stop settles the attempt |
| `RetryCheckpoint.ClawProgressedPastBootstrap` | pkg/hub/claw_retry.go:474-505 | a pull request, a ready checkpoint that is no bootstrap one, or a later stage count as progress |
| `RetryCheckpoint.Candidates` | pkg/hub/claw_retry.go:434-454 | the query's rows: ready ones with a manifest, newest first |
| `RetryCheckpoint.SelectRetryCheckpoint` | pkg/hub/claw_retry.go:434-469 | picks the newest checkpoint that is ready, has a manifest and a root tree and was not the one tried before, leaving bootstrap checkpoints out unless the claw has no pull request, no other ready checkpoint and no later stage; none is picked only if there is none |
| `Governors.AutomationIsBounded` | pkg/hub/claw_retry.go:545-552 | replacements, lifts and prompts together: with the resets they share, at most two replacements, five lifts for each stage and replacement and ten prompts for each stage, replacement and lost session |
| `Governors.ResetsReachAll` | pkg/hub/claw_retry.go:507-565 | over every run a replacement lifts a pause that has a kind and puts lifts, latch and prompts back to zero, and a new stage gives back the lifts and the prompts only |
| `YamlNodes.YamlNode.MaskSensitiveYAMLValues` | pkg/hub/ai_config.go:948-973 | masking rewrites the nodes in place to the masked tree and adds no node |
| `YamlNodes.YamlNode.MaskValue` | pkg/hub/ai_config.go:975-983 | a masked node is the plain scalar ***, whatever it was |
| `YamlMask.MaskHidesExactly` | pkg/hub/ai_config.go:936-973 | two configurations look the same when masked if and only if they differ in nothing but the values of the nine sensitive fields and the values in maps named secrets, wherever these stand |
| `YamlMask.HiddenReadsAsStars` | pkg/hub/ai_config.go:948-983 | every hidden value reads as a plain ***, in maps of secrets under its own name |
| `YamlNodes.YamlNode.Clone` | pkg/hub/ai_config.go:1221-1235 | a clone is an equal tree made of new nodes only |
| `YamlNodes.YamlNode.MappingNodeScalarValue` | pkg/hub/ai_config.go:1179-1191 | the first scalar stored under the key |
| `YamlNodes.YamlNode.SequenceItemIdentity` | pkg/hub/ai_config.go:1160-1177 | name, app id or workspace with integration identify an item, in this order, when not empty |
| `YamlNodes.FindMatchingSequenceIndex` | pkg/hub/ai_config.go:1135-1158 | the first unused disk item of the same identity, or for an item without one its own unused position |
| `YamlNodes.YamlNode.MergeMaskedSecretsNode` | pkg/hub/ai_config.go:1079-1133 | restoring rewrites the proposed nodes in place to the merged tree, adds only new nodes and leaves the disk tree alone |
| `YamlNodes.YamlNode.MergeMaskedSecretMap` | pkg/hub/ai_config.go:1193-1215 | masked values of a secrets map are replaced by clones of the disk values of the same keys |
| `YamlNodes.ValuesByKey` | pkg/hub/ai_config.go:1107-1112 | the values of a mapping by key, the last one for a repeated key |
| `YamlRoundTrip.MaskKeepsIdentity` | pkg/hub/ai_config.go:1160-1177 | masking does not change the identity of a sequence item |
| `YamlRoundTrip.SameIdentityExactly` | pkg/hub/ai_config.go:1160-1177 | two identified items share an identity if and only if they share their name, their app id or the text of workspace and integration |
| `YamlRoundTrip.WorkspaceTextsCollide` | pkg/hub/ai_config.go:1170-1175 | for every workspace and integration: a proposed item whose workspace is named like the two together is matched to their item on disk and gets its secret |
| `YamlRoundTrip.MatchingIsSound` | pkg/hub/ai_config.go:1093-1158 | for arbitrary trees matching is injective, an identified item is matched only to a disk item of its identity and any other only to its own position |
| `YamlRoundTrip.MatchStep` | pkg/hub/ai_config.go:1097-1104 | the choice for item i sees exactly the choices before it as used |
| `YamlRoundTrip.RoundTrip` | pkg/hub/ai_config.go:1052-1133 | merging the masked tree with the original rebuilds the original exactly, for every tree with unique keys, also with repeated identities in a list |
| `YamlRoundTrip.RestoreSurvivesReordering` | pkg/hub/ai_config.go:1135-1158 | a list that was masked, then reordered and cut, gets every remaining item's own secrets back when items that share an identity have kept their order, with the later ones cut, and items without one their position |
| `YamlRoundTrip.MatchedExactly` | pkg/hub/ai_config.go:1093-1158 | that is the exact condition for every remaining item to be matched to where it came from |
| `YamlRoundTrip.DistinctAreInTurn` | pkg/hub/ai_config.go:1135-1158 | items with distinct identities meet it under every reordering and removal |
| `YamlRoundTrip.SwappedSecrets` | pkg/hub/ai_config.go:1135-1158 | two items of one identity that changed places are restored from each other |
| `YamlRoundTrip.RestoreOnlyFillsMasks` | pkg/hub/ai_config.go:1079-1133 | for arbitrary trees a restore changes nothing but *** values under sensitive keys or in a secrets map |
| `YamlRoundTrip.RestoreIsHidden` | pkg/hub/ai_config.go:948-973 | masking a restored tree gives the masked proposal: a restore shows nothing new |
| `YamlRoundTrip.FillingIsHidden` | pkg/hub/ai_config.go:948-973 | trees that differ in filled masks only are masked alike |
| `YamlRoundTrip.UnmatchedIsUnchanged` | pkg/hub/ai_config.go:1079-1133 | without a disk counterpart nothing is changed |
| `YamlRoundTrip.MaskIdempotent` | pkg/hub/ai_config.go:948-973 | masking twice is masking once |
| `YamlRoundTrip.RepeatedKeyRoundTrip` | pkg/hub/ai_config.go:1107-1112 | for a mapping that repeats a sensitive key the round trip holds if and only if both values are equal |
| `BusinessTime.DurationMs` | pkg/hub/business_time.go:23-59 | the day-by-day loop returns, for present bounds, the number of working milliseconds between them, for any calendar with days of varying length |
| `BusinessTime.AnyWorkday` | pkg/hub/business_time.go:61-68 | some weekday is a workday |
| `BusinessTime.DayWorkingMs` | pkg/hub/business_time.go:44-56 | clipping to a day's window counts the working milliseconds of that day |
| `BusinessTime.DurationLaws` | pkg/hub/business_time.go:20-59 | additive over a split point, monotone in both bounds, between zero and the elapsed time |
| `BusinessTime.SplitAtZero` | pkg/hub/business_time.go:23-26 | a split at the absent instant zero is right if and only if nothing is to be counted |
| `BusinessTime.AllWorking` | pkg/hub/business_time.go:44-56 | the whole span counts if and only if every millisecond of it is working time |
| `BusinessTime.NothingWorking` | pkg/hub/business_time.go:44-56 | nothing counts if and only if no millisecond is working time |
| `BusinessTime.UtcDay` | pkg/hub/business_time.go:44-82 | on a calendar of equal days a part of a day counts for what it shares with the opening hours, and for nothing on a day that is no workday; which date is which weekday is given by a table, and hours until 24:00 last to the end of the day |
| `BusinessTime.RoundTheClock` | pkg/hub/business_time.go:44-82 | hours from 0:00 to 24:00 on every day count all of the time on any calendar whose days begin at 0:00, days of 23 and 25 hours included |
| `BusinessTime.ElapsedWithoutHours` | pkg/hub/business_time.go:27-29 | without a zone, workdays or hours that open before they close all of the elapsed time counts |
| `BusinessTime.UtcCalendarIsOk` | pkg/hub/business_time.go:74-82 | a calendar of equal days meets the assumptions |
| `CheckpointRestore.Home.OverlayCheckpointFile` | cmd/claw-bridge/checkpoint_restore.go:105-121 | a file that exists and lacks its owner's write bit cannot be opened and stays as it is; otherwise opening, writing and changing the mode leave it with the given content and mode |
| `CheckpointRestore.Home.RestoreStagedCheckpoint` | cmd/claw-bridge/checkpoint_restore.go:22-103 | an uninterrupted restore writes and counts every restorable file in order and removes the marker, exactly when each entry in turn is not refused and finds a file it can open or none; otherwise it stops at the first that fails, the ones before it restored; without a marker it does nothing |
| `CheckpointRestore.SucceedsExactly` | cmd/claw-bridge/checkpoint_restore.go:48-121 | it succeeds if and only if no file is refused, every target that exists is writable by its owner, and no entry that makes its file read-only is followed by another for the same file |
| `RestorePaths.EntryIsRestoredExactly` | cmd/claw-bridge/checkpoint_restore.go:48-121 | an entry is refused if and only if it belongs to one of the two directories and its staged file is missing, or regular with a path that leads out of the directory, if only in between; it is passed over if and only if it belongs elsewhere or is not regular; all else is written with its content and permissions, 0644 if it has none, to a path that leads into its directory |
| `RestorePaths.CutAtSlashes` | cmd/claw-bridge/checkpoint_restore.go:106-108 | the names of a path are what stands between its slashes |
| `RestoreRuns.CrashesDoNotMatter` | cmd/claw-bridge/checkpoint_restore.go:48-95 | after any number of crashes, also inside a write, and any edits between bootstraps, the step that removes the marker leaves every target as one uninterrupted restore makes it and every other path as the edits left it |
| `RestoreRuns.OthersUntouched` | cmd/claw-bridge/checkpoint_restore.go:48-90 | a file the manifest does not name is at every moment as the edits left it |
| `RestoreRuns.NothingAfterTheMarker` | cmd/claw-bridge/checkpoint_restore.go:22-30 | after the marker is gone, over every later sequence of bootstraps, crashes and edits, the edits alone change the home directory: no bootstrap undoes one, and the marker does not come back |
| `RestoreRuns.OneGoodRunFinishes` | cmd/claw-bridge/checkpoint_restore.go:22-121 | from any disk, one uninterrupted bootstrap, whatever its writes take, can remove the marker if and only if no file is refused, every target on that disk is writable by its owner and no entry that makes its file read-only is followed by another for the same file |
| `RestoreRuns.EveryDiskCanBeFinished` | cmd/claw-bridge/checkpoint_restore.go:105-121 | every disk that crashes and edits can leave can be finished by one uninterrupted bootstrap, in all runs whose edits leave no target read-only, if and only if no file is refused and every file to be written has its owner's write bit in the manifest and, where it exists, in the home directory at first |
| `RestoreRuns.CrashBehindReadOnly` | cmd/claw-bridge/checkpoint_restore.go:112-120 | the run that shows it: a crash right after an entry has made its file read-only leaves the marker for ever, over all later bootstraps, crashes and edits that leave that file alone |
| `RestoreRuns.ReadOnlyBlocks` | cmd/claw-bridge/checkpoint_restore.go:112-115 | the same for any read-only file that an entry has to write, wherever it comes from |
| `CheckpointCreate.HubStore.Put` | cmd/claw-bridge/checkpoint.go:338-359 | a body whose hash differs from the announced one is refused |
| `CheckpointCreate.CreateCheckpointAttempt` | cmd/claw-bridge/checkpoint.go:64-139 | an attempt completes if and only if the plan and completion requests work and every blob the hub asks for is the tree or a collected file that can be read, has the same hash when hashed again and when sent, and whose request works; it reports a change if and only if the first upload that fails does so by its content; a completed one leaves the manifest with every blob stored, any other leaves the manifest as it was |
| `CheckpointCreate.CreateCheckpoint` | cmd/claw-bridge/checkpoint.go:55-62 | a checkpoint is made if and only if the first attempt completes, or it meets a changed file and the second completes on the blobs the first has left; a changed file is the only reason for the second |
| `CheckpointCreate.UploadBlob` | cmd/claw-bridge/checkpoint.go:95-128 | one upload works, or fails by a changed content, exactly under the conditions the attempt is judged by, and stores the bytes that were sent |
| `CheckpointCreate.CompletesExactlyUnchanged` | cmd/claw-bridge/checkpoint.go:95-138 | when nothing else fails, an attempt completes if and only if no file changes between its hashings and its upload, and otherwise reports the change; without a change none is ever reported |
| `CheckpointCreate.MissingBlobs` | cmd/claw-bridge/checkpoint.go:91-94 | the hub asks for the tree and each collected hash it lacks, once and in order; MissingExactly says which these are |
| `CheckpointCreate.MissingExactly` | cmd/claw-bridge/checkpoint.go:91-94 | the hub asks for a hash if and only if it is in the plan and not stored |
| `CheckpointCreate.FindBlob` | cmd/claw-bridge/checkpoint.go:99-102 | an upload is known exactly when a collected file has its hash |
| `CheckpointCreate.LabelLeadsBack` | cmd/claw-bridge/checkpoint.go:146-154 | a label leads back to the path it was made from, and is restored exactly for workspace and agent files |
| `CheckpointCreate.RestoreBringsBack` | cmd/claw-bridge/checkpoint.go:95-128 | a restore of a completed checkpoint that succeeds brings every workspace and agent file back to the content that was collected and touches nothing else |
| `CheckpointCreate.ManifestGivesSizes` | cmd/claw-bridge/checkpoint.go:289-297 | the manifest's sizes are those of the stored blobs, which are what a restore writes |
| `CheckpointCreate.CompletedIsRestorable` | cmd/claw-bridge/checkpoint_restore.go:48-90 | no file of a completed checkpoint is refused by a restore |
| `CheckpointCreate.CompletedCanBeFinished` | cmd/claw-bridge/checkpoint.go:289-297 | one restore of a completed checkpoint succeeds if and only if every workspace and agent file it finds is writable; it can be finished after every run of crashes if and only if, besides, every such file was writable when it was collected |
| `ActivityCollapse.PrintCollapsedActivityMessages` | cmd/workflow.go:959-1002 | the loop prints one line for each group with the number of messages it stands for |
| `ActivityCollapse.GroupsPartition` | cmd/workflow.go:959-1030 | the groups are consecutive, in order and cover the log once; each message is about the same thing as the printed one and a prefix of it, the first of the longest; a message that starts a group is about something else than the line before, or neither text begins with the other |
| `ActivityCollapse.GrowingIsOneLine` | cmd/workflow.go:959-1030 | a burst of messages that only grow is one line with the last text and the number of the others |
| `ActivityCollapse.CountsAddUp` | cmd/workflow.go:963-972 | the printed counts add up to the length of the log |
| `ActivityCollapse.CollapsingIsNotTransitive` | cmd/workflow.go:1018-1030 | pairwise collapsing is symmetric and not transitive |

## Left out

- Connections, HTTP, the SQL engine, git and shell commands: each is an outcome that a step takes as a parameter.
- Payloads of control envelopes, their validation and the state versions in them: an envelope is accepted or rejected, and rejection changes nothing. A rejected workflow sync may already have saved its snapshot; snapshots are not part of the model.
- Freshness of random ids: a new message id is one the outbox does not hold, a new attempt or execution is a new number. Message ids are numbers, ordered as the query orders texts.
- ControlProtocol.ActiveTasks.CancelTaskById: cancelling is membership in a set; that a cancelled context stops the agent turn or the command is not modelled.
- ControlCancel.CancelledExactlyWhen: speaks of the cancellations registered for tasks; a deadline that passes and the end of the connection's or the process's own context, which the contexts of executions descend from, are not modelled.
- The hub side of the control protocol and of checkpoint plans: it may send any frame at any time, and it asks at least for the blobs it lacks.
- QueueRuns.InputsExactlyOnce: covers one bridge process; a process that dies loses its queue, as the program's does.
- QueueOrder.InOrderExactlyUnlessOvertaken: assumes that a connection on which a write failed takes no later write; the counting results do not.
- QueueLosses.NoticesQuoteLosses: a text is a sequence of characters of one byte each; the program cuts previews at sixty bytes.
- SendMessage.AtMostOneAccepted: error texts are sets of matched patterns; that the texts the bridge makes for an unanswered request match no retry pattern is the hypothesis of its second part, read off the texts.
- Streaming, activity pulses, slash commands and the transcript of a turn; notifications of a session replaced by a reconnect.
- ToolCalls.InFlightState.ResolveToolCall: the signature is a text of twelve characters; that the shortened hash tells two calls apart is not claimed.
- IdleResume.OncePerStretch: a re-seeded turn time stands for the end of the last turn the hub saw; output of a turn that is still running is not evidence in the model. The exclusion rule, the baseline's own storage and the human idle alert are parameters or omitted.
- PauseRuns.LiftsFollowHealth: heartbeats are those of the current connection; provider usage limits and subagent reports are switches that the environment sets.
- The texts that classify a bridge error or an agent failure: a failed turn or stop carries the classes its text matches.
- ClawRetry.RetryStore.RecordAgentStopped: the events and pull requests of a run are reduced to what its derived status depends on, every stop reason counts as a failure event, and warnings, costs and times are left out.
- ClawRetry.RetryStore.PrepareClawRetryOnce: a transaction sees no other writer, so the branch for a claw row that changed inside it is not reached.
- Recording which checkpoint an attempt restored, provisioning, terminating machines and issue comments.
- YamlNodes.YamlNode.MergeMaskedSecretsNode: trees without alias nodes and with scalar keys; parsing and printing YAML are not modelled, and a style is a number.
- BusinessTime.DurationMs: the calendar is assumed: days are in order, every instant is in one, and a window's clock times fall on their own day. The time-zone database, days whose midnight does not exist, and parsing of the schedule are not modelled.
- CheckpointCreate.CreateCheckpointAttempt: the walk and its exclusions are given as the list of files; the manifest keeps that order instead of sorting by path; the hash is any function, injective where contents are compared.
- CheckpointRestore.Home.RestoreStagedCheckpoint: paths are texts that name one file each; symbolic links and two spellings of one path are not modelled. Of permissions only the owner's write bit of a target counts, for a bridge that owns the files and is not root, as in the Docker image (docker/agent.Dockerfile:34-47); directories can be entered and written, and a umask leaves that bit of a new file alone.
- RestoreRuns.OneGoodRunFinishes: any other failure of the file system is a crash of the restore, and edits come between restores only.
- Parsing of log messages and the printed layout; subagent fields take no part in collapsing.
- Access tags, label matching, token status, version parsing, configuration merging, analytics counters and cryptography: they would add easy members only.
