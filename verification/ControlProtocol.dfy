/**
  The bridge's side of the control protocol as a state machine.

  Connections, agent executions and command executions are threads that interleave at the
  granularity of one SQL statement or one critical section.  The tables survive a crash;
  everything else is lost.  A run is any sequence of steps: frames may be delivered any
  number of times and in any order, connections come and go for any binding, a statement may
  fail, and the process may crash between any two steps.
*/
module ControlProtocol {
  import opened ControlStore
  import opened Wrappers

  type ThreadId = nat
  type Token = nat

  datatype ConnPc =
    | Connected                                          // registered with the hub
    | LoadRunning                                        // recovery claimed
    | FailNext(todo: seq<MessageId>)                     // interrupted assignments still to fail
    | FailClose(id: MessageId, todo: seq<MessageId>)     // failure event is durable, status update due
    | LoadAccepted
    | StartNext(todo: seq<MessageId>)                    // accepted assignments still to start
    | Idle                                               // reading frames
    | ReceiptDue(assignment: Envelope)                   // assignment recorded, receipt not yet written

  datatype ExecPc =
    | Queued                                             // goroutine launched
    | Claimed                                            // accepted -> running succeeded
    | Turn                                               // the agent turn or command is running
    | Ending(kind: MessageKind, to: IncomingStatus)      // outcome known, terminal event due
    | Closing(to: IncomingStatus)                        // terminal event is durable, status update due
    | Leaving                                            // deferred unregistration due

  datatype Thread =
    | Conn(binding: Binding, cpc: ConnPc)
    | Exec(envelope: Envelope, token: Option<Token>, pc: ExecPc)

  // Cancellations registered for tasks, with the history of all registrations.
  datatype Registrations = Registrations(
    registry: map<TaskId, Token>,          // lost in a crash
    next: Token,
    latest: map<TaskId, Token>,            // last execution registered for a task in this process
    cancelled: set<Token>,
    left: set<Token>)                      // executions that have unregistered

  // History: what has been done on behalf of each assignment.
  datatype Log = Log(
    claimedBy: map<MessageId, ThreadId>,
    starts: map<MessageId, nat>,           // turns or commands started
    events: map<MessageId, set<MessageId>>, // terminal events emitted
    byExec: map<MessageId, nat>,           // ... by the execution
    byRecovery: map<MessageId, nat>,       // ... by a recovery pass
    found: map<MessageId, nat>)            // recovery passes that found it running

  datatype State = State(
    tables: Tables,
    now: int,
    threads: map<ThreadId, Thread>,        // lost in a crash
    nextThread: ThreadId,
    regs: Registrations,
    recovered: set<Binding>,               // lost in a crash
    passes: map<Binding, nat>,             // recovery passes so far
    incarnations: nat,                     // processes so far
    log: Log)

  const INIT := State(Tables(map[], map[]), 0, map[], 0, Registrations(map[], 0, map[], {}, {}), {}, map[], 1,
                      Log(map[], map[], map[], map[], map[], map[]))

  function Count<K(==)>(m: map<K, nat>, k: K): nat {
    if k in m then m[k] else 0
  }

  function Events(s: State, id: MessageId): set<MessageId> {
    if id in s.log.events then s.log.events[id] else {}
  }

  predicate IsCommandAssignment(kind: MessageKind) {
    kind == ExecRunAssign || kind == DependencyUpdateAssign
  }

  predicate IsAssignment(kind: MessageKind) {
    kind == AgentTaskAssign || IsCommandAssignment(kind)
  }

  predicate IsHubKind(kind: MessageKind) {
    || IsAssignment(kind)
    || kind == AgentTaskCancel || kind == RunSuspend || kind == RunTerminate
    || kind == RunResume || kind == WorkflowSync
  }

  // The terminal event kinds that can answer an assignment.
  predicate AnswersKind(assignment: MessageKind, kind: MessageKind) {
    match assignment
    case AgentTaskAssign => kind == AgentTaskCompleted || kind == AgentTaskFailed
    case ExecRunAssign => kind == ExecRunCompleted || kind == ExecRunFailed
    case DependencyUpdateAssign => kind == DependencyUpdateCompleted || kind == DependencyUpdateFailed
    case _ => false
  }

  // A failure that keeps the command from running, or an agent turn that ends in an error.
  function FailureKind(assignment: MessageKind): MessageKind {
    match assignment
    case ExecRunAssign => ExecRunFailed
    case DependencyUpdateAssign => DependencyUpdateFailed
    case _ => AgentTaskFailed
  }

  function SuccessKind(assignment: MessageKind): MessageKind {
    match assignment
    case ExecRunAssign => ExecRunCompleted
    case DependencyUpdateAssign => DependencyUpdateCompleted
    case _ => AgentTaskCompleted
  }

  predicate Answers(event: Envelope, assignment: Envelope) {
    && AnswersKind(assignment.kind, event.kind)
    && event.taskId == assignment.taskId
    && event.binding == assignment.binding
  }

  function EventEnvelope(id: MessageId, kind: MessageKind, assignment: Envelope): Envelope {
    Envelope(id, kind, assignment.binding, assignment.taskId)
  }

  // ---------------------------------------------------------------- connection steps

  predicate AtConn(s: State, t: ThreadId) {
    t in s.threads && s.threads[t].Conn?
  }

  function ConnAt(s: State, t: ThreadId, cpc: ConnPc): map<ThreadId, Thread>
    requires AtConn(s, t)
  {
    s.threads[t := Conn(s.threads[t].binding, cpc)]
  }

  function Connect(s: State, b: Binding): State {
    s.(threads := s.threads[s.nextThread := Conn(b, Connected)], nextThread := s.nextThread + 1)
  }

  // claimRecovery: the first connection of a binding in this process recovers it.
  function ClaimRecovery(s: State, t: ThreadId): State {
    if AtConn(s, t) && s.threads[t].cpc.Connected? then
      var b := s.threads[t].binding;
      if b in s.recovered then s.(threads := ConnAt(s, t, Idle))
      else s.(threads := ConnAt(s, t, LoadRunning), recovered := s.recovered + {b},
              passes := s.passes[b := Count(s.passes, b) + 1])
    else s
  }

  function FoundMore(found: map<MessageId, nat>, ids: seq<MessageId>): map<MessageId, nat> {
    map id | id in found.Keys + (set i | i in ids) :: Count(found, id) + (if id in ids then 1 else 0)
  }

  ghost function QueryRunning(s: State, t: ThreadId, ok: bool): State {
    if AtConn(s, t) && s.threads[t].cpc.LoadRunning? then
      if !ok then s.(threads := ConnAt(s, t, Idle))
      else
        var ids := IncomingByStatus(s.tables, s.threads[t].binding, Running);
        s.(threads := ConnAt(s, t, FailNext(ids)), log := s.log.(found := FoundMore(s.log.found, ids)))
    else s
  }

  // finishTask of an interrupted agent task; assignments of other kinds are skipped.
  function FailInterrupted(s: State, t: ThreadId, event: MessageId, ok: bool): State {
    if AtConn(s, t) && s.threads[t].cpc.FailNext? && s.threads[t].cpc.todo != [] then
      var id, rest := s.threads[t].cpc.todo[0], s.threads[t].cpc.todo[1..];
      if !(id in s.tables.inbox && s.tables.inbox[id].envelope.kind == AgentTaskAssign) || !ok then
        s.(threads := ConnAt(s, t, FailNext(rest)))
      else if event in s.tables.outbox then s
      else
        s.(threads := ConnAt(s, t, FailClose(id, rest)),
           tables := Enqueue(s.tables, EventEnvelope(event, AgentTaskFailed, s.tables.inbox[id].envelope), s.now),
           log := s.log.(events := s.log.events[id := Events(s, id) + {event}],
                         byRecovery := s.log.byRecovery[id := Count(s.log.byRecovery, id) + 1]))
    else s
  }

  function CloseInterrupted(s: State, t: ThreadId, ok: bool): State {
    if AtConn(s, t) && s.threads[t].cpc.FailClose? then
      var pc := s.threads[t].cpc;
      s.(threads := ConnAt(s, t, FailNext(pc.todo)),
         tables := if ok then SetIncomingStatus(s.tables, pc.id, Running, Failed) else s.tables)
    else s
  }

  function RunningDone(s: State, t: ThreadId): State {
    if AtConn(s, t) && s.threads[t].cpc == FailNext([]) then s.(threads := ConnAt(s, t, LoadAccepted)) else s
  }

  ghost function QueryAccepted(s: State, t: ThreadId, ok: bool): State {
    if AtConn(s, t) && s.threads[t].cpc.LoadAccepted? then
      var next := if ok then StartNext(IncomingByStatus(s.tables, s.threads[t].binding, Accepted)) else Idle;
      s.(threads := ConnAt(s, t, next))
    else s
  }

  function Registered(regs: Registrations, task: TaskId): Registrations {
    regs.(registry := regs.registry[task := regs.next], latest := regs.latest[task := regs.next], next := regs.next + 1)
  }

  // startTask: cancellation is registered before the goroutine is launched.
  function Launch(s: State, t: ThreadId, cpc: ConnPc, e: Envelope): State
    requires AtConn(s, t)
  {
    s.(threads := ConnAt(s, t, cpc)[s.nextThread := Exec(e, Some(s.regs.next), Queued)],
       nextThread := s.nextThread + 1, regs := Registered(s.regs, e.taskId))
  }

  function StartAccepted(s: State, t: ThreadId): State {
    if AtConn(s, t) && s.threads[t].cpc.StartNext? then
      var todo := s.threads[t].cpc.todo;
      if todo == [] then s.(threads := ConnAt(s, t, Idle))
      else if todo[0] in s.tables.inbox && s.tables.inbox[todo[0]].envelope.kind == AgentTaskAssign then
        Launch(s, t, StartNext(todo[1..]), s.tables.inbox[todo[0]].envelope)
      else s.(threads := ConnAt(s, t, StartNext(todo[1..])))
    else s
  }

  function CancelTask(regs: Registrations, task: TaskId): Registrations {
    if task in regs.registry then regs.(cancelled := regs.cancelled + {regs.registry[task]}) else regs
  }

  function CancelAll(regs: Registrations): Registrations {
    regs.(cancelled := regs.cancelled + regs.registry.Values)
  }

  // What a newly stored envelope does before its receipt is written.
  function AfterStore(s: State, t: ThreadId, e: Envelope): State
    requires AtConn(s, t)
  {
    match e.kind
    case AgentTaskAssign => s.(tables := RecordIncoming(s.tables, e, s.now), threads := ConnAt(s, t, ReceiptDue(e)))
    case AgentTaskCancel => s.(tables := RecordIncoming(s.tables, e, s.now), regs := CancelTask(s.regs, e.taskId))
    case RunSuspend => s.(tables := RecordIncoming(s.tables, e, s.now), regs := CancelAll(s.regs))
    case RunTerminate => s.(tables := RecordIncoming(s.tables, e, s.now), regs := CancelAll(s.regs))
    case RunResume => s.(tables := RecordIncoming(s.tables, e, s.now))
    case WorkflowSync => s.(tables := RecordIncoming(s.tables, e, s.now))
    case _ =>
      s.(tables := RecordIncoming(s.tables, e, s.now),
         threads := s.threads[s.nextThread := Exec(e, None, Queued)], nextThread := s.nextThread + 1)
  }

  // An envelope frame.  valid is false when it is rejected: malformed, older than the
  // snapshot, or not stored because the insert failed.
  function ReadEnvelope(s: State, t: ThreadId, e: Envelope, valid: bool): State {
    if AtConn(s, t) && s.threads[t].cpc.Idle? then
      if !valid || e.binding != s.threads[t].binding || !IsHubKind(e.kind) then s
      else if IsKnown(s.tables, e.messageId) then s
      else AfterStore(s, t, e)
    else s
  }

  // The receipt is written; if that fails the connection ends and the task is not started.
  function WriteReceipt(s: State, t: ThreadId, ok: bool): State {
    if AtConn(s, t) && s.threads[t].cpc.ReceiptDue? then
      if ok then Launch(s, t, Idle, s.threads[t].cpc.assignment)
      else s.(threads := s.threads - {t})
    else s
  }

  function Disconnect(s: State, t: ThreadId): State {
    if AtConn(s, t) && (s.threads[t].cpc.Idle? || s.threads[t].cpc.Connected?) then
      s.(threads := s.threads - {t})
    else s
  }

  // A receipt frame; one that matches no open message ends the connection.
  function ReadReceipt(s: State, t: ThreadId, id: MessageId, receipt: nat): State {
    if AtConn(s, t) && s.threads[t].cpc.Idle? then
      if IsOpen(s.tables, id) then s.(tables := Acknowledge(s.tables, id, receipt))
      else s.(threads := s.threads - {t})
    else s
  }

  // ---------------------------------------------------------------- execution steps

  predicate AtExec(s: State, t: ThreadId) {
    t in s.threads && s.threads[t].Exec?
  }

  function ExecAt(s: State, t: ThreadId, pc: ExecPc): map<ThreadId, Thread>
    requires AtExec(s, t)
  {
    s.threads[t := Exec(s.threads[t].envelope, s.threads[t].token, pc)]
  }

  // The claim is the compare-and-set accepted -> running; ok is false when the statement fails.
  function Claim(s: State, t: ThreadId, ok: bool): State {
    if AtExec(s, t) && s.threads[t].pc.Queued? then
      var id := s.threads[t].envelope.messageId;
      if ok && HasStatus(s.tables, id, Accepted) then
        s.(threads := ExecAt(s, t, Claimed), tables := SetIncomingStatus(s.tables, id, Accepted, Running),
           log := s.log.(claimedBy := s.log.claimedBy[id := t]))
      else s.(threads := ExecAt(s, t, Leaving))
    else s
  }

  // A command registers its cancellation only after it has claimed the assignment.
  function RegisterCommand(s: State, t: ThreadId): State {
    if AtExec(s, t) && s.threads[t].pc.Claimed? && s.threads[t].token.None? then
      var e := s.threads[t].envelope;
      s.(threads := s.threads[t := Exec(e, Some(s.regs.next), Claimed)], regs := Registered(s.regs, e.taskId))
    else s
  }

  function Started(log: Log, id: MessageId): Log {
    log.(starts := log.starts[id := Count(log.starts, id) + 1])
  }

  // An agent task starts its turn once the gateway is ready and its started event is stored;
  // a command starts once its configuration decodes.
  function Begin(s: State, t: ThreadId, event: MessageId, ok: bool): State {
    if AtExec(s, t) && s.threads[t].pc.Claimed? && s.threads[t].token.Some? then
      var e := s.threads[t].envelope;
      if !ok then s.(threads := ExecAt(s, t, Ending(FailureKind(e.kind), Failed)))
      else if e.kind != AgentTaskAssign then s.(threads := ExecAt(s, t, Turn), log := Started(s.log, e.messageId))
      else if event in s.tables.outbox then s
      else s.(threads := ExecAt(s, t, Turn), log := Started(s.log, e.messageId),
              tables := Enqueue(s.tables, EventEnvelope(event, AgentTaskStarted, e), s.now))
    else s
  }

  function Heartbeat(s: State, t: ThreadId, event: MessageId): State {
    if AtExec(s, t) && s.threads[t].pc.Turn? && s.threads[t].envelope.kind == AgentTaskAssign
       && event !in s.tables.outbox then
      s.(tables := Enqueue(s.tables, EventEnvelope(event, AgentTaskHeartbeat, s.threads[t].envelope), s.now))
    else s
  }

  // A command that ran is completed even when its event reports a failure; an agent turn that
  // ended in an error is failed.
  function EndTurn(s: State, t: ThreadId, success: bool): State {
    if AtExec(s, t) && s.threads[t].pc.Turn? then
      var kind := s.threads[t].envelope.kind;
      if success then s.(threads := ExecAt(s, t, Ending(SuccessKind(kind), Completed)))
      else
        var to := if IsCommandAssignment(kind) then Completed else Failed;
        s.(threads := ExecAt(s, t, Ending(FailureKind(kind), to)))
    else s
  }

  function EmitTerminal(s: State, t: ThreadId, event: MessageId, ok: bool): State {
    if AtExec(s, t) && s.threads[t].pc.Ending? then
      var e, pc := s.threads[t].envelope, s.threads[t].pc;
      if !ok then s.(threads := ExecAt(s, t, Leaving))
      else if event in s.tables.outbox then s
      else
        s.(threads := ExecAt(s, t, Closing(pc.to)),
           tables := Enqueue(s.tables, EventEnvelope(event, pc.kind, e), s.now),
           log := s.log.(events := s.log.events[e.messageId := Events(s, e.messageId) + {event}],
                         byExec := s.log.byExec[e.messageId := Count(s.log.byExec, e.messageId) + 1]))
    else s
  }

  function Close(s: State, t: ThreadId, ok: bool): State {
    if AtExec(s, t) && s.threads[t].pc.Closing? then
      var e, to := s.threads[t].envelope, s.threads[t].pc.to;
      s.(threads := ExecAt(s, t, Leaving),
         tables := if ok then SetIncomingStatus(s.tables, e.messageId, Running, to) else s.tables)
    else s
  }

  // Only the registration this execution installed is removed.
  function Unregistered(regs: Registrations, task: TaskId, token: Token): Registrations {
    var own := task in regs.registry && regs.registry[task] == token;
    regs.(registry := if own then regs.registry - {task} else regs.registry,
          left := regs.left + {token}, cancelled := regs.cancelled + {token})
  }

  function Leave(s: State, t: ThreadId): State {
    if AtExec(s, t) && s.threads[t].pc.Leaving? then
      var e, token := s.threads[t].envelope, s.threads[t].token;
      s.(threads := s.threads - {t},
         regs := if token.None? then s.regs else Unregistered(s.regs, e.taskId, token.value))
    else s
  }

  // ---------------------------------------------------------------- environment steps

  // A message of the local control endpoint, under a fresh id.
  function LocalMessage(s: State, e: Envelope): State {
    if e.messageId !in s.tables.outbox && !IsHubKind(e.kind) then s.(tables := Enqueue(s.tables, e, s.now)) else s
  }

  function SentMark(s: State, id: MessageId): State {
    s.(tables := MarkSent(s.tables, id, s.now))
  }

  function Tick(s: State, ms: nat): State {
    s.(now := s.now + ms)
  }

  // The process dies and a new one starts on the same tables.
  function Crash(s: State): State {
    s.(threads := map[], regs := s.regs.(registry := map[], latest := map[]), recovered := {},
       incarnations := s.incarnations + 1)
  }

  // ---------------------------------------------------------------- runs

  datatype ConnStep =
    | SClaimRecovery
    | SQueryRunning(ok: bool)
    | SFailInterrupted(event: MessageId, ok: bool)
    | SCloseInterrupted(ok: bool)
    | SRunningDone
    | SQueryAccepted(ok: bool)
    | SStartAccepted
    | SReadEnvelope(e: Envelope, valid: bool)
    | SWriteReceipt(ok: bool)
    | SDisconnect
    | SReadReceipt(id: MessageId, receipt: nat)

  datatype ExecStep =
    | SClaim(ok: bool)
    | SRegisterCommand
    | SBegin(event: MessageId, ok: bool)
    | SHeartbeat(event: MessageId)
    | SEndTurn(success: bool)
    | SEmitTerminal(event: MessageId, ok: bool)
    | SClose(ok: bool)
    | SLeave

  datatype Step =
    | OnConn(t: ThreadId, conn: ConnStep)
    | OnExec(t: ThreadId, exec: ExecStep)
    | SConnect(b: Binding)
    | SLocalMessage(e: Envelope)
    | SMarkSent(id: MessageId)
    | STick(ms: nat)
    | SCrash

  ghost function ApplyConn(s: State, t: ThreadId, step: ConnStep): State {
    match step
    case SClaimRecovery => ClaimRecovery(s, t)
    case SQueryRunning(ok) => QueryRunning(s, t, ok)
    case SFailInterrupted(event, ok) => FailInterrupted(s, t, event, ok)
    case SCloseInterrupted(ok) => CloseInterrupted(s, t, ok)
    case SRunningDone => RunningDone(s, t)
    case SQueryAccepted(ok) => QueryAccepted(s, t, ok)
    case SStartAccepted => StartAccepted(s, t)
    case SReadEnvelope(e, valid) => ReadEnvelope(s, t, e, valid)
    case SWriteReceipt(ok) => WriteReceipt(s, t, ok)
    case SDisconnect => Disconnect(s, t)
    case SReadReceipt(id, receipt) => ReadReceipt(s, t, id, receipt)
  }

  function ApplyExec(s: State, t: ThreadId, step: ExecStep): State {
    match step
    case SClaim(ok) => Claim(s, t, ok)
    case SRegisterCommand => RegisterCommand(s, t)
    case SBegin(event, ok) => Begin(s, t, event, ok)
    case SHeartbeat(event) => Heartbeat(s, t, event)
    case SEndTurn(success) => EndTurn(s, t, success)
    case SEmitTerminal(event, ok) => EmitTerminal(s, t, event, ok)
    case SClose(ok) => Close(s, t, ok)
    case SLeave => Leave(s, t)
  }

  ghost function Apply(s: State, step: Step): State {
    match step
    case OnConn(t, conn) => ApplyConn(s, t, conn)
    case OnExec(t, exec) => ApplyExec(s, t, exec)
    case SConnect(b) => Connect(s, b)
    case SLocalMessage(e) => LocalMessage(s, e)
    case SMarkSent(id) => SentMark(s, id)
    case STick(ms) => Tick(s, ms)
    case SCrash => Crash(s)
  }

  // A step that is not enabled leaves the state as it is, so every step sequence is a run.
  ghost function RunFrom(s: State, steps: seq<Step>): State
    decreases |steps|
  {
    if steps == [] then s else RunFrom(Apply(s, steps[0]), steps[1..])
  }

  ghost function Run(steps: seq<Step>): State {
    RunFrom(INIT, steps)
  }

  // ---------------------------------------------------------------- the cancellation registry

  // The supervisor's fields for running tasks and recovered bindings.  A token stands for one
  // registered cancellation; cancelling it is its effect.
  class ActiveTasks {
    var activeTasks: map<TaskId, Token>
    var nextToken: Token
    var cancelled: set<Token>
    var recovered: set<Binding>
    ghost var latest: map<TaskId, Token>
    ghost var left: set<Token>

    constructor ()
      ensures View() == Registrations(map[], 0, map[], {}, {}) && recovered == {}
    {
      activeTasks, nextToken, cancelled, recovered := map[], 0, {}, {};
      latest, left := map[], {};
    }

    ghost function View(): Registrations
      reads this
    {
      Registrations(activeTasks, nextToken, latest, cancelled, left)
    }

    method RegisterTaskCancellation(task: TaskId) returns (token: Token)
      modifies this
      ensures View() == Registered(old(View()), task) && token == old(nextToken) && recovered == old(recovered)
    {
      token := nextToken;
      activeTasks, nextToken := activeTasks[task := token], nextToken + 1;
      latest := latest[task := token];
    }

    // The deferred cleanup of an execution: it cancels its own context and removes its entry,
    // but not one that a later execution has installed.
    method LeaveTask(task: TaskId, token: Token)
      modifies this
      ensures View() == Unregistered(old(View()), task, token) && recovered == old(recovered)
    {
      cancelled := cancelled + {token};
      if task in activeTasks && activeTasks[task] == token {
        activeTasks := activeTasks - {task};
      }
      left := left + {token};
    }

    method CancelTaskById(task: TaskId)
      modifies this
      ensures View() == CancelTask(old(View()), task) && recovered == old(recovered)
    {
      if task in activeTasks {
        cancelled := cancelled + {activeTasks[task]};
      }
    }

    method CancelAllTasks()
      modifies this
      ensures View() == CancelAll(old(View())) && recovered == old(recovered)
    {
      var tokens := {};
      var rest := activeTasks.Keys;
      while rest != {}
        invariant rest <= activeTasks.Keys
        invariant View() == old(View()) && recovered == old(recovered)
        invariant tokens == set task | task in activeTasks && task !in rest :: activeTasks[task]
        decreases |rest|
      {
        var task :| task in rest;
        rest := rest - {task};
        tokens := tokens + {activeTasks[task]};
      }
      cancelled := cancelled + tokens;
      assert tokens == activeTasks.Values;
    }

    method ClaimRecoveryOf(b: Binding) returns (first: bool)
      modifies this
      ensures first == (b !in old(recovered)) && recovered == old(recovered) + {b} && View() == old(View())
    {
      if b in recovered { return false; }
      recovered := recovered + {b};
      return true;
    }
  }
}
