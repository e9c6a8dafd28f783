/**
  The terminal event of an assignment fits the status it is left with.
*/
module ControlOutcome {
  import opened ControlStore
  import opened ControlProtocol
  import opened ControlSafety
  import opened Wrappers

  // The kind of event that goes with a terminal status.  A command that ran is completed
  // whether it succeeded or not.
  predicate Fits(assignment: MessageKind, status: IncomingStatus, kind: MessageKind) {
    match status
    case Completed =>
      AnswersKind(assignment, kind) && (assignment == AgentTaskAssign ==> kind == SuccessKind(assignment))
    case Failed => AnswersKind(assignment, kind) && kind == FailureKind(assignment)
    case _ => false
  }

  ghost predicate FittingEvent(s: State, id: MessageId, status: IncomingStatus, event: MessageId) {
    && event in Events(s, id) && event in s.tables.outbox && id in s.tables.inbox
    && Answers(s.tables.outbox[event].envelope, s.tables.inbox[id].envelope)
    && Fits(s.tables.inbox[id].envelope.kind, status, s.tables.outbox[event].envelope.kind)
  }

  ghost predicate HasFitting(s: State, id: MessageId, status: IncomingStatus) {
    exists event :: FittingEvent(s, id, status, event)
  }

  lemma FittingKept(s: State, s': State, id: MessageId, status: IncomingStatus)
    requires HasFitting(s, id, status) && Grows(s, s')
    ensures HasFitting(s', id, status)
  {
    var event :| FittingEvent(s, id, status, event);
    assert Events(s, id) <= Events(s', id);
    assert FittingEvent(s', id, status, event);
  }

  // What a thread is about to write fits the event it is about to store or has stored.
  ghost predicate ThreadFits(s: State, t: ThreadId) {
    t in s.threads ==>
      match s.threads[t]
      case Conn(b, cpc) => cpc.FailClose? ==> HasFitting(s, cpc.id, Failed)
      case Exec(e, token, pc) =>
        && (pc.Ending? ==> Fits(e.kind, pc.to, pc.kind))
        && (pc.Closing? ==> HasFitting(s, e.messageId, pc.to))
  }

  ghost predicate RowFits(s: State, id: MessageId) {
    id in s.tables.inbox && Terminal(s.tables.inbox[id].status) ==> HasFitting(s, id, s.tables.inbox[id].status)
  }

  ghost predicate AllFit(s: State) {
    && Inv(s)
    && (forall t: ThreadId :: ThreadFits(s, t))
    && (forall id: MessageId :: RowFits(s, id))
  }

  // ---------------------------------------------------------------- connections

  lemma FailInterruptedFits(s: State, t: ThreadId, event: MessageId)
    requires FailsNow(s, t, event)
    ensures var id := s.threads[t].cpc.todo[0]; FittingEvent(FailInterrupted(s, t, event, true), id, Failed, event)
  {
  }

  lemma ConnThreadFits(s: State, t: ThreadId, step: ConnStep, u: ThreadId)
    requires ThreadFits(s, u) && u != s.nextThread
    ensures ThreadFits(ApplyConn(s, t, step), u)
  {
    var s' := ApplyConn(s, t, step);
    ConnGrows(s, t, step);
    if u != t {
      ConnTouches(s, t, step, u);
      if u in s.threads { HeldThreadFits(s, s', u); }
    } else if u !in s.threads || u !in s'.threads {
    } else if s'.threads[u] == s.threads[u] {
      HeldThreadFits(s, s', u);
    } else if step.SFailInterrupted? && FailsNow(s, t, step.event) && step.ok {
      FailInterruptedFits(s, t, step.event);
    } else {
      NoOtherFailClose(s, t, step);
    }
  }

  lemma HeldThreadFits(s: State, s': State, u: ThreadId)
    requires u in s.threads && u in s'.threads && s'.threads[u] == s.threads[u]
    requires ThreadFits(s, u) && Grows(s, s')
    ensures ThreadFits(s', u)
  {
    match s.threads[u] {
      case Conn(b, cpc) => if cpc.FailClose? { FittingKept(s, s', cpc.id, Failed); }
      case Exec(e, token, pc) => if pc.Closing? { FittingKept(s, s', e.messageId, pc.to); }
    }
  }

  lemma NoOtherFailClose(s: State, t: ThreadId, step: ConnStep)
    requires t in s.threads && t != s.nextThread && t in ApplyConn(s, t, step).threads
    requires !(step.SFailInterrupted? && FailsNow(s, t, step.event) && step.ok)
    ensures var th := ApplyConn(s, t, step).threads[t]; th == s.threads[t] || (th.Conn? && !th.cpc.FailClose?)
  {
    match step {
      case SClaimRecovery =>
      case SQueryRunning(ok) =>
      case SFailInterrupted(event, ok) =>
      case SCloseInterrupted(ok) =>
      case SRunningDone =>
      case SQueryAccepted(ok) =>
      case SStartAccepted =>
      case SReadEnvelope(e, valid) =>
      case SWriteReceipt(ok) =>
      case SDisconnect =>
      case SReadReceipt(_, _) =>
    }
  }

  // A new thread is queued or connected and has nothing to write yet.
  lemma NewThreadFits(s: State, step: Step)
    requires s.nextThread !in s.threads
    ensures ThreadFits(Apply(s, step), s.nextThread)
  {
    var s' := Apply(s, step);
    if step.OnConn? { ConnLaunchesQueued(s, step.t, step.conn); }
  }

  lemma ConnLaunchesQueued(s: State, t: ThreadId, step: ConnStep)
    requires s.nextThread !in s.threads
    ensures var s' := ApplyConn(s, t, step);
      s.nextThread in s'.threads ==> s'.threads[s.nextThread].Exec? && s'.threads[s.nextThread].pc.Queued?
  {
  }

  lemma ConnRowFits(s: State, t: ThreadId, step: ConnStep, id: MessageId)
    requires ThreadFits(s, t) && RowFits(s, id)
    ensures RowFits(ApplyConn(s, t, step), id)
  {
    var s' := ApplyConn(s, t, step);
    ConnGrows(s, t, step);
    ConnSettles(s, t, step, id);
    if id in s'.tables.inbox && Terminal(s'.tables.inbox[id].status) {
      FittingKept(s, s', id, s'.tables.inbox[id].status);
    }
  }

  // A connection leaves terminal rows alone; it fails the one whose event it has stored.
  lemma ConnSettles(s: State, t: ThreadId, step: ConnStep, id: MessageId)
    ensures var inbox := ApplyConn(s, t, step).tables.inbox;
      id in inbox && Terminal(inbox[id].status) ==>
        id in s.tables.inbox
        && (inbox[id].status == s.tables.inbox[id].status
            || (AtConn(s, t) && s.threads[t].cpc.FailClose? && s.threads[t].cpc.id == id && inbox[id].status == Failed))
  {
  }

  // ---------------------------------------------------------------- executions

  lemma ExecThreadFits(s: State, t: ThreadId, step: ExecStep, u: ThreadId)
    requires ThreadFine(s, t) && ClaimFine(s, t) && ThreadFits(s, t) && ThreadFits(s, u)
    ensures ThreadFits(ApplyExec(s, t, step), u)
  {
    if u != t {
      ExecGrows(s, t, step);
      ExecLeavesThread(s, t, step, u);
      if u in s.threads { HeldThreadFits(s, ApplyExec(s, t, step), u); }
    } else if AtExec(s, t) {
      ExecOwnFits(s, t, step);
    }
  }

  lemma ExecOwnFits(s: State, t: ThreadId, step: ExecStep)
    requires AtExec(s, t) && ThreadFine(s, t) && ClaimFine(s, t) && ThreadFits(s, t)
    ensures ThreadFits(ApplyExec(s, t, step), t)
  {
    var s' := ApplyExec(s, t, step);
    if EndsNow(s, t, step) {
      EmitTerminalFits(s, t, step.event);
    } else if t in s'.threads {
      NoOtherClosing(s, t, step);
      if s'.threads[t] == s.threads[t] {
        ExecGrows(s, t, step);
        HeldThreadFits(s, s', t);
      }
    }
  }

  lemma EmitTerminalFits(s: State, t: ThreadId, event: MessageId)
    requires ThreadFine(s, t) && ThreadFits(s, t)
    requires AtExec(s, t) && s.threads[t].pc.Ending? && event !in s.tables.outbox
    ensures FittingEvent(EmitTerminal(s, t, event, true), s.threads[t].envelope.messageId, s.threads[t].pc.to, event)
  {
  }

  lemma NoOtherClosing(s: State, t: ThreadId, step: ExecStep)
    requires AtExec(s, t) && ThreadFine(s, t) && t in ApplyExec(s, t, step).threads && !EndsNow(s, t, step)
    ensures var th := ApplyExec(s, t, step).threads[t];
      || th == s.threads[t]
      || (th.Exec? && !th.pc.Closing? && (th.pc.Ending? ==> Fits(th.envelope.kind, th.pc.to, th.pc.kind)))
  {
    match step {
      case SClaim(ok) =>
      case SRegisterCommand =>
      case SBegin(event, ok) =>
      case SHeartbeat(event) =>
      case SEndTurn(success) =>
      case SEmitTerminal(event, ok) =>
      case SClose(ok) =>
      case SLeave =>
    }
  }

  lemma ExecRowFits(s: State, t: ThreadId, step: ExecStep, id: MessageId)
    requires ThreadFine(s, t) && ClaimFine(s, t) && ThreadFits(s, t) && RowFits(s, id)
    ensures RowFits(ApplyExec(s, t, step), id)
  {
    var s' := ApplyExec(s, t, step);
    ExecGrows(s, t, step);
    ExecSettles(s, t, step, id);
    if id in s'.tables.inbox && Terminal(s'.tables.inbox[id].status) {
      FittingKept(s, s', id, s'.tables.inbox[id].status);
    }
  }

  lemma ExecSettles(s: State, t: ThreadId, step: ExecStep, id: MessageId)
    ensures var inbox := ApplyExec(s, t, step).tables.inbox;
      id in inbox && Terminal(inbox[id].status) ==>
        id in s.tables.inbox
        && (inbox[id].status == s.tables.inbox[id].status
            || (AtExec(s, t) && s.threads[t].pc.Closing? && s.threads[t].envelope.messageId == id
                && inbox[id].status == s.threads[t].pc.to))
  {
  }

  // ---------------------------------------------------------------- every step

  lemma EnvThreadFits(s: State, step: Step, u: ThreadId)
    requires !step.OnConn? && !step.OnExec? && u != s.nextThread && ThreadFits(s, u)
    ensures ThreadFits(Apply(s, step), u)
  {
    StepExtends(s, step);
    if u in s.threads && u in Apply(s, step).threads { HeldThreadFits(s, Apply(s, step), u); }
  }

  lemma EnvRowFits(s: State, step: Step, id: MessageId)
    requires !step.OnConn? && !step.OnExec? && RowFits(s, id)
    ensures RowFits(Apply(s, step), id)
  {
    var s' := Apply(s, step);
    StepExtends(s, step);
    if id in s'.tables.inbox && Terminal(s'.tables.inbox[id].status) {
      FittingKept(s, s', id, s'.tables.inbox[id].status);
    }
  }

  lemma ExecIsFine(s: State, t: ThreadId)
    requires Inv(s)
    ensures ThreadFine(s, t) && ClaimFine(s, t)
  {
  }

  lemma StepKeepsFits(s: State, step: Step)
    requires AllFit(s)
    ensures AllFit(Apply(s, step))
  {
    var s' := Apply(s, step);
    StepKeepsInv(s, step);
    if step.OnExec? { ExecIsFine(s, step.t); }
    forall u: ThreadId ensures ThreadFits(s', u) {
      assert ThreadFine(s, s.nextThread);
      if u == s.nextThread {
        NewThreadFits(s, step);
      } else {
        match step {
          case OnConn(t, conn) => ConnThreadFits(s, t, conn, u);
          case OnExec(t, exec) => ExecThreadFits(s, t, exec, u);
          case _ => EnvThreadFits(s, step, u);
        }
      }
    }
    forall id: MessageId ensures RowFits(s', id) {
      match step {
        case OnConn(t, conn) => ConnRowFits(s, t, conn, id);
        case OnExec(t, exec) => ExecRowFits(s, t, exec, id);
        case _ => EnvRowFits(s, step, id);
      }
    }
  }

  lemma {:induction false} RunKeepsFits(s: State, steps: seq<Step>)
    requires AllFit(s)
    ensures AllFit(RunFrom(s, steps))
    decreases |steps|
  {
    if steps != [] {
      StepKeepsFits(s, steps[0]);
      RunKeepsFits(Apply(s, steps[0]), steps[1..]);
    }
  }

  /** At every point of every run an assignment marked completed or failed has in the outbox a
      terminal event for the same task, run and attempt that says the same: a completed agent
      task its completion, a failed assignment its failure, a completed command either. */
  lemma TerminalEventIsDurable(steps: seq<Step>, id: MessageId)
    requires HasStatus(Run(steps).tables, id, Completed) || HasStatus(Run(steps).tables, id, Failed)
    ensures var t := Run(steps).tables; var assignment := t.inbox[id];
      exists event :: event in t.outbox
        && Answers(t.outbox[event].envelope, assignment.envelope)
        && (assignment.status == Failed ==>
              match assignment.envelope.kind
              case AgentTaskAssign => t.outbox[event].envelope.kind == AgentTaskFailed
              case ExecRunAssign => t.outbox[event].envelope.kind == ExecRunFailed
              case _ => t.outbox[event].envelope.kind == DependencyUpdateFailed)
        && (assignment.status == Completed && assignment.envelope.kind == AgentTaskAssign ==>
              t.outbox[event].envelope.kind == AgentTaskCompleted)
  {
    RunKeepsInv([]);
    assert forall id: MessageId :: RowFits(INIT, id);
    RunKeepsFits(INIT, steps);
    var s := Run(steps);
    assert RowFits(s, id);
    var event :| FittingEvent(s, id, s.tables.inbox[id].status, event);
  }
}
