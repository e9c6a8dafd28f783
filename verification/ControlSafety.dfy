/**
  Safety of the control protocol over every run.
*/
module ControlSafety {
  import opened ControlStore
  import opened ControlProtocol
  import opened Wrappers

  // ---------------------------------------------------------------- the tables only move forward

  ghost predicate ThreadFine(s: State, t: ThreadId) {
    t in s.threads ==> t < s.nextThread && ThreadOk(s, t, s.threads[t])
  }

  lemma ConnExtends(s: State, t: ThreadId, step: ConnStep)
    ensures Extends(s.tables, ApplyConn(s, t, step).tables)
  {
  }

  lemma ExecExtends(s: State, t: ThreadId, step: ExecStep)
    requires ThreadFine(s, t)
    ensures Extends(s.tables, ApplyExec(s, t, step).tables)
  {
  }

  lemma StepExtends(s: State, step: Step)
    requires step.OnExec? ==> ThreadFine(s, step.t)
    ensures Extends(s.tables, Apply(s, step).tables)
  {
    match step {
      case OnConn(t, conn) => ConnExtends(s, t, conn);
      case OnExec(t, exec) => ExecExtends(s, t, exec);
      case _ =>
    }
  }

  // Two halves of the steps, to keep proofs small.
  predicate RecoveryStep(step: ConnStep) {
    || step.SClaimRecovery? || step.SQueryRunning? || step.SFailInterrupted? || step.SCloseInterrupted?
    || step.SRunningDone?
    || step.SQueryAccepted? || step.SStartAccepted?
  }

  predicate OpeningStep(step: ExecStep) {
    step.SClaim? || step.SRegisterCommand? || step.SBegin? || step.SHeartbeat?
  }

  // ---------------------------------------------------------------- the invariant

  ghost predicate InInbox(s: State, e: Envelope) {
    e.messageId in s.tables.inbox && s.tables.inbox[e.messageId].envelope == e
  }

  // The execution holds the claim on its assignment.
  ghost predicate Owns(pc: ExecPc) {
    pc.Claimed? || pc.Turn? || pc.Ending? || pc.Closing?
  }

  ghost predicate Recovering(cpc: ConnPc) {
    cpc.LoadRunning? || cpc.FailNext? || cpc.FailClose? || cpc.LoadAccepted? || cpc.StartNext?
  }

  ghost predicate Todo(s: State, b: Binding, ids: seq<MessageId>) {
    && (forall i | 0 <= i < |ids| ::
          && ids[i] in s.tables.inbox
          && s.tables.inbox[ids[i]].envelope.binding == b
          && s.tables.inbox[ids[i]].envelope.messageId == ids[i])
    && (forall i, j | 0 <= i < j < |ids| :: ids[i] != ids[j])
  }

  ghost predicate ConnOk(s: State, b: Binding, cpc: ConnPc) {
    match cpc
    case FailNext(todo) => Todo(s, b, todo)
    case FailClose(id, todo) => Todo(s, b, todo) && id in s.tables.inbox && Events(s, id) != {}
    case StartNext(todo) => Todo(s, b, todo)
    case ReceiptDue(e) => InInbox(s, e) && e.kind == AgentTaskAssign && e.binding == b
    case _ => true
  }

  ghost predicate ExecOk(s: State, t: ThreadId, e: Envelope, token: Option<Token>, pc: ExecPc) {
    && InInbox(s, e) && IsAssignment(e.kind)
    && (e.kind == AgentTaskAssign ==> token.Some?)
    && (token.Some? ==> token.value < s.regs.next)
    && (Owns(pc) ==> e.messageId in s.log.claimedBy && s.log.claimedBy[e.messageId] == t)
    && (token.None? ==> pc.Queued? || pc.Claimed? || pc.Leaving?)
    && (pc.Ending? ==> AnswersKind(e.kind, pc.kind) && (pc.to == Completed || pc.to == Failed))
    && (pc.Closing? ==> Events(s, e.messageId) != {} && (pc.to == Completed || pc.to == Failed))
  }

  ghost predicate ThreadOk(s: State, t: ThreadId, th: Thread) {
    match th
    case Conn(b, cpc) => ConnOk(s, b, cpc)
    case Exec(e, token, pc) => ExecOk(s, t, e, token, pc)
  }

  // Claims: the status accepted means never claimed, and a claim is for ever.
  ghost predicate ClaimOk(s: State, id: MessageId) {
    && (id in s.log.claimedBy ==> id in s.tables.inbox && s.log.claimedBy[id] < s.nextThread)
    && (id in s.tables.inbox ==> (s.tables.inbox[id].status == Accepted <==> id !in s.log.claimedBy))
    && Count(s.log.starts, id) <= 1 && Count(s.log.byExec, id) <= 1
    && (id !in s.log.claimedBy ==> Count(s.log.starts, id) == 0 && Count(s.log.byExec, id) == 0)
    && (id in s.log.claimedBy && s.log.claimedBy[id] in s.threads ==>
          OwnerCounts(s, id, s.threads[s.log.claimedBy[id]]))
  }

  // What has not happened yet while the claiming execution is at a given point.
  ghost predicate OwnerCounts(s: State, id: MessageId, th: Thread) {
    th.Exec? && th.envelope.messageId == id && !th.pc.Queued?
    && (th.pc.Claimed? ==> Count(s.log.starts, id) == 0)
    && (th.pc.Claimed? || th.pc.Turn? || th.pc.Ending? ==> Count(s.log.byExec, id) == 0)
  }

  ghost predicate Terminal(status: IncomingStatus) {
    status == Completed || status == Failed
  }

  // Every recorded event is a row of the outbox that answers its assignment.
  ghost predicate EventOk(s: State, id: MessageId) {
    && (id in s.log.events ==> id in s.tables.inbox)
    && (forall event | event in Events(s, id) ::
          id in s.tables.inbox && event in s.tables.outbox
          && Answers(s.tables.outbox[event].envelope, s.tables.inbox[id].envelope))
    && (id in s.tables.inbox && Terminal(s.tables.inbox[id].status) ==> Events(s, id) != {})
    && |Events(s, id)| == Count(s.log.byExec, id) + Count(s.log.byRecovery, id)
  }

  ghost predicate RecoveringAt(s: State, t: ThreadId) {
    t in s.threads && s.threads[t].Conn? && Recovering(s.threads[t].cpc)
  }

  // Recovery passes: at most one per binding in a process ...
  ghost predicate PassOk(s: State, t: ThreadId, u: ThreadId) {
    && (RecoveringAt(s, t) ==> s.threads[t].binding in s.recovered)
    && (RecoveringAt(s, t) && RecoveringAt(s, u) && s.threads[t].binding == s.threads[u].binding ==> t == u)
  }

  ghost predicate PassCountOk(s: State, b: Binding) {
    Count(s.passes, b) + (if b in s.recovered then 0 else 1) <= s.incarnations
  }

  // ... and each fails an assignment it found running at most once.
  ghost predicate FoundOk(s: State, id: MessageId) {
    && Count(s.log.byRecovery, id) <= Count(s.log.found, id)
    && (Count(s.log.found, id) > 0 ==> id in s.tables.inbox)
    && (id in s.tables.inbox ==>
          && Count(s.log.found, id) <= Count(s.passes, s.tables.inbox[id].envelope.binding)
          && (s.tables.inbox[id].envelope.kind != AgentTaskAssign ==> Count(s.log.byRecovery, id) == 0))
  }

  ghost predicate Pending(cpc: ConnPc, id: MessageId) {
    (cpc.FailNext? || cpc.FailClose?) && id in cpc.todo
  }

  ghost predicate PendingOk(s: State, id: MessageId, t: ThreadId) {
    t in s.threads && s.threads[t].Conn? ==>
      && (Pending(s.threads[t].cpc, id) ==> Count(s.log.byRecovery, id) < Count(s.log.found, id))
      && (s.threads[t].cpc.LoadRunning? ==> Count(s.passes, s.threads[t].binding) > 0)
      && (s.threads[t].cpc.LoadRunning? && id in s.tables.inbox
          && s.tables.inbox[id].envelope.binding == s.threads[t].binding ==>
            Count(s.log.found, id) < Count(s.passes, s.threads[t].binding))
  }

  // The registry points at the last execution registered for a task, unless it has left.
  ghost predicate RegistryOk(s: State, task: TaskId) {
    && (task in s.regs.latest ==>
          && s.regs.latest[task] < s.regs.next
          && (s.regs.latest[task] in s.regs.left
              || (task in s.regs.registry && s.regs.registry[task] == s.regs.latest[task])))
    && (task in s.regs.registry ==> task in s.regs.latest && s.regs.registry[task] == s.regs.latest[task])
  }

  ghost predicate KeysOk(t: Tables) {
    forall id | id in t.inbox :: t.inbox[id].envelope.messageId == id
  }

  ghost predicate Inv(s: State) {
    && KeysOk(s.tables)
    && (forall t: ThreadId :: ThreadFine(s, t))
    && (forall id: MessageId :: ClaimOk(s, id))
    && (forall id: MessageId :: EventOk(s, id))
    && (forall t: ThreadId, u: ThreadId :: PassOk(s, t, u))
    && (forall b: Binding :: PassCountOk(s, b))
    && (forall id: MessageId :: FoundOk(s, id))
    && (forall id: MessageId, t: ThreadId :: PendingOk(s, id, t))
    && (forall task: TaskId :: RegistryOk(s, task))
  }

  // ---------------------------------------------------------------- what steps leave alone

  // Facts that, once true, stay true.
  ghost predicate Grows(s: State, s': State) {
    && Extends(s.tables, s'.tables)
    && s.regs.next <= s'.regs.next && s.nextThread <= s'.nextThread
    && (forall id | id in s.log.claimedBy :: id in s'.log.claimedBy && s'.log.claimedBy[id] == s.log.claimedBy[id])
    && (forall id: MessageId :: Events(s, id) <= Events(s', id))
  }

  lemma ConnGrows(s: State, t: ThreadId, step: ConnStep)
    ensures Grows(s, ApplyConn(s, t, step))
  {
    ConnExtends(s, t, step);
    ConnLeavesClaims(s, t, step);
    if step.SFailInterrupted? {
      FailGrows(s, t, step);
    } else {
      OthersKeepEvents(s, t, step);
    }
  }

  lemma FailGrows(s: State, t: ThreadId, step: ConnStep)
    requires step.SFailInterrupted?
    ensures var s' := ApplyConn(s, t, step);
      s'.regs == s.regs && forall id: MessageId :: Events(s, id) <= Events(s', id)
  {
  }

  lemma OthersKeepEvents(s: State, t: ThreadId, step: ConnStep)
    requires !step.SFailInterrupted?
    ensures var s' := ApplyConn(s, t, step); s'.log.events == s.log.events && s.regs.next <= s'.regs.next
  {
  }

  // The claim an execution may still make is of an assignment nobody has claimed.
  ghost predicate ClaimFine(s: State, t: ThreadId) {
    AtExec(s, t) ==> ClaimOk(s, s.threads[t].envelope.messageId)
  }

  lemma ExecGrows(s: State, t: ThreadId, step: ExecStep)
    requires ThreadFine(s, t) && ClaimFine(s, t)
    ensures Grows(s, ApplyExec(s, t, step))
  {
    ExecExtends(s, t, step);
    ExecKeepsClaims(s, t, step);
    ExecKeepsEvents(s, t, step);
  }

  lemma ExecKeepsClaims(s: State, t: ThreadId, step: ExecStep)
    requires ClaimFine(s, t)
    ensures var s' := ApplyExec(s, t, step);
      && s.regs.next <= s'.regs.next && s'.nextThread == s.nextThread
      && (forall id | id in s.log.claimedBy :: id in s'.log.claimedBy && s'.log.claimedBy[id] == s.log.claimedBy[id])
  {
  }

  lemma ExecKeepsEvents(s: State, t: ThreadId, step: ExecStep)
    ensures forall id: MessageId :: Events(s, id) <= Events(ApplyExec(s, t, step), id)
  {
  }

  lemma ThreadKept(s: State, s': State, u: ThreadId, th: Thread)
    requires ThreadOk(s, u, th) && Grows(s, s')
    ensures ThreadOk(s', u, th)
  {
    if th.Conn? && th.cpc.FailClose? {
      assert Events(s, th.cpc.id) <= Events(s', th.cpc.id);
    } else if th.Exec? {
      assert Events(s, th.envelope.messageId) <= Events(s', th.envelope.messageId);
    }
  }

  lemma ListingTodo(s: State, b: Binding, status: IncomingStatus)
    requires KeysOk(s.tables)
    ensures Todo(s, b, IncomingByStatus(s.tables, b, status))
  {
    var ids := IncomingByStatus(s.tables, b, status);
    forall i, j | 0 <= i < j < |ids| ensures ids[i] != ids[j] {
      assert Before(StatusRows(s.tables, b, status), ids[i], ids[j]);
    }
  }

  // A connection step changes its own thread and launches at most one new one.
  lemma ConnTouches(s: State, t: ThreadId, step: ConnStep, u: ThreadId)
    requires u != t
    ensures var s' := ApplyConn(s, t, step);
      u in s.threads && u != s.nextThread ==> u in s'.threads && s'.threads[u] == s.threads[u]
    ensures var s' := ApplyConn(s, t, step);
      u in s'.threads && u != s.nextThread ==> u in s.threads
  {
  }

  // Connections never touch an execution that is already running.
  lemma ConnLeavesExecs(s: State, t: ThreadId, step: ConnStep, w: ThreadId)
    requires w < s.nextThread
    ensures var s' := ApplyConn(s, t, step);
      w in s'.threads && s'.threads[w].Exec? <==> w in s.threads && s.threads[w].Exec?
    ensures var s' := ApplyConn(s, t, step);
      w in s.threads && s.threads[w].Exec? ==> s'.threads[w] == s.threads[w]
    ensures var s' := ApplyConn(s, t, step);
      w in s'.threads ==> w in s.threads && s'.threads[w].Exec? == s.threads[w].Exec?
  {
  }

  lemma ConnLeavesStatus(s: State, t: ThreadId, step: ConnStep, id: MessageId)
    ensures var inbox, inbox' := s.tables.inbox, ApplyConn(s, t, step).tables.inbox;
      && (id in inbox ==> id in inbox' && (inbox[id].status == Accepted <==> inbox'[id].status == Accepted))
      && (id !in inbox && id in inbox' ==> inbox'[id].status == Accepted)
  {
  }

  lemma EventKept(s: State, s': State, id: MessageId)
    requires EventOk(s, id) && Extends(s.tables, s'.tables)
    requires Events(s', id) == Events(s, id)
    requires Count(s'.log.byExec, id) == Count(s.log.byExec, id)
    requires Count(s'.log.byRecovery, id) == Count(s.log.byRecovery, id)
    requires id in s'.log.events ==> id in s.log.events
    requires id in s'.tables.inbox && Terminal(s'.tables.inbox[id].status) ==>
      id in s.tables.inbox && (Terminal(s.tables.inbox[id].status) || Events(s, id) != {})
    ensures EventOk(s', id)
  {
  }

  lemma EventAdded(s: State, s': State, id: MessageId, event: MessageId)
    requires EventOk(s, id) && Extends(s.tables, s'.tables)
    requires event !in s.tables.outbox && event in s'.tables.outbox && id in s.tables.inbox
    requires Answers(s'.tables.outbox[event].envelope, s.tables.inbox[id].envelope)
    requires Events(s', id) == Events(s, id) + {event}
    requires Count(s'.log.byExec, id) + Count(s'.log.byRecovery, id) ==
             Count(s.log.byExec, id) + Count(s.log.byRecovery, id) + 1
    ensures EventOk(s', id)
  {
    assert event !in Events(s, id);
  }

  // ---------------------------------------------------------------- every step keeps each part

  lemma ConnRegistry(s: State, t: ThreadId, step: ConnStep, task: TaskId)
    requires RegistryOk(s, task)
    ensures RegistryOk(ApplyConn(s, t, step), task)
  {
  }

  lemma ExecRegistry(s: State, t: ThreadId, step: ExecStep, task: TaskId)
    requires RegistryOk(s, task)
    ensures RegistryOk(ApplyExec(s, t, step), task)
  {
  }

  lemma ConnThread(s: State, t: ThreadId, step: ConnStep, u: ThreadId)
    requires KeysOk(s.tables) && ThreadFine(s, t) && ThreadFine(s, u)
    ensures ThreadFine(ApplyConn(s, t, step), u)
  {
    var s' := ApplyConn(s, t, step);
    ConnGrows(s, t, step);
    if u in s'.threads {
      if u in s.threads && s'.threads[u] == s.threads[u] {
        ThreadKept(s, s', u, s.threads[u]);
      } else if AtConn(s, t) {
        if u == t {
          ListingTodo(s, s.threads[t].binding, Running);
          ListingTodo(s, s.threads[t].binding, Accepted);
          ConnMoved(s, t, step);
        } else {
          ConnTouches(s, t, step, u);
          ConnLaunched(s, t, step);
        }
      }
    }
  }

  lemma ConnMovedInRecovery(s: State, t: ThreadId, step: ConnStep)
    requires RecoveryStep(step)
    requires AtConn(s, t) && ThreadFine(s, t)
    requires Todo(s, s.threads[t].binding, IncomingByStatus(s.tables, s.threads[t].binding, Running))
    requires Todo(s, s.threads[t].binding, IncomingByStatus(s.tables, s.threads[t].binding, Accepted))
    ensures ThreadFine(ApplyConn(s, t, step), t)
  {
    match step {
      case SClaimRecovery =>
      case SQueryRunning(ok) =>
      case SFailInterrupted(event, ok) => FailMoved(s, t, event, ok);
      case SCloseInterrupted(ok) =>
      case SRunningDone =>
      case SQueryAccepted(ok) =>
      case SStartAccepted => StartMoved(s, t);
      case _ =>
    }
  }

  lemma FailMoved(s: State, t: ThreadId, event: MessageId, ok: bool)
    requires AtConn(s, t) && ThreadFine(s, t)
    ensures ThreadFine(FailInterrupted(s, t, event, ok), t)
  {
  }

  lemma StartMoved(s: State, t: ThreadId)
    requires AtConn(s, t) && ThreadFine(s, t)
    ensures ThreadFine(StartAccepted(s, t), t)
  {
  }

  lemma ConnMovedByFrame(s: State, t: ThreadId, step: ConnStep)
    requires !RecoveryStep(step)
    requires AtConn(s, t) && ThreadFine(s, t)
    requires Todo(s, s.threads[t].binding, IncomingByStatus(s.tables, s.threads[t].binding, Running))
    requires Todo(s, s.threads[t].binding, IncomingByStatus(s.tables, s.threads[t].binding, Accepted))
    ensures ThreadFine(ApplyConn(s, t, step), t)
  {
    match step {
      case SReadEnvelope(e, valid) =>
      case SWriteReceipt(ok) =>
      case SDisconnect =>
      case SReadReceipt(_, _) =>
      case _ =>
    }
  }

  lemma ConnMoved(s: State, t: ThreadId, step: ConnStep)
    requires AtConn(s, t) && ThreadFine(s, t)
    requires Todo(s, s.threads[t].binding, IncomingByStatus(s.tables, s.threads[t].binding, Running))
    requires Todo(s, s.threads[t].binding, IncomingByStatus(s.tables, s.threads[t].binding, Accepted))
    ensures ThreadFine(ApplyConn(s, t, step), t)
  {
    if RecoveryStep(step) {
      ConnMovedInRecovery(s, t, step);
    } else {
      ConnMovedByFrame(s, t, step);
    }
  }

  lemma ConnLaunched(s: State, t: ThreadId, step: ConnStep)
    requires AtConn(s, t) && ThreadFine(s, t) && s.nextThread !in s.threads
    ensures ThreadFine(ApplyConn(s, t, step), s.nextThread)
  {
    match step {
      case SStartAccepted =>
      case SReadEnvelope(e, valid) =>
      case SWriteReceipt(ok) =>
      case _ => assert s.nextThread !in ApplyConn(s, t, step).threads;
    }
  }

  lemma ExecLeavesThread(s: State, t: ThreadId, step: ExecStep, u: ThreadId)
    requires u != t
    ensures var s' := ApplyExec(s, t, step);
      (u in s'.threads <==> u in s.threads) && (u in s.threads ==> s'.threads[u] == s.threads[u])
  {
  }

  lemma ExecThread(s: State, t: ThreadId, step: ExecStep, u: ThreadId)
    requires ThreadFine(s, t) && ThreadFine(s, u) && ClaimFine(s, t)
    ensures ThreadFine(ApplyExec(s, t, step), u)
  {
    if u != t {
      ExecGrows(s, t, step);
      ExecLeavesThread(s, t, step, u);
      if u in s.threads { ThreadKept(s, ApplyExec(s, t, step), u, s.threads[u]); }
    } else if AtExec(s, t) {
      ExecMoved(s, t, step);
    }
  }

  lemma ExecMoved(s: State, t: ThreadId, step: ExecStep)
    requires AtExec(s, t) && ThreadFine(s, t)
    ensures ThreadFine(ApplyExec(s, t, step), t)
  {
    match step {
      case SClaim(ok) =>
      case SRegisterCommand =>
      case SBegin(event, ok) =>
      case SHeartbeat(event) =>
      case SEndTurn(success) =>
      case SEmitTerminal(event, ok) =>
      case SClose(ok) =>
      case SLeave =>
    }
  }

  lemma ClaimKept(s: State, s': State, id: MessageId)
    requires ClaimOk(s, id) && s.nextThread <= s'.nextThread
    requires id in s'.log.claimedBy <==> id in s.log.claimedBy
    requires id in s.log.claimedBy ==> s'.log.claimedBy[id] == s.log.claimedBy[id]
    requires Count(s'.log.starts, id) == Count(s.log.starts, id)
    requires Count(s'.log.byExec, id) == Count(s.log.byExec, id)
    requires id in s.tables.inbox ==>
      id in s'.tables.inbox && (s.tables.inbox[id].status == Accepted <==> s'.tables.inbox[id].status == Accepted)
    requires id !in s.tables.inbox && id in s'.tables.inbox ==> s'.tables.inbox[id].status == Accepted
    requires id in s.log.claimedBy && s.log.claimedBy[id] in s'.threads ==>
      s.log.claimedBy[id] in s.threads && s'.threads[s.log.claimedBy[id]] == s.threads[s.log.claimedBy[id]]
    ensures ClaimOk(s', id)
  {
  }

  lemma ConnClaim(s: State, t: ThreadId, step: ConnStep, id: MessageId)
    requires ClaimOk(s, id)
    ensures ClaimOk(ApplyConn(s, t, step), id)
  {
    var s' := ApplyConn(s, t, step);
    ConnLeavesStatus(s, t, step, id);
    ConnLeavesClaims(s, t, step);
    if id in s.log.claimedBy { ConnLeavesExecs(s, t, step, s.log.claimedBy[id]); }
    ClaimKept(s, s', id);
  }

  lemma ConnLeavesClaims(s: State, t: ThreadId, step: ConnStep)
    ensures var s' := ApplyConn(s, t, step);
      && s'.log.claimedBy == s.log.claimedBy && s'.log.starts == s.log.starts && s'.log.byExec == s.log.byExec
      && s.nextThread <= s'.nextThread
  {
  }

  lemma ExecClaim(s: State, t: ThreadId, step: ExecStep, id: MessageId)
    requires ThreadFine(s, t) && ClaimOk(s, id)
    ensures ClaimOk(ApplyExec(s, t, step), id)
  {
    if AtExec(s, t) {
      if s.threads[t].envelope.messageId == id { ExecClaimOwn(s, t, step); } else { ExecClaimOther(s, t, step, id); }
    }
  }

  lemma ExecClaimOther(s: State, t: ThreadId, step: ExecStep, id: MessageId)
    requires AtExec(s, t) && ClaimOk(s, id) && s.threads[t].envelope.messageId != id
    ensures ClaimOk(ApplyExec(s, t, step), id)
  {
    ExecLeavesOthers(s, t, step, id);
    ClaimKept(s, ApplyExec(s, t, step), id);
  }

  // Nothing of the assignment and no thread other than t has changed.
  ghost predicate OthersLeft(s: State, s': State, t: ThreadId, id: MessageId) {
    && (id in s'.log.claimedBy <==> id in s.log.claimedBy)
    && (id in s.log.claimedBy ==> s'.log.claimedBy[id] == s.log.claimedBy[id])
    && Count(s'.log.starts, id) == Count(s.log.starts, id)
    && Count(s'.log.byExec, id) == Count(s.log.byExec, id)
    && (id in s'.tables.inbox <==> id in s.tables.inbox)
    && (id in s.tables.inbox ==> s'.tables.inbox[id] == s.tables.inbox[id])
    && s'.nextThread == s.nextThread
    && (forall w | w != t && w in s'.threads :: w in s.threads && s'.threads[w] == s.threads[w])
  }

  // An execution touches nothing of other assignments and no other thread.
  lemma ExecLeavesOthers(s: State, t: ThreadId, step: ExecStep, id: MessageId)
    requires AtExec(s, t) && s.threads[t].envelope.messageId != id
    ensures OthersLeft(s, ApplyExec(s, t, step), t, id)
  {
    if OpeningStep(step) {
      ExecLeavesOthersOpening(s, t, step, id);
    } else {
      ExecLeavesOthersEnding(s, t, step, id);
    }
  }

  lemma ExecLeavesOthersOpening(s: State, t: ThreadId, step: ExecStep, id: MessageId)
    requires OpeningStep(step)
    requires AtExec(s, t) && s.threads[t].envelope.messageId != id
    ensures OthersLeft(s, ApplyExec(s, t, step), t, id)
  {
    match step {
      case SClaim(ok) => ClaimLeavesOthers(s, t, ok, id);
      case SRegisterCommand =>
      case SBegin(event, ok) => BeginLeavesOthers(s, t, event, ok, id);
      case SHeartbeat(event) =>
      case _ =>
    }
  }

  lemma ClaimLeavesOthers(s: State, t: ThreadId, ok: bool, id: MessageId)
    requires AtExec(s, t) && s.threads[t].envelope.messageId != id
    ensures OthersLeft(s, Claim(s, t, ok), t, id)
  {
  }

  lemma BeginLeavesOthers(s: State, t: ThreadId, event: MessageId, ok: bool, id: MessageId)
    requires AtExec(s, t) && s.threads[t].envelope.messageId != id
    ensures OthersLeft(s, Begin(s, t, event, ok), t, id)
  {
  }

  lemma ExecLeavesOthersEnding(s: State, t: ThreadId, step: ExecStep, id: MessageId)
    requires !OpeningStep(step)
    requires AtExec(s, t) && s.threads[t].envelope.messageId != id
    ensures OthersLeft(s, ApplyExec(s, t, step), t, id)
  {
    match step {
      case SEndTurn(success) =>
      case SEmitTerminal(event, ok) =>
      case SClose(ok) =>
      case SLeave =>
      case _ =>
    }
  }

  lemma ExecClaimOwn(s: State, t: ThreadId, step: ExecStep)
    requires AtExec(s, t) && ThreadFine(s, t) && ClaimOk(s, s.threads[t].envelope.messageId)
    ensures ClaimOk(ApplyExec(s, t, step), s.threads[t].envelope.messageId)
  {
    if OpeningStep(step) {
      ExecClaimOwnOpening(s, t, step);
    } else {
      ExecClaimOwnEnding(s, t, step);
    }
  }

  lemma ExecClaimOwnOpening(s: State, t: ThreadId, step: ExecStep)
    requires OpeningStep(step)
    requires AtExec(s, t) && ThreadFine(s, t) && ClaimOk(s, s.threads[t].envelope.messageId)
    ensures ClaimOk(ApplyExec(s, t, step), s.threads[t].envelope.messageId)
  {
    match step {
      case SClaim(ok) =>
      case SRegisterCommand =>
      case SBegin(event, ok) =>
      case SHeartbeat(event) =>
      case _ =>
    }
  }

  lemma ExecClaimOwnEnding(s: State, t: ThreadId, step: ExecStep)
    requires !OpeningStep(step)
    requires AtExec(s, t) && ThreadFine(s, t) && ClaimOk(s, s.threads[t].envelope.messageId)
    ensures ClaimOk(ApplyExec(s, t, step), s.threads[t].envelope.messageId)
  {
    match step {
      case SEndTurn(success) =>
      case SEmitTerminal(event, ok) =>
      case SClose(ok) =>
      case SLeave =>
      case _ =>
    }
  }

  lemma ConnEvent(s: State, t: ThreadId, step: ConnStep, id: MessageId)
    requires ThreadFine(s, t) && EventOk(s, id)
    ensures EventOk(ApplyConn(s, t, step), id)
  {
    var s' := ApplyConn(s, t, step);
    ConnExtends(s, t, step);
    ConnEventFacts(s, t, step, id);
    if s'.log.byRecovery == s.log.byRecovery {
      EventKept(s, s', id);
    } else if id == s.threads[t].cpc.todo[0] {
      EventAdded(s, s', id, step.event);
    } else {
      EventKept(s, s', id);
    }
  }

  // The events stay, and an assignment becomes terminal only with its event.
  ghost predicate EventsLeft(s: State, s': State, id: MessageId) {
    && s'.log.events == s.log.events
    && s'.log.byExec == s.log.byExec && s'.log.byRecovery == s.log.byRecovery
    && TerminalHasEvent(s, s', id)
  }

  ghost predicate TerminalHasEvent(s: State, s': State, id: MessageId) {
    id in s'.tables.inbox && Terminal(s'.tables.inbox[id].status) ==>
      id in s.tables.inbox && (Terminal(s.tables.inbox[id].status) || Events(s, id) != {})
  }

  lemma ConnEventFacts(s: State, t: ThreadId, step: ConnStep, id: MessageId)
    requires ThreadFine(s, t)
    ensures var s' := ApplyConn(s, t, step);
      || EventsLeft(s, s', id)
      || (step.SFailInterrupted? && FailsNow(s, t, step.event)
          && s'.log.byExec == s.log.byExec && TerminalHasEvent(s, s', id))
  {
    if step.SCloseInterrupted? {
      ConnEventClosed(s, t, step.ok, id);
    } else if RecoveryStep(step) {
      ConnEventInRecovery(s, t, step, id);
    } else {
      ConnEventByFrame(s, t, step, id);
    }
  }

  lemma ConnEventClosed(s: State, t: ThreadId, ok: bool, id: MessageId)
    requires ThreadFine(s, t)
    ensures EventsLeft(s, CloseInterrupted(s, t, ok), id)
  {
  }

  lemma ConnEventInRecovery(s: State, t: ThreadId, step: ConnStep, id: MessageId)
    requires RecoveryStep(step) && !step.SCloseInterrupted?
    ensures var s' := ApplyConn(s, t, step);
      || EventsLeft(s, s', id)
      || (step.SFailInterrupted? && FailsNow(s, t, step.event)
          && s'.log.byExec == s.log.byExec && TerminalHasEvent(s, s', id))
  {
    match step {
      case SClaimRecovery =>
      case SQueryRunning(ok) =>
      case SFailInterrupted(event, ok) =>
      case SRunningDone =>
      case SQueryAccepted(ok) =>
      case SStartAccepted =>
      case _ =>
    }
  }

  lemma ConnEventByFrame(s: State, t: ThreadId, step: ConnStep, id: MessageId)
    requires !RecoveryStep(step)
    ensures EventsLeft(s, ApplyConn(s, t, step), id)
  {
    match step {
      case SReadEnvelope(e, valid) =>
      case SWriteReceipt(ok) =>
      case SDisconnect =>
      case SReadReceipt(_, _) =>
      case _ =>
    }
  }

  // Recovery is about to fail an interrupted agent task with a fresh event.
  ghost predicate FailsNow(s: State, t: ThreadId, event: MessageId) {
    && AtConn(s, t) && s.threads[t].cpc.FailNext? && s.threads[t].cpc.todo != []
    && s.threads[t].cpc.todo[0] in s.tables.inbox
    && s.tables.inbox[s.threads[t].cpc.todo[0]].envelope.kind == AgentTaskAssign
    && event !in s.tables.outbox
  }

  // The execution is about to store a fresh terminal event.
  ghost predicate EndsNow(s: State, t: ThreadId, step: ExecStep) {
    step.SEmitTerminal? && step.ok && AtExec(s, t) && s.threads[t].pc.Ending? && step.event !in s.tables.outbox
  }

  lemma ExecEvent(s: State, t: ThreadId, step: ExecStep, id: MessageId)
    requires ThreadFine(s, t) && EventOk(s, id)
    ensures EventOk(ApplyExec(s, t, step), id)
  {
    var s' := ApplyExec(s, t, step);
    ExecExtends(s, t, step);
    if !EndsNow(s, t, step) {
      ExecLeavesEvents(s, t, step, id);
      EventKept(s, s', id);
    } else {
      ExecAddsEvent(s, t, step, id);
      if id == s.threads[t].envelope.messageId {
        EventAdded(s, s', id, step.event);
      } else {
        EventKept(s, s', id);
      }
    }
  }

  lemma ExecAddsEvent(s: State, t: ThreadId, step: ExecStep, id: MessageId)
    requires EndsNow(s, t, step)
    ensures var s' := ApplyExec(s, t, step);
      s'.log.byRecovery == s.log.byRecovery && TerminalHasEvent(s, s', id)
  {
  }

  lemma ExecLeavesEvents(s: State, t: ThreadId, step: ExecStep, id: MessageId)
    requires ThreadFine(s, t) && !EndsNow(s, t, step)
    ensures EventsLeft(s, ApplyExec(s, t, step), id)
  {
    match step {
      case SClaim(ok) => ClaimLeavesEvents(s, t, ok, id);
      case SRegisterCommand =>
      case SBegin(event, ok) => BeginLeavesEvents(s, t, event, ok, id);
      case SHeartbeat(event) =>
      case SEndTurn(success) =>
      case SEmitTerminal(event, ok) =>
      case SClose(ok) => CloseLeavesEvents(s, t, ok, id);
      case SLeave =>
    }
  }

  lemma ClaimLeavesEvents(s: State, t: ThreadId, ok: bool, id: MessageId)
    ensures EventsLeft(s, Claim(s, t, ok), id)
  {
  }

  lemma BeginLeavesEvents(s: State, t: ThreadId, event: MessageId, ok: bool, id: MessageId)
    ensures EventsLeft(s, Begin(s, t, event, ok), id)
  {
  }

  lemma CloseLeavesEvents(s: State, t: ThreadId, ok: bool, id: MessageId)
    requires ThreadFine(s, t)
    ensures EventsLeft(s, Close(s, t, ok), id)
  {
  }

  lemma ConnPass(s: State, t: ThreadId, step: ConnStep, u: ThreadId, v: ThreadId)
    requires PassOk(s, u, v) && PassOk(s, v, u)
    ensures PassOk(ApplyConn(s, t, step), u, v)
  {
  }

  lemma ExecPass(s: State, t: ThreadId, step: ExecStep, u: ThreadId, v: ThreadId)
    requires PassOk(s, u, v) && PassOk(s, v, u)
    ensures PassOk(ApplyExec(s, t, step), u, v)
  {
  }

  lemma ConnPassCount(s: State, t: ThreadId, step: ConnStep, b: Binding)
    requires PassCountOk(s, b)
    ensures PassCountOk(ApplyConn(s, t, step), b)
  {
  }

  lemma ConnFound(s: State, t: ThreadId, step: ConnStep, id: MessageId)
    requires ThreadFine(s, t) && FoundOk(s, id) && PendingOk(s, id, t)
    ensures FoundOk(ApplyConn(s, t, step), id)
  {
    if RecoveryStep(step) {
      ConnFoundInRecovery(s, t, step, id);
    } else {
      ConnFoundByFrame(s, t, step, id);
    }
  }

  lemma ConnFoundInRecovery(s: State, t: ThreadId, step: ConnStep, id: MessageId)
    requires RecoveryStep(step)
    requires ThreadFine(s, t) && FoundOk(s, id) && PendingOk(s, id, t)
    ensures FoundOk(ApplyConn(s, t, step), id)
  {
  }

  lemma ConnFoundByFrame(s: State, t: ThreadId, step: ConnStep, id: MessageId)
    requires !RecoveryStep(step)
    requires FoundOk(s, id)
    ensures FoundOk(ApplyConn(s, t, step), id)
  {
  }

  // An execution leaves alone what recovery has counted, and the envelopes.
  ghost predicate RecoveryLeft(s: State, s': State) {
    s'.log.found == s.log.found && s'.log.byRecovery == s.log.byRecovery && s'.passes == s.passes
  }

  lemma ExecLeavesRecovery(s: State, t: ThreadId, step: ExecStep)
    ensures RecoveryLeft(s, ApplyExec(s, t, step))
  {
    match step {
      case SClaim(ok) =>
      case SRegisterCommand =>
      case SBegin(event, ok) => BeginLeavesRecovery(s, t, event, ok);
      case SHeartbeat(event) =>
      case SEndTurn(success) =>
      case SEmitTerminal(event, ok) => EmitLeavesRecovery(s, t, event, ok);
      case SClose(ok) =>
      case SLeave =>
    }
  }

  lemma BeginLeavesRecovery(s: State, t: ThreadId, event: MessageId, ok: bool)
    ensures RecoveryLeft(s, Begin(s, t, event, ok))
  {
  }

  lemma EmitLeavesRecovery(s: State, t: ThreadId, event: MessageId, ok: bool)
    ensures RecoveryLeft(s, EmitTerminal(s, t, event, ok))
  {
  }

  lemma ExecLeavesEnvelopes(s: State, t: ThreadId, step: ExecStep, id: MessageId)
    ensures var inbox, inbox' := s.tables.inbox, ApplyExec(s, t, step).tables.inbox;
      (id in inbox' <==> id in inbox) && (id in inbox ==> inbox'[id].envelope == inbox[id].envelope)
  {
  }

  lemma ExecFound(s: State, t: ThreadId, step: ExecStep, id: MessageId)
    requires FoundOk(s, id)
    ensures FoundOk(ApplyExec(s, t, step), id)
  {
    ExecLeavesRecovery(s, t, step);
    ExecLeavesEnvelopes(s, t, step, id);
  }

  lemma PendingBinding(s: State, u: ThreadId, id: MessageId)
    requires AtConn(s, u) && ThreadFine(s, u) && Pending(s.threads[u].cpc, id)
    ensures id in s.tables.inbox && s.tables.inbox[id].envelope.binding == s.threads[u].binding
  {
    var cpc := s.threads[u].cpc;
    var k :| 0 <= k < |cpc.todo| && cpc.todo[k] == id;
  }

  lemma ConnPending(s: State, t: ThreadId, step: ConnStep, id: MessageId, u: ThreadId)
    requires ThreadFine(s, t) && ThreadFine(s, u) && FoundOk(s, id) && PendingOk(s, id, u)
    requires PassOk(s, t, u) && PassOk(s, u, t)
    ensures PendingOk(ApplyConn(s, t, step), id, u)
  {
    var s' := ApplyConn(s, t, step);
    if u == t {
      ConnPendingOwn(s, t, step, id);
    } else if u in s'.threads && u in s.threads && s.threads[u].Conn? {
      ConnTouches(s, t, step, u);
      if Pending(s.threads[u].cpc, id) { PendingBinding(s, u, id); }
      ConnPendingOther(s, t, step, id, u);
    }
  }

  lemma ConnPendingOwnInRecovery(s: State, t: ThreadId, step: ConnStep, id: MessageId)
    requires RecoveryStep(step)
    requires ThreadFine(s, t) && FoundOk(s, id) && PendingOk(s, id, t)
    ensures PendingOk(ApplyConn(s, t, step), id, t)
  {
    match step {
      case SClaimRecovery =>
      case SQueryRunning(ok) => QueryPending(s, t, ok, id);
      case SFailInterrupted(event, ok) => FailPending(s, t, event, ok, id);
      case SCloseInterrupted(ok) =>
      case SRunningDone =>
      case SQueryAccepted(ok) =>
      case SStartAccepted =>
      case _ =>
    }
  }

  lemma QueryPending(s: State, t: ThreadId, ok: bool, id: MessageId)
    requires ThreadFine(s, t) && FoundOk(s, id) && PendingOk(s, id, t)
    ensures PendingOk(QueryRunning(s, t, ok), id, t)
  {
  }

  lemma FailPending(s: State, t: ThreadId, event: MessageId, ok: bool, id: MessageId)
    requires ThreadFine(s, t) && FoundOk(s, id) && PendingOk(s, id, t)
    ensures PendingOk(FailInterrupted(s, t, event, ok), id, t)
  {
  }

  lemma ConnPendingOwnByFrame(s: State, t: ThreadId, step: ConnStep, id: MessageId)
    requires !RecoveryStep(step)
    requires ThreadFine(s, t) && FoundOk(s, id) && PendingOk(s, id, t)
    ensures PendingOk(ApplyConn(s, t, step), id, t)
  {
    match step {
      case SReadEnvelope(e, valid) =>
      case SWriteReceipt(ok) =>
      case SDisconnect =>
      case SReadReceipt(_, _) =>
      case _ =>
    }
  }

  lemma ConnPendingOwn(s: State, t: ThreadId, step: ConnStep, id: MessageId)
    requires ThreadFine(s, t) && FoundOk(s, id) && PendingOk(s, id, t)
    ensures PendingOk(ApplyConn(s, t, step), id, t)
  {
    if RecoveryStep(step) {
      ConnPendingOwnInRecovery(s, t, step, id);
    } else {
      ConnPendingOwnByFrame(s, t, step, id);
    }
  }

  lemma ConnPendingOtherInRecovery(s: State, t: ThreadId, step: ConnStep, id: MessageId, u: ThreadId)
    requires RecoveryStep(step)
    requires u != t && AtConn(s, u) && u < s.nextThread && ThreadFine(s, t) && FoundOk(s, id) && PendingOk(s, id, u)
    requires PassOk(s, t, u) && PassOk(s, u, t)
    requires Pending(s.threads[u].cpc, id) ==>
      id in s.tables.inbox && s.tables.inbox[id].envelope.binding == s.threads[u].binding
    ensures PendingOk(ApplyConn(s, t, step), id, u)
  {
    match step {
      case SClaimRecovery => ClaimLeavesPending(s, t, id, u);
      case SQueryRunning(ok) => QueryLeavesPending(s, t, ok, id, u);
      case SFailInterrupted(event, ok) => FailLeavesPending(s, t, event, ok, id, u);
      case SCloseInterrupted(ok) =>
      case SRunningDone =>
      case SQueryAccepted(ok) =>
      case SStartAccepted =>
      case _ =>
    }
  }

  lemma ClaimLeavesPending(s: State, t: ThreadId, id: MessageId, u: ThreadId)
    requires u != t && AtConn(s, u) && PendingOk(s, id, u) && PassOk(s, u, t)
    ensures PendingOk(ClaimRecovery(s, t), id, u)
  {
  }

  lemma QueryLeavesPending(s: State, t: ThreadId, ok: bool, id: MessageId, u: ThreadId)
    requires u != t && AtConn(s, u) && u < s.nextThread && ThreadFine(s, t) && FoundOk(s, id) && PendingOk(s, id, u)
    requires PassOk(s, t, u) && PassOk(s, u, t)
    requires Pending(s.threads[u].cpc, id) ==>
      id in s.tables.inbox && s.tables.inbox[id].envelope.binding == s.threads[u].binding
    ensures PendingOk(QueryRunning(s, t, ok), id, u)
  {
  }

  lemma FailLeavesPending(s: State, t: ThreadId, event: MessageId, ok: bool, id: MessageId, u: ThreadId)
    requires u != t && AtConn(s, u) && u < s.nextThread && ThreadFine(s, t) && FoundOk(s, id) && PendingOk(s, id, u)
    requires PassOk(s, t, u) && PassOk(s, u, t)
    requires Pending(s.threads[u].cpc, id) ==>
      id in s.tables.inbox && s.tables.inbox[id].envelope.binding == s.threads[u].binding
    ensures PendingOk(FailInterrupted(s, t, event, ok), id, u)
  {
  }

  lemma FrameLeavesRecovery(s: State, t: ThreadId, step: ConnStep)
    requires !RecoveryStep(step)
    ensures RecoveryLeft(s, ApplyConn(s, t, step))
  {
  }

  lemma ConnPendingOtherByFrame(s: State, t: ThreadId, step: ConnStep, id: MessageId, u: ThreadId)
    requires !RecoveryStep(step)
    requires u != t && AtConn(s, u) && u < s.nextThread && FoundOk(s, id) && PendingOk(s, id, u)
    ensures PendingOk(ApplyConn(s, t, step), id, u)
  {
    ConnTouches(s, t, step, u);
    FrameLeavesRecovery(s, t, step);
    ConnExtends(s, t, step);
  }

  lemma ConnPendingOther(s: State, t: ThreadId, step: ConnStep, id: MessageId, u: ThreadId)
    requires u != t && AtConn(s, u) && u < s.nextThread && ThreadFine(s, t) && FoundOk(s, id) && PendingOk(s, id, u)
    requires PassOk(s, t, u) && PassOk(s, u, t)
    requires Pending(s.threads[u].cpc, id) ==>
      id in s.tables.inbox && s.tables.inbox[id].envelope.binding == s.threads[u].binding
    ensures PendingOk(ApplyConn(s, t, step), id, u)
  {
    if RecoveryStep(step) {
      ConnPendingOtherInRecovery(s, t, step, id, u);
    } else {
      ConnPendingOtherByFrame(s, t, step, id, u);
    }
  }

  lemma ExecLeavesConns(s: State, t: ThreadId, step: ExecStep, u: ThreadId)
    ensures var s' := ApplyExec(s, t, step); AtConn(s', u) ==> AtConn(s, u) && s'.threads[u] == s.threads[u]
  {
  }

  lemma ExecPending(s: State, t: ThreadId, step: ExecStep, id: MessageId, u: ThreadId)
    requires PendingOk(s, id, u)
    ensures PendingOk(ApplyExec(s, t, step), id, u)
  {
    ExecLeavesRecovery(s, t, step);
    ExecLeavesEnvelopes(s, t, step, id);
    ExecLeavesConns(s, t, step, u);
  }

  // ---------------------------------------------------------------- steps of the environment

  lemma EnvThread(s: State, step: Step, u: ThreadId)
    requires !step.OnConn? && !step.OnExec? && ThreadFine(s, u)
    ensures ThreadFine(Apply(s, step), u)
  {
    var s' := Apply(s, step);
    StepExtends(s, step);
    if u in s.threads && u in s'.threads && u != s.nextThread {
      ThreadKept(s, s', u, s.threads[u]);
    }
  }

  lemma EnvClaim(s: State, step: Step, id: MessageId)
    requires !step.OnConn? && !step.OnExec? && ClaimOk(s, id)
    ensures ClaimOk(Apply(s, step), id)
  {
    ClaimKept(s, Apply(s, step), id);
  }

  lemma EnvEvent(s: State, step: Step, id: MessageId)
    requires !step.OnConn? && !step.OnExec? && EventOk(s, id)
    ensures EventOk(Apply(s, step), id)
  {
    StepExtends(s, step);
    EventKept(s, Apply(s, step), id);
  }

  lemma EnvPass(s: State, step: Step, t: ThreadId, u: ThreadId)
    requires !step.OnConn? && !step.OnExec? && PassOk(s, t, u)
    ensures PassOk(Apply(s, step), t, u)
  {
  }

  lemma EnvCounts(s: State, step: Step, b: Binding, id: MessageId, t: ThreadId, task: TaskId)
    requires !step.OnConn? && !step.OnExec?
    requires PassCountOk(s, b) && FoundOk(s, id) && PendingOk(s, id, t) && RegistryOk(s, task)
    ensures var s' := Apply(s, step);
      PassCountOk(s', b) && FoundOk(s', id) && PendingOk(s', id, t) && RegistryOk(s', task)
  {
  }

  lemma StepKeys(s: State, step: Step)
    requires KeysOk(s.tables)
    ensures KeysOk(Apply(s, step).tables)
  {
    match step {
      case OnConn(t, conn) =>
      case OnExec(t, exec) =>
      case _ =>
    }
  }

  // ---------------------------------------------------------------- the invariant holds in every run

  lemma ConnKeepsInv(s: State, t: ThreadId, step: ConnStep)
    requires Inv(s)
    ensures Inv(ApplyConn(s, t, step))
  {
    assert ThreadFine(s, t);
    StepKeys(s, OnConn(t, step));
    forall u: ThreadId ensures ThreadFine(ApplyConn(s, t, step), u) { ConnThread(s, t, step, u); }
    forall id: MessageId ensures ClaimOk(ApplyConn(s, t, step), id) { ConnClaim(s, t, step, id); }
    forall id: MessageId ensures EventOk(ApplyConn(s, t, step), id) { ConnEvent(s, t, step, id); }
    forall u: ThreadId, v: ThreadId ensures PassOk(ApplyConn(s, t, step), u, v) { ConnPass(s, t, step, u, v); }
    forall b: Binding ensures PassCountOk(ApplyConn(s, t, step), b) { ConnPassCount(s, t, step, b); }
    forall id: MessageId ensures FoundOk(ApplyConn(s, t, step), id) {
      assert PendingOk(s, id, t);
      ConnFound(s, t, step, id);
    }
    forall id: MessageId, u: ThreadId ensures PendingOk(ApplyConn(s, t, step), id, u) {
      ConnPending(s, t, step, id, u);
    }
    forall task: TaskId ensures RegistryOk(ApplyConn(s, t, step), task) { ConnRegistry(s, t, step, task); }
  }

  lemma ExecKeepsInv(s: State, t: ThreadId, step: ExecStep)
    requires Inv(s)
    ensures Inv(ApplyExec(s, t, step))
  {
    assert ThreadFine(s, t);
    assert ClaimFine(s, t);
    StepKeys(s, OnExec(t, step));
    forall u: ThreadId ensures ThreadFine(ApplyExec(s, t, step), u) { ExecThread(s, t, step, u); }
    forall id: MessageId ensures ClaimOk(ApplyExec(s, t, step), id) { ExecClaim(s, t, step, id); }
    forall id: MessageId ensures EventOk(ApplyExec(s, t, step), id) { ExecEvent(s, t, step, id); }
    forall u: ThreadId, v: ThreadId ensures PassOk(ApplyExec(s, t, step), u, v) { ExecPass(s, t, step, u, v); }
    forall b: Binding ensures PassCountOk(ApplyExec(s, t, step), b) { assert PassCountOk(s, b); }
    forall id: MessageId ensures FoundOk(ApplyExec(s, t, step), id) { ExecFound(s, t, step, id); }
    forall id: MessageId, u: ThreadId ensures PendingOk(ApplyExec(s, t, step), id, u) {
      ExecPending(s, t, step, id, u);
    }
    forall task: TaskId ensures RegistryOk(ApplyExec(s, t, step), task) { ExecRegistry(s, t, step, task); }
  }

  lemma EnvKeepsInv(s: State, step: Step)
    requires Inv(s) && !step.OnConn? && !step.OnExec?
    ensures Inv(Apply(s, step))
  {
    var s' := Apply(s, step);
    StepKeys(s, step);
    forall u: ThreadId ensures ThreadFine(s', u) { EnvThread(s, step, u); }
    forall id: MessageId ensures ClaimOk(s', id) { assert ClaimOk(s, id); EnvClaim(s, step, id); }
    forall id: MessageId ensures EventOk(s', id) { assert EventOk(s, id); EnvEvent(s, step, id); }
    forall u: ThreadId, v: ThreadId ensures PassOk(s', u, v) { EnvPass(s, step, u, v); }
    forall b: Binding ensures PassCountOk(s', b) { EnvCounts(s, step, b, 0, 0, 0); }
    forall id: MessageId, t: ThreadId ensures FoundOk(s', id) && PendingOk(s', id, t) {
      EnvCounts(s, step, Binding(0, 0), id, t, 0);
    }
    forall id: MessageId ensures FoundOk(s', id) { EnvCounts(s, step, Binding(0, 0), id, 0, 0); }
    forall task: TaskId ensures RegistryOk(s', task) { EnvCounts(s, step, Binding(0, 0), 0, 0, task); }
  }

  lemma StepKeepsInv(s: State, step: Step)
    requires Inv(s)
    ensures Inv(Apply(s, step))
  {
    match step {
      case OnConn(t, conn) => ConnKeepsInv(s, t, conn);
      case OnExec(t, exec) => ExecKeepsInv(s, t, exec);
      case _ => EnvKeepsInv(s, step);
    }
  }

  lemma {:induction false} RunFromKeepsInv(s: State, steps: seq<Step>)
    requires Inv(s)
    ensures Inv(RunFrom(s, steps))
    decreases |steps|
  {
    if steps != [] {
      StepKeepsInv(s, steps[0]);
      RunFromKeepsInv(Apply(s, steps[0]), steps[1..]);
    }
  }

  lemma RunKeepsInv(steps: seq<Step>)
    ensures Inv(Run(steps))
  {
    forall id: MessageId ensures ClaimOk(INIT, id) && EventOk(INIT, id) && FoundOk(INIT, id) {}
    RunFromKeepsInv(INIT, steps);
  }

  /** From any reachable state on, no row is lost, no envelope changes, an inbox status only
      moves forward and an acknowledged message stays acknowledged, crashes included. */
  lemma {:induction false} RunExtends(s: State, steps: seq<Step>)
    requires Inv(s)
    ensures Extends(s.tables, RunFrom(s, steps).tables)
    decreases |steps|
  {
    if steps != [] {
      var next := Apply(s, steps[0]);
      if steps[0].OnExec? { assert ThreadFine(s, steps[0].t); }
      StepExtends(s, steps[0]);
      StepKeepsInv(s, steps[0]);
      RunExtends(next, steps[1..]);
      ExtendsTransitive(s.tables, next.tables, RunFrom(s, steps).tables);
    }
  }

  // ---------------------------------------------------------------- main results

  /** Each assignment starts its agent turn or command at most once over the whole run, and
      never while its status is still accepted. */
  lemma StartsAtMostOnce(steps: seq<Step>, id: MessageId)
    ensures var s := Run(steps);
      && Count(s.log.starts, id) <= 1
      && (Count(s.log.starts, id) == 1 ==> id in s.tables.inbox && s.tables.inbox[id].status != Accepted)
  {
    RunKeepsInv(steps);
    assert ClaimOk(Run(steps), id);
  }

  function Crashes(steps: seq<Step>): nat {
    if steps == [] then 0 else (if steps[0].SCrash? then 1 else 0) + Crashes(steps[1..])
  }

  lemma {:induction false} IncarnationsCountCrashes(s: State, steps: seq<Step>)
    ensures RunFrom(s, steps).incarnations == s.incarnations + Crashes(steps)
    decreases |steps|
  {
    if steps != [] { IncarnationsCountCrashes(Apply(s, steps[0]), steps[1..]); }
  }

  /** A binding is recovered at most once by each process. */
  lemma PassesBoundedByProcesses(steps: seq<Step>, b: Binding)
    ensures Count(Run(steps).passes, b) <= Run(steps).incarnations == 1 + Crashes(steps)
  {
    RunKeepsInv(steps);
    assert PassCountOk(Run(steps), b);
    IncarnationsCountCrashes(INIT, steps);
  }

  /** The bridge emits at most one terminal event for an assignment plus one for each recovery
      pass that found it running, and there is at most one such pass per process.  A command
      assignment, which recovery skips, gets at most one. */
  lemma TerminalEventsBounded(steps: seq<Step>, id: MessageId)
    ensures var s := Run(steps);
      && |Events(s, id)| <= 1 + Count(s.log.found, id) <= 2 + Crashes(steps)
      && (id in s.tables.inbox && s.tables.inbox[id].envelope.kind != AgentTaskAssign ==> |Events(s, id)| <= 1)
  {
    RunKeepsInv(steps);
    var s := Run(steps);
    assert EventOk(s, id) && ClaimOk(s, id) && FoundOk(s, id);
    if id in s.tables.inbox { PassesBoundedByProcesses(steps, s.tables.inbox[id].envelope.binding); }
  }

  // ---------------------------------------------------------------- runs put together

  const B0 := Binding(0, 0)

  lemma {:induction false} RunAlong(states: seq<State>, steps: seq<Step>)
    requires |states| == |steps| + 1
    requires forall i | 0 <= i < |steps| :: states[i + 1] == Apply(states[i], steps[i])
    ensures RunFrom(states[0], steps) == states[|steps|]
    decreases |steps|
  {
    if steps != [] { RunAlong(states[1..], steps[1..]); }
  }

  lemma {:induction false} NoCrashes(steps: seq<Step>)
    requires forall i | 0 <= i < |steps| :: !steps[i].SCrash?
    ensures Crashes(steps) == 0
  {
    if steps != [] { NoCrashes(steps[1..]); }
  }

  lemma {:induction false} RunAppend(s: State, a: seq<Step>, b: seq<Step>)
    ensures RunFrom(s, a + b) == RunFrom(RunFrom(s, a), b) && Crashes(a + b) == Crashes(a) + Crashes(b)
    decreases |a|
  {
    if a == [] {
      assert a + b == b;
    } else {
      assert (a + b)[1..] == a[1..] + b;
      RunAppend(Apply(s, a[0]), a[1..], b);
    }
  }
}
