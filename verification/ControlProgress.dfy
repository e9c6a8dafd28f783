/**
  Progress of the control protocol: what a frame comes to, and that executions end.
*/
module ControlProgress {
  import opened ControlStore
  import opened ControlProtocol
  import opened ControlSafety
  import opened ControlCancel
  import opened Wrappers

  // ---------------------------------------------------------------- from a frame to the turn

  // An agent task announces its turn and then that it is alive; a command tells nothing before its end.
  function WithTurnEvents(outbox: map<MessageId, OutboxRow>, e: Envelope, started: MessageId, beat: MessageId,
                          now: int): map<MessageId, OutboxRow> {
    if e.kind != AgentTaskAssign then outbox
    else
      outbox[started := OutboxRow(Envelope(started, AgentTaskStarted, e.binding, e.taskId), Pending, 0, None, now)]
            [beat := OutboxRow(Envelope(beat, AgentTaskHeartbeat, e.binding, e.taskId), Pending, 0, None, now)]
  }

  // A connection reads an assignment and its execution begins; the steps an execution has no use
  // for leave everything as it is.
  function AssignmentSteps(t: ThreadId, w: ThreadId, e: Envelope, started: MessageId, beat: MessageId): seq<Step> {
    [OnConn(t, SReadEnvelope(e, true)), OnConn(t, SWriteReceipt(true))]
    + [OnExec(w, SClaim(true)), OnExec(w, SRegisterCommand), OnExec(w, SBegin(started, true)),
       OnExec(w, SHeartbeat(beat))]
  }

  function AfterFrame(s: State, t: ThreadId, e: Envelope): State {
    WriteReceipt(ReadEnvelope(s, t, e, true), t, true)
  }

  function AfterStart(s: State, w: ThreadId, started: MessageId, beat: MessageId): State {
    Heartbeat(Begin(RegisterCommand(Claim(s, w, true), w), w, started, true), w, beat)
  }

  lemma AssignmentRuns(s: State, t: ThreadId, w: ThreadId, e: Envelope, started: MessageId, beat: MessageId)
    ensures RunFrom(s, AssignmentSteps(t, w, e, started, beat)) == AfterStart(AfterFrame(s, t, e), w, started, beat)
  {
    var first, s1 := [OnConn(t, SReadEnvelope(e, true)), OnConn(t, SWriteReceipt(true))], ReadEnvelope(s, t, e, true);
    RunAlong([s, s1, AfterFrame(s, t, e)], first);
    StartRuns(AfterFrame(s, t, e), w, started, beat);
    RunAppend(s, first, AssignmentSteps(t, w, e, started, beat)[2..]);
  }

  lemma StartRuns(s: State, w: ThreadId, started: MessageId, beat: MessageId)
    ensures RunFrom(s, [OnExec(w, SClaim(true)), OnExec(w, SRegisterCommand), OnExec(w, SBegin(started, true)),
                        OnExec(w, SHeartbeat(beat))]) ==
            AfterStart(s, w, started, beat)
  {
    var s1 := Claim(s, w, true);
    var s2 := RegisterCommand(s1, w);
    var s3 := Begin(s2, w, started, true);
    RunAlong([s, s1, s2, s3, Heartbeat(s3, w, beat)],
             [OnExec(w, SClaim(true)), OnExec(w, SRegisterCommand), OnExec(w, SBegin(started, true)),
              OnExec(w, SHeartbeat(beat))]);
  }

  lemma FrameLaunches(s: State, t: ThreadId, e: Envelope)
    requires AcceptedFrame(s, t, e) && IsAssignment(e.kind) && s.nextThread !in s.threads
    ensures var s', w := AfterFrame(s, t, e), s.nextThread;
      && AtConn(s', t) && s'.threads[t].cpc.Idle?
      && AtExec(s', w) && s'.threads[w].envelope == e && s'.threads[w].pc.Queued?
      && (s'.threads[w].token.None? <==> e.kind != AgentTaskAssign)
      && (s'.threads[w].token.Some? ==> IsRegistered(s', w))
      && HasStatus(s'.tables, e.messageId, Accepted) && s'.tables.outbox == s.tables.outbox
  {
  }

  lemma QueuedReachesTurn(s: State, w: ThreadId, started: MessageId, beat: MessageId)
    requires AtExec(s, w) && s.threads[w].pc.Queued? && IsAssignment(s.threads[w].envelope.kind)
    requires s.threads[w].token.None? <==> s.threads[w].envelope.kind != AgentTaskAssign
    requires s.threads[w].token.Some? ==> IsRegistered(s, w)
    requires HasStatus(s.tables, s.threads[w].envelope.messageId, Accepted)
    requires started !in s.tables.outbox && beat !in s.tables.outbox && started != beat
    ensures var s', e := AfterStart(s, w, started, beat), s.threads[w].envelope;
      && AtExec(s', w) && s'.threads[w].envelope == e && s'.threads[w].pc.Turn? && IsRegistered(s', w)
      && HasStatus(s'.tables, e.messageId, Running)
      && s'.tables.outbox == WithTurnEvents(s.tables.outbox, e, started, beat, s.now)
  {
    var s2 := RegisterCommand(Claim(s, w, true), w);
    assert s2.threads[w].pc.Claimed? && s2.threads[w].token.Some? && IsRegistered(s2, w);
  }

  /** In every reachable state a new assignment that an idle connection of its binding reads is
      stored and reaches its turn, for the first time, in six steps: it runs in an execution of its
      own that a cancel frame finds, its row is running, and for an agent task the outbox holds its
      started and heartbeat events. */
  lemma AssignmentReachesItsTurn(steps: seq<Step>, t: ThreadId, e: Envelope, started: MessageId, beat: MessageId)
    requires AcceptedFrame(Run(steps), t, e) && IsAssignment(e.kind)
    requires started !in Run(steps).tables.outbox && beat !in Run(steps).tables.outbox && started != beat
    ensures var s, w := Run(steps), Run(steps).nextThread;
      var s' := RunFrom(s, AssignmentSteps(t, w, e, started, beat));
      && w !in s.threads && AtExec(s', w) && s'.threads[w].envelope == e && s'.threads[w].pc.Turn?
      && IsRegistered(s', w) && HasStatus(s'.tables, e.messageId, Running)
      && s'.tables.outbox == WithTurnEvents(s.tables.outbox, e, started, beat, s.now)
  {
    RunKeepsInv(steps);
    var s := Run(steps);
    assert ThreadFine(s, s.nextThread);
    AssignmentRuns(s, t, s.nextThread, e, started, beat);
    FrameLaunches(s, t, e);
    QueuedReachesTurn(AfterFrame(s, t, e), s.nextThread, started, beat);
  }

  /** A frame that an idle connection reads puts a row into the inbox if and only if it is valid, of one
      of the hub's kinds, of the connection's binding and new; its row is accepted and holds it.
      Any other frame changes nothing at all. */
  lemma FrameIsStoredExactlyWhen(steps: seq<Step>, t: ThreadId, e: Envelope, valid: bool)
    requires AtConn(Run(steps), t) && Run(steps).threads[t].cpc.Idle?
    ensures var s, s' := Run(steps), ReadEnvelope(Run(steps), t, e, valid);
      var isNew := && valid && e.binding == s.threads[t].binding && e.messageId !in s.tables.inbox
                   && e.kind in {AgentTaskAssign, ExecRunAssign, DependencyUpdateAssign, AgentTaskCancel, RunSuspend,
                                 RunTerminate, RunResume, WorkflowSync};
      && (isNew ==> s'.tables == s.tables.(inbox := s.tables.inbox[e.messageId := InboxRow(e, Accepted, s.now)]))
      && (!isNew ==> s' == s)
  {
  }

  // ---------------------------------------------------------------- executions end

  // Which of its statements and conditions succeed.
  datatype Luck = Luck(claimed: bool, begun: bool, success: bool, stored: bool, closed: bool)

  function LifeSteps(w: ThreadId, luck: Luck, started: MessageId, ended: MessageId): seq<Step> {
    [OnExec(w, SClaim(luck.claimed)), OnExec(w, SRegisterCommand), OnExec(w, SBegin(started, luck.begun))]
    + [OnExec(w, SEndTurn(luck.success)), OnExec(w, SEmitTerminal(ended, luck.stored)), OnExec(w, SClose(luck.closed)),
       OnExec(w, SLeave)]
  }

  function Opened(s: State, w: ThreadId, luck: Luck, started: MessageId): State {
    Begin(RegisterCommand(Claim(s, w, luck.claimed), w), w, started, luck.begun)
  }

  function Ended(s: State, w: ThreadId, luck: Luck, ended: MessageId): State {
    Close(EmitTerminal(EndTurn(s, w, luck.success), w, ended, luck.stored), w, luck.closed)
  }

  lemma LifeRuns(s: State, w: ThreadId, luck: Luck, started: MessageId, ended: MessageId)
    ensures RunFrom(s, LifeSteps(w, luck, started, ended)) ==
            Leave(Ended(Opened(s, w, luck, started), w, luck, ended), w)
  {
    var first := [OnExec(w, SClaim(luck.claimed)), OnExec(w, SRegisterCommand), OnExec(w, SBegin(started, luck.begun))];
    var s1 := Claim(s, w, luck.claimed);
    var s2 := RegisterCommand(s1, w);
    var s3 := Begin(s2, w, started, luck.begun);
    RunAlong([s, s1, s2, s3], first);
    var rest := LifeSteps(w, luck, started, ended)[3..];
    EndRuns(s3, w, luck, ended);
    RunAppend(s, first, rest);
  }

  lemma EndRuns(s: State, w: ThreadId, luck: Luck, ended: MessageId)
    ensures RunFrom(s, [OnExec(w, SEndTurn(luck.success)), OnExec(w, SEmitTerminal(ended, luck.stored)),
                        OnExec(w, SClose(luck.closed)), OnExec(w, SLeave)]) ==
            Leave(Ended(s, w, luck, ended), w)
  {
    var s1 := EndTurn(s, w, luck.success);
    var s2 := EmitTerminal(s1, w, ended, luck.stored);
    var s3 := Close(s2, w, luck.closed);
    RunAlong([s, s1, s2, s3, Leave(s3, w)],
             [OnExec(w, SEndTurn(luck.success)), OnExec(w, SEmitTerminal(ended, luck.stored)),
              OnExec(w, SClose(luck.closed)), OnExec(w, SLeave)]);
  }

  // The execution is gone, cancelled, and out of the registry.
  ghost predicate LeftNothing(s: State, s': State, w: ThreadId)
    requires AtExec(s, w)
  {
    && w !in s'.threads
    && (s.threads[w].token.Some? ==> s.threads[w].token.value in s'.regs.cancelled)
    && (forall task | task in s'.regs.registry ::
          && task in s.regs.registry && s'.regs.registry[task] == s.regs.registry[task]
          && s.threads[w].token != Some(s'.regs.registry[task]))
  }

  // Registrations are the old ones, but for one of the execution itself.
  ghost predicate AddsOwnOnly(s: State, s': State, w: ThreadId) {
    forall task | task in s'.regs.registry ::
      || (task in s.regs.registry && s'.regs.registry[task] == s.regs.registry[task])
      || (AtExec(s', w) && s'.threads[w].token == Some(s'.regs.registry[task]) && s'.threads[w].envelope.taskId == task)
  }

  lemma OpensOrLeaves(s: State, w: ThreadId, luck: Luck, started: MessageId)
    requires AtExec(s, w) && ThreadFine(s, w) && started !in s.tables.outbox
    ensures var s' := Opened(s, w, luck, started);
      && AtExec(s', w) && !s'.threads[w].pc.Queued? && !s'.threads[w].pc.Claimed?
      && s'.threads[w].envelope == s.threads[w].envelope
      && (s.threads[w].token.Some? ==> s'.threads[w].token == s.threads[w].token)
      && AddsOwnOnly(s, s', w)
      && s'.tables.outbox.Keys <= s.tables.outbox.Keys + {started}
  {
    ClaimsOrLeaves(s, w, luck.claimed);
    BeginsOrLeaves(RegisterCommand(Claim(s, w, luck.claimed), w), w, started, luck.begun);
  }

  lemma ClaimsOrLeaves(s: State, w: ThreadId, ok: bool)
    requires AtExec(s, w)
    ensures var s' := RegisterCommand(Claim(s, w, ok), w);
      && AtExec(s', w) && !s'.threads[w].pc.Queued?
      && (s'.threads[w].pc.Claimed? ==> s'.threads[w].token.Some?)
      && s'.threads[w].envelope == s.threads[w].envelope
      && (s.threads[w].token.Some? ==> s'.threads[w].token == s.threads[w].token)
      && AddsOwnOnly(s, s', w) && s'.tables.outbox == s.tables.outbox
  {
  }

  lemma BeginsOrLeaves(s: State, w: ThreadId, started: MessageId, ok: bool)
    requires AtExec(s, w) && !s.threads[w].pc.Queued? && started !in s.tables.outbox
    requires s.threads[w].pc.Claimed? ==> s.threads[w].token.Some?
    ensures var s' := Begin(s, w, started, ok);
      && AtExec(s', w) && !s'.threads[w].pc.Queued? && !s'.threads[w].pc.Claimed?
      && s'.threads[w].envelope == s.threads[w].envelope && s'.threads[w].token == s.threads[w].token
      && s'.regs == s.regs && s'.tables.outbox.Keys <= s.tables.outbox.Keys + {started}
  {
  }

  lemma EndsOrLeaves(s: State, w: ThreadId, luck: Luck, ended: MessageId)
    requires AtExec(s, w) && !s.threads[w].pc.Queued? && !s.threads[w].pc.Claimed? && ended !in s.tables.outbox
    ensures var s' := Ended(s, w, luck, ended);
      && AtExec(s', w) && s'.threads[w] == Exec(s.threads[w].envelope, s.threads[w].token, Leaving)
      && s'.regs == s.regs
  {
    var s1 := EndTurn(s, w, luck.success);
    assert s1.threads[w].pc.Ending? || s1.threads[w].pc.Closing? || s1.threads[w].pc.Leaving?;
    var s2 := EmitTerminal(s1, w, ended, luck.stored);
    assert s2.threads[w].pc.Closing? || s2.threads[w].pc.Leaving?;
  }

  lemma EndsWithNothing(s: State, atTurn: State, w: ThreadId, luck: Luck, ended: MessageId)
    requires AtExec(s, w) && AtExec(atTurn, w) && ended !in atTurn.tables.outbox
    requires !atTurn.threads[w].pc.Queued? && !atTurn.threads[w].pc.Claimed?
    requires atTurn.threads[w].envelope == s.threads[w].envelope
    requires s.threads[w].token.Some? ==> atTurn.threads[w].token == s.threads[w].token
    requires AddsOwnOnly(s, atTurn, w) && forall task: TaskId :: OwnTask(s, w, task)
    ensures LeftNothing(s, Leave(Ended(atTurn, w, luck, ended), w), w)
  {
    EndsOrLeaves(atTurn, w, luck, ended);
    LeavesNothing(s, Ended(atTurn, w, luck, ended), w);
  }

  lemma LeavesNothing(s: State, leaving: State, w: ThreadId)
    requires AtExec(s, w) && AtExec(leaving, w) && leaving.threads[w].pc.Leaving?
    requires leaving.threads[w].envelope == s.threads[w].envelope
    requires s.threads[w].token.Some? ==> leaving.threads[w].token == s.threads[w].token
    requires AddsOwnOnly(s, leaving, w) && forall task: TaskId :: OwnTask(s, w, task)
    ensures LeftNothing(s, Leave(leaving, w), w)
  {
    var after := Leave(leaving, w);
    forall task | task in after.regs.registry
      ensures task in s.regs.registry && after.regs.registry[task] == s.regs.registry[task]
      ensures s.threads[w].token != Some(after.regs.registry[task])
    {
      assert task in leaving.regs.registry && OwnTask(s, w, task);
    }
  }

  lemma LifeLeavesNothing(s: State, w: ThreadId, luck: Luck, started: MessageId, ended: MessageId)
    requires AtExec(s, w) && ThreadFine(s, w) && forall task: TaskId :: OwnTask(s, w, task)
    requires started !in s.tables.outbox && ended !in s.tables.outbox && started != ended
    ensures LeftNothing(s, Leave(Ended(Opened(s, w, luck, started), w, luck, ended), w), w)
  {
    OpensOrLeaves(s, w, luck, started);
    EndsWithNothing(s, Opened(s, w, luck, started), w, luck, ended);
  }

  lemma ReachableOwn(steps: seq<Step>, w: ThreadId)
    ensures ThreadFine(Run(steps), w) && forall task: TaskId :: OwnTask(Run(steps), w, task)
  {
    ReachableTokens(steps);
  }

  /** From every reachable state an execution, wherever it stands and whichever of its statements
      fail, is gone after seven steps of its own; its context is cancelled then, and the registry
      holds what it held before without any registration of the execution. */
  lemma EveryExecutionLeaves(steps: seq<Step>, w: ThreadId, luck: Luck, started: MessageId, ended: MessageId)
    requires AtExec(Run(steps), w) && started != ended
    requires started !in Run(steps).tables.outbox && ended !in Run(steps).tables.outbox
    ensures LeftNothing(Run(steps), RunFrom(Run(steps), LifeSteps(w, luck, started, ended)), w)
  {
    ReachableOwn(steps, w);
    LifeLeavesNothing(Run(steps), w, luck, started, ended);
    LifeRuns(Run(steps), w, luck, started, ended);
  }

  // ---------------------------------------------------------------- connections end

  // The receipt cannot be written, the frame is a receipt for no open message, or the hub hangs up.
  ghost predicate EndsConnection(s: State, t: ThreadId, step: ConnStep) {
    AtConn(s, t) &&
    match step
    case SWriteReceipt(ok) => s.threads[t].cpc.ReceiptDue? && !ok
    case SReadReceipt(id, _) =>
      s.threads[t].cpc.Idle? && (id !in s.tables.outbox || s.tables.outbox[id].status == Acknowledged)
    case SDisconnect => s.threads[t].cpc.Idle? || s.threads[t].cpc.Connected?
    case _ => false
  }

  /** Such a connection is gone for the rest of the run.  It takes nothing with it: the tables, the
      other threads and the registrations stay as they are, and no execution is launched for an
      assignment whose receipt was not written. */
  lemma EndedConnectionsStayGone(before: seq<Step>, t: ThreadId, step: ConnStep, more: seq<Step>)
    requires EndsConnection(Run(before), t, step)
    ensures var s, s' := Run(before), ApplyConn(Run(before), t, step);
      && t !in RunFrom(s', more).threads
      && s' == s.(threads := s.threads - {t})
  {
    RunKeepsInv(before);
    var s := Run(before);
    assert ThreadFine(s, t);
    RunKeepsGone(ApplyConn(s, t, step), more, t);
  }
}
