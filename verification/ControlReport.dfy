/**
  What the hub is told is how the turn or command ended.
*/
module ControlReport {
  import opened ControlStore
  import opened ControlProtocol
  import opened ControlOutcome
  import opened ControlSafety
  import opened Wrappers

  // ---------------------------------------------------------------- what happened to one assignment

  // How its turn or command ended, if it did, and the terminal event its execution stored.
  datatype Story = Story(ended: Option<bool>, reported: Option<MessageId>)

  const UNTOLD := Story(None, None)

  ghost predicate OnTurn(s: State, t: ThreadId, id: MessageId) {
    AtExec(s, t) && s.threads[t].envelope.messageId == id && s.threads[t].pc.Turn?
  }

  ghost predicate OnEnding(s: State, t: ThreadId, id: MessageId) {
    AtExec(s, t) && s.threads[t].envelope.messageId == id && s.threads[t].pc.Ending?
  }

  // Read off the run: the step that ends the turn says how, whatever the bridge makes of it.
  ghost function Told(h: Story, s: State, step: Step, id: MessageId): Story {
    if step.OnExec? && step.exec.SEndTurn? && OnTurn(s, step.t, id) then h.(ended := Some(step.exec.success))
    else if step.OnExec? && step.exec.SEmitTerminal? && step.exec.ok && OnEnding(s, step.t, id)
            && step.exec.event !in s.tables.outbox then h.(reported := Some(step.exec.event))
    else h
  }

  ghost function StoryFrom(h: Story, s: State, steps: seq<Step>, id: MessageId): Story
    decreases |steps|
  {
    if steps == [] then h else StoryFrom(Told(h, s, steps[0], id), Apply(s, steps[0]), steps[1..], id)
  }

  // ---------------------------------------------------------------- what should be reported

  predicate ReportKind(assignment: MessageKind, success: bool, kind: MessageKind) {
    match assignment
    case AgentTaskAssign => kind == if success then AgentTaskCompleted else AgentTaskFailed
    case ExecRunAssign => kind == if success then ExecRunCompleted else ExecRunFailed
    case DependencyUpdateAssign => kind == if success then DependencyUpdateCompleted else DependencyUpdateFailed
    case _ => false
  }

  // A command that ran is completed, also when it failed; a turn is completed if it succeeded.
  predicate ReportStatus(assignment: MessageKind, ended: Option<bool>, status: IncomingStatus) {
    if assignment == AgentTaskAssign then status == if ended == Some(true) then Completed else Failed
    else status == if ended.Some? then Completed else Failed
  }

  // ---------------------------------------------------------------- the invariant, for one assignment

  ghost predicate ThreadReports(s: State, h: Story, id: MessageId, t: ThreadId) {
    AtExec(s, t) && s.threads[t].envelope.messageId == id ==>
      var kind := s.threads[t].envelope.kind;
      match s.threads[t].pc
      case Claimed => h == UNTOLD
      case Turn => h == UNTOLD
      case Ending(event, to) =>
        && h.reported.None? && ReportKind(kind, h.ended == Some(true), event) && ReportStatus(kind, h.ended, to)
      case Closing(to) => h.reported.Some? && ReportStatus(kind, h.ended, to)
      case _ => true
  }

  ghost predicate PassReports(s: State, id: MessageId, t: ThreadId) {
    t in s.threads && s.threads[t].Conn? && s.threads[t].cpc.FailClose? && s.threads[t].cpc.id == id ==>
      && Count(s.log.byRecovery, id) > 0
      && id in s.tables.inbox && s.tables.inbox[id].envelope.kind == AgentTaskAssign
  }

  ghost predicate EventReports(s: State, h: Story, id: MessageId) {
    h.reported.Some? ==>
      && id in s.tables.inbox && h.reported.value in s.tables.outbox
      && s.tables.outbox[h.reported.value].envelope.taskId == s.tables.inbox[id].envelope.taskId
      && s.tables.outbox[h.reported.value].envelope.binding == s.tables.inbox[id].envelope.binding
      && ReportKind(s.tables.inbox[id].envelope.kind, h.ended == Some(true),
                    s.tables.outbox[h.reported.value].envelope.kind)
  }

  ghost predicate StatusReports(s: State, h: Story, id: MessageId) {
    id in s.tables.inbox && Terminal(s.tables.inbox[id].status) ==>
      || (h.reported.Some? && ReportStatus(s.tables.inbox[id].envelope.kind, h.ended, s.tables.inbox[id].status))
      || (s.tables.inbox[id].envelope.kind == AgentTaskAssign && s.tables.inbox[id].status == Failed
          && Count(s.log.byRecovery, id) > 0)
  }

  ghost predicate Unclaimed(s: State, h: Story, id: MessageId) {
    id !in s.log.claimedBy ==> h == UNTOLD
  }

  ghost predicate Reports(s: State, h: Story, id: MessageId) {
    && Inv(s)
    && Unclaimed(s, h, id) && EventReports(s, h, id) && StatusReports(s, h, id)
    && (forall t: ThreadId :: ThreadReports(s, h, id, t))
    && (forall t: ThreadId :: PassReports(s, id, t))
  }

  // ---------------------------------------------------------------- connections and the environment

  lemma ConnPassReports(s: State, t: ThreadId, step: ConnStep, id: MessageId, u: ThreadId)
    requires Inv(s) && PassReports(s, id, u)
    ensures PassReports(ApplyConn(s, t, step), id, u)
  {
    ConnExtends(s, t, step);
    ConnRecoveryGrows(s, t, step, id);
    if u != t {
      assert ThreadFine(s, s.nextThread);
      if u == s.nextThread { ConnLaunchesQueued(s, t, step); } else { ConnTouches(s, t, step, u); }
    } else {
      ConnOwnPass(s, t, step, id);
    }
  }

  lemma ConnRecoveryGrows(s: State, t: ThreadId, step: ConnStep, id: MessageId)
    ensures Count(s.log.byRecovery, id) <= Count(ApplyConn(s, t, step).log.byRecovery, id)
  {
  }

  lemma ConnOwnPass(s: State, t: ThreadId, step: ConnStep, id: MessageId)
    requires PassReports(s, id, t)
    ensures PassReports(ApplyConn(s, t, step), id, t)
  {
    if step.SFailInterrupted? {
      FailOwnPass(s, t, step.event, step.ok, id);
    } else {
      OtherOwnPass(s, t, step, id);
    }
  }

  lemma FailOwnPass(s: State, t: ThreadId, event: MessageId, ok: bool, id: MessageId)
    requires PassReports(s, id, t)
    ensures PassReports(FailInterrupted(s, t, event, ok), id, t)
  {
  }

  lemma OtherOwnPass(s: State, t: ThreadId, step: ConnStep, id: MessageId)
    requires PassReports(s, id, t) && !step.SFailInterrupted?
    ensures PassReports(ApplyConn(s, t, step), id, t)
  {
  }

  lemma ConnThreadReports(s: State, t: ThreadId, step: ConnStep, h: Story, id: MessageId, u: ThreadId)
    requires Inv(s) && ThreadReports(s, h, id, u)
    ensures ThreadReports(ApplyConn(s, t, step), h, id, u)
  {
    assert ThreadFine(s, u) && ThreadFine(s, s.nextThread);
    if u < s.nextThread {
      ConnLeavesExecs(s, t, step, u);
    } else if u == s.nextThread {
      ConnLaunchesQueued(s, t, step);
    } else {
      ConnTouchesLater(s, t, step, u);
    }
  }

  lemma ConnTouchesLater(s: State, t: ThreadId, step: ConnStep, u: ThreadId)
    requires u > s.nextThread && u !in s.threads
    ensures u !in ApplyConn(s, t, step).threads
  {
  }

  lemma ConnStatusReports(s: State, t: ThreadId, step: ConnStep, h: Story, id: MessageId)
    requires PassReports(s, id, t) && StatusReports(s, h, id) && EventReports(s, h, id)
    ensures StatusReports(ApplyConn(s, t, step), h, id) && EventReports(ApplyConn(s, t, step), h, id)
  {
    ConnExtends(s, t, step);
    ConnRecoveryGrows(s, t, step, id);
    ConnSettles(s, t, step, id);
  }

  lemma ConnReports(s: State, t: ThreadId, step: ConnStep, h: Story, id: MessageId)
    requires Reports(s, h, id)
    ensures Reports(ApplyConn(s, t, step), h, id)
  {
    StepKeepsInv(s, OnConn(t, step));
    ConnLeavesClaims(s, t, step);
    ConnStatusReports(s, t, step, h, id);
    forall u: ThreadId ensures ThreadReports(ApplyConn(s, t, step), h, id, u) {
      ConnThreadReports(s, t, step, h, id, u);
    }
    forall u: ThreadId ensures PassReports(ApplyConn(s, t, step), id, u) { ConnPassReports(s, t, step, id, u); }
  }

  lemma EnvReports(s: State, step: Step, h: Story, id: MessageId)
    requires Reports(s, h, id) && !step.OnConn? && !step.OnExec?
    ensures Reports(Apply(s, step), h, id)
  {
    StepKeepsInv(s, step);
    StepExtends(s, step);
    EnvLeaves(s, step, id);
    forall u: ThreadId ensures ThreadReports(Apply(s, step), h, id, u) && PassReports(Apply(s, step), id, u) {
      assert ThreadReports(s, h, id, u) && PassReports(s, id, u);
      EnvLeavesThread(s, step, u);
    }
  }

  lemma EnvLeaves(s: State, step: Step, id: MessageId)
    requires !step.OnConn? && !step.OnExec?
    ensures var s' := Apply(s, step); s'.log == s.log && s'.tables.inbox == s.tables.inbox
  {
  }

  lemma EnvLeavesThread(s: State, step: Step, u: ThreadId)
    requires !step.OnConn? && !step.OnExec?
    ensures var s' := Apply(s, step);
      u in s'.threads ==> (u in s.threads && s'.threads[u] == s.threads[u])
                          || (s'.threads[u].Conn? && s'.threads[u].cpc == Connected)
  {
  }

  // ---------------------------------------------------------------- executions

  // An execution of another assignment changes nothing here.
  lemma OtherExecReports(s: State, t: ThreadId, step: ExecStep, h: Story, id: MessageId)
    requires Reports(s, h, id) && AtExec(s, t) && s.threads[t].envelope.messageId != id
    ensures Reports(ApplyExec(s, t, step), h, id)
  {
    var s' := ApplyExec(s, t, step);
    StepKeepsInv(s, OnExec(t, step));
    assert ThreadFine(s, t);
    ExecExtends(s, t, step);
    ExecLeavesOthers(s, t, step, id);
    ExecLeavesRecovery(s, t, step);
    forall u: ThreadId ensures ThreadReports(s', h, id, u) && PassReports(s', id, u) {
      assert ThreadReports(s, h, id, u) && PassReports(s, id, u);
      if u == t { ExecKeepsEnvelope(s, t, step); } else { ExecLeavesThread(s, t, step, u); }
    }
  }

  lemma ExecKeepsEnvelope(s: State, t: ThreadId, step: ExecStep)
    requires AtExec(s, t)
    ensures var s' := ApplyExec(s, t, step);
      t in s'.threads ==> s'.threads[t].Exec? && s'.threads[t].envelope == s.threads[t].envelope
  {
  }

  // Only one execution is past its claim.
  lemma OneOwner(s: State, t: ThreadId, u: ThreadId)
    requires Inv(s) && AtExec(s, t) && AtExec(s, u)
    requires s.threads[t].envelope.messageId == s.threads[u].envelope.messageId
    requires Owns(s.threads[t].pc) && Owns(s.threads[u].pc)
    ensures t == u
  {
    assert ThreadFine(s, t) && ThreadFine(s, u);
  }

  lemma OwnExecReports(s: State, t: ThreadId, step: ExecStep, h: Story, id: MessageId)
    requires Reports(s, h, id) && AtExec(s, t) && s.threads[t].envelope.messageId == id
    ensures Reports(ApplyExec(s, t, step), Told(h, s, OnExec(t, step), id), id)
  {
    var s', h' := ApplyExec(s, t, step), Told(h, s, OnExec(t, step), id);
    StepKeepsInv(s, OnExec(t, step));
    assert ThreadFine(s, t) && ClaimOk(s, id) && ThreadReports(s, h, id, t);
    OwnRowReports(s, t, step, h, id);
    OwnThreadReports(s, t, step, h, id);
    forall u: ThreadId ensures ThreadReports(s', h', id, u) && PassReports(s', id, u) {
      if u != t { OtherThreadReports(s, t, step, h, id, u); } else { ExecStaysExec(s, t, step); }
    }
  }

  lemma ExecStaysExec(s: State, t: ThreadId, step: ExecStep)
    requires AtExec(s, t)
    ensures t in ApplyExec(s, t, step).threads ==> ApplyExec(s, t, step).threads[t].Exec?
  {
  }

  lemma OtherThreadReports(s: State, t: ThreadId, step: ExecStep, h: Story, id: MessageId, u: ThreadId)
    requires Reports(s, h, id) && AtExec(s, t) && s.threads[t].envelope.messageId == id && u != t
    ensures ThreadReports(ApplyExec(s, t, step), Told(h, s, OnExec(t, step), id), id, u)
    ensures PassReports(ApplyExec(s, t, step), id, u)
  {
    assert ThreadFine(s, t) && ThreadReports(s, h, id, u) && PassReports(s, id, u);
    ExecLeavesThread(s, t, step, u);
    ExecExtends(s, t, step);
    ExecLeavesRecovery(s, t, step);
    if AtExec(s, u) && s.threads[u].envelope.messageId == id && Owns(s.threads[u].pc) {
      OthersDoNotOwn(s, t, step, h, id, u);
    }
  }

  // When this execution's story moves on or its claim is made, no other is past the claim.
  lemma OthersDoNotOwn(s: State, t: ThreadId, step: ExecStep, h: Story, id: MessageId, u: ThreadId)
    requires Reports(s, h, id) && AtExec(s, t) && s.threads[t].envelope.messageId == id && u != t
    requires AtExec(s, u) && s.threads[u].envelope.messageId == id && Owns(s.threads[u].pc)
    ensures Told(h, s, OnExec(t, step), id) == h
  {
    if Owns(s.threads[t].pc) { OneOwner(s, t, u); }
  }

  lemma OwnThreadReports(s: State, t: ThreadId, step: ExecStep, h: Story, id: MessageId)
    requires AtExec(s, t) && s.threads[t].envelope.messageId == id
    requires ThreadFine(s, t) && ClaimOk(s, id) && Unclaimed(s, h, id) && ThreadReports(s, h, id, t)
    ensures ThreadReports(ApplyExec(s, t, step), Told(h, s, OnExec(t, step), id), id, t)
  {
    match step {
      case SClaim(ok) =>
      case SRegisterCommand =>
      case SBegin(event, ok) =>
      case SHeartbeat(event) =>
      case SEndTurn(success) =>
      case SEmitTerminal(event, ok) =>
      case SClose(ok) =>
      case SLeave =>
    }
  }

  lemma OwnRowReports(s: State, t: ThreadId, step: ExecStep, h: Story, id: MessageId)
    requires AtExec(s, t) && s.threads[t].envelope.messageId == id && ThreadFine(s, t) && ThreadReports(s, h, id, t)
    requires Unclaimed(s, h, id) && EventReports(s, h, id) && StatusReports(s, h, id)
    requires Owns(s.threads[t].pc) ==> id in s.log.claimedBy
    ensures var s', h' := ApplyExec(s, t, step), Told(h, s, OnExec(t, step), id);
      Unclaimed(s', h', id) && EventReports(s', h', id) && StatusReports(s', h', id)
  {
    match step {
      case SClaim(ok) =>
      case SRegisterCommand =>
      case SBegin(event, ok) =>
      case SHeartbeat(event) =>
      case SEndTurn(success) =>
      case SEmitTerminal(event, ok) =>
      case SClose(ok) =>
      case SLeave =>
    }
  }

  // ---------------------------------------------------------------- every run

  lemma StepReports(s: State, step: Step, h: Story, id: MessageId)
    requires Reports(s, h, id)
    ensures Reports(Apply(s, step), Told(h, s, step, id), id)
  {
    if step.OnConn? {
      ConnReports(s, step.t, step.conn, h, id);
    } else if !step.OnExec? {
      EnvReports(s, step, h, id);
    } else if AtExec(s, step.t) {
      if s.threads[step.t].envelope.messageId == id {
        OwnExecReports(s, step.t, step.exec, h, id);
      } else {
        OtherExecReports(s, step.t, step.exec, h, id);
      }
    }
  }

  lemma {:induction false} RunReports(s: State, steps: seq<Step>, h: Story, id: MessageId)
    requires Reports(s, h, id)
    ensures Reports(RunFrom(s, steps), StoryFrom(h, s, steps, id), id)
    decreases |steps|
  {
    if steps != [] {
      StepReports(s, steps[0], h, id);
      RunReports(Apply(s, steps[0]), steps[1..], Told(h, s, steps[0], id), id);
    }
  }

  lemma Reached(steps: seq<Step>, id: MessageId)
    ensures Reports(Run(steps), StoryFrom(UNTOLD, INIT, steps, id), id)
  {
    RunKeepsInv([]);
    RunReports(INIT, steps, UNTOLD, id);
  }

  /** At every point of every run: the terminal event that an execution has stored for its
      assignment says how the turn or command ended, success if and only if it succeeded, and
      failure also when it never began; and a row is completed if and only if that is so, unless a
      recovery pass has failed it.  A command that ran is completed whatever it reports. */
  lemma OutcomeIsReported(steps: seq<Step>, id: MessageId)
    ensures var s, h := Run(steps), StoryFrom(UNTOLD, INIT, steps, id);
      && (h.reported.Some? ==>
            && id in s.tables.inbox && h.reported.value in s.tables.outbox
            && match s.tables.inbox[id].envelope.kind
               case AgentTaskAssign =>
                 s.tables.outbox[h.reported.value].envelope.kind ==
                 if h.ended == Some(true) then AgentTaskCompleted else AgentTaskFailed
               case ExecRunAssign =>
                 s.tables.outbox[h.reported.value].envelope.kind ==
                 if h.ended == Some(true) then ExecRunCompleted else ExecRunFailed
               case DependencyUpdateAssign =>
                 s.tables.outbox[h.reported.value].envelope.kind ==
                 if h.ended == Some(true) then DependencyUpdateCompleted else DependencyUpdateFailed
               case _ => false)
      && (HasStatus(s.tables, id, Completed) ==>
            h.reported.Some?
            && if s.tables.inbox[id].envelope.kind == AgentTaskAssign then h.ended == Some(true) else h.ended.Some?)
      && (HasStatus(s.tables, id, Failed) && Count(s.log.byRecovery, id) == 0 ==>
            h.reported.Some?
            && if s.tables.inbox[id].envelope.kind == AgentTaskAssign then h.ended != Some(true) else h.ended.None?)
  {
    Reached(steps, id);
  }

  // ---------------------------------------------------------------- and it gets there

  // The steps with which an execution ends its turn and reports it.
  function ReportSteps(t: ThreadId, success: bool, event: MessageId): seq<Step> {
    [OnExec(t, SEndTurn(success)), OnExec(t, SEmitTerminal(event, true)), OnExec(t, SClose(true))]
  }

  lemma ReportRuns(s: State, t: ThreadId, success: bool, event: MessageId)
    ensures RunFrom(s, ReportSteps(t, success, event)) ==
            Close(EmitTerminal(EndTurn(s, t, success), t, event, true), t, true)
  {
    var s1 := EndTurn(s, t, success);
    var s2 := EmitTerminal(s1, t, event, true);
    RunAlong([s, s1, s2, Close(s2, t, true)], ReportSteps(t, success, event));
  }

  lemma TurnReports(s: State, t: ThreadId, success: bool, event: MessageId)
    requires AtExec(s, t) && s.threads[t].pc.Turn? && event !in s.tables.outbox
    requires IsAssignment(s.threads[t].envelope.kind)
    ensures var e := s.threads[t].envelope;
      var after := Close(EmitTerminal(EndTurn(s, t, success), t, event, true), t, true).tables;
      && event in after.outbox && after.outbox[event].status == Pending
      && after.outbox[event].envelope.taskId == e.taskId && after.outbox[event].envelope.binding == e.binding
      && ReportKind(e.kind, success, after.outbox[event].envelope.kind)
      && (HasStatus(s.tables, e.messageId, Running) ==>
            HasStatus(after, e.messageId, if success || e.kind != AgentTaskAssign then Completed else Failed))
  {
    var s1 := EndTurn(s, t, success);
    assert s1.threads[t].pc.Ending? && s1.tables == s.tables;
    var s2 := EmitTerminal(s1, t, event, true);
    assert s2.threads[t].pc == Closing(s1.threads[t].pc.to) && s2.tables.inbox == s.tables.inbox;
  }

  /** A turn or command that ends is reported: from every reachable state three steps of its
      execution store an event of its task and binding that says how it ended, and settle its row
      unless recovery already has. */
  lemma EndedTurnIsReported(steps: seq<Step>, t: ThreadId, success: bool, event: MessageId)
    requires AtExec(Run(steps), t) && Run(steps).threads[t].pc.Turn? && event !in Run(steps).tables.outbox
    ensures var e := Run(steps).threads[t].envelope;
      var after := RunFrom(Run(steps), ReportSteps(t, success, event)).tables;
      && event in after.outbox && after.outbox[event].status == Pending
      && after.outbox[event].envelope.taskId == e.taskId && after.outbox[event].envelope.binding == e.binding
      && ReportKind(e.kind, success, after.outbox[event].envelope.kind)
      && (HasStatus(Run(steps).tables, e.messageId, Running) ==>
            HasStatus(after, e.messageId, if success || e.kind != AgentTaskAssign then Completed else Failed))
  {
    var s := Run(steps);
    RunKeepsInv(steps);
    assert ThreadFine(s, t);
    ReportRuns(s, t, success, event);
    TurnReports(s, t, success, event);
  }
}
