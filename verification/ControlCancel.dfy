/**
  Cancellation over every run: which executions a cancel, suspend or terminate frame stops.
*/
module ControlCancel {
  import opened ControlStore
  import opened ControlProtocol
  import opened ControlSafety
  import opened Wrappers

  // ---------------------------------------------------------------- tokens

  ghost predicate IsCancelled(s: State, w: ThreadId) {
    AtExec(s, w) && s.threads[w].token.Some? && s.threads[w].token.value in s.regs.cancelled
  }

  // The execution has registered its cancellation and is still the registration of its task.
  ghost predicate IsRegistered(s: State, w: ThreadId) {
    && AtExec(s, w) && s.threads[w].token.Some?
    && s.threads[w].envelope.taskId in s.regs.registry
    && s.regs.registry[s.threads[w].envelope.taskId] == s.threads[w].token.value
  }

  ghost predicate CancelledBelow(s: State) {
    forall token | token in s.regs.cancelled :: token < s.regs.next
  }

  // No two executions share a token.
  ghost predicate TokensApart(s: State, w: ThreadId, x: ThreadId) {
    w != x && AtExec(s, w) && AtExec(s, x) && s.threads[w].token.Some? ==> s.threads[x].token != s.threads[w].token
  }

  // A token is registered under the task of its execution only.
  ghost predicate OwnTask(s: State, w: ThreadId, task: TaskId) {
    AtExec(s, w) && task in s.regs.registry && s.threads[w].token == Some(s.regs.registry[task]) ==>
      s.threads[w].envelope.taskId == task
  }

  ghost predicate TokensOk(s: State) {
    && Inv(s) && CancelledBelow(s)
    && (forall w: ThreadId, x: ThreadId :: TokensApart(s, w, x))
    && (forall w: ThreadId, task: TaskId :: OwnTask(s, w, task))
  }

  lemma ConnTokensApart(s: State, t: ThreadId, step: ConnStep, w: ThreadId, x: ThreadId)
    requires TokensApart(s, w, x) && ThreadFine(s, w) && ThreadFine(s, x)
    ensures TokensApart(ApplyConn(s, t, step), w, x)
  {
  }

  lemma ExecTokensApart(s: State, t: ThreadId, step: ExecStep, w: ThreadId, x: ThreadId)
    requires TokensApart(s, w, x) && ThreadFine(s, w) && ThreadFine(s, x)
    ensures TokensApart(ApplyExec(s, t, step), w, x)
  {
  }

  lemma ConnOwnTask(s: State, t: ThreadId, step: ConnStep, w: ThreadId, task: TaskId)
    requires OwnTask(s, w, task) && ThreadFine(s, w) && RegistryOk(s, task)
    ensures OwnTask(ApplyConn(s, t, step), w, task)
  {
  }

  lemma ExecOwnTask(s: State, t: ThreadId, step: ExecStep, w: ThreadId, task: TaskId)
    requires OwnTask(s, w, task) && ThreadFine(s, w) && RegistryOk(s, task)
    ensures OwnTask(ApplyExec(s, t, step), w, task)
  {
  }

  lemma ConnCancelledBelow(s: State, t: ThreadId, step: ConnStep)
    requires CancelledBelow(s) && forall task: TaskId :: RegistryOk(s, task)
    ensures CancelledBelow(ApplyConn(s, t, step))
  {
    var s' := ApplyConn(s, t, step);
    forall token | token in s'.regs.cancelled ensures token < s'.regs.next {
      if token !in s.regs.cancelled {
        var task :| task in s.regs.registry && s.regs.registry[task] == token;
        assert RegistryOk(s, task);
      }
    }
  }

  lemma ExecCancelledBelow(s: State, t: ThreadId, step: ExecStep)
    requires CancelledBelow(s) && ThreadFine(s, t)
    ensures CancelledBelow(ApplyExec(s, t, step))
  {
  }

  lemma EnvTokens(s: State, step: Step, w: ThreadId, x: ThreadId, task: TaskId)
    requires !step.OnConn? && !step.OnExec?
    requires ThreadFine(s, w) && ThreadFine(s, x) && TokensApart(s, w, x) && OwnTask(s, w, task)
    ensures TokensApart(Apply(s, step), w, x) && OwnTask(Apply(s, step), w, task)
  {
  }

  lemma StepKeepsTokens(s: State, step: Step)
    requires TokensOk(s)
    ensures TokensOk(Apply(s, step))
  {
    var s' := Apply(s, step);
    StepKeepsInv(s, step);
    match step {
      case OnConn(t, conn) => ConnCancelledBelow(s, t, conn);
      case OnExec(t, exec) => assert ThreadFine(s, t); ExecCancelledBelow(s, t, exec);
      case _ =>
    }
    forall w: ThreadId, x: ThreadId ensures TokensApart(s', w, x) {
      assert ThreadFine(s, w) && ThreadFine(s, x);
      match step {
        case OnConn(t, conn) => ConnTokensApart(s, t, conn, w, x);
        case OnExec(t, exec) => ExecTokensApart(s, t, exec, w, x);
        case _ => EnvTokens(s, step, w, x, 0);
      }
    }
    forall w: ThreadId, task: TaskId ensures OwnTask(s', w, task) {
      assert ThreadFine(s, w) && RegistryOk(s, task);
      match step {
        case OnConn(t, conn) => ConnOwnTask(s, t, conn, w, task);
        case OnExec(t, exec) => ExecOwnTask(s, t, exec, w, task);
        case _ => EnvTokens(s, step, w, w, task);
      }
    }
  }

  lemma {:induction false} RunKeepsTokens(s: State, steps: seq<Step>)
    requires TokensOk(s)
    ensures TokensOk(RunFrom(s, steps))
    decreases |steps|
  {
    if steps != [] {
      StepKeepsTokens(s, steps[0]);
      RunKeepsTokens(Apply(s, steps[0]), steps[1..]);
    }
  }

  lemma ReachableTokens(steps: seq<Step>)
    ensures TokensOk(Run(steps))
  {
    RunKeepsInv([]);
    RunKeepsTokens(INIT, steps);
  }

  // ---------------------------------------------------------------- what a frame cancels

  // An envelope frame that is accepted and stored.
  ghost predicate AcceptedFrame(s: State, t: ThreadId, e: Envelope) {
    && AtConn(s, t) && s.threads[t].cpc.Idle?
    && e.binding == s.threads[t].binding && IsHubKind(e.kind) && !IsKnown(s.tables, e.messageId)
  }

  // The step accepts a frame that cancels w: one for its task, or a suspend or terminate,
  // while w is the registration of its task.
  ghost predicate Strikes(s: State, step: Step, w: ThreadId) {
    && IsRegistered(s, w)
    && step.OnConn? && step.conn.SReadEnvelope? && step.conn.valid && AcceptedFrame(s, step.t, step.conn.e)
    && (step.conn.e.kind == RunSuspend || step.conn.e.kind == RunTerminate
        || (step.conn.e.kind == AgentTaskCancel && step.conn.e.taskId == s.threads[w].envelope.taskId))
  }

  ghost predicate Struck(s: State, steps: seq<Step>, w: ThreadId)
    decreases |steps|
  {
    steps != [] && (Strikes(s, steps[0], w) || Struck(Apply(s, steps[0]), steps[1..], w))
  }

  // What a step does to an execution that exists before and after it.
  ghost predicate StepCancels(s: State, step: Step, s': State, w: ThreadId) {
    && AtExec(s, w) && AtExec(s', w) && s'.threads[w].envelope == s.threads[w].envelope
    && (IsCancelled(s', w) <==> IsCancelled(s, w) || Strikes(s, step, w))
  }

  lemma CancelAllHits(s: State, w: ThreadId)
    requires TokensOk(s) && AtExec(s, w) && s.threads[w].token.Some?
    ensures var token := s.threads[w].token.value;
      token in CancelAll(s.regs).cancelled <==> token in s.regs.cancelled || IsRegistered(s, w)
  {
    var token := s.threads[w].token.value;
    if token in s.regs.registry.Values {
      var task :| task in s.regs.registry && s.regs.registry[task] == token;
      assert OwnTask(s, w, task);
    }
  }

  lemma CancelTaskHits(s: State, task: TaskId, w: ThreadId)
    requires TokensOk(s) && AtExec(s, w) && s.threads[w].token.Some?
    ensures var token := s.threads[w].token.value;
      token in CancelTask(s.regs, task).cancelled <==>
        token in s.regs.cancelled || (IsRegistered(s, w) && s.threads[w].envelope.taskId == task)
  {
    assert OwnTask(s, w, task);
  }

  lemma FrameCancels(s: State, t: ThreadId, e: Envelope, valid: bool, w: ThreadId)
    requires TokensOk(s) && AtExec(s, w) && w in ReadEnvelope(s, t, e, valid).threads
    ensures StepCancels(s, OnConn(t, SReadEnvelope(e, valid)), ReadEnvelope(s, t, e, valid), w)
  {
    assert ThreadFine(s, w);
    if s.threads[w].token.Some? {
      CancelAllHits(s, w);
      CancelTaskHits(s, e.taskId, w);
    }
  }

  lemma ConnCancels(s: State, t: ThreadId, step: ConnStep, w: ThreadId)
    requires TokensOk(s) && AtExec(s, w) && w in ApplyConn(s, t, step).threads
    ensures StepCancels(s, OnConn(t, step), ApplyConn(s, t, step), w)
  {
    assert ThreadFine(s, w);
    if step.SReadEnvelope? {
      FrameCancels(s, t, step.e, step.valid, w);
    } else {
      ConnLeavesExecs(s, t, step, w);
      ConnLeavesCancelled(s, t, step);
    }
  }

  lemma ConnLeavesCancelled(s: State, t: ThreadId, step: ConnStep)
    requires !step.SReadEnvelope?
    ensures ApplyConn(s, t, step).regs.cancelled == s.regs.cancelled
  {
  }

  lemma ExecCancels(s: State, t: ThreadId, step: ExecStep, w: ThreadId)
    requires CancelledBelow(s) && TokensApart(s, t, w) && AtExec(s, w) && w in ApplyExec(s, t, step).threads
    ensures StepCancels(s, OnExec(t, step), ApplyExec(s, t, step), w)
  {
  }

  lemma EnvCancels(s: State, step: Step, w: ThreadId)
    requires !step.OnConn? && !step.OnExec? && ThreadFine(s, w)
    requires AtExec(s, w) && w in Apply(s, step).threads
    ensures StepCancels(s, step, Apply(s, step), w)
  {
  }

  lemma StepCancelsExactly(s: State, step: Step, w: ThreadId)
    requires TokensOk(s) && AtExec(s, w) && w in Apply(s, step).threads
    ensures StepCancels(s, step, Apply(s, step), w)
  {
    assert ThreadFine(s, w);
    if step.OnConn? {
      ConnCancels(s, step.t, step.conn, w);
    } else if step.OnExec? {
      assert TokensApart(s, step.t, w);
      ExecCancels(s, step.t, step.exec, w);
    } else {
      EnvCancels(s, step, w);
    }
  }

  // Thread numbers are not used again: what has left does not come back.
  lemma StepKeepsGone(s: State, step: Step, w: ThreadId)
    requires w < s.nextThread && w !in s.threads
    ensures w < Apply(s, step).nextThread && w !in Apply(s, step).threads
  {
  }

  lemma {:induction false} RunKeepsGone(s: State, steps: seq<Step>, w: ThreadId)
    requires w < s.nextThread && w !in s.threads
    ensures w !in RunFrom(s, steps).threads
    decreases |steps|
  {
    if steps != [] {
      StepKeepsGone(s, steps[0], w);
      RunKeepsGone(Apply(s, steps[0]), steps[1..], w);
    }
  }

  lemma {:induction false} CancelledFrom(s: State, steps: seq<Step>, w: ThreadId)
    requires TokensOk(s) && AtExec(s, w) && w in RunFrom(s, steps).threads
    ensures var s' := RunFrom(s, steps);
      && AtExec(s', w) && s'.threads[w].envelope == s.threads[w].envelope
      && (IsCancelled(s', w) <==> IsCancelled(s, w) || Struck(s, steps, w))
    decreases |steps|
  {
    if steps != [] {
      var next := Apply(s, steps[0]);
      assert ThreadFine(s, w);
      StepKeepsTokens(s, steps[0]);
      if w !in next.threads {
        StepNextThread(s, steps[0]);
        RunKeepsGone(next, steps[1..], w);
      } else {
        StepCancelsExactly(s, steps[0], w);
        CancelledFrom(next, steps[1..], w);
      }
    }
  }

  lemma StepNextThread(s: State, step: Step)
    ensures s.nextThread <= Apply(s, step).nextThread
  {
  }

  /** From any reachable state on, over every continuation, as long as an execution has not
      left: its context is cancelled if and only if it already was or a cancel frame of its
      task, a suspend or a terminate was accepted while the execution was registered and had
      not been superseded.  Nothing else cancels it, in particular no other execution. */
  lemma CancelledExactlyWhen(before: seq<Step>, steps: seq<Step>, w: ThreadId)
    requires AtExec(Run(before), w) && w in RunFrom(Run(before), steps).threads
    ensures var s, s' := Run(before), RunFrom(Run(before), steps);
      && AtExec(s', w) && s'.threads[w].envelope == s.threads[w].envelope
      && (IsCancelled(s', w) <==> IsCancelled(s, w) || Struck(s, steps, w))
  {
    ReachableTokens(before);
    CancelledFrom(Run(before), steps, w);
  }

  // No frame of the continuation is a cancel, suspend or terminate frame.
  predicate NoCancelFrames(steps: seq<Step>) {
    forall i | 0 <= i < |steps| && steps[i].OnConn? && steps[i].conn.SReadEnvelope? ::
      steps[i].conn.e.kind !in {AgentTaskCancel, RunSuspend, RunTerminate}
  }

  lemma {:induction false} NeverStruck(s: State, steps: seq<Step>, w: ThreadId)
    requires NoCancelFrames(steps)
    ensures !Struck(s, steps, w)
    decreases |steps|
  {
    if steps != [] {
      assert !Strikes(s, steps[0], w);
      NeverStruck(Apply(s, steps[0]), steps[1..], w);
    }
  }

  // A cancel frame that is accepted.
  ghost predicate CancelFrame(s: State, t: ThreadId, e: Envelope) {
    AcceptedFrame(s, t, e) && e.kind == AgentTaskCancel
  }

  /** An accepted cancel frame reaches an execution of its task, agent turn or command, queued
      or running, if and only if the execution has registered and is still the registration of
      the task.  An execution it does not reach, such as a command that has not registered
      yet, is not cancelled later either: with no further cancel, suspend or terminate frame
      its context is never cancelled before it leaves. */
  lemma CancelReachesExactly(before: seq<Step>, t: ThreadId, c: Envelope, more: seq<Step>, w: ThreadId)
    requires CancelFrame(Run(before), t, c)
    requires AtExec(Run(before), w) && Run(before).threads[w].envelope.taskId == c.taskId
    requires !IsCancelled(Run(before), w) && NoCancelFrames(more)
    requires w in RunFrom(ReadEnvelope(Run(before), t, c, true), more).threads
    ensures IsCancelled(RunFrom(ReadEnvelope(Run(before), t, c, true), more), w) <==> IsRegistered(Run(before), w)
  {
    var s := Run(before);
    var frame := OnConn(t, SReadEnvelope(c, true));
    var s1 := Apply(s, frame);
    assert ([frame] + more)[1..] == more;
    assert RunFrom(s, [frame] + more) == RunFrom(s1, more);
    CancelledExactlyWhen(before, [frame] + more, w);
    NeverStruck(s1, more, w);
    assert Struck(s, [frame] + more, w) <==> Strikes(s, frame, w);
  }

  // ---------------------------------------------------------------- the last registration

  /** In every reachable state an accepted cancel frame cancels the last execution registered
      for its task, unless that execution has already unregistered. */
  lemma CancelReachesLatest(steps: seq<Step>, t: ThreadId, e: Envelope)
    requires CancelFrame(Run(steps), t, e) && e.taskId in Run(steps).regs.latest
    ensures var s := Run(steps); var token := s.regs.latest[e.taskId];
      token in s.regs.left || token in ReadEnvelope(s, t, e, true).regs.cancelled
  {
    RunKeepsInv(steps);
    assert RegistryOk(Run(steps), e.taskId);
  }

  ghost predicate SupersededAfter(regs: Registrations, task: TaskId, token: Token) {
    task in regs.latest && regs.latest[task] >= token
  }

  lemma ConnKeepsLatest(s: State, t: ThreadId, step: ConnStep, task: TaskId, token: Token)
    requires RegistryOk(s, task) && SupersededAfter(s.regs, task, token)
    ensures SupersededAfter(ApplyConn(s, t, step).regs, task, token)
  {
  }

  lemma ExecKeepsLatest(s: State, t: ThreadId, step: ExecStep, task: TaskId, token: Token)
    requires RegistryOk(s, task) && SupersededAfter(s.regs, task, token)
    ensures SupersededAfter(ApplyExec(s, t, step).regs, task, token)
  {
  }

  lemma StepKeepsLatest(s: State, step: Step, task: TaskId, token: Token)
    requires RegistryOk(s, task) && SupersededAfter(s.regs, task, token) && !step.SCrash?
    ensures SupersededAfter(Apply(s, step).regs, task, token)
  {
    match step {
      case OnConn(t, conn) => ConnKeepsLatest(s, t, conn, task, token);
      case OnExec(t, exec) => ExecKeepsLatest(s, t, exec, task, token);
      case _ =>
    }
  }

  lemma {:induction false} RunKeepsLatest(s: State, steps: seq<Step>, task: TaskId, token: Token)
    requires Inv(s) && SupersededAfter(s.regs, task, token) && Crashes(steps) == 0
    ensures SupersededAfter(RunFrom(s, steps).regs, task, token)
    decreases |steps|
  {
    if steps != [] {
      assert RegistryOk(s, task);
      StepKeepsLatest(s, steps[0], task, token);
      StepKeepsInv(s, steps[0]);
      RunKeepsLatest(Apply(s, steps[0]), steps[1..], task, token);
    }
  }

  /** A cancel frame read any time after an agent task was started in the same process finds
      it: that execution, or a later one registered for the same task, is cancelled or has
      already unregistered. */
  lemma CancelAfterAssignment(before: seq<Step>, reader: ThreadId, between: seq<Step>, t: ThreadId, e: Envelope)
    requires AtConn(Run(before), reader) && Run(before).threads[reader].cpc.ReceiptDue?
    requires Run(before).threads[reader].cpc.assignment.taskId == e.taskId
    requires Crashes(between) == 0
    requires CancelFrame(RunFrom(WriteReceipt(Run(before), reader, true), between), t, e)
    ensures var token := Run(before).regs.next;
      var s := RunFrom(WriteReceipt(Run(before), reader, true), between);
      && SupersededAfter(s.regs, e.taskId, token)
      && (s.regs.latest[e.taskId] in s.regs.left
          || s.regs.latest[e.taskId] in ReadEnvelope(s, t, e, true).regs.cancelled)
  {
    RunKeepsInv(before);
    StepKeepsInv(Run(before), OnConn(reader, SWriteReceipt(true)));
    LatestIsFound(WriteReceipt(Run(before), reader, true), between, e.taskId, Run(before).regs.next);
  }

  lemma LatestIsFound(s: State, between: seq<Step>, task: TaskId, token: Token)
    requires Inv(s) && SupersededAfter(s.regs, task, token) && Crashes(between) == 0
    ensures var s' := RunFrom(s, between);
      && SupersededAfter(s'.regs, task, token)
      && (s'.regs.latest[task] in s'.regs.left
          || (task in s'.regs.registry && s'.regs.registry[task] == s'.regs.latest[task]))
  {
    RunKeepsLatest(s, between, task, token);
    RunFromKeepsInv(s, between);
    assert RegistryOk(RunFrom(s, between), task);
  }

  /** Likewise for a command, from when it has registered on. */
  lemma CancelAfterRegistration(before: seq<Step>, w: ThreadId, between: seq<Step>, t: ThreadId, e: Envelope)
    requires AtExec(Run(before), w) && Run(before).threads[w].pc.Claimed? && Run(before).threads[w].token.None?
    requires Run(before).threads[w].envelope.taskId == e.taskId
    requires Crashes(between) == 0
    requires CancelFrame(RunFrom(RegisterCommand(Run(before), w), between), t, e)
    ensures var token := Run(before).regs.next;
      var s := RunFrom(RegisterCommand(Run(before), w), between);
      && SupersededAfter(s.regs, e.taskId, token)
      && (s.regs.latest[e.taskId] in s.regs.left
          || s.regs.latest[e.taskId] in ReadEnvelope(s, t, e, true).regs.cancelled)
  {
    RunKeepsInv(before);
    StepKeepsInv(Run(before), OnExec(w, SRegisterCommand));
    LatestIsFound(RegisterCommand(Run(before), w), between, e.taskId, Run(before).regs.next);
  }

  // ---------------------------------------------------------------- what the registry holds

  // A registration is that of a running execution of the task.
  ghost predicate Live(s: State, task: TaskId) {
    task in s.regs.registry ==>
      exists w: ThreadId :: IsRegistered(s, w) && s.threads[w].envelope.taskId == task
  }

  // An execution that has left is none of those that run.
  ghost predicate LeftIsGone(s: State, w: ThreadId) {
    AtExec(s, w) && s.threads[w].token.Some? ==> s.threads[w].token.value !in s.regs.left
  }

  ghost predicate LeftBelow(s: State) {
    forall token | token in s.regs.left :: token < s.regs.next
  }

  ghost predicate RegistryLives(s: State) {
    TokensOk(s) && LeftBelow(s) && (forall task: TaskId :: Live(s, task)) && (forall w: ThreadId :: LeftIsGone(s, w))
  }

  lemma ConnLives(s: State, t: ThreadId, step: ConnStep, task: TaskId)
    requires Live(s, task) && ThreadFine(s, s.nextThread) && ThreadFine(s, t)
    requires forall w: ThreadId :: ThreadFine(s, w)
    ensures Live(ApplyConn(s, t, step), task)
  {
    var s' := ApplyConn(s, t, step);
    if task in s'.regs.registry {
      if task in s.regs.registry && s'.regs.registry[task] == s.regs.registry[task] {
        var w: ThreadId :| IsRegistered(s, w) && s.threads[w].envelope.taskId == task;
        assert ThreadFine(s, w);
        ConnLeavesExecs(s, t, step, w);
        assert IsRegistered(s', w);
      } else {
        assert IsRegistered(s', s.nextThread);
      }
    }
  }

  lemma ExecLives(s: State, t: ThreadId, step: ExecStep, task: TaskId)
    requires Live(s, task) && OwnTask(s, t, task)
    ensures Live(ApplyExec(s, t, step), task)
  {
    var s' := ApplyExec(s, t, step);
    if task in s'.regs.registry {
      if task in s.regs.registry && s'.regs.registry[task] == s.regs.registry[task] {
        var w: ThreadId :| IsRegistered(s, w) && s.threads[w].envelope.taskId == task;
        assert IsRegistered(s', w);
      } else {
        assert IsRegistered(s', t);
      }
    }
  }

  lemma ConnLeft(s: State, t: ThreadId, step: ConnStep, w: ThreadId)
    requires LeftIsGone(s, w) && LeftBelow(s) && ThreadFine(s, w)
    ensures LeftIsGone(ApplyConn(s, t, step), w) && LeftBelow(ApplyConn(s, t, step))
  {
  }

  lemma ExecLeft(s: State, t: ThreadId, step: ExecStep, w: ThreadId)
    requires LeftIsGone(s, w) && LeftBelow(s) && ThreadFine(s, w) && ThreadFine(s, t) && TokensApart(s, t, w)
    ensures LeftIsGone(ApplyExec(s, t, step), w) && LeftBelow(ApplyExec(s, t, step))
  {
  }

  lemma StepKeepsLives(s: State, step: Step)
    requires RegistryLives(s)
    ensures RegistryLives(Apply(s, step))
  {
    var s' := Apply(s, step);
    StepKeepsTokens(s, step);
    forall task: TaskId ensures Live(s', task) {
      match step {
        case OnConn(t, conn) => ConnLives(s, t, conn, task);
        case OnExec(t, exec) => assert OwnTask(s, t, task); ExecLives(s, t, exec, task);
        case _ => EnvLives(s, step, task);
      }
    }
    forall w: ThreadId ensures LeftIsGone(s', w) && LeftBelow(s') {
      assert ThreadFine(s, w) && LeftIsGone(s, w);
      match step {
        case OnConn(t, conn) => ConnLeft(s, t, conn, w);
        case OnExec(t, exec) => assert ThreadFine(s, t) && TokensApart(s, t, w); ExecLeft(s, t, exec, w);
        case _ =>
      }
    }
    assert LeftIsGone(s', 0);
  }

  lemma EnvLives(s: State, step: Step, task: TaskId)
    requires Live(s, task) && ThreadFine(s, s.nextThread) && !step.OnConn? && !step.OnExec?
    ensures Live(Apply(s, step), task)
  {
    var s' := Apply(s, step);
    if task in s'.regs.registry {
      var w: ThreadId :| IsRegistered(s, w) && s.threads[w].envelope.taskId == task;
      assert IsRegistered(s', w);
    }
  }

  lemma {:induction false} RunKeepsLives(s: State, steps: seq<Step>)
    requires RegistryLives(s)
    ensures RegistryLives(RunFrom(s, steps))
    decreases |steps|
  {
    if steps != [] {
      StepKeepsLives(s, steps[0]);
      RunKeepsLives(Apply(s, steps[0]), steps[1..]);
    }
  }

  /** In every reachable state, after a crash too, the registry holds for a task the registration of
      one running execution of that task; and an execution that runs and registered last for its
      task is the one it holds. */
  lemma RegistryHoldsTheLatest(steps: seq<Step>, task: TaskId, w: ThreadId)
    ensures var s := Run(steps);
      && (task in s.regs.registry ==>
            exists x: ThreadId :: IsRegistered(s, x) && s.threads[x].envelope.taskId == task)
      && (AtExec(s, w) && s.threads[w].envelope.taskId == task && s.threads[w].token.Some?
          && task in s.regs.latest && s.regs.latest[task] == s.threads[w].token.value ==>
            IsRegistered(s, w))
  {
    ReachableTokens([]);
    RunKeepsLives(INIT, steps);
    var s := Run(steps);
    assert Live(s, task) && LeftIsGone(s, w) && RegistryOk(s, task);
  }

  // ---------------------------------------------------------------- a run that misses the command

  const COMMAND := Envelope(0, ExecRunAssign, B0, 7)
  const CANCEL := Envelope(1, AgentTaskCancel, B0, 7)

  // A command that is still queued while the cancel frame for its task has been read.
  lemma CancelledWhileQueued() returns (steps: seq<Step>)
    ensures var s := Run(steps);
      && 0 in s.tables.inbox && s.tables.inbox[0] == InboxRow(COMMAND, Accepted, 0)
      && 1 in s.tables.inbox && s.tables.inbox[1].envelope == CANCEL
      && 1 in s.threads && s.threads[1] == Exec(COMMAND, None, Queued) && s.regs.cancelled == {}
  {
    steps := [SConnect(B0), OnConn(0, SClaimRecovery), OnConn(0, SQueryRunning(false)),
              OnConn(0, SReadEnvelope(COMMAND, true)), OnConn(0, SReadEnvelope(CANCEL, true))];
    var s1 := Connect(INIT, B0);
    var s2 := ClaimRecovery(s1, 0);
    var s3 := QueryRunning(s2, 0, false);
    var s4 := ReadEnvelope(s3, 0, COMMAND, true);
    var s5 := ReadEnvelope(s4, 0, CANCEL, true);
    RunAlong([INIT, s1, s2, s3, s4, s5], steps);
  }

  /** A cancel frame that arrives before a command has registered its cancellation is lost: the
      command still starts, and nothing has cancelled it. */
  lemma CommandCancelCanBeMissed() returns (steps: seq<Step>)
    ensures var s := Run(steps);
      && 1 in s.tables.inbox && s.tables.inbox[1].envelope.kind == AgentTaskCancel
      && 1 in s.threads && s.threads[1].Exec? && s.threads[1].pc.Turn?
      && s.threads[1].envelope.taskId == s.tables.inbox[1].envelope.taskId
      && s.threads[1].token.Some? && s.threads[1].token.value !in s.regs.cancelled
  {
    var queued := CancelledWhileQueued();
    var s0 := Run(queued);
    var start := [OnExec(1, SClaim(true)), OnExec(1, SRegisterCommand), OnExec(1, SBegin(2, true))];
    var s1 := Claim(s0, 1, true);
    var s2 := RegisterCommand(s1, 1);
    var s3 := Begin(s2, 1, 2, true);
    RunAlong([s0, s1, s2, s3], start);
    RunAppend(INIT, queued, start);
    steps := queued + start;
  }
}
