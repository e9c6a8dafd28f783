/**
  Recovery after a restart: it starts every assignment that was accepted, and how many terminal
  events it can add.
*/
module ControlRecovery {
  import opened ControlStore
  import opened ControlProtocol
  import opened ControlSafety
  import opened Wrappers

  // ---------------------------------------------------------------- recovery starts what was accepted

  // The step launches a new execution of the assignment.
  ghost predicate Launches(s: State, step: Step, e: Envelope) {
    var s' := Apply(s, step);
    && s.nextThread !in s.threads && s.nextThread in s'.threads
    && s'.threads[s.nextThread] == Exec(e, Some(s.regs.next), Queued)
  }

  ghost predicate Launched(s: State, steps: seq<Step>, e: Envelope)
    decreases |steps|
  {
    steps != [] && (Launches(s, steps[0], e) || Launched(Apply(s, steps[0]), steps[1..], e))
  }

  ghost predicate StillToStart(s: State, t: ThreadId, id: MessageId) {
    AtConn(s, t) && s.threads[t].cpc.StartNext? && id in s.threads[t].cpc.todo
  }

  ghost predicate Holds(s: State, id: MessageId, e: Envelope) {
    id in s.tables.inbox && s.tables.inbox[id].envelope == e
  }

  // A pass drops an assignment from its list only by launching it.
  lemma StartDropsLaunched(s: State, t: ThreadId, id: MessageId, e: Envelope)
    requires StillToStart(s, t, id) && Holds(s, id, e) && e.kind == AgentTaskAssign
    requires s.nextThread !in s.threads
    ensures StillToStart(StartAccepted(s, t), t, id) || Launches(s, OnConn(t, SStartAccepted), e)
  {
    var todo := s.threads[t].cpc.todo;
    if todo[0] != id { assert id in todo[1..]; }
  }

  lemma OthersKeepToStart(s: State, step: Step, t: ThreadId, id: MessageId)
    requires StillToStart(s, t, id) && t < s.nextThread && !step.SCrash? && step != OnConn(t, SStartAccepted)
    ensures StillToStart(Apply(s, step), t, id)
  {
    match step {
      case OnConn(u, conn) => if u != t { ConnTouches(s, u, conn, t); } else { OwnKeepsToStart(s, t, conn, id); }
      case OnExec(u, exec) =>
      case _ =>
    }
  }

  lemma OwnKeepsToStart(s: State, t: ThreadId, step: ConnStep, id: MessageId)
    requires StillToStart(s, t, id) && !step.SStartAccepted?
    ensures StillToStart(ApplyConn(s, t, step), t, id)
  {
  }

  lemma {:induction false} StartedOrLaunched(s: State, steps: seq<Step>, t: ThreadId, id: MessageId, e: Envelope)
    requires Inv(s) && Crashes(steps) == 0
    requires StillToStart(s, t, id) && Holds(s, id, e) && e.kind == AgentTaskAssign
    ensures StillToStart(RunFrom(s, steps), t, id) || Launched(s, steps, e)
    decreases |steps|
  {
    if steps != [] {
      var next := Apply(s, steps[0]);
      assert ThreadFine(s, t) && ThreadFine(s, s.nextThread);
      StepKeepsInv(s, steps[0]);
      RunExtends(s, [steps[0]]);
      assert RunFrom(s, [steps[0]]) == next;
      if steps[0] == OnConn(t, SStartAccepted) {
        StartDropsLaunched(s, t, id, e);
      } else {
        OthersKeepToStart(s, steps[0], t, id);
      }
      if StillToStart(next, t, id) { StartedOrLaunched(next, steps[1..], t, id, e); }
    }
  }

  /** A recovery pass whose query succeeds launches a new execution for every agent task of its
      binding that was accepted and never started, such as one whose receipt was not written,
      whatever other connections and executions do meanwhile: at any later point without a
      crash the task still is on the pass's list or has been launched since the query. */
  lemma RecoveryStartsEveryAccepted(before: seq<Step>, t: ThreadId, steps: seq<Step>, id: MessageId)
    requires AtConn(Run(before), t) && Run(before).threads[t].cpc.LoadAccepted?
    requires HasStatus(Run(before).tables, id, Accepted)
    requires Run(before).tables.inbox[id].envelope.kind == AgentTaskAssign
    requires Run(before).tables.inbox[id].envelope.binding == Run(before).threads[t].binding
    requires Crashes(steps) == 0
    ensures var queried := QueryAccepted(Run(before), t, true);
      || StillToStart(RunFrom(queried, steps), t, id)
      || Launched(queried, steps, Run(before).tables.inbox[id].envelope)
  {
    RunKeepsInv(before);
    var s := Run(before);
    assert ThreadFine(s, t);
    assert id in StatusRows(s.tables, s.threads[t].binding, Accepted);
    StepKeepsInv(s, OnConn(t, SQueryAccepted(true)));
    StartedOrLaunched(QueryAccepted(s, t, true), steps, t, id, s.tables.inbox[id].envelope);
  }

  /** One step of the pass deals with the next entry of this list: an agent task is launched and its
      cancellation registered, a command is passed over, and no row changes. */
  lemma PassStartsNext(before: seq<Step>, t: ThreadId)
    requires AtConn(Run(before), t) && Run(before).threads[t].cpc.StartNext? && Run(before).threads[t].cpc.todo != []
    ensures var s, s' := Run(before), StartAccepted(Run(before), t);
      var id, rest := s.threads[t].cpc.todo[0], s.threads[t].cpc.todo[1..];
      var passed := s.threads[t := Conn(s.threads[t].binding, StartNext(rest))];
      && id in s.tables.inbox && s'.tables == s.tables
      && var e := s.tables.inbox[id].envelope;
         if e.kind == AgentTaskAssign then
           && s.nextThread !in s.threads
           && s'.threads == passed[s.nextThread := Exec(e, Some(s.regs.next), Queued)]
           && s'.regs.registry == s.regs.registry[e.taskId := s.regs.next]
         else s'.threads == passed && s'.regs == s.regs
  {
    RunKeepsInv(before);
    assert ThreadFine(Run(before), t) && ThreadFine(Run(before), Run(before).nextThread);
  }

  // When its frame was read.
  ghost function ArrivedFrom(at: Option<int>, s: State, steps: seq<Step>, id: MessageId): Option<int>
    decreases |steps|
  {
    if steps == [] then at
    else
      var next := Apply(s, steps[0]);
      ArrivedFrom(if at.None? && id in next.tables.inbox then Some(s.now) else at, next, steps[1..], id)
  }

  ghost predicate SaysArrival(t: Tables, id: MessageId, at: Option<int>) {
    (id in t.inbox <==> at.Some?) && (id in t.inbox ==> t.inbox[id].createdAt == at.value)
  }

  lemma ConnSaysArrival(s: State, t: ThreadId, step: ConnStep, id: MessageId, at: Option<int>)
    requires SaysArrival(s.tables, id, at)
    ensures var after := ApplyConn(s, t, step).tables;
      SaysArrival(after, id, if at.None? && id in after.inbox then Some(s.now) else at)
  {
  }

  lemma {:induction false} RunSaysArrival(s: State, steps: seq<Step>, id: MessageId, at: Option<int>)
    requires SaysArrival(s.tables, id, at)
    ensures SaysArrival(RunFrom(s, steps).tables, id, ArrivedFrom(at, s, steps, id))
    decreases |steps|
  {
    if steps != [] {
      var next := Apply(s, steps[0]);
      if steps[0].OnConn? { ConnSaysArrival(s, steps[0].t, steps[0].conn, id, at); }
      RunSaysArrival(next, steps[1..], id, if at.None? && id in next.tables.inbox then Some(s.now) else at);
    }
  }

  /** The lists of a pass are in the order in which the frames arrived, in whichever process. */
  lemma RecoveryGoesByArrival(steps: seq<Step>, b: Binding, status: IncomingStatus, i: nat, j: nat)
    requires i < j < |IncomingByStatus(Run(steps).tables, b, status)|
    ensures var ids := IncomingByStatus(Run(steps).tables, b, status);
      var first, second := ArrivedFrom(None, INIT, steps, ids[i]), ArrivedFrom(None, INIT, steps, ids[j]);
      && first.Some? && second.Some?
      && (first.value < second.value || (first.value == second.value && ids[i] < ids[j]))
  {
    var ids := IncomingByStatus(Run(steps).tables, b, status);
    RunSaysArrival(INIT, steps, ids[i], None);
    RunSaysArrival(INIT, steps, ids[j], None);
    assert Before(StatusRows(Run(steps).tables, b, status), ids[i], ids[j]);
  }

  // ---------------------------------------------------------------- recovery fails what was running

  // The pass gets to an interrupted task: its failure event is stored unless the statement fails.
  ghost predicate Fails(s: State, step: Step, t: ThreadId, id: MessageId, e: Envelope) {
    var s' := Apply(s, step);
    && AtConn(s, t) && s.threads[t].cpc.FailNext? && s.threads[t].cpc.todo != [] && s.threads[t].cpc.todo[0] == id
    && step.OnConn? && step.t == t && step.conn.SFailInterrupted?
    && (step.conn.ok ==>
          && step.conn.event !in s.tables.outbox && step.conn.event in s'.tables.outbox
          && s'.tables.outbox[step.conn.event].envelope
             == Envelope(step.conn.event, AgentTaskFailed, e.binding, e.taskId))
  }

  ghost predicate FailedOnce(s: State, steps: seq<Step>, t: ThreadId, id: MessageId, e: Envelope)
    decreases |steps|
  {
    steps != [] && (Fails(s, steps[0], t, id, e) || FailedOnce(Apply(s, steps[0]), steps[1..], t, id, e))
  }

  ghost predicate StillToFail(s: State, t: ThreadId, id: MessageId) {
    AtConn(s, t) && (s.threads[t].cpc.FailNext? || s.threads[t].cpc.FailClose?) && id in s.threads[t].cpc.todo
  }

  lemma OwnKeepsToFail(s: State, t: ThreadId, step: ConnStep, id: MessageId, e: Envelope)
    requires StillToFail(s, t, id) && Holds(s, id, e) && e.kind == AgentTaskAssign
    ensures StillToFail(ApplyConn(s, t, step), t, id) || Fails(s, OnConn(t, step), t, id, e)
  {
    var todo := s.threads[t].cpc.todo;
    if todo[0] != id { assert id in todo[1..]; }
  }

  lemma KeepsToFail(s: State, step: Step, t: ThreadId, id: MessageId, e: Envelope)
    requires StillToFail(s, t, id) && t < s.nextThread && !step.SCrash?
    requires Holds(s, id, e) && e.kind == AgentTaskAssign
    ensures StillToFail(Apply(s, step), t, id) || Fails(s, step, t, id, e)
  {
    match step {
      case OnConn(u, conn) => if u != t { ConnTouches(s, u, conn, t); } else { OwnKeepsToFail(s, t, conn, id, e); }
      case OnExec(u, exec) =>
      case _ =>
    }
  }

  lemma {:induction false} FailedOrToFail(s: State, steps: seq<Step>, t: ThreadId, id: MessageId, e: Envelope)
    requires Inv(s) && Crashes(steps) == 0
    requires StillToFail(s, t, id) && Holds(s, id, e) && e.kind == AgentTaskAssign
    ensures StillToFail(RunFrom(s, steps), t, id) || FailedOnce(s, steps, t, id, e)
    decreases |steps|
  {
    if steps != [] {
      var next := Apply(s, steps[0]);
      assert ThreadFine(s, t);
      StepKeepsInv(s, steps[0]);
      RunExtends(s, [steps[0]]);
      assert RunFrom(s, [steps[0]]) == next;
      KeepsToFail(s, steps[0], t, id, e);
      if StillToFail(next, t, id) { FailedOrToFail(next, steps[1..], t, id, e); }
    }
  }

  /** A recovery pass whose query succeeds gets to every agent task of its binding that was running:
      at any later point without a crash the task still is on the pass's list or the pass has come to
      it, and has then stored a failure event for it unless that statement failed. */
  lemma RecoveryFailsEveryInterrupted(before: seq<Step>, t: ThreadId, steps: seq<Step>, id: MessageId)
    requires AtConn(Run(before), t) && Run(before).threads[t].cpc.LoadRunning?
    requires HasStatus(Run(before).tables, id, Running)
    requires Run(before).tables.inbox[id].envelope.kind == AgentTaskAssign
    requires Run(before).tables.inbox[id].envelope.binding == Run(before).threads[t].binding
    requires Crashes(steps) == 0
    ensures var queried := QueryRunning(Run(before), t, true);
      || StillToFail(RunFrom(queried, steps), t, id)
      || FailedOnce(queried, steps, t, id, Run(before).tables.inbox[id].envelope)
  {
    RunKeepsInv(before);
    var s := Run(before);
    assert id in StatusRows(s.tables, s.threads[t].binding, Running);
    StepKeepsInv(s, OnConn(t, SQueryRunning(true)));
    FailedOrToFail(QueryRunning(s, t, true), steps, t, id, s.tables.inbox[id].envelope);
  }

  /** Two steps of the pass deal with the next entry of its list, and the list gets shorter by that
      one whichever statements fail: an agent task gets its failure event if the first statement
      works, and is failed if both work and it still is running; a command is left alone. */
  lemma PassFailsNext(before: seq<Step>, t: ThreadId, event: MessageId, stored: bool, closed: bool)
    requires AtConn(Run(before), t) && Run(before).threads[t].cpc.FailNext?
    requires Run(before).threads[t].cpc.todo != [] && event !in Run(before).tables.outbox
    ensures var s, id := Run(before), Run(before).threads[t].cpc.todo[0];
      var s' := RunFrom(s, [OnConn(t, SFailInterrupted(event, stored)), OnConn(t, SCloseInterrupted(closed))]);
      && AtConn(s', t) && s'.threads[t].cpc == FailNext(s.threads[t].cpc.todo[1..])
      && id in s.tables.inbox
      && (event in s'.tables.outbox <==> stored && s.tables.inbox[id].envelope.kind == AgentTaskAssign)
      && s'.tables.inbox ==
         (if stored && closed && s.tables.inbox[id].envelope.kind == AgentTaskAssign
             && s.tables.inbox[id].status == Running
          then s.tables.inbox[id := s.tables.inbox[id].(status := Failed)] else s.tables.inbox)
  {
    RunKeepsInv(before);
    var s := Run(before);
    assert ThreadFine(s, t);
    var s1 := FailInterrupted(s, t, event, stored);
    RunAlong([s, s1, CloseInterrupted(s1, t, closed)],
             [OnConn(t, SFailInterrupted(event, stored)), OnConn(t, SCloseInterrupted(closed))]);
  }

  // ---------------------------------------------------------------- how many terminal events there can be

  lemma SingleListing(created: map<MessageId, int>, id: MessageId)
    requires created.Keys == {id}
    ensures Listing(created) == [id]
  {
    ListingIsOrdered(created);
    OrderedIsUnique(created, Listing(created), [id]);
  }

  const AGENT_TASK := Envelope(0, AgentTaskAssign, B0, 7)

  // Recovery has found the task interrupted each time it looked, and its rows still say so.
  ghost predicate Interrupted(s: State, found: nat) {
    && s.tables.inbox == map[0 := InboxRow(AGENT_TASK, Running, 0)]
    && Count(s.log.found, 0) == found && |Events(s, 0)| == 1 + found
    && (forall event | event in Events(s, 0) || event in s.tables.outbox :: event < 11 + |Events(s, 0)|)
  }

  // The pass t, which has listed the task, fails it with a new event.
  lemma FailsAgain(s: State, t: ThreadId)
    requires s.tables.inbox == map[0 := InboxRow(AGENT_TASK, Running, 0)]
    requires t in s.threads && s.threads[t] == Conn(B0, FailNext([0]))
    requires Count(s.log.found, 0) == |Events(s, 0)|
    requires forall event | event in Events(s, 0) || event in s.tables.outbox :: event < 11 + |Events(s, 0)|
    ensures var event := 11 + |Events(s, 0)|; var s' := FailInterrupted(s, t, event, true);
      Interrupted(s', Count(s.log.found, 0)) && Events(s', 0) == Events(s, 0) + {event}
  {
  }

  // A new process that lists the task as interrupted.
  lemma FoundInterrupted(s0: State) returns (steps: seq<Step>)
    requires s0.tables.inbox == map[0 := InboxRow(AGENT_TASK, Running, 0)]
    ensures var s := RunFrom(s0, steps);
      && s.tables == s0.tables && s.log.events == s0.log.events
      && Count(s.log.found, 0) == Count(s0.log.found, 0) + 1
      && s0.nextThread in s.threads && s.threads[s0.nextThread] == Conn(B0, FailNext([0]))
    ensures Crashes(steps) == 1
  {
    var t := s0.nextThread;
    var s1 := Crash(s0);
    var s2 := Connect(s1, B0);
    var s3 := ClaimRecovery(s2, t);
    assert s3.threads[t] == Conn(B0, LoadRunning);
    SingleListing(StatusRows(s3.tables, B0, Running), 0);
    var s4 := QueryRunning(s3, t, true);
    var recover := [SConnect(B0), OnConn(t, SClaimRecovery), OnConn(t, SQueryRunning(true))];
    RunAlong([s1, s2, s3, s4], recover);
    RunAlong([s0, s1], [SCrash]);
    RunAppend(s0, [SCrash], recover);
    NoCrashes(recover);
    steps := [SCrash] + recover;
  }

  // One more process that fails the task and dies before it can update the row.
  lemma OneMoreCrash(s0: State, found: nat) returns (steps: seq<Step>)
    requires Interrupted(s0, found)
    ensures Interrupted(RunFrom(s0, steps), found + 1)
    ensures Events(RunFrom(s0, steps), 0) == Events(s0, 0) + {11 + |Events(s0, 0)|}
    ensures Crashes(steps) == 1
  {
    var listed := FoundInterrupted(s0);
    var s := RunFrom(s0, listed);
    var fail := [OnConn(s0.nextThread, SFailInterrupted(11 + |Events(s, 0)|, true))];
    var s' := FailInterrupted(s, s0.nextThread, 11 + |Events(s, 0)|, true);
    assert Events(s, 0) == Events(s0, 0);
    FailsAgain(s, s0.nextThread);
    RunAlong([s, s'], fail);
    RunAppend(s0, listed, fail);
    NoCrashes(fail);
    steps := listed + fail;
  }

  // A process with two connections of one binding, as a switch away from it and back leaves
  // them: the first has claimed recovery, the second has read the task and claimed it.
  lemma ClaimedMeanwhile() returns (steps: seq<Step>)
    ensures var s := Run(steps);
      && s.tables == Tables(map[0 := InboxRow(AGENT_TASK, Running, 0)], map[])
      && 0 in s.threads && s.threads[0] == Conn(B0, LoadRunning)
      && 2 in s.threads && s.threads[2] == Exec(AGENT_TASK, Some(0), Claimed)
      && s.log.events == map[] && s.log.found == map[]
    ensures Crashes(steps) == 0
  {
    steps := [SConnect(B0), OnConn(0, SClaimRecovery), SConnect(B0), OnConn(1, SClaimRecovery),
              OnConn(1, SReadEnvelope(AGENT_TASK, true)), OnConn(1, SWriteReceipt(true)), OnExec(2, SClaim(true))];
    var s1 := Connect(INIT, B0);
    var s2 := ClaimRecovery(s1, 0);
    var s3 := Connect(s2, B0);
    var s4 := ClaimRecovery(s3, 1);
    assert s4.threads[1] == Conn(B0, Idle);
    var s5 := ReadEnvelope(s4, 1, AGENT_TASK, true);
    assert s5.threads[1] == Conn(B0, ReceiptDue(AGENT_TASK));
    var s6 := WriteReceipt(s5, 1, true);
    assert s6.threads[2] == Exec(AGENT_TASK, Some(0), Queued);
    var s7 := Claim(s6, 2, true);
    RunAlong([INIT, s1, s2, s3, s4, s5, s6, s7], steps);
    NoCrashes(steps);
  }

  function TurnSteps(w: ThreadId): seq<Step> {
    [OnExec(w, SBegin(10, true)), OnExec(w, SEndTurn(true)), OnExec(w, SEmitTerminal(11, true))]
  }

  lemma TurnRuns(s: State, w: ThreadId)
    ensures RunFrom(s, TurnSteps(w)) == EmitTerminal(EndTurn(Begin(s, w, 10, true), w, true), w, 11, true)
    ensures Crashes(TurnSteps(w)) == 0
  {
    var s1 := Begin(s, w, 10, true);
    var s2 := EndTurn(s1, w, true);
    RunAlong([s, s1, s2, EmitTerminal(s2, w, 11, true)], TurnSteps(w));
    NoCrashes(TurnSteps(w));
  }

  lemma TurnBegins(s: State, w: ThreadId)
    requires s.tables == Tables(map[0 := InboxRow(AGENT_TASK, Running, 0)], map[])
    requires w in s.threads && s.threads[w] == Exec(AGENT_TASK, Some(0), Claimed)
    ensures var s' := EndTurn(Begin(s, w, 10, true), w, true);
      && s'.threads == s.threads[w := Exec(AGENT_TASK, Some(0), Ending(AgentTaskCompleted, Completed))]
      && s'.tables.inbox == s.tables.inbox && s'.tables.outbox.Keys == {10}
      && s'.log.events == s.log.events && s'.log.found == s.log.found
  {
    var s1 := Begin(s, w, 10, true);
    assert s1.threads == s.threads[w := Exec(AGENT_TASK, Some(0), Turn)];
  }

  lemma FinishEmits(s: State, w: ThreadId)
    requires w in s.threads && s.threads[w] == Exec(AGENT_TASK, Some(0), Ending(AgentTaskCompleted, Completed))
    requires s.tables.outbox.Keys == {10} && s.log.events == map[] && s.log.found == map[]
    ensures var s' := EmitTerminal(s, w, 11, true);
      && s'.tables.inbox == s.tables.inbox && s'.tables.outbox.Keys == {10, 11}
      && Events(s', 0) == {11} && s'.log.found == map[]
      && (forall u | u in s.threads && u != w :: u in s'.threads && s'.threads[u] == s.threads[u])
  {
  }

  // A task that has been claimed ends and stores its event, the status update still being due.
  lemma FinishTurn(s0: State, w: ThreadId) returns (steps: seq<Step>)
    requires s0.tables == Tables(map[0 := InboxRow(AGENT_TASK, Running, 0)], map[])
    requires w in s0.threads && s0.threads[w] == Exec(AGENT_TASK, Some(0), Claimed)
    requires s0.log.events == map[] && s0.log.found == map[]
    ensures var s := RunFrom(s0, steps);
      && s.tables.inbox == s0.tables.inbox && s.tables.outbox.Keys == {10, 11}
      && Events(s, 0) == {11} && s.log.found == map[]
      && (forall u | u in s0.threads && u != w :: u in s.threads && s.threads[u] == s0.threads[u])
    ensures Crashes(steps) == 0
  {
    steps := TurnSteps(w);
    TurnRuns(s0, w);
    TurnBegins(s0, w);
    FinishEmits(EndTurn(Begin(s0, w, 10, true), w, true), w);
  }

  // The task ends; then the first connection lists it as interrupted.
  lemma ListedMeanwhile() returns (steps: seq<Step>)
    ensures var s := Run(steps);
      && s.tables.inbox == map[0 := InboxRow(AGENT_TASK, Running, 0)]
      && 0 in s.threads && s.threads[0] == Conn(B0, FailNext([0]))
      && Events(s, 0) == {11} && s.tables.outbox.Keys == {10, 11} && Count(s.log.found, 0) == 1
    ensures Crashes(steps) == 0
  {
    var claimed := ClaimedMeanwhile();
    var turn := FinishTurn(Run(claimed), 2);
    RunAppend(INIT, claimed, turn);
    var s := Run(claimed + turn);
    SingleListing(StatusRows(s.tables, B0, Running), 0);
    var list := [OnConn(0, SQueryRunning(true))];
    RunAlong([s, QueryRunning(s, 0, true)], list);
    RunAppend(INIT, claimed + turn, list);
    NoCrashes(list);
    steps := claimed + turn + list;
  }

  /** Even without a crash recovery can find a task running that is not interrupted, and add a
      second terminal event: the connection that claimed recovery queries late. */
  lemma FoundWithoutCrash() returns (steps: seq<Step>)
    ensures Crashes(steps) == 0 && Interrupted(Run(steps), 1) && Events(Run(steps), 0) == {11, 12}
  {
    var listed := ListedMeanwhile();
    var s := Run(listed);
    FailsAgain(s, 0);
    var fail := [OnConn(0, SFailInterrupted(12, true))];
    RunAlong([s, FailInterrupted(s, 0, 12, true)], fail);
    RunAppend(INIT, listed, fail);
    NoCrashes(fail);
    steps := listed + fail;
  }

  /** Both bounds on terminal events are tight, for every number of crashes: recovery finds the
      task once in each process, and each time its failure adds an event. */
  lemma {:induction false} BoundIsTight(n: nat) returns (steps: seq<Step>)
    ensures var s := Run(steps);
      && Crashes(steps) == n && Interrupted(s, 1 + n)
      && |Events(s, 0)| == 1 + Count(s.log.found, 0) == 2 + Crashes(steps)
  {
    if n == 0 {
      steps := FoundWithoutCrash();
    } else {
      var fewer := BoundIsTight(n - 1);
      var again := OneMoreCrash(Run(fewer), n);
      RunAppend(INIT, fewer, again);
      steps := fewer + again;
    }
  }

  // An agent task that has claimed its assignment.
  lemma ClaimedTask() returns (steps: seq<Step>)
    ensures var s := Run(steps);
      && s.tables == Tables(map[0 := InboxRow(AGENT_TASK, Running, 0)], map[])
      && 1 in s.threads && s.threads[1] == Exec(AGENT_TASK, Some(0), Claimed)
      && s.log.events == map[] && s.log.found == map[]
    ensures Crashes(steps) == 0
  {
    steps := [SConnect(B0), OnConn(0, SClaimRecovery), OnConn(0, SQueryRunning(false)),
              OnConn(0, SReadEnvelope(AGENT_TASK, true)), OnConn(0, SWriteReceipt(true)), OnExec(1, SClaim(true))];
    var s1 := Connect(INIT, B0);
    var s2 := ClaimRecovery(s1, 0);
    var s3 := QueryRunning(s2, 0, false);
    var s4 := ReadEnvelope(s3, 0, AGENT_TASK, true);
    var s5 := WriteReceipt(s4, 0, true);
    assert s5.threads[1] == Exec(AGENT_TASK, Some(0), Queued);
    var s6 := Claim(s5, 1, true);
    RunAlong([INIT, s1, s2, s3, s4, s5, s6], steps);
    NoCrashes(steps);
  }

  /** A crash between storing the event and updating the status makes the next process find
      the finished task running and emit a second, contradicting event. */
  lemma CrashDuplicatesTerminalEvent() returns (steps: seq<Step>)
    ensures var s := Run(steps);
      && Crashes(steps) == 1 && Count(s.log.found, 0) == 1 && Events(s, 0) == {11, 12}
  {
    var claimed := ClaimedTask();
    var turn := FinishTurn(Run(claimed), 1);
    RunAppend(INIT, claimed, turn);
    var again := OneMoreCrash(Run(claimed + turn), 0);
    RunAppend(INIT, claimed + turn, again);
    steps := claimed + turn + again;
  }
}
