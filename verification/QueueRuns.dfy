/**
  Runs of the message queue: turns that end, entries that are queued, reconnects whose replay is
  interrupted by other goroutines, and writes that fail.
*/
module QueueRuns {
  import opened MsgQueue
  import opened Wrappers

  // What happened to every entry.
  datatype History = History(
    inputs: seq<Entry>,            // inputs ever queued
    handed: seq<Entry>,            // inputs handed to a turn
    lost: seq<Entry>,              // inputs that expired or were evicted
    kept: seq<Entry>,              // replies, edges and notices ever queued or made
    order: seq<Entry>,             // those in the order in which they should be delivered
    delivered: seq<Entry>)         // those that were written to the hub

  datatype State = State(
    q: Queue,
    activeTurns: int,
    batch: seq<Entry>,             // what the replay of this connection still has to do
    handing: bool,                 // the first of them is an input whose turn has started
    broken: bool,                  // a write of this replay failed
    running: nat,                  // turn goroutines
    now: int,
    next: nat,                     // serial of the next push or notice
    h: History)

  datatype Step =
    | Receives                                         // a frame from the hub starts a turn goroutine
    | QueuesInput(messageID: string, content: string)  // which finds the gateway not ready
    | QueuesReply(content: string)
    | QueuesEdge(payload: string)
    | TurnEnds
    | Reconnects
    | Writes(ok: bool)
    | Hands
    | Releases
    | Wait(ms: nat)

  const KEPT := {Reply, Notice, Control}

  function NonInputs(msgs: seq<Entry>): seq<Entry> {
    Select(msgs, KEPT)
  }

  function Evicted(q: Queue): seq<Entry> {
    if Evicts(q) then [q.msgs[FirstInput(q.msgs)]] else []
  }

  function Push(s: State, e: Entry): State {
    s.(q := Enqueue(s.q, e), activeTurns := s.activeTurns - |Evicted(s.q)|, h := s.h.(lost := s.h.lost + Evicted(s.q)))
  }

  function PushKept(s: State, e: Entry): State {
    var pushed := Push(s, e);
    pushed.(next := s.next + 1, h := pushed.h.(kept := s.h.kept + [e], order := s.h.order + [e]))
  }

  // A notice goes in front of everything that has not been delivered yet.
  function Announce(h: History, notice: seq<Entry>): History {
    var at := if |h.delivered| <= |h.order| then |h.delivered| else |h.order|;
    h.(kept := h.kept + notice, order := h.order[..at] + notice + h.order[at..])
  }

  function DrainNow(s: State): State {
    var stale, live := Stale(s.q.msgs, s.now), Live(s.q.msgs, s.now);
    var batch := Drained(s.q, s.now, s.next);
    s.(q := EMPTY, batch := batch, broken := false, activeTurns := s.activeTurns - |stale|, next := s.next + 1,
       h := Announce(s.h.(lost := s.h.lost + stale), batch[..|batch| - |live|]))
  }

  function Deliver(s: State): State
    requires s.batch != []
  {
    s.(batch := s.batch[1..], h := s.h.(delivered := s.h.delivered + [s.batch[0]]))
  }

  function Requeue(s: State): State
    requires s.batch != []
  {
    var pushed := Push(s, s.batch[0]);
    pushed.(batch := s.batch[1..], broken := true)
  }

  // With sticky failures a write of a replay fails after one has failed.
  function Apply(s: State, step: Step, sticky: bool): State {
    match step
    case Receives => s.(running := s.running + 1, activeTurns := s.activeTurns + 1)
    case QueuesInput(messageID, content) =>
      if s.running == 0 then s
      else
        var e := Entry(Input, messageID, Text(content), s.now, s.next);
        var pushed := Push(s.(activeTurns := s.activeTurns + 1), e);
        pushed.(next := s.next + 1, h := pushed.h.(inputs := s.h.inputs + [e]))
    case QueuesReply(content) => PushKept(s, Entry(Reply, "", Text(content), s.now, s.next))
    case QueuesEdge(payload) => PushKept(s, Entry(Control, "", Edge(payload), s.now, s.next))
    case TurnEnds => if s.running == 0 then s else s.(running := s.running - 1, activeTurns := s.activeTurns - 1)
    case Reconnects => if s.batch != [] then s else DrainNow(s)
    case Writes(ok) =>
      if s.batch == [] || s.batch[0].kind == Input then s
      else if ok && !(sticky && s.broken) then Deliver(s)
      else Requeue(s)
    case Hands =>
      if s.batch == [] || s.batch[0].kind != Input || s.handing then s
      else s.(handing := true, running := s.running + 1, activeTurns := s.activeTurns + 1,
              h := s.h.(handed := s.h.handed + [s.batch[0]]))
    case Releases =>
      if s.batch == [] || !s.handing then s
      else s.(handing := false, batch := s.batch[1..], activeTurns := s.activeTurns - 1)
    case Wait(ms) => s.(now := s.now + ms)
  }

  // A bridge process that has just started.
  predicate Initial(s: State) {
    && s.q == EMPTY && s.batch == [] && !s.handing && !s.broken
    && s.activeTurns == s.running == 0
    && s.h == History([], [], [], [], [], [])
  }

  function RunFrom(s: State, steps: seq<Step>, sticky: bool): State
    decreases |steps|
  {
    if steps == [] then s else RunFrom(Apply(s, steps[0], sticky), steps[1..], sticky)
  }

  // ---------------------------------------------------------------- facts about the filters

  lemma {:induction false} Split(a: seq<Entry>, b: seq<Entry>, kinds: set<Kind>)
    ensures Select(a + b, kinds) == Select(a, kinds) + Select(b, kinds)
    decreases |b|
  {
    if b == [] {
      assert a + b == a;
    } else {
      var front := b[..|b| - 1];
      Split(a, front, kinds);
      assert (a + b)[..|a + b| - 1] == a + front;
    }
  }

  lemma HeadTail(msgs: seq<Entry>, kinds: set<Kind>)
    requires msgs != []
    ensures Select(msgs, kinds) ==
            if msgs[0].kind in kinds then [msgs[0]] + Select(msgs[1..], kinds) else Select(msgs[1..], kinds)
  {
    assert msgs == [msgs[0]] + msgs[1..];
    Split([msgs[0]], msgs[1..], kinds);
  }

  lemma {:induction false} SelectAll(msgs: seq<Entry>, kinds: set<Kind>)
    ensures (forall i | 0 <= i < |msgs| :: msgs[i].kind in kinds) ==> Select(msgs, kinds) == msgs
    ensures (forall i | 0 <= i < |msgs| :: msgs[i].kind !in kinds) ==> Select(msgs, kinds) == []
    decreases |msgs|
  {
    if msgs != [] { SelectAll(msgs[..|msgs| - 1], kinds); }
  }

  lemma Around(q: Queue, kinds: set<Kind>)
    requires FirstInput(q.msgs) < |q.msgs|
    ensures var at := FirstInput(q.msgs);
      && Select(q.msgs, kinds) == Select(q.msgs[..at], kinds) + Select(q.msgs[at..], kinds)
      && Select(Without(q.msgs, at), kinds) == Select(q.msgs[..at], kinds) + Select(q.msgs[at + 1..], kinds)
      && Select(q.msgs[at..], kinds) ==
         if Input in kinds then [q.msgs[at]] + Select(q.msgs[at + 1..], kinds) else Select(q.msgs[at + 1..], kinds)
  {
    var at := FirstInput(q.msgs);
    assert q.msgs == q.msgs[..at] + q.msgs[at..];
    Split(q.msgs[..at], q.msgs[at..], kinds);
    Split(q.msgs[..at], q.msgs[at + 1..], kinds);
    HeadTail(q.msgs[at..], kinds);
    assert q.msgs[at..][1..] == q.msgs[at + 1..];
  }

  // Eviction takes the oldest input and nothing else.
  lemma EvictKeeps(q: Queue, kinds: set<Kind>)
    requires Input !in kinds
    ensures Select(Evict(q).msgs, kinds) == Select(q.msgs, kinds)
  {
    if FirstInput(q.msgs) < |q.msgs| { Around(q, kinds); }
  }

  lemma FirstOfInputs(front: seq<Entry>, e: Entry, rest: seq<Entry>)
    requires e.kind == Input && forall i | 0 <= i < |front| :: front[i].kind != Input
    ensures Inputs(front + ([e] + rest)) == [e] + Inputs(front + rest)
  {
    Split(front, [e] + rest, {Input});
    Split(front, rest, {Input});
    HeadTail([e] + rest, {Input});
    SelectAll(front, {Input});
    assert ([e] + rest)[1..] == rest;
  }

  lemma Apart<T>(es: seq<T>, at: nat)
    requires at < |es|
    ensures es == es[..at] + ([es[at]] + es[at + 1..])
  {
  }

  lemma FirstInputTaken(q: Queue)
    requires FirstInput(q.msgs) < |q.msgs|
    ensures var at := FirstInput(q.msgs); Inputs(q.msgs) == [q.msgs[at]] + Inputs(Without(q.msgs, at))
  {
    var at := FirstInput(q.msgs);
    var front, e, rest := q.msgs[..at], q.msgs[at], q.msgs[at + 1..];
    assert forall i | 0 <= i < |front| :: front[i] == q.msgs[i];
    Apart(q.msgs, at);
    FirstOfInputs(front, e, rest);
  }

  lemma EvictTakes(q: Queue)
    ensures Inputs(q.msgs) == Evicted(q) + Inputs(Evict(q).msgs)
    ensures FirstInput(q.msgs) < |q.msgs| <==> Inputs(q.msgs) != []
  {
    if FirstInput(q.msgs) < |q.msgs| {
      FirstInputTaken(q);
    } else {
      SelectAll(q.msgs, {Input});
    }
  }

  lemma EnqueueFacts(q: Queue, e: Entry)
    ensures NonInputs(Enqueue(q, e).msgs) == if e.kind == Input then NonInputs(q.msgs) else NonInputs(q.msgs) + [e]
    ensures Enqueue(q, e).dropped == q.dropped + |Evicted(q)|
    ensures SizeOk(q) ==> SizeOk(Enqueue(q, e))
  {
    EvictTakes(q);
    EvictKeeps(q, KEPT);
    SelectSnoc(Evict(q).msgs, e, {Input});
    SelectSnoc(Evict(q).msgs, e, KEPT);
  }

  // How often an entry occurs.
  function Times(x: Entry, es: seq<Entry>): nat {
    multiset(es)[x]
  }

  // Counting any entry x, the inputs of the queue are an evicted one and those after the push.
  lemma EnqueueInputs(q: Queue, e: Entry, x: Entry)
    ensures Times(x, Evicted(q)) + Times(x, Inputs(Enqueue(q, e).msgs))
            == Times(x, Inputs(q.msgs)) + (if e.kind == Input && e == x then 1 else 0)
    ensures |Evicted(q)| + |Inputs(Enqueue(q, e).msgs)| == |Inputs(q.msgs)| + (if e.kind == Input then 1 else 0)
  {
    EvictTakes(q);
    SelectSnoc(Evict(q).msgs, e, {Input});
    assert Times(x, Inputs(q.msgs)) == Times(x, Evicted(q)) + Times(x, Inputs(Evict(q).msgs));
  }

  lemma SelectSnoc(front: seq<Entry>, last: Entry, kinds: set<Kind>)
    ensures Select(front + [last], kinds) ==
            if last.kind in kinds then Select(front, kinds) + [last] else Select(front, kinds)
  {
    assert (front + [last])[..|front|] == front;
  }

  /** A drain hands on exactly the entries that are not inputs older than ten minutes. */
  lemma {:induction false} LiveExactly(msgs: seq<Entry>, now: int, e: Entry)
    ensures e in Live(msgs, now) <==> e in msgs && (e.kind == Input ==> now - e.queuedAt < 10 * 60 * 1000)
    ensures e in Stale(msgs, now) <==> e in msgs && e !in Live(msgs, now)
    decreases |msgs|
  {
    if msgs != [] {
      var front, last := msgs[..|msgs| - 1], msgs[|msgs| - 1];
      LiveExactly(front, now, e);
      assert msgs == front + [last];
    }
  }

  lemma {:induction false} LiveSelect(msgs: seq<Entry>, now: int, kinds: set<Kind>)
    requires Input !in kinds
    ensures Select(Live(msgs, now), kinds) == Select(msgs, kinds)
    decreases |msgs|
  {
    if msgs != [] {
      var front, last := msgs[..|msgs| - 1], msgs[|msgs| - 1];
      LiveSelect(front, now, kinds);
      if !Expired(last, now) { SelectSnoc(Live(front, now), last, kinds); }
    }
  }

  lemma {:induction false} LiveInputs(msgs: seq<Entry>, now: int, x: Entry)
    ensures Times(x, Inputs(msgs)) == Times(x, Inputs(Live(msgs, now))) + Times(x, Stale(msgs, now))
    ensures |Inputs(msgs)| == |Inputs(Live(msgs, now))| + |Stale(msgs, now)|
    decreases |msgs|
  {
    if msgs != [] {
      var front, last := msgs[..|msgs| - 1], msgs[|msgs| - 1];
      LiveInputs(front, now, x);
      if !Expired(last, now) { SelectSnoc(Live(front, now), last, {Input}); }
    }
  }

  // ---------------------------------------------------------------- conservation

  // The queue is bounded, except for entries that must not be lost.
  predicate SizeOk(q: Queue) {
    |q.msgs| <= QUEUE_MAX || |Inputs(q.msgs)| <= 1
  }

  // Drained inputs that have not been handed to a turn.
  function Unhanded(s: State): seq<Entry> {
    if s.handing && s.batch != [] then Inputs(s.batch[1..]) else Inputs(s.batch)
  }

  // Every input is waiting, drained, handed to a turn or lost, as often as it was queued.
  predicate InputsConserved(s: State, x: Entry) {
    Times(x, s.h.inputs)
    == Times(x, Inputs(s.q.msgs)) + Times(x, Unhanded(s)) + Times(x, s.h.handed) + Times(x, s.h.lost)
  }

  predicate KeptConserved(s: State, x: Entry) {
    Times(x, s.h.kept) == Times(x, NonInputs(s.q.msgs)) + Times(x, NonInputs(s.batch)) + Times(x, s.h.delivered)
  }

  predicate SerialsIncrease(inputs: seq<Entry>, next: nat) {
    && (forall i | 0 <= i < |inputs| :: inputs[i].serial < next)
    && (forall i, j | 0 <= i < j < |inputs| :: inputs[i].serial < inputs[j].serial)
  }

  function Reported(kept: seq<Entry>): nat {
    if kept == [] then 0
    else
      var e := kept[|kept| - 1];
      Reported(kept[..|kept| - 1]) + (if e.kind == Notice && e.body.Drops? then e.body.count else 0)
  }

  predicate DropsCounted(s: State) {
    Reported(s.h.kept) + s.q.dropped == |s.h.lost|
  }

  predicate TurnsCounted(s: State) {
    && s.activeTurns == |Inputs(s.q.msgs)| + |Inputs(s.batch)| + s.running
    && (s.handing ==> s.batch != [] && s.batch[0].kind == Input)
  }

  predicate Counts(s: State) {
    SerialsIncrease(s.h.inputs, s.next) && DropsCounted(s) && TurnsCounted(s) && SizeOk(s.q)
  }

  predicate Inv(s: State, x: Entry) {
    Counts(s) && InputsConserved(s, x) && KeptConserved(s, x)
  }

  lemma OneMoreInput(inputs: seq<Entry>, e: Entry)
    requires SerialsIncrease(inputs, e.serial)
    ensures SerialsIncrease(inputs + [e], e.serial + 1)
  {
  }

  lemma PushInputConserves(s: State, e: Entry, after: State, x: Entry)
    requires InputsConserved(s, x) && KeptConserved(s, x) && e.kind == Input
    requires after.q == Enqueue(s.q, e) && after.batch == s.batch && after.handing == s.handing
    requires after.h == s.h.(inputs := s.h.inputs + [e], lost := s.h.lost + Evicted(s.q))
    ensures InputsConserved(after, x) && KeptConserved(after, x)
  {
    EnqueueFacts(s.q, e);
    EnqueueInputs(s.q, e, x);
    assert Times(x, after.h.inputs) == Times(x, s.h.inputs) + Times(x, [e]);
    assert Times(x, after.h.lost) == Times(x, s.h.lost) + Times(x, Evicted(s.q));
  }

  lemma PushInputKeepsInv(s: State, messageID: string, content: string, sticky: bool, x: Entry)
    requires Inv(s, x) && s.running > 0
    ensures Inv(Apply(s, QueuesInput(messageID, content), sticky), x)
  {
    var e := Entry(Input, messageID, Text(content), s.now, s.next);
    EnqueueFacts(s.q, e);
    EnqueueInputs(s.q, e, x);
    OneMoreInput(s.h.inputs, e);
    PushInputConserves(s, e, Apply(s, QueuesInput(messageID, content), sticky), x);
  }

  lemma PushKeptKeepsInv(s: State, e: Entry, x: Entry)
    requires Inv(s, x) && (e.kind == Reply || e.kind == Control)
    ensures Inv(PushKept(s, e), x)
  {
    EnqueueFacts(s.q, e);
    EnqueueInputs(s.q, e, x);
    ReportedSnoc(s.h.kept, e);
  }

  lemma DrainedIs(q: Queue, now: int, serial: nat)
    ensures var (live, batch) := (Live(q.msgs, now), Drained(q, now, serial));
      && |batch| - |live| == (if q.dropped + |Stale(q.msgs, now)| > 0 then 1 else 0)
      && batch == batch[..|batch| - |live|] + live
      && (|batch| > |live| ==> batch[0].kind == Notice && batch[0].body.Drops?
                               && batch[0].body.count == q.dropped + |Stale(q.msgs, now)| && batch[0].serial == serial)
      && Inputs(batch) == Inputs(live)
      && NonInputs(batch) == batch[..|batch| - |live|] + NonInputs(live)
  {
    var live, batch := Live(q.msgs, now), Drained(q, now, serial);
    if |batch| > |live| {
      HeadTail(batch, {Input});
      HeadTail(batch, KEPT);
      assert batch[1..] == live;
    } else {
      assert batch == live;
    }
  }

  lemma ReportedSnoc(kept: seq<Entry>, e: Entry)
    ensures Reported(kept + [e]) == Reported(kept) + (if e.kind == Notice && e.body.Drops? then e.body.count else 0)
  {
    assert (kept + [e])[..|kept|] == kept;
  }

  lemma DrainKeepsInv(s: State, x: Entry)
    requires Inv(s, x) && s.batch == []
    ensures Inv(DrainNow(s), x)
  {
    DrainInputs(s, x);
    DrainKept(s, x);
    DrainReports(s);
  }

  lemma DrainInputs(s: State, x: Entry)
    requires InputsConserved(s, x) && TurnsCounted(s) && s.batch == []
    ensures InputsConserved(DrainNow(s), x) && TurnsCounted(DrainNow(s))
  {
    DrainedIs(s.q, s.now, s.next);
    LiveInputs(s.q.msgs, s.now, x);
  }

  lemma DrainKept(s: State, x: Entry)
    requires KeptConserved(s, x) && s.batch == []
    ensures KeptConserved(DrainNow(s), x)
  {
    DrainedIs(s.q, s.now, s.next);
    LiveSelect(s.q.msgs, s.now, KEPT);
  }

  lemma DrainReports(s: State)
    requires DropsCounted(s) && s.batch == []
    ensures DropsCounted(DrainNow(s))
  {
    DrainedIs(s.q, s.now, s.next);
    var batch := Drained(s.q, s.now, s.next);
    var notice := batch[..|batch| - |Live(s.q.msgs, s.now)|];
    if notice == [] {
      assert s.h.kept + notice == s.h.kept;
    } else {
      assert notice == [batch[0]];
      ReportedSnoc(s.h.kept, batch[0]);
    }
  }

  lemma WriteKeepsInv(s: State, x: Entry)
    requires Inv(s, x) && s.batch != [] && s.batch[0].kind != Input
    ensures Inv(Deliver(s), x) && Inv(Requeue(s), x)
  {
    HeadTail(s.batch, {Input});
    HeadTail(s.batch, KEPT);
    EnqueueFacts(s.q, s.batch[0]);
    EnqueueInputs(s.q, s.batch[0], x);
  }

  lemma HandKeepsInv(s: State, sticky: bool, x: Entry)
    requires Inv(s, x)
    ensures Inv(Apply(s, Hands, sticky), x)
  {
    if s.batch != [] && s.batch[0].kind == Input { HeadTail(s.batch, {Input}); }
  }

  lemma ReleaseKeepsInv(s: State, sticky: bool, x: Entry)
    requires Inv(s, x)
    ensures Inv(Apply(s, Releases, sticky), x)
  {
    if s.handing {
      HeadTail(s.batch, {Input});
      HeadTail(s.batch, KEPT);
    }
  }

  lemma PushKeepsInv(s: State, step: Step, sticky: bool, x: Entry)
    requires Inv(s, x) && (step.QueuesInput? || step.QueuesReply? || step.QueuesEdge?)
    ensures Inv(Apply(s, step, sticky), x)
  {
    match step
    case QueuesInput(messageID, content) => if s.running > 0 { PushInputKeepsInv(s, messageID, content, sticky, x); }
    case QueuesReply(content) => PushKeptKeepsInv(s, Entry(Reply, "", Text(content), s.now, s.next), x);
    case QueuesEdge(payload) => PushKeptKeepsInv(s, Entry(Control, "", Edge(payload), s.now, s.next), x);
  }

  lemma ReconnectKeepsInv(s: State, sticky: bool, x: Entry)
    requires Inv(s, x)
    ensures Inv(Apply(s, Reconnects, sticky), x)
  {
    if s.batch == [] { DrainKeepsInv(s, x); }
  }

  lemma ReplayKeepsInv(s: State, ok: bool, sticky: bool, x: Entry)
    requires Inv(s, x)
    ensures Inv(Apply(s, Writes(ok), sticky), x)
  {
    if s.batch != [] && s.batch[0].kind != Input { WriteKeepsInv(s, x); }
  }

  lemma TurnKeepsInv(s: State, step: Step, sticky: bool, x: Entry)
    requires Inv(s, x) && (step.Receives? || step.TurnEnds? || step.Wait?)
    ensures Inv(Apply(s, step, sticky), x)
  {
  }

  lemma StepKeepsInv(s: State, step: Step, sticky: bool, x: Entry)
    requires Inv(s, x)
    ensures Inv(Apply(s, step, sticky), x)
  {
    if step.QueuesInput? || step.QueuesReply? || step.QueuesEdge? {
      PushKeepsInv(s, step, sticky, x);
    } else if step.Reconnects? {
      ReconnectKeepsInv(s, sticky, x);
    } else if step.Writes? {
      ReplayKeepsInv(s, step.ok, sticky, x);
    } else if step.Hands? {
      HandKeepsInv(s, sticky, x);
    } else if step.Releases? {
      ReleaseKeepsInv(s, sticky, x);
    } else {
      TurnKeepsInv(s, step, sticky, x);
    }
  }

  lemma {:induction false} RunKeepsInv(s: State, steps: seq<Step>, sticky: bool, x: Entry)
    requires Inv(s, x)
    ensures Inv(RunFrom(s, steps, sticky), x)
    decreases |steps|
  {
    if steps != [] {
      StepKeepsInv(s, steps[0], sticky, x);
      RunKeepsInv(Apply(s, steps[0], sticky), steps[1..], sticky, x);
    }
  }

  // ---------------------------------------------------------------- main results

  lemma {:induction false} IncreasingOnce(inputs: seq<Entry>, next: nat, x: Entry)
    requires SerialsIncrease(inputs, next)
    ensures Times(x, inputs) == if x in inputs then 1 else 0
    decreases |inputs|
  {
    if inputs != [] {
      var front, last := inputs[..|inputs| - 1], inputs[|inputs| - 1];
      IncreasingOnce(front, next, x);
      assert inputs == front + [last];
    }
  }

  // The states of all runs of a bridge process.
  ghost predicate Reachable(s: State, sticky: bool) {
    exists start: State, steps: seq<Step> :: Initial(start) && RunFrom(start, steps, sticky) == s
  }

  lemma InitialInv(s: State, x: Entry)
    requires Initial(s)
    ensures Inv(s, x)
  {
  }

  lemma ReachableInv(s: State, sticky: bool, x: Entry)
    requires Reachable(s, sticky)
    ensures Inv(s, x)
  {
    var start: State, steps: seq<Step> :| Initial(start) && RunFrom(start, steps, sticky) == s;
    InitialInv(start, x);
    RunKeepsInv(start, steps, sticky, x);
  }

  /** Every input that was ever queued is in exactly one place: waiting in the queue, drained and
      waiting for its turn, handed to a turn, once, or counted as lost. */
  lemma InputsExactlyOnce(s: State, sticky: bool, x: Entry)
    requires Reachable(s, sticky)
    ensures Times(x, Inputs(s.q.msgs)) + Times(x, Unhanded(s)) + Times(x, s.h.handed) + Times(x, s.h.lost)
            == if x in s.h.inputs then 1 else 0
  {
    ReachableInv(s, sticky, x);
    IncreasingOnce(s.h.inputs, s.next, x);
  }

  /** Lost inputs are all reported: those the notices count and those the next notice will count
      add up to the inputs that expired or were evicted. */
  lemma LossesAreReported(s: State, sticky: bool)
    requires Reachable(s, sticky)
    ensures Reported(s.h.kept) + s.q.dropped == |s.h.lost|
  {
    ReachableInv(s, sticky, Entry(Input, "", Text(""), 0, 0));
  }

  /** No reply, notice or recovery edge is ever dropped or duplicated: it is queued, in the replay
      of this connection, or written to the hub. */
  lemma NothingElseIsLost(s: State, sticky: bool, x: Entry)
    requires Reachable(s, sticky)
    ensures Times(x, s.h.kept) == Times(x, NonInputs(s.q.msgs)) + Times(x, NonInputs(s.batch)) + Times(x, s.h.delivered)
  {
    ReachableInv(s, sticky, x);
  }

  /** The turn counter is the inputs waiting in the queue, those drained and not yet released and
      the running turns; so it is never negative and reads zero exactly when nothing is pending.
      The queue holds at most 256 entries or at most one input. */
  lemma TurnCounterIsExact(s: State, sticky: bool)
    requires Reachable(s, sticky)
    ensures s.activeTurns == |Inputs(s.q.msgs)| + |Inputs(s.batch)| + s.running
    ensures s.activeTurns <= 0 <==> Inputs(s.q.msgs) == [] && Inputs(s.batch) == [] && s.running == 0
    ensures |s.q.msgs| <= 256 || |Inputs(s.q.msgs)| <= 1
  {
    ReachableInv(s, sticky, Entry(Input, "", Text(""), 0, 0));
  }
}
