/**
  The order in which entries that must not be lost reach the hub.

  A recovery edge is queued before the empty reply of the turn it explains, and the hub acts on
  the reply only after it saw the edge.  Writes of one connection fail for good once one failed.
*/
module QueueOrder {
  import opened MsgQueue
  import opened QueueRuns

  // Replies and recovery edges.
  const SEQUENCED := {Reply, Control}

  function Ordered(msgs: seq<Entry>): seq<Entry> {
    Select(msgs, SEQUENCED)
  }

  // The kinds whose order is followed: replies and edges, or these with the notices.
  predicate Followed(kinds: set<Kind>) {
    kinds == SEQUENCED || kinds == KEPT
  }

  // A reply or edge is queued while the replay that lost its connection still holds older
  // entries, or the replay loses its connection after one was queued behind its back.
  predicate Overtakes(s: State, step: Step, kinds: set<Kind>) {
    if step.QueuesReply? || step.QueuesEdge? then
      s.broken && Select(s.batch, kinds) != []
    else
      && step.Writes? && !step.ok && s.batch != [] && s.batch[0].kind != Input && !s.broken
      && Select(s.q.msgs, kinds) != [] && Select(s.batch, kinds) != []
  }

  predicate Overtaken(s: State, steps: seq<Step>, kinds: set<Kind>)
    decreases |steps|
  {
    steps != [] && (Overtakes(s, steps[0], kinds) || Overtaken(Apply(s, steps[0], true), steps[1..], kinds))
  }

  predicate Below(es: seq<Entry>, limit: nat) {
    forall e | e in es :: e.serial < limit
  }

  predicate AllBelow(a: seq<Entry>, b: seq<Entry>) {
    forall x, y | x in a && y in b :: x.serial < y.serial
  }

  predicate EndsWith(es: seq<Entry>, last: seq<Entry>) {
    |last| <= |es| && es[|es| - |last|..] == last
  }

  // Delivered entries, then the others in the order the next writes will meet them: d delivered,
  // b still in the replay, q queued.
  function Line(d: seq<Entry>, b: seq<Entry>, q: seq<Entry>, broken: bool): seq<Entry> {
    if broken then d + (q + b) else d + (b + q)
  }

  // o is the order in which they should be delivered.
  predicate LineOk(d: seq<Entry>, b: seq<Entry>, q: seq<Entry>, broken: bool,
                   o: seq<Entry>, overtaken: bool, next: nat)
  {
    && (Line(d, b, q, broken) == o <==> !overtaken)
    && |o| == |d| + |b| + |q|
    && Below(b, next) && Below(q, next)
    && (!broken ==> AllBelow(b, q) && EndsWith(o, q))
  }

  predicate AllKept(es: seq<Entry>) {
    forall i | 0 <= i < |es| :: es[i].kind in KEPT
  }

  predicate OrderInv(s: State, kinds: set<Kind>, overtaken: bool) {
    && LineOk(Select(s.h.delivered, kinds), Select(s.batch, kinds), Select(s.q.msgs, kinds), s.broken,
              Select(s.h.order, kinds), overtaken, s.next)
    && AllKept(s.h.delivered) && AllKept(s.h.order)
    && (s.handing ==> s.batch != [] && s.batch[0].kind == Input)
  }

  // ---------------------------------------------------------------- the line, on values

  lemma PushLine(d: seq<Entry>, b: seq<Entry>, q: seq<Entry>, broken: bool,
                 o: seq<Entry>, overtaken: bool, next: nat, e: Entry)
    requires LineOk(d, b, q, broken, o, overtaken, next) && e.serial == next
    ensures LineOk(d, b, q + [e], broken, o + [e], overtaken || (broken && b != []), next + 1)
  {
    if broken && b != [] {
      var line := Line(d, b, q + [e], broken);
      assert line[|line| - 1] == b[|b| - 1] && b[|b| - 1] in b;
      assert (o + [e])[|o|] == e;
    } else {
      assert Line(d, b, q + [e], broken) == Line(d, b, q, broken) + [e];
      assert (o + [e])[..|o|] == o && (Line(d, b, q, broken) + [e])[..|o|] == Line(d, b, q, broken);
    }
  }

  lemma DeliverLine(d: seq<Entry>, b: seq<Entry>, q: seq<Entry>, o: seq<Entry>, overtaken: bool, next: nat, e: Entry)
    requires LineOk(d, [e] + b, q, false, o, overtaken, next)
    ensures LineOk(d + [e], b, q, false, o, overtaken, next)
  {
    assert d + ([e] + b + q) == d + [e] + (b + q);
    forall x | x in b ensures x in [e] + b {}
  }

  // The replay turns out to be broken: what was queued meanwhile now comes first.
  lemma BreakLine(d: seq<Entry>, b: seq<Entry>, q: seq<Entry>, broken: bool, o: seq<Entry>, overtaken: bool, next: nat)
    requires LineOk(d, b, q, broken, o, overtaken, next)
    ensures LineOk(d, b, q, true, o, overtaken || (!broken && q != [] && b != []), next)
  {
    if !broken && q != [] && b != [] {
      var line := Line(d, b, q, true);
      assert line[|line| - 1] == b[|b| - 1] && b[|b| - 1] in b;
      assert o[|o| - 1] == q[|q| - 1] && q[|q| - 1] in q;
    } else {
      assert broken || q + b == b + q;
    }
  }

  lemma RequeueLine(d: seq<Entry>, b: seq<Entry>, q: seq<Entry>, o: seq<Entry>, overtaken: bool, next: nat, e: Entry)
    requires LineOk(d, [e] + b, q, true, o, overtaken, next)
    ensures LineOk(d, b, q + [e], true, o, overtaken, next)
  {
    assert e in [e] + b;
    assert (q + [e]) + b == q + ([e] + b);
    assert forall x | x in b :: x in [e] + b;
    assert forall x | x in q + [e] :: x in q || x == e;
  }

  lemma LineLater(d: seq<Entry>, b: seq<Entry>, q: seq<Entry>, broken: bool, o: seq<Entry>, overtaken: bool, next: nat)
    requires LineOk(d, b, q, broken, o, overtaken, next)
    ensures LineOk(d, b, q, broken, o, overtaken, next + 1)
  {
  }

  lemma DrainLine(d: seq<Entry>, q: seq<Entry>, broken: bool, o: seq<Entry>, overtaken: bool, next: nat)
    requires LineOk(d, [], q, broken, o, overtaken, next)
    ensures LineOk(d, q, [], false, o, overtaken, next)
  {
    assert q + [] == q == [] + q;
  }

  // The same entry put into two sequences at the same place.
  lemma InsertBoth(a: seq<Entry>, b: seq<Entry>, at: nat, e: Entry)
    requires at <= |a| == |b|
    ensures a[..at] + [e] + a[at..] == b[..at] + [e] + b[at..] <==> a == b
  {
    var a', b' := a[..at] + [e] + a[at..], b[..at] + [e] + b[at..];
    assert a'[..at] == a[..at] && a'[at + 1..] == a[at..] && b'[..at] == b[..at] && b'[at + 1..] == b[at..];
    assert a == a[..at] + a[at..] && b == b[..at] + b[at..];
  }

  lemma NoticeInLine(d: seq<Entry>, q: seq<Entry>, n: Entry)
    ensures Line(d, [n] + q, [], false) == (d + q)[..|d|] + [n] + (d + q)[|d|..]
  {
    assert (d + q)[..|d|] == d && (d + q)[|d|..] == q;
    assert [n] + q + [] == [n] + q;
    assert d + ([n] + q) == d + [n] + q;
  }

  lemma QueueInLine(d: seq<Entry>, q: seq<Entry>, broken: bool)
    ensures Line(d, [], q, broken) == d + q
  {
    assert q + [] == q == [] + q;
  }

  lemma NoticeLine(d: seq<Entry>, q: seq<Entry>, broken: bool, o: seq<Entry>, overtaken: bool, next: nat, n: Entry)
    requires LineOk(d, [], q, broken, o, overtaken, next) && n.serial == next
    ensures LineOk(d, [n] + q, [], false, o[..|d|] + [n] + o[|d|..], overtaken, next + 1)
  {
    QueueInLine(d, q, broken);
    NoticeInLine(d, q, n);
    InsertBoth(d + q, o, |d|, n);
  }

  // ---------------------------------------------------------------- the steps

  lemma EnqueueSelect(q: Queue, e: Entry, kinds: set<Kind>)
    requires Input !in kinds
    ensures Select(Enqueue(q, e).msgs, kinds) ==
            if e.kind in kinds then Select(q.msgs, kinds) + [e] else Select(q.msgs, kinds)
  {
    EvictKeeps(q, kinds);
    SelectSnoc(Evict(q).msgs, e, kinds);
  }

  lemma FollowedKinds(kinds: set<Kind>)
    requires Followed(kinds)
    ensures Input !in kinds && Reply in kinds && Control in kinds
  {
  }

  lemma PushOrder(s: State, e: Entry, kinds: set<Kind>, overtaken: bool)
    requires OrderInv(s, kinds, overtaken) && Followed(kinds) && e.kind in SEQUENCED && e.serial == s.next
    ensures OrderInv(PushKept(s, e), kinds, overtaken || (s.broken && Select(s.batch, kinds) != []))
  {
    FollowedKinds(kinds);
    EnqueueSelect(s.q, e, kinds);
    SelectSnoc(s.h.order, e, kinds);
    PushLine(Select(s.h.delivered, kinds), Select(s.batch, kinds), Select(s.q.msgs, kinds), s.broken,
             Select(s.h.order, kinds), overtaken, s.next, e);
    PushKeepsRest(s, e);
  }

  lemma PushedOrder(s: State, step: Step, kinds: set<Kind>, overtaken: bool)
    requires OrderInv(s, kinds, overtaken) && Followed(kinds) && (step.QueuesReply? || step.QueuesEdge?)
    ensures OrderInv(Apply(s, step, true), kinds, overtaken || Overtakes(s, step, kinds))
  {
    if step.QueuesReply? {
      PushOrder(s, Entry(Reply, "", Text(step.content), s.now, s.next), kinds, overtaken);
    } else {
      PushOrder(s, Entry(Control, "", Edge(step.payload), s.now, s.next), kinds, overtaken);
    }
  }

  lemma PushKeepsRest(s: State, e: Entry)
    requires AllKept(s.h.order) && e.kind in SEQUENCED
    ensures var after := PushKept(s, e);
      && after.q == Enqueue(s.q, e) && after.batch == s.batch && after.broken == s.broken && after.handing == s.handing
      && after.next == s.next + 1 && after.h.delivered == s.h.delivered
      && after.h.order == s.h.order + [e] && AllKept(after.h.order)
  {
  }

  // The notice leaves the order of replies and edges alone.
  lemma AnnounceSelect(order: seq<Entry>, at: nat, notice: seq<Entry>, kinds: set<Kind>)
    requires at <= |order| && (notice == [] || (|notice| == 1 && notice[0].kind !in kinds))
    ensures Select(order[..at] + notice + order[at..], kinds) == Select(order, kinds)
  {
    var before, after := order[..at], order[at..];
    Split(before, after, kinds);
    assert order == before + after;
    if notice == [] {
      assert before + notice == before;
    } else {
      SelectSnoc(before, notice[0], kinds);
      assert before + notice == before + [notice[0]];
      Split(before + notice, after, kinds);
    }
  }

  function NoticeOf(s: State): seq<Entry> {
    var batch := Drained(s.q, s.now, s.next);
    batch[..|batch| - |Live(s.q.msgs, s.now)|]
  }

  lemma NoticeIs(s: State)
    ensures var notice, batch := NoticeOf(s), Drained(s.q, s.now, s.next);
      && batch == notice + Live(s.q.msgs, s.now)
      && (notice == [] || (notice == [batch[0]] && batch[0].kind == Notice && batch[0].serial == s.next))
  {
    DrainedIs(s.q, s.now, s.next);
    var batch := Drained(s.q, s.now, s.next);
    if |batch| > |Live(s.q.msgs, s.now)| { assert NoticeOf(s)[0] == batch[0]; }
  }

  lemma DrainAnnounces(s: State)
    ensures DrainNow(s).h.order == Announce(s.h, NoticeOf(s)).order
  {
    DrainedIs(s.q, s.now, s.next);
  }

  lemma DrainOrder(s: State, after: State, kinds: set<Kind>, overtaken: bool)
    requires OrderInv(s, kinds, overtaken) && Followed(kinds) && s.batch == [] && after == DrainNow(s)
    ensures OrderInv(after, kinds, overtaken)
  {
    FollowedKinds(kinds);
    NoticeIs(s);
    LiveSelect(s.q.msgs, s.now, kinds);
    DrainAnnounces(s);
    AnnounceKept(s);
    if NoticeOf(s) == [] || kinds == SEQUENCED {
      DrainWithoutNotice(s, kinds, overtaken);
    } else {
      DrainWithNotice(s, overtaken);
    }
  }

  lemma AnnounceKept(s: State)
    requires AllKept(s.h.order)
    ensures AllKept(DrainNow(s).h.order)
  {
    NoticeIs(s);
    DrainAnnounces(s);
  }

  lemma DrainWithoutNotice(s: State, kinds: set<Kind>, overtaken: bool)
    requires OrderInv(s, kinds, overtaken) && Followed(kinds) && s.batch == []
    requires NoticeOf(s) == [] || kinds == SEQUENCED
    requires AllKept(DrainNow(s).h.order)
    ensures OrderInv(DrainNow(s), kinds, overtaken)
  {
    FollowedKinds(kinds);
    var d, q, o := Select(s.h.delivered, kinds), Select(s.q.msgs, kinds), Select(s.h.order, kinds);
    LiveSelect(s.q.msgs, s.now, kinds);
    BatchWithout(s, kinds);
    OrderWithout(s, kinds);
    DrainLine(d, q, s.broken, o, overtaken, s.next);
    LineLater(d, q, [], false, o, overtaken, s.next);
  }

  // A drain without a notice of these kinds.
  lemma BatchWithout(s: State, kinds: set<Kind>)
    requires NoticeOf(s) == [] || Notice !in kinds
    ensures Select(Drained(s.q, s.now, s.next), kinds) == Select(Live(s.q.msgs, s.now), kinds)
  {
    NoticeIs(s);
    Split(NoticeOf(s), Live(s.q.msgs, s.now), kinds);
    SelectAll(NoticeOf(s), kinds);
  }

  lemma OrderWithout(s: State, kinds: set<Kind>)
    requires NoticeOf(s) == [] || Notice !in kinds
    ensures Select(DrainNow(s).h.order, kinds) == Select(s.h.order, kinds)
  {
    NoticeIs(s);
    DrainAnnounces(s);
    var at := if |s.h.delivered| <= |s.h.order| then |s.h.delivered| else |s.h.order|;
    AnnounceSelect(s.h.order, at, NoticeOf(s), kinds);
  }

  lemma DrainWithNotice(s: State, overtaken: bool)
    requires OrderInv(s, KEPT, overtaken) && s.batch == [] && NoticeOf(s) != []
    requires AllKept(DrainNow(s).h.order)
    ensures OrderInv(DrainNow(s), KEPT, overtaken)
  {
    var d, q, o := s.h.delivered, Select(s.q.msgs, KEPT), s.h.order;
    NoticeIs(s);
    DrainAnnounces(s);
    var n := NoticeOf(s)[0];
    LiveSelect(s.q.msgs, s.now, KEPT);
    HeadTail(Drained(s.q, s.now, s.next), KEPT);
    assert Drained(s.q, s.now, s.next)[1..] == Live(s.q.msgs, s.now);
    SelectAll(s.h.delivered, KEPT);
    SelectAll(s.h.order, KEPT);
    SelectAll(DrainNow(s).h.order, KEPT);
    NoticeLine(d, q, s.broken, o, overtaken, s.next, n);
  }

  lemma DeliverOrder(s: State, kinds: set<Kind>, overtaken: bool)
    requires OrderInv(s, kinds, overtaken) && Followed(kinds)
    requires s.batch != [] && s.batch[0].kind != Input && !s.broken
    ensures OrderInv(Deliver(s), kinds, overtaken)
  {
    var e := s.batch[0];
    HeadTail(s.batch, kinds);
    SelectSnoc(s.h.delivered, e, kinds);
    DeliveredKept(s.h.delivered, e);
    if e.kind in kinds {
      DeliverLine(Select(s.h.delivered, kinds), Select(s.batch[1..], kinds), Select(s.q.msgs, kinds),
                  Select(s.h.order, kinds), overtaken, s.next, e);
    }
  }

  lemma DeliveredKept(delivered: seq<Entry>, e: Entry)
    requires AllKept(delivered) && e.kind != Input
    ensures AllKept(delivered + [e])
  {
  }

  lemma RequeueOrder(s: State, kinds: set<Kind>, overtaken: bool)
    requires OrderInv(s, kinds, overtaken) && Followed(kinds)
    requires s.batch != [] && s.batch[0].kind != Input
    ensures OrderInv(Requeue(s), kinds,
                     overtaken || (!s.broken && Select(s.q.msgs, kinds) != [] && Select(s.batch, kinds) != []))
  {
    var e, b, q := s.batch[0], Select(s.batch, kinds), Select(s.q.msgs, kinds);
    HeadTail(s.batch, kinds);
    EnqueueSelect(s.q, e, kinds);
    BreakLine(Select(s.h.delivered, kinds), b, q, s.broken, Select(s.h.order, kinds), overtaken, s.next);
    if e.kind in kinds {
      RequeueLine(Select(s.h.delivered, kinds), Select(s.batch[1..], kinds), q, Select(s.h.order, kinds),
                  overtaken || (!s.broken && q != [] && b != []), s.next, e);
    }
  }

  lemma InputOrder(s: State, messageID: string, content: string, kinds: set<Kind>, overtaken: bool)
    requires OrderInv(s, kinds, overtaken) && Followed(kinds)
    ensures OrderInv(Apply(s, QueuesInput(messageID, content), true), kinds, overtaken)
  {
    if s.running > 0 {
      var e := Entry(Input, messageID, Text(content), s.now, s.next);
      FollowedKinds(kinds);
      EnqueueSelect(s.q, e, kinds);
      LineLater(Select(s.h.delivered, kinds), Select(s.batch, kinds), Select(s.q.msgs, kinds), s.broken,
                Select(s.h.order, kinds), overtaken, s.next);
      assert Apply(s, QueuesInput(messageID, content), true).q == Enqueue(s.q, e);
    }
  }

  lemma ReleaseOrder(s: State, kinds: set<Kind>, overtaken: bool)
    requires OrderInv(s, kinds, overtaken) && Followed(kinds)
    ensures OrderInv(Apply(s, Releases, true), kinds, overtaken)
  {
    FollowedKinds(kinds);
    if s.handing { HeadTail(s.batch, kinds); }
  }

  lemma WriteOrder(s: State, ok: bool, kinds: set<Kind>, overtaken: bool)
    requires OrderInv(s, kinds, overtaken) && Followed(kinds)
    ensures OrderInv(Apply(s, Writes(ok), true), kinds, overtaken || Overtakes(s, Writes(ok), kinds))
  {
    if s.batch != [] && s.batch[0].kind != Input {
      if ok && !s.broken {
        DeliverOrder(s, kinds, overtaken);
      } else {
        RequeueOrder(s, kinds, overtaken);
      }
    }
  }

  // The steps that leave the line alone.
  lemma OtherOrder(s: State, step: Step, kinds: set<Kind>, overtaken: bool)
    requires OrderInv(s, kinds, overtaken)
    requires step.Receives? || step.TurnEnds? || step.Hands? || step.Wait?
    ensures OrderInv(Apply(s, step, true), kinds, overtaken)
  {
  }

  lemma ReconnectOrder(s: State, kinds: set<Kind>, overtaken: bool)
    requires OrderInv(s, kinds, overtaken) && Followed(kinds)
    ensures OrderInv(Apply(s, Reconnects, true), kinds, overtaken)
  {
    if s.batch == [] { DrainOrder(s, DrainNow(s), kinds, overtaken); }
  }

  lemma StepKeepsOrder(s: State, step: Step, kinds: set<Kind>, overtaken: bool)
    requires OrderInv(s, kinds, overtaken) && Followed(kinds)
    ensures OrderInv(Apply(s, step, true), kinds, overtaken || Overtakes(s, step, kinds))
  {
    if step.QueuesInput? {
      InputOrder(s, step.messageID, step.content, kinds, overtaken);
    } else if step.QueuesReply? || step.QueuesEdge? {
      PushedOrder(s, step, kinds, overtaken);
    } else if step.Reconnects? {
      ReconnectOrder(s, kinds, overtaken);
    } else if step.Writes? {
      WriteOrder(s, step.ok, kinds, overtaken);
    } else if step.Releases? {
      ReleaseOrder(s, kinds, overtaken);
    } else {
      OtherOrder(s, step, kinds, overtaken);
    }
  }

  lemma {:induction false} RunKeepsOrder(s: State, steps: seq<Step>, kinds: set<Kind>, overtaken: bool)
    requires OrderInv(s, kinds, overtaken) && Followed(kinds)
    ensures OrderInv(RunFrom(s, steps, true), kinds, overtaken || Overtaken(s, steps, kinds))
    decreases |steps|
  {
    if steps != [] {
      StepKeepsOrder(s, steps[0], kinds, overtaken);
      RunKeepsOrder(Apply(s, steps[0], true), steps[1..], kinds, overtaken || Overtakes(s, steps[0], kinds));
    }
  }

  lemma InitialOrder(s: State, kinds: set<Kind>)
    requires Initial(s)
    ensures OrderInv(s, kinds, false)
  {
    assert Select([], kinds) == [];
  }

  // ---------------------------------------------------------------- main results

  /** Over every run with lasting write failures, entries that must not be lost reach the hub, or
      wait to, in the order in which they were queued, each notice in front of everything that
      was not delivered when it was made, exactly when none was queued behind the back of a
      replay that lost its connection; and so do the replies and edges among them. */
  lemma InOrderExactlyUnlessOvertaken(start: State, steps: seq<Step>, kinds: set<Kind>)
    requires Initial(start) && Followed(kinds)
    ensures var s := RunFrom(start, steps, true);
      var line := Line(Select(s.h.delivered, kinds), Select(s.batch, kinds), Select(s.q.msgs, kinds), s.broken);
      line == Select(s.h.order, kinds) <==> !Overtaken(start, steps, kinds)
  {
    InitialOrder(start, kinds);
    RunKeepsOrder(start, steps, kinds, false);
  }

  /** Then what has been delivered is the beginning of that order. */
  lemma DeliveredInOrder(start: State, steps: seq<Step>)
    requires Initial(start) && !Overtaken(start, steps, KEPT)
    ensures var h := RunFrom(start, steps, true).h; h.delivered <= h.order
  {
    InitialOrder(start, KEPT);
    RunKeepsOrder(start, steps, KEPT, false);
    var s := RunFrom(start, steps, true);
    SelectAll(s.h.delivered, KEPT);
    SelectAll(s.h.order, KEPT);
  }

  predicate Increasing(es: seq<Entry>) {
    forall i, j | 0 <= i < j < |es| :: es[i].serial < es[j].serial
  }

  // Replies and edges should be delivered as they were queued.
  predicate OrderIncreases(s: State) {
    Increasing(Ordered(s.h.order)) && Below(Ordered(s.h.order), s.next)
  }

  lemma IncreasingSnoc(o: seq<Entry>, e: Entry)
    requires Increasing(Ordered(o)) && Below(Ordered(o), e.serial)
    ensures Increasing(Ordered(o + [e])) && Below(Ordered(o + [e]), e.serial + 1)
  {
    SelectSnoc(o, e, SEQUENCED);
    var before := Ordered(o);
    assert forall i | 0 <= i < |before| :: before[i] in before;
  }

  lemma OrderLeft(s: State, step: Step)
    requires !step.QueuesReply? && !step.QueuesEdge? && !step.Reconnects?
    ensures Apply(s, step, true).h.order == s.h.order && s.next <= Apply(s, step, true).next
  {
  }

  lemma StepKeepsIncreasing(s: State, step: Step)
    requires OrderIncreases(s)
    ensures OrderIncreases(Apply(s, step, true))
  {
    if step.QueuesReply? {
      IncreasingSnoc(s.h.order, Entry(Reply, "", Text(step.content), s.now, s.next));
    } else if step.QueuesEdge? {
      IncreasingSnoc(s.h.order, Entry(Control, "", Edge(step.payload), s.now, s.next));
    } else if step.Reconnects? {
      OrderWithout(s, SEQUENCED);
    } else {
      OrderLeft(s, step);
    }
  }

  lemma {:induction false} RunKeepsIncreasing(s: State, steps: seq<Step>)
    requires OrderIncreases(s)
    ensures OrderIncreases(RunFrom(s, steps, true))
    decreases |steps|
  {
    if steps != [] {
      StepKeepsIncreasing(s, steps[0]);
      RunKeepsIncreasing(Apply(s, steps[0], true), steps[1..]);
    }
  }

  // In an increasing line an entry older than a delivered one has been delivered before it.
  lemma OlderIsDelivered(d: seq<Entry>, rest: seq<Entry>, i: nat, e: Entry)
    requires Increasing(d + rest) && i < |d| && (e in d || e in rest) && e.serial < d[i].serial
    ensures e in d[..i]
  {
    var line := d + rest;
    assert e in line;
    var j :| 0 <= j < |line| && line[j] == e;
    assert line[i] == d[i];
    assert j < i;
    assert d[..i][j] == e;
  }

  /** Then, if a reply has been delivered, every older edge has been delivered before it. */
  lemma EdgeStaysAhead(start: State, steps: seq<Step>, i: nat, edge: Entry)
    requires Initial(start) && !Overtaken(start, steps, SEQUENCED)
    requires var s := RunFrom(start, steps, true);
      && i < |Ordered(s.h.delivered)| && edge.serial < Ordered(s.h.delivered)[i].serial
      && (edge in Ordered(s.h.delivered) || edge in Ordered(s.batch) || edge in Ordered(s.q.msgs))
    ensures edge in Ordered(RunFrom(start, steps, true).h.delivered)[..i]
  {
    var s := RunFrom(start, steps, true);
    InOrderExactlyUnlessOvertaken(start, steps, SEQUENCED);
    assert Ordered([]) == [];
    RunKeepsIncreasing(start, steps);
    var d, b, q := Ordered(s.h.delivered), Ordered(s.batch), Ordered(s.q.msgs);
    OlderIsDelivered(d, if s.broken then q + b else b + q, i, edge);
  }

  // No reply or edge is queued while a replay is going on.
  predicate Undisturbed(s: State, steps: seq<Step>)
    decreases |steps|
  {
    steps == [] ||
    ((steps[0].QueuesReply? || steps[0].QueuesEdge? ==> s.batch == [])
     && Undisturbed(Apply(s, steps[0], true), steps[1..]))
  }

  predicate Calm(s: State) {
    s.batch != [] && !s.broken ==> NonInputs(s.q.msgs) == []
  }

  lemma CalmStep(s: State, step: Step)
    requires Calm(s) && (step.QueuesReply? || step.QueuesEdge? ==> s.batch == [])
    ensures Calm(Apply(s, step, true)) && !Overtakes(s, step, KEPT)
  {
    if step.QueuesInput? {
      EnqueueSelect(s.q, Entry(Input, step.messageID, Text(step.content), s.now, s.next), KEPT);
    }
    assert NonInputs([]) == [];
  }

  lemma {:induction false} UndisturbedNotOvertaken(s: State, steps: seq<Step>)
    requires Calm(s) && Undisturbed(s, steps)
    ensures !Overtaken(s, steps, KEPT)
    decreases |steps|
  {
    if steps != [] {
      CalmStep(s, steps[0]);
      UndisturbedNotOvertaken(Apply(s, steps[0], true), steps[1..]);
    }
  }

  /** When no reply or edge is queued during a replay, the order is always kept. */
  lemma UndisturbedKeepsOrder(start: State, steps: seq<Step>)
    requires Initial(start) && Undisturbed(start, steps)
    ensures var s := RunFrom(start, steps, true);
      Line(s.h.delivered, NonInputs(s.batch), NonInputs(s.q.msgs), s.broken) == s.h.order
  {
    InitialOrder(start, KEPT);
    RunKeepsOrder(start, steps, KEPT, false);
    UndisturbedNotOvertaken(start, steps);
    SelectAll(RunFrom(start, steps, true).h.delivered, KEPT);
    SelectAll(RunFrom(start, steps, true).h.order, KEPT);
  }

  // ---------------------------------------------------------------- an edge behind its reply

  lemma {:induction false} NothingExpires(msgs: seq<Entry>, now: int)
    requires forall i | 0 <= i < |msgs| :: msgs[i].kind != Input
    ensures Live(msgs, now) == msgs && Stale(msgs, now) == []
    decreases |msgs|
  {
    if msgs != [] { NothingExpires(msgs[..|msgs| - 1], now); }
  }

  // A reconnect takes up a queue of replies and edges as it is.
  lemma TakesUp(s: State)
    requires s.batch == [] && s.q.dropped == 0
    requires forall i | 0 <= i < |s.q.msgs| :: s.q.msgs[i].kind != Input
    ensures var after := Apply(s, Reconnects, true);
      after.batch == s.q.msgs && after.q == EMPTY && after.h.delivered == s.h.delivered
      && !after.broken && after.now == s.now && after.next == s.next + 1
  {
    NothingExpires(s.q.msgs, s.now);
  }

  lemma RequeuedBehind(s: State, edge: Entry, reply: Entry)
    requires s.batch == [edge] && !s.broken && s.q == Queue([reply], 0, [])
    requires edge.kind == Control && reply.kind == Reply
    ensures var after := Apply(s, Writes(false), true);
      after.q == Queue([reply, edge], 0, []) && after.batch == [] && after.h.delivered == s.h.delivered
    ensures Overtakes(s, Writes(false), SEQUENCED)
  {
    SelectAll([reply], SEQUENCED);
    SelectAll([edge], SEQUENCED);
  }

  function EdgeOf(s: State, payload: string): Entry {
    Entry(Control, "", Edge(payload), s.now, s.next)
  }

  // The drain in between has taken a serial.
  function ReplyOf(s: State): Entry {
    Entry(Reply, "", Text(""), s.now, s.next + 2)
  }

  // The edge is in a replay when its turn queues the reply, and the replay loses the connection.
  function LostReplay(payload: string): seq<Step> {
    [QueuesEdge(payload), Reconnects, QueuesReply(""), Writes(false)]
  }

  lemma RunCons(s: State, a: Step, rest: seq<Step>)
    ensures RunFrom(s, [a] + rest, true) == RunFrom(Apply(s, a, true), rest, true)
    ensures Overtaken(s, [a] + rest, SEQUENCED) <==>
      Overtakes(s, a, SEQUENCED) || Overtaken(Apply(s, a, true), rest, SEQUENCED)
  {
    assert ([a] + rest)[1..] == rest;
  }

  lemma RunFour(s: State, a: Step, b: Step, c: Step, d: Step)
    ensures var s3 := Apply(Apply(Apply(s, a, true), b, true), c, true);
      && RunFrom(s, [a] + ([b] + ([c] + ([d] + []))), true) == Apply(s3, d, true)
      && (Overtakes(s3, d, SEQUENCED) ==> Overtaken(s, [a] + ([b] + ([c] + ([d] + []))), SEQUENCED))
  {
    var s1 := Apply(s, a, true);
    var s2 := Apply(s1, b, true);
    RunCons(s, a, [b] + ([c] + ([d] + [])));
    RunCons(s1, b, [c] + ([d] + []));
    RunCons(s2, c, [d] + []);
    RunCons(Apply(s2, c, true), d, []);
  }

  function Interleaved(s: State, payload: string): State {
    Apply(Apply(Apply(s, QueuesEdge(payload), true), Reconnects, true), QueuesReply(""), true)
  }

  lemma LostReplayRuns(s: State, payload: string)
    ensures RunFrom(s, LostReplay(payload), true) == Apply(Interleaved(s, payload), Writes(false), true)
    ensures Overtakes(Interleaved(s, payload), Writes(false), SEQUENCED) ==>
              Overtaken(s, LostReplay(payload), SEQUENCED)
  {
    RunFour(s, QueuesEdge(payload), Reconnects, QueuesReply(""), Writes(false));
    assert LostReplay(payload) == [QueuesEdge(payload)] + ([Reconnects] + ([QueuesReply("")] + ([Writes(false)] + [])));
  }

  lemma InterleavedIs(s: State, payload: string)
    requires Initial(s)
    ensures var after := Interleaved(s, payload);
      after.q == Queue([ReplyOf(s)], 0, []) && after.batch == [EdgeOf(s, payload)]
      && !after.broken && after.h.delivered == []
  {
    EdgeTaken(s, payload);
    PushOntoEmpty(Apply(Apply(s, QueuesEdge(payload), true), Reconnects, true), ReplyOf(s));
  }

  lemma EdgeTaken(s: State, payload: string)
    requires Initial(s)
    ensures var after := Apply(Apply(s, QueuesEdge(payload), true), Reconnects, true);
      && after.q == EMPTY && after.batch == [EdgeOf(s, payload)] && !after.broken && after.h.delivered == []
      && after.now == s.now && after.next == s.next + 2
  {
    PushOntoEmpty(s, EdgeOf(s, payload));
    TakesUp(PushKept(s, EdgeOf(s, payload)));
  }

  lemma PushOntoEmpty(s: State, e: Entry)
    requires s.q == EMPTY
    ensures var after := PushKept(s, e);
      && after.q == Queue([e], 0, []) && after.batch == s.batch && after.broken == s.broken
      && after.h.delivered == s.h.delivered && after.now == s.now && after.next == s.next + 1
  {
  }

  lemma LostReplaySwaps(s: State, payload: string)
    requires Initial(s)
    ensures var after := RunFrom(s, LostReplay(payload), true);
      after.q == Queue([ReplyOf(s), EdgeOf(s, payload)], 0, []) && after.batch == [] && after.h.delivered == []
    ensures Overtaken(s, LostReplay(payload), SEQUENCED)
  {
    LostReplayRuns(s, payload);
    InterleavedIs(s, payload);
    RequeuedBehind(Interleaved(s, payload), EdgeOf(s, payload), ReplyOf(s));
  }

  /** Otherwise a recovery edge can end up behind its own reply: after such a replay the next one
      delivers the reply while the edge still waits. */
  lemma EdgeCanFallBehind(s: State, payload: string)
    requires Initial(s)
    ensures Overtaken(s, LostReplay(payload), SEQUENCED)
    ensures var after := Apply(Apply(RunFrom(s, LostReplay(payload), true), Reconnects, true), Writes(true), true);
      after.h.delivered == [ReplyOf(s)] && after.batch == [EdgeOf(s, payload)]
  {
    LostReplaySwaps(s, payload);
    TakesUp(RunFrom(s, LostReplay(payload), true));
    DeliversFirst(Apply(RunFrom(s, LostReplay(payload), true), Reconnects, true));
  }

  lemma DeliversFirst(s: State)
    requires s.batch != [] && s.batch[0].kind != Input && !s.broken
    ensures var after := Apply(s, Writes(true), true);
      after.h.delivered == s.h.delivered + [s.batch[0]] && after.batch == s.batch[1..]
  {
  }
}
