/**
  Which inputs the message queue loses, and what its notices tell of them.
*/
module QueueLosses {
  import opened MsgQueue
  import opened QueueRuns
  import opened Wrappers

  // ---------------------------------------------------------------- which inputs are lost

  // The step puts an entry into the queue: a push, or the requeue of a write that fails.
  predicate Pushes(s: State, step: Step, sticky: bool) {
    match step
    case QueuesInput(_, _) => s.running > 0
    case QueuesReply(_) => true
    case QueuesEdge(_) => true
    case Writes(ok) => s.batch != [] && s.batch[0].kind != Input && (!ok || (sticky && s.broken))
    case _ => false
  }

  predicate NewlyLost(s: State, s': State, e: Entry) {
    s.h.lost <= s'.h.lost && e in s'.h.lost[|s.h.lost|..]
  }

  /** A step loses an input that waits in the queue if and only if either
      it puts an entry into a queue of 256 and this is the oldest of its inputs, or it drains the
      queue for a new connection and the input is ten minutes old.  Nothing else is ever lost. */
  lemma LostExactlyWhen(s: State, step: Step, sticky: bool, e: Entry)
    ensures NewlyLost(s, Apply(s, step, sticky), e) <==>
      exists i | 0 <= i < |s.q.msgs| ::
        && s.q.msgs[i] == e && e.kind == Input
        && ((Pushes(s, step, sticky) && |s.q.msgs| >= 256 && forall k | 0 <= k < i :: s.q.msgs[k].kind != Input)
            || (step.Reconnects? && s.batch == [] && s.now - e.queuedAt >= 10 * 60 * 1000))
  {
    var s' := Apply(s, step, sticky);
    if Pushes(s, step, sticky) {
      assert s'.h.lost == s.h.lost + Evicted(s.q);
      if Evicts(s.q) { assert s.q.msgs[FirstInput(s.q.msgs)].kind == Input; }
    } else if step.Reconnects? && s.batch == [] {
      assert s'.h.lost == s.h.lost + Stale(s.q.msgs, s.now);
      LiveExactly(s.q.msgs, s.now, e);
    } else {
      assert s'.h.lost == s.h.lost;
    }
  }

  // ---------------------------------------------------------------- what the notices tell

  // The beginning of the text of the first ten of them.
  function Shows(lost: seq<Entry>): seq<string> {
    seq(if |lost| < 10 then |lost| else 10, i requires 0 <= i < |lost| => Start(lost[i]))
  }

  function Start(e: Entry): string {
    if e.body.Text? then (if |e.body.text| > 60 then e.body.text[..60] else e.body.text) else ""
  }

  // Each notice tells of the inputs that were lost since the one before it.
  predicate Quotes(kept: seq<Entry>, lost: seq<Entry>)
    decreases |kept|
  {
    kept == [] ||
    (var before, e := kept[..|kept| - 1], kept[|kept| - 1];
     && Quotes(before, lost)
     && (e.kind == Notice && e.body.Drops? ==>
           var from := Reported(before);
           from + e.body.count <= |lost| && e.body.previews == Shows(lost[from..from + e.body.count])))
  }

  predicate LossesQuoted(s: State) {
    && DropsCounted(s)
    && Quotes(s.h.kept, s.h.lost)
    && s.q.previews == Shows(s.h.lost[Reported(s.h.kept)..])
  }

  lemma {:induction false} QuotesMore(kept: seq<Entry>, lost: seq<Entry>, more: seq<Entry>)
    requires Quotes(kept, lost)
    ensures Quotes(kept, lost + more)
    decreases |kept|
  {
    if kept != [] {
      var before, e := kept[..|kept| - 1], kept[|kept| - 1];
      QuotesMore(before, lost, more);
      if e.kind == Notice && e.body.Drops? {
        var from := Reported(before);
        assert (lost + more)[from..from + e.body.count] == lost[from..from + e.body.count];
      }
    }
  }

  lemma QuotesSnoc(kept: seq<Entry>, e: Entry, lost: seq<Entry>)
    requires Quotes(kept, lost) && !(e.kind == Notice && e.body.Drops?)
    ensures Quotes(kept + [e], lost)
  {
    assert (kept + [e])[..|kept|] == kept;
  }

  // A notice that tells of everything that was lost since the one before.
  lemma QuotesNotice(kept: seq<Entry>, e: Entry, lost: seq<Entry>, n: nat)
    requires Quotes(kept, lost) && e.kind == Notice && e.body.Drops? && n == Reported(kept)
    requires n + e.body.count == |lost| && e.body.previews == Shows(lost[n..])
    ensures Quotes(kept + [e], lost) && Reported(kept + [e]) == |lost|
  {
    assert (kept + [e])[..|kept|] == kept;
    assert lost[n..n + e.body.count] == lost[n..];
  }

  lemma ShowsSnoc(lost: seq<Entry>, e: Entry)
    ensures Shows(lost + [e]) == if |lost| < 10 then Shows(lost) + [Start(e)] else Shows(lost)
  {
  }

  lemma {:induction false} DropsShow(q: Queue, lost: seq<Entry>, drops: seq<Entry>)
    requires q.previews == Shows(lost)
    ensures RecordDrops(q, drops).previews == Shows(lost + drops)
    decreases |drops|
  {
    if drops == [] {
      assert lost + drops == lost;
    } else {
      var front, last := drops[..|drops| - 1], drops[|drops| - 1];
      DropsShow(q, lost, front);
      ShowsSnoc(lost + front, last);
      assert (lost + front) + [last] == lost + drops;
    }
  }

  lemma PushQuotes(s: State, e: Entry)
    requires LossesQuoted(s)
    ensures var after := Push(s, e);
      && Quotes(s.h.kept, after.h.lost) && after.q.previews == Shows(after.h.lost[Reported(s.h.kept)..])
      && after.h.kept == s.h.kept
  {
    var n, more := Reported(s.h.kept), Evicted(s.q);
    QuotesMore(s.h.kept, s.h.lost, more);
    assert (s.h.lost + more)[n..] == s.h.lost[n..] + more;
    if Evicts(s.q) {
      ShowsSnoc(s.h.lost[n..], more[0]);
      assert more == [more[0]];
    } else {
      assert s.h.lost[n..] + more == s.h.lost[n..];
    }
  }

  // What a drain adds to the history.
  lemma DrainTells(s: State)
    ensures var after, stale := DrainNow(s), Stale(s.q.msgs, s.now);
      && after.q == EMPTY && after.h.lost == s.h.lost + stale
      && after.h.kept == s.h.kept + (if s.q.dropped + |stale| == 0 then []
                                     else [DropNotice(RecordDrops(s.q, stale), s.now, s.next)])
  {
    DrainedIs(s.q, s.now, s.next);
    var batch := Drained(s.q, s.now, s.next);
    var notice := batch[..|batch| - |Live(s.q.msgs, s.now)|];
    assert notice == if s.q.dropped + |Stale(s.q.msgs, s.now)| == 0 then [] else [batch[0]];
  }

  lemma DrainQuotes(s: State)
    requires LossesQuoted(s) && s.batch == []
    ensures LossesQuoted(DrainNow(s))
  {
    var kept, n, stale := s.h.kept, Reported(s.h.kept), Stale(s.q.msgs, s.now);
    var lost := s.h.lost + stale;
    QuotesMore(kept, s.h.lost, stale);
    DropsShow(s.q, s.h.lost[n..], stale);
    assert lost[n..] == s.h.lost[n..] + stale;
    if s.q.dropped + |stale| > 0 {
      QuotesNotice(kept, DropNotice(RecordDrops(s.q, stale), s.now, s.next), lost, n);
    }
    assert kept + [] == kept;
    DrainTells(s);
    DrainLeavesNone(DrainNow(s));
  }

  lemma DrainLeavesNone(after: State)
    requires after.q == EMPTY && Reported(after.h.kept) == |after.h.lost| && Quotes(after.h.kept, after.h.lost)
    ensures LossesQuoted(after)
  {
    assert after.h.lost[Reported(after.h.kept)..] == [];
  }

  lemma StepQuotes(s: State, step: Step, sticky: bool)
    requires LossesQuoted(s) && DropsCounted(Apply(s, step, sticky))
    ensures LossesQuoted(Apply(s, step, sticky))
  {
    match step
    case QueuesInput(messageID, content) => PushQuotes(s, Entry(Input, messageID, Text(content), s.now, s.next));
    case QueuesReply(content) => KeptQuotes(s, Entry(Reply, "", Text(content), s.now, s.next));
    case QueuesEdge(payload) => KeptQuotes(s, Entry(Control, "", Edge(payload), s.now, s.next));
    case Reconnects => if s.batch == [] { DrainQuotes(s); }
    case Writes(ok) => if s.batch != [] { PushQuotes(s, s.batch[0]); }
    case _ =>
  }

  lemma KeptQuotes(s: State, e: Entry)
    requires LossesQuoted(s) && e.kind != Notice && e.kind != Input
    ensures var after := PushKept(s, e);
      Quotes(after.h.kept, after.h.lost) && after.q.previews == Shows(after.h.lost[Reported(after.h.kept)..])
  {
    PushQuotes(s, e);
    QuotesSnoc(s.h.kept, e, Push(s, e).h.lost);
    ReportedSnoc(s.h.kept, e);
  }

  lemma {:induction false} RunQuotes(s: State, steps: seq<Step>, sticky: bool)
    requires Inv(s, Entry(Input, "", Text(""), 0, 0)) && LossesQuoted(s)
    ensures LossesQuoted(RunFrom(s, steps, sticky))
    decreases |steps|
  {
    if steps != [] {
      StepKeepsInv(s, steps[0], sticky, Entry(Input, "", Text(""), 0, 0));
      StepQuotes(s, steps[0], sticky);
      RunQuotes(Apply(s, steps[0], sticky), steps[1..], sticky);
    }
  }

  /** Every notice quotes, in order, the first ten of the inputs that were lost since the notice
      before it, by the first sixty characters of their text, and counts all of them; the next
      notice will do so for those lost since the last one. */
  lemma NoticesQuoteLosses(s: State, sticky: bool)
    requires Reachable(s, sticky)
    ensures Reported(s.h.kept) <= |s.h.lost| && Quotes(s.h.kept, s.h.lost)
    ensures s.q.previews == Shows(s.h.lost[Reported(s.h.kept)..])
  {
    var start: State, steps: seq<Step> :| Initial(start) && RunFrom(start, steps, sticky) == s;
    InitialInv(start, Entry(Input, "", Text(""), 0, 0));
    RunQuotes(start, steps, sticky);
  }

  // ---------------------------------------------------------------- a replay that nothing disturbs

  // The steps of a replay whose writes succeed or fail as given.
  function ReplaySteps(batch: seq<Entry>, writes: nat -> bool): seq<Step> {
    if batch == [] then []
    else
      var i := |batch| - 1;
      ReplaySteps(batch[..i], writes) + (if batch[i].kind == Input then [Hands, Releases] else [Writes(writes(i))])
  }

  lemma {:induction false} RunAppend(s: State, a: seq<Step>, b: seq<Step>, sticky: bool)
    ensures RunFrom(s, a + b, sticky) == RunFrom(RunFrom(s, a, sticky), b, sticky)
    decreases |a|
  {
    if a == [] {
      assert a + b == b;
    } else {
      assert (a + b)[1..] == a[1..] + b;
      RunAppend(Apply(s, a[0], sticky), a[1..], b, sticky);
    }
  }

  // Where the replay stands after k entries of the batch.
  predicate ReplayedTo(start: State, s: State, batch: seq<Entry>, writes: nat -> bool, k: nat)
    requires k <= |batch|
  {
    && s.batch == batch[k..] && !s.handing
    && s.q == Queue(Undelivered(batch[..k], writes), 0, [])
    && s.h.delivered == start.h.delivered + Written(batch[..k], writes)
    && s.h.handed == start.h.handed + Inputs(batch[..k])
    && s.activeTurns == start.activeTurns - |Inputs(batch[..k])| + (s.running - start.running)
  }

  lemma ReplayNext(start: State, s: State, batch: seq<Entry>, writes: nat -> bool, k: nat)
    requires k < |batch| && ReplayedTo(start, s, batch, writes, k)
    ensures var steps := if batch[k].kind == Input then [Hands, Releases] else [Writes(writes(k))];
      ReplayedTo(start, RunFrom(s, steps, false), batch, writes, k + 1)
  {
    assert batch[..k + 1][..k] == batch[..k] && s.batch[0] == batch[k] && s.batch[1..] == batch[k + 1..];
    if batch[k].kind == Input {
      assert [Hands, Releases][1..] == [Releases] && [Releases][1..] == [];
      assert RunFrom(s, [Hands, Releases], false) == Apply(Apply(s, Hands, false), Releases, false);
    } else {
      assert [Writes(writes(k))][1..] == [];
      UndeliveredHasNoInput(batch[..k], writes);
    }
  }

  lemma {:induction false} ReplayedAll(start: State, batch: seq<Entry>, writes: nat -> bool, k: nat)
    requires k <= |batch| && ReplayedTo(start, start, batch, writes, 0)
    ensures ReplayedTo(start, RunFrom(start, ReplaySteps(batch[..k], writes), false), batch, writes, k)
    decreases k
  {
    if k > 0 {
      ReplayedAll(start, batch, writes, k - 1);
      assert batch[..k][..k - 1] == batch[..k - 1];
      var last := if batch[k - 1].kind == Input then [Hands, Releases] else [Writes(writes(k - 1))];
      ReplayNext(start, RunFrom(start, ReplaySteps(batch[..k - 1], writes), false), batch, writes, k - 1);
      RunAppend(start, ReplaySteps(batch[..k - 1], writes), last, false);
    }
  }

  /** The replay loop does what the goroutines do when nothing comes in between: after a reconnect and
      the steps of its replay the queue holds the entries whose write failed, what was written is
      added to the deliveries and the inputs to those handed over, each in the order of the batch. */
  lemma ReplayIsItsSteps(s: State, writes: nat -> bool)
    requires s.batch == [] && !s.handing
    ensures var batch := Drained(s.q, s.now, s.next);
      var after := RunFrom(s, [Reconnects] + ReplaySteps(batch, writes), false);
      && after.batch == [] && after.q == Queue(Undelivered(batch, writes), 0, [])
      && after.h.delivered == s.h.delivered + Written(batch, writes)
      && after.h.handed == s.h.handed + Inputs(batch)
  {
    var batch, drained := Drained(s.q, s.now, s.next), DrainNow(s);
    assert batch[..0] == [] && batch[0..] == batch && batch[..|batch|] == batch && batch[|batch|..] == [];
    assert drained.h.delivered + [] == drained.h.delivered && drained.h.handed + [] == drained.h.handed;
    ReplayedAll(drained, batch, writes, |batch|);
    assert ([Reconnects] + ReplaySteps(batch, writes))[1..] == ReplaySteps(batch, writes);
  }
}
