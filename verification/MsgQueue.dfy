/**
  The bridge's queue of entries that could not be written to the hub: unprocessed user inputs,
  which expire and may be evicted, and completed replies, notices and recovery edges, which
  must not be lost.
*/
module MsgQueue {
  import opened Wrappers

  const QUEUE_MAX := 256
  const TTL_MS := 10 * 60 * 1000
  const PREVIEWS_MAX := 10
  const PREVIEW_LENGTH := 60

  datatype Kind = Input | Reply | Notice | Control

  datatype Body = Text(text: string) | Edge(payload: string) | Drops(count: nat, previews: seq<string>)

  // The serial names one push or notice, so that the proofs can follow an entry; the queue never
  // reads it.
  datatype Entry = Entry(kind: Kind, messageID: string, body: Body, queuedAt: int, serial: nat)

  datatype Queue = Queue(msgs: seq<Entry>, dropped: nat, previews: seq<string>)

  // Previews belong to counted drops, and there are at most ten.
  predicate PreviewsOk(q: Queue) {
    |q.previews| == if q.dropped <= PREVIEWS_MAX then q.dropped else PREVIEWS_MAX
  }

  const EMPTY := Queue([], 0, [])

  // ---------------------------------------------------------------- what the queue does, on values

  // The entries of some kinds, in their order.
  function Select(msgs: seq<Entry>, kinds: set<Kind>): seq<Entry> {
    if msgs == [] then []
    else
      var front, last := Select(msgs[..|msgs| - 1], kinds), msgs[|msgs| - 1];
      if last.kind in kinds then front + [last] else front
  }

  function Inputs(msgs: seq<Entry>): seq<Entry> {
    Select(msgs, {Input})
  }

  function FirstInput(msgs: seq<Entry>): (at: nat)
    ensures at <= |msgs|
    ensures at < |msgs| ==> msgs[at].kind == Input
    ensures forall i | 0 <= i < at :: msgs[i].kind != Input
  {
    if msgs == [] || msgs[0].kind == Input then 0 else 1 + FirstInput(msgs[1..])
  }

  function Preview(e: Entry): string {
    if !e.body.Text? then "" else if |e.body.text| <= PREVIEW_LENGTH then e.body.text else e.body.text[..PREVIEW_LENGTH]
  }

  function RecordDrop(q: Queue, e: Entry): Queue {
    q.(dropped := q.dropped + 1,
       previews := if |q.previews| < PREVIEWS_MAX then q.previews + [Preview(e)] else q.previews)
  }

  predicate Evicts(q: Queue) {
    |q.msgs| >= QUEUE_MAX && FirstInput(q.msgs) < |q.msgs|
  }

  function Evict(q: Queue): Queue {
    if Evicts(q) then
      var at := FirstInput(q.msgs);
      RecordDrop(q, q.msgs[at]).(msgs := Without(q.msgs, at))
    else q
  }

  function Enqueue(q: Queue, e: Entry): Queue {
    Evict(q).(msgs := Evict(q).msgs + [e])
  }

  predicate Expired(e: Entry, now: int) {
    e.kind == Input && now - e.queuedAt >= TTL_MS
  }

  function Live(msgs: seq<Entry>, now: int): seq<Entry> {
    if msgs == [] then []
    else
      var front, last := Live(msgs[..|msgs| - 1], now), msgs[|msgs| - 1];
      if Expired(last, now) then front else front + [last]
  }

  function Stale(msgs: seq<Entry>, now: int): seq<Entry> {
    if msgs == [] then []
    else
      var front, last := Stale(msgs[..|msgs| - 1], now), msgs[|msgs| - 1];
      if Expired(last, now) then front + [last] else front
  }

  function RecordDrops(q: Queue, drops: seq<Entry>): (r: Queue)
    ensures r.dropped == q.dropped + |drops| && r.msgs == q.msgs
  {
    if drops == [] then q else RecordDrop(RecordDrops(q, drops[..|drops| - 1]), drops[|drops| - 1])
  }

  function DropNotice(q: Queue, now: int, serial: nat): Entry {
    Entry(Notice, "", Drops(q.dropped, q.previews), now, serial)
  }

  // Everything deliverable, behind a notice about the inputs that were lost.
  function Drained(q: Queue, now: int, serial: nat): seq<Entry> {
    var after := RecordDrops(q, Stale(q.msgs, now));
    if after.dropped > 0 then [DropNotice(after, now, serial)] + Live(q.msgs, now) else Live(q.msgs, now)
  }

  // ---------------------------------------------------------------- the object

  class MessageQueue {
    var activeTurns: int
    var msgs: seq<Entry>
    var dropped: nat
    var droppedPreviews: seq<string>

    constructor ()
      ensures Valid() && View() == EMPTY && activeTurns == 0
    {
      activeTurns, msgs, dropped, droppedPreviews := 0, [], 0, [];
    }

    function View(): Queue
      reads this
    {
      Queue(msgs, dropped, droppedPreviews)
    }

    predicate Valid()
      reads this
    {
      PreviewsOk(View())
    }

    method RecordDropLocked(e: Entry)
      requires Valid()
      modifies `dropped, `droppedPreviews
      ensures Valid()
      ensures View() == RecordDrop(old(View()), e)
    {
      dropped := dropped + 1;
      if |droppedPreviews| < PREVIEWS_MAX {
        droppedPreviews := droppedPreviews + [Preview(e)];
      }
    }

    method EnqueueLocked(m: Entry)
      requires Valid()
      modifies this
      ensures Valid()
      ensures View() == Enqueue(old(View()), m)
      ensures activeTurns == old(activeTurns) - (if Evicts(old(View())) then 1 else 0)
    {
      if |msgs| >= QUEUE_MAX {
        var i := 0;
        while i < |msgs| && msgs[i].kind != Input
          invariant 0 <= i <= |msgs|
          invariant forall k | 0 <= k < i :: msgs[k].kind != Input
        {
          i := i + 1;
        }
        if i < |msgs| {
          FirstInputIs(msgs, i);
          RecordDropLocked(msgs[i]);
          activeTurns := activeTurns - 1;
          msgs := msgs[..i] + msgs[i + 1..];
        }
      }
      msgs := msgs + [m];
    }

    method PushInput(messageID: string, content: string, now: int, serial: nat)
      requires Valid()
      modifies this
      ensures Valid()
      ensures View() == Enqueue(old(View()), Entry(Input, messageID, Text(content), now, serial))
      ensures activeTurns == old(activeTurns) + 1 - (if Evicts(old(View())) then 1 else 0)
    {
      activeTurns := activeTurns + 1;
      EnqueueLocked(Entry(Input, messageID, Text(content), now, serial));
    }

    method PushReply(content: string, now: int, serial: nat)
      requires Valid()
      modifies this
      ensures Valid()
      ensures View() == Enqueue(old(View()), Entry(Reply, "", Text(content), now, serial))
      ensures activeTurns == old(activeTurns) - (if Evicts(old(View())) then 1 else 0)
    {
      EnqueueLocked(Entry(Reply, "", Text(content), now, serial));
    }

    method PushControl(edge: string, now: int, serial: nat)
      requires Valid()
      modifies this
      ensures Valid()
      ensures View() == Enqueue(old(View()), Entry(Control, "", Edge(edge), now, serial))
      ensures activeTurns == old(activeTurns) - (if Evicts(old(View())) then 1 else 0)
    {
      EnqueueLocked(Entry(Control, "", Edge(edge), now, serial));
    }

    method Drain(now: int, serial: nat) returns (out: seq<Entry>)
      requires Valid()
      modifies this
      ensures Valid()
      ensures View() == EMPTY && out == Drained(old(View()), now, serial)
      ensures activeTurns == old(activeTurns) - |Stale(old(msgs), now)|
    {
      out := [];
      for i := 0 to |msgs|
        invariant msgs == old(msgs) && out == Live(msgs[..i], now)
        invariant View() == RecordDrops(old(View()), Stale(msgs[..i], now))
        invariant activeTurns == old(activeTurns) - |Stale(msgs[..i], now)|
        invariant Valid()
      {
        DrainStep(old(View()), msgs, i, now);
        if msgs[i].kind == Input && now - msgs[i].queuedAt >= TTL_MS {
          RecordDropLocked(msgs[i]);
          activeTurns := activeTurns - 1;
          continue;
        }
        out := out + [msgs[i]];
      }
      assert msgs[..|msgs|] == msgs;
      msgs := [];
      if dropped > 0 {
        out := [Entry(Notice, "", Drops(dropped, droppedPreviews), now, serial)] + out;
        dropped, droppedPreviews := 0, [];
      }
    }

    // The replay of one connection with nothing else going on: writes says which positions of
    // the batch can be written.  A turn is counted when it starts and released when handed over.
    method ReplayQueued(now: int, serial: nat, writes: nat -> bool)
      returns (delivered: seq<Entry>, handed: seq<Entry>)
      requires Valid()
      modifies this
      ensures Valid()
      ensures var batch := Drained(old(View()), now, serial);
        && View() == Queue(Undelivered(batch, writes), 0, [])
        && delivered == Written(batch, writes) && handed == Inputs(batch)
      ensures activeTurns == old(activeTurns) - |Stale(old(msgs), now)|
    {
      var batch := Drain(now, serial);
      delivered, handed := [], [];
      for i := 0 to |batch|
        invariant View() == Queue(Undelivered(batch[..i], writes), 0, [])
        invariant delivered == Written(batch[..i], writes) && handed == Inputs(batch[..i])
        invariant activeTurns == old(activeTurns) - |Stale(old(msgs), now)|
      {
        assert batch[..i + 1][..i] == batch[..i];
        if batch[i].kind == Input {
          handed := handed + [batch[i]];
          HandOver();
        } else if writes(i) {
          delivered := delivered + [batch[i]];
        } else {
          UndeliveredHasNoInput(batch[..i], writes);
          EnqueueLocked(batch[i]);
        }
      }
      assert batch[..|batch|] == batch;
    }

    // The turn counts itself before the replay releases the input it was drained for.
    method HandOver()
      modifies `activeTurns
      ensures activeTurns == old(activeTurns)
    {
      activeTurns := activeTurns + 1;
      activeTurns := activeTurns - 1;
    }
  }

  lemma DrainStep(q: Queue, msgs: seq<Entry>, i: nat, now: int)
    requires i < |msgs|
    ensures Expired(msgs[i], now) ==>
      && Live(msgs[..i + 1], now) == Live(msgs[..i], now) && |Stale(msgs[..i + 1], now)| == |Stale(msgs[..i], now)| + 1
      && RecordDrops(q, Stale(msgs[..i + 1], now)) == RecordDrop(RecordDrops(q, Stale(msgs[..i], now)), msgs[i])
    ensures !Expired(msgs[i], now) ==>
      && Live(msgs[..i + 1], now) == Live(msgs[..i], now) + [msgs[i]]
      && Stale(msgs[..i + 1], now) == Stale(msgs[..i], now)
  {
    assert msgs[..i + 1][..i] == msgs[..i];
    var stale := Stale(msgs[..i], now);
    assert (stale + [msgs[i]])[..|stale|] == stale;
  }

  // What is left of a batch that could not be written, in its order, and what was written.
  function Undelivered(batch: seq<Entry>, writes: nat -> bool): seq<Entry> {
    if batch == [] then []
    else
      var i := |batch| - 1;
      if batch[i].kind != Input && !writes(i) then Undelivered(batch[..i], writes) + [batch[i]]
      else Undelivered(batch[..i], writes)
  }

  function Written(batch: seq<Entry>, writes: nat -> bool): seq<Entry> {
    if batch == [] then []
    else
      var i := |batch| - 1;
      if batch[i].kind != Input && writes(i) then Written(batch[..i], writes) + [batch[i]]
      else Written(batch[..i], writes)
  }

  lemma {:induction false} FirstInputIs(msgs: seq<Entry>, i: nat)
    requires i < |msgs| && msgs[i].kind == Input && forall k | 0 <= k < i :: msgs[k].kind != Input
    ensures FirstInput(msgs) == i
  {
  }

  lemma {:induction false} UndeliveredHasNoInput(batch: seq<Entry>, writes: nat -> bool)
    ensures forall k | 0 <= k < |Undelivered(batch, writes)| :: Undelivered(batch, writes)[k].kind != Input
    ensures FirstInput(Undelivered(batch, writes)) == |Undelivered(batch, writes)|
    decreases |batch|
  {
    if batch != [] { UndeliveredHasNoInput(batch[..|batch| - 1], writes); }
  }
}
