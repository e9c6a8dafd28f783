/**
  The durable inbox and outbox of the bridge's control connection.

  Every operation is one SQL statement on one table, so it is a function from the two tables
  to the two tables.  The class at the end holds the tables as fields and its methods are
  proved against those functions.
*/
module ControlStore {
  import opened Wrappers

  // Message and task ids are texts; only their equality and, for messages, their order matter.
  type MessageId = nat
  type TaskId = nat

  datatype Binding = Binding(runId: nat, attemptId: nat)

  datatype MessageKind =
    // hub to bridge
    | AgentTaskAssign | AgentTaskCancel | RunSuspend | RunTerminate | RunResume | WorkflowSync
    | ExecRunAssign | DependencyUpdateAssign
    // bridge to hub
    | AgentTaskStarted | AgentTaskHeartbeat | AgentTaskCompleted | AgentTaskFailed
    | ExecRunCompleted | ExecRunFailed | DependencyUpdateCompleted | DependencyUpdateFailed
    | LocalControl

  datatype Envelope = Envelope(messageId: MessageId, kind: MessageKind, binding: Binding, taskId: TaskId)

  datatype IncomingStatus = Accepted | Running | Completed | Failed

  datatype InboxRow = InboxRow(envelope: Envelope, status: IncomingStatus, createdAt: int)

  datatype OutgoingStatus = Pending | Sent | Acknowledged

  datatype OutboxRow = OutboxRow(envelope: Envelope, status: OutgoingStatus, nextAttemptAt: int,
                                 receipt: Option<nat>, createdAt: int)

  datatype Tables = Tables(inbox: map<MessageId, InboxRow>, outbox: map<MessageId, OutboxRow>)

  const RESEND_AFTER_MS := 5000

  const READY_LIMIT := 100

  // ---------------------------------------------------------------- statements

  predicate IsKnown(t: Tables, id: MessageId) {
    id in t.inbox
  }

  function RecordIncoming(t: Tables, e: Envelope, now: int): Tables {
    if IsKnown(t, e.messageId) then t
    else t.(inbox := t.inbox[e.messageId := InboxRow(e, Accepted, now)])
  }

  predicate HasStatus(t: Tables, id: MessageId, status: IncomingStatus) {
    id in t.inbox && t.inbox[id].status == status
  }

  function SetIncomingStatus(t: Tables, id: MessageId, from: IncomingStatus, to: IncomingStatus): Tables {
    if HasStatus(t, id, from) then t.(inbox := t.inbox[id := t.inbox[id].(status := to)]) else t
  }

  function Enqueue(t: Tables, e: Envelope, now: int): Tables {
    if e.messageId in t.outbox then t
    else t.(outbox := t.outbox[e.messageId := OutboxRow(e, Pending, 0, None, now)])
  }

  predicate IsOpen(t: Tables, id: MessageId) {
    id in t.outbox && t.outbox[id].status != Acknowledged
  }

  function MarkSent(t: Tables, id: MessageId, now: int): Tables {
    if IsOpen(t, id) then
      t.(outbox := t.outbox[id := t.outbox[id].(status := Sent, nextAttemptAt := now + RESEND_AFTER_MS)])
    else t
  }

  function Acknowledge(t: Tables, id: MessageId, receipt: nat): Tables {
    if IsOpen(t, id) then
      t.(outbox := t.outbox[id := t.outbox[id].(status := Acknowledged, receipt := Some(receipt))])
    else t
  }

  // ---------------------------------------------------------------- ordered queries

  // ORDER BY created_at, message_id
  predicate Before(created: map<MessageId, int>, a: MessageId, b: MessageId)
    requires a in created && b in created
  {
    created[a] < created[b] || (created[a] == created[b] && a < b)
  }

  predicate Ordered(created: map<MessageId, int>, ids: seq<MessageId>) {
    && (forall i | 0 <= i < |ids| :: ids[i] in created)
    && (forall i, j | 0 <= i < j < |ids| :: Before(created, ids[i], ids[j]))
  }

  predicate IsFirst(created: map<MessageId, int>, first: MessageId) {
    first in created && forall id | id in created && id != first :: Before(created, first, id)
  }

  lemma {:induction false} FirstExists(created: map<MessageId, int>) returns (first: MessageId)
    requires created != map[]
    ensures IsFirst(created, first)
    decreases |created|
  {
    var id :| id in created;
    var rest := created - {id};
    assert forall other | other in created :: other == id || other in rest;
    if rest == map[] {
      first := id;
    } else {
      assert |rest| < |created| by { assert created == rest[id := created[id]]; }
      var next := FirstExists(rest);
      first := if Before(created, id, next) then id else next;
      forall other | other in created && other != first ensures Before(created, first, other) {
        if other != id && other != next { assert Before(rest, next, other); }
      }
    }
  }

  // The id that comes before all others.
  ghost function First(created: map<MessageId, int>): (first: MessageId)
    requires created != map[]
    ensures IsFirst(created, first)
  {
    assert exists first :: IsFirst(created, first) by {
      var first := FirstExists(created);
    }
    var first :| IsFirst(created, first);
    first
  }

  lemma RestIsSmaller(created: map<MessageId, int>, id: MessageId)
    requires id in created
    ensures |created - {id}| < |created|
  {
    assert created == (created - {id})[id := created[id]];
  }

  // All ids in order.
  ghost function Listing(created: map<MessageId, int>): seq<MessageId>
    decreases |created|
  {
    if created == map[] then []
    else
      var first := First(created);
      RestIsSmaller(created, first);
      [first] + Listing(created - {first})
  }

  lemma {:induction false} ListingIsOrdered(created: map<MessageId, int>)
    ensures Ordered(created, Listing(created))
    ensures forall id :: id in Listing(created) <==> id in created
    decreases |created|
  {
    if created != map[] {
      var first := First(created);
      var rest := created - {first};
      RestIsSmaller(created, first);
      ListingIsOrdered(rest);
      var tail := Listing(rest);
      assert forall i | 0 <= i < |tail| :: tail[i] in tail && tail[i] in rest;
      assert Listing(created) == [first] + tail;
    }
  }

  lemma {:induction false} OrderedIsUnique(created: map<MessageId, int>, a: seq<MessageId>, b: seq<MessageId>)
    requires Ordered(created, a) && Ordered(created, b)
    requires forall id :: id in a <==> id in b
    ensures a == b
    decreases |a|
  {
    assert |b| > 0 ==> b[0] in b && b[0] in a;
    if a != [] {
      assert a[0] in a && a[0] in b;
      assert b[0] in b && b[0] in a;
      var i :| 0 <= i < |b| && b[i] == a[0];
      var j :| 0 <= j < |a| && a[j] == b[0];
      assert a[0] == b[0];
      forall id ensures id in a[1..] <==> id in b[1..] {
        if id in a[1..] { assert id in a; var k :| 0 <= k < |b| && b[k] == id; assert k > 0; }
        if id in b[1..] { assert id in b; var k :| 0 <= k < |a| && a[k] == id; assert k > 0; }
      }
      OrderedIsUnique(created, a[1..], b[1..]);
    }
  }

  predicate IsDue(t: Tables, b: Binding, now: int, id: MessageId) {
    IsOpen(t, id) && t.outbox[id].envelope.binding == b && t.outbox[id].nextAttemptAt <= now
  }

  function DueRows(t: Tables, b: Binding, now: int): map<MessageId, int> {
    map id | id in t.outbox && IsDue(t, b, now, id) :: t.outbox[id].createdAt
  }

  function EffectiveLimit(limit: int): nat {
    if limit <= 0 || limit > READY_LIMIT then READY_LIMIT else limit
  }

  ghost function Ready(t: Tables, b: Binding, now: int, limit: int): seq<MessageId> {
    var all := Listing(DueRows(t, b, now));
    if |all| <= EffectiveLimit(limit) then all else all[..EffectiveLimit(limit)]
  }

  /** ready lists due, unacknowledged rows only, in order, as many as there are up to the
      limit, and a due row it leaves out comes after every row it lists. */
  lemma ReadyIsExact(t: Tables, b: Binding, now: int, limit: int)
    ensures var r := Ready(t, b, now, limit); var due := DueRows(t, b, now);
      var most := if 0 < limit <= 100 then limit else 100;
      && Ordered(due, r)
      && (forall id | id in r :: IsDue(t, b, now, id))
      && |r| <= most
      && (|r| < most ==> forall id | IsDue(t, b, now, id) :: id in r)
      && (forall id, i | IsDue(t, b, now, id) && id !in r && 0 <= i < |r| :: Before(due, r[i], id))
  {
    var due := DueRows(t, b, now);
    var all := Listing(due);
    ListingIsOrdered(due);
    var r := Ready(t, b, now, limit);
    assert r <= all;
    forall id | IsDue(t, b, now, id) ensures id in all { assert id in due; }
    forall id, i | IsDue(t, b, now, id) && id !in r && 0 <= i < |r| ensures Before(due, r[i], id) {
      var k :| 0 <= k < |all| && all[k] == id;
      assert forall j | 0 <= j < |r| :: all[j] == r[j] && r[j] in r;
    }
  }

  // ---------------------------------------------------------------- the order of the outbox

  // Messages enqueued one after another, each at its instant.
  function EnqueueAll(t: Tables, messages: seq<(Envelope, int)>): Tables
    decreases |messages|
  {
    if messages == [] then t
    else
      var last := messages[|messages| - 1];
      Enqueue(EnqueueAll(t, messages[..|messages| - 1]), last.0, last.1)
  }

  function Ids(messages: seq<(Envelope, int)>): seq<MessageId> {
    seq(|messages|, i requires 0 <= i < |messages| => messages[i].0.messageId)
  }

  // New messages of one binding, at instants that grow; at the same instant the ids grow.
  predicate InTurn(t: Tables, b: Binding, messages: seq<(Envelope, int)>) {
    && (forall i | 0 <= i < |messages| :: messages[i].0.binding == b && messages[i].0.messageId !in t.outbox)
    && (forall i, j | 0 <= i < j < |messages| ::
          && messages[i].0.messageId != messages[j].0.messageId
          && (messages[i].1 < messages[j].1
              || (messages[i].1 == messages[j].1 && messages[i].0.messageId < messages[j].0.messageId)))
  }

  lemma {:induction false} EnqueuedRows(t: Tables, b: Binding, messages: seq<(Envelope, int)>, id: MessageId)
    requires InTurn(t, b, messages)
    ensures var after := EnqueueAll(t, messages).outbox;
      && (id in after <==> id in t.outbox || id in Ids(messages))
      && (id in t.outbox ==> after[id] == t.outbox[id])
      && (forall i | 0 <= i < |messages| && messages[i].0.messageId == id ::
            id in after && after[id] == OutboxRow(messages[i].0, Pending, 0, None, messages[i].1))
    decreases |messages|
  {
    if messages != [] {
      var front := messages[..|messages| - 1];
      EnqueuedRows(t, b, front, id);
      EnqueuedRows(t, b, front, messages[|messages| - 1].0.messageId);
      assert Ids(messages) == Ids(front) + [messages[|messages| - 1].0.messageId];
    }
  }

  /** Messages enqueued one after another while nothing else of their binding is due are due at
      once and listed in the order they were enqueued, up to the limit. */
  lemma EnqueuedAreListedInOrder(t: Tables, b: Binding, messages: seq<(Envelope, int)>, now: nat, limit: int)
    requires InTurn(t, b, messages) && forall id :: !IsDue(t, b, now, id)
    ensures var r := Ready(EnqueueAll(t, messages), b, now, limit); var ids := Ids(messages);
      r == if |ids| <= EffectiveLimit(limit) then ids else ids[..EffectiveLimit(limit)]
  {
    var after := EnqueueAll(t, messages);
    var ids, due := Ids(messages), DueRows(after, b, now);
    forall id ensures id in due <==> id in ids {
      EnqueuedRows(t, b, messages, id);
      assert !IsDue(t, b, now, id);
    }
    forall i | 0 <= i < |ids| ensures ids[i] in due && due[ids[i]] == messages[i].1 {
      EnqueuedRows(t, b, messages, ids[i]);
      assert ids[i] in ids;
    }
    ListingIsOrdered(due);
    OrderedIsUnique(due, ids, Listing(due));
  }

  function StatusRows(t: Tables, b: Binding, status: IncomingStatus): map<MessageId, int> {
    map id | id in t.inbox && t.inbox[id].envelope.binding == b && t.inbox[id].status == status :: t.inbox[id].createdAt
  }

  ghost function IncomingByStatus(t: Tables, b: Binding, status: IncomingStatus): (ids: seq<MessageId>)
    ensures Ordered(StatusRows(t, b, status), ids)
    ensures forall id :: id in ids <==> id in StatusRows(t, b, status)
  {
    ListingIsOrdered(StatusRows(t, b, status));
    Listing(StatusRows(t, b, status))
  }

  // ---------------------------------------------------------------- what every statement keeps

  function Rank(status: IncomingStatus): nat {
    match status
    case Accepted => 0
    case Running => 1
    case Completed => 2
    case Failed => 2
  }

  // A row that has reached completed or failed never changes its status again.
  predicate StatusForward(from: IncomingStatus, to: IncomingStatus) {
    from == to || Rank(from) < Rank(to)
  }

  /** Later tables extend earlier ones: no row is lost, envelopes never change, an inbox status
      only moves forward, and an acknowledged message stays acknowledged with its receipt. */
  predicate Extends(t: Tables, later: Tables) {
    && (forall id | id in t.inbox ::
          && id in later.inbox
          && later.inbox[id].envelope == t.inbox[id].envelope
          && StatusForward(t.inbox[id].status, later.inbox[id].status))
    && (forall id | id in t.outbox ::
          && id in later.outbox
          && later.outbox[id].envelope == t.outbox[id].envelope
          && (t.outbox[id].status == Acknowledged ==> later.outbox[id] == t.outbox[id]))
  }

  lemma ExtendsTransitive(a: Tables, b: Tables, c: Tables)
    requires Extends(a, b) && Extends(b, c)
    ensures Extends(a, c)
  {
    forall id | id in a.inbox
      ensures id in c.inbox && c.inbox[id].envelope == a.inbox[id].envelope
           && StatusForward(a.inbox[id].status, c.inbox[id].status)
    {
      assert id in b.inbox;
    }
    forall id | id in a.outbox
      ensures id in c.outbox && c.outbox[id].envelope == a.outbox[id].envelope
           && (a.outbox[id].status == Acknowledged ==> c.outbox[id] == a.outbox[id])
    {
      assert id in b.outbox;
    }
  }

  /** An acknowledged message is never listed again, whatever is done to the tables. */
  lemma AcknowledgedIsNeverListed(t: Tables, id: MessageId, receipt: nat, later: Tables, b: Binding,
                                  now: int, limit: int)
    requires id in t.outbox && Extends(Acknowledge(t, id, receipt), later)
    ensures id !in Ready(later, b, now, limit)
  {
    ReadyIsExact(later, b, now, limit);
    assert id in Acknowledge(t, id, receipt).outbox;
  }

  // ---------------------------------------------------------------- the store object

  class BridgeControlStore {
    var inbox: map<MessageId, InboxRow>
    var outbox: map<MessageId, OutboxRow>

    function State(): Tables
      reads this
    {
      Tables(inbox, outbox)
    }

    constructor ()
      ensures State() == Tables(map[], map[])
    {
      inbox, outbox := map[], map[];
    }

    method RecordIncomingRow(e: Envelope, now: int) returns (duplicate: bool)
      modifies this
      ensures State() == RecordIncoming(old(State()), e, now)
      ensures duplicate <==> IsKnown(old(State()), e.messageId)
      ensures Extends(old(State()), State())
    {
      duplicate := e.messageId in inbox;
      if !duplicate {
        inbox := inbox[e.messageId := InboxRow(e, Accepted, now)];
      }
    }

    method SetIncomingStatusRow(id: MessageId, from: IncomingStatus, to: IncomingStatus) returns (changed: bool)
      modifies this
      ensures State() == SetIncomingStatus(old(State()), id, from, to)
      ensures changed <==> HasStatus(old(State()), id, from)
      ensures StatusForward(from, to) ==> Extends(old(State()), State())
    {
      changed := id in inbox && inbox[id].status == from;
      if changed {
        inbox := inbox[id := inbox[id].(status := to)];
      }
    }

    method EnqueueRow(e: Envelope, now: int)
      modifies this
      ensures State() == Enqueue(old(State()), e, now)
      ensures Extends(old(State()), State()) && e.messageId in outbox
    {
      if e.messageId !in outbox {
        outbox := outbox[e.messageId := OutboxRow(e, Pending, 0, None, now)];
      }
    }

    method MarkSentRow(id: MessageId, now: int)
      modifies this
      ensures State() == MarkSent(old(State()), id, now)
      ensures Extends(old(State()), State())
    {
      if id in outbox && outbox[id].status in {Pending, Sent} {
        outbox := outbox[id := outbox[id].(status := Sent, nextAttemptAt := now + RESEND_AFTER_MS)];
      }
    }

    method AcknowledgeRow(id: MessageId, receipt: nat) returns (ok: bool)
      modifies this
      ensures State() == Acknowledge(old(State()), id, receipt)
      ensures ok <==> IsOpen(old(State()), id)
      ensures Extends(old(State()), State())
    {
      ok := id in outbox && outbox[id].status in {Pending, Sent};
      if ok {
        outbox := outbox[id := outbox[id].(status := Acknowledged, receipt := Some(receipt))];
      }
    }
  }
}
