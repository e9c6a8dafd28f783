/**
  What the outbox says of a message is what has happened to it.
*/
module ControlOutbox {
  import opened ControlStore
  import opened ControlProtocol
  import opened ControlSafety
  import opened Wrappers

  // When it was enqueued and last sent, and the receipt that came back.
  datatype Delivery = Delivery(enqueuedAt: Option<int>, sentAt: Option<int>, receipt: Option<nat>)

  const UNKNOWN := Delivery(None, None, None)

  ghost predicate ReceiptRead(s: State, step: Step, id: MessageId) {
    step.OnConn? && step.conn.SReadReceipt? && step.conn.id == id && AtConn(s, step.t) && s.threads[step.t].cpc.Idle?
  }

  // Read off the run.
  ghost function Told(d: Delivery, s: State, step: Step, id: MessageId): Delivery {
    if id !in s.tables.outbox then
      if id in Apply(s, step).tables.outbox then Delivery(Some(s.now), None, None) else d
    else if d.receipt.Some? then d
    else if step == SMarkSent(id) then d.(sentAt := Some(s.now))
    else if ReceiptRead(s, step, id) then d.(receipt := Some(step.conn.receipt))
    else d
  }

  ghost function DeliveryFrom(d: Delivery, s: State, steps: seq<Step>, id: MessageId): Delivery
    decreases |steps|
  {
    if steps == [] then d else DeliveryFrom(Told(d, s, steps[0], id), Apply(s, steps[0]), steps[1..], id)
  }

  predicate RowSays(t: Tables, id: MessageId, d: Delivery) {
    && (id in t.outbox <==> d.enqueuedAt.Some?)
    && (id !in t.outbox ==> d == UNKNOWN)
    && (id in t.outbox ==>
          var row := t.outbox[id];
          && row.createdAt == d.enqueuedAt.value && row.receipt == d.receipt
          && row.nextAttemptAt == (if d.sentAt.Some? then d.sentAt.value + 5000 else 0)
          && row.status == if d.receipt.Some? then Acknowledged else if d.sentAt.Some? then Sent else Pending)
  }

  lemma ConnSays(s: State, t: ThreadId, step: ConnStep, id: MessageId, d: Delivery)
    requires RowSays(s.tables, id, d)
    ensures RowSays(ApplyConn(s, t, step).tables, id, Told(d, s, OnConn(t, step), id))
  {
  }

  lemma ExecSays(s: State, t: ThreadId, step: ExecStep, id: MessageId, d: Delivery)
    requires RowSays(s.tables, id, d)
    ensures RowSays(ApplyExec(s, t, step).tables, id, Told(d, s, OnExec(t, step), id))
  {
  }

  lemma {:induction false} RunSays(s: State, steps: seq<Step>, id: MessageId, d: Delivery)
    requires RowSays(s.tables, id, d)
    ensures RowSays(RunFrom(s, steps).tables, id, DeliveryFrom(d, s, steps, id))
    decreases |steps|
  {
    if steps != [] {
      match steps[0] {
        case OnConn(t, conn) => ConnSays(s, t, conn, id, d);
        case OnExec(t, exec) => ExecSays(s, t, exec, id, d);
        case _ =>
      }
      RunSays(Apply(s, steps[0]), steps[1..], id, Told(d, s, steps[0], id));
    }
  }

  /** Over every run, crashes included, an outbox row says when its message was enqueued, whether and
      when it was last sent, and the first receipt that a connection read for it; so a message is
      due on the connections of its binding if and only if no receipt has come back and it was never
      sent or not in the last five seconds. */
  lemma OutboxSaysWhatHappened(steps: seq<Step>, id: MessageId)
    ensures var s, d := Run(steps), DeliveryFrom(UNKNOWN, INIT, steps, id);
      && RowSays(s.tables, id, d)
      && (id in s.tables.outbox ==>
            forall b: Binding ::
              id in DueRows(s.tables, b, s.now) <==>
                && s.tables.outbox[id].envelope.binding == b
                && d.receipt.None? && (d.sentAt.None? || d.sentAt.value + 5000 <= s.now))
  {
    RunSays(INIT, steps, id, UNKNOWN);
    ClockRuns(INIT, steps);
  }

  lemma {:induction false} ClockRuns(s: State, steps: seq<Step>)
    ensures s.now <= RunFrom(s, steps).now
    decreases |steps|
  {
    if steps != [] {
      match steps[0] {
        case OnConn(t, conn) => assert ApplyConn(s, t, conn).now == s.now;
        case OnExec(t, exec) => assert ApplyExec(s, t, exec).now == s.now;
        case _ =>
      }
      ClockRuns(Apply(s, steps[0]), steps[1..]);
    }
  }
}
