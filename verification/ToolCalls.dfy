/**
  Pairing the start and the end of tool calls in the activity stream of one turn.

  Events may carry a call id.  One that does not is matched by its signature: to the earliest
  open call of that signature, or, if there is none, to a new synthesized id.
*/
module ToolCalls {

  const SIGNATURE_LENGTH := 12

  datatype Phase = Start | Terminal | Progress

  // The signature is the shortened hash of what the call does; durationMs is 0 when unknown.
  datatype Activity = Activity(tool: bool, callID: string, phase: Phase, signature: string, durationMs: int)

  datatype Call = Call(startedAt: int, signature: string)

  datatype Calls = Calls(open: map<string, Call>, occurrences: map<string, nat>)

  // ---------------------------------------------------------------- synthesized ids

  function Digit(n: nat): char
    requires n < 10
  {
    ['0', '1', '2', '3', '4', '5', '6', '7', '8', '9'][n]
  }

  function Decimal(n: nat): string {
    if n < 10 then [Digit(n)] else Decimal(n / 10) + [Digit(n % 10)]
  }

  function Synthesized(signature: string, n: nat): string {
    signature + "-" + Decimal(n)
  }

  lemma {:induction false} DecimalInjective(m: nat, n: nat)
    requires Decimal(m) == Decimal(n)
    ensures m == n
    decreases m
  {
    DecimalNonEmpty(m / 10);
    DecimalNonEmpty(n / 10);
    if m >= 10 && n >= 10 {
      assert Decimal(m / 10) == Decimal(m)[..|Decimal(m)| - 1] == Decimal(n / 10);
      assert Digit(m % 10) == Decimal(m)[|Decimal(m)| - 1] == Digit(n % 10);
      DecimalInjective(m / 10, n / 10);
    }
  }

  lemma DecimalNonEmpty(n: nat)
    ensures |Decimal(n)| > 0
  {
  }

  /** An id synthesized for one signature and number is never that of another. */
  lemma SynthesizedInjective(a: string, m: nat, b: string, n: nat)
    requires |a| == |b| && Synthesized(a, m) == Synthesized(b, n)
    ensures a == b && m == n
  {
    assert a == Synthesized(a, m)[..|a|] == Synthesized(b, n)[..|b|] == b;
    assert Decimal(m) == Synthesized(a, m)[|a| + 1..] == Synthesized(b, n)[|b| + 1..] == Decimal(n);
    DecimalInjective(m, n);
  }

  // ---------------------------------------------------------------- one event

  predicate Matches(open: map<string, Call>, id: string, signature: string) {
    id in open && open[id].signature == signature
  }

  // An open call of the signature that started no later than any other.
  predicate Earliest(open: map<string, Call>, id: string, signature: string) {
    && Matches(open, id, signature)
    && (forall other | other in open && open[other].signature == signature ::
          open[id].startedAt <= open[other].startedAt)
  }

  predicate AnyOpen(open: map<string, Call>, signature: string) {
    exists id | id in open :: open[id].signature == signature
  }

  function Occurrences(c: Calls, signature: string): nat {
    if signature in c.occurrences then c.occurrences[signature] else 0
  }

  predicate Synthesizes(c: Calls, a: Activity) {
    a.tool && a.callID == "" && !AnyOpen(c.open, a.signature)
  }

  function Closed(open: map<string, Call>, id: string): map<string, Call> {
    open - {id}
  }

  // An event that has its id opens that call or ends it; anything else leaves the calls alone.
  function WithId(open: map<string, Call>, a: Activity, now: int): (map<string, Call>, Activity) {
    if a.phase.Start? then
      (if a.callID in open then open else open[a.callID := Call(now, a.signature)], a)
    else if a.phase.Terminal? && a.callID in open then
      (Closed(open, a.callID), a.(durationMs := now - open[a.callID].startedAt))
    else (open, a)
  }

  // What one event does, up to the choice between calls that started at the same time.
  predicate Resolves(c: Calls, a: Activity, now: int, after: Calls, r: Activity) {
    if !a.tool then after == c && r == a
    else if a.callID != "" then
      after == Calls(WithId(c.open, a, now).0, c.occurrences) && r == WithId(c.open, a, now).1
    else if AnyOpen(c.open, a.signature) then
      && Earliest(c.open, r.callID, a.signature)
      && after.occurrences == c.occurrences
      && (if a.phase.Terminal?
          then after.open == Closed(c.open, r.callID)
               && r == a.(callID := r.callID, durationMs := now - c.open[r.callID].startedAt)
          else after.open == c.open && r == a.(callID := r.callID))
    else
      var n := Occurrences(c, a.signature) + 1;
      var named := a.(callID := Synthesized(a.signature, n));
      && after == Calls(WithId(c.open, named, now).0, c.occurrences[a.signature := n])
      && r == WithId(c.open, named, now).1
  }

  class InFlightState {
    var inFlightCalls: map<string, Call>
    var callOccurrences: map<string, nat>

    constructor ()
      ensures View() == Calls(map[], map[])
    {
      inFlightCalls, callOccurrences := map[], map[];
    }

    function View(): Calls
      reads this
    {
      Calls(inFlightCalls, callOccurrences)
    }

    // The earliest open call of a signature; the empty id if there is none.
    method FindEarliest(signature: string) returns (found: bool, matchedID: string)
      ensures found <==> AnyOpen(inFlightCalls, signature)
      ensures found ==> Earliest(inFlightCalls, matchedID, signature)
    {
      found, matchedID := false, "";
      var left := inFlightCalls.Keys;
      while left != {}
        invariant left <= inFlightCalls.Keys
        invariant found ==> Matches(inFlightCalls, matchedID, signature)
        invariant forall id | id in inFlightCalls && id !in left && inFlightCalls[id].signature == signature ::
          found && inFlightCalls[matchedID].startedAt <= inFlightCalls[id].startedAt
        decreases |left|
      {
        var id :| id in left;
        left := left - {id};
        var call := inFlightCalls[id];
        if call.signature == signature && (!found || call.startedAt < inFlightCalls[matchedID].startedAt) {
          found, matchedID := true, id;
        }
      }
    }

    method ResolveToolCall(a: Activity, now: int) returns (r: Activity)
      modifies this
      ensures Resolves(old(View()), a, now, View(), r)
    {
      r := a;
      if !a.tool { return; }
      if a.callID == "" {
        var found, matchedID := FindEarliest(a.signature);
        if found {
          r := r.(callID := matchedID);
          if a.phase.Terminal? {
            r := r.(durationMs := now - inFlightCalls[matchedID].startedAt);
            inFlightCalls := inFlightCalls - {matchedID};
          }
          return;
        }
        var n := (if a.signature in callOccurrences then callOccurrences[a.signature] else 0) + 1;
        callOccurrences := callOccurrences[a.signature := n];
        r := r.(callID := Synthesized(a.signature, n));
      }
      if a.phase.Start? {
        if r.callID !in inFlightCalls {
          inFlightCalls := inFlightCalls[r.callID := Call(now, a.signature)];
        }
      } else if a.phase.Terminal? {
        if r.callID in inFlightCalls {
          r := r.(durationMs := now - inFlightCalls[r.callID].startedAt);
          inFlightCalls := inFlightCalls - {r.callID};
        }
      }
    }
  }

  // ---------------------------------------------------------------- runs

  datatype Event = Event(before: Calls, a: Activity, now: int, r: Activity, after: Calls)

  predicate EventOk(e: Event) {
    |e.a.signature| == SIGNATURE_LENGTH && Resolves(e.before, e.a, e.now, e.after, e.r)
  }

  // A turn's events in order, on a clock that does not run backwards.
  predicate Run(events: seq<Event>) {
    && (forall i | 0 <= i < |events| :: EventOk(events[i]))
    && (forall i, j | 0 <= i && j == i + 1 < |events| ::
          events[i].after == events[j].before && events[i].now <= events[j].now)
    && (events != [] ==> events[0].before == Calls(map[], map[]))
  }

  predicate StartedBy(c: Calls, now: int) {
    forall id | id in c.open :: c.open[id].startedAt <= now
  }

  lemma {:induction false} RunStartedBy(events: seq<Event>, i: nat)
    requires Run(events) && i < |events|
    ensures StartedBy(events[i].before, events[i].now) && StartedBy(events[i].after, events[i].now)
    decreases i
  {
    assert EventOk(events[i]);
    if i > 0 { RunStartedBy(events, i - 1); }
  }

  /** Each event closes at most one call, only a terminal event does, and it then reports the time
      since the start of the call it closed, which for an event without an id is the earliest
      open one of its signature.  No call is ever restarted. */
  lemma ClosesAtMostOne(events: seq<Event>, i: nat, id: string)
    requires Run(events) && i < |events|
    requires id in events[i].before.open
    ensures var e := events[i];
      && (id in e.after.open ==> e.after.open[id] == e.before.open[id])
      && (id !in e.after.open ==>
            && e.a.phase.Terminal? && e.r.callID == id
            && e.r.durationMs == e.now - e.before.open[id].startedAt >= 0
            && e.after.open == Closed(e.before.open, id)
            && (e.a.callID == "" && e.before.open[id].signature == e.a.signature ==>
                forall other | other in e.before.open && e.before.open[other].signature == e.a.signature ::
                  e.before.open[id].startedAt <= e.before.open[other].startedAt))
  {
    assert EventOk(events[i]);
    RunStartedBy(events, i);
  }

  lemma {:induction false} OccurrencesGrow(events: seq<Event>, i: nat, j: nat, signature: string)
    requires Run(events) && i < j < |events|
    ensures Occurrences(events[i].after, signature) <= Occurrences(events[j].before, signature)
    decreases j - i
  {
    if i + 1 < j {
      OccurrencesGrow(events, i, j - 1, signature);
      assert EventOk(events[j - 1]);
    }
    assert events[j - 1].after == events[j].before;
  }

  /** Synthesized ids never repeat within a turn, whatever ids the other events carry. */
  lemma SynthesizedIdsNeverRepeat(events: seq<Event>, i: nat, j: nat)
    requires Run(events) && i < j < |events|
    requires Synthesizes(events[i].before, events[i].a) && Synthesizes(events[j].before, events[j].a)
    ensures events[i].r.callID != events[j].r.callID
  {
    var d, e := events[i], events[j];
    assert EventOk(d) && EventOk(e);
    OccurrencesGrow(events, i, j, d.a.signature);
    var m, n := Occurrences(d.before, d.a.signature) + 1, Occurrences(e.before, e.a.signature) + 1;
    if Synthesized(d.a.signature, m) == Synthesized(e.a.signature, n) {
      SynthesizedInjective(d.a.signature, m, e.a.signature, n);
    }
  }

  predicate OneOpen(c: Calls) {
    forall id | id in c.open ::
      |c.open[id].signature| == SIGNATURE_LENGTH
      && id == Synthesized(c.open[id].signature, Occurrences(c, c.open[id].signature))
  }

  lemma OneOpenStep(e: Event)
    requires EventOk(e) && OneOpen(e.before) && (e.a.tool ==> e.a.callID == "")
    ensures OneOpen(e.after)
  {
    if Synthesizes(e.before, e.a) {
      var n := Occurrences(e.before, e.a.signature) + 1;
      forall id | id in e.after.open
        ensures id == Synthesized(e.after.open[id].signature, Occurrences(e.after, e.after.open[id].signature))
        ensures |e.after.open[id].signature| == SIGNATURE_LENGTH
      {
        if id in e.before.open && id == Synthesized(e.a.signature, n) {
          SynthesizedInjective(e.before.open[id].signature, Occurrences(e.before, e.before.open[id].signature),
              e.a.signature, n);
        }
      }
    }
  }

  /** When no event carries an id, at most one call of each signature is open at any time, and it
      is the latest one that was synthesized. */
  lemma {:induction false} AtMostOneOpenWithoutIds(events: seq<Event>, i: nat)
    requires Run(events) && i < |events|
    requires forall k | 0 <= k < |events| :: events[k].a.tool ==> events[k].a.callID == ""
    ensures OneOpen(events[i].after)
    ensures forall id, other | id in events[i].after.open && other in events[i].after.open ::
      events[i].after.open[id].signature == events[i].after.open[other].signature ==> id == other
    decreases i
  {
    if i > 0 {
      AtMostOneOpenWithoutIds(events, i - 1);
      assert events[i - 1].after == events[i].before;
    }
    assert EventOk(events[i]);
    OneOpenStep(events[i]);
  }

  predicate Starts(e: Event, id: string) {
    e.a.tool && e.a.phase.Start? && e.r.callID == id
  }

  predicate Ends(e: Event, id: string) {
    e.a.tool && e.a.phase.Terminal? && e.r.callID == id
  }

  // Event j opened the call that is open after event i.
  predicate OpenSince(events: seq<Event>, i: nat, j: nat, id: string)
    requires j <= i < |events|
  {
    && Starts(events[j], id) && id !in events[j].before.open
    && (forall k | j < k <= i :: !Ends(events[k], id))
    && id in events[i].after.open && events[i].after.open[id] == Call(events[j].now, events[j].a.signature)
  }

  /** A call is open if and only if it was started and has not ended since, counting each event for
      the call it was given or assigned; it then holds the time and the signature of the start
      that opened it.  An event with an id is counted for that id, and one that closes no call is
      passed on as it came but for its id. */
  lemma {:induction false} OpenExactlyWhen(events: seq<Event>, i: nat, id: string)
    requires Run(events) && i < |events|
    ensures id in events[i].after.open <==>
      exists j | 0 <= j <= i :: Starts(events[j], id) && forall k | j < k <= i :: !Ends(events[k], id)
    ensures id in events[i].after.open ==> exists j: nat | j <= i :: OpenSince(events, i, j, id)
    ensures events[i].a.tool && events[i].a.callID != "" ==> events[i].r.callID == events[i].a.callID
    ensures events[i].before.open.Keys <= events[i].after.open.Keys ==>
      events[i].r == events[i].a.(callID := events[i].r.callID)
    decreases i
  {
    var e := events[i];
    assert EventOk(e);
    if i > 0 {
      OpenExactlyWhen(events, i - 1, id);
      assert events[i - 1].after == e.before;
    }
    EventOpens(e, id);
    if !Ends(e, id) && id in e.before.open {
      var j: nat :| j < i && OpenSince(events, i - 1, j, id);
      StillOpen(events, i, j, id);
    } else if Starts(e, id) {
      assert OpenSince(events, i, i, id);
    }
  }

  // A start opens the call it is for, an end closes it, and nothing else does.
  lemma EventOpens(e: Event, id: string)
    requires EventOk(e)
    ensures Ends(e, id) ==> id !in e.after.open
    ensures Starts(e, id) ==> id in e.after.open
    ensures Starts(e, id) && id !in e.before.open ==> e.after.open[id] == Call(e.now, e.a.signature)
    ensures !Ends(e, id) && !Starts(e, id) ==> (id in e.after.open <==> id in e.before.open)
    ensures !Ends(e, id) && id in e.before.open ==> id in e.after.open && e.after.open[id] == e.before.open[id]
  {
  }

  lemma StillOpen(events: seq<Event>, i: nat, j: nat, id: string)
    requires Run(events) && j < i < |events| && !Ends(events[i], id) && OpenSince(events, i - 1, j, id)
    ensures OpenSince(events, i, j, id)
  {
    assert EventOk(events[i]) && events[i - 1].after == events[i].before;
    EventOpens(events[i], id);
  }
}
