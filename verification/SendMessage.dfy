/**
  Sending one hub message to the agent gateway: the retry loop, the recovery after an accepted
  turn, and what the hub is told about the session.

  Error texts are classified by which patterns they match, and patterns may overlap.  The
  environment's answers, one for each sessions.send, are a finite script; a run that uses it up
  is cut off, so statements about all scripts are statements about all prefixes of all runs.
*/
module SendMessage {
  import opened Wrappers

  datatype Match = Match(
    llm: bool,                     // transient model provider failure
    gatewayWrite: bool,            // the request could not be written: connection closed
    lockConflict: bool,
    admission: bool,               // the session did not admit the turn
    overflow: bool,
    format: bool,                  // the provider rejected the transcript
    deadline: bool)

  // How a sessions.send request failed: not written, answered with a rejection, or given up
  // while waiting for the answer, when nobody knows whether it was accepted.
  datatype Cause = NotWritten | Rejected | Unanswered

  datatype SendError =
    | RequestError(cause: Cause, m: Match)
    | TurnError(m: Match)          // after the request was accepted

  datatype Result = Reply | Failed(e: SendError)

  datatype Reconnect = ReconnectFailed | Reconnected(replacedSession: bool) | OtherReconnected

  // One read-only probe: whether its budget is spent, the session key before and after, and
  // whether the session answered.
  datatype Probe = Probe(expired: bool, keyBefore: nat, ok: bool, keyAfter: nat)

  datatype Answer = Answer(
    result: Result,
    turnKey: nat,                  // session key when the message is sent
    cancelled: bool,               // the caller's context ends before the next send
    reconnect: Reconnect,
    keyAtCheck: nat,
    abortOk: bool,
    probes: seq<Probe>,
    freshOk: bool)                 // whether a fresh session can be created

  datatype Reason = LockConflict | TurnTimeout | ProviderError | UnknownReason

  datatype Outcome =
    | Replied
    | Error(e: SendError)
    | Cancelled
    | RecoveryFailed(e: SendError)
    | SessionRotated(reason: Reason, previousKey: nat)
    | SessionPreserved(reason: Reason, key: nat)
    | CutOff

  const LLM_RETRIES := 2
  const LOCK_RETRIES := 4

  // ---------------------------------------------------------------- classification

  predicate RetryableConflict(m: Match) {
    m.lockConflict || m.admission
  }

  predicate LifecycleFailure(e: SendError) {
    e.TurnError? && (e.m.deadline || e.m.format || e.m.lockConflict)
  }

  predicate RecoverableRequest(e: SendError) {
    e.RequestError? && (e.m.overflow || e.m.format)
  }

  // Texts the bridge itself makes for a request that was not answered match no retry pattern,
  // and only a write error matches the write pattern.
  predicate TextOk(e: SendError) {
    e.RequestError? ==>
      && (e.cause == Unanswered ==> !e.m.llm && !RetryableConflict(e.m) && !e.m.overflow && !e.m.format)
      && (e.m.gatewayWrite ==> e.cause == NotWritten)
  }

  // ---------------------------------------------------------------- after an accepted turn

  function ProbeSession(probes: seq<Probe>, key: nat, reason: Reason, tries: nat): Option<Outcome> {
    if tries == 0 || probes == [] || probes[0].expired then None
    else if probes[0].keyBefore != key then Some(SessionRotated(reason, key))
    else if !probes[0].ok then ProbeSession(probes[1..], key, reason, tries - 1)
    else if probes[0].keyAfter != key then Some(SessionRotated(reason, key))
    else Some(SessionPreserved(reason, key))
  }

  function LossReason(m: Match): Reason {
    if m.lockConflict then LockConflict
    else if m.deadline then TurnTimeout
    else if m.format then ProviderError
    else UnknownReason
  }

  // A failed turn that was accepted: its session is probed or replaced, never sent to again.
  function RecoverTurn(a: Answer, e: SendError): Outcome {
    if e.m.lockConflict && a.keyAtCheck != a.turnKey then SessionRotated(LockConflict, a.turnKey)
    else
      var probed :=
        if e.m.lockConflict || (e.m.deadline && a.abortOk) then
          ProbeSession(a.probes, a.turnKey, if e.m.deadline then TurnTimeout else LockConflict, LOCK_RETRIES)
        else None;
      if probed.Some? then probed.value
      else if a.freshOk then SessionRotated(LossReason(e.m), a.turnKey)
      else RecoveryFailed(e)
  }

  // ---------------------------------------------------------------- the loop

  datatype Loop = Loop(attempt: nat, gatewayRetried: bool, lockRetries: nat)

  datatype Verdict = Stop(outcome: Outcome) | Again(loop: Loop) | InFreshSession

  function Decide(l: Loop, a: Answer): Verdict {
    match a.result
    case Reply => Stop(Replied)
    case Failed(e) =>
      if e.RequestError? && e.m.llm && l.attempt < LLM_RETRIES then
        if a.cancelled then Stop(Cancelled) else Again(l.(attempt := l.attempt + 1))
      else if !l.gatewayRetried && e.RequestError? && e.m.gatewayWrite then
        if a.cancelled then Stop(Cancelled)
        else match a.reconnect
          case ReconnectFailed => Stop(RecoveryFailed(e))
          case Reconnected(_) => Again(Loop(l.attempt + 1, true, l.lockRetries))
          case OtherReconnected => Again(l.(attempt := l.attempt + 1))
      else if e.RequestError? && RetryableConflict(e.m) && l.lockRetries < LOCK_RETRIES then
        if a.cancelled then Stop(Cancelled) else Again(Loop(l.attempt + 1, l.gatewayRetried, l.lockRetries + 1))
      else if LifecycleFailure(e) then Stop(RecoverTurn(a, e))
      else if e.RequestError? && RetryableConflict(e.m) then
        Stop(if a.freshOk then SessionRotated(LockConflict, a.turnKey) else RecoveryFailed(e))
      else if !RecoverableRequest(e) then Stop(Error(e))
      else if a.cancelled then Stop(Cancelled)
      else if !a.freshOk then Stop(RecoveryFailed(e))
      else InFreshSession
  }

  // The session a message was sent to, what came of it, and whether the session was made for it.
  datatype Sent = Sent(key: nat, result: Result, inNew: bool)

  // The outcome of the call and every sessions.send it made.
  function Send(env: seq<Answer>, l: Loop): (Outcome, seq<Sent>)
    decreases |env|
  {
    if env == [] then (CutOff, [])
    else
      var sent := [Sent(env[0].turnKey, env[0].result, false)];
      match Decide(l, env[0])
      case Stop(outcome) => (outcome, sent)
      case Again(next) => var (outcome, more) := Send(env[1..], next); (outcome, sent + more)
      case InFreshSession =>
        if |env| == 1 then (CutOff, sent)
        else (if env[1].result.Reply? then Replied else Error(env[1].result.e),
              [Sent(env[0].turnKey, env[0].result, false), Sent(env[1].turnKey, env[1].result, true)])
  }

  const FIRST := Loop(0, false, 0)

  // ---------------------------------------------------------------- the imperative loop

  method ProbeLoop(probes: seq<Probe>, key: nat, reason: Reason) returns (outcome: Option<Outcome>)
    ensures outcome == ProbeSession(probes, key, reason, LOCK_RETRIES)
  {
    var i := 0;
    while i < LOCK_RETRIES
      invariant 0 <= i <= LOCK_RETRIES && i <= |probes|
      invariant ProbeSession(probes[i..], key, reason, LOCK_RETRIES - i) ==
                ProbeSession(probes, key, reason, LOCK_RETRIES)
    {
      assert i < |probes| ==> probes[i..][1..] == probes[i + 1..];
      if i == |probes| || probes[i].expired { break; }
      if probes[i].keyBefore != key { return Some(SessionRotated(reason, key)); }
      if probes[i].ok {
        if probes[i].keyAfter != key { return Some(SessionRotated(reason, key)); }
        return Some(SessionPreserved(reason, key));
      }
      i := i + 1;
    }
    return None;
  }

  method RecoverAcceptedTurn(a: Answer, e: SendError) returns (outcome: Outcome)
    requires LifecycleFailure(e)
    ensures outcome == RecoverTurn(a, e)
  {
    if e.m.lockConflict && a.keyAtCheck != a.turnKey { return SessionRotated(LockConflict, a.turnKey); }
    if e.m.lockConflict || (e.m.deadline && a.abortOk) {
      var reason := LockConflict;
      if e.m.deadline { reason := TurnTimeout; }
      var probed := ProbeLoop(a.probes, a.turnKey, reason);
      if probed.Some? { return probed.value; }
    }
    if !a.freshOk { return RecoveryFailed(e); }
    return SessionRotated(LossReason(e.m), a.turnKey);
  }

  function After(sends: seq<Sent>, r: (Outcome, seq<Sent>)): (Outcome, seq<Sent>) {
    (r.0, sends + r.1)
  }

  lemma Unfold(sends: seq<Sent>, env: seq<Answer>, l: Loop)
    requires env != []
    ensures var now := sends + [Sent(env[0].turnKey, env[0].result, false)];
      match Decide(l, env[0])
      case Stop(outcome) => After(sends, Send(env, l)) == (outcome, now)
      case Again(next) => After(sends, Send(env, l)) == After(now, Send(env[1..], next))
      case InFreshSession =>
        After(sends, Send(env, l)) ==
        if |env| == 1 then (CutOff, now)
        else
          var outcome := if env[1].result.Reply? then Replied else Error(env[1].result.e);
          (outcome, now + [Sent(env[1].turnKey, env[1].result, true)])
  {
    var sent := Sent(env[0].turnKey, env[0].result, false);
    if Decide(l, env[0]).Again? {
      var more := Send(env[1..], Decide(l, env[0]).loop).1;
      assert sends + ([sent] + more) == (sends + [sent]) + more;
    } else if Decide(l, env[0]).InFreshSession? && |env| > 1 {
      var last := Sent(env[1].turnKey, env[1].result, true);
      assert sends + [sent, last] == (sends + [sent]) + [last];
    }
  }

  method SendMessage(env: seq<Answer>) returns (outcome: Outcome, sends: seq<Sent>)
    ensures (outcome, sends) == Send(env, FIRST)
  {
    var gatewayRetried, lockConflictRetries, attempt := false, 0, 0;
    sends := [];
    assert env[0..] == env && [] + Send(env, FIRST).1 == Send(env, FIRST).1;
    while attempt < |env|
      invariant 0 <= attempt <= |env|
      invariant Send(env, FIRST) ==
                After(sends, Send(env[attempt..], Loop(attempt, gatewayRetried, lockConflictRetries)))
    {
      var a := env[attempt];
      assert env[attempt..][1..] == env[attempt + 1..];
      ghost var l, before := Loop(attempt, gatewayRetried, lockConflictRetries), sends;
      Unfold(before, env[attempt..], l);
      sends := sends + [Sent(a.turnKey, a.result, false)];
      if a.result == Reply { return Replied, sends; }
      var e := a.result.e;
      if e.RequestError? && e.m.llm && attempt < LLM_RETRIES {
        if a.cancelled { return Cancelled, sends; }
      } else if !gatewayRetried && e.RequestError? && e.m.gatewayWrite {
        if a.cancelled { return Cancelled, sends; }
        if a.reconnect == ReconnectFailed { return RecoveryFailed(e), sends; }
        if a.reconnect.Reconnected? { gatewayRetried := true; }
      } else if e.RequestError? && RetryableConflict(e.m) && lockConflictRetries < LOCK_RETRIES {
        lockConflictRetries := lockConflictRetries + 1;
        if a.cancelled { return Cancelled, sends; }
      } else if LifecycleFailure(e) {
        outcome := RecoverAcceptedTurn(a, e);
        return;
      } else if e.RequestError? && RetryableConflict(e.m) {
        return (if a.freshOk then SessionRotated(LockConflict, a.turnKey) else RecoveryFailed(e)), sends;
      } else if !RecoverableRequest(e) {
        return Error(e), sends;
      } else if a.cancelled {
        return Cancelled, sends;
      } else if !a.freshOk {
        return RecoveryFailed(e), sends;
      } else {
        if attempt + 1 == |env| { return CutOff, sends; }
        var last := env[attempt + 1];
        assert last == env[attempt..][1];
        sends := sends + [Sent(last.turnKey, last.result, true)];
        return (if last.result.Reply? then Replied else Error(last.result.e)), sends;
      }
      assert Decide(l, a) == Again(Loop(attempt + 1, gatewayRetried, lockConflictRetries));
      attempt := attempt + 1;
    }
    assert env[attempt..] == [] && sends + [] == sends;
    return CutOff, sends;
  }

  // ---------------------------------------------------------------- what the loop promises

  // Whether the gateway may have taken the message and acted on it.
  predicate MayBeAccepted(r: Result) {
    r.Reply? || r.e.TurnError? || r.e.cause == Unanswered
  }

  predicate TextsOk(env: seq<Answer>) {
    forall i | 0 <= i < |env| :: env[i].result.Failed? ==> TextOk(env[i].result.e)
  }

  lemma RetriedWasRejected(l: Loop, a: Answer)
    requires !Decide(l, a).Stop?
    ensures a.result.Failed? && a.result.e.RequestError?
    ensures TextOk(a.result.e) ==> !MayBeAccepted(a.result)
  {
  }

  /** One call has at most one send that the gateway may have accepted, and it is the last: every
      resend, also the one into a fresh session, follows a request that was not written or was
      answered with a rejection.  No failed turn, timeout or lock conflict after acceptance, and
      no request left without an answer, leads to a replay. */
  lemma {:induction false} AtMostOneAccepted(env: seq<Answer>, l: Loop, i: nat)
    requires i + 1 < |Send(env, l).1|
    ensures Send(env, l).1[i].result.Failed? && Send(env, l).1[i].result.e.RequestError?
    ensures TextsOk(env) ==> !MayBeAccepted(Send(env, l).1[i].result)
    decreases |env|
  {
    RetriedWasRejected(l, env[0]);
    if i > 0 {
      AtMostOneAccepted(env[1..], Decide(l, env[0]).loop, i - 1);
    }
  }

  /** The caller gets a reply exactly when the last send was answered with one. */
  lemma {:induction false} ReplyIsTheLastAnswer(env: seq<Answer>, l: Loop)
    requires Send(env, l).0 != CutOff
    ensures var (outcome, sends) := Send(env, l);
      |sends| > 0 && (outcome == Replied <==> sends[|sends| - 1].result == Reply)
    decreases |env|
  {
    var v := Decide(l, env[0]);
    if v.Again? {
      ReplyIsTheLastAnswer(env[1..], v.loop);
    } else if v.Stop? && env[0].result.Failed? {
      var reason := if env[0].result.e.m.deadline then TurnTimeout else LockConflict;
      PreservedWasProbed(env[0].probes, env[0].turnKey, reason, LOCK_RETRIES);
    }
  }

  // ---------------------------------------------------------------- what becomes of an accepted turn

  // The session answered probe i with its key unchanged, after earlier probes it had not answered.
  predicate AnsweredAt(a: Answer, i: nat) {
    && i < 4 && i < |a.probes| && SilentBefore(a, i)
    && a.probes[i] == Probe(false, a.turnKey, true, a.turnKey)
  }

  // Probe i found another session in its place.
  predicate MovedAt(a: Answer, i: nat) {
    && i < 4 && i < |a.probes| && SilentBefore(a, i) && !a.probes[i].expired
    && (a.probes[i].keyBefore != a.turnKey || (a.probes[i].ok && a.probes[i].keyAfter != a.turnKey))
  }

  predicate SilentBefore(a: Answer, i: nat)
    requires i <= |a.probes|
  {
    forall j | 0 <= j < i :: !a.probes[j].expired && a.probes[j].keyBefore == a.turnKey && !a.probes[j].ok
  }

  predicate Answered(a: Answer) {
    exists i: nat | i < |a.probes| :: AnsweredAt(a, i)
  }

  predicate Moved(a: Answer) {
    exists i: nat | i < |a.probes| :: MovedAt(a, i)
  }

  // A session is worth probing after a lock conflict, or after a deadline once the turn is aborted.
  predicate Probed(a: Answer, m: Match) {
    m.lockConflict || (m.deadline && a.abortOk)
  }

  // What the caller is told about an accepted turn that failed.
  ghost function Aftermath(a: Answer, m: Match): Outcome {
    if !m.lockConflict && !m.deadline && !m.format then Error(TurnError(m))
    else if m.lockConflict && a.keyAtCheck != a.turnKey then SessionRotated(LockConflict, a.turnKey)
    else if Probed(a, m) && Answered(a) then
      SessionPreserved(if m.deadline then TurnTimeout else LockConflict, a.turnKey)
    else if Probed(a, m) && Moved(a) then
      SessionRotated(if m.deadline then TurnTimeout else LockConflict, a.turnKey)
    else if !a.freshOk then RecoveryFailed(TurnError(m))
    else if m.lockConflict then SessionRotated(LockConflict, a.turnKey)
    else if m.deadline then SessionRotated(TurnTimeout, a.turnKey)
    else SessionRotated(ProviderError, a.turnKey)
  }

  lemma {:induction false} ProbesDecide(a: Answer, reason: Reason, i: nat)
    requires i <= 4 && i <= |a.probes| && SilentBefore(a, i)
    ensures var r := ProbeSession(a.probes[i..], a.turnKey, reason, 4 - i);
      && (r == Some(SessionPreserved(reason, a.turnKey)) <==> Answered(a))
      && (r == Some(SessionRotated(reason, a.turnKey)) <==> Moved(a))
      && (r.Some? ==> r.value == SessionPreserved(reason, a.turnKey) || r.value == SessionRotated(reason, a.turnKey))
    decreases 4 - i
  {
    if i < 4 && i < |a.probes| && !a.probes[i].expired && a.probes[i].keyBefore == a.turnKey && !a.probes[i].ok {
      assert a.probes[i..][1..] == a.probes[i + 1..];
      ProbesDecide(a, reason, i + 1);
    } else {
      DecidedBy(a, i);
    }
  }

  lemma DecidedBy(a: Answer, i: nat)
    requires i <= 4 && i <= |a.probes| && SilentBefore(a, i)
    requires i < 4 && i < |a.probes| ==>
      a.probes[i].expired || a.probes[i].keyBefore != a.turnKey || a.probes[i].ok
    ensures Answered(a) <==> i < 4 && i < |a.probes| && AnsweredAt(a, i)
    ensures Moved(a) <==> i < 4 && i < |a.probes| && MovedAt(a, i)
  {
    forall j: nat | j < |a.probes| && j != i ensures !AnsweredAt(a, j) && !MovedAt(a, j) {
    }
  }

  lemma RecoveredTurn(a: Answer, m: Match)
    requires m.lockConflict || m.deadline || m.format
    ensures RecoverTurn(a, TurnError(m)) == Aftermath(a, m)
  {
    ProbesDecide(a, if m.deadline then TurnTimeout else LockConflict, 0);
    assert a.probes[0..] == a.probes;
  }

  lemma {:induction false} LastIsDecided(env: seq<Answer>, l: Loop)
    requires Send(env, l).0 != CutOff
    ensures var (outcome, sends) := Send(env, l);
      && 0 < |sends| <= |env|
      && sends[|sends| - 1].key == env[|sends| - 1].turnKey && sends[|sends| - 1].result == env[|sends| - 1].result
      && (sends[|sends| - 1].result.Failed? && sends[|sends| - 1].result.e.TurnError? && !sends[|sends| - 1].inNew ==>
            outcome == Aftermath(env[|sends| - 1], sends[|sends| - 1].result.e.m))
    decreases |env|
  {
    var v, a := Decide(l, env[0]), env[0];
    if v.Again? {
      LastIsDecided(env[1..], v.loop);
    } else if a.result.Failed? && a.result.e.TurnError? {
      if LifecycleFailure(a.result.e) { RecoveredTurn(a, a.result.e.m); }
    }
  }

  /** An accepted turn that failed ends the call in exactly one way: with its error, when the text
      is none that recovery is for; with its session preserved, when that is worth probing and
      answers; with its session given up to the one found in its place; with a fresh session and
      the reason that fits; or with the failure to make one. */
  lemma AcceptedTurnEnds(env: seq<Answer>, m: Match)
    requires var (outcome, sends) := Send(env, FIRST);
      outcome != CutOff && sends != [] && !sends[|sends| - 1].inNew && sends[|sends| - 1].result == Failed(TurnError(m))
    ensures var (outcome, sends) := Send(env, FIRST);
      |sends| <= |env| && outcome == Aftermath(env[|sends| - 1], m)
  {
    LastIsDecided(env, FIRST);
  }

  /** A session is preserved if and only if the last turn was accepted on it and failed by a lock
      conflict, with the session still current, or by its deadline, with the turn aborted, and the
      session answered one of four probes, each before it unanswered, without ever being replaced
      by another.  So a session that answers is never thrown away. */
  lemma PreservedExactlyWhen(env: seq<Answer>)
    requires Send(env, FIRST).0 != CutOff
    ensures var (outcome, sends) := Send(env, FIRST);
      && 0 < |sends| <= |env|
      && var a, last := env[|sends| - 1], sends[|sends| - 1];
         && (outcome.SessionPreserved? <==>
               && !last.inNew && last.result.Failed? && last.result.e.TurnError?
               && (last.result.e.m.lockConflict || (last.result.e.m.deadline && a.abortOk))
               && (last.result.e.m.lockConflict ==> a.keyAtCheck == last.key)
               && exists i: nat | i < |a.probes| ::
                    && i < 4 && a.probes[i] == Probe(false, last.key, true, last.key)
                    && forall j | 0 <= j < i ::
                         !a.probes[j].expired && a.probes[j].keyBefore == last.key && !a.probes[j].ok)
         && (outcome.SessionPreserved? ==>
               outcome == SessionPreserved(if last.result.e.m.deadline then TurnTimeout else LockConflict, last.key))
  {
    LastIsDecided(env, FIRST);
    if Send(env, FIRST).0.SessionPreserved? { PreservedIsAccepted(env, FIRST); }
    var (outcome, sends) := Send(env, FIRST);
    var a := env[|sends| - 1];
    forall i: nat | i < |a.probes|
      ensures AnsweredAt(a, i) <==>
        && i < 4 && a.probes[i] == Probe(false, a.turnKey, true, a.turnKey)
        && forall j | 0 <= j < i :: !a.probes[j].expired && a.probes[j].keyBefore == a.turnKey && !a.probes[j].ok
    {
    }
  }

  lemma {:induction false} PreservedIsAccepted(env: seq<Answer>, l: Loop)
    requires Send(env, l).0.SessionPreserved?
    ensures Send(env, l).1 != []
    ensures var last := Send(env, l).1[|Send(env, l).1| - 1];
      !last.inNew && last.result.Failed? && last.result.e.TurnError?
    decreases |env|
  {
    if Decide(l, env[0]).Again? { PreservedIsAccepted(env[1..], Decide(l, env[0]).loop); }
  }

  // ---------------------------------------------------------------- which rejections are resent

  // Which of the three retries takes a rejection, if any; the first that may.
  datatype Retry = ModelRetry | GatewayRetry | ConflictRetry | NoRetry

  predicate TakenBy(retry: Retry, l: Loop, m: Match) {
    var model, gateway, conflict :=
      m.llm && l.attempt < 2, m.gatewayWrite && !l.gatewayRetried, (m.lockConflict || m.admission) && l.lockRetries < 4;
    match retry
    case ModelRetry => model
    case GatewayRetry => gateway && !model
    case ConflictRetry => conflict && !model && !gateway
    case NoRetry => !model && !gateway && !conflict
  }

  /** A message is sent again if and only if its request failed, the caller still waits, and one of
      these holds: the model provider failed for a moment and fewer than three sends were made; the
      request could not be written, no reconnect of this call came before, and the gateway is
      connected again; the session was busy, fewer than four times before; or, none of these
      applying, the transcript was refused for its size or form and a fresh session can be made,
      which the message then goes to.  Each retry counts for its own kind only. */
  lemma ResentExactlyWhen(env: seq<Answer>, l: Loop, m: Match, cause: Cause, retry: Retry)
    requires |env| > 1 && env[0].result == Failed(RequestError(cause, m)) && TakenBy(retry, l, m)
    ensures var (a, sends) := (env[0], Send(env, l).1);
      && (|sends| > 1 <==>
            && !a.cancelled
            && match retry
               case ModelRetry => true
               case GatewayRetry => a.reconnect != ReconnectFailed
               case ConflictRetry => true
               case NoRetry => !m.lockConflict && !m.admission && (m.overflow || m.format) && a.freshOk)
      && (|sends| > 1 ==>
            if retry == NoRetry then sends == [sends[0], Sent(env[1].turnKey, env[1].result, true)]
            else
              var reconnected := retry == GatewayRetry && a.reconnect.Reconnected?;
              var next := Loop(l.attempt + 1, l.gatewayRetried || reconnected,
                               l.lockRetries + (if retry == ConflictRetry then 1 else 0));
              Send(env, l) == (Send(env[1..], next).0, [Sent(a.turnKey, a.result, false)] + Send(env[1..], next).1))
  {
    if Decide(l, env[0]).Again? { AgainSends(env, l); }
  }

  lemma AgainSends(env: seq<Answer>, l: Loop)
    requires |env| > 1 && Decide(l, env[0]).Again?
    ensures Send(env[1..], Decide(l, env[0]).loop).1 != []
  {
  }

  /** A request that is not sent again ends the call: as cancelled when a resend was due, with the
      failure to recover when the gateway or a fresh session could not be had, with the busy
      session given up after its retries, and with its error otherwise. */
  lemma RefusedEnds(env: seq<Answer>, l: Loop, m: Match, cause: Cause, retry: Retry)
    requires |env| > 0 && env[0].result == Failed(RequestError(cause, m)) && TakenBy(retry, l, m)
    requires |Send(env, l).1| == 1 && Send(env, l).0 != CutOff
    ensures var (a, e) := (env[0], RequestError(cause, m));
      Send(env, l).0 ==
      match retry
      case GatewayRetry => if a.cancelled then Cancelled else RecoveryFailed(e)
      case NoRetry =>
        if m.lockConflict || m.admission then
          if a.freshOk then SessionRotated(LockConflict, a.turnKey) else RecoveryFailed(e)
        else if !m.overflow && !m.format then Error(e)
        else if a.cancelled then Cancelled else RecoveryFailed(e)
      case _ => Cancelled
  {
    if Decide(l, env[0]).Again? && |env| > 1 { AgainSends(env, l); }
  }

  /** A session that stays busy is asked five times before it is given up, if the caller waits. */
  lemma {:induction false} BusyIsAskedFiveTimes(env: seq<Answer>, l: Loop, cause: Cause)
    requires l.lockRetries <= 4 && |env| == 5 - l.lockRetries
    requires forall i | 0 <= i < |env| ::
      && !env[i].cancelled && env[i].freshOk
      && env[i].result == Failed(RequestError(cause, Match(false, false, true, false, false, false, false)))
    ensures |Send(env, l).1| == |env| && Send(env, l).0 == SessionRotated(LockConflict, env[|env| - 1].turnKey)
    decreases |env|
  {
    if l.lockRetries < 4 {
      BusyIsAskedFiveTimes(env[1..], Loop(l.attempt + 1, l.gatewayRetried, l.lockRetries + 1), cause);
    }
  }

  // ---------------------------------------------------------------- bounds

  function OthersReconnected(env: seq<Answer>): nat {
    if env == [] then 0 else (if env[0].reconnect.OtherReconnected? then 1 else 0) + OthersReconnected(env[1..])
  }

  // Resends left, apart from those another goroutine's reconnect allows.
  function Budget(l: Loop): nat {
    (if l.attempt < LLM_RETRIES then LLM_RETRIES - l.attempt else 0)
    + (if l.gatewayRetried then 0 else 1)
    + (if l.lockRetries < LOCK_RETRIES then LOCK_RETRIES - l.lockRetries else 0)
  }

  lemma {:induction false} SendsWithinBudget(env: seq<Answer>, l: Loop)
    ensures |Send(env, l).1| <= 2 + Budget(l) + OthersReconnected(env)
    decreases |env|
  {
    if env != [] {
      var v := Decide(l, env[0]);
      if v.Again? {
        SendsWithinBudget(env[1..], v.loop);
      }
    }
  }

  /** A call sends at most nine times, plus once for every time another goroutine had already
      reconnected the gateway. */
  lemma SendsBounded(env: seq<Answer>)
    ensures |Send(env, FIRST).1| <= 9 + OthersReconnected(env)
  {
    SendsWithinBudget(env, FIRST);
  }

  const CLOSED := RequestError(NotWritten, Match(false, true, false, false, false, false, false))

  /** Without that there is no bound: as long as writes fail on connections others reconnect, the
      call keeps sending. */
  lemma {:induction false} OthersKeepItSending(env: seq<Answer>, l: Loop)
    requires !l.gatewayRetried
    requires forall i | 0 <= i < |env| ::
      env[i].result == Failed(CLOSED) && !env[i].cancelled && env[i].reconnect == OtherReconnected
    ensures |Send(env, l).1| == |env| && Send(env, l).0 == CutOff
    decreases |env|
  {
    if env != [] {
      OthersKeepItSending(env[1..], l.(attempt := l.attempt + 1));
    }
  }

  // ---------------------------------------------------------------- what the hub is told

  datatype Edge = NoEdge | Preserved | Rotated

  // Decided when the edge is emitted: the session may have been replaced since.
  function SessionRecoveryOutcome(outcome: Outcome, currentKey: nat): Edge {
    match outcome
    case SessionPreserved(_, key) => if key == currentKey then Preserved else Rotated
    case SessionRotated(_, _) => Rotated
    case _ => NoEdge
  }

  lemma {:induction false} PreservedWasProbed(probes: seq<Probe>, key: nat, reason: Reason, tries: nat)
    ensures ProbeSession(probes, key, reason, tries).Some? ==>
      var outcome := ProbeSession(probes, key, reason, tries).value;
      && (outcome == SessionRotated(reason, key) || outcome == SessionPreserved(reason, key))
      && (outcome.SessionPreserved? ==>
            exists i :: 0 <= i < |probes| && i < tries && probes[i] == Probe(false, key, true, key)
                        && forall k :: 0 <= k < i ==> probes[k].keyBefore == key && !probes[k].ok && !probes[k].expired)
    decreases |probes|
  {
    if tries > 0 && probes != [] && !probes[0].expired && probes[0].keyBefore == key {
      if probes[0].ok {
        assert probes[0].keyAfter == key ==> probes[0] == Probe(false, key, true, key);
      } else {
        PreservedWasProbed(probes[1..], key, reason, tries - 1);
        var rest := ProbeSession(probes[1..], key, reason, tries - 1);
        if rest.Some? && rest.value.SessionPreserved? {
          var i :| 0 <= i < |probes| - 1 && i < tries - 1 && probes[1..][i] == Probe(false, key, true, key)
                   && forall k :: 0 <= k < i ==>
                        probes[1..][k].keyBefore == key && !probes[1..][k].ok && !probes[1..][k].expired;
          assert probes[i + 1] == Probe(false, key, true, key);
          forall k | 0 <= k < i + 1 ensures probes[k].keyBefore == key && !probes[k].ok && !probes[k].expired {
            if k > 0 { assert probes[k] == probes[1..][k - 1]; }
          }
        }
      }
    }
  }

  /** The hub is told that a session is intact only if the turn was accepted and failed on it, it
      answered one of at most four probes with no other session in between, and it still is the
      current one. */
  lemma {:induction false} IntactMeansTheSameSession(env: seq<Answer>, l: Loop, currentKey: nat)
    requires SessionRecoveryOutcome(Send(env, l).0, currentKey) == Preserved
    ensures Send(env, l).1 != []
    ensures var last := Send(env, l).1[|Send(env, l).1| - 1];
      && last.key == currentKey && last.result.Failed? && LifecycleFailure(last.result.e)
      && (last.result.e.m.lockConflict || last.result.e.m.deadline)
      && exists a | a in env :: a.turnKey == currentKey && Probe(false, currentKey, true, currentKey) in a.probes
    decreases |env|
  {
    var v := Decide(l, env[0]);
    if v.Again? {
      IntactMeansTheSameSession(env[1..], v.loop, currentKey);
    } else {
      var a := env[0];
      var reason := if a.result.e.m.deadline then TurnTimeout else LockConflict;
      PreservedWasProbed(a.probes, a.turnKey, reason, LOCK_RETRIES);
      assert a in env;
    }
  }

  /** The hub is told of a session whenever one was preserved or given up, and of nothing else: that it
      is intact if it was preserved and still is the current one, and that it is lost otherwise. */
  lemma HubIsToldExactly(env: seq<Answer>, l: Loop, currentKey: nat)
    ensures var outcome := Send(env, l).0; var edge := SessionRecoveryOutcome(outcome, currentKey);
      && (edge == NoEdge <==> !outcome.SessionPreserved? && !outcome.SessionRotated?)
      && (edge == Preserved <==> outcome.SessionPreserved? && outcome.key == currentKey)
      && (edge == Rotated <==> outcome.SessionRotated? || (outcome.SessionPreserved? && outcome.key != currentKey))
  {
  }

  function Conflicts(sends: seq<Sent>): nat {
    if sends == [] then 0
    else
      var r := sends[0].result;
      (if r.Failed? && r.e.RequestError? && RetryableConflict(r.e.m) then 1 else 0) + Conflicts(sends[1..])
  }

  /** A session is given up only with the send that was made on it: after an accepted turn that
      failed by lock conflict, deadline or a rejected transcript, with the reason that fits, or
      after a request that met a conflict five times. */
  lemma {:induction false} RotationNamesTheLostSession(env: seq<Answer>, l: Loop)
    requires Send(env, l).0.SessionRotated? && l.lockRetries <= LOCK_RETRIES
    ensures Send(env, l).1 != []
    ensures var (outcome, sends) := Send(env, l);
      var last := sends[|sends| - 1];
      && last.key == outcome.previousKey && last.result.Failed?
      && (outcome.reason == TurnTimeout ==> last.result.e.TurnError? && last.result.e.m.deadline)
      && (outcome.reason == ProviderError ==> last.result.e.TurnError? && last.result.e.m.format)
      && (outcome.reason == LockConflict && last.result.e.TurnError? ==> last.result.e.m.lockConflict)
      && (last.result.e.RequestError? ==>
            outcome.reason == LockConflict && Conflicts(sends) + l.lockRetries > LOCK_RETRIES)
      && outcome.reason != UnknownReason
    decreases |env|
  {
    var v := Decide(l, env[0]);
    if v.Again? {
      RotationNamesTheLostSession(env[1..], v.loop);
      var more := Send(env[1..], v.loop).1;
      var sent := Sent(env[0].turnKey, env[0].result, false);
      assert ([sent] + more)[1..] == more;
    } else {
      var e := env[0].result.e;
      PreservedWasProbed(env[0].probes, env[0].turnKey, if e.m.deadline then TurnTimeout else LockConflict,
                         LOCK_RETRIES);
      assert Conflicts([Sent(env[0].turnKey, env[0].result, false)]) ==
             if e.RequestError? && RetryableConflict(e.m) then 1 else 0;
    }
  }
}
