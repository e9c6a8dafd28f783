/**
  Runs of the bridge-error pause: failed and authored turns, heartbeats, reconnects, hub
  restarts, inputs, stage changes and sandbox replacements in any order.
*/
module PauseRuns {
  import opened BridgeErrorPause
  import opened Wrappers

  datatype Beat = Beat(at: int, healthy: bool)

  // One automatic lift: its kind, when it happened, and the healthy heartbeats it relied on.
  datatype Lift = Lift(kind: PauseKind, at: int, window: seq<Beat>)

  datatype State = State(
    p: Pause,
    now: int,
    due: seq<PauseKind>,           // pauses decided on, not yet committed
    failures: nat,                 // definite failures since a turn was authored, input arrived or the pause was lifted
    beats: seq<Beat>,              // heartbeats of this connection since it registered or was paused
    lifts: seq<Lift>,              // automatic lifts in this unit of work
    total: nat,                    // automatic lifts ever
    units: nat)                    // units of work started: stage changes and sandbox replacements, plus one

  // Where new material comes from: a person in the dashboard, an event outside the hub such as
  // a CI result, a review or a closed pull request, or a text the hub writes in the user's role.
  datatype Source = Human | ExternalEvent | HubAuthored

  datatype Step =
    | ErrorTurnEnds(e: ErrorTurn)
    | Commit(ok: bool)             // the oldest decided pause takes the lock
    | TryLift(fault: LiftFault)
    | Heartbeat(healthyAndReady: bool)
    | AgentTurnEnds
    | WatchdogPauses(ok: bool)
    | InputArrives(from: Source, ok: bool)
    | HubNote                      // a hub message that is bookkeeping, or a notice
    | Registers(limited: bool)
    | ConnectionLost
    | Activity(busy: bool, limited: bool, subagents: bool)
    | StageChanges
    | SandboxReplaced
    | Wait(ms: nat)

  // The longest unbroken healthy run that is still going.
  function HealthyRun(beats: seq<Beat>): seq<Beat> {
    if beats == [] || !beats[|beats| - 1].healthy then []
    else HealthyRun(beats[..|beats| - 1]) + [beats[|beats| - 1]]
  }

  function Apply(s: State, step: Step): State {
    match step
    case ErrorTurnEnds(e) =>
      var (conn, kind) := ObserveError(s.p.conn, e);
      s.(p := s.p.(conn := conn), due := if kind.Some? then s.due + [kind.value] else s.due,
         failures := if e.definite then s.failures + 1 else s.failures)
    case Commit(ok) =>
      if s.due == [] then s
      else s.(p := CommitPause(s.p, s.due[0], ok), due := s.due[1..],
              beats := if s.p.row.paused || !ok then s.beats else [])
    case TryLift(fault) =>
      if Lifts(s.p, s.now, fault) then
        s.(p := MaybeLift(s.p, s.now, fault), total := s.total + 1, failures := 0,
           lifts := s.lifts + [Lift(LiftKindDue(s.p.conn.value, s.now), s.now, HealthyRun(s.beats))])
      else s.(p := MaybeLift(s.p, s.now, fault))
    case Heartbeat(ok) =>
      if s.p.conn.None? then s
      else s.(p := s.p.(conn := Some(ObserveHealth(s.p.conn.value, ok, s.now))), beats := s.beats + [Beat(s.now, ok)])
    case AgentTurnEnds => s.(p := AuthoredTurn(s.p), failures := 0)
    case WatchdogPauses(ok) => s.(p := NoProgressPause(s.p, ok))
    case InputArrives(_, ok) => s.(p := ResumeAfterInput(s.p, ok), failures := if ok then 0 else s.failures)
    case HubNote => s
    case Registers(limited) => s.(p := Register(s.p, limited), beats := [], failures := 0)
    case ConnectionLost => s.(p := s.p.(conn := None), beats := [])
    case Activity(busy, limited, subagents) =>
      if s.p.conn.None? then s
      else s.(p := s.p.(conn := Some(s.p.conn.value.(busy := busy, providerLimited := limited,
                                                     subagentsActiveAt := if subagents then Some(s.now) else None))))
    case StageChanges => s.(p := StageTransition(s.p), lifts := [], units := s.units + 1)
    case SandboxReplaced => s.(p := SandboxReset(s.p), lifts := [], units := s.units + 1)
    case Wait(ms) => s.(now := s.now + ms)
  }

  function Init(now: int): State {
    State(Pause(PauseRow(false, Untagged, 0), None), now, [], 0, [], [], 0, 1)
  }

  function RunFrom(s: State, steps: seq<Step>): State
    decreases |steps|
  {
    if steps == [] then s else RunFrom(Apply(s, steps[0]), steps[1..])
  }

  lemma {:induction false} RunStep(s: State, steps: seq<Step>, i: nat)
    requires i < |steps|
    ensures RunFrom(s, steps[..i + 1]) == Apply(RunFrom(s, steps[..i]), steps[i])
    decreases i
  {
    if i > 0 {
      RunStep(Apply(s, steps[0]), steps[1..], i - 1);
      assert steps[1..][..i] == steps[..i + 1][1..] && steps[1..][..i - 1] == steps[..i][1..];
    }
  }

  // ---------------------------------------------------------------- the invariant

  // How long the gateway must have been healthy for the lift at position n of the budget.
  function RequiredMs(kind: PauseKind, n: nat): int {
    match kind
    case Gateway => GATEWAY_HEALTHY_MS
    case ModelTransport => if n < |MODEL_RETRY_DELAYS| then MODEL_RETRY_DELAYS[n] else 0
    case _ => 0
  }

  predicate AllHealthy(window: seq<Beat>) {
    forall i | 0 <= i < |window| :: window[i].healthy
  }

  predicate LiftOk(l: Lift, n: nat) {
    && l.kind != Untagged && n < Limit(l.kind)
    && AllHealthy(l.window)
    && (l.kind == Gateway || l.kind == ModelTransport ==>
          l.window != [] && l.at - l.window[0].at >= RequiredMs(l.kind, n))
  }

  // The connection's health stamp is the start of the current unbroken healthy run.
  predicate HealthOk(s: State) {
    s.p.conn.Some? ==>
      var run := HealthyRun(s.beats);
      s.p.conn.value.healthySince == if run == [] then None else Some(run[0].at)
  }

  predicate Inv(s: State) {
    && |s.lifts| == s.p.row.autoResumes
    && (forall n | 0 <= n < |s.lifts| :: LiftOk(s.lifts[n], n))
    && (!s.p.row.paused ==> s.p.row.kind == Untagged)
    && (s.p.conn.Some? && !s.p.conn.value.paused ==> s.p.conn.value.kind == Untagged)
    && HealthOk(s)
    && (s.p.conn.Some? ==> s.p.conn.value.errorStreak == s.failures)
    && |s.lifts| <= 5
    && s.total + 5 <= |s.lifts| + 5 * s.units
  }

  lemma {:induction false} HealthyRunIsHealthy(beats: seq<Beat>, run: seq<Beat>)
    requires run == HealthyRun(beats)
    ensures AllHealthy(run) && |run| <= |beats| && run == beats[|beats| - |run|..]
    ensures |run| < |beats| ==> !beats[|beats| - |run| - 1].healthy
    decreases |beats|
  {
    if beats != [] && beats[|beats| - 1].healthy {
      HealthyRunIsHealthy(beats[..|beats| - 1], HealthyRun(beats[..|beats| - 1]));
    }
  }

  lemma HealthStep(s: State, step: Step)
    requires HealthOk(s)
    ensures HealthOk(Apply(s, step))
  {
    if step.Heartbeat? && s.p.conn.Some? {
      var beat := Beat(s.now, step.healthyAndReady);
      assert (s.beats + [beat])[..|s.beats|] == s.beats;
    }
  }

  // The health a lift asks for, seen through the connection's stamp.
  lemma LiftHealth(s: State, fault: LiftFault)
    requires HealthOk(s) && Lifts(s.p, s.now, fault)
    ensures var kind := LiftKindDue(s.p.conn.value, s.now);
      && kind == s.p.row.kind != Untagged && s.p.row.autoResumes < Limit(kind)
      && (kind == Gateway || kind == ModelTransport ==>
            && s.p.conn.value.healthySince.Some?
            && s.now - s.p.conn.value.healthySince.value >= RequiredMs(kind, s.p.row.autoResumes))
  {
  }

  lemma LiftStep(s: State, fault: LiftFault)
    requires Inv(s) && Lifts(s.p, s.now, fault)
    ensures LiftOk(Lift(LiftKindDue(s.p.conn.value, s.now), s.now, HealthyRun(s.beats)), |s.lifts|)
    ensures |s.lifts| < 5
  {
    HealthyRunIsHealthy(s.beats, HealthyRun(s.beats));
    LiftHealth(s, fault);
  }

  lemma StepKeepsInv(s: State, step: Step)
    requires Inv(s)
    ensures Inv(Apply(s, step))
  {
    HealthStep(s, step);
    if step.TryLift? && Lifts(s.p, s.now, step.fault) { LiftStep(s, step.fault); }
  }

  lemma {:induction false} RunKeepsInv(s: State, steps: seq<Step>)
    requires Inv(s)
    ensures Inv(RunFrom(s, steps))
    decreases |steps|
  {
    if steps != [] {
      StepKeepsInv(s, steps[0]);
      RunKeepsInv(Apply(s, steps[0]), steps[1..]);
    }
  }

  // ---------------------------------------------------------------- main results

  function CountKind(lifts: seq<Lift>, kind: PauseKind): nat {
    if lifts == [] then 0
    else CountKind(lifts[..|lifts| - 1], kind) + (if lifts[|lifts| - 1].kind == kind then 1 else 0)
  }

  lemma {:induction false} CountWithinLimit(lifts: seq<Lift>, kind: PauseKind)
    requires forall n | 0 <= n < |lifts| :: LiftOk(lifts[n], n)
    ensures CountKind(lifts, kind) <= Limit(kind) && CountKind(lifts, kind) <= |lifts|
    decreases |lifts|
  {
    if lifts != [] {
      CountWithinLimit(lifts[..|lifts| - 1], kind);
    }
  }

  /** Within one unit of work, whatever the mix of errors, pauses, inputs and
      reconnects, at most two gateway, three model transport and five automatic lifts happen in
      all, and the lift at position n of the budget is of a kind whose limit exceeds n. */
  lemma LiftsAreBudgeted(start: int, steps: seq<Step>)
    ensures var lifts := RunFrom(Init(start), steps).lifts;
      && CountKind(lifts, Gateway) <= 2 && CountKind(lifts, ModelTransport) <= 3 && |lifts| <= 5
      && (forall n | 0 <= n < |lifts| :: n < Limit(lifts[n].kind))
  {
    RunKeepsInv(Init(start), steps);
    var lifts := RunFrom(Init(start), steps).lifts;
    CountWithinLimit(lifts, Gateway);
    CountWithinLimit(lifts, ModelTransport);
  }

  /** Every gateway lift follows three minutes of unbroken healthy heartbeats, and the model
      transport lift at position n follows one, three or ten, all seen after the pause on the
      connection that was lifted. */
  lemma LiftsFollowHealth(start: int, steps: seq<Step>, n: nat)
    requires n < |RunFrom(Init(start), steps).lifts|
    ensures var l := RunFrom(Init(start), steps).lifts[n];
      && AllHealthy(l.window)
      && (l.kind == Gateway ==> l.window != [] && l.at - l.window[0].at >= 3 * 60 * 1000)
      && (l.kind == ModelTransport ==>
            n < 3 && l.window != [] && l.at - l.window[0].at >= [1, 3, 10][n] * 60 * 1000)
  {
    RunKeepsInv(Init(start), steps);
    assert LiftOk(RunFrom(Init(start), steps).lifts[n], n);
  }

  /** Over the whole life of a claw the automatic lifts number at most five per unit of work. */
  lemma LiftsOverallBounded(start: int, steps: seq<Step>)
    ensures var s := RunFrom(Init(start), steps); s.total <= 5 * s.units
  {
    RunKeepsInv(Init(start), steps);
  }

  /** A failed turn decides to pause a running claw exactly when it is the second definite failure
      in a row, or the first of a provider that asks to come back later.  An uncertain failure
      never adds to the count.  The pause is for model transport whenever the text matches that,
      else for the provider, else for the gateway, and without a kind when it matches none. */
  lemma PausesExactlyAtThreshold(start: int, steps: seq<Step>, e: ErrorTurn)
    ensures var s := RunFrom(Init(start), steps);
      var decided := ObserveError(s.p.conn, e).1;
      && (decided.Some? <==>
            && s.p.conn.Some? && !s.p.conn.value.paused
            && (s.failures + (if e.definite then 1 else 0) >= 2 || (e.definite && e.providerTransient)))
      && (decided == Some(ModelTransport) <==> decided.Some? && e.modelTransport)
      && (decided == Some(ProviderTransient) <==> decided.Some? && e.providerTransient && !e.modelTransport)
      && (decided == Some(Gateway) <==>
            decided.Some? && e.gatewayConnectivity && !e.providerTransient && !e.modelTransport)
      && (decided == Some(Untagged) <==>
            decided.Some? && !e.gatewayConnectivity && !e.providerTransient && !e.modelTransport)
  {
    RunKeepsInv(Init(start), steps);
  }

  // What makes failures count from zero again: a turn the agent authored, an input, a new connection.
  predicate StartsOver(step: Step) {
    step.AgentTurnEnds? || (step.InputArrives? && step.ok) || step.Registers?
  }

  /** The first failed turn after that does not pause a claw, unless a provider failed for certain. */
  lemma FirstFailureIsForgiven(start: int, steps: seq<Step>, step: Step, e: ErrorTurn)
    requires StartsOver(step)
    ensures var s := Apply(RunFrom(Init(start), steps), step);
      ObserveError(s.p.conn, e).1.Some? <==>
        s.p.conn.Some? && !s.p.conn.value.paused && e.definite && e.providerTransient
  {
    RunKeepsInv(Init(start), steps);
  }

  // ---------------------------------------------------------------- which recovery a pause gets

  // A failed turn that pauses the claw, then a gateway that is healthy for some time, then an
  // attempt to lift the pause.
  function HealthyAfter(e: ErrorTurn, ms: nat): seq<Step> {
    [ErrorTurnEnds(e), Commit(true), Heartbeat(true), Wait(ms), Heartbeat(true), TryLift(LiftFault(false, false))]
  }

  // Whether that attempt lifts it, with n lifts already spent.
  predicate RecoversIn(e: ErrorTurn, n: nat, ms: nat) {
    if e.modelTransport then n < 3 && ms >= [1, 3, 10][n] * 60 * 1000
    else if e.providerTransient then n < 5
    else if e.gatewayConnectivity then n < 2 && ms >= 3 * 60 * 1000
    else false
  }

  predicate Idle(c: PauseConn) {
    !c.busy && !c.providerLimited && c.subagentsActiveAt.None?
  }

  lemma HealthyAfterRuns(s: State, e: ErrorTurn, ms: nat)
    ensures RunFrom(s, HealthyAfter(e, ms)) ==
            var healthy := Apply(Apply(Apply(s, ErrorTurnEnds(e)), Commit(true)), Heartbeat(true));
            Apply(Apply(Apply(healthy, Wait(ms)), Heartbeat(true)), TryLift(LiftFault(false, false)))
  {
    var steps := HealthyAfter(e, ms);
    assert RunFrom(s, steps[..0]) == s && steps[..6] == steps;
    RunStep(s, steps, 0);
    RunStep(s, steps, 1);
    RunStep(s, steps, 2);
    RunStep(s, steps, 3);
    RunStep(s, steps, 4);
    RunStep(s, steps, 5);
  }

  /** The recovery of a pause is the one its error asks for: after the failure that pauses an idle
      claw, a gateway that stays healthy lifts a model transport pause after one, three or ten
      minutes, up to three times, a gateway pause after three minutes, up to twice, and never one
      without a kind; a provider's pause does not wait for it, up to five times. */
  lemma PauseRecoversIn(start: int, steps: seq<Step>, e: ErrorTurn, ms: nat)
    requires var s := RunFrom(Init(start), steps);
      && s.p.conn.Some? && Idle(s.p.conn.value) && !s.p.conn.value.paused && !s.p.row.paused && s.due == []
      && s.failures > 0 && e.definite
    ensures var s := RunFrom(Init(start), steps); var after := RunFrom(s, HealthyAfter(e, ms));
      && (!after.p.row.paused <==> RecoversIn(e, s.p.row.autoResumes, ms))
      && (!after.p.row.paused <==> after.total == s.total + 1)
  {
    var s := RunFrom(Init(start), steps);
    RunKeepsInv(Init(start), steps);
    HealthyAfterRuns(s, e, ms);
    PausedBy(s, e);
    var paused := Apply(Apply(s, ErrorTurnEnds(e)), Commit(true));
    BecomesHealthy(paused, ms);
  }

  lemma PausedBy(s: State, e: ErrorTurn)
    requires Inv(s) && s.p.conn.Some? && Idle(s.p.conn.value) && !s.p.conn.value.paused && !s.p.row.paused
    requires s.due == [] && s.failures > 0 && e.definite
    ensures var paused := Apply(Apply(s, ErrorTurnEnds(e)), Commit(true));
      && paused.p.row == PauseRow(true, KindOf(e), s.p.row.autoResumes)
      && paused.p.conn.Some? && Idle(paused.p.conn.value) && paused.p.conn.value.paused
      && paused.p.conn.value.kind == KindOf(e) && paused.p.conn.value.healthySince.None?
      && paused.now == s.now && paused.total == s.total
  {
  }

  lemma BecomesHealthy(s: State, ms: nat)
    requires s.p.conn.Some? && s.p.conn.value.healthySince.None?
    ensures var waited := Apply(Apply(Apply(s, Heartbeat(true)), Wait(ms)), Heartbeat(true));
      && waited.p == s.p.(conn := Some(s.p.conn.value.(healthySince := Some(s.now))))
      && waited.now == s.now + ms && waited.total == s.total
  {
  }

  // The same with a reconnect in between.
  function HealthyAfterReconnect(e: ErrorTurn, ms: nat): seq<Step> {
    [ErrorTurnEnds(e), Commit(true), ConnectionLost, Registers(false)]
    + [Heartbeat(true), Wait(ms), Heartbeat(true), TryLift(LiftFault(false, false))]
  }

  lemma {:induction false} RunAppend(s: State, a: seq<Step>, b: seq<Step>)
    ensures RunFrom(s, a + b) == RunFrom(RunFrom(s, a), b)
    decreases |a|
  {
    if a == [] {
      assert a + b == b;
    } else {
      assert (a + b)[1..] == a[1..] + b;
      RunAppend(Apply(s, a[0]), a[1..], b);
    }
  }

  lemma FourSteps(s: State, a: Step, b: Step, c: Step, d: Step)
    ensures RunFrom(s, [a, b, c, d]) == Apply(Apply(Apply(Apply(s, a), b), c), d)
  {
    var steps := [a, b, c, d];
    assert RunFrom(s, steps[..0]) == s && steps[..4] == steps;
    RunStep(s, steps, 0);
    RunStep(s, steps, 1);
    RunStep(s, steps, 2);
    RunStep(s, steps, 3);
  }

  lemma ReconnectKeepsPause(s: State)
    requires s.p.row.paused
    ensures var back := Apply(Apply(s, ConnectionLost), Registers(false));
      && back.p.row == s.p.row && back.now == s.now && back.total == s.total
      && back.p.conn == Some(PauseConn(true, s.p.row.kind, 0, None, false, false, None))
  {
  }

  /** A pause outlives the connection it was made on, and so does its recovery: the next connection
      finds it and lifts it as the first would have. */
  lemma PauseOutlivesConnection(start: int, steps: seq<Step>, e: ErrorTurn, ms: nat)
    requires var s := RunFrom(Init(start), steps);
      && s.p.conn.Some? && Idle(s.p.conn.value) && !s.p.conn.value.paused && !s.p.row.paused && s.due == []
      && s.failures > 0 && e.definite
    ensures var s := RunFrom(Init(start), steps); var after := RunFrom(s, HealthyAfterReconnect(e, ms));
      && (!after.p.row.paused <==> RecoversIn(e, s.p.row.autoResumes, ms))
      && after.p.conn.Some? && after.p.conn.value.paused == after.p.row.paused
  {
    var s := RunFrom(Init(start), steps);
    RunKeepsInv(Init(start), steps);
    PausedBy(s, e);
    var paused := Apply(Apply(s, ErrorTurnEnds(e)), Commit(true));
    ReconnectKeepsPause(paused);
    var back := Apply(Apply(paused, ConnectionLost), Registers(false));
    BecomesHealthy(back, ms);
    var lift := TryLift(LiftFault(false, false));
    FourSteps(s, ErrorTurnEnds(e), Commit(true), ConnectionLost, Registers(false));
    FourSteps(back, Heartbeat(true), Wait(ms), Heartbeat(true), lift);
    RunAppend(s, [ErrorTurnEnds(e), Commit(true), ConnectionLost, Registers(false)],
              [Heartbeat(true), Wait(ms), Heartbeat(true), lift]);
  }

  // A pause that its connection could lift but for a spent budget.
  predicate Spent(s: State) {
    && s.p.conn.Some? && Idle(s.p.conn.value) && s.p.conn.value.paused && s.p.row.paused
    && s.p.conn.value.kind == s.p.row.kind != Untagged
    && s.p.conn.value.healthySince.Some? && s.now - s.p.conn.value.healthySince.value >= 10 * 60 * 1000
    && s.p.row.autoResumes >= (match s.p.row.kind case ModelTransport => 3 case Gateway => 2 case _ => 5)
  }

  /** When the budget is spent, the attempt to lift a model transport or provider pause gives it up for
      this connection, so that not even a new unit of work brings the recovery back; a gateway pause
      is lifted in the new unit. */
  lemma SpentPauseIsGivenUp(s: State, more: LiftFault)
    requires Spent(s) && !more.readFails && !more.updateFails
    ensures var tried := Apply(s, TryLift(LiftFault(false, false)));
      var after := Apply(Apply(tried, StageChanges), TryLift(more));
      && tried.p.row == s.p.row && tried.total == s.total
      && (after.p.row.paused <==> s.p.row.kind != Gateway)
  {
    var tried := Apply(s, TryLift(LiftFault(false, false)));
    assert !Lifts(s.p, s.now, LiftFault(false, false));
    assert tried.p.conn.value.kind == if s.p.row.kind == Gateway then Gateway else Untagged;
  }

  /** In every reachable state a kind belongs to a pause, stored or known to the connection. */
  lemma KindsBelongToPauses(start: int, steps: seq<Step>)
    ensures var p := RunFrom(Init(start), steps).p;
      && (p.row.kind != Untagged ==> p.row.paused)
      && (p.conn.Some? && p.conn.value.kind != Untagged ==> p.conn.value.paused)
  {
    RunKeepsInv(Init(start), steps);
  }

  /** A new sandbox lifts every pause that has a kind, and no other. */
  lemma SandboxLiftsExactlyTagged(start: int, steps: seq<Step>)
    ensures var s := RunFrom(Init(start), steps);
      Apply(s, SandboxReplaced).p.row.paused <==> s.p.row.paused && s.p.row.kind == Untagged
  {
  }

  // ---------------------------------------------------------------- untagged pauses

  predicate UntaggedPause(s: State) {
    s.p.row.paused && s.p.row.kind == Untagged
  }

  // The steps that lift an untagged pause: an input of any source whose statement succeeds.
  predicate IsMaterial(step: Step) {
    step.InputArrives? && step.ok
  }

  lemma UntaggedStep(s: State, step: Step)
    requires UntaggedPause(s)
    ensures UntaggedPause(Apply(s, step)) <==> !IsMaterial(step)
    ensures !IsMaterial(step) ==> Apply(s, step).total == s.total
    ensures IsMaterial(step) ==> !Apply(s, step).p.row.paused
  {
  }

  lemma {:induction false} UntaggedRun(s: State, steps: seq<Step>)
    requires UntaggedPause(s)
    requires forall i | 0 <= i < |steps| :: !IsMaterial(steps[i])
    ensures UntaggedPause(RunFrom(s, steps)) && RunFrom(s, steps).total == s.total
    decreases |steps|
  {
    if steps != [] {
      UntaggedStep(s, steps[0]);
      UntaggedRun(Apply(s, steps[0]), steps[1..]);
    }
  }

  ghost predicate StaysPaused(s: State, steps: seq<Step>) {
    forall k | 0 <= k <= |steps| :: UntaggedPause(RunFrom(s, steps[..k]))
  }

  /** A pause without a kind, such as the no-progress watchdog's or one for a full disk, is never
      lifted by the hub's own recovery: it holds through every heartbeat, reconnect, stage change
      and sandbox replacement.  It is lifted if and only if new material arrives: a person
      writes, an event outside the hub is reported, or the hub writes in the user's role. */
  lemma UntaggedPauseNeedsMaterial(s: State, steps: seq<Step>)
    requires UntaggedPause(s)
    ensures StaysPaused(s, steps) <==> forall i | 0 <= i < |steps| :: !IsMaterial(steps[i])
    ensures StaysPaused(s, steps) ==> RunFrom(s, steps).total == s.total
  {
    if forall i | 0 <= i < |steps| :: !IsMaterial(steps[i]) {
      forall k | 0 <= k <= |steps| ensures UntaggedPause(RunFrom(s, steps[..k])) {
        UntaggedRun(s, steps[..k]);
      }
      UntaggedRun(s, steps);
    } else {
      var i :| 0 <= i < |steps| && IsMaterial(steps[i]);
      if UntaggedPause(RunFrom(s, steps[..i])) {
        UntaggedStep(RunFrom(s, steps[..i]), steps[i]);
        RunStep(s, steps, i);
        assert !UntaggedPause(RunFrom(s, steps[..i + 1]));
      }
    }
  }

  /** Such a pause is what the watchdog leaves of a claw that was not paused, on its connection too,
      if its statement succeeds. */
  lemma WatchdogPausesForGood(start: int, before: seq<Step>, steps: seq<Step>)
    requires !RunFrom(Init(start), before).p.row.paused
    ensures var s := RunFrom(Init(start), before); var paused := Apply(s, WatchdogPauses(true));
      && (s.p.conn.Some? ==> paused.p.conn.Some? && paused.p.conn.value.paused)
      && (StaysPaused(paused, steps) <==> forall i | 0 <= i < |steps| :: !IsMaterial(steps[i]))
      && Apply(s, WatchdogPauses(false)) == s
  {
    RunKeepsInv(Init(start), before);
    UntaggedPauseNeedsMaterial(Apply(RunFrom(Init(start), before), WatchdogPauses(true)), steps);
  }

  // ---------------------------------------------------------------- when a lift happens

  /** The claw is lifted exactly when its row still holds the pause the connection knows, the
      budget of that kind is not spent, and the health and idleness the kind asks for are
      there. */
  lemma LiftsExactlyWhen(p: Pause, now: int, fault: LiftFault)
    ensures Lifts(p, now, fault) <==>
      && !fault.updateFails
      && p.conn.Some? && p.conn.value.paused && p.row.paused && p.row.kind == p.conn.value.kind != Untagged
      && match p.row.kind
         case Gateway => p.row.autoResumes < 2 && HealthyFor(p.conn.value, now, 180_000)
         case ModelTransport =>
           && !fault.readFails && !p.conn.value.busy && !p.conn.value.providerLimited
           && (p.conn.value.subagentsActiveAt.Some? ==> now - p.conn.value.subagentsActiveAt.value >= 45_000)
           && p.row.autoResumes < 3
           && HealthyFor(p.conn.value, now, [60_000, 180_000, 600_000][p.row.autoResumes])
         case _ => p.row.autoResumes < 5
  {
  }
}
