/**
  The three recovery governors of one claw together: the bridge-error pause, the idle resume and
  the sandbox replacement share the reset that a replacement makes, and the stage change.
*/
module Governors {
  import B = BridgeErrorPause
  import P = PauseRuns
  import I = IdleResume
  import R = RetryRuns
  import C = ClawRetry

  datatype State = State(pause: P.State, idle: I.State, retry: R.State, stages: nat, losses: nat)

  datatype Step =
    | PauseStep(p: P.Step)
    | IdleStep(i: I.Step)
    | RetryStep(r: R.Step)
    | StageChanges                 // a won stage transition starts a new unit of work

  // Steps a governor takes by itself: the shared resets are not among them.
  predicate PauseAlone(p: P.Step) {
    !p.StageChanges? && !p.SandboxReplaced?
  }

  predicate IdleAlone(i: I.Step) {
    !i.SandboxReplaced?
  }

  predicate NewIdleUnit(i: I.Step) {
    i.SessionLost? || i.CounterReset?
  }

  function Apply(s: State, step: Step, createdAt: int, d: I.Drift): State {
    match step
    case PauseStep(p) => if PauseAlone(p) then s.(pause := P.Apply(s.pause, p)) else s
    case IdleStep(i) =>
      if !IdleAlone(i) then s
      else
        var losses := s.losses + if NewIdleUnit(i) then 1 else 0;
        State(s.pause, I.Apply(s.idle, i, createdAt, d), s.retry, s.stages, losses)
    case RetryStep(r) =>
      var retry := R.Apply(s.retry, r);
      if retry.resets == s.retry.resets then s.(retry := retry)
      else State(P.Apply(s.pause, P.SandboxReplaced), I.Apply(s.idle, I.SandboxReplaced, createdAt, d),
                 retry, s.stages, s.losses)
    case StageChanges =>
      State(P.Apply(s.pause, P.StageChanges), I.Apply(s.idle, I.CounterReset, createdAt, d),
            s.retry, s.stages + 1, s.losses)
  }

  function Init(claw: C.Claw, analytics: bool, requiresPR: bool, createdAt: int): State {
    State(P.Init(createdAt), I.Init(createdAt), R.Init(claw, analytics, requiresPR), 0, 0)
  }

  function RunFrom(s: State, steps: seq<Step>, createdAt: int, d: I.Drift): State
    decreases |steps|
  {
    if steps == [] then s else RunFrom(Apply(s, steps[0], createdAt, d), steps[1..], createdAt, d)
  }

  // Each governor keeps its own promise, and the units they count are the stages, the
  // replacements and, for the idle resume, the sessions lost.
  predicate Inv(s: State, createdAt: int, d: I.Drift) {
    && P.Inv(s.pause) && I.Inv(s.idle, createdAt, d) && R.Inv(s.retry)
    && s.pause.units == 1 + s.stages + s.retry.resets
    && s.idle.units == 1 + s.stages + s.retry.resets + s.losses
  }

  lemma RetryKeepsInv(s: State, r: R.Step, createdAt: int, d: I.Drift)
    requires Inv(s, createdAt, d)
    ensures Inv(Apply(s, RetryStep(r), createdAt, d), createdAt, d)
  {
    R.StepKeepsInv(s.retry, r);
    ResetsByOne(s.retry, r);
    P.StepKeepsInv(s.pause, P.SandboxReplaced);
    I.StepKeepsInv(s.idle, I.SandboxReplaced, createdAt, d);
  }

  lemma ResetsByOne(s: R.State, r: R.Step)
    ensures R.Apply(s, r).resets == s.resets || R.Apply(s, r).resets == s.resets + 1
  {
  }

  lemma StageKeepsInv(s: State, createdAt: int, d: I.Drift)
    requires Inv(s, createdAt, d)
    ensures Inv(Apply(s, StageChanges, createdAt, d), createdAt, d)
  {
    P.StepKeepsInv(s.pause, P.StageChanges);
    I.StepKeepsInv(s.idle, I.CounterReset, createdAt, d);
  }

  lemma PauseKeepsInv(s: State, p: P.Step, createdAt: int, d: I.Drift)
    requires Inv(s, createdAt, d)
    ensures Inv(Apply(s, PauseStep(p), createdAt, d), createdAt, d)
  {
    if PauseAlone(p) { P.StepKeepsInv(s.pause, p); }
  }

  lemma IdleKeepsInv(s: State, i: I.Step, createdAt: int, d: I.Drift)
    requires Inv(s, createdAt, d)
    ensures Inv(Apply(s, IdleStep(i), createdAt, d), createdAt, d)
  {
    if IdleAlone(i) { I.StepKeepsInv(s.idle, i, createdAt, d); }
  }

  lemma StepKeepsInv(s: State, step: Step, createdAt: int, d: I.Drift)
    requires Inv(s, createdAt, d)
    ensures Inv(Apply(s, step, createdAt, d), createdAt, d)
  {
    match step
    case PauseStep(p) => PauseKeepsInv(s, p, createdAt, d);
    case IdleStep(i) => IdleKeepsInv(s, i, createdAt, d);
    case RetryStep(r) => RetryKeepsInv(s, r, createdAt, d);
    case StageChanges => StageKeepsInv(s, createdAt, d);
  }

  lemma {:induction false} RunKeepsInv(s: State, steps: seq<Step>, createdAt: int, d: I.Drift)
    requires Inv(s, createdAt, d)
    ensures Inv(RunFrom(s, steps, createdAt, d), createdAt, d)
    decreases |steps|
  {
    if steps != [] {
      StepKeepsInv(s, steps[0], createdAt, d);
      RunKeepsInv(Apply(s, steps[0], createdAt, d), steps[1..], createdAt, d);
    }
  }

  /** Everything the hub does on its own for one claw is bounded by its stages, whatever happens:
      at most two replacements, five lifts for each stage and replacement, and ten prompts for
      each stage, replacement and lost session. */
  lemma AutomationIsBounded(claw: C.Claw, analytics: bool, requiresPR: bool,
                            createdAt: int, d: I.Drift, steps: seq<Step>)
    requires createdAt > 0
    ensures var s := RunFrom(Init(claw, analytics, requiresPR, createdAt), steps, createdAt, d);
      && s.retry.resets <= s.retry.scheduled <= 2
      && s.pause.total <= 5 * (3 + s.stages)
      && |s.idle.injected| <= s.idle.total <= 10 * (3 + s.stages + s.losses)
  {
    RunKeepsInv(Init(claw, analytics, requiresPR, createdAt), steps, createdAt, d);
  }

  /** A replacement gives each governor a fresh start: the pause, if it has a kind, is lifted, and the
      lifts, the idle latch and the prompts are back at zero.  A new stage gives back the lifts and
      the prompts only. */
  lemma ResetsReachAll(claw: C.Claw, analytics: bool, requiresPR: bool,
                       createdAt: int, d: I.Drift, steps: seq<Step>, step: Step)
    requires createdAt > 0
    ensures var s := RunFrom(Init(claw, analytics, requiresPR, createdAt), steps, createdAt, d);
      var after := Apply(s, step, createdAt, d);
      && (after.retry.resets > s.retry.resets ==>
            && after.pause.p.row.autoResumes == 0
            && (after.pause.p.row.paused <==> s.pause.p.row.paused && s.pause.p.row.kind == B.Untagged)
            && after.idle.row == I.IdleRow(0, 0) && after.idle.session == s.idle.session + 1)
      && (step.StageChanges? ==>
            && after.pause.p.row == s.pause.p.row.(autoResumes := 0)
            && after.idle.row == s.idle.row.(resumeCount := 0) && after.idle.session == s.idle.session)
  {
  }
}
