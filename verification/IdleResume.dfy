/**
  Idle auto-resume: once per idle stretch, across reconnects, hub restarts and a crash
  between writing the latch and injecting the prompt.

  A stretch is the time between two turn ends of one sandbox session.  The hub names it by an
  anchor: the time the last turn ended as far as the connection knows, or the claw's creation
  when no turn is known.  After a restart that time is re-seeded from stored messages and may
  be off by a bounded drift.
*/
module IdleResume {
  import opened Wrappers

  const STRETCH_SLACK_MS := 60_000
  const MIN_IDLE_RESUME_AFTER_MS := 60_000
  const BLIND_GRACE_MS := 70 * 60 * 1000
  const MAX_ATTEMPTS := 10

  datatype IdleRow = IdleRow(resumeAt: int, resumeCount: nat)

  datatype IdleConn = IdleConn(
    lastTurn: Option<int>,
    connectedAt: int,
    turnBoundarySeen: bool,
    busy: bool,
    noProgressPaused: bool)

  // ---------------------------------------------------------------- snapshot and anchor

  // The stretch starts at the end of the last turn, but never before the connection.
  function StretchStart(c: IdleConn): int {
    if c.lastTurn.Some? && c.lastTurn.value >= c.connectedAt then c.lastTurn.value else c.connectedAt
  }

  function Anchor(c: IdleConn, createdAt: int): int {
    if c.lastTurn.Some? then c.lastTurn.value else createdAt
  }

  // ---------------------------------------------------------------- the check of one watchdog tick

  datatype Settings = Settings(enabled: bool, idleResumeAfter: int, baseline: int)

  // Nothing to do: a turn is running or may be running unseen, continuation is paused, or the
  // claw has not been idle for long enough.
  predicate NotYet(c: IdleConn, cfg: Settings, now: int) {
    || !cfg.enabled
    || c.busy
    || (!c.turnBoundarySeen && now - c.connectedAt < BLIND_GRACE_MS)
    || c.noProgressPaused
    || now - StretchStart(c) < cfg.idleResumeAfter
  }

  predicate StretchHandled(row: IdleRow, anchor: int) {
    row.resumeAt != 0 && anchor <= row.resumeAt + STRETCH_SLACK_MS
  }

  datatype Verdict = Nothing | Parked | Latched

  // What one tick meets outside the claw: the exclusion rule's answer and whether the two
  // updates, clearing an old latch and writing a new one, succeed.
  datatype Tick = Tick(cfg: Settings, eligible: bool, clearOk: bool, latchOk: bool)

  // What the tick decides and the row it leaves.
  function Check(row: IdleRow, c: IdleConn, createdAt: int, t: Tick, now: int): (IdleRow, Verdict) {
    if NotYet(c, t.cfg, now) then (row, Nothing)
    else if StretchHandled(row, Anchor(c, createdAt)) then (row, Nothing)
    else
      var rearmed := if t.clearOk then row.(resumeAt := 0) else row;
      if row.resumeCount >= MAX_ATTEMPTS || !t.eligible || !t.latchOk then (rearmed, Nothing)
      else if StretchStart(c) < t.cfg.baseline then (IdleRow(StretchStart(c), row.resumeCount), Parked)
      else (IdleRow(StretchStart(c), row.resumeCount + 1), Latched)
  }

  class IdleWatch {
    var row: IdleRow
    const createdAt: int

    constructor (createdAt: int)
      ensures row == IdleRow(0, 0) && this.createdAt == createdAt
    {
      this.createdAt := createdAt;
      row := IdleRow(0, 0);
    }

    // Latches before injecting: inject is returned only after the row was written.
    method CheckAgentIdleResume(c: IdleConn, t: Tick, now: int) returns (inject: bool)
      modifies this
      ensures row == Check(old(row), c, createdAt, t, now).0
      ensures inject <==> Check(old(row), c, createdAt, t, now).1 == Latched
    {
      if !t.cfg.enabled || c.busy { return false; }
      if !c.turnBoundarySeen && now - c.connectedAt < BLIND_GRACE_MS { return false; }
      if c.noProgressPaused { return false; }
      var start := StretchStart(c);
      if now - start < t.cfg.idleResumeAfter { return false; }
      var count := row.resumeCount;
      if row.resumeAt != 0 {
        if Anchor(c, createdAt) <= row.resumeAt + STRETCH_SLACK_MS { return false; }
        if t.clearOk { row := row.(resumeAt := 0); }
      }
      if count >= MAX_ATTEMPTS || !t.eligible { return false; }
      if start < t.cfg.baseline {
        if t.latchOk { row := row.(resumeAt := start); }
        return false;
      }
      if !t.latchOk { return false; }
      row := IdleRow(start, count + 1);
      return true;
    }
  }

  // ---------------------------------------------------------------- runs

  // One idle stretch: the session it belongs to and the number of turns that had ended.
  datatype Stretch = Stretch(session: nat, turns: nat)

  datatype State = State(
    row: IdleRow,
    conn: Option<IdleConn>,
    injecting: Option<Stretch>,    // latched, prompt not yet injected; lost in a crash
    now: int,
    // history
    session: nat,                  // times the latch was cleared because the session is new
    turns: nat,                    // turns that have ended
    lastEnd: int,                  // when the last one ended, or when the claw was created
    latchedFor: Option<Stretch>,   // the stretch of the last latch, parked or not
    latchedAt: int,
    injected: seq<Stretch>,
    spent: nat,                    // prompts latched in this unit of work
    total: nat,                    // ... and ever
    units: nat)                    // times the attempt counter was reset, plus one

  // How far a re-seeded turn time may be before or after the real one.
  datatype Drift = Drift(early: nat, late: nat)

  datatype Step =
    | WatchdogTick(t: Tick)
    | Inject
    | TurnBegins
    | TurnAborts
    | TurnEnds
    | SetPaused(paused: bool)
    | Reconnects(seed: Option<int>)       // the old connection record is still there
    | ConnectionLost
    | HubRestarts
    | RegistersFresh(seed: Option<int>)
    | SessionLost                         // clears latch and counter
    | CounterReset                        // stage change or delivered session-loss notice
    | SandboxReplaced
    | Wait(ms: nat)

  function Current(s: State): Stretch {
    Stretch(s.session, s.turns)
  }

  // Settings read by the hub: the threshold has a floor.
  predicate SettingsOk(cfg: Settings) {
    cfg.idleResumeAfter >= MIN_IDLE_RESUME_AFTER_MS
  }

  predicate SeedOk(seed: Option<int>, lastEnd: int, d: Drift) {
    seed.Some? ==> lastEnd - d.early <= seed.value <= lastEnd + d.late
  }

  function NewConn(lastTurn: Option<int>, now: int, seen: bool): Option<IdleConn> {
    Some(IdleConn(lastTurn, now, seen, false, false))
  }

  predicate Enabled(s: State, step: Step, d: Drift) {
    match step
    case WatchdogTick(t) => s.conn.Some? && s.injecting.None? && SettingsOk(t.cfg)
    case Inject => s.injecting.Some?
    case TurnBegins => s.conn.Some?
    case TurnAborts => s.conn.Some?
    case TurnEnds => s.conn.Some?
    case SetPaused(_) => s.conn.Some?
    case Reconnects(seed) => s.conn.Some? && SeedOk(seed, s.lastEnd, d)
    case RegistersFresh(seed) => s.conn.None? && SeedOk(seed, s.lastEnd, d)
    case _ => true
  }

  // A step that is not enabled leaves the state as it is.  createdAt is the claw's creation.
  function Apply(s: State, step: Step, createdAt: int, d: Drift): State {
    if !Enabled(s, step, d) then s
    else match step
      case WatchdogTick(t) => AfterTick(s, Check(s.row, s.conn.value, createdAt, t, s.now))
      case Inject => s.(injecting := None, injected := s.injected + [s.injecting.value])
      case TurnBegins => s.(conn := Some(s.conn.value.(busy := true)))
      case TurnAborts => s.(conn := Some(s.conn.value.(busy := false)))
      case TurnEnds =>
        s.(conn := Some(s.conn.value.(busy := false, lastTurn := Some(s.now), turnBoundarySeen := true)),
           turns := s.turns + 1, lastEnd := s.now)
      case SetPaused(paused) => s.(conn := Some(s.conn.value.(noProgressPaused := paused)))
      case Reconnects(seed) =>
        s.(conn := NewConn(if s.conn.value.lastTurn.Some? then s.conn.value.lastTurn else seed, s.now,
                           s.conn.value.turnBoundarySeen && !s.conn.value.busy))
      case ConnectionLost => s.(conn := None)
      case HubRestarts => s.(conn := None, injecting := None)
      case RegistersFresh(seed) => s.(conn := NewConn(seed, s.now, false))
      case SessionLost => s.(row := IdleRow(0, 0), session := s.session + 1, spent := 0, units := s.units + 1)
      case CounterReset => s.(row := s.row.(resumeCount := 0), spent := 0, units := s.units + 1)
      case SandboxReplaced => s.(row := IdleRow(0, 0), session := s.session + 1, spent := 0, units := s.units + 1)
      case Wait(ms) => s.(now := s.now + ms)
  }

  function AfterTick(s: State, result: (IdleRow, Verdict)): State {
    match result.1
    case Latched =>
      s.(row := result.0, injecting := Some(Current(s)), latchedFor := Some(Current(s)), latchedAt := s.now,
         spent := s.spent + 1, total := s.total + 1)
    case Parked => s.(row := result.0, latchedFor := Some(Current(s)), latchedAt := s.now)
    case Nothing => s.(row := result.0)
  }

  // A claw created at a positive epoch millisecond.
  function Init(createdAt: int): State {
    State(IdleRow(0, 0), None, None, createdAt, 0, 0, createdAt, None, 0, [], 0, 0, 1)
  }

  function RunFrom(s: State, steps: seq<Step>, createdAt: int, d: Drift): State
    decreases |steps|
  {
    if steps == [] then s else RunFrom(Apply(s, steps[0], createdAt, d), steps[1..], createdAt, d)
  }

  function Run(steps: seq<Step>, createdAt: int, d: Drift): State {
    RunFrom(Init(createdAt), steps, createdAt, d)
  }

  // ---------------------------------------------------------------- the invariant

  predicate Before(a: Stretch, b: Stretch) {
    a.session <= b.session && a.turns <= b.turns && a != b
  }

  predicate NotAfter(a: Stretch, b: Stretch) {
    a.session <= b.session && a.turns <= b.turns
  }

  predicate LatchedBefore(x: Stretch, latchedFor: Option<Stretch>, injecting: Option<Stretch>) {
    latchedFor.Some? && NotAfter(x, latchedFor.value) && injecting != Some(x)
  }

  // Prompts are injected for ever later stretches, and only for latched ones.
  predicate StretchesOk(s: State) {
    && (forall i, j | 0 <= i < j < |s.injected| :: Before(s.injected[i], s.injected[j]))
    && (s.latchedFor.Some? ==> NotAfter(s.latchedFor.value, Current(s)))
    && (s.injecting.Some? ==> s.latchedFor == s.injecting)
    && (forall x | x in s.injected :: LatchedBefore(x, s.latchedFor, s.injecting))
  }

  predicate ClockOk(s: State, createdAt: int) {
    0 < createdAt <= s.lastEnd <= s.now && (s.conn.Some? ==> createdAt <= s.conn.value.connectedAt <= s.now)
  }

  // What the connection believes about the last turn: exact when the turn ended on it, and
  // otherwise at most late ms too late, on a connection registered after it.
  predicate ConnOk(s: State, d: Drift) {
    s.conn.Some? ==>
      && (s.conn.value.lastTurn.Some? ==> s.conn.value.lastTurn.value <= s.lastEnd + d.late)
      && StretchStart(s.conn.value) >= s.lastEnd
  }

  // The current stretch, once latched, stays recognisable.
  predicate LatchOk(s: State) {
    s.latchedFor == Some(Current(s)) ==> s.row.resumeAt >= s.lastEnd
  }

  // A latch is at least the idle threshold older than the moment it was written.
  predicate GapOk(s: State) {
    s.latchedAt <= s.now && (s.row.resumeAt != 0 ==> s.row.resumeAt + MIN_IDLE_RESUME_AFTER_MS <= s.latchedAt)
  }

  predicate BudgetOk(s: State) {
    && s.row.resumeCount == s.spent <= MAX_ATTEMPTS
    && s.total + MAX_ATTEMPTS <= s.row.resumeCount + MAX_ATTEMPTS * s.units
    && |s.injected| + (if s.injecting.Some? then 1 else 0) <= s.total
  }

  predicate Inv(s: State, createdAt: int, d: Drift) {
    ClockOk(s, createdAt) && ConnOk(s, d) && GapOk(s) && BudgetOk(s)
  }

  // The part that depends on the drift being within the slack.
  predicate OnceInv(s: State) {
    StretchesOk(s) && LatchOk(s)
  }

  lemma StepKeepsInv(s: State, step: Step, createdAt: int, d: Drift)
    requires Inv(s, createdAt, d)
    ensures Inv(Apply(s, step, createdAt, d), createdAt, d)
  {
  }

  lemma StepKeepsOnce(s: State, step: Step, createdAt: int, d: Drift)
    requires Inv(s, createdAt, d) && OnceInv(s) && d.late <= STRETCH_SLACK_MS
    ensures OnceInv(Apply(s, step, createdAt, d))
  {
    if step.WatchdogTick? && Enabled(s, step, d) {
      TickKeepsOnce(s, step.t, createdAt, d);
    } else if step.Inject? && s.injecting.Some? {
      forall i | 0 <= i < |s.injected| ensures Before(s.injected[i], s.injecting.value) {
        assert LatchedBefore(s.injected[i], s.latchedFor, s.injecting);
      }
    }
  }

  // A latched stretch is recognised, so a tick latches only a stretch after every earlier one.
  lemma TickKeepsOnce(s: State, t: Tick, createdAt: int, d: Drift)
    requires Inv(s, createdAt, d) && OnceInv(s) && d.late <= STRETCH_SLACK_MS
    requires Enabled(s, WatchdogTick(t), d)
    ensures OnceInv(AfterTick(s, Check(s.row, s.conn.value, createdAt, t, s.now)))
  {
    if Check(s.row, s.conn.value, createdAt, t, s.now).1 != Nothing {
      assert s.latchedFor != Some(Current(s));
      forall x | x in s.injected ensures Before(x, Current(s)) {
        assert LatchedBefore(x, s.latchedFor, s.injecting);
      }
    }
  }

  lemma {:induction false} RunKeepsInv(s: State, steps: seq<Step>, createdAt: int, d: Drift)
    requires Inv(s, createdAt, d)
    ensures Inv(RunFrom(s, steps, createdAt, d), createdAt, d)
    ensures OnceInv(s) && d.late <= STRETCH_SLACK_MS ==> OnceInv(RunFrom(s, steps, createdAt, d))
    decreases |steps|
  {
    if steps != [] {
      StepKeepsInv(s, steps[0], createdAt, d);
      if OnceInv(s) && d.late <= STRETCH_SLACK_MS { StepKeepsOnce(s, steps[0], createdAt, d); }
      RunKeepsInv(Apply(s, steps[0], createdAt, d), steps[1..], createdAt, d);
    }
  }

  // ---------------------------------------------------------------- main results

  predicate Distinct(stretches: seq<Stretch>) {
    forall i, j | 0 <= i < j < |stretches| :: stretches[i] != stretches[j]
  }

  /** Whatever the mix of turns, aborted turns, reconnects, hub restarts (also between latch and
      injection), session losses and sandbox replacements, no idle stretch is prompted twice as
      long as a re-seeded turn time is at most a minute too late.  How much too early it is does
      not matter. */
  lemma OncePerStretch(steps: seq<Step>, createdAt: int, d: Drift)
    requires createdAt > 0 && d.late <= 60_000
    ensures Distinct(Run(steps, createdAt, d).injected)
  {
    RunKeepsInv(Init(createdAt), steps, createdAt, d);
  }

  ghost predicate AlwaysOnce(createdAt: int, d: Drift) {
    forall steps: seq<Step> :: Distinct(Run(steps, createdAt, d).injected)
  }

  // A prompt, a hub restart that re-seeds the same turn with too late a time, a second prompt.
  function PromptOnce(seed: Option<int>, wait: nat): seq<Step> {
    [RegistersFresh(seed), Wait(wait),
     WatchdogTick(Tick(Settings(true, MIN_IDLE_RESUME_AFTER_MS, 0), true, true, true)), Inject]
  }

  function LateSeedRun(createdAt: int, late: nat): seq<Step> {
    [RegistersFresh(None), TurnEnds, HubRestarts] + PromptOnce(Some(createdAt), BLIND_GRACE_MS)
    + [HubRestarts] + PromptOnce(Some(createdAt + late), BLIND_GRACE_MS + late)
  }

  lemma {:induction false} RunAppend(s: State, a: seq<Step>, b: seq<Step>, createdAt: int, d: Drift)
    ensures RunFrom(s, a + b, createdAt, d) == RunFrom(RunFrom(s, a, createdAt, d), b, createdAt, d)
    decreases |a|
  {
    if a == [] {
      assert a + b == b;
    } else {
      assert (a + b)[1..] == a[1..] + b;
      RunAppend(Apply(s, a[0], createdAt, d), a[1..], b, createdAt, d);
    }
  }

  // Four steps that prompt the current stretch, when nothing says it was handled.
  lemma PromptRun(s: State, seed: Option<int>, wait: nat, createdAt: int, d: Drift)
    requires 0 < createdAt <= s.now && s.conn.None? && s.injecting.None? && s.row.resumeCount < MAX_ATTEMPTS
    requires SeedOk(seed, s.lastEnd, d) && wait >= BLIND_GRACE_MS
    requires seed.Some? ==>
      && seed.value + BLIND_GRACE_MS <= s.now + wait
      && (s.row.resumeAt != 0 ==> seed.value > s.row.resumeAt + STRETCH_SLACK_MS)
    requires seed.None? ==> s.row.resumeAt == 0
    ensures var after := RunFrom(s, PromptOnce(seed, wait), createdAt, d);
      && after.injected == s.injected + [Current(s)] && Current(after) == Current(s) && after.injecting.None?
      && after.row.resumeAt == (if seed.Some? && seed.value >= s.now then seed.value else s.now)
      && after.row.resumeCount == s.row.resumeCount + 1
      && after.now == s.now + wait && after.lastEnd == s.lastEnd
  {
    var steps := PromptOnce(seed, wait);
    var s1 := Apply(s, steps[0], createdAt, d);
    var s2 := Apply(s1, steps[1], createdAt, d);
    var s3 := Apply(s2, steps[2], createdAt, d);
    assert s3.injecting == Some(Current(s));
    assert steps[1..][1..] == steps[2..] && steps[2..][1..] == [Inject];
    assert RunFrom(s2, steps[2..], createdAt, d) == RunFrom(s3, [Inject], createdAt, d);
    assert RunFrom(s3, [Inject], createdAt, d) == Apply(s3, Inject, createdAt, d);
  }

  lemma LateSeedPromptsTwice(createdAt: int, d: Drift)
    requires createdAt > 0 && d.late > 60_000
    ensures Run(LateSeedRun(createdAt, d.late), createdAt, d).injected == [Stretch(0, 1), Stretch(0, 1)]
  {
    var turn := [RegistersFresh(None), TurnEnds, HubRestarts];
    var first := PromptOnce(Some(createdAt), BLIND_GRACE_MS);
    var rest := [HubRestarts] + PromptOnce(Some(createdAt + d.late), BLIND_GRACE_MS + d.late);
    var s0 := Init(createdAt).(turns := 1);
    assert RunFrom(Init(createdAt), turn, createdAt, d) == s0 by { assert turn[1..][1..] == [HubRestarts]; }
    PromptRun(s0, Some(createdAt), BLIND_GRACE_MS, createdAt, d);
    SecondPrompt(RunFrom(s0, first, createdAt, d), createdAt, d);
    RunAppend(s0, first, rest, createdAt, d);
    RunAppend(Init(createdAt), turn, first + rest, createdAt, d);
    assert LateSeedRun(createdAt, d.late) == turn + (first + rest);
  }

  lemma SecondPrompt(s: State, createdAt: int, d: Drift)
    requires createdAt > 0 && d.late > 60_000
    requires s.lastEnd == s.row.resumeAt == createdAt && s.row.resumeCount == 1 && s.now == createdAt + BLIND_GRACE_MS
    ensures var steps := [HubRestarts] + PromptOnce(Some(createdAt + d.late), BLIND_GRACE_MS + d.late);
      RunFrom(s, steps, createdAt, d).injected
            == s.injected + [Current(s)]
  {
    var second := PromptOnce(Some(createdAt + d.late), BLIND_GRACE_MS + d.late);
    assert ([HubRestarts] + second)[1..] == second;
    PromptRun(Apply(s, HubRestarts, createdAt, d), Some(createdAt + d.late), BLIND_GRACE_MS + d.late, createdAt, d);
  }

  /** The minute of slack is exactly what the promise needs. */
  lemma OnceExactlyWithinSlack(createdAt: int, d: Drift)
    requires createdAt > 0
    ensures AlwaysOnce(createdAt, d) <==> d.late <= 60_000
  {
    if d.late <= 60_000 {
      forall steps: seq<Step> ensures Distinct(Run(steps, createdAt, d).injected) {
        OncePerStretch(steps, createdAt, d);
      }
    } else {
      LateSeedPromptsTwice(createdAt, d);
      var twice := Run(LateSeedRun(createdAt, d.late), createdAt, d).injected;
      assert twice[0] == twice[1];
      assert !Distinct(twice);
    }
  }

  /** A turn that ends after the last latch always re-arms the recovery: the next stretch is
      prompted as soon as it is long enough, unless the budget is spent, the claw is excluded or
      the stretch predates the feature. */
  lemma LaterTurnRearms(steps: seq<Step>, createdAt: int, d: Drift, ms: nat, t: Tick)
    requires createdAt > 0 && SettingsOk(t.cfg) && t.cfg.enabled && t.eligible && t.latchOk
    requires Run(steps, createdAt, d).conn.Some?
    requires Run(steps, createdAt, d).now > Run(steps, createdAt, d).latchedAt
    requires !Run(steps, createdAt, d).conn.value.noProgressPaused
    ensures
      var ended := Apply(Run(steps, createdAt, d), TurnEnds, createdAt, d);
      var verdict := Check(ended.row, ended.conn.value, createdAt, t, ended.now + ms).1;
      verdict == if ms < t.cfg.idleResumeAfter || ended.row.resumeCount >= MAX_ATTEMPTS then Nothing
                 else if ended.now < t.cfg.baseline then Parked
                 else Latched
  {
    RunKeepsInv(Init(createdAt), steps, createdAt, d);
  }

  /** The stored counter is exactly the number of prompts latched in this unit of work, at most
      ten; parking a stretch spends nothing.  So there are at most ten prompts for each unit over
      the life of a claw. */
  lemma PromptsBounded(steps: seq<Step>, createdAt: int, d: Drift)
    requires createdAt > 0
    ensures var s := Run(steps, createdAt, d);
      s.row.resumeCount == s.spent <= 10 && |s.injected| <= s.total <= 10 * s.units
  {
    RunKeepsInv(Init(createdAt), steps, createdAt, d);
  }

  // ---------------------------------------------------------------- exactly when a prompt is due

  // Idle since the last turn ended or, if that was before it, since the connection was made.
  predicate IdleFor(c: IdleConn, now: int, ms: int) {
    now - c.connectedAt >= ms && (c.lastTurn.Some? ==> now - c.lastTurn.value >= ms)
  }

  // A stretch that has been latched: the last turn known ended no later than a minute after it.
  predicate Handled(row: IdleRow, c: IdleConn, createdAt: int) {
    row.resumeAt != 0 && (if c.lastTurn.Some? then c.lastTurn.value else createdAt) <= row.resumeAt + 60_000
  }

  // The claw may be prompted: the feature is on, no turn runs or may run unseen, and nobody has
  // stopped it.
  predicate MayBePrompted(c: IdleConn, t: Tick, now: int) {
    && t.cfg.enabled && !c.busy && !c.noProgressPaused
    && (c.turnBoundarySeen || now - c.connectedAt >= 70 * 60 * 1000)
  }

  /** One tick latches a prompt if and only if the claw may be prompted and has been idle for the
      threshold, the stretch was not handled before, fewer than ten prompts are spent, the claw is
      eligible, its stretch began after the feature could see it, and the statement succeeds.  It
      parks one that began before.  Any other tick leaves the row or clears an old latch. */
  lemma PromptsExactlyWhen(s: State, t: Tick, createdAt: int, d: Drift)
    requires s.conn.Some? && s.injecting.None? && t.cfg.idleResumeAfter >= 60_000
    ensures var c, after := s.conn.value, Apply(s, WatchdogTick(t), createdAt, d);
      var start := if c.lastTurn.Some? && c.lastTurn.value > c.connectedAt then c.lastTurn.value else c.connectedAt;
      var due := && MayBePrompted(c, t, s.now) && IdleFor(c, s.now, t.cfg.idleResumeAfter)
                 && !Handled(s.row, c, createdAt) && s.row.resumeCount < 10 && t.eligible && t.latchOk;
      && (after.total > s.total <==> due && start >= t.cfg.baseline)
      && (after.total > s.total <==> after.injecting.Some?)
      && (due ==> after.row == IdleRow(start, s.row.resumeCount + (if start >= t.cfg.baseline then 1 else 0)))
      && (!due ==> after.row == s.row || (after.row == IdleRow(0, s.row.resumeCount) && t.clearOk
                                          && MayBePrompted(c, t, s.now) && !Handled(s.row, c, createdAt)))
      && after.conn == s.conn && after.injected == s.injected
  {
  }

  // ---------------------------------------------------------------- when no prompt may come

  // What steps other than ticks do to the row.
  function ResetsOf(row: IdleRow, steps: seq<Step>): IdleRow
    decreases |steps|
  {
    if steps == [] then row
    else match steps[0]
      case SessionLost => ResetsOf(IdleRow(0, 0), steps[1..])
      case SandboxReplaced => ResetsOf(IdleRow(0, 0), steps[1..])
      case CounterReset => ResetsOf(row.(resumeCount := 0), steps[1..])
      case _ => ResetsOf(row, steps[1..])
  }

  predicate Silent(s: State, after: State, steps: seq<Step>) {
    after.row == ResetsOf(s.row, steps) && after.total == s.total
  }

  predicate TurnRuns(s: State) {
    s.conn.Some? ==> s.conn.value.busy
  }

  predicate IsPaused(s: State) {
    s.conn.Some? ==> s.conn.value.noProgressPaused
  }

  // Until the given time no connection has been watched for seventy minutes.
  predicate IsBlind(s: State, until: int) {
    && s.now <= until
    && match s.conn
       case Some(c) => !c.turnBoundarySeen && c.connectedAt <= s.now && until - c.connectedAt < 70 * 60 * 1000
       case None => until - s.now < 70 * 60 * 1000
  }

  predicate NewConnection(step: Step) {
    step.Reconnects? || step.RegistersFresh?
  }

  lemma SilentStep(s: State, step: Step, createdAt: int, d: Drift)
    requires step.WatchdogTick? && s.conn.Some? ==> !MayBePrompted(s.conn.value, step.t, s.now)
    ensures var after := Apply(s, step, createdAt, d);
      after.total == s.total && after.row == ResetsOf(s.row, [step])
  {
    assert [step][1..] == [];
  }

  lemma ResetsFirst(row: IdleRow, steps: seq<Step>)
    requires steps != []
    ensures ResetsOf(row, steps) == ResetsOf(ResetsOf(row, [steps[0]]), steps[1..])
  {
    assert [steps[0]][1..] == [];
  }

  /** While a turn runs, from its begin until it ends or is aborted or the claw connects anew, no
      prompt is latched and nothing but a reset changes the row. */
  lemma {:induction false} NoPromptDuringTurn(s: State, steps: seq<Step>, createdAt: int, d: Drift)
    requires TurnRuns(s)
    requires forall i | 0 <= i < |steps| :: !steps[i].TurnEnds? && !steps[i].TurnAborts? && !NewConnection(steps[i])
    ensures Silent(s, RunFrom(s, steps, createdAt, d), steps) && TurnRuns(RunFrom(s, steps, createdAt, d))
    decreases |steps|
  {
    if steps != [] {
      assert !steps[0].TurnEnds?;
      SilentStep(s, steps[0], createdAt, d);
      ResetsFirst(s.row, steps);
      NoPromptDuringTurn(Apply(s, steps[0], createdAt, d), steps[1..], createdAt, d);
    }
  }

  // How a turn and a pause begin.
  lemma BeginsSilence(s: State, createdAt: int, d: Drift)
    ensures TurnRuns(Apply(s, TurnBegins, createdAt, d))
    ensures IsPaused(Apply(s, SetPaused(true), createdAt, d))
  {
  }

  /** Nor while the claw is paused, until the pause is lifted or it connects anew. */
  lemma {:induction false} NoPromptWhilePaused(s: State, steps: seq<Step>, createdAt: int, d: Drift)
    requires IsPaused(s)
    requires forall i | 0 <= i < |steps| :: steps[i] != SetPaused(false) && !NewConnection(steps[i])
    ensures Silent(s, RunFrom(s, steps, createdAt, d), steps) && IsPaused(RunFrom(s, steps, createdAt, d))
    decreases |steps|
  {
    if steps != [] {
      assert steps[0] != SetPaused(false);
      SilentStep(s, steps[0], createdAt, d);
      ResetsFirst(s.row, steps);
      NoPromptWhilePaused(Apply(s, steps[0], createdAt, d), steps[1..], createdAt, d);
    }
  }

  /** Nor while the feature is off. */
  lemma {:induction false} NoPromptWhileDisabled(s: State, steps: seq<Step>, createdAt: int, d: Drift)
    requires forall i | 0 <= i < |steps| && steps[i].WatchdogTick? :: !steps[i].t.cfg.enabled
    ensures Silent(s, RunFrom(s, steps, createdAt, d), steps)
    decreases |steps|
  {
    if steps != [] {
      assert steps[0].WatchdogTick? ==> !steps[0].t.cfg.enabled;
      SilentStep(s, steps[0], createdAt, d);
      ResetsFirst(s.row, steps);
      NoPromptWhileDisabled(Apply(s, steps[0], createdAt, d), steps[1..], createdAt, d);
    }
  }

  lemma {:induction false} TimePasses(s: State, steps: seq<Step>, createdAt: int, d: Drift)
    ensures s.now <= RunFrom(s, steps, createdAt, d).now
    decreases |steps|
  {
    if steps != [] { TimePasses(Apply(s, steps[0], createdAt, d), steps[1..], createdAt, d); }
  }

  /** Nor within seventy minutes of a connection, or of being disconnected, as long as no turn is
      seen to end, however often the claw connects anew in that time: a turn may be running
      unseen. */
  lemma {:induction false} NoPromptWhileBlind(s: State, steps: seq<Step>, createdAt: int, d: Drift)
    requires IsBlind(s, RunFrom(s, steps, createdAt, d).now)
    requires forall i | 0 <= i < |steps| :: !steps[i].TurnEnds?
    ensures Silent(s, RunFrom(s, steps, createdAt, d), steps)
    decreases |steps|
  {
    if steps != [] {
      var next := Apply(s, steps[0], createdAt, d);
      assert !steps[0].TurnEnds?;
      TimePasses(next, steps[1..], createdAt, d);
      SilentStep(s, steps[0], createdAt, d);
      ResetsFirst(s.row, steps);
      NoPromptWhileBlind(next, steps[1..], createdAt, d);
    }
  }

  /** A connection that takes over while a turn runs is blind in this sense, whatever was seen of the
      claw before: it prompts nothing for seventy minutes, unless it sees a turn end. */
  lemma ReconnectDuringTurnIsBlind(s: State, seed: Option<int>, steps: seq<Step>, createdAt: int, d: Drift)
    requires s.conn.Some? && s.conn.value.busy && SeedOk(seed, s.lastEnd, d)
    requires var again := Apply(s, Reconnects(seed), createdAt, d);
      RunFrom(again, steps, createdAt, d).now - s.now < 70 * 60 * 1000
    requires forall i | 0 <= i < |steps| :: !steps[i].TurnEnds?
    ensures var again := Apply(s, Reconnects(seed), createdAt, d);
      again.row == s.row && Silent(again, RunFrom(again, steps, createdAt, d), steps)
  {
    var again := Apply(s, Reconnects(seed), createdAt, d);
    TimePasses(again, steps, createdAt, d);
    NoPromptWhileBlind(again, steps, createdAt, d);
  }

  /** A turn that is aborted leaves no trace, and what the record of a connection knows of the last turn
      is not overridden when the claw connects again. */
  lemma AbortAndReconnectKeepTurns(s: State, a: Option<int>, b: Option<int>, createdAt: int, d: Drift)
    requires s.conn.Some? && SeedOk(a, s.lastEnd, d) && SeedOk(b, s.lastEnd, d)
    ensures !s.conn.value.busy ==> Apply(Apply(s, TurnBegins, createdAt, d), TurnAborts, createdAt, d) == s
    ensures s.conn.value.lastTurn.Some? ==>
      && Apply(s, Reconnects(a), createdAt, d) == Apply(s, Reconnects(b), createdAt, d)
      && Apply(s, Reconnects(a), createdAt, d).conn.value.lastTurn == s.conn.value.lastTurn
  {
  }
}
