/**
  The pause after repeated bridge transport errors and its bounded automatic recovery.

  A claw has a durable row and, while its bridge is connected, an in-memory connection record.
  The row is the authority; the connection carries a copy of the pause and the gateway health
  seen on that connection.
*/
module BridgeErrorPause {
  import opened Wrappers

  // Why a pause was latched.  Untagged pauses are those the automatic recovery never lifts.
  datatype PauseKind = Untagged | Gateway | ProviderTransient | ModelTransport

  datatype PauseRow = PauseRow(paused: bool, kind: PauseKind, autoResumes: nat)

  datatype PauseConn = PauseConn(
    paused: bool,
    kind: PauseKind,
    errorStreak: nat,
    healthySince: Option<int>,
    busy: bool,
    providerLimited: bool,
    subagentsActiveAt: Option<int>)

  datatype Pause = Pause(row: PauseRow, conn: Option<PauseConn>)

  // One failed turn, by what its error text matches; the matches may overlap.
  datatype ErrorTurn = ErrorTurn(definite: bool, modelTransport: bool, providerTransient: bool,
                                 gatewayConnectivity: bool)

  const PAUSE_THRESHOLD := 2
  const GATEWAY_HEALTHY_MS := 180_000
  const MODEL_RETRY_DELAYS := [60_000, 180_000, 600_000]
  const SUBAGENTS_FRESH_MS := 45_000

  function Limit(kind: PauseKind): nat {
    match kind
    case ModelTransport => |MODEL_RETRY_DELAYS|
    case ProviderTransient => 5
    case _ => 2
  }

  // ---------------------------------------------------------------- observing failed turns

  function KindOf(e: ErrorTurn): PauseKind {
    if e.modelTransport then ModelTransport
    else if e.providerTransient then ProviderTransient
    else if e.gatewayConnectivity then Gateway
    else Untagged
  }

  function Threshold(e: ErrorTurn): nat {
    if e.definite && e.providerTransient then 1 else PAUSE_THRESHOLD
  }

  function CountError(c: PauseConn, e: ErrorTurn): PauseConn {
    if e.definite then c.(errorStreak := c.errorStreak + 1) else c
  }

  // The streak update, and the kind to pause with when the threshold is reached.
  function ObserveError(conn: Option<PauseConn>, e: ErrorTurn): (Option<PauseConn>, Option<PauseKind>) {
    match conn
    case None => (None, None)
    case Some(c) =>
      var counted := CountError(c, e);
      (Some(counted),
       if c.paused || counted.errorStreak < Threshold(e) then None else Some(KindOf(e)))
  }

  // pauseAutomaticContinuation: only an unpaused claw is paused, and the health window restarts; a
  // statement that fails pauses nothing.
  function CommitPause(p: Pause, kind: PauseKind, ok: bool): Pause {
    if p.row.paused || !ok then p
    else
      Pause(p.row.(paused := true, kind := kind),
            if p.conn.None? then None else Some(p.conn.value.(paused := true, kind := kind, healthySince := None)))
  }

  // ---------------------------------------------------------------- health and lifting

  function ObserveHealth(c: PauseConn, healthyAndReady: bool, now: int): PauseConn {
    if !healthyAndReady then c.(healthySince := None)
    else if c.healthySince.None? then c.(healthySince := Some(now))
    else c
  }

  predicate HealthyFor(c: PauseConn, now: int, ms: int) {
    c.healthySince.Some? && now - c.healthySince.value >= ms
  }

  function LiftKindDue(c: PauseConn, now: int): PauseKind {
    if !c.paused then Untagged
    else match c.kind
      case ModelTransport =>
        if c.busy || c.providerLimited
           || (c.subagentsActiveAt.Some? && now - c.subagentsActiveAt.value < SUBAGENTS_FRESH_MS) then Untagged
        else if HealthyFor(c, now, MODEL_RETRY_DELAYS[0]) then ModelTransport
        else Untagged
      case ProviderTransient => ProviderTransient
      case Gateway => if HealthyFor(c, now, GATEWAY_HEALTHY_MS) then Gateway else Untagged
      case Untagged => Untagged
  }

  // A model transport retry waits for the delay of its position in the budget.
  predicate ModelDelayPending(row: PauseRow, c: PauseConn, now: int) {
    row.autoResumes < |MODEL_RETRY_DELAYS| && !HealthyFor(c, now, MODEL_RETRY_DELAYS[row.autoResumes])
  }

  // The row still is this pause and the budget is not spent.
  predicate LiftAllowed(row: PauseRow, kind: PauseKind) {
    row.paused && row.kind == kind && row.autoResumes < Limit(kind)
  }

  // Which statement of a lift fails: reading the budget or the guarded update.
  datatype LiftFault = LiftFault(readFails: bool, updateFails: bool)

  // maybeLiftBridgeErrorPause, under the lock that serialises it with every pause and resume.
  function MaybeLift(p: Pause, now: int, fault: LiftFault): Pause {
    if p.conn.None? then p
    else
      var c := p.conn.value;
      var kind := LiftKindDue(c, now);
      if kind == Untagged then p
      else if kind == ModelTransport && (fault.readFails || ModelDelayPending(p.row, c, now)) then p
      else if fault.updateFails then p
      else if LiftAllowed(p.row, kind) then
        Pause(PauseRow(false, Untagged, p.row.autoResumes + 1),
              Some(c.(paused := false, kind := Untagged, errorStreak := 0)))
      else if kind == Gateway then p
      else p.(conn := Some(c.(kind := Untagged)))
  }

  predicate Lifts(p: Pause, now: int, fault: LiftFault) {
    p.conn.Some? && MaybeLift(p, now, fault).row.autoResumes == p.row.autoResumes + 1
  }

  // ---------------------------------------------------------------- other writers

  // resumeNoProgressAfterUserInput: every input that counts as new material lifts every pause,
  // unless the statement fails.
  function ResumeAfterInput(p: Pause, ok: bool): Pause {
    if !ok then p
    else Pause(if p.row.paused then p.row.(paused := false, kind := Untagged) else p.row,
               if p.conn.None? then None else Some(p.conn.value.(paused := false, kind := Untagged, errorStreak := 0)))
  }

  // The no-progress watchdog: the same latch without a kind.
  function NoProgressPause(p: Pause, ok: bool): Pause {
    if p.row.paused || !ok then p
    else Pause(p.row.(paused := true), if p.conn.None? then None else Some(p.conn.value.(paused := true)))
  }

  function AuthoredTurn(p: Pause): Pause {
    if p.conn.None? then p else p.(conn := Some(p.conn.value.(errorStreak := 0)))
  }

  // Registration copies the pause from the row and starts without any health history.
  function Register(p: Pause, limited: bool): Pause {
    var kind := if p.row.paused then p.row.kind else Untagged;
    p.(conn := Some(PauseConn(p.row.paused, kind, 0, None, false, limited, None)))
  }

  function StageTransition(p: Pause): Pause {
    p.(row := p.row.(autoResumes := 0))
  }

  // resetClawForRetry: a tagged pause blamed the sandbox that is being replaced.
  function SandboxReset(p: Pause): Pause {
    p.(row := PauseRow(if p.row.kind != Untagged then false else p.row.paused, Untagged, 0))
  }

  // ---------------------------------------------------------------- the objects

  class ClawConn {
    var noProgressPaused: bool
    var bridgeErrorPauseKind: PauseKind
    var bridgeErrorStreak: nat
    var gatewayHealthySince: Option<int>
    var busy: bool
    var llmLimited: bool
    var subagentsActiveAt: Option<int>

    constructor (paused: bool, kind: PauseKind, limited: bool)
      ensures View() == PauseConn(paused, kind, 0, None, false, limited, None)
    {
      noProgressPaused, bridgeErrorPauseKind, bridgeErrorStreak := paused, kind, 0;
      gatewayHealthySince, busy, llmLimited, subagentsActiveAt := None, false, limited, None;
    }

    function View(): PauseConn
      reads this
    {
      PauseConn(noProgressPaused, bridgeErrorPauseKind, bridgeErrorStreak, gatewayHealthySince, busy,
                llmLimited, subagentsActiveAt)
    }

    method ObserveGatewayHealth(healthyAndReady: bool, now: int)
      modifies this
      ensures View() == ObserveHealth(old(View()), healthyAndReady, now)
    {
      if !healthyAndReady {
        gatewayHealthySince := None;
      } else if gatewayHealthySince.None? {
        gatewayHealthySince := Some(now);
      }
    }
  }

  class HubPause {
    var row: PauseRow
    var conn: ClawConn?

    constructor (r: PauseRow)
      ensures View() == Pause(r, None)
    {
      row, conn := r, null;
    }

    function View(): Pause
      reads this, conn
    {
      Pause(row, if conn == null then None else Some(conn.View()))
    }

    method PauseAutomaticContinuation(kind: PauseKind, ok: bool) returns (changed: bool)
      modifies this, conn
      ensures conn == old(conn)
      ensures View() == CommitPause(old(View()), kind, ok) && changed == (ok && !old(row.paused))
    {
      changed := ok && !row.paused;
      if changed {
        row := row.(paused := true, kind := kind);
        if conn != null {
          conn.noProgressPaused := true;
          conn.bridgeErrorPauseKind := kind;
          conn.gatewayHealthySince := None;
        }
      }
    }

    method MaybeLiftBridgeErrorPause(now: int, fault: LiftFault) returns (lifted: bool)
      modifies this, conn
      ensures conn == old(conn)
      ensures View() == MaybeLift(old(View()), now, fault)
      ensures lifted == Lifts(old(View()), now, fault)
    {
      if conn == null { return false; }
      var kind := LiftKindDue(conn.View(), now);
      if kind == Untagged { return false; }
      if kind == ModelTransport {
        if fault.readFails { return false; }
        if row.autoResumes < |MODEL_RETRY_DELAYS| {
          var delay := MODEL_RETRY_DELAYS[row.autoResumes];
          if conn.gatewayHealthySince.None? || now - conn.gatewayHealthySince.value < delay { return false; }
        }
      }
      if fault.updateFails { return false; }
      if row.paused && row.kind == kind && row.autoResumes < Limit(kind) {
        row := PauseRow(false, Untagged, row.autoResumes + 1);
        conn.noProgressPaused, conn.bridgeErrorPauseKind, conn.bridgeErrorStreak := false, Untagged, 0;
        return true;
      }
      if kind == ProviderTransient || kind == ModelTransport {
        conn.bridgeErrorPauseKind := Untagged;
      }
      return false;
    }

    // The pause half of observeBridgeErrorTurn; the immediate lift of a provider pause follows it.
    method ObserveBridgeErrorTurn(e: ErrorTurn, now: int, pauseOk: bool, lift: LiftFault) returns (paused: bool)
      modifies this, conn
      ensures conn == old(conn)
      ensures var (observed, kind) := ObserveError(old(View()).conn, e);
        View() == if kind.None? then Pause(old(row), observed)
                  else
                    var latched := CommitPause(Pause(old(row), observed), kind.value, pauseOk);
                    if kind.value == ProviderTransient && pauseOk && !old(row.paused) then MaybeLift(latched, now, lift)
                    else latched
      ensures paused <==>
        (old(View()).conn.Some? && old(View()).conn.value.paused) || ObserveError(old(View()).conn, e).1.Some?
    {
      if conn == null { return false; }
      var alreadyPaused := conn.noProgressPaused;
      if e.definite {
        conn.bridgeErrorStreak := conn.bridgeErrorStreak + 1;
      }
      if alreadyPaused { return true; }
      if conn.bridgeErrorStreak < Threshold(e) { return false; }
      var kind := KindOf(e);
      var changed := PauseAutomaticContinuation(kind, pauseOk);
      if changed && kind == ProviderTransient {
        var lifted := MaybeLiftBridgeErrorPause(now, lift);
      }
      return true;
    }
  }
}
