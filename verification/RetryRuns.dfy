/**
  Runs of sandbox recovery: detectors, delayed replacements, terminal stops, materialised
  events, hub restarts and status changes made elsewhere, in any order.
*/
module RetryRuns {
  import opened ClawRetry
  import opened Wrappers

  datatype State = State(
    db: Db,
    pending: seq<nat>,             // replacements waiting for their backoff, by attempt number
    scheduled: nat,                // replacements ever scheduled
    resets: nat)                   // times the claw was reset for a new sandbox

  datatype Step =
    | Detect(retryable: bool, fault: Fault)
    | Replace(i: nat)
    | ReplaceFails(i: nat, stop: StopFault)  // before the reset, so the claw is stopped instead
    | Stop(stop: StopFault)
    | EventStored(facts: RunFacts) // any event of the run, or a change of its pull requests
    | StatusChanges(status: ClawStatus)
    | HubRestarts

  const NO_FAULT := StopFault(false, false, false)

  predicate Resettable(db: Db) {
    db.claw.Some? && (db.claw.value.status == Error || db.claw.value.status == Offline)
  }

  function Settled(a: Attempt, number: nat): Attempt {
    if a.number == number && a.status == Running then Attempt(number, Failed) else a
  }

  // The claw changed state during the backoff: its successor attempt is settled.
  function Settle(db: Db, number: nat): Db {
    db.(attempts := seq(|db.attempts|, i requires 0 <= i < |db.attempts| => Settled(db.attempts[i], number)))
  }

  function SetStatus(db: Db, status: ClawStatus): Db {
    if db.claw.None? then db else db.(claw := Some(db.claw.value.(status := status)))
  }

  function Detected(s: State, retryable: bool, fault: Fault): State {
    var (db, outcome) := PrepareOnce(s.db, retryable, fault);
    if outcome == Done(Scheduled) then State(db, s.pending + [db.run.value.count], s.scheduled + 1, s.resets)
    else s.(db := db)
  }

  function Apply(s: State, step: Step): State {
    match step
    case Detect(retryable, fault) => Detected(s, retryable, fault)
    case Replace(i) =>
      if i >= |s.pending| then s
      else if Resettable(s.db) then
        State(SetStatus(s.db, Provisioning), Without(s.pending, i), s.scheduled, s.resets + 1)
      else State(Settle(s.db, s.pending[i]), Without(s.pending, i), s.scheduled, s.resets)
    case ReplaceFails(i, stop) =>
      if i >= |s.pending| then s
      else State(TerminalStop(s.db, stop), Without(s.pending, i), s.scheduled, s.resets)
    case Stop(stop) => s.(db := TerminalStop(s.db, stop))
    case EventStored(facts) => s.(db := Materialize(s.db.(facts := Later(s.db.facts, facts))))
    case StatusChanges(status) => s.(db := SetStatus(s.db, status))
    case HubRestarts => s.(pending := [])
  }

  // Events are never removed: what has completed or failed once stays so.
  function Later(before: RunFacts, after: RunFacts): RunFacts {
    after.(completed := before.completed || after.completed, failure := before.failure || after.failure)
  }

  // A claw whose run has just started, without events or pull requests.
  function Init(claw: Claw, analytics: bool, requiresPR: bool): State {
    State(Db(Some(claw), Some(RunRow(0, 1)), [Attempt(1, Running)],
             RunFacts(analytics, requiresPR, false, 0, 0, 0, false)),
          [], 0, 0)
  }

  function RunFrom(s: State, steps: seq<Step>): State
    decreases |steps|
  {
    if steps == [] then s else RunFrom(Apply(s, steps[0]), steps[1..])
  }

  // ---------------------------------------------------------------- the invariant

  predicate AttemptsOk(db: Db) {
    && db.run.Some? && db.run.value.count == |db.attempts| && db.run.value.current + 1 == |db.attempts|
    && 1 <= |db.attempts| <= MAX_CLAW_ATTEMPTS
    && (forall i | 0 <= i < |db.attempts| :: db.attempts[i].number == i + 1)
    && (forall i | 0 <= i < db.run.value.current :: db.attempts[i].status == Failed)
  }

  predicate PendingOk(pending: seq<nat>, count: nat) {
    && (forall i | 0 <= i < |pending| :: 2 <= pending[i] <= count)
    && (forall i, j | 0 <= i < j < |pending| :: pending[i] != pending[j])
  }

  predicate Inv(s: State) {
    && AttemptsOk(s.db)
    && s.scheduled + 1 == |s.db.attempts|
    && s.resets + |s.pending| <= s.scheduled
    && PendingOk(s.pending, |s.db.attempts|)
  }

  lemma WithoutOk(pending: seq<nat>, count: nat, i: nat)
    requires PendingOk(pending, count) && i < |pending|
    ensures PendingOk(Without(pending, i), count)
  {
    var rest := Without(pending, i);
    forall k | 0 <= k < |rest| ensures rest[k] == pending[if k < i then k else k + 1] {}
  }

  lemma DetectKeepsInv(s: State, retryable: bool, fault: Fault)
    requires Inv(s)
    ensures Inv(Detected(s, retryable, fault))
  {
    if PrepareOnce(s.db, retryable, fault).1 == Done(Scheduled) {
      assert AttemptsOk(Succeed(s.db));
    }
  }

  lemma AttemptsStep(db: Db, number: nat, stop: StopFault, facts: RunFacts)
    requires AttemptsOk(db)
    ensures AttemptsOk(Settle(db, number)) && AttemptsOk(TerminalStop(db, stop))
    ensures AttemptsOk(Materialize(db.(facts := facts)))
    ensures |Settle(db, number).attempts| == |TerminalStop(db, stop).attempts| == |db.attempts|
  {
  }

  lemma StepKeepsInv(s: State, step: Step)
    requires Inv(s)
    ensures Inv(Apply(s, step))
  {
    match step
    case Detect(retryable, fault) => DetectKeepsInv(s, retryable, fault);
    case Replace(i) =>
      if i < |s.pending| {
        WithoutOk(s.pending, |s.db.attempts|, i);
        AttemptsStep(s.db, s.pending[i], NO_FAULT, s.db.facts);
      }
    case ReplaceFails(i, stop) =>
      if i < |s.pending| {
        WithoutOk(s.pending, |s.db.attempts|, i);
        AttemptsStep(s.db, 0, stop, s.db.facts);
      }
    case Stop(stop) => AttemptsStep(s.db, 0, stop, s.db.facts);
    case EventStored(facts) => AttemptsStep(s.db, 0, NO_FAULT, Later(s.db.facts, facts));
    case _ =>
  }

  lemma {:induction false} RunKeepsInv(s: State, steps: seq<Step>)
    requires Inv(s)
    ensures Inv(RunFrom(s, steps))
    decreases |steps|
  {
    if steps != [] {
      StepKeepsInv(s, steps[0]);
      RunKeepsInv(Apply(s, steps[0]), steps[1..]);
    }
  }

  // ---------------------------------------------------------------- main results

  /** Recovery terminates: a run has attempts 1, 2, 3 at most, all but the current one have
      failed, and at most two replacements are ever scheduled, each resetting the claw at most
      once. */
  lemma RetriesAreBounded(claw: Claw, analytics: bool, requiresPR: bool, steps: seq<Step>)
    ensures var s := RunFrom(Init(claw, analytics, requiresPR), steps);
      && AttemptsOk(s.db) && s.scheduled + 1 == |s.db.attempts| <= 3 && s.resets <= s.scheduled <= 2
  {
    RunKeepsInv(Init(claw, analytics, requiresPR), steps);
  }

  /** At most one attempt of a run is running, and it is the current one. */
  lemma OnlyCurrentRuns(claw: Claw, analytics: bool, requiresPR: bool, steps: seq<Step>, i: nat)
    requires i < |RunFrom(Init(claw, analytics, requiresPR), steps).db.attempts|
    ensures var db := RunFrom(Init(claw, analytics, requiresPR), steps).db;
      db.attempts[i].status == Running ==> db.run == Some(RunRow(i, i + 1)) && i + 1 == |db.attempts|
  {
    RunKeepsInv(Init(claw, analytics, requiresPR), steps);
  }

  predicate ByDetectors(step: Step) {
    step.Detect? || step.Stop? || step.EventStored?
  }

  /** Once a claw is in error, waiting for its replacement, no number of further detectors and
      terminal stops consumes an attempt: the second detector finds the failure handled. */
  lemma {:induction false} SecondDetectorConsumesNothing(s: State, steps: seq<Step>)
    requires Inv(s) && s.db.claw.Some? && s.db.claw.value.status == Error
    requires forall i | 0 <= i < |steps| :: ByDetectors(steps[i])
    ensures var after := RunFrom(s, steps);
      && after.db.claw == s.db.claw && after.db.run == s.db.run && |after.db.attempts| == |s.db.attempts|
      && after.scheduled == s.scheduled && after.pending == s.pending
    decreases |steps|
  {
    if steps != [] {
      assert ByDetectors(steps[0]);
      StepKeepsInv(s, steps[0]);
      SecondDetectorConsumesNothing(Apply(s, steps[0]), steps[1..]);
    }
  }

  /** A retryable failure schedules a replacement exactly when the claw is provisioned for a run,
      has neither ended nor failed, its current attempt runs and fewer than three were made.  It is
      answered as handled when the claw is gone or already in error, and as not applicable otherwise. */
  lemma ScheduledExactlyWhen(claw: Claw, analytics: bool, requiresPR: bool, steps: seq<Step>, fault: Fault)
    ensures var db := RunFrom(Init(claw, analytics, requiresPR), steps).db;
      PrepareOnce(db, true, fault).1 == Done(Scheduled) <==>
        && db.claw.Some? && db.claw.value.status !in {Error, Idle, Completed, Deleted}
        && db.claw.value.hasProvider && db.claw.value.hasRun
        && 0 < |db.attempts| < 3 && db.attempts[|db.attempts| - 1].status == Running
        && !(1 <= fault.at <= 9)
    ensures var db := RunFrom(Init(claw, analytics, requiresPR), steps).db;
      fault.at == 0 ==>
        && PrepareOnce(db, true, fault).1.Done?
        && (PrepareOnce(db, true, fault).1 == Done(AlreadyHandled) <==>
              db.claw.None? || db.claw.value.status == Error)
  {
    RunKeepsInv(Init(claw, analytics, requiresPR), steps);
  }

  /** A replacement whose backoff has passed either resets the claw, exactly when it still is in
      error or offline, or settles the attempt it was made for. */
  lemma ReplacementResetsOrSettles(s: State, i: nat)
    requires Inv(s) && i < |s.pending|
    ensures var after := Apply(s, Replace(i));
      if Resettable(s.db) then
        after.resets == s.resets + 1 && after.db.claw.value.status == Provisioning && after.db.attempts == s.db.attempts
      else
        && after.resets == s.resets && after.db.claw == s.db.claw
        && after.db.attempts[s.pending[i] - 1].status != Running
        && (forall k | 0 <= k < |s.db.attempts| && k != s.pending[i] - 1 :: after.db.attempts[k] == s.db.attempts[k])
  {
  }

  // ---------------------------------------------------------------- one stop call

  lemma {:induction false} ResolveAtMostOnce(db: Db, retryable: bool, tries: seq<seq<Fault>>)
    ensures var (after, d) := Resolve(db, retryable, tries);
      && d != Indeterminate
      && (d == Scheduled ==> retryable && Decision(db) == Scheduled && after == Succeed(db))
      && (d != Scheduled ==> after == db)
      && (d == AlreadyHandled ==> Decision(db) == AlreadyHandled)
    decreases |tries|
  {
    if tries != [] {
      PrepareAtMostOnce(db, retryable, tries[0]);
      ResolveAtMostOnce(db, retryable, tries[1..]);
    }
  }

  lemma {:induction false} PrepareAtMostOnce(db: Db, retryable: bool, faults: seq<Fault>)
    ensures var (after, outcome) := Prepare(db, retryable, faults);
      && (outcome.Failure? ==> after == db)
      && (outcome.Done? && retryable ==> outcome.disposition == Decision(db))
      && (outcome.Done? && !retryable ==> outcome.disposition == NotApplicable)
      && (outcome == Done(Scheduled) ==> after == Succeed(db))
      && (outcome != Done(Scheduled) ==> after == db)
    decreases |faults|
  {
    if |faults| > 1 { PrepareAtMostOnce(db, retryable, faults[1..]); }
  }

  // A claw that may be replaced: provisioned for a run whose current attempt, one of at most two,
  // is running, and neither ended nor in error.
  predicate Replaceable(db: Db) {
    && db.claw.Some? && db.claw.value.status !in {Error, Idle, Completed, Deleted}
    && db.claw.value.hasProvider && db.claw.value.hasRun
    && db.run.Some? && db.run.value.count < 3 && db.run.value.current < |db.attempts|
    && db.attempts[db.run.value.current].status == Running
  }

  // One of the tries finds no fault, and those before it found the database busy.
  predicate GetsThrough(faults: seq<Fault>) {
    exists k | 0 <= k < |faults| ::
      !(1 <= faults[k].at <= 9) && forall j | 0 <= j < k :: 1 <= faults[j].at <= 9 && faults[j].busy
  }

  lemma {:induction false} PreparesExactlyWhen(db: Db, faults: seq<Fault>)
    requires Replaceable(db)
    ensures Prepare(db, true, faults).1 == Done(Scheduled) <==> GetsThrough(faults)
    ensures Prepare(db, true, faults).1 != Done(Scheduled) ==> Prepare(db, true, faults).1.Failure?
    ensures Prepare(db, true, faults).1.Failure? ==> Prepare(db, true, faults).0 == db
    decreases |faults|
  {
    if faults != [] && 1 <= faults[0].at <= 9 && faults[0].busy {
      var rest := faults[1..];
      PreparesExactlyWhen(db, rest);
      BusyGetsThrough(faults);
    }
  }

  lemma BusyGetsThrough(faults: seq<Fault>)
    requires faults != [] && 1 <= faults[0].at <= 9 && faults[0].busy
    ensures GetsThrough(faults) <==> GetsThrough(faults[1..])
  {
    var rest := faults[1..];
    if GetsThrough(rest) {
      var k :| 0 <= k < |rest| && !(1 <= rest[k].at <= 9)
               && forall j | 0 <= j < k :: 1 <= rest[j].at <= 9 && rest[j].busy;
      assert faults[k + 1] == rest[k];
    }
    if GetsThrough(faults) {
      var k :| 0 <= k < |faults| && !(1 <= faults[k].at <= 9)
               && forall j | 0 <= j < k :: 1 <= faults[j].at <= 9 && faults[j].busy;
      assert rest[k - 1] == faults[k];
    }
  }

  /** A stop call schedules a replacement if and only if the failure is retryable, the claw may be
      replaced, and in one of the evaluations the transaction gets through: a busy database is
      tried again within the evaluation, any other fault leaves it to the next one. */
  lemma {:induction false} StopSchedulesExactlyWhen(db: Db, retryable: bool, tries: seq<seq<Fault>>, fault: StopFault)
    ensures StopAgent(db, retryable, tries, fault).1 == Scheduled <==>
      retryable && Replaceable(db) && exists i | 0 <= i < |tries| :: GetsThrough(tries[i])
    decreases |tries|
  {
    ResolveAtMostOnce(db, retryable, tries);
    if retryable && Replaceable(db) && tries != [] {
      PreparesExactlyWhen(db, tries[0]);
      StopSchedulesExactlyWhen(db, retryable, tries[1..], fault);
      assert forall i | 1 <= i < |tries| :: tries[i] == tries[1..][i - 1];
    }
  }

  // An open pull request keeps the attempt running.
  predicate WaitsForMerge(f: RunFacts) {
    f.analytics && (f.requiresPR || !f.completed) && f.open > 0
  }

  /** One stop call, however often it is asked again, consumes one attempt exactly when it answers
      that a replacement is scheduled.  Afterwards the claw is gone, deleted or in error if and
      only if it was so before, a replacement is scheduled, or the terminal transaction did not
      fail twice. */
  lemma StopConsumesAtMostOne(db: Db, retryable: bool, tries: seq<seq<Fault>>, fault: StopFault)
    ensures var (after, d) := StopAgent(db, retryable, tries, fault);
      && |after.attempts| == |db.attempts| + (if d == Scheduled then 1 else 0)
      && (Ended(after) <==> Ended(db) || d == Scheduled || !TransactionFails(fault))
  {
    ResolveAtMostOnce(db, retryable, tries);
  }

  // What an attempt has come to when it runs no more: the run was excluded from the analytics, or
  // neither reported its task complete without needing a pull request nor had one.
  predicate Lost(f: RunFacts) {
    !f.analytics || ((f.requiresPR || !f.completed) && f.merged == 0 && f.all == 0)
  }

  /** After an event of the run its current attempt has succeeded if and only if the run counts and
      either is complete without needing a pull request or has none open and one merged or closed;
      it has failed if and only if the run does not count or, with nothing of that and no pull
      request at all, a failure was reported.  In all other cases it runs. */
  lemma EventDecidesAttempt(claw: Claw, analytics: bool, requiresPR: bool, steps: seq<Step>, now: RunFacts)
    ensures var db := RunFrom(Init(claw, analytics, requiresPR), steps).db;
      var after := Apply(RunFrom(Init(claw, analytics, requiresPR), steps), EventStored(now)).db;
      var complete, failure := db.facts.completed || now.completed, db.facts.failure || now.failure;
      && |after.attempts| == |db.attempts| > 0
      && (after.attempts[|db.attempts| - 1].status == Succeeded <==>
            now.analytics
            && ((!now.requiresPR && complete) || (now.open == 0 && (now.merged > 0 || now.all > 0))))
      && (after.attempts[|db.attempts| - 1].status == Failed <==>
            !now.analytics
            || ((now.requiresPR || !complete) && now.open == 0 && now.merged == 0 && now.all == 0 && failure))
      && (forall i | 0 <= i < |db.attempts| - 1 :: after.attempts[i] == db.attempts[i])
  {
    RunKeepsInv(Init(claw, analytics, requiresPR), steps);
  }

  /** An attempt that has succeeded stays so, and is the last one of its run, whatever detectors,
      stops, replacements and restarts follow, until an event of the run is stored. */
  lemma {:induction false} SuccessIsKept(s: State, steps: seq<Step>)
    requires Inv(s) && s.db.attempts[|s.db.attempts| - 1].status == Succeeded
    requires s.db.facts.analytics
    requires (!s.db.facts.requiresPR && s.db.facts.completed)
             || (s.db.facts.open == 0 && (s.db.facts.merged > 0 || s.db.facts.all > 0))
    requires forall i | 0 <= i < |steps| :: !steps[i].EventStored?
    ensures RunFrom(s, steps).db.attempts == s.db.attempts
    decreases |steps|
  {
    if steps != [] {
      StepKeepsInv(s, steps[0]);
      SuccessStep(s, steps[0]);
      SuccessIsKept(Apply(s, steps[0]), steps[1..]);
    }
  }

  lemma SuccessStep(s: State, step: Step)
    requires Inv(s) && s.db.attempts[|s.db.attempts| - 1].status == Succeeded && !step.EventStored?
    requires s.db.facts.analytics
    requires (!s.db.facts.requiresPR && s.db.facts.completed)
             || (s.db.facts.open == 0 && (s.db.facts.merged > 0 || s.db.facts.all > 0))
    ensures var after := Apply(s, step).db;
      after.attempts == s.db.attempts && after.facts == s.db.facts.(failure := after.facts.failure)
  {
  }

  /** In a run, a stop that is not a detector's ends the claw, if it had not ended, unless its
      transaction fails twice, and consumes no attempt. */
  lemma StopEndsClaw(claw: Claw, analytics: bool, requiresPR: bool, steps: seq<Step>, stop: StopFault)
    ensures var s := RunFrom(Init(claw, analytics, requiresPR), steps); var after := Apply(s, Stop(stop));
      && |after.db.attempts| == |s.db.attempts| && after.pending == s.pending && after.scheduled == s.scheduled
      && (after.db.claw != s.db.claw <==>
            && s.db.claw.Some? && s.db.claw.value.status != Error && s.db.claw.value.status != Deleted
            && !(stop.first && stop.second))
      && (after.db.claw != s.db.claw ==> after.db.claw.value.status == Error)
  {
    RunKeepsInv(Init(claw, analytics, requiresPR), steps);
    var db := RunFrom(Init(claw, analytics, requiresPR), steps).db;
    AttemptsStep(db, 0, stop, db.facts);
  }

  // A stop that ends the claw settles its attempt: the event is stored for a run and no open pull
  // request keeps the attempt running.
  predicate Settles(db: Db, fault: StopFault) {
    !Ended(db) && !TransactionFails(fault) && !fault.eventLost && db.claw.value.hasRun && !WaitsForMerge(db.facts)
  }

  /** A stop call that schedules no replacement settles a running attempt if and only if the claw
      had not ended, the terminal transaction succeeds, the event is stored for a run, and no
      open pull request keeps the attempt running.  The attempt has then failed, unless the run
      is complete without needing a pull request or has one that was merged or closed. */
  lemma StopSettlesExactlyWhen(db: Db, retryable: bool, tries: seq<seq<Fault>>, fault: StopFault)
    requires CurrentRuns(db)
    ensures var (after, d) := StopAgent(db, retryable, tries, fault);
      && (!CurrentRuns(after) <==> d != Scheduled && Settles(db, fault))
      && db.run.value.current < |after.attempts|
      && (d != Scheduled && Settles(db, fault) ==>
            after.attempts[db.run.value.current].status == if Lost(db.facts) then Failed else Succeeded)
  {
    ResolveAtMostOnce(db, retryable, tries);
  }

  /** A run that is stopped for good and keeps running: a connected claw with an open pull request,
      whatever happens in the database. */
  lemma OpenPRKeepsAttemptRunning(claw: Claw, prs: nat, stop: StopFault)
    requires prs > 0
    ensures var s := RunFrom(Init(claw, true, true),
                             [EventStored(RunFacts(true, true, false, prs, 0, prs, false)), Stop(stop)]);
      CurrentRuns(s.db)
  {
    var s0, opens := Init(claw, true, true), EventStored(RunFacts(true, true, false, prs, 0, prs, false));
    TwoSteps(s0, opens, Stop(stop));
    assert CurrentRuns(Apply(s0, opens).db);
  }

  lemma TwoSteps(s: State, first: Step, second: Step)
    ensures RunFrom(s, [first, second]) == Apply(Apply(s, first), second)
  {
    assert [first, second][1..] == [second] && [second][1..] == [];
    assert RunFrom(Apply(s, first), [second]) == Apply(Apply(s, first), second);
  }

  // ---------------------------------------------------------------- a failed replacement

  /** When the replacement itself fails before the reset, the successor attempt is settled exactly
      when the claw has left the error state, the terminal transaction succeeds, the event is
      stored for a run and no pull request is open; a claw still in error keeps an attempt that
      runs until an event of the run settles it. */
  lemma FailedReplacementSettlesExactlyWhen(s: State, i: nat, stop: StopFault)
    requires Inv(s) && i < |s.pending| && CurrentRuns(s.db)
    ensures !CurrentRuns(Apply(s, ReplaceFails(i, stop)).db) <==>
      && s.db.claw.Some? && s.db.claw.value.status != Error && s.db.claw.value.status != Deleted
      && !(stop.first && stop.second)
      && !stop.eventLost && s.db.claw.value.hasRun
      && !WaitsForMerge(s.db.facts)
  {
  }

  /** Such a run: the replacement of a connected claw fails at once, and no detector and no stop
      settles the attempt. */
  lemma FailedReplacementLeavesAttemptRunning(more: seq<Step>, stop: StopFault)
    requires forall i | 0 <= i < |more| :: more[i].Detect? || more[i].Stop?
    ensures var steps := [Detect(true, Fault(0, false)), ReplaceFails(0, stop)];
      var s := RunFrom(Init(Claw(Connected, true, true), true, true), steps);
      CurrentRuns(RunFrom(s, more).db) && RunFrom(s, more).pending == []
  {
    var s0, detects := Init(Claw(Connected, true, true), true, true), Detect(true, Fault(0, false));
    var s1 := Apply(s0, detects);
    assert s1.pending == [2];
    var s2 := Apply(s1, ReplaceFails(0, stop));
    assert s2.db.attempts == [Attempt(1, Failed), Attempt(2, Running)];
    TwoSteps(s0, detects, ReplaceFails(0, stop));
    StuckInError(s2, more);
  }

  lemma {:induction false} StuckInError(s: State, steps: seq<Step>)
    requires s.db.claw.Some? && s.db.claw.value.status == Error
    requires forall i | 0 <= i < |steps| :: steps[i].Detect? || steps[i].Stop?
    ensures RunFrom(s, steps) == s
    decreases |steps|
  {
    if steps != [] {
      assert steps[0].Detect? || steps[0].Stop?;
      assert Apply(s, steps[0]) == s;
      StuckInError(s, steps[1..]);
    }
  }
}
