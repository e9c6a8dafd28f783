/**
  Automatic replacement of a failed sandbox: the transaction that fails the current attempt and
  creates its successor, the bounded re-evaluation around it, and the choice of a checkpoint.

  Attempt rows are kept in insertion order and named by their position, so a fresh id is a new
  position.
*/
module ClawRetry {
  import opened Wrappers

  const MAX_CLAW_ATTEMPTS := 3
  const PREPARE_TRIES := 3
  const STOP_EVALUATIONS := 3      // the first one and one after each of the two delays

  datatype ClawStatus = Provisioning | Starting | Connected | Offline | Idle | Completed | Deleted | Error

  datatype Claw = Claw(status: ClawStatus, hasProvider: bool, hasRun: bool)

  datatype AttemptStatus = Running | Failed | Succeeded

  datatype Attempt = Attempt(number: nat, status: AttemptStatus)

  datatype RunRow = RunRow(current: nat, count: nat)

  // What the run's events and pull requests say: whether it is part of the analytics, needs a pull
  // request and has reported its task complete, its open, merged and all pull requests, and
  // whether one of its events is a failure.
  datatype RunFacts = RunFacts(analytics: bool, requiresPR: bool, completed: bool,
                               open: nat, merged: nat, all: nat, failure: bool)

  datatype Db = Db(claw: Option<Claw>, run: Option<RunRow>, attempts: seq<Attempt>, facts: RunFacts)

  datatype Disposition = NotApplicable | Scheduled | AlreadyHandled | Indeterminate

  // The statement of the transaction at which the database fails, counted from 1; 0 for none.
  // A busy failure is tried again at once, any other is reported.
  datatype Fault = Fault(at: nat, busy: bool)

  datatype Outcome = Done(disposition: Disposition) | Failure(busy: bool)

  predicate Protected(status: ClawStatus) {
    status == Idle || status == Completed || status == Deleted
  }

  predicate CurrentRuns(db: Db) {
    db.run.Some? && db.run.value.current < |db.attempts| && db.attempts[db.run.value.current].status == Running
  }

  // ---------------------------------------------------------------- the transaction

  // What the reads of the transaction decide.
  function Decision(db: Db): Disposition {
    if db.claw.None? then AlreadyHandled
    else if Protected(db.claw.value.status) then NotApplicable
    else if db.claw.value.status == Error then AlreadyHandled
    else if !db.claw.value.hasProvider || !db.claw.value.hasRun || db.run.None? then NotApplicable
    else if db.run.value.count >= MAX_CLAW_ATTEMPTS || !CurrentRuns(db) then NotApplicable
    else Scheduled
  }

  // How many statements run before the decision is known, counting the commit.
  function Statements(db: Db): nat {
    if db.claw.None? || Protected(db.claw.value.status) || db.claw.value.status == Error
       || !db.claw.value.hasProvider || !db.claw.value.hasRun then 2
    else if db.run.None? || db.run.value.count >= MAX_CLAW_ATTEMPTS then 3
    else if !CurrentRuns(db) then 4
    else 9
  }

  // The current attempt fails, its successor runs, and the claw is in error.
  function Succeed(db: Db): Db
    requires Decision(db) == Scheduled
  {
    var run := db.run.value;
    Db(Some(db.claw.value.(status := Error)),
       Some(RunRow(|db.attempts|, run.count + 1)),
       db.attempts[run.current := Attempt(db.attempts[run.current].number, Failed)] + [Attempt(run.count + 1, Running)],
       db.facts)
  }

  // prepareClawRetryOnce: all of it or, when a statement fails, nothing.
  function PrepareOnce(db: Db, retryable: bool, fault: Fault): (Db, Outcome) {
    if !retryable then (db, Done(NotApplicable))
    else if 1 <= fault.at <= Statements(db) then (db, Failure(fault.busy))
    else (if Decision(db) == Scheduled then Succeed(db) else db, Done(Decision(db)))
  }

  // prepareClawRetry: a busy database is tried again, at most three times in all.
  function Prepare(db: Db, retryable: bool, faults: seq<Fault>): (Db, Outcome)
    decreases |faults|
  {
    if faults == [] then (db, Failure(true))
    else
      var (after, outcome) := PrepareOnce(db, retryable, faults[0]);
      if outcome == Failure(true) && |faults| > 1 then Prepare(after, retryable, faults[1..])
      else (after, outcome)
  }

  // resolveClawStopDisposition over scheduleClawRetry: an indeterminate answer is asked again
  // after each delay, and counts as not applicable in the end.
  function Resolve(db: Db, retryable: bool, tries: seq<seq<Fault>>): (Db, Disposition)
    decreases |tries|
  {
    if tries == [] then (db, NotApplicable)
    else
      var (after, outcome) := Prepare(db, retryable, tries[0]);
      if outcome.Failure? then Resolve(after, retryable, tries[1..]) else (after, outcome.disposition)
  }

  // The status of an attempt that follows from its run's events and pull requests; an open pull
  // request keeps it running whatever has failed.
  function DerivedStatus(f: RunFacts): AttemptStatus {
    if !f.analytics then Failed
    else if !f.requiresPR && f.completed then Succeeded
    else if f.open > 0 then Running
    else if f.merged > 0 || f.all > 0 then Succeeded
    else if f.failure then Failed
    else Running
  }

  // Materialising a run writes the status of its current attempt.
  function Materialize(db: Db): Db {
    if db.run.None? || db.run.value.current >= |db.attempts| then db
    else
      var at := db.run.value.current;
      db.(attempts := db.attempts[at := Attempt(db.attempts[at].number, DerivedStatus(db.facts))])
  }

  // Storing an event of the run's claw, with what it changes, and materialising the run.
  function RecordEvent(db: Db, facts: RunFacts): Db {
    if db.claw.None? || !db.claw.value.hasRun || db.run.None? then db else Materialize(db.(facts := facts))
  }

  // What fails in a terminal stop: the first or the second try of its transaction, and the event.
  datatype StopFault = StopFault(first: bool, second: bool, eventLost: bool)

  predicate TransactionFails(f: StopFault) {
    f.first && f.second
  }

  predicate Ended(db: Db) {
    db.claw.None? || db.claw.value.status == Deleted || db.claw.value.status == Error
  }

  // stopAgentTerminalWithReason: it ends a claw that has not ended, then records that its agent
  // was stopped; an event that cannot be stored is lost.
  function TerminalStop(db: Db, fault: StopFault): Db {
    if Ended(db) || TransactionFails(fault) then db
    else
      var stopped := db.(claw := Some(db.claw.value.(status := Error)));
      if fault.eventLost then stopped else RecordEvent(stopped, stopped.facts.(failure := true))
  }

  function StopAgent(db: Db, retryable: bool, tries: seq<seq<Fault>>, fault: StopFault): (Db, Disposition) {
    var (after, disposition) := Resolve(db, retryable, tries);
    var left := disposition == Scheduled || disposition == AlreadyHandled;
    (if left then after else TerminalStop(after, fault), disposition)
  }

  // ---------------------------------------------------------------- the objects

  class RetryStore {
    var claw: Option<Claw>
    var run: Option<RunRow>
    var attempts: seq<Attempt>
    var facts: RunFacts

    constructor (db: Db)
      ensures View() == db
    {
      claw, run, attempts, facts := db.claw, db.run, db.attempts, db.facts;
    }

    function View(): Db
      reads this
    {
      Db(claw, run, attempts, facts)
    }

    method Rollback(saved: Db)
      modifies this
      ensures View() == saved
    {
      claw, run, attempts, facts := saved.claw, saved.run, saved.attempts, saved.facts;
    }

    method PrepareClawRetryOnce(retryable: bool, fault: Fault) returns (outcome: Outcome)
      modifies this
      ensures (View(), outcome) == PrepareOnce(old(View()), retryable, fault)
    {
      if !retryable { return Done(NotApplicable); }
      var saved := View();
      if fault.at == 1 || fault.at == 2 { return Failure(fault.busy); }
      if claw.None? { return Done(AlreadyHandled); }
      var c := claw.value;
      if Protected(c.status) { return Done(NotApplicable); }
      if c.status == Error { return Done(AlreadyHandled); }
      if !c.hasProvider || !c.hasRun { return Done(NotApplicable); }
      if fault.at == 3 { return Failure(fault.busy); }
      if run.None? { return Done(NotApplicable); }
      var current, count := run.value.current, run.value.count;
      if count >= MAX_CLAW_ATTEMPTS { return Done(NotApplicable); }
      if fault.at == 4 { return Failure(fault.busy); }
      if current >= |attempts| || attempts[current].status != Running { return Done(NotApplicable); }
      attempts := attempts[current := attempts[current].(status := Failed)];
      if fault.at == 5 { Rollback(saved); return Failure(fault.busy); }
      claw := Some(c.(status := Error));
      if fault.at == 6 { Rollback(saved); return Failure(fault.busy); }
      attempts := attempts + [Attempt(count + 1, Running)];
      if fault.at == 7 { Rollback(saved); return Failure(fault.busy); }
      run := Some(RunRow(|attempts| - 1, count + 1));
      if fault.at == 8 || fault.at == 9 { Rollback(saved); return Failure(fault.busy); }
      return Done(Scheduled);
    }

    method PrepareClawRetry(retryable: bool, faults: seq<Fault>) returns (outcome: Outcome)
      requires |faults| == PREPARE_TRIES
      modifies this
      ensures (View(), outcome) == Prepare(old(View()), retryable, faults)
    {
      var i := 0;
      outcome := Failure(true);
      while i < PREPARE_TRIES
        invariant 0 <= i <= PREPARE_TRIES
        invariant i == PREPARE_TRIES ==> (View(), outcome) == Prepare(old(View()), retryable, faults)
        invariant i < PREPARE_TRIES ==>
          Prepare(View(), retryable, faults[i..]) == Prepare(old(View()), retryable, faults)
      {
        assert faults[i..][1..] == faults[i + 1..];
        outcome := PrepareClawRetryOnce(retryable, faults[i]);
        if outcome != Failure(true) { return; }
        i := i + 1;
      }
    }

    method StopAgentWithReason(retryable: bool, tries: seq<seq<Fault>>, fault: StopFault)
      returns (disposition: Disposition)
      requires |tries| == STOP_EVALUATIONS && forall i | 0 <= i < |tries| :: |tries[i]| == PREPARE_TRIES
      modifies this
      ensures (View(), disposition) == StopAgent(old(View()), retryable, tries, fault)
    {
      disposition := Indeterminate;
      var i := 0;
      while i < STOP_EVALUATIONS && disposition == Indeterminate
        invariant 0 <= i <= STOP_EVALUATIONS
        invariant disposition == Indeterminate ==>
          Resolve(View(), retryable, tries[i..]) == Resolve(old(View()), retryable, tries)
        invariant disposition != Indeterminate ==> (View(), disposition) == Resolve(old(View()), retryable, tries)
      {
        assert tries[i..][1..] == tries[i + 1..];
        var outcome := PrepareClawRetry(retryable, tries[i]);
        DoneIsDeterminate(retryable, tries[i]);
        disposition := if outcome.Failure? then Indeterminate else outcome.disposition;
        i := i + 1;
      }
      if disposition == Indeterminate { disposition := NotApplicable; }
      if disposition == Scheduled || disposition == AlreadyHandled { return; }
      StopAgentTerminal(fault);
    }

    method StopAgentTerminal(fault: StopFault)
      modifies this
      ensures View() == TerminalStop(old(View()), fault)
    {
      var applied := FinishClawTerminal(fault);
      if !applied { return; }
      if !fault.eventLost { RecordAgentStopped(); }
    }

    // finishClawTerminalTx: two tries; a claw that has ended is left alone.
    method FinishClawTerminal(fault: StopFault) returns (applied: bool)
      modifies `claw
      ensures applied == (!Ended(old(View())) && !TransactionFails(fault))
      ensures claw == if applied then Some(old(claw).value.(status := Error)) else old(claw)
    {
      for i := 0 to 2
        invariant claw == old(claw)
        invariant i == 1 ==> fault.first
        invariant i == 2 ==> TransactionFails(fault)
      {
        if if i == 0 then fault.first else fault.second { continue; }
        if claw.None? || claw.value.status == Deleted || claw.value.status == Error { return false; }
        claw := Some(claw.value.(status := Error));
        return true;
      }
      return false;
    }

    method RecordAgentStopped()
      modifies `attempts, `facts
      ensures View() == RecordEvent(old(View()), old(facts).(failure := true))
    {
      if claw.None? || !claw.value.hasRun || run.None? { return; }
      facts := facts.(failure := true);
      if run.value.current < |attempts| {
        attempts := attempts[run.value.current := attempts[run.value.current].(status := DerivedStatus(facts))];
      }
    }
  }

  lemma {:induction false} DoneIsDeterminate(retryable: bool, faults: seq<Fault>)
    ensures forall db: Db :: Prepare(db, retryable, faults).1 != Done(Indeterminate)
    decreases |faults|
  {
    if faults != [] { DoneIsDeterminate(retryable, faults[1..]); }
  }
}
