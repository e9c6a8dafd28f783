/**
  Runs of bootstraps that restore a staged checkpoint: crashes at any point, also in the middle
  of a write, and edits of the home directory between bootstraps.
*/
module RestoreRuns {
  import opened CheckpointRestore
  import opened Wrappers

  datatype Phase = Stopped | Opening(i: nat) | Writing(i: nat, written: nat) | Changing(i: nat)

  datatype State = State(
    files: map<string, File>,
    marker: bool,
    phase: Phase,
    edited: map<string, File>)     // history: the home directory with the edits alone

  datatype Step =
    | Bootstraps
    | Proceeds(bytes: nat)         // the next call to the file system; a write takes so many bytes
    | Crashes                      // or a call to the file system fails
    // between restores: by earlier parts of a bootstrap, later by the agent
    | Edits(path: string, file: File)
    | Removes(path: string)

  function SetContent(s: State, target: string, content: Bytes, mode: int, phase: Phase): State {
    var kept := if target in s.files then s.files[target].mode else mode;
    s.(files := s.files[target := File(content, kept)], phase := phase)
  }

  function Proceed(c: Checkpoint, s: State, bytes: nat): State
    requires Valid(c)
  {
    match s.phase
    case Stopped => s
    case Opening(i) =>
      if i >= |c.files| then s.(marker := false, phase := Stopped)
      else if !Passes(s.files, c, i) then s.(phase := Stopped)
      else (match ActionFor(c, i)
        case Overlay(target, file) => SetContent(s, target, [], file.mode, Writing(i, 0))
        case _ => s.(phase := Opening(i + 1)))
    case Writing(i, written) =>
      if i >= |c.files| || !ActionFor(c, i).Overlay? then s
      else
        var a := ActionFor(c, i);
        var n := if written + bytes < |a.file.content| then written + bytes else |a.file.content|;
        var phase := if n == |a.file.content| then Changing(i) else Writing(i, n);
        SetContent(s, a.target, a.file.content[..n], a.file.mode, phase)
    case Changing(i) =>
      if i >= |c.files| || !ActionFor(c, i).Overlay? then s
      else s.(files := s.files[ActionFor(c, i).target := ActionFor(c, i).file], phase := Opening(i + 1))
  }

  function Apply(c: Checkpoint, s: State, step: Step): State
    requires Valid(c)
  {
    match step
    case Bootstraps => if s.phase.Stopped? && s.marker then s.(phase := Opening(0)) else s
    case Proceeds(bytes) => Proceed(c, s, bytes)
    case Crashes => s.(phase := Stopped)
    case Edits(path, file) =>
      if s.phase.Stopped? then s.(files := s.files[path := file], edited := s.edited[path := file]) else s
    case Removes(path) =>
      if s.phase.Stopped? then s.(files := s.files - {path}, edited := s.edited - {path}) else s
  }

  function RunFrom(c: Checkpoint, s: State, steps: seq<Step>): State
    requires Valid(c)
    decreases |steps|
  {
    if steps == [] then s else RunFrom(c, Apply(c, s, steps[0]), steps[1..])
  }

  function Begin(home: map<string, File>): State {
    State(home, true, Stopped, home)
  }

  function Run(c: Checkpoint, home: map<string, File>, steps: seq<Step>): State
    requires Valid(c)
  {
    RunFrom(c, Begin(home), steps)
  }

  // ---------------------------------------------------------------- the invariant, path by path

  // The file that the restore is in the middle of writing.
  predicate InProgress(c: Checkpoint, phase: Phase, p: string)
    requires Valid(c)
  {
    (phase.Writing? || phase.Changing?) && WritesTo(c, phase.i, p)
  }

  predicate NoneRefused(c: Checkpoint, i: nat)
    requires Valid(c) && i <= |c.files|
  {
    forall k | 0 <= k < i :: !ActionFor(c, k).Refuse?
  }

  predicate PhaseOk(c: Checkpoint, s: State)
    requires Valid(c)
  {
    && (!s.marker ==> s.phase.Stopped? && Restorable(c))
    && (!s.phase.Stopped? ==>
          && s.phase.i <= |c.files| && NoneRefused(c, s.phase.i)
          && (s.phase.Opening? || (s.phase.i < |c.files| && ActionFor(c, s.phase.i).Overlay?)))
  }

  // What is no target is as the edits left it; files before the current one are restored.
  predicate PathOk(c: Checkpoint, s: State, p: string)
    requires Valid(c) && PhaseOk(c, s)
  {
    && (!TargetBefore(c, |c.files|, p) ==> At(s.files, p) == At(s.edited, p))
    && (!s.phase.Stopped? && TargetBefore(c, s.phase.i, p) && !InProgress(c, s.phase, p) ==>
          At(s.files, p) == At(Restored(s.edited, c, s.phase.i), p))
  }

  lemma OpenKeepsPath(c: Checkpoint, s: State, p: string, bytes: nat)
    requires Valid(c) && PhaseOk(c, s) && PathOk(c, s, p) && s.phase.Opening?
    ensures PhaseOk(c, Proceed(c, s, bytes)) && PathOk(c, Proceed(c, s, bytes), p)
  {
    var i := s.phase.i;
    if i < |c.files| {
      TargetNext(c, i, p);
      RestoredNext(s.edited, c, i, p);
      assert ActionFor(c, i).Overlay? || ActionFor(c, i).Refuse? || NoneRefused(c, i + 1);
    }
  }

  lemma WriteKeepsPath(c: Checkpoint, s: State, p: string, bytes: nat)
    requires Valid(c) && PhaseOk(c, s) && PathOk(c, s, p) && s.phase.Writing?
    ensures PhaseOk(c, Proceed(c, s, bytes)) && PathOk(c, Proceed(c, s, bytes), p)
  {
    TargetNext(c, s.phase.i, p);
  }

  lemma ChangeKeepsPath(c: Checkpoint, s: State, p: string, bytes: nat)
    requires Valid(c) && PhaseOk(c, s) && PathOk(c, s, p) && s.phase.Changing?
    ensures PhaseOk(c, Proceed(c, s, bytes)) && PathOk(c, Proceed(c, s, bytes), p)
  {
    TargetNext(c, s.phase.i, p);
    RestoredNext(s.edited, c, s.phase.i, p);
  }

  lemma StepKeepsPath(c: Checkpoint, s: State, step: Step, p: string)
    requires Valid(c) && PhaseOk(c, s) && PathOk(c, s, p)
    ensures PhaseOk(c, Apply(c, s, step)) && PathOk(c, Apply(c, s, step), p)
  {
    if step.Proceeds? && s.phase.Opening? {
      OpenKeepsPath(c, s, p, step.bytes);
    } else if step.Proceeds? && s.phase.Writing? {
      WriteKeepsPath(c, s, p, step.bytes);
    } else if step.Proceeds? && s.phase.Changing? {
      ChangeKeepsPath(c, s, p, step.bytes);
    }
  }

  lemma {:induction false} RunKeepsPath(c: Checkpoint, s: State, steps: seq<Step>, p: string)
    requires Valid(c) && PhaseOk(c, s) && PathOk(c, s, p)
    ensures PhaseOk(c, RunFrom(c, s, steps)) && PathOk(c, RunFrom(c, s, steps), p)
    decreases |steps|
  {
    if steps != [] {
      StepKeepsPath(c, s, steps[0], p);
      RunKeepsPath(c, Apply(c, s, steps[0]), steps[1..], p);
    }
  }

  // ---------------------------------------------------------------- what a restore leaves

  lemma SameEverywhere(a: map<string, File>, b: map<string, File>)
    requires forall p :: At(a, p) == At(b, p)
    ensures a == b
  {
    forall p ensures p in a <==> p in b { assert At(a, p) == At(b, p); }
    forall p | p in a ensures a[p] == b[p] { assert At(a, p) == At(b, p); }
  }

  /** However often the restore crashes, also in the middle of a write, and whatever is edited
      before each bootstrap: the step that removes the marker leaves every target as one
      uninterrupted restore makes it and every other path as the edits left it, and nothing was
      refused. */
  lemma CrashesDoNotMatter(c: Checkpoint, home: map<string, File>, steps: seq<Step>, last: Step)
    requires Valid(c)
    requires Run(c, home, steps).marker && !Apply(c, Run(c, home, steps), last).marker
    ensures var after := Apply(c, Run(c, home, steps), last);
      Restorable(c) && after.files == Restored(after.edited, c, |c.files|)
  {
    var s := Run(c, home, steps);
    var after := Apply(c, s, last);
    forall p ensures At(after.files, p) == At(Restored(after.edited, c, |c.files|), p) {
      RunKeepsPath(c, Begin(home), steps, p);
      RestoredAt(s.edited, c, |c.files|, p);
    }
    RunKeepsPath(c, Begin(home), steps, "");
    SameEverywhere(after.files, Restored(after.edited, c, |c.files|));
  }

  /** At every moment, crashed or not, a file that the manifest does not name is as the edits left
      it. */
  lemma OthersUntouched(c: Checkpoint, home: map<string, File>, steps: seq<Step>, p: string)
    requires Valid(c) && !TargetBefore(c, |c.files|, p)
    ensures At(Run(c, home, steps).files, p) == At(Run(c, home, steps).edited, p)
  {
    RunKeepsPath(c, Begin(home), steps, p);
  }

  // The edits alone, without any bootstrap.
  function EditsOf(files: map<string, File>, steps: seq<Step>): map<string, File>
    decreases |steps|
  {
    if steps == [] then files
    else match steps[0]
      case Edits(path, file) => EditsOf(files[path := file], steps[1..])
      case Removes(path) => EditsOf(files - {path}, steps[1..])
      case _ => EditsOf(files, steps[1..])
  }

  lemma {:induction false} OnlyEdits(c: Checkpoint, s: State, steps: seq<Step>)
    requires Valid(c) && !s.marker && s.phase.Stopped?
    ensures RunFrom(c, s, steps).files == EditsOf(s.files, steps) && !RunFrom(c, s, steps).marker
    decreases |steps|
  {
    if steps != [] { OnlyEdits(c, Apply(c, s, steps[0]), steps[1..]); }
  }

  /** Once the marker is gone the agent's files are its own: over every later sequence of
      bootstraps, crashes and edits, the edits alone change the home directory.  No bootstrap
      undoes an edit, and the marker does not come back. */
  lemma NothingAfterTheMarker(c: Checkpoint, home: map<string, File>, steps: seq<Step>, later: seq<Step>)
    requires Valid(c) && !Run(c, home, steps).marker
    ensures var s := Run(c, home, steps);
      RunFrom(c, s, later).files == EditsOf(s.files, later) && !RunFrom(c, s, later).marker
  {
    RunKeepsPath(c, Begin(home), steps, "");
    OnlyEdits(c, Run(c, home, steps), later);
  }

  // ---------------------------------------------------------------- one uninterrupted bootstrap

  predicate AllProceed(steps: seq<Step>) {
    forall k | 0 <= k < |steps| :: steps[k].Proceeds?
  }

  // What a bootstrap that is not interrupted has done to the files it began with.
  predicate OnPass(c: Checkpoint, files: map<string, File>, s: State)
    requires Valid(c)
  {
    match s.phase
    case Opening(i) => s.marker && i <= |c.files| && Succeeds(files, c, i) && s.files == Restored(files, c, i)
    case Stopped => s.marker <==> !Succeeds(files, c, |c.files|)
    case _ =>
      && s.marker && s.phase.i < |c.files| && Succeeds(files, c, s.phase.i + 1) && ActionFor(c, s.phase.i).Overlay?
      && s.files[ActionFor(c, s.phase.i).target := ActionFor(c, s.phase.i).file] == Restored(files, c, s.phase.i + 1)
  }

  // Emptying or writing a file does not change what it will be.
  lemma WritesUnder(files: map<string, File>, target: string, first: File, last: File)
    ensures files[target := first][target := last] == files[target := last]
  {
  }

  lemma OpenOnPass(c: Checkpoint, files: map<string, File>, s: State, bytes: nat)
    requires Valid(c) && OnPass(c, files, s) && s.phase.Opening?
    ensures OnPass(c, files, Proceed(c, s, bytes))
  {
    var i := s.phase.i;
    if i < |c.files| {
      SucceedsBefore(files, c, i + 1, |c.files|);
      if Passes(s.files, c, i) && ActionFor(c, i).Overlay? {
        var a := ActionFor(c, i);
        WritesUnder(s.files, a.target, Proceed(c, s, bytes).files[a.target], a.file);
      }
    }
  }

  lemma WriteOnPass(c: Checkpoint, files: map<string, File>, s: State, bytes: nat)
    requires Valid(c) && OnPass(c, files, s) && s.phase.Writing?
    ensures OnPass(c, files, Proceed(c, s, bytes))
  {
    var a, s' := ActionFor(c, s.phase.i), Proceed(c, s, bytes);
    WritesUnder(s.files, a.target, s'.files[a.target], a.file);
  }

  lemma ProceedOnPass(c: Checkpoint, files: map<string, File>, s: State, bytes: nat)
    requires Valid(c) && OnPass(c, files, s)
    ensures OnPass(c, files, Proceed(c, s, bytes))
  {
    match s.phase {
      case Stopped =>
      case Opening(_) => OpenOnPass(c, files, s, bytes);
      case Writing(_, _) => WriteOnPass(c, files, s, bytes);
      case Changing(_) =>
    }
  }

  lemma {:induction false} RunOnPass(c: Checkpoint, files: map<string, File>, s: State, steps: seq<Step>)
    requires Valid(c) && OnPass(c, files, s) && AllProceed(steps)
    ensures OnPass(c, files, RunFrom(c, s, steps))
    decreases |steps|
  {
    if steps != [] {
      ProceedOnPass(c, files, s, steps[0].bytes);
      RunOnPass(c, files, Apply(c, s, steps[0]), steps[1..]);
    }
  }

  // The calls that deal with one file, and with the first i files.
  function FileSteps(c: Checkpoint, i: nat): seq<Step>
    requires Valid(c) && i < |c.files|
  {
    match ActionFor(c, i)
    case Overlay(_, file) => [Proceeds(0), Proceeds(|file.content|), Proceeds(0)]
    case _ => [Proceeds(0)]
  }

  function PassSteps(c: Checkpoint, i: nat): seq<Step>
    requires Valid(c) && i <= |c.files|
  {
    if i == 0 then [] else PassSteps(c, i - 1) + FileSteps(c, i - 1)
  }

  lemma {:induction false} RunAppend(c: Checkpoint, s: State, a: seq<Step>, b: seq<Step>)
    requires Valid(c)
    ensures RunFrom(c, s, a + b) == RunFrom(c, RunFrom(c, s, a), b)
    decreases |a|
  {
    if a == [] {
      assert a + b == b;
    } else {
      assert (a + b)[1..] == a[1..] + b;
      RunAppend(c, Apply(c, s, a[0]), a[1..], b);
    }
  }

  lemma FileStepsRun(c: Checkpoint, s: State, i: nat)
    requires Valid(c) && i < |c.files| && s.phase == Opening(i) && s.marker && Passes(s.files, c, i)
    ensures RunFrom(c, s, FileSteps(c, i)).phase == Opening(i + 1)
  {
    var s1 := Proceed(c, s, 0);
    if ActionFor(c, i).Overlay? {
      var n := |ActionFor(c, i).file.content|;
      var steps := FileSteps(c, i);
      var s2 := Proceed(c, s1, n);
      var s3 := Proceed(c, s2, 0);
      assert steps[1..] == [Proceeds(n), Proceeds(0)] && steps[1..][1..] == [Proceeds(0)] && steps[1..][1..][1..] == [];
      assert RunFrom(c, s2, [Proceeds(0)]) == s3;
    } else {
      assert FileSteps(c, i)[1..] == [];
    }
  }

  lemma {:induction false} PassRuns(c: Checkpoint, s: State, i: nat)
    requires Valid(c) && i <= |c.files| && s.phase == Opening(0) && s.marker && Succeeds(s.files, c, i)
    ensures AllProceed(PassSteps(c, i)) && RunFrom(c, s, PassSteps(c, i)).phase == Opening(i)
    decreases i
  {
    if i > 0 {
      PassRuns(c, s, i - 1);
      RunOnPass(c, s.files, s, PassSteps(c, i - 1));
      FileStepsRun(c, RunFrom(c, s, PassSteps(c, i - 1)), i - 1);
      RunAppend(c, s, PassSteps(c, i - 1), FileSteps(c, i - 1));
    }
  }

  // A bootstrap that begins now, with whatever its writes take, ends without the marker.
  predicate Finishes(c: Checkpoint, s: State, steps: seq<Step>)
    requires Valid(c)
  {
    AllProceed(steps) && !RunFrom(c, Apply(c, s.(phase := Stopped), Bootstraps), steps).marker
  }

  ghost predicate CanFinish(c: Checkpoint, s: State)
    requires Valid(c)
  {
    exists steps: seq<Step> :: Finishes(c, s, steps)
  }

  lemma LastCall(c: Checkpoint, s: State)
    requires Valid(c) && s.phase == Opening(|c.files|)
    ensures !RunFrom(c, s, [Proceeds(0)]).marker
  {
    assert [Proceeds(0)][1..] == [];
  }

  /** A bootstrap that is not interrupted removes the marker if and only if no file is refused,
      every target on the disk it finds is writable, and no entry that makes its file read-only is
      followed by another for the same file; once the marker is gone there is nothing to do. */
  lemma OneGoodRunFinishes(c: Checkpoint, s: State)
    requires Valid(c)
    ensures CanFinish(c, s) <==> !s.marker || AllFindWritable(s.files, c, |c.files|)
  {
    var start := Apply(c, s.(phase := Stopped), Bootstraps);
    SucceedsExactly(s.files, c, |c.files|);
    if s.marker {
      if CanFinish(c, s) {
        var steps: seq<Step> :| Finishes(c, s, steps);
        RunOnPass(c, s.files, start, steps);
      }
      if Succeeds(s.files, c, |c.files|) {
        var pass := PassSteps(c, |c.files|);
        PassRuns(c, start, |c.files|);
        RunAppend(c, start, pass, [Proceeds(0)]);
        LastCall(c, RunFrom(c, start, pass));
        assert Finishes(c, s, pass + [Proceeds(0)]);
      }
    } else {
      assert Finishes(c, s, []);
    }
  }

  // ---------------------------------------------------------------- when every disk can be finished

  // What can be seen before the first bootstrap: every file that will be written, in the manifest
  // and on the disk, is writable by its owner.
  predicate Finishable(c: Checkpoint, home: map<string, File>)
    requires Valid(c)
  {
    && Restorable(c)
    && (forall i: nat | i < |c.files| && ActionFor(c, i).Overlay? ::
          Writable(ActionFor(c, i).file) && Opens(home, ActionFor(c, i).target))
  }

  // No edit leaves a target read-only.
  predicate KeepsWritable(c: Checkpoint, steps: seq<Step>)
    requires Valid(c)
  {
    forall k | 0 <= k < |steps| && steps[k].Edits? && TargetBefore(c, |c.files|, steps[k].path) ::
      Writable(steps[k].file)
  }

  lemma WritingKeepsOpen(s: State, target: string, content: Bytes, mode: int, phase: Phase, p: string)
    requires Opens(s.files, p) && Opens(s.files, target) && Writable(File(content, mode))
    ensures Opens(SetContent(s, target, content, mode, phase).files, p)
  {
  }

  lemma ProceedKeepsOpen(c: Checkpoint, s: State, bytes: nat, p: string)
    requires Valid(c) && Finishable(c, s.files) && Opens(s.files, p)
    ensures Opens(Proceed(c, s, bytes).files, p)
  {
    if !s.phase.Stopped? && s.phase.i < |c.files| && ActionFor(c, s.phase.i).Overlay? {
      var a := ActionFor(c, s.phase.i);
      assert Writable(a.file) && Opens(s.files, a.target);
      match s.phase {
        case Opening(i) => WritingKeepsOpen(s, a.target, [], a.file.mode, Writing(i, 0), p);
        case Writing(i, written) =>
          var s' := Proceed(c, s, bytes);
          WritingKeepsOpen(s, a.target, s'.files[a.target].content, a.file.mode, s'.phase, p);
        case Changing(i) =>
      }
    }
  }

  lemma StepKeepsFinishable(c: Checkpoint, s: State, step: Step)
    requires Valid(c) && Finishable(c, s.files)
    requires step.Edits? && TargetBefore(c, |c.files|, step.path) ==> Writable(step.file)
    ensures Finishable(c, Apply(c, s, step).files)
  {
    var s' := Apply(c, s, step);
    forall i: nat | i < |c.files| && ActionFor(c, i).Overlay? ensures Opens(s'.files, ActionFor(c, i).target) {
      var p := ActionFor(c, i).target;
      assert WritesTo(c, i, p) && Opens(s.files, p);
      if step.Proceeds? { ProceedKeepsOpen(c, s, step.bytes, p); }
    }
  }

  lemma {:induction false} RunKeepsFinishable(c: Checkpoint, s: State, steps: seq<Step>)
    requires Valid(c) && Finishable(c, s.files) && KeepsWritable(c, steps)
    ensures Finishable(c, RunFrom(c, s, steps).files)
    decreases |steps|
  {
    if steps != [] {
      StepKeepsFinishable(c, s, steps[0]);
      RunKeepsFinishable(c, Apply(c, s, steps[0]), steps[1..]);
    }
  }

  // The restore cannot get past entry k, whose target cannot be opened.
  predicate Blocked(c: Checkpoint, s: State, k: nat)
    requires Valid(c)
  {
    && k < |c.files| && ActionFor(c, k).Overlay? && !Opens(s.files, ActionFor(c, k).target) && s.marker
    && (!s.phase.Stopped? ==> s.phase.i <= k)
    && (s.phase.Writing? || s.phase.Changing? ==> !WritesTo(c, s.phase.i, ActionFor(c, k).target))
  }

  predicate LeavesAlone(step: Step, p: string) {
    step.Edits? || step.Removes? ==> step.path != p
  }

  lemma StepKeepsBlocked(c: Checkpoint, s: State, k: nat, step: Step)
    requires Valid(c) && Blocked(c, s, k) && LeavesAlone(step, ActionFor(c, k).target)
    ensures Blocked(c, Apply(c, s, step), k)
  {
  }

  /** A read-only file that an entry has to write stops every bootstrap for ever: the marker stays
      over every sequence of bootstraps, crashes and edits that leaves that file alone. */
  lemma {:induction false} ReadOnlyBlocks(c: Checkpoint, s: State, k: nat, steps: seq<Step>)
    requires Valid(c) && Blocked(c, s, k)
    requires forall i | 0 <= i < |steps| :: LeavesAlone(steps[i], ActionFor(c, k).target)
    ensures Blocked(c, RunFrom(c, s, steps), k) && RunFrom(c, s, steps).marker
    decreases |steps|
  {
    if steps != [] {
      assert LeavesAlone(steps[0], ActionFor(c, k).target);
      StepKeepsBlocked(c, s, k, steps[0]);
      ReadOnlyBlocks(c, Apply(c, s, steps[0]), k, steps[1..]);
    }
  }

  // A bootstrap that dies right after entry i.
  function DiesAfter(c: Checkpoint, i: nat): seq<Step>
    requires Valid(c) && i < |c.files|
  {
    [Bootstraps] + PassSteps(c, i + 1) + [Crashes]
  }

  lemma DiesAfterRuns(c: Checkpoint, home: map<string, File>, i: nat)
    requires Valid(c) && i < |c.files| && Succeeds(home, c, i + 1)
    ensures var s := Run(c, home, DiesAfter(c, i)); s.marker && s.phase.Stopped? && s.files == Restored(home, c, i + 1)
    ensures KeepsWritable(c, DiesAfter(c, i))
  {
    var s, pass := Begin(home), PassSteps(c, i + 1);
    var start := Apply(c, s, Bootstraps);
    assert ([Bootstraps] + pass + [Crashes])[1..] == pass + [Crashes] && [Crashes][1..] == [];
    RunAppend(c, start, pass, [Crashes]);
    PassRuns(c, start, i + 1);
    RunOnPass(c, home, start, pass);
    assert RunFrom(c, RunFrom(c, start, pass), [Crashes]) == Apply(c, RunFrom(c, start, pass), Crashes);
  }

  /** A crash after an entry has made its file read-only leaves a disk that no bootstrap can
      finish: it cannot open the file again. */
  lemma CrashBehindReadOnly(c: Checkpoint, home: map<string, File>, i: nat, later: seq<Step>)
    requires Valid(c) && i < |c.files| && Succeeds(home, c, i + 1)
    requires ActionFor(c, i).Overlay? && !Writable(ActionFor(c, i).file)
    requires forall k | 0 <= k < |later| :: LeavesAlone(later[k], ActionFor(c, i).target)
    ensures RunFrom(c, Run(c, home, DiesAfter(c, i)), later).marker
  {
    DiesAfterRuns(c, home, i);
    RestoredNext(home, c, i, ActionFor(c, i).target);
    ReadOnlyBlocks(c, Run(c, home, DiesAfter(c, i)), i, later);
  }

  // The bootstrap that follows a run can be the one that finishes.
  ghost predicate FinishesAfter(c: Checkpoint, home: map<string, File>, steps: seq<Step>)
    requires Valid(c)
  {
    CanFinish(c, Run(c, home, steps))
  }

  lemma FinishableRuns(c: Checkpoint, home: map<string, File>, steps: seq<Step>)
    requires Valid(c) && Finishable(c, home) && KeepsWritable(c, steps)
    ensures FinishesAfter(c, home, steps)
  {
    RunKeepsFinishable(c, Begin(home), steps);
    OneGoodRunFinishes(c, Run(c, home, steps));
  }

  lemma UnfinishableRuns(c: Checkpoint, home: map<string, File>) returns (steps: seq<Step>)
    requires Valid(c) && !Finishable(c, home)
    ensures KeepsWritable(c, steps) && !FinishesAfter(c, home, steps)
  {
    steps := [];
    OneGoodRunFinishes(c, Begin(home));
    if AllFindWritable(home, c, |c.files|) {
      assert forall k: nat | k < |c.files| :: FindsWritable(home, c, k);
      var i: nat :| i < |c.files| && ActionFor(c, i).Overlay? && !Writable(ActionFor(c, i).file);
      steps := DiesAfter(c, i);
      SucceedsExactly(home, c, i + 1);
      DiesAfterRuns(c, home, i);
      var s := Run(c, home, steps);
      RestoredNext(home, c, i, ActionFor(c, i).target);
      assert !FindsWritable(s.files, c, i);
      OneGoodRunFinishes(c, s);
    }
  }

  /** Every disk that crashes and edits can leave can be finished by one uninterrupted bootstrap,
      for all runs whose edits leave no target read-only, if and only if nothing is refused and
      every file that will be written is writable by its owner, in the manifest and in the home
      directory as it was at first. */
  lemma EveryDiskCanBeFinished(c: Checkpoint, home: map<string, File>)
    requires Valid(c)
    ensures Finishable(c, home) <==>
            forall steps: seq<Step> | KeepsWritable(c, steps) :: FinishesAfter(c, home, steps)
  {
    if Finishable(c, home) {
      forall steps: seq<Step> | KeepsWritable(c, steps) ensures FinishesAfter(c, home, steps) {
        FinishableRuns(c, home, steps);
      }
    } else {
      var steps := UnfinishableRuns(c, home);
    }
  }
}
