/**
  Restoring a staged checkpoint over the home directory at bootstrap.

  The marker holds the manifest; file i of the manifest is staged as entry i.  A restore writes
  every file in place, truncating it first, and removes the marker last.  The bridge does not run
  as root, so an existing file that its owner may not write cannot be opened.
*/
module CheckpointRestore {
  import opened Wrappers

  type Bytes = seq<bv8>

  datatype ManifestFile = ManifestFile(path: string, mode: int)

  datatype Staged = Missing | Irregular | Regular(content: Bytes)

  datatype File = File(content: Bytes, mode: int)

  datatype Checkpoint = Checkpoint(files: seq<ManifestFile>, staged: seq<Staged>)

  const WORKSPACE := "workspace/"
  const AGENTS := ".openclaw/agents/"
  const DEFAULT_MODE := 0x1A4      // 0644

  predicate Valid(c: Checkpoint) {
    |c.files| == |c.staged|
  }

  // ---------------------------------------------------------------- one file

  // The path relative to its destination directory, which is local when no part of it leads out.
  function Relative(path: string): Option<string> {
    if WORKSPACE <= path then Some(path[|WORKSPACE|..])
    else if AGENTS <= path then Some(path[|AGENTS|..])
    else None
  }

  function Destination(path: string): string {
    if WORKSPACE <= path then ".openclaw/" + path else path
  }

  // Splits off the first element of a path.
  function Elements(path: string, element: string): seq<string>
    decreases |path|
  {
    if path == "" then [element]
    else if path[0] == '/' then [element] + Elements(path[1..], "")
    else Elements(path[1..], element + [path[0]])
  }

  function DepthAfter(element: string, depth: int): int {
    if element == ".." then depth - 1 else if element in {"", "."} then depth else depth + 1
  }

  // How deep the path is at most and whether it ever climbs above where it began.
  predicate StaysInside(elements: seq<string>, depth: int)
    decreases |elements|
  {
    depth >= 0 &&
    (elements == [] ||
     StaysInside(elements[1..], DepthAfter(elements[0], depth)))
  }

  predicate IsLocal(rel: string) {
    rel != "" && rel[0] != '/' && StaysInside(Elements(rel, ""), 0)
  }

  // The permission bits, with a default for none.
  function ModeOf(mode: int): int {
    if mode % 512 == 0 then DEFAULT_MODE else mode % 512
  }

  const OWNER_WRITE := 0x80        // 0200

  predicate Writable(file: File) {
    file.mode / OWNER_WRITE % 2 == 1
  }

  // Opening for writing creates a file that is not there; one that is there must be writable.
  predicate Opens(files: map<string, File>, target: string) {
    target in files ==> Writable(files[target])
  }

  datatype Action = Skip | Refuse | Overlay(target: string, file: File)

  function ActionFor(c: Checkpoint, i: nat): Action
    requires Valid(c) && i < |c.files|
  {
    var rel := Relative(c.files[i].path);
    if rel.None? then Skip
    else match c.staged[i]
      case Missing => Refuse
      case Irregular => Skip
      case Regular(content) =>
        if !IsLocal(rel.value) then Refuse
        else Overlay(Destination(c.files[i].path), File(content, ModeOf(c.files[i].mode)))
  }

  // ---------------------------------------------------------------- an uninterrupted restore

  // The home directory after the first i files.
  function Restored(home: map<string, File>, c: Checkpoint, i: nat): map<string, File>
    requires Valid(c) && i <= |c.files|
  {
    if i == 0 then home
    else match ActionFor(c, i - 1)
      case Overlay(target, file) => Restored(home, c, i - 1)[target := file]
      case _ => Restored(home, c, i - 1)
  }

  predicate Restorable(c: Checkpoint)
    requires Valid(c)
  {
    forall i | 0 <= i < |c.files| :: !ActionFor(c, i).Refuse?
  }

  // File i of the manifest is written to p.
  predicate WritesTo(c: Checkpoint, i: nat, p: string)
    requires Valid(c)
  {
    i < |c.files| && ActionFor(c, i).Overlay? && ActionFor(c, i).target == p
  }

  predicate TargetBefore(c: Checkpoint, i: nat, p: string)
    requires Valid(c)
  {
    exists k: nat | k < i :: WritesTo(c, k, p)
  }

  // Entry i does not stop a restore that has come to it.
  predicate Passes(files: map<string, File>, c: Checkpoint, i: nat)
    requires Valid(c) && i < |c.files|
  {
    match ActionFor(c, i)
    case Skip => true
    case Refuse => false
    case Overlay(target, _) => Opens(files, target)
  }

  // The first i entries pass, each over what the ones before have left.
  predicate Succeeds(home: map<string, File>, c: Checkpoint, i: nat)
    requires Valid(c) && i <= |c.files|
  {
    i == 0 || (Succeeds(home, c, i - 1) && Passes(Restored(home, c, i - 1), c, i - 1))
  }

  function Overlays(c: Checkpoint, i: nat): nat
    requires Valid(c) && i <= |c.files|
  {
    if i == 0 then 0 else Overlays(c, i - 1) + (if ActionFor(c, i - 1).Overlay? then 1 else 0)
  }

  class Home {
    var files: map<string, File>
    var marker: bool

    constructor (files: map<string, File>, marker: bool)
      ensures this.files == files && this.marker == marker
    {
      this.files, this.marker := files, marker;
    }

    method OverlayCheckpointFile(target: string, file: File) returns (ok: bool)
      modifies `files
      ensures ok <==> Opens(old(files), target)
      ensures files == if ok then old(files)[target := file] else old(files)
    {
      if target in files && !Writable(files[target]) { return false; }
      files := files[target := File([], if target in files then files[target].mode else file.mode)];
      files := files[target := File(file.content, files[target].mode)];
      files := files[target := File(file.content, file.mode)];
      return true;
    }

    // One uninterrupted call; ok is false for an error, which leaves the marker for a retry and
    // the files before the one that failed restored.
    method RestoreStagedCheckpoint(c: Checkpoint) returns (ok: bool, count: nat)
      requires Valid(c)
      modifies this
      ensures ok <==> !old(marker) || Succeeds(old(files), c, |c.files|)
      ensures ok && old(marker) ==>
        !marker && files == Restored(old(files), c, |c.files|) && count == Overlays(c, |c.files|)
      ensures !old(marker) ==> files == old(files) && !marker
      ensures !ok ==> marker && exists i: nat | i < |c.files| ::
        Succeeds(old(files), c, i) && !Passes(files, c, i) && files == Restored(old(files), c, i)
    {
      ok, count := true, 0;
      if !marker { return; }
      for i := 0 to |c.files|
        invariant marker && Succeeds(old(files), c, i)
        invariant files == Restored(old(files), c, i) && count == Overlays(c, i)
      {
        match ActionFor(c, i)
        case Skip =>
        case Refuse =>
          SucceedsBefore(old(files), c, i + 1, |c.files|);
          return false, count;
        case Overlay(target, file) =>
          var written := OverlayCheckpointFile(target, file);
          if !written {
            SucceedsBefore(old(files), c, i + 1, |c.files|);
            return false, count;
          }
          count := count + 1;
      }
      marker := false;
    }
  }

  lemma {:induction false} SucceedsBefore(home: map<string, File>, c: Checkpoint, i: nat, n: nat)
    requires Valid(c) && i <= n <= |c.files|
    ensures Succeeds(home, c, n) ==> Succeeds(home, c, i)
    decreases n
  {
    if i < n { SucceedsBefore(home, c, i, n - 1); }
  }

  // ---------------------------------------------------------------- when a restore succeeds

  function At(files: map<string, File>, p: string): Option<File> {
    if p in files then Some(files[p]) else None
  }

  lemma TargetNext(c: Checkpoint, i: nat, p: string)
    requires Valid(c) && i < |c.files|
    ensures TargetBefore(c, i + 1, p) <==> TargetBefore(c, i, p) || WritesTo(c, i, p)
    ensures WritesTo(c, i, p) ==> TargetBefore(c, |c.files|, p)
  {
  }

  lemma RestoredNext(home: map<string, File>, c: Checkpoint, i: nat, p: string)
    requires Valid(c) && i < |c.files|
    ensures At(Restored(home, c, i + 1), p) ==
            if WritesTo(c, i, p) then Some(ActionFor(c, i).file) else At(Restored(home, c, i), p)
  {
  }

  lemma {:induction false} RestoredAt(home: map<string, File>, c: Checkpoint, i: nat, p: string)
    requires Valid(c) && i <= |c.files|
    ensures !TargetBefore(c, i, p) ==> At(Restored(home, c, i), p) == At(home, p)
    decreases i
  {
    if i > 0 {
      TargetNext(c, i - 1, p);
      RestoredNext(home, c, i - 1, p);
      RestoredAt(home, c, i - 1, p);
    }
  }

  predicate NotWritten(c: Checkpoint, since: nat, i: nat, p: string)
    requires Valid(c)
  {
    forall k: nat | since <= k < i :: !WritesTo(c, k, p)
  }

  lemma {:induction false} LastWriter(c: Checkpoint, i: nat, p: string) returns (last: nat)
    requires Valid(c) && i <= |c.files| && TargetBefore(c, i, p)
    ensures last < i && WritesTo(c, last, p) && NotWritten(c, last + 1, i, p)
    decreases i
  {
    if WritesTo(c, i - 1, p) {
      last := i - 1;
    } else {
      TargetNext(c, i - 1, p);
      last := LastWriter(c, i - 1, p);
    }
  }

  // What the last entry for a file has written is there.
  lemma {:induction false} RestoredSince(home: map<string, File>, c: Checkpoint, last: nat, i: nat, p: string)
    requires Valid(c) && last < i <= |c.files| && WritesTo(c, last, p) && NotWritten(c, last + 1, i, p)
    ensures At(Restored(home, c, i), p) == Some(ActionFor(c, last).file)
    decreases i
  {
    RestoredNext(home, c, i - 1, p);
    if last < i - 1 { RestoredSince(home, c, last, i - 1, p); }
  }

  // No entry before n writes to a file that cannot be opened: entry i neither finds such a file
  // nor comes after one that has made it read-only.
  predicate FindsWritable(home: map<string, File>, c: Checkpoint, i: nat)
    requires Valid(c) && i < |c.files|
  {
    ActionFor(c, i).Overlay? ==>
      var target := ActionFor(c, i).target;
      && Opens(home, target)
      && forall j: nat | j < i && WritesTo(c, j, target) :: Writable(ActionFor(c, j).file)
  }

  predicate AllFindWritable(home: map<string, File>, c: Checkpoint, n: nat)
    requires Valid(c) && n <= |c.files|
  {
    forall i: nat | i < n :: FindsWritable(home, c, i) && !ActionFor(c, i).Refuse?
  }

  lemma PassesExactly(home: map<string, File>, c: Checkpoint, i: nat)
    requires Valid(c) && i < |c.files| && AllFindWritable(home, c, i)
    ensures Passes(Restored(home, c, i), c, i) <==> FindsWritable(home, c, i) && !ActionFor(c, i).Refuse?
  {
    if ActionFor(c, i).Overlay? {
      var target := ActionFor(c, i).target;
      if TargetBefore(c, i, target) {
        var last := LastWriter(c, i, target);
        RestoredSince(home, c, last, i, target);
        assert FindsWritable(home, c, last);
        forall j: nat | j < i && WritesTo(c, j, target) && j != last ensures Writable(ActionFor(c, j).file) {
          assert j < last;
        }
      } else {
        RestoredAt(home, c, i, target);
        assert forall j: nat | j < i :: !WritesTo(c, j, target);
        assert At(Restored(home, c, i), target) == At(home, target);
      }
    }
  }

  /** One uninterrupted restore succeeds if and only if no file is refused, every target that
      exists is writable, and no entry of the manifest that makes its file read-only is followed
      by another for the same file. */
  lemma {:induction false} SucceedsExactly(home: map<string, File>, c: Checkpoint, n: nat)
    requires Valid(c) && n <= |c.files|
    ensures Succeeds(home, c, n) <==> AllFindWritable(home, c, n)
    decreases n
  {
    if n > 0 {
      SucceedsExactly(home, c, n - 1);
      if AllFindWritable(home, c, n - 1) {
        PassesExactly(home, c, n - 1);
      }
    }
  }
}
