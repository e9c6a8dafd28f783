/**
  Creating a checkpoint from files that may change while it is made, and what restoring it
  brings back.

  The hash is any function; two contents with the same hash are taken to be the same.
*/
module CheckpointCreate {
  import opened CheckpointRestore
  import opened Wrappers

  import RestoreRuns

  type Sha = string

  // A file as the walk found it: its path below the home directory and what was hashed.
  datatype LocalFile = LocalFile(path: string, content: Bytes, mode: int)

  datatype Entry = Entry(path: string, sha: Sha, size: nat, mode: int)

  const HOME_WORKSPACE := ".openclaw/workspace/"

  // The workspace is labelled without the directory it lives in; everything else by its path.
  function Label(path: string): string {
    if HOME_WORKSPACE <= path then path[|".openclaw/"|..] else path
  }

  ghost predicate Injective(sha: Bytes -> Sha) {
    forall a: Bytes, b: Bytes :: sha(a) == sha(b) ==> a == b
  }

  function EntryOf(sha: Bytes -> Sha, f: LocalFile): Entry {
    Entry(Label(f.path), sha(f.content), |f.content|, f.mode)
  }

  function Entries(sha: Bytes -> Sha, files: seq<LocalFile>): seq<Entry> {
    seq(|files|, i requires 0 <= i < |files| => EntryOf(sha, files[i]))
  }

  // ---------------------------------------------------------------- the hub's side

  // Blobs by hash and the last manifest that was completed.
  class HubStore {
    const sha: Bytes -> Sha
    var blobs: map<Sha, Bytes>
    var manifest: Option<seq<Entry>>

    constructor (sha: Bytes -> Sha)
      ensures Valid() && this.sha == sha && blobs == map[] && manifest.None?
    {
      this.sha, blobs, manifest := sha, map[], None;
    }

    predicate Valid()
      reads this
    {
      forall k | k in blobs :: sha(blobs[k]) == k
    }

    // A body that does not have the announced hash is refused.
    method Put(k: Sha, body: Bytes) returns (ok: bool)
      requires Valid()
      modifies this`blobs
      ensures Valid() && (ok <==> sha(body) == k)
      ensures blobs == if ok then old(blobs)[k := body] else old(blobs)
    {
      ok := sha(body) == k;
      if ok { blobs := blobs[k := body]; }
    }
  }

  // ---------------------------------------------------------------- one attempt

  // What one upload meets: whether the file can be opened and read again, its content when it
  // is hashed again, what is then streamed, and whether the request works at all.
  datatype Upload = Upload(readOk: bool, rehashed: Bytes, streamed: Bytes, requestOk: bool)

  // What one attempt meets: the files it collects, the encoded tree, blobs the hub asks for
  // although it has them, what the uploads meet in turn, and whether the other requests work.
  datatype Attempt = Attempt(files: seq<LocalFile>, tree: Bytes, planOk: bool, extra: seq<Sha>,
                             uploads: nat -> Upload, completeOk: bool)

  datatype Result = Completed | FileChanged | Failed

  // Every file of the manifest is stored with the content that was collected.
  predicate Stored(sha: Bytes -> Sha, blobs: map<Sha, Bytes>, files: seq<LocalFile>) {
    forall i | 0 <= i < |files| ::
      var k := sha(files[i].content); k in blobs && sha(blobs[k]) == k
  }

  // The hashes of the first n files that the hub lacks and that are not asked for yet.
  function MissingFrom(sha: Bytes -> Sha, blobs: map<Sha, Bytes>, files: seq<LocalFile>, n: nat,
                       asked: seq<Sha>): seq<Sha>
    requires n <= |files|
  {
    if n == 0 then asked
    else
      var before := MissingFrom(sha, blobs, files, n - 1, asked);
      var k := sha(files[n - 1].content);
      if k in blobs || k in before then before else before + [k]
  }

  // The hub's answer to a plan: the hashes of the plan that it lacks.
  function Missing(sha: Bytes -> Sha, blobs: map<Sha, Bytes>, files: seq<LocalFile>, tree: Bytes): seq<Sha> {
    MissingFrom(sha, blobs, files, |files|, if sha(tree) in blobs then [] else [sha(tree)])
  }

  method MissingBlobs(hub: HubStore, files: seq<LocalFile>, tree: Bytes) returns (missing: seq<Sha>)
    ensures missing == Missing(hub.sha, hub.blobs, files, tree)
  {
    missing := if hub.sha(tree) in hub.blobs then [] else [hub.sha(tree)];
    ghost var asked := missing;
    for i := 0 to |files|
      invariant missing == MissingFrom(hub.sha, hub.blobs, files, i, asked)
    {
      var k := hub.sha(files[i].content);
      if k !in hub.blobs && k !in missing { missing := missing + [k]; }
    }
  }

  predicate InPlan(sha: Bytes -> Sha, files: seq<LocalFile>, n: nat, k: Sha)
    requires n <= |files|
  {
    exists i | 0 <= i < n :: sha(files[i].content) == k
  }

  lemma {:induction false} MissingFromIs(sha: Bytes -> Sha, blobs: map<Sha, Bytes>, files: seq<LocalFile>, n: nat,
                                         asked: seq<Sha>, k: Sha)
    requires n <= |files|
    ensures k in MissingFrom(sha, blobs, files, n, asked) <==>
            k in asked || (k !in blobs && InPlan(sha, files, n, k))
    decreases n
  {
    if n > 0 {
      MissingFromIs(sha, blobs, files, n - 1, asked, k);
      MissingFromIs(sha, blobs, files, n - 1, asked, sha(files[n - 1].content));
      assert InPlan(sha, files, n, k) <==> InPlan(sha, files, n - 1, k) || sha(files[n - 1].content) == k;
    }
  }

  /** The hub asks for exactly the hashes of the plan, tree included, that it lacks. */
  lemma MissingExactly(sha: Bytes -> Sha, blobs: map<Sha, Bytes>, files: seq<LocalFile>, tree: Bytes, k: Sha)
    ensures k in Missing(sha, blobs, files, tree) <==>
            k !in blobs && (k == sha(tree) || exists i | 0 <= i < |files| :: sha(files[i].content) == k)
  {
    MissingFromIs(sha, blobs, files, |files|, if sha(tree) in blobs then [] else [sha(tree)], k);
    assert InPlan(sha, files, |files|, k) <==> exists i | 0 <= i < |files| :: sha(files[i].content) == k;
  }

  // ---------------------------------------------------------------- what an attempt comes to

  function Asked(sha: Bytes -> Sha, blobs: map<Sha, Bytes>, a: Attempt): seq<Sha> {
    Missing(sha, blobs, a.files, a.tree) + a.extra
  }

  predicate Known(sha: Bytes -> Sha, files: seq<LocalFile>, k: Sha) {
    exists i | 0 <= i < |files| :: sha(files[i].content) == k
  }

  // The upload of blob k works: the tree's whenever the request does, a file's when it is one that
  // was collected, can be read again and still has the content of its hash, both times.
  predicate Uploads(sha: Bytes -> Sha, a: Attempt, k: Sha, u: Upload) {
    if k == sha(a.tree) then u.requestOk
    else Known(sha, a.files, k) && u.readOk && sha(u.rehashed) == k && u.requestOk && sha(u.streamed) == k
  }

  // It fails because the file has changed, before the upload or during it.
  predicate FindsChange(sha: Bytes -> Sha, a: Attempt, k: Sha, u: Upload) {
    && k != sha(a.tree) && Known(sha, a.files, k) && u.readOk
    && (sha(u.rehashed) != k || (u.requestOk && sha(u.streamed) != k))
  }

  predicate AllUpload(sha: Bytes -> Sha, a: Attempt, asked: seq<Sha>, n: nat)
    requires n <= |asked|
  {
    forall i: nat | i < n :: Uploads(sha, a, asked[i], a.uploads(i))
  }

  predicate Completes(sha: Bytes -> Sha, blobs: map<Sha, Bytes>, a: Attempt) {
    a.planOk && a.completeOk && AllUpload(sha, a, Asked(sha, blobs, a), |Asked(sha, blobs, a)|)
  }

  // The first upload that fails does so by the file's content.
  predicate MeetsChange(sha: Bytes -> Sha, blobs: map<Sha, Bytes>, a: Attempt) {
    var asked := Asked(sha, blobs, a);
    a.planOk && exists i: nat | i < |asked| ::
      AllUpload(sha, a, asked, i) && FindsChange(sha, a, asked[i], a.uploads(i))
  }

  // The hub's blobs after the first n uploads.
  function BlobsAfter(sha: Bytes -> Sha, blobs: map<Sha, Bytes>, a: Attempt, asked: seq<Sha>, n: nat): map<Sha, Bytes>
    requires n <= |asked|
  {
    if n == 0 then blobs
    else
      BlobsAfter(sha, blobs, a, asked, n - 1)[asked[n - 1] :=
        if asked[n - 1] == sha(a.tree) then a.tree else a.uploads(n - 1).streamed]
  }

  // How many uploads are made before one fails.
  function Uploaded(sha: Bytes -> Sha, a: Attempt, asked: seq<Sha>, n: nat): (m: nat)
    requires n <= |asked|
    ensures n <= m <= |asked|
    decreases |asked| - n
  {
    if n < |asked| && Uploads(sha, a, asked[n], a.uploads(n)) then Uploaded(sha, a, asked, n + 1) else n
  }

  function BlobsLeft(sha: Bytes -> Sha, blobs: map<Sha, Bytes>, a: Attempt): map<Sha, Bytes> {
    var asked := Asked(sha, blobs, a);
    if a.planOk then BlobsAfter(sha, blobs, a, asked, Uploaded(sha, a, asked, 0)) else blobs
  }

  lemma {:induction false} UploadedIs(sha: Bytes -> Sha, a: Attempt, asked: seq<Sha>, n: nat, m: nat)
    requires n <= m <= |asked|
    requires forall i: nat | n <= i < m :: Uploads(sha, a, asked[i], a.uploads(i))
    requires m == |asked| || !Uploads(sha, a, asked[m], a.uploads(m))
    ensures Uploaded(sha, a, asked, n) == m
    decreases m - n
  {
    if n < m { UploadedIs(sha, a, asked, n + 1, m); }
  }

  // A failed upload decides: the uploads before it worked, so it is the first that fails.
  lemma FailsAt(sha: Bytes -> Sha, blobs: map<Sha, Bytes>, a: Attempt, i: nat)
    requires a.planOk && i < |Asked(sha, blobs, a)| && AllUpload(sha, a, Asked(sha, blobs, a), i)
    requires !Uploads(sha, a, Asked(sha, blobs, a)[i], a.uploads(i))
    ensures !Completes(sha, blobs, a)
    ensures MeetsChange(sha, blobs, a) <==> FindsChange(sha, a, Asked(sha, blobs, a)[i], a.uploads(i))
    ensures BlobsLeft(sha, blobs, a) == BlobsAfter(sha, blobs, a, Asked(sha, blobs, a), i)
  {
    var asked := Asked(sha, blobs, a);
    UploadedIs(sha, a, asked, 0, i);
    forall j: nat | j < |asked| && AllUpload(sha, a, asked, j) && FindsChange(sha, a, asked[j], a.uploads(j))
      ensures j == i
    {
      assert j < i ==> Uploads(sha, a, asked[j], a.uploads(j));
    }
  }

  lemma AllUploaded(sha: Bytes -> Sha, blobs: map<Sha, Bytes>, a: Attempt)
    requires a.planOk && AllUpload(sha, a, Asked(sha, blobs, a), |Asked(sha, blobs, a)|)
    ensures !MeetsChange(sha, blobs, a)
    ensures BlobsLeft(sha, blobs, a) == BlobsAfter(sha, blobs, a, Asked(sha, blobs, a), |Asked(sha, blobs, a)|)
  {
    var asked := Asked(sha, blobs, a);
    UploadedIs(sha, a, asked, 0, |asked|);
    forall j: nat | j < |asked| ensures !FindsChange(sha, a, asked[j], a.uploads(j)) {
      assert Uploads(sha, a, asked[j], a.uploads(j));
    }
  }

  lemma {:induction false} BlobsAfterHold(sha: Bytes -> Sha, blobs: map<Sha, Bytes>, a: Attempt, asked: seq<Sha>,
                                          n: nat)
    requires n <= |asked|
    ensures var after := BlobsAfter(sha, blobs, a, asked, n);
      blobs.Keys <= after.Keys && forall i | 0 <= i < n :: asked[i] in after
    decreases n
  {
    if n > 0 { BlobsAfterHold(sha, blobs, a, asked, n - 1); }
  }

  // Everything the plan needs is there once all that was asked for is.
  lemma PlanIsStored(sha: Bytes -> Sha, before: map<Sha, Bytes>, after: map<Sha, Bytes>, a: Attempt)
    requires forall k | k in after :: sha(after[k]) == k
    requires after == BlobsAfter(sha, before, a, Asked(sha, before, a), |Asked(sha, before, a)|)
    ensures Stored(sha, after, a.files) && sha(a.tree) in after
  {
    BlobsAfterHold(sha, before, a, Asked(sha, before, a), |Asked(sha, before, a)|);
    forall k | k in Missing(sha, before, a.files, a.tree) ensures k in after {
      assert k in Asked(sha, before, a);
    }
    forall i | 0 <= i < |a.files| ensures sha(a.files[i].content) in after {
      MissingExactly(sha, before, a.files, a.tree, sha(a.files[i].content));
    }
    MissingExactly(sha, before, a.files, a.tree, sha(a.tree));
  }

  // One upload; completed when the hub has the blob.
  method UploadBlob(hub: HubStore, a: Attempt, k: Sha, u: Upload) returns (r: Result)
    requires hub.Valid()
    modifies hub`blobs
    ensures hub.Valid()
    ensures r.Completed? <==> Uploads(hub.sha, a, k, u)
    ensures r.FileChanged? <==> FindsChange(hub.sha, a, k, u)
    ensures hub.blobs ==
            if r.Completed? then old(hub.blobs)[k := if k == hub.sha(a.tree) then a.tree else u.streamed]
            else old(hub.blobs)
  {
    if k == hub.sha(a.tree) {
      if !u.requestOk { return Failed; }
      var ok := hub.Put(k, a.tree);
      return Completed;
    }
    var known := FindBlob(hub.sha, a.files, k);
    if !known || !u.readOk { return Failed; }
    if hub.sha(u.rehashed) != k { return FileChanged; }
    if !u.requestOk { return Failed; }
    var ok := hub.Put(k, u.streamed);
    return if ok then Completed else FileChanged;
  }

  // All uploads, up to the first that fails.
  method UploadAll(hub: HubStore, a: Attempt, asked: seq<Sha>) returns (r: Result)
    requires hub.Valid() && a.planOk && asked == Asked(hub.sha, hub.blobs, a)
    modifies hub`blobs
    ensures hub.Valid() && hub.blobs == BlobsLeft(hub.sha, old(hub.blobs), a)
    ensures r.Completed? <==> AllUpload(hub.sha, a, asked, |asked|)
    ensures r.FileChanged? <==> MeetsChange(hub.sha, old(hub.blobs), a)
  {
    ghost var before := hub.blobs;
    for i := 0 to |asked|
      invariant hub.Valid() && hub.blobs == BlobsAfter(hub.sha, before, a, asked, i)
      invariant AllUpload(hub.sha, a, asked, i)
    {
      r := UploadBlob(hub, a, asked[i], a.uploads(i));
      if !r.Completed? {
        FailsAt(hub.sha, before, a, i);
        return;
      }
    }
    AllUploaded(hub.sha, before, a);
    return Completed;
  }

  method CreateCheckpointAttempt(hub: HubStore, a: Attempt) returns (r: Result)
    requires hub.Valid()
    modifies hub
    ensures hub.Valid() && hub.blobs == BlobsLeft(hub.sha, old(hub.blobs), a)
    ensures r.Completed? <==> Completes(hub.sha, old(hub.blobs), a)
    ensures r.FileChanged? <==> MeetsChange(hub.sha, old(hub.blobs), a)
    ensures r.Completed? ==>
      && hub.manifest == Some(Entries(hub.sha, a.files))
      && Stored(hub.sha, hub.blobs, a.files) && hub.sha(a.tree) in hub.blobs
    ensures !r.Completed? ==> hub.manifest == old(hub.manifest)
  {
    if !a.planOk { return Failed; }
    ghost var before := hub.blobs;
    var missing := MissingBlobs(hub, a.files, a.tree);
    r := UploadAll(hub, a, missing + a.extra);
    if !r.Completed? { return; }
    AllUploaded(hub.sha, before, a);
    PlanIsStored(hub.sha, before, hub.blobs, a);
    if !a.completeOk { return Failed; }
    hub.manifest := Some(Entries(hub.sha, a.files));
    return Completed;
  }

  method FindBlob(sha: Bytes -> Sha, files: seq<LocalFile>, k: Sha) returns (known: bool)
    ensures known <==> Known(sha, files, k)
  {
    for i := 0 to |files|
      invariant forall j | 0 <= j < i :: sha(files[j].content) != k
    {
      if sha(files[i].content) == k { return true; }
    }
    return false;
  }

  // A file that changed under the attempt is a reason to do all of it again, once.
  method CreateCheckpoint(hub: HubStore, first: Attempt, second: Attempt) returns (r: Result, again: bool)
    requires hub.Valid()
    modifies hub
    ensures hub.Valid()
    ensures again <==> MeetsChange(hub.sha, old(hub.blobs), first)
    ensures var left := BlobsLeft(hub.sha, old(hub.blobs), first);
      && (r.Completed? <==>
            || Completes(hub.sha, old(hub.blobs), first)
            || (MeetsChange(hub.sha, old(hub.blobs), first) && Completes(hub.sha, left, second)))
      && (r.FileChanged? <==>
            MeetsChange(hub.sha, old(hub.blobs), first) && MeetsChange(hub.sha, left, second))
    ensures var files := if again then second.files else first.files;
      r.Completed? ==> hub.manifest == Some(Entries(hub.sha, files)) && Stored(hub.sha, hub.blobs, files)
    ensures !r.Completed? ==> hub.manifest == old(hub.manifest)
  {
    again := false;
    CompleteMeetsNoChange(hub.sha, hub.blobs, first);
    r := CreateCheckpointAttempt(hub, first);
    if r == FileChanged {
      again := true;
      r := CreateCheckpointAttempt(hub, second);
    }
  }

  lemma CompleteMeetsNoChange(sha: Bytes -> Sha, blobs: map<Sha, Bytes>, a: Attempt)
    ensures !(Completes(sha, blobs, a) && MeetsChange(sha, blobs, a))
  {
    if Completes(sha, blobs, a) { AllUploaded(sha, blobs, a); }
  }

  // No file changes while the attempt is made: every upload of a collected file reads the content
  // of the hash it is for, twice.
  predicate Unchanged(sha: Bytes -> Sha, blobs: map<Sha, Bytes>, a: Attempt) {
    var asked := Asked(sha, blobs, a);
    forall i: nat | i < |asked| && asked[i] != sha(a.tree) && Known(sha, a.files, asked[i]) ::
      a.uploads(i).readOk && sha(a.uploads(i).rehashed) == asked[i] && sha(a.uploads(i).streamed) == asked[i]
  }

  // Everything but the files: the requests work, every asked file can be read, and the hub asks for
  // nothing that is not in the plan.
  predicate NothingElseFails(sha: Bytes -> Sha, blobs: map<Sha, Bytes>, a: Attempt) {
    var asked := Asked(sha, blobs, a);
    && a.planOk && a.completeOk
    && (forall i: nat | i < |asked| :: a.uploads(i).requestOk && (asked[i] != sha(a.tree) ==> a.uploads(i).readOk))
    && (forall k | k in a.extra :: k == sha(a.tree) || Known(sha, a.files, k))
  }

  lemma AskedIsKnown(sha: Bytes -> Sha, blobs: map<Sha, Bytes>, a: Attempt, i: nat)
    requires i < |Asked(sha, blobs, a)| && forall k | k in a.extra :: k == sha(a.tree) || Known(sha, a.files, k)
    ensures Asked(sha, blobs, a)[i] == sha(a.tree) || Known(sha, a.files, Asked(sha, blobs, a)[i])
  {
    var k := Asked(sha, blobs, a)[i];
    if k in Missing(sha, blobs, a.files, a.tree) { MissingExactly(sha, blobs, a.files, a.tree, k); }
  }

  /** When nothing else fails, a checkpoint is made if and only if no file has changed between its
      hashing, its second hashing and its upload, and a change that is found is the reason if it is
      not.  Without a change no attempt is ever given up for one. */
  lemma CompletesExactlyUnchanged(sha: Bytes -> Sha, blobs: map<Sha, Bytes>, a: Attempt)
    ensures NothingElseFails(sha, blobs, a) ==>
      && (Completes(sha, blobs, a) <==> Unchanged(sha, blobs, a))
      && (MeetsChange(sha, blobs, a) <==> !Unchanged(sha, blobs, a))
    ensures Unchanged(sha, blobs, a) ==> !MeetsChange(sha, blobs, a)
  {
    var asked := Asked(sha, blobs, a);
    if NothingElseFails(sha, blobs, a) {
      forall i: nat | i < |asked| ensures asked[i] == sha(a.tree) || Known(sha, a.files, asked[i]) {
        AskedIsKnown(sha, blobs, a, i);
      }
      if Unchanged(sha, blobs, a) {
        assert AllUpload(sha, a, asked, |asked|);
      } else {
        var i: nat := FirstChange(sha, a, asked, 0);
      }
    }
  }

  // The first upload that does not work.
  lemma {:induction false} FirstChange(sha: Bytes -> Sha, a: Attempt, asked: seq<Sha>, from: nat) returns (i: nat)
    requires from <= |asked| && AllUpload(sha, a, asked, from)
    requires exists k: nat | k < |asked| :: !Uploads(sha, a, asked[k], a.uploads(k))
    ensures i < |asked| && AllUpload(sha, a, asked, i) && !Uploads(sha, a, asked[i], a.uploads(i))
    decreases |asked| - from
  {
    if !Uploads(sha, a, asked[from], a.uploads(from)) {
      i := from;
    } else {
      i := FirstChange(sha, a, asked, from + 1);
    }
  }

  // ---------------------------------------------------------------- create, then restore

  // How the hub stages a stored manifest: file i of the manifest as entry i, from the blob it names.
  function Staging(blobs: map<Sha, Bytes>, manifest: seq<Entry>): Checkpoint
    requires forall i | 0 <= i < |manifest| :: manifest[i].sha in blobs
  {
    Checkpoint(seq(|manifest|, i requires 0 <= i < |manifest| => ManifestFile(manifest[i].path, manifest[i].mode)),
               seq(|manifest|, i requires 0 <= i < |manifest| => Regular(blobs[manifest[i].sha])))
  }

  // The manifest of these files, staged.
  function StagedFrom(sha: Bytes -> Sha, blobs: map<Sha, Bytes>, files: seq<LocalFile>): Checkpoint
    requires Stored(sha, blobs, files)
  {
    Staging(blobs, Entries(sha, files))
  }

  /** The manifest gives each blob's size, so the sizes add up to what a restore will write. */
  lemma ManifestGivesSizes(sha: Bytes -> Sha, blobs: map<Sha, Bytes>, files: seq<LocalFile>, i: nat)
    requires Stored(sha, blobs, files) && Injective(sha) && i < |files|
    ensures var entry := Entries(sha, files)[i];
      && entry.sha in blobs && entry.size == |blobs[entry.sha]|
      && StagedFrom(sha, blobs, files).staged[i] == Regular(blobs[entry.sha])
  {
    var k := sha(files[i].content);
    assert k in blobs && sha(blobs[k]) == k;
    assert blobs[k] == files[i].content;
  }

  // Files in the two directories that a restore writes to.
  predicate Restores(path: string) {
    HOME_WORKSPACE <= path || AGENTS <= path
  }

  // The walk yields each file once, under names that stay inside the directory walked.
  predicate Walked(files: seq<LocalFile>) {
    && Distinct(files)
    && (forall i | 0 <= i < |files| :: Collected(files[i].path) && LabelLocal(files[i].path))
  }

  predicate LabelLocal(path: string) {
    Relative(Label(path)).Some? ==> IsLocal(Relative(Label(path)).value)
  }

  // Everything that is collected lies under this directory.
  predicate Collected(path: string) {
    ".openclaw/" <= path
  }

  // Labels lead back to where the files came from; other labels are not restored.
  lemma LabelLeadsBack(path: string)
    requires Collected(path)
    ensures Relative(Label(path)).Some? <==> Restores(path)
    ensures Restores(path) ==> Destination(Label(path)) == path
  {
    assert path[0] == '.' && WORKSPACE[0] == 'w';
    if HOME_WORKSPACE <= path {
      assert HOME_WORKSPACE == ".openclaw/" + WORKSPACE;
      assert path == ".openclaw/" + path[|".openclaw/"|..];
      assert WORKSPACE == HOME_WORKSPACE[|".openclaw/"|..] <= path[|".openclaw/"|..];
    }
  }

  function FileOf(f: LocalFile): File {
    File(f.content, if f.mode % 0x200 == 0 then 0x1A4 else f.mode % 0x200)
  }

  // A restore of entry i does what file i asks for.
  predicate Stages(c: Checkpoint, files: seq<LocalFile>, i: nat)
    requires Valid(c) && i < |c.files| == |files|
  {
    ActionFor(c, i) == if Restores(files[i].path) then Overlay(files[i].path, FileOf(files[i])) else Skip
  }

  predicate StagesAll(c: Checkpoint, files: seq<LocalFile>) {
    Valid(c) && |c.files| == |files| && forall i | 0 <= i < |files| :: Stages(c, files, i)
  }

  lemma StagedFromStages(sha: Bytes -> Sha, blobs: map<Sha, Bytes>, files: seq<LocalFile>)
    requires Stored(sha, blobs, files) && Injective(sha) && Walked(files)
    ensures StagesAll(StagedFrom(sha, blobs, files), files)
  {
    forall i | 0 <= i < |files| ensures Stages(StagedFrom(sha, blobs, files), files, i) {
      LabelLeadsBack(files[i].path);
      var k := sha(files[i].content);
      assert k in blobs && sha(blobs[k]) == k;
    }
  }

  predicate Distinct(files: seq<LocalFile>) {
    forall i, j | 0 <= i < j < |files| :: files[i].path != files[j].path
  }

  predicate Names(files: seq<LocalFile>, n: nat, p: string) {
    exists i | 0 <= i < |files| && i < n :: files[i].path == p
  }

  lemma LastRestored(c: Checkpoint, files: seq<LocalFile>, home: map<string, File>, n: nat, p: string)
    requires StagesAll(c, files) && 0 < n <= |files|
    ensures At(Restored(home, c, n), p) ==
            if Restores(files[n - 1].path) && files[n - 1].path == p then Some(FileOf(files[n - 1]))
            else At(Restored(home, c, n - 1), p)
  {
    assert Stages(c, files, n - 1);
  }

  lemma {:induction false} BroughtBack(c: Checkpoint, files: seq<LocalFile>, home: map<string, File>, n: nat, i: nat)
    requires StagesAll(c, files) && Distinct(files) && i < n <= |files| && Restores(files[i].path)
    ensures At(Restored(home, c, n), files[i].path) == Some(FileOf(files[i]))
    decreases n
  {
    LastRestored(c, files, home, n, files[i].path);
    if i < n - 1 { BroughtBack(c, files, home, n - 1, i); }
  }

  lemma {:induction false} LeftAlone(c: Checkpoint, files: seq<LocalFile>, home: map<string, File>, n: nat, p: string)
    requires StagesAll(c, files) && n <= |files|
    requires !Restores(p) || !Names(files, n, p)
    ensures At(Restored(home, c, n), p) == At(home, p)
    decreases n
  {
    if n > 0 {
      LastRestored(c, files, home, n, p);
      FewerNames(files, n, p);
      LeftAlone(c, files, home, n - 1, p);
    }
  }

  lemma FewerNames(files: seq<LocalFile>, n: nat, p: string)
    requires 0 < n <= |files|
    ensures files[n - 1].path == p || Names(files, n - 1, p) ==> Names(files, n, p)
  {
  }

  /** A restore of a completed checkpoint that succeeds brings, over any home directory, every
      workspace and agent file to the content it had when it was collected, however the files
      changed in the meantime, and touches no other file. */
  lemma RestoreBringsBack(sha: Bytes -> Sha, blobs: map<Sha, Bytes>, files: seq<LocalFile>, home: map<string, File>)
    requires Stored(sha, blobs, files) && Injective(sha) && Walked(files)
    ensures var restored := Restored(home, StagedFrom(sha, blobs, files), |files|);
      && (forall i | 0 <= i < |files| && Restores(files[i].path) ::
            At(restored, files[i].path) == Some(FileOf(files[i])))
      && (forall p | !Restores(p) || !Names(files, |files|, p) :: At(restored, p) == At(home, p))
  {
    var c := StagedFrom(sha, blobs, files);
    StagedFromStages(sha, blobs, files);
    forall i | 0 <= i < |files| && Restores(files[i].path)
      ensures At(Restored(home, c, |files|), files[i].path) == Some(FileOf(files[i]))
    {
      BroughtBack(c, files, home, |files|, i);
    }
    forall p | !Restores(p) || !Names(files, |files|, p) ensures At(Restored(home, c, |files|), p) == At(home, p) {
      LeftAlone(c, files, home, |files|, p);
    }
  }

  /** Such a checkpoint can always be restored. */
  lemma CompletedIsRestorable(sha: Bytes -> Sha, blobs: map<Sha, Bytes>, files: seq<LocalFile>)
    requires Stored(sha, blobs, files) && Injective(sha) && Walked(files)
    ensures Restorable(StagedFrom(sha, blobs, files))
  {
    StagedFromStages(sha, blobs, files);
    forall i | 0 <= i < |files| ensures !ActionFor(StagedFrom(sha, blobs, files), i).Refuse? {
      assert Stages(StagedFrom(sha, blobs, files), files, i);
    }
  }

  // Every file of the checkpoint that is restored finds one it may write, or none.
  predicate FindsAllWritable(files: seq<LocalFile>, home: map<string, File>) {
    forall i | 0 <= i < |files| && Restores(files[i].path) :: Opens(home, files[i].path)
  }

  predicate AllWritable(files: seq<LocalFile>) {
    forall i | 0 <= i < |files| && Restores(files[i].path) :: Writable(FileOf(files[i]))
  }

  lemma NoOtherWriter(c: Checkpoint, files: seq<LocalFile>, j: nat, i: nat)
    requires StagesAll(c, files) && Distinct(files) && j < i < |files| && Restores(files[i].path)
    ensures !WritesTo(c, j, files[i].path)
  {
    assert Stages(c, files, j);
  }

  lemma FindsWritableExactly(c: Checkpoint, files: seq<LocalFile>, home: map<string, File>, i: nat)
    requires StagesAll(c, files) && Distinct(files) && i < |files|
    ensures FindsWritable(home, c, i) <==> (Restores(files[i].path) ==> Opens(home, files[i].path))
    ensures !ActionFor(c, i).Refuse?
  {
    assert Stages(c, files, i);
    if Restores(files[i].path) {
      forall j: nat | j < i ensures !WritesTo(c, j, files[i].path) { NoOtherWriter(c, files, j, i); }
    }
  }

  lemma PassSucceedsExactly(c: Checkpoint, files: seq<LocalFile>, home: map<string, File>)
    requires StagesAll(c, files) && Distinct(files)
    ensures Succeeds(home, c, |files|) <==> FindsAllWritable(files, home)
  {
    SucceedsExactly(home, c, |files|);
    forall i: nat | i < |files|
      ensures FindsWritable(home, c, i) <==> (Restores(files[i].path) ==> Opens(home, files[i].path))
      ensures !ActionFor(c, i).Refuse?
    {
      FindsWritableExactly(c, files, home, i);
    }
  }

  lemma FinishableExactly(c: Checkpoint, files: seq<LocalFile>, home: map<string, File>)
    requires StagesAll(c, files)
    ensures RestoreRuns.Finishable(c, home) <==> FindsAllWritable(files, home) && AllWritable(files)
  {
    forall i: nat | i < |files|
      ensures !ActionFor(c, i).Refuse? && (ActionFor(c, i).Overlay? <==> Restores(files[i].path))
      ensures Restores(files[i].path) ==> ActionFor(c, i) == Overlay(files[i].path, FileOf(files[i]))
    {
      assert Stages(c, files, i);
    }
    if RestoreRuns.Finishable(c, home) {
      forall i | 0 <= i < |files| && Restores(files[i].path)
        ensures Opens(home, files[i].path) && Writable(FileOf(files[i]))
      {
        assert ActionFor(c, i).Overlay?;
      }
    }
  }

  /** One uninterrupted restore of a completed checkpoint succeeds if and only if every workspace
      and agent file it finds is writable; it can be finished after every run of crashes if and
      only if, besides, every such file was writable when it was collected. */
  lemma CompletedCanBeFinished(sha: Bytes -> Sha, blobs: map<Sha, Bytes>, files: seq<LocalFile>,
                               home: map<string, File>)
    requires Stored(sha, blobs, files) && Injective(sha) && Walked(files)
    ensures var c := StagedFrom(sha, blobs, files);
      && (Succeeds(home, c, |files|) <==> FindsAllWritable(files, home))
      && (RestoreRuns.Finishable(c, home) <==> FindsAllWritable(files, home) && AllWritable(files))
  {
    StagedFromStages(sha, blobs, files);
    PassSucceedsExactly(StagedFrom(sha, blobs, files), files, home);
    FinishableExactly(StagedFrom(sha, blobs, files), files, home);
  }
}
