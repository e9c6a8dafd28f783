/**
  The choice of the checkpoint a replaced sandbox is restored from.
*/
module RetryCheckpoint {
  import opened Wrappers

  datatype Checkpoint = Checkpoint(id: string, createdAt: int, reason: string, rootTree: string,
                                   ready: bool, manifestPath: string)

  const BOOTSTRAP := "bootstrap"

  // What else tells that the claw did real work.
  datatype Progress = Progress(prs: nat, stage: string, entryStage: Option<string>)

  predicate Usable(c: Checkpoint) {
    c.ready && c.manifestPath != ""
  }

  predicate ProgressedPastBootstrap(rows: seq<Checkpoint>, p: Progress) {
    || p.prs > 0
    || (exists c | c in rows :: c.ready && c.reason != BOOTSTRAP)
    || (p.stage != "" && p.entryStage.Some? && p.entryStage.value != p.stage)
  }

  // Neither the one that was restored last time nor state zero once work was done.
  predicate Eligible(c: Checkpoint, previous: string, progressed: bool) {
    Usable(c) && c.id != previous && !(c.reason == BOOTSTRAP && progressed) && c.rootTree != ""
  }

  predicate NewestFirst(rows: seq<Checkpoint>) {
    forall i, j | 0 <= i < j < |rows| :: rows[i].createdAt >= rows[j].createdAt
  }

  function UsableCount(rows: seq<Checkpoint>): nat {
    if rows == [] then 0
    else UsableCount(rows[..|rows| - 1]) + (if Usable(rows[|rows| - 1]) then 1 else 0)
  }

  method ClawProgressedPastBootstrap(rows: seq<Checkpoint>, p: Progress) returns (progressed: bool)
    ensures progressed <==> ProgressedPastBootstrap(rows, p)
  {
    if p.prs > 0 { return true; }
    var count := 0;
    for i := 0 to |rows|
      invariant count > 0 <==> exists c | c in rows[..i] :: c.ready && c.reason != BOOTSTRAP
    {
      assert rows[..i + 1] == rows[..i] + [rows[i]];
      if rows[i].ready && rows[i].reason != BOOTSTRAP { count := count + 1; }
    }
    assert rows[..|rows|] == rows;
    if count > 0 { return true; }
    if p.stage == "" { return false; }
    return p.entryStage.Some? && p.entryStage.value != p.stage;
  }

  // The query's rows: ready ones with a manifest, in the given order.
  method Candidates(rows: seq<Checkpoint>) returns (candidates: seq<Checkpoint>)
    requires NewestFirst(rows)
    ensures NewestFirst(candidates) && |candidates| == UsableCount(rows)
    ensures forall c :: c in candidates <==> c in rows && Usable(c)
  {
    candidates := [];
    for i := 0 to |rows|
      invariant |candidates| == UsableCount(rows[..i])
      invariant forall c :: c in candidates <==> c in rows[..i] && Usable(c)
      invariant forall k, j | 0 <= k < |candidates| && i <= j < |rows| :: candidates[k].createdAt >= rows[j].createdAt
      invariant NewestFirst(candidates)
    {
      assert rows[..i + 1] == rows[..i] + [rows[i]];
      if Usable(rows[i]) { candidates := candidates + [rows[i]]; }
    }
    assert rows[..|rows|] == rows;
  }

  /** The rows arrive newest first.  The pick is the newest eligible one, and there is a pick as
      soon as one is eligible.  A bootstrap checkpoint is picked only for a claw without any sign
      of work: then every ready checkpoint is one. */
  method SelectRetryCheckpoint(rows: seq<Checkpoint>, previous: string, p: Progress)
    returns (picked: Option<Checkpoint>, ready: nat)
    requires NewestFirst(rows)
    ensures picked.Some? <==> exists c | c in rows :: Eligible(c, previous, ProgressedPastBootstrap(rows, p))
    ensures picked.Some? ==>
      && picked.value in rows && Eligible(picked.value, previous, ProgressedPastBootstrap(rows, p))
      && (forall c | c in rows :: Eligible(c, previous, ProgressedPastBootstrap(rows, p)) ==>
                                    c.createdAt <= picked.value.createdAt)
    // Restorable, not the one tried before, and one from the bootstrap only of a claw that got no further.
    ensures picked.Some? ==>
      && picked.value.ready && picked.value.manifestPath != "" && picked.value.rootTree != ""
      && picked.value.id != previous
      && (picked.value.reason == "bootstrap" ==>
            && p.prs == 0 && (forall c | c in rows && c.ready :: c.reason == "bootstrap")
            && (p.stage == "" || p.entryStage.None? || p.entryStage.value == p.stage))
    // No newer one could have been taken.
    ensures forall c | c in rows && c.ready && c.manifestPath != "" && c.rootTree != "" && c.id != previous ::
      && (c.reason != "bootstrap" ==> picked.Some? && c.createdAt <= picked.value.createdAt)
      && (p.prs == 0 && (forall r | r in rows && r.ready :: r.reason == "bootstrap")
          && (p.stage == "" || p.entryStage.None? || p.entryStage.value == p.stage) ==>
            picked.Some? && c.createdAt <= picked.value.createdAt)
    ensures ready == UsableCount(rows)
  {
    var candidates := Candidates(rows);
    var progressed := ClawProgressedPastBootstrap(rows, p);
    for i := 0 to |candidates|
      invariant forall k | 0 <= k < i :: !Eligible(candidates[k], previous, progressed)
    {
      var c := candidates[i];
      if c.id == previous || (c.reason == BOOTSTRAP && progressed) || c.rootTree == "" {
        continue;
      }
      forall other | other in rows && Eligible(other, previous, progressed) ensures other.createdAt <= c.createdAt {
        var k :| 0 <= k < |candidates| && candidates[k] == other;
      }
      assert c in rows && Eligible(c, previous, progressed);
      return Some(c), |candidates|;
    }
    return None, |candidates|;
  }
}
