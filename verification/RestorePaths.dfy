/**
  Where a restore writes: which files it takes, and that no path leads out of the two directories.
*/
module RestorePaths {
  import opened CheckpointRestore
  import opened Wrappers

  // ---------------------------------------------------------------- names

  function Join(names: seq<string>): string {
    if names == [] then "" else if |names| == 1 then names[0] else names[0] + "/" + Join(names[1..])
  }

  predicate NoSlash(names: seq<string>) {
    forall i | 0 <= i < |names| :: '/' !in names[i]
  }

  /** A path is cut at its slashes and nowhere else. */
  lemma {:induction false} CutAtSlashes(path: string, element: string)
    requires '/' !in element
    ensures Elements(path, element) != [] && NoSlash(Elements(path, element))
    ensures Join(Elements(path, element)) == element + path
    decreases |path|
  {
    if path == "" {
      assert element + path == element;
    } else if path[0] == '/' {
      CutAtSlashes(path[1..], "");
      var rest := Elements(path[1..], "");
      assert ([element] + rest)[1..] == rest;
      assert path == "/" + path[1..] && "" + path[1..] == path[1..];
      assert element + "/" + path[1..] == element + path;
    } else {
      CutAtSlashes(path[1..], element + [path[0]]);
      assert (element + [path[0]]) + path[1..] == element + path;
    }
  }

  lemma {:induction false} CutWhole(name: string, element: string)
    requires '/' !in name
    ensures Elements(name, element) == [element + name]
    decreases |name|
  {
    if name == "" {
      assert element + name == element;
    } else {
      CutWhole(name[1..], element + [name[0]]);
      assert (element + [name[0]]) + name[1..] == element + name;
    }
  }

  lemma {:induction false} CutBetween(a: string, b: string, element: string)
    ensures Elements(a + "/" + b, element) == Elements(a, element) + Elements(b, "")
    decreases |a|
  {
    if a == "" {
      assert a + "/" + b == "/" + b && ("/" + b)[1..] == b;
    } else {
      assert (a + "/" + b)[1..] == a[1..] + "/" + b;
      if a[0] == '/' { CutBetween(a[1..], b, ""); } else { CutBetween(a[1..], b, element + [a[0]]); }
    }
  }

  // ---------------------------------------------------------------- where a path leads

  // Following the names from a directory given by those above it; none if they lead out of the top.
  function Walk(at: seq<string>, names: seq<string>): Option<seq<string>>
    decreases |names|
  {
    if names == [] then Some(at)
    else if names[0] == ".." then if at == [] then None else Walk(at[..|at| - 1], names[1..])
    else if names[0] == "." || names[0] == "" then Walk(at, names[1..])
    else Walk(at + [names[0]], names[1..])
  }

  lemma {:induction false} InsideWalks(at: seq<string>, names: seq<string>)
    ensures StaysInside(names, |at|) <==> Walk(at, names).Some?
    decreases |names|
  {
    if names == [] {
    } else if names[0] == ".." {
      if at != [] { InsideWalks(at[..|at| - 1], names[1..]); }
    } else if names[0] == "." || names[0] == "" {
      InsideWalks(at, names[1..]);
    } else {
      InsideWalks(at + [names[0]], names[1..]);
    }
  }

  lemma {:induction false} WalkBelow(base: seq<string>, at: seq<string>, names: seq<string>)
    requires Walk(at, names).Some?
    ensures Walk(base + at, names) == Some(base + Walk(at, names).value)
    decreases |names|
  {
    if names == [] {
    } else if names[0] == ".." {
      assert (base + at)[..|base + at| - 1] == base + at[..|at| - 1];
      WalkBelow(base, at[..|at| - 1], names[1..]);
    } else if names[0] == "." || names[0] == "" {
      WalkBelow(base, at, names[1..]);
    } else {
      assert (base + at) + [names[0]] == base + (at + [names[0]]);
      WalkBelow(base, at + [names[0]], names[1..]);
    }
  }

  const WORKSPACE_DIR := [".openclaw", "workspace"]
  const AGENTS_DIR := [".openclaw", "agents"]

  // Two names of a directory and a path from there.
  lemma WalkTwoDown(first: string, second: string, rel: string)
    requires '/' !in first && '/' !in second && first !in {"", ".", ".."} && second !in {"", ".", ".."}
    requires Walk([], Elements(rel, "")).Some?
    ensures Walk([], Elements(first + "/" + second + "/" + rel, ""))
            == Some([first, second] + Walk([], Elements(rel, "")).value)
  {
    var names := Elements(rel, "");
    CutWhole(first, "");
    CutWhole(second, "");
    CutBetween(second, rel, "");
    CutBetween(first, second + "/" + rel, "");
    assert first + "/" + second + "/" + rel == first + "/" + (second + "/" + rel);
    assert "" + first == first && "" + second == second;
    assert [first] + ([second] + names) == [first, second] + names;
    assert ([first, second] + names)[1..] == [second] + names && ([second] + names)[1..] == names;
    assert [] + [first] == [first] && [first] + [second] == [first, second];
    WalkBelow([first, second], [], names);
    assert [first, second] + [] == [first, second];
  }

  // ---------------------------------------------------------------- what a restore does with an entry

  // The name of a file below the directory it is restored to.
  function Below(path: string): Option<string> {
    if "workspace/" <= path then Some(path[|"workspace/"|..])
    else if ".openclaw/agents/" <= path then Some(path[|".openclaw/agents/"|..])
    else None
  }

  predicate LeadsOut(rel: string) {
    rel == "" || rel[0] == '/' || Walk([], Elements(rel, "")).None?
  }

  /** The restore refuses an entry if and only if it belongs to one of the two directories and either its
      staged file is missing or it is regular and the path leads out of the directory, even if only
      in between; it passes over what belongs elsewhere or is not a regular file.  All else is written
      with its content and permission bits, 0644 if it has none, and the path it is written to
      leads into its directory. */
  lemma EntryIsRestoredExactly(c: Checkpoint, i: nat)
    requires Valid(c) && i < |c.files|
    ensures var path, staged, action := c.files[i].path, c.staged[i], ActionFor(c, i);
      && (action.Refuse? <==>
            Below(path).Some? && (staged.Missing? || (staged.Regular? && LeadsOut(Below(path).value))))
      && (action.Skip? <==> Below(path).None? || staged.Irregular?)
      && (action.Overlay? ==>
            && action.file.content == staged.content
            && action.file.mode == (if c.files[i].mode % 0x200 == 0 then 0x1A4 else c.files[i].mode % 0x200)
            && Walk([], Elements(Below(path).value, "")).Some?
            && Walk([], Elements(action.target, ""))
               == Some((if "workspace/" <= path then WORKSPACE_DIR else AGENTS_DIR)
                       + Walk([], Elements(Below(path).value, "")).value))
  {
    var path, action := c.files[i].path, ActionFor(c, i);
    assert Below(path) == Relative(path);
    if Below(path).Some? { InsideWalks([], Elements(Below(path).value, "")); }
    if action.Overlay? {
      var rel := Below(path).value;
      if "workspace/" <= path {
        assert action.target == ".openclaw/" + path && path == "workspace/" + rel;
        assert ".openclaw/" + ("workspace/" + rel) == ".openclaw" + "/" + "workspace" + "/" + rel;
        WalkTwoDown(".openclaw", "workspace", rel);
      } else {
        assert action.target == path && path == ".openclaw/agents/" + rel;
        assert ".openclaw/agents/" + rel == ".openclaw" + "/" + "agents" + "/" + rel;
        WalkTwoDown(".openclaw", "agents", rel);
      }
    }
  }
}
