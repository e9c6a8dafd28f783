/**
  What masking followed by restoring guarantees: the round trip, the effect of reordering
  the items of a list, and the limits on what a restore may change.
*/
module YamlRoundTrip {
  import opened YamlTree
  import opened Wrappers

  // ---------------------------------------------------------------- well-formed configuration trees

  // No two pairs of a mapping have the same key.
  predicate UniqueKeys(content: seq<Node>) {
    forall i, j | 0 <= i < j < |content| / 2 :: content[2 * i].value != content[2 * j].value
  }

  // What decoding one YAML document yields: one root per document and no repeated mapping key.
  predicate WellFormed(n: Node)
    decreases n
  {
    && (n.kind.Document? ==> |n.content| <= 1)
    && (n.kind.Mapping? ==> UniqueKeys(n.content))
    && forall i | 0 <= i < |n.content| :: WellFormed(n.content[i])
  }

  // ---------------------------------------------------------------- lookups

  lemma {:induction false} PairMapAt(content: seq<Node>, k: nat, i: nat)
    requires 2 * k <= |content| && i < k && UniqueKeys(content)
    ensures content[2 * i].value in PairMap(content, k)
    ensures PairMap(content, k)[content[2 * i].value] == content[2 * i + 1]
  {
    if i < k - 1 {
      PairMapAt(content, k - 1, i);
      assert content[2 * i].value != content[2 * (k - 1)].value;
    }
  }

  // A well-formed mapping finds each of its own values under its own key.
  lemma OwnValue(n: Node, i: nat)
    requires n.kind.Mapping? && UniqueKeys(n.content) && i < |n.content| && IsValuePosition(i)
    ensures DiskValue(Some(n), n.content[i - 1].value) == Some(n.content[i])
  {
    PairMapAt(n.content, |n.content| / 2, i / 2);
    assert 2 * (i / 2) == i - 1;
  }

  // ---------------------------------------------------------------- identities

  // What an item is identified by.
  datatype ItemKey =
    | ByName(name: string)
    | ByApp(appId: string)
    | ByWorkspace(workspace: string, integration: Option<string>)

  function KeyOf(n: Node): Option<ItemKey> {
    var name, appId, workspace := MappingScalar(n, "name"), MappingScalar(n, "app_id"), MappingScalar(n, "workspace");
    var integration := MappingScalar(n, "integration");
    if NonEmpty(name) then Some(ByName(name.value))
    else if NonEmpty(appId) then Some(ByApp(appId.value))
    else if NonEmpty(workspace) then
      Some(ByWorkspace(workspace.value, if NonEmpty(integration) then integration else None))
    else None
  }

  function WorkspaceText(k: ItemKey): string
    requires k.ByWorkspace?
  {
    if k.integration.Some? then k.workspace + "|integration:" + k.integration.value else k.workspace
  }

  /** Two identified items share their identity exactly when they share their name, their app id,
      or the text of workspace and integration; an item is never taken for one that is
      identified in another way. */
  lemma SameIdentityExactly(a: Node, b: Node)
    requires KeyOf(a).Some? && KeyOf(b).Some?
    ensures Identity(a).Some? && Identity(b).Some?
    ensures Identity(a) == Identity(b) <==>
      var j, k := KeyOf(a).value, KeyOf(b).value;
      j == k || (j.ByWorkspace? && k.ByWorkspace? && WorkspaceText(j) == WorkspaceText(k))
  {
    IdentityText(a);
    IdentityText(b);
    var s, t := Identity(a).value, Identity(b).value;
    assert KeyOf(a).value.ByName? ==> s[0] == 'n' && s[5..] == KeyOf(a).value.name;
    assert KeyOf(b).value.ByName? ==> t[0] == 'n' && t[5..] == KeyOf(b).value.name;
    assert KeyOf(a).value.ByApp? ==> s[0] == 'a' && s[7..] == KeyOf(a).value.appId;
    assert KeyOf(b).value.ByApp? ==> t[0] == 'a' && t[7..] == KeyOf(b).value.appId;
    assert KeyOf(a).value.ByWorkspace? ==> s[0] == 'w' && s[10..] == WorkspaceText(KeyOf(a).value);
    assert KeyOf(b).value.ByWorkspace? ==> t[0] == 'w' && t[10..] == WorkspaceText(KeyOf(b).value);
  }

  lemma IdentityText(n: Node)
    requires KeyOf(n).Some?
    ensures Identity(n) == Some(match KeyOf(n).value
                                case ByName(name) => "name:" + name
                                case ByApp(appId) => "app_id:" + appId
                                case ByWorkspace(_, _) => "workspace:" + WorkspaceText(KeyOf(n).value))
  {
    if KeyOf(n).value.ByWorkspace? && KeyOf(n).value.integration.Some? {
      var k := KeyOf(n).value;
      assert "workspace:" + k.workspace + "|integration:" + k.integration.value
             == "workspace:" + (k.workspace + "|integration:" + k.integration.value);
    }
  }

  function Text(value: string): Node {
    Node(Scalar, "!!str", 0, "", value, [])
  }

  // An item of a list that is identified by its workspace and integration, with a token.
  function OwnedBy(workspace: string, integration: string, token: Node): Node {
    Node(Mapping, "!!map", 0, "", "",
         [Text("workspace"), Text(workspace), Text("integration"), Text(integration), Text("token"), token])
  }

  // One that is identified by its workspace alone.
  function ClaimedBy(workspace: string, token: Node): Node {
    Node(Mapping, "!!map", 0, "", "", [Text("workspace"), Text(workspace), Text("token"), token])
  }

  function ListOf(item: Node): Node {
    Node(Sequence, "!!seq", 0, "", "", [item])
  }

  lemma OwnerIdentity(w: string, i: string, token: Node)
    requires w != "" && i != ""
    ensures Identity(OwnedBy(w, i, token)) == Some("workspace:" + w + "|integration:" + i)
  {
    var content := OwnedBy(w, i, token).content;
    assert ScalarUnder(content, "workspace", 0) == Some(w);
    assert ScalarUnder(content, "integration", 2) == Some(i) && ScalarUnder(content, "integration", 0) == Some(i);
    assert forall key | key == "name" || key == "app_id" ::
        ScalarUnder(content, key, 6) == None && ScalarUnder(content, key, 4) == None
        && ScalarUnder(content, key, 2) == None && ScalarUnder(content, key, 0) == None;
  }

  lemma ClaimIdentity(w: string, token: Node)
    requires w != ""
    ensures Identity(ClaimedBy(w, token)) == Some("workspace:" + w)
  {
    var content := ClaimedBy(w, token).content;
    assert ScalarUnder(content, "workspace", 0) == Some(w);
    assert forall key | key == "name" || key == "app_id" || key == "integration" ::
        ScalarUnder(content, key, 4) == None && ScalarUnder(content, key, 2) == None
        && ScalarUnder(content, key, 0) == None;
  }

  lemma OwnerToken(w: string, i: string, token: Node)
    ensures DiskValue(Some(OwnedBy(w, i, token)), "token") == Some(token)
  {
    var content := OwnedBy(w, i, token).content;
    assert PairMap(content, 3) == PairMap(content, 2)["token" := token];
  }

  lemma TokenRestored(w: string, disk: Node, token: Node)
    requires DiskValue(Some(disk), "token") == Some(token)
    ensures MergeTree(ClaimedBy(w, MASKED_NODE), Some(disk)) == ClaimedBy(w, token)
  {
    var p := ClaimedBy(w, MASKED_NODE);
    MergedAt(p, Some(disk), 0);
    MergedAt(p, Some(disk), 1);
    MergedAt(p, Some(disk), 2);
    MergedAt(p, Some(disk), 3);
    assert MergeTree(p, Some(disk)).content == ClaimedBy(w, token).content;
  }

  /** That text does not always tell two items apart: a proposed item whose workspace is named
      like another workspace with its integration is matched to that one's item on disk and gets
      its secret, whatever they are. */
  lemma WorkspaceTextsCollide(w: string, i: string, secret: Node)
    requires w != "" && i != ""
    ensures var claim := w + "|integration:" + i;
      MergeTree(ListOf(ClaimedBy(claim, MASKED_NODE)), Some(ListOf(OwnedBy(w, i, secret)))) ==
      ListOf(ClaimedBy(claim, secret))
  {
    var claim := w + "|integration:" + i;
    var p, d := ClaimedBy(claim, MASKED_NODE), OwnedBy(w, i, secret);
    OwnerIdentity(w, i, secret);
    ClaimIdentity(claim, MASKED_NODE);
    assert "workspace:" + claim == "workspace:" + w + "|integration:" + i;
    OwnerToken(w, i, secret);
    TokenRestored(claim, d, secret);
    assert Matches([p], [d], 0) == [] && Used([]) == {};
    assert FindIdentity("workspace:" + claim, [d], {}, 0) == 0;
    assert Matches([p], [d], 1) == [0];
    assert MergeTree(ListOf(p), Some(ListOf(d))).content == [MergeTree(p, Some(d))];
  }

  // ---------------------------------------------------------------- masking keeps identities

  lemma MaskKeepsScalar(val: Node, key: string)
    requires key !in SENSITIVE_FIELDS
    ensures var m := MaskEntry(key, val); m.kind == val.kind && (val.kind.Scalar? ==> m == val)
  {
  }

  lemma {:induction false} MaskKeepsScalarUnder(n: Node, key: string, i: nat)
    requires n.kind.Mapping? && key !in SENSITIVE_FIELDS && i % 2 == 0
    ensures ScalarUnder(MaskTree(n).content, key, i) == ScalarUnder(n.content, key, i)
    decreases |n.content| - i
  {
    if i + 1 < |n.content| {
      if n.content[i].value == key { MaskKeepsScalar(n.content[i + 1], key); }
      MaskKeepsScalarUnder(n, key, i + 2);
    }
  }

  lemma MaskKeepsIdentity(n: Node)
    ensures Identity(MaskTree(n)) == Identity(n)
  {
    if n.kind.Mapping? {
      MaskKeepsScalarUnder(n, "name", 0);
      MaskKeepsScalarUnder(n, "app_id", 0);
      MaskKeepsScalarUnder(n, "workspace", 0);
      MaskKeepsScalarUnder(n, "integration", 0);
    }
  }

  // ---------------------------------------------------------------- matching

  // FindIdentity finds the first unused disk item with the identity, if there is one.
  lemma {:induction false} FindIdentitySound(id: string, disk: seq<Node>, used: set<int>, i: nat)
    ensures var r := FindIdentity(id, disk, used, i);
      && (r >= 0 ==> r !in used && Identity(disk[r]) == Some(id))
      && (forall j | i <= j < |disk| && j !in used && Identity(disk[j]) == Some(id) :: 0 <= r <= j)
    decreases |disk| - i
  {
    if i < |disk| && !(i !in used && Identity(disk[i]) == Some(id)) {
      FindIdentitySound(id, disk, used, i + 1);
    }
  }

  lemma {:induction false} MatchesPrefix(items: seq<Node>, disk: seq<Node>, k: nat, n: nat)
    requires k <= n <= |items|
    ensures Matches(items, disk, k) == Matches(items, disk, n)[..k]
    decreases n - k
  {
    if k < n {
      MatchesPrefix(items, disk, k, n - 1);
    }
  }

  // Step i of the matching, stated on the finished sequence of matches.
  lemma MatchStep(items: seq<Node>, disk: seq<Node>, i: nat)
    requires i < |items|
    ensures var all := Matches(items, disk, |items|);
      all[i] == MatchIndex(items[i], disk, Used(all[..i]), i)
  {
    MatchesPrefix(items, disk, i, |items|);
    MatchesPrefix(items, disk, i + 1, |items|);
    var all := Matches(items, disk, |items|);
    assert all[i] == all[..i + 1][i];
  }

  /** Sequence matching is an injective partial map, an item with an identity is only ever
      matched to a disk item of the same identity, and an item without one only to its own
      position. */
  lemma MatchingIsSound(items: seq<Node>, disk: seq<Node>)
    ensures var m := Matches(items, disk, |items|);
      && (forall i, j | 0 <= i < j < |items| && m[i] >= 0 :: m[i] != m[j])
      && (forall i | 0 <= i < |items| && m[i] >= 0 && Identity(items[i]).Some? ::
            Identity(disk[m[i]]) == Identity(items[i]))
      && (forall i | 0 <= i < |items| && m[i] >= 0 && Identity(items[i]).None? :: m[i] == i)
  {
    var m := Matches(items, disk, |items|);
    forall j | 0 <= j < |items| && m[j] >= 0
      ensures forall i | 0 <= i < j :: m[i] != m[j]
      ensures Identity(items[j]).Some? ==> Identity(disk[m[j]]) == Identity(items[j])
      ensures Identity(items[j]).None? ==> m[j] == j
    {
      MatchStep(items, disk, j);
      if Identity(items[j]).Some? {
        FindIdentitySound(Identity(items[j]).value, disk, Used(m[..j]), 0);
      }
      assert m[j] !in Used(m[..j]);
      forall i | 0 <= i < j ensures m[i] != m[j] {
        assert m[i] == m[..j][i];
      }
    }
  }

  lemma UsedBefore(before: seq<int>, k: nat)
    requires before == seq(k, j => j)
    ensures forall i: int :: i in Used(before) <==> 0 <= i < k
  {
    forall i | 0 <= i < k ensures i in Used(before) {
      assert before[i] == i;
      assert i in before;
    }
  }

  lemma OwnIndex(item: Node, disk: seq<Node>, before: seq<int>, k: nat)
    requires before == seq(k, j => j) && k < |disk| && Identity(item) == Identity(disk[k])
    ensures MatchIndex(item, disk, Used(before), k) == k
  {
    UsedBefore(before, k);
    if Identity(item).Some? { FindIdentitySound(Identity(item).value, disk, Used(before), 0); }
  }

  // Matching a masked list against its own original pairs every item with itself, because
  // step i always sees exactly the indices before it as used.
  lemma {:induction false} SelfMatch(items: seq<Node>, disk: seq<Node>, k: nat)
    requires k <= |items| == |disk|
    requires forall i | 0 <= i < |items| :: Identity(items[i]) == Identity(disk[i])
    ensures Matches(items, disk, k) == seq(k, i => i)
  {
    if k > 0 {
      SelfMatch(items, disk, k - 1);
      OwnIndex(items[k - 1], disk, Matches(items, disk, k - 1), k - 1);
    }
  }

  lemma MergedItemAt(p: Node, list: Node, i: nat)
    requires p.kind.Sequence? && list.kind.Sequence? && i < |p.content|
    ensures |MergeTree(p, Some(list)).content| == |p.content|
    ensures MergeTree(p, Some(list)).content[i] ==
            MergeTree(p.content[i], ItemAt(list.content, Matches(p.content, list.content, |p.content|)[i]))
  {
  }

  // Items with the identities of the disk items, in their order, are restored one from another.
  lemma PairedUp(p: Node, list: Node, i: nat)
    requires p.kind.Sequence? && list.kind.Sequence? && i < |p.content| == |list.content|
    requires forall j | 0 <= j < |p.content| :: Identity(p.content[j]) == Identity(list.content[j])
    ensures |MergeTree(p, Some(list)).content| == |p.content|
    ensures MergeTree(p, Some(list)).content[i] == MergeTree(p.content[i], Some(list.content[i]))
  {
    SelfMatch(p.content, list.content, |p.content|);
    MergedItemAt(p, list, i);
  }

  // ---------------------------------------------------------------- the round trip

  /** Masking a well-formed tree and restoring it from the original rebuilds it exactly. */
  lemma {:induction false} RoundTrip(t: Node)
    requires WellFormed(t)
    ensures MergeTree(MaskTree(t), Some(t)) == t
    decreases t, 1
  {
    match t.kind {
      case Document =>
        if t.content != [] { RoundTrip(t.content[0]); }
        assert MergeTree(MaskTree(t), Some(t)).content == t.content;
      case Sequence => RoundTripItems(t);
      case Mapping => RoundTripPairs(t);
      case _ =>
    }
  }

  lemma {:induction false} RoundTripItems(t: Node)
    requires WellFormed(t) && t.kind.Sequence?
    ensures MergeTree(MaskTree(t), Some(t)) == t
    decreases t, 0
  {
    var masked := MaskTree(t);
    var merged := MergeTree(masked, Some(t));
    forall i | 0 <= i < |t.content| ensures Identity(masked.content[i]) == Identity(t.content[i]) {
      MaskKeepsIdentity(t.content[i]);
    }
    forall i: nat | i < |t.content| ensures merged.content[i] == t.content[i] {
      PairedUp(masked, t, i);
      RoundTrip(t.content[i]);
    }
    assert merged.content == t.content;
  }

  lemma {:induction false} RoundTripPairs(t: Node)
    requires WellFormed(t) && t.kind.Mapping?
    ensures MergeTree(MaskTree(t), Some(t)) == t
    decreases t, 0
  {
    var merged := MergeTree(MaskTree(t), Some(t));
    forall i: nat | i < |t.content| ensures merged.content[i] == t.content[i] {
      if IsValuePosition(i) {
        RoundTripEntry(t.content[i - 1].value, t.content[i]);
        OwnValue(t, i);
      }
      RoundTripPairAt(t, i);
    }
    assert merged.content == t.content;
  }

  lemma MergedAt(p: Node, disk: Option<Node>, i: nat)
    requires p.kind.Mapping? && i < |p.content|
    ensures |MergeTree(p, disk).content| == |p.content|
    ensures MergeTree(p, disk).content[i] ==
            if IsValuePosition(i) then
              MergeEntry(p.content[i - 1].value, p.content[i], DiskValue(disk, p.content[i - 1].value))
            else p.content[i]
  {
  }

  // The masked form of a mapping, one position at a time.
  function MaskedAt(n: Node, i: nat): Node
    requires i < |n.content|
  {
    if IsValuePosition(i) then MaskEntry(n.content[i - 1].value, n.content[i]) else n.content[i]
  }

  lemma MaskedContentAt(t: Node, i: nat)
    requires t.kind.Mapping? && i < |t.content|
    ensures MaskTree(t).kind.Mapping? && |MaskTree(t).content| == |t.content|
    ensures MaskTree(t).content[i] == MaskedAt(t, i)
  {
  }

  lemma MaskedPairAt(t: Node, i: nat)
    requires t.kind.Mapping? && i < |t.content|
    ensures MaskTree(t).kind.Mapping? && |MaskTree(t).content| == |t.content|
    ensures MaskTree(t).content[i] == MaskedAt(t, i)
    ensures IsValuePosition(i) ==> MaskTree(t).content[i - 1] == t.content[i - 1]
  {
    MaskedContentAt(t, i);
    if IsValuePosition(i) {
      MaskedContentAt(t, i - 1);
      KeyStays(t, i - 1);
    }
  }

  lemma KeyStays(t: Node, i: nat)
    requires i < |t.content| && !IsValuePosition(i)
    ensures MaskedAt(t, i) == t.content[i]
  {
  }

  lemma RoundTripPairAt(t: Node, i: nat)
    requires t.kind.Mapping? && i < |t.content|
    requires IsValuePosition(i) ==>
      && DiskValue(Some(t), t.content[i - 1].value) == Some(t.content[i])
      && MergeEntry(t.content[i - 1].value, MaskEntry(t.content[i - 1].value, t.content[i]), Some(t.content[i]))
         == t.content[i]
    ensures |MergeTree(MaskTree(t), Some(t)).content| == |t.content|
    ensures MergeTree(MaskTree(t), Some(t)).content[i] == t.content[i]
  {
    MaskedPairAt(t, i);
    MergedAt(MaskTree(t), Some(t), i);
  }


  lemma RoundTripEntry(key: string, val: Node)
    requires WellFormed(val)
    ensures MergeEntry(key, MaskEntry(key, val), Some(val)) == val
    decreases val, 2
  {
    if key !in SENSITIVE_FIELDS {
      if key == "secrets" && val.kind.Mapping? {
        RoundTripSecrets(val);
      } else {
        RoundTrip(val);
        assert MaskTree(val).kind == val.kind;
      }
    }
  }

  lemma RoundTripSecrets(val: Node)
    requires WellFormed(val) && val.kind.Mapping?
    ensures MergeSecretMap(MaskSecretMap(val), Some(val)) == val
  {
    var merged := MergeSecretMap(MaskSecretMap(val), Some(val));
    forall i: nat | i < |val.content| ensures merged.content[i] == val.content[i] {
      if IsValuePosition(i) { OwnValue(val, i); }
      RoundTripSecretAt(val, i);
    }
    assert merged.content == val.content;
  }

  lemma RoundTripSecretAt(val: Node, i: nat)
    requires i < |val.content|
    requires IsValuePosition(i) ==> DiskValue(Some(val), val.content[i - 1].value) == Some(val.content[i])
    ensures MergeSecretMap(MaskSecretMap(val), Some(val)).content[i] == val.content[i]
  {
    var masked := MaskSecretMap(val);
    if IsValuePosition(i) {
      assert !IsValuePosition(i - 1);
      assert masked.content[i - 1] == val.content[i - 1] && masked.content[i] == MASKED_NODE;
    } else {
      assert masked.content[i] == val.content[i];
    }
  }

  // ---------------------------------------------------------------- reordering and removal

  // order picks positions of disk, none of them twice.
  predicate Selection(order: seq<nat>, disk: seq<Node>) {
    && (forall i | 0 <= i < |order| :: order[i] < |disk|)
    && (forall i, j | 0 <= i < j < |order| :: order[i] != order[j])
  }

  // Item i is the one the matching picks: without an identity it has kept its position, and items
  // that share its identity and stood before it on disk still do.
  predicate InTurn(order: seq<nat>, disk: seq<Node>, i: nat)
    requires Selection(order, disk) && i < |order|
  {
    match Identity(disk[order[i]])
    case None => order[i] == i
    case Some(_) => forall d: nat | d < order[i] && Identity(disk[d]) == Identity(disk[order[i]]) :: d in order[..i]
  }

  predicate AllInTurn(order: seq<nat>, disk: seq<Node>, k: nat)
    requires Selection(order, disk) && k <= |order|
  {
    k == 0 || (AllInTurn(order, disk, k - 1) && InTurn(order, disk, k - 1))
  }

  lemma {:induction false} FirstFound(id: string, disk: seq<Node>, used: set<int>, i: nat, at: nat)
    requires i <= at < |disk| && at !in used && Identity(disk[at]) == Some(id)
    ensures FindIdentity(id, disk, used, i) == at <==>
            forall d: nat | i <= d < at && Identity(disk[d]) == Some(id) :: d in used
    decreases at - i
  {
    if i < at {
      if i !in used && Identity(disk[i]) == Some(id) {
        assert !forall d: nat | i <= d < at && Identity(disk[d]) == Some(id) :: d in used;
      } else {
        FirstFound(id, disk, used, i + 1, at);
      }
    }
  }

  lemma UsedPositions(order: seq<nat>, i: nat, d: nat)
    requires i <= |order|
    ensures d in Used(order[..i]) <==> d in order[..i]
  {
  }

  lemma PickedNext(disk: seq<Node>, order: seq<nat>, item: Node, i: nat)
    requires Selection(order, disk) && i < |order| && Identity(item) == Identity(disk[order[i]])
    ensures MatchIndex(item, disk, Used(order[..i]), i) == order[i] <==> InTurn(order, disk, i)
  {
    var used, at := Used(order[..i]), order[i];
    assert at !in used by { UsedPositions(order, i, at); }
    forall d: nat ensures d in used <==> d in order[..i] { UsedPositions(order, i, d); }
    if Identity(item).Some? { FirstFound(Identity(item).value, disk, used, 0, at); }
  }

  lemma SnocBoth(a: seq<int>, x: int, b: seq<int>, y: int)
    ensures a + [x] == b + [y] <==> a == b && x == y
  {
    assert (a + [x])[|a|] == x && (b + [y])[|b|] == y;
    assert (a + [x])[..|a|] == a && (b + [y])[..|b|] == b;
  }

  lemma MatchedNext(items: seq<Node>, disk: seq<Node>, order: seq<nat>, k: nat)
    requires Selection(order, disk) && 0 < k <= |items| == |order|
    requires Identity(items[k - 1]) == Identity(disk[order[k - 1]])
    ensures Matches(items, disk, k) == order[..k] <==>
            Matches(items, disk, k - 1) == order[..k - 1] && InTurn(order, disk, k - 1)
  {
    var before := Matches(items, disk, k - 1);
    var next := MatchIndex(items[k - 1], disk, Used(before), k - 1);
    assert Matches(items, disk, k) == before + [next];
    SnocBoth(before, next, order[..k - 1], order[k - 1]);
    assert order[..k] == order[..k - 1] + [order[k - 1]];
    PickedNext(disk, order, items[k - 1], k - 1);
  }

  /** A list whose items were reordered, or some of them removed, is matched item by item to where
      its items came from if and only if items that share an identity have kept their order, the
      later ones being those removed, and items without one their position. */
  lemma {:induction false} MatchedExactly(items: seq<Node>, disk: seq<Node>, order: seq<nat>, k: nat)
    requires Selection(order, disk) && k <= |items| == |order|
    requires forall i | 0 <= i < |items| :: Identity(items[i]) == Identity(disk[order[i]])
    ensures Matches(items, disk, k) == order[..k] <==> AllInTurn(order, disk, k)
    decreases k
  {
    if k > 0 {
      MatchedExactly(items, disk, order, k - 1);
      MatchedNext(items, disk, order, k);
    }
  }

  function Picked(disk: seq<Node>, order: seq<nat>): seq<Node>
    requires Selection(order, disk)
  {
    seq(|order|, i requires 0 <= i < |order| => disk[order[i]])
  }

  lemma PickedMasked(list: Node, order: seq<nat>)
    requires list.kind.Sequence? && Selection(order, list.content)
    ensures var masked := MaskTree(list.(content := Picked(list.content, order)));
      && |masked.content| == |order|
      && (forall i | 0 <= i < |order| :: masked.content[i] == MaskTree(list.content[order[i]]))
      && (forall i | 0 <= i < |order| :: Identity(masked.content[i]) == Identity(list.content[order[i]]))
  {
    forall i | 0 <= i < |order| ensures Identity(MaskTree(list.content[order[i]])) == Identity(list.content[order[i]]) {
      MaskKeepsIdentity(list.content[order[i]]);
    }
  }

  /** A masked list whose items were reordered, or some of them removed, gets every remaining
      secret back when items that share an identity have kept their order, with the later ones
      removed, and items without one their position. */
  lemma RestoreSurvivesReordering(list: Node, order: seq<nat>)
    requires list.kind.Sequence? && WellFormed(list)
    requires Selection(order, list.content) && AllInTurn(order, list.content, |order|)
    ensures var edited := list.(content := Picked(list.content, order));
      MergeTree(MaskTree(edited), Some(list)) == edited
  {
    var edited := list.(content := Picked(list.content, order));
    var masked := MaskTree(edited);
    PickedMasked(list, order);
    MatchedExactly(masked.content, list.content, order, |order|);
    forall i: nat | i < |order| ensures MergeTree(masked, Some(list)).content[i] == edited.content[i] {
      RestoredFrom(masked, list, order, i);
    }
    ListIsContent(edited, masked, Some(list));
  }

  lemma RestoredFrom(p: Node, list: Node, order: seq<nat>, i: nat)
    requires p.kind.Sequence? && list.kind.Sequence? && i < |p.content| == |order|
    requires Matches(p.content, list.content, |order|) == order[..|order|]
    requires order[i] < |list.content| && WellFormed(list.content[order[i]])
    requires p.content[i] == MaskTree(list.content[order[i]])
    ensures |MergeTree(p, Some(list)).content| == |order|
    ensures MergeTree(p, Some(list)).content[i] == list.content[order[i]]
  {
    MergedItemAt(p, list, i);
    RoundTrip(list.content[order[i]]);
    assert order[..|order|] == order;
  }

  // Only the content of a list is masked and restored.
  lemma ListIsContent(n: Node, p: Node, disk: Option<Node>)
    requires n.kind.Sequence? && p == MaskTree(n)
    requires |MergeTree(p, disk).content| == |n.content|
    requires forall i: nat | i < |n.content| :: MergeTree(p, disk).content[i] == n.content[i]
    ensures MergeTree(p, disk) == n
  {
    assert MergeTree(p, disk).content == n.content;
  }

  // Every item has an identity and no two items share one.
  predicate DistinctIdentities(items: seq<Node>) {
    && (forall i | 0 <= i < |items| :: Identity(items[i]).Some?)
    && (forall i, j | 0 <= i < j < |items| :: Identity(items[i]) != Identity(items[j]))
  }

  /** Items with distinct identities may be reordered and removed freely. */
  lemma {:induction false} DistinctAreInTurn(disk: seq<Node>, order: seq<nat>, k: nat)
    requires Selection(order, disk) && DistinctIdentities(disk) && k <= |order|
    ensures AllInTurn(order, disk, k)
  {
    if k > 0 { DistinctAreInTurn(disk, order, k - 1); }
  }

  // Two items that share an identity, in the other order.
  function Swapped(list: Node): Node
    requires |list.content| == 2
  {
    list.(content := [list.content[1], list.content[0]])
  }

  lemma SwappedMasked(list: Node)
    requires list.kind.Sequence? && |list.content| == 2
    ensures MaskTree(Swapped(list)).kind.Sequence?
    ensures MaskTree(Swapped(list)).content == [MaskTree(list.content[1]), MaskTree(list.content[0])]
  {
  }

  /** Otherwise secrets change hands: two items that share an identity and have changed places get
      each other's. */
  lemma SwappedSecrets(list: Node)
    requires list.kind.Sequence? && |list.content| == 2
    requires Identity(list.content[0]) == Identity(list.content[1])
    ensures MergeTree(MaskTree(Swapped(list)), Some(list)).content ==
            [MergeTree(MaskTree(list.content[1]), Some(list.content[0])),
             MergeTree(MaskTree(list.content[0]), Some(list.content[1]))]
  {
    SwappedMasked(list);
    MaskKeepsIdentity(list.content[0]);
    MaskKeepsIdentity(list.content[1]);
    TwoPairedUp(MaskTree(Swapped(list)), list);
  }

  lemma TwoPairedUp(p: Node, list: Node)
    requires p.kind.Sequence? && list.kind.Sequence? && |p.content| == |list.content| == 2
    requires Identity(p.content[0]) == Identity(list.content[0]) && Identity(p.content[1]) == Identity(list.content[1])
    ensures MergeTree(p, Some(list)).content ==
            [MergeTree(p.content[0], Some(list.content[0])), MergeTree(p.content[1], Some(list.content[1]))]
  {
    PairedUp(p, list, 0);
    PairedUp(p, list, 1);
  }

  // ---------------------------------------------------------------- what a restore may change

  // r is p with nothing changed except masked values under a sensitive key or inside "secrets".
  predicate OnlyMasksFilled(p: Node, r: Node)
    decreases p, 1
  {
    && r == p.(content := r.content)
    && |r.content| == |p.content|
    && match p.kind
       case Document => forall i | 0 <= i < |p.content| :: OnlyMasksFilled(p.content[i], r.content[i])
       case Sequence => forall i | 0 <= i < |p.content| :: OnlyMasksFilled(p.content[i], r.content[i])
       case Mapping => forall i: nat | i < |p.content| :: FilledAt(p, r, i)
       case _ => r == p
  }

  // Position i of a mapping: keys are kept, values follow the rule of their key.
  predicate FilledAt(p: Node, r: Node, i: nat)
    requires i < |p.content| == |r.content|
    decreases p, 0
  {
    if IsValuePosition(i) then EntryOnlyMasksFilled(p.content[i - 1].value, p.content[i], r.content[i])
    else r.content[i] == p.content[i]
  }

  predicate EntryOnlyMasksFilled(key: string, p: Node, r: Node)
    decreases p, 2
  {
    || (key in SENSITIVE_FIELDS && IsMasked(p))
    || (key == "secrets" && p.kind.Mapping? && SecretsOnlyMasksFilled(p, r))
    || OnlyMasksFilled(p, r)
  }

  predicate SecretsOnlyMasksFilled(p: Node, r: Node) {
    && r == p.(content := r.content)
    && |r.content| == |p.content|
    && forall i: nat | i < |p.content| :: SecretFilledAt(p, r, i)
  }

  predicate SecretFilledAt(p: Node, r: Node, i: nat)
    requires i < |p.content| == |r.content|
  {
    r.content[i] == p.content[i] || (IsValuePosition(i) && IsMasked(p.content[i]))
  }

  lemma {:induction false} FillsReflexive(p: Node)
    ensures OnlyMasksFilled(p, p)
    decreases p
  {
    forall i | 0 <= i < |p.content| ensures OnlyMasksFilled(p.content[i], p.content[i]) {
      FillsReflexive(p.content[i]);
    }
  }

  /** Whatever is proposed and whatever is on disk, restoring changes nothing except "***"
      values under sensitive keys or inside "secrets". */
  lemma {:induction false} RestoreOnlyFillsMasks(p: Node, disk: Option<Node>)
    ensures OnlyMasksFilled(p, MergeTree(p, disk))
    decreases p, 0
  {
    var r := MergeTree(p, disk);
    match p.kind {
      case Document =>
        forall i | 0 <= i < |p.content| ensures OnlyMasksFilled(p.content[i], r.content[i]) {
          if i == 0 { RestoreOnlyFillsMasks(p.content[0], DiskRoot(disk)); } else { FillsReflexive(p.content[i]); }
        }
      case Sequence =>
        var items := DiskItems(disk);
        var chosen := Matches(p.content, items, |p.content|);
        forall i | 0 <= i < |p.content| ensures OnlyMasksFilled(p.content[i], r.content[i]) {
          RestoreOnlyFillsMasks(p.content[i], ItemAt(items, chosen[i]));
        }
      case Mapping =>
        forall i: nat | i < |p.content| ensures FilledAt(p, r, i) {
          if IsValuePosition(i) {
            var key := p.content[i - 1].value;
            RestoreEntryOnlyFillsMasks(key, p.content[i], DiskValue(disk, key));
          }
        }
      case _ =>
    }
  }

  lemma RestoreEntryOnlyFillsMasks(key: string, p: Node, disk: Option<Node>)
    ensures EntryOnlyMasksFilled(key, p, MergeEntry(key, p, disk))
    decreases p, 1
  {
    if !(key in SENSITIVE_FIELDS && IsMasked(p)) {
      if key == "secrets" && p.kind.Mapping? {
        var r := MergeSecretMap(p, disk);
        forall i: nat | i < |p.content| ensures SecretFilledAt(p, r, i) {}
      } else {
        RestoreOnlyFillsMasks(p, disk);
      }
    }
  }

  lemma MaskedMappingEqual(n: Node, r: Node)
    requires n.kind.Mapping? && r == n.(content := r.content) && |r.content| == |n.content|
    requires forall i: nat | i < |n.content| :: MaskedAt(r, i) == MaskedAt(n, i)
    ensures MaskTree(r) == MaskTree(n)
  {
    forall i: nat | i < |n.content| ensures MaskTree(r).content[i] == MaskTree(n).content[i] {
      assert MaskTree(r).content[i] == MaskedAt(r, i);
      assert MaskTree(n).content[i] == MaskedAt(n, i);
    }
    assert MaskTree(r).content == MaskTree(n).content;
  }

  /** Filling masks is invisible to masking: nothing but secrets can differ before and after
      a restore. */
  lemma {:induction false} FillingIsHidden(p: Node, r: Node)
    requires OnlyMasksFilled(p, r)
    ensures MaskTree(r) == MaskTree(p)
    decreases p, 0
  {
    if p.kind.Mapping? {
      forall i: nat | i < |p.content| ensures MaskedAt(r, i) == MaskedAt(p, i) {
        assert FilledAt(p, r, i);
        if IsValuePosition(i) {
          assert FilledAt(p, r, i - 1);
          FillingIsHiddenEntry(p.content[i - 1].value, p.content[i], r.content[i]);
        }
      }
      MaskedMappingEqual(p, r);
    } else if p.kind.Document? || p.kind.Sequence? {
      forall i | 0 <= i < |p.content| ensures MaskTree(r.content[i]) == MaskTree(p.content[i]) {
        FillingIsHidden(p.content[i], r.content[i]);
      }
      assert MaskTree(r).content == MaskTree(p).content;
    }
  }

  lemma FillingIsHiddenEntry(key: string, p: Node, r: Node)
    requires EntryOnlyMasksFilled(key, p, r)
    ensures MaskEntry(key, r) == MaskEntry(key, p)
    decreases p, 1
  {
    if key !in SENSITIVE_FIELDS {
      if key == "secrets" && p.kind.Mapping? {
        SecretsFilledHidden(p, r);
      } else {
        FillingIsHidden(p, r);
      }
    }
  }

  lemma SecretsFilledHidden(p: Node, r: Node)
    requires p.kind.Mapping? && (SecretsOnlyMasksFilled(p, r) || OnlyMasksFilled(p, r))
    ensures r.kind.Mapping? && MaskSecretMap(r) == MaskSecretMap(p)
  {
    forall i: nat | i < |p.content| ensures MaskSecretMap(r).content[i] == MaskSecretMap(p).content[i] {
      if SecretsOnlyMasksFilled(p, r) { assert SecretFilledAt(p, r, i); } else { assert FilledAt(p, r, i); }
    }
    assert MaskSecretMap(r).content == MaskSecretMap(p).content;
  }

  lemma RestoreIsHidden(p: Node, disk: Option<Node>)
    ensures MaskTree(MergeTree(p, disk)) == MaskTree(p)
  {
    RestoreOnlyFillsMasks(p, disk);
    FillingIsHidden(p, MergeTree(p, disk));
  }

  /** An item that matches nothing on disk, such as a new or renamed one, is left exactly as
      proposed. */
  lemma {:induction false} UnmatchedIsUnchanged(p: Node)
    ensures MergeTree(p, None) == p
    decreases p, 0
  {
    var merged := MergeTree(p, None);
    var items := DiskItems(None);
    var chosen := Matches(p.content, items, |p.content|);
    forall i: nat | i < |p.content| ensures merged.content[i] == p.content[i] {
      UnmatchedIsUnchanged(p.content[i]);
      match p.kind {
        case Document => assert DiskRoot(None) == None;
        case Sequence => assert ItemAt(items, chosen[i]) == None;
        case Mapping => if IsValuePosition(i) { UnmatchedEntry(p.content[i - 1].value, p.content[i]); }
        case _ =>
      }
    }
    assert merged.content == p.content;
  }

  lemma UnmatchedEntry(key: string, val: Node)
    requires MergeTree(val, None) == val
    ensures MergeEntry(key, val, DiskValue(None, key)) == val
  {
    assert MergeSecretMap(val, None).content == val.content;
  }

  /** Masking twice is masking once. */
  lemma {:induction false} MaskIdempotent(t: Node)
    ensures MaskTree(MaskTree(t)) == MaskTree(t)
    decreases t, 1
  {
    if t.kind.Mapping? {
      MaskIdempotentPairs(t);
    } else if t.kind.Document? || t.kind.Sequence? {
      var once := MaskTree(t);
      forall i | 0 <= i < |t.content| ensures MaskTree(once.content[i]) == once.content[i] {
        MaskIdempotent(t.content[i]);
      }
      assert MaskTree(once).content == once.content;
    }
  }

  lemma {:induction false} MaskIdempotentPairs(t: Node)
    requires t.kind.Mapping?
    ensures MaskTree(MaskTree(t)) == MaskTree(t)
    decreases t, 0
  {
    var once := MaskTree(t);
    forall i: nat | i < |t.content| ensures MaskedAt(once, i) == MaskedAt(t, i) {
      MaskedPairAt(t, i);
      if IsValuePosition(i) {
        MaskIdempotentEntry(t.content[i - 1].value, t.content[i]);
      }
    }
    MaskedMappingEqual(t, once);
  }

  lemma MaskIdempotentEntry(key: string, val: Node)
    ensures MaskEntry(key, MaskEntry(key, val)) == MaskEntry(key, val)
    decreases val, 2
  {
    if key !in SENSITIVE_FIELDS {
      if key == "secrets" && val.kind.Mapping? {
        assert MaskSecretMap(MaskSecretMap(val)).content == MaskSecretMap(val).content;
      } else {
        MaskIdempotent(val);
      }
    }
  }

  // ---------------------------------------------------------------- the uniqueness of keys is needed

  /** With a repeated sensitive key the last value on disk wins for both pairs, so the round
      trip rebuilds the mapping exactly when the two values agree. */
  lemma RepeatedKeyRoundTrip(key: Node, a: Node, b: Node, mapping: Node)
    requires key.value in SENSITIVE_FIELDS
    requires mapping.kind.Mapping? && mapping.content == [key, a, key, b]
    ensures MergeTree(MaskTree(mapping), Some(mapping)) == mapping <==> a == b
  {
    RepeatedKeyRestored(key, a, b, mapping);
    assert mapping.content[1] == a && [key, b, key, b][1] == b;
  }

  lemma RepeatedKeyRestored(key: Node, a: Node, b: Node, mapping: Node)
    requires key.value in SENSITIVE_FIELDS
    requires mapping.kind.Mapping? && mapping.content == [key, a, key, b]
    ensures MergeTree(MaskTree(mapping), Some(mapping)) == mapping.(content := [key, b, key, b])
  {
    var masked := MaskTree(mapping);
    RepeatedKeyMasked(key, a, b, mapping);
    RepeatedKeyValue(key, a, b, mapping);
    MergedAt(masked, Some(mapping), 0);
    MergedAt(masked, Some(mapping), 1);
    MergedAt(masked, Some(mapping), 2);
    MergedAt(masked, Some(mapping), 3);
    assert MergeTree(masked, Some(mapping)).content == [key, b, key, b];
  }

  // On disk the key has its last value.
  lemma RepeatedKeyValue(key: Node, a: Node, b: Node, mapping: Node)
    requires mapping.kind.Mapping? && mapping.content == [key, a, key, b]
    ensures DiskValue(Some(mapping), key.value) == Some(b)
  {
    assert PairMap(mapping.content, 2) == PairMap(mapping.content, 1)[key.value := b];
  }

  lemma RepeatedKeyMasked(key: Node, a: Node, b: Node, mapping: Node)
    requires key.value in SENSITIVE_FIELDS
    requires mapping.kind.Mapping? && mapping.content == [key, a, key, b]
    ensures MaskTree(mapping).content == [key, MASKED_NODE, key, MASKED_NODE]
  {
    var masked := MaskTree(mapping);
    assert masked.content[0] == MaskedAt(mapping, 0) && masked.content[2] == MaskedAt(mapping, 2);
    assert masked.content[1] == MaskedAt(mapping, 1) && masked.content[3] == MaskedAt(mapping, 3);
  }
}
