/**
  The YAML nodes as the hub holds them: objects that are masked and restored in place.

  Every method is tied to the function of the same step on trees; what those functions
  guarantee is proved in YamlRoundTrip.
*/
module YamlNodes {
  import opened YamlTree
  import RT = YamlRoundTrip
  import opened Wrappers

  // ---------------------------------------------------------------- content that is masked up to a position

  function ItemsMasked(content: seq<Node>, i: nat): seq<Node> {
    seq(|content|, j requires 0 <= j < |content| => if j < i then MaskTree(content[j]) else content[j])
  }

  function PairsMasked(content: seq<Node>, i: nat): seq<Node> {
    seq(|content|, j requires 0 <= j < |content| =>
      if j < i && IsValuePosition(j) then MaskEntry(content[j - 1].value, content[j]) else content[j])
  }

  function SecretsMasked(content: seq<Node>, i: nat): seq<Node> {
    seq(|content|, j requires 0 <= j < |content| => if j < i && IsValuePosition(j) then MASKED_NODE else content[j])
  }

  lemma ItemsMaskedNext(content: seq<Node>, i: nat)
    requires i < |content|
    ensures ItemsMasked(content, i)[i := MaskTree(ItemsMasked(content, i)[i])] == ItemsMasked(content, i + 1)
  {
  }

  lemma PairsMaskedNext(content: seq<Node>, i: nat)
    requires i % 2 == 0 && i + 1 < |content|
    ensures var now := PairsMasked(content, i);
      now[i + 1 := MaskEntry(now[i].value, now[i + 1])] == PairsMasked(content, i + 2)
  {
  }

  lemma SecretsMaskedNext(content: seq<Node>, i: nat)
    requires i % 2 == 0 && i + 1 < |content|
    ensures SecretsMasked(content, i)[i + 1 := MASKED_NODE] == SecretsMasked(content, i + 2)
  {
  }

  lemma NothingMasked(content: seq<Node>)
    ensures ItemsMasked(content, 0) == content && PairsMasked(content, 0) == content
    ensures SecretsMasked(content, 0) == content
  {
  }

  lemma PairMaskedAt(n: Node, i: nat, j: nat)
    requires i % 2 == 0 && i <= |n.content| <= i + 1 && n.kind.Mapping? && j < |n.content|
    ensures |MaskTree(n).content| == |n.content| && PairsMasked(n.content, i)[j] == MaskTree(n).content[j]
  {
  }

  lemma FirstItems(content: seq<Node>, i: nat)
    requires i < |content|
    ensures content[..i + 1] == content[..i] + [content[i]]
  {
  }

  // An odd last position is a key without a value.
  lemma AllPairsMasked(n: Node, i: nat)
    requires i % 2 == 0 && i <= |n.content| <= i + 1 && n.kind.Mapping?
    ensures n.(content := PairsMasked(n.content, i)) == MaskTree(n)
  {
    forall j: nat | j < |n.content| ensures PairsMasked(n.content, i)[j] == MaskTree(n).content[j] {
      PairMaskedAt(n, i, j);
    }
    assert MaskTree(n) == n.(content := MaskTree(n).content);
  }

  lemma AllSecretsMasked(n: Node, i: nat)
    requires i % 2 == 0 && i <= |n.content| <= i + 1
    ensures n.(content := SecretsMasked(n.content, i)) == MaskSecretMap(n)
  {
    assert SecretsMasked(n.content, i) == MaskSecretMap(n).content;
  }

  lemma AllItemsMasked(n: Node)
    requires n.kind.Sequence? || n.kind.Document?
    ensures n.(content := ItemsMasked(n.content, |n.content|)) == MaskTree(n)
  {
    assert ItemsMasked(n.content, |n.content|) == MaskTree(n).content;
  }

  // ---------------------------------------------------------------- content that is merged up to a position

  function ItemsMerged(content: seq<Node>, items: seq<Node>, i: nat): seq<Node> {
    var chosen := Matches(content, items, |content|);
    seq(|content|, j requires 0 <= j < |content| =>
      if j < i then MergeTree(content[j], ItemAt(items, chosen[j])) else content[j])
  }

  function PairsMerged(content: seq<Node>, disk: Option<Node>, i: nat): seq<Node> {
    seq(|content|, j requires 0 <= j < |content| =>
      if j < i && IsValuePosition(j) then MergeEntry(content[j - 1].value, content[j],
          DiskValue(disk, content[j - 1].value))
      else content[j])
  }

  function SecretsMerged(content: seq<Node>, disk: Option<Node>, i: nat): seq<Node> {
    seq(|content|, j requires 0 <= j < |content| =>
      if j < i && IsValuePosition(j) then MergeSecret(content[j], DiskValue(disk, content[j - 1].value))
      else content[j])
  }

  lemma ItemsMergedNext(content: seq<Node>, items: seq<Node>, i: nat)
    requires i < |content|
    ensures ItemsMerged(content, items, i)[i] == content[i]
    ensures ItemsMerged(content, items, i)[i :=
              MergeTree(content[i], ItemAt(items, Matches(content, items, |content|)[i]))]
            == ItemsMerged(content, items, i + 1)
  {
  }

  lemma PairsMergedNext(content: seq<Node>, disk: Option<Node>, i: nat)
    requires i % 2 == 0 && i + 1 < |content|
    ensures var now := PairsMerged(content, disk, i);
      now[i + 1 := MergeEntry(now[i].value, now[i + 1], DiskValue(disk, now[i].value))] ==
      PairsMerged(content, disk, i + 2)
  {
  }

  lemma SecretsMergedNext(content: seq<Node>, disk: Option<Node>, i: nat)
    requires i % 2 == 0 && i + 1 < |content|
    ensures var now := SecretsMerged(content, disk, i);
      now[i + 1 := MergeSecret(now[i + 1], DiskValue(disk, now[i].value))] == SecretsMerged(content, disk, i + 2)
  {
  }

  lemma NothingMerged(content: seq<Node>, items: seq<Node>, disk: Option<Node>)
    ensures ItemsMerged(content, items, 0) == content
    ensures PairsMerged(content, disk, 0) == content && SecretsMerged(content, disk, 0) == content
  {
  }

  lemma AllItemsMerged(n: Node, disk: Option<Node>)
    requires n.kind.Sequence?
    ensures n.(content := ItemsMerged(n.content, DiskItems(disk), |n.content|)) == MergeTree(n, disk)
  {
    assert ItemsMerged(n.content, DiskItems(disk), |n.content|) == MergeTree(n, disk).content;
  }

  lemma AllPairsMerged(n: Node, disk: Option<Node>, i: nat)
    requires i % 2 == 0 && i <= |n.content| <= i + 1 && n.kind.Mapping?
    ensures n.(content := PairsMerged(n.content, disk, i)) == MergeTree(n, disk)
  {
    assert PairsMerged(n.content, disk, i) == MergeTree(n, disk).content;
  }

  lemma AllSecretsMerged(n: Node, disk: Option<Node>, i: nat)
    requires i % 2 == 0 && i <= |n.content| <= i + 1
    ensures n.(content := SecretsMerged(n.content, disk, i)) == MergeSecretMap(n, disk)
  {
    assert SecretsMerged(n.content, disk, i) == MergeSecretMap(n, disk).content;
  }

  // The choice for item k is made with the choices before it used up.
  lemma MatchesNext(content: seq<Node>, items: seq<Node>, k: nat)
    requires k < |content|
    ensures Matches(content, items, |content|)[k] == MatchIndex(content[k], items, Used(Matches(content, items, k)), k)
    ensures Used(Matches(content, items, k + 1))
            == var m := Matches(content, items, |content|)[k];
               if m >= 0 then Used(Matches(content, items, k)) + {m} else Used(Matches(content, items, k))
  {
    RT.MatchStep(content, items, k);
    RT.MatchesPrefix(content, items, k, |content|);
    UsedSnoc(Matches(content, items, k), MatchIndex(content[k], items, Used(Matches(content, items, k)), k));
  }

  lemma UsedSnoc(before: seq<int>, m: int)
    ensures Used(before + [m]) == if m >= 0 then Used(before) + {m} else Used(before)
  {
    assert forall x :: x in before + [m] <==> x in before || x == m;
  }

  // The loop over the items of a sequence, from item i with some disk items used up.
  function MergeItemsFrom(t: Node, items: seq<Node>, used: set<int>, i: nat): Node
    decreases |t.content| - i
  {
    if i >= |t.content| then t
    else
      var m := MatchIndex(t.content[i], items, used, i);
      MergeItemsFrom(t.(content := t.content[i := MergeTree(t.content[i], ItemAt(items, m))]), items,
                     if m >= 0 then used + {m} else used, i + 1)
  }

  lemma {:induction false} MergeItemsFromIs(n: Node, items: seq<Node>, i: nat)
    requires i <= |n.content|
    ensures MergeItemsFrom(n.(content := ItemsMerged(n.content, items, i)), items,
                           Used(Matches(n.content, items, i)), i)
            == n.(content := ItemsMerged(n.content, items, |n.content|))
    decreases |n.content| - i
  {
    if i < |n.content| {
      MatchesNext(n.content, items, i);
      ItemsMergedNext(n.content, items, i);
      MergeItemsFromIs(n, items, i + 1);
    }
  }

  lemma MergeItemsIs(n: Node, disk: Option<Node>)
    requires n.kind.Sequence?
    ensures MergeItemsFrom(n, DiskItems(disk), {}, 0) == MergeTree(n, disk)
  {
    NothingMerged(n.content, DiskItems(disk), disk);
    assert Used(Matches(n.content, DiskItems(disk), 0)) == {};
    MergeItemsFromIs(n, DiskItems(disk), 0);
    AllItemsMerged(n, disk);
  }

  // The loops over the pairs of a mapping, from position i.
  function MergePairsFrom(t: Node, disk: Option<Node>, i: nat): Node
    decreases |t.content| - i
  {
    if i + 1 >= |t.content| then t
    else
      var key := t.content[i].value;
      var content := t.content[i + 1 := MergeEntry(key, t.content[i + 1], DiskValue(disk, key))];
      MergePairsFrom(t.(content := content), disk, i + 2)
  }

  function MergeSecretsFrom(t: Node, disk: Option<Node>, i: nat): Node
    decreases |t.content| - i
  {
    if i + 1 >= |t.content| then t
    else
      var key := t.content[i].value;
      var content := t.content[i + 1 := MergeSecret(t.content[i + 1], DiskValue(disk, key))];
      MergeSecretsFrom(t.(content := content), disk, i + 2)
  }

  lemma {:induction false} MergePairsFromIs(n: Node, disk: Option<Node>, i: nat)
    requires i % 2 == 0 && i <= |n.content| && n.kind.Mapping?
    ensures MergePairsFrom(n.(content := PairsMerged(n.content, disk, i)), disk, i) == MergeTree(n, disk)
    decreases |n.content| - i
  {
    if i + 1 < |n.content| {
      PairsMergedNext(n.content, disk, i);
      MergePairsFromIs(n, disk, i + 2);
    } else {
      AllPairsMerged(n, disk, i);
    }
  }

  lemma {:induction false} MergeSecretsFromIs(n: Node, disk: Option<Node>, i: nat)
    requires i % 2 == 0 && i <= |n.content|
    ensures MergeSecretsFrom(n.(content := SecretsMerged(n.content, disk, i)), disk, i) == MergeSecretMap(n, disk)
    decreases |n.content| - i
  {
    if i + 1 < |n.content| {
      SecretsMergedNext(n.content, disk, i);
      MergeSecretsFromIs(n, disk, i + 2);
    } else {
      AllSecretsMerged(n, disk, i);
    }
  }

  lemma MergePairsIs(n: Node, disk: Option<Node>)
    ensures n.kind.Mapping? ==> MergePairsFrom(n, disk, 0) == MergeTree(n, disk)
    ensures MergeSecretsFrom(n, disk, 0) == MergeSecretMap(n, disk)
  {
    NothingMerged(n.content, [], disk);
    if n.kind.Mapping? { MergePairsFromIs(n, disk, 0); }
    MergeSecretsFromIs(n, disk, 0);
  }

  class YamlNode {
    var kind: Kind
    var tag: string
    var style: int
    var anchor: string
    var value: string
    var content: seq<YamlNode>
    ghost var repr: set<object>

    constructor (kind: Kind, tag: string, style: int, anchor: string, value: string)
      ensures Valid() && fresh(repr) && Tree() == Node(kind, tag, style, anchor, value, [])
    {
      this.kind, this.tag, this.style, this.anchor, this.value := kind, tag, style, anchor, value;
      content, repr := [], {this};
    }

    // A tree: no node is shared, and this node owns everything below it.
    ghost predicate Valid()
      reads this, repr
      decreases repr
    {
      && this in repr
      && (forall i | 0 <= i < |content| ::
            content[i] in repr && content[i].repr <= repr && this !in content[i].repr && content[i].Valid())
      && (forall i, j | 0 <= i < j < |content| :: content[i].repr !! content[j].repr)
    }

    ghost function Tree(): Node
      requires Valid()
      reads this, repr
      decreases repr
    {
      Node(kind, tag, style, anchor, value,
           seq(|content|, i requires 0 <= i < |content| && Valid() reads this, repr => content[i].Tree()))
    }

    method MaskValue()
      requires Valid()
      modifies this
      ensures Valid() && repr == old(repr) && Tree() == MASKED_NODE
    {
      kind, style, tag, value, anchor := Scalar, 0, "!!str", MASK, "";
      content := [];
    }

    method MaskSecretValues()
      requires Valid()
      modifies repr
      ensures Valid() && repr == old(repr) && Tree() == MaskSecretMap(old(Tree()))
    {
      ghost var before := Tree();
      NothingMasked(before.content);
      var i := 0;
      while i + 1 < |content|
        invariant i % 2 == 0 && 0 <= i <= |content|
        invariant Valid() && repr == old(repr) && |content| == |before.content|
        invariant Tree() == before.(content := SecretsMasked(before.content, i))
      {
        MaskSecretAt(i + 1);
        SecretsMaskedNext(before.content, i);
        i := i + 2;
      }
      AllSecretsMasked(before, i);
    }

    method MaskSecretAt(i: nat)
      requires Valid() && i < |content|
      modifies content[i].repr
      ensures Valid() && repr == old(repr) && Tree() == old(Tree()).(content := old(Tree()).content[i := MASKED_NODE])
    {
      content[i].MaskValue();
      ChildChanged(i);
    }

    method MaskSensitiveYAMLValues()
      requires Valid()
      modifies repr
      ensures Valid() && repr == old(repr) && Tree() == MaskTree(old(Tree()))
      decreases repr, 3
    {
      match kind
      case Document => MaskChildren();
      case Sequence => MaskChildren();
      case Mapping => MaskPairs();
      case _ =>
    }

    method MaskChildren()
      requires Valid() && (kind.Document? || kind.Sequence?)
      modifies repr
      ensures Valid() && repr == old(repr) && Tree() == MaskTree(old(Tree()))
      decreases repr, 2
    {
      ghost var before := Tree();
      NothingMasked(before.content);
      for i := 0 to |content|
        invariant Valid() && repr == old(repr) && |content| == |before.content|
        invariant Tree() == before.(content := ItemsMasked(before.content, i))
      {
        MaskChild(i);
        ItemsMaskedNext(before.content, i);
      }
      AllItemsMasked(before);
    }

    method MaskChild(i: nat)
      requires Valid() && i < |content|
      modifies content[i].repr
      ensures Valid() && repr == old(repr)
      ensures Tree() == old(Tree()).(content := old(Tree()).content[i := MaskTree(old(Tree()).content[i])])
      decreases repr, 1
    {
      content[i].MaskSensitiveYAMLValues();
      ChildChanged(i);
    }

    // What one child's change means for this node.
    twostate lemma ChildChanged(i: nat)
      requires old(Valid()) && i < |content| && unchanged(this)
      requires content[i].Valid() && old(content[i].repr) <= content[i].repr <= repr
      requires content[i].repr == old(content[i].repr)
      requires forall o | o in repr && o !in content[i].repr :: unchanged(o)
      ensures Valid() && Tree() == old(Tree()).(content := old(Tree()).content[i := content[i].Tree()])
    {
      assert forall j | 0 <= j < |content| && j != i ::
          content[j].Valid() && content[j].Tree() == old(content[j].Tree());
      assert Tree().content == old(Tree()).content[i := content[i].Tree()];
    }

    method MaskPairs()
      requires Valid() && kind.Mapping?
      modifies repr
      ensures Valid() && repr == old(repr) && Tree() == MaskTree(old(Tree()))
      decreases repr, 2
    {
      ghost var before := Tree();
      NothingMasked(before.content);
      var i := 0;
      while i + 1 < |content|
        invariant i % 2 == 0 && 0 <= i <= |content|
        invariant Valid() && repr == old(repr) && |content| == |before.content|
        invariant Tree() == before.(content := PairsMasked(before.content, i))
      {
        MaskPair(i);
        PairsMaskedNext(before.content, i);
        i := i + 2;
      }
      AllPairsMasked(before, i);
    }

    method MaskPair(i: nat)
      requires Valid() && i + 1 < |content|
      modifies content[i + 1].repr
      ensures Valid() && repr == old(repr)
      ensures Tree() == old(Tree()).(content := old(Tree()).content[i + 1 :=
                          MaskEntry(old(Tree()).content[i].value, old(Tree()).content[i + 1])])
      decreases repr, 1
    {
      content[i + 1].MaskUnder(content[i].value);
      ChildChanged(i + 1);
    }

    // The value of one mapping entry.
    method MaskUnder(key: string)
      requires Valid()
      modifies repr
      ensures Valid() && repr == old(repr) && Tree() == MaskEntry(key, old(Tree()))
      decreases repr, 4
    {
      if key in SENSITIVE_FIELDS {
        MaskValue();
      } else if key == "secrets" && kind.Mapping? {
        MaskSecretValues();
      } else {
        MaskSensitiveYAMLValues();
      }
    }

    method Clone() returns (c: YamlNode)
      requires Valid()
      ensures fresh(c) && fresh(c.repr) && c.Valid() && c.Tree() == Tree()
      decreases repr
    {
      c := new YamlNode(kind, tag, style, anchor, value);
      for i := 0 to |content|
        invariant fresh(c) && fresh(c.repr) && c.Valid()
        invariant c.Tree() == Tree().(content := Tree().content[..i])
      {
        var child := content[i].Clone();
        c.Append(child);
        FirstItems(Tree().content, i);
      }
    }

    method Append(child: YamlNode)
      requires Valid() && child.Valid() && child.repr !! repr
      modifies this
      ensures Valid() && repr == old(repr) + child.repr
      ensures Tree() == old(Tree()).(content := old(Tree()).content + [old(child.Tree())])
    {
      content := content + [child];
      repr := repr + child.repr;
    }

    // ---------------------------------------------------------------- identities

    method MappingNodeScalarValue(key: string) returns (r: Option<string>)
      requires Valid()
      ensures r == MappingScalar(Tree(), key)
    {
      if !kind.Mapping? { return None; }
      var i := 0;
      while i + 1 < |content|
        invariant 0 <= i <= |content|
        invariant MappingScalar(Tree(), key) == ScalarUnder(Tree().content, key, i)
      {
        assert Tree().content[i] == content[i].Tree() && Tree().content[i + 1] == content[i + 1].Tree();
        if content[i].value == key && content[i + 1].kind.Scalar? { return Some(content[i + 1].value); }
        i := i + 2;
      }
      return None;
    }

    method SequenceItemIdentity() returns (r: Option<string>)
      requires Valid()
      ensures r == Identity(Tree())
    {
      if !kind.Mapping? { return None; }
      var name := MappingNodeScalarValue("name");
      if name.Some? && name.value != "" { return Some("name:" + name.value); }
      var appID := MappingNodeScalarValue("app_id");
      if appID.Some? && appID.value != "" { return Some("app_id:" + appID.value); }
      var workspace := MappingNodeScalarValue("workspace");
      if workspace.Some? && workspace.value != "" {
        var integration := MappingNodeScalarValue("integration");
        if integration.Some? && integration.value != "" {
          return Some("workspace:" + workspace.value + "|integration:" + integration.value);
        }
        return Some("workspace:" + workspace.value);
      }
      return None;
    }

    // ---------------------------------------------------------------- restoring in place

    // A child has changed and may own nodes that were made for it.
    twostate lemma ChildGrown(i: nat)
      requires old(Valid()) && i < |content| && content == old(content) && repr == old(repr) + content[i].repr
      requires (kind, tag, style, anchor, value) == old((kind, tag, style, anchor, value))
      requires content[i].Valid() && fresh(content[i].repr - old(content[i].repr))
      requires forall o | o in old(repr) && o !in old(content[i].repr) && o != this :: unchanged(o)
      ensures Valid() && Tree() == old(Tree()).(content := old(Tree()).content[i := content[i].Tree()])
    {
      assert forall j | 0 <= j < |content| && j != i :: content[j].repr == old(content[j].repr) && content[j].Valid();
      assert forall j | 0 <= j < |content| && j != i :: content[j].Tree() == old(content[j].Tree());
      assert Tree().content == old(Tree()).content[i := content[i].Tree()];
    }

    method ReplaceChild(i: nat, c: YamlNode)
      requires Valid() && i < |content| && c.Valid() && c.repr !! repr
      modifies this
      ensures Valid() && repr == old(repr) + c.repr
      ensures Tree() == old(Tree()).(content := old(Tree()).content[i := old(c.Tree())])
    {
      content := content[i := c];
      repr := repr + c.repr;
      assert Tree().content == old(Tree()).content[i := old(c.Tree())];
    }

    method MergeMaskedSecretsNode(disk: YamlNode?)
      requires Valid() && Apart(disk)
      modifies repr
      ensures Valid() && old(repr) <= repr && fresh(repr - old(repr))
      ensures Tree() == MergeTree(old(Tree()), old(TreeOf(disk)))
      decreases Tree(), 2
    {
      match kind
      case Document =>
        if |content| > 0 {
          var diskRoot := if disk != null && |disk.content| > 0 then disk.content[0] else null;
          MergeChild(0, diskRoot);
        }
      case Sequence => MergeItems(disk);
      case Mapping => MergePairs(disk);
      case _ =>
    }

    // The disk tree, if there is one, shares nothing with this one.
    ghost predicate Apart(disk: YamlNode?)
      reads this, disk, if disk == null then {} else disk.repr
    {
      disk != null ==> disk.Valid() && disk.repr !! repr
    }

    method MergeChild(i: nat, disk: YamlNode?)
      requires Valid() && i < |content| && Apart(disk)
      modifies repr
      ensures Valid() && old(repr) <= repr && fresh(repr - old(repr))
      ensures Tree() == old(Tree()).(content := old(Tree()).content[i :=
                          MergeTree(old(Tree()).content[i], old(TreeOf(disk)))])
      decreases Tree().content[i], 3
    {
      content[i].MergeMaskedSecretsNode(disk);
      repr := repr + content[i].repr;
      ChildGrown(i);
    }

    method MergeItems(disk: YamlNode?)
      requires Valid() && Apart(disk) && kind.Sequence?
      modifies repr
      ensures Valid() && old(repr) <= repr && fresh(repr - old(repr))
      ensures Tree() == MergeTree(old(Tree()), old(TreeOf(disk)))
      decreases Tree(), 1
    {
      ghost var before, diskTree := Tree(), TreeOf(disk);
      ghost var items := DiskItems(diskTree);
      var used: set<int> := {};
      for i := 0 to |content|
        invariant Valid() && old(repr) <= repr && fresh(repr - old(repr)) && |content| == |before.content|
        invariant Apart(disk) && TreeOf(disk) == diskTree
        invariant forall j | i <= j < |content| :: Tree().content[j] == before.content[j]
        invariant MergeItemsFrom(Tree(), items, used, i) == MergeItemsFrom(before, items, {}, 0)
      {
        used := MergeItem(i, disk, used);
      }
      MergeItemsIs(before, diskTree);
    }

    method MergeItem(i: nat, disk: YamlNode?, used: set<int>) returns (usedAfter: set<int>)
      requires Valid() && i < |content| && Apart(disk)
      modifies repr
      ensures Valid() && old(repr) <= repr && fresh(repr - old(repr))
      ensures Apart(disk) && TreeOf(disk) == old(TreeOf(disk))
      ensures var items, item := DiskItems(TreeOf(disk)), old(Tree()).content[i];
        var m := MatchIndex(item, items, used, i);
        && usedAfter == (if m >= 0 then used + {m} else used)
        && Tree() == old(Tree()).(content := old(Tree()).content[i := MergeTree(item, ItemAt(items, m))])
      decreases Tree().content[i], 4
    {
      var diskItems := if disk != null && disk.kind.Sequence? then disk.content else [];
      var idx := FindMatchingSequenceIndex(content[i], diskItems, DiskItems(TreeOf(disk)), used, i);
      usedAfter := used;
      if idx >= 0 {
        MergeChild(i, diskItems[idx]);
        usedAfter := used + {idx};
      } else {
        MergeChild(i, null);
      }
    }

    method MergePairs(disk: YamlNode?)
      requires Valid() && Apart(disk) && kind.Mapping?
      modifies repr
      ensures Valid() && old(repr) <= repr && fresh(repr - old(repr))
      ensures Tree() == MergeTree(old(Tree()), old(TreeOf(disk)))
      decreases Tree(), 1
    {
      ghost var before, diskTree := Tree(), TreeOf(disk);
      var diskVals := ValuesByKey(disk);
      var i := 0;
      while i + 1 < |content|
        invariant 0 <= i && |content| == |before.content|
        invariant Valid() && old(repr) <= repr && fresh(repr - old(repr))
        invariant Apart(disk) && TreeOf(disk) == diskTree && AreValues(diskVals, disk)
        invariant forall j | i <= j < |content| :: Tree().content[j] == before.content[j]
        invariant MergePairsFrom(Tree(), diskTree, i) == MergePairsFrom(before, diskTree, 0)
      {
        MergePairOf(i, disk, diskVals);
        i := i + 2;
      }
      MergePairsIs(before, diskTree);
    }

    method MergePairOf(i: nat, disk: YamlNode?, diskVals: map<string, YamlNode>)
      requires Valid() && i + 1 < |content| && Apart(disk) && AreValues(diskVals, disk)
      modifies repr
      ensures Valid() && old(repr) <= repr && fresh(repr - old(repr))
      ensures Apart(disk) && TreeOf(disk) == old(TreeOf(disk)) && AreValues(diskVals, disk)
      ensures var key := old(Tree()).content[i].value;
        Tree() == old(Tree()).(content := old(Tree()).content[i + 1 :=
                    MergeEntry(key, old(Tree()).content[i + 1], DiskValue(TreeOf(disk), key))])
      decreases Tree().content[i + 1], 5
    {
      var diskVal := if content[i].value in diskVals then diskVals[content[i].value] else null;
      ValueIs(diskVals, disk, content[i].value);
      MergePair(i, diskVal);
    }

    method MergePair(i: nat, diskVal: YamlNode?)
      requires Valid() && i + 1 < |content| && Apart(diskVal)
      modifies repr
      ensures Valid() && old(repr) <= repr && fresh(repr - old(repr))
      ensures Tree() == old(Tree()).(content := old(Tree()).content[i + 1 :=
                          MergeEntry(old(Tree()).content[i].value, old(Tree()).content[i + 1], old(TreeOf(diskVal)))])
      decreases Tree().content[i + 1], 4
    {
      var key, val := content[i].value, content[i + 1];
      if key in SENSITIVE_FIELDS && val.kind.Scalar? && val.value == MASK && diskVal != null {
        var c := diskVal.Clone();
        ReplaceChild(i + 1, c);
      } else if key == "secrets" && val.kind.Mapping? {
        val.MergeMaskedSecretMap(diskVal);
        repr := repr + val.repr;
        ChildGrown(i + 1);
      } else {
        MergeChild(i + 1, diskVal);
      }
    }

    method MergeMaskedSecretMap(disk: YamlNode?)
      requires Valid() && Apart(disk)
      modifies repr
      ensures Valid() && old(repr) <= repr && fresh(repr - old(repr))
      ensures Tree() == MergeSecretMap(old(Tree()), old(TreeOf(disk)))
    {
      ghost var before, diskTree := Tree(), TreeOf(disk);
      var diskVals := ValuesByKey(disk);
      var i := 0;
      while i + 1 < |content|
        invariant 0 <= i
        invariant Valid() && old(repr) <= repr && fresh(repr - old(repr))
        invariant Apart(disk) && TreeOf(disk) == diskTree && AreValues(diskVals, disk)
        invariant MergeSecretsFrom(Tree(), diskTree, i) == MergeSecretsFrom(before, diskTree, 0)
      {
        RestoreSecretOf(i, disk, diskVals);
        i := i + 2;
      }
      MergePairsIs(before, diskTree);
    }

    method RestoreSecretOf(i: nat, disk: YamlNode?, diskVals: map<string, YamlNode>)
      requires Valid() && i + 1 < |content| && Apart(disk) && AreValues(diskVals, disk)
      modifies this
      ensures Valid() && old(repr) <= repr && fresh(repr - old(repr))
      ensures Apart(disk) && TreeOf(disk) == old(TreeOf(disk)) && AreValues(diskVals, disk)
      ensures Tree() == old(Tree()).(content := old(Tree()).content[i + 1 :=
                          MergeSecret(old(Tree()).content[i + 1],
                                      DiskValue(TreeOf(disk), old(Tree()).content[i].value))])
    {
      var diskVal := if content[i].value in diskVals then diskVals[content[i].value] else null;
      ValueIs(diskVals, disk, content[i].value);
      RestoreSecret(i, diskVal);
    }

    method RestoreSecret(i: nat, diskVal: YamlNode?)
      requires Valid() && i + 1 < |content| && Apart(diskVal)
      modifies this
      ensures Valid() && old(repr) <= repr && fresh(repr - old(repr))
      ensures Tree() == old(Tree()).(content := old(Tree()).content[i + 1 :=
                          MergeSecret(old(Tree()).content[i + 1], old(TreeOf(diskVal)))])
    {
      var val := content[i + 1];
      assert Tree().content[i + 1] == val.Tree();
      if val.kind.Scalar? && val.value == MASK && diskVal != null {
        var c := diskVal.Clone();
        ReplaceChild(i + 1, c);
      } else {
        assert Tree().content == Tree().content[i + 1 := val.Tree()];
      }
    }
  }

  ghost function TreeOf(n: YamlNode?): Option<Node>
    requires n != null ==> n.Valid()
    reads n, if n == null then {} else n.repr
  {
    if n == null then None else Some(n.Tree())
  }

  // The values of a mapping on disk by key.
  ghost predicate AreValues(vals: map<string, YamlNode>, disk: YamlNode?)
    requires disk != null ==> disk.Valid()
    reads disk, if disk == null then {} else disk.repr
  {
    && (forall key :: key in vals <==> DiskValue(TreeOf(disk), key).Some?)
    && (forall key | key in vals ::
          && disk != null && vals[key] in disk.repr && vals[key].repr <= disk.repr && vals[key].Valid()
          && DiskValue(TreeOf(disk), key) == Some(vals[key].Tree()))
  }

  lemma ValueIs(vals: map<string, YamlNode>, disk: YamlNode?, key: string)
    requires disk != null ==> disk.Valid()
    requires AreValues(vals, disk)
    ensures var v := if key in vals then vals[key] else null;
      && (v != null ==> disk != null && v.Valid() && v.repr <= disk.repr)
      && TreeOf(v) == DiskValue(TreeOf(disk), key)
  {
  }

  method ValuesByKey(disk: YamlNode?) returns (vals: map<string, YamlNode>)
    requires disk != null ==> disk.Valid()
    ensures AreValues(vals, disk)
  {
    vals := map[];
    if disk == null || !disk.kind.Mapping? { return; }
    var i := 0;
    ghost var tree := disk.Tree();
    while i + 1 < |disk.content|
      invariant i % 2 == 0 && 0 <= i <= |disk.content|
      invariant vals.Keys == PairMap(tree.content, i / 2).Keys
      invariant forall key | key in vals ::
        && vals[key] in disk.repr && vals[key].repr <= disk.repr && vals[key].Valid()
        && PairMap(tree.content, i / 2)[key] == vals[key].Tree()
    {
      assert tree.content[i] == disk.content[i].Tree() && tree.content[i + 1] == disk.content[i + 1].Tree();
      assert (i + 2) / 2 == i / 2 + 1;
      vals := vals[disk.content[i].value := disk.content[i + 1]];
      i := i + 2;
    }
    assert i / 2 == |tree.content| / 2;
  }

  // The nodes are trees, and these are the trees.
  ghost predicate Are(nodes: seq<YamlNode>, trees: seq<Node>)
    reads set n | n in nodes, set n, o | n in nodes && o in n.repr :: o
  {
    |nodes| == |trees| && forall i | 0 <= i < |nodes| :: nodes[i].Valid() && nodes[i].Tree() == trees[i]
  }

  method FindMatchingSequenceIndex(item: YamlNode, diskItems: seq<YamlNode>, ghost trees: seq<Node>,
                                   used: set<int>, fallback: nat)
    returns (r: int)
    requires item.Valid() && Are(diskItems, trees)
    ensures r == MatchIndex(item.Tree(), trees, used, fallback)
  {
    var identity := item.SequenceItemIdentity();
    if identity.Some? {
      for i := 0 to |diskItems|
        invariant FindIdentity(identity.value, trees, used, 0) == FindIdentity(identity.value, trees, used, i)
      {
        if i !in used {
          var diskIdentity := diskItems[i].SequenceItemIdentity();
          if diskIdentity.Some? && diskIdentity.value == identity.value { return i; }
        }
      }
      return -1;
    }
    if fallback < |diskItems| && fallback !in used { return fallback; }
    return -1;
  }
}
