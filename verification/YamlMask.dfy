/**
  What masking a configuration hides, and that it hides nothing else.
*/
module YamlMask {
  import opened YamlTree

  const HIDDEN := Node(Scalar, "!!str", 0, "", "***", [])

  predicate Sensitive(key: string) {
    key in {"token", "claw_token", "relay_secret", "ui_password", "api_key", "access_token", "private_key_pem",
            "client_secret", "webhook_secret"}
  }

  // Two trees that differ only in the values of sensitive fields and of secrets.
  predicate SameButSecrets(t: Node, u: Node)
    decreases t, 2
  {
    && u == t.(content := u.content) && |t.content| == |u.content|
    && match t.kind
       case Document => forall i | 0 <= i < |t.content| :: SameButSecrets(t.content[i], u.content[i])
       case Sequence => forall i | 0 <= i < |t.content| :: SameButSecrets(t.content[i], u.content[i])
       case Mapping => AllSame(t, u)
       case _ => t == u
  }

  predicate SameAt(t: Node, u: Node, i: nat)
    requires i < |t.content| == |u.content|
    decreases t, 0
  {
    if i % 2 == 0 then t.content[i] == u.content[i]
    else
      && t.content[i - 1].value == u.content[i - 1].value
      && SameValue(t.content[i - 1].value, t.content[i], u.content[i])
  }

  predicate AllSame(t: Node, u: Node)
    requires |t.content| == |u.content|
    decreases t, 1
  {
    forall i: nat | i < |t.content| :: SameAt(t, u, i)
  }

  predicate SameValue(key: string, t: Node, u: Node)
    decreases t, 3
  {
    if Sensitive(key) then true
    else if key == "secrets" && t.kind.Mapping? then SameNames(t, u)
    else !(key == "secrets" && u.kind.Mapping?) && SameButSecrets(t, u)
  }

  // The names in a map of secrets are no secret.
  predicate SameNames(t: Node, u: Node) {
    && u == t.(content := u.content) && |t.content| == |u.content|
    && forall i | 0 <= i < |t.content| && i % 2 == 0 :: t.content[i] == u.content[i]
  }

  lemma SecretMapHides(t: Node, u: Node)
    ensures MaskSecretMap(t) == MaskSecretMap(u) <==> SameNames(t, u)
  {
    var mt, mu := MaskSecretMap(t), MaskSecretMap(u);
    if mt == mu {
      assert u == t.(content := u.content);
      assert |t.content| == |mt.content| == |u.content|;
      forall i | 0 <= i < |t.content| && i % 2 == 0 ensures t.content[i] == u.content[i] {
        assert mt.content[i] == mu.content[i];
      }
    }
    if SameNames(t, u) { assert mt.content == mu.content; }
  }

  lemma MaskKeepsShape(t: Node)
    ensures MaskTree(t).(content := t.content) == t && |MaskTree(t).content| == |t.content|
  {
  }

  lemma {:induction false} EntryHidesExactly(key: string, t: Node, u: Node)
    ensures MaskEntry(key, t) == MaskEntry(key, u) <==> SameValue(key, t, u)
    decreases t, 3
  {
    MaskKeepsShape(t);
    MaskKeepsShape(u);
    if !Sensitive(key) {
      if key == "secrets" && t.kind.Mapping? {
        if u.kind.Mapping? { SecretMapHides(t, u); }
      } else {
        MaskHidesExactly(t, u);
      }
    }
  }

  lemma {:induction false} ItemsHideExactly(t: Node, u: Node)
    requires t.kind == u.kind && (t.kind.Document? || t.kind.Sequence?) && |t.content| == |u.content|
    ensures MaskTree(t).content == MaskTree(u).content <==>
      forall i | 0 <= i < |t.content| :: SameButSecrets(t.content[i], u.content[i])
    decreases t, 0
  {
    var mt, mu := MaskTree(t).content, MaskTree(u).content;
    forall i | 0 <= i < |t.content| ensures mt[i] == mu[i] <==> SameButSecrets(t.content[i], u.content[i]) {
      MaskHidesExactly(t.content[i], u.content[i]);
    }
  }

  // The keys are not masked, so equal masked pairs have equal keys.
  lemma {:induction false} PairHidesExactly(t: Node, u: Node, i: nat)
    requires t.kind == u.kind && t.kind.Mapping? && i < |t.content| == |u.content|
    requires i % 2 == 1 ==> t.content[i - 1].value == u.content[i - 1].value
    ensures MaskTree(t).content[i] == MaskTree(u).content[i] <==> SameAt(t, u, i)
    decreases t, 0
  {
    if i % 2 == 1 { EntryHidesExactly(t.content[i - 1].value, t.content[i], u.content[i]); }
  }

  lemma {:induction false} PairsHideExactly(t: Node, u: Node)
    requires t.kind == u.kind && t.kind.Mapping? && |t.content| == |u.content|
    ensures MaskTree(t).content == MaskTree(u).content <==> AllSame(t, u)
    decreases t, 1
  {
    var mt, mu := MaskTree(t).content, MaskTree(u).content;
    if mt == mu {
      forall i: nat | i < |t.content| ensures SameAt(t, u, i) {
        assert i % 2 == 1 ==> mt[i - 1] == t.content[i - 1] && mu[i - 1] == u.content[i - 1];
        PairHidesExactly(t, u, i);
      }
    } else if AllSame(t, u) {
      forall i: nat | i < |t.content| ensures mt[i] == mu[i] {
        assert SameAt(t, u, i);
        PairHidesExactly(t, u, i);
      }
      assert false;
    }
  }

  /** Two configurations look the same when masked if and only if they differ in nothing but the
      values of the nine sensitive fields, whatever they are and wherever they stand, and the values
      in maps named secrets: those are hidden, and everything else can be read off. */
  lemma {:induction false} MaskHidesExactly(t: Node, u: Node)
    ensures MaskTree(t) == MaskTree(u) <==> SameButSecrets(t, u)
    decreases t, 2
  {
    MaskKeepsShape(t);
    MaskKeepsShape(u);
    if u == t.(content := u.content) && |t.content| == |u.content| {
      match t.kind
      case Document => ItemsHideExactly(t, u);
      case Sequence => ItemsHideExactly(t, u);
      case Mapping => PairsHideExactly(t, u);
      case _ =>
    }
  }

  /** What is hidden reads as three stars. */
  lemma HiddenReadsAsStars(n: Node, i: nat)
    requires n.kind.Mapping? && 2 * i + 1 < |n.content|
    ensures var key, val, shown := n.content[2 * i].value, n.content[2 * i + 1], MaskTree(n).content[2 * i + 1];
      && (Sensitive(key) ==> shown == HIDDEN)
      && (key == "secrets" && val.kind.Mapping? ==>
            && |shown.content| == |val.content|
            && forall k | 0 <= k < |val.content| :: shown.content[k] == if k % 2 == 1 then HIDDEN else val.content[k])
  {
    assert MaskTree(n).content[2 * i + 1] == MaskEntry(n.content[2 * i].value, n.content[2 * i + 1]);
  }
}
