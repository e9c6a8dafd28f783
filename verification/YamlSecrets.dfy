/**
  Masking and restoring secrets in a YAML configuration tree.

  The hub shows its configuration to a language model with every secret replaced by "***"
  and, when an edited configuration comes back, copies the secrets of the configuration on
  disk into the places that are still masked.  A node is modelled as the YAML library
  lays it out: a mapping's content alternates keys and values.
*/
module YamlTree {
  import opened Wrappers

  datatype Kind = Document | Sequence | Mapping | Scalar | Alias

  datatype Node = Node(kind: Kind, tag: string, style: int, anchor: string, value: string, content: seq<Node>)

  const MASK := "***"

  const MASKED_NODE := Node(Scalar, "!!str", 0, "", MASK, [])

  const SENSITIVE_FIELDS: set<string> := {
    "token", "claw_token", "relay_secret", "ui_password", "api_key",
    "access_token", "private_key_pem", "client_secret", "webhook_secret"
  }

  predicate IsMasked(n: Node) {
    n.kind.Scalar? && n.value == MASK
  }

  // In a mapping, positions 1, 3, 5, ... hold values; a trailing key without a value is ignored.
  predicate IsValuePosition(i: nat) {
    i % 2 == 1
  }

  // ---------------------------------------------------------------- masking

  function MaskTree(n: Node): Node
    decreases n, 1
  {
    match n.kind
    case Document => n.(content := seq(|n.content|, i requires 0 <= i < |n.content| => MaskTree(n.content[i])))
    case Sequence => n.(content := seq(|n.content|, i requires 0 <= i < |n.content| => MaskTree(n.content[i])))
    case Mapping => n.(content := seq(|n.content|, i requires 0 <= i < |n.content| =>
      if IsValuePosition(i) then MaskEntry(n.content[i - 1].value, n.content[i]) else n.content[i]))
    case _ => n
  }

  // The value of one mapping entry, masked according to its key.
  function MaskEntry(key: string, val: Node): Node
    decreases val, 2
  {
    if key in SENSITIVE_FIELDS then MASKED_NODE
    else if key == "secrets" && val.kind.Mapping? then MaskSecretMap(val)
    else MaskTree(val)
  }

  function MaskSecretMap(n: Node): Node {
    n.(content := seq(|n.content|, i requires 0 <= i < |n.content| =>
      if IsValuePosition(i) then MASKED_NODE else n.content[i]))
  }

  // ---------------------------------------------------------------- identities of sequence items

  // The first scalar stored under key, scanning pairs from position i.
  function ScalarUnder(content: seq<Node>, key: string, i: nat): Option<string>
    decreases |content| - i
  {
    if i + 1 >= |content| then None
    else if content[i].value == key && content[i + 1].kind.Scalar? then Some(content[i + 1].value)
    else ScalarUnder(content, key, i + 2)
  }

  function MappingScalar(n: Node, key: string): Option<string> {
    if n.kind.Mapping? then ScalarUnder(n.content, key, 0) else None
  }

  predicate NonEmpty(s: Option<string>) {
    s.Some? && s.value != ""
  }

  function Identity(n: Node): Option<string> {
    var name := MappingScalar(n, "name");
    var appId := MappingScalar(n, "app_id");
    var workspace := MappingScalar(n, "workspace");
    var integration := MappingScalar(n, "integration");
    if NonEmpty(name) then Some("name:" + name.value)
    else if NonEmpty(appId) then Some("app_id:" + appId.value)
    else if NonEmpty(workspace) then
      if NonEmpty(integration) then Some("workspace:" + workspace.value + "|integration:" + integration.value)
      else Some("workspace:" + workspace.value)
    else None
  }

  // ---------------------------------------------------------------- matching proposed items to disk items

  // The first unused disk index at or after i whose item has the given identity, or -1.
  function FindIdentity(id: string, disk: seq<Node>, used: set<int>, i: nat): (r: int)
    ensures r == -1 || i <= r < |disk|
    decreases |disk| - i
  {
    if i >= |disk| then -1
    else if i !in used && Identity(disk[i]) == Some(id) then i
    else FindIdentity(id, disk, used, i + 1)
  }

  function MatchIndex(item: Node, disk: seq<Node>, used: set<int>, fallback: nat): (r: int)
    ensures r == -1 || 0 <= r < |disk|
  {
    match Identity(item)
    case Some(id) => FindIdentity(id, disk, used, 0)
    case None => if fallback < |disk| && fallback !in used then fallback else -1
  }

  function Used(matches: seq<int>): set<int> {
    set m | m in matches && m >= 0
  }

  // The disk index chosen for each of the first k proposed items, in order.
  function Matches(items: seq<Node>, disk: seq<Node>, k: nat): (r: seq<int>)
    requires k <= |items|
    ensures |r| == k
    ensures forall i :: 0 <= i < k ==> r[i] == -1 || 0 <= r[i] < |disk|
  {
    if k == 0 then []
    else
      var before := Matches(items, disk, k - 1);
      before + [MatchIndex(items[k - 1], disk, Used(before), k - 1)]
  }

  // ---------------------------------------------------------------- restoring

  // The values of the first k pairs by key; a repeated key keeps its last value.
  function PairMap(content: seq<Node>, k: nat): (m: map<string, Node>)
    requires 2 * k <= |content|
  {
    if k == 0 then map[] else PairMap(content, k - 1)[content[2 * k - 2].value := content[2 * k - 1]]
  }

  function DiskValue(disk: Option<Node>, key: string): Option<Node> {
    if disk.Some? && disk.value.kind.Mapping? then
      var vals := PairMap(disk.value.content, |disk.value.content| / 2);
      if key in vals then Some(vals[key]) else None
    else None
  }

  function DiskItems(disk: Option<Node>): seq<Node> {
    if disk.Some? && disk.value.kind.Sequence? then disk.value.content else []
  }

  function DiskRoot(disk: Option<Node>): Option<Node> {
    if disk.Some? && |disk.value.content| > 0 then Some(disk.value.content[0]) else None
  }

  function ItemAt(items: seq<Node>, i: int): Option<Node>
    requires i == -1 || 0 <= i < |items|
  {
    if i == -1 then None else Some(items[i])
  }

  function MergeTree(p: Node, disk: Option<Node>): Node
    decreases p, 1
  {
    match p.kind
    case Document =>
      if p.content == [] then p
      else p.(content := p.content[0 := MergeTree(p.content[0], DiskRoot(disk))])
    case Sequence =>
      var items := DiskItems(disk);
      var chosen := Matches(p.content, items, |p.content|);
      p.(content := seq(|p.content|, i requires 0 <= i < |p.content| =>
        MergeTree(p.content[i], ItemAt(items, chosen[i]))))
    case Mapping =>
      p.(content := seq(|p.content|, i requires 0 <= i < |p.content| =>
        if IsValuePosition(i) then
          MergeEntry(p.content[i - 1].value, p.content[i], DiskValue(disk, p.content[i - 1].value))
        else p.content[i]))
    case _ => p
  }

  function MergeEntry(key: string, val: Node, disk: Option<Node>): Node
    decreases val, 2
  {
    if key in SENSITIVE_FIELDS && IsMasked(val) && disk.Some? then disk.value
    else if key == "secrets" && val.kind.Mapping? then MergeSecretMap(val, disk)
    else MergeTree(val, disk)
  }

  function MergeSecretMap(p: Node, disk: Option<Node>): Node {
    p.(content := seq(|p.content|, i requires 0 <= i < |p.content| =>
      if IsValuePosition(i) then MergeSecret(p.content[i], DiskValue(disk, p.content[i - 1].value))
      else p.content[i]))
  }

  function MergeSecret(val: Node, disk: Option<Node>): Node {
    if IsMasked(val) && disk.Some? then disk.value else val
  }
}
