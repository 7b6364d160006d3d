/**
 * The construct tree the core walks. The constructs library itself is not part
 * of this model; it is replaced by an explicit tree in which every node has an
 * id (unique among its siblings), ordered children, a tag saying what kind of
 * construct it is, and the messages its own validations report.
 */
module ConstructTree {
  import Strings

  /** What a node is; this replaces the symbol-based `isStack` / `isTerraformElement` checks. */
  datatype Kind =
    | App
    | Stack
      /** A resource, with its type, friendly unique id and whether `hasResourceMove()` holds. */
    | Resource(resourceType: string, friendlyUniqueId: string, hasMove: bool)
      /** A `TerraformOutput`, with its friendly unique id. */
    | Output(friendlyUniqueId: string)
      /** Any other Terraform element (provider, data source, backend, ...). */
    | OtherElement
      /** A construct that is not an element (a grouping construct). */
    | Plain

  datatype Node = Node(id: string, kind: Kind, children: seq<Node>, validationErrors: seq<string>)

  /** A node together with the ids of its scopes, from the root down to the node itself. */
  datatype Located = Located(ids: seq<string>, node: Node)

  predicate IsStack(n: Node) { n.kind.Stack? }

  /** Resources, outputs and other elements are Terraform elements; stacks, apps and plain constructs are not. */
  predicate IsElement(n: Node)
  {
    n.kind.Resource? || n.kind.Output? || n.kind.OtherElement?
  }

  /** The ids that appear in a construct path: the root's empty id is left out. */
  function PathIds(ids: seq<string>): (r: seq<string>)
    ensures forall i :: 0 <= i < |r| ==> r[i] != "" && r[i] in ids
    ensures forall x :: x in ids && x != "" ==> x in r
    ensures |r| <= |ids|
  {
    if |ids| == 0 then []
    else (if ids[0] == "" then [] else [ids[0]]) + PathIds(ids[1..])
  }

  /** The path of a longer scope chain extends the path of its start, keeping every id in order. */
  lemma {:induction false} PathIdsAppend(a: seq<string>, b: seq<string>)
    ensures PathIds(a + b) == PathIds(a) + PathIds(b)
    decreases |a|
  {
    if |a| == 0 {
      assert a + b == b;
    } else {
      var head := if a[0] == "" then [] else [a[0]];
      assert (a + b)[0] == a[0] && (a + b)[1..] == a[1..] + b;
      assert PathIds(a + b) == head + PathIds(a[1..] + b);
      PathIdsAppend(a[1..], b);
      assert head + (PathIds(a[1..]) + PathIds(b)) == (head + PathIds(a[1..])) + PathIds(b);
    }
  }

  /** One more scope adds its id to the end of the path, unless the id is empty. */
  lemma PathIdsSnoc(ids: seq<string>, x: string)
    ensures PathIds(ids + [x]) == PathIds(ids) + (if x == "" then [] else [x])
  {
    PathIdsAppend(ids, [x]);
    assert PathIds([x]) == (if x == "" then [] else [x]) + PathIds([]);
  }

  /** `node.path`: the non-empty ids of the scopes joined by "/". */
  function PathOf(ids: seq<string>): string
  {
    Strings.Join(PathIds(ids), "/")
  }

  /** The ids of a well-formed tree contain no "/" (the constructs library forbids it). */
  predicate IdsWellFormed(ids: seq<string>)
  {
    forall i :: 0 <= i < |ids| ==> '/' !in ids[i]
  }

  /** Splitting a construct path at "/" gives back its non-empty ids. */
  lemma SplitPath(ids: seq<string>)
    requires IdsWellFormed(ids)
    requires |PathIds(ids)| >= 1
    ensures Strings.Split(PathOf(ids), '/') == PathIds(ids)
  {
    var p := PathIds(ids);
    forall i | 0 <= i < |p| ensures '/' !in p[i] {
      var j :| 0 <= j < |ids| && ids[j] == p[i];
    }
    Strings.SplitJoin(p, '/');
  }

  /** `node.findAll()`: every node of the subtree, in pre-order (parents before children, children in order). */
  function AllNodes(n: Node, above: seq<string>): (r: seq<Located>)
    ensures |r| >= 1 && r[0] == Located(above + [n.id], n)
    decreases n
  {
    [Located(above + [n.id], n)] + AllNodesOf(n.children, above + [n.id])
  }

  function AllNodesOf(cs: seq<Node>, above: seq<string>): seq<Located>
    decreases cs
  {
    if |cs| == 0 then [] else AllNodes(cs[0], above) + AllNodesOf(cs[1..], above)
  }

  /** `x` is a node of the subtree of `n`, nested stacks included. */
  ghost predicate InTree(n: Node, x: Node)
    decreases n
  {
    x == n || InForest(n.children, x)
  }

  ghost predicate InForest(cs: seq<Node>, x: Node)
    decreases cs
  {
    exists i :: 0 <= i < |cs| && InTree(cs[i], x)
  }

  /** `x` is reachable from `n` without entering a child that is a stack. */
  ghost predicate WithinStack(n: Node, x: Node)
    decreases n
  {
    x == n || WithinStackForest(n.children, x)
  }

  ghost predicate WithinStackForest(cs: seq<Node>, x: Node)
    decreases cs
  {
    exists i :: 0 <= i < |cs| && !IsStack(cs[i]) && WithinStack(cs[i], x)
  }

  /** The ids of a list of scopes. */
  function IdsOf(scopes: seq<Node>): (r: seq<string>)
    ensures |r| == |scopes|
    ensures forall i :: 0 <= i < |scopes| ==> r[i] == scopes[i].id
  {
    seq(|scopes|, i requires 0 <= i < |scopes| => scopes[i].id)
  }

  lemma {:induction false} AllNodesOfAt(cs: seq<Node>, above: seq<string>, i: nat, x: Node)
    requires i < |cs| && (exists k :: 0 <= k < |AllNodes(cs[i], above)| && AllNodes(cs[i], above)[k].node == x)
    ensures exists k :: 0 <= k < |AllNodesOf(cs, above)| && AllNodesOf(cs, above)[k].node == x
    decreases i
  {
    var head := AllNodes(cs[0], above);
    var rest := AllNodesOf(cs[1..], above);
    if i == 0 {
      var k :| 0 <= k < |head| && head[k].node == x;
      assert AllNodesOf(cs, above)[k] == head[k];
    } else {
      AllNodesOfAt(cs[1..], above, i - 1, x);
      var k :| 0 <= k < |rest| && rest[k].node == x;
      assert AllNodesOf(cs, above)[|head| + k] == rest[k];
    }
  }

  /** Every node of the subtree is listed by `findAll`. */
  lemma {:induction false} AllNodesComplete(n: Node, above: seq<string>, x: Node)
    requires InTree(n, x)
    ensures exists k :: 0 <= k < |AllNodes(n, above)| && AllNodes(n, above)[k].node == x
    decreases n
  {
    if x != n {
      var i :| 0 <= i < |n.children| && InTree(n.children[i], x);
      AllNodesComplete(n.children[i], above + [n.id], x);
      AllNodesOfAt(n.children, above + [n.id], i, x);
      var k :| 0 <= k < |AllNodesOf(n.children, above + [n.id])| && AllNodesOf(n.children, above + [n.id])[k].node == x;
      assert AllNodes(n, above)[k + 1].node == x;
    } else {
      assert AllNodes(n, above)[0].node == x;
    }
  }

  /** `findAll` lists nothing outside the subtree. */
  lemma {:induction false} AllNodesSound(n: Node, above: seq<string>, k: nat)
    requires k < |AllNodes(n, above)|
    ensures InTree(n, AllNodes(n, above)[k].node)
    decreases n, 1
  {
    if k > 0 {
      AllNodesOfSound(n.children, above + [n.id], k - 1);
    }
  }

  lemma {:induction false} AllNodesOfSound(cs: seq<Node>, above: seq<string>, k: nat)
    requires k < |AllNodesOf(cs, above)|
    ensures InForest(cs, AllNodesOf(cs, above)[k].node)
    decreases cs, 0
  {
    var head := AllNodes(cs[0], above);
    if k < |head| {
      AllNodesSound(cs[0], above, k);
      assert InTree(cs[0], AllNodesOf(cs, above)[k].node);
    } else {
      var x := AllNodesOf(cs, above)[k].node;
      AllNodesOfSound(cs[1..], above, k - |head|);
      var i :| 0 <= i < |cs[1..]| && InTree(cs[1..][i], x);
      assert InTree(cs[i + 1], x);
    }
  }
}
