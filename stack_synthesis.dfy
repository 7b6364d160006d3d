/**
 * The free function `terraformElements` and the members of `TerraformStack`
 * that compute over the construct tree: `TerraformStack.of`,
 * `allocateLogicalId`, `hasResourceMove`, `runAllValidations`, and the
 * output index and fragment fold of `toTerraform`.
 */
module StackSynthesis {
  import opened Wrappers
  import opened Errors
  import opened Values
  import opened ConstructTree
  import Strings

  // ---------------------------------------------------------------- terraformElements

  /**
   * `terraformElements(n)`: the elements of the subtree in pre-order and
   * declaration order, the start node first when it is an element, never
   * descending into a child that is a stack.
   */
  function Elements(n: Node, above: seq<string>): (r: seq<Located>)
    ensures IsElement(n) ==> |r| >= 1 && r[0] == Located(above + [n.id], n)
    ensures !IsElement(n) ==> r == ElementsOf(n.children, above + [n.id])
    decreases n
  {
    (if IsElement(n) then [Located(above + [n.id], n)] else []) + ElementsOf(n.children, above + [n.id])
  }

  /** The elements contributed by a list of children; a stack child contributes nothing. */
  function ElementsOf(cs: seq<Node>, above: seq<string>): seq<Located>
    decreases cs
  {
    if |cs| == 0 then []
    else (if IsStack(cs[0]) then [] else Elements(cs[0], above)) + ElementsOf(cs[1..], above)
  }

  lemma {:induction false} ElementsOfAppend(a: seq<Node>, b: seq<Node>, above: seq<string>)
    ensures ElementsOf(a + b, above) == ElementsOf(a, above) + ElementsOf(b, above)
    decreases |a|
  {
    if |a| > 0 {
      assert (a + b)[0] == a[0] && (a + b)[1..] == a[1..] + b;
      ElementsOfAppend(a[1..], b, above);
    } else {
      assert a + b == b;
    }
  }

  /**
   * The recursive traversal with its accumulator `into`, as the source writes
   * it: push the node if it is an element, then visit the children in order,
   * skipping stacks.
   */
  method CollectElements(n: Node, above: seq<string>, into: seq<Located>) returns (out: seq<Located>)
    ensures out == into + Elements(n, above)
    decreases n
  {
    out := into;
    if IsElement(n) {
      out := out + [Located(above + [n.id], n)];
    }
    var here := above + [n.id];
    ghost var start := out;
    assert n.children[..0] == [] && start + [] == start;
    var i := 0;
    while i < |n.children|
      invariant 0 <= i <= |n.children|
      invariant out == start + ElementsOf(n.children[..i], here)
    {
      var child := n.children[i];
      ghost var before := out;
      if !IsStack(child) {
        out := CollectElements(child, here, out);
      }
      ElementsOfSnoc(n.children, i, here);
      Associate(start, ElementsOf(n.children[..i], here), if IsStack(child) then [] else Elements(child, here));
      i := i + 1;
    }
    assert n.children[..|n.children|] == n.children;
    Associate(into, if IsElement(n) then [Located(here, n)] else [], ElementsOf(n.children, here));
  }

  lemma Associate<T>(a: seq<T>, b: seq<T>, c: seq<T>)
    ensures a + b + c == a + (b + c)
  {
  }

  /** The children's elements of a prefix one child longer. */
  lemma ElementsOfSnoc(cs: seq<Node>, i: nat, above: seq<string>)
    requires i < |cs|
    ensures ElementsOf(cs[..i + 1], above) == ElementsOf(cs[..i], above) + (if IsStack(cs[i]) then [] else Elements(cs[i], above))
  {
    assert cs[..i + 1] == cs[..i] + [cs[i]];
    ElementsOfAppend(cs[..i], [cs[i]], above);
    assert ElementsOf([cs[i]], above) == (if IsStack(cs[i]) then [] else Elements(cs[i], above)) + ElementsOf([], above);
  }

  /** Every node listed by `terraformElements` is an element reachable without entering a nested stack. */
  lemma {:induction false} ElementsSound(n: Node, above: seq<string>, k: nat)
    requires k < |Elements(n, above)|
    ensures IsElement(Elements(n, above)[k].node) && WithinStack(n, Elements(n, above)[k].node)
    decreases n, 1
  {
    var own := if IsElement(n) then [Located(above + [n.id], n)] else [];
    if k >= |own| {
      ElementsOfSound(n.children, above + [n.id], k - |own|);
    }
  }

  lemma {:induction false} ElementsOfSound(cs: seq<Node>, above: seq<string>, k: nat)
    requires k < |ElementsOf(cs, above)|
    ensures IsElement(ElementsOf(cs, above)[k].node) && WithinStackForest(cs, ElementsOf(cs, above)[k].node)
    decreases cs, 0
  {
    var head := if IsStack(cs[0]) then [] else Elements(cs[0], above);
    var x := ElementsOf(cs, above)[k].node;
    if k < |head| {
      ElementsSound(cs[0], above, k);
      assert !IsStack(cs[0]) && WithinStack(cs[0], x);
    } else {
      ElementsOfSound(cs[1..], above, k - |head|);
      var i :| 0 <= i < |cs[1..]| && !IsStack(cs[1..][i]) && WithinStack(cs[1..][i], x);
      assert !IsStack(cs[i + 1]) && WithinStack(cs[i + 1], x);
    }
  }

  /** Every element reachable without entering a nested stack is listed by `terraformElements`. */
  lemma {:induction false} ElementsComplete(n: Node, above: seq<string>, x: Node)
    requires IsElement(x) && WithinStack(n, x)
    ensures exists k :: 0 <= k < |Elements(n, above)| && Elements(n, above)[k].node == x
    decreases n, 1
  {
    var own := if IsElement(n) then [Located(above + [n.id], n)] else [];
    if x == n {
      assert Elements(n, above)[0].node == x;
    } else {
      ElementsOfComplete(n.children, above + [n.id], x);
      var k :| 0 <= k < |ElementsOf(n.children, above + [n.id])| && ElementsOf(n.children, above + [n.id])[k].node == x;
      assert Elements(n, above)[|own| + k].node == x;
    }
  }

  lemma {:induction false} ElementsOfComplete(cs: seq<Node>, above: seq<string>, x: Node)
    requires IsElement(x) && WithinStackForest(cs, x)
    ensures exists k :: 0 <= k < |ElementsOf(cs, above)| && ElementsOf(cs, above)[k].node == x
    decreases cs, 0
  {
    var i :| 0 <= i < |cs| && !IsStack(cs[i]) && WithinStack(cs[i], x);
    var head := if IsStack(cs[0]) then [] else Elements(cs[0], above);
    var tail := ElementsOf(cs[1..], above);
    var whole := ElementsOf(cs, above);
    assert whole == head + tail;
    if i == 0 {
      ElementsComplete(cs[0], above, x);
      var k :| 0 <= k < |head| && head[k].node == x;
      assert whole[k] == head[k];
    } else {
      assert !IsStack(cs[1..][i - 1]) && WithinStack(cs[1..][i - 1], x);
      ElementsOfComplete(cs[1..], above, x);
      var k :| 0 <= k < |tail| && tail[k].node == x;
      assert whole[|head| + k] == tail[k];
    }
  }

  // ---------------------------------------------------------------- hasResourceMove

  predicate IsMovedResource(x: Node) { x.kind.Resource? && x.kind.hasMove }

  /** `stack.hasResourceMove()`: some element of the stack is a resource with a registered move. */
  function HasResourceMove(stack: Node, above: seq<string>): (r: bool)
    ensures r <==> exists x :: WithinStack(stack, x) && IsMovedResource(x)
  {
    var es := Elements(stack, above);
    var r := exists k :: 0 <= k < |es| && IsMovedResource(es[k].node);
    assert r ==> exists x :: WithinStack(stack, x) && IsMovedResource(x) by {
      if r {
        var k :| 0 <= k < |es| && IsMovedResource(es[k].node);
        ElementsSound(stack, above, k);
      }
    }
    assert (exists x :: WithinStack(stack, x) && IsMovedResource(x)) ==> r by {
      if exists x :: WithinStack(stack, x) && IsMovedResource(x) {
        var x :| WithinStack(stack, x) && IsMovedResource(x);
        ElementsComplete(stack, above, x);
      }
    }
    r
  }

  // ---------------------------------------------------------------- TerraformStack.of

  const AppScopeHint := ". You seem to have passed your root App as scope to a construct. Pass a stack (inheriting from TerraformStack) as scope to your construct instead."

  /** The hint of noStackForConstruct: the App advice when the root is an App and the construct's direct scope. */
  function LookupHint(scopes: seq<Node>): string
  {
    if |scopes| == 2 && scopes[0].kind.App? then AppScopeHint else ""
  }

  /**
   * `_lookup(scopes[k])`: return `k` if that scope is a stack, otherwise walk up;
   * reaching the root without a stack throws noStackForConstruct for the
   * original construct (the last scope), with the App hint when the root is an
   * App and is the construct's direct scope.
   */
  function Lookup(scopes: seq<Node>, k: nat): (r: Result<nat, Error>)
    requires k < |scopes|
    ensures r.Success? ==> r.value <= k && IsStack(scopes[r.value])
    ensures r.Success? ==> forall j :: r.value < j <= k ==> !IsStack(scopes[j])
    ensures r.Failure? <==> forall j :: 0 <= j <= k ==> !IsStack(scopes[j])
    ensures r.Failure? ==> r.error == NoStackForConstruct(PathOf(IdsOf(scopes)), LookupHint(scopes))
    decreases k
  {
    if IsStack(scopes[k]) then Success(k)
    else if k == 0 then Failure(NoStackForConstruct(PathOf(IdsOf(scopes)), LookupHint(scopes)))
    else Lookup(scopes, k - 1)
  }

  /**
   * `TerraformStack.of(construct)`, where `scopes` lists the construct's
   * scopes from the root down to the construct itself: the index of the
   * nearest enclosing stack (the construct itself if it is one).
   */
  function StackOf(scopes: seq<Node>): (r: Result<nat, Error>)
    requires |scopes| >= 1
    ensures r.Success? ==> r.value < |scopes| && IsStack(scopes[r.value])
    ensures r.Success? ==> forall j :: r.value < j < |scopes| ==> !IsStack(scopes[j])
    ensures r.Failure? <==> forall j :: 0 <= j < |scopes| ==> !IsStack(scopes[j])
  {
    Lookup(scopes, |scopes| - 1)
  }

  // ---------------------------------------------------------------- allocateLogicalId

  /**
   * `allocateLogicalId` once the stack's position in `node.scopes` is known
   * (`stackIndex` is `indexOf`, so -1 when the stack is not among the scopes):
   * `makeUniqueId` of the ids of the scopes after the stack, or "" when there
   * are none. `makeUniqueId` is not part of this model and is a parameter.
   */
  function AllocateLogicalId(scopes: seq<Node>, stackIndex: int, makeUniqueId: seq<string> -> string): (r: string)
    requires -1 <= stackIndex < |scopes|
    ensures stackIndex == |scopes| - 1 ==> r == ""
    ensures stackIndex < |scopes| - 1 ==>
      r == makeUniqueId(IdsOf(scopes[stackIndex + 1..]))
  {
    var components := IdsOf(scopes[stackIndex + 1..]);
    if |components| > 0 then makeUniqueId(components) else ""
  }

  /**
   * The logical id of an element, whose stack is `TerraformStack.of(element)`:
   * "" for the stack itself, otherwise `makeUniqueId` of exactly the ids on
   * the path strictly below the owning stack, none of which is a stack.
   */
  function ElementLogicalId(scopes: seq<Node>, makeUniqueId: seq<string> -> string): (r: Result<string, Error>)
    requires |scopes| >= 1
    ensures r.Failure? <==> forall j :: 0 <= j < |scopes| ==> !IsStack(scopes[j])
    ensures r.Success? && IsStack(scopes[|scopes| - 1]) ==> r.value == ""
    ensures r.Success? && !IsStack(scopes[|scopes| - 1]) ==>
      exists k :: 0 <= k < |scopes| - 1 && IsStack(scopes[k])
        && (forall j :: k < j < |scopes| ==> !IsStack(scopes[j]))
        && r.value == makeUniqueId(IdsOf(scopes[k + 1..]))
  {
    var k :- StackOf(scopes);
    Success(AllocateLogicalId(scopes, k, makeUniqueId))
  }

  // ---------------------------------------------------------------- runAllValidations

  /** A message reported by a node's validation, with the node's path. */
  datatype ValidationError = ValidationError(message: string, sourcePath: string)

  /** The messages of one node, in order, each tagged with the node's path. */
  function NodeErrors(l: Located): (r: seq<ValidationError>)
    ensures |r| == |l.node.validationErrors|
    ensures forall i :: 0 <= i < |r| ==> r[i] == ValidationError(l.node.validationErrors[i], PathOf(l.ids))
  {
    seq(|l.node.validationErrors|, i requires 0 <= i < |l.node.validationErrors| =>
      ValidationError(l.node.validationErrors[i], PathOf(l.ids)))
  }

  /** The `map(...).reduce(concat)` over all nodes: every node's messages, node after node. */
  function CollectedErrors(nodes: seq<Located>): (r: seq<ValidationError>)
    ensures forall e :: e in r ==> exists k :: 0 <= k < |nodes| && e in NodeErrors(nodes[k])
    ensures forall k, e :: 0 <= k < |nodes| && e in NodeErrors(nodes[k]) ==> e in r
  {
    if |nodes| == 0 then [] else NodeErrors(nodes[0]) + CollectedErrors(nodes[1..])
  }

  /** Nothing is dropped: the list is empty exactly when no node reported a message. */
  lemma {:induction false} CollectedErrorsEmpty(nodes: seq<Located>)
    ensures CollectedErrors(nodes) == [] <==> forall k :: 0 <= k < |nodes| ==> nodes[k].node.validationErrors == []
  {
    if |nodes| > 0 {
      CollectedErrorsEmpty(nodes[1..]);
      assert forall k :: 1 <= k < |nodes| ==> nodes[k] == nodes[1..][k - 1];
    }
  }

  /** The count of collected messages is the sum over all nodes: no short-circuit. */
  function MessageCount(nodes: seq<Located>): nat
  {
    if |nodes| == 0 then 0 else |nodes[0].node.validationErrors| + MessageCount(nodes[1..])
  }

  lemma {:induction false} CollectedErrorsCount(nodes: seq<Located>)
    ensures |CollectedErrors(nodes)| == MessageCount(nodes)
  {
    if |nodes| > 0 {
      CollectedErrorsCount(nodes[1..]);
    }
  }

  /** `[<path>] <message>`. */
  function FormatError(e: ValidationError): string
  {
    "[" + e.sourcePath + "] " + e.message
  }

  function FormatErrors(es: seq<ValidationError>): (r: seq<string>)
    ensures |r| == |es|
    ensures forall i :: 0 <= i < |es| ==> r[i] == FormatError(es[i])
  {
    seq(|es|, i requires 0 <= i < |es| => FormatError(es[i]))
  }

  /**
   * `stack.runAllValidations()`: gathers the messages of every node of the
   * stack's subtree, nested stacks included, and throws once, with all of them,
   * when there is at least one.
   */
  function RunAllValidations(stack: Node, above: seq<string>): (r: Outcome<Error>)
    ensures r.Pass? <==> forall x :: InTree(stack, x) ==> x.validationErrors == []
    ensures r.Fail? ==> r.error == StackValidationFailure(
      Strings.Join(FormatErrors(CollectedErrors(AllNodes(stack, above))), "\n  "))
  {
    var nodes := AllNodes(stack, above);
    var errors := CollectedErrors(nodes);
    CollectedErrorsEmpty(nodes);
    assert errors == [] ==> forall x :: InTree(stack, x) ==> x.validationErrors == [] by {
      if errors == [] {
        forall x | InTree(stack, x) ensures x.validationErrors == [] {
          AllNodesComplete(stack, above, x);
        }
      }
    }
    assert errors != [] ==> exists x :: InTree(stack, x) && x.validationErrors != [] by {
      if errors != [] {
        var k :| 0 <= k < |nodes| && nodes[k].node.validationErrors != [];
        AllNodesSound(stack, above, k);
      }
    }
    if |errors| > 0 then Fail(StackValidationFailure(Strings.Join(FormatErrors(errors), "\n  ")))
    else Pass
  }

  // ---------------------------------------------------------------- output index

  /**
   * One step of the `reduceRight` that nests an output's path: the friendly id
   * goes under the last part, and every earlier part wraps what was built.
   */
  function NestStep(inner: Value, part: string, leaf: string): Value
  {
    if inner.Obj? && |inner.fields| == 0 then Obj(map[part := Str(leaf)]) else Obj(map[part := inner])
  }

  function ReduceRightNest(parts: seq<string>, leaf: string, carry: Value): Value
    decreases |parts|
  {
    if |parts| == 0 then carry
    else ReduceRightNest(parts[..|parts| - 1], leaf, NestStep(carry, parts[|parts| - 1], leaf))
  }

  /** Reference nesting `{p0: {p1: ... {pn: leaf}}}`. */
  function Nest(parts: seq<string>, leaf: string): (r: Value)
    requires |parts| >= 1
    ensures r.Obj? && r.fields.Keys == {parts[0]}
    decreases |parts|
  {
    if |parts| == 1 then Obj(map[parts[0] := Str(leaf)]) else Obj(map[parts[0] := Nest(parts[1..], leaf)])
  }

  /** Wrapping a nesting in one more part is the nesting of the longer path. */
  lemma NestStepWraps(suffix: seq<string>, part: string, leaf: string)
    requires |suffix| >= 1
    ensures NestStep(Nest(suffix, leaf), part, leaf) == Nest([part] + suffix, leaf)
  {
    assert ([part] + suffix)[1..] == suffix;
    assert |Nest(suffix, leaf).fields| != 0 by {
      assert suffix[0] in Nest(suffix, leaf).fields;
    }
  }

  /** Folding the first `k` parts from the right onto the nesting of the rest gives the nesting of all parts. */
  lemma {:induction false} ReduceRightOntoNest(parts: seq<string>, k: nat, leaf: string)
    requires k < |parts|
    ensures ReduceRightNest(parts[..k], leaf, Nest(parts[k..], leaf)) == Nest(parts, leaf)
    decreases k
  {
    if k > 0 {
      NestStepWraps(parts[k..], parts[k - 1], leaf);
      assert [parts[k - 1]] + parts[k..] == parts[k - 1..];
      assert parts[..k][..k - 1] == parts[..k - 1];
      ReduceRightOntoNest(parts, k - 1, leaf);
    } else {
      assert parts[0..] == parts;
    }
  }

  /** The source's `reduceRight` builds exactly the reference nesting. */
  lemma ReduceRightIsNest(parts: seq<string>, leaf: string)
    requires |parts| >= 1
    ensures ReduceRightNest(parts, leaf, Obj(map[])) == Nest(parts, leaf)
  {
    var k := |parts| - 1;
    assert parts[k..] == [parts[k]];
    assert NestStep(Obj(map[]), parts[k], leaf) == Nest(parts[k..], leaf);
    assert parts[..k + 1] == parts;
    ReduceRightOntoNest(parts, k, leaf);
  }

  /** Following the parts through the nesting reaches the friendly id. */
  lemma {:induction false} NestLeadsToLeaf(parts: seq<string>, leaf: string)
    requires |parts| >= 1
    ensures GetPath(Nest(parts, leaf).fields, parts) == Some(Str(leaf))
    decreases |parts|
  {
    if |parts| > 1 {
      NestLeadsToLeaf(parts[1..], leaf);
    }
  }

  /** The index entry of one output: its path split at "/" nested around its friendly id. */
  function OutputEntry(l: Located): Value
    requires l.node.kind.Output?
  {
    ReduceRightNest(Strings.Split(PathOf(l.ids), '/'), l.node.kind.friendlyUniqueId, Obj(map[]))
  }

  /** In a well-formed tree the entry of an output leads, along its path ids, to its friendly id. */
  lemma OutputEntryLeadsToId(l: Located)
    requires l.node.kind.Output? && IdsWellFormed(l.ids) && |PathIds(l.ids)| >= 1
    ensures OutputEntry(l).Obj?
    ensures GetPath(OutputEntry(l).fields, PathIds(l.ids)) == Some(Str(l.node.kind.friendlyUniqueId))
  {
    SplitPath(l.ids);
    ReduceRightIsNest(PathIds(l.ids), l.node.kind.friendlyUniqueId);
    NestLeadsToLeaf(PathIds(l.ids), l.node.kind.friendlyUniqueId);
  }

  /** The entries of the outputs among `elements`, in order; other elements are skipped. */
  function OutputEntries(elements: seq<Located>): seq<Value>
    decreases |elements|
  {
    if |elements| == 0 then []
    else
      var last := elements[|elements| - 1];
      OutputEntries(elements[..|elements| - 1]) + (if last.node.kind.Output? then [OutputEntry(last)] else [])
  }

  /** Left fold with `deepMerge`, which is not part of this model and is a parameter. */
  function MergeAll(deepMerge: (Value, Value) -> Value, start: Value, vs: seq<Value>): Value
    decreases |vs|
  {
    if |vs| == 0 then start else deepMerge(MergeAll(deepMerge, start, vs[..|vs| - 1]), vs[|vs| - 1])
  }

  /** `deepMerge(start, a, b, c)`: the sources are merged onto the start from left to right. */
  lemma MergeThree(deepMerge: (Value, Value) -> Value, start: Value, a: Value, b: Value, c: Value)
    ensures MergeAll(deepMerge, start, [a, b, c]) == deepMerge(deepMerge(deepMerge(start, a), b), c)
  {
    var vs := [a, b, c];
    assert vs[..2] == [a, b] && vs[..2][..1] == [a] && vs[..2][..1][..0] == [];
    assert MergeAll(deepMerge, start, [a]) == deepMerge(start, a);
    assert MergeAll(deepMerge, start, [a, b]) == deepMerge(deepMerge(start, a), b);
  }

  /**
   * The `reduce` that builds the output index in `toTerraform`: each output's
   * entry is merged into the carry, in element order.
   */
  method OutputIndex(elements: seq<Located>, deepMerge: (Value, Value) -> Value) returns (carry: Value)
    ensures carry == MergeAll(deepMerge, Obj(map[]), OutputEntries(elements))
  {
    carry := Obj(map[]);
    var i := 0;
    while i < |elements|
      invariant 0 <= i <= |elements|
      invariant carry == MergeAll(deepMerge, Obj(map[]), OutputEntries(elements[..i]))
    {
      var item := elements[i];
      assert elements[..i + 1][..i] == elements[..i] && elements[..i + 1][i] == item;
      if item.node.kind.Output? {
        ghost var entries := OutputEntries(elements[..i + 1]);
        assert entries == OutputEntries(elements[..i]) + [OutputEntry(item)];
        assert entries[..|entries| - 1] == OutputEntries(elements[..i]);
        assert entries[|entries| - 1] == OutputEntry(item);
        assert MergeAll(deepMerge, Obj(map[]), entries) == deepMerge(carry, OutputEntry(item));
        carry := deepMerge(carry, OutputEntry(item));
      } else {
        assert OutputEntries(elements[..i + 1]) == OutputEntries(elements[..i]) + [];
        assert OutputEntries(elements[..i + 1]) == OutputEntries(elements[..i]);
      }
      i := i + 1;
    }
    assert elements[..|elements|] == elements;
  }
}
