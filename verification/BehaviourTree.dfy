// The behaviour trees that plans carry, the blackboard and the result of one
// node execution.
module BehaviourTree {
  import opened Common

  type Args = map<string, string>

  datatype Check = Check(kind: string, predicateName: string, query: string)

  datatype VisualMode = ConditionMode | ObserveMode

  datatype Node =
    | Action(nodeId: string, skill: string, args: Args, limitSec: Option<real>)
    | Wait(nodeId: string, durationSec: real)
    | NoAction(nodeId: string)
    | Condition(nodeId: string, predicateName: string, args: Args)
    | GoalCheck(nodeId: string, predicateName: string, check: Check)
    | WaitForEvent(nodeId: string, predicateName: string, timeoutSec: real, pollSec: real)
    | VisualCheck(nodeId: string, mode: VisualMode, check: Check)
    | Sequence(nodeId: string, children: seq<Node>)
    | Fallback(nodeId: string, children: seq<Node>)
    | Parallel(nodeId: string, children: seq<Node>, cancelOnFailure: bool)
    | Retry(nodeId: string, maxAttempts: int, child: Node)
    | Timeout(nodeId: string, timeoutSec: real, child: Node)
  {
    predicate IsLeaf() {
      Action? || Wait? || NoAction? || Condition? || GoalCheck? || WaitForEvent? || VisualCheck?
    }

    // Nodes that run one child call after another on the caller's thread.
    predicate IsStepwise() {
      Sequence? || Fallback? || Retry?
    }

    // How many child calls a stepwise node can make. A Retry whose attempt
    // count is outside [1, 5] makes none.
    function Slots(): nat
      requires IsStepwise()
    {
      match this
      case Sequence(_, children) => |children|
      case Fallback(_, children) => |children|
      case Retry(_, n, _) => if 1 <= n <= 5 then n else 0
    }

    function Slot(k: nat): Node
      requires IsStepwise() && k < Slots()
      ensures Slot(k) < this
    {
      if Retry? then child else children[k]
    }
  }

  // Occurrence paths: child indices from the root. The child of a Retry or a
  // Timeout is index 0, for every attempt.
  type Path = seq<nat>

  function SlotPath(node: Node, path: Path, k: nat): Path {
    path + [if node.Retry? then 0 else k]
  }

  // The child that index k of a path enters.
  function ChildAt(node: Node, k: nat): Option<Node> {
    match node
    case Sequence(_, children) => if k < |children| then Some(children[k]) else None
    case Fallback(_, children) => if k < |children| then Some(children[k]) else None
    case Parallel(_, children, _) => if k < |children| then Some(children[k]) else None
    case Retry(_, _, child) => if k == 0 then Some(child) else None
    case Timeout(_, _, child) => if k == 0 then Some(child) else None
    case _ => None
  }

  // The node at a path, if the path exists.
  function NodeAt(node: Node, path: Path): Option<Node>
    decreases |path|
  {
    if path == [] then Some(node)
    else
      var next := ChildAt(node, path[0]);
      if next == None then None else NodeAt(next.value, path[1..])
  }

  lemma {:induction false} NodeAtExtends(root: Node, path: Path, k: nat)
    requires NodeAt(root, path).Some?
    ensures NodeAt(root, path + [k]) == ChildAt(NodeAt(root, path).value, k)
    decreases |path|
  {
    if path == [] {
      assert ([] + [k])[1..] == [];
      assert path + [k] == [k];
    } else {
      assert (path + [k])[1..] == path[1..] + [k];
      NodeAtExtends(ChildAt(root, path[0]).value, path[1..], k);
    }
  }

  // All nodes, each before its children.
  function Preorder(node: Node): seq<Node>
    decreases node, 1
  {
    [node] + match node {
      case Sequence(_, children) => PreorderOf(children)
      case Fallback(_, children) => PreorderOf(children)
      case Parallel(_, children, _) => PreorderOf(children)
      case Retry(_, _, child) => Preorder(child)
      case Timeout(_, _, child) => Preorder(child)
      case _ => []
    }
  }

  function PreorderOf(nodes: seq<Node>): seq<Node>
    decreases nodes, 0
  {
    if nodes == [] then [] else Preorder(nodes[0]) + PreorderOf(nodes[1..])
  }

  // Some node of the tree, at any depth, satisfies p.
  predicate Contains(node: Node, p: Node -> bool)
    decreases node, 1
  {
    || p(node)
    || match node {
         case Sequence(_, children) => AnyContains(children, p)
         case Fallback(_, children) => AnyContains(children, p)
         case Parallel(_, children, _) => AnyContains(children, p)
         case Retry(_, _, child) => Contains(child, p)
         case Timeout(_, _, child) => Contains(child, p)
         case _ => false
       }
  }

  predicate AnyContains(nodes: seq<Node>, p: Node -> bool)
    decreases nodes, 0
  {
    exists i :: 0 <= i < |nodes| && Contains(nodes[i], p)
  }

  // The leaves in tree order.
  function Leaves(node: Node): seq<Node>
    decreases node, 1
  {
    match node
    case Sequence(_, children) => AllLeaves(children)
    case Fallback(_, children) => AllLeaves(children)
    case Parallel(_, children, _) => AllLeaves(children)
    case Retry(_, _, child) => Leaves(child)
    case Timeout(_, _, child) => Leaves(child)
    case _ => [node]
  }

  function AllLeaves(nodes: seq<Node>): seq<Node>
    decreases nodes, 0
  {
    if nodes == [] then [] else Leaves(nodes[0]) + AllLeaves(nodes[1..])
  }

  // At any depth means at some path.
  lemma {:induction false} ContainedAt(node: Node, p: Node -> bool) returns (path: Path)
    requires Contains(node, p)
    ensures NodeAt(node, path).Some? && p(NodeAt(node, path).value)
    decreases node
  {
    if p(node) {
      path := [];
    } else if node.Sequence? || node.Fallback? || node.Parallel? {
      var i :| 0 <= i < |node.children| && Contains(node.children[i], p);
      var rest := ContainedAt(node.children[i], p);
      path := [i] + rest;
      assert path[1..] == rest;
    } else {
      var rest := ContainedAt(node.child, p);
      path := [0] + rest;
      assert path[1..] == rest;
    }
  }

  lemma {:induction false} AtIsContained(node: Node, p: Node -> bool, path: Path)
    requires NodeAt(node, path).Some? && p(NodeAt(node, path).value)
    ensures Contains(node, p)
    decreases |path|
  {
    if path != [] {
      var child := ChildAt(node, path[0]).value;
      AtIsContained(child, p, path[1..]);
      if node.Sequence? || node.Fallback? || node.Parallel? {
        assert Contains(node.children[path[0]], p);
        assert AnyContains(node.children, p);
      }
    }
  }

  // A leaf of the tree is a node of the tree, and a leaf node of the tree is listed.
  lemma {:induction false} LeavesAreContained(node: Node, p: Node -> bool)
    ensures (exists leaf :: leaf in Leaves(node) && p(leaf)) ==> Contains(node, p)
    ensures forall leaf :: leaf in Leaves(node) ==> leaf.IsLeaf()
    decreases node, 1
  {
    match node
    case Sequence(_, children) => AllLeavesAreContained(children, p);
    case Fallback(_, children) => AllLeavesAreContained(children, p);
    case Parallel(_, children, _) => AllLeavesAreContained(children, p);
    case Retry(_, _, child) => LeavesAreContained(child, p);
    case Timeout(_, _, child) => LeavesAreContained(child, p);
    case _ =>
  }

  lemma {:induction false} AllLeavesAreContained(nodes: seq<Node>, p: Node -> bool)
    ensures (exists leaf :: leaf in AllLeaves(nodes) && p(leaf)) ==> AnyContains(nodes, p)
    ensures forall leaf :: leaf in AllLeaves(nodes) ==> leaf.IsLeaf()
    decreases nodes, 0
  {
    if nodes != [] {
      LeavesAreContained(nodes[0], p);
      AllLeavesAreContained(nodes[1..], p);
      if AnyContains(nodes[1..], p) {
        var i :| 0 <= i < |nodes[1..]| && Contains(nodes[1..][i], p);
        assert Contains(nodes[i + 1], p);
      }
    }
  }

  lemma {:induction false} ChildLeavesListed(nodes: seq<Node>, k: nat)
    requires k < |nodes|
    ensures forall leaf :: leaf in Leaves(nodes[k]) ==> leaf in AllLeaves(nodes)
    decreases k
  {
    if k > 0 {
      ChildLeavesListed(nodes[1..], k - 1);
    }
  }

  lemma {:induction false} ListedIsLeaf(node: Node, leaf: Node) returns (path: Path)
    requires leaf in Leaves(node)
    ensures NodeAt(node, path) == Some(leaf) && leaf.IsLeaf()
    decreases node, 1
  {
    match node
    case Sequence(_, children) => path := ListedIsLeafOf(node, children, 0, leaf);
    case Fallback(_, children) => path := ListedIsLeafOf(node, children, 0, leaf);
    case Parallel(_, children, _) => path := ListedIsLeafOf(node, children, 0, leaf);
    case Retry(_, _, child) =>
      path := ListedIsLeaf(child, leaf);
      path := [0] + path;
      assert path[1..] + [] == path[1..];
    case Timeout(_, _, child) =>
      path := ListedIsLeaf(child, leaf);
      path := [0] + path;
      assert path[1..] + [] == path[1..];
    case _ => path := [];
  }

  lemma {:induction false} ListedIsLeafOf(node: Node, nodes: seq<Node>, k: nat, leaf: Node) returns (path: Path)
    requires node.Sequence? || node.Fallback? || node.Parallel?
    requires k <= |node.children| && nodes == node.children[k..]
    requires leaf in AllLeaves(nodes)
    ensures NodeAt(node, path) == Some(leaf) && leaf.IsLeaf()
    decreases nodes, 0
  {
    if leaf in Leaves(nodes[0]) {
      var rest := ListedIsLeaf(nodes[0], leaf);
      path := [k] + rest;
      assert path[1..] == rest;
    } else {
      path := ListedIsLeafOf(node, nodes[1..], k + 1, leaf);
    }
  }

  predicate ParallelFree(node: Node) {
    !Contains(node, (n: Node) => n.Parallel?)
  }

  predicate FallbackFree(node: Node) {
    !Contains(node, (n: Node) => n.Fallback?)
  }

  // A VisualCheck that observes: it succeeds on either answer.
  predicate IsObserver(n: Node) {
    n.VisualCheck? && n.mode == ObserveMode
  }

  // The one fact key an observe-mode VisualCheck writes.
  const VISUAL_RESULT := "visual_check_result"

  datatype Fact =
    | Observation(completed: bool, value: bool, query: string)
    | Evidence(text: string)

  type Facts = map<string, Fact>

  datatype ExecutionResult = ExecutionResult(
    success: bool, blocked: bool, needsDecision: bool, facts: Facts)

  function Succeeded(facts: Facts): ExecutionResult {
    ExecutionResult(true, false, false, facts)
  }

  function Failed(facts: Facts): ExecutionResult {
    ExecutionResult(false, false, false, facts)
  }

  function Blocked(needsDecision: bool, facts: Facts): ExecutionResult {
    ExecutionResult(false, true, needsDecision, facts)
  }

  // No result both succeeds and blocks, and only a blocked one asks for a decision.
  predicate Coherent(r: ExecutionResult) {
    (r.blocked ==> !r.success) && (r.needsDecision ==> r.blocked)
  }

  // TRUE, FALSE, not wired up, or UNKNOWN: what a check leaf makes of its answer.
  predicate CheckOutcome(bb: Facts, r: ExecutionResult) {
    r == Succeeded(bb) || r == Failed(bb) || r == Blocked(false, bb) || r == Blocked(true, bb)
  }

  predicate MalformedWait(node: Node) {
    node.Wait? && !(0.0 < node.durationSec <= 300.0)
  }

  // A Wait that is not malformed and a WaitForEvent fail unblocked only when they
  // see the cancel flag set.
  predicate CutShort(leaf: Node, r: ExecutionResult) {
    !r.success && !r.blocked && (leaf.WaitForEvent? || (leaf.Wait? && !MalformedWait(leaf)))
  }

  // Every result a leaf may return when it starts from blackboard bb. Skills may
  // write any facts, never set needsDecision and never succeed blocked.
  predicate LeafOutcome(leaf: Node, bb: Facts, r: ExecutionResult) {
    match leaf
    case Action(_, _, _, _) => Coherent(r) && !r.needsDecision
    case Wait(_, _) => r == Failed(map[]) || (r == Succeeded(map[]) && !MalformedWait(leaf))
    case NoAction(_) => r == Succeeded(bb)
    case Condition(_, _, _) => CheckOutcome(bb, r)
    case GoalCheck(_, _, _) => CheckOutcome(bb, r)
    case WaitForEvent(_, _, _, _) =>
      r == Succeeded(bb) || r == Blocked(false, bb) || r == Blocked(true, bb) || r == Failed(map[])
    case VisualCheck(_, mode, check) =>
      if mode == ConditionMode then CheckOutcome(bb, r)
      else
        || r == Blocked(false, bb)
        || r == Blocked(true, bb)
        || (exists value :: r == Succeeded(bb[VISUAL_RESULT := Observation(true, value, check.query)]))
    case _ => false
  }

  lemma LeafOutcomeCoherent(leaf: Node, bb: Facts, r: ExecutionResult)
    requires LeafOutcome(leaf, bb, r)
    ensures leaf.IsLeaf() && Coherent(r)
  {
  }

  datatype Verdict = Continue | Stop(success: bool, blocked: bool, needsDecision: bool)

  // What a stepwise node does once its k-th child call returned r: go on with
  // the next child call, or return. canceled is the cancel flag as the node
  // sees it then; only a Retry looks at it between calls.
  function After(node: Node, k: nat, r: ExecutionResult, canceled: bool): (v: Verdict)
    requires node.IsStepwise() && k < node.Slots()
    ensures v == Continue ==> k + 1 < node.Slots()
  {
    var last := k + 1 == node.Slots();
    if node.Sequence? then
      if !r.success then Stop(false, r.blocked, r.needsDecision)
      else if last then Stop(true, false, false) else Continue
    else if r.blocked then Stop(false, true, r.needsDecision)
    else if r.success then Stop(true, false, false)
    else if last || (node.Retry? && canceled) then Stop(false, false, false)
    else Continue
  }

  // A stepwise node with no child call to make returns at once.
  function EmptyResult(node: Node, bb: Facts): ExecutionResult
    requires node.IsStepwise()
  {
    match node
    case Sequence(_, _) => Succeeded(bb)
    case Fallback(_, _) => Failed(bb)
    case Retry(_, _, _) => Failed(map[])
  }

  // A Parallel joins its branches: facts merge in branch order over the
  // starting blackboard, one failure fails it, and the flags of failed
  // branches are or-ed.
  function Merge(bb: Facts, rs: seq<ExecutionResult>): ExecutionResult {
    if rs == [] then Succeeded(bb)
    else
      var before := Merge(bb, rs[..|rs| - 1]);
      var r := rs[|rs| - 1];
      var facts := before.facts + r.facts;
      if r.success then before.(facts := facts)
      else ExecutionResult(false, before.blocked || r.blocked, before.needsDecision || r.needsDecision, facts)
  }

  lemma {:induction false} MergeFlags(bb: Facts, rs: seq<ExecutionResult>)
    requires forall i :: 0 <= i < |rs| ==> Coherent(rs[i])
    ensures Merge(bb, rs).success <==> forall i :: 0 <= i < |rs| ==> rs[i].success
    ensures Merge(bb, rs).blocked <==> exists i :: 0 <= i < |rs| && rs[i].blocked
    ensures Merge(bb, rs).needsDecision <==> exists i :: 0 <= i < |rs| && rs[i].needsDecision
    ensures Coherent(Merge(bb, rs))
  {
    if rs != [] {
      var n := |rs| - 1;
      MergeFlags(bb, rs[..n]);
      assert forall i :: 0 <= i < n ==> rs[..n][i] == rs[i];
    }
  }
}
