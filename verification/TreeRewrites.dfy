// Tree surgery shared by the plan rewrites: mapping the leaves, replacing one
// subtree, and what both keep of a validated tree.
module TreeRewrites {
  import opened Common
  import opened SkillRegistry
  import opened BehaviourTree
  import opened Validator

  function Map<S, T>(f: S -> T, xs: seq<S>): (ys: seq<T>)
    ensures |ys| == |xs| && forall i :: 0 <= i < |xs| ==> ys[i] == f(xs[i])
  {
    if xs == [] then [] else [f(xs[0])] + Map(f, xs[1..])
  }

  lemma MapConcat<S, T>(f: S -> T, xs: seq<S>, ys: seq<S>)
    ensures Map(f, xs + ys) == Map(f, xs) + Map(f, ys)
  {
  }

  // An Action with other arguments; any other leaf as it is.
  function EditLeaf(edit: Node -> Args, leaf: Node): Node {
    if leaf.Action? then Action(leaf.nodeId, leaf.skill, edit(leaf), leaf.limitSec) else leaf
  }

  // The tree with the arguments of every Action edited.
  function EditActions(edit: Node -> Args, node: Node): Node
    decreases node, 1
  {
    match node
    case Sequence(id, children) => Sequence(id, EditAll(edit, children))
    case Fallback(id, children) => Fallback(id, EditAll(edit, children))
    case Parallel(id, children, cancel) => Parallel(id, EditAll(edit, children), cancel)
    case Retry(id, n, child) => Retry(id, n, EditActions(edit, child))
    case Timeout(id, limit, child) => Timeout(id, limit, EditActions(edit, child))
    case leaf => EditLeaf(edit, leaf)
  }

  function EditAll(edit: Node -> Args, nodes: seq<Node>): (edited: seq<Node>)
    ensures |edited| == |nodes|
    ensures forall i :: 0 <= i < |nodes| ==> edited[i] == EditActions(edit, nodes[i])
    decreases nodes, 0
  {
    if nodes == [] then [] else [EditActions(edit, nodes[0])] + EditAll(edit, nodes[1..])
  }

  lemma {:induction false} LeavesOfEdit(edit: Node -> Args, node: Node)
    ensures Leaves(EditActions(edit, node)) == Map(n => EditLeaf(edit, n), Leaves(node))
    decreases node, 1
  {
    match node
    case Sequence(_, children) => LeavesOfEditAll(edit, children);
    case Fallback(_, children) => LeavesOfEditAll(edit, children);
    case Parallel(_, children, _) => LeavesOfEditAll(edit, children);
    case Retry(_, _, child) => LeavesOfEdit(edit, child);
    case Timeout(_, _, child) => LeavesOfEdit(edit, child);
    case _ =>
  }

  lemma {:induction false} LeavesOfEditAll(edit: Node -> Args, nodes: seq<Node>)
    ensures AllLeaves(EditAll(edit, nodes)) == Map(n => EditLeaf(edit, n), AllLeaves(nodes))
    decreases nodes, 0
  {
    if nodes != [] {
      var f := (n: Node) => EditLeaf(edit, n);
      var edited, rest := EditAll(edit, nodes), EditAll(edit, nodes[1..]);
      assert AllLeaves(edited) == Leaves(EditActions(edit, nodes[0])) + AllLeaves(rest) by {
        assert edited[0] == EditActions(edit, nodes[0]) && edited[1..] == rest;
      }
      LeavesOfEdit(edit, nodes[0]);
      LeavesOfEditAll(edit, nodes[1..]);
      MapConcat(f, Leaves(nodes[0]), AllLeaves(nodes[1..]));
    }
  }

  // The tree with its leaves written back from a list, in tree order.
  function Refill(node: Node, ls: seq<Node>): Node
    requires |ls| == |Leaves(node)|
    decreases node, 1
  {
    match node
    case Sequence(id, children) => Sequence(id, RefillAll(children, ls))
    case Fallback(id, children) => Fallback(id, RefillAll(children, ls))
    case Parallel(id, children, cancel) => Parallel(id, RefillAll(children, ls), cancel)
    case Retry(id, n, child) => Retry(id, n, Refill(child, ls))
    case Timeout(id, limit, child) => Timeout(id, limit, Refill(child, ls))
    case _ => ls[0]
  }

  function RefillAll(nodes: seq<Node>, ls: seq<Node>): seq<Node>
    requires |ls| == |AllLeaves(nodes)|
    decreases nodes, 0
  {
    if nodes == [] then []
    else
      var n := |Leaves(nodes[0])|;
      [Refill(nodes[0], ls[..n])] + RefillAll(nodes[1..], ls[n..])
  }

  // Editing the list of leaves and writing it back edits the tree.
  lemma {:induction false} RefillIsEdit(edit: Node -> Args, node: Node)
    ensures Refill(node, Map(n => EditLeaf(edit, n), Leaves(node))) == EditActions(edit, node)
    decreases node, 1
  {
    match node
    case Sequence(_, children) => RefillAllIsEdit(edit, children);
    case Fallback(_, children) => RefillAllIsEdit(edit, children);
    case Parallel(_, children, _) => RefillAllIsEdit(edit, children);
    case Retry(_, _, child) => RefillIsEdit(edit, child);
    case Timeout(_, _, child) => RefillIsEdit(edit, child);
    case _ =>
  }

  lemma {:induction false} RefillAllIsEdit(edit: Node -> Args, nodes: seq<Node>)
    ensures RefillAll(nodes, Map(n => EditLeaf(edit, n), AllLeaves(nodes))) == EditAll(edit, nodes)
    decreases nodes, 0
  {
    if nodes != [] {
      var f := (n: Node) => EditLeaf(edit, n);
      var first, rest := Leaves(nodes[0]), AllLeaves(nodes[1..]);
      var ls := Map(f, AllLeaves(nodes));
      assert ls[..|first|] == Map(f, first) && ls[|first|..] == Map(f, rest);
      RefillIsEdit(edit, nodes[0]);
      RefillAllIsEdit(edit, nodes[1..]);
    }
  }

  // Edits of arguments leave the schema and the resources alone.
  lemma {:induction false} EditKeepsResources(reg: Registry, edit: Node -> Args, node: Node)
    ensures Resources(reg, EditActions(edit, node)) == Resources(reg, node)
    decreases node, 1
  {
    match node
    case Sequence(_, children) => EditAllKeepsResources(reg, edit, children);
    case Fallback(_, children) => EditAllKeepsResources(reg, edit, children);
    case Parallel(_, children, _) => EditAllKeepsResources(reg, edit, children);
    case Retry(_, _, child) => EditKeepsResources(reg, edit, child);
    case Timeout(_, _, child) => EditKeepsResources(reg, edit, child);
    case _ =>
  }

  lemma {:induction false} EditAllKeepsResources(reg: Registry, edit: Node -> Args, nodes: seq<Node>)
    ensures AllResources(reg, EditAll(edit, nodes)) == AllResources(reg, nodes)
    decreases nodes, 0
  {
    if nodes != [] {
      assert EditAll(edit, nodes)[1..] == EditAll(edit, nodes[1..]);
      EditKeepsResources(reg, edit, nodes[0]);
      EditAllKeepsResources(reg, edit, nodes[1..]);
    }
  }

  lemma {:induction false} EditKeepsValid(reg: Registry, known: set<string>, edit: Node -> Args, node: Node)
    requires Validated(reg, known, node)
    ensures Validated(reg, known, EditActions(edit, node))
    decreases node, 1
  {
    match node
    case Sequence(_, children) => EditAllKeepsValid(reg, known, edit, children);
    case Fallback(_, children) => EditAllKeepsValid(reg, known, edit, children);
    case Parallel(_, children, _) =>
      EditAllKeepsValid(reg, known, edit, children);
      var edited := EditAll(edit, children);
      forall i, j | 0 <= i < j < |children|
        ensures !SetsConflict(Resources(reg, edited[i]), Resources(reg, edited[j]))
      {
        EditKeepsResources(reg, edit, children[i]);
        EditKeepsResources(reg, edit, children[j]);
      }
    case Retry(_, _, child) => EditKeepsValid(reg, known, edit, child);
    case Timeout(_, _, child) => EditKeepsValid(reg, known, edit, child);
    case _ =>
  }

  lemma {:induction false} EditAllKeepsValid(reg: Registry, known: set<string>, edit: Node -> Args, nodes: seq<Node>)
    requires AllValidated(reg, known, nodes)
    ensures AllValidated(reg, known, EditAll(edit, nodes))
    decreases nodes, 0
  {
    forall i | 0 <= i < |nodes|
      ensures Validated(reg, known, EditAll(edit, nodes)[i])
    {
      EditKeepsValid(reg, known, edit, nodes[i]);
    }
  }

  // The tree with the subtree at a path replaced.
  function ReplaceAt(node: Node, path: Path, sub: Node): Node
    requires NodeAt(node, path).Some?
    decreases |path|
  {
    if path == [] then sub
    else
      var k := path[0];
      match node
      case Sequence(id, children) => Sequence(id, children[k := ReplaceAt(children[k], path[1..], sub)])
      case Fallback(id, children) => Fallback(id, children[k := ReplaceAt(children[k], path[1..], sub)])
      case Parallel(id, children, cancel) => Parallel(id, children[k := ReplaceAt(children[k], path[1..], sub)], cancel)
      case Retry(id, n, child) => Retry(id, n, ReplaceAt(child, path[1..], sub))
      case Timeout(id, limit, child) => Timeout(id, limit, ReplaceAt(child, path[1..], sub))
  }

  lemma {:induction false} ValidatedAt(reg: Registry, known: set<string>, node: Node, path: Path)
    requires Validated(reg, known, node) && NodeAt(node, path).Some?
    ensures Validated(reg, known, NodeAt(node, path).value)
    decreases |path|
  {
    if path != [] {
      assert node.Sequence? || node.Fallback? || node.Parallel? ==> AllValidated(reg, known, node.children);
      ValidatedAt(reg, known, ChildAt(node, path[0]).value, path[1..]);
    }
  }

  lemma {:induction false} ReplaceKeepsValid(reg: Registry, known: set<string>, node: Node, path: Path, sub: Node)
    requires NodeAt(node, path).Some?
    requires Validated(reg, known, node) && Validated(reg, known, sub)
    requires Resources(reg, sub) <= Resources(reg, NodeAt(node, path).value)
    ensures Validated(reg, known, ReplaceAt(node, path, sub))
    ensures Resources(reg, ReplaceAt(node, path, sub)) <= Resources(reg, node)
    decreases |path|
  {
    if path != [] {
      var child := ChildAt(node, path[0]).value;
      assert node.Sequence? || node.Fallback? || node.Parallel? ==> AllValidated(reg, known, node.children);
      ReplaceKeepsValid(reg, known, child, path[1..], sub);
      if node.Sequence? || node.Fallback? || node.Parallel? {
        ReplacedChild(reg, known, node.children, path[0], ReplaceAt(child, path[1..], sub));
      }
    }
  }

  lemma ReplacedChild(reg: Registry, known: set<string>, nodes: seq<Node>, k: nat, sub: Node)
    requires k < |nodes| && AllValidated(reg, known, nodes) && Validated(reg, known, sub)
    requires Resources(reg, sub) <= Resources(reg, nodes[k])
    ensures AllValidated(reg, known, nodes[k := sub])
    ensures AllResources(reg, nodes[k := sub]) <= AllResources(reg, nodes)
    ensures BranchesDisjoint(reg, nodes) ==> BranchesDisjoint(reg, nodes[k := sub])
  {
    SmallerChild(reg, nodes, k, sub);
    if BranchesDisjoint(reg, nodes) {
      var changed := nodes[k := sub];
      forall i, j | 0 <= i < j < |nodes|
        ensures !SetsConflict(Resources(reg, changed[i]), Resources(reg, changed[j]))
      {
        assert Resources(reg, changed[i]) <= Resources(reg, nodes[i]) && Resources(reg, changed[j]) <= Resources(reg, nodes[j]);
        assert !SetsConflict(Resources(reg, nodes[i]), Resources(reg, nodes[j]));
      }
    }
  }

  lemma {:induction false} SmallerChild(reg: Registry, nodes: seq<Node>, k: nat, sub: Node)
    requires k < |nodes| && Resources(reg, sub) <= Resources(reg, nodes[k])
    ensures AllResources(reg, nodes[k := sub]) <= AllResources(reg, nodes)
    decreases k
  {
    if k == 0 {
      assert nodes[0 := sub][1..] == nodes[1..];
    } else {
      assert nodes[k := sub][1..] == nodes[1..][k - 1 := sub];
      SmallerChild(reg, nodes[1..], k - 1, sub);
    }
  }

  lemma {:induction false} AllLeavesConcat(xs: seq<Node>, ys: seq<Node>)
    ensures AllLeaves(xs + ys) == AllLeaves(xs) + AllLeaves(ys)
  {
    if xs == [] {
      assert xs + ys == ys;
    } else {
      assert (xs + ys)[1..] == xs[1..] + ys;
      AllLeavesConcat(xs[1..], ys);
    }
  }
}
