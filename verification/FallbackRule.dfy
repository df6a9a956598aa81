// When exactly the observation's Fallback gives way, and to what.
module FallbackRule {
  import opened Common
  import opened SkillRegistry
  import opened SkillTerms
  import opened BehaviourTree
  import opened TreeRewrites
  import opened VisualFallback

  function Silent(reg: Registry): Node -> bool {
    (n: Node) => !(n.Action? && Speaks(reg, n.skill))
  }

  function StepsOf(branch: Node): seq<Node> {
    if branch.Sequence? then branch.children else [branch]
  }

  // The branch, without the steps that speak, is `rest`: its children if it is a
  // Sequence, itself if it is a single Action or check. A step that is a Fallback
  // cannot be looked through.
  predicate ReducesTo(reg: Registry, branch: Node, rest: seq<Node>) {
    var steps := StepsOf(branch);
    && (branch.Sequence? || branch.Action? || branch.VisualCheck? || branch.Condition?)
    && (forall i :: 0 <= i < |steps| ==> !steps[i].Fallback?)
    && rest == Filter(Silent(reg), steps)
  }

  // The same apart from node ids, in arguments as well.
  predicate SameButIds(a: Node, b: Node)
    decreases a
  {
    match a
    case Action(_, skill, args, limit) => b.Action? && b.skill == skill && b.limitSec == limit && SameArgsButIds(args, b.args)
    case Wait(_, duration) => b.Wait? && b.durationSec == duration
    case NoAction(_) => b.NoAction?
    case Condition(_, name, args) => b.Condition? && b.predicateName == name && SameArgsButIds(args, b.args)
    case GoalCheck(_, name, check) => b.GoalCheck? && b.predicateName == name && b.check == check
    case WaitForEvent(_, name, timeout, poll) =>
      b.WaitForEvent? && b.predicateName == name && b.timeoutSec == timeout && b.pollSec == poll
    case VisualCheck(_, mode, check) => b.VisualCheck? && b.mode == mode && b.check == check
    case Sequence(_, children) => b.Sequence? && AllSameButIds(children, b.children)
    case Fallback(_, children) => b.Fallback? && AllSameButIds(children, b.children)
    case Parallel(_, children, cancel) =>
      b.Parallel? && b.cancelOnFailure == cancel && AllSameButIds(children, b.children)
    case Retry(_, n, child) => b.Retry? && b.maxAttempts == n && SameButIds(child, b.child)
    case Timeout(_, limit, child) => b.Timeout? && b.timeoutSec == limit && SameButIds(child, b.child)
  }

  predicate AllSameButIds(xs: seq<Node>, ys: seq<Node>)
    decreases xs
  {
    |xs| == |ys| && forall i :: 0 <= i < |xs| ==> SameButIds(xs[i], ys[i])
  }

  predicate SameArgsButIds(a: Args, b: Args) {
    forall key :: key in a.Keys + b.Keys && key != "node_id" ==> key in a && key in b && a[key] == b[key]
  }

  lemma ArgsButIds(a: Args, b: Args)
    ensures a - {"node_id"} == b - {"node_id"} <==> SameArgsButIds(a, b)
  {
    var left, right := a - {"node_id"}, b - {"node_id"};
    if left == right {
      forall key | key in a.Keys + b.Keys && key != "node_id"
        ensures key in a && key in b && a[key] == b[key]
      {
        assert key in left <==> key in a;
        assert key in right <==> key in b;
        assert left[key] == right[key];
      }
    }
    if SameArgsButIds(a, b) {
      assert forall key :: key in left ==> key in right && left[key] == right[key];
      assert left == right;
    }
  }

  lemma {:induction false} BareMeans(a: Node, b: Node)
    ensures BareTree(a) == BareTree(b) <==> SameButIds(a, b)
    decreases a, 0
  {
    match a
    case Action(_, _, args, _) => if b.Action? { ArgsButIds(args, b.args); }
    case Condition(_, _, args) => if b.Condition? { ArgsButIds(args, b.args); }
    case Sequence(_, children) => if b.Sequence? { AllBareMeans(a, children, b.children); }
    case Fallback(_, children) => if b.Fallback? { AllBareMeans(a, children, b.children); }
    case Parallel(_, children, _) => if b.Parallel? { AllBareMeans(a, children, b.children); }
    case Retry(_, _, child) => if b.Retry? { BareMeans(child, b.child); }
    case Timeout(_, _, child) => if b.Timeout? { BareMeans(child, b.child); }
    case _ =>
  }

  lemma {:induction false} AllBareMeans(parent: Node, xs: seq<Node>, ys: seq<Node>)
    requires forall i :: 0 <= i < |xs| ==> xs[i] < parent
    ensures BareTrees(xs) == BareTrees(ys) <==> AllSameButIds(xs, ys)
    decreases parent, 0, xs
  {
    if |xs| == |ys| {
      forall i | 0 <= i < |xs|
        ensures BareTrees(xs)[i] == BareTrees(ys)[i] <==> SameButIds(xs[i], ys[i])
      {
        BareTreesAt(xs, i);
        BareTreesAt(ys, i);
        BareMeans(xs[i], ys[i]);
      }
      if AllSameButIds(xs, ys) {
        assert forall i :: 0 <= i < |xs| ==> BareTrees(xs)[i] == BareTrees(ys)[i];
        assert BareTrees(xs) == BareTrees(ys);
      }
    } else {
      assert |BareTrees(xs)| != |BareTrees(ys)|;
    }
  }

  // All branches, two at least, come down to the steps of the first, node ids aside,
  // and the last of these can be named as the goal.
  ghost predicate AllComeDownTo(reg: Registry, fallback: Node, steps: seq<Node>)
    requires fallback.Fallback?
  {
    var branches := fallback.children;
    && |branches| >= 2 && steps != [] && steps[|steps| - 1].nodeId != ""
    && ReducesTo(reg, branches[0], steps)
    && forall i :: 0 <= i < |branches| ==> ComesDownTo(reg, branches[i], steps)
  }

  ghost predicate ComesDownTo(reg: Registry, branch: Node, steps: seq<Node>) {
    exists rest :: ReducesTo(reg, branch, rest) && AllSameButIds(rest, steps)
  }

  lemma {:induction false} FilterAlike<T>(f: T -> bool, g: T -> bool, xs: seq<T>)
    requires forall i :: 0 <= i < |xs| ==> f(xs[i]) == g(xs[i])
    ensures Filter(f, xs) == Filter(g, xs)
  {
    if xs != [] {
      FilterAlike(f, g, xs[1..]);
    }
  }

  lemma ResidueMeans(reg: Registry, branch: Node, rest: seq<Node>)
    ensures Residue(reg, branch) == Some(rest) <==> ReducesTo(reg, branch, rest)
  {
    var steps := StepsOf(branch);
    forall i | 0 <= i < |steps|
      ensures Unspoken(reg)(steps[i]) == Silent(reg)(steps[i])
    {
      if steps[i].Action? {
        TermsMean(reg, steps[i].skill, "");
      }
    }
    FilterAlike(Unspoken(reg), Silent(reg), steps);
    assert HasFallback(steps) <==> exists i :: 0 <= i < |steps| && steps[i].Fallback?;
  }

  // A branch comes down to the steps exactly when its residue does.
  lemma ComesDownMeans(reg: Registry, branch: Node, steps: seq<Node>)
    ensures
      ComesDownTo(reg, branch, steps)
      <==> Residue(reg, branch).Some? && BareTrees(Residue(reg, branch).value) == BareTrees(steps)
  {
    if ComesDownTo(reg, branch, steps) {
      var rest :| ReducesTo(reg, branch, rest) && AllSameButIds(rest, steps);
      ResidueMeans(reg, branch, rest);
      AllBareMeans(Sequence("", rest), rest, steps);
    }
    if Residue(reg, branch).Some? {
      var rest := Residue(reg, branch).value;
      ResidueMeans(reg, branch, rest);
      AllBareMeans(Sequence("", rest), rest, steps);
    }
  }

  predicate Reduced(reg: Registry, branch: Node, steps: seq<Node>) {
    var rest := Residue(reg, branch);
    rest.Some? && rest.value != [] && BareTrees(rest.value) == BareTrees(steps)
  }

  lemma SharedIff(reg: Registry, fallback: Node, steps: seq<Node>)
    requires fallback.Fallback?
    ensures
      SharedSteps(reg, fallback) == Some(steps)
      <==>
      && |fallback.children| >= 2 && steps != [] && steps[|steps| - 1].nodeId != ""
      && Residue(reg, fallback.children[0]) == Some(steps)
      && forall i :: 0 <= i < |fallback.children| ==> Reduced(reg, fallback.children[i], steps)
  {
  }

  lemma SharedMeans(reg: Registry, fallback: Node, steps: seq<Node>)
    requires fallback.Fallback?
    ensures SharedSteps(reg, fallback) == Some(steps) <==> AllComeDownTo(reg, fallback, steps)
  {
    var branches := fallback.children;
    SharedIff(reg, fallback, steps);
    if |branches| >= 2 && steps != [] {
      ResidueMeans(reg, branches[0], steps);
      forall i | 0 <= i < |branches|
        ensures Reduced(reg, branches[i], steps) <==> ComesDownTo(reg, branches[i], steps)
      {
        ComesDownMeans(reg, branches[i], steps);
        if Residue(reg, branches[i]) == Some([]) {
          assert |BareTrees([])| != |BareTrees(steps)|;
        }
      }
    }
  }

  // ---- Where the search looks.

  // A Sequence that ends with an observation and a Fallback, below Sequences, Retries
  // and Timeouts alone.
  predicate ShapeAt(node: Node, path: Path)
    decreases |path|
  {
    if path == [] then
      && node.Sequence? && |node.children| >= 2
      && node.children[|node.children| - 2].VisualCheck? && node.children[|node.children| - 2].mode == ObserveMode
      && node.children[|node.children| - 1].Fallback?
    else
      && (node.Sequence? || node.Retry? || node.Timeout?)
      && ChildAt(node, path[0]).Some? && ShapeAt(ChildAt(node, path[0]).value, path[1..])
  }

  // x comes before y when the nodes are met in order, each before its children.
  predicate MetBefore(x: Path, y: Path)
    decreases |x|
  {
    if x == [] then y != []
    else y != [] && (x[0] < y[0] || (x[0] == y[0] && MetBefore(x[1..], y[1..])))
  }

  ghost predicate FirstShape(root: Node, at: Path) {
    ShapeAt(root, at) && forall x :: ShapeAt(root, x) ==> x == at || MetBefore(at, x)
  }

  lemma {:induction false} ShapeMeans(node: Node)
    ensures
      match FindShape(node)
      case Some(at) => FirstShape(node, at)
      case None => forall x :: !ShapeAt(node, x)
    decreases node, 1, 0
  {
    match node
    case Sequence(_, children) =>
      if !EndsInFallback(children) {
        ShapeMeansFrom(node, 0);
        forall x | ShapeAt(node, x)
          ensures x != [] && x[0] >= 0
        {
        }
      }
    case Retry(_, _, child) =>
      ShapeMeans(child);
      OnlyChildShape(node, child);
    case Timeout(_, _, child) =>
      ShapeMeans(child);
      OnlyChildShape(node, child);
    case _ =>
  }

  lemma OnlyChildShape(node: Node, child: Node)
    requires (node.Retry? || node.Timeout?) && child == node.child
    requires
      match FindShape(child)
      case Some(at) => FirstShape(child, at)
      case None => forall x :: !ShapeAt(child, x)
    ensures
      match Under(0, FindShape(child))
      case Some(at) => FirstShape(node, at)
      case None => forall x :: !ShapeAt(node, x)
  {
    forall x | ShapeAt(node, x)
      ensures x != [] && x[0] == 0 && ShapeAt(child, x[1..])
    {
    }
    if FindShape(child).Some? {
      var at := FindShape(child).value;
      assert ([0] + at)[1..] == at;
      assert ShapeAt(node, [0] + at);
      forall x | ShapeAt(node, x)
        ensures x == [0] + at || MetBefore([0] + at, x)
      {
        assert x == [0] + x[1..];
      }
    }
  }

  // The shapes below the children from i on.
  lemma {:induction false} ShapeMeansFrom(node: Node, i: nat)
    requires node.Sequence? && i <= |node.children|
    ensures
      match FindShapeFrom(node.children, i)
      case Some(at) =>
        && at != [] && at[0] >= i && ShapeAt(node, at)
        && forall x :: x != [] && x[0] >= i && ShapeAt(node, x) ==> x == at || MetBefore(at, x)
      case None => forall x :: x != [] && x[0] >= i ==> !ShapeAt(node, x)
    decreases node, 0, |node.children| - i
  {
    if i < |node.children| {
      ShapeMeans(node.children[i]);
      ShapeMeansFrom(node, i + 1);
      var inner := FindShape(node.children[i]);
      if inner.Some? {
        FirstBelow(node, i, inner.value);
      }
    }
  }

  lemma FirstBelow(node: Node, i: nat, inner: Path)
    requires node.Sequence? && i < |node.children| && FirstShape(node.children[i], inner)
    ensures ShapeAt(node, [i] + inner)
    ensures forall x :: x != [] && x[0] >= i && ShapeAt(node, x) ==> x == [i] + inner || MetBefore([i] + inner, x)
  {
    assert ([i] + inner)[1..] == inner;
    forall x | x != [] && x[0] >= i && ShapeAt(node, x)
      ensures x == [i] + inner || MetBefore([i] + inner, x)
    {
      if x[0] == i {
        assert ShapeAt(node.children[i], x[1..]);
        assert x == [i] + x[1..];
      }
    }
  }

  lemma {:induction false} OneFirst(x: Path, y: Path)
    requires MetBefore(x, y)
    ensures x != y && !MetBefore(y, x)
    decreases |x|
  {
    if x != [] && x[0] == y[0] {
      OneFirst(x[1..], y[1..]);
    }
  }

  // ---- The main result.

  // The first such Sequence of the tree ends in a Fallback whose branches all come
  // down to these steps.
  ghost predicate GivesWay(reg: Registry, root: Node, at: Path, steps: seq<Node>) {
    && FirstShape(root, at)
    && var s := NodeAt(root, at);
       && s.Some? && s.value.Sequence? && s.value.children != []
       && var last := s.value.children[|s.value.children| - 1];
          last.Fallback? && AllComeDownTo(reg, last, steps)
  }

  // The steps stand where the Fallback stood, and the last is the goal node.
  predicate Gone(root: Node, at: Path, steps: seq<Node>, r: Rewrite) {
    && steps != [] && r.at == at && r.goalNodeId == steps[|steps| - 1].nodeId
    && var s := NodeAt(root, at);
       && s.Some? && s.value.Sequence? && s.value.children != []
       && r.root == ReplaceAt(root, at, Sequence(s.value.nodeId, s.value.children[..|s.value.children| - 1] + steps))
  }

  lemma GivesWayToFirst(reg: Registry, root: Node, at: Path, steps: seq<Node>)
    requires GivesWay(reg, root, at, steps)
    ensures FindShape(root) == Some(at)
    ensures SharedSteps(reg, NodeAt(root, at).value.children[|NodeAt(root, at).value.children| - 1]) == Some(steps)
  {
    ShapeMeans(root);
    if FindShape(root).Some? && at != FindShape(root).value {
      OneFirst(at, FindShape(root).value);
    }
    var children := NodeAt(root, at).value.children;
    SharedMeans(reg, children[|children| - 1], steps);
  }

  lemma FirstGivesWay(reg: Registry, root: Node, at: Path, s: Node, steps: seq<Node>)
    requires FindShape(root) == Some(at) && NodeAt(root, at) == Some(s) && s.Sequence? && EndsInFallback(s.children)
    requires SharedSteps(reg, s.children[|s.children| - 1]) == Some(steps)
    ensures GivesWay(reg, root, at, steps)
  {
    ShapeMeans(root);
    SharedMeans(reg, s.children[|s.children| - 1], steps);
  }

  // The rewrite fires exactly when the Fallback gives way, and then these steps
  // take its place.
  lemma FallbackGoesIff(reg: Registry, root: Node)
    ensures
      match RewriteFallback(reg, root)
      case Some(r) => exists steps :: GivesWay(reg, root, r.at, steps) && Gone(root, r.at, steps, r)
      case None => forall at, steps :: !GivesWay(reg, root, at, steps)
  {
    match RewriteFallback(reg, root)
    case Some(r) =>
      ShapeFound(root);
      var s := NodeAt(root, r.at).value;
      var steps := SharedSteps(reg, s.children[|s.children| - 1]).value;
      FirstGivesWay(reg, root, r.at, s, steps);
      assert Gone(root, r.at, steps, r);
    case None =>
      forall at, steps | GivesWay(reg, root, at, steps)
        ensures false
      {
        GivesWayToFirst(reg, root, at, steps);
        ShapeFound(root);
      }
  }
}
