// What the two checkers accept, node by node of the tree and limit by limit.
module PlanRules {
  import opened Common
  import opened SkillRegistry
  import opened SkillTerms
  import opened BehaviourTree
  import opened Validator
  import opened Goals
  import opened PolicyGuard

  predicate Names(check: Check) {
    Strip(check.kind) != "" || Strip(check.predicateName) != ""
  }

  // The schema of one node.
  ghost predicate ObeysSchema(reg: Registry, known: set<string>, n: Node) {
    match n
    case Action(_, skill, _, limit) =>
      Strip(skill) != "" && skill in reg && (limit == None || 0.0 < limit.value <= 600.0)
    case Wait(_, duration) => 0.0 < duration <= 300.0
    case NoAction(_) => true
    case Condition(_, name, _) => Strip(name) != "" && name in known
    case GoalCheck(_, _, check) => Names(check) && (Strip(check.predicateName) == "" || check.predicateName in known)
    case WaitForEvent(_, name, timeout, poll) =>
      Strip(name) != "" && name in known && 0.0 < timeout <= 1800.0 && 0.5 <= poll <= 30.0
    case VisualCheck(_, _, check) => Names(check) || Strip(check.query) != ""
    case Sequence(_, children) => |children| > 0
    case Fallback(_, children) => |children| > 0
    case Parallel(_, children, _) =>
      |children| > 0 && forall i, j :: 0 <= i < j < |children| ==> KeepApart(reg, children[i], children[j])
    case Retry(_, n, _) => 1 <= n <= 5
    case Timeout(_, limit, _) => 0.0 < limit <= 600.0
  }

  // No Action of one branch needs a resource that conflicts with one of the other's.
  ghost predicate KeepApart(reg: Registry, left: Node, right: Node) {
    forall a, b, x, y :: Needs(reg, left, a, x) && Needs(reg, right, b, y) ==> !ResourcesConflict(x, y)
  }

  // The Action at this path of the tree needs the resource.
  predicate Needs(reg: Registry, node: Node, at: Path, resource: string) {
    && NodeAt(node, at).Some? && NodeAt(node, at).value.Action?
    && NodeAt(node, at).value.skill in reg && resource in reg[NodeAt(node, at).value.skill].resources
  }

  lemma {:induction false} NeededAt(reg: Registry, node: Node, resource: string) returns (at: Path)
    requires resource in Resources(reg, node)
    ensures Needs(reg, node, at, resource)
    decreases node, 1
  {
    match node
    case Action(_, _, _, _) => at := [];
    case Sequence(_, children) => at := NeededInAt(reg, node, resource, 0);
    case Fallback(_, children) => at := NeededInAt(reg, node, resource, 0);
    case Parallel(_, children, _) => at := NeededInAt(reg, node, resource, 0);
    case Retry(_, _, child) =>
      var rest := NeededAt(reg, child, resource);
      at := [0] + rest;
      assert at[1..] == rest;
    case Timeout(_, _, child) =>
      var rest := NeededAt(reg, child, resource);
      at := [0] + rest;
      assert at[1..] == rest;
  }

  lemma {:induction false} NeededInAt(reg: Registry, node: Node, resource: string, i: nat) returns (at: Path)
    requires (node.Sequence? || node.Fallback? || node.Parallel?) && i <= |node.children|
    requires resource in AllResources(reg, node.children[i..])
    ensures Needs(reg, node, at, resource)
    decreases node, 0, |node.children| - i
  {
    var rest := node.children[i..];
    assert rest[0] == node.children[i] && rest[1..] == node.children[i + 1..];
    if resource in Resources(reg, node.children[i]) {
      var below := NeededAt(reg, node.children[i], resource);
      at := [i] + below;
      assert at[1..] == below;
    } else {
      at := NeededInAt(reg, node, resource, i + 1);
    }
  }

  lemma {:induction false} NeedIsCollected(reg: Registry, node: Node, at: Path, resource: string)
    requires Needs(reg, node, at, resource)
    ensures resource in Resources(reg, node)
    decreases |at|
  {
    if at != [] {
      var child := ChildAt(node, at[0]).value;
      NeedIsCollected(reg, child, at[1..], resource);
      if node.Sequence? || node.Fallback? || node.Parallel? {
        AllResourcesOf(reg, node.children, at[0]);
      }
    }
  }

  lemma ApartMeans(reg: Registry, left: Node, right: Node)
    ensures SetsConflict(Resources(reg, left), Resources(reg, right)) <==> !KeepApart(reg, left, right)
  {
    if SetsConflict(Resources(reg, left), Resources(reg, right)) {
      var x, y :| x in Resources(reg, left) && y in Resources(reg, right) && ResourcesConflict(x, y);
      var a := NeededAt(reg, left, x);
      var b := NeededAt(reg, right, y);
    }
    if !KeepApart(reg, left, right) {
      var a, b, x, y :| Needs(reg, left, a, x) && Needs(reg, right, b, y) && ResourcesConflict(x, y);
      NeedIsCollected(reg, left, a, x);
      NeedIsCollected(reg, right, b, y);
    }
  }

  lemma ShapeMeans(reg: Registry, known: set<string>, n: Node)
    ensures ShapeOk(reg, known, n) <==> ObeysSchema(reg, known, n)
  {
    if n.Parallel? {
      forall i, j | 0 <= i < j < |n.children|
        ensures SetsConflict(Resources(reg, n.children[i]), Resources(reg, n.children[j])) <==>
                !KeepApart(reg, n.children[i], n.children[j])
      {
        ApartMeans(reg, n.children[i], n.children[j]);
      }
    }
  }

  // A tree is validated exactly when every node of it obeys the schema.
  lemma ValidatedIff(reg: Registry, known: set<string>, root: Node)
    ensures Validated(reg, known, root) <==>
      forall x :: NodeAt(root, x).Some? ==> ObeysSchema(reg, known, NodeAt(root, x).value)
  {
    if Validated(reg, known, root) {
      forall x | NodeAt(root, x).Some?
        ensures ObeysSchema(reg, known, NodeAt(root, x).value)
      {
        ValidNodeAt(reg, known, root, x);
        ShapeMeans(reg, known, NodeAt(root, x).value);
      }
    } else {
      var x := InvalidAt(reg, known, root);
      ShapeMeans(reg, known, NodeAt(root, x).value);
    }
  }

  lemma {:induction false} ValidNodeAt(reg: Registry, known: set<string>, node: Node, x: Path)
    requires Validated(reg, known, node) && NodeAt(node, x).Some?
    ensures ShapeOk(reg, known, NodeAt(node, x).value)
    decreases |x|
  {
    if x != [] {
      assert node.Sequence? || node.Fallback? || node.Parallel? ==> AllValidated(reg, known, node.children);
      ValidNodeAt(reg, known, ChildAt(node, x[0]).value, x[1..]);
    }
  }

  lemma {:induction false} InvalidAt(reg: Registry, known: set<string>, node: Node) returns (x: Path)
    requires !Validated(reg, known, node)
    ensures NodeAt(node, x).Some? && !ShapeOk(reg, known, NodeAt(node, x).value)
    decreases node
  {
    if !ShapeOk(reg, known, node) {
      x := [];
    } else if node.Sequence? || node.Fallback? || node.Parallel? {
      assert !AllValidated(reg, known, node.children);
      var i :| 0 <= i < |node.children| && !Validated(reg, known, node.children[i]);
      var rest := InvalidAt(reg, known, node.children[i]);
      x := [i] + rest;
      assert x[1..] == rest;
    } else {
      var rest := InvalidAt(reg, known, node.child);
      x := [0] + rest;
      assert x[1..] == rest;
    }
  }

  // The schema of the planner's goal.
  lemma GoalSchemaMeans(known: set<string>, goal: GoalSpec)
    ensures GoalSpecOk(known, goal) <==>
      && goal.kind in {Structured, Visual, Human, Hybrid}
      && |goal.verification| > 0
      && (goal.kind == Structured ==>
            "predicate" in goal.keys && (goal.predicateName in known || Strip(goal.predicateName) == ""))
      && (goal.kind == Visual ==> "query" in goal.keys)
  {
  }

  // ---- The policy.

  predicate PlainName(name: string) {
    && (|name| < 2 || name[..2] != "__")
    && forall i :: 0 <= i < |name| ==> name[i] != '.'
  }

  // What the policy asks of one node.
  ghost predicate ObeysPolicy(reg: Registry, rules: Rules, n: Node) {
    match n
    case Action(_, skill, args, _) => skill in reg && reg[skill].available && rules.argsOk(skill, args)
    case Condition(_, name, _) => PlainName(name)
    case GoalCheck(_, _, check) => PlainName(check.predicateName)
    case VisualCheck(_, _, check) => PlainName(check.predicateName)
    case WaitForEvent(_, name, timeout, poll) =>
      && PlainName(name)
      && rules.limits.minPollSec <= poll && poll <= rules.limits.maxPollSec
      && 0.0 < timeout && timeout <= rules.limits.maxEventTimeoutSec
    case Fallback(_, children) =>
      // no branch waits on a Condition that is never FALSE
      forall i, x :: 0 <= i < |children| && NodeAt(children[i], x).Some? && NodeAt(children[i], x).value.Condition? ==>
        NodeAt(children[i], x).value.predicateName !in rules.neverFalse
    case _ => true
  }

  lemma PlainMeans(name: string)
    ensures PolicySafeName(name) <==> PlainName(name)
  {
    if |name| >= 2 {
      assert name[..2] == [name[0], name[1]];
    }
  }

  lemma NodeSafeMeans(reg: Registry, rules: Rules, n: Node)
    ensures NodeSafe(reg, rules, n) <==> ObeysPolicy(reg, rules, n)
  {
    match n
    case Condition(_, name, _) => PlainMeans(name);
    case GoalCheck(_, _, check) => PlainMeans(check.predicateName);
    case VisualCheck(_, _, check) => PlainMeans(check.predicateName);
    case WaitForEvent(_, name, _, _) => PlainMeans(name);
    case Fallback(_, children) =>
      forall i | 0 <= i < |children|
        ensures NeverRuledOut(rules.neverFalse, children[i]) <==>
          exists x :: NodeAt(children[i], x).Some? && NodeAt(children[i], x).value.Condition?
                      && NodeAt(children[i], x).value.predicateName in rules.neverFalse
      {
        NeverRuledOutAt(rules.neverFalse, children[i]);
      }
    case _ =>
  }

  lemma NeverRuledOutAt(neverFalse: set<string>, branch: Node)
    ensures NeverRuledOut(neverFalse, branch) <==>
      exists x :: NodeAt(branch, x).Some? && NodeAt(branch, x).value.Condition? && NodeAt(branch, x).value.predicateName in neverFalse
  {
    var p := (n: Node) => n.Condition? && n.predicateName in neverFalse;
    if NeverRuledOut(neverFalse, branch) {
      var x := ContainedAt(branch, p);
    }
    if x :| NodeAt(branch, x).Some? && NodeAt(branch, x).value.Condition? && NodeAt(branch, x).value.predicateName in neverFalse {
      AtIsContained(branch, p, x);
    }
  }

  // A tree is safe exactly when every node of it obeys the policy.
  lemma SafeIff(reg: Registry, rules: Rules, root: Node)
    ensures TreeSafe(reg, rules, root) <==>
      forall x :: NodeAt(root, x).Some? ==> ObeysPolicy(reg, rules, NodeAt(root, x).value)
  {
    var p := Unsafe(reg, rules);
    if !TreeSafe(reg, rules, root) {
      var x := ContainedAt(root, p);
      NodeSafeMeans(reg, rules, NodeAt(root, x).value);
    } else {
      forall x | NodeAt(root, x).Some?
        ensures ObeysPolicy(reg, rules, NodeAt(root, x).value)
      {
        NodeSafeMeans(reg, rules, NodeAt(root, x).value);
        if p(NodeAt(root, x).value) {
          AtIsContained(root, p, x);
        }
      }
    }
  }

  // Some Action of the plan uses a skill that needs the base or the body.
  predicate UsesMoving(reg: Registry, root: Node, x: Path, skill: string) {
    && NodeAt(root, x).Some? && NodeAt(root, x).value.Action? && NodeAt(root, x).value.skill == skill
    && MovesRobot(reg, skill)
  }

  lemma HasPhysicalAt(reg: Registry, root: Node, skill: string)
    ensures HasPhysical(reg, root, skill) <==> exists x :: UsesMoving(reg, root, x, skill)
  {
    TermsMean(reg, skill, "");
    if HasPhysical(reg, root, skill) {
      var x := ContainedAt(root, Uses(skill));
      assert UsesMoving(reg, root, x, skill);
    }
    if x :| UsesMoving(reg, root, x, skill) {
      AtIsContained(root, Uses(skill), x);
    }
  }

  // A plan that moves the robot needs a goal that is neither left to a human nor
  // to the conversation; and if its predicate is one that moving skills bring
  // about, one of the plan's own does.
  lemma AlignedIff(reg: Registry, root: Node, goal: GoalSpec)
    ensures GoalAligned(reg, root, goal) <==>
      ((exists x, s :: UsesMoving(reg, root, x, s)) ==>
         && goal.kind != Human && Get(goal.verification, "mode") != "implicit_conversation"
         && (goal.predicateName != "" && (exists s :: MovesRobot(reg, s) && BringsIn(reg, s, goal.predicateName)) ==>
               exists x, s :: UsesMoving(reg, root, x, s) && BringsIn(reg, s, goal.predicateName)))
  {
    forall s
      ensures HasPhysical(reg, root, s) <==> exists x :: UsesMoving(reg, root, x, s)
      ensures MovesRobot(reg, s) <==> IsPhysicalSkill(reg, s)
      ensures BringsIn(reg, s, goal.predicateName) <==> Produces(reg, s, goal.predicateName)
    {
      HasPhysicalAt(reg, root, s);
      TermsMean(reg, s, goal.predicateName);
    }
    if AnyPhysical(reg, root) {
      var s :| HasPhysical(reg, root, s);
      var x :| UsesMoving(reg, root, x, s);
    }
  }

  // ---- The retry product.

  // A Retry without attempts counts as one with a single attempt.
  function Attempts(n: Node): int {
    if n.Retry? && n.maxAttempts != 0 then n.maxAttempts else 1
  }

  function AttemptsOf(nodes: seq<Node>): int {
    if nodes == [] then 1 else Attempts(nodes[0]) * AttemptsOf(nodes[1..])
  }

  lemma Associates(a: int, b: int, c: int)
    ensures a * (b * c) == (a * b) * c
  {
  }

  lemma {:induction false} AttemptsConcat(xs: seq<Node>, ys: seq<Node>)
    ensures AttemptsOf(xs + ys) == AttemptsOf(xs) * AttemptsOf(ys)
  {
    if xs == [] {
      assert xs + ys == ys;
    } else {
      assert (xs + ys)[1..] == xs[1..] + ys && (xs + ys)[0] == xs[0];
      AttemptsConcat(xs[1..], ys);
      Associates(Attempts(xs[0]), AttemptsOf(xs[1..]), AttemptsOf(ys));
    }
  }

  // The attempts of all the Retry nodes of the tree are multiplied.
  lemma {:induction false} RetryProductMeans(node: Node)
    ensures RetryProduct(node) == AttemptsOf(Preorder(node))
    decreases node, 1
  {
    var below := Preorder(node)[1..];
    assert Preorder(node) == [node] + below && AttemptsOf(Preorder(node)) == Attempts(node) * AttemptsOf(below);
    if node.Sequence? || node.Fallback? || node.Parallel? {
      assert node.children[..|node.children|] == node.children;
    }
    match node
    case Sequence(_, children) => RetryProductsMean(children, |children|);
    case Fallback(_, children) => RetryProductsMean(children, |children|);
    case Parallel(_, children, _) => RetryProductsMean(children, |children|);
    case Retry(_, _, child) => RetryProductMeans(child);
    case Timeout(_, _, child) => RetryProductMeans(child);
    case _ =>
  }

  lemma {:induction false} RetryProductsMean(nodes: seq<Node>, k: nat)
    requires k <= |nodes|
    ensures RetryProducts(nodes[..k]) == AttemptsOf(PreorderOf(nodes[..k]))
    decreases nodes, 0, k
  {
    if k > 0 {
      var front := nodes[..k];
      assert front[..k - 1] == nodes[..k - 1] && front[k - 1] == nodes[k - 1];
      RetryProductsMean(nodes, k - 1);
      RetryProductMeans(nodes[k - 1]);
      PreorderOneMore(nodes[..k - 1], nodes[k - 1]);
      assert front == nodes[..k - 1] + [nodes[k - 1]];
      AttemptsConcat(PreorderOf(nodes[..k - 1]), Preorder(nodes[k - 1]));
    }
  }

  lemma {:induction false} PreorderOneMore(nodes: seq<Node>, n: Node)
    ensures PreorderOf(nodes + [n]) == PreorderOf(nodes) + Preorder(n)
  {
    if nodes == [] {
      assert [n][1..] == [] && nodes + [n] == [n];
    } else {
      assert (nodes + [n])[1..] == nodes[1..] + [n];
      PreorderOneMore(nodes[1..], n);
    }
  }

  // What the policy accepts, all in all: a plan without a marker, safe at every
  // node, within every limit and with a goal to match.
  lemma PolicyMeans(reg: Registry, rules: Rules, root: Node, goal: GoalSpec, marker: Marker)
    ensures PolicyOk(reg, rules, root, goal, marker) <==>
      && marker == Absent
      && (forall x :: NodeAt(root, x).Some? ==> ObeysPolicy(reg, rules, NodeAt(root, x).value))
      && WithinLimits(reg, rules.limits, root)
      && GoalAligned(reg, root, goal)
  {
    SafeIff(reg, rules, root);
  }

  // The limits the system ships with.
  lemma ShippedLimits(reg: Registry, root: Node)
    ensures WithinLimits(reg, DEFAULT_LIMITS, root) ==> AttemptsOf(Preorder(root)) <= 5
    ensures DEFAULT_LIMITS.minPollSec == 0.5 && DEFAULT_LIMITS.maxPollSec == 30.0 && DEFAULT_LIMITS.maxEventTimeoutSec == 1800.0
  {
    RetryProductMeans(root);
  }
}
