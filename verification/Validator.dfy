// PlanValidator: the schema of a tree, and the static promise that the
// branches of a Parallel never need conflicting resources.
module Validator {
  import opened Common
  import opened SkillRegistry
  import opened BehaviourTree
  import opened Goals

  const BODY_CHILDREN: set<string> := {"left_arm", "right_arm", "gaze", "head", "torso"}

  function ConflictFamily(resource: string): set<string> {
    if resource == "body" then {"body"} + BODY_CHILDREN
    else if resource in BODY_CHILDREN then {resource, "body"}
    else {resource}
  }

  predicate ResourcesConflict(left: string, right: string) {
    var l, r := Strip(left), Strip(right);
    && l != "" && r != ""
    && (l == r || r in ConflictFamily(l) || l in ConflictFamily(r))
  }

  predicate SetsConflict(ls: set<string>, rs: set<string>) {
    exists l, r :: l in ls && r in rs && ResourcesConflict(l, r)
  }

  // What the arbiter of resources relies on: conflict does not depend on who asks
  // first.
  lemma ConflictIsSymmetric(left: string, right: string)
    ensures ResourcesConflict(left, right) == ResourcesConflict(right, left)
  {
  }

  // The body conflicts with itself and with each of its five parts, two different
  // parts do not conflict, and any other resource conflicts with itself alone.
  lemma ConflictMeans(left: string, right: string)
    ensures
      var l, r := Strip(left), Strip(right);
      var parts := {"left_arm", "right_arm", "gaze", "head", "torso"};
      ResourcesConflict(left, right) <==>
        l != "" && r != "" && (l == r || (l == "body" && r in parts) || (r == "body" && l in parts))
  {
  }

  // The resources of every Action of a tree.
  function Resources(reg: Registry, node: Node): set<string>
    decreases node, 1
  {
    match node
    case Action(_, skill, _, _) => if skill in reg then reg[skill].resources else {}
    case Sequence(_, children) => AllResources(reg, children)
    case Fallback(_, children) => AllResources(reg, children)
    case Parallel(_, children, _) => AllResources(reg, children)
    case Retry(_, _, child) => Resources(reg, child)
    case Timeout(_, _, child) => Resources(reg, child)
    case _ => {}
  }

  function AllResources(reg: Registry, nodes: seq<Node>): set<string>
    decreases nodes, 0
  {
    if nodes == [] then {} else Resources(reg, nodes[0]) + AllResources(reg, nodes[1..])
  }

  lemma AllResourcesOf(reg: Registry, nodes: seq<Node>, i: nat)
    requires i < |nodes|
    ensures Resources(reg, nodes[i]) <= AllResources(reg, nodes)
  {
    if i > 0 {
      AllResourcesOf(reg, nodes[1..], i - 1);
    }
  }

  predicate BranchesDisjoint(reg: Registry, branches: seq<Node>) {
    forall i, j :: 0 <= i < j < |branches| ==>
      !SetsConflict(Resources(reg, branches[i]), Resources(reg, branches[j]))
  }

  predicate LooksLikeGoalCheck(check: Check) {
    Strip(check.kind) != "" || Strip(check.predicateName) != ""
  }

  // The rules for one node, its children aside. `known` is the set of
  // checkable predicate names.
  predicate ShapeOk(reg: Registry, known: set<string>, node: Node) {
    match node
    case Action(_, skill, _, limit) =>
      && Strip(skill) != "" && skill in reg
      && (limit.Some? ==> 0.0 < limit.value <= 600.0)
    case Wait(_, duration) => 0.0 < duration <= 300.0
    case NoAction(_) => true
    case Condition(_, name, _) => Strip(name) != "" && name in known
    case GoalCheck(_, _, check) =>
      LooksLikeGoalCheck(check) && (Strip(check.predicateName) != "" ==> check.predicateName in known)
    case WaitForEvent(_, name, timeout, poll) =>
      Strip(name) != "" && name in known && 0.0 < timeout <= 1800.0 && 0.5 <= poll <= 30.0
    case VisualCheck(_, _, check) => LooksLikeGoalCheck(check) || Strip(check.query) != ""
    case Sequence(_, children) => children != []
    case Fallback(_, children) => children != []
    case Parallel(_, children, _) => children != [] && BranchesDisjoint(reg, children)
    case Retry(_, n, _) => 1 <= n <= 5
    case Timeout(_, limit, _) => 0.0 < limit <= 600.0
  }

  // A validated tree obeys the rules at every node.
  predicate Validated(reg: Registry, known: set<string>, node: Node)
    decreases node, 1
  {
    && ShapeOk(reg, known, node)
    && match node {
         case Sequence(_, children) => AllValidated(reg, known, children)
         case Fallback(_, children) => AllValidated(reg, known, children)
         case Parallel(_, children, _) => AllValidated(reg, known, children)
         case Retry(_, _, child) => Validated(reg, known, child)
         case Timeout(_, _, child) => Validated(reg, known, child)
         case _ => true
       }
  }

  predicate AllValidated(reg: Registry, known: set<string>, nodes: seq<Node>)
    decreases nodes, 0
  {
    forall i :: 0 <= i < |nodes| ==> Validated(reg, known, nodes[i])
  }

  // The rules for the goal a planner wrote.
  predicate GoalSpecOk(known: set<string>, goal: GoalSpec) {
    && goal.kind != Unsupported
    && goal.verification != map[]
    && (goal.kind == Structured ==>
          "predicate" in goal.keys && (Strip(goal.predicateName) != "" ==> goal.predicateName in known))
    && (goal.kind == Visual ==> "query" in goal.keys)
  }

  // While one branch of a validated Parallel needs the whole body, no other branch
  // needs the body or any part of it.
  lemma WholeBodyIsAlone(reg: Registry, known: set<string>, node: Node, i: nat, j: nat, resource: string)
    requires node.Parallel? && Validated(reg, known, node) && i < |node.children| && j < |node.children| && i != j
    requires "body" in Resources(reg, node.children[i]) && resource in Resources(reg, node.children[j])
    ensures Strip(resource) !in {"body", "left_arm", "right_arm", "gaze", "head", "torso"}
  {
    assert Strip("body") == "body";
    ConflictIsSymmetric("body", resource);
    if i < j {
      assert !ResourcesConflict("body", resource);
    } else {
      assert !ResourcesConflict(resource, "body");
    }
  }

  datatype Issue = BadNode(path: Path) | ResourceConflict(path: Path, left: nat, right: nat) | BadGoal

  class PlanValidator {
    const skills: Registry
    const known: set<string>
    var errors: seq<Issue>

    constructor (skills: Registry, known: set<string>)
      ensures this.skills == skills && this.known == known && errors == []
    {
      this.skills, this.known, this.errors := skills, known, [];
    }

    // _validate_node: the errors found so far only grow, and grow exactly when
    // the subtree breaks a rule.
    method ValidateNode(node: Node, path: Path)
      modifies this`errors
      ensures old(errors) <= errors
      ensures errors == old(errors) <==> Validated(skills, known, node)
      decreases node, 1
    {
      match node {
        case Parallel(_, children, _) =>
          if children == [] {
            errors := errors + [BadNode(path)];
            return;
          }
          ValidateChildren(children, path);
          ValidateParallelResourceConflicts(children, path);
        case Sequence(_, children) =>
          if children == [] {
            errors := errors + [BadNode(path)];
            return;
          }
          ValidateChildren(children, path);
        case Fallback(_, children) =>
          if children == [] {
            errors := errors + [BadNode(path)];
            return;
          }
          ValidateChildren(children, path);
        case Retry(_, n, child) =>
          if n < 1 || n > 5 {
            errors := errors + [BadNode(path)];
          }
          ValidateNode(child, path + [0]);
        case Timeout(_, limit, child) =>
          if limit <= 0.0 || limit > 600.0 {
            errors := errors + [BadNode(path)];
          }
          ValidateNode(child, path + [0]);
        case _ =>
          if !ShapeOk(skills, known, node) {
            errors := errors + [BadNode(path)];
          }
      }
    }

    // _validate_goal_spec.
    method ValidateGoalSpec(goal: GoalSpec)
      modifies this`errors
      ensures old(errors) <= errors
      ensures errors == old(errors) <==> GoalSpecOk(known, goal)
    {
      if goal.kind == Unsupported {
        errors := errors + [BadGoal];
      }
      if goal.verification == map[] {
        errors := errors + [BadGoal];
      }
      if goal.kind == Structured {
        if "predicate" !in goal.keys {
          errors := errors + [BadGoal];
        } else if Strip(goal.predicateName) != "" && goal.predicateName !in known {
          errors := errors + [BadGoal];
        }
      }
      if goal.kind == Visual && "query" !in goal.keys {
        errors := errors + [BadGoal];
      }
    }

    // validate: a plan passes exactly when its tree and its goal do.
    method Validate(root: Node, goal: GoalSpec) returns (ok: bool)
      requires errors == []
      modifies this`errors
      ensures ok <==> Validated(skills, known, root) && GoalSpecOk(known, goal)
    {
      ValidateNode(root, []);
      ValidateGoalSpec(goal);
      ok := errors == [];
    }

    method ValidateChildren(children: seq<Node>, path: Path)
      modifies this`errors
      ensures old(errors) <= errors
      ensures errors == old(errors) <==> AllValidated(skills, known, children)
      decreases children, 0
    {
      for i := 0 to |children|
        invariant old(errors) <= errors
        invariant errors == old(errors) <==> forall k :: 0 <= k < i ==> Validated(skills, known, children[k])
      {
        ValidateNode(children[i], path + [i]);
      }
    }

    method CollectActionResources(node: Node) returns (found: set<string>)
      ensures found == Resources(skills, node)
      decreases node, 1
    {
      match node {
        case Action(_, skill, _, _) => found := if skill in skills then skills[skill].resources else {};
        case Sequence(_, children) => found := CollectAll(children);
        case Fallback(_, children) => found := CollectAll(children);
        case Parallel(_, children, _) => found := CollectAll(children);
        case Retry(_, _, child) => found := CollectActionResources(child);
        case Timeout(_, _, child) => found := CollectActionResources(child);
        case _ => found := {};
      }
    }

    method CollectAll(nodes: seq<Node>) returns (found: set<string>)
      ensures found == AllResources(skills, nodes)
      decreases nodes, 0
    {
      found := {};
      for i := 0 to |nodes|
        invariant found + AllResources(skills, nodes[i..]) == AllResources(skills, nodes)
      {
        var one := CollectActionResources(nodes[i]);
        assert nodes[i..][1..] == nodes[i + 1..];
        found := found + one;
      }
    }

    // Every pair of branches is compared once.
    method ValidateParallelResourceConflicts(children: seq<Node>, path: Path)
      modifies this`errors
      ensures old(errors) <= errors
      ensures errors == old(errors) <==> BranchesDisjoint(skills, children)
      decreases children, 0
    {
      var branches: seq<set<string>> := [];
      for i := 0 to |children|
        invariant |branches| == i
        invariant forall k :: 0 <= k < i ==> branches[k] == Resources(skills, children[k])
        invariant errors == old(errors)
      {
        var one := CollectActionResources(children[i]);
        branches := branches + [one];
      }
      for i := 0 to |children|
        invariant old(errors) <= errors
        invariant errors == old(errors) <==>
          forall a, b :: 0 <= a < b < |children| && a < i ==> !SetsConflict(branches[a], branches[b])
      {
        for j := i + 1 to |children|
          invariant old(errors) <= errors
          invariant errors == old(errors) <==>
            forall a, b :: 0 <= a < b < |children| && (a < i || (a == i && b < j)) ==>
              !SetsConflict(branches[a], branches[b])
        {
          if SetsConflict(branches[i], branches[j]) {
            errors := errors + [ResourceConflict(path, i, j)];
          }
        }
      }
    }
  }
}
