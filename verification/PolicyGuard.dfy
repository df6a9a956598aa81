// PolicyGuard: the static budgets a plan must keep, and their meaning for runs.
module PolicyGuard {
  import opened SkillRegistry
  import opened BehaviourTree
  import opened Validator
  import opened Interleaving
  import opened RunBudget
  import opened Goals

  datatype Limits = Limits(
    totalNodes: int, totalActions: int, physicalActions: int, baseActions: int, bodyActions: int,
    visualChecks: int, conditions: int, waitTotalSec: real, retryProduct: int,
    minPollSec: real, maxPollSec: real, maxEventTimeoutSec: real)

  const DEFAULT_LIMITS := Limits(32, 12, 4, 6, 3, 4, 8, 30.0, 5, 0.5, 30.0, 1800.0)

  // Leaf kinds that a budget counts.
  predicate AnyAction(n: Node) {
    n.Action?
  }

  function Physical(reg: Registry): Node -> bool {
    (n: Node) => n.Action? && IsPhysicalSkill(reg, n.skill)
  }

  function Base(reg: Registry): Node -> bool {
    (n: Node) => n.Action? && IsBaseSkill(reg, n.skill)
  }

  function Body(reg: Registry): Node -> bool {
    (n: Node) => n.Action? && IsBodySkill(reg, n.skill)
  }

  predicate AnyVisual(n: Node) {
    n.VisualCheck?
  }

  predicate AnyCondition(n: Node) {
    n.Condition? || n.WaitForEvent?
  }

  // The declared duration of every Wait, and the time a Wait really asks for.
  function DECLARED_WAIT(): Meter {
    Meter(0.0, (n: Node) => if n.Wait? then n.durationSec else 0.0, 0.0)
  }

  function REQUESTED_WAIT(): Meter {
    Meter(0.0, (n: Node) => if n.Wait? && 0.0 < n.durationSec <= 300.0 then n.durationSec else 0.0, 0.0)
  }

  // max_attempts as the walk reads it: a missing or zero count is one attempt.
  function WalkAttempts(n: int): int {
    if n == 0 then 1 else n
  }

  // The count the walk arrives at for a subtree, per unit of its multiplier.
  function WalkCount(m: Meter, node: Node): real
    decreases node, 1
  {
    match node
    case Sequence(_, children) => m.visit + WalkCounts(m, children)
    case Fallback(_, children) => m.visit + WalkCounts(m, children)
    case Parallel(_, children, _) => m.visit + WalkCounts(m, children)
    case Retry(_, n, child) => m.visit + WalkAttempts(n) as real * WalkCount(m, child)
    case Timeout(_, _, child) => m.visit + WalkCount(m, child)
    case _ => m.visit + m.begin(node)
  }

  function WalkCounts(m: Meter, nodes: seq<Node>): real
    decreases nodes, 0
  {
    if nodes == [] then 0.0 else WalkCounts(m, nodes[..|nodes| - 1]) + WalkCount(m, nodes[|nodes| - 1])
  }

  function RetryProduct(node: Node): int
    decreases node, 1
  {
    match node
    case Sequence(_, children) => RetryProducts(children)
    case Fallback(_, children) => RetryProducts(children)
    case Parallel(_, children, _) => RetryProducts(children)
    case Retry(_, n, child) => WalkAttempts(n) * RetryProduct(child)
    case Timeout(_, _, child) => RetryProduct(child)
    case _ => 1
  }

  function RetryProducts(nodes: seq<Node>): int
    decreases nodes, 0
  {
    if nodes == [] then 1 else RetryProducts(nodes[..|nodes| - 1]) * RetryProduct(nodes[|nodes| - 1])
  }

  predicate PolicySafeName(name: string) {
    && !(|name| >= 2 && name[0] == '_' && name[1] == '_')
    && '.' !in name
  }

  // A Fallback branch gated by a predicate that is never FALSE always wins.
  predicate NeverRuledOut(neverFalse: set<string>, branch: Node) {
    Contains(branch, (n: Node) => n.Condition? && n.predicateName in neverFalse)
  }

  datatype Rules = Rules(
    limits: Limits,
    neverFalse: set<string>,
    argsOk: (string, Args) -> bool)      // the per-skill argument checks

  predicate NodeSafe(reg: Registry, rules: Rules, node: Node) {
    match node
    case Action(_, skill, args, _) => skill in reg && reg[skill].available && rules.argsOk(skill, args)
    case Condition(_, name, _) => PolicySafeName(name)
    case GoalCheck(_, _, check) => PolicySafeName(check.predicateName)
    case VisualCheck(_, _, check) => PolicySafeName(check.predicateName)
    case WaitForEvent(_, name, timeout, poll) =>
      && PolicySafeName(name)
      && rules.limits.minPollSec <= poll <= rules.limits.maxPollSec
      && 0.0 < timeout <= rules.limits.maxEventTimeoutSec
    case Fallback(_, children) =>
      forall i :: 0 <= i < |children| ==> !NeverRuledOut(rules.neverFalse, children[i])
    case _ => true
  }

  function Unsafe(reg: Registry, rules: Rules): Node -> bool {
    (n: Node) => !NodeSafe(reg, rules, n)
  }

  predicate TreeSafe(reg: Registry, rules: Rules, node: Node) {
    !Contains(node, Unsafe(reg, rules))
  }

  predicate AllSafe(reg: Registry, rules: Rules, nodes: seq<Node>) {
    forall i :: 0 <= i < |nodes| ==> TreeSafe(reg, rules, nodes[i])
  }

  function Uses(skill: string): Node -> bool {
    (n: Node) => n.Action? && n.skill == skill
  }

  // The skills of the physical Actions of a tree.
  predicate HasPhysical(reg: Registry, node: Node, skill: string) {
    IsPhysicalSkill(reg, skill) && Contains(node, Uses(skill))
  }

  predicate SomeHasPhysical(reg: Registry, nodes: seq<Node>, skill: string) {
    exists i :: 0 <= i < |nodes| && HasPhysical(reg, nodes[i], skill)
  }

  ghost predicate AnyPhysical(reg: Registry, node: Node) {
    exists skill :: HasPhysical(reg, node, skill)
  }

  // A plan with a physical Action needs an explicit goal, and one that some
  // physical skill of the plan can bring about if any physical skill can.
  ghost predicate GoalAligned(reg: Registry, node: Node, goal: GoalSpec) {
    AnyPhysical(reg, node) ==>
      && !IsImplicit(goal)
      && ((goal.predicateName != ""
           && exists s :: IsPhysicalSkill(reg, s) && Produces(reg, s, goal.predicateName)) ==>
          exists s :: HasPhysical(reg, node, s) && Produces(reg, s, goal.predicateName))
  }

  predicate WithinLimits(reg: Registry, limits: Limits, node: Node) {
    && WalkCount(NODE_VISITS(), node) <= limits.totalNodes as real
    && WalkCount(LeafMeter(AnyAction), node) <= limits.totalActions as real
    && WalkCount(LeafMeter(Physical(reg)), node) <= limits.physicalActions as real
    && WalkCount(LeafMeter(Base(reg)), node) <= limits.baseActions as real
    && WalkCount(LeafMeter(Body(reg)), node) <= limits.bodyActions as real
    && WalkCount(LeafMeter(AnyVisual), node) <= limits.visualChecks as real
    && WalkCount(LeafMeter(AnyCondition), node) <= limits.conditions as real
    && WalkCount(DECLARED_WAIT(), node) <= limits.waitTotalSec
    && RetryProduct(node) <= limits.retryProduct
  }

  // What PolicyGuard.check accepts.
  ghost predicate PolicyOk(reg: Registry, rules: Rules, root: Node, goal: GoalSpec, marker: Marker) {
    && marker == Absent          // goal_node_id is no key of an accepted plan
    && TreeSafe(reg, rules, root)
    && WithinLimits(reg, rules.limits, root)
    && GoalAligned(reg, root, goal)
  }

  lemma NoActionIsAllowed(reg: Registry, rules: Rules, nodeId: string, goal: GoalSpec)
    requires rules.limits == DEFAULT_LIMITS
    ensures PolicyOk(reg, rules, NoAction(nodeId), goal, Absent)
  {
    var root := NoAction(nodeId);
    assert TreeSafe(reg, rules, root);
    assert WithinLimits(reg, DEFAULT_LIMITS, root);
    assert !AnyPhysical(reg, root);
  }

  // On validated trees the walk counts what a run can spend.
  lemma {:induction false} WalkCountIsTally(reg: Registry, known: set<string>, walk: Meter, run: Meter, node: Node)
    requires Validated(reg, known, node)
    requires walk.visit == run.visit && run.finish == 0.0
    requires forall n: Node :: n.IsLeaf() && ShapeOk(reg, known, n) ==> walk.begin(n) == run.begin(n)
    ensures WalkCount(walk, node) == Tally(run, node)
    decreases node, 2
  {
    match node
    case Sequence(_, children) =>
      assert AllValidated(reg, known, children);
      WalkCountsAreSlots(reg, known, walk, run, node, |children|);
      assert children[..|children|] == children;
    case Fallback(_, children) =>
      assert AllValidated(reg, known, children);
      WalkCountsAreSlots(reg, known, walk, run, node, |children|);
      assert children[..|children|] == children;
    case Parallel(_, children, _) =>
      assert AllValidated(reg, known, children);
      WalkCountsAreBranches(reg, known, walk, run, children, |children|);
      assert children[..|children|] == children;
    case Retry(_, n, child) =>
      WalkCountIsTally(reg, known, walk, run, child);
      RetrySlots(run, node, 0);
    case Timeout(_, _, child) =>
      WalkCountIsTally(reg, known, walk, run, child);
    case _ =>
  }

  // The walk sums from the left, the run spends from the right.
  lemma {:induction false} WalkCountsAreSlots(
      reg: Registry, known: set<string>, walk: Meter, run: Meter, node: Node, k: nat)
    requires (node.Sequence? || node.Fallback?) && AllValidated(reg, known, node.children)
    requires walk.visit == run.visit && run.finish == 0.0
    requires forall n: Node :: n.IsLeaf() && ShapeOk(reg, known, n) ==> walk.begin(n) == run.begin(n)
    requires k <= |node.children|
    ensures WalkCounts(walk, node.children[..k]) + SlotsFrom(run, node, k) == SlotsFrom(run, node, 0)
    decreases node, 1, k
  {
    if k > 0 {
      var front := node.children[..k];
      assert front[..k - 1] == node.children[..k - 1] && front[k - 1] == node.children[k - 1];
      WalkCountIsTally(reg, known, walk, run, node.children[k - 1]);
      WalkCountsAreSlots(reg, known, walk, run, node, k - 1);
    }
  }

  lemma {:induction false} WalkCountsAreBranches(
      reg: Registry, known: set<string>, walk: Meter, run: Meter, nodes: seq<Node>, k: nat)
    requires AllValidated(reg, known, nodes)
    requires walk.visit == run.visit && run.finish == 0.0
    requires forall n: Node :: n.IsLeaf() && ShapeOk(reg, known, n) ==> walk.begin(n) == run.begin(n)
    requires k <= |nodes|
    ensures WalkCounts(walk, nodes[..k]) + BranchesFrom(run, nodes, k) == BranchesFrom(run, nodes, 0)
    decreases nodes, 1, k
  {
    if k > 0 {
      var front := nodes[..k];
      assert front[..k - 1] == nodes[..k - 1] && front[k - 1] == nodes[k - 1];
      WalkCountIsTally(reg, known, walk, run, nodes[k - 1]);
      WalkCountsAreBranches(reg, known, walk, run, nodes, k - 1);
    }
  }

  lemma {:induction false} RetrySlots(m: Meter, node: Node, k: nat)
    requires node.Retry? && k <= node.Slots()
    ensures SlotsFrom(m, node, k) == (node.Slots() - k) as real * Tally(m, node.child)
    decreases node.Slots() - k
  {
    if k < node.Slots() {
      RetrySlots(m, node, k + 1);
    }
  }

  // One snapshot of the walk's counters.
  datatype Counts = Snapshot(
    nodes: int, actions: int, physical: int, base: int, body: int,
    visuals: int, conditions: int, waitSec: real, retryProduct: int, skills: set<string>)

  ghost predicate Charged(m: Meter, before: real, after: real, mult: int, node: Node) {
    after == before + mult as real * WalkCount(m, node)
  }

  ghost predicate ChargedAll(m: Meter, before: real, after: real, mult: int, nodes: seq<Node>) {
    after == before + mult as real * WalkCounts(m, nodes)
  }

  // The counters moved from a to b by the count of one subtree, times mult.
  ghost predicate Grew(reg: Registry, a: Counts, b: Counts, mult: int, node: Node) {
    && Charged(NODE_VISITS(), a.nodes as real, b.nodes as real, mult, node)
    && Charged(LeafMeter(AnyAction), a.actions as real, b.actions as real, mult, node)
    && Charged(LeafMeter(Physical(reg)), a.physical as real, b.physical as real, mult, node)
    && Charged(LeafMeter(Base(reg)), a.base as real, b.base as real, mult, node)
    && Charged(LeafMeter(Body(reg)), a.body as real, b.body as real, mult, node)
    && Charged(LeafMeter(AnyVisual), a.visuals as real, b.visuals as real, mult, node)
    && Charged(LeafMeter(AnyCondition), a.conditions as real, b.conditions as real, mult, node)
    && Charged(DECLARED_WAIT(), a.waitSec, b.waitSec, mult, node)
    && b.retryProduct == a.retryProduct * RetryProduct(node)
    && (forall s :: s in b.skills <==> s in a.skills || HasPhysical(reg, node, s))
  }

  ghost predicate GrewAll(reg: Registry, a: Counts, b: Counts, mult: int, nodes: seq<Node>) {
    && ChargedAll(NODE_VISITS(), a.nodes as real, b.nodes as real, mult, nodes)
    && ChargedAll(LeafMeter(AnyAction), a.actions as real, b.actions as real, mult, nodes)
    && ChargedAll(LeafMeter(Physical(reg)), a.physical as real, b.physical as real, mult, nodes)
    && ChargedAll(LeafMeter(Base(reg)), a.base as real, b.base as real, mult, nodes)
    && ChargedAll(LeafMeter(Body(reg)), a.body as real, b.body as real, mult, nodes)
    && ChargedAll(LeafMeter(AnyVisual), a.visuals as real, b.visuals as real, mult, nodes)
    && ChargedAll(LeafMeter(AnyCondition), a.conditions as real, b.conditions as real, mult, nodes)
    && ChargedAll(DECLARED_WAIT(), a.waitSec, b.waitSec, mult, nodes)
    && b.retryProduct == a.retryProduct * RetryProducts(nodes)
    && (forall s :: s in b.skills <==>
          s in a.skills || SomeHasPhysical(reg, nodes, s))
  }

  lemma ChargedNext(m: Meter, x: real, y: real, z: real, mult: int, nodes: seq<Node>, i: nat)
    requires i < |nodes|
    requires ChargedAll(m, x, y, mult, nodes[..i]) && Charged(m, y, z, mult, nodes[i])
    ensures ChargedAll(m, x, z, mult, nodes[..i + 1])
  {
    var front := nodes[..i + 1];
    assert front[..i] == nodes[..i] && front[i] == nodes[i];
    var k, s, t := mult as real, WalkCounts(m, nodes[..i]), WalkCount(m, nodes[i]);
    assert k * (s + t) == k * s + k * t;
  }

  lemma GrewNext(reg: Registry, a: Counts, b: Counts, c: Counts, mult: int, nodes: seq<Node>, i: nat)
    requires i < |nodes|
    requires GrewAll(reg, a, b, mult, nodes[..i]) && Grew(reg, b, c, mult, nodes[i])
    ensures GrewAll(reg, a, c, mult, nodes[..i + 1])
  {
    ChargedNext(NODE_VISITS(), a.nodes as real, b.nodes as real, c.nodes as real, mult, nodes, i);
    ChargedNext(LeafMeter(AnyAction), a.actions as real, b.actions as real, c.actions as real, mult, nodes, i);
    ChargedNext(LeafMeter(Physical(reg)), a.physical as real, b.physical as real, c.physical as real, mult, nodes, i);
    ChargedNext(LeafMeter(Base(reg)), a.base as real, b.base as real, c.base as real, mult, nodes, i);
    ChargedNext(LeafMeter(Body(reg)), a.body as real, b.body as real, c.body as real, mult, nodes, i);
    ChargedNext(LeafMeter(AnyVisual), a.visuals as real, b.visuals as real, c.visuals as real, mult, nodes, i);
    ChargedNext(LeafMeter(AnyCondition), a.conditions as real, b.conditions as real, c.conditions as real, mult, nodes, i);
    ChargedNext(DECLARED_WAIT(), a.waitSec, b.waitSec, c.waitSec, mult, nodes, i);
    ProductNext(a.retryProduct, b.retryProduct, nodes, i);
    SkillsNext(reg, a, b, c, nodes, i);
  }

  lemma ProductNext(a: int, b: int, nodes: seq<Node>, i: nat)
    requires i < |nodes| && b == a * RetryProducts(nodes[..i])
    ensures b * RetryProduct(nodes[i]) == a * RetryProducts(nodes[..i + 1])
  {
    var front := nodes[..i + 1];
    assert front[..i] == nodes[..i] && front[i] == nodes[i];
    var s, t := RetryProducts(nodes[..i]), RetryProduct(nodes[i]);
    assert (a * s) * t == a * (s * t);
  }

  lemma SkillsNext(reg: Registry, a: Counts, b: Counts, c: Counts, nodes: seq<Node>, i: nat)
    requires i < |nodes|
    requires forall s :: s in b.skills <==> s in a.skills || SomeHasPhysical(reg, nodes[..i], s)
    requires forall s :: s in c.skills <==> s in b.skills || HasPhysical(reg, nodes[i], s)
    ensures forall s :: s in c.skills <==> s in a.skills || SomeHasPhysical(reg, nodes[..i + 1], s)
  {
    forall s
      ensures SomeHasPhysical(reg, nodes[..i + 1], s) <==>
        SomeHasPhysical(reg, nodes[..i], s) || HasPhysical(reg, nodes[i], s)
    {
      assert forall j :: 0 <= j < i ==> nodes[..i][j] == nodes[..i + 1][j];
      assert nodes[..i + 1][i] == nodes[i];
    }
  }

  lemma ChargedComposite(m: Meter, x: real, y: real, mult: int, node: Node)
    requires node.Sequence? || node.Fallback? || node.Parallel?
    requires ChargedAll(m, x + mult as real * m.visit, y, mult, node.children)
    ensures Charged(m, x, y, mult, node)
  {
    var k, t := mult as real, WalkCounts(m, node.children);
    assert k * (m.visit + t) == k * m.visit + k * t;
  }

  // A composite is visited, then its children are walked.
  lemma GrewComposite(reg: Registry, a: Counts, b: Counts, mult: int, node: Node)
    requires node.Sequence? || node.Fallback? || node.Parallel?
    requires GrewAll(reg, a.(nodes := a.nodes + mult), b, mult, node.children)
    ensures Grew(reg, a, b, mult, node)
  {
    ChargedComposite(NODE_VISITS(), a.nodes as real, b.nodes as real, mult, node);
    ChargedComposite(LeafMeter(AnyAction), a.actions as real, b.actions as real, mult, node);
    ChargedComposite(LeafMeter(Physical(reg)), a.physical as real, b.physical as real, mult, node);
    ChargedComposite(LeafMeter(Base(reg)), a.base as real, b.base as real, mult, node);
    ChargedComposite(LeafMeter(Body(reg)), a.body as real, b.body as real, mult, node);
    ChargedComposite(LeafMeter(AnyVisual), a.visuals as real, b.visuals as real, mult, node);
    ChargedComposite(LeafMeter(AnyCondition), a.conditions as real, b.conditions as real, mult, node);
    ChargedComposite(DECLARED_WAIT(), a.waitSec, b.waitSec, mult, node);
    forall s
      ensures HasPhysical(reg, node, s) <==> SomeHasPhysical(reg, node.children, s)
    {
      assert Contains(node, Uses(s)) == AnyContains(node.children, Uses(s));
    }
  }

  lemma ChargedRetry(m: Meter, x: real, y: real, mult: int, node: Node)
    requires node.Retry?
    requires Charged(m, x + mult as real * m.visit, y, mult * WalkAttempts(node.maxAttempts), node.child)
    ensures Charged(m, x, y, mult, node)
  {
    var k, n, t := mult as real, WalkAttempts(node.maxAttempts) as real, WalkCount(m, node.child);
    assert (mult * WalkAttempts(node.maxAttempts)) as real == k * n;
    assert (k * n) * t == k * (n * t);
    assert k * (m.visit + n * t) == k * m.visit + k * (n * t);
  }

  lemma GrewRetry(reg: Registry, a: Counts, b: Counts, mult: int, node: Node)
    requires node.Retry?
    requires Grew(reg,
                  a.(nodes := a.nodes + mult, retryProduct := a.retryProduct * WalkAttempts(node.maxAttempts)),
                  b, mult * WalkAttempts(node.maxAttempts), node.child)
    ensures Grew(reg, a, b, mult, node)
  {
    ChargedRetry(NODE_VISITS(), a.nodes as real, b.nodes as real, mult, node);
    ChargedRetry(LeafMeter(AnyAction), a.actions as real, b.actions as real, mult, node);
    ChargedRetry(LeafMeter(Physical(reg)), a.physical as real, b.physical as real, mult, node);
    ChargedRetry(LeafMeter(Base(reg)), a.base as real, b.base as real, mult, node);
    ChargedRetry(LeafMeter(Body(reg)), a.body as real, b.body as real, mult, node);
    ChargedRetry(LeafMeter(AnyVisual), a.visuals as real, b.visuals as real, mult, node);
    ChargedRetry(LeafMeter(AnyCondition), a.conditions as real, b.conditions as real, mult, node);
    ChargedRetry(DECLARED_WAIT(), a.waitSec, b.waitSec, mult, node);
    var n, r := WalkAttempts(node.maxAttempts), RetryProduct(node.child);
    assert (a.retryProduct * n) * r == a.retryProduct * (n * r);
  }

  lemma ChargedTimeout(m: Meter, x: real, y: real, mult: int, node: Node)
    requires node.Timeout? && Charged(m, x + mult as real * m.visit, y, mult, node.child)
    ensures Charged(m, x, y, mult, node)
  {
    var k, t := mult as real, WalkCount(m, node.child);
    assert k * (m.visit + t) == k * m.visit + k * t;
  }

  lemma GrewTimeout(reg: Registry, a: Counts, b: Counts, mult: int, node: Node)
    requires node.Timeout?
    requires Grew(reg, a.(nodes := a.nodes + mult), b, mult, node.child)
    ensures Grew(reg, a, b, mult, node)
  {
    ChargedTimeout(NODE_VISITS(), a.nodes as real, b.nodes as real, mult, node);
    ChargedTimeout(LeafMeter(AnyAction), a.actions as real, b.actions as real, mult, node);
    ChargedTimeout(LeafMeter(Physical(reg)), a.physical as real, b.physical as real, mult, node);
    ChargedTimeout(LeafMeter(Base(reg)), a.base as real, b.base as real, mult, node);
    ChargedTimeout(LeafMeter(Body(reg)), a.body as real, b.body as real, mult, node);
    ChargedTimeout(LeafMeter(AnyVisual), a.visuals as real, b.visuals as real, mult, node);
    ChargedTimeout(LeafMeter(AnyCondition), a.conditions as real, b.conditions as real, mult, node);
    ChargedTimeout(DECLARED_WAIT(), a.waitSec, b.waitSec, mult, node);
  }

  lemma SafeBelow(reg: Registry, rules: Rules, node: Node)
    ensures node.IsLeaf() ==> (TreeSafe(reg, rules, node) <==> NodeSafe(reg, rules, node))
    ensures node.Sequence? || node.Fallback? || node.Parallel? ==>
      (TreeSafe(reg, rules, node) <==> NodeSafe(reg, rules, node) && AllSafe(reg, rules, node.children))
    ensures node.Retry? || node.Timeout? ==>
      (TreeSafe(reg, rules, node) <==> NodeSafe(reg, rules, node) && TreeSafe(reg, rules, node.child))
  {
    var unsafe := Unsafe(reg, rules);
    if node.Sequence? || node.Fallback? || node.Parallel? {
      assert Contains(node, unsafe) == (unsafe(node) || AnyContains(node.children, unsafe));
    }
  }

  function One(objection: bool): nat {
    if objection then 1 else 0
  }

  predicate CountsWithin(c: Counts, limits: Limits) {
    && c.nodes <= limits.totalNodes && c.actions <= limits.totalActions
    && c.physical <= limits.physicalActions && c.base <= limits.baseActions
    && c.body <= limits.bodyActions && c.visuals <= limits.visualChecks
    && c.conditions <= limits.conditions && c.waitSec <= limits.waitTotalSec
    && c.retryProduct <= limits.retryProduct
  }

  predicate SkillsAligned(reg: Registry, used: set<string>, goal: GoalSpec) {
    used != {} ==>
      && !IsImplicit(goal)
      && ((goal.predicateName != ""
           && exists s :: s in reg && IsPhysicalSkill(reg, s) && Produces(reg, s, goal.predicateName)) ==>
          exists s :: s in used && IsPhysicalSkill(reg, s) && Produces(reg, s, goal.predicateName))
  }

  lemma ExpectedSkills(reg: Registry, used: set<string>, goal: GoalSpec, expected: set<string>)
    requires used != {} && !IsImplicit(goal) && goal.predicateName != ""
    requires expected == set s | s in reg && IsPhysicalSkill(reg, s) && Produces(reg, s, goal.predicateName)
    ensures SkillsAligned(reg, used, goal) <==> (expected == {} || expected * used != {})
  {
    var p := s => IsPhysicalSkill(reg, s) && Produces(reg, s, goal.predicateName);
    assert (exists s :: s in reg && p(s)) <==> expected != {} by {
      assert forall s :: s in reg && p(s) <==> s in expected;
    }
    assert (exists s :: s in used && p(s)) <==> expected * used != {} by {
      assert forall s :: s in used && p(s) <==> s in expected * used;
    }
  }

  lemma LeafCharge(kind: Node -> bool, x: int, y: int, mult: int, leaf: Node)
    requires leaf.IsLeaf() && y == x + if kind(leaf) then mult else 0
    ensures Charged(LeafMeter(kind), x as real, y as real, mult, leaf)
  {
    var m := LeafMeter(kind);
    assert WalkCount(m, leaf) == m.visit + m.begin(leaf);
    if kind(leaf) {
      assert WalkCount(m, leaf) == 1.0;
    } else {
      assert WalkCount(m, leaf) == 0.0;
    }
  }

  // The counters after one more leaf, visited already.
  function Counted(reg: Registry, c: Counts, mult: int, leaf: Node): Counts
    requires leaf.IsLeaf()
  {
    c.(actions := c.actions + (if AnyAction(leaf) then mult else 0),
       physical := c.physical + (if Physical(reg)(leaf) then mult else 0),
       base := c.base + (if Base(reg)(leaf) then mult else 0),
       body := c.body + (if Body(reg)(leaf) then mult else 0),
       visuals := c.visuals + (if AnyVisual(leaf) then mult else 0),
       conditions := c.conditions + (if AnyCondition(leaf) then mult else 0),
       waitSec := c.waitSec + (if leaf.Wait? then leaf.durationSec * mult as real else 0.0),
       skills := c.skills + (if Physical(reg)(leaf) then {leaf.skill} else {}))
  }

  lemma GrewLeaf(reg: Registry, a: Counts, mult: int, leaf: Node)
    requires leaf.IsLeaf()
    ensures Grew(reg, a, Counted(reg, a.(nodes := a.nodes + mult), mult, leaf), mult, leaf)
  {
    var b := Counted(reg, a.(nodes := a.nodes + mult), mult, leaf);
    LeafCharge(AnyAction, a.actions, b.actions, mult, leaf);
    LeafCharge(Physical(reg), a.physical, b.physical, mult, leaf);
    LeafCharge(Base(reg), a.base, b.base, mult, leaf);
    LeafCharge(Body(reg), a.body, b.body, mult, leaf);
    LeafCharge(AnyVisual, a.visuals, b.visuals, mult, leaf);
    LeafCharge(AnyCondition, a.conditions, b.conditions, mult, leaf);
    assert forall s :: HasPhysical(reg, leaf, s) <==> IsPhysicalSkill(reg, s) && Uses(s)(leaf);
  }

  lemma CountsMeanLimits(reg: Registry, limits: Limits, a: Counts, b: Counts, root: Node)
    requires Grew(reg, a, b, 1, root)
    requires a == Snapshot(0, 0, 0, 0, 0, 0, 0, 0.0, 1, {})
    ensures CountsWithin(b, limits) <==> WithinLimits(reg, limits, root)
  {
  }

  class Stats {
    var totalNodes: int
    var totalActions: int
    var physicalActions: int
    var baseActions: int
    var bodyActions: int
    var visualChecks: int
    var conditions: int
    var waitTotalSec: real
    var retryProduct: int
    var physicalSkills: set<string>

    constructor ()
      ensures Now() == Snapshot(0, 0, 0, 0, 0, 0, 0, 0.0, 1, {})
    {
      totalNodes, totalActions, physicalActions, baseActions, bodyActions := 0, 0, 0, 0, 0;
      visualChecks, conditions, waitTotalSec, retryProduct, physicalSkills := 0, 0, 0.0, 1, {};
    }

    ghost function Now(): Counts
      reads this
    {
      Snapshot(totalNodes, totalActions, physicalActions, baseActions, bodyActions,
                    visualChecks, conditions, waitTotalSec, retryProduct, physicalSkills)
    }
  }

  class Guard {
    const skills: Registry
    const rules: Rules
    var errors: nat      // how many objections the check has raised

    constructor (skills: Registry, rules: Rules)
      ensures this.skills == skills && this.rules == rules && errors == 0
    {
      this.skills, this.rules, this.errors := skills, rules, 0;
    }

    // _walk: count a subtree under its retry multiplier and object to unsafe nodes.
    method Walk(stats: Stats, node: Node, mult: int)
      modifies stats, this`errors
      ensures Grew(skills, old(stats.Now()), stats.Now(), mult, node)
      ensures errors >= old(errors)
      ensures errors == old(errors) <==> TreeSafe(skills, rules, node)
      decreases node, 1
    {
      SafeBelow(skills, rules, node);
      ghost var before := stats.Now();
      stats.totalNodes := stats.totalNodes + mult;
      if !NodeSafe(skills, rules, node) {
        errors := errors + 1;
      }
      if node.Sequence? || node.Fallback? || node.Parallel? {
        WalkChildren(stats, node.children, mult);
        GrewComposite(skills, before, stats.Now(), mult, node);
      } else if node.Retry? {
        stats.retryProduct := stats.retryProduct * WalkAttempts(node.maxAttempts);
        Walk(stats, node.child, mult * WalkAttempts(node.maxAttempts));
        GrewRetry(skills, before, stats.Now(), mult, node);
      } else if node.Timeout? {
        Walk(stats, node.child, mult);
        GrewTimeout(skills, before, stats.Now(), mult, node);
      } else {
        CountLeaf(stats, node, mult);
        GrewLeaf(skills, before, mult, node);
      }
    }

    method WalkChildren(stats: Stats, children: seq<Node>, mult: int)
      modifies stats, this`errors
      ensures GrewAll(skills, old(stats.Now()), stats.Now(), mult, children)
      ensures errors >= old(errors)
      ensures errors == old(errors) <==> AllSafe(skills, rules, children)
      decreases children, 0
    {
      for i := 0 to |children|
        invariant GrewAll(skills, old(stats.Now()), stats.Now(), mult, children[..i])
        invariant errors >= old(errors)
        invariant errors == old(errors) <==> forall k :: 0 <= k < i ==> TreeSafe(skills, rules, children[k])
      {
        ghost var before := stats.Now();
        Walk(stats, children[i], mult);
        GrewNext(skills, old(stats.Now()), before, stats.Now(), mult, children, i);
      }
      assert children[..|children|] == children;
    }

    // The counting part of _check_action and of the other leaf branches.
    method CountLeaf(stats: Stats, leaf: Node, mult: int)
      requires leaf.IsLeaf()
      modifies stats
      ensures stats.Now() == Counted(skills, old(stats.Now()), mult, leaf)
    {
      match leaf {
        case Action(_, skill, _, _) =>
          stats.totalActions := stats.totalActions + mult;
          if IsPhysicalSkill(skills, skill) {
            stats.physicalActions := stats.physicalActions + mult;
            stats.physicalSkills := stats.physicalSkills + {skill};
          }
          if IsBaseSkill(skills, skill) {
            stats.baseActions := stats.baseActions + mult;
          }
          if IsBodySkill(skills, skill) {
            stats.bodyActions := stats.bodyActions + mult;
          }
        case Wait(_, duration) => stats.waitTotalSec := stats.waitTotalSec + duration * mult as real;
        case Condition(_, _, _) => stats.conditions := stats.conditions + mult;
        case WaitForEvent(_, _, _, _) => stats.conditions := stats.conditions + mult;
        case VisualCheck(_, _, _) => stats.visualChecks := stats.visualChecks + mult;
        case _ =>
      }
    }

    // _check_totals.
    method CheckTotals(stats: Stats)
      modifies this`errors
      ensures errors >= old(errors)
      ensures errors == old(errors) <==> CountsWithin(stats.Now(), rules.limits)
    {
      var limits := rules.limits;
      var over := One(stats.totalNodes > limits.totalNodes);
      over := over + One(stats.totalActions > limits.totalActions);
      over := over + One(stats.physicalActions > limits.physicalActions);
      over := over + One(stats.baseActions > limits.baseActions);
      over := over + One(stats.bodyActions > limits.bodyActions);
      over := over + One(stats.visualChecks > limits.visualChecks);
      over := over + One(stats.conditions > limits.conditions);
      over := over + One(stats.waitTotalSec > limits.waitTotalSec);
      over := over + One(stats.retryProduct > limits.retryProduct);
      errors := errors + over;
    }

    // _check_goal_alignment.
    method CheckGoalAlignment(stats: Stats, goal: GoalSpec)
      modifies this`errors
      ensures errors >= old(errors)
      ensures errors == old(errors) <==> SkillsAligned(skills, stats.physicalSkills, goal)
    {
      if stats.physicalSkills != {} && IsImplicit(goal) {
        errors := errors + 1;
        return;
      }
      if goal.predicateName == "" || stats.physicalSkills == {} {
        return;
      }
      var expected := set s | s in skills && IsPhysicalSkill(skills, s) && Produces(skills, s, goal.predicateName);
      if expected != {} && expected * stats.physicalSkills == {} {
        errors := errors + 1;
      }
      ExpectedSkills(skills, stats.physicalSkills, goal, expected);
    }

    // check: accepted exactly when the plan keeps the policy.
    method Check(root: Node, goal: GoalSpec, marker: Marker) returns (ok: bool)
      requires errors == 0
      modifies this`errors
      ensures ok <==> PolicyOk(skills, rules, root, goal, marker)
    {
      if marker != Absent {
        errors := errors + 1;
      }
      var stats := new Stats();
      ghost var start := stats.Now();
      Walk(stats, root, 1);
      CheckTotals(stats);
      CheckGoalAlignment(stats, goal);
      ok := errors == 0;
      CountsMeanLimits(skills, rules.limits, start, stats.Now(), root);
      assert stats.physicalSkills != {} <==> AnyPhysical(skills, root) by {
        assert forall s :: s in stats.physicalSkills <==> HasPhysical(skills, root, s);
      }
    }
  }

  // The budgets hold of every run: for any validated tree the guard accepts, any
  // outcomes, schedule, cancellation and Timeouts, one execution visits, calls
  // and waits no more than the static counts, hence stays within the limits.
  lemma BudgetsBoundEveryRun(
      reg: Registry, known: set<string>, rules: Rules, root: Node, goal: GoalSpec, ps: seq<Proc>, ms: seq<Move>)
    requires Validated(reg, known, root) && PolicyOk(reg, rules, root, goal, Absent)
    requires IsExecution(root, ps, ms)
    ensures Count(IsVisit, ms) <= rules.limits.totalNodes
    ensures Begins(AnyAction, ms) <= rules.limits.totalActions
    ensures Begins(Physical(reg), ms) <= rules.limits.physicalActions
    ensures Begins(Base(reg), ms) <= rules.limits.baseActions
    ensures Begins(Body(reg), ms) <= rules.limits.bodyActions
    ensures Begins(AnyVisual, ms) <= rules.limits.visualChecks
    ensures Begins(AnyCondition, ms) <= rules.limits.conditions
    ensures TotalSpent(REQUESTED_WAIT(), ms) <= rules.limits.waitTotalSec
  {
    RunWithinTally(NODE_VISITS(), root, ps, ms);
    SpentIsVisits(ms);
    WalkCountIsTally(reg, known, NODE_VISITS(), NODE_VISITS(), root);
    BeginsWithinWalk(reg, known, AnyAction, root, ps, ms);
    BeginsWithinWalk(reg, known, Physical(reg), root, ps, ms);
    BeginsWithinWalk(reg, known, Base(reg), root, ps, ms);
    BeginsWithinWalk(reg, known, Body(reg), root, ps, ms);
    BeginsWithinWalk(reg, known, AnyVisual, root, ps, ms);
    BeginsWithinWalk(reg, known, AnyCondition, root, ps, ms);
    RunWithinTally(REQUESTED_WAIT(), root, ps, ms);
    WalkCountIsTally(reg, known, DECLARED_WAIT(), REQUESTED_WAIT(), root);
  }

  // Under the limits the system ships with: one execution makes at most twelve
  // skill calls, four of them physical, six that move the base and three that move
  // the body, four visual checks and eight other checks and waits for events; it
  // visits at most 32 nodes and waits at most half a minute.
  lemma ShippedBudgets(
      reg: Registry, known: set<string>, rules: Rules, root: Node, goal: GoalSpec, ps: seq<Proc>, ms: seq<Move>)
    requires Validated(reg, known, root) && PolicyOk(reg, rules, root, goal, Absent)
    requires rules.limits == DEFAULT_LIMITS && IsExecution(root, ps, ms)
    ensures Begins(AnyAction, ms) <= 12 && Begins(Physical(reg), ms) <= 4 && Count(IsVisit, ms) <= 32
    ensures Begins(Base(reg), ms) <= 6 && Begins(Body(reg), ms) <= 3
    ensures Begins(AnyVisual, ms) <= 4 && Begins(AnyCondition, ms) <= 8
    ensures TotalSpent(REQUESTED_WAIT(), ms) <= 30.0
  {
    BudgetsBoundEveryRun(reg, known, rules, root, goal, ps, ms);
  }

  function Begins(kind: Node -> bool, ms: seq<Move>): nat {
    Count((l: Label) => l.Begin? && kind(l.leaf), ms)
  }

  lemma BeginsWithinWalk(
      reg: Registry, known: set<string>, kind: Node -> bool, root: Node, ps: seq<Proc>, ms: seq<Move>)
    requires Validated(reg, known, root) && IsExecution(root, ps, ms)
    ensures Begins(kind, ms) as real <= WalkCount(LeafMeter(kind), root)
  {
    RunWithinTally(LeafMeter(kind), root, ps, ms);
    SpentIsBegins(kind, ms);
    WalkCountIsTally(reg, known, LeafMeter(kind), LeafMeter(kind), root);
  }
}
