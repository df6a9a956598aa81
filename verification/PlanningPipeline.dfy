// PlanningPipeline.plan, from a planner's candidate to an accepted plan, and
// what holds of every accepted plan.
module PlanningPipeline {
  import opened Common
  import opened SkillRegistry
  import opened BehaviourTree
  import opened Validator
  import opened Interleaving
  import opened ResourceExclusion
  import opened RunBudget
  import opened Goals
  import opened PolicyGuard
  import opened GoalCompiler
  import opened TreeRewrites
  import opened PlanningContext
  import opened Producers
  import opened RedundantPrefix
  import opened GateRemoval
  import opened Provenance
  import opened VisualFallback

  // Everything a plan is judged by: `asked` is the judgement of the intent's look
  // instructions by direction, `fill` the goal completion of plans that mark no
  // goal node.
  datatype Setup = Setup(
    reg: Registry, known: set<string>, rules: Rules, text: Text, ctx: Context, intent: string,
    asked: string -> bool, fill: (Node, GoalSpec) -> GoalSpec)

  datatype Plan = Plan(root: Node, goal: GoalSpec, marker: Marker)

  // The rewrites before the first check.
  function Trimmed(e: Setup, root: Node): (out: Node)
  {
    var appended := WithProducers(e.reg, e.text, e.ctx, StripStage(root), e.intent);
    PrefixStays(e.reg, e.text, e.asked, appended);
    RemoveGates(e.reg, WithoutPrefix(e.reg, e.text, e.asked, appended).value)
  }

  lemma PrefixStays(reg: Registry, t: Text, asked: string -> bool, root: Node)
    ensures WithoutPrefix(reg, t, asked, root).Some?
  {
    var _, _, _ := OnlyEarlierSiblingsGo(reg, t, asked, root);
  }

  function Grounding(e: Setup, root: Node): Attempt<Node> {
    match GuardStage(e.reg, e.text, e.ctx, e.intent, InjectStage(e.reg, e.text, e.ctx, e.intent, root))
    case Refused(_) => Refused("reference_constraint")
    case Ok(guarded) =>
      match GroundStage(e.text, e.ctx, guarded)
      case Refused(_) => Refused("grounding")
      case Ok(grounded) => Ok(grounded)
  }

  // The Fallback rewrite, which marks the goal node itself when it fires.
  function Unfolded(e: Setup, root: Node, marker: Marker): (Node, Marker) {
    match RewriteFallback(e.reg, root)
    case None => (root, marker)
    case Some(r) => (r.root, Present(Some(r.goalNodeId)))
  }

  function GoalOf(e: Setup, root: Node, goal: GoalSpec, marker: Marker): GoalSpec {
    if marker.Present? then CompiledGoal(e.reg, root, marker) else e.fill(root, goal)
  }

  ghost function Pipeline(e: Setup, p: Plan): Attempt<Plan> {
    if !Validated(e.reg, e.known, p.root) || !GoalSpecOk(e.known, p.goal) then Refused("validator") else Staged(e, p)
  }

  ghost function Staged(e: Setup, p: Plan): Attempt<Plan> {
    match Grounding(e, Trimmed(e, p.root))
    case Refused(stage) => Refused(stage)
    case Ok(grounded) => Settled(e, grounded, p.goal, p.marker)
  }

  // The end of the pipeline: the Fallback rewrite, the goal, the policy.
  ghost function Settled(e: Setup, grounded: Node, goal: GoalSpec, marker: Marker): Attempt<Plan> {
    var (root, marker') := Unfolded(e, grounded, marker);
    var goal' := GoalOf(e, root, goal, marker');
    if PolicyOk(e.reg, e.rules, root, goal', Absent) then Ok(Plan(root, goal', Absent)) else Refused("policy")
  }

  // ---- What holds of an accepted plan.

  lemma TrimmedStaysValid(e: Setup, root: Node)
    requires Validated(e.reg, e.known, root) && REMEMBER_PERSON in e.reg
    ensures Validated(e.reg, e.known, Trimmed(e, root))
  {
    EditKeepsValid(e.reg, e.known, StripArgs, root);
    AppendKeepsValid(e.reg, e.known, e.text, e.ctx, StripStage(root), e.intent);
    var appended := WithProducers(e.reg, e.text, e.ctx, StripStage(root), e.intent);
    PrefixKeepsValid(e.reg, e.known, e.text, e.asked, appended);
    RemovalKeepsValid(e.reg, e.known, WithoutPrefix(e.reg, e.text, e.asked, appended).value);
  }

  lemma GroundingStaysValid(e: Setup, root: Node)
    requires Validated(e.reg, e.known, root) && Grounding(e, root).Ok?
    ensures Validated(e.reg, e.known, Grounding(e, root).value)
  {
    var inject := (n: Node) => InjectArgs(e.reg, e.text, e.ctx, e.intent, n);
    var guard := (n: Node) => GuardArgs(e.reg, e.text, e.ctx, e.intent, n);
    var ground := (n: Node) => GroundArgs(e.text, e.ctx, n);
    EditKeepsValid(e.reg, e.known, inject, root);
    var injected := InjectStage(e.reg, e.text, e.ctx, e.intent, root);
    EditKeepsValid(e.reg, e.known, Value(guard), injected);
    var guarded := GuardStage(e.reg, e.text, e.ctx, e.intent, injected).value;
    EditKeepsValid(e.reg, e.known, Value(ground), guarded);
  }

  // The tree that runs is validated, although only the planner's own tree went
  // through the validator.
  lemma AcceptedTreeIsValid(e: Setup, p: Plan)
    requires REMEMBER_PERSON in e.reg && Pipeline(e, p).Ok?
    ensures Validated(e.reg, e.known, Pipeline(e, p).value.root)
  {
    TrimmedStaysValid(e, p.root);
    GroundingStaysValid(e, Trimmed(e, p.root));
    var grounded := Grounding(e, Trimmed(e, p.root)).value;
    if RewriteFallback(e.reg, grounded).Some? {
      RewriteKeepsValid(e.reg, e.known, grounded);
    }
  }

  lemma AcceptedTreeKeepsPolicy(e: Setup, p: Plan)
    requires Pipeline(e, p).Ok?
    ensures PolicyOk(e.reg, e.rules, Pipeline(e, p).value.root, Pipeline(e, p).value.goal, Absent)
  {
  }

  // No two leaves in progress need conflicting resources.
  ghost predicate ConflictFree(reg: Registry, root: Node, p: Proc) {
    forall x, y :: Running(p, x) > 0 && Running(p, y) > 0 && x != y ==>
      && IsLeafAt(root, x) && IsLeafAt(root, y)
      && !SetsConflict(Resources(reg, NodeAt(root, x).value), Resources(reg, NodeAt(root, y).value))
  }

  // What the static checks promise about the runs of a tree.
  ghost predicate RunsSafely(reg: Registry, rules: Rules, root: Node, ps: seq<Proc>, ms: seq<Move>) {
    && (forall n :: 0 <= n <= |ms| < |ps| ==> ConflictFree(reg, root, ps[n]))
    && Begins(AnyAction, ms) <= rules.limits.totalActions
    && Begins(PolicyGuard.Physical(reg), ms) <= rules.limits.physicalActions
    && Count(IsVisit, ms) <= rules.limits.totalNodes
    && TotalSpent(REQUESTED_WAIT(), ms) <= rules.limits.waitTotalSec
  }

  lemma NeverInConflict(reg: Registry, known: set<string>, root: Node, ps: seq<Proc>, ms: seq<Move>, n: nat)
    requires Validated(reg, known, root) && IsExecution(root, ps, ms) && n <= |ms|
    ensures ConflictFree(reg, root, ps[n])
  {
    NoConcurrentResourceConflict(reg, known, root, ps, ms, n);
  }

  lemma CheckedTreeRunsSafely(
      reg: Registry, known: set<string>, rules: Rules, root: Node, goal: GoalSpec, ps: seq<Proc>, ms: seq<Move>)
    requires Validated(reg, known, root) && PolicyOk(reg, rules, root, goal, Absent) && IsExecution(root, ps, ms)
    ensures RunsSafely(reg, rules, root, ps, ms)
  {
    BudgetsBoundEveryRun(reg, known, rules, root, goal, ps, ms);
    forall n | 0 <= n <= |ms|
      ensures ConflictFree(reg, root, ps[n])
    {
      NeverInConflict(reg, known, root, ps, ms, n);
    }
  }

  // So the static promises hold of every run of the tree that the mission gets:
  // no two Actions in progress conflict, and no run exceeds the budgets.
  lemma AcceptedPlanRunsSafely(e: Setup, p: Plan, ps: seq<Proc>, ms: seq<Move>)
    requires REMEMBER_PERSON in e.reg && Pipeline(e, p).Ok?
    requires IsExecution(Pipeline(e, p).value.root, ps, ms)
    ensures RunsSafely(e.reg, e.rules, Pipeline(e, p).value.root, ps, ms)
  {
    AcceptedTreeIsValid(e, p);
    AcceptedTreeKeepsPolicy(e, p);
    CheckedTreeRunsSafely(e.reg, e.known, e.rules, Pipeline(e, p).value.root, Pipeline(e, p).value.goal, ps, ms);
  }

  // Stripped once, the internal key never comes back.
  lemma TrimmedIsClean(e: Setup, root: Node)
    ensures AllClean(Trimmed(e, root))
  {
    AppendedIsClean(e, root);
    var appended := WithProducers(e.reg, e.text, e.ctx, StripStage(root), e.intent);
    PrefixStays(e.reg, e.text, e.asked, appended);
    ShortenedIsClean(e, appended);
    UngatedIsClean(e.reg, WithoutPrefix(e.reg, e.text, e.asked, appended).value);
  }

  lemma AppendedIsClean(e: Setup, root: Node)
    ensures AllClean(WithProducers(e.reg, e.text, e.ctx, StripStage(root), e.intent))
  {
    StripCleans(root);
    AppendingStaysClean(e.reg, e.text, e.ctx, StripStage(root), e.intent);
  }

  lemma AppendingStaysClean(reg: Registry, t: Text, ctx: Context, root: Node, intent: string)
    requires AllClean(root)
    ensures AllClean(WithProducers(reg, t, ctx, root, intent))
  {
    OldPlanIsPrefix(reg, t, ctx, root, intent);
  }

  lemma ShortenedIsClean(e: Setup, root: Node)
    requires AllClean(root) && WithoutPrefix(e.reg, e.text, e.asked, root).Some?
    ensures AllClean(WithoutPrefix(e.reg, e.text, e.asked, root).value)
  {
    var _, _, drop := OnlyEarlierSiblingsGo(e.reg, e.text, e.asked, root);
    LeftAmong(Places(root, []), drop);
    PlacesAreLeaves(root, []);
  }

  lemma UngatedIsClean(reg: Registry, root: Node)
    requires AllClean(root)
    ensures AllClean(RemoveGates(reg, root))
  {
    var after := Leaves(RemoveGates(reg, root));
    ActionsKept(reg, root);
    FilterMembers(IsAction, Leaves(root));
    FilterMembers(IsAction, after);
    forall leaf | leaf in after
      ensures NoInternalKey(leaf)
    {
      if leaf.Action? {
        assert leaf in Filter(IsAction, after);
      }
    }
  }

  function Second(places: seq<(Path, Node)>): seq<Node> {
    if places == [] then [] else [places[0].1] + Second(places[1..])
  }

  lemma {:induction false} SecondConcat(xs: seq<(Path, Node)>, ys: seq<(Path, Node)>)
    ensures Second(xs + ys) == Second(xs) + Second(ys)
  {
    if xs == [] {
      assert xs + ys == ys;
    } else {
      assert (xs + ys)[1..] == xs[1..] + ys;
      SecondConcat(xs[1..], ys);
    }
  }

  lemma {:induction false} LeftAmong(places: seq<(Path, Node)>, drop: set<Path>)
    ensures forall n :: n in Left(places, drop) ==> n in Second(places)
  {
    if places != [] {
      LeftAmong(places[1..], drop);
    }
  }

  lemma {:induction false} PlacesAreLeaves(node: Node, path: Path)
    ensures Second(Places(node, path)) == Leaves(node)
    decreases node, 1, 0
  {
    match node
    case Sequence(_, children) => PlacesFromAreLeaves(children, path, 0);
    case Fallback(_, children) => PlacesFromAreLeaves(children, path, 0);
    case Parallel(_, children, _) => PlacesFromAreLeaves(children, path, 0);
    case Retry(_, _, child) => PlacesAreLeaves(child, path + [0]);
    case Timeout(_, _, child) => PlacesAreLeaves(child, path + [0]);
    case _ =>
  }

  lemma {:induction false} PlacesFromAreLeaves(children: seq<Node>, path: Path, i: nat)
    requires i <= |children|
    ensures Second(PlacesFrom(children, path, i)) == AllLeaves(children[i..])
    ensures i == 0 ==> Second(PlacesFrom(children, path, i)) == AllLeaves(children)
    decreases children, 0, |children| - i
  {
    assert i == 0 ==> children[i..] == children;
    if i < |children| {
      assert children[i..][1..] == children[i + 1..];
      PlacesAreLeaves(children[i], path + [i]);
      PlacesFromAreLeaves(children, path, i + 1);
      SecondConcat(Places(children[i], path + [i]), PlacesFrom(children, path, i + 1));
    }
  }

  // Provenance. In an accepted plan every relation of an identity-binding Action
  // is that of a trusted constraint naming its alias, every entity id is the one
  // its target is grounded to or some grounded id, and no Action carries the
  // internal grounding key.
  lemma AcceptedPlanIsTrustworthy(e: Setup, p: Plan)
    requires Pipeline(e, p).Ok?
    ensures forall leaf :: leaf in Leaves(Pipeline(e, p).value.root) ==>
      Trustworthy(e.reg, e.text, e.ctx, e.intent, leaf)
  {
    var trimmed := Trimmed(e, p.root);
    TrimmedIsClean(e, p.root);
    StagesTrust(e.reg, e.text, e.ctx, e.intent, trimmed);
    var grounded := Grounding(e, trimmed).value;
    if RewriteFallback(e.reg, grounded).Some? {
      RewriteCopiesLeaves(e.reg, grounded);
    }
  }

  // The marker under which the goal of a plan is compiled.
  function FinalMarker(e: Setup, p: Plan): Marker
  {
    match Grounding(e, Trimmed(e, p.root))
    case Refused(_) => p.marker
    case Ok(grounded) => Unfolded(e, grounded, p.marker).1
  }

  // On the marked path the planner's own goal enters through the schema check and
  // nowhere else: two goals that pass it have the same outcome, and one that does
  // not is refused by the validator, whatever else the plan is.
  lemma PlannersGoalIsOnlyValidated(e: Setup, p: Plan, goal: GoalSpec)
    requires FinalMarker(e, p).Present?
    ensures GoalSpecOk(e.known, goal) && GoalSpecOk(e.known, p.goal) ==> Pipeline(e, p.(goal := goal)) == Pipeline(e, p)
    ensures !GoalSpecOk(e.known, goal) ==> Pipeline(e, p.(goal := goal)) == Refused("validator")
    ensures Pipeline(e, p).Ok? ==> (Pipeline(e, p.(goal := goal)) == Pipeline(e, p) <==> GoalSpecOk(e.known, goal))
  {
    var q := p.(goal := goal);
    assert Trimmed(e, q.root) == Trimmed(e, p.root);
    match Grounding(e, Trimmed(e, p.root))
    case Refused(_) =>
    case Ok(grounded) => assert Settled(e, grounded, q.goal, q.marker) == Settled(e, grounded, p.goal, p.marker);
  }

  // A plan whose root is a marked NoAction: accepted with the one goal, refused
  // with the other, although either would have been thrown away.
  function IdlePlan(goal: GoalSpec): Plan {
    Plan(NoAction("n"), goal, Present(None))
  }

  const VISIBLE_PEOPLE := GoalSpec(Structured, "visible_people", map[], map["mode" := "world_state"], {"predicate"})

  lemma IdleStaysIdle(e: Setup)
    requires e.ctx.entries == []
    ensures Trimmed(e, NoAction("n")) == NoAction("n")
  {
    var root := NoAction("n");
    assert StripStage(root) == root;
    assert MissingIn(e.reg, e.text, e.ctx, root, e.intent) == [];
    assert WithProducers(e.reg, e.text, e.ctx, root, e.intent) == root;
    assert Physicals(e.reg, root, [], None, 0) == [];
    assert WithoutPrefix(e.reg, e.text, e.asked, root) == Some(root);
    assert RemoveGates(e.reg, root) == root;
  }

  lemma IdleIsGrounded(e: Setup)
    ensures Grounding(e, NoAction("n")) == Ok(NoAction("n"))
  {
    var root := NoAction("n");
    assert InjectStage(e.reg, e.text, e.ctx, e.intent, root) == root;
    assert GuardStage(e.reg, e.text, e.ctx, e.intent, root) == Ok(root);
    assert GroundStage(e.text, e.ctx, root) == Ok(root);
  }

  lemma IdleSettles(e: Setup)
    requires e.rules.limits == DEFAULT_LIMITS
    ensures Settled(e, NoAction("n"), UNRESOLVED, Present(None)) == Ok(Plan(NoAction("n"), UNRESOLVED, Absent))
  {
    NoActionIsAllowed(e.reg, e.rules, "n", UNRESOLVED);
    assert RewriteFallback(e.reg, NoAction("n")) == None;
  }

  lemma GoalsDiffer(known: set<string>)
    requires "visible_people" !in known
    ensures GoalSpecOk(known, UNRESOLVED) && !GoalSpecOk(known, VISIBLE_PEOPLE)
  {
    assert Strip("visible_people") == "visible_people";
    assert "mode" in UNRESOLVED.verification;
  }

  lemma UnknownPredicateIsRefused(e: Setup)
    requires e.ctx.entries == [] && e.rules.limits == DEFAULT_LIMITS && "visible_people" !in e.known
    ensures Pipeline(e, IdlePlan(UNRESOLVED)) == Ok(Plan(NoAction("n"), UNRESOLVED, Absent))
    ensures Pipeline(e, IdlePlan(VISIBLE_PEOPLE)) == Refused("validator")
  {
    GoalsDiffer(e.known);
    IdleStaysIdle(e);
    IdleIsGrounded(e);
    IdleSettles(e);
  }

  // And an accepted plan that moves the robot has a structured goal for which a
  // non-voice Action of the plan, or a last observation, answers.
  lemma AcceptedGoalIsAnswerable(e: Setup, p: Plan)
    requires Pipeline(e, p).Ok? && FinalMarker(e, p).Present?
    requires AnyPhysical(e.reg, Pipeline(e, p).value.root)
    ensures
      var out := Pipeline(e, p).value;
      && out.goal.kind == Structured
      && exists leaf :: AnswersFor(e.reg, out.root, out.goal, leaf)
  {
    var out := Pipeline(e, p).value;
    AcceptedGoalIsAnswered(e.reg, e.rules, out.root, FinalMarker(e, p));
  }

  // ---- The stages as they work, one plan object passed along and rewritten.

  // The loop of the stages that edit every Action of a plan.
  method EditEveryAction(plan: GoalPlan, edit: Node -> Args)
    modifies plan`root
    ensures plan.root == EditActions(edit, old(plan.root))
  {
    var leaves := Leaves(plan.root);
    ghost var before := leaves;
    for i := 0 to |leaves|
      invariant |leaves| == |before|
      invariant forall k :: 0 <= k < i ==> leaves[k] == EditLeaf(edit, before[k])
      invariant forall k :: i <= k < |leaves| ==> leaves[k] == before[k]
    {
      if leaves[i].Action? {
        leaves := leaves[i := EditLeaf(edit, leaves[i])];
      }
    }
    assert leaves == Map(n => EditLeaf(edit, n), before);
    RefillIsEdit(edit, plan.root);
    plan.root := Refill(plan.root, leaves);
  }

  // The loop of the checking stages: the first Action that fails ends it.
  method CheckEveryAction(plan: GoalPlan, edit: Node -> Attempt<Args>) returns (error: Option<string>)
    modifies plan`root
    ensures match Checked(edit, old(plan.root))
      case Ok(root) => error == None && plan.root == root
      case Refused(reason) => error == Some(reason)
  {
    var leaves := Leaves(plan.root);
    ghost var before := leaves;
    for i := 0 to |leaves|
      invariant |leaves| == |before|
      invariant FirstRefusal(edit, before) == FirstRefusal(edit, before[i..])
      invariant forall k :: 0 <= k < i ==> leaves[k] == EditLeaf(Value(edit), before[k])
      invariant forall k :: i <= k < |leaves| ==> leaves[k] == before[k]
    {
      assert before[i..][0] == before[i] && before[i..][1..] == before[i + 1..];
      if leaves[i].Action? {
        var checked := edit(leaves[i]);
        if checked.Refused? {
          return Some(checked.reason);
        }
        leaves := leaves[i := EditLeaf(Value(edit), leaves[i])];
      }
    }
    assert leaves == Map(n => EditLeaf(Value(edit), n), before);
    RefillIsEdit(Value(edit), plan.root);
    plan.root := Refill(plan.root, leaves);
    return None;
  }

  // The aliases the plan binds already.
  method PresentAliases(reg: Registry, t: Text, leaves: seq<Node>) returns (present: set<string>)
    ensures forall alias :: alias in present <==> Bound(reg, t, leaves, alias)
  {
    present := {};
    for i := 0 to |leaves|
      invariant forall alias :: alias in present <==> Bound(reg, t, leaves[..i], alias)
    {
      var bound := BoundBy(reg, t, leaves[i]);
      assert leaves[..i + 1] == leaves[..i] + [leaves[i]];
      if bound.Some? {
        present := present + {bound.value};
      }
    }
    assert leaves[..|leaves|] == leaves;
  }

  // What the first i constraints have led to.
  ghost predicate Collected(
      e: Setup, leaves: seq<Node>, trusted: map<string, Constraint>, ids: seq<string>, i: nat,
      handled: set<string>, producers: seq<Node>)
    requires i <= |ids| && forall id :: id in ids ==> id in trusted
  {
    var chosen := Chosen(e.reg, e.text, leaves, trusted, ids[..i], e.intent);
    && producers == ProducersFor(trusted, chosen)
    && forall alias :: alias in handled <==> Handled(e.text, trusted, chosen, alias)
  }

  predicate Takes(e: Setup, c: Constraint, present: set<string>, handled: set<string>) {
    Demands(e.text, c, e.intent) && DemandedAlias(e.text, c) !in present && DemandedAlias(e.text, c) !in handled
  }

  lemma CollectedTaken(
      e: Setup, leaves: seq<Node>, trusted: map<string, Constraint>, ids: seq<string>, i: nat,
      handled: set<string>, producers: seq<Node>)
    requires i < |ids| && forall id :: id in ids ==> id in trusted
    requires Collected(e, leaves, trusted, ids, i, handled, producers)
    requires Demands(e.text, trusted[ids[i]], e.intent)
    requires !Bound(e.reg, e.text, leaves, DemandedAlias(e.text, trusted[ids[i]]))
    requires DemandedAlias(e.text, trusted[ids[i]]) !in handled
    ensures Collected(e, leaves, trusted, ids, i + 1,
                      handled + {DemandedAlias(e.text, trusted[ids[i]])}, producers + [Producer(trusted[ids[i]], ids[i])])
  {
    var chosen := Chosen(e.reg, e.text, leaves, trusted, ids[..i], e.intent);
    assert Chosen(e.reg, e.text, leaves, trusted, ids[..i + 1], e.intent) == chosen + [ids[i]] by {
      ChosenNext(e.reg, e.text, leaves, trusted, ids, e.intent, i);
      assert !Handled(e.text, trusted, chosen, DemandedAlias(e.text, trusted[ids[i]]));
    }
    HandledNext(e.text, trusted, chosen, ids[i]);
  }

  lemma CollectedPassed(
      e: Setup, leaves: seq<Node>, trusted: map<string, Constraint>, ids: seq<string>, i: nat,
      handled: set<string>, producers: seq<Node>)
    requires i < |ids| && forall id :: id in ids ==> id in trusted
    requires Collected(e, leaves, trusted, ids, i, handled, producers)
    requires Demands(e.text, trusted[ids[i]], e.intent) ==>
      Bound(e.reg, e.text, leaves, DemandedAlias(e.text, trusted[ids[i]]))
      || DemandedAlias(e.text, trusted[ids[i]]) in handled
    ensures Collected(e, leaves, trusted, ids, i + 1, handled, producers)
  {
    ChosenNext(e.reg, e.text, leaves, trusted, ids, e.intent, i);
    assert Chosen(e.reg, e.text, leaves, trusted, ids[..i + 1], e.intent)
        == Chosen(e.reg, e.text, leaves, trusted, ids[..i], e.intent);
  }

  // One producer for each demanded alias that is neither present nor handled.
  method CollectProducers(
      e: Setup, leaves: seq<Node>, trusted: map<string, Constraint>, ids: seq<string>, present: set<string>)
      returns (producers: seq<Node>)
    requires forall id :: id in ids ==> id in trusted
    requires forall alias :: alias in present <==> Bound(e.reg, e.text, leaves, alias)
    ensures producers == ProducersFor(trusted, Chosen(e.reg, e.text, leaves, trusted, ids, e.intent))
  {
    var handled: set<string> := {};
    producers := [];
    for i := 0 to |ids|
      invariant Collected(e, leaves, trusted, ids, i, handled, producers)
    {
      var c := trusted[ids[i]];
      if Takes(e, c, present, handled) {
        CollectedTaken(e, leaves, trusted, ids, i, handled, producers);
        handled := handled + {DemandedAlias(e.text, c)};
        producers := producers + [Producer(c, ids[i])];
      } else {
        CollectedPassed(e, leaves, trusted, ids, i, handled, producers);
      }
    }
    assert ids[..|ids|] == ids;
  }

  lemma ChosenNext(
      reg: Registry, t: Text, leaves: seq<Node>, trusted: map<string, Constraint>, ids: seq<string>, intent: string, i: nat)
    requires i < |ids| && forall id :: id in ids ==> id in trusted
    ensures
      var before, alias := Chosen(reg, t, leaves, trusted, ids[..i], intent), DemandedAlias(t, trusted[ids[i]]);
      Chosen(reg, t, leaves, trusted, ids[..i + 1], intent) ==
        if Demands(t, trusted[ids[i]], intent) && !Bound(reg, t, leaves, alias) && !Handled(t, trusted, before, alias)
        then before + [ids[i]] else before
  {
    assert ids[..i + 1][..i] == ids[..i];
  }

  lemma HandledNext(t: Text, trusted: map<string, Constraint>, chosen: seq<string>, id: string)
    requires id in trusted && forall c :: c in chosen ==> c in trusted
    ensures forall alias :: Handled(t, trusted, chosen + [id], alias) <==>
      Handled(t, trusted, chosen, alias) || alias == DemandedAlias(t, trusted[id])
    ensures ProducersFor(trusted, chosen + [id]) == ProducersFor(trusted, chosen) + [Producer(trusted[id], id)]
  {
    assert (chosen + [id])[..|chosen|] == chosen;
    assert id in chosen + [id];
    forall alias | Handled(t, trusted, chosen, alias)
      ensures Handled(t, trusted, chosen + [id], alias)
    {
      var other :| other in chosen && DemandedAlias(t, trusted[other]) == alias;
      assert other in chosen + [id];
    }
  }

  method AppendMissingRequiredProducers(e: Setup, plan: GoalPlan)
    modifies plan`root
    ensures plan.root == WithProducers(e.reg, e.text, e.ctx, old(plan.root), e.intent)
  {
    var leaves := Leaves(plan.root);
    var present := PresentAliases(e.reg, e.text, leaves);
    var producers := CollectProducers(e, leaves, Trusted(e.ctx.entries), TrustedIds(e.ctx.entries), present);
    assert producers == MissingIn(e.reg, e.text, e.ctx, plan.root, e.intent);
    if producers == [] {
      return;
    }
    if plan.root.Sequence? {
      plan.root := Sequence(plan.root.nodeId, plan.root.children + producers);
    } else {
      plan.root := Sequence("", [plan.root] + producers);
    }
  }

  method CanonicalizeRedundantLocatePrefix(e: Setup, plan: GoalPlan)
    modifies plan`root
    ensures WithoutPrefix(e.reg, e.text, e.asked, old(plan.root)) == Some(plan.root)
  {
    PrefixStays(e.reg, e.text, e.asked, plan.root);
    var found := FindTerminal(e.reg, e.text, e.asked, Physicals(e.reg, plan.root, [], None, 0));
    if found == None || found.value.redundant == [] {
      return;
    }
    plan.root := Without(plan.root, [], Paths(found.value.redundant)).value;
  }

  method CanonicalizeVisualCheckFallback(e: Setup, plan: GoalPlan)
    modifies plan
    ensures (plan.root, plan.marker) == Unfolded(e, old(plan.root), old(plan.marker))
    ensures plan.goalSpec == old(plan.goalSpec)
  {
    var rewrite := RewriteFallback(e.reg, plan.root);
    if rewrite.Some? {
      plan.root := rewrite.value.root;
      plan.marker := Present(Some(rewrite.value.goalNodeId));
    }
  }

  method TrimPlan(e: Setup, plan: GoalPlan)
    modifies plan`root
    ensures plan.root == Trimmed(e, old(plan.root))
  {
    EditEveryAction(plan, StripArgs);
    AppendMissingRequiredProducers(e, plan);
    CanonicalizeRedundantLocatePrefix(e, plan);
    plan.root := RemoveGates(e.reg, plan.root);
  }

  method GroundPlan(e: Setup, plan: GoalPlan) returns (stage: Option<string>)
    modifies plan`root
    ensures match Grounding(e, old(plan.root))
      case Ok(root) => stage == None && plan.root == root
      case Refused(reason) => stage == Some(reason)
  {
    EditEveryAction(plan, n => InjectArgs(e.reg, e.text, e.ctx, e.intent, n));
    var error := CheckEveryAction(plan, n => GuardArgs(e.reg, e.text, e.ctx, e.intent, n));
    if error.Some? {
      return Some("reference_constraint");
    }
    error := CheckEveryAction(plan, n => GroundArgs(e.text, e.ctx, n));
    return if error.Some? then Some("grounding") else None;
  }

  // The goal: compiled from the marked node, or else completed.
  method SettleGoal(e: Setup, plan: GoalPlan)
    modifies plan
    ensures plan.root == old(plan.root) && plan.marker == Absent
    ensures plan.goalSpec == GoalOf(e, old(plan.root), old(plan.goalSpec), old(plan.marker))
  {
    var gated := plan.CompileFromGoalNode(e.reg);
    if !gated {
      plan.goalSpec := e.fill(plan.root, plan.goalSpec);
    }
  }

  method FinishPlan(e: Setup, plan: GoalPlan) returns (r: Attempt<Plan>)
    modifies plan
    ensures r == Settled(e, old(plan.root), old(plan.goalSpec), old(plan.marker))
  {
    CanonicalizeVisualCheckFallback(e, plan);
    SettleGoal(e, plan);
    var guard := new Guard(e.reg, e.rules);
    var ok := guard.Check(plan.root, plan.goalSpec, plan.marker);
    return if ok then Ok(Plan(plan.root, plan.goalSpec, plan.marker)) else Refused("policy");
  }

  method PreparePlan(e: Setup, plan: GoalPlan) returns (stage: Option<string>)
    modifies plan`root
    ensures match Grounding(e, Trimmed(e, old(plan.root)))
      case Ok(root) => stage == None && plan.root == root
      case Refused(reason) => stage == Some(reason)
  {
    TrimPlan(e, plan);
    stage := GroundPlan(e, plan);
  }

  method RunStages(e: Setup, plan: GoalPlan) returns (r: Attempt<Plan>)
    modifies plan
    ensures r == Staged(e, Plan(old(plan.root), old(plan.goalSpec), old(plan.marker)))
  {
    var stage := PreparePlan(e, plan);
    if stage.Some? {
      return Refused(stage.value);
    }
    r := FinishPlan(e, plan);
  }

  // PlanningPipeline.plan, once the planner has answered.
  method PlanMission(e: Setup, p: Plan) returns (r: Attempt<Plan>)
    ensures r == Pipeline(e, p)
  {
    var validator := new PlanValidator(e.reg, e.known);
    var ok := validator.Validate(p.root, p.goal);
    if !ok {
      return Refused("validator");
    }
    var plan := new GoalPlan(p.root, p.goal, p.marker);
    r := RunStages(e, plan);
  }
}
