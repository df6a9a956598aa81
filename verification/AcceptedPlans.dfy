// From the planner's candidate to the accepted plan: which of its steps are still
// there, and that every person the mission names is looked for.
module AcceptedPlans {
  import opened Common
  import opened SkillRegistry
  import opened SkillTerms
  import opened BehaviourTree
  import opened TreeRewrites
  import opened PlanningContext
  import opened Provenance
  import opened Producers
  import opened GateRemoval
  import opened RedundantPrefix
  import opened PrefixRule
  import opened Attachments
  import opened ProducerRule
  import opened Goals
  import opened GoalCompiler
  import opened VisualFallback
  import opened FallbackRule
  import opened PlanningPipeline

  const WRITTEN: set<string> :=
    {"node_id", "reference_constraint_id", "relation", "entity_id", "_planning_grounding_ref"}

  // The same step, up to its node id and the arguments that the stages write.
  predicate SameStep(a: Node, b: Node) {
    if a.Action? then
      b.Action? && b.skill == a.skill && b.limitSec == a.limitSec && b.args - WRITTEN == a.args - WRITTEN
    else SameButIds(a, b)
  }

  // A step no stage may take away: no check, nothing that speaks, and no Action
  // that moves the robot unless it finds its own target.
  predicate Sturdy(reg: Registry, a: Node) {
    && !a.Condition? && !a.GoalCheck?
    && (a.Action? ==> !Speaks(reg, a.skill) && (MovesRobot(reg, a.skill) ==> FindsOwnTarget(reg, a.skill)))
  }

  // Every such step of the one list is in the other.
  ghost predicate StillThere(reg: Registry, xs: seq<Node>, ys: seq<Node>) {
    forall a :: a in xs && Sturdy(reg, a) ==> HasStep(ys, a)
  }

  ghost predicate HasStep(ys: seq<Node>, a: Node) {
    exists b :: b in ys && SameStep(a, b)
  }

  lemma Chained(reg: Registry, xs: seq<Node>, ys: seq<Node>, zs: seq<Node>)
    requires StillThere(reg, xs, ys) && StillThere(reg, ys, zs)
    ensures StillThere(reg, xs, zs)
  {
    forall a | a in xs && Sturdy(reg, a)
      ensures HasStep(zs, a)
    {
      var b :| b in ys && SameStep(a, b);
      SturdyAlike(reg, a, b);
      var c :| c in zs && SameStep(b, c);
      SameStepChains(a, b, c);
    }
  }

  lemma SturdyAlike(reg: Registry, a: Node, b: Node)
    requires SameStep(a, b)
    ensures Sturdy(reg, a) <==> Sturdy(reg, b)
  {
  }

  lemma SameStepChains(a: Node, b: Node, c: Node)
    requires SameStep(a, b) && SameStep(b, c)
    ensures SameStep(a, c)
  {
    if !a.Action? {
      BareMeans(a, b);
      BareMeans(b, c);
      BareMeans(a, c);
    }
  }

  lemma SameStepItself(a: Node)
    ensures SameStep(a, a)
  {
    BareMeans(a, a);
  }

  lemma Kept(reg: Registry, xs: seq<Node>, ys: seq<Node>)
    requires forall a :: a in xs && Sturdy(reg, a) ==> a in ys
    ensures StillThere(reg, xs, ys)
  {
    forall a | a in xs && Sturdy(reg, a)
      ensures HasStep(ys, a)
    {
      SameStepItself(a);
    }
  }

  predicate SameSteps(xs: seq<Node>, ys: seq<Node>) {
    |xs| == |ys| && forall i :: 0 <= i < |xs| ==> SameStep(xs[i], ys[i])
  }

  lemma ByIndex(reg: Registry, xs: seq<Node>, ys: seq<Node>)
    requires SameSteps(xs, ys)
    ensures StillThere(reg, xs, ys)
  {
    forall a | a in xs
      ensures HasStep(ys, a)
    {
      var i :| 0 <= i < |xs| && xs[i] == a;
      assert ys[i] in ys;
    }
  }

  // ---- Stage by stage.

  lemma StrippedSteps(root: Node)
    ensures SameSteps(Leaves(root), Leaves(StripStage(root)))
  {
    var xs, ys := Leaves(root), Leaves(StripStage(root));
    StripTakesKeyOnly(root);
    forall i | 0 <= i < |xs|
      ensures SameStep(xs[i], ys[i])
    {
      if xs[i].Action? {
        assert (xs[i].args - {"_planning_grounding_ref"}) - WRITTEN == xs[i].args - WRITTEN;
      } else {
        SameStepItself(xs[i]);
      }
    }
  }

  // In a list of nodes, one replaced by what still has its steps.
  lemma {:induction false} ReplacedAmong(reg: Registry, nodes: seq<Node>, k: nat, sub: Node)
    requires k < |nodes| && StillThere(reg, Leaves(nodes[k]), Leaves(sub))
    ensures StillThere(reg, AllLeaves(nodes), AllLeaves(nodes[k := sub]))
    decreases k
  {
    var changed := nodes[k := sub];
    if k == 0 {
      assert changed[1..] == nodes[1..];
      Kept(reg, AllLeaves(nodes[1..]), AllLeaves(nodes[1..]));
    } else {
      assert changed[1..] == nodes[1..][k - 1 := sub];
      ReplacedAmong(reg, nodes[1..], k - 1, sub);
      Kept(reg, Leaves(nodes[0]), Leaves(nodes[0]));
    }
    Joined(reg, Leaves(nodes[0]), Leaves(changed[0]), AllLeaves(nodes[1..]), AllLeaves(changed[1..]));
  }

  lemma Joined(reg: Registry, xs: seq<Node>, ys: seq<Node>, xs': seq<Node>, ys': seq<Node>)
    requires StillThere(reg, xs, ys) && StillThere(reg, xs', ys')
    ensures StillThere(reg, xs + xs', ys + ys')
  {
    forall a | a in xs + xs' && Sturdy(reg, a)
      ensures HasStep(ys + ys', a)
    {
      var b :| (b in ys || b in ys') && SameStep(a, b);
      assert b in ys + ys';
    }
  }

  lemma {:induction false} ReplacedKeeps(reg: Registry, node: Node, path: Path, sub: Node)
    requires NodeAt(node, path).Some? && StillThere(reg, Leaves(NodeAt(node, path).value), Leaves(sub))
    ensures StillThere(reg, Leaves(node), Leaves(ReplaceAt(node, path, sub)))
    decreases |path|
  {
    if path != [] {
      var child := ChildAt(node, path[0]).value;
      ReplacedKeeps(reg, child, path[1..], sub);
      if node.Sequence? || node.Fallback? || node.Parallel? {
        ReplacedAmong(reg, node.children, path[0], ReplaceAt(child, path[1..], sub));
      }
    }
  }

  lemma {:induction false} FilteredLeaves(reg: Registry, keep: Node -> bool, nodes: seq<Node>)
    requires forall n :: n in nodes && !keep(n) ==> n.Action? && !Sturdy(reg, n)
    ensures StillThere(reg, AllLeaves(nodes), AllLeaves(Filter(keep, nodes)))
  {
    if nodes != [] {
      var rest := nodes[1..];
      FilteredLeaves(reg, keep, rest);
      if keep(nodes[0]) {
        Kept(reg, Leaves(nodes[0]), Leaves(nodes[0]));
        assert ([nodes[0]] + Filter(keep, rest))[1..] == Filter(keep, rest);
        Joined(reg, Leaves(nodes[0]), Leaves(nodes[0]), AllLeaves(rest), AllLeaves(Filter(keep, rest)));
      } else {
        assert Leaves(nodes[0]) == [nodes[0]];
      assert Filter(keep, nodes) == Filter(keep, rest);
      }
    }
  }

  lemma PrefixKeeps(reg: Registry, t: Text, asked: string -> bool, root: Node)
    requires WithoutPrefix(reg, t, asked, root).Some?
    ensures StillThere(reg, Leaves(root), Leaves(WithoutPrefix(reg, t, asked, root).value))
  {
    PrefixGoesIff(reg, t, asked, root);
    if WithoutPrefix(reg, t, asked, root) == Some(root) {
      Kept(reg, Leaves(root), Leaves(root));
    } else {
      var at: Path, j: nat :| Fires(reg, t, asked, root, at, j);
      var s := NodeAt(root, at).value;
      ThinnedKeeps(reg, t, asked, root, at, s, s.children[j]);
    }
  }

  lemma ThinnedKeeps(reg: Registry, t: Text, asked: string -> bool, root: Node, at: Path, s: Node, term: Node)
    requires NodeAt(root, at) == Some(s) && s.Sequence?
    ensures
      var thinned := Sequence(s.nodeId, Filter(Stays(reg, t, asked, term), s.children));
      StillThere(reg, Leaves(root), Leaves(ReplaceAt(root, at, thinned)))
  {
    FilteredLeaves(reg, Stays(reg, t, asked, term), s.children);
    ReplacedKeeps(reg, root, at, Sequence(s.nodeId, Filter(Stays(reg, t, asked, term), s.children)));
  }

  predicate NoGate(n: Node) {
    !IsGate(n)
  }

  lemma GatesKeep(reg: Registry, root: Node)
    ensures StillThere(reg, Leaves(root), Leaves(RemoveGates(reg, root)))
  {
    OthersKept(reg, NoGate, root);
    FilterMembers(NoGate, Leaves(root));
    FilterMembers(NoGate, Leaves(RemoveGates(reg, root)));
    forall a | a in Leaves(root) && Sturdy(reg, a)
      ensures a in Leaves(RemoveGates(reg, root))
    {
      assert a in Filter(NoGate, Leaves(root));
    }
    Kept(reg, Leaves(root), Leaves(RemoveGates(reg, root)));
  }

  lemma FilledIsSameStep(a: Node, b: Node)
    requires SameButFilled(a, b)
    ensures SameStep(a, b)
  {
    if a.Action? {
      var filled := {"reference_constraint_id", "relation", "entity_id"};
      assert a.args - WRITTEN == (a.args - filled) - WRITTEN;
      assert b.args - WRITTEN == (b.args - filled) - WRITTEN;
    } else {
      SameStepItself(a);
    }
  }

  lemma GroundedSteps(e: Setup, root: Node)
    requires PlanningPipeline.Grounding(e, root).Ok?
    ensures SameSteps(Leaves(root), Leaves(PlanningPipeline.Grounding(e, root).value))
  {
    StagesKeepLeaves(e.reg, e.text, e.ctx, e.intent, root);
    var xs, ys := Leaves(root), Leaves(PlanningPipeline.Grounding(e, root).value);
    forall i | 0 <= i < |xs|
      ensures SameStep(xs[i], ys[i])
    {
      FilledIsSameStep(xs[i], ys[i]);
    }
  }

  // ---- The Fallback rewrite.

  lemma {:induction false} AlikeLeaves(reg: Registry, a: Node, b: Node)
    requires BareTree(a) == BareTree(b)
    ensures StillThere(reg, Leaves(a), Leaves(b))
    decreases a, 1
  {
    match a
    case Sequence(_, children) => AlikeAllLeaves(reg, a, children, b.children);
    case Fallback(_, children) => AlikeAllLeaves(reg, a, children, b.children);
    case Parallel(_, children, _) => AlikeAllLeaves(reg, a, children, b.children);
    case Retry(_, _, child) => AlikeLeaves(reg, child, b.child);
    case Timeout(_, _, child) => AlikeLeaves(reg, child, b.child);
    case _ =>
      BareMeans(a, b);
      AlikeStep(a, b);
      ByIndex(reg, [a], [b]);
  }

  lemma AlikeStep(a: Node, b: Node)
    requires SameButIds(a, b)
    ensures SameStep(a, b)
  {
    if a.Action? {
      ArgsButIds(a.args, b.args);
      assert a.args - WRITTEN == (a.args - {"node_id"}) - WRITTEN;
      assert b.args - WRITTEN == (b.args - {"node_id"}) - WRITTEN;
    }
  }

  lemma {:induction false} AlikeAllLeaves(reg: Registry, parent: Node, xs: seq<Node>, ys: seq<Node>)
    requires (forall i :: 0 <= i < |xs| ==> xs[i] < parent) && BareTrees(xs) == BareTrees(ys)
    ensures StillThere(reg, AllLeaves(xs), AllLeaves(ys))
    decreases parent, 0, |xs|
  {
    assert |xs| == |BareTrees(xs)| == |BareTrees(ys)| == |ys|;
    if xs != [] {
      assert BareTrees(xs)[0] == BareTree(xs[0]) && BareTrees(ys)[0] == BareTree(ys[0]);
      assert BareTrees(xs)[1..] == BareTrees(xs[1..]) && BareTrees(ys)[1..] == BareTrees(ys[1..]);
      AlikeLeaves(reg, xs[0], ys[0]);
      AlikeAllLeaves(reg, parent, xs[1..], ys[1..]);
      Joined(reg, Leaves(xs[0]), Leaves(ys[0]), AllLeaves(xs[1..]), AllLeaves(ys[1..]));
    }
  }

  lemma StepsOfLeaves(branch: Node)
    requires branch.IsLeaf() || branch.Sequence?
    ensures AllLeaves(StepsOf(branch)) == Leaves(branch)
  {
    if !branch.Sequence? {
      assert [branch][1..] == [];
    }
  }

  lemma BranchKeeps(reg: Registry, branch: Node, steps: seq<Node>)
    requires ComesDownTo(reg, branch, steps)
    ensures StillThere(reg, Leaves(branch), AllLeaves(steps))
  {
    var rest :| ReducesTo(reg, branch, rest) && AllSameButIds(rest, steps);
    StepsOfLeaves(branch);
    FilteredLeaves(reg, Silent(reg), StepsOf(branch));
    AllBareMeans(Sequence("", rest), rest, steps);
    AlikeAllLeaves(reg, Sequence("", rest), rest, steps);
    Chained(reg, Leaves(branch), AllLeaves(rest), AllLeaves(steps));
  }

  lemma {:induction false} BranchesKeep(reg: Registry, branches: seq<Node>, steps: seq<Node>)
    requires forall i :: 0 <= i < |branches| ==> ComesDownTo(reg, branches[i], steps)
    ensures StillThere(reg, AllLeaves(branches), AllLeaves(steps))
  {
    if branches != [] {
      BranchKeeps(reg, branches[0], steps);
      BranchesKeep(reg, branches[1..], steps);
    }
  }

  lemma SplicedKeeps(reg: Registry, front: seq<Node>, fallback: Node, steps: seq<Node>)
    requires fallback.Fallback? && AllComeDownTo(reg, fallback, steps)
    ensures StillThere(reg, AllLeaves(front + [fallback]), AllLeaves(front + steps))
  {
    BranchesKeep(reg, fallback.children, steps);
    Kept(reg, AllLeaves(front), AllLeaves(front));
    assert [fallback][1..] == [];
    AllLeavesConcat(front, [fallback]);
    AllLeavesConcat(front, steps);
    Joined(reg, AllLeaves(front), AllLeaves(front), AllLeaves([fallback]), AllLeaves(steps));
  }

  lemma RewriteKeeps(reg: Registry, root: Node)
    requires RewriteFallback(reg, root).Some?
    ensures StillThere(reg, Leaves(root), Leaves(RewriteFallback(reg, root).value.root))
  {
    var r := RewriteFallback(reg, root).value;
    FallbackGoesIff(reg, root);
    var steps :| GivesWay(reg, root, r.at, steps) && Gone(root, r.at, steps, r);
    GoneKeeps(reg, root, r.at, NodeAt(root, r.at).value, steps, r);
  }

  lemma GoneKeeps(reg: Registry, root: Node, at: Path, s: Node, steps: seq<Node>, r: Rewrite)
    requires NodeAt(root, at) == Some(s) && s.Sequence? && s.children != [] && s.children[|s.children| - 1].Fallback?
    requires AllComeDownTo(reg, s.children[|s.children| - 1], steps) && Gone(root, at, steps, r)
    ensures StillThere(reg, Leaves(root), Leaves(r.root))
  {
    var front, fallback := s.children[..|s.children| - 1], s.children[|s.children| - 1];
    assert s.children == front + [fallback];
    SplicedKeeps(reg, front, fallback, steps);
    ReplacedKeeps(reg, root, at, Sequence(s.nodeId, front + steps));
  }

  // ---- All stages together.

  lemma TrimmedKeeps(e: Setup, root: Node)
    ensures
      var appended := WithProducers(e.reg, e.text, e.ctx, StripStage(root), e.intent);
      && StillThere(e.reg, Leaves(root), Leaves(appended))
      && StillThere(e.reg, Leaves(appended), Leaves(Trimmed(e, root)))
  {
    var stripped := StripStage(root);
    var appended := WithProducers(e.reg, e.text, e.ctx, stripped, e.intent);
    PrefixStays(e.reg, e.text, e.asked, appended);
    var shortened := WithoutPrefix(e.reg, e.text, e.asked, appended).value;
    StrippedSteps(root);
    ByIndex(e.reg, Leaves(root), Leaves(stripped));
    OldPlanIsPrefix(e.reg, e.text, e.ctx, stripped, e.intent);
    Kept(e.reg, Leaves(stripped), Leaves(appended));
    PrefixKeeps(e.reg, e.text, e.asked, appended);
    GatesKeep(e.reg, shortened);
    Chained(e.reg, Leaves(root), Leaves(stripped), Leaves(appended));
    Chained(e.reg, Leaves(appended), Leaves(shortened), Leaves(Trimmed(e, root)));
  }

  lemma PipelineKeeps(e: Setup, p: Plan)
    requires Pipeline(e, p).Ok?
    ensures StillThere(e.reg, Leaves(Trimmed(e, p.root)), Leaves(Pipeline(e, p).value.root))
  {
    var trimmed := Trimmed(e, p.root);
    var grounded := PlanningPipeline.Grounding(e, trimmed).value;
    GroundedSteps(e, trimmed);
    ByIndex(e.reg, Leaves(trimmed), Leaves(grounded));
    if RewriteFallback(e.reg, grounded).Some? {
      RewriteKeeps(e.reg, grounded);
      Chained(e.reg, Leaves(trimmed), Leaves(grounded), Leaves(Pipeline(e, p).value.root));
    }
  }

  lemma AppendedStays(e: Setup, p: Plan)
    requires Pipeline(e, p).Ok?
    ensures
      var appended := WithProducers(e.reg, e.text, e.ctx, StripStage(p.root), e.intent);
      && StillThere(e.reg, Leaves(p.root), Leaves(appended))
      && StillThere(e.reg, Leaves(appended), Leaves(Pipeline(e, p).value.root))
  {
    TrimmedKeeps(e, p.root);
    PipelineKeeps(e, p);
    var appended := WithProducers(e.reg, e.text, e.ctx, StripStage(p.root), e.intent);
    Chained(e.reg, Leaves(appended), Leaves(Trimmed(e, p.root)), Leaves(Pipeline(e, p).value.root));
  }

  // The main result: whatever the stages rewrite, every sturdy step of the planner's
  // candidate is in the accepted plan, with all its arguments but those the stages
  // write.
  lemma AcceptedPlanKeepsSteps(e: Setup, p: Plan)
    requires Pipeline(e, p).Ok?
    ensures StillThere(e.reg, Leaves(p.root), Leaves(Pipeline(e, p).value.root))
  {
    AppendedStays(e, p);
    var appended := WithProducers(e.reg, e.text, e.ctx, StripStage(p.root), e.intent);
    Chained(e.reg, Leaves(p.root), Leaves(appended), Leaves(Pipeline(e, p).value.root));
  }

  lemma BoundAlike(reg: Registry, t: Text, a: Node, b: Node, alias: string)
    requires Binds(reg, t, a, alias) && SameStep(a, b)
    ensures Binds(reg, t, b, alias)
  {
    var x, y := a.args - WRITTEN, b.args - WRITTEN;
    forall key | key in {"alias", "name"}
      ensures Get(a.args, key) == Get(b.args, key)
    {
      assert key in x <==> key in a.args;
      assert key in y <==> key in b.args;
      assert key in x ==> x[key] == a.args[key];
      assert key in y ==> y[key] == b.args[key];
    }
    assert "alias" in {"alias", "name"} && "name" in {"alias", "name"};
  }

  predicate NoSearchSpeaks(reg: Registry) {
    forall skill :: skill in reg && FindsOwnTarget(reg, skill) ==> !Speaks(reg, skill)
  }

  // And every person whom a constraint that counts names, and for whom it holds, is
  // looked for under that alias in the accepted plan, as long as no skill that finds
  // its own target speaks.
  lemma EveryPersonIsLookedFor(e: Setup, p: Plan, id: string, c: Constraint)
    requires Pipeline(e, p).Ok? && FindsRememberedPerson(e.reg) && KeepsNames(e.text)
    requires NoSearchSpeaks(e.reg)
    requires NamesPerson(e.text, e.ctx, e.intent, id, c)
    ensures exists leaf :: leaf in Leaves(Pipeline(e, p).value.root)
              && Binds(e.reg, e.text, leaf, e.text.norm(Strip(c.bindAlias)))
  {
    var stripped := StripStage(p.root);
    EveryPersonIsBound(e.reg, e.text, e.ctx, stripped, e.intent, id, c);
    AppendedStays(e, p);
    StaysBound(e, Leaves(WithProducers(e.reg, e.text, e.ctx, stripped, e.intent)), Leaves(Pipeline(e, p).value.root),
               e.text.norm(Strip(c.bindAlias)));
  }

  lemma StaysBound(e: Setup, xs: seq<Node>, ys: seq<Node>, alias: string)
    requires StillThere(e.reg, xs, ys) && NoSearchSpeaks(e.reg)
    requires exists leaf :: leaf in xs && Binds(e.reg, e.text, leaf, alias)
    ensures exists leaf :: leaf in ys && Binds(e.reg, e.text, leaf, alias)
  {
    var leaf :| leaf in xs && Binds(e.reg, e.text, leaf, alias);
    assert Sturdy(e.reg, leaf);
    var out :| out in ys && SameStep(leaf, out);
    BoundAlike(e.reg, e.text, leaf, out, alias);
  }

  // ---- Nothing is invented.

  // Every Action of the later list comes from a step of the earlier one.
  ghost predicate NothingNew(xs: seq<Node>, ys: seq<Node>) {
    forall b :: b in ys && b.Action? ==> ComesFrom(xs, b)
  }

  ghost predicate ComesFrom(xs: seq<Node>, b: Node) {
    exists a :: a in xs && SameStep(a, b)
  }

  lemma OnlyOld(xs: seq<Node>, ys: seq<Node>)
    requires forall b :: b in ys && b.Action? ==> b in xs
    ensures NothingNew(xs, ys)
  {
    forall b | b in ys && b.Action?
      ensures ComesFrom(xs, b)
    {
      SameStepItself(b);
    }
  }

  lemma OldThroughout(xs: seq<Node>, ys: seq<Node>, zs: seq<Node>)
    requires NothingNew(xs, ys) && NothingNew(ys, zs)
    ensures NothingNew(xs, zs)
  {
    forall c | c in zs && c.Action?
      ensures ComesFrom(xs, c)
    {
      var b :| b in ys && SameStep(b, c);
      var a :| a in xs && SameStep(a, b);
      SameStepChains(a, b, c);
    }
  }

  lemma OldByIndex(xs: seq<Node>, ys: seq<Node>)
    requires SameSteps(xs, ys)
    ensures NothingNew(xs, ys)
  {
    forall b | b in ys
      ensures ComesFrom(xs, b)
    {
      var i :| 0 <= i < |ys| && ys[i] == b;
      assert xs[i] in xs;
    }
  }

  lemma ShortenedIsOld(reg: Registry, t: Text, asked: string -> bool, root: Node)
    requires WithoutPrefix(reg, t, asked, root).Some?
    ensures NothingNew(Leaves(root), Leaves(WithoutPrefix(reg, t, asked, root).value))
  {
    var _, _, drop := OnlyEarlierSiblingsGo(reg, t, asked, root);
    LeftAmong(Places(root, []), drop);
    PlacesAreLeaves(root, []);
    OnlyOld(Leaves(root), Leaves(WithoutPrefix(reg, t, asked, root).value));
  }

  lemma UngatedIsOld(reg: Registry, root: Node)
    ensures NothingNew(Leaves(root), Leaves(RemoveGates(reg, root)))
  {
    ActionsKept(reg, root);
    FilterMembers(IsAction, Leaves(root));
    FilterMembers(IsAction, Leaves(RemoveGates(reg, root)));
    forall b | b in Leaves(RemoveGates(reg, root)) && b.Action?
      ensures b in Leaves(root)
    {
      assert b in Filter(IsAction, Leaves(RemoveGates(reg, root)));
    }
    OnlyOld(Leaves(root), Leaves(RemoveGates(reg, root)));
  }

  lemma TrimmedIsOld(e: Setup, root: Node)
    ensures NothingNew(Leaves(WithProducers(e.reg, e.text, e.ctx, StripStage(root), e.intent)), Leaves(Trimmed(e, root)))
  {
    var appended := WithProducers(e.reg, e.text, e.ctx, StripStage(root), e.intent);
    PrefixStays(e.reg, e.text, e.asked, appended);
    var shortened := WithoutPrefix(e.reg, e.text, e.asked, appended).value;
    ShortenedIsOld(e.reg, e.text, e.asked, appended);
    UngatedIsOld(e.reg, shortened);
    OldThroughout(Leaves(appended), Leaves(shortened), Leaves(Trimmed(e, root)));
  }

  lemma AcceptedIsOld(e: Setup, p: Plan)
    requires Pipeline(e, p).Ok?
    ensures NothingNew(Leaves(Trimmed(e, p.root)), Leaves(Pipeline(e, p).value.root))
  {
    var trimmed := Trimmed(e, p.root);
    var grounded := PlanningPipeline.Grounding(e, trimmed).value;
    GroundedSteps(e, trimmed);
    OldByIndex(Leaves(trimmed), Leaves(grounded));
    if RewriteFallback(e.reg, grounded).Some? {
      RewriteCopiesLeaves(e.reg, grounded);
      OnlyOld(Leaves(grounded), Leaves(Pipeline(e, p).value.root));
      OldThroughout(Leaves(trimmed), Leaves(grounded), Leaves(Pipeline(e, p).value.root));
    }
  }

  ghost predicate ProducedFor(e: Setup, root: Node, b: Node) {
    exists a :: SameStep(a, b) && CalledFor(e.reg, e.text, e.ctx, e.intent, root, a)
  }

  // Every Action of an accepted plan is one of the candidate's, or a producer that a
  // constraint calls for, up to the arguments that the stages write.
  lemma AcceptedPlanAddsOnlyProducers(e: Setup, p: Plan, b: Node)
    requires Pipeline(e, p).Ok? && b in Leaves(Pipeline(e, p).value.root) && b.Action?
    ensures
      ComesFrom(Leaves(p.root), b) || ProducedFor(e, StripStage(p.root), b)
  {
    var stripped := StripStage(p.root);
    var appended := WithProducers(e.reg, e.text, e.ctx, stripped, e.intent);
    TrimmedIsOld(e, p.root);
    AcceptedIsOld(e, p);
    OldThroughout(Leaves(appended), Leaves(Trimmed(e, p.root)), Leaves(Pipeline(e, p).value.root));
    OriginOf(e, p.root, b);
  }

  lemma OriginOf(e: Setup, root: Node, b: Node)
    requires b.Action? && ComesFrom(Leaves(WithProducers(e.reg, e.text, e.ctx, StripStage(root), e.intent)), b)
    ensures ComesFrom(Leaves(root), b) || ProducedFor(e, StripStage(root), b)
  {
    var stripped := StripStage(root);
    OldPlanIsPrefix(e.reg, e.text, e.ctx, stripped, e.intent);
    var producers := MissingIn(e.reg, e.text, e.ctx, stripped, e.intent);
    var a :| a in Leaves(stripped) + producers && SameStep(a, b);
    if a in Leaves(stripped) {
      StrippedOrigin(root, a, b);
    } else {
      ProducerOrigin(e, stripped, producers, a, b);
    }
  }

  lemma StrippedOrigin(root: Node, a: Node, b: Node)
    requires a in Leaves(StripStage(root)) && a.Action? && SameStep(a, b)
    ensures ComesFrom(Leaves(root), b)
  {
    StrippedSteps(root);
    OldByIndex(Leaves(root), Leaves(StripStage(root)));
    assert ComesFrom(Leaves(root), a);
    var c :| c in Leaves(root) && SameStep(c, a);
    SameStepChains(c, a, b);
  }

  lemma ProducerOrigin(e: Setup, root: Node, producers: seq<Node>, a: Node, b: Node)
    requires producers == MissingIn(e.reg, e.text, e.ctx, root, e.intent) && a in producers && SameStep(a, b)
    ensures ProducedFor(e, root, b)
  {
    OnlyCalledForAppended(e.reg, e.text, e.ctx, root, e.intent);
  }

  // ---- What is settled.

  // No search is left that the plan's terminal repeats, and no gate that a later
  // Action of its Sequence brings in by itself; taking the gates out takes no Action.
  lemma TrimmedIsSettled(e: Setup, root: Node) returns (shortened: Node)
    ensures forall at: Path, j: nat :: !Fires(e.reg, e.text, e.asked, shortened, at, j)
    ensures Filter(IsAction, Leaves(Trimmed(e, root))) == Filter(IsAction, Leaves(shortened))
    ensures GateRemoval.Settled(e.reg, Trimmed(e, root))
    ensures Trimmed(e, root) == RemoveGates(e.reg, shortened)
  {
    var appended := WithProducers(e.reg, e.text, e.ctx, StripStage(root), e.intent);
    PrefixStays(e.reg, e.text, e.asked, appended);
    shortened := WithoutPrefix(e.reg, e.text, e.asked, appended).value;
    PrefixRemovalIsIdempotent(e.reg, e.text, e.asked, appended);
    PrefixGoesIff(e.reg, e.text, e.asked, shortened);
    ActionsKept(e.reg, shortened);
    RemovalSettles(e.reg, shortened);
  }

  // ---- The constraint of every Action.

  // The Action names a constraint that may be used for it, and has its relation.
  ghost predicate HasConstraint(e: Setup, leaf: Node) {
    leaf.Action? && exists c :: MayUse(e.text, e.ctx, e.intent, leaf, c)
                         && Get(leaf.args, "relation") == e.text.lower(Strip(c.relation))
  }

  // An Action that finds its own target, under an alias that just one constraint
  // speaks of.
  ghost predicate HasAliasConstrained(e: Setup, leaf: Node) {
    && Locates(e.reg, leaf) && AliasOf(leaf.args) != "" && e.text.norm(AliasOf(leaf.args)) != ""
    && exists id :: OnlyOneSpeaksOf(e.text, e.ctx, e.intent, e.text.norm(AliasOf(leaf.args)), id)
  }

  predicate SameKeys(a: Node, b: Node, keys: set<string>)
    requires a.Action? && b.Action?
  {
    forall key :: key in keys ==> Get(a.args, key) == Get(b.args, key)
  }

  lemma FilledKeepsAlias(a: Node, b: Node)
    requires SameButFilled(a, b) && a.Action?
    ensures SameKeys(a, b, {"alias", "name"}) && AliasOf(a.args) == AliasOf(b.args)
  {
    var filled := {"reference_constraint_id", "relation", "entity_id"};
    var x, y := a.args - filled, b.args - filled;
    forall key | key in {"alias", "name"}
      ensures Get(a.args, key) == Get(b.args, key)
    {
      assert key in x <==> key in a.args;
      assert key in y <==> key in b.args;
      assert key in x ==> x[key] == a.args[key];
      assert key in y ==> y[key] == b.args[key];
    }
    assert "alias" in {"alias", "name"} && "name" in {"alias", "name"};
  }

  // The Action is given its constraint, unless it names one already.
  lemma ConstraintAttached(e: Setup, a: Node, b: Node)
    requires Attached(e.reg, e.text, e.ctx, e.intent, a, b) && !Offends(e.reg, e.text, e.ctx, e.intent, b)
    requires HasAliasConstrained(e, a)
    ensures b.Action? && exists c :: MayUse(e.text, e.ctx, e.intent, b, c)
    ensures Strip(Get(b.args, "reference_constraint_id")) != ""
  {
    assert a.args != map[] && b.args != map[];
    if Strip(Get(a.args, "reference_constraint_id")) == "" && Strip(Get(a.args, "relation")) == "" {
      assert WantsConstraint(e.reg, e.text, a);
      var id :| OnlyOneSpeaksOf(e.text, e.ctx, e.intent, e.text.norm(AliasOf(a.args)), id)
             && b == With(a, a.args["reference_constraint_id" := id]);
      var c :| Trusts(e.ctx, id, c);
      StripTwice(c.constraintId);
      assert Strip(id) != "";
    }
  }

  // What is written beside the constraint leaves its use alone.
  lemma UseKept(e: Setup, a: Node, key: string, value: string, c: Constraint)
    requires a.Action? && MayUse(e.text, e.ctx, e.intent, a, c) && (key == "relation" || key == "entity_id")
    ensures MayUse(e.text, e.ctx, e.intent, With(a, a.args[key := value]), c)
    ensures key == "entity_id" ==> Get(With(a, a.args[key := value]).args, "relation") == Get(a.args, "relation")
  {
    var args := a.args[key := value];
    assert Get(args, "reference_constraint_id") == Get(a.args, "reference_constraint_id");
    assert Get(args, "alias") == Get(a.args, "alias") && Get(args, "name") == Get(a.args, "name");
  }

  lemma RelationKept(e: Setup, c: Node, d: Node)
    requires HasConstraint(e, c) && Grounded(e.text, e.ctx, c, d)
    ensures HasConstraint(e, d)
  {
    var used :| MayUse(e.text, e.ctx, e.intent, c, used) && Get(c.args, "relation") == e.text.lower(Strip(used.relation));
    if d != c {
      var g :| GroundedTo(e.text, e.ctx, c, g) && d == With(c, c.args["entity_id" := g.entityId]);
      UseKept(e, c, "entity_id", g.entityId, used);
    }
  }

  lemma ConstraintKept(e: Setup, b: Node, c: Node, d: Node)
    requires b.Action? && Locates(e.reg, b) && Strip(Get(b.args, "reference_constraint_id")) != ""
    requires Related(e.reg, e.text, e.ctx, e.intent, b, c) && Grounded(e.text, e.ctx, c, d)
    ensures HasConstraint(e, d)
  {
    var used :| MayUse(e.text, e.ctx, e.intent, b, used)
             && c == With(b, b.args["relation" := e.text.lower(Strip(used.relation))]);
    UseKept(e, b, "relation", e.text.lower(Strip(used.relation)), used);
    assert HasConstraint(e, c);
    RelationKept(e, c, d);
  }

  lemma LeafIsRelated(e: Setup, a: Node, b: Node, c: Node, d: Node)
    requires Attached(e.reg, e.text, e.ctx, e.intent, a, b) && !Offends(e.reg, e.text, e.ctx, e.intent, b)
    requires Related(e.reg, e.text, e.ctx, e.intent, b, c) && Grounded(e.text, e.ctx, c, d)
    ensures HasAliasConstrained(e, d) ==> HasConstraint(e, d)
  {
    if HasAliasConstrained(e, d) {
      SameThroughStages(e.reg, e.text, e.ctx, e.intent, a, b, c, d);
      FilledKeepsAlias(a, d);
      ConstraintAttached(e, a, b);
      ConstraintKept(e, b, c, d);
    }
  }

  lemma GroundedIsRelated(e: Setup, root: Node)
    requires PlanningPipeline.Grounding(e, root).Ok?
    ensures forall d :: d in Leaves(PlanningPipeline.Grounding(e, root).value) && HasAliasConstrained(e, d) ==> HasConstraint(e, d)
  {
    var injected := InjectStage(e.reg, e.text, e.ctx, e.intent, root);
    var guarded := GuardStage(e.reg, e.text, e.ctx, e.intent, injected).value;
    var grounded := PlanningPipeline.Grounding(e, root).value;
    InjectionAttaches(e.reg, e.text, e.ctx, e.intent, root);
    GuardRelates(e.reg, e.text, e.ctx, e.intent, injected);
    GroundingFills(e.text, e.ctx, guarded);
    forall i | 0 <= i < |Leaves(grounded)|
      ensures HasAliasConstrained(e, Leaves(grounded)[i]) ==> HasConstraint(e, Leaves(grounded)[i])
    {
      LeafIsRelated(e, Leaves(root)[i], Leaves(injected)[i], Leaves(guarded)[i], Leaves(grounded)[i]);
    }
  }

  lemma LeafWasGrounded(e: Setup, p: Plan, leaf: Node)
    requires Pipeline(e, p).Ok? && leaf in Leaves(Pipeline(e, p).value.root)
    ensures PlanningPipeline.Grounding(e, Trimmed(e, p.root)).Ok?
    ensures leaf in Leaves(PlanningPipeline.Grounding(e, Trimmed(e, p.root)).value)
  {
    var grounded := PlanningPipeline.Grounding(e, Trimmed(e, p.root)).value;
    if RewriteFallback(e.reg, grounded).Some? {
      RewriteCopiesLeaves(e.reg, grounded);
    }
  }

  // In an accepted plan every Action that finds its own target, under an alias that
  // just one constraint speaks of, names a constraint that may be used for it and has
  // its relation.
  lemma AcceptedPlanIsRelated(e: Setup, p: Plan, leaf: Node)
    requires Pipeline(e, p).Ok? && leaf in Leaves(Pipeline(e, p).value.root) && HasAliasConstrained(e, leaf)
    ensures HasConstraint(e, leaf)
  {
    LeafWasGrounded(e, p, leaf);
    GroundedIsRelated(e, Trimmed(e, p.root));
  }

  // ---- The entity of every Action.

  // The target of the Action names an alias that is grounded to a live entity.
  ghost predicate Knows(e: Setup, leaf: Node, g: PlanningContext.Grounding) {
    leaf.Action? && GroundedTo(e.text, e.ctx, leaf, g) && g.state == "RESOLVED" && g.entityId != ""
  }

  predicate CarriesId(leaf: Node, g: PlanningContext.Grounding) {
    leaf.Action? && (Get(leaf.args, "entity_id") == g.entityId || Strip(Get(leaf.args, "entity_id")) == g.entityId)
  }

  lemma LeafIsIdentified(e: Setup, c: Node, d: Node, g: PlanningContext.Grounding)
    requires Grounded(e.text, e.ctx, c, d) && (CarriesEntity(c) ==> BorneOut(e.text, e.ctx, c))
    requires Knows(e, d, g)
    ensures CarriesId(d, g)
  {
    if d != c {
      var h :| GroundedTo(e.text, e.ctx, c, h) && d == With(c, c.args["entity_id" := h.entityId]);
      assert Get(d.args, "target") == Get(c.args, "target");
    }
  }

  lemma GroundedIsIdentified(e: Setup, guarded: Node, leaf: Node, g: PlanningContext.Grounding)
    requires GroundStage(e.text, e.ctx, guarded).Ok? && leaf in Leaves(GroundStage(e.text, e.ctx, guarded).value)
    requires Knows(e, leaf, g)
    ensures CarriesId(leaf, g)
  {
    GroundingFills(e.text, e.ctx, guarded);
    var out := Leaves(GroundStage(e.text, e.ctx, guarded).value);
    var i :| 0 <= i < |out| && out[i] == leaf;
    LeafIsIdentified(e, Leaves(guarded)[i], leaf, g);
  }

  // In an accepted plan every Action whose target names an alias grounded to a live
  // entity carries that entity's id.
  lemma AcceptedPlanIsIdentified(e: Setup, p: Plan, leaf: Node, g: PlanningContext.Grounding)
    requires Pipeline(e, p).Ok? && leaf in Leaves(Pipeline(e, p).value.root) && Knows(e, leaf, g)
    ensures CarriesId(leaf, g)
  {
    LeafWasGrounded(e, p, leaf);
    var injected := InjectStage(e.reg, e.text, e.ctx, e.intent, Trimmed(e, p.root));
    GroundedIsIdentified(e, GuardStage(e.reg, e.text, e.ctx, e.intent, injected).value, leaf, g);
  }

  // ---- The goal.

  // The plan and the mark that the goal is compiled from: those of the last shared
  // step if a Fallback gives way, else what was there.
  ghost predicate GoalRead(reg: Registry, grounded: Node, marker: Marker, root: Node, marker': Marker) {
    && (forall at: Path, steps: seq<Node> :: GivesWay(reg, grounded, at, steps) ==>
          steps != [] && marker' == Present(Some(steps[|steps| - 1].nodeId)))
    && ((forall at: Path, steps: seq<Node> :: !GivesWay(reg, grounded, at, steps)) ==> root == grounded && marker' == marker)
  }

  lemma LastStepIsGoal(reg: Registry, grounded: Node, at: Path, steps: seq<Node>)
    requires GivesWay(reg, grounded, at, steps)
    ensures steps != [] && RewriteFallback(reg, grounded).Some?
    ensures RewriteFallback(reg, grounded).value.goalNodeId == steps[|steps| - 1].nodeId
  {
    GivesWayToFirst(reg, grounded, at, steps);
    RewriteIs(reg, grounded, at, NodeAt(grounded, at).value.children, steps);
  }

  lemma RewriteIs(reg: Registry, grounded: Node, at: Path, children: seq<Node>, steps: seq<Node>)
    requires FindShape(grounded) == Some(at) && NodeAt(grounded, at).Some? && NodeAt(grounded, at).value.Sequence?
    requires NodeAt(grounded, at).value.children == children && children != [] && children[|children| - 1].Fallback?
    requires SharedSteps(reg, children[|children| - 1]) == Some(steps) && steps != []
    ensures RewriteFallback(reg, grounded).Some?
    ensures RewriteFallback(reg, grounded).value.goalNodeId == steps[|steps| - 1].nodeId
  {
    ShapeFound(grounded);
  }

  lemma UnfoldedIsRead(e: Setup, grounded: Node, marker: Marker)
    ensures GoalRead(e.reg, grounded, marker, Unfolded(e, grounded, marker).0, Unfolded(e, grounded, marker).1)
  {
    forall at: Path, steps: seq<Node> | GivesWay(e.reg, grounded, at, steps)
      ensures steps != [] && Unfolded(e, grounded, marker).1 == Present(Some(steps[|steps| - 1].nodeId))
    {
      LastStepIsGoal(e.reg, grounded, at, steps);
    }
    if RewriteFallback(e.reg, grounded).Some? {
      FallbackGoesIff(e.reg, grounded);
    }
  }

  // The goal of an accepted plan is compiled from its mark, the last shared step's if
  // a Fallback gave way and else the planner's; a plan that marks nothing has its goal
  // completed.
  lemma GoalFollowsRewrite(e: Setup, p: Plan) returns (grounded: Node, marker: Marker)
    requires Pipeline(e, p).Ok?
    ensures PlanningPipeline.Grounding(e, Trimmed(e, p.root)) == Ok(grounded)
    ensures GoalRead(e.reg, grounded, p.marker, Pipeline(e, p).value.root, marker)
    ensures Pipeline(e, p).value.goal ==
      if marker.Present? then CompiledGoal(e.reg, Pipeline(e, p).value.root, marker)
      else e.fill(Pipeline(e, p).value.root, p.goal)
  {
    grounded := PlanningPipeline.Grounding(e, Trimmed(e, p.root)).value;
    marker := Unfolded(e, grounded, p.marker).1;
    UnfoldedIsRead(e, grounded, p.marker);
  }
}
