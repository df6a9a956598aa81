// From the marked node to the mission's verdict: a successful execution of a
// Fallback-free tree really succeeded at every leaf, and an observation that
// stands for the goal is found by the final check.
module GoalClosure {
  import opened Common
  import opened SkillRegistry
  import opened BehaviourTree
  import opened Interleaving
  import opened ResourceExclusion
  import opened Goals
  import opened GoalCompiler
  import opened GoalCheck

  // The last visit of the leaf at x succeeded.
  predicate LastOk(ms: seq<Move>, x: Path) {
    if ms == [] then false
    else
      var l := ms[|ms| - 1].act;
      if l.Finish? && l.path == x then l.res.success else LastOk(ms[..|ms| - 1], x)
  }

  ghost predicate AllOk(node: Node, base: Path, ms: seq<Move>) {
    forall x :: IsLeafAt(node, x) ==> LastOk(ms, base + x)
  }

  // What a thread at node has already settled for good.
  ghost predicate Settled(node: Node, base: Path, p: Proc, ms: seq<Move>)
    decreases p
  {
    match p
    case Ready(_, _, _) => true
    case Busy(_, _, _) => true
    case Done(res, _) => res.success ==> AllOk(node, base, ms)
    case Frame(_, _, _, index, _, cur) =>
      && node.IsStepwise() && index < node.Slots()
      && (node.Sequence? ==> forall k :: 0 <= k < index ==> AllOk(node.children[k], base + [k], ms))
      && Settled(node.Slot(index), SlotPath(node, base, index), cur, ms)
    case Fork(_, _, _, _, kids) =>
      && node.Parallel? && |kids| == |node.children|
      && forall i :: 0 <= i < |kids| ==> Settled(node.children[i], base + [i], kids[i], ms)
    case Guarded(_, _, _, cur) => node.Timeout? && Settled(node.child, base + [0], cur, ms)
  }

  predicate Elsewhere(base: Path, l: Label) {
    l.Finish? ==> !Under(base, l.path)
  }

  lemma AllOkKept(node: Node, base: Path, ms: seq<Move>, m: Move)
    requires AllOk(node, base, ms) && Elsewhere(base, m.act)
    ensures AllOk(node, base, ms + [m])
  {
    assert (ms + [m])[..|ms|] == ms;
    forall x | IsLeafAt(node, x)
      ensures LastOk(ms + [m], base + x)
    {
      assert LastOk(ms, base + x);
      assert Under(base, base + x);
    }
  }

  // A move that finishes no leaf below base settles nothing there.
  lemma {:induction false} SettledKept(node: Node, base: Path, p: Proc, ms: seq<Move>, m: Move)
    requires Settled(node, base, p, ms) && Elsewhere(base, m.act)
    ensures Settled(node, base, p, ms + [m])
    decreases p
  {
    match p
    case Ready(_, _, _) =>
    case Busy(_, _, _) =>
    case Done(res, _) =>
      if res.success {
        AllOkKept(node, base, ms, m);
      }
    case Frame(_, _, _, index, _, cur) =>
      SettledKept(node.Slot(index), SlotPath(node, base, index), cur, ms, m);
      if node.Sequence? {
        forall k | 0 <= k < index
          ensures AllOk(node.children[k], base + [k], ms + [m])
        {
          AllOkKept(node.children[k], base + [k], ms, m);
        }
      }
    case Fork(_, _, _, _, kids) =>
      forall i | 0 <= i < |kids|
        ensures Settled(node.children[i], base + [i], kids[i], ms + [m])
      {
        SettledKept(node.children[i], base + [i], kids[i], ms, m);
      }
    case Guarded(_, _, _, cur) => SettledKept(node.child, base + [0], cur, ms, m);
  }

  // A thread only finishes leaves of its own subtree.
  lemma FinishesWithin(node: Node, base: Path, canceled: bool, p: Proc, l: Label, q: Proc)
    requires Fits(node, base, p) && Step(canceled, p, l, q) && l.Finish?
    ensures Under(base, l.path)
  {
    RunningLaw(canceled, p, l, q, l.path);
    FitsExclusive(node, base, p);
    RunningOne(p, l.path);
  }

  lemma FallbackFreeBelow(node: Node)
    requires FallbackFree(node)
    ensures !node.Fallback?
    ensures forall k: nat :: ChildAt(node, k).Some? ==> FallbackFree(ChildAt(node, k).value)
    ensures node.IsStepwise() ==> forall k :: 0 <= k < node.Slots() ==> FallbackFree(node.Slot(k))
    ensures node.Sequence? || node.Parallel? ==>
      forall k :: 0 <= k < |node.children| ==> FallbackFree(node.children[k])
    ensures node.Timeout? ==> FallbackFree(node.child)
  {
    var p := (n: Node) => n.Fallback?;
    if node.Sequence? || node.Parallel? {
      assert !AnyContains(node.children, p);
    }
  }

  lemma {:induction false} StepSettles(node: Node, base: Path, canceled: bool, p: Proc, m: Move, q: Proc, ms: seq<Move>)
    requires FallbackFree(node) && Fits(node, base, p) && Settled(node, base, p, ms)
    requires Step(canceled, p, m.act, q)
    ensures Settled(node, base, q, ms + [m])
    decreases p, 1
  {
    FallbackFreeBelow(node);
    match p
    case Ready(_, _, _) => StartSettles(node, base, canceled, p, m, q, ms);
    case Busy(leaf, path, _) =>
      assert (ms + [m])[|ms|] == m;
      assert base + [] == base;
    case Done(_, left) =>
      var _ := WhichSteps(true, left, m.act, q.left);
    case Frame(_, _, _, index, _, cur) =>
      LoneFrame(canceled, p, m.act, q);
      if cur.Done? && Resume(canceled, p, m.act, q) {
        ResumeSettles(node, base, canceled, p, m, q, ms);
      } else {
        FrameSettles(node, base, canceled, p, m, q, ms);
      }
    case Fork(_, _, _, _, kids) =>
      assert ForkStep(canceled, p, m.act, q);
      if q.Fork? {
        ForkSettles(node, base, canceled, p, m, q, ms);
      } else {
        JoinSettles(node, base, p, m, q, ms);
      }
    case Guarded(_, _, _, cur) =>
      if q.Guarded? {
        StepSettles(node.child, base + [0], canceled, cur, m, q.cur, ms);
      } else if !m.act.Fire? {
        SettledKept(node.child, base + [0], cur, ms, m);
        if q.res.success {
          ChildOkLifts(node, 0, node.child, base, ms + [m]);
        }
      }
  }

  lemma StartSettles(node: Node, base: Path, canceled: bool, p: Proc, m: Move, q: Proc, ms: seq<Move>)
    requires FallbackFree(node) && p.Ready? && p == Ready(node, base, p.bb) && Start(canceled, node, base, p.bb, m.act, q)
    ensures Settled(node, base, q, ms + [m])
  {
    FallbackFreeBelow(node);
    if q.Done? && q.res.success {
      assert node.Sequence? && node.children == [];
    }
  }

  // The leaves of a Retry or Timeout are those of its child.
  lemma ChildOkLifts(node: Node, k: nat, child: Node, base: Path, ms: seq<Move>)
    requires node.Retry? || node.Timeout?
    requires k == 0 && child == node.child && AllOk(child, base + [k], ms)
    ensures AllOk(node, base, ms)
  {
    forall x | IsLeafAt(node, x)
      ensures LastOk(ms, base + x)
    {
      assert x[0] == 0 && IsLeafAt(child, x[1..]);
      assert LastOk(ms, (base + [k]) + x[1..]);
      assert (base + [k]) + x[1..] == base + x;
    }
  }

  lemma ChildrenOkLift(node: Node, base: Path, ms: seq<Move>)
    requires node.Sequence? || node.Parallel?
    requires forall k :: 0 <= k < |node.children| ==> AllOk(node.children[k], base + [k], ms)
    ensures AllOk(node, base, ms)
  {
    forall x | IsLeafAt(node, x)
      ensures LastOk(ms, base + x)
    {
      assert x[0] < |node.children| && IsLeafAt(node.children[x[0]], x[1..]);
      assert LastOk(ms, (base + [x[0]]) + x[1..]);
      assert (base + [x[0]]) + x[1..] == base + x;
    }
  }

  lemma {:induction false} FrameSettles(node: Node, base: Path, canceled: bool, p: Proc, m: Move, q: Proc, ms: seq<Move>)
    requires FallbackFree(node) && p.Frame? && Fits(node, base, p) && Settled(node, base, p, ms)
    requires q.Frame? && q == Frame(p.node, p.path, p.facts, p.index, [], q.cur)
    requires Step(canceled, p.cur, m.act, q.cur)
    ensures Settled(node, base, q, ms + [m])
    decreases p, 0
  {
    FallbackFreeBelow(node);
    var at := SlotPath(node, base, p.index);
    StepSettles(node.Slot(p.index), at, canceled, p.cur, m, q.cur, ms);
    if node.Sequence? {
      forall k | 0 <= k < p.index
        ensures AllOk(node.children[k], base + [k], ms + [m])
      {
        if m.act.Finish? {
          FinishesWithin(node.Slot(p.index), at, canceled, p.cur, m.act, q.cur);
          assert m.act.path[|base|] == p.index;
        }
        AllOkKept(node.children[k], base + [k], ms, m);
      }
    }
  }

  lemma ResumeSettles(node: Node, base: Path, canceled: bool, p: Proc, m: Move, q: Proc, ms: seq<Move>)
    requires FallbackFree(node) && p.Frame? && Fits(node, base, p) && Settled(node, base, p, ms)
    requires p.cur.Done? && Resume(canceled, p, m.act, q)
    ensures Settled(node, base, q, ms + [m])
  {
    FallbackFreeBelow(node);
    SettledKept(node.Slot(p.index), SlotPath(node, base, p.index), p.cur, ms, m);
    if node.Sequence? {
      forall k | 0 <= k < p.index
        ensures AllOk(node.children[k], base + [k], ms + [m])
      {
        AllOkKept(node.children[k], base + [k], ms, m);
      }
      if q.Done? && q.res.success {
        ChildrenOkLift(node, base, ms + [m]);
      }
    } else if q.Done? && q.res.success {
      ChildOkLifts(node, 0, node.child, base, ms + [m]);
    }
  }

  lemma {:induction false} ForkSettles(node: Node, base: Path, canceled: bool, p: Proc, m: Move, q: Proc, ms: seq<Move>)
    requires FallbackFree(node) && p.Fork? && Fits(node, base, p) && Settled(node, base, p, ms)
    requires q.Fork? && ForkStep(canceled, p, m.act, q)
    ensures Settled(node, base, q, ms + [m])
    decreases p, 0
  {
    FallbackFreeBelow(node);
    var flag := canceled || p.canceled;
    var i := WhichSteps(flag, p.kids, m.act, q.kids);
    StepSettles(node.children[i], base + [i], flag, p.kids[i], m, q.kids[i], ms);
    forall k | 0 <= k < |p.kids| && k != i
      ensures Settled(node.children[k], base + [k], q.kids[k], ms + [m])
    {
      if m.act.Finish? {
        FinishesWithin(node.children[i], base + [i], flag, p.kids[i], m.act, q.kids[i]);
        assert m.act.path[|base|] == i;
      }
      SettledKept(node.children[k], base + [k], p.kids[k], ms, m);
    }
  }

  lemma JoinSettles(node: Node, base: Path, p: Proc, m: Move, q: Proc, ms: seq<Move>)
    requires p.Fork? && Fits(node, base, p) && Settled(node, base, p, ms)
    requires AllDone(p.kids) && q == Done(Merge(p.bb, Results(p.kids)), LeftBehind(p.kids)) && !m.act.Finish?
    ensures Settled(node, base, q, ms + [m])
  {
    if q.res.success {
      var rs := Results(p.kids);
      assert forall i :: 0 <= i < |p.kids| ==> rs[i] == p.kids[i].res && Fits(node.children[i], base + [i], p.kids[i]);
      MergeFlags(p.bb, rs);
      forall k | 0 <= k < |node.children|
        ensures AllOk(node.children[k], base + [k], ms + [m])
      {
        assert rs[k].success && Settled(node.children[k], base + [k], p.kids[k], ms);
        AllOkKept(node.children[k], base + [k], ms, m);
      }
      ChildrenOkLift(node, base, ms + [m]);
    }
  }

  lemma {:induction false} RunSettles(root: Node, ps: seq<Proc>, ms: seq<Move>)
    requires FallbackFree(root) && IsExecution(root, ps, ms)
    ensures Fits(root, [], ps[|ms|]) && Settled(root, [], ps[|ms|], ms)
    decreases |ms|
  {
    if |ms| > 0 {
      var n := |ms| - 1;
      RunLast(false, ps, ms);
      RunSettles(root, ps[..n + 1], ms[..n]);
      StepKeepsFit(ms[n].canceled, root, [], ps[n], ms[n].act, ps[n + 1]);
      StepSettles(root, [], ms[n].canceled, ps[n], ms[n], ps[n + 1], ms[..n]);
      assert ms[..n] + [ms[n]] == ms;
    }
  }

  // A successful execution of a Fallback-free tree visited every leaf, and each
  // leaf's last visit succeeded.
  lemma SuccessVisitsEveryLeaf(root: Node, ps: seq<Proc>, ms: seq<Move>, x: Path)
    requires FallbackFree(root) && IsExecution(root, ps, ms)
    requires ps[|ms|].Done? && ps[|ms|].res.success
    requires IsLeafAt(root, x)
    ensures LastOk(ms, x)
  {
    RunSettles(root, ps, ms);
    assert LastOk(ms, [] + x);
    assert [] + x == x;
  }

  // ---- The observation on the blackboard.

  // The entry under the observation key, if any, is one that `ok` vouches for.
  predicate Clean(ok: Fact -> bool, facts: Facts) {
    VISUAL_RESULT in facts ==> ok(facts[VISUAL_RESULT])
  }

  predicate Observes(node: Node) {
    Contains(node, IsObserver)
  }

  // Leaves write only vouched-for entries, and skills leave the key alone.
  predicate Honest(ok: Fact -> bool, l: Label) {
    l.Finish? ==>
      && (l.leaf.Action? ==> VISUAL_RESULT !in l.res.facts)
      && (IsObserver(l.leaf) && l.res.success && VISUAL_RESULT in l.res.facts ==> ok(l.res.facts[VISUAL_RESULT]))
  }

  predicate Recorded(ok: Fact -> bool, node: Node, p: Proc)
    decreases p
  {
    match p
    case Ready(n, _, bb) => n == node && Clean(ok, bb)
    case Busy(leaf, _, bb) => leaf == node && leaf.IsLeaf() && Clean(ok, bb)
    case Done(res, _) =>
      && Clean(ok, res.facts)
      && Coherent(res)
      && (res.success && Observes(node) ==> VISUAL_RESULT in res.facts)
    case Frame(n, _, facts, index, _, cur) =>
      && n == node && node.IsStepwise() && index < node.Slots()
      && Clean(ok, facts)
      && (node.Sequence? ==>
            forall k :: 0 <= k < index && Observes(node.children[k]) ==> VISUAL_RESULT in facts)
      && Recorded(ok, node.Slot(index), cur)
    case Fork(n, _, bb, _, kids) =>
      && n == node && node.Parallel? && |kids| == |node.children|
      && Clean(ok, bb)
      && forall i :: 0 <= i < |kids| ==> Recorded(ok, node.children[i], kids[i])
    case Guarded(n, _, bb, cur) => n == node && node.Timeout? && Clean(ok, bb) && Recorded(ok, node.child, cur)
  }

  lemma {:induction false} MergeKeepsClean(ok: Fact -> bool, bb: Facts, rs: seq<ExecutionResult>)
    requires Clean(ok, bb) && forall i :: 0 <= i < |rs| ==> Clean(ok, rs[i].facts)
    ensures Clean(ok, Merge(bb, rs).facts)
    ensures (exists i :: 0 <= i < |rs| && VISUAL_RESULT in rs[i].facts) ==> VISUAL_RESULT in Merge(bb, rs).facts
  {
    if rs != [] {
      var n := |rs| - 1;
      MergeKeepsClean(ok, bb, rs[..n]);
      assert forall i :: 0 <= i < n ==> rs[..n][i] == rs[i];
    }
  }

  lemma ObservesBelow(node: Node)
    ensures node.Sequence? || node.Fallback? || node.Parallel? ==>
      (Observes(node) <==> exists k :: 0 <= k < |node.children| && Observes(node.children[k]))
    ensures node.Retry? || node.Timeout? ==> (Observes(node) <==> Observes(node.child))
    ensures node.IsLeaf() ==> (Observes(node) <==> IsObserver(node))
  {
    if node.Sequence? || node.Fallback? || node.Parallel? {
      assert Contains(node, IsObserver) == AnyContains(node.children, IsObserver);
    }
  }

  lemma {:induction false} StepRecords(ok: Fact -> bool, node: Node, canceled: bool, p: Proc, l: Label, q: Proc)
    requires FallbackFree(node) && Recorded(ok, node, p) && Honest(ok, l)
    requires Step(canceled, p, l, q)
    ensures Recorded(ok, node, q)
    decreases p
  {
    FallbackFreeBelow(node);
    match p
    case Ready(_, _, bb) => StartRecords(ok, node, canceled, p, l, q);
    case Busy(_, _, _) => FinishRecords(ok, node, canceled, p, l, q);
    case Done(_, _) =>
    case Frame(_, _, facts, index, left, cur) =>
      assert FrameStep(canceled, p, l, q);
      if cur.Done? && Resume(canceled, p, l, q) {
        ResumeRecords(ok, node, canceled, p, l, q);
      } else if q.left == left && Step(canceled, cur, l, q.cur) {
        StepRecords(ok, node.Slot(index), canceled, cur, l, q.cur);
      }
    case Fork(_, _, bb, _, kids) =>
      assert ForkStep(canceled, p, l, q);
      if q.Fork? {
        var i := WhichSteps(canceled || p.canceled, kids, l, q.kids);
        StepRecords(ok, node.children[i], canceled || p.canceled, kids[i], l, q.kids[i]);
      } else {
        JoinRecords(ok, node, p, q);
      }
    case Guarded(_, _, _, cur) =>
      if q.Guarded? {
        StepRecords(ok, node.child, canceled, cur, l, q.cur);
      }
  }

  lemma FinishRecords(ok: Fact -> bool, node: Node, canceled: bool, p: Proc, l: Label, q: Proc)
    requires p.Busy? && Recorded(ok, node, p) && Honest(ok, l) && Step(canceled, p, l, q)
    ensures Recorded(ok, node, q)
  {
    ObservesBelow(node);
    LeafOutcomeCoherent(p.leaf, p.bb, l.res);
  }

  lemma StartRecords(ok: Fact -> bool, node: Node, canceled: bool, p: Proc, l: Label, q: Proc)
    requires p.Ready? && Recorded(ok, node, p) && Start(canceled, node, p.path, p.bb, l, q)
    ensures Recorded(ok, node, q)
  {
    ObservesBelow(node);
  }

  lemma ResumeRecords(ok: Fact -> bool, node: Node, canceled: bool, p: Proc, l: Label, q: Proc)
    requires FallbackFree(node) && p.Frame? && Recorded(ok, node, p)
    requires p.cur.Done? && Resume(canceled, p, l, q)
    ensures Recorded(ok, node, q)
  {
    FallbackFreeBelow(node);
    ObservesBelow(node);
  }

  lemma JoinRecords(ok: Fact -> bool, node: Node, p: Proc, q: Proc)
    requires p.Fork? && Recorded(ok, node, p)
    requires AllDone(p.kids) && q == Done(Merge(p.bb, Results(p.kids)), LeftBehind(p.kids))
    ensures Recorded(ok, node, q)
  {
    ObservesBelow(node);
    var rs := Results(p.kids);
    assert forall i :: 0 <= i < |p.kids| ==> rs[i] == p.kids[i].res && Recorded(ok, node.children[i], p.kids[i]);
    MergeFlags(p.bb, rs);
    MergeKeepsClean(ok, p.bb, rs);
  }

  lemma {:induction false} RunRecords(ok: Fact -> bool, root: Node, ps: seq<Proc>, ms: seq<Move>)
    requires FallbackFree(root) && IsExecution(root, ps, ms)
    requires forall i :: 0 <= i < |ms| ==> Honest(ok, ms[i].act)
    ensures Recorded(ok, root, ps[|ms|])
    decreases |ms|
  {
    if |ms| > 0 {
      var n := |ms| - 1;
      RunLast(false, ps, ms);
      assert forall i :: 0 <= i < n ==> ms[..n][i] == ms[i];
      RunRecords(ok, root, ps[..n + 1], ms[..n]);
      StepRecords(ok, root, ms[n].canceled, ps[n], ms[n].act, ps[n + 1]);
    }
  }

  // Skills never write the observation key.
  predicate SkillsKeepOff(ms: seq<Move>) {
    forall i :: 0 <= i < |ms| && ms[i].act.Finish? && ms[i].act.leaf.Action? ==>
      VISUAL_RESULT !in ms[i].act.res.facts
  }

  // Some observer of the run answered with this value.
  predicate Answered(ms: seq<Move>, f: Fact) {
    exists i :: 0 <= i < |ms| && ms[i].act.Finish? && IsObserver(ms[i].act.leaf) && ms[i].act.res.success
      && VISUAL_RESULT in ms[i].act.res.facts && ms[i].act.res.facts[VISUAL_RESULT] == f
  }

  lemma {:induction false} LabelsAreOutcomes(canceled: bool, p: Proc, l: Label, q: Proc)
    requires Step(canceled, p, l, q) && l.Finish?
    ensures exists bb :: LeafOutcome(l.leaf, bb, l.res)
    decreases p
  {
    match p
    case Ready(_, _, _) =>
    case Busy(_, _, bb) =>
    case Done(_, left) =>
      var i := WhichSteps(true, left, l, q.left);
      LabelsAreOutcomes(true, left[i], l, q.left[i]);
    case Frame(_, _, _, _, left, cur) =>
      assert FrameStep(canceled, p, l, q);
      if q.left == left && Step(canceled, cur, l, q.cur) {
        LabelsAreOutcomes(canceled, cur, l, q.cur);
      } else {
        var i := WhichSteps(true, left, l, q.left);
        LabelsAreOutcomes(true, left[i], l, q.left[i]);
      }
    case Fork(_, _, _, _, kids) =>
      assert ForkStep(canceled, p, l, q);
      var i := WhichSteps(canceled || p.canceled, kids, l, q.kids);
      LabelsAreOutcomes(canceled || p.canceled, kids[i], l, q.kids[i]);
    case Guarded(_, _, _, cur) => LabelsAreOutcomes(canceled, cur, l, q.cur);
  }

  // After a successful execution of a Fallback-free tree with an observe-mode
  // VisualCheck, the blackboard holds a completed observation that some such
  // node of this very run answered.
  lemma ObservationIsRecorded(root: Node, ps: seq<Proc>, ms: seq<Move>)
    requires FallbackFree(root) && Observes(root) && IsExecution(root, ps, ms) && SkillsKeepOff(ms)
    requires ps[|ms|].Done? && ps[|ms|].res.success
    ensures VISUAL_RESULT in ps[|ms|].res.facts
    ensures ps[|ms|].res.facts[VISUAL_RESULT].Observation? && ps[|ms|].res.facts[VISUAL_RESULT].completed
    ensures Answered(ms, ps[|ms|].res.facts[VISUAL_RESULT])
  {
    var ok := (f: Fact) => f.Observation? && f.completed && Answered(ms, f);
    forall i | 0 <= i < |ms|
      ensures Honest(ok, ms[i].act)
    {
      var l := ms[i].act;
      if l.Finish? && IsObserver(l.leaf) && l.res.success {
        LabelsAreOutcomes(ms[i].canceled, ps[i], l, ps[i + 1]);
        var bb :| LeafOutcome(l.leaf, bb, l.res);
        assert Answered(ms, l.res.facts[VISUAL_RESULT]);
      }
    }
    RunRecords(ok, root, ps, ms);
  }

  // The closure. The goal compiled from an observe-mode VisualCheck of a
  // Fallback-free plan: if the execution succeeds, the marked node itself
  // succeeded on its last visit, the final check is TRUE whichever way the
  // observation went, and the outcome reports an answer of this run.
  lemma ObservedGoalIsMet(
      reg: Registry, w: Witness, root: Node, nodeId: string, ps: seq<Proc>, ms: seq<Move>, x: Path)
    requires FallbackFree(root) && IsExecution(root, ps, ms) && SkillsKeepOff(ms)
    requires ps[|ms|].Done? && ps[|ms|].res.success
    requires nodeId != "" && FindByNodeId(root, nodeId).Some?
    requires IsObserver(FindByNodeId(root, nodeId).value)
    requires CompiledGoal(reg, root, Present(Some(nodeId))) != UNRESOLVED
    requires NodeAt(root, x) == FindByNodeId(root, nodeId)
    ensures LastOk(ms, x)
    ensures CheckGoal(w, CompiledGoal(reg, root, Present(Some(nodeId))), ps[|ms|].res) == TrueState
    ensures VISUAL_RESULT in BoundedResultFacts(ps[|ms|].res.facts)
    ensures Answered(ms, BoundedResultFacts(ps[|ms|].res.facts)[VISUAL_RESULT])
  {
    SuccessVisitsEveryLeaf(root, ps, ms, x);
    FoundIsInTree(root, nodeId);
    LeavesAreContained(root, IsObserver);
    ObservationIsRecorded(root, ps, ms);
  }

  // The same for any other marked leaf: it really succeeded.
  lemma MarkedLeafSucceeded(root: Node, nodeId: string, ps: seq<Proc>, ms: seq<Move>) returns (x: Path)
    requires FallbackFree(root) && IsExecution(root, ps, ms)
    requires ps[|ms|].Done? && ps[|ms|].res.success
    requires FindByNodeId(root, nodeId).Some? && FindByNodeId(root, nodeId).value.IsLeaf()
    ensures NodeAt(root, x) == FindByNodeId(root, nodeId) && LastOk(ms, x)
  {
    FoundIsInTree(root, nodeId);
    x := ListedIsLeaf(root, FindByNodeId(root, nodeId).value);
    SuccessVisitsEveryLeaf(root, ps, ms, x);
  }
}
