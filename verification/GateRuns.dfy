// Gate removal on the runs of the threads. Every run of the plan in which the
// dropped gates answer TRUE is a run of the rewritten plan, and every run of the
// rewritten plan is such a run of the plan: same leaves, same results, whatever
// the interleaving, the cancellations and the Timeouts that fire.
module GateRuns {
  import opened Common
  import opened SkillRegistry
  import opened BehaviourTree
  import opened Interleaving
  import opened GateRemoval

  // ---- What an observer sees of a run.

  // The occurrence is a gate that the rewrite drops.
  predicate GateAt(reg: Registry, root: Node, path: Path) {
    path != []
    && var parent := NodeAt(root, path[..|path| - 1]);
       parent.Some? && AtGate(reg, parent.value, path[|path| - 1])
  }

  predicate AtGate(reg: Registry, node: Node, k: nat) {
    node.Sequence? && k < |node.children| && Dropped(reg, node.children, k)
  }

  // Which node is where, and which occurrences are gates to drop.
  datatype Chart = Chart(node: Path -> Option<Node>, gate: Path -> bool)

  function ChartOf(reg: Registry, root: Node): Chart {
    Chart(path => NodeAt(root, path), path => GateAt(reg, root, path))
  }

  // What a chart says below an occurrence follows from the node there.
  ghost predicate Consistent(reg: Registry, chart: Chart) {
    forall path, k: nat :: chart.node(path).Some? ==>
      && chart.node(path + [k]) == ChildAt(chart.node(path).value, k)
      && (chart.gate(path + [k]) <==> AtGate(reg, chart.node(path).value, k))
  }

  lemma ChartIsConsistent(reg: Registry, root: Node)
    ensures Consistent(reg, ChartOf(reg, root))
  {
    var chart := ChartOf(reg, root);
    forall path, k: nat | chart.node(path).Some?
      ensures chart.node(path + [k]) == ChildAt(chart.node(path).value, k)
      ensures chart.gate(path + [k]) <==> AtGate(reg, chart.node(path).value, k)
    {
      NodeAtExtends(root, path, k);
      assert (path + [k])[..|path + [k]| - 1] == path;
    }
  }

  datatype Sight = Began(leaf: Node, bb: Facts) | Ended(leaf: Node, res: ExecutionResult)

  // Leaves as they begin and end, with the blackboard they see and the result
  // they return.
  function SightOf(l: Label): seq<Sight> {
    match l
    case Begin(_, leaf, bb) => [Began(leaf, bb)]
    case Finish(_, leaf, res) => [Ended(leaf, res)]
    case _ => []
  }

  // The same, the gates aside that the rewrite drops.
  function KeptSight(chart: Chart, l: Label): seq<Sight> {
    if (l.Begin? || l.Finish?) && chart.gate(l.path) then [] else SightOf(l)
  }

  function Gather(see: Label -> seq<Sight>, ms: seq<Move>): seq<Sight> {
    if ms == [] then [] else Gather(see, ms[..|ms| - 1]) + see(ms[|ms| - 1].act)
  }

  lemma {:induction false} GatherConcat(see: Label -> seq<Sight>, ms: seq<Move>, ns: seq<Move>)
    ensures Gather(see, ms + ns) == Gather(see, ms) + Gather(see, ns)
    decreases |ns|
  {
    if ns == [] {
      assert ms + ns == ms;
    } else {
      var n := |ns| - 1;
      assert (ms + ns)[..|ms| + n] == ms + ns[..n];
      GatherConcat(see, ms, ns[..n]);
    }
  }

  function Sights(ms: seq<Move>): seq<Sight> {
    Gather(SightOf, ms)
  }

  function Keeping(chart: Chart): Label -> seq<Sight> {
    l => KeptSight(chart, l)
  }

  function KeptSights(chart: Chart, ms: seq<Move>): seq<Sight> {
    Gather(Keeping(chart), ms)
  }

  // A dropped gate that answers, answers TRUE.
  predicate GateTrue(chart: Chart, l: Label) {
    l.Finish? && chart.gate(l.path) ==> l.res.success
  }

  predicate GatesTrue(chart: Chart, ms: seq<Move>) {
    forall i :: 0 <= i < |ms| ==> GateTrue(chart, ms[i].act)
  }

  // ---- The rewritten node.

  function NewIndex(reg: Registry, node: Node, k: nat): nat
    requires node.IsStepwise() && k <= node.Slots()
  {
    if node.Sequence? then KeptBefore(reg, node.children, k) else k
  }

  lemma SlotMoves(reg: Registry, node: Node, k: nat)
    requires node.IsStepwise() && k < node.Slots()
    ensures
      var node', k' := RemoveGates(reg, node), NewIndex(reg, node, k);
      && node'.IsStepwise() && k' < node'.Slots()
      && (!AtGate(reg, node, k) ==>
            node'.Slot(k') == RemoveGates(reg, node.Slot(k)) && (k + 1 < node.Slots() <==> k' + 1 < node'.Slots()))
      && (AtGate(reg, node, k) ==> k + 1 < node.Slots())
  {
    if node.Sequence? {
      KeptMoves(reg, node.children, k);
    }
  }

  lemma KeptMoves(reg: Registry, children: seq<Node>, k: nat)
    requires k < |children|
    ensures
      var kept, k' := KeptFrom(reg, children, 0), KeptBefore(reg, children, k);
      && k' < |kept|
      && (!Dropped(reg, children, k) ==>
            kept[k'] == RemoveGates(reg, children[k]) && (k + 1 < |children| <==> k' + 1 < |kept|))
      && (Dropped(reg, children, k) ==> k + 1 < |children|)
  {
    KeptSplits(reg, children, k);
    LastStays(reg, children, k);
    if !Dropped(reg, children, k) {
      KeptAt(reg, children, k);
      KeptSplits(reg, children, k + 1);
      if k + 1 < |children| {
        LastStays(reg, children, k + 1);
      }
    }
  }

  lemma SameShape(reg: Registry, node: Node)
    ensures
      var node' := RemoveGates(reg, node);
      && node'.IsLeaf() == node.IsLeaf() && node'.IsStepwise() == node.IsStepwise()
      && (node.IsLeaf() ==> node' == node)
      && (node.IsStepwise() ==>
            && (node'.Slots() == 0 <==> node.Slots() == 0)
            && node'.Sequence? == node.Sequence? && node'.Retry? == node.Retry?
            && forall bb :: EmptyResult(node', bb) == EmptyResult(node, bb))
      && (node.Parallel? ==>
            && node'.Parallel? && node'.cancelOnFailure == node.cancelOnFailure && |node'.children| == |node.children|
            && forall i :: 0 <= i < |node.children| ==> node'.children[i] == RemoveGates(reg, node.children[i]))
      && (node.Timeout? ==>
            node'.Timeout? && node'.child == RemoveGates(reg, node.child) && MalformedTimeout(node') == MalformedTimeout(node))
  {
    if node.Sequence? && node.children != [] {
      LastStays(reg, node.children, 0);
    }
  }

  // ---- The relation between a thread of the plan and one of the rewritten plan.

  // The node works at `at` in the plan, its rewritten form at `to`.
  datatype Spot = Spot(node: Node, at: Path, to: Path)

  ghost predicate Placed(reg: Registry, chart: Chart, z: Spot) {
    Consistent(reg, chart) && chart.node(z.at) == Some(z.node) && !chart.gate(z.at)
  }

  function SlotSpot(reg: Registry, z: Spot, k: nat): Spot
    requires z.node.IsStepwise() && k < z.node.Slots()
  {
    Spot(z.node.Slot(k), SlotPath(z.node, z.at, k), SlotPath(RemoveGates(reg, z.node), z.to, NewIndex(reg, z.node, k)))
  }

  function BranchSpot(z: Spot, i: nat): Spot
    requires z.node.Parallel? && i < |z.node.children|
  {
    Spot(z.node.children[i], z.at + [i], z.to + [i])
  }

  function GuardedSpot(z: Spot): Spot
    requires z.node.Timeout?
  {
    Spot(z.node.child, z.at + [0], z.to + [0])
  }

  const REFUSED := Done(Failed(map[]), [])

  // While the plan is at a dropped gate, the rewritten plan waits in front of what
  // comes behind it; a cancel flag refuses both. A lazy plan waits in front of the
  // gate for as long as it can.
  predicate GateWaits(lazy: bool, gate: Node, path: Path, facts: Facts, cur: Proc, cur': Proc, next: Proc) {
    || (cur == REFUSED && cur' == REFUSED)
    || (cur' == next
        && (|| cur == Ready(gate, path, facts)
            || (!lazy && (cur == Busy(gate, path, facts) || cur == Done(Succeeded(facts), [])))))
  }

  // What the rewritten node starts with at the new index.
  function Next(reg: Registry, z: Spot, k: nat, facts: Facts): Proc
    requires z.node.IsStepwise() && k < z.node.Slots()
  {
    SlotMoves(reg, z.node, k);
    var node', k' := RemoveGates(reg, z.node), NewIndex(reg, z.node, k);
    Ready(node'.Slot(k'), SlotPath(node', z.to, k'), facts)
  }

  ghost predicate Sim(reg: Registry, chart: Chart, lazy: bool, z: Spot, p: Proc, q: Proc)
    decreases p, 1
  {
    && Placed(reg, chart, z)
    && match p
       case Ready(node, path, bb) => node == z.node && path == z.at && q == Ready(RemoveGates(reg, node), z.to, bb)
       case Busy(leaf, path, bb) => leaf == z.node && path == z.at && leaf.IsLeaf() && q == Busy(leaf, z.to, bb)
       case Done(res, left) => q.Done? && q.res == res && SimAll(reg, chart, lazy, left, q.left)
       case Frame(node, path, facts, k, left, cur) =>
         && node == z.node && path == z.at && node.IsStepwise() && k < node.Slots()
         && q.Frame? && q.node == RemoveGates(reg, node) && q.path == z.to && q.facts == facts
         && q.index == NewIndex(reg, node, k)
         && SimAll(reg, chart, lazy, left, q.left)
         && (if AtGate(reg, node, k)
             then GateWaits(lazy, node.children[k], path + [k], facts, cur, q.cur, Next(reg, z, k, facts))
             else Sim(reg, chart, lazy, SlotSpot(reg, z, k), cur, q.cur))
       case Fork(node, path, bb, canceled, kids) =>
         && node == z.node && path == z.at && node.Parallel? && |kids| == |node.children|
         && q.Fork? && q == Fork(RemoveGates(reg, node), z.to, bb, canceled, q.kids) && |q.kids| == |kids|
         && (FailureCancels(node, kids) ==> canceled)
         && forall i :: 0 <= i < |kids| ==> Sim(reg, chart, lazy, BranchSpot(z, i), kids[i], q.kids[i])
       case Guarded(node, path, bb, cur) =>
         && node == z.node && path == z.at && node.Timeout?
         && q.Guarded? && q == Guarded(RemoveGates(reg, node), z.to, bb, q.cur)
         && Sim(reg, chart, lazy, GuardedSpot(z), cur, q.cur)
  }

  // Threads that were left behind, one by one.
  ghost predicate SimAll(reg: Registry, chart: Chart, lazy: bool, ps: seq<Proc>, qs: seq<Proc>)
    decreases ps, 0
  {
    |ps| == |qs| && forall i :: 0 <= i < |ps| ==> SimSome(reg, chart, lazy, ps[i], qs[i])
  }

  ghost predicate SimSome(reg: Registry, chart: Chart, lazy: bool, p: Proc, q: Proc)
    decreases p, 2
  {
    exists z :: Sim(reg, chart, lazy, z, p, q)
  }

  // ---- Occurrences below an occurrence.

  lemma BelowPlaced(reg: Registry, chart: Chart, z: Spot, k: nat)
    requires Consistent(reg, chart) && chart.node(z.at) == Some(z.node)
    ensures chart.node(z.at + [k]) == ChildAt(z.node, k)
    ensures chart.gate(z.at + [k]) <==> AtGate(reg, z.node, k)
  {
  }

  lemma SlotPlaced(reg: Registry, chart: Chart, z: Spot, k: nat)
    requires Placed(reg, chart, z) && z.node.IsStepwise() && k < z.node.Slots() && !AtGate(reg, z.node, k)
    ensures Placed(reg, chart, SlotSpot(reg, z, k))
  {
    BelowPlaced(reg, chart, z, if z.node.Retry? then 0 else k);
  }

  lemma SameFailures(reg: Registry, chart: Chart, lazy: bool, z: Spot, kids: seq<Proc>, kids': seq<Proc>)
    requires z.node.Parallel? && |kids| == |kids'| == |z.node.children|
    requires forall i :: 0 <= i < |kids| ==> Sim(reg, chart, lazy, BranchSpot(z, i), kids[i], kids'[i])
    ensures FailureCancels(z.node, kids) == FailureCancels(RemoveGates(reg, z.node), kids')
  {
    SameShape(reg, z.node);
    forall i | 0 <= i < |kids|
      ensures kids[i].Done? == kids'[i].Done? && (kids[i].Done? ==> kids[i].res == kids'[i].res)
    {
      assert Sim(reg, chart, lazy, BranchSpot(z, i), kids[i], kids'[i]);
    }
  }

  lemma SimAllConcat(
      reg: Registry, chart: Chart, lazy: bool, ps: seq<Proc>, qs: seq<Proc>, ps': seq<Proc>, qs': seq<Proc>)
    requires SimAll(reg, chart, lazy, ps, qs) && SimAll(reg, chart, lazy, ps', qs')
    ensures SimAll(reg, chart, lazy, ps + ps', qs + qs')
  {
  }

  lemma SomeSpot(reg: Registry, chart: Chart, lazy: bool, p: Proc, q: Proc) returns (z: Spot)
    requires SimSome(reg, chart, lazy, p, q)
    ensures Sim(reg, chart, lazy, z, p, q)
  {
    z :| Sim(reg, chart, lazy, z, p, q);
  }

  lemma {:induction false} SimLeftBehind(reg: Registry, chart: Chart, lazy: bool, ps: seq<Proc>, qs: seq<Proc>)
    requires AllDone(ps) && |ps| == |qs|
    requires forall i :: 0 <= i < |ps| ==> SimSome(reg, chart, lazy, ps[i], qs[i])
    ensures AllDone(qs) && SimAll(reg, chart, lazy, LeftBehind(ps), LeftBehind(qs))
    ensures Results(ps) == Results(qs)
    decreases |ps|
  {
    forall i | 0 <= i < |ps|
      ensures qs[i].Done? && qs[i].res == ps[i].res && SimAll(reg, chart, lazy, ps[i].left, qs[i].left)
    {
      var z := SomeSpot(reg, chart, lazy, ps[i], qs[i]);
    }
    assert AllDone(qs);
    if ps != [] {
      SimLeftBehind(reg, chart, lazy, ps[1..], qs[1..]);
      SimAllConcat(reg, chart, lazy, ps[0].left, qs[0].left, LeftBehind(ps[1..]), LeftBehind(qs[1..]));
    }
    assert Results(ps) == Results(qs);
  }

  // ---- The rewritten plan follows the plan: one step for a step, or none while
  // the plan is at a dropped gate.

  // Where the step leads the rewritten thread, and its label if it moves at all.
  ghost predicate Follows(reg: Registry, chart: Chart, flag: bool, l: Label, q: Proc, q': Proc, l': Option<Label>) {
    match l'
    case None => q' == q && KeptSight(chart, l) == []
    case Some(act) => Step(flag, q, act, q') && SightOf(act) == KeptSight(chart, l)
  }

  lemma {:induction false} Follow(
      reg: Registry, chart: Chart, z: Spot, flag: bool, p: Proc, l: Label, p': Proc, q: Proc)
      returns (q': Proc, l': Option<Label>)
    requires Sim(reg, chart, false, z, p, q) && Step(flag, p, l, p') && GateTrue(chart, l)
    ensures Sim(reg, chart, false, z, p', q') && Follows(reg, chart, flag, l, q, q', l')
    decreases p, 2
  {
    match p
    case Ready(_, _, _) => q', l' := FollowStart(reg, chart, z, flag, p, l, p', q);
    case Busy(leaf, _, _) =>
      q' := Done(l.res, []);
      l' := Some(Finish(z.to, leaf, l.res));
      assert p'.left == [];
    case Done(res, left) =>
      var left';
      left', l' := FollowOne(reg, chart, true, left, l, p'.left, q.left);
      q' := Done(res, left');
    case Frame(_, _, _, _, _, _) => q', l' := FollowFrame(reg, chart, z, flag, p, l, p', q);
    case Fork(_, _, _, _, _) => q', l' := FollowFork(reg, chart, z, flag, p, l, p', q);
    case Guarded(_, _, _, _) => q', l' := FollowGuarded(reg, chart, z, flag, p, l, p', q);
  }

  lemma {:induction false} FollowOne(
      reg: Registry, chart: Chart, flag: bool, ps: seq<Proc>, l: Label, ps': seq<Proc>, qs: seq<Proc>)
      returns (qs': seq<Proc>, l': Option<Label>)
    requires SimAll(reg, chart, false, ps, qs) && OneSteps(flag, ps, l, ps') && GateTrue(chart, l)
    ensures SimAll(reg, chart, false, ps', qs')
    ensures match l'
      case None => qs' == qs && KeptSight(chart, l) == []
      case Some(act) => OneSteps(flag, qs, act, qs') && SightOf(act) == KeptSight(chart, l)
    decreases ps, 1
  {
    var i := WhichSteps(flag, ps, l, ps');
    assert SimSome(reg, chart, false, ps[i], qs[i]);
    var z := SomeSpot(reg, chart, false, ps[i], qs[i]);
    var q';
    q', l' := Follow(reg, chart, z, flag, ps[i], l, ps'[i], qs[i]);
    qs' := qs[i := q'];
    forall j | 0 <= j < |ps'|
      ensures SimSome(reg, chart, false, ps'[j], qs'[j])
    {
      if j != i {
        assert SimSome(reg, chart, false, ps[j], qs[j]);
      }
    }
    if l' == None {
      assert qs' == qs;
    }
  }

  function WithCur(p: Proc, cur: Proc): Proc
    requires p.Frame?
  {
    Frame(p.node, p.path, p.facts, p.index, p.left, cur)
  }

  function WithLeft(p: Proc, left: seq<Proc>): Proc
    requires p.Frame?
  {
    Frame(p.node, p.path, p.facts, p.index, left, p.cur)
  }

  // The child call moves, or a thread left behind does.
  predicate CurMoves(flag: bool, p: Proc, l: Label, p': Proc)
    requires p.Frame?
  {
    p'.Frame? && p' == WithCur(p, p'.cur) && Step(flag, p.cur, l, p'.cur)
  }

  predicate LeftMoves(p: Proc, l: Label, p': Proc)
    requires p.Frame?
  {
    p'.Frame? && p' == WithLeft(p, p'.left) && OneSteps(true, p.left, l, p'.left)
  }

  // The first step of a call.
  function StartOf(flag: bool, node: Node, path: Path, bb: Facts): (Proc, Label) {
    if flag then (REFUSED, Refuse(path, node))
    else if node.IsLeaf() then (Busy(node, path, bb), Begin(path, node, bb))
    else if node.IsStepwise() then
      if node.Slots() == 0 then (Done(EmptyResult(node, bb), []), Reject(path, node))
      else (Frame(node, path, bb, 0, [], Ready(node.Slot(0), SlotPath(node, path, 0), bb)), Enter(path, node))
    else if node.Parallel? then
      if node.children == [] then (REFUSED, Reject(path, node))
      else (Fork(node, path, bb, false, Branches(node, path, bb)), Enter(path, node))
    else if MalformedTimeout(node) then (REFUSED, Reject(path, node))
    else (Guarded(node, path, bb, Ready(node.child, path + [0], bb)), Enter(path, node))
  }

  lemma StartIs(flag: bool, node: Node, path: Path, bb: Facts, l: Label, q: Proc)
    ensures Start(flag, node, path, bb, l, q) <==> (q, l) == StartOf(flag, node, path, bb)
  {
  }

  lemma StartsAlike(reg: Registry, chart: Chart, lazy: bool, z: Spot, flag: bool, p: Proc, q: Proc)
    requires Sim(reg, chart, lazy, z, p, q) && p.Ready?
    ensures
      var (p', l) := StartOf(flag, p.node, p.path, p.bb);
      var (q', l') := StartOf(flag, q.node, q.path, q.bb);
      Sim(reg, chart, lazy, z, p', q') && SightOf(l') == KeptSight(chart, l)
  {
    SameShape(reg, z.node);
    if !flag && !z.node.IsLeaf() {
      if z.node.IsStepwise() && z.node.Slots() > 0 {
        EntersFrame(reg, chart, lazy, z, p.bb);
      } else if z.node.Parallel? && z.node.children != [] {
        EntersFork(reg, chart, lazy, z, p.bb);
      } else if z.node.Timeout? {
        BelowPlaced(reg, chart, z, 0);
      }
    }
  }

  lemma EntersFrame(reg: Registry, chart: Chart, lazy: bool, z: Spot, bb: Facts)
    requires Placed(reg, chart, z) && z.node.IsStepwise() && z.node.Slots() > 0
    ensures RemoveGates(reg, z.node).IsStepwise() && RemoveGates(reg, z.node).Slots() > 0
    ensures
      var node' := RemoveGates(reg, z.node);
      Sim(reg, chart, lazy, z,
          Frame(z.node, z.at, bb, 0, [], Ready(z.node.Slot(0), SlotPath(z.node, z.at, 0), bb)),
          Frame(node', z.to, bb, 0, [], Ready(node'.Slot(0), SlotPath(node', z.to, 0), bb)))
  {
    SlotMoves(reg, z.node, 0);
    ReachesSlot(reg, chart, lazy, z, 0, bb, [], []);
    assert NewIndex(reg, z.node, 0) == 0;
  }

  // What is alike in two stepwise nodes, their child calls aside.
  ghost predicate FrameAlike(reg: Registry, chart: Chart, lazy: bool, z: Spot, p: Proc, q: Proc) {
    Placed(reg, chart, z) && FrameShape(reg, z, p, q) && SimAll(reg, chart, lazy, p.left, q.left)
  }

  predicate FrameShape(reg: Registry, z: Spot, p: Proc, q: Proc) {
    && p.Frame? && p.node == z.node && p.path == z.at && p.node.IsStepwise() && p.index < p.node.Slots()
    && q.Frame? && q.node == RemoveGates(reg, p.node) && q.path == z.to && q.facts == p.facts
    && q.index == NewIndex(reg, p.node, p.index)
  }

  lemma FramesAlike(reg: Registry, chart: Chart, lazy: bool, z: Spot, p: Proc, q: Proc)
    requires Sim(reg, chart, lazy, z, p, q) && p.Frame?
    ensures FrameAlike(reg, chart, lazy, z, p, q)
  {
  }

  // The two nodes at child call k of the plan.
  function AtSlot(z: Spot, k: nat, facts: Facts, left: seq<Proc>): Proc
    requires z.node.IsStepwise() && k < z.node.Slots()
  {
    Frame(z.node, z.at, facts, k, left, Ready(z.node.Slot(k), SlotPath(z.node, z.at, k), facts))
  }

  function NewAtSlot(reg: Registry, z: Spot, k: nat, facts: Facts, left: seq<Proc>): Proc
    requires z.node.IsStepwise() && k < z.node.Slots()
  {
    Frame(RemoveGates(reg, z.node), z.to, facts, NewIndex(reg, z.node, k), left, Next(reg, z, k, facts))
  }

  // Both at the same child call, or the plan at a gate in front of it.
  lemma ReachesSlot(
      reg: Registry, chart: Chart, lazy: bool, z: Spot, k: nat, facts: Facts, left: seq<Proc>, left': seq<Proc>)
    requires Placed(reg, chart, z) && z.node.IsStepwise() && k < z.node.Slots() && SimAll(reg, chart, lazy, left, left')
    ensures Sim(reg, chart, lazy, z, AtSlot(z, k, facts, left), NewAtSlot(reg, z, k, facts, left'))
  {
    if AtGate(reg, z.node, k) {
      ReachesGate(reg, chart, lazy, z, k, facts, left, left');
    } else {
      SlotMoves(reg, z.node, k);
      SameShape(reg, z.node);
      SlotPlaced(reg, chart, z, k);
    }
  }

  lemma ReachesGate(
      reg: Registry, chart: Chart, lazy: bool, z: Spot, k: nat, facts: Facts, left: seq<Proc>, left': seq<Proc>)
    requires Placed(reg, chart, z) && z.node.IsStepwise() && k < z.node.Slots() && SimAll(reg, chart, lazy, left, left')
    requires AtGate(reg, z.node, k)
    ensures Sim(reg, chart, lazy, z, AtSlot(z, k, facts, left), NewAtSlot(reg, z, k, facts, left'))
  {
  }

  lemma EntersFork(reg: Registry, chart: Chart, lazy: bool, z: Spot, bb: Facts)
    requires Placed(reg, chart, z) && z.node.Parallel?
    ensures
      var node' := RemoveGates(reg, z.node);
      node'.Parallel?
      && Sim(reg, chart, lazy, z, Fork(z.node, z.at, bb, false, Branches(z.node, z.at, bb)),
             Fork(node', z.to, bb, false, Branches(node', z.to, bb)))
  {
    SameShape(reg, z.node);
    var kids, kids' := Branches(z.node, z.at, bb), Branches(RemoveGates(reg, z.node), z.to, bb);
    forall i | 0 <= i < |kids|
      ensures Sim(reg, chart, lazy, BranchSpot(z, i), kids[i], kids'[i])
    {
      BelowPlaced(reg, chart, z, i);
    }
  }

  lemma FollowStart(
      reg: Registry, chart: Chart, z: Spot, flag: bool, p: Proc, l: Label, p': Proc, q: Proc)
      returns (q': Proc, l': Option<Label>)
    requires Sim(reg, chart, false, z, p, q) && p.Ready? && Step(flag, p, l, p')
    ensures Sim(reg, chart, false, z, p', q') && Follows(reg, chart, flag, l, q, q', l')
  {
    StartsAlike(reg, chart, false, z, flag, p, q);
    StartIs(flag, p.node, p.path, p.bb, l, p');
    var (r, act) := StartOf(flag, q.node, q.path, q.bb);
    StartIs(flag, q.node, q.path, q.bb, act, r);
    q', l' := r, Some(act);
  }

  lemma {:induction false} FollowFrame(
      reg: Registry, chart: Chart, z: Spot, flag: bool, p: Proc, l: Label, p': Proc, q: Proc)
      returns (q': Proc, l': Option<Label>)
    requires Sim(reg, chart, false, z, p, q) && p.Frame? && Step(flag, p, l, p') && GateTrue(chart, l)
    ensures Sim(reg, chart, false, z, p', q') && Follows(reg, chart, flag, l, q, q', l')
    decreases p, 1
  {
    FrameMoves(flag, p, l, p');
    if LeftMoves(p, l, p') {
      q', l' := FollowLeft(reg, chart, z, flag, p, l, p', q);
    } else if AtGate(reg, p.node, p.index) {
      q', l' := FollowAtGate(reg, chart, z, flag, p, l, p', q);
    } else if p.cur.Done? && Resume(flag, p, l, p') {
      q', l' := FollowResume(reg, chart, z, flag, p, l, p', q);
    } else {
      q', l' := FollowCur(reg, chart, z, flag, p, l, p', q);
    }
  }

  lemma FrameMoves(flag: bool, p: Proc, l: Label, p': Proc)
    requires p.Frame? && Step(flag, p, l, p')
    ensures LeftMoves(p, l, p') || CurMoves(flag, p, l, p') || (p.cur.Done? && Resume(flag, p, l, p'))
  {
    assert FrameStep(flag, p, l, p');
  }

  lemma {:induction false} FollowLeft(
      reg: Registry, chart: Chart, z: Spot, flag: bool, p: Proc, l: Label, p': Proc, q: Proc)
      returns (q': Proc, l': Option<Label>)
    requires Sim(reg, chart, false, z, p, q) && p.Frame? && LeftMoves(p, l, p') && GateTrue(chart, l)
    ensures Sim(reg, chart, false, z, p', q') && Follows(reg, chart, flag, l, q, q', l')
    decreases p, 0
  {
    var left';
    left', l' := FollowOne(reg, chart, true, p.left, l, p'.left, q.left);
    q' := WithLeft(q, left');
    LeftReplaced(reg, chart, false, z, p, q, p'.left, left');
    if l'.Some? {
      OrphanSteps(flag, q, l'.value, left');
    }
  }

  lemma LeftReplaced(
      reg: Registry, chart: Chart, lazy: bool, z: Spot, p: Proc, q: Proc, left: seq<Proc>, left': seq<Proc>)
    requires Sim(reg, chart, lazy, z, p, q) && p.Frame? && SimAll(reg, chart, lazy, left, left')
    ensures Sim(reg, chart, lazy, z, WithLeft(p, left), WithLeft(q, left'))
  {
  }

  lemma OrphanSteps(flag: bool, q: Proc, l: Label, left': seq<Proc>)
    requires q.Frame? && OneSteps(true, q.left, l, left')
    ensures Step(flag, q, l, WithLeft(q, left'))
  {
    assert FrameStep(flag, q, l, WithLeft(q, left'));
  }

  lemma {:induction false} FollowCur(
      reg: Registry, chart: Chart, z: Spot, flag: bool, p: Proc, l: Label, p': Proc, q: Proc)
      returns (q': Proc, l': Option<Label>)
    requires Sim(reg, chart, false, z, p, q) && p.Frame? && CurMoves(flag, p, l, p') && GateTrue(chart, l)
    requires !AtGate(reg, p.node, p.index)
    ensures Sim(reg, chart, false, z, p', q') && Follows(reg, chart, flag, l, q, q', l')
    decreases p, 0
  {
    var cur';
    cur', l' := Follow(reg, chart, SlotSpot(reg, z, p.index), flag, p.cur, l, p'.cur, q.cur);
    q' := WithCur(q, cur');
    if l'.Some? {
      assert FrameStep(flag, q, l'.value, q');
    }
  }

  // A stepwise node that resumes, on both sides.
  lemma ResumesAlike(
      reg: Registry, chart: Chart, lazy: bool, z: Spot, flag: bool, p: Proc, l: Label, p': Proc, q: Proc)
      returns (q': Proc, l': Label)
    requires Sim(reg, chart, lazy, z, p, q) && p.Frame? && !AtGate(reg, p.node, p.index)
    requires p.cur.Done? && Resume(flag, p, l, p')
    ensures Sim(reg, chart, lazy, z, p', q') && q.cur.Done? && Resume(flag, q, l', q')
    ensures Step(flag, q, l', q') && SightOf(l') == KeptSight(chart, l) == []
  {
    FramesAlike(reg, chart, lazy, z, p, q);
    CurDone(reg, chart, lazy, z, p, q);
    q', l' := ResumeShapes(reg, z, flag, p, l, p', q);
    LeftMerged(reg, chart, lazy, p, q, p', q');
    if p'.Frame? {
      ReachesSlot(reg, chart, lazy, z, p.index + 1, p'.facts, p'.left, q'.left);
    }
  }

  lemma CurDone(reg: Registry, chart: Chart, lazy: bool, z: Spot, p: Proc, q: Proc)
    requires Sim(reg, chart, lazy, z, p, q) && p.Frame? && !AtGate(reg, p.node, p.index) && p.cur.Done?
    ensures q.cur.Done? && q.cur.res == p.cur.res && SimAll(reg, chart, lazy, p.cur.left, q.cur.left)
  {
  }

  lemma LeftMerged(reg: Registry, chart: Chart, lazy: bool, p: Proc, q: Proc, p': Proc, q': Proc)
    requires p.Frame? && q.Frame? && p.cur.Done? && q.cur.Done?
    requires SimAll(reg, chart, lazy, p.left, q.left) && SimAll(reg, chart, lazy, p.cur.left, q.cur.left)
    requires (p'.Frame? && q'.Frame?) || (p'.Done? && q'.Done?)
    requires p'.left == p.left + p.cur.left && q'.left == q.left + q.cur.left
    ensures SimAll(reg, chart, lazy, p'.left, q'.left)
  {
    SimAllConcat(reg, chart, lazy, p.left, q.left, p.cur.left, q.cur.left);
  }

  // What both come to, the threads left behind aside.
  ghost predicate SameResume(reg: Registry, z: Spot, flag: bool, p: Proc, p': Proc, q: Proc, l': Label, q': Proc)
    requires p.Frame? && p.cur.Done? && q.Frame? && q.cur.Done?
  {
    && Resume(flag, q, l', q') && Step(flag, q, l', q') && SightOf(l') == []
    && ((p'.Frame? && q'.Frame?) || (p'.Done? && q'.Done? && q'.res == p'.res))
    && p'.left == p.left + p.cur.left && q'.left == q.left + q.cur.left
    && (p'.Frame? ==>
          && z.node.IsStepwise() && p.index + 1 < z.node.Slots()
          && p' == AtSlot(z, p.index + 1, p'.facts, p'.left) && q' == NewAtSlot(reg, z, p.index + 1, p'.facts, q'.left))
  }

  lemma ResumeShapes(reg: Registry, z: Spot, flag: bool, p: Proc, l: Label, p': Proc, q: Proc) returns (q': Proc, l': Label)
    requires FrameShape(reg, z, p, q) && !AtGate(reg, p.node, p.index)
    requires p.cur.Done? && Resume(flag, p, l, p') && q.cur.Done? && q.cur.res == p.cur.res
    ensures SameResume(reg, z, flag, p, p', q, l', q') && !l.Begin? && !l.Finish?
  {
    AftersAlike(reg, z, p, q, flag);
    if After(p.node, p.index, p.cur.res, flag) == Continue {
      q', l' := ResumeGoesOn(reg, z, flag, p, l, p', q);
    } else {
      q' := Done(p'.res, q.left + q.cur.left);
      l' := Leave(q.path, q.node, q.index + 1);
      StopsAlike(p, q, flag, l, p', q');
    }
  }

  lemma ResumeGoesOn(reg: Registry, z: Spot, flag: bool, p: Proc, l: Label, p': Proc, q: Proc) returns (q': Proc, l': Label)
    requires FrameShape(reg, z, p, q) && !AtGate(reg, p.node, p.index)
    requires p.cur.Done? && Resume(flag, p, l, p') && q.cur.Done? && q.cur.res == p.cur.res
    requires After(p.node, p.index, p.cur.res, flag) == Continue
    ensures SameResume(reg, z, flag, p, p', q, l', q') && l.Advance?
  {
    AdvancedTo(z, flag, p, l, p');
    q' := NewAtSlot(reg, z, p.index + 1, p'.facts, q.left + q.cur.left);
    l' := Advance(q.path);
    NextGoesOn(reg, z, p.index, q, p'.facts, q', flag);
  }

  lemma AftersAlike(reg: Registry, z: Spot, p: Proc, q: Proc, flag: bool)
    requires FrameShape(reg, z, p, q) && !AtGate(reg, p.node, p.index) && p.cur.Done?
    ensures q.node.IsStepwise() && q.index < q.node.Slots()
    ensures After(q.node, q.index, p.cur.res, flag) == After(p.node, p.index, p.cur.res, flag)
  {
    SlotMoves(reg, p.node, p.index);
    SameShape(reg, p.node);
    AdvancesAlike(p.node, p.index, q.node, q.index, p.cur.res, flag);
  }

  lemma AdvancedTo(z: Spot, flag: bool, p: Proc, l: Label, p': Proc)
    requires p.Frame? && p.node == z.node && p.path == z.at && p.node.IsStepwise() && p.index < p.node.Slots()
    requires p.cur.Done? && Resume(flag, p, l, p') && After(p.node, p.index, p.cur.res, flag) == Continue
    ensures p.index + 1 < z.node.Slots() && l == Advance(p.path)
    ensures p' == AtSlot(z, p.index + 1, p.facts + p.cur.res.facts, p.left + p.cur.left)
  {
  }

  lemma StopsAlike(p: Proc, q: Proc, flag: bool, l: Label, p': Proc, q': Proc)
    requires p.Frame? && q.Frame? && q.facts == p.facts && p.cur.Done? && q.cur.Done? && q.cur.res == p.cur.res
    requires p.node.IsStepwise() && p.index < p.node.Slots() && q.node.IsStepwise() && q.index < q.node.Slots()
    requires After(q.node, q.index, q.cur.res, flag) == After(p.node, p.index, p.cur.res, flag) != Continue
    requires Resume(flag, p, l, p') && p'.Done? && q' == Done(p'.res, q.left + q.cur.left)
    ensures Resume(flag, q, Leave(q.path, q.node, q.index + 1), q') && Step(flag, q, Leave(q.path, q.node, q.index + 1), q')
  {
    assert FrameStep(flag, q, Leave(q.path, q.node, q.index + 1), q');
  }

  lemma AdvancesAlike(node: Node, k: nat, node': Node, k': nat, r: ExecutionResult, flag: bool)
    requires node.IsStepwise() && node'.IsStepwise() && k < node.Slots() && k' < node'.Slots()
    requires k + 1 < node.Slots() <==> k' + 1 < node'.Slots()
    requires node.Sequence? == node'.Sequence? && node.Retry? == node'.Retry?
    ensures After(node, k, r, flag) == After(node', k', r, flag)
  {
  }

  lemma IndexMoves(reg: Registry, node: Node, k: nat)
    requires node.IsStepwise() && k + 1 < node.Slots() && !AtGate(reg, node, k)
    ensures NewIndex(reg, node, k + 1) == NewIndex(reg, node, k) + 1
  {
  }

  lemma NextGoesOn(reg: Registry, z: Spot, k: nat, q: Proc, facts: Facts, q': Proc, flag: bool)
    requires z.node.IsStepwise() && k + 1 < z.node.Slots() && !AtGate(reg, z.node, k)
    requires q.Frame? && q.node == RemoveGates(reg, z.node) && q.path == z.to && q.index == NewIndex(reg, z.node, k)
    requires q.cur.Done? && facts == q.facts + q.cur.res.facts && After(z.node, k, q.cur.res, flag) == Continue
    requires q' == NewAtSlot(reg, z, k + 1, facts, q.left + q.cur.left)
    ensures Resume(flag, q, Advance(q.path), q') && Step(flag, q, Advance(q.path), q')
  {
    NextSlotIs(reg, z, k, facts, q.left + q.cur.left);
    AdvancesAlike(z.node, k, q.node, q.index, q.cur.res, flag);
    Continues(flag, q, q');
  }

  // The rewritten node's call behind slot k's.
  lemma NextSlotIs(reg: Registry, z: Spot, k: nat, facts: Facts, left: seq<Proc>)
    requires z.node.IsStepwise() && k + 1 < z.node.Slots() && !AtGate(reg, z.node, k)
    ensures
      var node', i, q' := RemoveGates(reg, z.node), NewIndex(reg, z.node, k), NewAtSlot(reg, z, k + 1, facts, left);
      && node'.IsStepwise() && i + 1 < node'.Slots()
      && node'.Sequence? == z.node.Sequence? && node'.Retry? == z.node.Retry?
      && q' == Frame(node', z.to, facts, i + 1, left, Ready(node'.Slot(i + 1), SlotPath(node', z.to, i + 1), facts))
  {
    SlotMoves(reg, z.node, k);
    SlotMoves(reg, z.node, k + 1);
    SameShape(reg, z.node);
    IndexMoves(reg, z.node, k);
  }

  lemma Continues(flag: bool, q: Proc, q': Proc)
    requires q.Frame? && q.node.IsStepwise() && q.index + 1 < q.node.Slots() && q.cur.Done?
    requires After(q.node, q.index, q.cur.res, flag) == Continue
    requires q'.Frame? && q'.node == q.node && q'.path == q.path && q'.facts == q.facts + q.cur.res.facts
    requires q'.index == q.index + 1 && q'.left == q.left + q.cur.left
    requires q'.cur == Ready(q.node.Slot(q.index + 1), SlotPath(q.node, q.path, q.index + 1), q'.facts)
    ensures Resume(flag, q, Advance(q.path), q') && Step(flag, q, Advance(q.path), q')
  {
    assert Resume(flag, q, Advance(q.path), q');
    assert FrameStep(flag, q, Advance(q.path), q');
  }

  lemma FollowResume(
      reg: Registry, chart: Chart, z: Spot, flag: bool, p: Proc, l: Label, p': Proc, q: Proc)
      returns (q': Proc, l': Option<Label>)
    requires Sim(reg, chart, false, z, p, q) && p.Frame? && !AtGate(reg, p.node, p.index)
    requires p.cur.Done? && Resume(flag, p, l, p')
    ensures Sim(reg, chart, false, z, p', q') && Follows(reg, chart, flag, l, q, q', l')
  {
    var act;
    q', act := ResumesAlike(reg, chart, false, z, flag, p, l, p', q);
    l' := Some(act);
  }

  // At a dropped gate: it begins, ends and is passed unseen; if it is refused, so
  // is what comes behind it.
  lemma FollowAtGate(
      reg: Registry, chart: Chart, z: Spot, flag: bool, p: Proc, l: Label, p': Proc, q: Proc)
      returns (q': Proc, l': Option<Label>)
    requires Sim(reg, chart, false, z, p, q) && p.Frame? && AtGate(reg, p.node, p.index) && GateTrue(chart, l)
    requires (p.cur.Done? && Resume(flag, p, l, p')) || CurMoves(flag, p, l, p')
    ensures Sim(reg, chart, false, z, p', q') && Follows(reg, chart, flag, l, q, q', l')
  {
    if p.cur.Done? {
      NothingLeft(flag, p, l, p');
      if p.cur == REFUSED {
        q', l' := FollowRefusal(reg, chart, z, flag, p, l, p', q);
      } else {
        q', l' := q, None;
        GatePassed(reg, chart, z, flag, p, l, p', q);
      }
    } else if p.cur.Ready? && flag {
      q', l' := FollowGateRefused(reg, chart, z, flag, p, l, p', q);
    } else {
      q', l' := q, None;
      GateAsked(reg, chart, z, flag, p, l, p', q);
    }
  }

  lemma FollowGateRefused(
      reg: Registry, chart: Chart, z: Spot, flag: bool, p: Proc, l: Label, p': Proc, q: Proc)
      returns (q': Proc, l': Option<Label>)
    requires Sim(reg, chart, false, z, p, q) && p.Frame? && AtGate(reg, p.node, p.index) && p.cur.Ready? && flag
    requires CurMoves(flag, p, l, p')
    ensures Sim(reg, chart, false, z, p', q') && Follows(reg, chart, flag, l, q, q', l')
  {
    q' := WithCur(q, REFUSED);
    l' := Some(Refuse(q.cur.path, q.cur.node));
    RefuseSteps(flag, q);
  }

  lemma RefuseSteps(flag: bool, q: Proc)
    requires flag && q.Frame? && q.cur.Ready?
    ensures Step(flag, q, Refuse(q.cur.path, q.cur.node), WithCur(q, REFUSED))
  {
    assert FrameStep(flag, q, Refuse(q.cur.path, q.cur.node), WithCur(q, REFUSED));
  }

  lemma GateAsked(reg: Registry, chart: Chart, z: Spot, flag: bool, p: Proc, l: Label, p': Proc, q: Proc)
    requires Sim(reg, chart, false, z, p, q) && p.Frame? && AtGate(reg, p.node, p.index) && GateTrue(chart, l)
    requires CurMoves(flag, p, l, p') && !p.cur.Done? && (p.cur.Ready? ==> !flag)
    ensures Sim(reg, chart, false, z, p', q) && KeptSight(chart, l) == []
  {
    BelowPlaced(reg, chart, z, p.index);
  }

  // A gate that has ended left no thread behind.
  lemma NothingLeft(flag: bool, p: Proc, l: Label, p': Proc)
    requires p.Frame? && p.cur.Done? && p.cur.left == []
    requires Resume(flag, p, l, p') || CurMoves(flag, p, l, p')
    ensures Resume(flag, p, l, p')
  {
    if CurMoves(flag, p, l, p') {
      var i := WhichSteps(true, p.cur.left, l, p'.cur.left);
    }
  }

  lemma FollowRefusal(
      reg: Registry, chart: Chart, z: Spot, flag: bool, p: Proc, l: Label, p': Proc, q: Proc)
      returns (q': Proc, l': Option<Label>)
    requires Sim(reg, chart, false, z, p, q) && p.Frame? && AtGate(reg, p.node, p.index)
    requires p.cur == REFUSED && q.cur == REFUSED && Resume(flag, p, l, p')
    ensures Sim(reg, chart, false, z, p', q') && Follows(reg, chart, flag, l, q, q', l')
  {
    q', l' := RefusedAlike(reg, chart, false, z, flag, p, l, p', q);
  }

  lemma RefusedAlike(
      reg: Registry, chart: Chart, lazy: bool, z: Spot, flag: bool, p: Proc, l: Label, p': Proc, q: Proc)
      returns (q': Proc, l': Option<Label>)
    requires Sim(reg, chart, lazy, z, p, q) && p.Frame? && AtGate(reg, p.node, p.index)
    requires p.cur == REFUSED && q.cur == REFUSED && Resume(flag, p, l, p')
    ensures l' == Some(Leave(q.path, q.node, q.index + 1)) && Resume(flag, q, l'.value, q') && Step(flag, q, l'.value, q')
    ensures Sim(reg, chart, lazy, z, p', q') && KeptSight(chart, l) == []
  {
    SlotMoves(reg, p.node, p.index);
    SameShape(reg, p.node);
    SimAllConcat(reg, chart, lazy, p.left, q.left, [], []);
    q' := Done(p'.res, q.left + []);
    l' := Some(Leave(q.path, q.node, q.index + 1));
    assert Resume(flag, q, l'.value, q');
    assert FrameStep(flag, q, l'.value, q');
  }

  // The gate was TRUE: the plan goes on, the blackboard is what it was.
  function Passed(p: Proc): Proc
    requires p.Frame? && p.node.Sequence? && p.index + 1 < |p.node.children|
  {
    var k := p.index + 1;
    Frame(p.node, p.path, p.facts, k, p.left, Ready(p.node.children[k], p.path + [k], p.facts))
  }

  lemma PassedSim(reg: Registry, chart: Chart, lazy: bool, z: Spot, p: Proc, q: Proc)
    requires FrameAlike(reg, chart, lazy, z, p, q) && AtGate(reg, p.node, p.index)
    requires q.cur == Next(reg, z, p.index, p.facts)
    ensures p.index + 1 < |p.node.children| && Sim(reg, chart, lazy, z, Passed(p), q)
  {
    SlotMoves(reg, p.node, p.index);
    IndexStays(reg, z, p.index, p.facts);
    ReachesSlot(reg, chart, lazy, z, p.index + 1, p.facts, p.left, q.left);
    assert Passed(p) == AtSlot(z, p.index + 1, p.facts, p.left);
    assert q == NewAtSlot(reg, z, p.index + 1, p.facts, q.left);
  }

  lemma IndexStays(reg: Registry, z: Spot, k: nat, facts: Facts)
    requires AtGate(reg, z.node, k) && k + 1 < |z.node.children|
    ensures NewIndex(reg, z.node, k + 1) == NewIndex(reg, z.node, k)
    ensures Next(reg, z, k + 1, facts) == Next(reg, z, k, facts)
  {
  }

  lemma PassesOn(flag: bool, p: Proc, l: Label, p': Proc)
    requires p.Frame? && p.node.Sequence? && p.index + 1 < |p.node.children| && p.cur == Done(Succeeded(p.facts), [])
    requires Resume(flag, p, l, p')
    ensures p' == Passed(p) && l == Advance(p.path)
  {
    assert p.facts + p.facts == p.facts && p.left + [] == p.left;
  }

  lemma GatePassed(reg: Registry, chart: Chart, z: Spot, flag: bool, p: Proc, l: Label, p': Proc, q: Proc)
    requires Sim(reg, chart, false, z, p, q) && p.Frame? && AtGate(reg, p.node, p.index)
    requires p.cur == Done(Succeeded(p.facts), []) && q.cur == Next(reg, z, p.index, p.facts)
    requires Resume(flag, p, l, p')
    ensures Sim(reg, chart, false, z, p', q) && KeptSight(chart, l) == []
  {
    FramesAlike(reg, chart, false, z, p, q);
    PassedSim(reg, chart, false, z, p, q);
    PassesOn(flag, p, l, p');
  }

  lemma {:induction false} FollowFork(
      reg: Registry, chart: Chart, z: Spot, flag: bool, p: Proc, l: Label, p': Proc, q: Proc)
      returns (q': Proc, l': Option<Label>)
    requires Sim(reg, chart, false, z, p, q) && p.Fork? && Step(flag, p, l, p') && GateTrue(chart, l)
    ensures Sim(reg, chart, false, z, p', q') && Follows(reg, chart, flag, l, q, q', l')
    decreases p, 1
  {
    assert ForkStep(flag, p, l, p');
    if p'.Fork? {
      var i := WhichSteps(flag || p.canceled, p.kids, l, p'.kids);
      q', l' := FollowBranch(reg, chart, z, flag, p, l, p', q, i);
    } else {
      q', l' := Joined(reg, chart, false, z, flag, p, p', q);
    }
  }

  lemma {:induction false} FollowBranch(
      reg: Registry, chart: Chart, z: Spot, flag: bool, p: Proc, l: Label, p': Proc, q: Proc, i: nat)
      returns (q': Proc, l': Option<Label>)
    requires Sim(reg, chart, false, z, p, q) && p.Fork? && p'.Fork? && GateTrue(chart, l)
    requires i < |p.kids| == |p'.kids| && p'.kids == p.kids[i := p'.kids[i]]
    requires p' == Fork(p.node, p.path, p.bb, p.canceled || FailureCancels(p.node, p'.kids), p'.kids)
    requires Step(flag || p.canceled, p.kids[i], l, p'.kids[i])
    ensures Sim(reg, chart, false, z, p', q') && Follows(reg, chart, flag, l, q, q', l')
    decreases p, 0
  {
    var kid';
    kid', l' := Follow(reg, chart, BranchSpot(z, i), flag || p.canceled, p.kids[i], l, p'.kids[i], q.kids[i]);
    q' := BranchMoved(reg, chart, false, z, p, p', q, i, kid');
    if l'.Some? {
      BranchSteps(flag, q, i, l'.value, kid', q');
    }
  }

  // One branch has moved on both sides.
  lemma BranchMoved(
      reg: Registry, chart: Chart, lazy: bool, z: Spot, p: Proc, p': Proc, q: Proc, i: nat, kid': Proc) returns (q': Proc)
    requires Sim(reg, chart, lazy, z, p, q) && p.Fork? && p'.Fork? && i < |p.kids| == |p'.kids|
    requires p'.kids == p.kids[i := p'.kids[i]]
    requires p' == Fork(p.node, p.path, p.bb, p.canceled || FailureCancels(p.node, p'.kids), p'.kids)
    requires Sim(reg, chart, lazy, BranchSpot(z, i), p'.kids[i], kid')
    ensures q' == Fork(q.node, q.path, q.bb, q.canceled || FailureCancels(q.node, q.kids[i := kid']), q.kids[i := kid'])
    ensures Sim(reg, chart, lazy, z, p', q')
    ensures kid' == q.kids[i] ==> q' == q
  {
    var kids' := q.kids[i := kid'];
    forall j | 0 <= j < |kids'|
      ensures Sim(reg, chart, lazy, BranchSpot(z, j), p'.kids[j], kids'[j])
    {
      if j != i {
        assert Sim(reg, chart, lazy, BranchSpot(z, j), p.kids[j], q.kids[j]);
      }
    }
    SameShape(reg, z.node);
    SameFailures(reg, chart, lazy, z, p'.kids, kids');
    SameFailures(reg, chart, lazy, z, p.kids, q.kids);
    q' := Fork(q.node, q.path, q.bb, q.canceled || FailureCancels(q.node, kids'), kids');
    if kid' == q.kids[i] {
      assert kids' == q.kids;
    }
  }

  lemma BranchSteps(flag: bool, q: Proc, i: nat, l: Label, kid': Proc, q': Proc)
    requires q.Fork? && i < |q.kids| && Step(flag || q.canceled, q.kids[i], l, kid')
    requires q' == Fork(q.node, q.path, q.bb, q.canceled || FailureCancels(q.node, q.kids[i := kid']), q.kids[i := kid'])
    ensures Step(flag, q, l, q')
  {
    assert q'.kids[i] == kid' && q'.kids == q.kids[i := q'.kids[i]];
    assert ForkStep(flag, q, l, q');
  }

  lemma Joined(reg: Registry, chart: Chart, lazy: bool, z: Spot, flag: bool, p: Proc, p': Proc, q: Proc)
      returns (q': Proc, l': Option<Label>)
    requires Sim(reg, chart, lazy, z, p, q) && p.Fork? && AllDone(p.kids)
    requires p' == Done(Merge(p.bb, Results(p.kids)), LeftBehind(p.kids))
    ensures AllDone(q.kids) && q' == Done(Merge(q.bb, Results(q.kids)), LeftBehind(q.kids))
    ensures l' == Some(Join(q.path)) && Step(flag, q, Join(q.path), q')
    ensures Sim(reg, chart, lazy, z, p', q')
  {
    forall i | 0 <= i < |p.kids|
      ensures SimSome(reg, chart, lazy, p.kids[i], q.kids[i])
    {
      assert Sim(reg, chart, lazy, BranchSpot(z, i), p.kids[i], q.kids[i]);
    }
    SimLeftBehind(reg, chart, lazy, p.kids, q.kids);
    q' := Done(Merge(q.bb, Results(q.kids)), LeftBehind(q.kids));
    l' := Some(Join(q.path));
    assert ForkStep(flag, q, Join(q.path), q');
  }

  lemma {:induction false} FollowGuarded(
      reg: Registry, chart: Chart, z: Spot, flag: bool, p: Proc, l: Label, p': Proc, q: Proc)
      returns (q': Proc, l': Option<Label>)
    requires Sim(reg, chart, false, z, p, q) && p.Guarded? && Step(flag, p, l, p') && GateTrue(chart, l)
    ensures Sim(reg, chart, false, z, p', q') && Follows(reg, chart, flag, l, q, q', l')
    decreases p, 1
  {
    assert GuardedStep(flag, p, l, p');
    if p'.Guarded? && Step(flag, p.cur, l, p'.cur) && p' == Guarded(p.node, p.path, p.bb, p'.cur) {
      var cur';
      cur', l' := Follow(reg, chart, GuardedSpot(z), flag, p.cur, l, p'.cur, q.cur);
      q' := Guarded(q.node, q.path, q.bb, cur');
      if l'.Some? {
        assert GuardedStep(flag, q, l'.value, q');
      }
    } else {
      q', l' := GuardReturns(reg, chart, false, z, flag, p, l, p', q);
    }
  }

  lemma GuardReturns(reg: Registry, chart: Chart, lazy: bool, z: Spot, flag: bool, p: Proc, l: Label, p': Proc, q: Proc)
      returns (q': Proc, l': Option<Label>)
    requires Sim(reg, chart, lazy, z, p, q) && p.Guarded?
    requires
      || (p.cur.Done? && l == Join(p.path) && p' == p.cur)
      || (!p.cur.Done? && l == Fire(p.path) && p' == Done(Blocked(false, p.bb), [p.cur]))
    ensures l' == Some(if p.cur.Done? then Join(q.path) else Fire(q.path)) && Step(flag, q, l'.value, q')
    ensures Sim(reg, chart, lazy, z, p', q') && SightOf(l'.value) == KeptSight(chart, l) == []
  {
    if p.cur.Done? {
      q', l' := q.cur, Some(Join(q.path));
    } else {
      q', l' := Done(Blocked(false, q.bb), [q.cur]), Some(Fire(q.path));
      assert Sim(reg, chart, lazy, GuardedSpot(z), p.cur, q.cur);
      assert SimSome(reg, chart, lazy, [p.cur][0], [q.cur][0]);
    }
    assert GuardedStep(flag, q, l'.value, q');
  }

  lemma {:induction false} FollowRun(reg: Registry, root: Node, ps: seq<Proc>, ms: seq<Move>)
      returns (qs: seq<Proc>, ns: seq<Move>)
    requires IsExecution(root, ps, ms) && GatesTrue(ChartOf(reg, root), ms)
    ensures IsExecution(RemoveGates(reg, root), qs, ns)
    ensures Sim(reg, ChartOf(reg, root), false, Spot(root, [], []), ps[|ms|], qs[|ns|])
    ensures Sights(ns) == KeptSights(ChartOf(reg, root), ms)
    decreases |ms|
  {
    ChartIsConsistent(reg, root);
    if ms == [] {
      qs, ns := [Ready(RemoveGates(reg, root), [], map[])], [];
    } else {
      var n := |ms| - 1;
      RunLast(false, ps, ms);
      assert GatesTrue(ChartOf(reg, root), ms[..n]) by {
        assert forall i :: 0 <= i < n ==> ms[..n][i] == ms[i];
      }
      qs, ns := FollowRun(reg, root, ps[..n + 1], ms[..n]);
      var q', l' := Follow(reg, ChartOf(reg, root), Spot(root, [], []), ms[n].canceled, ps[n], ms[n].act, ps[n + 1], qs[|ns|]);
      if l'.Some? {
        qs, ns := RunGoesOn(RemoveGates(reg, root), qs, ns, Move(ms[n].canceled, l'.value), q');
      }
    }
  }

  lemma RunGoesOn(root: Node, qs: seq<Proc>, ns: seq<Move>, m: Move, q: Proc) returns (qs': seq<Proc>, ns': seq<Move>)
    requires IsExecution(root, qs, ns) && Step(m.canceled, qs[|ns|], m.act, q)
    ensures IsExecution(root, qs', ns') && qs'[|ns'|] == q && Sights(ns') == Sights(ns) + SightOf(m.act)
  {
    qs', ns' := qs + [q], ns + [m];
    assert ns'[..|ns|] == ns;
    forall i | 0 <= i < |ns'|
      ensures Step(ns'[i].canceled, qs'[i], ns'[i].act, qs'[i + 1])
    {
      if i < |ns| {
        assert qs'[i] == qs[i] && qs'[i + 1] == qs[i + 1] && ns'[i] == ns[i];
      }
    }
  }

  // The same state of the root call, as far as the caller can tell.
  predicate SameEnd(p: Proc, q: Proc) {
    p.Done? == q.Done? && (p.Done? ==> p.res == q.res)
  }

  // Every run of the plan in which the dropped gates answer TRUE is a run of the
  // rewritten plan: the other leaves begin and end in the same order with the same
  // results, and so does the execution.
  lemma RunsSurviveRemoval(reg: Registry, root: Node, ps: seq<Proc>, ms: seq<Move>)
      returns (qs: seq<Proc>, ns: seq<Move>)
    requires IsExecution(root, ps, ms) && GatesTrue(ChartOf(reg, root), ms)
    ensures IsExecution(RemoveGates(reg, root), qs, ns)
    ensures Sights(ns) == KeptSights(ChartOf(reg, root), ms) && SameEnd(ps[|ms|], qs[|ns|])
  {
    qs, ns := FollowRun(reg, root, ps, ms);
  }

  // ---- The plan follows the rewritten plan: it makes up for the dropped gates in
  // front of a call when the call starts.

  // A few steps of one thread under local flag c and mission flag g. While a flag
  // is set there is nothing to make up for.
  predicate Walks(chart: Chart, c: bool, g: bool, p: Proc, p': Proc, ps: seq<Proc>, ms: seq<Move>) {
    && IsRun(c, ps, ms) && ps[0] == p && ps[|ms|] == p'
    && (c || g ==> |ms| == 1)
    && (forall i :: 0 < i < |ms| ==> !ps[i].Done?)
    && (forall i :: 0 <= i < |ms| ==> ms[i].canceled == g)
    && GatesTrue(chart, ms)
  }

  ghost predicate Way(chart: Chart, c: bool, g: bool, p: Proc, p': Proc, seen: seq<Sight>) {
    exists ps, ms :: Walks(chart, c, g, p, p', ps, ms) && KeptSights(chart, ms) == seen
  }

  lemma WayOfStep(chart: Chart, c: bool, g: bool, p: Proc, l: Label, p': Proc)
    requires Step(c || g, p, l, p') && GateTrue(chart, l)
    ensures Way(chart, c, g, p, p', KeptSight(chart, l))
  {
    var ms := [Move(g, l)];
    assert ms[..0] == [] && KeptSights(chart, ms[..0]) == [];
    assert Walks(chart, c, g, p, p', [p, p'], ms);
  }

  lemma WayThen(
      chart: Chart, p: Proc, p1: Proc, p2: Proc, seen: seq<Sight>, seen': seq<Sight>)
    requires Way(chart, false, false, p, p1, seen) && Way(chart, false, false, p1, p2, seen') && !p1.Done?
    ensures Way(chart, false, false, p, p2, seen + seen')
  {
    var ps: seq<Proc>, ms: seq<Move> :| Walks(chart, false, false, p, p1, ps, ms) && KeptSights(chart, ms) == seen;
    var qs: seq<Proc>, ns: seq<Move> :| Walks(chart, false, false, p1, p2, qs, ns) && KeptSights(chart, ns) == seen';
    WalksThen(chart, p, p1, p2, ps, ms, qs, ns);
    GatherConcat(Keeping(chart), ms, ns);
  }

  lemma WalksThen(
      chart: Chart, p: Proc, p1: Proc, p2: Proc, ps: seq<Proc>, ms: seq<Move>, qs: seq<Proc>, ns: seq<Move>)
    requires Walks(chart, false, false, p, p1, ps, ms) && Walks(chart, false, false, p1, p2, qs, ns) && !p1.Done?
    ensures Walks(chart, false, false, p, p2, ps[..|ms|] + qs, ms + ns)
  {
    var rs, ks := ps[..|ms|] + qs, ms + ns;
    forall i | 0 <= i < |ks|
      ensures Step(ks[i].canceled, rs[i], ks[i].act, rs[i + 1]) && (i > 0 ==> !rs[i].Done?)
      ensures !ks[i].canceled && GateTrue(chart, ks[i].act)
    {
      if i >= |ms| {
        assert rs[i] == qs[i - |ms|] && rs[i + 1] == qs[i + 1 - |ms|] && ks[i] == ns[i - |ms|];
      }
    }
  }

  lemma WayInFrame(
      chart: Chart, c: bool, g: bool, p: Proc, cur: Proc, seen: seq<Sight>)
    requires p.Frame? && Way(chart, c, g, p.cur, cur, seen)
    ensures Way(chart, c, g, p, WithCur(p, cur), seen)
  {
    var ps: seq<Proc>, ms: seq<Move> :| Walks(chart, c, g, p.cur, cur, ps, ms) && KeptSights(chart, ms) == seen;
    var qs := seq(|ps|, i requires 0 <= i < |ps| => WithCur(p, ps[i]));
    forall i | 0 <= i < |ms|
      ensures Step(c || ms[i].canceled, qs[i], ms[i].act, qs[i + 1])
    {
      assert FrameStep(c || ms[i].canceled, qs[i], ms[i].act, qs[i + 1]);
    }
    assert Walks(chart, c, g, p, WithCur(p, cur), qs, ms);
  }

  lemma WayInGuarded(chart: Chart, c: bool, g: bool, p: Proc, cur: Proc, seen: seq<Sight>)
    requires p.Guarded? && Way(chart, c, g, p.cur, cur, seen)
    ensures Way(chart, c, g, p, Guarded(p.node, p.path, p.bb, cur), seen)
  {
    var ps: seq<Proc>, ms: seq<Move> :| Walks(chart, c, g, p.cur, cur, ps, ms) && KeptSights(chart, ms) == seen;
    var qs := seq(|ps|, i requires 0 <= i < |ps| => Guarded(p.node, p.path, p.bb, ps[i]));
    forall i | 0 <= i < |ms|
      ensures Step(c || ms[i].canceled, qs[i], ms[i].act, qs[i + 1])
    {
      assert GuardedStep(c || ms[i].canceled, qs[i], ms[i].act, qs[i + 1]);
    }
    assert Walks(chart, c, g, p, Guarded(p.node, p.path, p.bb, cur), qs, ms);
  }

  // In a Parallel the siblings wait; whether one has failed changes with the last
  // step at most.
  lemma WayInFork(chart: Chart, c: bool, g: bool, p: Proc, i: nat, kid: Proc, seen: seq<Sight>)
    requires p.Fork? && p.node.Parallel? && i < |p.kids| && (FailureCancels(p.node, p.kids) ==> p.canceled)
    requires Way(chart, c || p.canceled, g, p.kids[i], kid, seen)
    ensures Way(chart, c, g, p,
                Fork(p.node, p.path, p.bb, p.canceled || FailureCancels(p.node, p.kids[i := kid]), p.kids[i := kid]), seen)
  {
    var ps: seq<Proc>, ms: seq<Move> :| Walks(chart, c || p.canceled, g, p.kids[i], kid, ps, ms) && KeptSights(chart, ms) == seen;
    var end := p.canceled || FailureCancels(p.node, p.kids[i := kid]);
    var qs := seq(|ps|, j requires 0 <= j < |ps| =>
      Fork(p.node, p.path, p.bb, if j < |ms| then p.canceled else end, p.kids[i := ps[j]]));
    assert p.kids[i := ps[0]] == p.kids;
    forall j | 0 <= j < |ms|
      ensures Step(c || ms[j].canceled, qs[j], ms[j].act, qs[j + 1])
    {
      BranchAdvances(c || ms[j].canceled, p, i, ps[j], ms[j].act, ps[j + 1], if j + 1 < |ms| then p.canceled else end);
    }
    assert Walks(chart, c, g, p, Fork(p.node, p.path, p.bb, end, p.kids[i := kid]), qs, ms);
  }

  lemma BranchAdvances(flag: bool, p: Proc, i: nat, from: Proc, l: Label, to: Proc, end: bool)
    requires p.Fork? && p.node.Parallel? && i < |p.kids| && (FailureCancels(p.node, p.kids) ==> p.canceled)
    requires Step(flag || p.canceled, from, l, to)
    requires end == (p.canceled || FailureCancels(p.node, p.kids[i := to])) || (!to.Done? && end == p.canceled)
    ensures Step(flag, Fork(p.node, p.path, p.bb, p.canceled, p.kids[i := from]), l,
                 Fork(p.node, p.path, p.bb, end, p.kids[i := to]))
  {
    ForkAdvances(flag, p.node, p.path, p.bb, p.canceled, p.kids, i, from, l, to);
    if !to.Done? {
      NoNewFailure(p.node, p.kids, i, to);
    }
  }

  lemma NoNewFailure(node: Node, kids: seq<Proc>, i: nat, kid: Proc)
    requires i < |kids| && !kid.Done?
    ensures FailureCancels(node, kids[i := kid]) ==> FailureCancels(node, kids)
  {
    if FailureCancels(node, kids[i := kid]) {
      var j :| 0 <= j < |kids| && kids[i := kid][j].Done? && !kids[i := kid][j].res.success;
      assert j != i && kids[j].Done? && !kids[j].res.success;
    }
  }

  lemma WayIsStep(chart: Chart, c: bool, g: bool, p: Proc, p': Proc, seen: seq<Sight>) returns (l: Label)
    requires Way(chart, c, g, p, p', seen) && (c || g)
    ensures Step(true, p, l, p') && GateTrue(chart, l) && KeptSight(chart, l) == seen
  {
    var ps: seq<Proc>, ms: seq<Move> :| Walks(chart, c, g, p, p', ps, ms) && KeptSights(chart, ms) == seen;
    l := ms[0].act;
    assert ms[..0] == [] && KeptSights(chart, ms[..0]) == [];
  }

  lemma {:induction false} Lead(
      reg: Registry, chart: Chart, z: Spot, c: bool, g: bool, p: Proc, q: Proc, l: Label, q': Proc) returns (p': Proc)
    requires Sim(reg, chart, true, z, p, q) && Step(c || g, q, l, q')
    ensures Sim(reg, chart, true, z, p', q') && Way(chart, c, g, p, p', SightOf(l))
    decreases p, 2
  {
    match p
    case Ready(_, _, _) => p' := LeadStart(reg, chart, z, c, g, p, q, l, q');
    case Busy(leaf, path, _) =>
      p' := Done(l.res, []);
      WayOfStep(chart, c, g, p, Finish(path, leaf, l.res), p');
    case Done(res, left) =>
      var left', act := LeadOne(reg, chart, left, q.left, l, q'.left);
      p' := Done(res, left');
      WayOfStep(chart, c, g, p, act, p');
    case Frame(_, _, _, _, _, _) => p' := LeadFrame(reg, chart, z, c, g, p, q, l, q');
    case Fork(_, _, _, _, _) => p' := LeadFork(reg, chart, z, c, g, p, q, l, q');
    case Guarded(_, _, _, _) => p' := LeadGuarded(reg, chart, z, c, g, p, q, l, q');
  }

  // Threads left behind run under a set flag: a step for a step.
  lemma {:induction false} LeadOne(
      reg: Registry, chart: Chart, ps: seq<Proc>, qs: seq<Proc>, l: Label, qs': seq<Proc>) returns (ps': seq<Proc>, act: Label)
    requires SimAll(reg, chart, true, ps, qs) && OneSteps(true, qs, l, qs')
    ensures SimAll(reg, chart, true, ps', qs') && OneSteps(true, ps, act, ps')
    ensures GateTrue(chart, act) && KeptSight(chart, act) == SightOf(l)
    decreases ps, 1
  {
    var i := WhichSteps(true, qs, l, qs');
    assert SimSome(reg, chart, true, ps[i], qs[i]);
    var z := SomeSpot(reg, chart, true, ps[i], qs[i]);
    var p' := Lead(reg, chart, z, true, false, ps[i], qs[i], l, qs'[i]);
    act := WayIsStep(chart, true, false, ps[i], p', SightOf(l));
    ps' := ps[i := p'];
    assert ps'[i] == p' && ps' == ps[i := ps'[i]];
    forall j | 0 <= j < |ps'|
      ensures SimSome(reg, chart, true, ps'[j], qs'[j])
    {
      if j != i {
        assert SimSome(reg, chart, true, ps[j], qs[j]);
      }
    }
  }

  lemma LeadStart(
      reg: Registry, chart: Chart, z: Spot, c: bool, g: bool, p: Proc, q: Proc, l: Label, q': Proc) returns (p': Proc)
    requires Sim(reg, chart, true, z, p, q) && p.Ready? && Step(c || g, q, l, q')
    ensures Sim(reg, chart, true, z, p', q') && Way(chart, c, g, p, p', SightOf(l))
  {
    StartsAlike(reg, chart, true, z, c || g, p, q);
    StartIs(c || g, q.node, q.path, q.bb, l, q');
    var (r, act) := StartOf(c || g, p.node, p.path, p.bb);
    StartIs(c || g, p.node, p.path, p.bb, act, r);
    p' := r;
    WayOfStep(chart, c, g, p, act, p');
  }

  lemma {:induction false} LeadFrame(
      reg: Registry, chart: Chart, z: Spot, c: bool, g: bool, p: Proc, q: Proc, l: Label, q': Proc) returns (p': Proc)
    requires Sim(reg, chart, true, z, p, q) && p.Frame? && Step(c || g, q, l, q')
    ensures Sim(reg, chart, true, z, p', q') && Way(chart, c, g, p, p', SightOf(l))
    decreases p, 1
  {
    FrameMoves(c || g, q, l, q');
    if LeftMoves(q, l, q') {
      p' := LeadLeft(reg, chart, z, c, g, p, q, l, q');
    } else if AtGate(reg, p.node, p.index) {
      p' := LeadAtGate(reg, chart, z, c, g, p, q, l, q');
    } else if q.cur.Done? && Resume(c || g, q, l, q') {
      p' := LeadResume(reg, chart, z, c, g, p, q, l, q');
    } else {
      var cur := Lead(reg, chart, SlotSpot(reg, z, p.index), c, g, p.cur, q.cur, l, q'.cur);
      p' := WithCur(p, cur);
      CurReplaced(reg, chart, z, p, q, cur, q'.cur);
      WayInFrame(chart, c, g, p, cur, SightOf(l));
    }
  }

  lemma CurReplaced(reg: Registry, chart: Chart, z: Spot, p: Proc, q: Proc, cur: Proc, cur': Proc)
    requires Sim(reg, chart, true, z, p, q) && p.Frame? && !AtGate(reg, p.node, p.index)
    requires Sim(reg, chart, true, SlotSpot(reg, z, p.index), cur, cur')
    ensures Sim(reg, chart, true, z, WithCur(p, cur), WithCur(q, cur'))
  {
  }

  lemma {:induction false} LeadLeft(
      reg: Registry, chart: Chart, z: Spot, c: bool, g: bool, p: Proc, q: Proc, l: Label, q': Proc) returns (p': Proc)
    requires Sim(reg, chart, true, z, p, q) && p.Frame? && LeftMoves(q, l, q')
    ensures Sim(reg, chart, true, z, p', q') && Way(chart, c, g, p, p', SightOf(l))
    decreases p, 0
  {
    var left', act := LeadOne(reg, chart, p.left, q.left, l, q'.left);
    p' := WithLeft(p, left');
    LeftReplaced(reg, chart, true, z, p, q, left', q'.left);
    OrphanSteps(c || g, p, act, left');
    WayOfStep(chart, c, g, p, act, p');
  }

  // What a stepwise node does when it resumes.
  function ResumeOf(flag: bool, p: Proc): (Proc, Label)
    requires p.Frame? && p.cur.Done? && p.node.IsStepwise() && p.index < p.node.Slots()
  {
    var facts, left := p.facts + p.cur.res.facts, p.left + p.cur.left;
    match After(p.node, p.index, p.cur.res, flag)
    case Continue =>
      var k := p.index + 1;
      (Frame(p.node, p.path, facts, k, left, Ready(p.node.Slot(k), SlotPath(p.node, p.path, k), facts)), Advance(p.path))
    case Stop(success, blocked, needsDecision) =>
      (Done(ExecutionResult(success, blocked, needsDecision, facts), left), Leave(p.path, p.node, p.index + 1))
  }

  lemma ResumeIs(flag: bool, p: Proc, l: Label, p': Proc)
    requires p.Frame? && p.cur.Done? && p.node.IsStepwise() && p.index < p.node.Slots()
    ensures Resume(flag, p, l, p') <==> (p', l) == ResumeOf(flag, p)
  {
  }

  lemma LeadResume(
      reg: Registry, chart: Chart, z: Spot, c: bool, g: bool, p: Proc, q: Proc, l: Label, q': Proc) returns (p': Proc)
    requires Sim(reg, chart, true, z, p, q) && p.Frame? && !AtGate(reg, p.node, p.index)
    requires q.cur.Done? && Resume(c || g, q, l, q')
    ensures Sim(reg, chart, true, z, p', q') && Way(chart, c, g, p, p', SightOf(l))
  {
    assert p.cur.Done? by {
      assert Sim(reg, chart, true, SlotSpot(reg, z, p.index), p.cur, q.cur);
    }
    var (r, act) := ResumeOf(c || g, p);
    ResumeIs(c || g, p, act, r);
    p' := r;
    ResumeMatches(reg, chart, z, c || g, p, act, p', q, l, q');
    ResumeSteps(c || g, p, act, p');
    WayOfStep(chart, c, g, p, act, p');
  }

  lemma ResumeSteps(flag: bool, p: Proc, l: Label, p': Proc)
    requires p.Frame? && p.cur.Done? && Resume(flag, p, l, p')
    ensures Step(flag, p, l, p') && SightOf(l) == [] && !l.Finish? && !l.Begin?
  {
    assert FrameStep(flag, p, l, p');
  }

  lemma ResumeMatches(
      reg: Registry, chart: Chart, z: Spot, flag: bool, p: Proc, act: Label, p': Proc, q: Proc, l: Label, q': Proc)
    requires Sim(reg, chart, true, z, p, q) && p.Frame? && !AtGate(reg, p.node, p.index)
    requires p.cur.Done? && Resume(flag, p, act, p') && q.cur.Done? && Resume(flag, q, l, q')
    ensures Sim(reg, chart, true, z, p', q') && SightOf(l) == []
  {
    var q'' := ResumedAlike(reg, chart, z, flag, p, act, p', q);
    ResumesOnce(flag, q, q', l, q'');
  }

  lemma ResumedAlike(reg: Registry, chart: Chart, z: Spot, flag: bool, p: Proc, act: Label, p': Proc, q: Proc) returns (q': Proc)
    requires Sim(reg, chart, true, z, p, q) && p.Frame? && !AtGate(reg, p.node, p.index)
    requires p.cur.Done? && Resume(flag, p, act, p') && q.cur.Done?
    ensures Sim(reg, chart, true, z, p', q') && exists l :: Resume(flag, q, l, q')
  {
    var l;
    q', l := ResumesAlike(reg, chart, true, z, flag, p, act, p', q);
  }

  lemma ResumesOnce(flag: bool, q: Proc, q': Proc, l: Label, q'': Proc)
    requires q.Frame? && q.cur.Done? && Resume(flag, q, l, q') && exists l :: Resume(flag, q, l, q'')
    ensures q'' == q' && SightOf(l) == []
  {
    var l'' :| Resume(flag, q, l'', q'');
    ResumeIs(flag, q, l, q');
    ResumeIs(flag, q, l'', q'');
  }

  lemma LeadAtGate(
      reg: Registry, chart: Chart, z: Spot, c: bool, g: bool, p: Proc, q: Proc, l: Label, q': Proc) returns (p': Proc)
    requires Sim(reg, chart, true, z, p, q) && p.Frame? && AtGate(reg, p.node, p.index)
    requires (q.cur.Done? && Resume(c || g, q, l, q')) || CurMoves(c || g, q, l, q')
    ensures Sim(reg, chart, true, z, p', q') && Way(chart, c, g, p, p', SightOf(l))
  {
    if p.cur == REFUSED {
      NothingLeft(c || g, q, l, q');
      p' := LeadRefused(reg, chart, z, c, g, p, q, l, q');
    } else if c || g {
      p' := LeadRefusal(reg, chart, z, c, g, p, q, l, q');
    } else {
      p' := LeadPastGates(reg, chart, z, p, q, l, q');
    }
  }

  lemma LeadRefusal(
      reg: Registry, chart: Chart, z: Spot, c: bool, g: bool, p: Proc, q: Proc, l: Label, q': Proc) returns (p': Proc)
    requires Sim(reg, chart, true, z, p, q) && p.Frame? && AtGate(reg, p.node, p.index) && p.cur.Ready? && (c || g)
    requires CurMoves(c || g, q, l, q')
    ensures Sim(reg, chart, true, z, p', q') && Way(chart, c, g, p, p', SightOf(l))
  {
    p' := WithCur(p, REFUSED);
    RefuseSteps(c || g, p);
    WayOfStep(chart, c, g, p, Refuse(p.cur.path, p.cur.node), p');
  }

  lemma LeadPastGates(reg: Registry, chart: Chart, z: Spot, p: Proc, q: Proc, l: Label, q': Proc) returns (p': Proc)
    requires Sim(reg, chart, true, z, p, q) && p.Frame? && AtGate(reg, p.node, p.index) && p.cur.Ready?
    requires CurMoves(false, q, l, q')
    ensures Sim(reg, chart, true, z, p', q') && Way(chart, false, false, p, p', SightOf(l))
  {
    var p1 := PassGates(reg, chart, z, p, q);
    assert Sim(reg, chart, true, SlotSpot(reg, z, p1.index), p1.cur, q.cur);
    var cur := LeadStart(reg, chart, SlotSpot(reg, z, p1.index), false, false, p1.cur, q.cur, l, q'.cur);
    p' := WithCur(p1, cur);
    CurReplaced(reg, chart, z, p1, q, cur, q'.cur);
    WayInFrame(chart, false, false, p1, cur, SightOf(l));
    WayThen(chart, p, p1, p', [], SightOf(l));
    assert [] + SightOf(l) == SightOf(l);
  }

  lemma LeadRefused(
      reg: Registry, chart: Chart, z: Spot, c: bool, g: bool, p: Proc, q: Proc, l: Label, q': Proc) returns (p': Proc)
    requires Sim(reg, chart, true, z, p, q) && p.Frame? && AtGate(reg, p.node, p.index)
    requires p.cur == REFUSED && q.cur == REFUSED && Resume(c || g, q, l, q')
    ensures Sim(reg, chart, true, z, p', q') && Way(chart, c, g, p, p', SightOf(l))
  {
    var (r, act) := ResumeOf(c || g, p);
    ResumeIs(c || g, p, act, r);
    p' := r;
    var q'', l'' := RefusedAlike(reg, chart, true, z, c || g, p, act, p', q);
    ResumesOnce(c || g, q, q', l, q'');
    ResumeSteps(c || g, p, act, p');
    WayOfStep(chart, c, g, p, act, p');
  }

  lemma NothingSeen()
    ensures var none: seq<Sight> := []; none + none == none
  {
  }

  // All the gates up to the next child that stays answer TRUE.
  lemma {:induction false} PassGates(reg: Registry, chart: Chart, z: Spot, p: Proc, q: Proc) returns (p': Proc)
    requires Sim(reg, chart, true, z, p, q) && p.Frame? && AtGate(reg, p.node, p.index) && p.cur.Ready?
    ensures p'.Frame? && p'.cur.Ready? && !AtGate(reg, p'.node, p'.index)
    ensures Sim(reg, chart, true, z, p', q) && Way(chart, false, false, p, p', [])
    decreases p.node.Slots() - p.index
  {
    var p1 := PassGate(reg, chart, z, p, q);
    if AtGate(reg, p1.node, p1.index) {
      p' := PassGates(reg, chart, z, p1, q);
      WayThen(chart, p, p1, p', [], []);
      NothingSeen();
    } else {
      p' := p1;
    }
  }

  lemma PassGate(reg: Registry, chart: Chart, z: Spot, p: Proc, q: Proc) returns (p': Proc)
    requires Sim(reg, chart, true, z, p, q) && p.Frame? && AtGate(reg, p.node, p.index) && p.cur.Ready?
    ensures p'.Frame? && p'.node == p.node && p'.index == p.index + 1 && p'.cur.Ready?
    ensures Sim(reg, chart, true, z, p', q) && Way(chart, false, false, p, p', [])
  {
    SlotMoves(reg, p.node, p.index);
    p' := Passed(p);
    GateEnds(reg, chart, z, p, q);
    GateLeaves(chart, p);
    WayThen(chart, p, WithCur(p, Done(Succeeded(p.facts), [])), p', [], []);
    NothingSeen();
    FramesAlike(reg, chart, true, z, p, q);
    PassedSim(reg, chart, true, z, p, q);
  }

  // The gate is asked and answers TRUE, unseen.
  lemma GateEnds(reg: Registry, chart: Chart, z: Spot, p: Proc, q: Proc)
    requires Sim(reg, chart, true, z, p, q) && p.Frame? && AtGate(reg, p.node, p.index) && p.cur.Ready?
    ensures Way(chart, false, false, p, WithCur(p, Done(Succeeded(p.facts), [])), [])
  {
    var gate, path := p.node.children[p.index], p.path + [p.index];
    BelowPlaced(reg, chart, z, p.index);
    var cur1, cur2 := Busy(gate, path, p.facts), Done(Succeeded(p.facts), []);
    assert Step(false, p.cur, Begin(path, gate, p.facts), cur1);
    assert LeafOutcome(gate, p.facts, Succeeded(p.facts));
    WayOfStep(chart, false, false, p.cur, Begin(path, gate, p.facts), cur1);
    WayOfStep(chart, false, false, cur1, Finish(path, gate, Succeeded(p.facts)), cur2);
    WayThen(chart, p.cur, cur1, cur2, [], []);
    NothingSeen();
    WayInFrame(chart, false, false, p, cur2, []);
  }

  lemma GateLeaves(chart: Chart, p: Proc)
    requires p.Frame? && p.node.Sequence? && p.index + 1 < |p.node.children|
    ensures Way(chart, false, false, WithCur(p, Done(Succeeded(p.facts), [])), Passed(p), [])
  {
    var p2 := WithCur(p, Done(Succeeded(p.facts), []));
    var (r, act) := ResumeOf(false, p2);
    ResumeIs(false, p2, act, r);
    PassesOn(false, p2, act, r);
    ResumeSteps(false, p2, act, r);
    WayOfStep(chart, false, false, p2, act, r);
  }

  lemma ForkIsMatched(reg: Registry, chart: Chart, lazy: bool, z: Spot, p: Proc, q: Proc)
    requires Sim(reg, chart, lazy, z, p, q) && p.Fork?
    ensures q.Fork? && q.canceled == p.canceled
  {
  }

  lemma ForkMoves(flag: bool, q: Proc, l: Label, q': Proc)
    requires q.Fork? && Step(flag, q, l, q')
    ensures q'.Fork? ==>
      && q' == Fork(q.node, q.path, q.bb, q.canceled || FailureCancels(q.node, q'.kids), q'.kids)
      && OneSteps(flag || q.canceled, q.kids, l, q'.kids)
    ensures !q'.Fork? ==>
      AllDone(q.kids) && SightOf(l) == [] && q' == Done(Merge(q.bb, Results(q.kids)), LeftBehind(q.kids))
  {
    assert ForkStep(flag, q, l, q');
  }

  lemma {:induction false} LeadFork(
      reg: Registry, chart: Chart, z: Spot, c: bool, g: bool, p: Proc, q: Proc, l: Label, q': Proc) returns (p': Proc)
    requires Sim(reg, chart, true, z, p, q) && p.Fork? && Step(c || g, q, l, q')
    ensures Sim(reg, chart, true, z, p', q') && Way(chart, c, g, p, p', SightOf(l))
    decreases p, 1
  {
    ForkIsMatched(reg, chart, true, z, p, q);
    ForkMoves(c || g, q, l, q');
    if q'.Fork? {
      var i := WhichSteps(c || g || q.canceled, q.kids, l, q'.kids);
      p' := LeadBranch(reg, chart, z, c, g, p, q, l, q', i);
    } else {
      p' := LeadJoin(reg, chart, z, c, g, p, q, q');
    }
  }

  lemma {:induction false} LeadBranch(
      reg: Registry, chart: Chart, z: Spot, c: bool, g: bool, p: Proc, q: Proc, l: Label, q': Proc, i: nat)
      returns (p': Proc)
    requires Sim(reg, chart, true, z, p, q) && p.Fork? && q'.Fork? && i < |q.kids| == |q'.kids|
    requires q'.kids == q.kids[i := q'.kids[i]]
    requires q' == Fork(q.node, q.path, q.bb, q.canceled || FailureCancels(q.node, q'.kids), q'.kids)
    requires Step((c || p.canceled) || g, q.kids[i], l, q'.kids[i])
    ensures Sim(reg, chart, true, z, p', q') && Way(chart, c, g, p, p', SightOf(l))
    decreases p, 0
  {
    var kid := Lead(reg, chart, BranchSpot(z, i), c || p.canceled, g, p.kids[i], q.kids[i], l, q'.kids[i]);
    WayInFork(chart, c, g, p, i, kid, SightOf(l));
    var kids := p.kids[i := kid];
    p' := Fork(p.node, p.path, p.bb, p.canceled || FailureCancels(p.node, kids), kids);
    assert p'.kids[i] == kid && p'.kids == p.kids[i := p'.kids[i]];
    var q'' := BranchMoved(reg, chart, true, z, p, p', q, i, q'.kids[i]);
    assert q'' == q';
  }

  lemma LeadJoin(reg: Registry, chart: Chart, z: Spot, c: bool, g: bool, p: Proc, q: Proc, q': Proc) returns (p': Proc)
    requires Sim(reg, chart, true, z, p, q) && p.Fork? && AllDone(q.kids)
    requires q' == Done(Merge(q.bb, Results(q.kids)), LeftBehind(q.kids))
    ensures Sim(reg, chart, true, z, p', q') && Way(chart, c, g, p, p', [])
  {
    KidsDone(reg, chart, z, p, q);
    p' := Done(Merge(p.bb, Results(p.kids)), LeftBehind(p.kids));
    assert Way(chart, c, g, p, p', []) by {
      JoinSteps(c || g, p);
      WayOfStep(chart, c, g, p, Join(p.path), p');
    }
    var q'', _ := Joined(reg, chart, true, z, c || g, p, p', q);
  }

  lemma KidsDone(reg: Registry, chart: Chart, z: Spot, p: Proc, q: Proc)
    requires Sim(reg, chart, true, z, p, q) && p.Fork? && AllDone(q.kids)
    ensures AllDone(p.kids)
  {
    forall i | 0 <= i < |p.kids|
      ensures p.kids[i].Done?
    {
      assert Sim(reg, chart, true, BranchSpot(z, i), p.kids[i], q.kids[i]);
    }
  }

  lemma JoinSteps(flag: bool, p: Proc)
    requires p.Fork? && AllDone(p.kids)
    ensures Step(flag, p, Join(p.path), Done(Merge(p.bb, Results(p.kids)), LeftBehind(p.kids)))
  {
    assert ForkStep(flag, p, Join(p.path), Done(Merge(p.bb, Results(p.kids)), LeftBehind(p.kids)));
  }

  lemma {:induction false} LeadGuarded(
      reg: Registry, chart: Chart, z: Spot, c: bool, g: bool, p: Proc, q: Proc, l: Label, q': Proc) returns (p': Proc)
    requires Sim(reg, chart, true, z, p, q) && p.Guarded? && Step(c || g, q, l, q')
    ensures Sim(reg, chart, true, z, p', q') && Way(chart, c, g, p, p', SightOf(l))
    decreases p, 1
  {
    assert GuardedStep(c || g, q, l, q');
    assert Sim(reg, chart, true, GuardedSpot(z), p.cur, q.cur);
    if q'.Guarded? && Step(c || g, q.cur, l, q'.cur) && q' == Guarded(q.node, q.path, q.bb, q'.cur) {
      var cur := Lead(reg, chart, GuardedSpot(z), c, g, p.cur, q.cur, l, q'.cur);
      p' := Guarded(p.node, p.path, p.bb, cur);
      WayInGuarded(chart, c, g, p, cur, SightOf(l));
    } else {
      p' := LeadReturn(reg, chart, z, c, g, p, q, l, q');
    }
  }

  lemma LeadReturn(
      reg: Registry, chart: Chart, z: Spot, c: bool, g: bool, p: Proc, q: Proc, l: Label, q': Proc) returns (p': Proc)
    requires Sim(reg, chart, true, z, p, q) && p.Guarded?
    requires
      || (q.cur.Done? && l == Join(q.path) && q' == q.cur)
      || (!q.cur.Done? && l == Fire(q.path) && q' == Done(Blocked(false, q.bb), [q.cur]))
    ensures Sim(reg, chart, true, z, p', q') && Way(chart, c, g, p, p', SightOf(l))
  {
    assert p.cur.Done? == q.cur.Done? by {
      assert Sim(reg, chart, true, GuardedSpot(z), p.cur, q.cur);
    }
    p' := if p.cur.Done? then p.cur else Done(Blocked(false, p.bb), [p.cur]);
    var act := if p.cur.Done? then Join(p.path) else Fire(p.path);
    GuardEnds(c || g, p, act, p');
    WayOfStep(chart, c, g, p, act, p');
    GuardReturnsAlike(reg, chart, z, p, p', q, q');
  }

  lemma GuardEnds(flag: bool, p: Proc, act: Label, p': Proc)
    requires p.Guarded?
    requires
      || (p.cur.Done? && act == Join(p.path) && p' == p.cur)
      || (!p.cur.Done? && act == Fire(p.path) && p' == Done(Blocked(false, p.bb), [p.cur]))
    ensures Step(flag, p, act, p')
  {
    assert GuardedStep(flag, p, act, p');
  }

  lemma GuardReturnsAlike(reg: Registry, chart: Chart, z: Spot, p: Proc, p': Proc, q: Proc, q': Proc)
    requires Sim(reg, chart, true, z, p, q) && p.Guarded?
    requires
      || (p.cur.Done? && p' == p.cur && q' == q.cur)
      || (p' == Done(Blocked(false, p.bb), [p.cur]) && q' == Done(Blocked(false, q.bb), [q.cur]))
    ensures Sim(reg, chart, true, z, p', q')
  {
    assert Sim(reg, chart, true, GuardedSpot(z), p.cur, q.cur);
    assert SimSome(reg, chart, true, [p.cur][0], [q.cur][0]);
  }

  lemma {:induction false} LeadRun(reg: Registry, root: Node, qs: seq<Proc>, ns: seq<Move>)
      returns (ps: seq<Proc>, ms: seq<Move>)
    requires IsExecution(RemoveGates(reg, root), qs, ns)
    ensures IsExecution(root, ps, ms) && GatesTrue(ChartOf(reg, root), ms)
    ensures Sim(reg, ChartOf(reg, root), true, Spot(root, [], []), ps[|ms|], qs[|ns|])
    ensures KeptSights(ChartOf(reg, root), ms) == Sights(ns)
    decreases |ns|
  {
    ChartIsConsistent(reg, root);
    if ns == [] {
      ps, ms := [Ready(root, [], map[])], [];
    } else {
      var n := |ns| - 1;
      RunLast(false, qs, ns);
      ps, ms := LeadRun(reg, root, qs[..n + 1], ns[..n]);
      var p' := Lead(reg, ChartOf(reg, root), Spot(root, [], []), false, ns[n].canceled, ps[|ms|], qs[n], ns[n].act, qs[n + 1]);
      ps, ms := RunWalksOn(reg, root, ps, ms, ns[n].canceled, p', SightOf(ns[n].act));
    }
  }

  lemma RunWalksOn(reg: Registry, root: Node, ps: seq<Proc>, ms: seq<Move>, g: bool, p': Proc, seen: seq<Sight>)
      returns (ps': seq<Proc>, ms': seq<Move>)
    requires IsExecution(root, ps, ms) && GatesTrue(ChartOf(reg, root), ms) && Way(ChartOf(reg, root), false, g, ps[|ms|], p', seen)
    ensures IsExecution(root, ps', ms') && GatesTrue(ChartOf(reg, root), ms') && ps'[|ms'|] == p'
    ensures KeptSights(ChartOf(reg, root), ms') == KeptSights(ChartOf(reg, root), ms) + seen
  {
    var qs: seq<Proc>, ns: seq<Move> :| Walks(ChartOf(reg, root), false, g, ps[|ms|], p', qs, ns) && KeptSights(ChartOf(reg, root), ns) == seen;
    ps', ms' := ps[..|ms|] + qs, ms + ns;
    RunThen(ChartOf(reg, root), root, g, ps, ms, p', qs, ns);
    GatherConcat(Keeping(ChartOf(reg, root)), ms, ns);
  }

  lemma RunThen(
      chart: Chart, root: Node, g: bool, ps: seq<Proc>, ms: seq<Move>, p': Proc, qs: seq<Proc>, ns: seq<Move>)
    requires IsExecution(root, ps, ms) && GatesTrue(chart, ms) && Walks(chart, false, g, ps[|ms|], p', qs, ns)
    ensures
      var rs, ks := ps[..|ms|] + qs, ms + ns;
      IsExecution(root, rs, ks) && GatesTrue(chart, ks) && rs[|ks|] == p'
  {
    var rs, ks := ps[..|ms|] + qs, ms + ns;
    forall i | 0 <= i < |ks|
      ensures Step(ks[i].canceled, rs[i], ks[i].act, rs[i + 1]) && GateTrue(chart, ks[i].act)
    {
      if i >= |ms| {
        assert rs[i] == qs[i - |ms|] && rs[i + 1] == qs[i + 1 - |ms|] && ks[i] == ns[i - |ms|];
      }
    }
  }

  // And every run of the rewritten plan is such a run of the plan: the removal
  // adds none.
  lemma RemovalAddsNoRuns(reg: Registry, root: Node, qs: seq<Proc>, ns: seq<Move>)
      returns (ps: seq<Proc>, ms: seq<Move>)
    requires IsExecution(RemoveGates(reg, root), qs, ns)
    ensures IsExecution(root, ps, ms) && GatesTrue(ChartOf(reg, root), ms)
    ensures KeptSights(ChartOf(reg, root), ms) == Sights(ns) && SameEnd(ps[|ms|], qs[|ns|])
  {
    ps, ms := LeadRun(reg, root, qs, ns);
  }
}
