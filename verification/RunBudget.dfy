// What a run may cost. A meter prices execute() calls, leaves begun and leaves
// finished; for every meter, a conservation law over the small-step semantics
// says that what was spent, what was skipped and what is outstanding always add
// up to the static count of the tree.
module RunBudget {
  import opened BehaviourTree
  import opened Interleaving

  datatype Meter = Meter(visit: real, begin: Node -> real, finish: real)

  // The static count of a subtree: one visit and everything inside it, where a
  // Retry counts its child once per attempt.
  function Tally(m: Meter, node: Node): real
    decreases node, 2, 0
  {
    m.visit + Inside(m, node)
  }

  function Inside(m: Meter, node: Node): real
    decreases node, 1, 0
  {
    if node.IsLeaf() then m.begin(node) + m.finish
    else if node.IsStepwise() then SlotsFrom(m, node, 0)
    else if node.Parallel? then BranchesFrom(m, node.children, 0)
    else Tally(m, node.child)
  }

  function SlotsFrom(m: Meter, node: Node, k: nat): real
    requires node.IsStepwise()
    decreases node, 0, node.Slots() - k
  {
    if k >= node.Slots() then 0.0 else Tally(m, node.Slot(k)) + SlotsFrom(m, node, k + 1)
  }

  function BranchesFrom(m: Meter, nodes: seq<Node>, k: nat): real
    decreases nodes, 0, |nodes| - k
  {
    if k >= |nodes| then 0.0 else Tally(m, nodes[k]) + BranchesFrom(m, nodes, k + 1)
  }

  // What a step spends.
  function Spent(m: Meter, l: Label): real {
    match l
    case Enter(_, _) => m.visit
    case Begin(_, leaf, _) => m.visit + m.begin(leaf)
    case Refuse(_, _) => m.visit
    case Reject(_, _) => m.visit
    case Finish(_, _, _) => m.finish
    case _ => 0.0
  }

  // What a step gives up for good.
  function Skipped(m: Meter, l: Label): real {
    match l
    case Refuse(_, node) => Inside(m, node)
    case Reject(_, node) => Inside(m, node)
    case Leave(_, node, from) => if node.IsStepwise() then SlotsFrom(m, node, from) else 0.0
    case _ => 0.0
  }

  // What a thread may still spend.
  function Outstanding(m: Meter, p: Proc): real
    decreases p, 1
  {
    match p
    case Ready(node, _, _) => Tally(m, node)
    case Busy(_, _, _) => m.finish
    case Done(_, left) => OutstandingIn(m, left)
    case Frame(node, _, _, index, left, cur) =>
      OutstandingIn(m, left) + Outstanding(m, cur)
      + (if node.IsStepwise() then SlotsFrom(m, node, index + 1) else 0.0)
    case Fork(_, _, _, _, kids) => OutstandingIn(m, kids)
    case Guarded(_, _, _, cur) => Outstanding(m, cur)
  }

  function OutstandingIn(m: Meter, ps: seq<Proc>): real
    decreases ps, 0
  {
    if ps == [] then 0.0 else Outstanding(m, ps[0]) + OutstandingIn(m, ps[1..])
  }

  lemma {:induction false} OutstandingUpdate(m: Meter, ps: seq<Proc>, i: nat, q: Proc)
    requires i < |ps|
    ensures OutstandingIn(m, ps[i := q]) + Outstanding(m, ps[i]) == OutstandingIn(m, ps) + Outstanding(m, q)
  {
    if i > 0 {
      assert ps[i := q][1..] == ps[1..][i - 1 := q];
      OutstandingUpdate(m, ps[1..], i - 1, q);
    } else {
      assert ps[i := q][1..] == ps[1..];
    }
  }

  lemma {:induction false} OutstandingConcat(m: Meter, ps: seq<Proc>, qs: seq<Proc>)
    ensures OutstandingIn(m, ps + qs) == OutstandingIn(m, ps) + OutstandingIn(m, qs)
  {
    if ps == [] {
      assert ps + qs == qs;
    } else {
      assert (ps + qs)[1..] == ps[1..] + qs;
      OutstandingConcat(m, ps[1..], qs);
    }
  }

  lemma {:induction false} OutstandingLeftBehind(m: Meter, ps: seq<Proc>)
    requires AllDone(ps)
    ensures OutstandingIn(m, LeftBehind(ps)) == OutstandingIn(m, ps)
  {
    if ps != [] {
      OutstandingConcat(m, ps[0].left, LeftBehind(ps[1..]));
      OutstandingLeftBehind(m, ps[1..]);
    }
  }

  lemma {:induction false} OutstandingBranches(m: Meter, node: Node, path: Path, bb: Facts, k: nat)
    requires node.Parallel? && k <= |node.children|
    ensures OutstandingIn(m, Branches(node, path, bb)[k..]) == BranchesFrom(m, node.children, k)
    decreases |node.children| - k
  {
    if k < |node.children| {
      var kids := Branches(node, path, bb);
      assert kids[k..][1..] == kids[k + 1..];
      OutstandingBranches(m, node, path, bb, k + 1);
    }
  }

  predicate Conserves(m: Meter, before: real, l: Label, after: real) {
    before == after + Spent(m, l) + Skipped(m, l)
  }

  // The conservation law for one step.
  lemma {:induction false} StepConserves(m: Meter, canceled: bool, p: Proc, l: Label, q: Proc)
    requires Step(canceled, p, l, q)
    ensures Conserves(m, Outstanding(m, p), l, Outstanding(m, q))
    decreases p, 2
  {
    match p
    case Ready(_, _, _) => StartConserves(m, canceled, p, l, q);
    case Busy(_, _, _) =>
    case Done(_, left) => OneConserves(m, true, left, l, q.left);
    case Frame(_, _, _, _, _, _) => FrameConserves(m, canceled, p, l, q);
    case Fork(_, _, _, _, kids) =>
      if q.Fork? {
        OneConserves(m, canceled || p.canceled, kids, l, q.kids);
      } else {
        OutstandingLeftBehind(m, kids);
      }
    case Guarded(_, _, _, cur) =>
      if q.Guarded? {
        StepConserves(m, canceled, cur, l, q.cur);
      } else if l.Fire? {
        assert OutstandingIn(m, [cur]) == Outstanding(m, cur) + OutstandingIn(m, [cur][1..]);
      }
  }

  lemma StartConserves(m: Meter, canceled: bool, p: Proc, l: Label, q: Proc)
    requires p.Ready? && Start(canceled, p.node, p.path, p.bb, l, q)
    ensures Conserves(m, Outstanding(m, p), l, Outstanding(m, q))
  {
    if q.Fork? {
      OutstandingBranches(m, p.node, p.path, p.bb, 0);
      assert q.kids[0..] == q.kids;
    } else if q.Frame? {
      assert Inside(m, p.node) == SlotsFrom(m, p.node, 0);
      assert SlotsFrom(m, p.node, 0) == Tally(m, p.node.Slot(0)) + SlotsFrom(m, p.node, 1);
    } else if q.Guarded? {
      assert Inside(m, p.node) == Tally(m, p.node.child);
    } else {
      assert Tally(m, p.node) == m.visit + Inside(m, p.node);
    }
  }

  lemma {:induction false} FrameConserves(m: Meter, canceled: bool, p: Proc, l: Label, q: Proc)
    requires p.Frame? && FrameStep(canceled, p, l, q)
    ensures Conserves(m, Outstanding(m, p), l, Outstanding(m, q))
    decreases p, 1
  {
    if p.cur.Done? && Resume(canceled, p, l, q) {
      OutstandingConcat(m, p.left, p.cur.left);
      if q.Frame? {
        assert SlotsFrom(m, p.node, q.index) == Tally(m, p.node.Slot(q.index)) + SlotsFrom(m, p.node, q.index + 1);
      }
    } else if Step(canceled, p.cur, l, q.cur) && q.left == p.left {
      StepConserves(m, canceled, p.cur, l, q.cur);
    } else {
      OneConserves(m, true, p.left, l, q.left);
    }
  }

  lemma {:induction false} OneConserves(m: Meter, canceled: bool, ps: seq<Proc>, l: Label, qs: seq<Proc>)
    requires OneSteps(canceled, ps, l, qs)
    ensures Conserves(m, OutstandingIn(m, ps), l, OutstandingIn(m, qs))
    decreases ps, 0
  {
    var i :| 0 <= i < |ps| && qs == ps[i := qs[i]] && Step(canceled, ps[i], l, qs[i]);
    StepConserves(m, canceled, ps[i], l, qs[i]);
    OutstandingUpdate(m, ps, i, qs[i]);
  }

  function TotalSpent(m: Meter, ms: seq<Move>): real {
    if ms == [] then 0.0 else TotalSpent(m, ms[..|ms| - 1]) + Spent(m, ms[|ms| - 1].act)
  }

  function TotalSkipped(m: Meter, ms: seq<Move>): real {
    if ms == [] then 0.0 else TotalSkipped(m, ms[..|ms| - 1]) + Skipped(m, ms[|ms| - 1].act)
  }

  // Over a whole run, whatever the interleaving: spent, skipped and outstanding
  // work add up to the static count of the tree.
  lemma {:induction false} RunConserves(m: Meter, root: Node, ps: seq<Proc>, ms: seq<Move>)
    requires IsExecution(root, ps, ms)
    ensures Tally(m, root) == TotalSpent(m, ms) + TotalSkipped(m, ms) + Outstanding(m, ps[|ms|])
    decreases |ms|
  {
    if |ms| > 0 {
      var n := |ms| - 1;
      RunLast(false, ps, ms);
      RunConserves(m, root, ps[..n + 1], ms[..n]);
      StepConserves(m, ms[n].canceled, ps[n], ms[n].act, ps[n + 1]);
    }
  }

  // Prices that are never negative leave nothing negative to skip or to spend.
  ghost predicate Frugal(m: Meter) {
    m.visit >= 0.0 && m.finish >= 0.0 && forall n :: m.begin(n) >= 0.0
  }

  lemma {:induction false} TallyNonNegative(m: Meter, node: Node)
    requires Frugal(m)
    ensures Tally(m, node) >= 0.0 && Inside(m, node) >= 0.0
    decreases node, 1, 0
  {
    if node.IsStepwise() {
      SlotsNonNegative(m, node, 0);
    } else if node.Parallel? {
      BranchesNonNegative(m, node.children, 0);
    } else if node.Timeout? {
      TallyNonNegative(m, node.child);
    }
  }

  lemma {:induction false} SlotsNonNegative(m: Meter, node: Node, k: nat)
    requires Frugal(m) && node.IsStepwise()
    ensures SlotsFrom(m, node, k) >= 0.0
    decreases node, 0, node.Slots() - k
  {
    if k < node.Slots() {
      TallyNonNegative(m, node.Slot(k));
      SlotsNonNegative(m, node, k + 1);
    }
  }

  lemma {:induction false} BranchesNonNegative(m: Meter, nodes: seq<Node>, k: nat)
    requires Frugal(m)
    ensures BranchesFrom(m, nodes, k) >= 0.0
    decreases nodes, 0, |nodes| - k
  {
    if k < |nodes| {
      TallyNonNegative(m, nodes[k]);
      BranchesNonNegative(m, nodes, k + 1);
    }
  }

  lemma {:induction false} OutstandingNonNegative(m: Meter, p: Proc)
    requires Frugal(m)
    ensures Outstanding(m, p) >= 0.0
    decreases p, 1
  {
    match p
    case Ready(node, _, _) => TallyNonNegative(m, node);
    case Busy(_, _, _) =>
    case Done(_, left) => OutstandingInNonNegative(m, left);
    case Frame(node, _, _, index, left, cur) =>
      OutstandingInNonNegative(m, left);
      OutstandingNonNegative(m, cur);
      if node.IsStepwise() {
        SlotsNonNegative(m, node, index + 1);
      }
    case Fork(_, _, _, _, kids) => OutstandingInNonNegative(m, kids);
    case Guarded(_, _, _, cur) => OutstandingNonNegative(m, cur);
  }

  lemma {:induction false} OutstandingInNonNegative(m: Meter, ps: seq<Proc>)
    requires Frugal(m)
    ensures OutstandingIn(m, ps) >= 0.0
    decreases ps, 0
  {
    if ps != [] {
      OutstandingNonNegative(m, ps[0]);
      OutstandingInNonNegative(m, ps[1..]);
    }
  }

  lemma {:induction false} SkippedNonNegative(m: Meter, ms: seq<Move>)
    requires Frugal(m)
    ensures TotalSkipped(m, ms) >= 0.0
    decreases |ms|
  {
    if ms != [] {
      var l := ms[|ms| - 1].act;
      SkippedNonNegative(m, ms[..|ms| - 1]);
      if l.Refuse? || l.Reject? {
        TallyNonNegative(m, l.node);
      } else if l.Leave? && l.node.IsStepwise() {
        SlotsNonNegative(m, l.node, l.from);
      }
    }
  }

  // No run spends more than the static count.
  lemma RunWithinTally(m: Meter, root: Node, ps: seq<Proc>, ms: seq<Move>)
    requires Frugal(m) && IsExecution(root, ps, ms)
    ensures TotalSpent(m, ms) <= Tally(m, root)
  {
    RunConserves(m, root, ps, ms);
    SkippedNonNegative(m, ms);
    OutstandingNonNegative(m, ps[|ms|]);
  }

  // Counting labels, the way an observer of the run would.
  function Count(p: Label -> bool, ms: seq<Move>): nat {
    if ms == [] then 0
    else Count(p, ms[..|ms| - 1]) + if p(ms[|ms| - 1].act) then 1 else 0
  }

  predicate IsVisit(l: Label) {
    l.Enter? || l.Begin? || l.Refuse? || l.Reject?
  }

  function NODE_VISITS(): Meter {
    Meter(1.0, n => 0.0, 0.0)
  }

  // Prices one for every leaf of a kind.
  function LeafMeter(kind: Node -> bool): Meter {
    Meter(0.0, n => if kind(n) then 1.0 else 0.0, 0.0)
  }

  function LEAVES_DONE(): Meter {
    Meter(0.0, n => 0.0, 1.0)
  }

  lemma {:induction false} SpentIsVisits(ms: seq<Move>)
    ensures TotalSpent(NODE_VISITS(), ms) == Count(IsVisit, ms) as real
  {
    if ms != [] {
      SpentIsVisits(ms[..|ms| - 1]);
    }
  }

  lemma {:induction false} SpentIsBegins(kind: Node -> bool, ms: seq<Move>)
    ensures TotalSpent(LeafMeter(kind), ms) == Count((l: Label) => l.Begin? && kind(l.leaf), ms) as real
  {
    if ms != [] {
      SpentIsBegins(kind, ms[..|ms| - 1]);
    }
  }

  lemma {:induction false} SpentIsFinishes(ms: seq<Move>)
    ensures TotalSpent(LEAVES_DONE(), ms) == Count((l: Label) => l.Finish?, ms) as real
  {
    if ms != [] {
      SpentIsFinishes(ms[..|ms| - 1]);
    }
  }
}
