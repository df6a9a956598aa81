// The recursive executor against its flat trace: the flags of the root, the
// leaf that stops a run and the blackboard are all read off the leaves visited.
module ResultFlags {
  import opened BehaviourTree
  import opened Interleaving

  datatype Flag = BlockedFlag | DecisionFlag

  predicate Has(flag: Flag, r: ExecutionResult) {
    match flag
    case BlockedFlag => r.blocked
    case DecisionFlag => r.needsDecision
  }

  // The flag as it stands in a thread: raised by a call that is over, not yet
  // returned to its caller.
  predicate Raised(flag: Flag, p: Proc)
    decreases p
  {
    match p
    case Ready(_, _, _) => false
    case Busy(_, _, _) => false
    case Done(res, _) => Has(flag, res)
    case Frame(_, _, _, _, _, cur) => Raised(flag, cur)
    case Fork(_, _, _, _, kids) => exists i :: 0 <= i < |kids| && Raised(flag, kids[i])
    case Guarded(_, _, _, cur) => Raised(flag, cur)
  }

  predicate RaisedBy(flag: Flag, l: Label) {
    l.Finish? && Has(flag, l.res)
  }

  // Finished calls are coherent, and no thread has outlived its call.
  predicate Tame(p: Proc)
    decreases p
  {
    match p
    case Ready(_, _, _) => true
    case Busy(_, _, _) => true
    case Done(res, left) => Coherent(res) && left == []
    case Frame(_, _, _, _, left, cur) => left == [] && Tame(cur)
    case Fork(_, _, _, _, kids) => forall i :: 0 <= i < |kids| ==> Tame(kids[i])
    case Guarded(_, _, _, cur) => Tame(cur)
  }

  lemma {:induction false} NobodyLeft(ps: seq<Proc>)
    requires AllDone(ps) && forall i :: 0 <= i < |ps| ==> Tame(ps[i])
    ensures LeftBehind(ps) == []
  {
    if ps != [] {
      assert Tame(ps[0]);
      NobodyLeft(ps[1..]);
    }
  }

  // While no Timeout fires, a step raises a flag exactly when a leaf finishes
  // with it, and no step lowers one.
  lemma {:induction false} StepFlags(flag: Flag, canceled: bool, p: Proc, l: Label, q: Proc)
    requires Tame(p) && Step(canceled, p, l, q) && !l.Fire?
    ensures Tame(q)
    ensures Raised(flag, q) <==> Raised(flag, p) || RaisedBy(flag, l)
    decreases p
  {
    match p
    case Ready(_, _, _) =>
    case Busy(leaf, _, bb) => LeafOutcomeCoherent(leaf, bb, l.res);
    case Done(_, _) =>
    case Frame(_, _, _, _, _, cur) =>
      LoneFrame(canceled, p, l, q);
      if cur.Done? && Resume(canceled, p, l, q) {
        ResumeFlags(flag, canceled, p, l, q);
      } else {
        StepFlags(flag, canceled, cur, l, q.cur);
      }
    case Fork(_, _, bb, _, kids) =>
      assert ForkStep(canceled, p, l, q);
      if q.Fork? {
        BranchFlags(flag, canceled, p, l, q);
      } else {
        NobodyLeft(kids);
        JoinFlag(flag, bb, kids);
      }
    case Guarded(_, _, _, cur) =>
      if q.Guarded? {
        StepFlags(flag, canceled, cur, l, q.cur);
      }
  }

  lemma {:induction false} BranchFlags(flag: Flag, canceled: bool, p: Proc, l: Label, q: Proc)
    requires Tame(p) && p.Fork? && q.Fork? && !l.Fire? && q.node == p.node
    requires OneSteps(canceled || p.canceled, p.kids, l, q.kids)
    ensures Tame(q)
    ensures Raised(flag, q) <==> Raised(flag, p) || RaisedBy(flag, l)
    decreases p, 0
  {
    var i := WhichSteps(canceled || p.canceled, p.kids, l, q.kids);
    StepFlags(flag, canceled || p.canceled, p.kids[i], l, q.kids[i]);
    ForkFlag(flag, p.kids, i, q.kids);
  }

  lemma ResumeFlags(flag: Flag, canceled: bool, p: Proc, l: Label, q: Proc)
    requires p.Frame? && Tame(p) && p.cur.Done? && Resume(canceled, p, l, q)
    ensures Tame(q) && !RaisedBy(flag, l)
    ensures Raised(flag, q) <==> Raised(flag, p)
  {
    assert Tame(p.cur) && p.left + p.cur.left == [];
    assert Raised(flag, p) == Raised(flag, p.cur) == Has(flag, p.cur.res);
  }

  lemma ForkFlag(flag: Flag, kids: seq<Proc>, i: nat, kids': seq<Proc>)
    requires i < |kids| == |kids'| && kids' == kids[i := kids'[i]]
    requires Raised(flag, kids[i]) ==> Raised(flag, kids'[i])
    ensures (exists k :: 0 <= k < |kids'| && Raised(flag, kids'[k]))
       <==> (exists k :: 0 <= k < |kids| && Raised(flag, kids[k])) || Raised(flag, kids'[i])
  {
    assert forall k :: 0 <= k < |kids| && k != i ==> kids'[k] == kids[k];
  }

  lemma JoinFlag(flag: Flag, bb: Facts, kids: seq<Proc>)
    requires AllDone(kids) && forall i :: 0 <= i < |kids| ==> Tame(kids[i])
    ensures Coherent(Merge(bb, Results(kids)))
    ensures Has(flag, Merge(bb, Results(kids))) <==> exists i :: 0 <= i < |kids| && Raised(flag, kids[i])
  {
    var rs := Results(kids);
    assert forall i :: 0 <= i < |kids| ==> rs[i] == kids[i].res && Tame(kids[i]);
    MergeFlags(bb, rs);
    if flag == BlockedFlag {
      assert forall i :: 0 <= i < |kids| ==> (rs[i].blocked <==> Raised(flag, kids[i]));
    } else {
      assert forall i :: 0 <= i < |kids| ==> (rs[i].needsDecision <==> Raised(flag, kids[i]));
    }
  }

  predicate NoTimeoutFires(ms: seq<Move>) {
    forall i :: 0 <= i < |ms| ==> !ms[i].act.Fire?
  }

  lemma {:induction false} RunFlags(flag: Flag, canceled: bool, ps: seq<Proc>, ms: seq<Move>)
    requires IsRun(canceled, ps, ms) && ps[0].Ready? && NoTimeoutFires(ms)
    ensures Tame(ps[|ms|])
    ensures Raised(flag, ps[|ms|]) <==> exists i :: 0 <= i < |ms| && RaisedBy(flag, ms[i].act)
    decreases |ms|
  {
    if |ms| > 0 {
      var n := |ms| - 1;
      RunLast(canceled, ps, ms);
      RunFlags(flag, canceled, ps[..n + 1], ms[..n]);
      StepFlags(flag, canceled || ms[n].canceled, ps[n], ms[n].act, ps[n + 1]);
      assert forall i :: 0 <= i < n ==> ms[..n][i] == ms[i];
    }
  }

  // The root is blocked (asks for a decision) exactly when some visited leaf did,
  // in every interleaving and under every cancellation.
  lemma RootFlagsAreLeafFlags(root: Node, ps: seq<Proc>, ms: seq<Move>)
    requires IsExecution(root, ps, ms) && ps[|ms|].Done? && NoTimeoutFires(ms)
    ensures ps[|ms|].res.blocked <==> exists i :: 0 <= i < |ms| && ms[i].act.Finish? && ms[i].act.res.blocked
    ensures ps[|ms|].res.needsDecision <==>
      exists i :: 0 <= i < |ms| && ms[i].act.Finish? && ms[i].act.res.needsDecision
  {
    RunFlags(BlockedFlag, false, ps, ms);
    RunFlags(DecisionFlag, false, ps, ms);
    assert forall i :: 0 <= i < |ms| ==>
      (RaisedBy(BlockedFlag, ms[i].act) <==> ms[i].act.Finish? && ms[i].act.res.blocked);
    assert forall i :: 0 <= i < |ms| ==>
      (RaisedBy(DecisionFlag, ms[i].act) <==> ms[i].act.Finish? && ms[i].act.res.needsDecision);
  }

  // ---- Trees without Parallel: one thread, so more can be said.

  // One thread at work; `base` is the blackboard its caller handed over, and
  // every blackboard further in extends it.
  predicate Single(base: Facts, p: Proc)
    decreases p
  {
    match p
    case Ready(node, _, bb) => ParallelFree(node) && bb == base
    case Busy(_, _, bb) => bb == base
    case Done(_, _) => true
    case Frame(node, _, facts, index, left, cur) =>
      && ParallelFree(node) && node.IsStepwise() && index < node.Slots()
      && base.Keys <= facts.Keys
      && Single(facts, cur)
    case Fork(_, _, _, _, _) => false
    case Guarded(node, _, bb, cur) => bb == base && Single(bb, cur)
  }

  // The blackboard as the thread sees it now.
  function View(base: Facts, p: Proc): Facts
    decreases p
  {
    match p
    case Ready(_, _, bb) => bb
    case Busy(_, _, bb) => bb
    case Done(res, _) => base + res.facts
    case Frame(_, _, facts, _, _, cur) => View(facts, cur)
    case Fork(_, _, bb, _, _) => bb
    case Guarded(_, _, bb, cur) => View(bb, cur)
  }

  // What a leaf adds to the blackboard.
  function Delta(l: Label): Facts {
    if l.Finish? then l.res.facts else map[]
  }

  lemma ParallelFreeBelow(node: Node)
    requires ParallelFree(node)
    ensures !node.Parallel?
    ensures node.IsStepwise() ==> forall k :: 0 <= k < node.Slots() ==> ParallelFree(node.Slot(k))
    ensures node.Timeout? ==> ParallelFree(node.child)
  {
    var p := (n: Node) => n.Parallel?;
    if node.Sequence? || node.Fallback? {
      assert !AnyContains(node.children, p);
    }
  }

  lemma ResumeView(base: Facts, canceled: bool, p: Proc, l: Label, q: Proc)
    requires p.Frame? && Single(base, p) && Tame(p) && p.cur.Done? && Resume(canceled, p, l, q)
    ensures Single(base, q) && View(base, q) == View(base, p) + Delta(l)
    ensures !l.Begin? && !l.Enter? && !l.Refuse? && !l.Finish?
  {
    ParallelFreeBelow(p.node);
    var merged := p.facts + p.cur.res.facts;
    assert base + merged == merged;
    assert View(base, p) == View(p.facts, p.cur) == merged;
  }

  // In a Parallel-free tree, while no Timeout fires: each step updates the view by
  // the facts of the leaf that finished, a leaf begins on exactly the view, and
  // once a blocked result is on its way up no further call is entered.
  lemma {:induction false} StepView(base: Facts, canceled: bool, p: Proc, l: Label, q: Proc)
    requires Single(base, p) && Tame(p) && Step(canceled, p, l, q) && !l.Fire?
    ensures Single(base, q)
    ensures View(base, q) == View(base, p) + Delta(l)
    ensures l.Begin? ==> l.bb == View(base, p)
    ensures Raised(BlockedFlag, p) ==> !l.Begin? && !l.Enter? && !l.Refuse? && !l.Finish?
    decreases p
  {
    match p
    case Ready(node, _, _) => ParallelFreeBelow(node);
    case Busy(_, _, _) =>
    case Done(_, _) =>
    case Frame(node, _, facts, _, left, cur) =>
      LoneFrame(canceled, p, l, q);
      if cur.Done? && Resume(canceled, p, l, q) {
        ResumeView(base, canceled, p, l, q);
      } else {
        StepView(facts, canceled, cur, l, q.cur);
      }
    case Guarded(_, _, bb, cur) =>
      if q.Guarded? {
        StepView(bb, canceled, cur, l, q.cur);
      }
  }

  // The left fold of the facts of the leaves finished so far.
  function Fold(ms: seq<Move>): Facts {
    if ms == [] then map[] else Fold(ms[..|ms| - 1]) + Delta(ms[|ms| - 1].act)
  }

  lemma {:induction false} RunView(root: Node, ps: seq<Proc>, ms: seq<Move>)
    requires ParallelFree(root) && IsExecution(root, ps, ms) && NoTimeoutFires(ms)
    ensures Tame(ps[|ms|]) && Single(map[], ps[|ms|]) && View(map[], ps[|ms|]) == Fold(ms)
    decreases |ms|
  {
    if |ms| > 0 {
      var n := |ms| - 1;
      RunLast(false, ps, ms);
      RunView(root, ps[..n + 1], ms[..n]);
      StepView(map[], ms[n].canceled, ps[n], ms[n].act, ps[n + 1]);
      StepFlags(BlockedFlag, ms[n].canceled, ps[n], ms[n].act, ps[n + 1]);
    }
  }

  // The fact fold: every leaf starts from the fold of the leaves before it, and
  // the facts of the root are the fold of all of them.
  lemma BlackboardIsFold(root: Node, ps: seq<Proc>, ms: seq<Move>, n: nat)
    requires ParallelFree(root) && IsExecution(root, ps, ms) && NoTimeoutFires(ms)
    requires n < |ms|
    ensures ms[n].act.Begin? ==> ms[n].act.bb == Fold(ms[..n])
    ensures ps[|ms|].Done? ==> ps[|ms|].res.facts == Fold(ms)
  {
    LeafSeesFold(root, ps, ms, n);
    RunView(root, ps, ms);
    assert ps[|ms|].Done? ==> View(map[], ps[|ms|]) == map[] + ps[|ms|].res.facts == ps[|ms|].res.facts;
  }

  lemma LeafSeesFold(root: Node, ps: seq<Proc>, ms: seq<Move>, n: nat)
    requires ParallelFree(root) && IsExecution(root, ps, ms) && NoTimeoutFires(ms) && n < |ms|
    ensures ms[n].act.Begin? ==> ms[n].act.bb == Fold(ms[..n])
  {
    RunPrefix(false, ps, ms, n);
    RunView(root, ps[..n + 1], ms[..n]);
    StepView(map[], ms[n].canceled, ps[n], ms[n].act, ps[n + 1]);
  }

  // No leaf runs after the first blocked one.
  lemma FirstBlockedIsLast(root: Node, ps: seq<Proc>, ms: seq<Move>, i: nat, j: nat)
    requires ParallelFree(root) && IsExecution(root, ps, ms) && NoTimeoutFires(ms)
    requires i < j < |ms| && ms[i].act.Finish? && ms[i].act.res.blocked
    ensures !ms[j].act.Begin? && !ms[j].act.Finish?
  {
    RunPrefix(false, ps, ms, j);
    RunFlags(BlockedFlag, false, ps[..j + 1], ms[..j]);
    assert RaisedBy(BlockedFlag, ms[..j][i].act);
    RunView(root, ps[..j + 1], ms[..j]);
    StepView(map[], ms[j].canceled, ps[j], ms[j].act, ps[j + 1]);
  }
}
