// Progress accounting: leaves run to their end over the static leaf count.
module Progress {
  import opened Common
  import opened SkillRegistry
  import opened BehaviourTree
  import opened Validator
  import opened Interleaving
  import opened RunBudget

  // _count_progress_leaves.
  function CountProgressLeaves(node: Node): nat
    decreases node, 1
  {
    match node
    case Sequence(_, children) => CountAll(children)
    case Fallback(_, children) => CountAll(children)
    case Parallel(_, children, _) => CountAll(children)
    case Retry(_, n, child) => (if n < 1 then 1 else n) * CountProgressLeaves(child)
    case Timeout(_, _, child) => CountProgressLeaves(child)
    case _ => 1
  }

  function CountAll(nodes: seq<Node>): nat
    decreases nodes, 0
  {
    if nodes == [] then 0 else CountProgressLeaves(nodes[0]) + CountAll(nodes[1..])
  }

  // completed / max(1, total), clamped to [0, 1] as the source clamps it.
  function Fraction(completed: nat, total: nat): real {
    var raw := completed as real / Max(1, total) as real;
    if raw < 0.0 then 0.0 else if raw > 1.0 then 1.0 else raw
  }

  function Completed(ms: seq<Move>): nat {
    Count((l: Label) => l.Finish?, ms)
  }

  // The leaf count is what the run's leaf meter adds up to, and no validated
  // subtree is without a leaf.
  lemma {:induction false} CountIsTally(reg: Registry, known: set<string>, node: Node)
    requires Validated(reg, known, node)
    ensures CountProgressLeaves(node) as real == Tally(LEAVES_DONE(), node)
    ensures CountProgressLeaves(node) >= 1
    decreases node, 1
  {
    match node
    case Sequence(_, children) =>
      assert AllValidated(reg, known, children);
      SlotsCount(reg, known, node, 0);
      assert children[0..] == children;
    case Fallback(_, children) =>
      assert AllValidated(reg, known, children);
      SlotsCount(reg, known, node, 0);
      assert children[0..] == children;
    case Parallel(_, children, _) =>
      assert AllValidated(reg, known, children);
      BranchesCount(reg, known, node, 0);
      assert children[0..] == children;
    case Retry(_, n, child) =>
      CountIsTally(reg, known, child);
      AttemptsCount(node, 0);
    case Timeout(_, _, child) =>
      CountIsTally(reg, known, child);
    case _ =>
  }

  lemma {:induction false} SlotsCount(reg: Registry, known: set<string>, node: Node, k: nat)
    requires (node.Sequence? || node.Fallback?) && AllValidated(reg, known, node.children)
    requires k <= |node.children|
    ensures CountAll(node.children[k..]) as real == SlotsFrom(LEAVES_DONE(), node, k)
    ensures k < |node.children| ==> CountAll(node.children[k..]) >= 1
    decreases node, 0, |node.children| - k
  {
    if k < |node.children| {
      assert node.children[k..][1..] == node.children[k + 1..];
      CountIsTally(reg, known, node.children[k]);
      SlotsCount(reg, known, node, k + 1);
    }
  }

  lemma {:induction false} BranchesCount(reg: Registry, known: set<string>, node: Node, k: nat)
    requires node.Parallel? && AllValidated(reg, known, node.children)
    requires k <= |node.children|
    ensures CountAll(node.children[k..]) as real == BranchesFrom(LEAVES_DONE(), node.children, k)
    ensures k < |node.children| ==> CountAll(node.children[k..]) >= 1
    decreases node, 0, |node.children| - k
  {
    if k < |node.children| {
      assert node.children[k..][1..] == node.children[k + 1..];
      CountIsTally(reg, known, node.children[k]);
      BranchesCount(reg, known, node, k + 1);
    }
  }

  lemma {:induction false} AttemptsCount(node: Node, k: nat)
    requires node.Retry? && k <= node.Slots()
    requires CountProgressLeaves(node.child) as real == Tally(LEAVES_DONE(), node.child)
    ensures SlotsFrom(LEAVES_DONE(), node, k) == ((node.Slots() - k) * CountProgressLeaves(node.child)) as real
    decreases node.Slots() - k
  {
    if k < node.Slots() {
      AttemptsCount(node, k + 1);
      var c := CountProgressLeaves(node.child);
      assert (node.Slots() - k) * c == c + (node.Slots() - (k + 1)) * c;
    }
  }

  // Completed leaves never exceed the total, so the clamp never bites; and the
  // fraction reported after more steps is never smaller.
  lemma ClampNeverNeeded(
      reg: Registry, known: set<string>, root: Node, ps: seq<Proc>, ms: seq<Move>, n: nat)
    requires Validated(reg, known, root) && IsExecution(root, ps, ms) && n <= |ms|
    ensures Completed(ms[..n]) <= Completed(ms) <= CountProgressLeaves(root)
    ensures CountProgressLeaves(root) >= 1
    ensures Fraction(Completed(ms), CountProgressLeaves(root))
         == Completed(ms) as real / CountProgressLeaves(root) as real
    ensures Fraction(Completed(ms[..n]), CountProgressLeaves(root)) <= Fraction(Completed(ms), CountProgressLeaves(root))
  {
    RunWithinTally(LEAVES_DONE(), root, ps, ms);
    SpentIsFinishes(ms);
    CountIsTally(reg, known, root);
    CompletedGrows(ms, n);
    RatioBounds(Completed(ms[..n]), Completed(ms), CountProgressLeaves(root));
  }

  lemma RatioBounds(a: nat, b: nat, total: nat)
    requires a <= b <= total && total >= 1
    ensures 0.0 <= a as real / total as real <= b as real / total as real <= 1.0
  {
  }

  lemma {:induction false} CompletedGrows(ms: seq<Move>, n: nat)
    requires n <= |ms|
    ensures Completed(ms[..n]) <= Completed(ms)
    decreases |ms|
  {
    if n < |ms| {
      CompletedGrows(ms[..|ms| - 1], n);
      assert ms[..|ms| - 1][..n] == ms[..n];
    } else {
      assert ms[..n] == ms;
    }
  }

  // A step gives leaves up exactly when a call is refused, or a stepwise node
  // returns without having made all its child calls.
  predicate GivesUp(l: Label) {
    l.Refuse? || (l.Leave? && l.node.IsStepwise() && l.from < l.node.Slots())
  }

  // Labels of a run of a validated tree only name validated nodes, and no node
  // is rejected as malformed.
  predicate NamesValidated(reg: Registry, known: set<string>, l: Label) {
    !l.Reject? && ((l.Refuse? || l.Leave?) ==> Validated(reg, known, l.node))
  }

  predicate Sane(reg: Registry, known: set<string>, p: Proc)
    decreases p, 1
  {
    match p
    case Ready(node, _, _) => Validated(reg, known, node)
    case Busy(_, _, _) => true
    case Done(_, left) => AllSane(reg, known, left)
    case Frame(node, _, _, _, left, cur) =>
      Validated(reg, known, node) && AllSane(reg, known, left) && Sane(reg, known, cur)
    case Fork(node, _, _, _, kids) => Validated(reg, known, node) && AllSane(reg, known, kids)
    case Guarded(node, _, _, cur) => Validated(reg, known, node) && Sane(reg, known, cur)
  }

  predicate AllSane(reg: Registry, known: set<string>, ps: seq<Proc>)
    decreases ps, 0
  {
    forall i :: 0 <= i < |ps| ==> Sane(reg, known, ps[i])
  }

  lemma {:induction false} StepStaysSane(
      reg: Registry, known: set<string>, canceled: bool, p: Proc, l: Label, q: Proc)
    requires Sane(reg, known, p) && Step(canceled, p, l, q)
    ensures Sane(reg, known, q) && NamesValidated(reg, known, l)
    decreases p, 1
  {
    match p
    case Ready(_, _, _) => StartSane(reg, known, canceled, p, l, q);
    case Busy(_, _, _) =>
    case Done(_, left) => OneStaysSane(reg, known, true, left, l, q.left);
    case Frame(_, _, _, _, left, cur) =>
      assert FrameStep(canceled, p, l, q);
      if cur.Done? && Resume(canceled, p, l, q) {
        ResumeSane(reg, known, canceled, p, l, q);
      } else if Step(canceled, cur, l, q.cur) && q.left == left {
        StepStaysSane(reg, known, canceled, cur, l, q.cur);
      } else {
        OneStaysSane(reg, known, true, left, l, q.left);
      }
    case Fork(_, _, _, _, kids) =>
      assert ForkStep(canceled, p, l, q);
      if q.Fork? {
        OneStaysSane(reg, known, canceled || p.canceled, kids, l, q.kids);
      } else {
        LeftBehindSane(reg, known, kids);
      }
    case Guarded(_, _, _, cur) =>
      if q.Guarded? {
        StepStaysSane(reg, known, canceled, cur, l, q.cur);
      }
  }

  lemma {:induction false} OneStaysSane(
      reg: Registry, known: set<string>, canceled: bool, ps: seq<Proc>, l: Label, qs: seq<Proc>)
    requires AllSane(reg, known, ps) && OneSteps(canceled, ps, l, qs)
    ensures AllSane(reg, known, qs) && NamesValidated(reg, known, l)
    decreases ps, 0
  {
    var i := WhichSteps(canceled, ps, l, qs);
    StepStaysSane(reg, known, canceled, ps[i], l, qs[i]);
  }

  lemma StartSane(reg: Registry, known: set<string>, canceled: bool, p: Proc, l: Label, q: Proc)
    requires p.Ready? && Validated(reg, known, p.node) && Start(canceled, p.node, p.path, p.bb, l, q)
    ensures Sane(reg, known, q) && NamesValidated(reg, known, l)
  {
    if q.Fork? || (q.Frame? && !p.node.Retry?) {
      assert AllValidated(reg, known, p.node.children);
    }
    if q.Fork? {
      assert AllSane(reg, known, q.kids);
    }
  }

  lemma ResumeSane(reg: Registry, known: set<string>, canceled: bool, p: Proc, l: Label, q: Proc)
    requires p.Frame? && p.cur.Done? && Resume(canceled, p, l, q)
    requires Validated(reg, known, p.node) && AllSane(reg, known, p.left) && Sane(reg, known, p.cur)
    ensures Sane(reg, known, q) && NamesValidated(reg, known, l)
  {
    assert AllSane(reg, known, p.cur.left);
    assert AllSane(reg, known, p.left + p.cur.left);
    if q.Frame? && !p.node.Retry? {
      assert AllValidated(reg, known, p.node.children);
    }
  }

  lemma {:induction false} LeftBehindSane(reg: Registry, known: set<string>, ps: seq<Proc>)
    requires AllDone(ps) && AllSane(reg, known, ps)
    ensures AllSane(reg, known, LeftBehind(ps))
  {
    if ps != [] {
      assert Sane(reg, known, ps[0]) && AllSane(reg, known, ps[0].left);
      LeftBehindSane(reg, known, ps[1..]);
    }
  }

  lemma {:induction false} RunStaysSane(
      reg: Registry, known: set<string>, root: Node, ps: seq<Proc>, ms: seq<Move>)
    requires Validated(reg, known, root) && IsExecution(root, ps, ms)
    ensures Sane(reg, known, ps[|ms|])
    ensures forall i :: 0 <= i < |ms| ==> NamesValidated(reg, known, ms[i].act)
    decreases |ms|
  {
    if |ms| > 0 {
      var n := |ms| - 1;
      RunLast(false, ps, ms);
      RunStaysSane(reg, known, root, ps[..n + 1], ms[..n]);
      StepStaysSane(reg, known, ms[n].canceled, ps[n], ms[n].act, ps[n + 1]);
      forall i | 0 <= i < |ms|
        ensures NamesValidated(reg, known, ms[i].act)
      {
        if i < n {
          assert ms[..n][i] == ms[i];
        }
      }
    }
  }

  lemma GivingUpCosts(reg: Registry, known: set<string>, l: Label)
    requires NamesValidated(reg, known, l)
    ensures GivesUp(l) <==> Skipped(LEAVES_DONE(), l) > 0.0
    ensures Skipped(LEAVES_DONE(), l) >= 0.0
  {
    if l.Refuse? {
      CountIsTally(reg, known, l.node);
    } else if l.Leave? && l.node.IsStepwise() && l.from < l.node.Slots() {
      if l.node.Retry? {
        CountIsTally(reg, known, l.node.child);
        AttemptsCount(l.node, l.from);
        assert (l.node.Slots() - l.from) * CountProgressLeaves(l.node.child) >= 1;
      } else {
        assert AllValidated(reg, known, l.node.children);
        SlotsCount(reg, known, l.node, l.from);
      }
    }
  }

  lemma {:induction false} SkippedIffGivenUp(
      reg: Registry, known: set<string>, root: Node, ps: seq<Proc>, ms: seq<Move>)
    requires Validated(reg, known, root) && IsExecution(root, ps, ms)
    ensures TotalSkipped(LEAVES_DONE(), ms) >= 0.0
    ensures TotalSkipped(LEAVES_DONE(), ms) == 0.0 <==> forall i :: 0 <= i < |ms| ==> !GivesUp(ms[i].act)
    decreases |ms|
  {
    if |ms| > 0 {
      var n := |ms| - 1;
      RunLast(false, ps, ms);
      RunStaysSane(reg, known, root, ps, ms);
      SkippedIffGivenUp(reg, known, root, ps[..n + 1], ms[..n]);
      GivingUpCosts(reg, known, ms[n].act);
      assert forall i :: 0 <= i < n ==> ms[..n][i] == ms[i];
    }
  }

  // Exactly when progress ends at 1: the execution is over, and on the way no
  // call was refused and every Sequence, Fallback and Retry that returned had
  // made all its child calls.
  lemma EndsAtOne(reg: Registry, known: set<string>, root: Node, ps: seq<Proc>, ms: seq<Move>)
    requires Validated(reg, known, root) && IsExecution(root, ps, ms)
    requires ps[|ms|].Done? && ps[|ms|].left == []
    ensures Fraction(Completed(ms), CountProgressLeaves(root)) == 1.0
       <==> forall i :: 0 <= i < |ms| ==> !GivesUp(ms[i].act)
  {
    RunConserves(LEAVES_DONE(), root, ps, ms);
    SpentIsFinishes(ms);
    CountIsTally(reg, known, root);
    SkippedIffGivenUp(reg, known, root, ps, ms);
    ClampNeverNeeded(reg, known, root, ps, ms, |ms|);
    RatioIsOne(Completed(ms), CountProgressLeaves(root));
  }

  lemma RatioIsOne(a: nat, total: nat)
    requires total >= 1
    ensures a as real / total as real == 1.0 <==> a == total
  {
    if a as real / total as real == 1.0 {
      assert a as real == (a as real / total as real) * total as real;
    }
  }
}
