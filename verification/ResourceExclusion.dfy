// In every interleaving of a validated tree, Actions in progress at the same
// moment never need conflicting resources, the Action left running by a fired
// Timeout included.
module ResourceExclusion {
  import opened Common
  import opened SkillRegistry
  import opened BehaviourTree
  import opened Validator
  import opened Interleaving

  // How many threads have the leaf at occurrence x in progress.
  function Running(p: Proc, x: Path): nat
    decreases p, 1
  {
    match p
    case Ready(_, _, _) => 0
    case Busy(_, path, _) => if path == x then 1 else 0
    case Done(_, left) => RunningIn(left, x)
    case Frame(_, _, _, _, left, cur) => RunningIn(left, x) + Running(cur, x)
    case Fork(_, _, _, _, kids) => RunningIn(kids, x)
    case Guarded(_, _, _, cur) => Running(cur, x)
  }

  function RunningIn(ps: seq<Proc>, x: Path): nat
    decreases ps, 0
  {
    if ps == [] then 0 else Running(ps[0], x) + RunningIn(ps[1..], x)
  }

  function Begun(l: Label, x: Path): nat {
    if l.Begin? && l.path == x then 1 else 0
  }

  function Ended(l: Label, x: Path): nat {
    if l.Finish? && l.path == x then 1 else 0
  }

  lemma {:induction false} RunningUpdate(ps: seq<Proc>, i: nat, q: Proc, x: Path)
    requires i < |ps|
    ensures RunningIn(ps[i := q], x) + Running(ps[i], x) == RunningIn(ps, x) + Running(q, x)
  {
    if i > 0 {
      assert ps[i := q][1..] == ps[1..][i - 1 := q];
      RunningUpdate(ps[1..], i - 1, q, x);
    } else {
      assert ps[i := q][1..] == ps[1..];
    }
  }

  lemma {:induction false} RunningConcat(ps: seq<Proc>, qs: seq<Proc>, x: Path)
    ensures RunningIn(ps + qs, x) == RunningIn(ps, x) + RunningIn(qs, x)
  {
    if ps == [] {
      assert ps + qs == qs;
    } else {
      assert (ps + qs)[1..] == ps[1..] + qs;
      RunningConcat(ps[1..], qs, x);
    }
  }

  lemma {:induction false} RunningLeftBehind(ps: seq<Proc>, x: Path)
    requires AllDone(ps)
    ensures RunningIn(LeftBehind(ps), x) == RunningIn(ps, x)
  {
    if ps != [] {
      RunningConcat(ps[0].left, LeftBehind(ps[1..]), x);
      RunningLeftBehind(ps[1..], x);
    }
  }

  lemma {:induction false} ReadyIsIdle(ps: seq<Proc>, x: Path)
    requires forall i :: 0 <= i < |ps| ==> ps[i].Ready?
    ensures RunningIn(ps, x) == 0
  {
    if ps != [] {
      ReadyIsIdle(ps[1..], x);
    }
  }

  lemma RunningOne(p: Proc, x: Path)
    ensures RunningIn([p], x) == Running(p, x)
  {
    assert [p][1..] == [];
  }

  // The leaves in progress are exactly the ones begun and not yet finished,
  // and a thread whose cancel flag is set begins none.
  lemma {:induction false} RunningLaw(canceled: bool, p: Proc, l: Label, q: Proc, x: Path)
    requires Step(canceled, p, l, q)
    ensures Running(q, x) + Ended(l, x) == Running(p, x) + Begun(l, x)
    ensures canceled ==> !l.Begin?
    decreases p, 2
  {
    match p
    case Ready(node, path, bb) =>
      if node.Parallel? {
        ReadyIsIdle(Branches(node, path, bb), x);
      }
    case Busy(_, _, _) =>
    case Done(_, left) => RunningLawIn(true, left, l, q.left, x);
    case Frame(_, _, _, _, _, _) => RunningLawFrame(canceled, p, l, q, x);
    case Fork(_, _, _, _, kids) =>
      if q.Fork? {
        RunningLawIn(canceled || p.canceled, kids, l, q.kids, x);
      } else {
        RunningLeftBehind(kids, x);
      }
    case Guarded(_, _, _, cur) =>
      RunningOne(cur, x);
      if q.Guarded? {
        RunningLaw(canceled, cur, l, q.cur, x);
      }
  }

  lemma {:induction false} RunningLawFrame(canceled: bool, p: Proc, l: Label, q: Proc, x: Path)
    requires p.Frame? && FrameStep(canceled, p, l, q)
    ensures Running(q, x) + Ended(l, x) == Running(p, x) + Begun(l, x)
    ensures canceled ==> !l.Begin?
    decreases p, 1
  {
    if p.cur.Done? && Resume(canceled, p, l, q) {
      RunningConcat(p.left, p.cur.left, x);
    } else if Step(canceled, p.cur, l, q.cur) && q.left == p.left {
      RunningLaw(canceled, p.cur, l, q.cur, x);
    } else {
      RunningLawIn(true, p.left, l, q.left, x);
    }
  }

  lemma {:induction false} RunningLawIn(canceled: bool, ps: seq<Proc>, l: Label, qs: seq<Proc>, x: Path)
    requires OneSteps(canceled, ps, l, qs)
    ensures RunningIn(qs, x) + Ended(l, x) == RunningIn(ps, x) + Begun(l, x)
    ensures canceled ==> !l.Begin?
    decreases ps, 0
  {
    var i :| 0 <= i < |ps| && qs == ps[i := qs[i]] && Step(canceled, ps[i], l, qs[i]);
    RunningLaw(canceled, ps[i], l, qs[i], x);
    RunningUpdate(ps, i, qs[i], x);
  }

  // Two occurrences below node whose lowest common ancestor is a Parallel.
  predicate Apart(node: Node, p: Path, q: Path)
    decreases |p|
  {
    && p != [] && q != []
    && ChildAt(node, p[0]).Some? && ChildAt(node, q[0]).Some?
    && if p[0] == q[0] then Apart(ChildAt(node, p[0]).value, p[1..], q[1..]) else node.Parallel?
  }

  predicate IsLeafAt(node: Node, path: Path) {
    var found := NodeAt(node, path);
    found.Some? && found.value.IsLeaf()
  }

  predicate Under(base: Path, p: Path) {
    base <= p
  }

  function Rel(base: Path, p: Path): Path
    requires Under(base, p)
  {
    p[|base|..]
  }

  // The leaves that the threads ps, all working below the subtree `node` at
  // `base`, have in progress: none twice, and any two apart.
  ghost predicate Exclusive(node: Node, base: Path, ps: seq<Proc>) {
    && (forall x :: RunningIn(ps, x) > 0 ==>
          Under(base, x) && IsLeafAt(node, Rel(base, x)) && RunningIn(ps, x) == 1)
    && (forall x, y :: RunningIn(ps, x) > 0 && RunningIn(ps, y) > 0 && x != y ==>
          Apart(node, Rel(base, x), Rel(base, y)))
  }

  // p is a stage of executing the subtree `node` that sits at `base`.
  ghost predicate Fits(node: Node, base: Path, p: Proc)
    decreases p
  {
    match p
    case Ready(n, path, _) => n == node && path == base
    case Busy(leaf, path, _) => leaf == node && path == base && leaf.IsLeaf()
    case Done(res, left) =>
      && Coherent(res)
      && (left != [] ==> res.blocked)
      && Exclusive(node, base, left)
    case Frame(n, path, _, index, left, cur) =>
      && n == node && path == base
      && node.IsStepwise() && index < node.Slots()
      && left == []
      && Fits(node.Slot(index), SlotPath(node, base, index), cur)
    case Fork(n, path, _, _, kids) =>
      && n == node && path == base
      && node.Parallel? && |kids| == |node.children|
      && forall i :: 0 <= i < |kids| ==> Fits(node.children[i], base + [i], kids[i])
    case Guarded(n, path, _, cur) =>
      && n == node && path == base
      && node.Timeout?
      && Fits(node.child, base + [0], cur)
  }

  // Threads that hold no more than others hold.
  lemma ExclusiveShrinks(node: Node, base: Path, ps: seq<Proc>, qs: seq<Proc>)
    requires Exclusive(node, base, ps)
    requires forall x :: RunningIn(qs, x) <= RunningIn(ps, x)
    ensures Exclusive(node, base, qs)
  {
  }

  lemma ExclusiveLifts(node: Node, k: nat, child: Node, base: Path, ps: seq<Proc>)
    requires ChildAt(node, k) == Some(child)
    requires Exclusive(child, base + [k], ps)
    ensures Exclusive(node, base, ps)
    ensures forall x :: RunningIn(ps, x) > 0 ==> Under(base + [k], x)
  {
    forall x | RunningIn(ps, x) > 0
      ensures Under(base, x) && Rel(base, x) == [k] + Rel(base + [k], x) && IsLeafAt(node, Rel(base, x))
    {
      assert Under(base + [k], x);
      assert Rel(base, x)[1..] == Rel(base + [k], x);
    }
    forall x, y | RunningIn(ps, x) > 0 && RunningIn(ps, y) > 0 && x != y
      ensures Apart(node, Rel(base, x), Rel(base, y))
    {
      assert Rel(base, x)[1..] == Rel(base + [k], x);
      assert Rel(base, y)[1..] == Rel(base + [k], y);
    }
  }

  ghost predicate From(base: Path, k: nat, ps: seq<Proc>) {
    forall x :: RunningIn(ps, x) > 0 ==> |x| > |base| && x[|base|] >= k
  }

  // What one branch holds and what later branches hold sit under different
  // indices of the same Parallel.
  lemma BranchesMeetAtParallel(node: Node, base: Path, k: nat, here: Proc, rest: seq<Proc>)
    requires node.Parallel? && k < |node.children|
    requires Exclusive(node.children[k], base + [k], [here])
    requires Exclusive(node, base, rest) && From(base, k + 1, rest)
    ensures Exclusive(node, base, [here] + rest) && From(base, k, [here] + rest)
  {
    ExclusiveLifts(node, k, node.children[k], base, [here]);
    forall x
      ensures RunningIn([here] + rest, x) == RunningIn([here], x) + RunningIn(rest, x)
    {
      RunningConcat([here], rest, x);
    }
    forall x | RunningIn([here], x) > 0
      ensures |x| > |base| && x[|base|] == k && RunningIn(rest, x) == 0
    {
      assert Under(base + [k], x);
    }
    forall x, y | RunningIn([here], x) > 0 && RunningIn(rest, y) > 0
      ensures Apart(node, Rel(base, x), Rel(base, y)) && Apart(node, Rel(base, y), Rel(base, x))
    {
      assert IsLeafAt(node, Rel(base, x)) && IsLeafAt(node, Rel(base, y));
      assert Rel(base, x)[0] == k && Rel(base, y)[0] > k;
    }
  }

  lemma {:induction false} BranchesExclusive(node: Node, base: Path, kids: seq<Proc>, k: nat)
    requires node.Parallel? && |kids| == |node.children| && k <= |kids|
    requires forall i :: 0 <= i < |kids| ==> Exclusive(node.children[i], base + [i], [kids[i]])
    ensures Exclusive(node, base, kids[k..]) && From(base, k, kids[k..])
    decreases |kids| - k
  {
    if k < |kids| {
      BranchesExclusive(node, base, kids, k + 1);
      BranchesMeetAtParallel(node, base, k, kids[k], kids[k + 1..]);
      assert kids[k..] == [kids[k]] + kids[k + 1..];
    }
  }

  lemma SameHoldings(node: Node, base: Path, ps: seq<Proc>, qs: seq<Proc>)
    requires Exclusive(node, base, ps)
    requires forall x :: RunningIn(qs, x) == RunningIn(ps, x)
    ensures Exclusive(node, base, qs)
  {
  }

  lemma {:induction false} FitsExclusive(node: Node, base: Path, p: Proc)
    requires Fits(node, base, p)
    ensures Exclusive(node, base, [p])
    decreases p
  {
    forall x
      ensures RunningIn([p], x) == Running(p, x)
    {
      RunningOne(p, x);
    }
    match p
    case Ready(_, _, _) =>
    case Busy(_, _, _) =>
      assert Rel(base, base) == [];
    case Done(_, left) =>
      SameHoldings(node, base, left, [p]);
    case Frame(_, _, _, index, left, cur) =>
      var k := if node.Retry? then 0 else index;
      FitsExclusive(node.Slot(index), base + [k], cur);
      ExclusiveLifts(node, k, node.Slot(index), base, [cur]);
      forall x ensures RunningIn([cur], x) == Running(cur, x) { RunningOne(cur, x); }
      SameHoldings(node, base, [cur], [p]);
    case Fork(_, _, _, _, kids) =>
      forall i | 0 <= i < |kids|
        ensures Exclusive(node.children[i], base + [i], [kids[i]])
      {
        FitsExclusive(node.children[i], base + [i], kids[i]);
      }
      BranchesExclusive(node, base, kids, 0);
      assert kids[0..] == kids;
      SameHoldings(node, base, kids, [p]);
    case Guarded(_, _, _, cur) =>
      FitsExclusive(node.child, base + [0], cur);
      ExclusiveLifts(node, 0, node.child, base, [cur]);
      forall x ensures RunningIn([cur], x) == Running(cur, x) { RunningOne(cur, x); }
      SameHoldings(node, base, [cur], [p]);
  }

  // Every step of every thread keeps the shape: in particular a call that
  // returns with a thread left behind returns blocked, and the stepwise nodes
  // above it stop.
  lemma {:induction false} StepKeepsFit(canceled: bool, node: Node, base: Path, p: Proc, l: Label, q: Proc)
    requires Fits(node, base, p) && Step(canceled, p, l, q)
    ensures Fits(node, base, q)
    decreases p, 1
  {
    match p
    case Ready(_, path, bb) =>
    case Busy(leaf, path, bb) =>
      LeafOutcomeCoherent(leaf, bb, l.res);
    case Done(_, left) =>
      forall x
        ensures RunningIn(q.left, x) <= RunningIn(left, x)
      {
        RunningLawIn(true, left, l, q.left, x);
      }
      ExclusiveShrinks(node, base, left, q.left);
    case Frame(_, _, _, _, _, _) => FrameKeepsFit(canceled, node, base, p, l, q);
    case Fork(_, _, _, _, _) => ForkKeepsFit(canceled, node, base, p, l, q);
    case Guarded(_, _, _, cur) => GuardedKeepsFit(canceled, node, base, p, l, q);
  }

  lemma {:induction false} FrameKeepsFit(canceled: bool, node: Node, base: Path, p: Proc, l: Label, q: Proc)
    requires p.Frame? && Fits(node, base, p) && FrameStep(canceled, p, l, q)
    ensures Fits(node, base, q)
    decreases p, 0
  {
    if p.cur.Done? && Resume(canceled, p, l, q) {
      FrameReturns(canceled, node, base, p, l, q);
    } else {
      StepKeepsFit(canceled, node.Slot(p.index), SlotPath(node, base, p.index), p.cur, l, q.cur);
    }
  }

  // The heart of the matter: a stepwise node goes on only past a child call
  // that left no thread behind.
  lemma FrameReturns(canceled: bool, node: Node, base: Path, p: Proc, l: Label, q: Proc)
    requires p.Frame? && Fits(node, base, p) && p.cur.Done? && Resume(canceled, p, l, q)
    ensures Fits(node, base, q)
  {
    assert p.left + p.cur.left == p.cur.left;
    if q.Done? {
      var k := if node.Retry? then 0 else p.index;
      ExclusiveLifts(node, k, node.Slot(p.index), base, p.cur.left);
    }
  }

  lemma {:induction false} ForkKeepsFit(canceled: bool, node: Node, base: Path, p: Proc, l: Label, q: Proc)
    requires p.Fork? && Fits(node, base, p) && ForkStep(canceled, p, l, q)
    ensures Fits(node, base, q)
    decreases p, 0
  {
    if q.Fork? {
      var flag := canceled || p.canceled;
      var i :| 0 <= i < |p.kids| && q.kids == p.kids[i := q.kids[i]] && Step(flag, p.kids[i], l, q.kids[i]);
      StepKeepsFit(flag, node.children[i], base + [i], p.kids[i], l, q.kids[i]);
    } else {
      ForkJoins(node, base, p, q);
    }
  }

  lemma ForkJoins(node: Node, base: Path, p: Proc, q: Proc)
    requires p.Fork? && Fits(node, base, p) && AllDone(p.kids)
    requires q == Done(Merge(p.bb, Results(p.kids)), LeftBehind(p.kids))
    ensures Fits(node, base, q)
  {
    FitsExclusive(node, base, p);
    forall x
      ensures RunningIn(LeftBehind(p.kids), x) == RunningIn([p], x)
    {
      RunningLeftBehind(p.kids, x);
      RunningOne(p, x);
    }
    SameHoldings(node, base, [p], q.left);
    MergeFlags(p.bb, Results(p.kids));
    if q.left != [] {
      SomeoneLeft(p.kids);
      var i :| 0 <= i < |p.kids| && p.kids[i].left != [];
      assert Results(p.kids)[i].blocked;
    }
  }

  lemma {:induction false} GuardedKeepsFit(canceled: bool, node: Node, base: Path, p: Proc, l: Label, q: Proc)
    requires p.Guarded? && Fits(node, base, p) && GuardedStep(canceled, p, l, q)
    ensures Fits(node, base, q)
    decreases p, 0
  {
    if q.Guarded? {
      StepKeepsFit(canceled, node.child, base + [0], p.cur, l, q.cur);
    } else if l.Fire? {
      FitsExclusive(node.child, base + [0], p.cur);
      ExclusiveLifts(node, 0, node.child, base, [p.cur]);
    } else {
      ExclusiveLifts(node, 0, node.child, base, p.cur.left);
    }
  }

  lemma {:induction false} SomeoneLeft(ps: seq<Proc>)
    requires AllDone(ps) && LeftBehind(ps) != []
    ensures exists i :: 0 <= i < |ps| && ps[i].left != []
  {
    if ps[0].left == [] {
      SomeoneLeft(ps[1..]);
    }
  }

  lemma {:induction false} RunKeepsFit(canceled: bool, node: Node, base: Path, ps: seq<Proc>, ms: seq<Move>)
    requires IsRun(canceled, ps, ms) && Fits(node, base, ps[0])
    ensures Fits(node, base, ps[|ms|])
    decreases |ms|
  {
    if |ms| > 0 {
      RunLast(canceled, ps, ms);
      RunKeepsFit(canceled, node, base, ps[..|ms|], ms[..|ms| - 1]);
      var n := |ms| - 1;
      StepKeepsFit(canceled || ms[n].canceled, node, base, ps[n], ms[n].act, ps[n + 1]);
    }
  }

  lemma ChildFacts(reg: Registry, known: set<string>, node: Node, k: nat)
    requires ChildAt(node, k).Some?
    ensures Resources(reg, ChildAt(node, k).value) <= Resources(reg, node)
    ensures Validated(reg, known, node) ==> Validated(reg, known, ChildAt(node, k).value)
  {
    if node.Sequence? || node.Fallback? || node.Parallel? {
      AllResourcesOf(reg, node.children, k);
      assert Validated(reg, known, node) ==> AllValidated(reg, known, node.children);
    }
  }

  lemma {:induction false} ResourcesInside(reg: Registry, node: Node, p: Path)
    requires NodeAt(node, p).Some?
    ensures Resources(reg, NodeAt(node, p).value) <= Resources(reg, node)
    decreases |p|
  {
    if p != [] {
      ChildFacts(reg, {}, node, p[0]);
      ResourcesInside(reg, ChildAt(node, p[0]).value, p[1..]);
    }
  }

  // In a validated tree, apart means free of resource conflicts.
  lemma {:induction false} ApartActionsDoNotConflict(reg: Registry, known: set<string>, node: Node, p: Path, q: Path)
    requires Validated(reg, known, node) && Apart(node, p, q)
    requires NodeAt(node, p).Some? && NodeAt(node, q).Some?
    ensures !SetsConflict(Resources(reg, NodeAt(node, p).value), Resources(reg, NodeAt(node, q).value))
    decreases |p|
  {
    ChildFacts(reg, known, node, p[0]);
    if p[0] == q[0] {
      ApartActionsDoNotConflict(reg, known, ChildAt(node, p[0]).value, p[1..], q[1..]);
    } else {
      ResourcesInside(reg, node.children[p[0]], p[1..]);
      ResourcesInside(reg, node.children[q[0]], q[1..]);
      var a, b := Resources(reg, node.children[p[0]]), Resources(reg, node.children[q[0]]);
      forall l, r | l in a && r in b
        ensures !ResourcesConflict(l, r)
      {
        ConflictIsSymmetric(l, r);
      }
    }
  }

  // The main result. At every moment of every execution of a validated tree,
  // whatever the schedule, the outcomes, the cancellations and the Timeouts that
  // fire: each leaf in progress is in progress once, any two of them have a
  // Parallel as lowest common ancestor, and their resources do not conflict.
  lemma NoConcurrentResourceConflict(
      reg: Registry, known: set<string>, root: Node, ps: seq<Proc>, ms: seq<Move>, n: nat)
    requires Validated(reg, known, root)
    requires IsExecution(root, ps, ms) && n <= |ms|
    ensures forall x :: Running(ps[n], x) > 0 ==> Running(ps[n], x) == 1 && IsLeafAt(root, x)
    ensures forall x, y :: Running(ps[n], x) > 0 && Running(ps[n], y) > 0 && x != y ==>
      && IsLeafAt(root, x) && IsLeafAt(root, y) && Apart(root, x, y)
      && !SetsConflict(Resources(reg, NodeAt(root, x).value), Resources(reg, NodeAt(root, y).value))
  {
    RunPrefix(false, ps, ms, n);
    RunKeepsFit(false, root, [], ps[..n + 1], ms[..n]);
    FitsExclusive(root, [], ps[n]);
    forall x | Running(ps[n], x) > 0
      ensures Running(ps[n], x) == 1 && IsLeafAt(root, x) && RunningIn([ps[n]], x) > 0 && Rel([], x) == x
    {
      RunningOne(ps[n], x);
      assert Rel([], x) == x;
    }
    forall x, y | Running(ps[n], x) > 0 && Running(ps[n], y) > 0 && x != y
      ensures Apart(root, x, y)
      ensures !SetsConflict(Resources(reg, NodeAt(root, x).value), Resources(reg, NodeAt(root, y).value))
    {
      assert Apart(root, Rel([], x), Rel([], y));
      ApartActionsDoNotConflict(reg, known, root, x, y);
    }
  }

  // A call that returns while a thread it started is still alive returns
  // blocked; a thread left behind only finishes what it had in progress.
  lemma OrphansMeanBlocked(root: Node, ps: seq<Proc>, ms: seq<Move>, n: nat)
    requires IsExecution(root, ps, ms) && n <= |ms| && ps[n].Done?
    ensures ps[n].left != [] ==> ps[n].res.blocked && !ps[n].res.success
    ensures forall k :: n <= k < |ms| ==> !ms[k].act.Begin?
  {
    RunPrefix(false, ps, ms, n);
    RunKeepsFit(false, root, [], ps[..n + 1], ms[..n]);
    forall k | n <= k <= |ms|
      ensures ps[k].Done?
    {
      DoneStays(ps, ms, n, k);
    }
    forall k | n <= k < |ms|
      ensures !ms[k].act.Begin?
    {
      RunningLawIn(true, ps[k].left, ms[k].act, ps[k + 1].left, []);
    }
  }

  lemma {:induction false} DoneStays(ps: seq<Proc>, ms: seq<Move>, n: nat, k: nat)
    requires IsRun(false, ps, ms) && n <= k <= |ms| && ps[n].Done?
    ensures ps[k].Done? && ps[k].res == ps[n].res
    decreases k
  {
    if k > n {
      DoneStays(ps, ms, n, k - 1);
      assert Step(ms[k - 1].canceled, ps[k - 1], ms[k - 1].act, ps[k]);
    }
  }
}
