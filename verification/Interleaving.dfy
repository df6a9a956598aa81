// The executor as threads: a small-step semantics in which the branches of a
// Parallel interleave and the thread of a fired Timeout lives on.
module Interleaving {
  import opened BehaviourTree

  // One execute() call in some stage. `left` holds the threads that outlived
  // the calls that started them: the children of fired Timeouts.
  datatype Proc =
    | Ready(node: Node, path: Path, bb: Facts)
    | Busy(leaf: Node, path: Path, bb: Facts)
    | Done(res: ExecutionResult, left: seq<Proc>)
    | Frame(node: Node, path: Path, facts: Facts, index: nat, left: seq<Proc>, cur: Proc)
    | Fork(node: Node, path: Path, bb: Facts, canceled: bool, kids: seq<Proc>)
    | Guarded(node: Node, path: Path, bb: Facts, cur: Proc)

  datatype Label =
    | Enter(path: Path, node: Node)                // execute() of a composite
    | Begin(path: Path, leaf: Node, bb: Facts)     // execute() of a leaf
    | Refuse(path: Path, node: Node)               // execute() found the cancel flag set
    | Reject(path: Path, node: Node)               // execute() found the node malformed
    | Finish(path: Path, leaf: Node, res: ExecutionResult)
    | Advance(path: Path)                          // on to the next child call
    | Leave(path: Path, node: Node, from: nat)     // return without the slots from `from` on
    | Join(path: Path)                             // a Parallel or a Timeout returns
    | Fire(path: Path)                             // a Timeout expires

  predicate MalformedTimeout(node: Node) {
    node.Timeout? && (node.timeoutSec <= 0.0 || node.timeoutSec > 600.0)
  }

  // The first step of an execute() call.
  predicate Start(canceled: bool, node: Node, path: Path, bb: Facts, l: Label, q: Proc) {
    if canceled then
      l == Refuse(path, node) && q == Done(Failed(map[]), [])
    else if node.IsLeaf() then
      l == Begin(path, node, bb) && q == Busy(node, path, bb)
    else if node.IsStepwise() then
      if node.Slots() == 0 then
        l == Reject(path, node) && q == Done(EmptyResult(node, bb), [])
      else
        && l == Enter(path, node)
        && q == Frame(node, path, bb, 0, [], Ready(node.Slot(0), SlotPath(node, path, 0), bb))
    else if node.Parallel? then
      if node.children == [] then
        l == Reject(path, node) && q == Done(Failed(map[]), [])
      else
        l == Enter(path, node) && q == Fork(node, path, bb, false, Branches(node, path, bb))
    else if MalformedTimeout(node) then
      l == Reject(path, node) && q == Done(Failed(map[]), [])
    else
      l == Enter(path, node) && q == Guarded(node, path, bb, Ready(node.child, path + [0], bb))
  }

  function Branches(node: Node, path: Path, bb: Facts): (kids: seq<Proc>)
    requires node.Parallel?
    ensures |kids| == |node.children|
  {
    seq(|node.children|, i requires 0 <= i < |node.children| => Ready(node.children[i], path + [i], bb))
  }

  // One of the threads ps makes a step.
  predicate OneSteps(canceled: bool, ps: seq<Proc>, l: Label, qs: seq<Proc>)
    decreases ps, 0
  {
    && |qs| == |ps|
    && exists i :: 0 <= i < |ps| && qs == ps[i := qs[i]] && Step(canceled, ps[i], l, qs[i])
  }

  // A stepwise node whose child call is over goes on or returns.
  predicate Resume(canceled: bool, p: Proc, l: Label, q: Proc)
    requires p.Frame? && p.cur.Done?
  {
    && p.node.IsStepwise()
    && p.index < p.node.Slots()
    && var facts := p.facts + p.cur.res.facts;
       var left := p.left + p.cur.left;
       match After(p.node, p.index, p.cur.res, canceled)
       case Continue =>
         var k := p.index + 1;
         && l == Advance(p.path)
         && q == Frame(p.node, p.path, facts, k, left,
                       Ready(p.node.Slot(k), SlotPath(p.node, p.path, k), facts))
       case Stop(success, blocked, needsDecision) =>
         && l == Leave(p.path, p.node, p.index + 1)
         && q == Done(ExecutionResult(success, blocked, needsDecision, facts), left)
  }

  predicate AllDone(ps: seq<Proc>) {
    forall i :: 0 <= i < |ps| ==> ps[i].Done?
  }

  function Results(ps: seq<Proc>): (rs: seq<ExecutionResult>)
    requires AllDone(ps)
    ensures |rs| == |ps|
  {
    seq(|ps|, i requires 0 <= i < |ps| => ps[i].res)
  }

  function LeftBehind(ps: seq<Proc>): seq<Proc>
    requires AllDone(ps)
  {
    if ps == [] then [] else ps[0].left + LeftBehind(ps[1..])
  }

  // canceled is the flag inherited from the caller. Left-behind threads run
  // under their own flag, which the firing Timeout has set.
  predicate Step(canceled: bool, p: Proc, l: Label, q: Proc)
    decreases p, 2
  {
    match p
    case Ready(node, path, bb) => Start(canceled, node, path, bb, l, q)
    case Busy(leaf, path, bb) =>
      && l.Finish? && l.path == path && l.leaf == leaf && q == Done(l.res, [])
      && LeafOutcome(leaf, bb, l.res) && (CutShort(leaf, l.res) ==> canceled)
    case Done(res, left) =>
      q.Done? && q.res == res && OneSteps(true, left, l, q.left)
    case Frame(_, _, _, _, _, _) => FrameStep(canceled, p, l, q)
    case Fork(_, _, _, _, _) => ForkStep(canceled, p, l, q)
    case Guarded(_, _, _, _) => GuardedStep(canceled, p, l, q)
  }

  predicate FrameStep(canceled: bool, p: Proc, l: Label, q: Proc)
    requires p.Frame?
    decreases p, 1
  {
    || (&& q.Frame?
        && q == Frame(p.node, p.path, p.facts, p.index, p.left, q.cur)
        && Step(canceled, p.cur, l, q.cur))
    || (&& q.Frame?
        && q == Frame(p.node, p.path, p.facts, p.index, q.left, p.cur)
        && OneSteps(true, p.left, l, q.left))
    || (p.cur.Done? && Resume(canceled, p, l, q))
  }

  predicate ForkStep(canceled: bool, p: Proc, l: Label, q: Proc)
    requires p.Fork?
    decreases p, 1
  {
    || (&& q.Fork?
        && q == Fork(p.node, p.path, p.bb, p.canceled || FailureCancels(p.node, q.kids), q.kids)
        && OneSteps(canceled || p.canceled, p.kids, l, q.kids))
    || (&& AllDone(p.kids)
        && l == Join(p.path)
        && q == Done(Merge(p.bb, Results(p.kids)), LeftBehind(p.kids)))
  }

  predicate GuardedStep(canceled: bool, p: Proc, l: Label, q: Proc)
    requires p.Guarded?
    decreases p, 1
  {
    || (&& q.Guarded?
        && q == Guarded(p.node, p.path, p.bb, q.cur)
        && Step(canceled, p.cur, l, q.cur))
    || (p.cur.Done? && l == Join(p.path) && q == p.cur)
    || (!p.cur.Done? && l == Fire(p.path) && q == Done(Blocked(false, p.bb), [p.cur]))
  }

  lemma WhichSteps(canceled: bool, ps: seq<Proc>, l: Label, qs: seq<Proc>) returns (i: nat)
    requires OneSteps(canceled, ps, l, qs)
    ensures i < |ps| == |qs| && qs == ps[i := qs[i]] && Step(canceled, ps[i], l, qs[i])
  {
    i :| 0 <= i < |ps| && qs == ps[i := qs[i]] && Step(canceled, ps[i], l, qs[i]);
  }

  // A stepwise node with nothing left behind resumes or lets its child call step.
  lemma LoneFrame(canceled: bool, p: Proc, l: Label, q: Proc)
    requires p.Frame? && p.left == [] && FrameStep(canceled, p, l, q)
    ensures
      || (p.cur.Done? && Resume(canceled, p, l, q))
      || (q.Frame? && q == Frame(p.node, p.path, p.facts, p.index, [], q.cur) && Step(canceled, p.cur, l, q.cur))
  {
    if q.Frame? && OneSteps(true, p.left, l, q.left) {
      var i := WhichSteps(true, p.left, l, q.left);
    }
  }

  // A branch that has failed sets the flag its siblings share.
  predicate FailureCancels(node: Node, kids: seq<Proc>) {
    && node.Parallel?
    && node.cancelOnFailure
    && exists i :: 0 <= i < |kids| && kids[i].Done? && !kids[i].res.success
  }

  // Branch i goes on while its siblings wait.
  lemma LaterFailure(node: Node, failed: bool, kids: seq<Proc>, i: nat, q: Proc)
    requires node.Parallel? && i < |kids| && !kids[i].Done? && failed == FailureCancels(node, kids)
    ensures FailureCancels(node, kids[i := q]) == (failed || (node.cancelOnFailure && q.Done? && !q.res.success))
  {
    var kids' := kids[i := q];
    assert kids'[i] == q;
    assert forall j :: 0 <= j < |kids| && j != i ==> kids'[j] == kids[j];
  }

  lemma ForkAdvances(
      canceled: bool, node: Node, path: Path, bb: Facts, failed: bool, kids: seq<Proc>, i: nat, p: Proc, l: Label, q: Proc)
    requires node.Parallel? && i < |kids| && Step(canceled || failed, p, l, q)
    ensures Step(canceled, Fork(node, path, bb, failed, kids[i := p]), l,
                 Fork(node, path, bb, failed || FailureCancels(node, kids[i := q]), kids[i := q]))
  {
    var from, to := kids[i := p], kids[i := q];
    assert to == from[i := to[i]] && from[i] == p && to[i] == q;
    assert OneSteps(canceled || failed, from, l, to);
  }

  // A Timeout may fire at any moment until its child is done. The call returns
  // blocked; the child's thread lives on, and every step it could make under a set
  // flag it can still make.
  lemma FiredThreadLivesOn(canceled: bool, node: Node, path: Path, bb: Facts, cur: Proc, l: Label, q: Proc)
    requires !cur.Done? && Step(true, cur, l, q)
    ensures Step(canceled, Guarded(node, path, bb, cur), Fire(path), Done(ExecutionResult(false, true, false, bb), [cur]))
    ensures Step(canceled, Done(ExecutionResult(false, true, false, bb), [cur]), l, Done(ExecutionResult(false, true, false, bb), [q]))
  {
    OrphanAdvances(canceled, ExecutionResult(false, true, false, bb), [cur], 0, l, q);
    assert [cur][0 := q] == [q];
  }

  // Whatever else a call has left behind waits meanwhile.
  lemma OrphanAdvances(canceled: bool, res: ExecutionResult, left: seq<Proc>, i: nat, l: Label, q: Proc)
    requires i < |left| && Step(true, left[i], l, q)
    ensures Step(canceled, Done(res, left), l, Done(res, left[i := q]))
  {
    var to := left[i := q];
    assert to == left[i := to[i]] && to[i] == q;
    assert OneSteps(true, left, l, to);
  }

  // A leaf in progress may return any of its outcomes; one that means it was cut
  // short, only once the flag is set.
  lemma LeafMayReturn(canceled: bool, leaf: Node, path: Path, bb: Facts, r: ExecutionResult)
    ensures Step(canceled, Busy(leaf, path, bb), Finish(path, leaf, r), Done(r, []))
         <==> LeafOutcome(leaf, bb, r) && (CutShort(leaf, r) ==> canceled)
  {
  }

  // A run: the mission's cancel flag is the environment's to set at any step.
  datatype Move = Move(canceled: bool, act: Label)

  predicate IsRun(canceled: bool, ps: seq<Proc>, ms: seq<Move>) {
    && |ps| == |ms| + 1
    && forall i :: 0 <= i < |ms| ==> Step(canceled || ms[i].canceled, ps[i], ms[i].act, ps[i + 1])
  }

  // A run of one execute_json() call: an empty blackboard and no caller.
  predicate IsExecution(root: Node, ps: seq<Proc>, ms: seq<Move>) {
    IsRun(false, ps, ms) && ps[0] == Ready(root, [], map[])
  }

  lemma RunPrefix(canceled: bool, ps: seq<Proc>, ms: seq<Move>, n: nat)
    requires IsRun(canceled, ps, ms) && n <= |ms|
    ensures IsRun(canceled, ps[..n + 1], ms[..n])
  {
  }

  lemma RunLast(canceled: bool, ps: seq<Proc>, ms: seq<Move>)
    requires IsRun(canceled, ps, ms) && |ms| > 0
    ensures IsRun(canceled, ps[..|ms|], ms[..|ms| - 1])
    ensures Step(canceled || ms[|ms| - 1].canceled, ps[|ms| - 1], ms[|ms| - 1].act, ps[|ms|])
    ensures ps[..|ms|][|ms| - 1] == ps[|ms| - 1]
  {
  }
}
