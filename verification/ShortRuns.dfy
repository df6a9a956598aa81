// The other half: in a tree that is not firm some successful execution that uses
// every attempt ends short of 1. Runs are put together step by step.
module ShortRuns {
  import opened Common
  import opened SkillRegistry
  import opened BehaviourTree
  import opened Validator
  import opened Interleaving
  import opened Progress
  import opened RetryProgress
  import opened ExecutorRuns

  // ---- Pieces of runs in which the mission is not cancelled.

  predicate LeavesOut(ms: seq<Move>) {
    exists i :: 0 <= i < |ms| && GivesUp(ms[i].act)
  }

  // The run leads from p to q; p's own call does not return on the way.
  predicate Walks(flag: bool, p: Proc, q: Proc, ps: seq<Proc>, ms: seq<Move>) {
    && IsRun(flag, ps, ms) && ps[0] == p && ps[|ms|] == q
    && forall i :: 0 <= i < |ms| ==> !ps[i].Done? && !ms[i].canceled && Thorough(ms[i].act)
  }

  ghost predicate Can(flag: bool, p: Proc, q: Proc, short: bool) {
    exists ps, ms :: Walks(flag, p, q, ps, ms) && short == LeavesOut(ms)
  }

  lemma CanStep(flag: bool, p: Proc, l: Label, q: Proc)
    requires Step(flag, p, l, q) && !p.Done? && Thorough(l)
    ensures Can(flag, p, q, GivesUp(l))
  {
    var ms := [Move(false, l)];
    assert ms[0].act == l;
    assert Walks(flag, p, q, [p, q], ms);
  }

  lemma CanThen(flag: bool, p: Proc, q: Proc, r: Proc, a: bool, b: bool)
    requires Can(flag, p, q, a) && Can(flag, q, r, b)
    ensures Can(flag, p, r, a || b)
  {
    var ps: seq<Proc>, ms: seq<Move> :| Walks(flag, p, q, ps, ms) && a == LeavesOut(ms);
    var qs: seq<Proc>, ns: seq<Move> :| Walks(flag, q, r, qs, ns) && b == LeavesOut(ns);
    var rs, ks := ps[..|ms|] + qs, ms + ns;
    forall i | 0 <= i < |ks|
      ensures Step(flag || ks[i].canceled, rs[i], ks[i].act, rs[i + 1])
      ensures !rs[i].Done? && !ks[i].canceled && Thorough(ks[i].act)
    {
      if i >= |ms| {
        assert rs[i] == qs[i - |ms|] && rs[i + 1] == qs[i + 1 - |ms|] && ks[i] == ns[i - |ms|];
      }
    }
    assert Walks(flag, p, r, rs, ks);
    LeavesOutConcat(ms, ns);
  }

  lemma LeavesOutConcat(ms: seq<Move>, ns: seq<Move>)
    ensures LeavesOut(ms + ns) <==> LeavesOut(ms) || LeavesOut(ns)
  {
    var ks := ms + ns;
    if LeavesOut(ms) {
      var i :| 0 <= i < |ms| && GivesUp(ms[i].act);
      assert GivesUp(ks[i].act);
    }
    if LeavesOut(ns) {
      var i :| 0 <= i < |ns| && GivesUp(ns[i].act);
      assert GivesUp(ks[|ms| + i].act);
    }
  }

  lemma CanInFrame(flag: bool, node: Node, path: Path, facts: Facts, k: nat, p: Proc, q: Proc, short: bool)
    requires Can(flag, p, q, short)
    ensures Can(flag, Frame(node, path, facts, k, [], p), Frame(node, path, facts, k, [], q), short)
  {
    var ps: seq<Proc>, ms: seq<Move> :| Walks(flag, p, q, ps, ms) && short == LeavesOut(ms);
    var qs := seq(|ps|, i requires 0 <= i < |ps| => Frame(node, path, facts, k, [], ps[i]));
    forall i | 0 <= i < |ms|
      ensures Step(flag || ms[i].canceled, qs[i], ms[i].act, qs[i + 1])
    {
      assert FrameStep(flag || ms[i].canceled, qs[i], ms[i].act, qs[i + 1]);
    }
    assert Walks(flag, Frame(node, path, facts, k, [], p), Frame(node, path, facts, k, [], q), qs, ms);
  }

  lemma CanInGuarded(flag: bool, node: Node, path: Path, bb: Facts, p: Proc, q: Proc, short: bool)
    requires Can(flag, p, q, short)
    ensures Can(flag, Guarded(node, path, bb, p), Guarded(node, path, bb, q), short)
  {
    var ps: seq<Proc>, ms: seq<Move> :| Walks(flag, p, q, ps, ms) && short == LeavesOut(ms);
    var qs := seq(|ps|, i requires 0 <= i < |ps| => Guarded(node, path, bb, ps[i]));
    forall i | 0 <= i < |ms|
      ensures Step(flag || ms[i].canceled, qs[i], ms[i].act, qs[i + 1])
    {
      assert GuardedStep(flag || ms[i].canceled, qs[i], ms[i].act, qs[i + 1]);
    }
    assert Walks(flag, Guarded(node, path, bb, p), Guarded(node, path, bb, q), qs, ms);
  }

  // Branch i runs while its siblings wait.
  lemma CanInFork(
      flag: bool, node: Node, path: Path, bb: Facts, failed: bool, kids: seq<Proc>, i: nat, q: Proc, short: bool)
    requires node.Parallel? && i < |kids| && !kids[i].Done? && q.Done? && failed == FailureCancels(node, kids)
    requires Can(flag || failed, kids[i], q, short)
    ensures Can(flag, Fork(node, path, bb, failed, kids),
                Fork(node, path, bb, failed || (node.cancelOnFailure && !q.res.success), kids[i := q]), short)
    ensures FailureCancels(node, kids[i := q]) == (failed || (node.cancelOnFailure && !q.res.success))
  {
    var ps: seq<Proc>, ms: seq<Move> :| Walks(flag || failed, kids[i], q, ps, ms) && short == LeavesOut(ms);
    var end := failed || (node.cancelOnFailure && !q.res.success);
    var qs := seq(|ps|, j requires 0 <= j < |ps| => Fork(node, path, bb, if j < |ms| then failed else end, kids[i := ps[j]]));
    assert kids[i := ps[0]] == kids;
    forall j | 0 <= j < |ms|
      ensures Step(flag || ms[j].canceled, qs[j], ms[j].act, qs[j + 1])
    {
      ForkAdvances(flag || ms[j].canceled, node, path, bb, failed, kids, i, ps[j], ms[j].act, ps[j + 1]);
      LaterFailure(node, failed, kids, i, ps[j + 1]);
    }
    LaterFailure(node, failed, kids, i, q);
    assert Walks(flag, Fork(node, path, bb, failed, kids), Fork(node, path, bb, end, kids[i := q]), qs, ms);
  }

  // ---- What a node can be made to do, unblocked.

  // Succeed or fail, and leave something out on the way.
  datatype Aim = Aim(ok: bool, short: bool)

  predicate Feasible(node: Node, a: Aim) {
    if a.ok then a.short ==> Contains(node, Loose)
    else if a.short then FailsShort(node)
    else CanFail(node)
  }

  predicate Meets(res: ExecutionResult, ok: bool) {
    res.success == ok && !res.blocked && !res.needsDecision
  }

  ghost predicate Achieves(p: Proc, a: Aim) {
    exists res, short :: Can(false, p, Done(res, []), short) && Meets(res, a.ok) && (a.short ==> short)
  }

  lemma Achieved(p: Proc, a: Aim, q: Proc, res: ExecutionResult, before: bool, after: bool)
    requires Can(false, p, q, before) && Can(false, q, Done(res, []), after)
    requires Meets(res, a.ok) && (a.short ==> before || after)
    ensures Achieves(p, a)
  {
    CanThen(false, p, q, Done(res, []), before, after);
  }

  lemma HowAchieved(p: Proc, a: Aim) returns (res: ExecutionResult, short: bool)
    requires Achieves(p, a)
    ensures Can(false, p, Done(res, []), short) && Meets(res, a.ok) && (a.short ==> short)
  {
    res, short :| Can(false, p, Done(res, []), short) && Meets(res, a.ok) && (a.short ==> short);
  }

  // One more step in front.
  lemma StepFirst(p: Proc, l: Label, q: Proc, a: Aim)
    requires Step(false, p, l, q) && !p.Done? && Thorough(l) && Achieves(q, a)
    ensures Achieves(p, a)
  {
    CanStep(false, p, l, q);
    var res, short := HowAchieved(q, a);
    Achieved(p, a, q, res, GivesUp(l), short);
  }

  function LeafEnd(leaf: Node, bb: Facts, ok: bool): ExecutionResult {
    match leaf
    case Wait(_, _) => Succeeded(map[])
    case WaitForEvent(_, _, _, _) => Succeeded(bb)
    case VisualCheck(_, mode, check) =>
      if mode == ObserveMode then Succeeded(bb[VISUAL_RESULT := Observation(true, true, check.query)])
      else if ok then Succeeded(bb) else Failed(bb)
    case _ => if ok then Succeeded(bb) else Failed(bb)
  }

  lemma AchieveLeaf(leaf: Node, path: Path, bb: Facts, a: Aim)
    requires leaf.IsLeaf() && !MalformedWait(leaf) && Feasible(leaf, a)
    ensures Achieves(Ready(leaf, path, bb), a)
  {
    var r := LeafEnd(leaf, bb, a.ok);
    assert LeafOutcome(leaf, bb, r) && Meets(r, a.ok);
    var p, q := Ready(leaf, path, bb), Busy(leaf, path, bb);
    CanStep(false, p, Begin(path, leaf, bb), q);
    CanStep(false, q, Finish(path, leaf, r), Done(r, []));
    Achieved(p, a, q, r, false, false);
  }

  // ---- One lemma a kind of node.

  lemma {:induction false} Achieve(node: Node, path: Path, bb: Facts, a: Aim)
    requires Runnable(node) && Usable(node) && Feasible(node, a)
    ensures Achieves(Ready(node, path, bb), a)
    decreases node, 3, 0
  {
    NoneBelow(node, Unfit);
    if node.IsLeaf() {
      AchieveLeaf(node, path, bb, a);
    } else if node.Sequence? {
      AchieveSequence(node, path, bb, a);
    } else if node.Retry? {
      AchieveRetry(node, path, bb, a);
    } else if node.Parallel? {
      AchieveParallel(node, path, bb, a);
    } else {
      AchieveTimeout(node, path, bb, a);
    }
  }

  // The child that decides, and what it is made to do.
  lemma DecidingChild(node: Node, a: Aim) returns (j: nat, aj: Aim)
    requires node.Sequence? && node.children != [] && Feasible(node, a)
    ensures j < |node.children| && aj.ok == a.ok && Feasible(node.children[j], aj)
    ensures a.short ==> aj.short || (!a.ok && j + 1 < |node.children|)
  {
    var n := |node.children|;
    if a.ok && !a.short {
      j, aj := 0, a;
    } else if a.ok {
      SomeBelow(node, Loose);
      j :| 0 <= j < n && Contains(node.children[j], Loose);
      aj := a;
    } else if !a.short {
      SomeBelow(node, Fallible);
      j :| 0 <= j < n && Contains(node.children[j], Fallible);
      aj := a;
    } else if exists k :: 0 <= k < n - 1 && CanFail(node.children[k]) {
      j :| 0 <= j < n - 1 && CanFail(node.children[j]);
      aj := Aim(false, false);
    } else {
      j, aj := n - 1, a;
    }
  }

  lemma {:induction false} AchieveSequence(node: Node, path: Path, bb: Facts, a: Aim)
    requires Runnable(node) && Usable(node) && Feasible(node, a) && node.Sequence?
    ensures Achieves(Ready(node, path, bb), a)
    decreases node, 2, 0
  {
    NoneBelow(node, Unfit);
    var j, aj := DecidingChild(node, a);
    SequenceFrom(node, path, bb, 0, j, aj);
    var q := Calling(node, path, bb, 0);
    var res, short := HowAchieved(q, Aim(aj.ok, aj.short || (!aj.ok && j + 1 < |node.children|)));
    CanStep(false, Ready(node, path, bb), Enter(path, node), q);
    Achieved(Ready(node, path, bb), a, q, res, false, short);
  }

  // A stepwise node at child call k.
  function Calling(node: Node, path: Path, facts: Facts, k: nat): Proc
    requires node.IsStepwise() && k < node.Slots()
  {
    Frame(node, path, facts, k, [], Ready(node.Slot(k), SlotPath(node, path, k), facts))
  }

  // Its child call can end with r and is not the last.
  lemma GoesOn(node: Node, path: Path, facts: Facts, k: nat, r: ExecutionResult, s: bool, rest: Aim)
    requires node.IsStepwise() && k + 1 < node.Slots() && After(node, k, r, false) == Continue
    requires Can(false, Ready(node.Slot(k), SlotPath(node, path, k), facts), Done(r, []), s)
    requires Achieves(Calling(node, path, facts + r.facts, k + 1), rest)
    ensures Achieves(Calling(node, path, facts, k), Aim(rest.ok, s || rest.short))
  {
    var p, q := Calling(node, path, facts, k), Frame(node, path, facts, k, [], Done(r, []));
    var next := Calling(node, path, facts + r.facts, k + 1);
    CanInFrame(false, node, path, facts, k, p.cur, Done(r, []), s);
    assert Resume(false, q, Advance(path), next);
    StepFirst(q, Advance(path), next, rest);
    var res, short := HowAchieved(q, rest);
    Achieved(p, Aim(rest.ok, s || rest.short), q, res, s, short);
  }

  // Its child call can end with r, and the node returns.
  lemma Returns(node: Node, path: Path, facts: Facts, k: nat, r: ExecutionResult, s: bool)
    requires node.IsStepwise() && k < node.Slots() && After(node, k, r, false) == Stop(r.success, false, false)
    requires Can(false, Ready(node.Slot(k), SlotPath(node, path, k), facts), Done(r, []), s)
    requires node.Retry? ==> k + 1 == node.Slots()
    ensures Achieves(Calling(node, path, facts, k), Aim(r.success, s || k + 1 < node.Slots()))
  {
    var p, q := Calling(node, path, facts, k), Frame(node, path, facts, k, [], Done(r, []));
    var res := ExecutionResult(r.success, false, false, facts + r.facts);
    CanInFrame(false, node, path, facts, k, p.cur, Done(r, []), s);
    assert Resume(false, q, Leave(path, node, k + 1), Done(res, []));
    CanStep(false, q, Leave(path, node, k + 1), Done(res, []));
    Achieved(p, Aim(r.success, s || k + 1 < node.Slots()), q, res, s, k + 1 < node.Slots());
  }

  lemma Weaker(p: Proc, a: Aim, b: Aim)
    requires Achieves(p, a) && a.ok == b.ok && (b.short ==> a.short)
    ensures Achieves(p, b)
  {
  }

  // From child k on: all children succeed, but for child j, which does as told.
  lemma {:induction false} SequenceFrom(node: Node, path: Path, facts: Facts, k: nat, j: nat, aj: Aim)
    requires Runnable(node) && Usable(node) && node.Sequence? && k < |node.children|
    requires j < |node.children| && Feasible(node.children[j], aj) && (k <= j || aj.ok)
    ensures Achieves(Calling(node, path, facts, k), Aim(aj.ok, (k <= j && aj.short) || (!aj.ok && j + 1 < |node.children|)))
    decreases node, 1, |node.children| - k
  {
    NoneBelow(node, Unfit);
    NoneBelow(node, Idle);
    var n := |node.children|;
    var want := Aim(aj.ok, (k <= j && aj.short) || (!aj.ok && j + 1 < n));
    var mine := if k == j then aj else Aim(true, false);
    Achieve(node.Slot(k), SlotPath(node, path, k), facts, mine);
    var r, s := HowAchieved(Ready(node.Slot(k), SlotPath(node, path, k), facts), mine);
    if r.success && k + 1 < n {
      SequenceFrom(node, path, facts + r.facts, k + 1, j, aj);
      var rest := Aim(aj.ok, (k + 1 <= j && aj.short) || (!aj.ok && j + 1 < n));
      GoesOn(node, path, facts, k, r, s, rest);
      Weaker(Calling(node, path, facts, k), Aim(rest.ok, s || rest.short), want);
    } else {
      Returns(node, path, facts, k, r, s);
      Weaker(Calling(node, path, facts, k), Aim(r.success, s || k + 1 < n), want);
    }
  }

  lemma {:induction false} AchieveTimeout(node: Node, path: Path, bb: Facts, a: Aim)
    requires Runnable(node) && Usable(node) && Feasible(node, a) && node.Timeout?
    ensures Achieves(Ready(node, path, bb), a)
    decreases node, 2, 0
  {
    NoneBelow(node, Unfit);
    NoneBelow(node, Idle);
    Achieve(node.child, path + [0], bb, a);
    var child := Ready(node.child, path + [0], bb);
    var res, short := HowAchieved(child, a);
    CanInGuarded(false, node, path, bb, child, Done(res, []), short);
    var q, q' := Guarded(node, path, bb, child), Guarded(node, path, bb, Done(res, []));
    assert GuardedStep(false, q', Join(path), Done(res, []));
    CanStep(false, q', Join(path), Done(res, []));
    Achieved(q, a, q', res, short, false);
    StepFirst(Ready(node, path, bb), Enter(path, node), q, a);
  }

  // ---- A Retry makes all its attempts: all but the last one fail.

  predicate LastShort(node: Node, a: Aim)
    requires node.Retry?
  {
    a.short && if a.ok then Contains(node.child, Loose) else FailsShort(node.child)
  }

  function AttemptAim(node: Node, a: Aim, k: nat): Aim
    requires node.Retry? && k < node.Slots()
  {
    if k + 1 == node.Slots() then Aim(a.ok, LastShort(node, a)) else Aim(false, a.short && FailsShort(node.child))
  }

  // Some attempt from k on leaves something out.
  predicate StillShort(node: Node, a: Aim, k: nat)
    requires node.Retry?
  {
    || (k < node.Slots() && LastShort(node, a))
    || (k + 1 < node.Slots() && a.short && FailsShort(node.child))
  }

  lemma AttemptIsFeasible(node: Node, a: Aim, k: nat)
    requires node.Retry? && !Unfit(node) && !Idle(node) && k < node.Slots() && Feasible(node, a)
    ensures Feasible(node.child, AttemptAim(node, a, k))
    ensures k == 0 && a.short ==> StillShort(node, a, k)
  {
    if !a.ok && a.short {
      ShortFailureIsFailure(node.child);
    } else if !a.ok {
      SomeBelow(node, Fallible);
    } else if a.short && !Loose(node) {
      SomeBelow(node, Loose);
    }
  }

  lemma {:induction false} AchieveRetry(node: Node, path: Path, bb: Facts, a: Aim)
    requires Runnable(node) && Usable(node) && Feasible(node, a) && node.Retry?
    ensures Achieves(Ready(node, path, bb), a)
    decreases node, 2, 0
  {
    NoneBelow(node, Unfit);
    AttemptIsFeasible(node, a, 0);
    AttemptsFrom(node, path, bb, 0, a);
    var q := Calling(node, path, bb, 0);
    var res, short := HowAchieved(q, Aim(a.ok, StillShort(node, a, 0)));
    CanStep(false, Ready(node, path, bb), Enter(path, node), q);
    Achieved(Ready(node, path, bb), a, q, res, false, short);
  }

  lemma {:induction false} AttemptsFrom(node: Node, path: Path, facts: Facts, k: nat, a: Aim)
    requires Runnable(node) && Usable(node) && node.Retry? && k < node.Slots() && Feasible(node, a)
    ensures Achieves(Calling(node, path, facts, k), Aim(a.ok, StillShort(node, a, k)))
    decreases node, 1, node.Slots() - k
  {
    NoneBelow(node, Unfit);
    NoneBelow(node, Idle);
    var mine := AttemptAim(node, a, k);
    AttemptIsFeasible(node, a, k);
    Achieve(node.child, SlotPath(node, path, k), facts, mine);
    var r, s := HowAchieved(Ready(node.Slot(k), SlotPath(node, path, k), facts), mine);
    var want := Aim(a.ok, StillShort(node, a, k));
    if k + 1 < node.Slots() {
      AttemptsFrom(node, path, facts + r.facts, k + 1, a);
      var rest := Aim(a.ok, StillShort(node, a, k + 1));
      GoesOn(node, path, facts, k, r, s, rest);
      Weaker(Calling(node, path, facts, k), Aim(rest.ok, s || rest.short), want);
    } else {
      Returns(node, path, facts, k, r, s);
      Weaker(Calling(node, path, facts, k), Aim(r.success, s || k + 1 < node.Slots()), want);
    }
  }

  // ---- A Parallel: one branch decides, before the others or after them.

  // Every branch from k on but j is ready; the others are done, unblocked.
  ghost predicate Started(node: Node, path: Path, bb: Facts, kids: seq<Proc>, k: nat, j: nat, ok: bool)
    requires node.Parallel?
  {
    && |kids| == |node.children|
    && (forall i :: 0 <= i < k && i < |kids| && i != j ==> kids[i].Done? && kids[i].left == [] && Meets(kids[i].res, ok))
    && (forall i :: k <= i < |kids| && i != j ==> kids[i] == Ready(node.children[i], path + [i], bb))
  }

  lemma NobodyFailed(node: Node, kids: seq<Proc>)
    requires forall i :: 0 <= i < |kids| && kids[i].Done? ==> kids[i].res.success
    ensures !FailureCancels(node, kids)
  {
  }

  lemma {:induction false} OthersSucceed(node: Node, path: Path, bb: Facts, kids: seq<Proc>, k: nat, j: nat)
      returns (kids': seq<Proc>, short: bool)
    requires Runnable(node) && Usable(node) && node.Parallel? && k <= |node.children| && j < |node.children|
    requires Started(node, path, bb, kids, k, j, true) && kids[j].Ready?
    ensures Started(node, path, bb, kids', |kids'|, j, true) && kids'[j] == kids[j]
    ensures Can(false, Fork(node, path, bb, false, kids), Fork(node, path, bb, false, kids'), short)
    decreases node, 1, |node.children| - k
  {
    if k == |kids| {
      kids', short := kids, false;
      CanStay(false, Fork(node, path, bb, false, kids));
    } else if k == j {
      kids', short := OthersSucceed(node, path, bb, kids, k + 1, j);
    } else {
      NoneBelow(node, Unfit);
      NoneBelow(node, Idle);
      NobodyFailed(node, kids);
      Achieve(node.children[k], path + [k], bb, Aim(true, false));
      var r, s := HowAchieved(kids[k], Aim(true, false));
      CanInFork(false, node, path, bb, false, kids, k, Done(r, []), s);
      var rest, s' := OthersSucceed(node, path, bb, kids[k := Done(r, [])], k + 1, j);
      CanThen(false, Fork(node, path, bb, false, kids), Fork(node, path, bb, false, kids[k := Done(r, [])]),
              Fork(node, path, bb, false, rest), s, s');
      kids', short := rest, s || s';
    }
  }

  lemma CanStay(flag: bool, p: Proc)
    ensures Can(flag, p, p, false)
  {
    assert Walks(flag, p, p, [p], []) && !LeavesOut([]);
  }

  // With a failed branch to cancel them, the others are refused.
  lemma {:induction false} OthersRefused(node: Node, path: Path, bb: Facts, kids: seq<Proc>, k: nat, j: nat)
      returns (kids': seq<Proc>, short: bool)
    requires node.Parallel? && node.cancelOnFailure && k <= |node.children| && j < |node.children|
    requires Started(node, path, bb, kids, k, j, false) && kids[j].Done? && Meets(kids[j].res, false)
    ensures Started(node, path, bb, kids', |kids'|, j, false) && kids'[j] == kids[j]
    ensures Can(false, Fork(node, path, bb, true, kids), Fork(node, path, bb, true, kids'), short)
    ensures k < |kids| && (k != j || k + 1 < |kids|) ==> short
    decreases |node.children| - k
  {
    assert FailureCancels(node, kids);
    if k == |kids| {
      kids', short := kids, false;
      CanStay(false, Fork(node, path, bb, true, kids));
    } else if k == j {
      kids', short := OthersRefused(node, path, bb, kids, k + 1, j);
    } else {
      var refused := Done(Failed(map[]), []);
      CanStep(true, kids[k], Refuse(path + [k], node.children[k]), refused);
      CanInFork(false, node, path, bb, true, kids, k, refused, true);
      var rest, s := OthersRefused(node, path, bb, kids[k := refused], k + 1, j);
      CanThen(false, Fork(node, path, bb, true, kids), Fork(node, path, bb, true, kids[k := refused]),
              Fork(node, path, bb, true, rest), true, s);
      kids', short := rest, true;
    }
  }

  lemma {:induction false} NobodyLeft(kids: seq<Proc>)
    requires AllDone(kids) && forall i :: 0 <= i < |kids| ==> kids[i].left == []
    ensures LeftBehind(kids) == []
  {
    if kids != [] {
      assert kids[0].left == [];
      NobodyLeft(kids[1..]);
    }
  }

  lemma CanJoin(node: Node, path: Path, bb: Facts, failed: bool, kids: seq<Proc>, ok: bool)
    requires node.Parallel? && AllDone(kids)
    requires forall i :: 0 <= i < |kids| ==> kids[i].left == [] && !kids[i].res.blocked && !kids[i].res.needsDecision
    requires ok == forall i :: 0 <= i < |kids| ==> kids[i].res.success
    ensures Meets(Merge(bb, Results(kids)), ok)
    ensures Can(false, Fork(node, path, bb, failed, kids), Done(Merge(bb, Results(kids)), []), false)
  {
    var rs := Results(kids);
    assert forall i :: 0 <= i < |kids| ==> rs[i] == kids[i].res;
    MergeFlags(bb, rs);
    NobodyLeft(kids);
    var q := Done(Merge(bb, rs), []);
    assert ForkStep(false, Fork(node, path, bb, failed, kids), Join(path), q);
    CanStep(false, Fork(node, path, bb, failed, kids), Join(path), q);
  }

  // The branch that decides; `first` if its failure is to cancel the others.
  lemma DecidingBranch(node: Node, a: Aim) returns (j: nat, aj: Aim, first: bool)
    requires node.Parallel? && node.children != [] && Feasible(node, a)
    ensures j < |node.children| && aj.ok == a.ok && Feasible(node.children[j], aj)
    ensures first ==> node.cancelOnFailure && |node.children| >= 2 && !a.ok
    ensures a.short ==> aj.short || first
  {
    var n := |node.children|;
    first := false;
    if a.ok && !a.short {
      j, aj := 0, a;
    } else if a.ok {
      SomeBelow(node, Loose);
      j :| 0 <= j < n && Contains(node.children[j], Loose);
      aj := a;
    } else if !a.short {
      SomeBelow(node, Fallible);
      j :| 0 <= j < n && Contains(node.children[j], Fallible);
      aj := a;
    } else if SomeFailsShort(node.children) {
      j :| 0 <= j < n && FailsShort(node.children[j]);
      aj := a;
    } else {
      j :| 0 <= j < n && Contains(node.children[j], Fallible);
      aj, first := Aim(false, false), true;
    }
  }

  lemma {:induction false} AchieveParallel(node: Node, path: Path, bb: Facts, a: Aim)
    requires Runnable(node) && Usable(node) && Feasible(node, a) && node.Parallel?
    ensures Achieves(Ready(node, path, bb), a)
    decreases node, 2, 0
  {
    NoneBelow(node, Unfit);
    NoneBelow(node, Idle);
    var j, aj, first := DecidingBranch(node, a);
    Achieve(node.children[j], path + [j], bb, aj);
    var kids := Branches(node, path, bb);
    var r, s := HowAchieved(kids[j], aj);
    if first {
      FirstDecides(node, path, bb, j, r, s);
    } else {
      LastDecides(node, path, bb, j, r, s);
    }
    var q := Fork(node, path, bb, false, kids);
    assert Start(false, node, path, bb, Enter(path, node), q);
    var want := Aim(r.success, first || s);
    var res, short := HowAchieved(q, want);
    CanStep(false, Ready(node, path, bb), Enter(path, node), q);
    Achieved(Ready(node, path, bb), a, q, res, false, short);
  }

  lemma {:induction false} LastDecides(node: Node, path: Path, bb: Facts, j: nat, r: ExecutionResult, s: bool)
    requires Runnable(node) && Usable(node) && node.Parallel? && j < |node.children| && Meets(r, r.success)
    requires Can(false, Branches(node, path, bb)[j], Done(r, []), s)
    ensures Achieves(Fork(node, path, bb, false, Branches(node, path, bb)), Aim(r.success, s))
    decreases node, 1, |node.children| + 1
  {
    var kids := Branches(node, path, bb);
    var kids', s' := OthersSucceed(node, path, bb, kids, 0, j);
    NobodyFailed(node, kids');
    CanInFork(false, node, path, bb, false, kids', j, Done(r, []), s);
    var failed := node.cancelOnFailure && !r.success;
    var all := kids'[j := Done(r, [])];
    CanThen(false, Fork(node, path, bb, false, kids), Fork(node, path, bb, false, kids'),
            Fork(node, path, bb, failed, all), s', s);
    assert all[j] == Done(r, []) && forall i :: 0 <= i < |all| && i != j ==> all[i] == kids'[i];
    CanJoin(node, path, bb, failed, all, r.success);
    Achieved(Fork(node, path, bb, false, kids), Aim(r.success, s), Fork(node, path, bb, failed, all),
             Merge(bb, Results(all)), s' || s, false);
  }

  lemma FirstDecides(node: Node, path: Path, bb: Facts, j: nat, r: ExecutionResult, s: bool)
    requires node.Parallel? && node.cancelOnFailure && |node.children| >= 2 && j < |node.children| && Meets(r, false)
    requires Can(false, Branches(node, path, bb)[j], Done(r, []), s)
    ensures Achieves(Fork(node, path, bb, false, Branches(node, path, bb)), Aim(false, true))
  {
    var kids := Branches(node, path, bb);
    NobodyFailed(node, kids);
    CanInFork(false, node, path, bb, false, kids, j, Done(r, []), s);
    var after := kids[j := Done(r, [])];
    var all, s' := OthersRefused(node, path, bb, after, 0, j);
    CanThen(false, Fork(node, path, bb, false, kids), Fork(node, path, bb, true, after), Fork(node, path, bb, true, all), s, s');
    assert !all[j].res.success;
    CanJoin(node, path, bb, true, all, false);
    Achieved(Fork(node, path, bb, false, kids), Aim(false, true), Fork(node, path, bb, true, all),
             Merge(bb, Results(all)), s || s', false);
  }

  // ---- The main result.

  lemma ShortRunExists(root: Node) returns (ps: seq<Proc>, ms: seq<Move>)
    requires Runnable(root) && Usable(root) && !Firm(root)
    ensures FullRun(root, ps, ms) && LeavesOut(ms)
  {
    Achieve(root, [], map[], Aim(true, true));
    var p := Ready(root, [], map[]);
    var res, short := HowAchieved(p, Aim(true, true));
    ps, ms :| Walks(false, p, Done(res, []), ps, ms) && short == LeavesOut(ms);
  }

  // There are such executions if and only if no Retry of two or more attempts has
  // a child that cannot fail.
  lemma FullRunExistsIff(reg: Registry, known: set<string>, root: Node)
    requires Validated(reg, known, root) && FallbackFree(root)
    ensures (exists ps, ms :: FullRun(root, ps, ms)) <==> Usable(root)
  {
    ValidatedIsRunnable(reg, known, root);
    if Usable(root) {
      Achieve(root, [], map[], Aim(true, false));
      var p := Ready(root, [], map[]);
      var res, short := HowAchieved(p, Aim(true, false));
      var ps: seq<Proc>, ms: seq<Move> :| Walks(false, p, Done(res, []), ps, ms) && short == LeavesOut(ms);
      assert FullRun(root, ps, ms);
    } else {
      forall ps, ms | FullRun(root, ps, ms)
        ensures false
      {
        RunStaysOut(root, ps, ms);
      }
    }
  }

  // Successful executions that use every attempt of their Retries all end at a
  // progress of 1 if and only if no Retry may start over after an attempt that
  // failed short, or there are no such executions because some Retry cannot fail.
  lemma FullRunsEndAtOneIff(reg: Registry, known: set<string>, root: Node)
    requires Validated(reg, known, root) && FallbackFree(root)
    ensures (forall ps, ms :: FullRun(root, ps, ms) ==> Fraction(Completed(ms), CountProgressLeaves(root)) == 1.0)
       <==> Firm(root) || !Usable(root)
  {
    ValidatedIsRunnable(reg, known, root);
    if Firm(root) {
      forall ps, ms | FullRun(root, ps, ms)
        ensures Fraction(Completed(ms), CountProgressLeaves(root)) == 1.0
      {
        FirmEndsAtOne(reg, known, root, ps, ms);
      }
    } else if !Usable(root) {
      forall ps, ms | FullRun(root, ps, ms)
        ensures false
      {
        RunStaysOut(root, ps, ms);
      }
    } else {
      var ps, ms := ShortRunExists(root);
      RunReasoned(root, ps, ms);
      EndsAtOne(reg, known, root, ps, ms);
    }
  }

  // ---- Waits do not fail for a reason of their own.

  const WAIT := Wait("w", 1.0)
  const WAIT_THEN_TRY := Retry("r", 2, Sequence("s", [WAIT, TRY]))
  const WAIT_TWICE := Sequence("q", [Retry("t", 2, WAIT), RETRIED])

  lemma WaitThenTryIsSound()
    ensures Validated(ONE_SKILL, {}, WAIT_THEN_TRY) && FallbackFree(WAIT_THEN_TRY)
  {
    var body := WAIT_THEN_TRY.child;
    assert Strip("try") == "try";
    assert AllValidated(ONE_SKILL, {}, body.children);
    var p := (n: Node) => n.Fallback?;
    assert !AnyContains(body.children, p);
    assert !Contains(body, p);
  }

  lemma WaitThenTryIsFirm()
    ensures Firm(WAIT_THEN_TRY) && Usable(WAIT_THEN_TRY)
  {
    var body := WAIT_THEN_TRY.child;
    assert body.children[0] == WAIT && body.children[1] == TRY;
    assert !CanFail(WAIT) && Contains(TRY, Fallible);
    assert !FailsShort(body) && CanFail(body);
    assert !Contains(WAIT, Loose) && !Contains(TRY, Loose);
    assert !Contains(WAIT, Idle) && !Contains(TRY, Idle);
    assert !AnyContains(body.children, Loose) && !AnyContains(body.children, Idle);
  }

  // An interrupted Wait ends the Retry around it, so an attempt that is followed
  // by another one has failed at its last leaf: all executions that use both
  // attempts end at 1, and there are some.
  lemma WaitThenTryEndsAtOne()
    ensures exists ps, ms :: FullRun(WAIT_THEN_TRY, ps, ms)
    ensures forall ps, ms :: FullRun(WAIT_THEN_TRY, ps, ms) ==>
      Fraction(Completed(ms), CountProgressLeaves(WAIT_THEN_TRY)) == 1.0
  {
    WaitThenTryIsSound();
    WaitThenTryIsFirm();
    FullRunExistsIff(ONE_SKILL, {}, WAIT_THEN_TRY);
    FullRunsEndAtOneIff(ONE_SKILL, {}, WAIT_THEN_TRY);
  }

  // No execution uses both attempts at a Wait and succeeds, although another
  // Retry of the tree may start over short of its end.
  lemma WaitTwiceHasNoFullRun()
    ensures Validated(ONE_SKILL, {}, WAIT_TWICE) && FallbackFree(WAIT_TWICE) && !Firm(WAIT_TWICE)
    ensures !exists ps, ms :: FullRun(WAIT_TWICE, ps, ms)
  {
    RetriedIsSound();
    var p := (n: Node) => n.Fallback?;
    assert AllValidated(ONE_SKILL, {}, WAIT_TWICE.children);
    assert !AnyContains(WAIT_TWICE.children, p);
    var first, second := WAIT_TWICE.children[0], WAIT_TWICE.children[1];
    assert CanFail(second.child.children[0]);
    assert Loose(second) && Idle(first);
    assert Contains(second, Loose) && Contains(first, Idle);
    assert AnyContains(WAIT_TWICE.children, Loose) && AnyContains(WAIT_TWICE.children, Idle);
    FullRunExistsIff(ONE_SKILL, {}, WAIT_TWICE);
  }
}
