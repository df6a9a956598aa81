// The executor refines the interleaving semantics: every execute() call is a
// run of the threads, with the same result, the same visited leaves and the
// same progress count. So what holds of every run holds of the executor.
module ExecutorRuns {
  import opened Common
  import opened SkillRegistry
  import opened BehaviourTree
  import opened Validator
  import opened Goals
  import opened Interleaving
  import opened PolicyGuard
  import opened Progress
  import opened ResultFlags
  import opened RetryProgress
  import opened Executor

  // The history an observer writes down along a run.
  function Replay(w: World, h: History, ms: seq<Move>): History {
    if ms == [] then h
    else
      var before := Replay(w, h, ms[..|ms| - 1]);
      var l := ms[|ms| - 1].act;
      if l.Finish? then Log(w, before, l.leaf, l.res) else before
  }

  // No Timeout expires in this world.
  ghost predicate Patient(w: World) {
    forall h, limit :: !w.expires(h, limit)
  }

  // Every step sees the mission's flag as the history has it, at the latest after the step.
  predicate SeesFlag(w: World, h: History, ms: seq<Move>, i: nat)
    requires i < |ms|
  {
    && (w.cancel(Replay(w, h, ms[..i])) ==> ms[i].canceled)
    && (ms[i].canceled ==> w.cancel(Replay(w, h, ms[..i + 1])))
  }

  predicate Attentive(w: World, h: History, ms: seq<Move>) {
    forall i :: 0 <= i < |ms| ==> SeesFlag(w, h, ms, i)
  }

  // The run ps, ms leads from p to q without p's own call returning on the way.
  ghost predicate Leads(w: World, c: bool, p: Proc, h: History, ran: nat, q: Proc, o: Outcome, ps: seq<Proc>, ms: seq<Move>) {
    && IsRun(c, ps, ms) && ps[0] == p && ps[|ms|] == q
    && (forall j :: 0 <= j < |ms| ==> !ps[j].Done?)
    && Replay(w, h, ms) == o.hist
    && o.ran == ran + Completed(ms)
    && (Patient(w) ==> NoTimeoutFires(ms))
    && (Lasting(w) ==> Attentive(w, h, ms))
  }

  ghost predicate Realizes(w: World, c: bool, p: Proc, h: History, ran: nat, o: Outcome, ps: seq<Proc>, ms: seq<Move>) {
    && IsRun(c, ps, ms)
    && ps[|ms|].Done? && ps[|ms|].res == o.res
    && Leads(w, c, p, h, ran, ps[|ms|], o, ps, ms)
  }

  lemma {:induction false} ReplayConcat(w: World, h: History, ms: seq<Move>, ns: seq<Move>)
    ensures Replay(w, h, ms + ns) == Replay(w, Replay(w, h, ms), ns)
    ensures Completed(ms + ns) == Completed(ms) + Completed(ns)
    decreases |ns|
  {
    if ns == [] {
      assert ms + ns == ms;
    } else {
      var n := |ns| - 1;
      assert (ms + ns)[..|ms| + n] == ms + ns[..n];
      ReplayConcat(w, h, ms, ns[..n]);
    }
  }

  lemma AttentiveConcat(w: World, h: History, ms: seq<Move>, ns: seq<Move>)
    requires Attentive(w, h, ms) && Attentive(w, Replay(w, h, ms), ns)
    ensures Attentive(w, h, ms + ns)
  {
    var ks := ms + ns;
    forall i | 0 <= i < |ks|
      ensures SeesFlag(w, h, ks, i)
    {
      if i < |ms| {
        assert ks[..i] == ms[..i] && ks[..i + 1] == ms[..i + 1] && SeesFlag(w, h, ms, i);
      } else {
        var j := i - |ms|;
        assert ks[..i] == ms + ns[..j] && ks[..i + 1] == ms + ns[..j + 1] && SeesFlag(w, Replay(w, h, ms), ns, j);
        ReplayConcat(w, h, ms, ns[..j]);
        ReplayConcat(w, h, ms, ns[..j + 1]);
      }
    }
  }

  // A flag that is never cleared is seen set from some step on.
  lemma {:induction false} FlagLasts(w: World, h: History, ms: seq<Move>, i: nat, j: nat)
    requires Lasting(w) && Attentive(w, h, ms) && i <= j < |ms| && ms[i].canceled
    ensures ms[j].canceled
    decreases j - i
  {
    if i < j {
      FlagLasts(w, h, ms, i, j - 1);
      assert SeesFlag(w, h, ms, j - 1) && SeesFlag(w, h, ms, j);
    }
  }

  lemma AttentiveIsSteady(w: World, h: History, ms: seq<Move>)
    requires Lasting(w) && Attentive(w, h, ms)
    ensures Steady(ms)
  {
    forall i, j | 0 <= i <= j < |ms| && ms[i].canceled
      ensures ms[j].canceled
    {
      FlagLasts(w, h, ms, i, j);
    }
  }

  lemma OneMove(w: World, c: bool, p: Proc, h: History, ran: nat, m: Move, q: Proc) returns (ps: seq<Proc>, ms: seq<Move>)
    requires Step(c || m.canceled, p, m.act, q) && !p.Done? && (Patient(w) ==> !m.act.Fire?)
    requires w.cancel(h) ==> m.canceled
    requires Lasting(w) && m.canceled ==> w.cancel(if m.act.Finish? then Log(w, h, m.act.leaf, m.act.res) else h)
    ensures
      var l := m.act;
      var o := Outcome(Failed(map[]), if l.Finish? then Log(w, h, l.leaf, l.res) else h, if l.Finish? then ran + 1 else ran);
      Leads(w, c, p, h, ran, q, o, ps, ms)
  {
    ps, ms := [p, q], [m];
    assert ms[..0] == [] && ms[..1] == ms;
    assert Replay(w, h, ms[..0]) == h && Completed(ms[..0]) == 0;
  }

  lemma Then(
      w: World, c: bool, p: Proc, h: History, ran: nat,
      q: Proc, o: Outcome, ps: seq<Proc>, ms: seq<Move>,
      r: Proc, o': Outcome, qs: seq<Proc>, ns: seq<Move>) returns (rs: seq<Proc>, ks: seq<Move>)
    requires Leads(w, c, p, h, ran, q, o, ps, ms) && Leads(w, c, q, o.hist, o.ran, r, o', qs, ns)
    ensures Leads(w, c, p, h, ran, r, o', rs, ks)
  {
    rs, ks := ps[..|ms|] + qs, ms + ns;
    ReplayConcat(w, h, ms, ns);
    if Lasting(w) {
      AttentiveConcat(w, h, ms, ns);
    }
    forall i | 0 <= i < |ks|
      ensures Step(c || ks[i].canceled, rs[i], ks[i].act, rs[i + 1]) && !rs[i].Done?
    {
      if i >= |ms| {
        assert rs[i] == qs[i - |ms|] && rs[i + 1] == qs[i + 1 - |ms|];
      }
    }
  }

  lemma LiftFrame(
      w: World, c: bool, node: Node, path: Path, facts: Facts, k: nat, left: seq<Proc>,
      p: Proc, h: History, ran: nat, q: Proc, o: Outcome, ps: seq<Proc>, ms: seq<Move>) returns (qs: seq<Proc>)
    requires Leads(w, c, p, h, ran, q, o, ps, ms)
    ensures Leads(w, c, Frame(node, path, facts, k, left, p), h, ran, Frame(node, path, facts, k, left, q), o, qs, ms)
  {
    qs := seq(|ps|, i requires 0 <= i < |ps| => Frame(node, path, facts, k, left, ps[i]));
    forall i | 0 <= i < |ms|
      ensures Step(c || ms[i].canceled, qs[i], ms[i].act, qs[i + 1])
    {
      assert Step(c || ms[i].canceled, ps[i], ms[i].act, ps[i + 1]);
      assert FrameStep(c || ms[i].canceled, qs[i], ms[i].act, qs[i + 1]);
    }
  }

  lemma LiftGuarded(
      w: World, c: bool, node: Node, path: Path, bb: Facts,
      p: Proc, h: History, ran: nat, q: Proc, o: Outcome, ps: seq<Proc>, ms: seq<Move>) returns (qs: seq<Proc>)
    requires Leads(w, c, p, h, ran, q, o, ps, ms)
    ensures Leads(w, c, Guarded(node, path, bb, p), h, ran, Guarded(node, path, bb, q), o, qs, ms)
  {
    qs := seq(|ps|, i requires 0 <= i < |ps| => Guarded(node, path, bb, ps[i]));
    forall i | 0 <= i < |ms|
      ensures Step(c || ms[i].canceled, qs[i], ms[i].act, qs[i + 1])
    {
      assert Step(c || ms[i].canceled, ps[i], ms[i].act, ps[i + 1]);
      assert GuardedStep(c || ms[i].canceled, qs[i], ms[i].act, qs[i + 1]);
    }
  }

  // Branch i runs to its end while its siblings wait.
  lemma LiftFork(
      w: World, c: bool, node: Node, path: Path, bb: Facts, failed: bool, kids: seq<Proc>, i: nat,
      h: History, ran: nat, o: Outcome, ps: seq<Proc>, ms: seq<Move>)
      returns (failed': bool, qs: seq<Proc>)
    requires node.Parallel? && i < |kids| && kids[i].Ready? && failed == FailureCancels(node, kids)
    requires Realizes(w, c || failed, kids[i], h, ran, o, ps, ms)
    ensures failed' == (failed || (node.cancelOnFailure && !o.res.success))
    ensures failed' == FailureCancels(node, kids[i := ps[|ms|]])
    ensures Leads(w, c, Fork(node, path, bb, failed, kids), h, ran,
                  Fork(node, path, bb, failed', kids[i := ps[|ms|]]), o, qs, ms)
  {
    failed' := failed || (node.cancelOnFailure && !o.res.success);
    var f := failed';
    qs := seq(|ps|, j requires 0 <= j < |ps| => Fork(node, path, bb, if j < |ms| then failed else f, kids[i := ps[j]]));
    assert kids[i := ps[0]] == kids;
    forall j | 0 <= j < |ms|
      ensures Step(c || ms[j].canceled, qs[j], ms[j].act, qs[j + 1])
    {
      ForkAdvances(c || ms[j].canceled, node, path, bb, failed, kids, i, ps[j], ms[j].act, ps[j + 1]);
      LaterFailure(node, failed, kids, i, ps[j + 1]);
    }
    LaterFailure(node, failed, kids, i, ps[|ms|]);
  }

  // Every execute() call is a run.
  lemma {:induction false} EvalIsRun(
      w: World, c: bool, inline: bool, node: Node, path: Path, h: History, ran: nat, bb: Facts)
      returns (ps: seq<Proc>, ms: seq<Move>)
    ensures Realizes(w, c, Ready(node, path, bb), h, ran, Eval(w, c, inline, node, h, ran, bb), ps, ms)
    decreases node, 2, 0
  {
    var p := Ready(node, path, bb);
    if c || w.cancel(h) {
      ps, ms := OneMove(w, c, p, h, ran, Move(w.cancel(h), Refuse(path, node)), Done(Failed(map[]), []));
    } else if node.IsLeaf() {
      ps, ms := LeafIsRun(w, c, inline, node, path, h, ran, bb);
    } else if node.IsStepwise() {
      if node.Slots() == 0 {
        ps, ms := OneMove(w, c, p, h, ran, Move(false, Reject(path, node)), Done(EmptyResult(node, bb), []));
      } else {
        var q := Frame(node, path, bb, 0, [], Ready(node.Slot(0), SlotPath(node, path, 0), bb));
        var ps1, ms1 := OneMove(w, c, p, h, ran, Move(false, Enter(path, node)), q);
        var ps2, ms2 := EvalFrameIsRun(w, c, inline && !node.Retry?, node, path, 0, [], h, ran, bb);
        var o := Eval(w, c, inline, node, h, ran, bb);
        ps, ms := Then(w, c, p, h, ran, q, Outcome(Failed(map[]), h, ran), ps1, ms1, ps2[|ms2|], o, ps2, ms2);
      }
    } else if node.Parallel? {
      if node.children == [] {
        ps, ms := OneMove(w, c, p, h, ran, Move(false, Reject(path, node)), Done(Failed(map[]), []));
      } else {
        var q := Fork(node, path, bb, false, Branches(node, path, bb));
        var ps1, ms1 := OneMove(w, c, p, h, ran, Move(false, Enter(path, node)), q);
        var ps2, ms2 := EvalForkIsRun(w, c, node, path, [], false, q.kids, h, ran, bb);
        var o := Eval(w, c, inline, node, h, ran, bb);
        ps, ms := Then(w, c, p, h, ran, q, Outcome(Failed(map[]), h, ran), ps1, ms1, ps2[|ms2|], o, ps2, ms2);
      }
    } else {
      ps, ms := TimeoutIsRun(w, c, inline, node, path, h, ran, bb);
    }
  }

  lemma LeafIsRun(
      w: World, c: bool, inline: bool, leaf: Node, path: Path, h: History, ran: nat, bb: Facts)
      returns (ps: seq<Proc>, ms: seq<Move>)
    requires leaf.IsLeaf() && !c && !w.cancel(h)
    ensures Realizes(w, c, Ready(leaf, path, bb), h, ran, Eval(w, c, inline, leaf, h, ran, bb), ps, ms)
  {
    var r := LeafResult(w, h, inline, leaf, bb);
    LeafResultIsOutcome(w, h, inline, leaf, bb);
    if Lasting(w) && CutShort(leaf, r) {
      CutShortSeesCancel(w, h, inline, leaf, bb);
    }
    var p, q := Ready(leaf, path, bb), Busy(leaf, path, bb);
    var ps1, ms1 := OneMove(w, c, p, h, ran, Move(false, Begin(path, leaf, bb)), q);
    var ps2, ms2 := OneMove(w, c, q, h, ran, Move(CutShort(leaf, r), Finish(path, leaf, r)), Done(r, []));
    ps, ms := Then(w, c, p, h, ran, q, Outcome(Failed(map[]), h, ran), ps1, ms1,
                   Done(r, []), Eval(w, c, inline, leaf, h, ran, bb), ps2, ms2);
  }

  lemma {:induction false} TimeoutIsRun(
      w: World, c: bool, inline: bool, node: Node, path: Path, h: History, ran: nat, bb: Facts)
      returns (ps: seq<Proc>, ms: seq<Move>)
    requires node.Timeout? && !c && !w.cancel(h)
    ensures Realizes(w, c, Ready(node, path, bb), h, ran, Eval(w, c, inline, node, h, ran, bb), ps, ms)
    decreases node, 1, 0
  {
    var p := Ready(node, path, bb);
    if MalformedTimeout(node) {
      ps, ms := OneMove(w, c, p, h, ran, Move(false, Reject(path, node)), Done(Failed(map[]), []));
    } else {
      var child := Ready(node.child, path + [0], bb);
      var q := Guarded(node, path, bb, child);
      var none := Outcome(Failed(map[]), h, ran);
      var o := Eval(w, c, inline, node, h, ran, bb);
      var ps1, ms1 := OneMove(w, c, p, h, ran, Move(false, Enter(path, node)), q);
      if w.expires(h, node.timeoutSec) {
        var end := Done(Blocked(false, bb), [child]);
        var ps2, ms2 := OneMove(w, c, q, h, ran, Move(false, Fire(path)), end);
        ps, ms := Then(w, c, p, h, ran, q, none, ps1, ms1, end, o, ps2, ms2);
      } else {
        var ps2, ms2 := EvalIsRun(w, c, false, node.child, path + [0], h, ran, bb);
        var end := ps2[|ms2|];
        var qs := LiftGuarded(w, c, node, path, bb, child, h, ran, end, o, ps2, ms2);
        var ps3, ms3 := OneMove(w, c, Guarded(node, path, bb, end), o.hist, o.ran, Move(w.cancel(o.hist), Join(path)), end);
        var ps4, ms4 := Then(w, c, q, h, ran, Guarded(node, path, bb, end), o, qs, ms2, end, o, ps3, ms3);
        ps, ms := Then(w, c, p, h, ran, q, none, ps1, ms1, end, o, ps4, ms4);
      }
    }
  }

  lemma {:induction false} EvalFrameIsRun(
      w: World, c: bool, inline: bool, node: Node, path: Path, k: nat, left: seq<Proc>, h: History, ran: nat, facts: Facts)
      returns (ps: seq<Proc>, ms: seq<Move>)
    requires node.IsStepwise() && k < node.Slots()
    ensures Realizes(w, c, Frame(node, path, facts, k, left, Ready(node.Slot(k), SlotPath(node, path, k), facts)),
                     h, ran, EvalFrame(w, c, inline, node, k, h, ran, facts), ps, ms)
    decreases node, 1, node.Slots() - k
  {
    var child := Ready(node.Slot(k), SlotPath(node, path, k), facts);
    var o := Eval(w, c, inline, node.Slot(k), h, ran, facts);
    var final := EvalFrame(w, c, inline, node, k, h, ran, facts);
    var ps1, ms1 := EvalIsRun(w, c, inline, node.Slot(k), SlotPath(node, path, k), h, ran, facts);
    var end := ps1[|ms1|];
    var qs := LiftFrame(w, c, node, path, facts, k, left, child, h, ran, end, o, ps1, ms1);
    var p, q := Frame(node, path, facts, k, left, child), Frame(node, path, facts, k, left, end);
    var canceled := w.cancel(o.hist);
    var merged := facts + o.res.facts;
    match After(node, k, o.res, c || canceled)
    case Continue =>
      var next := Frame(node, path, merged, k + 1, left + end.left, Ready(node.Slot(k + 1), SlotPath(node, path, k + 1), merged));
      var ps2, ms2 := AdvanceIsRun(w, c, q, o.hist, o.ran, next);
      var ps3, ms3 := EvalFrameIsRun(w, c, inline, node, path, k + 1, left + end.left, o.hist, o.ran, merged);
      var ps4, ms4 := Then(w, c, q, o.hist, o.ran, next, Outcome(Failed(map[]), o.hist, o.ran), ps2, ms2,
                           ps3[|ms3|], final, ps3, ms3);
      ps, ms := Then(w, c, p, h, ran, q, o, qs, ms1, ps3[|ms3|], final, ps4, ms4);
    case Stop(success, blocked, needsDecision) =>
      var done := Done(ExecutionResult(success, blocked, needsDecision, merged), left + end.left);
      var ps2, ms2 := LeaveIsRun(w, c, q, o.hist, o.ran, done);
      ps, ms := Then(w, c, p, h, ran, q, o, qs, ms1, done, final, ps2, ms2);
  }

  lemma AdvanceIsRun(w: World, c: bool, q: Proc, h: History, ran: nat, next: Proc)
      returns (ps: seq<Proc>, ms: seq<Move>)
    requires q.Frame? && q.cur.Done? && Resume(c || w.cancel(h), q, Advance(q.path), next)
    ensures Leads(w, c, q, h, ran, next, Outcome(Failed(map[]), h, ran), ps, ms)
  {
    assert FrameStep(c || w.cancel(h), q, Advance(q.path), next);
    ps, ms := OneMove(w, c, q, h, ran, Move(w.cancel(h), Advance(q.path)), next);
  }

  lemma LeaveIsRun(w: World, c: bool, q: Proc, h: History, ran: nat, done: Proc)
      returns (ps: seq<Proc>, ms: seq<Move>)
    requires q.Frame? && q.cur.Done? && Resume(c || w.cancel(h), q, Leave(q.path, q.node, q.index + 1), done)
    ensures Leads(w, c, q, h, ran, done, Outcome(Failed(map[]), h, ran), ps, ms)
  {
    var l := Leave(q.path, q.node, q.index + 1);
    assert FrameStep(c || w.cancel(h), q, l, done);
    ps, ms := OneMove(w, c, q, h, ran, Move(w.cancel(h), l), done);
  }

  lemma {:induction false} EvalForkIsRun(
      w: World, c: bool, node: Node, path: Path, rs: seq<ExecutionResult>, failed: bool, kids: seq<Proc>,
      h: History, ran: nat, bb: Facts)
      returns (ps: seq<Proc>, ms: seq<Move>)
    requires node.Parallel? && |rs| <= |node.children| == |kids|
    requires forall j :: 0 <= j < |rs| ==> kids[j].Done? && kids[j].res == rs[j]
    requires forall j :: |rs| <= j < |kids| ==> kids[j] == Ready(node.children[j], path + [j], bb)
    requires failed == FailureCancels(node, kids)
    ensures Realizes(w, c, Fork(node, path, bb, failed, kids), h, ran,
                     EvalFork(w, c, node, rs, failed, h, ran, bb), ps, ms)
    decreases node, 1, |node.children| - |rs|
  {
    var p := Fork(node, path, bb, failed, kids);
    var i := |rs|;
    if i == |kids| {
      assert Results(kids) == rs;
      ps, ms := OneMove(w, c, p, h, ran, Move(w.cancel(h), Join(path)), Done(Merge(bb, rs), LeftBehind(kids)));
    } else {
      var o := Eval(w, c || failed, false, node.children[i], h, ran, bb);
      var ps1, ms1 := EvalIsRun(w, c || failed, false, node.children[i], path + [i], h, ran, bb);
      var failed', qs := LiftFork(w, c, node, path, bb, failed, kids, i, h, ran, o, ps1, ms1);
      var kids' := kids[i := ps1[|ms1|]];
      var q := Fork(node, path, bb, failed', kids');
      var ps2, ms2 := EvalForkIsRun(w, c, node, path, rs + [o.res], failed', kids', o.hist, o.ran, bb);
      ps, ms := Then(w, c, p, h, ran, q, o, qs, ms1, ps2[|ms2|],
                     EvalFork(w, c, node, rs, failed, h, ran, bb), ps2, ms2);
    }
  }

  // One execution of the whole tree, as BtExecutor.Run performs it.
  function Execution(w: World, root: Node): Outcome {
    Eval(w, false, true, root, [], 0, map[])
  }

  // The executor's progress counter never passes the leaf count, so the
  // fraction it reports is completed / total, unclamped.
  lemma CounterWithinTotal(reg: Registry, known: set<string>, w: World, root: Node)
    requires Validated(reg, known, root)
    ensures Execution(w, root).ran <= CountProgressLeaves(root)
  {
    var ps, ms := EvalIsRun(w, false, true, root, [], [], 0, map[]);
    ClampNeverNeeded(reg, known, root, ps, ms, |ms|);
  }

  // Where no Retry makes a second attempt, a successful execution without
  // Fallbacks has counted every leaf at its end.
  lemma ExecutorEndsAtOne(reg: Registry, known: set<string>, w: World, root: Node)
    requires Validated(reg, known, root) && FallbackFree(root) && NeverRepeats(root)
    requires Lasting(w) && Execution(w, root).res.success
    ensures Execution(w, root).ran == CountProgressLeaves(root)
  {
    var ps, ms := EvalIsRun(w, false, true, root, [], [], 0, map[]);
    AttentiveIsSteady(w, [], ms);
    SingleAttemptsEndAtOne(reg, known, root, ps, ms);
    CounterWithinTotal(reg, known, w, root);
    CountIsTally(reg, known, root);
    FullFraction(Execution(w, root).ran, CountProgressLeaves(root));
  }

  lemma FullFraction(completed: nat, total: nat)
    requires completed <= total && total >= 1 && Fraction(completed, total) == 1.0
    ensures completed == total
  {
  }

  // The executor calls no more skills than the policy allows.
  lemma ExecutorWithinBudget(reg: Registry, known: set<string>, rules: Rules, w: World, root: Node, goal: GoalSpec)
      returns (ps: seq<Proc>, ms: seq<Move>)
    requires Validated(reg, known, root) && PolicyOk(reg, rules, root, goal, Absent)
    ensures IsExecution(root, ps, ms) && Replay(w, [], ms) == Execution(w, root).hist
    ensures ps[|ms|].Done? && ps[|ms|].res == Execution(w, root).res
    ensures Begins(AnyAction, ms) <= rules.limits.totalActions && Begins(Physical(reg), ms) <= rules.limits.physicalActions
  {
    ps, ms := EvalIsRun(w, false, true, root, [], [], 0, map[]);
    BudgetsBoundEveryRun(reg, known, rules, root, goal, ps, ms);
  }

  lemma {:induction false} ReplayedFlags(w: World, ms: seq<Move>)
    requires forall n :: w.visible(n)
    ensures (exists v :: v in Replay(w, [], ms) && v.blocked)
       <==> (exists i :: 0 <= i < |ms| && ms[i].act.Finish? && ms[i].act.res.blocked)
    ensures (exists v :: v in Replay(w, [], ms) && v.needsDecision)
       <==> (exists i :: 0 <= i < |ms| && ms[i].act.Finish? && ms[i].act.res.needsDecision)
  {
    if ms != [] {
      var n := |ms| - 1;
      ReplayedFlags(w, ms[..n]);
      assert forall i :: 0 <= i < n ==> ms[..n][i] == ms[i];
      var l, before := ms[n].act, Replay(w, [], ms[..n]);
      if l.Finish? {
        var v := Visit(Bare(l.leaf), l.res.success, l.res.blocked, l.res.needsDecision);
        assert Replay(w, [], ms) == before + [v];
        assert v in Replay(w, [], ms);
      }
    }
  }

  // The executor's flags are those of its trace: while no Timeout expires, it is
  // blocked (asks for a decision) exactly when some leaf it visited did.
  lemma ExecutorFlagsAreTraceFlags(w: World, root: Node)
    requires Patient(w) && forall n :: w.visible(n)
    ensures Execution(w, root).res.blocked <==> exists v :: v in Execution(w, root).hist && v.blocked
    ensures Execution(w, root).res.needsDecision <==> exists v :: v in Execution(w, root).hist && v.needsDecision
  {
    var ps, ms := EvalIsRun(w, false, true, root, [], [], 0, map[]);
    ReplayedFlags(w, ms);
    RootFlagsAreLeafFlags(root, ps, ms);
  }

  // ---- A successful run that ends short of 1: a Retry repeats a whole Sequence,
  // and the leaves behind the failed one of the first attempt are never made up for.

  const TRY := Action("a", "try", map[], None)
  const THEN := NoAction("b")
  const RETRIED := Retry("r", 2, Sequence("s", [TRY, THEN]))
  const ONE_SKILL: Registry := map["try" := SkillSpec({}, [], Embodied, true, {}, false)]

  // The first call of the skill fails, the later ones succeed.
  function SecondTimeLucky(): World {
    World((h, s, a) => SkillReport(if h == [] then Failed(map[]) else Succeeded(map[]), None),
          (h, n) => None, (h, k) => None, (h, p, n) => None, k => false, (h, d) => false,
          (h, n) => NoChecker, h => false, (h, d) => false, n => true)
  }

  lemma {:induction false} RetriedOutcome()
    ensures Execution(SecondTimeLucky(), RETRIED).res.success
    ensures Execution(SecondTimeLucky(), RETRIED).ran == 3
    ensures |Execution(SecondTimeLucky(), RETRIED).hist| == 3
  {
    var w := SecondTimeLucky();
    var body := RETRIED.child;
    var none: Facts := map[];
    assert none + none == none;
    var v1 := Visit(Bare(TRY), false, false, false);
    var v2 := Visit(Bare(TRY), true, false, false);
    var v3 := Visit(Bare(THEN), true, false, false);
    assert Eval(w, false, false, TRY, [], 0, none) == Outcome(Failed(none), [v1], 1);
    assert EvalFrame(w, false, false, body, 0, [], 0, none) == Outcome(Failed(none), [v1], 1);
    assert Eval(w, false, false, body, [], 0, none) == Outcome(Failed(none), [v1], 1);
    assert Eval(w, false, false, TRY, [v1], 1, none) == Outcome(Succeeded(none), [v1, v2], 2);
    assert Eval(w, false, false, THEN, [v1, v2], 2, none) == Outcome(Succeeded(none), [v1, v2, v3], 3);
    assert EvalFrame(w, false, false, body, 1, [v1, v2], 2, none) == Outcome(Succeeded(none), [v1, v2, v3], 3);
    assert EvalFrame(w, false, false, body, 0, [v1], 1, none) == Outcome(Succeeded(none), [v1, v2, v3], 3);
    assert Eval(w, false, false, body, [v1], 1, none) == Outcome(Succeeded(none), [v1, v2, v3], 3);
    assert EvalFrame(w, false, false, RETRIED, 1, [v1], 1, none) == Outcome(Succeeded(none), [v1, v2, v3], 3);
    assert EvalFrame(w, false, false, RETRIED, 0, [], 0, none) == Outcome(Succeeded(none), [v1, v2, v3], 3);
  }

  lemma RetriedIsSound()
    ensures Validated(ONE_SKILL, {}, RETRIED) && FallbackFree(RETRIED)
  {
    var body := RETRIED.child;
    assert Strip("try") == "try";
    assert AllValidated(ONE_SKILL, {}, body.children);
    var p := (n: Node) => n.Fallback?;
    assert !AnyContains(body.children, p);
    assert !Contains(body, p);
  }

  lemma RetriedCount()
    ensures CountProgressLeaves(RETRIED) == 4
  {
    var body := RETRIED.child;
    assert body.children[1..][0] == THEN && body.children[1..][1..] == [];
    assert CountAll([]) == 0 && CountProgressLeaves(TRY) == 1 && CountProgressLeaves(THEN) == 1;
    assert CountAll(body.children[1..]) == CountProgressLeaves(THEN) + CountAll([]);
    assert CountAll(body.children) == CountProgressLeaves(TRY) + CountAll(body.children[1..]);
  }

  // A validated, Fallback-free tree, a successful run that uses both attempts of
  // its Retry, and a final progress of three quarters.
  lemma SuccessMayEndShort() returns (ps: seq<Proc>, ms: seq<Move>)
    ensures Validated(ONE_SKILL, {}, RETRIED) && FallbackFree(RETRIED)
    ensures IsExecution(RETRIED, ps, ms) && Steady(ms) && ps[|ms|].Done? && ps[|ms|].res.success
    ensures |Replay(SecondTimeLucky(), [], ms)| == 3
    ensures Fraction(Completed(ms), CountProgressLeaves(RETRIED)) == 0.75
  {
    RetriedIsSound();
    RetriedOutcome();
    RetriedCount();
    ps, ms := EvalIsRun(SecondTimeLucky(), false, true, RETRIED, [], [], 0, map[]);
    AttentiveIsSteady(SecondTimeLucky(), [], ms);
  }
}
