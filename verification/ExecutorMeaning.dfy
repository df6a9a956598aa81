// What one execute() call means, in terms of what the world answers: the leaves
// one by one, and the composites as folds over the calls they make.
module ExecutorMeaning {
  import opened Common
  import opened BehaviourTree
  import opened Goals
  import opened Executor

  // ---- Leaves.

  // A leaf that is called is visited and counted once; a call that finds the
  // cancel flag set visits and counts nothing.
  lemma LeafIsVisitedOnce(w: World, c: bool, inline: bool, leaf: Node, h: History, ran: nat, bb: Facts)
    requires leaf.IsLeaf()
    ensures
      var o := Eval(w, c, inline, leaf, h, ran, bb);
      if c || w.cancel(h) then o.hist == h && o.ran == ran && o.res == Failed(map[])
      else
        && o.ran == ran + 1
        && (if w.visible(Bare(leaf)) then |o.hist| == |h| + 1 && o.hist[..|h|] == h && Shows(o.hist[|h|], leaf, o.res)
            else o.hist == h)
  {
  }

  predicate Shows(v: Visit, leaf: Node, r: ExecutionResult) {
    v.leaf == Bare(leaf) && v.success == r.success && v.blocked == r.blocked && v.needsDecision == r.needsDecision
  }

  // The predicate that a check leaf puts to the resolver.
  function Question(leaf: Node): string
    requires leaf.Condition? || leaf.GoalCheck?
  {
    if leaf.Condition? then leaf.predicateName else leaf.check.predicateName
  }

  // The checker's answer decides a Condition or GoalCheck; where it does not know,
  // the resolver's does, in the positions that may ask it. Left undecided the leaf
  // asks for a decision, and without a checker it is blocked.
  lemma CheckLeafMeans(w: World, inline: bool, leaf: Node, h: History, ran: nat, bb: Facts)
    requires (leaf.Condition? || leaf.GoalCheck?) && !w.cancel(h)
    ensures
      var r := Eval(w, false, inline, leaf, h, ran, bb).res;
      var says, decides := w.check(h, Bare(leaf)), w.resolve(h, Question(leaf), Bare(leaf));
      var asked := inline && says == Some(UnknownState);
      && (r.success <==> says == Some(TrueState) || (asked && decides == Some(TrueState)))
      && (!r.success && !r.blocked <==> says == Some(FalseState) || (asked && decides == Some(FalseState)))
      && (r.needsDecision <==>
            says == Some(UnknownState) && !(inline && (decides == Some(TrueState) || decides == Some(FalseState))))
      && (r.blocked && !r.needsDecision <==> says == None)
      && r.facts == bb
  {
  }

  // The answer to a visual check: the structured form's if it has one, otherwise
  // the visual service's.
  function Seen(w: World, h: History, leaf: Node): Option<TriState>
    requires leaf.VisualCheck?
  {
    var structured := if w.structured(leaf.check) then w.check(h, Bare(leaf)) else None;
    if structured == Some(TrueState) || structured == Some(FalseState) then structured else w.visual(h, leaf.check)
  }

  // A condition succeeds and fails with the answer. An observation succeeds with
  // either answer and records which it was, under its own query.
  lemma VisualLeafMeans(w: World, inline: bool, leaf: Node, h: History, ran: nat, bb: Facts)
    requires leaf.VisualCheck? && !w.cancel(h)
    ensures
      var r := Eval(w, false, inline, leaf, h, ran, bb).res;
      var answer := Seen(w, h, leaf);
      && (r.needsDecision <==> answer == Some(UnknownState))
      && (r.blocked && !r.needsDecision <==> answer == None)
      && (leaf.mode == ConditionMode ==>
            && (r.success <==> answer == Some(TrueState))
            && (!r.success && !r.blocked <==> answer == Some(FalseState))
            && r.facts == bb)
      && (leaf.mode == ObserveMode ==>
            && (r.success <==> answer == Some(TrueState) || answer == Some(FalseState))
            && (!r.success ==> r.blocked && r.facts == bb)
            && (r.success ==>
                  r.facts == bb["visual_check_result" := Observation(true, answer == Some(TrueState), leaf.check.query)]))
  {
  }

  // A blocked approach whose arrival is in question is put to the resolver, where
  // that is allowed and there is one: its answer settles the Action either way, and
  // no answer leaves it blocked without asking. Any other result is the skill's own.
  lemma ActionLeafMeans(w: World, inline: bool, leaf: Node, h: History, ran: nat, bb: Facts)
    requires leaf.Action? && !w.cancel(h)
    requires leaf.skill != "" && (leaf.limitSec.Some? ==> 0.0 < leaf.limitSec.value <= 600.0)
    ensures
      var r := Eval(w, false, inline, leaf, h, ran, bb).res;
      var report := w.skill(h, leaf.skill, leaf.args - {"node_id"});
      var decides := w.resolve(h, "entity_approached", Bare(leaf));
      var open := inline && report.result.blocked && leaf.skill == "approach_entity" && report.request == Some("entity_approached");
      && (r.success <==> report.result.success || (open && decides == Some(TrueState)))
      && (r.blocked <==> report.result.blocked && !(open && (decides == Some(TrueState) || decides == Some(FalseState))))
      && !r.needsDecision
      && r.facts == report.result.facts
  {
  }

  lemma MalformedActionFails(w: World, inline: bool, leaf: Node, h: History, ran: nat, bb: Facts)
    requires leaf.Action? && !w.cancel(h)
    requires leaf.skill == "" || (leaf.limitSec.Some? && (leaf.limitSec.value <= 0.0 || leaf.limitSec.value > 600.0))
    ensures Eval(w, false, inline, leaf, h, ran, bb).res == Failed(map[])
  {
  }

  lemma WaitingLeafMeans(w: World, inline: bool, leaf: Node, h: History, ran: nat, bb: Facts)
    requires (leaf.Wait? || leaf.WaitForEvent? || leaf.NoAction?) && !w.cancel(h)
    ensures
      var r := Eval(w, false, inline, leaf, h, ran, bb).res;
      && (leaf.NoAction? ==> r.success && r.facts == bb)
      && (leaf.Wait? ==>
            && !r.blocked
            && (r.success <==> 0.0 < leaf.durationSec <= 300.0 && !w.interrupted(h, leaf.durationSec)))
      && (leaf.WaitForEvent? ==>
            var happens := w.event(h, Bare(leaf));
            && (r.success <==> happens == Happened)
            && (r.needsDecision <==> happens == TimedOut)
            && (r.blocked && !r.needsDecision <==> happens == NoChecker)
            && (r.success || r.blocked ==> r.facts == bb))
  {
  }

  // ---- Composites: what a chain of calls leaves behind.

  // The history, the leaf count and the facts at one moment.
  datatype Point = Point(hist: History, ran: nat, facts: Facts)

  // Where the k-th call of a chain starts: behind the ones before it, with the
  // facts that each of them added.
  function Chain(w: World, inline: bool, calls: seq<Node>, start: Point, k: nat): Point
    requires k <= |calls|
  {
    if k == 0 then start
    else
      var p := Chain(w, inline, calls, start, k - 1);
      var o := Eval(w, false, inline, calls[k - 1], p.hist, p.ran, p.facts);
      Point(o.hist, o.ran, p.facts + o.res.facts)
  }

  function Call(w: World, inline: bool, calls: seq<Node>, start: Point, k: nat): ExecutionResult
    requires k < |calls|
  {
    var p := Chain(w, inline, calls, start, k);
    Eval(w, false, inline, calls[k], p.hist, p.ran, p.facts).res
  }

  function CallsOf(node: Node): (calls: seq<Node>)
    requires node.IsStepwise()
    ensures |calls| == node.Slots() && forall k :: 0 <= k < |calls| ==> calls[k] == node.Slot(k)
  {
    seq(node.Slots(), k requires 0 <= k < node.Slots() => node.Slot(k))
  }

  function Repeated(n: nat, node: Node): (calls: seq<Node>)
    ensures |calls| == n && forall k :: 0 <= k < n ==> calls[k] == node
  {
    seq(n, (k: int) => node)
  }

  // The outcome o is what n calls of the chain leave behind.
  ghost predicate Made(w: World, inline: bool, calls: seq<Node>, start: Point, n: nat, o: Outcome) {
    n <= |calls| && Chain(w, inline, calls, start, n) == Point(o.hist, o.ran, o.res.facts)
  }

  // The flags of the last of n calls are the flags of r.
  ghost predicate Ends(w: World, inline: bool, calls: seq<Node>, start: Point, n: nat, r: ExecutionResult) {
    && 0 < n <= |calls|
    && var last := Call(w, inline, calls, start, n - 1);
       last.success == r.success && last.blocked == r.blocked && last.needsDecision == r.needsDecision
  }

  // A Sequence calls its children in turn up to the first that does not succeed,
  // and ends as that one does; it succeeds when there is none.
  lemma SequenceMeans(w: World, inline: bool, node: Node, h: History, ran: nat, bb: Facts) returns (n: nat)
    requires node.Sequence? && !w.cancel(h)
    ensures Made(w, inline, node.children, Point(h, ran, bb), n, Eval(w, false, inline, node, h, ran, bb))
    ensures
      var calls, start, r := node.children, Point(h, ran, bb), Eval(w, false, inline, node, h, ran, bb).res;
      && (forall k :: 0 <= k < n - 1 ==> Call(w, inline, calls, start, k).success)
      && (r.success ==> n == |calls| && forall k :: 0 <= k < n ==> Call(w, inline, calls, start, k).success)
      && (!r.success ==> Ends(w, inline, calls, start, n, r))
  {
    if node.children == [] {
      n := 0;
    } else {
      assert CallsOf(node) == node.children;
      n := FrameMeans(w, inline, node, Point(h, ran, bb), 0, Eval(w, false, inline, node, h, ran, bb));
      SequenceGoesOn(w, inline, node, Point(h, ran, bb), n);
    }
  }

  lemma SequenceGoesOn(w: World, inline: bool, node: Node, start: Point, n: nat)
    requires node.Sequence? && 0 < n <= |node.children|
    requires forall k :: 0 <= k < n - 1 ==> Behind(w, inline, node, start, k) == Continue
    ensures forall k :: 0 <= k < n - 1 ==> Call(w, inline, node.children, start, k).success
    ensures
      var last, v := Call(w, inline, node.children, start, n - 1), Behind(w, inline, node, start, n - 1);
      v != Continue ==>
        if last.success then v == Stop(true, false, false) && n == |node.children|
        else v == Stop(false, last.blocked, last.needsDecision)
  {
    assert CallsOf(node) == node.children;
    forall k | 0 <= k < n - 1
      ensures Call(w, inline, node.children, start, k).success
    {
      assert Behind(w, inline, node, start, k) == Continue;
    }
  }

  // A Fallback calls its children in turn up to the first that succeeds or is
  // blocked, and ends as that one does; it fails unblocked when there is none.
  lemma FallbackMeans(w: World, inline: bool, node: Node, h: History, ran: nat, bb: Facts) returns (n: nat)
    requires node.Fallback? && !w.cancel(h)
    ensures Made(w, inline, node.children, Point(h, ran, bb), n, Eval(w, false, inline, node, h, ran, bb))
    ensures
      var calls, start, r := node.children, Point(h, ran, bb), Eval(w, false, inline, node, h, ran, bb).res;
      && (forall k :: 0 <= k < n - 1 ==> Declined(Call(w, inline, calls, start, k)))
      && (Declined(r) ==> n == |calls| && forall k :: 0 <= k < n ==> Declined(Call(w, inline, calls, start, k)))
      && (!Declined(r) ==> Ends(w, inline, calls, start, n, r))
  {
    if node.children == [] {
      n := 0;
    } else {
      assert CallsOf(node) == node.children;
      n := FrameMeans(w, inline, node, Point(h, ran, bb), 0, Eval(w, false, inline, node, h, ran, bb));
      TriesGoOn(w, inline, node, node.children, Point(h, ran, bb), n);
    }
  }

  predicate Declined(r: ExecutionResult) {
    !r.success && !r.blocked
  }

  // A Retry calls its child, out of reach of the resolver, until it succeeds or is
  // blocked, the attempts are used up or the cancel flag is seen; it ends as the
  // last attempt did.
  lemma RetryMeans(w: World, inline: bool, node: Node, h: History, ran: nat, bb: Facts) returns (n: nat)
    requires node.Retry? && 1 <= node.maxAttempts <= 5 && !w.cancel(h)
    ensures
      var calls := Repeated(node.maxAttempts, node.child);
      Made(w, false, calls, Point(h, ran, bb), n, Eval(w, false, inline, node, h, ran, bb))
    ensures
      var calls, start, o := Repeated(node.maxAttempts, node.child), Point(h, ran, bb), Eval(w, false, inline, node, h, ran, bb);
      && (forall k :: 0 <= k < n - 1 ==>
            Declined(Call(w, false, calls, start, k)) && !w.cancel(Chain(w, false, calls, start, k + 1).hist))
      && Ends(w, false, calls, start, n, o.res)
      && (Declined(o.res) ==> n == node.maxAttempts || w.cancel(o.hist))
  {
    assert CallsOf(node) == Repeated(node.maxAttempts, node.child);
    n := FrameMeans(w, false, node, Point(h, ran, bb), 0, Eval(w, false, inline, node, h, ran, bb));
    TriesGoOn(w, false, node, Repeated(node.maxAttempts, node.child), Point(h, ran, bb), n);
  }

  // Fallbacks and Retries go on behind a call that neither succeeds nor blocks.
  lemma TriesGoOn(w: World, inline: bool, node: Node, calls: seq<Node>, start: Point, n: nat)
    requires (node.Fallback? || node.Retry?) && 0 < n <= node.Slots() && calls == CallsOf(node)
    requires forall k :: 0 <= k < n - 1 ==> Behind(w, inline, node, start, k) == Continue
    ensures forall k :: 0 <= k < n - 1 ==>
      && Declined(Call(w, inline, calls, start, k))
      && (node.Retry? ==> !w.cancel(Chain(w, inline, calls, start, k + 1).hist))
    ensures
      var last, v := Call(w, inline, calls, start, n - 1), Behind(w, inline, node, start, n - 1);
      v != Continue ==>
        && v == Stop(last.success, last.blocked, last.needsDecision)
        && (Declined(last) ==> n == node.Slots() || (node.Retry? && w.cancel(Chain(w, inline, calls, start, n).hist)))
  {
    forall k | 0 <= k < n - 1
      ensures Declined(Call(w, inline, calls, start, k))
      ensures node.Retry? ==> !w.cancel(Chain(w, inline, calls, start, k + 1).hist)
    {
      assert Behind(w, inline, node, start, k) == Continue;
    }
    CallIsCoherent(w, inline, calls, start, n - 1);
  }

  // What a stepwise node does behind its k-th call.
  function Behind(w: World, inline: bool, node: Node, start: Point, k: nat): Verdict
    requires node.IsStepwise() && k < node.Slots()
  {
    var calls := CallsOf(node);
    After(node, k, Call(w, inline, calls, start, k), w.cancel(Chain(w, inline, calls, start, k + 1).hist))
  }

  // From its k-th call on the node goes on up to its n-th call, and there stops with o.
  ghost predicate StopsBehind(w: World, inline: bool, node: Node, start: Point, k: nat, n: nat, o: Outcome)
    requires node.IsStepwise()
  {
    && k < n <= node.Slots()
    && (forall i :: k <= i < n - 1 ==> Behind(w, inline, node, start, i) == Continue)
    && Made(w, inline, CallsOf(node), start, n, o)
    && Behind(w, inline, node, start, n - 1) == Stop(o.res.success, o.res.blocked, o.res.needsDecision)
  }

  function FrameFrom(w: World, inline: bool, node: Node, start: Point, k: nat): Outcome
    requires node.IsStepwise() && k < node.Slots()
  {
    var p := Chain(w, inline, CallsOf(node), start, k);
    EvalFrame(w, false, inline, node, k, p.hist, p.ran, p.facts)
  }

  // A stepwise node from its k-th call on.
  lemma {:induction false} FrameMeans(w: World, inline: bool, node: Node, start: Point, k: nat, o: Outcome) returns (n: nat)
    requires node.IsStepwise() && k < node.Slots() && o == FrameFrom(w, inline, node, start, k)
    ensures StopsBehind(w, inline, node, start, k, n, o)
    decreases node.Slots() - k
  {
    FrameStep(w, inline, node, start, k);
    if Behind(w, inline, node, start, k) == Continue {
      n := FrameMeans(w, inline, node, start, k + 1, o);
      StopsLater(w, inline, node, start, k, n, o);
    } else {
      n := k + 1;
      StopsHere(w, inline, node, start, k, o);
    }
  }

  lemma StopsLater(w: World, inline: bool, node: Node, start: Point, k: nat, n: nat, o: Outcome)
    requires node.IsStepwise() && k < node.Slots() && Behind(w, inline, node, start, k) == Continue
    requires StopsBehind(w, inline, node, start, k + 1, n, o)
    ensures StopsBehind(w, inline, node, start, k, n, o)
  {
  }

  lemma StopsHere(w: World, inline: bool, node: Node, start: Point, k: nat, o: Outcome)
    requires node.IsStepwise() && k < node.Slots()
    requires Made(w, inline, CallsOf(node), start, k + 1, o)
    requires Behind(w, inline, node, start, k) == Stop(o.res.success, o.res.blocked, o.res.needsDecision)
    ensures StopsBehind(w, inline, node, start, k, k + 1, o)
  {
  }

  lemma FrameStep(w: World, inline: bool, node: Node, start: Point, k: nat)
    requires node.IsStepwise() && k < node.Slots()
    ensures
      var o := FrameFrom(w, inline, node, start, k);
      match Behind(w, inline, node, start, k)
      case Continue => o == FrameFrom(w, inline, node, start, k + 1)
      case Stop(success, blocked, needsDecision) =>
        && Made(w, inline, CallsOf(node), start, k + 1, o)
        && success == o.res.success && blocked == o.res.blocked && needsDecision == o.res.needsDecision
  {
    var p := Chain(w, inline, CallsOf(node), start, k);
    var o := Eval(w, false, inline, node.Slot(k), p.hist, p.ran, p.facts);
    assert Chain(w, inline, CallsOf(node), start, k + 1) == Point(o.hist, o.ran, p.facts + o.res.facts);
  }

  lemma CallIsCoherent(w: World, inline: bool, calls: seq<Node>, start: Point, k: nat)
    requires k < |calls|
    ensures Coherent(Call(w, inline, calls, start, k))
  {
    EvalIsCoherent(w, inline, calls[k], Chain(w, inline, calls, start, k));
  }

  lemma EvalIsCoherent(w: World, inline: bool, node: Node, p: Point)
    ensures Coherent(Eval(w, false, inline, node, p.hist, p.ran, p.facts).res)
  {
    EvalCoherent(w, false, inline, node, p.hist, p.ran, p.facts);
  }

  // ---- Branches and limits.

  // Where the k-th branch of a Parallel starts, and whether it finds the flag of
  // its siblings set: branches share the starting facts, not each other's.
  datatype Branching = Branching(hist: History, ran: nat, failed: bool)

  function BranchStart(w: World, node: Node, start: Point, k: nat): Branching
    requires node.Parallel? && k <= |node.children|
  {
    if k == 0 then Branching(start.hist, start.ran, false)
    else
      var b := BranchStart(w, node, start, k - 1);
      var o := Eval(w, b.failed, false, node.children[k - 1], b.hist, b.ran, start.facts);
      Branching(o.hist, o.ran, b.failed || (node.cancelOnFailure && !o.res.success))
  }

  function BranchResult(w: World, node: Node, start: Point, k: nat): ExecutionResult
    requires node.Parallel? && k < |node.children|
  {
    var b := BranchStart(w, node, start, k);
    Eval(w, b.failed, false, node.children[k], b.hist, b.ran, start.facts).res
  }

  function BranchResults(w: World, node: Node, start: Point, n: nat): (rs: seq<ExecutionResult>)
    requires node.Parallel? && n <= |node.children|
    ensures |rs| == n && forall k :: 0 <= k < n ==> rs[k] == BranchResult(w, node, start, k)
  {
    seq(n, k requires 0 <= k < n => BranchResult(w, node, start, k))
  }

  // A branch finds the flag set exactly if an earlier one failed and failures cancel.
  lemma {:induction false} FlagMeansFailure(w: World, node: Node, start: Point, k: nat)
    requires node.Parallel? && k <= |node.children|
    ensures BranchStart(w, node, start, k).failed <==>
      node.cancelOnFailure && exists j :: 0 <= j < k && !BranchResult(w, node, start, j).success
  {
    if k > 0 {
      FlagMeansFailure(w, node, start, k - 1);
      if node.cancelOnFailure && !BranchResult(w, node, start, k - 1).success {
        assert BranchStart(w, node, start, k).failed;
      }
    }
  }

  // A Parallel calls every branch, succeeds when all of them do, is blocked when
  // one is and asks when one does. A fact is what the last branch that has it says,
  // or what it was at the start.
  lemma ParallelMeans(w: World, inline: bool, node: Node, h: History, ran: nat, bb: Facts)
    requires node.Parallel? && node.children != [] && !w.cancel(h)
    ensures
      var start, n, o := Point(h, ran, bb), |node.children|, Eval(w, false, inline, node, h, ran, bb);
      && o.hist == BranchStart(w, node, start, n).hist && o.ran == BranchStart(w, node, start, n).ran
      && (o.res.success <==> forall k :: 0 <= k < n ==> BranchResult(w, node, start, k).success)
      && (o.res.blocked <==> exists k :: 0 <= k < n && BranchResult(w, node, start, k).blocked)
      && (o.res.needsDecision <==> exists k :: 0 <= k < n && BranchResult(w, node, start, k).needsDecision)
      && LastWord(bb, BranchResults(w, node, start, n), o.res.facts)
  {
    var start, n := Point(h, ran, bb), |node.children|;
    assert ForkFrom(w, node, start, 0) == Eval(w, false, inline, node, h, ran, bb) by {
      assert BranchResults(w, node, start, 0) == [];
    }
    ForkMeans(w, node, start, 0);
    var rs := BranchResults(w, node, start, n);
    forall k | 0 <= k < n
      ensures Coherent(rs[k])
    {
      var b := BranchStart(w, node, start, k);
      EvalCoherent(w, b.failed, false, node.children[k], b.hist, b.ran, bb);
    }
    MergeFlags(bb, rs);
    MergeFacts(bb, rs);
  }

  ghost predicate LastWord(bb: Facts, rs: seq<ExecutionResult>, facts: Facts) {
    forall key ::
      && (key in facts <==> key in bb || exists k :: 0 <= k < |rs| && key in rs[k].facts)
      && (key in facts ==> SaysLast(bb, rs, key, facts[key]))
  }

  ghost predicate SaysLast(bb: Facts, rs: seq<ExecutionResult>, key: string, fact: Fact) {
    || (exists k :: 0 <= k < |rs| && key in rs[k].facts && rs[k].facts[key] == fact
                    && forall j :: k < j < |rs| ==> key !in rs[j].facts)
    || (key in bb && bb[key] == fact && forall j :: 0 <= j < |rs| ==> key !in rs[j].facts)
  }

  lemma {:induction false} MergeFacts(bb: Facts, rs: seq<ExecutionResult>)
    ensures LastWord(bb, rs, Merge(bb, rs).facts)
  {
    if rs != [] {
      var n := |rs| - 1;
      MergeFacts(bb, rs[..n]);
      var facts := Merge(bb, rs).facts;
      forall key
        ensures key in facts <==> key in bb || exists k :: 0 <= k < |rs| && key in rs[k].facts
        ensures key in facts ==> SaysLast(bb, rs, key, facts[key])
      {
        MergeFact(bb, rs, key);
      }
    }
  }

  lemma MergeFact(bb: Facts, rs: seq<ExecutionResult>, key: string)
    requires rs != [] && LastWord(bb, rs[..|rs| - 1], Merge(bb, rs[..|rs| - 1]).facts)
    ensures
      var facts := Merge(bb, rs).facts;
      && (key in facts <==> key in bb || exists k :: 0 <= k < |rs| && key in rs[k].facts)
      && (key in facts ==> SaysLast(bb, rs, key, facts[key]))
  {
    var n := |rs| - 1;
    var before, facts := Merge(bb, rs[..n]).facts, Merge(bb, rs).facts;
    assert facts == before + rs[n].facts;
    if key in rs[n].facts {
      assert SaysLast(bb, rs, key, facts[key]);
    } else if key in before {
      assert SaysLast(bb, rs[..n], key, before[key]);
      if k :| 0 <= k < n && key in rs[..n][k].facts && rs[..n][k].facts[key] == before[key]
              && forall j :: k < j < n ==> key !in rs[..n][j].facts {
        assert forall j :: k < j < |rs| ==> j == n || rs[j] == rs[..n][j];
        assert key in rs[k].facts && rs[k].facts[key] == facts[key];
      } else {
        assert forall j :: 0 <= j < |rs| ==> j == n || rs[j] == rs[..n][j];
      }
    } else {
      assert forall k :: 0 <= k < |rs| ==> k == n || rs[k] == rs[..n][k];
    }
  }

  function ForkFrom(w: World, node: Node, start: Point, k: nat): Outcome
    requires node.Parallel? && k <= |node.children|
  {
    var b := BranchStart(w, node, start, k);
    EvalFork(w, false, node, BranchResults(w, node, start, k), b.failed, b.hist, b.ran, start.facts)
  }

  // A Parallel from its k-th branch on.
  lemma {:induction false} ForkMeans(w: World, node: Node, start: Point, k: nat)
    requires node.Parallel? && k <= |node.children|
    ensures ForkFrom(w, node, start, k) == ForkFrom(w, node, start, |node.children|)
    decreases |node.children| - k
  {
    if k < |node.children| {
      ForkStep(w, node, start, k);
      ForkMeans(w, node, start, k + 1);
    }
  }

  lemma ForkStep(w: World, node: Node, start: Point, k: nat)
    requires node.Parallel? && k < |node.children|
    ensures ForkFrom(w, node, start, k) == ForkFrom(w, node, start, k + 1)
  {
    assert BranchResults(w, node, start, k + 1) == BranchResults(w, node, start, k) + [BranchResult(w, node, start, k)];
  }

  // A Timeout returns its child's result, unless it expires first: then it is
  // blocked, asks for nothing and adds no facts.
  lemma TimeoutMeans(w: World, inline: bool, node: Node, h: History, ran: nat, bb: Facts)
    requires node.Timeout? && 0.0 < node.timeoutSec <= 600.0 && !w.cancel(h)
    ensures Eval(w, false, inline, node, h, ran, bb) ==
      if w.expires(h, node.timeoutSec) then Outcome(ExecutionResult(false, true, false, bb), h, ran)
      else Eval(w, false, false, node.child, h, ran, bb)
  {
  }

  // Composites that cannot run fail unblocked, but for an empty Sequence, which
  // has nothing to fail at.
  lemma NothingToCall(w: World, inline: bool, node: Node, h: History, ran: nat, bb: Facts)
    requires !w.cancel(h)
    requires
      || ((node.Sequence? || node.Fallback? || node.Parallel?) && node.children == [])
      || (node.Retry? && (node.maxAttempts < 1 || node.maxAttempts > 5))
      || (node.Timeout? && (node.timeoutSec <= 0.0 || node.timeoutSec > 600.0))
    ensures
      var o := Eval(w, false, inline, node, h, ran, bb);
      o.hist == h && o.ran == ran && !o.res.blocked && (o.res.success <==> node.Sequence?)
  {
  }
}
