// Progress on success. A successful execution without Fallbacks may end short of 1
// when a Retry repeats an attempt that failed before its end. Which trees exclude
// that can be told from the tree alone.
module RetryProgress {
  import opened SkillRegistry
  import opened BehaviourTree
  import opened Validator
  import opened Interleaving
  import opened ResourceExclusion
  import opened Progress

  // ---- What can be told from the tree.

  // A leaf that may end without success although nothing blocks or cancels it.
  predicate Fallible(n: Node) {
    n.Action? || n.Condition? || n.GoalCheck? || (n.VisualCheck? && n.mode == ConditionMode)
  }

  predicate CanFail(node: Node) {
    Contains(node, Fallible)
  }

  predicate SomeCanFail(nodes: seq<Node>) {
    AnyContains(nodes, Fallible)
  }

  // Unblocked and uncancelled, the node may fail without having run all its leaves.
  predicate FailsShort(node: Node)
    decreases node, 1
  {
    match node
    case Sequence(_, children) =>
      || (exists k :: 0 <= k < |children| - 1 && CanFail(children[k]))
      || (children != [] && FailsShort(children[|children| - 1]))
    case Parallel(_, children, cancel) =>
      SomeFailsShort(children) || (cancel && |children| >= 2 && SomeCanFail(children))
    case Retry(_, _, child) => FailsShort(child)
    case Timeout(_, _, child) => FailsShort(child)
    case _ => false
  }

  predicate SomeFailsShort(nodes: seq<Node>)
    decreases nodes, 0
  {
    exists i :: 0 <= i < |nodes| && FailsShort(nodes[i])
  }

  predicate Repeats(n: Node) {
    n.Retry? && n.maxAttempts >= 2
  }

  // A Retry that may start over after an attempt that left leaves out.
  predicate Loose(n: Node) {
    Repeats(n) && FailsShort(n.child)
  }

  predicate Firm(node: Node) {
    !Contains(node, Loose)
  }

  // A Retry whose attempts cannot fail: it never uses more than the first.
  predicate Idle(n: Node) {
    Repeats(n) && !CanFail(n.child)
  }

  predicate Usable(node: Node) {
    !Contains(node, Idle)
  }

  // No Fallback, and nothing that execute() would reject as malformed.
  predicate Unfit(n: Node) {
    || n.Fallback?
    || (n.IsStepwise() && n.Slots() == 0)
    || (n.Parallel? && n.children == [])
    || MalformedTimeout(n)
    || MalformedWait(n)
  }

  predicate Runnable(node: Node) {
    !Contains(node, Unfit)
  }

  // What holds of no node of a tree holds of no node of its subtrees.
  lemma NoneBelow(node: Node, p: Node -> bool)
    requires !Contains(node, p)
    ensures !p(node)
    ensures node.IsStepwise() ==> forall k :: 0 <= k < node.Slots() ==> !Contains(node.Slot(k), p)
    ensures node.Sequence? || node.Parallel? || node.Fallback? ==>
      forall k :: 0 <= k < |node.children| ==> !Contains(node.children[k], p)
    ensures node.Retry? || node.Timeout? ==> !Contains(node.child, p)
  {
    if node.Sequence? || node.Parallel? || node.Fallback? {
      assert !AnyContains(node.children, p);
    }
  }

  lemma SomeBelow(node: Node, p: Node -> bool)
    requires Contains(node, p) && !p(node)
    ensures node.Sequence? || node.Parallel? || node.Fallback? || node.Retry? || node.Timeout?
    ensures node.Sequence? || node.Parallel? || node.Fallback? ==>
      exists k :: 0 <= k < |node.children| && Contains(node.children[k], p)
    ensures node.Retry? || node.Timeout? ==> Contains(node.child, p)
  {
    if node.Sequence? || node.Parallel? || node.Fallback? {
      assert AnyContains(node.children, p);
    }
  }

  lemma {:induction false} ShortFailureIsFailure(node: Node)
    requires FailsShort(node)
    ensures CanFail(node)
    decreases node
  {
    match node
    case Sequence(_, children) =>
      if exists k :: 0 <= k < |children| - 1 && CanFail(children[k]) {
        var k :| 0 <= k < |children| - 1 && CanFail(children[k]);
        assert AnyContains(children, Fallible);
      } else {
        ShortFailureIsFailure(children[|children| - 1]);
        assert AnyContains(children, Fallible);
      }
    case Parallel(_, children, _) =>
      if SomeFailsShort(children) {
        var i :| 0 <= i < |children| && FailsShort(children[i]);
        ShortFailureIsFailure(children[i]);
        assert AnyContains(children, Fallible);
      }
    case Retry(_, _, child) => ShortFailureIsFailure(child);
    case Timeout(_, _, child) => ShortFailureIsFailure(child);
  }

  lemma {:induction false} ValidatedIsRunnable(reg: Registry, known: set<string>, node: Node)
    requires Validated(reg, known, node) && FallbackFree(node)
    ensures Runnable(node)
    decreases node
  {
    NoneBelow(node, (n: Node) => n.Fallback?);
    if node.Sequence? || node.Parallel? {
      assert AllValidated(reg, known, node.children);
      forall k | 0 <= k < |node.children|
        ensures Runnable(node.children[k])
      {
        ValidatedIsRunnable(reg, known, node.children[k]);
      }
      assert !AnyContains(node.children, Unfit);
    } else if node.Retry? || node.Timeout? {
      ValidatedIsRunnable(reg, known, node.child);
    }
  }

  // ---- Results that are failures for a reason.

  // Once a cancel flag is set it stays set; `flag` is it as the thread sees it.
  // As long as it is not, only what can fail fails without being blocked.
  ghost predicate Reasoned(node: Node, flag: bool, p: Proc)
    decreases p
  {
    match p
    case Ready(_, _, _) => true
    case Busy(_, _, _) => true
    case Done(res, _) => !flag && !CanFail(node) && !res.success ==> res.blocked
    case Frame(_, _, _, index, _, cur) =>
      node.IsStepwise() && index < node.Slots() && Reasoned(node.Slot(index), flag, cur)
    case Fork(_, _, _, canceled, kids) =>
      && node.Parallel? && |kids| == |node.children|
      && (forall i :: 0 <= i < |kids| ==> Reasoned(node.children[i], flag || canceled, kids[i]))
      && (canceled ==> node.cancelOnFailure && exists i :: FailedFor(node, flag, kids, i))
    case Guarded(_, _, _, cur) => node.Timeout? && Reasoned(node.child, flag, cur)
  }

  predicate FailedFor(node: Node, flag: bool, kids: seq<Proc>, i: int)
    requires node.Parallel?
  {
    && 0 <= i < |kids| && kids[i].Done? && !kids[i].res.success
    && (flag || SomeCanFail(node.children) || kids[i].res.blocked)
  }

  lemma {:induction false} ReasonedLater(node: Node, before: bool, now: bool, p: Proc)
    requires Reasoned(node, before, p) && (before ==> now)
    ensures Reasoned(node, now, p)
    decreases p
  {
    match p
    case Frame(_, _, _, index, _, cur) => ReasonedLater(node.Slot(index), before, now, cur);
    case Fork(_, _, _, canceled, kids) =>
      forall i | 0 <= i < |kids|
        ensures Reasoned(node.children[i], now || canceled, kids[i])
      {
        ReasonedLater(node.children[i], before || canceled, now || canceled, kids[i]);
      }
      if canceled {
        var i :| FailedFor(node, before, kids, i);
        assert FailedFor(node, now, kids, i);
      }
    case Guarded(_, _, _, cur) => ReasonedLater(node.child, before, now, cur);
    case _ =>
  }

  lemma {:induction false} StepReasoned(
      node: Node, base: Path, before: bool, now: bool, p: Proc, l: Label, q: Proc)
    requires Runnable(node) && Fits(node, base, p) && Reasoned(node, before, p)
    requires (before ==> now) && Step(now, p, l, q)
    ensures Reasoned(node, now, q)
    decreases p
  {
    NoneBelow(node, Unfit);
    match p
    case Ready(_, _, _) => StartReasoned(node, base, now, p, l, q);
    case Busy(_, _, bb) => assert LeafOutcome(node, bb, l.res);
    case Done(_, _) =>
    case Frame(_, _, _, index, _, cur) =>
      LoneFrame(now, p, l, q);
      if cur.Done? && Resume(now, p, l, q) {
        ResumeReasoned(node, base, before, now, p, l, q);
      } else {
        StepReasoned(node.Slot(index), SlotPath(node, base, index), before, now, cur, l, q.cur);
      }
    case Fork(_, _, _, _, kids) =>
      assert ForkStep(now, p, l, q);
      if q.Fork? {
        var i := WhichSteps(now || p.canceled, kids, l, q.kids);
        StepReasoned(node.children[i], base + [i], before || p.canceled, now || p.canceled, kids[i], l, q.kids[i]);
        ForkReasoned(node, before, now, p, l, q, i);
      } else {
        JoinReasoned(node, base, before, now, p);
      }
    case Guarded(_, _, _, cur) =>
      if q.Guarded? {
        StepReasoned(node.child, base + [0], before, now, cur, l, q.cur);
      }
  }

  lemma StartReasoned(node: Node, base: Path, now: bool, p: Proc, l: Label, q: Proc)
    requires !Unfit(node) && p.Ready? && Fits(node, base, p) && Start(now, node, base, p.bb, l, q)
    ensures Reasoned(node, now, q)
  {
  }

  lemma ResumeReasoned(node: Node, base: Path, before: bool, now: bool, p: Proc, l: Label, q: Proc)
    requires !Unfit(node) && p.Frame? && Fits(node, base, p) && Reasoned(node, before, p) && (before ==> now)
    requires p.cur.Done? && Resume(now, p, l, q)
    ensures Reasoned(node, now, q)
  {
    if !CanFail(node) {
      NoneBelow(node, Fallible);
      assert !CanFail(node.Slot(p.index));
    }
  }

  lemma ForkReasoned(node: Node, before: bool, now: bool, p: Proc, l: Label, q: Proc, i: nat)
    requires node.Parallel? && p.Fork? && q.Fork? && Reasoned(node, before, p) && (before ==> now) && p.node == node
    requires i < |p.kids| == |q.kids| && q.kids == p.kids[i := q.kids[i]]
    requires Step(now || p.canceled, p.kids[i], l, q.kids[i])
    requires q == Fork(p.node, p.path, p.bb, p.canceled || FailureCancels(p.node, q.kids), q.kids)
    requires Reasoned(node.children[i], now || p.canceled, q.kids[i])
    ensures Reasoned(node, now, q)
  {
    forall j | 0 <= j < |q.kids|
      ensures Reasoned(node.children[j], now || p.canceled, q.kids[j])
      ensures Reasoned(node.children[j], now || q.canceled, q.kids[j])
    {
      if j != i {
        ReasonedLater(node.children[j], before || p.canceled, now || p.canceled, q.kids[j]);
      }
      ReasonedLater(node.children[j], now || p.canceled, now || q.canceled, q.kids[j]);
    }
    if p.canceled {
      var j :| FailedFor(node, before, p.kids, j);
      assert FailedFor(node, now, q.kids, j);
    } else if q.canceled {
      var j :| 0 <= j < |q.kids| && q.kids[j].Done? && !q.kids[j].res.success;
      assert Reasoned(node.children[j], now, q.kids[j]);
      if CanFail(node.children[j]) {
        assert SomeCanFail(node.children);
      }
      assert FailedFor(node, now, q.kids, j);
    }
  }

  lemma JoinReasoned(node: Node, base: Path, before: bool, now: bool, p: Proc)
    requires node.Parallel? && p.Fork? && Fits(node, base, p) && Reasoned(node, before, p) && (before ==> now)
    requires AllDone(p.kids)
    ensures Reasoned(node, now, Done(Merge(p.bb, Results(p.kids)), LeftBehind(p.kids)))
  {
    var rs := Results(p.kids);
    assert forall i :: 0 <= i < |p.kids| ==> rs[i] == p.kids[i].res && Fits(node.children[i], base + [i], p.kids[i]);
    MergeFlags(p.bb, rs);
    if !now && !CanFail(node) && !Merge(p.bb, rs).success {
      NoneBelow(node, Fallible);
      assert !SomeCanFail(node.children);
      if p.canceled {
        var i :| FailedFor(node, before, p.kids, i);
        assert rs[i].blocked;
      } else {
        var i :| 0 <= i < |rs| && !rs[i].success;
        assert Reasoned(node.children[i], before, p.kids[i]);
      }
    }
  }

  // ---- Blocked for good: without a Fallback a blocked call blocks its callers.

  predicate Jammed(p: Proc)
    decreases p
  {
    match p
    case Ready(_, _, _) => false
    case Busy(_, _, _) => false
    case Done(res, _) => res.blocked
    case Frame(_, _, _, _, _, cur) => Jammed(cur)
    case Fork(_, _, _, _, kids) => exists i :: 0 <= i < |kids| && Jammed(kids[i])
    case Guarded(_, _, _, cur) => Jammed(cur)
  }

  lemma {:induction false} StaysJammed(node: Node, base: Path, canceled: bool, p: Proc, l: Label, q: Proc)
    requires Runnable(node) && Fits(node, base, p) && Step(canceled, p, l, q) && Jammed(p)
    ensures Jammed(q)
    decreases p
  {
    NoneBelow(node, Unfit);
    match p
    case Done(_, _) =>
    case Frame(_, _, _, index, _, cur) =>
      LoneFrame(canceled, p, l, q);
      if cur.Done? && Resume(canceled, p, l, q) {
        assert Coherent(cur.res);
      } else {
        StaysJammed(node.Slot(index), SlotPath(node, base, index), canceled, cur, l, q.cur);
      }
    case Fork(_, _, _, _, kids) =>
      assert ForkStep(canceled, p, l, q);
      var k :| 0 <= k < |kids| && Jammed(kids[k]);
      if q.Fork? {
        var i := WhichSteps(canceled || p.canceled, kids, l, q.kids);
        if i == k {
          StaysJammed(node.children[i], base + [i], canceled || p.canceled, kids[i], l, q.kids[i]);
        }
        assert Jammed(q.kids[k]);
      } else {
        JoinJams(node, base, p, k);
      }
    case Guarded(_, _, _, cur) =>
      if q.Guarded? {
        StaysJammed(node.child, base + [0], canceled, cur, l, q.cur);
      }
  }

  lemma JoinJams(node: Node, base: Path, p: Proc, k: nat)
    requires p.Fork? && Fits(node, base, p) && AllDone(p.kids) && k < |p.kids| && Jammed(p.kids[k])
    ensures Merge(p.bb, Results(p.kids)).blocked
  {
    var rs := Results(p.kids);
    assert forall i :: 0 <= i < |p.kids| ==> rs[i] == p.kids[i].res && Fits(node.children[i], base + [i], p.kids[i]);
    MergeFlags(p.bb, rs);
    assert rs[k].blocked;
  }

  // A step by which a Retry returns has used all its attempts.
  predicate Thorough(l: Label) {
    l.Leave? && l.node.Retry? ==> l.from == l.node.Slots()
  }

  // Uncancelled, a node that does not fail short gives leaves up only by being
  // blocked.
  lemma {:induction false} GivingUpJams(node: Node, base: Path, p: Proc, l: Label, q: Proc)
    requires Runnable(node) && !FailsShort(node) && Fits(node, base, p) && Reasoned(node, false, p)
    requires Step(false, p, l, q) && Thorough(l) && GivesUp(l)
    ensures Jammed(q)
    decreases p
  {
    NoneBelow(node, Unfit);
    match p
    case Done(_, left) => var _ := WhichSteps(true, left, l, q.left);
    case Frame(_, _, _, index, _, cur) =>
      LoneFrame(false, p, l, q);
      if cur.Done? && Resume(false, p, l, q) {
        ResumeJams(node, base, p, l, q);
      } else {
        ShortBelow(node, index);
        GivingUpJams(node.Slot(index), SlotPath(node, base, index), cur, l, q.cur);
      }
    case Fork(_, _, _, _, kids) =>
      assert ForkStep(false, p, l, q);
      var i := WhichSteps(p.canceled, kids, l, q.kids);
      if p.canceled {
        SiblingJams(node, base, p, l, q, i);
      } else {
        assert !SomeFailsShort(node.children);
        GivingUpJams(node.children[i], base + [i], kids[i], l, q.kids[i]);
      }
    case Guarded(_, _, _, cur) => GivingUpJams(node.child, base + [0], cur, l, q.cur);
  }

  lemma ShortBelow(node: Node, index: nat)
    requires !Unfit(node) && node.IsStepwise() && index < node.Slots() && !FailsShort(node)
    ensures !FailsShort(node.Slot(index))
  {
    if node.Sequence? && FailsShort(node.Slot(index)) {
      ShortFailureIsFailure(node.Slot(index));
    }
  }

  lemma ResumeJams(node: Node, base: Path, p: Proc, l: Label, q: Proc)
    requires !Unfit(node) && !FailsShort(node) && p.Frame? && Fits(node, base, p) && Reasoned(node, false, p)
    requires p.cur.Done? && Resume(false, p, l, q) && Thorough(l) && GivesUp(l)
    ensures Jammed(q)
  {
    assert node.Sequence? && p.index < |node.children| - 1;
    assert !CanFail(node.children[p.index]);
  }

  // The branch whose failure cancelled the others was blocked.
  lemma SiblingJams(node: Node, base: Path, p: Proc, l: Label, q: Proc, i: nat)
    requires Runnable(node) && node.Parallel? && !FailsShort(node) && Fits(node, base, p) && Reasoned(node, false, p)
    requires p.Fork? && p.canceled && Step(false, p, l, q) && GivesUp(l)
    requires i < |p.kids| && q.Fork? && |q.kids| == |p.kids| && Step(true, p.kids[i], l, q.kids[i])
    ensures Jammed(q)
  {
    var k :| FailedFor(node, false, p.kids, k);
    if |node.children| >= 2 {
      assert p.kids[k].res.blocked;
    } else {
      assert k == i && p.kids[i].left != [];
      assert Fits(node.children[i], base + [i], p.kids[i]);
    }
    assert Jammed(p.kids[k]);
    StaysJammed(node, base, false, p, l, q);
  }

  // No Retry makes a second attempt.
  predicate NeverRepeats(node: Node) {
    !Contains(node, Repeats)
  }

  // ---- Spoiled: the thread will not succeed any more.

  // A failed attempt spoils a Retry if it was the last one or a cancel keeps the
  // Retry from going on; otherwise only a blocked one does.
  predicate Spoiled(flag: bool, p: Proc)
    decreases p
  {
    match p
    case Ready(_, _, _) => false
    case Busy(_, _, _) => false
    case Done(res, _) => !res.success
    case Frame(node, _, _, index, _, cur) =>
      if node.Retry? && index + 1 < node.Slots() && !flag then Jammed(cur) else Spoiled(flag, cur)
    case Fork(_, _, _, canceled, kids) => exists i :: 0 <= i < |kids| && Spoiled(flag || canceled, kids[i])
    case Guarded(_, _, _, cur) => Spoiled(flag, cur)
  }

  lemma {:induction false} JammedIsSpoiled(node: Node, base: Path, flag: bool, p: Proc)
    requires Fits(node, base, p) && Jammed(p)
    ensures Spoiled(flag, p)
    decreases p
  {
    match p
    case Done(res, _) => assert Coherent(res);
    case Frame(_, _, _, index, _, cur) => JammedIsSpoiled(node.Slot(index), SlotPath(node, base, index), flag, cur);
    case Fork(_, _, _, canceled, kids) =>
      var i :| 0 <= i < |kids| && Jammed(kids[i]);
      JammedIsSpoiled(node.children[i], base + [i], flag || canceled, kids[i]);
    case Guarded(_, _, _, cur) => JammedIsSpoiled(node.child, base + [0], flag, cur);
  }

  lemma {:induction false} SpoiledLater(node: Node, base: Path, before: bool, now: bool, p: Proc)
    requires Fits(node, base, p) && Spoiled(before, p) && (before ==> now)
    ensures Spoiled(now, p)
    decreases p
  {
    match p
    case Done(_, _) =>
    case Frame(_, _, _, index, _, cur) =>
      if Jammed(cur) {
        JammedIsSpoiled(node.Slot(index), SlotPath(node, base, index), now, cur);
      } else {
        SpoiledLater(node.Slot(index), SlotPath(node, base, index), before, now, cur);
      }
    case Fork(_, _, _, canceled, kids) =>
      var i :| 0 <= i < |kids| && Spoiled(before || canceled, kids[i]);
      SpoiledLater(node.children[i], base + [i], before || canceled, now || canceled, kids[i]);
    case Guarded(_, _, _, cur) => SpoiledLater(node.child, base + [0], before, now, cur);
  }

  // Giving leaves up spoils the thread, and a spoiled thread stays spoiled.
  lemma {:induction false} StepSpoils(
      node: Node, base: Path, before: bool, now: bool, p: Proc, l: Label, q: Proc)
    requires Runnable(node) && Firm(node) && Fits(node, base, p) && Reasoned(node, before, p)
    requires (before ==> now) && Step(now, p, l, q) && (Thorough(l) || NeverRepeats(node))
    requires Spoiled(before, p) || GivesUp(l)
    ensures Spoiled(now, q)
    decreases p
  {
    match p
    case Ready(_, _, _) =>
    case Busy(_, _, _) =>
    case Done(_, left) => var _ := WhichSteps(true, left, l, q.left);
    case Frame(_, _, _, index, _, cur) =>
      LoneFrame(now, p, l, q);
      assert NeverRepeats(node) ==> !Repeats(node);
      if cur.Done? && Resume(now, p, l, q) {
        ResumeSpoils(node, base, before, now, p, l, q);
      } else {
        FrameSpoils(node, base, before, now, p, l, q);
      }
    case Fork(_, _, _, _, kids) =>
      assert ForkStep(now, p, l, q);
      if q.Fork? {
        ForkSpoils(node, base, before, now, p, l, q);
      } else {
        JoinSpoils(node, base, before, p);
      }
    case Guarded(_, _, _, _) => GuardedSpoils(node, base, before, now, p, l, q);
  }

  lemma {:induction false} GuardedSpoils(
      node: Node, base: Path, before: bool, now: bool, p: Proc, l: Label, q: Proc)
    requires Runnable(node) && Firm(node) && p.Guarded? && Fits(node, base, p) && Reasoned(node, before, p)
    requires (before ==> now) && Step(now, p, l, q) && (Thorough(l) || NeverRepeats(node))
    requires Spoiled(before, p) || GivesUp(l)
    ensures Spoiled(now, q)
    decreases p, 0
  {
    NoneBelow(node, Unfit);
    NoneBelow(node, Loose);
    if NeverRepeats(node) {
      NoneBelow(node, Repeats);
    }
    if q.Guarded? {
      StepSpoils(node.child, base + [0], before, now, p.cur, l, q.cur);
    } else {
      assert !GivesUp(l) && Spoiled(before, p.cur);
      SpoiledLater(node.child, base + [0], before, now, p.cur);
    }
  }

  lemma ResumeSpoils(node: Node, base: Path, before: bool, now: bool, p: Proc, l: Label, q: Proc)
    requires p.Frame? && Fits(node, base, p) && (before ==> now) && (Thorough(l) || !Repeats(node))
    requires !node.Fallback? && p.cur.Done? && Resume(now, p, l, q)
    requires Spoiled(before, p) || GivesUp(l)
    ensures Spoiled(now, q)
  {
    var r := p.cur.res;
    assert Coherent(r) && p.node == node && Jammed(p.cur) == r.blocked && Spoiled(before, p.cur) == !r.success;
    assert node.Retry? ==> (Repeats(node) <==> node.Slots() >= 2);
  }

  lemma {:induction false} FrameSpoils(
      node: Node, base: Path, before: bool, now: bool, p: Proc, l: Label, q: Proc)
    requires Runnable(node) && Firm(node) && p.Frame? && Fits(node, base, p) && Reasoned(node, before, p)
    requires (before ==> now) && (Thorough(l) || NeverRepeats(node)) && (Spoiled(before, p) || GivesUp(l))
    requires q.Frame? && Step(now, p.cur, l, q.cur) && q == Frame(p.node, p.path, p.facts, p.index, [], q.cur)
    ensures Spoiled(now, q)
    decreases p, 0
  {
    NoneBelow(node, Unfit);
    NoneBelow(node, Loose);
    if NeverRepeats(node) {
      NoneBelow(node, Repeats);
    }
    var child, path := node.Slot(p.index), SlotPath(node, base, p.index);
    if node.Retry? && p.index + 1 < node.Slots() && !now {
      if Jammed(p.cur) {
        StaysJammed(child, path, now, p.cur, l, q.cur);
      } else {
        GivingUpJams(child, path, p.cur, l, q.cur);
      }
    } else {
      if Jammed(p.cur) {
        JammedIsSpoiled(child, path, before, p.cur);
      }
      StepSpoils(child, path, before, now, p.cur, l, q.cur);
    }
  }

  lemma {:induction false} ForkSpoils(
      node: Node, base: Path, before: bool, now: bool, p: Proc, l: Label, q: Proc)
    requires Runnable(node) && Firm(node) && p.Fork? && q.Fork? && Fits(node, base, p) && Reasoned(node, before, p)
    requires (before ==> now) && (Thorough(l) || NeverRepeats(node)) && (Spoiled(before, p) || GivesUp(l))
    requires OneSteps(now || p.canceled, p.kids, l, q.kids) && (p.canceled ==> q.canceled)
    ensures Spoiled(now, q)
    decreases p, 0
  {
    NoneBelow(node, Unfit);
    NoneBelow(node, Loose);
    if NeverRepeats(node) {
      NoneBelow(node, Repeats);
    }
    var i := WhichSteps(now || p.canceled, p.kids, l, q.kids);
    if Spoiled(before || p.canceled, p.kids[i]) || GivesUp(l) {
      StepSpoils(node.children[i], base + [i], before || p.canceled, now || p.canceled, p.kids[i], l, q.kids[i]);
      StepKeepsFit(now || p.canceled, node.children[i], base + [i], p.kids[i], l, q.kids[i]);
      SpoiledLater(node.children[i], base + [i], now || p.canceled, now || q.canceled, q.kids[i]);
    } else {
      var k :| 0 <= k < |p.kids| && Spoiled(before || p.canceled, p.kids[k]);
      SpoiledLater(node.children[k], base + [k], before || p.canceled, now || q.canceled, p.kids[k]);
      assert q.kids[k] == p.kids[k];
    }
  }

  lemma JoinSpoils(node: Node, base: Path, flag: bool, p: Proc)
    requires p.Fork? && Fits(node, base, p) && AllDone(p.kids) && Spoiled(flag, p)
    ensures !Merge(p.bb, Results(p.kids)).success
  {
    var rs := Results(p.kids);
    assert forall i :: 0 <= i < |p.kids| ==> rs[i] == p.kids[i].res && Fits(node.children[i], base + [i], p.kids[i]);
    MergeFlags(p.bb, rs);
    var k :| 0 <= k < |p.kids| && Spoiled(flag || p.canceled, p.kids[k]);
    assert !rs[k].success;
  }

  // ---- Whole runs.

  // The mission's cancel flag is never cleared.
  predicate Steady(ms: seq<Move>) {
    forall i, j :: 0 <= i <= j < |ms| ==> ms[i].canceled ==> ms[j].canceled
  }

  predicate UsesEveryAttempt(ms: seq<Move>) {
    forall i :: 0 <= i < |ms| ==> Thorough(ms[i].act)
  }

  predicate Seen(ms: seq<Move>) {
    ms != [] && ms[|ms| - 1].canceled
  }

  lemma {:induction false} RunReasoned(root: Node, ps: seq<Proc>, ms: seq<Move>)
    requires Runnable(root) && IsExecution(root, ps, ms) && Steady(ms)
    ensures Fits(root, [], ps[|ms|]) && Reasoned(root, Seen(ms), ps[|ms|])
    decreases |ms|
  {
    if |ms| > 0 {
      var n := |ms| - 1;
      RunLast(false, ps, ms);
      assert Steady(ms[..n]);
      RunReasoned(root, ps[..n + 1], ms[..n]);
      StepKeepsFit(ms[n].canceled, root, [], ps[n], ms[n].act, ps[n + 1]);
      StepReasoned(root, [], Seen(ms[..n]), ms[n].canceled, ps[n], ms[n].act, ps[n + 1]);
    }
  }

  lemma {:induction false} RunSpoils(root: Node, ps: seq<Proc>, ms: seq<Move>)
    requires Runnable(root) && Firm(root) && IsExecution(root, ps, ms) && Steady(ms)
    requires UsesEveryAttempt(ms) || NeverRepeats(root)
    ensures (exists i :: 0 <= i < |ms| && GivesUp(ms[i].act)) ==> Spoiled(Seen(ms), ps[|ms|])
    decreases |ms|
  {
    if |ms| > 0 {
      var n := |ms| - 1;
      RunLast(false, ps, ms);
      assert Steady(ms[..n]) && (UsesEveryAttempt(ms) ==> UsesEveryAttempt(ms[..n]));
      assert forall i :: 0 <= i < n ==> ms[..n][i] == ms[i];
      RunSpoils(root, ps[..n + 1], ms[..n]);
      RunReasoned(root, ps[..n + 1], ms[..n]);
      if exists i :: 0 <= i < |ms| && GivesUp(ms[i].act) {
        StepSpoils(root, [], Seen(ms[..n]), ms[n].canceled, ps[n], ms[n].act, ps[n + 1]);
      }
    }
  }

  // A successful execution in which every Retry that returned had used all its
  // attempts.
  ghost predicate FullRun(root: Node, ps: seq<Proc>, ms: seq<Move>) {
    IsExecution(root, ps, ms) && Steady(ms) && UsesEveryAttempt(ms) && ps[|ms|].Done? && ps[|ms|].res.success
  }

  // One half of the main result: in a firm tree such an execution leaves nothing
  // out, so its progress ends at exactly 1, whatever the interleaving.
  lemma FirmEndsAtOne(reg: Registry, known: set<string>, root: Node, ps: seq<Proc>, ms: seq<Move>)
    requires Validated(reg, known, root) && FallbackFree(root) && Firm(root) && FullRun(root, ps, ms)
    ensures Fraction(Completed(ms), CountProgressLeaves(root)) == 1.0
  {
    ValidatedIsRunnable(reg, known, root);
    RunReasoned(root, ps, ms);
    RunSpoils(root, ps, ms);
    EndsAtOne(reg, known, root, ps, ms);
  }

  lemma {:induction false} NeverRepeatsIsFirm(node: Node)
    requires NeverRepeats(node)
    ensures Firm(node)
    decreases node
  {
    NoneBelow(node, Repeats);
    if node.Sequence? || node.Parallel? || node.Fallback? {
      forall k | 0 <= k < |node.children|
        ensures Firm(node.children[k])
      {
        NeverRepeatsIsFirm(node.children[k]);
      }
      assert !AnyContains(node.children, Loose);
    } else if node.Retry? || node.Timeout? {
      NeverRepeatsIsFirm(node.child);
    }
  }

  // Where no Retry makes a second attempt, success alone is enough.
  lemma SingleAttemptsEndAtOne(reg: Registry, known: set<string>, root: Node, ps: seq<Proc>, ms: seq<Move>)
    requires Validated(reg, known, root) && FallbackFree(root) && NeverRepeats(root)
    requires IsExecution(root, ps, ms) && Steady(ms) && ps[|ms|].Done? && ps[|ms|].res.success
    ensures Fraction(Completed(ms), CountProgressLeaves(root)) == 1.0
  {
    ValidatedIsRunnable(reg, known, root);
    NeverRepeatsIsFirm(root);
    RunReasoned(root, ps, ms);
    RunSpoils(root, ps, ms);
    EndsAtOne(reg, known, root, ps, ms);
  }

  // ---- Trees in which no successful execution uses every attempt.

  // A subtree with an idle Retry does not succeed thoroughly.
  ghost predicate NoWayThrough(node: Node, p: Proc)
    decreases p
  {
    match p
    case Ready(_, _, _) => true
    case Busy(_, _, _) => true
    case Done(res, _) => !Usable(node) ==> !res.success
    case Frame(_, _, _, index, _, cur) =>
      && node.IsStepwise() && index < node.Slots() && NoWayThrough(node.Slot(index), cur)
      && (node.Sequence? ==> forall k :: 0 <= k < index ==> Usable(node.children[k]))
      && (Idle(node) ==> index == 0)
    case Fork(_, _, _, _, kids) =>
      node.Parallel? && |kids| == |node.children| && forall i :: 0 <= i < |kids| ==> NoWayThrough(node.children[i], kids[i])
    case Guarded(_, _, _, cur) => node.Timeout? && NoWayThrough(node.child, cur)
  }

  lemma UsableAbove(node: Node)
    requires !Idle(node)
    requires node.Sequence? || node.Parallel? ==> forall k :: 0 <= k < |node.children| ==> Usable(node.children[k])
    requires node.Retry? || node.Timeout? ==> Usable(node.child)
    requires !node.Fallback?
    ensures Usable(node)
  {
    if Contains(node, Idle) {
      SomeBelow(node, Idle);
    }
  }

  lemma {:induction false} StaysOut(node: Node, base: Path, before: bool, now: bool, p: Proc, l: Label, q: Proc)
    requires Runnable(node) && Fits(node, base, p) && Reasoned(node, before, p) && NoWayThrough(node, p)
    requires (before ==> now) && Step(now, p, l, q) && Thorough(l)
    ensures NoWayThrough(node, q)
    decreases p
  {
    NoneBelow(node, Unfit);
    match p
    case Ready(_, _, _) =>
    case Busy(_, _, _) => UsableAbove(node);
    case Done(_, _) =>
    case Frame(_, _, _, index, _, cur) =>
      LoneFrame(now, p, l, q);
      if cur.Done? && Resume(now, p, l, q) {
        ResumeStaysOut(node, base, before, now, p, l, q);
      } else {
        StaysOut(node.Slot(index), SlotPath(node, base, index), before, now, cur, l, q.cur);
      }
    case Fork(_, _, _, _, _) =>
      assert ForkStep(now, p, l, q);
      if q.Fork? {
        BranchStaysOut(node, base, before, now, p, l, q);
      } else {
        JoinStaysOut(node, base, p);
      }
    case Guarded(_, _, _, cur) =>
      if q.Guarded? {
        StaysOut(node.child, base + [0], before, now, cur, l, q.cur);
      } else if q == cur && q.res.success {
        UsableAbove(node);
      }
  }

  lemma {:induction false} BranchStaysOut(
      node: Node, base: Path, before: bool, now: bool, p: Proc, l: Label, q: Proc)
    requires Runnable(node) && p.Fork? && q.Fork? && Fits(node, base, p) && Reasoned(node, before, p) && NoWayThrough(node, p)
    requires (before ==> now) && OneSteps(now || p.canceled, p.kids, l, q.kids) && Thorough(l)
    ensures NoWayThrough(node, q)
    decreases p, 0
  {
    NoneBelow(node, Unfit);
    var i := WhichSteps(now || p.canceled, p.kids, l, q.kids);
    StaysOut(node.children[i], base + [i], before || p.canceled, now || p.canceled, p.kids[i], l, q.kids[i]);
  }

  lemma ResumeStaysOut(node: Node, base: Path, before: bool, now: bool, p: Proc, l: Label, q: Proc)
    requires !Unfit(node) && p.Frame? && Fits(node, base, p) && Reasoned(node, before, p) && NoWayThrough(node, p)
    requires (before ==> now) && p.cur.Done? && Resume(now, p, l, q) && Thorough(l)
    ensures NoWayThrough(node, q)
  {
    assert Coherent(p.cur.res);
    if !Idle(node) && q.Done? && q.res.success {
      UsableAbove(node);
    }
  }

  lemma JoinStaysOut(node: Node, base: Path, p: Proc)
    requires node.Parallel? && p.Fork? && Fits(node, base, p) && NoWayThrough(node, p) && AllDone(p.kids)
    ensures NoWayThrough(node, Done(Merge(p.bb, Results(p.kids)), LeftBehind(p.kids)))
  {
    var rs := Results(p.kids);
    assert forall i :: 0 <= i < |p.kids| ==> rs[i] == p.kids[i].res && Fits(node.children[i], base + [i], p.kids[i]);
    MergeFlags(p.bb, rs);
    if Merge(p.bb, rs).success {
      forall i | 0 <= i < |p.kids|
        ensures Usable(node.children[i])
      {
        assert rs[i].success && NoWayThrough(node.children[i], p.kids[i]);
      }
      UsableAbove(node);
    }
  }

  lemma {:induction false} RunStaysOut(root: Node, ps: seq<Proc>, ms: seq<Move>)
    requires Runnable(root) && IsExecution(root, ps, ms) && Steady(ms) && UsesEveryAttempt(ms)
    ensures NoWayThrough(root, ps[|ms|])
    decreases |ms|
  {
    if |ms| > 0 {
      var n := |ms| - 1;
      RunLast(false, ps, ms);
      assert Steady(ms[..n]) && UsesEveryAttempt(ms[..n]);
      RunStaysOut(root, ps[..n + 1], ms[..n]);
      RunReasoned(root, ps[..n + 1], ms[..n]);
      StaysOut(root, [], Seen(ms[..n]), ms[n].canceled, ps[n], ms[n].act, ps[n + 1]);
    }
  }
}
