// An observation followed by a Fallback whose branches do the same physical
// steps: the Fallback gives way to the shared steps.
module VisualFallback {
  import opened Common
  import opened SkillRegistry
  import opened BehaviourTree
  import opened Validator
  import opened Goals
  import opened Executor
  import opened TreeRewrites

  predicate IsVoiceAction(reg: Registry, n: Node) {
    n.Action? && IsVoiceSkill(reg, n.skill)
  }

  function Unspoken(reg: Registry): Node -> bool {
    (n: Node) => !IsVoiceAction(reg, n)
  }

  predicate HasFallback(nodes: seq<Node>) {
    exists i :: 0 <= i < |nodes| && nodes[i].Fallback?
  }

  // _physical_residue_for_branch.
  function Residue(reg: Registry, branch: Node): Option<seq<Node>> {
    var steps :=
      if branch.Sequence? then Some(branch.children)
      else if branch.Action? || branch.VisualCheck? || branch.Condition? then Some([branch])
      else None;
    if steps == None then None
    else if HasFallback(steps.value) then None
    else Some(Filter(Unspoken(reg), steps.value))
  }

  // The tree without node ids, wherever they are written.
  function BareTree(node: Node): Node
    decreases node, 1
  {
    match node
    case Sequence(_, children) => Sequence("", BareTrees(children))
    case Fallback(_, children) => Fallback("", BareTrees(children))
    case Parallel(_, children, cancel) => Parallel("", BareTrees(children), cancel)
    case Retry(_, n, child) => Retry("", n, BareTree(child))
    case Timeout(_, limit, child) => Timeout("", limit, BareTree(child))
    case leaf => Bare(leaf)
  }

  function BareTrees(nodes: seq<Node>): (out: seq<Node>)
    ensures |out| == |nodes|
    decreases nodes, 0
  {
    if nodes == [] then [] else [BareTree(nodes[0])] + BareTrees(nodes[1..])
  }

  // The last two children are an observation and a Fallback.
  predicate EndsInFallback(children: seq<Node>) {
    var n := |children|;
    n >= 2 && IsObserver(children[n - 2]) && children[n - 1].Fallback?
  }

  // _find_visualcheck_then_fallback: the path of the first such Sequence.
  function FindShape(node: Node): Option<Path>
    decreases node, 1, 0
  {
    match node
    case Sequence(_, children) => if EndsInFallback(children) then Some([]) else FindShapeFrom(children, 0)
    case Retry(_, _, child) => Under(0, FindShape(child))
    case Timeout(_, _, child) => Under(0, FindShape(child))
    case _ => None
  }

  function FindShapeFrom(children: seq<Node>, i: nat): Option<Path>
    requires i <= |children|
    decreases children, 0, |children| - i
  {
    if i == |children| then None
    else
      var first := Under(i, FindShape(children[i]));
      if first.Some? then first else FindShapeFrom(children, i + 1)
  }

  function Under(k: nat, path: Option<Path>): Option<Path> {
    if path == None then None else Some([k] + path.value)
  }

  // The steps that every branch shares, if they all reduce to the same ones.
  function SharedSteps(reg: Registry, fallback: Node): Option<seq<Node>>
    requires fallback.Fallback?
  {
    var branches := fallback.children;
    if |branches| < 2 then None
    else if exists i :: 0 <= i < |branches| && (Residue(reg, branches[i]) == None || Residue(reg, branches[i]) == Some([])) then None
    else
      var shared := Residue(reg, branches[0]).value;
      if exists i :: 0 <= i < |branches| && BareTrees(Residue(reg, branches[i]).value) != BareTrees(shared) then None
      else if shared[|shared| - 1].nodeId == "" then None
      else Some(shared)
  }

  // What takes the place of the Sequence: the observation, then the shared steps.
  function Spliced(s: Node, shared: seq<Node>): Node
    requires s.Sequence? && s.children != []
  {
    Sequence(s.nodeId, s.children[..|s.children| - 1] + shared)
  }

  datatype Rewrite = Rewrite(root: Node, at: Path, goalNodeId: string)

  lemma {:induction false} ShapeFound(node: Node)
    ensures FindShape(node).Some? ==>
      NodeAt(node, FindShape(node).value).Some?
      && NodeAt(node, FindShape(node).value).value.Sequence?
      && EndsInFallback(NodeAt(node, FindShape(node).value).value.children)
    decreases node, 1, 0
  {
    match node
    case Sequence(_, children) => ShapeFoundFrom(node, 0);
    case Retry(_, _, child) => ShapeFound(child);
    case Timeout(_, _, child) => ShapeFound(child);
    case _ =>
  }

  lemma {:induction false} ShapeFoundFrom(node: Node, i: nat)
    requires node.Sequence? && i <= |node.children|
    ensures FindShapeFrom(node.children, i).Some? ==>
      NodeAt(node, FindShapeFrom(node.children, i).value).Some?
      && NodeAt(node, FindShapeFrom(node.children, i).value).value.Sequence?
      && EndsInFallback(NodeAt(node, FindShapeFrom(node.children, i).value).value.children)
    decreases node, 0, |node.children| - i
  {
    if i < |node.children| {
      ShapeFound(node.children[i]);
      ShapeFoundFrom(node, i + 1);
      var inner := FindShape(node.children[i]);
      if inner.Some? {
        assert ([i] + inner.value)[1..] == inner.value;
      }
    }
  }

  // _canonicalize_visualcheck_fallback: None when it does not fire.
  function RewriteFallback(reg: Registry, root: Node): Option<Rewrite> {
    var found := FindShape(root);
    if found == None then None
    else
      ShapeFound(root);
      var s := NodeAt(root, found.value).value;
      var shared := SharedSteps(reg, s.children[|s.children| - 1]);
      if shared == None then None
      else Some(Rewrite(ReplaceAt(root, found.value, Spliced(s, shared.value)), found.value,
                        shared.value[|shared.value| - 1].nodeId))
  }

  // ---- Results without their facts.

  predicate SameFlags(a: ExecutionResult, b: ExecutionResult) {
    a.success == b.success && a.blocked == b.blocked && a.needsDecision == b.needsDecision
  }

  predicate SameTrace(a: Outcome, b: Outcome) {
    SameFlags(a.res, b.res) && a.hist == b.hist
  }

  lemma {:induction false} MergeSameFlags(bb: Facts, rs: seq<ExecutionResult>, bb': Facts, rs': seq<ExecutionResult>)
    requires |rs| == |rs'| && forall i :: 0 <= i < |rs| ==> SameFlags(rs[i], rs'[i])
    ensures SameFlags(Merge(bb, rs), Merge(bb', rs'))
  {
    if rs != [] {
      MergeSameFlags(bb, rs[..|rs| - 1], bb', rs'[..|rs| - 1]);
    }
  }

  lemma LeafIsInert(w: World, h: History, inline: bool, leaf: Node, bb: Facts, bb': Facts)
    requires leaf.IsLeaf()
    ensures SameFlags(LeafResult(w, h, inline, leaf, bb), LeafResult(w, h, inline, leaf, bb'))
  {
  }

  // Neither the flags nor the trace depend on the blackboard.
  lemma {:induction false} BlackboardIsInert(
      w: World, c: bool, inline: bool, node: Node, h: History, ran: nat, ran': nat, bb: Facts, bb': Facts)
    ensures SameTrace(Eval(w, c, inline, node, h, ran, bb), Eval(w, c, inline, node, h, ran', bb'))
    decreases node, 2, 0
  {
    if !(c || w.cancel(h)) {
      if node.IsLeaf() {
        LeafIsInert(w, h, inline, node, bb, bb');
      } else if node.IsStepwise() {
        if node.Slots() > 0 {
          InertFrame(w, c, inline && !node.Retry?, node, 0, h, ran, ran', bb, bb');
        }
      } else if node.Parallel? {
        InertFork(w, c, node, [], [], false, h, ran, ran', bb, bb');
      } else {
        BlackboardIsInert(w, c, false, node.child, h, ran, ran', bb, bb');
      }
    }
  }

  // What a stepwise node does next depends on the flags alone.
  lemma AfterSameFlags(a: Node, b: Node, k: nat, r: ExecutionResult, r': ExecutionResult, canceled: bool)
    requires a.IsStepwise() && b.IsStepwise() && a.Slots() == b.Slots() && k < a.Slots() && SameFlags(r, r')
    requires a.Sequence? == b.Sequence? && a.Retry? == b.Retry?
    ensures After(a, k, r, canceled) == After(b, k, r', canceled)
  {
  }

  lemma {:induction false} InertFrame(
      w: World, c: bool, inline: bool, node: Node, k: nat, h: History, ran: nat, ran': nat, bb: Facts, bb': Facts)
    requires node.IsStepwise() && k < node.Slots()
    ensures SameTrace(EvalFrame(w, c, inline, node, k, h, ran, bb), EvalFrame(w, c, inline, node, k, h, ran', bb'))
    decreases node, 1, node.Slots() - k
  {
    BlackboardIsInert(w, c, inline, node.Slot(k), h, ran, ran', bb, bb');
    var o := Eval(w, c, inline, node.Slot(k), h, ran, bb);
    var o' := Eval(w, c, inline, node.Slot(k), h, ran', bb');
    AfterSameFlags(node, node, k, o.res, o'.res, c || w.cancel(o.hist));
    if After(node, k, o.res, c || w.cancel(o.hist)) == Continue {
      InertFrame(w, c, inline, node, k + 1, o.hist, o.ran, o'.ran, bb + o.res.facts, bb' + o'.res.facts);
    }
  }

  lemma {:induction false} InertFork(
      w: World, c: bool, node: Node, rs: seq<ExecutionResult>, rs': seq<ExecutionResult>, failed: bool,
      h: History, ran: nat, ran': nat, bb: Facts, bb': Facts)
    requires node.Parallel? && |rs| == |rs'| <= |node.children|
    requires forall i :: 0 <= i < |rs| ==> SameFlags(rs[i], rs'[i])
    ensures SameTrace(EvalFork(w, c, node, rs, failed, h, ran, bb), EvalFork(w, c, node, rs', failed, h, ran', bb'))
    decreases node, 1, |node.children| - |rs|
  {
    if |rs| == |node.children| {
      MergeSameFlags(bb, rs, bb', rs');
    } else {
      var child := node.children[|rs|];
      BlackboardIsInert(w, c || failed, false, child, h, ran, ran', bb, bb');
      var o := Eval(w, c || failed, false, child, h, ran, bb);
      var o' := Eval(w, c || failed, false, child, h, ran', bb');
      InertFork(w, c, node, rs + [o.res], rs' + [o'.res], failed || (node.cancelOnFailure && !o.res.success),
                o.hist, o.ran, o'.ran, bb, bb');
    }
  }

  // The trace only grows.
  lemma {:induction false} TraceGrows(w: World, c: bool, inline: bool, node: Node, h: History, ran: nat, bb: Facts)
    ensures h <= Eval(w, c, inline, node, h, ran, bb).hist
    decreases node, 2, 0
  {
    if !(c || w.cancel(h)) && !node.IsLeaf() {
      if node.IsStepwise() {
        if node.Slots() > 0 {
          TraceGrowsFrame(w, c, inline && !node.Retry?, node, 0, h, ran, bb);
        }
      } else if node.Parallel? {
        TraceGrowsFork(w, c, node, [], false, h, ran, bb);
      } else {
        TraceGrows(w, c, false, node.child, h, ran, bb);
      }
    }
  }

  lemma {:induction false} TraceGrowsFrame(w: World, c: bool, inline: bool, node: Node, k: nat, h: History, ran: nat, bb: Facts)
    requires node.IsStepwise() && k < node.Slots()
    ensures h <= EvalFrame(w, c, inline, node, k, h, ran, bb).hist
    ensures Eval(w, c, inline, node.Slot(k), h, ran, bb).hist <= EvalFrame(w, c, inline, node, k, h, ran, bb).hist
    decreases node, 1, node.Slots() - k
  {
    TraceGrows(w, c, inline, node.Slot(k), h, ran, bb);
    var o := Eval(w, c, inline, node.Slot(k), h, ran, bb);
    if After(node, k, o.res, c || w.cancel(o.hist)) == Continue {
      TraceGrowsFrame(w, c, inline, node, k + 1, o.hist, o.ran, bb + o.res.facts);
    }
  }

  lemma {:induction false} TraceGrowsFork(
      w: World, c: bool, node: Node, rs: seq<ExecutionResult>, failed: bool, h: History, ran: nat, bb: Facts)
    requires node.Parallel? && |rs| <= |node.children|
    ensures h <= EvalFork(w, c, node, rs, failed, h, ran, bb).hist
    decreases node, 1, |node.children| - |rs|
  {
    if |rs| < |node.children| {
      TraceGrows(w, c || failed, false, node.children[|rs|], h, ran, bb);
      var o := Eval(w, c || failed, false, node.children[|rs|], h, ran, bb);
      TraceGrowsFork(w, c, node, rs + [o.res], failed || (node.cancelOnFailure && !o.res.success), o.hist, o.ran, bb);
    }
  }

  // ---- The rewrite under every outcome history.

  // Speaking succeeds and is not watched.
  ghost predicate Quiet(reg: Registry, w: World) {
    && (forall n: Node :: IsVoiceAction(reg, n) ==> !w.visible(Bare(n)))
    && (forall h, skill, args :: IsVoiceSkill(reg, skill) ==> w.skill(h, skill, args).result.success)
  }

  predicate PlainFailure(r: ExecutionResult) {
    !r.success && !r.blocked && !r.needsDecision
  }

  // b runs like a, unless it has more to say when a is over and a cancel has been
  // seen by then: what it would say is refused, and it fails.
  predicate Alike(w: World, speaksLast: bool, a: Outcome, b: Outcome) {
    if a.res.success && speaksLast && w.cancel(a.hist) then a.hist == b.hist && PlainFailure(b.res)
    else SameTrace(a, b)
  }

  predicate SpeaksLast(reg: Registry, branch: Node) {
    branch.Sequence? && branch.children != [] && IsVoiceAction(reg, branch.children[|branch.children| - 1])
  }

  lemma VoicePasses(reg: Registry, known: set<string>, w: World, inline: bool, n: Node, h: History, ran: nat, bb: Facts)
    requires Quiet(reg, w) && IsVoiceAction(reg, n) && ShapeOk(reg, known, n)
    ensures
      var o := Eval(w, false, inline, n, h, ran, bb);
      o.hist == h && if w.cancel(h) then PlainFailure(o.res) else o.res.success
  {
    assert n.skill != "";
    assert w.skill(h, n.skill, Bare(n).args).result.success;
  }

  // A Sequence from k on, where only voice Actions are left, succeeds unless a
  // cancel has been seen.
  lemma {:induction false} VoiceTail(
      reg: Registry, known: set<string>, w: World, inline: bool, b: Node, k: nat, h: History, ran: nat, bb: Facts)
    requires Quiet(reg, w) && b.Sequence? && k < |b.children| && AllValidated(reg, known, b.children)
    requires Filter(Unspoken(reg), b.children[k..]) == []
    ensures SpeaksLast(reg, b)
    ensures
      var o := EvalFrame(w, false, inline, b, k, h, ran, bb);
      o.hist == h
      && if w.cancel(h) then PlainFailure(o.res) else o.res.success && !o.res.blocked && !o.res.needsDecision
    decreases |b.children| - k
  {
    assert b.children[k..][0] == b.children[k] && b.children[k..][1..] == b.children[k + 1..];
    VoicePasses(reg, known, w, inline, b.children[k], h, ran, bb);
    if k + 1 < |b.children| {
      var o := Eval(w, false, inline, b.children[k], h, ran, bb);
      VoiceTail(reg, known, w, inline, b, k + 1, h, o.ran, bb + o.res.facts);
    }
  }

  // A branch from k on and the spliced Sequence from p on, which holds what is
  // left of the branch without its voice Actions, run alike.
  lemma {:induction false} BranchIsResidue(
      reg: Registry, known: set<string>, w: World, inline: bool, b: Node, k: nat, s: Node, p: nat,
      h: History, ran: nat, ran': nat, bb: Facts, bb': Facts)
    requires Quiet(reg, w) && b.Sequence? && s.Sequence? && k < |b.children| && p < |s.children|
    requires AllValidated(reg, known, b.children)
    requires s.children[p..] == Filter(Unspoken(reg), b.children[k..])
    ensures Alike(w, SpeaksLast(reg, b),
                  EvalFrame(w, false, inline, s, p, h, ran', bb'), EvalFrame(w, false, inline, b, k, h, ran, bb))
    decreases |b.children| - k
  {
    var rest := b.children[k..];
    assert rest[0] == b.children[k] && rest[1..] == b.children[k + 1..];
    SequenceStep(w, false, inline, b, k, h, ran, bb);
    if IsVoiceAction(reg, b.children[k]) {
      VoicePasses(reg, known, w, inline, b.children[k], h, ran, bb);
      assert k + 1 < |b.children| by {
        assert s.children[p..] != [];
      }
      if w.cancel(h) {
        SequenceStep(w, false, inline, s, p, h, ran', bb');
      } else {
        var o := Eval(w, false, inline, b.children[k], h, ran, bb);
        BranchIsResidue(reg, known, w, inline, b, k + 1, s, p, h, o.ran, ran', bb + o.res.facts, bb');
      }
    } else {
      assert s.children[p] == s.children[p..][0] == b.children[k];
      assert s.children[p + 1..] == s.children[p..][1..] == Filter(Unspoken(reg), b.children[k + 1..]);
      StepIsResidue(reg, known, w, inline, b, k, s, p, h, ran, ran', bb, bb');
    }
  }

  lemma {:induction false} StepIsResidue(
      reg: Registry, known: set<string>, w: World, inline: bool, b: Node, k: nat, s: Node, p: nat,
      h: History, ran: nat, ran': nat, bb: Facts, bb': Facts)
    requires Quiet(reg, w) && b.Sequence? && s.Sequence? && k < |b.children| && p < |s.children|
    requires AllValidated(reg, known, b.children)
    requires s.children[p] == b.children[k] && !IsVoiceAction(reg, b.children[k])
    requires s.children[p + 1..] == Filter(Unspoken(reg), b.children[k + 1..])
    ensures Alike(w, SpeaksLast(reg, b),
                  EvalFrame(w, false, inline, s, p, h, ran', bb'), EvalFrame(w, false, inline, b, k, h, ran, bb))
    decreases |b.children| - k, 0
  {
    SequenceStep(w, false, inline, b, k, h, ran, bb);
    SequenceStep(w, false, inline, s, p, h, ran', bb');
    BlackboardIsInert(w, false, inline, b.children[k], h, ran', ran, bb', bb);
    EvalCoherent(w, false, inline, b.children[k], h, ran, bb);
    var o := Eval(w, false, inline, b.children[k], h, ran, bb);
    var o' := Eval(w, false, inline, b.children[k], h, ran', bb');
    if o.res.success {
      if p + 1 < |s.children| {
        assert k + 1 < |b.children|;
        BranchIsResidue(reg, known, w, inline, b, k + 1, s, p + 1, o.hist, o.ran, o'.ran,
                        bb + o.res.facts, bb' + o'.res.facts);
      } else if k + 1 < |b.children| {
        VoiceTail(reg, known, w, inline, b, k + 1, o.hist, o.ran, bb + o.res.facts);
      }
    }
  }

  // What the rewritten plan may do less of: its trace is a prefix, and as soon as
  // it succeeds or blocks the two run alike.
  predicate Shortens(w: World, speaksLast: bool, a: Outcome, b: Outcome) {
    && a.hist <= b.hist
    && (a.res.success || a.res.blocked ==> Alike(w, speaksLast, a, b))
  }

  // A whole branch against its residue at the end of a Sequence.
  lemma BranchRunsAlike(
      reg: Registry, known: set<string>, w: World, inline: bool, branch: Node, s: Node, p: nat,
      h: History, ran: nat, ran': nat, bb: Facts, bb': Facts)
    requires Quiet(reg, w) && Validated(reg, known, branch) && s.Sequence? && p < |s.children|
    requires Residue(reg, branch) == Some(s.children[p..])
    ensures Alike(w, SpeaksLast(reg, branch),
                  EvalFrame(w, false, inline, s, p, h, ran', bb'), Eval(w, false, inline, branch, h, ran, bb))
  {
    if branch.Sequence? {
      assert AllValidated(reg, known, branch.children);
      assert branch.children[0..] == branch.children;
      BranchIsResidue(reg, known, w, inline, branch, 0, s, p, h, ran, ran', bb, bb');
      if w.cancel(h) {
        SequenceStep(w, false, inline, s, p, h, ran', bb');
      }
    } else {
      LoneBranch(reg, known, w, inline, branch, s, p, h, ran, ran', bb, bb');
    }
  }

  lemma LoneBranch(
      reg: Registry, known: set<string>, w: World, inline: bool, branch: Node, s: Node, p: nat,
      h: History, ran: nat, ran': nat, bb: Facts, bb': Facts)
    requires Quiet(reg, w) && Validated(reg, known, branch) && s.Sequence? && p < |s.children| && !branch.Sequence?
    requires Residue(reg, branch) == Some(s.children[p..])
    ensures SameTrace(EvalFrame(w, false, inline, s, p, h, ran', bb'), Eval(w, false, inline, branch, h, ran, bb))
  {
    assert [branch][1..] == [] && Filter(Unspoken(reg), [branch]) == s.children[p..];
    assert |s.children[p..]| > 0 && s.children[p..] == if Unspoken(reg)(branch) then [branch] else [];
    assert s.children[p] == s.children[p..][0] == branch && p + 1 == |s.children|;
    SequenceStep(w, false, inline, s, p, h, ran', bb');
    BlackboardIsInert(w, false, inline, branch, h, ran', ran, bb', bb);
    EvalCoherent(w, false, inline, branch, h, ran, bb);
  }

  // One step of a Fallback.
  lemma FallbackStep(w: World, inline: bool, node: Node, k: nat, h: History, ran: nat, facts: Facts)
    requires node.Fallback? && k < |node.children|
    ensures
      var o := Eval(w, false, inline, node.children[k], h, ran, facts);
      var merged := facts + o.res.facts;
      && Coherent(o.res)
      && EvalFrame(w, false, inline, node, k, h, ran, facts) ==
           if o.res.success then Outcome(Succeeded(merged), o.hist, o.ran)
           else if o.res.blocked then Outcome(ExecutionResult(false, true, o.res.needsDecision, merged), o.hist, o.ran)
           else if k + 1 == |node.children| then Outcome(Failed(merged), o.hist, o.ran)
           else EvalFrame(w, false, inline, node, k + 1, o.hist, o.ran, merged)
  {
    EvalCoherent(w, false, inline, node.children[k], h, ran, facts);
  }

  // Once a cancel has been seen, all that is left of a Fallback is refused.
  lemma {:induction false} RefusedFallback(w: World, inline: bool, fallback: Node, k: nat, h: History, ran: nat, bb: Facts)
    requires fallback.Fallback? && k < |fallback.children| && w.cancel(h)
    ensures
      var o := EvalFrame(w, false, inline, fallback, k, h, ran, bb);
      o.hist == h && PlainFailure(o.res)
    decreases |fallback.children| - k
  {
    if k + 1 < |fallback.children| {
      var o := Eval(w, false, inline, fallback.children[k], h, ran, bb);
      RefusedFallback(w, inline, fallback, k + 1, o.hist, o.ran, bb + o.res.facts);
    }
  }

  // The steps in place of the Fallback.
  lemma StepsShortenFallback(
      reg: Registry, known: set<string>, w: World, inline: bool, fallback: Node, s: Node, p: nat,
      h: History, ran: nat, ran': nat, bb: Facts, bb': Facts)
    requires Quiet(reg, w) && fallback.Fallback? && Validated(reg, known, fallback)
    requires s.Sequence? && p < |s.children| && SharedSteps(reg, fallback) == Some(s.children[p..])
    ensures Shortens(w, SpeaksLast(reg, fallback.children[0]),
                     EvalFrame(w, false, inline, s, p, h, ran', bb'), Eval(w, false, inline, fallback, h, ran, bb))
    ensures Coherent(Eval(w, false, inline, fallback, h, ran, bb).res)
  {
    var branch := fallback.children[0];
    assert AllValidated(reg, known, fallback.children);
    BranchRunsAlike(reg, known, w, inline, branch, s, p, h, ran, ran', bb, bb');
    EvalCoherent(w, false, inline, branch, h, ran, bb);
    EvalCoherent(w, false, inline, fallback, h, ran, bb);
    if w.cancel(h) {
      SequenceStep(w, false, inline, s, p, h, ran', bb');
    } else {
      TraceGrowsFrame(w, false, inline, fallback, 0, h, ran, bb);
      var a := EvalFrame(w, false, inline, s, p, h, ran', bb');
      var o := Eval(w, false, inline, branch, h, ran, bb);
      if a.res.success && SpeaksLast(reg, branch) && w.cancel(a.hist) {
        RefusedFallback(w, inline, fallback, 1, o.hist, o.ran, bb + o.res.facts);
      }
    }
  }

  // Two Sequences that share child k and shorten each other behind it.
  lemma SharedHead(w: World, speaksLast: bool, inline: bool, a: Node, b: Node, k: nat, h: History, ran: nat, bb: Facts)
    requires a.Sequence? && b.Sequence? && k + 1 < |a.children| && k + 1 < |b.children| && a.children[k] == b.children[k]
    requires
      var o := Eval(w, false, inline, b.children[k], h, ran, bb);
      Shortens(w, speaksLast, EvalFrame(w, false, inline, a, k + 1, o.hist, o.ran, bb + o.res.facts),
               EvalFrame(w, false, inline, b, k + 1, o.hist, o.ran, bb + o.res.facts))
    ensures Shortens(w, speaksLast, EvalFrame(w, false, inline, a, k, h, ran, bb), EvalFrame(w, false, inline, b, k, h, ran, bb))
  {
    SequenceStep(w, false, inline, a, k, h, ran, bb);
    SequenceStep(w, false, inline, b, k, h, ran, bb);
  }

  lemma FallbackSpliced(
      reg: Registry, known: set<string>, w: World, inline: bool, s: Node, s': Node, h: History, ran: nat, bb: Facts)
    requires Quiet(reg, w) && Validated(reg, known, s) && IsSplice(reg, s, s')
    ensures
      var k := |s.children| - 1;
      Shortens(w, SpeaksLast(reg, s.children[k].children[0]),
               EvalFrame(w, false, inline, s', k, h, ran, bb), EvalFrame(w, false, inline, s, k, h, ran, bb))
  {
    var k := |s.children| - 1;
    assert AllValidated(reg, known, s.children);
    assert s'.children[k..] == SharedSteps(reg, s.children[k]).value;
    StepsShortenFallback(reg, known, w, inline, s.children[k], s', k, h, ran, ran, bb, bb);
    SequenceStep(w, false, inline, s, k, h, ran, bb);
  }

  // The Sequence that is spliced, from child k on.
  lemma {:induction false} SpliceShortens(
      reg: Registry, known: set<string>, w: World, inline: bool, s: Node, s': Node, k: nat,
      h: History, ran: nat, bb: Facts)
    requires Quiet(reg, w) && Validated(reg, known, s) && IsSplice(reg, s, s') && k < |s.children|
    ensures Shortens(w, SpeaksLast(reg, s.children[|s.children| - 1].children[0]),
                     EvalFrame(w, false, inline, s', k, h, ran, bb), EvalFrame(w, false, inline, s, k, h, ran, bb))
    decreases |s.children| - k
  {
    var n := |s.children|;
    if k == n - 1 {
      FallbackSpliced(reg, known, w, inline, s, s', h, ran, bb);
    } else {
      assert s'.children[k] == s.children[k] && k + 1 < |s'.children|;
      var o := Eval(w, false, inline, s.children[k], h, ran, bb);
      SpliceShortens(reg, known, w, inline, s, s', k + 1, o.hist, o.ran, bb + o.res.facts);
      SharedHead(w, SpeaksLast(reg, s.children[n - 1].children[0]), inline, s', s, k, h, ran, bb);
    }
  }

  // s' is what takes the place of s.
  predicate IsSplice(reg: Registry, s: Node, s': Node) {
    && s.Sequence? && EndsInFallback(s.children)
    && SharedSteps(reg, s.children[|s.children| - 1]).Some?
    && s' == Spliced(s, SharedSteps(reg, s.children[|s.children| - 1]).value)
  }

  // All the ancestors of the spliced Sequence are Sequences.
  predicate Spine(node: Node, path: Path)
    decreases |path|
  {
    path != [] ==>
      node.Sequence? && path[0] < |node.children| && Spine(node.children[path[0]], path[1..])
  }

  // The very last thing the plan does is to speak at the end of a branch: nothing
  // follows the Fallback, and its first branch ends with a voice Action.
  predicate EndsSpeaking(reg: Registry, node: Node, path: Path)
    requires Spine(node, path) && NodeAt(node, path).Some?
    decreases |path|
  {
    if path == [] then
      && node.Sequence? && EndsInFallback(node.children)
      && var branches := node.children[|node.children| - 1].children;
         branches != [] && SpeaksLast(reg, branches[0])
    else path[0] + 1 == |node.children| && EndsSpeaking(reg, node.children[path[0]], path[1..])
  }

  lemma {:induction false} SpineShortens(
      reg: Registry, known: set<string>, w: World, inline: bool, node: Node, path: Path, s': Node,
      h: History, ran: nat, bb: Facts)
    requires Quiet(reg, w) && Validated(reg, known, node) && Spine(node, path) && NodeAt(node, path).Some?
    requires IsSplice(reg, NodeAt(node, path).value, s')
    ensures Shortens(w, EndsSpeaking(reg, node, path),
                     Eval(w, false, inline, ReplaceAt(node, path, s'), h, ran, bb), Eval(w, false, inline, node, h, ran, bb))
    decreases |path|, 1
  {
    if path == [] {
      SpliceShortens(reg, known, w, inline, node, s', 0, h, ran, bb);
    } else {
      SpineFrameShortens(reg, known, w, inline, node, path, s', 0, h, ran, bb);
    }
  }

  lemma {:induction false} SpineFrameShortens(
      reg: Registry, known: set<string>, w: World, inline: bool, node: Node, path: Path, s': Node, k: nat,
      h: History, ran: nat, bb: Facts)
    requires Quiet(reg, w) && Validated(reg, known, node) && Spine(node, path) && path != [] && NodeAt(node, path).Some?
    requires IsSplice(reg, NodeAt(node, path).value, s')
    requires k <= path[0]
    ensures Shortens(w, EndsSpeaking(reg, node, path),
                     EvalFrame(w, false, inline, ReplaceAt(node, path, s'), k, h, ran, bb),
                     EvalFrame(w, false, inline, node, k, h, ran, bb))
    decreases |path|, 0, path[0] - k
  {
    var new' := ReplaceAt(node, path, s');
    assert AllValidated(reg, known, node.children);
    if k < path[0] {
      assert new'.children[k] == node.children[k];
      var o := Eval(w, false, inline, node.children[k], h, ran, bb);
      SpineFrameShortens(reg, known, w, inline, node, path, s', k + 1, o.hist, o.ran, bb + o.res.facts);
      SharedHead(w, EndsSpeaking(reg, node, path), inline, new', node, k, h, ran, bb);
    } else {
      var inner := EndsSpeaking(reg, node.children[k], path[1..]);
      SpineShortens(reg, known, w, inline, node.children[k], path[1..], s', h, ran, bb);
      TailShortens(w, inner, inline, new', node, k, h, ran, bb);
    }
  }

  // Two Sequences that differ in child k only, where one shortens the other: what
  // follows behind leaves no room for a difference.
  lemma TailShortens(w: World, speaksLast: bool, inline: bool, a: Node, b: Node, k: nat, h: History, ran: nat, bb: Facts)
    requires a.Sequence? && b.Sequence? && k < |a.children| == |b.children|
    requires forall i :: k < i < |b.children| ==> a.children[i] == b.children[i]
    requires Shortens(w, speaksLast,
                      Eval(w, false, inline, a.children[k], h, ran, bb), Eval(w, false, inline, b.children[k], h, ran, bb))
    ensures Shortens(w, speaksLast && k + 1 == |b.children|,
                     EvalFrame(w, false, inline, a, k, h, ran, bb), EvalFrame(w, false, inline, b, k, h, ran, bb))
  {
    var o' := Eval(w, false, inline, a.children[k], h, ran, bb);
    var o := Eval(w, false, inline, b.children[k], h, ran, bb);
    TraceGrowsFrame(w, false, inline, b, k, h, ran, bb);
    EvalCoherent(w, false, inline, a.children[k], h, ran, bb);
    EvalCoherent(w, false, inline, b.children[k], h, ran, bb);
    SequenceStep(w, false, inline, a, k, h, ran, bb);
    SequenceStep(w, false, inline, b, k, h, ran, bb);
    if o'.res.success && k + 1 < |b.children| {
      if speaksLast && w.cancel(o'.hist) {
        SequenceStep(w, false, inline, a, k + 1, o'.hist, o'.ran, bb + o'.res.facts);
      } else {
        SameTail(w, inline, a, b, k + 1, o.hist, o'.ran, o.ran, bb + o'.res.facts, bb + o.res.facts);
      }
    }
  }

  lemma {:induction false} SameTail(
      w: World, inline: bool, a: Node, b: Node, k: nat, h: History, ran': nat, ran: nat, bb': Facts, bb: Facts)
    requires a.Sequence? && b.Sequence? && k < |a.children| == |b.children|
    requires forall i :: k <= i < |b.children| ==> a.children[i] == b.children[i]
    ensures SameTrace(EvalFrame(w, false, inline, a, k, h, ran', bb'), EvalFrame(w, false, inline, b, k, h, ran, bb))
    decreases |b.children| - k
  {
    BlackboardIsInert(w, false, inline, b.children[k], h, ran', ran, bb', bb);
    var o' := Eval(w, false, inline, b.children[k], h, ran', bb');
    var o := Eval(w, false, inline, b.children[k], h, ran, bb);
    if o.res.success && k + 1 < |b.children| {
      SameTail(w, inline, a, b, k + 1, o.hist, o'.ran, o.ran, bb' + o'.res.facts, bb + o.res.facts);
    }
  }

  // The main result. Where the rewrite fires under no Retry and no Timeout, for
  // every outcome history in which speaking succeeds, cancelled ones included:
  // the visible trace of the rewritten plan is a prefix of the original's, and
  // equal when the rewritten plan succeeds or blocks. When it succeeds, so does
  // the original, except exactly when the original ends by speaking and the
  // cancel has been seen by the time it would speak.
  lemma RewriteShortens(reg: Registry, known: set<string>, w: World, root: Node)
    requires Validated(reg, known, root) && Quiet(reg, w)
    requires RewriteFallback(reg, root).Some? && Spine(root, RewriteFallback(reg, root).value.at)
    ensures NodeAt(root, RewriteFallback(reg, root).value.at).Some?
    ensures
      var before := Eval(w, false, true, root, [], 0, map[]);
      var after := Eval(w, false, true, RewriteFallback(reg, root).value.root, [], 0, map[]);
      var speaksLast := EndsSpeaking(reg, root, RewriteFallback(reg, root).value.at);
      && after.hist <= before.hist
      && (after.res.success ==> after.hist == before.hist)
      && (after.res.success ==> (before.res.success <==> !(speaksLast && w.cancel(after.hist))))
      && (after.res.blocked || (after.res.success && before.res.success) ==> SameTrace(after, before))
  {
    ShapeFound(root);
    var at := RewriteFallback(reg, root).value.at;
    var s := NodeAt(root, at).value;
    EvalCoherent(w, false, true, RewriteFallback(reg, root).value.root, [], 0, map[]);
    SpineShortens(reg, known, w, true, root, at, Spliced(s, SharedSteps(reg, s.children[|s.children| - 1]).value), [], 0, map[]);
  }

  // ---- What the original did beyond: the same steps again.

  lemma {:induction false} BareTreesAt(nodes: seq<Node>, i: nat)
    requires i < |nodes|
    ensures BareTrees(nodes)[i] == BareTree(nodes[i])
  {
    if i > 0 {
      BareTreesAt(nodes[1..], i - 1);
    }
  }

  lemma SameBareChild(a: Node, b: Node, k: nat)
    requires BareTree(a) == BareTree(b) && a.IsStepwise() && k < a.Slots()
    ensures b.IsStepwise() && b.Slots() == a.Slots() && BareTree(a.Slot(k)) == BareTree(b.Slot(k))
  {
    if !a.Retry? {
      BareTreesAt(a.children, k);
      BareTreesAt(b.children, k);
    }
  }

  // Trees that differ in node ids only run alike.
  lemma {:induction false} IdsDoNotMatter(
      w: World, c: bool, inline: bool, a: Node, b: Node, h: History, ran: nat, bb: Facts)
    requires BareTree(a) == BareTree(b)
    ensures Eval(w, c, inline, a, h, ran, bb) == Eval(w, c, inline, b, h, ran, bb)
    decreases a, 2, 0
  {
    if !(c || w.cancel(h)) {
      if a.IsLeaf() {
        assert Bare(a) == Bare(b);
      } else if a.IsStepwise() {
        if a.Slots() > 0 {
          IdsDoNotMatterInFrame(w, c, inline && !a.Retry?, a, b, 0, h, ran, bb);
        }
      } else if a.Parallel? {
        IdsDoNotMatterInFork(w, c, a, b, [], false, h, ran, bb);
      } else {
        IdsDoNotMatter(w, c, false, a.child, b.child, h, ran, bb);
      }
    }
  }

  lemma {:induction false} IdsDoNotMatterInFrame(
      w: World, c: bool, inline: bool, a: Node, b: Node, k: nat, h: History, ran: nat, bb: Facts)
    requires BareTree(a) == BareTree(b) && a.IsStepwise() && b.IsStepwise() && k < a.Slots() == b.Slots()
    requires a.Sequence? == b.Sequence? && a.Retry? == b.Retry?
    ensures EvalFrame(w, c, inline, a, k, h, ran, bb) == EvalFrame(w, c, inline, b, k, h, ran, bb)
    decreases a, 1, a.Slots() - k
  {
    SameBareChild(a, b, k);
    IdsDoNotMatter(w, c, inline, a.Slot(k), b.Slot(k), h, ran, bb);
    var o := Eval(w, c, inline, a.Slot(k), h, ran, bb);
    AfterSameFlags(a, b, k, o.res, o.res, c || w.cancel(o.hist));
    if After(a, k, o.res, c || w.cancel(o.hist)) == Continue {
      IdsDoNotMatterInFrame(w, c, inline, a, b, k + 1, o.hist, o.ran, bb + o.res.facts);
    }
  }

  lemma {:induction false} IdsDoNotMatterInFork(
      w: World, c: bool, a: Node, b: Node, rs: seq<ExecutionResult>, failed: bool, h: History, ran: nat, bb: Facts)
    requires BareTree(a) == BareTree(b) && a.Parallel? && b.Parallel? && |rs| <= |a.children| == |b.children|
    ensures EvalFork(w, c, a, rs, failed, h, ran, bb) == EvalFork(w, c, b, rs, failed, h, ran, bb)
    decreases a, 1, |a.children| - |rs|
  {
    if |rs| < |a.children| {
      BareTreesAt(a.children, |rs|);
      BareTreesAt(b.children, |rs|);
      IdsDoNotMatter(w, c || failed, false, a.children[|rs|], b.children[|rs|], h, ran, bb);
      var o := Eval(w, c || failed, false, a.children[|rs|], h, ran, bb);
      IdsDoNotMatterInFork(w, c, a, b, rs + [o.res], failed || (a.cancelOnFailure && !o.res.success), o.hist, o.ran, bb);
    }
  }

  // Every branch runs like the shared steps, up to what it says at the end: with
  // an observation in front that succeeds either way, no branch stands for one of
  // its answers.
  lemma BranchesAreAlike(
      reg: Registry, known: set<string>, w: World, inline: bool, fallback: Node, i: nat, h: History, ran: nat, ran': nat,
      bb: Facts, bb': Facts)
    requires Quiet(reg, w) && fallback.Fallback? && Validated(reg, known, fallback)
    requires SharedSteps(reg, fallback).Some? && i < |fallback.children|
    ensures Alike(w, SpeaksLast(reg, fallback.children[i]),
                  Eval(w, false, inline, Sequence("", SharedSteps(reg, fallback).value), h, ran', bb'),
                  Eval(w, false, inline, fallback.children[i], h, ran, bb))
  {
    var shared := SharedSteps(reg, fallback).value;
    var branch := fallback.children[i];
    assert AllValidated(reg, known, fallback.children);
    assert Residue(reg, branch) != None && BareTrees(Residue(reg, branch).value) == BareTrees(shared);
    var own := Sequence("", Residue(reg, branch).value);
    assert own.children[0..] == own.children;
    BranchRunsAlike(reg, known, w, inline, branch, own, 0, h, ran, ran', bb, bb');
    IdsDoNotMatter(w, false, inline, Sequence("", shared), own, h, ran', bb');
  }

  // The Fallback tries the same steps once per branch; the rewritten plan tries
  // them once.
  function Repeated(steps: seq<Node>, times: nat): Node {
    Fallback("", seq(times, i => Sequence("", steps)))
  }

  // One goes on like the other, unless a last word is refused.
  ghost predicate RunsLike(reg: Registry, w: World, fallback: Node, k: nat, a: Outcome, b: Outcome)
    requires fallback.Fallback?
  {
    || SameTrace(a, b)
    || (a.res.success && w.cancel(a.hist) && a.hist == b.hist && PlainFailure(b.res)
        && exists i :: k <= i < |fallback.children| && SpeaksLast(reg, fallback.children[i]))
  }

  lemma {:induction false} FallbackRepeatsSteps(
      reg: Registry, known: set<string>, w: World, inline: bool, fallback: Node, k: nat, h: History, ran: nat, ran': nat,
      bb: Facts, bb': Facts)
    requires Quiet(reg, w) && fallback.Fallback? && Validated(reg, known, fallback)
    requires SharedSteps(reg, fallback).Some? && k < |fallback.children|
    ensures
      var repeated := Repeated(SharedSteps(reg, fallback).value, |fallback.children|);
      RunsLike(reg, w, fallback, k, EvalFrame(w, false, inline, repeated, k, h, ran', bb'),
               EvalFrame(w, false, inline, fallback, k, h, ran, bb))
    decreases |fallback.children| - k
  {
    var steps, n := SharedSteps(reg, fallback).value, |fallback.children|;
    var repeated := Repeated(steps, n);
    assert repeated.children[k] == Sequence("", steps);
    BranchesAreAlike(reg, known, w, inline, fallback, k, h, ran, ran', bb, bb');
    var o' := Eval(w, false, inline, repeated.children[k], h, ran', bb');
    var o := Eval(w, false, inline, fallback.children[k], h, ran, bb);
    FallbackStep(w, inline, repeated, k, h, ran', bb');
    FallbackStep(w, inline, fallback, k, h, ran, bb);
    if PlainFailure(o.res) && k + 1 < n {
      if w.cancel(o.hist) {
        RefusedFallback(w, inline, fallback, k + 1, o.hist, o.ran, bb + o.res.facts);
      }
      if !o'.res.success {
        FallbackRepeatsSteps(reg, known, w, inline, fallback, k + 1, o.hist, o.ran, o'.ran, bb + o.res.facts, bb' + o'.res.facts);
      }
    }
  }

  // ---- A cancel between the last step and the last word.

  const GO := Action("g", "go", map[], None)
  const SAY := Action("s", "say", map[], None)
  const LOOK := VisualCheck("v", ObserveMode, Check("", "", "is the door open"))
  const TOLD := Sequence("b", [GO, SAY])
  const ANSWERED := Sequence("r", [LOOK, Fallback("f", [TOLD, TOLD])])
  const GO_AND_SAY: Registry :=
    map["go" := SkillSpec({}, [], Embodied, true, {}, false), "say" := SkillSpec({}, [], Voice, false, {}, false)]

  // Everything succeeds; the mission is cancelled once two leaves were seen to run.
  function CancelledAfterTwo(): World {
    World((h, s, a) => SkillReport(Succeeded(map[]), None),
          (h, n) => None, (h, k) => Some(TrueState), (h, p, n) => None, k => false, (h, d) => false,
          (h, n) => NoChecker, h => |h| >= 2, (h, d) => false, n => !IsVoiceAction(GO_AND_SAY, n))
  }

  lemma AnsweredIsValid()
    ensures Validated(GO_AND_SAY, {}, ANSWERED) && Quiet(GO_AND_SAY, CancelledAfterTwo())
  {
    assert Strip("go") == "go" && Strip("say") == "say" && Strip(LOOK.check.query) != "";
    assert AllValidated(GO_AND_SAY, {}, TOLD.children);
    assert AllValidated(GO_AND_SAY, {}, ANSWERED.children[1].children);
    assert AllValidated(GO_AND_SAY, {}, ANSWERED.children);
  }

  lemma AnsweredIsRewritten()
    ensures RewriteFallback(GO_AND_SAY, ANSWERED) == Some(Rewrite(Sequence("r", [LOOK, GO]), [], "g"))
    ensures EndsSpeaking(GO_AND_SAY, ANSWERED, [])
  {
    assert TOLD.children[1..] == [SAY] && [SAY][1..] == [];
    assert !IsVoiceAction(GO_AND_SAY, GO) && IsVoiceAction(GO_AND_SAY, SAY);
    assert Filter(Unspoken(GO_AND_SAY), [SAY]) == [];
    assert Filter(Unspoken(GO_AND_SAY), TOLD.children) == [GO];
    var fallback := ANSWERED.children[1];
    assert forall i :: 0 <= i < |fallback.children| ==> Residue(GO_AND_SAY, fallback.children[i]) == Some([GO]);
    assert SharedSteps(GO_AND_SAY, fallback) == Some([GO]);
    assert EndsInFallback(ANSWERED.children) && FindShape(ANSWERED) == Some([]);
    assert ANSWERED.children[..1] + [GO] == [LOOK, GO];
  }

  // The rewritten plan succeeds, the original does not: its last word is refused.
  lemma LastWordRefused()
    ensures Validated(GO_AND_SAY, {}, ANSWERED) && Quiet(GO_AND_SAY, CancelledAfterTwo()) && Lasting(CancelledAfterTwo())
    ensures RewriteFallback(GO_AND_SAY, ANSWERED).Some?
    ensures Eval(CancelledAfterTwo(), false, true, RewriteFallback(GO_AND_SAY, ANSWERED).value.root, [], 0, map[]).res.success
    ensures !Eval(CancelledAfterTwo(), false, true, ANSWERED, [], 0, map[]).res.success
  {
    AnsweredIsValid();
    AnsweredIsRewritten();
    ShortAnswer();
    RewriteShortens(GO_AND_SAY, {}, CancelledAfterTwo(), ANSWERED);
  }

  lemma ShortAnswer()
    ensures
      var o := Eval(CancelledAfterTwo(), false, true, Sequence("r", [LOOK, GO]), [], 0, map[]);
      o.res.success && |o.hist| == 2
  {
    var w := CancelledAfterTwo();
    var look := Visit(Bare(LOOK), true, false, false);
    var short := Sequence("r", [LOOK, GO]);
    SequenceStep(w, false, true, short, 0, [], 0, map[]);
    var o := Eval(w, false, true, LOOK, [], 0, map[]);
    assert o.res.success && o.hist == [look];
    SequenceStep(w, false, true, short, 1, o.hist, o.ran, map[] + o.res.facts);
  }

  // ---- What the rewrite keeps of the tree.

  lemma {:induction false} LeavesOfSome(xs: seq<Node>, ys: seq<Node>)
    requires forall x :: x in xs ==> x in ys
    ensures forall leaf :: leaf in AllLeaves(xs) ==> leaf in AllLeaves(ys)
  {
    if xs != [] {
      LeavesOfSome(xs[1..], ys);
      assert xs[0] in xs;
      var i :| 0 <= i < |ys| && ys[i] == xs[0];
      ChildLeavesListed(ys, i);
    }
  }

  lemma SharedAreBranchSteps(reg: Registry, known: set<string>, fallback: Node)
    requires fallback.Fallback? && SharedSteps(reg, fallback).Some?
    ensures
      var shared := SharedSteps(reg, fallback).value;
      && shared != []
      && (forall leaf :: leaf in AllLeaves(shared) ==> leaf in Leaves(fallback))
      && (Validated(reg, known, fallback) ==> AllValidated(reg, known, shared))
  {
    var shared, branch := SharedSteps(reg, fallback).value, fallback.children[0];
    assert Residue(reg, branch) != None && Residue(reg, branch) != Some([]);
    var steps := if branch.Sequence? then branch.children else [branch];
    FilterMembers(Unspoken(reg), steps);
    LeavesOfSome(shared, steps);
    assert AllLeaves(steps) == Leaves(branch) by {
      if !branch.Sequence? {
        assert steps[1..] == [];
      }
    }
    ChildLeavesListed(fallback.children, 0);
    if Validated(reg, known, fallback) {
      assert AllValidated(reg, known, fallback.children);
      assert branch.Sequence? ==> AllValidated(reg, known, branch.children);
      assert AllValidated(reg, known, steps);
      forall i | 0 <= i < |shared|
        ensures Validated(reg, known, shared[i])
      {
        assert shared[i] in shared && shared[i] in steps;
      }
    }
  }

  lemma {:induction false} LeavesOfReplace(node: Node, path: Path, sub: Node)
    requires NodeAt(node, path).Some?
    requires forall leaf :: leaf in Leaves(sub) ==> leaf in Leaves(NodeAt(node, path).value)
    ensures forall leaf :: leaf in Leaves(ReplaceAt(node, path, sub)) ==> leaf in Leaves(node)
    decreases |path|
  {
    if path != [] {
      var child := ChildAt(node, path[0]).value;
      LeavesOfReplace(child, path[1..], sub);
      if node.Sequence? || node.Fallback? || node.Parallel? {
        UpdatedLeaves(node.children, path[0], ReplaceAt(child, path[1..], sub));
      }
    }
  }

  lemma {:induction false} UpdatedLeaves(nodes: seq<Node>, k: nat, sub: Node)
    requires k < |nodes| && forall leaf :: leaf in Leaves(sub) ==> leaf in Leaves(nodes[k])
    ensures forall leaf :: leaf in AllLeaves(nodes[k := sub]) ==> leaf in AllLeaves(nodes)
    decreases k
  {
    var changed := nodes[k := sub];
    if k == 0 {
      assert changed[1..] == nodes[1..];
    } else {
      assert changed[1..] == nodes[1..][k - 1 := sub];
      UpdatedLeaves(nodes[1..], k - 1, sub);
    }
  }

  // Every leaf of the rewritten plan is a leaf of the original, so whatever holds
  // of all leaves, where identities come from among others, still does.
  lemma RewriteCopiesLeaves(reg: Registry, root: Node)
    requires RewriteFallback(reg, root).Some?
    ensures forall leaf :: leaf in Leaves(RewriteFallback(reg, root).value.root) ==> leaf in Leaves(root)
  {
    ShapeFound(root);
    var at := RewriteFallback(reg, root).value.at;
    var s := NodeAt(root, at).value;
    SplicedLeaves(reg, s);
    LeavesOfReplace(root, at, Spliced(s, SharedSteps(reg, s.children[|s.children| - 1]).value));
  }

  lemma SplicedLeaves(reg: Registry, s: Node)
    requires s.Sequence? && EndsInFallback(s.children) && SharedSteps(reg, s.children[|s.children| - 1]).Some?
    ensures
      var shared := SharedSteps(reg, s.children[|s.children| - 1]).value;
      forall leaf :: leaf in Leaves(Spliced(s, shared)) ==> leaf in Leaves(s)
  {
    var fallback := s.children[|s.children| - 1];
    var front := s.children[..|s.children| - 1];
    SharedAreBranchSteps(reg, {}, fallback);
    AllLeavesConcat(front, SharedSteps(reg, fallback).value);
    AllLeavesConcat(front, [fallback]);
    assert front + [fallback] == s.children;
    assert AllLeaves([fallback]) == Leaves(fallback) + AllLeaves([fallback][1..]);
  }

  // A validated plan stays validated: the spliced Sequence is under no Parallel.
  lemma RewriteKeepsValid(reg: Registry, known: set<string>, root: Node)
    requires Validated(reg, known, root) && RewriteFallback(reg, root).Some?
    ensures Validated(reg, known, RewriteFallback(reg, root).value.root)
  {
    ShapeFound(root);
    NoParallelAbove(root);
    var at := RewriteFallback(reg, root).value.at;
    var s := NodeAt(root, at).value;
    var shared := SharedSteps(reg, s.children[|s.children| - 1]).value;
    ValidatedAt(reg, known, root, at);
    assert AllValidated(reg, known, s.children);
    SharedAreBranchSteps(reg, known, s.children[|s.children| - 1]);
    var spliced := Spliced(s, shared);
    forall i | 0 <= i < |spliced.children|
      ensures Validated(reg, known, spliced.children[i])
    {
      if i >= |s.children| - 1 {
        assert spliced.children[i] == shared[i - (|s.children| - 1)];
      }
    }
    assert AllValidated(reg, known, spliced.children);
    SpliceValid(reg, known, root, at, spliced);
  }

  predicate FreeOfParallel(node: Node, path: Path)
    decreases |path|
  {
    path != [] ==>
      && (node.Sequence? || node.Retry? || node.Timeout?)
      && ChildAt(node, path[0]).Some? && FreeOfParallel(ChildAt(node, path[0]).value, path[1..])
  }

  lemma {:induction false} NoParallelAbove(node: Node)
    ensures FindShape(node).Some? ==> FreeOfParallel(node, FindShape(node).value)
    decreases node, 1, 0
  {
    match node
    case Sequence(_, children) => NoParallelAboveFrom(node, 0);
    case Retry(_, _, child) =>
      NoParallelAbove(child);
      if FindShape(child).Some? {
        assert ([0] + FindShape(child).value)[1..] == FindShape(child).value;
      }
    case Timeout(_, _, child) =>
      NoParallelAbove(child);
      if FindShape(child).Some? {
        assert ([0] + FindShape(child).value)[1..] == FindShape(child).value;
      }
    case _ =>
  }

  lemma {:induction false} NoParallelAboveFrom(node: Node, i: nat)
    requires node.Sequence? && i <= |node.children|
    ensures FindShapeFrom(node.children, i).Some? ==> FreeOfParallel(node, FindShapeFrom(node.children, i).value)
    decreases node, 0, |node.children| - i
  {
    if i < |node.children| {
      NoParallelAbove(node.children[i]);
      NoParallelAboveFrom(node, i + 1);
      var inner := FindShape(node.children[i]);
      if inner.Some? {
        assert ([i] + inner.value)[1..] == inner.value;
      }
    }
  }

  lemma {:induction false} SpliceValid(reg: Registry, known: set<string>, node: Node, path: Path, sub: Node)
    requires Validated(reg, known, node) && Validated(reg, known, sub)
    requires NodeAt(node, path).Some? && FreeOfParallel(node, path)
    ensures Validated(reg, known, ReplaceAt(node, path, sub))
    decreases |path|
  {
    if path != [] {
      assert node.Sequence? ==> AllValidated(reg, known, node.children);
      SpliceValid(reg, known, ChildAt(node, path[0]).value, path[1..], sub);
      if node.Sequence? {
        var changed := node.children[path[0] := ReplaceAt(node.children[path[0]], path[1..], sub)];
        assert AllValidated(reg, known, changed);
      }
    }
  }
}
