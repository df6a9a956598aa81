// BtExecutor: the recursive interpreter. Eval says what one execute() call
// returns and which leaves it visits when threads are scheduled in index order;
// the class computes it with loops, as the source does, and EvalIsRun shows that
// it is one run of the interleaving semantics.
module Executor {
  import opened Common
  import opened BehaviourTree
  import opened Goals
  import opened Interleaving

  // ---- The world outside: what the skills, checkers and clocks answer.

  type SkillResult = r: ExecutionResult | Coherent(r) && !r.needsDecision witness Failed(map[])

  // A blocked skill may carry one reserved request to decide its postcondition.
  datatype SkillReport = SkillReport(result: SkillResult, request: Option<string>)

  datatype EventOutcome = Happened | TimedOut | Interrupted | NoChecker

  // One leaf execution as an observer remembers it, node ids aside.
  datatype Visit = Visit(leaf: Node, success: bool, blocked: bool, needsDecision: bool)

  type History = seq<Visit>

  // Every answer may depend on everything visible that happened before.
  datatype World = World(
    skill: (History, string, Args) -> SkillReport,
    check: (History, Node) -> Option<TriState>,            // None: no checker is wired up
    visual: (History, Check) -> Option<TriState>,          // None: no visual service
    resolve: (History, string, Node) -> Option<TriState>,  // None: no decision resolver
    structured: Check -> bool,                             // the visual query has a structured form
    interrupted: (History, real) -> bool,                  // a Wait of this length is cut short by a cancel
    event: (History, Node) -> EventOutcome,
    cancel: History -> bool,                               // the mission's cancel flag
    expires: (History, real) -> bool,                      // a Timeout of this length expires before its child ran
    visible: Node -> bool)

  const NODE_ID := "node_id"

  // A leaf without its node id, wherever it is written.
  function Bare(leaf: Node): Node {
    match leaf
    case Action(_, skill, args, limit) => Action("", skill, args - {NODE_ID}, limit)
    case Wait(_, duration) => Wait("", duration)
    case NoAction(_) => NoAction("")
    case Condition(_, name, args) => Condition("", name, args - {NODE_ID})
    case GoalCheck(_, name, check) => GoalCheck("", name, check)
    case WaitForEvent(_, name, timeout, poll) => WaitForEvent("", name, timeout, poll)
    case VisualCheck(_, mode, check) => VisualCheck("", mode, check)
    case other => other
  }

  // ---- Leaves.

  // ACTION_POSTCONDITION_POLICY.
  predicate PostconditionApproved(skill: string, predicateName: string) {
    skill == "approach_entity" && predicateName == "entity_approached"
  }

  // _resolve_action_postcondition: a blocked Action with an approved request is
  // put to the resolver once; an answer settles it, no answer leaves it blocked.
  function ActionResult(w: World, h: History, inline: bool, leaf: Node): ExecutionResult
    requires leaf.Action?
  {
    var report := w.skill(h, leaf.skill, Bare(leaf).args);
    var r := report.result;
    if !r.blocked || report.request == None || !PostconditionApproved(leaf.skill, report.request.value) || !inline
    then r
    else match w.resolve(h, report.request.value, Bare(leaf))
      case None => r
      case Some(TrueState) => Succeeded(r.facts)
      case Some(FalseState) => Failed(r.facts)
      case Some(UnknownState) => Blocked(false, r.facts)
  }

  // _check_as_execution_result.
  function CheckedResult(w: World, h: History, inline: bool, predicateName: string, leaf: Node, bb: Facts): ExecutionResult {
    match w.check(h, Bare(leaf))
    case None => Blocked(false, bb)
    case Some(TrueState) => Succeeded(bb)
    case Some(FalseState) => Failed(bb)
    case Some(UnknownState) =>
      if !inline then Blocked(true, bb)
      else match w.resolve(h, predicateName, Bare(leaf))
        case Some(TrueState) => Succeeded(bb)
        case Some(FalseState) => Failed(bb)
        case _ => Blocked(true, bb)
  }

  function Recorded(check: Check, value: bool, bb: Facts): Facts {
    bb[VISUAL_RESULT := Observation(true, value, check.query)]
  }

  // _execute_visual_check: the structured form first, the visual service when
  // that is blocked; observe mode succeeds on either answer and records it.
  function VisualResult(w: World, h: History, leaf: Node, bb: Facts): ExecutionResult
    requires leaf.VisualCheck?
  {
    var observe := leaf.mode == ObserveMode;
    var first := if w.structured(leaf.check) then CheckedResult(w, h, false, "", leaf, bb) else Blocked(false, bb);
    if !first.blocked then
      if observe then Succeeded(Recorded(leaf.check, first.success, bb)) else first
    else match w.visual(h, leaf.check)
      case None => Blocked(false, bb)
      case Some(UnknownState) => Blocked(true, bb)
      case Some(answer) =>
        if observe then Succeeded(Recorded(leaf.check, answer == TrueState, bb))
        else if answer == TrueState then Succeeded(bb) else Failed(bb)
  }

  function LeafResult(w: World, h: History, inline: bool, leaf: Node, bb: Facts): ExecutionResult
    requires leaf.IsLeaf()
  {
    match leaf
    case Action(_, skill, _, limit) =>
      if skill == "" || (limit.Some? && !(0.0 < limit.value <= 600.0)) then Failed(map[])
      else ActionResult(w, h, inline, leaf)
    case Wait(_, duration) =>
      if !(0.0 < duration <= 300.0) || w.interrupted(h, duration) then Failed(map[]) else Succeeded(map[])
    case NoAction(_) => Succeeded(bb)
    case Condition(_, name, _) => CheckedResult(w, h, inline, name, leaf, bb)
    case GoalCheck(_, _, check) => CheckedResult(w, h, inline, check.predicateName, leaf, bb)
    case WaitForEvent(_, _, _, _) =>
      (match w.event(h, Bare(leaf))
       case Happened => Succeeded(bb)
       case TimedOut => Blocked(true, bb)
       case Interrupted => Failed(map[])
       case NoChecker => Blocked(false, bb))
    case VisualCheck(_, _, _) => VisualResult(w, h, leaf, bb)
  }

  // Whatever the world answers, a leaf returns one of the outcomes that the
  // interleaving semantics allows it.
  lemma LeafResultIsOutcome(w: World, h: History, inline: bool, leaf: Node, bb: Facts)
    requires leaf.IsLeaf()
    ensures LeafOutcome(leaf, bb, LeafResult(w, h, inline, leaf, bb))
  {
    var r := LeafResult(w, h, inline, leaf, bb);
    if leaf.VisualCheck? && leaf.mode == ObserveMode && r.success {
      var value := r.facts[VISUAL_RESULT].value;
      assert r == Succeeded(bb[VISUAL_RESULT := Observation(true, value, leaf.check.query)]);
    }
  }

  // ---- One execute() call.

  datatype Outcome = Outcome(res: ExecutionResult, hist: History, ran: nat)

  function Log(w: World, h: History, leaf: Node, r: ExecutionResult): History {
    if w.visible(Bare(leaf)) then h + [Visit(Bare(leaf), r.success, r.blocked, r.needsDecision)] else h
  }

  // The cancel flag is never cleared, and a wait that is cut short has seen it set.
  ghost predicate Lasting(w: World) {
    && (forall h, v :: w.cancel(h) ==> w.cancel(h + [v]))
    && (forall h, n: Node :: n.Wait? && w.interrupted(h, n.durationSec) ==> w.cancel(Log(w, h, n, Failed(map[]))))
    && (forall h, n: Node :: n.WaitForEvent? && w.event(h, Bare(n)) == Interrupted ==> w.cancel(Log(w, h, n, Failed(map[]))))
  }

  lemma CutShortSeesCancel(w: World, h: History, inline: bool, leaf: Node, bb: Facts)
    requires Lasting(w) && leaf.IsLeaf() && CutShort(leaf, LeafResult(w, h, inline, leaf, bb))
    ensures w.cancel(Log(w, h, leaf, LeafResult(w, h, inline, leaf, bb)))
  {
    assert LeafResult(w, h, inline, leaf, bb) == Failed(map[]);
  }

  // c is the cancel flag of the enclosing Parallels, ran the leaves run so far.
  function Eval(w: World, c: bool, inline: bool, node: Node, h: History, ran: nat, bb: Facts): Outcome
    decreases node, 2, 0
  {
    if c || w.cancel(h) then Outcome(Failed(map[]), h, ran)
    else if node.IsLeaf() then
      var r := LeafResult(w, h, inline, node, bb);
      Outcome(r, Log(w, h, node, r), ran + 1)
    else if node.IsStepwise() then
      if node.Slots() == 0 then Outcome(EmptyResult(node, bb), h, ran)
      else EvalFrame(w, c, inline && !node.Retry?, node, 0, h, ran, bb)
    else if node.Parallel? then
      if node.children == [] then Outcome(Failed(map[]), h, ran)
      else EvalFork(w, c, node, [], false, h, ran, bb)
    else if MalformedTimeout(node) then Outcome(Failed(map[]), h, ran)
    else if w.expires(h, node.timeoutSec) then Outcome(Blocked(false, bb), h, ran)
    else Eval(w, c, false, node.child, h, ran, bb)
  }

  function EvalFrame(w: World, c: bool, inline: bool, node: Node, k: nat, h: History, ran: nat, facts: Facts): Outcome
    requires node.IsStepwise() && k < node.Slots()
    decreases node, 1, node.Slots() - k
  {
    var o := Eval(w, c, inline, node.Slot(k), h, ran, facts);
    var merged := facts + o.res.facts;
    match After(node, k, o.res, c || w.cancel(o.hist))
    case Continue => EvalFrame(w, c, inline, node, k + 1, o.hist, o.ran, merged)
    case Stop(success, blocked, needsDecision) =>
      Outcome(ExecutionResult(success, blocked, needsDecision, merged), o.hist, o.ran)
  }

  // rs are the results of the branches run so far, failed the flag they share.
  function EvalFork(
      w: World, c: bool, node: Node, rs: seq<ExecutionResult>, failed: bool, h: History, ran: nat, bb: Facts): Outcome
    requires node.Parallel? && |rs| <= |node.children|
    decreases node, 1, |node.children| - |rs|
  {
    if |rs| == |node.children| then Outcome(Merge(bb, rs), h, ran)
    else
      var o := Eval(w, c || failed, false, node.children[|rs|], h, ran, bb);
      EvalFork(w, c, node, rs + [o.res], failed || (node.cancelOnFailure && !o.res.success), o.hist, o.ran, bb)
  }

  // Results are coherent.
  lemma {:induction false} EvalCoherent(w: World, c: bool, inline: bool, node: Node, h: History, ran: nat, bb: Facts)
    ensures Coherent(Eval(w, c, inline, node, h, ran, bb).res)
    decreases node, 2, 0
  {
    if !(c || w.cancel(h)) {
      if node.IsLeaf() {
        LeafResultIsOutcome(w, h, inline, node, bb);
        LeafOutcomeCoherent(node, bb, LeafResult(w, h, inline, node, bb));
      } else if node.IsStepwise() {
        if node.Slots() > 0 {
          FrameCoherent(w, c, inline && !node.Retry?, node, 0, h, ran, bb);
        }
      } else if node.Parallel? {
        ForkCoherent(w, c, node, [], false, h, ran, bb);
      } else {
        EvalCoherent(w, c, false, node.child, h, ran, bb);
      }
    }
  }

  lemma {:induction false} FrameCoherent(w: World, c: bool, inline: bool, node: Node, k: nat, h: History, ran: nat, bb: Facts)
    requires node.IsStepwise() && k < node.Slots()
    ensures Coherent(EvalFrame(w, c, inline, node, k, h, ran, bb).res)
    decreases node, 1, node.Slots() - k
  {
    EvalCoherent(w, c, inline, node.Slot(k), h, ran, bb);
    var o := Eval(w, c, inline, node.Slot(k), h, ran, bb);
    if After(node, k, o.res, c || w.cancel(o.hist)) == Continue {
      FrameCoherent(w, c, inline, node, k + 1, o.hist, o.ran, bb + o.res.facts);
    }
  }

  lemma {:induction false} ForkCoherent(
      w: World, c: bool, node: Node, rs: seq<ExecutionResult>, failed: bool, h: History, ran: nat, bb: Facts)
    requires node.Parallel? && |rs| <= |node.children| && forall i :: 0 <= i < |rs| ==> Coherent(rs[i])
    ensures Coherent(EvalFork(w, c, node, rs, failed, h, ran, bb).res)
    decreases node, 1, |node.children| - |rs|
  {
    if |rs| == |node.children| {
      MergeFlags(bb, rs);
    } else {
      EvalCoherent(w, c || failed, false, node.children[|rs|], h, ran, bb);
      var o := Eval(w, c || failed, false, node.children[|rs|], h, ran, bb);
      ForkCoherent(w, c, node, rs + [o.res], failed || (node.cancelOnFailure && !o.res.success), o.hist, o.ran, bb);
    }
  }

  // One step of a Sequence.
  lemma SequenceStep(w: World, c: bool, inline: bool, node: Node, k: nat, h: History, ran: nat, facts: Facts)
    requires node.Sequence? && k < |node.children|
    ensures
      var o := Eval(w, c, inline, node.children[k], h, ran, facts);
      var merged := facts + o.res.facts;
      EvalFrame(w, c, inline, node, k, h, ran, facts) ==
        if !o.res.success then
          Outcome(ExecutionResult(false, o.res.blocked, o.res.needsDecision, merged), o.hist, o.ran)
        else if k + 1 == |node.children| then Outcome(Succeeded(merged), o.hist, o.ran)
        else EvalFrame(w, c, inline, node, k + 1, o.hist, o.ran, merged)
  {
  }

  // Where inline resolution is off, the resolver makes no difference.
  lemma {:induction false} ResolverUnused(
      w: World, w': World, c: bool, node: Node, h: History, ran: nat, bb: Facts)
    requires w' == w.(resolve := w'.resolve)
    ensures Eval(w', c, false, node, h, ran, bb) == Eval(w, c, false, node, h, ran, bb)
    decreases node, 2, 0
  {
    if !(c || w.cancel(h)) {
      if node.IsStepwise() {
        if node.Slots() > 0 {
          ResolverUnusedInFrame(w, w', c, node, 0, h, ran, bb);
        }
      } else if node.Parallel? {
        ResolverUnusedInFork(w, w', c, node, [], false, h, ran, bb);
      } else if node.Timeout? {
        ResolverUnused(w, w', c, node.child, h, ran, bb);
      }
    }
  }

  lemma {:induction false} ResolverUnusedInFrame(
      w: World, w': World, c: bool, node: Node, k: nat, h: History, ran: nat, facts: Facts)
    requires node.IsStepwise() && k < node.Slots() && w' == w.(resolve := w'.resolve)
    ensures EvalFrame(w', c, false, node, k, h, ran, facts) == EvalFrame(w, c, false, node, k, h, ran, facts)
    decreases node, 1, node.Slots() - k
  {
    ResolverUnused(w, w', c, node.Slot(k), h, ran, facts);
    var o := Eval(w, c, false, node.Slot(k), h, ran, facts);
    if After(node, k, o.res, c || w.cancel(o.hist)) == Continue {
      ResolverUnusedInFrame(w, w', c, node, k + 1, o.hist, o.ran, facts + o.res.facts);
    }
  }

  lemma {:induction false} ResolverUnusedInFork(
      w: World, w': World, c: bool, node: Node, rs: seq<ExecutionResult>, failed: bool, h: History, ran: nat, bb: Facts)
    requires node.Parallel? && |rs| <= |node.children| && w' == w.(resolve := w'.resolve)
    ensures EvalFork(w', c, node, rs, failed, h, ran, bb) == EvalFork(w, c, node, rs, failed, h, ran, bb)
    decreases node, 1, |node.children| - |rs|
  {
    if |rs| < |node.children| {
      var o := Eval(w, c || failed, false, node.children[|rs|], h, ran, bb);
      ResolverUnused(w, w', c || failed, node.children[|rs|], h, ran, bb);
      ResolverUnusedInFork(
        w, w', c, node, rs + [o.res], failed || (node.cancelOnFailure && !o.res.success), o.hist, o.ran, bb);
    }
  }

  // The decision resolver is never consulted inside a Retry, a Parallel or a
  // Timeout, whatever position the node itself is in.
  lemma ResolverOnlyInline(w: World, w': World, c: bool, inline: bool, node: Node, h: History, ran: nat, bb: Facts)
    requires w' == w.(resolve := w'.resolve)
    requires node.Retry? || node.Parallel? || node.Timeout?
    ensures Eval(w', c, inline, node, h, ran, bb) == Eval(w, c, inline, node, h, ran, bb)
  {
    ResolverUnused(w, w', c, node, h, ran, bb);
  }

  // ---- The executor itself.

  // _LinkedCancelEvent: set by itself or through the flag it is linked to.
  class LinkedCancel {
    var local: bool
    const parent: LinkedCancel?
    ghost const chain: set<LinkedCancel>

    constructor (parent: LinkedCancel?)
      requires parent == null || parent.Linked()
      ensures Linked() && this.parent == parent && !local
      ensures fresh(chain - if parent == null then {} else parent.chain)
    {
      local := false;
      this.parent := parent;
      chain := {this} + if parent == null then {} else parent.chain;
    }

    ghost predicate Linked()
      decreases chain
    {
      && this in chain
      && (parent != null ==>
            parent.chain < chain && this !in parent.chain && chain == {this} + parent.chain && parent.Linked())
    }

    predicate IsSet()
      requires Linked()
      reads chain
      decreases chain
    {
      local || (parent != null && parent.IsSet())
    }

    method Set()
      requires Linked()
      modifies this`local
      ensures local && IsSet()
    {
      local := true;
    }
  }

  predicate IsSetOrNone(flag: LinkedCancel?)
    requires flag == null || flag.Linked()
    reads if flag == null then {} else flag.chain
  {
    flag != null && flag.IsSet()
  }

  class BtExecutor {
    const world: World
    var history: History
    var completed: nat       // leaves run to their end, for the progress fraction

    constructor (world: World)
      ensures this.world == world && history == [] && completed == 0
    {
      this.world, history, completed := world, [], 0;
    }

    ghost predicate Follows(o: Outcome, r: ExecutionResult)
      reads this
    {
      o == Outcome(r, history, completed)
    }

    // execute_json on a decoded tree.
    method Run(root: Node) returns (r: ExecutionResult)
      requires history == [] && completed == 0
      modifies this
      ensures Follows(Eval(world, false, true, root, [], 0, map[]), r)
    {
      r := Execute(root, null, map[], true);
    }

    method Execute(node: Node, flag: LinkedCancel?, blackboard: Facts, inline: bool) returns (r: ExecutionResult)
      requires flag == null || flag.Linked()
      modifies this
      ensures Follows(Eval(world, IsSetOrNone(flag), inline, node, old(history), old(completed), blackboard), r)
      decreases node, 2
    {
      if IsSetOrNone(flag) || world.cancel(history) {
        return Failed(map[]);
      }
      match node {
        case Sequence(_, _) => r := ExecuteSequence(node, flag, blackboard, inline);
        case Fallback(_, _) => r := ExecuteFallback(node, flag, blackboard, inline);
        case Retry(_, _, _) => r := ExecuteRetry(node, flag, blackboard);
        case Parallel(_, _, _) => r := ExecuteParallel(node, flag, blackboard);
        case Timeout(_, _, _) => r := ExecuteTimeout(node, flag, blackboard);
        case _ => r := ExecuteProgressLeaf(node, blackboard, inline);
      }
    }

    method ExecuteProgressLeaf(node: Node, blackboard: Facts, inline: bool) returns (r: ExecutionResult)
      requires node.IsLeaf()
      modifies this
      ensures r == LeafResult(world, old(history), inline, node, blackboard)
      ensures history == Log(world, old(history), node, r) && completed == old(completed) + 1
      decreases node, 0
    {
      r := LeafResult(world, history, inline, node, blackboard);
      history := Log(world, history, node, r);
      completed := completed + 1;
    }

    method ExecuteSequence(node: Node, flag: LinkedCancel?, blackboard: Facts, inline: bool) returns (r: ExecutionResult)
      requires node.Sequence? && (flag == null || flag.Linked())
      requires !IsSetOrNone(flag) && !world.cancel(history)
      modifies this
      ensures Follows(Eval(world, IsSetOrNone(flag), inline, node, old(history), old(completed), blackboard), r)
      decreases node, 1
    {
      var facts := blackboard;
      ghost var spec := Eval(world, IsSetOrNone(flag), inline, node, history, completed, facts);
      for k := 0 to |node.children|
        invariant k < |node.children| ==>
          spec == EvalFrame(world, IsSetOrNone(flag), inline, node, k, history, completed, facts)
        invariant k == |node.children| ==> spec == Outcome(Succeeded(facts), history, completed)
      {
        var result := Execute(node.children[k], flag, facts, inline);
        facts := facts + result.facts;
        if !result.success {
          return ExecutionResult(false, result.blocked, result.needsDecision, facts);
        }
      }
      return Succeeded(facts);
    }

    method ExecuteFallback(node: Node, flag: LinkedCancel?, blackboard: Facts, inline: bool) returns (r: ExecutionResult)
      requires node.Fallback? && (flag == null || flag.Linked())
      requires !IsSetOrNone(flag) && !world.cancel(history)
      modifies this
      ensures Follows(Eval(world, IsSetOrNone(flag), inline, node, old(history), old(completed), blackboard), r)
      decreases node, 1
    {
      var facts := blackboard;
      ghost var spec := Eval(world, IsSetOrNone(flag), inline, node, history, completed, facts);
      for k := 0 to |node.children|
        invariant k < |node.children| ==>
          spec == EvalFrame(world, IsSetOrNone(flag), inline, node, k, history, completed, facts)
        invariant k == |node.children| ==> spec == Outcome(Failed(facts), history, completed)
      {
        var last := Execute(node.children[k], flag, facts, inline);
        facts := facts + last.facts;
        if last.blocked {
          return Blocked(last.needsDecision, facts);
        }
        if last.success {
          return Succeeded(facts);
        }
      }
      return Failed(facts);
    }

    method ExecuteRetry(node: Node, flag: LinkedCancel?, blackboard: Facts) returns (r: ExecutionResult)
      requires node.Retry? && (flag == null || flag.Linked())
      requires !IsSetOrNone(flag) && !world.cancel(history)
      modifies this
      ensures Follows(Eval(world, IsSetOrNone(flag), false, node, old(history), old(completed), blackboard), r)
      decreases node, 1
    {
      var n := node.maxAttempts;
      if n < 1 || n > 5 {
        return Failed(map[]);
      }
      var facts := blackboard;
      ghost var spec := Eval(world, IsSetOrNone(flag), false, node, history, completed, facts);
      for attempt := 0 to n
        invariant attempt < n && (attempt == 0 || !(IsSetOrNone(flag) || world.cancel(history))) ==>
          spec == EvalFrame(world, IsSetOrNone(flag), false, node, attempt, history, completed, facts)
        invariant attempt == n || (attempt > 0 && (IsSetOrNone(flag) || world.cancel(history))) ==>
          spec == Outcome(Failed(facts), history, completed)
        invariant attempt == 0 ==> history == old(history)
      {
        if IsSetOrNone(flag) || world.cancel(history) {
          return Failed(facts);
        }
        var last := Execute(node.child, flag, facts, false);
        facts := facts + last.facts;
        if last.blocked {
          return Blocked(last.needsDecision, facts);
        }
        if last.success {
          return Succeeded(facts);
        }
      }
      return Failed(facts);
    }

    method ExecuteParallel(node: Node, flag: LinkedCancel?, blackboard: Facts) returns (r: ExecutionResult)
      requires node.Parallel? && (flag == null || flag.Linked())
      requires !IsSetOrNone(flag) && !world.cancel(history)
      modifies this
      ensures Follows(Eval(world, IsSetOrNone(flag), false, node, old(history), old(completed), blackboard), r)
      decreases node, 1
    {
      var n := |node.children|;
      if n == 0 {
        return Failed(map[]);
      }
      var childCancel := new LinkedCancel(flag);
      var results := new Option<ExecutionResult>[n](_ => None);
      ghost var c := IsSetOrNone(flag);
      ghost var spec := Eval(world, c, false, node, history, completed, blackboard);
      ghost var rs: seq<ExecutionResult> := [];
      for i := 0 to n
        invariant |rs| == i && childCancel.Linked()
        invariant forall k :: 0 <= k < i ==> results[k] == Some(rs[k])
        invariant childCancel.IsSet() == (c || childCancel.local)
        invariant spec == EvalFork(world, c, node, rs, childCancel.local, history, completed, blackboard)
      {
        ghost var o := Eval(world, childCancel.IsSet(), false, node.children[i], history, completed, blackboard);
        RunBranch(node, i, childCancel, blackboard, results);
        rs := rs + [o.res];
      }
      r := JoinBranches(results, blackboard, rs);
    }

    // The thread of one branch: its result goes to its slot, and a failure may
    // set the flag that the branches share.
    method RunBranch(
        node: Node, idx: nat, childCancel: LinkedCancel, blackboard: Facts, results: array<Option<ExecutionResult>>)
      requires node.Parallel? && idx < |node.children| == results.Length && childCancel.Linked()
      modifies this, childCancel, results
      ensures
        var o := Eval(world, old(childCancel.IsSet()), false, node.children[idx], old(history), old(completed), blackboard);
        && Follows(o, o.res)
        && results[..] == old(results[..])[idx := Some(o.res)]
        && childCancel.local == (old(childCancel.local) || (node.cancelOnFailure && !o.res.success))
      decreases node, 0
    {
      var result := Execute(node.children[idx], childCancel, blackboard, false);
      results[idx] := Some(result);
      if node.cancelOnFailure && !result.success {
        childCancel.Set();
      }
    }

    // After the join: facts in branch order, failures and their flags.
    method JoinBranches(results: array<Option<ExecutionResult>>, blackboard: Facts, ghost rs: seq<ExecutionResult>)
      returns (r: ExecutionResult)
      requires |rs| == results.Length && forall k :: 0 <= k < |rs| ==> results[k] == Some(rs[k])
      ensures r == Merge(blackboard, rs)
    {
      var facts, failures, blocked, needsDecision := blackboard, 0, false, false;
      for i := 0 to results.Length
        invariant failures == 0 ==> !blocked && !needsDecision
        invariant Merge(blackboard, rs[..i]) == ExecutionResult(failures == 0, blocked, needsDecision, facts)
      {
        assert rs[..i + 1][..i] == rs[..i];
        if results[i] == None {
          failures, blocked := failures + 1, true;
        } else {
          var result := results[i].value;
          facts := facts + result.facts;
          if !result.success {
            failures := failures + 1;
            blocked := blocked || result.blocked;
            needsDecision := needsDecision || result.needsDecision;
          }
        }
      }
      assert rs[..|rs|] == rs;
      r := if failures > 0 then ExecutionResult(false, blocked, needsDecision, facts) else Succeeded(facts);
    }

    method ExecuteTimeout(node: Node, flag: LinkedCancel?, blackboard: Facts) returns (r: ExecutionResult)
      requires node.Timeout? && (flag == null || flag.Linked())
      requires !IsSetOrNone(flag) && !world.cancel(history)
      modifies this
      ensures Follows(Eval(world, IsSetOrNone(flag), false, node, old(history), old(completed), blackboard), r)
      decreases node, 1
    {
      if node.timeoutSec <= 0.0 || node.timeoutSec > 600.0 {
        return Failed(map[]);
      }
      var childCancel := new LinkedCancel(flag);
      if world.expires(history, node.timeoutSec) {
        childCancel.Set();
        return Blocked(false, blackboard);
      }
      r := Execute(node.child, childCancel, blackboard, false);
    }
  }
}
