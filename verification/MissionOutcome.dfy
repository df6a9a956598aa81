// From the plan to the mission's end: what the runner makes of a successful
// execution whose goal was compiled from an observation.
module MissionOutcome {
  import opened Common
  import opened SkillRegistry
  import opened BehaviourTree
  import opened Interleaving
  import opened ResourceExclusion
  import opened ResultFlags
  import opened Goals
  import opened GoalCompiler
  import opened GoalCheck
  import opened GoalClosure
  import opened NodeProtocol
  import opened RunEnds

  // Some leaf of the run was blocked, or asked for a decision.
  predicate Halted(ms: seq<Move>) {
    exists i :: 0 <= i < |ms| && ms[i].act.Finish? && ms[i].act.res.blocked
  }

  predicate Asked(ms: seq<Move>) {
    exists i :: 0 <= i < |ms| && ms[i].act.Finish? && ms[i].act.res.needsDecision
  }

  // What a mission's end says about the run behind it, while no Timeout fires. It
  // escalates exactly when a leaf of the run asked for a decision, or nothing was
  // blocked and neither the final check nor the decision asked for in its place
  // could be answered; it is a dead end exactly when a leaf was blocked and none
  // asked. It is achieved exactly when nothing was blocked, the execution succeeded
  // and the check, or the decision in its place, is TRUE, and then a Fallback-free
  // mission ran every leaf to success; it is not achieved exactly when nothing was
  // blocked and the execution failed, or the check or that decision is FALSE.
  lemma OutcomeTracesBack(
      w: Witness, goal: GoalSpec, root: Node, ps: seq<Proc>, ms: seq<Move>, resolved: TriState, text: string)
    requires IsExecution(root, ps, ms) && ps[|ms|].Done? && NoTimeoutFires(ms)
    ensures
      var check := CheckGoal(w, goal, ps[|ms|].res);
      var out := OutcomeOf(ps[|ms|].res, check, resolved, text);
      && (out.Escalate? <==> Asked(ms) || (!Halted(ms) && ps[|ms|].res.success && Undecided(check, resolved)))
      && (out.DeadEnd? <==> Halted(ms) && !Asked(ms))
      && (out.Achieved? <==> !Halted(ms) && ps[|ms|].res.success && Affirmed(check, resolved))
      && (out.NotAchieved? <==> !Halted(ms) && (!ps[|ms|].res.success || Denied(check, resolved)))
      && (out.Achieved? && FallbackFree(root) ==> forall x :: IsLeafAt(root, x) ==> LastOk(ms, x))
  {
    FlagsTraceBack(root, ps, ms);
    OutcomeReads(ps[|ms|].res, CheckGoal(w, goal, ps[|ms|].res), resolved, text);
    if FallbackFree(root) && ps[|ms|].res.success {
      EveryLeafSucceeded(root, ps, ms);
    }
  }

  lemma FlagsTraceBack(root: Node, ps: seq<Proc>, ms: seq<Move>)
    requires IsExecution(root, ps, ms) && ps[|ms|].Done? && NoTimeoutFires(ms)
    ensures Coherent(ps[|ms|].res)
    ensures ps[|ms|].res.blocked <==> Halted(ms)
    ensures ps[|ms|].res.needsDecision <==> Asked(ms)
  {
    RunKeepsFit(false, root, [], ps, ms);
    RootFlagsAreLeafFlags(root, ps, ms);
  }

  lemma EveryLeafSucceeded(root: Node, ps: seq<Proc>, ms: seq<Move>)
    requires FallbackFree(root) && IsExecution(root, ps, ms) && ps[|ms|].Done? && ps[|ms|].res.success
    ensures forall x :: IsLeafAt(root, x) ==> LastOk(ms, x)
  {
    forall x | IsLeafAt(root, x)
      ensures LastOk(ms, x)
    {
      SuccessVisitsEveryLeaf(root, ps, ms, x);
    }
  }

  // An observation mission: a Fallback-free plan whose goal was compiled from an
  // observe-mode VisualCheck. If its execution succeeds, the mission is a success
  // whichever way the observation went, with no decision asked for, and its
  // outcome reports an answer of this very run.
  lemma ObservationMissionSucceeds(
      reg: Registry, w: Witness, root: Node, nodeId: string, ps: seq<Proc>, ms: seq<Move>, x: Path,
      resolved: TriState, text: string)
    requires FallbackFree(root) && IsExecution(root, ps, ms) && SkillsKeepOff(ms)
    requires ps[|ms|].Done? && ps[|ms|].res.success
    requires nodeId != "" && FindByNodeId(root, nodeId).Some? && IsObserver(FindByNodeId(root, nodeId).value)
    requires CompiledGoal(reg, root, Present(Some(nodeId))) != UNRESOLVED
    requires NodeAt(root, x) == FindByNodeId(root, nodeId)
    ensures
      var goal := CompiledGoal(reg, root, Present(Some(nodeId)));
      OutcomeOf(ps[|ms|].res, CheckGoal(w, goal, ps[|ms|].res), resolved, text) == Achieved(text)
    ensures VISUAL_RESULT in BoundedResultFacts(ps[|ms|].res.facts)
    ensures Answered(ms, BoundedResultFacts(ps[|ms|].res.facts)[VISUAL_RESULT])
  {
    RunKeepsFit(false, root, [], ps, ms);
    ObservedGoalIsMet(reg, w, root, nodeId, ps, ms, x);
  }
}
