// How a runner's end is recorded: from the result of the execution, the final
// check and the decision in its place to the record of the mission.
module RunEnds {
  import opened Common
  import opened Goals
  import opened Missions
  import opened MissionRecords
  import opened MissionHistory
  import opened SingleSlot
  import opened NodeProtocol
  import opened NodeSafety
  import BT = BehaviourTree

  lemma OutcomeReads(r: BT.ExecutionResult, check: TriState, resolved: TriState, text: string)
    requires BT.Coherent(r)
    ensures
      var out := OutcomeOf(r, check, resolved, text);
      && (out.Escalate? <==> r.needsDecision || (r.success && Undecided(check, resolved)))
      && (out.DeadEnd? <==> r.blocked && !r.needsDecision)
      && (out.Achieved? <==> r.success && Affirmed(check, resolved))
      && (out.NotAchieved? <==> !r.blocked && (!r.success || Denied(check, resolved)))
      && out.message == if out.Escalate? then "awaiting Omega decision: " + text else text
  {
  }

  // How the runner's end is recorded. A runner whose identity no longer counts
  // changes no mission. The mission of any other SUCCEEDED exactly when its
  // execution did and its goal was affirmed, and FAILED exactly when nothing was
  // blocked and the execution failed or the goal was denied. If a decision is
  // asked for it is PAUSED, unless it was just resumed from the very same question:
  // then, and when the execution was blocked without a question, it is BLOCKED.
  lemma RunnerEndRecorded(
      n: NodeState, runner: Identity, r: BT.ExecutionResult, check: TriState, resolved: TriState, text: string)
    requires BT.Coherent(r)
    ensures
      var before := n.ledger.sched;
      var after := Next(n, RunnerEnd(runner, OutcomeOf(r, check, resolved, text))).ledger.sched.missions;
      if !Accepts(before, runner) then after == before.missions
      else
        var id, question := runner.missionId, "awaiting Omega decision: " + text;
        var asks := r.needsDecision || (r.success && Undecided(check, resolved));
        var again := id in before.resumedFrom && before.resumedFrom[id] == question;
        && id in after
        && (after[id].state == Succeeded <==> r.success && Affirmed(check, resolved))
        && (after[id].state == Failed <==> !r.blocked && (!r.success || Denied(check, resolved)))
        && (after[id].state == Paused <==> asks && !again)
        && (after[id].state == Blocked <==> (asks && again) || (r.blocked && !r.needsDecision))
        && after[id].identity == before.missions[id].identity && after[id].bt == before.missions[id].bt
        && after[id].progress == (if after[id].state == Succeeded then 1.0 else before.missions[id].progress)
        && (after[id].statusText == if asks && !again then question else if asks then REPAUSED + question else text)
  {
    if Accepts(n.ledger.sched, runner) {
      OutcomeReads(r, check, resolved, text);
      EndRecorded(n.ledger.sched, runner, OutcomeOf(r, check, resolved, text));
      EndChangesScheduler(n, runner, OutcomeOf(r, check, resolved, text));
    }
  }

  // The step's threads do not matter to the records.
  lemma EndChangesScheduler(n: NodeState, runner: Identity, outcome: RunOutcome)
    requires Accepts(n.ledger.sched, runner)
    ensures Next(n, RunnerEnd(runner, outcome)).ledger.sched == Apply(n.ledger.sched, EndOf(runner, outcome))
  {
  }

  lemma EndRecorded(s: Scheduler, runner: Identity, outcome: RunOutcome)
    requires Accepts(s, runner)
    ensures
      var id, m := runner.missionId, s.missions[runner.missionId];
      var after := Apply(s, EndOf(runner, outcome)).missions;
      && id in after
      && match outcome
         case Achieved(message) => after[id] == m.(state := Succeeded, statusText := message, progress := 1.0)
         case NotAchieved(message) => after[id] == m.(state := Failed, statusText := message)
         case DeadEnd(message) => after[id] == m.(state := Blocked, statusText := message)
         case Escalate(message) =>
           if id in s.resumedFrom && s.resumedFrom[id] == message
           then after[id] == m.(state := Blocked, statusText := REPAUSED + message)
           else after[id] == m.(state := Paused, statusText := Or(message, "paused"))
  {
    var id := runner.missionId;
    assert Live(s, Named(id)) == Ok(id);
    match outcome
    case Escalate(message) => PauseRecorded(s, id, message);
    case Achieved(message) => EndedRecorded(s, id, Succeeded, message);
    case NotAchieved(message) => EndedRecorded(s, id, Failed, message);
    case DeadEnd(message) => EndedRecorded(s, id, Blocked, message);
  }

  // ---- The other steps that come from threads and triggers.

  // The mission still has this very identity and has not ended.
  predicate Stands(s: Scheduler, i: Identity) {
    && i.missionId in s.missions && s.missions[i.missionId].identity == i
    && s.missions[i.missionId].state !in {Succeeded, Failed, Canceled, Blocked}
  }

  predicate LiveActive(s: Scheduler) {
    && s.active.Some? && s.active.value in s.missions
    && s.missions[s.active.value].state !in {Succeeded, Failed, Canceled, Blocked}
  }

  predicate Carries(after: Scheduler, id: Id, m: Mission) {
    id in after.missions && after.missions[id] == m
  }

  // What a thread's end or a trigger makes of the mission it is about. A result
  // under an identity that no longer stands changes nothing at all; a trigger only
  // touches the mission it means.
  ghost predicate ActRecorded(before: Scheduler, after: Scheduler, act: Act) {
    match act
    case PlanOk(job, bt, goalSpec, token) =>
      if Stands(before, job) then
        var m := before.missions[job.missionId];
        && after.active == Some(job.missionId)
        && Carries(after, job.missionId,
                    m.(identity := PlannedIdentity(m, token), state := Running, statusText := "running", bt := bt, goalSpec := goalSpec))
      else after == before
    case PlanFail(job, message) =>
      if Stands(before, job)
      then Carries(after, job.missionId, before.missions[job.missionId].(state := Failed, statusText := message))
      else after == before
    case ProgressAct(runner, activeNode, progress) =>
      if Stands(before, runner) then
        var m := before.missions[runner.missionId];
        && after.active == before.active
        && Carries(after, runner.missionId,
                    m.(activeNode := if activeNode == "" then m.activeNode else activeNode, statusText := "running",
                       progress := UnitClamp(progress)))
      else after == before
    case TriggerBlock(message) =>
      if LiveActive(before) then
        Carries(after, before.active.value,
                 before.missions[before.active.value].(state := Blocked, statusText := message))
      else after == before
    case TriggerReplan(message, wantId, wantVersion) =>
      if && LiveActive(before) && (wantId == None || wantId == before.active)
         && (wantVersion == None || wantVersion == Some(before.missions[before.active.value].identity.planVersion)) then
        var m := before.missions[before.active.value];
        && after.active == before.active
        && Carries(after, before.active.value,
                    m.(identity := m.identity.(planVersion := m.identity.planVersion + 1, executionId := None),
                       state := Planning, activeNode := "", statusText := if message == "" then "replanning" else message,
                       bt := "", goalSpec := ""))
      else after == before
    case TriggerSubmit(req, token) =>
      after == if LiveActive(before) then before else Apply(before, SubmitOp(req, token))
    case SubmitAct(req, token) => after == Apply(before, SubmitOp(req, token))
    case CancelAct(target, reason) => after == Apply(before, CancelOp(target, reason))
    case PauseAct(target, reason) => after == Apply(before, PauseOp(target, reason))
    case ResumeAct(target, reason, token) => after == Apply(before, ResumeOp(target, reason, token))
    case ReprioritizeAct(target, priority, preempt, reason) =>
      after == Apply(before, ReprioritizeOp(target, priority, preempt, if reason == "" then "reprioritized" else reason))
    case RunnerEnd(runner, outcome) => after == if Accepts(before, runner) then Apply(before, EndOf(runner, outcome)) else before
  }

  lemma StepRecorded(n: NodeState, act: Act)
    requires SlotInv(n.ledger.sched)
    ensures ActRecorded(n.ledger.sched, Next(n, act).ledger.sched, act)
  {
    var s := n.ledger.sched;
    NextIs(n, act);
    match act
    case PlanFail(job, message) => LatePlanFailure(s, job, message);
    case PlanOk(job, bt, goalSpec, token) => LatePlan(s, job, bt, goalSpec, token);
    case ProgressAct(runner, activeNode, progress) => LateReport(s, runner, activeNode, progress);
    case TriggerBlock(message) => Blocking(s, message);
    case TriggerReplan(message, wantId, wantVersion) => Replanning(s, message, wantId, wantVersion);
    case _ =>
  }

  lemma LatePlan(s: Scheduler, job: Identity, bt: string, goalSpec: string, token: Id)
    ensures ActRecorded(s, Apply(s, SetPlanOp(job.missionId, bt, goalSpec, Some(job), token)), PlanOk(job, bt, goalSpec, token))
  {
  }

  lemma LatePlanFailure(s: Scheduler, job: Identity, message: string)
    ensures ActRecorded(s, Apply(s, EndOp(job.missionId, Failed, message, Some(job))), PlanFail(job, message))
  {
    if Stands(s, job) {
      EndedRecorded(s, job.missionId, Failed, message);
    }
  }

  lemma LateReport(s: Scheduler, runner: Identity, activeNode: string, progress: real)
    ensures ActRecorded(s, Apply(s, StatusOp(runner.missionId, activeNode, "running", Some(progress), Some(runner))),
                        ProgressAct(runner, activeNode, progress))
  {
  }

  lemma Blocking(s: Scheduler, message: string)
    ensures ActRecorded(s, if s.active.Some? then Apply(s, EndOp(s.active.value, Blocked, message, None)) else s,
                        TriggerBlock(message))
  {
    if LiveActive(s) {
      EndedRecorded(s, s.active.value, Blocked, message);
    }
  }

  lemma Replanning(s: Scheduler, message: string, wantId: Option<Id>, wantVersion: Option<int>)
    requires SlotInv(s)
    ensures
      var act := TriggerReplan(message, wantId, wantVersion);
      ActRecorded(s, if Reaches(s, act) then Apply(s, ReplanOp(Current, message)) else s, act)
  {
  }

  // The runner that ended is gone, with its cancel event.
  lemma RunnerIsForgotten(n: NodeState, runner: Identity, outcome: RunOutcome)
    requires runner.executionId.Some?
    ensures
      var n' := Next(n, RunnerEnd(runner, outcome));
      && runner !in n'.runners && runner.executionId.value !in n'.cancelEvents
      && (runner.missionId in n'.cancelKeys ==> n'.cancelKeys[runner.missionId] != runner.executionId.value)
  {
  }
}
