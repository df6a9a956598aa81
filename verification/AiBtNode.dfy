// AiBtNode: the handlers, triggers and thread ends of the node as methods that
// update the manager, the cancel events and the journal. Each method takes
// exactly the protocol step of the same name and keeps the node safe: every
// mission is served, and the journal knows all of them.
module AiBtNode {
  import opened Common
  import opened Missions
  import opened MissionHistory
  import opened SingleSlot
  import opened NodeProtocol
  import opened NodeSafety
  import opened NodeService
  import opened Recovery
  import opened MissionManager

  // The manager has done its operation and nothing else has happened yet.
  ghost function Operated(n: NodeState, op: Op): NodeState {
    n.(ledger := Ledger(Apply(n.ledger.sched, op), n.ledger.used))
  }

  class MissionNode {
    const manager: Manager
    const log: MissionJournal
    var jobs: multiset<Identity>
    var runners: set<Identity>
    var cancelEvents: map<Id, bool>
    var cancelKeys: map<Id, Id>
    ghost var used: set<Id>

    constructor (records: seq<Mission>, ghost used: set<Id>)
      requires Covers(used, records)
      ensures Now() == Boot(records, used)
      ensures Valid() && fresh(manager) && fresh(log)
    {
      BootedIsSafe(records, used);
      var journal := new MissionJournal(records);
      var ms := journal.LoadLatestMissions(true);
      manager := new Manager(ms);
      log := journal;
      jobs, runners, cancelEvents, cancelKeys := multiset{}, {}, map[], map[];
      this.used := used;
    }

    ghost function Now(): NodeState
      reads this, manager, log
    {
      NodeState(Ledger(manager.Now(), used), jobs, runners, cancelEvents, cancelKeys, log.records)
    }

    ghost predicate Valid()
      reads this, manager, log
    {
      Safe(Now())
    }

    // The missions of the node are served.
    lemma MissionIsServed(id: Id)
      requires Valid() && id in manager.missions
      ensures
        var m := manager.missions[id];
        && (m.state == Running ==> m.identity in runners)
        && (m.state == Planning ==> (m.identity in jobs <==> m.bt == ""))
        && (m.state == Planning || m.state == Running ==> manager.active == Some(id))
        && id in Recovered(log.records)
        && (Terminal(m.state) ==> Recovered(log.records)[id] == m)
    {
      SafeMissionIsServed(Now(), id);
    }

    // _publish_event, as far as the journal goes.
    method Publish(event: Event, ghost n: NodeState, ghost op: Op)
      requires Now() == Operated(n, op) && EventOf(n.ledger.sched, op) == Some(event)
      modifies this`used, log
      ensures Now() == Ran(n, op)
    {
      used := used + Tokens(op);
      log.Append(event.mission);
    }

    // A refused operation may still have drawn its token.
    ghost method Refuse(n: NodeState, op: Op)
      requires Now() == Operated(n, op) && Try(n.ledger.sched, op).Refused?
      modifies this`used
      ensures Now() == Ran(n, op)
    {
      used := used + Tokens(op);
    }

    method PlanAndStartAsync(mission: Mission)
      modifies this`jobs
      ensures Now() == PlanAsync(old(Now()), mission.identity)
    {
      jobs := jobs + multiset{mission.identity};
    }

    method LaunchRunner(mission: Mission)
      modifies this`runners, this`cancelEvents, this`cancelKeys
      ensures Now() == StartRunner(old(Now()), mission.identity)
    {
      if mission.identity.executionId.Some? {
        var key := mission.identity.executionId.value;
        cancelEvents := cancelEvents[key := false];
        cancelKeys := cancelKeys[mission.identity.missionId := key];
        runners := runners + {mission.identity};
      }
    }

    method SetCancelEvent(id: Id)
      modifies this`cancelEvents
      ensures Now() == SetCancel(old(Now()), id)
    {
      if id in cancelKeys && cancelKeys[id] in cancelEvents {
        cancelEvents := cancelEvents[cancelKeys[id] := true];
      }
    }

    // _start_next_ready: the first mission found in PLANNING without a tree.
    method StartNext()
      requires manager.Valid()
      modifies this`jobs
      ensures Now() == StartNextReady(old(Now()))
    {
      var s := manager.missions;
      var rest := s.Keys;
      while rest != {}
        invariant rest <= s.Keys && jobs == old(jobs) && manager.missions == s
        invariant forall id :: id in s && id !in rest ==> !IsReady(manager.Now(), id)
        decreases |rest|
      {
        var id :| id in rest;
        if s[id].state == Planning && s[id].bt == "" {
          assert HoldsSlot(manager.Now(), id);
          PlanAndStartAsync(s[id]);
          return;
        }
        rest := rest - {id};
      }
    }

    // The end of a runner's thread.
    method ForgetRunner(runner: Identity)
      modifies this`runners, this`cancelEvents, this`cancelKeys
      ensures Now() == Forget(old(Now()), runner)
    {
      runners := runners - {runner};
      if runner.executionId.Some? {
        var key := runner.executionId.value;
        if runner.missionId in cancelKeys && cancelKeys[runner.missionId] == key {
          cancelKeys := cancelKeys - {runner.missionId};
        }
        cancelEvents := cancelEvents - {key};
      }
    }

    // The manager's own resolution of a control id.
    method Find(target: Target) returns (id: Attempt<Id>)
      ensures id == Resolve(manager.Now(), target)
    {
      match target {
        case Named(named) => return Ok(named);
        case Current =>
          if manager.active == None {
            return Refused("no active mission");
          }
          return Ok(manager.active.value);
      }
    }

    method HandleSubmit(req: Request, token: Id)
      requires Valid() && Enabled(Now(), SubmitAct(req, token))
      modifies this, manager, log
      ensures Now() == Next(old(Now()), SubmitAct(req, token))
      ensures Valid()
    {
      StepStaysSafe(Now(), SubmitAct(req, token));
      SubmitIs(Now(), SubmitAct(req, token));
      SubmitAndPlan(req, token);
    }

    method SubmitAndPlan(req: Request, token: Id)
      requires manager.Valid() && token !in manager.missions
      modifies this, manager, log
      ensures Now() == SubmittedBy(old(Now()), req, token)
    {
      ghost var n, op := Now(), SubmitOp(req, token);
      var event := manager.SubmitTask(req, token);
      Publish(event, n, op);
      if event.mission.state == Planning && event.mission.bt == "" {
        PlanAndStartAsync(event.mission);
      }
    }

    // _plan_and_start, once the planner came back with a tree.
    method PlanFinished(job: Identity, bt: string, goalSpec: string, token: Id)
      requires Valid() && Enabled(Now(), PlanOk(job, bt, goalSpec, token))
      modifies this, manager, log
      ensures Now() == Next(old(Now()), PlanOk(job, bt, goalSpec, token))
      ensures Valid()
    {
      StepStaysSafe(Now(), PlanOk(job, bt, goalSpec, token));
      PlanOkIsApplied(Now(), PlanOk(job, bt, goalSpec, token));
      jobs := jobs - multiset{job};
      ApplyAndRun(job, bt, goalSpec, token);
    }

    method ApplyAndRun(job: Identity, bt: string, goalSpec: string, token: Id)
      requires manager.Valid()
      modifies this, manager, log
      ensures Now() == PlannedBy(old(Now()), SetPlanOp(job.missionId, bt, goalSpec, Some(job), token))
    {
      ghost var n, op := Now(), SetPlanOp(job.missionId, bt, goalSpec, Some(job), token);
      var r := manager.ApplyPlan(job.missionId, bt, goalSpec, Some(job), token);
      if r.Refused? {
        Refuse(n, op);
        return;
      }
      Publish(r.value, n, op);
      LaunchRunner(r.value.mission);
    }

    method PlanFailed(job: Identity, message: string)
      requires Valid() && Enabled(Now(), PlanFail(job, message))
      modifies this, manager, log
      ensures Now() == Next(old(Now()), PlanFail(job, message))
      ensures Valid()
    {
      StepStaysSafe(Now(), PlanFail(job, message));
      PlanFailIs(Now(), PlanFail(job, message));
      jobs := jobs - multiset{job};
      ghost var n, op := Now(), EndOp(job.missionId, Failed, message, Some(job));
      var r := manager.End(job.missionId, Failed, message, Some(job));
      if r.Refused? {
        Refuse(n, op);
        return;
      }
      Publish(r.value, n, op);
      StartNext();
    }

    // _run_mission, from the outcome on.
    method RunnerFinished(runner: Identity, outcome: RunOutcome)
      requires Valid() && Enabled(Now(), RunnerEnd(runner, outcome))
      modifies this, manager, log
      ensures Now() == Next(old(Now()), RunnerEnd(runner, outcome))
      ensures Valid()
    {
      StepStaysSafe(Now(), RunnerEnd(runner, outcome));
      var accepts := manager.AcceptsAsyncResult(runner);
      if !accepts {
        LateRunnerIs(Now(), RunnerEnd(runner, outcome));
        ForgetRunner(runner);
        return;
      }
      RunnerEndIs(Now(), RunnerEnd(runner, outcome));
      EndedRunner(manager.Now(), runner, outcome);
      FinishRun(runner, outcome);
    }

    method FinishRun(runner: Identity, outcome: RunOutcome)
      requires manager.Valid() && Try(manager.Now(), EndOf(runner, outcome)).Ok?
      modifies this, manager, log
      ensures Now() == Forget(StartNextReady(Ran(old(Now()), EndOf(runner, outcome))), runner)
    {
      ghost var n, op := Now(), EndOf(runner, outcome);
      var r := MarkOutcome(runner, outcome);
      Publish(r.value, n, op);
      StartNext();
      ForgetRunner(runner);
    }

    method MarkOutcome(runner: Identity, outcome: RunOutcome) returns (r: Attempt<Event>)
      requires manager.Valid()
      modifies manager
      ensures manager.Does(old(manager.Now()), EndOf(runner, outcome), r)
      ensures manager.Valid()
    {
      match outcome {
        case Escalate(message) => r := manager.PauseTask(Named(runner.missionId), message);
        case Achieved(message) => r := manager.End(runner.missionId, Succeeded, message, None);
        case NotAchieved(message) => r := manager.End(runner.missionId, Failed, message, None);
        case DeadEnd(message) => r := manager.End(runner.missionId, Blocked, message, None);
      }
    }

    method OnExecutionProgress(runner: Identity, activeNode: string, progress: real)
      requires Valid() && Enabled(Now(), ProgressAct(runner, activeNode, progress))
      modifies this, manager, log
      ensures Now() == Next(old(Now()), ProgressAct(runner, activeNode, progress))
      ensures Valid()
    {
      StepStaysSafe(Now(), ProgressAct(runner, activeNode, progress));
      ProgressIs(Now(), ProgressAct(runner, activeNode, progress));
      var r := manager.Report(runner.missionId, activeNode, "running", Some(progress), Some(runner));
    }

    method HandleCancel(target: Target, reason: string) returns (ok: bool)
      requires Valid() && Enabled(Now(), CancelAct(target, reason))
      modifies this, manager, log
      ensures Now() == Next(old(Now()), CancelAct(target, reason))
      ensures Valid()
    {
      StepStaysSafe(Now(), CancelAct(target, reason));
      ghost var n, op := Now(), CancelOp(target, reason);
      StopIs(n, CancelAct(target, reason));
      var id := Find(target);
      var r := manager.CancelTask(target, reason);
      ok := r.Ok?;
      FinishStop(n, op, id, r);
    }

    method HandlePause(target: Target, reason: string) returns (ok: bool)
      requires Valid() && Enabled(Now(), PauseAct(target, reason))
      modifies this, manager, log
      ensures Now() == Next(old(Now()), PauseAct(target, reason))
      ensures Valid()
    {
      StepStaysSafe(Now(), PauseAct(target, reason));
      ghost var n, op := Now(), PauseOp(target, reason);
      StopIs(n, PauseAct(target, reason));
      var id := Find(target);
      var r := manager.PauseTask(target, reason);
      ok := r.Ok?;
      FinishStop(n, op, id, r);
    }

    method BlockActiveFromTrigger(message: string)
      requires Valid() && Enabled(Now(), TriggerBlock(message))
      modifies this, manager, log
      ensures Now() == Next(old(Now()), TriggerBlock(message))
      ensures Valid()
    {
      StepStaysSafe(Now(), TriggerBlock(message));
      var id := Find(Current);
      if id.Refused? {
        return;
      }
      ghost var n, op := Now(), EndOp(id.value, Blocked, message, None);
      StopIs(n, TriggerBlock(message));
      var r := manager.End(id.value, Blocked, message, None);
      FinishStop(n, op, id, r);
    }

    // What the three handlers above do after the manager: set the cancel event
    // of the mission, publish, and look for the next ready mission.
    method FinishStop(ghost n: NodeState, ghost op: Op, id: Attempt<Id>, r: Attempt<Event>)
      requires Now() == Operated(n, op) && manager.Valid() && Tokens(op) == {}
      requires r.Ok? ==> EventOf(n.ledger.sched, op) == Some(r.value)
      requires r.Refused? ==> Try(n.ledger.sched, op).Refused?
      modifies this, log
      ensures Now() == if r.Ok? then StartNextReady(SetCancelOf(Ran(n, op), id)) else Ran(n, op)
    {
      if r.Refused? {
        Refuse(n, op);
        return;
      }
      Publish(r.value, n, op);
      if id.Ok? {
        SetCancelEvent(id.value);
      }
      StartNext();
    }

    method HandleResume(target: Target, reason: string, token: Id) returns (ok: bool)
      requires Valid() && Enabled(Now(), ResumeAct(target, reason, token))
      modifies this, manager, log
      ensures Now() == Next(old(Now()), ResumeAct(target, reason, token))
      ensures Valid()
    {
      StepStaysSafe(Now(), ResumeAct(target, reason, token));
      ghost var n, op := Now(), ResumeOp(target, reason, token);
      ResumeIs(n, ResumeAct(target, reason, token));
      var r := manager.ResumeTask(target, reason, token);
      ok := r.Ok?;
      if !ok {
        Refuse(n, op);
        return;
      }
      var mission := r.value.mission;
      Publish(r.value, n, op);
      if mission.state == Running && mission.bt != "" {
        LaunchRunner(mission);
      } else if mission.state == Planning && mission.bt == "" {
        PlanAndStartAsync(mission);
      }
    }

    method HandleReprioritize(target: Target, priority: int, preempt: bool, reason: string) returns (ok: bool)
      requires Valid() && Enabled(Now(), ReprioritizeAct(target, priority, preempt, reason))
      modifies this, manager, log
      ensures Now() == Next(old(Now()), ReprioritizeAct(target, priority, preempt, reason))
      ensures Valid()
    {
      StepStaysSafe(Now(), ReprioritizeAct(target, priority, preempt, reason));
      ReprioritizeActIs(Now(), target, priority, preempt, reason);
      ok := Reprioritize(target, priority, preempt, Or(reason, "reprioritized"));
    }

    method Reprioritize(target: Target, priority: int, preempt: bool, reason: string) returns (ok: bool)
      requires manager.Valid()
      modifies this, manager, log
      ensures Now() == ReprioritizedBy(old(Now()), ReprioritizeOp(target, priority, preempt, reason))
    {
      ghost var n, op := Now(), ReprioritizeOp(target, priority, preempt, reason);
      var r := manager.ReprioritizeTask(target, priority, preempt, reason);
      ok := r.Ok?;
      if !ok {
        Refuse(n, op);
        return;
      }
      Publish(r.value, n, op);
      StopAndPlan(r.value);
    }

    // The preempted mission is told to stop, the preempting one gets its planner.
    method StopAndPlan(event: Event)
      modifies this
      ensures Now() == Reprioritized(old(Now()), event)
    {
      if event.preempted.Some? {
        SetCancelEvent(event.preempted.value);
      }
      if event.mission.state == Planning && event.mission.bt == "" {
        PlanAndStartAsync(event.mission);
      }
    }

    method ReplanActiveFromTrigger(message: string, wantId: Option<Id>, wantVersion: Option<int>)
      requires Valid() && Enabled(Now(), TriggerReplan(message, wantId, wantVersion))
      modifies this, manager, log
      ensures Now() == Next(old(Now()), TriggerReplan(message, wantId, wantVersion))
      ensures Valid()
    {
      StepStaysSafe(Now(), TriggerReplan(message, wantId, wantVersion));
      var id := Find(Current);
      if id.Refused? || id.value !in manager.missions
         || !Matches(manager.missions[id.value], wantId, wantVersion) {
        return;
      }
      ReplanIs(Now(), TriggerReplan(message, wantId, wantVersion));
      ReplanActive(id.value, message);
    }

    method ReplanActive(id: Id, message: string)
      requires manager.Valid() && manager.active == Some(id)
      modifies this, manager, log
      ensures
        var n, op := old(Now()), ReplanOp(Current, message);
        Now() == if Try(n.ledger.sched, op).Ok?
                 then PlanAsync(SetCancel(Ran(n, op), id), EventOf(n.ledger.sched, op).value.mission.identity)
                 else Ran(n, op)
    {
      ghost var n, op := Now(), ReplanOp(Current, message);
      var r := manager.Replan(Current, message);
      if r.Refused? {
        Refuse(n, op);
        return;
      }
      Publish(r.value, n, op);
      SetCancelEvent(id);
      PlanAndStartAsync(r.value.mission);
    }

    method PlanNewMissionFromTrigger(req: Request, token: Id)
      requires Valid() && Enabled(Now(), TriggerSubmit(req, token))
      modifies this, manager, log
      ensures Now() == Next(old(Now()), TriggerSubmit(req, token))
      ensures Valid()
    {
      StepStaysSafe(Now(), TriggerSubmit(req, token));
      if manager.active.Some? && manager.active.value in manager.missions
         && !Terminal(manager.missions[manager.active.value].state) {
        return;
      }
      SubmitIs(Now(), TriggerSubmit(req, token));
      SubmitAndPlan(req, token);
    }
  }
}
