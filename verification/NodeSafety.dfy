// What every run of the node keeps: the running mission has its runner, the
// mission being planned has its planner, and runs that were superseded are told
// to stop.
module NodeSafety {
  import opened Common
  import opened Missions
  import opened MissionHistory
  import opened SingleSlot
  import opened NodeProtocol

  predicate RunsAs(s: Scheduler, i: Identity) {
    InState(s.missions, Running, i.missionId) && s.missions[i.missionId].identity == i
  }

  // ---- What one scheduler operation does to running and ready missions.

  lemma HandOnRunsNobody(s: Scheduler, id: Id, keep: bool, i: Identity)
    ensures RunsAs(HandOnIf(s, id, keep), i) <==> RunsAs(s, i)
  {
    if i.missionId in s.missions {
      HandOnPromotes(s, keep, i.missionId);
    }
  }

  lemma EndedRuns(s: Scheduler, at: Id, state: State, message: string, i: Identity)
    requires at in s.missions && Terminal(state)
    ensures RunsAs(Ended(s, at, state, message).sched, i) <==> RunsAs(s, i) && i.missionId != at
  {
    var done := Ended(s, at, state, message).event.value.mission;
    HandOnRunsNobody(s.(missions := s.missions[at := done]), at, false, i);
  }

  lemma CanceledRuns(s: Scheduler, target: Target, reason: string, i: Identity)
    requires Live(s, target).Ok?
    ensures RunsAs(Apply(s, CancelOp(target, reason)), i) <==> RunsAs(s, i) && i.missionId != Live(s, target).value
  {
    var at := Live(s, target).value;
    var canceled := s.missions[at].(state := Canceled, statusText := Or(reason, "canceled"));
    HandOnRunsNobody(s.(missions := s.missions[at := canceled]), at, false, i);
  }

  lemma PausedRuns(s: Scheduler, target: Target, reason: string, i: Identity)
    requires Live(s, target).Ok?
    ensures RunsAs(Apply(s, PauseOp(target, reason)), i) <==> RunsAs(s, i) && i.missionId != Live(s, target).value
  {
    var at := Live(s, target).value;
    if s.missions[at].state == Paused {
    } else if Repauses(s, at, reason) {
      EndedRuns(s.(resumedFrom := Without(s.resumedFrom, at)), at, Blocked, REPAUSED + reason, i);
    } else {
      var paused := s.missions[at].(state := Paused, statusText := Or(reason, "paused"));
      HandOnRunsNobody(s.(missions := s.missions[at := paused]), at, true, i);
    }
  }

  // A mission starts running only through a plan or a resume, under a fresh
  // execution.
  lemma StartsRunning(s: Scheduler, op: Op, i: Identity)
    requires SlotInv(s) && Fresh(s, op)
    requires RunsAs(Apply(s, op), i) && !RunsAs(s, i)
    ensures op.SetPlanOp? || op.ResumeOp?
    ensures i.executionId == Some(op.token) && EventOf(s, op).Some?
    ensures EventOf(s, op).value.mission == Apply(s, op).missions[i.missionId]
    ensures Subject(s, op) == Ok(i.missionId)
  {
    match op
    case PauseOp(target, reason) =>
      if Live(s, target).Ok? {
        PausedRuns(s, target, reason, i);
      }
    case CancelOp(target, reason) =>
      if Live(s, target).Ok? {
        CanceledRuns(s, target, reason, i);
      }
    case EndOp(at, state, message, expected) =>
      if MarkTerminal(s, at, state, message, expected).Ok? {
        EndedRuns(s, at, state, message, i);
      }
    case ReprioritizeOp(_, _, _, _) => ReprioritizeRuns(s, op, i);
    case _ =>
  }

  // A reprioritisation runs nobody, and stops at most the mission it preempts.
  lemma ReprioritizeRuns(s: Scheduler, op: Op, i: Identity)
    requires op.ReprioritizeOp?
    ensures RunsAs(Apply(s, op), i) ==> RunsAs(s, i)
    ensures RunsAs(s, i) && !RunsAs(Apply(s, op), i) ==>
      EventOf(s, op).Some? && EventOf(s, op).value.preempted == Some(i.missionId)
  {
  }

  // A running mission stops running only by an operation on itself, or when it
  // is preempted.
  lemma StopsRunning(s: Scheduler, op: Op, i: Identity)
    requires SlotInv(s) && Fresh(s, op)
    requires RunsAs(s, i) && !RunsAs(Apply(s, op), i)
    ensures s.active == Some(i.missionId)
    ensures !op.SubmitOp? && !op.ResumeOp? && !op.StatusOp?
    ensures op.ReprioritizeOp? ==> EventOf(s, op).Some? && EventOf(s, op).value.preempted == Some(i.missionId)
    ensures !op.ReprioritizeOp? ==> Subject(s, op) == Ok(i.missionId)
    ensures op.SetPlanOp? || op.EndOp? ==> op.expected == None || op.expected == Some(i)
  {
    assert HoldsSlot(s, i.missionId);
    match op
    case PauseOp(target, reason) =>
      if Live(s, target).Ok? {
        PausedRuns(s, target, reason, i);
      }
    case CancelOp(target, reason) =>
      if Live(s, target).Ok? {
        CanceledRuns(s, target, reason, i);
      }
    case EndOp(at, state, message, expected) =>
      if MarkTerminal(s, at, state, message, expected).Ok? {
        EndedRuns(s, at, state, message, i);
      }
    case ReprioritizeOp(_, _, _, _) => ReprioritizeRuns(s, op, i);
    case _ => PlanningStops(s, op, i);
  }

  lemma PlanningStops(s: Scheduler, op: Op, i: Identity)
    requires SlotInv(s) && Fresh(s, op) && HoldsSlot(s, i.missionId)
    requires RunsAs(s, i) && !RunsAs(Apply(s, op), i)
    requires op.SubmitOp? || op.ResumeOp? || op.StatusOp? || op.SetPlanOp? || op.ReplanOp?
    ensures s.active == Some(i.missionId)
    ensures op.SetPlanOp? || op.ReplanOp?
    ensures Subject(s, op) == Ok(i.missionId)
    ensures op.SetPlanOp? ==> op.expected == None || op.expected == Some(i)
  {
  }

  predicate ReadyAs(s: Scheduler, i: Identity) {
    IsReady(s, i.missionId) && s.missions[i.missionId].identity == i
  }

  // Operations that may hand the slot on; the node looks for a ready mission
  // after each of them.
  predicate MayHandOn(op: Op) {
    op.PauseOp? || op.CancelOp? || op.EndOp?
  }

  // Otherwise a mission becomes ready only as the subject of the operation.
  lemma BecomesReady(s: Scheduler, op: Op, i: Identity)
    requires SlotInv(s) && Fresh(s, op) && !MayHandOn(op)
    requires ReadyAs(Apply(s, op), i) && !ReadyAs(s, i)
    ensures EventOf(s, op).Some? && EventOf(s, op).value.mission == Apply(s, op).missions[i.missionId]
    ensures !op.SetPlanOp?
  {
  }

  // ---- The invariant.

  // A runner in flight: its cancel event exists, and is set unless the mission
  // still runs under the runner's identity. A loose runner is one whose cancel
  // event the current step is about to set or to drop.
  predicate Tracked(n: NodeState, i: Identity, loose: Option<Identity>) {
    && i.executionId.Some? && i.executionId.value in n.ledger.used
    && i.executionId.value in n.cancelEvents
    && (!n.cancelEvents[i.executionId.value] ==> RunsAs(n.ledger.sched, i) || loose == Some(i))
    && (RunsAs(n.ledger.sched, i) || loose == Some(i) ==>
          i.missionId in n.cancelKeys && n.cancelKeys[i.missionId] == i.executionId.value)
  }

  ghost predicate Sound(n: NodeState, loose: Option<Identity>) {
    var s := n.ledger.sched;
    && Recorded(n.ledger) && SlotInv(s)
    && (forall i :: RunsAs(s, i) ==> i in n.runners)
    && (forall i :: i in n.runners ==> Tracked(n, i, loose))
    && (forall i, j :: i in n.runners && j in n.runners && i.executionId == j.executionId ==> i == j)
    && (forall key :: key in n.cancelEvents ==> key in n.ledger.used)
    && (forall j :: j in n.jobs ==> !RunsAs(s, j))
    && (forall j :: j in n.jobs && j.executionId.Some? ==> j.executionId.value in n.ledger.used)
  }

  ghost predicate ReadyCovered(n: NodeState) {
    forall i :: ReadyAs(n.ledger.sched, i) ==> i in n.jobs
  }

  ghost predicate NodeInv(n: NodeState) {
    Sound(n, None) && ReadyCovered(n)
  }

  lemma ReadyIsActive(s: Scheduler, i: Identity)
    requires SlotInv(s) && ReadyAs(s, i)
    ensures s.active == Some(i.missionId) && s.missions[s.active.value].identity == i
  {
    assert HoldsSlot(s, i.missionId);
  }

  lemma RunningIsActive(s: Scheduler, i: Identity)
    requires SlotInv(s) && RunsAs(s, i)
    ensures s.active == Some(i.missionId)
  {
    assert HoldsSlot(s, i.missionId);
  }

  lemma PlannerStarted(n: NodeState, i: Identity, loose: Option<Identity>)
    requires Sound(n, loose) && i.missionId in n.ledger.sched.missions
    requires n.ledger.sched.missions[i.missionId].identity == i && n.ledger.sched.missions[i.missionId].state == Planning
    ensures Sound(PlanAsync(n, i), loose)
    ensures ReadyAs(n.ledger.sched, i) ==> ReadyCovered(PlanAsync(n, i))
  {
    if ReadyAs(n.ledger.sched, i) {
      forall j | ReadyAs(n.ledger.sched, j)
        ensures j == i
      {
        ReadyIsActive(n.ledger.sched, i);
        ReadyIsActive(n.ledger.sched, j);
      }
    }
  }

  lemma NextReadyStarted(n: NodeState, loose: Option<Identity>)
    requires Sound(n, loose)
    ensures Sound(StartNextReady(n), loose) && ReadyCovered(StartNextReady(n))
  {
    var s := n.ledger.sched;
    if s.active.Some? && IsReady(s, s.active.value) {
      PlannerStarted(n, s.missions[s.active.value].identity, loose);
    } else {
      forall j | ReadyAs(s, j)
        ensures false
      {
        ReadyIsActive(s, j);
      }
    }
  }

  lemma CancelSet(n: NodeState, id: Id, loose: Option<Identity>)
    requires Sound(n, loose) && (loose.Some? ==> loose.value.missionId == id && loose.value in n.runners)
    ensures Sound(SetCancel(n, id), None)
    ensures SetCancel(n, id).jobs == n.jobs && SetCancel(n, id).ledger == n.ledger
  {
    var n' := SetCancel(n, id);
    forall i | i in n.runners
      ensures Tracked(n', i, None)
    {
      assert Tracked(n, i, loose);
    }
  }

  lemma RunnerStarted(n: NodeState, i: Identity, token: Id)
    requires i.executionId == Some(token) && token !in n.cancelEvents
    requires forall j :: j in n.runners ==> j.executionId != Some(token) && Tracked(n, j, None)
    requires RunsAs(n.ledger.sched, i) && token in n.ledger.used
    requires forall j :: j in n.jobs ==> j != i
    requires forall j :: j in n.jobs && j.executionId.Some? ==> j.executionId.value in n.ledger.used
    requires forall j, k :: j in n.runners && k in n.runners && j.executionId == k.executionId ==> j == k
    requires forall key :: key in n.cancelEvents ==> key in n.ledger.used
    requires Recorded(n.ledger) && SlotInv(n.ledger.sched)
    ensures NodeInv(StartRunner(n, i))
  {
    var s, n' := n.ledger.sched, StartRunner(n, i);
    RunningIsActive(s, i);
    forall j | RunsAs(s, j)
      ensures j == i
    {
      RunningIsActive(s, j);
    }
    forall j | ReadyAs(s, j)
      ensures false
    {
      ReadyIsActive(s, j);
    }
    forall j | j in n'.runners
      ensures Tracked(n', j, None)
    {
      if j != i {
        assert Tracked(n, j, None);
      }
    }
  }

  // The operation alone: nobody starts running, and at most the runner of the
  // mission that stopped is loose.
  lemma OperationKeepsSound(n: NodeState, op: Op, loose: Option<Identity>)
    requires Sound(n, None) && Legal(n.ledger.sched, op) && !op.SetPlanOp? && !op.ResumeOp?
    requires forall t :: t in Tokens(op) ==> t !in n.ledger.used
    requires forall i :: RunsAs(n.ledger.sched, i) && !RunsAs(Apply(n.ledger.sched, op), i) ==> loose == Some(i)
    requires loose.Some? ==> RunsAs(n.ledger.sched, loose.value)
    ensures Sound(Ran(n, op), loose)
  {
    var s, n' := n.ledger.sched, Ran(n, op);
    assert Step(n.ledger, op, n'.ledger);
    StepKeepsRecord(n.ledger, op, n'.ledger);
    DrawnIsFresh(n.ledger, op, n'.ledger);
    StepKeepsSlot(s, op);
    forall i | RunsAs(n'.ledger.sched, i)
      ensures RunsAs(s, i)
    {
      if !RunsAs(s, i) {
        StartsRunning(s, op, i);
      }
    }
    forall i | i in n.runners
      ensures Tracked(n', i, loose)
    {
      assert Tracked(n, i, None);
    }
  }

  // ---- The steps, spelled out one by one.

  // After a plan: applied under the expected identity, the mission gets its runner.
  ghost function PlannedBy(n: NodeState, op: Op): NodeState
    requires op.SetPlanOp?
  {
    if Try(n.ledger.sched, op).Ok? then StartRunner(Ran(n, op), EventOf(n.ledger.sched, op).value.mission.identity)
    else Ran(n, op)
  }

  lemma PlanOkIsApplied(n: NodeState, act: Act)
    requires act.PlanOk?
    ensures Next(n, act) == PlannedBy(n.(jobs := n.jobs - multiset{act.job}),
                                      SetPlanOp(act.job.missionId, act.bt, act.goalSpec, Some(act.job), act.token))
  {
    PlanOkIs(n, act);
  }

  lemma PlanOkIs(n: NodeState, act: Act)
    requires act.PlanOk?
    ensures
      var n0, op := n.(jobs := n.jobs - multiset{act.job}), OpOf(n.ledger.sched, act);
      Next(n, act) == if Try(n.ledger.sched, op).Ok?
                      then StartRunner(Ran(n0, op), EventOf(n.ledger.sched, op).value.mission.identity) else Ran(n0, op)
  {
  }

  lemma PlanFailIs(n: NodeState, act: Act)
    requires act.PlanFail?
    ensures
      var n0, op := n.(jobs := n.jobs - multiset{act.job}), OpOf(n.ledger.sched, act);
      Next(n, act) == if Try(n.ledger.sched, op).Ok? then StartNextReady(Ran(n0, op)) else Ran(n0, op)
  {
  }

  lemma ProgressIs(n: NodeState, act: Act)
    requires act.ProgressAct?
    ensures Next(n, act) == n.(ledger := Ledger(Apply(n.ledger.sched, OpOf(n.ledger.sched, act)), n.ledger.used))
  {
  }

  lemma ResumeIs(n: NodeState, act: Act)
    requires act.ResumeAct?
    ensures
      var op := OpOf(n.ledger.sched, act);
      Next(n, act) == if Try(n.ledger.sched, op).Ok?
                      then Launch(Ran(n, op), EventOf(n.ledger.sched, op).value.mission) else Ran(n, op)
  {
  }

  lemma ReplanIs(n: NodeState, act: Act)
    requires act.TriggerReplan? && Reaches(n.ledger.sched, act)
    ensures
      var op := ReplanOp(Current, act.message);
      && OpOf(n.ledger.sched, act) == op
      && Next(n, act) == if Try(n.ledger.sched, op).Ok?
                         then PlanAsync(SetCancel(Ran(n, op), n.ledger.sched.active.value),
                                        EventOf(n.ledger.sched, op).value.mission.identity)
                         else Ran(n, op)
  {
  }

  // After a reprioritisation: the preempted mission is told to stop, and the one
  // that is to be planned gets its planner.
  function Reprioritized(n: NodeState, e: Event): NodeState {
    var c := if e.preempted.Some? then SetCancel(n, e.preempted.value) else n;
    if IsPlannable(e.mission) then PlanAsync(c, e.mission.identity) else c
  }

  ghost function ReprioritizedBy(n: NodeState, op: Op): NodeState
    requires op.ReprioritizeOp?
  {
    if Try(n.ledger.sched, op).Ok? then Reprioritized(Ran(n, op), EventOf(n.ledger.sched, op).value) else Ran(n, op)
  }

  lemma ReprioritizeIs(n: NodeState, act: Act)
    requires act.ReprioritizeAct?
    ensures Next(n, act) == ReprioritizedBy(n, OpOf(n.ledger.sched, act))
  {
    var op := OpOf(n.ledger.sched, act);
    if Try(n.ledger.sched, op).Ok? {
      PreemptedNext(Ran(n, op), act, Try(n.ledger.sched, op).value.event, n.ledger.sched);
    }
  }

  lemma ReprioritizeActIs(n: NodeState, target: Target, priority: int, preempt: bool, reason: string)
    ensures Next(n, ReprioritizeAct(target, priority, preempt, reason))
         == ReprioritizedBy(n, ReprioritizeOp(target, priority, preempt, Or(reason, "reprioritized")))
  {
    var act := ReprioritizeAct(target, priority, preempt, reason);
    assert OpOf(n.ledger.sched, act) == ReprioritizeOp(target, priority, preempt, Or(reason, "reprioritized"));
    ReprioritizeIs(n, act);
  }

  lemma PreemptedNext(n: NodeState, act: Act, e: Option<Event>, s: Scheduler)
    requires act.ReprioritizeAct? && e.Some?
    ensures Aftermath(s, n, act, e) == Reprioritized(n, e.value)
  {
  }

  // After an operation that does not hand the slot on, at most its subject lacks
  // a planner.
  lemma NewlyReady(n: NodeState, op: Op)
    requires NodeInv(n) && !MayHandOn(op) && forall t :: t in Tokens(op) ==> t !in n.ledger.used
    ensures forall i :: ReadyAs(Ran(n, op).ledger.sched, i) && i !in Ran(n, op).jobs ==>
      EventOf(n.ledger.sched, op).Some? && EventOf(n.ledger.sched, op).value.mission.identity == i
  {
    assert Fresh(n.ledger.sched, op);
    forall i | ReadyAs(Apply(n.ledger.sched, op), i) && i !in n.jobs
      ensures EventOf(n.ledger.sched, op).Some? && EventOf(n.ledger.sched, op).value.mission.identity == i
    {
      BecomesReady(n.ledger.sched, op, i);
    }
  }

  // ---- One lemma a step.

  // The one mission that may stop running is the active one.
  ghost function Stopped(s: Scheduler, op: Op): Option<Identity>
  {
    if s.active.Some? && InState(s.missions, Running, s.active.value)
       && !RunsAs(Apply(s, op), s.missions[s.active.value].identity)
    then Some(s.missions[s.active.value].identity) else None
  }

  lemma StoppedIsLoose(n: NodeState, op: Op)
    requires Sound(n, None) && Legal(n.ledger.sched, op) && !op.SetPlanOp? && !op.ResumeOp?
    requires forall t :: t in Tokens(op) ==> t !in n.ledger.used
    ensures Sound(Ran(n, op), Stopped(n.ledger.sched, op))
    ensures Stopped(n.ledger.sched, op).Some? ==> RunsAs(n.ledger.sched, Stopped(n.ledger.sched, op).value)
  {
    var s := n.ledger.sched;
    forall i | RunsAs(s, i) && !RunsAs(Apply(s, op), i)
      ensures Stopped(s, op) == Some(i)
    {
      RunningIsActive(s, i);
    }
    OperationKeepsSound(n, op, Stopped(s, op));
  }

  lemma StoppedBy(n: NodeState, op: Op)
    requires Sound(n, None) && Stopped(n.ledger.sched, op).Some?
    requires forall t :: t in Tokens(op) ==> t !in n.ledger.used
    ensures !op.SubmitOp? && !op.ResumeOp? && !op.StatusOp?
    ensures op.ReprioritizeOp? ==>
      EventOf(n.ledger.sched, op).Some?
      && EventOf(n.ledger.sched, op).value.preempted == Some(Stopped(n.ledger.sched, op).value.missionId)
    ensures !op.ReprioritizeOp? ==> Subject(n.ledger.sched, op) == Ok(Stopped(n.ledger.sched, op).value.missionId)
    ensures op.SetPlanOp? || op.EndOp? ==> op.expected == None || op.expected == Stopped(n.ledger.sched, op)
  {
    var s := n.ledger.sched;
    assert Fresh(s, op);
    StopsRunning(s, op, Stopped(s, op).value);
  }

  lemma SubmitStep(n: NodeState, act: Act)
    requires NodeInv(n) && Enabled(n, act) && (act.SubmitAct? || act.TriggerSubmit?)
    ensures NodeInv(Next(n, act))
  {
    if Reaches(n.ledger.sched, act) {
      SubmitIs(n, act);
      SubmissionTaken(n, OpOf(n.ledger.sched, act));
    }
  }

  // After a submission: the new mission gets its planner unless it has to queue.
  ghost function SubmittedBy(n: NodeState, req: Request, token: Id): NodeState {
    var m := Submit(n.ledger.sched, req, token).event.value.mission;
    if IsPlannable(m) then PlanAsync(Ran(n, SubmitOp(req, token)), m.identity) else Ran(n, SubmitOp(req, token))
  }

  lemma SubmitIs(n: NodeState, act: Act)
    requires (act.SubmitAct? || act.TriggerSubmit?) && Reaches(n.ledger.sched, act)
    ensures OpOf(n.ledger.sched, act) == SubmitOp(act.req, act.token)
    ensures Next(n, act) == SubmittedBy(n, act.req, act.token)
  {
  }

  lemma SubmissionTaken(n: NodeState, op: Op)
    requires NodeInv(n) && op.SubmitOp? && op.token !in n.ledger.used
    ensures NodeInv(SubmittedBy(n, op.req, op.token))
  {
    var s, m := n.ledger.sched, Submit(n.ledger.sched, op.req, op.token).event.value.mission;
    StoppedIsLoose(n, op);
    if Stopped(s, op).Some? {
      StoppedBy(n, op);
    }
    if IsPlannable(m) {
      PlannerStarted(Ran(n, op), m.identity, None);
    } else {
      forall i | ReadyAs(Apply(s, op), i)
        ensures i in n.jobs
      {
        if !ReadyAs(s, i) {
          BecomesReady(s, op, i);
        }
      }
    }
  }

  lemma ProgressStep(n: NodeState, act: Act)
    requires NodeInv(n) && Enabled(n, act) && act.ProgressAct?
    ensures NodeInv(Next(n, act))
  {
    ProgressIs(n, act);
    StatusReported(n, OpOf(n.ledger.sched, act));
  }

  lemma StatusReported(n: NodeState, op: Op)
    requires NodeInv(n) && op.StatusOp?
    ensures NodeInv(n.(ledger := Ledger(Apply(n.ledger.sched, op), n.ledger.used)))
  {
    StoppedIsLoose(n, op);
    if Stopped(n.ledger.sched, op).Some? {
      StoppedBy(n, op);
    }
    NewlyReady(n, op);
    assert Ran(n, op).ledger == Ledger(Apply(n.ledger.sched, op), n.ledger.used);
    assert Ran(n, op).journal == n.journal;
  }

  lemma PlanOkStep(n: NodeState, act: Act)
    requires NodeInv(n) && Enabled(n, act) && act.PlanOk?
    ensures NodeInv(Next(n, act))
  {
    var op := OpOf(n.ledger.sched, act);
    PlanOkIs(n, act);
    if Try(n.ledger.sched, op).Ok? {
      OneThreadLess(n, act.job);
      PlanApplied(n.(jobs := n.jobs - multiset{act.job}), act.job, op);
    } else {
      PlanIgnored(n, act.job, op);
    }
  }

  lemma OneThreadLess(n: NodeState, job: Identity)
    requires NodeInv(n)
    ensures Sound(n.(jobs := n.jobs - multiset{job}), None)
  {
    var n0 := n.(jobs := n.jobs - multiset{job});
    forall i | i in n0.runners
      ensures Tracked(n0, i, None)
    {
      assert Tracked(n, i, None);
    }
  }

  // A stale planning result takes nothing with it but its own thread.
  lemma PlanIgnored(n: NodeState, job: Identity, op: Op)
    requires NodeInv(n)
    requires (op.SetPlanOp? && op.id == job.missionId) || (op.EndOp? && op.id == job.missionId && op.state == Failed)
    requires op.expected == Some(job)
    requires Try(n.ledger.sched, op).Refused? && forall t :: t in Tokens(op) ==> t !in n.ledger.used
    ensures NodeInv(Ran(n.(jobs := n.jobs - multiset{job}), op))
  {
    var n0 := n.(jobs := n.jobs - multiset{job});
    OneThreadLess(n, job);
    RefusedKeepsSound(n0, op);
    RefusedMeansStale(n.ledger.sched, job, op);
    forall i | ReadyAs(n.ledger.sched, i)
      ensures i in n0.jobs
    {
      assert i != job;
    }
  }

  lemma RefusedMeansStale(s: Scheduler, job: Identity, op: Op)
    requires (op.SetPlanOp? && op.id == job.missionId) || (op.EndOp? && op.id == job.missionId && op.state == Failed)
    requires op.expected == Some(job) && Try(s, op).Refused?
    ensures !ReadyAs(s, job)
  {
  }

  lemma RefusedKeepsSound(n: NodeState, op: Op)
    requires Sound(n, None) && Try(n.ledger.sched, op).Refused?
    ensures Sound(Ran(n, op), None)
    ensures Ran(n, op).ledger.sched == n.ledger.sched && Ran(n, op).jobs == n.jobs
  {
    forall i | i in n.runners
      ensures Tracked(Ran(n, op), i, None)
    {
      assert Tracked(n, i, None);
    }
  }

  lemma PlanApplied(n: NodeState, job: Identity, op: Op)
    requires Sound(n, None)
    requires op.SetPlanOp? && op.id == job.missionId && op.expected == Some(job) && op.token !in n.ledger.used
    requires Try(n.ledger.sched, op).Ok? && n.ledger.sched.missions[job.missionId].state == Planning
    ensures NodeInv(StartRunner(Ran(n, op), EventOf(n.ledger.sched, op).value.mission.identity))
  {
    var s, n1 := n.ledger.sched, Ran(n, op);
    assert Step(n.ledger, op, n1.ledger);
    StepKeepsRecord(n.ledger, op, n1.ledger);
    DrawnIsFresh(n.ledger, op, n1.ledger);
    assert HoldsSlot(s, job.missionId);
    StepKeepsSlot(s, op);
    var i := EventOf(s, op).value.mission.identity;
    forall j | j in n1.runners
      ensures Tracked(n1, j, None) && j.executionId != Some(op.token)
    {
      assert Tracked(n, j, None);
      if RunsAs(s, j) {
        RunningIsActive(s, j);
      }
    }
    RunnerStarted(n1, i, op.token);
  }

  lemma PlanFailStep(n: NodeState, act: Act)
    requires NodeInv(n) && Enabled(n, act) && act.PlanFail?
    ensures NodeInv(Next(n, act))
  {
    var op := OpOf(n.ledger.sched, act);
    PlanFailIs(n, act);
    if Try(n.ledger.sched, op).Ok? {
      PlanFailed(n, n.(jobs := n.jobs - multiset{act.job}), act.job, op);
    } else {
      PlanIgnored(n, act.job, op);
    }
  }

  lemma PlanFailed(n: NodeState, n0: NodeState, job: Identity, op: Op)
    requires NodeInv(n) && job in n.jobs && n0 == n.(jobs := n.jobs - multiset{job})
    requires op.EndOp? && op.id == job.missionId && op.expected == Some(job)
    ensures NodeInv(StartNextReady(Ran(n0, op)))
  {
    OneThreadLess(n, job);
    StoppedIsLoose(n0, op);
    if Stopped(n.ledger.sched, op).Some? {
      StoppedBy(n0, op);
    }
    NextReadyStarted(Ran(n0, op), None);
  }

  lemma StopStep(n: NodeState, act: Act)
    requires NodeInv(n) && Enabled(n, act) && (act.CancelAct? || act.PauseAct? || act.TriggerBlock?)
    ensures NodeInv(Next(n, act))
  {
    if Reaches(n.ledger.sched, act) {
      StopIs(n, act);
      MissionStopped(n, OpOf(n.ledger.sched, act));
    }
  }

  lemma StopIs(n: NodeState, act: Act)
    requires (act.CancelAct? || act.PauseAct? || act.TriggerBlock?) && Reaches(n.ledger.sched, act)
    ensures
      var op := OpOf(n.ledger.sched, act);
      && MayHandOn(op) && Tokens(op) == {}
      && Next(n, act) == if Try(n.ledger.sched, op).Ok?
                         then StartNextReady(SetCancelOf(Ran(n, op), Subject(n.ledger.sched, op))) else Ran(n, op)
  {
  }

  lemma MissionStopped(n: NodeState, op: Op)
    requires NodeInv(n) && MayHandOn(op) && Tokens(op) == {}
    ensures NodeInv(if Try(n.ledger.sched, op).Ok?
                    then StartNextReady(SetCancelOf(Ran(n, op), Subject(n.ledger.sched, op))) else Ran(n, op))
  {
    var s := n.ledger.sched;
    if Try(s, op).Ok? {
      StoppedIsLoose(n, op);
      var loose := Stopped(s, op);
      if loose.Some? {
        StoppedBy(n, op);
      }
      var target := Subject(s, op);
      CancelSet(Ran(n, op), target.value, loose);
      NextReadyStarted(SetCancel(Ran(n, op), target.value), None);
    } else {
      RefusedChangesNothing(n, op);
    }
  }

  lemma ReplanStep(n: NodeState, act: Act)
    requires NodeInv(n) && Enabled(n, act) && act.TriggerReplan?
    ensures NodeInv(Next(n, act))
  {
    if Reaches(n.ledger.sched, act) {
      ReplanIs(n, act);
      ActiveReplanned(n, ReplanOp(Current, act.message));
    }
  }

  lemma ActiveReplanned(n: NodeState, op: Op)
    requires NodeInv(n) && op.ReplanOp? && op.target == Current && n.ledger.sched.active.Some?
    ensures Try(n.ledger.sched, op).Ok?
    ensures NodeInv(PlanAsync(SetCancel(Ran(n, op), n.ledger.sched.active.value),
                              EventOf(n.ledger.sched, op).value.mission.identity))
  {
    var s, id := n.ledger.sched, n.ledger.sched.active.value;
    StoppedIsLoose(n, op);
    var loose := Stopped(s, op);
    if loose.Some? {
      StoppedBy(n, op);
    }
    CancelSet(Ran(n, op), id, loose);
    PlannerStarted(SetCancel(Ran(n, op), id), EventOf(s, op).value.mission.identity, None);
  }

  lemma ReprioritizeStep(n: NodeState, act: Act)
    requires NodeInv(n) && Enabled(n, act) && act.ReprioritizeAct?
    ensures NodeInv(Next(n, act))
  {
    var op := OpOf(n.ledger.sched, act);
    ReprioritizeIs(n, act);
    if Try(n.ledger.sched, op).Ok? {
      PriorityChanged(n, op);
    } else {
      RefusedChangesNothing(n, op);
    }
  }

  lemma PriorityChanged(n: NodeState, op: Op)
    requires NodeInv(n) && op.ReprioritizeOp? && Try(n.ledger.sched, op).Ok?
    ensures NodeInv(Reprioritized(Ran(n, op), EventOf(n.ledger.sched, op).value))
  {
    var e := EventOf(n.ledger.sched, op).value;
    PriorityKeepsSound(n, op);
    NewlyReady(n, op);
    ReprioritizedMission(n.ledger.sched, op);
    PlannedIfReady(if e.preempted.Some? then SetCancel(Ran(n, op), e.preempted.value) else Ran(n, op), e.mission);
  }

  // At most the mission m lacks its planner.
  lemma PlannedIfReady(n: NodeState, m: Mission)
    requires Sound(n, None)
    requires m.identity.missionId in n.ledger.sched.missions && n.ledger.sched.missions[m.identity.missionId] == m
    requires forall i :: ReadyAs(n.ledger.sched, i) && i !in n.jobs ==> m.identity == i
    ensures NodeInv(if IsPlannable(m) then PlanAsync(n, m.identity) else n)
  {
    if IsPlannable(m) {
      PlannerStarted(n, m.identity, None);
    }
  }

  lemma PriorityKeepsSound(n: NodeState, op: Op)
    requires Sound(n, None) && op.ReprioritizeOp? && Try(n.ledger.sched, op).Ok?
    ensures
      var e := EventOf(n.ledger.sched, op).value;
      Sound(if e.preempted.Some? then SetCancel(Ran(n, op), e.preempted.value) else Ran(n, op), None)
  {
    var s := n.ledger.sched;
    StoppedIsLoose(n, op);
    if Stopped(s, op).Some? {
      StoppedBy(n, op);
    }
    PreemptedOrNot(Ran(n, op), EventOf(s, op).value.preempted, Stopped(s, op));
  }

  lemma PreemptedOrNot(n: NodeState, preempted: Option<Id>, loose: Option<Identity>)
    requires Sound(n, loose)
    requires loose.Some? ==> loose.value in n.runners && preempted == Some(loose.value.missionId)
    ensures Sound(if preempted.Some? then SetCancel(n, preempted.value) else n, None)
  {
    if preempted.Some? {
      CancelSet(n, preempted.value, loose);
    }
  }

  lemma ReprioritizedMission(s: Scheduler, op: Op)
    requires SlotInv(s) && op.ReprioritizeOp? && Try(s, op).Ok?
    ensures
      var m := EventOf(s, op).value.mission;
      m.identity.missionId in Apply(s, op).missions && Apply(s, op).missions[m.identity.missionId] == m
  {
  }

  lemma ResumeStep(n: NodeState, act: Act)
    requires NodeInv(n) && Enabled(n, act) && act.ResumeAct?
    ensures NodeInv(Next(n, act))
  {
    var op := OpOf(n.ledger.sched, act);
    ResumeIs(n, act);
    if Try(n.ledger.sched, op).Ok? {
      MissionResumed(n, op);
    } else {
      RefusedChangesNothing(n, op);
    }
  }

  lemma MissionResumed(n: NodeState, op: Op)
    requires NodeInv(n) && op.ResumeOp? && op.token !in n.ledger.used && Try(n.ledger.sched, op).Ok?
    ensures NodeInv(Launch(Ran(n, op), EventOf(n.ledger.sched, op).value.mission))
  {
    ResumedMission(n.ledger.sched, op);
    var m := EventOf(n.ledger.sched, op).value.mission;
    if m.state == Running {
      ResumedRuns(n, op);
    } else {
      IdleLaunched(n, op);
    }
  }

  lemma ResumedMission(s: Scheduler, op: Op)
    requires SlotInv(s) && op.ResumeOp? && Try(s, op).Ok?
    ensures
      var m := EventOf(s, op).value.mission;
      && m.identity.missionId in Apply(s, op).missions && Apply(s, op).missions[m.identity.missionId] == m
      && (m.state == Running ==> m.bt != "" && m.identity.executionId == Some(op.token))
  {
  }

  lemma IdleLaunched(n: NodeState, op: Op)
    requires NodeInv(n) && op.ResumeOp? && op.token !in n.ledger.used && Try(n.ledger.sched, op).Ok?
    requires EventOf(n.ledger.sched, op).value.mission.state != Running
    ensures NodeInv(Launch(Ran(n, op), EventOf(n.ledger.sched, op).value.mission))
  {
    var m := EventOf(n.ledger.sched, op).value.mission;
    ResumedMission(n.ledger.sched, op);
    ResumedIdle(n, op);
    if IsPlannable(m) {
      PlannerStarted(Ran(n, op), m.identity, None);
    }
  }

  lemma RefusedChangesNothing(n: NodeState, op: Op)
    requires NodeInv(n) && Try(n.ledger.sched, op).Refused?
    ensures NodeInv(Ran(n, op))
  {
    RefusedKeepsSound(n, op);
  }

  lemma ResumedRuns(n: NodeState, op: Op)
    requires NodeInv(n) && op.ResumeOp? && op.token !in n.ledger.used && Try(n.ledger.sched, op).Ok?
    requires EventOf(n.ledger.sched, op).value.mission.state == Running
    ensures NodeInv(StartRunner(Ran(n, op), EventOf(n.ledger.sched, op).value.mission.identity))
  {
    var s, n1 := n.ledger.sched, Ran(n, op);
    assert Step(n.ledger, op, n1.ledger);
    StepKeepsRecord(n.ledger, op, n1.ledger);
    DrawnIsFresh(n.ledger, op, n1.ledger);
    StepKeepsSlot(s, op);
    forall j | j in n1.runners
      ensures Tracked(n1, j, None) && j.executionId != Some(op.token)
    {
      assert Tracked(n, j, None);
      if RunsAs(s, j) {
        RunningIsActive(s, j);
      }
    }
    RunnerStarted(n1, EventOf(s, op).value.mission.identity, op.token);
  }

  // A resume that does not run the mission leaves every runner as it was.
  lemma ResumedIdle(n: NodeState, op: Op)
    requires NodeInv(n) && op.ResumeOp? && op.token !in n.ledger.used && Try(n.ledger.sched, op).Ok?
    requires EventOf(n.ledger.sched, op).value.mission.state != Running
    ensures Sound(Ran(n, op), None)
    ensures !IsPlannable(EventOf(n.ledger.sched, op).value.mission) ==> ReadyCovered(Ran(n, op))
  {
    var s, n1 := n.ledger.sched, Ran(n, op);
    assert Step(n.ledger, op, n1.ledger);
    StepKeepsRecord(n.ledger, op, n1.ledger);
    DrawnIsFresh(n.ledger, op, n1.ledger);
    StepKeepsSlot(s, op);
    forall i
      ensures RunsAs(n1.ledger.sched, i) <==> RunsAs(s, i)
    {
      if RunsAs(n1.ledger.sched, i) && !RunsAs(s, i) {
        StartsRunning(s, op, i);
      }
      if RunsAs(s, i) && !RunsAs(n1.ledger.sched, i) {
        StopsRunning(s, op, i);
      }
    }
    forall i | i in n.runners
      ensures Tracked(n1, i, None)
    {
      assert Tracked(n, i, None);
    }
    if !IsPlannable(EventOf(s, op).value.mission) {
      forall i | ReadyAs(n1.ledger.sched, i)
        ensures i in n.jobs
      {
        if !ReadyAs(s, i) {
          BecomesReady(s, op, i);
        }
      }
    }
  }

  lemma RunnerEndStep(n: NodeState, act: Act)
    requires NodeInv(n) && Enabled(n, act) && act.RunnerEnd?
    ensures NodeInv(Next(n, act))
  {
    if Accepts(n.ledger.sched, act.runner) {
      RunnerEndIs(n, act);
      EndedRunner(n.ledger.sched, act.runner, act.outcome);
      RunnerEnded(n, act.runner, EndOf(act.runner, act.outcome));
    } else {
      LateRunnerIs(n, act);
      RunnerForgotten(n, act.runner, None);
    }
  }

  lemma LateRunnerIs(n: NodeState, act: Act)
    requires act.RunnerEnd? && !Accepts(n.ledger.sched, act.runner)
    ensures Next(n, act) == Forget(n, act.runner) && !RunsAs(n.ledger.sched, act.runner)
  {
  }

  lemma RunnerEndIs(n: NodeState, act: Act)
    requires act.RunnerEnd? && Accepts(n.ledger.sched, act.runner)
    ensures
      var op := EndOf(act.runner, act.outcome);
      && MayHandOn(op) && Subject(n.ledger.sched, op) == Ok(act.runner.missionId) && Tokens(op) == {}
      && (Try(n.ledger.sched, op).Ok? ==>
            Next(n, act) == Forget(StartNextReady(Ran(n, op)), act.runner))
  {
  }

  lemma RunnerEnded(n: NodeState, i: Identity, op: Op)
    requires NodeInv(n) && i in n.runners && MayHandOn(op) && Subject(n.ledger.sched, op) == Ok(i.missionId)
    requires Accepts(n.ledger.sched, i) && !RunsAs(Apply(n.ledger.sched, op), i)
    ensures NodeInv(Forget(StartNextReady(Ran(n, op)), i))
  {
    var s := n.ledger.sched;
    assert Tracked(n, i, None);
    StoppedIsLoose(n, op);
    var loose := Stopped(s, op);
    if loose.Some? {
      StoppedBy(n, op);
      assert Tracked(n, loose.value, None) && loose == Some(i);
    }
    NextReadyStarted(Ran(n, op), loose);
    RunnerForgotten(StartNextReady(Ran(n, op)), i, loose);
  }

  lemma EndedRunner(s: Scheduler, i: Identity, outcome: RunOutcome)
    requires SlotInv(s) && Accepts(s, i)
    ensures Try(s, EndOf(i, outcome)).Ok? && !RunsAs(Apply(s, EndOf(i, outcome)), i)
  {
    match outcome
    case Escalate(message) => PausedRuns(s, Named(i.missionId), message, i);
    case Achieved(message) => EndedRuns(s, i.missionId, Succeeded, message, i);
    case NotAchieved(message) => EndedRuns(s, i.missionId, Failed, message, i);
    case DeadEnd(message) => EndedRuns(s, i.missionId, Blocked, message, i);
  }

  lemma RunnerForgotten(n: NodeState, i: Identity, loose: Option<Identity>)
    requires Sound(n, loose) && ReadyCovered(n) && i in n.runners && !RunsAs(n.ledger.sched, i)
    requires loose.Some? ==> loose == Some(i)
    ensures NodeInv(Forget(n, i))
  {
    var n' := Forget(n, i);
    forall j | j in n'.runners
      ensures Tracked(n', j, None)
    {
      assert Tracked(n, j, loose) && Tracked(n, i, loose);
    }
  }

  lemma NextKeepsInv(n: NodeState, act: Act)
    requires NodeInv(n) && Enabled(n, act)
    ensures NodeInv(Next(n, act))
  {
    match act
    case SubmitAct(_, _) => SubmitStep(n, act);
    case TriggerSubmit(_, _) => SubmitStep(n, act);
    case PlanOk(_, _, _, _) => PlanOkStep(n, act);
    case PlanFail(_, _) => PlanFailStep(n, act);
    case RunnerEnd(_, _) => RunnerEndStep(n, act);
    case ProgressAct(_, _, _) => ProgressStep(n, act);
    case CancelAct(_, _) => StopStep(n, act);
    case PauseAct(_, _) => StopStep(n, act);
    case TriggerBlock(_) => StopStep(n, act);
    case ResumeAct(_, _, _) => ResumeStep(n, act);
    case ReprioritizeAct(_, _, _, _) => ReprioritizeStep(n, act);
    case TriggerReplan(_, _, _) => ReplanStep(n, act);
  }

  // ---- Whole runs.

  lemma {:induction false} RunKeepsInv(ns: seq<NodeState>, acts: seq<Act>, k: nat)
    requires IsNodeRun(ns, acts) && k <= |acts| && NodeInv(ns[0])
    ensures NodeInv(ns[k])
    decreases k
  {
    if k > 0 {
      RunKeepsInv(ns, acts, k - 1);
      NextKeepsInv(ns[k - 1], acts[k - 1]);
    }
  }

  // Every other runner in flight has been told to stop: its mission was canceled,
  // paused, preempted, replanned or ended, or runs under a newer identity.
  lemma SupersededRunnersAreCanceled(ns: seq<NodeState>, acts: seq<Act>, k: nat, i: Identity)
    requires IsNodeRun(ns, acts) && k <= |acts| && NodeInv(ns[0])
    requires i in ns[k].runners
    ensures i.executionId.Some? && i.executionId.value in ns[k].cancelEvents
    ensures RunsAs(ns[k].ledger.sched, i) || ns[k].cancelEvents[i.executionId.value]
  {
    RunKeepsInv(ns, acts, k);
    assert Tracked(ns[k], i, None);
  }

  function Ledgers(ns: seq<NodeState>): (ls: seq<Ledger>)
    ensures |ls| == |ns| && forall k :: 0 <= k < |ns| ==> ls[k] == ns[k].ledger
  {
    seq(|ns|, k requires 0 <= k < |ns| => ns[k].ledger)
  }

  // What comes after the operation touches neither scheduler nor journal.
  lemma AftermathKeeps(s: Scheduler, n: NodeState, act: Act, e: Option<Event>)
    ensures Aftermath(s, n, act, e).ledger == n.ledger && Aftermath(s, n, act, e).journal == n.journal
  {
  }

  lemma DoneIs(n: NodeState, act: Act)
    requires Reaches(n.ledger.sched, act)
    ensures Done(n, act).ledger == Ran(n, OpOf(n.ledger.sched, act)).ledger
    ensures Done(n, act).journal == Ran(n, OpOf(n.ledger.sched, act)).journal
  {
    var op := OpOf(n.ledger.sched, act);
    if Try(n.ledger.sched, op).Ok? {
      AftermathKeeps(n.ledger.sched, Ran(n, op), act, Try(n.ledger.sched, op).value.event);
    }
  }

  // The scheduler and the journal after a step.
  lemma NextIs(n: NodeState, act: Act)
    ensures
      var op := OpOf(n.ledger.sched, act);
      if Reaches(n.ledger.sched, act)
      then Next(n, act).ledger == Ran(n, op).ledger && Next(n, act).journal == Ran(n, op).journal
      else Next(n, act).ledger == n.ledger && Next(n, act).journal == n.journal
  {
    if Reaches(n.ledger.sched, act) {
      DoneIs(ThreadGone(n, act), act);
    }
  }

  lemma NextLedger(n: NodeState, act: Act)
    requires Enabled(n, act)
    ensures Next(n, act).ledger == if Reaches(n.ledger.sched, act) then Ran(n, OpOf(n.ledger.sched, act)).ledger else n.ledger
  {
    NextIs(n, act);
  }

  // A run of the node is a run of its scheduler, so identities, versions and
  // terminal records fare as in any such run.
  lemma NodeRunIsChain(ns: seq<NodeState>, acts: seq<Act>)
    requires IsNodeRun(ns, acts) && NodeInv(ns[0])
    ensures Chain(Ledgers(ns))
  {
    var ls := Ledgers(ns);
    forall k | 0 <= k < |acts|
      ensures Grows(ls[k], ls[k + 1])
    {
      RunKeepsInv(ns, acts, k);
      NextLedger(ns[k], acts[k]);
      if Reaches(ns[k].ledger.sched, acts[k]) {
        var op := OpOf(ns[k].ledger.sched, acts[k]);
        assert Step(ls[k], op, ls[k + 1]);
        StepGrows(ls[k], op, ls[k + 1]);
      }
    }
  }

  predicate PlanTaken(n: NodeState, act: Act) {
    act.PlanOk? && AppliesPlan(n.ledger.sched, OpOf(n.ledger.sched, act))
  }

  lemma TakenPlanLeavesIdentity(n: NodeState, act: Act)
    requires Recorded(n.ledger) && Enabled(n, act) && PlanTaken(n, act)
    ensures act.job.missionId in n.ledger.sched.missions
    ensures n.ledger.sched.missions[act.job.missionId].identity == act.job
    ensures act.job.missionId in Next(n, act).ledger.sched.missions
    ensures Next(n, act).ledger.sched.missions[act.job.missionId].identity != act.job
  {
    var op := OpOf(n.ledger.sched, act);
    NextLedger(n, act);
    AppliedPlanShows(n.ledger, op, Ran(n, op).ledger);
  }

  lemma StaleResultIgnored(n: NodeState, act: Act)
    requires Enabled(n, act) && (act.PlanOk? || act.PlanFail?)
    requires act.job.missionId in n.ledger.sched.missions
    requires n.ledger.sched.missions[act.job.missionId].identity != act.job
    ensures Next(n, act).ledger.sched == n.ledger.sched
  {
    NextLedger(n, act);
  }

  // For any one expected identity at most one plan is ever applied, even when
  // several planners were started under it; a later result of any of them,
  // plan or failure, changes no mission.
  lemma OnePlanPerIdentity(ns: seq<NodeState>, acts: seq<Act>, a: nat, b: nat)
    requires IsNodeRun(ns, acts) && NodeInv(ns[0]) && a < b < |acts|
    requires PlanTaken(ns[a], acts[a])
    requires (acts[b].PlanOk? || acts[b].PlanFail?) && acts[b].job == acts[a].job
    ensures ns[b + 1].ledger.sched == ns[b].ledger.sched
  {
    var ls := Ledgers(ns);
    NodeRunIsChain(ns, acts);
    RunKeepsInv(ns, acts, a);
    TakenPlanLeavesIdentity(ns[a], acts[a]);
    IdentityLeft(ls, a, b, acts[a].job);
    StaleResultIgnored(ns[b], acts[b]);
  }
}
