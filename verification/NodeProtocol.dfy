// The node around the scheduler: planner threads and runner threads whose late
// results are filtered by identity. Every handler, thread end and trigger is
// one atomic step.
module NodeProtocol {
  import opened Common
  import opened Goals
  import opened Missions
  import opened MissionHistory
  import BT = BehaviourTree

  datatype NodeState = NodeState(
    ledger: Ledger,
    jobs: multiset<Identity>,       // planner threads, by the identity they expect
    runners: set<Identity>,         // runner threads, by the identity they run under
    cancelEvents: map<Id, bool>,    // runner key -> is its cancel event set?
    cancelKeys: map<Id, Id>,        // mission -> key of its latest runner
    journal: seq<Mission>)          // the mission of every published event

  // What a runner makes of its execution and of the final goal check.
  datatype RunOutcome =
    | Escalate(message: string)
    | Achieved(message: string)
    | NotAchieved(message: string)
    | DeadEnd(message: string)

  const AWAITING := "awaiting Omega decision: "

  // _run_mission, from the execution's result on.
  function OutcomeOf(execution: BT.ExecutionResult, check: TriState, resolved: TriState, text: string): RunOutcome {
    if execution.blocked then
      if execution.needsDecision then Escalate(AWAITING + text) else DeadEnd(text)
    else if !execution.success then NotAchieved(text)
    else match check
      case TrueState => Achieved(text)
      case FalseState => NotAchieved(text)
      case UnknownState =>
        match resolved
        case TrueState => Achieved(text)
        case FalseState => NotAchieved(text)
        case UnknownState => Escalate(AWAITING + text)
  }

  datatype Act =
    | SubmitAct(req: Request, token: Id)
    | PlanOk(job: Identity, bt: string, goalSpec: string, token: Id)
    | PlanFail(job: Identity, message: string)
    | RunnerEnd(runner: Identity, outcome: RunOutcome)
    | ProgressAct(runner: Identity, activeNode: string, progress: real)
    | CancelAct(target: Target, reason: string)
    | PauseAct(target: Target, reason: string)
    | ResumeAct(target: Target, reason: string, token: Id)
    | ReprioritizeAct(target: Target, priority: int, preempt: bool, reason: string)
    | TriggerBlock(message: string)
    | TriggerReplan(message: string, wantId: Option<Id>, wantVersion: Option<int>)
    | TriggerSubmit(req: Request, token: Id)

  // ---- The steps.

  ghost function Published(s: Scheduler, op: Op): seq<Mission> {
    if EventOf(s, op).Some? then [EventOf(s, op).value.mission] else []
  }

  // One scheduler operation, its event journaled.
  ghost function Ran(n: NodeState, op: Op): NodeState {
    n.(ledger := Ledger(Apply(n.ledger.sched, op), n.ledger.used + Tokens(op)),
       journal := n.journal + Published(n.ledger.sched, op))
  }

  function PlanAsync(n: NodeState, i: Identity): NodeState {
    n.(jobs := n.jobs + multiset{i})
  }

  function StartRunner(n: NodeState, i: Identity): NodeState {
    match i.executionId
    case None => n
    case Some(key) =>
      n.(runners := n.runners + {i}, cancelEvents := n.cancelEvents[key := false],
         cancelKeys := n.cancelKeys[i.missionId := key])
  }

  predicate IsReady(s: Scheduler, id: Id) {
    id in s.missions && s.missions[id].state == Planning && s.missions[id].bt == ""
  }

  // Only the active mission can be ready, so there is no choice to make.
  function StartNextReady(n: NodeState): NodeState {
    var s := n.ledger.sched;
    if s.active.Some? && IsReady(s, s.active.value) then PlanAsync(n, s.missions[s.active.value].identity) else n
  }

  // Set the cancel event of a mission's latest runner, if it is still around.
  function SetCancel(n: NodeState, id: Id): NodeState {
    if id in n.cancelKeys && n.cancelKeys[id] in n.cancelEvents
    then n.(cancelEvents := n.cancelEvents[n.cancelKeys[id] := true])
    else n
  }

  function EndOf(runner: Identity, outcome: RunOutcome): Op {
    match outcome
    case Escalate(message) => PauseOp(Named(runner.missionId), message)
    case Achieved(message) => EndOp(runner.missionId, Succeeded, message, None)
    case NotAchieved(message) => EndOp(runner.missionId, Failed, message, None)
    case DeadEnd(message) => EndOp(runner.missionId, Blocked, message, None)
  }

  // The runner thread is gone, and with it its cancel event.
  function Forget(n: NodeState, runner: Identity): NodeState {
    match runner.executionId
    case None => n.(runners := n.runners - {runner})
    case Some(key) =>
      n.(runners := n.runners - {runner},
         cancelEvents := n.cancelEvents - {key},
         cancelKeys := if runner.missionId in n.cancelKeys && n.cancelKeys[runner.missionId] == key
                       then n.cancelKeys - {runner.missionId} else n.cancelKeys)
  }

  predicate HasActive(s: Scheduler) {
    s.active.Some? && s.active.value in s.missions && !Terminal(s.missions[s.active.value].state)
  }

  predicate Matches(m: Mission, wantId: Option<Id>, wantVersion: Option<int>) {
    && (wantId.Some? ==> wantId.value == m.identity.missionId)
    && (wantVersion.Some? ==> wantVersion.value == m.identity.planVersion)
  }

  function OpOf(s: Scheduler, act: Act): Op {
    match act
    case SubmitAct(req, token) => SubmitOp(req, token)
    case TriggerSubmit(req, token) => SubmitOp(req, token)
    case PlanOk(job, bt, goalSpec, token) => SetPlanOp(job.missionId, bt, goalSpec, Some(job), token)
    case PlanFail(job, message) => EndOp(job.missionId, Failed, message, Some(job))
    case RunnerEnd(runner, outcome) => EndOf(runner, outcome)
    case ProgressAct(runner, activeNode, progress) =>
      StatusOp(runner.missionId, activeNode, "running", Some(progress), Some(runner))
    case CancelAct(target, reason) => CancelOp(target, reason)
    case PauseAct(target, reason) => PauseOp(target, reason)
    case ResumeAct(target, reason, token) => ResumeOp(target, reason, token)
    case ReprioritizeAct(target, priority, preempt, reason) =>
      ReprioritizeOp(target, priority, preempt, Or(reason, "reprioritized"))
    case TriggerBlock(message) => EndOp(if s.active.Some? then s.active.value else 0, Blocked, message, None)
    case TriggerReplan(message, _, _) => ReplanOp(Current, message)
  }

  // Does the step get as far as its scheduler operation?
  predicate Reaches(s: Scheduler, act: Act) {
    match act
    case RunnerEnd(runner, _) => Accepts(s, runner)
    case TriggerBlock(_) => s.active.Some?
    case TriggerReplan(_, wantId, wantVersion) =>
      s.active.Some? && s.active.value in s.missions && Matches(s.missions[s.active.value], wantId, wantVersion)
    case TriggerSubmit(_, _) => !HasActive(s)
    case _ => true
  }

  // The thread that takes the step is done, whatever comes of it.
  function ThreadGone(n: NodeState, act: Act): NodeState {
    match act
    case PlanOk(job, _, _, _) => n.(jobs := n.jobs - multiset{job})
    case PlanFail(job, _) => n.(jobs := n.jobs - multiset{job})
    case _ => n
  }

  // What the step starts and cancels once its operation succeeded with event e;
  // s is the scheduler before the operation, n the node after it.
  function Aftermath(s: Scheduler, n: NodeState, act: Act, e: Option<Event>): NodeState {
    match act
    case PlanOk(_, _, _, _) => if e.Some? then StartRunner(n, e.value.mission.identity) else n
    case PlanFail(_, _) => StartNextReady(n)
    case RunnerEnd(_, _) => StartNextReady(n)
    case CancelAct(target, _) => StartNextReady(SetCancelOf(n, Resolve(s, target)))
    case PauseAct(target, _) => StartNextReady(SetCancelOf(n, Resolve(s, target)))
    case TriggerBlock(_) => StartNextReady(SetCancelOf(n, Resolve(s, Current)))
    case TriggerReplan(_, _, _) =>
      var c := SetCancelOf(n, Resolve(s, Current));
      if e.Some? then PlanAsync(c, e.value.mission.identity) else c
    case ResumeAct(_, _, _) => if e.Some? then Launch(n, e.value.mission) else n
    case ReprioritizeAct(_, _, _, _) =>
      if e.None? then n
      else
        var c := if e.value.preempted.Some? then SetCancel(n, e.value.preempted.value) else n;
        if IsPlannable(e.value.mission) then PlanAsync(c, e.value.mission.identity) else c
    case SubmitAct(_, _) => if e.Some? && IsPlannable(e.value.mission) then PlanAsync(n, e.value.mission.identity) else n
    case TriggerSubmit(_, _) => if e.Some? && IsPlannable(e.value.mission) then PlanAsync(n, e.value.mission.identity) else n
    case ProgressAct(_, _, _) => n
  }

  predicate IsPlannable(m: Mission) {
    m.state == Planning && m.bt == ""
  }

  function Launch(n: NodeState, m: Mission): NodeState {
    if m.state == Running && m.bt != "" then StartRunner(n, m.identity)
    else if IsPlannable(m) then PlanAsync(n, m.identity)
    else n
  }

  function SetCancelOf(n: NodeState, found: Attempt<Id>): NodeState {
    if found.Ok? then SetCancel(n, found.value) else n
  }

  ghost function Done(n: NodeState, act: Act): NodeState {
    var s := n.ledger.sched;
    if !Reaches(s, act) then n
    else
      var op := OpOf(s, act);
      match Try(s, op)
      case Refused(_) => Ran(n, op)
      case Ok(change) => Aftermath(s, Ran(n, op), act, change.event)
  }

  ghost function Next(n: NodeState, act: Act): NodeState {
    var after := Done(ThreadGone(n, act), act);
    if act.RunnerEnd? then Forget(after, act.runner) else after
  }

  // When a step can happen. A plan result finds its own mission in PLANNING, if
  // that mission still has the identity the planner started from; a finished
  // plan carries a tree.
  predicate Enabled(n: NodeState, act: Act) {
    var s := n.ledger.sched;
    && (forall t :: t in Tokens(OpOf(s, act)) ==> t !in n.ledger.used)
    && match act {
         case PlanOk(job, bt, _, _) =>
           && job in n.jobs && bt != ""
           && (job.missionId in s.missions && s.missions[job.missionId].identity == job ==>
                 s.missions[job.missionId].state == Planning)
         case PlanFail(job, _) => job in n.jobs
         case RunnerEnd(runner, _) => runner in n.runners
         case ProgressAct(runner, _, _) => runner in n.runners
         case _ => true
       }
  }

  ghost predicate IsNodeRun(ns: seq<NodeState>, acts: seq<Act>) {
    && |ns| == |acts| + 1
    && forall i :: 0 <= i < |acts| ==> Enabled(ns[i], acts[i]) && ns[i + 1] == Next(ns[i], acts[i])
  }

  lemma RunExtends(ns: seq<NodeState>, acts: seq<Act>, act: Act)
    requires IsNodeRun(ns, acts) && Enabled(ns[|acts|], act)
    ensures IsNodeRun(ns + [Next(ns[|acts|], act)], acts + [act])
  {
    var ns', acts' := ns + [Next(ns[|acts|], act)], acts + [act];
    forall i | 0 <= i < |acts'|
      ensures Enabled(ns'[i], acts'[i]) && ns'[i + 1] == Next(ns'[i], acts'[i])
    {
      if i < |acts| {
        assert ns'[i] == ns[i] && ns'[i + 1] == ns[i + 1] && acts'[i] == acts[i];
      }
    }
  }
}
