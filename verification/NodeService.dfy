// Every mission is served: in every run of the node the running mission has its
// runner, and a mission being planned has its planner exactly as long as it has
// no tree.
module NodeService {
  import opened Common
  import opened Missions
  import opened MissionHistory
  import opened SingleSlot
  import opened NodeProtocol
  import opened NodeSafety
  import opened Recovery
  import opened SchedulerCases

  // ---- Planners work for missions without a tree.

  // A planner whose identity its mission still has was started for a mission
  // without a tree, and the mission has none yet.
  predicate JobsTreeless(s: Scheduler, jobs: multiset<Identity>) {
    forall j :: j in jobs && j.missionId in s.missions && s.missions[j.missionId].identity == j ==>
      s.missions[j.missionId].bt == ""
  }

  // A mission gets a tree only under a fresh execution; otherwise it keeps the
  // one it has under the identity it has, or has none.
  predicate TreeKept(m: Mission, m': Mission, tokens: set<Id>) {
    || m'.bt == ""
    || (m'.bt == m.bt && m'.identity == m.identity)
    || (m'.identity.executionId.Some? && m'.identity.executionId.value in tokens)
  }

  lemma EndedKeepsTrees(s: Scheduler, at: Id, state: State, message: string, id: Id)
    requires at in s.missions && id in s.missions
    ensures id in Ended(s, at, state, message).sched.missions
    ensures TreeKept(s.missions[id], Ended(s, at, state, message).sched.missions[id], {})
  {
    var done := Ended(s, at, state, message).event.value.mission;
    HandOnPromotes(s.(missions := s.missions[at := done]), false, id);
  }

  lemma CancelKeepsTrees(s: Scheduler, target: Target, reason: string, id: Id)
    requires Live(s, target).Ok? && id in s.missions
    ensures id in Apply(s, CancelOp(target, reason)).missions
    ensures TreeKept(s.missions[id], Apply(s, CancelOp(target, reason)).missions[id], {})
  {
    var at := Live(s, target).value;
    var canceled := s.missions[at].(state := Canceled, statusText := Or(reason, "canceled"));
    HandOnPromotes(s.(missions := s.missions[at := canceled]), false, id);
  }

  lemma PauseKeepsTrees(s: Scheduler, target: Target, reason: string, id: Id)
    requires Live(s, target).Ok? && id in s.missions
    ensures id in Apply(s, PauseOp(target, reason)).missions
    ensures TreeKept(s.missions[id], Apply(s, PauseOp(target, reason)).missions[id], {})
  {
    var at := Live(s, target).value;
    if s.missions[at].state == Paused {
    } else if Repauses(s, at, reason) {
      EndedKeepsTrees(s.(resumedFrom := Without(s.resumedFrom, at)), at, Blocked, REPAUSED + reason, id);
    } else {
      var paused := s.missions[at].(state := Paused, statusText := Or(reason, "paused"));
      HandOnPromotes(s.(missions := s.missions[at := paused]), true, id);
    }
  }

  lemma OperationKeepsTrees(s: Scheduler, op: Op, id: Id)
    requires Fresh(s, op) && id in s.missions
    ensures id in Apply(s, op).missions && TreeKept(s.missions[id], Apply(s, op).missions[id], Tokens(op))
  {
    match op
    case PauseOp(target, reason) =>
      if Live(s, target).Ok? {
        PauseKeepsTrees(s, target, reason, id);
      }
    case CancelOp(target, reason) =>
      if Live(s, target).Ok? {
        CancelKeepsTrees(s, target, reason, id);
      }
    case EndOp(at, state, message, expected) =>
      if MarkTerminal(s, at, state, message, expected).Ok? {
        EndedKeepsTrees(s, at, state, message, id);
      }
    case _ => OthersKeepTrees(s, op, id);
  }

  lemma OthersKeepTrees(s: Scheduler, op: Op, id: Id)
    requires Fresh(s, op) && id in s.missions && !MayHandOn(op)
    ensures id in Apply(s, op).missions && TreeKept(s.missions[id], Apply(s, op).missions[id], Tokens(op))
  {
  }

  lemma OperationKeepsTreeless(s: Scheduler, op: Op, jobs: multiset<Identity>)
    requires Fresh(s, op) && JobsTreeless(s, jobs)
    requires forall j :: j in jobs && j.executionId.Some? ==> j.executionId.value !in Tokens(op)
    ensures JobsTreeless(Apply(s, op), jobs)
  {
    var next := Apply(s, op);
    forall j | j in jobs && j.missionId in next.missions && next.missions[j.missionId].identity == j
      ensures next.missions[j.missionId].bt == ""
    {
      if j.missionId in s.missions {
        OperationKeepsTrees(s, op, j.missionId);
      } else {
        OnlySubmitAdds(s, op, j.missionId);
      }
    }
  }

  // Every planner a step starts is for a mission without a tree.
  predicate JobsFrom(s: Scheduler, jobs: multiset<Identity>, jobs': multiset<Identity>) {
    forall j :: j in jobs' ==> j in jobs || (j.missionId in s.missions ==>
      s.missions[j.missionId].identity == j && s.missions[j.missionId].bt == "")
  }

  lemma NextReadyFrom(n: NodeState)
    requires SlotInv(n.ledger.sched)
    ensures JobsFrom(n.ledger.sched, n.jobs, StartNextReady(n).jobs)
  {
  }

  lemma StopFrom(n: NodeState, found: Attempt<Id>)
    requires SlotInv(n.ledger.sched)
    ensures JobsFrom(n.ledger.sched, n.jobs, StartNextReady(SetCancelOf(n, found)).jobs)
    ensures SetCancelOf(n, found).jobs == n.jobs && SetCancelOf(n, found).ledger == n.ledger
  {
    assert SetCancelOf(n, found).jobs == n.jobs && SetCancelOf(n, found).ledger == n.ledger;
    NextReadyFrom(SetCancelOf(n, found));
  }

  // The event's mission, as far as it is one of the scheduler's.
  predicate Shows(s: Scheduler, e: Option<Event>) {
    e.Some? ==>
      var m := e.value.mission;
      m.identity.missionId in s.missions ==> s.missions[m.identity.missionId] == m
  }

  lemma AftermathPlans(s: Scheduler, n: NodeState, act: Act, e: Option<Event>)
    requires SlotInv(n.ledger.sched) && Shows(n.ledger.sched, e)
    requires act.TriggerReplan? && e.Some? ==> e.value.mission.bt == ""
    ensures JobsFrom(n.ledger.sched, n.jobs, Aftermath(s, n, act, e).jobs)
  {
    match act
    case TriggerReplan(_, _, _) => ReplanFrom(s, n, e);
    case CancelAct(_, _) => HandOnFrom(s, n, act, e);
    case PauseAct(_, _) => HandOnFrom(s, n, act, e);
    case TriggerBlock(_) => HandOnFrom(s, n, act, e);
    case PlanFail(_, _) => HandOnFrom(s, n, act, e);
    case RunnerEnd(_, _) => HandOnFrom(s, n, act, e);
    case _ => StartFrom(s, n, act, e);
  }

  lemma HandOnFrom(s: Scheduler, n: NodeState, act: Act, e: Option<Event>)
    requires SlotInv(n.ledger.sched)
    requires act.CancelAct? || act.PauseAct? || act.TriggerBlock? || act.PlanFail? || act.RunnerEnd?
    ensures JobsFrom(n.ledger.sched, n.jobs, Aftermath(s, n, act, e).jobs)
  {
    if act.PlanFail? || act.RunnerEnd? {
      NextReadyFrom(n);
    } else {
      var found := Resolve(s, if act.TriggerBlock? then Current else act.target);
      StopFrom(n, found);
      assert Aftermath(s, n, act, e) == StartNextReady(SetCancelOf(n, found));
    }
  }

  lemma ReplanFrom(s: Scheduler, n: NodeState, e: Option<Event>)
    requires SlotInv(n.ledger.sched) && Shows(n.ledger.sched, e) && (e.Some? ==> e.value.mission.bt == "")
    ensures
      var c := SetCancelOf(n, Resolve(s, Current));
      JobsFrom(n.ledger.sched, n.jobs, (if e.Some? then PlanAsync(c, e.value.mission.identity) else c).jobs)
  {
    StopFrom(n, Resolve(s, Current));
  }

  lemma StartFrom(s: Scheduler, n: NodeState, act: Act, e: Option<Event>)
    requires Shows(n.ledger.sched, e)
    requires act.SubmitAct? || act.TriggerSubmit? || act.PlanOk? || act.ProgressAct? || act.ResumeAct? || act.ReprioritizeAct?
    ensures JobsFrom(n.ledger.sched, n.jobs, Aftermath(s, n, act, e).jobs)
  {
  }

  lemma EventIsShown(s: Scheduler, op: Op)
    requires SlotInv(s) && Fresh(s, op)
    ensures Shows(Apply(s, op), EventOf(s, op))
    ensures op.ReplanOp? && EventOf(s, op).Some? ==> EventOf(s, op).value.mission.bt == ""
  {
    if EventOf(s, op).Some? {
      PublishedIsSubject(s, op);
    }
  }

  lemma DoneKeepsTreeless(n: NodeState, act: Act)
    requires SlotInv(n.ledger.sched) && Reaches(n.ledger.sched, act) && Try(n.ledger.sched, OpOf(n.ledger.sched, act)).Ok?
    requires Fresh(n.ledger.sched, OpOf(n.ledger.sched, act)) && SlotInv(Apply(n.ledger.sched, OpOf(n.ledger.sched, act)))
    requires JobsTreeless(Apply(n.ledger.sched, OpOf(n.ledger.sched, act)), n.jobs)
    ensures JobsTreeless(Done(n, act).ledger.sched, Done(n, act).jobs)
  {
    var s := n.ledger.sched;
    var op := OpOf(s, act);
    EventIsShown(s, op);
    AftermathKeeps(s, Ran(n, op), act, EventOf(s, op));
    AftermathPlans(s, Ran(n, op), act, EventOf(s, op));
  }

  lemma StepKeepsTreeless(n: NodeState, act: Act)
    requires NodeInv(n) && Enabled(n, act) && JobsTreeless(n.ledger.sched, n.jobs)
    ensures JobsTreeless(Next(n, act).ledger.sched, Next(n, act).jobs)
  {
    var s, gone := n.ledger.sched, ThreadGone(n, act);
    assert gone.ledger == n.ledger && gone.jobs <= n.jobs;
    if Reaches(s, act) {
      var op := OpOf(s, act);
      OperationIsFresh(n, act);
      OperationKeepsTreeless(s, op, gone.jobs);
      if Try(s, op).Ok? {
        NextKeepsInv(n, act);
        NextLedger(n, act);
        DoneKeepsTreeless(gone, act);
      }
    }
  }

  lemma {:induction false} RunKeepsTreeless(ns: seq<NodeState>, acts: seq<Act>, k: nat)
    requires IsNodeRun(ns, acts) && k <= |acts| && NodeInv(ns[0]) && JobsTreeless(ns[0].ledger.sched, ns[0].jobs)
    ensures JobsTreeless(ns[k].ledger.sched, ns[k].jobs)
    decreases k
  {
    if k > 0 {
      RunKeepsTreeless(ns, acts, k - 1);
      assert NodeInv(ns[k - 1]) by {
        RunKeepsInv(ns, acts, k - 1);
      }
      StepKeepsTreeless(ns[k - 1], acts[k - 1]);
    }
  }

  // In every run of the node: a running mission has a runner in flight with
  // exactly its identity, and a mission being planned has a planner in flight
  // with its identity if and only if it has no tree yet. One that kept an old
  // tree through the queue waits for a planner that is not there.
  lemma EveryMissionIsServed(ns: seq<NodeState>, acts: seq<Act>, k: nat, id: Id)
    requires IsNodeRun(ns, acts) && k <= |acts| && NodeInv(ns[0]) && JobsTreeless(ns[0].ledger.sched, ns[0].jobs)
    requires id in ns[k].ledger.sched.missions
    ensures
      var m := ns[k].ledger.sched.missions[id];
      && (m.state == Running ==> m.identity in ns[k].runners && m.identity.executionId.Some?)
      && (m.state == Planning ==> (m.identity in ns[k].jobs <==> m.bt == ""))
  {
    RunKeepsInv(ns, acts, k);
    RunKeepsTreeless(ns, acts, k);
    var n := ns[k];
    var m := n.ledger.sched.missions[id];
    assert m.identity.missionId == id;
    if m.state == Running {
      assert RunsAs(n.ledger.sched, m.identity);
      assert Tracked(n, m.identity, None);
    }
    if IsReady(n.ledger.sched, id) {
      assert ReadyAs(n.ledger.sched, m.identity);
    }
  }

  // ---- All that every step keeps, of one node state.

  ghost predicate Safe(n: NodeState) {
    NodeInv(n) && JobsTreeless(n.ledger.sched, n.jobs) && JournalInv(n.ledger.sched, n.journal)
  }

  lemma StepStaysSafe(n: NodeState, act: Act)
    requires Safe(n) && Enabled(n, act)
    ensures Safe(Next(n, act)) && SlotInv(n.ledger.sched) && Fresh(n.ledger.sched, OpOf(n.ledger.sched, act))
  {
    OperationIsFresh(n, act);
    NextKeepsInv(n, act);
    StepKeepsTreeless(n, act);
    StepKeepsJournal(n, act);
  }

  lemma BootedIsSafe(journal: seq<Mission>, used: set<Id>)
    requires Covers(used, journal)
    ensures Safe(Boot(journal, used))
  {
    BootIsSafe(journal, used);
  }

  // What is known of any mission of a safe node: who works for it, that at most
  // the active one is worked on, and that a crash now would lose none.
  lemma SafeMissionIsServed(n: NodeState, id: Id)
    requires Safe(n) && id in n.ledger.sched.missions
    ensures
      var m := n.ledger.sched.missions[id];
      && (m.state == Running ==> m.identity in n.runners)
      && (m.state == Planning ==> (m.identity in n.jobs <==> m.bt == ""))
      && (m.state == Planning || m.state == Running ==> n.ledger.sched.active == Some(id))
      && id in Recovered(n.journal)
      && (Terminal(m.state) ==> Recovered(n.journal)[id] == m)
  {
    var m := n.ledger.sched.missions[id];
    assert m.identity.missionId == id;
    assert HoldsSlot(n.ledger.sched, id) <==> m.state == Planning || m.state == Running;
    assert RunsAs(n.ledger.sched, m.identity) <==> m.state == Running;
    if IsReady(n.ledger.sched, id) {
      assert ReadyAs(n.ledger.sched, m.identity);
    }
  }

  // ---- A run that ends with a mission nobody plans and nobody runs.

  lemma NothingBooted()
    ensures NodeInv(Boot([], {})) && JobsTreeless(Boot([], {}).ledger.sched, Boot([], {}).jobs)
    ensures Boot([], {}).ledger == Ledger(EMPTY, {})
  {
    BootIsSafe([], {});
  }

  // One more step of a run, seen from its scheduler.
  lemma OneMore(ns: seq<NodeState>, acts: seq<Act>, act: Act, before: Ledger) returns (ns': seq<NodeState>)
    requires IsNodeRun(ns, acts) && ns[|acts|].ledger == before && Enabled(ns[|acts|], act)
    ensures IsNodeRun(ns', acts + [act]) && ns'[0] == ns[0]
    ensures Reaches(before.sched, act) ==>
      var op := OpOf(before.sched, act);
      ns'[|acts| + 1].ledger == Ledger(Apply(before.sched, op), before.used + Tokens(op))
  {
    RunExtends(ns, acts, act);
    ns' := ns + [Next(ns[|acts|], act)];
    NextLedger(ns[|acts|], act);
  }

  const PLANNED := Task(1, 1, Some(3), Running, "running", "plan")

  const FIRST := Task(1, 0, None, Planning, "planning", "")
  const QUEUED_AGAIN := FIRST_STOPPED.(state := Queued, statusText := "queued")

  function Single(m: Mission): Scheduler {
    Scheduler(map[1 := m], Some(1), map[])
  }

  lemma SubmitTakes()
    ensures Apply(EMPTY, SubmitOp(ASK, 1)) == Single(FIRST)
  {
    assert Strip("task") == "task";
  }

  lemma RunSubmits() returns (ns: seq<NodeState>, acts: seq<Act>)
    ensures IsNodeRun(ns, acts) && ns[0] == Boot([], {})
    ensures ns[|acts|].ledger == Ledger(Single(FIRST), {1}) && FIRST.identity in ns[|acts|].jobs
  {
    NothingBooted();
    SubmitTakes();
    ns := OneMore([Boot([], {})], [], SubmitAct(ASK, 1), Ledger(EMPTY, {}));
    acts := [SubmitAct(ASK, 1)];
    assert [] + acts == acts;
    EveryMissionIsServed(ns, acts, 1, 1);
  }

  const GOT := PlanOk(FIRST.identity, "plan", "", 3)

  lemma PlanTakes()
    ensures Apply(Single(FIRST), OpOf(Single(FIRST), GOT)) == Single(PLANNED)
  {
    assert Single(FIRST).missions[1 := PLANNED] == Single(PLANNED).missions;
  }

  // Mission 1 has its plan, as the node got it from its planner.
  lemma RunPlans() returns (ns: seq<NodeState>, acts: seq<Act>)
    ensures IsNodeRun(ns, acts) && ns[0] == Boot([], {})
    ensures ns[|acts|].ledger == Ledger(Single(PLANNED), {1, 3})
  {
    ns, acts := RunSubmits();
    PlanTakes();
    ns := OneMore(ns, acts, GOT, Ledger(Single(FIRST), {1}));
    acts := acts + [GOT];
  }

  lemma RunSubmitsAgain() returns (ns: seq<NodeState>, acts: seq<Act>)
    ensures IsNodeRun(ns, acts) && ns[0] == Boot([], {})
    ensures ns[|acts|].ledger == Ledger(Pair(PLANNED, Task(2, 0, None, Queued, "queued", ""), 1), {1, 2, 3})
  {
    ns, acts := RunPlans();
    SubmitSecond(Single(PLANNED), PLANNED);
    ns := OneMore(ns, acts, SubmitAct(ASK, 2), Ledger(Single(PLANNED), {1, 3}));
    acts := acts + [SubmitAct(ASK, 2)];
  }

  lemma RunPauses() returns (ns: seq<NodeState>, acts: seq<Act>)
    ensures IsNodeRun(ns, acts) && ns[0] == Boot([], {})
    ensures ns[|acts|].ledger == Ledger(Pair(FIRST_STOPPED, SECOND_PLANNING, 2), {1, 2, 3})
  {
    ns, acts := RunSubmitsAgain();
    PauseFirst(PLANNED);
    ns := OneMore(ns, acts, PauseAct(Named(1), "hold"), ns[|acts|].ledger);
    acts := acts + [PauseAct(Named(1), "hold")];
  }

  // The second mission has the slot, and the first comes back into the queue with
  // its tree.
  lemma RunQueues() returns (ns: seq<NodeState>, acts: seq<Act>)
    ensures IsNodeRun(ns, acts) && ns[0] == Boot([], {})
    ensures ns[|acts|].ledger == Ledger(Pair(QUEUED_AGAIN, SECOND_PLANNING, 2), {1, 2, 3, 4})
  {
    ns, acts := RunPauses();
    ResumedIntoQueue(SECOND_PLANNING);
    ns := OneMore(ns, acts, ResumeAct(Named(1), "", 4), ns[|acts|].ledger);
    acts := acts + [ResumeAct(Named(1), "", 4)];
  }

  // The active mission waits in PLANNING with its old tree; no planner is in
  // flight for it, and by the theorem above none is at any later point either, as
  // long as it is being planned with that tree.
  lemma PromotedIsNotServed() returns (ns: seq<NodeState>, acts: seq<Act>)
    ensures IsNodeRun(ns, acts) && ns[0] == Boot([], {})
    ensures
      var s := ns[|acts|].ledger.sched;
      && s.active == Some(1) && InState(s.missions, Planning, 1) && s.missions[1].bt == "plan"
      && s.missions[1].identity !in ns[|acts|].jobs
  {
    ns, acts := RunQueues();
    CancelPromotesFirst(QUEUED_AGAIN);
    ns := OneMore(ns, acts, CancelAct(Named(2), ""), ns[|acts|].ledger);
    acts := acts + [CancelAct(Named(2), "")];
    NothingBooted();
    EveryMissionIsServed(ns, acts, |acts|, 1);
  }
}
