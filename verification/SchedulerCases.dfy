// Concrete histories in which the scheduler does less than one might expect.
module SchedulerCases {
  import opened Common
  import opened Missions
  import opened SingleSlot

  const ASK := Request("task", "", "", "", 5, true, "")

  ghost function Do(s: Scheduler, ops: seq<Op>): Scheduler {
    if ops == [] then s else Apply(Do(s, ops[..|ops| - 1]), ops[|ops| - 1])
  }

  lemma DoNext(s: Scheduler, ops: seq<Op>, op: Op)
    ensures Do(s, ops + [op]) == Apply(Do(s, ops), op)
  {
    assert (ops + [op])[..|ops|] == ops;
  }

  function Task(id: Id, version: nat, execution: Option<Id>, state: State, status: string, bt: string): Mission {
    Mission(Identity(id, version, execution, "", "", ""), "task", 5, true, "", state, "task", "", status, 0.0, bt, "", "")
  }

  function Pair(first: Mission, second: Mission, active: Id): Scheduler {
    Scheduler(map[1 := first, 2 := second], Some(active), map[])
  }

  // Two missions submitted, the first one paused before it had a plan: the
  // second has the slot.
  const UNPLANNED := [SubmitOp(ASK, 1), SubmitOp(ASK, 2), PauseOp(Named(1), "hold")]

  const FIRST_UNPLANNED := Task(1, 0, None, Paused, "hold", "")
  const SECOND_PLANNING := Task(2, 0, None, Planning, "planning", "")

  lemma SubmitFirst()
    ensures Do(EMPTY, UNPLANNED[..1]) == Scheduler(map[1 := Task(1, 0, None, Planning, "planning", "")], Some(1), map[])
  {
    assert Strip("task") == "task";
    assert UNPLANNED[..1] == [] + [SubmitOp(ASK, 1)];
    DoNext(EMPTY, [], SubmitOp(ASK, 1));
  }

  lemma SubmitSecond(s: Scheduler, first: Mission)
    requires s == Scheduler(map[1 := first], Some(1), map[]) && first.state != Paused
    ensures Apply(s, SubmitOp(ASK, 2)) == Pair(first, Task(2, 0, None, Queued, "queued", ""), 1)
  {
    assert Strip("task") == "task";
  }

  lemma PauseFirst(first: Mission)
    requires first.state != Paused && !Terminal(first.state)
    ensures Apply(Pair(first, Task(2, 0, None, Queued, "queued", ""), 1), PauseOp(Named(1), "hold"))
         == Pair(first.(state := Paused, statusText := "hold"), SECOND_PLANNING, 2)
  {
    var s := Pair(first, Task(2, 0, None, Queued, "queued", ""), 1);
    var mid := s.missions[1 := first.(state := Paused, statusText := "hold")];
    assert QueuedIds(mid) == {2};
    assert Promoted(mid, 2) == Pair(first.(state := Paused, statusText := "hold"), SECOND_PLANNING, 2).missions;
  }

  lemma UnplannedReached()
    ensures Do(EMPTY, UNPLANNED) == Pair(FIRST_UNPLANNED, SECOND_PLANNING, 2)
  {
    SubmitFirst();
    assert UNPLANNED[..2] == UNPLANNED[..1] + [SubmitOp(ASK, 2)];
    DoNext(EMPTY, UNPLANNED[..1], SubmitOp(ASK, 2));
    SubmitSecond(Do(EMPTY, UNPLANNED[..1]), Task(1, 0, None, Planning, "planning", ""));
    assert UNPLANNED == UNPLANNED[..2] + [PauseOp(Named(1), "hold")];
    DoNext(EMPTY, UNPLANNED[..2], PauseOp(Named(1), "hold"));
    PauseFirst(Task(1, 0, None, Planning, "planning", ""));
  }

  // The plan of a paused mission arrives late and is applied, because pausing
  // keeps the identity and set_plan looks at no state: two missions hold the slot.
  lemma LatePlanBreaksSingleSlot()
    ensures
      var s := Do(EMPTY, UNPLANNED);
      var next := Apply(s, SetPlanOp(1, "plan", "", Some(FIRST_UNPLANNED.identity), 3));
      SlotInv(s) && HoldsSlot(next, 1) && HoldsSlot(next, 2) && !SlotInv(next)
  {
    UnplannedReached();
    LatePlanApplied();
  }

  lemma LatePlanApplied()
    ensures
      var s := Pair(FIRST_UNPLANNED, SECOND_PLANNING, 2);
      var next := Apply(s, SetPlanOp(1, "plan", "", Some(FIRST_UNPLANNED.identity), 3));
      SlotInv(s) && HoldsSlot(next, 1) && HoldsSlot(next, 2) && !SlotInv(next)
  {
    var next := Apply(Pair(FIRST_UNPLANNED, SECOND_PLANNING, 2),
                      SetPlanOp(1, "plan", "", Some(FIRST_UNPLANNED.identity), 3));
    assert HoldsSlot(next, 1) && HoldsSlot(next, 2);
  }

  // The paused mission was resumed into the queue before its plan arrived.
  const REQUEUED := UNPLANNED + [ResumeOp(Named(1), "go on", 3)]

  const FIRST_REQUEUED := Task(1, 0, None, Queued, "go on", "")

  lemma RequeuedReached()
    ensures Do(EMPTY, REQUEUED) == Pair(FIRST_REQUEUED, SECOND_PLANNING, 2)
  {
    UnplannedReached();
    DoNext(EMPTY, UNPLANNED, ResumeOp(Named(1), "go on", 3));
    var s := Pair(FIRST_UNPLANNED, SECOND_PLANNING, 2);
    assert Apply(s, ResumeOp(Named(1), "go on", 3)) == Pair(FIRST_REQUEUED, SECOND_PLANNING, 2);
  }

  // A queued mission keeps its identity as well: its late plan is applied while
  // another mission holds the slot.
  lemma LatePlanLeavesQueue()
    ensures
      var s := Do(EMPTY, REQUEUED);
      var next := Apply(s, SetPlanOp(1, "plan", "", Some(FIRST_REQUEUED.identity), 4));
      SlotInv(s) && HoldsSlot(next, 1) && HoldsSlot(next, 2) && !SlotInv(next)
  {
    RequeuedReached();
    LateQueuedPlanApplied();
  }

  lemma LateQueuedPlanApplied()
    ensures
      var s := Pair(FIRST_REQUEUED, SECOND_PLANNING, 2);
      var next := Apply(s, SetPlanOp(1, "plan", "", Some(FIRST_REQUEUED.identity), 4));
      SlotInv(s) && HoldsSlot(next, 1) && HoldsSlot(next, 2) && !SlotInv(next)
  {
    var next := Apply(Pair(FIRST_REQUEUED, SECOND_PLANNING, 2),
                      SetPlanOp(1, "plan", "", Some(FIRST_REQUEUED.identity), 4));
    assert HoldsSlot(next, 1) && HoldsSlot(next, 2);
  }

  // As before, but the first mission was running when it was paused.
  const STOPPED := [SubmitOp(ASK, 1), SetPlanOp(1, "plan", "", None, 3), SubmitOp(ASK, 2), PauseOp(Named(1), "hold")]

  const FIRST_STOPPED := Task(1, 1, Some(3), Paused, "hold", "plan")

  lemma StoppedReached()
    ensures Do(EMPTY, STOPPED) == Pair(FIRST_STOPPED, SECOND_PLANNING, 2)
  {
    SubmitFirst();
    assert STOPPED[..1] == UNPLANNED[..1];
    var running := Task(1, 1, Some(3), Running, "running", "plan");
    assert STOPPED[..2] == STOPPED[..1] + [SetPlanOp(1, "plan", "", None, 3)];
    DoNext(EMPTY, STOPPED[..1], SetPlanOp(1, "plan", "", None, 3));
    assert Do(EMPTY, STOPPED[..2]) == Scheduler(map[1 := running], Some(1), map[]);
    assert STOPPED[..3] == STOPPED[..2] + [SubmitOp(ASK, 2)];
    DoNext(EMPTY, STOPPED[..2], SubmitOp(ASK, 2));
    SubmitSecond(Do(EMPTY, STOPPED[..2]), running);
    assert STOPPED == STOPPED[..3] + [PauseOp(Named(1), "hold")];
    DoNext(EMPTY, STOPPED[..3], PauseOp(Named(1), "hold"));
    PauseFirst(running);
  }

  lemma ResumedIntoQueue(second: Mission)
    requires second.identity.missionId == 2
    ensures Apply(Pair(FIRST_STOPPED, second, 2), ResumeOp(Named(1), "", 4))
         == Pair(FIRST_STOPPED.(state := Queued, statusText := "queued"), second, 2)
  {
    var s := Pair(FIRST_STOPPED, second, 2);
    var queued := FIRST_STOPPED.(state := Queued, statusText := "queued");
    assert Without(s.resumedFrom, 1) == map[];
    assert s.missions[1 := queued] == Pair(queued, second, 2).missions;
  }

  // Resumed into the queue the first mission keeps its identity, so a late result
  // of the run that the pause stopped is accepted again.
  lemma QueuedMissionAcceptsStoppedRun()
    ensures
      var s := Do(EMPTY, STOPPED);
      var next := Apply(s, ResumeOp(Named(1), "", 4));
      && InState(next.missions, Queued, 1)
      && !Accepts(s, FIRST_STOPPED.identity)
      && Accepts(next, FIRST_STOPPED.identity)
  {
    StoppedReached();
    ResumedIntoQueue(SECOND_PLANNING);
  }

  // And it keeps its plan: when it is promoted it waits in PLANNING with a plan,
  // which no planner thread is started for.
  lemma PromotedWithOldPlan()
    ensures
      var next := Apply(Apply(Do(EMPTY, STOPPED), ResumeOp(Named(1), "", 4)), CancelOp(Named(2), ""));
      next.active == Some(1) && InState(next.missions, Planning, 1) && next.missions[1].bt == "plan"
  {
    StoppedReached();
    ResumedIntoQueue(SECOND_PLANNING);
    CancelPromotesFirst(FIRST_STOPPED.(state := Queued, statusText := "queued"));
  }

  lemma CancelPromotesFirst(queued: Mission)
    requires queued.state == Queued
    ensures
      var next := Apply(Pair(queued, SECOND_PLANNING, 2), CancelOp(Named(2), ""));
      next.active == Some(1) && InState(next.missions, Planning, 1) && next.missions[1].bt == queued.bt
  {
    var mid := Pair(queued, SECOND_PLANNING, 2).missions[2 := SECOND_PLANNING.(state := Canceled, statusText := "canceled")];
    assert QueuedIds(mid) == {1};
  }

  // A mission may also queue behind a paused one: a paused mission lets
  // submissions pass, but not a resume.
  lemma QueuedBehindPaused()
    ensures
      var next := Apply(Apply(Do(EMPTY, STOPPED), PauseOp(Named(2), "hold")), ResumeOp(Named(1), "", 4));
      && SlotInv(next)
      && next.active == Some(2) && InState(next.missions, Paused, 2)
      && InState(next.missions, Queued, 1)
  {
    StoppedReached();
    BothPaused();
    ResumedIntoQueue(SECOND_PLANNING.(state := Paused, statusText := "hold"));
  }

  lemma BothPaused()
    ensures Apply(Pair(FIRST_STOPPED, SECOND_PLANNING, 2), PauseOp(Named(2), "hold"))
         == Pair(FIRST_STOPPED, SECOND_PLANNING.(state := Paused, statusText := "hold"), 2)
  {
    var s := Pair(FIRST_STOPPED, SECOND_PLANNING, 2);
    var second := SECOND_PLANNING.(state := Paused, statusText := "hold");
    assert QueuedIds(s.missions[2 := second]) == {};
    assert s.missions[2 := second] == Pair(FIRST_STOPPED, second, 2).missions;
  }

  // The first accepted plan need not be version 1.
  lemma FirstPlanAfterTwoReplans()
    ensures
      var first := Apply(EMPTY, SubmitOp(ASK, 1));
      var twice := Apply(Apply(first, ReplanOp(Current, "")), ReplanOp(Current, ""));
      Apply(twice, SetPlanOp(1, "plan", "", None, 3)).missions[1].identity.planVersion == 2
  {
    assert Strip("task") == "task";
  }
}
