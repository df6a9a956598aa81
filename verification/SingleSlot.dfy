// The single slot: what every run of scheduler operations keeps.
module SingleSlot {
  import opened Common
  import opened Missions
  import opened MissionHistory

  predicate HoldsSlot(s: Scheduler, id: Id) {
    id in s.missions && s.missions[id].state in {Planning, Running}
  }

  // At most one mission is being planned or run, and it is the active one; the
  // active mission is being planned, run or is paused; nobody queues for a free slot.
  ghost predicate SlotInv(s: Scheduler) {
    && (forall id :: id in s.missions ==> s.missions[id].identity.missionId == id)
    && (forall id: Id :: HoldsSlot(s, id) ==> s.active == Some(id))
    && (s.active.Some? ==> s.active.value in s.missions && s.missions[s.active.value].state in {Planning, Running, Paused})
    && (s.active == None ==> QueuedIds(s.missions) == {})
  }

  // The active mission is no obstacle to `id` taking the slot.
  predicate SlotFreeFor(s: Scheduler, id: Id) {
    s.active == None || s.active.value == id || (s.active.value in s.missions && s.missions[s.active.value].state == Paused)
  }

  // The two operations that do not look at the slot keep the invariant exactly
  // when they leave no other mission in it.
  predicate Legal(s: Scheduler, op: Op) {
    && (op.SetPlanOp? && SetPlan(s, op.id, op.bt, op.goalSpec, op.expected, op.token).Ok? ==> SlotFreeFor(s, op.id))
    && (op.ReplanOp? && Live(s, op.target).Ok? ==> SlotFreeFor(s, Live(s, op.target).value))
  }

  lemma HandOnKeepsSlot(s: Scheduler, keep: bool)
    requires forall id :: id in s.missions ==> s.missions[id].identity.missionId == id
    requires forall id :: id in s.missions ==> s.missions[id].state !in {Planning, Running}
    requires keep ==> s.active.Some? && s.active.value in s.missions && s.missions[s.active.value].state == Paused
    ensures SlotInv(HandOn(s, keep))
  {
  }

  // Besides the active mission nobody is being planned or run.
  lemma OthersAreIdle(s: Scheduler, id: Id)
    requires SlotInv(s) && id in s.missions && s.active != Some(id)
    ensures s.missions[id].state !in {Planning, Running}
  {
    assert !HoldsSlot(s, id);
  }

  // The active mission's record is replaced by one that lets the slot go.
  lemma SlotLetGo(s: Scheduler, m: Mission, keep: bool)
    requires SlotInv(s) && s.active.Some?
    requires m.identity.missionId == s.active.value && m.state !in {Queued, Planning, Running}
    requires keep ==> m.state == Paused
    ensures SlotInv(HandOn(s.(missions := s.missions[s.active.value := m]), keep))
  {
    var mid := s.(missions := s.missions[s.active.value := m]);
    forall id | id in mid.missions
      ensures mid.missions[id].state !in {Planning, Running}
    {
      if id != s.active.value {
        OthersAreIdle(s, id);
      }
    }
    HandOnKeepsSlot(mid, keep);
  }

  lemma StepKeepsSlot(s: Scheduler, op: Op)
    requires SlotInv(s) && Legal(s, op) && Fresh(s, op)
    ensures SlotInv(Apply(s, op))
  {
    match op
    case SubmitOp(req, token) => SubmitKeepsSlot(s, req, token);
    case SetPlanOp(id, bt, goalSpec, expected, token) =>
      if SetPlan(s, id, bt, goalSpec, expected, token).Ok? {
        SetPlanKeepsSlotIff(s, id, bt, goalSpec, expected, token);
      }
    case ReplanOp(target, reason) =>
      if Live(s, target).Ok? {
        ReplanKeepsSlotIff(s, target, reason);
      }
    case PauseOp(target, reason) => PauseKeepsSlot(s, target, reason);
    case ResumeOp(target, reason, token) => ResumeKeepsSlot(s, target, reason, token);
    case ReprioritizeOp(target, priority, preempt, reason) => ReprioritizeKeepsSlot(s, target, priority, preempt, reason);
    case CancelOp(target, reason) => CancelKeepsSlot(s, target, reason);
    case EndOp(id, state, message, expected) =>
      if MarkTerminal(s, id, state, message, expected).Ok? {
        EndedKeepsSlot(s, id, state, message);
      }
    case StatusOp(id, _, _, _, _) =>
      if Try(s, op).Ok? {
        SlotRewrite(s, id, Apply(s, op).missions[id]);
      }
  }

  // A record rewritten without a change of state moves nothing.
  lemma SlotRewrite(s: Scheduler, id: Id, m: Mission)
    requires SlotInv(s) && id in s.missions && m.identity.missionId == id && m.state == s.missions[id].state
    ensures SlotInv(s.(missions := s.missions[id := m]))
  {
    var next := s.(missions := s.missions[id := m]);
    assert forall other: Id :: HoldsSlot(next, other) <==> HoldsSlot(s, other);
    assert QueuedIds(next.missions) == QueuedIds(s.missions);
  }

  // One mission takes the slot; any other in it is out of the way.
  lemma SlotTaken(s: Scheduler, id: Id, missions: map<Id, Mission>, resumedFrom: map<Id, string>)
    requires SlotInv(s)
    requires id in missions && missions[id].state in {Planning, Running}
    requires forall other :: other in missions ==> missions[other].identity.missionId == other
    requires forall other :: other in missions && other != id ==>
      missions[other].state == Queued || (other in s.missions && missions[other].state == s.missions[other].state)
    requires s.active.Some? && s.active.value in missions && s.active.value != id ==>
      missions[s.active.value].state !in {Planning, Running}
    ensures SlotInv(Scheduler(missions, Some(id), resumedFrom))
  {
    var next := Scheduler(missions, Some(id), resumedFrom);
    forall other: Id | HoldsSlot(next, other)
      ensures other == id
    {
      if other != id && s.active != Some(other) {
        OthersAreIdle(s, other);
      }
    }
  }

  lemma SubmitKeepsSlot(s: Scheduler, req: Request, token: Id)
    requires SlotInv(s) && token !in s.missions
    ensures SlotInv(Submit(s, req, token).sched)
  {
    if Accepted(s, req) {
      var missions := Submit(s, req, token).sched.missions;
      if SlotBusy(s) {
        var next := Submit(s, req, token).sched;
        assert forall other: Id :: HoldsSlot(next, other) <==> HoldsSlot(s, other);
      } else {
        SlotTaken(s, token, missions, s.resumedFrom);
      }
    }
  }

  lemma ResumeKeepsSlot(s: Scheduler, target: Target, reason: string, token: Id)
    requires SlotInv(s)
    ensures SlotInv(Apply(s, ResumeOp(target, reason, token)))
  {
    if Resume(s, target, reason, token).Ok? {
      var id := Live(s, target).value;
      var next := Apply(s, ResumeOp(target, reason, token));
      if ResumeState(s, id) == Queued {
        assert forall other: Id :: HoldsSlot(next, other) <==> HoldsSlot(s, other);
      } else {
        SlotTaken(s, id, next.missions, next.resumedFrom);
      }
    }
  }

  lemma ReprioritizeKeepsSlot(s: Scheduler, target: Target, priority: int, preempt: bool, reason: string)
    requires SlotInv(s)
    ensures SlotInv(Apply(s, ReprioritizeOp(target, priority, preempt, reason)))
  {
    if Live(s, target).Ok? {
      var id := Live(s, target).value;
      var next := Apply(s, ReprioritizeOp(target, priority, preempt, reason));
      if Preempts(s, id, Clamp(0, 255, priority), preempt) {
        SlotTaken(s, id, next.missions, next.resumedFrom);
      } else {
        SlotRewrite(s, id, next.missions[id]);
      }
    }
  }

  lemma EndedKeepsSlot(s: Scheduler, id: Id, state: State, message: string)
    requires SlotInv(s) && id in s.missions && Terminal(state)
    ensures SlotInv(Ended(s, id, state, message).sched)
  {
    var done := Ended(s, id, state, message).event.value.mission;
    var mid := s.(missions := s.missions[id := done]);
    if s.active == Some(id) {
      SlotLetGo(s, mid.missions[id], false);
    } else {
      assert QueuedIds(mid.missions) <= QueuedIds(s.missions);
    }
  }

  lemma CancelKeepsSlot(s: Scheduler, target: Target, reason: string)
    requires SlotInv(s)
    ensures SlotInv(Apply(s, CancelOp(target, reason)))
  {
    if Live(s, target).Ok? {
      var id := Live(s, target).value;
      var canceled := s.missions[id].(state := Canceled, statusText := Or(reason, "canceled"));
      var mid := s.(missions := s.missions[id := canceled]);
      if s.active == Some(id) {
        SlotLetGo(s, mid.missions[id], false);
      } else {
        assert QueuedIds(mid.missions) <= QueuedIds(s.missions);
      }
    }
  }

  lemma PauseKeepsSlot(s: Scheduler, target: Target, reason: string)
    requires SlotInv(s)
    ensures SlotInv(Apply(s, PauseOp(target, reason)))
  {
    if Live(s, target).Ok? {
      var id := Live(s, target).value;
      if s.missions[id].state == Paused {
      } else if Repauses(s, id, reason) {
        EndedKeepsSlot(s.(resumedFrom := Without(s.resumedFrom, id)), id, Blocked, REPAUSED + reason);
      } else {
        var paused := s.missions[id].(state := Paused, statusText := Or(reason, "paused"));
        var mid := s.(missions := s.missions[id := paused]);
        if s.active == Some(id) {
          SlotLetGo(s, mid.missions[id], true);
        } else {
          assert QueuedIds(mid.missions) <= QueuedIds(s.missions);
        }
      }
    }
  }

  // set_plan looks at no state. It keeps the single slot if and only if no other
  // mission is being planned or run.
  lemma SetPlanKeepsSlotIff(s: Scheduler, id: Id, bt: string, goalSpec: string, expected: Option<Identity>, token: Id)
    requires SlotInv(s) && SetPlan(s, id, bt, goalSpec, expected, token).Ok?
    ensures SlotInv(Apply(s, SetPlanOp(id, bt, goalSpec, expected, token))) <==> SlotFreeFor(s, id)
  {
    var next := Apply(s, SetPlanOp(id, bt, goalSpec, expected, token));
    if SlotFreeFor(s, id) {
      SlotTaken(s, id, next.missions, next.resumedFrom);
    } else {
      assert HoldsSlot(next, s.active.value);
    }
  }

  // The same for request_replan.
  lemma ReplanKeepsSlotIff(s: Scheduler, target: Target, reason: string)
    requires SlotInv(s) && Live(s, target).Ok?
    ensures SlotInv(Apply(s, ReplanOp(target, reason))) <==> SlotFreeFor(s, Live(s, target).value)
  {
    var next := Apply(s, ReplanOp(target, reason));
    var id := Live(s, target).value;
    if SlotFreeFor(s, id) {
      SlotTaken(s, id, next.missions, next.resumedFrom);
    } else {
      assert HoldsSlot(next, s.active.value);
    }
  }

  // The slot id had went to the best of the queue, or to nobody.
  ghost predicate PassedOn(s: Scheduler, id: Id, active: Option<Id>) {
    var queue := QueuedIds(s.missions) - {id};
    if queue == {} then active == None else active.Some? && IsBest(s.missions, queue, active.value)
  }

  lemma SlotPassedOn(s: Scheduler, id: Id, m: Mission)
    requires s.active == Some(id) && id in s.missions && m.state != Queued
    ensures PassedOn(s, id, HandOn(s.(missions := s.missions[id := m]), false).active)
  {
    var mid := s.missions[id := m];
    assert QueuedIds(mid) == QueuedIds(s.missions) - {id};
    var best := Best(mid, QueuedIds(mid));
    if best.Some? {
      assert forall other :: other in QueuedIds(mid) ==> Before(mid, best.value, other) && Before(s.missions, best.value, other);
    }
  }

  // ---- Runs.

  ghost predicate AllLegal(ls: seq<Ledger>, ops: seq<Op>)
    requires |ls| == |ops| + 1
  {
    forall i :: 0 <= i < |ops| ==> Legal(ls[i].sched, ops[i])
  }

  // From an empty or recovered manager, every run keeps the single slot.
  lemma {:induction false} RunKeepsSlot(ls: seq<Ledger>, ops: seq<Op>, n: nat)
    requires IsRun(ls, ops) && AllLegal(ls, ops) && n <= |ops|
    requires SlotInv(ls[0].sched)
    ensures SlotInv(ls[n].sched)
    decreases n
  {
    if n > 0 {
      RunKeepsSlot(ls, ops, n - 1);
      RunKeepsRecord(ls, ops, n - 1);
      DrawnIsFresh(ls[n - 1], ops[n - 1], ls[n]);
      StepKeepsSlot(ls[n - 1].sched, ops[n - 1]);
    }
  }

  // A queued mission that starts being planned is the best of the queue, unless
  // a caller preempted the active mission with it, which took a higher priority.
  lemma PromotionPicksBest(s: Scheduler, op: Op, id: Id)
    requires SlotInv(s) && Fresh(s, op)
    requires InState(s.missions, Queued, id) && InState(Apply(s, op).missions, Planning, id)
    ensures
      || IsBest(s.missions, QueuedIds(s.missions), id)
      || (&& op.ReprioritizeOp? && op.preempt && Resolve(s, op.target) == Ok(id)
          && s.active.Some? && Apply(s, op).missions[id].priority > s.missions[s.active.value].priority)
      || (op.ReplanOp? && Resolve(s, op.target) == Ok(id))
  {
    match op
    case PauseOp(target, reason) =>
      if Live(s, target).Ok? {
        var at := Live(s, target).value;
        if s.missions[at].state != Paused && Repauses(s, at, reason) {
          EndedPromotesBest(s.(resumedFrom := Without(s.resumedFrom, at)), at, Blocked, REPAUSED + reason, id);
        } else if s.missions[at].state != Paused {
          var paused := s.missions[at].(state := Paused, statusText := Or(reason, "paused"));
          SlotPassesToBest(s, at, paused, true, id);
        }
      }
    case CancelOp(target, reason) =>
      if Live(s, target).Ok? {
        var at := Live(s, target).value;
        var canceled := s.missions[at].(state := Canceled, statusText := Or(reason, "canceled"));
        SlotPassesToBest(s, at, canceled, false, id);
      }
    case EndOp(at, state, message, expected) =>
      if MarkTerminal(s, at, state, message, expected).Ok? {
        EndedPromotesBest(s, at, state, message, id);
      }
    case ReprioritizeOp(_, _, _, _) => PreemptionPromotes(s, op, id);
    case _ => OnlyReplanPromotes(s, op, id);
  }

  lemma PreemptionPromotes(s: Scheduler, op: Op, id: Id)
    requires SlotInv(s) && op.ReprioritizeOp?
    requires InState(s.missions, Queued, id) && InState(Apply(s, op).missions, Planning, id)
    ensures op.preempt && Resolve(s, op.target) == Ok(id)
    ensures s.active.Some? && Apply(s, op).missions[id].priority > s.missions[s.active.value].priority
  {
  }

  lemma OnlyReplanPromotes(s: Scheduler, op: Op, id: Id)
    requires Fresh(s, op) && (op.SubmitOp? || op.SetPlanOp? || op.ReplanOp? || op.ResumeOp? || op.StatusOp?)
    requires InState(s.missions, Queued, id) && InState(Apply(s, op).missions, Planning, id)
    ensures op.ReplanOp? && Resolve(s, op.target) == Ok(id)
  {
  }

  lemma EndedPromotesBest(s: Scheduler, at: Id, state: State, message: string, id: Id)
    requires SlotInv(s) && at in s.missions && Terminal(state)
    requires InState(s.missions, Queued, id) && InState(Ended(s, at, state, message).sched.missions, Planning, id)
    ensures IsBest(s.missions, QueuedIds(s.missions), id)
  {
    SlotPassesToBest(s, at, Ended(s, at, state, message).event.value.mission, false, id);
  }

  lemma SlotPassesToBest(s: Scheduler, at: Id, m: Mission, keep: bool, id: Id)
    requires SlotInv(s) && at in s.missions && m.state !in {Queued, Planning}
    requires
      var next := HandOnIf(s.(missions := s.missions[at := m]), at, keep);
      InState(s.missions, Queued, id) && InState(next.missions, Planning, id)
    ensures IsBest(s.missions, QueuedIds(s.missions), id)
  {
    var mid := s.(missions := s.missions[at := m]);
    if s.active == Some(at) {
      HandOnPromotes(mid, keep, id);
      assert QueuedIds(mid.missions) == QueuedIds(s.missions);
      assert forall other :: other in QueuedIds(s.missions) ==> mid.missions[other] == s.missions[other];
      assert forall other :: other in QueuedIds(s.missions) ==>
        Before(mid.missions, id, other) && Before(s.missions, id, other);
    }
  }

  // Besides its subject an operation touches at most two missions: the best of
  // the queue, which is promoted, and the active mission when it is preempted,
  // which loses its plan and goes back to the queue.
  lemma OtherMissionsUntouched(s: Scheduler, op: Op, id: Id)
    requires SlotInv(s) && Fresh(s, op) && id in s.missions && Subject(s, op) != Ok(id)
    ensures id in Apply(s, op).missions
    ensures
      var m, m' := s.missions[id], Apply(s, op).missions[id];
      || m' == m
      || (m' == m.(state := Planning, statusText := "planning") && IsBest(s.missions, QueuedIds(s.missions), id))
      || (&& op.ReprioritizeOp? && op.preempt && s.active == Some(id)
          && m' == m.(identity := m.identity.NextPlan(), state := Queued, activeNode := "",
                      statusText := DEMOTED, bt := "", goalSpec := ""))
  {
    match op
    case PauseOp(target, reason) =>
      if Live(s, target).Ok? {
        var at := Live(s, target).value;
        if s.missions[at].state != Paused && Repauses(s, at, reason) {
          OthersAfterEnd(s.(resumedFrom := Without(s.resumedFrom, at)), at, Blocked, REPAUSED + reason, id);
        } else if s.missions[at].state != Paused {
          OthersAfterHandOn(s, at, s.missions[at].(state := Paused, statusText := Or(reason, "paused")), true, id);
        }
      }
    case CancelOp(target, reason) =>
      if Live(s, target).Ok? {
        var at := Live(s, target).value;
        OthersAfterHandOn(s, at, s.missions[at].(state := Canceled, statusText := Or(reason, "canceled")), false, id);
      }
    case EndOp(at, state, message, expected) =>
      if MarkTerminal(s, at, state, message, expected).Ok? {
        OthersAfterEnd(s, at, state, message, id);
      }
    case ReprioritizeOp(_, _, _, _) => OthersAfterReprioritize(s, op, id);
    case _ => OthersAfterRewrite(s, op, id);
  }

  lemma OthersAfterReprioritize(s: Scheduler, op: Op, id: Id)
    requires op.ReprioritizeOp? && id in s.missions && Subject(s, op) != Ok(id)
    ensures id in Apply(s, op).missions
    ensures
      var m, m' := s.missions[id], Apply(s, op).missions[id];
      || m' == m
      || (&& op.preempt && s.active == Some(id)
          && m' == m.(identity := m.identity.NextPlan(), state := Queued, activeNode := "",
                      statusText := DEMOTED, bt := "", goalSpec := ""))
  {
  }

  lemma OthersAfterRewrite(s: Scheduler, op: Op, id: Id)
    requires op.SubmitOp? || op.SetPlanOp? || op.ReplanOp? || op.ResumeOp? || op.StatusOp?
    requires id in s.missions && Subject(s, op) != Ok(id)
    ensures id in Apply(s, op).missions && Apply(s, op).missions[id] == s.missions[id]
  {
  }

  lemma OthersAfterEnd(s: Scheduler, at: Id, state: State, message: string, id: Id)
    requires SlotInv(s) && at in s.missions && Terminal(state) && id in s.missions && id != at
    ensures
      var m, m' := s.missions[id], Ended(s, at, state, message).sched.missions;
      id in m' && (m'[id] == m
        || (m'[id] == m.(state := Planning, statusText := "planning") && IsBest(s.missions, QueuedIds(s.missions), id)))
  {
    OthersAfterHandOn(s, at, Ended(s, at, state, message).event.value.mission, false, id);
  }

  lemma OthersAfterHandOn(s: Scheduler, at: Id, gone: Mission, keep: bool, id: Id)
    requires SlotInv(s) && at in s.missions && id in s.missions && id != at && gone.state !in {Queued, Planning}
    ensures
      var m, m' := s.missions[id], HandOnIf(s.(missions := s.missions[at := gone]), at, keep).missions;
      id in m' && (m'[id] == m
        || (m'[id] == m.(state := Planning, statusText := "planning") && IsBest(s.missions, QueuedIds(s.missions), id)))
  {
    var mid := s.(missions := s.missions[at := gone]);
    var next := HandOnIf(mid, at, keep);
    if s.active == Some(at) {
      HandOnPromotes(mid, keep, id);
      if next.missions[id] != s.missions[id] {
        assert InState(s.missions, Queued, id);
        SlotPassesToBest(s, at, gone, keep, id);
      }
    }
  }
}
