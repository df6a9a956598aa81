// Field by field: what each operation makes of the records of the missions, and
// what it leaves alone.
module MissionRecords {
  import opened Common
  import opened Missions
  import opened MissionHistory
  import opened SingleSlot

  // ---- When an operation is refused.

  // A mission that is unknown or terminal takes no operation; one about the active
  // mission needs an active mission, a resume a paused one, an expected identity
  // must be the mission's own, and a mission ends in one of three states.
  lemma RefusedIff(s: Scheduler, op: Op)
    ensures Try(s, op).Refused? <==>
      && !op.SubmitOp?
      && (|| Subject(s, op).Refused?
          || Subject(s, op).value !in s.missions
          || s.missions[Subject(s, op).value].state in {Succeeded, Failed, Canceled, Blocked}
          || (op.ResumeOp? && s.missions[Subject(s, op).value].state != Paused)
          || (op.EndOp? && op.state !in {Succeeded, Failed, Blocked})
          || ((op.SetPlanOp? || op.EndOp? || op.StatusOp?) && op.expected.Some?
              && op.expected.value != s.missions[Subject(s, op).value].identity))
  {
  }

  // A submission is accepted exactly when it says something and the slot is free or
  // queueing allowed; an active mission that is paused does not keep the slot. The
  // new mission waits in the queue exactly when the slot is taken, and otherwise
  // takes it; its record is what was asked for.
  lemma SubmissionRecorded(s: Scheduler, req: Request, token: Id)
    requires token !in s.missions
    ensures
      var taken := s.active.Some? && s.active.value in s.missions && s.missions[s.active.value].state != Paused;
      var after := Apply(s, SubmitOp(req, token));
      if Strip(req.intentText) == "" || (taken && !req.allowQueue)
      then after == s && EventOf(s, SubmitOp(req, token)).value.kind == RejectedEvent
      else
        && after.missions.Keys == s.missions.Keys + {token}
        && after.active == (if taken then s.active else Some(token))
        && EventOf(s, SubmitOp(req, token)).value.kind == AcceptedEvent
        && var m := after.missions[token];
           && m.state == (if taken then Queued else Planning)
           && m.statusText == (if taken then "queued" else "planning")
           && m.intentText == req.intentText && m.context == req.context && m.allowQueue == req.allowQueue
           && m.priority == Clamped(req.priority)
           && m.identity == Identity(token, 0, None, req.parent, req.source, req.operatorId)
           && m.bt == "" && m.goalSpec == "" && m.progress == 0.0 && m.errorCode == ""
           && m.title <= Strip(req.intentText) && |m.title| <= 80
           && (|Strip(req.intentText)| <= 80 ==> m.title == Strip(req.intentText))
  {
  }

  function Clamped(priority: int): (p: int)
    ensures 0 <= p <= 255 && (0 <= priority <= 255 ==> p == priority) && (priority < 0 ==> p == 0) && (priority > 255 ==> p == 255)
  {
    if priority < 0 then 0 else if priority > 255 then 255 else priority
  }

  // ---- The record of the mission an operation is about.

  lemma EndedRecorded(s: Scheduler, id: Id, state: State, message: string)
    requires id in s.missions && Terminal(state)
    ensures id in Ended(s, id, state, message).sched.missions
    ensures Ended(s, id, state, message).sched.missions[id] == s.missions[id].(
      state := state, statusText := message, progress := if state == Succeeded then 1.0 else s.missions[id].progress)
  {
    var done := Ended(s, id, state, message).event.value.mission;
    HandOnPromotes(s.(missions := s.missions[id := done]), false, id);
  }

  lemma CancelRecorded(s: Scheduler, target: Target, reason: string)
    requires Live(s, target).Ok?
    ensures
      var id, after := Live(s, target).value, Apply(s, CancelOp(target, reason)).missions;
      id in after && after[id] == s.missions[id].(state := Canceled, statusText := Or(reason, "canceled"))
  {
    var id := Live(s, target).value;
    var canceled := s.missions[id].(state := Canceled, statusText := Or(reason, "canceled"));
    HandOnPromotes(s.(missions := s.missions[id := canceled]), false, id);
  }

  lemma PauseRecorded(s: Scheduler, id: Id, reason: string)
    requires id in s.missions && !Terminal(s.missions[id].state)
    ensures
      var m, after := s.missions[id], Apply(s, PauseOp(Named(id), reason)).missions;
      && id in after
      && after[id] ==
           if m.state == Paused then m
           else if id in s.resumedFrom && s.resumedFrom[id] == reason
           then m.(state := Blocked, statusText := REPAUSED + reason)
           else m.(state := Paused, statusText := Or(reason, "paused"))
  {
    var m := s.missions[id];
    if m.state == Paused {
    } else if Repauses(s, id, reason) {
      EndedRecorded(s.(resumedFrom := Without(s.resumedFrom, id)), id, Blocked, REPAUSED + reason);
    } else {
      var paused := m.(state := Paused, statusText := Or(reason, "paused"));
      HandOnPromotes(s.(missions := s.missions[id := paused]), true, id);
    }
  }

  // The mission of a pause, however it is named.
  lemma PausedByName(s: Scheduler, target: Target, reason: string)
    requires Live(s, target).Ok?
    ensures Pause(s, target, reason) == Pause(s, Named(Live(s, target).value), reason)
  {
  }

  // Which mission takes the slot of which, if the operation moves a queued mission
  // ahead of a live one of lower priority.
  predicate Overtakes(s: Scheduler, op: Op, id: Id) {
    && op.ReprioritizeOp? && op.preempt && Live(s, op.target) == Ok(id)
    && s.missions[id].state == Queued
    && s.active.Some? && s.active.value != id && s.active.value in s.missions
    && !Terminal(s.missions[s.active.value].state)
    && Clamped(op.priority) > s.missions[s.active.value].priority
  }

  // The operation is about this mission and goes through.
  ghost predicate Takes(s: Scheduler, op: Op, id: Id) {
    Try(s, op).Ok? && Subject(s, op) == Ok(id)
  }

  lemma SubjectRecorded(s: Scheduler, op: Op, id: Id)
    requires id in s.missions && Takes(s, op, id) && Fresh(s, op)
    ensures id in Apply(s, op).missions
    ensures
      var m, m' := s.missions[id], Apply(s, op).missions[id];
      match op
      case SubmitOp(_, _) => true
      case SetPlanOp(_, bt, goalSpec, _, token) =>
        m' == m.(identity := PlannedIdentity(m, token), state := Running, statusText := "running", bt := bt, goalSpec := goalSpec)
      case ReplanOp(_, reason) =>
        m' == m.(identity := m.identity.NextPlan(), state := Planning, activeNode := "",
                 statusText := Or(reason, "replanning"), bt := "", goalSpec := "")
      case PauseOp(_, reason) =>
        m' == if m.state == Paused then m
              else if id in s.resumedFrom && s.resumedFrom[id] == reason
              then m.(state := Blocked, statusText := REPAUSED + reason)
              else m.(state := Paused, statusText := Or(reason, "paused"))
      case ResumeOp(_, reason, token) =>
        m' == m.(identity := if ResumeState(s, id) == Running then m.identity.ForExecution(token) else m.identity,
                 state := ResumeState(s, id), statusText := Or(reason, DefaultStatus(ResumeState(s, id))))
      case ReprioritizeOp(_, priority, _, reason) =>
        m' == if Overtakes(s, op, id)
              then m.(priority := Clamped(priority), state := Planning, activeNode := "",
                      statusText := Or(reason, "planning"), bt := "", goalSpec := "")
              else m.(priority := Clamped(priority), statusText := Or(reason, m.statusText))
      case CancelOp(_, reason) => m' == m.(state := Canceled, statusText := Or(reason, "canceled"))
      case EndOp(_, state, message, _) =>
        m' == m.(state := state, statusText := message, progress := if state == Succeeded then 1.0 else m.progress)
      case StatusOp(_, activeNode, statusText, progress, _) =>
        m' == m.(activeNode := Or(activeNode, m.activeNode), statusText := Or(statusText, m.statusText),
                 progress := if progress.Some? then UnitClamp(progress.value) else m.progress)
  {
    match op
    case PauseOp(target, reason) =>
      PausedByName(s, target, reason);
      PauseRecorded(s, id, reason);
    case CancelOp(target, reason) => CancelRecorded(s, target, reason);
    case EndOp(at, state, message, _) => EndedRecorded(s, at, state, message);
    case _ =>
  }

  // ---- Field by field.

  // The active mission is sent back to the queue.
  predicate Demoted(s: Scheduler, op: Op, id: Id) {
    s.active == Some(id) && op.ReprioritizeOp? && Live(s, op.target).Ok? && Overtakes(s, op, Live(s, op.target).value)
  }

  // A mission the operation is not about keeps its record, but for the one it
  // promotes and the one it demotes.
  lemma BystanderRecorded(s: Scheduler, op: Op, id: Id)
    requires SlotInv(s) && Fresh(s, op) && id in s.missions && !Takes(s, op, id)
    ensures id in Apply(s, op).missions
    ensures
      var m, m' := s.missions[id], Apply(s, op).missions[id];
      if Demoted(s, op, id) then
        m' == m.(identity := m.identity.NextPlan(), state := Queued, activeNode := "", statusText := DEMOTED,
                 bt := "", goalSpec := "")
      else m' == m || (m.state == Queued && m' == m.(state := Planning, statusText := "planning"))
  {
    if Try(s, op).Ok? && Subject(s, op) != Ok(id) {
      OtherMissionsUntouched(s, op, id);
      if op.ReprioritizeOp? {
        OnlyOvertakenMoves(s, op, id);
      }
    }
  }

  lemma OnlyOvertakenMoves(s: Scheduler, op: Op, id: Id)
    requires op.ReprioritizeOp? && Try(s, op).Ok? && Subject(s, op) != Ok(id) && id in s.missions
    ensures id in Apply(s, op).missions
    ensures
      var m, m' := s.missions[id], Apply(s, op).missions[id];
      if Demoted(s, op, id) then
        m' == m.(identity := m.identity.NextPlan(), state := Queued, activeNode := "", statusText := DEMOTED,
                 bt := "", goalSpec := "")
      else m' == m
  {
  }

  // What a mission was submitted with stays with it, whatever happens.
  lemma RequestStays(s: Scheduler, op: Op, id: Id)
    requires SlotInv(s) && Fresh(s, op) && id in s.missions
    ensures id in Apply(s, op).missions
    ensures
      var m, m' := s.missions[id], Apply(s, op).missions[id];
      && m'.intentText == m.intentText && m'.allowQueue == m.allowQueue && m'.context == m.context
      && m'.title == m.title && m'.errorCode == m.errorCode
      && m'.identity.missionId == m.identity.missionId && m'.identity.parent == m.identity.parent
      && m'.identity.source == m.identity.source && m'.identity.operatorId == m.identity.operatorId
  {
    if Takes(s, op, id) {
      SubjectRecorded(s, op, id);
    } else {
      BystanderRecorded(s, op, id);
    }
  }

  // A priority changes only when its own mission is reprioritised, and is then the
  // requested one, kept within 0 and 255, whether or not the mission preempts.
  lemma PriorityLaw(s: Scheduler, op: Op, id: Id)
    requires SlotInv(s) && Fresh(s, op) && id in s.missions
    ensures id in Apply(s, op).missions
    ensures Apply(s, op).missions[id].priority ==
      if op.ReprioritizeOp? && Takes(s, op, id) then Clamped(op.priority) else s.missions[id].priority
  {
    if Takes(s, op, id) {
      SubjectRecorded(s, op, id);
    } else {
      BystanderRecorded(s, op, id);
    }
  }

  // Progress changes only by a report, kept within 0 and 1, and by success.
  lemma ProgressLaw(s: Scheduler, op: Op, id: Id)
    requires SlotInv(s) && Fresh(s, op) && id in s.missions
    ensures id in Apply(s, op).missions
    ensures
      var p, p' := s.missions[id].progress, Apply(s, op).missions[id].progress;
      if op.StatusOp? && Takes(s, op, id) && op.progress.Some? then
        && 0.0 <= p' <= 1.0
        && (0.0 <= op.progress.value <= 1.0 ==> p' == op.progress.value)
        && (op.progress.value < 0.0 ==> p' == 0.0) && (op.progress.value > 1.0 ==> p' == 1.0)
      else if op.EndOp? && Takes(s, op, id) && op.state == Succeeded then p' == 1.0
      else p' == p
  {
    if Takes(s, op, id) {
      SubjectRecorded(s, op, id);
    } else {
      BystanderRecorded(s, op, id);
    }
  }

  // A mission gets its tree and goal from a plan, loses them when it is replanned,
  // demoted or overtakes another, and keeps them otherwise.
  lemma PlanLaw(s: Scheduler, op: Op, id: Id)
    requires SlotInv(s) && Fresh(s, op) && id in s.missions
    ensures id in Apply(s, op).missions
    ensures
      var m, m' := s.missions[id], Apply(s, op).missions[id];
      if op.SetPlanOp? && Takes(s, op, id) then m'.bt == op.bt && m'.goalSpec == op.goalSpec
      else if (op.ReplanOp? && Takes(s, op, id)) || Demoted(s, op, id) || (Takes(s, op, id) && Overtakes(s, op, id))
      then m'.bt == "" && m'.goalSpec == ""
      else m'.bt == m.bt && m'.goalSpec == m.goalSpec
  {
    if Takes(s, op, id) {
      SubjectRecorded(s, op, id);
    } else {
      BystanderRecorded(s, op, id);
    }
  }

  // A plan and a resume to RUNNING draw a new execution, a replan and a demotion
  // give the old one up with the version, and nothing else touches the identity.
  lemma IdentityLaw(s: Scheduler, op: Op, id: Id)
    requires SlotInv(s) && Fresh(s, op) && id in s.missions
    ensures id in Apply(s, op).missions
    ensures
      var i, j := s.missions[id].identity, Apply(s, op).missions[id].identity;
      if op.SetPlanOp? && Takes(s, op, id) then
        && j.executionId == Some(op.token)
        && j.planVersion == i.planVersion
           + (if s.missions[id].bt != "" || i.executionId.Some? || i.planVersion == 0 then 1 else 0)
      else if op.ResumeOp? && Takes(s, op, id) && Apply(s, op).missions[id].state == Running then
        j == i.(executionId := Some(op.token))
      else if (op.ReplanOp? && Takes(s, op, id)) || Demoted(s, op, id) then
        j == i.(planVersion := i.planVersion + 1, executionId := None)
      else j == i
  {
    if Takes(s, op, id) {
      SubjectRecorded(s, op, id);
    } else {
      BystanderRecorded(s, op, id);
    }
  }

  // Where a mission goes. Resumed, it runs its tree or is planned if the slot is
  // free or its own, and waits in the queue otherwise.
  lemma StateLaw(s: Scheduler, op: Op, id: Id)
    requires SlotInv(s) && Fresh(s, op) && id in s.missions
    ensures id in Apply(s, op).missions
    ensures
      var m, after := s.missions[id], Apply(s, op).missions[id].state;
      if Takes(s, op, id) then
        match op
        case SubmitOp(_, _) => true
        case SetPlanOp(_, _, _, _, _) => after == Running
        case ReplanOp(_, _) => after == Planning
        case PauseOp(_, reason) =>
          after == if m.state != Paused && id in s.resumedFrom && s.resumedFrom[id] == reason then Blocked else Paused
        case ResumeOp(_, _, _) =>
          after == if s.active.Some? && s.active != Some(id) then Queued else if m.bt != "" then Running else Planning
        case ReprioritizeOp(_, _, _, _) => after == if Overtakes(s, op, id) then Planning else m.state
        case CancelOp(_, _) => after == Canceled
        case EndOp(_, state, _, _) => after == state
        case StatusOp(_, _, _, _, _) => after == m.state
      else if Demoted(s, op, id) then after == Queued
      else after == m.state || (m.state == Queued && after == Planning)
  {
    if Takes(s, op, id) {
      SubjectRecorded(s, op, id);
    } else {
      BystanderRecorded(s, op, id);
    }
  }

  // ---- The slot.

  // Who is active behind an operation that goes through. A mission that is planned,
  // replanned, overtakes or is resumed into the slot is; one that ends or is paused
  // passes the slot to the best of the queue; a pause with an empty queue keeps it.
  lemma SlotLaw(s: Scheduler, op: Op, id: Id)
    requires SlotInv(s) && Fresh(s, op) && id in s.missions && Takes(s, op, id)
    ensures
      var active := Apply(s, op).active;
      match op
      case SubmitOp(_, _) => true
      case SetPlanOp(_, _, _, _, _) => active == Some(id)
      case ReplanOp(_, _) => active == Some(id)
      case PauseOp(_, _) =>
        if s.missions[id].state == Paused || s.active != Some(id) then active == s.active
        else if Apply(s, op).missions[id].state == Paused && QueuedIds(s.missions) == {} then active == Some(id)
        else PassedOn(s, id, active)
      case ResumeOp(_, _, _) => active == if s.active.Some? then s.active else Some(id)
      case ReprioritizeOp(_, _, _, _) => active == if Overtakes(s, op, id) then Some(id) else s.active
      case CancelOp(_, _) => if s.active == Some(id) then PassedOn(s, id, active) else active == s.active
      case EndOp(_, _, _, _) => if s.active == Some(id) then PassedOn(s, id, active) else active == s.active
      case StatusOp(_, _, _, _, _) => active == s.active
  {
    SubjectRecorded(s, op, id);
    match op
    case PauseOp(target, reason) =>
      PausedByName(s, target, reason);
      PauseSlot(s, id, reason);
    case CancelOp(_, reason) =>
      if s.active == Some(id) {
        SlotPassedOn(s, id, s.missions[id].(state := Canceled, statusText := Or(reason, "canceled")));
      }
    case EndOp(_, state, message, _) => EndSlot(s, id, state, message);
    case _ =>
  }

  lemma EndSlot(s: Scheduler, id: Id, state: State, message: string)
    requires id in s.missions && Terminal(state)
    ensures
      var active := Ended(s, id, state, message).sched.active;
      if s.active == Some(id) then PassedOn(s, id, active) else active == s.active
  {
    if s.active == Some(id) {
      SlotPassedOn(s, id, Ended(s, id, state, message).event.value.mission);
    }
  }

  lemma PauseSlot(s: Scheduler, id: Id, reason: string)
    requires SlotInv(s) && id in s.missions && !Terminal(s.missions[id].state)
    ensures
      var after := Apply(s, PauseOp(Named(id), reason));
      if s.missions[id].state == Paused || s.active != Some(id) then after.active == s.active
      else if !Repauses(s, id, reason) && QueuedIds(s.missions) == {} then after.active == Some(id)
      else PassedOn(s, id, after.active)
  {
    var m := s.missions[id];
    if m.state != Paused && s.active == Some(id) {
      if Repauses(s, id, reason) {
        var t := s.(resumedFrom := Without(s.resumedFrom, id));
        EndSlot(t, id, Blocked, REPAUSED + reason);
        assert PassedOn(t, id, Ended(t, id, Blocked, REPAUSED + reason).sched.active);
      } else {
        PausedSlot(s, id, m.(state := Paused, statusText := Or(reason, "paused")));
      }
    }
  }

  lemma PausedSlot(s: Scheduler, id: Id, paused: Mission)
    requires s.active == Some(id) && id in s.missions && s.missions[id].state != Queued && paused.state == Paused
    ensures
      var active := HandOn(s.(missions := s.missions[id := paused]), true).active;
      if QueuedIds(s.missions) == {} then active == Some(id) else PassedOn(s, id, active)
  {
    var mid := s.missions[id := paused];
    assert QueuedIds(mid) == QueuedIds(s.missions) == QueuedIds(s.missions) - {id};
    SlotPassedOn(s, id, paused);
  }

  // ---- What is published.

  // A status report publishes nothing, any other operation that goes through one
  // event. It says so when a pause ends the mission instead, and names the mission
  // that was sent back to the queue.
  lemma EventLaw(s: Scheduler, op: Op, id: Id)
    requires id in s.missions && Takes(s, op, id)
    ensures EventOf(s, op).None? <==> op.StatusOp?
    ensures EventOf(s, op).Some? ==>
      var e := EventOf(s, op).value;
      var again := s.missions[id].state != Paused && op.PauseOp? && id in s.resumedFrom && s.resumedFrom[id] == op.reason;
      && e.preempted == (if Overtakes(s, op, id) then s.active else None)
      && (e.kind == PlannedEvent <==> op.SetPlanOp?)
      && (e.kind == PreemptedEvent <==> op.ReplanOp? || Overtakes(s, op, id))
      && (e.kind == PausedEvent <==> op.PauseOp? && !again)
      && (e.kind == ResumedEvent <==> op.ResumeOp?)
      && (e.kind == CanceledEvent <==> op.CancelOp?)
      && (e.kind == SucceededEvent <==> op.EndOp? && op.state == Succeeded)
      && (e.kind == FailedEvent <==> op.EndOp? && op.state == Failed)
      && (e.kind == BlockedEvent <==> again || (op.EndOp? && op.state == Blocked))
  {
    if op.SubmitOp? {
      assert op.token == id;
    }
  }

  // ---- Over whole runs.

  // Priorities and progress stay in range, and success is complete.
  predicate InRange(s: Scheduler) {
    forall id :: id in s.missions ==>
      && 0 <= s.missions[id].priority <= 255
      && 0.0 <= s.missions[id].progress <= 1.0
      && (s.missions[id].state == Succeeded ==> s.missions[id].progress == 1.0)
  }

  lemma StepKeepsRange(s: Scheduler, op: Op)
    requires SlotInv(s) && Fresh(s, op) && InRange(s)
    ensures InRange(Apply(s, op))
  {
    forall id | id in Apply(s, op).missions
      ensures
        var m := Apply(s, op).missions[id];
        && 0 <= m.priority <= 255 && 0.0 <= m.progress <= 1.0 && (m.state == Succeeded ==> m.progress == 1.0)
    {
      if id !in s.missions {
        OnlySubmitAdds(s, op, id);
      } else {
        PriorityLaw(s, op, id);
        ProgressLaw(s, op, id);
        StateLaw(s, op, id);
        StepEvolves(s, op, id);
      }
    }
  }

  lemma {:induction false} RunKeepsRange(ls: seq<Ledger>, ops: seq<Op>, n: nat)
    requires IsRun(ls, ops) && AllLegal(ls, ops) && n <= |ops| && SlotInv(ls[0].sched) && InRange(ls[0].sched)
    ensures InRange(ls[n].sched)
    decreases n
  {
    if n > 0 {
      RunKeepsRange(ls, ops, n - 1);
      RunKeepsSlot(ls, ops, n - 1);
      RunKeepsRecord(ls, ops, n - 1);
      DrawnIsFresh(ls[n - 1], ops[n - 1], ls[n]);
      StepKeepsRange(ls[n - 1].sched, ops[n - 1]);
    }
  }
}
