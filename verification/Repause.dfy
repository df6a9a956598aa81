// The guard against silent re-pause loops: a mission resumed from a reason and
// paused again for the very same reason is blocked instead.
module Repause {
  import opened Common
  import opened Missions
  import opened MissionHistory
  import opened SingleSlot

  // Operations that settle or replace what is recorded about mission id.
  predicate Disturbs(s: Scheduler, op: Op, id: Id) {
    match op
    case PauseOp(target, _) => Resolve(s, target) == Ok(id)
    case ResumeOp(target, _, _) => Resolve(s, target) == Ok(id)
    case CancelOp(target, _) => Resolve(s, target) == Ok(id)
    case EndOp(at, _, _, _) => at == id
    case _ => false
  }

  lemma HandOnRemembers(s: Scheduler, id: Id, keep: bool)
    ensures HandOnIf(s, id, keep).resumedFrom == s.resumedFrom
  {
  }

  // What is recorded about a mission outlives everything else: status updates,
  // plans, replans, reprioritisation, and any operation on another mission.
  lemma StepRemembers(s: Scheduler, op: Op, id: Id, reason: string)
    requires Repauses(s, id, reason) && !Disturbs(s, op, id)
    ensures Repauses(Apply(s, op), id, reason)
  {
    match op
    case PauseOp(target, why) =>
      if Live(s, target).Ok? {
        var at := Live(s, target).value;
        if s.missions[at].state != Paused && !Repauses(s, at, why) {
          HandOnRemembers(s.(missions := s.missions[at := s.missions[at].(state := Paused, statusText := Or(why, "paused"))]), at, true);
        }
      }
    case _ =>
  }

  lemma {:induction false} RunRemembers(ls: seq<Ledger>, ops: seq<Op>, n: nat, m: nat, id: Id, reason: string)
    requires IsRun(ls, ops) && n <= m <= |ops|
    requires Repauses(ls[n].sched, id, reason)
    requires forall k :: n <= k < m ==> !Disturbs(ls[k].sched, ops[k], id)
    ensures Repauses(ls[m].sched, id, reason)
    decreases m
  {
    if n < m {
      RunRemembers(ls, ops, n, m - 1, id, reason);
      StepRemembers(ls[m - 1].sched, ops[m - 1], id, reason);
    }
  }

  // A resume straight to running records the status text the mission was paused
  // under, and no other resume records anything.
  lemma ResumeRecords(s: Scheduler, target: Target, why: string, token: Id)
    requires Resume(s, target, why, token).Ok?
    ensures
      var id := Live(s, target).value;
      var next := Apply(s, ResumeOp(target, why, token));
      (id in next.resumedFrom <==> next.missions[id].state == Running)
      && (next.missions[id].state == Running ==> Repauses(next, id, s.missions[id].statusText))
  {
  }

  // Pausing a live mission that is not paused blocks it if and only if the
  // reason is the recorded one; the slot, if it was its own, goes to the best
  // queued mission or is given up.
  lemma PauseBlocksIff(s: Scheduler, target: Target, reason: string)
    requires Live(s, target).Ok? && s.missions[Live(s, target).value].state != Paused
    ensures
      var id := Live(s, target).value;
      var next := Apply(s, PauseOp(target, reason));
      && id in next.missions
      && (next.missions[id].state == Blocked <==> Repauses(s, id, reason))
      && (next.missions[id].state == Paused <==> !Repauses(s, id, reason))
      && (Repauses(s, id, reason) ==>
            && next.active != Some(id)
            && id !in next.resumedFrom
            && (s.active == Some(id) ==> PassedOn(s, id, next.active))
            && (s.active != Some(id) ==> next.active == s.active))
  {
    var id := Live(s, target).value;
    if Repauses(s, id, reason) && s.active == Some(id) {
      var s' := s.(resumedFrom := Without(s.resumedFrom, id));
      SlotPassedOn(s', id, Ended(s', id, Blocked, REPAUSED + reason).event.value.mission);
    }
  }

  // The main result. Resumed straight to running from a pause whose recorded
  // reason is r, a mission that is paused for r again, with no other pause, resume
  // or end of it in between, is blocked, and its slot goes to the best of the queue
  // or is given up.
  lemma NoSilentRepauseLoop(
      ls: seq<Ledger>, ops: seq<Op>, n: nat, m: nat, id: Id, again: Target)
    requires IsRun(ls, ops) && n < m < |ops|
    requires ops[n].ResumeOp? && Resume(ls[n].sched, ops[n].target, ops[n].reason, ops[n].token).Ok?
    requires Live(ls[n].sched, ops[n].target) == Ok(id)
    requires ls[n + 1].sched.missions[id].state == Running
    requires forall k :: n < k < m ==> !Disturbs(ls[k].sched, ops[k], id)
    requires ops[m] == PauseOp(again, ls[n].sched.missions[id].statusText)
    requires Live(ls[m].sched, again) == Ok(id) && ls[m].sched.missions[id].state != Paused
    ensures id in ls[m + 1].sched.missions && ls[m + 1].sched.missions[id].state == Blocked
    ensures ls[m + 1].sched.active != Some(id)
    ensures ls[m].sched.active == Some(id) ==> PassedOn(ls[m].sched, id, ls[m + 1].sched.active)
    ensures ls[m].sched.active != Some(id) ==> ls[m + 1].sched.active == ls[m].sched.active
  {
    ResumeRecords(ls[n].sched, ops[n].target, ops[n].reason, ops[n].token);
    RunRemembers(ls, ops, n + 1, m, id, ls[n].sched.missions[id].statusText);
    PauseBlocksIff(ls[m].sched, again, ls[n].sched.missions[id].statusText);
  }

  // ---- Two ways past the guard.

  const REQ := Request("task", "", "", "", 5, true, "")

  // A mission with a plan that has the slot to itself.
  function Alone(execution: Id, state: State, status: string, node: string, progress: real, resumedFrom: map<Id, string>): Scheduler {
    Scheduler(map[1 := Mission(Identity(1, 1, Some(execution), "", "", ""), "task", 5, true, "", state, "task",
                               node, status, progress, "plan", "", "")], Some(1), resumedFrom)
  }

  lemma Started()
    ensures Apply(Apply(EMPTY, SubmitOp(REQ, 1)), SetPlanOp(1, "plan", "", None, 2))
         == Alone(2, Running, "running", "", 0.0, map[])
  {
    assert Strip("task") == "task";
  }

  lemma PausedAlone(execution: Id, reason: string, node: string, progress: real, recorded: map<Id, string>)
    requires 1 in recorded ==> recorded[1] != reason
    ensures Apply(Alone(execution, Running, "running", node, progress, recorded), PauseOp(Named(1), reason))
         == Alone(execution, Paused, Or(reason, "paused"), node, progress, recorded)
  {
    var s := Alone(execution, Running, "running", node, progress, recorded);
    var paused := Alone(execution, Paused, Or(reason, "paused"), node, progress, recorded);
    assert s.missions[1 := paused.missions[1]] == paused.missions;
    assert QueuedIds(paused.missions) == {};
  }

  lemma ResumedAlone(execution: Id, status: string, node: string, progress: real)
    ensures Apply(Alone(execution, Paused, status, node, progress, map[]), ResumeOp(Named(1), "", 3))
         == Alone(3, Running, "running", node, progress, map[1 := status])
  {
    var s := Alone(execution, Paused, status, node, progress, map[]);
    assert s.missions[1 := Alone(3, Running, "running", node, progress, map[]).missions[1]]
        == Alone(3, Running, "running", node, progress, map[]).missions;
  }

  // An empty reason is stored as "paused", so the same empty reason never matches.
  lemma EmptyReasonSlipsThrough()
    ensures
      var running := Apply(Apply(EMPTY, SubmitOp(REQ, 1)), SetPlanOp(1, "plan", "", None, 2));
      var resumed := Apply(Apply(running, PauseOp(Named(1), "")), ResumeOp(Named(1), "", 3));
      && InState(resumed.missions, Running, 1)
      && InState(Apply(resumed, PauseOp(Named(1), "")).missions, Paused, 1)
  {
    Started();
    PausedAlone(2, "", "", 0.0, map[]);
    ResumedAlone(2, "paused", "", 0.0);
    PausedAlone(3, "", "", 0.0, map[1 := "paused"]);
  }

  lemma ReportedAlone(reason: string)
    ensures
      Apply(Alone(2, Paused, reason, "", 0.0, map[]), StatusOp(1, "root", "running", Some(0.5), Some(Identity(1, 1, Some(2), "", "", ""))))
      == Alone(2, Paused, "running", "root", 0.5, map[])
  {
    var s := Alone(2, Paused, reason, "", 0.0, map[]);
    assert s.missions[1 := Alone(2, Paused, "running", "root", 0.5, map[]).missions[1]]
        == Alone(2, Paused, "running", "root", 0.5, map[]).missions;
  }

  // A progress report that arrives while the mission is paused overwrites the
  // reason before the resume records it.
  lemma LateProgressSlipsThrough(reason: string)
    requires reason != "" && reason != "running"
    ensures
      var running := Apply(Apply(EMPTY, SubmitOp(REQ, 1)), SetPlanOp(1, "plan", "", None, 2));
      var paused := Apply(running, PauseOp(Named(1), reason));
      var reported := Apply(paused, StatusOp(1, "root", "running", Some(0.5), Some(Identity(1, 1, Some(2), "", "", ""))));
      var resumed := Apply(reported, ResumeOp(Named(1), "", 3));
      && InState(paused.missions, Paused, 1) && paused.missions[1].statusText == reason
      && InState(resumed.missions, Running, 1)
      && InState(Apply(resumed, PauseOp(Named(1), reason)).missions, Paused, 1)
  {
    Started();
    PausedAlone(2, reason, "", 0.0, map[]);
    ReportedAlone(reason);
    ResumedAlone(2, "running", "root", 0.5);
    PausedAlone(3, reason, "root", 0.5, map[1 := "running"]);
  }
}
