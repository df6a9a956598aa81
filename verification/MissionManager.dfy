// MissionManager: the scheduler as the source has it, an object whose methods
// update its dictionaries in place. Every method does what the scheduler
// function of the same name says, keeps the single slot, and hands the slot to
// the best of the queue when it lets it go.
module MissionManager {
  import opened Common
  import opened Missions
  import opened SingleSlot

  ghost function Closed(s: Scheduler, id: Id, done: Mission): Scheduler {
    var next := HandOnIf(s.(missions := s.missions[id := done]), id, false);
    next.(resumedFrom := Without(next.resumedFrom, id))
  }

  ghost predicate Releases(before: Scheduler, id: Id, active: Option<Id>) {
    && active != Some(id)
    && if before.active == Some(id) then PassedOn(before, id, active) else active == before.active
  }

  lemma ClosedReleases(s: Scheduler, id: Id, done: Mission)
    requires id in s.missions && Terminal(done.state)
    ensures Releases(s, id, Closed(s, id, done).active)
  {
    if s.active == Some(id) {
      SlotPassedOn(s, id, done);
    }
  }

  class Manager {
    var missions: map<Id, Mission>
    var active: Option<Id>
    var resumedFrom: map<Id, string>

    ghost function Now(): Scheduler
      reads this
    {
      Scheduler(missions, active, resumedFrom)
    }

    // At most one mission is planned or run and it is the active one, and nobody
    // queues for a free slot.
    ghost predicate Valid()
      reads this
    {
      SlotInv(Now())
    }

    constructor (ms: seq<Mission>)
      ensures Now() == Rebuilt(ById(ms))
      ensures (forall i :: 0 <= i < |ms| ==> Terminal(ms[i].state)) ==> Valid() && active == None
    {
      missions, active, resumedFrom := map[], None, map[];
      new;
      for i := 0 to |ms|
        invariant missions == ById(ms[..i]) && active == None && resumedFrom == map[]
      {
        assert ms[..i + 1][..i] == ms[..i];
        missions := missions[ms[i].identity.missionId := ms[i]];
      }
      assert ms[..|ms|] == ms;
      active := SelectActiveId();
      RecoveredIsIdle(ms);
    }

    static lemma RecoveredIsIdle(ms: seq<Mission>)
      ensures (forall i :: 0 <= i < |ms| ==> Terminal(ms[i].state)) ==>
        SlotInv(Rebuilt(ById(ms))) && Rebuilt(ById(ms)).active == None
    {
      RecordsById(ms);
      if forall i :: 0 <= i < |ms| ==> Terminal(ms[i].state) {
        assert LiveIds(ById(ms)) == {};
        assert QueuedIds(ById(ms)) <= LiveIds(ById(ms));
      }
    }

    // The first of the candidates sorted by (-priority, id).
    method PickBest(candidates: set<Id>) returns (best: Option<Id>)
      requires candidates <= missions.Keys
      ensures best == Best(missions, candidates)
    {
      best := None;
      var rest := candidates;
      while rest != {}
        invariant rest <= candidates
        invariant best == None <==> rest == candidates
        invariant best.Some? ==> IsBest(missions, candidates - rest, best.value)
        decreases |rest|
      {
        var id :| id in rest;
        StepsOn(candidates, rest, id);
        if best == None || Before(missions, id, best.value) {
          best := Some(id);
        }
        rest := rest - {id};
      }
      if best.Some? {
        assert candidates - rest == candidates;
        BestIsUnique(missions, candidates, best.value, Best(missions, candidates).value);
      }
    }

    lemma StepsOn(candidates: set<Id>, rest: set<Id>, id: Id)
      requires rest <= candidates && id in rest
      ensures candidates - (rest - {id}) == candidates - rest + {id}
    {
    }

    method NextQueuedId() returns (id: Option<Id>)
      ensures id == Best(missions, QueuedIds(missions))
    {
      id := PickBest(QueuedIds(missions));
    }

    method SelectActiveId() returns (id: Option<Id>)
      ensures id == Best(missions, LiveIds(missions))
    {
      id := PickBest(LiveIds(missions));
    }

    method Promote(next: Id)
      requires next in missions
      modifies this
      ensures Now() == Scheduler(Promoted(old(missions), next), Some(next), old(resumedFrom))
    {
      active := Some(next);
      missions := missions[next := missions[next].(state := Planning, statusText := "planning")];
    }

    method PromoteNextQueued()
      modifies this
      ensures Now() == HandOn(old(Now()), false)
    {
      var next := NextQueuedId();
      if next == None {
        active := None;
        return;
      }
      Promote(next.value);
    }

    method ReleaseSlotForPause()
      modifies this
      ensures Now() == HandOn(old(Now()), true)
    {
      var next := NextQueuedId();
      if next == None {
        return;
      }
      Promote(next.value);
    }

    // A mission is over: its record, the slot and the reason recorded for it.
    method Close(id: Id, done: Mission)
      requires id in missions
      modifies this
      ensures Now() == Closed(old(Now()), id, done)
    {
      missions := missions[id := done];
      if active == Some(id) {
        PromoteNextQueued();
      }
      resumedFrom := resumedFrom - {id};
    }

    method Suspend(id: Id, paused: Mission)
      requires id in missions
      modifies this
      ensures Now() == HandOnIf(old(Now()).(missions := old(missions)[id := paused]), id, true)
    {
      missions := missions[id := paused];
      if active == Some(id) {
        ReleaseSlotForPause();
      }
    }

    // The outcome of an operation against its specification.
    ghost predicate Does(before: Scheduler, op: Op, r: Attempt<Event>)
      reads this
    {
      && Now() == Apply(before, op)
      && match Try(before, op)
         case Refused(reason) => r == Refused(reason)
         case Ok(change) => r.Ok? && change.event == Some(r.value)
    }

    // Only the subject's own slot passes on, and it passes to the best of the queue.
    ghost predicate Released(before: Scheduler, id: Id)
      reads this`active
    {
      Releases(before, id, active)
    }

    method SubmitTask(req: Request, token: Id) returns (r: Event)
      requires Valid() && token !in missions
      modifies this
      ensures Does(old(Now()), SubmitOp(req, token), Ok(r))
      ensures Valid()
    {
      SubmitKeepsSlot(Now(), req, token);
      if Strip(req.intentText) == "" {
        return Event(RejectedEvent, RejectedMission(req, token), "", None);
      }
      var busy := active.Some? && active.value in missions && missions[active.value].state != Paused;
      if busy && !req.allowQueue {
        return Event(RejectedEvent, RejectedMission(req, token), "", None);
      }
      var mission := NewMission(req, token, busy);
      missions := missions[token := mission];
      if !busy {
        active := Some(token);
      }
      return Event(AcceptedEvent, mission, "accepted", None);
    }

    // _resolve_control_id and _require, with the terminal check of the callers.
    method Require(target: Target) returns (r: Attempt<Id>)
      ensures r == Live(Now(), target)
    {
      var id: Id;
      match target {
        case Named(named) => id := named;
        case Current =>
          if active == None {
            return Refused("no active mission");
          }
          id := active.value;
      }
      if id !in missions {
        return Refused("unknown mission_id");
      }
      if Terminal(missions[id].state) {
        return Refused("mission is terminal");
      }
      return Ok(id);
    }

    method CheckCanUpdate(id: Id, expected: Option<Identity>) returns (r: Attempt<Id>)
      ensures r == Updatable(Now(), id, expected)
    {
      r := Require(Named(id));
      if r.Ok? && expected.Some? && missions[id].identity != expected.value {
        return Refused("mission identity changed");
      }
    }

    method ApplyPlan(id: Id, bt: string, goalSpec: string, expected: Option<Identity>, token: Id)
      returns (r: Attempt<Event>)
      requires Valid()
      modifies this
      ensures Does(old(Now()), SetPlanOp(id, bt, goalSpec, expected, token), r)
      ensures Valid() <==> (r.Ok? ==> SlotFreeFor(old(Now()), id))
    {
      ghost var before := Now();
      var checked := CheckCanUpdate(id, expected);
      if checked.Refused? {
        return Refused(checked.reason);
      }
      var mission := missions[id];
      var identity := mission.identity;
      if mission.bt != "" || identity.executionId.Some? || identity.planVersion == 0 {
        identity := identity.NextPlan();
      }
      var planned := mission.(identity := identity.ForExecution(token), state := Running,
                              bt := bt, goalSpec := goalSpec, statusText := "running");
      missions := missions[id := planned];
      active := Some(id);
      SetPlanKeepsSlotIff(before, id, bt, goalSpec, expected, token);
      return Ok(Event(PlannedEvent, planned, "planned", None));
    }

    method Replan(target: Target, reason: string) returns (r: Attempt<Event>)
      requires Valid()
      modifies this
      ensures Does(old(Now()), ReplanOp(target, reason), r)
      ensures Valid() <==> (r.Ok? ==> SlotFreeFor(old(Now()), Live(old(Now()), target).value))
    {
      ghost var before := Now();
      var found := Require(target);
      if found.Refused? {
        return Refused(found.reason);
      }
      var mission := missions[found.value];
      var replanning := mission.(identity := mission.identity.NextPlan(), state := Planning, activeNode := "",
                                 statusText := Or(reason, "replanning"), bt := "", goalSpec := "");
      missions := missions[found.value := replanning];
      active := Some(found.value);
      ReplanKeepsSlotIff(before, target, reason);
      return Ok(Event(PreemptedEvent, replanning, replanning.statusText, None));
    }

    method PauseTask(target: Target, reason: string) returns (r: Attempt<Event>)
      requires Valid()
      modifies this
      ensures Does(old(Now()), PauseOp(target, reason), r)
      ensures Valid()
      ensures r.Ok? && r.value.kind == BlockedEvent ==> Released(old(Now()), Live(old(Now()), target).value)
    {
      PauseKeepsSlot(Now(), target, reason);
      var found := Require(target);
      if found.Refused? {
        return Refused(found.reason);
      }
      var id := found.value;
      var mission := missions[id];
      if mission.state == Paused {
        return Ok(Event(PausedEvent, mission, mission.statusText, None));
      }
      if id in resumedFrom && resumedFrom[id] == reason {
        resumedFrom := resumedFrom - {id};
        r := End(id, Blocked, REPAUSED + reason, None);
        return;
      }
      var paused := mission.(state := Paused, statusText := Or(reason, "paused"));
      Suspend(id, paused);
      return Ok(Event(PausedEvent, paused, paused.statusText, None));
    }

    method ResumeTask(target: Target, reason: string, token: Id) returns (r: Attempt<Event>)
      requires Valid()
      modifies this
      ensures Does(old(Now()), ResumeOp(target, reason, token), r)
      ensures Valid()
    {
      ResumeKeepsSlot(Now(), target, reason, token);
      var found := Require(target);
      if found.Refused? {
        return Refused(found.reason);
      }
      var id := found.value;
      var mission := missions[id];
      if mission.state != Paused {
        return Refused("mission is not paused");
      }
      var slotFree := active == None || active == Some(id);
      var next := if slotFree then (if mission.bt != "" then Running else Planning) else Queued;
      var identity := if mission.bt != "" && slotFree then mission.identity.ForExecution(token) else mission.identity;
      var resumed := mission.(identity := identity, state := next, statusText := Or(reason, DefaultStatus(next)));
      missions := missions[id := resumed];
      if slotFree {
        active := Some(id);
      }
      if next == Running {
        resumedFrom := resumedFrom[id := mission.statusText];
      } else {
        resumedFrom := resumedFrom - {id};
      }
      return Ok(Event(ResumedEvent, resumed, resumed.statusText, None));
    }

    method ReprioritizeTask(target: Target, priority: int, preempt: bool, reason: string) returns (r: Attempt<Event>)
      requires Valid()
      modifies this
      ensures Does(old(Now()), ReprioritizeOp(target, priority, preempt, reason), r)
      ensures Valid()
      ensures r.Ok? && r.value.preempted.Some? ==>
        active == Some(r.value.mission.identity.missionId) && r.value.preempted == old(active)
    {
      ReprioritizeKeepsSlot(Now(), target, priority, preempt, reason);
      var found := Require(target);
      if found.Refused? {
        return Refused(found.reason);
      }
      var id := found.value;
      var mission := missions[id];
      var updated := mission.(priority := Clamp(0, 255, priority), statusText := Or(reason, mission.statusText));
      missions := missions[id := updated];
      if preempt && updated.state == Queued && active.Some? && active.value in missions {
        var other := missions[active.value];
        if active.value != id && !Terminal(other.state) && updated.priority > other.priority {
          var demoted := other.(identity := other.identity.NextPlan(), state := Queued, activeNode := "",
                                statusText := DEMOTED, bt := "", goalSpec := "");
          var promoted := updated.(state := Planning, activeNode := "", statusText := Or(reason, "planning"),
                                   bt := "", goalSpec := "");
          var preempted := active;
          missions := missions[active.value := demoted];
          missions := missions[id := promoted];
          active := Some(id);
          assert missions == old(missions)[preempted.value := demoted][id := promoted];
          return Ok(Event(PreemptedEvent, promoted, promoted.statusText, preempted));
        }
      }
      return Ok(Event(AcceptedEvent, updated, Or(reason, "priority updated"), None));
    }

    method CancelTask(target: Target, reason: string) returns (r: Attempt<Event>)
      requires Valid()
      modifies this
      ensures Does(old(Now()), CancelOp(target, reason), r)
      ensures Valid()
      ensures r.Ok? ==> Released(old(Now()), Live(old(Now()), target).value)
    {
      ghost var before := Now();
      CancelKeepsSlot(before, target, reason);
      var found := Require(target);
      if found.Refused? {
        return Refused(found.reason);
      }
      var id := found.value;
      var canceled := missions[id].(state := Canceled, statusText := Or(reason, "canceled"));
      Close(id, canceled);
      ClosedReleases(before, id, canceled);
      return Ok(Event(CanceledEvent, canceled, canceled.statusText, None));
    }

    method End(id: Id, state: State, message: string, expected: Option<Identity>) returns (r: Attempt<Event>)
      requires Valid()
      modifies this
      ensures Does(old(Now()), EndOp(id, state, message, expected), r)
      ensures Valid()
      ensures r.Ok? ==> Released(old(Now()), id)
    {
      ghost var before := Now();
      if state !in {Succeeded, Failed, Blocked} {
        return Refused("terminal state must be succeeded, failed or blocked");
      }
      var checked := CheckCanUpdate(id, expected);
      if checked.Refused? {
        return Refused(checked.reason);
      }
      var mission := missions[id];
      var done := mission.(state := state, statusText := message,
                           progress := if state == Succeeded then 1.0 else mission.progress);
      Close(id, done);
      EndedKeepsSlot(before, id, state, message);
      ClosedReleases(before, id, done);
      return Ok(Event(TerminalEvent(state), done, message, None));
    }

    method AcceptsAsyncResult(identity: Identity) returns (ok: bool)
      ensures ok == Accepts(Now(), identity)
    {
      if identity.missionId !in missions {
        return false;
      }
      var mission := missions[identity.missionId];
      if mission.state == Paused || Terminal(mission.state) {
        return false;
      }
      if mission.identity.planVersion != identity.planVersion {
        return false;
      }
      if identity.executionId.Some? && mission.identity.executionId.Some? {
        return mission.identity.executionId == identity.executionId;
      }
      return true;
    }

    method Report(id: Id, activeNode: string, statusText: string, progress: Option<real>, expected: Option<Identity>)
      returns (r: Attempt<Mission>)
      requires Valid()
      modifies this
      ensures Valid() && active == old(active)
      ensures
        var op := StatusOp(id, activeNode, statusText, progress, expected);
        && Now() == Apply(old(Now()), op)
        && match Try(old(Now()), op)
           case Refused(reason) => r == Refused(reason)
           case Ok(_) => id in missions && r == Ok(missions[id])
    {
      var checked := CheckCanUpdate(id, expected);
      if checked.Refused? {
        return Refused(checked.reason);
      }
      var mission := missions[id];
      var updated := mission.(activeNode := Or(activeNode, mission.activeNode),
                              statusText := Or(statusText, mission.statusText),
                              progress := if progress.Some? then UnitClamp(progress.value) else mission.progress);
      SlotRewrite(Now(), id, updated);
      missions := missions[id := updated];
      return Ok(updated);
    }
  }
}
