// Mission records and the operations of the one-slot priority scheduler, as
// functions from one scheduler state to the next.
module Missions {
  import opened Common

  // Mission and execution ids are the scheduler's fresh tokens; tokens of one
  // fixed length compare as numbers do.
  type Id = nat

  datatype Identity = Identity(
    missionId: Id, planVersion: nat, executionId: Option<Id>,
    parent: string, source: string, operatorId: string)
  {
    function NextPlan(): Identity {
      this.(planVersion := planVersion + 1, executionId := None)
    }

    function ForExecution(token: Id): Identity {
      this.(executionId := Some(token))
    }
  }

  datatype State = Queued | Planning | Running | Paused | Succeeded | Failed | Canceled | Blocked

  predicate Terminal(state: State) {
    state in {Succeeded, Failed, Canceled, Blocked}
  }

  // bt and goalSpec are "" while there is no plan.
  datatype Mission = Mission(
    identity: Identity, intentText: string, priority: int, allowQueue: bool, context: string,
    state: State, title: string, activeNode: string, statusText: string, progress: real,
    bt: string, goalSpec: string, errorCode: string)

  datatype EventKind =
    | AcceptedEvent | RejectedEvent | PlannedEvent | PausedEvent | ResumedEvent | PreemptedEvent
    | CanceledEvent | SucceededEvent | FailedEvent | BlockedEvent

  datatype Event = Event(kind: EventKind, mission: Mission, message: string, preempted: Option<Id>)

  datatype Scheduler = Scheduler(missions: map<Id, Mission>, active: Option<Id>, resumedFrom: map<Id, string>)

  const EMPTY := Scheduler(map[], None, map[])

  // What an operation leaves behind; update_status publishes no event.
  datatype Change = Change(sched: Scheduler, event: Option<Event>)

  // "", "active" and "current" name the active mission.
  datatype Target = Current | Named(id: Id)

  datatype Request = Request(
    intentText: string, source: string, operatorId: string, parent: string,
    priority: int, allowQueue: bool, context: string)

  function Or(text: string, fallback: string): string {
    if text == "" then fallback else text
  }

  // ---- Choosing a mission: highest priority first, least id on ties.

  predicate InState(missions: map<Id, Mission>, state: State, id: Id) {
    id in missions && missions[id].state == state
  }

  predicate Before(missions: map<Id, Mission>, a: Id, b: Id)
    requires a in missions && b in missions
  {
    missions[a].priority > missions[b].priority || (missions[a].priority == missions[b].priority && a <= b)
  }

  ghost predicate IsBest(missions: map<Id, Mission>, candidates: set<Id>, id: Id)
    requires candidates <= missions.Keys
  {
    id in candidates && forall other :: other in candidates ==> Before(missions, id, other)
  }

  function QueuedIds(missions: map<Id, Mission>): set<Id> {
    set id | id in missions && missions[id].state == Queued
  }

  function LiveIds(missions: map<Id, Mission>): set<Id> {
    set id | id in missions && !Terminal(missions[id].state)
  }

  lemma {:induction false} BestExists(missions: map<Id, Mission>, candidates: set<Id>)
    requires candidates <= missions.Keys && candidates != {}
    ensures exists id :: IsBest(missions, candidates, id)
    decreases |candidates|
  {
    var x :| x in candidates;
    var rest := candidates - {x};
    assert forall other :: other in candidates ==> other == x || other in rest;
    if rest == {} {
      assert IsBest(missions, candidates, x);
    } else {
      BestExists(missions, rest);
      var y :| IsBest(missions, rest, y);
      assert IsBest(missions, candidates, if Before(missions, x, y) then x else y);
    }
  }

  // The best is strictly ahead of every other: of higher priority, or of the same
  // and a smaller id.
  lemma BestMeans(missions: map<Id, Mission>, candidates: set<Id>, id: Id)
    requires candidates <= missions.Keys && id in candidates
    ensures IsBest(missions, candidates, id) <==>
      forall other :: other in candidates && other != id ==>
        || missions[id].priority > missions[other].priority
        || (missions[id].priority == missions[other].priority && id < other)
  {
    if IsBest(missions, candidates, id) {
      forall other | other in candidates && other != id
        ensures missions[id].priority > missions[other].priority
             || (missions[id].priority == missions[other].priority && id < other)
      {
        assert Before(missions, id, other);
      }
    }
  }

  lemma BestIsUnique(missions: map<Id, Mission>, candidates: set<Id>, a: Id, b: Id)
    requires candidates <= missions.Keys
    requires IsBest(missions, candidates, a) && IsBest(missions, candidates, b)
    ensures a == b
  {
    assert Before(missions, a, b) && Before(missions, b, a);
  }

  ghost function Best(missions: map<Id, Mission>, candidates: set<Id>): (best: Option<Id>)
    requires candidates <= missions.Keys
    ensures best == None <==> candidates == {}
    ensures best.Some? ==> IsBest(missions, candidates, best.value)
  {
    if candidates == {} then None
    else
      BestExists(missions, candidates);
      var id :| IsBest(missions, candidates, id);
      Some(id)
  }

  // A dictionary of mission records by id; a later record replaces an earlier one.
  function ById(ms: seq<Mission>): map<Id, Mission> {
    if ms == [] then map[]
    else ById(ms[..|ms| - 1])[ms[|ms| - 1].identity.missionId := ms[|ms| - 1]]
  }

  lemma {:induction false} RecordsById(ms: seq<Mission>)
    ensures forall id :: id in ById(ms) ==> ById(ms)[id].identity.missionId == id && ById(ms)[id] in ms
  {
    if ms != [] {
      RecordsById(ms[..|ms| - 1]);
    }
  }

  // A manager rebuilt from mission records.
  ghost function Rebuilt(missions: map<Id, Mission>): Scheduler {
    Scheduler(missions, Best(missions, LiveIds(missions)), map[])
  }

  // ---- The operations.

  function Resolve(s: Scheduler, target: Target): Attempt<Id> {
    match target
    case Named(id) => Ok(id)
    case Current => if s.active.Some? then Ok(s.active.value) else Refused("no active mission")
  }

  // Resolve a target to a mission that is not terminal.
  function Live(s: Scheduler, target: Target): Attempt<Id> {
    match Resolve(s, target)
    case Refused(reason) => Refused(reason)
    case Ok(id) =>
      if id !in s.missions then Refused("unknown mission_id")
      else if Terminal(s.missions[id].state) then Refused("mission is terminal")
      else Ok(id)
  }

  // _check_can_update.
  function Updatable(s: Scheduler, id: Id, expected: Option<Identity>): Attempt<Id> {
    match Live(s, Named(id))
    case Refused(reason) => Refused(reason)
    case Ok(_) =>
      if expected.Some? && s.missions[id].identity != expected.value then Refused("mission identity changed")
      else Ok(id)
  }

  function Without(m: map<Id, string>, id: Id): map<Id, string> {
    m - {id}
  }

  predicate SlotBusy(s: Scheduler) {
    s.active.Some? && s.active.value in s.missions && s.missions[s.active.value].state != Paused
  }

  function RejectedMission(req: Request, token: Id): Mission {
    Mission(Identity(token, 0, None, req.parent, req.source, req.operatorId),
            "", 0, false, "", Failed, "", "", "rejected", 0.0, "", "", "")
  }

  function Shorten(text: string): string {
    var t := Strip(text);
    if |t| <= 80 then t else t[..80]
  }

  function NewMission(req: Request, token: Id, busy: bool): Mission {
    Mission(Identity(token, 0, None, req.parent, req.source, req.operatorId),
            req.intentText, Clamp(0, 255, req.priority), req.allowQueue, req.context,
            if busy then Queued else Planning, Shorten(req.intentText), "",
            if busy then "queued" else "planning", 0.0, "", "", "")
  }

  predicate Accepted(s: Scheduler, req: Request) {
    Strip(req.intentText) != "" && (SlotBusy(s) ==> req.allowQueue)
  }

  // submit always answers; a rejection leaves a record of its own in the event only.
  function Submit(s: Scheduler, req: Request, token: Id): Change {
    if !Accepted(s, req) then Change(s, Some(Event(RejectedEvent, RejectedMission(req, token), "", None)))
    else
      var m := NewMission(req, token, SlotBusy(s));
      Change(Scheduler(s.missions[token := m], if SlotBusy(s) then s.active else Some(token), s.resumedFrom),
             Some(Event(AcceptedEvent, m, "accepted", None)))
  }

  function PlannedIdentity(m: Mission, token: Id): Identity {
    var i := m.identity;
    (if m.bt != "" || i.executionId.Some? || i.planVersion == 0 then i.NextPlan() else i).ForExecution(token)
  }

  function SetPlan(
      s: Scheduler, id: Id, bt: string, goalSpec: string, expected: Option<Identity>, token: Id): Attempt<Change> {
    match Updatable(s, id, expected)
    case Refused(reason) => Refused(reason)
    case Ok(_) =>
      var m := s.missions[id];
      var planned := m.(identity := PlannedIdentity(m, token), state := Running,
                        bt := bt, goalSpec := goalSpec, statusText := "running");
      Ok(Change(Scheduler(s.missions[id := planned], Some(id), s.resumedFrom),
                Some(Event(PlannedEvent, planned, "planned", None))))
  }

  function RequestReplan(s: Scheduler, target: Target, reason: string): Attempt<Change> {
    match Live(s, target)
    case Refused(why) => Refused(why)
    case Ok(id) =>
      var m := s.missions[id];
      var replanning := m.(identity := m.identity.NextPlan(), state := Planning, activeNode := "",
                           statusText := Or(reason, "replanning"), bt := "", goalSpec := "");
      Ok(Change(Scheduler(s.missions[id := replanning], Some(id), s.resumedFrom),
                Some(Event(PreemptedEvent, replanning, replanning.statusText, None))))
  }

  function Promoted(missions: map<Id, Mission>, id: Id): map<Id, Mission>
    requires id in missions
  {
    missions[id := missions[id].(state := Planning, statusText := "planning")]
  }

  // The slot goes to the best queued mission; with none queued it is kept or,
  // after a terminal transition, given up.
  ghost function HandOn(s: Scheduler, keep: bool): Scheduler {
    match Best(s.missions, QueuedIds(s.missions))
    case None => if keep then s else s.(active := None)
    case Some(id) => s.(missions := Promoted(s.missions, id), active := Some(id))
  }

  ghost function HandOnIf(s: Scheduler, id: Id, keep: bool): Scheduler {
    if s.active == Some(id) then HandOn(s, keep) else s
  }

  function TerminalEvent(state: State): EventKind {
    match state
    case Succeeded => SucceededEvent
    case Failed => FailedEvent
    case _ => BlockedEvent
  }

  // mark_terminal once the checks have passed.
  ghost function Ended(s: Scheduler, id: Id, state: State, message: string): Change
    requires id in s.missions
  {
    var m := s.missions[id];
    var done := m.(state := state, statusText := message, progress := if state == Succeeded then 1.0 else m.progress);
    var next := HandOnIf(s.(missions := s.missions[id := done]), id, false);
    Change(next.(resumedFrom := Without(next.resumedFrom, id)),
           Some(Event(TerminalEvent(state), done, message, None)))
  }

  ghost function MarkTerminal(
      s: Scheduler, id: Id, state: State, message: string, expected: Option<Identity>): Attempt<Change> {
    if state !in {Succeeded, Failed, Blocked} then Refused("terminal state must be succeeded, failed or blocked")
    else match Updatable(s, id, expected)
      case Refused(reason) => Refused(reason)
      case Ok(_) => Ok(Ended(s, id, state, message))
  }

  const REPAUSED := "resumed, but immediately re-paused on the identical reason: "

  // Resumed from this very reason: pausing once more would go round in circles.
  predicate Repauses(s: Scheduler, id: Id, reason: string) {
    id in s.resumedFrom && s.resumedFrom[id] == reason
  }

  ghost function Pause(s: Scheduler, target: Target, reason: string): Attempt<Change> {
    match Live(s, target)
    case Refused(why) => Refused(why)
    case Ok(id) =>
      var m := s.missions[id];
      if m.state == Paused then Ok(Change(s, Some(Event(PausedEvent, m, m.statusText, None))))
      else if Repauses(s, id, reason) then
        Ok(Ended(s.(resumedFrom := Without(s.resumedFrom, id)), id, Blocked, REPAUSED + reason))
      else
        var paused := m.(state := Paused, statusText := Or(reason, "paused"));
        Ok(Change(HandOnIf(s.(missions := s.missions[id := paused]), id, true),
                  Some(Event(PausedEvent, paused, paused.statusText, None))))
  }

  function ResumeState(s: Scheduler, id: Id): State
    requires id in s.missions
  {
    if s.active == None || s.active == Some(id) then (if s.missions[id].bt != "" then Running else Planning)
    else Queued
  }

  function DefaultStatus(state: State): string {
    match state
    case Running => "running"
    case Planning => "planning"
    case _ => "queued"
  }

  function Resume(s: Scheduler, target: Target, reason: string, token: Id): Attempt<Change> {
    match Live(s, target)
    case Refused(why) => Refused(why)
    case Ok(id) =>
      var m := s.missions[id];
      if m.state != Paused then Refused("mission is not paused")
      else
        var state := ResumeState(s, id);
        var resumed := m.(identity := if state == Running then m.identity.ForExecution(token) else m.identity,
                          state := state, statusText := Or(reason, DefaultStatus(state)));
        Ok(Change(Scheduler(s.missions[id := resumed],
                            if state == Queued then s.active else Some(id),
                            if state == Running then s.resumedFrom[id := m.statusText] else Without(s.resumedFrom, id)),
                  Some(Event(ResumedEvent, resumed, resumed.statusText, None))))
  }

  // Whether the mission, at its new priority, takes the slot from the active one.
  predicate Preempts(s: Scheduler, id: Id, priority: int, preempt: bool)
    requires id in s.missions
  {
    && preempt
    && s.missions[id].state == Queued
    && s.active.Some? && s.active.value in s.missions && s.active.value != id
    && !Terminal(s.missions[s.active.value].state)
    && priority > s.missions[s.active.value].priority
  }

  const DEMOTED := "preempted by higher priority mission"

  function Reprioritize(s: Scheduler, target: Target, priority: int, preempt: bool, reason: string): Attempt<Change> {
    match Live(s, target)
    case Refused(why) => Refused(why)
    case Ok(id) =>
      var m := s.missions[id];
      var p := Clamp(0, 255, priority);
      var updated := m.(priority := p, statusText := Or(reason, m.statusText));
      if Preempts(s, id, p, preempt) then
        var a := s.missions[s.active.value];
        var demoted := a.(identity := a.identity.NextPlan(), state := Queued, activeNode := "",
                          statusText := DEMOTED, bt := "", goalSpec := "");
        var promoted := updated.(state := Planning, activeNode := "", statusText := Or(reason, "planning"),
                                 bt := "", goalSpec := "");
        Ok(Change(Scheduler(s.missions[s.active.value := demoted][id := promoted], Some(id), s.resumedFrom),
                  Some(Event(PreemptedEvent, promoted, promoted.statusText, s.active))))
      else
        Ok(Change(s.(missions := s.missions[id := updated]),
                  Some(Event(AcceptedEvent, updated, Or(reason, "priority updated"), None))))
  }

  ghost function Cancel(s: Scheduler, target: Target, reason: string): Attempt<Change> {
    match Live(s, target)
    case Refused(why) => Refused(why)
    case Ok(id) =>
      var canceled := s.missions[id].(state := Canceled, statusText := Or(reason, "canceled"));
      var next := HandOnIf(s.(missions := s.missions[id := canceled]), id, false);
      Ok(Change(next.(resumedFrom := Without(next.resumedFrom, id)),
                Some(Event(CanceledEvent, canceled, canceled.statusText, None))))
  }

  function UnitClamp(x: real): real {
    if x < 0.0 then 0.0 else if x > 1.0 then 1.0 else x
  }

  function UpdateStatus(
      s: Scheduler, id: Id, activeNode: string, statusText: string, progress: Option<real>, expected: Option<Identity>)
      : Attempt<Change> {
    match Updatable(s, id, expected)
    case Refused(reason) => Refused(reason)
    case Ok(_) =>
      var m := s.missions[id];
      var updated := m.(activeNode := Or(activeNode, m.activeNode), statusText := Or(statusText, m.statusText),
                        progress := if progress.Some? then UnitClamp(progress.value) else m.progress);
      Ok(Change(s.(missions := s.missions[id := updated]), None))
  }

  // accepts_async_result: may a result computed under this identity still count?
  predicate Accepts(s: Scheduler, i: Identity) {
    && i.missionId in s.missions
    && var m := s.missions[i.missionId];
       && m.state != Paused && !Terminal(m.state)
       && m.identity.planVersion == i.planVersion
       && (i.executionId.Some? && m.identity.executionId.Some? ==> m.identity.executionId == i.executionId)
  }

  // ---- One operation, whichever it is.

  datatype Op =
    | SubmitOp(req: Request, token: Id)
    | SetPlanOp(id: Id, bt: string, goalSpec: string, expected: Option<Identity>, token: Id)
    | ReplanOp(target: Target, reason: string)
    | PauseOp(target: Target, reason: string)
    | ResumeOp(target: Target, reason: string, token: Id)
    | ReprioritizeOp(target: Target, priority: int, preempt: bool, reason: string)
    | CancelOp(target: Target, reason: string)
    | EndOp(id: Id, state: State, message: string, expected: Option<Identity>)
    | StatusOp(id: Id, activeNode: string, statusText: string, progress: Option<real>, expected: Option<Identity>)

  ghost function Try(s: Scheduler, op: Op): Attempt<Change> {
    match op
    case SubmitOp(req, token) => Ok(Submit(s, req, token))
    case SetPlanOp(id, bt, goalSpec, expected, token) => SetPlan(s, id, bt, goalSpec, expected, token)
    case ReplanOp(target, reason) => RequestReplan(s, target, reason)
    case PauseOp(target, reason) => Pause(s, target, reason)
    case ResumeOp(target, reason, token) => Resume(s, target, reason, token)
    case ReprioritizeOp(target, priority, preempt, reason) => Reprioritize(s, target, priority, preempt, reason)
    case CancelOp(target, reason) => Cancel(s, target, reason)
    case EndOp(id, state, message, expected) => MarkTerminal(s, id, state, message, expected)
    case StatusOp(id, activeNode, statusText, progress, expected) =>
      UpdateStatus(s, id, activeNode, statusText, progress, expected)
  }

  // A refused operation changes nothing.
  ghost function Apply(s: Scheduler, op: Op): Scheduler {
    match Try(s, op)
    case Ok(change) => change.sched
    case Refused(_) => s
  }

  // The event of an operation that succeeded.
  ghost function EventOf(s: Scheduler, op: Op): Option<Event> {
    match Try(s, op)
    case Ok(change) => change.event
    case Refused(_) => None
  }

  // The mission an operation is about.
  function Subject(s: Scheduler, op: Op): Attempt<Id> {
    match op
    case SubmitOp(_, token) => Ok(token)
    case SetPlanOp(id, _, _, _, _) => Ok(id)
    case ReplanOp(target, _) => Resolve(s, target)
    case PauseOp(target, _) => Resolve(s, target)
    case ResumeOp(target, _, _) => Resolve(s, target)
    case ReprioritizeOp(target, _, _, _) => Resolve(s, target)
    case CancelOp(target, _) => Resolve(s, target)
    case EndOp(id, _, _, _) => Ok(id)
    case StatusOp(id, _, _, _, _) => Ok(id)
  }

  // The tokens an operation draws. They are fresh: never drawn before.
  function Tokens(op: Op): set<Id> {
    match op
    case SubmitOp(_, token) => {token}
    case SetPlanOp(_, _, _, _, token) => {token}
    case ResumeOp(_, _, token) => {token}
    case _ => {}
  }
}
