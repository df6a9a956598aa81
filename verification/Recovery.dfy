// Crash recovery: what a manager rebuilt from the journal knows.
module Recovery {
  import opened Common
  import opened Missions
  import opened MissionHistory
  import opened SingleSlot
  import opened MissionRecords
  import opened NodeProtocol
  import opened NodeSafety

  // load_latest_missions: the last record of every mission in the journal.
  function Latest(journal: seq<Mission>): map<Id, Mission> {
    ById(journal)
  }

  // _recover_mission.
  function Recover(m: Mission): Mission {
    if Terminal(m.state) then m
    else m.(identity := m.identity.(executionId := None), state := Blocked, activeNode := "",
            statusText := "recovered after node restart; manual review required",
            errorCode := "recovered_after_restart")
  }

  function Recovered(journal: seq<Mission>): map<Id, Mission> {
    map id | id in Latest(journal) :: Recover(Latest(journal)[id])
  }

  // The node's start: a manager over the recovered missions, no threads.
  ghost function Boot(journal: seq<Mission>, used: set<Id>): NodeState {
    NodeState(Ledger(Rebuilt(Recovered(journal)), used), multiset{}, {}, map[], map[], journal)
  }

  // What a mission was submitted as, and the priority it has.
  predicate SameRequest(m: Mission, m': Mission) {
    && m'.intentText == m.intentText && m'.title == m.title && m'.context == m.context
    && m'.allowQueue == m.allowQueue && m'.priority == m.priority
    && m'.identity.missionId == m.identity.missionId && m'.identity.parent == m.identity.parent
    && m'.identity.source == m.identity.source && m'.identity.operatorId == m.identity.operatorId
  }

  // Every mission of the scheduler has a record; the last one of a terminal
  // mission recovers to exactly that mission, that of a live one is live and
  // has its request and priority. The journal may know more: rejected submissions.
  ghost predicate JournalInv(s: Scheduler, journal: seq<Mission>) {
    && (forall id :: id in Latest(journal) ==> Latest(journal)[id].identity.missionId == id)
    && forall id :: id in s.missions ==>
         id in Latest(journal)
         && (if Terminal(s.missions[id].state) then Recover(Latest(journal)[id]) == s.missions[id]
             else !Terminal(Latest(journal)[id].state) && SameRequest(Latest(journal)[id], s.missions[id]))
  }

  lemma Appended(journal: seq<Mission>, m: Mission)
    ensures Latest(journal + [m]) == Latest(journal)[m.identity.missionId := m]
  {
    assert (journal + [m])[..|journal|] == journal;
  }

  // What an operation journals: the new record of its subject, a rejection, or
  // nothing; and the missions it moves without journaling stay live.
  lemma PublishedIsSubject(s: Scheduler, op: Op)
    requires SlotInv(s) && Fresh(s, op) && EventOf(s, op).Some?
    ensures
      var m := EventOf(s, op).value.mission;
      var next := Apply(s, op);
      || (m.identity.missionId in next.missions && next.missions[m.identity.missionId] == m)
      || (op.SubmitOp? && next == s && m.identity.missionId == op.token && Terminal(m.state))
  {
    match op
    case PauseOp(target, reason) => PausePublishes(s, target, reason);
    case CancelOp(target, reason) => CancelPublishes(s, target, reason);
    case EndOp(id, state, message, expected) => EndedPublishes(s, id, state, message);
    case SubmitOp(_, _) =>
    case ReprioritizeOp(_, _, _, _) => ReprioritizePublishes(s, op);
    case _ => RewritePublishes(s, op);
  }

  lemma ReprioritizePublishes(s: Scheduler, op: Op)
    requires SlotInv(s) && op.ReprioritizeOp? && EventOf(s, op).Some?
    ensures
      var m := EventOf(s, op).value.mission;
      m.identity.missionId in Apply(s, op).missions && Apply(s, op).missions[m.identity.missionId] == m
  {
  }

  lemma RewritePublishes(s: Scheduler, op: Op)
    requires SlotInv(s) && (op.SetPlanOp? || op.ReplanOp? || op.ResumeOp? || op.StatusOp?) && EventOf(s, op).Some?
    ensures
      var m := EventOf(s, op).value.mission;
      m.identity.missionId in Apply(s, op).missions && Apply(s, op).missions[m.identity.missionId] == m
  {
  }

  lemma EndedPublishes(s: Scheduler, id: Id, state: State, message: string)
    requires id in s.missions && Terminal(state)
    ensures
      var change := Ended(s, id, state, message);
      id in change.sched.missions && change.sched.missions[id] == change.event.value.mission
  {
    var done := Ended(s, id, state, message).event.value.mission;
    HandOnPromotes(s.(missions := s.missions[id := done]), false, id);
  }

  lemma CancelPublishes(s: Scheduler, target: Target, reason: string)
    requires Live(s, target).Ok?
    ensures
      var id := Live(s, target).value;
      var change := Cancel(s, target, reason).value;
      id in change.sched.missions && change.sched.missions[id] == change.event.value.mission
  {
    var id := Live(s, target).value;
    var canceled := s.missions[id].(state := Canceled, statusText := Or(reason, "canceled"));
    HandOnPromotes(s.(missions := s.missions[id := canceled]), false, id);
  }

  lemma PausePublishes(s: Scheduler, target: Target, reason: string)
    requires Live(s, target).Ok?
    ensures
      var id := Live(s, target).value;
      var change := Pause(s, target, reason).value;
      id in change.sched.missions && change.sched.missions[id] == change.event.value.mission
  {
    var id := Live(s, target).value;
    if s.missions[id].state == Paused {
    } else if Repauses(s, id, reason) {
      EndedPublishes(s.(resumedFrom := Without(s.resumedFrom, id)), id, Blocked, REPAUSED + reason);
    } else {
      var paused := s.missions[id].(state := Paused, statusText := Or(reason, "paused"));
      HandOnPromotes(s.(missions := s.missions[id := paused]), true, id);
    }
  }

  // A mission becomes terminal only as the published subject of an operation.
  lemma EndsInPublic(s: Scheduler, op: Op, id: Id)
    requires SlotInv(s) && Fresh(s, op) && id in Apply(s, op).missions
    requires Terminal(Apply(s, op).missions[id].state) && !(id in s.missions && Terminal(s.missions[id].state))
    ensures EventOf(s, op).Some? && EventOf(s, op).value.mission.identity.missionId == id
  {
    match op
    case PauseOp(target, reason) => PauseEnds(s, target, reason, id);
    case CancelOp(target, reason) => CancelEnds(s, target, reason, id);
    case EndOp(at, state, message, expected) => EndedEnds(s, at, state, message, id);
    case _ => NothingEnds(s, op, id);
  }

  lemma NothingEnds(s: Scheduler, op: Op, id: Id)
    requires !op.PauseOp? && !op.CancelOp? && !op.EndOp? && id in Apply(s, op).missions
    ensures Terminal(Apply(s, op).missions[id].state) ==> id in s.missions && Terminal(s.missions[id].state)
  {
  }

  lemma EndedEnds(s: Scheduler, at: Id, state: State, message: string, id: Id)
    requires at in s.missions && Terminal(state) && id in Ended(s, at, state, message).sched.missions
    requires Terminal(Ended(s, at, state, message).sched.missions[id].state)
    ensures id == at || (id in s.missions && Terminal(s.missions[id].state))
  {
    var done := Ended(s, at, state, message).event.value.mission;
    HandOnPromotes(s.(missions := s.missions[at := done]), false, id);
  }

  lemma CancelEnds(s: Scheduler, target: Target, reason: string, id: Id)
    requires Live(s, target).Ok? && id in Apply(s, CancelOp(target, reason)).missions
    requires Terminal(Apply(s, CancelOp(target, reason)).missions[id].state)
    ensures id == Live(s, target).value || (id in s.missions && Terminal(s.missions[id].state))
  {
    var at := Live(s, target).value;
    var canceled := s.missions[at].(state := Canceled, statusText := Or(reason, "canceled"));
    HandOnPromotes(s.(missions := s.missions[at := canceled]), false, id);
  }

  lemma PauseEnds(s: Scheduler, target: Target, reason: string, id: Id)
    requires Live(s, target).Ok? && id in Apply(s, PauseOp(target, reason)).missions
    requires Terminal(Apply(s, PauseOp(target, reason)).missions[id].state)
    ensures id == Live(s, target).value || (id in s.missions && Terminal(s.missions[id].state))
  {
    var at := Live(s, target).value;
    if s.missions[at].state == Paused {
    } else if Repauses(s, at, reason) {
      EndedEnds(s.(resumedFrom := Without(s.resumedFrom, at)), at, Blocked, REPAUSED + reason, id);
    } else {
      var paused := s.missions[at].(state := Paused, statusText := Or(reason, "paused"));
      HandOnPromotes(s.(missions := s.missions[at := paused]), true, id);
    }
  }

  // A mission that the journal hears nothing new about.
  predicate Kept(s: Scheduler, next: Scheduler, id: Id) {
    && id in s.missions && id in next.missions
    && (if Terminal(s.missions[id].state) then next.missions[id] == s.missions[id]
        else !Terminal(next.missions[id].state) && SameRequest(s.missions[id], next.missions[id]))
  }

  lemma PriorityIsPublished(s: Scheduler, op: Op, id: Id)
    requires SlotInv(s) && op.ReprioritizeOp? && id in s.missions && Takes(s, op, id)
    ensures EventOf(s, op).Some? && EventOf(s, op).value.mission.identity.missionId == id
  {
  }

  lemma OthersStay(s: Scheduler, op: Op, id: Id)
    requires SlotInv(s) && Fresh(s, op) && id in Apply(s, op).missions
    requires EventOf(s, op).Some? ==> EventOf(s, op).value.mission.identity.missionId != id
    ensures Kept(s, Apply(s, op), id)
  {
    if id !in s.missions {
      OnlySubmitAdds(s, op, id);
    } else {
      StepEvolves(s, op, id);
      RequestStays(s, op, id);
      PriorityLaw(s, op, id);
      if op.ReprioritizeOp? && Takes(s, op, id) {
        PriorityIsPublished(s, op, id);
      }
    }
    if Terminal(Apply(s, op).missions[id].state) && !Terminal(s.missions[id].state) {
      EndsInPublic(s, op, id);
    }
  }

  lemma JournalExtends(s: Scheduler, next: Scheduler, journal: seq<Mission>, m: Mission)
    requires JournalInv(s, journal)
    requires m.identity.missionId in next.missions ==> next.missions[m.identity.missionId] == m
    requires forall id :: id in next.missions && id != m.identity.missionId ==> Kept(s, next, id)
    ensures JournalInv(next, journal + [m])
  {
    Appended(journal, m);
    forall id | id in next.missions
      ensures id in Latest(journal + [m])
      ensures if Terminal(next.missions[id].state) then Recover(Latest(journal + [m])[id]) == next.missions[id]
              else !Terminal(Latest(journal + [m])[id].state) && SameRequest(Latest(journal + [m])[id], next.missions[id])
    {
      if id != m.identity.missionId {
        assert Kept(s, next, id);
      }
    }
  }

  lemma JournalStays(s: Scheduler, next: Scheduler, journal: seq<Mission>)
    requires JournalInv(s, journal)
    requires forall id :: id in next.missions ==> Kept(s, next, id)
    ensures JournalInv(next, journal)
  {
    forall id | id in next.missions
      ensures id in Latest(journal)
      ensures if Terminal(next.missions[id].state) then Recover(Latest(journal)[id]) == next.missions[id]
              else !Terminal(Latest(journal)[id].state) && SameRequest(Latest(journal)[id], next.missions[id])
    {
      assert Kept(s, next, id);
    }
  }

  lemma OperationKeepsJournal(s: Scheduler, op: Op, journal: seq<Mission>)
    requires SlotInv(s) && Fresh(s, op) && JournalInv(s, journal)
    ensures JournalInv(Apply(s, op), journal + Published(s, op))
  {
    var next := Apply(s, op);
    if EventOf(s, op).Some? {
      var m := EventOf(s, op).value.mission;
      PublishedIsSubject(s, op);
      forall id | id in next.missions && id != m.identity.missionId
        ensures Kept(s, next, id)
      {
        OthersStay(s, op, id);
      }
      JournalExtends(s, next, journal, m);
    } else {
      forall id | id in next.missions
        ensures Kept(s, next, id)
      {
        OthersStay(s, op, id);
      }
      JournalStays(s, next, journal);
      assert journal + [] == journal;
    }
  }

  lemma NextJournal(n: NodeState, act: Act)
    ensures
      if Reaches(n.ledger.sched, act)
      then && Next(n, act).ledger.sched == Apply(n.ledger.sched, OpOf(n.ledger.sched, act))
           && Next(n, act).journal == n.journal + Published(n.ledger.sched, OpOf(n.ledger.sched, act))
      else Next(n, act).ledger == n.ledger && Next(n, act).journal == n.journal
  {
    NextIs(n, act);
  }

  lemma StepKeepsJournal(n: NodeState, act: Act)
    requires NodeInv(n) && Enabled(n, act) && JournalInv(n.ledger.sched, n.journal)
    ensures JournalInv(Next(n, act).ledger.sched, Next(n, act).journal)
  {
    NextJournal(n, act);
    if Reaches(n.ledger.sched, act) {
      var op := OpOf(n.ledger.sched, act);
      assert Fresh(n.ledger.sched, op);
      OperationKeepsJournal(n.ledger.sched, op, n.journal);
    }
  }

  lemma {:induction false} RunKeepsJournal(ns: seq<NodeState>, acts: seq<Act>, k: nat)
    requires IsNodeRun(ns, acts) && k <= |acts| && NodeInv(ns[0])
    requires JournalInv(ns[0].ledger.sched, ns[0].journal)
    ensures JournalInv(ns[k].ledger.sched, ns[k].journal)
    decreases k
  {
    if k > 0 {
      var n, act := ns[k - 1], acts[k - 1];
      RunKeepsJournal(ns, acts, k - 1);
      assert NodeInv(n) by {
        RunKeepsInv(ns, acts, k - 1);
      }
      assert JournalInv(Next(n, act).ledger.sched, Next(n, act).journal) by {
        StepKeepsJournal(n, act);
      }
    }
  }

  // ---- Which missions come back: those of the run and its rejected submissions.

  // The id a step uses up for a submission it rejects.
  function Rejected(s: Scheduler, act: Act): set<Id> {
    if Reaches(s, act) then Refusals(s, OpOf(s, act)) else {}
  }

  // The ids of the submissions rejected in the first k steps.
  function RejectedIds(ns: seq<NodeState>, acts: seq<Act>, k: nat): set<Id>
    requires k <= |acts| <= |ns|
  {
    if k == 0 then {} else RejectedIds(ns, acts, k - 1) + Rejected(ns[k - 1].ledger.sched, acts[k - 1])
  }

  // The ids an operation adds to the scheduler, and to the journal.
  function Added(s: Scheduler, op: Op): set<Id> {
    if op.SubmitOp? && Accepted(s, op.req) then {op.token} else {}
  }

  lemma KeysAfter(s: Scheduler, op: Op)
    requires Fresh(s, op)
    ensures Apply(s, op).missions.Keys == s.missions.Keys + Added(s, op)
  {
    var next := Apply(s, op).missions;
    forall id | id in next && id !in s.missions
      ensures id in Added(s, op)
    {
      OnlySubmitAdds(s, op, id);
    }
    forall id | id in s.missions
      ensures id in next
    {
      StepEvolves(s, op, id);
    }
    SubmissionAdded(s, op);
  }

  lemma SubmissionAdded(s: Scheduler, op: Op)
    ensures Added(s, op) <= Apply(s, op).missions.Keys
  {
  }

  lemma SubmissionPublished(s: Scheduler, op: Op)
    requires op.SubmitOp?
    ensures EventOf(s, op).Some? && EventOf(s, op).value.mission.identity.missionId == op.token
  {
  }

  lemma PublishedKeys(s: Scheduler, op: Op, journal: seq<Mission>)
    requires SlotInv(s) && Fresh(s, op) && s.missions.Keys <= Latest(journal).Keys
    ensures Latest(journal + Published(s, op)).Keys == Latest(journal).Keys + if op.SubmitOp? then {op.token} else {}
  {
    if EventOf(s, op).Some? {
      var m := EventOf(s, op).value.mission;
      PublishedIsSubject(s, op);
      KeysAfter(s, op);
      Appended(journal, m);
      assert Published(s, op) == [m];
      if op.SubmitOp? {
        SubmissionPublished(s, op);
      }
    } else {
      if op.SubmitOp? {
        SubmissionPublished(s, op);
      }
      assert journal + [] == journal;
    }
  }

  function Refusals(s: Scheduler, op: Op): set<Id> {
    if op.SubmitOp? && !Accepted(s, op.req) then {op.token} else {}
  }

  lemma OperationKeepsKeys(s: Scheduler, op: Op, journal: seq<Mission>, rejected: set<Id>)
    requires SlotInv(s) && Fresh(s, op) && Latest(journal).Keys == s.missions.Keys + rejected
    ensures Latest(journal + Published(s, op)).Keys == Apply(s, op).missions.Keys + (rejected + Refusals(s, op))
  {
    PublishedKeys(s, op, journal);
    KeysAfter(s, op);
  }

  lemma OperationIsFresh(n: NodeState, act: Act)
    requires NodeInv(n) && Enabled(n, act)
    ensures SlotInv(n.ledger.sched) && Fresh(n.ledger.sched, OpOf(n.ledger.sched, act))
  {
  }

  lemma StepKeepsKeys(n: NodeState, act: Act, rejected: set<Id>)
    requires NodeInv(n) && Enabled(n, act) && Latest(n.journal).Keys == n.ledger.sched.missions.Keys + rejected
    ensures Latest(Next(n, act).journal).Keys
         == Next(n, act).ledger.sched.missions.Keys + (rejected + Rejected(n.ledger.sched, act))
  {
    NextJournal(n, act);
    OperationIsFresh(n, act);
    if Reaches(n.ledger.sched, act) {
      OperationKeepsKeys(n.ledger.sched, OpOf(n.ledger.sched, act), n.journal, rejected);
    } else {
      assert rejected + {} == rejected;
    }
  }

  lemma {:induction false} RunKeepsKeys(ns: seq<NodeState>, acts: seq<Act>, k: nat)
    requires IsNodeRun(ns, acts) && k <= |acts| && NodeInv(ns[0])
    requires Latest(ns[0].journal).Keys == ns[0].ledger.sched.missions.Keys
    ensures Latest(ns[k].journal).Keys == ns[k].ledger.sched.missions.Keys + RejectedIds(ns, acts, k)
    decreases k
  {
    if k > 0 {
      RunKeepsKeys(ns, acts, k - 1);
      assert NodeInv(ns[k - 1]) by {
        RunKeepsInv(ns, acts, k - 1);
      }
      StepKeepsKeys(ns[k - 1], acts[k - 1], RejectedIds(ns, acts, k - 1));
    }
  }

  // Tokens that cover the journal.
  predicate Covers(used: set<Id>, journal: seq<Mission>) {
    forall id :: id in Latest(journal) ==>
      && id in used
      && (Latest(journal)[id].identity.executionId.Some? ==> Latest(journal)[id].identity.executionId.value in used)
  }

  // A booted node has no active mission, nothing live, and starts a run in which
  // all the invariants hold.
  lemma BootIsSafe(journal: seq<Mission>, used: set<Id>)
    requires Covers(used, journal)
    ensures NodeInv(Boot(journal, used))
    ensures JournalInv(Boot(journal, used).ledger.sched, journal)
    ensures Boot(journal, used).ledger.sched.active == None
    ensures LiveIds(Boot(journal, used).ledger.sched.missions) == {}
  {
    BootIsJournaled(journal);
    RebuiltIsQuiet(Recovered(journal));
    NothingInFlight(Boot(journal, used));
  }

  lemma BootIsJournaled(journal: seq<Mission>)
    ensures forall id :: id in Recovered(journal) ==>
      Recovered(journal)[id].identity.missionId == id && Terminal(Recovered(journal)[id].state)
    ensures JournalInv(Rebuilt(Recovered(journal)), journal)
  {
    RecordsById(journal);
  }

  lemma RebuiltIsQuiet(missions: map<Id, Mission>)
    requires forall id :: id in missions ==> missions[id].identity.missionId == id && Terminal(missions[id].state)
    ensures Rebuilt(missions) == Scheduler(missions, None, map[]) && LiveIds(missions) == {}
    ensures SlotInv(Rebuilt(missions))
  {
    assert LiveIds(missions) == {};
    assert QueuedIds(missions) <= LiveIds(missions);
  }

  lemma NothingInFlight(n: NodeState)
    requires Recorded(n.ledger) && SlotInv(n.ledger.sched) && n.ledger.sched.active == None
    requires n == NodeState(n.ledger, multiset{}, {}, map[], map[], n.journal)
    ensures NodeInv(n)
  {
    forall i | RunsAs(n.ledger.sched, i)
      ensures false
    {
      RunningIsActive(n.ledger.sched, i);
    }
    forall i | ReadyAs(n.ledger.sched, i)
      ensures false
    {
      ReadyIsActive(n.ledger.sched, i);
    }
  }

  // The main result. Stop a node at any point of any run and rebuild its manager
  // from the journal: every terminal mission is back exactly, every other one is
  // back as BLOCKED for review with its request and priority, nobody is active and
  // nothing is live. Missions promoted and demoted without a journal entry of their
  // own are no exception. Besides them exactly the submissions rejected in the run
  // come back.
  lemma CrashRecovery(before: seq<Mission>, used: set<Id>, ns: seq<NodeState>, acts: seq<Act>, k: nat, id: Id)
    requires Covers(used, before)
    requires IsNodeRun(ns, acts) && ns[0] == Boot(before, used) && k <= |acts|
    requires id in ns[k].ledger.sched.missions
    ensures Rebuilt(Recovered(ns[k].journal)).missions.Keys == ns[k].ledger.sched.missions.Keys + RejectedIds(ns, acts, k)
    ensures
      var m := ns[k].ledger.sched.missions[id];
      var rebuilt := Rebuilt(Recovered(ns[k].journal));
      && rebuilt.active == None && LiveIds(rebuilt.missions) == {}
      && id in rebuilt.missions
      && (Terminal(m.state) ==> rebuilt.missions[id] == m)
      && (!Terminal(m.state) ==>
            && rebuilt.missions[id].state == Blocked
            && SameRequest(m, rebuilt.missions[id])
            && rebuilt.missions[id].identity.executionId == None
            && rebuilt.missions[id].errorCode == "recovered_after_restart")
  {
    BootedRunIsJournaled(before, used, ns, acts, k);
    NobodyIsLive(ns[k].journal);
    ComesBack(ns[k].ledger.sched, ns[k].journal, id);
  }

  lemma BootedRunIsJournaled(before: seq<Mission>, used: set<Id>, ns: seq<NodeState>, acts: seq<Act>, k: nat)
    requires Covers(used, before)
    requires IsNodeRun(ns, acts) && ns[0] == Boot(before, used) && k <= |acts|
    ensures JournalInv(ns[k].ledger.sched, ns[k].journal)
    ensures Latest(ns[k].journal).Keys == ns[k].ledger.sched.missions.Keys + RejectedIds(ns, acts, k)
  {
    BootIsSafe(before, used);
    RunKeepsJournal(ns, acts, k);
    RunKeepsKeys(ns, acts, k);
  }

  lemma ComesBack(s: Scheduler, journal: seq<Mission>, id: Id)
    requires JournalInv(s, journal) && id in s.missions
    ensures
      var m, missions := s.missions[id], Rebuilt(Recovered(journal)).missions;
      && id in missions
      && (Terminal(m.state) ==> missions[id] == m)
      && (!Terminal(m.state) ==>
            && missions[id].state == Blocked
            && SameRequest(m, missions[id])
            && missions[id].identity.executionId == None
            && missions[id].errorCode == "recovered_after_restart")
  {
  }

  lemma NobodyIsLive(journal: seq<Mission>)
    ensures LiveIds(Recovered(journal)) == {}
    ensures Rebuilt(Recovered(journal)).active == None
  {
    assert LiveIds(Recovered(journal)) == {};
  }

  // Recovery is idempotent: crashing again right after the restart, with nothing
  // or with the recovered records journaled, rebuilds the same manager.
  lemma RecoveryIsIdempotent(journal: seq<Mission>, more: seq<Mission>)
    requires forall i :: 0 <= i < |more| ==>
      more[i].identity.missionId in Recovered(journal) && more[i] == Recovered(journal)[more[i].identity.missionId]
    ensures Recovered(journal + more) == Recovered(journal)
    decreases |more|
  {
    if more == [] {
      assert journal + more == journal;
    } else {
      var n := |more| - 1;
      RecoveryIsIdempotent(journal, more[..n]);
      assert journal + more == (journal + more[..n]) + [more[n]];
      Appended(journal + more[..n], more[n]);
    }
  }

  // MissionJournal: an append-only file of mission records.
  class MissionJournal {
    var records: seq<Mission>

    constructor (records: seq<Mission>)
      ensures this.records == records
    {
      this.records := records;
    }

    method Append(m: Mission)
      modifies this
      ensures records == old(records) + [m]
    {
      records := records + [m];
    }

    // The dictionary of the last records.
    method LoadLatest() returns (latest: map<Id, Mission>)
      ensures latest == Latest(records)
    {
      latest := map[];
      for i := 0 to |records|
        invariant latest == Latest(records[..i])
      {
        assert records[..i + 1] == records[..i] + [records[i]];
        Appended(records[..i], records[i]);
        latest := latest[records[i].identity.missionId := records[i]];
      }
      assert records[..|records|] == records;
    }

    method LoadLatestMissions(recoverNonterminal: bool) returns (ms: seq<Mission>)
      ensures ById(ms) == if recoverNonterminal then Recovered(records) else Latest(records)
    {
      var latest := LoadLatest();
      RecordsById(records);
      if recoverNonterminal {
        latest := map id | id in latest :: Recover(latest[id]);
      }
      ms := Values(latest);
    }
  }

  // tuple(latest.values()), in some order.
  method Values(latest: map<Id, Mission>) returns (ms: seq<Mission>)
    requires forall id :: id in latest ==> latest[id].identity.missionId == id
    ensures ById(ms) == latest
  {
    ms := [];
    var rest := latest.Keys;
    while rest != {}
      invariant rest <= latest.Keys
      invariant ById(ms).Keys == latest.Keys - rest
      invariant forall id :: id in ById(ms) ==> ById(ms)[id] == latest[id]
      decreases |rest|
    {
      var id :| id in rest;
      Appended(ms, latest[id]);
      ms := ms + [latest[id]];
      rest := rest - {id};
    }
  }
}
