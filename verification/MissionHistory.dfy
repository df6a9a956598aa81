// What becomes of a mission's record and identity over any run: nothing is
// lost, terminal records are frozen, versions only grow, and a result computed
// under an identity the mission no longer has is never accepted again.
module MissionHistory {
  import opened Common
  import opened Missions

  // A token that is drawn now names no mission yet.
  predicate Fresh(s: Scheduler, op: Op) {
    forall t :: t in Tokens(op) ==> t !in s.missions
  }

  // What one operation may do to one mission's record: nothing, once it is
  // terminal; its identity stays, bumps its version or draws a fresh execution.
  ghost predicate Evolves(m: Mission, m': Mission, tokens: set<Id>) {
    var i, j := m.identity, m'.identity;
    && (Terminal(m.state) ==> m' == m)
    && j == i.(planVersion := j.planVersion, executionId := j.executionId)
    && j.planVersion >= i.planVersion
    && (j.executionId.Some? ==> j.executionId == i.executionId || j.executionId.value in tokens)
    && (j.planVersion == i.planVersion && j != i ==> j.executionId.Some? && j.executionId.value in tokens)
  }

  lemma HandOnPromotes(s: Scheduler, keep: bool, id: Id)
    requires id in s.missions
    ensures id in HandOn(s, keep).missions
    ensures HandOn(s, keep).missions.Keys == s.missions.Keys
    ensures
      var m, m' := s.missions[id], HandOn(s, keep).missions[id];
      m' == m || (IsBest(s.missions, QueuedIds(s.missions), id) && m' == m.(state := Planning, statusText := "planning"))
  {
  }

  lemma EndedEvolves(s: Scheduler, at: Id, state: State, message: string, id: Id)
    requires at in s.missions && !Terminal(s.missions[at].state) && Terminal(state) && id in s.missions
    ensures id in Ended(s, at, state, message).sched.missions
    ensures Evolves(s.missions[id], Ended(s, at, state, message).sched.missions[id], {})
  {
    var done := Ended(s, at, state, message).event.value.mission;
    HandOnPromotes(s.(missions := s.missions[at := done]), false, id);
  }

  lemma CancelEvolves(s: Scheduler, target: Target, reason: string, id: Id)
    requires Live(s, target).Ok? && id in s.missions
    ensures id in Apply(s, CancelOp(target, reason)).missions
    ensures Evolves(s.missions[id], Apply(s, CancelOp(target, reason)).missions[id], {})
  {
    var at := Live(s, target).value;
    var canceled := s.missions[at].(state := Canceled, statusText := Or(reason, "canceled"));
    HandOnPromotes(s.(missions := s.missions[at := canceled]), false, id);
  }

  lemma PauseEvolves(s: Scheduler, target: Target, reason: string, id: Id)
    requires Live(s, target).Ok? && id in s.missions
    ensures id in Apply(s, PauseOp(target, reason)).missions
    ensures Evolves(s.missions[id], Apply(s, PauseOp(target, reason)).missions[id], {})
  {
    var at := Live(s, target).value;
    if s.missions[at].state == Paused {
    } else if Repauses(s, at, reason) {
      EndedEvolves(s.(resumedFrom := Without(s.resumedFrom, at)), at, Blocked, REPAUSED + reason, id);
    } else {
      var paused := s.missions[at].(state := Paused, statusText := Or(reason, "paused"));
      HandOnPromotes(s.(missions := s.missions[at := paused]), true, id);
    }
  }

  lemma ReprioritizeEvolves(s: Scheduler, target: Target, priority: int, preempt: bool, reason: string, id: Id)
    requires Live(s, target).Ok? && id in s.missions
    ensures id in Apply(s, ReprioritizeOp(target, priority, preempt, reason)).missions
    ensures Evolves(s.missions[id], Apply(s, ReprioritizeOp(target, priority, preempt, reason)).missions[id], {})
  {
  }

  lemma StepEvolves(s: Scheduler, op: Op, id: Id)
    requires id in s.missions && Fresh(s, op)
    ensures id in Apply(s, op).missions
    ensures Evolves(s.missions[id], Apply(s, op).missions[id], Tokens(op))
  {
    match op
    case SubmitOp(_, _) =>
    case SetPlanOp(_, _, _, _, _) =>
    case ReplanOp(_, _) =>
    case PauseOp(target, reason) =>
      if Live(s, target).Ok? {
        PauseEvolves(s, target, reason, id);
      }
    case ResumeOp(_, _, _) =>
    case ReprioritizeOp(target, priority, preempt, reason) =>
      if Live(s, target).Ok? {
        ReprioritizeEvolves(s, target, priority, preempt, reason, id);
      }
    case CancelOp(target, reason) =>
      if Live(s, target).Ok? {
        CancelEvolves(s, target, reason, id);
      }
    case EndOp(at, state, message, expected) =>
      if MarkTerminal(s, at, state, message, expected).Ok? {
        EndedEvolves(s, at, state, message, id);
      }
    case StatusOp(_, _, _, _, _) =>
  }

  // Only a submission adds a mission.
  lemma OnlySubmitAdds(s: Scheduler, op: Op, id: Id)
    requires id in Apply(s, op).missions && id !in s.missions
    ensures op.SubmitOp? && op.token == id && Accepted(s, op.req)
    ensures Apply(s, op).missions[id] == NewMission(op.req, id, SlotBusy(s))
  {
  }

  // Scheduler states with the tokens drawn so far.
  datatype Ledger = Ledger(sched: Scheduler, used: set<Id>)

  ghost predicate Step(l: Ledger, op: Op, l': Ledger) {
    && Tokens(op) !! l.used
    && l' == Ledger(Apply(l.sched, op), l.used + Tokens(op))
  }

  // Every id and execution token on record was drawn at some time.
  ghost predicate Recorded(l: Ledger) {
    forall id :: id in l.sched.missions ==>
      && id in l.used
      && (l.sched.missions[id].identity.executionId.Some? ==> l.sched.missions[id].identity.executionId.value in l.used)
  }

  ghost predicate IsRun(ls: seq<Ledger>, ops: seq<Op>) {
    && |ls| == |ops| + 1
    && Recorded(ls[0])
    && forall i :: 0 <= i < |ops| ==> Step(ls[i], ops[i], ls[i + 1])
  }

  lemma DrawnIsFresh(l: Ledger, op: Op, l': Ledger)
    requires Recorded(l) && Step(l, op, l')
    ensures Fresh(l.sched, op)
  {
  }

  lemma StepKeepsRecord(l: Ledger, op: Op, l': Ledger)
    requires Recorded(l) && Step(l, op, l')
    ensures Recorded(l')
  {
    DrawnIsFresh(l, op, l');
    forall id | id in l'.sched.missions
      ensures id in l'.used
      ensures l'.sched.missions[id].identity.executionId.Some? ==> l'.sched.missions[id].identity.executionId.value in l'.used
    {
      if id in l.sched.missions {
        StepEvolves(l.sched, op, id);
      } else {
        OnlySubmitAdds(l.sched, op, id);
      }
    }
  }

  lemma {:induction false} RunKeepsRecord(ls: seq<Ledger>, ops: seq<Op>, n: nat)
    requires IsRun(ls, ops) && n <= |ops|
    ensures Recorded(ls[n])
    decreases n
  {
    if n > 0 {
      RunKeepsRecord(ls, ops, n - 1);
      StepKeepsRecord(ls[n - 1], ops[n - 1], ls[n]);
    }
  }

  // ---- Any stretch of a run, seen from its two ends.

  // j is what i may have become, all tokens in `used` being drawn before.
  predicate Newer(i: Identity, j: Identity, used: set<Id>) {
    || j.planVersion > i.planVersion
    || (j.planVersion == i.planVersion && j.executionId.Some? && j.executionId.value !in used)
  }

  predicate Became(m: Mission, m': Mission, used: set<Id>) {
    var i, j := m.identity, m'.identity;
    && (Terminal(m.state) ==> m' == m)
    && j == i.(planVersion := j.planVersion, executionId := j.executionId)
    && (j == i || Newer(i, j, used))
  }

  ghost predicate Grows(l: Ledger, l': Ledger) {
    && Recorded(l) && Recorded(l')
    && l.used <= l'.used
    && forall id :: id in l.sched.missions ==>
         id in l'.sched.missions && Became(l.sched.missions[id], l'.sched.missions[id], l.used)
  }

  lemma StepGrows(l: Ledger, op: Op, l': Ledger)
    requires Recorded(l) && Step(l, op, l')
    ensures Grows(l, l')
  {
    StepKeepsRecord(l, op, l');
    DrawnIsFresh(l, op, l');
    forall id | id in l.sched.missions
      ensures id in l'.sched.missions && Became(l.sched.missions[id], l'.sched.missions[id], l.used)
    {
      StepEvolves(l.sched, op, id);
    }
  }

  lemma GrowsOn(a: Ledger, b: Ledger, c: Ledger)
    requires Grows(a, b) && Grows(b, c)
    ensures Grows(a, c)
  {
    forall id | id in a.sched.missions
      ensures id in c.sched.missions && Became(a.sched.missions[id], c.sched.missions[id], a.used)
    {
      assert Became(a.sched.missions[id], b.sched.missions[id], a.used);
      assert Became(b.sched.missions[id], c.sched.missions[id], b.used);
    }
  }

  // A sequence of ledgers, each grown from the one before, whatever the cause.
  ghost predicate Chain(ls: seq<Ledger>) {
    |ls| > 0 && Recorded(ls[0]) && forall i :: 0 <= i < |ls| - 1 ==> Grows(ls[i], ls[i + 1])
  }

  lemma RunIsChain(ls: seq<Ledger>, ops: seq<Op>)
    requires IsRun(ls, ops)
    ensures Chain(ls)
  {
    forall i | 0 <= i < |ops|
      ensures Grows(ls[i], ls[i + 1])
    {
      RunKeepsRecord(ls, ops, i);
      StepGrows(ls[i], ops[i], ls[i + 1]);
    }
  }

  lemma {:induction false} ChainGrows(ls: seq<Ledger>, n: nat, m: nat)
    requires Chain(ls) && n <= m < |ls|
    ensures Grows(ls[n], ls[m])
    decreases m
  {
    if n == m {
      if n > 0 {
        assert Grows(ls[n - 1], ls[n]);
      }
    } else {
      ChainGrows(ls, n, m - 1);
      GrowsOn(ls[n], ls[m - 1], ls[m]);
    }
  }

  // No mission is ever lost, a terminal record is unchanged by every later
  // operation, and plan versions never decrease.
  lemma NothingIsLost(ls: seq<Ledger>, n: nat, m: nat, id: Id)
    requires Chain(ls) && n <= m < |ls| && id in ls[n].sched.missions
    ensures id in ls[m].sched.missions
    ensures Terminal(ls[n].sched.missions[id].state) ==> ls[m].sched.missions[id] == ls[n].sched.missions[id]
    ensures ls[n].sched.missions[id].identity.planVersion <= ls[m].sched.missions[id].identity.planVersion
  {
    ChainGrows(ls, n, m);
  }

  // The identity a mission has at n, if it comes from an execution, is accepted
  // at m exactly when it is still the mission's identity and the mission is
  // neither paused nor terminal.
  lemma AcceptedIff(ls: seq<Ledger>, n: nat, m: nat, id: Id)
    requires Chain(ls) && n <= m < |ls| && id in ls[n].sched.missions
    requires ls[n].sched.missions[id].identity.missionId == id
    requires ls[n].sched.missions[id].identity.executionId.Some?
    ensures id in ls[m].sched.missions
    ensures
      var i, now := ls[n].sched.missions[id].identity, ls[m].sched.missions[id];
      Accepts(ls[m].sched, i) <==> now.identity == i && now.state != Paused && !Terminal(now.state)
  {
    ChainGrows(ls, n, m);
  }

  // Once the identity has changed it never comes back: no late result that was
  // computed under it is accepted, however many plans and pauses follow.
  lemma NoLateAcceptance(ls: seq<Ledger>, n: nat, m: nat, k: nat, id: Id)
    requires Chain(ls) && n <= m <= k < |ls| && id in ls[n].sched.missions
    requires ls[n].sched.missions[id].identity.missionId == id
    requires id in ls[m].sched.missions && ls[m].sched.missions[id].identity != ls[n].sched.missions[id].identity
    ensures id in ls[k].sched.missions && ls[k].sched.missions[id].identity != ls[n].sched.missions[id].identity
    ensures ls[n].sched.missions[id].identity.executionId.Some? ==> !Accepts(ls[k].sched, ls[n].sched.missions[id].identity)
  {
    ChainGrows(ls, n, m);
    ChainGrows(ls, m, k);
    ChainGrows(ls, n, k);
    if ls[n].sched.missions[id].identity.executionId.Some? {
      AcceptedIff(ls, n, k, id);
    }
  }

  // ---- Plans.

  predicate AppliesPlan(s: Scheduler, op: Op) {
    op.SetPlanOp? && SetPlan(s, op.id, op.bt, op.goalSpec, op.expected, op.token).Ok?
  }

  function AcceptedIdentity(s: Scheduler, op: Op): Identity
    requires AppliesPlan(s, op)
  {
    PlannedIdentity(s.missions[op.id], op.token)
  }

  lemma AppliedPlanShows(l: Ledger, op: Op, l': Ledger)
    requires Step(l, op, l') && AppliesPlan(l.sched, op)
    ensures op.id in l.sched.missions && op.id in l'.sched.missions
    ensures l'.sched.missions[op.id].identity == AcceptedIdentity(l.sched, op)
    ensures l'.sched.missions[op.id].identity.executionId == Some(op.token) && op.token !in l.used
    ensures op.expected.Some? ==> l.sched.missions[op.id].identity == op.expected.value
  {
  }

  // Every accepted plan of a mission has a strictly greater version than every
  // plan accepted for it before.
  lemma PlanVersionsIncrease(ls: seq<Ledger>, ops: seq<Op>, n: nat, m: nat)
    requires IsRun(ls, ops) && n < m < |ops|
    requires AppliesPlan(ls[n].sched, ops[n]) && AppliesPlan(ls[m].sched, ops[m]) && ops[n].id == ops[m].id
    ensures AcceptedIdentity(ls[n].sched, ops[n]).planVersion < AcceptedIdentity(ls[m].sched, ops[m]).planVersion
  {
    RunIsChain(ls, ops);
    ChainGrows(ls, n + 1, m);
    AppliedPlanShows(ls[n], ops[n], ls[n + 1]);
  }

  // A mission that never had a plan.
  predicate Unplanned(m: Mission) {
    m.bt == "" && m.identity.executionId == None
  }

  // The operation sends the mission back to planning: a replan, or a preemption
  // by a mission of higher priority.
  predicate SendsBack(s: Scheduler, op: Op, id: Id) {
    || (op.ReplanOp? && Live(s, op.target) == Ok(id))
    || (&& op.ReprioritizeOp? && Live(s, op.target).Ok? && s.active == Some(id)
        && Preempts(s, Live(s, op.target).value, Clamp(0, 255, op.priority), op.preempt))
  }

  // How often the mission was sent back by the operations from n up to m.
  function SentBack(ls: seq<Ledger>, ops: seq<Op>, id: Id, n: nat, m: nat): nat
    requires n <= m <= |ops| <= |ls|
    decreases m - n
  {
    if n == m then 0
    else SentBack(ls, ops, id, n, m - 1) + if SendsBack(ls[m - 1].sched, ops[m - 1], id) then 1 else 0
  }

  // What an operation other than a plan makes of a mission that has none.
  predicate Counted(m: Mission, m': Mission, back: bool) {
    Unplanned(m') && m'.identity.planVersion == m.identity.planVersion + if back then 1 else 0
  }

  lemma EndedCounts(s: Scheduler, at: Id, state: State, message: string, id: Id)
    requires at in s.missions && id in s.missions && Unplanned(s.missions[id])
    ensures id in Ended(s, at, state, message).sched.missions
    ensures Counted(s.missions[id], Ended(s, at, state, message).sched.missions[id], false)
  {
    var done := Ended(s, at, state, message).event.value.mission;
    HandOnPromotes(s.(missions := s.missions[at := done]), false, id);
  }

  lemma CancelCounts(s: Scheduler, target: Target, reason: string, id: Id)
    requires Live(s, target).Ok? && id in s.missions && Unplanned(s.missions[id])
    ensures id in Apply(s, CancelOp(target, reason)).missions
    ensures Counted(s.missions[id], Apply(s, CancelOp(target, reason)).missions[id], false)
  {
    var at := Live(s, target).value;
    var canceled := s.missions[at].(state := Canceled, statusText := Or(reason, "canceled"));
    HandOnPromotes(s.(missions := s.missions[at := canceled]), false, id);
  }

  lemma PauseCounts(s: Scheduler, target: Target, reason: string, id: Id)
    requires Live(s, target).Ok? && id in s.missions && Unplanned(s.missions[id])
    ensures id in Apply(s, PauseOp(target, reason)).missions
    ensures Counted(s.missions[id], Apply(s, PauseOp(target, reason)).missions[id], false)
  {
    var at := Live(s, target).value;
    if s.missions[at].state == Paused {
    } else if Repauses(s, at, reason) {
      EndedCounts(s.(resumedFrom := Without(s.resumedFrom, at)), at, Blocked, REPAUSED + reason, id);
    } else {
      var paused := s.missions[at].(state := Paused, statusText := Or(reason, "paused"));
      HandOnPromotes(s.(missions := s.missions[at := paused]), true, id);
    }
  }

  lemma StepCounts(s: Scheduler, op: Op, id: Id)
    requires id in s.missions && Unplanned(s.missions[id]) && Fresh(s, op)
    requires !(AppliesPlan(s, op) && op.id == id)
    ensures id in Apply(s, op).missions
    ensures Counted(s.missions[id], Apply(s, op).missions[id], SendsBack(s, op, id))
  {
    match op
    case PauseOp(target, reason) =>
      if Live(s, target).Ok? {
        PauseCounts(s, target, reason, id);
      }
    case CancelOp(target, reason) =>
      if Live(s, target).Ok? {
        CancelCounts(s, target, reason, id);
      }
    case EndOp(at, state, message, expected) =>
      if MarkTerminal(s, at, state, message, expected).Ok? {
        EndedCounts(s, at, state, message, id);
      }
    case _ =>
  }

  predicate NoPlanBetween(ls: seq<Ledger>, ops: seq<Op>, id: Id, n: nat, m: nat)
    requires n <= m <= |ops| <= |ls|
  {
    forall k :: n <= k < m ==> !(AppliesPlan(ls[k].sched, ops[k]) && ops[k].id == id)
  }

  lemma {:induction false} VersionCountsReplans(ls: seq<Ledger>, ops: seq<Op>, n: nat, m: nat, id: Id)
    requires IsRun(ls, ops) && n <= m <= |ops|
    requires id in ls[n].sched.missions && Unplanned(ls[n].sched.missions[id])
    requires NoPlanBetween(ls, ops, id, n, m)
    ensures id in ls[m].sched.missions && Unplanned(ls[m].sched.missions[id])
    ensures ls[m].sched.missions[id].identity.planVersion
         == ls[n].sched.missions[id].identity.planVersion + SentBack(ls, ops, id, n, m)
    decreases m - n
  {
    if n < m {
      var k := m - 1;
      VersionCountsReplans(ls, ops, n, k, id);
      StepCountsInRun(ls, ops, k, id);
      assert SentBack(ls, ops, id, n, m) == SentBack(ls, ops, id, n, k) + if SendsBack(ls[k].sched, ops[k], id) then 1 else 0;
    }
  }

  lemma StepCountsInRun(ls: seq<Ledger>, ops: seq<Op>, k: nat, id: Id)
    requires IsRun(ls, ops) && k < |ops|
    requires id in ls[k].sched.missions && Unplanned(ls[k].sched.missions[id])
    requires !(AppliesPlan(ls[k].sched, ops[k]) && ops[k].id == id)
    ensures id in ls[k + 1].sched.missions
    ensures Counted(ls[k].sched.missions[id], ls[k + 1].sched.missions[id], SendsBack(ls[k].sched, ops[k], id))
  {
    RunKeepsRecord(ls, ops, k);
    assert Step(ls[k], ops[k], ls[k + 1]);
    DrawnIsFresh(ls[k], ops[k], ls[k + 1]);
    StepCounts(ls[k].sched, ops[k], id);
  }

  lemma SubmittedUnplanned(l: Ledger, op: Op, l': Ledger)
    requires Step(l, op, l') && op.SubmitOp? && Accepted(l.sched, op.req)
    ensures op.token in l'.sched.missions && Unplanned(l'.sched.missions[op.token])
    ensures l'.sched.missions[op.token].identity.planVersion == 0
  {
  }

  lemma SubmittedInRun(ls: seq<Ledger>, ops: seq<Op>, a: nat)
    requires IsRun(ls, ops) && a < |ops| && ops[a].SubmitOp? && Accepted(ls[a].sched, ops[a].req)
    ensures ops[a].token in ls[a + 1].sched.missions && Unplanned(ls[a + 1].sched.missions[ops[a].token])
    ensures ls[a + 1].sched.missions[ops[a].token].identity.planVersion == 0
  {
    assert Step(ls[a], ops[a], ls[a + 1]);
    SubmittedUnplanned(ls[a], ops[a], ls[a + 1]);
  }

  lemma VersionBeforePlan(ls: seq<Ledger>, ops: seq<Op>, a: nat, m: nat, id: Id)
    requires IsRun(ls, ops) && a < m < |ops|
    requires ops[a].SubmitOp? && Accepted(ls[a].sched, ops[a].req) && ops[a].token == id
    requires NoPlanBetween(ls, ops, id, a + 1, m)
    ensures id in ls[m].sched.missions && Unplanned(ls[m].sched.missions[id])
    ensures ls[m].sched.missions[id].identity.planVersion == SentBack(ls, ops, id, a + 1, m)
  {
    SubmittedInRun(ls, ops, a);
    VersionCountsReplans(ls, ops, a + 1, m, id);
  }

  lemma AppliedVersion(s: Scheduler, op: Op)
    requires AppliesPlan(s, op)
    ensures op.id in s.missions
    ensures Unplanned(s.missions[op.id]) ==>
      AcceptedIdentity(s, op).planVersion == Max(1, s.missions[op.id].identity.planVersion)
  {
  }

  // The first plan that is accepted for a mission has the number of times the
  // mission was sent back to planning before, at least 1, for its version: it is
  // version 1 if and only if the mission was sent back at most once.
  lemma FirstPlanVersion(ls: seq<Ledger>, ops: seq<Op>, a: nat, m: nat)
    requires IsRun(ls, ops) && a < m < |ops|
    requires ops[a].SubmitOp? && Accepted(ls[a].sched, ops[a].req)
    requires AppliesPlan(ls[m].sched, ops[m]) && ops[m].id == ops[a].token
    requires NoPlanBetween(ls, ops, ops[a].token, a + 1, m)
    ensures
      var back := SentBack(ls, ops, ops[a].token, a + 1, m);
      && AcceptedIdentity(ls[m].sched, ops[m]).planVersion == Max(1, back)
      && (AcceptedIdentity(ls[m].sched, ops[m]).planVersion == 1 <==> back <= 1)
  {
    VersionBeforePlan(ls, ops, a, m, ops[a].token);
    AppliedVersion(ls[m].sched, ops[m]);
  }

  // For any one expected identity at most one planning result is ever applied,
  // however many jobs were started under it.
  lemma AtMostOneResultApplied(ls: seq<Ledger>, ops: seq<Op>, n: nat, m: nat, i: Identity)
    requires IsRun(ls, ops) && n < m < |ops|
    requires AppliesPlan(ls[n].sched, ops[n]) && ops[n].expected == Some(i) && ops[n].id == i.missionId
    ensures AppliesPlan(ls[m].sched, ops[m]) && ops[m].id == i.missionId ==> ops[m].expected != Some(i)
    ensures ops[m].EndOp? && ops[m].id == i.missionId && ops[m].expected == Some(i) ==>
      Apply(ls[m].sched, ops[m]) == ls[m].sched
  {
    RunIsChain(ls, ops);
    AppliedPlanShows(ls[n], ops[n], ls[n + 1]);
    RunKeepsRecord(ls, ops, n);
    IdentityLeft(ls, n, m, i);
  }

  lemma IdentityLeft(ls: seq<Ledger>, n: nat, m: nat, i: Identity)
    requires Chain(ls) && n < m < |ls|
    requires i.missionId in ls[n].sched.missions && ls[n].sched.missions[i.missionId].identity == i
    requires i.missionId in ls[n + 1].sched.missions && ls[n + 1].sched.missions[i.missionId].identity != i
    ensures i.missionId in ls[m].sched.missions && ls[m].sched.missions[i.missionId].identity != i
  {
    NoLateAcceptance(ls, n, n + 1, m, i.missionId);
  }
}
