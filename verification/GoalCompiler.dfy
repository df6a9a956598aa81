// The goal compiler: a plan that marks one of its nodes has its goal
// specification derived from that node, never from what the planner wrote.
module GoalCompiler {
  import opened Common
  import opened SkillRegistry
  import opened BehaviourTree
  import opened Goals
  import opened PolicyGuard

  predicate GoalRelevant(leaf: Node) {
    leaf.Action? || leaf.VisualCheck?
  }

  // The one predicate a non-voice skill brings about, if there is exactly one.
  function UniqueResult(reg: Registry, skill: string): Option<string> {
    if skill !in reg || reg[skill].dispatch == Voice || |reg[skill].resultPredicates| != 1 then None
    else Some(reg[skill].resultPredicates[0])
  }

  predicate EligibleAction(reg: Registry, leaf: Node) {
    leaf.Action? && UniqueResult(reg, leaf.skill).Some?
  }

  predicate EligibleFrom(reg: Registry, nodes: seq<Node>, first: nat) {
    exists j :: first <= j < |nodes| && EligibleAction(reg, nodes[j])
  }

  // Depth-first, the node itself before its children.
  function FindByNodeId(node: Node, nodeId: string): Option<Node>
    decreases node, 1
  {
    if node.nodeId == nodeId then Some(node)
    else match node {
      case Sequence(_, children) => FindIn(children, nodeId)
      case Fallback(_, children) => FindIn(children, nodeId)
      case Parallel(_, children, _) => FindIn(children, nodeId)
      case Retry(_, _, child) => FindByNodeId(child, nodeId)
      case Timeout(_, _, child) => FindByNodeId(child, nodeId)
      case _ => None
    }
  }

  function FindIn(nodes: seq<Node>, nodeId: string): Option<Node>
    decreases nodes, 0
  {
    if nodes == [] then None
    else
      var first := FindByNodeId(nodes[0], nodeId);
      if first.Some? then first else FindIn(nodes[1..], nodeId)
  }

  lemma {:induction false} FoundIsInTree(node: Node, nodeId: string)
    requires FindByNodeId(node, nodeId).Some?
    ensures FindByNodeId(node, nodeId).value.nodeId == nodeId
    ensures FindByNodeId(node, nodeId).value.IsLeaf() ==> FindByNodeId(node, nodeId).value in Leaves(node)
    decreases node, 1
  {
    if node.nodeId != nodeId {
      match node
      case Sequence(_, children) => FoundIsInTrees(children, nodeId);
      case Fallback(_, children) => FoundIsInTrees(children, nodeId);
      case Parallel(_, children, _) => FoundIsInTrees(children, nodeId);
      case Retry(_, _, child) => FoundIsInTree(child, nodeId);
      case Timeout(_, _, child) => FoundIsInTree(child, nodeId);
    }
  }

  lemma {:induction false} FoundIsInTrees(nodes: seq<Node>, nodeId: string)
    requires FindIn(nodes, nodeId).Some?
    ensures FindIn(nodes, nodeId).value.nodeId == nodeId
    ensures FindIn(nodes, nodeId).value.IsLeaf() ==> FindIn(nodes, nodeId).value in AllLeaves(nodes)
    decreases nodes, 0
  {
    if FindByNodeId(nodes[0], nodeId).Some? {
      FoundIsInTree(nodes[0], nodeId);
    } else {
      FoundIsInTrees(nodes[1..], nodeId);
    }
  }

  // list.index: the first position of an equal node.
  function IndexOf(nodes: seq<Node>, node: Node): (k: nat)
    requires node in nodes
    ensures k < |nodes| && nodes[k] == node
    ensures forall j :: 0 <= j < k ==> nodes[j] != node
  {
    if nodes[0] == node then 0 else 1 + IndexOf(nodes[1..], node)
  }

  datatype Candidate = Candidate(node: Node, predicateName: string)

  // Position k is eligible to be the mission's goal.
  function CandidateAt(reg: Registry, nodes: seq<Node>, k: nat): Option<Candidate>
    requires k < |nodes|
  {
    var n := nodes[k];
    if n.Action? then
      var unique := UniqueResult(reg, n.skill);
      if unique.Some? then Some(Candidate(n, unique.value)) else None
    else if n.VisualCheck? && n.mode == ObserveMode && !EligibleFrom(reg, nodes, k + 1) then
      Some(Candidate(n, OBSERVED))
    else None
  }

  function CandidatesFrom(reg: Registry, nodes: seq<Node>, k: nat): (cs: seq<Candidate>)
    requires k <= |nodes|
    ensures forall c :: c in cs ==> exists j :: k <= j < |nodes| && CandidateAt(reg, nodes, j) == Some(c)
    decreases |nodes| - k
  {
    if k == |nodes| then []
    else
      (if CandidateAt(reg, nodes, k).Some? then [CandidateAt(reg, nodes, k).value] else [])
      + CandidatesFrom(reg, nodes, k + 1)
  }

  const UNRESOLVED := GoalSpec(Human, "", map[], map["mode" := IMPLICIT], {"verification", "summary"})

  function WorldGoal(predicateName: string, args: Args): GoalSpec {
    GoalSpec(Structured, predicateName, args, map["mode" := "world_state"], {"predicate", "args", "verification"})
  }

  // The goal of a marked node, if it stands for one.
  function GoalOfNode(reg: Registry, root: Node, n: Node): GoalSpec {
    var nodes := Filter(GoalRelevant, Leaves(root));
    match n
    case Action(_, skill, args, _) =>
      if IsVoiceSkill(reg, skill) then
        var cs := CandidatesFrom(reg, nodes, 0);
        if |cs| != 1 then UNRESOLVED
        else WorldGoal(cs[0].predicateName, if cs[0].node.Action? then cs[0].node.args else map[])
      else
        var unique := UniqueResult(reg, skill);
        if unique.Some? then WorldGoal(unique.value, args) else UNRESOLVED
    case VisualCheck(_, mode, _) =>
      if mode != ObserveMode then UNRESOLVED
      else if n !in nodes then UNRESOLVED
      else if EligibleFrom(reg, nodes, IndexOf(nodes, n) + 1) then UNRESOLVED
      else WorldGoal(OBSERVED, map[])
    case _ => UNRESOLVED
  }

  // What a marker compiles to. The planner's own goal is no argument.
  function CompiledGoal(reg: Registry, root: Node, marker: Marker): GoalSpec
    requires marker.Present?
  {
    if marker.nodeId == None || marker.nodeId.value == "" then UNRESOLVED
    else
      var found := FindByNodeId(root, marker.nodeId.value);
      if found == None then UNRESOLVED else GoalOfNode(reg, root, found.value)
  }

  // A goal that a leaf of the tree answers for.
  ghost predicate AnswersFor(reg: Registry, root: Node, goal: GoalSpec, leaf: Node) {
    && leaf in Leaves(root)
    && goal.kind == Structured
    && ((leaf.Action? && UniqueResult(reg, leaf.skill) == Some(goal.predicateName) && goal.args == leaf.args)
        || (&& leaf.VisualCheck? && leaf.mode == ObserveMode && goal.predicateName == OBSERVED && goal.args == map[]
            && NothingEligibleAfter(reg, root, leaf)))
  }

  // Behind the first occurrence of the leaf in tree order no Action remains that
  // could be the goal itself.
  predicate NothingEligibleAfter(reg: Registry, root: Node, leaf: Node) {
    var nodes := Filter(GoalRelevant, Leaves(root));
    leaf in nodes && !EligibleFrom(reg, nodes, IndexOf(nodes, leaf) + 1)
  }

  lemma {:induction false} TwoCandidates(reg: Registry, nodes: seq<Node>, k: nat, i: nat, j: nat)
    requires k <= i < j < |nodes| && CandidateAt(reg, nodes, i).Some? && CandidateAt(reg, nodes, j).Some?
    ensures |CandidatesFrom(reg, nodes, k)| >= 2
    decreases i - k
  {
    if k < i {
      TwoCandidates(reg, nodes, k + 1, i, j);
    } else {
      OneCandidate(reg, nodes, k + 1, j);
    }
  }

  lemma {:induction false} OneCandidate(reg: Registry, nodes: seq<Node>, k: nat, j: nat)
    requires k <= j < |nodes| && CandidateAt(reg, nodes, j).Some?
    ensures |CandidatesFrom(reg, nodes, k)| >= 1
    decreases j - k
  {
    if k < j {
      OneCandidate(reg, nodes, k + 1, j);
    }
  }

  // The only candidate is an observation: no Action is eligible at all.
  lemma NoActionBesides(reg: Registry, nodes: seq<Node>, j: nat)
    requires j < |nodes| && nodes[j].VisualCheck? && CandidateAt(reg, nodes, j).Some?
    requires |CandidatesFrom(reg, nodes, 0)| == 1
    ensures forall k :: 0 <= k < |nodes| ==> !EligibleAction(reg, nodes[k])
  {
    forall k | 0 <= k < |nodes| && EligibleAction(reg, nodes[k])
      ensures false
    {
      if k < j {
        TwoCandidates(reg, nodes, 0, k, j);
      } else {
        TwoCandidates(reg, nodes, 0, j, k);
      }
    }
  }

  // ---- Exactly which goal a marker compiles to.

  // The first node with this id.
  predicate FirstNamed(nodes: seq<Node>, nodeId: string, n: Node) {
    exists k :: 0 <= k < |nodes| && nodes[k] == n && n.nodeId == nodeId && forall j :: 0 <= j < k ==> nodes[j].nodeId != nodeId
  }

  predicate NobodyNamed(nodes: seq<Node>, nodeId: string) {
    forall k :: 0 <= k < |nodes| ==> nodes[k].nodeId != nodeId
  }

  lemma NamedInFront(xs: seq<Node>, ys: seq<Node>, nodeId: string, n: Node)
    ensures FirstNamed(xs, nodeId, n) ==> FirstNamed(xs + ys, nodeId, n)
    ensures NobodyNamed(xs, nodeId) && FirstNamed(ys, nodeId, n) ==> FirstNamed(xs + ys, nodeId, n)
    ensures NobodyNamed(xs, nodeId) && NobodyNamed(ys, nodeId) ==> NobodyNamed(xs + ys, nodeId)
  {
    if FirstNamed(xs, nodeId, n) {
      var k :| 0 <= k < |xs| && xs[k] == n && forall j :: 0 <= j < k ==> xs[j].nodeId != nodeId;
      assert (xs + ys)[k] == n && forall j :: 0 <= j < k ==> (xs + ys)[j] == xs[j];
    }
    if NobodyNamed(xs, nodeId) && FirstNamed(ys, nodeId, n) {
      var k :| 0 <= k < |ys| && ys[k] == n && forall j :: 0 <= j < k ==> ys[j].nodeId != nodeId;
      assert (xs + ys)[|xs| + k] == n;
    }
  }

  lemma {:induction false} FoundIsFirst(node: Node, nodeId: string)
    ensures
      match FindByNodeId(node, nodeId)
      case Some(n) => FirstNamed(Preorder(node), nodeId, n)
      case None => NobodyNamed(Preorder(node), nodeId)
    decreases node, 1
  {
    if node.nodeId == nodeId {
      assert Preorder(node)[0] == node;
    } else {
      var found := FindByNodeId(node, nodeId);
      var n, below := if found.Some? then found.value else node, Preorder(node)[1..];
      NamedInFront([node], below, nodeId, n);
      assert Preorder(node) == [node] + below;
      match node
      case Sequence(_, children) => FoundInIsFirst(children, nodeId);
      case Fallback(_, children) => FoundInIsFirst(children, nodeId);
      case Parallel(_, children, _) => FoundInIsFirst(children, nodeId);
      case Retry(_, _, child) => FoundIsFirst(child, nodeId);
      case Timeout(_, _, child) => FoundIsFirst(child, nodeId);
      case _ =>
    }
  }

  lemma {:induction false} FoundInIsFirst(nodes: seq<Node>, nodeId: string)
    ensures
      match FindIn(nodes, nodeId)
      case Some(n) => FirstNamed(PreorderOf(nodes), nodeId, n)
      case None => NobodyNamed(PreorderOf(nodes), nodeId)
    decreases nodes, 0
  {
    if nodes != [] {
      FoundIsFirst(nodes[0], nodeId);
      FoundInIsFirst(nodes[1..], nodeId);
      var found := FindIn(nodes, nodeId);
      NamedInFront(Preorder(nodes[0]), PreorderOf(nodes[1..]), nodeId, if found.Some? then found.value else nodes[0]);
    }
  }

  // An Action that does not speak and brings about p and nothing else.
  predicate BringsAbout(reg: Registry, leaf: Node, p: string) {
    leaf.Action? && leaf.skill in reg && !reg[leaf.skill].dispatch.Voice? && reg[leaf.skill].resultPredicates == [p]
  }

  ghost predicate NothingBehind(reg: Registry, nodes: seq<Node>, k: nat) {
    forall j, p :: k < j < |nodes| ==> !BringsAbout(reg, nodes[j], p)
  }

  predicate IsWorldGoal(goal: GoalSpec, p: string, args: Args) {
    goal == GoalSpec(Structured, p, args, map["mode" := "world_state"], {"predicate", "args", "verification"})
  }

  // The goal that the k-th of the Actions and visual checks stands for: what the
  // Action brings about, with its own arguments, or the observation, if no such
  // Action follows it.
  ghost predicate StandsFor(reg: Registry, nodes: seq<Node>, k: nat, goal: GoalSpec)
    requires k < |nodes|
  {
    || (exists p :: BringsAbout(reg, nodes[k], p) && IsWorldGoal(goal, p, nodes[k].args))
    || (IsObserver(nodes[k]) && NothingBehind(reg, nodes, k) && IsWorldGoal(goal, "visual_check_completed", map[]))
  }

  // The goal that a marked node stands for. A voice Action hands the question on to
  // the only leaf of the plan that stands for a goal, if there is only one.
  ghost predicate MarkStandsFor(reg: Registry, root: Node, n: Node, goal: GoalSpec) {
    var nodes := Filter(GoalRelevant, Leaves(root));
    if n.Action? && n.skill in reg && reg[n.skill].dispatch.Voice? then
      exists k :: 0 <= k < |nodes| && StandsFor(reg, nodes, k, goal)
               && forall j, g :: 0 <= j < |nodes| && j != k ==> !StandsFor(reg, nodes, j, g)
    else if n.Action? then exists p :: BringsAbout(reg, n, p) && IsWorldGoal(goal, p, n.args)
    else
      && IsObserver(n) && IsWorldGoal(goal, "visual_check_completed", map[])
      && exists k :: 0 <= k < |nodes| && nodes[k] == n && (forall j :: 0 <= j < k ==> nodes[j] != n) && NothingBehind(reg, nodes, k)
  }

  ghost predicate Marks(root: Node, marker: Marker, n: Node) {
    marker.Present? && marker.nodeId.Some? && marker.nodeId.value != "" && FirstNamed(Preorder(root), marker.nodeId.value, n)
  }

  lemma EligibleMeans(reg: Registry, leaf: Node)
    ensures EligibleAction(reg, leaf) <==> exists p :: BringsAbout(reg, leaf, p)
    ensures leaf.Action? ==> forall p :: UniqueResult(reg, leaf.skill) == Some(p) <==> BringsAbout(reg, leaf, p)
  {
    if EligibleAction(reg, leaf) {
      assert BringsAbout(reg, leaf, reg[leaf.skill].resultPredicates[0]);
    }
  }

  lemma NothingBehindMeans(reg: Registry, nodes: seq<Node>, k: nat)
    requires k < |nodes|
    ensures NothingBehind(reg, nodes, k) <==> !EligibleFrom(reg, nodes, k + 1)
  {
    forall j | k < j < |nodes|
      ensures EligibleAction(reg, nodes[j]) <==> exists p :: BringsAbout(reg, nodes[j], p)
    {
      EligibleMeans(reg, nodes[j]);
    }
  }

  // Position k is a candidate exactly if it stands for a goal, and that goal is
  // the candidate's.
  lemma CandidateMeans(reg: Registry, nodes: seq<Node>, k: nat)
    requires k < |nodes|
    ensures
      match CandidateAt(reg, nodes, k)
      case None => forall g :: !StandsFor(reg, nodes, k, g)
      case Some(c) =>
        c.node == nodes[k]
        && StandsFor(reg, nodes, k, WorldGoal(c.predicateName, if c.node.Action? then c.node.args else map[]))
  {
    EligibleMeans(reg, nodes[k]);
    NothingBehindMeans(reg, nodes, k);
  }

  // Two goals of one position are the same.
  lemma StandsForOne(reg: Registry, nodes: seq<Node>, k: nat, g: GoalSpec, g': GoalSpec)
    requires k < |nodes| && StandsFor(reg, nodes, k, g) && StandsFor(reg, nodes, k, g')
    ensures g == g'
  {
  }

  lemma {:induction false} NoCandidates(reg: Registry, nodes: seq<Node>, k: nat)
    requires k <= |nodes|
    ensures CandidatesFrom(reg, nodes, k) == [] <==> forall j :: k <= j < |nodes| ==> CandidateAt(reg, nodes, j) == None
    decreases |nodes| - k
  {
    if k < |nodes| {
      NoCandidates(reg, nodes, k + 1);
    }
  }

  // The list of candidates has one member exactly if one position is a candidate.
  lemma {:induction false} OnlyCandidateMeans(reg: Registry, nodes: seq<Node>, k: nat, i: nat)
    requires k <= i < |nodes| && CandidateAt(reg, nodes, i).Some?
    requires forall j :: k <= j < |nodes| && j != i ==> CandidateAt(reg, nodes, j) == None
    ensures CandidatesFrom(reg, nodes, k) == [CandidateAt(reg, nodes, i).value]
    decreases |nodes| - k
  {
    if k < i {
      OnlyCandidateMeans(reg, nodes, k + 1, i);
    } else {
      NoCandidates(reg, nodes, k + 1);
    }
  }

  lemma VoiceMarkMeans(reg: Registry, root: Node, n: Node)
    requires n.Action? && n.skill in reg && reg[n.skill].dispatch.Voice?
    ensures
      var cs := CandidatesFrom(reg, Filter(GoalRelevant, Leaves(root)), 0);
      if |cs| == 1
      then MarkStandsFor(reg, root, n, WorldGoal(cs[0].predicateName, if cs[0].node.Action? then cs[0].node.args else map[]))
      else forall g :: !MarkStandsFor(reg, root, n, g)
  {
    var nodes := Filter(GoalRelevant, Leaves(root));
    var cs := CandidatesFrom(reg, nodes, 0);
    forall k | 0 <= k < |nodes|
      ensures CandidateAt(reg, nodes, k) == None <==> forall g :: !StandsFor(reg, nodes, k, g)
    {
      CandidateMeans(reg, nodes, k);
    }
    if |cs| == 1 {
      var k :| 0 <= k < |nodes| && CandidateAt(reg, nodes, k) == Some(cs[0]);
      CandidateMeans(reg, nodes, k);
      forall j, g | 0 <= j < |nodes| && j != k
        ensures !StandsFor(reg, nodes, j, g)
      {
        if CandidateAt(reg, nodes, j).Some? {
          TwoCandidates(reg, nodes, 0, if j < k then j else k, if j < k then k else j);
        }
      }
    } else {
      forall g, k | 0 <= k < |nodes| && StandsFor(reg, nodes, k, g)
        ensures exists j, h :: 0 <= j < |nodes| && j != k && StandsFor(reg, nodes, j, h)
      {
        if forall j :: 0 <= j < |nodes| && j != k ==> CandidateAt(reg, nodes, j) == None {
          OnlyCandidateMeans(reg, nodes, 0, k);
        }
      }
    }
  }

  lemma ObserverMarkMeans(reg: Registry, root: Node, n: Node)
    requires n.VisualCheck?
    ensures
      var nodes := Filter(GoalRelevant, Leaves(root));
      var ok := n.mode == ObserveMode && n in nodes && !EligibleFrom(reg, nodes, IndexOf(nodes, n) + 1);
      if ok then MarkStandsFor(reg, root, n, WorldGoal("visual_check_completed", map[]))
      else forall g :: !MarkStandsFor(reg, root, n, g)
  {
    var nodes := Filter(GoalRelevant, Leaves(root));
    if n in nodes && n.mode == ObserveMode {
      var i := IndexOf(nodes, n);
      NothingBehindMeans(reg, nodes, i);
      assert forall k :: 0 <= k < |nodes| && nodes[k] == n && (forall j :: 0 <= j < k ==> nodes[j] != n) ==> k == i;
    }
  }

  lemma MarkMeans(reg: Registry, root: Node, n: Node)
    ensures
      var goal := GoalOfNode(reg, root, n);
      if goal == UNRESOLVED then forall g :: !MarkStandsFor(reg, root, n, g) else MarkStandsFor(reg, root, n, goal)
  {
    if n.Action? && IsVoiceSkill(reg, n.skill) {
      VoiceMarkMeans(reg, root, n);
    } else if n.Action? {
      EligibleMeans(reg, n);
    } else if n.VisualCheck? {
      ObserverMarkMeans(reg, root, n);
    }
  }

  // The compiler's result, in both directions: a marker compiles to the goal that
  // the node it marks stands for; where it marks no node, or one that stands for no
  // goal, the goal is unresolved.
  lemma CompiledGoalIsOfMark(reg: Registry, root: Node, marker: Marker)
    requires marker.Present?
    ensures
      var goal := CompiledGoal(reg, root, marker);
      && (goal == UNRESOLVED <==> !exists n, g :: Marks(root, marker, n) && MarkStandsFor(reg, root, n, g))
      && (goal != UNRESOLVED ==> exists n :: Marks(root, marker, n) && MarkStandsFor(reg, root, n, goal))
  {
    if marker.nodeId.Some? && marker.nodeId.value != "" {
      var id := marker.nodeId.value;
      FoundIsFirst(root, id);
      var found := FindByNodeId(root, id);
      if found.Some? {
        assert Marks(root, marker, found.value);
        assert forall n :: Marks(root, marker, n) ==> n == found.value;
        MarkMeans(reg, root, found.value);
      }
    }
  }

  // Either nothing was resolved, or some leaf of the tree answers for the goal.
  lemma CompiledGoalHasAnswer(reg: Registry, root: Node, marker: Marker)
    requires marker.Present?
    ensures CompiledGoal(reg, root, marker) == UNRESOLVED
         || exists leaf :: AnswersFor(reg, root, CompiledGoal(reg, root, marker), leaf)
  {
    var goal := CompiledGoal(reg, root, marker);
    if goal != UNRESOLVED {
      var nodes := Filter(GoalRelevant, Leaves(root));
      FilterMembers(GoalRelevant, Leaves(root));
      var node := FindByNodeId(root, marker.nodeId.value).value;
      FoundIsInTree(root, marker.nodeId.value);
      if node.Action? && IsVoiceSkill(reg, node.skill) {
        var cs := CandidatesFrom(reg, nodes, 0);
        var j :| 0 <= j < |nodes| && CandidateAt(reg, nodes, j) == Some(cs[0]);
        if nodes[j].VisualCheck? {
          NoActionBesides(reg, nodes, j);
        }
        assert AnswersFor(reg, root, goal, nodes[j]);
      } else if node.VisualCheck? {
        assert nodes[IndexOf(nodes, node)] == node;
        assert AnswersFor(reg, root, goal, node);
      } else {
        assert AnswersFor(reg, root, goal, node);
      }
    }
  }

  // With a marked node, an accepted plan that moves the robot has a structured
  // goal that a non-voice Action or a last observation of the plan answers for.
  lemma AcceptedGoalIsAnswered(reg: Registry, rules: Rules, root: Node, marker: Marker)
    requires marker.Present?
    requires PolicyOk(reg, rules, root, CompiledGoal(reg, root, marker), Absent)
    requires AnyPhysical(reg, root)
    ensures exists leaf :: AnswersFor(reg, root, CompiledGoal(reg, root, marker), leaf)
  {
    CompiledGoalHasAnswer(reg, root, marker);
  }

  class GoalPlan {
    var root: Node
    var goalSpec: GoalSpec
    var marker: Marker

    constructor (root: Node, goalSpec: GoalSpec, marker: Marker)
      ensures this.root == root && this.goalSpec == goalSpec && this.marker == marker
    {
      this.root, this.goalSpec, this.marker := root, goalSpec, marker;
    }

    // _goal_relevant_nodes_in_order: the leaves of interest, appended as met.
    method GoalRelevantNodesInOrder(node: Node, out: seq<Node>) returns (nodes: seq<Node>)
      ensures nodes == out + Filter(GoalRelevant, Leaves(node))
      decreases node, 1
    {
      match node {
        case Sequence(_, children) => nodes := RelevantIn(children, out);
        case Fallback(_, children) => nodes := RelevantIn(children, out);
        case Parallel(_, children, _) => nodes := RelevantIn(children, out);
        case Retry(_, _, child) => nodes := GoalRelevantNodesInOrder(child, out);
        case Timeout(_, _, child) => nodes := GoalRelevantNodesInOrder(child, out);
        case _ =>
          assert Leaves(node) == [node] && [node][1..] == [];
          nodes := if GoalRelevant(node) then out + [node] else out;
      }
    }

    method RelevantIn(children: seq<Node>, out: seq<Node>) returns (nodes: seq<Node>)
      ensures nodes == out + Filter(GoalRelevant, AllLeaves(children))
      decreases children, 0
    {
      nodes := out;
      for i := 0 to |children|
        invariant nodes + Filter(GoalRelevant, AllLeaves(children[i..])) == out + Filter(GoalRelevant, AllLeaves(children))
      {
        ghost var rest := children[i..];
        assert rest[0] == children[i] && rest[1..] == children[i + 1..];
        FilterAppend(GoalRelevant, Leaves(children[i]), AllLeaves(children[i + 1..]));
        nodes := GoalRelevantNodesInOrder(children[i], nodes);
      }
      assert children[|children|..] == [];
    }

    // _has_later_eligible_action.
    method HasLaterEligible(reg: Registry, nodes: seq<Node>, index: nat) returns (found: bool)
      requires index < |nodes|
      ensures found == EligibleFrom(reg, nodes, index + 1)
    {
      for j := index + 1 to |nodes|
        invariant !exists k :: index + 1 <= k < j && EligibleAction(reg, nodes[k])
      {
        if EligibleAction(reg, nodes[j]) {
          return true;
        }
      }
      return false;
    }

    // _eligible_goal_candidates.
    method EligibleCandidates(reg: Registry, nodes: seq<Node>) returns (cs: seq<Candidate>)
      ensures cs == CandidatesFrom(reg, nodes, 0)
    {
      cs := [];
      for k := 0 to |nodes|
        invariant cs + CandidatesFrom(reg, nodes, k) == CandidatesFrom(reg, nodes, 0)
      {
        var n := nodes[k];
        ghost var rest := CandidatesFrom(reg, nodes, k + 1);
        assert forall c :: cs + ([c] + rest) == (cs + [c]) + rest;
        assert cs + ([] + rest) == cs + rest;
        if n.Action? {
          var unique := UniqueResult(reg, n.skill);
          if unique.Some? {
            cs := cs + [Candidate(n, unique.value)];
          }
        } else if n.VisualCheck? && n.mode == ObserveMode {
          var later := HasLaterEligible(reg, nodes, k);
          if !later {
            cs := cs + [Candidate(n, OBSERVED)];
          }
        }
      }
    }

    // The goal of a marked voice Action: the one eligible candidate, if there is just one.
    method OnlyCandidate(reg: Registry, nodes: seq<Node>) returns (goal: GoalSpec)
      ensures
        var cs := CandidatesFrom(reg, nodes, 0);
        goal == if |cs| != 1 then UNRESOLVED
                else WorldGoal(cs[0].predicateName, if cs[0].node.Action? then cs[0].node.args else map[])
    {
      var cs := EligibleCandidates(reg, nodes);
      if |cs| != 1 {
        return UNRESOLVED;
      }
      return WorldGoal(cs[0].predicateName, if cs[0].node.Action? then cs[0].node.args else map[]);
    }

    // _compile_goal_spec_from_goal_node: the marker is consumed, and the new goal
    // depends on the tree and the marker alone.
    method CompileFromGoalNode(reg: Registry) returns (gated: bool)
      modifies this
      ensures root == old(root) && marker == Absent
      ensures gated == old(marker).Present?
      ensures goalSpec == if gated then CompiledGoal(reg, root, old(marker)) else old(goalSpec)
    {
      if marker == Absent {
        return false;
      }
      gated := true;
      var nodeId := marker.nodeId;
      goalSpec := UNRESOLVED;
      if nodeId != None && nodeId.value != "" {
        goalSpec := GoalOfMarked(reg, nodeId.value);
      }
      marker := Absent;
    }

    // The goal that the marked node stands for.
    method GoalOfMarked(reg: Registry, nodeId: string) returns (goal: GoalSpec)
      requires nodeId != ""
      ensures goal == CompiledGoal(reg, root, Present(Some(nodeId)))
    {
      var nodes := GoalRelevantNodesInOrder(root, []);
      assert nodes == Filter(GoalRelevant, Leaves(root));
      var found := FindByNodeId(root, nodeId);
      if found == None {
        return UNRESOLVED;
      }
      match found.value {
        case Action(_, _, _, _) => goal := GoalOfAction(reg, nodes, found.value);
        case VisualCheck(_, _, _) => goal := GoalOfCheck(reg, nodes, found.value);
        case _ => goal := UNRESOLVED;
      }
    }

    method GoalOfAction(reg: Registry, nodes: seq<Node>, n: Node) returns (goal: GoalSpec)
      requires n.Action? && nodes == Filter(GoalRelevant, Leaves(root))
      ensures goal == GoalOfNode(reg, root, n)
    {
      goal := UNRESOLVED;
      if IsVoiceSkill(reg, n.skill) {
        goal := OnlyCandidate(reg, nodes);
      } else {
        var unique := UniqueResult(reg, n.skill);
        if unique.Some? {
          goal := WorldGoal(unique.value, n.args);
        }
      }
    }

    method GoalOfCheck(reg: Registry, nodes: seq<Node>, n: Node) returns (goal: GoalSpec)
      requires n.VisualCheck? && nodes == Filter(GoalRelevant, Leaves(root))
      ensures goal == GoalOfNode(reg, root, n)
    {
      goal := UNRESOLVED;
      if n.mode == ObserveMode && n in nodes {
        var later := HasLaterEligible(reg, nodes, IndexOf(nodes, n));
        if !later {
          goal := WorldGoal(OBSERVED, map[]);
        }
      }
    }
  }
}
