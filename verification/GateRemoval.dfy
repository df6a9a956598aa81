// Gates that the plan's own terminal resolves: a Condition or GoalCheck in a
// Sequence is removed when a later sibling Action establishes its predicate by
// itself and no earlier sibling Action produces it.
module GateRemoval {
  import opened Common
  import opened SkillRegistry
  import opened SkillTerms
  import opened BehaviourTree
  import opened Validator

  predicate IsGate(n: Node) {
    (n.Condition? || n.GoalCheck?) && n.predicateName != ""
  }

  predicate ResolvedLater(reg: Registry, children: seq<Node>, i: nat, predicateName: string) {
    exists j :: i < j < |children| && children[j].Action? && ResolvesInternally(reg, children[j].skill, predicateName)
  }

  predicate ProducedEarlier(reg: Registry, children: seq<Node>, i: nat, predicateName: string) {
    exists j :: 0 <= j < i && j < |children| && children[j].Action? && Produces(reg, children[j].skill, predicateName)
  }

  predicate Dropped(reg: Registry, children: seq<Node>, i: nat)
    requires i < |children|
  {
    && IsGate(children[i])
    && ResolvedLater(reg, children, i, children[i].predicateName)
    && !ProducedEarlier(reg, children, i, children[i].predicateName)
  }

  // rewrite() of _canonicalize_gate_the_terminal_resolves_itself.
  function RemoveGates(reg: Registry, node: Node): Node
    decreases node, 2, 0
  {
    match node
    case Sequence(id, children) => Sequence(id, KeptFrom(reg, children, 0))
    case Fallback(id, children) => Fallback(id, RemoveInAll(reg, children))
    case Parallel(id, children, cancel) => Parallel(id, RemoveInAll(reg, children), cancel)
    case Retry(id, n, child) => Retry(id, n, RemoveGates(reg, child))
    case Timeout(id, limit, child) => Timeout(id, limit, RemoveGates(reg, child))
    case _ => node
  }

  function KeptFrom(reg: Registry, children: seq<Node>, i: nat): seq<Node>
    requires i <= |children|
    decreases children, 1, |children| - i
  {
    if i == |children| then []
    else (if Dropped(reg, children, i) then [] else [RemoveGates(reg, children[i])]) + KeptFrom(reg, children, i + 1)
  }

  function RemoveInAll(reg: Registry, nodes: seq<Node>): (out: seq<Node>)
    ensures |out| == |nodes|
    ensures forall i :: 0 <= i < |nodes| ==> out[i] == RemoveGates(reg, nodes[i])
    decreases nodes, 1, 0
  {
    if nodes == [] then [] else [RemoveGates(reg, nodes[0])] + RemoveInAll(reg, nodes[1..])
  }

  // ---- Which gates go.

  // The check asks for something that a later Action of its Sequence brings in by
  // itself, and that no earlier one has brought in.
  predicate GateGoes(reg: Registry, children: seq<Node>, i: nat)
    requires i < |children|
  {
    && (children[i].Condition? || children[i].GoalCheck?) && children[i].predicateName != ""
    && (exists j :: i < j < |children| && children[j].Action?
                    && BringsInByItself(reg, children[j].skill, children[i].predicateName))
    && !(exists j :: 0 <= j < i && children[j].Action? && BringsIn(reg, children[j].skill, children[i].predicateName))
  }

  lemma DroppedMeans(reg: Registry, children: seq<Node>, i: nat)
    requires i < |children|
    ensures Dropped(reg, children, i) <==> GateGoes(reg, children, i)
  {
    if IsGate(children[i]) {
      var p := children[i].predicateName;
      forall j | 0 <= j < |children| && children[j].Action?
        ensures ResolvesInternally(reg, children[j].skill, p) <==> BringsInByItself(reg, children[j].skill, p)
        ensures Produces(reg, children[j].skill, p) <==> BringsIn(reg, children[j].skill, p)
      {
        TermsMean(reg, children[j].skill, p);
      }
    }
  }

  predicate Increasing(ks: seq<nat>) {
    forall m, n :: 0 <= m < n < |ks| ==> ks[m] < ks[n]
  }

  // out are the rewritten children at the positions kept: those from i on that are
  // no such gates, in order.
  ghost predicate Keeps(reg: Registry, children: seq<Node>, i: nat, kept: seq<nat>, out: seq<Node>) {
    && Increasing(kept)
    && (forall k: nat :: k in kept <==> i <= k < |children| && !GateGoes(reg, children, k))
    && |out| == |kept|
    && forall m :: 0 <= m < |kept| ==> kept[m] < |children| && out[m] == RemoveGates(reg, children[kept[m]])
  }

  // A Sequence keeps exactly the children that are no such gates, each rewritten in
  // turn.
  lemma SequenceLosesGates(reg: Registry, id: string, children: seq<Node>) returns (kept: seq<nat>)
    ensures RemoveGates(reg, Sequence(id, children)).Sequence? && RemoveGates(reg, Sequence(id, children)).nodeId == id
    ensures Keeps(reg, children, 0, kept, RemoveGates(reg, Sequence(id, children)).children)
  {
    kept := KeptIndices(reg, children, 0);
  }

  lemma {:induction false} KeptIndices(reg: Registry, children: seq<Node>, i: nat) returns (kept: seq<nat>)
    requires i <= |children|
    ensures Keeps(reg, children, i, kept, KeptFrom(reg, children, i))
    decreases |children| - i
  {
    if i == |children| {
      kept := [];
    } else {
      var rest := KeptIndices(reg, children, i + 1);
      DroppedMeans(reg, children, i);
      kept := if GateGoes(reg, children, i) then rest else [i] + rest;
      KeepsOneMore(reg, children, i, rest, KeptFrom(reg, children, i + 1));
    }
  }

  lemma KeepsOneMore(reg: Registry, children: seq<Node>, i: nat, rest: seq<nat>, out: seq<Node>)
    requires i < |children| && Keeps(reg, children, i + 1, rest, out)
    ensures
      if GateGoes(reg, children, i) then Keeps(reg, children, i, rest, out)
      else Keeps(reg, children, i, [i] + rest, [RemoveGates(reg, children[i])] + out)
  {
    assert forall m :: 0 <= m < |rest| ==> rest[m] in rest;
    if !GateGoes(reg, children, i) {
      var kept := [i] + rest;
      forall m, n | 0 <= m < n < |kept|
        ensures kept[m] < kept[n]
      {
        assert kept[n] == rest[n - 1] && kept[n] in rest;
      }
      assert forall k: nat :: k in kept <==> k == i || k in rest;
    }
  }

  // ---- Which leaves go.

  // Whatever is no gate stays, in order: the Actions among others.
  lemma {:induction false} OthersKept(reg: Registry, keep: Node -> bool, node: Node)
    requires forall n: Node :: keep(n) ==> !IsGate(n)
    ensures Filter(keep, Leaves(RemoveGates(reg, node))) == Filter(keep, Leaves(node))
    decreases node, 2, 0
  {
    match node
    case Sequence(_, children) =>
      OthersKeptFrom(reg, keep, children, 0);
      assert children[0..] == children;
    case Fallback(_, children) => OthersKeptInAll(reg, keep, children);
    case Parallel(_, children, _) => OthersKeptInAll(reg, keep, children);
    case Retry(_, _, child) => OthersKept(reg, keep, child);
    case Timeout(_, _, child) => OthersKept(reg, keep, child);
    case _ =>
  }

  lemma {:induction false} OthersKeptFrom(reg: Registry, keep: Node -> bool, children: seq<Node>, i: nat)
    requires forall n: Node :: keep(n) ==> !IsGate(n)
    requires i <= |children|
    ensures Filter(keep, AllLeaves(KeptFrom(reg, children, i))) == Filter(keep, AllLeaves(children[i..]))
    decreases children, 1, |children| - i
  {
    if i < |children| {
      OthersKeptFrom(reg, keep, children, i + 1);
      var rest := KeptFrom(reg, children, i + 1);
      assert children[i..][1..] == children[i + 1..];
      FilterAppend(keep, Leaves(children[i]), AllLeaves(children[i + 1..]));
      if Dropped(reg, children, i) {
        assert Leaves(children[i]) == [children[i]] && [children[i]][1..] == [];
        assert KeptFrom(reg, children, i) == rest;
      } else {
        OthersKept(reg, keep, children[i]);
        var head := RemoveGates(reg, children[i]);
        assert KeptFrom(reg, children, i) == [head] + rest && ([head] + rest)[1..] == rest;
        FilterAppend(keep, Leaves(head), AllLeaves(rest));
      }
    }
  }

  lemma {:induction false} OthersKeptInAll(reg: Registry, keep: Node -> bool, nodes: seq<Node>)
    requires forall n: Node :: keep(n) ==> !IsGate(n)
    ensures Filter(keep, AllLeaves(RemoveInAll(reg, nodes))) == Filter(keep, AllLeaves(nodes))
    decreases nodes, 1, 0
  {
    if nodes != [] {
      var out := RemoveInAll(reg, nodes);
      assert out[1..] == RemoveInAll(reg, nodes[1..]);
      OthersKept(reg, keep, nodes[0]);
      OthersKeptInAll(reg, keep, nodes[1..]);
      FilterAppend(keep, Leaves(nodes[0]), AllLeaves(nodes[1..]));
      FilterAppend(keep, Leaves(out[0]), AllLeaves(out[1..]));
    }
  }

  predicate IsAction(n: Node) {
    n.Action?
  }

  // Every Action stays, in order.
  lemma ActionsKept(reg: Registry, node: Node)
    ensures Filter(IsAction, Leaves(RemoveGates(reg, node))) == Filter(IsAction, Leaves(node))
  {
    OthersKept(reg, IsAction, node);
  }

  // ---- Positions in a rewritten Sequence.

  // How many of the first i children stay.
  function KeptBefore(reg: Registry, children: seq<Node>, i: nat): nat
    requires i <= |children|
  {
    if i == 0 then 0
    else KeptBefore(reg, children, i - 1) + if Dropped(reg, children, i - 1) then 0 else 1
  }

  lemma {:induction false} KeptSplits(reg: Registry, children: seq<Node>, i: nat)
    requires i <= |children|
    ensures |KeptFrom(reg, children, 0)| == KeptBefore(reg, children, i) + |KeptFrom(reg, children, i)|
    ensures KeptFrom(reg, children, 0)[KeptBefore(reg, children, i)..] == KeptFrom(reg, children, i)
    decreases i
  {
    if i > 0 {
      KeptSplits(reg, children, i - 1);
    }
  }

  // A child that stays is found at its new position.
  lemma KeptAt(reg: Registry, children: seq<Node>, i: nat)
    requires i < |children| && !Dropped(reg, children, i)
    ensures KeptBefore(reg, children, i) < |KeptFrom(reg, children, 0)|
    ensures KeptFrom(reg, children, 0)[KeptBefore(reg, children, i)] == RemoveGates(reg, children[i])
  {
    KeptSplits(reg, children, i);
    assert KeptFrom(reg, children, 0)[KeptBefore(reg, children, i)..][0] == RemoveGates(reg, children[i]);
  }

  // The last child always stays, so something is kept from any index on.
  lemma {:induction false} LastStays(reg: Registry, children: seq<Node>, i: nat)
    requires i < |children|
    ensures KeptFrom(reg, children, i) != []
    decreases |children| - i
  {
    if i + 1 < |children| {
      LastStays(reg, children, i + 1);
    }
  }

  lemma {:induction false} OldPlace(reg: Registry, children: seq<Node>, m: nat) returns (i: nat)
    requires m < |KeptFrom(reg, children, 0)|
    ensures i < |children| && !Dropped(reg, children, i) && KeptBefore(reg, children, i) == m
  {
    i := 0;
    while KeptBefore(reg, children, i) < m || Dropped(reg, children, i)
      invariant i < |children| && KeptBefore(reg, children, i) <= m
      decreases |children| - i
    {
      KeptSplits(reg, children, i + 1);
      i := i + 1;
    }
  }

  lemma {:induction false} KeptGrows(reg: Registry, children: seq<Node>, i: nat, j: nat)
    requires i <= j <= |children|
    ensures KeptBefore(reg, children, i) <= KeptBefore(reg, children, j)
    ensures i < j && !Dropped(reg, children, i) ==> KeptBefore(reg, children, i) < KeptBefore(reg, children, j)
    decreases j
  {
    if i < j {
      KeptGrows(reg, children, i, j - 1);
    }
  }

  // ---- Once is enough.

  // No Sequence of the tree has a gate left to drop.
  predicate Settled(reg: Registry, node: Node)
    decreases node, 1
  {
    match node
    case Sequence(_, children) =>
      (forall i :: 0 <= i < |children| ==> !Dropped(reg, children, i)) && AllSettled(reg, children)
    case Fallback(_, children) => AllSettled(reg, children)
    case Parallel(_, children, _) => AllSettled(reg, children)
    case Retry(_, _, child) => Settled(reg, child)
    case Timeout(_, _, child) => Settled(reg, child)
    case _ => true
  }

  predicate AllSettled(reg: Registry, nodes: seq<Node>)
    decreases nodes, 0
  {
    forall i :: 0 <= i < |nodes| ==> Settled(reg, nodes[i])
  }

  // A kept gate was kept for a reason that the rewritten Sequence still has.
  lemma KeptStaysKept(reg: Registry, children: seq<Node>, m: nat)
    requires m < |KeptFrom(reg, children, 0)|
    ensures !Dropped(reg, KeptFrom(reg, children, 0), m)
  {
    var kept := KeptFrom(reg, children, 0);
    var i := OldPlace(reg, children, m);
    KeptAt(reg, children, i);
    if Dropped(reg, kept, m) {
      var name := kept[m].predicateName;
      var l :| m < l < |kept| && kept[l].Action? && ResolvesInternally(reg, kept[l].skill, name);
      var j := OldPlace(reg, children, l);
      KeptAt(reg, children, j);
      if j <= i {
        KeptGrows(reg, children, j, i);
      }
      assert children[j] == kept[l] && ResolvedLater(reg, children, i, name);
      assert ProducedEarlier(reg, children, i, name);
      var e :| 0 <= e < i && children[e].Action? && Produces(reg, children[e].skill, name);
      KeptAt(reg, children, e);
      KeptGrows(reg, children, e, i);
    }
  }

  lemma {:induction false} RemovalSettles(reg: Registry, node: Node)
    ensures Settled(reg, RemoveGates(reg, node))
    decreases node, 2, 0
  {
    match node
    case Sequence(_, children) =>
      var kept := KeptFrom(reg, children, 0);
      forall m | 0 <= m < |kept|
        ensures !Dropped(reg, kept, m) && Settled(reg, kept[m])
      {
        KeptStaysKept(reg, children, m);
        var i := OldPlace(reg, children, m);
        KeptAt(reg, children, i);
        RemovalSettles(reg, children[i]);
      }
      assert AllSettled(reg, kept);
    case Fallback(_, children) => RemovalSettlesAll(reg, children);
    case Parallel(_, children, _) => RemovalSettlesAll(reg, children);
    case Retry(_, _, child) => RemovalSettles(reg, child);
    case Timeout(_, _, child) => RemovalSettles(reg, child);
    case _ =>
  }

  lemma {:induction false} RemovalSettlesAll(reg: Registry, nodes: seq<Node>)
    ensures AllSettled(reg, RemoveInAll(reg, nodes))
    decreases nodes, 1, 0
  {
    forall i | 0 <= i < |nodes|
      ensures Settled(reg, RemoveInAll(reg, nodes)[i])
    {
      RemovalSettles(reg, nodes[i]);
    }
  }

  // The rewrite does nothing exactly when no gate is left to drop.
  lemma {:induction false} SettledIsFixed(reg: Registry, node: Node)
    ensures Settled(reg, node) <==> RemoveGates(reg, node) == node
    decreases node, 2, 0
  {
    if RemoveGates(reg, node) == node {
      RemovalSettles(reg, node);
    }
    if Settled(reg, node) {
      match node
      case Sequence(_, children) =>
        assert AllSettled(reg, children);
        SettledChildrenFixed(reg, children, 0);
        assert children[0..] == children;
      case Fallback(_, children) => SettledAllFixed(reg, children);
      case Parallel(_, children, _) => SettledAllFixed(reg, children);
      case Retry(_, _, child) => SettledIsFixed(reg, child);
      case Timeout(_, _, child) => SettledIsFixed(reg, child);
      case _ =>
    }
  }

  lemma {:induction false} SettledChildrenFixed(reg: Registry, children: seq<Node>, i: nat)
    requires i <= |children| && AllSettled(reg, children)
    requires forall k :: 0 <= k < |children| ==> !Dropped(reg, children, k)
    ensures KeptFrom(reg, children, i) == children[i..]
    decreases children, 1, |children| - i
  {
    if i < |children| {
      SettledIsFixed(reg, children[i]);
      SettledChildrenFixed(reg, children, i + 1);
    }
  }

  lemma {:induction false} SettledAllFixed(reg: Registry, nodes: seq<Node>)
    requires AllSettled(reg, nodes)
    ensures RemoveInAll(reg, nodes) == nodes
    decreases nodes, 1, 0
  {
    forall i | 0 <= i < |nodes|
      ensures RemoveInAll(reg, nodes)[i] == nodes[i]
    {
      SettledIsFixed(reg, nodes[i]);
    }
  }

  lemma RemovalIsIdempotent(reg: Registry, node: Node)
    ensures RemoveGates(reg, RemoveGates(reg, node)) == RemoveGates(reg, node)
  {
    RemovalSettles(reg, node);
    SettledIsFixed(reg, RemoveGates(reg, node));
  }

  // ---- A validated plan stays validated.

  lemma {:induction false} RemovalKeepsValid(reg: Registry, known: set<string>, node: Node)
    ensures Resources(reg, RemoveGates(reg, node)) == Resources(reg, node)
    ensures Validated(reg, known, node) ==> Validated(reg, known, RemoveGates(reg, node))
    decreases node, 2, 0
  {
    match node
    case Sequence(_, children) =>
      KeptKeepsValid(reg, known, children, 0);
      assert children[0..] == children;
      if children != [] {
        LastStays(reg, children, 0);
      }
    case Fallback(_, children) => RemovalInAllKeepsValid(reg, known, children);
    case Parallel(_, _, _) => ParallelStaysValid(reg, known, node);
    case Retry(_, _, child) => RemovalKeepsValid(reg, known, child);
    case Timeout(_, _, child) => RemovalKeepsValid(reg, known, child);
    case _ =>
  }

  lemma {:induction false} ParallelStaysValid(reg: Registry, known: set<string>, node: Node)
    requires node.Parallel?
    ensures Resources(reg, RemoveGates(reg, node)) == Resources(reg, node)
    ensures Validated(reg, known, node) ==> Validated(reg, known, RemoveGates(reg, node))
    decreases node, 1, 0
  {
    var children := node.children;
    RemovalInAllKeepsValid(reg, known, children);
    forall i | 0 <= i < |children|
      ensures Resources(reg, RemoveInAll(reg, children)[i]) == Resources(reg, children[i])
    {
      RemovalKeepsValid(reg, known, children[i]);
    }
    BranchesReplaced(reg, known, node, RemoveInAll(reg, children));
  }

  lemma BranchesReplaced(reg: Registry, known: set<string>, node: Node, branches: seq<Node>)
    requires node.Parallel? && |branches| == |node.children|
    requires forall i :: 0 <= i < |branches| ==> Resources(reg, branches[i]) == Resources(reg, node.children[i])
    requires AllResources(reg, branches) == AllResources(reg, node.children)
    requires AllValidated(reg, known, node.children) ==> AllValidated(reg, known, branches)
    ensures Resources(reg, node.(children := branches)) == Resources(reg, node)
    ensures Validated(reg, known, node) ==> Validated(reg, known, node.(children := branches))
  {
    SameNeedsStayDisjoint(reg, node.children, branches);
  }

  lemma SameNeedsStayDisjoint(reg: Registry, xs: seq<Node>, ys: seq<Node>)
    requires |xs| == |ys| && forall i :: 0 <= i < |xs| ==> Resources(reg, ys[i]) == Resources(reg, xs[i])
    ensures BranchesDisjoint(reg, xs) ==> BranchesDisjoint(reg, ys)
  {
  }

  lemma {:induction false} KeptKeepsValid(reg: Registry, known: set<string>, children: seq<Node>, i: nat)
    requires i <= |children|
    ensures AllResources(reg, KeptFrom(reg, children, i)) == AllResources(reg, children[i..])
    ensures AllValidated(reg, known, children) ==> AllValidated(reg, known, KeptFrom(reg, children, i))
    decreases children, 1, |children| - i
  {
    if i < |children| {
      KeptKeepsValid(reg, known, children, i + 1);
      assert children[i..][1..] == children[i + 1..];
      if Dropped(reg, children, i) {
        assert Resources(reg, children[i]) == {};
        assert KeptFrom(reg, children, i) == KeptFrom(reg, children, i + 1);
      } else {
        RemovalKeepsValid(reg, known, children[i]);
        var rest := KeptFrom(reg, children, i + 1);
        var head := RemoveGates(reg, children[i]);
        assert KeptFrom(reg, children, i) == [head] + rest && ([head] + rest)[1..] == rest;
      }
    }
  }

  lemma {:induction false} RemovalInAllKeepsValid(reg: Registry, known: set<string>, nodes: seq<Node>)
    ensures AllResources(reg, RemoveInAll(reg, nodes)) == AllResources(reg, nodes)
    ensures AllValidated(reg, known, nodes) ==> AllValidated(reg, known, RemoveInAll(reg, nodes))
    decreases nodes, 1, 0
  {
    if nodes != [] {
      var out := RemoveInAll(reg, nodes);
      assert out[1..] == RemoveInAll(reg, nodes[1..]);
      RemovalKeepsValid(reg, known, nodes[0]);
      RemovalInAllKeepsValid(reg, known, nodes[1..]);
      if AllValidated(reg, known, nodes) {
        assert AllValidated(reg, known, nodes[1..]);
        forall i | 0 <= i < |nodes|
          ensures Validated(reg, known, out[i])
        {
          if i > 0 {
            assert out[i] == out[1..][i - 1];
          }
        }
      }
    }
  }
}
