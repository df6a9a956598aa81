// When exactly the redundant prefix goes, and what is left: stated on the tree,
// by paths, without the list of placed Actions that the rewrite collects.
module PrefixRule {
  import opened Common
  import opened SkillRegistry
  import opened SkillTerms
  import opened BehaviourTree
  import opened TreeRewrites
  import opened PlanningContext
  import opened RedundantPrefix

  // ---- The rule.

  // The Action moves the robot.
  predicate Moves(reg: Registry, a: Node) {
    a.Action? && MovesRobot(reg, a.skill)
  }

  predicate Looks(a: Node) {
    a.Action? && a.skill == "look_at"
  }

  // It looks for the very target that the terminal looks for.
  predicate Repeats(reg: Registry, t: Text, a: Node, term: Node) {
    && a.Action? && term.Action? && IsSubsumed(reg, a.skill)
    && t.norm(Get(term.args, "target")) != ""
    && t.norm(Get(a.args, "target")) == t.norm(Get(term.args, "target"))
  }

  // What goes: a moving Action in front of the terminal that repeats its search, or
  // a look that nobody asked for.
  predicate Goes(reg: Registry, t: Text, asked: string -> bool, term: Node, a: Node) {
    && Moves(reg, a) && !Locates(reg, a)
    && if Looks(a) then !asked(Get(a.args, "direction")) else Repeats(reg, t, a, term)
  }

  predicate MovesAt(reg: Registry, root: Node, x: Path) {
    NodeAt(root, x).Some? && Moves(reg, NodeAt(root, x).value)
  }

  predicate LooksAt(reg: Registry, root: Node, x: Path) {
    MovesAt(reg, root, x) && Looks(NodeAt(root, x).value)
  }

  predicate InFront(x: Path, at: Path, j: nat) {
    |x| == |at| + 1 && at <= x && x[|at|] < j
  }

  // The j-th child of the Sequence at `at` is the plan's one terminal, and all that
  // moves besides stands in front of it there: one look at most, and none if the
  // terminal knows its entity, and searches for its target.
  ghost predicate Terminates(reg: Registry, t: Text, root: Node, at: Path, j: nat) {
    && NodeAt(root, at).Some? && NodeAt(root, at).value.Sequence? && j < |NodeAt(root, at).value.children|
    && var term := NodeAt(root, at).value.children[j];
       && Moves(reg, term) && Locates(reg, term)
       && (forall x :: MovesAt(reg, root, x) && x != at + [j] ==>
             && InFront(x, at, j)
             && var a := NodeAt(root, x).value;
                !Locates(reg, a) && (Looks(a) || Repeats(reg, t, a, term)))
       && (forall x, y :: LooksAt(reg, root, x) && LooksAt(reg, root, y) && x != at + [j] && y != at + [j] ==> x == y)
       && (forall x :: LooksAt(reg, root, x) && x != at + [j] ==> Get(term.args, "entity_id") == "")
  }

  ghost predicate Fires(reg: Registry, t: Text, asked: string -> bool, root: Node, at: Path, j: nat) {
    && Terminates(reg, t, root, at, j)
    && var children := NodeAt(root, at).value.children;
       exists i :: 0 <= i < |children| && Goes(reg, t, asked, children[j], children[i])
  }

  function Stays(reg: Registry, t: Text, asked: string -> bool, term: Node): Node -> bool {
    (a: Node) => !Goes(reg, t, asked, term, a)
  }

  // ---- The list of placed Actions has every moving Action once, with its parent.

  lemma MovesIsPhysical(reg: Registry, a: Node)
    ensures Moves(reg, a) <==> a.Action? && IsPhysicalSkill(reg, a.skill)
  {
    if a.Action? {
      TermsMean(reg, a.skill, "");
    }
  }

  // The placed Action knows whether it is a direct child of a Sequence.
  predicate KnowsParent(root: Node, p: Placed) {
    if p.path == [] then p.parent == None
    else
      var above := p.path[..|p.path| - 1];
      && NodeAt(root, above).Some?
      && p.parent == (if NodeAt(root, above).value.Sequence? then Some(above) else None)
      && (p.parent.Some? ==> p.index == p.path[|p.path| - 1])
  }

  lemma {:induction false} ParentsKnown(reg: Registry, root: Node, node: Node, path: Path, parent: Option<Path>, index: nat)
    requires NodeAt(root, path) == Some(node)
    requires node.Action? ==> KnowsParent(root, Placed(path, node, parent, index))
    ensures forall p :: p in Physicals(reg, node, path, parent, index) ==> KnowsParent(root, p)
    decreases node, 1, 0
  {
    match node
    case Sequence(_, children) => ParentsFromKnown(reg, root, node, path, true, 0);
    case Fallback(_, children) => ParentsFromKnown(reg, root, node, path, false, 0);
    case Parallel(_, children, _) => ParentsFromKnown(reg, root, node, path, false, 0);
    case Retry(_, _, child) =>
      NodeAtExtends(root, path, 0);
      assert (path + [0])[..|path|] == path;
      ParentsKnown(reg, root, child, path + [0], None, 0);
    case Timeout(_, _, child) =>
      NodeAtExtends(root, path, 0);
      assert (path + [0])[..|path|] == path;
      ParentsKnown(reg, root, child, path + [0], None, 0);
    case _ =>
  }

  lemma {:induction false} ParentsFromKnown(reg: Registry, root: Node, node: Node, path: Path, inSequence: bool, i: nat)
    requires NodeAt(root, path) == Some(node)
    requires (node.Sequence? || node.Fallback? || node.Parallel?) && inSequence == node.Sequence?
    requires i <= |node.children|
    ensures forall p :: p in PhysicalsFrom(reg, node.children, path, inSequence, i) ==> KnowsParent(root, p)
    decreases node, 0, |node.children| - i
  {
    if i < |node.children| {
      NodeAtExtends(root, path, i);
      assert (path + [i])[..|path|] == path;
      ParentsKnown(reg, root, node.children[i], path + [i], if inSequence then Some(path) else None, if inSequence then i else 0);
      ParentsFromKnown(reg, root, node, path, inSequence, i + 1);
    }
  }

  // Every moving Action below a node is listed.
  lemma {:induction false} MoverIsListed(
      reg: Registry, node: Node, path: Path, parent: Option<Path>, index: nat, x: Path) returns (p: Placed)
    requires MovesAt(reg, node, x)
    ensures p in Physicals(reg, node, path, parent, index) && p.path == path + x && p.action == NodeAt(node, x).value
    decreases node, 1, 0
  {
    if x == [] {
      MovesIsPhysical(reg, node);
      p := Placed(path, node, parent, index);
      assert path + x == path;
    } else {
      var k := x[0];
      assert (path + [k]) + x[1..] == path + x;
      match node
      case Sequence(_, children) => p := MoverIsListedFrom(reg, node, path, true, 0, x);
      case Fallback(_, children) => p := MoverIsListedFrom(reg, node, path, false, 0, x);
      case Parallel(_, children, _) => p := MoverIsListedFrom(reg, node, path, false, 0, x);
      case Retry(_, _, child) => p := MoverIsListed(reg, child, path + [0], None, 0, x[1..]);
      case Timeout(_, _, child) => p := MoverIsListed(reg, child, path + [0], None, 0, x[1..]);
    }
  }

  lemma {:induction false} MoverIsListedFrom(reg: Registry, node: Node, path: Path, inSequence: bool, i: nat, x: Path)
      returns (p: Placed)
    requires node.Sequence? || node.Fallback? || node.Parallel?
    requires x != [] && i <= x[0] < |node.children| && MovesAt(reg, node.children[x[0]], x[1..])
    ensures p in PhysicalsFrom(reg, node.children, path, inSequence, i)
    ensures p.path == path + x && p.action == NodeAt(node.children[x[0]], x[1..]).value
    decreases node, 0, |node.children| - i
  {
    if i == x[0] {
      assert (path + [i]) + x[1..] == path + x;
      p := MoverIsListed(reg, node.children[i], path + [i], if inSequence then Some(path) else None,
                         if inSequence then i else 0, x[1..]);
    } else {
      p := MoverIsListedFrom(reg, node, path, inSequence, i + 1, x);
    }
  }

  predicate NoTwice<T(==)>(xs: seq<T>) {
    forall i, j :: 0 <= i < j < |xs| ==> xs[i] != xs[j]
  }

  lemma NoTwiceConcat<T>(xs: seq<T>, ys: seq<T>)
    requires NoTwice(xs) && NoTwice(ys) && forall x, y :: x in xs && y in ys ==> x != y
    ensures NoTwice(xs + ys)
  {
    var zs := xs + ys;
    forall i, j | 0 <= i < j < |zs|
      ensures zs[i] != zs[j]
    {
      if i < |xs| && j >= |xs| {
        assert zs[i] in xs && zs[j] in ys;
      }
    }
  }

  lemma {:induction false} ListedOnce(reg: Registry, node: Node, path: Path, parent: Option<Path>, index: nat)
    ensures NoTwice(Physicals(reg, node, path, parent, index))
    decreases node, 1, 0
  {
    match node
    case Sequence(_, children) => ListedOnceFrom(reg, children, path, true, 0);
    case Fallback(_, children) => ListedOnceFrom(reg, children, path, false, 0);
    case Parallel(_, children, _) => ListedOnceFrom(reg, children, path, false, 0);
    case Retry(_, _, child) => ListedOnce(reg, child, path + [0], None, 0);
    case Timeout(_, _, child) => ListedOnce(reg, child, path + [0], None, 0);
    case _ =>
  }

  lemma {:induction false} ListedOnceFrom(reg: Registry, children: seq<Node>, path: Path, inSequence: bool, i: nat)
    requires i <= |children|
    ensures NoTwice(PhysicalsFrom(reg, children, path, inSequence, i))
    decreases children, 0, |children| - i
  {
    if i < |children| {
      var parent, index := if inSequence then Some(path) else None, if inSequence then i else 0;
      var first, rest := Physicals(reg, children[i], path + [i], parent, index), PhysicalsFrom(reg, children, path, inSequence, i + 1);
      ListedOnce(reg, children[i], path + [i], parent, index);
      ListedOnceFrom(reg, children, path, inSequence, i + 1);
      PathsDiffer(reg, children[i], path + [i], parent, index);
      PathsFromDiffer(reg, children, path, inSequence, i + 1);
      forall p, q | p in first && q in rest
        ensures p != q
      {
        assert (path + [i])[|path|] == i;
        assert p.path[|path|] == i && q.path[|path|] >= i + 1;
      }
      NoTwiceConcat(first, rest);
    }
  }

  // ---- Counting by filters.

  lemma {:induction false} FilterNoTwice<T(!new)>(keep: T -> bool, xs: seq<T>)
    requires NoTwice(xs)
    ensures NoTwice(Filter(keep, xs))
  {
    if xs != [] {
      assert NoTwice(xs[1..]);
      FilterNoTwice(keep, xs[1..]);
      FilterMembers(keep, xs[1..]);
      var rest := Filter(keep, xs[1..]);
      assert xs[0] !in xs[1..];
      if keep(xs[0]) {
        assert NoTwice([xs[0]]);
        NoTwiceConcat([xs[0]], rest);
      } else {
        assert Filter(keep, xs) == rest;
      }
    }
  }

  lemma FilterCounts<T(!new)>(keep: T -> bool, xs: seq<T>)
    requires NoTwice(xs)
    ensures |Filter(keep, xs)| <= 1 <==> forall x, y :: x in xs && y in xs && keep(x) && keep(y) ==> x == y
    ensures Filter(keep, xs) == [] <==> forall x :: x in xs ==> !keep(x)
  {
    FilterNoTwice(keep, xs);
    FilterMembers(keep, xs);
    var ys := Filter(keep, xs);
    if |ys| > 1 {
      assert ys[0] in ys && ys[1] in ys && ys[0] != ys[1];
    }
    if ys != [] {
      assert ys[0] in ys;
    }
  }

  // ---- Members of the list, and what the search for a terminal asks of them.

  // The list stands for the tree: its members are the moving Actions, by path.
  ghost predicate Lists(reg: Registry, root: Node, ps: seq<Placed>) {
    && NoTwice(ps) && Distinct(ps)
    && (forall p :: p in ps ==> MovesAt(reg, root, p.path) && NodeAt(root, p.path).value == p.action && KnowsParent(root, p))
    && (forall x :: MovesAt(reg, root, x) ==> exists p :: p in ps && p.path == x)
  }

  lemma PhysicalsList(reg: Registry, root: Node)
    ensures Lists(reg, root, Physicals(reg, root, [], None, 0))
  {
    var ps := Physicals(reg, root, [], None, 0);
    ListedOnce(reg, root, [], None, 0);
    PathsDiffer(reg, root, [], None, 0);
    PhysicalsPlaced(reg, root, root, [], None, 0);
    ParentsKnown(reg, root, root, [], None, 0);
    forall p | p in ps
      ensures MovesAt(reg, root, p.path) && NodeAt(root, p.path).value == p.action
    {
      assert WellPlaced(reg, root, p);
      MovesIsPhysical(reg, p.action);
    }
    forall x | MovesAt(reg, root, x)
      ensures exists p :: p in ps && p.path == x
    {
      var p := MoverIsListed(reg, root, [], None, 0, x);
      assert [] + x == x;
    }
  }

  // The conditions of the search, on the members of the list.
  ghost predicate TerminatesIn(reg: Registry, t: Text, ps: seq<Placed>, term: Placed) {
    && term in ps && Locates(reg, term.action) && term.parent.Some?
    && (forall p :: p in ps && p != term ==>
          EarlierSibling(p, term) && !Locates(reg, p.action) && (Looks(p.action) || Repeats(reg, t, p.action, term.action)))
    && (forall p, q :: p in ps && q in ps && p != term && q != term && Looks(p.action) && Looks(q.action) ==> p == q)
    && (forall p :: p in ps && p != term && Looks(p.action) ==> Get(term.action.args, "entity_id") == "")
  }

  lemma FoundMeans(reg: Registry, t: Text, asked: string -> bool, root: Node, ps: seq<Placed>)
    requires Lists(reg, root, ps)
    ensures
      match FindTerminal(reg, t, asked, ps)
      case None => forall term :: !TerminatesIn(reg, t, ps, term)
      case Some(m) =>
        && TerminatesIn(reg, t, ps, m.terminal)
        && forall p :: p in m.redundant <==> p in ps && p != m.terminal && Goes(reg, t, asked, m.terminal.action, p.action)
  {
    var locating := Locating(reg);
    FilterCounts(locating, ps);
    FilterMembers(locating, ps);
    var terminals := Terminals(reg, ps);
    assert forall p :: locating(p) <==> Locates(reg, p.action);
    if |terminals| == 1 {
      assert terminals[0] in terminals;
      if terminals[0].parent.Some? {
        OthersMean(reg, t, asked, root, ps, terminals[0]);
      }
    }
    forall term | TerminatesIn(reg, t, ps, term)
      ensures |terminals| == 1 && term == terminals[0]
    {
      assert term in terminals;
      assert forall p, q :: p in ps && q in ps && locating(p) && locating(q) ==> p == q;
    }
  }

  // All the moving Actions but the terminal, the looks among them and the others.
  ghost predicate Splits(ps: seq<Placed>, term: Placed, others: seq<Placed>, looks: seq<Placed>, locates: seq<Placed>) {
    && (forall p :: p in others <==> p in ps && p != term)
    && (forall p :: p in looks <==> p in others && Looks(p.action))
    && (forall p :: p in locates <==> p in others && !Looks(p.action))
    && (|looks| <= 1 <==> forall p, q :: p in looks && q in looks ==> p == q)
  }

  lemma OthersSplit(ps: seq<Placed>, term: Placed)
    requires NoTwice(ps) && Distinct(ps) && term in ps && forall p :: p in ps ==> p.action.Action?
    ensures
      var others := Filter(OtherThan(term), ps);
      Splits(ps, term, others, Filter(IsLook, others), Filter(IsNoLook, others))
  {
    OthersAre(ps, term);
    LooksSplit(Filter(OtherThan(term), ps));
  }

  lemma OthersAre(ps: seq<Placed>, term: Placed)
    requires NoTwice(ps) && Distinct(ps) && term in ps
    ensures
      var others := Filter(OtherThan(term), ps);
      NoTwice(others) && forall p :: p in others <==> p in ps && p != term
  {
    FilterMembers(OtherThan(term), ps);
    FilterNoTwice(OtherThan(term), ps);
  }

  lemma LooksSplit(others: seq<Placed>)
    requires NoTwice(others) && forall p :: p in others ==> p.action.Action?
    ensures
      var looks, locates := Filter(IsLook, others), Filter(IsNoLook, others);
      && (forall p :: p in looks <==> p in others && Looks(p.action))
      && (forall p :: p in locates <==> p in others && !Looks(p.action))
      && (|looks| <= 1 <==> forall p, q :: p in looks && q in looks ==> p == q)
  {
    FilterMembers(IsNoLook, others);
    FilterMembers(IsLook, others);
    FilterCounts(IsLook, others);
  }

  // What the search decides, once the others are split.
  lemma SplitDecides(
      reg: Registry, t: Text, ps: seq<Placed>, term: Placed, others: seq<Placed>, looks: seq<Placed>, locates: seq<Placed>)
    requires Splits(ps, term, others, looks, locates) && term in ps && Locates(reg, term.action) && term.parent.Some?
    requires forall p :: p in ps ==> p.action.Action? && (Locates(reg, p.action) ==> p == term)
    ensures TerminatesIn(reg, t, ps, term) <==>
      && (forall p :: p in others ==> EarlierSibling(p, term))
      && (forall p :: p in locates ==> RepeatsTerminal(reg, t, p, term))
      && |looks| <= 1
      && (looks == [] || Get(term.action.args, "entity_id") == "")
  {
    if looks != [] {
      assert looks[0] in looks;
    }
  }

  lemma OthersMean(reg: Registry, t: Text, asked: string -> bool, root: Node, ps: seq<Placed>, term: Placed)
    requires Lists(reg, root, ps) && Terminals(reg, ps) == [term] && term in ps && Locates(reg, term.action) && term.parent.Some?
    requires forall p :: p in ps && Locates(reg, p.action) ==> p == term
    ensures
      match FindTerminal(reg, t, asked, ps)
      case None => !TerminatesIn(reg, t, ps, term)
      case Some(m) =>
        && m.terminal == term && TerminatesIn(reg, t, ps, term)
        && forall p :: p in m.redundant <==> p in ps && p != term && Goes(reg, t, asked, term.action, p.action)
  {
    var others := Filter(OtherThan(term), ps);
    var looks, locates := Filter(IsLook, others), Filter(IsNoLook, others);
    OthersSplit(ps, term);
    SplitDecides(reg, t, ps, term, others, looks, locates);
    var found := FindTerminal(reg, t, asked, ps);
    if found.Some? {
      var unasked := Filter(Unasked(asked), looks);
      FilterMembers(Unasked(asked), looks);
      assert found.value == Match(term, locates + unasked);
      RedundantGo(reg, t, asked, root, ps, term, others, looks, locates, unasked);
    }
  }

  lemma RedundantGo(
      reg: Registry, t: Text, asked: string -> bool, root: Node, ps: seq<Placed>, term: Placed,
      others: seq<Placed>, looks: seq<Placed>, locates: seq<Placed>, unasked: seq<Placed>)
    requires Lists(reg, root, ps) && Splits(ps, term, others, looks, locates)
    requires forall p :: p in unasked <==> p in looks && !AskedFor(asked, p)
    requires TerminatesIn(reg, t, ps, term)
    ensures forall p :: p in locates + unasked <==> p in ps && p != term && Goes(reg, t, asked, term.action, p.action)
  {
  }

  // ---- From the list back to the tree.

  lemma SiblingByPath(root: Node, p: Placed, term: Placed)
    requires KnowsParent(root, p) && KnowsParent(root, term) && term.parent.Some?
    requires NodeAt(root, p.path).Some?
    ensures EarlierSibling(p, term) <==> InFront(p.path, term.parent.value, term.index)
  {
    var at := term.parent.value;
    assert term.path[..|term.path| - 1] == at && NodeAt(root, at).value.Sequence?;
    if EarlierSibling(p, term) {
      assert p.path[..|p.path| - 1] == at && p.path[|at|] == p.index;
    }
    if InFront(p.path, at, term.index) {
      assert p.path[..|p.path| - 1] == at;
    }
  }

  lemma TerminalByPath(reg: Registry, t: Text, root: Node, ps: seq<Placed>, term: Placed)
    requires Lists(reg, root, ps) && TerminatesIn(reg, t, ps, term)
    ensures term.path == term.parent.value + [term.index]
    ensures Terminates(reg, t, root, term.parent.value, term.index)
    ensures NodeAt(root, term.parent.value).value.children[term.index] == term.action
  {
    var at, j := term.parent.value, term.index;
    assert term.path == at + [j];
    NodeAtExtends(root, at, j);
    forall x | MovesAt(reg, root, x) && x != at + [j]
      ensures InFront(x, at, j)
      ensures !Locates(reg, NodeAt(root, x).value)
      ensures Looks(NodeAt(root, x).value) || Repeats(reg, t, NodeAt(root, x).value, term.action)
      ensures LooksAt(reg, root, x) ==> Get(term.action.args, "entity_id") == ""
    {
      var p := PlacedAt(reg, t, root, ps, term, x);
    }
    forall x, y | LooksAt(reg, root, x) && LooksAt(reg, root, y) && x != at + [j] && y != at + [j]
      ensures x == y
    {
      var p := PlacedAt(reg, t, root, ps, term, x);
      var q := PlacedAt(reg, t, root, ps, term, y);
    }
  }

  // The placed Action at a path that is not the terminal's.
  lemma PlacedAt(reg: Registry, t: Text, root: Node, ps: seq<Placed>, term: Placed, x: Path) returns (p: Placed)
    requires Lists(reg, root, ps) && TerminatesIn(reg, t, ps, term) && MovesAt(reg, root, x) && x != term.path
    ensures p in ps && p.path == x && p != term && NodeAt(root, x).value == p.action
    ensures InFront(x, term.parent.value, term.index)
  {
    p :| p in ps && p.path == x;
    SiblingByPath(root, p, term);
  }

  lemma TerminalInList(reg: Registry, t: Text, root: Node, ps: seq<Placed>, at: Path, j: nat) returns (term: Placed)
    requires Lists(reg, root, ps) && Terminates(reg, t, root, at, j)
    ensures TerminatesIn(reg, t, ps, term) && term.parent == Some(at) && term.index == j
  {
    NodeAtExtends(root, at, j);
    assert MovesAt(reg, root, at + [j]);
    term :| term in ps && term.path == at + [j];
    assert (at + [j])[..|at|] == at;
    assert NodeAt(root, at).value.children[j] == term.action;
    MembersByPath(reg, t, root, ps, at, j, term);
  }

  lemma MembersByPath(reg: Registry, t: Text, root: Node, ps: seq<Placed>, at: Path, j: nat, term: Placed)
    requires Lists(reg, root, ps) && Terminates(reg, t, root, at, j) && term in ps && term.path == at + [j]
    requires term.parent == Some(at) && term.index == j && NodeAt(root, at).value.children[j] == term.action
    ensures TerminatesIn(reg, t, ps, term)
  {
    forall p | p in ps && p != term
      ensures p.path != at + [j] && EarlierSibling(p, term)
      ensures !Locates(reg, p.action) && (Looks(p.action) || Repeats(reg, t, p.action, term.action))
      ensures Looks(p.action) ==> LooksAt(reg, root, p.path)
    {
      assert MovesAt(reg, root, p.path) && NodeAt(root, p.path).value == p.action && p.path != at + [j];
      SiblingByPath(root, p, term);
    }
  }

  // A list has at most one terminal.
  lemma OneTerminal(reg: Registry, t: Text, ps: seq<Placed>, a: Placed, b: Placed)
    requires TerminatesIn(reg, t, ps, a) && TerminatesIn(reg, t, ps, b)
    ensures a == b
  {
  }

  // ---- The main result.

  lemma {:induction false} ExceptIsFilter(
      reg: Registry, t: Text, asked: string -> bool, term: Node, children: seq<Node>, at: Path, drop: set<Path>, i: nat)
    requires i <= |children|
    requires forall k :: 0 <= k < |children| ==> (at + [k] in drop <==> Goes(reg, t, asked, term, children[k]))
    ensures Except(children, at, drop, i) == Filter(Stays(reg, t, asked, term), children[i..])
    decreases |children| - i
  {
    if i < |children| {
      ExceptIsFilter(reg, t, asked, term, children, at, drop, i + 1);
      assert children[i..][1..] == children[i + 1..];
    }
  }

  lemma {:induction false} ReplacedDiffers(node: Node, path: Path, sub: Node)
    requires NodeAt(node, path).Some? && ReplaceAt(node, path, sub) == node
    ensures sub == NodeAt(node, path).value
    decreases |path|
  {
    if path != [] {
      var child := ChildAt(node, path[0]).value;
      if node.Sequence? || node.Fallback? || node.Parallel? {
        assert node.children[path[0] := ReplaceAt(child, path[1..], sub)][path[0]] == node.children[path[0]];
      }
      ReplacedDiffers(child, path[1..], sub);
    }
  }

  lemma {:induction false} FilterDropsNothing<T(!new)>(keep: T -> bool, xs: seq<T>)
    requires Filter(keep, xs) == xs
    ensures forall x :: x in xs ==> keep(x)
  {
    FilterMembers(keep, xs);
    forall x | x in xs
      ensures keep(x)
    {
      assert x in Filter(keep, xs);
    }
  }

  // The redundant Actions of a match are the children of its Sequence that go.
  lemma RedundantByPath(reg: Registry, t: Text, asked: string -> bool, root: Node, ps: seq<Placed>, m: Match)
    requires Lists(reg, root, ps) && TerminatesIn(reg, t, ps, m.terminal)
    requires forall p :: p in m.redundant <==> p in ps && p != m.terminal && Goes(reg, t, asked, m.terminal.action, p.action)
    ensures
      var at, children := m.terminal.parent.value, NodeAt(root, m.terminal.parent.value).value.children;
      forall k :: 0 <= k < |children| ==>
        (at + [k] in Paths(m.redundant) <==> Goes(reg, t, asked, m.terminal.action, children[k]))
  {
    TerminalByPath(reg, t, root, ps, m.terminal);
    var at, children := m.terminal.parent.value, NodeAt(root, m.terminal.parent.value).value.children;
    forall k | 0 <= k < |children|
      ensures at + [k] in Paths(m.redundant) <==> Goes(reg, t, asked, m.terminal.action, children[k])
    {
      NodeAtExtends(root, at, k);
      GoneByPath(reg, t, asked, root, ps, m, at + [k], children[k]);
    }
  }

  lemma GoneByPath(
      reg: Registry, t: Text, asked: string -> bool, root: Node, ps: seq<Placed>, m: Match, x: Path, a: Node)
    requires Lists(reg, root, ps) && Locates(reg, m.terminal.action) && NodeAt(root, x) == Some(a)
    requires forall p :: p in m.redundant <==> p in ps && p != m.terminal && Goes(reg, t, asked, m.terminal.action, p.action)
    ensures x in Paths(m.redundant) <==> Goes(reg, t, asked, m.terminal.action, a)
  {
    if Goes(reg, t, asked, m.terminal.action, a) {
      assert MovesAt(reg, root, x);
      var p :| p in ps && p.path == x;
      assert p != m.terminal;
      assert p in m.redundant;
    }
    if x in Paths(m.redundant) {
      var p :| p in m.redundant && p.path == x;
      assert p.action == a;
    }
  }

  // The Sequence s without the children that go.
  function Shortened(reg: Registry, t: Text, asked: string -> bool, s: Node, term: Node): Node
    requires s.Sequence?
  {
    Sequence(s.nodeId, Filter(Stays(reg, t, asked, term), s.children))
  }

  lemma ShortenedDiffers(reg: Registry, t: Text, asked: string -> bool, root: Node, at: Path, j: nat)
    requires Fires(reg, t, asked, root, at, j)
    ensures
      var s := NodeAt(root, at).value;
      ReplaceAt(root, at, Shortened(reg, t, asked, s, s.children[j])) != root
  {
    var s := NodeAt(root, at).value;
    var stays := Stays(reg, t, asked, s.children[j]);
    var i :| 0 <= i < |s.children| && Goes(reg, t, asked, s.children[j], s.children[i]);
    assert s.children[i] in s.children && !stays(s.children[i]);
    if ReplaceAt(root, at, Shortened(reg, t, asked, s, s.children[j])) == root {
      ReplacedDiffers(root, at, Shortened(reg, t, asked, s, s.children[j]));
      FilterDropsNothing(stays, s.children);
    }
  }

  // What a match with something redundant does to the tree.
  lemma MatchShortens(reg: Registry, t: Text, asked: string -> bool, root: Node, ps: seq<Placed>, m: Match)
    requires ps == Physicals(reg, root, [], None, 0) && FindTerminal(reg, t, asked, ps) == Some(m) && m.redundant != []
    requires Lists(reg, root, ps) && TerminatesIn(reg, t, ps, m.terminal)
    requires forall p :: p in m.redundant <==> p in ps && p != m.terminal && Goes(reg, t, asked, m.terminal.action, p.action)
    ensures Terminates(reg, t, root, m.terminal.parent.value, m.terminal.index)
    ensures
      var at := m.terminal.parent.value;
      var s := NodeAt(root, at).value;
      WithoutPrefix(reg, t, asked, root) == Some(ReplaceAt(root, at, Shortened(reg, t, asked, s, m.terminal.action)))
  {
    TerminalByPath(reg, t, root, ps, m.terminal);
    RedundantByPath(reg, t, asked, root, ps, m);
    var s := NodeAt(root, m.terminal.parent.value).value;
    MatchIsSound(reg, t, asked, root);
    var at, j, drop := MatchIsLocal(reg, t, asked, root, m);
    MatchIsAtTerminal(reg, t, asked, root, ps, m, at, drop);
  }

  lemma MatchIsAtTerminal(
      reg: Registry, t: Text, asked: string -> bool, root: Node, ps: seq<Placed>, m: Match, at: Path, drop: set<Path>)
    requires drop == Paths(m.redundant) && NodeAt(root, at).Some? && NodeAt(root, at).value.Sequence?
    requires m.terminal.parent == Some(at)
    requires
      var children := NodeAt(root, at).value.children;
      forall k :: 0 <= k < |children| ==> (at + [k] in drop <==> Goes(reg, t, asked, m.terminal.action, children[k]))
    ensures
      var s := NodeAt(root, at).value;
      Sequence(s.nodeId, Except(s.children, at, drop, 0)) == Shortened(reg, t, asked, s, m.terminal.action)
  {
    var s := NodeAt(root, at).value;
    ExceptIsFilter(reg, t, asked, m.terminal.action, s.children, at, drop, 0);
    assert s.children[0..] == s.children;
  }

  // A match changes the tree exactly if a child goes, and leaves the others.
  lemma MatchChanges(reg: Registry, t: Text, asked: string -> bool, root: Node, ps: seq<Placed>, m: Match)
    requires ps == Physicals(reg, root, [], None, 0) && FindTerminal(reg, t, asked, ps) == Some(m) && Lists(reg, root, ps)
    requires TerminatesIn(reg, t, ps, m.terminal)
    requires forall p :: p in m.redundant <==> p in ps && p != m.terminal && Goes(reg, t, asked, m.terminal.action, p.action)
    ensures Terminates(reg, t, root, m.terminal.parent.value, m.terminal.index)
    ensures NodeAt(root, m.terminal.parent.value).value.children[m.terminal.index] == m.terminal.action
    ensures
      var at, s := m.terminal.parent.value, NodeAt(root, m.terminal.parent.value).value;
      if Fires(reg, t, asked, root, at, m.terminal.index) then
        WithoutPrefix(reg, t, asked, root) == Some(ReplaceAt(root, at, Shortened(reg, t, asked, s, m.terminal.action)))
      else WithoutPrefix(reg, t, asked, root) == Some(root)
  {
    TerminalByPath(reg, t, root, ps, m.terminal);
    if m.redundant == [] {
      NothingGoes(reg, t, asked, root, ps, m);
    } else {
      RedundantGoes(reg, t, asked, root, ps, m);
      MatchShortens(reg, t, asked, root, ps, m);
    }
  }

  lemma NothingGoes(reg: Registry, t: Text, asked: string -> bool, root: Node, ps: seq<Placed>, m: Match)
    requires Lists(reg, root, ps) && TerminatesIn(reg, t, ps, m.terminal) && m.redundant == []
    requires forall p :: p in m.redundant <==> p in ps && p != m.terminal && Goes(reg, t, asked, m.terminal.action, p.action)
    ensures !Fires(reg, t, asked, root, m.terminal.parent.value, m.terminal.index)
  {
    TerminalByPath(reg, t, root, ps, m.terminal);
    RedundantByPath(reg, t, asked, root, ps, m);
    assert Paths(m.redundant) == {};
  }

  lemma RedundantGoes(reg: Registry, t: Text, asked: string -> bool, root: Node, ps: seq<Placed>, m: Match)
    requires Lists(reg, root, ps) && TerminatesIn(reg, t, ps, m.terminal) && m.redundant != []
    requires forall p :: p in m.redundant <==> p in ps && p != m.terminal && Goes(reg, t, asked, m.terminal.action, p.action)
    ensures Fires(reg, t, asked, root, m.terminal.parent.value, m.terminal.index)
  {
    TerminalByPath(reg, t, root, ps, m.terminal);
    var p := m.redundant[0];
    assert p in m.redundant && p in ps && p != m.terminal && EarlierSibling(p, m.terminal);
    SiblingIsChild(root, p, m.terminal.parent.value);
  }

  lemma SiblingIsChild(root: Node, p: Placed, at: Path)
    requires KnowsParent(root, p) && p.parent == Some(at) && NodeAt(root, p.path) == Some(p.action)
    ensures NodeAt(root, at).Some? && NodeAt(root, at).value.Sequence?
    ensures p.index < |NodeAt(root, at).value.children| && NodeAt(root, at).value.children[p.index] == p.action
  {
    assert p.path == at + [p.index];
    NodeAtExtends(root, at, p.index);
  }

  // Whether or not the search finds a terminal, it finds the tree's.
  lemma OnlyFoundFires(reg: Registry, t: Text, asked: string -> bool, root: Node, at: Path, j: nat)
    requires Fires(reg, t, asked, root, at, j)
    ensures
      var found := FindTerminal(reg, t, asked, Physicals(reg, root, [], None, 0));
      found.Some? && found.value.terminal.parent == Some(at) && found.value.terminal.index == j
  {
    var ps := Physicals(reg, root, [], None, 0);
    PhysicalsList(reg, root);
    FoundMeans(reg, t, asked, root, ps);
    var term := TerminalInList(reg, t, root, ps, at, j);
    var found := FindTerminal(reg, t, asked, ps);
    assert found.Some?;
    OneTerminal(reg, t, ps, term, found.value.terminal);
  }

  lemma FiringShortens(reg: Registry, t: Text, asked: string -> bool, root: Node, at: Path, j: nat)
    requires Fires(reg, t, asked, root, at, j)
    ensures
      var s := NodeAt(root, at).value;
      && WithoutPrefix(reg, t, asked, root) == Some(ReplaceAt(root, at, Shortened(reg, t, asked, s, s.children[j])))
      && WithoutPrefix(reg, t, asked, root) != Some(root)
  {
    var ps := Physicals(reg, root, [], None, 0);
    PhysicalsList(reg, root);
    FoundMeans(reg, t, asked, root, ps);
    OnlyFoundFires(reg, t, asked, root, at, j);
    MatchChanges(reg, t, asked, root, ps, FindTerminal(reg, t, asked, ps).value);
    ShortenedDiffers(reg, t, asked, root, at, j);
  }

  lemma ChangeMeansFiring(reg: Registry, t: Text, asked: string -> bool, root: Node)
    requires WithoutPrefix(reg, t, asked, root) != Some(root)
    ensures exists at: Path, j: nat :: Fires(reg, t, asked, root, at, j)
  {
    var ps := Physicals(reg, root, [], None, 0);
    PhysicalsList(reg, root);
    FoundMeans(reg, t, asked, root, ps);
    MatchChanges(reg, t, asked, root, ps, FindTerminal(reg, t, asked, ps).value);
  }

  // The stage changes the plan exactly when the rule fires somewhere, and then the
  // Sequence of the terminal keeps just the children that do not go.
  lemma PrefixGoesIff(reg: Registry, t: Text, asked: string -> bool, root: Node)
    ensures WithoutPrefix(reg, t, asked, root) != Some(root) <==> exists at: Path, j: nat :: Fires(reg, t, asked, root, at, j)
    ensures forall at: Path, j: nat :: Fires(reg, t, asked, root, at, j) ==>
      var s := NodeAt(root, at).value;
      WithoutPrefix(reg, t, asked, root)
      == Some(ReplaceAt(root, at, Sequence(s.nodeId, Filter(Stays(reg, t, asked, s.children[j]), s.children))))
  {
    if WithoutPrefix(reg, t, asked, root) != Some(root) {
      ChangeMeansFiring(reg, t, asked, root);
    }
    forall at: Path, j: nat | Fires(reg, t, asked, root, at, j)
      ensures WithoutPrefix(reg, t, asked, root) != Some(root)
      ensures WithoutPrefix(reg, t, asked, root)
           == Some(ReplaceAt(root, at, Shortened(reg, t, asked, NodeAt(root, at).value, NodeAt(root, at).value.children[j])))
    {
      FiringShortens(reg, t, asked, root, at, j);
    }
  }
}
