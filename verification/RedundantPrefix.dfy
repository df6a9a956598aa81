// The redundant locate prefix: motion that the plan's one self-locating
// terminal repeats internally is taken out of the Sequence in front of it.
module RedundantPrefix {
  import opened Common
  import opened SkillRegistry
  import opened BehaviourTree
  import opened Validator
  import opened TreeRewrites
  import opened PlanningContext

  const LOOK_AT := "look_at"

  // An Action of a physical skill at its path; parent is the path of the Sequence
  // it is a direct child of, if it is one.
  datatype Placed = Placed(path: Path, action: Node, parent: Option<Path>, index: nat)

  // _physical_actions_with_sequence_position.
  function Physicals(reg: Registry, node: Node, path: Path, parent: Option<Path>, index: nat): seq<Placed>
    decreases node, 1, 0
  {
    match node
    case Action(_, skill, _, _) => if IsPhysicalSkill(reg, skill) then [Placed(path, node, parent, index)] else []
    case Sequence(_, children) => PhysicalsFrom(reg, children, path, true, 0)
    case Fallback(_, children) => PhysicalsFrom(reg, children, path, false, 0)
    case Parallel(_, children, _) => PhysicalsFrom(reg, children, path, false, 0)
    case Retry(_, _, child) => Physicals(reg, child, path + [0], None, 0)
    case Timeout(_, _, child) => Physicals(reg, child, path + [0], None, 0)
    case _ => []
  }

  function PhysicalsFrom(reg: Registry, children: seq<Node>, path: Path, inSequence: bool, i: nat): seq<Placed>
    requires i <= |children|
    decreases children, 0, |children| - i
  {
    if i == |children| then []
    else Physicals(reg, children[i], path + [i], if inSequence then Some(path) else None, if inSequence then i else 0)
         + PhysicalsFrom(reg, children, path, inSequence, i + 1)
  }

  function Target(t: Text, action: Node): string
    requires action.Action?
  {
    t.norm(Get(action.args, "target"))
  }

  function Locating(reg: Registry): Placed -> bool {
    (p: Placed) => p.action.Action? && IsSelfLocating(reg, p.action.skill)
  }

  function OtherThan(term: Placed): Placed -> bool {
    (p: Placed) => p.path != term.path
  }

  function Terminals(reg: Registry, ps: seq<Placed>): seq<Placed> {
    Filter(Locating(reg), ps)
  }

  predicate EarlierSibling(p: Placed, term: Placed) {
    term.parent.Some? && p.parent == term.parent && p.index < term.index
  }

  predicate IsLook(p: Placed) {
    p.action.Action? && p.action.skill == LOOK_AT
  }

  predicate IsNoLook(p: Placed) {
    !IsLook(p)
  }

  predicate RepeatsTerminal(reg: Registry, t: Text, p: Placed, term: Placed) {
    && p.action.Action? && term.action.Action?
    && IsRedundantLocate(reg, p.action.skill)
    && Target(t, term.action) != "" && Target(t, p.action) == Target(t, term.action)
  }

  // A look the user asked for in so many words; `asked` is the judgement of the
  // intent text by direction.
  predicate AskedFor(asked: string -> bool, p: Placed) {
    p.action.Action? && asked(Get(p.action.args, "direction"))
  }

  function Unasked(asked: string -> bool): Placed -> bool {
    (p: Placed) => !AskedFor(asked, p)
  }

  datatype Match = Match(terminal: Placed, redundant: seq<Placed>)

  // _terminal_self_locating_action.
  function FindTerminal(reg: Registry, t: Text, asked: string -> bool, ps: seq<Placed>): Option<Match> {
    var terminals := Terminals(reg, ps);
    if |terminals| != 1 || terminals[0].parent == None then None
    else
      var term := terminals[0];
      var others := Filter(OtherThan(term), ps);
      var looks := Filter(IsLook, others);
      var locates := Filter(IsNoLook, others);
      if exists p :: p in others && !EarlierSibling(p, term) then None
      else if exists p :: p in locates && !RepeatsTerminal(reg, t, p, term) then None
      else if |looks| > 1 then None
      else if looks != [] && term.action.Action? && Get(term.action.args, "entity_id") != "" then None
      else Some(Match(term, locates + Filter(Unasked(asked), looks)))
  }

  function Paths(ps: seq<Placed>): set<Path> {
    set p | p in ps :: p.path
  }

  // _without_redundant_locate_actions.
  function Without(node: Node, path: Path, drop: set<Path>): Option<Node>
    decreases node, 1, 0
  {
    match node
    case Action(_, _, _, _) => if path in drop then None else Some(node)
    case Sequence(id, children) => Some(Sequence(id, WithoutFrom(children, path, drop, 0)))
    case Fallback(id, children) => Some(Fallback(id, WithoutFrom(children, path, drop, 0)))
    case Parallel(id, children, cancel) => Some(Parallel(id, WithoutFrom(children, path, drop, 0), cancel))
    case Retry(id, n, child) =>
      var rest := Without(child, path + [0], drop);
      if rest == None then None else Some(Retry(id, n, rest.value))
    case Timeout(id, limit, child) =>
      var rest := Without(child, path + [0], drop);
      if rest == None then None else Some(Timeout(id, limit, rest.value))
    case _ => Some(node)
  }

  function WithoutFrom(children: seq<Node>, path: Path, drop: set<Path>, i: nat): seq<Node>
    requires i <= |children|
    decreases children, 0, |children| - i
  {
    if i == |children| then []
    else
      var here := Without(children[i], path + [i], drop);
      (if here == None then [] else [here.value]) + WithoutFrom(children, path, drop, i + 1)
  }

  // _canonicalize_redundant_locate_prefix. A dropped root would leave no plan.
  function WithoutPrefix(reg: Registry, t: Text, asked: string -> bool, root: Node): Option<Node> {
    var found := FindTerminal(reg, t, asked, Physicals(reg, root, [], None, 0));
    if found == None || found.value.redundant == [] then Some(root)
    else Without(root, [], Paths(found.value.redundant))
  }

  // ---- Where placed Actions sit.

  predicate WellPlaced(reg: Registry, root: Node, p: Placed) {
    && NodeAt(root, p.path) == Some(p.action)
    && p.action.Action? && IsPhysicalSkill(reg, p.action.skill)
    && (p.parent.Some? ==>
          && p.path == p.parent.value + [p.index]
          && NodeAt(root, p.parent.value).Some? && NodeAt(root, p.parent.value).value.Sequence?)
  }

  lemma {:induction false} PhysicalsPlaced(reg: Registry, root: Node, node: Node, path: Path, parent: Option<Path>, index: nat)
    requires NodeAt(root, path) == Some(node)
    requires parent.Some? ==>
      && path == parent.value + [index]
      && NodeAt(root, parent.value).Some? && NodeAt(root, parent.value).value.Sequence?
    ensures forall p :: p in Physicals(reg, node, path, parent, index) ==> WellPlaced(reg, root, p)
    decreases node, 1, 0
  {
    match node
    case Sequence(_, children) => PhysicalsFromPlaced(reg, root, node, path, true, 0);
    case Fallback(_, children) => PhysicalsFromPlaced(reg, root, node, path, false, 0);
    case Parallel(_, children, _) => PhysicalsFromPlaced(reg, root, node, path, false, 0);
    case Retry(_, _, child) =>
      NodeAtExtends(root, path, 0);
      PhysicalsPlaced(reg, root, child, path + [0], None, 0);
    case Timeout(_, _, child) =>
      NodeAtExtends(root, path, 0);
      PhysicalsPlaced(reg, root, child, path + [0], None, 0);
    case _ =>
  }

  lemma {:induction false} PhysicalsFromPlaced(reg: Registry, root: Node, node: Node, path: Path, inSequence: bool, i: nat)
    requires NodeAt(root, path) == Some(node)
    requires (node.Sequence? || node.Fallback? || node.Parallel?) && inSequence == node.Sequence?
    requires i <= |node.children|
    ensures forall p :: p in PhysicalsFrom(reg, node.children, path, inSequence, i) ==> WellPlaced(reg, root, p)
    decreases node, 0, |node.children| - i
  {
    if i < |node.children| {
      NodeAtExtends(root, path, i);
      PhysicalsPlaced(reg, root, node.children[i], path + [i],
                      if inSequence then Some(path) else None, if inSequence then i else 0);
      PhysicalsFromPlaced(reg, root, node, path, inSequence, i + 1);
    }
  }

  // What a match means: one terminal that is a child of a Sequence, and redundant
  // Actions that are earlier children of that very Sequence.
  ghost predicate Sound(reg: Registry, t: Text, asked: string -> bool, root: Node, m: Match) {
    var term := m.terminal;
    && WellPlaced(reg, root, term) && term.parent.Some? && IsSelfLocating(reg, term.action.skill)
    && forall p :: p in m.redundant ==>
         && WellPlaced(reg, root, p) && EarlierSibling(p, term)
         && (if IsLook(p) then !AskedFor(asked, p) else RepeatsTerminal(reg, t, p, term))
  }

  // The members of a match among the placed Actions.
  lemma MatchMembers(reg: Registry, t: Text, asked: string -> bool, ps: seq<Placed>)
    requires FindTerminal(reg, t, asked, ps).Some?
    ensures
      var m := FindTerminal(reg, t, asked, ps).value;
      && m.terminal in ps && m.terminal.parent.Some?
      && m.terminal.action.Action? && IsSelfLocating(reg, m.terminal.action.skill)
      && (forall p :: p in ps && p.action.Action? && IsSelfLocating(reg, p.action.skill) ==> p == m.terminal)
      && (forall p :: p in m.redundant ==>
            && p in ps && p.path != m.terminal.path && EarlierSibling(p, m.terminal)
            && (if IsLook(p) then !AskedFor(asked, p) else RepeatsTerminal(reg, t, p, m.terminal)))
      && (forall p :: p in ps && p.path != m.terminal.path && p !in m.redundant ==> IsLook(p) && AskedFor(asked, p))
  {
    var terminals := Terminals(reg, ps);
    FilterMembers(Locating(reg), ps);
    var term := terminals[0];
    assert term in terminals;
    var others := Filter(OtherThan(term), ps);
    FilterMembers(OtherThan(term), ps);
    var looks := Filter(IsLook, others);
    FilterMembers(IsLook, others);
    FilterMembers(IsNoLook, others);
    FilterMembers(Unasked(asked), looks);
  }

  lemma MatchIsSound(reg: Registry, t: Text, asked: string -> bool, root: Node)
    requires FindTerminal(reg, t, asked, Physicals(reg, root, [], None, 0)).Some?
    ensures Sound(reg, t, asked, root, FindTerminal(reg, t, asked, Physicals(reg, root, [], None, 0)).value)
  {
    PhysicalsPlaced(reg, root, root, [], None, 0);
    MatchMembers(reg, t, asked, Physicals(reg, root, [], None, 0));
  }

  // ---- What the removal does to the tree.

  // The children of the Sequence at `path` that are not dropped.
  function Except(children: seq<Node>, path: Path, drop: set<Path>, i: nat): seq<Node>
    requires i <= |children|
    decreases |children| - i
  {
    if i == |children| then []
    else (if path + [i] in drop then [] else [children[i]]) + Except(children, path, drop, i + 1)
  }

  predicate Clear(path: Path, drop: set<Path>) {
    forall d :: d in drop ==> !(path <= d)
  }

  lemma {:induction false} WithoutElsewhere(node: Node, path: Path, drop: set<Path>)
    requires Clear(path, drop)
    ensures Without(node, path, drop) == Some(node)
    decreases node, 1, 0
  {
    match node
    case Sequence(_, children) => WithoutFromElsewhere(children, path, drop, 0);
    case Fallback(_, children) => WithoutFromElsewhere(children, path, drop, 0);
    case Parallel(_, children, _) => WithoutFromElsewhere(children, path, drop, 0);
    case Retry(_, _, child) => WithoutElsewhere(child, path + [0], drop);
    case Timeout(_, _, child) => WithoutElsewhere(child, path + [0], drop);
    case _ =>
  }

  lemma {:induction false} WithoutFromElsewhere(children: seq<Node>, path: Path, drop: set<Path>, i: nat)
    requires i <= |children| && Clear(path, drop)
    ensures WithoutFrom(children, path, drop, i) == children[i..]
    decreases children, 0, |children| - i
  {
    if i < |children| {
      assert Clear(path + [i], drop);
      WithoutElsewhere(children[i], path + [i], drop);
      WithoutFromElsewhere(children, path, drop, i + 1);
    }
  }

  // All of drop are Actions among the children of the Sequence at base + at.
  predicate DropsChildren(children: seq<Node>, path: Path, drop: set<Path>) {
    forall d :: d in drop ==> |d| == |path| + 1 && path <= d && d[|path|] < |children| && children[d[|path|]].Action?
  }

  lemma {:induction false} WithoutFromIsExcept(children: seq<Node>, path: Path, drop: set<Path>, i: nat)
    requires i <= |children| && DropsChildren(children, path, drop)
    ensures WithoutFrom(children, path, drop, i) == Except(children, path, drop, i)
    decreases |children| - i
  {
    if i < |children| {
      if path + [i] in drop {
        assert (path + [i])[|path|] == i;
      } else {
        assert Clear(path + [i], drop) by {
          forall d | d in drop
            ensures !(path + [i] <= d)
          {
            assert d == path + [d[|path|]];
          }
        }
        WithoutElsewhere(children[i], path + [i], drop);
      }
      WithoutFromIsExcept(children, path, drop, i + 1);
    }
  }

  // Only the one Sequence changes; everything around it stays.
  lemma {:induction false} WithoutIsLocal(node: Node, base: Path, at: Path, drop: set<Path>)
    requires NodeAt(node, at).Some? && NodeAt(node, at).value.Sequence?
    requires DropsChildren(NodeAt(node, at).value.children, base + at, drop)
    ensures
      var seq' := NodeAt(node, at).value;
      Without(node, base, drop) == Some(ReplaceAt(node, at, Sequence(seq'.nodeId, Except(seq'.children, base + at, drop, 0))))
    decreases |at|
  {
    if at == [] {
      assert base + at == base;
      WithoutFromIsExcept(node.children, base, drop, 0);
    } else {
      var k := at[0];
      var child := ChildAt(node, k).value;
      assert (base + [k]) + at[1..] == base + at;
      WithoutIsLocal(child, base + [k], at[1..], drop);
      if node.Sequence? || node.Fallback? || node.Parallel? {
        WithoutOneChild(node.children, base, k, at, drop, 0);
      }
    }
  }

  lemma {:induction false} WithoutOneChild(children: seq<Node>, base: Path, k: nat, at: Path, drop: set<Path>, i: nat)
    requires k < |children| && i <= |children| && at != [] && at[0] == k
    requires forall d :: d in drop ==> base + at <= d
    requires Without(children[k], base + [k], drop).Some?
    ensures WithoutFrom(children, base, drop, i) == children[k := Without(children[k], base + [k], drop).value][i..]
    decreases |children| - i
  {
    if i < |children| {
      if i != k {
        assert Clear(base + [i], drop) by {
          forall d | d in drop
            ensures !(base + [i] <= d)
          {
            assert (base + at)[|base|] == k && d[|base|] == k;
          }
        }
        WithoutElsewhere(children[i], base + [i], drop);
      }
      WithoutOneChild(children, base, k, at, drop, i + 1);
    }
  }

  lemma {:induction false} ExceptKeeps(children: seq<Node>, path: Path, drop: set<Path>, i: nat, j: nat)
    requires i <= j < |children| && path + [j] !in drop
    ensures children[j] in Except(children, path, drop, i)
    decreases |children| - i
  {
    if i < j {
      ExceptKeeps(children, path, drop, i + 1, j);
    }
  }

  // What may be dropped from a Sequence whose j-th child is the terminal.
  ghost predicate Droppable(reg: Registry, t: Text, asked: string -> bool, children: seq<Node>, at: Path, j: nat, d: Path) {
    && |d| == |at| + 1 && at <= d && d[|at|] < j < |children|
    && children[j].Action? && children[d[|at|]].Action?
    && var gone := children[d[|at|]];
       if gone.skill == LOOK_AT then !asked(Get(gone.args, "direction"))
       else IsRedundantLocate(reg, gone.skill) && Target(t, gone) == Target(t, children[j]) != ""
  }

  lemma RedundantAreDroppable(reg: Registry, t: Text, asked: string -> bool, root: Node, m: Match, p: Placed)
    requires Sound(reg, t, asked, root, m) && p in m.redundant
    ensures
      var at := m.terminal.parent.value;
      && m.terminal.index < |NodeAt(root, at).value.children|
      && NodeAt(root, at).value.children[m.terminal.index] == m.terminal.action
      && Droppable(reg, t, asked, NodeAt(root, at).value.children, at, m.terminal.index, p.path)
  {
    var at := m.terminal.parent.value;
    NodeAtExtends(root, at, m.terminal.index);
    NodeAtExtends(root, at, p.index);
  }

  // The main result on one application. The rewrite leaves the plan alone, or it
  // takes Actions out of exactly one Sequence: all of them stand before the
  // plan's terminal in that Sequence and repeat its search or look where nobody
  // asked to look; the terminal stays, and nothing else in the tree, no wrapper in
  // particular, changes. The leaf list is the old one without them.
  lemma OnlyEarlierSiblingsGo(reg: Registry, t: Text, asked: string -> bool, root: Node)
      returns (at: Path, j: nat, drop: set<Path>)
    ensures WithoutPrefix(reg, t, asked, root).Some?
    ensures WithoutPrefix(reg, t, asked, root).value != root ==>
      && NodeAt(root, at).Some? && NodeAt(root, at).value.Sequence?
      && var old' := NodeAt(root, at).value;
         && j < |old'.children| && old'.children[j].Action? && IsSelfLocating(reg, old'.children[j].skill)
         && (forall d :: d in drop ==> Droppable(reg, t, asked, old'.children, at, j, d))
         && WithoutPrefix(reg, t, asked, root).value
            == ReplaceAt(root, at, Sequence(old'.nodeId, Except(old'.children, at, drop, 0)))
         && old'.children[j] in Except(old'.children, at, drop, 0)
    ensures Leaves(WithoutPrefix(reg, t, asked, root).value) == Left(Places(root, []), drop)
  {
    at, j, drop := [], 0, {};
    LeavesLeft(root, [], {});
    WithoutElsewhere(root, [], {});
    var found := FindTerminal(reg, t, asked, Physicals(reg, root, [], None, 0));
    if found.Some? && found.value.redundant != [] {
      MatchIsSound(reg, t, asked, root);
      at, j, drop := MatchIsLocal(reg, t, asked, root, found.value);
      LeavesLeft(root, [], drop);
    }
  }

  lemma MatchIsLocal(reg: Registry, t: Text, asked: string -> bool, root: Node, m: Match)
      returns (at: Path, j: nat, drop: set<Path>)
    requires Sound(reg, t, asked, root, m) && m.redundant != []
    ensures drop == Paths(m.redundant) && m.terminal.parent == Some(at) && m.terminal.index == j
    ensures NodeAt(root, at).Some? && NodeAt(root, at).value.Sequence?
    ensures
      var old' := NodeAt(root, at).value;
      && j < |old'.children| && old'.children[j] == m.terminal.action
      && (forall d :: d in drop ==> Droppable(reg, t, asked, old'.children, at, j, d))
      && Without(root, [], drop) == Some(ReplaceAt(root, at, Sequence(old'.nodeId, Except(old'.children, at, drop, 0))))
      && old'.children[j] in Except(old'.children, at, drop, 0)
  {
    at, j, drop := m.terminal.parent.value, m.terminal.index, Paths(m.redundant);
    var children := NodeAt(root, at).value.children;
    RedundantAreDroppable(reg, t, asked, root, m, m.redundant[0]);
    forall d | d in drop
      ensures Droppable(reg, t, asked, children, at, j, d)
    {
      var p :| p in m.redundant && p.path == d;
      RedundantAreDroppable(reg, t, asked, root, m, p);
    }
    assert [] + at == at;
    WithoutIsLocal(root, [], at, drop);
    assert (at + [j])[|at|] == j;
    ExceptKeeps(children, at, drop, 0, j);
  }

  lemma {:induction false} ExceptKeepsValid(reg: Registry, known: set<string>, children: seq<Node>, path: Path, drop: set<Path>, i: nat)
    requires i <= |children| && AllValidated(reg, known, children)
    ensures AllValidated(reg, known, Except(children, path, drop, i))
    ensures AllResources(reg, Except(children, path, drop, i)) <= AllResources(reg, children[i..])
    decreases |children| - i
  {
    if i < |children| {
      ExceptKeepsValid(reg, known, children, path, drop, i + 1);
      var rest := Except(children, path, drop, i + 1);
      assert children[i..] == [children[i]] + children[i + 1..];
      AllOfFirst(reg, known, children[i], children[i + 1..]);
      AllOfFirst(reg, known, children[i], rest);
      assert Except(children, path, drop, i) == if path + [i] in drop then rest else [children[i]] + rest;
    }
  }

  lemma AllOfFirst(reg: Registry, known: set<string>, first: Node, rest: seq<Node>)
    ensures AllResources(reg, [first] + rest) == Resources(reg, first) + AllResources(reg, rest)
    ensures Validated(reg, known, first) && AllValidated(reg, known, rest) ==> AllValidated(reg, known, [first] + rest)
  {
    assert ([first] + rest)[1..] == rest;
  }

  // A validated plan stays validated.
  lemma PrefixKeepsValid(reg: Registry, known: set<string>, t: Text, asked: string -> bool, root: Node)
    requires Validated(reg, known, root)
    ensures WithoutPrefix(reg, t, asked, root).Some?
    ensures Validated(reg, known, WithoutPrefix(reg, t, asked, root).value)
  {
    var at, j, drop := OnlyEarlierSiblingsGo(reg, t, asked, root);
    if WithoutPrefix(reg, t, asked, root).value != root {
      var old' := NodeAt(root, at).value;
      ValidatedAt(reg, known, root, at);
      assert AllValidated(reg, known, old'.children);
      ExceptKeepsValid(reg, known, old'.children, at, drop, 0);
      assert old'.children[0..] == old'.children;
      var kept := Except(old'.children, at, drop, 0);
      assert Validated(reg, known, Sequence(old'.nodeId, kept));
      ReplaceKeepsValid(reg, known, root, at, Sequence(old'.nodeId, kept));
    }
  }

  // ---- Which leaves are left, and once is enough.

  // The leaves with their paths, in tree order.
  function Places(node: Node, path: Path): seq<(Path, Node)>
    decreases node, 1, 0
  {
    match node
    case Sequence(_, children) => PlacesFrom(children, path, 0)
    case Fallback(_, children) => PlacesFrom(children, path, 0)
    case Parallel(_, children, _) => PlacesFrom(children, path, 0)
    case Retry(_, _, child) => Places(child, path + [0])
    case Timeout(_, _, child) => Places(child, path + [0])
    case _ => [(path, node)]
  }

  function PlacesFrom(children: seq<Node>, path: Path, i: nat): seq<(Path, Node)>
    requires i <= |children|
    decreases children, 0, |children| - i
  {
    if i == |children| then [] else Places(children[i], path + [i]) + PlacesFrom(children, path, i + 1)
  }

  // The leaves at places that are not dropped; only Actions can be.
  function Left(places: seq<(Path, Node)>, drop: set<Path>): seq<Node> {
    if places == [] then []
    else
      (if places[0].1.Action? && places[0].0 in drop then [] else [places[0].1]) + Left(places[1..], drop)
  }

  lemma {:induction false} LeftConcat(xs: seq<(Path, Node)>, ys: seq<(Path, Node)>, drop: set<Path>)
    ensures Left(xs + ys, drop) == Left(xs, drop) + Left(ys, drop)
  {
    if xs == [] {
      assert xs + ys == ys;
    } else {
      var head, zs := if xs[0].1.Action? && xs[0].0 in drop then [] else [xs[0].1], xs + ys;
      assert zs[0] == xs[0] && zs[1..] == xs[1..] + ys;
      LeftConcat(xs[1..], ys, drop);
      var front, back := Left(xs[1..], drop), Left(ys, drop);
      assert Left(zs, drop) == head + (front + back) && Left(xs, drop) == head + front;
      assert head + (front + back) == (head + front) + back;
    }
  }

  function LeavesOf(node: Option<Node>): seq<Node> {
    if node == None then [] else Leaves(node.value)
  }

  lemma LeafLeft(leaf: Node, path: Path, drop: set<Path>)
    requires leaf.IsLeaf()
    ensures LeavesOf(Without(leaf, path, drop)) == Left(Places(leaf, path), drop)
  {
    assert Places(leaf, path)[1..] == [];
  }

  // The leaf list is the original one with exactly the dropped ones deleted.
  lemma {:induction false} LeavesLeft(node: Node, path: Path, drop: set<Path>)
    ensures LeavesOf(Without(node, path, drop)) == Left(Places(node, path), drop)
    decreases node, 1, 0
  {
    if node.IsLeaf() {
      LeafLeft(node, path, drop);
    } else if node.Retry? || node.Timeout? {
      LeavesLeft(node.child, path + [0], drop);
      WrapperLeft(node, path, drop);
    } else {
      LeavesLeftFrom(node.children, path, drop, 0);
      ChildrenLeft(node, path, drop);
    }
  }

  lemma WrapperLeft(node: Node, path: Path, drop: set<Path>)
    requires node.Retry? || node.Timeout?
    requires LeavesOf(Without(node.child, path + [0], drop)) == Left(Places(node.child, path + [0]), drop)
    ensures LeavesOf(Without(node, path, drop)) == Left(Places(node, path), drop)
  {
    assert Places(node, path) == Places(node.child, path + [0]);
    var rest := Without(node.child, path + [0], drop);
    if rest.Some? {
      var out := Without(node, path, drop).value;
      assert Leaves(out) == Leaves(rest.value);
    }
  }

  lemma ChildrenLeft(node: Node, path: Path, drop: set<Path>)
    requires node.Sequence? || node.Fallback? || node.Parallel?
    requires AllLeaves(WithoutFrom(node.children, path, drop, 0)) == Left(PlacesFrom(node.children, path, 0), drop)
    ensures LeavesOf(Without(node, path, drop)) == Left(Places(node, path), drop)
  {
    assert Places(node, path) == PlacesFrom(node.children, path, 0);
    var out := Without(node, path, drop).value;
    assert Leaves(out) == AllLeaves(WithoutFrom(node.children, path, drop, 0));
  }

  lemma {:induction false} LeavesLeftFrom(children: seq<Node>, path: Path, drop: set<Path>, i: nat)
    requires i <= |children|
    ensures AllLeaves(WithoutFrom(children, path, drop, i)) == Left(PlacesFrom(children, path, i), drop)
    decreases children, 0, |children| - i
  {
    if i < |children| {
      LeavesLeft(children[i], path + [i], drop);
      LeavesLeftFrom(children, path, drop, i + 1);
      LeftConcat(Places(children[i], path + [i]), PlacesFrom(children, path, i + 1), drop);
      var here := Without(children[i], path + [i], drop);
      var rest := WithoutFrom(children, path, drop, i + 1);
      if here.Some? {
        assert WithoutFrom(children, path, drop, i) == [here.value] + rest && ([here.value] + rest)[1..] == rest;
      } else {
        assert WithoutFrom(children, path, drop, i) == rest;
      }
    }
  }

  // The placed Actions that are not dropped, as nodes.
  function Remaining(ps: seq<Placed>, drop: set<Path>): seq<Node> {
    if ps == [] then []
    else (if ps[0].path in drop then [] else [ps[0].action]) + Remaining(ps[1..], drop)
  }

  lemma {:induction false} RemainingConcat(xs: seq<Placed>, ys: seq<Placed>, drop: set<Path>)
    ensures Remaining(xs + ys, drop) == Remaining(xs, drop) + Remaining(ys, drop)
  {
    if xs == [] {
      assert xs + ys == ys;
    } else {
      var head, zs := if xs[0].path in drop then [] else [xs[0].action], xs + ys;
      assert zs[0] == xs[0] && zs[1..] == xs[1..] + ys;
      RemainingConcat(xs[1..], ys, drop);
      var front, back := Remaining(xs[1..], drop), Remaining(ys, drop);
      assert Remaining(zs, drop) == head + (front + back) && Remaining(xs, drop) == head + front;
      assert head + (front + back) == (head + front) + back;
    }
  }

  function PhysicalsOf(reg: Registry, node: Option<Node>, path: Path, parent: Option<Path>, index: nat): seq<Placed> {
    if node == None then [] else Physicals(reg, node.value, path, parent, index)
  }

  lemma ActionLeft(
      reg: Registry, leaf: Node, path: Path, parent: Option<Path>, index: nat, drop: set<Path>,
      path': Path, parent': Option<Path>, index': nat)
    requires leaf.IsLeaf()
    ensures Remaining(PhysicalsOf(reg, Without(leaf, path, drop), path', parent', index'), {})
         == Remaining(Physicals(reg, leaf, path, parent, index), drop)
  {
    var here, there := Physicals(reg, leaf, path, parent, index), Physicals(reg, leaf, path', parent', index');
    if here != [] {
      assert here[1..] == [] && there[1..] == [];
    }
  }

  // The physical Actions of the rewritten tree, wherever they are placed now.
  lemma {:induction false} PhysicalsLeft(
      reg: Registry, node: Node, path: Path, parent: Option<Path>, index: nat, drop: set<Path>,
      path': Path, parent': Option<Path>, index': nat)
    ensures Remaining(PhysicalsOf(reg, Without(node, path, drop), path', parent', index'), {})
         == Remaining(Physicals(reg, node, path, parent, index), drop)
    decreases node, 1, 0
  {
    if node.IsLeaf() {
      ActionLeft(reg, node, path, parent, index, drop, path', parent', index');
    } else if node.Retry? || node.Timeout? {
      PhysicalsLeft(reg, node.child, path + [0], None, 0, drop, path' + [0], None, 0);
    } else {
      var all := WithoutFrom(node.children, path, drop, 0);
      assert all[0..] == all;
      PhysicalsFromLeft(reg, node.children, path, node.Sequence?, drop, all, 0, path', 0);
    }
  }

  // all, from i' on, is what is left of the children from i on.
  lemma {:induction false} PhysicalsFromLeft(
      reg: Registry, children: seq<Node>, path: Path, inSequence: bool, drop: set<Path>, all: seq<Node>, i: nat,
      path': Path, i': nat)
    requires i <= |children| && i' <= |all| && all[i'..] == WithoutFrom(children, path, drop, i)
    ensures Remaining(PhysicalsFrom(reg, all, path', inSequence, i'), {})
         == Remaining(PhysicalsFrom(reg, children, path, inSequence, i), drop)
    decreases children, 0, |children| - i
  {
    if i < |children| {
      var here := Without(children[i], path + [i], drop);
      var parent, index := if inSequence then Some(path) else None, if inSequence then i else 0;
      var parent', index' := if inSequence then Some(path') else None, if inSequence then i' else 0;
      var first := Physicals(reg, children[i], path + [i], parent, index);
      var rest := PhysicalsFrom(reg, children, path, inSequence, i + 1);
      PhysicalsLeft(reg, children[i], path + [i], parent, index, drop, path' + [i'], parent', index');
      RemainingConcat(first, rest, drop);
      if here == None {
        assert all[i'..] == WithoutFrom(children, path, drop, i + 1);
        PhysicalsFromLeft(reg, children, path, inSequence, drop, all, i + 1, path', i');
      } else {
        assert all[i'] == all[i'..][0] == here.value;
        assert all[i' + 1..] == all[i'..][1..] == WithoutFrom(children, path, drop, i + 1);
        PhysicalsFromLeft(reg, children, path, inSequence, drop, all, i + 1, path', i' + 1);
        RemainingConcat(Physicals(reg, all[i'], path' + [i'], parent', index'),
                        PhysicalsFrom(reg, all, path', inSequence, i' + 1), {});
      }
    }
  }

  lemma {:induction false} RemainingMembers(ps: seq<Placed>, drop: set<Path>, n: Node)
    ensures n in Remaining(ps, drop) <==> exists p :: p in ps && p.path !in drop && p.action == n
  {
    if ps != [] {
      RemainingMembers(ps[1..], drop, n);
      if exists p :: p in ps && p.path !in drop && p.action == n {
        var p :| p in ps && p.path !in drop && p.action == n;
        assert p == ps[0] || p in ps[1..];
      }
    }
  }

  // Physical Actions that the rewrite left are self-locating, or looks that were
  // asked for.
  predicate Needed(reg: Registry, asked: string -> bool, n: Node) {
    && n.Action?
    && (IsSelfLocating(reg, n.skill) || (n.skill == LOOK_AT && asked(Get(n.args, "direction"))))
  }

  lemma LeftAreNeeded(reg: Registry, t: Text, asked: string -> bool, ps: seq<Placed>, p: Placed)
    requires FindTerminal(reg, t, asked, ps).Some?
    requires p in ps && p.path !in Paths(FindTerminal(reg, t, asked, ps).value.redundant)
    requires Distinct(ps)
    ensures Needed(reg, asked, p.action)
  {
    MatchMembers(reg, t, asked, ps);
  }

  lemma OnlyNeededIsSettled(reg: Registry, t: Text, asked: string -> bool, ps: seq<Placed>)
    requires forall p :: p in ps ==> Needed(reg, asked, p.action)
    ensures FindTerminal(reg, t, asked, ps).Some? ==> FindTerminal(reg, t, asked, ps).value.redundant == []
  {
    var found := FindTerminal(reg, t, asked, ps);
    if found.Some? && found.value.redundant != [] {
      var p := found.value.redundant[0];
      assert p in found.value.redundant;
      MatchMembers(reg, t, asked, ps);
    }
  }

  predicate Distinct(ps: seq<Placed>) {
    forall p, q :: p in ps && q in ps && p.path == q.path ==> p == q
  }

  lemma {:induction false} PathsDiffer(reg: Registry, node: Node, path: Path, parent: Option<Path>, index: nat)
    ensures forall p :: p in Physicals(reg, node, path, parent, index) ==> path <= p.path && p.action.Action?
    ensures Distinct(Physicals(reg, node, path, parent, index))
    decreases node, 1, 0
  {
    match node
    case Sequence(_, children) => PathsFromDiffer(reg, children, path, true, 0);
    case Fallback(_, children) => PathsFromDiffer(reg, children, path, false, 0);
    case Parallel(_, children, _) => PathsFromDiffer(reg, children, path, false, 0);
    case Retry(_, _, child) => PathsDiffer(reg, child, path + [0], None, 0);
    case Timeout(_, _, child) => PathsDiffer(reg, child, path + [0], None, 0);
    case _ =>
  }

  lemma {:induction false} PathsFromDiffer(reg: Registry, children: seq<Node>, path: Path, inSequence: bool, i: nat)
    requires i <= |children|
    ensures forall p :: p in PhysicalsFrom(reg, children, path, inSequence, i) ==>
      path <= p.path && |p.path| > |path| && p.path[|path|] >= i && p.action.Action?
    ensures Distinct(PhysicalsFrom(reg, children, path, inSequence, i))
    decreases children, 0, |children| - i
  {
    if i < |children| {
      var parent, index := if inSequence then Some(path) else None, if inSequence then i else 0;
      PathsDiffer(reg, children[i], path + [i], parent, index);
      PathsFromDiffer(reg, children, path, inSequence, i + 1);
      forall p | p in Physicals(reg, children[i], path + [i], parent, index)
        ensures path <= p.path && |p.path| > |path| && p.path[|path|] == i
      {
        assert (path + [i])[|path|] == i;
      }
    }
  }

  // A second application finds nothing redundant.
  lemma PrefixRemovalIsIdempotent(reg: Registry, t: Text, asked: string -> bool, root: Node)
    ensures WithoutPrefix(reg, t, asked, root).Some?
    ensures
      var once := WithoutPrefix(reg, t, asked, root).value;
      WithoutPrefix(reg, t, asked, once) == Some(once)
  {
    var at, j, gone := OnlyEarlierSiblingsGo(reg, t, asked, root);
    var ps := Physicals(reg, root, [], None, 0);
    var found := FindTerminal(reg, t, asked, ps);
    if found.Some? && found.value.redundant != [] {
      var drop := Paths(found.value.redundant);
      var once := WithoutPrefix(reg, t, asked, root).value;
      var qs := Physicals(reg, once, [], None, 0);
      PhysicalsLeft(reg, root, [], None, 0, drop, [], None, 0);
      assert Remaining(qs, {}) == Remaining(ps, drop);
      PathsDiffer(reg, root, [], None, 0);
      forall q | q in qs
        ensures Needed(reg, asked, q.action)
      {
        RemainingMembers(qs, {}, q.action);
        RemainingMembers(ps, drop, q.action);
        var p :| p in ps && p.path !in drop && p.action == q.action;
        LeftAreNeeded(reg, t, asked, ps, p);
      }
      OnlyNeededIsSettled(reg, t, asked, qs);
    }
  }
}
