// Missing producers: a trusted person constraint that names an alias gets an
// Action that binds it, appended behind an untouched plan.
module Producers {
  import opened Common
  import opened SkillRegistry
  import opened BehaviourTree
  import opened Validator
  import opened TreeRewrites
  import opened PlanningContext

  const REMEMBER_PERSON := "remember_person"

  // The normalised alias that an Action binds, if it binds one.
  function BoundBy(reg: Registry, t: Text, leaf: Node): Option<string> {
    if leaf.Action? && IsSelfLocating(reg, leaf.skill) && t.norm(AliasOf(leaf.args)) != ""
    then Some(t.norm(AliasOf(leaf.args))) else None
  }

  predicate Bound(reg: Registry, t: Text, leaves: seq<Node>, alias: string) {
    exists leaf :: leaf in leaves && BoundBy(reg, t, leaf) == Some(alias)
  }

  // A constraint that calls for a producer of its own.
  predicate Demands(t: Text, c: Constraint, intent: string) {
    Strip(c.bindAlias) != "" && ValidConstraint(t, c, intent) && EntityClass(t, c) == PERSON
  }

  function DemandedAlias(t: Text, c: Constraint): string {
    t.norm(Strip(c.bindAlias))
  }

  function Producer(c: Constraint, id: string): Node {
    Action("", REMEMBER_PERSON,
           map["name" := Strip(c.bindAlias), "target" := PERSON, "reference_constraint_id" := id], None)
  }

  // The ids that get a producer: one for each demanded alias that no leaf binds.
  function Chosen(reg: Registry, t: Text, leaves: seq<Node>, trusted: map<string, Constraint>, ids: seq<string>, intent: string)
    : (chosen: seq<string>)
    requires forall id :: id in ids ==> id in trusted
    ensures forall id :: id in chosen ==> id in ids && Demands(t, trusted[id], intent)
  {
    if ids == [] then []
    else
      var before := Chosen(reg, t, leaves, trusted, ids[..|ids| - 1], intent);
      var id := ids[|ids| - 1];
      var alias := DemandedAlias(t, trusted[id]);
      if Demands(t, trusted[id], intent) && !Bound(reg, t, leaves, alias) && !Handled(t, trusted, before, alias)
      then before + [id]
      else before
  }

  predicate Handled(t: Text, trusted: map<string, Constraint>, chosen: seq<string>, alias: string)
    requires forall id :: id in chosen ==> id in trusted
  {
    exists id :: id in chosen && DemandedAlias(t, trusted[id]) == alias
  }

  function ProducersFor(trusted: map<string, Constraint>, ids: seq<string>): (out: seq<Node>)
    requires forall id :: id in ids ==> id in trusted
    ensures |out| == |ids| && forall i :: 0 <= i < |ids| ==> out[i] == Producer(trusted[ids[i]], ids[i])
  {
    if ids == [] then [] else ProducersFor(trusted, ids[..|ids| - 1]) + [Producer(trusted[ids[|ids| - 1]], ids[|ids| - 1])]
  }

  function Appended(root: Node, producers: seq<Node>): Node {
    if producers == [] then root
    else if root.Sequence? then Sequence(root.nodeId, root.children + producers)
    else Sequence("", [root] + producers)
  }

  function MissingIn(reg: Registry, t: Text, ctx: Context, root: Node, intent: string): seq<Node> {
    var trusted := Trusted(ctx.entries);
    ProducersFor(trusted, Chosen(reg, t, Leaves(root), trusted, TrustedIds(ctx.entries), intent))
  }

  // _append_missing_required_producers.
  function WithProducers(reg: Registry, t: Text, ctx: Context, root: Node, intent: string): Node {
    Appended(root, MissingIn(reg, t, ctx, root, intent))
  }

  // ---- What the append keeps.

  lemma ProducersAreLeaves(producers: seq<Node>)
    requires forall p :: p in producers ==> p.Action?
    ensures AllLeaves(producers) == producers
  {
    if producers != [] {
      ProducersAreLeaves(producers[1..]);
    }
  }

  lemma AppendedShape(root: Node, producers: seq<Node>)
    requires forall p :: p in producers ==> p.Action?
    ensures Leaves(Appended(root, producers)) == Leaves(root) + producers
  {
    ProducersAreLeaves(producers);
    if root.Sequence? {
      AllLeavesConcat(root.children, producers);
    } else {
      AllLeavesConcat([root], producers);
      assert AllLeaves([root]) == Leaves(root) + AllLeaves([root][1..]);
    }
  }

  lemma MissingAreProducers(reg: Registry, t: Text, ctx: Context, root: Node, intent: string)
    ensures forall p :: p in MissingIn(reg, t, ctx, root, intent) ==> p.Action? && p.skill == REMEMBER_PERSON && p.limitSec == None
  {
  }

  // The old tree is there unchanged: its leaves come first, in order, followed
  // by the producers; a Sequence keeps its children as its first ones, any other
  // root is the first child of a new Sequence.
  lemma OldPlanIsPrefix(reg: Registry, t: Text, ctx: Context, root: Node, intent: string)
    ensures
      var producers := MissingIn(reg, t, ctx, root, intent);
      var out := WithProducers(reg, t, ctx, root, intent);
      && Leaves(out) == Leaves(root) + producers
      && (producers == [] ==> out == root)
      && (producers != [] ==>
            out.Sequence? && if root.Sequence? then root.children <= out.children && out.nodeId == root.nodeId
                             else out.children[0] == root)
  {
    var producers := MissingIn(reg, t, ctx, root, intent);
    MissingAreProducers(reg, t, ctx, root, intent);
    AppendedShape(root, producers);
  }

  lemma ProducerBinds(reg: Registry, t: Text, c: Constraint, id: string)
    requires IsSelfLocating(reg, REMEMBER_PERSON) && KeepsNames(t) && Strip(c.bindAlias) != ""
    ensures BoundBy(reg, t, Producer(c, id)) == Some(DemandedAlias(t, c))
  {
    StripTwice(c.bindAlias);
  }

  // A demanded alias is bound by a leaf, or chosen.
  lemma {:induction false} DemandsAreHandled(
      reg: Registry, t: Text, leaves: seq<Node>, trusted: map<string, Constraint>, ids: seq<string>, intent: string)
    requires forall id :: id in ids ==> id in trusted
    ensures forall id :: id in ids && Demands(t, trusted[id], intent) ==>
      || Bound(reg, t, leaves, DemandedAlias(t, trusted[id]))
      || Handled(t, trusted, Chosen(reg, t, leaves, trusted, ids, intent), DemandedAlias(t, trusted[id]))
  {
    if ids != [] {
      var n := |ids| - 1;
      DemandsAreHandled(reg, t, leaves, trusted, ids[..n], intent);
      var before := Chosen(reg, t, leaves, trusted, ids[..n], intent);
      var chosen := Chosen(reg, t, leaves, trusted, ids, intent);
      forall id | id in ids && Demands(t, trusted[id], intent) && !Bound(reg, t, leaves, DemandedAlias(t, trusted[id]))
        ensures Handled(t, trusted, chosen, DemandedAlias(t, trusted[id]))
      {
        if id == ids[n] && !Handled(t, trusted, before, DemandedAlias(t, trusted[id])) {
          assert id in chosen;
        } else {
          assert id != ids[n] ==> id in ids[..n];
          var other :| other in before && DemandedAlias(t, trusted[other]) == DemandedAlias(t, trusted[id]);
          assert other in chosen;
        }
      }
    }
  }

  // Every trusted, valid person constraint that names an alias has a producer of
  // that alias in the plan afterwards.
  lemma EveryDemandIsMet(reg: Registry, t: Text, ctx: Context, root: Node, intent: string, id: string)
    requires IsSelfLocating(reg, REMEMBER_PERSON) && KeepsNames(t)
    requires id in Trusted(ctx.entries) && Demands(t, Trusted(ctx.entries)[id], intent)
    ensures Bound(reg, t, Leaves(WithProducers(reg, t, ctx, root, intent)), DemandedAlias(t, Trusted(ctx.entries)[id]))
  {
    var trusted, ids, leaves := Trusted(ctx.entries), TrustedIds(ctx.entries), Leaves(root);
    DemandsAreHandled(reg, t, leaves, trusted, ids, intent);
    OldPlanIsPrefix(reg, t, ctx, root, intent);
    HandledMeansBound(reg, t, leaves, trusted, Chosen(reg, t, leaves, trusted, ids, intent), DemandedAlias(t, trusted[id]));
  }

  // A demanded alias with a producer is bound behind the old leaves.
  lemma HandledMeansBound(
      reg: Registry, t: Text, leaves: seq<Node>, trusted: map<string, Constraint>, chosen: seq<string>, alias: string)
    requires IsSelfLocating(reg, REMEMBER_PERSON) && KeepsNames(t)
    requires forall id :: id in chosen ==> id in trusted && Strip(trusted[id].bindAlias) != ""
    requires Bound(reg, t, leaves, alias) || Handled(t, trusted, chosen, alias)
    ensures Bound(reg, t, leaves + ProducersFor(trusted, chosen), alias)
  {
    var after := leaves + ProducersFor(trusted, chosen);
    if Bound(reg, t, leaves, alias) {
      var leaf :| leaf in leaves && BoundBy(reg, t, leaf) == Some(alias);
      assert leaf in after;
    } else {
      var id :| id in chosen && DemandedAlias(t, trusted[id]) == alias;
      var i :| 0 <= i < |chosen| && chosen[i] == id;
      ProducerBinds(reg, t, trusted[id], id);
      assert after[|leaves| + i] == Producer(trusted[id], id);
    }
  }

  lemma {:induction false} NothingChosen(
      reg: Registry, t: Text, leaves: seq<Node>, trusted: map<string, Constraint>, ids: seq<string>, intent: string)
    requires forall id :: id in ids ==> id in trusted
    requires forall id :: id in ids && Demands(t, trusted[id], intent) ==> Bound(reg, t, leaves, DemandedAlias(t, trusted[id]))
    ensures Chosen(reg, t, leaves, trusted, ids, intent) == []
  {
    if ids != [] {
      NothingChosen(reg, t, leaves, trusted, ids[..|ids| - 1], intent);
    }
  }

  // A second append adds nothing.
  lemma AppendIsIdempotent(reg: Registry, t: Text, ctx: Context, root: Node, intent: string)
    requires IsSelfLocating(reg, REMEMBER_PERSON) && KeepsNames(t)
    ensures
      var once := WithProducers(reg, t, ctx, root, intent);
      WithProducers(reg, t, ctx, once, intent) == once
  {
    var once := WithProducers(reg, t, ctx, root, intent);
    forall id | id in TrustedIds(ctx.entries) && Demands(t, Trusted(ctx.entries)[id], intent)
      ensures Bound(reg, t, Leaves(once), DemandedAlias(t, Trusted(ctx.entries)[id]))
    {
      EveryDemandIsMet(reg, t, ctx, root, intent, id);
    }
    NothingChosen(reg, t, Leaves(once), Trusted(ctx.entries), TrustedIds(ctx.entries), intent);
  }

  // A validated plan stays validated.
  lemma AppendKeepsValid(reg: Registry, known: set<string>, t: Text, ctx: Context, root: Node, intent: string)
    requires Validated(reg, known, root) && REMEMBER_PERSON in reg
    ensures Validated(reg, known, WithProducers(reg, t, ctx, root, intent))
  {
    MissingAreProducers(reg, t, ctx, root, intent);
    AppendedValid(reg, known, root, MissingIn(reg, t, ctx, root, intent));
  }

  lemma AppendedValid(reg: Registry, known: set<string>, root: Node, producers: seq<Node>)
    requires Validated(reg, known, root) && REMEMBER_PERSON in reg
    requires forall p :: p in producers ==> p.Action? && p.skill == REMEMBER_PERSON && p.limitSec == None
    ensures Validated(reg, known, Appended(root, producers))
  {
    assert Strip(REMEMBER_PERSON) == REMEMBER_PERSON;
    if producers != [] {
      var first := if root.Sequence? then root.children else [root];
      var all := first + producers;
      assert root.Sequence? ==> AllValidated(reg, known, root.children);
      forall i | 0 <= i < |all|
        ensures Validated(reg, known, all[i])
      {
        if i >= |first| {
          assert all[i] == producers[i - |first|];
        }
      }
      assert AllValidated(reg, known, all);
    }
  }
}
