// Which producers are appended: one for each person that the extracted constraints
// name and the plan does not bind, and no other.
module ProducerRule {
  import opened Common
  import opened SkillRegistry
  import opened SkillTerms
  import opened BehaviourTree
  import opened PlanningContext
  import opened Provenance
  import opened Producers
  import opened Attachments

  // An Action that finds its own target binds the alias, or else the name, it gives it.
  predicate Binds(reg: Registry, t: Text, leaf: Node, alias: string) {
    && Locates(reg, leaf) && alias != ""
    && t.norm(if Get(leaf.args, "alias") != "" then Get(leaf.args, "alias") else Get(leaf.args, "name")) == alias
  }

  lemma BindsMeans(reg: Registry, t: Text, leaf: Node, alias: string)
    ensures BoundBy(reg, t, leaf) == Some(alias) <==> Binds(reg, t, leaf, alias)
  {
  }

  // The constraint that counts for this id names a person and holds.
  predicate NamesPerson(t: Text, ctx: Context, intent: string, id: string, c: Constraint) {
    Trusts(ctx, id, c) && Holds(t, c, intent) && Strip(c.bindAlias) != "" && t.lower(Strip(c.entityClass)) == "person"
  }

  // The Action that binds that person.
  predicate Remembers(p: Node, id: string, c: Constraint) {
    p == Action("", "remember_person",
                map["name" := Strip(c.bindAlias), "target" := "person", "reference_constraint_id" := id], None)
  }

  ghost predicate CalledFor(reg: Registry, t: Text, ctx: Context, intent: string, root: Node, p: Node) {
    exists id, c :: NamesPerson(t, ctx, intent, id, c) && Remembers(p, id, c)
      && forall leaf :: leaf in Leaves(root) ==> !Binds(reg, t, leaf, t.norm(Strip(c.bindAlias)))
  }

  lemma DemandMeans(t: Text, ctx: Context, intent: string, id: string)
    requires id in Trusted(ctx.entries) && Demands(t, Trusted(ctx.entries)[id], intent)
    ensures NamesPerson(t, ctx, intent, id, Trusted(ctx.entries)[id])
  {
    TrustedMeans(ctx.entries, ctx.grounded, id);
    assert Context(ctx.entries, ctx.grounded) == ctx;
  }

  predicate AskApart(t: Text, trusted: map<string, Constraint>, chosen: seq<string>)
    requires forall id :: id in chosen ==> id in trusted
  {
    forall i, j :: 0 <= i < j < |chosen| ==> DemandedAlias(t, trusted[chosen[i]]) != DemandedAlias(t, trusted[chosen[j]])
  }

  lemma {:induction false} ChosenAreUnbound(
      reg: Registry, t: Text, leaves: seq<Node>, trusted: map<string, Constraint>, ids: seq<string>, intent: string)
    requires forall id :: id in ids ==> id in trusted
    ensures
      var chosen := Chosen(reg, t, leaves, trusted, ids, intent);
      && (forall id :: id in chosen ==> !Bound(reg, t, leaves, DemandedAlias(t, trusted[id])))
      && AskApart(t, trusted, chosen)
  {
    if ids != [] {
      var n := |ids| - 1;
      ChosenAreUnbound(reg, t, leaves, trusted, ids[..n], intent);
      var before := Chosen(reg, t, leaves, trusted, ids[..n], intent);
      assert forall i :: 0 <= i < |before| ==> before[i] in before;
    }
  }

  ghost predicate AllCalledFor(reg: Registry, t: Text, ctx: Context, intent: string, root: Node, producers: seq<Node>) {
    forall p :: p in producers ==> CalledFor(reg, t, ctx, intent, root, p)
  }

  // No two of them bind the same alias.
  predicate BindApart(t: Text, producers: seq<Node>) {
    forall i, j :: 0 <= i < j < |producers| ==>
      t.norm(Get(ArgsOf(producers[i]), "name")) != t.norm(Get(ArgsOf(producers[j]), "name"))
  }

  // Every appended Action is called for by a constraint that counts, names a person
  // and holds, and whose alias no leaf of the plan binds; no two of them bind the
  // same alias.
  lemma OnlyCalledForAppended(reg: Registry, t: Text, ctx: Context, root: Node, intent: string)
    ensures AllCalledFor(reg, t, ctx, intent, root, MissingIn(reg, t, ctx, root, intent))
    ensures BindApart(t, MissingIn(reg, t, ctx, root, intent))
  {
    var trusted, leaves := Trusted(ctx.entries), Leaves(root);
    var chosen := Chosen(reg, t, leaves, trusted, TrustedIds(ctx.entries), intent);
    ChosenAreUnbound(reg, t, leaves, trusted, TrustedIds(ctx.entries), intent);
    ChosenCalledFor(reg, t, ctx, root, intent, chosen);
    NamesDiffer(t, trusted, chosen);
  }

  lemma ChosenCalledFor(reg: Registry, t: Text, ctx: Context, root: Node, intent: string, chosen: seq<string>)
    requires forall id :: id in chosen ==>
      && id in Trusted(ctx.entries) && Demands(t, Trusted(ctx.entries)[id], intent)
      && !Bound(reg, t, Leaves(root), DemandedAlias(t, Trusted(ctx.entries)[id]))
    ensures AllCalledFor(reg, t, ctx, intent, root, ProducersFor(Trusted(ctx.entries), chosen))
  {
    forall id | id in chosen
      ensures CalledFor(reg, t, ctx, intent, root, Producer(Trusted(ctx.entries)[id], id))
    {
      ProducerCalledFor(reg, t, ctx, intent, root, id);
    }
  }

  lemma NamesDiffer(t: Text, trusted: map<string, Constraint>, chosen: seq<string>)
    requires forall id :: id in chosen ==> id in trusted
    requires AskApart(t, trusted, chosen)
    ensures BindApart(t, ProducersFor(trusted, chosen))
  {
    var producers := ProducersFor(trusted, chosen);
    forall i | 0 <= i < |producers|
      ensures t.norm(Get(ArgsOf(producers[i]), "name")) == DemandedAlias(t, trusted[chosen[i]])
    {
      assert producers[i] == Producer(trusted[chosen[i]], chosen[i]);
    }
  }

  lemma ProducerCalledFor(reg: Registry, t: Text, ctx: Context, intent: string, root: Node, id: string)
    requires id in Trusted(ctx.entries) && Demands(t, Trusted(ctx.entries)[id], intent)
    requires !Bound(reg, t, Leaves(root), DemandedAlias(t, Trusted(ctx.entries)[id]))
    ensures CalledFor(reg, t, ctx, intent, root, Producer(Trusted(ctx.entries)[id], id))
  {
    var c := Trusted(ctx.entries)[id];
    DemandMeans(t, ctx, intent, id);
    UnboundMeans(reg, t, Leaves(root), DemandedAlias(t, c));
    assert Remembers(Producer(c, id), id, c);
  }

  lemma UnboundMeans(reg: Registry, t: Text, leaves: seq<Node>, alias: string)
    ensures Bound(reg, t, leaves, alias) <==> exists leaf :: leaf in leaves && Binds(reg, t, leaf, alias)
  {
    if Bound(reg, t, leaves, alias) {
      var leaf :| leaf in leaves && BoundBy(reg, t, leaf) == Some(alias);
      BindsMeans(reg, t, leaf, alias);
    }
    if leaf :| leaf in leaves && Binds(reg, t, leaf, alias) {
      BindsMeans(reg, t, leaf, alias);
    }
  }

  // And every person so named is bound afterwards.
  lemma EveryPersonIsBound(reg: Registry, t: Text, ctx: Context, root: Node, intent: string, id: string, c: Constraint)
    requires FindsRememberedPerson(reg) && KeepsNames(t) && NamesPerson(t, ctx, intent, id, c)
    ensures exists leaf :: leaf in Leaves(WithProducers(reg, t, ctx, root, intent)) && Binds(reg, t, leaf, t.norm(Strip(c.bindAlias)))
  {
    TrustedMeans(ctx.entries, ctx.grounded, id);
    assert Context(ctx.entries, ctx.grounded) == ctx;
    EveryDemandIsMet(reg, t, ctx, root, intent, id);
    UnboundMeans(reg, t, Leaves(WithProducers(reg, t, ctx, root, intent)), t.norm(Strip(c.bindAlias)));
  }

  predicate FindsRememberedPerson(reg: Registry) {
    "remember_person" in reg && reg["remember_person"].subsumesLocateSkills != {}
  }
}
