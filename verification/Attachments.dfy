// What the four provenance stages do to the Actions of a plan, leaf by leaf: which
// constraint is attached, which relation and entity id are filled in, when a plan
// is refused, and that nothing else about an Action changes.
module Attachments {
  import opened Common
  import opened BehaviourTree
  import opened SkillRegistry
  import opened SkillTerms
  import opened TreeRewrites
  import opened PlanningContext
  import opened Provenance

  // ---- The extracted constraints, entry by entry.

  // The entry that counts for an id is the last one that carries it.
  predicate Trusts(ctx: Context, id: string, c: Constraint) {
    id != "" && exists i :: 0 <= i < |ctx.entries| && ctx.entries[i] == c && Strip(c.constraintId) == id
                         && forall j :: i < j < |ctx.entries| ==> Strip(ctx.entries[j].constraintId) != id
  }

  // A relation to the robot that the intent itself speaks of.
  predicate Holds(t: Text, c: Constraint, intent: string) {
    var span := t.norm(Strip(c.sourceSpan));
    && t.lower(Strip(c.relation)) in {"front", "left", "right", "nearest"}
    && t.lower(Strip(c.referenceFrame)) == "robot"
    && t.lower(Strip(c.entityClass)) != "" && |t.lower(Strip(c.entityClass))| <= 64
    && Strip(c.sourceSpan) != ""
    && Within(span, t.norm(intent))
  }

  lemma WithinMeans(part: string, whole: string)
    ensures Within(part, whole) <==> exists before, after :: whole == Around(before, part, after)
  {
    if Within(part, whole) {
      var i :| 0 <= i <= |whole| && OccursAt(part, whole, i);
      assert whole == Around(whole[..i], part, whole[i + |part|..]);
    }
    if before, after :| whole == Around(before, part, after) {
      assert OccursAt(part, whole, |before|);
    }
  }

  function Around(before: string, part: string, after: string): string {
    before + part + after
  }

  lemma {:induction false} TrustedMeans(entries: seq<Constraint>, grounded: map<string, Grounding>, id: string)
    ensures id in Trusted(entries) <==> exists c :: Trusts(Context(entries, grounded), id, c)
    ensures forall c :: Trusts(Context(entries, grounded), id, c) <==> id in Trusted(entries) && Trusted(entries)[id] == c
    decreases |entries|
  {
    if entries != [] {
      var n := |entries| - 1;
      TrustedMeans(entries[..n], grounded, id);
      TrustsOneMore(entries, grounded, id);
      if id in Trusted(entries) {
        assert Trusts(Context(entries, grounded), id, Trusted(entries)[id]);
      }
    }
  }

  lemma TrustsOneMore(entries: seq<Constraint>, grounded: map<string, Grounding>, id: string)
    requires entries != []
    ensures
      var n := |entries| - 1;
      forall c :: Trusts(Context(entries, grounded), id, c) <==>
        if Strip(entries[n].constraintId) == id then id != "" && c == entries[n] else Trusts(Context(entries[..n], grounded), id, c)
  {
    var n := |entries| - 1;
    forall c
      ensures Trusts(Context(entries, grounded), id, c) <==>
        if Strip(entries[n].constraintId) == id then id != "" && c == entries[n] else Trusts(Context(entries[..n], grounded), id, c)
    {
      if Strip(entries[n].constraintId) != id && Trusts(Context(entries[..n], grounded), id, c) {
        var i :| 0 <= i < n && entries[..n][i] == c && Strip(c.constraintId) == id
              && forall j :: i < j < n ==> Strip(entries[..n][j].constraintId) != id;
        assert forall j :: i < j < |entries| ==> j == n || entries[j] == entries[..n][j];
      }
      if Strip(entries[n].constraintId) != id && Trusts(Context(entries, grounded), id, c) {
        var i :| 0 <= i < |entries| && entries[i] == c && Strip(c.constraintId) == id
              && forall j :: i < j < |entries| ==> Strip(entries[j].constraintId) != id;
        assert i < n && entries[..n][i] == c;
      }
    }
  }

  // ---- Which constraint is an alias's own.

  // A trusted constraint that holds speaks of this alias.
  ghost predicate SpeaksOf(t: Text, ctx: Context, intent: string, alias: string, id: string) {
    exists c :: Trusts(ctx, id, c) && Holds(t, c, intent) && t.norm(Strip(c.bindAlias)) == alias
  }

  ghost predicate OnlyOneSpeaksOf(t: Text, ctx: Context, intent: string, alias: string, id: string) {
    SpeaksOf(t, ctx, intent, alias, id) && forall other :: SpeaksOf(t, ctx, intent, alias, other) ==> other == id
  }

  predicate NoRepeats(ids: seq<string>) {
    forall i, j :: 0 <= i < j < |ids| ==> ids[i] != ids[j]
  }

  lemma {:induction false} TrustedIdsDiffer(entries: seq<Constraint>)
    ensures NoRepeats(TrustedIds(entries))
  {
    if entries != [] {
      TrustedIdsDiffer(entries[..|entries| - 1]);
    }
  }

  lemma {:induction false} OwnedMembers(t: Text, ctx: Context, intent: string, ids: seq<string>, alias: string)
    requires forall id :: id in ids ==> id in Trusted(ctx.entries)
    requires NoRepeats(ids)
    ensures NoRepeats(Owned(t, ctx, intent, ids, alias))
    ensures forall id :: id in Owned(t, ctx, intent, ids, alias) <==> id in ids && SpeaksOf(t, ctx, intent, alias, id)
  {
    if ids != [] {
      var n := |ids| - 1;
      OwnedMembers(t, ctx, intent, ids[..n], alias);
      SpeaksMeans(t, ctx, intent, alias, ids[n]);
      assert ids[n] !in ids[..n];
      assert forall id :: id in ids <==> id in ids[..n] || id == ids[n];
    }
  }

  lemma SpeaksMeans(t: Text, ctx: Context, intent: string, alias: string, id: string)
    ensures SpeaksOf(t, ctx, intent, alias, id) <==>
      && id in Trusted(ctx.entries)
      && t.norm(Strip(Trusted(ctx.entries)[id].bindAlias)) == alias
      && ValidConstraint(t, Trusted(ctx.entries)[id], intent)
  {
    TrustedMeans(ctx.entries, ctx.grounded, id);
    assert Context(ctx.entries, ctx.grounded) == ctx;
    if id in Trusted(ctx.entries) {
      assert Trusts(ctx, id, Trusted(ctx.entries)[id]);
    }
  }

  lemma OwnedMeans(t: Text, ctx: Context, intent: string, alias: string)
    ensures
      var owned := Owned(t, ctx, intent, TrustedIds(ctx.entries), alias);
      if |owned| == 1 then OnlyOneSpeaksOf(t, ctx, intent, alias, owned[0])
      else forall id :: !OnlyOneSpeaksOf(t, ctx, intent, alias, id)
  {
    var ids := TrustedIds(ctx.entries);
    var owned := Owned(t, ctx, intent, ids, alias);
    TrustedIdsDiffer(ctx.entries);
    OwnedMembers(t, ctx, intent, ids, alias);
    forall id | SpeaksOf(t, ctx, intent, alias, id)
      ensures id in owned
    {
      SpeaksMeans(t, ctx, intent, alias, id);
    }
    assert |owned| > 0 ==> owned[0] in owned;
    assert |owned| > 1 ==> owned[1] in owned && owned[0] != owned[1];
  }

  // ---- Leaf by leaf.

  // The leaf with other arguments.
  function With(leaf: Node, args: Args): Node {
    if leaf.Action? then Action(leaf.nodeId, leaf.skill, args, leaf.limitSec) else leaf
  }

  // An Action that finds its own target, names it and says nothing yet about where.
  predicate WantsConstraint(reg: Registry, t: Text, leaf: Node) {
    && Locates(reg, leaf) && leaf.args != map[]
    && Strip(Get(leaf.args, "reference_constraint_id")) == "" && Strip(Get(leaf.args, "relation")) == ""
    && t.norm(AliasOf(leaf.args)) != ""
  }

  ghost predicate Attached(reg: Registry, t: Text, ctx: Context, intent: string, before: Node, after: Node) {
    if WantsConstraint(reg, t, before) && exists id :: OnlyOneSpeaksOf(t, ctx, intent, t.norm(AliasOf(before.args)), id)
    then exists id :: OnlyOneSpeaksOf(t, ctx, intent, t.norm(AliasOf(before.args)), id)
                   && after == With(before, before.args["reference_constraint_id" := id])
    else after == before
  }

  // Exactly the Actions that want a constraint and have just one of their own get
  // it; nothing else about the plan's leaves changes.
  lemma InjectionAttaches(reg: Registry, t: Text, ctx: Context, intent: string, root: Node)
    ensures
      var ls, out := Leaves(root), Leaves(InjectStage(reg, t, ctx, intent, root));
      |out| == |ls| && forall i :: 0 <= i < |ls| ==> Attached(reg, t, ctx, intent, ls[i], out[i])
  {
    var edit := (n: Node) => InjectArgs(reg, t, ctx, intent, n);
    LeavesOfEdit(edit, root);
    var ls, out := Leaves(root), Leaves(InjectStage(reg, t, ctx, intent, root));
    forall i | 0 <= i < |ls|
      ensures Attached(reg, t, ctx, intent, ls[i], out[i])
    {
      assert out[i] == EditLeaf(edit, ls[i]);
      ActionAttached(reg, t, ctx, intent, ls[i]);
    }
  }

  lemma ActionAttached(reg: Registry, t: Text, ctx: Context, intent: string, leaf: Node)
    ensures Attached(reg, t, ctx, intent, leaf, EditLeaf(n => InjectArgs(reg, t, ctx, intent, n), leaf))
  {
    if leaf.Action? {
      OwnedMeans(t, ctx, intent, t.norm(AliasOf(leaf.args)));
    }
  }

  // The constraint an Action names, if it may use it: one that is trusted and
  // holds, and whose own words name the Action's alias.
  ghost predicate MayUse(t: Text, ctx: Context, intent: string, leaf: Node, c: Constraint)
    requires leaf.Action?
  {
    && Trusts(ctx, Strip(Get(leaf.args, "reference_constraint_id")), c) && Holds(t, c, intent)
    && Strip(c.bindAlias) != "" && t.norm(Strip(c.bindAlias)) == t.norm(AliasOf(leaf.args))
  }

  // The Action sets a relation itself, or names a constraint it may not use.
  ghost predicate Offends(reg: Registry, t: Text, ctx: Context, intent: string, leaf: Node) {
    && Locates(reg, leaf) && leaf.args != map[]
    && (|| Strip(Get(leaf.args, "relation")) != ""
        || (Strip(Get(leaf.args, "reference_constraint_id")) != "" && !exists c :: MayUse(t, ctx, intent, leaf, c)))
  }

  ghost predicate Related(reg: Registry, t: Text, ctx: Context, intent: string, before: Node, after: Node) {
    if Locates(reg, before) && Strip(Get(before.args, "reference_constraint_id")) != ""
    then exists c :: MayUse(t, ctx, intent, before, c) && after == With(before, before.args["relation" := t.lower(Strip(c.relation))])
    else after == before
  }

  // The guard refuses a plan exactly when some Action offends, and otherwise fills
  // in the relation of every constraint that is named, and nothing else.
  lemma GuardRelates(reg: Registry, t: Text, ctx: Context, intent: string, root: Node)
    ensures
      match GuardStage(reg, t, ctx, intent, root)
      case Refused(_) => exists leaf :: leaf in Leaves(root) && Offends(reg, t, ctx, intent, leaf)
      case Ok(out) =>
        && (forall leaf :: leaf in Leaves(root) ==> !Offends(reg, t, ctx, intent, leaf))
        && |Leaves(out)| == |Leaves(root)|
        && forall i :: 0 <= i < |Leaves(root)| ==> Related(reg, t, ctx, intent, Leaves(root)[i], Leaves(out)[i])
  {
    var edit := (n: Node) => GuardArgs(reg, t, ctx, intent, n);
    NoRefusal(edit, Leaves(root));
    forall leaf: Node | leaf.Action?
      ensures edit(leaf).Refused? <==> Offends(reg, t, ctx, intent, leaf)
      ensures edit(leaf).Ok? ==> Related(reg, t, ctx, intent, leaf, With(leaf, edit(leaf).value))
    {
      ActionRelated(reg, t, ctx, intent, leaf);
    }
    if Checked(edit, root).Ok? {
      CheckedLeaves(edit, root);
    }
  }

  lemma ActionRelated(reg: Registry, t: Text, ctx: Context, intent: string, leaf: Node)
    requires leaf.Action?
    ensures GuardArgs(reg, t, ctx, intent, leaf).Refused? <==> Offends(reg, t, ctx, intent, leaf)
    ensures GuardArgs(reg, t, ctx, intent, leaf).Ok? ==>
      Related(reg, t, ctx, intent, leaf, With(leaf, GuardArgs(reg, t, ctx, intent, leaf).value))
  {
    var id := Strip(Get(leaf.args, CONSTRAINT_ID));
    TrustedMeans(ctx.entries, ctx.grounded, id);
    assert Context(ctx.entries, ctx.grounded) == ctx;
    if id in Trusted(ctx.entries) {
      var c := Trusted(ctx.entries)[id];
      assert forall d :: MayUse(t, ctx, intent, leaf, d) ==> d == c;
      assert MayUse(t, ctx, intent, leaf, c) <==>
        ValidConstraint(t, c, intent) && Strip(c.bindAlias) != "" && t.norm(Strip(c.bindAlias)) == t.norm(AliasOf(leaf.args));
    }
  }

  // The leaves of a plan that passed a checking stage.
  lemma CheckedLeaves(edit: Node -> Attempt<Args>, root: Node)
    requires Checked(edit, root).Ok?
    ensures
      var ls, out := Leaves(root), Leaves(Checked(edit, root).value);
      |out| == |ls| && forall i :: 0 <= i < |ls| ==>
        out[i] == if ls[i].Action? then With(ls[i], Value(edit)(ls[i])) else ls[i]
  {
    LeavesOfEdit(Value(edit), root);
  }

  // ---- Entity ids.

  // What the alias that an Action's target names is grounded to.
  predicate GroundedTo(t: Text, ctx: Context, leaf: Node, g: Grounding)
    requires leaf.Action?
  {
    var target := Strip(Get(leaf.args, "target"));
    target != "" && t.norm(target) in ctx.grounded && ctx.grounded[t.norm(target)] == g
  }

  predicate CarriesEntity(leaf: Node) {
    leaf.Action? && Strip(Get(leaf.args, "entity_id")) != ""
  }

  // The id an Action carries is that of its own resolved alias, or, where its
  // target is no alias, that of some alias.
  ghost predicate BorneOut(t: Text, ctx: Context, leaf: Node)
    requires leaf.Action?
  {
    var id := Strip(Get(leaf.args, "entity_id"));
    if exists g :: GroundedTo(t, ctx, leaf, g)
    then exists g :: GroundedTo(t, ctx, leaf, g) && g.state == "RESOLVED" && g.entityId == id
    else exists alias :: alias in ctx.grounded && ctx.grounded[alias].entityId == id
  }

  ghost predicate Grounded(t: Text, ctx: Context, before: Node, after: Node) {
    if before.Action? && !CarriesEntity(before)
       && exists g :: GroundedTo(t, ctx, before, g) && g.state == "RESOLVED" && g.entityId != ""
    then exists g :: GroundedTo(t, ctx, before, g) && after == With(before, before.args["entity_id" := g.entityId])
    else after == before
  }

  // The normaliser refuses a plan exactly when some Action carries an id that its
  // alias or the grounded aliases do not bear out. Otherwise an Action that carries
  // none gets the id of the resolved alias its target names, and nothing else
  // changes.
  lemma GroundingFills(t: Text, ctx: Context, root: Node)
    ensures
      match GroundStage(t, ctx, root)
      case Refused(_) => exists leaf :: leaf in Leaves(root) && CarriesEntity(leaf) && !BorneOut(t, ctx, leaf)
      case Ok(out) =>
        && (forall leaf :: leaf in Leaves(root) && CarriesEntity(leaf) ==> BorneOut(t, ctx, leaf))
        && |Leaves(out)| == |Leaves(root)|
        && forall i :: 0 <= i < |Leaves(root)| ==> Grounded(t, ctx, Leaves(root)[i], Leaves(out)[i])
  {
    var edit := (n: Node) => GroundArgs(t, ctx, n);
    NoRefusal(edit, Leaves(root));
    forall leaf: Node | leaf.Action?
      ensures edit(leaf).Refused? <==> CarriesEntity(leaf) && !BorneOut(t, ctx, leaf)
      ensures edit(leaf).Ok? ==> Grounded(t, ctx, leaf, With(leaf, edit(leaf).value))
    {
      ActionGrounded(t, ctx, leaf);
    }
    if Checked(edit, root).Ok? {
      CheckedLeaves(edit, root);
    }
  }

  lemma ActionGrounded(t: Text, ctx: Context, leaf: Node)
    requires leaf.Action?
    ensures GroundArgs(t, ctx, leaf).Refused? <==> CarriesEntity(leaf) && !BorneOut(t, ctx, leaf)
    ensures GroundArgs(t, ctx, leaf).Ok? ==> Grounded(t, ctx, leaf, With(leaf, GroundArgs(t, ctx, leaf).value))
  {
    var matched := Matched(t, ctx, leaf.args);
    assert matched.Some? ==> GroundedTo(t, ctx, leaf, matched.value);
    assert forall g :: GroundedTo(t, ctx, leaf, g) ==> matched == Some(g);
    var id := Strip(Get(leaf.args, ENTITY_ID));
    assert id != "" ==> (id in EntityIds(ctx) <==> exists alias :: alias in ctx.grounded && ctx.grounded[alias].entityId == id);
  }

  // The internal key goes, and nothing else.
  lemma StripTakesKeyOnly(root: Node)
    ensures
      var ls, out := Leaves(root), Leaves(StripStage(root));
      |out| == |ls| && forall i :: 0 <= i < |ls| ==>
        out[i] == if ls[i].Action? then With(ls[i], ls[i].args - {"_planning_grounding_ref"}) else ls[i]
  {
    LeavesOfEdit(StripArgs, root);
  }

  // ---- The stages in a row.

  // The same leaf, up to the three arguments the stages may write.
  predicate SameButFilled(before: Node, after: Node) {
    if before.Action? then
      && after.Action? && after.skill == before.skill && after.nodeId == before.nodeId && after.limitSec == before.limitSec
      && after.args - {"reference_constraint_id", "relation", "entity_id"}
         == before.args - {"reference_constraint_id", "relation", "entity_id"}
    else after == before
  }

  // What passes the three stages has the leaves it had, in order, with no argument
  // changed but the constraint, the relation and the entity id.
  lemma StagesKeepLeaves(reg: Registry, t: Text, ctx: Context, intent: string, root: Node)
    requires GuardStage(reg, t, ctx, intent, InjectStage(reg, t, ctx, intent, root)).Ok?
    requires GroundStage(t, ctx, GuardStage(reg, t, ctx, intent, InjectStage(reg, t, ctx, intent, root)).value).Ok?
    ensures
      var out := GroundStage(t, ctx, GuardStage(reg, t, ctx, intent, InjectStage(reg, t, ctx, intent, root)).value).value;
      |Leaves(out)| == |Leaves(root)|
      && forall i :: 0 <= i < |Leaves(root)| ==> SameButFilled(Leaves(root)[i], Leaves(out)[i])
  {
    var injected := InjectStage(reg, t, ctx, intent, root);
    var guarded := GuardStage(reg, t, ctx, intent, injected).value;
    var out := GroundStage(t, ctx, guarded).value;
    InjectionAttaches(reg, t, ctx, intent, root);
    GuardRelates(reg, t, ctx, intent, injected);
    GroundingFills(t, ctx, guarded);
    forall i | 0 <= i < |Leaves(root)|
      ensures SameButFilled(Leaves(root)[i], Leaves(out)[i])
    {
      assert Attached(reg, t, ctx, intent, Leaves(root)[i], Leaves(injected)[i]);
      assert Related(reg, t, ctx, intent, Leaves(injected)[i], Leaves(guarded)[i]);
      assert Grounded(t, ctx, Leaves(guarded)[i], Leaves(out)[i]);
      SameThroughStages(reg, t, ctx, intent, Leaves(root)[i], Leaves(injected)[i], Leaves(guarded)[i], Leaves(out)[i]);
    }
  }

  lemma SameThroughStages(reg: Registry, t: Text, ctx: Context, intent: string, a: Node, b: Node, c: Node, d: Node)
    requires Attached(reg, t, ctx, intent, a, b) && Related(reg, t, ctx, intent, b, c) && Grounded(t, ctx, c, d)
    ensures SameButFilled(a, d)
  {
    AttachedIsSame(reg, t, ctx, intent, a, b);
    RelatedIsSame(reg, t, ctx, intent, b, c);
    GroundedIsSame(t, ctx, c, d);
  }

  lemma AttachedIsSame(reg: Registry, t: Text, ctx: Context, intent: string, a: Node, b: Node)
    requires Attached(reg, t, ctx, intent, a, b)
    ensures SameButFilled(a, b)
  {
  }

  lemma RelatedIsSame(reg: Registry, t: Text, ctx: Context, intent: string, a: Node, b: Node)
    requires Related(reg, t, ctx, intent, a, b)
    ensures SameButFilled(a, b)
  {
  }

  lemma GroundedIsSame(t: Text, ctx: Context, a: Node, b: Node)
    requires Grounded(t, ctx, a, b)
    ensures SameButFilled(a, b)
  {
  }
}
