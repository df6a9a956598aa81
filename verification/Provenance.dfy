// Where identities come from: the stages that strip, attach and check the
// relation, the entity id and the internal grounding key of every Action.
module Provenance {
  import opened Common
  import opened SkillRegistry
  import opened BehaviourTree
  import opened TreeRewrites
  import opened PlanningContext

  const GROUNDING_REF := "_planning_grounding_ref"
  const CONSTRAINT_ID := "reference_constraint_id"
  const RELATION := "relation"
  const ENTITY_ID := "entity_id"
  const TARGET := "target"

  function ArgsOf(leaf: Node): Args {
    if leaf.Action? then leaf.args else map[]
  }

  // _strip_internal_grounding_field, for one Action.
  function StripArgs(leaf: Node): Args {
    ArgsOf(leaf) - {GROUNDING_REF}
  }

  // The trusted constraints that name this alias and are valid.
  function Owned(t: Text, ctx: Context, intent: string, ids: seq<string>, alias: string): (owned: seq<string>)
    requires forall id :: id in ids ==> id in Trusted(ctx.entries)
    ensures forall id :: id in owned ==> id in ids
  {
    if ids == [] then []
    else
      var c := Trusted(ctx.entries)[ids[|ids| - 1]];
      Owned(t, ctx, intent, ids[..|ids| - 1], alias)
      + if t.norm(Strip(c.bindAlias)) == alias && ValidConstraint(t, c, intent) then [ids[|ids| - 1]] else []
  }

  // _inject_owned_reference_constraint, for one Action.
  function InjectArgs(reg: Registry, t: Text, ctx: Context, intent: string, leaf: Node): Args {
    var args := ArgsOf(leaf);
    if !leaf.Action? || !IsSelfLocating(reg, leaf.skill) || args == map[] then args
    else if Strip(Get(args, CONSTRAINT_ID)) != "" || Strip(Get(args, RELATION)) != "" then args
    else
      var alias := t.norm(AliasOf(args));
      if alias == "" then args
      else
        var owned := Owned(t, ctx, intent, TrustedIds(ctx.entries), alias);
        if |owned| == 1 then args[CONSTRAINT_ID := owned[0]] else args
  }

  // _apply_reference_constraint_guard, for one Action.
  function GuardArgs(reg: Registry, t: Text, ctx: Context, intent: string, leaf: Node): Attempt<Args> {
    var args := ArgsOf(leaf);
    if !leaf.Action? || !IsSelfLocating(reg, leaf.skill) || args == map[] then Ok(args)
    else if Strip(Get(args, RELATION)) != "" then Refused("relation set directly")
    else
      var id := Strip(Get(args, CONSTRAINT_ID));
      if id == "" then Ok(args)
      else if id !in Trusted(ctx.entries) then Refused("unknown constraint")
      else
        var c := Trusted(ctx.entries)[id];
        if !ValidConstraint(t, c, intent) then Refused("invalid constraint")
        else if Strip(c.bindAlias) == "" then Refused("constraint names no alias")
        else if t.norm(Strip(c.bindAlias)) != t.norm(AliasOf(args)) then Refused("constraint names another alias")
        else Ok(args[RELATION := Relation(t, c)])
  }

  function EntityIds(ctx: Context): set<string> {
    set alias | alias in ctx.grounded && ctx.grounded[alias].entityId != "" :: ctx.grounded[alias].entityId
  }

  // The grounded alias an Action's target names.
  function Matched(t: Text, ctx: Context, args: Args): Option<Grounding> {
    var target := Strip(Get(args, TARGET));
    if target != "" && t.norm(target) in ctx.grounded then Some(ctx.grounded[t.norm(target)]) else None
  }

  // _apply_grounding_normalizer, for one Action.
  function GroundArgs(t: Text, ctx: Context, leaf: Node): Attempt<Args> {
    var args := ArgsOf(leaf);
    var entityId := Strip(Get(args, ENTITY_ID));
    var matched := Matched(t, ctx, args);
    if entityId != "" then
      if matched.Some? then
        if matched.value.state != RESOLVED then Refused("alias is unresolved")
        else if entityId != matched.value.entityId then Refused("alias is grounded to another entity")
        else Ok(args)
      else if entityId !in EntityIds(ctx) then Refused("entity is not grounded")
      else Ok(args)
    else if matched.Some? && matched.value.state == RESOLVED && matched.value.entityId != ""
    then Ok(args[ENTITY_ID := matched.value.entityId])
    else Ok(args)
  }

  // The first refusal among the Actions, in tree order.
  function FirstRefusal(edit: Node -> Attempt<Args>, leaves: seq<Node>): Option<string> {
    if leaves == [] then None
    else if leaves[0].Action? && edit(leaves[0]).Refused? then Some(edit(leaves[0]).reason)
    else FirstRefusal(edit, leaves[1..])
  }

  function Value(edit: Node -> Attempt<Args>): Node -> Args {
    n => if edit(n).Ok? then edit(n).value else map[]
  }

  // A checking stage: every Action passes and is edited, or the plan is refused.
  function Checked(edit: Node -> Attempt<Args>, root: Node): Attempt<Node> {
    var refusal := FirstRefusal(edit, Leaves(root));
    if refusal.Some? then Refused(refusal.value) else Ok(EditActions(Value(edit), root))
  }

  lemma {:induction false} NoRefusal(edit: Node -> Attempt<Args>, leaves: seq<Node>)
    ensures FirstRefusal(edit, leaves) == None <==> forall leaf :: leaf in leaves && leaf.Action? ==> edit(leaf).Ok?
  {
    if leaves != [] {
      NoRefusal(edit, leaves[1..]);
    }
  }

  // ---- What an accepted Action owes to its sources.

  // Its relation, if it binds an identity, is that of a trusted and valid
  // constraint whose own words name exactly this Action's alias.
  ghost predicate RelationTrusted(reg: Registry, t: Text, ctx: Context, intent: string, leaf: Node) {
    leaf.Action? && IsSelfLocating(reg, leaf.skill) && Strip(Get(leaf.args, RELATION)) != "" ==>
      exists id :: id in Trusted(ctx.entries)
        && var c := Trusted(ctx.entries)[id];
           && ValidConstraint(t, c, intent)
           && Relation(t, c) == Get(leaf.args, RELATION)
           && Strip(c.bindAlias) != "" && t.norm(Strip(c.bindAlias)) == t.norm(AliasOf(leaf.args))
  }

  // Its entity id is that of the resolved alias its target names; with no such
  // alias it is some grounded id.
  predicate EntityGrounded(t: Text, ctx: Context, leaf: Node) {
    leaf.Action? && Strip(Get(leaf.args, ENTITY_ID)) != "" ==>
      var matched := Matched(t, ctx, leaf.args);
      var id := Get(leaf.args, ENTITY_ID);
      if matched.Some? then
        matched.value.state == RESOLVED && (id == matched.value.entityId || Strip(id) == matched.value.entityId)
      else Strip(id) in EntityIds(ctx)
  }

  predicate NoInternalKey(leaf: Node) {
    leaf.Action? ==> GROUNDING_REF !in leaf.args
  }

  ghost predicate Trustworthy(reg: Registry, t: Text, ctx: Context, intent: string, leaf: Node) {
    RelationTrusted(reg, t, ctx, intent, leaf) && EntityGrounded(t, ctx, leaf) && NoInternalKey(leaf)
  }

  lemma InjectKeepsOut(reg: Registry, t: Text, ctx: Context, intent: string, leaf: Node)
    requires NoInternalKey(leaf)
    ensures GROUNDING_REF !in InjectArgs(reg, t, ctx, intent, leaf)
  {
  }

  lemma GuardTrusts(reg: Registry, t: Text, ctx: Context, intent: string, leaf: Node)
    requires leaf.Action? && NoInternalKey(leaf) && GuardArgs(reg, t, ctx, intent, leaf).Ok?
    ensures
      var out := EditLeaf(Value(n => GuardArgs(reg, t, ctx, intent, n)), leaf);
      RelationTrusted(reg, t, ctx, intent, out) && NoInternalKey(out)
  {
    var args := GuardArgs(reg, t, ctx, intent, leaf).value;
    if IsSelfLocating(reg, leaf.skill) && Strip(Get(args, RELATION)) != "" {
      var id := Strip(Get(leaf.args, CONSTRAINT_ID));
      assert id in Trusted(ctx.entries);
      assert AliasOf(args) == AliasOf(leaf.args);
    }
  }

  lemma GroundingTrusts(reg: Registry, t: Text, ctx: Context, intent: string, leaf: Node)
    requires leaf.Action? && RelationTrusted(reg, t, ctx, intent, leaf) && NoInternalKey(leaf)
    requires GroundArgs(t, ctx, leaf).Ok?
    ensures Trustworthy(reg, t, ctx, intent, EditLeaf(Value(n => GroundArgs(t, ctx, n)), leaf))
  {
    var args := GroundArgs(t, ctx, leaf).value;
    assert AliasOf(args) == AliasOf(leaf.args) && Get(args, RELATION) == Get(leaf.args, RELATION);
    assert Matched(t, ctx, args) == Matched(t, ctx, leaf.args);
  }

  lemma {:induction false} TrustedIdsAreStripped(entries: seq<Constraint>)
    ensures forall id :: id in Trusted(entries) ==> id != "" && Strip(id) == id
  {
    if entries != [] {
      TrustedIdsAreStripped(entries[..|entries| - 1]);
      StripTwice(entries[|entries| - 1].constraintId);
    }
  }

  lemma {:induction false} OwnedAreValid(t: Text, ctx: Context, intent: string, ids: seq<string>, alias: string)
    requires forall id :: id in ids ==> id in Trusted(ctx.entries)
    ensures forall id :: id in Owned(t, ctx, intent, ids, alias) ==>
      ValidConstraint(t, Trusted(ctx.entries)[id], intent) && t.norm(Strip(Trusted(ctx.entries)[id].bindAlias)) == alias
  {
    if ids != [] {
      OwnedAreValid(t, ctx, intent, ids[..|ids| - 1], alias);
    }
  }

  // A constraint that is attached always passes the guard behind it, which then
  // writes that constraint's own relation.
  lemma InjectionPassesGuard(reg: Registry, t: Text, ctx: Context, intent: string, leaf: Node)
    requires leaf.Action? && t.norm("") == "" && InjectArgs(reg, t, ctx, intent, leaf) != leaf.args
    ensures
      var out := EditLeaf(n => InjectArgs(reg, t, ctx, intent, n), leaf);
      var id := Get(out.args, CONSTRAINT_ID);
      && id in Trusted(ctx.entries)
      && GuardArgs(reg, t, ctx, intent, out) == Ok(out.args[RELATION := Relation(t, Trusted(ctx.entries)[id])])
  {
    var alias := t.norm(AliasOf(leaf.args));
    var owned := Owned(t, ctx, intent, TrustedIds(ctx.entries), alias);
    TrustedIdsAreStripped(ctx.entries);
    OwnedAreValid(t, ctx, intent, TrustedIds(ctx.entries), alias);
    assert owned[0] in owned;
    var args := InjectArgs(reg, t, ctx, intent, leaf);
    assert AliasOf(args) == AliasOf(leaf.args) && Get(args, RELATION) == Get(leaf.args, RELATION);
  }

  lemma LeafOfEdit(edit: Node -> Args, root: Node, leaf: Node) returns (from: Node)
    requires leaf in Leaves(EditActions(edit, root))
    ensures from in Leaves(root) && leaf == EditLeaf(edit, from)
  {
    LeavesOfEdit(edit, root);
    var i :| 0 <= i < |Leaves(EditActions(edit, root))| && Leaves(EditActions(edit, root))[i] == leaf;
    from := Leaves(root)[i];
  }

  // ---- The four stages in a row.

  function StripStage(root: Node): Node {
    EditActions(StripArgs, root)
  }

  function InjectStage(reg: Registry, t: Text, ctx: Context, intent: string, root: Node): Node {
    EditActions(n => InjectArgs(reg, t, ctx, intent, n), root)
  }

  function GuardStage(reg: Registry, t: Text, ctx: Context, intent: string, root: Node): Attempt<Node> {
    Checked(n => GuardArgs(reg, t, ctx, intent, n), root)
  }

  function GroundStage(t: Text, ctx: Context, root: Node): Attempt<Node> {
    Checked(n => GroundArgs(t, ctx, n), root)
  }

  predicate AllClean(root: Node) {
    forall leaf :: leaf in Leaves(root) ==> NoInternalKey(leaf)
  }

  lemma StripCleans(root: Node)
    ensures AllClean(StripStage(root))
  {
    forall leaf | leaf in Leaves(StripStage(root))
      ensures NoInternalKey(leaf)
    {
      var from := LeafOfEdit(StripArgs, root, leaf);
    }
  }

  // What the two checking stages let through, with the key stripped before,
  // is trustworthy in every Action.
  lemma StagesTrust(reg: Registry, t: Text, ctx: Context, intent: string, root: Node)
    requires AllClean(root)
    requires GuardStage(reg, t, ctx, intent, InjectStage(reg, t, ctx, intent, root)).Ok?
    requires GroundStage(t, ctx, GuardStage(reg, t, ctx, intent, InjectStage(reg, t, ctx, intent, root)).value).Ok?
    ensures
      var out := GroundStage(t, ctx, GuardStage(reg, t, ctx, intent, InjectStage(reg, t, ctx, intent, root)).value).value;
      forall leaf :: leaf in Leaves(out) ==> Trustworthy(reg, t, ctx, intent, leaf)
  {
    var injected := InjectStage(reg, t, ctx, intent, root);
    var guard := (n: Node) => GuardArgs(reg, t, ctx, intent, n);
    var guarded := GuardStage(reg, t, ctx, intent, injected).value;
    var ground := (n: Node) => GroundArgs(t, ctx, n);
    var out := GroundStage(t, ctx, guarded).value;
    NoRefusal(guard, Leaves(injected));
    NoRefusal(ground, Leaves(guarded));
    forall leaf | leaf in Leaves(out)
      ensures Trustworthy(reg, t, ctx, intent, leaf)
    {
      var b := LeafOfEdit(Value(ground), guarded, leaf);
      var a := LeafOfEdit(Value(guard), injected, b);
      var from := LeafOfEdit(n => InjectArgs(reg, t, ctx, intent, n), root, a);
      InjectKeepsOut(reg, t, ctx, intent, from);
      if a.Action? {
        GuardTrusts(reg, t, ctx, intent, a);
        GroundingTrusts(reg, t, ctx, intent, b);
      }
    }
  }
}
