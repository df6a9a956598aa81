// What the planning stages trust: the extracted reference constraints and the
// grounded aliases of the mission's context, and the text functions they are
// compared with.
module PlanningContext {
  import opened Common
  import opened BehaviourTree

  // Alias normalisation and lower-casing, left abstract. Normalising never makes
  // a real name vanish.
  datatype Text = Text(norm: string -> string, lower: string -> string)

  ghost predicate KeepsNames(t: Text) {
    forall s :: Strip(s) != "" ==> t.norm(s) != ""
  }

  predicate OccursAt(part: string, whole: string, i: nat) {
    i + |part| <= |whole| && whole[i..i + |part|] == part
  }

  predicate Within(part: string, whole: string) {
    exists i :: 0 <= i <= |whole| && OccursAt(part, whole, i)
  }

  datatype Constraint = Constraint(
    constraintId: string, relation: string, referenceFrame: string,
    entityClass: string, sourceSpan: string, bindAlias: string)

  datatype Grounding = Grounding(entityId: string, state: string, semanticId: string)

  // entries: the extractor's list; grounded: by normalised alias.
  datatype Context = Context(entries: seq<Constraint>, grounded: map<string, Grounding>)

  const RELATIONS: set<string> := {"front", "left", "right", "nearest"}
  const RESOLVED := "RESOLVED"
  const PERSON := "person"

  // _trusted_reference_constraints: by id, a later entry replacing an earlier one.
  function Trusted(entries: seq<Constraint>): map<string, Constraint> {
    if entries == [] then map[]
    else
      var c := entries[|entries| - 1];
      var before := Trusted(entries[..|entries| - 1]);
      if Strip(c.constraintId) == "" then before else before[Strip(c.constraintId) := c]
  }

  // The ids in the order in which they first appear.
  function TrustedIds(entries: seq<Constraint>): (ids: seq<string>)
    ensures forall id :: id in ids <==> id in Trusted(entries)
  {
    if entries == [] then []
    else
      var id := Strip(entries[|entries| - 1].constraintId);
      var before := TrustedIds(entries[..|entries| - 1]);
      if id == "" || id in before then before else before + [id]
  }

  function Relation(t: Text, c: Constraint): string {
    t.lower(Strip(c.relation))
  }

  function EntityClass(t: Text, c: Constraint): string {
    t.lower(Strip(c.entityClass))
  }

  // _validate_reference_constraint.
  predicate ValidConstraint(t: Text, c: Constraint, intent: string) {
    && Relation(t, c) in RELATIONS
    && t.lower(Strip(c.referenceFrame)) == "robot"
    && 0 < |EntityClass(t, c)| <= 64
    && Strip(c.sourceSpan) != ""
    && Within(t.norm(Strip(c.sourceSpan)), t.norm(intent))
  }

  // "What to call them": alias for one skill, name for the other.
  function AliasOf(args: Args): string {
    if Get(args, "alias") != "" then Get(args, "alias") else Get(args, "name")
  }
}
