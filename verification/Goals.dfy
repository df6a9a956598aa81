// Goal specifications and plans.
module Goals {
  import opened Common
  import opened BehaviourTree

  // The answer of a check or of a decision.
  datatype TriState = TrueState | FalseState | UnknownState

  // The final check, or the decision asked for in its place.
  predicate Affirmed(check: TriState, resolved: TriState) {
    check == TrueState || (check == UnknownState && resolved == TrueState)
  }

  predicate Denied(check: TriState, resolved: TriState) {
    check == FalseState || (check == UnknownState && resolved == FalseState)
  }

  predicate Undecided(check: TriState, resolved: TriState) {
    check == UnknownState && resolved == UnknownState
  }

  // Unsupported: a type outside the schema, or no type at all.
  datatype GoalKind = Structured | Visual | Human | Hybrid | Unsupported

  // `keys` are the keys that are written out, whatever their values.
  datatype GoalSpec = GoalSpec(
    kind: GoalKind, predicateName: string, args: Args, verification: map<string, string>, keys: set<string>)
  {
    function Mode(): string {
      Get(verification, "mode")
    }
  }

  const IMPLICIT := "implicit_conversation"

  // The predicate an observation stands for, whatever it saw.
  const OBSERVED := "visual_check_completed"

  predicate IsImplicit(goal: GoalSpec) {
    goal.kind == Human || goal.Mode() == IMPLICIT
  }

  // goal_node_id may be missing from a plan, or present and null.
  datatype Marker = Absent | Present(nodeId: Option<string>)
}
