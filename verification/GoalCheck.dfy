// GoalChecker: the mission's final check, and what its outcome may report.
module GoalCheck {
  import opened Common
  import opened BehaviourTree
  import opened Goals

  // What the checker asks about the world and about facts the model leaves
  // abstract: the predicates with their own branch, snapshots, confirmations.
  datatype Witness = Witness(
    facts: (string, Args, Facts) -> TriState,
    snapshot: (string, Args) -> TriState,
    confirmation: (Args, Facts) -> TriState,
    parsed: GoalSpec -> Option<(string, Args)>)   // the structured form of a visual goal's query

  // _check_execution_facts: an observation completed, whatever it saw.
  function CheckExecutionFacts(w: Witness, predicateName: string, args: Args, facts: Facts): TriState {
    if predicateName == OBSERVED then
      if VISUAL_RESULT in facts && facts[VISUAL_RESULT].Observation? && facts[VISUAL_RESULT].completed
      then TrueState else UnknownState
    else w.facts(predicateName, args, facts)
  }

  function CheckStructured(w: Witness, predicateName: string, args: Args, facts: Facts): TriState {
    var direct := CheckExecutionFacts(w, predicateName, args, facts);
    if direct != UnknownState then direct else w.snapshot(predicateName, args)
  }

  const CONFIRMATION_MODES: set<string> :=
    {"confirmation", "human_confirmation", "operator_confirmation", "explicit"}

  function CheckHuman(w: Witness, goal: GoalSpec, facts: Facts): TriState {
    var mode := Strip(goal.Mode());
    if goal.Mode() == "" || "implicit" <= mode then TrueState
    else if mode in CONFIRMATION_MODES then w.confirmation(goal.args, facts)
    else UnknownState
  }

  // check: a failed execution never meets its goal.
  function CheckGoal(w: Witness, goal: GoalSpec, execution: ExecutionResult): TriState {
    if !execution.success then FalseState
    else match goal.kind {
      case Human => CheckHuman(w, goal, execution.facts)
      case Visual =>
        (match w.parsed(goal)
         case None => UnknownState
         case Some(form) => CheckStructured(w, form.0, form.1, execution.facts))
      case Hybrid => CheckStructured(w, goal.predicateName, goal.args, execution.facts)
      case Structured => CheckStructured(w, goal.predicateName, goal.args, execution.facts)
      case Unsupported => FalseState
    }
  }

  // What a goal of this predicate is answered with: the execution's own facts
  // first, the world's snapshot where they say nothing. An observation is answered
  // by its record alone.
  predicate Answers(w: Witness, predicateName: string, args: Args, facts: Facts, answer: TriState) {
    var recorded := "visual_check_result" in facts
      && facts["visual_check_result"].Observation? && facts["visual_check_result"].completed;
    var direct :=
      if predicateName == "visual_check_completed" then (if recorded then TrueState else UnknownState)
      else w.facts(predicateName, args, facts);
    answer == (if direct == UnknownState then w.snapshot(predicateName, args) else direct)
  }

  // The final check of a mission: FALSE when the execution failed or the goal has
  // no known type; TRUE at once for a goal a human accepts implicitly, and as the
  // operator says for one that asks for a confirmation; otherwise as the evidence
  // for its predicate says.
  lemma CheckMeans(w: Witness, goal: GoalSpec, execution: ExecutionResult)
    ensures
      var answer := CheckGoal(w, goal, execution);
      var mode := Get(goal.verification, "mode");
      && (!execution.success || goal.kind.Unsupported? ==> answer == FalseState)
      && (execution.success && goal.kind.Human? ==>
            && (mode == "" || "implicit" <= Strip(mode) ==> answer == TrueState)
            && (mode != "" && (Strip(mode) == "confirmation" || Strip(mode) == "human_confirmation"
                               || Strip(mode) == "operator_confirmation" || Strip(mode) == "explicit") ==>
                  answer == w.confirmation(goal.args, execution.facts))
            && (mode != "" && !("implicit" <= Strip(mode))
                && Strip(mode) !in {"confirmation", "human_confirmation", "operator_confirmation", "explicit"} ==>
                  answer == UnknownState))
      && (execution.success && (goal.kind.Structured? || goal.kind.Hybrid?) ==>
            Answers(w, goal.predicateName, goal.args, execution.facts, answer))
      && (execution.success && goal.kind.Visual? ==>
            match w.parsed(goal)
            case None => answer == UnknownState
            case Some(form) => Answers(w, form.0, form.1, execution.facts, answer))
  {
    if goal.kind.Human? {
      ConfirmationIsNotImplicit();
    }
  }

  lemma ConfirmationIsNotImplicit()
    ensures forall mode :: mode in CONFIRMATION_MODES ==> !("implicit" <= mode)
  {
    assert "confirmation"[0] != "implicit"[0] && "human_confirmation"[0] != "implicit"[0];
    assert "operator_confirmation"[0] != "implicit"[0] && "explicit"[0] != "implicit"[0];
  }

  // _bounded_result_facts: the one fact a mission outcome may carry, and only
  // in its trusted shape.
  function BoundedResultFacts(facts: Facts): (out: Facts)
    ensures out.Keys <= {VISUAL_RESULT}
    ensures forall key :: key in out ==>
      key in facts && out[key] == facts[key] && out[key].Observation? && out[key].completed
    ensures forall key :: key in facts && facts[key].Observation? && facts[key].completed ==>
      (key in out <==> key == "visual_check_result")
  {
    if VISUAL_RESULT in facts && facts[VISUAL_RESULT].Observation? && facts[VISUAL_RESULT].completed
    then map[VISUAL_RESULT := facts[VISUAL_RESULT]]
    else map[]
  }
}
