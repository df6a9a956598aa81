// The questions that the plan stages ask about a skill, answered from the fields of
// its contract.
module SkillTerms {
  import opened SkillRegistry
  import opened BehaviourTree

  // The skill needs the base or a part of the body.
  predicate MovesRobot(reg: Registry, skill: string) {
    skill in reg && exists r :: r in {"base", "gaze", "left_arm", "right_arm", "body"} && r in reg[skill].resources
  }

  predicate FindsOwnTarget(reg: Registry, skill: string) {
    skill in reg && reg[skill].subsumesLocateSkills != {}
  }

  // Some skill of the table does this skill's search by itself.
  predicate IsSubsumed(reg: Registry, skill: string) {
    exists name :: name in reg && skill in reg[name].subsumesLocateSkills
  }

  predicate BringsIn(reg: Registry, skill: string, p: string) {
    skill in reg && p in reg[skill].resultPredicates
  }

  // The skill acquires its target by itself, and one of the skills it stands in for
  // brings p in.
  predicate BringsInByItself(reg: Registry, skill: string, p: string) {
    && skill in reg && reg[skill].resolvesOwnTarget
    && exists sub :: sub in reg[skill].subsumesLocateSkills && BringsIn(reg, sub, p)
  }

  predicate Speaks(reg: Registry, skill: string) {
    skill in reg && reg[skill].dispatch.Voice?
  }

  // An Action that looks for its own target.
  predicate Locates(reg: Registry, a: Node) {
    a.Action? && FindsOwnTarget(reg, a.skill)
  }

  lemma TermsMean(reg: Registry, skill: string, p: string)
    ensures IsPhysicalSkill(reg, skill) <==> MovesRobot(reg, skill)
    ensures IsSelfLocating(reg, skill) <==> FindsOwnTarget(reg, skill)
    ensures IsRedundantLocate(reg, skill) <==> IsSubsumed(reg, skill)
    ensures Produces(reg, skill, p) <==> BringsIn(reg, skill, p)
    ensures ResolvesInternally(reg, skill, p) <==> BringsInByItself(reg, skill, p)
    ensures IsVoiceSkill(reg, skill) <==> Speaks(reg, skill)
  {
    if skill in reg && IsBodySkill(reg, skill) {
      var r :| r in BODY_RESOURCES && r in reg[skill].resources;
      assert r in {"base", "gaze", "left_arm", "right_arm", "body"};
    }
    if BringsInByItself(reg, skill, p) {
      var sub :| sub in reg[skill].subsumesLocateSkills && BringsIn(reg, sub, p);
      assert Produces(reg, sub, p);
    }
    if ResolvesInternally(reg, skill, p) {
      var sub :| sub in reg[skill].subsumesLocateSkills && Produces(reg, sub, p);
      assert BringsIn(reg, sub, p);
    }
  }
}
