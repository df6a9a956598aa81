// The skill contract table. The model never fixes the table: every result
// holds for any registry of this shape.
module SkillRegistry {

  datatype Dispatch = Embodied | Dedicated | Voice

  datatype SkillSpec = SkillSpec(
    resources: set<string>,
    resultPredicates: seq<string>,
    dispatch: Dispatch,
    available: bool,
    subsumesLocateSkills: set<string>,
    resolvesOwnTarget: bool)

  type Registry = map<string, SkillSpec>

  const BODY_RESOURCES: set<string> := {"gaze", "left_arm", "right_arm", "body"}

  predicate IsBaseSkill(reg: Registry, skill: string) {
    skill in reg && "base" in reg[skill].resources
  }

  predicate IsBodySkill(reg: Registry, skill: string) {
    skill in reg && exists r :: r in BODY_RESOURCES && r in reg[skill].resources
  }

  predicate IsPhysicalSkill(reg: Registry, skill: string) {
    IsBaseSkill(reg, skill) || IsBodySkill(reg, skill)
  }

  predicate IsVoiceSkill(reg: Registry, skill: string) {
    skill in reg && reg[skill].dispatch == Voice
  }

  // Skills that locate their own target: the remember_* family.
  predicate IsSelfLocating(reg: Registry, skill: string) {
    skill in reg && reg[skill].subsumesLocateSkills != {}
  }

  // Skills some self-locating skill already performs internally.
  predicate IsRedundantLocate(reg: Registry, skill: string) {
    exists name :: name in reg && skill in reg[name].subsumesLocateSkills
  }

  predicate Produces(reg: Registry, skill: string, predicateName: string) {
    skill in reg && predicateName in reg[skill].resultPredicates
  }

  // internally_resolved_predicates: what a skill establishes by itself, read off
  // the result predicates of the skills it subsumes.
  predicate ResolvesInternally(reg: Registry, skill: string, predicateName: string) {
    && skill in reg
    && reg[skill].resolvesOwnTarget
    && exists sub :: sub in reg[skill].subsumesLocateSkills && Produces(reg, sub, predicateName)
  }
}
