/** Validation of starting a research: the player's queue slot, the lab
    level, the research prerequisites and the cost of the next level. */
module ResearchValidation {
  import opened GameTypes
  import opened Constants
  import opened Costs
  import opened Validation

  /** The lab shortfall, if any, followed by the research shortfalls. */
  function MissingForResearch(t: TechType, labLevel: nat, researchLevels: map<TechType, nat>): seq<MissingPrerequisite>
  {
    LevelShortfall(LabPrereq, "RESEARCH_LAB", ResearchLabLevel(t), labLevel)
    + Shortfalls(ResearchPrereqResearch(t), researchLevels, ResearchPrereq, TechTypeName)
  }

  /** Price of the next level of `t`. */
  function NextResearchCost(t: TechType, researchLevels: map<TechType, nat>): Resources
  {
    ResearchCost(t, LevelOf(researchLevels, t) + 1).AsResources()
  }

  /** The verdict on researching `t`: queue, then prerequisites (reported
      as a lab problem whenever the lab is among them), then resources. */
  function ResearchVerdict(t: TechType, labLevel: nat, researchLevels: map<TechType, nat>,
                           resources: Resources, hasActiveQueue: bool): ValidationResult
  {
    if hasActiveQueue then Invalid(QUEUE_ACTIVE, NoDetails)
    else
      var missing := MissingForResearch(t, labLevel, researchLevels);
      if |missing| > 0 then
        Invalid(if AnyOfKind(missing, LabPrereq) then LAB_LEVEL_INSUFFICIENT else PREREQUISITES_NOT_MET,
                MissingList(missing))
      else
        var cost := NextResearchCost(t, researchLevels);
        if !HasEnoughResources(resources, cost) then Invalid(INSUFFICIENT_RESOURCES, ResourceShortfall(cost, resources))
        else Valid
  }

  /** What the verdict means: valid exactly when no queue is active, the lab
      is high enough, every research prerequisite is met and the next level
      is affordable; a short lab is reported as such even when research is
      also missing; research shortfalls alone give PREREQUISITES_NOT_MET. */
  lemma ResearchVerdictMeaning(t: TechType, labLevel: nat, researchLevels: map<TechType, nat>,
                               resources: Resources, hasActiveQueue: bool)
    ensures var v := ResearchVerdict(t, labLevel, researchLevels, resources, hasActiveQueue);
            v.Valid? <==> !hasActiveQueue && labLevel >= ResearchLabLevel(t)
                          && AllRequirementsMet(ResearchPrereqResearch(t), researchLevels)
                          && HasEnoughResources(resources, NextResearchCost(t, researchLevels))
    ensures hasActiveQueue ==> ResearchVerdict(t, labLevel, researchLevels, resources, hasActiveQueue) == Invalid(QUEUE_ACTIVE, NoDetails)
    ensures var v := ResearchVerdict(t, labLevel, researchLevels, resources, hasActiveQueue);
            v.Invalid? && v.code == LAB_LEVEL_INSUFFICIENT <==> !hasActiveQueue && labLevel < ResearchLabLevel(t)
    ensures var v := ResearchVerdict(t, labLevel, researchLevels, resources, hasActiveQueue);
            v.Invalid? && v.code == PREREQUISITES_NOT_MET <==>
              !hasActiveQueue && labLevel >= ResearchLabLevel(t)
              && !AllRequirementsMet(ResearchPrereqResearch(t), researchLevels)
    ensures var v := ResearchVerdict(t, labLevel, researchLevels, resources, hasActiveQueue);
            v.Invalid? && v.code == INSUFFICIENT_RESOURCES <==>
              !hasActiveQueue && labLevel >= ResearchLabLevel(t)
              && AllRequirementsMet(ResearchPrereqResearch(t), researchLevels)
              && !HasEnoughResources(resources, NextResearchCost(t, researchLevels))
    ensures var v := ResearchVerdict(t, labLevel, researchLevels, resources, hasActiveQueue);
            v.Invalid? && v.code == LAB_LEVEL_INSUFFICIENT ==>
              v.details.MissingList? && |v.details.missing| > 0
              && v.details.missing[0] == MissingPrerequisite(LabPrereq, "RESEARCH_LAB", ResearchLabLevel(t), labLevel)
    ensures var v := ResearchVerdict(t, labLevel, researchLevels, resources, hasActiveQueue);
            v.Invalid? && v.code == LAB_LEVEL_INSUFFICIENT ==>
              forall i :: 0 <= i < |ResearchPrereqResearch(t)| && !RequirementMet(researchLevels, ResearchPrereqResearch(t)[i]) ==>
                ShortfallOf(ResearchPrereqResearch(t)[i], researchLevels, ResearchPrereq, TechTypeName) in v.details.missing
    ensures var v := ResearchVerdict(t, labLevel, researchLevels, resources, hasActiveQueue);
            v.Invalid? ==> v.code in {QUEUE_ACTIVE, LAB_LEVEL_INSUFFICIENT, PREREQUISITES_NOT_MET, INSUFFICIENT_RESOURCES}
  {
    LeadingKindDecides(LabPrereq, "RESEARCH_LAB", ResearchLabLevel(t), labLevel,
                       ResearchPrereqResearch(t), researchLevels, ResearchPrereq, TechTypeName);
    var lead := LevelShortfall(LabPrereq, "RESEARCH_LAB", ResearchLabLevel(t), labLevel);
    var rs := Shortfalls(ResearchPrereqResearch(t), researchLevels, ResearchPrereq, TechTypeName);
    assert |lead + rs| > 0 <==> lead != [] || rs != [];
  }

  /** The lab check followed by the research push loop. */
  method CollectResearchShortfalls(t: TechType, labLevel: nat, researchLevels: map<TechType, nat>)
    returns (missing: seq<MissingPrerequisite>)
    ensures missing == MissingForResearch(t, labLevel, researchLevels)
  {
    missing := [];
    if labLevel < ResearchLabLevel(t) {
      missing := missing + [MissingPrerequisite(LabPrereq, "RESEARCH_LAB", ResearchLabLevel(t), labLevel)];
    }
    missing := AppendShortfalls(missing, ResearchPrereqResearch(t), researchLevels, ResearchPrereq, TechTypeName);
  }

  /** The validator: queue, shortfalls, then the cost of the next level. */
  method ValidateResearch(t: TechType, labLevel: nat, researchLevels: map<TechType, nat>,
                          resources: Resources, hasActiveQueue: bool) returns (r: ValidationResult)
    ensures r == ResearchVerdict(t, labLevel, researchLevels, resources, hasActiveQueue)
  {
    if hasActiveQueue {
      return Invalid(QUEUE_ACTIVE, NoDetails);
    }
    var missing := CollectResearchShortfalls(t, labLevel, researchLevels);
    if |missing| > 0 {
      var hasLabIssue := AnyOfKind(missing, LabPrereq);
      return Invalid(if hasLabIssue then LAB_LEVEL_INSUFFICIENT else PREREQUISITES_NOT_MET, MissingList(missing));
    }
    var currentLevel := LevelOf(researchLevels, t);
    var cost := ResearchCost(t, currentLevel + 1).AsResources();
    if !HasEnoughResources(resources, cost) {
      return Invalid(INSUFFICIENT_RESOURCES, ResourceShortfall(cost, resources));
    }
    return Valid;
  }

  /** The boolean twin: lab first, then the early-return research scan; its
      answer is always the validator's verdict reduced to a reason. */
  method CanResearch(t: TechType, labLevel: nat, researchLevels: map<TechType, nat>,
                     resources: Resources, hasActiveQueue: bool) returns (r: CheckResult)
    ensures r == ReasonFor(ResearchVerdict(t, labLevel, researchLevels, resources, hasActiveQueue))
    ensures r.Allowed? <==> !hasActiveQueue && labLevel >= ResearchLabLevel(t)
                            && AllRequirementsMet(ResearchPrereqResearch(t), researchLevels)
                            && HasEnoughResources(resources, NextResearchCost(t, researchLevels))
  {
    ResearchVerdictMeaning(t, labLevel, researchLevels, resources, hasActiveQueue);
    if hasActiveQueue {
      return Denied("queue_active");
    }
    if labLevel < ResearchLabLevel(t) {
      return Denied("lab_level");
    }
    var researchMet := CheckAllMet(ResearchPrereqResearch(t), researchLevels);
    if !researchMet {
      return Denied("prerequisites");
    }
    var currentLevel := LevelOf(researchLevels, t);
    var cost := ResearchCost(t, currentLevel + 1).AsResources();
    if !HasEnoughResources(resources, cost) {
      return Denied("resources");
    }
    return Allowed;
  }
}
