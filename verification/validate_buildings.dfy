/** Validation of a building upgrade: the queue slot, the building and
    research prerequisites, and the cost of the next level. */
module BuildingValidation {
  import opened GameTypes
  import opened Constants
  import opened Costs
  import opened Validation

  /** Building shortfalls first, then research shortfalls, each in table order. */
  function MissingForBuilding(b: BuildingType, buildingLevels: map<BuildingType, nat>,
                              researchLevels: map<TechType, nat>): seq<MissingPrerequisite>
  {
    Shortfalls(BuildingPrereqBuildings(b), buildingLevels, BuildingPrereq, BuildingTypeName)
    + Shortfalls(BuildingPrereqResearch(b), researchLevels, ResearchPrereq, TechTypeName)
  }

  predicate BuildingPrerequisitesMet(b: BuildingType, buildingLevels: map<BuildingType, nat>,
                                     researchLevels: map<TechType, nat>)
  {
    AllRequirementsMet(BuildingPrereqBuildings(b), buildingLevels)
    && AllRequirementsMet(BuildingPrereqResearch(b), researchLevels)
  }

  /** Price of the next level: the cost of the current level plus one. */
  function UpgradeCost(b: BuildingType, buildingLevels: map<BuildingType, nat>): Resources
  {
    BuildingCost(b, LevelOf(buildingLevels, b) + 1).AsResources()
  }

  /** The verdict on upgrading `b`, checks in order: queue, prerequisites, resources. */
  function BuildingUpgradeVerdict(b: BuildingType, buildingLevels: map<BuildingType, nat>,
                                  researchLevels: map<TechType, nat>, resources: Resources,
                                  hasActiveQueue: bool): ValidationResult
  {
    if hasActiveQueue then Invalid(QUEUE_ACTIVE, NoDetails)
    else
      var missing := MissingForBuilding(b, buildingLevels, researchLevels);
      if |missing| > 0 then Invalid(PREREQUISITES_NOT_MET, MissingList(missing))
      else
        var cost := UpgradeCost(b, buildingLevels);
        if !HasEnoughResources(resources, cost) then Invalid(INSUFFICIENT_RESOURCES, ResourceShortfall(cost, resources))
        else Valid
  }

  /** What the verdict means: valid exactly when no queue is active, every
      prerequisite is met and the next level is affordable; an active queue
      wins over everything; unmet prerequisites win over resources and are
      all listed; a resource rejection carries the cost and the amounts. */
  lemma BuildingUpgradeVerdictMeaning(b: BuildingType, buildingLevels: map<BuildingType, nat>,
                                      researchLevels: map<TechType, nat>, resources: Resources,
                                      hasActiveQueue: bool)
    ensures var v := BuildingUpgradeVerdict(b, buildingLevels, researchLevels, resources, hasActiveQueue);
            v.Valid? <==> !hasActiveQueue && BuildingPrerequisitesMet(b, buildingLevels, researchLevels)
                          && HasEnoughResources(resources, UpgradeCost(b, buildingLevels))
    ensures hasActiveQueue ==>
            BuildingUpgradeVerdict(b, buildingLevels, researchLevels, resources, hasActiveQueue) == Invalid(QUEUE_ACTIVE, NoDetails)
    ensures !hasActiveQueue && !BuildingPrerequisitesMet(b, buildingLevels, researchLevels) ==>
            var v := BuildingUpgradeVerdict(b, buildingLevels, researchLevels, resources, hasActiveQueue);
            && v.Invalid? && v.code == PREREQUISITES_NOT_MET && v.details.MissingList?
            && (forall i :: 0 <= i < |BuildingPrereqBuildings(b)| && !RequirementMet(buildingLevels, BuildingPrereqBuildings(b)[i]) ==>
                  ShortfallOf(BuildingPrereqBuildings(b)[i], buildingLevels, BuildingPrereq, BuildingTypeName) in v.details.missing)
            && (forall i :: 0 <= i < |BuildingPrereqResearch(b)| && !RequirementMet(researchLevels, BuildingPrereqResearch(b)[i]) ==>
                  ShortfallOf(BuildingPrereqResearch(b)[i], researchLevels, ResearchPrereq, TechTypeName) in v.details.missing)
    ensures var v := BuildingUpgradeVerdict(b, buildingLevels, researchLevels, resources, hasActiveQueue);
            v.Invalid? && v.code == INSUFFICIENT_RESOURCES <==>
              !hasActiveQueue && BuildingPrerequisitesMet(b, buildingLevels, researchLevels)
              && !HasEnoughResources(resources, UpgradeCost(b, buildingLevels))
    ensures var v := BuildingUpgradeVerdict(b, buildingLevels, researchLevels, resources, hasActiveQueue);
            v.Invalid? && v.code == INSUFFICIENT_RESOURCES ==>
              v.details == ResourceShortfall(UpgradeCost(b, buildingLevels), resources)
    ensures var v := BuildingUpgradeVerdict(b, buildingLevels, researchLevels, resources, hasActiveQueue);
            v.Invalid? ==> v.code in {QUEUE_ACTIVE, PREREQUISITES_NOT_MET, INSUFFICIENT_RESOURCES}
  {
    var bs := Shortfalls(BuildingPrereqBuildings(b), buildingLevels, BuildingPrereq, BuildingTypeName);
    var rs := Shortfalls(BuildingPrereqResearch(b), researchLevels, ResearchPrereq, TechTypeName);
    assert |bs + rs| > 0 <==> bs != [] || rs != [];
    assert forall m :: m in bs ==> m in bs + rs;
    assert forall m :: m in rs ==> m in bs + rs;
  }

  /** The two push loops: building shortfalls, then research shortfalls. */
  method CollectBuildingShortfalls(b: BuildingType, buildingLevels: map<BuildingType, nat>,
                                   researchLevels: map<TechType, nat>) returns (missing: seq<MissingPrerequisite>)
    ensures missing == MissingForBuilding(b, buildingLevels, researchLevels)
  {
    missing := [];
    missing := AppendShortfalls(missing, BuildingPrereqBuildings(b), buildingLevels, BuildingPrereq, BuildingTypeName);
    missing := AppendShortfalls(missing, BuildingPrereqResearch(b), researchLevels, ResearchPrereq, TechTypeName);
  }

  /** The validator: queue, shortfalls, then the cost of the next level. */
  method ValidateBuildingUpgrade(b: BuildingType, buildingLevels: map<BuildingType, nat>,
                                 researchLevels: map<TechType, nat>, resources: Resources,
                                 hasActiveQueue: bool) returns (r: ValidationResult)
    ensures r == BuildingUpgradeVerdict(b, buildingLevels, researchLevels, resources, hasActiveQueue)
  {
    if hasActiveQueue {
      return Invalid(QUEUE_ACTIVE, NoDetails);
    }
    var missing := CollectBuildingShortfalls(b, buildingLevels, researchLevels);
    if |missing| > 0 {
      return Invalid(PREREQUISITES_NOT_MET, MissingList(missing));
    }
    var currentLevel := LevelOf(buildingLevels, b);
    var cost := BuildingCost(b, currentLevel + 1).AsResources();
    if !HasEnoughResources(resources, cost) {
      return Invalid(INSUFFICIENT_RESOURCES, ResourceShortfall(cost, resources));
    }
    return Valid;
  }

  /** The boolean twin: it stops at the first unmet prerequisite, and its
      answer is always the validator's verdict reduced to a reason. */
  method CanUpgradeBuilding(b: BuildingType, buildingLevels: map<BuildingType, nat>,
                            researchLevels: map<TechType, nat>, resources: Resources,
                            hasActiveQueue: bool) returns (r: CheckResult)
    ensures r == ReasonFor(BuildingUpgradeVerdict(b, buildingLevels, researchLevels, resources, hasActiveQueue))
    ensures r.Allowed? <==> !hasActiveQueue && BuildingPrerequisitesMet(b, buildingLevels, researchLevels)
                            && HasEnoughResources(resources, UpgradeCost(b, buildingLevels))
  {
    BuildingUpgradeVerdictMeaning(b, buildingLevels, researchLevels, resources, hasActiveQueue);
    if hasActiveQueue {
      return Denied("queue_active");
    }
    var buildingsMet := CheckAllMet(BuildingPrereqBuildings(b), buildingLevels);
    if !buildingsMet {
      return Denied("prerequisites");
    }
    var researchMet := CheckAllMet(BuildingPrereqResearch(b), researchLevels);
    if !researchMet {
      return Denied("prerequisites");
    }
    var currentLevel := LevelOf(buildingLevels, b);
    var cost := BuildingCost(b, currentLevel + 1).AsResources();
    if !HasEnoughResources(resources, cost) {
      return Denied("resources");
    }
    return Allowed;
  }
}
