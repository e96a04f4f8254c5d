/** Validation of a ship build order: the quantity, the planet's ship
    queue slot, the shipyard level, the research prerequisites and the
    cost of the whole batch. */
module ShipValidation {
  import opened GameTypes
  import opened Constants
  import opened Costs
  import opened Validation

  const MIN_QUANTITY: int := 1
  const MAX_QUANTITY: int := 999

  /** The requested quantity is a whole number from 1 to 999. The quantity
      arrives as an arbitrary number, so fractions are representable. */
  predicate ValidQuantity(quantity: real)
  {
    quantity.Floor as real == quantity && MIN_QUANTITY as real <= quantity <= MAX_QUANTITY as real
  }

  /** The shipyard shortfall, if any, followed by the research shortfalls. */
  function MissingForShip(s: ShipType, shipyardLevel: nat, researchLevels: map<TechType, nat>): seq<MissingPrerequisite>
  {
    LevelShortfall(ShipyardPrereq, "SHIPYARD", ShipShipyardLevel(s), shipyardLevel)
    + Shortfalls(ShipPrereqResearch(s), researchLevels, ResearchPrereq, TechTypeName)
  }

  /** Price of the whole batch. */
  function BatchPrice(s: ShipType, quantity: real): Resources
    requires ValidQuantity(quantity)
  {
    ShipBatchCost(s, quantity.Floor).AsResources()
  }

  /** The verdict on building `quantity` ships of type `s`: quantity, queue,
      prerequisites (a shipyard problem whenever the shipyard is among
      them), then the batch cost. */
  function ShipBuildVerdict(s: ShipType, quantity: real, shipyardLevel: nat, researchLevels: map<TechType, nat>,
                            resources: Resources, hasActiveQueue: bool): ValidationResult
  {
    if !ValidQuantity(quantity) then Invalid(INVALID_QUANTITY, NoDetails)
    else if hasActiveQueue then Invalid(QUEUE_ACTIVE, NoDetails)
    else
      var missing := MissingForShip(s, shipyardLevel, researchLevels);
      if |missing| > 0 then
        Invalid(if AnyOfKind(missing, ShipyardPrereq) then SHIPYARD_LEVEL_INSUFFICIENT else PREREQUISITES_NOT_MET,
                MissingList(missing))
      else
        var cost := BatchPrice(s, quantity);
        if !HasEnoughResources(resources, cost) then Invalid(INSUFFICIENT_RESOURCES, ResourceShortfall(cost, resources))
        else Valid
  }

  /** What the verdict means: valid exactly when the quantity is a whole
      number in 1..999, no queue is active, the shipyard is high enough,
      every research prerequisite is met and the batch is affordable; a bad
      quantity is reported before an active queue, and a short shipyard is
      reported as such even when research is also missing. */
  lemma ShipBuildVerdictMeaning(s: ShipType, quantity: real, shipyardLevel: nat, researchLevels: map<TechType, nat>,
                                resources: Resources, hasActiveQueue: bool)
    ensures var v := ShipBuildVerdict(s, quantity, shipyardLevel, researchLevels, resources, hasActiveQueue);
            v.Valid? <==> ValidQuantity(quantity) && !hasActiveQueue && shipyardLevel >= ShipShipyardLevel(s)
                          && AllRequirementsMet(ShipPrereqResearch(s), researchLevels)
                          && HasEnoughResources(resources, BatchPrice(s, quantity))
    ensures var v := ShipBuildVerdict(s, quantity, shipyardLevel, researchLevels, resources, hasActiveQueue);
            v.Invalid? && v.code == INVALID_QUANTITY <==> !ValidQuantity(quantity)
    ensures var v := ShipBuildVerdict(s, quantity, shipyardLevel, researchLevels, resources, hasActiveQueue);
            v.Invalid? && v.code == QUEUE_ACTIVE <==> ValidQuantity(quantity) && hasActiveQueue
    ensures var v := ShipBuildVerdict(s, quantity, shipyardLevel, researchLevels, resources, hasActiveQueue);
            v.Invalid? && v.code == SHIPYARD_LEVEL_INSUFFICIENT <==>
              ValidQuantity(quantity) && !hasActiveQueue && shipyardLevel < ShipShipyardLevel(s)
    ensures var v := ShipBuildVerdict(s, quantity, shipyardLevel, researchLevels, resources, hasActiveQueue);
            v.Invalid? && v.code == PREREQUISITES_NOT_MET <==>
              ValidQuantity(quantity) && !hasActiveQueue && shipyardLevel >= ShipShipyardLevel(s)
              && !AllRequirementsMet(ShipPrereqResearch(s), researchLevels)
    ensures var v := ShipBuildVerdict(s, quantity, shipyardLevel, researchLevels, resources, hasActiveQueue);
            v.Invalid? && v.code == INSUFFICIENT_RESOURCES ==>
              ValidQuantity(quantity) && v.details == ResourceShortfall(BatchPrice(s, quantity), resources)
    ensures var v := ShipBuildVerdict(s, quantity, shipyardLevel, researchLevels, resources, hasActiveQueue);
            v.Invalid? ==> v.code != LAB_LEVEL_INSUFFICIENT
  {
    LeadingKindDecides(ShipyardPrereq, "SHIPYARD", ShipShipyardLevel(s), shipyardLevel,
                       ShipPrereqResearch(s), researchLevels, ResearchPrereq, TechTypeName);
    var lead := LevelShortfall(ShipyardPrereq, "SHIPYARD", ShipShipyardLevel(s), shipyardLevel);
    var rs := Shortfalls(ShipPrereqResearch(s), researchLevels, ResearchPrereq, TechTypeName);
    assert |lead + rs| > 0 <==> lead != [] || rs != [];
  }

  /** A fractional quantity is refused whatever else holds. */
  lemma FractionalQuantityRefused(s: ShipType, quantity: real, shipyardLevel: nat,
                                  researchLevels: map<TechType, nat>, resources: Resources, hasActiveQueue: bool)
    requires quantity.Floor as real != quantity
    ensures ShipBuildVerdict(s, quantity, shipyardLevel, researchLevels, resources, hasActiveQueue)
            == Invalid(INVALID_QUANTITY, NoDetails)
  {
  }

  /** The shipyard check followed by the research push loop. */
  method CollectShipShortfalls(s: ShipType, shipyardLevel: nat, researchLevels: map<TechType, nat>)
    returns (missing: seq<MissingPrerequisite>)
    ensures missing == MissingForShip(s, shipyardLevel, researchLevels)
  {
    missing := [];
    if shipyardLevel < ShipShipyardLevel(s) {
      missing := missing + [MissingPrerequisite(ShipyardPrereq, "SHIPYARD", ShipShipyardLevel(s), shipyardLevel)];
    }
    missing := AppendShortfalls(missing, ShipPrereqResearch(s), researchLevels, ResearchPrereq, TechTypeName);
  }

  /** The validator: quantity, queue, shortfalls, then the batch cost. */
  method ValidateShipBuild(s: ShipType, quantity: real, shipyardLevel: nat, researchLevels: map<TechType, nat>,
                           resources: Resources, hasActiveQueue: bool) returns (r: ValidationResult)
    ensures r == ShipBuildVerdict(s, quantity, shipyardLevel, researchLevels, resources, hasActiveQueue)
  {
    if !(quantity.Floor as real == quantity) || quantity < 1.0 || quantity > 999.0 {
      return Invalid(INVALID_QUANTITY, NoDetails);
    }
    assert ValidQuantity(quantity);
    if hasActiveQueue {
      return Invalid(QUEUE_ACTIVE, NoDetails);
    }
    var missing := CollectShipShortfalls(s, shipyardLevel, researchLevels);
    if |missing| > 0 {
      var hasShipyardIssue := AnyOfKind(missing, ShipyardPrereq);
      return Invalid(if hasShipyardIssue then SHIPYARD_LEVEL_INSUFFICIENT else PREREQUISITES_NOT_MET, MissingList(missing));
    }
    var batchCost := ShipBatchCost(s, quantity.Floor).AsResources();
    assert batchCost == BatchPrice(s, quantity);
    if !HasEnoughResources(resources, batchCost) {
      return Invalid(INSUFFICIENT_RESOURCES, ResourceShortfall(batchCost, resources));
    }
    return Valid;
  }

  /** The boolean twin; its answer is always the validator's verdict
      reduced to a reason. */
  method CanBuildShip(s: ShipType, quantity: real, shipyardLevel: nat, researchLevels: map<TechType, nat>,
                      resources: Resources, hasActiveQueue: bool) returns (r: CheckResult)
    ensures r == ReasonFor(ShipBuildVerdict(s, quantity, shipyardLevel, researchLevels, resources, hasActiveQueue))
    ensures r.Allowed? <==> ValidQuantity(quantity) && !hasActiveQueue && shipyardLevel >= ShipShipyardLevel(s)
                            && AllRequirementsMet(ShipPrereqResearch(s), researchLevels)
                            && HasEnoughResources(resources, BatchPrice(s, quantity))
  {
    ShipBuildVerdictMeaning(s, quantity, shipyardLevel, researchLevels, resources, hasActiveQueue);
    if !(quantity.Floor as real == quantity) || quantity < 1.0 || quantity > 999.0 {
      return Denied("invalid_quantity");
    }
    if hasActiveQueue {
      return Denied("queue_active");
    }
    if shipyardLevel < ShipShipyardLevel(s) {
      return Denied("shipyard_level");
    }
    var researchMet := CheckAllMet(ShipPrereqResearch(s), researchLevels);
    if !researchMet {
      return Denied("prerequisites");
    }
    var batchCost := ShipBatchCost(s, quantity.Floor).AsResources();
    if !HasEnoughResources(resources, batchCost) {
      return Denied("resources");
    }
    return Allowed;
  }
}
