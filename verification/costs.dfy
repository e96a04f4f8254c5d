/** Upgrade, research and ship costs, and the affordability checks. */
module Costs {
  import opened MathUtil
  import opened GameTypes
  import opened Constants

  /** Which branch of the multiplier choice a building falls into. The last
      one is the fallback for a building in none of the three lists. */
  datatype CostClass = MineClass | FacilityClass | StorageClass | DefaultClass

  function CostClassOf(b: BuildingType): CostClass
  {
    if b in MineBuildings then MineClass
    else if b in FacilityBuildings then FacilityClass
    else if b in StorageBuildings then StorageClass
    else DefaultClass
  }

  /** The fallback branch is never taken: every building type is classified. */
  lemma DefaultBranchUnreachable(b: BuildingType)
    ensures CostClassOf(b) != DefaultClass
  {
    ClassificationIsPartition(b);
  }

  /** Each component scaled by num/den and floored. */
  function Scaled(c: Cost, num: nat, den: nat): (r: Cost)
    requires den > 0
    ensures c.NonNegative() ==> r.NonNegative()
  {
    Cost((c.metal * num) / den, (c.crystal * num) / den, (c.deuterium * num) / den)
  }

  function Doubled(c: Cost): Cost
  {
    Cost(2 * c.metal, 2 * c.crystal, 2 * c.deuterium)
  }

  predicate CostLeq(a: Cost, b: Cost)
  {
    a.metal <= b.metal && a.crystal <= b.crystal && a.deuterium <= b.deuterium
  }

  /** The source's multiplier, `Math.pow(1.5 or 2, …)`, as an exact real. */
  function BuildingCostMultiplier(b: BuildingType, targetLevel: int): real
    requires targetLevel >= 1
  {
    match CostClassOf(b)
    case MineClass => RealPow(1.5, targetLevel - 1)
    case FacilityClass => RealPow(2.0, targetLevel - 1)
    case StorageClass => RealPow(2.0, targetLevel)
    case DefaultClass => RealPow(2.0, targetLevel - 1)
  }

  /** `Math.floor(base * multiplier)` per component, the formula as the source writes it. */
  function FlooredProduct(base: Cost, multiplier: real): Cost
  {
    Cost((base.metal as real * multiplier).Floor,
         (base.crystal as real * multiplier).Floor,
         (base.deuterium as real * multiplier).Floor)
  }

  /** Cost of raising a building to `targetLevel`, computed exactly over the integers.
      A target level below 1 is rejected by the source with an exception. */
  function BuildingCost(b: BuildingType, targetLevel: int): (r: Cost)
    requires targetLevel >= 1
    ensures r.NonNegative()
  {
    var base := BuildingBaseCost(b);
    var k := targetLevel - 1;
    BaseCostsNonNegative(b, ENERGY, SMALL_CARGO);
    PowPositive(2, k);
    match CostClassOf(b)
    case MineClass => Scaled(base, Pow(3, k), Pow(2, k))
    case FacilityClass => Scaled(base, Pow(2, k), 1)
    case StorageClass => Scaled(base, Pow(2, k + 1), 1)
    case DefaultClass => Scaled(base, Pow(2, k), 1)
  }

  /** The exact integer form agrees with flooring base·1.5^(L-1), base·2^(L-1) or base·2^L. */
  lemma BuildingCostMatchesFormula(b: BuildingType, targetLevel: int)
    requires targetLevel >= 1
    ensures BuildingCost(b, targetLevel)
            == FlooredProduct(BuildingBaseCost(b), BuildingCostMultiplier(b, targetLevel))
  {
    var base := BuildingBaseCost(b);
    var k: nat := targetLevel - 1;
    if CostClassOf(b) == MineClass {
      assert 1.5 == 3 as real / 2 as real;
      FlooredFractionPower(base, 3, 2, k);
    } else if CostClassOf(b) == StorageClass {
      assert 2.0 == 2 as real / 1 as real;
      FlooredFractionPower(base, 2, 1, k + 1);
      PowOne(k + 1);
    } else {
      assert 2.0 == 2 as real / 1 as real;
      FlooredFractionPower(base, 2, 1, k);
      PowOne(k);
    }
  }

  /** Flooring base·(p/q)^n per component is the exact integer scaling. */
  lemma FlooredFractionPower(base: Cost, p: nat, q: nat, n: nat)
    requires q > 0
    ensures Pow(q, n) > 0
    ensures FlooredProduct(base, RealPow(p as real / q as real, n)) == Scaled(base, Pow(p, n), Pow(q, n))
  {
    RealPowOfFraction(p, q, n);
    FlooredFraction(base, Pow(p, n), Pow(q, n));
  }

  /** Flooring base·(a/b) per component is the integer quotient base·a / b. */
  lemma FlooredFraction(base: Cost, a: nat, b: nat)
    requires b > 0
    ensures FlooredProduct(base, a as real / b as real) == Scaled(base, a, b)
  {
    var m := a as real / b as real;
    assert (base.metal as real * m).Floor == (base.metal * a) / b by {
      ScaleFraction(base.metal, a, b);
      FloorOfQuotient(base.metal * a, b);
    }
    assert (base.crystal as real * m).Floor == (base.crystal * a) / b by {
      ScaleFraction(base.crystal, a, b);
      FloorOfQuotient(base.crystal * a, b);
    }
    assert (base.deuterium as real * m).Floor == (base.deuterium * a) / b by {
      ScaleFraction(base.deuterium, a, b);
      FloorOfQuotient(base.deuterium * a, b);
    }
  }

  lemma {:induction false} PowOne(n: nat)
    ensures Pow(1, n) == 1
  {
    if n > 0 {
      PowOne(n - 1);
    }
  }

  /** At level 1 a mine or facility costs its base cost and a storage building
      twice its base cost (storage uses 2^L, not 2^(L-1)). */
  lemma BuildingCostLevelOne(b: BuildingType)
    ensures CostClassOf(b) == StorageClass ==> BuildingCost(b, 1) == Doubled(BuildingBaseCost(b))
    ensures CostClassOf(b) != StorageClass ==> BuildingCost(b, 1) == BuildingBaseCost(b)
    ensures BuildingCost(METAL_MINE, 1) == Cost(80, 20, 0)
  {
    assert Pow(2, 1) == 2;
  }

  /** Facilities and storage buildings cost exactly twice as much per level. */
  lemma FacilityAndStorageCostsDouble(b: BuildingType, level: int)
    requires level >= 1
    requires CostClassOf(b) == FacilityClass || CostClassOf(b) == StorageClass
    ensures BuildingCost(b, level + 1) == Doubled(BuildingCost(b, level))
  {
    var base := BuildingBaseCost(b);
    var e: nat := if CostClassOf(b) == StorageClass then level else level - 1;
    assert Pow(2, e + 1) == 2 * Pow(2, e);
    DoubledScale(base, Pow(2, e));
  }

  lemma DoubledScale(c: Cost, p: nat)
    ensures Scaled(c, 2 * p, 1) == Doubled(Scaled(c, p, 1))
  {
    assert c.metal * (2 * p) == 2 * (c.metal * p);
    assert c.crystal * (2 * p) == 2 * (c.crystal * p);
    assert c.deuterium * (2 * p) == 2 * (c.deuterium * p);
  }

  /** One mine level never lowers any component: floor(x·3^(k+1)/2^(k+1)) >= floor(x·3^k/2^k). */
  lemma MineStepNonDecreasing(x: nat, k: nat)
    ensures Pow(2, k) > 0 && Pow(2, k + 1) > 0
    ensures (x * Pow(3, k)) / Pow(2, k) <= (x * Pow(3, k + 1)) / Pow(2, k + 1)
  {
    PowPositive(2, k);
    var a, d := x * Pow(3, k), Pow(2, k);
    assert x * Pow(3, k + 1) == 3 * a;
    assert Pow(2, k + 1) == d * 2;
    DivCancel(a, 2, d);
    assert (a * 2) / (d * 2) == a / d;
    DivMonotoneNumerator(a * 2, 3 * a, d * 2);
  }

  lemma BuildingCostStep(b: BuildingType, level: int)
    requires level >= 1
    ensures CostLeq(BuildingCost(b, level), BuildingCost(b, level + 1))
  {
    DefaultBranchUnreachable(b);
    var base := BuildingBaseCost(b);
    BaseCostsNonNegative(b, ENERGY, SMALL_CARGO);
    if CostClassOf(b) == MineClass {
      var k: nat := level - 1;
      MineStepNonDecreasing(base.metal, k);
      MineStepNonDecreasing(base.crystal, k);
      MineStepNonDecreasing(base.deuterium, k);
    } else {
      FacilityAndStorageCostsDouble(b, level);
    }
  }

  /** Every building cost component is non-decreasing in the target level. */
  lemma {:induction false} BuildingCostMonotone(b: BuildingType, l1: int, l2: int)
    requires 1 <= l1 <= l2
    ensures CostLeq(BuildingCost(b, l1), BuildingCost(b, l2))
  {
    if l1 < l2 {
      BuildingCostMonotone(b, l1, l2 - 1);
      BuildingCostStep(b, l2 - 1);
    }
  }

  /** Cost of researching `techType` to `targetLevel`: base·2^(L-1). */
  function ResearchCost(t: TechType, targetLevel: int): (r: Cost)
    requires targetLevel >= 1
    ensures r.NonNegative()
  {
    Scaled(ResearchBaseCost(t), Pow(2, targetLevel - 1), 1)
  }

  /** The exact integer form agrees with flooring base·2^(L-1). */
  lemma ResearchCostMatchesFormula(t: TechType, targetLevel: int)
    requires targetLevel >= 1
    ensures ResearchCost(t, targetLevel)
            == FlooredProduct(ResearchBaseCost(t), RealPow(2.0, targetLevel - 1))
  {
    var n: nat := targetLevel - 1;
    assert 2.0 == 2 as real / 1 as real;
    FlooredFractionPower(ResearchBaseCost(t), 2, 1, n);
    PowOne(n);
  }

  /** Research cost doubles exactly from one level to the next, and level 1 is the base. */
  lemma ResearchCostDoubles(t: TechType, level: int)
    requires level >= 1
    ensures ResearchCost(t, 1) == ResearchBaseCost(t)
    ensures ResearchCost(t, level + 1) == Doubled(ResearchCost(t, level))
  {
    assert Pow(2, level) == 2 * Pow(2, level - 1);
    DoubledScale(ResearchBaseCost(t), Pow(2, level - 1));
  }

  /** Every research cost component is non-decreasing in the target level. */
  lemma {:induction false} ResearchCostMonotone(t: TechType, l1: int, l2: int)
    requires 1 <= l1 <= l2
    ensures CostLeq(ResearchCost(t, l1), ResearchCost(t, l2))
  {
    if l1 < l2 {
      ResearchCostMonotone(t, l1, l2 - 1);
      ResearchCostDoubles(t, l2 - 1);
    }
  }

  /** The unit cost of a ship; it does not depend on any level. */
  function ShipCost(s: ShipType): (r: Cost)
    ensures r.NonNegative()
    ensures r.metal + r.crystal > 0
  {
    ShipUnitCost(s)
  }

  /** Cost of a batch: the unit cost times the quantity. A quantity below 1
      is rejected by the source with an exception. */
  function ShipBatchCost(s: ShipType, quantity: int): (r: Cost)
    requires quantity >= 1
    ensures r.NonNegative()
    ensures CostLeq(ShipCost(s), r)
  {
    var u := ShipCost(s);
    Cost(u.metal * quantity, u.crystal * quantity, u.deuterium * quantity)
  }

  /** A batch of one is one ship, and batches add up. */
  lemma ShipBatchCostAdditive(s: ShipType, q1: int, q2: int)
    requires q1 >= 1 && q2 >= 1
    ensures ShipBatchCost(s, 1) == ShipCost(s)
    ensures ShipBatchCost(s, q1 + q2) == AddCosts(ShipBatchCost(s, q1), ShipBatchCost(s, q2))
  {
    var u := ShipCost(s);
    assert u.metal * (q1 + q2) == u.metal * q1 + u.metal * q2;
    assert u.crystal * (q1 + q2) == u.crystal * q1 + u.crystal * q2;
    assert u.deuterium * (q1 + q2) == u.deuterium * q1 + u.deuterium * q2;
  }

  function AddCosts(a: Cost, b: Cost): Cost
  {
    Cost(a.metal + b.metal, a.crystal + b.crystal, a.deuterium + b.deuterium)
  }

  function AddAmounts(a: Resources, b: Resources): Resources
  {
    Resources(a.metal + b.metal, a.crystal + b.crystal, a.deuterium + b.deuterium)
  }

  predicate NoDeficit(r: Resources)
  {
    r.metal >= 0.0 && r.crystal >= 0.0 && r.deuterium >= 0.0
  }

  /** Component-wise comparison of the available amounts against a cost. */
  predicate HasEnoughResources(available: Resources, required: Resources)
  {
    available.metal >= required.metal
    && available.crystal >= required.crystal
    && available.deuterium >= required.deuterium
  }

  /** Component-wise difference; a component may go negative. */
  function SubtractResources(available: Resources, cost: Resources): (r: Resources)
    ensures AddAmounts(r, cost) == available
  {
    Resources(available.metal - cost.metal,
              available.crystal - cost.crystal,
              available.deuterium - cost.deuterium)
  }

  /** The available amounts suffice exactly when subtracting leaves no deficit,
      and nothing stops the subtraction from leaving one. */
  lemma HasEnoughIffNoDeficit(available: Resources, cost: Resources)
    ensures HasEnoughResources(available, cost) <==> NoDeficit(SubtractResources(available, cost))
    ensures !HasEnoughResources(available, cost) ==> !NoDeficit(SubtractResources(available, cost))
  {
  }
}
