/** Energy consumed by the three mines, energy produced by the solar plant,
    and the energy factor that throttles production. */
module Energy {
  import opened MathUtil
  import opened Constants

  /** floor(base · level · 1.1^level) for a positive level, 0 otherwise: the
      growth curve shared by consumption, solar output and mine production. */
  function Growth(base: int, level: int): int
  {
    if level <= 0 then 0
    else (base as real * level as real * RealPow(1.1, level)).Floor
  }

  /** For a positive level the growth curve is the integer quotient base·L·11^L / 10^L. */
  lemma GrowthIntegerForm(base: int, level: int)
    requires level > 0
    ensures Pow(10, level) > 0
    ensures Growth(base, level) == (base * level * Pow(11, level)) / Pow(10, level)
  {
    assert 1.1 == 11 as real / 10 as real;
    CastMul(base, level);
    FloorOfScaledPower(base * level, 11, 10, level);
  }

  /** x·P / Q is at least x when Q <= P. */
  lemma QuotientAtLeast(x: nat, p: nat, q: nat)
    requires 0 < q <= p
    ensures (x * p) / q >= x
  {
    MulMonotone(q, p, x);
    DivUnique(x * q, q, x, 0);
    DivMonotoneNumerator(x * q, x * p, q);
  }

  lemma {:induction false} PowGrowsFaster(n: nat)
    ensures 0 < Pow(10, n) <= Pow(11, n)
  {
    if n > 0 {
      PowGrowsFaster(n - 1);
      MulMonotone(Pow(10, n - 1), Pow(11, n - 1), 10);
    }
  }

  /** With a non-negative base the curve is never below base·level, nor below 0. */
  lemma GrowthLowerBound(base: int, level: int)
    requires base >= 0
    ensures level > 0 ==> Growth(base, level) >= base * level
    ensures Growth(base, level) >= 0
  {
    if level > 0 {
      GrowthIntegerForm(base, level);
      PowGrowsFaster(level);
      QuotientAtLeast(base * level, Pow(11, level), Pow(10, level));
      assert base * level * Pow(11, level) == (base * level) * Pow(11, level);
    }
  }

  function MetalMineEnergyConsumption(level: int): (r: int)
    ensures level <= 0 ==> r == 0
    ensures level > 0 ==> r >= METAL_MINE_CONSUMPTION_BASE * level
  {
    GrowthLowerBound(METAL_MINE_CONSUMPTION_BASE, level);
    Growth(METAL_MINE_CONSUMPTION_BASE, level)
  }

  function CrystalMineEnergyConsumption(level: int): (r: int)
    ensures level <= 0 ==> r == 0
    ensures level > 0 ==> r >= CRYSTAL_MINE_CONSUMPTION_BASE * level
  {
    GrowthLowerBound(CRYSTAL_MINE_CONSUMPTION_BASE, level);
    Growth(CRYSTAL_MINE_CONSUMPTION_BASE, level)
  }

  function DeuteriumSynthesizerEnergyConsumption(level: int): (r: int)
    ensures level <= 0 ==> r == 0
    ensures level > 0 ==> r >= DEUTERIUM_SYNTHESIZER_CONSUMPTION_BASE * level
  {
    GrowthLowerBound(DEUTERIUM_SYNTHESIZER_CONSUMPTION_BASE, level);
    Growth(DEUTERIUM_SYNTHESIZER_CONSUMPTION_BASE, level)
  }

  /** Total consumption of the three mines: never negative, and positive as
      soon as one mine is built. */
  function TotalEnergyConsumption(metalMineLevel: int, crystalMineLevel: int, deuteriumSynthLevel: int): (r: int)
    ensures r >= 0
    ensures metalMineLevel > 0 || crystalMineLevel > 0 || deuteriumSynthLevel > 0 ==> r > 0
  {
    MetalMineEnergyConsumption(metalMineLevel)
    + CrystalMineEnergyConsumption(crystalMineLevel)
    + DeuteriumSynthesizerEnergyConsumption(deuteriumSynthLevel)
  }

  /** Consumption is zero exactly when no mine is built. */
  lemma NoConsumptionWithoutMines(metalMineLevel: int, crystalMineLevel: int, deuteriumSynthLevel: int)
    ensures TotalEnergyConsumption(metalMineLevel, crystalMineLevel, deuteriumSynthLevel) == 0
            <==> metalMineLevel <= 0 && crystalMineLevel <= 0 && deuteriumSynthLevel <= 0
  {
  }

  /** min(1, production / consumption), or 1 when nothing consumes energy:
      never above 1, and never negative while production is not. */
  function EnergyFactor(production: int, consumption: int): (f: real)
    ensures f <= 1.0
    ensures production >= 0 ==> f >= 0.0
  {
    if consumption <= 0 then 1.0
    else MinReal(1.0, production as real / consumption as real)
  }

  /** The factor is 1 when consumption is covered (or absent), and otherwise
      exactly the fraction of the consumption that production covers. */
  lemma EnergyFactorMeaning(production: int, consumption: int)
    ensures consumption <= 0 ==> EnergyFactor(production, consumption) == 1.0
    ensures consumption > 0 && production >= consumption ==> EnergyFactor(production, consumption) == 1.0
    ensures consumption > 0 && production < consumption ==>
              EnergyFactor(production, consumption) * consumption as real == production as real
    ensures EnergyFactor(production, consumption) == 1.0 <==> production >= consumption || consumption <= 0
  {
  }

  function SolarPlantEnergy(level: int): (r: int)
    ensures level <= 0 ==> r == 0
    ensures level > 0 ==> r >= SOLAR_BASE * level
  {
    GrowthLowerBound(SOLAR_BASE, level);
    Growth(SOLAR_BASE, level)
  }

  datatype EnergyBalance = EnergyBalance(production: int, consumption: int, factor: real)

  /** The planet's energy balance; its factor is computed from its own two fields. */
  function CalculateEnergyBalance(metalMineLevel: int, crystalMineLevel: int,
                                  deuteriumSynthLevel: int, solarPlantLevel: int): (r: EnergyBalance)
    ensures r.factor == EnergyFactor(r.production, r.consumption)
    ensures 0.0 <= r.factor <= 1.0
    ensures r.factor == 1.0 <==> r.production >= r.consumption
  {
    var production := SolarPlantEnergy(solarPlantLevel);
    var consumption := TotalEnergyConsumption(metalMineLevel, crystalMineLevel, deuteriumSynthLevel);
    EnergyFactorMeaning(production, consumption);
    EnergyBalance(production, consumption, EnergyFactor(production, consumption))
  }
}
