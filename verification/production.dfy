/** Hourly mine output, throttled by the energy factor, and the solar output. */
module Production {
  import opened MathUtil
  import opened Constants
  import opened Energy

  datatype ResourceRates = ResourceRates(metalPerHour: int, crystalPerHour: int, deuteriumPerHour: int)

  lemma {:induction false} RealPowPositive(x: real, n: nat)
    requires x > 0.0
    ensures RealPow(x, n) > 0.0
  {
    if n > 0 {
      RealPowPositive(x, n - 1);
    }
  }

  /** Flooring x·f for x >= 0: non-negative for f >= 0, equal to floor(x) at
      f = 1, and at most floor(x) for f <= 1. */
  lemma ThrottledFloor(x: real, f: real)
    requires x >= 0.0
    ensures f >= 0.0 ==> (x * f).Floor >= 0
    ensures f == 1.0 ==> (x * f).Floor == x.Floor
    ensures 0.0 <= f <= 1.0 ==> (x * f).Floor <= x.Floor
  {
    if 0.0 <= f <= 1.0 {
      assert x * f <= x * 1.0;
    }
  }

  /** base · L · 1.1^L, before any flooring. */
  function RawOutput(base: int, level: int): real
    requires level > 0
  {
    base as real * level as real * RealPow(1.1, level)
  }

  lemma RawOutputNonNegative(base: int, level: int)
    requires base >= 0 && level > 0
    ensures RawOutput(base, level) >= 0.0
    ensures RawOutput(base, level).Floor == Growth(base, level)
  {
    RealPowPositive(1.1, level);
    assert base as real * level as real >= 0.0;
  }

  /** Hourly output of a mine of the given base at `level` with energy factor `f`:
      zero when unbuilt, never negative with a non-negative factor, the full
      growth curve at factor 1 and never more than it with a factor at most 1. */
  function MineOutput(base: int, level: int, f: real): (r: int)
    requires base >= 0
    ensures level <= 0 ==> r == 0
    ensures f >= 0.0 ==> r >= 0
    ensures f == 1.0 ==> r == Growth(base, level)
    ensures 0.0 <= f <= 1.0 ==> r <= Growth(base, level)
  {
    if level <= 0 then 0
    else
      RawOutputNonNegative(base, level);
      ThrottledFloor(RawOutput(base, level), f);
      (RawOutput(base, level) * f).Floor
  }

  function MetalProduction(mineLevel: int, energyFactor: real): (r: int)
    ensures mineLevel <= 0 ==> r == 0
    ensures energyFactor >= 0.0 ==> r >= 0
    ensures energyFactor == 1.0 ==> r == Growth(METAL_BASE, mineLevel)
    ensures 0.0 <= energyFactor <= 1.0 ==> r <= Growth(METAL_BASE, mineLevel)
  {
    MineOutput(METAL_BASE, mineLevel, energyFactor)
  }

  function CrystalProduction(mineLevel: int, energyFactor: real): (r: int)
    ensures mineLevel <= 0 ==> r == 0
    ensures energyFactor >= 0.0 ==> r >= 0
    ensures energyFactor == 1.0 ==> r == Growth(CRYSTAL_BASE, mineLevel)
    ensures 0.0 <= energyFactor <= 1.0 ==> r <= Growth(CRYSTAL_BASE, mineLevel)
  {
    MineOutput(CRYSTAL_BASE, mineLevel, energyFactor)
  }

  /** 1.36 − 0.004·T: no clamp, so it is negative above 340 degrees. */
  function TemperatureFactor(planetTemperature: int): (t: real)
    ensures t > 0.0 <==> planetTemperature < 340
    ensures t == 0.0 <==> planetTemperature == 340
  {
    DEUTERIUM_BASE_FACTOR - DEUTERIUM_TEMPERATURE_COEFFICIENT * planetTemperature as real
  }

  /** Deuterium output: the mine curve times the energy factor and the
      temperature factor; negative on planets hotter than 340 degrees. */
  function DeuteriumProduction(mineLevel: int, energyFactor: real, planetTemperature: int): (r: int)
    ensures mineLevel <= 0 ==> r == 0
    ensures mineLevel > 0 && energyFactor > 0.0 && planetTemperature > 340 ==> r < 0
    ensures energyFactor >= 0.0 && planetTemperature <= 340 ==> r >= 0
  {
    if mineLevel <= 0 then 0
    else
      RawOutputNonNegative(DEUTERIUM_BASE, mineLevel);
      RealPowPositive(1.1, mineLevel);
      DeuteriumSign(RawOutput(DEUTERIUM_BASE, mineLevel), energyFactor, TemperatureFactor(planetTemperature));
      (RawOutput(DEUTERIUM_BASE, mineLevel) * energyFactor * TemperatureFactor(planetTemperature)).Floor
  }

  lemma DeuteriumSign(x: real, f: real, t: real)
    requires x > 0.0
    ensures f > 0.0 && t < 0.0 ==> (x * f * t).Floor < 0
    ensures f >= 0.0 && t >= 0.0 ==> (x * f * t).Floor >= 0
  {
    if f > 0.0 && t < 0.0 {
      assert x * f > 0.0;
      assert (x * f) * t < 0.0;
    }
    if f >= 0.0 && t >= 0.0 {
      assert x * f >= 0.0;
      assert (x * f) * t >= 0.0;
    }
  }

  /** Solar output as the production formulas compute it. */
  function SolarEnergy(level: int): (r: int)
    ensures level <= 0 ==> r == 0
    ensures r >= 0
  {
    if level <= 0 then 0
    else
      RawOutputNonNegative(SOLAR_BASE, level);
      RawOutput(SOLAR_BASE, level).Floor
  }

  /** The production module's solar formula agrees with the energy module's. */
  lemma SolarEnergyAgrees(level: int)
    ensures SolarEnergy(level) == SolarPlantEnergy(level)
  {
  }

  /** All three rates for a planet, each throttled by the one energy factor
      computed from the same mine and solar levels. */
  function AllProductionRates(metalMineLevel: int, crystalMineLevel: int, deuteriumSynthLevel: int,
                              solarPlantLevel: int, planetTemperature: int): (r: ResourceRates)
    ensures
      var f := CalculateEnergyBalance(metalMineLevel, crystalMineLevel, deuteriumSynthLevel, solarPlantLevel).factor;
      && r.metalPerHour == MetalProduction(metalMineLevel, f)
      && r.crystalPerHour == CrystalProduction(crystalMineLevel, f)
      && r.deuteriumPerHour == DeuteriumProduction(deuteriumSynthLevel, f, planetTemperature)
    ensures r.metalPerHour >= 0 && r.crystalPerHour >= 0
  {
    var balance := CalculateEnergyBalance(metalMineLevel, crystalMineLevel, deuteriumSynthLevel, solarPlantLevel);
    ResourceRates(MetalProduction(metalMineLevel, balance.factor),
                  CrystalProduction(crystalMineLevel, balance.factor),
                  DeuteriumProduction(deuteriumSynthLevel, balance.factor, planetTemperature))
  }

  /** With enough solar energy the mines run at their full curve; otherwise
      metal and crystal never exceed it. */
  lemma RatesAgainstFullPower(m: int, c: int, d: int, s: int, temperature: int)
    ensures var r := AllProductionRates(m, c, d, s, temperature);
            r.metalPerHour <= Growth(METAL_BASE, m) && r.crystalPerHour <= Growth(CRYSTAL_BASE, c)
    ensures SolarPlantEnergy(s) >= TotalEnergyConsumption(m, c, d) ==>
            var r := AllProductionRates(m, c, d, s, temperature);
            r.metalPerHour == Growth(METAL_BASE, m) && r.crystalPerHour == Growth(CRYSTAL_BASE, c)
  {
  }
}
