/** Storage capacities and clamping of amounts to them. The exponential in the
    capacity curve is a parameter `exp`: the model does not define it, and only
    uses exp(0) = 1 where a fact about level 0 is stated. */
module Storage {
  import opened MathUtil
  import opened GameTypes
  import opened Constants

  /** 5000 · floor(2.5 · exp(20·level / 33)). */
  function StorageCapacity(exp: real -> real, level: int): (r: int)
    ensures r % BASE_CAPACITY == 0
    ensures exp(EXPONENT_MULTIPLIER as real * level as real / EXPONENT_DIVISOR as real) >= 0.0 ==> r >= 0
    ensures level == 0 && exp(0.0) == 1.0 ==> r == 10000
  {
    var exponent := EXPONENT_MULTIPLIER as real * level as real / EXPONENT_DIVISOR as real;
    BASE_CAPACITY * (CAPACITY_MULTIPLIER * exp(exponent)).Floor
  }

  /** The three capacities, each from its own storage building's level. */
  function AllStorageCapacities(exp: real -> real, metalStorageLevel: int, crystalStorageLevel: int,
                                deuteriumTankLevel: int): (r: Resources)
    ensures r.metal == StorageCapacity(exp, metalStorageLevel) as real
    ensures r.crystal == StorageCapacity(exp, crystalStorageLevel) as real
    ensures r.deuterium == StorageCapacity(exp, deuteriumTankLevel) as real
  {
    Resources(StorageCapacity(exp, metalStorageLevel) as real,
              StorageCapacity(exp, crystalStorageLevel) as real,
              StorageCapacity(exp, deuteriumTankLevel) as real)
  }

  /** With no storage buildings every capacity is 10000. */
  lemma InitialCapacities(exp: real -> real)
    requires exp(0.0) == 1.0
    ensures AllStorageCapacities(exp, 0, 0, 0) == Resources(10000.0, 10000.0, 10000.0)
  {
    assert EXPONENT_MULTIPLIER as real * 0 as real / EXPONENT_DIVISOR as real == 0.0;
  }

  /** Component-wise minimum with the capacities; there is no lower bound. */
  function ClampToStorage(amounts: Resources, capacities: Resources): (r: Resources)
    ensures r.metal <= capacities.metal && r.metal <= amounts.metal
    ensures r.crystal <= capacities.crystal && r.crystal <= amounts.crystal
    ensures r.deuterium <= capacities.deuterium && r.deuterium <= amounts.deuterium
    ensures r.metal == amounts.metal || r.metal == capacities.metal
    ensures r.crystal == amounts.crystal || r.crystal == capacities.crystal
    ensures r.deuterium == amounts.deuterium || r.deuterium == capacities.deuterium
  {
    Resources(MinReal(amounts.metal, capacities.metal),
              MinReal(amounts.crystal, capacities.crystal),
              MinReal(amounts.deuterium, capacities.deuterium))
  }

  predicate WithinCapacity(amounts: Resources, capacities: Resources)
  {
    amounts.metal <= capacities.metal
    && amounts.crystal <= capacities.crystal
    && amounts.deuterium <= capacities.deuterium
  }

  /** Clamping is the identity exactly on amounts already within capacity, and
      so clamping twice is clamping once. */
  lemma ClampIdentityAndIdempotent(amounts: Resources, capacities: Resources)
    ensures ClampToStorage(amounts, capacities) == amounts <==> WithinCapacity(amounts, capacities)
    ensures ClampToStorage(ClampToStorage(amounts, capacities), capacities) == ClampToStorage(amounts, capacities)
  {
  }

  /** Negative amounts under a non-negative capacity pass through unchanged. */
  lemma ClampHasNoLowerBound(amounts: Resources, capacities: Resources)
    requires amounts.metal < 0.0 && capacities.metal >= 0.0
    ensures ClampToStorage(amounts, capacities).metal == amounts.metal
    ensures ClampToStorage(amounts, capacities).metal < 0.0
  {
  }
}
