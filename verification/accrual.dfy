/** Lazy resource accrual: a planet stores a snapshot of its amounts, its
    hourly rates and the time of the snapshot; current amounts are rebuilt on
    demand and capped at storage capacity. Times are integer milliseconds. */
module Accrual {
  import opened MathUtil
  import opened GameTypes
  import opened Storage

  /** The resource-relevant part of a planet row. */
  datatype PlanetState = PlanetState(
    metal: real, crystal: real, deuterium: real,
    metalPerHour: real, crystalPerHour: real, deuteriumPerHour: real,
    lastResourceUpdate: int,
    metalStorageLevel: int, crystalStorageLevel: int, deuteriumStorageLevel: int)

  const MS_PER_HOUR: int := 1000 * 60 * 60

  /** Elapsed milliseconds as fractional hours; negative when `now` precedes the snapshot. */
  function Hours(deltaMs: int): real
  {
    deltaMs as real / MS_PER_HOUR as real
  }

  function Capacities(exp: real -> real, p: PlanetState): Resources
  {
    AllStorageCapacities(exp, p.metalStorageLevel, p.crystalStorageLevel, p.deuteriumStorageLevel)
  }

  /** Stored amounts plus rate × elapsed hours, before capping. */
  function Uncapped(p: PlanetState, now: int): Resources
  {
    var h := Hours(now - p.lastResourceUpdate);
    Resources(p.metal + p.metalPerHour * h,
              p.crystal + p.crystalPerHour * h,
              p.deuterium + p.deuteriumPerHour * h)
  }

  /** Current amounts: each resource is its accrued amount capped at its own
      capacity, independently of the others. They never exceed capacity, and
      are exactly the accrued amounts when those fit. */
  function CurrentResources(exp: real -> real, p: PlanetState, now: int): (r: Resources)
    ensures WithinCapacity(r, Capacities(exp, p))
    ensures WithinCapacity(Uncapped(p, now), Capacities(exp, p)) ==> r == Uncapped(p, now)
    ensures r.metal <= Uncapped(p, now).metal
            && (r.metal == Uncapped(p, now).metal || r.metal == Capacities(exp, p).metal)
    ensures r.crystal <= Uncapped(p, now).crystal
            && (r.crystal == Uncapped(p, now).crystal || r.crystal == Capacities(exp, p).crystal)
    ensures r.deuterium <= Uncapped(p, now).deuterium
            && (r.deuterium == Uncapped(p, now).deuterium || r.deuterium == Capacities(exp, p).deuterium)
  {
    ClampIdentityAndIdempotent(Uncapped(p, now), Capacities(exp, p));
    ClampToStorage(Uncapped(p, now), Capacities(exp, p))
  }

  /** The amounts at an arbitrary instant: the same computation. */
  function ResourcesAt(exp: real -> real, p: PlanetState, targetTime: int): (r: Resources)
    ensures r == CurrentResources(exp, p, targetTime)
  {
    CurrentResources(exp, p, targetTime)
  }

  predicate NonNegativeRates(p: PlanetState)
  {
    p.metalPerHour >= 0.0 && p.crystalPerHour >= 0.0 && p.deuteriumPerHour >= 0.0
  }

  predicate AtMost(a: Resources, b: Resources)
  {
    a.metal <= b.metal && a.crystal <= b.crystal && a.deuterium <= b.deuterium
  }

  /** With non-negative rates, current amounts never decrease as time goes on. */
  lemma CurrentResourcesMonotone(exp: real -> real, p: PlanetState, t1: int, t2: int)
    requires NonNegativeRates(p) && t1 <= t2
    ensures AtMost(CurrentResources(exp, p, t1), CurrentResources(exp, p, t2))
  {
    var h1, h2 := Hours(t1 - p.lastResourceUpdate), Hours(t2 - p.lastResourceUpdate);
    assert h1 <= h2;
    RealMulMonotone(p.metalPerHour, h1, h2);
    RealMulMonotone(p.crystalPerHour, h1, h2);
    RealMulMonotone(p.deuteriumPerHour, h1, h2);
    assert AtMost(Uncapped(p, t1), Uncapped(p, t2));
    assert CurrentResources(exp, p, t1) == ClampToStorage(Uncapped(p, t1), Capacities(exp, p));
    assert CurrentResources(exp, p, t2) == ClampToStorage(Uncapped(p, t2), Capacities(exp, p));
  }

  /** There is no guard against a clock earlier than the snapshot: a positive
      rate then lowers the amount below what was stored. */
  lemma EarlierClockLowersAmounts(exp: real -> real, p: PlanetState, now: int)
    requires now < p.lastResourceUpdate && p.metalPerHour > 0.0
    ensures CurrentResources(exp, p, now).metal < p.metal
  {
    var h := Hours(now - p.lastResourceUpdate);
    assert h < 0.0;
    assert p.metalPerHour * h < 0.0;
  }

  /** Seconds until one resource fills, or None when it never will at this
      rate or is already full. */
  function TimeFor(currentAmount: real, capacity: real, ratePerHour: real): (r: Option<real>)
    ensures r.None? <==> ratePerHour <= 0.0 || currentAmount >= capacity
    ensures r.Some? ==> r.value > 0.0
    ensures r.Some? ==> currentAmount + ratePerHour * (r.value / 3600.0) == capacity
  {
    if ratePerHour <= 0.0 then None
    else if currentAmount >= capacity then None
    else
      var remaining := capacity - currentAmount;
      var hoursToFull := remaining / ratePerHour;
      assert ratePerHour * hoursToFull == remaining;
      Some(hoursToFull * 3600.0)
  }

  datatype FullTimes = FullTimes(metal: Option<real>, crystal: Option<real>, deuterium: Option<real>)

  /** Per resource: seconds until storage is full from the current amount. */
  function TimeToFull(exp: real -> real, p: PlanetState, now: int): (r: FullTimes)
    ensures var cur, cap := CurrentResources(exp, p, now), Capacities(exp, p);
            && r.metal == TimeFor(cur.metal, cap.metal, p.metalPerHour)
            && r.crystal == TimeFor(cur.crystal, cap.crystal, p.crystalPerHour)
            && r.deuterium == TimeFor(cur.deuterium, cap.deuterium, p.deuteriumPerHour)
  {
    var current := CurrentResources(exp, p, now);
    var capacities := Capacities(exp, p);
    FullTimes(TimeFor(current.metal, capacities.metal, p.metalPerHour),
              TimeFor(current.crystal, capacities.crystal, p.crystalPerHour),
              TimeFor(current.deuterium, capacities.deuterium, p.deuteriumPerHour))
  }

  /** Same rates, levels and other fields; only amounts and snapshot time differ. */
  predicate SameExceptAmounts(a: PlanetState, b: PlanetState)
  {
    a.metalPerHour == b.metalPerHour && a.crystalPerHour == b.crystalPerHour
    && a.deuteriumPerHour == b.deuteriumPerHour
    && a.metalStorageLevel == b.metalStorageLevel && a.crystalStorageLevel == b.crystalStorageLevel
    && a.deuteriumStorageLevel == b.deuteriumStorageLevel
  }

  /** Snapshot the current amounts minus the cost at `now`. Sufficiency is not
      checked, so amounts may go negative. */
  function DeductResources(exp: real -> real, p: PlanetState, cost: Resources, now: int): (q: PlanetState)
    ensures var cur := CurrentResources(exp, p, now);
            q.metal == cur.metal - cost.metal && q.crystal == cur.crystal - cost.crystal
            && q.deuterium == cur.deuterium - cost.deuterium
    ensures q.lastResourceUpdate == now
    ensures SameExceptAmounts(p, q)
  {
    var current := CurrentResources(exp, p, now);
    p.(metal := current.metal - cost.metal,
       crystal := current.crystal - cost.crystal,
       deuterium := current.deuterium - cost.deuterium,
       lastResourceUpdate := now)
  }

  /** Snapshot the current amounts plus the amount at `now`, capped at capacity. */
  function AddResources(exp: real -> real, p: PlanetState, amount: Resources, now: int): (q: PlanetState)
    ensures var cur, cap := CurrentResources(exp, p, now), Capacities(exp, p);
            && q.metal == MinReal(cur.metal + amount.metal, cap.metal)
            && q.crystal == MinReal(cur.crystal + amount.crystal, cap.crystal)
            && q.deuterium == MinReal(cur.deuterium + amount.deuterium, cap.deuterium)
    ensures WithinCapacity(Resources(q.metal, q.crystal, q.deuterium), Capacities(exp, p))
    ensures q.lastResourceUpdate == now
    ensures SameExceptAmounts(p, q)
  {
    var current := CurrentResources(exp, p, now);
    var capacities := Capacities(exp, p);
    var newResources := ClampToStorage(
      Resources(current.metal + amount.metal, current.crystal + amount.crystal,
                current.deuterium + amount.deuterium),
      capacities);
    p.(metal := newResources.metal,
       crystal := newResources.crystal,
       deuterium := newResources.deuterium,
       lastResourceUpdate := now)
  }

  predicate NonNegativeAmount(r: Resources)
  {
    r.metal >= 0.0 && r.crystal >= 0.0 && r.deuterium >= 0.0
  }

  /** Right after a snapshot at `now`, the current amounts at `now` are the
      snapshot's amounts whenever those fit in storage. */
  lemma SnapshotReadsBack(exp: real -> real, q: PlanetState, now: int)
    requires q.lastResourceUpdate == now
    requires WithinCapacity(Resources(q.metal, q.crystal, q.deuterium), Capacities(exp, q))
    ensures CurrentResources(exp, q, now) == Resources(q.metal, q.crystal, q.deuterium)
  {
    assert Hours(0) == 0.0;
    assert Uncapped(q, now) == Resources(q.metal, q.crystal, q.deuterium);
  }

  /** Deducting a non-negative cost and refunding it at the same instant
      leaves the current amounts as they were. */
  lemma DeductThenRefundRoundTrip(exp: real -> real, p: PlanetState, cost: Resources, now: int)
    requires NonNegativeAmount(cost)
    ensures CurrentResources(exp, AddResources(exp, DeductResources(exp, p, cost, now), cost, now), now)
            == CurrentResources(exp, p, now)
  {
    var cur := CurrentResources(exp, p, now);
    var q := DeductResources(exp, p, cost, now);
    assert Capacities(exp, q) == Capacities(exp, p);
    SnapshotReadsBack(exp, q, now);
    var q2 := AddResources(exp, q, cost, now);
    assert Resources(q2.metal, q2.crystal, q2.deuterium) == cur;
    SnapshotReadsBack(exp, q2, now);
  }
}
