/** The queue lifecycle: each route's transaction body as one method on the
    planet or player it changes, and each completion sweep as a loop over
    planets or players. Request parsing, authentication and storage are
    replaced by parameters and fields. */
module Lifecycle {
  import opened MathUtil
  import opened GameTypes
  import opened Constants
  import opened Costs
  import opened Time
  import opened Energy
  import opened Production
  import opened Accrual
  import opened Validation
  import opened BuildingValidation
  import opened ResearchValidation
  import opened ShipValidation
  import opened Queues

  /** The hourly rates stored on a planet. */
  datatype Rates = Rates(metalPerHour: real, crystalPerHour: real, deuteriumPerHour: real)

  /** The energy totals stored on a planet. */
  datatype EnergyTotals = EnergyTotals(production: int, consumption: int)

  /** All persistent fields of a planet at one instant: the stored amounts,
      rates and energy, the snapshot time, the fields used, the building and
      ship rows, and the two queue rows. */
  datatype PlanetView = PlanetView(
    amounts: Resources, rates: Rates, lastResourceUpdate: int,
    temperature: int, fieldsUsed: int, energy: EnergyTotals,
    buildings: map<BuildingType, nat>, ships: map<ShipType, nat>,
    buildingQueue: Option<BuildingQueueEntry>, shipQueue: Option<ShipQueueEntry>)

  /** The accrual snapshot of a planet, storage levels from its buildings. */
  function AccrualOf(p: PlanetView): PlanetState
  {
    PlanetState(p.amounts.metal, p.amounts.crystal, p.amounts.deuterium,
                p.rates.metalPerHour, p.rates.crystalPerHour, p.rates.deuteriumPerHour,
                p.lastResourceUpdate,
                LevelOf(p.buildings, METAL_STORAGE), LevelOf(p.buildings, CRYSTAL_STORAGE),
                LevelOf(p.buildings, DEUTERIUM_TANK))
  }

  /** The same planet with the amounts and snapshot time of `s`. */
  function WithAmounts(p: PlanetView, s: PlanetState): PlanetView
  {
    p.(amounts := Resources(s.metal, s.crystal, s.deuterium), lastResourceUpdate := s.lastResourceUpdate)
  }

  /** The amounts a planet holds at `now`. */
  function CurrentAmounts(p: PlanetView, exp: real -> real, now: int): Resources
  {
    CurrentResources(exp, AccrualOf(p), now)
  }

  // ---- Building upgrade ----

  function BuildingVerdictFor(p: PlanetView, b: BuildingType, researchLevels: map<TechType, nat>,
                              exp: real -> real, now: int): ValidationResult
  {
    BuildingUpgradeVerdict(b, p.buildings, researchLevels, CurrentAmounts(p, exp, now), BuildingSlotActive(p.buildingQueue))
  }

  /** The queue row an accepted upgrade creates: the next level, its cost
      locked in, ending at least one second after `now`. */
  function NewBuildingEntry(p: PlanetView, b: BuildingType, now: int): (e: BuildingQueueEntry)
    ensures e.buildingType == b && e.status == IN_PROGRESS
    ensures e.targetLevel == LevelOf(p.buildings, b) + 1
    ensures e.cost == BuildingCost(b, e.targetLevel) && e.cost.NonNegative()
    ensures e.startTime == now && e.endTime >= now + 1000
    ensures e.endTime - e.startTime
            == 1000 * BuildingTime(b, e.targetLevel, LevelOf(p.buildings, ROBOT_FACTORY), LevelOf(p.buildings, NANITE_FACTORY))
  {
    var targetLevel := LevelOf(p.buildings, b) + 1;
    var timeSeconds := BuildingTime(b, targetLevel, LevelOf(p.buildings, ROBOT_FACTORY), LevelOf(p.buildings, NANITE_FACTORY));
    BuildingQueueEntry(b, targetLevel, BuildingCost(b, targetLevel), now, now + timeSeconds * 1000, IN_PROGRESS)
  }

  /** The planet after an accepted upgrade: the cost deducted at `now` and
      the new row in progress; levels, rates and everything else unchanged. */
  function AfterUpgradeStart(p: PlanetView, b: BuildingType, exp: real -> real, now: int): (q: PlanetView)
    ensures BuildingSlotActive(q.buildingQueue) && q.buildingQueue.value == NewBuildingEntry(p, b, now)
    ensures q.buildings == p.buildings && q.ships == p.ships && q.shipQueue == p.shipQueue
    ensures q.lastResourceUpdate == now && q.rates == p.rates && q.energy == p.energy
    ensures AccrualOf(q) == DeductResources(exp, AccrualOf(p), NewBuildingEntry(p, b, now).cost.AsResources(), now)
  {
    var entry := NewBuildingEntry(p, b, now);
    WithAmounts(p, DeductResources(exp, AccrualOf(p), entry.cost.AsResources(), now)).(buildingQueue := Some(entry))
  }

  /** An accepted upgrade never leaves a negative amount: the validator
      checked the very cost that is deducted, at the same instant. */
  lemma AcceptedUpgradeLeavesNoDeficit(p: PlanetView, b: BuildingType, researchLevels: map<TechType, nat>,
                                       exp: real -> real, now: int)
    requires BuildingVerdictFor(p, b, researchLevels, exp, now).Valid?
    ensures var q := AfterUpgradeStart(p, b, exp, now);
            q.amounts.metal >= 0.0 && q.amounts.crystal >= 0.0 && q.amounts.deuterium >= 0.0
  {
    BuildingUpgradeVerdictMeaning(b, p.buildings, researchLevels, CurrentAmounts(p, exp, now), BuildingSlotActive(p.buildingQueue));
  }

  // ---- Building completion ----

  predicate BuildingDue(p: PlanetView, now: int)
  {
    BuildingSlotActive(p.buildingQueue) && p.buildingQueue.value.endTime <= now
  }

  /** The rates of a planet recomputed from a level map. */
  function RatesFor(levels: map<BuildingType, nat>, temperature: int): Rates
  {
    var r := AllProductionRates(LevelOf(levels, METAL_MINE), LevelOf(levels, CRYSTAL_MINE),
                                LevelOf(levels, DEUTERIUM_SYNTHESIZER), LevelOf(levels, SOLAR_PLANT), temperature);
    Rates(r.metalPerHour as real, r.crystalPerHour as real, r.deuteriumPerHour as real)
  }

  /** The energy totals of a planet recomputed from a level map. */
  function EnergyFor(levels: map<BuildingType, nat>): EnergyTotals
  {
    var e := CalculateEnergyBalance(LevelOf(levels, METAL_MINE), LevelOf(levels, CRYSTAL_MINE),
                                    LevelOf(levels, DEUTERIUM_SYNTHESIZER), LevelOf(levels, SOLAR_PLANT));
    EnergyTotals(e.production, e.consumption)
  }

  /** One planet's part of the building sweep: complete the row if it is due. */
  function AfterBuildingSweep(p: PlanetView, now: int): PlanetView
  {
    if !BuildingDue(p, now) then p else BuildingCompleted(p)
  }

  /** What the sweep does to one planet. A due row raises its building to
      the target level and nothing else, recomputes rates and energy from
      the new levels, uses one more field and is kept as COMPLETED; stored
      amounts and the snapshot time are untouched. A planet with nothing due
      is unchanged, and afterwards nothing is due. */
  lemma BuildingSweepMeaning(p: PlanetView, now: int)
    ensures var q := AfterBuildingSweep(p, now);
            && !BuildingDue(q, now)
            && (!BuildingDue(p, now) ==> q == p)
    ensures BuildingDue(p, now) ==>
              var q := AfterBuildingSweep(p, now);
              var e := p.buildingQueue.value;
              && LevelOf(q.buildings, e.buildingType) == e.targetLevel
              && (forall k :: k != e.buildingType ==> LevelOf(q.buildings, k) == LevelOf(p.buildings, k))
              && q.fieldsUsed == p.fieldsUsed + 1
              && q.buildingQueue == Some(e.(status := COMPLETED))
              && q.amounts == p.amounts && q.lastResourceUpdate == p.lastResourceUpdate
              && q.rates == RatesFor(q.buildings, p.temperature)
              && q.energy == EnergyFor(q.buildings)
              && q.ships == p.ships && q.shipQueue == p.shipQueue
  {
  }

  /** The completion step itself, for a planet whose row is due. */
  function BuildingCompleted(p: PlanetView): PlanetView
    requires BuildingSlotActive(p.buildingQueue)
  {
    var e := p.buildingQueue.value;
    var levels := p.buildings[e.buildingType := e.targetLevel];
    p.(buildings := levels,
       rates := RatesFor(levels, p.temperature),
       energy := EnergyFor(levels),
       fieldsUsed := p.fieldsUsed + 1,
       buildingQueue := Some(e.(status := COMPLETED)))
  }

  /** A second sweep at the same instant changes nothing. */
  lemma BuildingSweepIdempotent(p: PlanetView, now: int)
    ensures AfterBuildingSweep(AfterBuildingSweep(p, now), now) == AfterBuildingSweep(p, now)
  {
    if BuildingDue(p, now) {
      var q := BuildingCompleted(p);
      assert q.buildingQueue == Some(p.buildingQueue.value.(status := COMPLETED));
      assert !BuildingDue(q, now);
    }
  }

  // ---- Building cancel ----

  /** Cancelling refunds exactly the locked cost at `now`, capped at storage,
      and keeps the row as CANCELLED; with no row in progress nothing changes. */
  function AfterBuildingCancel(p: PlanetView, exp: real -> real, now: int): (q: PlanetView)
    ensures !BuildingSlotActive(p.buildingQueue) ==> q == p
    ensures BuildingSlotActive(p.buildingQueue) ==>
              && q.buildingQueue == Some(p.buildingQueue.value.(status := CANCELLED))
              && AccrualOf(q) == AddResources(exp, AccrualOf(p), p.buildingQueue.value.cost.AsResources(), now)
              && q.buildings == p.buildings && q.ships == p.ships && q.shipQueue == p.shipQueue
    ensures !BuildingSlotActive(q.buildingQueue)
  {
    if !BuildingSlotActive(p.buildingQueue) then p
    else
      var e := p.buildingQueue.value;
      WithAmounts(p, AddResources(exp, AccrualOf(p), e.cost.AsResources(), now))
       .(buildingQueue := Some(e.(status := CANCELLED)))
  }

  /** Starting an upgrade and cancelling it at the same instant gives back
      the current amounts the planet had, and leaves a CANCELLED row. */
  lemma UpgradeThenCancelRestoresAmounts(p: PlanetView, b: BuildingType, exp: real -> real, now: int)
    ensures var q := AfterBuildingCancel(AfterUpgradeStart(p, b, exp, now), exp, now);
            && CurrentAmounts(q, exp, now) == CurrentAmounts(p, exp, now)
            && q.buildingQueue == Some(NewBuildingEntry(p, b, now).(status := CANCELLED))
            && q.buildings == p.buildings
  {
    var cost := NewBuildingEntry(p, b, now).cost;
    DeductThenRefundRoundTrip(exp, AccrualOf(p), cost.AsResources(), now);
  }

  // ---- Ship batches ----

  function ShipVerdictFor(p: PlanetView, s: ShipType, quantity: int, researchLevels: map<TechType, nat>,
                          exp: real -> real, now: int): ValidationResult
  {
    ShipBuildVerdict(s, quantity as real, LevelOf(p.buildings, SHIPYARD), researchLevels,
                     CurrentAmounts(p, exp, now), ShipSlotActive(p.shipQueue))
  }

  /** Single-ship time in milliseconds from the planet's current levels. */
  function SingleShipMs(p: PlanetView, s: ShipType): (ms: int)
    ensures ms >= 1000
  {
    ShipTime(s, LevelOf(p.buildings, SHIPYARD), LevelOf(p.buildings, NANITE_FACTORY)) * 1000
  }

  /** The row an accepted batch creates: nothing completed yet, the batch
      cost locked in, the first ship due one single-ship time from now and
      the batch due `quantity` single-ship times from now. */
  function NewShipEntry(p: PlanetView, s: ShipType, quantity: int, now: int): (e: ShipQueueEntry)
    requires 1 <= quantity
    ensures e.shipType == s && e.quantity == quantity && e.completedCount == 0 && e.status == IN_PROGRESS
    ensures e.cost == ShipBatchCost(s, quantity)
    ensures e.startTime == now
    ensures e.currentShipEndTime == now + SingleShipMs(p, s) && e.currentShipEndTime >= now + 1000
    ensures e.endTime == now + SingleShipMs(p, s) * quantity
    ensures e.endTime >= e.currentShipEndTime
  {
    var single := ShipTime(s, LevelOf(p.buildings, SHIPYARD), LevelOf(p.buildings, NANITE_FACTORY));
    var batchSeconds := single * quantity;
    MulRearrange(single, quantity, 1000);
    MulMonotone(1, quantity, SingleShipMs(p, s));
    ShipQueueEntry(s, quantity, 0, ShipBatchCost(s, quantity), now,
                   now + batchSeconds * 1000, now + single * 1000, IN_PROGRESS)
  }

  function AfterShipStart(p: PlanetView, s: ShipType, quantity: int, exp: real -> real, now: int): (q: PlanetView)
    requires 1 <= quantity
    ensures q.shipQueue == Some(NewShipEntry(p, s, quantity, now))
    ensures AccrualOf(q) == DeductResources(exp, AccrualOf(p), ShipBatchCost(s, quantity).AsResources(), now)
    ensures q.ships == p.ships && q.buildings == p.buildings && q.buildingQueue == p.buildingQueue
  {
    var entry := NewShipEntry(p, s, quantity, now);
    WithAmounts(p, DeductResources(exp, AccrualOf(p), entry.cost.AsResources(), now)).(shipQueue := Some(entry))
  }

  /** The quantity check the route makes on the parsed number before validating. */
  predicate QuantityInRange(quantity: Option<int>)
  {
    quantity.Some? && 1 <= quantity.value <= 999
  }

  predicate ShipsDue(p: PlanetView, now: int)
  {
    ShipSlotActive(p.shipQueue) && p.shipQueue.value.currentShipEndTime <= now
  }

  /** Ships finished by one catch-up on `p` at `now`. */
  function CatchUpCount(p: PlanetView, now: int): (n: nat)
    ensures !ShipsDue(p, now) ==> n == 0
    ensures ShipsDue(p, now) ==> n <= Max(p.shipQueue.value.quantity - p.shipQueue.value.completedCount, 0)
  {
    if !ShipsDue(p, now) then 0
    else
      var e := p.shipQueue.value;
      ShipsToComplete(e.currentShipEndTime, SingleShipMs(p, e.shipType), now, e.quantity - e.completedCount)
  }

  /** One planet's part of the ship sweep: the due ships are added to the
      planet's count of that type, and the row is deleted when the batch is
      done or else advanced by that many single-ship times, to an instant
      after `now`. */
  function AfterShipSweep(p: PlanetView, now: int): PlanetView
  {
    var n := CatchUpCount(p, now);
    if n == 0 then p
    else
      var e := p.shipQueue.value;
      var single := SingleShipMs(p, e.shipType);
      var ships := p.ships[e.shipType := LevelOf(p.ships, e.shipType) + n];
      if e.completedCount + n >= e.quantity then p.(ships := ships, shipQueue := None)
      else p.(ships := ships, shipQueue := Some(e.(completedCount := e.completedCount + n,
                                                   currentShipEndTime := e.currentShipEndTime + single * n)))
  }

  /** What the ship sweep does to one planet: the finished ships are added to
      the count of their type and no other, amounts and buildings are
      untouched, a planet with nothing to catch up is unchanged, and the row
      is deleted when the batch is done or else advanced by that many
      single-ship times, to an instant after `now`. */
  lemma ShipSweepMeaning(p: PlanetView, now: int)
    ensures var q := AfterShipSweep(p, now);
            && LevelOf(q.ships, if p.shipQueue.Some? then p.shipQueue.value.shipType else SMALL_CARGO)
               == LevelOf(p.ships, if p.shipQueue.Some? then p.shipQueue.value.shipType else SMALL_CARGO) + CatchUpCount(p, now)
            && (forall k :: p.shipQueue.Some? && k != p.shipQueue.value.shipType ==> LevelOf(q.ships, k) == LevelOf(p.ships, k))
            && (CatchUpCount(p, now) == 0 ==> q == p)
            && q.amounts == p.amounts && q.lastResourceUpdate == p.lastResourceUpdate
            && q.buildings == p.buildings && q.buildingQueue == p.buildingQueue
            && (ShipsDue(p, now) && p.shipQueue.value.quantity > p.shipQueue.value.completedCount ==> !ShipsDue(q, now))
    ensures CatchUpCount(p, now) > 0 ==>
              var q := AfterShipSweep(p, now);
              var e := p.shipQueue.value;
              if e.completedCount + CatchUpCount(p, now) >= e.quantity then q.shipQueue.None?
              else q.shipQueue == Some(e.(completedCount := e.completedCount + CatchUpCount(p, now),
                                          currentShipEndTime := e.currentShipEndTime + SingleShipMs(p, e.shipType) * CatchUpCount(p, now)))
  {
    if CatchUpCount(p, now) > 0 {
      var e := p.shipQueue.value;
      CatchUpLeavesNothingDue(e.currentShipEndTime, SingleShipMs(p, e.shipType), now, e.quantity - e.completedCount);
    }
  }

  /** The planets on which a ship sweep finishes at least one ship: the
      current ship is due and the batch still has ships to build. */
  predicate ShipsFinishing(p: PlanetView, now: int)
  {
    ShipsDue(p, now) && p.shipQueue.value.completedCount < p.shipQueue.value.quantity
  }

  lemma ShipsFinishingMeaning(p: PlanetView, now: int)
    ensures ShipsFinishing(p, now) <==> CatchUpCount(p, now) > 0
  {
    if ShipsDue(p, now) {
      var e := p.shipQueue.value;
      CatchUpLeavesNothingDue(e.currentShipEndTime, SingleShipMs(p, e.shipType), now, e.quantity - e.completedCount);
    }
  }

  /** A swept planet has no ship left to catch up on. */
  lemma SweptShipsNotDue(p: PlanetView, now: int)
    ensures CatchUpCount(AfterShipSweep(p, now), now) == 0
  {
    ShipSweepMeaning(p, now);
  }

  /** A second ship sweep at the same instant changes nothing. */
  lemma ShipSweepIdempotent(p: PlanetView, now: int)
    ensures AfterShipSweep(AfterShipSweep(p, now), now) == AfterShipSweep(p, now)
  {
    SweptShipsNotDue(p, now);
  }

  /** Cancelling a batch refunds the unit cost times the ships not yet
      built, deletes the row and keeps the ships already delivered. */
  function ShipRefund(e: ShipQueueEntry): (r: Cost)
    ensures e.completedCount <= e.quantity ==> r.NonNegative()
    ensures 1 <= e.quantity - e.completedCount ==> r == ShipBatchCost(e.shipType, e.quantity - e.completedCount)
  {
    var unbuilt := e.quantity - e.completedCount;
    var unit := ShipCost(e.shipType);
    Cost(unit.metal * unbuilt, unit.crystal * unbuilt, unit.deuterium * unbuilt)
  }

  function AfterShipCancel(p: PlanetView, exp: real -> real, now: int): (q: PlanetView)
    ensures !ShipSlotActive(p.shipQueue) ==> q == p
    ensures ShipSlotActive(p.shipQueue) ==>
              && q.shipQueue.None?
              && AccrualOf(q) == AddResources(exp, AccrualOf(p), ShipRefund(p.shipQueue.value).AsResources(), now)
              && q.ships == p.ships && q.buildings == p.buildings && q.buildingQueue == p.buildingQueue
  {
    if !ShipSlotActive(p.shipQueue) then p
    else
      WithAmounts(p, AddResources(exp, AccrualOf(p), ShipRefund(p.shipQueue.value).AsResources(), now))
       .(shipQueue := None)
  }

  /** A batch started and cancelled before any ship is delivered gives the
      whole batch cost back: the refund of the unbuilt ships is the locked cost. */
  lemma FreshBatchRefundIsLockedCost(p: PlanetView, s: ShipType, quantity: int, now: int)
    requires 1 <= quantity
    ensures ShipRefund(NewShipEntry(p, s, quantity, now)) == NewShipEntry(p, s, quantity, now).cost
  {
  }

  // ---- Research ----

  /** The research fields of a player. */
  datatype PlayerView = PlayerView(research: map<TechType, nat>, researchQueue: Option<ResearchQueueEntry>)

  function ResearchVerdictFor(pl: PlayerView, p: PlanetView, t: TechType, exp: real -> real, now: int): ValidationResult
  {
    ResearchVerdict(t, LevelOf(p.buildings, RESEARCH_LAB), pl.research, CurrentAmounts(p, exp, now),
                    ResearchSlotActive(pl.researchQueue))
  }

  /** The research row an accepted start creates, priced and timed at the next level. */
  function NewResearchEntry(pl: PlayerView, p: PlanetView, t: TechType, now: int): (e: ResearchQueueEntry)
    ensures e.techType == t && e.status == IN_PROGRESS
    ensures e.targetLevel == LevelOf(pl.research, t) + 1
    ensures e.cost == ResearchCost(t, e.targetLevel)
    ensures e.startTime == now && e.endTime >= now + 1000
    ensures e.endTime - e.startTime == 1000 * TechResearchTime(t, e.targetLevel, LevelOf(p.buildings, RESEARCH_LAB))
  {
    var targetLevel := LevelOf(pl.research, t) + 1;
    var timeSeconds := TechResearchTime(t, targetLevel, LevelOf(p.buildings, RESEARCH_LAB));
    ResearchQueueEntry(t, targetLevel, ResearchCost(t, targetLevel), now, now + timeSeconds * 1000, IN_PROGRESS)
  }

  predicate ResearchDue(pl: PlayerView, now: int)
  {
    ResearchSlotActive(pl.researchQueue) && pl.researchQueue.value.endTime <= now
  }

  /** One player's part of the research sweep: a due research sets that
      technology to its target level, leaves the others alone and deletes
      the row, so nothing is due afterwards. */
  function AfterResearchSweep(pl: PlayerView, now: int): (q: PlayerView)
    ensures !ResearchDue(q, now)
    ensures !ResearchDue(pl, now) ==> q == pl
    ensures ResearchDue(pl, now) ==>
              && q.researchQueue.None?
              && LevelOf(q.research, pl.researchQueue.value.techType) == pl.researchQueue.value.targetLevel
              && (forall k :: k != pl.researchQueue.value.techType ==> LevelOf(q.research, k) == LevelOf(pl.research, k))
  {
    if !ResearchDue(pl, now) then pl
    else
      var e := pl.researchQueue.value;
      PlayerView(pl.research[e.techType := e.targetLevel], None)
  }

  lemma ResearchSweepIdempotent(pl: PlayerView, now: int)
    ensures AfterResearchSweep(AfterResearchSweep(pl, now), now) == AfterResearchSweep(pl, now)
  {
  }

  // ---- The mutable records ----

  /** Schema defaults of a new planet row that the routes do not set. */
  datatype PlanetDefaults = PlanetDefaults(rates: Rates, temperature: int, fieldsUsed: int, energy: EnergyTotals)

  const STARTING_METAL: real := 500.0
  const STARTING_CRYSTAL: real := 500.0
  const STARTING_DEUTERIUM: real := 0.0

  /** A home planet as registration creates it: the starting amounts,
      every building at level 0, no ships, no queue, the snapshot taken at
      `now`, and the schema defaults for the rest. */
  function InitialView(defaults: PlanetDefaults, now: int): PlanetView
  {
    PlanetView(Resources(STARTING_METAL, STARTING_CRYSTAL, STARTING_DEUTERIUM),
               defaults.rates, now, defaults.temperature, defaults.fieldsUsed, defaults.energy,
               ZeroLevels(AllBuildingTypes), map[], None, None)
  }

  /** A new planet has nothing for a cron to complete and nothing to cancel,
      at any later instant. */
  lemma NewPlanetIsIdle(defaults: PlanetDefaults, created: int, exp: real -> real, now: int)
    ensures var v := InitialView(defaults, created);
            && (forall b :: LevelOf(v.buildings, b) == 0)
            && (forall k :: LevelOf(v.ships, k) == 0)
            && AfterBuildingSweep(v, now) == v && AfterShipSweep(v, now) == v
            && AfterBuildingCancel(v, exp, now) == v && AfterShipCancel(v, exp, now) == v
  {
  }

  class Planet {
    const name: string
    const coordX: int
    const coordY: int
    const temperature: int
    var amounts: Resources
    var rates: Rates
    var lastResourceUpdate: int
    var fieldsUsed: int
    var energy: EnergyTotals
    var buildings: map<BuildingType, nat>
    var ships: map<ShipType, nat>
    var buildingQueue: Option<BuildingQueueEntry>
    var shipQueue: Option<ShipQueueEntry>

    function View(): PlanetView
      reads this
    {
      PlanetView(amounts, rates, lastResourceUpdate, temperature, fieldsUsed, energy,
                 buildings, ships, buildingQueue, shipQueue)
    }

    /** A home planet as registration creates it: starting amounts, every
      building at level 0, no ships and no queue. */
    constructor(name: string, coordX: int, coordY: int, defaults: PlanetDefaults, now: int)
      ensures this.name == name && this.coordX == coordX && this.coordY == coordY
      ensures View() == InitialView(defaults, now)
    {
      this.name := name;
      this.coordX := coordX;
      this.coordY := coordY;
      temperature := defaults.temperature;
      amounts := Resources(STARTING_METAL, STARTING_CRYSTAL, STARTING_DEUTERIUM);
      rates := defaults.rates;
      lastResourceUpdate := now;
      fieldsUsed := defaults.fieldsUsed;
      energy := defaults.energy;
      buildings := ZeroLevels(AllBuildingTypes);
      ships := map[];
      buildingQueue := None;
      shipQueue := None;
    }

    /** Write back amounts and snapshot time. */
    method StoreAmounts(s: PlanetState)
      modifies this
      ensures View() == WithAmounts(old(View()), s)
    {
      amounts := Resources(s.metal, s.crystal, s.deuterium);
      lastResourceUpdate := s.lastResourceUpdate;
    }

    /** Start upgrading the building named `requested`: an unknown name is a
      bad request; a failed validation changes nothing and answers 409 for
      an active queue, 400 otherwise; an accepted upgrade deducts the cost
      at `now` and creates the row in progress. The row is stored with the
      corrected Queues.InsertBuildingRow, where a COMPLETED or CANCELLED row
      gives way to the new one; the route as written refuses that insert
      with 409 (Queues.InsertBuildingRowAsWritten, see "Findings" in the
      README). */
    method StartBuildingUpgrade(exp: real -> real, requested: string, researchLevels: map<TechType, nat>, now: int)
      returns (resp: Response)
      modifies this
      ensures ParseBuildingType(requested).None? ==> resp == Rejected(400, None) && View() == old(View())
      ensures ParseBuildingType(requested).Some? ==>
                var b := ParseBuildingType(requested).value;
                var v := BuildingVerdictFor(old(View()), b, researchLevels, exp, now);
                if v.Invalid? then resp == RejectionFor(v) && View() == old(View())
                else resp == Ok && View() == AfterUpgradeStart(old(View()), b, exp, now)
    {
      var parsed := ParseBuildingType(requested);
      if parsed.None? {
        return Rejected(400, None);
      }
      var b := parsed.value;
      var planetState := AccrualOf(View());
      var currentResources := CurrentResources(exp, planetState, now);
      var hasActiveQueue := buildingQueue.Some? && buildingQueue.value.status == IN_PROGRESS;
      var validation := ValidateBuildingUpgrade(b, buildings, researchLevels, currentResources, hasActiveQueue);
      if validation.Invalid? {
        return Rejected(StatusFor(validation.code), Some(validation.code));
      }
      var entry := NewBuildingEntry(View(), b, now);
      var updated := DeductResources(exp, planetState, entry.cost.AsResources(), now);
      var inserted := InsertBuildingRow(buildingQueue, entry);
      StoreAmounts(updated);
      buildingQueue := inserted.slot;
      return Ok;
    }

    /** The building sweep's transaction for this planet. */
    method CompleteBuildingIfDue(now: int) returns (completed: bool)
      modifies this
      ensures completed <==> BuildingDue(old(View()), now)
      ensures View() == AfterBuildingSweep(old(View()), now)
    {
      if !(buildingQueue.Some? && buildingQueue.value.status == IN_PROGRESS && buildingQueue.value.endTime <= now) {
        assert !BuildingDue(View(), now);
        return false;
      }
      var updated := BuildingCompleted(View());
      buildings := updated.buildings;
      rates := updated.rates;
      energy := updated.energy;
      fieldsUsed := updated.fieldsUsed;
      buildingQueue := updated.buildingQueue;
      return true;
    }

    /** Cancel the upgrade in progress: 400 and no change without one. */
    method CancelBuilding(exp: real -> real, now: int) returns (resp: Response)
      modifies this
      ensures resp == (if BuildingSlotActive(old(buildingQueue)) then Ok else Rejected(400, None))
      ensures View() == AfterBuildingCancel(old(View()), exp, now)
    {
      if buildingQueue.None? || buildingQueue.value.status != IN_PROGRESS {
        return Rejected(400, None);
      }
      var queue := buildingQueue.value;
      var refund := queue.cost.AsResources();
      buildingQueue := Some(queue.(status := CANCELLED));
      var planetState := AccrualOf(View());
      StoreAmounts(AddResources(exp, planetState, refund, now));
      return Ok;
    }

    /** Start a batch of `quantity` ships of the type named `requested`.
      `quantity` is the parsed request number, None when it does not parse. */
    method StartShipBuild(exp: real -> real, requested: string, quantity: Option<int>,
                          researchLevels: map<TechType, nat>, now: int) returns (resp: Response)
      modifies this
      ensures ParseShipType(requested).None? || !QuantityInRange(quantity) ==>
                resp == Rejected(400, None) && View() == old(View())
      ensures ParseShipType(requested).Some? && QuantityInRange(quantity) ==>
                var s := ParseShipType(requested).value;
                var v := ShipVerdictFor(old(View()), s, quantity.value, researchLevels, exp, now);
                if v.Invalid? then resp == RejectionFor(v) && View() == old(View())
                else resp == Ok && View() == AfterShipStart(old(View()), s, quantity.value, exp, now)
    {
      var parsed := ParseShipType(requested);
      if parsed.None? {
        return Rejected(400, None);
      }
      if quantity.None? || quantity.value < 1 || quantity.value > 999 {
        return Rejected(400, None);
      }
      var s := parsed.value;
      var qty := quantity.value;
      var planetState := AccrualOf(View());
      var currentResources := CurrentResources(exp, planetState, now);
      var hasActiveQueue := shipQueue.Some? && shipQueue.value.status == IN_PROGRESS;
      var validation := ValidateShipBuild(s, qty as real, LevelOf(buildings, SHIPYARD), researchLevels,
                                          currentResources, hasActiveQueue);
      if validation.Invalid? {
        return Rejected(StatusFor(validation.code), Some(validation.code));
      }
      var entry := NewShipEntry(View(), s, qty, now);
      StoreAmounts(DeductResources(exp, planetState, entry.cost.AsResources(), now));
      shipQueue := Some(entry);
      return Ok;
    }

    /** The ship sweep's transaction for this planet, with the catch-up loop
      for a sweep that runs late. */
    method CompleteShipsIfDue(now: int) returns (shipsCompleted: nat)
      modifies this
      ensures shipsCompleted == CatchUpCount(old(View()), now)
      ensures View() == AfterShipSweep(old(View()), now)
    {
      if !(shipQueue.Some? && shipQueue.value.status == IN_PROGRESS && shipQueue.value.currentShipEndTime <= now) {
        return 0;
      }
      var queue := shipQueue.value;
      var singleShipTimeMs := SingleShipMs(View(), queue.shipType);
      var remaining := queue.quantity - queue.completedCount;
      var n, _ := CountDueShips(queue.currentShipEndTime, singleShipTimeMs, now, remaining);
      if n == 0 {
        return 0;
      }
      var newCompletedCount := queue.completedCount + n;
      ships := ships[queue.shipType := LevelOf(ships, queue.shipType) + n];
      if newCompletedCount >= queue.quantity {
        shipQueue := None;
      } else {
        shipQueue := Some(queue.(completedCount := newCompletedCount,
                                 currentShipEndTime := queue.currentShipEndTime + singleShipTimeMs * n));
      }
      return n;
    }

    /** Cancel the batch in progress; returns the ships already built. */
    method CancelShips(exp: real -> real, now: int) returns (resp: Response, shipsBuilt: int)
      modifies this
      ensures resp == (if ShipSlotActive(old(shipQueue)) then Ok else Rejected(400, None))
      ensures ShipSlotActive(old(shipQueue)) ==> shipsBuilt == old(shipQueue).value.completedCount
      ensures View() == AfterShipCancel(old(View()), exp, now)
    {
      if shipQueue.None? || shipQueue.value.status != IN_PROGRESS {
        return Rejected(400, None), 0;
      }
      var queue := shipQueue.value;
      var refund := ShipRefund(queue);
      shipQueue := None;
      var planetState := AccrualOf(View());
      StoreAmounts(AddResources(exp, planetState, refund.AsResources(), now));
      return Ok, queue.completedCount;
    }
  }

  class Player {
    const userId: string
    const username: string
    const planet: Planet
    var research: map<TechType, nat>
    var researchQueue: Option<ResearchQueueEntry>

    function View(): PlayerView
      reads this
    {
      PlayerView(research, researchQueue)
    }

    /** A new player: every technology at level 0 and no research queue. */
    constructor(userId: string, username: string, planet: Planet)
      ensures this.userId == userId && this.username == username && this.planet == planet
      ensures View() == PlayerView(ZeroLevels(AllTechTypes), None)
    {
      this.userId := userId;
      this.username := username;
      this.planet := planet;
      research := ZeroLevels(AllTechTypes);
      researchQueue := None;
    }

    /** Start researching the technology named `requested`, paid from the
      player's planet and gated by that planet's lab. */
    method StartResearch(exp: real -> real, requested: string, now: int) returns (resp: Response)
      modifies this, planet
      ensures ParseTechType(requested).None? ==>
                resp == Rejected(400, None) && View() == old(View()) && planet.View() == old(planet.View())
      ensures ParseTechType(requested).Some? ==>
                var t := ParseTechType(requested).value;
                var v := ResearchVerdictFor(old(View()), old(planet.View()), t, exp, now);
                if v.Invalid? then resp == RejectionFor(v) && View() == old(View()) && planet.View() == old(planet.View())
                else
                  var e := NewResearchEntry(old(View()), old(planet.View()), t, now);
                  && resp == Ok
                  && View() == old(View()).(researchQueue := Some(e))
                  && planet.View() == WithAmounts(old(planet.View()),
                       DeductResources(exp, AccrualOf(old(planet.View())), e.cost.AsResources(), now))
    {
      var parsed := ParseTechType(requested);
      if parsed.None? {
        return Rejected(400, None);
      }
      var t := parsed.value;
      var labLevel := LevelOf(planet.buildings, RESEARCH_LAB);
      var planetState := AccrualOf(planet.View());
      var currentResources := CurrentResources(exp, planetState, now);
      var hasActiveQueue := researchQueue.Some? && researchQueue.value.status == IN_PROGRESS;
      var validation := ValidateResearch(t, labLevel, research, currentResources, hasActiveQueue);
      if validation.Invalid? {
        return Rejected(StatusFor(validation.code), Some(validation.code));
      }
      var entry := NewResearchEntry(View(), planet.View(), t, now);
      planet.StoreAmounts(DeductResources(exp, planetState, entry.cost.AsResources(), now));
      researchQueue := Some(entry);
      return Ok;
    }

    /** The research sweep's transaction for this player. */
    method CompleteResearchIfDue(now: int) returns (completed: bool)
      modifies this
      ensures completed <==> ResearchDue(old(View()), now)
      ensures View() == AfterResearchSweep(old(View()), now)
    {
      if !(researchQueue.Some? && researchQueue.value.status == IN_PROGRESS && researchQueue.value.endTime <= now) {
        return false;
      }
      var queue := researchQueue.value;
      research := research[queue.techType := queue.targetLevel];
      researchQueue := None;
      return true;
    }

    /** Cancel the research in progress: the row is deleted and the locked
      cost refunded to the planet at `now`, capped at storage. */
    method CancelResearch(exp: real -> real, now: int) returns (resp: Response)
      modifies this, planet
      ensures !ResearchSlotActive(old(researchQueue)) ==>
                resp == Rejected(400, None) && View() == old(View()) && planet.View() == old(planet.View())
      ensures ResearchSlotActive(old(researchQueue)) ==>
                && resp == Ok && researchQueue.None? && research == old(research)
                && planet.View() == WithAmounts(old(planet.View()),
                     AddResources(exp, AccrualOf(old(planet.View())), old(researchQueue).value.cost.AsResources(), now))
    {
      if researchQueue.None? || researchQueue.value.status != IN_PROGRESS {
        return Rejected(400, None);
      }
      var queue := researchQueue.value;
      var refund := queue.cost.AsResources();
      researchQueue := None;
      var planetState := AccrualOf(planet.View());
      planet.StoreAmounts(AddResources(exp, planetState, refund, now));
      return Ok;
    }
  }

  // ---- The sweeps ----

  /** A swept planet has no due upgrade left. */
  lemma SweptPlanetNotDue(p: PlanetView, now: int)
    ensures !BuildingDue(AfterBuildingSweep(p, now), now)
  {
    BuildingSweepMeaning(p, now);
  }

  /** The building cron: every planet's due upgrade is completed once, even
      when a planet is listed twice, and the answer counts the completions:
      one per distinct planet whose row was due. */
  method BuildingSweep(planets: seq<Planet>, now: int) returns (processed: nat)
    modifies set p | p in planets
    ensures processed == |set p | p in planets && BuildingDue(old(p.View()), now)|
    ensures forall p :: p in planets ==> p.View() == AfterBuildingSweep(old(p.View()), now)
  {
    ghost var due := set p | p in planets && BuildingDue(old(p.View()), now);
    ghost var visited: set<Planet> := {};
    ghost var done: set<Planet> := {};
    processed := 0;
    for i := 0 to |planets|
      invariant forall j :: 0 <= j < i ==> planets[j] in visited
      invariant forall p :: p in done <==> p in visited && p in due
      invariant processed == |done|
      invariant forall p :: p in planets ==>
                  p.View() == if p in visited then AfterBuildingSweep(old(p.View()), now) else old(p.View())
    {
      var planet := planets[i];
      ghost var was := old(planet.View());
      ghost var seen := planet in visited;
      assert planet in due <==> BuildingDue(was, now);
      assert BuildingDue(planet.View(), now) <==> planet in due && !seen by {
        SweptPlanetNotDue(was, now);
      }
      var completed := planet.CompleteBuildingIfDue(now);
      assert planet.View() == AfterBuildingSweep(was, now) by {
        BuildingSweepIdempotent(was, now);
      }
      if completed {
        processed := processed + 1;
        done := done + {planet};
      }
      visited := visited + {planet};
    }
    assert done == due;
  }

  /** The ship cron: every planet's due ships are delivered once, even when a
      planet is listed twice, and the answer counts one result per distinct
      planet on which at least one ship was finished. */
  method ShipSweep(planets: seq<Planet>, now: int) returns (processed: nat)
    modifies set p | p in planets
    ensures processed == |set p | p in planets && ShipsFinishing(old(p.View()), now)|
    ensures forall p :: p in planets ==> p.View() == AfterShipSweep(old(p.View()), now)
  {
    ghost var due := set p | p in planets && ShipsFinishing(old(p.View()), now);
    ghost var visited: set<Planet> := {};
    ghost var done: set<Planet> := {};
    processed := 0;
    for i := 0 to |planets|
      invariant forall j :: 0 <= j < i ==> planets[j] in visited
      invariant forall p :: p in done <==> p in visited && p in due
      invariant processed == |done|
      invariant forall p :: p in planets ==>
                  p.View() == if p in visited then AfterShipSweep(old(p.View()), now) else old(p.View())
    {
      var planet := planets[i];
      ghost var was := old(planet.View());
      ghost var seen := planet in visited;
      assert planet in due <==> ShipsFinishing(was, now);
      assert CatchUpCount(planet.View(), now) > 0 <==> planet in due && !seen by {
        SweptShipsNotDue(was, now);
        ShipsFinishingMeaning(was, now);
      }
      var n := planet.CompleteShipsIfDue(now);
      assert planet.View() == AfterShipSweep(was, now) by {
        ShipSweepIdempotent(was, now);
      }
      if n > 0 {
        processed := processed + 1;
        done := done + {planet};
      }
      visited := visited + {planet};
    }
    assert done == due;
  }

  /** The research cron: every player's due research is completed once, even
      when a player is listed twice, and the answer counts one result per
      distinct player whose research was due. */
  method ResearchSweep(players: seq<Player>, now: int) returns (processed: nat)
    modifies set p | p in players
    ensures processed == |set p | p in players && ResearchDue(old(p.View()), now)|
    ensures forall p :: p in players ==> p.View() == AfterResearchSweep(old(p.View()), now)
  {
    ghost var due := set p | p in players && ResearchDue(old(p.View()), now);
    ghost var visited: set<Player> := {};
    ghost var done: set<Player> := {};
    processed := 0;
    for i := 0 to |players|
      invariant forall j :: 0 <= j < i ==> players[j] in visited
      invariant forall p :: p in done <==> p in visited && p in due
      invariant processed == |done|
      invariant forall p :: p in players ==>
                  p.View() == if p in visited then AfterResearchSweep(old(p.View()), now) else old(p.View())
    {
      var player := players[i];
      ghost var was := old(player.View());
      ghost var seen := player in visited;
      assert player in due <==> ResearchDue(was, now);
      assert ResearchDue(player.View(), now) <==> player in due && !seen;
      var completed := player.CompleteResearchIfDue(now);
      assert player.View() == AfterResearchSweep(was, now) by {
        ResearchSweepIdempotent(was, now);
      }
      if completed {
        processed := processed + 1;
        done := done + {player};
      }
      visited := visited + {player};
    }
    assert done == due;
  }
}
