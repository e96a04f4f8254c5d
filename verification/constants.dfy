/** The game's balance tables: base costs, cost multipliers, the building
    classification lists, prerequisite tables and the time and storage constants. */
module Constants {
  import opened GameTypes

  // Production
  const METAL_BASE: int := 30
  const CRYSTAL_BASE: int := 20
  const DEUTERIUM_BASE: int := 10
  const SOLAR_BASE: int := 20
  /** The 1.1 production multiplier, as the exact fraction 11/10. */
  const MULTIPLIER_NUM: nat := 11
  const MULTIPLIER_DEN: nat := 10

  // Energy
  const METAL_MINE_CONSUMPTION_BASE: int := 10
  const CRYSTAL_MINE_CONSUMPTION_BASE: int := 10
  const DEUTERIUM_SYNTHESIZER_CONSUMPTION_BASE: int := 20

  // Deuterium temperature dependence
  const DEUTERIUM_BASE_FACTOR: real := 1.36
  const DEUTERIUM_TEMPERATURE_COEFFICIENT: real := 0.004

  // Time
  const CONSTRUCTION_BASE: int := 2500
  const RESEARCH_BASE: int := 1000
  const SECONDS_PER_HOUR: int := 3600
  const MINIMUM_SECONDS: int := 1
  /** Global speed multiplier; the seeded value. */
  const GAME_SPEED: real := 1.0

  // Storage
  const BASE_CAPACITY: int := 5000
  const CAPACITY_MULTIPLIER: real := 2.5
  const EXPONENT_DIVISOR: int := 33
  const EXPONENT_MULTIPLIER: int := 20

  function BuildingBaseCost(b: BuildingType): Cost
  {
    match b
    case METAL_MINE => Cost(80, 20, 0)
    case CRYSTAL_MINE => Cost(64, 32, 0)
    case DEUTERIUM_SYNTHESIZER => Cost(340, 100, 0)
    case SOLAR_PLANT => Cost(100, 40, 0)
    case METAL_STORAGE => Cost(10000, 0, 0)
    case CRYSTAL_STORAGE => Cost(10000, 5000, 0)
    case DEUTERIUM_TANK => Cost(10000, 10000, 0)
    case RESEARCH_LAB => Cost(200, 400, 200)
    case SHIPYARD => Cost(400, 200, 100)
    case ROBOT_FACTORY => Cost(400, 120, 200)
    case NANITE_FACTORY => Cost(1000000, 500000, 100000)
  }

  /** The mine multiplier 1.5 is the fraction 3/2; facilities and storage use 2. */
  const MINE_COST_MULTIPLIER_NUM: nat := 3
  const MINE_COST_MULTIPLIER_DEN: nat := 2
  const FACILITY_COST_MULTIPLIER: nat := 2
  const STORAGE_COST_MULTIPLIER: nat := 2

  const MineBuildings: seq<BuildingType> :=
    [METAL_MINE, CRYSTAL_MINE, DEUTERIUM_SYNTHESIZER, SOLAR_PLANT]
  const FacilityBuildings: seq<BuildingType> :=
    [RESEARCH_LAB, SHIPYARD, ROBOT_FACTORY, NANITE_FACTORY]
  const StorageBuildings: seq<BuildingType> :=
    [METAL_STORAGE, CRYSTAL_STORAGE, DEUTERIUM_TANK]

  function ResearchBaseCost(t: TechType): Cost
  {
    match t
    case ENERGY => Cost(0, 800, 400)
    case COMPUTER => Cost(0, 400, 600)
    case WEAPONS => Cost(800, 200, 0)
    case SHIELDING => Cost(200, 600, 0)
    case ARMOR => Cost(1000, 0, 0)
    case COMBUSTION_DRIVE => Cost(400, 0, 600)
    case IMPULSE_DRIVE => Cost(2000, 4000, 600)
    case HYPERSPACE_DRIVE => Cost(10000, 20000, 6000)
    case ESPIONAGE => Cost(200, 1000, 200)
  }

  const RESEARCH_COST_MULTIPLIER: nat := 2

  function ShipUnitCost(s: ShipType): Cost
  {
    match s
    case SMALL_CARGO => Cost(2000, 2000, 0)
    case LARGE_CARGO => Cost(6000, 6000, 0)
    case LIGHT_FIGHTER => Cost(3000, 1000, 0)
    case HEAVY_FIGHTER => Cost(6000, 4000, 0)
    case CRUISER => Cost(20000, 7000, 2000)
  }

  /** One entry of a prerequisite table: `key` must be at least `level`.
      Entries are kept in the tables' own key order, which is the order in
      which the validators report shortfalls. */
  datatype Requirement<K> = Requirement(key: K, level: nat)

  function BuildingPrereqBuildings(b: BuildingType): seq<Requirement<BuildingType>>
  {
    match b
    case SHIPYARD => [Requirement(ROBOT_FACTORY, 2)]
    case NANITE_FACTORY => [Requirement(ROBOT_FACTORY, 10)]
    case _ => []
  }

  function BuildingPrereqResearch(b: BuildingType): seq<Requirement<TechType>>
  {
    match b
    case NANITE_FACTORY => [Requirement(COMPUTER, 10)]
    case _ => []
  }

  function ResearchLabLevel(t: TechType): nat
  {
    match t
    case ENERGY => 1
    case COMPUTER => 1
    case WEAPONS => 4
    case SHIELDING => 6
    case ARMOR => 2
    case COMBUSTION_DRIVE => 1
    case IMPULSE_DRIVE => 2
    case HYPERSPACE_DRIVE => 7
    case ESPIONAGE => 3
  }

  function ResearchPrereqResearch(t: TechType): seq<Requirement<TechType>>
  {
    match t
    case SHIELDING => [Requirement(ENERGY, 3)]
    case COMBUSTION_DRIVE => [Requirement(ENERGY, 1)]
    case IMPULSE_DRIVE => [Requirement(ENERGY, 1)]
    case _ => []
  }

  function ShipShipyardLevel(s: ShipType): nat
  {
    match s
    case SMALL_CARGO => 2
    case LARGE_CARGO => 4
    case LIGHT_FIGHTER => 1
    case HEAVY_FIGHTER => 3
    case CRUISER => 5
  }

  function ShipPrereqResearch(s: ShipType): seq<Requirement<TechType>>
  {
    match s
    case SMALL_CARGO => [Requirement(COMBUSTION_DRIVE, 2)]
    case LARGE_CARGO => [Requirement(COMBUSTION_DRIVE, 6)]
    case LIGHT_FIGHTER => [Requirement(COMBUSTION_DRIVE, 1)]
    case HEAVY_FIGHTER => [Requirement(ARMOR, 2), Requirement(IMPULSE_DRIVE, 2)]
    case CRUISER => [Requirement(IMPULSE_DRIVE, 4), Requirement(WEAPONS, 2)]
  }

  // ---- Properties of the tables ----

  /** Every building type is in exactly one of the three classification lists. */
  lemma ClassificationIsPartition(b: BuildingType)
    ensures b in MineBuildings || b in FacilityBuildings || b in StorageBuildings
    ensures !(b in MineBuildings && b in FacilityBuildings)
    ensures !(b in MineBuildings && b in StorageBuildings)
    ensures !(b in FacilityBuildings && b in StorageBuildings)
  {
  }

  /** No base cost component is negative. */
  lemma BaseCostsNonNegative(b: BuildingType, t: TechType, s: ShipType)
    ensures BuildingBaseCost(b).NonNegative()
    ensures ResearchBaseCost(t).NonNegative()
    ensures ShipUnitCost(s).NonNegative()
  {
  }

  /** Only the shipyard and the nanite factory have building prerequisites,
      and only the nanite factory has a research prerequisite. */
  lemma BuildingPrerequisitesShape(b: BuildingType)
    ensures |BuildingPrereqBuildings(b)| > 0 <==> b == SHIPYARD || b == NANITE_FACTORY
    ensures |BuildingPrereqResearch(b)| > 0 <==> b == NANITE_FACTORY
  {
  }

  /** Every technology needs a lab of level at least 1 and none lists itself. */
  lemma ResearchPrerequisitesShape(t: TechType)
    ensures ResearchLabLevel(t) >= 1
    ensures forall r :: r in ResearchPrereqResearch(t) ==> r.key != t
  {
  }

  /** Every ship needs a shipyard of level at least 1 and some research. */
  lemma ShipPrerequisitesShape(s: ShipType)
    ensures ShipShipyardLevel(s) >= 1
    ensures |ShipPrereqResearch(s)| >= 1
  {
  }

  /** The time constants make every time divisor positive. */
  lemma TimeConstantsPositive()
    ensures MINIMUM_SECONDS == 1
    ensures CONSTRUCTION_BASE > 0 && RESEARCH_BASE > 0 && GAME_SPEED > 0.0
  {
  }
}
