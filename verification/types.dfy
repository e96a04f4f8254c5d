/** The game's value types: the three enumerations of the database schema,
    resource triples, integer cost triples and level maps that default to 0. */
module GameTypes {

  datatype Option<T> = None | Some(value: T)

  datatype BuildingType =
    | METAL_MINE | CRYSTAL_MINE | DEUTERIUM_SYNTHESIZER | SOLAR_PLANT
    | METAL_STORAGE | CRYSTAL_STORAGE | DEUTERIUM_TANK
    | RESEARCH_LAB | SHIPYARD | ROBOT_FACTORY | NANITE_FACTORY

  datatype TechType =
    | ENERGY | COMPUTER | WEAPONS | SHIELDING | ARMOR
    | COMBUSTION_DRIVE | IMPULSE_DRIVE | HYPERSPACE_DRIVE | ESPIONAGE

  datatype ShipType =
    | SMALL_CARGO | LARGE_CARGO | LIGHT_FIGHTER | HEAVY_FIGHTER | CRUISER

  /** Every value of each enumeration, in schema order (what `Object.values`
      yields for the generated enum objects). */
  const AllBuildingTypes: seq<BuildingType> :=
    [METAL_MINE, CRYSTAL_MINE, DEUTERIUM_SYNTHESIZER, SOLAR_PLANT,
     METAL_STORAGE, CRYSTAL_STORAGE, DEUTERIUM_TANK,
     RESEARCH_LAB, SHIPYARD, ROBOT_FACTORY, NANITE_FACTORY]
  const AllTechTypes: seq<TechType> :=
    [ENERGY, COMPUTER, WEAPONS, SHIELDING, ARMOR,
     COMBUSTION_DRIVE, IMPULSE_DRIVE, HYPERSPACE_DRIVE, ESPIONAGE]
  const AllShipTypes: seq<ShipType> :=
    [SMALL_CARGO, LARGE_CARGO, LIGHT_FIGHTER, HEAVY_FIGHTER, CRUISER]

  /** The string value of each enumeration member, as sent in request bodies. */
  function BuildingTypeName(b: BuildingType): string
  {
    match b
    case METAL_MINE => "METAL_MINE"
    case CRYSTAL_MINE => "CRYSTAL_MINE"
    case DEUTERIUM_SYNTHESIZER => "DEUTERIUM_SYNTHESIZER"
    case SOLAR_PLANT => "SOLAR_PLANT"
    case METAL_STORAGE => "METAL_STORAGE"
    case CRYSTAL_STORAGE => "CRYSTAL_STORAGE"
    case DEUTERIUM_TANK => "DEUTERIUM_TANK"
    case RESEARCH_LAB => "RESEARCH_LAB"
    case SHIPYARD => "SHIPYARD"
    case ROBOT_FACTORY => "ROBOT_FACTORY"
    case NANITE_FACTORY => "NANITE_FACTORY"
  }

  function TechTypeName(t: TechType): string
  {
    match t
    case ENERGY => "ENERGY"
    case COMPUTER => "COMPUTER"
    case WEAPONS => "WEAPONS"
    case SHIELDING => "SHIELDING"
    case ARMOR => "ARMOR"
    case COMBUSTION_DRIVE => "COMBUSTION_DRIVE"
    case IMPULSE_DRIVE => "IMPULSE_DRIVE"
    case HYPERSPACE_DRIVE => "HYPERSPACE_DRIVE"
    case ESPIONAGE => "ESPIONAGE"
  }

  function ShipTypeName(s: ShipType): string
  {
    match s
    case SMALL_CARGO => "SMALL_CARGO"
    case LARGE_CARGO => "LARGE_CARGO"
    case LIGHT_FIGHTER => "LIGHT_FIGHTER"
    case HEAVY_FIGHTER => "HEAVY_FIGHTER"
    case CRUISER => "CRUISER"
  }

  /** Membership test of a request string in the enumeration's values. */
  function ParseBuildingType(s: string): (r: Option<BuildingType>)
    ensures r.Some? ==> BuildingTypeName(r.value) == s
    ensures r.None? ==> forall b: BuildingType :: BuildingTypeName(b) != s
  {
    if s == "METAL_MINE" then Some(METAL_MINE)
    else if s == "CRYSTAL_MINE" then Some(CRYSTAL_MINE)
    else if s == "DEUTERIUM_SYNTHESIZER" then Some(DEUTERIUM_SYNTHESIZER)
    else if s == "SOLAR_PLANT" then Some(SOLAR_PLANT)
    else if s == "METAL_STORAGE" then Some(METAL_STORAGE)
    else if s == "CRYSTAL_STORAGE" then Some(CRYSTAL_STORAGE)
    else if s == "DEUTERIUM_TANK" then Some(DEUTERIUM_TANK)
    else if s == "RESEARCH_LAB" then Some(RESEARCH_LAB)
    else if s == "SHIPYARD" then Some(SHIPYARD)
    else if s == "ROBOT_FACTORY" then Some(ROBOT_FACTORY)
    else if s == "NANITE_FACTORY" then Some(NANITE_FACTORY)
    else None
  }

  function ParseTechType(s: string): (r: Option<TechType>)
    ensures r.Some? ==> TechTypeName(r.value) == s
    ensures r.None? ==> forall t: TechType :: TechTypeName(t) != s
  {
    if s == "ENERGY" then Some(ENERGY)
    else if s == "COMPUTER" then Some(COMPUTER)
    else if s == "WEAPONS" then Some(WEAPONS)
    else if s == "SHIELDING" then Some(SHIELDING)
    else if s == "ARMOR" then Some(ARMOR)
    else if s == "COMBUSTION_DRIVE" then Some(COMBUSTION_DRIVE)
    else if s == "IMPULSE_DRIVE" then Some(IMPULSE_DRIVE)
    else if s == "HYPERSPACE_DRIVE" then Some(HYPERSPACE_DRIVE)
    else if s == "ESPIONAGE" then Some(ESPIONAGE)
    else None
  }

  function ParseShipType(s: string): (r: Option<ShipType>)
    ensures r.Some? ==> ShipTypeName(r.value) == s
    ensures r.None? ==> forall k: ShipType :: ShipTypeName(k) != s
  {
    if s == "SMALL_CARGO" then Some(SMALL_CARGO)
    else if s == "LARGE_CARGO" then Some(LARGE_CARGO)
    else if s == "LIGHT_FIGHTER" then Some(LIGHT_FIGHTER)
    else if s == "HEAVY_FIGHTER" then Some(HEAVY_FIGHTER)
    else if s == "CRUISER" then Some(CRUISER)
    else None
  }

  /** Parsing an enumeration's own string value gives that member back. */
  lemma EnumNamesRoundTrip(b: BuildingType, t: TechType, k: ShipType)
    ensures ParseBuildingType(BuildingTypeName(b)) == Some(b)
    ensures ParseTechType(TechTypeName(t)) == Some(t)
    ensures ParseShipType(ShipTypeName(k)) == Some(k)
  {
  }

  /** Amounts of the three resources (stored amounts, hourly rates, capacities).
      Stored amounts are floating point in the source; they are exact reals here. */
  datatype Resources = Resources(metal: real, crystal: real, deuterium: real)

  /** A cost, always a whole number of each resource. */
  datatype Cost = Cost(metal: int, crystal: int, deuterium: int)
  {
    function AsResources(): Resources
    {
      Resources(metal as real, crystal as real, deuterium as real)
    }
    predicate NonNegative()
    {
      metal >= 0 && crystal >= 0 && deuterium >= 0
    }
  }

  /** A level looked up in a partial level map; an absent key counts as 0,
      as every `?? 0` in the source does. */
  function LevelOf<K>(m: map<K, nat>, k: K): nat
  {
    if k in m then m[k] else 0
  }

  /** A map holding level 0 for every key in `keys`. */
  function ZeroLevels<K(!new)>(keys: seq<K>): (m: map<K, nat>)
    ensures forall k :: k in m <==> k in keys
    ensures forall k :: k in m ==> m[k] == 0
  {
    if |keys| == 0 then map[] else ZeroLevels(keys[..|keys| - 1])[keys[|keys| - 1] := 0]
  }
}
