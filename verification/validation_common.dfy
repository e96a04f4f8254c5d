/** Shared vocabulary of the three validators: the shortfall records they
    report, their error codes and verdicts, the reasons given by their
    boolean twins, and the conversion of database rows into level maps. */
module Validation {
  import opened GameTypes
  import opened Constants
  import opened Accrual

  /** Which requirement a shortfall record is about. */
  datatype PrereqKind = BuildingPrereq | ResearchPrereq | LabPrereq | ShipyardPrereq

  /** One unmet prerequisite: its kind, the name of the building or
      technology, the level required and the level present. */
  datatype MissingPrerequisite = MissingPrerequisite(kind: PrereqKind, name: string, requiredLevel: nat, currentLevel: nat)

  datatype ErrorCode =
    | QUEUE_ACTIVE
    | PREREQUISITES_NOT_MET
    | LAB_LEVEL_INSUFFICIENT
    | SHIPYARD_LEVEL_INSUFFICIENT
    | INSUFFICIENT_RESOURCES
    | INVALID_QUANTITY

  /** The optional details of a rejection. */
  datatype Details =
    | NoDetails
    | MissingList(missing: seq<MissingPrerequisite>)
    | ResourceShortfall(required: Resources, available: Resources)

  datatype ValidationResult = Valid | Invalid(code: ErrorCode, details: Details)

  /** Result of a boolean twin: allowed, or refused with a short reason. */
  datatype CheckResult = Allowed | Denied(reason: string)

  /** The reason string the boolean twins give for each error code. */
  function ReasonOfCode(code: ErrorCode): string
  {
    match code
    case QUEUE_ACTIVE => "queue_active"
    case PREREQUISITES_NOT_MET => "prerequisites"
    case LAB_LEVEL_INSUFFICIENT => "lab_level"
    case SHIPYARD_LEVEL_INSUFFICIENT => "shipyard_level"
    case INSUFFICIENT_RESOURCES => "resources"
    case INVALID_QUANTITY => "invalid_quantity"
  }

  /** Distinct error codes have distinct reasons, so a reason names its code. */
  lemma ReasonOfCodeInjective(c1: ErrorCode, c2: ErrorCode)
    ensures ReasonOfCode(c1) == ReasonOfCode(c2) <==> c1 == c2
  {
  }

  /** What a boolean twin answers when the full validator returns `v`:
      allowed exactly when `v` is valid, otherwise the reason of its code. */
  function ReasonFor(v: ValidationResult): (r: CheckResult)
    ensures r.Allowed? <==> v.Valid?
    ensures v.Invalid? ==> r == Denied(ReasonOfCode(v.code))
  {
    match v
    case Valid => Allowed
    case Invalid(code, _) => Denied(ReasonOfCode(code))
  }

  // ---- Prerequisite shortfalls ----

  predicate RequirementMet<K>(levels: map<K, nat>, r: Requirement<K>)
  {
    LevelOf(levels, r.key) >= r.level
  }

  predicate AllRequirementsMet<K>(reqs: seq<Requirement<K>>, levels: map<K, nat>)
  {
    forall i :: 0 <= i < |reqs| ==> RequirementMet(levels, reqs[i])
  }

  /** The record a validator pushes for requirement `r`. */
  function ShortfallOf<K>(r: Requirement<K>, levels: map<K, nat>, kind: PrereqKind, name: K -> string): MissingPrerequisite
  {
    MissingPrerequisite(kind, name(r.key), r.level, LevelOf(levels, r.key))
  }

  /** The unmet requirements of `reqs`, in table order, as shortfall
      records: every unmet requirement is reported, every report is of the
      given kind and shows a level below the required one, and the list is
      empty exactly when every requirement is met. */
  function Shortfalls<K>(reqs: seq<Requirement<K>>, levels: map<K, nat>, kind: PrereqKind, name: K -> string)
    : (r: seq<MissingPrerequisite>)
    ensures |r| <= |reqs|
    ensures forall m :: m in r ==> m.kind == kind && m.currentLevel < m.requiredLevel
    ensures forall i :: 0 <= i < |reqs| && !RequirementMet(levels, reqs[i]) ==>
              ShortfallOf(reqs[i], levels, kind, name) in r
    ensures r == [] <==> AllRequirementsMet(reqs, levels)
  {
    if |reqs| == 0 then []
    else
      var last := reqs[|reqs| - 1];
      var rest := Shortfalls(reqs[..|reqs| - 1], levels, kind, name);
      assert forall i :: 0 <= i < |reqs| - 1 ==> reqs[..|reqs| - 1][i] == reqs[i];
      if RequirementMet(levels, last) then rest
      else rest + [ShortfallOf(last, levels, kind, name)]
  }

  /** Every record comes from an unmet requirement of the table. */
  lemma {:induction false} ShortfallsOnlyUnmet<K>(reqs: seq<Requirement<K>>, levels: map<K, nat>,
                                                  kind: PrereqKind, name: K -> string)
    ensures forall m :: m in Shortfalls(reqs, levels, kind, name) ==>
              exists i :: 0 <= i < |reqs| && !RequirementMet(levels, reqs[i]) && m == ShortfallOf(reqs[i], levels, kind, name)
    decreases |reqs|
  {
    if |reqs| > 0 {
      var init := reqs[..|reqs| - 1];
      ShortfallsOnlyUnmet(init, levels, kind, name);
      forall m | m in Shortfalls(reqs, levels, kind, name)
        ensures exists i :: 0 <= i < |reqs| && !RequirementMet(levels, reqs[i]) && m == ShortfallOf(reqs[i], levels, kind, name)
      {
        if m in Shortfalls(init, levels, kind, name) {
          var i :| 0 <= i < |init| && !RequirementMet(levels, init[i]) && m == ShortfallOf(init[i], levels, kind, name);
          assert reqs[i] == init[i];
        } else {
          assert m == ShortfallOf(reqs[|reqs| - 1], levels, kind, name);
        }
      }
    }
  }

  /** One requirement gives its record when unmet and nothing when met. */
  lemma ShortfallsSingle<K>(q: Requirement<K>, levels: map<K, nat>, kind: PrereqKind, name: K -> string)
    ensures Shortfalls([q], levels, kind, name)
            == if RequirementMet(levels, q) then [] else [ShortfallOf(q, levels, kind, name)]
  {
    assert [q][..0] == [];
  }

  /** The records of two tables in a row are those of the first table
      followed by those of the second: reports keep table order. */
  lemma {:induction false} ShortfallsAppend<K>(a: seq<Requirement<K>>, b: seq<Requirement<K>>, levels: map<K, nat>,
                                               kind: PrereqKind, name: K -> string)
    ensures Shortfalls(a + b, levels, kind, name) == Shortfalls(a, levels, kind, name) + Shortfalls(b, levels, kind, name)
    decreases |b|
  {
    if |b| == 0 {
      assert a + b == a;
    } else {
      var b', last := b[..|b| - 1], b[|b| - 1];
      var tail := if RequirementMet(levels, last) then [] else [ShortfallOf(last, levels, kind, name)];
      assert (a + b)[..|a + b| - 1] == a + b';
      assert (a + b)[|a + b| - 1] == last;
      assert Shortfalls(a + b, levels, kind, name) == Shortfalls(a + b', levels, kind, name) + tail;
      assert Shortfalls(b, levels, kind, name) == Shortfalls(b', levels, kind, name) + tail;
      ShortfallsAppend(a, b', levels, kind, name);
      assert Shortfalls(a + b, levels, kind, name)
             == (Shortfalls(a, levels, kind, name) + Shortfalls(b', levels, kind, name)) + tail;
    }
  }

  /** Push onto `missing` a record for every unmet requirement, in order. */
  method AppendShortfalls<K>(missing: seq<MissingPrerequisite>, reqs: seq<Requirement<K>>, levels: map<K, nat>,
                             kind: PrereqKind, name: K -> string)
    returns (out: seq<MissingPrerequisite>)
    ensures out == missing + Shortfalls(reqs, levels, kind, name)
  {
    out := missing;
    for i := 0 to |reqs|
      invariant out == missing + Shortfalls(reqs[..i], levels, kind, name)
    {
      assert reqs[..i + 1][..i] == reqs[..i];
      var currentLevel := LevelOf(levels, reqs[i].key);
      if currentLevel < reqs[i].level {
        out := out + [MissingPrerequisite(kind, name(reqs[i].key), reqs[i].level, currentLevel)];
      }
    }
    assert reqs[..|reqs|] == reqs;
  }

  /** The early-return scan of the boolean twins: false at the first unmet requirement. */
  method CheckAllMet<K>(reqs: seq<Requirement<K>>, levels: map<K, nat>) returns (ok: bool)
    ensures ok <==> AllRequirementsMet(reqs, levels)
  {
    for i := 0 to |reqs|
      invariant forall j :: 0 <= j < i ==> RequirementMet(levels, reqs[j])
    {
      if LevelOf(levels, reqs[i].key) < reqs[i].level {
        return false;
      }
    }
    return true;
  }

  /** Whether some record in the list is of the given kind. */
  predicate AnyOfKind(missing: seq<MissingPrerequisite>, kind: PrereqKind)
  {
    exists i :: 0 <= i < |missing| && missing[i].kind == kind
  }

  /** A single level requirement outside the tables (lab, shipyard): its
      record, or nothing when the level suffices. */
  function LevelShortfall(kind: PrereqKind, name: string, required: nat, current: nat): (r: seq<MissingPrerequisite>)
    ensures r == [] <==> current >= required
    ensures r != [] ==> r == [MissingPrerequisite(kind, name, required, current)]
  {
    if current < required then [MissingPrerequisite(kind, name, required, current)] else []
  }

  /** A single-level shortfall followed by table shortfalls of another kind
      contains a record of the first kind exactly when that level is short. */
  lemma LeadingKindDecides<K>(kind: PrereqKind, what: string, required: nat, current: nat,
                              reqs: seq<Requirement<K>>, levels: map<K, nat>, other: PrereqKind, name: K -> string)
    requires kind != other
    ensures AnyOfKind(LevelShortfall(kind, what, required, current) + Shortfalls(reqs, levels, other, name), kind)
            <==> current < required
  {
    var lead := LevelShortfall(kind, what, required, current);
    var rest := Shortfalls(reqs, levels, other, name);
    var all := lead + rest;
    if current < required {
      assert all[0].kind == kind;
    } else {
      assert lead == [];
      assert forall i :: 0 <= i < |all| ==> all[i] in rest;
    }
  }

  // ---- Database rows to level maps ----

  /** One database row: a building, technology or ship type with its level or count. */
  datatype Row<K> = Row(key: K, value: nat)

  /** Fold the rows into a map, later rows overwriting earlier ones: the
      keys are exactly the keys present, and each key holds the value of
      the last row carrying it. */
  function RowsToMap<K(!new)>(rows: seq<Row<K>>): (m: map<K, nat>)
    ensures forall k :: k in m <==> exists i :: 0 <= i < |rows| && rows[i].key == k
    ensures forall i :: (0 <= i < |rows| && (forall j :: i < j < |rows| ==> rows[j].key != rows[i].key)) ==>
              rows[i].key in m && m[rows[i].key] == rows[i].value
  {
    if |rows| == 0 then map[]
    else
      var prefix := rows[..|rows| - 1];
      var last := rows[|rows| - 1];
      var m0 := RowsToMap(prefix);
      assert forall i :: 0 <= i < |rows| - 1 ==> prefix[i] == rows[i];
      m0[last.key := last.value]
  }

  /** The planet row fields the resource calculation needs. */
  datatype PlanetRecord = PlanetRecord(
    metal: real, crystal: real, deuterium: real,
    metalPerHour: real, crystalPerHour: real, deuteriumPerHour: real,
    lastResourceUpdate: int,
    buildings: seq<Row<BuildingType>>)

  /** Whether any building row is of type `b`. */
  predicate HasRow(rows: seq<Row<BuildingType>>, b: BuildingType)
  {
    exists i :: 0 <= i < |rows| && rows[i].key == b
  }

  /** The accrual state of a planet row: amounts, rates and snapshot time
      copied, storage levels read from its building rows, 0 when absent. */
  function PlanetToPlanetState(planet: PlanetRecord): (s: PlanetState)
    ensures s.metal == planet.metal && s.crystal == planet.crystal && s.deuterium == planet.deuterium
    ensures s.metalPerHour == planet.metalPerHour && s.crystalPerHour == planet.crystalPerHour
            && s.deuteriumPerHour == planet.deuteriumPerHour
    ensures s.lastResourceUpdate == planet.lastResourceUpdate
    ensures !HasRow(planet.buildings, METAL_STORAGE) ==> s.metalStorageLevel == 0
    ensures !HasRow(planet.buildings, CRYSTAL_STORAGE) ==> s.crystalStorageLevel == 0
    ensures !HasRow(planet.buildings, DEUTERIUM_TANK) ==> s.deuteriumStorageLevel == 0
    ensures forall i :: (0 <= i < |planet.buildings| && planet.buildings[i].key == METAL_STORAGE
              && (forall j :: i < j < |planet.buildings| ==> planet.buildings[j].key != METAL_STORAGE)) ==>
              s.metalStorageLevel == planet.buildings[i].value
    ensures forall i :: (0 <= i < |planet.buildings| && planet.buildings[i].key == CRYSTAL_STORAGE
              && (forall j :: i < j < |planet.buildings| ==> planet.buildings[j].key != CRYSTAL_STORAGE)) ==>
              s.crystalStorageLevel == planet.buildings[i].value
    ensures forall i :: (0 <= i < |planet.buildings| && planet.buildings[i].key == DEUTERIUM_TANK
              && (forall j :: i < j < |planet.buildings| ==> planet.buildings[j].key != DEUTERIUM_TANK)) ==>
              s.deuteriumStorageLevel == planet.buildings[i].value
    ensures s.metalStorageLevel >= 0 && s.crystalStorageLevel >= 0 && s.deuteriumStorageLevel >= 0
  {
    var buildingLevels := RowsToMap(planet.buildings);
    PlanetState(planet.metal, planet.crystal, planet.deuterium,
                planet.metalPerHour, planet.crystalPerHour, planet.deuteriumPerHour,
                planet.lastResourceUpdate,
                LevelOf(buildingLevels, METAL_STORAGE),
                LevelOf(buildingLevels, CRYSTAL_STORAGE),
                LevelOf(buildingLevels, DEUTERIUM_TANK))
  }
}
