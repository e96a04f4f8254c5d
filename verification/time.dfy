/** Construction, research and ship build times in whole seconds, and the
    human-readable duration format. */
module Time {
  import opened MathUtil
  import opened GameTypes
  import opened Constants
  import opened Costs

  /** `max(MINIMUM_SECONDS, floor(total / divisor * SECONDS_PER_HOUR / GAME_SPEED))`,
      the shape shared by all three time formulas. */
  function FlooredSeconds(total: int, divisor: int): (r: int)
    requires divisor > 0
    ensures r >= MINIMUM_SECONDS
  {
    Max(MINIMUM_SECONDS,
        ((total as real / divisor as real) * SECONDS_PER_HOUR as real / GAME_SPEED).Floor)
  }

  /** With the game speed at 1 the formula is an integer division of total·3600. */
  lemma FlooredSecondsIntegerForm(total: int, divisor: int)
    requires divisor > 0
    ensures FlooredSeconds(total, divisor) == Max(1, (total * 3600) / divisor)
  {
    ScaleFraction(3600, if total >= 0 then total else 0, divisor);
    var x := total as real / divisor as real;
    assert x * 3600.0 / 1.0 == x * 3600.0;
    assert x * 3600.0 == (total * 3600) as real / divisor as real by {
      assert x * divisor as real == total as real;
      assert (x * 3600.0) * divisor as real == total as real * 3600.0;
      CastMul(total, 3600);
    }
    FloorOfQuotient(total * 3600, divisor);
  }

  /** A larger divisor never gives a longer time, whatever the sign of the total. */
  lemma FlooredSecondsAntitone(total: int, d1: int, d2: int)
    requires 0 < d1 <= d2
    ensures FlooredSeconds(total, d2) <= FlooredSeconds(total, d1)
  {
    FlooredSecondsIntegerForm(total, d1);
    FlooredSecondsIntegerForm(total, d2);
    var a := total * 3600;
    if a >= 0 {
      DivAntitoneDivisor(a, d1, d2);
    } else {
      DivMonotoneNumerator(a, 0, d1);
      DivMonotoneNumerator(a, 0, d2);
    }
  }

  function ConstructionDivisor(facilityLevel: nat, naniteLevel: nat): (d: int)
    ensures d >= CONSTRUCTION_BASE
  {
    PowPositive(2, naniteLevel);
    CONSTRUCTION_BASE * (1 + facilityLevel) * Pow(2, naniteLevel)
  }

  /** A higher facility or nanite level never shrinks the construction divisor. */
  lemma ConstructionDivisorMonotone(f1: nat, f2: nat, n1: nat, n2: nat)
    requires f1 <= f2 && n1 <= n2
    ensures ConstructionDivisor(f1, n1) <= ConstructionDivisor(f2, n2)
  {
    PowMonotoneExponent(2, n1, n2);
    PowPositive(2, n1);
    var p1, p2 := Pow(2, n1), Pow(2, n2);
    MulMonotone(1 + f1, 1 + f2, p1);
    MulMonotone(p1, p2, 1 + f2);
    assert (1 + f1) * p1 <= (1 + f2) * p2;
    MulMonotone((1 + f1) * p1, (1 + f2) * p2, CONSTRUCTION_BASE);
  }

  /** Building construction time in seconds; the deuterium cost does not enter. */
  function ConstructionTime(metalCost: int, crystalCost: int, robotLevel: nat, naniteLevel: nat): (r: int)
    ensures r >= 1
  {
    FlooredSeconds(metalCost + crystalCost, ConstructionDivisor(robotLevel, naniteLevel))
  }

  /** Construction time is floor((m+c)·3600 / (2500·(1+robot)·2^nanite)), at least 1. */
  lemma ConstructionTimeFormula(metalCost: int, crystalCost: int, robotLevel: nat, naniteLevel: nat)
    ensures Pow(2, naniteLevel) >= 1
    ensures ConstructionTime(metalCost, crystalCost, robotLevel, naniteLevel)
            == Max(1, ((metalCost + crystalCost) * 3600) / (2500 * (1 + robotLevel) * Pow(2, naniteLevel)))
  {
    PowPositive(2, naniteLevel);
    FlooredSecondsIntegerForm(metalCost + crystalCost, ConstructionDivisor(robotLevel, naniteLevel));
  }

  /** More robot or nanite factory levels never make construction slower. */
  lemma ConstructionTimeNonIncreasing(m: int, c: int, r1: nat, r2: nat, n1: nat, n2: nat)
    requires r1 <= r2 && n1 <= n2
    ensures ConstructionTime(m, c, r2, n2) <= ConstructionTime(m, c, r1, n1)
  {
    ConstructionDivisorMonotone(r1, r2, n1, n2);
    FlooredSecondsAntitone(m + c, ConstructionDivisor(r1, n1), ConstructionDivisor(r2, n2));
  }

  /** Time to raise a building to `targetLevel`, priced at that level's cost. */
  function BuildingTime(b: BuildingType, targetLevel: int, robotLevel: nat, naniteLevel: nat): (r: int)
    requires targetLevel >= 1
    ensures r >= 1
  {
    var cost := BuildingCost(b, targetLevel);
    ConstructionTime(cost.metal, cost.crystal, robotLevel, naniteLevel)
  }

  /** Building time is non-increasing in the robot and nanite levels. */
  lemma BuildingTimeNonIncreasing(b: BuildingType, level: int, r1: nat, r2: nat, n1: nat, n2: nat)
    requires level >= 1 && r1 <= r2 && n1 <= n2
    ensures BuildingTime(b, level, r2, n2) <= BuildingTime(b, level, r1, n1)
  {
    var cost := BuildingCost(b, level);
    ConstructionTimeNonIncreasing(cost.metal, cost.crystal, r1, r2, n1, n2);
  }

  function ResearchDivisor(labLevel: nat): (d: int)
    ensures d >= RESEARCH_BASE
  {
    RESEARCH_BASE * (1 + labLevel)
  }

  /** Research time in seconds; all three cost components count. */
  function ResearchTime(metalCost: int, crystalCost: int, deuteriumCost: int, labLevel: nat): (r: int)
    ensures r >= 1
  {
    FlooredSeconds(metalCost + crystalCost + deuteriumCost, ResearchDivisor(labLevel))
  }

  /** Research time is floor((m+c+d)·3600 / (1000·(1+lab))), at least 1. */
  lemma ResearchTimeFormula(m: int, c: int, d: int, labLevel: nat)
    ensures ResearchTime(m, c, d, labLevel) == Max(1, ((m + c + d) * 3600) / (1000 * (1 + labLevel)))
  {
    FlooredSecondsIntegerForm(m + c + d, ResearchDivisor(labLevel));
  }

  /** A higher lab level never makes research slower. */
  lemma ResearchTimeNonIncreasing(m: int, c: int, d: int, l1: nat, l2: nat)
    requires l1 <= l2
    ensures ResearchTime(m, c, d, l2) <= ResearchTime(m, c, d, l1)
  {
    FlooredSecondsAntitone(m + c + d, ResearchDivisor(l1), ResearchDivisor(l2));
  }

  function TechResearchTime(t: TechType, targetLevel: int, labLevel: nat): (r: int)
    requires targetLevel >= 1
    ensures r >= 1
  {
    var cost := ResearchCost(t, targetLevel);
    ResearchTime(cost.metal, cost.crystal, cost.deuterium, labLevel)
  }

  /** Single ship build time in seconds: the construction shape with the shipyard
      level in place of the robot factory level. */
  function ShipBuildTime(metalCost: int, crystalCost: int, shipyardLevel: nat, naniteLevel: nat): (r: int)
    ensures r >= 1
  {
    FlooredSeconds(metalCost + crystalCost, ConstructionDivisor(shipyardLevel, naniteLevel))
  }

  lemma ShipBuildTimeIsConstructionShape(m: int, c: int, shipyardLevel: nat, naniteLevel: nat)
    ensures Pow(2, naniteLevel) >= 1
    ensures ShipBuildTime(m, c, shipyardLevel, naniteLevel) == ConstructionTime(m, c, shipyardLevel, naniteLevel)
    ensures ShipBuildTime(m, c, shipyardLevel, naniteLevel)
            == Max(1, ((m + c) * 3600) / (2500 * (1 + shipyardLevel) * Pow(2, naniteLevel)))
  {
    ConstructionTimeFormula(m, c, shipyardLevel, naniteLevel);
  }

  function ShipTime(s: ShipType, shipyardLevel: nat, naniteLevel: nat): (r: int)
    ensures r >= 1
  {
    var cost := ShipCost(s);
    ShipBuildTime(cost.metal, cost.crystal, shipyardLevel, naniteLevel)
  }

  /** A higher shipyard or nanite level never makes a ship slower to build. */
  lemma ShipTimeNonIncreasing(s: ShipType, y1: nat, y2: nat, n1: nat, n2: nat)
    requires y1 <= y2 && n1 <= n2
    ensures ShipTime(s, y2, n2) <= ShipTime(s, y1, n1)
  {
    var cost := ShipCost(s);
    ConstructionTimeNonIncreasing(cost.metal, cost.crystal, y1, y2, n1, n2);
  }

  /** The whole batch takes the single-ship time once per ship. */
  function ShipBatchTime(s: ShipType, quantity: int, shipyardLevel: nat, naniteLevel: nat): int
  {
    ShipTime(s, shipyardLevel, naniteLevel) * quantity
  }

  /** Batch times add up over split batches, and a batch of at least one ship
      takes at least as long as one ship. */
  lemma ShipBatchTimeAdditive(s: ShipType, q1: int, q2: int, y: nat, n: nat)
    ensures ShipBatchTime(s, q1 + q2, y, n) == ShipBatchTime(s, q1, y, n) + ShipBatchTime(s, q2, y, n)
    ensures q1 >= 1 ==> ShipBatchTime(s, q1, y, n) >= ShipTime(s, y, n)
  {
    var t := ShipTime(s, y, n);
    assert t * (q1 + q2) == t * q1 + t * q2;
    if q1 >= 1 {
      MulMonotone(1, q1, t);
    }
  }

  // ---- formatDuration ----

  /** One component of a formatted duration: an amount and its unit letter. */
  datatype Piece = Piece(amount: nat, unit: char)

  function UnitSeconds(unit: char): nat
  {
    match unit
    case 'd' => 86400
    case 'h' => 3600
    case 'm' => 60
    case _ => 1
  }

  /** Rank of a unit letter in the output order d, h, m, s. */
  function UnitRank(unit: char): nat
  {
    match unit
    case 'd' => 0
    case 'h' => 1
    case 'm' => 2
    case _ => 3
  }

  /** The components formatDuration emits: days, hours and minutes when
      non-zero, then seconds when non-zero or when nothing else was emitted.
      Negative inputs format as zero seconds. */
  function DurationPieces(seconds: int): seq<Piece>
  {
    if seconds < 0 then [Piece(0, 's')]
    else
      var days, hours, minutes, secs := seconds / 86400, (seconds % 86400) / 3600,
                                        (seconds % 3600) / 60, seconds % 60;
      var front := (if days > 0 then [Piece(days, 'd')] else [])
                   + (if hours > 0 then [Piece(hours, 'h')] else [])
                   + (if minutes > 0 then [Piece(minutes, 'm')] else []);
      front + (if secs > 0 || |front| == 0 then [Piece(secs, 's')] else [])
  }

  function TotalSeconds(ps: seq<Piece>): int
  {
    if |ps| == 0 then 0 else TotalSeconds(ps[..|ps| - 1]) + ps[|ps| - 1].amount * UnitSeconds(ps[|ps| - 1].unit)
  }

  /** The emitted components add back up to the input (zero for negative input). */
  lemma DurationPiecesRecompose(seconds: int)
    ensures TotalSeconds(DurationPieces(seconds)) == Max(seconds, 0)
  {
    if seconds >= 0 {
      var days, hours, minutes, secs := seconds / 86400, (seconds % 86400) / 3600,
                                        (seconds % 3600) / 60, seconds % 60;
      assert seconds % 86400 == hours * 3600 + (seconds % 3600) by {
        DivMod86400(seconds);
      }
      assert seconds % 3600 == minutes * 60 + secs by {
        DivMod3600(seconds);
      }
      var ps := DurationPieces(seconds);
      TotalOfConditionalPieces(days, hours, minutes, secs);
    }
  }

  lemma DivMod86400(x: nat)
    ensures x % 86400 == ((x % 86400) / 3600) * 3600 + x % 3600
  {
    var q := x / 86400;
    var r := x % 86400;
    assert x == q * 86400 + r;
    assert x % 3600 == r % 3600 by {
      assert x == (q * 24) * 3600 + r;
      assert r == (r / 3600) * 3600 + r % 3600;
      assert x == (q * 24 + r / 3600) * 3600 + r % 3600;
      DivUnique(x, 3600, q * 24 + r / 3600, r % 3600);
    }
  }

  lemma DivMod3600(x: nat)
    ensures x % 3600 == ((x % 3600) / 60) * 60 + x % 60
  {
    var q := x / 3600;
    var r := x % 3600;
    assert x == q * 3600 + r;
    assert x % 60 == r % 60 by {
      assert x == (q * 60) * 60 + r;
      assert r == (r / 60) * 60 + r % 60;
      assert x == (q * 60 + r / 60) * 60 + r % 60;
      DivUnique(x, 60, q * 60 + r / 60, r % 60);
    }
  }

  lemma TotalOfConditionalPieces(days: nat, hours: nat, minutes: nat, secs: nat)
    ensures
      var front := (if days > 0 then [Piece(days, 'd')] else [])
                   + (if hours > 0 then [Piece(hours, 'h')] else [])
                   + (if minutes > 0 then [Piece(minutes, 'm')] else []);
      TotalSeconds(front + (if secs > 0 || |front| == 0 then [Piece(secs, 's')] else []))
      == days * 86400 + hours * 3600 + minutes * 60 + secs
  {
    var a := if days > 0 then [Piece(days, 'd')] else [];
    var b := if hours > 0 then [Piece(hours, 'h')] else [];
    var c := if minutes > 0 then [Piece(minutes, 'm')] else [];
    var front := a + b + c;
    var d := if secs > 0 || |front| == 0 then [Piece(secs, 's')] else [];
    assert TotalSeconds(a) == days * 86400 by { TotalSingle(Piece(days, 'd')); }
    assert TotalSeconds(b) == hours * 3600 by { TotalSingle(Piece(hours, 'h')); }
    assert TotalSeconds(c) == minutes * 60 by { TotalSingle(Piece(minutes, 'm')); }
    assert TotalSeconds(d) == secs by { TotalSingle(Piece(secs, 's')); }
    TotalAppend(a, b);
    TotalAppend(a + b, c);
    TotalAppend(front, d);
  }

  lemma TotalSingle(p: Piece)
    ensures TotalSeconds([p]) == p.amount * UnitSeconds(p.unit)
  {
    assert [p][..0] == [];
  }

  lemma {:induction false} TotalAppend(xs: seq<Piece>, ys: seq<Piece>)
    requires |ys| <= 1
    ensures TotalSeconds(xs + ys) == TotalSeconds(xs) + TotalSeconds(ys)
  {
    if |ys| == 1 {
      assert (xs + ys)[..|xs + ys| - 1] == xs;
      assert ys[..0] == [];
    } else {
      assert xs + ys == xs;
    }
  }

  /** The format never emits an empty string of components, lists units in
      d, h, m, s order, emits no zero amount except a lone "0s", and keeps
      hours, minutes and seconds within their ranges. */
  lemma DurationPiecesShape(seconds: int)
    ensures |DurationPieces(seconds)| >= 1
    ensures forall i, j :: 0 <= i < j < |DurationPieces(seconds)| ==>
              UnitRank(DurationPieces(seconds)[i].unit) < UnitRank(DurationPieces(seconds)[j].unit)
    ensures forall p :: p in DurationPieces(seconds) ==>
              (p.amount == 0 ==> DurationPieces(seconds) == [Piece(0, 's')])
    ensures forall p :: p in DurationPieces(seconds) && p.unit != 'd' ==> p.amount < 60
    ensures forall p :: p in DurationPieces(seconds) && p.unit == 'h' ==> p.amount < 24
    ensures seconds <= 0 ==> DurationPieces(seconds) == [Piece(0, 's')]
  {
  }

  /** Decimal digits of a natural number, as template-string interpolation prints it. */
  function NatToString(n: nat): (s: string)
    ensures |s| >= 1
    ensures forall c :: c in s ==> '0' <= c <= '9'
  {
    var d := ['0' + (n % 10) as char];
    if n < 10 then d else NatToString(n / 10) + d
  }

  function PieceText(p: Piece): string
  {
    NatToString(p.amount) + [p.unit]
  }

  /** The pieces' texts joined by single spaces. */
  function Render(ps: seq<Piece>): string
  {
    if |ps| == 0 then ""
    else if |ps| == 1 then PieceText(ps[0])
    else Render(ps[..|ps| - 1]) + " " + PieceText(ps[|ps| - 1])
  }

  lemma ZeroSecondsText()
    ensures Render([Piece(0, 's')]) == "0s"
  {
    assert NatToString(0) == "0";
  }

  /** Formats a whole number of seconds as "Xd Xh Xm Xs", dropping zero units. */
  method FormatDuration(seconds: int) returns (text: string)
    ensures text == Render(DurationPieces(seconds))
    ensures seconds <= 0 ==> text == "0s"
  {
    ZeroSecondsText();
    if seconds < 0 {
      return "0s";
    }
    var days := seconds / 86400;
    var hours := (seconds % 86400) / 3600;
    var minutes := (seconds % 3600) / 60;
    var secs := seconds % 60;
    var parts: seq<Piece> := [];
    if days > 0 { parts := parts + [Piece(days, 'd')]; }
    if hours > 0 { parts := parts + [Piece(hours, 'h')]; }
    if minutes > 0 { parts := parts + [Piece(minutes, 'm')]; }
    if secs > 0 || |parts| == 0 { parts := parts + [Piece(secs, 's')]; }
    assert parts == DurationPieces(seconds);
    text := JoinPieces(parts);
  }

  /** `parts.join(' ')`. */
  method JoinPieces(parts: seq<Piece>) returns (text: string)
    ensures text == Render(parts)
  {
    text := "";
    var i := 0;
    while i < |parts|
      invariant 0 <= i <= |parts|
      invariant text == Render(parts[..i])
    {
      if i == 0 {
        text := PieceText(parts[0]);
      } else {
        text := text + " " + PieceText(parts[i]);
      }
      assert parts[..i + 1][..i] == parts[..i];
      i := i + 1;
    }
    assert parts[..|parts|] == parts;
  }
}
