/** Queue rows, route responses, the ship catch-up count and the creation of
    a planet's building-queue row. */
module Queues {
  import opened MathUtil
  import opened GameTypes
  import opened Validation

  datatype QueueStatus = IN_PROGRESS | COMPLETED | CANCELLED

  /** A building upgrade in progress; its cost is locked at creation. */
  datatype BuildingQueueEntry = BuildingQueueEntry(
    buildingType: BuildingType, targetLevel: nat, cost: Cost,
    startTime: int, endTime: int, status: QueueStatus)

  /** A research in progress; at most one per player. */
  datatype ResearchQueueEntry = ResearchQueueEntry(
    techType: TechType, targetLevel: nat, cost: Cost,
    startTime: int, endTime: int, status: QueueStatus)

  /** A ship batch: ships are finished one at a time, and `currentShipEndTime`
      is when the next one is due. */
  datatype ShipQueueEntry = ShipQueueEntry(
    shipType: ShipType, quantity: int, completedCount: int, cost: Cost,
    startTime: int, endTime: int, currentShipEndTime: int, status: QueueStatus)

  predicate BuildingSlotActive(slot: Option<BuildingQueueEntry>)
  {
    slot.Some? && slot.value.status == IN_PROGRESS
  }

  predicate ResearchSlotActive(slot: Option<ResearchQueueEntry>)
  {
    slot.Some? && slot.value.status == IN_PROGRESS
  }

  predicate ShipSlotActive(slot: Option<ShipQueueEntry>)
  {
    slot.Some? && slot.value.status == IN_PROGRESS
  }

  /** The outcome of a route: success, or an HTTP status with an optional code. */
  datatype Response = Ok | Rejected(status: nat, code: Option<ErrorCode>)

  /** A validation failure is a conflict (409) for an active queue and a bad request (400) otherwise. */
  function StatusFor(code: ErrorCode): (s: nat)
    ensures s == 409 <==> code == QUEUE_ACTIVE
    ensures s == 400 <==> code != QUEUE_ACTIVE
  {
    if code == QUEUE_ACTIVE then 409 else 400
  }

  function RejectionFor(v: ValidationResult): Response
    requires v.Invalid?
  {
    Rejected(StatusFor(v.code), Some(v.code))
  }

  // ---- Ship catch-up ----

  /** How many of the instants start, start + single, start + 2·single, ...
      are at or before `now`. */
  function DueCount(start: int, single: int, now: int): nat
    requires single > 0
  {
    if now < start then 0 else (now - start) / single + 1
  }

  /** DueCount counts exactly the due instants: every instant before the
      count is due and the one at the count is not. */
  lemma DueCountCounts(start: int, single: int, now: int)
    requires single > 0
    ensures forall k :: 0 <= k < DueCount(start, single, now) ==> start + k * single <= now
    ensures start + DueCount(start, single, now) * single > now
  {
    var n := DueCount(start, single, now);
    if now >= start {
      var q := (now - start) / single;
      assert q * single <= now - start;
      forall k | 0 <= k < n
        ensures start + k * single <= now
      {
        MulMonotone(k, q, single);
      }
      assert n * single == q * single + single;
    }
  }

  /** A count whose last instant is due and whose next one is not is DueCount. */
  lemma DueCountUnique(start: int, single: int, now: int, n: nat)
    requires single > 0
    requires start + n * single > now
    requires n == 0 || start + (n - 1) * single <= now
    ensures n == DueCount(start, single, now)
  {
    if n > 0 {
      var r := now - start - (n - 1) * single;
      assert (n - 1) * single + single == n * single;
      DivUnique(now - start, single, n - 1, r);
    }
  }

  /** A count whose last instant is due is at most DueCount. */
  lemma DueCountUpper(start: int, single: int, now: int, n: nat)
    requires single > 0
    requires n > 0 && start + (n - 1) * single <= now
    ensures n <= DueCount(start, single, now)
  {
    assert (n - 1) * single == (n - 1) * single + 0;
    DivMonotoneNumerator((n - 1) * single, now - start, single);
    DivUnique((n - 1) * single, single, n - 1, 0);
  }

  /** Ships a sweep finishes: the due ones, never more than remain. */
  function ShipsToComplete(start: int, single: int, now: int, remaining: int): nat
    requires single > 0
  {
    Min(DueCount(start, single, now), Max(remaining, 0))
  }

  /** The catch-up loop: count ships while the next one is due and some
      remain; `checkTime` ends on the first instant not counted. */
  method CountDueShips(start: int, single: int, now: int, remaining: int)
    returns (shipsToComplete: nat, checkTime: int)
    requires single > 0
    ensures shipsToComplete == ShipsToComplete(start, single, now, remaining)
    ensures shipsToComplete <= Max(remaining, 0)
    ensures checkTime == start + shipsToComplete * single
    ensures shipsToComplete < remaining ==> checkTime > now
  {
    shipsToComplete := 0;
    checkTime := start;
    while checkTime <= now && shipsToComplete < remaining
      invariant checkTime == start + shipsToComplete * single
      invariant shipsToComplete <= Max(remaining, 0)
      invariant shipsToComplete == 0 || start + (shipsToComplete - 1) * single <= now
      decreases remaining - shipsToComplete
    {
      shipsToComplete := shipsToComplete + 1;
      checkTime := checkTime + single;
    }
    if checkTime > now {
      DueCountUnique(start, single, now, shipsToComplete);
    } else if shipsToComplete > 0 {
      DueCountUpper(start, single, now, shipsToComplete);
    }
  }

  /** After finishing the due ships and moving the next end time forward by
      that many single-ship times, nothing more is due at the same instant
      unless the batch ran out: a rerun at `now` finishes no further ship. */
  lemma CatchUpLeavesNothingDue(start: int, single: int, now: int, remaining: int)
    requires single > 0
    ensures var n := ShipsToComplete(start, single, now, remaining);
            n < remaining ==> start + n * single > now
    ensures var n := ShipsToComplete(start, single, now, remaining);
            n <= Max(remaining, 0) && (now >= start && remaining > 0 ==> n >= 1)
    ensures var n := ShipsToComplete(start, single, now, remaining);
            forall k :: 0 <= k < n ==> start + k * single <= now
  {
    DueCountCounts(start, single, now);
    var n := ShipsToComplete(start, single, now, remaining);
    var d := DueCount(start, single, now);
    if n < remaining {
      assert n == d;
    }
  }

  // ---- The building-queue row ----

  /** The result of creating a queue row: the new slot, or a uniqueness violation. */
  datatype InsertOutcome = Inserted(slot: Option<BuildingQueueEntry>) | UniqueViolation

  /** As written: a planet has one building-queue row, finished rows are kept
      as COMPLETED or CANCELLED, and creating a row fails whenever any row
      exists, whatever its status. */
  function InsertBuildingRowAsWritten(slot: Option<BuildingQueueEntry>, entry: BuildingQueueEntry): (r: InsertOutcome)
    ensures r.UniqueViolation? <==> slot.Some?
  {
    if slot.Some? then UniqueViolation else Inserted(Some(entry))
  }

  /** Corrected: a finished row gives way to the new one, and only a row
      still in progress blocks the insert. */
  function InsertBuildingRow(slot: Option<BuildingQueueEntry>, entry: BuildingQueueEntry): (r: InsertOutcome)
    ensures r.UniqueViolation? <==> BuildingSlotActive(slot)
    ensures r.Inserted? ==> r.slot == Some(entry)
  {
    if BuildingSlotActive(slot) then UniqueViolation else Inserted(Some(entry))
  }

  /** Response of the start-upgrade transaction once validation has passed:
      a uniqueness violation is reported as an active queue. */
  function InsertResponse(outcome: InsertOutcome): (r: Response)
    ensures outcome.UniqueViolation? <==> r == Rejected(409, Some(QUEUE_ACTIVE))
    ensures outcome.Inserted? <==> r == Ok
  {
    match outcome
    case UniqueViolation => Rejected(409, Some(QUEUE_ACTIVE))
    case Inserted(_) => Ok
  }

  /** As written, once a planet's first upgrade has completed or been
      cancelled, the validator sees no active queue and yet every further
      upgrade is refused with 409 QUEUE_ACTIVE; the corrected insert
      accepts it. */
  lemma FinishedRowBlocksUpgradesAsWritten(finished: BuildingQueueEntry, entry: BuildingQueueEntry)
    requires finished.status == COMPLETED || finished.status == CANCELLED
    ensures !BuildingSlotActive(Some(finished))
    ensures InsertResponse(InsertBuildingRowAsWritten(Some(finished), entry)) == Rejected(409, Some(QUEUE_ACTIVE))
    ensures InsertResponse(InsertBuildingRow(Some(finished), entry)) == Ok
  {
  }

  /** The corrected insert succeeds exactly when the validator's queue check
      passes, so after validation it never reports a conflict. */
  lemma InsertAgreesWithQueueCheck(slot: Option<BuildingQueueEntry>, entry: BuildingQueueEntry)
    ensures InsertBuildingRow(slot, entry).Inserted? <==> !BuildingSlotActive(slot)
    ensures !BuildingSlotActive(slot) ==> InsertBuildingRow(slot, entry) == Inserted(Some(entry))
  {
  }
}
