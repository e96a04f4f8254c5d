# Emago game economy and progression, in Dafny

Emago is a browser space-strategy game. Each player owns one home planet. The
planet holds metal, crystal and deuterium. Its mines produce them by the hour,
throttled by the energy the solar plant supplies, and storage buildings cap
them. Players spend resources to raise buildings, research technologies and
build ships. Each of the three runs through a one-at-a-time queue. A start
route prices and times the job, checks it and locks the cost in. A cancel
route refunds the locked cost. A cron sweep completes every job whose end time
has passed.

This project models that engine:

- the balance tables and the cost, energy, production, storage and time formulas;
- lazy resource accrual: amounts are a snapshot plus rate × elapsed time, capped at storage;
- the three validators and their boolean twins;
- the start, cancel and completion transactions of the three queues;
- registration;
- the icon script's prompt-file parser and its file-name rules.

Each module follows one source file:

| module | file | source |
|---|---|---|
| `GameTypes` | `types.dfy` | the three enumerations, resource and cost triples, level maps |
| `Constants` | `constants.dfy` | `src/lib/game/formulas/constants.ts` |
| `Costs` | `costs.dfy` | `src/lib/game/formulas/costs.ts` |
| `Energy` | `energy.dfy` | `src/lib/game/formulas/energy.ts` |
| `Production` | `production.dfy` | `src/lib/game/formulas/production.ts` |
| `Storage` | `storage.dfy` | `src/lib/game/formulas/storage.ts` |
| `Time` | `time.dfy` | `src/lib/game/formulas/time.ts` |
| `Accrual` | `accrual.dfy` | `src/lib/game/resources.ts` |
| `Validation` | `validation_common.dfy` | the shared parts of the three files below |
| `BuildingValidation` | `validate_buildings.dfy` | `src/lib/game/validation/buildings.ts` |
| `ResearchValidation` | `validate_research.dfy` | `src/lib/game/validation/research.ts` |
| `ShipValidation` | `validate_ships.dfy` | `src/lib/game/validation/ships.ts` |
| `Queues` | `queues.dfy` | queue rows, route responses, the ship catch-up loop |
| `Lifecycle` | `lifecycle.dfy` | the building, research and ship routes under `src/app/api/` |
| `Registration` | `register.dfy` | `src/app/api/auth/register/route.ts` |
| `IconText` | `icon_text.dfy` | the string operations of `scripts/generate-icons.ts` |
| `IconFiles` | `icon_filenames.dfy` | its section table (`CATEGORY_CONFIG`) |
| `IconPrompts` | `icon_prompts.dfy` | its parser (`parsePromptsFile`) |
| `MathUtil` | `math.dfy` | powers, floors and quotients used by the proofs |

## How the model is built

**Pure code.** The formula files, the accrual functions, the validators' verdicts
and the string helpers are pure. They are Dafny functions over datatypes:

- Amounts and rates are `real`, which makes them exact.
- Costs are integer triples.
- Times are integer milliseconds.
- Levels are `map`s in which a missing key reads as 0.

**The powers.** The source computes `Math.pow(1.5, L-1)` and `Math.pow(1.1, L)`.
The model turns each into an exact integer quotient, such as `3^(L-1) / 2^(L-1)`.
Lemmas prove that these quotients equal the floor of the source's real-valued
expression.

**Code that changes state.** Each such route is a method on a class. The database
rows it updates in place are that class's fields:

- `Planet` holds the amounts, rates, levels, ships and two queue slots.
- `Player` holds research levels and the research slot.
- `Registry` holds the accounts.

Each method is proved equal to a function on a value snapshot (`PlanetView`,
`PlayerView`). Lemmas about those functions state the promised properties:

- nothing goes negative after an accepted start;
- a cancel refunds exactly the locked cost;
- a sweep is idempotent.

**Loops.** Where the source loops, the model has a `while` or `for` loop with its
invariants:

- the ship catch-up count;
- the validators' push loops and the twins' early-return scans;
- the three cron sweeps;
- the line loop of the prompt parser;
- `formatDuration`'s join.

**Icon parser.** The parser is a state machine over lines. `Step` is one loop
iteration. The method `ParsePromptsFile` is proved to compute the fold of `Step`
over `content.split("\n")`. The regular expressions are written out with
JavaScript's own rules:

- `\s` and `trim` use the ECMAScript white-space and line-terminator set;
- `.` stops at line terminators;
- `/i` folds ASCII case;
- matching is leftmost, with greedy runs.

## Model

| member | source | states |
|---|---|---|
| GameTypes.ParseBuildingType | src/app/api/buildings/upgrade/route.ts:19-32 | a request string is accepted exactly when it is the value of some building type, and yields that type |
| GameTypes.ParseTechType | src/app/api/research/start/route.ts:19-32 | a request string is accepted exactly when it is the value of some technology, and yields that technology |
| GameTypes.ParseShipType | src/app/api/ships/build/route.ts:19-32 | a request string is accepted exactly when it is the value of some ship type, and yields that ship type |
| GameTypes.EnumNamesRoundTrip | src/app/api/buildings/upgrade/route.ts:26-32 | parsing any member's own string value gives that member back, for all three enumerations |
| GameTypes.ZeroLevels | src/app/api/auth/register/route.ts:80-98 | the level map built from a list of types has exactly those keys, each at level 0 |
| Constants.ClassificationIsPartition | src/lib/game/formulas/constants.ts:57-78 | every building type is in exactly one of the mine, facility and storage lists |
| Constants.BaseCostsNonNegative | src/lib/game/formulas/constants.ts:36-114 | no base cost of a building, technology or ship has a negative component |
| Constants.BuildingPrerequisitesShape | src/lib/game/formulas/constants.ts:185-197 | only the shipyard and the nanite factory need other buildings, and only the nanite factory needs research |
| Constants.ResearchPrerequisitesShape | src/lib/game/formulas/constants.ts:203-213 | every technology needs a lab of level at least 1 and none requires itself |
| Constants.ShipPrerequisitesShape | src/lib/game/formulas/constants.ts:219-225 | every ship needs a shipyard of level at least 1 and at least one research |
| Constants.TimeConstantsPositive | src/lib/game/formulas/constants.ts:163-168 | the minimum time is 1 second and every time divisor constant is positive |
| Costs.DefaultBranchUnreachable | src/lib/game/formulas/costs.ts:22-53 | the fallback multiplier branch for an unclassified building is never taken |
| Costs.Scaled | src/lib/game/formulas/costs.ts:22-53 | scaling a non-negative cost by a non-negative fraction and flooring keeps it non-negative |
| Costs.BuildingCost | src/lib/game/formulas/costs.ts:22-53 | an upgrade cost is never negative; target levels below 1 are outside its domain, as the source throws there |
| Costs.BuildingCostMatchesFormula | src/lib/game/formulas/costs.ts:22-53 | the integer cost equals floor(base·1.5^(L-1)) for mines, floor(base·2^(L-1)) for facilities and floor(base·2^L) for storage, per component |
| Costs.BuildingCostLevelOne | src/lib/game/formulas/costs.ts:22-53 | level 1 costs the base cost, except storage, which costs twice its base; a level-1 metal mine costs 80/20/0 |
| Costs.FacilityAndStorageCostsDouble | src/lib/game/formulas/costs.ts:22-53 | a facility or storage building costs exactly twice as much at the next level |
| Costs.MineStepNonDecreasing | src/lib/game/formulas/costs.ts:22-53 | one more mine level never lowers a floored cost component |
| Costs.BuildingCostStep | src/lib/game/formulas/costs.ts:22-53 | no cost component of any building decreases from one level to the next |
| Costs.BuildingCostMonotone | src/lib/game/formulas/costs.ts:22-53 | every building cost component is non-decreasing in the target level |
| Costs.FlooredFractionPower | src/lib/game/formulas/costs.ts:41-52 | flooring base·(p/q)^n per component equals the integer quotient base·p^n / q^n |
| Costs.FlooredFraction | src/lib/game/formulas/costs.ts:41-52 | flooring base·(a/b) per component equals the integer quotient base·a / b |
| Costs.ResearchCost | src/lib/game/formulas/costs.ts:59-72 | a research cost is never negative |
| Costs.ResearchCostMatchesFormula | src/lib/game/formulas/costs.ts:59-72 | the integer research cost equals floor(base·2^(L-1)) per component |
| Costs.ResearchCostDoubles | src/lib/game/formulas/costs.ts:59-72 | level 1 costs the base cost and each next level costs exactly twice as much |
| Costs.ResearchCostMonotone | src/lib/game/formulas/costs.ts:59-72 | every research cost component is non-decreasing in the target level |
| Costs.ShipCost | src/lib/game/formulas/costs.ts:77-84 | a ship's unit cost is non-negative and has some metal or crystal in it |
| Costs.ShipBatchCost | src/lib/game/formulas/costs.ts:89-101 | a batch cost is non-negative and at least the unit cost in every component |
| Costs.ShipBatchCostAdditive | src/lib/game/formulas/costs.ts:89-101 | a batch of one costs one ship, and the cost of two batches together is the sum of their costs |
| Costs.SubtractResources | src/lib/game/formulas/costs.ts:118-124 | adding the cost back to the difference gives the available amounts |
| Costs.HasEnoughIffNoDeficit | src/lib/game/formulas/costs.ts:106-124 | the amounts suffice exactly when subtracting the cost leaves no negative component |
| Energy.GrowthIntegerForm | src/lib/game/formulas/energy.ts:8-15 | floor(base·L·1.1^L) is the integer quotient base·L·11^L / 10^L |
| Energy.GrowthLowerBound | src/lib/game/formulas/energy.ts:8-15 | with a non-negative base, the curve is never negative and at a positive level never below base·L |
| Energy.MetalMineEnergyConsumption | src/lib/game/formulas/energy.ts:8-15 | a level of 0 or less consumes nothing, and a positive level consumes at least 10·L |
| Energy.CrystalMineEnergyConsumption | src/lib/game/formulas/energy.ts:21-28 | a level of 0 or less consumes nothing, and a positive level consumes at least 10·L |
| Energy.DeuteriumSynthesizerEnergyConsumption | src/lib/game/formulas/energy.ts:34-41 | a level of 0 or less consumes nothing, and a positive level consumes at least 20·L |
| Energy.TotalEnergyConsumption | src/lib/game/formulas/energy.ts:46-56 | total consumption is never negative and is positive as soon as one mine is built |
| Energy.NoConsumptionWithoutMines | src/lib/game/formulas/energy.ts:46-56 | total consumption is zero exactly when no mine has a positive level |
| Energy.EnergyFactor | src/lib/game/formulas/energy.ts:63-66 | the factor is at most 1, and not negative while production is not |
| Energy.EnergyFactorMeaning | src/lib/game/formulas/energy.ts:63-66 | the factor is 1 exactly when consumption is covered or absent, and otherwise production/consumption |
| Energy.SolarPlantEnergy | src/lib/game/formulas/energy.ts:72-77 | solar output is 0 at level 0 or less and at least 20·L at a positive level |
| Energy.CalculateEnergyBalance | src/lib/game/formulas/energy.ts:82-101 | the factor is computed from the balance's own two totals, lies in [0, 1], and is 1 exactly when production covers consumption |
| Production.ThrottledFloor | src/lib/game/formulas/production.ts:9-19 | flooring output × factor is non-negative, equals the full floor at factor 1 and never exceeds it at a factor at most 1 |
| Production.RawOutputNonNegative | src/lib/game/formulas/production.ts:9-19 | the unthrottled output is non-negative and its floor is the shared growth curve |
| Production.MineOutput | src/lib/game/formulas/production.ts:9-35 | a mine yields 0 at level 0 or less, is never negative, equals the growth curve at full power and never exceeds it when throttled |
| Production.MetalProduction | src/lib/game/formulas/production.ts:9-19 | metal output is 0 without a mine, never negative, and floor(30·L·1.1^L) at full power, never more when throttled |
| Production.CrystalProduction | src/lib/game/formulas/production.ts:25-35 | crystal output is 0 without a mine, never negative, and floor(20·L·1.1^L) at full power, never more when throttled |
| Production.TemperatureFactor | src/lib/game/formulas/production.ts:41-56 | 1.36 − 0.004·T is positive below 340 degrees and zero at exactly 340 |
| Production.DeuteriumProduction | src/lib/game/formulas/production.ts:41-56 | deuterium output is 0 without a synthesizer; with one and a positive energy factor it is negative on a planet hotter than 340 degrees; at 340 degrees or cooler it is never negative |
| Production.DeuteriumSign | src/lib/game/formulas/production.ts:41-56 | a negative temperature factor makes the floored output negative, and non-negative factors keep it non-negative |
| Production.SolarEnergy | src/lib/game/formulas/production.ts:62-68 | solar output is never negative and is 0 at level 0 or less |
| Production.SolarEnergyAgrees | src/lib/game/formulas/production.ts:62-68 | the production module's solar formula gives the same value as the energy module's |
| Production.AllProductionRates | src/lib/game/formulas/production.ts:74-109 | all three rates use one energy factor computed from the same mine and solar levels; metal and crystal are never negative |
| Production.RatesAgainstFullPower | src/lib/game/formulas/production.ts:74-109 | metal and crystal never exceed their full-power curve, and equal it when solar output covers consumption |
| Storage.StorageCapacity | src/lib/game/formulas/storage.ts:8-16 | capacity is a multiple of 5000, non-negative whenever the exponential is, and 10000 at level 0 when exp(0) = 1 |
| Storage.AllStorageCapacities | src/lib/game/formulas/storage.ts:21-31 | each capacity comes from its own storage building's level |
| Storage.InitialCapacities | src/lib/game/formulas/storage.ts:8-31 | a planet without storage buildings can hold 10000 of each resource |
| Storage.ClampToStorage | src/lib/game/formulas/storage.ts:36-42 | each clamped amount is at most both the amount and the capacity, and equals one of the two |
| Storage.ClampIdentityAndIdempotent | src/lib/game/formulas/storage.ts:36-42 | clamping changes nothing exactly when the amounts fit, and clamping twice is clamping once |
| Storage.ClampHasNoLowerBound | src/lib/game/formulas/storage.ts:36-42 | a negative amount passes through the clamp unchanged |
| Time.FlooredSeconds | src/lib/game/formulas/time.ts:10-22 | every formula time is at least the one-second minimum |
| Time.FlooredSecondsIntegerForm | src/lib/game/formulas/time.ts:10-22 | at game speed 1, floor(total / divisor · 3600) is the integer quotient total·3600 / divisor, floored at 1 |
| Time.FlooredSecondsAntitone | src/lib/game/formulas/time.ts:10-22 | a larger divisor never gives a longer time, whatever the sign of the total |
| Time.ConstructionDivisor | src/lib/game/formulas/time.ts:10-22 | the construction divisor is at least 2500 |
| Time.ConstructionDivisorMonotone | src/lib/game/formulas/time.ts:10-22 | higher robot or nanite levels never shrink the divisor |
| Time.ConstructionTime | src/lib/game/formulas/time.ts:10-22 | construction takes at least one second |
| Time.ConstructionTimeFormula | src/lib/game/formulas/time.ts:10-22 | construction time is max(1, floor((metal+crystal)·3600 / (2500·(1+robot)·2^nanite))); deuterium does not enter |
| Time.ConstructionTimeNonIncreasing | src/lib/game/formulas/time.ts:10-22 | more robot or nanite factory levels never make construction slower |
| Time.BuildingTime | src/lib/game/formulas/time.ts:27-41 | a building upgrade takes at least one second |
| Time.BuildingTimeNonIncreasing | src/lib/game/formulas/time.ts:27-41 | an upgrade never gets slower as robot or nanite levels rise |
| Time.ResearchDivisor | src/lib/game/formulas/time.ts:47-56 | the research divisor is at least 1000 |
| Time.ResearchTime | src/lib/game/formulas/time.ts:47-56 | research takes at least one second |
| Time.ResearchTimeFormula | src/lib/game/formulas/time.ts:47-56 | research time is max(1, floor((metal+crystal+deuterium)·3600 / (1000·(1+lab)))) |
| Time.ResearchTimeNonIncreasing | src/lib/game/formulas/time.ts:47-56 | a higher lab level never makes research slower |
| Time.TechResearchTime | src/lib/game/formulas/time.ts:61-74 | researching a technology to a level takes at least one second |
| Time.ShipBuildTime | src/lib/game/formulas/time.ts:80-92 | a ship takes at least one second |
| Time.ShipBuildTimeIsConstructionShape | src/lib/game/formulas/time.ts:80-92 | ship time is the construction formula with the shipyard level in place of the robot factory level |
| Time.ShipTime | src/lib/game/formulas/time.ts:97-110 | each ship type takes at least one second |
| Time.ShipTimeNonIncreasing | src/lib/game/formulas/time.ts:97-110 | a higher shipyard or nanite level never makes a ship slower |
| Time.ShipBatchTimeAdditive | src/lib/game/formulas/time.ts:115-123 | batch times add up over split batches, and a batch of at least one ship takes at least one ship's time |
| Time.DurationPiecesRecompose | src/lib/game/formulas/time.ts:129-145 | the emitted days, hours, minutes and seconds add back up to the input, or to 0 for a negative input |
| Time.DurationPiecesShape | src/lib/game/formulas/time.ts:129-145 | never empty, units in the order d, h, m, s, no zero unit except a lone "0s", minutes and seconds below 60, hours below 24 |
| Time.NatToString | src/lib/game/formulas/time.ts:139-142 | a number prints as one or more decimal digits |
| Time.ZeroSecondsText | src/lib/game/formulas/time.ts:130-142 | zero seconds renders as "0s" |
| Time.FormatDuration | src/lib/game/formulas/time.ts:129-145 | the text renders exactly the duration pieces, and is "0s" for any input of 0 or less |
| Time.JoinPieces | src/lib/game/formulas/time.ts:144 | joining with single spaces gives the rendered pieces |
| Accrual.CurrentResources | src/lib/game/resources.ts:11-31 | each resource, independently, is min(stored + rate × elapsed hours, its capacity): never above either, and equal to one of them; all three are the accrued amounts when those fit |
| Accrual.ResourcesAt | src/lib/game/resources.ts:37-39 | the amounts at any instant are the current-amount computation at that instant |
| Accrual.CurrentResourcesMonotone | src/lib/game/resources.ts:11-31 | with non-negative rates, current amounts never decrease as time goes on |
| Accrual.EarlierClockLowersAmounts | src/lib/game/resources.ts:11-31 | nothing guards against a clock earlier than the snapshot: a positive rate then lowers the amount below what was stored |
| Accrual.TimeFor | src/lib/game/resources.ts:60-71 | no time exactly when the rate is not positive or the store is full; otherwise a positive time after which amount + rate × hours reaches capacity |
| Accrual.TimeToFull | src/lib/game/resources.ts:45-78 | each resource's time to full is computed from its current amount, its capacity and its own rate |
| Accrual.DeductResources | src/lib/game/resources.ts:85-101 | the snapshot becomes the current amounts minus the cost at that instant, with no sufficiency check; rates and storage levels are unchanged |
| Accrual.AddResources | src/lib/game/resources.ts:107-139 | the snapshot becomes min(current + amount, capacity) per resource at that instant; rates and storage levels are unchanged |
| Accrual.SnapshotReadsBack | src/lib/game/resources.ts:11-31 | right after a snapshot, the current amounts are the snapshot's amounts whenever they fit |
| Accrual.DeductThenRefundRoundTrip | src/lib/game/resources.ts:85-139 | deducting a non-negative cost and adding it back at the same instant leaves the current amounts unchanged |
| Validation.ReasonOfCodeInjective | src/lib/game/validation/ships.ts:161-204 | distinct error codes have distinct reason strings |
| Validation.ReasonFor | src/lib/game/validation/buildings.ts:207-245 | a twin allows exactly when the validator is valid, and otherwise gives the reason of the validator's code |
| Validation.Shortfalls | src/lib/game/validation/buildings.ts:146-181 | every unmet requirement's record is in the list, each record is of the given kind and shows a level below the required one, and the list is empty exactly when all are met |
| Validation.ShortfallsOnlyUnmet | src/lib/game/validation/buildings.ts:146-181 | every record in the list is the record of some unmet requirement of the table |
| Validation.ShortfallsSingle | src/lib/game/validation/buildings.ts:147-155 | one requirement gives its record when unmet and nothing when met |
| Validation.ShortfallsAppend | src/lib/game/validation/buildings.ts:146-181 | the records of two tables in a row are the first table's records followed by the second's, so reports keep table order |
| Validation.AppendShortfalls | src/lib/game/validation/buildings.ts:146-181 | the push loop appends exactly the shortfall records to the list |
| Validation.CheckAllMet | src/lib/game/validation/buildings.ts:217-235 | the early-return scan answers true exactly when every requirement is met |
| Validation.LevelShortfall | src/lib/game/validation/research.ts:69-77 | a single level check records nothing exactly when the current level is high enough |
| Validation.LeadingKindDecides | src/lib/game/validation/research.ts:104-113 | a list of shortfalls has one of the leading kind exactly when the leading check failed |
| Validation.RowsToMap | src/lib/game/validation/buildings.ts:57-82 | the map holds exactly the row keys, and each key's value comes from its last row |
| Validation.PlanetToPlanetState | src/lib/game/validation/buildings.ts:87-109 | copies the amounts, rates and snapshot time; the metal, crystal and deuterium storage levels are each the level on the last row for that building, or 0 without one |
| BuildingValidation.BuildingUpgradeVerdictMeaning | src/lib/game/validation/buildings.ts:120-201 | valid exactly when no queue is active, all prerequisites are met and the next level is affordable; each code is given exactly in its case, in check order |
| BuildingValidation.CollectBuildingShortfalls | src/lib/game/validation/buildings.ts:144-181 | the two push loops give the building shortfalls, then the research shortfalls |
| BuildingValidation.ValidateBuildingUpgrade | src/lib/game/validation/buildings.ts:120-201 | the validator returns the verdict described above |
| BuildingValidation.CanUpgradeBuilding | src/lib/game/validation/buildings.ts:207-245 | the twin's answer is the validator's verdict reduced to a reason, and it allows exactly when the validator would |
| ResearchValidation.ResearchVerdictMeaning | src/lib/game/validation/research.ts:54-142 | valid exactly when no queue is active, the lab is high enough, the research prerequisites are met and the next level is affordable; a short lab is reported first, and the list then also carries the record of every unmet research prerequisite |
| ResearchValidation.CollectResearchShortfalls | src/lib/game/validation/research.ts:67-113 | the lab record, if any, then the research shortfalls in table order |
| ResearchValidation.ValidateResearch | src/lib/game/validation/research.ts:54-142 | the validator returns the verdict described above |
| ResearchValidation.CanResearch | src/lib/game/validation/research.ts:148-182 | the twin's answer is the validator's verdict reduced to a reason, and it allows exactly when the validator would |
| ShipValidation.ShipBuildVerdictMeaning | src/lib/game/validation/ships.ts:56-151 | valid exactly when the quantity is a whole number from 1 to 999, no queue is active, the shipyard and research suffice and the batch is affordable; checks in that order |
| ShipValidation.FractionalQuantityRefused | src/lib/game/validation/ships.ts:68-75 | any quantity that is not a whole number is refused as INVALID_QUANTITY, whatever the queue, levels and resources |
| ShipValidation.CollectShipShortfalls | src/lib/game/validation/ships.ts:99-131 | the shipyard record, if any, then the research shortfalls in table order |
| ShipValidation.ValidateShipBuild | src/lib/game/validation/ships.ts:56-151 | the validator returns the verdict described above |
| ShipValidation.CanBuildShip | src/lib/game/validation/ships.ts:161-204 | the twin's answer is the validator's verdict reduced to a reason, and it allows exactly when the validator would |
| Queues.StatusFor | src/app/api/buildings/upgrade/route.ts:90-100 | a failed validation answers 409 exactly for an active queue and 400 for every other code |
| Queues.DueCountCounts | src/app/api/cron/ships/route.ts:85-95 | every counted ship end time is due and the next one is not |
| Queues.DueCountUnique | src/app/api/cron/ships/route.ts:85-95 | a count whose last end time is due and whose next one is not is the due count |
| Queues.DueCountUpper | src/app/api/cron/ships/route.ts:85-95 | a count whose last end time is due is at most the due count |
| Queues.CountDueShips | src/app/api/cron/ships/route.ts:85-95 | the catch-up loop counts the due ships, never more than remain, and stops on the first end time not counted |
| Queues.CatchUpLeavesNothingDue | src/app/api/cron/ships/route.ts:85-147 | after the catch-up, no further ship is due at the same instant unless the batch ran out, and at least one ship is counted when one is due |
| Queues.InsertBuildingRowAsWritten | src/app/api/buildings/upgrade/route.ts:132-144 | as written, creating the planet's queue row fails exactly when the planet already has a row, whatever its status |
| Queues.InsertBuildingRow | src/app/api/buildings/upgrade/route.ts:132-144 | corrected: the insert fails exactly when the existing row is still in progress, and otherwise the new row takes the slot |
| Queues.InsertResponse | src/app/api/buildings/upgrade/route.ts:169-179 | a uniqueness violation is answered 409 QUEUE_ACTIVE, and a successful insert with success |
| Queues.FinishedRowBlocksUpgradesAsWritten | src/app/api/buildings/upgrade/route.ts:75-179 | as written, once a planet has a completed or cancelled row, the validator sees no active queue, yet every later upgrade is refused with 409; the corrected insert accepts it |
| Queues.InsertAgreesWithQueueCheck | src/app/api/buildings/upgrade/route.ts:75-144 | the corrected insert succeeds exactly when the validator's queue check passes |
| Lifecycle.NewBuildingEntry | src/app/api/buildings/upgrade/route.ts:103-144 | the new row targets the current level plus one, locks that level's cost, starts now, and ends one building time later, at least a second away |
| Lifecycle.AfterUpgradeStart | src/app/api/buildings/upgrade/route.ts:117-147 | an accepted upgrade deducts the locked cost at now and puts the new row in progress; levels, rates, energy and ships are unchanged |
| Lifecycle.AcceptedUpgradeLeavesNoDeficit | src/app/api/buildings/upgrade/route.ts:69-147 | after an accepted upgrade no amount is negative, because the validator checked the very cost that is deducted, at the same instant |
| Lifecycle.BuildingSweepMeaning | src/app/api/cron/buildings/route.ts:91-137 | a due row raises exactly its building to the target level, recomputes rates and energy from the new levels, uses one more field and is kept as COMPLETED; amounts are untouched; nothing is due afterwards |
| Lifecycle.BuildingSweepIdempotent | src/app/api/cron/buildings/route.ts:93-100 | a second sweep at the same instant changes nothing |
| Lifecycle.AfterBuildingCancel | src/app/api/buildings/cancel/route.ts:42-80 | with no row in progress nothing changes; otherwise the locked cost is added back at now, capped at storage, and the row is kept as CANCELLED |
| Lifecycle.UpgradeThenCancelRestoresAmounts | src/app/api/buildings/cancel/route.ts:53-80 | starting an upgrade and cancelling it at the same instant gives back the current amounts and leaves a CANCELLED row |
| Lifecycle.SingleShipMs | src/app/api/cron/ships/route.ts:69-71 | one ship takes at least 1000 ms |
| Lifecycle.NewShipEntry | src/app/api/ships/build/route.ts:114-157 | nothing is completed yet, the batch cost is locked, the first ship is due one ship time from now and the batch is due quantity ship times from now |
| Lifecycle.AfterShipStart | src/app/api/ships/build/route.ts:127-160 | the batch cost is deducted at now and the new row created; ships, buildings and the building queue are unchanged |
| Lifecycle.CatchUpCount | src/app/api/cron/ships/route.ts:85-99 | no ship is finished unless one is due, and never more than remain in the batch |
| Lifecycle.ShipSweepMeaning | src/app/api/cron/ships/route.ts:97-147 | the finished ships are added to that type's count and no other; the row is deleted when the batch is done, or else advanced by that many ship times; amounts and buildings are untouched; a planet with nothing to catch up is unchanged |
| Lifecycle.ShipsFinishingMeaning | src/app/api/cron/ships/route.ts:87-98 | a sweep finishes at least one ship exactly when the current ship is due and the batch still has ships left |
| Lifecycle.SweptShipsNotDue | src/app/api/cron/ships/route.ts:87-99 | after a sweep nothing is left to catch up at the same instant |
| Lifecycle.ShipSweepIdempotent | src/app/api/cron/ships/route.ts:74-99 | a second ship sweep at the same instant changes nothing |
| Lifecycle.ShipRefund | src/app/api/ships/cancel/route.ts:55-64 | the refund is the unit cost times the unbuilt ships: non-negative, and the batch cost of that many ships |
| Lifecycle.AfterShipCancel | src/app/api/ships/cancel/route.ts:45-86 | with no batch in progress nothing changes; otherwise the refund is added at now, capped at storage, the row is deleted and delivered ships are kept |
| Lifecycle.FreshBatchRefundIsLockedCost | src/app/api/ships/cancel/route.ts:55-64 | cancelling a batch before any ship is delivered refunds exactly the locked batch cost |
| Lifecycle.NewResearchEntry | src/app/api/research/start/route.ts:102-144 | the new row targets the current level plus one, locks that level's cost, and ends one research time later, at least a second away |
| Lifecycle.AfterResearchSweep | src/app/api/cron/research/route.ts:62-94 | a due research sets exactly its technology to the target level and deletes the row; nothing is due afterwards; an undue player is unchanged |
| Lifecycle.ResearchSweepIdempotent | src/app/api/cron/research/route.ts:63-71 | a second research sweep at the same instant changes nothing |
| Lifecycle.Planet.constructor | src/app/api/auth/register/route.ts:69-88 | the new home planet's state is exactly the initial view: 500/500/0 resources, every building at level 0, no ships, no queues, snapshot at the creation instant |
| Lifecycle.NewPlanetIsIdle | src/app/api/auth/register/route.ts:69-88 | on a new home planet every building and ship count is 0, and the building and ship sweeps and cancels change nothing |
| Lifecycle.Planet.StoreAmounts | src/app/api/buildings/upgrade/route.ts:121-129 | writes back the amounts and snapshot time and nothing else |
| Lifecycle.Planet.StartBuildingUpgrade | src/app/api/buildings/upgrade/route.ts:19-147 | an unknown type is a 400; a failed validation changes nothing and answers 409 for an active queue, else 400; an accepted upgrade leaves the planet as the upgrade-start function says; the row is stored with the corrected insert, where a finished row gives way (see "## Findings") |
| Lifecycle.Planet.CompleteBuildingIfDue | src/app/api/cron/buildings/route.ts:91-137 | reports completion exactly when the row was due, and leaves the planet as the building-sweep function says |
| Lifecycle.Planet.CancelBuilding | src/app/api/buildings/cancel/route.ts:42-80 | answers 400 without a row in progress and success otherwise, and leaves the planet as the cancel function says |
| Lifecycle.Planet.StartShipBuild | src/app/api/ships/build/route.ts:19-160 | an unknown type or a quantity outside 1..999 is a 400; a failed validation changes nothing; an accepted batch leaves the planet as the ship-start function says |
| Lifecycle.Planet.CompleteShipsIfDue | src/app/api/cron/ships/route.ts:74-157 | returns the catch-up count and leaves the planet as the ship-sweep function says |
| Lifecycle.Planet.CancelShips | src/app/api/ships/cancel/route.ts:45-93 | answers 400 without a batch in progress; otherwise returns the ships already built, and leaves the planet as the ship-cancel function says |
| Lifecycle.Player.constructor | src/app/api/auth/register/route.ts:61-98 | a new player has every technology at level 0 and no research queue |
| Lifecycle.Player.StartResearch | src/app/api/research/start/route.ts:19-147 | an unknown technology is a 400; a failed validation changes nothing; an accepted start deducts the locked cost from the player's planet and creates the research row |
| Lifecycle.Player.CompleteResearchIfDue | src/app/api/cron/research/route.ts:62-94 | reports completion exactly when the research was due, and leaves the player as the research-sweep function says |
| Lifecycle.Player.CancelResearch | src/app/api/research/cancel/route.ts:41-84 | answers 400 without research in progress; otherwise deletes the row, keeps the levels and refunds the locked cost to the planet, capped at storage |
| Lifecycle.BuildingSweep | src/app/api/cron/buildings/route.ts:35-137 | every listed planet ends as the building-sweep function says, once, even when listed twice; the processed count is exactly the number of distinct listed planets whose row was due |
| Lifecycle.ShipSweep | src/app/api/cron/ships/route.ts:32-163 | every listed planet ends as the ship-sweep function says, once, even when listed twice; the processed count is exactly the number of distinct listed planets on which at least one ship was finished |
| Lifecycle.ResearchSweep | src/app/api/cron/research/route.ts:28-101 | every listed player ends as the research-sweep function says, once, even when listed twice; the processed count is exactly the number of distinct listed players whose research was due |
| Registration.PatternMeaning | src/app/api/auth/register/route.ts:24 | /^[a-zA-Z0-9_]+$/ accepts exactly the non-empty strings of letters, digits and underscores |
| Registration.UsernameRules | src/app/api/auth/register/route.ts:16-29 | a username passes exactly when it has 3 to 20 characters, all letters, digits or underscores; a wrong length is reported first |
| Registration.NewAccountStartsAtZero | src/app/api/auth/register/route.ts:80-98 | a new account lists every building type and every technology, each at level 0 |
| Registration.RegisterVerdictMeaning | src/app/api/auth/register/route.ts:9-53 | registration is accepted exactly when both fields are present, the username follows the rules and neither it nor the user id is in use; malformed input is 400, a conflict 409, a taken username before an existing player |
| Registration.CoordinateFrom | src/app/api/auth/register/route.ts:55-57 | a coordinate drawn from a number in [0, 1) lies from 1 to 499 |
| Registration.RegistrationKeepsUsernamesUnique | src/app/api/auth/register/route.ts:31-67 | an accepted registration keeps every username belonging to one account |
| Registration.SecondRegistrationRefused | src/app/api/auth/register/route.ts:31-53 | after a registration, the same username is refused as taken and the same user id as already having a player |
| Registration.Registry.constructor | src/app/api/auth/register/route.ts:31-53 | the registry starts empty, with unique usernames |
| Registration.Registry.Register | src/app/api/auth/register/route.ts:4-107 | the outcome is the verdict; a refusal changes nothing; an acceptance records the account and creates the player and its Homeworld, whose state is exactly the initial planet view (starting resources 500/500/0, zero levels, no queues) |
| IconText.LowerChar | scripts/generate-icons.ts:42 | only ASCII capitals change, each to its lower-case letter |
| IconText.ToLowerMeaning | scripts/generate-icons.ts:42-48 | lower-casing works character by character |
| IconText.SpaceRunEndMeaning | scripts/generate-icons.ts:49-164 | the run from a position is all white space and ends at other text or at the end |
| IconText.SpaceRunEndUnique | scripts/generate-icons.ts:49-164 | any white-space run that ends at other text is that run |
| IconText.ContentEndMeaning | scripts/generate-icons.ts:164-172 | everything from the content end on is white space, and the character before it is not |
| IconText.TrimMeaning | scripts/generate-icons.ts:164-177 | trim yields a piece of the text with white space on neither end, empty only for all-white-space text, and is idempotent |
| IconText.CollapseSpace | scripts/generate-icons.ts:49 | no white space is left after every run becomes "-" |
| IconText.KeepSlugChars | scripts/generate-icons.ts:50 | only [a-z0-9-] is left, and the text never grows |
| IconText.Slug | scripts/generate-icons.ts:47-50 | a slug has only [a-z0-9-] characters |
| IconText.SlugFixesSlugs | scripts/generate-icons.ts:47-50 | a string of [a-z0-9-] is its own slug |
| IconText.SlugIdempotent | scripts/generate-icons.ts:47-50 | slugging a slug changes nothing |
| IconText.SlugWithoutSpace | scripts/generate-icons.ts:47-50 | a name without white space slugs to its lower-cased [a-z0-9-] characters, in order |
| IconText.SlugJoinsWords | scripts/generate-icons.ts:47-50 | two slug words separated by one space become the words joined by "-" |
| IconText.FirstParenTail | scripts/generate-icons.ts:164-172 | the position found is the leftmost at which the remark pattern matches, or there is none |
| IconText.StripParenSuffixMeaning | scripts/generate-icons.ts:164-172 | the strip leaves a prefix of the text, cuts exactly at the leftmost match, and changes nothing without one |
| IconText.StripsRemark | scripts/generate-icons.ts:163-172 | a name followed by " (remark)" loses exactly the remark |
| IconText.RemarkMatchesAt | scripts/generate-icons.ts:164-172 | the remark pattern matches at the space before a "(remark)" that closes the text |
| IconText.NoMatchInsideName | scripts/generate-icons.ts:164-172 | no match starts inside a name that has no "(" and does not end in white space |
| IconText.SplitLines | scripts/generate-icons.ts:155 | splitting on "\n" gives at least one piece, none holding a "\n" |
| IconText.JoinSplit | scripts/generate-icons.ts:155 | joining the pieces with "\n" gives the text back |
| IconText.SplitJoin | scripts/generate-icons.ts:155 | splitting a join of newline-free pieces gives the pieces back |
| IconText.SplitWithoutNewline | scripts/generate-icons.ts:155 | text without "\n" splits into itself alone |
| IconText.SplitPrefix | scripts/generate-icons.ts:155 | a first line without "\n" is the first piece, then the rest splits as before |
| IconFiles.ConfigForMeaning | scripts/generate-icons.ts:36-133 | exactly the seven section names have a configuration; the directories are the sprites tree's, and "icons" is shared by navigation and status only |
| IconFiles.FilenameIsPng | scripts/generate-icons.ts:36-133 | every rule yields a ".png" name, and the navigation and status sections always put "nav-" or "status-" in front |
| IconFiles.FilenameRules | scripts/generate-icons.ts:40-130 | a listed name takes its fixed file and any other name its slug, with the section's prefix; resource icons use the lower-cased name |
| IconFiles.FixedNamesOverrideSlug | scripts/generate-icons.ts:89-113 | "Dashboard/Home" is written as nav-dashboard.png and "Timer/Clock" as status-timer.png, not their slugs |
| IconFiles.SlugFileCharset | scripts/generate-icons.ts:44-130 | a slug file name has only [a-z0-9-] before ".png", so no "/" and no space |
| IconFiles.SlugFileIgnoresCase | scripts/generate-icons.ts:44-59 | a name and its lower case map to the same slug file |
| IconFiles.ToLowerIdempotent | scripts/generate-icons.ts:42 | lower-casing twice is lower-casing once |
| IconFiles.OutputPathShape | scripts/generate-icons.ts:189-193 | the path is "public/sprites/", the section's directory, "/", then the file name, which ends in ".png" |
| IconPrompts.DigitRunEndMeaning | scripts/generate-icons.ts:161-182 | the digit run is all digits and ends at a non-digit or at the end |
| IconPrompts.SectionHeaderCaptured | scripts/generate-icons.ts:161 | "## N. Title" captures the title when it starts with a character that is not white space |
| IconPrompts.ItemHeaderCaptured | scripts/generate-icons.ts:169 | "### Title" captures the title |
| IconPrompts.CarriageReturnHidesHeaders | scripts/generate-icons.ts:155-169 | a header line that ends in "\r" matches neither header pattern, since "." does not match "\r" |
| IconPrompts.FirstDimMatch | scripts/generate-icons.ts:182 | the span found is the leftmost match of the dimensions pattern, or there is none |
| IconPrompts.MatchIsDimensionText | scripts/generate-icons.ts:182 | a match captures digits, "x" or "X", digits |
| IconPrompts.DimensionsMeaning | scripts/generate-icons.ts:182-183 | the dimensions are "32x32" when nothing matches, and otherwise digits, "x" or "X", digits |
| IconPrompts.DimensionsFromMatch | scripts/generate-icons.ts:182-183 | the leftmost match gives the dimensions |
| IconPrompts.NoMatchBeforeDigits | scripts/generate-icons.ts:182 | no match starts in leading text without digits |
| IconPrompts.DimensionsOfSizedPrompt | scripts/generate-icons.ts:182-183 | a prompt stating "WxH pixels" after text without digits has dimensions "WxH" |
| IconPrompts.ParsePromptsFile | scripts/generate-icons.ts:146-212 | the loop over the lines gives the fold of one parser step over the split content, and every recorded icon is well formed |
| IconPrompts.StepKeepsWellFormed | scripts/generate-icons.ts:177-202 | a step keeps the recorded icons well formed: known section, named item, the section's ".png" path, trimmed prompt |
| IconPrompts.StepsKeepWellFormed | scripts/generate-icons.ts:157-209 | any number of steps keep the recorded icons well formed |
| IconPrompts.FenceToggles | scripts/generate-icons.ts:160-203 | a fence line is never a header, so it always flips the code-block flag and leaves section and item alone |
| IconPrompts.HeaderInsideBlock | scripts/generate-icons.ts:160-174 | a header line, inside a block or not, changes the section or the item, leaves the block flag and the prompt alone, and records nothing |
| IconPrompts.EmitsExactly | scripts/generate-icons.ts:177-198 | an icon is recorded exactly at a fence that closes a prompt of a known section, with that moment's section, item, path and dimensions; other lines leave the list alone |
| IconPrompts.PromptClearedOnlyOnClose | scripts/generate-icons.ts:178-208 | the prompt is cleared only by a fence that closes it, known section or not; inside a block a plain line is appended, outside it nothing changes |
| IconPrompts.AppendLineMeaning | scripts/generate-icons.ts:207 | the first line is the prompt; later lines join it after a "\n" |
| IconPrompts.StepsAppend | scripts/generate-icons.ts:157-209 | stepping over two runs of lines is stepping over the first, then the second |
| IconPrompts.StepsOnlyAppend | scripts/generate-icons.ts:185 | the parser only ever appends to the list of icons |
| IconPrompts.SingleBlockRecorded | scripts/generate-icons.ts:177-207 | one prompt line between two fences under a named item of a known section records that icon with the trimmed line as its prompt |
| IconPrompts.FenceStep | scripts/generate-icons.ts:177-202 | a bare fence closes an open prompt, recording it when its section is known, or else only flips the code-block flag |
| IconPrompts.UnnamedBlockCarriesOver | scripts/generate-icons.ts:178-199 | a block closed while no item is named keeps its text, and the next block's lines are joined onto it |

## Left out

- HTTP parsing, authentication, the cron secret, the 401 and 404 answers, Prisma reads, and 500 answers for database errors. Each route is one atomic method on the records it changes.
- Concurrency between requests. Each transaction is atomic. A uniqueness violation is an ordinary branch of the insert.
- The database schema is not part of this model. The one-row-per-planet building queue is taken from the routes, which read it as a single optional relation.
- Floating point. Amounts, rates and the energy factor are exact reals. Powers of 1.5, 2 and 1.1 are exact fractions.
- `Math.exp` in the storage formula. It is a parameter `exp`. Facts about level 0 require exp(0) = 1.
- `Math.random` in registration. The two random draws are the parameters `rx` and `ry`, in [0, 1).
- The clock. `now` is a parameter in integer milliseconds.
- Schema defaults of a new planet other than its starting resources. Rates, temperature, fields and energy are the parameter `defaults`.
- JSON bodies whose fields are not strings. A missing field is the empty string. The ship quantity arrives already parsed by `parseInt`, or as none.
- The INVALID_TECH and INVALID_SHIP branches of the validators. The enumerations are closed datatypes, so no value reaches them.
- The admin give-resources route, the read-only list routes and the UI pages. They are outside the core.
- The icon script's generation half:
  - the Gemini calls, retries and rate limiting;
  - file-system reads and writes;
  - the command line (`--model`, `--category` and `CATEGORY_ALIASES`);
  - `console` output, including the unknown-section warning (the icon is skipped, as modelled).
- `path.join` normalisation. The output path is the three parts joined by "/" and kept verbatim. The section directories are fixed names, but a resource icon's file name is its item name lower-cased with every character kept, so a name holding "/" or ".." (for example "Metal/Ore") gives a path that `path.join` would resolve differently.
- Look-ups in `CATEGORY_CONFIG` and the mapping tables by inherited object keys such as "constructor". Only own keys are modelled.
- Non-ASCII case mapping in `toLowerCase` and in `/i`. Only ASCII letters change case.
- UTF-16 surrogate pairs. Strings are sequences of characters.
- Time.FormatDuration: takes whole seconds. The fractional seconds `Math.floor` would remove are not modelled.
- Storage.StorageCapacity: states non-negativity only under a non-negative `exp`, because `exp` is a parameter.

## Findings

| source | as written | input that shows it | evidently intended | confidence | as-written member | corrected member |
|---|---|---|---|---|---|---|
| src/app/api/buildings/upgrade/route.ts:132-144,169-179 with src/app/api/cron/buildings/route.ts:127-130 and src/app/api/buildings/cancel/route.ts:62-65 | A planet has a single building-queue row. Completion and cancellation keep that row, marked COMPLETED or CANCELLED. The next upgrade creates a second row for the same planet. That create fails the uniqueness check, which is answered 409 QUEUE_ACTIVE. | A planet whose first upgrade has completed (or was cancelled) asks for any affordable upgrade. The validator passes it, since no row is IN_PROGRESS, but the insert is refused. | A finished row gives way to the new one, as the research routes do by deleting theirs. Only a row still in progress blocks. | not executed; medium: the schema is not part of this model, and uniqueness is inferred from the single optional relation the routes read | Queues.FinishedRowBlocksUpgradesAsWritten (over Queues.InsertBuildingRowAsWritten) | Queues.InsertBuildingRow, with Queues.InsertAgreesWithQueueCheck |

Two parser behaviours are modelled as written and stated as lemmas. They are
not corrected, because the script's intent there is not evident:

- In a prompt file saved with "\r\n" line ends, no header matches (`IconPrompts.CarriageReturnHidesHeaders`).
- A block closed while no item is named keeps its text for the next block (`IconPrompts.UnnamedBlockCarriesOver`).
