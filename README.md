# Lumber cutting planner and unit converter

This project models the services core of the lumber app in Dafny:

- **The greedy cutting planner** `SimpleCuttingOptimizer.OptimizeCuts`. It turns board specifications and desired cuts into unit pieces and unit cut instances. It takes the instances longest first and gives each to the board piece it fits most tightly, shortening that piece in place. It then reports the cuts made, the total shortfall and the total waste.
- **The unit converter** `UnitConverter`. It converts between feet, inches, metres and centimetres through inches, and splits a length in inches into feet and inches for display.

Files:

- `Results.dfy` holds `Option` and `Result`. A thrown `ArgumentException` is modelled as a `Failure` that carries the exception's message.
- `UnitConverter.dfy` holds the converter, the formatter and the facts proved about them.
- `Models.dfy` holds the board and cut specifications (`LengthInInches`) and the plan records `OptimizedCut` and `CutPlanResult`, with the shortfall and waste in feet and inches.
- `StableSort.dfy` holds `OrderByDescending` as a stable sort of positions by key. It proves that the result is a permutation, is ordered, is unique, and keeps integer and real sums.
- `CuttingOptimizer.dfy` holds the planner:
  - Specification functions for each stage: `ExpandedBoards`, `CutInstances`, `BestFit`, `Assign`/`AssignAll` and the totals.
  - Imperative methods proved against them: `ExpandBoards`, `ExpandCuts`, `AssignInstances` and `OptimizeCuts`.
  - `AssignInstances` updates an `array` of board pieces in place, as the C# loop updates its `MutableBoardPiece` objects.
- `OptimizerProperties.dfy` holds what the planner guarantees: how the pieces and instances are laid out, best fit, conservation of length, non-negative pieces, a ledger for each piece, and which instance each cut is for, in processing order.

Lengths are `real`. The C# `double` arithmetic involved is multiplication, division, subtraction, comparison, `Math.Floor`, `%` and `Math.Round`, and each is written out exactly over the reals:

- `%` truncates towards zero.
- `Math.Round(x, 2)` rounds half to even.

## Model

| member | source | states |
|---|---|---|
| UnitConverter.ToLower | lumber-app/Services/UnitConverter.cs:12 | lower-casing keeps the length |
| UnitConverter.ToLowerIsCharwise | lumber-app/Services/UnitConverter.cs:12 | lower-casing maps each character on its own and leaves no upper-case letter |
| UnitConverter.ScaleToInches | lumber-app/Services/UnitConverter.cs:15-18 | each arm of the conversion to inches keeps the sign of the value |
| UnitConverter.ScaleFromInches | lumber-app/Services/UnitConverter.cs:29-32 | each arm of the conversion from inches keeps the sign of the value |
| UnitConverter.ScalingUsesFactor | lumber-app/Services/UnitConverter.cs:6-32 | each arm multiplies by, or divides by, its unit's factor: 12 per foot, 1 per inch, 39.3701 per metre, 0.393701 per centimetre |
| UnitConverter.ScalingRoundTrip | lumber-app/Services/UnitConverter.cs:15-32 | the arm towards inches and the arm from inches of one unit undo each other |
| UnitConverter.ScalingIsMonotoneAndLinear | lumber-app/Services/UnitConverter.cs:15-32 | each arm keeps strict order both ways, is additive and commutes with scaling |
| UnitConverter.ToInchesUnit | lumber-app/Services/UnitConverter.cs:15-19 | the token dispatch of the conversion to inches; no contract of its own, its token set is ToInchesUnitAgreesWithTable |
| UnitConverter.FromInchesUnit | lumber-app/Services/UnitConverter.cs:29-33 | the token dispatch of the conversion from inches, "inc hes" included; no contract of its own, its token set is FromInchesUnitAgreesWithTable |
| UnitConverter.ToInchesUnitAgreesWithTable | lumber-app/Services/UnitConverter.cs:15-19 | the tokens the conversion to inches dispatches on are exactly ft, feet, ', in, inches, ", m, meters, cm, centimeters, each with its factor |
| UnitConverter.FromInchesUnitAgreesWithTable | lumber-app/Services/UnitConverter.cs:29-33 | the tokens the conversion from inches dispatches on are exactly ft, feet, in, "inc hes", m, meters, cm, centimeters, each with its factor |
| UnitConverter.ConvertToInches | lumber-app/Services/UnitConverter.cs:10-20 | a failure carries the message "Unsupported unit for conversion to inches." (which tokens fail is ConvertToInchesAgreesWithTable); on success the result is positive, zero or negative exactly when the value is |
| UnitConverter.ConvertToInchesAgreesWithTable | lumber-app/Services/UnitConverter.cs:12-19 | the conversion fails exactly when the lower-cased token is not one of ft, feet, ', in, inches, ", m, meters, cm, centimeters, and otherwise multiplies by that token's factor (12, 1, 39.3701, 0.393701) |
| UnitConverter.ConvertFromInches | lumber-app/Services/UnitConverter.cs:23-36 | a failure carries the message "Unsupported unit for conversion from inches." (which tokens fail is ConvertFromInchesAgreesWithTable); on success the sign of the value is kept |
| UnitConverter.ConvertFromInchesAgreesWithTable | lumber-app/Services/UnitConverter.cs:25-33 | the conversion from inches fails exactly when the lower-cased token is not one of ft, feet, in, "inc hes", m, meters, cm, centimeters, and otherwise divides by that token's factor |
| UnitConverter.SameTokenSameConversion | lumber-app/Services/UnitConverter.cs:12-25 | two units with the same lower-case form convert alike in both directions |
| UnitConverter.ConversionIgnoresCase | lumber-app/Services/UnitConverter.cs:12-25 | both conversions give the same result for a token and for its lower-case form |
| UnitConverter.UnknownUnitFails | lumber-app/Services/UnitConverter.cs:19-33 | a token neither table knows makes each conversion fail with its own message and no value |
| UnitConverter.SharedTokensAgree | lumber-app/Services/UnitConverter.cs:15-32 | a token both directions accept stands for the same unit in both |
| UnitConverter.RoundTrip | lumber-app/Services/UnitConverter.cs:15-32 | for every token both directions accept, converting to inches and back, or from inches and back, returns the value |
| UnitConverter.ConversionTokenAsymmetry | lumber-app/Services/UnitConverter.cs:15-30 | "inches", ' and " are accepted only towards inches, "inc hes" only from inches; every other token is shared and has the same factor in both directions |
| UnitConverter.InchesRoundTripFails | lumber-app/Services/UnitConverter.cs:16-30 | "inches" converts to inches unchanged but the result cannot be converted back: the conversion from inches fails |
| UnitConverter.ConvertFromInchesCorrected | lumber-app/Services/UnitConverter.cs:29-33 | with "inches" in place of "inc hes", an unknown unit still fails with the from-inches message, and on success the sign is kept |
| UnitConverter.CorrectedRoundTrip | lumber-app/Services/UnitConverter.cs:15-32 | with the typo fixed, every word token accepted towards inches round-trips; only ' and " stay one-way |
| UnitConverter.ToInchesIsMonotoneAndLinear | lumber-app/Services/UnitConverter.cs:6-18 | whether the conversion to inches succeeds does not depend on the value; when it does, it keeps strict order both ways, is additive and commutes with scaling |
| UnitConverter.FromInchesIsMonotoneAndLinear | lumber-app/Services/UnitConverter.cs:6-32 | the same for the conversion from inches |
| UnitConverter.Truncate | lumber-app/Services/UnitConverter.cs:43 | dropping the fraction of a double moves it towards zero by less than 1 |
| UnitConverter.RemainderOfFoot | lumber-app/Services/UnitConverter.cs:43 | `x % 12.0` lies in [0, 12) for x >= 0, in (-12, 0] for x <= 0, and differs from x by a whole number of feet |
| UnitConverter.RoundHalfEven | lumber-app/Services/UnitConverter.cs:43 | `Math.Round` gives an integer within 0.5 of its input, leaves integers unchanged, and sends a tie to the even integer |
| UnitConverter.RoundHalfEvenShift | lumber-app/Services/UnitConverter.cs:43 | shifting the input by an even integer shifts the rounded value alike, ties included |
| UnitConverter.RoundToHundredths | lumber-app/Services/UnitConverter.cs:43 | `Math.Round(x, 2)` is a multiple of 0.01 within 0.005 of x, and leaves multiples of 0.01 unchanged |
| UnitConverter.SplitFeetAndInches | lumber-app/Services/UnitConverter.cs:41-43 | after clamping negative input to 0, feet >= 0, 0 <= inches < 12 and 12 * feet + inches is the clamped total |
| UnitConverter.FormatInchesToFeetAndInches | lumber-app/Services/UnitConverter.cs:39-45 | the printed feet are the whole feet of the clamped total (feet <= total / 12 < feet + 1), the printed inches are a multiple of 0.01 in [0, 12] within 0.005 of the remainder after those feet, and input <= 0 prints 0 ft 0 in |
| UnitConverter.FormatCanPrintTwelveInches | lumber-app/Services/UnitConverter.cs:42-43 | 23.999 inches prints as 1 ft 12 in |
| UnitConverter.FormatInchesToFeetAndInchesCorrected | lumber-app/Services/UnitConverter.cs:41-43 | rounding the total first keeps the inches below 12 and makes 12 * feet + inches exactly the rounded clamped total |
| UnitConverter.RoundingCommutesWithFeet | lumber-app/Services/UnitConverter.cs:42-43 | rounding to hundredths commutes with adding whole feet |
| UnitConverter.CorrectedFormatAgrees | lumber-app/Services/UnitConverter.cs:41-43 | both formatters print the same total; they differ only when the original prints 12 inches, which the corrected one carries into the feet |
| Models.Board.LengthInInches | lumber-app/models/Boards.cs:11-17 | a failure carries the converter's message; a positive length gives a positive length in inches |
| Models.DesiredCut.LengthInInches | lumber-app/models/DesiredCut.cs:10-16 | the same for a desired cut |
| Models.CutPlanResult.AdditionalMaterialNeededFormatted | lumber-app/Services/ICuttingOptimizer.cs:14-15 | the shortfall is printed as whole feet >= 0 and inches in [0, 12], together within 0.005 inch of the shortfall clamped at 0 |
| Models.CutPlanResult.TotalWasteFormatted | lumber-app/Services/ICuttingOptimizer.cs:17-18 | the waste is printed the same way, within 0.005 inch of the waste clamped at 0 |
| StableSort.OrderDescending | lumber-app/Services/SimpleCuttingOptimizer.cs:43 | the order is a permutation of the positions; that it is sorted and stable is OrderDescendingIsStableSort |
| StableSort.OrderDescendingIsStableSort | lumber-app/Services/SimpleCuttingOptimizer.cs:43 | the order used for `OrderByDescending` is a permutation of the positions, its keys never increase, and equal keys keep their input order |
| StableSort.SortedOrderIsUnique | lumber-app/Services/SimpleCuttingOptimizer.cs:43 | two orders of the same positions that are both sorted by key descending and then position ascending are equal, so the stable order is determined |
| StableSort.SortKeepsSum | lumber-app/Services/SimpleCuttingOptimizer.cs:43-49 | reading integer values in the sorted order does not change their sum |
| StableSort.SortKeepsTotal | lumber-app/Services/SimpleCuttingOptimizer.cs:43-61 | reading real values in the sorted order does not change their sum |
| CuttingOptimizer.AddBoardPieces | lumber-app/Services/SimpleCuttingOptimizer.cs:31-34 | the inner loop over one board spec fails with the converter's message exactly when the quantity is positive and the unit unknown, and otherwise appends exactly that spec's block of pieces with running ids |
| CuttingOptimizer.ExpandBoards | lumber-app/Services/SimpleCuttingOptimizer.cs:26-37 | the expansion loop succeeds exactly when every board with a positive quantity has a known unit, fails with the converter's message otherwise, and builds exactly ExpandedBoards |
| CuttingOptimizer.ExpandedBoards | lumber-app/Services/SimpleCuttingOptimizer.cs:29-37 | the specification of the board expansion; no contract of its own, its properties are ExpandedBoardsCount, ExpandedBoardsLayout and ExpandedBoardsInOrder |
| OptimizerProperties.ExpandedBoardsCount | lumber-app/Services/SimpleCuttingOptimizer.cs:29-37 | there are as many pieces as the board quantities add up to, a non-positive quantity counting as 0 |
| OptimizerProperties.ExpandedBoardsLayout | lumber-app/Services/SimpleCuttingOptimizer.cs:29-37 | copy i of board j sits right after the copies of the earlier boards, and carries board j, index j, its length in inches, its position as id and no cuts |
| OptimizerProperties.ExpandedBoardsInOrder | lumber-app/Services/SimpleCuttingOptimizer.cs:29-37 | every piece's id is its position, it comes from the board at its index, which has a positive quantity, with that board's length and no cuts, and the indices never decrease |
| CuttingOptimizer.TotalAvailable | lumber-app/Services/SimpleCuttingOptimizer.cs:62 | the total available length; no contract of its own, its value is TotalAvailableIsStockLength |
| OptimizerProperties.TotalAvailableIsStockLength | lumber-app/Services/SimpleCuttingOptimizer.cs:62 | the total available length is the sum of quantity times length over the board specifications |
| CuttingOptimizer.SortedCuts | lumber-app/Services/SimpleCuttingOptimizer.cs:43 | the sorted cuts are as many as the input cuts and each is one of them |
| OptimizerProperties.SortedCutsIsStableSort | lumber-app/Services/SimpleCuttingOptimizer.cs:43 | the sorted cuts are the input read in a permutation, their lengths in inches never increase, and cuts of equal length keep their input order |
| CuttingOptimizer.AddCutInstances | lumber-app/Services/SimpleCuttingOptimizer.cs:45-48 | the inner loop over one cut spec appends exactly that spec's block of instances with running ids |
| CuttingOptimizer.ExpandCuts | lumber-app/Services/SimpleCuttingOptimizer.cs:41-49 | the expansion loop succeeds exactly when every cut has a known unit, fails with the converter's message otherwise, and builds exactly CutInstances |
| CuttingOptimizer.CutInstances | lumber-app/Services/SimpleCuttingOptimizer.cs:41-49 | the specification of the cut expansion; no contract of its own, its properties are CutInstancesInOrder and the InstancesOf lemmas |
| CuttingOptimizer.InstancesOf | lumber-app/Services/SimpleCuttingOptimizer.cs:44-49 | the loop over the sorted cuts, each becoming `Quantity` instances with running ids; no contract of its own, its properties are the InstancesOf lemmas |
| CuttingOptimizer.TotalDesired | lumber-app/Services/SimpleCuttingOptimizer.cs:61 | the total desired length; no contract of its own, its value is TotalDesiredIsDemandLength |
| OptimizerProperties.TotalDesiredIsDemandLength | lumber-app/Services/SimpleCuttingOptimizer.cs:43-61 | the total desired length is the sum of quantity times length over the cut specifications in input order: sorting them first changes nothing |
| OptimizerProperties.InstancesOfLength | lumber-app/Services/SimpleCuttingOptimizer.cs:44-49 | the instances of a list of cuts add up to the sum of quantity times length over those cuts |
| OptimizerProperties.InstancesOfCount | lumber-app/Services/SimpleCuttingOptimizer.cs:44-49 | the instances of a list of cuts number the sum of their quantities |
| OptimizerProperties.InstancesOfLayout | lumber-app/Services/SimpleCuttingOptimizer.cs:44-49 | copy i of cut j sits right after the copies of the earlier cuts, with cut j, its length in inches and its position as id |
| OptimizerProperties.InstancesOfWellFormed | lumber-app/Services/SimpleCuttingOptimizer.cs:44-49 | every instance's id is its position, and it comes from one of the cuts, which has a positive quantity, with that cut's length in inches |
| OptimizerProperties.InstancesOfNonIncreasing | lumber-app/Services/SimpleCuttingOptimizer.cs:43-49 | cuts whose lengths never increase give instances whose lengths never increase |
| OptimizerProperties.CutInstancesInOrder | lumber-app/Services/SimpleCuttingOptimizer.cs:41-49 | the instances number the sum of the cut quantities, have ids 0, 1, 2, ..., come from input cuts with those cuts' lengths, and come longest first |
| CuttingOptimizer.BestFit | lumber-app/Services/SimpleCuttingOptimizer.cs:71-75 | no piece is chosen exactly when no piece is long enough; a chosen piece fits, no fitting piece has less slack, and every earlier fitting piece has more |
| OptimizerProperties.BestFitCharacterized | lumber-app/Services/SimpleCuttingOptimizer.cs:71-75 | BestFit chooses piece k if and only if k is the best fit described declaratively (least slack, earliest among equals) |
| CuttingOptimizer.Assign | lumber-app/Services/SimpleCuttingOptimizer.cs:77-95 | one iteration keeps the number of pieces; what it changes is AssignTakesFromBestFit |
| CuttingOptimizer.CutFrom | lumber-app/Services/SimpleCuttingOptimizer.cs:79-86 | the cut recorded for an instance: its cut spec, quantity 1, the piece's board and index, the instance's length; no contract of its own, AssignTakesFromBestFit and AssignAllCutsInOrder state where it goes |
| CuttingOptimizer.AssignAll | lumber-app/Services/SimpleCuttingOptimizer.cs:67-103 | the loop as a fold over the instances; no contract of its own, its properties are the AssignAll lemmas below |
| CuttingOptimizer.Plan | lumber-app/Services/SimpleCuttingOptimizer.cs:65-103 | the state the loop ends in; no contract of its own, its properties are PlanConservesLength, PlanNeverOvercuts, PlanCuts, PlanCutsFollowInstances and PlanPieceLedger |
| OptimizerProperties.AssignTakesFromBestFit | lumber-app/Services/SimpleCuttingOptimizer.cs:77-95 | when nothing fits the state is unchanged; otherwise the best-fit piece alone is shortened by the cut length and records the cut, keeps its board, index and id, the cut (quantity 1) is appended to the plan, and one more cut is fulfilled |
| OptimizerProperties.AssignConservesLength | lumber-app/Services/SimpleCuttingOptimizer.cs:87-91 | one iteration keeps the piece lengths plus the cut lengths constant |
| OptimizerProperties.AssignAllConservesLength | lumber-app/Services/SimpleCuttingOptimizer.cs:67-103 | the whole loop keeps the piece lengths plus the cut lengths constant |
| OptimizerProperties.PlanConservesLength | lumber-app/Services/SimpleCuttingOptimizer.cs:62-103 | at the end, the lengths left on the pieces plus the lengths of the cuts made are the total available length |
| OptimizerProperties.AssignAllKeepsNonNegative | lumber-app/Services/SimpleCuttingOptimizer.cs:72-90 | a piece is cut only when it is long enough, so pieces that start non-negative stay non-negative |
| OptimizerProperties.PlanNeverOvercuts | lumber-app/Services/SimpleCuttingOptimizer.cs:72-90 | with positive board lengths no piece of the plan ends negative |
| OptimizerProperties.AssignAllRecordsCuts | lumber-app/Services/SimpleCuttingOptimizer.cs:79-93 | the loop only appends cuts, as many as it fulfils instances and no more than it processes, each with quantity 1 and the cut and length of a processed instance; which instance each cut belongs to is AssignAllCutsInOrder |
| OptimizerProperties.FitsAtTurn | lumber-app/Services/SimpleCuttingOptimizer.cs:71-79 | whether, at the turn of instance i, the best-fit query finds a piece; no contract of its own, FulfilledStepsExact uses it |
| OptimizerProperties.FulfilledSteps | lumber-app/Services/SimpleCuttingOptimizer.cs:67-93 | the positions of the instances the loop found a piece for, in loop order; each is a position of the instances |
| OptimizerProperties.AssignAllCutsInOrder | lumber-app/Services/SimpleCuttingOptimizer.cs:67-93 | the p-th appended cut records the cut and length of the p-th fulfilled instance, the fulfilled positions strictly increase, and there are as many as cuts appended |
| OptimizerProperties.FulfilledStepsExact | lumber-app/Services/SimpleCuttingOptimizer.cs:71-79 | an instance is among the fulfilled steps exactly when, at its turn in the loop, some piece is long enough for it (FitsAtTurn) |
| OptimizerProperties.AssignAllCutsNonIncreasing | lumber-app/Services/SimpleCuttingOptimizer.cs:67-87 | instances that come longest first give appended cuts that come longest first |
| OptimizerProperties.PlanCuts | lumber-app/Services/SimpleCuttingOptimizer.cs:79-93 | the plan has one cut per fulfilled instance and no more cuts than instances, each with quantity 1 and an instance's cut and length, longest first |
| OptimizerProperties.PlanSteps | lumber-app/Services/SimpleCuttingOptimizer.cs:67-93 | the fulfilled positions of the plan; no contract of its own, its properties are PlanCutsFollowInstances |
| OptimizerProperties.PlanCutsFollowInstances | lumber-app/Services/SimpleCuttingOptimizer.cs:67-93 | the plan's cuts are in processing order: the p-th cut records the cut and length of the p-th fulfilled instance, the fulfilled positions strictly increase, so no instance gives two cuts, and an instance is fulfilled exactly when a piece fits it at its turn |
| OptimizerProperties.AssignAllPieceLedger | lumber-app/Services/SimpleCuttingOptimizer.cs:87-91 | each piece keeps its board, index, id and earlier cuts; its new cuts come from its board, have quantity 1, are in the plan, and add up to the length it lost |
| OptimizerProperties.PlanPieceLedger | lumber-app/Services/SimpleCuttingOptimizer.cs:87-91 | in the plan each piece's remaining length plus its recorded cuts is its board's length in inches, and each of its cuts comes from its board, has quantity 1 and is in the plan |
| CuttingOptimizer.AssignInstances | lumber-app/Services/SimpleCuttingOptimizer.cs:65-103 | the in-place loop over the array of pieces ends with the pieces, cuts and fulfilled count that AssignAll gives from the initial pieces |
| CuttingOptimizer.OptimizeCuts | lumber-app/Services/SimpleCuttingOptimizer.cs:19-131 | an unknown unit fails with the converter's message. Otherwise the result has the cuts of the plan and no remaining boards. The shortfall is max(0, desired - available) over the totals. The waste is available - desired when that is positive and 0 otherwise. The message is the placeholder. Both amounts are >= 0 and at least one of them is 0 |
| OptimizerProperties.ShortfallIgnoresUnplacedCuts | lumber-app/Services/SimpleCuttingOptimizer.cs:61-63 | two 4 ft boards and one 5 ft cut report no shortfall, yet the cut is not made |

## Left out

- The inner loops of the two expansions are separate methods, AddBoardPieces and AddCutInstances, that return the extended list; the C# appends to the list in place.
- Only ASCII letters are lower-cased; culture-specific casing of `string.ToLower` is not modelled.
- IEEE `double` arithmetic is not modelled. Lengths are exact reals, so rounding residue and overflow are not captured.
- The formatter returns the two numbers it prints, not the text: culture-dependent number formatting in string interpolation is not modelled.
- The `Message` branch at lumber-app/Services/SimpleCuttingOptimizer.cs:105-116 is not modelled, because line 129 always overwrites it. Its text would need the formatted shortfall.
- `MutableBoardPiece` objects are modelled as values in the slots of an array. Only the loop refers to them, so object identity is not observable. An `OptimizedCut` that is shared between the result list and a piece's list is an immutable value in both places.
- LINQ is not modelled as such. `Where`/`OrderBy`/`FirstOrDefault` is BestFit, `OrderByDescending` is a stable sort, and `Sum` is a recursive sum.
- `RemainingBoards` is never filled by the code, and the model returns it empty.
- lumber-app/models/Boards.cs:15 calls `UnitConvert`, which does not exist. The model uses `UnitConverter.ConvertToInches`, as in DesiredCut.cs.
- The Razor page models (lumber-app/Pages/BoardOptimizer.cshtml.cs, lumber-app/Pages/UnitConverter.cshtml.cs) are HTTP and UI plumbing and are not part of this model. OptimizeCuts does not need their validation: quantities of 0 or less and empty lists go through the same code paths, as in the C#.
- Positive lengths (validated at BoardOptimizer.cshtml.cs:55-68) are required only where they matter, by PlanNeverOvercuts.
- Shortfall and waste follow the code: they compare total desired length with total available length. An instance that fits no piece is not counted as a shortfall, as ShortfallIgnoresUnplacedCuts shows.
- The empty `if (!cutMade)` block and the commented-out ordering (lumber-app/Services/SimpleCuttingOptimizer.cs:74, 97-102) have no behaviour.

## Findings

| source | as written | input that shows it | evidently intended | confidence | as-written member | corrected member |
|---|---|---|---|---|---|---|
| lumber-app/Services/UnitConverter.cs:30 | `ConvertFromInches` matches the token "inc hes" | `ConvertFromInches(v, "inches")` throws, although `ConvertToInches(v, "inches")` succeeds | the token "inches", so that every word unit round-trips | not executed | UnitConverter.InchesRoundTripFails | UnitConverter.CorrectedRoundTrip |
| lumber-app/Services/UnitConverter.cs:42-43 | the remainder is rounded to hundredths after the feet are taken | 23.999 inches prints as 1 ft 12 in | round first, then split, so that the inches stay below 12 (2 ft 0 in) | not executed | UnitConverter.FormatCanPrintTwelveInches | UnitConverter.FormatInchesToFeetAndInchesCorrected |
