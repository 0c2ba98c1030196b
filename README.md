# Till counter and float manager, in Dafny

This project models the core of a till-counting web page. The user types how
many notes and coins of each of twelve units of sterling the till holds. The
page then shows:

- the total cash;
- the float kept back for the next day, which must be exactly £200.00;
- the takings, which are the cash minus the float and never negative;
- a message when the float is wrong;
- a comparison of the takings with the takings the user expected;
- a breakdown of what to take out of the till and what to leave in it.

Its main algorithm suggests a float from the till counts alone. It first
clears the float, then works in three phases:

1. a greedy pass in descending face value, limited per coin by a
   bag-fraction heuristic;
2. top-up passes that add any unused stock, at most ten, stopping after the
   first pass that adds nothing;
3. a trim pass. It runs only when the phase-1 suggestions alone are worth
   more than £200, and it measures its excess on the whole current float.

The result is reported as achieved, short by an amount, or over by an amount.

Money is counted in whole pence: £200.00 is 20000 and the 1p coin has face
value 1.

Modules:

- `Denominations` (denominations.dfy) holds the unit table, with each unit's
  float plan (preferred count and bag size). It also holds the form fields
  (`Blank | Unreadable | Num(n)`) and how a field reads as a count
  (`parseInt(value) || 0`).
- `Calculator` (calculator.dfy) specifies total cash, float total, takings
  and the remove / leave breakdown as functions of the two count tables. It
  proves the breakdown sound and conserving.
- `Validator` (validator.dfy) holds the float check and the takings
  comparison.
- `Allocator` (allocator.dfy) specifies the three phases of the float
  suggestion. Each pass is a one-unit step function folded over the units in
  table order. The module proves the properties of each phase and of the
  suggestion as a whole.
- `Scenarios` (scenarios.dfy) works through concrete till contents. One of
  them shows the limit of the greedy order: a till that can make £200
  exactly still gets a float that falls short.
- `Format` (format.dfy) holds the face-value text of a unit ("£20", "50p"),
  with a parser that reads it back.
- `Till` (till_counter.dfy) holds the `TillCounter` class. The till and float
  inputs are arrays of fields, and the shown figures are fields of the
  object. Its methods follow the page's loops and are proved against the
  functions above.

## Model

| member | source | states |
|---|---|---|
| Denominations.UnitsDescending | till-counter.js:385-398 | the twelve units run in strictly descending face value, from the £50 note (5000 pence) to the 1p coin (1 penny) |
| Denominations.FloatPlans | till-counter.js:491-503 | every unit but the £50 note has a float plan; the notes and the £2 coin are unbagged, the £1 coin and below come in bags; the £1 plan is 20 in a bag of 20 and the 1p plan 50 in a bag of 100 |
| Denominations.Quantity | till-counter.js:64 | a readable number counts as itself; only a readable nonzero number gives a nonzero count, so a blank or unreadable input counts as 0 |
| Denominations.Quantities | till-counter.js:62-66 | a row of inputs reads as one count per input; what the counts are is stated by QuantitiesReadNumbers, QuantitiesUpdate and Till.AllBlankReadsZero |
| Denominations.QuantitiesReadNumbers | till-counter.js:62-66 | a nonzero count in a row comes only from an input holding that number |
| Denominations.QuantitiesUpdate | till-counter.js:25-31 | retyping one input changes that input's count to what the new text reads and leaves every other count alone |
| Calculator.CashUpTo | till-counter.js:58-69 | the value of the first n till counts; not negative when none of them is |
| Calculator.FloatLine | till-counter.js:79-82 | the value one float input adds to the float total, 0 for the £50 note, which has none; its bounds are stated by FloatUpToCoversLine |
| Calculator.FloatUpTo | till-counter.js:74-85 | the value of the first n float inputs; its properties are stated by FloatTotalUpdate, FloatUpToNonNegative and FloatUpToCoversLine |
| Calculator.TotalCash | till-counter.js:58-69 | total cash is the value of all twelve till counts; LinesUpToConserve and BreakdownConserves relate it to the breakdown |
| Calculator.FloatTotal | till-counter.js:74-85 | the float total is the value of the eleven float inputs; FloatTotalUpdate, LeaveCashBelow and SuggestSound state its properties |
| Calculator.Takings | till-counter.js:104 | takings are never negative, are at least cash minus float, and are either 0 or exactly cash minus float |
| Calculator.FloatTotalUpdate | till-counter.js:74-85 | changing one float count moves the float total by the new count times the face value, minus the old count times the face value |
| Calculator.FloatUpToNonNegative | till-counter.js:74-85 | with no negative counts, the float total is not negative |
| Calculator.FloatUpToCoversLine | till-counter.js:74-85 | with no negative counts, each unit's float value is part of the float total |
| Calculator.ZerosHaveNoValue | till-counter.js:58-85 | a table of zero counts, which is what blank inputs give, has no cash and no float |
| Calculator.LeaveCount | till-counter.js:413-414 | the float count of a unit, or 0 for the £50 note, which has no float input |
| Calculator.RemoveCount | till-counter.js:415 | the pieces to take out are never negative, are at least the till count minus the float count, are 0 or exactly that difference, and with a float count within stock make up the till count together with it |
| Calculator.LinesUpTo | till-counter.js:405-436 | the remove and leave lines of the first n units; what they list and what they add up to are stated by LinesUpToWellFormed, LinesUpToListsRemoved, LinesUpToListsLeft and LinesUpToConserve |
| Calculator.BreakdownOf | till-counter.js:376-382 | the panel is hidden exactly when the till holds no cash; BreakdownConserves states what it shows |
| Calculator.LinesUpToWellFormed | till-counter.js:405-436 | every breakdown line has a positive count and is worth count times face value; units appear in table order; remove lines carry max(0, till − float) and leave lines carry the float count |
| Calculator.LinesUpToListsRemoved | till-counter.js:405-427 | a unit is listed to remove exactly when its till count is nonzero and some of it is not in the float |
| Calculator.LinesUpToListsLeft | till-counter.js:405-436 | a unit is listed to leave exactly when its till count is nonzero and its float count is positive |
| Calculator.LinesUpToConserve | till-counter.js:405-436 | when every float count lies between 0 and its till count, the leave lines add up to the float total and the remove lines to the cash minus the float |
| Calculator.BreakdownConserves | till-counter.js:371-457 | with cash in the till and every float count within stock, the panel is shown, remove plus leave is the total cash, leave is the float total and remove is the takings |
| Calculator.LeaveCashBelow | till-counter.js:405-436 | when every float count lies between 0 and its till count, the float total lies between 0 and the total cash |
| Validator.Validate | till-counter.js:124-143 | each float total and cash pair gets exactly one verdict. Exceeds wins when the float is above the cash. Otherwise: TooHigh above £200, TooLow for a positive float below it, Ok at £200, Empty for a float of 0 or less. The amount to remove or add is positive and brings the float to £200. No error is shown exactly when the float is within the cash and is either £200 or not positive |
| Validator.TooHighExample | till-counter.js:131-133 | a £250 float in a £500 till must lose £50 |
| Validator.ExceedsTestedFirst | till-counter.js:128-130 | a float of exactly £200 above the cash is still reported as exceeding it |
| Validator.Compare | till-counter.js:163-208 | the comparison is hidden exactly when the expected takings are not positive. Within £5 either way it is a close match carrying the variance. Otherwise it names the amount above or below the expected figure, which is more than £5 |
| Allocator.SmartTarget | till-counter.js:512-525 | the aim never exceeds the preference. It is the preference for unbagged units or a full bag. With less than a full bag it is below the stock, at most 70% of it, so a partly used bag is never emptied |
| Allocator.Take | till-counter.js:527 | phase 1 takes no more than the aim, the stock, or the whole pieces that fit in what is still to place |
| Allocator.Classify | till-counter.js:553-562 | Achieved exactly at £200; Short and Over carry a positive amount that closes the gap to £200 |
| Allocator.GreedyStep | till-counter.js:507-533 | one unit of phase 1; what it keeps is stated by GreedyStepStock and GreedyStepMoney |
| Allocator.Greedy | till-counter.js:506-534 | phase 1 from one unit on, in table order; stated by GreedyStock and GreedyMoney |
| Allocator.Phase1 | till-counter.js:486-534 | phase 1 from a cleared float with £200 to place; stated by Phase1Sound and TrimNeverTriggered |
| Allocator.GreedyStepStock | till-counter.js:507-533 | one unit of phase 1 keeps the float within stock, changes only that unit, and sets it to a positive count within the aim |
| Allocator.GreedyStepMoney | till-counter.js:507-533 | one unit of phase 1 keeps the money still to place non-negative and not growing, and accounts for every penny it places |
| Allocator.GreedyStock | till-counter.js:506-534 | phase 1 keeps within stock and within the aim, and changes only units it has yet to visit |
| Allocator.GreedyMoney | till-counter.js:506-534 | over phase 1, what is still to place never goes negative or grows, and placed plus left equals the amount at the start |
| Allocator.Phase1Sound | till-counter.js:483-534 | the phase-1 suggestions are within stock and within the aim; the money left lies between 0 and £200; suggestions plus money left make exactly £200 |
| Allocator.TrimNeverTriggered | till-counter.js:546-549 | the phase-1 suggestions are never worth more than £200, so the trim is never entered |
| Allocator.TopUpStep | till-counter.js:604-619 | one unit of a top-up pass; stated by TopUpStepStock, TopUpStepMoney and TopUpStepFull |
| Allocator.Sweep | till-counter.js:603-620 | one top-up pass from one unit on; stated by SweepStock, SweepMoney, SweepSaturates and SaturatedSweepIdle |
| Allocator.TopUp | till-counter.js:584-624 | phase 2, at most ten passes, stopping after one that adds nothing; stated by TopUpIsOnePass and TopUpSound |
| Allocator.TopUpStepStock | till-counter.js:604-619 | one unit of a top-up pass keeps the float within stock, only adds, and touches only that unit |
| Allocator.TopUpStepMoney | till-counter.js:604-619 | one unit of a top-up pass keeps the money left non-negative and not growing, accounts for every penny, changes nothing when it adds nothing, and records progress exactly when it adds |
| Allocator.TopUpStepFull | till-counter.js:604-619 | after its visit a unit either has all its stock in the float or no longer fits in the money left |
| Allocator.SweepStock | till-counter.js:603-620 | a whole top-up pass keeps the float within stock, only adds, and leaves the units already visited alone |
| Allocator.SweepMoney | till-counter.js:603-620 | a whole top-up pass keeps the money left non-negative and not growing, accounts for every penny, changes nothing when it adds nothing, and reports progress exactly when it adds |
| Allocator.SweepSaturates | till-counter.js:603-620 | after a pass, no unit can take another piece of its stock for the money left |
| Allocator.SaturatedSweepIdle | till-counter.js:603-620 | a pass over a saturated float changes nothing |
| Allocator.TopUpIsOnePass | till-counter.js:600-623 | the ten-pass loop ends after its first pass: a second pass adds nothing, so the cap never binds |
| Allocator.TopUpSound | till-counter.js:584-624 | phase 2 keeps within stock, only adds, keeps the money left between 0 and its start, accounts for every penny, and leaves the float saturated |
| Allocator.TrimStep | till-counter.js:648-659 | one unit of the trim; stated by TrimStepCounts and TrimStepMoney |
| Allocator.TrimFrom | till-counter.js:648-659 | the trim from one unit on; stated by TrimCounts and TrimMoney |
| Allocator.Trim | till-counter.js:629-660 | the trim with its excess measured on the whole float; stated by TrimStaysAtOrAboveTarget and TrimIdleAtTarget |
| Allocator.TrimStepCounts | till-counter.js:648-659 | one unit of the trim lowers that unit's count to a value not below 0, or leaves it, and changes no other unit |
| Allocator.TrimStepMoney | till-counter.js:648-659 | one unit of the trim does nothing once the excess is gone; otherwise the excess stays between 0 and its start, and the total drops by exactly the excess removed |
| Allocator.TrimCounts | till-counter.js:648-659 | the trim only lowers counts, and never below 0 |
| Allocator.TrimMoney | till-counter.js:648-659 | the trim does nothing without excess; otherwise the excess stays between 0 and its start, and the total drops by exactly the excess removed |
| Allocator.TrimStaysAtOrAboveTarget | till-counter.js:629-660 | trimming a float above £200 leaves it between £200 and its old total, with each count lowered to a value not below 0 or unchanged |
| Allocator.TrimIdleAtTarget | till-counter.js:629-660 | the trim leaves a float of at most £200 unchanged |
| Allocator.ToppedUp | till-counter.js:536-544 | the float after phases 1 and 2; stated by ToppedUpSound |
| Allocator.Suggest | till-counter.js:483-564 | the whole suggestion from the till counts alone; stated by SuggestSound, ShortUsesEveryPenny and AchievedWithEnoughPennies |
| Allocator.ToppedUpSound | till-counter.js:536-544 | after phases 1 and 2 the float is within stock and at most £200; when it falls short, no unit can take another piece |
| Allocator.SuggestSound | till-counter.js:483-564 | the suggestion is within stock, holds no £50 note, is at most £200 and is never Over. Its outcome is the classification of its total. When Short, the float is saturated for the shortfall |
| Allocator.ShortUsesEveryPenny | till-counter.js:584-624 | a suggestion that falls short uses every 1p coin in the till |
| Allocator.AchievedWithEnoughPennies | till-counter.js:483-564 | a till holding at least 20000 1p coins always gets exactly £200 |
| Scenarios.WellStockedNote20 | static/js/till-counter.js:513-536 | the well-stocked till: phase 1 takes 4 £20 notes, £120 left |
| Scenarios.WellStockedNote10 | static/js/till-counter.js:513-536 | then 4 £10 notes, £80 left |
| Scenarios.WellStockedNote5 | static/js/till-counter.js:513-536 | then 6 £5 notes, £50 left |
| Scenarios.WellStockedCoin200 | static/js/till-counter.js:513-536 | then 8 £2 coins, £34 left |
| Scenarios.WellStockedCoin100 | static/js/till-counter.js:513-536 | then 20 £1 coins, £14 left |
| Scenarios.WellStockedCoin50 | static/js/till-counter.js:513-536 | then 20 50p coins, £4 left |
| Scenarios.WellStockedCoin20 | static/js/till-counter.js:513-536 | then 20 20p coins, nothing left |
| Scenarios.WellStockedPhase1 | static/js/till-counter.js:513-536 | on that till, phase 1 reaches exactly £200 with the counts above |
| Scenarios.WellStockedAchieved | static/js/till-counter.js:493-566 | the whole suggestion for that till is those counts, Achieved |
| Scenarios.GreedyWhenPlaced | static/js/till-counter.js:513-536 | helper of FullStockPhase1: once nothing is left to place, the rest of phase 1 takes nothing |
| Scenarios.FullStockNote20 | static/js/till-counter.js:513-536 | on any till with at least 50 £20 notes, phase 1 takes 4, £120 left |
| Scenarios.FullStockNote10 | static/js/till-counter.js:513-536 | with at least 50 £10 notes, then 4, £80 left |
| Scenarios.FullStockNote5 | static/js/till-counter.js:513-536 | with at least 50 £5 notes, then 6, £50 left |
| Scenarios.FullStockCoin200 | static/js/till-counter.js:513-536 | with at least 50 £2 coins, then 8, £34 left |
| Scenarios.FullStockCoin100 | static/js/till-counter.js:513-536 | with at least 50 £1 coins, then a full bag of 20, £14 left |
| Scenarios.FullStockCoin50 | static/js/till-counter.js:513-536 | with at least 50 50p coins, then 20, £4 left |
| Scenarios.FullStockCoin20 | static/js/till-counter.js:513-536 | with at least 50 20p coins, then 20, nothing left |
| Scenarios.FullStockPhase1 | static/js/till-counter.js:513-536 | any till with at least 50 of each unit from the £20 note to the 20p coin gets those counts from phase 1, exactly £200 |
| Scenarios.ThousandOfEachAchieved | static/js/till-counter.js:493-566 | a till with 1000 of every unit gets the same counts, Achieved |
| Scenarios.AllZeroIsZeros | static/js/till-counter.js:683-689 | helper of EmptyTillShort: a table whose every count is 0 is the cleared table |
| Scenarios.EmptyTillShort | static/js/till-counter.js:513-561 | a till with no positive count gets an empty float, £200 short |
| Scenarios.AllTwentiesTaken | static/js/till-counter.js:598-621 | helper of OnlyTwentiesShort, arithmetic only: when fewer than ten notes leave the float short by a whole note or more, none stays behind |
| Scenarios.TwentiesOnlyFloat | static/js/till-counter.js:513-561 | any float within the stock of a till holding only fewer than ten £20 notes holds only £20 notes, and is short by what they do not cover |
| Scenarios.TwentiesOnlyTaken | static/js/till-counter.js:513-561 | the suggestion for such a till holds only £20 notes, is short by what they do not cover, and leaves no note behind that would fit |
| Scenarios.OnlyTwentiesShort | static/js/till-counter.js:513-561 | a till holding only n £20 notes, n below ten, gets all n, short by £200 − £20n |
| Scenarios.ThreeTwentiesShort | static/js/till-counter.js:513-561 | three £20 notes give a £60 float, £140 short |
| Scenarios.GreedyOverEmptyStock | static/js/till-counter.js:513-536 | helper of the scenarios: phase 1 over units the till holds none of takes nothing |
| Scenarios.SweepOverUsedStock | static/js/till-counter.js:598-621 | helper of the scenarios: a top-up pass over units whose stock is all in the float adds nothing |
| Scenarios.NineTwentiesPhase1 | static/js/till-counter.js:513-536 | nine £20, one £5 and ten £2: phase 1 takes 4 £20, the £5 and 8 £2, £99 left |
| Scenarios.NineTwentiesSweep | static/js/till-counter.js:598-621 | the first top-up pass adds 4 £20 and 2 £2 and leaves £15 |
| Scenarios.NineTwentiesToppedUp | static/js/till-counter.js:583-624 | that pass is the only one, so the float after phases 1 and 2 is 8 £20, one £5 and ten £2 |
| Scenarios.NineTwentiesExactFloat | static/js/till-counter.js:493-566 | that till can make exactly £200 within its stock: nine £20 and ten £2 |
| Scenarios.GreedyMissesExactFloat | static/js/till-counter.js:493-566 | yet its suggestion is 8 £20, one £5 and ten £2, £15 short: the allocator does not always find an exact float when one exists |
| Format.NatText | till-counter.js:461-467 | the decimal text of a count is nonempty, all digits, with no leading zero |
| Format.NatTextRoundTrip | till-counter.js:461-467 | that text reads back to the number |
| Format.FractionText | till-counter.js:461-467 | the pence of a face of at least £1 are nothing, or a point and digits not ending in 0, as a JavaScript number prints them |
| Format.FormatDenomination | till-counter.js:461-467 | a face of at least £1 prints with a leading "£", a smaller one as digits followed by "p"; FormatRoundTrip and FormatInjective state that the text identifies the face |
| Format.FindDot | till-counter.js:461-467 | the index found is that of the first decimal point, or the length of the text when there is none |
| Format.ParseDenomination | till-counter.js:461-467 | a text starting with "£" reads as at least 100 pence, any other text as less |
| Format.FindDotAfterDigits | till-counter.js:461-467 | in a pounds text the first point is where the pence start |
| Format.PoundsRoundTrip | till-counter.js:462-463 | the "£" text of a face of at least £1 reads back to that face |
| Format.PenceRoundTrip | till-counter.js:464-465 | the "p" text of a face below £1 reads back to that face |
| Format.FormatRoundTrip | till-counter.js:461-467 | every face's text reads back to the face |
| Format.FormatInjective | till-counter.js:461-467 | no two faces share a text |
| Format.UnitTexts | till-counter.js:461-467 | the texts of the twelve units: "£50" … "£1", "50p" … "1p" |
| Format.FractionTexts | till-counter.js:461-467 | £1.50 prints as "£1.5" and £1.05 as "£1.05"; these faces are hypothetical, since every unit of £1 or more is a whole number of pounds and on the page the pence part is always empty |
| Till.AllBlankReadsZero | till-counter.js:62-66 | a row of empty inputs reads as the cleared count table |
| Till.TillCounter.constructor | till-counter.js:7-17 | a new counter has every input empty, and everything it shows agrees with them |
| Till.TillCounter.CalculateTotalCash | till-counter.js:58-69 | returns the sum of count times face value over the till inputs |
| Till.TillCounter.CalculateFloatTotal | till-counter.js:74-85 | returns the sum of count times face value over the float inputs |
| Till.TillCounter.CalculateFloatFromSuggestions | till-counter.js:569-579 | returns the float total of the phase-1 suggestions |
| Till.TillCounter.BreakdownLines | till-counter.js:405-436 | returns the remove and leave lines of the breakdown for the current inputs |
| Till.TillCounter.UpdateBreakdown | till-counter.js:371-457 | the panel becomes the breakdown for the inputs, hidden without cash; nothing else changes |
| Till.TillCounter.UpdateFloatCalculations | till-counter.js:102-119 | float total, takings, float message, comparison and panel all agree with the inputs; cash and expected takings are kept |
| Till.TillCounter.UpdateCalculations | till-counter.js:90-97 | everything shown agrees with the inputs |
| Till.TillCounter.EnterTillCount | till-counter.js:25-31 | typing in a till input changes that input only, then everything shown agrees with the inputs |
| Till.TillCounter.EnterFloatCount | till-counter.js:34-40 | typing in a float input changes that input only. The float figures are recomputed and the total cash is kept, so a consistent page stays consistent |
| Till.TillCounter.UpdateExpectedTakings | till-counter.js:148-152 | the expected takings become what the input reads. Only the comparison is recomputed, so a consistent page stays consistent |
| Till.TillCounter.ClearFloat | till-counter.js:689-695 | every float input becomes empty, the float counts are all zero, and the float figures are recomputed |
| Till.TillCounter.PlanSuggestions | till-counter.js:506-534 | returns exactly the phase-1 suggestions and money left for the till counts |
| Till.TillCounter.PlanUnit | till-counter.js:507-533 | one unit of the greedy loop, equal to the phase-1 step |
| Till.TillCounter.PlacePhase1 | till-counter.js:506-539 | on a cleared float, the phase-1 suggestions and money left are computed and the float inputs then hold exactly the suggestions |
| Till.TillCounter.ApplySuggestions | till-counter.js:536-539 | each positive suggestion is written into its float input; other inputs are kept |
| Till.TillCounter.AdjustFloatForRemaining | till-counter.js:584-624 | the float becomes phase 2 of the suggestion applied to the current float and amount left |
| Till.TillCounter.TopUpSweep | till-counter.js:603-620 | one top-up pass over the inputs, equal to the specified pass |
| Till.TillCounter.TopUpUnit | till-counter.js:605-619 | one unit of a top-up pass, equal to the specified step |
| Till.TillCounter.ReduceFloatToTarget | till-counter.js:629-660 | the float becomes the trim of the current float |
| Till.TillCounter.TrimUnit | till-counter.js:648-659 | one unit of the trim, equal to the specified step |
| Till.TillCounter.PlaceFloat | till-counter.js:486-549 | on a cleared float, the three phases leave exactly the suggestion for the till counts |
| Till.TillCounter.SuggestFloat | till-counter.js:483-564 | the float becomes the suggestion for the till counts alone, whatever it held before. The feedback is its outcome and the figures shown agree. The float is within stock, at most £200 and never Over |
| Till.TillCounter.ResetAll | till-counter.js:700-734 | every input is empty, expected takings are 0, all figures are 0, and every message and panel is hidden |
| Till.TillCounter.ResetInputs | static/js/till-counter.js:371-375 | every till, float and expected-takings input is empty; nothing shown is recomputed, so the expected takings last read, the feedback, the totals, the takings, the float message, the comparison and the panel are all kept |
| Till.TillCounter.ResetAllForms | static/js/till-counter.js:371-376 | as written: the inputs are empty and recomputed, but the expected takings are kept, so any positive figure keeps the comparison shown against an empty till; the float feedback is kept |
| Till.TillCounter.ResetAllFormsCleared | static/js/till-counter.js:371-376 | as intended: the expected takings are cleared too, and the comparison is hidden; the float feedback is kept |
| Till.StaleExpectedTakingsShown | static/js/till-counter.js:307-309 | after such a reset with £50 expected, an empty till is reported as £50 below expectations |

## Left out

- Page plumbing is not modelled: the DOM, event wiring, HTML text, CSS classes, the two-second timer that hides the save indicator and the three-second timer that hides the float feedback. Inputs are arrays of fields; panels are fields of the object.
- Persistence is not modelled: localStorage save, load and clear in till-counter.js; the backend fetches in static/js/till-counter.js; app.py. The constructor starts from empty inputs instead of loading saved data. The static `resetAll` also resets the date and then reloads the latest saved record, which writes that record's counts back into the inputs and recomputes; only its synchronous clearing, the same as `resetAll` in till-counter.js, is modelled, and the reload is left out with the rest of persistence.
- The Gemini summary, date formatting and the date picker are left out. They are external calls and locale-dependent code.
- Floating-point money is not modelled. Money is whole pence. The `Math.round(x * 100) / 100` lines, and the rounded line values of the static breakdown, are identities on pence. `Math.floor(0.7 * n)` is `7 * n / 10` and `available >= maxBag / 2` is `2 * available >= maxBag`. Drift from binary fractions is not modelled.
- Validator.Compare: the variance percentage is a floating-point division used only for display, and is not modelled.
- Till.TillCounter.UpdateExpectedTakings: the expected takings input is read by `parseFloat` in pounds; the model reads it as a whole number of pence.
- `checkAvailability` is left out; nothing calls it.
- `formatCurrency` and the `toFixed(2)` texts of amounts are left out; only the face-value text of a unit is modelled.
- `reduceFloatToTarget` takes a `suggestions` argument it never uses; the model's method has no such parameter.
- The `suggestions` object holds only positive entries. The model keeps a full table with zeros in the other units, which has the same float value.
- Negative counts are not rejected: `parseInt` reads "-3" as -3 and the model does the same. So WithinStock bounds a float count by max(0, till count).
- The bodies of the allocator loops are separate methods (PlanUnit, TopUpSweep, TopUpUnit, TrimUnit). The float suggestion's phases are a separate method (PlaceFloat). Each is proved equal to its specification step.
- The £50 note has no float input. The model still gives it a slot in the float array so that both tables share one index. Valid() does not constrain that slot: no method of the allocator writes it, and FloatLine and LeaveCount ignore it, so nothing that is shown depends on it.

## Findings

| source | as written | input that shows it | evidently intended | confidence | as-written member | corrected member |
|---|---|---|---|---|---|---|
| static/js/till-counter.js:371-376 | `resetAllForms` empties the expected-takings input but keeps `this.expectedTakings`, then recomputes the comparison against it | a record with £50 expected takings was loaded earlier; then a date with no record is chosen, so the load gets a 404 and calls `resetAllForms` (static/js/till-counter.js:307-309). The panel says the takings are £50 below expectations, with the input empty | clearing the input clears the expected takings, so the comparison is hidden | not executed | Till.TillCounter.ResetAllForms | Till.TillCounter.ResetAllFormsCleared |
