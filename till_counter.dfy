/**
 * The till counter itself: the count inputs of the page, and what it shows
 * from them. The twelve till inputs and the float inputs are arrays of
 * fields the methods read and write, in table order; slot 0 of the float
 * row belongs to the £50 note, which has no float input, and is never
 * written by the allocator. Each method follows its loop and is proved
 * against the specification functions of Calculator, Validator and
 * Allocator.
 */
module Till {
  import opened Denominations
  import opened Calculator
  import opened Validator
  import opened Allocator

  /** A row of inputs that are all empty reads as the cleared count table. */
  lemma AllBlankReadsZero(fs: seq<Field>)
    requires |fs| == Count && forall i :: 0 <= i < Count ==> fs[i] == Blank
    ensures Quantities(fs) == Zeros()
  {
  }

  class TillCounter {
    /** The count inputs of the till, one per unit. */
    const till: array<Field>
    /** The float count inputs, one slot per unit. */
    const floats: array<Field>

    /** The expected-takings input, in pence. */
    var expectedInput: Field
    var totalCash: int
    var floatTotal: int
    var takings: int
    var expectedTakings: int
    /** The float message. */
    var floatError: Validation
    /** The comparison panel. */
    var comparison: Comparison
    /** The remove / leave panel. */
    var breakdown: RemovalPlan
    /** The message the last float suggestion left, if any. */
    var feedback: Option<Outcome>

    ghost predicate Valid()
    {
      till.Length == Count && floats.Length == Count && till != floats
    }

    /** The counts the till inputs hold. */
    ghost function TillCounts(): (q: seq<int>)
      reads this, till
      requires Valid()
      ensures |q| == Count
    {
      Quantities(till[..])
    }

    /** The counts the float inputs hold. */
    ghost function FloatCounts(): (q: seq<int>)
      reads this, floats
      requires Valid()
      ensures |q| == Count
    {
      Quantities(floats[..])
    }

    /** Everything shown below the float inputs agrees with them and with the
        total cash last computed. */
    ghost predicate ShowsFloat()
      reads this, till, floats
      requires Valid()
    {
      floatTotal == FloatTotal(FloatCounts())
      && takings == Takings(totalCash, floatTotal)
      && floatError == Validate(floatTotal, totalCash)
      && comparison == Compare(takings, expectedTakings)
      && breakdown == BreakdownOf(TillCounts(), FloatCounts(), totalCash)
    }

    /** Everything shown agrees with the inputs. */
    ghost predicate Displayed()
      reads this, till, floats
      requires Valid()
    {
      totalCash == TotalCash(TillCounts()) && ShowsFloat()
    }

    /** The expected takings are those the input holds. */
    ghost predicate ExpectedRead()
      reads this
    {
      expectedTakings == Quantity(expectedInput)
    }

    /** A counter with every input empty. */
    constructor ()
      ensures Valid() && Displayed() && ExpectedRead()
      ensures forall i :: 0 <= i < Count ==> till[i] == Blank && floats[i] == Blank
      ensures expectedInput == Blank && feedback == None
    {
      till := new Field[Count](_ => Blank);
      floats := new Field[Count](_ => Blank);
      expectedInput := Blank;
      totalCash := 0;
      floatTotal := 0;
      takings := 0;
      expectedTakings := 0;
      floatError := Empty;
      comparison := NotShown;
      breakdown := Hidden;
      feedback := None;
      new;
      AllBlankReadsZero(till[..]);
      AllBlankReadsZero(floats[..]);
      ZerosHaveNoValue(Count);
    }

    /** Sum of count times face value over every till input. */
    method CalculateTotalCash() returns (total: int)
      requires Valid()
      ensures total == TotalCash(TillCounts())
    {
      ghost var q := TillCounts();
      total := 0;
      for i := 0 to Count
        invariant total == CashUpTo(q, i)
      {
        total := total + Quantity(till[i]) * Units[i].face;
      }
    }

    /** Sum of count times face value over every float input. */
    method CalculateFloatTotal() returns (total: int)
      requires Valid()
      ensures total == FloatTotal(FloatCounts())
    {
      ghost var q := FloatCounts();
      total := 0;
      for i := 0 to Count
        invariant total == FloatUpTo(q, i)
      {
        if InFloat(i) {
          total := total + Quantity(floats[i]) * Units[i].face;
        }
      }
    }

    /** The value of the phase-1 suggestions, from their own counts. */
    method CalculateFloatFromSuggestions(suggestions: seq<int>) returns (total: int)
      requires |suggestions| == Count
      ensures total == FloatTotal(suggestions)
    {
      total := 0;
      for i := 0 to Count
        invariant total == FloatUpTo(suggestions, i)
      {
        if InFloat(i) {
          total := total + suggestions[i] * Units[i].face;
        }
      }
    }

    /** The lines of the remove / leave panel, in table order. */
    method BreakdownLines() returns (remove: seq<Line>, leave: seq<Line>)
      requires Valid()
      ensures (remove, leave) == LinesUpTo(TillCounts(), FloatCounts(), Count)
    {
      remove, leave := [], [];
      for i := 0 to Count
        invariant (remove, leave) == LinesUpTo(TillCounts(), FloatCounts(), i)
      {
        var totalQuantity := Quantity(till[i]);
        if totalQuantity != 0 {
          var floatQuantity := if InFloat(i) then Quantity(floats[i]) else 0;
          var removeQuantity := Max(0, totalQuantity - floatQuantity);
          if removeQuantity > 0 {
            remove := remove + [Line(i, removeQuantity, removeQuantity * Units[i].face)];
          }
          if floatQuantity > 0 {
            leave := leave + [Line(i, floatQuantity, floatQuantity * Units[i].face)];
          }
        }
      }
    }

    /** The remove / leave panel, hidden while the till holds no cash. */
    method UpdateBreakdown()
      requires Valid()
      modifies this
      ensures breakdown == BreakdownOf(TillCounts(), FloatCounts(), totalCash)
      ensures totalCash == old(totalCash) && floatTotal == old(floatTotal) && takings == old(takings)
      ensures expectedTakings == old(expectedTakings) && expectedInput == old(expectedInput)
      ensures floatError == old(floatError) && comparison == old(comparison) && feedback == old(feedback)
    {
      if totalCash <= 0 {
        breakdown := Hidden;
      } else {
        var remove, leave := BreakdownLines();
        breakdown := Shown(remove, leave);
      }
    }

    /** Recomputes the float total and everything shown from it. */
    method UpdateFloatCalculations()
      requires Valid()
      modifies this
      ensures ShowsFloat()
      ensures totalCash == old(totalCash) && feedback == old(feedback)
      ensures expectedTakings == old(expectedTakings) && expectedInput == old(expectedInput)
    {
      floatTotal := CalculateFloatTotal();
      takings := Max(0, totalCash - floatTotal);
      floatError := Validate(floatTotal, totalCash);
      comparison := Compare(takings, expectedTakings);
      UpdateBreakdown();
    }

    /** Recomputes the total cash, then everything else. */
    method UpdateCalculations()
      requires Valid()
      modifies this
      ensures Displayed()
      ensures feedback == old(feedback)
      ensures expectedTakings == old(expectedTakings) && expectedInput == old(expectedInput)
    {
      totalCash := CalculateTotalCash();
      UpdateFloatCalculations();
    }

    /** Typing in a till input. */
    method EnterTillCount(i: nat, f: Field)
      requires Valid() && i < Count
      modifies this, till
      ensures till[..] == old(till[..])[i := f] && floats[..] == old(floats[..])
      ensures Displayed()
      ensures feedback == old(feedback)
      ensures expectedTakings == old(expectedTakings) && expectedInput == old(expectedInput)
    {
      till[i] := f;
      UpdateCalculations();
    }

    /** Typing in a float input; only units with a plan have one. */
    method EnterFloatCount(i: nat, f: Field)
      requires Valid() && i < Count && InFloat(i)
      modifies this, floats
      ensures floats[..] == old(floats[..])[i := f] && till[..] == old(till[..])
      ensures totalCash == old(totalCash) && ShowsFloat()
      ensures old(Displayed()) ==> Displayed()
      ensures feedback == old(feedback)
      ensures expectedTakings == old(expectedTakings) && expectedInput == old(expectedInput)
    {
      floats[i] := f;
      UpdateFloatCalculations();
    }

    /** Typing in the expected-takings input: only the comparison changes. */
    method UpdateExpectedTakings(input: Field)
      requires Valid()
      modifies this
      ensures expectedInput == input && ExpectedRead()
      ensures comparison == Compare(takings, Quantity(input))
      ensures totalCash == old(totalCash) && floatTotal == old(floatTotal) && takings == old(takings)
      ensures floatError == old(floatError) && breakdown == old(breakdown) && feedback == old(feedback)
      ensures old(Displayed()) ==> Displayed()
    {
      expectedInput := input;
      expectedTakings := Quantity(input);
      comparison := Compare(takings, expectedTakings);
    }

    /** Empties every float input. */
    method ClearFloat()
      requires Valid()
      modifies this, floats
      ensures forall i :: 0 <= i < Count ==> floats[i] == Blank
      ensures FloatCounts() == Zeros() && till[..] == old(till[..])
      ensures totalCash == old(totalCash) && ShowsFloat()
      ensures old(Displayed()) ==> Displayed()
      ensures feedback == old(feedback)
      ensures expectedTakings == old(expectedTakings) && expectedInput == old(expectedInput)
    {
      for i := 0 to Count
        modifies floats
        invariant forall j :: 0 <= j < i ==> floats[j] == Blank
      {
        floats[i] := Blank;
      }
      AllBlankReadsZero(floats[..]);
      UpdateFloatCalculations();
    }

    /** Phase 1 of the suggestion: the greedy pass over the plan, read from
        the till inputs. */
    method PlanSuggestions() returns (suggestions: seq<int>, remaining: int)
      requires Valid()
      ensures Tally(suggestions, remaining) == Phase1(TillCounts())
    {
      suggestions := Zeros();
      remaining := Target;
      for i := 0 to Count
        invariant |suggestions| == Count
        invariant Greedy(TillCounts(), i, Tally(suggestions, remaining)) == Phase1(TillCounts())
      {
        suggestions, remaining := PlanUnit(i, suggestions, remaining);
      }
    }

    /** One unit of phase 1: the take the heuristic, the stock and the money
        still to place allow, recorded when positive. */
    method PlanUnit(i: nat, suggestions: seq<int>, remaining: int) returns (suggestions': seq<int>, remaining': int)
      requires Valid() && i < Count && |suggestions| == Count
      ensures Tally(suggestions', remaining') == GreedyStep(TillCounts(), i, Tally(suggestions, remaining))
    {
      suggestions', remaining' := suggestions, remaining;
      if remaining > 0 && Units[i].plan.Some? {
        var available := Quantity(till[i]);
        var smartTarget := SmartTarget(Units[i].plan.value, available);
        var needed := Min(Min(smartTarget, available), remaining / Face(i));
        if needed > 0 {
          suggestions' := suggestions[i := needed];
          remaining' := remaining - needed * Face(i);
        }
      }
    }

    /** Writes each positive suggestion into its float input. */
    method ApplySuggestions(suggestions: seq<int>)
      requires Valid() && |suggestions| == Count
      modifies floats
      ensures forall i :: 0 <= i < Count ==>
        floats[i] == if suggestions[i] > 0 then Num(suggestions[i]) else old(floats[i])
    {
      for i := 0 to Count
        invariant forall j :: 0 <= j < Count ==>
          floats[j] == if j < i && suggestions[j] > 0 then Num(suggestions[j]) else old(floats[j])
      {
        if suggestions[i] > 0 {
          floats[i] := Num(suggestions[i]);
        }
      }
    }

    /** Phase 2: top-up passes over the float inputs, at most MaxPasses,
        stopping after the first pass that adds nothing. */
    method AdjustFloatForRemaining(remaining0: int)
      requires Valid()
      modifies floats
      ensures FloatCounts() == TopUp(TillCounts(), Tally(old(FloatCounts()), remaining0), 0).counts
    {
      ghost var avail := TillCounts();
      ghost var goal := TopUp(avail, Tally(FloatCounts(), remaining0), 0);
      var remaining := remaining0;
      var attempts := 0;
      while remaining > 0 && attempts < MaxPasses
        invariant 0 <= attempts <= MaxPasses && TillCounts() == avail
        invariant TopUp(avail, Tally(FloatCounts(), remaining), attempts) == goal
        decreases MaxPasses - attempts
      {
        var progress;
        remaining, progress := TopUpSweep(remaining);
        if !progress {
          break;
        }
        attempts := attempts + 1;
      }
    }

    /** One top-up pass over every float input. */
    method TopUpSweep(remaining: int) returns (remaining': int, progress: bool)
      requires Valid()
      modifies floats
      ensures Pass(FloatCounts(), remaining', progress)
           == Sweep(TillCounts(), 0, Pass(old(FloatCounts()), remaining, false))
    {
      ghost var avail := TillCounts();
      ghost var goal := Sweep(avail, 0, Pass(FloatCounts(), remaining, false));
      remaining', progress := remaining, false;
      for i := 0 to Count
        invariant TillCounts() == avail
        invariant Sweep(avail, i, Pass(FloatCounts(), remaining', progress)) == goal
      {
        remaining', progress := TopUpUnit(i, remaining', progress);
      }
    }

    /** One unit of a top-up pass: add what fits of its unused stock. */
    method TopUpUnit(i: nat, remaining: int, progress: bool) returns (remaining': int, progress': bool)
      requires Valid() && i < Count
      modifies floats
      ensures Pass(FloatCounts(), remaining', progress')
           == TopUpStep(TillCounts(), i, Pass(old(FloatCounts()), remaining, progress))
    {
      remaining', progress' := remaining, progress;
      if remaining > 0 && InFloat(i) {
        var currentFloat := Quantity(floats[i]);
        var available := Quantity(till[i]);
        var needed := remaining / Face(i);
        var canAdd := Min(needed, available - currentFloat);
        if canAdd > 0 {
          QuantitiesUpdate(floats[..], i, Num(currentFloat + canAdd));
          floats[i] := Num(currentFloat + canAdd);
          remaining' := remaining - canAdd * Face(i);
          progress' := true;
        }
      }
    }

    /** Phase 3: one pass removing the excess of the whole current float over
        the target, largest units first. */
    method ReduceFloatToTarget()
      requires Valid()
      modifies floats
      ensures FloatCounts() == Trim(old(FloatCounts())).counts
    {
      ghost var goal := Trim(FloatCounts());
      var currentTotal := CalculateFloatTotal();
      var excess := currentTotal - Target;
      for i := 0 to Count
        invariant TrimFrom(i, Tally(FloatCounts(), excess)) == goal
      {
        excess := TrimUnit(i, excess);
      }
    }

    /** One unit of the trim pass: remove what fits in the excess. */
    method TrimUnit(i: nat, excess: int) returns (excess': int)
      requires Valid() && i < Count
      modifies floats
      ensures Tally(FloatCounts(), excess') == TrimStep(i, Tally(old(FloatCounts()), excess))
    {
      excess' := excess;
      if excess > 0 && InFloat(i) {
        var current := Quantity(floats[i]);
        var toRemove := Min(excess / Face(i), current);
        if toRemove > 0 {
          QuantitiesUpdate(floats[..], i, Num(current - toRemove));
          floats[i] := Num(current - toRemove);
          excess' := excess - toRemove * Face(i);
        }
      }
    }

    /** The float suggestion: clears the float, runs the three phases,
        recomputes what is shown, and reports the outcome. The float it
        leaves is the suggestion for the till counts, so it is within stock,
        holds no £50 note and is never over £200. */
    method SuggestFloat()
      requires Valid()
      modifies this, floats
      ensures FloatCounts() == Suggest(TillCounts()).counts
      ensures feedback == Some(Suggest(TillCounts()).outcome)
      ensures till[..] == old(till[..]) && totalCash == old(totalCash) && ShowsFloat()
      ensures old(Displayed()) ==> Displayed()
      ensures expectedTakings == old(expectedTakings) && expectedInput == old(expectedInput)
      ensures WithinStock(TillCounts(), FloatCounts())
      ensures FloatTotal(FloatCounts()) <= Target && !feedback.value.Over?
    {
      ClearFloat();
      PlaceFloat();
      UpdateFloatCalculations();
      feedback := Some(Classify(floatTotal));
      assert WithinStock(TillCounts(), FloatCounts()) && FloatTotal(FloatCounts()) <= Target by {
        SuggestSound(TillCounts());
      }
    }

    /** Phase 1 on a cleared float: the suggestions are planned and written
        into the float inputs, which then hold exactly them. */
    method PlacePhase1() returns (suggestions: seq<int>, remaining: int)
      requires Valid() && forall i :: 0 <= i < Count ==> floats[i] == Blank
      modifies floats
      ensures Tally(suggestions, remaining) == Phase1(TillCounts())
      ensures FloatCounts() == suggestions
    {
      ghost var avail := TillCounts();
      suggestions, remaining := PlanSuggestions();
      ApplySuggestions(suggestions);
      assert FloatCounts() == suggestions by {
        Phase1Sound(avail);
        assert forall j :: 0 <= j < Count ==> FloatCounts()[j] == suggestions[j];
      }
    }

    /** The three phases of the suggestion, on a cleared float. */
    method PlaceFloat()
      requires Valid() && forall i :: 0 <= i < Count ==> floats[i] == Blank
      modifies floats
      ensures FloatCounts() == Suggest(TillCounts()).counts
    {
      ghost var avail := TillCounts();
      var suggestions, remaining := PlacePhase1();
      if remaining > 0 {
        AdjustFloatForRemaining(remaining);
      }
      assert FloatCounts() == ToppedUp(avail);
      var fromSuggestions := CalculateFloatFromSuggestions(suggestions);
      if fromSuggestions > Target {
        ReduceFloatToTarget();
      }
    }

    /** Empties every till input, the expected takings and the float; all
        panels and messages are hidden. */
    method ResetAll()
      requires Valid()
      modifies this, till, floats
      ensures forall i :: 0 <= i < Count ==> till[i] == Blank && floats[i] == Blank
      ensures expectedInput == Blank && ExpectedRead() && feedback == None
      ensures Displayed()
      ensures totalCash == 0 && floatTotal == 0 && takings == 0
      ensures floatError == Empty && comparison == NotShown && breakdown == Hidden
    {
      for i := 0 to Count
        modifies till
        invariant forall j :: 0 <= j < i ==> till[j] == Blank
      {
        till[i] := Blank;
      }
      expectedInput := Blank;
      expectedTakings := 0;
      ClearFloat();
      UpdateCalculations();
      feedback := None;
      AllBlankReadsZero(till[..]);
      ZerosHaveNoValue(Count);
    }

    /** Empties every input, as the page does before loading a record and
        when no record exists for the chosen date. The expected takings
        last read are kept, so the comparison panel still compares against
        them while their input is empty. */
    method ResetAllForms()
      requires Valid()
      modifies this, till, floats
      ensures forall i :: 0 <= i < Count ==> till[i] == Blank && floats[i] == Blank
      ensures expectedInput == Blank && expectedTakings == old(expectedTakings)
      ensures Displayed() && totalCash == 0 && takings == 0
      ensures comparison == Compare(0, old(expectedTakings))
      ensures old(expectedTakings) > 0 ==> comparison != NotShown && !ExpectedRead()
      ensures feedback == old(feedback)
    {
      ResetInputs();
      UpdateCalculations();
      ZerosHaveNoValue(Count);
    }

    /** The reset the page evidently intends: the expected takings are
        cleared with their input, so the comparison panel is hidden. */
    method ResetAllFormsCleared()
      requires Valid()
      modifies this, till, floats
      ensures forall i :: 0 <= i < Count ==> till[i] == Blank && floats[i] == Blank
      ensures expectedInput == Blank && ExpectedRead()
      ensures Displayed() && totalCash == 0 && takings == 0
      ensures comparison == NotShown
      ensures feedback == old(feedback)
    {
      ResetInputs();
      expectedTakings := 0;
      UpdateCalculations();
      ZerosHaveNoValue(Count);
    }

    /** Empties the till, float and expected-takings inputs. */
    method ResetInputs()
      requires Valid()
      modifies this, till, floats
      ensures forall i :: 0 <= i < Count ==> till[i] == Blank && floats[i] == Blank
      ensures TillCounts() == Zeros() && FloatCounts() == Zeros()
      ensures expectedInput == Blank && expectedTakings == old(expectedTakings)
      ensures feedback == old(feedback)
      ensures totalCash == old(totalCash) && floatTotal == old(floatTotal) && takings == old(takings)
      ensures floatError == old(floatError) && comparison == old(comparison) && breakdown == old(breakdown)
    {
      for i := 0 to Count
        modifies till, floats
        invariant forall j :: 0 <= j < i ==> till[j] == Blank && floats[j] == Blank
      {
        till[i] := Blank;
        floats[i] := Blank;
      }
      expectedInput := Blank;
      AllBlankReadsZero(till[..]);
      AllBlankReadsZero(floats[..]);
    }
  }

  /** After a reset with no record to load, expected takings of £50 kept from
      an earlier record show an empty till as £50 below expectations. */
  lemma StaleExpectedTakingsShown()
    ensures Compare(Takings(TotalCash(Zeros()), FloatTotal(Zeros())), 5000) == Below(5000)
  {
    ZerosHaveNoValue(Count);
  }
}
