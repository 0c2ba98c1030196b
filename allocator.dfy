/**
 * The float suggestion: from the till counts alone, choose float counts worth
 * exactly £200.00 where the stock allows, in three phases:
 *   1. a greedy pass in descending face value, limited per unit by the
 *      bag-fraction heuristic;
 *   2. top-up passes over every float unit, at most ten, stopping at the
 *      first pass that adds nothing;
 *   3. a single trim pass, run only when the phase-1 suggestions alone are
 *      worth more than the target, whose excess is measured on the whole
 *      current float.
 * The functions below are the specification the allocator methods of the
 * till counter are proved against. Each pass is a visit of one unit (a Step
 * function) folded over the units in table order, the order of its loop.
 */
module Allocator {
  import opened Denominations
  import opened Calculator

  /** A count table together with the money still to place (or to remove). */
  datatype Tally = Tally(counts: seq<int>, left: int)

  /** The state of a top-up pass: counts, money still to place, and whether
      the pass has added anything yet. */
  datatype Pass = Pass(counts: seq<int>, left: int, progress: bool)

  /** The allocator's verdict on the float it suggests. */
  datatype Outcome = Achieved | Short(amount: int) | Over(amount: int)

  datatype Suggestion = Suggestion(counts: seq<int>, outcome: Outcome)

  function Face(i: nat): pos
    requires i < Count
  {
    Units[i].face
  }

  /** The bag-fraction heuristic: how many pieces of a unit phase 1 aims for.
      Notes and the £2 coin, and coins of which there is at least a full bag,
      are used at the full preference; with at least half a bag the aim drops
      to 70% of the stock, below that to half of it. So a partly used bag is
      never emptied into the float. */
  function SmartTarget(p: Plan, available: int): (t: int)
    ensures t <= p.target
    ensures p.maxBag == 1 || available >= p.maxBag ==> t == p.target
    ensures p.maxBag > 1 && 0 < available < p.maxBag ==> t < available
    ensures p.maxBag > 1 && 0 <= available < p.maxBag ==> t <= available * 7 / 10
  {
    if p.maxBag <= 1 || available >= p.maxBag then p.target
    else if 2 * available >= p.maxBag then Min(p.target, 7 * available / 10)
    else Min(p.target, available / 2)
  }

  /** What phase 1 takes of unit i: no more than the heuristic's aim, the
      stock, or what fits in the money still to place. */
  function Take(i: nat, available: int, remaining: int): (n: int)
    requires i < Count && InFloat(i)
    ensures n <= SmartTarget(Units[i].plan.value, available) && n <= available
    ensures n <= remaining / Face(i)
  {
    Min(Min(SmartTarget(Units[i].plan.value, available), available), remaining / Face(i))
  }

  // ----- Phase 1 -----

  /** Phase 1 at unit i: once the target is met, or for a unit with no float
      input, nothing happens; otherwise the take, when positive, becomes the
      unit's suggestion. */
  function GreedyStep(avail: seq<int>, i: nat, t: Tally): (n: Tally)
    requires |avail| == Count && |t.counts| == Count && i < Count
    ensures |n.counts| == Count
  {
    if t.left <= 0 || !InFloat(i) then t
    else
      var needed := Take(i, avail[i], t.left);
      if needed > 0 then Tally(t.counts[i := needed], t.left - needed * Face(i))
      else t
  }

  /** Phase 1 from unit i on. */
  function Greedy(avail: seq<int>, i: nat, t: Tally): (g: Tally)
    requires |avail| == Count && |t.counts| == Count && i <= Count
    ensures |g.counts| == Count
    decreases Count - i
  {
    if i == Count then t else Greedy(avail, i + 1, GreedyStep(avail, i, t))
  }

  /** Phase 1 as the allocator runs it: no suggestions yet, £200 to place. */
  function Phase1(avail: seq<int>): (g: Tally)
    requires |avail| == Count
    ensures |g.counts| == Count
  {
    Greedy(avail, 0, Tally(Zeros(), Target))
  }

  // ----- Phase 2 -----

  /** A top-up pass at unit i: add what fits of the unit's unused stock. */
  function TopUpStep(avail: seq<int>, i: nat, p: Pass): (n: Pass)
    requires |avail| == Count && |p.counts| == Count && i < Count
    ensures |n.counts| == Count
  {
    if p.left <= 0 || !InFloat(i) then p
    else
      var canAdd := Min(p.left / Face(i), avail[i] - p.counts[i]);
      if canAdd > 0 then Pass(p.counts[i := p.counts[i] + canAdd], p.left - canAdd * Face(i), true)
      else p
  }

  /** One top-up pass from unit i on. */
  function Sweep(avail: seq<int>, i: nat, p: Pass): (r: Pass)
    requires |avail| == Count && |p.counts| == Count && i <= Count
    ensures |r.counts| == Count
    decreases Count - i
  {
    if i == Count then p else Sweep(avail, i + 1, TopUpStep(avail, i, p))
  }

  /** Phase 2: repeat top-up passes while money is left, at most MaxPasses
      times, stopping after the first pass that adds nothing. */
  function TopUp(avail: seq<int>, t: Tally, attempts: nat): (r: Tally)
    requires |avail| == Count && |t.counts| == Count
    ensures |r.counts| == Count
    decreases MaxPasses - attempts
  {
    if t.left <= 0 || attempts >= MaxPasses then t
    else
      var p := Sweep(avail, 0, Pass(t.counts, t.left, false));
      if !p.progress then Tally(p.counts, p.left)
      else TopUp(avail, Tally(p.counts, p.left), attempts + 1)
  }

  // ----- Phase 3 -----

  /** The trim pass at unit i: remove what fits in the excess. */
  function TrimStep(i: nat, t: Tally): (n: Tally)
    requires |t.counts| == Count && i < Count
    ensures |n.counts| == Count
  {
    if t.left <= 0 || !InFloat(i) then t
    else
      var toRemove := Min(t.left / Face(i), t.counts[i]);
      if toRemove > 0 then Tally(t.counts[i := t.counts[i] - toRemove], t.left - toRemove * Face(i))
      else t
  }

  /** The trim pass from unit i on. */
  function TrimFrom(i: nat, t: Tally): (r: Tally)
    requires |t.counts| == Count && i <= Count
    ensures |r.counts| == Count
    decreases Count - i
  {
    if i == Count then t else TrimFrom(i + 1, TrimStep(i, t))
  }

  /** The trim pass: its excess is measured on the whole current float. */
  function Trim(float: seq<int>): (t: Tally)
    requires |float| == Count
    ensures |t.counts| == Count
  {
    TrimFrom(0, Tally(float, FloatTotal(float) - Target))
  }

  // ----- The whole suggestion -----

  /** The verdict on a float total. */
  function Classify(total: int): (o: Outcome)
    ensures o.Achieved? <==> total == Target
    ensures o.Short? ==> o.amount > 0 && total + o.amount == Target
    ensures o.Over? ==> o.amount > 0 && total - o.amount == Target
  {
    if total == Target then Achieved
    else
      var shortage := Target - total;
      if shortage > 0 then Short(shortage) else Over(-shortage)
  }

  /** The float after phases 1 and 2. */
  function ToppedUp(avail: seq<int>): (f: seq<int>)
    requires |avail| == Count
    ensures |f| == Count
  {
    var phase1 := Phase1(avail);
    if phase1.left > 0 then TopUp(avail, phase1, 0).counts else phase1.counts
  }

  /** The whole suggestion. The float starts cleared, so the result depends on
      the till counts only. The trim runs when the phase-1 suggestions, not
      the float after the top-up, are worth more than the target. */
  function Suggest(avail: seq<int>): (s: Suggestion)
    requires |avail| == Count
    ensures |s.counts| == Count
  {
    var topped := ToppedUp(avail);
    var trimmed := if FloatTotal(Phase1(avail).counts) > Target then Trim(topped).counts else topped;
    Suggestion(trimmed, Classify(FloatTotal(trimmed)))
  }

  // ----- Properties -----

  /** Every float count lies between 0 and the stock of its unit (0 when the
      stock reads as negative), and units without a float input hold nothing. */
  ghost predicate WithinStock(avail: seq<int>, float: seq<int>)
  {
    |avail| == Count && |float| == Count
    && (forall i :: 0 <= i < Count ==> 0 <= float[i] <= Max(0, avail[i]))
    && (forall i :: 0 <= i < Count && !InFloat(i) ==> float[i] == 0)
  }

  /** Float unit i could not take one more piece: it is used up, or worth
      more than the money still to place. */
  ghost predicate Full(avail: seq<int>, float: seq<int>, left: int, i: nat)
    requires |avail| == Count && |float| == Count && i < Count
  {
    InFloat(i) ==> float[i] >= avail[i] || left < Face(i)
  }

  /** No float unit could take one more piece. */
  ghost predicate Saturated(avail: seq<int>, float: seq<int>, left: int)
    requires |avail| == Count && |float| == Count
  {
    forall i :: 0 <= i < Count ==> Full(avail, float, left, i)
  }

  /** Two count tables agree on every unit before n. */
  ghost predicate SamePrefix(a: seq<int>, b: seq<int>, n: nat)
    requires |a| == Count && |b| == Count && n <= Count
  {
    forall j :: 0 <= j < n ==> a[j] == b[j]
  }

  lemma DivMulBelow(n: int, m: int, d: pos)
    requires 0 <= m && n <= m / d
    ensures n * d <= m
  {
    assert (m / d) * d <= m;
    MulMonotone(n, m / d, d);
  }

  lemma DivBelowFace(m: int, d: pos)
    requires 0 <= m && m / d <= 0
    ensures m < d
  {
  }

  /** Taking all that fits of the money leaves less than one piece. */
  lemma DivRemainder(n: int, m: int, d: pos)
    requires 0 <= m && n == m / d
    ensures m - n * d < d
  {
  }

  // Phase 1, one unit at a time.

  lemma GreedyStepStock(avail: seq<int>, i: nat, t: Tally)
    requires |avail| == Count && i < Count && WithinStock(avail, t.counts)
    ensures var n := GreedyStep(avail, i, t);
      WithinStock(avail, n.counts)
      && (forall j :: 0 <= j < Count && j != i ==> n.counts[j] == t.counts[j])
      && (n.counts[i] == t.counts[i]
          || (InFloat(i) && 0 < n.counts[i] <= SmartTarget(Units[i].plan.value, avail[i])))
  {
  }

  lemma GreedyStepMoney(avail: seq<int>, i: nat, t: Tally)
    requires |avail| == Count && |t.counts| == Count && i < Count
    requires 0 <= t.left && t.counts[i] == 0
    ensures var n := GreedyStep(avail, i, t);
      0 <= n.left <= t.left && FloatTotal(n.counts) + n.left == FloatTotal(t.counts) + t.left
      && forall j :: 0 <= j < Count && j != i ==> n.counts[j] == t.counts[j]
  {
    if t.left > 0 && InFloat(i) {
      var needed := Take(i, avail[i], t.left);
      if needed > 0 {
        DivMulBelow(needed, t.left, Face(i));
        FloatTotalUpdate(t.counts, i, needed);
      }
    }
  }

  /** Phase 1 keeps within stock and within the heuristic's aim, and changes
      only the units it has yet to visit. */
  lemma {:induction false} GreedyStock(avail: seq<int>, i: nat, t: Tally)
    requires |avail| == Count && i <= Count && WithinStock(avail, t.counts)
    ensures var g := Greedy(avail, i, t);
      WithinStock(avail, g.counts)
      && forall j :: 0 <= j < Count ==>
           g.counts[j] == t.counts[j]
           || (i <= j && InFloat(j) && 0 < g.counts[j] <= SmartTarget(Units[j].plan.value, avail[j]))
    decreases Count - i
  {
    if i < Count {
      GreedyStepStock(avail, i, t);
      GreedyStock(avail, i + 1, GreedyStep(avail, i, t));
    }
  }

  /** Phase 1 never lets the money still to place go negative or grow, and
      accounts for every penny it places. */
  lemma {:induction false} GreedyMoney(avail: seq<int>, i: nat, t: Tally)
    requires |avail| == Count && |t.counts| == Count && i <= Count
    requires 0 <= t.left && forall j :: i <= j < Count ==> t.counts[j] == 0
    ensures var g := Greedy(avail, i, t);
      0 <= g.left <= t.left && FloatTotal(g.counts) + g.left == FloatTotal(t.counts) + t.left
    decreases Count - i
  {
    if i < Count {
      GreedyStepMoney(avail, i, t);
      GreedyMoney(avail, i + 1, GreedyStep(avail, i, t));
    }
  }

  /** Phase 1 as run: within stock and the heuristic's aim, never over the
      target, and the money left is exactly what the suggestions fall short by. */
  lemma Phase1Sound(avail: seq<int>)
    requires |avail| == Count
    ensures var g := Phase1(avail);
      WithinStock(avail, g.counts)
      && (forall j :: 0 <= j < Count && InFloat(j) ==> g.counts[j] <= Max(0, SmartTarget(Units[j].plan.value, avail[j])))
      && 0 <= g.left <= Target && FloatTotal(g.counts) + g.left == Target
  {
    ZerosHaveNoValue(Count);
    GreedyMoney(avail, 0, Tally(Zeros(), Target));
    GreedyStock(avail, 0, Tally(Zeros(), Target));
  }

  /** The phase-1 suggestions are never worth more than the target, so the
      trim step of the suggestion never runs. */
  lemma TrimNeverTriggered(avail: seq<int>)
    requires |avail| == Count
    ensures FloatTotal(Phase1(avail).counts) <= Target
  {
    Phase1Sound(avail);
  }

  // Phase 2, one unit at a time.

  lemma TopUpStepStock(avail: seq<int>, i: nat, p: Pass)
    requires |avail| == Count && i < Count && WithinStock(avail, p.counts)
    ensures var n := TopUpStep(avail, i, p);
      WithinStock(avail, n.counts) && n.counts[i] >= p.counts[i]
      && forall j :: 0 <= j < Count && j != i ==> n.counts[j] == p.counts[j]
  {
  }

  lemma TopUpStepMoney(avail: seq<int>, i: nat, p: Pass)
    requires |avail| == Count && |p.counts| == Count && i < Count && 0 <= p.left
    ensures var n := TopUpStep(avail, i, p);
      0 <= n.left <= p.left
      && FloatTotal(n.counts) + n.left == FloatTotal(p.counts) + p.left
      && (n.left == p.left ==> n == p)
      && (n.progress <==> p.progress || n.left < p.left)
  {
    if p.left > 0 && InFloat(i) {
      var canAdd := Min(p.left / Face(i), avail[i] - p.counts[i]);
      if canAdd > 0 {
        DivMulBelow(canAdd, p.left, Face(i));
        MulMonotone(1, canAdd, Face(i));
        FloatTotalUpdate(p.counts, i, p.counts[i] + canAdd);
      }
    }
  }

  lemma TopUpStepFull(avail: seq<int>, i: nat, p: Pass)
    requires |avail| == Count && |p.counts| == Count && i < Count && 0 <= p.left
    ensures Full(avail, TopUpStep(avail, i, p).counts, TopUpStep(avail, i, p).left, i)
  {
    if p.left > 0 && InFloat(i) {
      var canAdd := Min(p.left / Face(i), avail[i] - p.counts[i]);
      if canAdd > 0 {
        if canAdd == p.left / Face(i) {
          DivRemainder(canAdd, p.left, Face(i));
        }
      } else if p.left / Face(i) <= 0 {
        DivBelowFace(p.left, Face(i));
      }
    }
  }

  /** A top-up pass stays within stock, only adds, and changes only the units
      it has yet to visit. */
  lemma {:induction false} SweepStock(avail: seq<int>, i: nat, p: Pass)
    requires |avail| == Count && i <= Count && WithinStock(avail, p.counts)
    ensures var r := Sweep(avail, i, p);
      WithinStock(avail, r.counts)
      && (forall j :: 0 <= j < Count ==> p.counts[j] <= r.counts[j])
      && SamePrefix(r.counts, p.counts, i)
    decreases Count - i
  {
    if i < Count {
      TopUpStepStock(avail, i, p);
      SweepStock(avail, i + 1, TopUpStep(avail, i, p));
    }
  }

  /** A top-up pass never lets the money still to place go negative, accounts
      for every penny it places, changes nothing when it places nothing, and
      reports progress exactly when it placed some. */
  lemma {:induction false} SweepMoney(avail: seq<int>, i: nat, p: Pass)
    requires |avail| == Count && |p.counts| == Count && i <= Count && 0 <= p.left
    ensures var r := Sweep(avail, i, p);
      0 <= r.left <= p.left
      && FloatTotal(r.counts) + r.left == FloatTotal(p.counts) + p.left
      && (r.left == p.left ==> r == p)
      && (r.progress <==> p.progress || r.left < p.left)
    decreases Count - i
  {
    if i < Count {
      TopUpStepMoney(avail, i, p);
      SweepMoney(avail, i + 1, TopUpStep(avail, i, p));
    }
  }

  /** After a top-up pass every unit it visited is full. */
  lemma {:induction false} SweepSaturates(avail: seq<int>, i: nat, p: Pass)
    requires |avail| == Count && i <= Count && 0 <= p.left && WithinStock(avail, p.counts)
    ensures var r := Sweep(avail, i, p);
      forall j :: i <= j < Count ==> Full(avail, r.counts, r.left, j)
    decreases Count - i
  {
    if i < Count {
      var n := TopUpStep(avail, i, p);
      TopUpStepFull(avail, i, p);
      TopUpStepMoney(avail, i, p);
      TopUpStepStock(avail, i, p);
      SweepSaturates(avail, i + 1, n);
      SweepMoney(avail, i + 1, n);
      SweepStock(avail, i + 1, n);
    }
  }

  /** A pass over a saturated float adds nothing. */
  lemma {:induction false} SaturatedSweepIdle(avail: seq<int>, i: nat, p: Pass)
    requires |avail| == Count && |p.counts| == Count && i <= Count
    requires Saturated(avail, p.counts, p.left)
    ensures Sweep(avail, i, p) == p
    decreases Count - i
  {
    if i < Count {
      assert Full(avail, p.counts, p.left, i);
      assert TopUpStep(avail, i, p) == p;
      SaturatedSweepIdle(avail, i + 1, p);
    }
  }

  /** The fixed-point loop of phase 2 settles after one pass: a pass leaves
      the float saturated, so the pass after it adds nothing, and the cap of
      MaxPasses passes never comes into play. */
  lemma TopUpIsOnePass(avail: seq<int>, t: Tally)
    requires 0 < t.left && WithinStock(avail, t.counts)
    ensures var p := Sweep(avail, 0, Pass(t.counts, t.left, false));
      TopUp(avail, t, 0) == Tally(p.counts, p.left)
  {
    var p := Sweep(avail, 0, Pass(t.counts, t.left, false));
    SweepMoney(avail, 0, Pass(t.counts, t.left, false));
    SweepSaturates(avail, 0, Pass(t.counts, t.left, false));
    if p.progress && p.left > 0 {
      SaturatedSweepIdle(avail, 0, Pass(p.counts, p.left, false));
    }
  }

  /** Phase 2 as a whole: within stock, only adds, nothing lost, and when
      money is still left over, no unit can take another piece. */
  lemma TopUpSound(avail: seq<int>, t: Tally)
    requires 0 < t.left && WithinStock(avail, t.counts)
    ensures var r := TopUp(avail, t, 0);
      WithinStock(avail, r.counts) && 0 <= r.left <= t.left
      && FloatTotal(r.counts) + r.left == FloatTotal(t.counts) + t.left
      && (forall j :: 0 <= j < Count ==> t.counts[j] <= r.counts[j])
      && Saturated(avail, r.counts, r.left)
  {
    TopUpIsOnePass(avail, t);
    SweepMoney(avail, 0, Pass(t.counts, t.left, false));
    SweepStock(avail, 0, Pass(t.counts, t.left, false));
    SweepSaturates(avail, 0, Pass(t.counts, t.left, false));
  }

  // Phase 3, one unit at a time.

  lemma TrimStepCounts(i: nat, t: Tally)
    requires |t.counts| == Count && i < Count
    ensures var n := TrimStep(i, t);
      (n.counts[i] == t.counts[i] || 0 <= n.counts[i] < t.counts[i])
      && forall j :: 0 <= j < Count && j != i ==> n.counts[j] == t.counts[j]
  {
  }

  lemma TrimStepMoney(i: nat, t: Tally)
    requires |t.counts| == Count && i < Count
    ensures var n := TrimStep(i, t);
      (t.left <= 0 ==> n == t)
      && (t.left > 0 ==> 0 <= n.left <= t.left)
      && FloatTotal(n.counts) == FloatTotal(t.counts) - (t.left - n.left)
  {
    if t.left > 0 && InFloat(i) {
      var toRemove := Min(t.left / Face(i), t.counts[i]);
      if toRemove > 0 {
        DivMulBelow(toRemove, t.left, Face(i));
        FloatTotalUpdate(t.counts, i, t.counts[i] - toRemove);
      }
    }
  }

  /** The trim pass never takes a count below 0: it only lowers counts that
      are positive, and by no more than they hold. */
  lemma {:induction false} TrimCounts(i: nat, t: Tally)
    requires |t.counts| == Count && i <= Count
    ensures var r := TrimFrom(i, t);
      forall j :: 0 <= j < Count ==> r.counts[j] == t.counts[j] || 0 <= r.counts[j] < t.counts[j]
    decreases Count - i
  {
    if i < Count {
      TrimStepCounts(i, t);
      TrimCounts(i + 1, TrimStep(i, t));
    }
  }

  /** The trim pass never lets the excess go negative, does nothing when there
      is no excess, and accounts for every penny it removes. */
  lemma {:induction false} TrimMoney(i: nat, t: Tally)
    requires |t.counts| == Count && i <= Count
    ensures var r := TrimFrom(i, t);
      (t.left <= 0 ==> r == t)
      && (t.left > 0 ==> 0 <= r.left <= t.left)
      && FloatTotal(r.counts) == FloatTotal(t.counts) - (t.left - r.left)
    decreases Count - i
  {
    if i < Count {
      TrimStepMoney(i, t);
      TrimMoney(i + 1, TrimStep(i, t));
    }
  }

  /** Trimming a float that is over the target never takes it below the
      target, never raises a count and never takes a count below 0. */
  lemma TrimStaysAtOrAboveTarget(float: seq<int>)
    requires |float| == Count && FloatTotal(float) > Target
    ensures Target <= FloatTotal(Trim(float).counts) <= FloatTotal(float)
    ensures forall j :: 0 <= j < Count ==>
      Trim(float).counts[j] == float[j] || 0 <= Trim(float).counts[j] < float[j]
  {
    TrimMoney(0, Tally(float, FloatTotal(float) - Target));
    TrimCounts(0, Tally(float, FloatTotal(float) - Target));
  }

  /** A float already at or below the target is left as it is by the trim. */
  lemma TrimIdleAtTarget(float: seq<int>)
    requires |float| == Count && FloatTotal(float) <= Target
    ensures Trim(float).counts == float
  {
    TrimMoney(0, Tally(float, FloatTotal(float) - Target));
  }

  // The suggestion as a whole.

  /** Phases 1 and 2 together: within stock, never over the target, and short
      of it only when no unit could take one more piece. */
  lemma ToppedUpSound(avail: seq<int>)
    requires |avail| == Count
    ensures var f := ToppedUp(avail);
      WithinStock(avail, f) && FloatTotal(f) <= Target
      && (FloatTotal(f) < Target ==> Saturated(avail, f, Target - FloatTotal(f)))
  {
    Phase1Sound(avail);
    var phase1 := Phase1(avail);
    if phase1.left > 0 {
      TopUpSound(avail, phase1);
    }
  }

  /** What the suggestion promises: every count is within its stock, the £50
      note never enters the float, the float is never over the target (so the
      outcome is never Over), and when it falls short no unit could take one
      more piece. */
  lemma SuggestSound(avail: seq<int>)
    requires |avail| == Count
    ensures var s := Suggest(avail);
      WithinStock(avail, s.counts) && s.counts[0] == 0
      && s.counts == ToppedUp(avail)
      && FloatTotal(s.counts) <= Target
      && s.outcome == Classify(FloatTotal(s.counts)) && !s.outcome.Over?
      && (s.outcome.Short? ==> Saturated(avail, s.counts, s.outcome.amount))
  {
    TrimNeverTriggered(avail);
    ToppedUpSound(avail);
  }

  /** When the suggestion falls short, every 1p coin in the till is in it. */
  lemma ShortUsesEveryPenny(avail: seq<int>)
    requires |avail| == Count
    ensures Suggest(avail).outcome.Short? ==> Suggest(avail).counts[Penny] >= avail[Penny]
  {
    SuggestSound(avail);
    var s := Suggest(avail);
    if s.outcome.Short? {
      assert Full(avail, s.counts, s.outcome.amount, Penny);
    }
  }

  /** With at least £200 in 1p coins the suggestion always reaches the target. */
  lemma AchievedWithEnoughPennies(avail: seq<int>)
    requires |avail| == Count && avail[Penny] >= Target
    ensures Suggest(avail).outcome == Achieved
  {
    SuggestSound(avail);
    ShortUsesEveryPenny(avail);
    var s := Suggest(avail);
    FloatUpToCoversLine(s.counts, Penny, Count);
  }
}
