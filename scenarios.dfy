/**
 * Worked examples of the float suggestion on concrete till counts.
 */
module Scenarios {
  import opened Denominations
  import opened Calculator
  import opened Allocator

  /** £20:20, £10:10, £5:10, £2:20, £1:50, 50p:40, 20p:50, 10p:60, 5p:40,
      2p:50, 1p:100 and no £50 notes. */
  const WellStocked: seq<int> := [0, 20, 10, 10, 20, 50, 40, 50, 60, 40, 50, 100]

  // The seven visits of phase 1 that change something, one lemma each.

  lemma WellStockedNote20()
    ensures GreedyStep(WellStocked, 1, Tally(Zeros(), 20000))
         == Tally([0, 4, 0, 0, 0, 0, 0, 0, 0, 0, 0, 0], 12000)
  {
    assert Zeros() == [0, 0, 0, 0, 0, 0, 0, 0, 0, 0, 0, 0];
  }

  lemma WellStockedNote10()
    ensures GreedyStep(WellStocked, 2, Tally([0, 4, 0, 0, 0, 0, 0, 0, 0, 0, 0, 0], 12000))
         == Tally([0, 4, 4, 0, 0, 0, 0, 0, 0, 0, 0, 0], 8000)
  {
  }

  lemma WellStockedNote5()
    ensures GreedyStep(WellStocked, 3, Tally([0, 4, 4, 0, 0, 0, 0, 0, 0, 0, 0, 0], 8000))
         == Tally([0, 4, 4, 6, 0, 0, 0, 0, 0, 0, 0, 0], 5000)
  {
  }

  lemma WellStockedCoin200()
    ensures GreedyStep(WellStocked, 4, Tally([0, 4, 4, 6, 0, 0, 0, 0, 0, 0, 0, 0], 5000))
         == Tally([0, 4, 4, 6, 8, 0, 0, 0, 0, 0, 0, 0], 3400)
  {
  }

  lemma WellStockedCoin100()
    ensures GreedyStep(WellStocked, 5, Tally([0, 4, 4, 6, 8, 0, 0, 0, 0, 0, 0, 0], 3400))
         == Tally([0, 4, 4, 6, 8, 20, 0, 0, 0, 0, 0, 0], 1400)
  {
  }

  lemma WellStockedCoin50()
    ensures GreedyStep(WellStocked, 6, Tally([0, 4, 4, 6, 8, 20, 0, 0, 0, 0, 0, 0], 1400))
         == Tally([0, 4, 4, 6, 8, 20, 20, 0, 0, 0, 0, 0], 400)
  {
  }

  lemma WellStockedCoin20()
    ensures GreedyStep(WellStocked, 7, Tally([0, 4, 4, 6, 8, 20, 20, 0, 0, 0, 0, 0], 400))
         == Tally([0, 4, 4, 6, 8, 20, 20, 20, 0, 0, 0, 0], 0)
  {
  }

  /** Phase 1 on the well-stocked till reaches £200 exactly, taking the four
      £20 notes before any smaller unit and stopping at twenty 20p coins. */
  lemma {:induction false} WellStockedPhase1()
    ensures Phase1(WellStocked) == Tally([0, 4, 4, 6, 8, 20, 20, 20, 0, 0, 0, 0], 0)
  {
    var a := WellStocked;
    var t := Tally(Zeros(), 20000);
    assert GreedyStep(a, 0, t) == t;
    WellStockedNote20();
    WellStockedNote10();
    WellStockedNote5();
    WellStockedCoin200();
    WellStockedCoin100();
    WellStockedCoin50();
    WellStockedCoin20();
  }

  /** The well-stocked till gets exactly £200 from phase 1 alone. */
  lemma WellStockedAchieved()
    ensures Suggest(WellStocked) == Suggestion([0, 4, 4, 6, 8, 20, 20, 20, 0, 0, 0, 0], Achieved)
  {
    WellStockedPhase1();
    Phase1Sound(WellStocked);
  }

  /** Once nothing is left to place, the rest of phase 1 takes nothing. */
  lemma {:induction false} GreedyWhenPlaced(avail: seq<int>, i: nat, t: Tally)
    requires |avail| == Count && |t.counts| == Count && i <= Count && t.left <= 0
    ensures Greedy(avail, i, t) == t
    decreases Count - i
  {
    if i < Count {
      assert GreedyStep(avail, i, t) == t;
      GreedyWhenPlaced(avail, i + 1, t);
    }
  }

  // Phase 1 on any till holding at least 50 of the unit visited: each plan is
  // met in full, or cut to what is still to place, as on the well-stocked till.

  lemma FullStockNote20(avail: seq<int>)
    requires |avail| == Count && avail[1] >= 50
    ensures GreedyStep(avail, 1, Tally(Zeros(), 20000))
         == Tally([0, 4, 0, 0, 0, 0, 0, 0, 0, 0, 0, 0], 12000)
  {
    assert Zeros() == [0, 0, 0, 0, 0, 0, 0, 0, 0, 0, 0, 0];
  }

  lemma FullStockNote10(avail: seq<int>)
    requires |avail| == Count && avail[2] >= 50
    ensures GreedyStep(avail, 2, Tally([0, 4, 0, 0, 0, 0, 0, 0, 0, 0, 0, 0], 12000))
         == Tally([0, 4, 4, 0, 0, 0, 0, 0, 0, 0, 0, 0], 8000)
  {
  }

  lemma FullStockNote5(avail: seq<int>)
    requires |avail| == Count && avail[3] >= 50
    ensures GreedyStep(avail, 3, Tally([0, 4, 4, 0, 0, 0, 0, 0, 0, 0, 0, 0], 8000))
         == Tally([0, 4, 4, 6, 0, 0, 0, 0, 0, 0, 0, 0], 5000)
  {
  }

  lemma FullStockCoin200(avail: seq<int>)
    requires |avail| == Count && avail[4] >= 50
    ensures GreedyStep(avail, 4, Tally([0, 4, 4, 6, 0, 0, 0, 0, 0, 0, 0, 0], 5000))
         == Tally([0, 4, 4, 6, 8, 0, 0, 0, 0, 0, 0, 0], 3400)
  {
  }

  lemma FullStockCoin100(avail: seq<int>)
    requires |avail| == Count && avail[5] >= 50
    ensures GreedyStep(avail, 5, Tally([0, 4, 4, 6, 8, 0, 0, 0, 0, 0, 0, 0], 3400))
         == Tally([0, 4, 4, 6, 8, 20, 0, 0, 0, 0, 0, 0], 1400)
  {
  }

  lemma FullStockCoin50(avail: seq<int>)
    requires |avail| == Count && avail[6] >= 50
    ensures GreedyStep(avail, 6, Tally([0, 4, 4, 6, 8, 20, 0, 0, 0, 0, 0, 0], 1400))
         == Tally([0, 4, 4, 6, 8, 20, 20, 0, 0, 0, 0, 0], 400)
  {
  }

  lemma FullStockCoin20(avail: seq<int>)
    requires |avail| == Count && avail[7] >= 50
    ensures GreedyStep(avail, 7, Tally([0, 4, 4, 6, 8, 20, 20, 0, 0, 0, 0, 0], 400))
         == Tally([0, 4, 4, 6, 8, 20, 20, 20, 0, 0, 0, 0], 0)
  {
  }

  /** Any till holding at least 50 of each unit from the £20 note to the 20p
      coin takes the well-stocked path: every plan is met in full, and the
      20p coins close the float exactly. */
  lemma {:induction false} FullStockPhase1(avail: seq<int>)
    requires |avail| == Count && forall i :: 1 <= i <= 7 ==> avail[i] >= 50
    ensures Phase1(avail) == Tally([0, 4, 4, 6, 8, 20, 20, 20, 0, 0, 0, 0], 0)
  {
    var t0 := Tally(Zeros(), 20000);
    var t1 := Tally([0, 4, 0, 0, 0, 0, 0, 0, 0, 0, 0, 0], 12000);
    var t2 := Tally([0, 4, 4, 0, 0, 0, 0, 0, 0, 0, 0, 0], 8000);
    var t3 := Tally([0, 4, 4, 6, 0, 0, 0, 0, 0, 0, 0, 0], 5000);
    var t4 := Tally([0, 4, 4, 6, 8, 0, 0, 0, 0, 0, 0, 0], 3400);
    var t5 := Tally([0, 4, 4, 6, 8, 20, 0, 0, 0, 0, 0, 0], 1400);
    var t6 := Tally([0, 4, 4, 6, 8, 20, 20, 0, 0, 0, 0, 0], 400);
    var t7 := Tally([0, 4, 4, 6, 8, 20, 20, 20, 0, 0, 0, 0], 0);
    assert GreedyStep(avail, 0, t0) == t0;
    FullStockNote20(avail);
    FullStockNote10(avail);
    FullStockNote5(avail);
    FullStockCoin200(avail);
    FullStockCoin100(avail);
    FullStockCoin50(avail);
    FullStockCoin20(avail);
    GreedyWhenPlaced(avail, 8, t7);
    assert Greedy(avail, 4, t3) == Greedy(avail, 8, t7);
    assert Greedy(avail, 0, t0) == Greedy(avail, 4, t3);
  }

  /** A till with 1000 of every unit gets exactly £200, on the same counts. */
  lemma ThousandOfEachAchieved()
    ensures Suggest(seq(Count, _ => 1000))
         == Suggestion([0, 4, 4, 6, 8, 20, 20, 20, 0, 0, 0, 0], Achieved)
  {
    var avail := seq(Count, _ => 1000);
    FullStockPhase1(avail);
    Phase1Sound(avail);
  }

  /** A count table that is all zero is the cleared one. */
  lemma AllZeroIsZeros(q: seq<int>)
    requires |q| == Count && forall i :: 0 <= i < Count ==> q[i] == 0
    ensures q == Zeros()
  {
  }

  /** A till with nothing in it (or only negative counts) gets an empty float,
      £200 short. */
  lemma EmptyTillShort(avail: seq<int>)
    requires |avail| == Count && forall i :: 0 <= i < Count ==> avail[i] <= 0
    ensures Suggest(avail) == Suggestion(Zeros(), Short(Target))
  {
    SuggestSound(avail);
    AllZeroIsZeros(Suggest(avail).counts);
    ZerosHaveNoValue(Count);
  }

  /** Counting argument behind OnlyTwentiesShort: c of the n notes leave the
      float short by at least one note, so no note can stay behind. */
  lemma AllTwentiesTaken(c: int, n: int)
    requires 0 <= c <= n < 10
    requires c >= n || Target - 2000 * c < 2000
    ensures c == n
  {
  }

  /** Any float within the stock of a till holding nothing but fewer than ten
      £20 notes holds only £20 notes, and its classification is the shortfall
      they leave. */
  lemma TwentiesOnlyFloat(avail: seq<int>, float: seq<int>)
    requires |avail| == Count && forall i :: 0 <= i < Count && i != 1 ==> avail[i] == 0
    requires avail[1] < 10 && WithinStock(avail, float)
    ensures float == Zeros()[1 := float[1]] && 0 <= float[1] <= Max(0, avail[1])
    ensures Classify(FloatTotal(float)) == Short(Target - 2000 * float[1])
  {
    var c := float[1];
    AllZeroIsZeros(float[1 := 0]);
    assert float == Zeros()[1 := c];
    ZerosHaveNoValue(Count);
    FloatTotalUpdate(Zeros(), 1, c);
  }

  /** The suggestion for such a till: only £20 notes, short by what they do
      not cover, and no note that would still fit is left behind. */
  lemma TwentiesOnlyTaken(avail: seq<int>)
    requires |avail| == Count && forall i :: 0 <= i < Count && i != 1 ==> avail[i] == 0
    requires avail[1] < 10
    ensures var s := Suggest(avail);
      s.counts == Zeros()[1 := s.counts[1]] && 0 <= s.counts[1] <= Max(0, avail[1])
      && s.outcome == Short(Target - 2000 * s.counts[1])
      && Full(avail, s.counts, s.outcome.amount, 1)
  {
    SuggestSound(avail);
    var s := Suggest(avail);
    TwentiesOnlyFloat(avail, s.counts);
  }

  /** A till holding only n £20 notes, fewer than ten, gets all of them and
      falls short by the rest; three notes give £60, £140 short. */
  lemma OnlyTwentiesShort(n: int)
    requires 0 <= n < 10
    ensures Suggest(Zeros()[1 := n]) == Suggestion(Zeros()[1 := n], Short(Target - 2000 * n))
  {
    var avail := Zeros()[1 := n];
    TwentiesOnlyTaken(avail);
    AllTwentiesTaken(Suggest(avail).counts[1], n);
  }

  lemma ThreeTwentiesShort()
    ensures Suggest([0, 3, 0, 0, 0, 0, 0, 0, 0, 0, 0, 0])
         == Suggestion([0, 3, 0, 0, 0, 0, 0, 0, 0, 0, 0, 0], Short(14000))
  {
    var avail := Zeros()[1 := 3];
    assert avail == [0, 3, 0, 0, 0, 0, 0, 0, 0, 0, 0, 0];
    OnlyTwentiesShort(3);
  }
  /** Nine £20 notes, one £5 note and ten £2 coins: nine notes and the ten
      coins make £200 exactly, but phase 1 takes the £5 note, and after it the
      top-up cannot close the gap. */
  const NineTwenties: seq<int> := [0, 9, 0, 1, 10, 0, 0, 0, 0, 0, 0, 0]

  lemma NineTwentiesNote20()
    ensures GreedyStep(NineTwenties, 1, Tally(Zeros(), 20000))
         == Tally([0, 4, 0, 0, 0, 0, 0, 0, 0, 0, 0, 0], 12000)
  {
    assert Zeros() == [0, 0, 0, 0, 0, 0, 0, 0, 0, 0, 0, 0];
  }

  lemma NineTwentiesNote5()
    ensures GreedyStep(NineTwenties, 3, Tally([0, 4, 0, 0, 0, 0, 0, 0, 0, 0, 0, 0], 12000))
         == Tally([0, 4, 0, 1, 0, 0, 0, 0, 0, 0, 0, 0], 11500)
  {
  }

  lemma NineTwentiesCoin200()
    ensures GreedyStep(NineTwenties, 4, Tally([0, 4, 0, 1, 0, 0, 0, 0, 0, 0, 0, 0], 11500))
         == Tally([0, 4, 0, 1, 8, 0, 0, 0, 0, 0, 0, 0], 9900)
  {
  }

  /** Phase 1 over units the till holds none of takes nothing. */
  lemma {:induction false} GreedyOverEmptyStock(avail: seq<int>, i: nat, t: Tally)
    requires |avail| == Count && |t.counts| == Count && i <= Count
    requires forall j :: i <= j < Count ==> avail[j] <= 0
    ensures Greedy(avail, i, t) == t
    decreases Count - i
  {
    if i < Count {
      assert GreedyStep(avail, i, t) == t;
      GreedyOverEmptyStock(avail, i + 1, t);
    }
  }

  lemma {:induction false} NineTwentiesPhase1()
    ensures Phase1(NineTwenties) == Tally([0, 4, 0, 1, 8, 0, 0, 0, 0, 0, 0, 0], 9900)
  {
    var a := NineTwenties;
    var t0 := Tally(Zeros(), 20000);
    var t1 := Tally([0, 4, 0, 0, 0, 0, 0, 0, 0, 0, 0, 0], 12000);
    var t2 := Tally([0, 4, 0, 1, 0, 0, 0, 0, 0, 0, 0, 0], 11500);
    var t3 := Tally([0, 4, 0, 1, 8, 0, 0, 0, 0, 0, 0, 0], 9900);
    assert GreedyStep(a, 0, t0) == t0;
    NineTwentiesNote20();
    assert GreedyStep(a, 2, t1) == t1;
    NineTwentiesNote5();
    NineTwentiesCoin200();
    GreedyOverEmptyStock(a, 5, t3);
    assert Greedy(a, 4, t2) == Greedy(a, 5, t3);
    assert Greedy(a, 2, t1) == Greedy(a, 4, t2);
    assert Greedy(a, 0, t0) == Greedy(a, 2, t1);
  }

  // The two visits of the first top-up pass that add something.

  lemma NineTwentiesTopUp20()
    ensures TopUpStep(NineTwenties, 1, Pass([0, 4, 0, 1, 8, 0, 0, 0, 0, 0, 0, 0], 9900, false))
         == Pass([0, 8, 0, 1, 8, 0, 0, 0, 0, 0, 0, 0], 1900, true)
  {
  }

  lemma NineTwentiesTopUp200()
    ensures TopUpStep(NineTwenties, 4, Pass([0, 8, 0, 1, 8, 0, 0, 0, 0, 0, 0, 0], 1900, true))
         == Pass([0, 8, 0, 1, 10, 0, 0, 0, 0, 0, 0, 0], 1500, true)
  {
  }

  /** A top-up pass over units whose stock is all in the float adds nothing. */
  lemma {:induction false} SweepOverUsedStock(avail: seq<int>, i: nat, p: Pass)
    requires |avail| == Count && |p.counts| == Count && i <= Count
    requires forall j :: i <= j < Count ==> avail[j] <= p.counts[j]
    ensures Sweep(avail, i, p) == p
    decreases Count - i
  {
    if i < Count {
      assert TopUpStep(avail, i, p) == p;
      SweepOverUsedStock(avail, i + 1, p);
    }
  }

  lemma {:induction false} NineTwentiesSweep()
    ensures Sweep(NineTwenties, 0, Pass([0, 4, 0, 1, 8, 0, 0, 0, 0, 0, 0, 0], 9900, false))
         == Pass([0, 8, 0, 1, 10, 0, 0, 0, 0, 0, 0, 0], 1500, true)
  {
    var a := NineTwenties;
    var p0 := Pass([0, 4, 0, 1, 8, 0, 0, 0, 0, 0, 0, 0], 9900, false);
    var p1 := Pass([0, 8, 0, 1, 8, 0, 0, 0, 0, 0, 0, 0], 1900, true);
    var p2 := Pass([0, 8, 0, 1, 10, 0, 0, 0, 0, 0, 0, 0], 1500, true);
    assert TopUpStep(a, 0, p0) == p0;
    NineTwentiesTopUp20();
    assert TopUpStep(a, 2, p1) == p1;
    assert TopUpStep(a, 3, p1) == p1;
    NineTwentiesTopUp200();
    SweepOverUsedStock(a, 5, p2);
    assert Sweep(a, 4, p1) == Sweep(a, 5, p2);
    assert Sweep(a, 2, p1) == Sweep(a, 4, p1);
    assert Sweep(a, 0, p0) == Sweep(a, 2, p1);
  }

  /** Phases 1 and 2 on this till: the first top-up pass leaves £15 that no
      remaining stock fits, so it is the only one. */
  lemma NineTwentiesToppedUp()
    ensures ToppedUp(NineTwenties) == [0, 8, 0, 1, 10, 0, 0, 0, 0, 0, 0, 0]
  {
    NineTwentiesPhase1();
    Phase1Sound(NineTwenties);
    TopUpIsOnePass(NineTwenties, Tally([0, 4, 0, 1, 8, 0, 0, 0, 0, 0, 0, 0], 9900));
    NineTwentiesSweep();
  }

  /** Nine £20 notes and ten £2 coins, taken from this till, are £200. */
  lemma NineTwentiesExactFloat()
    ensures WithinStock(NineTwenties, [0, 9, 0, 0, 10, 0, 0, 0, 0, 0, 0, 0])
    ensures FloatTotal([0, 9, 0, 0, 10, 0, 0, 0, 0, 0, 0, 0]) == Target
  {
    var f := [0, 9, 0, 0, 10, 0, 0, 0, 0, 0, 0, 0];
    forall i | 0 <= i < Count
      ensures 0 <= f[i] <= Max(0, NineTwenties[i]) && (!InFloat(i) ==> f[i] == 0)
    {
      assert f[i] <= NineTwenties[i] && (i == 0 ==> f[i] == 0);
    }
    ZerosHaveNoValue(Count);
    FloatTotalUpdate(Zeros(), 1, 9);
    FloatTotalUpdate(Zeros()[1 := 9], 4, 10);
    assert Zeros()[1 := 9][4 := 10] == f;
  }

  /** The suggested float is worth £185. */
  lemma NineTwentiesSuggestedValue()
    ensures FloatTotal([0, 8, 0, 1, 10, 0, 0, 0, 0, 0, 0, 0]) == 18500
  {
    ZerosHaveNoValue(Count);
    FloatTotalUpdate(Zeros(), 1, 8);
    FloatTotalUpdate(Zeros()[1 := 8], 3, 1);
    FloatTotalUpdate(Zeros()[1 := 8][3 := 1], 4, 10);
    assert Zeros()[1 := 8][3 := 1][4 := 10] == [0, 8, 0, 1, 10, 0, 0, 0, 0, 0, 0, 0];
  }

  /** The greedy order misses an exact float: the till holds one (nine £20
      notes and ten £2 coins), yet the suggestion uses the £5 note and ends
      £15 short. */
  lemma GreedyMissesExactFloat()
    ensures WithinStock(NineTwenties, [0, 9, 0, 0, 10, 0, 0, 0, 0, 0, 0, 0])
         && FloatTotal([0, 9, 0, 0, 10, 0, 0, 0, 0, 0, 0, 0]) == Target
    ensures Suggest(NineTwenties) == Suggestion([0, 8, 0, 1, 10, 0, 0, 0, 0, 0, 0, 0], Short(1500))
  {
    NineTwentiesExactFloat();
    NineTwentiesToppedUp();
    NineTwentiesSuggestedValue();
    SuggestSound(NineTwenties);
  }
}
