/**
 * Totals derived from the till: total cash, float total, takings, and the
 * breakdown of what to take out of the till and what to leave in it.
 * All of them are functions of the two count tables.
 */
module Calculator {
  import opened Denominations

  /** Value in pence of units 0 .. n-1 of a till count table. */
  function CashUpTo(q: seq<int>, n: nat): (c: int)
    requires |q| == Count && n <= Count
    ensures (forall j :: 0 <= j < n ==> q[j] >= 0) ==> c >= 0
  {
    if n == 0 then 0 else CashUpTo(q, n - 1) + q[n - 1] * Units[n - 1].face
  }

  /** What unit i adds to the float total: units without a float input add nothing. */
  function FloatLine(q: seq<int>, i: nat): int
    requires |q| == Count && i < Count
  {
    if InFloat(i) then q[i] * Units[i].face else 0
  }

  /** Value in pence of the float inputs of units 0 .. n-1. */
  function FloatUpTo(q: seq<int>, n: nat): int
    requires |q| == Count && n <= Count
  {
    if n == 0 then 0 else FloatUpTo(q, n - 1) + FloatLine(q, n - 1)
  }

  /** Sum of count times face value over every till input. */
  function TotalCash(till: seq<int>): int
    requires |till| == Count
  {
    CashUpTo(till, Count)
  }

  /** Sum of count times face value over every float input. */
  function FloatTotal(float: seq<int>): int
    requires |float| == Count
  {
    FloatUpTo(float, Count)
  }

  /** Takings: what is left once the float is set aside, never negative. */
  function Takings(totalCash: int, floatTotal: int): (t: int)
    ensures t >= 0 && t >= totalCash - floatTotal
    ensures t == 0 || t == totalCash - floatTotal
  {
    Max(0, totalCash - floatTotal)
  }

  /** Changing one float count moves the float total by that line's change. */
  lemma {:induction false} FloatUpToUpdate(q: seq<int>, i: nat, v: int, n: nat)
    requires |q| == Count && i < Count && n <= Count
    ensures FloatUpTo(q[i := v], n)
         == FloatUpTo(q, n) + (if i < n then FloatLine(q[i := v], i) - FloatLine(q, i) else 0)
  {
    if n > 0 {
      FloatUpToUpdate(q, i, v, n - 1);
    }
  }

  lemma FloatTotalUpdate(q: seq<int>, i: nat, v: int)
    requires |q| == Count && i < Count && InFloat(i)
    ensures FloatTotal(q[i := v]) == FloatTotal(q) + v * Units[i].face - q[i] * Units[i].face
  {
    FloatUpToUpdate(q, i, v, Count);
  }

  /** With no negative counts, each float line is part of the float total. */
  lemma {:induction false} FloatUpToCoversLine(q: seq<int>, i: nat, n: nat)
    requires |q| == Count && i < n <= Count
    requires forall j :: 0 <= j < Count ==> q[j] >= 0
    ensures FloatUpTo(q, n) >= FloatLine(q, i) >= 0
  {
    if n - 1 > i {
      FloatUpToCoversLine(q, i, n - 1);
      assert FloatLine(q, n - 1) >= 0;
    } else {
      FloatUpToNonNegative(q, n - 1);
    }
  }

  lemma {:induction false} FloatUpToNonNegative(q: seq<int>, n: nat)
    requires |q| == Count && n <= Count
    requires forall j :: 0 <= j < Count ==> q[j] >= 0
    ensures FloatUpTo(q, n) >= 0
  {
    if n > 0 {
      FloatUpToNonNegative(q, n - 1);
      assert FloatLine(q, n - 1) >= 0;
    }
  }

  /** Every input blank: no cash. */
  lemma {:induction false} ZerosHaveNoValue(n: nat)
    requires n <= Count
    ensures CashUpTo(Zeros(), n) == 0 && FloatUpTo(Zeros(), n) == 0
  {
    if n > 0 {
      ZerosHaveNoValue(n - 1);
    }
  }

  // ----- The remove / leave breakdown -----

  /** One line of the breakdown: a unit, how many pieces, and their value in pence. */
  datatype Line = Line(unit: nat, count: int, value: int)

  /** What the breakdown shows: nothing while the till holds no cash. */
  datatype RemovalPlan = Hidden | Shown(remove: seq<Line>, leave: seq<Line>)

  /** The float count of unit i; a unit without a float input leaves nothing. */
  function LeaveCount(float: seq<int>, i: nat): (n: int)
    requires |float| == Count && i < Count
    ensures n == 0 || n == float[i]
    ensures i == 0 ==> n == 0
  {
    if InFloat(i) then float[i] else 0
  }

  /** The pieces of unit i to take out of the till. */
  function RemoveCount(till: seq<int>, float: seq<int>, i: nat): (r: int)
    requires |till| == Count && |float| == Count && i < Count
    ensures r >= 0 && r >= till[i] - LeaveCount(float, i)
    ensures r == 0 || r == till[i] - LeaveCount(float, i)
    ensures 0 <= LeaveCount(float, i) <= till[i] ==> r + LeaveCount(float, i) == till[i]
  {
    Max(0, till[i] - LeaveCount(float, i))
  }

  /** The breakdown lines of units 0 .. n-1, in table order. */
  function LinesUpTo(till: seq<int>, float: seq<int>, n: nat): (seq<Line>, seq<Line>)
    requires |till| == Count && |float| == Count && n <= Count
  {
    if n == 0 then ([], [])
    else
      var (remove, leave) := LinesUpTo(till, float, n - 1);
      var i := n - 1;
      if till[i] == 0 then (remove, leave)
      else
        var r := RemoveCount(till, float, i);
        var f := LeaveCount(float, i);
        (if r > 0 then remove + [Line(i, r, r * Units[i].face)] else remove,
         if f > 0 then leave + [Line(i, f, f * Units[i].face)] else leave)
  }

  /** The panel: hidden exactly when the till holds no cash. */
  function BreakdownOf(till: seq<int>, float: seq<int>, totalCash: int): (b: RemovalPlan)
    requires |till| == Count && |float| == Count
    ensures b.Hidden? <==> totalCash <= 0
  {
    if totalCash <= 0 then Hidden
    else
      var (remove, leave) := LinesUpTo(till, float, Count);
      Shown(remove, leave)
  }

  /** Sum of the values of some breakdown lines. */
  function ValueOf(lines: seq<Line>): int
  {
    if |lines| == 0 then 0 else ValueOf(lines[..|lines| - 1]) + lines[|lines| - 1].value
  }

  lemma ValueOfAppend(lines: seq<Line>, x: Line)
    ensures ValueOf(lines + [x]) == ValueOf(lines) + x.value
  {
    assert (lines + [x])[..|lines|] == lines;
  }

  /** The units some lines speak of. */
  function UnitsOf(lines: seq<Line>): set<nat>
  {
    set k | 0 <= k < |lines| :: lines[k].unit
  }

  /** A well-formed list of lines for units below n: every line has a positive
      count, is valued at count times face value, and the units strictly increase. */
  ghost predicate Ordered(lines: seq<Line>, n: nat)
  {
    (forall k :: 0 <= k < |lines| ==>
       lines[k].unit < n <= Count && lines[k].count > 0
       && lines[k].value == lines[k].count * Units[lines[k].unit].face)
    && (forall k, l :: 0 <= k < l < |lines| ==> lines[k].unit < lines[l].unit)
  }

  lemma UnitsOfAppend(lines: seq<Line>, x: Line)
    ensures UnitsOf(lines + [x]) == UnitsOf(lines) + {x.unit}
  {
    var s := lines + [x];
    forall u | u in UnitsOf(s) ensures u in UnitsOf(lines) + {x.unit} {
      var k :| 0 <= k < |s| && s[k].unit == u;
      if k < |lines| { assert lines[k].unit == u; }
    }
    forall u | u in UnitsOf(lines) + {x.unit} ensures u in UnitsOf(s) {
      if u == x.unit {
        assert s[|lines|].unit == u;
      } else {
        var k :| 0 <= k < |lines| && lines[k].unit == u;
        assert s[k].unit == u;
      }
    }
  }

  lemma OrderedExtend(lines: seq<Line>, n: nat, x: Line)
    requires Ordered(lines, n) && n < Count
    requires x.unit == n && x.count > 0 && x.value == x.count * Units[n].face
    ensures Ordered(lines, n + 1) && Ordered(lines + [x], n + 1)
  {
  }

  /** Every breakdown line is well formed, in table order, and holds the
      remove count (resp. the float count) of its unit. */
  lemma {:induction false} LinesUpToWellFormed(till: seq<int>, float: seq<int>, n: nat)
    requires |till| == Count && |float| == Count && n <= Count
    ensures var (remove, leave) := LinesUpTo(till, float, n);
      Ordered(remove, n) && Ordered(leave, n)
      && (forall k :: 0 <= k < |remove| ==> remove[k].count == RemoveCount(till, float, remove[k].unit))
      && (forall k :: 0 <= k < |leave| ==> leave[k].count == LeaveCount(float, leave[k].unit))
  {
    if n > 0 {
      LinesUpToWellFormed(till, float, n - 1);
      var (remove, leave) := LinesUpTo(till, float, n - 1);
      var i := n - 1;
      var r := RemoveCount(till, float, i);
      var f := LeaveCount(float, i);
      var x := Line(i, r, r * Units[i].face);
      var y := Line(i, f, f * Units[i].face);
      if r > 0 { OrderedExtend(remove, i, x); } else { OrderedExtend(remove, i, Line(i, 1, Units[i].face)); }
      if f > 0 { OrderedExtend(leave, i, y); } else { OrderedExtend(leave, i, Line(i, 1, Units[i].face)); }
      var (remove', leave') := LinesUpTo(till, float, n);
      assert remove' == (if till[i] != 0 && r > 0 then remove + [x] else remove);
      assert leave' == (if till[i] != 0 && f > 0 then leave + [y] else leave);
    }
  }

  /** Whether the breakdown lists unit u to remove (resp. to leave). */
  predicate ListedToRemove(till: seq<int>, float: seq<int>, u: nat)
    requires |till| == Count && |float| == Count && u < Count
  {
    till[u] != 0 && RemoveCount(till, float, u) > 0
  }

  predicate ListedToLeave(till: seq<int>, float: seq<int>, u: nat)
    requires |till| == Count && |float| == Count && u < Count
  {
    till[u] != 0 && LeaveCount(float, u) > 0
  }

  /** One step of the breakdown adds unit n-1 to the units to remove exactly
      when it gets a line there; likewise for the units to leave. */
  lemma LinesUpToStepRemoved(till: seq<int>, float: seq<int>, n: nat)
    requires |till| == Count && |float| == Count && 0 < n <= Count
    ensures UnitsOf(LinesUpTo(till, float, n).0) == UnitsOf(LinesUpTo(till, float, n - 1).0)
              + (if ListedToRemove(till, float, n - 1) then {n - 1} else {})
  {
    var remove := LinesUpTo(till, float, n - 1).0;
    var r := RemoveCount(till, float, n - 1);
    if till[n - 1] != 0 && r > 0 {
      UnitsOfAppend(remove, Line(n - 1, r, r * Units[n - 1].face));
    }
  }

  lemma LinesUpToStepLeft(till: seq<int>, float: seq<int>, n: nat)
    requires |till| == Count && |float| == Count && 0 < n <= Count
    ensures UnitsOf(LinesUpTo(till, float, n).1) == UnitsOf(LinesUpTo(till, float, n - 1).1)
              + (if ListedToLeave(till, float, n - 1) then {n - 1} else {})
  {
    var leave := LinesUpTo(till, float, n - 1).1;
    var f := LeaveCount(float, n - 1);
    if till[n - 1] != 0 && f > 0 {
      UnitsOfAppend(leave, Line(n - 1, f, f * Units[n - 1].face));
    }
  }

  /** Which units the breakdown lists to remove: those with a nonzero till
      count of which some is not in the float. */
  lemma {:induction false} LinesUpToListsRemoved(till: seq<int>, float: seq<int>, n: nat)
    requires |till| == Count && |float| == Count && n <= Count
    ensures forall u: nat :: u in UnitsOf(LinesUpTo(till, float, n).0)
              <==> u < n && ListedToRemove(till, float, u)
  {
    if n > 0 {
      LinesUpToListsRemoved(till, float, n - 1);
      LinesUpToStepRemoved(till, float, n);
    }
  }

  /** Which units the breakdown lists to leave: those with a nonzero till
      count of which some is in the float. */
  lemma {:induction false} LinesUpToListsLeft(till: seq<int>, float: seq<int>, n: nat)
    requires |till| == Count && |float| == Count && n <= Count
    ensures forall u: nat :: u in UnitsOf(LinesUpTo(till, float, n).1)
              <==> u < n && ListedToLeave(till, float, u)
  {
    if n > 0 {
      LinesUpToListsLeft(till, float, n - 1);
      LinesUpToStepLeft(till, float, n);
    }
  }

  lemma MulSub(a: int, b: int, c: int)
    ensures (a - b) * c == a * c - b * c
  {
  }

  /** One step of the breakdown, when the float count of unit n-1 lies
      between 0 and its till count: the lines to leave gain that unit's float
      line, the lines to remove gain the rest of its cash. */
  lemma LinesUpToStepLeaveValue(till: seq<int>, float: seq<int>, n: nat)
    requires |till| == Count && |float| == Count && 0 < n <= Count
    requires 0 <= LeaveCount(float, n - 1) <= till[n - 1]
    ensures ValueOf(LinesUpTo(till, float, n).1)
         == ValueOf(LinesUpTo(till, float, n - 1).1) + FloatLine(float, n - 1)
  {
    var leave := LinesUpTo(till, float, n - 1).1;
    var f := LeaveCount(float, n - 1);
    assert FloatLine(float, n - 1) == f * Units[n - 1].face;
    if till[n - 1] != 0 && f > 0 {
      ValueOfAppend(leave, Line(n - 1, f, f * Units[n - 1].face));
    }
  }

  lemma LinesUpToStepRemoveValue(till: seq<int>, float: seq<int>, n: nat)
    requires |till| == Count && |float| == Count && 0 < n <= Count
    requires 0 <= LeaveCount(float, n - 1) <= till[n - 1]
    ensures ValueOf(LinesUpTo(till, float, n).0)
         == ValueOf(LinesUpTo(till, float, n - 1).0)
            + till[n - 1] * Units[n - 1].face - FloatLine(float, n - 1)
  {
    var remove := LinesUpTo(till, float, n - 1).0;
    var i := n - 1;
    var f := LeaveCount(float, i);
    var r := RemoveCount(till, float, i);
    var face := Units[i].face;
    assert FloatLine(float, i) == f * face;
    MulSub(till[i], f, face);
    if till[i] != 0 && r > 0 {
      assert r == till[i] - f;
      assert LinesUpTo(till, float, n).0 == remove + [Line(i, r, r * face)];
      ValueOfAppend(remove, Line(i, r, r * face));
    } else {
      assert f == till[i];
      assert LinesUpTo(till, float, n).0 == remove;
    }
  }

  /** Conservation: when every float count lies between 0 and its till count,
      the lines to leave add up to the float total, the lines to remove to the
      rest of the cash, so together they account for all of it. */
  lemma {:induction false} LinesUpToConserve(till: seq<int>, float: seq<int>, n: nat)
    requires |till| == Count && |float| == Count && n <= Count
    requires forall i :: 0 <= i < Count ==> 0 <= LeaveCount(float, i) <= till[i]
    ensures ValueOf(LinesUpTo(till, float, n).1) == FloatUpTo(float, n)
    ensures ValueOf(LinesUpTo(till, float, n).0) == CashUpTo(till, n) - FloatUpTo(float, n)
  {
    if n > 0 {
      LinesUpToConserve(till, float, n - 1);
      LinesUpToStepLeaveValue(till, float, n);
      LinesUpToStepRemoveValue(till, float, n);
      assert CashUpTo(till, n) == CashUpTo(till, n - 1) + till[n - 1] * Units[n - 1].face;
      assert FloatUpTo(float, n) == FloatUpTo(float, n - 1) + FloatLine(float, n - 1);
    }
  }

  /** The round trip of the breakdown: what it says to remove plus what it
      says to leave is the total cash; the part to leave is the float total,
      the part to remove is the takings. */
  lemma BreakdownConserves(till: seq<int>, float: seq<int>)
    requires |till| == Count && |float| == Count
    requires forall i :: 0 <= i < Count ==> 0 <= LeaveCount(float, i) <= till[i]
    requires TotalCash(till) > 0
    ensures BreakdownOf(till, float, TotalCash(till)).Shown?
    ensures var b := BreakdownOf(till, float, TotalCash(till));
      ValueOf(b.remove) + ValueOf(b.leave) == TotalCash(till)
      && ValueOf(b.leave) == FloatTotal(float)
      && ValueOf(b.remove) == Takings(TotalCash(till), FloatTotal(float))
  {
    LinesUpToConserve(till, float, Count);
    LeaveCashBelow(till, float, Count);
  }

  /** Under the same condition the float total does not exceed the cash. */
  lemma {:induction false} LeaveCashBelow(till: seq<int>, float: seq<int>, n: nat)
    requires |till| == Count && |float| == Count && n <= Count
    requires forall i :: 0 <= i < Count ==> 0 <= LeaveCount(float, i) <= till[i]
    ensures 0 <= FloatUpTo(float, n) <= CashUpTo(till, n)
  {
    if n > 0 {
      LeaveCashBelow(till, float, n - 1);
      var i := n - 1;
      var f := LeaveCount(float, i);
      assert FloatLine(float, i) == f * Units[i].face;
      assert 0 <= f * Units[i].face <= till[i] * Units[i].face by {
        MulMonotone(f, till[i], Units[i].face);
        MulMonotone(0, f, Units[i].face);
      }
    }
  }

  lemma MulMonotone(a: int, b: int, c: nat)
    requires a <= b
    ensures a * c <= b * c
  {
  }
}
