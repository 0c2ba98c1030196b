/**
 * The denomination catalogue of the till and the form fields it is read from.
 *
 * Twelve units of sterling, listed in descending face value: the order in
 * which every loop of the till counter visits them. Money is counted in whole
 * pence throughout, so the float target of £200.00 is 20000 and the 1p coin
 * has face value 1.
 */
module Denominations {

  datatype Option<T> = None | Some(value: T)

  type pos = n: int | n > 0 witness 1

  /** How a unit takes part in the suggested float: the preferred number of
      pieces, and the size of the bag the coin comes in (1: not bagged). */
  datatype Plan = Plan(target: nat, maxBag: pos)

  /** A unit of currency. A unit without a plan has no float input at all:
      it is never part of the float. */
  datatype Unit = Unit(name: string, face: pos, plan: Option<Plan>)

  /** Number of units in the table. */
  const Count := 12

  /** The float must be exactly £200.00. */
  const Target := 20000

  /** Highest number of top-up passes the allocator makes. */
  const MaxPasses := 10

  /** Index of the 1p coin, the smallest unit. */
  const Penny := 11

  const Units: seq<Unit> := [
    Unit("£50 Notes", 5000, None),
    Unit("£20 Notes", 2000, Some(Plan(4, 1))),
    Unit("£10 Notes", 1000, Some(Plan(4, 1))),
    Unit("£5 Notes", 500, Some(Plan(6, 1))),
    Unit("£2 Coins", 200, Some(Plan(8, 1))),
    Unit("£1 Coins", 100, Some(Plan(20, 20))),
    Unit("50p Coins", 50, Some(Plan(20, 20))),
    Unit("20p Coins", 20, Some(Plan(25, 25))),
    Unit("10p Coins", 10, Some(Plan(30, 50))),
    Unit("5p Coins", 5, Some(Plan(20, 100))),
    Unit("2p Coins", 2, Some(Plan(25, 50))),
    Unit("1p Coins", 1, Some(Plan(50, 100)))
  ]

  /** The units are listed in strictly descending face value, from the £50
      note to the 1p coin, and every face is whole pence. */
  lemma UnitsDescending()
    ensures |Units| == Count
    ensures forall i, j :: 0 <= i < j < Count ==> Units[i].face > Units[j].face
    ensures Units[0].face == 5000 && Units[Penny].face == 1
  {
  }

  /** Every unit but the £50 note has a float plan; the notes and the £2 coin
      are unbagged, the £1 coin and smaller come in bags. */
  lemma FloatPlans()
    ensures forall i :: 0 <= i < Count ==> (Units[i].plan.None? <==> i == 0)
    ensures forall i :: 1 <= i <= 4 ==> Units[i].plan.value.maxBag == 1
    ensures forall i :: 5 <= i < Count ==> Units[i].plan.value.maxBag > 1
    ensures Units[5].plan == Some(Plan(20, 20)) && Units[Penny].plan == Some(Plan(50, 100))
  {
  }

  /** True of the units that have a float input. */
  predicate InFloat(i: nat)
    requires i < Count
  {
    Units[i].plan.Some?
  }

  /** The text of a count input, as `parseInt(value) || 0` reads it: an empty
      input and one that does not start with a number both count as 0. */
  datatype Field = Blank | Unreadable | Num(n: int)

  function Quantity(f: Field): (n: int)
    ensures f.Num? ==> n == f.n
    ensures n != 0 ==> f == Num(n)
  {
    match f
    case Num(n) => n
    case _ => 0
  }

  /** The counts a row of inputs holds, one per input. */
  function Quantities(fs: seq<Field>): (q: seq<int>)
    ensures |q| == |fs|
  {
    seq(|fs|, i requires 0 <= i < |fs| => Quantity(fs[i]))
  }

  /** A nonzero count in a row comes only from an input holding that number. */
  lemma QuantitiesReadNumbers(fs: seq<Field>)
    ensures forall i :: 0 <= i < |fs| && Quantities(fs)[i] != 0 ==> fs[i] == Num(Quantities(fs)[i])
  {
  }

  lemma QuantitiesUpdate(fs: seq<Field>, i: nat, f: Field)
    requires i < |fs|
    ensures Quantities(fs[i := f]) == Quantities(fs)[i := Quantity(f)]
  {
  }

  /** A count table: one count per unit. */
  function Zeros(): (z: seq<int>)
    ensures |z| == Count && forall i :: 0 <= i < Count ==> z[i] == 0
  {
    seq(Count, _ => 0)
  }

  function Min(a: int, b: int): int
  {
    if a <= b then a else b
  }

  function Max(a: int, b: int): int
  {
    if a >= b then a else b
  }
}
