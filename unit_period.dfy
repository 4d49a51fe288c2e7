/** The `UnitPeriod` enumeration: the seven granularities a period can be
    measured in, with their fixed, non-contiguous ordinals and the length of
    one unit in 100-nanosecond ticks. */
module UnitPeriods {
  import opened Primitives

  datatype Option<T> = None | Some(value: T)

  datatype UnitPeriod = Tick | Millisecond | Second | Minute | Hour | Day | Month | Eternity

  /** What the enumeration documents about the length of one unit: a fixed
      number of ticks, "Variable" (Month) or "Infinity" (Eternity). */
  datatype UnitLength = FixedTicks(ticks: nat) | Variable | Infinity

  /** Every variant, from finest to coarsest, in declaration order. */
  const AllUnits: seq<UnitPeriod> := [Tick, Millisecond, Second, Minute, Hour, Day, Month, Eternity]

  /** The integer value of the enum member. Zero is deliberately left unused. */
  function Ordinal(u: UnitPeriod): (r: int)
    ensures -1 <= r <= 7 && r != 0
    ensures r == -1 <==> u == Tick
  {
    match u
    case Tick => -1
    case Millisecond => 1
    case Second => 2
    case Minute => 3
    case Hour => 4
    case Day => 5
    case Month => 6
    case Eternity => 7
  }

  /** The named member with ordinal `n`, if there is one. */
  function FromOrdinal(n: int): (r: Option<UnitPeriod>)
    ensures r.Some? ==> Ordinal(r.value) == n
    ensures r.None? ==> forall u :: Ordinal(u) != n
  {
    if n == -1 then Some(Tick)
    else if n == 1 then Some(Millisecond)
    else if n == 2 then Some(Second)
    else if n == 3 then Some(Minute)
    else if n == 4 then Some(Hour)
    else if n == 5 then Some(Day)
    else if n == 6 then Some(Month)
    else if n == 7 then Some(Eternity)
    else None
  }

  /** The length of one unit, as documented beside each member. */
  function Length(u: UnitPeriod): (r: UnitLength)
    ensures r.FixedTicks? <==> u != Month && u != Eternity
    ensures r.FixedTicks? ==> 1 <= r.ticks <= MaxInt64
    ensures u == Month ==> r == Variable
    ensures u == Eternity ==> r == Infinity
  {
    match u
    case Tick => FixedTicks(1)
    case Millisecond => FixedTicks(10_000)
    case Second => FixedTicks(10_000_000)
    case Minute => FixedTicks(600_000_000)
    case Hour => FixedTicks(36_000_000_000)
    case Day => FixedTicks(864_000_000_000)
    case Month => Variable
    case Eternity => Infinity
  }

  /** Units whose length is a fixed number of ticks. */
  predicate IsFixed(u: UnitPeriod)
  {
    Length(u).FixedTicks?
  }

  /** The number of ticks in one unit; defined only for the fixed units. */
  function TickFactor(u: UnitPeriod): (r: nat)
    requires IsFixed(u)
    ensures 1 <= r <= MaxInt64
    ensures r == 1 <==> u == Tick
  {
    Length(u).ticks
  }

  /** The next finer fixed unit below a fixed unit other than Tick. */
  function Finer(u: UnitPeriod): (r: UnitPeriod)
    requires IsFixed(u) && u != Tick
    ensures IsFixed(r) && Ordinal(r) < Ordinal(u)
    ensures forall v :: Ordinal(r) < Ordinal(v) ==> Ordinal(u) <= Ordinal(v)
  {
    match u
    case Millisecond => Tick
    case Second => Millisecond
    case Minute => Second
    case Hour => Minute
    case Day => Hour
  }

  /** How many units of `Finer(u)` one `u` holds, as the documented tick
      counts imply: 10 000, 1 000, 60, 60 and 24. */
  function StepRatio(u: UnitPeriod): (r: nat)
    requires IsFixed(u) && u != Tick
    ensures r >= 2
    ensures TickFactor(u) == TickFactor(Finer(u)) * r
  {
    match u
    case Millisecond => 10_000
    case Second => 1_000
    case Minute => 60
    case Hour => 60
    case Day => 24
  }

  /** How many units of `fine` one unit of the coarser (or equal) fixed unit
      `coarse` holds: the product of the step ratios between them. */
  function FactorBetween(fine: UnitPeriod, coarse: UnitPeriod): (r: nat)
    requires IsFixed(fine) && IsFixed(coarse) && Ordinal(fine) <= Ordinal(coarse)
    ensures r >= 1
    ensures r == 1 <==> fine == coarse
    decreases Ordinal(coarse)
  {
    if fine == coarse then 1
    else FactorBetween(fine, Finer(coarse)) * StepRatio(coarse)
  }

  /** Ordinals are pairwise distinct. */
  lemma OrdinalInjective(u: UnitPeriod, v: UnitPeriod)
    ensures Ordinal(u) == Ordinal(v) ==> u == v
  {
  }

  /** Looking a unit up by its ordinal gives it back, and the named ordinals
      are exactly -1 and 1 through 7. */
  lemma OrdinalRoundTrip(u: UnitPeriod, n: int)
    ensures FromOrdinal(Ordinal(u)) == Some(u)
    ensures FromOrdinal(n).Some? <==> n in {-1, 1, 2, 3, 4, 5, 6, 7}
  {
  }

  /** Ordinals strictly increase from the finest unit to the coarsest. */
  lemma OrdinalsAscend(i: int, j: int)
    requires 0 <= i < j < |AllUnits|
    ensures Ordinal(AllUnits[i]) < Ordinal(AllUnits[j])
  {
  }

  /** `AllUnits` lists every variant exactly once. */
  lemma AllUnitsComplete(u: UnitPeriod)
    ensures u in AllUnits
    ensures multiset(AllUnits)[u] == 1
  {
  }

  /** Month and Eternity have no fixed tick factor; every other unit has. */
  lemma FixedUnits(u: UnitPeriod)
    ensures IsFixed(u) <==> u != Month && u != Eternity
    ensures Length(Month) == Variable && Length(Eternity) == Infinity
  {
  }

  /** A coarser fixed unit is a whole number of every finer fixed unit. */
  lemma {:induction false} TickFactorIsMultiple(fine: UnitPeriod, coarse: UnitPeriod)
    requires IsFixed(fine) && IsFixed(coarse) && Ordinal(fine) <= Ordinal(coarse)
    ensures TickFactor(coarse) == TickFactor(fine) * FactorBetween(fine, coarse)
    decreases Ordinal(coarse)
  {
    if fine != coarse {
      TickFactorIsMultiple(fine, Finer(coarse));
    }
  }

  /** Tick factors strictly increase with the ordinal, and each divides every
      coarser one. */
  lemma TickFactorIncreasing(fine: UnitPeriod, coarse: UnitPeriod)
    requires IsFixed(fine) && IsFixed(coarse) && Ordinal(fine) < Ordinal(coarse)
    ensures TickFactor(fine) < TickFactor(coarse)
    ensures TickFactor(coarse) % TickFactor(fine) == 0
  {
    TickFactorIsMultiple(fine, coarse);
  }
}
