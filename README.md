# Period: `TimePeriod` and `UnitPeriod` in Dafny

This project models the two types of the Period library (C#) that carry
logic:

- `UnitPeriod` (module `UnitPeriods`, `unit_period.dfy`): the closed enumeration
  of the granularities a period is measured in — Tick, Millisecond, Second,
  Minute, Hour, Day, Month, Eternity — with its fixed ordinals (Tick = -1, zero
  unused, then 1 to 7) and the length of one unit in 100-nanosecond ticks that
  the enumeration documents (fixed for Tick to Day, "Variable" for Month,
  "Infinity" for Eternity).
- `TimePeriod` (module `TimePeriods`, `time_period.dfy`): an immutable struct
  around one signed 64-bit integer. Its ordering is the numeric order of that
  integer, its equality is identity of the integer, its hash code is a function
  of the integer, and the explicit conversions to and from `long` are lossless.
  The `object` overloads are modelled with a sum type `Obj` (a boxed
  `TimePeriod`, or anything else, including null) and a `Result` type whose
  `Throws` case stands for the `ArgumentException` that `CompareTo(object)`
  throws.

`primitives.dfy` (module `Primitives`) states the widths of .NET `long` and `int`
as subset types of Dafny's unbounded `int`.

Both types are pure values, so the model is datatypes, functions and lemmas.
The nested `TimePeriodModule` is empty (src/Period.CS/TimePeriod.cs:59-61),
and the `Period` class used by tests/Period.Tests/PeriodTests.cs is not part of
this model. `CompareTo(object)` throws `ArgumentException`
(src/Period.CS/TimePeriod.cs:28), and the model's `Throws` case carries that
exception.

## Model

| member | source | states |
|---|---|---|
| `UnitPeriods.Ordinal` | src/Period.CS/UnitPeriod.cs:10-19 | every ordinal lies in -1..7 and is never 0; the ordinal is -1 exactly for Tick |
| `UnitPeriods.FromOrdinal` | src/Period.CS/UnitPeriod.cs:10-19 | a found unit has the requested ordinal; no unit is found only when no member has that ordinal |
| `UnitPeriods.OrdinalInjective` | src/Period.CS/UnitPeriod.cs:10-19 | two members with the same ordinal are the same member |
| `UnitPeriods.OrdinalRoundTrip` | src/Period.CS/UnitPeriod.cs:10-19 | looking a member up by its ordinal gives it back; the named ordinals are exactly {-1, 1, 2, 3, 4, 5, 6, 7}, so 0 is unused |
| `UnitPeriods.OrdinalsAscend` | src/Period.CS/UnitPeriod.cs:10-19 | ordinals strictly increase from Tick through Millisecond, Second, Minute, Hour, Day, Month to Eternity |
| `UnitPeriods.AllUnitsComplete` | src/Period.CS/UnitPeriod.cs:9-20 | the list of members in declaration order holds every member exactly once |
| `UnitPeriods.FixedUnits` | src/Period.CS/UnitPeriod.cs:10-19 | a member has a fixed tick count exactly when it is neither Month ("Variable") nor Eternity ("Infinity") |
| `UnitPeriods.Length` | src/Period.CS/UnitPeriod.cs:10-19 | the documented length of a unit is a fixed tick count, between 1 and the largest 64-bit value, exactly for Tick to Day; Month is "Variable" and Eternity "Infinity" |
| `UnitPeriods.TickFactor` | src/Period.CS/UnitPeriod.cs:10-16 | the documented tick count of a fixed unit is at least 1, fits in a signed 64-bit integer, and is 1 exactly for Tick |
| `UnitPeriods.Finer` | src/Period.CS/UnitPeriod.cs:10-16 | the next finer fixed unit is fixed, has a smaller ordinal, and no member lies strictly between the two |
| `UnitPeriods.StepRatio` | src/Period.CS/UnitPeriod.cs:10-16 | each fixed unit is a whole multiple (at least 2) of the next finer one: 10 000, 1 000, 60, 60 and 24 |
| `UnitPeriods.FactorBetween` | src/Period.CS/UnitPeriod.cs:10-16 | the number of finer units in one coarser unit is at least 1, and is 1 exactly when the units coincide |
| `UnitPeriods.TickFactorIsMultiple` | src/Period.CS/UnitPeriod.cs:10-16 | the tick count of a coarser fixed unit is the finer unit's tick count times the number of finer units it holds |
| `UnitPeriods.TickFactorIncreasing` | src/Period.CS/UnitPeriod.cs:10-16 | tick counts strictly increase with the ordinal, and each divides every coarser one |
| `TimePeriods.LongCompareTo` | src/Period.CS/TimePeriod.cs:21 | the `long` comparison yields -1, 0 or 1, negative iff less, zero iff equal, positive iff greater |
| `TimePeriods.TimePeriod.CompareTo` | src/Period.CS/TimePeriod.cs:19-22 | yields -1, 0 or 1; negative iff this value is smaller, zero iff the two periods are identical, positive iff larger |
| `TimePeriods.TimePeriod.CompareToObjectAsWritten` | src/Period.CS/TimePeriod.cs:24-30 | returns exactly for a boxed `TimePeriod`; the exception it throws otherwise does not carry the parameter name `other` |
| `TimePeriods.TimePeriod.CompareToObject` | src/Period.CS/TimePeriod.cs:24-30 | on a boxed `TimePeriod` returns what `CompareTo(TimePeriod)` returns; on anything else throws an `ArgumentException` whose message is "Cannot compare values of different types" and whose parameter name is `other` |
| `TimePeriods.TimePeriod.Equals` | src/Period.CS/TimePeriod.cs:32-38 | true exactly when the argument is this very period, boxed; false (never a throw) for anything else |
| `TimePeriods.TimePeriod.GetHashCode` | src/Period.CS/TimePeriod.cs:45-47 | the hash code is the `long` hash of the wrapped value |
| `TimePeriods.ToLong` | src/Period.CS/TimePeriod.cs:49-51 | the `long` a period converts to converts back to that same period |
| `TimePeriods.FromLong` | src/Period.CS/TimePeriod.cs:53-56 | the period a `long` converts to wraps exactly that `long` |
| `TimePeriods.LongRoundTrip` | src/Period.CS/TimePeriod.cs:49-56 | converting a `long` to `TimePeriod` and back gives the same `long` |
| `TimePeriods.PeriodRoundTrip` | src/Period.CS/TimePeriod.cs:49-56 | converting a `TimePeriod` to `long` and back gives an identical, `Equals`-equal period |
| `TimePeriods.FromLongPreservesOrder` | src/Period.CS/TimePeriod.cs:19-22 | the conversion from `long` is injective and compares its results as the `long`s compare |
| `TimePeriods.CompareToAntisymmetric` | src/Period.CS/TimePeriod.cs:19-22 | a period compares 0 to itself, and swapping the operands negates the result |
| `TimePeriods.CompareToTransitive` | src/Period.CS/TimePeriod.cs:19-22 | the order given by `CompareTo` is transitive, weak and strict |
| `TimePeriods.CompareToTotal` | src/Period.CS/TimePeriod.cs:19-22 | any two periods are ordered one way or the other |
| `TimePeriods.EqualsAgreesWithCompareTo` | src/Period.CS/TimePeriod.cs:32-38 | `Equals` holds exactly when `CompareTo` is 0 |
| `TimePeriods.EqualsIsEquivalence` | src/Period.CS/TimePeriod.cs:32-38 | `Equals` is reflexive, symmetric and transitive |
| `TimePeriods.ObjectOverloadsOnForeignValue` | src/Period.CS/TimePeriod.cs:24-38 | on a non-`TimePeriod` argument `Equals` returns false while `CompareTo(object)` throws |
| `TimePeriods.ObjectOverloadsOnBoxedPeriod` | src/Period.CS/TimePeriod.cs:24-38 | on a boxed `TimePeriod` both object overloads agree with the typed comparison and with identity of the wrapped values |
| `TimePeriods.HashConsistentWithEquals` | src/Period.CS/TimePeriod.cs:45-47 | periods that are `Equals` have equal hash codes, whatever `long.GetHashCode` computes |
| `TimePeriods.AsWrittenExceptionSwapsArguments` | src/Period.CS/TimePeriod.cs:28 | the thrown exception's parameter name is the sentence meant as its message, unlike the corrected overload |

## Left out

- `ToString` (src/Period.CS/TimePeriod.cs:40-43): decimal formatting of a `long` by the .NET library, marked as a to-do.
- `long.GetHashCode`: a library routine; `TimePeriods.TimePeriod.GetHashCode` takes it as a parameter, so only that the hash is a function of the wrapped value is modelled.
- The `Period` class the tests use (its construction, `Add`, `Diff`, `Next`, `Previous` and month stepping): not implemented in this code (`TimePeriodModule` at src/Period.CS/TimePeriod.cs:59-61 is empty), and the `Period` class is not part of this model.
- tests/Period.Tests/PeriodTests.cs: it exercises that `Period` class and reads the wall clock.
- The `[StructLayout]` attribute and `using` directives: interop and compiler concerns with no behaviour.
- The internal constructor (src/Period.CS/TimePeriod.cs:14-17) is the datatype constructor `TimePeriod`, reached through `FromLong`; it has no contract of its own.
- `UnitPeriods.FromOrdinal`: a C# cast of an unnamed integer (such as 0) to `UnitPeriod` yields an unnamed enum value; the model answers `None` for it instead, since the datatype has only the named members.

## Findings

| source | as written | input that shows it | evidently intended | confidence | as-written member | corrected member |
|---|---|---|---|---|---|---|
| src/Period.CS/TimePeriod.cs:28 | `new ArgumentException("other", "Cannot compare values of different types")`; the constructor's parameters are (message, paramName), so the message is "other" and the parameter name is the sentence | `CompareTo(object)` on any non-`TimePeriod`, such as a boxed `long` | message "Cannot compare values of different types", parameter name "other" | high; not executed | `TimePeriods.TimePeriod.CompareToObjectAsWritten`, `TimePeriods.AsWrittenExceptionSwapsArguments` | `TimePeriods.TimePeriod.CompareToObject` |
