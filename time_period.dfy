/** The `TimePeriod` struct: an immutable wrapper around one signed 64-bit
    integer whose ordering, equality and hashing are those of the integer. */
module TimePeriods {
  import opened Primitives

  /** A boxed argument of static type `object`: either a boxed `TimePeriod`,
      or anything else (a value of another type, or null). */
  datatype Obj = IsTimePeriod(period: TimePeriod) | Other

  /** The exception `System.ArgumentException`, with the two constructor
      arguments (message, paramName). */
  datatype Exception = ArgumentException(message: string, paramName: string)

  /** The outcome of a call that either returns a value or throws. */
  datatype Result<T> = Returns(value: T) | Throws(exception: Exception)

  const CompareToParamName: string := "other"
  const CompareToMessage: string := "Cannot compare values of different types"

  /** `long.CompareTo`: the sign of the comparison, as -1, 0 or 1. */
  function LongCompareTo(x: Int64, y: Int64): (r: Int32)
    ensures r in {-1, 0, 1}
    ensures r < 0 <==> x < y
    ensures r == 0 <==> x == y
    ensures r > 0 <==> x > y
  {
    if x < y then -1 else if x == y then 0 else 1
  }

  datatype TimePeriod = TimePeriod(value: Int64)
  {
    /** `CompareTo(TimePeriod)`: plain numeric comparison of the wrapped values. */
    function CompareTo(other: TimePeriod): (r: Int32)
      ensures r in {-1, 0, 1}
      ensures r < 0 <==> value < other.value
      ensures r == 0 <==> this == other
      ensures r > 0 <==> value > other.value
    {
      LongCompareTo(value, other.value)
    }

    /** `CompareTo(object)` with the exception built as the source builds it:
        the two strings are passed to `ArgumentException(message, paramName)`
        in the opposite order, so the parameter name reads as the message. */
    function CompareToObjectAsWritten(other: Obj): (r: Result<Int32>)
      ensures other.IsTimePeriod? <==> r.Returns?
      ensures r.Throws? ==> r.exception.paramName != CompareToParamName
    {
      match other
      case IsTimePeriod(p) => Returns(LongCompareTo(value, p.value))
      case Other => Throws(ArgumentException(CompareToParamName, CompareToMessage))
    }

    /** `CompareTo(object)`: agrees with `CompareTo(TimePeriod)` on a boxed
        `TimePeriod` and throws an `ArgumentException` naming the parameter
        `other` on anything else. */
    function CompareToObject(other: Obj): (r: Result<Int32>)
      ensures other.IsTimePeriod? ==> r == Returns(CompareTo(other.period))
      ensures other.Other? ==> r == Throws(ArgumentException(CompareToMessage, CompareToParamName))
    {
      match other
      case IsTimePeriod(p) => Returns(LongCompareTo(value, p.value))
      case Other => Throws(ArgumentException(CompareToMessage, CompareToParamName))
    }

    /** `Equals(object)`: true exactly for a boxed `TimePeriod` identical to this
        one; never throws. */
    function Equals(obj: Obj): (r: bool)
      ensures r <==> obj == IsTimePeriod(this)
    {
      match obj
      case IsTimePeriod(p) => value == p.value
      case Other => false
    }

    /** `GetHashCode`: the hash of the wrapped `long`. `long.GetHashCode` is a
        library routine outside this model and is taken as the parameter
        `longHash`. */
    function GetHashCode(longHash: Int64 -> Int32): (r: Int32)
      ensures r == longHash(value)
    {
      longHash(value)
    }
  }

  /** `explicit operator long(TimePeriod)`. */
  function ToLong(p: TimePeriod): (r: Int64)
    ensures FromLong(r) == p
  {
    p.value
  }

  /** `explicit operator TimePeriod(long)`, through the internal constructor. */
  function FromLong(v: Int64): (r: TimePeriod)
    ensures r.value == v
  {
    TimePeriod(v)
  }

  /** Converting a `long` to a `TimePeriod` and back gives the same `long`. */
  lemma LongRoundTrip(v: Int64)
    ensures ToLong(FromLong(v)) == v
  {
  }

  /** Converting a `TimePeriod` to a `long` and back gives an equal `TimePeriod`. */
  lemma PeriodRoundTrip(p: TimePeriod)
    ensures FromLong(ToLong(p)) == p
    ensures p.Equals(IsTimePeriod(FromLong(ToLong(p))))
  {
  }

  /** The conversion from `long` preserves and reflects order. */
  lemma FromLongPreservesOrder(x: Int64, y: Int64)
    ensures FromLong(x).CompareTo(FromLong(y)) == LongCompareTo(x, y)
    ensures FromLong(x) == FromLong(y) <==> x == y
  {
  }

  /** `CompareTo` is reflexive and antisymmetric. */
  lemma CompareToAntisymmetric(a: TimePeriod, b: TimePeriod)
    ensures a.CompareTo(a) == 0
    ensures a.CompareTo(b) == -b.CompareTo(a)
  {
  }

  /** `CompareTo` is transitive, for both the weak and the strict order. */
  lemma CompareToTransitive(a: TimePeriod, b: TimePeriod, c: TimePeriod)
    ensures a.CompareTo(b) <= 0 && b.CompareTo(c) <= 0 ==> a.CompareTo(c) <= 0
    ensures a.CompareTo(b) < 0 && b.CompareTo(c) < 0 ==> a.CompareTo(c) < 0
  {
  }

  /** `CompareTo` is total: any two values are ordered one way or the other. */
  lemma CompareToTotal(a: TimePeriod, b: TimePeriod)
    ensures a.CompareTo(b) <= 0 || b.CompareTo(a) <= 0
  {
  }

  /** `Equals` agrees with `CompareTo`: equal exactly when the comparison is 0. */
  lemma EqualsAgreesWithCompareTo(a: TimePeriod, b: TimePeriod)
    ensures a.Equals(IsTimePeriod(b)) <==> a.CompareTo(b) == 0
  {
  }

  /** `Equals` is an equivalence on `TimePeriod` values. */
  lemma EqualsIsEquivalence(a: TimePeriod, b: TimePeriod, c: TimePeriod)
    ensures a.Equals(IsTimePeriod(a))
    ensures a.Equals(IsTimePeriod(b)) <==> b.Equals(IsTimePeriod(a))
    ensures a.Equals(IsTimePeriod(b)) && b.Equals(IsTimePeriod(c)) ==> a.Equals(IsTimePeriod(c))
  {
  }

  /** The two object overloads part ways on a foreign argument: `Equals` says
      false, `CompareTo` throws. */
  lemma ObjectOverloadsOnForeignValue(a: TimePeriod)
    ensures !a.Equals(Other)
    ensures a.CompareToObject(Other).Throws?
    ensures a.CompareToObject(Other).exception.paramName == CompareToParamName
  {
  }

  /** On a boxed `TimePeriod` the object overloads agree with the typed ones. */
  lemma ObjectOverloadsOnBoxedPeriod(a: TimePeriod, b: TimePeriod)
    ensures a.CompareToObject(IsTimePeriod(b)) == Returns(a.CompareTo(b))
    ensures a.CompareToObject(IsTimePeriod(b)) == a.CompareToObjectAsWritten(IsTimePeriod(b))
    ensures a.Equals(IsTimePeriod(b)) <==> a.value == b.value
  {
  }

  /** Values that are `Equals` have the same hash code, whatever `long.GetHashCode` is. */
  lemma HashConsistentWithEquals(a: TimePeriod, b: TimePeriod, longHash: Int64 -> Int32)
    requires a.Equals(IsTimePeriod(b))
    ensures a.GetHashCode(longHash) == b.GetHashCode(longHash)
  {
  }

  /** The exception as written names the wrong parameter: its `ParamName` is
      the sentence meant as the message, and its message is the parameter name. */
  lemma AsWrittenExceptionSwapsArguments(a: TimePeriod)
    ensures a.CompareToObjectAsWritten(Other)
         == Throws(ArgumentException(CompareToParamName, CompareToMessage))
    ensures a.CompareToObjectAsWritten(Other).exception.paramName == CompareToMessage
    ensures a.CompareToObjectAsWritten(Other) != a.CompareToObject(Other)
  {
  }
}
