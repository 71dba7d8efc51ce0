/** Amounts of money as int64 cents with a currency, as in cmd/internal/domain/money.go. */
module Monetary {
  import opened Outcome

  const MIN_INT64 := -0x8000_0000_0000_0000
  const MAX_INT64 := 0x7fff_ffff_ffff_ffff

  type int64 = x: int | MIN_INT64 <= x <= MAX_INT64

  /** What a Go int64 operation leaves of its unbounded result: the representative modulo 2^64. */
  function Wrap64(x: int): (r: int64)
    ensures MIN_INT64 <= x <= MAX_INT64 ==> r == x
    ensures MAX_INT64 < x <= 2 * MAX_INT64 + 1 ==> r == x - 0x1_0000_0000_0000_0000
    ensures 2 * MIN_INT64 <= x < MIN_INT64 ==> r == x + 0x1_0000_0000_0000_0000
  {
    (x - MIN_INT64) % 0x1_0000_0000_0000_0000 + MIN_INT64
  }

  predicate IsCurrency(currency: string) {
    |currency| == 3 && forall i | 0 <= i < 3 :: 'A' <= currency[i] <= 'Z'
  }

  /** The field is unexported and every constructor checks it; empty is the uninitialised value. */
  type Currency = s: string | s == "" || IsCurrency(s)

  datatype Money = Money(cents: int64, currency: Currency) {

    predicate Initialized() {
      currency != ""
    }

    predicate IsZero() {
      cents == 0
    }

    function Comparable(other: Money): Result<()> {
      if !Initialized() || !other.Initialized() then Err(UninitializedMoney)
      else if currency != other.currency then Err(CurrencyMismatch)
      else Ok(())
    }

    /** The overflow test looks at the wrapped sum only. */
    function Add(other: Money): (r: Result<Money>)
      ensures r.Ok? <==> Comparable(other).Ok? && MIN_INT64 <= cents + other.cents <= MAX_INT64
      ensures r.Ok? ==> r.value.cents == cents + other.cents && r.value.currency == currency
      ensures Comparable(other).Ok? && r.Err? ==> r.error == ArithmeticOverflow
    {
      if Comparable(other).Err? then Err(Comparable(other).error) else
      var sum := Wrap64(cents + other.cents);
      if (other.cents > 0 && sum < cents) || (other.cents < 0 && sum > cents) then Err(ArithmeticOverflow)
      else Ok(Money(sum, currency))
    }

    function Subtract(other: Money): (r: Result<Money>)
      ensures r.Ok? <==> Comparable(other).Ok? && MIN_INT64 <= cents - other.cents <= MAX_INT64
      ensures r.Ok? ==> r.value.cents == cents - other.cents && r.value.currency == currency
      ensures Comparable(other).Ok? && r.Err? ==> r.error == ArithmeticOverflow
    {
      if Comparable(other).Err? then Err(Comparable(other).error) else
      var diff := Wrap64(cents - other.cents);
      if (other.cents < 0 && diff < cents) || (other.cents > 0 && diff > cents) then Err(ArithmeticOverflow)
      else Ok(Money(diff, currency))
    }

    function Negate(): (r: Result<Money>)
      ensures r.Ok? <==> Initialized() && 0 - cents <= MAX_INT64
      ensures r.Ok? ==> r.value.cents == 0 - cents && r.value.currency == currency
      ensures Initialized() && r.Err? ==> r.error == ArithmeticOverflow
    {
      if !Initialized() then Err(UninitializedMoney)
      else if cents == MIN_INT64 then Err(ArithmeticOverflow)
      else Ok(Money(Wrap64(0 - cents), currency))
    }

    function Compare(other: Money): (r: Result<int>)
      ensures r.Ok? <==> Comparable(other).Ok?
      ensures r.Ok? ==> (r.value < 0 <==> cents < other.cents) && (r.value > 0 <==> cents > other.cents)
    {
      if Comparable(other).Err? then Err(Comparable(other).error)
      else if cents < other.cents then Ok(-1)
      else if cents > other.cents then Ok(1)
      else Ok(0)
    }

    function Equals(other: Money): (r: Result<bool>)
      ensures r == Ok(true) <==> this == other && Initialized()
    {
      match Compare(other)
      case Err(e) => Err(e)
      case Ok(c) => Ok(c == 0)
    }
  }
}
