/** The decimal text of an amount: ParseMoney and AmountString (cmd/internal/domain/money.go). */
module MoneyText {
  import opened Outcome
  import opened Monetary

  const SCALE := 2

  // ---- Decimal digits ----

  predicate IsDigit(c: char) {
    '0' <= c <= '9'
  }

  predicate AllDigits(s: string) {
    forall i | 0 <= i < |s| :: IsDigit(s[i])
  }

  function DigitOf(d: nat): char
    requires d < 10
  {
    '0' + d as char
  }

  /** strconv.FormatInt of a number that is not negative. */
  function Digits(n: nat): (s: string)
    ensures s != "" && AllDigits(s) && (|s| > 1 ==> s[0] != '0')
  {
    if n < 10 then [DigitOf(n)] else Digits(n / 10) + [DigitOf(n % 10)]
  }

  function Value(s: string): nat
    requires AllDigits(s)
  {
    if s == "" then 0 else Value(s[..|s| - 1]) * 10 + (s[|s| - 1] - '0') as nat
  }

  lemma {:induction false} ValueOfDigits(n: nat)
    ensures Value(Digits(n)) == n
  {
    if n >= 10 {
      ValueOfDigits(n / 10);
      assert Digits(n)[..|Digits(n)| - 1] == Digits(n / 10);
    }
  }

  /** Without redundant zeros a number has one spelling. */
  lemma {:induction false} DigitsOfValue(s: string)
    requires AllDigits(s) && s != "" && (|s| > 1 ==> s[0] != '0')
    ensures Digits(Value(s)) == s && (s[0] != '0' ==> Value(s) > 0)
  {
    if |s| > 1 {
      DigitsOfValue(s[..|s| - 1]);
      assert s == s[..|s| - 1] + [s[|s| - 1]];
    } else {
      assert s[..0] == "";
      assert Value(s) == (s[0] - '0') as nat;
    }
  }

  // ---- Padding ----

  function PadTo(s: string, length: nat): (r: string)
    ensures |r| == if |s| < length then length else |s|
    decreases length - |s|
  {
    if |s| < length then PadTo("0" + s, length) else s
  }

  lemma {:induction false} PadFront(s: string, length: nat)
    requires |s| <= length
    ensures PadTo(s, length + 1) == "0" + PadTo(s, length)
    decreases length - |s|
  {
    if |s| < length {
      PadFront("0" + s, length);
    }
  }

  lemma {:induction false} ZeroInFront(s: string)
    requires AllDigits(s)
    ensures AllDigits("0" + s) && Value("0" + s) == Value(s)
  {
    if s == "" {
      assert Value("0") == Value("") * 10 + 0;
    } else {
      var n := |s| - 1;
      ZeroInFront(s[..n]);
      assert ("0" + s)[..n + 1] == "0" + s[..n];
    }
  }

  lemma {:induction false} ValueOfPadded(s: string, length: nat)
    requires AllDigits(s)
    ensures AllDigits(PadTo(s, length)) && Value(PadTo(s, length)) == Value(s)
    decreases length - |s|
  {
    if |s| < length {
      ZeroInFront(s);
      ValueOfPadded("0" + s, length);
    }
  }

  /** Digits of a given length are recovered from their value by padding. */
  lemma {:induction false} PaddedValue(s: string)
    requires AllDigits(s) && s != ""
    ensures PadTo(Digits(Value(s)), |s|) == s
  {
    if |s| == 1 || s[0] != '0' {
      DigitsOfValue(s);
    } else {
      ZeroInFront(s[1..]);
      assert s == "0" + s[1..];
      PaddedValue(s[1..]);
      PadFront(Digits(Value(s)), |s| - 1);
    }
  }

  // ---- The two texts ----

  predicate CanonicalUnits(units: string) {
    units != "" && AllDigits(units) && (|units| == 1 || units[0] != '0')
  }

  /** Digits without redundant zeros, a dot, two digits. */
  predicate Canonical(amount: string) {
    && |amount| > SCALE + 1 && amount[|amount| - SCALE - 1] == '.'
    && CanonicalUnits(amount[..|amount| - SCALE - 1])
    && AllDigits(amount[|amount| - SCALE..])
  }

  function CentsOf(amount: string): nat
    requires Canonical(amount)
  {
    Value(amount[..|amount| - SCALE - 1] + amount[|amount| - SCALE..])
  }

  /** What ParseMoney accepts: exactly the canonical amounts within int64. */
  function Parsed(amount: string, currency: string): Result<Money> {
    if !IsCurrency(currency) then Err(InvalidCurrencyFormat)
    else if amount != "" && amount[0] == '-' then Err(NegativeAmount)
    else if !Canonical(amount) || CentsOf(amount) > MAX_INT64 then Err(InvalidAmount)
    else Ok(Money(CentsOf(amount), currency))
  }

  function Dotted(digits: string): string
    requires |digits| > SCALE
  {
    digits[..|digits| - SCALE] + "." + digits[|digits| - SCALE..]
  }

  function AmountText(cents: int64): string {
    if cents < 0 then "-" + Dotted(PadTo(Digits(0 - cents), SCALE + 1)) else Dotted(PadTo(Digits(cents), SCALE + 1))
  }

  // ---- The code ----

  method IsDigits(text: string) returns (r: bool)
    ensures r <==> text != "" && AllDigits(text)
  {
    if text == "" {
      return false;
    }
    for i := 0 to |text|
      invariant AllDigits(text[..i])
    {
      if !IsDigit(text[i]) {
        return false;
      }
    }
    assert text[..|text|] == text;
    r := true;
  }

  method IsCanonicalUnits(units: string) returns (r: bool)
    ensures r <==> CanonicalUnits(units)
  {
    var digits := IsDigits(units);
    if !digits {
      return false;
    }
    r := |units| == 1 || units[0] != '0';
  }

  method IsValidISO4217(currency: string) returns (r: bool)
    ensures r <==> IsCurrency(currency)
    ensures r <==> |currency| == 3 && forall i | 0 <= i < 3 :: 'A' <= currency[i] <= 'Z'
  {
    if |currency| != 3 {
      return false;
    }
    for i := 0 to |currency|
      invariant forall j | 0 <= j < i :: 'A' <= currency[j] <= 'Z'
    {
      if currency[i] < 'A' || currency[i] > 'Z' {
        return false;
      }
    }
    r := true;
  }

  /** strings.IndexByte(s, '.'). */
  function IndexOfDot(s: string): (i: int)
    ensures -1 <= i < |s| && (i >= 0 ==> s[i] == '.') && forall j | 0 <= j < (if i < 0 then |s| else i) :: s[j] != '.'
  {
    if s == "" then -1
    else if s[0] == '.' then 0
    else var i := IndexOfDot(s[1..]);
      assert forall j | 0 < j < |s| :: s[j] == s[1..][j - 1];
      if i < 0 then -1 else i + 1
  }

  method ParseMoney(amount: string, currency: string) returns (r: Result<Money>)
    ensures r == Parsed(amount, currency)
  {
    var valid := IsValidISO4217(currency);
    if !valid {
      return Err(InvalidCurrencyFormat);
    }
    if amount != "" && amount[0] == '-' {
      return Err(NegativeAmount);
    }
    var separator := IndexOfDot(amount);
    if separator < 1 || |amount| - separator - 1 != SCALE {
      return Err(InvalidAmount);
    }
    var units, fraction := amount[..separator], amount[separator + 1..];
    var canonical := IsCanonicalUnits(units);
    var digits := IsDigits(fraction);
    if !canonical || !digits {
      return Err(InvalidAmount);
    }
    if Value(units + fraction) > MAX_INT64 {
      return Err(InvalidAmount);
    }
    r := Ok(Money(Value(units + fraction), currency));
  }

  method AmountString(m: Money) returns (r: string)
    ensures r == AmountText(m.cents)
  {
    var sign, digits := "", Digits(if m.cents < 0 then 0 - m.cents else m.cents);
    if m.cents < 0 {
      sign := "-";
    }
    while |digits| <= SCALE
      invariant PadTo(digits, SCALE + 1) == PadTo(Digits(if m.cents < 0 then 0 - m.cents else m.cents), SCALE + 1)
      invariant digits != ""
      decreases SCALE - |digits|
    {
      digits := "0" + digits;
    }
    r := sign + digits[..|digits| - SCALE] + "." + digits[|digits| - SCALE..];
  }

  // ---- Round trips ----

  lemma DottedParts(digits: string)
    requires |digits| > SCALE
    ensures var s := Dotted(digits);
      && |s| == |digits| + 1 && s[|s| - SCALE - 1] == '.' && s[0] == digits[0]
      && s[..|s| - SCALE - 1] == digits[..|digits| - SCALE] && s[|s| - SCALE..] == digits[|digits| - SCALE..]
      && s[..|s| - SCALE - 1] + s[|s| - SCALE..] == digits
  {
  }

  lemma PaddedIsCanonical(n: nat)
    ensures var s := PadTo(Digits(n), SCALE + 1); AllDigits(s) && |s| > SCALE && CanonicalUnits(s[..|s| - SCALE])
  {
    var d := Digits(n);
    ValueOfPadded(d, SCALE + 1);
    if |d| == 1 {
      assert PadTo(d, 3) == PadTo("0" + d, 3) == PadTo("0" + ("0" + d), 3);
    }
  }

  /** Digits that are long enough are read back from their dotted form. */
  lemma DottedParses(digits: string, currency: Currency)
    requires IsCurrency(currency) && AllDigits(digits) && |digits| > SCALE && Value(digits) <= MAX_INT64
    requires CanonicalUnits(digits[..|digits| - SCALE])
    ensures Parsed(Dotted(digits), currency) == Ok(Money(Value(digits), currency))
  {
    hide Value, Dotted;
    DottedParts(digits);
  }

  /** Every amount that is not negative is read back from its text; a negative one is refused. */
  lemma ParseOfText(cents: int64, currency: Currency)
    requires IsCurrency(currency)
    ensures Parsed(AmountText(cents), currency) ==
      if cents >= 0 then Ok(Money(cents, currency)) else Err(NegativeAmount)
  {
    if cents >= 0 {
      hide Parsed, PadTo, Digits, Value, Dotted, CanonicalUnits;
      PaddedIsCanonical(cents);
      ValueOfPadded(Digits(cents), SCALE + 1);
      ValueOfDigits(cents);
      DottedParses(PadTo(Digits(cents), SCALE + 1), currency);
    }
  }

  /** Every text that is accepted is the text of its amount: each amount has one accepted spelling. */
  lemma TextOfParse(amount: string, currency: string)
    requires Parsed(amount, currency).Ok?
    ensures AmountText(Parsed(amount, currency).value.cents) == amount
  {
    var units, fraction := amount[..|amount| - SCALE - 1], amount[|amount| - SCALE..];
    var digits := units + fraction;
    var d := Digits(Value(digits));
    if |units| == 1 {
      PaddedValue(digits);
    } else {
      DigitsOfValue(digits);
    }
    assert PadTo(d, SCALE + 1) == digits;
    assert Dotted(digits) == units + "." + fraction;
    assert amount == units + "." + fraction;
  }

  lemma OneSpelling(amount: string, other: string, currency: string)
    requires Parsed(amount, currency).Ok? && Parsed(amount, currency) == Parsed(other, currency)
    ensures amount == other
  {
    TextOfParse(amount, currency);
    TextOfParse(other, currency);
  }

  // ---- The form ----

  /** The digits of a number are its decimal digits. */
  lemma DigitsAreDecimal(n: nat, d: nat)
    requires d < 10
    ensures Digits(d) == ["0123456789"[d]]
    ensures n > 0 ==> Digits(10 * n + d) == Digits(n) + ["0123456789"[d]]
  {
    assert (10 * n + d) / 10 == n && (10 * n + d) % 10 == d;
  }

  /** The two digits of a fraction. */
  function TwoDigits(f: nat): (s: string)
    requires f < 100
    ensures |s| == 2
  {
    ["0123456789"[f / 10], "0123456789"[f % 10]]
  }

  lemma DigitsOfSum(u: nat, f: nat)
    requires u > 0 && f < 100
    ensures Digits(100 * u + f) == Digits(u) + TwoDigits(f)
  {
    var tens := 10 * u + f / 10;
    assert 100 * u + f == 10 * tens + f % 10;
    DigitsAreDecimal(tens, f % 10);
    DigitsAreDecimal(u, f / 10);
    hide Digits;
    assert Digits(u) + ["0123456789"[f / 10]] + ["0123456789"[f % 10]] == Digits(u) + TwoDigits(f);
  }

  lemma DottedSum(units: string, fraction: string)
    requires units != "" && |fraction| == 2
    ensures Dotted(PadTo(units + fraction, SCALE + 1)) == units + "." + fraction
  {
    var d := units + fraction;
    assert PadTo(d, SCALE + 1) == d;
    assert d[..|d| - SCALE] == units && d[|d| - SCALE..] == fraction;
  }

  /** An amount of u units and f hundredths reads as u, a dot and the two digits of f; below zero with a minus sign. */
  lemma TextOfAmount(u: nat, f: nat)
    requires f < 100 && 100 * u + f <= MAX_INT64
    ensures AmountText(100 * u + f) == Digits(u) + "." + TwoDigits(f)
    ensures 100 * u + f > 0 ==> AmountText(0 - (100 * u + f)) == "-" + AmountText(100 * u + f)
  {
    hide Digits, PadTo, Dotted, TwoDigits;
    if u == 0 {
      SmallText(f);
      assert Digits(0) + "." == "0.";
    } else {
      DigitsOfSum(u, f);
      DottedSum(Digits(u), TwoDigits(f));
    }
  }

  lemma SmallDigits(f: nat)
    requires f < 100
    ensures Digits(f) == if f < 10 then [TwoDigits(f)[1]] else TwoDigits(f)
    ensures f < 10 ==> TwoDigits(f) == ['0', TwoDigits(f)[1]]
  {
    if f >= 10 {
      DigitsAreDecimal(f / 10, f % 10);
      DigitsAreDecimal(0, f / 10);
    }
  }

  lemma PaddedPair(s: string)
    requires |s| == 2
    ensures PadTo(s, SCALE + 1) == "0" + s
  {
    assert |"0" + s| == SCALE + 1;
  }

  lemma PaddedDigit(c: char)
    ensures PadTo([c], SCALE + 1) == "0" + ['0', c]
  {
    assert "0" + [c] == ['0', c];
    PaddedPair(['0', c]);
  }

  lemma PaddedSmall(f: nat)
    requires f < 100
    ensures PadTo(Digits(f), SCALE + 1) == "0" + TwoDigits(f)
  {
    hide Digits, PadTo, TwoDigits;
    SmallDigits(f);
    if f < 10 {
      PaddedDigit(TwoDigits(f)[1]);
    } else {
      PaddedPair(TwoDigits(f));
    }
  }

  lemma SmallText(f: nat)
    requires f < 100
    ensures Dotted(PadTo(Digits(f), SCALE + 1)) == "0." + TwoDigits(f)
    ensures Digits(0) == "0"
  {
    PaddedSmall(f);
    DottedSum("0", TwoDigits(f));
    assert PadTo("0" + TwoDigits(f), SCALE + 1) == "0" + TwoDigits(f);
    assert "0" + "." + TwoDigits(f) == "0." + TwoDigits(f);
    hide TwoDigits, PadTo, Dotted;
  }

  /** What is refused, and as what: an unknown currency first, then a negative amount, then every other text. */
  lemma RefusedAs(amount: string, currency: string)
    ensures Parsed(amount, currency).Ok? || Parsed(amount, currency) ==
      Err(if !(|currency| == 3 && forall i | 0 <= i < 3 :: 'A' <= currency[i] <= 'Z') then InvalidCurrencyFormat
          else if amount != "" && amount[0] == '-' then NegativeAmount
          else InvalidAmount)
  {
  }
}
