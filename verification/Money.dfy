/**
  Amount text: the strict paisa parser of the API, the taka parser of the text assistant, and the decimal
  rendering they share. Text is ASCII.
*/
module Money {
  import opened Model

  const MAX_PAISA_AMOUNT: int := 10_000_000_000
  const I64_MIN: int := -0x8000_0000_0000_0000

  datatype MoneyError = InvalidFormat | TooManyDecimalPlaces | NonPositive | Overflow | ExceedsMaxCap

  datatype Parsed = Ok(paisa: int) | Err(error: MoneyError)

  // ---------- text ----------

  predicate IsDigit(c: char) { '0' <= c <= '9' }

  predicate IsSpace(c: char) { c == ' ' || ('\t' <= c <= '\r') }

  predicate AllDigits(s: string) { forall i | 0 <= i < |s| :: IsDigit(s[i]) }

  function TrimStart(s: string): string {
    if s != [] && IsSpace(s[0]) then TrimStart(s[1..]) else s
  }

  function TrimEnd(s: string): string {
    if s != [] && IsSpace(s[|s| - 1]) then TrimEnd(s[..|s| - 1]) else s
  }

  function Trim(s: string): string { TrimEnd(TrimStart(s)) }

  /** The text before and after the first point, if there is one. */
  function SplitPoint(s: string): Option<(string, string)> {
    if s == [] then None
    else if s[0] == '.' then Some(("", s[1..]))
    else
      match SplitPoint(s[1..])
      case None => None
      case Some((a, b)) => Some(([s[0]] + a, b))
  }

  function DigitValue(c: char): int { c as int - '0' as int }

  /** The number a string of digits denotes. */
  function Value(s: string): int {
    if s == [] then 0 else 10 * Value(s[..|s| - 1]) + DigitValue(s[|s| - 1])
  }

  function Pow10(n: nat): int {
    if n == 0 then 1 else 10 * Pow10(n - 1)
  }

  predicate InI64(n: int) { I64_MIN <= n <= I64_MAX }

  /** `str::parse::<i64>`: an optional sign, at least one digit, no overflow. */
  function ParseI64(s: string): Option<int> {
    var negative := s != [] && s[0] == '-';
    var digits := if s != [] && (s[0] == '-' || s[0] == '+') then s[1..] else s;
    if digits == [] || !AllDigits(digits) then None
    else
      var n := if negative then -Value(digits) else Value(digits);
      if InI64(n) then Some(n) else None
  }

  /** Decimal digits of a natural number, no leading zeros. */
  function Digits(n: nat): string {
    if n < 10 then [('0' as int + n) as char] else Digits(n / 10) + [('0' as int + n % 10) as char]
  }

  /** `Display for Paisa`. */
  function Display(n: int): string {
    if n < 0 then "-" + Digits(-n) else Digits(n)
  }

  // ---------- the two parsers ----------

  /** `^\d{1,14}(\.\d{1,2})?$`. */
  predicate MatchesMoney(s: string) {
    match SplitPoint(s)
    case None => AllDigits(s) && 1 <= |s| <= 14
    case Some((a, b)) => AllDigits(a) && 1 <= |a| <= 14 && AllDigits(b) && 1 <= |b| <= 2
  }

  /** `checked_mul(100)` then `checked_add`. */
  function TakaAndPoisha(taka: int, poisha: int): Option<int> {
    if InI64(taka * 100) && InI64(taka * 100 + poisha) then Some(taka * 100 + poisha) else None
  }

  function Capped(n: int): Parsed {
    if n > MAX_PAISA_AMOUNT then Err(ExceedsMaxCap) else Ok(n)
  }

  function ParsePaisa(s: string): Parsed {
    var trimmed := Trim(s);
    if !MatchesMoney(trimmed) then Err(InvalidFormat)
    else
      match SplitPoint(trimmed)
      case None =>
        (match ParseI64(trimmed) case None => Err(Overflow) case Some(n) => Capped(n))
      case Some((takaPart, poishaPart)) =>
        match ParseI64(takaPart)
        case None => Err(Overflow)
        case Some(taka) =>
          if |poishaPart| != 1 && |poishaPart| != 2 then Err(TooManyDecimalPlaces)
          else
            match ParseI64(if |poishaPart| == 1 then poishaPart + "0" else poishaPart)
            case None => Err(InvalidFormat)
            case Some(poisha) =>
              match TakaAndPoisha(taka, poisha)
              case None => Err(Overflow)
              case Some(n) => Capped(n)
  }

  function ParsePositive(s: string): Parsed {
    match ParsePaisa(s)
    case Err(e) => Err(e)
    case Ok(n) => if n <= 0 then Err(NonPositive) else Ok(n)
  }

  /** `parse_natural_taka_to_paisa`. */
  function ParseTaka(s: string): Option<int> {
    var trimmed := Trim(s);
    match SplitPoint(trimmed)
    case Some((takaPart, poishaPart)) =>
      (match ParseI64(takaPart)
       case None => None
       case Some(taka) =>
         if |poishaPart| != 1 && |poishaPart| != 2 then None
         else
           match ParseI64(if |poishaPart| == 1 then poishaPart + "0" else poishaPart)
           case None => None
           case Some(poisha) => TakaAndPoisha(taka, poisha))
    case None =>
      match ParseI64(trimmed)
      case None => None
      case Some(taka) => if InI64(taka * 100) then Some(taka * 100) else None
  }

  // ---------- digits ----------

  lemma {:induction false} ValueBound(s: string)
    requires AllDigits(s)
    ensures 0 <= Value(s) < Pow10(|s|)
  {
    if s != [] {
      ValueBound(s[..|s| - 1]);
    }
  }

  lemma {:induction false} Pow10Grows(m: nat, n: nat)
    requires m <= n
    ensures 0 < Pow10(m) <= Pow10(n)
  {
    if m < n {
      Pow10Grows(m, n - 1);
    } else if m > 0 {
      Pow10Grows(m - 1, m - 1);
    }
  }

  lemma FourteenDigits(s: string)
    requires AllDigits(s) && |s| <= 14
    ensures 0 <= Value(s) < 100_000_000_000_000
  {
    ValueBound(s);
    Pow10Grows(|s|, 14);
    assert Pow10(14) == 100_000_000_000_000 by {
      assert Pow10(7) == 10_000_000;
      assert Pow10(14) == 10_000_000 * Pow10(7);
    }
  }

  lemma TwoDigits(s: string)
    requires AllDigits(s) && 1 <= |s| <= 2
    ensures ParseI64(s) == Some(Value(s)) && 0 <= Value(s) < 100
  {
    FourteenDigits(s);
    ValueBound(s);
    Pow10Grows(|s|, 2);
    PlainDigits(s);
  }

  lemma PlainDigits(s: string)
    requires AllDigits(s) && s != [] && InI64(Value(s))
    ensures ParseI64(s) == Some(Value(s))
  {
    assert IsDigit(s[0]);
  }

  lemma {:induction false} DigitsOf(n: nat)
    ensures AllDigits(Digits(n)) && Value(Digits(n)) == n && |Digits(n)| >= 1
    ensures n >= 10 ==> |Digits(n)| == |Digits(n / 10)| + 1
  {
    if n < 10 {
      assert Digits(n)[..0] == "";
    } else {
      DigitsOf(n / 10);
      var last := ('0' as int + n % 10) as char;
      assert Digits(n)[..|Digits(n)| - 1] == Digits(n / 10);
      assert DigitValue(last) == n % 10;
    }
  }

  lemma {:induction false} DigitsLength(n: nat, k: nat)
    requires n < Pow10(k) && k >= 1
    ensures |Digits(n)| <= k
  {
    if n >= 10 {
      assert k >= 2;
      DigitsLength(n / 10, k - 1);
    }
  }

  lemma {:induction false} NoPoint(s: string)
    requires AllDigits(s)
    ensures SplitPoint(s) == None
  {
    if s != [] {
      assert IsDigit(s[0]);
      NoPoint(s[1..]);
    }
  }

  lemma TrimDigits(s: string)
    requires AllDigits(s)
    ensures Trim(s) == s
  {
    if s != [] {
      assert IsDigit(s[0]) && IsDigit(s[|s| - 1]);
    }
  }

  // ---------- what the parsers promise ----------

  /** What money text means, in paisa: digits alone are paisa, digits with a point are taka. */
  function Meaning(s: string): int {
    match SplitPoint(s)
    case None => Value(s)
    case Some((a, b)) => 100 * Value(a) + (if |b| == 1 then 10 * Value(b) else Value(b))
  }

  lemma PoishaValue(b: string)
    requires AllDigits(b) && 1 <= |b| <= 2
    ensures ParseI64(if |b| == 1 then b + "0" else b) == Some(if |b| == 1 then 10 * Value(b) else Value(b))
    ensures 0 <= (if |b| == 1 then 10 * Value(b) else Value(b)) < 100
  {
    if |b| == 1 {
      assert (b + "0")[..1] == b;
      assert AllDigits(b + "0");
      TwoDigits(b + "0");
      assert Value(b + "0") == 10 * Value(b);
    } else {
      TwoDigits(b);
    }
  }

  /** The strict parser accepts exactly the well-formed text within the cap and returns its meaning; overflow
      and too many decimal places are unreachable behind the pattern. */
  lemma ParsePaisaExact(s: string)
    ensures ParsePaisa(s) ==
            if !MatchesMoney(Trim(s)) then Err(InvalidFormat)
            else if Meaning(Trim(s)) > MAX_PAISA_AMOUNT then Err(ExceedsMaxCap)
            else Ok(Meaning(Trim(s)))
    ensures ParsePaisa(s).Ok? ==> 0 <= ParsePaisa(s).paisa <= MAX_PAISA_AMOUNT
  {
    var trimmed := Trim(s);
    if MatchesMoney(trimmed) {
      match SplitPoint(trimmed)
      case None =>
        FourteenDigits(trimmed);
        PlainDigits(trimmed);
      case Some((a, b)) =>
        FourteenDigits(a);
        PlainDigits(a);
        PoishaValue(b);
    }
  }

  /** Rendering an amount and parsing it back gives the amount, exactly for the amounts within the cap. */
  lemma DisplayRoundTrip(n: int)
    ensures ParsePaisa(Display(n)) == Ok(n) <==> 0 <= n <= MAX_PAISA_AMOUNT
    ensures n >= 0 ==> AllDigits(Display(n)) && Value(Display(n)) == n
  {
    ParsePaisaExact(Display(n));
    if n >= 0 { DigitsOf(n); }
    if 0 <= n <= MAX_PAISA_AMOUNT {
      assert Pow10(11) == 100_000_000_000 by {
        assert Pow10(5) == 100_000;
        assert Pow10(11) == 1_000_000 * Pow10(5);
      }
      DigitsLength(n, 11);
      NoPoint(Digits(n));
      TrimDigits(Digits(n));
    }
  }

  /** On text the strict parser accepts, the assistant's parser agrees when there is a point and reads a
      hundred times as much when there is none. */
  lemma ParsersCompared(s: string)
    requires ParsePaisa(s).Ok?
    ensures ParseTaka(s) == Some(if SplitPoint(Trim(s)).Some? then ParsePaisa(s).paisa else 100 * ParsePaisa(s).paisa)
  {
    ParsePaisaExact(s);
    var trimmed := Trim(s);
    match SplitPoint(trimmed)
    case None =>
      FourteenDigits(trimmed);
      PlainDigits(trimmed);
    case Some((a, b)) =>
      FourteenDigits(a);
      PlainDigits(a);
      PoishaValue(b);
  }

  // ---------- the amount a service takes from text ----------

  /** What text the services accept, and as what amount: well-formed, above zero and at most ten billion paisa,
      and then what it means. */
  lemma ParsePositiveExact(s: string)
    ensures ParsePositive(s) ==
            if !MatchesMoney(Trim(s)) then Err(InvalidFormat)
            else if Meaning(Trim(s)) > 10_000_000_000 then Err(ExceedsMaxCap)
            else if Meaning(Trim(s)) == 0 then Err(NonPositive)
            else Ok(Meaning(Trim(s)))
    ensures ParsePositive(s).Ok? ==> 1 <= ParsePositive(s).paisa <= 10_000_000_000
  {
    ParsePaisaExact(s);
  }

  lemma {:induction false} NoPointSigned(s: string)
    requires AllDigits(s)
    ensures SplitPoint("-" + s) == None && !AllDigits("-" + s)
  {
    NoPoint(s);
    assert ("-" + s)[0] == '-' && ("-" + s)[1..] == s;
  }

  lemma NegativeRefused(n: int)
    requires n < 0
    ensures ParsePositive(Display(n)) == Err(InvalidFormat)
  {
    DigitsOf(-n);
    var s := Display(n);
    NoPointSigned(Digits(-n));
    assert s[0] == '-' && s[|s| - 1] == Digits(-n)[|Digits(-n)| - 1] && IsDigit(s[|s| - 1]);
    assert Trim(s) == s;
    ParsePositiveExact(s);
  }

  /** A rendered amount is taken as itself from one paisa to the cap, and refused otherwise. */
  lemma PositiveRoundTrip(n: int)
    ensures ParsePositive(Display(n)) == Ok(n) <==> 1 <= n <= 10_000_000_000
    ensures ParsePositive(Display(n)).Ok? <==> 1 <= n <= 10_000_000_000
  {
    DisplayRoundTrip(n);
    ParsePositiveExact(Display(n));
    if n < 0 {
      NegativeRefused(n);
    } else {
      DigitsOf(n);
      NoPoint(Digits(n));
      TrimDigits(Digits(n));
    }
  }

  /** An amount in taka with two decimals. */
  function TakaText(taka: nat, poisha: nat): string
    requires poisha < 100
  {
    Digits(taka) + "." + [('0' as int + poisha / 10) as char, ('0' as int + poisha % 10) as char]
  }

  lemma {:induction false} SplitAtPoint(a: string, b: string)
    requires AllDigits(a)
    ensures SplitPoint(a + "." + b) == Some((a, b))
  {
    var s := a + "." + b;
    if a == "" {
      assert s[0] == '.' && s[1..] == b;
    } else {
      assert s[0] == a[0] && IsDigit(a[0]);
      SplitAtPoint(a[1..], b);
      assert s[1..] == a[1..] + "." + b && [s[0]] + a[1..] == a;
    }
  }

  lemma TrimDecimal(a: string, b: string)
    requires AllDigits(a) && AllDigits(b) && a != "" && b != ""
    ensures Trim(a + "." + b) == a + "." + b
  {
    var s := a + "." + b;
    assert s[0] == a[0] && IsDigit(a[0]);
    assert s[|s| - 1] == b[|b| - 1] && IsDigit(b[|b| - 1]);
  }

  lemma TwoDecimals(poisha: nat)
    requires poisha < 100
    ensures var b := [('0' as int + poisha / 10) as char, ('0' as int + poisha % 10) as char];
            AllDigits(b) && Value(b) == poisha
  {
    var b := [('0' as int + poisha / 10) as char, ('0' as int + poisha % 10) as char];
    assert b[..1] == [b[0]] && b[..1][..0] == "";
    assert Value(b[..1]) == 10 * Value(b[..1][..0]) + DigitValue(b[0]) == poisha / 10;
  }

  /** An amount written in taka and poisha is taken as that many paisa, exactly when it is positive and within
      the cap. */
  lemma TakaRoundTrip(taka: nat, poisha: nat)
    requires poisha < 100
    ensures ParsePositive(TakaText(taka, poisha)) == Ok(100 * taka + poisha)
            <==> 1 <= 100 * taka + poisha <= 10_000_000_000
  {
    var b := [('0' as int + poisha / 10) as char, ('0' as int + poisha % 10) as char];
    ParsePositiveExact(TakaText(taka, poisha));
    if 1 <= 100 * taka + poisha <= 10_000_000_000 {
      DigitsOf(taka);
      TwoDecimals(poisha);
      assert Pow10(9) == 1_000_000_000 by {
        assert Pow10(5) == 100_000;
        assert Pow10(9) == 10_000 * Pow10(5);
      }
      DigitsLength(taka, 9);
      SplitAtPoint(Digits(taka), b);
      TrimDecimal(Digits(taka), b);
    }
  }
}
