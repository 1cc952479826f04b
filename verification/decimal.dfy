/**
  Decimal conversions the client uses: `strconv.Atoi` (with Go's 64-bit `int`
  range), `strconv.Itoa`, and `strconv.ParseBool`.
 */
module Decimal {
  import opened Common

  const MaxInt: int := 0x7FFF_FFFF_FFFF_FFFF
  const MinInt: int := -0x8000_0000_0000_0000
  const MaxUint64: int := 0xFFFF_FFFF_FFFF_FFFF

  predicate IsDigit(c: char) {
    '0' <= c <= '9'
  }

  predicate AllDigits(s: string) {
    forall i :: 0 <= i < |s| ==> IsDigit(s[i])
  }

  function DigitValue(c: char): (d: nat)
    requires IsDigit(c)
    ensures d < 10
  {
    c as int - '0' as int
  }

  function DigitChar(d: nat): (c: char)
    requires d < 10
    ensures IsDigit(c) && DigitValue(c) == d
  {
    ('0' as int + d) as char
  }

  /** The value of a digit string, most significant digit first. */
  function DigitsValue(s: string): nat
    requires AllDigits(s)
  {
    if |s| == 0 then 0 else DigitsValue(s[..|s| - 1]) * 10 + DigitValue(s[|s| - 1])
  }

  /** The text Atoi accepts: an optional sign followed by at least one digit. */
  predicate IsDecimal(s: string) {
    && |s| > 0
    && var body := if s[0] == '+' || s[0] == '-' then s[1..] else s;
      |body| > 0 && AllDigits(body)
  }

  /** The integer an accepted text denotes, before any range check. */
  function DecimalValue(s: string): int
    requires IsDecimal(s)
  {
    if s[0] == '-' then -(DigitsValue(s[1..]) as int)
    else if s[0] == '+' then DigitsValue(s[1..])
    else DigitsValue(s)
  }

  /** What the unsigned scan of `strconv.ParseUint(s, 10, 64)` ends with. */
  datatype Scan = Value(n: nat) | Syntax | Range

  /**
    The digit loop of `ParseUint`: runes are consumed left to right; a
    non-digit is a syntax error, and the first digit that takes the value
    past the largest 64-bit unsigned number is a range error.
   */
  function ScanDigits(s: string, acc: nat): Scan
    decreases |s|
  {
    if |s| == 0 then Value(acc)
    else if !IsDigit(s[0]) then Syntax
    else if acc * 10 + DigitValue(s[0]) > MaxUint64 then Range
    else ScanDigits(s[1..], acc * 10 + DigitValue(s[0]))
  }

  /** `acc` followed by the digits of `s`, with no bound. */
  function Accumulate(acc: nat, s: string): nat
    requires AllDigits(s)
    decreases |s|
  {
    if |s| == 0 then acc else Accumulate(acc * 10 + DigitValue(s[0]), s[1..])
  }

  lemma {:induction false} AccumulateGrows(acc: nat, s: string)
    requires AllDigits(s)
    ensures Accumulate(acc, s) >= acc
    decreases |s|
  {
    if |s| > 0 {
      AccumulateGrows(acc * 10 + DigitValue(s[0]), s[1..]);
    }
  }

  lemma {:induction false} AccumulateLast(acc: nat, s: string)
    requires |s| > 0 && AllDigits(s)
    ensures Accumulate(acc, s) == Accumulate(acc, s[..|s| - 1]) * 10 + DigitValue(s[|s| - 1])
    decreases |s|
  {
    if |s| > 1 {
      AccumulateLast(acc * 10 + DigitValue(s[0]), s[1..]);
      assert s[1..][..|s[1..]| - 1] == s[..|s| - 1][1..];
    }
  }

  /** Reading a digit string left to right gives its value. */
  lemma {:induction false} AccumulateIsValue(s: string)
    requires AllDigits(s)
    ensures Accumulate(0, s) == DigitsValue(s)
  {
    if |s| > 0 {
      AccumulateLast(0, s);
      AccumulateIsValue(s[..|s| - 1]);
    }
  }

  /**
    On digits the scan overflows exactly when the full value does, so the
    left-to-right overflow check agrees with the value's range.
   */
  lemma {:induction false} ScanDigitsValue(s: string, acc: nat)
    requires AllDigits(s) && acc <= MaxUint64
    ensures ScanDigits(s, acc) == if Accumulate(acc, s) <= MaxUint64 then Value(Accumulate(acc, s)) else Range
    decreases |s|
  {
    if |s| > 0 {
      var next := acc * 10 + DigitValue(s[0]);
      AccumulateGrows(next, s[1..]);
      if next <= MaxUint64 {
        ScanDigitsValue(s[1..], next);
      }
    }
  }

  /** `strconv.Atoi(s)` on a 64-bit platform. */
  function Atoi(s: string): (r: Reply<int>)
    ensures r.Ok? <==> IsDecimal(s) && MinInt <= DecimalValue(s) <= MaxInt
    ensures r.Ok? ==> r.value == DecimalValue(s)
    ensures r.Err? ==> r.error.NumError? && r.error.fn == "Atoi" && r.error.num == s
    ensures r.Err? && IsDecimal(s) ==> r.error.kind == ErrRange
  {
    if |s| == 0 then Err(NumError("Atoi", s, ErrSyntax))
    else
      var neg := s[0] == '-';
      var body := if s[0] == '+' || s[0] == '-' then s[1..] else s;
      var scan := if |body| == 0 then Syntax else ScanDigits(body, 0);
      AtoiScan(s, body, scan);
      match scan
      case Syntax => Err(NumError("Atoi", s, ErrSyntax))
      case Range => Err(NumError("Atoi", s, ErrRange))
      case Value(u) =>
        if !neg && u > MaxInt then Err(NumError("Atoi", s, ErrRange))
        else if neg && u > -MinInt then Err(NumError("Atoi", s, ErrRange))
        else Ok(if neg then -(u as int) else u as int)
  }

  /** The facts `Atoi` needs about the scan of the text after the sign. */
  lemma AtoiScan(s: string, body: string, scan: Scan)
    requires |s| > 0
    requires body == if s[0] == '+' || s[0] == '-' then s[1..] else s
    requires scan == if |body| == 0 then Syntax else ScanDigits(body, 0)
    ensures scan.Value? <==> IsDecimal(s) && DigitsValue(body) <= MaxUint64
    ensures scan.Value? ==> scan.n == DigitsValue(body)
    ensures scan.Syntax? ==> !IsDecimal(s)
  {
    if |body| > 0 {
      if AllDigits(body) {
        ScanDigitsValue(body, 0);
        AccumulateIsValue(body);
      } else {
        ScanNonDigits(body, 0);
      }
    }
  }

  /** A text with a non-digit never scans to a value. */
  lemma {:induction false} ScanNonDigits(s: string, acc: nat)
    requires !AllDigits(s)
    ensures !ScanDigits(s, acc).Value?
    decreases |s|
  {
    if IsDigit(s[0]) {
      var next := acc * 10 + DigitValue(s[0]);
      if next <= MaxUint64 {
        ScanNonDigits(s[1..], next);
      }
    }
  }

  /** The decimal digits of a natural number, without leading zeros. */
  function NatDigits(n: nat): (s: string)
    ensures |s| > 0 && AllDigits(s)
    ensures DigitsValue(s) == n
    ensures |s| > 1 ==> s[0] != '0'
  {
    if n < 10 then [DigitChar(n)]
    else
      var init := NatDigits(n / 10);
      var s := init + [DigitChar(n % 10)];
      assert s[..|s| - 1] == init;
      s
  }

  /** `strconv.Itoa`. */
  function Itoa(x: int): (s: string)
    ensures IsDecimal(s) && DecimalValue(s) == x
    ensures s[0] != '+' && s[0] != '/' && s[0] != '.'
  {
    if x < 0 then "-" + NatDigits(-x) else NatDigits(x)
  }

  /** Formatting an in-range integer and reading it back gives the integer. */
  lemma AtoiItoa(x: int)
    requires MinInt <= x <= MaxInt
    ensures Atoi(Itoa(x)) == Ok(x)
  {
  }

  /** An Itoa text holds only digits and at most a leading minus sign. */
  lemma ItoaRunes(x: int)
    ensures forall i :: 0 <= i < |Itoa(x)| ==> IsDigit(Itoa(x)[i]) || (i == 0 && Itoa(x)[i] == '-')
  {
  }

  /** `strconv.ParseBool`: the accepted spellings of true and false; anything else is a syntax error. */
  function ParseBool(s: string): Reply<bool>
  {
    if s in {"1", "t", "T", "TRUE", "true", "True"} then Ok(true)
    else if s in {"0", "f", "F", "FALSE", "false", "False"} then Ok(false)
    else Err(NumError("ParseBool", s, ErrSyntax))
  }
}
