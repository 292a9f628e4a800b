/**
 * `requestSize`: the request size reported in a parent entry is the
 * `Content-Length` header read with Go's `strconv.Atoi`, and 0 whenever
 * `Atoi` rejects the text. It never reports an error.
 */
module ContentLength {
  import opened Wrappers

  const MinInt64: int := -0x8000_0000_0000_0000
  const MaxInt64: int := 0x7fff_ffff_ffff_ffff

  predicate IsDigit(c: char)
  {
    '0' <= c <= '9'
  }

  predicate AllDigits(s: string)
  {
    forall i :: 0 <= i < |s| ==> IsDigit(s[i])
  }

  /** The value of a string of decimal digits, most significant first. */
  function DecimalValue(s: string): nat
    requires AllDigits(s)
  {
    if s == [] then 0 else DecimalValue(s[..|s| - 1]) * 10 + (s[|s| - 1] as int - '0' as int)
  }

  /** The text after an optional leading sign. */
  function Unsigned(s: string): string
  {
    if |s| > 0 && (s[0] == '+' || s[0] == '-') then s[1..] else s
  }

  /**
   * Go's `strconv.Atoi` on a 64-bit platform: an optional `+` or `-`, then one
   * or more decimal digits, with a value that fits in 64 bits; anything else
   * (empty text, a sign alone, spaces, letters, out of range) is an error.
   */
  function Atoi(s: string): (r: Option<int>)
    ensures r.Some? ==> MinInt64 <= r.value <= MaxInt64
  {
    var digits := Unsigned(s);
    if digits == [] || !AllDigits(digits) then None
    else
      var v: int := if s[0] == '-' then 0 - DecimalValue(digits) as int else DecimalValue(digits);
      if MinInt64 <= v <= MaxInt64 then Some(v) else None
  }

  /** The request size: the accepted value, or 0 for anything `Atoi` rejects. */
  function RequestSize(length: string): (n: int)
    ensures MinInt64 <= n <= MaxInt64
    ensures Atoi(length).None? ==> n == 0
    ensures Atoi(length).Some? ==> n == Atoi(length).value
  {
    match Atoi(length)
    case Some(v) => v
    case None => 0
  }

  /** Decimal rendering of a natural number (`strconv.Itoa` without the sign). */
  function Digits(n: nat): string
  {
    if n < 10 then [('0' as int + n) as char] else Digits(n / 10) + [('0' as int + n % 10) as char]
  }

  /** `strconv.FormatInt(n, 10)`. */
  function FormatInt(n: int): string
  {
    if n < 0 then "-" + Digits(-n) else Digits(n)
  }

  lemma {:induction false} DigitsRoundTrip(n: nat)
    ensures |Digits(n)| > 0 && AllDigits(Digits(n))
    ensures DecimalValue(Digits(n)) == n
  {
    if n >= 10 {
      DigitsRoundTrip(n / 10);
      var d := Digits(n);
      assert d[..|d| - 1] == Digits(n / 10);
    }
  }

  /** Every 64-bit integer, written in decimal, is read back as itself. */
  lemma RequestSizeRoundTrip(n: int)
    requires MinInt64 <= n <= MaxInt64
    ensures RequestSize(FormatInt(n)) == n
  {
    var m: nat := if n < 0 then -n else n;
    DigitsRoundTrip(m);
    var d := Digits(m);
    assert d[0] != '+' && d[0] != '-' by { assert IsDigit(d[0]); }
    if n < 0 {
      assert FormatInt(n) == "-" + d;
      assert Unsigned("-" + d) == d;
    } else {
      assert Unsigned(d) == d;
    }
  }

  /** A character that is neither a digit nor a leading sign makes the size 0. */
  lemma NonNumericGivesZero(s: string, i: nat)
    requires i < |s| && !IsDigit(s[i])
    requires i == 0 ==> s[0] != '+' && s[0] != '-'
    ensures RequestSize(s) == 0
  {
    var digits := Unsigned(s);
    if |s| > 0 && (s[0] == '+' || s[0] == '-') {
      assert digits[i - 1] == s[i];
    } else {
      assert digits[i] == s[i];
    }
  }

  /** Empty text and a sign alone are read as 0. */
  lemma EmptyAndBareSign()
    ensures RequestSize("") == 0
    ensures RequestSize("+") == 0 && RequestSize("-") == 0
  {
    assert Unsigned("+") == [];
    assert Unsigned("-") == [];
  }

  /** A value past 64 bits is out of range for `Atoi`, so the size is 0. */
  lemma OutOfRangeGivesZero(n: nat)
    requires n > MaxInt64
    ensures RequestSize(Digits(n)) == 0
    ensures RequestSize("-" + Digits(n)) == (if n == -MinInt64 then MinInt64 else 0)
  {
    DigitsRoundTrip(n);
    assert Unsigned(Digits(n)) == Digits(n);
    assert Unsigned("-" + Digits(n)) == Digits(n);
  }

  lemma Examples()
    ensures RequestSize("20") == 20
    ensures RequestSize("xxx") == 0
  {
    assert Unsigned("20") == "20";
    assert "20"[..1] == "2" && "2"[..0] == "";
    assert DecimalValue("2") == 2;
    assert DecimalValue("20") == 20;
    NonNumericGivesZero("xxx", 0);
  }
}
