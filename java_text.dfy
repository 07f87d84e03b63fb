/**
 * The Java library text conversions the controller relies on: `Integer.parseInt`,
 * `String.valueOf(int)`, and `LocalDate.parse` with the pattern "yyyy/MM/dd"
 * (strict parsing, SMART resolution).
 */
module JavaText {

  import opened Wrappers
  import opened Domain

  predicate IsDigit(c: char) { '0' <= c <= '9' }

  predicate AllDigits(s: string) {
    forall i :: 0 <= i < |s| ==> IsDigit(s[i])
  }

  function DigitValue(c: char): (v: nat)
    requires IsDigit(c)
    ensures v < 10
  {
    c as int - '0' as int
  }

  function DigitChar(v: nat): (c: char)
    requires v < 10
    ensures IsDigit(c) && DigitValue(c) == v
  {
    ('0' as int + v) as char
  }

  /** The number a string of decimal digits denotes, most significant digit first. */
  function DigitsValue(s: string): nat
    requires AllDigits(s)
  {
    if s == [] then 0 else DigitsValue(s[..|s| - 1]) * 10 + DigitValue(s[|s| - 1])
  }

  function Pow10(k: nat): (p: nat)
    ensures p >= 1
  {
    if k == 0 then 1 else 10 * Pow10(k - 1)
  }

  /** `k` digits denote a number below 10^k. */
  lemma {:induction false} DigitsValueBound(s: string)
    requires AllDigits(s)
    ensures DigitsValue(s) < Pow10(|s|)
  {
    if s != [] {
      DigitsValueBound(s[..|s| - 1]);
    }
  }

  /** The decimal digits of `n` with no leading zero, as `Integer.toString` prints them. */
  function NatToDigits(n: nat): (s: string)
    ensures |s| >= 1 && AllDigits(s)
    ensures DigitsValue(s) == n
    ensures s[0] == '0' ==> n == 0 && s == "0"
    decreases n
  {
    if n < 10 then [DigitChar(n)]
    else
      var s := NatToDigits(n / 10) + [DigitChar(n % 10)];
      assert s[..|s| - 1] == NatToDigits(n / 10);
      s
  }

  /** The text after an optional leading sign. */
  function Unsigned(s: string): string {
    if s != [] && (s[0] == '-' || s[0] == '+') then s[1..] else s
  }

  /**
   * `String.valueOf(int)`: a minus sign exactly for a negative number, then the digits of the
   * magnitude with no leading zero.
   */
  function IntToString(n: int): (s: string)
    ensures s != [] && (s[0] == '-' <==> n < 0)
    ensures Unsigned(s) != [] && AllDigits(Unsigned(s))
    ensures DigitsValue(Unsigned(s)) as int == if n < 0 then -n else n
    ensures Unsigned(s)[0] == '0' ==> n == 0
  {
    if n < 0 then
      var s := "-" + NatToDigits(-n);
      assert s[1..] == NatToDigits(-n);
      s
    else NatToDigits(n)
  }

  function ToInt32(v: int): (r: Option<int32>)
    ensures r.Some? <==> InInt32(v)
    ensures r.Some? ==> r.value as int == v
  {
    if InInt32(v) then Some(v as int32) else None
  }

  /** The number a signed digit string denotes: negative exactly after a leading minus. */
  function SignedValue(s: string): int
    requires AllDigits(Unsigned(s))
  {
    if s != [] && s[0] == '-' then -(DigitsValue(Unsigned(s)) as int) else DigitsValue(Unsigned(s))
  }

  /**
   * `Integer.parseInt(s)`: an optional '+' or '-', then at least one ASCII digit, and a value
   * that fits in 32 bits; anything else is a NumberFormatException (None).
   */
  function ParseInt(s: string): (r: Option<int32>)
    ensures r.Some? <==> Unsigned(s) != [] && AllDigits(Unsigned(s)) && InInt32(SignedValue(s))
    ensures r.Some? ==> r.value as int == SignedValue(s)
  {
    if s == [] then None
    else if s[0] == '-' || s[0] == '+' then
      var digits := s[1..];
      if digits != [] && AllDigits(digits) then
        ToInt32(if s[0] == '-' then -(DigitsValue(digits) as int) else DigitsValue(digits))
      else None
    else if AllDigits(s) then ToInt32(DigitsValue(s))
    else None
  }

  /** Parsing what `String.valueOf` printed gives back the same number. */
  lemma ParseIntOfIntToString(n: int32)
    ensures ParseInt(IntToString(n as int)) == Some(n)
  {
    var s := IntToString(n as int);
    if n < 0 {
      assert s[1..] == NatToDigits(-(n as int));
    } else {
      assert IsDigit(s[0]);
    }
  }

  /** Exactly `width` digits denoting `n`, with leading zeros. */
  function PadDigits(n: nat, width: nat): (s: string)
    requires n < Pow10(width)
    ensures |s| == width && AllDigits(s) && DigitsValue(s) == n
  {
    if width == 0 then []
    else
      var s := PadDigits(n / 10, width - 1) + [DigitChar(n % 10)];
      assert s[..|s| - 1] == PadDigits(n / 10, width - 1);
      s
  }

  function Min(a: int, b: int): int { if a <= b then a else b }

  /**
   * `LocalDate.parse(s, DateTimeFormatter.ofPattern("yyyy/MM/dd"))`: four-digit year of era
   * (at least 1), two-digit month in 1..12, two-digit day in 1..31. The SMART resolver then
   * moves a day past the end of its month back to the month's last day ("2023/02/30" is
   * 28 February 2023); any other shape is a DateTimeParseException (None).
   */
  function ParseDate(s: string): (r: Option<Date>)
    ensures r.Some? ==> ValidDate(r.value) && 1 <= r.value.year <= 9999
  {
    if |s| == 10 && s[4] == '/' && s[7] == '/'
      && AllDigits(s[..4]) && AllDigits(s[5..7]) && AllDigits(s[8..])
    then
      var year, month, day := DigitsValue(s[..4]), DigitsValue(s[5..7]), DigitsValue(s[8..]);
      DigitsValueBound(s[..4]);
      if 1 <= year && 1 <= month <= 12 && 1 <= day <= 31 then
        Some(Date(year, month, Min(day, LengthOfMonth(year, month))))
      else None
    else None
  }

  /** The same pattern used for printing: what a valid date looks like on the form. */
  function FormatDate(d: Date): string
    requires ValidDate(d) && 1 <= d.year <= 9999
  {
    PadDigits(d.year, 4) + "/" + PadDigits(d.month, 2) + "/" + PadDigits(d.day, 2)
  }

  /** Every date with a four-digit year survives a print-then-parse round trip. */
  lemma ParseDateOfFormatDate(d: Date)
    requires ValidDate(d) && 1 <= d.year <= 9999
    ensures ParseDate(FormatDate(d)) == Some(d)
  {
    var s := FormatDate(d);
    assert s[..4] == PadDigits(d.year, 4);
    assert s[5..7] == PadDigits(d.month, 2);
    assert s[8..] == PadDigits(d.day, 2);
  }

  /** A date written with dashes, or with month 13 and day 40, is rejected. */
  lemma ParseDateRejectsMalformed()
    ensures ParseDate("2020-13-40") == None
    ensures ParseDate("2020/13/40") == None
  {
    var s := "2020/13/40";
    assert s[5..7] == "13";
    assert DigitsValue("13") == 13 by {
      assert "13"[..1] == "1";
    }
  }

  /** SMART resolution clamps the day to the end of a short month. */
  lemma ParseDateClampsToMonthEnd()
    ensures ParseDate("2023/02/30") == Some(Date(2023, 2, 28))
  {
    var s := "2023/02/30";
    assert s[..4] == "2023" && s[5..7] == "02" && s[8..] == "30";
    assert DigitsValue("2023") == 2023 by {
      assert "2023"[..3] == "202";
      assert "202"[..2] == "20";
      assert "20"[..1] == "2";
    }
    assert DigitsValue("02") == 2 by { assert "02"[..1] == "0"; }
    assert DigitsValue("30") == 30 by { assert "30"[..1] == "3"; }
  }
}
