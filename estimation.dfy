/**
 * The arithmetic of the quote: age in completed years (`Period.between(birth, today).getYears()`),
 * the 20..100 age window, and the annual fee `(int) (monthlyFee * 12 * rate)`.
 */
module Estimation {

  import opened Domain

  /** Months since year 0, as `LocalDate.getProlepticMonth` counts them. */
  function ProlepticMonth(d: Date): int {
    d.year * 12 + d.month - 1
  }

  /** Java's `/` on integers: the quotient truncated toward zero. */
  function TruncDiv(a: int, b: int): (q: int)
    requires b > 0
    ensures a >= 0 ==> q * b <= a < q * b + b
    ensures a < 0 ==> q * b - b < a <= q * b
  {
    if a >= 0 then a / b else -((-a) / b)
  }

  /** Chronological order on (year, month, day). */
  predicate Before(a: Date, b: Date) {
    a.year < b.year
    || (a.year == b.year && a.month < b.month)
    || (a.year == b.year && a.month == b.month && a.day < b.day)
  }

  /** The same month and day as `birth`, `n` years later (not necessarily a real date: 29 February). */
  function Anniversary(birth: Date, n: int): Date {
    Date(birth.year + n, birth.month, birth.day)
  }

  /**
   * The years of `Period.between(birth, today)`: whole months between the two dates, less one
   * when the day of month has not been reached yet (and symmetrically when `today` is earlier),
   * divided by twelve with truncation toward zero. For a birth date not after today this is the
   * number of completed years: the `age`-th anniversary has been reached and the next one has
   * not. Someone born on 29 February turns a year older on 1 March of a common year.
   */
  function CalculateAge(birth: Date, today: Date): (age: int)
    ensures 1 <= birth.month <= 12 && 1 <= today.month <= 12 && !Before(today, birth) ==>
      && age >= 0
      && !Before(today, Anniversary(birth, age))
      && Before(today, Anniversary(birth, age + 1))
    ensures 1 <= birth.month <= 12 && 1 <= today.month <= 12 && Before(today, birth) ==> age <= 0
  {
    var totalMonths := ProlepticMonth(today) - ProlepticMonth(birth);
    var days := today.day - birth.day;
    var completed :=
      if totalMonths > 0 && days < 0 then totalMonths - 1
      else if totalMonths < 0 && days > 0 then totalMonths + 1
      else totalMonths;
    TruncDiv(completed, 12)
  }

  /**
   * Age grows with the calendar: for a birth date not after today, the age is at least `n`
   * exactly when the `n`-th anniversary has been reached.
   */
  lemma AgeReachesAnniversary(birth: Date, today: Date, n: nat)
    requires 1 <= birth.month <= 12 && 1 <= today.month <= 12
    requires !Before(today, birth)
    ensures CalculateAge(birth, today) >= n <==> !Before(today, Anniversary(birth, n))
  {
  }

  /** The age never goes down as the calendar moves on. */
  lemma AgeMonotone(birth: Date, earlier: Date, later: Date)
    requires 1 <= birth.month <= 12 && 1 <= earlier.month <= 12 && 1 <= later.month <= 12
    requires !Before(earlier, birth) && !Before(later, earlier)
    ensures CalculateAge(birth, earlier) <= CalculateAge(birth, later)
  {
    AgeReachesAnniversary(birth, later, CalculateAge(birth, earlier));
  }

  /** Swapping the two dates negates the age. */
  lemma AgeAntisymmetric(birth: Date, today: Date)
    ensures CalculateAge(today, birth) == -CalculateAge(birth, today)
  {
  }

  /**
   * The window the service accepts: 20 to 100 years, both ends included. In calendar terms:
   * from the 20th birthday up to the day before the 101st.
   */
  predicate IsAgeValid(birth: Date, today: Date)
    ensures 1 <= birth.month <= 12 && 1 <= today.month <= 12 && !Before(today, birth) ==>
      (IsAgeValid(birth, today) <==>
        !Before(today, Anniversary(birth, 20)) && Before(today, Anniversary(birth, 101)))
    ensures 1 <= birth.month <= 12 && 1 <= today.month <= 12 && Before(today, birth) ==>
      !IsAgeValid(birth, today)
  {
    var age := CalculateAge(birth, today);
    age >= 20 && age <= 100
  }

  /**
   * One day short of the 34th birthday the age is 33; the window opens on the 20th birthday
   * and closes on the 101st.
   */
  lemma AgeExamples()
    ensures CalculateAge(Date(1990, 6, 15), Date(2024, 6, 14)) == 33
    ensures CalculateAge(Date(1990, 6, 15), Date(2024, 6, 15)) == 34
    ensures !IsAgeValid(Date(2004, 6, 15), Date(2024, 6, 14))
    ensures IsAgeValid(Date(2004, 6, 15), Date(2024, 6, 15))
    ensures IsAgeValid(Date(1923, 6, 15), Date(2024, 6, 14))
    ensures !IsAgeValid(Date(1923, 6, 15), Date(2024, 6, 15))
  {
  }

  /** `x` with its fraction dropped, toward zero. */
  function Trunc(x: real): (n: int)
    ensures x >= 0.0 ==> n as real <= x < n as real + 1.0
    ensures x < 0.0 ==> n as real - 1.0 < x <= n as real
  {
    if x >= 0.0 then x.Floor else -((-x).Floor)
  }

  /** `monthlyFee * 12` in Java `int` arithmetic: the exact product wrapped to 32 bits. */
  function Wrap32(x: int): (r: int32)
    ensures (r as int - x) % 0x1_0000_0000 == 0
    ensures InInt32(x) ==> r as int == x
  {
    ((x - INT32_MIN) % 0x1_0000_0000 + INT32_MIN) as int32
  }

  /** Java's `(int)` cast of a `double`: truncation toward zero, saturating at the `int` bounds. */
  function DoubleToInt(x: real): (r: int32)
    ensures INT32_MIN as real <= x < INT32_MAX as real + 1.0 ==> r as int == Trunc(x)
    ensures x >= INT32_MAX as real ==> r as int == INT32_MAX
    ensures x <= INT32_MIN as real ==> r as int == INT32_MIN
  {
    if x >= INT32_MAX as real then INT32_MAX as int32
    else if x <= INT32_MIN as real then INT32_MIN as int32
    else Trunc(x) as int32
  }

  /** The largest monthly fee whose yearly amount still fits in an `int`. */
  const MAX_MONTHLY_FEE: int := INT32_MAX / 12

  /**
   * `(int) (monthlyFee * 12 * adjustmentRateByAge)`. For a non-negative fee that does not
   * overflow and a non-negative rate, the annual fee is the exact product with its fraction cut
   * off: never above it and less than one below it; a product past the `int` range is capped.
   */
  function AnnualFee(monthlyFee: int32, rate: real): (fee: int32)
    ensures (0 <= monthlyFee as int <= MAX_MONTHLY_FEE && rate >= 0.0
             && (monthlyFee as int * 12) as real * rate < INT32_MAX as real) ==>
        var exact := (monthlyFee as int * 12) as real * rate;
        0 <= fee as int && fee as real <= exact < fee as real + 1.0
    ensures (0 <= monthlyFee as int <= MAX_MONTHLY_FEE
             && (monthlyFee as int * 12) as real * rate >= INT32_MAX as real) ==>
        fee as int == INT32_MAX
  {
    var yearly := Wrap32(monthlyFee as int * 12);
    assert 0 <= monthlyFee as int <= MAX_MONTHLY_FEE ==>
      yearly as int == monthlyFee as int * 12 && yearly as real * rate == (monthlyFee as int * 12) as real * rate;
    assert yearly as int >= 0 && rate >= 0.0 ==> yearly as real * rate >= 0.0;
    DoubleToInt(yearly as real * rate)
  }

  /** Truncation, not rounding: 999 a month at rate 1.001 is 11999.988 a year, quoted as 11999. */
  lemma AnnualFeeExamples()
    ensures AnnualFee(1000, 1.05) == 12600
    ensures AnnualFee(3000, 0.98) == 35280
    ensures AnnualFee(999, 1.001) == 11999
  {
  }
}
