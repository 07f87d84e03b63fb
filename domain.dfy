/**
 * The records the insurance-quote form works with: reference types read from the store,
 * the form as submitted, the order as persisted, the estimate shown to the customer,
 * and the faults that end a request with a server error instead of a page.
 */
module Domain {

  import opened Wrappers

  /** Java's `int` / `Integer`: 32-bit two's complement. */
  newtype int32 = x: int | -0x8000_0000 <= x < 0x8000_0000

  const INT32_MIN: int := -0x8000_0000
  const INT32_MAX: int := 0x7fff_ffff

  predicate InInt32(x: int) { INT32_MIN <= x <= INT32_MAX }

  /** A calendar date of the proleptic Gregorian calendar, as `java.time.LocalDate` holds it. */
  datatype Date = Date(year: int, month: int, day: int)

  predicate IsLeapYear(year: int) {
    year % 4 == 0 && (year % 100 != 0 || year % 400 == 0)
  }

  function LengthOfMonth(year: int, month: int): (n: int)
    requires 1 <= month <= 12
    ensures 28 <= n <= 31
  {
    if month == 2 then (if IsLeapYear(year) then 29 else 28)
    else if month == 4 || month == 6 || month == 9 || month == 11 then 30
    else 31
  }

  /** A date that `LocalDate` can hold: a real month and a day that exists in it. */
  predicate ValidDate(d: Date) {
    1 <= d.month <= 12 && 1 <= d.day <= LengthOfMonth(d.year, d.month)
  }

  /** Reference rows: a code and its display label (InsuranceType also carries the monthly fee). */
  datatype InsuranceType = InsuranceType(insuranceType: int32, insuranceName: string, monthlyFee: int32)
  datatype JobType = JobType(jobType: int32, jobName: string)
  datatype MarriedType = MarriedType(marriedType: int32, marriedName: string)
  datatype TreatedType = TreatedType(treatedType: int32, treatedName: string)

  /** The form as it arrives: every field is text; codes and income are parsed server-side. */
  datatype UserOrderForm = UserOrderForm(
    kanjiName: string,
    kanaName: string,
    dateOfBirth: string,
    address: string,
    tel: string,
    email: string,
    insuranceType: string,
    marriedType: string,
    jobType: string,
    income: string,
    treatedType: string,
    medicalHistory: string)

  /** The persisted order. `orderId` is None (Java null) until the store assigns one. */
  datatype InsuranceOrder = InsuranceOrder(
    orderId: Option<int32>,
    insuranceType: int32,
    kanjiName: string,
    kanaName: string,
    dateOfBirth: string,
    address: string,
    tel: string,
    email: string,
    marriedType: int32,
    jobType: int32,
    income: int32,
    treatedType: int32,
    medicalHistory: string)

  /** The quote: annual fee, the age-based adjustment rate that was applied, and the age. */
  datatype EstimateResult = EstimateResult(annualFee: int32, adjustmentRate: real, age: int)

  /**
   * Exceptions that escape a request handler: `Integer.parseInt` (NumberFormatException),
   * `LocalDate.parse` (DateTimeParseException), `queryForObject` finding no row or several
   * (EmptyResultDataAccessException / IncorrectResultSizeDataAccessException), and
   * `List.get(0)` on an empty list (IndexOutOfBoundsException).
   */
  datatype Fault =
    | NumberFormat(text: string)
    | DateTimeParse(text: string)
    | IncorrectResultSize(table: string, key: int, rows: nat)
    | IndexOutOfBounds(list: string)
}
