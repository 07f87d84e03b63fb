# Insurance quote form: verified model of the estimate service and its page flow

The application is a small Spring web form. A customer enters personal data, sees a confirmation
page, gets an annual premium quote and may then place an order, which is written to a database.
This project models the two parts of it with precise behaviour:

- **The estimate service** (`EstimateService`): age in completed years between the birth date and
  today (`Period.between(...).getYears()`), the 20..100 age window, the annual fee
  `(int) (monthlyFee * 12 * adjustmentRate)`, the label and fee lookups, and order registration.
- **The page flow** (`EstimateController`): the handlers `start`, `confirm`, `estimate`,
  `backToInput`, `order` and `backToConfirm`, the form-to-order mapping, the empty form and the
  two helpers that put option labels into the Spring `Model`.

Files and modules:

| file | module | contents |
|---|---|---|
| `wrappers.dfy` | `Wrappers` | `Option`, `Result` |
| `domain.dfy` | `Domain` | `int32`, `Date`, the reference-type records, `UserOrderForm`, `InsuranceOrder`, `EstimateResult`, `Fault` |
| `java_text.dfy` | `JavaText` | `Integer.parseInt`, `String.valueOf(int)`, `LocalDate.parse` with the pattern `yyyy/MM/dd` |
| `estimation.dfy` | `Estimation` | age, age window, annual-fee arithmetic |
| `service.dfy` | `Service` | `queryForObject` semantics, class `EstimateService` |
| `controller.dfy` | `Controller` | `BindingResult` and `Model` classes, class `EstimateController` |

How the model is built:

- The database behind the service is folded into `EstimateService`. The reference tables are
  `const` fields. `orders` is the order table, and `RegisterOrder` appends to it. `Valid()` states
  what the database guarantees: primary keys are unique, and marital-status and medical-history
  types come back in descending key order (`ORDER BY ... DESC`).
- `queryForObject` succeeds only when exactly one row matches. No row, or several rows, is a
  `Fault` that records how many rows were found.
- `LocalDate.now()` is replaced by date parameters. `estimate` reads the clock twice, once in
  `isAgeValid` and once in `calculateInsuranceFee`, so its model takes two dates: `checkedOn`
  for the age check and `quotedOn` for the quote. `order` reads it once, so it takes one.
- Bean validation is not modelled. The handlers get its outcome as the `BindingResult`'s error
  list.
- A Java exception that escapes a handler is a `ServerError` response, so no `requires` forbids
  bad input. Those exceptions are `NumberFormatException`, `DateTimeParseException`, the
  result-size errors of `queryForObject` and `IndexOutOfBoundsException`.
- Java `int` is the newtype `int32`. `monthlyFee * 12` wraps to 32 bits. The `(int)` cast of the
  product truncates toward zero and saturates at the `int` bounds. The adjustment rate, a
  `double` in Java, is a `real`.
- The handlers are methods that change the `Model`, the `BindingResult` and the order table step
  by step, as the source does. Their postconditions state each path: the page returned, the new
  error list, the new attributes and the new order table. The pure functions they use
  (`WithSelectedLabels`, `WithOptionLabels`, `ToInsuranceOrder`, `EmptyForm`, the service lookups)
  carry the properties, and lemmas beside them state the rest.

Points where the code behaves differently from what a reader of its page flow might expect:

- The age check runs only when there are no binding errors. A form with binding errors gets no
  age error, whatever its date of birth.
- A date of birth that `LocalDate.parse` rejects is an exception (a server error), not a field
  error. It becomes a field error only if bean validation catches it first.
- `calculateInsuranceFee` does not check the age window. It only looks up the rate for the age.
- `estimate` fetches the labels of the selected codes before it looks at the binding errors.
  A code that does not parse, or that has no label, therefore ends the request with a server
  error even when there are binding errors.
- `backToInput` adds the option lists to the `Model`. It removes nothing.
- The age check and the quote in `estimate` each read the clock. Across midnight the quote can
  be computed for an age the check never saw: born 15 June 1923, a customer passes the check at
  100 on 14 June 2024 and is quoted at 101 on 15 June 2024.

## Model

| member | source | states |
|---|---|---|
| `JavaText.NatToDigits` | src/main/java/com/tiscon11/controller/EstimateController.java:258-261 | the decimal digits printed by `String.valueOf` denote the number, with no leading zero |
| `JavaText.IntToString` | src/main/java/com/tiscon11/controller/EstimateController.java:258-261 | `String.valueOf` writes a minus sign exactly for a negative number, then the digits of its magnitude, with no leading zero |
| `JavaText.ParseInt` | src/main/java/com/tiscon11/controller/EstimateController.java:171-181 | `Integer.parseInt` succeeds exactly on an optional sign, then at least one digit, with a value that fits in 32 bits, and returns that signed value |
| `JavaText.ParseIntOfIntToString` | src/main/java/com/tiscon11/controller/EstimateController.java:258-261 | parsing a code printed by `String.valueOf` gives back the same code |
| `JavaText.ParseDate` | src/main/java/com/tiscon11/controller/EstimateController.java:102 | a date parsed with `yyyy/MM/dd` is a real calendar date with a four-digit year |
| `JavaText.ParseDateOfFormatDate` | src/main/java/com/tiscon11/controller/EstimateController.java:158 | every valid date with a four-digit year survives printing and parsing with `yyyy/MM/dd` |
| `JavaText.ParseDateRejectsMalformed` | src/main/java/com/tiscon11/controller/EstimateController.java:102 | `2020-13-40` and `2020/13/40` are rejected |
| `JavaText.ParseDateClampsToMonthEnd` | src/main/java/com/tiscon11/controller/EstimateController.java:102 | SMART resolution reads `2023/02/30` as 28 February 2023 |
| `Estimation.TruncDiv` | src/main/java/com/tiscon11/service/EstimateService.java:153-154 | the years of a period are its completed months divided by 12, truncated toward zero |
| `Estimation.CalculateAge` | src/main/java/com/tiscon11/service/EstimateService.java:151-155 | for a birth date not after today, the age is the number of completed years: that anniversary has been reached and the next one has not; a birth date after today gives no positive age |
| `Estimation.AgeReachesAnniversary` | src/main/java/com/tiscon11/service/EstimateService.java:151-155 | for a birth date not after today, the age is at least n exactly when the n-th anniversary has been reached |
| `Estimation.AgeMonotone` | src/main/java/com/tiscon11/service/EstimateService.java:151-155 | the age never decreases as the current date moves on |
| `Estimation.AgeAntisymmetric` | src/main/java/com/tiscon11/service/EstimateService.java:151-155 | swapping birth date and today negates the age |
| `Estimation.IsAgeValid` | src/main/java/com/tiscon11/service/EstimateService.java:140-143 | the age is valid exactly from the 20th birthday up to the day before the 101st; never for a birth date after today |
| `Estimation.AgeExamples` | src/main/java/com/tiscon11/service/EstimateService.java:140-155 | 33 the day before the 34th birthday and 34 on it; ages 19 and 101 are invalid, 20 and 100 are valid |
| `Estimation.Trunc` | src/main/java/com/tiscon11/service/EstimateService.java:126 | the cast drops the fraction toward zero: within one below a non-negative value, within one above a negative one |
| `Estimation.Wrap32` | src/main/java/com/tiscon11/service/EstimateService.java:126 | `monthlyFee * 12` is congruent to the exact product modulo 2^32, and equal to it whenever that fits in an `int` |
| `Estimation.DoubleToInt` | src/main/java/com/tiscon11/service/EstimateService.java:126 | `(int)` of a `double` truncates inside the `int` range and saturates outside it |
| `Estimation.AnnualFee` | src/main/java/com/tiscon11/service/EstimateService.java:126 | for a non-negative fee without overflow and a non-negative rate, the annual fee is never above the exact product and less than 1 below it; a product past the `int` range is capped at the `int` maximum |
| `Estimation.AnnualFeeExamples` | src/main/java/com/tiscon11/service/EstimateService.java:126 | 1000 at 1.05 is 12600, 3000 at 0.98 is 35280, and 999 at 1.001 is 11999 (truncated, not rounded) |
| `Service.Matching` | src/main/java/com/tiscon11/dao/EstimateDao.java:84-86 | the rows a keyed query selects: every row with the key and only those |
| `Service.MatchingUnique` | src/main/java/com/tiscon11/dao/EstimateDao.java:84-86 | with unique keys, at most one row matches |
| `Service.QueryForObject` | src/main/java/com/tiscon11/dao/EstimateDao.java:83-87 | succeeds exactly when one row matches, and returns that row; otherwise a fault with the row count |
| `Service.QueryFindsUniqueRow` | src/main/java/com/tiscon11/dao/EstimateDao.java:83-87 | over a key-unique table, the query succeeds exactly when some row has the key |
| `Service.DescendingFirstIsLargest` | src/main/java/com/tiscon11/dao/EstimateDao.java:62 | a table listed in descending key order starts with its largest key |
| `Service.DescendingIsUnique` | src/main/java/com/tiscon11/dao/EstimateDao.java:73 | strictly descending keys are unique keys |
| `Service.EstimateService.GetInsurances` | src/main/java/com/tiscon11/service/EstimateService.java:37-39 | every insurance type the name lookup answers is listed; on a valid store, every listed insurance type is one the name and fee lookups answer, with the listed name and fee |
| `Service.EstimateService.GetJobTypes` | src/main/java/com/tiscon11/service/EstimateService.java:46-48 | every job type the label lookup answers is listed; on a valid store, every listed job type's label lookup gives the listed label |
| `Service.EstimateService.GetMarriedTypes` | src/main/java/com/tiscon11/service/EstimateService.java:55-57 | every marital-status type the label lookup answers is listed; on a valid store, the types come in descending key order with unique keys, and each listed type's label lookup gives the listed label |
| `Service.EstimateService.GetTreatedTypes` | src/main/java/com/tiscon11/service/EstimateService.java:64-66 | every medical-history type the label lookup answers is listed; on a valid store, the types come in descending key order with unique keys, and each listed type's label lookup gives the listed label |
| `Service.EstimateService.FindInsuranceName` | src/main/java/com/tiscon11/service/EstimateService.java:74-76 | the returned name is the name of a row with exactly the given code; on a valid store it succeeds exactly when such a row exists |
| `Service.EstimateService.FindJobName` | src/main/java/com/tiscon11/service/EstimateService.java:84-86 | the same for job types |
| `Service.EstimateService.FindMarriedName` | src/main/java/com/tiscon11/service/EstimateService.java:94-96 | the same for marital-status types |
| `Service.EstimateService.FindTreatedName` | src/main/java/com/tiscon11/service/EstimateService.java:104-106 | the same for medical-history types |
| `Service.EstimateService.FindMonthlyFee` | src/main/java/com/tiscon11/service/EstimateService.java:117 | the fee returned is the monthly fee of a row with exactly the requested insurance type |
| `Service.EstimateService.FindAdjustmentRateByAge` | src/main/java/com/tiscon11/service/EstimateService.java:123 | the rate stored for the age, or a fault when the table has no row for it |
| `Service.EstimateService.CalculateInsuranceFee` | src/main/java/com/tiscon11/service/EstimateService.java:115-132 | the quote carries the computed age, the rate stored for that age, and the annual fee from the monthly fee of the requested type and no other; it fails exactly when the type or the rate is missing |
| `Service.EstimateService.RegisterOrder` | src/main/java/com/tiscon11/service/EstimateService.java:162-165 | the order table gains exactly the given order, unchanged, at its end |
| `Service.QuotedAgeAfterCheck` | src/main/java/com/tiscon11/service/EstimateService.java:115-155 | with the quote's clock reading not earlier than the check's, the quoted age is at least 20; it is at most 100 when both readings are the same day |
| `Service.QuoteAfterMidnightLeavesWindow` | src/main/java/com/tiscon11/service/EstimateService.java:140-155 | born 15 June 1923: valid at 100 on 14 June 2024, quoted at 101 on 15 June 2024 |
| `Controller.BindingResult.AddError` | src/main/java/com/tiscon11/controller/EstimateController.java:106-107 | appends one error and keeps the earlier ones |
| `Controller.Model.AddAttribute` | src/main/java/com/tiscon11/controller/EstimateController.java:117 | sets one attribute and keeps the others |
| `Controller.ParseCode` | src/main/java/com/tiscon11/controller/EstimateController.java:211 | succeeds exactly when `Integer.parseInt` accepts the text, with its value; otherwise the NumberFormat fault for that text |
| `Controller.ToInsuranceOrder` | src/main/java/com/tiscon11/controller/EstimateController.java:169-182 | the order has no id, codes and income equal to the parsed form text, text fields copied verbatim; succeeds exactly when all five parse, and otherwise the fault names the first field, in the order insurance type, marital status, job, income, medical history, that does not parse |
| `Controller.ToInsuranceOrderOfFormOf` | src/main/java/com/tiscon11/controller/EstimateController.java:169-182 | an order without an id, shown as a form and converted back, is unchanged |
| `Controller.EstimateController.FetchInsuranceName` | src/main/java/com/tiscon11/controller/EstimateController.java:210-212 | the label of a row whose code is the parsed form text; unparsable text is a NumberFormat fault; on a valid store, succeeds exactly when the text parses to a code some row has |
| `Controller.EstimateController.FetchMarriedName` | src/main/java/com/tiscon11/controller/EstimateController.java:220-222 | the same for marital status |
| `Controller.EstimateController.FetchJobName` | src/main/java/com/tiscon11/controller/EstimateController.java:230-232 | the same for job |
| `Controller.EstimateController.FetchTreatedName` | src/main/java/com/tiscon11/controller/EstimateController.java:240-242 | the same for medical history |
| `Controller.EstimateController.WithSelectedLabels` | src/main/java/com/tiscon11/controller/EstimateController.java:286-302 | succeeds exactly when all four labels can be fetched; adds those four labels and keeps every other attribute; otherwise the fault is that of the first failing fetch, in the order insurance, marital status, job, medical history |
| `Controller.EstimateController.SetSelectedOptionLabels` | src/main/java/com/tiscon11/controller/EstimateController.java:286-302 | the Model afterwards is the one `WithSelectedLabels` describes, or the fault is reported |
| `Controller.EstimateController.WithOptionLabels` | src/main/java/com/tiscon11/controller/EstimateController.java:270-279 | adds the four complete reference lists and keeps every other attribute |
| `Controller.EstimateController.SetOptionLabels` | src/main/java/com/tiscon11/controller/EstimateController.java:270-279 | the Model afterwards is the one `WithOptionLabels` describes |
| `Controller.EstimateController.EmptyForm` | src/main/java/com/tiscon11/controller/EstimateController.java:249-263 | every text field empty, and marital status, job and medical history parse back to the codes of the first listed choice; otherwise the IndexOutOfBounds fault of the first empty list, in the order marital status, job, medical history |
| `Controller.EstimateController.EmptyFormPresetsHighestCodes` | src/main/java/com/tiscon11/controller/EstimateController.java:258-261 | with the store's descending order, the preset marital status and medical history are the highest codes |
| `Controller.EstimateController.Start` | src/main/java/com/tiscon11/controller/EstimateController.java:51-61 | the input page with the empty form and all choices, or the empty-list fault with the Model untouched |
| `Controller.EstimateController.Confirm` | src/main/java/com/tiscon11/controller/EstimateController.java:71-78 | the confirm page with the four labels added, or the label fault |
| `Controller.EstimateController.Estimate` | src/main/java/com/tiscon11/controller/EstimateController.java:89-120 | once the four labels are found: with binding errors, confirm with those errors and no quote; otherwise an age out of range on the check's date gives confirm with exactly one more error, on dateOfBirth; "result" with the quote computed on the second clock reading, only when there are no binding errors and the age is valid on the first; the order table is never touched |
| `Controller.EstimateController.BackToInput` | src/main/java/com/tiscon11/controller/EstimateController.java:129-136 | always the input page with all choices; no validation, order table untouched |
| `Controller.EstimateController.Order` | src/main/java/com/tiscon11/controller/EstimateController.java:147-186 | the order table gains exactly the mapped order when there are no binding errors, the age is valid and the form maps to an order, and is unchanged on every other path; only that path reaches "complete" |
| `Controller.EstimateController.BackToConfirm` | src/main/java/com/tiscon11/controller/EstimateController.java:195-202 | the confirm page with the labels; no validation, order table untouched |

## Left out

- The SQL and JDBC of the data-access class. The reference tables are fixed values, and an
  insert always succeeds. Write failures, the store-generated order id, `@Transactional`
  atomicity and concurrent submissions are store concerns.
- The bootstrap class, the `top` handler (it only returns "top"), and template rendering.
- The bean-validation rules of the form class. The form class is not part of this model, so
  binding errors are an input.
- `LocalDate.now()`. The current date is the `today` parameter.
- IEEE-754 `double` rounding. The adjustment rate is an exact `real`, so the model computes
  `monthlyFee * 12 * rate` without rounding before the cast.
- Java `null` for form fields (`Integer.parseInt(null)` throws). Strings here are never null.
- JavaText.ParseInt: accepts only ASCII digits. Java's `Integer.parseInt` also accepts other
  Unicode decimal digits, such as full-width ones.
- JavaText.ParseDate: covers only the plain four-digit year. Java also accepts a `+` sign followed
  by five or more year digits.
- Controller.EstimateController.SetSelectedOptionLabels: on a fault, the contract does not say
  which labels before the failing one were already added.
- Controller.EstimateController.Confirm: on a label fault, the contract leaves the Model
  unspecified, for the same reason.
- Controller.EstimateController.BackToConfirm: on a label fault, the contract leaves the Model
  unspecified, for the same reason.
- Controller.EstimateController.Estimate: on a label fault, the contract leaves the Model
  unspecified, for the same reason.
