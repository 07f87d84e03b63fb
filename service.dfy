/**
 * The estimate service. The store behind it is folded in: the reference tables it reads
 * (insurance, job, marital-status and medical-history types, the age adjustment rates) are
 * fixed for the service's lifetime, and `orders` is the order table that registration appends to.
 */
module Service {

  import opened Wrappers
  import opened Domain
  import opened Estimation

  /** The rows of `rows` whose key is `code`, in table order. */
  function Matching<R>(rows: seq<R>, codeOf: R -> int, code: int): (m: seq<R>)
    ensures |m| <= |rows|
    ensures forall x :: x in m ==> x in rows && codeOf(x) == code
    ensures forall i :: 0 <= i < |rows| && codeOf(rows[i]) == code ==> rows[i] in m
  {
    if rows == [] then []
    else
      var rest := Matching(rows[1..], codeOf, code);
      if codeOf(rows[0]) == code then [rows[0]] + rest else rest
  }

  /** No two rows share a key (the tables' primary keys). */
  predicate UniqueCodes<R>(rows: seq<R>, codeOf: R -> int) {
    forall i, j :: 0 <= i < j < |rows| ==> codeOf(rows[i]) != codeOf(rows[j])
  }

  /** Keys strictly decreasing from first row to last (`ORDER BY ... DESC` over a primary key). */
  predicate DescendingCodes<R>(rows: seq<R>, codeOf: R -> int) {
    forall i :: 0 < i < |rows| ==> codeOf(rows[i - 1]) > codeOf(rows[i])
  }

  /** A key no row has matches nothing. */
  lemma {:induction false} MatchingNone<R>(rows: seq<R>, codeOf: R -> int, code: int)
    requires forall i :: 0 <= i < |rows| ==> codeOf(rows[i]) != code
    ensures Matching(rows, codeOf, code) == []
  {
    if rows != [] {
      MatchingNone(rows[1..], codeOf, code);
    }
  }

  /** With unique keys, at most one row matches. */
  lemma {:induction false} MatchingUnique<R>(rows: seq<R>, codeOf: R -> int, code: int)
    requires UniqueCodes(rows, codeOf)
    ensures |Matching(rows, codeOf, code)| <= 1
  {
    if rows != [] {
      MatchingUnique(rows[1..], codeOf, code);
      if codeOf(rows[0]) == code {
        // no later row has the key, so the recursive match is empty
        forall k | 0 <= k < |rows| - 1
          ensures codeOf(rows[1..][k]) != code
        {
          assert codeOf(rows[0]) != codeOf(rows[k + 1]);
        }
        MatchingNone(rows[1..], codeOf, code);
      }
    }
  }

  /** A descending table starts with its largest key. */
  lemma {:induction false} DescendingFirstIsLargest<R>(rows: seq<R>, codeOf: R -> int, i: nat)
    requires DescendingCodes(rows, codeOf)
    requires i < |rows|
    ensures codeOf(rows[0]) >= codeOf(rows[i])
  {
    if i > 0 {
      DescendingFirstIsLargest(rows, codeOf, i - 1);
    }
  }

  /** Strictly descending keys are unique keys. */
  lemma {:induction false} DescendingIsUnique<R>(rows: seq<R>, codeOf: R -> int)
    requires DescendingCodes(rows, codeOf)
    ensures UniqueCodes(rows, codeOf)
  {
    forall i, j | 0 <= i < j < |rows|
      ensures codeOf(rows[i]) != codeOf(rows[j])
    {
      DescendingFirstIsLargest(rows[i..], codeOf, j - i - 1);
      assert codeOf(rows[j - 1]) > codeOf(rows[j]);
    }
  }

  /**
   * `queryForObject` with a key: the single matching row; no row or several rows raise
   * an IncorrectResultSize fault that carries the number of rows found.
   */
  function QueryForObject<R>(table: string, rows: seq<R>, codeOf: R -> int, code: int): (r: Result<R, Fault>)
    ensures r.Success? <==> |Matching(rows, codeOf, code)| == 1
    ensures r.Success? ==> r.value in rows && codeOf(r.value) == code
    ensures r.Failure? ==> r.error == IncorrectResultSize(table, code, |Matching(rows, codeOf, code)|)
  {
    var m := Matching(rows, codeOf, code);
    if |m| == 1 then Success(m[0]) else Failure(IncorrectResultSize(table, code, |m|))
  }

  /** A key-unique table answers a query exactly when some row has the key. */
  lemma QueryFindsUniqueRow<R>(table: string, rows: seq<R>, codeOf: R -> int, code: int)
    ensures UniqueCodes(rows, codeOf) ==>
      (QueryForObject(table, rows, codeOf, code).Success? <==>
        exists i :: 0 <= i < |rows| && codeOf(rows[i]) == code)
  {
    if UniqueCodes(rows, codeOf) {
      MatchingUnique(rows, codeOf, code);
      if i :| 0 <= i < |rows| && codeOf(rows[i]) == code {
        assert rows[i] in Matching(rows, codeOf, code);
      }
    }
  }

  function InsuranceCode(t: InsuranceType): int { t.insuranceType as int }
  function JobCode(t: JobType): int { t.jobType as int }
  function MarriedCode(t: MarriedType): int { t.marriedType as int }
  function TreatedCode(t: TreatedType): int { t.treatedType as int }

  class EstimateService {
    const insurances: seq<InsuranceType>
    const jobTypes: seq<JobType>
    const marriedTypes: seq<MarriedType>
    const treatedTypes: seq<TreatedType>
    const adjustmentRates: map<int, real>
    var orders: seq<InsuranceOrder>

    /**
     * What the store guarantees: primary keys are unique, and marital-status and
     * medical-history types come back in descending key order.
     */
    predicate Valid() {
      && UniqueCodes(insurances, InsuranceCode)
      && UniqueCodes(jobTypes, JobCode)
      && DescendingCodes(marriedTypes, MarriedCode)
      && DescendingCodes(treatedTypes, TreatedCode)
    }

    constructor (insurances: seq<InsuranceType>, jobTypes: seq<JobType>,
                 marriedTypes: seq<MarriedType>, treatedTypes: seq<TreatedType>,
                 adjustmentRates: map<int, real>, orders: seq<InsuranceOrder>)
      ensures this.insurances == insurances && this.jobTypes == jobTypes
      ensures this.marriedTypes == marriedTypes && this.treatedTypes == treatedTypes
      ensures this.adjustmentRates == adjustmentRates && this.orders == orders
    {
      this.insurances := insurances;
      this.jobTypes := jobTypes;
      this.marriedTypes := marriedTypes;
      this.treatedTypes := treatedTypes;
      this.adjustmentRates := adjustmentRates;
      this.orders := orders;
    }

    /** Descending keys are unique keys, so every table of a valid store is keyed uniquely. */
    lemma ValidKeysUnique()
      ensures Valid() ==> UniqueCodes(marriedTypes, MarriedCode) && UniqueCodes(treatedTypes, TreatedCode)
    {
      if Valid() {
        DescendingIsUnique(marriedTypes, MarriedCode);
        DescendingIsUnique(treatedTypes, TreatedCode);
      }
    }

    /**
     * Every insurance type, as listed on the input page: every type the name lookup answers is
     * listed, and on a valid store each listed type is one the name and fee lookups answer, with
     * the name and fee shown in the list.
     */
    function GetInsurances(): (r: seq<InsuranceType>)
      ensures Valid() ==> forall i :: 0 <= i < |r| ==>
        FindInsuranceName(r[i].insuranceType) == Success(r[i].insuranceName)
        && FindMonthlyFee(r[i].insuranceType) == Success(r[i].monthlyFee)
      ensures forall code: int32 :: FindInsuranceName(code).Success? ==>
        exists i :: 0 <= i < |r| && r[i].insuranceType == code
    {
      insurances
    }

    /**
     * Every job type: every type the label lookup answers is listed, and on a valid store each
     * listed type's label lookup gives the listed label.
     */
    function GetJobTypes(): (r: seq<JobType>)
      ensures Valid() ==> forall i :: 0 <= i < |r| ==> FindJobName(r[i].jobType) == Success(r[i].jobName)
      ensures forall code: int32 :: FindJobName(code).Success? ==>
        exists i :: 0 <= i < |r| && r[i].jobType == code
    {
      jobTypes
    }

    /**
     * Marital-status types, "has spouse" (the higher key) first: on a valid store the keys
     * descend, and each listed type's label lookup gives the listed label. Every type the lookup
     * answers is listed.
     */
    function GetMarriedTypes(): (r: seq<MarriedType>)
      ensures Valid() ==> DescendingCodes(r, MarriedCode) && UniqueCodes(r, MarriedCode)
      ensures Valid() ==> forall i :: 0 <= i < |r| ==>
        FindMarriedName(r[i].marriedType) == Success(r[i].marriedName)
      ensures forall code: int32 :: FindMarriedName(code).Success? ==>
        exists i :: 0 <= i < |r| && r[i].marriedType == code
    {
      ValidKeysUnique();
      marriedTypes
    }

    /**
     * Medical-history types, "yes" (the higher key) first: on a valid store the keys descend,
     * and each listed type's label lookup gives the listed label. Every type the lookup answers
     * is listed.
     */
    function GetTreatedTypes(): (r: seq<TreatedType>)
      ensures Valid() ==> DescendingCodes(r, TreatedCode) && UniqueCodes(r, TreatedCode)
      ensures Valid() ==> forall i :: 0 <= i < |r| ==>
        FindTreatedName(r[i].treatedType) == Success(r[i].treatedName)
      ensures forall code: int32 :: FindTreatedName(code).Success? ==>
        exists i :: 0 <= i < |r| && r[i].treatedType == code
    {
      ValidKeysUnique();
      treatedTypes
    }

    function FindInsuranceName(insuranceType: int32): (r: Result<string, Fault>)
      ensures r.Success? ==>
        (exists i :: 0 <= i < |insurances|
           && insurances[i].insuranceType == insuranceType && insurances[i].insuranceName == r.value)
      ensures Valid() ==> (r.Success? <==>
        exists i :: 0 <= i < |insurances| && insurances[i].insuranceType == insuranceType)
    {
      QueryFindsUniqueRow("INSURANCE_TYPE", insurances, InsuranceCode, insuranceType as int);
      var row :- QueryForObject("INSURANCE_TYPE", insurances, InsuranceCode, insuranceType as int);
      Success(row.insuranceName)
    }

    function FindJobName(jobType: int32): (r: Result<string, Fault>)
      ensures r.Success? ==>
        (exists i :: 0 <= i < |jobTypes|
           && jobTypes[i].jobType == jobType && jobTypes[i].jobName == r.value)
      ensures Valid() ==> (r.Success? <==>
        exists i :: 0 <= i < |jobTypes| && jobTypes[i].jobType == jobType)
    {
      QueryFindsUniqueRow("JOB_TYPE", jobTypes, JobCode, jobType as int);
      var row :- QueryForObject("JOB_TYPE", jobTypes, JobCode, jobType as int);
      Success(row.jobName)
    }

    function FindMarriedName(marriedType: int32): (r: Result<string, Fault>)
      ensures r.Success? ==>
        (exists i :: 0 <= i < |marriedTypes|
           && marriedTypes[i].marriedType == marriedType && marriedTypes[i].marriedName == r.value)
      ensures Valid() ==> (r.Success? <==>
        exists i :: 0 <= i < |marriedTypes| && marriedTypes[i].marriedType == marriedType)
    {
      ValidKeysUnique();
      QueryFindsUniqueRow("MARRIED_TYPE", marriedTypes, MarriedCode, marriedType as int);
      var row :- QueryForObject("MARRIED_TYPE", marriedTypes, MarriedCode, marriedType as int);
      Success(row.marriedName)
    }

    function FindTreatedName(treatedType: int32): (r: Result<string, Fault>)
      ensures r.Success? ==>
        (exists i :: 0 <= i < |treatedTypes|
           && treatedTypes[i].treatedType == treatedType && treatedTypes[i].treatedName == r.value)
      ensures Valid() ==> (r.Success? <==>
        exists i :: 0 <= i < |treatedTypes| && treatedTypes[i].treatedType == treatedType)
    {
      ValidKeysUnique();
      QueryFindsUniqueRow("TREATED_TYPE", treatedTypes, TreatedCode, treatedType as int);
      var row :- QueryForObject("TREATED_TYPE", treatedTypes, TreatedCode, treatedType as int);
      Success(row.treatedName)
    }

    /** The store's monthly fee for one insurance type. */
    function FindMonthlyFee(insuranceType: int32): (r: Result<int32, Fault>)
      ensures r.Success? ==>
        (exists i :: 0 <= i < |insurances|
           && insurances[i].insuranceType == insuranceType && insurances[i].monthlyFee == r.value)
      ensures Valid() ==> (r.Success? <==>
        exists i :: 0 <= i < |insurances| && insurances[i].insuranceType == insuranceType)
    {
      QueryFindsUniqueRow("INSURANCE_TYPE", insurances, InsuranceCode, insuranceType as int);
      var row :- QueryForObject("INSURANCE_TYPE", insurances, InsuranceCode, insuranceType as int);
      Success(row.monthlyFee)
    }

    /** The adjustment rate stored for one age; an age the table lacks is a fault. */
    function FindAdjustmentRateByAge(age: int): (r: Result<real, Fault>)
      ensures r.Success? <==> age in adjustmentRates
      ensures r.Success? ==> r.value == adjustmentRates[age]
      ensures r.Failure? ==> r.error == IncorrectResultSize("AGE_ADJUSTMENT_RATE", age, 0)
    {
      if age in adjustmentRates then Success(adjustmentRates[age])
      else Failure(IncorrectResultSize("AGE_ADJUSTMENT_RATE", age, 0))
    }

    /**
     * The quote for an insurance type and a birth date, as of `today`: the age, the rate stored
     * for that age, and the annual fee from the monthly fee of the requested type.
     */
    function CalculateInsuranceFee(insuranceType: int32, dateOfBirth: Date, today: Date): (r: Result<EstimateResult, Fault>)
      ensures r.Success? ==> r.value.age == CalculateAge(dateOfBirth, today)
      ensures r.Success? ==>
        r.value.age in adjustmentRates && r.value.adjustmentRate == adjustmentRates[r.value.age]
      ensures r.Success? ==>
        (exists i :: 0 <= i < |insurances|
           && insurances[i].insuranceType == insuranceType
           && r.value.annualFee == AnnualFee(insurances[i].monthlyFee, r.value.adjustmentRate))
      ensures Valid() && r.Success? ==>
        (forall i :: 0 <= i < |insurances|
           && insurances[i].insuranceType == insuranceType
           ==> r.value.annualFee == AnnualFee(insurances[i].monthlyFee, r.value.adjustmentRate))
      ensures Valid() ==> (r.Success? <==>
        (exists i :: 0 <= i < |insurances| && insurances[i].insuranceType == insuranceType)
        && CalculateAge(dateOfBirth, today) in adjustmentRates)
    {
      var monthlyFee :- FindMonthlyFee(insuranceType);
      var age := CalculateAge(dateOfBirth, today);
      var rate :- FindAdjustmentRateByAge(age);
      Success(EstimateResult(AnnualFee(monthlyFee, rate), rate, age))
    }

    /** Persist one order: the order table gains exactly that order, unchanged, at its end. */
    method RegisterOrder(insuranceOrder: InsuranceOrder)
      modifies this`orders
      ensures orders == old(orders) + [insuranceOrder]
    {
      orders := orders + [insuranceOrder];
    }
  }

  /**
   * The service reads the clock once for the age check and again for the quote. The quoted age
   * is never below the 20 the check demanded, since the second reading is not earlier than the
   * first; it stays within 100 only when both readings fall on the same day.
   */
  lemma QuotedAgeAfterCheck(service: EstimateService, insuranceType: int32, dateOfBirth: Date,
                            checkedOn: Date, quotedOn: Date)
    requires 1 <= dateOfBirth.month <= 12 && 1 <= checkedOn.month <= 12 && 1 <= quotedOn.month <= 12
    requires IsAgeValid(dateOfBirth, checkedOn)
    requires !Before(quotedOn, checkedOn)
    requires service.CalculateInsuranceFee(insuranceType, dateOfBirth, quotedOn).Success?
    ensures var e := service.CalculateInsuranceFee(insuranceType, dateOfBirth, quotedOn).value;
      20 <= e.age && (checkedOn == quotedOn ==> e.age <= 100)
  {
    AgeMonotone(dateOfBirth, checkedOn, quotedOn);
  }

  /**
   * A check just before midnight and a quote just after can disagree: born 15 June 1923, the
   * customer is 100 on 14 June 2024 and passes, and is quoted at 101 on 15 June 2024.
   */
  lemma QuoteAfterMidnightLeavesWindow()
    ensures IsAgeValid(Date(1923, 6, 15), Date(2024, 6, 14))
    ensures CalculateAge(Date(1923, 6, 15), Date(2024, 6, 15)) == 101
    ensures !IsAgeValid(Date(1923, 6, 15), Date(2024, 6, 15))
  {
  }
}
