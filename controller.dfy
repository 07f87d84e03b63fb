/**
 * The page flow of the quote form. Each handler reads the submitted form, the binding errors of
 * bean validation (an input here: the form class and its rules are not part of this model) and
 * today's date, updates the request's Model and BindingResult, and names the page to render.
 * An exception that escapes a handler becomes a `ServerError` response.
 */
module Controller {

  import opened Wrappers
  import opened Domain
  import opened JavaText
  import opened Estimation
  import opened Service

  datatype FieldError = FieldError(objectName: string, field: string, defaultMessage: string)

  /** The error the age check attaches to the date-of-birth field. */
  const AGE_ERROR: FieldError :=
    FieldError("userOrderForm", "dateOfBirth", "年齢は20歳以上100歳以下である必要があります")

  /** The values a handler puts into the Model. */
  datatype Attribute =
    | Text(text: string)
    | ErrorList(errors: seq<FieldError>)
    | Quote(estimate: EstimateResult)
    | OrderForm(form: UserOrderForm)
    | Insurances(insurances: seq<InsuranceType>)
    | MarriedTypes(marriedTypes: seq<MarriedType>)
    | JobTypes(jobTypes: seq<JobType>)
    | TreatedTypes(treatedTypes: seq<TreatedType>)

  /** A rendered page ("input", "confirm", "result", "complete") or an escaped exception. */
  datatype Response = Page(view: string) | ServerError(fault: Fault)

  /** Spring's BindingResult, reduced to its list of errors. */
  class BindingResult {
    var errors: seq<FieldError>

    constructor (errors: seq<FieldError>)
      ensures this.errors == errors
    {
      this.errors := errors;
    }

    predicate HasErrors()
      reads this
    {
      errors != []
    }

    method AddError(error: FieldError)
      modifies this
      ensures errors == old(errors) + [error]
    {
      errors := errors + [error];
    }
  }

  /** Spring's Model: named attributes handed to the page. */
  class Model {
    var attributes: map<string, Attribute>

    constructor ()
      ensures attributes == map[]
    {
      attributes := map[];
    }

    method AddAttribute(name: string, value: Attribute)
      modifies this
      ensures attributes == old(attributes)[name := value]
    {
      attributes := attributes[name := value];
    }
  }

  /** `Integer.parseInt`, with its NumberFormatException as a fault. */
  function ParseCode(text: string): (r: Result<int32, Fault>)
    ensures r.Success? <==> ParseInt(text).Some?
    ensures r.Success? ==> r.value == ParseInt(text).value
    ensures r.Failure? ==> r.error == NumberFormat(text)
  {
    match ParseInt(text)
    case Some(n) => Success(n)
    case None => Failure(NumberFormat(text))
  }

  /**
   * The order built from a confirmed form: no id yet (the store assigns it), the five numeric
   * fields parsed in the order insurance type, marital status, job, income, medical history,
   * and every text field copied as it was entered. The first field that does not parse is the
   * fault.
   */
  function ToInsuranceOrder(form: UserOrderForm): (r: Result<InsuranceOrder, Fault>)
    ensures r.Success? <==>
      && ParseInt(form.insuranceType).Some? && ParseInt(form.marriedType).Some?
      && ParseInt(form.jobType).Some? && ParseInt(form.income).Some?
      && ParseInt(form.treatedType).Some?
    ensures r.Success? ==>
      && r.value.orderId == None
      && Some(r.value.insuranceType) == ParseInt(form.insuranceType)
      && Some(r.value.marriedType) == ParseInt(form.marriedType)
      && Some(r.value.jobType) == ParseInt(form.jobType)
      && Some(r.value.income) == ParseInt(form.income)
      && Some(r.value.treatedType) == ParseInt(form.treatedType)
    ensures r.Success? ==>
      && r.value.kanjiName == form.kanjiName && r.value.kanaName == form.kanaName
      && r.value.dateOfBirth == form.dateOfBirth && r.value.address == form.address
      && r.value.tel == form.tel && r.value.email == form.email
      && r.value.medicalHistory == form.medicalHistory
    ensures ParseInt(form.insuranceType).None? ==> r == Failure(NumberFormat(form.insuranceType))
    ensures ParseInt(form.insuranceType).Some? && ParseInt(form.marriedType).None? ==>
      r == Failure(NumberFormat(form.marriedType))
    ensures (ParseInt(form.insuranceType).Some? && ParseInt(form.marriedType).Some?
             && ParseInt(form.jobType).None?) ==>
      r == Failure(NumberFormat(form.jobType))
    ensures (ParseInt(form.insuranceType).Some? && ParseInt(form.marriedType).Some?
             && ParseInt(form.jobType).Some? && ParseInt(form.income).None?) ==>
      r == Failure(NumberFormat(form.income))
    ensures (ParseInt(form.insuranceType).Some? && ParseInt(form.marriedType).Some?
             && ParseInt(form.jobType).Some? && ParseInt(form.income).Some?
             && ParseInt(form.treatedType).None?) ==>
      r == Failure(NumberFormat(form.treatedType))
  {
    var insuranceType :- ParseCode(form.insuranceType);
    var marriedType :- ParseCode(form.marriedType);
    var jobType :- ParseCode(form.jobType);
    var income :- ParseCode(form.income);
    var treatedType :- ParseCode(form.treatedType);
    Success(InsuranceOrder(None, insuranceType, form.kanjiName, form.kanaName, form.dateOfBirth,
      form.address, form.tel, form.email, marriedType, jobType, income, treatedType,
      form.medicalHistory))
  }

  /** The form a not-yet-persisted order would be displayed as: numbers printed in decimal. */
  function FormOf(order: InsuranceOrder): UserOrderForm {
    UserOrderForm(order.kanjiName, order.kanaName, order.dateOfBirth, order.address, order.tel,
      order.email, IntToString(order.insuranceType as int), IntToString(order.marriedType as int),
      IntToString(order.jobType as int), IntToString(order.income as int),
      IntToString(order.treatedType as int), order.medicalHistory)
  }

  /** Converting a form to an order loses nothing: an order without an id comes back unchanged. */
  lemma ToInsuranceOrderOfFormOf(order: InsuranceOrder)
    requires order.orderId == None
    ensures ToInsuranceOrder(FormOf(order)) == Success(order)
  {
    ParseIntOfIntToString(order.insuranceType);
    ParseIntOfIntToString(order.marriedType);
    ParseIntOfIntToString(order.jobType);
    ParseIntOfIntToString(order.income);
    ParseIntOfIntToString(order.treatedType);
  }

  /** The model keys that `setSelectedOptionLabels` writes. */
  const LABEL_NAMES: set<string> := {"insuranceName", "marriedName", "jobName", "treatedName"}

  /** The model keys that `setOptionLabels` writes. */
  const OPTION_NAMES: set<string> := {"insurances", "marriedTypes", "jobTypes", "treatedTypes"}

  class EstimateController {
    const service: EstimateService

    constructor (service: EstimateService)
      ensures this.service == service
    {
      this.service := service;
    }

    /** The insurance label for the code typed into the form. */
    function FetchInsuranceName(insuranceType: string): (r: Result<string, Fault>)
      ensures r.Success? ==> ParseInt(insuranceType).Some?
      ensures r.Success? ==>
        (exists i :: 0 <= i < |service.insurances|
           && Some(service.insurances[i].insuranceType) == ParseInt(insuranceType)
           && service.insurances[i].insuranceName == r.value)
      ensures ParseInt(insuranceType).None? ==> r == Failure(NumberFormat(insuranceType))
      ensures service.Valid() ==> (r.Success? <==>
        exists i :: 0 <= i < |service.insurances| && Some(service.insurances[i].insuranceType) == ParseInt(insuranceType))
    {
      var code :- ParseCode(insuranceType);
      service.FindInsuranceName(code)
    }

    /** The marital-status label for the code in the form. */
    function FetchMarriedName(marriedType: string): (r: Result<string, Fault>)
      ensures r.Success? ==> ParseInt(marriedType).Some?
      ensures r.Success? ==>
        (exists i :: 0 <= i < |service.marriedTypes|
           && Some(service.marriedTypes[i].marriedType) == ParseInt(marriedType)
           && service.marriedTypes[i].marriedName == r.value)
      ensures ParseInt(marriedType).None? ==> r == Failure(NumberFormat(marriedType))
      ensures service.Valid() ==> (r.Success? <==>
        exists i :: 0 <= i < |service.marriedTypes| && Some(service.marriedTypes[i].marriedType) == ParseInt(marriedType))
    {
      var code :- ParseCode(marriedType);
      service.FindMarriedName(code)
    }

    /** The job label for the code in the form. */
    function FetchJobName(jobType: string): (r: Result<string, Fault>)
      ensures r.Success? ==> ParseInt(jobType).Some?
      ensures r.Success? ==>
        (exists i :: 0 <= i < |service.jobTypes|
           && Some(service.jobTypes[i].jobType) == ParseInt(jobType)
           && service.jobTypes[i].jobName == r.value)
      ensures ParseInt(jobType).None? ==> r == Failure(NumberFormat(jobType))
      ensures service.Valid() ==> (r.Success? <==>
        exists i :: 0 <= i < |service.jobTypes| && Some(service.jobTypes[i].jobType) == ParseInt(jobType))
    {
      var code :- ParseCode(jobType);
      service.FindJobName(code)
    }

    /** The medical-history label for the code in the form. */
    function FetchTreatedName(treatedType: string): (r: Result<string, Fault>)
      ensures r.Success? ==> ParseInt(treatedType).Some?
      ensures r.Success? ==>
        (exists i :: 0 <= i < |service.treatedTypes|
           && Some(service.treatedTypes[i].treatedType) == ParseInt(treatedType)
           && service.treatedTypes[i].treatedName == r.value)
      ensures ParseInt(treatedType).None? ==> r == Failure(NumberFormat(treatedType))
      ensures service.Valid() ==> (r.Success? <==>
        exists i :: 0 <= i < |service.treatedTypes| && Some(service.treatedTypes[i].treatedType) == ParseInt(treatedType))
    {
      var code :- ParseCode(treatedType);
      service.FindTreatedName(code)
    }

    /**
     * The Model after `setSelectedOptionLabels`: the four labels of the selected codes added,
     * every other attribute kept. The first label that cannot be fetched is the fault.
     */
    function WithSelectedLabels(attributes: map<string, Attribute>, form: UserOrderForm): (r: Result<map<string, Attribute>, Fault>)
      ensures r.Success? <==>
        && FetchInsuranceName(form.insuranceType).Success?
        && FetchMarriedName(form.marriedType).Success?
        && FetchJobName(form.jobType).Success?
        && FetchTreatedName(form.treatedType).Success?
      ensures r.Success? ==>
        && r.value.Keys == attributes.Keys + LABEL_NAMES
        && r.value["insuranceName"] == Text(FetchInsuranceName(form.insuranceType).value)
        && r.value["marriedName"] == Text(FetchMarriedName(form.marriedType).value)
        && r.value["jobName"] == Text(FetchJobName(form.jobType).value)
        && r.value["treatedName"] == Text(FetchTreatedName(form.treatedType).value)
      ensures r.Success? ==>
        forall name :: name in attributes && name !in LABEL_NAMES ==> r.value[name] == attributes[name]
      ensures FetchInsuranceName(form.insuranceType).Failure? ==>
        r == Failure(FetchInsuranceName(form.insuranceType).error)
      ensures (FetchInsuranceName(form.insuranceType).Success?
               && FetchMarriedName(form.marriedType).Failure?) ==>
        r == Failure(FetchMarriedName(form.marriedType).error)
      ensures (FetchInsuranceName(form.insuranceType).Success?
               && FetchMarriedName(form.marriedType).Success?
               && FetchJobName(form.jobType).Failure?) ==>
        r == Failure(FetchJobName(form.jobType).error)
      ensures (FetchInsuranceName(form.insuranceType).Success?
               && FetchMarriedName(form.marriedType).Success?
               && FetchJobName(form.jobType).Success?
               && FetchTreatedName(form.treatedType).Failure?) ==>
        r == Failure(FetchTreatedName(form.treatedType).error)
    {
      var insuranceName :- FetchInsuranceName(form.insuranceType);
      var marriedName :- FetchMarriedName(form.marriedType);
      var jobName :- FetchJobName(form.jobType);
      var treatedName :- FetchTreatedName(form.treatedType);
      Success(attributes["insuranceName" := Text(insuranceName)]["marriedName" := Text(marriedName)]
        ["jobName" := Text(jobName)]["treatedName" := Text(treatedName)])
    }

    /** Look up the label of each selected code and put it into the Model. */
    method SetSelectedOptionLabels(model: Model, form: UserOrderForm) returns (fault: Option<Fault>)
      modifies model
      ensures var labelled := WithSelectedLabels(old(model.attributes), form);
        && (fault.None? <==> labelled.Success?)
        && (labelled.Success? ==> model.attributes == labelled.value)
        && (labelled.Failure? ==> fault == Some(labelled.error))
    {
      var insuranceName := FetchInsuranceName(form.insuranceType);
      if insuranceName.Failure? { return Some(insuranceName.error); }
      model.AddAttribute("insuranceName", Text(insuranceName.value));

      var marriedName := FetchMarriedName(form.marriedType);
      if marriedName.Failure? { return Some(marriedName.error); }
      model.AddAttribute("marriedName", Text(marriedName.value));

      var jobName := FetchJobName(form.jobType);
      if jobName.Failure? { return Some(jobName.error); }
      model.AddAttribute("jobName", Text(jobName.value));

      var treatedName := FetchTreatedName(form.treatedType);
      if treatedName.Failure? { return Some(treatedName.error); }
      model.AddAttribute("treatedName", Text(treatedName.value));
      return None;
    }

    /** The Model after `setOptionLabels`: every choice of every reference table, the rest kept. */
    function WithOptionLabels(attributes: map<string, Attribute>): (r: map<string, Attribute>)
      ensures r.Keys == attributes.Keys + OPTION_NAMES
      ensures r["insurances"] == Insurances(service.insurances)
      ensures r["marriedTypes"] == MarriedTypes(service.marriedTypes)
      ensures r["jobTypes"] == JobTypes(service.jobTypes)
      ensures r["treatedTypes"] == TreatedTypes(service.treatedTypes)
      ensures forall name :: name in attributes && name !in OPTION_NAMES ==> r[name] == attributes[name]
    {
      attributes["insurances" := Insurances(service.GetInsurances())]
        ["marriedTypes" := MarriedTypes(service.GetMarriedTypes())]
        ["jobTypes" := JobTypes(service.GetJobTypes())]
        ["treatedTypes" := TreatedTypes(service.GetTreatedTypes())]
    }

    /** Put every choice of every reference table into the Model. */
    method SetOptionLabels(model: Model)
      modifies model
      ensures model.attributes == WithOptionLabels(old(model.attributes))
    {
      model.AddAttribute("insurances", Insurances(service.GetInsurances()));
      model.AddAttribute("marriedTypes", MarriedTypes(service.GetMarriedTypes()));
      model.AddAttribute("jobTypes", JobTypes(service.GetJobTypes()));
      model.AddAttribute("treatedTypes", TreatedTypes(service.GetTreatedTypes()));
    }

    /**
     * The form shown before anything is entered: every text field empty, and marital status,
     * job and medical history preset to the first choice the store lists. An empty list is an
     * IndexOutOfBounds fault.
     */
    function EmptyForm(): (r: Result<UserOrderForm, Fault>)
      ensures r.Success? <==>
        |service.marriedTypes| > 0 && |service.jobTypes| > 0 && |service.treatedTypes| > 0
      ensures r.Success? ==>
        && r.value.kanjiName == "" && r.value.kanaName == "" && r.value.dateOfBirth == ""
        && r.value.address == "" && r.value.tel == "" && r.value.email == ""
        && r.value.insuranceType == "" && r.value.income == "" && r.value.medicalHistory == ""
      ensures r.Success? ==>
        && ParseInt(r.value.marriedType) == Some(service.marriedTypes[0].marriedType)
        && ParseInt(r.value.jobType) == Some(service.jobTypes[0].jobType)
        && ParseInt(r.value.treatedType) == Some(service.treatedTypes[0].treatedType)
      ensures |service.marriedTypes| == 0 ==> r == Failure(IndexOutOfBounds("marriedTypes"))
      ensures |service.marriedTypes| > 0 && |service.jobTypes| == 0 ==>
        r == Failure(IndexOutOfBounds("jobTypes"))
      ensures |service.marriedTypes| > 0 && |service.jobTypes| > 0 && |service.treatedTypes| == 0 ==>
        r == Failure(IndexOutOfBounds("treatedTypes"))
    {
      var marriedTypes, jobTypes, treatedTypes :=
        service.GetMarriedTypes(), service.GetJobTypes(), service.GetTreatedTypes();
      if |marriedTypes| == 0 then Failure(IndexOutOfBounds("marriedTypes"))
      else if |jobTypes| == 0 then Failure(IndexOutOfBounds("jobTypes"))
      else if |treatedTypes| == 0 then Failure(IndexOutOfBounds("treatedTypes"))
      else
        var married, job, treated := marriedTypes[0].marriedType, jobTypes[0].jobType, treatedTypes[0].treatedType;
        ParseIntOfIntToString(married);
        ParseIntOfIntToString(job);
        ParseIntOfIntToString(treated);
        Success(UserOrderForm("", "", "", "", "", "", "", IntToString(married as int),
          IntToString(job as int), "", IntToString(treated as int), ""))
    }

    /**
     * With the store's descending order, the preset marital status and medical history are the
     * choices with the highest code ("has spouse", "yes").
     */
    lemma EmptyFormPresetsHighestCodes()
      requires service.Valid()
      requires |service.marriedTypes| > 0 && |service.jobTypes| > 0 && |service.treatedTypes| > 0
      ensures forall i :: 0 <= i < |service.marriedTypes| ==>
        service.marriedTypes[i].marriedType <= ParseInt(EmptyForm().value.marriedType).value
      ensures forall i :: 0 <= i < |service.treatedTypes| ==>
        service.treatedTypes[i].treatedType <= ParseInt(EmptyForm().value.treatedType).value
    {
      forall i | 0 <= i < |service.marriedTypes|
        ensures service.marriedTypes[i].marriedType <= service.marriedTypes[0].marriedType
      {
        DescendingFirstIsLargest(service.marriedTypes, MarriedCode, i);
      }
      forall i | 0 <= i < |service.treatedTypes|
        ensures service.treatedTypes[i].treatedType <= service.treatedTypes[0].treatedType
      {
        DescendingFirstIsLargest(service.treatedTypes, TreatedCode, i);
      }
    }

    /** GET /start: the empty form and every choice, on the input page. */
    method Start(model: Model) returns (r: Response)
      modifies model
      ensures EmptyForm().Failure? ==>
        r == ServerError(EmptyForm().error) && model.attributes == old(model.attributes)
      ensures EmptyForm().Success? ==>
        && r == Page("input")
        && model.attributes == WithOptionLabels(old(model.attributes)["userOrderForm" := OrderForm(EmptyForm().value)])
    {
      var form := EmptyForm();
      if form.Failure? { return ServerError(form.error); }
      model.AddAttribute("userOrderForm", OrderForm(form.value));
      SetOptionLabels(model);
      return Page("input");
    }

    /** POST /confirm: show the entered values with the labels of the selected codes. */
    method Confirm(form: UserOrderForm, model: Model) returns (r: Response)
      modifies model
      ensures var labelled := WithSelectedLabels(old(model.attributes), form);
        && (labelled.Failure? ==> r == ServerError(labelled.error))
        && (labelled.Success? ==> r == Page("confirm") && model.attributes == labelled.value)
    {
      var fault := SetSelectedOptionLabels(model, form);
      if fault.Some? { return ServerError(fault.value); }
      return Page("confirm");
    }

    /**
     * POST /estimate (proceed): binding errors, then the age check, then the quote.
     * Labels are fetched first, so a code that does not parse or has no label ends the request
     * with a server error even when there are binding errors. The service reads the clock twice:
     * `checkedOn` is the date the age check sees, `quotedOn` the later reading the quote is
     * computed on.
     */
    method Estimate(form: UserOrderForm, result: BindingResult, model: Model, checkedOn: Date, quotedOn: Date) returns (r: Response)
      modifies result, model
      ensures var labelled := WithSelectedLabels(old(model.attributes), form);
        labelled.Failure? ==> r == ServerError(labelled.error) && result.errors == old(result.errors)
      ensures var labelled := WithSelectedLabels(old(model.attributes), form);
        labelled.Success? && old(result.HasErrors()) ==>
          && r == Page("confirm")
          && result.errors == old(result.errors)
          && model.attributes == labelled.value["errors" := ErrorList(old(result.errors))]
      ensures var labelled := WithSelectedLabels(old(model.attributes), form);
        labelled.Success? && !old(result.HasErrors()) && ParseDate(form.dateOfBirth).None? ==>
          && r == ServerError(DateTimeParse(form.dateOfBirth))
          && result.errors == old(result.errors)
          && model.attributes == labelled.value
      ensures var labelled := WithSelectedLabels(old(model.attributes), form);
        var dateOfBirth := ParseDate(form.dateOfBirth);
        labelled.Success? && !old(result.HasErrors()) && dateOfBirth.Some?
        && !IsAgeValid(dateOfBirth.value, checkedOn) ==>
          && r == Page("confirm")
          && result.errors == old(result.errors) + [AGE_ERROR]
          && model.attributes == labelled.value["errors" := ErrorList(result.errors)]
      ensures var labelled := WithSelectedLabels(old(model.attributes), form);
        var dateOfBirth := ParseDate(form.dateOfBirth);
        labelled.Success? && !old(result.HasErrors()) && dateOfBirth.Some?
        && IsAgeValid(dateOfBirth.value, checkedOn) ==>
          var estimate := service.CalculateInsuranceFee(ParseInt(form.insuranceType).value, dateOfBirth.value, quotedOn);
          && result.errors == old(result.errors)
          && (estimate.Failure? ==> r == ServerError(estimate.error) && model.attributes == labelled.value)
          && (estimate.Success? ==>
                r == Page("result") && model.attributes == labelled.value["estimateResult" := Quote(estimate.value)])
      ensures r.Page? ==> r.view == "confirm" || r.view == "result"
      ensures r == Page("result") ==>
        && !old(result.HasErrors())
        && ParseDate(form.dateOfBirth).Some?
        && IsAgeValid(ParseDate(form.dateOfBirth).value, checkedOn)
    {
      var fault := SetSelectedOptionLabels(model, form);
      if fault.Some? { return ServerError(fault.value); }

      if result.HasErrors() {
        model.AddAttribute("errors", ErrorList(result.errors));
        return Page("confirm");
      }

      var dateOfBirth := ParseDate(form.dateOfBirth);
      if dateOfBirth.None? { return ServerError(DateTimeParse(form.dateOfBirth)); }
      if !IsAgeValid(dateOfBirth.value, checkedOn) {
        result.AddError(AGE_ERROR);
        model.AddAttribute("errors", ErrorList(result.errors));
        return Page("confirm");
      }

      // parsed once already while fetching the insurance label
      var insuranceType := ParseInt(form.insuranceType).value;
      var estimate := service.CalculateInsuranceFee(insuranceType, dateOfBirth.value, quotedOn);
      if estimate.Failure? { return ServerError(estimate.error); }
      model.AddAttribute("estimateResult", Quote(estimate.value));
      return Page("result");
    }

    /** POST /estimate (backToInput): every choice again, on the input page; no validation. */
    method BackToInput(form: UserOrderForm, model: Model) returns (r: Response)
      modifies model
      ensures r == Page("input")
      ensures model.attributes == WithOptionLabels(old(model.attributes))
    {
      SetOptionLabels(model);
      return Page("input");
    }

    /**
     * POST /order (proceed): binding errors, then the age check, then the order is stored.
     * The order table changes only on the path that ends on the "complete" page.
     */
    method Order(form: UserOrderForm, result: BindingResult, model: Model, today: Date) returns (r: Response)
      modifies result, model, service
      ensures old(result.HasErrors()) ==>
        var insuranceName := FetchInsuranceName(form.insuranceType);
        && result.errors == old(result.errors)
        && (insuranceName.Failure? ==>
              && r == ServerError(insuranceName.error)
              && model.attributes == old(model.attributes)["errors" := ErrorList(old(result.errors))])
        && (insuranceName.Success? ==>
              && r == Page("confirm")
              && model.attributes == old(model.attributes)["errors" := ErrorList(old(result.errors))]
                   ["insuranceName" := Text(insuranceName.value)])
      ensures !old(result.HasErrors()) && ParseDate(form.dateOfBirth).None? ==>
        r == ServerError(DateTimeParse(form.dateOfBirth))
        && result.errors == old(result.errors) && model.attributes == old(model.attributes)
      ensures var dateOfBirth := ParseDate(form.dateOfBirth);
        !old(result.HasErrors()) && dateOfBirth.Some? && !IsAgeValid(dateOfBirth.value, today) ==>
          && r == Page("confirm")
          && result.errors == old(result.errors) + [AGE_ERROR]
          && model.attributes == old(model.attributes)["errors" := ErrorList(result.errors)]
      ensures var dateOfBirth := ParseDate(form.dateOfBirth);
        !old(result.HasErrors()) && dateOfBirth.Some? && IsAgeValid(dateOfBirth.value, today) ==>
          && result.errors == old(result.errors)
          && model.attributes == old(model.attributes)
          && (ToInsuranceOrder(form).Failure? ==> r == ServerError(ToInsuranceOrder(form).error))
          && (ToInsuranceOrder(form).Success? ==> r == Page("complete"))
      ensures r == Page("complete") <==>
        && !old(result.HasErrors())
        && ParseDate(form.dateOfBirth).Some?
        && IsAgeValid(ParseDate(form.dateOfBirth).value, today)
        && ToInsuranceOrder(form).Success?
      ensures service.orders ==
        if r == Page("complete") then old(service.orders) + [ToInsuranceOrder(form).value]
        else old(service.orders)
      ensures r.Page? ==> r.view == "confirm" || r.view == "complete"
    {
      if result.HasErrors() {
        model.AddAttribute("errors", ErrorList(result.errors));
        var insuranceName := FetchInsuranceName(form.insuranceType);
        if insuranceName.Failure? { return ServerError(insuranceName.error); }
        model.AddAttribute("insuranceName", Text(insuranceName.value));
        return Page("confirm");
      }

      var dateOfBirth := ParseDate(form.dateOfBirth);
      if dateOfBirth.None? { return ServerError(DateTimeParse(form.dateOfBirth)); }
      if !IsAgeValid(dateOfBirth.value, today) {
        result.AddError(AGE_ERROR);
        model.AddAttribute("errors", ErrorList(result.errors));
        return Page("confirm");
      }

      var insuranceOrder := ToInsuranceOrder(form);
      if insuranceOrder.Failure? { return ServerError(insuranceOrder.error); }
      service.RegisterOrder(insuranceOrder.value);
      return Page("complete");
    }

    /** POST /order (backToConfirm): the labels again, on the confirm page; no validation. */
    method BackToConfirm(form: UserOrderForm, model: Model) returns (r: Response)
      modifies model
      ensures var labelled := WithSelectedLabels(old(model.attributes), form);
        && (labelled.Failure? ==> r == ServerError(labelled.error))
        && (labelled.Success? ==> r == Page("confirm") && model.attributes == labelled.value)
    {
      var fault := SetSelectedOptionLabels(model, form);
      if fault.Some? { return ServerError(fault.value); }
      return Page("confirm");
    }
  }
}
