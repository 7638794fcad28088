/** The batch production form (src/pages/BatchCreation/BatchProductionPage.jsx):
    create a batch, or edit one when the route carries an id. Covered here: the
    validation schema with its expiry-after-manufacture test, the mapping of a
    loaded batch into form values, and the choice of request on submit. */
module BatchProduction {
  import opened Wrappers
  import opened Text
  import opened Fetch

  // ----------------------------------------------------------------------
  // Calendar dates and their YYYY-MM-DD text
  // ----------------------------------------------------------------------

  datatype CalendarDate = CalendarDate(year: nat, month: nat, day: nat)

  /** The dates a date input can hold: a four-digit year, a month and a
      day of month. */
  predicate ValidDate(d: CalendarDate)
  {
    d.year < 10000 && 1 <= d.month <= 12 && 1 <= d.day <= 31
  }

  /** `dayjs(date).format("YYYY-MM-DD")` */
  function FormatDate(d: CalendarDate): string
  {
    Join([ZeroPad(NatToDecimal(d.year), 4), ZeroPad(NatToDecimal(d.month), 2),
          ZeroPad(NatToDecimal(d.day), 2)], "-")
  }

  /** A `YYYY-MM-DD` text read as a date; `None` for anything else. */
  function ParseDate(s: string): (r: Option<CalendarDate>)
    ensures r.Some? ==> ValidDate(r.value)
  {
    var parts := Split(s, "-");
    if |parts| == 3 && |parts[0]| == 4 && |parts[1]| == 2 && |parts[2]| == 2
       && AllDigits(parts[0]) && AllDigits(parts[1]) && AllDigits(parts[2])
    then
      var d := CalendarDate(DecimalValue(parts[0]), DecimalValue(parts[1]), DecimalValue(parts[2]));
      assert d.year < 10000 by { DigitsBound(parts[0]); }
      if ValidDate(d) then Some(d) else None
    else None
  }

  lemma {:induction false} DigitsBound(s: string)
    requires AllDigits(s)
    ensures DecimalValue(s) < Pow10(|s|)
    decreases |s|
  {
    if s != [] {
      DigitsBound(s[..|s| - 1]);
    }
  }

  lemma PaddedField(n: nat, width: nat)
    requires 1 <= width && n < Pow10(width)
    ensures |ZeroPad(NatToDecimal(n), width)| == width
    ensures AllDigits(ZeroPad(NatToDecimal(n), width))
    ensures DecimalValue(ZeroPad(NatToDecimal(n), width)) == n
    ensures '-' !in ZeroPad(NatToDecimal(n), width)
  {
    var s := ZeroPad(NatToDecimal(n), width);
    DecimalLength(n, width);
    ZeroPadLength(NatToDecimal(n), width);
    ZeroPadValue(NatToDecimal(n), width);
    DecimalRoundTrip(n);
    forall i | 0 <= i < |s| ensures s[i] != '-' {
      assert IsDigit(s[i]);
    }
  }

  /** Reading back a formatted date gives the date. */
  lemma ParseFormatDate(d: CalendarDate)
    requires ValidDate(d)
    ensures ParseDate(FormatDate(d)) == Some(d)
  {
    var parts := [ZeroPad(NatToDecimal(d.year), 4), ZeroPad(NatToDecimal(d.month), 2),
                  ZeroPad(NatToDecimal(d.day), 2)];
    assert Pow10(2) == 100 && Pow10(4) == 10000 by {
      assert Pow10(1) == 10;
      assert Pow10(3) == 1000;
    }
    PaddedField(d.year, 4);
    PaddedField(d.month, 2);
    PaddedField(d.day, 2);
    SplitJoin(parts, "-");
  }

  /** Distinct valid dates have distinct texts. */
  lemma FormatDateInjective(a: CalendarDate, b: CalendarDate)
    requires ValidDate(a) && ValidDate(b)
    ensures FormatDate(a) == FormatDate(b) ==> a == b
  {
    ParseFormatDate(a);
    ParseFormatDate(b);
  }

  /** `dayjs(b).isAfter(dayjs(a))` for dates at the same time of day. */
  predicate Before(a: CalendarDate, b: CalendarDate)
  {
    a.year < b.year
    || (a.year == b.year && a.month < b.month)
    || (a.year == b.year && a.month == b.month && a.day < b.day)
  }

  /** `Before` is a strict total order: irreflexive, transitive, and any two
      different dates are ordered one way or the other. */
  lemma BeforeStrictTotal(a: CalendarDate, b: CalendarDate, c: CalendarDate)
    ensures !Before(a, a)
    ensures Before(a, b) && Before(b, c) ==> Before(a, c)
    ensures a != b ==> (Before(a, b) <==> !Before(b, a))
  {
  }

  // ----------------------------------------------------------------------
  // Form values and the validation schema
  // ----------------------------------------------------------------------

  /** A date field's value: `null` until the input is touched, then the
      input's text (empty when cleared). */
  datatype DateInput = Unset | Entered(text: string)

  datatype BatchForm = BatchForm(
    batch_number: string, product_name: string, identification_number: string,
    manufacture_date: DateInput, expiry_date: DateInput)

  /** The form's `defaultValues` at mount. A `reset(values)` makes its values
      the new default values, so a later bare `reset()` restores the last
      values given to `reset`, not these. */
  const DefaultForm := BatchForm("", "", "", Unset, Unset)

  /** What a `date().nullable()` field casts its value to. */
  datatype DateValue = NoDate | ADate(date: CalendarDate) | InvalidDate

  function CastDate(v: DateInput): DateValue
  {
    match v
    case Unset => NoDate
    case Entered(s) =>
      match ParseDate(s)
      case Some(d) => ADate(d)
      case None => InvalidDate
  }

  /** The `is-after-manufacture` test: it passes when either date is missing,
      and otherwise only when the expiry date is strictly later. An invalid
      manufacture date is a truthy value that no date is after. */
  predicate ExpiryAfterManufacture(manufacture: DateValue, expiry: DateValue)
  {
    expiry.NoDate? || manufacture.NoDate?
    || (manufacture.ADate? && expiry.ADate? && Before(manufacture.date, expiry.date))
  }

  datatype Field = BatchNumberField | ProductNameField | ManufactureDateField | ExpiryDateField

  datatype Problem = Required(message: string) | NotADate | ExpiryNotAfter(message: string)

  datatype FieldError = FieldError(field: Field, problem: Problem)

  const BatchNumberRequired := "Batch number is required"
  const ProductNameRequired := "Product name is required"
  const ExpiryMessage := "Expiry date must be after manufacture date"

  function ErrorIf(fails: bool, e: FieldError): seq<FieldError>
  {
    if fails then [e] else []
  }

  /** The expiry field's errors: a value that is not a date reports only
      that; otherwise the `is-after-manufacture` test runs. */
  function ExpiryErrors(manufacture: DateValue, expiry: DateValue): seq<FieldError>
  {
    if expiry.InvalidDate? then [FieldError(ExpiryDateField, NotADate)]
    else ErrorIf(!ExpiryAfterManufacture(manufacture, expiry), FieldError(ExpiryDateField, ExpiryNotAfter(ExpiryMessage)))
  }

  /** The schema's verdict: the errors of all fields, in schema order. */
  function Validate(f: BatchForm): (errors: seq<FieldError>)
    ensures |errors| <= 4
    ensures forall i, j :: 0 <= i < j < |errors| ==> errors[i].field != errors[j].field
  {
    var manufacture, expiry := CastDate(f.manufacture_date), CastDate(f.expiry_date);
    ErrorIf(f.batch_number == "", FieldError(BatchNumberField, Required(BatchNumberRequired)))
    + ErrorIf(f.product_name == "", FieldError(ProductNameField, Required(ProductNameRequired)))
    + ErrorIf(manufacture.InvalidDate?, FieldError(ManufactureDateField, NotADate))
    + ExpiryErrors(manufacture, expiry)
  }

  predicate Reports(errors: seq<FieldError>, field: Field)
  {
    exists i :: 0 <= i < |errors| && errors[i].field == field
  }

  lemma ReportsAppend(a: seq<FieldError>, b: seq<FieldError>, field: Field)
    ensures Reports(a + b, field) <==> Reports(a, field) || Reports(b, field)
  {
    if Reports(a + b, field) {
      var i :| 0 <= i < |a + b| && (a + b)[i].field == field;
      if i >= |a| {
        assert b[i - |a|] == (a + b)[i];
      }
    }
    if Reports(a, field) {
      var i :| 0 <= i < |a| && a[i].field == field;
      assert (a + b)[i] == a[i];
    }
    if Reports(b, field) {
      var i :| 0 <= i < |b| && b[i].field == field;
      assert (a + b)[|a| + i] == b[i];
    }
  }

  lemma ReportsSingle(fails: bool, e: FieldError, field: Field)
    ensures Reports(ErrorIf(fails, e), field) <==> fails && e.field == field
  {
    if fails && e.field == field {
      assert ErrorIf(fails, e)[0] == e;
    }
  }

  /** Each field is reported exactly when its own rule fails: the batch
      number and product name are required; the identification number never
      is; a date field only when its text is not a date; the expiry date
      also when it is not after the manufacture date. */
  lemma ValidateReports(f: BatchForm)
    ensures Reports(Validate(f), BatchNumberField) <==> f.batch_number == ""
    ensures Reports(Validate(f), ProductNameField) <==> f.product_name == ""
    ensures Reports(Validate(f), ManufactureDateField) <==> CastDate(f.manufacture_date).InvalidDate?
    ensures Reports(Validate(f), ExpiryDateField) <==>
      CastDate(f.expiry_date).InvalidDate?
      || !ExpiryAfterManufacture(CastDate(f.manufacture_date), CastDate(f.expiry_date))
  {
    var manufacture, expiry := CastDate(f.manufacture_date), CastDate(f.expiry_date);
    var e1 := ErrorIf(f.batch_number == "", FieldError(BatchNumberField, Required(BatchNumberRequired)));
    var e2 := ErrorIf(f.product_name == "", FieldError(ProductNameField, Required(ProductNameRequired)));
    var e3 := ErrorIf(manufacture.InvalidDate?, FieldError(ManufactureDateField, NotADate));
    var e4 := ExpiryErrors(manufacture, expiry);
    assert Validate(f) == e1 + e2 + e3 + e4;
    forall field: Field
      ensures Reports(Validate(f), field) <==>
        Reports(e1, field) || Reports(e2, field) || Reports(e3, field) || Reports(e4, field)
    {
      ReportsAppend(e1, e2, field);
      ReportsAppend(e1 + e2, e3, field);
      ReportsAppend(e1 + e2 + e3, e4, field);
    }
    forall field: Field
      ensures Reports(e1, field) <==> f.batch_number == "" && field == BatchNumberField
      ensures Reports(e2, field) <==> f.product_name == "" && field == ProductNameField
      ensures Reports(e3, field) <==> manufacture.InvalidDate? && field == ManufactureDateField
      ensures Reports(e4, field) <==>
        (expiry.InvalidDate? || !ExpiryAfterManufacture(manufacture, expiry)) && field == ExpiryDateField
    {
      ReportsSingle(f.batch_number == "", FieldError(BatchNumberField, Required(BatchNumberRequired)), field);
      ReportsSingle(f.product_name == "", FieldError(ProductNameField, Required(ProductNameRequired)), field);
      ReportsSingle(manufacture.InvalidDate?, FieldError(ManufactureDateField, NotADate), field);
      if expiry.InvalidDate? {
        if field == ExpiryDateField {
          assert e4[0].field == field;
        }
      } else {
        ReportsSingle(!ExpiryAfterManufacture(manufacture, expiry),
                      FieldError(ExpiryDateField, ExpiryNotAfter(ExpiryMessage)), field);
      }
    }
  }

  /** The form passes exactly when every rule holds. */
  lemma ValidateEmpty(f: BatchForm)
    ensures Validate(f) == [] <==>
      f.batch_number != "" && f.product_name != ""
      && !CastDate(f.manufacture_date).InvalidDate? && !CastDate(f.expiry_date).InvalidDate?
      && ExpiryAfterManufacture(CastDate(f.manufacture_date), CastDate(f.expiry_date))
  {
    ValidateReports(f);
    var e := Validate(f);
    if e != [] {
      assert Reports(e, e[0].field);
    }
  }

  /** The expiry test passes whenever one of the two dates is missing. */
  lemma MissingDatePasses(f: BatchForm)
    requires f.manufacture_date.Unset? || f.expiry_date.Unset?
    ensures !CastDate(f.expiry_date).InvalidDate? ==> !Reports(Validate(f), ExpiryDateField)
  {
    ValidateReports(f);
  }

  /** The same date entered as manufacture and expiry date fails the test:
      the expiry date must be strictly later. */
  lemma SameDateFails(f: BatchForm, d: CalendarDate)
    requires ValidDate(d)
    requires f.manufacture_date == Entered(FormatDate(d)) && f.expiry_date == Entered(FormatDate(d))
    ensures Reports(Validate(f), ExpiryDateField)
    ensures exists i :: 0 <= i < |Validate(f)| && Validate(f)[i] == FieldError(ExpiryDateField, ExpiryNotAfter(ExpiryMessage))
  {
    ParseFormatDate(d);
    BeforeStrictTotal(d, d, d);
    var e := Validate(f);
    assert e[|e| - 1] == FieldError(ExpiryDateField, ExpiryNotAfter(ExpiryMessage));
    ValidateReports(f);
  }

  // ----------------------------------------------------------------------
  // Loading a batch for editing
  // ----------------------------------------------------------------------

  /** A batch as the backend returns it. */
  datatype LoadedBatch = LoadedBatch(
    batch_number: Option<string>, product_name: Option<string>,
    identification_number: Option<string>,
    manufacture_date: Option<CalendarDate>, expiry_date: Option<CalendarDate>)

  function DateField(d: Option<CalendarDate>): DateInput
  {
    match d
    case None => Unset
    case Some(date) => Entered(FormatDate(date))
  }

  /** The values `reset` receives for a loaded batch. */
  function ResetValues(data: LoadedBatch): BatchForm
  {
    BatchForm(OrEmpty(data.batch_number), OrEmpty(data.product_name),
              OrEmpty(data.identification_number),
              DateField(data.manufacture_date), DateField(data.expiry_date))
  }

  /** A missing or empty text becomes "", a present one is kept; a missing
      date becomes `null`, a present one its YYYY-MM-DD text, which the
      schema reads back as the same date. */
  lemma ResetValuesFields(data: LoadedBatch)
    requires data.manufacture_date.Some? ==> ValidDate(data.manufacture_date.value)
    requires data.expiry_date.Some? ==> ValidDate(data.expiry_date.value)
    ensures var f := ResetValues(data);
      && (f.batch_number == "" <==> !Truthy(data.batch_number))
      && (Truthy(data.batch_number) ==> f.batch_number == data.batch_number.value)
      && (f.product_name == "" <==> !Truthy(data.product_name))
      && (Truthy(data.product_name) ==> f.product_name == data.product_name.value)
      && (Truthy(data.identification_number) ==> f.identification_number == data.identification_number.value)
      && (!Truthy(data.identification_number) ==> f.identification_number == "")
      && (f.manufacture_date.Unset? <==> data.manufacture_date.None?)
      && (f.expiry_date.Unset? <==> data.expiry_date.None?)
      && CastDate(f.manufacture_date) == (if data.manufacture_date.Some? then ADate(data.manufacture_date.value) else NoDate)
      && CastDate(f.expiry_date) == (if data.expiry_date.Some? then ADate(data.expiry_date.value) else NoDate)
  {
    if data.manufacture_date.Some? {
      ParseFormatDate(data.manufacture_date.value);
    }
    if data.expiry_date.Some? {
      ParseFormatDate(data.expiry_date.value);
    }
  }

  /** Re-validating a loaded batch judges its own dates: the expiry rule
      fails exactly when both dates are present and expiry is not after
      manufacture. */
  lemma ResetValuesExpiry(data: LoadedBatch)
    requires data.manufacture_date.Some? ==> ValidDate(data.manufacture_date.value)
    requires data.expiry_date.Some? ==> ValidDate(data.expiry_date.value)
    ensures Reports(Validate(ResetValues(data)), ExpiryDateField) <==>
      data.manufacture_date.Some? && data.expiry_date.Some?
      && !Before(data.manufacture_date.value, data.expiry_date.value)
    ensures !Reports(Validate(ResetValues(data)), ManufactureDateField)
  {
    ResetValuesFields(data);
    ValidateReports(ResetValues(data));
  }

  /** The form after the edit-mode load settles: the loaded values, or the
      current values when the request fails or returns no batch (reading a
      field of `null` throws and is caught). */
  function FormAfterLoad(current: BatchForm, outcome: Result<Option<LoadedBatch>>): (f: BatchForm)
    ensures outcome.Ok? && outcome.value.Some? ==> f == ResetValues(outcome.value.value)
    ensures !(outcome.Ok? && outcome.value.Some?) ==> f == current
  {
    match outcome
    case Ok(Some(data)) => ResetValues(data)
    case _ => current
  }

  // ----------------------------------------------------------------------
  // Submitting
  // ----------------------------------------------------------------------

  /** `!!id` */
  predicate EditMode(routeId: Option<string>)
  {
    Truthy(routeId)
  }

  /** The values `handleSubmit` passes to `onSubmit`: the schema's cast of
      the form, the texts as entered and each date field as the date it
      reads (or `null`). */
  datatype SentBatch = SentBatch(
    batch_number: string, product_name: string, identification_number: string,
    manufacture_date: DateValue, expiry_date: DateValue)

  function Cast(f: BatchForm): SentBatch
  {
    SentBatch(f.batch_number, f.product_name, f.identification_number,
              CastDate(f.manufacture_date), CastDate(f.expiry_date))
  }

  /** `handleSubmit(onSubmit)`: nothing is sent unless the schema passes;
      then a PUT to the batch in edit mode and a POST to the collection
      otherwise, with the cast values as body. */
  function SubmitRequest(api: string, routeId: Option<string>, f: BatchForm): (r: Option<Request<SentBatch>>)
    ensures r.Some? <==> Validate(f) == []
    ensures r.Some? ==> r.value.body == Cast(f)
    ensures r.Some? ==> (r.value.verb == Put <==> EditMode(routeId))
    ensures r.Some? && EditMode(routeId) ==> r.value.url == api + "/batches/" + routeId.value
    ensures r.Some? && !EditMode(routeId) ==> r.value.verb == Post && r.value.url == api + "/batches"
  {
    if Validate(f) != [] then None
    else if EditMode(routeId) then Some(Request(Put, api + "/batches/" + routeId.value, Cast(f)))
    else Some(Request(Post, api + "/batches", Cast(f)))
  }

  /** Only a form that meets every rule is ever sent: the body carries both
      required texts, no invalid date, and, when both dates are present, an
      expiry strictly after manufacture. */
  lemma SentFormsAreValid(api: string, routeId: Option<string>, f: BatchForm)
    requires SubmitRequest(api, routeId, f).Some?
    ensures var b := SubmitRequest(api, routeId, f).value.body;
      && b.batch_number != "" && b.product_name != ""
      && !b.manufacture_date.InvalidDate? && !b.expiry_date.InvalidDate?
      && (b.manufacture_date.ADate? && b.expiry_date.ADate? ==> Before(b.manufacture_date.date, b.expiry_date.date))
  {
    ValidateEmpty(f);
  }

  /** Saving a loaded batch unchanged sends back the dates it was loaded
      with, and the save goes through exactly when its texts are present and
      its dates, when both are there, are in order. */
  lemma ResubmitLoadedBatch(api: string, id: string, data: LoadedBatch)
    requires data.manufacture_date.Some? ==> ValidDate(data.manufacture_date.value)
    requires data.expiry_date.Some? ==> ValidDate(data.expiry_date.value)
    ensures var r := SubmitRequest(api, Some(id), ResetValues(data));
      && (r.Some? <==>
           Truthy(data.batch_number) && Truthy(data.product_name)
           && (data.manufacture_date.Some? && data.expiry_date.Some? ==>
                 Before(data.manufacture_date.value, data.expiry_date.value)))
      && (r.Some? ==>
           r.value.body.manufacture_date == (if data.manufacture_date.Some? then ADate(data.manufacture_date.value) else NoDate)
           && r.value.body.expiry_date == (if data.expiry_date.Some? then ADate(data.expiry_date.value) else NoDate))
  {
    ResetValuesFields(data);
    ValidateEmpty(ResetValues(data));
  }

  datatype AfterSubmit = AfterSubmit(form: BatchForm, navigateTo: Option<string>)

  /** The default values once the edit-mode load has settled: the loaded
      values after a successful load, since `reset(values)` replaces the
      defaults, and the mount-time defaults otherwise. */
  function DefaultsAfterLoad(outcome: Result<Option<LoadedBatch>>): (d: BatchForm)
    ensures outcome.Ok? && outcome.value.Some? ==> d == ResetValues(outcome.value.value)
    ensures !(outcome.Ok? && outcome.value.Some?) ==> d == DefaultForm
  {
    FormAfterLoad(DefaultForm, outcome)
  }

  /** After the request settles: on success the bare `reset()` restores the
      current default values and the list page is opened; on failure nothing
      changes. */
  function SettleSubmit(f: BatchForm, defaults: BatchForm, succeeded: bool): (r: AfterSubmit)
    ensures succeeded ==> r.form == defaults && r.navigateTo == Some("/batches")
    ensures !succeeded ==> r.form == f && r.navigateTo.None?
  {
    if succeeded then AfterSubmit(defaults, Some("/batches")) else AfterSubmit(f, None)
  }

  /** A successful save in create mode empties the form; in edit mode, after
      a successful load, it puts the loaded batch back into the form, not the
      empty defaults. The page then navigates away either way. */
  lemma SaveRestoresDefaults(f: BatchForm, data: LoadedBatch)
    ensures SettleSubmit(f, DefaultForm, true).form == DefaultForm
    ensures SettleSubmit(f, DefaultsAfterLoad(Ok(Some(data))), true).form == ResetValues(data)
    ensures Truthy(data.batch_number) ==> SettleSubmit(f, DefaultsAfterLoad(Ok(Some(data))), true).form != DefaultForm
  {
  }
}
