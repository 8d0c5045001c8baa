/** The tag query filter: the choices its fields accept, the cross-field
    check between time scope and resolution, the bounds on limit and
    offset, and the operator fields of each provider's filter. */
module TagFilters {
  import opened Wrappers
  import opened PyValues

  // ---------------------------------------------------------------------
  // Decimal strings

  function DigitChar(d: nat): char
    requires d < 10
  {
    "0123456789"[d]
  }

  /** `str(n)` for a natural number. */
  function NatToString(n: nat): (s: string)
    ensures |s| >= 1 && s[0] != '-'
    decreases n
  {
    if n < 10 then [DigitChar(n)] else NatToString(n / 10) + [DigitChar(n % 10)]
  }

  /** `str(i)` for an integer: a minus sign before the digits when negative. */
  function IntToString(i: int): string {
    if i < 0 then "-" + NatToString(-i) else NatToString(i)
  }

  // ---------------------------------------------------------------------
  // Declarations

  const DayList: seq<string> := ["-10", "-30", "-90"]
  const MonthList: seq<int> := [-1, -2, -3]

  /** `month_list_string`: the month values written out. */
  function MonthListString(): (r: seq<string>)
    ensures r == ["-1", "-2", "-3"]
  {
    assert IntToString(-1) == "-1" && IntToString(-2) == "-2" && IntToString(-3) == "-3";
    seq(|MonthList|, i requires 0 <= i < |MonthList| => IntToString(MonthList[i]))
  }

  /** None of the month values is a day value, so the time choices never
      confuse the two units. */
  lemma MonthListStrings()
    ensures forall s :: s in MonthListString() ==> s !in DayList
  {
  }

  /** A choice field's choices: (value, label) pairs. */
  type Choices = seq<(string, string)>

  const ResolutionChoices: Choices := [("daily", "daily"), ("monthly", "monthly")]
  const TimeChoices: Choices := [("-10", "-10"), ("-30", "-30"), ("-90", "-90"), ("-1", "-1"), ("-2", "-2"), ("-3", "-3")]
  const TimeUnitChoices: Choices := [("day", "day"), ("month", "month")]

  /** The values a choice field accepts. */
  predicate IsChoice(choices: Choices, s: string) {
    exists i :: 0 <= i < |choices| && choices[i].0 == s
  }

  /** A filter field after parsing: one value or a list of them (key and
      value take either). */
  datatype Field = Scalar(v: Value) | Many(items: seq<string>)

  predicate FieldTruthy(f: Field) {
    match f
    case Scalar(v) => Truthy(v)
    case Many(items) => items != []
  }

  /** The parsed filter data: field name to field. */
  type FilterData = Dict<Field>

  /** `data.get(name)`, `None` for a missing field. */
  function FieldOf(data: FilterData, name: string): Field {
    Get(data, name).GetOr(Scalar(VNone))
  }

  predicate IsStr(f: Field, s: string) {
    f == Scalar(VStr(s))
  }

  /** An optional choice field holds nothing or one of its choices. */
  predicate ChoiceOk(data: FilterData, name: string, choices: Choices) {
    var f := FieldOf(data, name);
    name !in data.keys || (f.Scalar? && f.v.VStr? && IsChoice(choices, f.v.s))
  }

  /** The data the three choice fields let through. */
  predicate ChoicesValid(data: FilterData) {
    ChoiceOk(data, "resolution", ResolutionChoices) &&
    ChoiceOk(data, "time_scope_value", TimeChoices) &&
    ChoiceOk(data, "time_scope_units", TimeUnitChoices)
  }

  // ---------------------------------------------------------------------
  // FilterSerializer.validate

  /** A validation error: field name to message. */
  datatype ValidationError = ValidationError(field: string, message: string)

  /** `msg.format(", ".join(valid_values), units)`. */
  function ValidValuesMessage(validValues: seq<string>, units: string): string {
    "Valid values are " + Join(", ", validValues) + " when time_scope_units is " + units
  }

  predicate InStrings(f: Field, values: seq<string>) {
    exists i :: 0 <= i < |values| && IsStr(f, values[i])
  }

  /** The cross-field check: with both time scope fields set, a day scope
      rejects a month value and then a monthly resolution, and a month scope
      rejects a day value; anything else passes unchanged. */
  function Validate(data: FilterData): Result<FilterData, ValidationError> {
    var resolution := FieldOf(data, "resolution");
    var value := FieldOf(data, "time_scope_value");
    var units := FieldOf(data, "time_scope_units");
    if FieldTruthy(units) && FieldTruthy(value) then
      if IsStr(units, "day") && InStrings(value, MonthListString()) then
        Failure(ValidationError("time_scope_value", ValidValuesMessage(DayList, "day")))
      else if IsStr(units, "day") && IsStr(resolution, "monthly") then
        Failure(ValidationError("resolution", ValidValuesMessage(["daily"], "day")))
      else if IsStr(units, "month") && InStrings(value, DayList) then
        Failure(ValidationError("time_scope_value", ValidValuesMessage(MonthListString(), "month")))
      else Success(data)
    else Success(data)
  }

  lemma InStringsCases(value: Field)
    ensures InStrings(value, MonthListString()) <==> IsStr(value, "-1") || IsStr(value, "-2") || IsStr(value, "-3")
    ensures InStrings(value, DayList) <==> IsStr(value, "-10") || IsStr(value, "-30") || IsStr(value, "-90")
  {
    MonthListStrings();
    if IsStr(value, "-1") { assert IsStr(value, MonthListString()[0]); }
    if IsStr(value, "-2") { assert IsStr(value, MonthListString()[1]); }
    if IsStr(value, "-3") { assert IsStr(value, MonthListString()[2]); }
    if IsStr(value, "-10") { assert IsStr(value, DayList[0]); }
    if IsStr(value, "-30") { assert IsStr(value, DayList[1]); }
    if IsStr(value, "-90") { assert IsStr(value, DayList[2]); }
  }

  /** The outcome case by case: no check without both time scope fields;
      the month-value error for day scopes wins over the resolution error;
      what passes comes back unchanged. */
  lemma ValidateMeaning(data: FilterData)
    ensures var units := FieldOf(data, "time_scope_units");
      var value := FieldOf(data, "time_scope_value");
      var both := FieldTruthy(units) && FieldTruthy(value);
      Validate(data) ==
        if both && IsStr(units, "day") && (IsStr(value, "-1") || IsStr(value, "-2") || IsStr(value, "-3")) then
          Failure(ValidationError("time_scope_value", ValidValuesMessage(["-10", "-30", "-90"], "day")))
        else if both && IsStr(units, "day") && IsStr(FieldOf(data, "resolution"), "monthly") then
          Failure(ValidationError("resolution", ValidValuesMessage(["daily"], "day")))
        else if both && IsStr(units, "month") && (IsStr(value, "-10") || IsStr(value, "-30") || IsStr(value, "-90")) then
          Failure(ValidationError("time_scope_value", ValidValuesMessage(["-1", "-2", "-3"], "month")))
        else Success(data)
  {
    MonthListStrings();
    InStringsCases(FieldOf(data, "time_scope_value"));
  }

  /** Data that passes both the choice fields and the check is consistent:
      a day scope comes with a day value and no monthly resolution, a month
      scope with a month value. */
  lemma AcceptedFiltersConsistent(data: FilterData)
    requires ChoicesValid(data) && Validate(data).Success?
    ensures Validate(data).value == data
    ensures IsStr(FieldOf(data, "time_scope_units"), "day") && "time_scope_value" in data.keys ==>
      InStrings(FieldOf(data, "time_scope_value"), DayList) && !IsStr(FieldOf(data, "resolution"), "monthly")
    ensures IsStr(FieldOf(data, "time_scope_units"), "month") && "time_scope_value" in data.keys ==>
      InStrings(FieldOf(data, "time_scope_value"), MonthListString())
  {
    ValidateMeaning(data);
    MonthListStrings();
    var value := FieldOf(data, "time_scope_value");
    if "time_scope_value" in data.keys {
      var s := value.v.s;
      var i :| 0 <= i < |TimeChoices| && TimeChoices[i].0 == s;
      if i < 3 {
        assert IsStr(value, DayList[i]);
      } else {
        assert IsStr(value, MonthListString()[i - 3]);
      }
    }
  }

  // ---------------------------------------------------------------------
  // Bounds of the query parameters

  /** An integer field with a lower bound: the error code when a given
      value is below it. */
  function MinValueError(name: string, value: Option<int>, min: int): Option<ValidationError> {
    if value.Some? && value.value < min then Some(ValidationError(name, "min_value")) else None
  }

  /** The errors of `limit` (at least 1) and `offset` (at least 0). */
  function BoundErrors(limit: Option<int>, offset: Option<int>): (errs: seq<ValidationError>)
    ensures |errs| <= 2
    ensures forall i, j :: 0 <= i < j < |errs| ==> errs[i].field != errs[j].field
    ensures forall e :: e in errs ==> e.message == "min_value" && e.field in ["limit", "offset"]
    ensures |errs| == 2 ==> errs[0].field == "limit" && errs[1].field == "offset"
  {
    var l := MinValueError("limit", limit, 1);
    var o := MinValueError("offset", offset, 0);
    (if l.Some? then [l.value] else []) + (if o.Some? then [o.value] else [])
  }

  /** The bounds hold exactly when no error is reported, and each error
      names the field that is out of bounds. */
  lemma BoundErrorsMeaning(limit: Option<int>, offset: Option<int>)
    ensures BoundErrors(limit, offset) == [] <==>
      (limit.None? || limit.value >= 1) && (offset.None? || offset.value >= 0)
    ensures forall e :: e in BoundErrors(limit, offset) ==>
      (e.field == "limit" && limit.Some? && limit.value < 1) || (e.field == "offset" && offset.Some? && offset.value < 0)
  {
  }

  // ---------------------------------------------------------------------
  // Operator fields

  const OcpFilterOpFields: seq<string> := ["project", "enabled", "cluster"]
  const AwsFilterOpFields: seq<string> := ["account"]
  const AzureFilterOpFields: seq<string> := ["subscription_guid"]
  const GcpFilterOpFields: seq<string> := ["account", "gcp_project"]
  const OciFilterOpFields: seq<string> := ["payer_tenant_id"]

  /** The provider filters. */
  datatype FilterKind = Ocp | Aws | OcpAws | Azure | OcpAzure | OcpAll | Gcp | OcpGcp | Oci

  /** The provider filters a filter inherits from, in declaration order. */
  function Parents(k: FilterKind): seq<FilterKind> {
    match k
    case OcpAws => [Aws, Ocp]
    case OcpAzure => [Azure, Ocp]
    case OcpAll => [Aws, Azure, Ocp]
    case OcpGcp => [Gcp, Ocp]
    case _ => []
  }

  /** The operator fields a filter's own initialiser adds. */
  function OpFields(k: FilterKind): seq<string> {
    match k
    case Ocp => OcpFilterOpFields
    case Aws => AwsFilterOpFields
    case OcpAws => AwsFilterOpFields + OcpFilterOpFields
    case Azure => AzureFilterOpFields
    case OcpAzure => AzureFilterOpFields + OcpFilterOpFields
    case OcpAll => AwsFilterOpFields + AzureFilterOpFields + OcpFilterOpFields
    case Gcp => GcpFilterOpFields
    case OcpGcp => GcpFilterOpFields + OcpFilterOpFields
    case Oci => OciFilterOpFields
  }

  function ConcatFields(ks: seq<FilterKind>): seq<string> {
    if ks == [] then [] else OpFields(ks[0]) + ConcatFields(ks[1..])
  }

  /** A combined filter adds exactly its parents' operator fields, in the
      order it inherits from them. */
  lemma OpFieldsCompose(k: FilterKind)
    requires Parents(k) != []
    ensures OpFields(k) == ConcatFields(Parents(k))
  {
    var ps := Parents(k);
    assert ConcatFields(ps[|ps| - 1..]) == OpFields(Ocp);
    if |ps| == 3 {
      assert ConcatFields(ps[1..]) == OpFields(Azure) + ConcatFields(ps[2..]);
    }
  }
}
