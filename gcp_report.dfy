/** The GCP report query handler: the pack keys it installs, the alias
    annotations, the total of a query (`_build_sum` and `calculate_total`)
    and `execute_query`, which puts the rows and the total in order. */
module GcpReport {
  import opened Wrappers
  import opened PyValues
  import opened Aggregation
  import opened Currency
  import opened Totals
  import opened Ordering

  // ---------------------------------------------------------------------
  // Pack keys

  /** Where a total column is packed: its key inside a cost group. */
  datatype PackKey = PackKey(key: string, group: string)

  /** The pack keys the handler installs for the "cost_groups" definition,
      in the order they are listed. */
  const GcpPackKeys: seq<(string, PackKey)> := [
    ("infra_raw", PackKey("raw", "infrastructure")),
    ("infra_markup", PackKey("markup", "infrastructure")),
    ("infra_usage", PackKey("usage", "infrastructure")),
    ("infra_credit", PackKey("credit", "infrastructure")),
    ("infra_total", PackKey("total", "infrastructure")),
    ("sup_raw", PackKey("raw", "supplementary")),
    ("sup_markup", PackKey("markup", "supplementary")),
    ("sup_usage", PackKey("usage", "supplementary")),
    ("sup_credit", PackKey("credit", "supplementary")),
    ("sup_total", PackKey("total", "supplementary")),
    ("cost_raw", PackKey("raw", "cost")),
    ("cost_markup", PackKey("markup", "cost")),
    ("cost_usage", PackKey("usage", "cost")),
    ("cost_credit", PackKey("credit", "cost")),
    ("cost_total", PackKey("total", "cost"))
  ]

  const PackPrefixes: seq<string> := ["infra", "sup", "cost"]
  const PackGroups: seq<string> := ["infrastructure", "supplementary", "cost"]
  const PackSuffixes: seq<string> := ["raw", "markup", "usage", "credit", "total"]

  /** The pack-key table is the product of three groups and five keys: the
      entry for group `i` and key `j` is named `<prefix>_<key>` and packs
      into that key of that group. */
  lemma GcpPackKeysTable()
    ensures |GcpPackKeys| == |PackPrefixes| * |PackSuffixes|
    ensures forall i, j :: 0 <= i < |PackPrefixes| && 0 <= j < |PackSuffixes| ==>
      GcpPackKeys[|PackSuffixes| * i + j] == (PackPrefixes[i] + "_" + PackSuffixes[j], PackKey(PackSuffixes[j], PackGroups[i]))
  {
    forall i, j | 0 <= i < |PackPrefixes| && 0 <= j < |PackSuffixes|
      ensures GcpPackKeys[|PackSuffixes| * i + j] == (PackPrefixes[i] + "_" + PackSuffixes[j], PackKey(PackSuffixes[j], PackGroups[i]))
    {
      PackEntry(i, j);
    }
  }

  lemma PackEntry(i: nat, j: nat)
    requires i < 3 && j < 5
    ensures GcpPackKeys[5 * i + j] == (PackPrefixes[i] + "_" + PackSuffixes[j], PackKey(PackSuffixes[j], PackGroups[i]))
  {
    if i == 0 {
      assert "infra" + "_" + "raw" == "infra_raw" && "infra" + "_" + "markup" == "infra_markup";
      assert "infra" + "_" + "usage" == "infra_usage" && "infra" + "_" + "credit" == "infra_credit";
      assert "infra" + "_" + "total" == "infra_total";
    } else if i == 1 {
      assert "sup" + "_" + "raw" == "sup_raw" && "sup" + "_" + "markup" == "sup_markup";
      assert "sup" + "_" + "usage" == "sup_usage" && "sup" + "_" + "credit" == "sup_credit";
      assert "sup" + "_" + "total" == "sup_total";
    } else {
      assert "cost" + "_" + "raw" == "cost_raw" && "cost" + "_" + "markup" == "cost_markup";
      assert "cost" + "_" + "usage" == "cost_usage" && "cost" + "_" + "credit" == "cost_credit";
      assert "cost" + "_" + "total" == "cost_total";
    }
  }

  // ---------------------------------------------------------------------
  // The handler's inputs

  /** What the provider map says about the report type. Annotations map a
      name to the field it reads; only their names and order matter here. */
  datatype Mapper = Mapper(
    costUnitsKey: string,
    usageUnitsKey: Option<string>,
    costUnitsFallback: Value,
    usageUnitsFallback: Value,
    aggregates: Dict<string>,
    annotations: Dict<string>)

  /** The query parameters the handler reads. */
  datatype Params = Params(
    groupBy: seq<string>,
    implicitOrder: seq<string>,
    limit: bool,
    explicitOrder: bool,
    delta: bool,
    currency: string,
    reportAnnotations: seq<string>)

  /** What the database returns: the filtered rows with the unit
      annotations (for `if query:` and `.first()`), the rows grouped with
      the aggregates (for the total), the aggregate of an empty query, the
      initial totals, and the rows grouped with the annotations (for the
      data). */
  datatype Tables = Tables(
    filtered: seq<Row>,
    totalRows: seq<Row>,
    emptyAggregate: Dict<Value>,
    initialTotals: Dict<Value>,
    dataRows: seq<Row>)

  /** The base-class helpers the handler calls, taken as given. */
  datatype Helpers = Helpers(
    aggForCurrency: (seq<string>, seq<Row>, seq<string>, seq<string>) -> seq<Row>,
    ranks: seq<Row> -> seq<Row>,
    addDeltas: (seq<Row>, Dict<Value>) -> seq<Row>,
    orderBy: (seq<Row>, seq<string>) -> seq<Row>,
    isDate: string -> bool)

  // ---------------------------------------------------------------------
  // Alias annotations

  /** `group_by_alias`, in its order. */
  const GroupByAlias: seq<(string, string)> := [("service", "service_alias"), ("gcp_project", "project_name")]

  /** The annotations after the first `n` aliases: `<key>_alias` reads the
      alias field when the key is grouped by. */
  function AliasAnnotations(annotations: Dict<string>, queryGroupBy: seq<string>, n: nat): Dict<string>
    requires n <= |GroupByAlias|
  {
    if n == 0 then annotations
    else
      var d := AliasAnnotations(annotations, queryGroupBy, n - 1);
      var (key, field) := GroupByAlias[n - 1];
      if key in queryGroupBy then Set(d, key + "_alias", field) else d
  }

  method AddAliasAnnotations(annotations: Dict<string>, queryGroupBy: seq<string>) returns (res: Dict<string>)
    ensures res == AliasAnnotations(annotations, queryGroupBy, |GroupByAlias|)
  {
    res := annotations;
    for n := 0 to |GroupByAlias|
      invariant res == AliasAnnotations(annotations, queryGroupBy, n)
    {
      var (key, field) := GroupByAlias[n];
      if key in queryGroupBy {
        res := Set(res, key + "_alias", field);
      }
    }
  }

  /** Grouping by service adds "service_alias", grouping by gcp_project adds
      "gcp_project_alias" reading "project_name"; every other annotation is
      kept, and the existing ones keep their places in front. */
  lemma AliasAnnotationsMeaning(annotations: Dict<string>, queryGroupBy: seq<string>, k: string)
    ensures var d := AliasAnnotations(annotations, queryGroupBy, |GroupByAlias|);
      Get(d, k) ==
        (if k == "gcp_project_alias" && "gcp_project" in queryGroupBy then Some("project_name")
         else if k == "service_alias" && "service" in queryGroupBy then Some("service_alias")
         else Get(annotations, k)) &&
      annotations.keys <= d.keys
  {
    assert "service" + "_alias" == "service_alias";
    assert "gcp_project" + "_alias" == "gcp_project_alias";
    var d1 := AliasAnnotations(annotations, queryGroupBy, 1);
    assert AliasAnnotations(annotations, queryGroupBy, 0) == annotations;
  }

  // ---------------------------------------------------------------------
  // The total

  /** The columns the total never aggregates. */
  const TotalSkipColumns: seq<string> := ["source_uuid", "gcp_project_alias", "clusters", "service_alias"]

  /** The units loop of `calculate_total` over the first `n` units: each
      unit is written to the total, and every unit but usage and count is
      then set to the currency. */
  function UnitsApplied(total: Dict<Value>, units: Dict<Value>, currency: string, n: nat): Dict<Value>
    requires n <= |units.keys|
  {
    if n == 0 then total
    else
      var d := UnitsApplied(total, units, currency, n - 1);
      var k := units.keys[n - 1];
      Set(d, k, if k == "usage_units" || k == "count_units" then units.vals[k] else VStr(currency))
  }

  method ApplyUnits(total: Dict<Value>, units: Dict<Value>, currency: string) returns (res: Dict<Value>)
    ensures res == UnitsApplied(total, units, currency, |units.keys|)
  {
    res := total;
    for n := 0 to |units.keys|
      invariant res == UnitsApplied(total, units, currency, n)
    {
      var k := units.keys[n];
      res := Set(res, k, units.vals[k]);
      if k != "usage_units" && k != "count_units" {
        res := Set(res, k, VStr(currency));
      }
    }
  }

  /** After the units loop a unit holds the currency, or its own value for
      usage and count; everything else is left as it was, in place. */
  lemma {:induction false} UnitsAppliedGet(total: Dict<Value>, units: Dict<Value>, currency: string, n: nat, k: string)
    requires n <= |units.keys|
    ensures Get(UnitsApplied(total, units, currency, n), k) ==
      if k in units.keys[..n] then Some(if k == "usage_units" || k == "count_units" then units.vals[k] else VStr(currency))
      else Get(total, k)
    ensures k in UnitsApplied(total, units, currency, n).keys <==> k in total.keys || k in units.keys[..n]
    ensures total.keys <= UnitsApplied(total, units, currency, n).keys
  {
    if n > 0 {
      UnitsAppliedGet(total, units, currency, n - 1, k);
      PrefixStep(units.keys, n);
    }
  }

  /** `calculate_total(**units)`: the currency total of the grouped rows
      (the aggregate of an empty query when there are none), then the units. */
  function CalculateTotalSpec(m: Mapper, p: Params, tables: Tables, units: Dict<Value>): Result<Dict<Value>, PyError> {
    var total :-
      if tables.totalRows != [] then
        CurrencyTotal(tables.totalRows, m.aggregates.keys, "currency", GcpRates, p.currency,
                      TotalSkipColumns, p.reportAnnotations, Some(Get(units, "usage_units").GetOr(VNone)))
      else Success(tables.emptyAggregate);
    Success(UnitsApplied(total, units, p.currency, |units.keys|))
  }

  method CalculateTotal(m: Mapper, p: Params, tables: Tables, units: Dict<Value>) returns (res: Result<Dict<Value>, PyError>)
    ensures res == CalculateTotalSpec(m, p, tables, units)
  {
    var total := tables.emptyAggregate;
    if tables.totalRows != [] {
      var grouped := ComputeCurrencyTotal(tables.totalRows, m.aggregates.keys, "currency", GcpRates, p.currency,
                                          TotalSkipColumns, p.reportAnnotations, Some(Get(units, "usage_units").GetOr(VNone)));
      if grouped.Failure? {
        return Failure(grouped.error);
      }
      total := grouped.value;
    }
    var withUnits := ApplyUnits(total, units, p.currency);
    return Success(withUnits);
  }

  /** The units `_build_sum` passes on: those of the first row, each falling
      back to its default, when the query has rows; otherwise the
      fallbacks, usage only when the annotations define usage units. */
  function SumUnits(m: Mapper, filtered: seq<Row>): Dict<Value> {
    if filtered != [] then
      var first := filtered[0];
      var units := Set(Empty(), "cost_units", Coalesce(RowGet(first, m.costUnitsKey), m.costUnitsFallback));
      if m.usageUnitsKey.Some? then Set(units, "usage_units", Coalesce(RowGet(first, m.usageUnitsKey.value), m.usageUnitsFallback))
      else units
    else
      var units := Set(Empty(), "cost_units", m.costUnitsFallback);
      if "usage_units" in m.annotations.keys then Set(units, "usage_units", m.usageUnitsFallback) else units
  }

  /** `_build_sum(query)`. */
  function BuildSumSpec(m: Mapper, p: Params, tables: Tables): Result<Dict<Value>, PyError> {
    var units := SumUnits(m, tables.filtered);
    if tables.filtered != [] then CalculateTotalSpec(m, p, tables, units)
    else Success(Update(tables.initialTotals, units))
  }

  method BuildSum(m: Mapper, p: Params, tables: Tables) returns (res: Result<Dict<Value>, PyError>)
    ensures res == BuildSumSpec(m, p, tables)
  {
    var units := Empty();
    if tables.filtered != [] {
      var first := tables.filtered[0];
      units := Set(units, "cost_units", Coalesce(RowGet(first, m.costUnitsKey), m.costUnitsFallback));
      if m.usageUnitsKey.Some? {
        units := Set(units, "usage_units", Coalesce(RowGet(first, m.usageUnitsKey.value), m.usageUnitsFallback));
      }
      res := CalculateTotal(m, p, tables, units);
    } else {
      units := Set(units, "cost_units", m.costUnitsFallback);
      if "usage_units" in m.annotations.keys {
        units := Set(units, "usage_units", m.usageUnitsFallback);
      }
      res := Success(Update(tables.initialTotals, units));
    }
  }

  /** The units of a query with rows: cost units are always the caller's
      currency; usage units are those of the first row (or the fallback)
      exactly when the mapper has a usage unit key. */
  lemma BuildSumUnits(m: Mapper, p: Params, tables: Tables)
    requires tables.filtered != [] && BuildSumSpec(m, p, tables).Success?
    ensures var total := BuildSumSpec(m, p, tables).value;
      Get(total, "cost_units") == Some(VStr(p.currency)) &&
      (m.usageUnitsKey.Some? ==> Get(total, "usage_units") == Some(Coalesce(RowGet(tables.filtered[0], m.usageUnitsKey.value), m.usageUnitsFallback)))
  {
    var units := SumUnits(m, tables.filtered);
    var total := if tables.totalRows != [] then
        CurrencyTotal(tables.totalRows, m.aggregates.keys, "currency", GcpRates, p.currency,
                      TotalSkipColumns, p.reportAnnotations, Some(Get(units, "usage_units").GetOr(VNone))).value
      else tables.emptyAggregate;
    assert BuildSumSpec(m, p, tables).value == UnitsApplied(total, units, p.currency, |units.keys|);
    assert units.keys[..|units.keys|] == units.keys;
    UnitsAppliedGet(total, units, p.currency, |units.keys|, "cost_units");
    UnitsAppliedGet(total, units, p.currency, |units.keys|, "usage_units");
  }

  /** The total of a query without rows: the initial totals with the
      fallback units; usage units only when the annotations define them. */
  lemma BuildSumEmpty(m: Mapper, p: Params, tables: Tables, k: string)
    requires tables.filtered == []
    ensures BuildSumSpec(m, p, tables).Success?
    ensures Get(BuildSumSpec(m, p, tables).value, k) ==
      if k == "cost_units" then Some(m.costUnitsFallback)
      else if k == "usage_units" && "usage_units" in m.annotations.keys then Some(m.usageUnitsFallback)
      else Get(tables.initialTotals, k)
  {
    UpdateMeaning(tables.initialTotals, SumUnits(m, tables.filtered), k);
  }

  /** A summed cost column of the total is the sum of the column over the
      grouped rows, every row converted from its own currency to the
      caller's. */
  lemma BuildSumConverted(m: Mapper, p: Params, tables: Tables, c: string)
    requires tables.filtered != [] && tables.totalRows != []
    requires "currency" !in m.aggregates.keys && "cost_units" !in m.aggregates.keys
    requires c in m.aggregates.keys && c in p.reportAnnotations && c !in TotalSkipColumns
    requires c != "count" && c != "count_units" && !Contains(c, "units")
    requires BuildSumSpec(m, p, tables).Success?
    ensures Get(BuildSumSpec(m, p, tables).value, c) == Some(VNum(ConvertedSum(tables.totalRows, c, "currency", GcpRates, p.currency)))
  {
    var units := SumUnits(m, tables.filtered);
    var usage := Some(Get(units, "usage_units").GetOr(VNone));
    var grouped := CurrencyTotal(tables.totalRows, m.aggregates.keys, "currency", GcpRates, p.currency, TotalSkipColumns, p.reportAnnotations, usage);
    assert grouped.Success?;
    CurrencyKeyedTotalSum(tables.totalRows, m.aggregates.keys, GcpRates, p.currency, TotalSkipColumns, p.reportAnnotations, usage, c);
    UnitsColumns();
    assert c !in units.keys;
    assert units.keys[..|units.keys|] == units.keys;
    UnitsAppliedGet(grouped.value, units, p.currency, |units.keys|, c);
  }

  // ---------------------------------------------------------------------
  // execute_query

  /** What `execute_query` leaves behind: the ordered rows (as the CSV
      output lists them) and the ordered total. */
  datatype Report = Report(data: seq<Row>, total: Dict<Value>)

  function ExecuteQuerySpec(m: Mapper, p: Params, tables: Tables, h: Helpers): Result<Report, PyError> {
    var queryGroupBy := ["date"] + p.groupBy;
    var annotations := AliasAnnotations(m.annotations, queryGroupBy, |GroupByAlias|);
    var querySum :- BuildSumSpec(m, p, tables);
    var aggregated := h.aggForCurrency(queryGroupBy, tables.dataRows, ["clusters"], p.reportAnnotations);
    var ranked := if p.limit then h.ranks(aggregated) else aggregated;
    var order := QueryOrderBy(p.implicitOrder, p.limit, p.explicitOrder);
    var withDeltas := if p.delta then h.addDeltas(ranked, querySum) else ranked;
    var data :- OrderRowsAsWritten(withDeltas, order, p.groupBy, h.isDate, h.orderBy);
    Success(Report(data, OrderedTotal(["units"] + annotations.keys, querySum)))
  }

  method ExecuteQuery(m: Mapper, p: Params, tables: Tables, h: Helpers) returns (res: Result<Report, PyError>)
    ensures res == ExecuteQuerySpec(m, p, tables, h)
  {
    var queryGroupBy := ["date"] + p.groupBy;
    var annotations := AddAliasAnnotations(m.annotations, queryGroupBy);
    var querySum := BuildSum(m, p, tables);
    if querySum.Failure? {
      return Failure(querySum.error);
    }
    var data := h.aggForCurrency(queryGroupBy, tables.dataRows, ["clusters"], p.reportAnnotations);
    if p.limit {
      data := h.ranks(data);
    }
    var order := QueryOrderBy(p.implicitOrder, p.limit, p.explicitOrder);
    if p.delta {
      data := h.addDeltas(data, querySum.value);
    }
    var ordered := ApplyOrder(data, order, p.groupBy, h.isDate, h.orderBy);
    if ordered.Failure? {
      return Failure(ordered.error);
    }
    var total := OrderedTotal(["units"] + annotations.keys, querySum.value);
    return Success(Report(ordered.value, total));
  }

  /** The reported total is the sum of `_build_sum` reordered: the same keys
      with the same values, "units" and the annotations (aliases included)
      first, in that order. */
  lemma ExecuteQueryTotal(m: Mapper, p: Params, tables: Tables, h: Helpers, k: string)
    requires ExecuteQuerySpec(m, p, tables, h).Success?
    ensures BuildSumSpec(m, p, tables).Success?
    ensures var sum := BuildSumSpec(m, p, tables).value;
      var total := ExecuteQuerySpec(m, p, tables, h).value.total;
      var keyOrder := ["units"] + AliasAnnotations(m.annotations, ["date"] + p.groupBy, |GroupByAlias|).keys;
      Get(total, k) == Get(sum, k) &&
      (k in total.keys <==> k in sum.keys) &&
      Pick(keyOrder, sum).keys <= total.keys
  {
    var keyOrder := ["units"] + AliasAnnotations(m.annotations, ["date"] + p.groupBy, |GroupByAlias|).keys;
    OrderedTotalMeaning(keyOrder, BuildSumSpec(m, p, tables).value, k);
  }

  /** An empty group-by list with a date in the order list is an IndexError. */
  lemma ExecuteQueryNoGroupBy(m: Mapper, p: Params, tables: Tables, h: Helpers)
    requires p.groupBy == [] && BuildSumSpec(m, p, tables).Success?
    requires var order := QueryOrderBy(p.implicitOrder, p.limit, p.explicitOrder);
      FirstDate(order, h.isDate).Some? && order[FirstDate(order, h.isDate).value] != ""
    ensures ExecuteQuerySpec(m, p, tables, h) == Failure(IndexError)
  {
  }
}
