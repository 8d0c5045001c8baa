/** The OpenShift-on-Azure report query handler's `execute_query`: the rows
    converted and grouped, ranked, the total converted and folded, the rows
    put in order, and the total completed with its units and key order. */
module AzureOcpReport {
  import opened Wrappers
  import opened PyValues
  import opened Aggregation
  import opened Currency
  import opened Totals
  import opened Ordering

  /** What the provider map says about the report type. Aggregates and
      annotations map a name to the field they read; only their names and
      order matter here. */
  datatype Mapper = Mapper(
    costUnitsKey: string,
    usageUnitsKey: Option<string>,
    usageUnitsFallback: Value,
    countUnitsFallback: Value,
    aggregates: Dict<string>,
    annotations: Dict<string>)

  /** The query parameters the handler reads. */
  datatype Params = Params(
    groupBy: seq<string>,
    implicitOrder: seq<string>,
    limit: bool,
    explicitOrder: bool,
    delta: bool,
    currency: string,
    reportAnnotations: seq<string>)

  /** What the database returns: the filtered rows (for `query.exists()`),
      the rows grouped with the annotations (the data) and with the
      aggregates as well (for the total), and the initial totals. */
  datatype Tables = Tables(
    filtered: seq<Row>,
    dataRows: seq<Row>,
    sumRows: seq<Row>,
    initialTotals: Dict<Value>)

  /** The base-class helpers the handler calls, taken as given. */
  datatype Helpers = Helpers(
    ranks: seq<Row> -> seq<Row>,
    addDeltas: (seq<Row>, Dict<Value>) -> seq<Row>,
    orderBy: (seq<Row>, seq<string>) -> seq<Row>,
    isDate: string -> bool)

  /** What `execute_query` leaves behind: the ordered rows (as the CSV
      output lists them) and the ordered total. */
  datatype Report = Report(data: seq<Row>, total: Dict<Value>)

  // ---------------------------------------------------------------------
  // Columns

  /** `if x in cols: cols.remove(x)`: the first `x` goes. */
  function DropColumn(cols: seq<string>, x: string): seq<string> {
    if x in cols then RemoveAt(cols, IndexOf(cols, x)) else cols
  }

  /** On a list of distinct names, dropping a name keeps the others, still
      distinct. */
  lemma DropColumnMeaning(cols: seq<string>, x: string)
    requires Distinct(cols)
    ensures Distinct(DropColumn(cols, x))
    ensures forall y :: y in DropColumn(cols, x) <==> y in cols && y != x
  {
    if x in cols {
      var i := IndexOf(cols, x);
      var r := DropColumn(cols, x);
      forall y ensures y in r <==> y in cols && y != x {
        if y in cols && y != x {
          var j :| 0 <= j < |cols| && cols[j] == y;
          if j < i { assert r[j] == y; } else { assert r[j - 1] == y; }
        }
        if y in r {
          var j :| 0 <= j < |r| && r[j] == y;
          if j < i { assert cols[j] == y; } else { assert cols[j + 1] == y; }
        }
      }
      forall a, b | 0 <= a < b < |r| ensures r[a] != r[b] {
        var a' := if a < i then a else a + 1;
        var b' := if b < i then b else b + 1;
        assert r[a] == cols[a'] && r[b] == cols[b'];
      }
    }
  }

  /** The columns the data path converts: the aggregates but the units. */
  function DataColumns(m: Mapper): seq<string> {
    DropColumn(DropColumn(m.aggregates.keys, "cost_units"), "usage_units")
  }

  /** The columns the total converts: the aggregates but usage and units. */
  function TotalColumns(m: Mapper): seq<string> {
    DropColumn(DropColumn(DropColumn(m.aggregates.keys, "usage"), "cost_units"), "usage_units")
  }

  lemma ColumnsMeaning(m: Mapper)
    ensures Distinct(DataColumns(m)) && Distinct(TotalColumns(m))
    ensures forall c :: c in DataColumns(m) <==> c in m.aggregates.keys && c != "cost_units" && c != "usage_units"
    ensures forall c :: c in TotalColumns(m) <==> c in m.aggregates.keys && c != "usage" && c != "cost_units" && c != "usage_units"
  {
    var ks := m.aggregates.keys;
    DropColumnMeaning(ks, "cost_units");
    DropColumnMeaning(DropColumn(ks, "cost_units"), "usage_units");
    DropColumnMeaning(ks, "usage");
    DropColumnMeaning(DropColumn(ks, "usage"), "cost_units");
    DropColumnMeaning(DropColumn(DropColumn(ks, "usage"), "cost_units"), "usage_units");
  }

  const DataSkipColumns: seq<string> := ["gcp_project_alias", "clusters"]
  const TotalSkipColumns: seq<string> := ["source_uuid", "gcp_project_alias", "clusters", "usage_units", "count_units", "cost_units"]

  // ---------------------------------------------------------------------
  // The rows

  /** A record of `to_dict("records")` as a row. */
  function AsRow(d: Dict<Value>): (r: Row)
    ensures forall k :: RowGet(r, k) == Get(d, k).GetOr(VNone)
  {
    map k | k in d.keys :: d.vals[k]
  }

  function AsRows(recs: seq<Dict<Value>>): seq<Row> {
    seq(|recs|, i requires 0 <= i < |recs| => AsRow(recs[i]))
  }

  /** The data path: with rows, every aggregate column is converted at the
      rate of the row's currency key and the frame is grouped by date and
      the group-by fields; without rows, the (empty) rows stay. */
  function DataRecords(m: Mapper, p: Params, rows: seq<Row>): Result<seq<Row>, PyError> {
    if rows == [] then Success([])
    else
      var converted :- ConvertColumns(rows, DataColumns(m), m.costUnitsKey, OcpAzureRates, p.currency);
      var skip := SkipColumns(DataSkipColumns, Columns(converted));
      var recs :- GroupAgg(converted, ["date"] + p.groupBy, AggsFor(p.reportAnnotations, skip));
      Success(AsRows(recs))
  }

  method ComputeDataRecords(m: Mapper, p: Params, rows: seq<Row>) returns (res: Result<seq<Row>, PyError>)
    ensures res == DataRecords(m, p, rows)
  {
    if rows == [] {
      return Success([]);
    }
    var converted := ConvertFrame(rows, DataColumns(m), m.costUnitsKey, OcpAzureRates, p.currency);
    if converted.Failure? {
      return Failure(converted.error);
    }
    var skip := SkipColumns(DataSkipColumns, Columns(converted.value));
    var recs := GroupAgg(converted.value, ["date"] + p.groupBy, AggsFor(p.reportAnnotations, skip));
    if recs.Failure? {
      return Failure(recs.error);
    }
    return Success(AsRows(recs.value));
  }

  /** The grouped rows carry the date and group-by values of their group,
      one row per distinct group; rows missing one of them are dropped. */
  lemma DataRecordsGroups(m: Mapper, p: Params, rows: seq<Row>)
    requires rows != [] && DataRecords(m, p, rows).Success?
    requires Distinct(["date"] + p.groupBy)
    requires forall k :: k in ["date"] + p.groupBy ==> k !in p.reportAnnotations
    ensures var keys := ["date"] + p.groupBy;
      var converted := ConvertColumns(rows, DataColumns(m), m.costUnitsKey, OcpAzureRates, p.currency).value;
      var gs := GroupKeys(converted, keys);
      var out := DataRecords(m, p, rows).value;
      |out| == |gs| &&
      forall j, n :: 0 <= j < |out| && 0 <= n < |keys| ==> RowGet(out[j], keys[n]) == gs[j][n]
  {
    var keys := ["date"] + p.groupBy;
    var converted := ConvertColumns(rows, DataColumns(m), m.costUnitsKey, OcpAzureRates, p.currency).value;
    var skip := SkipColumns(DataSkipColumns, Columns(converted));
    var aggs := AggsFor(p.reportAnnotations, skip);
    GroupAggShape(converted, keys, aggs);
  }

  // ---------------------------------------------------------------------
  // The total

  /** `query_sum`: the initial totals, or the converted total when the
      query has rows. */
  function QuerySum(m: Mapper, p: Params, tables: Tables): Result<Dict<Value>, PyError> {
    if tables.filtered == [] then Success(tables.initialTotals)
    else CurrencyTotal(tables.sumRows, TotalColumns(m), m.costUnitsKey, OcpAzureRates, p.currency,
                       TotalSkipColumns, p.reportAnnotations, None)
  }

  method ComputeQuerySum(m: Mapper, p: Params, tables: Tables) returns (res: Result<Dict<Value>, PyError>)
    ensures res == QuerySum(m, p, tables)
  {
    res := Success(tables.initialTotals);
    if tables.filtered != [] {
      res := ComputeCurrencyTotal(tables.sumRows, TotalColumns(m), m.costUnitsKey, OcpAzureRates, p.currency,
                                  TotalSkipColumns, p.reportAnnotations, None);
    }
  }

  /** The usage and count units of the report: the fallbacks, replaced by
      those of the first ordered row when there is one and the mapper has
      a usage key or count annotations. */
  function UnitValues(m: Mapper, data: seq<Row>): (Value, Value) {
    var usage := if data != [] && m.usageUnitsKey.Some? then RowGet(data[0], "usage_units") else m.usageUnitsFallback;
    var count := if data != [] && "count_units" in m.annotations.keys then RowGet(data[0], "count_units") else m.countUnitsFallback;
    (usage, count)
  }

  /** Whether the usage units lead the total. */
  predicate UsageFirst(m: Mapper, usage: Value) {
    m.usageUnitsKey.Some? && Truthy(usage)
  }

  /** The units written into the sum before it is ordered. */
  function WithUnits(m: Mapper, p: Params, sum: Dict<Value>, usage: Value, count: Value): Dict<Value> {
    var s1 := Set(sum, "cost_units", VStr(p.currency));
    var s2 := if UsageFirst(m, usage) then Set(s1, "usage_units", usage) else s1;
    if "count_units" in m.annotations.keys && Truthy(count) then Set(s2, "count_units", count) else s2
  }

  /** The key order of the total: usage units when they lead, then the
      annotations. */
  function KeyOrder(m: Mapper, usage: Value): seq<string> {
    (if UsageFirst(m, usage) then ["usage_units"] else []) + m.annotations.keys
  }

  /** The total of the report, units in and keys in order. */
  function AssembleTotal(m: Mapper, p: Params, sum: Dict<Value>, usage: Value, count: Value): Dict<Value> {
    OrderedTotal(KeyOrder(m, usage), WithUnits(m, p, sum, usage, count))
  }

  /** The units written over the sum: cost units are the currency; usage
      and count units are set when configured and truthy; every other key
      keeps its value and no key goes. */
  lemma WithUnitsMeaning(m: Mapper, p: Params, sum: Dict<Value>, usage: Value, count: Value, k: string)
    ensures Get(WithUnits(m, p, sum, usage, count), k) ==
      (if k == "count_units" && "count_units" in m.annotations.keys && Truthy(count) then Some(count)
       else if k == "usage_units" && UsageFirst(m, usage) then Some(usage)
       else if k == "cost_units" then Some(VStr(p.currency))
       else Get(sum, k))
    ensures k in WithUnits(m, p, sum, usage, count).keys <==>
      (k in sum.keys || k == "cost_units" ||
       (k == "usage_units" && UsageFirst(m, usage)) ||
       (k == "count_units" && "count_units" in m.annotations.keys && Truthy(count)))
  {
  }

  /** The total completed: the same keys and values as the sum with the
      units written over it. */
  lemma AssembleTotalMeaning(m: Mapper, p: Params, sum: Dict<Value>, usage: Value, count: Value, k: string)
    ensures Get(AssembleTotal(m, p, sum, usage, count), k) ==
      (if k == "count_units" && "count_units" in m.annotations.keys && Truthy(count) then Some(count)
       else if k == "usage_units" && UsageFirst(m, usage) then Some(usage)
       else if k == "cost_units" then Some(VStr(p.currency))
       else Get(sum, k))
    ensures k in AssembleTotal(m, p, sum, usage, count).keys <==>
      (k in sum.keys || k == "cost_units" ||
       (k == "usage_units" && UsageFirst(m, usage)) ||
       (k == "count_units" && "count_units" in m.annotations.keys && Truthy(count)))
  {
    WithUnitsMeaning(m, p, sum, usage, count, k);
    OrderedTotalMeaning(KeyOrder(m, usage), WithUnits(m, p, sum, usage, count), k);
  }

  /** Usage units, when they are set, are the first key of the total. */
  lemma UsageUnitsLead(m: Mapper, p: Params, sum: Dict<Value>, usage: Value, count: Value)
    requires UsageFirst(m, usage)
    ensures AssembleTotal(m, p, sum, usage, count).keys[0] == "usage_units"
  {
    var s := WithUnits(m, p, sum, usage, count);
    var ko := KeyOrder(m, usage);
    var ks := Pick(ko, s).keys;
    WithUnitsMeaning(m, p, sum, usage, count, "usage_units");
    OrderedTotalMeaning(ko, s, "usage_units");
    assert ko[0] == "usage_units";
    assert IndexOf(ko, "usage_units") == 0;
    assert "usage_units" in ks;
    var j :| 0 <= j < |ks| && ks[j] == "usage_units";
    assert ks[0] == "usage_units";
  }

  // ---------------------------------------------------------------------
  // execute_query

  function ExecuteQuerySpec(m: Mapper, p: Params, tables: Tables, h: Helpers): Result<Report, PyError> {
    var grouped :- DataRecords(m, p, tables.dataRows);
    var ranked := p.limit && grouped != [];
    var data := if ranked then h.ranks(grouped) else grouped;
    var order := QueryOrderBy(p.implicitOrder, ranked, p.explicitOrder);
    var sum :- QuerySum(m, p, tables);
    var withDeltas := if p.delta then h.addDeltas(data, sum) else data;
    var ordered :- OrderRowsAsWritten(withDeltas, order, p.groupBy, h.isDate, h.orderBy);
    var (usage, count) := UnitValues(m, ordered);
    Success(Report(ordered, AssembleTotal(m, p, sum, usage, count)))
  }

  method ExecuteQuery(m: Mapper, p: Params, tables: Tables, h: Helpers) returns (res: Result<Report, PyError>)
    ensures res == ExecuteQuerySpec(m, p, tables, h)
  {
    var grouped := ComputeDataRecords(m, p, tables.dataRows);
    if grouped.Failure? {
      return Failure(grouped.error);
    }
    var data := grouped.value;
    var ranked := false;
    if p.limit && data != [] {
      data := h.ranks(data);
      ranked := true;
    }
    var order := QueryOrderBy(p.implicitOrder, ranked, p.explicitOrder);
    var sum := ComputeQuerySum(m, p, tables);
    if sum.Failure? {
      return Failure(sum.error);
    }
    if p.delta {
      data := h.addDeltas(data, sum.value);
    }
    var ordered := ApplyOrder(data, order, p.groupBy, h.isDate, h.orderBy);
    if ordered.Failure? {
      return Failure(ordered.error);
    }
    var usage := m.usageUnitsFallback;
    var count := m.countUnitsFallback;
    if ordered.value != [] {
      if m.usageUnitsKey.Some? {
        usage := RowGet(ordered.value[0], "usage_units");
      }
      if "count_units" in m.annotations.keys {
        count := RowGet(ordered.value[0], "count_units");
      }
    }
    return Success(Report(ordered.value, AssembleTotal(m, p, sum.value, usage, count)));
  }

  /** A summed cost column of the report's total is the sum of the column
      over the rows that have a currency, every row converted at the rate
      of its currency key. */
  lemma ExecuteQueryConverted(m: Mapper, p: Params, tables: Tables, h: Helpers, c: string)
    requires tables.filtered != [] && ExecuteQuerySpec(m, p, tables, h).Success?
    requires m.costUnitsKey !in m.aggregates.keys && m.costUnitsKey != "cost_units" && "currency" !in m.aggregates.keys
    requires c in m.aggregates.keys && c != "usage" && c in p.reportAnnotations && c !in TotalSkipColumns
    requires c != "count" && !Contains(c, "units")
    ensures Get(ExecuteQuerySpec(m, p, tables, h).value.total, c) ==
      Some(VNum(ConvertedSum(KeyedRows(tables.sumRows, ["currency"]), c, m.costUnitsKey, OcpAzureRates, p.currency)))
  {
    ColumnsMeaning(m);
    UnitsColumns();
    var report := ExecuteQuerySpec(m, p, tables, h).value;
    var sum := QuerySum(m, p, tables).value;
    CurrencyTotalSum(tables.sumRows, TotalColumns(m), m.costUnitsKey, OcpAzureRates, p.currency,
                     TotalSkipColumns, p.reportAnnotations, None, c);
    var (usage, count) := UnitValues(m, report.data);
    assert report.total == AssembleTotal(m, p, sum, usage, count);
    AssembleTotalMeaning(m, p, sum, usage, count, c);
  }

  /** A summed row in a currency without a rate to the target (AUD, say, or
      any currency to CAD from USD) makes the whole query fail. */
  lemma ExecuteQueryMissingRate(m: Mapper, p: Params, tables: Tables, h: Helpers, i: nat)
    requires tables.filtered != [] && i < |tables.sumRows|
    requires m.costUnitsKey !in m.aggregates.keys && m.costUnitsKey != "cost_units"
    requires TotalColumns(m) != []
    requires Rate(OcpAzureRates, RowGet(tables.sumRows[i], m.costUnitsKey), p.currency).Failure?
    ensures ExecuteQuerySpec(m, p, tables, h).Failure?
  {
    ColumnsMeaning(m);
    CurrencyTotalMissingRate(tables.sumRows, TotalColumns(m), m.costUnitsKey, OcpAzureRates, p.currency,
                             TotalSkipColumns, p.reportAnnotations, None, i);
  }
}
