/** The total of a report query in the caller's currency, as both report
    handlers compute it: every amount column converted with the rate
    table, the frame grouped by currency, the per-currency records folded
    into one dict and the currency key dropped. */
module Totals {
  import opened Wrappers
  import opened PyValues
  import opened Aggregation
  import opened Currency

  /** The skip list after the check for a "count" column. */
  function SkipColumns(base: seq<string>, cols: set<string>): (skip: seq<string>)
    ensures forall c :: c in skip <==> c in base || ("count" !in cols && (c == "count" || c == "count_units"))
  {
    if "count" !in cols then base + ["count", "count_units"] else base
  }

  /** `df["usage_units"] = units.get("usage_units")` when the frame has a
      "usage" column and the caller asks for it. */
  function WithUsageUnits(df: seq<Row>, usageUnits: Option<Value>): (r: seq<Row>)
    ensures |r| == |df|
    ensures forall i, k :: 0 <= i < |df| && k != "usage_units" ==> RowGet(r[i], k) == RowGet(df[i], k)
    ensures usageUnits.Some? && "usage" in Columns(df) ==>
      forall i :: 0 <= i < |r| ==> RowGet(r[i], "usage_units") == usageUnits.value
    ensures !(usageUnits.Some? && "usage" in Columns(df)) ==> r == df
  {
    if usageUnits.Some? && "usage" in Columns(df) then SetColumn(df, "usage_units", usageUnits.value) else df
  }

  /** The converted frame grouped by currency and folded into one dict.
      `usageUnits`, when given, is written to a "usage_units" column once
      the frame has a "usage" column. */
  function CurrencyTotal(rows: seq<Row>, cols: seq<string>, rateKey: string, t: RateTable, target: string,
                         base: seq<string>, annotations: seq<string>, usageUnits: Option<Value>): Result<Dict<Value>, PyError>
  {
    var converted :- ConvertColumns(rows, cols, rateKey, t, target);
    var skip := SkipColumns(base, Columns(converted));
    var df := WithUsageUnits(converted, usageUnits);
    var aggs := AggsFor(annotations, skip);
    var recs :- GroupAgg(df, ["currency"], aggs);
    FoldTotalsSpec(recs)
  }

  method ComputeCurrencyTotal(rows: seq<Row>, cols: seq<string>, rateKey: string, t: RateTable, target: string,
                              base: seq<string>, annotations: seq<string>, usageUnits: Option<Value>)
    returns (res: Result<Dict<Value>, PyError>)
    ensures res == CurrencyTotal(rows, cols, rateKey, t, target, base, annotations, usageUnits)
  {
    var converted := ConvertFrame(rows, cols, rateKey, t, target);
    if converted.Failure? {
      return Failure(converted.error);
    }
    var df := converted.value;
    var skip := SkipColumns(base, Columns(df));
    if usageUnits.Some? && "usage" in Columns(df) {
      df := SetColumn(df, "usage_units", usageUnits.value);
    }
    assert df == WithUsageUnits(converted.value, usageUnits);
    var aggs := AggsFor(annotations, skip);
    var recs := GroupAgg(df, ["currency"], aggs);
    if recs.Failure? {
      return Failure(recs.error);
    }
    res := FoldTotals(recs.value);
  }

  // ---------------------------------------------------------------------
  // What the total of a summed column is

  /** What a row adds to the converted total of column `c`. */
  function ConvertedAmount(row: Row, c: string, key: string, t: RateTable, target: string): real {
    var rate := Rate(t, RowGet(row, key), target);
    if rate.Success? then Amount(RowGet(row, c)) * rate.value else 0.0
  }

  /** The sum of column `c` with every row converted at its own rate. */
  function ConvertedSum(rows: seq<Row>, c: string, key: string, t: RateTable, target: string): real
    decreases |rows|
  {
    if rows == [] then 0.0
    else ConvertedSum(rows[..|rows| - 1], c, key, t, target) + ConvertedAmount(rows[|rows| - 1], c, key, t, target)
  }

  lemma ConvertedSumSnoc(rows: seq<Row>, x: Row, c: string, key: string, t: RateTable, target: string)
    ensures ConvertedSum(rows + [x], c, key, t, target) == ConvertedSum(rows, c, key, t, target) + ConvertedAmount(x, c, key, t, target)
  {
    assert (rows + [x])[..|rows + [x]| - 1] == rows;
  }

  /** Rows changed one by one, keeping whether they are keyed and adding
      their converted amount at `c`: the keyed rows keep their total. */
  lemma {:induction false} KeyedConvertedSum(rows: seq<Row>, out: seq<Row>, keys: seq<string>, c: string,
                                            key: string, t: RateTable, target: string)
    requires |out| == |rows|
    requires forall i :: 0 <= i < |rows| ==> (Keyed(out[i], keys) <==> Keyed(rows[i], keys))
    requires forall i :: 0 <= i < |rows| ==> Amount(RowGet(out[i], c)) == ConvertedAmount(rows[i], c, key, t, target)
    ensures NumSum(KeyedRows(out, keys), c) == ConvertedSum(KeyedRows(rows, keys), c, key, t, target)
    decreases |rows|
  {
    if rows != [] {
      var n := |rows|;
      var fr := rows[..n - 1];
      var fo := out[..n - 1];
      assert forall i :: 0 <= i < n - 1 ==> fr[i] == rows[i] && fo[i] == out[i];
      KeyedConvertedSum(fr, fo, keys, c, key, t, target);
      var kr := KeyedRows(fr, keys);
      var ko := KeyedRows(fo, keys);
      if Keyed(rows[n - 1], keys) {
        assert KeyedRows(rows, keys) == kr + [rows[n - 1]];
        assert KeyedRows(out, keys) == ko + [out[n - 1]];
        NumSumSnoc(ko, out[n - 1], c);
        ConvertedSumSnoc(kr, rows[n - 1], c, key, t, target);
      } else {
        assert KeyedRows(rows, keys) == kr;
        assert KeyedRows(out, keys) == ko;
      }
    }
  }

  /** When every row is keyed, the grouping drops nothing. */
  lemma {:induction false} AllKeyed(rows: seq<Row>, keys: seq<string>)
    requires forall i :: 0 <= i < |rows| ==> Keyed(rows[i], keys)
    ensures KeyedRows(rows, keys) == rows
    decreases |rows|
  {
    if rows != [] {
      AllKeyed(rows[..|rows| - 1], keys);
      assert rows == rows[..|rows| - 1] + [rows[|rows| - 1]];
    }
  }

  /** One converted row at the summed column and at the currency column. */
  lemma ConvertedRowAt(row: Row, cols: seq<string>, key: string, t: RateTable, target: string, c: string)
    requires c in cols && "currency" !in cols && "cost_units" !in cols && RowConvertible(row, cols, key, t, target)
    ensures var out := ConvertedRow(row, cols, key, t, target);
      Amount(RowGet(out, c)) == ConvertedAmount(row, c, key, t, target) &&
      RowGet(out, "currency") == RowGet(row, "currency")
  {
    var rate := Rate(t, RowGet(row, key), target).value;
    assert RowGet(row, c).VNum?;
    assert ConvertedRow(row, cols, key, t, target)[c] == VNum(row[c].r * rate);
  }

  /** The frame that is grouped, row by row: keyed as the input row is, and
      holding the converted amount at a converted column. */
  lemma GroupedFrameRows(rows: seq<Row>, cols: seq<string>, rateKey: string, t: RateTable, target: string,
                         usageUnits: Option<Value>, c: string)
    requires Distinct(cols) && rateKey !in cols && "cost_units" !in cols && rateKey != "cost_units" && "currency" !in cols
    requires c in cols && c != "usage_units"
    requires ConvertColumns(rows, cols, rateKey, t, target).Success?
    ensures var converted := ConvertColumns(rows, cols, rateKey, t, target).value;
      var df := WithUsageUnits(converted, usageUnits);
      NumSum(KeyedRows(df, ["currency"]), c) == ConvertedSum(KeyedRows(rows, ["currency"]), c, rateKey, t, target)
  {
    ConvertColumnsMeaning(rows, cols, rateKey, t, target);
    var converted := ConvertColumns(rows, cols, rateKey, t, target).value;
    var df := WithUsageUnits(converted, usageUnits);
    forall i | 0 <= i < |rows|
      ensures (Keyed(df[i], ["currency"]) <==> Keyed(rows[i], ["currency"]))
      ensures Amount(RowGet(df[i], c)) == ConvertedAmount(rows[i], c, rateKey, t, target)
    {
      ConvertedRowAt(rows[i], cols, rateKey, t, target, c);
      assert RowGet(df[i], c) == RowGet(converted[i], c);
      assert RowGet(df[i], "currency") == RowGet(converted[i], "currency");
    }
    KeyedConvertedSum(rows, df, ["currency"], c, rateKey, t, target);
  }

  /** A column of the annotations that is not skipped and has no "units" in
      its name is summed. */
  lemma SummedColumn(annotations: seq<string>, skip: seq<string>, c: string)
    requires c in annotations && c !in skip && !Contains(c, "units")
    ensures Get(AggsFor(annotations, skip), c) == Some(SumAgg)
  {
  }

  /** The unit columns carry units in their names. */
  lemma UnitsColumns()
    ensures Contains("usage_units", "units") && Contains("count_units", "units") && Contains("cost_units", "units")
  {
    assert "usage_units"[6..][..5] == "units";
    assert "count_units"[6..][..5] == "units";
    assert "cost_units"[5..][..5] == "units";
  }

  /** The total of a summed column: a column that is converted, is one of
      the report's annotations, is not skipped and has no "units" in its
      name ends up as the sum of its converted amounts over the rows that
      have a currency. */
  lemma CurrencyTotalSum(rows: seq<Row>, cols: seq<string>, rateKey: string, t: RateTable, target: string,
                         base: seq<string>, annotations: seq<string>, usageUnits: Option<Value>, c: string)
    requires Distinct(cols) && rateKey !in cols && "cost_units" !in cols && rateKey != "cost_units" && "currency" !in cols
    requires c in cols && c in annotations && c !in base && c != "count" && c != "count_units" && !Contains(c, "units")
    requires CurrencyTotal(rows, cols, rateKey, t, target, base, annotations, usageUnits).Success?
    ensures Get(CurrencyTotal(rows, cols, rateKey, t, target, base, annotations, usageUnits).value, c) ==
      Some(VNum(ConvertedSum(KeyedRows(rows, ["currency"]), c, rateKey, t, target)))
  {
    var converted := ConvertColumns(rows, cols, rateKey, t, target).value;
    var skip := SkipColumns(base, Columns(converted));
    var df := WithUsageUnits(converted, usageUnits);
    var aggs := AggsFor(annotations, skip);
    SummedColumn(annotations, skip, c);
    var recs := GroupAgg(df, ["currency"], aggs).value;
    assert CurrencyTotal(rows, cols, rateKey, t, target, base, annotations, usageUnits) == FoldTotalsSpec(recs);
    GroupAggSums(df, ["currency"], aggs, c);
    FoldTotalsMeaning(recs, c);
    UnitsColumns();
    GroupedFrameRows(rows, cols, rateKey, t, target, usageUnits, c);
  }

  /** When the rates are looked up by the currency column itself, every
      row has a currency and the total covers all rows. */
  lemma CurrencyKeyedTotalSum(rows: seq<Row>, cols: seq<string>, t: RateTable, target: string,
                              base: seq<string>, annotations: seq<string>, usageUnits: Option<Value>, c: string)
    requires Distinct(cols) && "currency" !in cols && "cost_units" !in cols
    requires c in cols && c in annotations && c !in base && c != "count" && c != "count_units" && !Contains(c, "units")
    requires CurrencyTotal(rows, cols, "currency", t, target, base, annotations, usageUnits).Success?
    ensures Get(CurrencyTotal(rows, cols, "currency", t, target, base, annotations, usageUnits).value, c) ==
      Some(VNum(ConvertedSum(rows, c, "currency", t, target)))
  {
    CurrencyTotalSum(rows, cols, "currency", t, target, base, annotations, usageUnits, c);
    ConvertColumnsMeaning(rows, cols, "currency", t, target);
    forall i | 0 <= i < |rows| ensures Keyed(rows[i], ["currency"]) {
      assert RowConvertible(rows[i], cols, "currency", t, target);
    }
    AllKeyed(rows, ["currency"]);
  }

  /** A row in a currency the table has no rate for makes the total fail. */
  lemma CurrencyTotalMissingRate(rows: seq<Row>, cols: seq<string>, rateKey: string, t: RateTable, target: string,
                                 base: seq<string>, annotations: seq<string>, usageUnits: Option<Value>, i: nat)
    requires Distinct(cols) && rateKey !in cols && "cost_units" !in cols && rateKey != "cost_units"
    requires cols != [] && i < |rows| && Rate(t, RowGet(rows[i], rateKey), target).Failure?
    ensures CurrencyTotal(rows, cols, rateKey, t, target, base, annotations, usageUnits).Failure?
  {
    MissingRateFails(rows, cols, rateKey, t, target, i);
  }

  /** The currency key never survives into the total. */
  lemma CurrencyTotalDropsCurrency(rows: seq<Row>, cols: seq<string>, rateKey: string, t: RateTable, target: string,
                                   base: seq<string>, annotations: seq<string>, usageUnits: Option<Value>)
    requires CurrencyTotal(rows, cols, rateKey, t, target, base, annotations, usageUnits).Success?
    ensures "currency" !in CurrencyTotal(rows, cols, rateKey, t, target, base, annotations, usageUnits).value.keys
  {
    var converted := ConvertColumns(rows, cols, rateKey, t, target).value;
    var skip := SkipColumns(base, Columns(converted));
    var df := WithUsageUnits(converted, usageUnits);
    var recs := GroupAgg(df, ["currency"], AggsFor(annotations, skip)).value;
    FoldTotalsMeaning(recs, "currency");
  }
}
