/** Per-row currency conversion as both report handlers do it: for each
    aggregate column in turn, every row's amount is multiplied by
    `exchange_rates[row[key]][target]`, and after each column the whole
    `cost_units` column is set to the target currency. */
module Currency {
  import opened Wrappers
  import opened PyValues

  /** An exchange-rate table: source currency -> target currency -> rate. */
  type RateTable = map<string, map<string, real>>

  // The rates are the exact values of the Decimal literals in the source.
  const EurToUsd: real := 1.0718113612004287471535235454211942851543426513671875
  const GbpToUsd: real := 1.25470514429109147869212392834015190601348876953125
  const JpyToUsd: real := 0.007456565505927968857957655046675427001900970935821533203125

  /** The table of the GCP handler (it has AUD, and USD converts only to USD). */
  const GcpRates: RateTable := map[
    "EUR" := map["USD" := EurToUsd, "CAD" := 1.25],
    "GBP" := map["USD" := GbpToUsd, "CAD" := 1.34],
    "JPY" := map["USD" := JpyToUsd, "CAD" := 1.34],
    "AUD" := map["USD" := 0.7194244604, "CAD" := 1.34],
    "USD" := map["USD" := 1.0]
  ]

  /** The table of the OCP-on-Azure handler (no AUD row). */
  const OcpAzureRates: RateTable := map[
    "USD" := map["USD" := 1.0],
    "EUR" := map["USD" := EurToUsd, "CAD" := 1.25],
    "GBP" := map["USD" := GbpToUsd, "CAD" := 1.34],
    "JPY" := map["USD" := JpyToUsd, "CAD" := 1.34]
  ]

  /** `exchange_rates[source][target]`; a KeyError names the missing key. */
  function Rate(t: RateTable, source: Value, target: string): (r: Result<real, PyError>)
    ensures r.Success? <==> source.VStr? && source.s in t && target in t[source.s]
    ensures r.Success? ==> r.value == t[source.s][target]
  {
    if !source.VStr? || source.s !in t then Failure(KeyError(source))
    else if target !in t[source.s] then Failure(KeyError(VStr(target)))
    else Success(t[source.s][target])
  }

  /** One cell of `row[column] * exchange_rates[row[key]][target]`: the
      amount is read first, then the rate is looked up, then they are
      multiplied (anything but a number there is a TypeError). */
  function ConvertCell(row: Row, column: string, key: string, t: RateTable, target: string): Result<Value, PyError> {
    var amount := RowGet(row, column);
    var rate :- Rate(t, RowGet(row, key), target);
    if amount.VNum? then Success(VNum(amount.r * rate)) else Failure(TypeError)
  }

  /** The new rows after `df[column] = df.apply(...)`: the rows from a
      given one on, failing at the first row that raises. */
  function ConvertRowsFrom(rows: seq<Row>, column: string, key: string, t: RateTable, target: string): Result<seq<Row>, PyError> {
    if rows == [] then Success([])
    else
      var cell :- ConvertCell(rows[0], column, key, t, target);
      var rest :- ConvertRowsFrom(rows[1..], column, key, t, target);
      Success([rows[0][column := cell]] + rest)
  }

  /** One column of the conversion loop; a column (or the currency key)
      the frame does not have at all raises KeyError at the first row. */
  function ConvertColumn(rows: seq<Row>, column: string, key: string, t: RateTable, target: string): Result<seq<Row>, PyError> {
    if rows != [] && column !in Columns(rows) then Failure(KeyError(VStr(column)))
    else if rows != [] && key !in Columns(rows) then Failure(KeyError(VStr(key)))
    else ConvertRowsFrom(rows, column, key, t, target)
  }

  /** The whole loop over `columns`, column by column, with `df["cost_units"]
      = target` after each column. */
  function ConvertColumns(rows: seq<Row>, cols: seq<string>, key: string, t: RateTable, target: string): Result<seq<Row>, PyError>
    decreases |cols|
  {
    if cols == [] then Success(rows)
    else
      var once :- ConvertColumn(rows, cols[0], key, t, target);
      ConvertColumns(SetColumn(once, "cost_units", VStr(target)), cols[1..], key, t, target)
  }

  /** Prefix `done` to a successful result. */
  function Prepend(done: seq<Row>, r: Result<seq<Row>, PyError>): Result<seq<Row>, PyError> {
    if r.Success? then Success(done + r.value) else r
  }

  /** `df[column] = df.apply(lambda row: ..., axis=1)`: the new rows, or
      the exception of the first row that raises. */
  method ConvertOneColumn(df: seq<Row>, column: string, key: string, t: RateTable, target: string)
    returns (res: Result<seq<Row>, PyError>)
    ensures res == ConvertRowsFrom(df, column, key, t, target)
  {
    var converted: seq<Row> := [];
    assert df[0..] == df;
    assert forall v: seq<Row> :: [] + v == v;
    for i := 0 to |df|
      invariant |converted| == i
      invariant ConvertRowsFrom(df, column, key, t, target) == Prepend(converted, ConvertRowsFrom(df[i..], column, key, t, target))
    {
      assert df[i..][1..] == df[i + 1..];
      var cell := ConvertCell(df[i], column, key, t, target);
      if cell.Failure? {
        return Failure(cell.error);
      }
      var x := df[i][column := cell.value];
      var rest := ConvertRowsFrom(df[i + 1..], column, key, t, target);
      if rest.Success? {
        assert converted + ([x] + rest.value) == (converted + [x]) + rest.value;
      }
      converted := converted + [x];
    }
    assert df[|df|..] == [];
    assert converted + [] == converted;
    return Success(converted);
  }

  /** The conversion loop of the handlers, over the rows of a data frame. */
  method ConvertFrame(rows: seq<Row>, cols: seq<string>, key: string, t: RateTable, target: string)
    returns (res: Result<seq<Row>, PyError>)
    ensures res == ConvertColumns(rows, cols, key, t, target)
  {
    var df := rows;
    for j := 0 to |cols|
      invariant ConvertColumns(rows, cols, key, t, target) == ConvertColumns(df, cols[j..], key, t, target)
    {
      var column := cols[j];
      assert cols[j..][1..] == cols[j + 1..];
      if df != [] && column !in Columns(df) {
        return Failure(KeyError(VStr(column)));
      }
      if df != [] && key !in Columns(df) {
        return Failure(KeyError(VStr(key)));
      }
      var converted := ConvertOneColumn(df, column, key, t, target);
      if converted.Failure? {
        return Failure(converted.error);
      }
      df := SetColumn(converted.value, "cost_units", VStr(target));
    }
    assert cols[|cols|..] == [];
    return Success(df);
  }

  // ---------------------------------------------------------------------
  // What the loop computes, row by row

  /** A number scaled by a rate; other values are left alone. */
  function Scaled(v: Value, rate: real): Value {
    if v.VNum? then VNum(v.r * rate) else v
  }

  /** A row can be converted: its currency has a rate to the target and
      every column to convert holds a number. */
  predicate RowConvertible(row: Row, cols: seq<string>, key: string, t: RateTable, target: string) {
    Rate(t, RowGet(row, key), target).Success? &&
    forall c :: c in cols ==> RowGet(row, c).VNum?
  }

  /** The converted row, stated directly: every column of `cols` multiplied
      by the row's rate, `cost_units` set to the target, the rest untouched. */
  function ConvertedRow(row: Row, cols: seq<string>, key: string, t: RateTable, target: string): Row
    requires RowConvertible(row, cols, key, t, target)
  {
    if cols == [] then row
    else
      var rate := Rate(t, RowGet(row, key), target).value;
      (map k | k in row.Keys :: if k in cols then Scaled(row[k], rate) else row[k])["cost_units" := VStr(target)]
  }

  /** One row after the conversion of a single column. */
  function OneColumnConverted(row: Row, column: string, key: string, t: RateTable, target: string): Row
    requires RowConvertible(row, [column], key, t, target)
  {
    row[column := VNum(RowGet(row, column).r * Rate(t, RowGet(row, key), target).value)]
  }

  lemma {:induction false} ConvertRowsFromAll(rows: seq<Row>, column: string, key: string, t: RateTable, target: string)
    ensures ConvertRowsFrom(rows, column, key, t, target).Success? <==>
      forall i :: 0 <= i < |rows| ==> RowConvertible(rows[i], [column], key, t, target)
    ensures ConvertRowsFrom(rows, column, key, t, target).Success? ==>
      |ConvertRowsFrom(rows, column, key, t, target).value| == |rows|
    ensures ConvertRowsFrom(rows, column, key, t, target).Success? ==>
      forall i :: 0 <= i < |rows| ==>
        ConvertRowsFrom(rows, column, key, t, target).value[i] == OneColumnConverted(rows[i], column, key, t, target)
  {
    if rows != [] {
      var tl := rows[1..];
      ConvertRowsFromAll(tl, column, key, t, target);
      assert forall i :: 1 <= i < |rows| ==> rows[i] == tl[i - 1];
      var r := ConvertRowsFrom(rows, column, key, t, target);
      if r.Success? {
        assert ConvertCell(rows[0], column, key, t, target).Success?;
        assert ConvertRowsFrom(tl, column, key, t, target).Success?;
        var rest := ConvertRowsFrom(tl, column, key, t, target).value;
        var cell := ConvertCell(rows[0], column, key, t, target).value;
        assert RowGet(rows[0], column).VNum?;
        assert r.value == [rows[0][column := cell]] + rest;
        forall i | 0 <= i < |rows|
          ensures r.value[i] == OneColumnConverted(rows[i], column, key, t, target)
        {
          if i == 0 {
            assert r.value[0] == rows[0][column := cell];
            assert cell == VNum(RowGet(rows[0], column).r * Rate(t, RowGet(rows[0], key), target).value);
            assert r.value[i] == OneColumnConverted(rows[i], column, key, t, target);
          } else {
            assert r.value[i] == rest[i - 1] && rows[i] == tl[i - 1];
            assert rest[i - 1] == OneColumnConverted(tl[i - 1], column, key, t, target);
          }
        }
      }
    }
  }

  lemma ColumnsOfConvertible(rows: seq<Row>, cols: seq<string>, key: string, t: RateTable, target: string, c: string)
    requires rows != [] && c in cols
    requires forall i :: 0 <= i < |rows| ==> RowConvertible(rows[i], cols, key, t, target)
    ensures c in Columns(rows) && key in Columns(rows)
  {
    assert RowConvertible(rows[0], cols, key, t, target);
    assert RowGet(rows[0], c).VNum? && RowGet(rows[0], key).VStr?;
  }

  /** Converting column `c` and setting `cost_units` keeps what the later
      columns need, and composes with converting the rest of the columns. */
  lemma ConvertedRowStep(row: Row, cols: seq<string>, key: string, t: RateTable, target: string)
    requires cols != [] && Distinct(cols) && key !in cols && "cost_units" !in cols && key != "cost_units"
    requires RowConvertible(row, [cols[0]], key, t, target)
    ensures var r1 := OneColumnConverted(row, cols[0], key, t, target)["cost_units" := VStr(target)];
      (RowConvertible(row, cols, key, t, target) <==> RowConvertible(r1, cols[1..], key, t, target)) &&
      (RowConvertible(row, cols, key, t, target) ==>
        ConvertedRow(row, cols, key, t, target) ==
          if cols[1..] == [] then r1 else ConvertedRow(r1, cols[1..], key, t, target))
  {
    var c, cs := cols[0], cols[1..];
    assert c !in cs by {
      forall i | 0 <= i < |cs| ensures cs[i] != c { assert cs[i] == cols[i + 1]; }
    }
    var r1 := OneColumnConverted(row, c, key, t, target)["cost_units" := VStr(target)];
    assert RowGet(r1, key) == RowGet(row, key);
    assert forall d :: d in cs ==> RowGet(r1, d) == RowGet(row, d);
    if RowConvertible(row, cols, key, t, target) {
      var want := ConvertedRow(row, cols, key, t, target);
      var got := if cs == [] then r1 else ConvertedRow(r1, cs, key, t, target);
      assert got.Keys == want.Keys;
      forall k | k in want.Keys ensures got[k] == want[k] {
        if k == "cost_units" {
        } else if k == c {
        } else if k in cs {
        } else {
        }
      }
      assert got == want;
    }
  }

  /** The partner of the loop: it succeeds exactly when every row can be
      converted (no row is ever skipped), and then every row is the
      directly stated `ConvertedRow`. */
  lemma {:induction false} ConvertColumnsMeaning(rows: seq<Row>, cols: seq<string>, key: string, t: RateTable, target: string)
    requires Distinct(cols) && key !in cols && "cost_units" !in cols && key != "cost_units"
    ensures ConvertColumns(rows, cols, key, t, target).Success? <==>
      (cols == [] || forall i :: 0 <= i < |rows| ==> RowConvertible(rows[i], cols, key, t, target))
    ensures cols == [] ==> ConvertColumns(rows, cols, key, t, target) == Success(rows)
    ensures ConvertColumns(rows, cols, key, t, target).Success? && cols != [] ==>
      var out := ConvertColumns(rows, cols, key, t, target).value;
      |out| == |rows| &&
      forall i :: 0 <= i < |rows| ==>
        RowConvertible(rows[i], cols, key, t, target) && out[i] == ConvertedRow(rows[i], cols, key, t, target)
    decreases |cols|
  {
    if cols != [] {
      var c := cols[0];
      var cs := cols[1..];
      assert Distinct(cs) by {
        forall i, j | 0 <= i < j < |cs| ensures cs[i] != cs[j] { assert cs[i] == cols[i + 1] && cs[j] == cols[j + 1]; }
      }
      ConvertRowsFromAll(rows, c, key, t, target);
      var col0 := ConvertColumn(rows, c, key, t, target);
      if forall i :: 0 <= i < |rows| ==> RowConvertible(rows[i], cols, key, t, target) {
        FirstColumnConverts(rows, cols, key, t, target);
      }
      if col0.Success? {
        var once := col0.value;
        var rows1 := SetColumn(once, "cost_units", VStr(target));
        ConvertColumnsMeaning(rows1, cs, key, t, target);
        assert ConvertColumns(rows, cols, key, t, target) == ConvertColumns(rows1, cs, key, t, target);
        assert |once| == |rows| && |rows1| == |rows|;
        forall i | 0 <= i < |rows|
          ensures RowConvertible(rows[i], cols, key, t, target) <==> RowConvertible(rows1[i], cs, key, t, target)
          ensures RowConvertible(rows[i], cols, key, t, target) ==>
            ConvertedRow(rows[i], cols, key, t, target) ==
              if cs == [] then rows1[i] else ConvertedRow(rows1[i], cs, key, t, target)
        {
          ConvertedRowStep(rows[i], cols, key, t, target);
        }
      }
    }
  }

  /** When every row can be converted, so can the first column. */
  lemma FirstColumnConverts(rows: seq<Row>, cols: seq<string>, key: string, t: RateTable, target: string)
    requires cols != [] && key !in cols
    requires forall i :: 0 <= i < |rows| ==> RowConvertible(rows[i], cols, key, t, target)
    ensures ConvertColumn(rows, cols[0], key, t, target).Success?
  {
    var c := cols[0];
    ConvertRowsFromAll(rows, c, key, t, target);
    if rows != [] {
      ColumnsOfConvertible(rows, cols, key, t, target, c);
    }
    forall i | 0 <= i < |rows| ensures RowConvertible(rows[i], [c], key, t, target) {
      assert RowConvertible(rows[i], cols, key, t, target);
    }
  }

  /** Currency identity: with a rate of exactly 1 from a currency to itself,
      rows already in the target currency keep every amount. */
  lemma ConvertIdentity(rows: seq<Row>, cols: seq<string>, key: string, t: RateTable, cur: string)
    requires Distinct(cols) && key !in cols && "cost_units" !in cols && key != "cost_units"
    requires cur in t && cur in t[cur] && t[cur][cur] == 1.0
    requires forall i :: 0 <= i < |rows| ==> RowGet(rows[i], key) == VStr(cur)
    requires forall i, c :: 0 <= i < |rows| && c in cols ==> RowGet(rows[i], c).VNum?
    ensures ConvertColumns(rows, cols, key, t, cur).Success?
    ensures var out := ConvertColumns(rows, cols, key, t, cur).value;
      |out| == |rows| &&
      forall i, c :: 0 <= i < |rows| && c in cols ==> RowGet(out[i], c) == RowGet(rows[i], c)
  {
    forall i | 0 <= i < |rows| ensures RowConvertible(rows[i], cols, key, t, cur) {
    }
    ConvertColumnsMeaning(rows, cols, key, t, cur);
    var out := ConvertColumns(rows, cols, key, t, cur).value;
    forall i, c | 0 <= i < |rows| && c in cols ensures RowGet(out[i], c) == RowGet(rows[i], c) {
      assert RowGet(rows[i], c).VNum?;
      assert c in rows[i];
      assert out[i] == ConvertedRow(rows[i], cols, key, t, cur);
    }
  }

  /** A row whose currency has no rate to the target makes the whole
      conversion fail (it is not skipped). */
  lemma MissingRateFails(rows: seq<Row>, cols: seq<string>, key: string, t: RateTable, target: string, i: nat)
    requires Distinct(cols) && key !in cols && "cost_units" !in cols && key != "cost_units"
    requires cols != [] && i < |rows|
    requires Rate(t, RowGet(rows[i], key), target).Failure?
    ensures ConvertColumns(rows, cols, key, t, target).Failure?
  {
    ConvertColumnsMeaning(rows, cols, key, t, target);
  }

  /** The GCP table: USD converts to USD at exactly 1 and has no CAD rate. */
  lemma GcpRatesFacts()
    ensures Rate(GcpRates, VStr("USD"), "USD") == Success(1.0)
    ensures Rate(GcpRates, VStr("USD"), "CAD").Failure?
    ensures Rate(GcpRates, VStr("AUD"), "USD") == Success(0.7194244604)
  {
  }

  /** The OCP-on-Azure table has no AUD row and no USD to CAD rate. */
  lemma OcpAzureRatesFacts()
    ensures forall target :: Rate(OcpAzureRates, VStr("AUD"), target).Failure?
    ensures Rate(OcpAzureRates, VStr("USD"), "CAD").Failure?
    ensures Rate(OcpAzureRates, VStr("EUR"), "USD") == Success(EurToUsd)
  {
  }
}
