/** The pandas side of the report handlers, written out as folds:
    `df.groupby(keys).agg(aggs)` followed by `reset_index()` and
    `to_dict("records")`, and the loop that folds the per-currency records
    of a total into one `defaultdict(Decimal)`. */
module Aggregation {
  import opened Wrappers
  import opened PyValues

  // ---------------------------------------------------------------------
  // Which aggregation each column gets

  datatype AggKind = SumAgg | MaxAgg

  /** `["max"] if "units" in col else ["sum"]`. */
  function KindFor(col: string): AggKind {
    if Contains(col, "units") then MaxAgg else SumAgg
  }

  /** The `aggs` comprehension: a column of the report annotations gets an
      aggregation unless it is skipped; the first occurrence fixes its place. */
  function AggsFor(annotations: seq<string>, skip: seq<string>): (aggs: Dict<AggKind>)
    ensures forall col :: col in aggs.keys <==> col in annotations && col !in skip
    ensures forall col :: col in aggs.keys ==> aggs.vals[col] == KindFor(col)
    decreases |annotations|
  {
    if annotations == [] then Empty()
    else
      var front := annotations[..|annotations| - 1];
      var col := annotations[|annotations| - 1];
      assert annotations == front + [col];
      var init := AggsFor(front, skip);
      if col in skip then init else Set(init, col, KindFor(col))
  }

  // ---------------------------------------------------------------------
  // Aggregating one column of one group

  /** What a cell adds to a sum: its number, or nothing for a missing value. */
  function Amount(v: Value): real {
    if v.VNum? then v.r else 0.0
  }

  /** The sum of the numbers in column `c`, missing values skipped. */
  function NumSum(rows: seq<Row>, c: string): real
    decreases |rows|
  {
    if rows == [] then 0.0 else NumSum(rows[..|rows| - 1], c) + Amount(RowGet(rows[|rows| - 1], c))
  }

  /** Every cell of column `c` is a number or missing. */
  predicate Summable(rows: seq<Row>, c: string) {
    forall i :: 0 <= i < |rows| ==> RowGet(rows[i], c).VNone? || RowGet(rows[i], c).VNum?
  }

  /** `sum` of a column: missing values are skipped (an all-missing column
      sums to 0); anything but a number is a TypeError. */
  function SumCells(rows: seq<Row>, c: string): Result<Value, PyError> {
    if Summable(rows, c) then Success(VNum(NumSum(rows, c))) else Failure(TypeError)
  }

  /** Python's `<` on strings: lexicographic by code point. */
  predicate StrLess(a: string, b: string)
    decreases |a|
  {
    if a == [] then b != []
    else if b == [] then false
    else if a[0] != b[0] then a[0] < b[0]
    else StrLess(a[1..], b[1..])
  }

  /** One step of `max`: missing values are skipped, numbers compare with
      numbers and strings with strings, anything else is a TypeError. */
  function MaxPair(acc: Value, v: Value): Result<Value, PyError> {
    if v.VNone? then Success(acc)
    else if acc.VNone? then Success(v)
    else if acc.VNum? && v.VNum? then Success(if v.r > acc.r then v else acc)
    else if acc.VStr? && v.VStr? then Success(if StrLess(acc.s, v.s) then v else acc)
    else Failure(TypeError)
  }

  /** `max` of a column; an all-missing column gives a missing value. */
  function MaxCells(rows: seq<Row>, c: string): Result<Value, PyError>
    decreases |rows|
  {
    if rows == [] then Success(VNone)
    else
      var acc :- MaxCells(rows[..|rows| - 1], c);
      MaxPair(acc, RowGet(rows[|rows| - 1], c))
  }

  /** No cell of column `c` holds a value. */
  predicate AllMissing(rows: seq<Row>, c: string) {
    forall i :: 0 <= i < |rows| ==> RowGet(rows[i], c) == VNone
  }

  /** A units column whose cells all carry the same label (or nothing)
      aggregates to that label: `max` never invents a unit. */
  lemma {:induction false} MaxOfUniform(rows: seq<Row>, c: string, v: Value)
    requires v.VNum? || v.VStr?
    requires forall i :: 0 <= i < |rows| ==> RowGet(rows[i], c) == v || RowGet(rows[i], c) == VNone
    ensures MaxCells(rows, c) == Success(if AllMissing(rows, c) then VNone else v)
    decreases |rows|
  {
    if rows != [] {
      var front := rows[..|rows| - 1];
      assert forall i :: 0 <= i < |front| ==> front[i] == rows[i];
      MaxOfUniform(front, c, v);
      if v.VStr? {
        assert !StrLess(v.s, v.s) by { StrLessIrreflexive(v.s); }
      }
      if AllMissing(front, c) && RowGet(rows[|rows| - 1], c) == VNone {
        assert AllMissing(rows, c);
      } else if !AllMissing(front, c) {
        assert !AllMissing(rows, c) by {
          var i :| 0 <= i < |front| && RowGet(front[i], c) != VNone;
          assert RowGet(rows[i], c) != VNone;
        }
      }
    }
  }

  lemma {:induction false} StrLessIrreflexive(s: string)
    ensures !StrLess(s, s)
    decreases |s|
  {
    if s != [] {
      StrLessIrreflexive(s[1..]);
    }
  }

  /** A numeric `max` is at least every number of the column and is one of
      the column's cells. */
  lemma {:induction false} MaxIsMaximum(rows: seq<Row>, c: string)
    requires MaxCells(rows, c).Success? && MaxCells(rows, c).value.VNum?
    ensures forall i :: 0 <= i < |rows| && RowGet(rows[i], c).VNum? ==> RowGet(rows[i], c).r <= MaxCells(rows, c).value.r
    ensures exists i :: 0 <= i < |rows| && RowGet(rows[i], c) == MaxCells(rows, c).value
    decreases |rows|
  {
    var front := rows[..|rows| - 1];
    var last := RowGet(rows[|rows| - 1], c);
    assert forall i :: 0 <= i < |front| ==> front[i] == rows[i];
    var acc := MaxCells(front, c).value;
    var m := MaxCells(rows, c).value;
    if acc.VNone? {
      assert m == last;
      assert forall i :: 0 <= i < |front| ==> RowGet(front[i], c) == VNone by {
        forall i | 0 <= i < |front| ensures RowGet(front[i], c) == VNone {
          NoneMaxMeansMissing(front, c, i);
        }
      }
      assert RowGet(rows[|rows| - 1], c) == m;
    } else {
      MaxIsMaximum(front, c);
      var j :| 0 <= j < |front| && RowGet(front[j], c) == acc;
      assert RowGet(rows[j], c) == acc;
      if m == last {
        assert RowGet(rows[|rows| - 1], c) == m;
      } else {
        assert m == acc;
      }
    }
  }

  lemma {:induction false} NoneMaxMeansMissing(rows: seq<Row>, c: string, i: nat)
    requires MaxCells(rows, c) == Success(VNone) && i < |rows|
    ensures RowGet(rows[i], c) == VNone
    decreases |rows|
  {
    var front := rows[..|rows| - 1];
    assert MaxCells(front, c).Success?;
    var acc := MaxCells(front, c).value;
    if acc.VNone? {
      if i < |front| {
        NoneMaxMeansMissing(front, c, i);
        assert rows[i] == front[i];
      }
    } else {
      assert false;
    }
  }

  /** One aggregated value of a group. */
  function AggregateColumn(group: seq<Row>, col: string, kind: AggKind): Result<Value, PyError> {
    match kind
    case SumAgg => SumCells(group, col)
    case MaxAgg => MaxCells(group, col)
  }

  // ---------------------------------------------------------------------
  // Grouping

  /** The values of the group-by columns of a row. */
  function KeyOf(row: Row, keys: seq<string>): (g: seq<Value>)
    ensures |g| == |keys|
    ensures forall m :: 0 <= m < |keys| ==> g[m] == RowGet(row, keys[m])
  {
    seq(|keys|, m requires 0 <= m < |keys| => RowGet(row, keys[m]))
  }

  /** A row takes part in the grouping only if none of its group-by values
      is missing (pandas drops the others). */
  predicate Keyed(row: Row, keys: seq<string>) {
    forall k :: k in keys ==> RowGet(row, k) != VNone
  }

  /** Some row of `rows` takes part in the grouping with group key `g`. */
  predicate HasGroup(rows: seq<Row>, keys: seq<string>, g: seq<Value>) {
    exists i :: 0 <= i < |rows| && Keyed(rows[i], keys) && KeyOf(rows[i], keys) == g
  }

  lemma HasGroupSnoc(rows: seq<Row>, keys: seq<string>, g: seq<Value>)
    requires rows != []
    ensures HasGroup(rows, keys, g) <==>
      HasGroup(rows[..|rows| - 1], keys, g) || (Keyed(rows[|rows| - 1], keys) && KeyOf(rows[|rows| - 1], keys) == g)
  {
    var front := rows[..|rows| - 1];
    assert forall i :: 0 <= i < |front| ==> front[i] == rows[i];
    if HasGroup(rows, keys, g) {
      var i :| 0 <= i < |rows| && Keyed(rows[i], keys) && KeyOf(rows[i], keys) == g;
      if i < |front| {
        assert Keyed(front[i], keys) && KeyOf(front[i], keys) == g;
      }
    }
    if HasGroup(front, keys, g) {
      var i :| 0 <= i < |front| && Keyed(front[i], keys) && KeyOf(front[i], keys) == g;
      assert Keyed(rows[i], keys) && KeyOf(rows[i], keys) == g;
    }
  }

  /** The group keys, in order of first appearance, one per distinct key. */
  function GroupKeys(rows: seq<Row>, keys: seq<string>): (gs: seq<seq<Value>>)
    ensures Distinct(gs)
    ensures forall g :: g in gs <==> HasGroup(rows, keys, g)
    ensures forall j :: 0 <= j < |gs| ==> |gs[j]| == |keys|
    decreases |rows|
  {
    if rows == [] then []
    else
      var init := GroupKeys(rows[..|rows| - 1], keys);
      var last := rows[|rows| - 1];
      assert forall g :: HasGroup(rows, keys, g) <==> HasGroup(rows[..|rows| - 1], keys, g) || (Keyed(last, keys) && KeyOf(last, keys) == g) by {
        forall g ensures HasGroup(rows, keys, g) <==> HasGroup(rows[..|rows| - 1], keys, g) || (Keyed(last, keys) && KeyOf(last, keys) == g) {
          HasGroupSnoc(rows, keys, g);
        }
      }
      if Keyed(last, keys) && KeyOf(last, keys) !in init then init + [KeyOf(last, keys)] else init
  }

  /** The rows of group `g`, in their original order. */
  function Group(rows: seq<Row>, keys: seq<string>, g: seq<Value>): (grp: seq<Row>)
    ensures forall r :: r in grp ==> Keyed(r, keys) && KeyOf(r, keys) == g
    decreases |rows|
  {
    if rows == [] then []
    else
      var last := rows[|rows| - 1];
      Group(rows[..|rows| - 1], keys, g) + (if Keyed(last, keys) && KeyOf(last, keys) == g then [last] else [])
  }

  /** Group `g` holds each row with that key as often as the input does,
      and no other row. */
  lemma {:induction false} GroupCount(rows: seq<Row>, keys: seq<string>, g: seq<Value>, r: Row)
    ensures multiset(Group(rows, keys, g))[r] == if Keyed(r, keys) && KeyOf(r, keys) == g then multiset(rows)[r] else 0
    decreases |rows|
  {
    if rows != [] {
      var front := rows[..|rows| - 1];
      var last := rows[|rows| - 1];
      GroupCount(front, keys, g, r);
      assert rows == front + [last];
      assert multiset(rows) == multiset(front) + multiset{last};
    }
  }

  /** Every row with key `g` is in group `g`. */
  lemma GroupComplete(rows: seq<Row>, keys: seq<string>, g: seq<Value>)
    ensures forall i :: 0 <= i < |rows| && Keyed(rows[i], keys) && KeyOf(rows[i], keys) == g ==> rows[i] in Group(rows, keys, g)
  {
    forall i | 0 <= i < |rows| && Keyed(rows[i], keys) && KeyOf(rows[i], keys) == g
      ensures rows[i] in Group(rows, keys, g)
    {
      GroupCount(rows, keys, g, rows[i]);
      assert rows[i] in multiset(rows);
    }
  }

  /** The rows that take part in the grouping at all. */
  function KeyedRows(rows: seq<Row>, keys: seq<string>): seq<Row>
    decreases |rows|
  {
    if rows == [] then []
    else
      var last := rows[|rows| - 1];
      KeyedRows(rows[..|rows| - 1], keys) + (if Keyed(last, keys) then [last] else [])
  }

  lemma {:induction false} GroupOfAbsent(rows: seq<Row>, keys: seq<string>, g: seq<Value>)
    requires !HasGroup(rows, keys, g)
    ensures Group(rows, keys, g) == []
    decreases |rows|
  {
    if rows != [] {
      HasGroupSnoc(rows, keys, g);
      GroupOfAbsent(rows[..|rows| - 1], keys, g);
    }
  }

  /** Adding one number at the end of a sequence adds it to its sum. */
  lemma NumSumSnoc(rows: seq<Row>, x: Row, c: string)
    ensures NumSum(rows + [x], c) == NumSum(rows, c) + Amount(RowGet(x, c))
  {
    assert (rows + [x])[..|rows + [x]| - 1] == rows;
  }

  /** The sum of column `c` over the groups `gs`, group by group. */
  function SumOverGroups(rows: seq<Row>, keys: seq<string>, gs: seq<seq<Value>>, c: string): real
    decreases |gs|
  {
    if gs == [] then 0.0
    else SumOverGroups(rows, keys, gs[..|gs| - 1], c) + NumSum(Group(rows, keys, gs[|gs| - 1]), c)
  }

  /** When the last row joins group `kl`, only that group's sum moves. */
  lemma {:induction false} SumOverGroupsShift(rows: seq<Row>, keys: seq<string>, gs: seq<seq<Value>>, c: string)
    requires rows != [] && Distinct(gs)
    requires Keyed(rows[|rows| - 1], keys)
    ensures SumOverGroups(rows, keys, gs, c) ==
      SumOverGroups(rows[..|rows| - 1], keys, gs, c) +
      (if KeyOf(rows[|rows| - 1], keys) in gs then Amount(RowGet(rows[|rows| - 1], c)) else 0.0)
    decreases |gs|
  {
    var last := rows[|rows| - 1];
    var kl := KeyOf(last, keys);
    if gs != [] {
      var front := gs[..|gs| - 1];
      var g := gs[|gs| - 1];
      assert Distinct(front) by {
        forall i, j | 0 <= i < j < |front| ensures front[i] != front[j] { assert front[i] == gs[i] && front[j] == gs[j]; }
      }
      SumOverGroupsShift(rows, keys, front, c);
      var init := rows[..|rows| - 1];
      if g == kl {
        NumSumSnoc(Group(init, keys, g), last, c);
        assert kl !in front by {
          forall i | 0 <= i < |front| ensures front[i] != kl { assert front[i] == gs[i]; }
        }
      } else {
        assert Group(rows, keys, g) == Group(init, keys, g) + [];
        assert Group(init, keys, g) + [] == Group(init, keys, g);
        assert kl in gs <==> kl in front by { assert gs == front + [g]; }
      }
    }
  }

  /** A row outside the grouping moves no group's sum. */
  lemma {:induction false} SumOverGroupsUnkeyed(rows: seq<Row>, keys: seq<string>, gs: seq<seq<Value>>, c: string)
    requires rows != [] && !Keyed(rows[|rows| - 1], keys)
    ensures SumOverGroups(rows, keys, gs, c) == SumOverGroups(rows[..|rows| - 1], keys, gs, c)
    decreases |gs|
  {
    if gs != [] {
      SumOverGroupsUnkeyed(rows, keys, gs[..|gs| - 1], c);
      var init := rows[..|rows| - 1];
      assert Group(init, keys, gs[|gs| - 1]) + [] == Group(init, keys, gs[|gs| - 1]);
    }
  }

  lemma SumOverGroupsSnoc(rows: seq<Row>, keys: seq<string>, gs: seq<seq<Value>>, g: seq<Value>, c: string)
    ensures SumOverGroups(rows, keys, gs + [g], c) == SumOverGroups(rows, keys, gs, c) + NumSum(Group(rows, keys, g), c)
  {
    assert (gs + [g])[..|gs + [g]| - 1] == gs;
  }

  /** A row that opens a new group adds that group, holding only itself. */
  lemma NewGroupSum(rows: seq<Row>, keys: seq<string>, c: string)
    requires rows != [] && Keyed(rows[|rows| - 1], keys)
    requires KeyOf(rows[|rows| - 1], keys) !in GroupKeys(rows[..|rows| - 1], keys)
    ensures var gs0 := GroupKeys(rows[..|rows| - 1], keys);
      GroupKeys(rows, keys) == gs0 + [KeyOf(rows[|rows| - 1], keys)] &&
      SumOverGroups(rows, keys, GroupKeys(rows, keys), c) ==
        SumOverGroups(rows, keys, gs0, c) + Amount(RowGet(rows[|rows| - 1], c))
  {
    var init := rows[..|rows| - 1];
    var last := rows[|rows| - 1];
    var kl := KeyOf(last, keys);
    var gs0 := GroupKeys(init, keys);
    SumOverGroupsSnoc(rows, keys, gs0, kl, c);
    GroupOfAbsent(init, keys, kl);
    assert Group(rows, keys, kl) == [last] by {
      assert Group(rows, keys, kl) == [] + [last];
    }
    NumSumSnoc([], last, c);
  }

  /** Summing group by group gives the sum over every row that takes part
      in the grouping: the groups partition those rows. */
  lemma {:induction false} GroupSumsPartition(rows: seq<Row>, keys: seq<string>, c: string)
    ensures SumOverGroups(rows, keys, GroupKeys(rows, keys), c) == NumSum(KeyedRows(rows, keys), c)
    decreases |rows|
  {
    if rows != [] {
      var init := rows[..|rows| - 1];
      var last := rows[|rows| - 1];
      var gs0 := GroupKeys(init, keys);
      GroupSumsPartition(init, keys, c);
      if !Keyed(last, keys) {
        SumOverGroupsUnkeyed(rows, keys, gs0, c);
        assert KeyedRows(rows, keys) == KeyedRows(init, keys) + [];
        assert KeyedRows(init, keys) + [] == KeyedRows(init, keys);
      } else {
        NumSumSnoc(KeyedRows(init, keys), last, c);
        SumOverGroupsShift(rows, keys, gs0, c);
        if KeyOf(last, keys) !in gs0 {
          NewGroupSum(rows, keys, c);
        }
      }
    }
  }

  // ---------------------------------------------------------------------
  // Records

  /** The group-by part of a record after `reset_index()`: each key column
      with the group's value. */
  function KeyItems(keys: seq<string>, g: seq<Value>): Dict<Value>
    requires |g| == |keys|
    decreases |keys|
  {
    if keys == [] then Empty()
    else
      var n := |keys| - 1;
      Set(KeyItems(keys[..n], g[..n]), keys[n], g[n])
  }

  /** With distinct key columns, each one holds its own value of the key. */
  lemma {:induction false} KeyItemsGet(keys: seq<string>, g: seq<Value>, m: nat)
    requires |g| == |keys| && Distinct(keys) && m < |keys|
    ensures Get(KeyItems(keys, g), keys[m]) == Some(g[m])
    decreases |keys|
  {
    var n := |keys| - 1;
    if m < n {
      DistinctPrefix(keys, n);
      KeyItemsGet(keys[..n], g[..n], m);
      assert keys[..n][m] == keys[m] && g[..n][m] == g[m];
      assert keys[m] != keys[n];
    }
  }

  /** The aggregated columns of one record: the first `n` columns of `aggs`,
      in order. */
  function FoldAggs(rec: Dict<Value>, group: seq<Row>, aggs: Dict<AggKind>, n: nat): Result<Dict<Value>, PyError>
    requires n <= |aggs.keys|
  {
    if n == 0 then Success(rec)
    else
      var r :- FoldAggs(rec, group, aggs, n - 1);
      var col := aggs.keys[n - 1];
      var v :- AggregateColumn(group, col, aggs.vals[col]);
      Success(Set(r, col, v))
  }

  /** The record of one group. */
  function AggRecord(group: seq<Row>, keys: seq<string>, g: seq<Value>, aggs: Dict<AggKind>): Result<Dict<Value>, PyError>
    requires |g| == |keys|
  {
    FoldAggs(KeyItems(keys, g), group, aggs, |aggs.keys|)
  }

  /** The records of the groups `gs`, in that order. */
  function AggRecords(rows: seq<Row>, keys: seq<string>, gs: seq<seq<Value>>, aggs: Dict<AggKind>): Result<seq<Dict<Value>>, PyError>
    requires forall j :: 0 <= j < |gs| ==> |gs[j]| == |keys|
    decreases |gs|
  {
    if gs == [] then Success([])
    else
      var g := gs[|gs| - 1];
      var init :- AggRecords(rows, keys, gs[..|gs| - 1], aggs);
      var rec :- AggRecord(Group(rows, keys, g), keys, g, aggs);
      Success(init + [rec])
  }

  /** The first of `cols` the frame does not have. */
  function MissingColumn(cols: seq<string>, present: set<string>): (m: Option<string>)
    ensures m.None? <==> forall c :: c in cols ==> c in present
    ensures m.Some? ==> m.value in cols && m.value !in present
  {
    if cols == [] then None
    else if cols[0] !in present then Some(cols[0])
    else MissingColumn(cols[1..], present)
  }

  /** `df.groupby(keys).agg(aggs)`, then `reset_index()` and
      `to_dict("records")`: a key or aggregated column the frame lacks is a
      KeyError; otherwise one record per group key. */
  function GroupAgg(rows: seq<Row>, keys: seq<string>, aggs: Dict<AggKind>): Result<seq<Dict<Value>>, PyError> {
    var missingKey := MissingColumn(keys, Columns(rows));
    var missingAgg := MissingColumn(aggs.keys, Columns(rows));
    if missingKey.Some? then Failure(KeyError(VStr(missingKey.value)))
    else if missingAgg.Some? then Failure(KeyError(VStr(missingAgg.value)))
    else AggRecords(rows, keys, GroupKeys(rows, keys), aggs)
  }

  /** What the aggregation fold leaves at each column: an aggregated column
      holds its aggregate, any other column is untouched. */
  lemma {:induction false} FoldAggsGet(rec: Dict<Value>, group: seq<Row>, aggs: Dict<AggKind>, n: nat, c: string)
    requires n <= |aggs.keys| && FoldAggs(rec, group, aggs, n).Success?
    ensures c !in aggs.keys[..n] ==> Get(FoldAggs(rec, group, aggs, n).value, c) == Get(rec, c)
    ensures c in aggs.keys[..n] ==>
      AggregateColumn(group, c, aggs.vals[c]).Success? &&
      Get(FoldAggs(rec, group, aggs, n).value, c) == Some(AggregateColumn(group, c, aggs.vals[c]).value)
  {
    if n > 0 {
      FoldAggsGet(rec, group, aggs, n - 1, c);
      PrefixStep(aggs.keys, n);
    }
  }

  /** One more key of a dict: the prefix grows by a key it did not hold. */
  lemma PrefixStep(ks: seq<string>, n: nat)
    requires 0 < n <= |ks| && Distinct(ks)
    ensures ks[..n] == ks[..n - 1] + [ks[n - 1]]
    ensures ks[n - 1] !in ks[..n - 1]
    ensures forall c :: c in ks[..n] <==> c in ks[..n - 1] || c == ks[n - 1]
  {
    assert ks[..n] == ks[..n - 1] + [ks[n - 1]];
    var front := ks[..n - 1];
    forall i | 0 <= i < |front| ensures front[i] != ks[n - 1] {
      assert front[i] == ks[i];
    }
  }

  /** Shape of the grouped records: one per distinct group key, in the
      order the keys first appear, each carrying its key values. */
  lemma GroupAggShape(rows: seq<Row>, keys: seq<string>, aggs: Dict<AggKind>)
    requires Distinct(keys) && forall k :: k in keys ==> k !in aggs.keys
    requires GroupAgg(rows, keys, aggs).Success?
    ensures var recs := GroupAgg(rows, keys, aggs).value; var gs := GroupKeys(rows, keys);
      |recs| == |gs| &&
      forall j, m :: 0 <= j < |gs| && 0 <= m < |keys| ==> Get(recs[j], keys[m]) == Some(gs[j][m])
  {
    var gs := GroupKeys(rows, keys);
    AggRecordsKeys(rows, keys, gs, aggs);
  }

  /** The records of `gs` are those of all but the last group, then the
      last group's record. */
  lemma AggRecordsSnoc(rows: seq<Row>, keys: seq<string>, gs: seq<seq<Value>>, aggs: Dict<AggKind>)
    requires forall j :: 0 <= j < |gs| ==> |gs[j]| == |keys|
    requires gs != [] && AggRecords(rows, keys, gs, aggs).Success?
    ensures AggRecords(rows, keys, gs[..|gs| - 1], aggs).Success?
    ensures AggRecord(Group(rows, keys, gs[|gs| - 1]), keys, gs[|gs| - 1], aggs).Success?
    ensures AggRecords(rows, keys, gs, aggs).value ==
      AggRecords(rows, keys, gs[..|gs| - 1], aggs).value + [AggRecord(Group(rows, keys, gs[|gs| - 1]), keys, gs[|gs| - 1], aggs).value]
  {
  }

  /** Every record of group `g` carries `g` in its key columns. */
  lemma AggRecordKeys(rows: seq<Row>, keys: seq<string>, g: seq<Value>, aggs: Dict<AggKind>, m: nat)
    requires |g| == |keys| && m < |keys|
    requires Distinct(keys) && keys[m] !in aggs.keys
    requires AggRecord(Group(rows, keys, g), keys, g, aggs).Success?
    ensures Get(AggRecord(Group(rows, keys, g), keys, g, aggs).value, keys[m]) == Some(g[m])
  {
    assert aggs.keys[..|aggs.keys|] == aggs.keys;
    FoldAggsGet(KeyItems(keys, g), Group(rows, keys, g), aggs, |aggs.keys|, keys[m]);
    KeyItemsGet(keys, g, m);
  }

  lemma {:induction false} AggRecordsKeys(rows: seq<Row>, keys: seq<string>, gs: seq<seq<Value>>, aggs: Dict<AggKind>)
    requires forall j :: 0 <= j < |gs| ==> |gs[j]| == |keys|
    requires Distinct(keys) && forall k :: k in keys ==> k !in aggs.keys
    requires AggRecords(rows, keys, gs, aggs).Success?
    ensures var recs := AggRecords(rows, keys, gs, aggs).value;
      |recs| == |gs| &&
      forall j, m :: 0 <= j < |gs| && 0 <= m < |keys| ==> Get(recs[j], keys[m]) == Some(gs[j][m])
    decreases |gs|
  {
    if gs != [] {
      var n := |gs| - 1;
      AggRecordsSnoc(rows, keys, gs, aggs);
      AggRecordsKeys(rows, keys, gs[..n], aggs);
      var recs := AggRecords(rows, keys, gs, aggs).value;
      var init := AggRecords(rows, keys, gs[..n], aggs).value;
      forall j, m | 0 <= j < |gs| && 0 <= m < |keys| ensures Get(recs[j], keys[m]) == Some(gs[j][m]) {
        if j < n {
          assert recs[j] == init[j] && gs[j] == gs[..n][j];
        } else {
          AggRecordKeys(rows, keys, gs[n], aggs, m);
        }
      }
    }
  }

  lemma AggRecordSum(rows: seq<Row>, keys: seq<string>, g: seq<Value>, aggs: Dict<AggKind>, c: string)
    requires |g| == |keys| && Get(aggs, c) == Some(SumAgg)
    requires AggRecord(Group(rows, keys, g), keys, g, aggs).Success?
    ensures Get(AggRecord(Group(rows, keys, g), keys, g, aggs).value, c) == Some(VNum(NumSum(Group(rows, keys, g), c)))
  {
    assert aggs.keys[..|aggs.keys|] == aggs.keys;
    FoldAggsGet(KeyItems(keys, g), Group(rows, keys, g), aggs, |aggs.keys|, c);
  }

  /** Record `j` is the aggregate of group `j`. */
  lemma {:induction false} AggRecordsAt(rows: seq<Row>, keys: seq<string>, gs: seq<seq<Value>>, aggs: Dict<AggKind>, j: nat)
    requires forall j :: 0 <= j < |gs| ==> |gs[j]| == |keys|
    requires AggRecords(rows, keys, gs, aggs).Success? && j < |gs|
    ensures |AggRecords(rows, keys, gs, aggs).value| == |gs|
    ensures AggRecord(Group(rows, keys, gs[j]), keys, gs[j], aggs).Success?
    ensures AggRecords(rows, keys, gs, aggs).value[j] == AggRecord(Group(rows, keys, gs[j]), keys, gs[j], aggs).value
    decreases |gs|
  {
    var n := |gs| - 1;
    AggRecordsSnoc(rows, keys, gs, aggs);
    var init := AggRecords(rows, keys, gs[..n], aggs).value;
    var recs := AggRecords(rows, keys, gs, aggs).value;
    if n > 0 {
      var i := if j < n then j else 0;
      AggRecordsAt(rows, keys, gs[..n], aggs, i);
      assert |init| == n;
      if j < n {
        assert gs[..n][j] == gs[j];
        assert recs[j] == init[j];
      }
    }
  }

  /** A summed column of each record holds the sum of its group. */
  lemma AggRecordsSum(rows: seq<Row>, keys: seq<string>, gs: seq<seq<Value>>, aggs: Dict<AggKind>, c: string)
    requires forall j :: 0 <= j < |gs| ==> |gs[j]| == |keys|
    requires Get(aggs, c) == Some(SumAgg)
    requires AggRecords(rows, keys, gs, aggs).Success?
    ensures var recs := AggRecords(rows, keys, gs, aggs).value;
      |recs| == |gs| &&
      forall j :: 0 <= j < |gs| ==> Get(recs[j], c) == Some(VNum(NumSum(Group(rows, keys, gs[j]), c)))
  {
    if gs != [] {
      AggRecordsAt(rows, keys, gs, aggs, 0);
    }
    var recs := AggRecords(rows, keys, gs, aggs).value;
    forall j | 0 <= j < |gs| ensures Get(recs[j], c) == Some(VNum(NumSum(Group(rows, keys, gs[j]), c))) {
      AggRecordsAt(rows, keys, gs, aggs, j);
      AggRecordSum(rows, keys, gs[j], aggs, c);
    }
  }

  /** The sum of the numbers at `c` across records. */
  function RecordsSum(recs: seq<Dict<Value>>, c: string): real
    decreases |recs|
  {
    if recs == [] then 0.0
    else RecordsSum(recs[..|recs| - 1], c) + Amount(Get(recs[|recs| - 1], c).GetOr(VNone))
  }

  /** The records' sum of a summed column is the sum of the group sums. */
  lemma {:induction false} AggRecordsTotal(rows: seq<Row>, keys: seq<string>, gs: seq<seq<Value>>, aggs: Dict<AggKind>, c: string)
    requires forall j :: 0 <= j < |gs| ==> |gs[j]| == |keys|
    requires Get(aggs, c) == Some(SumAgg)
    requires AggRecords(rows, keys, gs, aggs).Success?
    ensures RecordsSum(AggRecords(rows, keys, gs, aggs).value, c) == SumOverGroups(rows, keys, gs, c)
    decreases |gs|
  {
    if gs != [] {
      var n := |gs| - 1;
      AggRecordsSnoc(rows, keys, gs, aggs);
      AggRecordsTotal(rows, keys, gs[..n], aggs, c);
      AggRecordSum(rows, keys, gs[n], aggs, c);
      var recs := AggRecords(rows, keys, gs, aggs).value;
      assert recs[..|recs| - 1] == AggRecords(rows, keys, gs[..n], aggs).value;
    }
  }

  /** Two-phase aggregation loses nothing: the per-group sums of a summed
      column add up to the column's sum over every grouped row. */
  lemma GroupAggSums(rows: seq<Row>, keys: seq<string>, aggs: Dict<AggKind>, c: string)
    requires Get(aggs, c) == Some(SumAgg)
    requires GroupAgg(rows, keys, aggs).Success?
    ensures var recs := GroupAgg(rows, keys, aggs).value;
      (forall j :: 0 <= j < |recs| ==> c in recs[j].keys && recs[j].vals[c].VNum?) &&
      RecordsSum(recs, c) == NumSum(KeyedRows(rows, keys), c)
  {
    var gs := GroupKeys(rows, keys);
    AggRecordsSum(rows, keys, gs, aggs, c);
    AggRecordsTotal(rows, keys, gs, aggs, c);
    GroupSumsPartition(rows, keys, c);
  }

  // ---------------------------------------------------------------------
  // Folding the per-currency records into one total

  /** `dct[key] += value` on a `defaultdict(Decimal)` for a non-string,
      `dct[key] = value` for a string. */
  function Accumulate(dct: Dict<Value>, k: string, v: Value): Result<Dict<Value>, PyError> {
    if v.VStr? then Success(Set(dct, k, v))
    else
      var cur := Get(dct, k).GetOr(VNum(0.0));
      if cur.VNum? && v.VNum? then Success(Set(dct, k, VNum(cur.r + v.r))) else Failure(TypeError)
  }

  /** The inner loop: the first `n` entries of one record, in order. */
  function FoldEntries(dct: Dict<Value>, rec: Dict<Value>, n: nat): Result<Dict<Value>, PyError>
    requires n <= |rec.keys|
  {
    if n == 0 then Success(dct)
    else
      var d :- FoldEntries(dct, rec, n - 1);
      var k := rec.keys[n - 1];
      Accumulate(d, k, rec.vals[k])
  }

  /** The outer loop: the first `n` records, in order, from an empty dict. */
  function FoldRecords(recs: seq<Dict<Value>>, n: nat): Result<Dict<Value>, PyError>
    requires n <= |recs|
  {
    if n == 0 then Success(Empty())
    else
      var d :- FoldRecords(recs, n - 1);
      FoldEntries(d, recs[n - 1], |recs[n - 1].keys|)
  }

  /** The whole fold, then `dct.pop("currency")`, a KeyError when no record
      had a currency. */
  function FoldTotalsSpec(recs: seq<Dict<Value>>): Result<Dict<Value>, PyError> {
    var dct :- FoldRecords(recs, |recs|);
    if "currency" in dct.keys then Success(Pop(dct, "currency"))
    else Failure(KeyError(VStr("currency")))
  }

  /** The inner fold loop: the entries of one record into `dct`. */
  method FoldRecordInto(dct: Dict<Value>, rec: Dict<Value>) returns (res: Result<Dict<Value>, PyError>)
    ensures res == FoldEntries(dct, rec, |rec.keys|)
  {
    var d := dct;
    for i := 0 to |rec.keys|
      invariant FoldEntries(dct, rec, i) == Success(d)
    {
      var key := rec.keys[i];
      var value := rec.vals[key];
      if value.VStr? {
        d := Set(d, key, value);
      } else {
        var cur := Get(d, key).GetOr(VNum(0.0));
        if !(cur.VNum? && value.VNum?) {
          FoldEntriesFailsFrom(dct, rec, i + 1);
          return Failure(TypeError);
        }
        d := Set(d, key, VNum(cur.r + value.r));
      }
    }
    return Success(d);
  }

  /** The fold loops of the handlers over the grouped records. */
  method FoldTotals(recs: seq<Dict<Value>>) returns (res: Result<Dict<Value>, PyError>)
    ensures res == FoldTotalsSpec(recs)
  {
    var dct: Dict<Value> := Empty();
    for j := 0 to |recs|
      invariant FoldRecords(recs, j) == Success(dct)
    {
      var r := FoldRecordInto(dct, recs[j]);
      if r.Failure? {
        FoldRecordsFailsFrom(recs, j + 1, r.error);
        return Failure(r.error);
      }
      dct := r.value;
    }
    if "currency" !in dct.keys {
      return Failure(KeyError(VStr("currency")));
    }
    return Success(Pop(dct, "currency"));
  }

  /** Once an entry fails, the rest of the record keeps the failure. */
  lemma {:induction false} FoldEntriesFailsFrom(dct: Dict<Value>, rec: Dict<Value>, i: nat)
    requires 0 < i <= |rec.keys| && FoldEntries(dct, rec, i) == Failure(TypeError)
    ensures FoldEntries(dct, rec, |rec.keys|) == Failure(TypeError)
    decreases |rec.keys| - i
  {
    if i < |rec.keys| {
      FoldEntriesFailsFrom(dct, rec, i + 1);
    }
  }

  /** Once a record fails, the outer loop keeps the failure. */
  lemma {:induction false} FoldRecordsFailsFrom(recs: seq<Dict<Value>>, j: nat, e: PyError)
    requires 0 < j <= |recs| && FoldRecords(recs, j) == Failure(e)
    ensures FoldRecords(recs, |recs|) == Failure(e)
    decreases |recs| - j
  {
    if j < |recs| {
      FoldRecordsFailsFrom(recs, j + 1, e);
    }
  }

  // ---------------------------------------------------------------------
  // What the fold computes

  /** What `dct[key]` holds after one successful step: a string replaces
      what was there, a number is added to it (to 0 when nothing was). */
  function Effect(cur: Option<Value>, v: Value): Value {
    if v.VStr? then v else VNum(Amount(cur.GetOr(VNone)) + Amount(v))
  }

  lemma AccumulateGet(d: Dict<Value>, k: string, v: Value, c: string)
    requires Accumulate(d, k, v).Success?
    ensures Get(Accumulate(d, k, v).value, c) == if c == k then Some(Effect(Get(d, c), v)) else Get(d, c)
    ensures c in Accumulate(d, k, v).value.keys <==> c in d.keys || c == k
  {
  }

  lemma FoldEntriesStep(dct: Dict<Value>, rec: Dict<Value>, n: nat)
    requires 0 < n <= |rec.keys| && FoldEntries(dct, rec, n).Success?
    ensures FoldEntries(dct, rec, n - 1).Success?
    ensures FoldEntries(dct, rec, n) == Accumulate(FoldEntries(dct, rec, n - 1).value, rec.keys[n - 1], rec.vals[rec.keys[n - 1]])
  {
  }

  /** Folding the first `n` entries of a record into `dct`: a key of those
      entries takes the effect of its one entry, any other key is
      untouched. */
  lemma {:induction false} FoldEntriesGet(dct: Dict<Value>, rec: Dict<Value>, n: nat, c: string)
    requires n <= |rec.keys| && FoldEntries(dct, rec, n).Success?
    ensures Get(FoldEntries(dct, rec, n).value, c) ==
      if c in rec.keys[..n] then Some(Effect(Get(dct, c), rec.vals[c])) else Get(dct, c)
  {
    if n > 0 {
      var k := rec.keys[n - 1];
      FoldEntriesStep(dct, rec, n);
      FoldEntriesGet(dct, rec, n - 1, c);
      AccumulateGet(FoldEntries(dct, rec, n - 1).value, k, rec.vals[k], c);
      PrefixStep(rec.keys, n);
    }
  }

  /** The keys after folding the first `n` entries: the old ones and the
      record's. */
  lemma {:induction false} FoldEntriesKeys(dct: Dict<Value>, rec: Dict<Value>, n: nat, k: string)
    requires n <= |rec.keys| && FoldEntries(dct, rec, n).Success?
    ensures k in FoldEntries(dct, rec, n).value.keys <==> k in dct.keys || k in rec.keys[..n]
  {
    if n > 0 {
      var e := rec.keys[n - 1];
      FoldEntriesStep(dct, rec, n);
      FoldEntriesKeys(dct, rec, n - 1, k);
      AccumulateGet(FoldEntries(dct, rec, n - 1).value, e, rec.vals[e], k);
      assert rec.keys[..n] == rec.keys[..n - 1] + [e];
    }
  }

  /** Every record holds a number at `c`. */
  predicate NumericIn(recs: seq<Dict<Value>>, c: string) {
    forall j :: 0 <= j < |recs| ==> c in recs[j].keys && recs[j].vals[c].VNum?
  }

  /** Folding a whole record with a number at `c` adds that number. */
  lemma FoldRecordNumber(d: Dict<Value>, rec: Dict<Value>, c: string)
    requires c in rec.keys && rec.vals[c].VNum? && FoldEntries(d, rec, |rec.keys|).Success?
    ensures Get(FoldEntries(d, rec, |rec.keys|).value, c) == Some(VNum(Amount(Get(d, c).GetOr(VNone)) + rec.vals[c].r))
  {
    assert rec.keys[..|rec.keys|] == rec.keys;
    FoldEntriesGet(d, rec, |rec.keys|, c);
    var v := rec.vals[c];
    assert Effect(Get(d, c), v) == VNum(Amount(Get(d, c).GetOr(VNone)) + v.r);
  }

  /** A summed column present as a number in every record ends up as the
      sum over the records. */
  lemma {:induction false} FoldRecordsSum(recs: seq<Dict<Value>>, n: nat, c: string)
    requires NumericIn(recs, c)
    requires 0 < n <= |recs| && FoldRecords(recs, n).Success?
    ensures Get(FoldRecords(recs, n).value, c) == Some(VNum(RecordsSum(recs[..n], c)))
  {
    var d := FoldRecords(recs, n - 1).value;
    assert Amount(Get(d, c).GetOr(VNone)) == RecordsSum(recs[..n - 1], c) by {
      if n > 1 {
        FoldRecordsSum(recs, n - 1, c);
      }
    }
    assert recs[..n][..n - 1] == recs[..n - 1];
    FoldRecordNumber(d, recs[n - 1], c);
  }

  /** A string column takes the value of the last record. */
  lemma FoldRecordsLastString(recs: seq<Dict<Value>>, k: string)
    requires recs != [] && k in recs[|recs| - 1].keys && recs[|recs| - 1].vals[k].VStr?
    requires FoldRecords(recs, |recs|).Success?
    ensures Get(FoldRecords(recs, |recs|).value, k) == Some(recs[|recs| - 1].vals[k])
  {
    var last := recs[|recs| - 1];
    assert last.keys[..|last.keys|] == last.keys;
    FoldEntriesGet(FoldRecords(recs, |recs| - 1).value, last, |last.keys|, k);
  }

  /** The fold's keys are those of the first `n` records. */
  lemma {:induction false} FoldRecordsKeys(recs: seq<Dict<Value>>, n: nat, k: string)
    requires n <= |recs| && FoldRecords(recs, n).Success?
    ensures k in FoldRecords(recs, n).value.keys <==> exists j :: 0 <= j < n && k in recs[j].keys
  {
    if n > 0 {
      var last := recs[n - 1];
      FoldRecordsKeys(recs, n - 1, k);
      assert last.keys[..|last.keys|] == last.keys;
      FoldEntriesKeys(FoldRecords(recs, n - 1).value, last, |last.keys|, k);
      if k in last.keys {
        assert exists j :: 0 <= j < n && k in recs[j].keys;
      }
    }
  }

  /** The folded total: each summed column is the sum over the records, and
      the currency key is gone; with no currency in any record the pop
      raises KeyError. */
  lemma FoldTotalsMeaning(recs: seq<Dict<Value>>, c: string)
    requires FoldRecords(recs, |recs|).Success?
    ensures FoldTotalsSpec(recs).Success? <==> exists j :: 0 <= j < |recs| && "currency" in recs[j].keys
    ensures FoldTotalsSpec(recs).Failure? ==> FoldTotalsSpec(recs).error == KeyError(VStr("currency"))
    ensures FoldTotalsSpec(recs).Success? ==> "currency" !in FoldTotalsSpec(recs).value.keys
    ensures FoldTotalsSpec(recs).Success? && c != "currency" && NumericIn(recs, c) ==>
      Get(FoldTotalsSpec(recs).value, c) == Some(VNum(RecordsSum(recs, c)))
  {
    FoldRecordsKeys(recs, |recs|, "currency");
    if FoldTotalsSpec(recs).Success? && c != "currency" && NumericIn(recs, c) {
      FoldRecordsSum(recs, |recs|, c);
      assert recs[..|recs|] == recs;
    }
  }
}
