/** How a report handler orders its rows and its total: the implicit order
    list and its override for ranked queries, the ordering anchored on one
    date, and the key order of the total. Both the GCP and the
    OpenShift-on-Azure handlers run the same steps. */
module Ordering {
  import opened Wrappers
  import opened PyValues

  // ---------------------------------------------------------------------
  // Sequence helpers

  /** The position of the first `x` in `s`, or `|s|` when there is none. */
  function IndexOf<T(==)>(s: seq<T>, x: T): (i: nat)
    ensures i <= |s|
    ensures i < |s| <==> x in s
    ensures i < |s| ==> s[i] == x
    ensures forall j :: 0 <= j < i ==> s[j] != x
    decreases |s|
  {
    if s == [] then 0
    else if s[0] == x then 0
    else 1 + IndexOf(s[1..], x)
  }

  lemma IndexOfPrefix<T>(s: seq<T>, m: nat, x: T)
    requires m <= |s| && x in s[..m]
    ensures IndexOf(s, x) == IndexOf(s[..m], x) < m
  {
    var i := IndexOf(s[..m], x);
    assert s[i] == x;
    forall j | 0 <= j < i ensures s[j] != x { assert s[j] == s[..m][j]; }
  }

  /** `s` with every repeated element dropped: first occurrences, in order. */
  function Dedup<T(==,!new)>(s: seq<T>): (r: seq<T>)
    ensures Distinct(r)
    ensures forall x :: x in r <==> x in s
    decreases |s|
  {
    if s == [] then []
    else
      var rest := Dedup(s[..|s| - 1]);
      var last := s[|s| - 1];
      assert s == s[..|s| - 1] + [last];
      if last in rest then rest else DistinctSnoc(rest, last); rest + [last]
  }

  /** `list.pop(i)` on a list long enough to have index `i`. */
  function RemoveAt<T>(s: seq<T>, i: nat): (r: seq<T>)
    requires i < |s|
    ensures |r| == |s| - 1
    ensures forall j :: 0 <= j < i ==> r[j] == s[j]
    ensures forall j :: i <= j < |r| ==> r[j] == s[j + 1]
  {
    s[..i] + s[i + 1..]
  }

  // ---------------------------------------------------------------------
  // The order list

  /** `["-date"] + implicit`, whose last term becomes "rank" when the query
      is ranked and the caller gave no explicit `order_by`; with no implicit
      order that last term is "-date" itself. */
  function QueryOrderBy(implicit: seq<string>, ranked: bool, explicitOrder: bool): (r: seq<string>)
    ensures |r| == |implicit| + 1
    ensures !(ranked && !explicitOrder) ==> r == ["-date"] + implicit
    ensures ranked && !explicitOrder && implicit != [] ==>
      r[0] == "-date" && r[1..] == implicit[..|implicit| - 1] + ["rank"]
    ensures ranked && !explicitOrder && implicit == [] ==> r == ["rank"]
  {
    var base := ["-date"] + implicit;
    if ranked && !explicitOrder then base[|base| - 1 := "rank"] else base
  }

  /** The first term of `order` that is a date, as the loop over
      `enumerate(query_order_by)` finds it. */
  function FirstDate(order: seq<string>, isDate: string -> bool): (r: Option<nat>)
    ensures r.Some? ==> r.value < |order| && isDate(order[r.value])
    ensures r.Some? ==> forall j :: 0 <= j < r.value ==> !isDate(order[j])
    ensures r.None? ==> forall j :: 0 <= j < |order| ==> !isDate(order[j])
    decreases |order|
  {
    if order == [] then None
    else if isDate(order[0]) then Some(0)
    else
      match FirstDate(order[1..], isDate)
      case None => None
      case Some(i) => Some(i + 1)
  }

  method FindOrderDate(order: seq<string>, isDate: string -> bool) returns (r: Option<nat>)
    ensures r == FirstDate(order, isDate)
  {
    for i := 0 to |order|
      invariant forall j :: 0 <= j < i ==> !isDate(order[j])
    {
      if isDate(order[i]) {
        return Some(i);
      }
    }
    return None;
  }

  // ---------------------------------------------------------------------
  // Ordering anchored on one date

  /** `filtered_query_data`: the rows whose "date" entry is the anchor date.
      A row is a dict, so the scan over its items meets the key "date" at
      most once and appends the row at most once. */
  method AnchorRows(rows: seq<Row>, date: string) returns (out: seq<Row>)
    ensures out == WithValue(rows, "date", VStr(date))
  {
    out := [];
    for i := 0 to |rows|
      invariant out == WithValue(rows[..i], "date", VStr(date))
    {
      var row := rows[i];
      assert rows[..i + 1] == rows[..i] + [row];
      WithValueAppend(rows[..i], [row], "date", VStr(date));
      assert [row][1..] == [];
      if "date" in row && row["date"] == VStr(date) {
        out := out + [row];
      }
    }
    assert rows[..|rows|] == rows;
  }

  /** `[entry.get(sort_term) for entry in ordered_data]`. */
  function Interest(ordered: seq<Row>, sortTerm: string): seq<Value> {
    seq(|ordered|, i requires 0 <= i < |ordered| => RowGet(ordered[i], sortTerm))
  }

  /** `order_of_interest`: the loop appends the first group-by value of
      every ordered anchor row, repeated values included. */
  method CollectInterest(ordered: seq<Row>, sortTerm: string) returns (vs: seq<Value>)
    ensures vs == Interest(ordered, sortTerm)
  {
    vs := [];
    for i := 0 to |ordered|
      invariant |vs| == i
      invariant forall j :: 0 <= j < i ==> vs[j] == RowGet(ordered[j], sortTerm)
    {
      vs := vs + [RowGet(ordered[i], sortTerm)];
    }
  }

  /** `[item for x in interest for item in rows if item.get(sort_term) == x]`. */
  function FollowOrder(interest: seq<Value>, rows: seq<Row>, sortTerm: string): seq<Row>
    decreases |interest|
  {
    if interest == [] then []
    else FollowOrder(interest[..|interest| - 1], rows, sortTerm) + WithValue(rows, sortTerm, interest[|interest| - 1])
  }

  /** The rows of the output are the rows whose sort value is of interest. */
  lemma {:induction false} FollowOrderMembers(interest: seq<Value>, rows: seq<Row>, sortTerm: string)
    ensures forall r :: r in FollowOrder(interest, rows, sortTerm) <==> r in rows && RowGet(r, sortTerm) in interest
    decreases |interest|
  {
    if interest != [] {
      var front := interest[..|interest| - 1];
      FollowOrderMembers(front, rows, sortTerm);
      assert interest == front + [interest[|interest| - 1]];
    }
  }

  lemma {:induction false} WithValueCount(rows: seq<Row>, k: string, v: Value, r: Row)
    ensures multiset(WithValue(rows, k, v))[r] == if RowGet(r, k) == v then multiset(rows)[r] else 0
  {
    if rows != [] {
      WithValueCount(rows[1..], k, v, r);
      var head := if RowGet(rows[0], k) == v then [rows[0]] else [];
      assert WithValue(rows, k, v) == head + WithValue(rows[1..], k, v);
      assert multiset(WithValue(rows, k, v)) == multiset(head) + multiset(WithValue(rows[1..], k, v));
      assert rows == [rows[0]] + rows[1..];
      assert multiset(rows) == multiset{rows[0]} + multiset(rows[1..]);
    }
  }

  /** With distinct values of interest, each row whose value is of interest
      appears exactly as often as in the input, and no other row appears. */
  lemma {:induction false} FollowOrderCount(interest: seq<Value>, rows: seq<Row>, sortTerm: string, r: Row)
    requires Distinct(interest)
    ensures multiset(FollowOrder(interest, rows, sortTerm))[r] ==
      if RowGet(r, sortTerm) in interest then multiset(rows)[r] else 0
    decreases |interest|
  {
    if interest != [] {
      var front := interest[..|interest| - 1];
      var x := interest[|interest| - 1];
      DistinctPrefix(interest, |interest| - 1);
      FollowOrderCount(front, rows, sortTerm, r);
      WithValueCount(rows, sortTerm, x, r);
      assert interest == front + [x];
      assert x !in front by {
        forall i | 0 <= i < |front| ensures front[i] != x { assert front[i] == interest[i]; }
      }
    }
  }

  lemma Distribute(n: nat, e: nat, m: nat)
    ensures n * m + e * m == (n + e) * m
  {
  }

  /** One more value of interest adds its rows once more. */
  lemma FollowOrderStep(interest: seq<Value>, rows: seq<Row>, sortTerm: string, r: Row)
    requires interest != []
    ensures var front := interest[..|interest| - 1];
      var e := if RowGet(r, sortTerm) == interest[|interest| - 1] then 1 else 0;
      multiset(interest)[RowGet(r, sortTerm)] == multiset(front)[RowGet(r, sortTerm)] + e &&
      multiset(FollowOrder(interest, rows, sortTerm))[r] ==
        multiset(FollowOrder(front, rows, sortTerm))[r] + e * multiset(rows)[r]
  {
    var front := interest[..|interest| - 1];
    var x := interest[|interest| - 1];
    WithValueCount(rows, sortTerm, x, r);
    assert interest == front + [x];
  }

  /** As written, with any list of interest: a row appears once for each
      time its value is listed, times the number of times it is in the
      input. */
  lemma {:induction false} FollowOrderCountAll(interest: seq<Value>, rows: seq<Row>, sortTerm: string, r: Row)
    ensures multiset(FollowOrder(interest, rows, sortTerm))[r] ==
      multiset(interest)[RowGet(r, sortTerm)] * multiset(rows)[r]
    decreases |interest|
  {
    if interest != [] {
      var front := interest[..|interest| - 1];
      var e := if RowGet(r, sortTerm) == interest[|interest| - 1] then 1 else 0;
      FollowOrderCountAll(front, rows, sortTerm, r);
      FollowOrderStep(interest, rows, sortTerm, r);
      Distribute(multiset(front)[RowGet(r, sortTerm)], e, multiset(rows)[r]);
    }
  }

  /** Taking the rows of one value of a field commutes with the ordering. */
  lemma {:induction false} FollowOrderSlice(interest: seq<Value>, rows: seq<Row>, sortTerm: string, k: string, v: Value)
    ensures WithValue(FollowOrder(interest, rows, sortTerm), k, v) == FollowOrder(interest, WithValue(rows, k, v), sortTerm)
    decreases |interest|
  {
    if interest != [] {
      var front := interest[..|interest| - 1];
      var x := interest[|interest| - 1];
      FollowOrderSlice(front, rows, sortTerm, k, v);
      WithValueAppend(FollowOrder(front, rows, sortTerm), WithValue(rows, sortTerm, x), k, v);
      WithValueCommutes(rows, sortTerm, x, k, v);
    }
  }

  /** With distinct values of interest, the output runs through them in
      order: a row never comes after a row whose value is later in the
      interest list. */
  lemma {:induction false} FollowOrderSorted(interest: seq<Value>, rows: seq<Row>, sortTerm: string)
    requires Distinct(interest)
    ensures forall p, q :: 0 <= p < q < |FollowOrder(interest, rows, sortTerm)| ==>
      IndexOf(interest, RowGet(FollowOrder(interest, rows, sortTerm)[p], sortTerm)) <=
      IndexOf(interest, RowGet(FollowOrder(interest, rows, sortTerm)[q], sortTerm))
    decreases |interest|
  {
    if interest != [] {
      var n := |interest|;
      var front := interest[..n - 1];
      var x := interest[n - 1];
      var head := FollowOrder(front, rows, sortTerm);
      var tail := WithValue(rows, sortTerm, x);
      var out := head + tail;
      DistinctPrefix(interest, n - 1);
      FollowOrderSorted(front, rows, sortTerm);
      FollowOrderMembers(front, rows, sortTerm);
      assert x !in front by {
        forall i | 0 <= i < |front| ensures front[i] != x { assert front[i] == interest[i]; }
      }
      assert IndexOf(interest, x) == n - 1;
      forall p | 0 <= p < |head| ensures IndexOf(interest, RowGet(head[p], sortTerm)) == IndexOf(front, RowGet(head[p], sortTerm)) < n - 1 {
        assert head[p] in head;
        IndexOfPrefix(interest, n - 1, RowGet(head[p], sortTerm));
      }
      forall p | 0 <= p < |tail| ensures IndexOf(interest, RowGet(tail[p], sortTerm)) == n - 1 {
        assert tail[p] in tail;
      }
      SortedJoin(interest, front, head, tail, sortTerm);
    }
  }

  /** Rows ranked by `front` and all before the last value of interest,
      followed by rows of that last value, stay in the order of interest. */
  lemma SortedJoin(interest: seq<Value>, front: seq<Value>, head: seq<Row>, tail: seq<Row>, sortTerm: string)
    requires |interest| > 0
    requires forall p :: 0 <= p < |head| ==>
      IndexOf(interest, RowGet(head[p], sortTerm)) == IndexOf(front, RowGet(head[p], sortTerm)) < |interest| - 1
    requires forall p, q :: 0 <= p < q < |head| ==>
      IndexOf(front, RowGet(head[p], sortTerm)) <= IndexOf(front, RowGet(head[q], sortTerm))
    requires forall p :: 0 <= p < |tail| ==> IndexOf(interest, RowGet(tail[p], sortTerm)) == |interest| - 1
    ensures forall p, q :: 0 <= p < q < |head + tail| ==>
      IndexOf(interest, RowGet((head + tail)[p], sortTerm)) <= IndexOf(interest, RowGet((head + tail)[q], sortTerm))
  {
    var out := head + tail;
    forall p, q | 0 <= p < q < |out|
      ensures IndexOf(interest, RowGet(out[p], sortTerm)) <= IndexOf(interest, RowGet(out[q], sortTerm))
    {
      if q < |head| {
        assert out[p] == head[p] && out[q] == head[q];
      } else if p < |head| {
        assert out[p] == head[p] && out[q] == tail[q - |head|];
      } else {
        assert out[p] == tail[p - |head|] && out[q] == tail[q - |head|];
      }
    }
  }

  /** The order list without the anchor date, when there is one. */
  function OrderWithoutDate(order: seq<string>, isDate: string -> bool): seq<string> {
    var found := FirstDate(order, isDate);
    if found.None? then order else RemoveAt(order, found.value)
  }

  /** The values of the first group-by field on the anchor date, in the order
      that `order_by` gives the anchor date's rows; `once` keeps each value
      once. */
  function AnchorInterest(rows: seq<Row>, order: seq<string>, groupBy: seq<string>, isDate: string -> bool,
                          orderBy: (seq<Row>, seq<string>) -> seq<Row>, once: bool): seq<Value>
    requires FirstDate(order, isDate).Some? && groupBy != []
  {
    var date := order[FirstDate(order, isDate).value];
    var anchor := orderBy(WithValue(rows, "date", VStr(date)), OrderWithoutDate(order, isDate));
    var interest := Interest(anchor, groupBy[0]);
    if once then Dedup(interest) else interest
  }

  /** The ordering step of `execute_query`. When the order list names a date,
      the rows of every date follow the order of the first group-by field on
      that date, and then the rows are ordered by date; an empty group-by
      list makes `_get_group_by()[0]` an IndexError. Otherwise `order_by`
      applies the order list. `once` selects between the interest list as
      written and the one with each value taken once. */
  function OrderRowsWith(rows: seq<Row>, order: seq<string>, groupBy: seq<string>, isDate: string -> bool,
                         orderBy: (seq<Row>, seq<string>) -> seq<Row>, once: bool): Result<seq<Row>, PyError>
  {
    var found := FirstDate(order, isDate);
    if found.None? || order[found.value] == "" then Success(orderBy(rows, order))
    else if groupBy == [] then Failure(IndexError)
    else
      var interest := AnchorInterest(rows, order, groupBy, isDate, orderBy, once);
      Success(orderBy(FollowOrder(interest, rows, groupBy[0]), ["-date"]))
  }

  /** The ordering step with each value of interest taken once. */
  function OrderRows(rows: seq<Row>, order: seq<string>, groupBy: seq<string>, isDate: string -> bool,
                     orderBy: (seq<Row>, seq<string>) -> seq<Row>): Result<seq<Row>, PyError>
  {
    OrderRowsWith(rows, order, groupBy, isDate, orderBy, true)
  }

  /** The ordering step as the handlers write it. */
  function OrderRowsAsWritten(rows: seq<Row>, order: seq<string>, groupBy: seq<string>, isDate: string -> bool,
                              orderBy: (seq<Row>, seq<string>) -> seq<Row>): Result<seq<Row>, PyError>
  {
    OrderRowsWith(rows, order, groupBy, isDate, orderBy, false)
  }

  method ApplyOrder(rows: seq<Row>, order: seq<string>, groupBy: seq<string>, isDate: string -> bool,
                    orderBy: (seq<Row>, seq<string>) -> seq<Row>) returns (res: Result<seq<Row>, PyError>)
    ensures res == OrderRowsAsWritten(rows, order, groupBy, isDate, orderBy)
  {
    var found := FindOrderDate(order, isDate);
    if found.None? || order[found.value] == "" {
      return Success(orderBy(rows, order));
    }
    if groupBy == [] {
      return Failure(IndexError);
    }
    var sortTerm := groupBy[0];
    var rest := RemoveAt(order, found.value);
    var filtered := AnchorRows(rows, order[found.value]);
    var ordered := orderBy(filtered, rest);
    var interest := CollectInterest(ordered, sortTerm);
    var sorted := FollowOrder(interest, rows, sortTerm);
    return Success(orderBy(sorted, ["-date"]));
  }

  /** A stable sort on "date": the same rows, and the rows of each date in
      the order they had. */
  ghost predicate StableByDate(inp: seq<Row>, out: seq<Row>) {
    multiset(out) == multiset(inp) && forall v :: WithValue(out, "date", v) == WithValue(inp, "date", v)
  }

  /** The values of interest are each taken once, and they are exactly the
      values of the first group-by field on the anchor date, given an
      `order_by` that permutes its rows. */
  lemma AnchorInterestValues(rows: seq<Row>, order: seq<string>, groupBy: seq<string>, isDate: string -> bool,
                             orderBy: (seq<Row>, seq<string>) -> seq<Row>)
    requires FirstDate(order, isDate).Some? && groupBy != []
    requires forall s, o :: multiset(orderBy(s, o)) == multiset(s)
    ensures var interest := AnchorInterest(rows, order, groupBy, isDate, orderBy, true);
      var date := order[FirstDate(order, isDate).value];
      Distinct(interest) &&
      forall x :: x in interest <==> exists a :: a in rows && RowGet(a, "date") == VStr(date) && RowGet(a, groupBy[0]) == x
  {
    var t := groupBy[0];
    var date := order[FirstDate(order, isDate).value];
    var filtered := WithValue(rows, "date", VStr(date));
    var anchor := orderBy(filtered, OrderWithoutDate(order, isDate));
    var all := Interest(anchor, t);
    var interest := Dedup(all);
    assert multiset(anchor) == multiset(filtered);
    forall x ensures x in interest <==> exists a :: a in rows && RowGet(a, "date") == VStr(date) && RowGet(a, t) == x {
      if x in interest {
        var i :| 0 <= i < |all| && all[i] == x;
        assert anchor[i] in multiset(anchor);
        assert anchor[i] in filtered;
      }
      if exists a :: a in rows && RowGet(a, "date") == VStr(date) && RowGet(a, t) == x {
        var a :| a in rows && RowGet(a, "date") == VStr(date) && RowGet(a, t) == x;
        assert a in multiset(filtered);
        var i :| 0 <= i < |anchor| && anchor[i] == a;
        assert all[i] == x;
      }
    }
  }

  /** Every row whose first group-by value is of interest appears once for
      each time it is in the input, and every other row is dropped, given an
      `order_by` that permutes its rows. */
  lemma AnchoredCounts(rows: seq<Row>, order: seq<string>, groupBy: seq<string>, isDate: string -> bool,
                       orderBy: (seq<Row>, seq<string>) -> seq<Row>, r: Row)
    requires FirstDate(order, isDate).Some? && order[FirstDate(order, isDate).value] != "" && groupBy != []
    requires forall s, o :: multiset(orderBy(s, o)) == multiset(s)
    ensures OrderRows(rows, order, groupBy, isDate, orderBy).Success?
    ensures multiset(OrderRows(rows, order, groupBy, isDate, orderBy).value)[r] ==
      if RowGet(r, groupBy[0]) in AnchorInterest(rows, order, groupBy, isDate, orderBy, true) then multiset(rows)[r] else 0
  {
    var interest := AnchorInterest(rows, order, groupBy, isDate, orderBy, true);
    var sorted := FollowOrder(interest, rows, groupBy[0]);
    assert OrderRows(rows, order, groupBy, isDate, orderBy) == Success(orderBy(sorted, ["-date"]));
    assert multiset(orderBy(sorted, ["-date"])) == multiset(sorted);
    FollowOrderCount(interest, rows, groupBy[0], r);
  }

  /** As written, the output holds the rows the interest list picks, each
      as often as `FollowOrderCountAll` counts: once per anchor row sharing
      its first group-by value, times its count in the input. */
  lemma AnchoredCountsAsWritten(rows: seq<Row>, order: seq<string>, groupBy: seq<string>, isDate: string -> bool,
                                orderBy: (seq<Row>, seq<string>) -> seq<Row>)
    requires FirstDate(order, isDate).Some? && order[FirstDate(order, isDate).value] != "" && groupBy != []
    requires forall s, o :: multiset(orderBy(s, o)) == multiset(s)
    ensures OrderRowsAsWritten(rows, order, groupBy, isDate, orderBy).Success?
    ensures multiset(OrderRowsAsWritten(rows, order, groupBy, isDate, orderBy).value) ==
      multiset(FollowOrder(AnchorInterest(rows, order, groupBy, isDate, orderBy, false), rows, groupBy[0]))
  {
    var interest := AnchorInterest(rows, order, groupBy, isDate, orderBy, false);
    var sorted := FollowOrder(interest, rows, groupBy[0]);
    assert OrderRowsAsWritten(rows, order, groupBy, isDate, orderBy) == Success(orderBy(sorted, ["-date"]));
  }

  /** The rows of each date run through the values of interest in order,
      given an `order_by` that sorts on "date" stably. */
  lemma AnchoredDates(rows: seq<Row>, order: seq<string>, groupBy: seq<string>, isDate: string -> bool,
                      orderBy: (seq<Row>, seq<string>) -> seq<Row>, v: Value)
    requires FirstDate(order, isDate).Some? && order[FirstDate(order, isDate).value] != "" && groupBy != []
    requires forall s :: StableByDate(s, orderBy(s, ["-date"]))
    ensures OrderRows(rows, order, groupBy, isDate, orderBy).Success?
    ensures var slice := WithValue(OrderRows(rows, order, groupBy, isDate, orderBy).value, "date", v);
      var interest := AnchorInterest(rows, order, groupBy, isDate, orderBy, true);
      slice == FollowOrder(interest, WithValue(rows, "date", v), groupBy[0]) &&
      forall p, q :: 0 <= p < q < |slice| ==>
        IndexOf(interest, RowGet(slice[p], groupBy[0])) <= IndexOf(interest, RowGet(slice[q], groupBy[0]))
  {
    var t := groupBy[0];
    var interest := AnchorInterest(rows, order, groupBy, isDate, orderBy, true);
    var sorted := FollowOrder(interest, rows, t);
    var out := orderBy(sorted, ["-date"]);
    assert OrderRows(rows, order, groupBy, isDate, orderBy) == Success(out);
    assert StableByDate(sorted, out);
    assert WithValue(out, "date", v) == WithValue(sorted, "date", v);
    FollowOrderSlice(interest, rows, t, "date", v);
    FollowOrderSorted(interest, WithValue(rows, "date", v), t);
  }

  /** An `order_by` that keeps the rows as they are, enough to exhibit the
      repetition below. */
  function Unordered(rows: seq<Row>, order: seq<string>): seq<Row> { rows }

  /** As written, the interest list repeats a value when the anchor date has
      several rows that share the first group-by field, as happens whenever
      the query groups by two fields; each repetition copies every row of
      that value once more. */
  lemma AnchorDuplicatesRows(r1: Row, r2: Row, d: string, groupBy: seq<string>, isDate: string -> bool)
    requires d != "" && isDate(d) && !isDate("-date") && groupBy != []
    requires RowGet(r1, "date") == VStr(d) && RowGet(r2, "date") == VStr(d)
    requires RowGet(r1, groupBy[0]) == RowGet(r2, groupBy[0])
    ensures OrderRowsAsWritten([r1, r2], ["-date", d], groupBy, isDate, Unordered) == Success([r1, r2, r1, r2])
  {
    var rows := [r1, r2];
    var x := RowGet(r1, groupBy[0]);
    TwoRowInterest(r1, r2, d, groupBy, isDate);
    assert WithValue(rows, groupBy[0], x) == rows;
    assert [x, x][..1] == [x] && [x][..0] == [];
    assert FollowOrder([x], rows, groupBy[0]) == rows;
    assert FollowOrder([x, x], rows, groupBy[0]) == rows + rows;
    assert rows + rows == [r1, r2, r1, r2];
  }

  /** As written, a value listed again after another value breaks the
      anchor order: with the order of interest [a, b, a] (anchor rows
      ordered a, b, a) the row of value a comes back after the row of b. */
  lemma RepeatedInterestOutOfOrder(ra: Row, rb: Row, sortTerm: string, a: Value, b: Value)
    requires RowGet(ra, sortTerm) == a && RowGet(rb, sortTerm) == b && a != b
    ensures FollowOrder([a, b, a], [ra, rb], sortTerm) == [ra, rb, ra]
    ensures IndexOf([a, b, a], RowGet(rb, sortTerm)) > IndexOf([a, b, a], RowGet(ra, sortTerm))
  {
    var rows := [ra, rb];
    assert rows[1..] == [rb] && [rb][1..] == [];
    assert WithValue(rows, sortTerm, a) == [ra];
    assert WithValue(rows, sortTerm, b) == [rb];
    assert [a, b, a][..2] == [a, b] && [a, b][..1] == [a] && [a][..0] == [];
    assert FollowOrder([a], rows, sortTerm) == [ra];
    assert FollowOrder([a, b], rows, sortTerm) == [ra, rb];
  }

  /** The corrected ordering keeps the same two rows once each. */
  lemma AnchorKeepsRowsOnce(r1: Row, r2: Row, d: string, groupBy: seq<string>, isDate: string -> bool)
    requires d != "" && isDate(d) && !isDate("-date") && groupBy != []
    requires RowGet(r1, "date") == VStr(d) && RowGet(r2, "date") == VStr(d)
    requires RowGet(r1, groupBy[0]) == RowGet(r2, groupBy[0])
    ensures OrderRows([r1, r2], ["-date", d], groupBy, isDate, Unordered) == Success([r1, r2])
  {
    var rows := [r1, r2];
    var x := RowGet(r1, groupBy[0]);
    TwoRowInterest(r1, r2, d, groupBy, isDate);
    assert WithValue(rows, groupBy[0], x) == rows;
    assert FollowOrder([x], rows, groupBy[0]) == rows;
  }

  /** The anchor date of the two-row example and its values of interest. */
  lemma TwoRowInterest(r1: Row, r2: Row, d: string, groupBy: seq<string>, isDate: string -> bool)
    requires d != "" && isDate(d) && !isDate("-date") && groupBy != []
    requires RowGet(r1, "date") == VStr(d) && RowGet(r2, "date") == VStr(d)
    requires RowGet(r1, groupBy[0]) == RowGet(r2, groupBy[0])
    ensures FirstDate(["-date", d], isDate) == Some(1)
    ensures AnchorInterest([r1, r2], ["-date", d], groupBy, isDate, Unordered, false) == [RowGet(r1, groupBy[0]), RowGet(r1, groupBy[0])]
    ensures AnchorInterest([r1, r2], ["-date", d], groupBy, isDate, Unordered, true) == [RowGet(r1, groupBy[0])]
  {
    var order := ["-date", d];
    var t := groupBy[0];
    var x := RowGet(r1, t);
    var rows := [r1, r2];
    assert order[1..] == [d];
    assert FirstDate(order, isDate) == Some(1);
    TwoRowAnchor(r1, r2, d);
    var all := Interest(rows, t);
    assert all == [x, x];
    assert all[..1] == [x] && all[..1][..0] == [];
    assert Dedup(all[..1]) == [x];
  }

  /** Both rows of the example are on the anchor date. */
  lemma TwoRowAnchor(r1: Row, r2: Row, d: string)
    requires RowGet(r1, "date") == VStr(d) && RowGet(r2, "date") == VStr(d)
    ensures WithValue([r1, r2], "date", VStr(d)) == [r1, r2]
  {
    assert [r1, r2][1..] == [r2] && [r2][1..] == [];
    assert WithValue([r2], "date", VStr(d)) == [r2];
  }

  // ---------------------------------------------------------------------
  // The order of the total's keys

  /** `{k: query_sum[k] for k in key_order if k in query_sum}`. */
  function Pick(keyOrder: seq<string>, sum: Dict<Value>): Dict<Value>
    decreases |keyOrder|
  {
    if keyOrder == [] then Empty()
    else
      var front := Pick(keyOrder[..|keyOrder| - 1], sum);
      var k := keyOrder[|keyOrder| - 1];
      if k in sum.keys then Set(front, k, sum.vals[k]) else front
  }

  /** The picked dict: the keys of the key order that the total has, each
      with the total's value, in the order of their first mention. */
  lemma {:induction false} PickMeaning(keyOrder: seq<string>, sum: Dict<Value>)
    ensures var d := Pick(keyOrder, sum);
      (forall k :: k in d.keys <==> k in keyOrder && k in sum.keys) &&
      (forall k :: k in d.keys ==> d.vals[k] == sum.vals[k]) &&
      forall i, j :: 0 <= i < j < |d.keys| ==> IndexOf(keyOrder, d.keys[i]) < IndexOf(keyOrder, d.keys[j])
    decreases |keyOrder|
  {
    if keyOrder != [] {
      var n := |keyOrder|;
      var fk := keyOrder[..n - 1];
      var front := Pick(fk, sum);
      var k := keyOrder[n - 1];
      PickMeaning(fk, sum);
      assert keyOrder == fk + [k];
      if k in sum.keys && k !in front.keys {
        var d := Pick(keyOrder, sum);
        assert d.keys == front.keys + [k];
        assert k !in fk;
        assert IndexOf(keyOrder, k) == n - 1;
        forall i | 0 <= i < |front.keys| ensures IndexOf(keyOrder, front.keys[i]) == IndexOf(fk, front.keys[i]) < n - 1 {
          IndexOfPrefix(keyOrder, n - 1, front.keys[i]);
        }
        forall i, j | 0 <= i < j < |d.keys| ensures IndexOf(keyOrder, d.keys[i]) < IndexOf(keyOrder, d.keys[j]) {
          assert d.keys[i] == front.keys[i];
          if j < |front.keys| {
            assert d.keys[j] == front.keys[j];
          }
        }
      } else {
        forall i | 0 <= i < |front.keys| ensures IndexOf(keyOrder, front.keys[i]) == IndexOf(fk, front.keys[i]) {
          IndexOfPrefix(keyOrder, n - 1, front.keys[i]);
        }
      }
    }
  }

  /** `ordered_total`: the picked keys, then `update(query_sum)`. */
  function OrderedTotal(keyOrder: seq<string>, sum: Dict<Value>): Dict<Value> {
    Update(Pick(keyOrder, sum), sum)
  }

  /** The ordered total is the total with its keys reordered: the same keys
      with the same values, those of the key order first, in that order. */
  lemma OrderedTotalMeaning(keyOrder: seq<string>, sum: Dict<Value>, k: string)
    ensures var d := OrderedTotal(keyOrder, sum);
      Get(d, k) == Get(sum, k) &&
      (k in d.keys <==> k in sum.keys) &&
      Pick(keyOrder, sum).keys <= d.keys
    ensures var ks := Pick(keyOrder, sum).keys;
      (forall c :: c in ks <==> c in keyOrder && c in sum.keys) &&
      forall i, j :: 0 <= i < j < |ks| ==> IndexOf(keyOrder, ks[i]) < IndexOf(keyOrder, ks[j])
  {
    PickMeaning(keyOrder, sum);
    UpdateMeaning(Pick(keyOrder, sum), sum, k);
  }
}
