/** The dynamically typed data the handlers work on: field values, rows,
    insertion-ordered dictionaries and the few string operations the code
    relies on. */
module PyValues {
  import opened Wrappers

  /** A field value: Python's None, a bool, a number (Decimal and int alike,
      as an exact real) or a string. */
  datatype Value = VNone | VBool(b: bool) | VNum(r: real) | VStr(s: string)

  /** The exceptions the modelled code can raise. */
  datatype PyError =
    | KeyError(key: Value)
    | TypeError
    | IndexError
    | AttributeError
    | UnicodeDecodeError
    | ValueError

  /** Python truthiness of a value. */
  predicate Truthy(v: Value) {
    match v
    case VNone => false
    case VBool(b) => b
    case VNum(r) => r != 0.0
    case VStr(s) => s != ""
  }

  /** SQL COALESCE of one column with a fallback constant. */
  function Coalesce(v: Value, fallback: Value): (r: Value)
    ensures v != VNone ==> r == v
    ensures v == VNone ==> r == fallback
  {
    if v == VNone then fallback else v
  }

  // ---------------------------------------------------------------------
  // Rows

  /** One record of a query result or of a data frame. */
  type Row = map<string, Value>

  /** `row.get(k)`: None for a missing key. */
  function RowGet(row: Row, k: string): Value {
    if k in row then row[k] else VNone
  }

  /** The columns of a data frame built from `rows`: every key of every row. */
  function Columns(rows: seq<Row>): (cols: set<string>)
    ensures forall i, k :: 0 <= i < |rows| && k in rows[i] ==> k in cols
    ensures forall k :: k in cols ==> exists i :: 0 <= i < |rows| && k in rows[i]
  {
    if rows == [] then {} else rows[0].Keys + Columns(rows[1..])
  }

  /** `df[k] = v` on a frame: every row gets `k` set to `v`. */
  function SetColumn(rows: seq<Row>, k: string, v: Value): (r: seq<Row>)
    ensures |r| == |rows|
    ensures forall i :: 0 <= i < |rows| ==> r[i] == rows[i][k := v]
  {
    if rows == [] then [] else [rows[0][k := v]] + SetColumn(rows[1..], k, v)
  }

  /** The rows whose field `k` holds `v` (as `row.get(k) == v`), in order. */
  function WithValue(rows: seq<Row>, k: string, v: Value): (r: seq<Row>)
    ensures |r| <= |rows|
    ensures forall x :: x in r ==> x in rows && RowGet(x, k) == v
    ensures forall x :: x in rows && RowGet(x, k) == v ==> x in r
  {
    if rows == [] then []
    else (if RowGet(rows[0], k) == v then [rows[0]] else []) + WithValue(rows[1..], k, v)
  }

  lemma {:induction false} WithValueAppend(a: seq<Row>, b: seq<Row>, k: string, v: Value)
    ensures WithValue(a + b, k, v) == WithValue(a, k, v) + WithValue(b, k, v)
  {
    if a != [] {
      assert (a + b)[1..] == a[1..] + b;
      WithValueAppend(a[1..], b, k, v);
    } else {
      assert a + b == b;
    }
  }

  lemma {:induction false} WithValueCommutes(rows: seq<Row>, k1: string, v1: Value, k2: string, v2: Value)
    ensures WithValue(WithValue(rows, k1, v1), k2, v2) == WithValue(WithValue(rows, k2, v2), k1, v1)
  {
    if rows != [] {
      WithValueCommutes(rows[1..], k1, v1, k2, v2);
      var h := [rows[0]];
      var h1 := if RowGet(rows[0], k1) == v1 then h else [];
      var h2 := if RowGet(rows[0], k2) == v2 then h else [];
      WithValueAppend(h1, WithValue(rows[1..], k1, v1), k2, v2);
      WithValueAppend(h2, WithValue(rows[1..], k2, v2), k1, v1);
    }
  }

  lemma {:induction false} WithValueMultiset(rows: seq<Row>, k: string, v: Value)
    ensures multiset(WithValue(rows, k, v)) <= multiset(rows)
  {
    if rows != [] {
      WithValueMultiset(rows[1..], k, v);
      var head := if RowGet(rows[0], k) == v then [rows[0]] else [];
      assert WithValue(rows, k, v) == head + WithValue(rows[1..], k, v);
      assert multiset(WithValue(rows, k, v)) == multiset(head) + multiset(WithValue(rows[1..], k, v));
      assert rows == [rows[0]] + rows[1..];
      assert multiset(rows) == multiset{rows[0]} + multiset(rows[1..]);
    }
  }

  // ---------------------------------------------------------------------
  // Insertion-ordered dictionaries

  /** No element repeats. */
  predicate Distinct<T(==)>(s: seq<T>) {
    forall i, j :: 0 <= i < j < |s| ==> s[i] != s[j]
  }

  lemma DistinctSnoc<T>(s: seq<T>, x: T)
    requires Distinct(s) && x !in s
    ensures Distinct(s + [x])
  {
    var t := s + [x];
    forall i, j | 0 <= i < j < |t| ensures t[i] != t[j] {
      if j < |s| {
        assert t[i] == s[i] && t[j] == s[j];
      } else {
        assert t[i] == s[i] && t[j] == x;
      }
    }
  }

  lemma DistinctPrefix<T>(s: seq<T>, n: nat)
    requires Distinct(s) && n <= |s|
    ensures Distinct(s[..n])
  {
    forall i, j | 0 <= i < j < n ensures s[..n][i] != s[..n][j] {
      assert s[..n][i] == s[i] && s[..n][j] == s[j];
    }
  }

  /** A Python dict: its keys in insertion order and the value of each. */
  datatype RawDict<V> = RawDict(keys: seq<string>, vals: map<string, V>)

  /** Each key once, and every listed key has a value. Only the listed keys
      are part of the dict. */
  predicate DictWf<V>(d: RawDict<V>) {
    Distinct(d.keys) && forall i :: 0 <= i < |d.keys| ==> d.keys[i] in d.vals
  }

  type Dict<V> = d: RawDict<V> | DictWf(d) witness RawDict([], map[])

  /** `{}`. */
  function Empty<V>(): Dict<V> {
    RawDict([], map[])
  }

  /** `d.get(k)`. */
  function Get<V>(d: Dict<V>, k: string): Option<V> {
    if k in d.keys then Some(d.vals[k]) else None
  }

  /** `d[k] = v`: an existing key keeps its place, a new key goes last. */
  function Set<V>(d: Dict<V>, k: string, v: V): Dict<V> {
    if k in d.keys then RawDict(d.keys, d.vals[k := v])
    else
      DistinctSnoc(d.keys, k);
      RawDict(d.keys + [k], d.vals[k := v])
  }

  /** `s` without the element `x`, order kept. */
  function Remove(s: seq<string>, x: string): (r: seq<string>)
    ensures forall y :: y in r <==> y in s && y != x
    ensures x !in s ==> r == s
    decreases |s|
  {
    if s == [] then []
    else
      var rest := Remove(s[..|s| - 1], x);
      var last := s[|s| - 1];
      assert s == s[..|s| - 1] + [last];
      if last == x then rest else rest + [last]
  }

  lemma {:induction false} RemoveDistinct(s: seq<string>, x: string)
    requires Distinct(s)
    ensures Distinct(Remove(s, x))
    decreases |s|
  {
    if s != [] {
      var front := s[..|s| - 1];
      var last := s[|s| - 1];
      DistinctPrefix(s, |s| - 1);
      RemoveDistinct(front, x);
      assert last !in front by {
        forall i | 0 <= i < |front| ensures front[i] != last { assert front[i] == s[i]; }
      }
      if last != x {
        DistinctSnoc(Remove(front, x), last);
      }
    }
  }

  /** `d.pop(k)` once `k` is known to be present: the entry is removed. */
  function Pop<V>(d: Dict<V>, k: string): Dict<V> {
    RemoveDistinct(d.keys, k);
    var ks := Remove(d.keys, k);
    assert forall i :: 0 <= i < |ks| ==> ks[i] in d.vals - {k} by {
      forall i | 0 <= i < |ks| ensures ks[i] in d.vals - {k} {
        assert ks[i] in ks;
      }
    }
    RawDict(ks, d.vals - {k})
  }

  /** Every key of `ks` set to its value in `vals`, one after another. */
  function SetAll<V>(d: Dict<V>, ks: seq<string>, vals: map<string, V>): (r: Dict<V>)
    requires forall k :: k in ks ==> k in vals
    decreases |ks|
  {
    if ks == [] then d
    else
      var last := ks[|ks| - 1];
      Set(SetAll(d, ks[..|ks| - 1], vals), last, vals[last])
  }

  /** `d.update(e)`. */
  function Update<V>(d: Dict<V>, e: Dict<V>): Dict<V> {
    SetAll(d, e.keys, e.vals)
  }

  /** After setting `ks` a key of `ks` has its value in `vals`, any other
      key keeps its value. */
  lemma {:induction false} SetAllGet<V>(d: Dict<V>, ks: seq<string>, vals: map<string, V>, k: string)
    requires forall k :: k in ks ==> k in vals
    ensures Get(SetAll(d, ks, vals), k) == if k in ks then Some(vals[k]) else Get(d, k)
    decreases |ks|
  {
    if ks != [] {
      var front := ks[..|ks| - 1];
      SetAllGet(d, front, vals, k);
      assert ks == front + [ks[|ks| - 1]];
    }
  }

  /** Setting keys never moves the old ones: they stay in front. */
  /** `d[k] = v` answers `v` for `k` and what `d` answered for any other
      key, and keeps the keys of `d`. */
  lemma SetMeaning<V>(d: Dict<V>, k: string, v: V, x: string)
    ensures Get(Set(d, k, v), x) == if x == k then Some(v) else Get(d, x)
    ensures x in Set(d, k, v).keys <==> x in d.keys || x == k
    ensures d.keys <= Set(d, k, v).keys
  {
  }

  lemma {:induction false} SetAllPrefix<V>(d: Dict<V>, ks: seq<string>, vals: map<string, V>)
    requires forall k :: k in ks ==> k in vals
    ensures d.keys <= SetAll(d, ks, vals).keys
    decreases |ks|
  {
    if ks != [] {
      SetAllPrefix(d, ks[..|ks| - 1], vals);
    }
  }

  /** The keys after `d.update(e)`: those of `d` and those of `e`. */
  lemma {:induction false} SetAllKeys<V>(d: Dict<V>, ks: seq<string>, vals: map<string, V>, k: string)
    requires forall k :: k in ks ==> k in vals
    ensures k in SetAll(d, ks, vals).keys <==> k in d.keys || k in ks
    decreases |ks|
  {
    if ks != [] {
      var front := ks[..|ks| - 1];
      SetAllKeys(d, front, vals, k);
      assert ks == front + [ks[|ks| - 1]];
    }
  }

  /** After `d.update(e)` a key of `e` has its value in `e`, any other key
      keeps its value in `d`; the old keys keep their places at the front. */
  lemma UpdateMeaning<V>(d: Dict<V>, e: Dict<V>, k: string)
    ensures Get(Update(d, e), k) == if k in e.keys then Get(e, k) else Get(d, k)
    ensures k in Update(d, e).keys <==> k in d.keys || k in e.keys
    ensures d.keys <= Update(d, e).keys
  {
    SetAllGet(d, e.keys, e.vals, k);
    SetAllPrefix(d, e.keys, e.vals);
    SetAllKeys(d, e.keys, e.vals, k);
  }

  // ---------------------------------------------------------------------
  // Strings

  /** Python's `pat in s` for strings. */
  predicate Contains(s: string, pat: string)
    decreases |s|
  {
    |pat| <= |s| && (s[..|pat|] == pat || Contains(s[1..], pat))
  }

  /** `sep.join(parts)`. */
  function Join(sep: string, parts: seq<string>): string {
    if parts == [] then ""
    else if |parts| == 1 then parts[0]
    else parts[0] + sep + Join(sep, parts[1..])
  }

  /** `str.lower()` on ASCII letters; other characters are left as they are. */
  function LowerAscii(s: string): (r: string)
    ensures |r| == |s|
    ensures forall i :: 0 <= i < |s| ==> ('A' <= s[i] <= 'Z' ==> r[i] as int == s[i] as int + 32)
    ensures forall i :: 0 <= i < |s| ==> (!('A' <= s[i] <= 'Z') ==> r[i] == s[i])
  {
    if s == [] then []
    else [if 'A' <= s[0] <= 'Z' then (s[0] as int + 32) as char else s[0]] + LowerAscii(s[1..])
  }
}
