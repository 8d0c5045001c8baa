/** Python objects that nest: a leaf value, or a dict whose values may be
    dicts again, its entries in insertion order. Nested dicts are values
    here, not shared objects. */
module PyTrees {
  import opened Wrappers
  import opened PyValues

  datatype Tree = Leaf(v: Value) | Node(items: seq<Item>)
  datatype Item = Item(key: string, val: Tree)

  /** Python truthiness: a leaf by its value, a dict when it is not empty. */
  predicate TreeTruthy(t: Tree) {
    match t
    case Leaf(v) => Truthy(v)
    case Node(items) => items != []
  }

  /** The keys of a dict, in insertion order. */
  function Keys(items: seq<Item>): (ks: seq<string>)
    ensures |ks| == |items|
    ensures forall i :: 0 <= i < |items| ==> ks[i] == items[i].key
  {
    seq(|items|, i requires 0 <= i < |items| => items[i].key)
  }

  /** A dict never holds a key twice. */
  predicate DistinctKeys(items: seq<Item>) {
    Distinct(Keys(items))
  }

  /** `d.get(k)`, `None` standing for a missing key. */
  function Lookup(items: seq<Item>, k: string): Option<Tree>
    decreases |items|
  {
    if items == [] then None
    else if items[0].key == k then Some(items[0].val)
    else Lookup(items[1..], k)
  }

  /** A key is found exactly when the dict has it, and what is found is
      an entry of the dict. */
  lemma {:induction false} LookupFound(items: seq<Item>, k: string)
    ensures Lookup(items, k).None? <==> k !in Keys(items)
    ensures Lookup(items, k).Some? ==> exists i :: 0 <= i < |items| && items[i] == Item(k, Lookup(items, k).value)
    decreases |items|
  {
    if items != [] {
      assert Keys(items) == [items[0].key] + Keys(items[1..]);
      if items[0].key != k {
        LookupFound(items[1..], k);
        if Lookup(items, k).Some? {
          var i :| 0 <= i < |items[1..]| && items[1..][i] == Item(k, Lookup(items, k).value);
          assert items[i + 1] == items[1..][i];
        }
      } else {
        assert items[0] == Item(k, Lookup(items, k).value);
      }
    }
  }

  /** In a dict without repeated keys the entry of a key is the one found. */
  lemma LookupAt(items: seq<Item>, i: nat)
    requires DistinctKeys(items) && i < |items|
    ensures Lookup(items, items[i].key) == Some(items[i].val)
  {
    LookupFound(items, items[i].key);
    var r := Lookup(items, items[i].key);
    var j :| 0 <= j < |items| && items[j] == Item(items[i].key, r.value);
    assert Keys(items)[j] == Keys(items)[i];
  }

  /** `d.get(k, default)` on a dict. */
  function GetOr(items: seq<Item>, k: string, default: Tree): Tree {
    match Lookup(items, k)
    case Some(t) => t
    case None => default
  }

  /** `d[k] = v`: an existing key keeps its place, a new key goes last. */
  function Assign(items: seq<Item>, k: string, v: Tree): seq<Item>
    decreases |items|
  {
    if items == [] then [Item(k, v)]
    else if items[0].key == k then [Item(k, v)] + items[1..]
    else [items[0]] + Assign(items[1..], k, v)
  }

  /** The entries after an assignment, place by place. */
  lemma {:induction false} AssignShape(items: seq<Item>, k: string, v: Tree)
    ensures k in Keys(items) ==> |Assign(items, k, v)| == |items|
    ensures k !in Keys(items) ==> Assign(items, k, v) == items + [Item(k, v)]
    ensures forall i :: 0 <= i < |items| ==> Assign(items, k, v)[i].key == items[i].key
    ensures forall i :: 0 <= i < |items| && items[i].key != k ==> Assign(items, k, v)[i] == items[i]
    ensures Lookup(Assign(items, k, v), k) == Some(v)
    decreases |items|
  {
    if items != [] {
      assert Keys(items) == [items[0].key] + Keys(items[1..]);
      if items[0].key != k {
        AssignShape(items[1..], k, v);
        var r := Assign(items, k, v);
        assert r == [items[0]] + Assign(items[1..], k, v);
        forall i | 0 < i < |items| ensures r[i].key == items[i].key && (items[i].key != k ==> r[i] == items[i]) {
          assert r[i] == Assign(items[1..], k, v)[i - 1];
        }
      }
    }
  }

  /** Assigning answers the new value for its key and leaves the others;
      the old keys keep their places, a new key is added, and the keys
      stay distinct. */
  lemma AssignMeaning(items: seq<Item>, k: string, v: Tree, x: string)
    requires DistinctKeys(items)
    ensures DistinctKeys(Assign(items, k, v))
    ensures Keys(items) <= Keys(Assign(items, k, v))
    ensures Lookup(Assign(items, k, v), x) == if x == k then Some(v) else Lookup(items, x)
    ensures x in Keys(Assign(items, k, v)) <==> x in Keys(items) || x == k
  {
    var r := Assign(items, k, v);
    AssignShape(items, k, v);
    if k in Keys(items) {
      assert Keys(r) == Keys(items);
    } else {
      assert Keys(r) == Keys(items) + [k];
      DistinctSnoc(Keys(items), k);
    }
    LookupFound(items, x);
    if x != k && x in Keys(items) {
      var i :| 0 <= i < |items| && Keys(items)[i] == x;
      LookupAt(items, i);
      LookupAt(r, i);
    }
    if x != k && x !in Keys(items) {
      LookupFound(r, x);
    }
  }
}
