/** The recursive merge of one nested dict into another
    (`_update_nested_dict`): the original is updated in place and returned. */
module NestedMerge {
  import opened Wrappers
  import opened PyValues
  import opened PyTrees

  /** The original after merging `upd` (the source's `new`) into it, and the exception raised on
      the way, if any. A `upd` that is not a dict leaves the original alone;
      an original that is not a dict while `upd` has entries raises on its
      first `get`. */
  function Merge(original: Tree, upd: Tree): (Tree, Option<PyError>)
    decreases upd, 1
  {
    if upd.Node? then MergePrefix(original, upd, |upd.items|) else (original, None)
  }

  /** The merge after the first `n` entries of `upd`. A key whose original
      value is truthy gets the merge of the two values; any other key gets
      the new value. A failure in a nested merge stops the loop, leaving the
      nested dict as far as it was updated. */
  function MergePrefix(original: Tree, upd: Tree, n: nat): (Tree, Option<PyError>)
    requires upd.Node? && n <= |upd.items|
    decreases upd, 0, n
  {
    if n == 0 then (original, None)
    else
      var prev := MergePrefix(original, upd, n - 1);
      if prev.1.Some? then prev
      else if !prev.0.Node? then (prev.0, Some(AttributeError))
      else MergeEntry(prev.0.items, upd, n - 1)
  }

  /** Entry `i` of `upd` merged into the dict `cur`. */
  function MergeEntry(cur: seq<Item>, upd: Tree, i: nat): (Tree, Option<PyError>)
    requires upd.Node? && i < |upd.items|
    decreases upd, 0, i
  {
    var it := upd.items[i];
    var found := Lookup(cur, it.key);
    if found.Some? && TreeTruthy(found.value) then
      var returned := Merge(found.value, it.val);
      (Node(Assign(cur, it.key, returned.0)), returned.1)
    else (Node(Assign(cur, it.key, it.val)), None)
  }

  /** A dict object: the one the merge updates in place. */
  class DictObject {
    var items: seq<Item>

    constructor (items: seq<Item>)
      ensures this.items == items
    {
      this.items := items;
    }
  }

  /** `_update_nested_dict(original, new)` on a dict object: the loop over
      the entries of `upd` assigns into `original` and the same object is
      returned. */
  method UpdateNestedDict(original: DictObject, upd: Tree) returns (returned: DictObject, err: Option<PyError>)
    modifies original
    ensures returned == original
    ensures (Node(original.items), err) == Merge(Node(old(original.items)), upd)
    ensures !upd.Node? ==> original.items == old(original.items) && err.None?
  {
    returned := original;
    err := None;
    if upd.Node? {
      ghost var start := Node(original.items);
      var i := 0;
      while i < |upd.items|
        invariant 0 <= i <= |upd.items|
        invariant (Node(original.items), None) == MergePrefix(start, upd, i)
      {
        MergeStep(start, upd, i);
        var it := upd.items[i];
        var found := Lookup(original.items, it.key);
        if found.Some? && TreeTruthy(found.value) {
          var returnedValue := Merge(found.value, it.val);
          original.items := Assign(original.items, it.key, returnedValue.0);
          if returnedValue.1.Some? {
            err := returnedValue.1;
            MergeStops(start, upd, i + 1, |upd.items|);
            assert Merge(start, upd) == MergePrefix(start, upd, i + 1);
            return;
          }
        } else {
          original.items := Assign(original.items, it.key, it.val);
        }
        i := i + 1;
      }
      assert Merge(start, upd) == MergePrefix(start, upd, i);
    }
  }

  /** One more entry of `upd` once the earlier ones have not raised. */
  lemma MergeStep(original: Tree, upd: Tree, n: nat)
    requires upd.Node? && n < |upd.items|
    requires MergePrefix(original, upd, n).1.None? && MergePrefix(original, upd, n).0.Node?
    ensures MergePrefix(original, upd, n + 1) == MergeEntry(MergePrefix(original, upd, n).0.items, upd, n)
  {
  }

  /** Once an entry raised, the later entries change nothing. */
  lemma {:induction false} MergeStops(original: Tree, upd: Tree, n: nat, m: nat)
    requires upd.Node? && n <= m <= |upd.items|
    requires MergePrefix(original, upd, n).1.Some?
    ensures MergePrefix(original, upd, m) == MergePrefix(original, upd, n)
    decreases m
  {
    if m > n {
      MergeStops(original, upd, n, m - 1);
    }
  }

  /** What a key of `upd` ends up with: the merge into a truthy original
      value, or else the new value itself. */
  function Merged(prior: Option<Tree>, v: Tree): Tree {
    if prior.Some? && TreeTruthy(prior.value) then Merge(prior.value, v).0 else v
  }

  /** No entry raised in the first `n` if none raised in all of them. */
  lemma {:induction false} MergeNoErrorBefore(original: Tree, upd: Tree, n: nat, m: nat)
    requires upd.Node? && m <= n <= |upd.items|
    requires MergePrefix(original, upd, n).1.None?
    ensures MergePrefix(original, upd, m).1.None?
    decreases n
  {
    if m < n {
      MergeNoErrorBefore(original, upd, n - 1, m);
    }
  }

  /** The key of entry `n - 1` is not among the earlier ones. */
  lemma KeysSnoc(upd: Tree, n: nat)
    requires upd.Node? && 0 < n <= |upd.items| && DistinctKeys(upd.items)
    ensures Keys(upd.items[..n]) == Keys(upd.items[..n - 1]) + [upd.items[n - 1].key]
    ensures upd.items[n - 1].key !in Keys(upd.items[..n - 1])
  {
    assert Keys(upd.items[..n]) == Keys(upd.items[..n - 1]) + [upd.items[n - 1].key];
    forall j | 0 <= j < n - 1 ensures Keys(upd.items)[j] != upd.items[n - 1].key {
      assert Keys(upd.items)[n - 1] == upd.items[n - 1].key;
    }
  }

  /** After the first `n` entries (none of which raised) the original is
      still a dict, its keys in their places and then the new ones, all
      distinct. */
  lemma {:induction false} MergePrefixShape(original: Tree, upd: Tree, n: nat, x: string)
    requires original.Node? && upd.Node? && n <= |upd.items|
    requires DistinctKeys(original.items) && DistinctKeys(upd.items)
    requires MergePrefix(original, upd, n).1.None?
    ensures MergePrefix(original, upd, n).0.Node?
    ensures var r := MergePrefix(original, upd, n).0.items;
      DistinctKeys(r) &&
      Keys(original.items) <= Keys(r) &&
      (x in Keys(r) <==> x in Keys(original.items) || x in Keys(upd.items[..n]))
    decreases n
  {
    if n > 0 {
      MergeNoErrorBefore(original, upd, n, n - 1);
      MergePrefixShape(original, upd, n - 1, x);
      var cur := MergePrefix(original, upd, n - 1).0;
      var it := upd.items[n - 1];
      KeysSnoc(upd, n);
      MergeStep(original, upd, n - 1);
      var found := Lookup(cur.items, it.key);
      var v := if found.Some? && TreeTruthy(found.value) then Merge(found.value, it.val).0 else it.val;
      assert MergePrefix(original, upd, n).0 == Node(Assign(cur.items, it.key, v));
      AssignMeaning(cur.items, it.key, v, x);
      assert Keys(Assign(cur.items, it.key, v))[..|Keys(cur.items)|] == Keys(cur.items);
    }
  }

  /** After the first `n` entries (none of which raised) a key of those
      entries holds its merged value, any other key its original value. */
  lemma {:induction false} MergePrefixLookup(original: Tree, upd: Tree, n: nat, x: string)
    requires original.Node? && upd.Node? && n <= |upd.items|
    requires DistinctKeys(original.items) && DistinctKeys(upd.items)
    requires MergePrefix(original, upd, n).1.None?
    ensures MergePrefix(original, upd, n).0.Node? &&
      Lookup(MergePrefix(original, upd, n).0.items, x) ==
        if x in Keys(upd.items[..n]) then Some(Merged(Lookup(original.items, x), GetOr(upd.items, x, Leaf(VNone))))
        else Lookup(original.items, x)
    decreases n
  {
    MergePrefixShape(original, upd, n, x);
    if n > 0 {
      MergeNoErrorBefore(original, upd, n, n - 1);
      var cur := MergePrefix(original, upd, n - 1).0;
      var it := upd.items[n - 1];
      MergePrefixShape(original, upd, n - 1, x);
      MergePrefixLookup(original, upd, n - 1, x);
      MergePrefixLookup(original, upd, n - 1, it.key);
      KeysSnoc(upd, n);
      LookupAt(upd.items, n - 1);
      MergeStep(original, upd, n - 1);
      var found := Lookup(cur.items, it.key);
      var v := if found.Some? && TreeTruthy(found.value) then Merge(found.value, it.val).0 else it.val;
      assert MergePrefix(original, upd, n).0 == Node(Assign(cur.items, it.key, v));
      AssignMeaning(cur.items, it.key, v, x);
      if x in Keys(upd.items[..n - 1]) {
        var j :| 0 <= j < n - 1 && Keys(upd.items[..n - 1])[j] == x;
        LookupAt(upd.items, j);
      }
    }
  }

  /** Merging a dict into a dict without a failure: every key of `upd`
      holds its merged value, every other key its original value, and the
      keys are the union of both, the original's first and in place. */
  lemma MergeMeaning(original: Tree, upd: Tree, x: string)
    requires original.Node? && upd.Node?
    requires DistinctKeys(original.items) && DistinctKeys(upd.items)
    requires Merge(original, upd).1.None?
    ensures Merge(original, upd).0.Node?
    ensures var r := Merge(original, upd).0.items;
      DistinctKeys(r) &&
      Keys(original.items) <= Keys(r) &&
      (x in Keys(r) <==> x in Keys(original.items) || x in Keys(upd.items)) &&
      Lookup(r, x) ==
        if x in Keys(upd.items) then Some(Merged(Lookup(original.items, x), GetOr(upd.items, x, Leaf(VNone))))
        else Lookup(original.items, x)
  {
    assert upd.items[..|upd.items|] == upd.items;
    MergePrefixShape(original, upd, |upd.items|, x);
    MergePrefixLookup(original, upd, |upd.items|, x);
  }

  /** A value of `upd` that is not a dict never overwrites a truthy
      original value. */
  lemma MergeKeepsTruthyValue(original: Tree, upd: Tree, x: string)
    requires original.Node? && upd.Node?
    requires DistinctKeys(original.items) && DistinctKeys(upd.items)
    requires Merge(original, upd).1.None?
    requires Lookup(original.items, x).Some? && TreeTruthy(Lookup(original.items, x).value)
    requires Lookup(upd.items, x).Some? && Lookup(upd.items, x).value.Leaf?
    ensures Merge(original, upd).0.Node? && Lookup(Merge(original, upd).0.items, x) == Lookup(original.items, x)
  {
    MergeMeaning(original, upd, x);
  }

  /** A dict merged into a truthy value that is not a dict raises
      `AttributeError`, and the original is left as it was. */
  lemma MergeIntoLeafRaises(x: string, leaf: Value, y: string, v: Tree)
    requires Truthy(leaf)
    ensures var original := Node([Item(x, Leaf(leaf))]);
      Merge(original, Node([Item(x, Node([Item(y, v)]))])) == (original, Some(AttributeError))
  {
    var original := Node([Item(x, Leaf(leaf))]);
    var upd := Node([Item(x, Node([Item(y, v)]))]);
    assert MergePrefix(Leaf(leaf), Node([Item(y, v)]), 0) == (Leaf(leaf), None);
    assert Merge(Leaf(leaf), Node([Item(y, v)])) == (Leaf(leaf), Some(AttributeError));
    assert MergePrefix(original, upd, 0) == (original, None);
    assert Lookup(original.items, x) == Some(Leaf(leaf));
    assert MergeEntry(original.items, upd, 0) == (Node(Assign(original.items, x, Leaf(leaf))), Some(AttributeError));
    assert Assign(original.items, x, Leaf(leaf)) == original.items;
    assert MergePrefix(original, upd, 1) == MergeEntry(original.items, upd, 0);
  }
}
