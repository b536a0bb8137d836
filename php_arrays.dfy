/**
  PHP's ordered arrays, as far as the library relies on them: an ordered
  sequence of key/value entries with distinct keys, element assignment
  (`$a[k] = v`), appending (`$a[] = v`) and `array_merge`.
 */
module PhpArrays {
  import opened Results

  /** A PHP array key: a string or an integer. */
  datatype Key = Name(name: string) | Index(index: int)

  /** The PHP values the library puts into request parameters. */
  datatype Value = Null | Bool(b: bool) | Int(i: int) | Str(s: string) | Arr(entries: seq<Entry>)

  type Entry = (Key, Value)

  /** The keys of an array, in order. */
  function KeysOf(a: seq<Entry>): (ks: seq<Key>)
    ensures |ks| == |a|
    ensures forall i :: 0 <= i < |a| ==> ks[i] == a[i].0
  {
    seq(|a|, i requires 0 <= i < |a| => a[i].0)
  }

  predicate DistinctKeys(a: seq<Entry>) {
    forall i, j :: 0 <= i < j < |a| ==> a[i].0 != a[j].0
  }

  /** A PHP array never holds the same key twice. */
  type PhpArray = a: seq<Entry> | DistinctKeys(a) witness []

  /** `$a[k]`, or None when `k` is not a key of `a` (`array_key_exists` is false). */
  function Lookup(a: seq<Entry>, k: Key): (r: Option<Value>)
    ensures r.None? <==> k !in KeysOf(a)
  {
    if |a| == 0 then None
    else if a[0].0 == k then Some(a[0].1)
    else
      assert KeysOf(a) == [a[0].0] + KeysOf(a[1..]);
      Lookup(a[1..], k)
  }

  /** In an array with distinct keys, looking up the key of an entry finds that entry's value. */
  lemma {:induction false} LookupAt(a: PhpArray, i: nat)
    requires i < |a|
    ensures Lookup(a, a[i].0) == Some(a[i].1)
  {
    if i > 0 {
      assert a[1..][i - 1] == a[i];
      LookupAt(a[1..], i - 1);
    }
  }

  /** The value found by a lookup belongs to an entry of the array with that key. */
  lemma {:induction false} LookupFound(a: seq<Entry>, k: Key)
    requires Lookup(a, k).Some?
    ensures (k, Lookup(a, k).value) in a
  {
    if a[0].0 != k {
      LookupFound(a[1..], k);
    }
  }

  function Max(x: int, y: int): int { if x < y then y else x }

  /** The key PHP gives to `$a[] = v`: one more than the largest integer key, and at least 0. */
  function NextIndex(a: seq<Entry>): (n: int)
    ensures n >= 0
    ensures forall i :: 0 <= i < |a| && a[i].0.Index? ==> a[i].0.index < n
  {
    if |a| == 0 then 0
    else
      var rest := NextIndex(a[1..]);
      assert forall i :: 1 <= i < |a| ==> a[i] == a[1..][i - 1];
      if a[0].0.Index? then Max(rest, a[0].0.index + 1) else rest
  }

  /** `$a[k] = v`: replaces the value of an existing key in place, or appends a new entry. */
  function Set(a: PhpArray, k: Key, v: Value): (r: PhpArray)
    ensures KeysOf(r) == if k in KeysOf(a) then KeysOf(a) else KeysOf(a) + [k]
    ensures Lookup(r, k) == Some(v)
    ensures forall k' :: k' != k ==> Lookup(r, k') == Lookup(a, k')
  {
    if k in KeysOf(a) then
      var r := seq(|a|, i requires 0 <= i < |a| => if a[i].0 == k then (k, v) else a[i]);
      assert KeysOf(r) == KeysOf(a);
      ReplaceLookup(a, r, k, v);
      r
    else
      var r := a + [(k, v)];
      assert KeysOf(r) == KeysOf(a) + [k];
      AppendLookup(a, k, v);
      r
  }

  lemma {:induction false} ReplaceLookup(a: seq<Entry>, r: seq<Entry>, k: Key, v: Value)
    requires |r| == |a| && k in KeysOf(a)
    requires forall i :: 0 <= i < |a| ==> r[i] == if a[i].0 == k then (k, v) else a[i]
    ensures Lookup(r, k) == Some(v)
    ensures forall k' :: k' != k ==> Lookup(r, k') == Lookup(a, k')
  {
    ReplacedFound(a, r, k, v);
    forall k' | k' != k ensures Lookup(r, k') == Lookup(a, k') {
      RestLookup(a, r, k, v, k');
    }
  }

  lemma {:induction false} ReplacedFound(a: seq<Entry>, r: seq<Entry>, k: Key, v: Value)
    requires |r| == |a| && k in KeysOf(a)
    requires forall i :: 0 <= i < |a| ==> r[i] == if a[i].0 == k then (k, v) else a[i]
    ensures Lookup(r, k) == Some(v)
  {
    if a[0].0 != k {
      assert r[0] == a[0];
      assert k in KeysOf(a[1..]) by {
        assert KeysOf(a) == [a[0].0] + KeysOf(a[1..]);
      }
      forall i | 0 <= i < |a| - 1
        ensures r[1..][i] == if a[1..][i].0 == k then (k, v) else a[1..][i]
      {
        assert r[1..][i] == r[i + 1] && a[1..][i] == a[i + 1];
      }
      ReplacedFound(a[1..], r[1..], k, v);
    }
  }

  lemma {:induction false} RestLookup(a: seq<Entry>, r: seq<Entry>, k: Key, v: Value, k': Key)
    requires |r| == |a| && k' != k
    requires forall i :: 0 <= i < |a| ==> r[i] == if a[i].0 == k then (k, v) else a[i]
    ensures Lookup(r, k') == Lookup(a, k')
  {
    if |a| > 0 {
      RestLookup(a[1..], r[1..], k, v, k');
    }
  }

  lemma {:induction false} AppendLookup(a: seq<Entry>, k: Key, v: Value)
    requires k !in KeysOf(a)
    ensures Lookup(a + [(k, v)], k) == Some(v)
    ensures forall k' :: k' != k ==> Lookup(a + [(k, v)], k') == Lookup(a, k')
  {
    if |a| > 0 {
      assert (a + [(k, v)])[1..] == a[1..] + [(k, v)];
      assert KeysOf(a) == [a[0].0] + KeysOf(a[1..]);
      AppendLookup(a[1..], k, v);
    }
  }

  /** Assigning the same key twice keeps only the second value. */
  lemma SetTwice(a: PhpArray, k: Key, v: Value, w: Value)
    ensures Set(Set(a, k, v), k, w) == Set(a, k, w)
  {
    var b := Set(a, k, v);
    if k in KeysOf(a) {
      assert |Set(b, k, w)| == |a|;
      forall i | 0 <= i < |a| ensures Set(b, k, w)[i] == Set(a, k, w)[i] {
        assert KeysOf(b)[i] == KeysOf(a)[i];
      }
    } else {
      assert b == a + [(k, v)];
      assert Set(b, k, w) == a + [(k, w)];
    }
  }

  /** `$a[] = v`: appends `v` under the next free integer key. */
  function Push(a: PhpArray, v: Value): (r: PhpArray)
    ensures KeysOf(r) == KeysOf(a) + [Index(NextIndex(a))]
    ensures r[..|a|] == a && r[|a|] == (Index(NextIndex(a)), v)
  {
    var r := a + [(Index(NextIndex(a)), v)];
    assert KeysOf(r) == KeysOf(a) + [Index(NextIndex(a))];
    r
  }

  /** One step of `array_merge`: a string key overwrites, an integer key is renumbered and appended. */
  function Insert(acc: PhpArray, e: Entry): (r: PhpArray)
    ensures e.0.Name? ==> Lookup(r, e.0) == Some(e.1)
    ensures e.0.Index? ==> r == acc + [(Index(NextIndex(acc)), e.1)]
    ensures forall n :: Name(n) != e.0 ==> Lookup(r, Name(n)) == Lookup(acc, Name(n))
    ensures KeysOf(acc) <= KeysOf(r)
  {
    if e.0.Name? then
      Set(acc, e.0, e.1)
    else
      var r := Push(acc, e.1);
      forall n ensures Lookup(r, Name(n)) == Lookup(acc, Name(n)) {
        PushKeepsNames(acc, e.1, n);
      }
      r
  }

  /** Inserts the entries of `xs` into `acc` one after another, as `array_merge` does. */
  function Fold(acc: PhpArray, xs: seq<Entry>): (r: PhpArray)
    ensures KeysOf(acc) <= KeysOf(r) && |r| <= |acc| + |xs|
    decreases |xs|
  {
    if |xs| == 0 then acc else Fold(Insert(acc, xs[0]), xs[1..])
  }

  /** `array_merge($a, $b)`: for a string key, the value in `b` if it has one, otherwise the one in `a`. */
  function ArrayMerge(a: PhpArray, b: PhpArray): (r: PhpArray)
    ensures forall n :: Lookup(r, Name(n)) ==
              if Name(n) in KeysOf(b) then Lookup(b, Name(n)) else Lookup(a, Name(n))
  {
    MergeNames(a, b);
    Fold(Fold([], a), b)
  }

  lemma MergeNames(a: PhpArray, b: PhpArray)
    ensures forall n :: Lookup(Fold(Fold([], a), b), Name(n)) ==
              if Name(n) in KeysOf(b) then Lookup(b, Name(n)) else Lookup(a, Name(n))
  {
    forall n ensures Lookup(Fold(Fold([], a), b), Name(n)) ==
                     if Name(n) in KeysOf(b) then Lookup(b, Name(n)) else Lookup(a, Name(n))
    {
      FoldLookupName(Fold([], a), b, n);
      FoldLookupName([], a, n);
    }
  }

  /** `array_merge($a, $b, $c)`: for a string key, the value of the last of the three arrays that has it. */
  function ArrayMerge3(a: PhpArray, b: PhpArray, c: PhpArray): (r: PhpArray)
    ensures forall n :: Lookup(r, Name(n)) ==
              if Name(n) in KeysOf(c) then Lookup(c, Name(n))
              else if Name(n) in KeysOf(b) then Lookup(b, Name(n))
              else Lookup(a, Name(n))
  {
    MergeNames(a, b);
    forall n ensures Lookup(Fold(Fold(Fold([], a), b), c), Name(n)) ==
                     if Name(n) in KeysOf(c) then Lookup(c, Name(n))
                     else Lookup(Fold(Fold([], a), b), Name(n)) {
      FoldLookupName(Fold(Fold([], a), b), c, n);
    }
    Fold(Fold(Fold([], a), b), c)
  }

  /**
    After merging `xs` into `acc`, a string key of `xs` has the value `xs` gives it
    (later arrays win), and any other string key keeps its value from `acc`.
   */
  lemma {:induction false} FoldLookupName(acc: PhpArray, xs: PhpArray, n: string)
    ensures Lookup(Fold(acc, xs), Name(n)) ==
            if Name(n) in KeysOf(xs) then Lookup(xs, Name(n)) else Lookup(acc, Name(n))
    decreases |xs|
  {
    if |xs| > 0 {
      var xs' := xs[1..];
      assert KeysOf(xs) == [xs[0].0] + KeysOf(xs');
      FoldLookupName(Insert(acc, xs[0]), xs', n);
      if xs[0].0 == Name(n) {
        HeadNotInTail(xs);
      } else if xs[0].0.Index? {
        PushKeepsNames(acc, xs[0].1, n);
      }
    }
  }

  /** The first key of an array does not come back later in it. */
  lemma HeadNotInTail(xs: PhpArray)
    requires |xs| > 0
    ensures xs[0].0 !in KeysOf(xs[1..])
  {
    forall i | 0 <= i < |xs| - 1 ensures KeysOf(xs[1..])[i] != xs[0].0 {
      assert xs[1..][i] == xs[i + 1];
    }
  }

  /** Merging string keys that are all new appends them in order. */
  lemma {:induction false} FoldFreshNames(acc: PhpArray, xs: PhpArray)
    requires forall i :: 0 <= i < |xs| ==> xs[i].0.Name? && xs[i].0 !in KeysOf(acc)
    ensures Fold(acc, xs) == acc + xs
    decreases |xs|
  {
    if |xs| > 0 {
      var acc' := Insert(acc, xs[0]);
      InsertNewName(acc, xs[0]);
      FreshNamesTail(acc, xs);
      FoldFreshNames(acc', xs[1..]);
      ConsAppend(acc, xs);
    }
  }

  lemma InsertNewName(a: PhpArray, e: Entry)
    requires e.0.Name? && e.0 !in KeysOf(a)
    ensures Insert(a, e) == a + [e]
  {}

  lemma ConsAppend<T>(a: seq<T>, xs: seq<T>)
    requires |xs| > 0
    ensures a + [xs[0]] + xs[1..] == a + xs
  {
    assert xs == [xs[0]] + xs[1..];
  }

  lemma FreshNamesTail(acc: PhpArray, xs: PhpArray)
    requires |xs| > 0
    requires forall i :: 0 <= i < |xs| ==> xs[i].0.Name? && xs[i].0 !in KeysOf(acc)
    ensures forall i :: 0 <= i < |xs| - 1 ==> xs[1..][i].0.Name? && xs[1..][i].0 !in KeysOf(acc + [xs[0]])
  {
    assert KeysOf(acc + [xs[0]]) == KeysOf(acc) + [xs[0].0];
    forall i | 0 <= i < |xs| - 1
      ensures xs[1..][i].0.Name? && xs[1..][i].0 !in KeysOf(acc + [xs[0]])
    {
      assert xs[1..][i] == xs[i + 1];
      assert xs[i + 1].0 != xs[0].0;
    }
  }

  /** `array_merge` of arrays with disjoint string keys is their concatenation. */
  lemma ArrayMergeDisjointNames(a: PhpArray, b: PhpArray)
    requires forall i :: 0 <= i < |a| ==> a[i].0.Name?
    requires forall i :: 0 <= i < |b| ==> b[i].0.Name? && b[i].0 !in KeysOf(a)
    ensures DistinctKeys(a + b) && ArrayMerge(a, b) == a + b
  {
    FoldFreshNames([], a);
    assert [] + a == a;
    FoldFreshNames(a, b);
  }

  lemma PushKeepsNames(a: PhpArray, v: Value, n: string)
    ensures Lookup(Push(a, v), Name(n)) == Lookup(a, Name(n))
  {
    AppendLookup(a, Index(NextIndex(a)), v);
  }
}
