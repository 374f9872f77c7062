/** Plain objects used as dictionaries by the report loops, kept as lists of
    (key, value) pairs in insertion order. Each report loop has the same shape:
    for every element, create the entry for its key with a starting value if it
    is missing, then add the element's contribution to it. */
module Dict {
  import opened Seqs

  /** Index of the entry for key `k`, or -1: the `record[k]` lookup. */
  function KeyIndex<K(==), V>(acc: seq<(K, V)>, k: K): (r: int)
    ensures -1 <= r < |acc|
    ensures 0 <= r ==> acc[r].0 == k
    ensures r == -1 <==> forall t :: 0 <= t < |acc| ==> acc[t].0 != k
  {
    if acc == [] then -1
    else if acc[0].0 == k then 0
    else
      var r := KeyIndex(acc[1..], k);
      assert forall t :: 0 < t < |acc| ==> acc[t] == acc[1..][t - 1];
      if r == -1 then -1 else r + 1
  }

  /** No key occurs twice: the dictionary invariant. */
  ghost predicate DistinctKeys<K, V>(acc: seq<(K, V)>)
  {
    forall i, j :: 0 <= i < j < |acc| ==> acc[i].0 != acc[j].0
  }

  /** In a dictionary, the lookup of a stored key finds that entry. */
  lemma KeyIndexDistinct<K, V>(acc: seq<(K, V)>, t: nat)
    requires DistinctKeys(acc) && t < |acc|
    ensures KeyIndex(acc, acc[t].0) == t
  {
    var r := KeyIndex(acc, acc[t].0);
    assert r != -1;
  }

  /** The value stored under `k`, or `zero` when there is none. */
  function Get<K(==), V>(acc: seq<(K, V)>, k: K, zero: V): V
  {
    var i := KeyIndex(acc, k);
    if i == -1 then zero else acc[i].1
  }

  /** One step of a report loop: `if (!acc[k]) acc[k] = zero; acc[k] = plus(acc[k], v)`.
      A new key goes to the end, so keys stay in order of first occurrence. */
  function AddTo<K(==), V>(acc: seq<(K, V)>, k: K, v: V, zero: V, plus: (V, V) -> V): (r: seq<(K, V)>)
    ensures KeyIndex(acc, k) == -1 ==> |r| == |acc| + 1 && r[..|acc|] == acc
    ensures KeyIndex(acc, k) != -1 ==> |r| == |acc|
  {
    var i := KeyIndex(acc, k);
    if i == -1 then acc + [(k, plus(zero, v))] else acc[i := (k, plus(acc[i].1, v))]
  }

  /** What one step does: the key is present afterwards, keys stay distinct, and only the
      value under `k` changes, by `plus` with the contribution. */
  lemma AddToEffect<K, V>(acc: seq<(K, V)>, k: K, v: V, zero: V, plus: (V, V) -> V, x: K)
    requires DistinctKeys(acc)
    ensures DistinctKeys(AddTo(acc, k, v, zero, plus))
    ensures KeyIndex(AddTo(acc, k, v, zero, plus), x) != -1 <==> KeyIndex(acc, x) != -1 || x == k
    ensures Get(AddTo(acc, k, v, zero, plus), x, zero) ==
      if x == k then plus(Get(acc, k, zero), v) else Get(acc, x, zero)
  {
    var r := AddTo(acc, k, v, zero, plus);
    var i := KeyIndex(acc, k);
    if i == -1 {
      assert r[|acc|].0 == k;
      assert DistinctKeys(r);
      KeyIndexDistinct(r, |acc|);
      var j := KeyIndex(acc, x);
      if j != -1 {
        KeyIndexDistinct(acc, j);
        KeyIndexDistinct(r, j);
      }
    } else {
      assert DistinctKeys(r);
      KeyIndexDistinct(r, i);
      var j := KeyIndex(acc, x);
      if j != -1 {
        KeyIndexDistinct(acc, j);
        KeyIndexDistinct(r, j);
      }
    }
  }

  /** The dictionary a report loop builds from `s`. */
  function Tally<T, K(==), V>(s: seq<T>, key: T -> K, amount: T -> V, zero: V, plus: (V, V) -> V): seq<(K, V)>
  {
    if s == [] then []
    else
      var last := s[|s| - 1];
      AddTo(Tally(s[..|s| - 1], key, amount, zero, plus), key(last), amount(last), zero, plus)
  }

  /** The contributions of the elements with key `x`, combined in order from `zero`. */
  function SumWhere<T, K(==), V>(s: seq<T>, key: T -> K, x: K, amount: T -> V, zero: V, plus: (V, V) -> V): V
  {
    if s == [] then zero
    else
      var last := s[|s| - 1];
      var before := SumWhere(s[..|s| - 1], key, x, amount, zero, plus);
      if key(last) == x then plus(before, amount(last)) else before
  }

  ghost predicate Occurs<T, K>(s: seq<T>, key: T -> K, x: K)
  {
    exists i :: 0 <= i < |s| && key(s[i]) == x
  }

  /** The built dictionary has one entry per key occurring in `s`, and the entry for a
      key holds the combined contributions of exactly the elements with that key. */
  lemma {:induction false} TallyCorrect<T, K, V>(s: seq<T>, key: T -> K, amount: T -> V, zero: V, plus: (V, V) -> V, x: K)
    ensures DistinctKeys(Tally(s, key, amount, zero, plus))
    ensures KeyIndex(Tally(s, key, amount, zero, plus), x) != -1 <==> Occurs(s, key, x)
    ensures Get(Tally(s, key, amount, zero, plus), x, zero) == SumWhere(s, key, x, amount, zero, plus)
  {
    if s != [] {
      var n := |s| - 1;
      var prefix := s[..n];
      TallyCorrect(prefix, key, amount, zero, plus, x);
      TallyCorrect(prefix, key, amount, zero, plus, key(s[n]));
      AddToEffect(Tally(prefix, key, amount, zero, plus), key(s[n]), amount(s[n]), zero, plus, x);
      if Occurs(prefix, key, x) {
        var i :| 0 <= i < n && key(prefix[i]) == x;
        assert key(s[i]) == x;
      }
      if Occurs(s, key, x) && key(s[n]) != x {
        var i :| 0 <= i < |s| && key(s[i]) == x;
        assert key(prefix[i]) == x;
      }
    }
  }

  function Add(a: int, b: int): int { a + b }

  function EntryValue<K>(e: (K, int)): int { e.1 }

  /** A step adds its contribution to the sum of the stored values. */
  lemma AddToSum<K>(acc: seq<(K, int)>, k: K, v: int)
    ensures Sum(AddTo(acc, k, v, 0, Add), EntryValue) == Sum(acc, EntryValue) + v
  {
    var i := KeyIndex(acc, k);
    if i == -1 {
      SumAppend(acc, (k, v), EntryValue);
    } else {
      SumUpdate(acc, i, (k, acc[i].1 + v), EntryValue);
    }
  }

  /** The values of a summing dictionary add up to the sum over all elements: no
      contribution is lost or counted twice. */
  lemma {:induction false} TallySum<T, K>(s: seq<T>, key: T -> K, amount: T -> int)
    ensures Sum(Tally(s, key, amount, 0, Add), EntryValue) == Sum(s, amount)
  {
    if s != [] {
      var n := |s| - 1;
      TallySum(s[..n], key, amount);
      AddToSum(Tally(s[..n], key, amount, 0, Add), key(s[n]), amount(s[n]));
      assert s == s[..n] + [s[n]];
      SumAppend(s[..n], s[n], amount);
    }
  }

  /** Building from one more element is one more loop step. */
  lemma TallySnoc<T, K, V>(s: seq<T>, x: T, key: T -> K, amount: T -> V, zero: V, plus: (V, V) -> V)
    ensures Tally(s + [x], key, amount, zero, plus) == AddTo(Tally(s, key, amount, zero, plus), key(x), amount(x), zero, plus)
  {
    assert (s + [x])[..|s|] == s;
  }

  function KeyIs<T, K(==)>(key: T -> K, x: K): T -> bool { t => key(t) == x }

  /** For a summing dictionary, the contributions under `x` are the sum over the elements
      that `filter` keeps for key `x`. */
  lemma {:induction false} SumWhereFilter<T, K>(s: seq<T>, key: T -> K, x: K, amount: T -> int)
    ensures SumWhere(s, key, x, amount, 0, Add) == Sum(Filter(s, KeyIs(key, x)), amount)
  {
    if s != [] {
      var n := |s| - 1;
      SumWhereFilter(s[..n], key, x, amount);
      assert s == s[..n] + [s[n]];
      FilterConcat(s[..n], [s[n]], KeyIs(key, x));
      assert Filter([s[n]], KeyIs(key, x)) == if key(s[n]) == x then [s[n]] else [] by {
        assert [s[n]][1..] == [];
      }
      if key(s[n]) == x {
        SumAppend(Filter(s[..n], KeyIs(key, x)), s[n], amount);
      } else {
        assert Filter(s[..n], KeyIs(key, x)) + [] == Filter(s[..n], KeyIs(key, x));
      }
    }
  }
}
