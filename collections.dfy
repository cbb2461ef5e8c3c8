/**
 * The stream collectors the source relies on: StreamEx `distinct`, StreamEx
 * `toMap` (which throws IllegalStateException on a duplicate key) and
 * `Collectors.toMap` with a keep-the-first merge function.
 */
module Collections {
  import opened Wrappers

  predicate NoDuplicates<T(==)>(xs: seq<T>) {
    forall i, j :: 0 <= i < j < |xs| ==> xs[i] != xs[j]
  }

  /** Index of the first occurrence of `x` in `xs`. */
  function FirstIndex<T(==)>(xs: seq<T>, x: T): (k: nat)
    requires x in xs
    ensures k < |xs| && xs[k] == x && x !in xs[..k]
  {
    if xs[0] == x then 0 else 1 + FirstIndex(xs[1..], x)
  }

  /** `distinct()`: each element once, in the order of its first occurrence. */
  function Distinct<T(==,!new)>(xs: seq<T>): (r: seq<T>)
    ensures NoDuplicates(r)
    ensures forall x :: x in r <==> x in xs
    ensures |r| <= |xs|
  {
    if xs == [] then []
    else
      var d := Distinct(xs[..|xs| - 1]);
      var last := xs[|xs| - 1];
      assert forall x :: x in xs <==> x in xs[..|xs| - 1] || x == last;
      if last in d then d else d + [last]
  }

  /** An index holding `x` with no earlier `x` is the first index of `x`. */
  lemma {:induction false} FirstIndexUnique<T>(xs: seq<T>, x: T, k: nat)
    requires k < |xs| && xs[k] == x && x !in xs[..k]
    ensures FirstIndex(xs, x) == k
  {
    if k > 0 {
      assert xs[0] in xs[..k];
      assert xs[1..][k - 1] == x;
      assert xs[1..][..k - 1] == xs[1..k];
      assert forall y :: y in xs[1..k] ==> y in xs[..k];
      FirstIndexUnique(xs[1..], x, k - 1);
    }
  }

  lemma FirstIndexInPrefix<T>(xs: seq<T>, n: nat, x: T)
    requires n <= |xs| && x in xs[..n]
    ensures FirstIndex(xs, x) == FirstIndex(xs[..n], x)
  {
    var k := FirstIndex(xs[..n], x);
    assert xs[..n][..k] == xs[..k];
    FirstIndexUnique(xs, x, k);
  }

  /** The elements `Distinct` keeps appear in the order of their first occurrence in the input. */
  lemma {:induction false} DistinctKeepsFirstOccurrenceOrder<T(!new)>(xs: seq<T>)
    ensures forall i, j :: 0 <= i < j < |Distinct(xs)| ==>
      FirstIndex(xs, Distinct(xs)[i]) < FirstIndex(xs, Distinct(xs)[j])
  {
    if xs != [] {
      var n := |xs| - 1;
      var prefix := xs[..n];
      var d := Distinct(prefix);
      var last := xs[n];
      DistinctKeepsFirstOccurrenceOrder(prefix);
      forall y | y in d ensures FirstIndex(xs, y) == FirstIndex(prefix, y) < n {
        FirstIndexInPrefix(xs, n, y);
      }
      if last !in d {
        assert last !in prefix;
        FirstIndexUnique(xs, last, n);
        assert Distinct(xs) == d + [last];
      }
    }
  }

  predicate KeysDistinct<X, K(==)>(xs: seq<X>, key: X -> K) {
    forall i, j :: 0 <= i < j < |xs| ==> key(xs[i]) != key(xs[j])
  }

  /** The keys of the elements. */
  function KeysOf<X, K(==)>(xs: seq<X>, key: X -> K): set<K> {
    set i | 0 <= i < |xs| :: key(xs[i])
  }

  /** Appending an element adds its key to the keys. */
  lemma KeysOfAppend<X, K>(init: seq<X>, last: X, key: X -> K)
    ensures KeysOf(init + [last], key) == KeysOf(init, key) + {key(last)}
  {
    var xs := init + [last];
    forall k | k in KeysOf(init, key) ensures k in KeysOf(xs, key) {
      var i :| 0 <= i < |init| && key(init[i]) == k;
      assert key(xs[i]) == k;
    }
    assert key(xs[|init|]) == key(last);
  }

  /**
   * StreamEx `toMap(key, value)`: a map from each element's key to its value;
   * a key that occurs twice throws IllegalStateException, modelled as `None`.
   */
  function ToMap<X, K(==), V>(xs: seq<X>, key: X -> K, value: X -> V): (r: Option<map<K, V>>)
    ensures r.Some? <==> KeysDistinct(xs, key)
    ensures r.Some? ==> r.value.Keys == KeysOf(xs, key)
    ensures r.Some? ==> forall i :: 0 <= i < |xs| ==> r.value[key(xs[i])] == value(xs[i])
  {
    if xs == [] then Some(map[])
    else
      var n := |xs| - 1;
      assert xs == xs[..n] + [xs[n]];
      match ToMap(xs[..n], key, value)
      case None =>
        KeysDistinctInit(xs[..n], xs[n], key);
        None
      case Some(m) =>
        if key(xs[n]) in m then
          RepeatedLastKey(xs[..n], xs[n], key);
          None
        else
          ToMapStep(xs[..n], xs[n], key, value, m);
          Some(m[key(xs[n]) := value(xs[n])])
  }

  /** Keys that repeat among the others still repeat once an element is appended. */
  lemma KeysDistinctInit<X, K>(init: seq<X>, last: X, key: X -> K)
    ensures KeysDistinct(init + [last], key) ==> KeysDistinct(init, key)
  {
    var xs := init + [last];
    if KeysDistinct(xs, key) {
      forall i, j | 0 <= i < j < |init| ensures key(init[i]) != key(init[j]) {
        assert xs[i] == init[i] && xs[j] == init[j];
      }
    }
  }

  /** An appended element whose key is already present repeats a key. */
  lemma RepeatedLastKey<X, K>(init: seq<X>, last: X, key: X -> K)
    requires key(last) in KeysOf(init, key)
    ensures !KeysDistinct(init + [last], key)
  {
    var xs := init + [last];
    var i :| 0 <= i < |init| && key(init[i]) == key(last);
    assert xs[i] == init[i] && xs[|init|] == last;
  }

  /** Adding an element with a new key to the map of the others gives the map of all. */
  lemma ToMapStep<X, K, V>(init: seq<X>, last: X, key: X -> K, value: X -> V, m: map<K, V>)
    requires KeysDistinct(init, key)
    requires m.Keys == KeysOf(init, key) && key(last) !in m
    requires forall i :: 0 <= i < |init| ==> m[key(init[i])] == value(init[i])
    ensures KeysDistinct(init + [last], key)
    ensures m[key(last) := value(last)].Keys == KeysOf(init + [last], key)
    ensures forall i :: 0 <= i < |init| + 1 ==> m[key(last) := value(last)][key((init + [last])[i])] == value((init + [last])[i])
  {
    var xs := init + [last];
    KeysOfAppend(init, last, key);
    forall i | 0 <= i < |init| ensures xs[i] == init[i] && key(init[i]) != key(last) {
      assert key(init[i]) in KeysOf(init, key);
    }
  }

  /**
   * `Collectors.toMap(key, value, (first, second) -> first)`: duplicate keys
   * keep the value of their first occurrence.
   */
  function ToMapKeepFirst<X, K(==), V>(xs: seq<X>, key: X -> K, value: X -> V): (r: map<K, V>)
    ensures r.Keys == KeysOf(xs, key)
    ensures forall i :: 0 <= i < |xs| && FirstWithKey(xs, key, i) ==> r[key(xs[i])] == value(xs[i])
  {
    if xs == [] then map[]
    else
      var n := |xs| - 1;
      assert xs == xs[..n] + [xs[n]];
      var m := ToMapKeepFirst(xs[..n], key, value);
      KeysOfAppend(xs[..n], xs[n], key);
      ToMapKeepFirstStep(xs[..n], xs[n], key, value, m);
      if key(xs[n]) in m then m else m[key(xs[n]) := value(xs[n])]
  }

  /** Merging an element into the map of the others keeps an existing key's value. */
  lemma ToMapKeepFirstStep<X, K, V>(init: seq<X>, last: X, key: X -> K, value: X -> V, m: map<K, V>)
    requires m.Keys == KeysOf(init, key)
    requires forall i :: 0 <= i < |init| && FirstWithKey(init, key, i) ==> m[key(init[i])] == value(init[i])
    ensures var r := if key(last) in m then m else m[key(last) := value(last)];
      forall i :: 0 <= i < |init| + 1 && FirstWithKey(init + [last], key, i) ==> r[key((init + [last])[i])] == value((init + [last])[i])
  {
    var xs := init + [last];
    var r := if key(last) in m then m else m[key(last) := value(last)];
    forall i | 0 <= i < |xs| && FirstWithKey(xs, key, i) ensures r[key(xs[i])] == value(xs[i]) {
      if i < |init| {
        FirstWithKeyInit(init, last, key, i);
        assert key(init[i]) in KeysOf(init, key);
      } else {
        FirstWithKeyLast(init, last, key);
      }
    }
  }

  /** An element first with its key stays first once another element is appended. */
  lemma FirstWithKeyInit<X, K>(init: seq<X>, last: X, key: X -> K, i: nat)
    requires i < |init| && FirstWithKey(init + [last], key, i)
    ensures (init + [last])[i] == init[i] && FirstWithKey(init, key, i)
  {
    var xs := init + [last];
    forall j | 0 <= j < i ensures key(init[j]) != key(init[i]) {
      assert xs[j] == init[j] && xs[i] == init[i];
    }
  }

  /** An appended element is first with its key only when no earlier element has that key. */
  lemma FirstWithKeyLast<X, K>(init: seq<X>, last: X, key: X -> K)
    requires FirstWithKey(init + [last], key, |init|)
    ensures (init + [last])[|init|] == last && key(last) !in KeysOf(init, key)
  {
    var xs := init + [last];
    forall j | 0 <= j < |init| ensures key(init[j]) != key(last) {
      assert xs[j] == init[j];
    }
  }

  /** No element before index `i` has the key of element `i`. */
  predicate FirstWithKey<X, K(==)>(xs: seq<X>, key: X -> K, i: nat)
    requires i < |xs|
  {
    forall j :: 0 <= j < i ==> key(xs[j]) != key(xs[i])
  }
}
