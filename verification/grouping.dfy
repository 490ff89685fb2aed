/** Grouping a list by a string key into a JavaScript object, and the order in
    which `Object.values` / `Object.entries` then return the groups: keys that
    are array indices (canonical decimal numbers below 2^32 - 1) first, in
    ascending numeric order, then every other key in insertion order. */
module Grouping {
  import opened Common

  predicate IsDigit(c: char) { '0' <= c <= '9' }

  /** Decimal value of a digit string, read left to right. */
  function DigitsValue(s: string): nat
  {
    if s == [] then 0
    else DigitsValue(s[..|s| - 1]) * 10 + (if IsDigit(s[|s| - 1]) then s[|s| - 1] as int - '0' as int else 0)
  }

  function DigitChar(d: nat): char
    requires d < 10
  {
    ('0' as int + d) as char
  }

  /** The decimal numeral of `n` (`String(n)`), without leading zeros. */
  function Decimal(n: nat): (r: string)
    ensures |r| > 0 && (forall i :: 0 <= i < |r| ==> IsDigit(r[i]))
    ensures r[0] == '0' ==> n == 0
    ensures DigitsValue(r) == n
  {
    if n < 10 then [DigitChar(n)]
    else
      var r := Decimal(n / 10) + [DigitChar(n % 10)];
      assert r[..|r| - 1] == Decimal(n / 10);
      r
  }

  /** A property key that JavaScript treats as an array index. */
  predicate IsArrayIndex(k: string) {
    |k| > 0 && (forall i :: 0 <= i < |k| ==> IsDigit(k[i]))
    && (k[0] == '0' ==> |k| == 1)
    && DigitsValue(k) < 0xFFFF_FFFF
  }

  predicate NotArrayIndex(k: string) { !IsArrayIndex(k) }

  predicate Ascending(s: seq<string>) {
    forall i, j :: 0 <= i < j < |s| ==> DigitsValue(s[i]) <= DigitsValue(s[j])
  }

  function InsertKey(k: string, s: seq<string>): (r: seq<string>)
    requires Ascending(s)
    ensures Ascending(r) && multiset(r) == multiset(s) + multiset{k}
  {
    if s == [] then [k]
    else if DigitsValue(k) <= DigitsValue(s[0]) then [k] + s
    else
      var t := InsertKey(k, s[1..]);
      InsertKeyBehind(k, s, t);
      [s[0]] + t
  }

  /** Putting the head of `s` in front of the key inserted into its tail keeps
      the order and the elements. */
  lemma {:induction false} InsertKeyBehind(k: string, s: seq<string>, t: seq<string>)
    requires Ascending(s) && s != [] && DigitsValue(s[0]) < DigitsValue(k)
    requires Ascending(t) && multiset(t) == multiset(s[1..]) + multiset{k}
    ensures Ascending([s[0]] + t) && multiset([s[0]] + t) == multiset(s) + multiset{k}
  {
    assert s == [s[0]] + s[1..];
    forall j | 0 <= j < |t| ensures DigitsValue(s[0]) <= DigitsValue(t[j]) {
      assert t[j] in multiset(t);
      if t[j] != k {
        assert t[j] in multiset(s[1..]);
        var m :| 0 <= m < |s[1..]| && s[1..][m] == t[j];
        assert s[m + 1] == t[j];
      }
    }
    var r := [s[0]] + t;
    forall a, b | 0 <= a < b < |r| ensures DigitsValue(r[a]) <= DigitsValue(r[b]) {
      if a > 0 { assert r[a] == t[a - 1] && r[b] == t[b - 1]; } else { assert r[b] == t[b - 1]; }
    }
  }

  function SortByIndex(ks: seq<string>): (r: seq<string>)
    ensures Ascending(r) && multiset(r) == multiset(ks)
  {
    if ks == [] then []
    else
      assert ks == [ks[0]] + ks[1..];
      InsertKey(ks[0], SortByIndex(ks[1..]))
  }

  /** The key order of a plain object whose keys were created in the order `insertion`. */
  function OwnKeysOrder(insertion: seq<string>): seq<string>
  {
    SortByIndex(Filter(insertion, IsArrayIndex)) + Filter(insertion, NotArrayIndex)
  }

  /** The object's key order holds each created key exactly as often as it was created,
      array-index keys come first in ascending value, and the other keys follow in
      creation order. */
  lemma {:induction false} OwnKeysOrderShape(insertion: seq<string>)
    ensures multiset(OwnKeysOrder(insertion)) == multiset(insertion)
    ensures var n := |Filter(insertion, IsArrayIndex)|;
      n <= |OwnKeysOrder(insertion)|
      && Ascending(OwnKeysOrder(insertion)[..n])
      && (forall i :: 0 <= i < n ==> IsArrayIndex(OwnKeysOrder(insertion)[i]))
      && OwnKeysOrder(insertion)[n..] == Filter(insertion, NotArrayIndex)
  {
    var a := Filter(insertion, IsArrayIndex);
    var b := Filter(insertion, NotArrayIndex);
    var r := OwnKeysOrder(insertion);
    forall x ensures multiset(r)[x] == multiset(insertion)[x] {
      FilterMultiset(insertion, IsArrayIndex, x);
      FilterMultiset(insertion, NotArrayIndex, x);
    }
    assert r[..|a|] == SortByIndex(a);
    FilterMembers(insertion, IsArrayIndex);
    forall i | 0 <= i < |a| ensures IsArrayIndex(r[i]) {
      assert r[i] in multiset(SortByIndex(a));
      assert r[i] in a;
    }
    assert r[|a|..] == b;
  }

  /** The object's keys are the created keys. */
  lemma {:induction false} OwnKeysOrderMembers(insertion: seq<string>)
    ensures forall x :: x in OwnKeysOrder(insertion) <==> x in insertion
  {
    OwnKeysOrderShape(insertion);
    forall x ensures x in OwnKeysOrder(insertion) <==> x in insertion {
      assert x in OwnKeysOrder(insertion) <==> x in multiset(OwnKeysOrder(insertion));
      assert x in insertion <==> x in multiset(insertion);
    }
  }

  /** Keys in order of first appearance. */
  function FirstKeys<T>(items: seq<T>, key: T -> string): seq<string>
  {
    if items == [] then []
    else
      var p := FirstKeys(items[..|items| - 1], key);
      var k := key(items[|items| - 1]);
      if k in p then p else p + [k]
  }

  predicate Distinct(s: seq<string>) {
    forall i, j :: 0 <= i < j < |s| ==> s[i] != s[j]
  }

  predicate HasKey<T>(key: T -> string, k: string, x: T) { key(x) == k }

  /** The items whose key is `k`, in input order. */
  function Bucket<T>(items: seq<T>, key: T -> string, k: string): seq<T>
  {
    Filter(items, x => HasKey(key, k, x))
  }

  /** A bucket holds exactly the items carrying its key. */
  lemma {:induction false} BucketMembers<T>(items: seq<T>, key: T -> string, k: string)
    ensures forall x :: x in Bucket(items, key, k) <==> x in items && key(x) == k
  {
    FilterMembers(items, x => HasKey(key, k, x));
  }

  lemma {:induction false} BucketSnoc<T>(items: seq<T>, x: T, key: T -> string, k: string)
    ensures Bucket(items + [x], key, k) == Bucket(items, key, k) + (if key(x) == k then [x] else [])
  {
    FilterAppend(items, [x], y => HasKey(key, k, y));
  }

  /** The first-appearance keys are distinct, and a key occurs among them exactly
      when some item carries it. */
  lemma {:induction false} FirstKeysSpec<T>(items: seq<T>, key: T -> string)
    ensures Distinct(FirstKeys(items, key))
    ensures forall k :: k in FirstKeys(items, key) <==> Bucket(items, key, k) != []
    decreases |items|
  {
    if items != [] {
      var pre := items[..|items| - 1];
      var x := items[|items| - 1];
      FirstKeysSpec(pre, key);
      assert items == pre + [x];
      forall k ensures k in FirstKeys(items, key) <==> Bucket(items, key, k) != [] {
        BucketSnoc(pre, x, key, k);
      }
    }
  }

  /** `dict` and `created` hold what a pass that pushes each item into the
      array under its key has built from `items`: the keys in creation order,
      and for each key the items carrying it. */
  ghost predicate Collected<T>(items: seq<T>, key: T -> string, dict: map<string, seq<T>>, created: seq<string>) {
    created == FirstKeys(items, key)
    && (forall k :: k in dict <==> k in created)
    && (forall k :: k in dict ==> dict[k] == Bucket(items, key, k))
  }

  lemma {:induction false} FirstKeysSnoc<T>(items: seq<T>, x: T, key: T -> string)
    ensures var p := FirstKeys(items, key);
      FirstKeys(items + [x], key) == if key(x) in p then p else p + [key(x)]
  {
    assert (items + [x])[..|items|] == items;
    assert (items + [x])[|items|] == x;
  }

  /** Some item with key `k1` comes before every item with key `k2`. */
  predicate Precedes<T>(items: seq<T>, key: T -> string, k1: string, k2: string) {
    exists a :: 0 <= a < |items| && key(items[a]) == k1
      && forall b :: 0 <= b < |items| && key(items[b]) == k2 ==> a < b
  }

  /** The first-appearance keys are in order of first appearance: each key's
      first item comes before every item of any later key. */
  lemma {:induction false} FirstKeysOrder<T>(items: seq<T>, key: T -> string)
    ensures var fk := FirstKeys(items, key);
      forall i, j :: 0 <= i < j < |fk| ==> Precedes(items, key, fk[i], fk[j])
    decreases |items|
  {
    if items != [] {
      var pre := items[..|items| - 1];
      var x := items[|items| - 1];
      assert items == pre + [x];
      var p := FirstKeys(pre, key);
      var fk := FirstKeys(items, key);
      FirstKeysOrder(pre, key);
      FirstKeysSpec(pre, key);
      FirstKeysSnoc(pre, x, key);
      forall i, j | 0 <= i < j < |fk| ensures Precedes(items, key, fk[i], fk[j]) {
        if j < |p| {
          PrecedesSnoc(pre, x, key, fk[i], fk[j]);
        } else {
          assert fk[j] == key(x) && key(x) !in p && fk[i] in p;
          BucketIndices(pre, key, fk[i]);
          BucketIndices(pre, key, key(x));
          PrecedesNew(pre, x, key, fk[i]);
        }
      }
    }
  }

  lemma {:induction false} FirstKeysBefore<T>(items: seq<T>, key: T -> string, i: nat, j: nat)
    requires i < j < |FirstKeys(items, key)|
    ensures Precedes(items, key, FirstKeys(items, key)[i], FirstKeys(items, key)[j])
  {
    FirstKeysOrder(items, key);
  }

  /** Dropping items of other keys keeps the order between two keys: when
      every item with key `k2` passes the filter, an order seen in the
      filtered list holds in the whole list. */
  lemma {:induction false} PrecedesFilter<T>(s: seq<T>, p: T -> bool, key: T -> string, k1: string, k2: string)
    requires forall x :: x in s && key(x) == k2 ==> p(x)
    requires Precedes(Filter(s, p), key, k1, k2)
    ensures Precedes(s, key, k1, k2)
    decreases |s|
  {
    if s != [] {
      var y, t := s[0], s[1..];
      assert s == [y] + t;
      FilterCons(y, t, p);
      PrecedesCons(y, t, key, k1, k2);
      if p(y) {
        PrecedesCons(y, Filter(t, p), key, k1, k2);
        if !(key(y) == k1 && k1 != k2) {
          PrecedesFilter(t, p, key, k1, k2);
        }
      } else {
        assert key(y) != k2;
        PrecedesFilter(t, p, key, k1, k2);
      }
    }
  }

  lemma {:induction false} PrecedesCons<T>(y: T, t: seq<T>, key: T -> string, k1: string, k2: string)
    ensures Precedes([y] + t, key, k1, k2) <==>
      (key(y) == k1 && k1 != k2) || (key(y) != k2 && Precedes(t, key, k1, k2))
  {
    var s := [y] + t;
    assert s[0] == y;
    if Precedes(s, key, k1, k2) && !(key(y) == k1 && k1 != k2) {
      var a :| 0 <= a < |s| && key(s[a]) == k1 && forall b :: 0 <= b < |s| && key(s[b]) == k2 ==> a < b;
      assert a != 0;
      assert t[a - 1] == s[a];
      forall b | 0 <= b < |t| && key(t[b]) == k2 ensures a - 1 < b {
        assert s[b + 1] == t[b];
      }
    }
    if key(y) == k1 && k1 != k2 {
      forall b | 0 <= b < |s| && key(s[b]) == k2 ensures 0 < b {
      }
    }
    if key(y) != k2 && Precedes(t, key, k1, k2) {
      var a :| 0 <= a < |t| && key(t[a]) == k1 && forall b :: 0 <= b < |t| && key(t[b]) == k2 ==> a < b;
      assert s[a + 1] == t[a];
      forall b | 0 <= b < |s| && key(s[b]) == k2 ensures a + 1 < b {
        assert b != 0;
        assert t[b - 1] == s[b];
      }
    }
  }

  /** An item carries key `k` exactly when the bucket of `k` is not empty. */
  lemma {:induction false} BucketIndices<T>(items: seq<T>, key: T -> string, k: string)
    ensures Bucket(items, key, k) != [] <==> exists a :: 0 <= a < |items| && key(items[a]) == k
  {
    if Bucket(items, key, k) != [] {
      var y := Bucket(items, key, k)[0];
      BucketItem(items, key, k, y);
      var a :| 0 <= a < |items| && items[a] == y;
    }
    if exists a :: 0 <= a < |items| && key(items[a]) == k {
      var a :| 0 <= a < |items| && key(items[a]) == k;
      BucketMembers(items, key, k);
      assert items[a] in Bucket(items, key, k);
    }
  }

  lemma {:induction false} BucketItem<T>(items: seq<T>, key: T -> string, k: string, y: T)
    requires y in Bucket(items, key, k)
    ensures y in items && key(y) == k
  {
    BucketMembers(items, key, k);
  }

  lemma {:induction false} PrecedesSnoc<T>(items: seq<T>, x: T, key: T -> string, k1: string, k2: string)
    requires Precedes(items, key, k1, k2)
    ensures Precedes(items + [x], key, k1, k2)
  {
    var a :| 0 <= a < |items| && key(items[a]) == k1
      && forall b :: 0 <= b < |items| && key(items[b]) == k2 ==> a < b;
    var s := items + [x];
    assert s[a] == items[a];
    forall b | 0 <= b < |s| && key(s[b]) == k2 ensures a < b {
      if b < |items| { assert s[b] == items[b]; }
    }
  }

  /** A key met for the first time at the end comes after every earlier key. */
  lemma {:induction false} PrecedesNew<T>(items: seq<T>, x: T, key: T -> string, k1: string)
    requires exists a :: 0 <= a < |items| && key(items[a]) == k1
    requires forall b :: 0 <= b < |items| ==> key(items[b]) != key(x)
    ensures Precedes(items + [x], key, k1, key(x))
  {
    var a :| 0 <= a < |items| && key(items[a]) == k1;
    var s := items + [x];
    assert s[a] == items[a];
    forall b | 0 <= b < |s| && key(s[b]) == key(x) ensures a < b {
      if b < |items| { assert false; }
    }
  }

  /** Creating an empty array under a key and pushing onto it is creating
      the one-element array. */
  lemma {:induction false} PushAfterCreate<V>(m: map<string, seq<V>>, k: string, v: V)
    ensures m[k := []][k := m[k := []][k] + [v]] == m[k := [v]]
  {
    assert [] + [v] == [v];
  }

  /** Pushing one more item: into the existing array for its key, or into a
      new array created at the end of the key order. */
  lemma {:induction false} CollectStep<T>(items: seq<T>, x: T, key: T -> string, dict: map<string, seq<T>>, created: seq<string>)
    requires Collected(items, key, dict, created)
    ensures key(x) in dict ==> Collected(items + [x], key, dict[key(x) := dict[key(x)] + [x]], created)
    ensures key(x) !in dict ==> Collected(items + [x], key, dict[key(x) := [x]], created + [key(x)])
  {
    var k0 := key(x);
    var dict' := if k0 in dict then dict[k0 := dict[k0] + [x]] else dict[k0 := [x]];
    FirstKeysSnoc(items, x, key);
    forall k | k in dict' ensures dict'[k] == Bucket(items + [x], key, k) {
      BucketSnoc(items, x, key, k);
      if k == k0 && k0 !in dict {
        FirstKeysSpec(items, key);
      }
    }
  }

  /** Every key the object reports holds that key's items. */
  lemma {:induction false} CollectedKeys<T>(items: seq<T>, key: T -> string, dict: map<string, seq<T>>, created: seq<string>)
    requires Collected(items, key, dict, created)
    ensures forall k :: k in OwnKeysOrder(created) ==> k in dict && dict[k] == Bucket(items, key, k)
  {
    OwnKeysOrderMembers(created);
  }

  /** Sum of the bucket sizes over a list of keys. */
  function SizeSum<T>(items: seq<T>, key: T -> string, ks: seq<string>): nat
  {
    if ks == [] then 0 else |Bucket(items, key, ks[0])| + SizeSum(items, key, ks[1..])
  }

  lemma {:induction false} SizeSumAppend<T>(items: seq<T>, key: T -> string, a: seq<string>, b: seq<string>)
    ensures SizeSum(items, key, a + b) == SizeSum(items, key, a) + SizeSum(items, key, b)
    decreases |a|
  {
    if a == [] {
      assert a + b == b;
    } else {
      assert (a + b)[0] == a[0] && (a + b)[1..] == a[1..] + b;
      SizeSumAppend(items, key, a[1..], b);
      assert SizeSum(items, key, a + b) == |Bucket(items, key, a[0])| + SizeSum(items, key, a[1..] + b);
    }
  }

  lemma {:induction false} SizeSumSnoc<T>(items: seq<T>, x: T, key: T -> string, ks: seq<string>)
    requires Distinct(ks)
    ensures SizeSum(items + [x], key, ks) == SizeSum(items, key, ks) + (if key(x) in ks then 1 else 0)
    decreases |ks|
  {
    if ks != [] {
      BucketSnoc(items, x, key, ks[0]);
      SizeSumSnoc(items, x, key, ks[1..]);
      assert key(x) in ks <==> key(x) == ks[0] || key(x) in ks[1..];
    }
  }

  /** Every item lands in the bucket of exactly one first-appearance key. */
  lemma {:induction false} BucketsCoverItems<T>(items: seq<T>, key: T -> string)
    ensures SizeSum(items, key, FirstKeys(items, key)) == |items|
    decreases |items|
  {
    if items != [] {
      var pre := items[..|items| - 1];
      var x := items[|items| - 1];
      var p := FirstKeys(pre, key);
      BucketsCoverItems(pre, key);
      FirstKeysSpec(pre, key);
      assert items == pre + [x];
      SizeSumSnoc(pre, x, key, p);
      if key(x) !in p {
        SizeSumAppend(items, key, p, [key(x)]);
        BucketSnoc(pre, x, key, key(x));
      }
    }
  }

  lemma {:induction false} SizeSumRemove<T>(items: seq<T>, key: T -> string, b: seq<string>, j: nat)
    requires j < |b|
    ensures SizeSum(items, key, b) == |Bucket(items, key, b[j])| + SizeSum(items, key, b[..j] + b[j + 1..])
  {
    var tail := [b[j]] + b[j + 1..];
    assert tail[0] == b[j] && tail[1..] == b[j + 1..];
    assert b[..j] + tail == b;
    SizeSumAppend(items, key, b[..j], tail);
    SizeSumAppend(items, key, b[..j], b[j + 1..]);
  }

  lemma {:induction false} MultisetRemove(b: seq<string>, j: nat)
    requires j < |b|
    ensures multiset(b[..j] + b[j + 1..]) == multiset(b) - multiset{b[j]}
  {
    assert b == b[..j] + [b[j]] + b[j + 1..];
  }

  /** The sum does not depend on the order of the keys. */
  lemma {:induction false} SizeSumPermutation<T>(items: seq<T>, key: T -> string, a: seq<string>, b: seq<string>)
    requires multiset(a) == multiset(b)
    ensures SizeSum(items, key, a) == SizeSum(items, key, b)
    decreases |a|
  {
    if a == [] {
      assert |b| == |multiset(b)|;
    } else {
      assert a[0] in multiset(b);
      var j :| 0 <= j < |b| && b[j] == a[0];
      MultisetRemove(b, j);
      assert a == [a[0]] + a[1..];
      assert multiset(a[1..]) == multiset(a) - multiset{a[0]};
      SizeSumPermutation(items, key, a[1..], b[..j] + b[j + 1..]);
      SizeSumRemove(items, key, b, j);
    }
  }

  /** Buckets in object key order cover the items exactly once. */
  lemma {:induction false} OrderedBucketsCoverItems<T>(items: seq<T>, key: T -> string)
    ensures SizeSum(items, key, OwnKeysOrder(FirstKeys(items, key))) == |items|
  {
    OwnKeysOrderShape(FirstKeys(items, key));
    SizeSumPermutation(items, key, OwnKeysOrder(FirstKeys(items, key)), FirstKeys(items, key));
    BucketsCoverItems(items, key);
  }

  lemma {:induction false} DistinctOnce(a: seq<string>, x: string)
    requires Distinct(a)
    ensures multiset(a)[x] <= 1
    decreases |a|
  {
    if a != [] {
      assert a == [a[0]] + a[1..];
      assert x == a[0] ==> x !in a[1..];
      DistinctOnce(a[1..], x);
    }
  }

  lemma {:induction false} DistinctPermutation(a: seq<string>, b: seq<string>)
    requires Distinct(a) && multiset(a) == multiset(b)
    ensures Distinct(b)
  {
    forall i, j | 0 <= i < j < |b| ensures b[i] != b[j] {
      DistinctOnce(a, b[i]);
      assert b == b[..i] + [b[i]] + b[i + 1..j] + [b[j]] + b[j + 1..];
      assert multiset(b)[b[i]] >= 1 + multiset([b[j]])[b[i]];
    }
  }

  /** The ordered keys of a grouping are distinct, and are exactly the keys some item carries. */
  lemma {:induction false} OrderedKeysSpec<T>(items: seq<T>, key: T -> string)
    ensures Distinct(OwnKeysOrder(FirstKeys(items, key)))
    ensures forall k :: k in OwnKeysOrder(FirstKeys(items, key)) <==> Bucket(items, key, k) != []
  {
    var fk := FirstKeys(items, key);
    FirstKeysSpec(items, key);
    OwnKeysOrderShape(fk);
    DistinctPermutation(fk, OwnKeysOrder(fk));
    forall k ensures k in OwnKeysOrder(fk) <==> k in fk {
      assert k in OwnKeysOrder(fk) <==> k in multiset(OwnKeysOrder(fk));
    }
  }
}
