/** `OrderBy` with a string key: a stable sort under the string comparer of the current
    culture, with a null key before every string. */
module Ordering {
  import opened Wrappers

  /** A string comparer, as `Comparer<string>.Compare` answers: negative when the first
      string sorts first, zero when the two sort alike, positive otherwise. */
  type Comparer = (string, string) -> int

  /** What `OrderBy` needs of its comparer: every string sorts alike with itself, swapping
      the two strings swaps the sign, and "sorts no later than" is transitive. Distinct
      strings may still sort alike, as they can under a culture's comparison. */
  ghost predicate Collation(compare: Comparer) {
    && (forall a :: compare(a, a) == 0)
    && (forall a, b :: compare(a, b) < 0 <==> compare(b, a) > 0)
    && (forall a, b, c :: compare(a, b) <= 0 && compare(b, c) <= 0 ==> compare(a, c) <= 0)
  }

  /** Ordinal comparison: `a` sorts before `b`. */
  predicate StrLess(a: string, b: string) {
    if a == [] then b != []
    else if b == [] then false
    else if a[0] != b[0] then a[0] < b[0]
    else StrLess(a[1..], b[1..])
  }

  /** `String.CompareOrdinal`: character by character. */
  function Ordinal(a: string, b: string): int {
    if StrLess(a, b) then -1 else if a == b then 0 else 1
  }

  lemma {:induction false} StrLessIrreflexive(a: string)
    ensures !StrLess(a, a)
  {
    if a != [] {
      StrLessIrreflexive(a[1..]);
    }
  }

  lemma {:induction false} StrLessTransitive(a: string, b: string, c: string)
    requires StrLess(a, b) && StrLess(b, c)
    ensures StrLess(a, c)
  {
    if a != [] && b != [] && c != [] && a[0] == b[0] && b[0] == c[0] {
      StrLessTransitive(a[1..], b[1..], c[1..]);
    }
  }

  lemma {:induction false} StrLessTotal(a: string, b: string)
    requires a != b
    ensures StrLess(a, b) || StrLess(b, a)
  {
    if a != [] && b != [] && a[0] == b[0] {
      assert a == [a[0]] + a[1..] && b == [b[0]] + b[1..];
      StrLessTotal(a[1..], b[1..]);
    }
  }

  /** Ordinal comparison is a collation, one under which only equal strings sort alike. */
  lemma OrdinalCollation()
    ensures Collation(Ordinal)
    ensures forall a, b :: Ordinal(a, b) == 0 <==> a == b
  {
    forall a ensures Ordinal(a, a) == 0 {
      StrLessIrreflexive(a);
    }
    forall a, b ensures Ordinal(a, b) < 0 <==> Ordinal(b, a) > 0 {
      StrLessIrreflexive(a);
      if StrLess(a, b) && StrLess(b, a) {
        StrLessTransitive(a, b, a);
      }
      if a != b {
        StrLessTotal(a, b);
      }
    }
    forall a, b, c | Ordinal(a, b) <= 0 && Ordinal(b, c) <= 0 ensures Ordinal(a, c) <= 0 {
      if StrLess(a, b) && StrLess(b, c) {
        StrLessTransitive(a, b, c);
      }
    }
  }

  /** The comparer `OrderBy` uses on a nullable string key: null first. */
  predicate KeyLess(compare: Comparer, a: Option<string>, b: Option<string>) {
    match (a, b)
    case (Null, Null) => false
    case (Null, Some(_)) => true
    case (Some(_), Null) => false
    case (Some(x), Some(y)) => compare(x, y) < 0
  }

  predicate KeyLe(compare: Comparer, a: Option<string>, b: Option<string>) {
    !KeyLess(compare, b, a)
  }

  /** Two keys sort alike: neither sorts before the other. */
  predicate KeyAlike(compare: Comparer, a: Option<string>, b: Option<string>) {
    KeyLe(compare, a, b) && KeyLe(compare, b, a)
  }

  /** Under a collation `KeyLess` is a strict weak order: irreflexive, asymmetric and
      transitive, and any two keys are related by `KeyLe`. */
  lemma KeyLessOrder(compare: Comparer)
    requires Collation(compare)
    ensures forall a :: !KeyLess(compare, a, a)
    ensures forall a, b :: KeyLess(compare, a, b) ==> !KeyLess(compare, b, a)
    ensures forall a, b, c :: KeyLess(compare, a, b) && KeyLess(compare, b, c) ==> KeyLess(compare, a, c)
    ensures forall a, b :: KeyLe(compare, a, b) || KeyLe(compare, b, a)
  {
  }

  /** `KeyLe` is transitive. */
  lemma KeyLeTransitive(compare: Comparer, a: Option<string>, b: Option<string>, c: Option<string>)
    requires Collation(compare)
    requires KeyLe(compare, a, b) && KeyLe(compare, b, c)
    ensures KeyLe(compare, a, c)
  {
    if a.Some? && b.Some? && c.Some? {
      assert compare(a.value, b.value) <= 0 && compare(b.value, c.value) <= 0;
    }
  }

  /** Every later key is at least every earlier one. */
  predicate Sorted<T>(s: seq<T>, key: T -> Option<string>, compare: Comparer) {
    forall i, j | 0 <= i < j < |s| :: KeyLe(compare, key(s[i]), key(s[j]))
  }

  /** The entries with key `k`, in order. */
  function WithKey<T>(s: seq<T>, key: T -> Option<string>, k: Option<string>): (r: seq<T>)
    ensures |r| <= |s|
  {
    if s == [] then []
    else if key(s[0]) == k then [s[0]] + WithKey(s[1..], key, k)
    else WithKey(s[1..], key, k)
  }

  /** The entries whose key sorts alike with `k`, in order. */
  function AlikeWith<T>(s: seq<T>, key: T -> Option<string>, compare: Comparer, k: Option<string>): (r: seq<T>)
    ensures |r| <= |s|
  {
    if s == [] then []
    else if KeyAlike(compare, key(s[0]), k) then [s[0]] + AlikeWith(s[1..], key, compare, k)
    else AlikeWith(s[1..], key, compare, k)
  }

  /** `x` placed before the first entry of `ys` whose key is not below its own. */
  function Insert<T>(x: T, ys: seq<T>, key: T -> Option<string>, compare: Comparer): (r: seq<T>)
  {
    if ys == [] then [x]
    else if KeyLess(compare, key(ys[0]), key(x)) then [ys[0]] + Insert(x, ys[1..], key, compare)
    else [x] + ys
  }

  /** `xs.OrderBy(key)`: a stable sort by key. */
  function SortByKey<T>(xs: seq<T>, key: T -> Option<string>, compare: Comparer): (r: seq<T>)
  {
    if xs == [] then [] else Insert(xs[0], SortByKey(xs[1..], key, compare), key, compare)
  }

  lemma {:induction false} InsertPermutes<T>(x: T, ys: seq<T>, key: T -> Option<string>, compare: Comparer)
    ensures multiset(Insert(x, ys, key, compare)) == multiset(ys) + multiset{x}
  {
    if ys != [] && KeyLess(compare, key(ys[0]), key(x)) {
      InsertPermutes(x, ys[1..], key, compare);
      assert ys == [ys[0]] + ys[1..];
    }
  }

  lemma {:induction false} InsertKeepsKeys<T>(x: T, ys: seq<T>, key: T -> Option<string>, compare: Comparer, k: Option<string>)
    requires Collation(compare)
    ensures WithKey(Insert(x, ys, key, compare), key, k) == if key(x) == k then [x] + WithKey(ys, key, k) else WithKey(ys, key, k)
  {
    hide Collation;
    if ys == [] {
    } else if KeyLess(compare, key(ys[0]), key(x)) {
      InsertKeepsKeys(x, ys[1..], key, compare, k);
      KeyLessOrder(compare);
      assert key(ys[0]) != key(x);
    } else {
      assert ([x] + ys)[1..] == ys;
    }
  }

  /** Inserting `x` keeps the entries that sort alike with it in their order, `x` first. */
  lemma {:induction false} InsertKeepsAlike<T>(x: T, ys: seq<T>, key: T -> Option<string>, compare: Comparer, k: Option<string>)
    requires Collation(compare)
    ensures AlikeWith(Insert(x, ys, key, compare), key, compare, k) ==
      if KeyAlike(compare, key(x), k) then [x] + AlikeWith(ys, key, compare, k) else AlikeWith(ys, key, compare, k)
  {
    hide Collation;
    if ys == [] {
    } else if KeyLess(compare, key(ys[0]), key(x)) {
      InsertKeepsAlike(x, ys[1..], key, compare, k);
      if KeyAlike(compare, key(x), k) && KeyAlike(compare, key(ys[0]), k) {
        KeyLeTransitive(compare, key(x), k, key(ys[0]));
        assert false;
      }
    } else {
      assert ([x] + ys)[1..] == ys;
    }
  }

  lemma SortedTail<T>(ys: seq<T>, key: T -> Option<string>, compare: Comparer)
    requires Sorted(ys, key, compare) && ys != []
    ensures Sorted(ys[1..], key, compare)
  {
    assert forall i | 0 <= i < |ys| - 1 :: ys[1..][i] == ys[i + 1];
  }

  lemma {:induction false} InsertSorted<T>(x: T, ys: seq<T>, key: T -> Option<string>, compare: Comparer)
    requires Collation(compare)
    requires Sorted(ys, key, compare)
    ensures Sorted(Insert(x, ys, key, compare), key, compare)
  {
    hide Collation;
    var r := Insert(x, ys, key, compare);
    if ys == [] {
    } else if KeyLess(compare, key(ys[0]), key(x)) {
      var rest := Insert(x, ys[1..], key, compare);
      SortedTail(ys, key, compare);
      InsertSorted(x, ys[1..], key, compare);
      InsertPermutes(x, ys[1..], key, compare);
      assert KeyLe(compare, key(ys[0]), key(x)) by { KeyLessOrder(compare); }
      forall j | 0 <= j < |rest| ensures KeyLe(compare, key(ys[0]), key(rest[j])) {
        assert rest[j] in multiset(rest);
        if rest[j] != x {
          assert rest[j] in multiset(ys[1..]);
          var m :| 0 <= m < |ys[1..]| && ys[1..][m] == rest[j];
          assert ys[m + 1] == rest[j];
        }
      }
      assert r == [ys[0]] + rest;
      forall i, j | 0 <= i < j < |r| ensures KeyLe(compare, key(r[i]), key(r[j])) {
        if i == 0 {
          assert r[j] == rest[j - 1];
        } else {
          assert r[i] == rest[i - 1] && r[j] == rest[j - 1];
        }
      }
    } else {
      assert r == [x] + ys;
      forall i, j | 0 <= i < j < |r| ensures KeyLe(compare, key(r[i]), key(r[j])) {
        if i == 0 {
          assert r[j] == ys[j - 1];
          if j > 1 { KeyLeTransitive(compare, key(x), key(ys[0]), key(ys[j - 1])); }
        } else {
          assert r[i] == ys[i - 1] && r[j] == ys[j - 1];
        }
      }
    }
  }

  /** The sort is a permutation, whatever the comparer. */
  lemma {:induction false} SortByKeyPermutes<T>(xs: seq<T>, key: T -> Option<string>, compare: Comparer)
    ensures multiset(SortByKey(xs, key, compare)) == multiset(xs)
  {
    if xs != [] {
      SortByKeyPermutes(xs[1..], key, compare);
      InsertPermutes(xs[0], SortByKey(xs[1..], key, compare), key, compare);
      assert xs == [xs[0]] + xs[1..];
    }
  }

  /** Under a collation the sort is sorted by key and stable: the entries whose keys sort
      alike keep their order, and so do the entries with any one key. */
  lemma {:induction false} SortByKeyProperties<T>(xs: seq<T>, key: T -> Option<string>, compare: Comparer)
    requires Collation(compare)
    ensures multiset(SortByKey(xs, key, compare)) == multiset(xs)
    ensures Sorted(SortByKey(xs, key, compare), key, compare)
    ensures forall k :: AlikeWith(SortByKey(xs, key, compare), key, compare, k) == AlikeWith(xs, key, compare, k)
    ensures forall k :: WithKey(SortByKey(xs, key, compare), key, k) == WithKey(xs, key, k)
  {
    hide Collation;
    SortByKeyPermutes(xs, key, compare);
    if xs != [] {
      var rest := SortByKey(xs[1..], key, compare);
      SortByKeyProperties(xs[1..], key, compare);
      InsertSorted(xs[0], rest, key, compare);
      forall k ensures AlikeWith(SortByKey(xs, key, compare), key, compare, k) == AlikeWith(xs, key, compare, k) {
        InsertKeepsAlike(xs[0], rest, key, compare, k);
      }
      forall k ensures WithKey(SortByKey(xs, key, compare), key, k) == WithKey(xs, key, k) {
        InsertKeepsKeys(xs[0], rest, key, compare, k);
      }
    }
  }

  /** The entries that satisfy `p` (`Where`), in order. */
  function Filter<T>(xs: seq<T>, p: T -> bool): (r: seq<T>)
    ensures |r| <= |xs|
    ensures forall i | 0 <= i < |r| :: p(r[i])
  {
    if xs == [] then []
    else if p(xs[0]) then [xs[0]] + Filter(xs[1..], p)
    else Filter(xs[1..], p)
  }

  /** A stable sort on a boolean key: the entries satisfying `p` first, each group in its
      original order. */
  function StablePartition<T>(xs: seq<T>, p: T -> bool): (r: seq<T>)
  {
    Filter(xs, p) + Filter(xs, Negate(p))
  }

  /** The complement of a condition. */
  function Negate<T>(p: T -> bool): T -> bool {
    x => !p(x)
  }

  lemma {:induction false} StablePartitionPermutes<T>(xs: seq<T>, p: T -> bool)
    ensures multiset(StablePartition(xs, p)) == multiset(xs)
    ensures |StablePartition(xs, p)| == |xs|
  {
    if xs != [] {
      StablePartitionPermutes(xs[1..], p);
      assert xs == [xs[0]] + xs[1..];
      assert multiset(xs) == multiset{xs[0]} + multiset(xs[1..]);
    }
  }

  /** Every entry satisfying `p` comes before every entry that does not. */
  lemma StablePartitionSplits<T>(xs: seq<T>, p: T -> bool)
    ensures forall i, j | 0 <= i < j < |StablePartition(xs, p)| ::
      !p(StablePartition(xs, p)[i]) ==> !p(StablePartition(xs, p)[j])
  {
    var r := StablePartition(xs, p);
    var n := |Filter(xs, p)|;
    forall i, j | 0 <= i < j < |r| && !p(r[i]) ensures !p(r[j]) {
      assert i >= n;
      assert r[j] == Filter(xs, Negate(p))[j - n];
    }
  }

  lemma {:induction false} FilterIn<T>(xs: seq<T>, p: T -> bool)
    ensures forall i | 0 <= i < |Filter(xs, p)| :: Filter(xs, p)[i] in xs
  {
    if xs != [] {
      FilterIn(xs[1..], p);
    }
  }

  /** Filtering a sorted sequence keeps it sorted. */
  lemma {:induction false} FilterSorted<T>(xs: seq<T>, key: T -> Option<string>, compare: Comparer, p: T -> bool)
    requires Sorted(xs, key, compare)
    ensures Sorted(Filter(xs, p), key, compare)
  {
    if xs != [] {
      SortedTail(xs, key, compare);
      FilterSorted(xs[1..], key, compare, p);
      if p(xs[0]) {
        var rest := Filter(xs[1..], p);
        var r := Filter(xs, p);
        FilterIn(xs[1..], p);
        assert r == [xs[0]] + rest;
        forall i, j | 0 <= i < j < |r| ensures KeyLe(compare, key(r[i]), key(r[j])) {
          if i == 0 {
            assert r[j] == rest[j - 1];
            var m :| 0 <= m < |xs[1..]| && xs[1..][m] == rest[j - 1];
            assert xs[m + 1] == r[j];
          } else {
            assert r[i] == rest[i - 1] && r[j] == rest[j - 1];
          }
        }
      }
    }
  }

  /** A stable partition of a sorted sequence keeps each group sorted. */
  lemma StablePartitionGroupsSorted<T>(xs: seq<T>, key: T -> Option<string>, compare: Comparer, p: T -> bool)
    requires Sorted(xs, key, compare)
    ensures forall i, j | 0 <= i < j < |StablePartition(xs, p)| && p(StablePartition(xs, p)[i]) == p(StablePartition(xs, p)[j]) ::
      KeyLe(compare, key(StablePartition(xs, p)[i]), key(StablePartition(xs, p)[j]))
  {
    FilterSorted(xs, key, compare, p);
    FilterSorted(xs, key, compare, Negate(p));
    var r := StablePartition(xs, p);
    var en, dis := Filter(xs, p), Filter(xs, Negate(p));
    var n := |en|;
    assert r == en + dis;
    forall i, j | 0 <= i < j < |r| && p(r[i]) == p(r[j]) ensures KeyLe(compare, key(r[i]), key(r[j])) {
      if p(r[i]) {
        assert j < n;
        assert r[i] == en[i] && r[j] == en[j];
      } else {
        assert i >= n;
        assert r[i] == dis[i - n] && r[j] == dis[j - n];
      }
    }
  }
}
