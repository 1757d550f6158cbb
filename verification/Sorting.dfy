/**
 Sorting by a string key. The library sorts the program calls promise only a sorted
 permutation; `SortBy` is one such, and StrictlySortedUnique shows that with pairwise
 distinct keys there is no other, so results never depend on the algorithm.
 */
module Sorting {
  import opened Strings

  ghost predicate SortedBy<T>(xs: seq<T>, key: T -> string) {
    forall i, j | 0 <= i < j < |xs| :: !Less(key(xs[j]), key(xs[i]))
  }

  ghost predicate StrictlySortedBy<T>(xs: seq<T>, key: T -> string) {
    forall i, j | 0 <= i < j < |xs| :: Less(key(xs[i]), key(xs[j]))
  }

  ghost predicate DistinctKeys<T>(xs: seq<T>, key: T -> string) {
    forall i, j | 0 <= i < j < |xs| :: key(xs[i]) != key(xs[j])
  }

  function Insert<T>(x: T, xs: seq<T>, key: T -> string): seq<T> {
    if xs == [] || !Less(key(xs[0]), key(x)) then [x] + xs else [xs[0]] + Insert(x, xs[1..], key)
  }

  function SortBy<T>(xs: seq<T>, key: T -> string): seq<T> {
    if xs == [] then [] else Insert(xs[0], SortBy(xs[1..], key), key)
  }

  lemma {:induction false} InsertKeeps<T>(x: T, xs: seq<T>, key: T -> string)
    ensures multiset(Insert(x, xs, key)) == multiset{x} + multiset(xs)
  {
    if xs != [] && Less(key(xs[0]), key(x)) {
      InsertKeeps(x, xs[1..], key);
      assert xs == [xs[0]] + xs[1..];
    }
  }

  lemma {:induction false} InsertSorts<T>(x: T, xs: seq<T>, key: T -> string)
    requires SortedBy(xs, key)
    ensures SortedBy(Insert(x, xs, key), key)
  {
    if xs != [] {
      var r := Insert(x, xs, key);
      if Less(key(xs[0]), key(x)) {
        InsertSorts(x, xs[1..], key);
        InsertKeeps(x, xs[1..], key);
        var tail := Insert(x, xs[1..], key);
        assert r == [xs[0]] + tail;
        forall j | 0 <= j < |tail| ensures !Less(key(tail[j]), key(xs[0])) {
          assert tail[j] in multiset(tail);
          if tail[j] == x {
            LessAsymmetric(key(xs[0]), key(x));
          } else {
            assert tail[j] in xs[1..];
          }
        }
      } else {
        forall j | 0 <= j < |xs| ensures !Less(key(xs[j]), key(x)) {
          if Less(key(xs[j]), key(x)) { NotLessTransitive(key(xs[j]), key(xs[0]), key(x)); }
        }
      }
    }
  }

  lemma LessAsymmetric(a: string, b: string)
    requires Less(a, b)
    ensures !Less(b, a)
  {
    if Less(b, a) {
      LessTransitive(a, b, a);
      LessIrreflexive(a);
    }
  }

  lemma NotLessTransitive(a: string, b: string, c: string)
    requires !Less(a, b) && !Less(b, c)
    ensures !Less(a, c)
  {
    if Less(a, c) && b != c {
      LessTotal(b, c);
      LessTransitive(a, c, b);
    }
  }

  lemma {:induction false} SortByIsSortedPermutation<T>(xs: seq<T>, key: T -> string)
    ensures SortedBy(SortBy(xs, key), key)
    ensures multiset(SortBy(xs, key)) == multiset(xs)
  {
    if xs != [] {
      SortByIsSortedPermutation(xs[1..], key);
      InsertSorts(xs[0], SortBy(xs[1..], key), key);
      InsertKeeps(xs[0], SortBy(xs[1..], key), key);
      assert xs == [xs[0]] + xs[1..];
    }
  }

  lemma DistinctAreStrict<T>(xs: seq<T>, key: T -> string)
    requires SortedBy(xs, key) && DistinctKeys(xs, key)
    ensures StrictlySortedBy(xs, key)
  {
    forall i, j | 0 <= i < j < |xs| ensures Less(key(xs[i]), key(xs[j])) {
      LessTotal(key(xs[i]), key(xs[j]));
    }
  }

  /** A strictly sorted list is determined by its elements. */
  lemma {:induction false} StrictlySortedUnique<T>(a: seq<T>, b: seq<T>, key: T -> string)
    requires StrictlySortedBy(a, key) && StrictlySortedBy(b, key)
    requires forall x :: x in a <==> x in b
    ensures a == b
  {
    if a == [] {
      if b != [] { HasMember(b); }
    } else {
      assert a[0] in b && b != [] && b[0] in a;
      assert a[0] == b[0] by {
        if a[0] != b[0] {
          LessAsymmetricAll(key(a[0]), key(b[0]));
        }
      }
      forall x ensures x in a[1..] <==> x in b[1..] {
        LessIrreflexive(key(a[0]));
        if x in a[1..] { assert x in b; }
        if x in b[1..] { assert x in a; }
      }
      StrictlySortedUnique(a[1..], b[1..], key);
    }
  }

  lemma HasMember<T>(b: seq<T>)
    requires b != []
    ensures exists x :: x in b
  {
    assert b[0] in b;
  }

  lemma LessAsymmetricAll(a: string, b: string)
    ensures !(Less(a, b) && Less(b, a))
  {
    if Less(a, b) { LessAsymmetric(a, b); }
  }

  /** Sorting commutes with mapping when the key only looks at the mapped part. */
  lemma {:induction false} SortByMap<T, U>(xs: seq<T>, ys: seq<U>, f: T -> U, key: T -> string, ukey: U -> string)
    requires |xs| == |ys| && forall i | 0 <= i < |xs| :: ys[i] == f(xs[i])
    requires forall x :: key(x) == ukey(f(x))
    ensures |SortBy(ys, ukey)| == |SortBy(xs, key)|
    ensures forall i | 0 <= i < |SortBy(xs, key)| :: SortBy(ys, ukey)[i] == f(SortBy(xs, key)[i])
  {
    if xs != [] {
      SortByMap(xs[1..], ys[1..], f, key, ukey);
      InsertMap(xs[0], SortBy(xs[1..], key), SortBy(ys[1..], ukey), f, key, ukey);
    }
  }

  lemma {:induction false} InsertMap<T, U>(x: T, xs: seq<T>, ys: seq<U>, f: T -> U, key: T -> string, ukey: U -> string)
    requires |xs| == |ys| && forall i | 0 <= i < |xs| :: ys[i] == f(xs[i])
    requires forall x :: key(x) == ukey(f(x))
    ensures |Insert(f(x), ys, ukey)| == |Insert(x, xs, key)|
    ensures forall i | 0 <= i < |Insert(x, xs, key)| :: Insert(f(x), ys, ukey)[i] == f(Insert(x, xs, key)[i])
  {
    if xs != [] && Less(key(xs[0]), key(x)) {
      InsertMap(x, xs[1..], ys[1..], f, key, ukey);
    }
  }
}
