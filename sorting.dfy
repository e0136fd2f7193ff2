// Python's `list.sort(key=..., reverse=True)` as a stable descending
// insertion sort over a strict weak order, and Python's ordering of strings.
module Sorting {

  /** A strict weak order: irreflexive, transitive, and its incomparability is transitive. */
  ghost predicate StrictWeak<T(!new)>(lt: (T, T) -> bool)
  {
    (forall a :: !lt(a, a))
    && (forall a, b, c :: lt(a, b) && lt(b, c) ==> lt(a, c))
    && (forall a, b, c :: !lt(a, b) && !lt(b, c) ==> !lt(a, c))
  }

  /** No element is smaller than one after it. */
  ghost predicate Descending<T>(s: seq<T>, lt: (T, T) -> bool)
  {
    forall i, j :: 0 <= i < j < |s| ==> !lt(s[i], s[j])
  }

  /** `x` placed before the first element that is not larger than it. */
  function InsertDesc<T>(x: T, s: seq<T>, lt: (T, T) -> bool): (r: seq<T>)
    ensures |r| == |s| + 1
    ensures multiset(r) == multiset(s) + multiset{x}
  {
    if s == [] || !lt(x, s[0]) then [x] + s
    else
      assert s == [s[0]] + s[1..];
      [s[0]] + InsertDesc(x, s[1..], lt)
  }

  /** The sort: larger elements first; equal ones keep their order. */
  function SortDesc<T>(s: seq<T>, lt: (T, T) -> bool): (r: seq<T>)
    ensures |r| == |s|
    ensures multiset(r) == multiset(s)
  {
    if s == [] then []
    else
      assert s == [s[0]] + s[1..];
      InsertDesc(s[0], SortDesc(s[1..], lt), lt)
  }

  lemma {:induction false} InsertDescSorted<T(!new)>(x: T, s: seq<T>, lt: (T, T) -> bool)
    requires StrictWeak(lt) && Descending(s, lt)
    ensures Descending(InsertDesc(x, s, lt), lt)
  {
    if s == [] || !lt(x, s[0]) {
      var r := [x] + s;
      forall i, j | 0 <= i < j < |r|
        ensures !lt(r[i], r[j])
      {
        if i == 0 && j > 1 {
          assert !lt(x, s[0]) && !lt(s[0], s[j - 1]);
        }
      }
    } else {
      var rest := InsertDesc(x, s[1..], lt);
      InsertDescSorted(x, s[1..], lt);
      var r := [s[0]] + rest;
      forall j | 0 <= j < |rest|
        ensures !lt(s[0], rest[j])
      {
        assert rest[j] in multiset(rest);
        if rest[j] != x {
          assert rest[j] in multiset(s[1..]);
          var k :| 0 <= k < |s[1..]| && s[1..][k] == rest[j];
          assert s[k + 1] == rest[j];
        }
      }
      forall i, j | 0 <= i < j < |r|
        ensures !lt(r[i], r[j])
      {
        if i > 0 {
          assert r[i] == rest[i - 1] && r[j] == rest[j - 1];
        } else {
          assert r[j] == rest[j - 1];
        }
      }
    }
  }

  /** The sort's result is in descending order and holds exactly the input's elements. */
  lemma {:induction false} SortDescSorted<T(!new)>(s: seq<T>, lt: (T, T) -> bool)
    requires StrictWeak(lt)
    ensures Descending(SortDesc(s, lt), lt)
    ensures multiset(SortDesc(s, lt)) == multiset(s)
  {
    if s != [] {
      SortDescSorted(s[1..], lt);
      InsertDescSorted(s[0], SortDesc(s[1..], lt), lt);
    }
  }

  /** An input already in descending order is left as it is. */
  lemma {:induction false} SortDescOfDescending<T(!new)>(s: seq<T>, lt: (T, T) -> bool)
    requires Descending(s, lt)
    ensures SortDesc(s, lt) == s
  {
    if s != [] {
      SortDescOfDescending(s[1..], lt);
      assert s == [s[0]] + s[1..];
      if |s| > 1 {
        assert !lt(s[0], s[1]);
      }
    }
  }

  /** Python's `a < b` on strings: the first differing character decides, and a proper prefix comes first. */
  predicate StrLt(a: string, b: string)
  {
    if a == [] then b != []
    else if b == [] then false
    else if a[0] != b[0] then a[0] < b[0]
    else StrLt(a[1..], b[1..])
  }

  lemma {:induction false} StrLtIrreflexive(a: string)
    ensures !StrLt(a, a)
  {
    if a != [] {
      StrLtIrreflexive(a[1..]);
    }
  }

  lemma {:induction false} StrLtTransitive(a: string, b: string, c: string)
    requires StrLt(a, b) && StrLt(b, c)
    ensures StrLt(a, c)
  {
    if a != [] && b != [] && c != [] && a[0] == b[0] && b[0] == c[0] {
      StrLtTransitive(a[1..], b[1..], c[1..]);
    }
  }

  lemma {:induction false} StrLtTotal(a: string, b: string)
    requires a != b
    ensures StrLt(a, b) || StrLt(b, a)
  {
    if a != [] && b != [] && a[0] == b[0] {
      assert a == [a[0]] + a[1..] && b == [b[0]] + b[1..];
      StrLtTotal(a[1..], b[1..]);
    }
  }

  /** Python's `key=` with a string-valued key: compare the keys. */
  function ByStrKey<T>(key: T -> string): (T, T) -> bool
  {
    (x: T, y: T) => StrLt(key(x), key(y))
  }

  /** Python's `key=` with an integer-valued key. */
  function ByIntKey<T>(key: T -> int): (T, T) -> bool
  {
    (x: T, y: T) => key(x) < key(y)
  }

  /** Python's `key=` with a numeric key. */
  function ByRealKey<T>(key: T -> real): (T, T) -> bool
  {
    (x: T, y: T) => key(x) < key(y)
  }

  /** Ordering by a string key is a strict weak order. */
  lemma StrKeyStrictWeak<T(!new)>(key: T -> string)
    ensures StrictWeak(ByStrKey(key))
  {
    var lt := ByStrKey(key);
    forall a
      ensures !lt(a, a)
    {
      StrLtIrreflexive(key(a));
    }
    forall a, b, c | lt(a, b) && lt(b, c)
      ensures lt(a, c)
    {
      StrLtTransitive(key(a), key(b), key(c));
    }
    forall a, b, c | !lt(a, b) && !lt(b, c)
      ensures !lt(a, c)
    {
      if lt(a, c) {
        if key(a) != key(b) {
          StrLtTotal(key(a), key(b));
          StrLtTransitive(key(b), key(a), key(c));
          if key(b) != key(c) {
            StrLtTotal(key(b), key(c));
            StrLtTransitive(key(c), key(b), key(c));
            StrLtIrreflexive(key(c));
          } else {
            StrLtIrreflexive(key(c));
          }
        } else {
          if key(b) != key(c) {
            StrLtTotal(key(b), key(c));
            StrLtTransitive(key(c), key(b), key(c));
            StrLtIrreflexive(key(c));
          } else {
            StrLtIrreflexive(key(c));
          }
        }
      }
    }
  }

  /** Ordering by an integer key is a strict weak order. */
  lemma IntKeyStrictWeak<T(!new)>(key: T -> int)
    ensures StrictWeak(ByIntKey(key))
  {
  }

  /** Ordering by a numeric key is a strict weak order. */
  lemma RealKeyStrictWeak<T(!new)>(key: T -> real)
    ensures StrictWeak(ByRealKey(key))
  {
  }
}
