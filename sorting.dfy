/** A stable sort by a key comparison, standing for Python's `list.sort(key=...)`
    and `sorted(..., key=...)`, which are stable. It is written as insertion sort;
    the lemmas below show that the result is a permutation of the input, sorted,
    and keeps the input order among elements whose keys compare equal, which is
    all that Python promises of its sort. */
module Sorting {

  /** `le` compares any two values and its comparisons chain. */
  ghost predicate TotalPreorder<T(!new)>(le: (T, T) -> bool)
  {
    && (forall x, y :: le(x, y) || le(y, x))
    && (forall x, y, z :: le(x, y) && le(y, z) ==> le(x, z))
  }

  ghost predicate SortedBy<T>(s: seq<T>, le: (T, T) -> bool)
  {
    forall i, j :: 0 <= i < j < |s| ==> le(s[i], s[j])
  }

  /** `x` and `y` have equal keys. */
  predicate Equivalent<T>(le: (T, T) -> bool, x: T, y: T)
  {
    le(x, y) && le(y, x)
  }

  /** Inserts `x` into `s` after every element whose key is not above the key of `x`. */
  function InsertBy<T>(x: T, s: seq<T>, le: (T, T) -> bool): (r: seq<T>)
    ensures |r| == |s| + 1
    ensures multiset(r) == multiset(s) + multiset{x}
  {
    if s == [] || le(s[|s| - 1], x) then s + [x]
    else
      var rest := InsertBy(x, s[..|s| - 1], le);
      assert s == s[..|s| - 1] + [s[|s| - 1]];
      rest + [s[|s| - 1]]
  }

  /** Sorts `s` by `le`, keeping the input order of elements with equal keys. */
  function SortBy<T>(s: seq<T>, le: (T, T) -> bool): (r: seq<T>)
    ensures |r| == |s|
    ensures multiset(r) == multiset(s)
  {
    if s == [] then []
    else
      assert s == s[..|s| - 1] + [s[|s| - 1]];
      InsertBy(s[|s| - 1], SortBy(s[..|s| - 1], le), le)
  }

  /** The elements of `s` whose key equals the key of `k`, in their order in `s`. */
  function Keep<T>(s: seq<T>, le: (T, T) -> bool, k: T): seq<T>
  {
    if s == [] then []
    else Keep(s[..|s| - 1], le, k) + (if Equivalent(le, k, s[|s| - 1]) then [s[|s| - 1]] else [])
  }

  lemma {:induction false} KeepAppend<T>(a: seq<T>, b: seq<T>, le: (T, T) -> bool, k: T)
    ensures Keep(a + b, le, k) == Keep(a, le, k) + Keep(b, le, k)
  {
    if b == [] {
      assert a + b == a;
    } else {
      assert (a + b)[..|a + b| - 1] == a + b[..|b| - 1];
      KeepAppend(a, b[..|b| - 1], le, k);
    }
  }

  lemma {:induction false} InsertBySorted<T(!new)>(x: T, s: seq<T>, le: (T, T) -> bool)
    requires TotalPreorder(le)
    requires SortedBy(s, le)
    ensures SortedBy(InsertBy(x, s, le), le)
  {
    if s == [] || le(s[|s| - 1], x) {
    } else {
      var init, last := s[..|s| - 1], s[|s| - 1];
      InsertBySorted(x, init, le);
      var rest := InsertBy(x, init, le);
      forall i | 0 <= i < |rest|
        ensures le(rest[i], last)
      {
        assert rest[i] in multiset(rest);
        if rest[i] in multiset(init) {
          var j :| 0 <= j < |init| && init[j] == rest[i];
          assert s[j] == init[j];
        }
      }
    }
  }

  /** The result of `SortBy` is sorted. */
  lemma {:induction false} SortBySorted<T(!new)>(s: seq<T>, le: (T, T) -> bool)
    requires TotalPreorder(le)
    ensures SortedBy(SortBy(s, le), le)
  {
    if s != [] {
      SortBySorted(s[..|s| - 1], le);
      InsertBySorted(s[|s| - 1], SortBy(s[..|s| - 1], le), le);
    }
  }

  /** The elements of a single element with the key of `k`. */
  lemma KeepSingle<T>(x: T, le: (T, T) -> bool, k: T)
    ensures Keep([x], le, k) == if Equivalent(le, k, x) then [x] else []
  {
    assert [x][..0] == [];
  }

  /** Appending `last` after a sequence that keeps the same elements as
      `init` plus possibly `x`, when `last` and `x` do not both have the
      key of `k`. */
  lemma KeepAfter<T>(ins: seq<T>, init: seq<T>, last: T, x: T, le: (T, T) -> bool, k: T)
    requires Keep(ins, le, k) == Keep(init, le, k) + (if Equivalent(le, k, x) then [x] else [])
    requires !(Equivalent(le, k, last) && Equivalent(le, k, x))
    ensures Keep(ins + [last], le, k) == Keep(init + [last], le, k) + (if Equivalent(le, k, x) then [x] else [])
  {
    KeepAppend(ins, [last], le, k);
    KeepAppend(init, [last], le, k);
    KeepSingle(last, le, k);
  }

  /** Inserting `x` puts it after the elements with its key, provided no
      element with the key of `k` is above an `x` with that key (which a
      total preorder guarantees). */
  lemma {:induction false} KeepInsertBy<T>(x: T, s: seq<T>, le: (T, T) -> bool, k: T)
    requires forall i :: 0 <= i < |s| && Equivalent(le, k, s[i]) && Equivalent(le, k, x) ==> le(s[i], x)
    ensures Keep(InsertBy(x, s, le), le, k)
         == Keep(s, le, k) + (if Equivalent(le, k, x) then [x] else [])
  {
    if s == [] || le(s[|s| - 1], x) {
      KeepAppend(s, [x], le, k);
      KeepSingle(x, le, k);
    } else {
      var init, last := s[..|s| - 1], s[|s| - 1];
      KeepInsertBy(x, init, le, k);
      assert Equivalent(le, k, last) && Equivalent(le, k, x) ==> le(last, x);
      KeepAfter(InsertBy(x, init, le), init, last, x, le, k);
      assert init + [last] == s;
    }
  }

  /** Stability: the elements with any one key keep their relative input order. */
  lemma {:induction false} SortByStable<T(!new)>(s: seq<T>, le: (T, T) -> bool, k: T)
    requires TotalPreorder(le)
    ensures Keep(SortBy(s, le), le, k) == Keep(s, le, k)
  {
    if s != [] {
      var init, last := s[..|s| - 1], s[|s| - 1];
      SortByStable(init, le, k);
      var sorted := SortBy(init, le);
      forall i | 0 <= i < |sorted| && Equivalent(le, k, sorted[i]) && Equivalent(le, k, last)
        ensures le(sorted[i], last)
      {
        assert le(sorted[i], k) && le(k, last);
      }
      KeepInsertBy(last, sorted, le, k);
    }
  }
}
