// The stable sort of Rust's `slice::sort_by`/`sort_by_key`, written as an
// insertion sort: elements that compare equal keep their input order.
module Sorting {
  import StrOrder
  import Seqs

  /** `le` is total and transitive: what `sort_by` needs of its comparator. */
  ghost predicate TotalPreorder<T(!new)>(le: (T, T) -> bool) {
    (forall a, b :: le(a, b) || le(b, a))
    && (forall a, b, c :: le(a, b) && le(b, c) ==> le(a, c))
  }

  predicate SortedBy<T>(s: seq<T>, le: (T, T) -> bool) {
    forall i, j :: 0 <= i < j < |s| ==> le(s[i], s[j])
  }

  /** Inserts `x` after every element it does not precede strictly. */
  function InsertBy<T(==)>(s: seq<T>, x: T, le: (T, T) -> bool): (r: seq<T>)
    ensures |r| == |s| + 1
    ensures multiset(r) == multiset(s) + multiset{x}
  {
    if |s| == 0 || le(s[|s| - 1], x) then s + [x]
    else
      var last := s[|s| - 1];
      assert s == s[..|s| - 1] + [last];
      InsertBy(s[..|s| - 1], x, le) + [last]
  }

  /** `v.sort_by(cmp)`: a permutation of `s`, stable. */
  function SortBy<T(==)>(s: seq<T>, le: (T, T) -> bool): (r: seq<T>)
    ensures |r| == |s|
    ensures multiset(r) == multiset(s)
  {
    if |s| == 0 then []
    else
      assert s == s[..|s| - 1] + [s[|s| - 1]];
      InsertBy(SortBy(s[..|s| - 1], le), s[|s| - 1], le)
  }

  lemma {:induction false} InsertBySorted<T(!new)>(s: seq<T>, x: T, le: (T, T) -> bool)
    requires TotalPreorder(le) && SortedBy(s, le)
    ensures SortedBy(InsertBy(s, x, le), le)
  {
    if |s| > 0 && !le(s[|s| - 1], x) {
      var init := s[..|s| - 1];
      var last := s[|s| - 1];
      InsertBySorted(init, x, le);
      var r := InsertBy(init, x, le);
      assert le(x, last);
      forall k | 0 <= k < |r| ensures le(r[k], last) {
        assert r[k] in multiset(init) + multiset{x};
        if r[k] != x {
          assert r[k] in init;
        }
      }
    }
  }

  lemma {:induction false} SortBySorted<T(!new)>(s: seq<T>, le: (T, T) -> bool)
    requires TotalPreorder(le)
    ensures SortedBy(SortBy(s, le), le)
  {
    if |s| > 0 {
      SortBySorted(s[..|s| - 1], le);
      InsertBySorted(SortBy(s[..|s| - 1], le), s[|s| - 1], le);
    }
  }

  /** Sorting an already sorted sequence leaves it as it is. */
  lemma {:induction false} SortBySortedInput<T(!new)>(s: seq<T>, le: (T, T) -> bool)
    requires SortedBy(s, le)
    ensures SortBy(s, le) == s
  {
    if |s| > 0 {
      var pre, last := s[..|s| - 1], s[|s| - 1];
      SortedPrefix(s, le);
      SortBySortedInput(pre, le);
      assert |pre| > 0 ==> le(pre[|pre| - 1], last);
      assert s == pre + [last];
    }
  }

  lemma SortedPrefix<T>(s: seq<T>, le: (T, T) -> bool)
    requires |s| > 0 && SortedBy(s, le)
    ensures SortedBy(s[..|s| - 1], le)
  {
    var pre := s[..|s| - 1];
    forall i, j | 0 <= i < j < |pre| ensures le(pre[i], pre[j]) {
      assert pre[i] == s[i] && pre[j] == s[j];
    }
  }

  /**
   * When `le` orders the elements without ties, the sorted permutation is
   * unique: any sorted rearrangement of `s` is `SortBy(s, le)`.
   */
  lemma {:induction false} SortedPermutationUnique<T(!new)>(a: seq<T>, b: seq<T>, le: (T, T) -> bool)
    requires multiset(a) == multiset(b)
    requires SortedBy(a, le) && SortedBy(b, le)
    requires forall x, y :: x in a && y in a && le(x, y) && le(y, x) ==> x == y
    ensures a == b
  {
    assert |a| == |multiset(a)| == |multiset(b)| == |b|;
    if |a| > 0 {
      var n := |a|;
      var x, y := a[n - 1], b[n - 1];
      var a', b' := a[..n - 1], b[..n - 1];
      assert a == a' + [x];
      assert b == b' + [y];
      assert y in a by { assert y in multiset(b); }
      assert x in b by { assert x in multiset(a); }
      var i :| 0 <= i < n && a[i] == y;
      var j :| 0 <= j < n && b[j] == x;
      if i < n - 1 && j < n - 1 {
        assert le(a[i], a[n - 1]) && le(b[j], b[n - 1]);
      }
      assert x == y;
      assert multiset(a) == multiset(a') + multiset{x};
      assert multiset(b) == multiset(b') + multiset{x};
      Seqs.MultisetCancel(multiset(a'), multiset(b'), x);
      SortedPrefix(a, le);
      SortedPrefix(b, le);
      assert forall z :: z in a' ==> z in a;
      SortedPermutationUnique(a', b', le);
    }
  }


  /** Comparing by a string key (`sort_by(|a, b| a.key.cmp(&b.key))`) is a total preorder. */
  lemma StringKeyPreorder<T(!new)>(le: (T, T) -> bool, key: T -> string)
    requires forall a, b :: le(a, b) == StrOrder.Le(key(a), key(b))
    ensures TotalPreorder(le)
  {
    forall a, b ensures le(a, b) || le(b, a) {
      StrOrder.LeTotal(key(a), key(b));
    }
    forall a, b, c | le(a, b) && le(b, c) ensures le(a, c) {
      StrOrder.LeTransitive(key(a), key(b), key(c));
    }
  }

  /** Comparing by a natural-number key (`sort_by_key(|x| x.id)`) is a total preorder. */
  lemma NatKeyPreorder<T(!new)>(le: (T, T) -> bool, key: T -> nat)
    requires forall a, b :: le(a, b) == (key(a) <= key(b))
    ensures TotalPreorder(le)
  {
  }

  /** `if n < v.len() { v.truncate(n) }`: the first `n` elements, or all of them. */
  function TopN<T>(s: seq<T>, n: nat): (r: seq<T>)
    ensures |r| == if n < |s| then n else |s|
    ensures r == s[..|r|]
  {
    if n < |s| then s[..n] else s
  }

  /**
   * The first `n` of a sorted permutation are in order, come from the input,
   * and precede every input element left out.
   */
  lemma TopOfSorted<T(!new)>(rows: seq<T>, le: (T, T) -> bool, n: nat)
    requires TotalPreorder(le)
    ensures var top := TopN(SortBy(rows, le), n);
      && SortedBy(top, le)
      && (forall x :: x in top ==> x in rows)
      && (forall x, y :: x in rows && x !in top && y in top ==> le(y, x))
  {
    var s := SortBy(rows, le);
    var top := TopN(s, n);
    SortBySorted(rows, le);
    forall x | x in top ensures x in rows {
      assert x in multiset(s);
    }
    forall x, y | x in rows && x !in top && y in top ensures le(y, x) {
      assert x in multiset(s);
      var j :| 0 <= j < |s| && s[j] == x;
      var i :| 0 <= i < |top| && top[i] == y;
      assert j >= |top|;
    }
  }
}
