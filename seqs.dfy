// Generic list helpers standing for Rust's iterator adapters: `filter`,
// `filter(..).count()`, `map`, and the stable `sort_by`/`sort_by_key`.
module Seqs {
  /** `iter().filter(p).collect()`: the elements satisfying `p`, in order. */
  function Filter<T(==,!new)>(s: seq<T>, p: T -> bool): (r: seq<T>)
    ensures |r| <= |s|
    ensures forall x :: x in r <==> x in s && p(x)
  {
    if |s| == 0 then []
    else
      var rest := Filter(s[..|s| - 1], p);
      assert forall x :: x in s <==> x in s[..|s| - 1] || x == s[|s| - 1];
      if p(s[|s| - 1]) then rest + [s[|s| - 1]] else rest
  }

  lemma {:induction false} FilterAppend<T(!new)>(a: seq<T>, b: seq<T>, p: T -> bool)
    ensures Filter(a + b, p) == Filter(a, p) + Filter(b, p)
    decreases |b|
  {
    if |b| == 0 {
      assert a + b == a;
    } else {
      assert (a + b)[..|a + b| - 1] == a + b[..|b| - 1];
      FilterAppend(a, b[..|b| - 1], p);
    }
  }

  lemma {:induction false} FilterAll<T(!new)>(s: seq<T>, p: T -> bool)
    requires forall k :: 0 <= k < |s| ==> p(s[k])
    ensures Filter(s, p) == s
  {
    if |s| > 0 {
      var init := s[..|s| - 1];
      assert forall k :: 0 <= k < |init| ==> init[k] == s[k];
      FilterAll(init, p);
      assert p(s[|s| - 1]);
      assert s == init + [s[|s| - 1]];
    }
  }

  /** `iter().filter(p).count()`. */
  function CountIf<T>(s: seq<T>, p: T -> bool): (n: nat)
    ensures n <= |s|
  {
    if |s| == 0 then 0
    else CountIf(s[..|s| - 1], p) + (if p(s[|s| - 1]) then 1 else 0)
  }

  /** No element satisfies `p` exactly when the count is zero; all do exactly when it is the length. */
  lemma {:induction false} CountIfExtremes<T>(s: seq<T>, p: T -> bool)
    ensures CountIf(s, p) == 0 <==> forall k :: 0 <= k < |s| ==> !p(s[k])
    ensures CountIf(s, p) == |s| <==> forall k :: 0 <= k < |s| ==> p(s[k])
  {
    if |s| > 0 {
      var init := s[..|s| - 1];
      CountIfExtremes(init, p);
      assert forall k :: 0 <= k < |s| - 1 ==> init[k] == s[k];
    }
  }

  /** Every element satisfies exactly one of `p` and its negation. */
  lemma {:induction false} CountIfComplement<T>(s: seq<T>, p: T -> bool)
    ensures CountIf(s, p) + CountIf(s, x => !p(x)) == |s|
  {
    if |s| > 0 { CountIfComplement(s[..|s| - 1], p); }
  }

  lemma {:induction false} CountIfAppend<T>(a: seq<T>, b: seq<T>, p: T -> bool)
    ensures CountIf(a + b, p) == CountIf(a, p) + CountIf(b, p)
    decreases |b|
  {
    if |b| == 0 {
      assert a + b == a;
    } else {
      assert (a + b)[..|a + b| - 1] == a + b[..|b| - 1];
      CountIfAppend(a, b[..|b| - 1], p);
    }
  }

  /** Counting a weaker predicate never gives less. */
  lemma {:induction false} CountIfMono<T>(s: seq<T>, p: T -> bool, q: T -> bool)
    requires forall x :: p(x) ==> q(x)
    ensures CountIf(s, p) <= CountIf(s, q)
  {
    if |s| > 0 { CountIfMono(s[..|s| - 1], p, q); }
  }

  /** Two predicates no element satisfies together count their disjunction. */
  lemma {:induction false} CountIfDisjoint<T>(s: seq<T>, p: T -> bool, q: T -> bool, pq: T -> bool)
    requires forall x :: !(p(x) && q(x))
    requires forall x :: pq(x) <==> p(x) || q(x)
    ensures CountIf(s, p) + CountIf(s, q) == CountIf(s, pq)
  {
    if |s| > 0 { CountIfDisjoint(s[..|s| - 1], p, q, pq); }
  }

  /** `iter().map(f).collect()`. */
  function Map<T, U>(s: seq<T>, f: T -> U): (r: seq<U>)
    ensures |r| == |s| && forall k :: 0 <= k < |s| ==> r[k] == f(s[k])
  {
    seq(|s|, k requires 0 <= k < |s| => f(s[k]))
  }

  lemma MapAppend<T, U>(a: seq<T>, b: seq<T>, f: T -> U)
    ensures Map(a + b, f) == Map(a, f) + Map(b, f)
  {
  }

  /** Removing the same element from two equal multisets leaves equal multisets. */
  lemma MultisetCancel<T>(p: multiset<T>, q: multiset<T>, x: T)
    requires p + multiset{x} == q + multiset{x}
    ensures p == q
  {
    assert p == (p + multiset{x}) - multiset{x};
    assert q == (q + multiset{x}) - multiset{x};
  }

  /** Removing position `j` removes one occurrence of `s[j]`. */
  lemma RemoveAtMultiset<T>(s: seq<T>, j: nat)
    requires j < |s|
    ensures multiset(s) == multiset(s[..j] + s[j + 1..]) + multiset{s[j]}
  {
    assert s == s[..j] + [s[j]] + s[j + 1..];
  }

  /** Mapping commutes with removing a position. */
  lemma MapRemoveAt<T, U>(s: seq<T>, j: nat, f: T -> U)
    requires j < |s|
    ensures Map(s[..j] + s[j + 1..], f) == Map(s, f)[..j] + Map(s, f)[j + 1..]
  {
  }

  /** Mapping two permutations of each other gives permutations of each other. */
  lemma {:induction false} MapPermutation<T, U>(a: seq<T>, b: seq<T>, f: T -> U)
    requires multiset(a) == multiset(b)
    ensures multiset(Map(a, f)) == multiset(Map(b, f))
    decreases |a|
  {
    if |a| == 0 {
      assert |b| == |multiset(b)| == 0;
    } else {
      var x := a[|a| - 1];
      assert x in multiset(b);
      var j :| 0 <= j < |b| && b[j] == x;
      var a', b' := a[..|a| - 1], b[..j] + b[j + 1..];
      assert a == a' + [x];
      RemoveAtMultiset(b, j);
      MultisetCancel(multiset(a'), multiset(b'), x);
      MapPermutation(a', b', f);
      assert Map(a, f) == Map(a', f) + [f(x)];
      MapRemoveAt(b, j, f);
      RemoveAtMultiset(Map(b, f), j);
    }
  }

  /** `iter().sum()` over naturals. */
  function Sum(s: seq<nat>): nat {
    if |s| == 0 then 0 else Sum(s[..|s| - 1]) + s[|s| - 1]
  }

  lemma {:induction false} SumAppend(a: seq<nat>, b: seq<nat>)
    ensures Sum(a + b) == Sum(a) + Sum(b)
    decreases |b|
  {
    if |b| == 0 {
      assert a + b == a;
    } else {
      assert (a + b)[..|a + b| - 1] == a + b[..|b| - 1];
      SumAppend(a, b[..|b| - 1]);
    }
  }

  /** Rearranging a list does not change its sum. */
  lemma {:induction false} SumPermutation(a: seq<nat>, b: seq<nat>)
    requires multiset(a) == multiset(b)
    ensures Sum(a) == Sum(b)
    decreases |a|
  {
    if |a| == 0 {
      assert |b| == |multiset(b)| == 0;
    } else {
      var x := a[|a| - 1];
      assert x in multiset(b);
      var j :| 0 <= j < |b| && b[j] == x;
      var a', b' := a[..|a| - 1], b[..j] + b[j + 1..];
      assert a == a' + [x];
      RemoveAtMultiset(b, j);
      MultisetCancel(multiset(a'), multiset(b'), x);
      SumPermutation(a', b');
      assert b == b[..j] + [x] + b[j + 1..];
      SumAppend(b[..j] + [x], b[j + 1..]);
      SumAppend(b[..j], b[j + 1..]);
    }
  }

  /** Summing a mapped list in two parts. */
  lemma SumMapSplit<T>(s: seq<T>, n: nat, f: T -> nat)
    requires n <= |s|
    ensures Sum(Map(s, f)) == Sum(Map(s[..n], f)) + Sum(Map(s[n..], f))
  {
    assert Map(s, f) == Map(s[..n], f) + Map(s[n..], f);
    SumAppend(Map(s[..n], f), Map(s[n..], f));
  }

  /** No element occurs twice. */
  predicate Distinct<T(==)>(s: seq<T>) {
    forall i, j :: 0 <= i < j < |s| ==> s[i] != s[j]
  }

  /** Concatenation is associative; stated once so that proofs can cite it. */
  lemma AppendAssoc<T>(a: seq<T>, b: seq<T>, c: seq<T>)
    ensures (a + b) + c == a + (b + c)
  {
  }

  /** A sequence with one more element is distinct iff the prefix is and the element is new. */
  lemma DistinctSnoc<T>(s: seq<T>, x: T)
    ensures Distinct(s + [x]) <==> Distinct(s) && x !in s
  {
    var t := s + [x];
    assert forall k :: 0 <= k < |s| ==> t[k] == s[k];
    if Distinct(t) {
      forall k | 0 <= k < |s| ensures s[k] != x {
        assert t[k] != t[|s|];
      }
    }
  }

  /** A sequence is distinct exactly when no element occurs twice in its multiset. */
  lemma {:induction false} DistinctMultiset<T>(s: seq<T>)
    ensures Distinct(s) <==> forall x :: multiset(s)[x] <= 1
  {
    if |s| > 0 {
      var pre, last := s[..|s| - 1], s[|s| - 1];
      assert s == pre + [last];
      DistinctMultiset(pre);
      DistinctSnoc(pre, last);
      if !Distinct(s) && Distinct(pre) {
        assert last in multiset(pre) && multiset(s)[last] == multiset(pre)[last] + 1;
      }
      if !Distinct(pre) {
        var x :| multiset(pre)[x] > 1;
        assert multiset(s)[x] >= multiset(pre)[x];
      }
    }
  }

  /** A permutation of a distinct sequence is distinct. */
  lemma DistinctPermutation<T>(a: seq<T>, b: seq<T>)
    requires multiset(a) == multiset(b) && Distinct(a)
    ensures Distinct(b)
  {
    DistinctMultiset(a);
    DistinctMultiset(b);
  }
}
