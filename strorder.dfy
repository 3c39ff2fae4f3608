// Rust's `Ord` for `String`: lexicographic by UTF-8 bytes, which is the same
// as lexicographic by code point. Also the sorted, duplicate-free sequences
// that stand for a `BTreeSet<String>` (ascending iteration order).
module StrOrder {
  /** `a < b` in lexicographic code-point order. */
  predicate Lt(a: string, b: string) {
    if |a| == 0 then |b| > 0
    else if |b| == 0 then false
    else if a[0] == b[0] then Lt(a[1..], b[1..])
    else a[0] < b[0]
  }

  predicate Le(a: string, b: string) {
    a == b || Lt(a, b)
  }

  lemma {:induction false} LtIrreflexive(a: string)
    ensures !Lt(a, a)
  {
    if |a| > 0 { LtIrreflexive(a[1..]); }
  }

  lemma {:induction false} LtAsymmetric(a: string, b: string)
    requires Lt(a, b)
    ensures !Lt(b, a)
  {
    if |a| > 0 && |b| > 0 && a[0] == b[0] { LtAsymmetric(a[1..], b[1..]); }
  }

  lemma {:induction false} LtTransitive(a: string, b: string, c: string)
    requires Lt(a, b) && Lt(b, c)
    ensures Lt(a, c)
  {
    if |a| > 0 && |b| > 0 && |c| > 0 && a[0] == b[0] && b[0] == c[0] {
      LtTransitive(a[1..], b[1..], c[1..]);
    }
  }

  lemma {:induction false} LtTotal(a: string, b: string)
    requires a != b
    ensures Lt(a, b) || Lt(b, a)
  {
    if |a| > 0 && |b| > 0 && a[0] == b[0] {
      assert a == [a[0]] + a[1..] && b == [b[0]] + b[1..];
      LtTotal(a[1..], b[1..]);
    }
  }

  /** A proper prefix sorts first. */
  lemma {:induction false} PrefixLt(a: string, b: string)
    requires a < b
    ensures Lt(a, b)
  {
    if |a| > 0 { PrefixLt(a[1..], b[1..]); }
  }

  lemma LeTotal(a: string, b: string)
    ensures Le(a, b) || Le(b, a)
  {
    if a != b { LtTotal(a, b); }
  }

  lemma LeTransitive(a: string, b: string, c: string)
    requires Le(a, b) && Le(b, c)
    ensures Le(a, c)
  {
    if a != b && b != c { LtTransitive(a, b, c); }
  }

  lemma LeAntisymmetric(a: string, b: string)
    requires Le(a, b) && Le(b, a)
    ensures a == b
  {
    if a != b { LtAsymmetric(a, b); }
  }

  /** Strictly ascending: the iteration order of a `BTreeSet<String>`. */
  predicate StrictlySorted(s: seq<string>) {
    forall i, j :: 0 <= i < j < |s| ==> Lt(s[i], s[j])
  }

  lemma StrictlySortedDistinct(s: seq<string>, i: int, j: int)
    requires StrictlySorted(s) && 0 <= i < j < |s|
    ensures s[i] != s[j]
  {
    LtIrreflexive(s[i]);
  }

  /** `BTreeSet::insert`: adds `x` in its place unless present. */
  function InsertUnique(s: seq<string>, x: string): (r: seq<string>)
    requires StrictlySorted(s)
    ensures StrictlySorted(r)
    ensures forall y :: y in r <==> y in s || y == x
    ensures x in s ==> r == s
    ensures x !in s ==> |r| == |s| + 1
  {
    if |s| == 0 then [x]
    else if s[0] == x then s
    else if Lt(x, s[0]) then
      BelowHead(s, x);
      [x] + s
    else
      LtTotal(x, s[0]);
      var rest := InsertUnique(s[1..], x);
      AboveHead(s, rest, x);
      [s[0]] + rest
  }

  /** An element below the head of a sorted sequence is below all of it and not in it. */
  lemma BelowHead(s: seq<string>, x: string)
    requires StrictlySorted(s) && |s| > 0 && Lt(x, s[0])
    ensures x !in s
    ensures StrictlySorted([x] + s)
  {
    LtIrreflexive(x);
    forall k | 0 < k < |s| ensures Lt(x, s[k]) { LtTransitive(x, s[0], s[k]); }
    forall k | 0 <= k < |s| ensures s[k] != x {
      if k > 0 { LtIrreflexive(x); }
    }
  }

  /** The head stays in front of a sorted tail holding the rest of the members and `x` above it. */
  lemma AboveHead(s: seq<string>, rest: seq<string>, x: string)
    requires StrictlySorted(s) && |s| > 0 && Lt(s[0], x)
    requires StrictlySorted(rest)
    requires forall y :: y in rest <==> y in s[1..] || y == x
    ensures StrictlySorted([s[0]] + rest)
    ensures forall y :: y in s <==> y == s[0] || y in s[1..]
  {
    assert forall k :: 0 <= k < |rest| ==> rest[k] in rest;
    assert forall k :: 1 <= k < |s| ==> s[k] in s[1..] && Lt(s[0], s[k]);
    assert forall k :: 0 <= k < |rest| ==> Lt(s[0], rest[k]);
  }

  /** The `BTreeSet<String>` obtained by inserting every item of `items` in turn. */
  function SortDedup(items: seq<string>): (r: seq<string>)
    ensures StrictlySorted(r)
    ensures forall y :: y in r <==> y in items
    ensures |r| <= |items|
  {
    if |items| == 0 then []
    else
      var r0 := SortDedup(items[..|items| - 1]);
      assert items == items[..|items| - 1] + [items[|items| - 1]];
      InsertUnique(r0, items[|items| - 1])
  }

  /** Two sorted sets with the same members are the same sequence. */
  lemma {:induction false} StrictlySortedUnique(a: seq<string>, b: seq<string>)
    requires StrictlySorted(a) && StrictlySorted(b)
    requires forall y :: y in a <==> y in b
    ensures a == b
  {
    assert |a| == 0 || a[0] in b;
    assert |b| == 0 || b[0] in a;
    if |a| > 0 {
      var k :| 0 <= k < |b| && b[k] == a[0];
      var m :| 0 <= m < |a| && a[m] == b[0];
      if k > 0 && m > 0 {
        LtAsymmetric(a[0], b[0]);
      }
      assert a[0] == b[0];
      forall y ensures y in a[1..] <==> y in b[1..] {
        if y in a[1..] {
          var i :| 1 <= i < |a| && a[i] == y;
          LtIrreflexive(y);
          assert y in b;
        }
        if y in b[1..] {
          var i :| 1 <= i < |b| && b[i] == y;
          LtIrreflexive(y);
          assert y in a;
        }
      }
      StrictlySortedUnique(a[1..], b[1..]);
      assert a == [a[0]] + a[1..] && b == [b[0]] + b[1..];
    }
  }

  /** The position of a member of a sorted set. */
  function IndexOf(s: seq<string>, x: string): (i: nat)
    requires x in s
    ensures i < |s| && s[i] == x
    ensures forall k :: 0 <= k < i ==> s[k] != x
  {
    if s[0] == x then 0 else 1 + IndexOf(s[1..], x)
  }

  /** Inserting into a `BTreeSet` one more item. */
  lemma SortDedupSnoc(items: seq<string>, x: string)
    ensures SortDedup(items + [x]) == InsertUnique(SortDedup(items), x)
  {
    assert (items + [x])[..|items|] == items;
  }

  /** Inserting items that are pairwise different keeps every one of them. */
  lemma {:induction false} SortDedupDistinct(items: seq<string>)
    requires forall i, j :: 0 <= i < j < |items| ==> items[i] != items[j]
    ensures |SortDedup(items)| == |items|
  {
    if |items| > 0 {
      var pre, last := items[..|items| - 1], items[|items| - 1];
      assert forall i, j :: 0 <= i < j < |pre| ==> pre[i] != pre[j] by {
        assert forall i :: 0 <= i < |pre| ==> pre[i] == items[i];
      }
      SortDedupDistinct(pre);
      assert last !in pre by {
        forall i | 0 <= i < |pre| ensures pre[i] != last {
          assert pre[i] == items[i];
        }
      }
    }
  }

  /** A non-empty finite set of strings has a least member. */
  lemma {:induction false} LeastExists(keys: set<string>)
    requires keys != {}
    ensures exists k :: IsLeast(keys, k)
    decreases keys
  {
    var x :| x in keys;
    var rest := keys - {x};
    if rest == {} {
      forall o | o in keys ensures Le(x, o) {
        assert o !in rest;
      }
      assert IsLeast(keys, x);
    } else {
      LeastExists(rest);
      var m :| IsLeast(rest, m);
      LeTotal(x, m);
      if Le(x, m) {
        forall o | o in keys ensures Le(x, o) {
          if o != x {
            assert o in rest;
            LeTransitive(x, m, o);
          }
        }
        assert IsLeast(keys, x);
      } else {
        forall o | o in keys ensures Le(m, o) {
          if o != x {
            assert o in rest;
          }
        }
        assert IsLeast(keys, m);
      }
    }
  }

  predicate IsLeast(keys: set<string>, k: string) {
    k in keys && forall o :: o in keys ==> Le(k, o)
  }

  /** A set has at most one least member. */
  lemma LeastUnique(keys: set<string>)
    ensures forall a, b :: IsLeast(keys, a) && IsLeast(keys, b) ==> a == b
  {
    forall a, b | IsLeast(keys, a) && IsLeast(keys, b) ensures a == b {
      LeAntisymmetric(a, b);
    }
  }

  /** The least member of a non-empty set. */
  function Least(keys: set<string>): (k: string)
    requires keys != {}
    ensures IsLeast(keys, k)
  {
    LeastExists(keys);
    LeastUnique(keys);
    var k :| IsLeast(keys, k);
    k
  }

  /** A set of strings in ascending order: the iteration order of a `BTreeMap`'s keys. */
  function SortedKeys(keys: set<string>): (r: seq<string>)
    ensures StrictlySorted(r)
    ensures forall y :: y in r <==> y in keys
    ensures |r| == |keys|
    decreases keys
  {
    if keys == {} then []
    else
      var k := Least(keys);
      var rest := SortedKeys(keys - {k});
      assert forall o :: o in rest ==> Lt(k, o) by {
        forall o | o in rest ensures Lt(k, o) {
          assert o in keys && o != k;
        }
      }
      [k] + rest
  }
}
