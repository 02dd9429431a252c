/** Generic sequence operations that the marketplace's array code is built from:
    `findIndex`/`find`/`indexOf`, `filter`, a stable `sort`, and `slice(0, n)`.
    Every JavaScript array here is modelled as an immutable `seq`. */
module Seqs {

  datatype Option<+T> = None | Some(value: T)

  // ---------------------------------------------------------------------------
  // Searching by key (Array.prototype.findIndex / find / indexOf)
  // ---------------------------------------------------------------------------

  /** The index of the first element whose key is `k`, or -1 when there is none. */
  function IndexOfKey<T, K(==)>(s: seq<T>, key: T -> K, k: K): (r: int)
    ensures -1 <= r < |s|
    ensures r == -1 <==> forall i :: 0 <= i < |s| ==> key(s[i]) != k
    ensures 0 <= r ==> key(s[r]) == k && forall i :: 0 <= i < r ==> key(s[i]) != k
  {
    if s == [] then -1
    else if key(s[0]) == k then 0
    else
      var j := IndexOfKey(s[1..], key, k);
      if j == -1 then -1 else j + 1
  }

  /** The first element whose key is `k` (Array.prototype.find). */
  function FindByKey<T, K(==)>(s: seq<T>, key: T -> K, k: K): (r: Option<T>)
    ensures r.None? <==> forall i :: 0 <= i < |s| ==> key(s[i]) != k
    ensures r.Some? ==> r.value in s && key(r.value) == k
    ensures r.Some? ==> r.value == s[IndexOfKey(s, key, k)]
  {
    var i := IndexOfKey(s, key, k);
    if i == -1 then None else Some(s[i])
  }

  /** The identity key, for sequences of plain ids. */
  function Self<T>(x: T): T { x }

  // ---------------------------------------------------------------------------
  // Filtering (Array.prototype.filter)
  // ---------------------------------------------------------------------------

  /** The elements of `s` that satisfy `p`, in their original order. */
  function Filter<T>(s: seq<T>, p: T -> bool): (r: seq<T>)
    ensures |r| <= |s|
    ensures forall i :: 0 <= i < |r| ==> r[i] in s && p(r[i])
    ensures forall i :: 0 <= i < |s| && p(s[i]) ==> s[i] in r
  {
    if s == [] then []
    else (if p(s[0]) then [s[0]] else []) + Filter(s[1..], p)
  }

  function Not<T>(p: T -> bool): T -> bool { x => !p(x) }

  function Both<T>(p: T -> bool, q: T -> bool): T -> bool { x => p(x) && q(x) }

  function KeyIsNot<T, K(==)>(key: T -> K, k: K): T -> bool { x => key(x) != k }

  /** The elements whose key is not `k` (`filter(x => key(x) !== k)`). */
  function WithoutKey<T, K(==)>(s: seq<T>, key: T -> K, k: K): (r: seq<T>)
    ensures forall i :: 0 <= i < |r| ==> r[i] in s && key(r[i]) != k
    ensures forall i :: 0 <= i < |s| && key(s[i]) != k ==> s[i] in r
  {
    Filter(s, KeyIsNot(key, k))
  }

  /** `a` can be obtained from `b` by deleting elements: order is preserved. */
  ghost predicate IsSubsequence<T>(a: seq<T>, b: seq<T>)
    decreases |b|
  {
    a == [] || (b != [] && ((a[0] == b[0] && IsSubsequence(a[1..], b[1..])) || IsSubsequence(a, b[1..])))
  }

  lemma {:induction false} SubsequenceRefl<T>(s: seq<T>)
    ensures IsSubsequence(s, s)
  {
    if s != [] {
      SubsequenceRefl(s[1..]);
    }
  }

  lemma {:induction false} FilterIsSubsequence<T>(s: seq<T>, p: T -> bool)
    ensures IsSubsequence(Filter(s, p), s)
  {
    if s != [] {
      FilterIsSubsequence(s[1..], p);
      if p(s[0]) {
        assert Filter(s, p) == [s[0]] + Filter(s[1..], p);
        assert Filter(s, p)[1..] == Filter(s[1..], p);
      } else {
        assert Filter(s, p) == Filter(s[1..], p);
      }
    }
  }

  lemma FilterSingleton<T>(x: T, p: T -> bool)
    ensures Filter([x], p) == if p(x) then [x] else []
  {
    assert [x][1..] == [];
  }

  lemma {:induction false} FilterAppend<T>(a: seq<T>, b: seq<T>, p: T -> bool)
    ensures Filter(a + b, p) == Filter(a, p) + Filter(b, p)
  {
    if a == [] {
      assert a + b == b;
    } else {
      assert (a + b)[1..] == a[1..] + b;
      FilterAppend(a[1..], b, p);
    }
  }

  /** Filtering with a predicate every element satisfies changes nothing. */
  lemma {:induction false} FilterAll<T>(s: seq<T>, p: T -> bool)
    requires forall i :: 0 <= i < |s| ==> p(s[i])
    ensures Filter(s, p) == s
  {
    if s != [] {
      FilterAll(s[1..], p);
    }
  }

  /** Filtering with a predicate no element satisfies leaves nothing. */
  lemma {:induction false} FilterNone<T>(s: seq<T>, p: T -> bool)
    requires forall i :: 0 <= i < |s| ==> !p(s[i])
    ensures Filter(s, p) == []
  {
    if s != [] {
      FilterNone(s[1..], p);
    }
  }

  lemma {:induction false} FilterFilter<T>(s: seq<T>, p: T -> bool, q: T -> bool)
    ensures Filter(Filter(s, p), q) == Filter(s, Both(p, q))
  {
    if s != [] {
      FilterFilter(s[1..], p, q);
      assert Both(p, q)(s[0]) == (p(s[0]) && q(s[0]));
      if p(s[0]) {
        assert Filter(s, p) == [s[0]] + Filter(s[1..], p);
        assert Filter(s, p)[1..] == Filter(s[1..], p);
      } else {
        assert Filter(s, p) == Filter(s[1..], p);
      }
    }
  }

  lemma FilterIdempotent<T>(s: seq<T>, p: T -> bool)
    ensures Filter(Filter(s, p), p) == Filter(s, p)
  {
    var r := Filter(s, p);
    assert forall i :: 0 <= i < |r| ==> r[i] in r;
    FilterAll(r, p);
  }

  /** Filters with predicates that agree on every element give the same result. */
  lemma {:induction false} FilterExt<T>(s: seq<T>, p: T -> bool, q: T -> bool)
    requires forall i :: 0 <= i < |s| ==> p(s[i]) == q(s[i])
    ensures Filter(s, p) == Filter(s, q)
  {
    if s != [] {
      FilterExt(s[1..], p, q);
    }
  }

  /** Removing by key (`filter(x => x.id !== id)`) keeps, in order, exactly the elements with
      another key; removing a key no element has changes nothing. */
  lemma WithoutKeySpec<T, K>(s: seq<T>, key: T -> K, k: K)
    ensures IsSubsequence(WithoutKey(s, key, k), s)
    ensures forall i :: 0 <= i < |WithoutKey(s, key, k)| ==> key(WithoutKey(s, key, k)[i]) != k
    ensures forall i :: 0 <= i < |s| && key(s[i]) != k ==> s[i] in WithoutKey(s, key, k)
    ensures (forall i :: 0 <= i < |s| ==> key(s[i]) != k) ==> WithoutKey(s, key, k) == s
  {
    FilterIsSubsequence(s, KeyIsNot(key, k));
    if forall i :: 0 <= i < |s| ==> key(s[i]) != k {
      FilterAll(s, KeyIsNot(key, k));
    }
  }

  /** A filter and its complement split a sequence: no element is lost or duplicated. */
  lemma {:induction false} FilterSplit<T>(s: seq<T>, p: T -> bool)
    ensures multiset(Filter(s, p)) + multiset(Filter(s, Not(p))) == multiset(s)
    ensures |Filter(s, p)| + |Filter(s, Not(p))| == |s|
  {
    if s != [] {
      FilterSplit(s[1..], p);
      assert s == [s[0]] + s[1..];
    }
  }

  /** Three filters of which each element satisfies exactly one split a sequence. */
  lemma FilterPartition3<T>(s: seq<T>, p: T -> bool, q: T -> bool, r: T -> bool)
    requires forall i :: 0 <= i < |s| ==>
      (p(s[i]) && !q(s[i]) && !r(s[i])) || (!p(s[i]) && q(s[i]) && !r(s[i])) || (!p(s[i]) && !q(s[i]) && r(s[i]))
    ensures multiset(Filter(s, p)) + multiset(Filter(s, q)) + multiset(Filter(s, r)) == multiset(s)
  {
    FilterSplit(s, p);
    FilterRestSplit(s, p, q, r);
  }

  /** What the first of three exclusive filters leaves is split by the other two. */
  lemma FilterRestSplit<T>(s: seq<T>, p: T -> bool, q: T -> bool, r: T -> bool)
    requires forall i :: 0 <= i < |s| ==>
      (p(s[i]) && !q(s[i]) && !r(s[i])) || (!p(s[i]) && q(s[i]) && !r(s[i])) || (!p(s[i]) && !q(s[i]) && r(s[i]))
    ensures multiset(Filter(s, Not(p))) == multiset(Filter(s, q)) + multiset(Filter(s, r))
  {
    var rest := Filter(s, Not(p));
    FilterSplit(rest, q);
    FilterFilter(s, Not(p), q);
    FilterFilter(s, Not(p), Not(q));
    forall i | 0 <= i < |s|
      ensures Both(Not(p), q)(s[i]) == q(s[i]) && Both(Not(p), Not(q))(s[i]) == r(s[i])
    {
      assert Not(p)(s[i]) == !p(s[i]);
      assert Not(q)(s[i]) == !q(s[i]);
    }
    FilterExt(s, Both(Not(p), q), q);
    FilterExt(s, Both(Not(p), Not(q)), r);
  }

  /** No two elements share a key. */
  ghost predicate UniqueKeys<T, K>(s: seq<T>, key: T -> K) {
    forall i, j :: 0 <= i < j < |s| ==> key(s[i]) != key(s[j])
  }

  // ---------------------------------------------------------------------------
  // Stable sorting (Array.prototype.sort is stable since ES2019)
  // ---------------------------------------------------------------------------

  /** Inserts `x` before the first element that does not strictly precede it. */
  function Insert<T>(x: T, s: seq<T>, lt: (T, T) -> bool): (r: seq<T>)
    ensures multiset(r) == multiset(s) + multiset{x}
  {
    if s == [] then [x]
    else
      assert s == [s[0]] + s[1..];
      if lt(s[0], x) then [s[0]] + Insert(x, s[1..], lt) else [x] + s
  }

  /** `x` goes after a prefix whose every element strictly precedes it, and before the
      rest when the rest starts with an element that does not. */
  lemma {:induction false} InsertAfterPrefix<T>(x: T, a: seq<T>, b: seq<T>, lt: (T, T) -> bool)
    requires forall i :: 0 <= i < |a| ==> lt(a[i], x)
    requires b == [] || !lt(b[0], x)
    ensures Insert(x, a + b, lt) == a + [x] + b
  {
    if a == [] {
      assert a + b == b;
    } else {
      var ab := a + b;
      assert ab[0] == a[0] && ab[1..] == a[1..] + b;
      InsertAfterPrefix(x, a[1..], b, lt);
      assert Insert(x, ab, lt) == [a[0]] + Insert(x, a[1..] + b, lt);
      assert a == [a[0]] + a[1..];
      ConcatAssoc([a[0]], a[1..], [x]);
      ConcatAssoc([a[0]], a[1..] + [x], b);
    }
  }

  lemma ConcatAssoc<T>(a: seq<T>, b: seq<T>, c: seq<T>)
    ensures a + b + c == a + (b + c)
  {
  }

  /** Insertion sort: each element is placed ahead of every later element it ties with,
      which is what a stable sort with comparator `c` does when `lt(a, b)` means `c(a, b) < 0`. */
  function SortBy<T>(s: seq<T>, lt: (T, T) -> bool): (r: seq<T>)
    ensures multiset(r) == multiset(s)
  {
    if s == [] then []
    else
      assert s == [s[0]] + s[1..];
      Insert(s[0], SortBy(s[1..], lt), lt)
  }

  /** A comparator that only puts the elements satisfying `p` ahead of the others sorts
      them into two blocks, each in its original order. */
  lemma {:induction false} TwoGroupSort<T>(s: seq<T>, p: T -> bool, lt: (T, T) -> bool)
    requires forall a, b :: lt(a, b) <==> p(a) && !p(b)
    ensures SortBy(s, lt) == Filter(s, p) + Filter(s, Not(p))
  {
    if s != [] {
      var x := s[0];
      TwoGroupSort(s[1..], p, lt);
      var f, n := Filter(s[1..], p), Filter(s[1..], Not(p));
      assert SortBy(s, lt) == Insert(x, f + n, lt);
      if p(x) {
        TwoGroupInsertFirst(x, f, n, p, lt);
        assert Filter(s, p) == [x] + f;
        assert Filter(s, Not(p)) == n;
      } else {
        TwoGroupInsertSecond(x, f, n, p, lt);
        assert Filter(s, p) == f;
        assert Filter(s, Not(p)) == [x] + n;
      }
    }
  }

  /** An element of the first block goes in front. */
  lemma TwoGroupInsertFirst<T>(x: T, f: seq<T>, n: seq<T>, p: T -> bool, lt: (T, T) -> bool)
    requires forall a, b :: lt(a, b) <==> p(a) && !p(b)
    requires p(x)
    ensures Insert(x, f + n, lt) == ([x] + f) + n
  {
    if f + n != [] {
      assert !lt((f + n)[0], x);
    }
    ConcatAssoc([x], f, n);
  }

  /** An element of the second block goes behind the first block. */
  lemma TwoGroupInsertSecond<T>(x: T, f: seq<T>, n: seq<T>, p: T -> bool, lt: (T, T) -> bool)
    requires forall a, b :: lt(a, b) <==> p(a) && !p(b)
    requires !p(x)
    requires forall i :: 0 <= i < |f| ==> p(f[i])
    requires forall i :: 0 <= i < |n| ==> !p(n[i])
    ensures Insert(x, f + n, lt) == f + ([x] + n)
  {
    assert forall i :: 0 <= i < |f| ==> lt(f[i], x);
    InsertAfterPrefix(x, f, n, lt);
    ConcatAssoc(f, [x], n);
  }

  /** No later element strictly precedes an earlier one. */
  ghost predicate SortedBy<T>(s: seq<T>, lt: (T, T) -> bool) {
    forall i, j :: 0 <= i < j < |s| ==> !lt(s[j], s[i])
  }

  /** What a comparator needs for sorting to be meaningful: irreflexive, asymmetric and
      with a transitive complement. */
  ghost predicate StrictWeakOrder<T(!new)>(lt: (T, T) -> bool) {
    && (forall a :: !lt(a, a))
    && (forall a, b :: lt(a, b) ==> !lt(b, a))
    && (forall a, b, c :: lt(a, c) ==> lt(a, b) || lt(b, c))
  }

  /** Every element of the result is `x` or an element of `s`. */
  lemma {:induction false} InsertFrom<T>(x: T, s: seq<T>, lt: (T, T) -> bool)
    ensures forall k :: 0 <= k < |Insert(x, s, lt)| ==> Insert(x, s, lt)[k] == x || Insert(x, s, lt)[k] in s
  {
    if s != [] && lt(s[0], x) {
      InsertFrom(x, s[1..], lt);
      var r := Insert(x, s[1..], lt);
      assert Insert(x, s, lt) == [s[0]] + r;
      forall k | 1 <= k < |r| + 1
        ensures ([s[0]] + r)[k] == x || ([s[0]] + r)[k] in s
      {
        assert ([s[0]] + r)[k] == r[k - 1];
      }
    }
  }

  lemma {:induction false} InsertSorted<T(!new)>(x: T, s: seq<T>, lt: (T, T) -> bool)
    requires StrictWeakOrder(lt)
    requires SortedBy(s, lt)
    ensures SortedBy(Insert(x, s, lt), lt)
  {
    if s != [] {
      if lt(s[0], x) {
        InsertSorted(x, s[1..], lt);
        var r := Insert(x, s[1..], lt);
        InsertFrom(x, s[1..], lt);
        forall k | 0 <= k < |r|
          ensures !lt(r[k], s[0])
        {
          if r[k] != x {
            var m :| 0 <= m < |s[1..]| && s[1..][m] == r[k];
            assert s[m + 1] == r[k];
          }
        }
      } else {
        forall k | 0 <= k < |s|
          ensures !lt(s[k], x)
        {
          if k > 0 {
            assert !lt(s[k], s[0]);
          }
        }
      }
    }
  }

  lemma {:induction false} SortBySorted<T(!new)>(s: seq<T>, lt: (T, T) -> bool)
    requires StrictWeakOrder(lt)
    ensures SortedBy(SortBy(s, lt), lt)
  {
    if s != [] {
      SortBySorted(s[1..], lt);
      InsertSorted(s[0], SortBy(s[1..], lt), lt);
    }
  }

  /** Sorting never makes two elements share a key. */
  lemma {:induction false} InsertKeepsUniqueKeys<T, K>(x: T, s: seq<T>, lt: (T, T) -> bool, key: T -> K)
    requires UniqueKeys(s, key)
    requires forall i :: 0 <= i < |s| ==> key(s[i]) != key(x)
    ensures UniqueKeys(Insert(x, s, lt), key)
  {
    if s != [] && lt(s[0], x) {
      InsertKeepsUniqueKeys(x, s[1..], lt, key);
      InsertFrom(x, s[1..], lt);
      var r := Insert(x, s[1..], lt);
      forall k | 0 <= k < |r|
        ensures key(r[k]) != key(s[0])
      {
        if r[k] != x {
          var m :| 0 <= m < |s[1..]| && s[1..][m] == r[k];
          assert s[m + 1] == r[k];
        }
      }
      assert Insert(x, s, lt) == [s[0]] + r;
    }
  }

  lemma {:induction false} SortByKeepsUniqueKeys<T, K>(s: seq<T>, lt: (T, T) -> bool, key: T -> K)
    requires UniqueKeys(s, key)
    ensures UniqueKeys(SortBy(s, lt), key)
  {
    if s != [] {
      SortByKeepsUniqueKeys(s[1..], lt, key);
      var r := SortBy(s[1..], lt);
      forall k | 0 <= k < |r|
        ensures key(r[k]) != key(s[0])
      {
        assert r[k] in multiset(r);
        var m :| 0 <= m < |s[1..]| && s[1..][m] == r[k];
        assert s[m + 1] == r[k];
      }
      InsertKeepsUniqueKeys(s[0], r, lt, key);
    }
  }

  /** Rearranging a sequence does not change how many of its elements pass a filter. */
  lemma {:induction false} FilterCountPerm<T>(a: seq<T>, b: seq<T>, p: T -> bool)
    requires multiset(a) == multiset(b)
    ensures |Filter(a, p)| == |Filter(b, p)|
    decreases |a|
  {
    if a != [] {
      assert a[0] in multiset(b);
      var k :| 0 <= k < |b| && b[k] == a[0];
      var rest := b[..k] + b[k + 1..];
      assert b == b[..k] + [b[k]] + b[k + 1..];
      assert a == [a[0]] + a[1..];
      assert multiset(a[1..]) == multiset(a) - multiset{a[0]};
      assert multiset(rest) == multiset(b) - multiset{a[0]};
      FilterCountPerm(a[1..], rest, p);
      FilterAppend([a[0]], a[1..], p);
      FilterAppend(b[..k] + [b[k]], b[k + 1..], p);
      FilterAppend(b[..k], [b[k]], p);
      FilterAppend(b[..k], b[k + 1..], p);
      FilterSingleton(a[0], p);
    }
  }

  /** Filtering a sorted sequence leaves it sorted. */
  lemma {:induction false} FilterSorted<T>(s: seq<T>, p: T -> bool, lt: (T, T) -> bool)
    requires SortedBy(s, lt)
    ensures SortedBy(Filter(s, p), lt)
  {
    if s != [] {
      assert SortedBy(s[1..], lt) by {
        forall i, j | 0 <= i < j < |s[1..]|
          ensures !lt(s[1..][j], s[1..][i])
        {
          assert s[1..][j] == s[j + 1] && s[1..][i] == s[i + 1];
        }
      }
      FilterSorted(s[1..], p, lt);
      var f := Filter(s[1..], p);
      if p(s[0]) {
        forall j | 0 <= j < |f|
          ensures !lt(f[j], s[0])
        {
          var m :| 0 <= m < |s[1..]| && s[1..][m] == f[j];
          assert s[m + 1] == f[j];
        }
        assert Filter(s, p) == [s[0]] + f;
        assert SortedBy([s[0]] + f, lt) by {
          forall i, j | 0 <= i < j < |[s[0]] + f|
            ensures !lt(([s[0]] + f)[j], ([s[0]] + f)[i])
          {
            if i > 0 {
              assert ([s[0]] + f)[j] == f[j - 1] && ([s[0]] + f)[i] == f[i - 1];
            } else {
              assert ([s[0]] + f)[j] == f[j - 1];
            }
          }
        }
      } else {
        assert Filter(s, p) == f;
      }
    }
  }

  /** `slice(0, n)`. */
  function Take<T>(s: seq<T>, n: nat): (r: seq<T>)
    ensures |r| == if |s| <= n then |s| else n
    ensures r <= s
  {
    if |s| <= n then s else s[..n]
  }
}
