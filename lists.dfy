/**
  The JavaScript array operations the storefront builds its list transforms
  from: `filter`, `slice`, a stable `sort` driven by a comparator of the form
  `key(a) - key(b)`, and "distinct values in first-occurrence order"
  (`[...new Set(xs)]`). Each is given with an independent characterisation.
*/
module Lists {

  /** `a` is obtained from `b` by deleting elements: order is kept. */
  ghost predicate IsSubsequence<T>(a: seq<T>, b: seq<T>)
    decreases |b|
  {
    a == [] ||
    (b != [] && ((a[0] == b[0] && IsSubsequence(a[1..], b[1..])) || IsSubsequence(a, b[1..])))
  }

  predicate NoDuplicates<T(==,!new)>(s: seq<T>) {
    forall i, j :: 0 <= i < j < |s| ==> s[i] != s[j]
  }

  lemma {:induction false} SubsequenceNoDuplicates<T(!new)>(a: seq<T>, b: seq<T>)
    requires IsSubsequence(a, b) && NoDuplicates(b)
    ensures NoDuplicates(a)
    decreases |b|
  {
    if a != [] {
      assert forall x :: x in b[1..] ==> x in b;
      if a[0] == b[0] && IsSubsequence(a[1..], b[1..]) {
        SubsequenceNoDuplicates(a[1..], b[1..]);
        SubsequenceMembers(a[1..], b[1..]);
        forall j | 0 < j < |a| ensures a[0] != a[j] {
          assert a[j] in a[1..];
          var m :| 0 <= m < |b[1..]| && b[1..][m] == a[j];
        }
      } else {
        SubsequenceNoDuplicates(a, b[1..]);
      }
    }
  }

  lemma {:induction false} SubsequenceMembers<T>(a: seq<T>, b: seq<T>)
    requires IsSubsequence(a, b)
    ensures forall x :: x in a ==> x in b
    decreases |b|
  {
    if a != [] {
      if a[0] == b[0] && IsSubsequence(a[1..], b[1..]) {
        SubsequenceMembers(a[1..], b[1..]);
        assert forall x :: x in a ==> x == a[0] || x in a[1..];
      } else {
        SubsequenceMembers(a, b[1..]);
      }
    }
  }

  /** `Array.prototype.filter`. */
  function Filter<T(==,!new)>(s: seq<T>, p: T -> bool): (r: seq<T>)
    ensures |r| <= |s|
    ensures forall x :: x in r <==> x in s && p(x)
    ensures forall x :: multiset(r)[x] == if p(x) then multiset(s)[x] else 0
  {
    if s == [] then []
    else
      assert s == [s[0]] + s[1..];
      if p(s[0]) then [s[0]] + Filter(s[1..], p) else Filter(s[1..], p)
  }

  lemma {:induction false} FilterIsSubsequence<T(!new)>(s: seq<T>, p: T -> bool)
    ensures IsSubsequence(Filter(s, p), s)
  {
    if s != [] {
      FilterIsSubsequence(s[1..], p);
      var r := Filter(s, p);
      if !p(s[0]) && r != [] {
        assert p(r[0]);
      }
    }
  }

  /** Filtering with a predicate every element satisfies changes nothing. */
  lemma {:induction false} FilterKeepsAll<T(!new)>(s: seq<T>, p: T -> bool)
    requires forall x :: x in s ==> p(x)
    ensures Filter(s, p) == s
  {
    if s != [] {
      assert forall x :: x in s[1..] ==> x in s;
      FilterKeepsAll(s[1..], p);
    }
  }

  /** Filtering with two predicates that agree everywhere gives the same list. */
  lemma {:induction false} FilterCongruent<T(!new)>(s: seq<T>, p: T -> bool, q: T -> bool)
    requires forall x :: p(x) == q(x)
    ensures Filter(s, p) == Filter(s, q)
  {
    if s != [] {
      FilterCongruent(s[1..], p, q);
    }
  }

  /** The relative index an `Array.prototype.slice` bound denotes: a negative
      bound counts back from the end, and the result is clamped to `[0, len]`. */
  function SliceBound(i: int, len: nat): (r: nat)
    ensures r <= len
    ensures 0 <= i <= len ==> r == i
    ensures i > len ==> r == len
  {
    if i < 0 then (if len + i < 0 then 0 else len + i)
    else if i < len then i
    else len
  }

  /** `Array.prototype.slice(start, end)`. */
  function Slice<T>(s: seq<T>, start: int, end: int): (r: seq<T>)
    ensures |r| <= |s|
    ensures 0 <= start <= end <= |s| ==> r == s[start..end]
    ensures 0 <= start <= |s| <= end ==> r == s[start..]
    ensures |s| <= start ==> r == []
  {
    var from := SliceBound(start, |s|);
    var to := SliceBound(end, |s|);
    if from < to then s[from..to] else []
  }

  /** The distinct elements of `s` in the order of their first occurrence,
      as `[...new Set(s)]` yields them. */
  function Distinct<T(==,!new)>(s: seq<T>): (r: seq<T>)
    ensures forall x :: x in r <==> x in s
    ensures NoDuplicates(r)
  {
    if s == [] then []
    else
      var init := Distinct(s[..|s| - 1]);
      var last := s[|s| - 1];
      assert s == s[..|s| - 1] + [last];
      if last in s[..|s| - 1] then init else init + [last]
  }

  /** First-occurrence order: wherever a later element of `Distinct(s)`
      occurs in `s`, every earlier one has already occurred. */
  lemma {:induction false} DistinctFirstOccurrenceOrder<T(!new)>(s: seq<T>)
    ensures forall i, j, k :: 0 <= i < j < |Distinct(s)| && 0 <= k < |s| && s[k] == Distinct(s)[j] ==>
              Distinct(s)[i] in s[..k]
  {
    if s != [] {
      var n := |s|;
      var init, last := s[..n - 1], s[n - 1];
      DistinctFirstOccurrenceOrder(init);
      var r, r' := Distinct(s), Distinct(init);
      forall i, j, k | 0 <= i < j < |r| && 0 <= k < n && s[k] == r[j]
        ensures r[i] in s[..k]
      {
        assert r[i] in r' && r[i] in init;
        if k < n - 1 {
          assert s[k] == init[k];
          if j < |r'| {
            assert r[j] == r'[j] && r[i] == r'[i];
            assert init[..k] == s[..k];
          } else {
            assert false;
          }
        } else {
          assert init == s[..k];
        }
      }
    }
  }

  /** Sorted for the comparator `(a, b) => key(a) - key(b)`. */
  predicate SortedByKey<T>(s: seq<T>, key: T -> real) {
    forall i, j :: 0 <= i < j < |s| ==> key(s[i]) <= key(s[j])
  }

  /** Inserts `x` after every element whose key does not exceed its own, so
      that among equal keys the element inserted last stays last. */
  function InsertByKey<T(==,!new)>(sorted: seq<T>, x: T, key: T -> real): (r: seq<T>)
    ensures |r| == |sorted| + 1
    ensures forall y :: y in r <==> y in sorted || y == x
    ensures multiset(r) == multiset(sorted) + multiset{x}
  {
    if sorted == [] then [x]
    else
      var n := |sorted|;
      assert sorted == sorted[..n - 1] + [sorted[n - 1]];
      if key(sorted[n - 1]) <= key(x) then sorted + [x]
      else InsertByKey(sorted[..n - 1], x, key) + [sorted[n - 1]]
  }

  lemma {:induction false} InsertByKeyKeepsSorted<T(!new)>(sorted: seq<T>, x: T, key: T -> real)
    requires SortedByKey(sorted, key)
    ensures SortedByKey(InsertByKey(sorted, x, key), key)
  {
    if sorted != [] {
      var n := |sorted|;
      var init, last := sorted[..n - 1], sorted[n - 1];
      if key(x) < key(last) {
        InsertByKeyKeepsSorted(init, x, key);
        var r' := InsertByKey(init, x, key);
        forall y | y in r' ensures key(y) <= key(last) {
          if y != x {
            var m :| 0 <= m < |init| && init[m] == y;
            assert sorted[m] == y;
          }
        }
        AppendLargestKeepsSorted(r', last, key);
      } else {
        AppendLargestKeepsSorted(sorted, x, key);
      }
    }
  }

  /** Appending an element whose key is at least every other key keeps a
      list sorted. */
  lemma AppendLargestKeepsSorted<T>(s: seq<T>, y: T, key: T -> real)
    requires SortedByKey(s, key)
    requires forall z :: z in s ==> key(z) <= key(y)
    ensures SortedByKey(s + [y], key)
  {
    var r := s + [y];
    forall i, j | 0 <= i < j < |r| ensures key(r[i]) <= key(r[j]) {
      assert r[i] == s[i];
      if j == |s| {
        assert s[i] in s;
      } else {
        assert r[j] == s[j];
      }
    }
  }

  /** The ES2019 stable `Array.prototype.sort` with comparator `key(a) - key(b)`;
      stability is `SortIsStable`. */
  function SortByKey<T(==,!new)>(s: seq<T>, key: T -> real): (r: seq<T>)
    ensures SortedByKey(r, key)
    ensures multiset(r) == multiset(s)
  {
    if s == [] then []
    else
      assert s == s[..|s| - 1] + [s[|s| - 1]];
      var init := SortByKey(s[..|s| - 1], key);
      InsertByKeyKeepsSorted(init, s[|s| - 1], key);
      InsertByKey(init, s[|s| - 1], key)
  }

  /** A comparator that answers 0 for every pair leaves the order unchanged. */
  lemma {:induction false} SortByConstantKeyKeepsOrder<T(!new)>(s: seq<T>, key: T -> real, c: real)
    requires forall x :: key(x) == c
    ensures SortByKey(s, key) == s
  {
    if s != [] {
      var n := |s|;
      var init, x := s[..n - 1], s[n - 1];
      SortByConstantKeyKeepsOrder(init, key, c);
      if n > 1 {
        assert key(init[n - 2]) <= key(x);
      }
      LastSplit(s);
    }
  }

  /** Filtering a list is filtering its head, then its tail. */
  lemma FilterCons<T(!new)>(x: T, t: seq<T>, p: T -> bool)
    ensures Filter([x] + t, p) == if p(x) then [x] + Filter(t, p) else Filter(t, p)
  {
    assert ([x] + t)[1..] == t;
  }

  lemma FilterSingle<T(!new)>(x: T, p: T -> bool)
    ensures Filter([x], p) == if p(x) then [x] else []
  {
    assert [x][1..] == [];
  }

  lemma ConcatAssoc<T>(a: seq<T>, b: seq<T>, c: seq<T>)
    ensures a + (b + c) == (a + b) + c
  {
  }

  /** Filtering distributes over concatenation. */
  lemma {:induction false} FilterAppend<T(!new)>(a: seq<T>, b: seq<T>, p: T -> bool)
    ensures Filter(a + b, p) == Filter(a, p) + Filter(b, p)
  {
    if a == [] {
      assert a + b == b;
      assert Filter(a, p) == [];
      assert [] + Filter(b, p) == Filter(b, p);
    } else {
      var x, a' := a[0], a[1..];
      assert a == [x] + a';
      assert a + b == [x] + (a' + b);
      FilterAppend(a', b, p);
      FilterCons(x, a' + b, p);
      FilterCons(x, a', p);
      var head := if p(x) then [x] else [];
      assert Filter(a + b, p) == head + (Filter(a', p) + Filter(b, p));
      assert Filter(a, p) == head + Filter(a', p);
      ConcatAssoc(head, Filter(a', p), Filter(b, p));
    }
  }

  /** The elements whose key is `k`. */
  function HasKey<T>(key: T -> real, k: real): T -> bool {
    (x: T) => key(x) == k
  }

  /** Inserting `x` puts it after every element of its own key and leaves
      the elements of each key in their order. */
  lemma {:induction false} InsertByKeyStable<T(!new)>(sorted: seq<T>, x: T, key: T -> real, k: real)
    ensures Filter(InsertByKey(sorted, x, key), HasKey(key, k))
            == Filter(sorted, HasKey(key, k)) + Filter([x], HasKey(key, k))
  {
    var p := HasKey(key, k);
    if sorted == [] {
      assert InsertByKey(sorted, x, key) == [x];
      assert Filter(sorted, p) == [];
      assert [] + Filter([x], p) == Filter([x], p);
    } else {
      var n := |sorted|;
      var init, last := sorted[..n - 1], sorted[n - 1];
      LastSplit(sorted);
      if key(last) <= key(x) {
        assert InsertByKey(sorted, x, key) == sorted + [x];
        FilterAppend(sorted, [x], p);
      } else {
        var r := InsertByKey(init, x, key);
        assert InsertByKey(sorted, x, key) == r + [last];
        InsertByKeyStable(init, x, key, k);
        InsertBeforeLastStable(init, last, r, x, p);
      }
    }
  }

  /** The step of `InsertByKeyStable` where `x` goes before `last`: when at
      most one of the two is kept, the kept elements come out in the same
      order either way. */
  lemma InsertBeforeLastStable<T(!new)>(init: seq<T>, last: T, r: seq<T>, x: T, p: T -> bool)
    requires Filter(r, p) == Filter(init, p) + Filter([x], p)
    requires p(x) ==> !p(last)
    ensures Filter(r + [last], p) == Filter(init + [last], p) + Filter([x], p)
  {
    FilterAppend(r, [last], p);
    FilterAppend(init, [last], p);
    FilterSingle(x, p);
    FilterSingle(last, p);
    SwapPastEmpty(Filter(r, p), Filter(init, p), Filter([x], p), Filter([last], p));
  }

  /** `a + b` followed by `c` is `a + c` followed by `b` when `b` or `c` is empty. */
  lemma SwapPastEmpty<T>(ab: seq<T>, a: seq<T>, b: seq<T>, c: seq<T>)
    requires ab == a + b
    requires b == [] || c == []
    ensures ab + c == (a + c) + b
  {
  }

  /** Stability: the elements of any one key appear in the sorted list in
      the order they had in the input. */
  lemma {:induction false} SortIsStable<T(!new)>(s: seq<T>, key: T -> real, k: real)
    ensures Filter(SortByKey(s, key), HasKey(key, k)) == Filter(s, HasKey(key, k))
  {
    if s != [] {
      var init, x := s[..|s| - 1], s[|s| - 1];
      SortIsStable(init, key, k);
      InsertByKeyStable(SortByKey(init, key), x, key, k);
      LastSplit(s);
      FilterAppend(init, [x], HasKey(key, k));
    }
  }

  lemma LastSplit<T>(s: seq<T>)
    requires s != []
    ensures s[..|s| - 1] + [s[|s| - 1]] == s
  {
  }
}
