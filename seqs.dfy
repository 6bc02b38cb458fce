/** Sequence operations that stand for the SQL clauses of the store:
  * WHERE (Filter), ORDER BY (SortBy) and LIMIT (a prefix). */
module Seqs {
  import opened Wrappers

  /** The elements of `s` that satisfy `keep`, in their original order. */
  function Filter<T(!new)>(s: seq<T>, keep: T -> bool): (r: seq<T>)
    ensures |r| <= |s|
    ensures forall x :: x in r <==> x in s && keep(x)
  {
    if s == [] then []
    else if keep(s[0]) then [s[0]] + Filter(s[1..], keep)
    else Filter(s[1..], keep)
  }

  /** `r` is obtained from `s` by deleting elements, keeping the order of the rest. */
  ghost predicate IsSubsequence<T>(r: seq<T>, s: seq<T>)
    decreases |s|
  {
    if r == [] then true
    else if s == [] then false
    else (r[0] == s[0] && IsSubsequence(r[1..], s[1..])) || IsSubsequence(r, s[1..])
  }

  lemma {:induction false} FilterIsSubsequence<T(!new)>(s: seq<T>, keep: T -> bool)
    ensures IsSubsequence(Filter(s, keep), s)
    decreases |s|
  {
    if s != [] {
      FilterIsSubsequence(s[1..], keep);
      if !keep(s[0]) {
        SkipHead(Filter(s[1..], keep), s);
      }
    }
  }

  lemma {:induction false} SkipHead<T>(r: seq<T>, s: seq<T>)
    requires s != [] && IsSubsequence(r, s[1..])
    ensures IsSubsequence(r, s)
  {
  }

  /** A filter that keeps every element returns the sequence unchanged. */
  lemma {:induction false} FilterKeepsAll<T(!new)>(s: seq<T>, keep: T -> bool)
    requires forall x :: x in s ==> keep(x)
    ensures Filter(s, keep) == s
    decreases |s|
  {
    if s != [] {
      assert forall x :: x in s[1..] ==> x in s;
      FilterKeepsAll(s[1..], keep);
      assert [s[0]] + s[1..] == s;
    }
  }

  /** Filtering the concatenation is concatenating the filtered parts. */
  lemma {:induction false} FilterAppend<T(!new)>(a: seq<T>, b: seq<T>, keep: T -> bool)
    ensures Filter(a + b, keep) == Filter(a, keep) + Filter(b, keep)
    decreases |a|
  {
    if a != [] {
      assert (a + b)[1..] == a[1..] + b;
      FilterAppend(a[1..], b, keep);
    } else {
      assert a + b == b;
    }
  }

  /** Keys never decrease along `s`. */
  predicate SortedBy<T>(s: seq<T>, key: T -> int)
  {
    forall i, j :: 0 <= i < j < |s| ==> key(s[i]) <= key(s[j])
  }

  /** Keys strictly increase along `s` (so no key occurs twice). */
  predicate IncreasingBy<T>(s: seq<T>, key: T -> int)
  {
    forall i, j :: 0 <= i < j < |s| ==> key(s[i]) < key(s[j])
  }

  /** Inserts `x` before the first element whose key is not smaller than its own. */
  function Insert<T>(x: T, s: seq<T>, key: T -> int): (r: seq<T>)
    requires SortedBy(s, key)
    ensures |r| == |s| + 1 && multiset(r) == multiset(s) + multiset{x}
    ensures r[0] == x || (s != [] && r[0] == s[0])
    ensures SortedBy(r, key)
  {
    if s == [] || key(x) <= key(s[0]) then
      ConsSorted(x, s, key);
      [x] + s
    else
      var rest := Insert(x, s[1..], key);
      InsertStep(x, s, rest, key);
      [s[0]] + rest
  }

  /** The recursive step of `Insert`: the head of `s` goes back in front of the insertion
    * into the tail. */
  lemma InsertStep<T>(x: T, s: seq<T>, rest: seq<T>, key: T -> int)
    requires s != [] && key(s[0]) < key(x) && SortedBy(s, key)
    requires |rest| == |s| && multiset(rest) == multiset(s[1..]) + multiset{x}
    requires rest[0] == x || (|s| > 1 && rest[0] == s[1])
    requires SortedBy(rest, key)
    ensures multiset([s[0]] + rest) == multiset(s) + multiset{x}
    ensures SortedBy([s[0]] + rest, key)
  {
    assert s == [s[0]] + s[1..];
    ConsSorted(s[0], rest, key);
  }

  /** An element no larger than the head of a sorted sequence can be put in front of it. */
  lemma ConsSorted<T>(y: T, s: seq<T>, key: T -> int)
    requires SortedBy(s, key) && (s != [] ==> key(y) <= key(s[0]))
    ensures SortedBy([y] + s, key)
  {
    forall i, j | 0 <= i < j < |[y] + s|
      ensures key(([y] + s)[i]) <= key(([y] + s)[j])
    {
      assert ([y] + s)[j] == s[j - 1];
      if i > 0 {
        assert ([y] + s)[i] == s[i - 1];
      }
    }
  }

  /** Stable insertion sort by ascending key: a permutation of `s` that is sorted. */
  function SortBy<T>(s: seq<T>, key: T -> int): (r: seq<T>)
    ensures |r| == |s| && multiset(r) == multiset(s)
    ensures SortedBy(r, key)
  {
    if s == [] then []
    else
      assert s == [s[0]] + s[1..];
      Insert(s[0], SortBy(s[1..], key), key)
  }

  lemma SortByMembers<T>(s: seq<T>, key: T -> int, x: T)
    ensures x in SortBy(s, key) <==> x in s
  {
    var r := SortBy(s, key);
    assert x in r <==> x in multiset(r);
    assert x in s <==> x in multiset(s);
  }

  /** The first `n` elements of `s`, or all of them when there are fewer (SQL LIMIT, Array.slice(0, n)). */
  function Take<T>(s: seq<T>, n: nat): (r: seq<T>)
    ensures |r| <= n && |r| <= |s|
    ensures |s| <= n ==> r == s
    ensures n <= |s| ==> |r| == n
    ensures forall i :: 0 <= i < |r| ==> r[i] == s[i]
    ensures multiset(r) <= multiset(s)
  {
    if |s| <= n then s
    else
      assert s == s[..n] + s[n..];
      s[..n]
  }

  /** An element `Take` leaves out sits at or past position `n`, so `n` elements were kept. */
  lemma TakeLeavesOut<T>(s: seq<T>, n: nat, x: T) returns (k: nat)
    requires x in s && x !in Take(s, n)
    ensures |Take(s, n)| == n && n <= k < |s| && s[k] == x
  {
    k :| 0 <= k < |s| && s[k] == x;
    var r := Take(s, n);
    assert forall i :: 0 <= i < |r| ==> r[i] in r && r[i] == s[i];
  }

  /** `ORDER BY key LIMIT n`: the first `n` elements of `s` sorted by key. The rows kept
    * are sorted, come from `s`, and a row of `s` is left out only when `n` rows no larger
    * were kept. */
  function SortTake<T>(s: seq<T>, key: T -> int, n: nat): (r: seq<T>)
    ensures |r| == if |s| <= n then |s| else n
    ensures SortedBy(r, key)
    ensures multiset(r) <= multiset(s)
    ensures forall x :: x in s && x !in r ==> |r| == n && forall y :: y in r ==> key(y) <= key(x)
  {
    var sorted := SortBy(s, key);
    var r := Take(sorted, n);
    forall x | x in s && x !in r
      ensures |r| == n && forall y :: y in r ==> key(y) <= key(x)
    {
      assert x in multiset(sorted);
      TakeKeepsSmallest(sorted, key, n, x);
    }
    r
  }

  /** Limiting a sorted sequence keeps its smallest elements: anything dropped is no smaller
    * than everything kept, and is dropped only when the limit is reached. */
  lemma {:induction false} TakeKeepsSmallest<T>(s: seq<T>, key: T -> int, n: nat, x: T)
    requires SortedBy(s, key) && x in s && x !in Take(s, n)
    ensures |Take(s, n)| == n
    ensures forall y :: y in Take(s, n) ==> key(y) <= key(x)
  {
    var k :| 0 <= k < |s| && s[k] == x;
    forall y | y in Take(s, n)
      ensures key(y) <= key(x)
    {
      var j :| 0 <= j < |Take(s, n)| && Take(s, n)[j] == y;
      assert s[j] == y;
    }
  }

  /** Filtering keeps strictly increasing keys strictly increasing. */
  lemma {:induction false} FilterIncreasing<T(!new)>(s: seq<T>, keep: T -> bool, key: T -> int)
    requires IncreasingBy(s, key)
    ensures IncreasingBy(Filter(s, keep), key)
    decreases |s|
  {
    if s != [] {
      assert IncreasingBy(s[1..], key);
      FilterIncreasing(s[1..], keep, key);
      var rest := Filter(s[1..], keep);
      forall y | y in rest
        ensures key(s[0]) < key(y)
      {
        var j :| 0 <= j < |s[1..]| && s[1..][j] == y;
        assert s[j + 1] == y;
      }
    }
  }

  lemma AppendAssoc<T>(a: seq<T>, b: seq<T>, c: seq<T>)
    ensures (a + b) + c == a + (b + c)
  {
  }

  /** Growing a slice of `t` appended to `s` by one element. */
  lemma AppendSlice<T>(s: seq<T>, t: seq<T>, j: nat)
    requires j <= |t|
    ensures j < |t| ==> s + t[..j + 1] == (s + t[..j]) + [t[j]]
    ensures j < |t| ==> t[..j + 1][..j] == t[..j]
    ensures s + t[..0] == s && s + t[..|t|] == s + t
  {
    if j < |t| {
      assert t[..j + 1] == t[..j] + [t[j]];
    }
    assert t[..0] == [] && t[..|t|] == t;
  }

  /** No two elements of `s` share the value of `f` (a UNIQUE column). */
  predicate DistinctBy<T, K(==)>(s: seq<T>, f: T -> K)
  {
    forall i, j :: 0 <= i < j < |s| ==> f(s[i]) != f(s[j])
  }

  /** Filtering keeps a unique column unique. */
  lemma {:induction false} FilterDistinct<T(!new), K>(s: seq<T>, keep: T -> bool, f: T -> K)
    requires DistinctBy(s, f)
    ensures DistinctBy(Filter(s, keep), f)
    decreases |s|
  {
    if s != [] {
      assert DistinctBy(s[1..], f);
      FilterDistinct(s[1..], keep, f);
      var rest := Filter(s[1..], keep);
      forall y | y in rest
        ensures f(s[0]) != f(y)
      {
        var j :| 0 <= j < |s[1..]| && s[1..][j] == y;
        assert s[j + 1] == y;
      }
    }
  }

  /** Appending an element whose value is new keeps a unique column unique. */
  lemma AppendDistinct<T, K>(s: seq<T>, f: T -> K, x: T)
    requires DistinctBy(s, f)
    requires forall i :: 0 <= i < |s| ==> f(s[i]) != f(x)
    ensures DistinctBy(s + [x], f)
  {
    assert forall i :: 0 <= i < |s| ==> (s + [x])[i] == s[i];
  }

  /** Number of elements of `s` that satisfy `p` (SQL COUNT(*) ... WHERE). */
  function Count<T(!new)>(s: seq<T>, p: T -> bool): (n: nat)
    ensures n == |Filter(s, p)|
  {
    if s == [] then 0 else (if p(s[0]) then 1 else 0) + Count(s[1..], p)
  }

  /** The set of keys occurring in `s`. */
  function Keys<T(==)>(s: seq<T>, key: T -> int): set<int>
  {
    set x | x in s :: key(x)
  }

  /** The first element of `s` with key `k` (`SELECT ... WHERE id = ?`). */
  function FindBy<T(==)>(s: seq<T>, key: T -> int, k: int): (r: Option<T>)
    ensures r.Some? ==> r.value in s && key(r.value) == k
    ensures r.None? <==> k !in Keys(s, key)
  {
    if s == [] then None
    else if key(s[0]) == k then Some(s[0])
    else
      var r := FindBy(s[1..], key, k);
      assert Keys(s, key) == {key(s[0])} + Keys(s[1..], key) by {
        forall i | 0 <= i < |s[1..]| ensures s[1..][i] == s[i + 1] { }
        forall i | 0 <= i < |s| && i > 0 ensures key(s[i]) in Keys(s[1..], key) { assert s[i] == s[1..][i - 1]; }
      }
      r
  }

  /** When keys do not repeat, the element found is the only one with that key. */
  lemma FindByUnique<T>(s: seq<T>, key: T -> int, x: T)
    requires IncreasingBy(s, key) && x in s
    ensures FindBy(s, key, key(x)) == Some(x)
  {
    var r := FindBy(s, key, key(x));
    var i :| 0 <= i < |s| && s[i] == x;
    assert key(x) in Keys(s, key);
    var j :| 0 <= j < |s| && s[j] == r.value;
    assert i == j;
  }

  /** `s` with every element of key `k` replaced by `x` (`UPDATE ... WHERE id = ?`). */
  function ReplaceWhere<T(==)>(s: seq<T>, key: T -> int, k: int, x: T): (r: seq<T>)
    ensures |r| == |s|
    ensures forall i :: 0 <= i < |s| ==> r[i] == (if key(s[i]) == k then x else s[i])
  {
    seq(|s|, i requires 0 <= i < |s| => if key(s[i]) == k then x else s[i])
  }

  /** A replacement that keeps the key keeps the keys, and their strict order. */
  lemma ReplaceKeepsKeys<T>(s: seq<T>, key: T -> int, k: int, x: T)
    requires key(x) == k && k in Keys(s, key)
    ensures Keys(ReplaceWhere(s, key, k, x), key) == Keys(s, key)
    ensures IncreasingBy(s, key) ==> IncreasingBy(ReplaceWhere(s, key, k, x), key)
    ensures forall y :: y in ReplaceWhere(s, key, k, x) ==> y == x || y in s
    ensures x in ReplaceWhere(s, key, k, x)
  {
    var r := ReplaceWhere(s, key, k, x);
    var m :| m in s && key(m) == k;
    var n :| 0 <= n < |s| && s[n] == m;
    assert r[n] == x;
    forall y | y in r ensures y == x || y in s {
      var i :| 0 <= i < |r| && r[i] == y;
    }
    forall i | 0 <= i < |s| ensures key(r[i]) == key(s[i]) { }
    assert Keys(r, key) == Keys(s, key) by {
      forall j | j in Keys(r, key) ensures j in Keys(s, key) {
        var i :| 0 <= i < |r| && key(r[i]) == j;
        assert key(s[i]) == j;
      }
      forall j | j in Keys(s, key) ensures j in Keys(r, key) {
        var i :| 0 <= i < |s| && key(s[i]) == j;
        assert key(r[i]) == j;
      }
    }
  }

  /** Appending an element whose key exceeds every key present keeps keys strictly increasing. */
  lemma AppendIncreasing<T>(s: seq<T>, key: T -> int, x: T)
    requires IncreasingBy(s, key)
    requires forall i :: 0 <= i < |s| ==> key(s[i]) < key(x)
    ensures IncreasingBy(s + [x], key)
    ensures Keys(s + [x], key) == Keys(s, key) + {key(x)}
  {
    var r := s + [x];
    assert forall i :: 0 <= i < |s| ==> r[i] == s[i];
    assert Keys(r, key) == Keys(s, key) + {key(x)} by {
      forall j | j in Keys(r, key) ensures j in Keys(s, key) + {key(x)} {
        var i :| 0 <= i < |r| && key(r[i]) == j;
      }
      forall j | j in Keys(s, key) ensures j in Keys(r, key) {
        var i :| 0 <= i < |s| && key(s[i]) == j;
        assert key(r[i]) == j;
      }
      assert key(r[|s|]) == key(x);
    }
  }

  /** No element occurs twice in `s`: the rows of a query are distinct rows. */
  ghost predicate NoRepeats<T(!new)>(s: seq<T>)
  {
    forall x :: multiset(s)[x] <= 1
  }

  /** Strictly increasing keys (a primary key) mean no row occurs twice. */
  lemma {:induction false} IncreasingNoRepeats<T(!new)>(s: seq<T>, key: T -> int)
    requires IncreasingBy(s, key)
    ensures NoRepeats(s)
    decreases |s|
  {
    if s != [] {
      assert IncreasingBy(s[1..], key);
      IncreasingNoRepeats(s[1..], key);
      assert s == [s[0]] + s[1..];
      assert s[0] !in s[1..] by {
        forall j | 0 <= j < |s[1..]| ensures s[1..][j] != s[0] {
          assert key(s[0]) < key(s[j + 1]);
        }
      }
    }
  }

  /** A result no row of which occurs more often than in `s` repeats nothing `s` does not. */
  lemma SubMultisetNoRepeats<T(!new)>(r: seq<T>, s: seq<T>)
    requires multiset(r) <= multiset(s) && NoRepeats(s)
    ensures NoRepeats(r)
  {
    forall x ensures multiset(r)[x] <= 1 {
      assert multiset(r)[x] <= multiset(s)[x];
    }
  }

  /** Filtering never adds copies of an element. */
  lemma {:induction false} FilterSubMultiset<T(!new)>(s: seq<T>, keep: T -> bool)
    ensures multiset(Filter(s, keep)) <= multiset(s)
    decreases |s|
  {
    if s != [] {
      FilterSubMultiset(s[1..], keep);
      assert s == [s[0]] + s[1..];
    }
  }

  /** The last element of a sequence without repeats occurs nowhere before it. */
  lemma LastNotRepeated<T(!new)>(s: seq<T>)
    requires s != []
    ensures NoRepeats(s) ==> NoRepeats(s[..|s| - 1]) && s[|s| - 1] !in s[..|s| - 1]
  {
    var n := |s| - 1;
    if !NoRepeats(s) {
      return;
    }
    assert s == s[..n] + [s[n]];
    assert multiset(s) == multiset(s[..n]) + multiset{s[n]};
    forall x ensures multiset(s[..n])[x] <= 1 {
      assert multiset(s[..n])[x] <= multiset(s)[x];
    }
    assert multiset(s)[s[n]] <= 1;
    assert multiset(s[..n])[s[n]] == 0;
  }

  /** Appending an element not yet present keeps a sequence free of repeats. */
  lemma AppendNew<T(!new)>(s: seq<T>, x: T)
    ensures NoRepeats(s) && x !in s ==> NoRepeats(s + [x])
  {
    assert multiset(s + [x]) == multiset(s) + multiset{x};
  }

  /** The elements whose key is `k`. */
  function HasKey<T>(key: T -> int, k: int): T -> bool
  {
    x => key(x) == k
  }

  /** Inserting `x` leaves the elements of every key in their order, with `x` placed
    * first among those of its own key. */
  lemma {:induction false} InsertStable<T(!new)>(x: T, s: seq<T>, key: T -> int, k: int)
    requires SortedBy(s, key)
    ensures Filter(Insert(x, s, key), HasKey(key, k)) ==
      (if key(x) == k then [x] else []) + Filter(s, HasKey(key, k))
    decreases |s|
  {
    var r := Insert(x, s, key);
    if s == [] || key(x) <= key(s[0]) {
      assert r[0] == x && r[1..] == s;
    } else {
      var rest := Insert(x, s[1..], key);
      assert r == [s[0]] + rest;
      assert r[0] == s[0] && r[1..] == rest;
      InsertStable(x, s[1..], key, k);
    }
  }

  /** The sort is stable: for every key, the elements with that key keep their relative
    * order (as `Array.prototype.sort` does). */
  lemma {:induction false} SortByStable<T(!new)>(s: seq<T>, key: T -> int, k: int)
    ensures Filter(SortBy(s, key), HasKey(key, k)) == Filter(s, HasKey(key, k))
    decreases |s|
  {
    if s != [] {
      SortByStable(s[1..], key, k);
      InsertStable(s[0], SortBy(s[1..], key), key, k);
    }
  }

  /** Two complementary filters split a sequence: every element goes to exactly one side. */
  lemma {:induction false} FilterSplit<T(!new)>(s: seq<T>, a: T -> bool, b: T -> bool)
    requires forall x :: b(x) == !a(x)
    ensures multiset(Filter(s, a)) + multiset(Filter(s, b)) == multiset(s)
    decreases |s|
  {
    if s != [] {
      var x, rest := s[0], s[1..];
      FilterSplit(rest, a, b);
      assert s == [x] + rest;
      assert multiset(s) == multiset{x} + multiset(rest);
      if a(x) {
        assert Filter(s, a) == [x] + Filter(rest, a) && Filter(s, b) == Filter(rest, b);
      } else {
        assert Filter(s, a) == Filter(rest, a) && Filter(s, b) == [x] + Filter(rest, b);
      }
    }
  }
}
