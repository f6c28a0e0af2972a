/** Array.prototype.filter, counting, summing with `reduce`, and a stable
    sort in descending order of an integer key, over sequences. */
module Seqs {

  /** `s.filter(keep)`: the elements that pass, in their original order. */
  function Filter<T>(s: seq<T>, keep: T -> bool): (r: seq<T>)
    ensures |r| <= |s|
    ensures forall i :: 0 <= i < |r| ==> r[i] in s && keep(r[i])
    ensures forall i :: 0 <= i < |s| && keep(s[i]) ==> s[i] in r
  {
    if s == [] then []
    else if keep(s[0]) then [s[0]] + Filter(s[1..], keep)
    else Filter(s[1..], keep)
  }

  /** `idx` lists positions of `s` in strictly increasing order, and `r`
      reads `s` at those positions. */
  ghost predicate Picks<T>(s: seq<T>, r: seq<T>, idx: seq<nat>) {
    && |idx| == |r|
    && (forall k :: 0 <= k < |idx| ==> idx[k] < |s| && r[k] == s[idx[k]])
    && (forall k, l :: 0 <= k < l < |idx| ==> idx[k] < idx[l])
  }

  /** `r` is made of exactly the elements of `s` that pass `keep`, each once
      and in the order they have in `s`. */
  ghost predicate FilteredFrom<T>(r: seq<T>, s: seq<T>, keep: T -> bool) {
    exists idx :: Picks(s, r, idx) && (forall j :: 0 <= j < |s| ==> (keep(s[j]) <==> j in idx))
  }

  function Up(idx: seq<nat>): (u: seq<nat>)
    ensures |u| == |idx| && forall k :: 0 <= k < |idx| ==> u[k] == idx[k] + 1
  {
    seq(|idx|, k requires 0 <= k < |idx| => idx[k] + 1)
  }

  lemma UpIn(idx: seq<nat>, j: nat)
    ensures j in Up(idx) <==> (j > 0 && j - 1 in idx)
  {
    var u := Up(idx);
    if j in u {
      var k :| 0 <= k < |u| && u[k] == j;
      assert idx[k] == j - 1;
    }
    if j > 0 && j - 1 in idx {
      var k :| 0 <= k < |idx| && idx[k] == j - 1;
      assert u[k] == j;
    }
  }

  /** Positions in the tail, moved up by one, are positions in the whole. */
  lemma PicksUp<T>(s: seq<T>, r: seq<T>, idx: seq<nat>)
    requires s != [] && Picks(s[1..], r, idx)
    ensures Picks(s, r, Up(idx))
  {
    var u := Up(idx);
    forall k | 0 <= k < |u| ensures u[k] < |s| && r[k] == s[u[k]] {
      assert s[1..][idx[k]] == s[idx[k] + 1];
    }
  }

  /** Putting the head first, at position 0, keeps the positions increasing. */
  lemma PicksCons<T>(s: seq<T>, r: seq<T>, u: seq<nat>)
    requires s != [] && Picks(s, r, u) && forall k :: 0 <= k < |u| ==> u[k] > 0
    ensures Picks(s, [s[0]] + r, [0] + u)
  {
    var v := [0] + u;
    var r' := [s[0]] + r;
    forall k | 0 <= k < |v| ensures v[k] < |s| && r'[k] == s[v[k]] {
      if k > 0 { assert v[k] == u[k - 1] && r'[k] == r[k - 1]; }
    }
    forall k, l | 0 <= k < l < |v| ensures v[k] < v[l] {
      if k > 0 { assert v[k] == u[k - 1] && v[l] == u[l - 1]; }
    }
  }

  /** The positions `Filter` keeps: the passing positions of `s`, in increasing order. */
  lemma {:induction false} FilterPositions<T>(s: seq<T>, keep: T -> bool) returns (idx: seq<nat>)
    ensures Picks(s, Filter(s, keep), idx)
    ensures forall j :: 0 <= j < |s| ==> (keep(s[j]) <==> j in idx)
  {
    if s == [] {
      idx := [];
    } else {
      var rest := FilterPositions(s[1..], keep);
      PicksUp(s, Filter(s[1..], keep), rest);
      if keep(s[0]) {
        PicksCons(s, Filter(s[1..], keep), Up(rest));
      }
      idx := if keep(s[0]) then [0] + Up(rest) else Up(rest);
      forall j | 0 <= j < |s| ensures keep(s[j]) <==> j in idx {
        UpIn(rest, j);
        if j > 0 {
          assert s[j] == s[1..][j - 1];
        }
      }
    }
  }

  /** `Filter` keeps exactly the passing elements, in their original order. */
  lemma FilterKeepsOrder<T>(s: seq<T>, keep: T -> bool)
    ensures FilteredFrom(Filter(s, keep), s, keep)
  {
    var idx := FilterPositions(s, keep);
  }

  /** Filtering a sequence whose elements all pass gives it back unchanged. */
  lemma {:induction false} FilterAllKept<T>(s: seq<T>, keep: T -> bool)
    requires forall i :: 0 <= i < |s| ==> keep(s[i])
    ensures Filter(s, keep) == s
  {
    if s != [] {
      FilterAllKept(s[1..], keep);
    }
  }

  /** Filtering distributes over concatenation. */
  lemma {:induction false} FilterAppend<T>(s: seq<T>, t: seq<T>, keep: T -> bool)
    ensures Filter(s + t, keep) == Filter(s, keep) + Filter(t, keep)
  {
    if s == [] {
      assert s + t == t;
    } else {
      assert (s + t)[1..] == s[1..] + t;
      FilterAppend(s[1..], t, keep);
    }
  }

  /** Filtering is idempotent. */
  lemma {:induction false} FilterTwice<T>(s: seq<T>, keep: T -> bool)
    ensures Filter(Filter(s, keep), keep) == Filter(s, keep)
  {
    if s != [] {
      FilterTwice(s[1..], keep);
    }
  }

  /** `s.filter(p).length`. */
  function Count<T>(s: seq<T>, p: T -> bool): (n: nat)
    ensures n <= |s|
  {
    if s == [] then 0 else (if p(s[0]) then 1 else 0) + Count(s[1..], p)
  }

  /** The filtered sequence has exactly `Count` elements. */
  lemma {:induction false} CountIsFilterLength<T>(s: seq<T>, p: T -> bool)
    ensures |Filter(s, p)| == Count(s, p)
  {
    if s != [] {
      CountIsFilterLength(s[1..], p);
    }
  }

  /** Two conditions that never hold together count at most every element once. */
  lemma {:induction false} CountDisjoint<T>(s: seq<T>, p: T -> bool, q: T -> bool)
    requires forall i :: 0 <= i < |s| ==> !(p(s[i]) && q(s[i]))
    ensures Count(s, p) + Count(s, q) <= |s|
  {
    if s != [] {
      CountDisjoint(s[1..], p, q);
    }
  }

  /** `s.reduce((acc, x) => acc + f(x), 0)`. */
  function SumBy<T>(s: seq<T>, f: T -> real): real {
    if s == [] then 0.0 else f(s[0]) + SumBy(s[1..], f)
  }

  /** A sum of terms none of which is negative is not negative. */
  lemma {:induction false} SumByNonNegative<T>(s: seq<T>, f: T -> real)
    ensures (forall i :: 0 <= i < |s| ==> f(s[i]) >= 0.0) ==> SumBy(s, f) >= 0.0
  {
    if s != [] {
      SumByNonNegative(s[1..], f);
      assert forall i :: 0 <= i < |s| - 1 ==> s[1..][i] == s[i + 1];
    }
  }

  /** Summing over a concatenation adds the two sums. */
  lemma {:induction false} SumByAppend<T>(s: seq<T>, t: seq<T>, f: T -> real)
    ensures SumBy(s + t, f) == SumBy(s, f) + SumBy(t, f)
  {
    if s == [] {
      assert s + t == t;
    } else {
      assert (s + t)[1..] == s[1..] + t;
      SumByAppend(s[1..], t, f);
    }
  }

  /** Every element's key is at least the key of every later element. */
  ghost predicate SortedDesc<T>(s: seq<T>, key: T -> int) {
    forall i, j :: 0 <= i < j < |s| ==> key(s[i]) >= key(s[j])
  }

  /** Inserts `x` before the first element whose key does not exceed its own. */
  function InsertDesc<T>(x: T, s: seq<T>, key: T -> int): (r: seq<T>)
    requires SortedDesc(s, key)
    ensures |r| == |s| + 1 && (r[0] == x || (s != [] && r[0] == s[0]))
    ensures SortedDesc(r, key)
    ensures multiset(r) == multiset(s) + multiset{x}
  {
    if s == [] || key(x) >= key(s[0]) then [x] + s
    else
      var rest := InsertDesc(x, s[1..], key);
      assert key(s[0]) >= key(rest[0]);
      assert s == [s[0]] + s[1..];
      [s[0]] + rest
  }

  /** Newest-first ordering as a stable insertion sort: the result is in
      descending key order and is a permutation of the input. */
  function SortDesc<T>(s: seq<T>, key: T -> int): (r: seq<T>)
    ensures SortedDesc(r, key)
    ensures multiset(r) == multiset(s)
    ensures |r| == |s|
  {
    if s == [] then []
    else
      var r := InsertDesc(s[0], SortDesc(s[1..], key), key);
      assert multiset(s) == multiset(s[1..]) + multiset{s[0]} by {
        assert s == [s[0]] + s[1..];
      }
      r
  }

  /** Inserting adds the inserted element's value to a sum. */
  lemma {:induction false} SumByInsert<T>(x: T, s: seq<T>, key: T -> int, f: T -> real)
    requires SortedDesc(s, key)
    ensures SumBy(InsertDesc(x, s, key), f) == f(x) + SumBy(s, f)
  {
    if s == [] || key(x) >= key(s[0]) {
      assert ([x] + s)[1..] == s;
    } else {
      SumByInsert(x, s[1..], key, f);
      assert ([s[0]] + InsertDesc(x, s[1..], key))[1..] == InsertDesc(x, s[1..], key);
    }
  }

  /** Sorting does not change a sum. */
  lemma {:induction false} SumBySort<T>(s: seq<T>, key: T -> int, f: T -> real)
    ensures SumBy(SortDesc(s, key), f) == SumBy(s, f)
  {
    if s != [] {
      SumBySort(s[1..], key, f);
      SumByInsert(s[0], SortDesc(s[1..], key), key, f);
    }
  }

  /** Index of the first element that satisfies `p`, or |s| when none does
      (`findIndex`, with |s| for -1; `find` returns the element at it). */
  function IndexWhere<T>(s: seq<T>, p: T -> bool): (k: nat)
    ensures k <= |s|
    ensures k < |s| ==> p(s[k])
    ensures forall j :: 0 <= j < k ==> !p(s[j])
  {
    if s == [] then 0 else if p(s[0]) then 0 else 1 + IndexWhere(s[1..], p)
  }

  /** Filtering by two conditions that agree on every element gives the same result. */
  lemma {:induction false} FilterSame<T>(s: seq<T>, p: T -> bool, q: T -> bool)
    requires forall i :: 0 <= i < |s| ==> p(s[i]) == q(s[i])
    ensures Filter(s, p) == Filter(s, q)
  {
    if s != [] {
      FilterSame(s[1..], p, q);
    }
  }

  /** Filtering out every element leaves nothing. */
  lemma {:induction false} FilterNoneKept<T>(s: seq<T>, keep: T -> bool)
    requires forall i :: 0 <= i < |s| ==> !keep(s[i])
    ensures Filter(s, keep) == []
  {
    if s != [] {
      FilterNoneKept(s[1..], keep);
    }
  }

  /** No two elements share a key. */
  ghost predicate DistinctBy<T, K>(s: seq<T>, key: T -> K) {
    forall i, j :: 0 <= i < j < |s| ==> key(s[i]) != key(s[j])
  }

  /** Filtering keeps keys distinct. */
  lemma {:induction false} FilterDistinct<T, K>(s: seq<T>, keep: T -> bool, key: T -> K)
    requires DistinctBy(s, key)
    ensures DistinctBy(Filter(s, keep), key)
  {
    if s != [] {
      FilterDistinct(s[1..], keep, key);
      var rest := Filter(s[1..], keep);
      if keep(s[0]) {
        forall j | 0 <= j < |rest| ensures key(s[0]) != key(rest[j]) {
          assert rest[j] in s[1..];
          var m :| 0 <= m < |s[1..]| && s[1..][m] == rest[j];
          assert s[m + 1] == rest[j];
        }
        var r := [s[0]] + rest;
        forall i, j | 0 <= i < j < |r| ensures key(r[i]) != key(r[j]) {
          if i > 0 {
            assert r[i] == rest[i - 1] && r[j] == rest[j - 1];
          } else {
            assert r[j] == rest[j - 1];
          }
        }
      }
    }
  }

  /** Replacing one element changes a sum by the difference of the two values. */
  lemma {:induction false} SumByUpdate<T>(s: seq<T>, k: nat, x: T, f: T -> real)
    requires k < |s|
    ensures SumBy(s[k := x], f) == SumBy(s, f) - f(s[k]) + f(x)
  {
    if k > 0 {
      assert s[k := x][1..] == s[1..][k - 1 := x];
      SumByUpdate(s[1..], k - 1, x, f);
    }
  }

  /** A filter that keeps a prefix and drops the rest returns that prefix. */
  lemma {:induction false} FilterPrefix<T>(s: seq<T>, keep: T -> bool, n: nat)
    requires n <= |s|
    requires forall i :: 0 <= i < n ==> keep(s[i])
    requires forall i :: n <= i < |s| ==> !keep(s[i])
    ensures Filter(s, keep) == s[..n]
  {
    if n == 0 {
      FilterNoneKept(s, keep);
    } else {
      var rest := s[1..];
      assert forall i :: 0 <= i < n - 1 ==> rest[i] == s[i + 1];
      assert forall i :: n - 1 <= i < |rest| ==> rest[i] == s[i + 1];
      FilterPrefix(rest, keep, n - 1);
      PrefixCons(s, n);
    }
  }

  /** A non-empty prefix is the head followed by a prefix of the tail. */
  lemma PrefixCons<T>(s: seq<T>, n: nat)
    requires 0 < n <= |s|
    ensures s[..n] == [s[0]] + s[1..][..n - 1]
  {
  }
}
