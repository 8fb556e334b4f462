/** `np.argsort` on a vector of keys, the permutations it yields, and sums
    taken along them.

    NumPy's default sort is not stable; the model sorts stably, so keys that
    tie are listed in position order. */
module ArgSorting {

  /** The keys never decrease. */
  predicate Ascending(s: seq<real>) {
    forall i, j :: 0 <= i < j < |s| ==> s[i] <= s[j]
  }

  /** No position is listed twice. */
  predicate Distinct(order: seq<nat>) {
    forall i, j :: 0 <= i < j < |order| ==> order[i] != order[j]
  }

  /** The positions `order` lists have ascending keys in `fits`. */
  predicate SortedBy(fits: seq<real>, order: seq<nat>)
    requires forall j :: 0 <= j < |order| ==> order[j] < |fits|
  {
    forall i, j :: 0 <= i < j < |order| ==> fits[order[i]] <= fits[order[j]]
  }

  /** Insert position `k` after every listed position whose key is not larger. */
  function Insert(fits: seq<real>, sorted: seq<nat>, k: nat): (r: seq<nat>)
    requires k < |fits| && forall j :: 0 <= j < |sorted| ==> sorted[j] < |fits|
    ensures |r| == |sorted| + 1
    ensures forall x :: x in r <==> x in sorted || x == k
    ensures forall j :: 0 <= j < |r| ==> r[j] < |fits|
  {
    if sorted == [] || fits[k] < fits[sorted[0]] then [k] + sorted
    else
      assert sorted == [sorted[0]] + sorted[1..];
      [sorted[0]] + Insert(fits, sorted[1..], k)
  }

  lemma {:induction false} InsertSorted(fits: seq<real>, sorted: seq<nat>, k: nat)
    requires k < |fits| && forall j :: 0 <= j < |sorted| ==> sorted[j] < |fits|
    requires SortedBy(fits, sorted)
    ensures SortedBy(fits, Insert(fits, sorted, k))
  {
    if sorted != [] && fits[sorted[0]] <= fits[k] {
      var rest := Insert(fits, sorted[1..], k);
      InsertSorted(fits, sorted[1..], k);
      forall j | 0 <= j < |rest| ensures fits[sorted[0]] <= fits[rest[j]] {
        assert rest[j] in rest;
        if rest[j] != k {
          var m :| 0 <= m < |sorted[1..]| && sorted[1..][m] == rest[j];
          assert sorted[m + 1] == rest[j];
        }
      }
      assert Insert(fits, sorted, k) == [sorted[0]] + rest;
    }
  }

  lemma {:induction false} InsertDistinct(fits: seq<real>, sorted: seq<nat>, k: nat)
    requires k < |fits| && forall j :: 0 <= j < |sorted| ==> sorted[j] < |fits|
    requires Distinct(sorted) && k !in sorted
    ensures Distinct(Insert(fits, sorted, k))
  {
    if sorted != [] && fits[sorted[0]] <= fits[k] {
      var rest := Insert(fits, sorted[1..], k);
      assert sorted == [sorted[0]] + sorted[1..];
      InsertDistinct(fits, sorted[1..], k);
      assert sorted[0] !in rest;
      assert Insert(fits, sorted, k) == [sorted[0]] + rest;
    }
  }

  /** `np.argsort(fits[..n])`, as a stable insertion sort: a permutation of
      the positions below `n` that lists their keys in ascending order. */
  function ArgSort(fits: seq<real>, n: nat): (order: seq<nat>)
    requires n <= |fits|
    ensures |order| == n
    ensures forall j :: 0 <= j < n ==> order[j] < n
    ensures forall x :: 0 <= x < n ==> x in order
    ensures Distinct(order)
    ensures SortedBy(fits, order)
  {
    if n == 0 then []
    else
      var prev := ArgSort(fits, n - 1);
      InsertSorted(fits, prev, n - 1);
      InsertDistinct(fits, prev, n - 1);
      var order := Insert(fits, prev, n - 1);
      assert forall j :: 0 <= j < n ==> order[j] in order;
      order
  }

  /** `s[order]` */
  function Permute<T>(s: seq<T>, order: seq<nat>): (r: seq<T>)
    requires forall j :: 0 <= j < |order| ==> order[j] < |s|
    ensures |r| == |order| && forall j :: 0 <= j < |order| ==> r[j] == s[order[j]]
  {
    seq(|order|, j requires 0 <= j < |order| => s[order[j]])
  }

  /** `sum(xs)`, accumulated from the left. */
  function Sum(xs: seq<real>): real {
    if |xs| == 0 then 0.0 else Sum(xs[..|xs| - 1]) + xs[|xs| - 1]
  }

  /** The sum of the entries `order` lists, in that order. */
  function SumAt(xs: seq<real>, order: seq<nat>): real
    requires forall j :: 0 <= j < |order| ==> order[j] < |xs|
  {
    if |order| == 0 then 0.0 else SumAt(xs, order[..|order| - 1]) + xs[order[|order| - 1]]
  }

  /** Summing is additive over concatenation. */
  lemma {:induction false} SumConcat(a: seq<real>, b: seq<real>)
    ensures Sum(a + b) == Sum(a) + Sum(b)
  {
    if |b| > 0 {
      SumConcat(a, b[..|b| - 1]);
      assert (a + b)[..|a + b| - 1] == a + b[..|b| - 1];
    } else {
      assert a + b == a;
    }
  }

  lemma {:induction false} SumAtConcat(xs: seq<real>, a: seq<nat>, b: seq<nat>)
    requires forall j :: 0 <= j < |a| ==> a[j] < |xs|
    requires forall j :: 0 <= j < |b| ==> b[j] < |xs|
    ensures SumAt(xs, a + b) == SumAt(xs, a) + SumAt(xs, b)
  {
    if |b| > 0 {
      SumAtConcat(xs, a, b[..|b| - 1]);
      assert (a + b)[..|a + b| - 1] == a + b[..|b| - 1];
    } else {
      assert a + b == a;
    }
  }

  /** Inserting a position adds its entry to the sum. */
  lemma {:induction false} SumAtInsert(fits: seq<real>, xs: seq<real>, sorted: seq<nat>, k: nat)
    requires k < |fits| && k < |xs|
    requires forall j :: 0 <= j < |sorted| ==> sorted[j] < |fits| && sorted[j] < |xs|
    ensures forall j :: 0 <= j < |Insert(fits, sorted, k)| ==> Insert(fits, sorted, k)[j] < |xs|
    ensures SumAt(xs, Insert(fits, sorted, k)) == SumAt(xs, sorted) + xs[k]
  {
    var r := Insert(fits, sorted, k);
    forall j | 0 <= j < |r| ensures r[j] < |xs| {
      assert r[j] in r;
    }
    if sorted == [] || fits[k] < fits[sorted[0]] {
      SumAtConcat(xs, [k], sorted);
      assert SumAt(xs, [k]) == xs[k] by {
        assert [k][..0] == [];
      }
    } else {
      var rest := Insert(fits, sorted[1..], k);
      SumAtInsert(fits, xs, sorted[1..], k);
      SumAtConcat(xs, [sorted[0]], rest);
      SumAtConcat(xs, [sorted[0]], sorted[1..]);
      assert sorted == [sorted[0]] + sorted[1..];
    }
  }

  /** Summing along the sorting permutation of the first `n` keys adds up
      the first `n` entries, each once. */
  lemma {:induction false} SumAtArgSort(fits: seq<real>, xs: seq<real>, n: nat)
    requires n <= |fits| && n <= |xs|
    ensures SumAt(xs, ArgSort(fits, n)) == Sum(xs[..n])
  {
    if n > 0 {
      var prev := ArgSort(fits, n - 1);
      SumAtArgSort(fits, xs, n - 1);
      SumAtInsert(fits, xs, prev, n - 1);
      assert xs[..n][..n - 1] == xs[..n - 1];
    }
  }
}
