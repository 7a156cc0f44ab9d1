/** The benchmark's percentile: nearest rank on a sorted copy. */
module NearestRank {
  import opened Sorting

  predicate Ascending(a: int, b: int) {
    a <= b
  }

  /** The smallest integer that is at least n / 100. */
  function CeilHundredth(n: int): int {
    -((-n) / 100)
  }

  method PercentileInt(xs: seq<int>, p: int) returns (r: int)
    ensures xs == [] ==> r == 0
    ensures xs != [] ==> r == RankValue(xs, p)
  {
    if |xs| == 0 {
      return 0;
    }
    var sorted := Sort(xs, Ascending);
    SortPermutes(xs, Ascending);
    var idx := CeilHundredth(p * |sorted|) - 1;
    if idx < 0 {
      idx := 0;
    }
    if idx >= |sorted| {
      idx := |sorted| - 1;
    }
    r := sorted[idx];
  }

  function RankIndex(n: nat, p: int): (i: nat)
    requires 0 < n
    ensures i < n
  {
    var idx := CeilHundredth(p * n) - 1;
    if idx < 0 then 0 else if idx >= n then n - 1 else idx
  }

  function RankValue(xs: seq<int>, p: int): int
    requires xs != []
  {
    SortPermutes(xs, Ascending);
    Sort(xs, Ascending)[RankIndex(|xs|, p)]
  }

  /** How many samples are at most v. */
  function CountUpTo(xs: seq<int>, v: int): nat {
    if xs == [] then 0 else (if xs[0] <= v then 1 else 0) + CountUpTo(xs[1..], v)
  }

  lemma {:induction false} CountOfInsert(x: int, s: seq<int>, v: int)
    ensures CountUpTo(Insert(x, s, Ascending), v) == CountUpTo(s, v) + (if x <= v then 1 else 0)
  {
    if s == [] || Ascending(x, s[0]) {
      assert ([x] + s)[1..] == s;
    } else {
      CountOfInsert(x, s[1..], v);
      assert ([s[0]] + Insert(x, s[1..], Ascending))[1..] == Insert(x, s[1..], Ascending);
    }
  }

  lemma {:induction false} CountOfSort(xs: seq<int>, v: int)
    ensures CountUpTo(Sort(xs, Ascending), v) == CountUpTo(xs, v)
  {
    if xs != [] {
      CountOfSort(xs[1..], v);
      CountOfInsert(xs[0], Sort(xs[1..], Ascending), v);
    }
  }

  /** In sorted data, the samples up to position i are at most s[i]; those from i on are not
      below it. */
  lemma {:induction false} CountSorted(s: seq<int>, i: nat, v: int)
    requires SortedBy(s, Ascending) && i < |s|
    ensures s[i] <= v ==> CountUpTo(s, v) >= i + 1
    ensures v < s[i] ==> CountUpTo(s, v) <= i
  {
    assert 0 < i ==> Ascending(s[0], s[i]);
    if i == 0 {
      if v < s[0] {
        NoneUpTo(s, v);
      }
    } else {
      assert forall j, k :: 0 <= j < k < |s[1..]| ==> s[1..][j] == s[j + 1] && s[1..][k] == s[k + 1];
      CountSorted(s[1..], i - 1, v);
    }
  }

  lemma {:induction false} NoneUpTo(s: seq<int>, v: int)
    requires SortedBy(s, Ascending) && s != [] && v < s[0]
    ensures CountUpTo(s, v) == 0
  {
    if |s| > 1 {
      assert Ascending(s[0], s[1]);
      assert forall j, k :: 0 <= j < k < |s[1..]| ==> s[1..][j] == s[j + 1] && s[1..][k] == s[k + 1];
      NoneUpTo(s[1..], v);
    }
  }

  lemma RankIndexBounds(n: nat, p: int)
    requires 0 < n && 1 <= p <= 100
    ensures 100 * RankIndex(n, p) < p * n <= 100 * (RankIndex(n, p) + 1)
  {
    var q := p * n;
    assert 1 <= q <= 100 * n;
  }

  /** For p from 1 to 100 the result is a sample such that at least p percent of the samples
      are no greater, and it is the least such value. */
  lemma RankValueIsLeast(xs: seq<int>, p: int)
    requires xs != [] && 1 <= p <= 100
    ensures RankValue(xs, p) in xs
    ensures 100 * CountUpTo(xs, RankValue(xs, p)) >= p * |xs|
    ensures forall w :: w < RankValue(xs, p) ==> 100 * CountUpTo(xs, w) < p * |xs|
  {
    var s, i, v := Sort(xs, Ascending), RankIndex(|xs|, p), RankValue(xs, p);
    SortPermutes(xs, Ascending);
    SortSorts(xs, Ascending);
    RankIndexBounds(|xs|, p);
    assert s[i] in multiset(s);
    CountSorted(s, i, v);
    CountOfSort(xs, v);
    forall w | w < v ensures 100 * CountUpTo(xs, w) < p * |xs| {
      CountSorted(s, i, w);
      CountOfSort(xs, w);
    }
  }

  /** Outside that range the result is the minimum or the maximum. */
  lemma RankValueClamps(xs: seq<int>, p: int, i: nat)
    requires i < |xs|
    ensures p < 1 ==> RankValue(xs, p) <= xs[i]
    ensures p > 100 ==> xs[i] <= RankValue(xs, p)
  {
    var s := Sort(xs, Ascending);
    SortPermutes(xs, Ascending);
    SortSorts(xs, Ascending);
    assert xs[i] in multiset(xs) && xs[i] in multiset(s);
    var k :| 0 <= k < |s| && s[k] == xs[i];
    assert 0 < k ==> Ascending(s[0], s[k]);
    assert k < |s| - 1 ==> Ascending(s[k], s[|s| - 1]);
    ClampedIndex(|xs|, p);
  }

  lemma ClampedIndex(n: nat, p: int)
    requires 0 < n
    ensures p < 1 ==> RankIndex(n, p) == 0
    ensures p > 100 ==> RankIndex(n, p) == n - 1
  {
    if p < 1 {
      assert p * n <= 0;
    } else if p > 100 {
      assert p * n >= 101 * n;
    }
  }
}
