/**
 * `_cluster_levels` of src/data/data_processor_enhanced.py: swing prices
 * are sorted, cut into runs wherever two neighbours are at least the
 * threshold apart, and each run is replaced by its mean.
 */
module LevelClustering {
  import opened Market

  predicate Sorted(s: seq<real>) {
    forall i, j | 0 <= i < j < |s| :: s[i] <= s[j]
  }

  // ---------------------------------------------------------------------
  // Sorting (the role of `np.sort`)
  // ---------------------------------------------------------------------

  /** Inserts `x` before the first element of `s` not below it; the result holds the same points and `x`. */
  function Insert(x: real, s: seq<real>): (r: seq<real>)
    ensures multiset(r) == multiset(s) + multiset{x} && |r| == |s| + 1
  {
    if s == [] then [x]
    else if x <= s[0] then [x] + s
    else
      assert s == [s[0]] + s[1..];
      [s[0]] + Insert(x, s[1..])
  }

  /** Inserting into a sorted list keeps it sorted. */
  lemma {:induction false} InsertSorted(x: real, s: seq<real>)
    requires Sorted(s)
    ensures Sorted(Insert(x, s))
  {
    if s != [] && x > s[0] {
      InsertSorted(x, s[1..]);
      var rest := Insert(x, s[1..]);
      forall k | 0 <= k < |rest|
        ensures s[0] <= rest[k]
      {
        assert rest[k] in multiset(rest);
        if rest[k] != x {
          assert rest[k] in multiset(s[1..]);
        }
      }
    }
  }

  /** The points in ascending order: a sorted permutation of the input (the role of `np.sort`). */
  function SortPoints(points: seq<real>): (r: seq<real>)
    ensures Sorted(r) && multiset(r) == multiset(points) && |r| == |points|
  {
    if points == [] then []
    else
      var init := points[..|points| - 1];
      assert points == init + [points[|points| - 1]];
      InsertSorted(points[|points| - 1], SortPoints(init));
      Insert(points[|points| - 1], SortPoints(init))
  }

  // ---------------------------------------------------------------------
  // Groups
  // ---------------------------------------------------------------------

  function Last<T>(s: seq<T>): T
    requires s != []
  {
    s[|s| - 1]
  }

  /** The groups joined back together, in order. */
  function Concat(groups: seq<seq<real>>): seq<real> {
    if groups == [] then [] else Concat(groups[..|groups| - 1]) + Last(groups)
  }

  predicate NonEmptyRuns(groups: seq<seq<real>>) {
    forall k | 0 <= k < |groups| :: groups[k] != []
  }

  /**
   * One step of the loop of `_cluster_levels`: the next point joins the
   * current (last) run when it is less than `threshold` above that run's
   * last point, and starts a new run otherwise.
   */
  function Extend(groups: seq<seq<real>>, x: real, threshold: real): seq<seq<real>>
    requires NonEmptyRuns(groups)
  {
    if groups != [] && x - Last(Last(groups)) < threshold then groups[..|groups| - 1] + [Last(groups) + [x]]
    else groups + [[x]]
  }

  /** The runs built over the points in the order given; they are non-empty and join back to the input. */
  function Groups(s: seq<real>, threshold: real): (r: seq<seq<real>>)
    ensures Concat(r) == s && |r| <= |s| && (r == [] <==> s == [])
    ensures NonEmptyRuns(r)
  {
    if s == [] then []
    else
      var g := Groups(s[..|s| - 1], threshold);
      var r := Extend(g, s[|s| - 1], threshold);
      assert r[..|r| - 1] == if g != [] && s[|s| - 1] - Last(Last(g)) < threshold then g[..|g| - 1] else g;
      r
  }

  /** Growing the input by one point is one step of `Extend`. */
  lemma GroupsSnoc(s: seq<real>, i: nat, threshold: real)
    requires i < |s|
    ensures Groups(s[..i + 1], threshold) == Extend(Groups(s[..i], threshold), s[i], threshold)
  {
    assert s[..i + 1][..i] == s[..i];
  }

  /** Extending runs that end in `current`: the point joins `current` or opens a new run. */
  lemma ExtendLast(done: seq<seq<real>>, current: seq<real>, x: real, threshold: real)
    requires NonEmptyRuns(done) && current != []
    ensures NonEmptyRuns(done + [current])
    ensures Extend(done + [current], x, threshold)
      == if x - Last(current) < threshold then done + [current + [x]] else done + [current] + [[x]]
  {
    assert (done + [current])[..|done|] == done;
  }

  /** The last point of the joined runs is the last point of the last run. */
  lemma ConcatLast(groups: seq<seq<real>>)
    requires groups != [] && Last(groups) != []
    ensures Concat(groups) != [] && Last(Concat(groups)) == Last(Last(groups))
  {
  }

  /**
   * The cut rule: inside a run neighbouring points are closer than the
   * threshold, and each run starts at least the threshold above the last
   * point of the run before it.
   */
  predicate CutRule(groups: seq<seq<real>>, threshold: real) {
    && NonEmptyRuns(groups)
    && (forall k, j | 0 <= k < |groups| && 0 < j < |groups[k]| :: groups[k][j] - groups[k][j - 1] < threshold)
    && (forall k | 0 < k < |groups| :: groups[k][0] - Last(groups[k - 1]) >= threshold)
  }

  lemma ExtendKeepsCut(g: seq<seq<real>>, x: real, threshold: real)
    requires CutRule(g, threshold)
    ensures CutRule(Extend(g, x, threshold), threshold)
  {
    var r := Extend(g, x, threshold);
    if g != [] && x - Last(Last(g)) < threshold {
      var n := |g| - 1;
      assert forall k | 0 <= k < n :: r[k] == g[k];
      assert r[n] == g[n] + [x];
      forall j | 0 < j < |r[n]|
        ensures r[n][j] - r[n][j - 1] < threshold
      {
        if j < |g[n]| {
          assert r[n][j] == g[n][j] && r[n][j - 1] == g[n][j - 1];
        }
      }
      if n > 0 {
        assert r[n][0] == g[n][0];
      }
    } else {
      assert forall k | 0 <= k < |g| :: r[k] == g[k];
    }
  }

  lemma {:induction false} GroupsCutRule(s: seq<real>, threshold: real)
    ensures CutRule(Groups(s, threshold), threshold)
  {
    if s != [] {
      GroupsCutRule(s[..|s| - 1], threshold);
      ExtendKeepsCut(Groups(s[..|s| - 1], threshold), s[|s| - 1], threshold);
    }
  }

  /** Every run is sorted and each run starts no lower than the previous one ends. */
  predicate RunsInOrder(groups: seq<seq<real>>) {
    && NonEmptyRuns(groups)
    && (forall k | 0 <= k < |groups| :: Sorted(groups[k]))
    && (forall k | 0 < k < |groups| :: Last(groups[k - 1]) <= groups[k][0])
  }

  lemma ExtendKeepsOrder(g: seq<seq<real>>, x: real, threshold: real)
    requires RunsInOrder(g) && (g != [] ==> Last(Last(g)) <= x)
    ensures RunsInOrder(Extend(g, x, threshold))
  {
    var r := Extend(g, x, threshold);
    if g != [] && x - Last(Last(g)) < threshold {
      var n := |g| - 1;
      assert forall k | 0 <= k < n :: r[k] == g[k];
      assert r[n] == g[n] + [x];
      assert Sorted(g[n]);
      assert Sorted(r[n]);
      if n > 0 {
        assert r[n][0] == g[n][0];
      }
    } else {
      assert forall k | 0 <= k < |g| :: r[k] == g[k];
    }
  }

  /** Over sorted points the runs are in order. */
  lemma {:induction false} GroupsSorted(s: seq<real>, threshold: real)
    requires Sorted(s)
    ensures RunsInOrder(Groups(s, threshold))
  {
    if s != [] {
      var init := s[..|s| - 1];
      GroupsSorted(init, threshold);
      var g := Groups(init, threshold);
      if g != [] {
        ConcatLast(g);
        assert Last(Last(g)) == s[|s| - 2] <= s[|s| - 1];
      }
      ExtendKeepsOrder(g, s[|s| - 1], threshold);
    }
  }

  // ---------------------------------------------------------------------
  // Means
  // ---------------------------------------------------------------------

  /** `np.mean` of a non-empty run. */
  function Mean(g: seq<real>): real
    requires g != []
  {
    Sum(g) / |g| as real
  }

  /** The mean of each run, in order. */
  function Means(groups: seq<seq<real>>): (r: seq<real>)
    requires NonEmptyRuns(groups)
    ensures |r| == |groups|
    ensures forall k | 0 <= k < |r| :: r[k] == Mean(groups[k])
  {
    if groups == [] then [] else Means(groups[..|groups| - 1]) + [Mean(Last(groups))]
  }

  lemma MeansSnoc(groups: seq<seq<real>>, g: seq<real>)
    requires NonEmptyRuns(groups) && g != []
    ensures NonEmptyRuns(groups + [g])
    ensures Means(groups + [g]) == Means(groups) + [Mean(g)]
  {
    assert (groups + [g])[..|groups|] == groups;
  }

  /** A sum of points in [lo, hi] lies between n·lo and n·hi. */
  lemma {:induction false} SumWithin(g: seq<real>, lo: real, hi: real)
    requires forall k | 0 <= k < |g| :: lo <= g[k] <= hi
    ensures |g| as real * lo <= Sum(g) <= |g| as real * hi
  {
    if g != [] {
      SumWithin(g[..|g| - 1], lo, hi);
    }
  }

  /** The mean of a sorted run lies between its first and last point. */
  lemma MeanWithin(g: seq<real>)
    requires g != [] && Sorted(g)
    ensures g[0] <= Mean(g) <= Last(g)
  {
    var n := |g| as real;
    SumWithin(g, g[0], Last(g));
    DivMono(n * g[0], Sum(g), n);
    DivMono(Sum(g), n * Last(g), n);
    assert n * g[0] / n == g[0];
    assert n * Last(g) / n == Last(g);
  }

  /** Over sorted points the cluster levels come out in non-decreasing order. */
  lemma MeansInOrder(s: seq<real>, threshold: real)
    requires Sorted(s)
    ensures var c := Means(Groups(s, threshold));
      forall k | 0 < k < |c| :: c[k - 1] <= c[k]
  {
    GroupsSorted(s, threshold);
    var g := Groups(s, threshold);
    forall k | 0 < k < |g|
      ensures Mean(g[k - 1]) <= Mean(g[k])
    {
      assert Sorted(g[k - 1]) && Sorted(g[k]);
      MeanWithin(g[k - 1]);
      MeanWithin(g[k]);
    }
  }

  // ---------------------------------------------------------------------
  // _cluster_levels
  // ---------------------------------------------------------------------

  /**
   * The loop of `_cluster_levels` over the sorted points: the current run
   * grows while the next point is less than the threshold above its last
   * point; otherwise the run's mean is emitted and a new run starts. The
   * last run's mean is emitted after the loop.
   */
  method ClusterRuns(sorted: seq<real>, distanceThreshold: real) returns (clusters: seq<real>)
    requires sorted != []
    ensures clusters == Means(Groups(sorted, distanceThreshold))
  {
    clusters := [];
    var current := [sorted[0]];
    ghost var done: seq<seq<real>> := [];
    GroupsSnoc(sorted, 0, distanceThreshold);
    var i := 1;
    while i < |sorted|
      invariant 1 <= i <= |sorted|
      invariant NonEmptyRuns(done) && current != []
      invariant Groups(sorted[..i], distanceThreshold) == done + [current]
      invariant clusters == Means(done)
    {
      GroupsSnoc(sorted, i, distanceThreshold);
      ExtendLast(done, current, sorted[i], distanceThreshold);
      if sorted[i] - current[|current| - 1] < distanceThreshold {
        current := current + [sorted[i]];
      } else {
        MeansSnoc(done, current);
        clusters := clusters + [Mean(current)];
        done := done + [current];
        current := [sorted[i]];
      }
      i := i + 1;
    }
    assert sorted[..i] == sorted;
    MeansSnoc(done, current);
    if current != [] {
      clusters := clusters + [Mean(current)];
    }
  }

  /**
   * `_cluster_levels`: no points give no levels; otherwise the levels are
   * the means of the runs of the sorted points, at most one per point and
   * in non-decreasing order.
   */
  method ClusterLevels(points: seq<real>, distanceThreshold: real) returns (clusters: seq<real>)
    ensures clusters == Means(Groups(SortPoints(points), distanceThreshold))
    ensures clusters == [] <==> points == []
    ensures |clusters| <= |points|
    ensures forall k | 0 < k < |clusters| :: clusters[k - 1] <= clusters[k]
  {
    if |points| == 0 {
      return [];
    }
    var sorted := SortPoints(points);
    clusters := ClusterRuns(sorted, distanceThreshold);
    MeansInOrder(sorted, distanceThreshold);
  }
}
