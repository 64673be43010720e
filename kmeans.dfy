/** `kmeans_clustering` of code_editor/utils.py: random initial centroids
    (given here as the list of sampled indices), then rounds of "assign every
    point to its nearest centroid, stop if nothing moved, else move every
    non-empty cluster's centroid to the mean of its points". */
module KMeans {
  import opened Common
  import opened Numeric

  // ---------------------------------------------------------------------
  // Specification
  // ---------------------------------------------------------------------

  /** Every row is at least as long as the first one, which is what the
      centroid update reads (`point[k]` for `k < len(data[0])`). */
  ghost predicate Wide(data: seq<seq<real>>) {
    data == [] || forall i :: 0 <= i < |data| ==> |data[i]| >= |data[0]|
  }

  /** What `random.sample(range(n), k)` returns: k distinct indices below n. */
  ghost predicate IsSample(sample: seq<nat>, n: nat, k: nat) {
    && |sample| == k
    && (forall j :: 0 <= j < k ==> sample[j] < n)
    && Distinct(sample)
  }

  /** The early exit of `kmeans_clustering`. */
  predicate Degenerate(n: nat, numClusters: int) {
    n == 0 || numClusters <= 0 || numClusters > n
  }

  function Min(a: nat, b: nat): nat {
    if a <= b then a else b
  }

  /** `sum((p - c)**2 for ...)` over the first n pairs of `zip(point, centroid)`. */
  function SumSquaredDiffs(point: seq<real>, centroid: seq<real>, n: nat): real
    requires n <= |point| && n <= |centroid|
  {
    if n == 0 then 0.0
    else SumSquaredDiffs(point, centroid, n - 1) + Square(point[n - 1] - centroid[n - 1])
  }

  /** Euclidean distance; `zip` stops at the end of the shorter vector. */
  function Distance(point: seq<real>, centroid: seq<real>, sqrt: real -> real): real {
    sqrt(SumSquaredDiffs(point, centroid, Min(|point|, |centroid|)))
  }

  /** The centroid the inner loop settles on after looking at the first n
      centroids: a nearest one, and the earliest of them on a tie, because
      the comparison is a strict `<`. */
  function NearestAmong(point: seq<real>, centroids: seq<seq<real>>, n: nat, sqrt: real -> real): (r: nat)
    requires 0 < n <= |centroids|
    ensures r < n
  {
    if n == 1 then 0
    else
      var best := NearestAmong(point, centroids, n - 1, sqrt);
      if Distance(point, centroids[n - 1], sqrt) < Distance(point, centroids[best], sqrt) then n - 1
      else best
  }

  function Nearest(point: seq<real>, centroids: seq<seq<real>>, sqrt: real -> real): (r: nat)
    requires |centroids| > 0
    ensures r < |centroids|
  {
    NearestAmong(point, centroids, |centroids|, sqrt)
  }

  /** The cluster of every point after one assignment pass. */
  function Assign(data: seq<seq<real>>, centroids: seq<seq<real>>, sqrt: real -> real): (r: seq<nat>)
    requires |centroids| > 0
    ensures |r| == |data|
    ensures forall i :: 0 <= i < |r| ==> r[i] < |centroids|
  {
    if data == [] then []
    else Assign(data[..|data| - 1], centroids, sqrt) + [Nearest(data[|data| - 1], centroids, sqrt)]
  }

  lemma {:induction false} AssignAt(data: seq<seq<real>>, centroids: seq<seq<real>>, sqrt: real -> real, i: nat)
    requires |centroids| > 0 && i < |data|
    ensures Assign(data, centroids, sqrt)[i] == Nearest(data[i], centroids, sqrt)
  {
    if i < |data| - 1 {
      AssignAt(data[..|data| - 1], centroids, sqrt, i);
    }
  }

  /** `[data[i] for i in range(len(data)) if clusters[i] == j]`. */
  function Members(data: seq<seq<real>>, clusters: seq<nat>, j: nat): (r: seq<seq<real>>)
    requires |clusters| == |data|
    ensures |r| <= |data|
    ensures forall t :: 0 <= t < |r| ==> r[t] in data
  {
    if data == [] then []
    else
      var n := |data| - 1;
      Members(data[..n], clusters[..n], j) + (if clusters[n] == j then [data[n]] else [])
  }

  /** Sum of coordinate c over the points. */
  function ColumnSum(points: seq<seq<real>>, c: nat): real
    requires forall t :: 0 <= t < |points| ==> c < |points[t]|
  {
    if points == [] then 0.0
    else ColumnSum(points[..|points| - 1], c) + points[|points| - 1][c]
  }

  /** The coordinate-wise sums over the first `length` coordinates. */
  function ColumnSums(points: seq<seq<real>>, length: nat): (r: seq<real>)
    requires forall t :: 0 <= t < |points| ==> |points[t]| >= length
    ensures |r| == length
  {
    seq(length, c requires 0 <= c < length => ColumnSum(points, c))
  }

  /** The mean of a non-empty list of points, over the first `length`
      coordinates. */
  function Mean(points: seq<seq<real>>, length: nat): (r: seq<real>)
    requires points != []
    requires forall t :: 0 <= t < |points| ==> |points[t]| >= length
    ensures |r| == length
  {
    var sums := ColumnSums(points, length);
    seq(length, c requires 0 <= c < length => sums[c] / |points| as real)
  }

  /** The new centroid of cluster j: the mean of its points over
      `len(data[0])` coordinates, or the current one when it has none. */
  function NewCentroid(data: seq<seq<real>>, clusters: seq<nat>, current: seq<real>, j: nat): seq<real>
    requires data != [] && Wide(data) && |clusters| == |data|
  {
    var points := Members(data, clusters, j);
    if points == [] then current else Mean(points, |data[0]|)
  }

  /** The centroid update over `range(num_clusters)`. */
  function Recompute(data: seq<seq<real>>, clusters: seq<nat>, centroids: seq<seq<real>>): (r: seq<seq<real>>)
    requires data != [] && Wide(data) && |clusters| == |data|
    ensures |r| == |centroids|
  {
    seq(|centroids|, j requires 0 <= j < |centroids| => NewCentroid(data, clusters, centroids[j], j))
  }

  /** The state the iteration loop ends in, with the number of assignment
      passes made and whether it stopped because nothing moved. */
  datatype Outcome = Outcome(clusters: seq<nat>, centroids: seq<seq<real>>, rounds: nat, converged: bool)

  /** The iteration loop with `budget` rounds left: it stops as soon as an
      assignment equals the previous one (without updating the centroids),
      or when the rounds run out. */
  function Run(data: seq<seq<real>>, clusters: seq<nat>, centroids: seq<seq<real>>,
               budget: nat, sqrt: real -> real): (r: Outcome)
    requires data != [] && Wide(data) && |centroids| > 0
    decreases budget
  {
    if budget == 0 then Outcome(clusters, centroids, 0, false)
    else
      var next := Assign(data, centroids, sqrt);
      if next == clusters then Outcome(next, centroids, 1, true)
      else
        var r := Run(data, next, Recompute(data, next, centroids), budget - 1, sqrt);
        r.(rounds := r.rounds + 1)
  }

  /** `clusters = [0] * len(data)`. */
  function Zeros(n: nat): (r: seq<nat>)
    ensures |r| == n && forall i :: 0 <= i < n ==> r[i] == 0
  {
    seq(n, _ => 0)
  }

  function InitialCentroids(data: seq<seq<real>>, sample: seq<nat>): seq<seq<real>>
    requires forall j :: 0 <= j < |sample| ==> sample[j] < |data|
  {
    seq(|sample|, j requires 0 <= j < |sample| => data[sample[j]])
  }

  /** The whole of `kmeans_clustering`, with `sample` standing for the
      indices `random.sample` draws. */
  function KMeansRun(data: seq<seq<real>>, numClusters: int, maxIterations: int,
                     sample: seq<nat>, sqrt: real -> real): Outcome
    requires Wide(data)
    requires !Degenerate(|data|, numClusters) ==> IsSample(sample, |data|, numClusters)
  {
    if Degenerate(|data|, numClusters) then Outcome([], [], 0, false)
    else
      Run(data, Zeros(|data|), InitialCentroids(data, sample),
          if maxIterations > 0 then maxIterations else 0, sqrt)
  }

  // ---------------------------------------------------------------------
  // The computation, as the source performs it
  // ---------------------------------------------------------------------

  /** The inner loop over the centroids for one point; `minDist` is `None`
      while it still holds `float('inf')`. */
  method NearestCentroid(point: seq<real>, centroids: array<seq<real>>, m: MathLib)
    returns (clusterIdx: nat)
    requires centroids.Length > 0
    ensures clusterIdx == Nearest(point, centroids[..], m.sqrt)
  {
    var minDist: Option<real> := None;
    clusterIdx := 0;
    for j := 0 to centroids.Length
      invariant j == 0 ==> minDist == None && clusterIdx == 0
      invariant j > 0 ==> clusterIdx == NearestAmong(point, centroids[..], j, m.sqrt)
      invariant j > 0 ==> minDist == Some(Distance(point, centroids[clusterIdx], m.sqrt))
    {
      var dist := Distance(point, centroids[j], m.sqrt);
      if minDist.None? || dist < minDist.value {
        minDist := Some(dist);
        clusterIdx := j;
      }
    }
  }

  /** The loop keeps the earliest centroid at minimum distance: no centroid
      is strictly nearer, and every earlier one is strictly farther. */
  lemma {:induction false} NearestIsFirstMinimum(point: seq<real>, centroids: seq<seq<real>>, n: nat, sqrt: real -> real)
    requires 0 < n <= |centroids|
    ensures var r := NearestAmong(point, centroids, n, sqrt);
      && (forall j :: 0 <= j < n ==> Distance(point, centroids[r], sqrt) <= Distance(point, centroids[j], sqrt))
      && (forall j :: 0 <= j < r ==> Distance(point, centroids[r], sqrt) < Distance(point, centroids[j], sqrt))
  {
    if n > 1 {
      NearestIsFirstMinimum(point, centroids, n - 1, sqrt);
    }
  }

  /** The assignment pass: `clusters[i] = cluster_idx` for every point. */
  method AssignPoints(data: seq<seq<real>>, centroids: array<seq<real>>, clusters: array<nat>, m: MathLib)
    requires centroids.Length > 0 && clusters.Length == |data|
    modifies clusters
    ensures clusters[..] == Assign(data, centroids[..], m.sqrt)
  {
    for i := 0 to |data|
      invariant forall t :: 0 <= t < i ==> clusters[t] == Nearest(data[t], centroids[..], m.sqrt)
    {
      var clusterIdx := NearestCentroid(data[i], centroids, m);
      clusters[i] := clusterIdx;
    }
    forall i | 0 <= i < |data|
      ensures clusters[i] == Assign(data, centroids[..], m.sqrt)[i]
    {
      AssignAt(data, centroids[..], m.sqrt, i);
    }
  }

  /** `centroid[k] += point[k]` for every k. */
  method AddPoint(centroid: array<real>, point: seq<real>)
    requires |point| >= centroid.Length
    modifies centroid
    ensures forall c :: 0 <= c < centroid.Length ==> centroid[c] == old(centroid[c]) + point[c]
  {
    for c := 0 to centroid.Length
      invariant forall e :: 0 <= e < c ==> centroid[e] == old(centroid[e]) + point[e]
      invariant forall e :: c <= e < centroid.Length ==> centroid[e] == old(centroid[e])
    {
      centroid[c] := centroid[c] + point[c];
    }
  }

  lemma ColumnSumsStep(points: seq<seq<real>>, length: nat, t: nat)
    requires t < |points|
    requires forall u :: 0 <= u < |points| ==> |points[u]| >= length
    ensures forall c :: 0 <= c < length ==>
              ColumnSums(points[..t + 1], length)[c] == ColumnSums(points[..t], length)[c] + points[t][c]
  {
    assert points[..t + 1][..t] == points[..t];
  }

  /** The summing loops of the centroid update followed by
      `[x/len(cluster_points) for x in centroid]`. */
  method ComputeMean(points: seq<seq<real>>, length: nat) returns (mean: seq<real>)
    requires points != []
    requires forall t :: 0 <= t < |points| ==> |points[t]| >= length
    ensures mean == Mean(points, length)
  {
    var centroid := new real[length](_ => 0.0);
    for t := 0 to |points|
      invariant centroid[..] == ColumnSums(points[..t], length)
    {
      ColumnSumsStep(points, length, t);
      AddPoint(centroid, points[t]);
    }
    assert points[..|points|] == points;
    var sums := centroid[..];
    mean := seq(length, c requires 0 <= c < length => sums[c] / |points| as real);
  }

  /** The update pass over `range(num_clusters)`. */
  method UpdateCentroids(data: seq<seq<real>>, clusters: array<nat>, centroids: array<seq<real>>)
    requires data != [] && Wide(data) && clusters.Length == |data|
    modifies centroids
    ensures centroids[..] == Recompute(data, clusters[..], old(centroids[..]))
  {
    ghost var target := Recompute(data, clusters[..], centroids[..]);
    for j := 0 to centroids.Length
      invariant forall t :: 0 <= t < j ==> centroids[t] == target[t]
      invariant forall t :: j <= t < centroids.Length ==> centroids[t] == old(centroids[t])
    {
      var clusterPoints := Members(data, clusters[..], j);
      if clusterPoints != [] {
        var vectorLength := |data[0]|;
        var centroid := ComputeMean(clusterPoints, vectorLength);
        centroids[j] := centroid;
      }
    }
  }

  /** The loop, started from this state with `budget` rounds left, ends
      with the clusters and centroids of `goal`. */
  ghost predicate Leads(data: seq<seq<real>>, clusters: seq<nat>, centroids: seq<seq<real>>,
                        budget: nat, sqrt: real -> real, goal: Outcome)
    requires data != [] && Wide(data) && |centroids| > 0
  {
    var r := Run(data, clusters, centroids, budget, sqrt);
    r.clusters == goal.clusters && r.centroids == goal.centroids
  }

  /** A round that stops: the new assignment equals the previous one, and
      the loop ends with it and with the centroids it was computed from. */
  lemma RunStops(data: seq<seq<real>>, clusters: seq<nat>, centroids: seq<seq<real>>,
                 budget: nat, sqrt: real -> real, goal: Outcome)
    requires data != [] && Wide(data) && |centroids| > 0 && budget > 0
    requires Assign(data, centroids, sqrt) == clusters
    requires Leads(data, clusters, centroids, budget, sqrt, goal)
    ensures goal.clusters == clusters && goal.centroids == centroids
  {
  }

  /** A round that moves a point: the loop goes on from the new assignment
      and the recomputed centroids, with one round less. */
  lemma RunContinues(data: seq<seq<real>>, clusters: seq<nat>, centroids: seq<seq<real>>,
                     next: seq<nat>, moved: seq<seq<real>>, budget: nat, left: nat,
                     sqrt: real -> real, goal: Outcome)
    requires data != [] && Wide(data) && |centroids| > 0 && budget == left + 1
    requires next == Assign(data, centroids, sqrt) && next != clusters
    requires moved == Recompute(data, next, centroids)
    requires Leads(data, clusters, centroids, budget, sqrt, goal)
    ensures |moved| == |centroids|
    ensures Leads(data, next, moved, left, sqrt, goal)
  {
  }

  /** One pass of the `for iteration in range(max_iterations)` body: assign
      every point; when nothing moved report it and change no centroid, else
      update the centroids. */
  method Round(data: seq<seq<real>>, labels: array<nat>, cents: array<seq<real>>, m: MathLib)
    returns (stable: bool)
    requires data != [] && Wide(data) && cents.Length > 0 && labels.Length == |data|
    modifies labels, cents
    ensures labels[..] == Assign(data, old(cents[..]), m.sqrt)
    ensures stable <==> labels[..] == old(labels[..])
    ensures stable ==> cents[..] == old(cents[..])
    ensures !stable ==> cents[..] == Recompute(data, labels[..], old(cents[..]))
  {
    var prevClusters := labels[..];
    AssignPoints(data, cents, labels, m);
    if prevClusters == labels[..] {
      return true;
    }
    UpdateCentroids(data, labels, cents);
    return false;
  }

  /** `for iteration in range(max_iterations)`: rounds until one leaves
      every point where it was, or until the rounds run out. */
  method Iterate(data: seq<seq<real>>, labels: array<nat>, cents: array<seq<real>>,
                 maxIterations: int, m: MathLib)
    requires data != [] && Wide(data) && cents.Length > 0 && labels.Length == |data|
    modifies labels, cents
    ensures var r := Run(data, old(labels[..]), old(cents[..]),
                         if maxIterations > 0 then maxIterations else 0, m.sqrt);
      labels[..] == r.clusters && cents[..] == r.centroids
  {
    ghost var budget: nat := if maxIterations > 0 then maxIterations else 0;
    ghost var goal := Run(data, labels[..], cents[..], budget, m.sqrt);
    var it := 0;
    ghost var left := budget;
    while it < maxIterations
      invariant 0 <= it <= budget && left == budget - it
      invariant Leads(data, labels[..], cents[..], left, m.sqrt, goal)
      decreases maxIterations - it
    {
      ghost var prevClusters := labels[..];
      ghost var prevCentroids := cents[..];
      ghost var before := left;
      var stable := Round(data, labels, cents, m);
      if stable {
        RunStops(data, prevClusters, prevCentroids, left, m.sqrt, goal);
        break;
      }
      it := it + 1;
      left := left - 1;
      RunContinues(data, prevClusters, prevCentroids, labels[..], cents[..], before, left, m.sqrt, goal);
    }
  }

  /** `kmeans_clustering(data, num_clusters, max_iterations)`, with the
      sampled initial indices passed in. */
  method KMeansClustering(data: seq<seq<real>>, numClusters: int, maxIterations: int,
                          sample: seq<nat>, m: MathLib)
    returns (clusters: seq<nat>, centroids: seq<seq<real>>)
    requires Wide(data)
    requires !Degenerate(|data|, numClusters) ==> IsSample(sample, |data|, numClusters)
    ensures clusters == KMeansRun(data, numClusters, maxIterations, sample, m.sqrt).clusters
    ensures centroids == KMeansRun(data, numClusters, maxIterations, sample, m.sqrt).centroids
  {
    if |data| == 0 || numClusters <= 0 || numClusters > |data| {
      return [], [];
    }
    var initial := InitialCentroids(data, sample);
    var cents := new seq<real>[numClusters](j requires 0 <= j < numClusters => initial[j]);
    var labels := new nat[|data|](_ => 0);
    assert labels[..] == Zeros(|data|);
    assert cents[..] == initial;
    Iterate(data, labels, cents, maxIterations, m);
    clusters := labels[..];
    centroids := cents[..];
  }

  // ---------------------------------------------------------------------
  // Properties
  // ---------------------------------------------------------------------

  /** Every pass keeps one cluster id per point, each below the number of
      centroids, and the number of centroids; the loop stops either because
      the assignment is a fixed point of its centroids or after exactly
      `budget` passes. */
  lemma {:induction false} RunShape(data: seq<seq<real>>, clusters: seq<nat>, centroids: seq<seq<real>>,
                                    budget: nat, sqrt: real -> real)
    requires data != [] && Wide(data) && |centroids| > 0
    requires |clusters| == |data| && forall i :: 0 <= i < |clusters| ==> clusters[i] < |centroids|
    ensures var r := Run(data, clusters, centroids, budget, sqrt);
      && |r.clusters| == |data|
      && (forall i :: 0 <= i < |data| ==> r.clusters[i] < |centroids|)
      && |r.centroids| == |centroids|
      && r.rounds <= budget
      && (r.converged ==> Assign(data, r.centroids, sqrt) == r.clusters)
      && (!r.converged ==> r.rounds == budget)
    decreases budget
  {
    var r := Run(data, clusters, centroids, budget, sqrt);
    if budget == 0 {
      assert r == Outcome(clusters, centroids, 0, false);
    } else {
      var next := Assign(data, centroids, sqrt);
      if next == clusters {
        assert r == Outcome(next, centroids, 1, true);
      } else {
        var moved := Recompute(data, next, centroids);
        RunShape(data, next, moved, budget - 1, sqrt);
        var rest := Run(data, next, moved, budget - 1, sqrt);
        assert r == rest.(rounds := rest.rounds + 1);
      }
    }
  }

  /** The result has one id in `[0, num_clusters)` per point and
      `num_clusters` centroids; it is `([], [])` exactly on the degenerate
      inputs; and the loop ended on a fixed point or after `max_iterations`
      passes. */
  lemma KMeansShape(data: seq<seq<real>>, numClusters: int, maxIterations: int,
                    sample: seq<nat>, sqrt: real -> real)
    requires Wide(data)
    requires !Degenerate(|data|, numClusters) ==> IsSample(sample, |data|, numClusters)
    ensures var r := KMeansRun(data, numClusters, maxIterations, sample, sqrt);
      && (r.clusters == [] <==> Degenerate(|data|, numClusters))
      && (Degenerate(|data|, numClusters) ==> r.centroids == [])
      && (!Degenerate(|data|, numClusters) ==>
            && |r.clusters| == |data|
            && (forall i :: 0 <= i < |data| ==> r.clusters[i] < numClusters)
            && |r.centroids| == numClusters
            && (r.converged ==> Assign(data, r.centroids, sqrt) == r.clusters)
            && (!r.converged ==> r.rounds == (if maxIterations > 0 then maxIterations else 0)))
  {
    if !Degenerate(|data|, numClusters) {
      RunShape(data, Zeros(|data|), InitialCentroids(data, sample),
               if maxIterations > 0 then maxIterations else 0, sqrt);
    }
  }

  /** Two equal points that start in the same cluster end in the same
      cluster: every pass sends them to the same nearest centroid. */
  lemma {:induction false} RunKeepsTwins(data: seq<seq<real>>, clusters: seq<nat>, centroids: seq<seq<real>>,
                                         budget: nat, sqrt: real -> real, i: nat, j: nat)
    requires data != [] && Wide(data) && |centroids| > 0
    requires |clusters| == |data| && i < |data| && j < |data|
    requires data[i] == data[j] && clusters[i] == clusters[j]
    ensures var r := Run(data, clusters, centroids, budget, sqrt);
      |r.clusters| == |data| && r.clusters[i] == r.clusters[j]
    decreases budget
  {
    var r := Run(data, clusters, centroids, budget, sqrt);
    if budget == 0 {
      assert r.clusters == clusters;
    } else {
      var next := Assign(data, centroids, sqrt);
      AssignAt(data, centroids, sqrt, i);
      AssignAt(data, centroids, sqrt, j);
      assert next[i] == next[j];
      if next == clusters {
        assert r.clusters == next;
      } else {
        var moved := Recompute(data, next, centroids);
        RunKeepsTwins(data, next, moved, budget - 1, sqrt, i, j);
        assert r.clusters == Run(data, next, moved, budget - 1, sqrt).clusters;
      }
    }
  }

  /** Equal data points always share a cluster. */
  lemma EqualPointsShareCluster(data: seq<seq<real>>, numClusters: int, maxIterations: int,
                                sample: seq<nat>, sqrt: real -> real, i: nat, j: nat)
    requires Wide(data)
    requires !Degenerate(|data|, numClusters) ==> IsSample(sample, |data|, numClusters)
    requires !Degenerate(|data|, numClusters) && i < |data| && j < |data| && data[i] == data[j]
    ensures var r := KMeansRun(data, numClusters, maxIterations, sample, sqrt);
      |r.clusters| == |data| && r.clusters[i] == r.clusters[j]
  {
    RunKeepsTwins(data, Zeros(|data|), InitialCentroids(data, sample),
                  if maxIterations > 0 then maxIterations else 0, sqrt, i, j);
  }

  /** With no iteration allowed, every point stays in cluster 0 and the
      centroids are the sampled points, which are distinct data rows. */
  lemma NoIterations(data: seq<seq<real>>, numClusters: int, maxIterations: int,
                     sample: seq<nat>, sqrt: real -> real)
    requires Wide(data) && maxIterations <= 0 && !Degenerate(|data|, numClusters)
    requires IsSample(sample, |data|, numClusters)
    ensures var r := KMeansRun(data, numClusters, maxIterations, sample, sqrt);
      && (forall i :: 0 <= i < |r.clusters| ==> r.clusters[i] == 0)
      && |r.centroids| == numClusters
      && (forall j :: 0 <= j < numClusters ==> r.centroids[j] == data[sample[j]])
  {
  }

  /** A cluster that gets no point keeps its centroid; one that gets points
      moves to their mean, and those points are exactly the ones labels
      to it. */
  lemma {:induction false} MembersAreAssigned(data: seq<seq<real>>, clusters: seq<nat>, j: nat, p: seq<real>)
    requires |clusters| == |data|
    ensures p in Members(data, clusters, j) <==> exists i :: 0 <= i < |data| && clusters[i] == j && data[i] == p
  {
    if data != [] {
      var n := |data| - 1;
      MembersAreAssigned(data[..n], clusters[..n], j, p);
      if p in Members(data, clusters, j) && !(p in Members(data[..n], clusters[..n], j)) {
        assert clusters[n] == j && data[n] == p;
      }
      if exists i :: 0 <= i < |data| && clusters[i] == j && data[i] == p {
        var i :| 0 <= i < |data| && clusters[i] == j && data[i] == p;
        if i < n {
          assert data[..n][i] == p && clusters[..n][i] == j;
        }
      }
    }
  }

  lemma EmptyClusterKeepsCentroid(data: seq<seq<real>>, clusters: seq<nat>, centroids: seq<seq<real>>, j: nat)
    requires data != [] && Wide(data) && |clusters| == |data| && j < |centroids|
    requires forall i :: 0 <= i < |data| ==> clusters[i] != j
    ensures Recompute(data, clusters, centroids)[j] == centroids[j]
  {
    var points := Members(data, clusters, j);
    if points != [] {
      MembersAreAssigned(data, clusters, j, points[0]);
    }
  }

  // The update stays inside the box spanned by the data.

  /** All coordinates of `v` lie in `[lo, hi]`. */
  ghost predicate InBox(v: seq<real>, lo: real, hi: real) {
    forall c :: 0 <= c < |v| ==> lo <= v[c] <= hi
  }

  /** Every vector of `vs` lies in the box. */
  ghost predicate AllInBox(vs: seq<seq<real>>, lo: real, hi: real) {
    forall j :: 0 <= j < |vs| ==> InBox(vs[j], lo, hi)
  }

  lemma ProductStep(n: real, x: real)
    ensures Product(n + 1.0, x) == Product(n, x) + x
  {
  }

  lemma {:induction false} ColumnSumBounds(points: seq<seq<real>>, c: nat, lo: real, hi: real)
    requires forall t :: 0 <= t < |points| ==> c < |points[t]| && lo <= points[t][c] <= hi
    ensures Product(|points| as real, lo) <= ColumnSum(points, c) <= Product(|points| as real, hi)
  {
    if points != [] {
      var n := |points| - 1;
      ColumnSumBounds(points[..n], c, lo, hi);
      ProductStep(n as real, lo);
      ProductStep(n as real, hi);
    }
  }

  lemma DivideBounds(x: real, n: real, lo: real, hi: real)
    requires n > 0.0 && Product(n, lo) <= x <= Product(n, hi)
    ensures lo <= x / n <= hi
  {
    var q := x / n;
    assert q * n == x;
  }

  lemma MeanInBox(points: seq<seq<real>>, length: nat, lo: real, hi: real)
    requires points != []
    requires forall t :: 0 <= t < |points| ==> |points[t]| >= length && InBox(points[t], lo, hi)
    ensures InBox(Mean(points, length), lo, hi)
  {
    forall c | 0 <= c < length
      ensures lo <= Mean(points, length)[c] <= hi
    {
      ColumnSumBounds(points, c, lo, hi);
      DivideBounds(ColumnSum(points, c), |points| as real, lo, hi);
    }
  }

  /** When every data point and every centroid lies in the box, so does
      every recomputed centroid. */
  lemma RecomputeInBox(data: seq<seq<real>>, clusters: seq<nat>, centroids: seq<seq<real>>, lo: real, hi: real)
    requires data != [] && Wide(data) && |clusters| == |data|
    requires AllInBox(data, lo, hi) && AllInBox(centroids, lo, hi)
    ensures AllInBox(Recompute(data, clusters, centroids), lo, hi)
  {
    forall j | 0 <= j < |centroids|
      ensures InBox(Recompute(data, clusters, centroids)[j], lo, hi)
    {
      var points := Members(data, clusters, j);
      if points != [] {
        MeanInBox(points, |data[0]|, lo, hi);
      }
    }
  }

  lemma {:induction false} RunInBox(data: seq<seq<real>>, clusters: seq<nat>, centroids: seq<seq<real>>,
                                    budget: nat, sqrt: real -> real, lo: real, hi: real)
    requires data != [] && Wide(data) && |centroids| > 0
    requires AllInBox(data, lo, hi) && AllInBox(centroids, lo, hi)
    ensures AllInBox(Run(data, clusters, centroids, budget, sqrt).centroids, lo, hi)
    decreases budget
  {
    if budget > 0 {
      var next := Assign(data, centroids, sqrt);
      if next != clusters {
        var moved := Recompute(data, next, centroids);
        RecomputeInBox(data, next, centroids, lo, hi);
        RunInBox(data, next, moved, budget - 1, sqrt, lo, hi);
        var rest := Run(data, next, moved, budget - 1, sqrt);
        assert Run(data, clusters, centroids, budget, sqrt).centroids == rest.centroids;
      }
    }
  }

  /** The centroids returned lie in any box that holds all the data (for
      TF-IDF rows: every coordinate stays within `[0, 1]`). */
  lemma CentroidsInBox(data: seq<seq<real>>, numClusters: int, maxIterations: int,
                       sample: seq<nat>, sqrt: real -> real, lo: real, hi: real)
    requires Wide(data)
    requires !Degenerate(|data|, numClusters) ==> IsSample(sample, |data|, numClusters)
    requires AllInBox(data, lo, hi)
    ensures AllInBox(KMeansRun(data, numClusters, maxIterations, sample, sqrt).centroids, lo, hi)
  {
    if !Degenerate(|data|, numClusters) {
      var initial := InitialCentroids(data, sample);
      assert forall j :: 0 <= j < |initial| ==> initial[j] == data[sample[j]];
      RunInBox(data, Zeros(|data|), initial,
               if maxIterations > 0 then maxIterations else 0, sqrt, lo, hi);
    }
  }
}
