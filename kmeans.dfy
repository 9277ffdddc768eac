/**
 * k-means clustering (kmeans/kmeans.go, and its copy models/kmeans.go, which
 * differs only in calling models/helpers.go `distance` where the other calls
 * `floats.Distance(_, _, 2)`; both are the Euclidean distance of `Distances`).
 *
 * A data point is its feature vector. A cluster is an object whose member list
 * and centre the algorithm updates in place; the clusters of one run are
 * distinct objects.
 */
module KMeans {
  import opened Common
  import opened Floats
  import opened Distances

  /** The per-coordinate tolerance of sameCenter. */
  const CenterTolerance: real := 0.0000001

  /** Every vector of `points` has `d` coordinates. */
  predicate Dimension(points: seq<seq<real>>, d: nat)
  {
    forall i | 0 <= i < |points| :: |points[i]| == d
  }

  // ---------------------------------------------------------------------------
  // Nearest centre
  // ---------------------------------------------------------------------------

  /**
   * The centre findBestCluster picks among the first `n`: it scans upwards and
   * moves only to a strictly closer centre, so the earliest of the closest wins.
   */
  function NearestAmong(p: seq<real>, centers: seq<seq<real>>, n: nat): (k: nat)
    requires 1 <= n <= |centers|
    requires Dimension(centers, |p|)
    ensures k < n
  {
    if n == 1 then 0
    else
      var k := NearestAmong(p, centers, n - 1);
      if Below(Sqrt(SquaredDistance(p, centers[n - 1])), Sqrt(SquaredDistance(p, centers[k]))) then n - 1 else k
  }

  function Nearest(p: seq<real>, centers: seq<seq<real>>): nat
    requires |centers| > 0
    requires Dimension(centers, |p|)
  {
    NearestAmong(p, centers, |centers|)
  }

  /** `k` is a closest of the first `n` centres to `p`, and no earlier one is as close. */
  predicate ClosestFirst(p: seq<real>, centers: seq<seq<real>>, n: nat, k: nat)
    requires n <= |centers|
    requires Dimension(centers, |p|)
  {
    && k < n
    && (forall j | 0 <= j < n :: SquaredDistance(p, centers[k]) <= SquaredDistance(p, centers[j]))
    && (forall j | 0 <= j < k :: SquaredDistance(p, centers[k]) < SquaredDistance(p, centers[j]))
  }

  /** The centre findBestCluster picks is a closest one, and the lowest-indexed of those. */
  lemma {:induction false} NearestIsClosestFirst(p: seq<real>, centers: seq<seq<real>>, n: nat)
    requires 1 <= n <= |centers|
    requires Dimension(centers, |p|)
    ensures ClosestFirst(p, centers, n, NearestAmong(p, centers, n))
  {
    if n > 1 {
      NearestIsClosestFirst(p, centers, n - 1);
    }
  }

  /** At most one centre is a closest one with no equally close predecessor. */
  lemma ClosestFirstUnique(p: seq<real>, centers: seq<seq<real>>, n: nat, k: nat, k': nat)
    requires n <= |centers|
    requires Dimension(centers, |p|)
    requires ClosestFirst(p, centers, n, k) && ClosestFirst(p, centers, n, k')
    ensures k == k'
  {
    assert SquaredDistance(p, centers[k]) <= SquaredDistance(p, centers[k']);
    assert SquaredDistance(p, centers[k']) <= SquaredDistance(p, centers[k]);
  }

  // ---------------------------------------------------------------------------
  // Assignment of points to clusters
  // ---------------------------------------------------------------------------

  /** The points among the first `n` whose nearest centre is `k`, in dataset order. */
  function Assigned(points: seq<seq<real>>, centers: seq<seq<real>>, d: nat, k: nat, n: nat): (members: seq<seq<real>>)
    requires n <= |points|
    requires (n > 0 ==> |centers| > 0) && Dimension(centers, d) && Dimension(points, d)
    ensures |members| <= n
    ensures Dimension(members, d)
  {
    if n == 0 then []
    else Assigned(points, centers, d, k, n - 1)
         + (if Nearest(points[n - 1], centers) == k then [points[n - 1]] else [])
  }

  /** How many of the first `n` points the first `m` clusters receive. */
  function AssignedCount(points: seq<seq<real>>, centers: seq<seq<real>>, d: nat, m: nat, n: nat): nat
    requires n <= |points|
    requires |centers| > 0 && Dimension(centers, d) && Dimension(points, d)
  {
    if m == 0 then 0
    else AssignedCount(points, centers, d, m - 1, n) + |Assigned(points, centers, d, m - 1, n)|
  }

  /** The `n`-th point raises the count of the first `m` clusters exactly when its cluster is one of them. */
  lemma {:induction false} AssignedCountStep(points: seq<seq<real>>, centers: seq<seq<real>>, d: nat, m: nat, n: nat)
    requires 0 < n <= |points|
    requires |centers| > 0 && Dimension(centers, d) && Dimension(points, d)
    ensures AssignedCount(points, centers, d, m, n)
         == AssignedCount(points, centers, d, m, n - 1) + (if Nearest(points[n - 1], centers) < m then 1 else 0)
  {
    if m > 0 {
      AssignedCountStep(points, centers, d, m - 1, n);
    }
  }

  /** Every point goes to exactly one cluster: the cluster sizes add up to the number of points. */
  lemma {:induction false} AssignmentPartitions(points: seq<seq<real>>, centers: seq<seq<real>>, d: nat, n: nat)
    requires n <= |points|
    requires |centers| > 0 && Dimension(centers, d) && Dimension(points, d)
    ensures AssignedCount(points, centers, d, |centers|, n) == n
  {
    if n == 0 {
      ZeroPointsNoMembers(points, centers, d, |centers|);
    } else {
      AssignmentPartitions(points, centers, d, n - 1);
      AssignedCountStep(points, centers, d, |centers|, n);
    }
  }

  lemma {:induction false} ZeroPointsNoMembers(points: seq<seq<real>>, centers: seq<seq<real>>, d: nat, m: nat)
    requires |centers| > 0 && Dimension(centers, d) && Dimension(points, d)
    ensures AssignedCount(points, centers, d, m, 0) == 0
  {
    if m > 0 {
      ZeroPointsNoMembers(points, centers, d, m - 1);
    }
  }

  // ---------------------------------------------------------------------------
  // New centres
  // ---------------------------------------------------------------------------

  /** calculateNewCenter can run: every member has at least the first member's coordinates. */
  predicate MeanDefined(members: seq<seq<real>>)
  {
    |members| == 0 || forall i | 0 <= i < |members| :: |members[i]| >= |members[0]|
  }

  /** Coordinate `j` summed over the first `n` members. */
  function ColumnSum(members: seq<seq<real>>, j: nat, n: nat): real
    requires n <= |members|
    requires forall i | 0 <= i < n :: j < |members[i]|
  {
    if n == 0 then 0.0 else ColumnSum(members, j, n - 1) + members[n - 1][j]
  }

  /** The componentwise mean over the coordinates of the first member. */
  function Mean(members: seq<seq<real>>): (m: seq<real>)
    requires |members| > 0 && MeanDefined(members)
    ensures |m| == |members[0]|
  {
    seq(|members[0]|, j requires 0 <= j < |members[0]| => ColumnSum(members, j, |members|) / |members| as real)
  }

  /** A cluster's centre after updateClustersCenters: the mean, or the old centre for no members. */
  function NewCenter(members: seq<seq<real>>, center: seq<real>): seq<real>
    requires MeanDefined(members)
  {
    if |members| == 0 then center else Mean(members)
  }

  lemma {:induction false} ColumnSumOfCopies(members: seq<seq<real>>, p: seq<real>, j: nat, n: nat)
    requires n <= |members| && j < |p|
    requires forall i | 0 <= i < |members| :: members[i] == p
    ensures ColumnSum(members, j, n) == n as real * p[j]
  {
    if n > 0 {
      ColumnSumOfCopies(members, p, j, n - 1);
    }
  }

  /** The mean of copies of one point is that point; so a cluster of identical points keeps its centre on it. */
  lemma MeanOfCopies(members: seq<seq<real>>, p: seq<real>)
    requires |members| > 0
    requires forall i | 0 <= i < |members| :: members[i] == p
    ensures MeanDefined(members) && Mean(members) == p
  {
    forall j | 0 <= j < |p|
      ensures Mean(members)[j] == p[j]
    {
      ColumnSumOfCopies(members, p, j, |members|);
    }
  }

  // ---------------------------------------------------------------------------
  // Comparing centres
  // ---------------------------------------------------------------------------

  /** Coordinates `i..` of `a` and `b` are within the tolerance (the loop of sameCenter from `i`). */
  function CloseFrom(a: seq<real>, b: seq<real>, i: nat): (r: bool)
    requires |a| == |b| && i <= |a|
    ensures r <==> forall k {:trigger a[k], b[k]} | i <= k < |a| :: Abs(a[k] - b[k]) <= CenterTolerance
    decreases |a| - i
  {
    if i == |a| then true
    else if Abs(a[i] - b[i]) > CenterTolerance then false
    else CloseFrom(a, b, i + 1)
  }

  /** sameCenter: equal lengths, and no coordinate differs by more than the tolerance. */
  function SameCenter(a: seq<real>, b: seq<real>): (r: bool)
    ensures r <==> |a| == |b| && forall k {:trigger a[k], b[k]} | 0 <= k < |a| :: Abs(a[k] - b[k]) <= CenterTolerance
  {
    if |a| != |b| then false else CloseFrom(a, b, 0)
  }

  /** centerInsideSet, scanning `centers` from position `i`. */
  function InsideFrom(center: seq<real>, centers: seq<seq<real>>, i: nat): (r: bool)
    requires i <= |centers|
    ensures r <==> exists k {:trigger SameCenter(center, centers[k])} | i <= k < |centers| :: SameCenter(center, centers[k])
    decreases |centers| - i
  {
    if i == |centers| then false
    else if SameCenter(center, centers[i]) then true
    else InsideFrom(center, centers, i + 1)
  }

  /** centerInsideSet: some centre of `centers` is the same as `center`. */
  function CenterInsideSet(center: seq<real>, centers: seq<seq<real>>): (r: bool)
    ensures r <==> exists k {:trigger SameCenter(center, centers[k])} | 0 <= k < |centers| :: SameCenter(center, centers[k])
  {
    InsideFrom(center, centers, 0)
  }

  lemma InsideByWitness(center: seq<real>, centers: seq<seq<real>>, k: nat)
    requires k < |centers| && SameCenter(center, centers[k])
    ensures CenterInsideSet(center, centers)
  {
  }

  /** Every centre of `a` is inside `b`. */
  predicate AllInside(a: seq<seq<real>>, b: seq<seq<real>>)
  {
    forall i {:trigger CenterInsideSet(a[i], b)} | 0 <= i < |a| :: CenterInsideSet(a[i], b)
  }

  /** Every centre of `a` from position `i` on is inside `b` (one of sameCenterSet's two loops). */
  function AllInsideFrom(a: seq<seq<real>>, b: seq<seq<real>>, i: nat): (r: bool)
    requires i <= |a|
    ensures r <==> forall k {:trigger CenterInsideSet(a[k], b)} | i <= k < |a| :: CenterInsideSet(a[k], b)
    decreases |a| - i
  {
    if i == |a| then true
    else if !CenterInsideSet(a[i], b) then false
    else AllInsideFrom(a, b, i + 1)
  }

  /** sameCenterSet: equal lengths and every centre of each side matches one of the other. */
  function SameCenterSet(a: seq<seq<real>>, b: seq<seq<real>>): (r: bool)
    ensures r <==> |a| == |b| && AllInside(a, b) && AllInside(b, a)
  {
    if |a| != |b| then false
    else AllInsideFrom(a, b, 0) && AllInsideFrom(b, a, 0)
  }

  lemma SameCenterSymmetric(a: seq<real>, b: seq<real>)
    ensures SameCenter(a, b) == SameCenter(b, a)
  {
    if |a| == |b| {
      forall k | 0 <= k < |a|
        ensures Abs(a[k] - b[k]) == Abs(b[k] - a[k])
      {
      }
    }
  }

  /** sameCenterSet does not care which side is which. */
  lemma SameCenterSetSymmetric(a: seq<seq<real>>, b: seq<seq<real>>)
    ensures SameCenterSet(a, b) == SameCenterSet(b, a)
  {
  }

  /** A list of centres matches itself, so centres that did not move end Clustering. */
  lemma SameCenterSetReflexive(a: seq<seq<real>>)
    ensures SameCenterSet(a, a)
  {
    forall i | 0 <= i < |a|
      ensures CenterInsideSet(a[i], a)
    {
      assert SameCenter(a[i], a[i]);
      InsideByWitness(a[i], a, i);
    }
  }

  /** Whether a centre is inside a list of centres depends only on its elements, not their order. */
  lemma InsideReordered(center: seq<real>, centers: seq<seq<real>>, centers': seq<seq<real>>)
    requires multiset(centers) == multiset(centers')
    ensures CenterInsideSet(center, centers) == CenterInsideSet(center, centers')
  {
    if CenterInsideSet(center, centers) {
      var k :| 0 <= k < |centers| && SameCenter(center, centers[k]);
      assert centers[k] in multiset(centers');
      var k' :| 0 <= k' < |centers'| && centers'[k'] == centers[k];
    }
    if CenterInsideSet(center, centers') {
      var k :| 0 <= k < |centers'| && SameCenter(center, centers'[k]);
      assert centers'[k] in multiset(centers);
      var k' :| 0 <= k' < |centers| && centers[k'] == centers'[k];
    }
  }

  /** If every centre of `a` is inside `b`, so is every centre of any reordering of `a`. */
  lemma EveryInsideReordered(a: seq<seq<real>>, a': seq<seq<real>>, b: seq<seq<real>>)
    requires multiset(a) == multiset(a')
    requires AllInside(a, b)
    ensures AllInside(a', b)
  {
    forall i | 0 <= i < |a'|
      ensures CenterInsideSet(a'[i], b)
    {
      assert a'[i] in multiset(a);
      var k :| 0 <= k < |a| && a[k] == a'[i];
    }
  }

  /** Reordering either centre list does not change sameCenterSet's answer. */
  lemma SameCenterSetReordered(a: seq<seq<real>>, a': seq<seq<real>>, b: seq<seq<real>>)
    requires multiset(a) == multiset(a')
    ensures SameCenterSet(a, b) == SameCenterSet(a', b)
  {
    assert |a| == |multiset(a)| == |multiset(a')| == |a'|;
    forall j | 0 <= j < |b|
      ensures CenterInsideSet(b[j], a) == CenterInsideSet(b[j], a')
    {
      InsideReordered(b[j], a, a');
    }
    assert AllInside(b, a) == AllInside(b, a');
    if SameCenterSet(a, b) {
      EveryInsideReordered(a, a', b);
    }
    if SameCenterSet(a', b) {
      EveryInsideReordered(a', a, b);
    }
  }

  // ---------------------------------------------------------------------------
  // Clusters
  // ---------------------------------------------------------------------------

  /** A cluster: its members and its centre. */
  class Cluster {
    var members: seq<seq<real>>
    var center: seq<real>

    /** A cluster seeded with `center` and no members (a `var c Cluster` whose centre is then set). */
    constructor (center: seq<real>)
      ensures members == [] && this.center == center
    {
      members := [];
      this.center := center;
    }

    /** Add: appends one member. */
    method Add(p: seq<real>)
      modifies this
      ensures members == old(members) + [p]
      ensures center == old(center)
    {
      members := members + [p];
    }

    /** Reset: empties the members. */
    method Reset()
      modifies this
      ensures members == []
      ensures center == old(center)
    {
      members := [];
    }

    /** Members: the members, copied one by one into a new list. */
    method Members() returns (out: seq<seq<real>>)
      ensures out == members
    {
      out := [];
      for i := 0 to |members|
        invariant out == members[..i]
      {
        out := out + [members[i]];
      }
    }
  }

  /** The clusters are pairwise different objects. */
  predicate Distinct(clusters: seq<Cluster>)
  {
    forall i, j | 0 <= i < j < |clusters| :: clusters[i] != clusters[j]
  }

  /** getCenters: the clusters' centres, in order. */
  function Centers(clusters: seq<Cluster>): (centers: seq<seq<real>>)
    reads set c | c in clusters
    ensures |centers| == |clusters|
    ensures forall k | 0 <= k < |clusters| :: centers[k] == clusters[k].center
  {
    seq(|clusters|, k requires 0 <= k < |clusters| reads set c | c in clusters => clusters[k].center)
  }

  /** The clusters' member lists, in order. */
  function MemberLists(clusters: seq<Cluster>): (lists: seq<seq<seq<real>>>)
    reads set c | c in clusters
    ensures |lists| == |clusters|
    ensures forall k | 0 <= k < |clusters| :: lists[k] == clusters[k].members
  {
    seq(|clusters|, k requires 0 <= k < |clusters| reads set c | c in clusters => clusters[k].members)
  }

  /** The total length of the lists. */
  function TotalLength(lists: seq<seq<seq<real>>>): nat
  {
    if |lists| == 0 then 0 else TotalLength(lists[..|lists| - 1]) + |lists[|lists| - 1]|
  }

  /** Lists that are the assignment of the points to the centres hold every point exactly once in total. */
  lemma {:induction false} AssignedListsCount(lists: seq<seq<seq<real>>>, points: seq<seq<real>>, centers: seq<seq<real>>, d: nat, m: nat)
    requires m <= |lists| && |centers| > 0 && Dimension(centers, d) && Dimension(points, d)
    requires forall k | 0 <= k < |lists| :: lists[k] == Assigned(points, centers, d, k, |points|)
    ensures TotalLength(lists[..m]) == AssignedCount(points, centers, d, m, |points|)
  {
    if m > 0 {
      assert lists[..m][..m - 1] == lists[..m - 1];
      AssignedListsCount(lists, points, centers, d, m - 1);
    }
  }

  /**
   * findBestCluster: requires a cluster and points and centres of one dimension;
   * returns the cluster whose centre findBestCluster's scan settles on.
   */
  method FindBestCluster(p: seq<real>, clusters: seq<Cluster>) returns (best: Cluster)
    requires |clusters| > 0 && Dimension(Centers(clusters), |p|)
    ensures best == clusters[Nearest(p, Centers(clusters))]
  {
    ghost var centers := Centers(clusters);
    var mini := 0;
    var mind := Distance(p, clusters[0].center);
    for i := 1 to |clusters|
      invariant mini == NearestAmong(p, centers, i)
      invariant mind == Sqrt(SquaredDistance(p, centers[mini]))
    {
      var d := Distance(p, clusters[i].center);
      if Below(d, mind) {
        mini := i;
        mind := d;
      }
    }
    best := clusters[mini];
  }

  /** One iteration of addMembersToClusters: the point joins its best cluster and no other. */
  method AddToBest(p: seq<real>, clusters: seq<Cluster>, ghost centers: seq<seq<real>>)
    requires |clusters| > 0 && Distinct(clusters)
    requires Centers(clusters) == centers && Dimension(centers, |p|)
    modifies set c | c in clusters
    ensures forall k | 0 <= k < |clusters| :: clusters[k].center == centers[k]
    ensures forall k | 0 <= k < |clusters| ::
      clusters[k].members == old(clusters[k].members) + (if Nearest(p, centers) == k then [p] else [])
  {
    var c := FindBestCluster(p, clusters);
    ghost var best := Nearest(p, centers);
    c.Add(p);
    assert forall k | 0 <= k < |clusters| && k != best :: clusters[k] != c;
  }

  lemma ConcatAssociative<T>(a: seq<T>, b: seq<T>, c: seq<T>)
    ensures (a + b) + c == a + (b + c)
  {
  }

  /** The member lists `initial` after the first `n` points are assigned to `centers`. */
  function Gathered(initial: seq<seq<seq<real>>>, dps: seq<seq<real>>, centers: seq<seq<real>>, d: nat, n: nat): (lists: seq<seq<seq<real>>>)
    requires n <= |dps| && (n > 0 ==> |centers| > 0) && Dimension(centers, d) && Dimension(dps, d)
    ensures |lists| == |initial|
  {
    seq(|initial|, k requires 0 <= k < |initial| => initial[k] + Assigned(dps, centers, d, k, n))
  }

  /** Before any point is assigned the lists are as they were. */
  lemma GatheredNone(initial: seq<seq<seq<real>>>, dps: seq<seq<real>>, centers: seq<seq<real>>, d: nat)
    requires Dimension(centers, d) && Dimension(dps, d)
    ensures Gathered(initial, dps, centers, d, 0) == initial
  {
    forall k | 0 <= k < |initial|
      ensures Gathered(initial, dps, centers, d, 0)[k] == initial[k]
    {
      assert initial[k] + [] == initial[k];
    }
  }

  /** Lists holding the first `i` points' assignment hold the first `i + 1` points' once point `i` joins its best list. */
  lemma AssignedStep(initial: seq<seq<seq<real>>>, after: seq<seq<seq<real>>>,
                     dps: seq<seq<real>>, centers: seq<seq<real>>, d: nat, i: nat)
    requires i < |dps| && |centers| > 0 && Dimension(centers, d) && Dimension(dps, d)
    requires |initial| == |after| == |centers|
    requires forall k | 0 <= k < |centers| ::
      after[k] == Gathered(initial, dps, centers, d, i)[k] + (if Nearest(dps[i], centers) == k then [dps[i]] else [])
    ensures after == Gathered(initial, dps, centers, d, i + 1)
  {
    forall k | 0 <= k < |centers|
      ensures after[k] == Gathered(initial, dps, centers, d, i + 1)[k]
    {
      var joined := if Nearest(dps[i], centers) == k then [dps[i]] else [];
      assert Assigned(dps, centers, d, k, i + 1) == Assigned(dps, centers, d, k, i) + joined;
      ConcatAssociative(initial[k], Assigned(dps, centers, d, k, i), joined);
    }
  }

  /** addMembersToClusters: each point is added to its best cluster, in dataset order. */
  method AddMembersToClusters(dps: seq<seq<real>>, clusters: seq<Cluster>, ghost d: nat)
    requires (|dps| > 0 ==> |clusters| > 0) && Distinct(clusters)
    requires Dimension(dps, d) && Dimension(Centers(clusters), d)
    modifies set c | c in clusters
    ensures Centers(clusters) == old(Centers(clusters))
    ensures forall k | 0 <= k < |clusters| ::
      clusters[k].members == old(clusters[k].members) + Assigned(dps, old(Centers(clusters)), d, k, |dps|)
  {
    ghost var centers := Centers(clusters);
    ghost var initial := MemberLists(clusters);
    GatheredNone(initial, dps, centers, d);
    for i := 0 to |dps|
      invariant Centers(clusters) == centers
      invariant MemberLists(clusters) == Gathered(initial, dps, centers, d, i)
    {
      AddToBest(dps[i], clusters, centers);
      AssignedStep(initial, MemberLists(clusters), dps, centers, d, i);
    }
    assert forall k | 0 <= k < |clusters| :: clusters[k].members == Gathered(initial, dps, centers, d, |dps|)[k];
  }

  /** calculateNewCenter: nil for no members, otherwise the componentwise mean, summed into the first member's coordinates. */
  method CalculateNewCenter(members: seq<seq<real>>) returns (center: Option<seq<real>>)
    requires MeanDefined(members)
    ensures center.None? <==> |members| == 0
    ensures center.Some? ==> center.value == Mean(members)
  {
    if |members| == 0 {
      return None;
    }
    var clen := |members[0]|;
    var mlen := |members|;
    var sum := new real[clen](j requires 0 <= j < clen => members[0][j]);
    for i := 1 to mlen
      invariant forall j | 0 <= j < clen :: sum[j] == ColumnSum(members, j, i)
    {
      var mfs := members[i];
      for j := 0 to clen
        invariant forall j' | 0 <= j' < j :: sum[j'] == ColumnSum(members, j', i + 1)
        invariant forall j' | j <= j' < clen :: sum[j'] == ColumnSum(members, j', i)
      {
        sum[j] := sum[j] + mfs[j];
      }
    }
    for i := 0 to clen
      invariant forall j | 0 <= j < i :: sum[j] == ColumnSum(members, j, mlen) / mlen as real
      invariant forall j | i <= j < clen :: sum[j] == ColumnSum(members, j, mlen)
    {
      sum[i] := sum[i] / mlen as real;
    }
    center := Some(sum[..]);
  }

  /** updateClustersCenters: each cluster with members moves to their mean; an empty one keeps its centre. */
  method UpdateClustersCenters(clusters: seq<Cluster>)
    requires Distinct(clusters)
    requires forall k | 0 <= k < |clusters| :: MeanDefined(clusters[k].members)
    modifies set c | c in clusters
    ensures MemberLists(clusters) == old(MemberLists(clusters))
    ensures forall k | 0 <= k < |clusters| ::
      clusters[k].center == NewCenter(clusters[k].members, old(clusters[k].center))
  {
    for i := 0 to |clusters|
      invariant MemberLists(clusters) == old(MemberLists(clusters))
      invariant forall k | 0 <= k < i ::
        clusters[k].center == NewCenter(clusters[k].members, old(clusters[k].center))
      invariant forall k | i <= k < |clusters| :: clusters[k].center == old(clusters[k].center)
    {
      var c := clusters[i];
      var members := c.Members();
      var newCenter := CalculateNewCenter(members);
      if newCenter.Some? {
        c.center := newCenter.value;
      }
    }
  }

  /** resetClusters: every cluster loses its members. */
  method ResetClusters(clusters: seq<Cluster>)
    requires Distinct(clusters)
    modifies set c | c in clusters
    ensures Centers(clusters) == old(Centers(clusters))
    ensures forall k | 0 <= k < |clusters| :: clusters[k].members == []
  {
    for i := 0 to |clusters|
      invariant Centers(clusters) == old(Centers(clusters))
      invariant forall k | 0 <= k < i :: clusters[k].members == []
    {
      clusters[i].Reset();
    }
  }

  /**
   * createRandomClusters with `perm` the permutation it draws: the first
   * `clusterCount` entries pick the data points whose features seed the centres.
   * Slicing the permutation requires `0 <= clusterCount <= len(dps)`.
   */
  method CreateRandomClusters(dps: seq<seq<real>>, clusterCount: int, perm: seq<int>) returns (clusters: seq<Cluster>)
    requires IsPermutation(perm, |dps|)
    requires 0 <= clusterCount <= |dps|
    ensures |clusters| == clusterCount && Distinct(clusters)
    ensures forall k | 0 <= k < |clusters| :: fresh(clusters[k]) && clusters[k].members == []
    ensures forall k | 0 <= k < |clusters| :: clusters[k].center == dps[perm[k]]
  {
    var chosen := perm[..clusterCount];
    clusters := [];
    for n := 0 to |chosen|
      invariant |clusters| == n && Distinct(clusters)
      invariant forall k | 0 <= k < n :: fresh(clusters[k]) && clusters[k].members == []
      invariant forall k | 0 <= k < n :: clusters[k].center == dps[chosen[k]]
    {
      var c := new Cluster(dps[chosen[n]]);
      clusters := clusters + [c];
    }
  }

  /** The centres createRandomClusters seeds are the features of pairwise different data points. */
  lemma SeedsDistinct(perm: seq<int>, n: nat, clusterCount: nat)
    requires IsPermutation(perm, n) && clusterCount <= n
    ensures forall i, j | 0 <= i < j < clusterCount :: perm[i] != perm[j] && 0 <= perm[i] < n
  {
  }

  /**
   * The clusters after a pass that started from the centres `previous`: each
   * holds exactly the points nearest to its old centre, in dataset order, and
   * sits at their mean (or at its old centre when it received none).
   */
  predicate Settled(dps: seq<seq<real>>, clusters: seq<Cluster>, previous: seq<seq<real>>, d: nat)
    reads set c | c in clusters
  {
    && Dimension(dps, d) && Dimension(previous, d) && |previous| == |clusters|
    && (|dps| > 0 ==> |clusters| > 0)
    && forall k | 0 <= k < |clusters| ::
         && clusters[k].members == Assigned(dps, previous, d, k, |dps|)
         && MeanDefined(clusters[k].members)
         && clusters[k].center == NewCenter(clusters[k].members, previous[k])
  }

  /** Settled clusters hold every point exactly once in total. */
  lemma SettledHoldsEveryPoint(dps: seq<seq<real>>, clusters: seq<Cluster>, previous: seq<seq<real>>, d: nat)
    requires Settled(dps, clusters, previous, d)
    ensures MemberCount(clusters) == |dps|
  {
    var lists := MemberLists(clusters);
    if |clusters| > 0 {
      AssignedListsCount(lists, dps, previous, d, |clusters|);
      AssignmentPartitions(dps, previous, d, |dps|);
      assert lists[..|clusters|] == lists;
    } else {
      assert lists == [];
    }
  }

  /**
   * One pass of Clustering's loop: remember the centres, empty the clusters,
   * assign every point to its nearest centre, move each non-empty cluster to its
   * mean, and report whether the new centre set is the same as the old one.
   */
  method Iterate(dps: seq<seq<real>>, clusters: seq<Cluster>, ghost d: nat) returns (converged: bool)
    requires (|dps| > 0 ==> |clusters| > 0) && Distinct(clusters)
    requires Dimension(dps, d) && Dimension(Centers(clusters), d)
    modifies set c | c in clusters
    ensures Dimension(Centers(clusters), d)
    ensures forall k | 0 <= k < |clusters| ::
      clusters[k].members == Assigned(dps, old(Centers(clusters)), d, k, |dps|)
    ensures forall k | 0 <= k < |clusters| :: MeanDefined(clusters[k].members)
    ensures forall k | 0 <= k < |clusters| ::
      clusters[k].center == NewCenter(clusters[k].members, old(clusters[k].center))
    ensures converged == SameCenterSet(Centers(clusters), old(Centers(clusters)))
    ensures Settled(dps, clusters, old(Centers(clusters)), d)
  {
    var oldCenters := Centers(clusters);
    ResetClusters(clusters);
    AddMembersToClusters(dps, clusters, d);
    UpdateClustersCenters(clusters);
    var newCenters := Centers(clusters);
    converged := SameCenterSet(newCenters, oldCenters);
    forall k | 0 <= k < |clusters|
      ensures |clusters[k].center| == d
    {
      if |clusters[k].members| > 0 {
        assert |clusters[k].members[0]| == d;
      }
    }
  }

  /** The points members of the clusters, in total. */
  function MemberCount(clusters: seq<Cluster>): nat
    reads set c | c in clusters
  {
    TotalLength(MemberLists(clusters))
  }

  // ---------------------------------------------------------------------------
  // The loop on centres
  // ---------------------------------------------------------------------------

  /**
   * The centres one pass of Clustering's loop moves `centers` to: centre k goes
   * to the mean of the points nearest it, or stays when no point is nearest it.
   */
  function Step(dps: seq<seq<real>>, centers: seq<seq<real>>, d: nat): (next: seq<seq<real>>)
    requires Dimension(dps, d) && Dimension(centers, d) && (|dps| > 0 ==> |centers| > 0)
    ensures |next| == |centers| && Dimension(next, d)
  {
    seq(|centers|, k requires 0 <= k < |centers| => Moved(dps, centers, d, k))
  }

  /** Where one pass moves centre `k`. */
  function Moved(dps: seq<seq<real>>, centers: seq<seq<real>>, d: nat, k: nat): (center: seq<real>)
    requires Dimension(dps, d) && Dimension(centers, d) && k < |centers|
    ensures |center| == d
  {
    NewCenter(Assigned(dps, centers, d, k, |dps|), centers[k])
  }

  /** The centres after `n` passes from `centers`, whatever the passes found. */
  function Iter(dps: seq<seq<real>>, centers: seq<seq<real>>, d: nat, n: nat): (after: seq<seq<real>>)
    requires Dimension(dps, d) && Dimension(centers, d) && (|dps| > 0 ==> |centers| > 0)
    ensures |after| == |centers| && Dimension(after, d)
    decreases n
  {
    if n == 0 then centers else Iter(dps, Step(dps, centers, d), d, n - 1)
  }

  /** The passes can be counted from the end: `n + 1` passes are one pass after `n`. */
  lemma {:induction false} IterLast(dps: seq<seq<real>>, centers: seq<seq<real>>, d: nat, n: nat)
    requires Dimension(dps, d) && Dimension(centers, d) && (|dps| > 0 ==> |centers| > 0)
    ensures Iter(dps, centers, d, n + 1) == Step(dps, Iter(dps, centers, d, n), d)
    decreases n
  {
    if n > 0 {
      IterLast(dps, Step(dps, centers, d), d, n - 1);
    }
  }

  /**
   * After `passes` passes from `start`, the loop stopped where Clustering's
   * stops: no pass before the last one left the centre set the same, and
   * `converged` says whether the last one did.
   */
  predicate StoppedAt(dps: seq<seq<real>>, start: seq<seq<real>>, d: nat, passes: nat, converged: bool)
    requires Dimension(dps, d) && Dimension(start, d) && (|dps| > 0 ==> |start| > 0)
  {
    && (converged <==> PassConverged(dps, start, d, passes))
    && forall i | 0 < i < passes :: !PassConverged(dps, start, d, i)
  }

  /** Pass `i` (counting from 1) from `start` left the centre set the same as it found it. */
  predicate PassConverged(dps: seq<seq<real>>, start: seq<seq<real>>, d: nat, i: nat)
    requires Dimension(dps, d) && Dimension(start, d) && (|dps| > 0 ==> |start| > 0)
  {
    i > 0 && SameCenterSet(Iter(dps, start, d, i), Iter(dps, start, d, i - 1))
  }

  /** Centres that a pass does not move end the loop: a loop still running converges on that pass. */
  lemma UnmovedConverges(dps: seq<seq<real>>, start: seq<seq<real>>, d: nat, passes: nat)
    requires Dimension(dps, d) && Dimension(start, d) && (|dps| > 0 ==> |start| > 0)
    requires StoppedAt(dps, start, d, passes, false)
    requires Iter(dps, start, d, passes + 1) == Iter(dps, start, d, passes)
    ensures StoppedAt(dps, start, d, passes + 1, true)
  {
    hide Iter;
    StoppedNext(dps, start, d, passes);
    SameCenterSetReflexive(Iter(dps, start, d, passes));
  }

  /** The loop stops at one pass only: two runs from `start` that both converged made the same number of passes. */
  lemma ConvergedPassUnique(dps: seq<seq<real>>, start: seq<seq<real>>, d: nat, passes: nat, passes': nat)
    requires Dimension(dps, d) && Dimension(start, d) && (|dps| > 0 ==> |start| > 0)
    requires StoppedAt(dps, start, d, passes, true) && StoppedAt(dps, start, d, passes', true)
    ensures passes == passes'
  {
  }

  /** Settled clusters sit where one pass moves the centres they started from. */
  lemma SettledCenters(dps: seq<seq<real>>, clusters: seq<Cluster>, previous: seq<seq<real>>, d: nat)
    requires Settled(dps, clusters, previous, d)
    ensures Centers(clusters) == Step(dps, previous, d)
  {
  }

  /** A loop that has not converged after `passes` passes stops after one more exactly when that pass converges. */
  lemma {:induction false} StoppedNext(dps: seq<seq<real>>, start: seq<seq<real>>, d: nat, passes: nat)
    requires Dimension(dps, d) && Dimension(start, d) && (|dps| > 0 ==> |start| > 0)
    requires StoppedAt(dps, start, d, passes, false)
    ensures StoppedAt(dps, start, d, passes + 1, PassConverged(dps, start, d, passes + 1))
  {
    assert !PassConverged(dps, start, d, passes);
  }

  /**
   * One more pass of a loop still running from `start`: clusters settled from
   * the centres after `passes` passes sit at the centres after one more, and the
   * loop stops there exactly when that pass converged.
   */
  lemma PassAdvances(dps: seq<seq<real>>, start: seq<seq<real>>, d: nat, clusters: seq<Cluster>,
                     previous: seq<seq<real>>, passes: nat)
    requires Dimension(dps, d) && Dimension(start, d) && (|dps| > 0 ==> |start| > 0)
    requires StoppedAt(dps, start, d, passes, false)
    requires previous == Iter(dps, start, d, passes)
    requires Settled(dps, clusters, previous, d)
    ensures Centers(clusters) == Iter(dps, start, d, passes + 1)
    ensures StoppedAt(dps, start, d, passes + 1, SameCenterSet(Centers(clusters), previous))
  {
    SettledCenters(dps, clusters, previous, d);
    IterLast(dps, start, d, passes);
    StoppedNext(dps, start, d, passes);
  }

  /** Before the first pass the clusters sit at the centres after no passes, and the loop has not stopped. */
  lemma NoPasses(dps: seq<seq<real>>, start: seq<seq<real>>, d: nat)
    requires Dimension(dps, d) && Dimension(start, d) && (|dps| > 0 ==> |start| > 0)
    ensures Iter(dps, start, d, 0) == start
    ensures StoppedAt(dps, start, d, 0, false)
  {
  }

  /**
   * The body of Clustering's loop, run as pass `passes + 1` from `start`: one
   * Iterate, which leaves the clusters at the centres after one more pass,
   * settled from the centres after `passes`, and says whether the loop stops
   * there.
   */
  method Pass(dps: seq<seq<real>>, clusters: seq<Cluster>, ghost start: seq<seq<real>>, ghost passes: nat, ghost d: nat)
    returns (converged: bool)
    requires (|dps| > 0 ==> |start| > 0) && Distinct(clusters)
    requires Dimension(dps, d) && Dimension(start, d)
    requires StoppedAt(dps, start, d, passes, false)
    requires Centers(clusters) == Iter(dps, start, d, passes)
    modifies set c | c in clusters
    ensures Centers(clusters) == Iter(dps, start, d, passes + 1)
    ensures StoppedAt(dps, start, d, passes + 1, converged)
    ensures Settled(dps, clusters, Iter(dps, start, d, passes), d)
  {
    ghost var previous := Centers(clusters);
    converged := Iterate(dps, clusters, d);
    PassAdvances(dps, start, d, clusters, previous, passes);
  }

  /**
   * The loop of Model.Clustering, run for at most `fuel` passes (the source
   * loops until the centre set stops changing). Returns whether the last pass
   * converged, the number of passes made and the centres the last pass started
   * from. The passes chain from the clusters' centres on entry, and the loop
   * stops at the first pass that converges, or when the fuel runs out.
   */
  method Converge(dps: seq<seq<real>>, clusters: seq<Cluster>, fuel: nat, ghost d: nat)
    returns (converged: bool, passes: nat, ghost previous: seq<seq<real>>)
    requires (|dps| > 0 ==> |clusters| > 0) && Distinct(clusters)
    requires Dimension(dps, d) && Dimension(Centers(clusters), d)
    modifies set c | c in clusters
    ensures passes <= fuel && (converged || passes == fuel)
    ensures Centers(clusters) == Iter(dps, old(Centers(clusters)), d, passes)
    ensures StoppedAt(dps, old(Centers(clusters)), d, passes, converged)
    ensures previous == Iter(dps, old(Centers(clusters)), d, if passes == 0 then 0 else passes - 1)
    ensures passes > 0 ==> Settled(dps, clusters, previous, d)
  {
    // The loop only hands on what Pass proves; the definitions behind it are
    // not needed here and would make the solver unfold every pass.
    hide *;
    ghost var start := Centers(clusters);
    NoPasses(dps, start, d);
    converged := false;
    passes := 0;
    previous := start;
    while !converged && passes < fuel
      invariant passes <= fuel
      invariant Centers(clusters) == Iter(dps, start, d, passes)
      invariant StoppedAt(dps, start, d, passes, converged)
      invariant previous == Iter(dps, start, d, if passes == 0 then 0 else passes - 1)
      invariant passes > 0 ==> Settled(dps, clusters, previous, d)
      decreases fuel - passes
    {
      previous := Iter(dps, start, d, passes);
      converged := Pass(dps, clusters, start, passes, d);
      passes := passes + 1;
    }
  }

  /** The seed centres of createRandomClusters: the points the permutation's first entries name. */
  function Seeds(dps: seq<seq<real>>, clusterCount: nat, perm: seq<int>): (seeds: seq<seq<real>>)
    requires IsPermutation(perm, |dps|) && clusterCount <= |dps|
    ensures |seeds| == clusterCount
    ensures forall k | 0 <= k < clusterCount :: seeds[k] in dps
  {
    seq(clusterCount, k requires 0 <= k < clusterCount => dps[perm[k]])
  }

  /**
   * Model.Clustering: seed the clusters, then the loop. Requires data points of
   * one dimension `d` and a cluster count createRandomClusters accepts, with a
   * cluster to assign to whenever there is a point (with no points and no
   * clusters the first pass compares two empty centre lists and stops).
   */
  method Clustering(dps: seq<seq<real>>, clusterCount: int, perm: seq<int>, fuel: nat, ghost d: nat)
    returns (clusters: seq<Cluster>, converged: bool, passes: nat)
    requires Dimension(dps, d) && IsPermutation(perm, |dps|)
    requires 0 <= clusterCount <= |dps|
    requires |dps| > 0 ==> clusterCount > 0
    ensures |clusters| == clusterCount && Distinct(clusters)
    ensures forall k | 0 <= k < |clusters| :: fresh(clusters[k])
    ensures passes <= fuel && (converged || passes == fuel)
    ensures Centers(clusters) == Iter(dps, Seeds(dps, clusterCount, perm), d, passes)
    ensures StoppedAt(dps, Seeds(dps, clusterCount, perm), d, passes, converged)
    ensures passes > 0 ==> Settled(dps, clusters, Iter(dps, Seeds(dps, clusterCount, perm), d, passes - 1), d)
    ensures passes > 0 ==> MemberCount(clusters) == |dps|
  {
    clusters := CreateRandomClusters(dps, clusterCount, perm);
    ghost var made := set c | c in clusters;
    assert fresh(made);
    ghost var seeds := Seeds(dps, clusterCount, perm);
    assert Centers(clusters) == seeds;
    ghost var pr;
    converged, passes, pr := Converge(dps, clusters, fuel, d);
    assert fresh(made);
    if passes > 0 {
      SettledHoldsEveryPoint(dps, clusters, Iter(dps, seeds, d, passes - 1), d);
    }
  }
}
