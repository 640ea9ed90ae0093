/** How far clusters move, in coordinates. */
module ClusterDistances {
  import opened Wrappers
  import opened ClusterMatching

  lemma PositiveProduct(a: real, b: real)
    requires 0.0 < a && 0.0 < b
    ensures 0.0 < a * b
  {
  }

  lemma SquareBound(u: real, m: real)
    requires 0.0 <= m && u * u <= m * m
    ensures -m <= u <= m
  {
    if u > m {
      PositiveProduct(u - m, u + m);
    }
    if u < -m {
      PositiveProduct(-u - m, -u + m);
    }
  }

  lemma LegsBound(u: real, v: real, m: real)
    requires 0.0 <= m && u * u + v * v <= m * m
    ensures -m <= u <= m && -m <= v <= m
  {
    assert u * u >= 0.0 && v * v >= 0.0;
    SquareBound(u, m);
    SquareBound(v, m);
  }

  /** The point lies within distance m of the cluster. */
  ghost predicate Near(c: Cluster, x: real, y: real, m: real) {
    && 0.0 <= m
    && (c.x - x) * (c.x - x) + (c.y - y) * (c.y - y) <= m * m
    && -m <= c.x - x <= m && -m <= c.y - y <= m
  }

  lemma NearMeansWithin(c: Cluster, x: real, y: real, limits: Limits)
    ensures Within(SquaredDistance(c, x, y), limits) <==> Near(c, x, y, limits.maxDistance)
  {
    if Within(SquaredDistance(c, x, y), limits) {
      LegsBound(c.x - x, c.y - y, limits.maxDistance);
    }
  }

  /** Cluster a is no farther from the point than cluster b. */
  ghost predicate NoFarther(a: Cluster, b: Cluster, x: real, y: real) {
    (a.x - x) * (a.x - x) + (a.y - y) * (a.y - y) <= (b.x - x) * (b.x - x) + (b.y - y) * (b.y - y)
  }

  /** The cluster may take the detection: of its category, seen recently enough, and not taken in this update. */
  ghost predicate MayTake(f: Frame, i: nat, d: Detection, now: real, limits: Limits) {
    && i < f.prior && i < |f.clusters|
    && f.clusters[i].category == d.category && now <= f.clusters[i].lastSeen + limits.expiry
    && f.clusters[i].uuid !in f.matched
  }

  /** Where a detection goes, in coordinates: to the nearest cluster that may take it, within the matching distance, the
      first known among equally near ones; or to a new cluster, when all that may take it are farther than that. */
  ghost predicate GoesNearest(f: Frame, t: nat, d: Detection, now: real, limits: Limits) {
    if t < |f.clusters| then
      && MayTake(f, t, d, now, limits) && Near(f.clusters[t], d.x, d.y, limits.maxDistance)
      && forall i: nat :: MayTake(f, i, d, now, limits) ==>
           && NoFarther(f.clusters[t], f.clusters[i], d.x, d.y)
           && (i < t ==> !NoFarther(f.clusters[i], f.clusters[t], d.x, d.y))
    else
      t == |f.clusters| && forall i: nat :: MayTake(f, i, d, now, limits) ==>
                             !Near(f.clusters[i], d.x, d.y, limits.maxDistance)
  }

  lemma NearestInCoordinates(f: Frame, t: nat, d: Detection, now: real, limits: Limits)
    requires t < |f.clusters| && IsNearest(f, t, d, now, limits, |f.clusters|)
    requires Within(SquaredDistance(f.clusters[t], d.x, d.y), limits)
    ensures GoesNearest(f, t, d, now, limits)
  {
    NearMeansWithin(f.clusters[t], d.x, d.y, limits);
    forall i: nat | MayTake(f, i, d, now, limits)
      ensures NoFarther(f.clusters[t], f.clusters[i], d.x, d.y)
      ensures i < t ==> !NoFarther(f.clusters[i], f.clusters[t], d.x, d.y)
    {
      assert Eligible(f, i, d, now, limits);
      if i != t {
        assert !Closer(f, i, t, d) && (i < t ==> Closer(f, t, i, d));
      }
    }
  }

  lemma NothingInCoordinates(f: Frame, d: Detection, now: real, limits: Limits)
    requires NothingInReach(f, d, now, limits)
    ensures GoesNearest(f, |f.clusters|, d, now, limits)
  {
    forall i: nat | MayTake(f, i, d, now, limits) ensures !Near(f.clusters[i], d.x, d.y, limits.maxDistance) {
      assert Eligible(f, i, d, now, limits);
      NearMeansWithin(f.clusters[i], d.x, d.y, limits);
    }
  }

  /** So does every detection of an update, given where those before it went. */
  lemma EachGoesNearest(f: Frame, ds: seq<Detection>, now: real, limits: Limits, k: nat)
    requires Consistent(f) && k < |ds|
    ensures GoesNearest(Greedy(f, ds[..k], now, limits), Targets(f, ds, now, limits)[k], ds[k], now, limits)
  {
    var g, t := Greedy(f, ds[..k], now, limits), Targets(f, ds, now, limits)[k];
    GreedyIsNearest(f, ds, now, limits, k);
    if t < |g.clusters| {
      NearestInCoordinates(g, t, ds[k], now, limits);
    } else {
      NothingInCoordinates(g, ds[k], now, limits);
    }
  }

  lemma {:induction false} TargetsOfPrefix(f: Frame, ds: seq<Detection>, now: real, limits: Limits, k: nat)
    requires k <= |ds|
    ensures Targets(f, ds[..k], now, limits) == Targets(f, ds, now, limits)[..k]
    decreases |ds|
  {
    if k > 0 {
      assert ds[..k][1..] == ds[1..][..k - 1];
      TargetsOfPrefix(Absorb(f, ds[0], now, limits), ds[1..], now, limits, k - 1);
    }
  }

  /** A prior cluster that no detection before k went to is as it was, and still open. */
  lemma StillAsBefore(clusters: seq<Cluster>, next: Uuid, ds: seq<Detection>, now: real, limits: Limits, k: nat, i: nat)
    requires DistinctUuids(clusters) && Issued(clusters, next) && k < |ds| && i < |clusters|
    requires i !in Targets(Begin(clusters, next), ds, now, limits)[..k]
    ensures var g := Greedy(Begin(clusters, next), ds[..k], now, limits);
            i < g.prior && i < |g.clusters| && g.clusters[i] == clusters[i] && g.clusters[i].uuid !in g.matched
  {
    var f := Begin(clusters, next);
    TargetsOfPrefix(f, ds, now, limits, k);
    GreedyKeeps(f, ds[..k], now, limits);
    GreedyMatches(f, ds[..k], now, limits, i);
  }

  /** What one update does to the positions: a prior cluster moves at most the matching distance, to a detection that
      no prior cluster left alone was nearer to; and where one was created, no prior cluster left alone was in reach. */
  ghost predicate MovesNearest(prior: seq<Cluster>, after: seq<Cluster>, ts: seq<nat>, now: real, limits: Limits) {
    && |prior| <= |after|
    && (forall i: nat :: i < |prior| && i in ts ==> Near(prior[i], after[i].x, after[i].y, limits.maxDistance))
    && (forall i: nat, j: nat ::
          i < |prior| && j < |prior| && i in ts && LeftAlone(prior, j, ts, after[i], now, limits) ==>
            NoFarther(prior[i], prior[j], after[i].x, after[i].y))
    && forall i: nat, j: nat ::
         |prior| <= i < |after| && j < |prior| && LeftAlone(prior, j, ts, after[i], now, limits) ==>
           !Near(prior[j], after[i].x, after[i].y, limits.maxDistance)
  }

  /** Prior cluster j, of c's category and seen recently enough, took no detection. */
  ghost predicate LeftAlone(prior: seq<Cluster>, j: nat, ts: seq<nat>, c: Cluster, now: real, limits: Limits) {
    j < |prior| && j !in ts && prior[j].category == c.category && now <= prior[j].lastSeen + limits.expiry
  }

  lemma OneMove(clusters: seq<Cluster>, next: Uuid, ds: seq<Detection>, now: real, limits: Limits, k: nat)
    requires DistinctUuids(clusters) && Issued(clusters, next) && k < |ds|
    ensures var f := Begin(clusters, next);
            var after, ts := Greedy(f, ds, now, limits).clusters, Targets(f, ds, now, limits);
            var i := ts[k];
            && i < |after| && after[i].category == ds[k].category && after[i].x == ds[k].x && after[i].y == ds[k].y
            && (i < |clusters| ==> Near(clusters[i], ds[k].x, ds[k].y, limits.maxDistance))
            && forall j: nat :: LeftAlone(clusters, j, ts, after[i], now, limits) ==>
                 if i < |clusters| then NoFarther(clusters[i], clusters[j], ds[k].x, ds[k].y)
                 else !Near(clusters[j], ds[k].x, ds[k].y, limits.maxDistance)
  {
    var f := Begin(clusters, next);
    var ts, g := Targets(f, ds, now, limits), Greedy(f, ds[..k], now, limits);
    var after := Greedy(f, ds, now, limits).clusters;
    GreedyPlaces(f, ds, now, limits, k);
    TargetsAreOneToOne(f, ds, now, limits);
    EachGoesNearest(f, ds, now, limits, k);
    GreedyKeeps(f, ds[..k], now, limits);
    assert ts[k] !in ts[..k];
    if ts[k] < |clusters| {
      StillAsBefore(clusters, next, ds, now, limits, k, ts[k]);
    }
    forall j: nat | LeftAlone(clusters, j, ts, after[ts[k]], now, limits)
      ensures if ts[k] < |clusters| then NoFarther(clusters[ts[k]], clusters[j], ds[k].x, ds[k].y)
              else !Near(clusters[j], ds[k].x, ds[k].y, limits.maxDistance)
    {
      StillAsBefore(clusters, next, ds, now, limits, k, j);
      assert MayTake(g, j, ds[k], now, limits);
    }
  }

  lemma UpdateMovesNearest(clusters: seq<Cluster>, next: Uuid, ds: seq<Detection>, now: real, limits: Limits)
    requires DistinctUuids(clusters) && Issued(clusters, next)
    ensures var f := Begin(clusters, next);
            MovesNearest(clusters, Greedy(f, ds, now, limits).clusters, Targets(f, ds, now, limits), now, limits)
  {
    var f := Begin(clusters, next);
    var after, ts := Greedy(f, ds, now, limits).clusters, Targets(f, ds, now, limits);
    GreedyKeeps(f, ds, now, limits);
    forall i: nat, j: nat | i < |after| && i in ts
      ensures i < |clusters| ==> Near(clusters[i], after[i].x, after[i].y, limits.maxDistance)
      ensures LeftAlone(clusters, j, ts, after[i], now, limits) ==>
                if i < |clusters| then NoFarther(clusters[i], clusters[j], after[i].x, after[i].y)
                else !Near(clusters[j], after[i].x, after[i].y, limits.maxDistance)
    {
      var k: nat :| k < |ts| && ts[k] == i;
      OneMove(clusters, next, ds, now, limits, k);
    }
    forall i: nat | |clusters| <= i < |after| ensures i in ts {
      GreedyCreates(f, ds, now, limits, i);
    }
  }
}
