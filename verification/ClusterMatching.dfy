/** One update of the cluster tracker: detections are matched greedily to the nearest known cluster. */
module ClusterMatching {
  import opened Wrappers

  type Uuid = nat

  datatype Params = Params(eps: real, minSamples: int)

  datatype Payload = Payload(objectsCount: nat, objectIds: seq<string>, params: Params)

  datatype Detection = Detection(category: string, x: real, y: real, payload: Payload)

  datatype Cluster = Cluster(uuid: Uuid, category: string, x: real, y: real, payload: Payload,
                             firstSeen: real, lastSeen: real)

  datatype Limits = Limits(maxDistance: real, expiry: real)

  function SquaredDistance(c: Cluster, x: real, y: real): real {
    (c.x - x) * (c.x - x) + (c.y - y) * (c.y - y)
  }

  /** The distance whose square is given is at most the matching distance. */
  predicate Within(squared: real, limits: Limits) {
    0.0 <= limits.maxDistance && squared <= limits.maxDistance * limits.maxDistance
  }

  predicate Alive(c: Cluster, now: real, limits: Limits) {
    now - c.lastSeen <= limits.expiry
  }

  /** A cluster's new state after absorbing a detection. */
  function Refreshed(c: Cluster, d: Detection, now: real): Cluster {
    c.(x := d.x, y := d.y, payload := d.payload, lastSeen := now)
  }

  function Born(uuid: Uuid, d: Detection, now: real): Cluster {
    Cluster(uuid, d.category, d.x, d.y, d.payload, now, now)
  }

  /** An update in progress: the first `prior` clusters were there when it began. */
  datatype Frame = Frame(clusters: seq<Cluster>, prior: nat, matched: set<Uuid>, next: Uuid)

  predicate Eligible(f: Frame, i: nat, d: Detection, now: real, limits: Limits)
    requires i < |f.clusters|
  {
    && i < f.prior
    && f.clusters[i].category == d.category
    && Alive(f.clusters[i], now, limits)
    && f.clusters[i].uuid !in f.matched
  }

  predicate Closer(f: Frame, i: nat, j: nat, d: Detection)
    requires i < |f.clusters| && j < |f.clusters|
  {
    SquaredDistance(f.clusters[i], d.x, d.y) < SquaredDistance(f.clusters[j], d.x, d.y)
  }

  /** The nearest eligible cluster among the first n; a tie goes to the one known longest. */
  function Nearest(f: Frame, d: Detection, now: real, limits: Limits, n: nat): (r: Option<nat>)
    requires n <= |f.clusters|
    ensures r.Some? ==> r.value < n
  {
    if n == 0 then None
    else
      var best := Nearest(f, d, now, limits, n - 1);
      if Eligible(f, n - 1, d, now, limits) && (best.None? || Closer(f, n - 1, best.value, d)) then Some(n - 1)
      else best
  }

  /** Where the detection goes: the index of the nearest cluster in reach, or of a cluster yet to be created. */
  function Target(f: Frame, d: Detection, now: real, limits: Limits): (t: nat)
    ensures t <= |f.clusters|
  {
    var best := Nearest(f, d, now, limits, |f.clusters|);
    if best.Some? && Within(SquaredDistance(f.clusters[best.value], d.x, d.y), limits) then best.value
    else |f.clusters|
  }

  function Place(f: Frame, t: nat, d: Detection, now: real): Frame
    requires t <= |f.clusters|
  {
    if t < |f.clusters| then
      f.(clusters := f.clusters[t := Refreshed(f.clusters[t], d, now)], matched := f.matched + {f.clusters[t].uuid})
    else
      f.(clusters := f.clusters + [Born(f.next, d, now)], next := f.next + 1)
  }

  function Absorb(f: Frame, d: Detection, now: real, limits: Limits): Frame {
    Place(f, Target(f, d, now, limits), d, now)
  }

  /** The whole update, detection by detection. */
  function Greedy(f: Frame, ds: seq<Detection>, now: real, limits: Limits): Frame
    decreases |ds|
  {
    if ds == [] then f else Greedy(Absorb(f, ds[0], now, limits), ds[1..], now, limits)
  }

  /** The index each detection goes to. */
  function Targets(f: Frame, ds: seq<Detection>, now: real, limits: Limits): (ts: seq<nat>)
    ensures |ts| == |ds|
    decreases |ds|
  {
    if ds == [] then []
    else [Target(f, ds[0], now, limits)] + Targets(Absorb(f, ds[0], now, limits), ds[1..], now, limits)
  }

  function Begin(clusters: seq<Cluster>, next: Uuid): Frame {
    Frame(clusters, |clusters|, {}, next)
  }

  // ----- The nearest cluster -----

  /** i is eligible, nothing eligible is closer, and everything eligible before it is farther. */
  ghost predicate IsNearest(f: Frame, i: nat, d: Detection, now: real, limits: Limits, n: nat)
    requires i < n <= |f.clusters|
  {
    && Eligible(f, i, d, now, limits)
    && forall j: nat :: j < n && Eligible(f, j, d, now, limits) && j != i ==>
         !Closer(f, j, i, d) && (j < i ==> Closer(f, i, j, d))
  }

  /** The scan finds exactly the first cluster at minimal distance, and nothing only when nothing is eligible. */
  lemma {:induction false} NearestIsFirstMinimum(f: Frame, d: Detection, now: real, limits: Limits, n: nat)
    requires n <= |f.clusters|
    ensures var r := Nearest(f, d, now, limits, n);
            && (r.None? <==> forall j: nat :: j < n ==> !Eligible(f, j, d, now, limits))
            && (r.Some? ==> IsNearest(f, r.value, d, now, limits, n))
  {
    if n != 0 {
      NearestIsFirstMinimum(f, d, now, limits, n - 1);
    }
  }

  // ----- One detection -----

  ghost predicate DistinctUuids(clusters: seq<Cluster>) {
    forall i: nat, j: nat :: i < j < |clusters| ==> clusters[i].uuid != clusters[j].uuid
  }

  ghost predicate Issued(clusters: seq<Cluster>, next: Uuid) {
    forall i: nat :: i < |clusters| ==> clusters[i].uuid < next
  }

  ghost predicate MatchedArePrior(f: Frame) {
    forall u: nat :: u in f.matched ==> exists i: nat :: i < f.prior && i < |f.clusters| && f.clusters[i].uuid == u
  }

  ghost predicate Consistent(f: Frame) {
    f.prior <= |f.clusters| && DistinctUuids(f.clusters) && Issued(f.clusters, f.next) && MatchedArePrior(f)
  }

  ghost predicate SameIdentity(a: Cluster, b: Cluster) {
    a.uuid == b.uuid && a.category == b.category && a.firstSeen == b.firstSeen
  }

  /** What one detection does to the frame, t being where it goes. */
  ghost predicate Placed(f: Frame, g: Frame, t: nat, d: Detection, now: real) {
    && t <= |f.clusters| <= |g.clusters| && t < |g.clusters|
    && g.prior == f.prior
    && g.clusters[t].category == d.category
    && g.clusters[t] == Refreshed(g.clusters[t], d, now)
    && (forall i: nat :: i < |f.clusters| ==> SameIdentity(f.clusters[i], g.clusters[i]))
    && (forall i: nat :: i < |f.clusters| && i != t ==> g.clusters[i] == f.clusters[i])
  }

  lemma AbsorbKeeps(f: Frame, d: Detection, now: real, limits: Limits)
    requires Consistent(f)
    ensures Consistent(Absorb(f, d, now, limits))
    ensures Placed(f, Absorb(f, d, now, limits), Target(f, d, now, limits), d, now)
    ensures var t := Target(f, d, now, limits);
            t == |f.clusters| || (t < f.prior && f.clusters[t].uuid !in f.matched && Alive(f.clusters[t], now, limits))
  {
    NearestIsFirstMinimum(f, d, now, limits, |f.clusters|);
    var g := Absorb(f, d, now, limits);
    forall u: nat | u in g.matched
      ensures exists i: nat :: i < g.prior && i < |g.clusters| && g.clusters[i].uuid == u
    {
      MatchedStays(f, g, u, Target(f, d, now, limits));
    }
  }

  lemma MatchedStays(f: Frame, g: Frame, u: Uuid, t: nat)
    requires MatchedArePrior(f) && f.prior <= |f.clusters| <= |g.clusters| && f.prior == g.prior
    requires forall i: nat :: i < |f.clusters| ==> f.clusters[i].uuid == g.clusters[i].uuid
    requires u in f.matched || (t < f.prior && u == f.clusters[t].uuid)
    ensures exists i: nat :: i < g.prior && i < |g.clusters| && g.clusters[i].uuid == u
  {
    if u in f.matched {
      var i: nat :| i < f.prior && i < |f.clusters| && f.clusters[i].uuid == u;
      assert g.clusters[i].uuid == u;
    } else {
      assert g.clusters[t].uuid == u;
    }
  }

  // ----- A whole update -----

  /** Index t is still open for a detection: no earlier detection of this update went there. */
  ghost predicate Open(f: Frame, t: nat) {
    |f.clusters| <= t || (t < f.prior && t < |f.clusters| && f.clusters[t].uuid !in f.matched)
  }

  /** Every detection goes to an open index, and no two go to the same. */
  ghost predicate OneToOne(f: Frame, ts: seq<nat>) {
    && (forall k: nat :: k < |ts| ==> Open(f, ts[k]))
    && forall k: nat, l: nat :: k < l < |ts| ==> ts[k] != ts[l]
  }

  /** After placing at t, only indices other than t that were open before are open. */
  lemma OpenShrinks(f: Frame, d: Detection, now: real, limits: Limits, s: nat)
    requires Consistent(f) && Open(Absorb(f, d, now, limits), s)
    ensures Open(f, s) && s != Target(f, d, now, limits)
  {
    AbsorbKeeps(f, d, now, limits);
  }

  lemma {:induction false} TargetsAreOneToOne(f: Frame, ds: seq<Detection>, now: real, limits: Limits)
    requires Consistent(f)
    ensures OneToOne(f, Targets(f, ds, now, limits))
    decreases |ds|
  {
    if ds != [] {
      var g := Absorb(f, ds[0], now, limits);
      var rest := Targets(g, ds[1..], now, limits);
      AbsorbKeeps(f, ds[0], now, limits);
      TargetsAreOneToOne(g, ds[1..], now, limits);
      forall k: nat | k < |rest| ensures Open(f, rest[k]) && rest[k] != Target(f, ds[0], now, limits) {
        OpenShrinks(f, ds[0], now, limits, rest[k]);
      }
    }
  }

  lemma FirstIsNotRepeated(f: Frame, ds: seq<Detection>, now: real, limits: Limits)
    requires Consistent(f) && ds != []
    ensures Target(f, ds[0], now, limits) !in Targets(Absorb(f, ds[0], now, limits), ds[1..], now, limits)
  {
    var ts := Targets(f, ds, now, limits);
    var rest := Targets(Absorb(f, ds[0], now, limits), ds[1..], now, limits);
    TargetsAreOneToOne(f, ds, now, limits);
    forall l: nat | l < |rest| ensures rest[l] != Target(f, ds[0], now, limits) {
      assert ts[0] != ts[l + 1];
    }
  }

  ghost predicate Holds(c: Cluster, d: Detection, now: real) {
    c.category == d.category && c.x == d.x && c.y == d.y && c.payload == d.payload && c.lastSeen == now
  }

  /** What every update keeps: identities in place, and clusters nobody went to untouched. */
  lemma {:induction false} GreedyKeeps(f: Frame, ds: seq<Detection>, now: real, limits: Limits)
    requires Consistent(f)
    ensures var g := Greedy(f, ds, now, limits);
            && Consistent(g) && |f.clusters| <= |g.clusters| && f.next <= g.next && g.prior == f.prior
            && (forall i: nat :: i < |f.clusters| ==> SameIdentity(f.clusters[i], g.clusters[i]))
            && (forall i: nat :: i < |f.clusters| && i !in Targets(f, ds, now, limits) ==>
                  g.clusters[i] == f.clusters[i])
    decreases |ds|
  {
    if ds != [] {
      var g := Absorb(f, ds[0], now, limits);
      AbsorbKeeps(f, ds[0], now, limits);
      GreedyKeeps(g, ds[1..], now, limits);
      var ts, rest := Targets(f, ds, now, limits), Targets(g, ds[1..], now, limits);
      assert ts == [Target(f, ds[0], now, limits)] + rest;
    }
  }

  /** Every detection ends up in the cluster it went to. */
  lemma {:induction false} GreedyPlaces(f: Frame, ds: seq<Detection>, now: real, limits: Limits, k: nat)
    requires Consistent(f) && k < |ds|
    ensures var g, t := Greedy(f, ds, now, limits), Targets(f, ds, now, limits)[k];
            t < |g.clusters| && Holds(g.clusters[t], ds[k], now)
    decreases |ds|
  {
    var g := Absorb(f, ds[0], now, limits);
    var rest := Targets(g, ds[1..], now, limits);
    AbsorbKeeps(f, ds[0], now, limits);
    if k == 0 {
      var t := Target(f, ds[0], now, limits);
      GreedyKeeps(g, ds[1..], now, limits);
      FirstIsNotRepeated(f, ds, now, limits);
    } else {
      GreedyPlaces(g, ds[1..], now, limits, k - 1);
      assert Targets(f, ds, now, limits)[k] == rest[k - 1];
    }
  }

  /** Created clusters come from detections, carry fresh consecutive ids, and start now. */
  lemma {:induction false} GreedyCreates(f: Frame, ds: seq<Detection>, now: real, limits: Limits, i: nat)
    requires Consistent(f) && |f.clusters| <= i < |Greedy(f, ds, now, limits).clusters|
    ensures var c := Greedy(f, ds, now, limits).clusters[i];
            c.uuid == f.next + (i - |f.clusters|) && c.firstSeen == now && i in Targets(f, ds, now, limits)
    decreases |ds|
  {
    if ds != [] {
      var g := Absorb(f, ds[0], now, limits);
      var t, rest := Target(f, ds[0], now, limits), Targets(g, ds[1..], now, limits);
      assert Targets(f, ds, now, limits) == [t] + rest;
      AbsorbKeeps(f, ds[0], now, limits);
      if i < |g.clusters| {
        GreedyKeeps(g, ds[1..], now, limits);
      } else {
        GreedyCreates(g, ds[1..], now, limits, i);
      }
    }
  }

  /** Created = detections - matched. */
  lemma {:induction false} GreedyCounts(f: Frame, ds: seq<Detection>, now: real, limits: Limits)
    requires Consistent(f)
    ensures var g := Greedy(f, ds, now, limits);
            && |g.clusters| - |f.clusters| == |ds| - (|g.matched| - |f.matched|) == g.next - f.next
    decreases |ds|
  {
    if ds != [] {
      AbsorbKeeps(f, ds[0], now, limits);
      GreedyCounts(Absorb(f, ds[0], now, limits), ds[1..], now, limits);
    }
  }

  /** A prior cluster is matched exactly when some detection went to it. */
  lemma {:induction false} GreedyMatches(f: Frame, ds: seq<Detection>, now: real, limits: Limits, i: nat)
    requires Consistent(f) && i < f.prior
    ensures var g := Greedy(f, ds, now, limits);
            f.clusters[i].uuid in g.matched <==> f.clusters[i].uuid in f.matched || i in Targets(f, ds, now, limits)
    decreases |ds|
  {
    if ds != [] {
      var g := Absorb(f, ds[0], now, limits);
      var t, rest := Target(f, ds[0], now, limits), Targets(g, ds[1..], now, limits);
      assert Targets(f, ds, now, limits) == [t] + rest;
      AbsorbKeeps(f, ds[0], now, limits);
      GreedyMatches(g, ds[1..], now, limits, i);
    }
  }

  /**
    * The choice is greedy: detection k goes to the nearest cluster, among those alive, of its category and not taken
    * by an earlier detection, if that is in reach; and a cluster is created only when nothing is in reach.
    */
  lemma {:induction false} GreedyIsNearest(f: Frame, ds: seq<Detection>, now: real, limits: Limits, k: nat)
    requires Consistent(f) && k < |ds|
    ensures var g, t := Greedy(f, ds[..k], now, limits), Targets(f, ds, now, limits)[k];
            && t <= |g.clusters|
            && (t < |g.clusters| ==> IsNearest(g, t, ds[k], now, limits, |g.clusters|)
                                     && Within(SquaredDistance(g.clusters[t], ds[k].x, ds[k].y), limits))
            && (t == |g.clusters| ==> NothingInReach(g, ds[k], now, limits))
    decreases |ds|
  {
    if k == 0 {
      NearestIsFirstMinimum(f, ds[0], now, limits, |f.clusters|);
      assert ds[..k] == [];
      ReachIsLimited(f, ds[0], now, limits);
    } else {
      var g := Absorb(f, ds[0], now, limits);
      AbsorbKeeps(f, ds[0], now, limits);
      GreedyIsNearest(g, ds[1..], now, limits, k - 1);
      assert ds[..k][1..] == ds[1..][..k - 1];
    }
  }

  ghost predicate NothingInReach(f: Frame, d: Detection, now: real, limits: Limits) {
    forall i: nat :: i < |f.clusters| && Eligible(f, i, d, now, limits) ==>
      !Within(SquaredDistance(f.clusters[i], d.x, d.y), limits)
  }

  lemma ReachIsLimited(f: Frame, d: Detection, now: real, limits: Limits)
    ensures Target(f, d, now, limits) == |f.clusters| ==> NothingInReach(f, d, now, limits)
  {
    NearestIsFirstMinimum(f, d, now, limits, |f.clusters|);
  }

  ghost predicate Matched(f: Frame, i: nat) {
    i < f.prior && i < |f.clusters| && f.clusters[i].uuid in f.matched
  }

  /**
    * One update, start to finish: each detection lands in exactly one cluster and each cluster takes at most one;
    * clusters nobody went to are untouched, nobody loses identity, and created = detections - matched.
    */
  lemma UpdateIsOneToOne(clusters: seq<Cluster>, next: Uuid, ds: seq<Detection>, now: real, limits: Limits)
    requires DistinctUuids(clusters) && Issued(clusters, next)
    ensures var f := Begin(clusters, next);
            var g, ts := Greedy(f, ds, now, limits), Targets(f, ds, now, limits);
            && Consistent(g)
            && (forall k: nat, l: nat :: k < l < |ds| ==> ts[k] != ts[l])
            && (forall k: nat :: k < |ds| ==> ts[k] < |g.clusters| && Holds(g.clusters[ts[k]], ds[k], now))
            && |clusters| <= |g.clusters|
            && (forall i: nat :: i < |clusters| ==> SameIdentity(clusters[i], g.clusters[i]))
            && (forall i: nat :: i < |clusters| && i !in ts ==> g.clusters[i] == clusters[i])
            && (forall i: nat :: i < |clusters| ==> (Matched(g, i) <==> i in ts))
            && (forall i: nat :: |clusters| <= i < |g.clusters| ==>
                  i in ts && g.clusters[i].uuid == next + (i - |clusters|) && g.clusters[i].firstSeen == now)
            && |g.clusters| - |clusters| == |ds| - |g.matched|
  {
    var f := Begin(clusters, next);
    var g, ts := Greedy(f, ds, now, limits), Targets(f, ds, now, limits);
    TargetsAreOneToOne(f, ds, now, limits);
    GreedyKeeps(f, ds, now, limits);
    GreedyCounts(f, ds, now, limits);
    forall k: nat | k < |ds| ensures ts[k] < |g.clusters| && Holds(g.clusters[ts[k]], ds[k], now) {
      GreedyPlaces(f, ds, now, limits, k);
    }
    forall i: nat | |clusters| <= i < |g.clusters|
      ensures i in ts && g.clusters[i].uuid == next + (i - |clusters|) && g.clusters[i].firstSeen == now
    {
      GreedyCreates(f, ds, now, limits, i);
    }
    forall i: nat | i < |clusters| ensures Matched(g, i) <==> i in ts {
      GreedyMatches(f, ds, now, limits, i);
    }
  }
}
