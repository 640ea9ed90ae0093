/** The cluster tracker as an object, and its methods as functions on its state. */
module ClusterTracking {
  import opened Wrappers
  import opened ClusterMatching
  import ClusterDistances

  /** Clusters by scene in order of creation, the latest timestamp by scene, and the next unused id. */
  datatype Tracker = Tracker(clusters: map<string, seq<Cluster>>, currentTime: map<string, real>, next: Uuid)

  function Clusters(t: Tracker, scene: string): seq<Cluster> {
    if scene in t.clusters then t.clusters[scene] else []
  }

  function Updated(t: Tracker, scene: string, ds: seq<Detection>, now: real, limits: Limits): Tracker {
    var g := Greedy(Begin(Clusters(t, scene), t.next), ds, now, limits);
    Tracker(t.clusters[scene := g.clusters], t.currentTime[scene := now], g.next)
  }

  /** An update sets the scene's time, whatever it was before, moves the scene's clusters to nearest detections, and
      leaves every other scene alone. */
  lemma UpdateIsLocal(t: Tracker, scene: string, ds: seq<Detection>, now: real, limits: Limits)
    requires DistinctUuids(Clusters(t, scene)) && Issued(Clusters(t, scene), t.next)
    ensures var v := Updated(t, scene, ds, now, limits);
            && scene in v.currentTime && v.currentTime[scene] == now && scene in v.clusters
            && ClusterDistances.MovesNearest(Clusters(t, scene), Clusters(v, scene),
                 Targets(Begin(Clusters(t, scene), t.next), ds, now, limits), now, limits)
            && forall other: string :: other != scene ==>
                 && Clusters(v, other) == Clusters(t, other)
                 && (other in v.currentTime <==> other in t.currentTime)
                 && (other in v.currentTime ==> v.currentTime[other] == t.currentTime[other])
  {
    ClusterDistances.UpdateMovesNearest(Clusters(t, scene), t.next, ds, now, limits);
  }

  function Cleared(t: Tracker, scene: string): Tracker {
    Tracker(t.clusters - {scene}, t.currentTime - {scene}, t.next)
  }

  function AliveOnly(cs: seq<Cluster>, now: real, limits: Limits): seq<Cluster> {
    if cs == [] then []
    else (if Alive(cs[0], now, limits) then [cs[0]] else []) + AliveOnly(cs[1..], now, limits)
  }

  lemma AliveOnlyFrom(found: seq<Cluster>, cs: seq<Cluster>, i: nat, now: real, limits: Limits)
    requires i < |cs|
    ensures found + AliveOnly(cs[i..], now, limits)
         == (if Alive(cs[i], now, limits) then found + [cs[i]] else found) + AliveOnly(cs[i + 1..], now, limits)
  {
    assert cs[i..][0] == cs[i] && cs[i..][1..] == cs[i + 1..];
    var rest := AliveOnly(cs[i + 1..], now, limits);
    assert found + ([cs[i]] + rest) == found + [cs[i]] + rest;
  }

  lemma {:induction false} AliveMembers(cs: seq<Cluster>, now: real, limits: Limits)
    ensures forall c :: c in AliveOnly(cs, now, limits) <==> c in cs && now <= c.lastSeen + limits.expiry
  {
    if cs != [] {
      AliveMembers(cs[1..], now, limits);
      assert forall c :: c in cs <==> c == cs[0] || c in cs[1..];
    }
  }

  /** What `get_clusters` returns. */
  function Returned(t: Tracker, scene: string, limits: Limits): seq<Cluster> {
    AliveOnly(Clusters(t, scene), if scene in t.currentTime then t.currentTime[scene] else 0.0, limits)
  }

  // ----- The index of candidates that an update builds -----

  ghost predicate Ascending(s: seq<nat>) {
    forall a: nat, b: nat :: a < b < |s| ==> s[a] < s[b]
  }

  function ListOf(available: map<string, seq<nat>>, category: string): seq<nat> {
    if category in available then available[category] else []
  }

  /** The list of one category holds, in order, the alive clusters among the first n. */
  ghost predicate Indexed(list: seq<nat>, category: string, cs: seq<Cluster>, n: nat, now: real, limits: Limits) {
    && n <= |cs| && Ascending(list)
    && (forall k: nat :: k < |list| ==> list[k] < n)
    && forall i: nat :: i < n ==> (i in list <==> cs[i].category == category && Alive(cs[i], now, limits))
  }

  ghost predicate AllIndexed(available: map<string, seq<nat>>, cs: seq<Cluster>, n: nat, now: real, limits: Limits) {
    forall category: string :: Indexed(ListOf(available, category), category, cs, n, now, limits)
  }

  /** Clusters not matched yet are as they were when the update began. */
  ghost predicate Untouched(f: Frame, prior: seq<Cluster>) {
    && f.prior == |prior| <= |f.clusters|
    && forall i: nat :: i < |prior| ==>
         && SameIdentity(prior[i], f.clusters[i])
         && (f.clusters[i].uuid !in f.matched ==> f.clusters[i] == prior[i])
  }

  /** The list holds, in order, exactly the clusters eligible for the detection. */
  ghost predicate Candidates(list: seq<nat>, f: Frame, d: Detection, now: real, limits: Limits) {
    && Ascending(list)
    && (forall k: nat :: k < |list| ==> list[k] < |f.clusters|)
    && forall i: nat :: i < |f.clusters| ==> (i in list <==> Eligible(f, i, d, now, limits))
  }

  lemma IndexGrows(list: seq<nat>, category: string, cs: seq<Cluster>, n: nat, now: real, limits: Limits)
    requires n < |cs| && Indexed(list, category, cs, n, now, limits)
    ensures cs[n].category == category && Alive(cs[n], now, limits) ==>
              Indexed(list + [n], category, cs, n + 1, now, limits)
    ensures !(cs[n].category == category && Alive(cs[n], now, limits)) ==>
              Indexed(list, category, cs, n + 1, now, limits)
  {
    var longer := list + [n];
    assert forall i: nat :: i < n ==> (i in longer <==> i in list);
    assert longer[|list|] == n;
  }

  lemma CandidatesFromIndex(list: seq<nat>, unmatched: seq<nat>, f: Frame, prior: seq<Cluster>, d: Detection,
                            now: real, limits: Limits)
    requires Untouched(f, prior) && Indexed(list, d.category, prior, |prior|, now, limits)
    requires Ascending(unmatched)
    requires forall k: nat :: k < |list| ==> list[k] < |f.clusters|
    requires forall i: nat :: i in unmatched <==> i in list && i < |f.clusters| && f.clusters[i].uuid !in f.matched
    ensures Candidates(unmatched, f, d, now, limits)
  {
    forall k: nat | k < |unmatched| ensures unmatched[k] < |f.clusters| {
      assert unmatched[k] in unmatched;
    }
    forall i: nat | i < |f.clusters| ensures i in unmatched <==> Eligible(f, i, d, now, limits) {
      if i in list {
        var k: nat :| k < |list| && list[k] == i;
      }
    }
  }

  /** There is only one nearest cluster. */
  lemma NearestIsUnique(f: Frame, i: nat, j: nat, d: Detection, now: real, limits: Limits, n: nat)
    requires i < n <= |f.clusters| && j < n
    requires IsNearest(f, i, d, now, limits, n) && IsNearest(f, j, d, now, limits, n)
    ensures i == j
  {
  }

  lemma PlaceKeepsUntouched(f: Frame, prior: seq<Cluster>, t: nat, d: Detection, now: real)
    requires Untouched(f, prior) && Consistent(f) && t <= |f.clusters|
    ensures Untouched(Place(f, t, d, now), prior)
  {
  }

  lemma StepKeeps(f: Frame, prior: seq<Cluster>, ds: seq<Detection>, now: real, limits: Limits)
    requires Untouched(f, prior) && Consistent(f) && ds != []
    ensures var g := Absorb(f, ds[0], now, limits);
            Untouched(g, prior) && Consistent(g) && Greedy(g, ds[1..], now, limits) == Greedy(f, ds, now, limits)
  {
    AbsorbKeeps(f, ds[0], now, limits);
    PlaceKeepsUntouched(f, prior, Target(f, ds[0], now, limits), ds[0], now);
  }

  /** Nothing listed beats the best, and what is listed before it is farther away. */
  ghost predicate BestOfList(f: Frame, d: Detection, list: seq<nat>, n: nat, best: Option<nat>)
    requires n <= |list| && forall k: nat :: k < |list| ==> list[k] < |f.clusters|
  {
    && (best.None? <==> n == 0)
    && (best.Some? ==> best.value in list[..n] && best.value < |f.clusters|
                       && forall k: nat :: k < n && list[k] != best.value ==>
                            && !Closer(f, list[k], best.value, d)
                            && (list[k] < best.value ==> Closer(f, best.value, list[k], d)))
  }

  lemma ScanFindsNearest(f: Frame, d: Detection, list: seq<nat>, best: Option<nat>, now: real, limits: Limits)
    requires Candidates(list, f, d, now, limits) && BestOfList(f, d, list, |list|, best)
    ensures best == Nearest(f, d, now, limits, |f.clusters|)
  {
    var n := |f.clusters|;
    NearestIsFirstMinimum(f, d, now, limits, n);
    assert list[..|list|] == list;
    if best.Some? {
      assert Eligible(f, best.value, d, now, limits);
      forall j: nat | j < n && Eligible(f, j, d, now, limits) && j != best.value
        ensures !Closer(f, j, best.value, d) && (j < best.value ==> Closer(f, best.value, j, d))
      {
        var k: nat :| k < |list| && list[k] == j;
      }
      NearestIsUnique(f, best.value, Nearest(f, d, now, limits, n).value, d, now, limits, n);
    } else {
      assert forall i: nat :: i < n ==> i !in list;
    }
  }

  ghost predicate ScenesValid(clusters: map<string, seq<Cluster>>, next: Uuid) {
    forall scene: string :: scene in clusters ==> DistinctUuids(clusters[scene]) && Issued(clusters[scene], next)
  }

  lemma UpdateKeepsValid(clusters: map<string, seq<Cluster>>, scene: string, next: Uuid, ds: seq<Detection>, now: real,
                         limits: Limits)
    requires ScenesValid(clusters, next) && scene in clusters
    ensures var g := Greedy(Begin(clusters[scene], next), ds, now, limits);
            ScenesValid(clusters[scene := g.clusters], g.next)
  {
    GreedyKeeps(Begin(clusters[scene], next), ds, now, limits);
  }

  class ClusterTracker {
    const limits: Limits
    var clusters: map<string, seq<Cluster>>
    var currentTime: map<string, real>
    var next: Uuid

    function State(): Tracker
      reads this
    {
      Tracker(clusters, currentTime, next)
    }

    /** Ids are unique within a scene and were all issued. */
    ghost predicate Valid()
      reads this
    {
      ScenesValid(clusters, next)
    }

    constructor (maxMatchingDistance: real, expirySeconds: real)
      ensures Valid() && State() == Tracker(map[], map[], 0) && limits == Limits(maxMatchingDistance, expirySeconds)
    {
      limits := Limits(maxMatchingDistance, expirySeconds);
      clusters, currentTime, next := map[], map[], 0;
    }

    /** Index the alive clusters by category. */
    static method IndexAlive(cs: seq<Cluster>, now: real, limits: Limits) returns (available: map<string, seq<nat>>)
      ensures AllIndexed(available, cs, |cs|, now, limits)
    {
      available := map[];
      for i := 0 to |cs|
        invariant AllIndexed(available, cs, i, now, limits)
      {
        ghost var before := available;
        if Alive(cs[i], now, limits) {
          available := available[cs[i].category := ListOf(available, cs[i].category) + [i]];
        }
        forall category: string ensures Indexed(ListOf(available, category), category, cs, i + 1, now, limits) {
          IndexGrows(ListOf(before, category), category, cs, i, now, limits);
        }
      }
    }

    /** Those of the list not matched yet. */
    static method Unmatched(list: seq<nat>, cs: seq<Cluster>, matched: set<Uuid>) returns (rest: seq<nat>)
      requires Ascending(list) && forall k: nat :: k < |list| ==> list[k] < |cs|
      ensures Ascending(rest)
      ensures forall i: nat :: i in rest <==> i in list && i < |cs| && cs[i].uuid !in matched
    {
      rest := [];
      for k := 0 to |list|
        invariant Ascending(rest)
        invariant forall i: nat :: i in rest <==> i in list[..k] && i < |cs| && cs[i].uuid !in matched
      {
        assert list[..k + 1] == list[..k] + [list[k]];
        if cs[list[k]].uuid !in matched {
          assert forall a: nat :: a < |rest| ==> rest[a] in rest;
          rest := rest + [list[k]];
        }
      }
      assert list[..|list|] == list;
    }

    /** The first of the listed clusters at minimal distance. */
    static method NearestOf(f: Frame, d: Detection, list: seq<nat>, now: real, limits: Limits)
      returns (best: Option<nat>)
      requires Candidates(list, f, d, now, limits)
      ensures best == Nearest(f, d, now, limits, |f.clusters|)
    {
      best := None;
      for k := 0 to |list|
        invariant BestOfList(f, d, list, k, best)
      {
        if best.None? || Closer(f, list[k], best.value, d) {
          best := Some(list[k]);
        }
      }
      ScanFindsNearest(f, d, list, best, now, limits);
    }

    /** The matching loop of an update, on the clusters of its scene. */
    static method MatchDetections(prior: seq<Cluster>, first: Uuid, ds: seq<Detection>, timestamp: real, limits: Limits)
      returns (sceneClusters: seq<Cluster>, next: Uuid)
      requires DistinctUuids(prior) && Issued(prior, first)
      ensures var g := Greedy(Begin(prior, first), ds, timestamp, limits);
              sceneClusters == g.clusters && next == g.next
      ensures ClusterDistances.MovesNearest(
                prior, sceneClusters, Targets(Begin(prior, first), ds, timestamp, limits), timestamp, limits)
    {
      ClusterDistances.UpdateMovesNearest(prior, first, ds, timestamp, limits);
      sceneClusters, next := prior, first;
      var available := IndexAlive(sceneClusters, timestamp, limits);
      var matched: set<Uuid> := {};
      for k := 0 to |ds|
        invariant Consistent(Frame(sceneClusters, |prior|, matched, next))
        invariant Untouched(Frame(sceneClusters, |prior|, matched, next), prior)
        invariant Greedy(Frame(sceneClusters, |prior|, matched, next), ds[k..], timestamp, limits)
               == Greedy(Begin(prior, first), ds, timestamp, limits)
      {
        var d, f := ds[k], Frame(sceneClusters, |prior|, matched, next);
        StepKeeps(f, prior, ds[k..], timestamp, limits);
        assert ds[k..][1..] == ds[k + 1..];
        var list := ListOf(available, d.category);
        var candidates := Unmatched(list, sceneClusters, matched);
        CandidatesFromIndex(list, candidates, f, prior, d, timestamp, limits);
        var best := NearestOf(f, d, candidates, timestamp, limits);
        if best.Some? && Within(SquaredDistance(sceneClusters[best.value], d.x, d.y), limits) {
          matched := matched + {sceneClusters[best.value].uuid};
          sceneClusters := sceneClusters[best.value := Refreshed(sceneClusters[best.value], d, timestamp)];
        } else {
          sceneClusters := sceneClusters + [Born(next, d, timestamp)];
          next := next + 1;
        }
      }
    }

    method Update(scene: string, ds: seq<Detection>, timestamp: real)
      requires Valid()
      modifies this
      ensures Valid()
      ensures State() == Updated(old(State()), scene, ds, timestamp, limits)
    {
      currentTime := currentTime[scene := timestamp];
      if scene !in clusters {
        clusters := clusters[scene := []];
      }
      var prior := clusters[scene];
      UpdateKeepsValid(clusters, scene, next, ds, timestamp, limits);
      assert prior == Clusters(old(State()), scene);
      var sceneClusters, unused := MatchDetections(prior, next, ds, timestamp, limits);
      clusters, next := clusters[scene := sceneClusters], unused;
      assert clusters == old(clusters)[scene := sceneClusters];
    }

    method GetClusters(scene: string) returns (alive: seq<Cluster>)
      ensures alive == Returned(State(), scene, limits)
      ensures forall c :: c in alive <==>
                && scene in clusters && c in clusters[scene]
                && (if scene in currentTime then currentTime[scene] else 0.0) <= c.lastSeen + limits.expiry
    {
      var now := if scene in currentTime then currentTime[scene] else 0.0;
      var cs := Clusters(State(), scene);
      alive := [];
      for i := 0 to |cs|
        invariant alive + AliveOnly(cs[i..], now, limits) == AliveOnly(cs, now, limits)
      {
        AliveOnlyFrom(alive, cs, i, now, limits);
        if Alive(cs[i], now, limits) {
          alive := alive + [cs[i]];
        }
      }
      AliveMembers(cs, now, limits);
    }

    method ClearScene(scene: string)
      requires Valid()
      modifies this
      ensures Valid() && State() == Cleared(old(State()), scene)
      ensures scene !in clusters && scene !in currentTime && next == old(next)
      ensures forall other: string :: other != scene ==>
                && (other in clusters <==> other in old(clusters))
                && (other in clusters ==> clusters[other] == old(clusters)[other])
                && (other in currentTime <==> other in old(currentTime))
                && (other in currentTime ==> currentTime[other] == old(currentTime)[other])
    {
      clusters := clusters - {scene};
      currentTime := currentTime - {scene};
    }
  }
}
