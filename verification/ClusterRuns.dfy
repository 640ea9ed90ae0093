/** Runs of the cluster tracker: what expiry and identity mean over any sequence of updates and clears. */
module ClusterRuns {
  import opened ClusterMatching
  import opened ClusterTracking

  datatype Event =
    | Update(scene: string, detections: seq<Detection>, timestamp: real)
    | Clear(scene: string)

  function Apply(t: Tracker, e: Event, limits: Limits): Tracker {
    match e
    case Update(scene, ds, now) => Updated(t, scene, ds, now, limits)
    case Clear(scene) => Cleared(t, scene)
  }

  function After(t: Tracker, run: seq<Event>, limits: Limits): Tracker
    decreases |run|
  {
    if run == [] then t else After(Apply(t, run[0], limits), run[1..], limits)
  }

  const EMPTY := Tracker(map[], map[], 0)

  /** The event does not take its scene back in time. A cleared scene has no time. */
  predicate Forward(t: Tracker, e: Event) {
    e.Update? && e.scene in t.currentTime ==> t.currentTime[e.scene] <= e.timestamp
  }

  predicate ForwardRun(t: Tracker, run: seq<Event>, limits: Limits)
    decreases |run|
  {
    run == [] || (Forward(t, run[0]) && ForwardRun(Apply(t, run[0], limits), run[1..], limits))
  }

  // ----- One cluster over one update -----

  lemma {:induction false} TargetsWereAlive(f: Frame, ds: seq<Detection>, now: real, limits: Limits, k: nat)
    requires Consistent(f) && k < |ds|
    ensures var t := Targets(f, ds, now, limits)[k]; t < |f.clusters| ==> Alive(f.clusters[t], now, limits)
    decreases |ds|
  {
    AbsorbKeeps(f, ds[0], now, limits);
    if k != 0 {
      TargetsWereAlive(Absorb(f, ds[0], now, limits), ds[1..], now, limits, k - 1);
      FirstIsNotRepeated(f, ds, now, limits);
    }
  }

  /** A stored cluster was not touched, or it was alive and is now refreshed, or it is new. */
  ghost predicate ClusterStep(prior: seq<Cluster>, next: Uuid, i: nat, c: Cluster, now: real, limits: Limits) {
    || (i < |prior| && c == prior[i])
    || (i < |prior| && SameIdentity(prior[i], c) && c.lastSeen == now && Alive(prior[i], now, limits))
    || (|prior| <= i && next <= c.uuid && c.firstSeen == now && c.lastSeen == now)
  }

  lemma EachClusterSteps(prior: seq<Cluster>, next: Uuid, ds: seq<Detection>, now: real, limits: Limits, i: nat)
    requires DistinctUuids(prior) && Issued(prior, next)
    requires i < |Greedy(Begin(prior, next), ds, now, limits).clusters|
    ensures ClusterStep(prior, next, i, Greedy(Begin(prior, next), ds, now, limits).clusters[i], now, limits)
  {
    var f := Begin(prior, next);
    var ts := Targets(f, ds, now, limits);
    GreedyKeeps(f, ds, now, limits);
    if |prior| <= i {
      GreedyCreates(f, ds, now, limits, i);
    }
    if i in ts {
      var k: nat :| k < |ts| && ts[k] == i;
      GreedyPlaces(f, ds, now, limits, k);
      TargetsWereAlive(f, ds, now, limits, k);
    }
  }

  // ----- The invariant -----

  /** A stored scene has a time, and its ids are distinct and were issued. */
  ghost predicate SceneOk(t: Tracker, scene: string) {
    scene in t.clusters ==>
      scene in t.currentTime && DistinctUuids(t.clusters[scene]) && Issued(t.clusters[scene], t.next)
  }

  /** No id is used in two scenes. */
  ghost predicate Apart(t: Tracker, a: string, b: string) {
    forall i: nat, j: nat :: i < |Clusters(t, a)| && j < |Clusters(t, b)| ==>
      Clusters(t, a)[i].uuid != Clusters(t, b)[j].uuid
  }

  ghost predicate Ok(t: Tracker) {
    && (forall scene: string :: SceneOk(t, scene))
    && forall a: string, b: string :: a != b ==> Apart(t, a, b)
  }

  lemma UpdateKeepsScene(t: Tracker, scene: string, ds: seq<Detection>, now: real, limits: Limits, s: string)
    requires Ok(t)
    ensures SceneOk(Updated(t, scene, ds, now, limits), s)
  {
    assert SceneOk(t, scene) && SceneOk(t, s);
    GreedyKeeps(Begin(Clusters(t, scene), t.next), ds, now, limits);
  }

  lemma UpdateKeepsApart(t: Tracker, scene: string, ds: seq<Detection>, now: real, limits: Limits, s: string)
    requires Ok(t) && s != scene
    ensures Apart(Updated(t, scene, ds, now, limits), scene, s)
  {
    var prior := Clusters(t, scene);
    var u := Updated(t, scene, ds, now, limits);
    assert SceneOk(t, scene) && SceneOk(t, s) && Apart(t, scene, s) && Clusters(u, s) == Clusters(t, s);
    forall i: nat, j: nat | i < |Clusters(u, scene)| && j < |Clusters(u, s)|
      ensures Clusters(u, scene)[i].uuid != Clusters(u, s)[j].uuid
    {
      EachClusterSteps(prior, t.next, ds, now, limits, i);
      assert i < |prior| ==> Clusters(t, scene)[i].uuid != Clusters(t, s)[j].uuid;
    }
  }

  lemma ApartCommutes(t: Tracker, a: string, b: string)
    requires Apart(t, a, b)
    ensures Apart(t, b, a)
  {
  }

  /** Every event keeps the invariant, whatever its timestamp. */
  lemma StepKeepsOk(t: Tracker, e: Event, limits: Limits)
    requires Ok(t)
    ensures Ok(Apply(t, e, limits)) && t.next <= Apply(t, e, limits).next
  {
    var u := Apply(t, e, limits);
    match e
    case Update(scene, ds, now) =>
      assert SceneOk(t, scene);
      GreedyKeeps(Begin(Clusters(t, scene), t.next), ds, now, limits);
      forall s: string ensures SceneOk(u, s) {
        UpdateKeepsScene(t, scene, ds, now, limits, s);
      }
      forall a: string, b: string | a != b ensures Apart(u, a, b) {
        assert Apart(t, a, b);
        if a == scene {
          UpdateKeepsApart(t, scene, ds, now, limits, b);
        } else if b == scene {
          UpdateKeepsApart(t, scene, ds, now, limits, a);
          ApartCommutes(u, scene, a);
        } else {
          assert Clusters(u, a) == Clusters(t, a) && Clusters(u, b) == Clusters(t, b);
        }
      }
    case Clear(scene) =>
      forall s: string ensures SceneOk(u, s) {
        assert SceneOk(t, s);
      }
      forall a: string, b: string | a != b ensures Apart(u, a, b) {
        assert Apart(t, a, b);
        assert a != scene ==> Clusters(u, a) == Clusters(t, a);
        assert b != scene ==> Clusters(u, b) == Clusters(t, b);
      }
  }

  lemma {:induction false} RunKeepsOk(t: Tracker, run: seq<Event>, limits: Limits)
    requires Ok(t)
    ensures Ok(After(t, run, limits)) && t.next <= After(t, run, limits).next
    decreases |run|
  {
    if run != [] {
      StepKeepsOk(t, run[0], limits);
      RunKeepsOk(Apply(t, run[0], limits), run[1..], limits);
    }
  }

  lemma EmptyIsOk()
    ensures Ok(EMPTY)
  {
  }

  // ----- Sightings -----

  ghost predicate Timed(c: Cluster, now: real) {
    c.firstSeen <= c.lastSeen <= now
  }

  ghost predicate SceneTimed(t: Tracker, scene: string) {
    scene in t.clusters && scene in t.currentTime ==>
      forall i: nat :: i < |t.clusters[scene]| ==> Timed(t.clusters[scene][i], t.currentTime[scene])
  }

  lemma StepKeepsTimes(t: Tracker, e: Event, limits: Limits, s: string)
    requires Ok(t) && Forward(t, e) && SceneTimed(t, s)
    ensures SceneTimed(Apply(t, e, limits), s)
  {
    var u := Apply(t, e, limits);
    assert SceneOk(t, s);
    if e.Update? && e.scene == s {
      forall i: nat | i < |u.clusters[s]| ensures Timed(u.clusters[s][i], e.timestamp) {
        EachClusterSteps(Clusters(t, s), t.next, e.detections, e.timestamp, limits, i);
      }
    }
  }

  /** Over every run forward in time no cluster is first seen after it was last seen, or seen after its scene's time. */
  lemma {:induction false} RunKeepsTimes(t: Tracker, run: seq<Event>, limits: Limits)
    requires Ok(t) && ForwardRun(t, run, limits) && forall s: string :: SceneTimed(t, s)
    ensures forall s: string :: SceneTimed(After(t, run, limits), s)
    decreases |run|
  {
    if run != [] {
      StepKeepsOk(t, run[0], limits);
      forall s: string ensures SceneTimed(Apply(t, run[0], limits), s) {
        StepKeepsTimes(t, run[0], limits, s);
      }
      RunKeepsTimes(Apply(t, run[0], limits), run[1..], limits);
    }
  }

  // ----- Gone ids -----

  /** The cluster is stored for its scene and alive at the scene's time. */
  ghost predicate LiveAt(t: Tracker, scene: string, i: nat, limits: Limits) {
    && scene in t.clusters && scene in t.currentTime && i < |t.clusters[scene]|
    && Alive(t.clusters[scene][i], t.currentTime[scene], limits)
  }

  /** The id was issued, and no scene returns a cluster with it. */
  ghost predicate Gone(t: Tracker, u: Uuid, limits: Limits) {
    && u < t.next
    && forall scene: string, i: nat :: LiveAt(t, scene, i, limits) ==> t.clusters[scene][i].uuid != u
  }

  lemma {:induction false} AliveOnlyMembers(cs: seq<Cluster>, now: real, limits: Limits, c: Cluster)
    ensures c in AliveOnly(cs, now, limits) <==> c in cs && Alive(c, now, limits)
    decreases |cs|
  {
    if cs != [] {
      AliveOnlyMembers(cs[1..], now, limits, c);
    }
  }

  /** Being gone means exactly that no scene's list of returned clusters has the id. */
  lemma GoneMeansNotReturned(t: Tracker, u: Uuid, limits: Limits)
    requires Ok(t) && u < t.next
    ensures Gone(t, u, limits) <==> forall scene: string, c: Cluster :: c in Returned(t, scene, limits) ==> c.uuid != u
  {
    forall scene: string, c: Cluster | c in Returned(t, scene, limits)
      ensures exists i: nat :: LiveAt(t, scene, i, limits) && t.clusters[scene][i] == c
    {
      assert SceneOk(t, scene);
      AliveOnlyMembers(Clusters(t, scene), if scene in t.currentTime then t.currentTime[scene] else 0.0, limits, c);
      var i: nat :| i < |Clusters(t, scene)| && Clusters(t, scene)[i] == c;
      assert LiveAt(t, scene, i, limits);
    }
    forall scene: string, i: nat | LiveAt(t, scene, i, limits)
      ensures t.clusters[scene][i] in Returned(t, scene, limits)
    {
      AliveOnlyMembers(Clusters(t, scene), t.currentTime[scene], limits, t.clusters[scene][i]);
    }
  }

  /** The scene has a stored cluster with the id that is alive at the given time. */
  ghost predicate AliveAgain(t: Tracker, scene: string, now: real, u: Uuid, limits: Limits) {
    var cs := Clusters(t, scene);
    exists i: nat :: i < |cs| && cs[i].uuid == u && Alive(cs[i], now, limits)
  }

  /** The update finds a cluster with the id alive, and does not match it if the limits let nothing live on. */
  ghost predicate Revives(t: Tracker, e: Event, u: Uuid, limits: Limits) {
    && e.Update?
    && var cs := Clusters(t, e.scene);
       var ts := Targets(Begin(cs, t.next), e.detections, e.timestamp, limits);
       exists i: nat :: i < |cs| && cs[i].uuid == u && Alive(cs[i], e.timestamp, limits)
                        && (0.0 <= limits.expiry || i !in ts)
  }

  /** With an expiry of at least zero only aliveness matters. */
  lemma RevivesWhenAliveAgain(t: Tracker, e: Event, u: Uuid, limits: Limits)
    requires e.Update? && 0.0 <= limits.expiry
    ensures Revives(t, e, u, limits) <==> AliveAgain(t, e.scene, e.timestamp, u, limits)
  {
  }

  /** How a stored cluster comes out of an update, alive or not. */
  lemma AfterUpdate(prior: seq<Cluster>, next: Uuid, ds: seq<Detection>, now: real, limits: Limits, i: nat)
    requires DistinctUuids(prior) && Issued(prior, next) && i < |prior|
    ensures var f := Begin(prior, next);
            var g, ts := Greedy(f, ds, now, limits), Targets(f, ds, now, limits);
            && |prior| <= |g.clusters| && g.clusters[i].uuid == prior[i].uuid
            && (if i in ts then Alive(prior[i], now, limits) && g.clusters[i].lastSeen == now
                else g.clusters[i] == prior[i])
  {
    var f := Begin(prior, next);
    var ts := Targets(f, ds, now, limits);
    GreedyKeeps(f, ds, now, limits);
    if i in ts {
      var k: nat :| k < |ts| && ts[k] == i;
      GreedyPlaces(f, ds, now, limits, k);
      TargetsWereAlive(f, ds, now, limits, k);
    }
  }

  lemma RevivedIfFound(t: Tracker, e: Event, u: Uuid, limits: Limits)
    requires Ok(t) && Revives(t, e, u, limits)
    ensures !Gone(Apply(t, e, limits), u, limits)
  {
    var v, cs := Apply(t, e, limits), Clusters(t, e.scene);
    var ts := Targets(Begin(cs, t.next), e.detections, e.timestamp, limits);
    var i: nat :| i < |cs| && cs[i].uuid == u && Alive(cs[i], e.timestamp, limits)
                  && (0.0 <= limits.expiry || i !in ts);
    assert SceneOk(t, e.scene);
    AfterUpdate(cs, t.next, e.detections, e.timestamp, limits, i);
    assert LiveAt(v, e.scene, i, limits) && v.clusters[e.scene][i].uuid == u;
  }

  lemma GoneIfNotFound(t: Tracker, e: Event, u: Uuid, limits: Limits)
    requires Ok(t) && Gone(t, u, limits) && !Revives(t, e, u, limits)
    ensures Gone(Apply(t, e, limits), u, limits)
  {
    var v := Apply(t, e, limits);
    StepKeepsOk(t, e, limits);
    forall scene: string, i: nat | LiveAt(v, scene, i, limits) ensures v.clusters[scene][i].uuid != u {
      assert SceneOk(t, scene);
      if e.Update? && e.scene == scene {
        EachClusterSteps(Clusters(t, scene), t.next, e.detections, e.timestamp, limits, i);
        if i < |Clusters(t, scene)| {
          AfterUpdate(Clusters(t, scene), t.next, e.detections, e.timestamp, limits, i);
        }
      } else {
        assert LiveAt(t, scene, i, limits);
      }
    }
  }

  lemma RevivalGoesBack(t: Tracker, e: Event, u: Uuid, limits: Limits)
    requires Ok(t) && Gone(t, u, limits) && Revives(t, e, u, limits)
    ensures !Forward(t, e)
  {
    var cs := Clusters(t, e.scene);
    var i: nat :| i < |cs| && cs[i].uuid == u && Alive(cs[i], e.timestamp, limits);
    assert SceneOk(t, e.scene);
    assert !LiveAt(t, e.scene, i, limits);
  }

  /** Exactly when an event brings a gone id back, in every state any run can reach: when it is an update that finds a
      stored cluster with the id alive at its timestamp; and that takes a timestamp before the scene's latest. */
  lemma RevivedExactlyWhen(t: Tracker, e: Event, u: Uuid, limits: Limits)
    requires Ok(t) && Gone(t, u, limits)
    ensures !Gone(Apply(t, e, limits), u, limits) <==> Revives(t, e, u, limits)
    ensures Revives(t, e, u, limits) ==> !Forward(t, e)
  {
    if Revives(t, e, u, limits) {
      RevivedIfFound(t, e, u, limits);
      RevivalGoesBack(t, e, u, limits);
    } else {
      GoneIfNotFound(t, e, u, limits);
    }
  }

  ghost predicate GoneThroughout(t: Tracker, run: seq<Event>, u: Uuid, limits: Limits)
    decreases |run|
  {
    Gone(t, u, limits) && (run == [] || GoneThroughout(Apply(t, run[0], limits), run[1..], u, limits))
  }

  ghost predicate NeverRevives(t: Tracker, run: seq<Event>, u: Uuid, limits: Limits)
    decreases |run|
  {
    run == [] || (&& !Revives(t, run[0], u, limits)
                  && NeverRevives(Apply(t, run[0], limits), run[1..], u, limits))
  }

  /** Over any run at all, in whatever order its timestamps come: an id gone at the start stays gone throughout if and
      only if no update of the run finds it alive again. */
  lemma {:induction false} GoneThroughoutExactlyWhen(t: Tracker, run: seq<Event>, u: Uuid, limits: Limits)
    requires Ok(t) && Gone(t, u, limits)
    ensures GoneThroughout(t, run, u, limits) <==> NeverRevives(t, run, u, limits)
    decreases |run|
  {
    if run != [] {
      var next := Apply(t, run[0], limits);
      RevivedExactlyWhen(t, run[0], u, limits);
      StepKeepsOk(t, run[0], limits);
      if Gone(next, u, limits) {
        GoneThroughoutExactlyWhen(next, run[1..], u, limits);
      }
    }
  }

  lemma {:induction false} ForwardNeverRevives(t: Tracker, run: seq<Event>, u: Uuid, limits: Limits)
    requires Ok(t) && ForwardRun(t, run, limits) && Gone(t, u, limits)
    ensures NeverRevives(t, run, u, limits)
    decreases |run|
  {
    if run != [] {
      RevivedExactlyWhen(t, run[0], u, limits);
      StepKeepsOk(t, run[0], limits);
      ForwardNeverRevives(Apply(t, run[0], limits), run[1..], u, limits);
    }
  }

  lemma {:induction false} GoneAtTheEnd(t: Tracker, run: seq<Event>, u: Uuid, limits: Limits)
    requires GoneThroughout(t, run, u, limits)
    ensures Gone(After(t, run, limits), u, limits)
    decreases |run|
  {
    if run != [] {
      GoneAtTheEnd(Apply(t, run[0], limits), run[1..], u, limits);
    }
  }

  /** Over every run that does not take a scene back in time, an id once gone is never returned again. */
  lemma ExpiryIsFinal(t: Tracker, run: seq<Event>, u: Uuid, limits: Limits)
    requires Ok(t) && ForwardRun(t, run, limits) && Gone(t, u, limits)
    ensures GoneThroughout(t, run, u, limits) && Gone(After(t, run, limits), u, limits)
  {
    ForwardNeverRevives(t, run, u, limits);
    GoneThroughoutExactlyWhen(t, run, u, limits);
    GoneAtTheEnd(t, run, u, limits);
  }

  /** From an empty tracker, after any run at all: an id that is gone stays gone while time goes forward. */
  lemma ExpiryIsFinalFromStart(run: seq<Event>, more: seq<Event>, u: Uuid, limits: Limits)
    requires ForwardRun(After(EMPTY, run, limits), more, limits) && Gone(After(EMPTY, run, limits), u, limits)
    ensures Gone(After(After(EMPTY, run, limits), more, limits), u, limits)
  {
    EmptyIsOk();
    RunKeepsOk(EMPTY, run, limits);
    ExpiryIsFinal(After(EMPTY, run, limits), more, u, limits);
  }

  /** An update matches only ids that were being returned. */
  lemma MatchedWasLive(t: Tracker, scene: string, ds: seq<Detection>, now: real, u: Uuid, limits: Limits)
    requires Ok(t) && Forward(t, Update(scene, ds, now))
    requires u in Greedy(Begin(Clusters(t, scene), t.next), ds, now, limits).matched
    ensures exists i: nat :: LiveAt(t, scene, i, limits) && t.clusters[scene][i].uuid == u
  {
    assert SceneOk(t, scene);
    var f := Begin(Clusters(t, scene), t.next);
    var g, ts := Greedy(f, ds, now, limits), Targets(f, ds, now, limits);
    GreedyKeeps(f, ds, now, limits);
    var i: nat :| i < g.prior && i < |g.clusters| && g.clusters[i].uuid == u;
    GreedyMatches(f, ds, now, limits, i);
    var k: nat :| k < |ts| && ts[k] == i;
    TargetsWereAlive(f, ds, now, limits, k);
    assert LiveAt(t, scene, i, limits);
  }

  /** Nor is it ever matched again. */
  lemma GoneIsNotMatched(t: Tracker, run: seq<Event>, u: Uuid, limits: Limits,
                         scene: string, ds: seq<Detection>, now: real)
    requires Ok(t) && ForwardRun(t, run, limits) && Gone(t, u, limits)
    requires Forward(After(t, run, limits), Update(scene, ds, now))
    ensures var v := After(t, run, limits);
            u !in Greedy(Begin(Clusters(v, scene), v.next), ds, now, limits).matched
  {
    var v := After(t, run, limits);
    RunKeepsOk(t, run, limits);
    ExpiryIsFinal(t, run, u, limits);
    if u in Greedy(Begin(Clusters(v, scene), v.next), ds, now, limits).matched {
      MatchedWasLive(v, scene, ds, now, u, limits);
    }
  }

  /** When time does go back, a cluster that was no longer returned is returned again. */
  lemma TimeGoingBackRevives()
    ensures var limits := Limits(2.0, 10.0);
            var d := Detection("person", 0.0, 0.0, Payload(3, [], Params(1.0, 3)));
            var gone := After(EMPTY, [Update("s", [d], 0.0), Update("s", [], 20.0)], limits);
            && Gone(gone, 0, limits)
            && !Gone(Apply(gone, Update("s", [], 5.0), limits), 0, limits)
  {
    var limits := Limits(2.0, 10.0);
    var d := Detection("person", 0.0, 0.0, Payload(3, [], Params(1.0, 3)));
    var first := Apply(EMPTY, Update("s", [d], 0.0), limits);
    var f := Begin([], 0);
    assert Target(f, d, 0.0, limits) == 0;
    assert [d][1..] == [];
    assert Greedy(f, [d], 0.0, limits) == Absorb(f, d, 0.0, limits);
    assert Clusters(first, "s") == [Born(0, d, 0.0)] && first.next == 1;
    var run := [Update("s", [d], 0.0), Update("s", [], 20.0)];
    assert run[1..] == [Update("s", [], 20.0)] && run[1..][1..] == [];
    assert After(EMPTY, run, limits) == After(first, run[1..], limits);
    var gone := After(EMPTY, run, limits);
    assert gone == Apply(first, Update("s", [], 20.0), limits);
    assert LiveAt(Apply(gone, Update("s", [], 5.0), limits), "s", 0, limits);
  }

  // ----- Identity -----

  /** Every stored cluster with this cluster's id is in this scene and has its category and first sighting. */
  ghost predicate OnlyKnownAs(t: Tracker, scene: string, c: Cluster) {
    && c.uuid < t.next
    && forall s: string, i: nat :: i < |Clusters(t, s)| && Clusters(t, s)[i].uuid == c.uuid ==>
         s == scene && SameIdentity(c, Clusters(t, s)[i])
  }

  lemma StepKeepsIdentity(t: Tracker, e: Event, scene: string, c: Cluster, limits: Limits)
    requires Ok(t) && OnlyKnownAs(t, scene, c)
    ensures OnlyKnownAs(Apply(t, e, limits), scene, c)
  {
    var v := Apply(t, e, limits);
    StepKeepsOk(t, e, limits);
    forall s: string, i: nat | i < |Clusters(v, s)| && Clusters(v, s)[i].uuid == c.uuid
      ensures s == scene && SameIdentity(c, Clusters(v, s)[i])
    {
      assert SceneOk(t, s);
      if e.Update? && e.scene == s {
        EachClusterSteps(Clusters(t, s), t.next, e.detections, e.timestamp, limits, i);
        assert i < |Clusters(t, s)| ==> SameIdentity(Clusters(t, s)[i], Clusters(v, s)[i]);
      } else {
        assert Clusters(v, s) == Clusters(t, s);
      }
    }
  }

  /** A cluster's id never changes scene, category or first sighting, over any run at all. */
  lemma {:induction false} IdentityIsPermanent(t: Tracker, run: seq<Event>, scene: string, k: nat, limits: Limits)
    requires Ok(t) && k < |Clusters(t, scene)|
    ensures OnlyKnownAs(After(t, run, limits), scene, Clusters(t, scene)[k])
  {
    var c := Clusters(t, scene)[k];
    assert SceneOk(t, scene);
    forall s: string, i: nat | i < |Clusters(t, s)| && Clusters(t, s)[i].uuid == c.uuid
      ensures s == scene && SameIdentity(c, Clusters(t, s)[i])
    {
      assert s != scene ==> Apart(t, scene, s);
    }
    RunKeepsIdentity(t, run, scene, c, limits);
  }

  lemma {:induction false} RunKeepsIdentity(t: Tracker, run: seq<Event>, scene: string, c: Cluster, limits: Limits)
    requires Ok(t) && OnlyKnownAs(t, scene, c)
    ensures OnlyKnownAs(After(t, run, limits), scene, c)
    decreases |run|
  {
    if run != [] {
      StepKeepsIdentity(t, run[0], scene, c, limits);
      StepKeepsOk(t, run[0], limits);
      RunKeepsIdentity(Apply(t, run[0], limits), run[1..], scene, c, limits);
    }
  }
}
