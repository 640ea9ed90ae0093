/** The analytics service: which DBSCAN parameters are in force, and what one message does to the tracker. */
module ClusterAnalytics {
  import opened Wrappers
  import opened ClusterMatching
  import opened ClusterTracking
  import opened ClusterAnalysis

  /** The loaded configuration: defaults, and settings by lower-case category. */
  datatype Settings = Settings(default: Params, byCategory: map<string, Params>)

  /** What users set, by scene and lower-case category. */
  type Overrides = map<string, map<string, Params>>

  type Lower = string -> string

  function DefaultsFor(settings: Settings, lower: Lower, category: string): Params {
    if lower(category) in settings.byCategory then settings.byCategory[lower(category)] else settings.default
  }

  /** The parameters the lookup returns. An empty scene id counts as no scene. */
  function InForce(overrides: Overrides, settings: Settings, lower: Lower, category: string, scene: string): Params {
    if scene != "" && scene in overrides && lower(category) in overrides[scene] then overrides[scene][lower(category)]
    else DefaultsFor(settings, lower, category)
  }

  function ParamsFor(overrides: Overrides, settings: Settings, lower: Lower, scene: string): string -> Params {
    category => InForce(overrides, settings, lower, category, scene)
  }

  function WithOverride(overrides: Overrides, scene: string, key: string, params: Params): Overrides {
    overrides[scene := (if scene in overrides then overrides[scene] else map[])[key := params]]
  }

  function WithoutOverride(overrides: Overrides, scene: string, key: string): Overrides {
    if scene in overrides then overrides[scene := overrides[scene] - {key}] else overrides
  }

  // ----- Runs of whole calls -----

  datatype Analytics = Analytics(overrides: Overrides, tracker: Tracker)

  datatype Command =
    | Analyse(scene: string, raw: seq<Detection>, timestamp: real)
    | SetParams(scene: string, category: string, params: Params)
    | ResetParams(scene: string, category: string)

  /** An analysis stamps each detection with the parameters in force. */
  ghost predicate Allowed(a: Analytics, c: Command, settings: Settings, lower: Lower) {
    c.Analyse? ==> forall k: nat :: k < |c.raw| ==>
      c.raw[k].payload.params == InForce(a.overrides, settings, lower, c.raw[k].category, c.scene)
  }

  function Execute(a: Analytics, c: Command, lower: Lower, limits: Limits): Analytics {
    match c
    case Analyse(scene, raw, now) => a.(tracker := Updated(a.tracker, scene, raw, now, limits))
    case SetParams(scene, category, params) =>
      Analytics(WithOverride(a.overrides, scene, lower(category), params), Cleared(a.tracker, scene))
    case ResetParams(scene, category) =>
      Analytics(WithoutOverride(a.overrides, scene, lower(category)), Cleared(a.tracker, scene))
  }

  ghost predicate SceneInForce(a: Analytics, settings: Settings, lower: Lower, scene: string) {
    forall i: nat :: i < |Clusters(a.tracker, scene)| ==>
      var c := Clusters(a.tracker, scene)[i];
      c.payload.params == InForce(a.overrides, settings, lower, c.category, scene)
  }

  ghost predicate SceneUuidsOk(t: Tracker, scene: string) {
    DistinctUuids(Clusters(t, scene)) && Issued(Clusters(t, scene), t.next)
  }

  /** Every tracked cluster, returned or not, carries the parameters now in force for its category and scene. */
  ghost predicate AllInForce(a: Analytics, settings: Settings, lower: Lower) {
    forall scene: string :: SceneInForce(a, settings, lower, scene) && SceneUuidsOk(a.tracker, scene)
  }

  lemma AnalyseKeepsScene(a: Analytics, c: Command, settings: Settings, lower: Lower, limits: Limits)
    requires c.Analyse? && Allowed(a, c, settings, lower)
    requires SceneInForce(a, settings, lower, c.scene) && SceneUuidsOk(a.tracker, c.scene)
    ensures SceneInForce(Execute(a, c, lower, limits), settings, lower, c.scene)
    ensures SceneUuidsOk(Execute(a, c, lower, limits).tracker, c.scene)
  {
    var b := Execute(a, c, lower, limits);
    var prior := Clusters(a.tracker, c.scene);
    var f := Begin(prior, a.tracker.next);
    var g, ts := Greedy(f, c.raw, c.timestamp, limits), Targets(f, c.raw, c.timestamp, limits);
    UpdateIsOneToOne(prior, a.tracker.next, c.raw, c.timestamp, limits);
    assert Clusters(b.tracker, c.scene) == g.clusters;
    forall i: nat | i < |g.clusters|
      ensures g.clusters[i].payload.params
           == InForce(a.overrides, settings, lower, g.clusters[i].category, c.scene)
    {
      if i in ts {
        var k: nat :| k < |ts| && ts[k] == i;
        assert Holds(g.clusters[ts[k]], c.raw[k], c.timestamp);
      }
    }
  }

  lemma StepKeepsParameters(a: Analytics, c: Command, settings: Settings, lower: Lower, limits: Limits)
    requires AllInForce(a, settings, lower) && Allowed(a, c, settings, lower)
    ensures AllInForce(Execute(a, c, lower, limits), settings, lower)
  {
    var b := Execute(a, c, lower, limits);
    assert SceneUuidsOk(a.tracker, c.scene);
    NextGrows(a, c, lower, limits);
    forall scene: string ensures SceneInForce(b, settings, lower, scene) && SceneUuidsOk(b.tracker, scene) {
      assert SceneInForce(a, settings, lower, scene) && SceneUuidsOk(a.tracker, scene);
      if scene == c.scene && c.Analyse? {
        AnalyseKeepsScene(a, c, settings, lower, limits);
      } else if scene != c.scene {
        assert Clusters(b.tracker, scene) == Clusters(a.tracker, scene);
      }
    }
  }

  lemma NextGrows(a: Analytics, c: Command, lower: Lower, limits: Limits)
    requires SceneUuidsOk(a.tracker, c.scene)
    ensures a.tracker.next <= Execute(a, c, lower, limits).tracker.next
  {
    if c.Analyse? {
      GreedyKeeps(Begin(Clusters(a.tracker, c.scene), a.tracker.next), c.raw, c.timestamp, limits);
    }
  }

  ghost predicate AllowedRun(a: Analytics, run: seq<Command>, settings: Settings, lower: Lower, limits: Limits)
    decreases |run|
  {
    run == [] || (&& Allowed(a, run[0], settings, lower)
                  && AllowedRun(Execute(a, run[0], lower, limits), run[1..], settings, lower, limits))
  }

  function AfterRun(a: Analytics, run: seq<Command>, lower: Lower, limits: Limits): Analytics
    decreases |run|
  {
    if run == [] then a else AfterRun(Execute(a, run[0], lower, limits), run[1..], lower, limits)
  }

  /** Over every sequence of whole calls, every tracked cluster carries the parameters now in force. */
  lemma {:induction false} RunKeepsParameters(a: Analytics, run: seq<Command>, settings: Settings, lower: Lower,
                                              limits: Limits)
    requires AllInForce(a, settings, lower) && AllowedRun(a, run, settings, lower, limits)
    ensures AllInForce(AfterRun(a, run, lower, limits), settings, lower)
    decreases |run|
  {
    if run != [] {
      StepKeepsParameters(a, run[0], settings, lower, limits);
      RunKeepsParameters(Execute(a, run[0], lower, limits), run[1..], settings, lower, limits);
    }
  }

  const EMPTY_SERVICE := Analytics(map[], Tracker(map[], map[], 0))

  lemma EmptyInForce(settings: Settings, lower: Lower)
    ensures AllInForce(EMPTY_SERVICE, settings, lower)
  {
  }

  /** In particular from the start of the service. */
  lemma ServiceKeepsParameters(run: seq<Command>, settings: Settings, lower: Lower, limits: Limits)
    requires AllowedRun(EMPTY_SERVICE, run, settings, lower, limits)
    ensures AllInForce(AfterRun(EMPTY_SERVICE, run, lower, limits), settings, lower)
  {
    EmptyInForce(settings, lower);
    RunKeepsParameters(EMPTY_SERVICE, run, settings, lower, limits);
  }

  /** Setting takes effect for every spelling of the category, in a named scene, and nowhere else. */
  lemma SettingTakesEffect(overrides: Overrides, settings: Settings, lower: Lower, scene: string, category: string,
                           params: Params, otherScene: string, other: string)
    ensures InForce(WithOverride(overrides, scene, lower(category), params), settings, lower, other, otherScene)
         == if otherScene == scene && scene != "" && lower(other) == lower(category) then params
            else InForce(overrides, settings, lower, other, otherScene)
  {
  }

  /** Resetting brings back the configured parameters for the category, and changes nothing else. */
  lemma ResettingTakesEffect(overrides: Overrides, settings: Settings, lower: Lower, scene: string, category: string,
                             otherScene: string, other: string)
    ensures InForce(WithoutOverride(overrides, scene, lower(category)), settings, lower, other, otherScene)
         == if otherScene == scene && lower(other) == lower(category) then DefaultsFor(settings, lower, other)
            else InForce(overrides, settings, lower, other, otherScene)
  {
  }

  /** What the last set or reset of a run says about a category in a scene; None if there is none. */
  function LastChange(run: seq<Command>, scene: string, key: string, lower: Lower): Option<Option<Params>> {
    if run == [] then None
    else
      var c := run[|run| - 1];
      if c.SetParams? && c.scene == scene && lower(c.category) == key then Some(Some(c.params))
      else if c.ResetParams? && c.scene == scene && lower(c.category) == key then Some(None)
      else LastChange(run[..|run| - 1], scene, key, lower)
  }

  lemma {:induction false} AfterRunLast(a: Analytics, run: seq<Command>, lower: Lower, limits: Limits)
    requires run != []
    ensures AfterRun(a, run, lower, limits)
         == Execute(AfterRun(a, run[..|run| - 1], lower, limits), run[|run| - 1], lower, limits)
    decreases |run|
  {
    var n := |run| - 1;
    if n == 0 {
      assert run[..0] == [] && run[1..] == [];
    } else {
      assert run[1..][..n - 1] == run[..n][1..];
      AfterRunLast(Execute(a, run[0], lower, limits), run[1..], lower, limits);
    }
  }

  /** After any run the lookup gives what the last set of that category in that scene said, in any spelling, or the
      configuration if a reset came last; analyses and other scenes and categories never matter. */
  lemma {:induction false} LastChangeIsInForce(a: Analytics, run: seq<Command>, settings: Settings, lower: Lower,
                                               limits: Limits, category: string, scene: string)
    ensures InForce(AfterRun(a, run, lower, limits).overrides, settings, lower, category, scene)
         == var key := lower(category);
            var configured := if key in settings.byCategory then settings.byCategory[key] else settings.default;
            if scene == "" then configured
            else match LastChange(run, scene, key, lower)
            case Some(Some(params)) => params
            case Some(None) => configured
            case None => InForce(a.overrides, settings, lower, category, scene)
    decreases |run|
  {
    if run != [] {
      var n := |run| - 1;
      var b := AfterRun(a, run[..n], lower, limits);
      AfterRunLast(a, run, lower, limits);
      LastChangeIsInForce(a, run[..n], settings, lower, limits, category, scene);
      match run[n]
      case Analyse(_, _, _) =>
      case SetParams(s, other, params) =>
        SettingTakesEffect(b.overrides, settings, lower, s, other, params, scene, category);
      case ResetParams(s, other) =>
        ResettingTakesEffect(b.overrides, settings, lower, s, other, scene, category);
    }
  }

  // ----- Analyses that overlap a change -----

  lemma ForeignParametersShow(a: Analytics, c: Command, settings: Settings, lower: Lower, limits: Limits, k: nat)
    requires c.Analyse? && k < |c.raw| && SceneUuidsOk(a.tracker, c.scene)
    requires c.raw[k].payload.params != InForce(a.overrides, settings, lower, c.raw[k].category, c.scene)
    ensures !SceneInForce(Execute(a, c, lower, limits), settings, lower, c.scene)
  {
    var b := Execute(a, c, lower, limits);
    var f := Begin(Clusters(a.tracker, c.scene), a.tracker.next);
    var g, ts := Greedy(f, c.raw, c.timestamp, limits), Targets(f, c.raw, c.timestamp, limits);
    UpdateIsOneToOne(Clusters(a.tracker, c.scene), a.tracker.next, c.raw, c.timestamp, limits);
    assert Clusters(b.tracker, c.scene) == g.clusters;
    assert Holds(g.clusters[ts[k]], c.raw[k], c.timestamp);
  }

  /** Whatever parameters its detections carry, an update keeps the property if and only if they are those in force
      when it happens. */
  lemma UpdateKeepsExactlyWhen(a: Analytics, c: Command, settings: Settings, lower: Lower, limits: Limits)
    requires AllInForce(a, settings, lower) && c.Analyse?
    ensures AllInForce(Execute(a, c, lower, limits), settings, lower) <==> Allowed(a, c, settings, lower)
  {
    assert SceneInForce(a, settings, lower, c.scene) && SceneUuidsOk(a.tracker, c.scene);
    if Allowed(a, c, settings, lower) {
      StepKeepsParameters(a, c, settings, lower, limits);
    } else {
      var k: nat :| k < |c.raw| &&
        c.raw[k].payload.params != InForce(a.overrides, settings, lower, c.raw[k].category, c.scene);
      ForeignParametersShow(a, c, settings, lower, limits, k);
    }
  }

  /** The change of overrides leaves the lookup alone for the category of every detection. */
  ghost predicate SameLookups(before: Overrides, after: Overrides, c: Command, settings: Settings, lower: Lower)
    requires c.Analyse?
  {
    forall k: nat :: k < |c.raw| ==>
      InForce(after, settings, lower, c.raw[k].category, c.scene)
      == InForce(before, settings, lower, c.raw[k].category, c.scene)
  }

  /**
    * An analysis takes no lock between its lookups and its update. If any other calls come in between, the property
    * survives the update if and only if they left the lookups of its detections' categories as they were.
    */
  lemma OverlapKeepsExactlyWhen(a: Analytics, between: seq<Command>, c: Command, settings: Settings, lower: Lower,
                                limits: Limits)
    requires AllInForce(a, settings, lower) && AllowedRun(a, between, settings, lower, limits)
    requires c.Analyse? && Allowed(a, c, settings, lower)
    ensures var b := AfterRun(a, between, lower, limits);
            AllInForce(Execute(b, c, lower, limits), settings, lower)
            <==> SameLookups(a.overrides, b.overrides, c, settings, lower)
  {
    var b := AfterRun(a, between, lower, limits);
    RunKeepsParameters(a, between, settings, lower, limits);
    UpdateKeepsExactlyWhen(b, c, settings, lower, limits);
    assert Allowed(b, c, settings, lower) <==> SameLookups(a.overrides, b.overrides, c, settings, lower);
  }

  /** A change that overlaps an analysis and does alter its lookup: the cluster keeps the old parameters. */
  lemma LateUpdateLeavesOldParameters(lower: Lower)
    ensures var old3, new5 := Params(1.0, 3), Params(2.0, 5);
            var settings, limits := Settings(old3, map[]), Limits(2.0, 10.0);
            var late := Analyse("s", [Detection("car", 0.0, 0.0, Payload(3, [], old3))], 1.0);
            && Allowed(EMPTY_SERVICE, late, settings, lower)
            && !AllInForce(AfterRun(EMPTY_SERVICE, [SetParams("s", "car", new5), late], lower, limits), settings, lower)
  {
    var old3, new5 := Params(1.0, 3), Params(2.0, 5);
    var settings, limits := Settings(old3, map[]), Limits(2.0, 10.0);
    var late := Analyse("s", [Detection("car", 0.0, 0.0, Payload(3, [], old3))], 1.0);
    var change := SetParams("s", "car", new5);
    var middle := Execute(EMPTY_SERVICE, change, lower, limits);
    EmptyInForce(settings, lower);
    StepKeepsParameters(EMPTY_SERVICE, change, settings, lower, limits);
    assert InForce(middle.overrides, settings, lower, "car", "s") == new5;
    assert late.raw[0].payload.params != new5;
    UpdateKeepsExactlyWhen(middle, late, settings, lower, limits);
    assert [change, late][1..] == [late] && [late][1..] == [];
    assert AfterRun(EMPTY_SERVICE, [change, late], lower, limits) == AfterRun(middle, [late], lower, limits);
    assert AfterRun(middle, [late], lower, limits) == Execute(middle, late, lower, limits);
  }

  // ----- One message -----

  /** With fewer objects than every category needs, a full pass would find nothing: leaving early loses nothing. */
  lemma EarlyExitLosesNothing(objects: seq<Object>, order: seq<string>, required: int, params: string -> Params,
                              dbscan: Dbscan)
    requires LabelsEveryPoint(dbscan) && |objects| < required
    requires forall category: string :: category in order <==> OfCategory(objects, category) != []
    requires forall category: string :: category in order ==> required <= params(category).minSamples
    ensures FullPass([], [], objects, params, dbscan) && !SomeDbscanFails(objects, params, dbscan)
  {
    forall category: string ensures !Clustered(objects, category, params) {
      CategoryIsSmaller(objects, category);
    }
  }

  lemma {:induction false} CategoryIsSmaller(objects: seq<Object>, category: string)
    ensures |OfCategory(objects, category)| <= |objects|
    decreases |objects|
  {
    if objects != [] {
      CategoryIsSmaller(objects[..|objects| - 1], category);
    }
  }

  /** The least minimum among the categories present, or the default if there is none. */
  method MinimumRequired(order: seq<string>, params: string -> Params, default: int) returns (required: int)
    ensures forall category: string :: category in order ==> required <= params(category).minSamples
    ensures if order == [] then required == default
            else exists category: string :: category in order && required == params(category).minSamples
  {
    if order == [] {
      return default;
    }
    required := params(order[0]).minSamples;
    for i := 1 to |order|
      invariant forall category: string :: category in order[..i] ==> required <= params(category).minSamples
      invariant exists category: string :: category in order && required == params(category).minSamples
    {
      assert order[..i + 1] == order[..i] + [order[i]];
      if params(order[i]).minSamples < required {
        required := params(order[i]).minSamples;
      }
    }
    assert order[..|order|] == order;
  }

  /** Detection k is the one that key k calls for. */
  ghost predicate AllDetect(raw: seq<Detection>, keys: seq<Key>, objects: seq<Object>, params: string -> Params,
                            dbscan: Dbscan)
    requires LabelsEveryPoint(dbscan)
  {
    |raw| == |keys| && forall k: nat :: k < |keys| ==> IsDetectionOf(raw[k], keys[k], objects, params, dbscan)
  }

  /** The pass has dealt with the categories listed so far. */
  ghost predicate PassSoFar(raw: seq<Detection>, keys: seq<Key>, done: seq<string>, objects: seq<Object>,
                            params: string -> Params, dbscan: Dbscan)
    requires LabelsEveryPoint(dbscan)
  {
    && AllDetect(raw, keys, objects, params, dbscan) && Distinct(keys)
    && (forall k: nat :: k < |keys| ==> keys[k].category in done)
    && (forall key: Key :: IsKey(key, objects, params, dbscan) && key.category in done ==> key in keys)
    && forall category: string :: category in done && Clustered(objects, category, params) ==>
         LabelsOf(objects, category, params, dbscan).Some?
  }

  lemma SkipSmallCategory(raw: seq<Detection>, keys: seq<Key>, done: seq<string>, category: string,
                          objects: seq<Object>, params: string -> Params, dbscan: Dbscan)
    requires LabelsEveryPoint(dbscan) && PassSoFar(raw, keys, done, objects, params, dbscan)
    requires !Clustered(objects, category, params)
    ensures PassSoFar(raw, keys, done + [category], objects, params, dbscan)
  {
  }

  function KeysOf(category: string, ids: seq<int>): (keys: seq<Key>)
    ensures |keys| == |ids|
  {
    seq(|ids|, i requires 0 <= i < |ids| => Key(category, ids[i]))
  }

  /** What a finished category adds to the pass. */
  ghost predicate CategoryPass(part: seq<Detection>, ids: seq<int>, category: string, objects: seq<Object>,
                               params: string -> Params, dbscan: Dbscan)
    requires LabelsEveryPoint(dbscan)
  {
    var labels := LabelsOf(objects, category, params, dbscan);
    && Clustered(objects, category, params) && labels.Some?
    && Detects(part, ids, category, OfCategory(objects, category), labels.value, params(category))
    && forall id: int :: id in ids <==> id in labels.value && id != NOISE
  }

  lemma CategoryDetections(part: seq<Detection>, ids: seq<int>, category: string, objects: seq<Object>,
                           params: string -> Params, dbscan: Dbscan)
    requires LabelsEveryPoint(dbscan) && CategoryPass(part, ids, category, objects, params, dbscan)
    ensures AllDetect(part, KeysOf(category, ids), objects, params, dbscan)
  {
    assert forall k: nat :: k < |ids| ==> ids[k] in ids;
  }

  lemma JoinDetections(raw: seq<Detection>, keys: seq<Key>, part: seq<Detection>, added: seq<Key>,
                       objects: seq<Object>, params: string -> Params, dbscan: Dbscan)
    requires LabelsEveryPoint(dbscan)
    requires AllDetect(raw, keys, objects, params, dbscan) && AllDetect(part, added, objects, params, dbscan)
    ensures AllDetect(raw + part, keys + added, objects, params, dbscan)
  {
  }

  lemma CategoryCovered(ids: seq<int>, part: seq<Detection>, category: string, objects: seq<Object>,
                        params: string -> Params, dbscan: Dbscan, key: Key)
    requires LabelsEveryPoint(dbscan) && CategoryPass(part, ids, category, objects, params, dbscan)
    requires IsKey(key, objects, params, dbscan) && key.category == category
    ensures key in KeysOf(category, ids)
  {
    var i: nat :| i < |ids| && ids[i] == key.cluster;
    assert KeysOf(category, ids)[i] == key;
  }

  lemma KeysStayDistinct(keys: seq<Key>, done: seq<string>, category: string, ids: seq<int>)
    requires Distinct(keys) && Distinct(ids) && category !in done
    requires forall k: nat :: k < |keys| ==> keys[k].category in done
    ensures Distinct(keys + KeysOf(category, ids))
  {
  }

  lemma JoinedKey(raw: seq<Detection>, keys: seq<Key>, done: seq<string>, category: string,
                  part: seq<Detection>, ids: seq<int>,
                  objects: seq<Object>, params: string -> Params, dbscan: Dbscan, key: Key)
    requires LabelsEveryPoint(dbscan) && PassSoFar(raw, keys, done, objects, params, dbscan)
    requires CategoryPass(part, ids, category, objects, params, dbscan)
    requires IsKey(key, objects, params, dbscan) && key.category in done + [category]
    ensures key in keys + KeysOf(category, ids)
  {
    if key.category == category {
      CategoryCovered(ids, part, category, objects, params, dbscan, key);
    }
  }

  lemma AddCategory(raw: seq<Detection>, keys: seq<Key>, done: seq<string>, category: string,
                    part: seq<Detection>, ids: seq<int>,
                    objects: seq<Object>, params: string -> Params, dbscan: Dbscan)
    requires LabelsEveryPoint(dbscan) && PassSoFar(raw, keys, done, objects, params, dbscan)
    requires category !in done && CategoryPass(part, ids, category, objects, params, dbscan)
    ensures PassSoFar(raw + part, keys + KeysOf(category, ids), done + [category], objects, params, dbscan)
  {
    var all := keys + KeysOf(category, ids);
    KeysStayDistinct(keys, done, category, ids);
    CategoryDetections(part, ids, category, objects, params, dbscan);
    JoinDetections(raw, keys, part, KeysOf(category, ids), objects, params, dbscan);
    forall key: Key | IsKey(key, objects, params, dbscan) && key.category in done + [category] ensures key in all {
      JoinedKey(raw, keys, done, category, part, ids, objects, params, dbscan, key);
    }
  }

  /** DBSCAN every category with enough objects; an exception ends the pass. */
  method DetectAll(objects: seq<Object>, order: seq<string>, groups: map<string, seq<Object>>,
                   params: string -> Params, dbscan: Dbscan)
    returns (r: Option<seq<Detection>>, ghost keys: seq<Key>)
    requires LabelsEveryPoint(dbscan) && Distinct(order)
    requires forall category: string :: category in order <==> OfCategory(objects, category) != []
    requires forall category: string :: category in order ==>
               category in groups && groups[category] == OfCategory(objects, category)
    ensures r.None? <==> SomeDbscanFails(objects, params, dbscan)
    ensures r.Some? ==> FullPass(r.value, keys, objects, params, dbscan)
  {
    var raw: seq<Detection> := [];
    keys := [];
    for i := 0 to |order|
      invariant PassSoFar(raw, keys, order[..i], objects, params, dbscan)
    {
      var category := order[i];
      assert category in order && category !in order[..i] && order[..i + 1] == order[..i] + [category];
      if |groups[category]| < params(category).minSamples {
        SkipSmallCategory(raw, keys, order[..i], category, objects, params, dbscan);
      } else {
        var labels := dbscan(params(category), Coordinates(groups[category]));
        if labels.None? {
          assert Clustered(objects, category, params);
          return None, keys;
        }
        var part, ids := DetectCategory(category, groups[category], labels.value, params(category));
        AddCategory(raw, keys, order[..i], category, part, ids, objects, params, dbscan);
        raw, keys := raw + part, keys + KeysOf(category, ids);
      }
    }
    assert order[..|order|] == order;
    r := Some(raw);
  }

  lemma StampedWithParams(raw: seq<Detection>, keys: seq<Key>, objects: seq<Object>, params: string -> Params,
                          dbscan: Dbscan)
    requires LabelsEveryPoint(dbscan) && FullPass(raw, keys, objects, params, dbscan)
    ensures forall k: nat :: k < |raw| ==> raw[k].payload.params == params(raw[k].category)
  {
    forall k: nat | k < |raw| ensures raw[k].payload.params == params(raw[k].category) {
      assert IsDetectionOf(raw[k], keys[k], objects, params, dbscan);
    }
  }

  lemma {:induction false} MemberOfItsCluster(objects: seq<Object>, labels: seq<int>, i: nat)
    requires |objects| == |labels| && i < |objects|
    ensures objects[i] in Members(objects, labels, labels[i])
    decreases |objects|
  {
    if i < |objects| - 1 {
      MemberOfItsCluster(objects[..|objects| - 1], labels[..|labels| - 1], i);
    }
  }

  /** In a full pass every object of a clustered category that is not noise is in exactly one detection. */
  lemma EachObjectInOneDetection(raw: seq<Detection>, keys: seq<Key>, objects: seq<Object>, params: string -> Params,
                                 dbscan: Dbscan, category: string, i: nat)
    requires LabelsEveryPoint(dbscan) && FullPass(raw, keys, objects, params, dbscan)
    requires LabelsOf(objects, category, params, dbscan).Some?
    requires params(category).minSamples <= |OfCategory(objects, category)|
    requires i < |OfCategory(objects, category)| && LabelsOf(objects, category, params, dbscan).value[i] != -1
    ensures var own, labels := OfCategory(objects, category), LabelsOf(objects, category, params, dbscan).value;
            && own[i] in Members(own, labels, labels[i])
            && exists k: nat :: k < |keys| && keys[k] == Key(category, labels[i])
                                && forall j: nat :: j < |keys| && keys[j] == Key(category, labels[i]) ==> j == k
  {
    var own, labels := OfCategory(objects, category), LabelsOf(objects, category, params, dbscan).value;
    MemberOfItsCluster(own, labels, i);
    var key := Key(category, labels[i]);
    assert labels[i] in labels && IsKey(key, objects, params, dbscan);
    var k: nat :| k < |keys| && keys[k] == key;
  }

  /** Every detection of a full pass is of a category with enough objects and of a DBSCAN label other than noise, its
      members being the objects of that category with that label. */
  lemma EachDetectionHasMembers(raw: seq<Detection>, keys: seq<Key>, objects: seq<Object>, params: string -> Params,
                                dbscan: Dbscan, k: nat)
    requires LabelsEveryPoint(dbscan) && FullPass(raw, keys, objects, params, dbscan) && k < |keys|
    ensures var category, own := keys[k].category, OfCategory(objects, keys[k].category);
            var labels := dbscan(params(category), Coordinates(own));
            && 0 < |own| && params(category).minSamples <= |own| && labels.Some? && keys[k].cluster != -1
            && var members := Members(own, labels.value, keys[k].cluster);
               members != [] && raw[k] == Detect(category, members, params(category))
  {
    assert IsDetectionOf(raw[k], keys[k], objects, params, dbscan);
  }

  class Service {
    const settings: Settings
    const lower: Lower
    const tracker: ClusterTracker
    var overrides: Overrides

    function State(): Analytics
      reads this, tracker
    {
      Analytics(overrides, tracker.State())
    }

    ghost predicate Valid()
      reads this, tracker
    {
      tracker.Valid()
    }

    constructor (settings: Settings, lower: Lower)
      ensures Valid() && fresh(tracker)
      ensures this.settings == settings && this.lower == lower && tracker.limits == Limits(2.0, 10.0)
      ensures State() == Analytics(map[], Tracker(map[], map[], 0))
    {
      this.settings, this.lower, overrides := settings, lower, map[];
      tracker := new ClusterTracker(2.0, 10.0);
    }

    method SetParameters(category: string, params: Params, scene: string)
      requires Valid()
      modifies this, tracker
      ensures Valid()
      ensures State() == Execute(old(State()), SetParams(scene, category, params), lower, tracker.limits)
    {
      var key := lower(category);
      if scene !in overrides {
        overrides := overrides[scene := map[]];
      }
      overrides := overrides[scene := overrides[scene][key := params]];
      tracker.ClearScene(scene);
    }

    method ResetParameters(category: string, scene: string)
      requires Valid()
      modifies this, tracker
      ensures Valid()
      ensures State() == Execute(old(State()), ResetParams(scene, category), lower, tracker.limits)
    {
      var key := lower(category);
      if scene in overrides {
        overrides := overrides[scene := overrides[scene] - {key}];
      }
      tracker.ClearScene(scene);
    }

    /** A failing DBSCAN leaves everything as it was; otherwise the tracker is updated with a full pass. */
    method Analyze(scene: string, objects: seq<Object>, timestamp: real, dbscan: Dbscan)
      returns (r: Option<seq<Detection>>, ghost keys: seq<Key>)
      requires Valid() && LabelsEveryPoint(dbscan)
      modifies tracker
      ensures Valid()
      ensures var params := ParamsFor(overrides, settings, lower, scene);
              && (r.None? <==> SomeDbscanFails(objects, params, dbscan))
              && (r.None? ==> State() == old(State()))
              && (r.Some? ==>
                    && FullPass(r.value, keys, objects, params, dbscan)
                    && Allowed(old(State()), Analyse(scene, r.value, timestamp), settings, lower)
                    && State() == Execute(old(State()), Analyse(scene, r.value, timestamp), lower, tracker.limits))
    {
      var params := ParamsFor(overrides, settings, lower, scene);
      var order, groups := GroupByCategory(objects);
      var required := MinimumRequired(order, params, settings.default.minSamples);
      if |objects| < required {
        EarlyExitLosesNothing(objects, order, required, params, dbscan);
        tracker.Update(scene, [], timestamp);
        return Some([]), [];
      }
      r, keys := DetectAll(objects, order, groups, params, dbscan);
      if r.Some? {
        StampedWithParams(r.value, keys, objects, params, dbscan);
        tracker.Update(scene, r.value, timestamp);
      }
    }
  }
}
