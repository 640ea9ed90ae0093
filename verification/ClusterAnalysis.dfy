/** From the objects of one message to cluster detections: groups by category, DBSCAN labels, one detection each. */
module ClusterAnalysis {
  import opened Wrappers
  import opened ClusterMatching

  datatype Object = Object(id: string, category: string, x: real, y: real)

  datatype Point = Point(x: real, y: real)

  /** DBSCAN as an oracle: a label for each point, -1 for noise, or an exception. */
  type Dbscan = (Params, seq<Point>) -> Option<seq<int>>

  ghost predicate LabelsEveryPoint(dbscan: Dbscan) {
    forall p: Params, points: seq<Point> :: dbscan(p, points).Some? ==> |dbscan(p, points).value| == |points|
  }

  const NOISE := -1

  function OfCategory(objects: seq<Object>, category: string): seq<Object> {
    if objects == [] then []
    else
      var n := |objects| - 1;
      OfCategory(objects[..n], category) + if objects[n].category == category then [objects[n]] else []
  }

  function Coordinates(objects: seq<Object>): (points: seq<Point>)
    ensures |points| == |objects|
    ensures forall i :: 0 <= i < |objects| ==> points[i].x == objects[i].x && points[i].y == objects[i].y
  {
    seq(|objects|, i requires 0 <= i < |objects| => Point(objects[i].x, objects[i].y))
  }

  /** The objects with the given label, in order. */
  function Members(objects: seq<Object>, labels: seq<int>, cluster: int): seq<Object>
    requires |objects| == |labels|
  {
    if objects == [] then []
    else
      var n := |objects| - 1;
      Members(objects[..n], labels[..n], cluster) + if labels[n] == cluster then [objects[n]] else []
  }

  function SumX(objects: seq<Object>): real {
    if objects == [] then 0.0 else SumX(objects[..|objects| - 1]) + objects[|objects| - 1].x
  }

  function SumY(objects: seq<Object>): real {
    if objects == [] then 0.0 else SumY(objects[..|objects| - 1]) + objects[|objects| - 1].y
  }

  function Ids(objects: seq<Object>): seq<string> {
    seq(|objects|, i requires 0 <= i < |objects| => objects[i].id)
  }

  /** The detection of one cluster: its centre is the mean of its members. */
  function Detect(category: string, members: seq<Object>, params: Params): Detection
    requires members != []
  {
    var n := |members| as real;
    Detection(category, SumX(members) / n, SumY(members) / n, Payload(|members|, Ids(members), params))
  }

  function Total(s: seq<real>): real {
    if s == [] then 0.0 else Total(s[..|s| - 1]) + s[|s| - 1]
  }

  lemma {:induction false} OffsetsTotal(objects: seq<Object>, x: real, y: real, dx: seq<real>, dy: seq<real>)
    requires |dx| == |dy| == |objects|
    requires forall i :: 0 <= i < |objects| ==> dx[i] == objects[i].x - x && dy[i] == objects[i].y - y
    ensures Total(dx) == SumX(objects) - |objects| as real * x
    ensures Total(dy) == SumY(objects) - |objects| as real * y
    decreases |objects|
  {
    if objects != [] {
      var n := |objects| - 1;
      OffsetsTotal(objects[..n], x, y, dx[..n], dy[..n]);
      OneMoreTerm(n, x);
      OneMoreTerm(n, y);
    }
  }

  lemma OneMoreTerm(n: nat, x: real)
    ensures (n + 1) as real * x == n as real * x + x
  {
  }

  lemma MeanOf(sum: real, n: nat)
    requires n > 0
    ensures n as real * (sum / n as real) == sum
  {
  }

  ghost predicate IsMean(x: real, sum: real, n: nat) {
    n as real * x == sum
  }

  lemma MeanBalances(members: seq<Object>, x: real, y: real, dx: seq<real>, dy: seq<real>)
    requires |dx| == |dy| == |members|
    requires forall i :: 0 <= i < |members| ==> dx[i] == members[i].x - x && dy[i] == members[i].y - y
    requires IsMean(x, SumX(members), |members|) && IsMean(y, SumY(members), |members|)
    ensures Total(dx) == 0.0 && Total(dy) == 0.0
  {
    OffsetsTotal(members, x, y, dx, dy);
  }

  lemma CentreIsMean(category: string, members: seq<Object>, params: Params)
    requires members != []
    ensures IsMean(Detect(category, members, params).x, SumX(members), |members|)
    ensures IsMean(Detect(category, members, params).y, SumY(members), |members|)
  {
    MeanOf(SumX(members), |members|);
    MeanOf(SumY(members), |members|);
  }

  /** The centre of a detection is where its members' offsets cancel out. */
  lemma DetectionIsCentred(category: string, members: seq<Object>, params: Params, d: Detection,
                           dx: seq<real>, dy: seq<real>)
    requires members != [] && |dx| == |dy| == |members| && d == Detect(category, members, params)
    requires forall i :: 0 <= i < |members| ==> dx[i] == members[i].x - d.x && dy[i] == members[i].y - d.y
    ensures Total(dx) == 0.0 && Total(dy) == 0.0
  {
    CentreIsMean(category, members, params);
    MeanBalances(members, d.x, d.y, dx, dy);
  }

  /** It counts and names its members in order, and carries the category and the parameters. */
  lemma DetectionNamesMembers(category: string, members: seq<Object>, params: Params)
    requires members != []
    ensures var d := Detect(category, members, params);
            && d.category == category && d.payload.params == params && d.payload.objectsCount == |members|
            && |d.payload.objectIds| == |members|
            && forall i :: 0 <= i < |members| ==> d.payload.objectIds[i] == members[i].id
  {
  }

  // ----- The detections of a whole message -----

  /** A cluster by its category and DBSCAN label. */
  datatype Key = Key(category: string, cluster: int)

  /** The category has enough objects to be clustered. */
  predicate Clustered(objects: seq<Object>, category: string, params: string -> Params) {
    OfCategory(objects, category) != [] && |OfCategory(objects, category)| >= params(category).minSamples
  }

  function LabelsOf(objects: seq<Object>, category: string, params: string -> Params, dbscan: Dbscan): Option<seq<int>>
  {
    dbscan(params(category), Coordinates(OfCategory(objects, category)))
  }

  predicate IsKey(key: Key, objects: seq<Object>, params: string -> Params, dbscan: Dbscan) {
    var labels := LabelsOf(objects, key.category, params, dbscan);
    Clustered(objects, key.category, params) && labels.Some? && key.cluster != NOISE && key.cluster in labels.value
  }

  lemma {:induction false} MembersExist(objects: seq<Object>, labels: seq<int>, cluster: int)
    requires |objects| == |labels|
    ensures Members(objects, labels, cluster) != [] <==> cluster in labels
    decreases |objects|
  {
    if objects != [] {
      var n := |objects| - 1;
      MembersExist(objects[..n], labels[..n], cluster);
      assert labels == labels[..n] + [labels[n]];
    }
  }

  ghost predicate IsDetectionOf(d: Detection, key: Key, objects: seq<Object>, params: string -> Params, dbscan: Dbscan)
    requires LabelsEveryPoint(dbscan)
  {
    && IsKey(key, objects, params, dbscan)
    && var members := Members(OfCategory(objects, key.category),
                              LabelsOf(objects, key.category, params, dbscan).value, key.cluster);
       members != [] && d == Detect(key.category, members, params(key.category))
  }

  ghost predicate Distinct<T(!new)>(s: seq<T>) {
    forall i: nat, j: nat :: i < j < |s| ==> s[i] != s[j]
  }

  /** The detections of a full pass: one for each cluster of each clustered category, in some order. */
  ghost predicate FullPass(raw: seq<Detection>, keys: seq<Key>, objects: seq<Object>, params: string -> Params,
                           dbscan: Dbscan)
    requires LabelsEveryPoint(dbscan)
  {
    && |raw| == |keys| && Distinct(keys)
    && (forall k: nat :: k < |keys| ==> IsDetectionOf(raw[k], keys[k], objects, params, dbscan))
    && forall key: Key :: IsKey(key, objects, params, dbscan) ==> key in keys
  }

  ghost predicate SomeDbscanFails(objects: seq<Object>, params: string -> Params, dbscan: Dbscan) {
    exists category: string :: Clustered(objects, category, params) && LabelsOf(objects, category, params, dbscan).None?
  }

  // ----- Conservation: every object has one label -----

  function TotalMembers(objects: seq<Object>, labels: seq<int>, ids: seq<int>): nat
    requires |objects| == |labels|
  {
    if ids == [] then 0
    else |Members(objects, labels, ids[|ids| - 1])| + TotalMembers(objects, labels, ids[..|ids| - 1])
  }

  function Occurrences(ids: seq<int>, cluster: int): nat {
    if ids == [] then 0 else Occurrences(ids[..|ids| - 1], cluster) + if ids[|ids| - 1] == cluster then 1 else 0
  }

  lemma {:induction false} OneMoreMember(objects: seq<Object>, labels: seq<int>, ids: seq<int>)
    requires |objects| == |labels| && objects != []
    ensures var n := |objects| - 1;
            TotalMembers(objects, labels, ids)
            == TotalMembers(objects[..n], labels[..n], ids) + Occurrences(ids, labels[n])
    decreases |ids|
  {
    if ids != [] {
      OneMoreMember(objects, labels, ids[..|ids| - 1]);
    }
  }

  lemma {:induction false} DistinctOccurOnce(ids: seq<int>, cluster: int)
    requires Distinct(ids)
    ensures Occurrences(ids, cluster) == if cluster in ids then 1 else 0
    decreases |ids|
  {
    if ids != [] {
      var m := |ids| - 1;
      DistinctOccurOnce(ids[..m], cluster);
      assert ids == ids[..m] + [ids[m]];
      assert forall i: nat :: i < m ==> ids[i] != ids[m];
    }
  }

  /** Distinct labels that cover every label used account for every object exactly once. */
  lemma {:induction false} ObjectsAreConserved(objects: seq<Object>, labels: seq<int>, ids: seq<int>)
    requires |objects| == |labels| && Distinct(ids)
    requires forall id: int :: id in labels ==> id in ids
    ensures TotalMembers(objects, labels, ids) == |objects|
    decreases |objects|
  {
    if objects == [] {
      NoObjectsNoMembers(ids);
      assert objects == [] && labels == [];
    } else {
      var n := |objects| - 1;
      assert labels[n] in labels;
      ObjectsAreConserved(objects[..n], labels[..n], ids);
      OneMoreMember(objects, labels, ids);
      DistinctOccurOnce(ids, labels[n]);
    }
  }

  lemma {:induction false} NoObjectsNoMembers(ids: seq<int>)
    ensures TotalMembers([], [], ids) == 0
    decreases |ids|
  {
    if ids != [] {
      NoObjectsNoMembers(ids[..|ids| - 1]);
    }
  }

  function TotalCount(raw: seq<Detection>): nat {
    if raw == [] then 0 else TotalCount(raw[..|raw| - 1]) + raw[|raw| - 1].payload.objectsCount
  }

  // ----- The loops -----

  /** The list names the categories of the groups, and each group holds the objects of its category in order. */
  ghost predicate Grouped(order: seq<string>, groups: map<string, seq<Object>>, objects: seq<Object>) {
    && Distinct(order)
    && (forall category: string :: category in order <==> category in groups)
    && (forall category: string :: category in groups <==> OfCategory(objects, category) != [])
    && forall category: string :: category in groups ==> groups[category] == OfCategory(objects, category)
  }

  lemma OfCategoryGrows(objects: seq<Object>, x: Object, category: string)
    ensures OfCategory(objects + [x], category)
         == OfCategory(objects, category) + if x.category == category then [x] else []
  {
    assert (objects + [x])[..|objects|] == objects;
  }

  lemma OrderGrows(order: seq<string>, category: string)
    requires Distinct(order) && category !in order
    ensures Distinct(order + [category])
  {
    assert forall k: nat :: k < |order| ==> order[k] in order;
  }

  lemma GroupsOneMore(order: seq<string>, groups: map<string, seq<Object>>, objects: seq<Object>, x: Object)
    requires Grouped(order, groups, objects)
    ensures var present := if x.category in groups then groups[x.category] else [];
            Grouped(if x.category in groups then order else order + [x.category],
                    groups[x.category := present + [x]], objects + [x])
  {
    var all := objects + [x];
    var present := if x.category in groups then groups[x.category] else [];
    var next := groups[x.category := present + [x]];
    forall category: string
      ensures category in next <==> OfCategory(all, category) != []
      ensures category in next ==> next[category] == OfCategory(all, category)
    {
      OfCategoryGrows(objects, x, category);
    }
    if x.category !in groups {
      OrderGrows(order, x.category);
    }
  }

  /** Group the objects by category, in order of first appearance. */
  method GroupByCategory(objects: seq<Object>) returns (order: seq<string>, groups: map<string, seq<Object>>)
    ensures Grouped(order, groups, objects)
  {
    order, groups := [], map[];
    for i := 0 to |objects|
      invariant Grouped(order, groups, objects[..i])
    {
      assert objects[..i + 1] == objects[..i] + [objects[i]];
      GroupsOneMore(order, groups, objects[..i], objects[i]);
      var category := objects[i].category;
      if category !in groups {
        order, groups := order + [category], groups[category := []];
      }
      groups := groups[category := groups[category] + [objects[i]]];
    }
    assert objects[..|objects|] == objects;
  }

  /** Collect the objects with one label. */
  method CollectMembers(objects: seq<Object>, labels: seq<int>, cluster: int) returns (members: seq<Object>)
    requires |objects| == |labels|
    ensures members == Members(objects, labels, cluster)
  {
    members := [];
    for i := 0 to |labels|
      invariant members == Members(objects[..i], labels[..i], cluster)
    {
      assert objects[..i + 1][..i] == objects[..i] && labels[..i + 1][..i] == labels[..i];
      if labels[i] == cluster {
        members := members + [objects[i]];
      }
    }
    assert objects[..|labels|] == objects && labels[..|labels|] == labels;
  }

  ghost predicate DetectsCluster(d: Detection, category: string, objects: seq<Object>, labels: seq<int>, id: int,
                                 params: Params)
    requires |objects| == |labels|
  {
    var members := Members(objects, labels, id);
    members != [] && d == Detect(category, members, params)
  }

  /** raw holds one detection for each of the distinct labels in ids. */
  ghost predicate Detects(raw: seq<Detection>, ids: seq<int>, category: string, objects: seq<Object>,
                          labels: seq<int>, params: Params)
    requires |objects| == |labels|
  {
    && |raw| == |ids| && Distinct(ids)
    && (forall k: nat :: k < |ids| ==> DetectsCluster(raw[k], category, objects, labels, ids[k], params))
    && TotalCount(raw) == TotalMembers(objects, labels, ids)
  }

  lemma DetectsOneMore(raw: seq<Detection>, ids: seq<int>, category: string, objects: seq<Object>, labels: seq<int>,
                       params: Params, d: Detection, id: int)
    requires |objects| == |labels| && Detects(raw, ids, category, objects, labels, params)
    requires id !in ids && DetectsCluster(d, category, objects, labels, id, params)
    ensures Detects(raw + [d], ids + [id], category, objects, labels, params)
  {
    assert (raw + [d])[..|raw|] == raw && (ids + [id])[..|ids|] == ids;
    assert forall k: nat :: k < |ids| ==> ids[k] in ids;
  }

  /** One detection for each label but noise, in any order; together with the noise they account for every object. */
  method DetectCategory(category: string, objects: seq<Object>, labels: seq<int>, params: Params)
    returns (raw: seq<Detection>, ghost ids: seq<int>)
    requires |objects| == |labels|
    ensures Detects(raw, ids, category, objects, labels, params)
    ensures forall id: int :: id in ids <==> id in labels && id != NOISE
    ensures TotalCount(raw) + |Members(objects, labels, NOISE)| == |objects|
  {
    raw, ids := [], [];
    var remaining := (set id | id in labels) - {NOISE};
    while remaining != {}
      invariant Detects(raw, ids, category, objects, labels, params)
      invariant forall id: int :: id in ids <==> id in labels && id != NOISE && id !in remaining
      invariant forall id: int :: id in remaining ==> id in labels && id != NOISE
      decreases |remaining|
    {
      SomeLabel(remaining);
      var id: int :| id in remaining;
      var members := CollectMembers(objects, labels, id);
      MembersExist(objects, labels, id);
      var d := Detect(category, members, params);
      DetectsOneMore(raw, ids, category, objects, labels, params, d, id);
      raw, ids, remaining := raw + [d], ids + [id], remaining - {id};
    }
    NoiseIsTheRest(objects, labels, ids);
  }

  lemma SomeLabel(s: set<int>)
    requires s != {}
    ensures exists cluster: int :: cluster in s
  {
    assert (forall cluster: int :: cluster !in s) ==> s == {};
  }

  lemma NoiseIsTheRest(objects: seq<Object>, labels: seq<int>, ids: seq<int>)
    requires |objects| == |labels| && Distinct(ids)
    requires forall cluster: int :: cluster in ids <==> cluster in labels && cluster != NOISE
    ensures TotalMembers(objects, labels, ids) + |Members(objects, labels, NOISE)| == |objects|
  {
    var all := ids + [NOISE];
    assert forall k: nat :: k < |ids| ==> ids[k] in ids;
    assert all[|ids|] == NOISE && forall id: int :: id in all <==> id in ids || id == NOISE;
    ObjectsAreConserved(objects, labels, all);
  }
}
