/** Replacing a scene's calibration markers through the REST interface, and reading them back. */
module MarkerReplacement {
  import opened Wrappers
  import opened MarkerStore

  const MIN_APRILTAG_COUNT := 4

  type Points = map<string, Dims>

  /** Every call made from one call count to another was answered. */
  ghost predicate AllAnswered(faults: nat -> Fault, from: nat, to: nat) {
    forall k: nat :: from <= k < to ==> faults(k).Delivered?
  }

  /** The scene's markers are exactly those of the points dealt with so far. */
  ghost predicate StoredSoFar(markers: Markers, scene: string, points: Points, left: set<string>) {
    && (forall tag: string :: tag in points && tag !in left ==>
          MarkerId(scene, tag) in markers && markers[MarkerId(scene, tag)] == Marker(scene, tag, points[tag]))
    && forall id: string :: id in markers && markers[id].scene == scene ==>
         markers[id].tag in points && markers[id].tag !in left && id == MarkerId(scene, markers[id].tag)
  }

  /** Whatever is stored for the scene is left from before, or is one of the new markers. */
  ghost predicate OldOrNew(before: Markers, after: Markers, scene: string, points: Points) {
    forall id: string :: id in after && after[id].scene == scene ==>
      || (id in before && before[id] == after[id])
      || (after[id].tag in points && id == MarkerId(scene, after[id].tag)
          && after[id].dims == points[after[id].tag])
  }

  lemma SameElsewhereChains(a: Markers, b: Markers, c: Markers, scene: string)
    requires SameElsewhere(a, b, scene) && SameElsewhere(b, c, scene)
    ensures SameElsewhere(a, c, scene)
  {
  }

  lemma ClashesStay(before: Markers, after: Markers, scene: string, points: Points)
    requires SameElsewhere(before, after, scene)
    ensures NoClash(before, scene, points) <==> NoClash(after, scene, points)
  {
    forall tag: string | tag in points
      ensures (MarkerId(scene, tag) in before && before[MarkerId(scene, tag)].scene != scene)
         <==> (MarkerId(scene, tag) in after && after[MarkerId(scene, tag)].scene != scene)
    {
    }
  }

  /** Storing one more point. */
  lemma StoresOneMore(before: Markers, after: Markers, scene: string, points: Points, left: set<string>, tag: string)
    requires StoredSoFar(before, scene, points, left) && tag in left && tag in points
    requires after == before[MarkerId(scene, tag) := Marker(scene, tag, points[tag])]
    ensures StoredSoFar(after, scene, points, left - {tag})
  {
    forall other: string | other in points && other !in left - {tag}
      ensures MarkerId(scene, other) in after
      ensures after[MarkerId(scene, other)] == Marker(scene, other, points[other])
    {
      if other != tag && MarkerId(scene, other) == MarkerId(scene, tag) {
        MarkerIdsDiffer(scene, other, tag);
      }
    }
  }

  /** Another scene's marker sits on the id of the tag. */
  ghost predicate Taken(markers: Markers, scene: string, tag: string) {
    MarkerId(scene, tag) in markers && markers[MarkerId(scene, tag)].scene != scene
  }

  lemma ClashFound(markers: Markers, scene: string, points: Points, tag: string)
    requires tag in points
    ensures Taken(markers, scene, tag) ==> !NoClash(markers, scene, points)
  {
  }

  lemma SameElsewhereInserting(start: Markers, before: Markers, after: Markers, scene: string, points: Points,
                               left: set<string>, tag: string)
    requires SameElsewhere(start, before, scene) && StoredSoFar(before, scene, points, left)
    requires tag in points
    requires after == before || (!Taken(before, scene, tag)
                                 && after == before[MarkerId(scene, tag) := Marker(scene, tag, points[tag])])
    ensures SameElsewhere(start, after, scene)
    ensures Taken(start, scene, tag) <==> Taken(before, scene, tag)
    ensures OldOrNew(map[], after, scene, points)
  {
  }

  ghost predicate AmongFirst(list: seq<Listed>, n: nat, id: string) {
    exists j: nat :: j < n && j < |list| && list[j].id == id
  }

  lemma AmongFirstGrows(list: seq<Listed>, n: nat)
    requires n < |list|
    requires forall i: nat, j: nat :: i < j < |list| ==> list[i].id != list[j].id
    ensures !AmongFirst(list, n, list[n].id)
    ensures forall id: string :: AmongFirst(list, n + 1, id) <==> AmongFirst(list, n, id) || id == list[n].id
  {
  }

  /** What is left of the markers once the first n listed ones are deleted. */
  ghost predicate Remaining(before: Markers, after: Markers, list: seq<Listed>, n: nat) {
    && (forall id: string :: id in after <==> id in before && !AmongFirst(list, n, id))
    && forall id: string :: id in after ==> after[id] == before[id]
  }

  lemma RemainingElsewhere(before: Markers, after: Markers, list: seq<Listed>, n: nat, scene: string)
    requires Lists(list, before, scene) && Remaining(before, after, list, n)
    ensures SameElsewhere(before, after, scene)
    ensures n == |list| ==> forall id: string :: id in after ==> after[id].scene != scene
  {
    forall id: string | id in before && AmongFirst(list, n, id) ensures before[id].scene == scene {
      var j: nat :| j < n && j < |list| && list[j].id == id;
    }
    forall id: string | id in before && before[id].scene == scene ensures AmongFirst(list, |list|, id) {
      var j: nat :| j < |list| && list[j].id == id;
    }
  }

  lemma RemainingOneLess(before: Markers, after: Markers, list: seq<Listed>, n: nat, scene: string)
    requires Lists(list, before, scene) && Remaining(before, after, list, n) && n < |list|
    ensures list[n].id in after && Remaining(before, after - {list[n].id}, list, n + 1)
  {
    AmongFirstGrows(list, n);
  }

  /** The store interface of the calibration service. */
  class CalibrationModel {
    const rest: RestClient

    constructor (rest: RestClient)
      ensures this.rest == rest
    {
      this.rest := rest;
    }

    /** Delete the listed markers one by one; the first failure ends it, and n of them are gone by then. */
    method DeleteListed(list: seq<Listed>, scene: string) returns (ok: bool, ghost n: nat)
      requires Lists(list, rest.markers, scene)
      modifies rest
      ensures rest.processed == old(rest.processed)
      ensures n <= |list| && Remaining(old(rest.markers), rest.markers, list, n)
      ensures old(rest.calls) <= rest.calls <= old(rest.calls) + |list|
      ensures ok ==> n == |list| && rest.calls == old(rest.calls) + |list|
      ensures ok <==> AllAnswered(rest.faults, old(rest.calls), rest.calls)
    {
      ghost var before, from := rest.markers, rest.calls;
      n := 0;
      for i := 0 to |list|
        invariant n == i && rest.processed == old(rest.processed) && rest.calls == from + i
        invariant Remaining(before, rest.markers, list, i) && AllAnswered(rest.faults, from, rest.calls)
      {
        RemainingOneLess(before, rest.markers, list, i, scene);
        ok := rest.DeleteMarker(list[i].id);
        if !rest.faults(rest.calls - 1).Refused? {
          n := i + 1;
        }
        if !ok {
          return;
        }
      }
      ok := true;
    }

    /** Delete the scene's markers; listing them may fail, and so may each deletion. */
    method DeleteMarkersForScene(scene: string) returns (ok: bool)
      modifies rest
      ensures rest.processed == old(rest.processed) && old(rest.calls) < rest.calls
      ensures SameElsewhere(old(rest.markers), rest.markers, scene)
      ensures OldOrNew(old(rest.markers), rest.markers, scene, map[])
      ensures ok ==> forall id: string :: id in rest.markers ==> rest.markers[id].scene != scene
      ensures ok <==> AllAnswered(rest.faults, old(rest.calls), rest.calls)
      ensures rest.calls <= old(rest.calls) + 1 + |OwnIds(old(rest.markers), scene)|
      ensures ok ==> rest.calls == old(rest.calls) + 1 + |OwnIds(old(rest.markers), scene)|
    {
      ghost var before := rest.markers;
      var found := rest.GetMarkers(scene);
      if found.None? {
        return false;
      }
      ghost var n;
      ok, n := DeleteListed(found.value, scene);
      RemainingElsewhere(before, rest.markers, found.value, n, scene);
    }

    /** Update the marker if the scene lists its id, and create it otherwise. */
    method UpdateOrCreate(scene: string, id: string, marker: Marker) returns (ok: bool)
      requires marker.scene == scene
      modifies rest
      ensures rest.calls <= old(rest.calls) + 2 && (ok ==> rest.calls == old(rest.calls) + 2)
      ensures rest.processed == old(rest.processed) && old(rest.calls) < rest.calls
      ensures rest.markers == old(rest.markers) || rest.markers == old(rest.markers)[id := marker]
      ensures ok ==> rest.markers == old(rest.markers)[id := marker]
      ensures var taken := id in old(rest.markers) && old(rest.markers)[id].scene != scene;
              && (taken ==> rest.markers == old(rest.markers))
              && (ok <==> AllAnswered(rest.faults, old(rest.calls), rest.calls)
                          && !taken && scene in old(rest.processed))
    {
      var found := rest.GetMarkers(scene);
      if found.None? {
        return false;
      }
      for i := 0 to |found.value|
        invariant forall j: nat :: j < i ==> found.value[j].id != id
        invariant rest.calls == old(rest.calls) + 1 && rest.markers == old(rest.markers)
        invariant rest.processed == old(rest.processed)
      {
        if found.value[i].id == id {
          ok := rest.UpdateMarker(id, marker);
          return;
        }
      }
      ok := rest.CreateMarker(id, marker);
    }
  }

  /** The calls of a save that goes through: list and delete, two for each point, and the update of the scene. */
  function CallsNeeded(markers: Markers, scene: string, points: Points): nat {
    2 + |OwnIds(markers, scene)| + 2 * |points|
  }

  /** The call number of the update of the scene, the last call of a save that begins at the given one. */
  function LastCall(from: nat, markers: Markers, scene: string, points: Points): nat {
    from + CallsNeeded(markers, scene, points) - 1
  }

  /** A save gets as far as its last call: all before it are answered, and no marker is in the way. */
  ghost predicate GetsToTheEnd(
      faults: nat -> Fault, from: nat, markers: Markers, processed: Processed, scene: string, points: Points)
  {
    && AllAnswered(faults, from, LastCall(from, markers, scene, points))
    && NoClash(markers, scene, points) && scene in processed
  }

  /** The three places where saving raises. */
  datatype SaveError = ClearFailed | PersistFailed(tag: string) | MarkFailed

  datatype Status = Registered | NoMap | MapFileMissing | SaveFailed(error: SaveError) | TooFewTags

  class AprilTagController {
    const model: CalibrationModel
    /** The calibration object of each scene, by its 3d marker positions. */
    var results: map<string, Option<Points>>

    constructor (model: CalibrationModel)
      ensures this.model == model && results == map[]
    {
      this.model, results := model, map[];
    }

    /** Insert every point; the first failure ends it. */
    method InsertAll(scene: string, points: Points) returns (failed: Option<string>)
      requires forall id: string :: id in model.rest.markers ==> model.rest.markers[id].scene != scene
      modifies model.rest
      ensures model.rest.processed == old(model.rest.processed) && old(model.rest.calls) <= model.rest.calls
      ensures SameElsewhere(old(model.rest.markers), model.rest.markers, scene)
      ensures OldOrNew(map[], model.rest.markers, scene, points)
      ensures failed.None? ==> ExactlyStored(model.rest.markers, scene, points)
      ensures failed.None? <==>
                && AllAnswered(model.rest.faults, old(model.rest.calls), model.rest.calls)
                && NoClash(old(model.rest.markers), scene, points)
                && (points != map[] ==> scene in old(model.rest.processed))
      ensures model.rest.calls <= old(model.rest.calls) + 2 * |points|
      ensures failed.None? ==> model.rest.calls == old(model.rest.calls) + 2 * |points|
    {
      ghost var start, from := model.rest.markers, model.rest.calls;
      var left := points.Keys;
      while left != {}
        invariant left <= points.Keys && model.rest.processed == old(model.rest.processed)
        invariant |left| <= |points| && model.rest.calls == from + 2 * (|points| - |left|)
        invariant SameElsewhere(start, model.rest.markers, scene)
        invariant StoredSoFar(model.rest.markers, scene, points, left)
        invariant AllAnswered(model.rest.faults, from, model.rest.calls)
        invariant left == points.Keys || scene in model.rest.processed
        invariant forall tag: string :: tag in points && tag !in left ==> !Taken(start, scene, tag)
        decreases |left|
      {
        var tag: string :| tag in left;
        ghost var before := model.rest.markers;
        var created := model.UpdateOrCreate(scene, MarkerId(scene, tag), Marker(scene, tag, points[tag]));
        SameElsewhereInserting(start, before, model.rest.markers, scene, points, left, tag);
        if !created {
          ClashFound(start, scene, points, tag);
          return Some(tag);
        }
        StoresOneMore(before, model.rest.markers, scene, points, left, tag);
        left := left - {tag};
      }
      failed := None;
    }

    /** Clear, then insert: the scene has exactly the new markers, or what is left is said by the error. */
    method ReplaceMarkers(scene: string, points: Points) returns (failed: Option<SaveError>)
      modifies model.rest
      ensures model.rest.processed == old(model.rest.processed) && old(model.rest.calls) < model.rest.calls
      ensures SameElsewhere(old(model.rest.markers), model.rest.markers, scene)
      ensures failed.None? <==>
                && AllAnswered(model.rest.faults, old(model.rest.calls), model.rest.calls)
                && NoClash(old(model.rest.markers), scene, points)
                && (points != map[] ==> scene in old(model.rest.processed))
      ensures model.rest.calls < old(model.rest.calls) + CallsNeeded(old(model.rest.markers), scene, points)
      ensures failed.None? <==>
                && AllAnswered(model.rest.faults, old(model.rest.calls),
                               LastCall(old(model.rest.calls), old(model.rest.markers), scene, points))
                && NoClash(old(model.rest.markers), scene, points)
                && (points != map[] ==> scene in old(model.rest.processed))
      ensures match failed
              case None =>
                && ExactlyStored(model.rest.markers, scene, points)
                && model.rest.calls + 1
                   == old(model.rest.calls) + CallsNeeded(old(model.rest.markers), scene, points)
              case Some(ClearFailed) =>
                && OldOrNew(old(model.rest.markers), model.rest.markers, scene, map[])
                && !AllAnswered(model.rest.faults, old(model.rest.calls), model.rest.calls)
              case Some(PersistFailed(tag)) => OldOrNew(map[], model.rest.markers, scene, points)
              case Some(MarkFailed) => false
    {
      ghost var start := model.rest.markers;
      var cleared := model.DeleteMarkersForScene(scene);
      if !cleared {
        return Some(ClearFailed);
      }
      ghost var empty := model.rest.markers;
      ClashesStay(start, empty, scene, points);
      var tag := InsertAll(scene, points);
      SameElsewhereChains(start, empty, model.rest.markers, scene);
      failed := if tag.Some? then Some(PersistFailed(tag.value)) else None;
    }

    /**
      * Clear, then insert, then mark the map processed. It succeeds exactly when every call is answered and no marker
      * of another scene is in the way, and then the scene has exactly the new markers. When it raises, the map is
      * not marked processed, unless only the reply to that very last call was lost.
      */
    method SaveToDatabase(scene: string, points: Points, time: string) returns (r: Result<(), SaveError>)
      modifies model.rest
      ensures old(model.rest.calls) < model.rest.calls
      ensures var needed := CallsNeeded(old(model.rest.markers), scene, points);
              if r.Success? || r.error == MarkFailed then model.rest.calls == old(model.rest.calls) + needed
              else model.rest.calls < old(model.rest.calls) + needed
      ensures SameElsewhere(old(model.rest.markers), model.rest.markers, scene)
      ensures var last := LastCall(old(model.rest.calls), old(model.rest.markers), scene, points);
              var ready := GetsToTheEnd(model.rest.faults, old(model.rest.calls), old(model.rest.markers),
                                        old(model.rest.processed), scene, points);
              && (r.Success? <==> ready && model.rest.faults(last).Delivered?)
              && (ready && !model.rest.faults(last).Delivered? ==> r == Failure(MarkFailed))
              && (r == Failure(MarkFailed) ==>
                    model.rest.processed == if ready && model.rest.faults(last).ReplyLost?
                                            then old(model.rest.processed)[scene := Some(time)]
                                            else old(model.rest.processed))
      ensures match r
              case Success(_) =>
                && ExactlyStored(model.rest.markers, scene, points)
                && model.rest.processed == old(model.rest.processed)[scene := Some(time)]
              case Failure(ClearFailed) =>
                && OldOrNew(old(model.rest.markers), model.rest.markers, scene, map[])
                && !AllAnswered(model.rest.faults, old(model.rest.calls), model.rest.calls)
                && model.rest.processed == old(model.rest.processed)
              case Failure(PersistFailed(tag)) =>
                && OldOrNew(map[], model.rest.markers, scene, points)
                && (!AllAnswered(model.rest.faults, old(model.rest.calls), model.rest.calls)
                    || !NoClash(old(model.rest.markers), scene, points) || scene !in old(model.rest.processed))
                && model.rest.processed == old(model.rest.processed)
              case Failure(MarkFailed) => ExactlyStored(model.rest.markers, scene, points)
    {
      var failed := ReplaceMarkers(scene, points);
      if failed.Some? {
        return Failure(failed.value);
      }
      var updated := model.rest.UpdateScene(scene, time);
      if !updated {
        return Failure(MarkFailed);
      }
      r := Success(());
    }

    /** The markers the store lists for the scene, by tag; none when listing fails. */
    method ReadBack(scene: string) returns (points: Points)
      modifies model.rest`calls
      ensures model.rest.calls == old(model.rest.calls) + 1
      ensures !model.rest.faults(old(model.rest.calls)).Delivered? ==> points == map[]
      ensures model.rest.faults(old(model.rest.calls)).Delivered? ==>
                forall stored: Points :: ExactlyStored(model.rest.markers, scene, stored) ==> points == stored
    {
      points := map[];
      var found := model.rest.GetMarkers(scene);
      if found.Some? {
        var list := found.value;
        for i := 0 to |list|
          invariant forall tag: string :: tag in points <==> exists j: nat :: j < i && list[j].marker.tag == tag
          invariant forall tag: string :: tag in points ==>
                      exists j: nat :: j < i && list[j].marker.tag == tag && list[j].marker.dims == points[tag]
        {
          points := points[list[i].marker.tag := list[i].marker.dims];
        }
        forall stored: Points | ExactlyStored(model.rest.markers, scene, stored) ensures points == stored {
          ListedAreStored(list, model.rest.markers, scene, stored, points);
        }
      }
    }

    /** Take over what a scan found, in memory and in the store. */
    method Rescan(scene: string, points: Points, time: string) returns (r: Result<(), SaveError>)
      modifies this, model.rest
      ensures results == old(results)[scene := Some(points)]
      ensures SameElsewhere(old(model.rest.markers), model.rest.markers, scene)
      ensures r.Success? || (r == Failure(MarkFailed) && model.rest.processed != old(model.rest.processed)) ==>
                ExactlyStored(model.rest.markers, scene, points)
      ensures r.Success? ==> model.rest.processed == old(model.rest.processed)[scene := Some(time)]
      ensures r.Failure? && r.error != MarkFailed ==> model.rest.processed == old(model.rest.processed)
    {
      results := results[scene := Some(points)];
      r := SaveToDatabase(scene, points, time);
    }

    /**
      * Register a scene: scan its map when it was never processed or has changed, replace the stored markers by what
      * the scan found, and take the markers from the store.
      */
    method ProcessScene(scene: string, mapProcessed: Option<string>, mapUpdate: bool, hasMap: bool,
                        scan: Option<Points>, time: string) returns (status: Status)
      modifies this, model.rest
      ensures SameElsewhere(old(model.rest.markers), model.rest.markers, scene)
      ensures forall other: string :: other != scene && other in old(results) ==>
                other in results && results[other] == old(results)[other]
      ensures var rescan := mapProcessed.None? || mapUpdate;
              match status
              case NoMap =>
                model.rest.markers == old(model.rest.markers) && model.rest.processed == old(model.rest.processed)
              case MapFileMissing =>
                model.rest.markers == old(model.rest.markers) && model.rest.processed == old(model.rest.processed)
              case SaveFailed(error) =>
                && rescan && scan.Some? && scene in results && results[scene] == scan
                && (model.rest.processed == old(model.rest.processed)
                    || (error == MarkFailed && ExactlyStored(model.rest.markers, scene, scan.value)))
              case _ =>
                && scene in results && results[scene].Some?
                && (status == Registered <==> |results[scene].value| >= MIN_APRILTAG_COUNT)
                && (rescan ==> scan.Some? && ExactlyStored(model.rest.markers, scene, scan.value)
                               && model.rest.processed == old(model.rest.processed)[scene := Some(time)]
                               && (results[scene] == scan || results[scene].value == map[]))
                && (!rescan ==> model.rest.markers == old(model.rest.markers)
                                && model.rest.processed == old(model.rest.processed))
      ensures status == Registered && (mapProcessed.None? || mapUpdate) ==> results[scene] == scan
    {
      if scene !in results || mapUpdate {
        if !hasMap {
          return NoMap;
        }
        results := results[scene := None];
      }
      if mapProcessed.None? || mapUpdate {
        if scan.None? {
          return MapFileMissing;
        }
        var saved := Rescan(scene, scan.value, time);
        if saved.Failure? {
          return SaveFailed(saved.error);
        }
      }
      var points := ReadBack(scene);
      results := results[scene := Some(points)];
      status := if |points| < MIN_APRILTAG_COUNT then TooFewTags else Registered;
    }
  }

  lemma ListedAreStored(list: seq<Listed>, markers: Markers, scene: string, stored: Points, points: Points)
    requires Lists(list, markers, scene) && ExactlyStored(markers, scene, stored)
    requires forall tag: string :: tag in points <==> exists j: nat :: j < |list| && list[j].marker.tag == tag
    requires forall tag: string :: tag in points ==>
               exists j: nat :: j < |list| && list[j].marker.tag == tag && list[j].marker.dims == points[tag]
    ensures points == stored
  {
    forall tag: string ensures tag in points <==> tag in stored {
      if tag in stored {
        var j: nat :| j < |list| && list[j].id == MarkerId(scene, tag);
      }
      if tag in points {
        var j: nat :| j < |list| && list[j].marker.tag == tag;
        assert list[j].id in markers;
      }
    }
    forall tag: string | tag in points ensures points[tag] == stored[tag] {
      var j: nat :| j < |list| && list[j].marker.tag == tag && list[j].marker.dims == points[tag];
      assert list[j].id in markers && list[j].id == MarkerId(scene, tag);
    }
  }

  /** Whatever is in the store: when only the reply to the last call is lost, the save raises although the markers are
      replaced and the map is marked processed. */
  method SaveWithLastReplyLost(markers: Markers, processed: Processed, scene: string, points: Points, time: string)
    returns (rest: RestClient, r: Result<(), SaveError>)
    requires NoClash(markers, scene, points) && scene in processed
    ensures r == Failure(MarkFailed)
    ensures ExactlyStored(rest.markers, scene, points) && rest.processed == processed[scene := Some(time)]
  {
    var last := CallsNeeded(markers, scene, points) - 1;
    rest := new RestClient((k: nat) => if k == last then ReplyLost else Delivered, markers, processed);
    var model := new CalibrationModel(rest);
    var controller := new AprilTagController(model);
    r := controller.SaveToDatabase(scene, points, time);
    assert !rest.faults(last).Delivered?;
  }
}
