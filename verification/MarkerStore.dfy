/** The calibration markers behind the REST interface, where every call may fail. */
module MarkerStore {
  import opened Wrappers

  type Dims = seq<real>

  datatype Marker = Marker(scene: string, tag: string, dims: Dims)

  type Markers = map<string, Marker>

  /** When each known scene's map was last processed, if ever. */
  type Processed = map<string, Option<string>>

  /** How one call goes: answered, refused without effect, or carried out with the reply lost. */
  datatype Fault = Delivered | Refused | ReplyLost

  datatype Listed = Listed(id: string, marker: Marker)

  function MarkerId(scene: string, tag: string): string {
    scene + "_" + tag
  }

  /** Within a scene different tags get different ids. */
  lemma MarkerIdsDiffer(scene: string, a: string, b: string)
    requires MarkerId(scene, a) == MarkerId(scene, b)
    ensures a == b
  {
    assert MarkerId(scene, a)[|scene| + 1..] == a;
    assert MarkerId(scene, b)[|scene| + 1..] == b;
  }

  /** The ids of the scene's markers. */
  function OwnIds(markers: Markers, scene: string): set<string> {
    set id | id in markers && markers[id].scene == scene
  }

  ghost predicate Lists(found: seq<Listed>, markers: Markers, scene: string) {
    && (forall i: nat :: i < |found| ==>
          found[i].id in markers && markers[found[i].id] == found[i].marker && found[i].marker.scene == scene)
    && (forall i: nat, j: nat :: i < j < |found| ==> found[i].id != found[j].id)
    && forall id: string :: id in markers && markers[id].scene == scene ==>
         exists i: nat :: i < |found| && found[i].id == id
  }

  ghost predicate SameElsewhere(before: Markers, after: Markers, scene: string) {
    && (forall id: string :: id in before && before[id].scene != scene ==> id in after && after[id] == before[id])
    && forall id: string :: id in after && after[id].scene != scene ==> id in before && before[id] == after[id]
  }

  /** The scene's markers are exactly those of the detected points. */
  ghost predicate ExactlyStored(markers: Markers, scene: string, points: map<string, Dims>) {
    && (forall tag: string :: tag in points ==>
          MarkerId(scene, tag) in markers && markers[MarkerId(scene, tag)] == Marker(scene, tag, points[tag]))
    && forall id: string :: id in markers && markers[id].scene == scene ==>
         markers[id].tag in points && id == MarkerId(scene, markers[id].tag)
  }

  /** No marker of another scene sits on an id that the points need. */
  ghost predicate NoClash(markers: Markers, scene: string, points: map<string, Dims>) {
    forall tag: string :: tag in points && MarkerId(scene, tag) in markers ==>
      markers[MarkerId(scene, tag)].scene == scene
  }

  class RestClient {
    const faults: nat -> Fault
    var calls: nat
    var markers: Markers
    var processed: Processed

    constructor (faults: nat -> Fault, markers: Markers, processed: Processed)
      ensures this.faults == faults && calls == 0 && this.markers == markers && this.processed == processed
    {
      this.faults, calls, this.markers, this.processed := faults, 0, markers, processed;
    }

    method GetMarkers(scene: string) returns (found: Option<seq<Listed>>)
      modifies this`calls
      ensures calls == old(calls) + 1
      ensures found.Some? <==> faults(old(calls)).Delivered?
      ensures found.Some? ==> Lists(found.value, markers, scene) && |found.value| == |OwnIds(markers, scene)|
    {
      var fault := faults(calls);
      calls := calls + 1;
      if !fault.Delivered? {
        return None;
      }
      var list: seq<Listed> := [];
      var rest := OwnIds(markers, scene);
      while rest != {}
        invariant |list| + |rest| == |OwnIds(markers, scene)|
        invariant forall id: string :: id in rest ==> id in markers && markers[id].scene == scene
        invariant forall i: nat :: i < |list| ==>
                    list[i].id in markers && list[i].id !in rest && markers[list[i].id] == list[i].marker
                    && list[i].marker.scene == scene
        invariant forall i: nat, j: nat :: i < j < |list| ==> list[i].id != list[j].id
        invariant forall id: string :: id in markers && markers[id].scene == scene && id !in rest ==>
                    exists i: nat :: i < |list| && list[i].id == id
        decreases |rest|
      {
        var id: string :| id in rest;
        ghost var before := list;
        list, rest := list + [Listed(id, markers[id])], rest - {id};
        assert list[|before|].id == id;
        assert forall i: nat :: i < |before| ==> list[i] == before[i];
      }
      found := Some(list);
    }

    method DeleteMarker(id: string) returns (ok: bool)
      modifies this`calls, this`markers
      ensures calls == old(calls) + 1
      ensures ok <==> faults(old(calls)).Delivered? && id in old(markers)
      ensures markers == if faults(old(calls)).Refused? then old(markers) else old(markers) - {id}
    {
      var fault := faults(calls);
      calls := calls + 1;
      ok := fault.Delivered? && id in markers;
      if !fault.Refused? {
        markers := markers - {id};
      }
    }

    /** Creating on an id already taken, or for an unknown scene, is refused. */
    method CreateMarker(id: string, marker: Marker) returns (ok: bool)
      modifies this`calls, this`markers
      ensures calls == old(calls) + 1
      ensures var possible := id !in old(markers) && marker.scene in processed;
              && (ok <==> faults(old(calls)).Delivered? && possible)
              && markers == if faults(old(calls)).Refused? || !possible then old(markers)
                            else old(markers)[id := marker]
    {
      var fault := faults(calls);
      var possible := id !in markers && marker.scene in processed;
      calls := calls + 1;
      ok := fault.Delivered? && possible;
      if !fault.Refused? && possible {
        markers := markers[id := marker];
      }
    }

    method UpdateMarker(id: string, marker: Marker) returns (ok: bool)
      modifies this`calls, this`markers
      ensures calls == old(calls) + 1
      ensures var possible := id in old(markers) && marker.scene in processed;
              && (ok <==> faults(old(calls)).Delivered? && possible)
              && markers == if faults(old(calls)).Refused? || !possible then old(markers)
                            else old(markers)[id := marker]
    {
      var fault := faults(calls);
      var possible := id in markers && marker.scene in processed;
      calls := calls + 1;
      ok := fault.Delivered? && possible;
      if !fault.Refused? && possible {
        markers := markers[id := marker];
      }
    }

    method UpdateScene(scene: string, time: string) returns (ok: bool)
      modifies this`calls, this`processed
      ensures calls == old(calls) + 1
      ensures ok <==> faults(old(calls)).Delivered? && scene in old(processed)
      ensures processed == if faults(old(calls)).Refused? || scene !in old(processed) then old(processed)
                           else old(processed)[scene := Some(time)]
    {
      var fault := faults(calls);
      calls := calls + 1;
      ok := fault.Delivered? && scene in processed;
      if !fault.Refused? && scene in processed {
        processed := processed[scene := Some(time)];
      }
    }
  }
}
