/** The module-level state of app.ts and its handlers, written as the source
    writes them: step by step, reparenting with THREE's remove/add, converting
    entities in place, and reassigning SELECTED, INTERSECTED and boxInit. Each
    handler is proved to leave the state its step function in Controller
    describes. */
module DraggableCubes {
  import opened SceneTypes
  import opened RayCast
  import opened Controller

  class App {
    /** `objects`: the fixed array of boxes. */
    const objects: array<Box>
    /** SELECTED: the held box. */
    var selected: Option<nat>
    /** INTERSECTED: the highlighted box. */
    var intersected: Option<nat>
    var boxInit: bool
    var boxSceneEntity: Entity
    /** The position and quaternion of the world group `boxScene`. */
    var boxScenePose: Pose
    /** The position of the carried group `userLocation`. */
    var userPosition: Position

    /** The state the handlers share, as a value. */
    function Snapshot(): State
      reads this, objects
    {
      State(objects[..], selected, intersected, boxInit, boxSceneEntity, boxScenePose, userPosition)
    }

    ghost predicate Valid()
      reads this, objects
    {
      Controller.Valid(Snapshot())
    }

    /** The spawn loop: box i is added to `boxScene` at placements[i] with colour
        colours[i], and its entity is set to that placement in the box-group frame. */
    constructor (placements: seq<Pose>, colours: seq<Hex>)
      requires |placements| == |colours|
      ensures Valid() && Snapshot() == Init(placements, colours)
    {
      var boxes := new Box[|placements|];
      for i := 0 to |placements|
        invariant forall k :: 0 <= k < i ==>
          boxes[k] == Box(BoxScene, placements[k], colours[k], 0, Entity(BoxSceneFrame, placements[k]))
      {
        boxes[i] := Box(BoxScene, placements[i], colours[i], 0, Entity(BoxSceneFrame, placements[i]));
      }
      objects := boxes;
      selected, intersected, boxInit := None, None, false;
      boxSceneEntity, boxScenePose, userPosition := Entity(Fixed, ORIGIN), ORIGIN, ORIGIN.position;
      new;
      assert objects[..] == Init(placements, colours).objects;
    }

    /** THREE's `group.remove(object)`: box k loses its parent if that is `group`. */
    method Remove(group: Group, k: nat)
      requires k < objects.Length
      modifies objects
      ensures objects[..] == old(objects[..])[k := if old(objects[k].parent) == group then old(objects[k]).(parent := Detached) else old(objects[k])]
    {
      if objects[k].parent == group {
        objects[k] := objects[k].(parent := Detached);
      }
    }

    /** THREE's `group.add(object)`: box k leaves whatever parent it has and becomes
        a child of `group`. */
    method Add(group: Group, k: nat)
      requires k < objects.Length && group != Detached
      modifies objects
      ensures objects[..] == old(objects[..])[k := old(objects[k]).(parent := group)]
    {
      objects[k] := objects[k].(parent := group);
    }

    /** Argon.convertEntityReferenceFrame on box k's entity, whose outcome is
        `converted`: on success the entity holds the converted value in `target`,
        on failure it is untouched. */
    method ConvertEntity(k: nat, converted: Option<Pose>, target: Frame) returns (ok: bool)
      requires k < objects.Length
      modifies objects
      ensures ok == converted.Some?
      ensures objects[..] == if ok then old(objects[..])[k := old(objects[k]).(entity := Entity(target, converted.value))] else old(objects[..])
    {
      ok := converted.Some?;
      if ok {
        objects[k] := objects[k].(entity := Entity(target, converted.value));
      }
    }

    /** onDocumentTouchStart; returns whether it called preventDefault. */
    method OnDocumentTouchStart(event: InputEvent, intersects: seq<Hit>, toDevice: Option<Pose>) returns (prevented: bool)
      requires Valid() && IsRayCast(intersects, objects.Length)
      modifies this, objects
      ensures Valid()
      ensures Handled(Snapshot(), prevented) == TouchStartStep(old(Snapshot()), event, intersects, toDevice)
    {
      if event.defaultPrevented {
        return false;
      }
      match event {
        case Touch(_) =>
        case Keyboard(_, key) =>
          if key != " " {
            return false;
          }
        case OtherEvent(_) =>
          return false;
      }
      prevented := true;
      if |intersects| > 0 {
        var k := intersects[0].box;
        var ok := ConvertEntity(k, toDevice, DeviceFrame);
        if !ok {
          return;
        }
        Remove(BoxScene, k);
        Add(UserLocation, k);
        selected := Some(k);
      }
    }

    /** onDocumentTouchEnd; returns whether it called preventDefault. The pose the
        box takes is its entity's pose relative to `boxSceneEntity`, which after
        the conversion is the converted value itself. */
    method OnDocumentTouchEnd(event: InputEvent, toBoxScene: Option<Pose>) returns (prevented: bool)
      requires Valid()
      modifies this, objects
      ensures Valid()
      ensures Handled(Snapshot(), prevented) == TouchEndStep(old(Snapshot()), event, toBoxScene)
    {
      match event {
        case Touch(_) =>
        case Keyboard(_, key) =>
          if key != " " {
            return false;
          }
        case OtherEvent(_) =>
          return false;
      }
      prevented := true;
      if selected.Some? {
        var k := selected.value;
        var ok := ConvertEntity(k, toBoxScene, BoxSceneFrame);
        if !ok {
          return;
        }
        var boxPose := objects[k].entity.value;
        objects[k] := objects[k].(transform := boxPose);
        Remove(UserLocation, k);
        Add(BoxScene, k);
        selected := None;
      }
    }

    /** handleDeviceMove. */
    method HandleDeviceMove(intersects: seq<Hit>)
      requires Valid() && IsRayCast(intersects, objects.Length)
      modifies this, objects
      ensures Valid()
      ensures Snapshot() == DeviceMoveStep(old(Snapshot()), intersects)
    {
      if selected.Some? {
        return;
      }
      if |intersects| > 0 {
        var k := intersects[0].box;
        if intersected != Some(k) {
          if intersected.Some? {
            var j := intersected.value;
            objects[j] := objects[j].(colour := objects[j].currentHex);
          }
          intersected := Some(k);
          objects[k] := objects[k].(currentHex := objects[k].colour);
          objects[k] := objects[k].(colour := HIGHLIGHT);
        }
      } else {
        if intersected.Some? {
          var j := intersected.value;
          objects[j] := objects[j].(colour := objects[j].currentHex);
        }
        intersected := None;
      }
    }

    /** The updateEvent listener. */
    method OnUpdate(frame: Tick)
      requires Valid() && IsRayCast(frame.hits, objects.Length)
      modifies this, objects
      ensures Valid()
      ensures Snapshot() == UpdateStep(old(Snapshot()), frame)
    {
      if !IsKnown(frame.status) {
        return;
      }
      userPosition := frame.userPose.position;
      if !boxInit {
        boxSceneEntity := Entity(DefaultFrame, frame.userPose);
        if frame.toFixed.Some? {
          boxSceneEntity := Entity(Fixed, frame.toFixed.value);
          boxScenePose := frame.boxSceneLocal;
          boxInit := true;
        }
      } else {
        boxScenePose := frame.boxSceneLocal;
      }
      assert Snapshot() == AnchorStep(old(Snapshot()).(userPosition := frame.userPose.position), frame);
      HandleDeviceMove(frame.hits);
      if selected.Some? {
        var k := selected.value;
        objects[k] := objects[k].(transform := frame.heldPose);
      }
    }

    /** The localOriginChangeEvent listener. */
    method OnLocalOriginChange(boxSceneLocal: Pose)
      requires Valid()
      modifies this
      ensures Valid()
      ensures Snapshot() == OriginChangeStep(old(Snapshot()), boxSceneLocal)
    {
      if boxInit {
        boxScenePose := boxSceneLocal;
      }
    }
  }
}
