/** The pick/drag/highlight controller of app.ts as a pure state machine: the
    module-level state the handlers share, and one step function per handler.
    The class in DraggableCubes implements each handler imperatively and is
    proved to agree with the step function here. */
module Controller {
  import opened SceneTypes
  import opened RayCast

  /** Everything the handlers read or write: the boxes of `objects`, the globals
      SELECTED, INTERSECTED and boxInit, the box-group entity `boxSceneEntity`,
      the transform of the world group `boxScene`, and the position of the
      carried group `userLocation`. */
  datatype State = State(
    objects: seq<Box>,
    selected: Option<nat>,
    intersected: Option<nat>,
    boxInit: bool,
    boxSceneEntity: Entity,
    boxScenePose: Pose,
    userPosition: Position)

  /** What an input-event handler leaves behind: the new state, and whether it
      called preventDefault on the event. */
  datatype Handled = Handled(state: State, prevented: bool)

  /** Every box has a parent, and it is one of the two groups. */
  predicate Partitioned(objects: seq<Box>) {
    forall k :: 0 <= k < |objects| ==> objects[k].parent == BoxScene || objects[k].parent == UserLocation
  }

  /** A box resting in the world group sits where its entity says, in the box-group
      frame; a carried box's entity is expressed relative to the device. */
  predicate Anchored(objects: seq<Box>) {
    forall k :: 0 <= k < |objects| ==>
      (objects[k].parent == BoxScene ==> objects[k].entity == Entity(BoxSceneFrame, objects[k].transform)) &&
      (objects[k].parent == UserLocation ==> objects[k].entity.frame == DeviceFrame)
  }

  /** The invariant every handler keeps between events. */
  predicate Valid(s: State) {
    Partitioned(s.objects) && Anchored(s.objects) &&
    (s.selected.Some? ==> s.selected.value < |s.objects| && s.objects[s.selected.value].parent == UserLocation) &&
    (s.intersected.Some? ==> s.intersected.value < |s.objects| && s.objects[s.intersected.value].colour == HIGHLIGHT) &&
    (s.boxInit ==> s.boxSceneEntity.frame == Fixed)
  }

  /** The colour box k shows when it is not highlighted: its material colour, or
      the stashed `currentHex` while it is the highlighted one. */
  function UnhighlightedColour(s: State, k: nat): Hex
    requires k < |s.objects|
  {
    if s.intersected == Some(k) then s.objects[k].currentHex else s.objects[k].colour
  }

  /** The state after the spawn loop: every box a child of `boxScene` at its given
      placement, its entity holding that placement in the box-group frame, and the
      three globals unset. `currentHex` is undefined in the source until the first
      highlight; the model starts it at 0. */
  function Init(placements: seq<Pose>, colours: seq<Hex>): (s: State)
    requires |placements| == |colours|
    ensures Valid(s) && |s.objects| == |placements|
    ensures s.selected == None && s.intersected == None && !s.boxInit
    ensures forall k :: 0 <= k < |s.objects| ==>
      s.objects[k].parent == BoxScene && s.objects[k].transform == placements[k] &&
      UnhighlightedColour(s, k) == colours[k]
  {
    var boxes := seq(|placements|, k requires 0 <= k < |placements| =>
      Box(BoxScene, placements[k], colours[k], 0, Entity(BoxSceneFrame, placements[k])));
    State(boxes, None, None, false, Entity(Fixed, ORIGIN), ORIGIN, ORIGIN.position)
  }

  /** The guard of onDocumentTouchStart: an event nobody consumed yet, and a touch
      or the space key. */
  predicate StartAccepted(e: InputEvent) {
    !e.defaultPrevented && (e.Touch? || (e.Keyboard? && e.key == " "))
  }

  /** The guard of onDocumentTouchEnd: a touch or the space key, consumed or not. */
  predicate EndAccepted(e: InputEvent) {
    e.Touch? || (e.Keyboard? && e.key == " ")
  }

  /** onDocumentTouchStart. `toDevice` is the outcome of converting the nearest
      box's entity to the device frame: None when the conversion fails, otherwise
      the entity's new value. Only the boxes and SELECTED can change. */
  function TouchStartStep(s: State, e: InputEvent, hits: seq<Hit>, toDevice: Option<Pose>): (r: Handled)
    requires Valid(s) && IsRayCast(hits, |s.objects|)
    ensures Valid(r.state) && |r.state.objects| == |s.objects|
    ensures r.state == s.(objects := r.state.objects, selected := r.state.selected)
  {
    if !StartAccepted(e) then Handled(s, false)
    else match Nearest(hits, |s.objects|)
      case None => Handled(s, true)
      case Some(hit) =>
        match toDevice
        case None => Handled(s, true)
        case Some(pose) =>
          var k := hit.box;
          var picked := s.objects[k].(parent := UserLocation, entity := Entity(DeviceFrame, pose));
          Handled(s.(objects := s.objects[k := picked], selected := Some(k)), true)
  }

  /** onDocumentTouchEnd. `toBoxScene` is the outcome of converting the held box's
      entity to the box-group frame. On success the box takes the converted pose,
      which is its pose relative to `boxSceneEntity`. Only the boxes and SELECTED
      can change. */
  function TouchEndStep(s: State, e: InputEvent, toBoxScene: Option<Pose>): (r: Handled)
    requires Valid(s)
    ensures Valid(r.state) && |r.state.objects| == |s.objects|
    ensures r.state == s.(objects := r.state.objects, selected := r.state.selected)
  {
    if !EndAccepted(e) then Handled(s, false)
    else match s.selected
      case None => Handled(s, true)
      case Some(k) =>
        match toBoxScene
        case None => Handled(s, true)
        case Some(pose) =>
          var dropped := s.objects[k].(parent := BoxScene, transform := pose, entity := Entity(BoxSceneFrame, pose));
          Handled(s.(objects := s.objects[k := dropped], selected := None), true)
  }

  /** Paint the highlighted box, if any, with its stashed colour again. */
  function Restore(objects: seq<Box>, highlighted: Option<nat>): (r: seq<Box>)
    requires highlighted.Some? ==> highlighted.value < |objects|
  {
    match highlighted
    case None => objects
    case Some(j) => objects[j := objects[j].(colour := objects[j].currentHex)]
  }

  /** Two records of the same box that differ at most in their colours. */
  predicate SameButColour(a: Box, b: Box) {
    a.(colour := b.colour, currentHex := b.currentHex) == b
  }

  /** handleDeviceMove: move the highlight to the nearest hit. It changes only
      colours and INTERSECTED, and never the colour any box shows when it is not
      highlighted. */
  function DeviceMoveStep(s: State, hits: seq<Hit>): (r: State)
    requires Valid(s) && IsRayCast(hits, |s.objects|)
    ensures Valid(r) && |r.objects| == |s.objects|
    ensures r == s.(objects := r.objects, intersected := r.intersected)
    ensures forall k :: 0 <= k < |s.objects| ==>
      SameButColour(s.objects[k], r.objects[k]) && UnhighlightedColour(r, k) == UnhighlightedColour(s, k)
  {
    if s.selected.Some? then s
    else match Nearest(hits, |s.objects|)
      case Some(hit) =>
        if s.intersected == Some(hit.box) then s
        else
          var k := hit.box;
          var restored := Restore(s.objects, s.intersected);
          var lit := restored[k].(currentHex := restored[k].colour, colour := HIGHLIGHT);
          s.(objects := restored[k := lit], intersected := Some(k))
      case None =>
        s.(objects := Restore(s.objects, s.intersected), intersected := None)
  }

  /** What one tick of the update listener is given by Argon and THREE: the status
      and pose of the user, the outcome of converting `boxSceneEntity` to FIXED,
      the local pose of `boxSceneEntity`, the ray-cast hits, and the local pose of
      the held box's entity. */
  datatype Tick = Tick(
    status: PoseStatus,
    userPose: Pose,
    toFixed: Option<Pose>,
    boxSceneLocal: Pose,
    hits: seq<Hit>,
    heldPose: Pose)

  /** The box-group part of a tick whose user pose is known: until boxInit, place
      `boxSceneEntity` at the user pose in the default frame and try to convert it
      to FIXED; once boxInit, re-copy the group's local pose. */
  function AnchorStep(s: State, t: Tick): (r: State)
    requires Valid(s)
    ensures Valid(r)
    ensures r.objects == s.objects && r.selected == s.selected && r.intersected == s.intersected
    ensures r.boxInit == (s.boxInit || t.toFixed.Some?)
  {
    if !s.boxInit then
      match t.toFixed
      case Some(fixed) =>
        s.(boxSceneEntity := Entity(Fixed, fixed), boxScenePose := t.boxSceneLocal, boxInit := true)
      case None =>
        s.(boxSceneEntity := Entity(DefaultFrame, t.userPose))
    else
      s.(boxScenePose := t.boxSceneLocal)
  }

  /** The update listener: nothing happens on a tick whose user pose is not known;
      otherwise the carried group follows the user, the box group is anchored or
      refreshed, the highlight is updated, and the held box takes its entity's
      local pose. Group membership and SELECTED never change here. */
  function UpdateStep(s: State, t: Tick): (r: State)
    requires Valid(s) && IsRayCast(t.hits, |s.objects|)
    ensures Valid(r) && |r.objects| == |s.objects|
    ensures !IsKnown(t.status) ==> r == s
    ensures r.boxInit == (s.boxInit || (IsKnown(t.status) && t.toFixed.Some?))
    ensures s.boxInit ==> r.boxSceneEntity == s.boxSceneEntity
    ensures r.selected == s.selected
    ensures forall k :: 0 <= k < |s.objects| ==> r.objects[k].parent == s.objects[k].parent
    ensures IsKnown(t.status) ==> r.userPosition == t.userPose.position
    ensures IsKnown(t.status) ==> forall k :: 0 <= k < |s.objects| ==>
      r.objects[k].(colour := s.objects[k].colour, currentHex := s.objects[k].currentHex) ==
      s.objects[k].(transform := if s.selected == Some(k) then t.heldPose else s.objects[k].transform)
  {
    if !IsKnown(t.status) then s
    else
      var located := s.(userPosition := t.userPose.position);
      var anchored := AnchorStep(located, t);
      var lit := DeviceMoveStep(anchored, t.hits);
      match lit.selected
      case None => lit
      case Some(k) => lit.(objects := lit.objects[k := lit.objects[k].(transform := t.heldPose)])
  }

  /** The localOriginChangeEvent listener: once boxInit, the world group takes the
      new local pose of `boxSceneEntity`; no box changes, carried or not. */
  function OriginChangeStep(s: State, boxSceneLocal: Pose): (r: State)
    requires Valid(s)
    ensures Valid(r)
    ensures r.objects == s.objects && r.(boxScenePose := s.boxScenePose) == s
    ensures s.boxInit ==> r.boxScenePose == boxSceneLocal
    ensures !s.boxInit ==> r == s
  {
    if s.boxInit then s.(boxScenePose := boxSceneLocal) else s
  }
}
