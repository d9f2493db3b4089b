/** What each handler of the controller does in each of its cases: which guards
    make it a no-op, what a failed conversion leaves, what a successful pick or
    drop changes, and how the highlight moves. */
module HandlerProperties {
  import opened SceneTypes
  import opened RayCast
  import opened Controller

  /** Touch-start consumes exactly the events it accepts, and changes nothing
      unless it accepts the event, something was hit and the conversion to the
      device frame succeeded. */
  lemma TouchStartGuards(s: State, e: InputEvent, hits: seq<Hit>, toDevice: Option<Pose>)
    requires Valid(s) && IsRayCast(hits, |s.objects|)
    ensures TouchStartStep(s, e, hits, toDevice).prevented <==> StartAccepted(e)
    ensures !StartAccepted(e) || hits == [] || toDevice.None? ==>
      TouchStartStep(s, e, hits, toDevice).state == s
  {
  }

  /** A successful touch-start picks the nearest hit: that box moves to the carried
      group with its entity re-expressed relative to the device, SELECTED names it,
      and no other box changes. */
  lemma TouchStartPicksNearest(s: State, e: InputEvent, hits: seq<Hit>, pose: Pose)
    requires Valid(s) && IsRayCast(hits, |s.objects|)
    requires StartAccepted(e) && hits != []
    ensures var r := TouchStartStep(s, e, hits, Some(pose)).state;
      var k := hits[0].box;
      (forall h :: h in hits ==> hits[0].distance <= h.distance) &&
      r.selected == Some(k) &&
      r.objects[k] == s.objects[k].(parent := UserLocation, entity := Entity(DeviceFrame, pose)) &&
      (forall j :: 0 <= j < |s.objects| && j != k ==> r.objects[j] == s.objects[j])
  {
  }

  /** Selection is not exclusive: a pick while a box is held overwrites SELECTED,
      and the box held before stays in the carried group. */
  lemma PickWhileHoldingReplacesSelection(s: State, e: InputEvent, hits: seq<Hit>, pose: Pose, held: nat)
    requires Valid(s) && IsRayCast(hits, |s.objects|)
    requires StartAccepted(e) && hits != [] && s.selected == Some(held) && hits[0].box != held
    ensures var r := TouchStartStep(s, e, hits, Some(pose)).state;
      r.selected == Some(hits[0].box) && r.objects[held] == s.objects[held] &&
      r.objects[held].parent == UserLocation
  {
  }

  /** Touch-end consumes exactly the events it accepts, whether or not they were
      consumed before, and changes nothing unless it accepts the event, a box is
      held and the conversion to the box-group frame succeeded. */
  lemma TouchEndGuards(s: State, e: InputEvent, toBoxScene: Option<Pose>)
    requires Valid(s)
    ensures TouchEndStep(s, e, toBoxScene).prevented <==> EndAccepted(e)
    ensures TouchEndStep(s, e.(defaultPrevented := !e.defaultPrevented), toBoxScene) == TouchEndStep(s, e, toBoxScene)
    ensures !EndAccepted(e) || s.selected.None? || toBoxScene.None? ==>
      TouchEndStep(s, e, toBoxScene).state == s
  {
  }

  /** A release whose conversion fails keeps the box held, so a later release
      behaves exactly as if the failed one had not happened. */
  lemma TouchEndRetry(s: State, failed: InputEvent, e: InputEvent, toBoxScene: Option<Pose>)
    requires Valid(s)
    ensures var kept := TouchEndStep(s, failed, None).state;
      kept.selected == s.selected && kept.objects == s.objects &&
      TouchEndStep(kept, e, toBoxScene) == TouchEndStep(s, e, toBoxScene)
  {
  }

  /** A successful touch-end puts the held box back into the world group at the
      converted pose, which is also its entity's value in the box-group frame, and
      clears SELECTED; no other box changes. */
  lemma TouchEndDrops(s: State, e: InputEvent, pose: Pose, k: nat)
    requires Valid(s) && EndAccepted(e) && s.selected == Some(k)
    ensures var r := TouchEndStep(s, e, Some(pose)).state;
      r.selected == None &&
      r.objects[k] == s.objects[k].(parent := BoxScene, transform := pose, entity := Entity(BoxSceneFrame, pose)) &&
      (forall j :: 0 <= j < |s.objects| && j != k ==> r.objects[j] == s.objects[j])
  {
  }

  /** Picking a box while nothing is held and then dropping it returns the
      controller to IDLE with that box in the world group at the drop pose and
      every other box as it was. */
  lemma PickThenDrop(s: State, start: InputEvent, hits: seq<Hit>, toDevice: Pose, end: InputEvent, toBoxScene: Pose)
    requires Valid(s) && IsRayCast(hits, |s.objects|) && s.selected == None
    requires StartAccepted(start) && hits != [] && EndAccepted(end)
    ensures var k := hits[0].box;
      var held := TouchStartStep(s, start, hits, Some(toDevice)).state;
      var r := TouchEndStep(held, end, Some(toBoxScene)).state;
      r.selected == None &&
      r.objects[k] == s.objects[k].(parent := BoxScene, transform := toBoxScene, entity := Entity(BoxSceneFrame, toBoxScene)) &&
      (forall j :: 0 <= j < |s.objects| && j != k ==> r.objects[j] == s.objects[j]) &&
      r == s.(objects := r.objects)
  {
  }

  /** Two picks of different boxes and one release leave the first box stranded in
      the carried group with nothing selected. */
  lemma SecondPickStrandsFirst(s: State, a: nat, b: nat, p: Pose, q: Pose, d: Pose)
    requires Valid(s) && s.selected == None && a < |s.objects| && b < |s.objects| && a != b
    ensures var tap := Touch(false);
      var first := TouchStartStep(s, tap, [Hit(a, 1.0)], Some(p)).state;
      var second := TouchStartStep(first, tap, [Hit(b, 1.0)], Some(q)).state;
      var r := TouchEndStep(second, tap, Some(d)).state;
      r.selected == None && r.objects[a].parent == UserLocation && r.objects[b].parent == BoxScene
  {
  }

  /** While a box is held, handleDeviceMove changes nothing. */
  lemma DeviceMoveWhileHolding(s: State, hits: seq<Hit>)
    requires Valid(s) && IsRayCast(hits, |s.objects|) && s.selected.Some?
    ensures DeviceMoveStep(s, hits) == s
  {
  }

  /** Pointing at the box already highlighted changes nothing. */
  lemma DeviceMoveSameTarget(s: State, hits: seq<Hit>)
    requires Valid(s) && IsRayCast(hits, |s.objects|) && hits != [] && s.intersected == Some(hits[0].box)
    ensures DeviceMoveStep(s, hits) == s
  {
  }

  /** Pointing at a new box restores every other box to its own colour, stashes the
      new box's colour and paints it with the highlight colour. */
  lemma DeviceMoveNewTarget(s: State, hits: seq<Hit>)
    requires Valid(s) && IsRayCast(hits, |s.objects|) && s.selected == None
    requires hits != [] && s.intersected != Some(hits[0].box)
    ensures var r := DeviceMoveStep(s, hits);
      var k := hits[0].box;
      r.intersected == Some(k) && r.objects[k].colour == HIGHLIGHT &&
      r.objects[k].currentHex == UnhighlightedColour(s, k) &&
      (forall j :: 0 <= j < |s.objects| && j != k ==> r.objects[j].colour == UnhighlightedColour(s, j))
  {
  }

  /** Pointing at nothing clears the highlight: every box shows its own colour. */
  lemma DeviceMoveNoHit(s: State)
    requires Valid(s) && s.selected == None
    ensures var r := DeviceMoveStep(s, []);
      r.intersected == None &&
      forall k :: 0 <= k < |s.objects| ==> r.objects[k].colour == UnhighlightedColour(s, k)
  {
  }

  /** Running handleDeviceMove twice on the same hits is the same as running it once. */
  lemma DeviceMoveIdempotent(s: State, hits: seq<Hit>)
    requires Valid(s) && IsRayCast(hits, |s.objects|)
    ensures var once := DeviceMoveStep(s, hits);
      DeviceMoveStep(once, hits) == once
  {
  }

  /** While boxInit is unset, a tick whose conversion to FIXED fails leaves it unset
      and the world group where it was, with `boxSceneEntity` holding the user pose
      in the default frame for the next attempt; one that succeeds anchors the
      entity in FIXED and moves the world group to its local pose. */
  lemma UpdateInitAttempt(s: State, t: Tick)
    requires Valid(s) && IsRayCast(t.hits, |s.objects|) && !s.boxInit && IsKnown(t.status)
    ensures var r := UpdateStep(s, t);
      if t.toFixed.None? then
        !r.boxInit && r.boxScenePose == s.boxScenePose && r.boxSceneEntity == Entity(DefaultFrame, t.userPose)
      else
        r.boxInit && r.boxScenePose == t.boxSceneLocal && r.boxSceneEntity == Entity(Fixed, t.toFixed.value)
  {
  }

  /** Once boxInit is set, every tick with a known pose re-copies the world group's
      local pose and leaves `boxSceneEntity` alone. */
  lemma UpdateAfterInit(s: State, t: Tick)
    requires Valid(s) && IsRayCast(t.hits, |s.objects|) && s.boxInit && IsKnown(t.status)
    ensures var r := UpdateStep(s, t);
      r.boxInit && r.boxScenePose == t.boxSceneLocal && r.boxSceneEntity == s.boxSceneEntity
  {
  }

  /** Every tick with a known pose moves the carried group to the user position, and
      the held box, if any, to its entity's local pose. */
  lemma UpdateCarries(s: State, t: Tick, k: nat)
    requires Valid(s) && IsRayCast(t.hits, |s.objects|) && IsKnown(t.status)
    ensures var r := UpdateStep(s, t);
      r.userPosition == t.userPose.position &&
      (s.selected == Some(k) ==> r.objects[k].transform == t.heldPose)
  {
  }

  /** Every tick with a known pose runs handleDeviceMove on its hits: with nothing
      held, INTERSECTED becomes the nearest hit (or none) and that box alone is
      painted with the highlight colour; with a box held, INTERSECTED and every
      colour stay as they were. */
  lemma UpdateHighlights(s: State, t: Tick)
    requires Valid(s) && IsRayCast(t.hits, |s.objects|) && IsKnown(t.status)
    ensures var r := UpdateStep(s, t);
      if s.selected.None? then
        r.intersected == (if t.hits == [] then None else Some(t.hits[0].box)) &&
        (forall k :: 0 <= k < |s.objects| ==>
          r.objects[k].colour == if r.intersected == Some(k) then HIGHLIGHT else UnhighlightedColour(s, k))
      else
        r.intersected == s.intersected &&
        (forall k :: 0 <= k < |s.objects| ==> r.objects[k].colour == s.objects[k].colour)
  {
  }

  /** A stranded box is not lost: a later pick whose nearest hit is that box selects
      it again, and a release then returns it to the world group. */
  lemma StrandedBoxCanBeRepicked(s: State, a: nat, p: Pose, d: Pose)
    requires Valid(s) && s.selected == None && a < |s.objects| && s.objects[a].parent == UserLocation
    ensures var tap := Touch(false);
      var picked := TouchStartStep(s, tap, [Hit(a, 1.0)], Some(p)).state;
      var r := TouchEndStep(picked, tap, Some(d)).state;
      picked.selected == Some(a) && r.selected == None && r.objects[a].parent == BoxScene
  {
  }
}
