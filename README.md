# Draggable cubes: the pick/drag/highlight controller

This project models the controller of the draggable-cubes demo (`code/draggablecubes/app.ts`), an
augmented-reality page that places fifty boxes around the user. The user picks up the box at the
view centre with a touch or the space key, carries it with the device, and drops it back into the
world. The controller is a small state machine spread over several handlers:

- `onDocumentTouchStart` picks the nearest box hit by the ray from the view centre. It converts
  the box's Argon entity to the device frame and moves the box from the world group `boxScene` to
  the carried group `userLocation`.
- `onDocumentTouchEnd` converts the held box's entity back to the box-group frame, copies that
  pose onto the box and returns it to `boxScene`.
- `handleDeviceMove` moves a highlight colour (0xffff33) to the nearest hit. It restores the
  previously highlighted box from its stashed colour `currentHex`.
- The update listener runs once per tick. It skips the tick unless the user pose is KNOWN. Until
  the one-shot latch `boxInit` is set, it tries to anchor `boxSceneEntity` in the FIXED frame;
  after that it re-copies the world group's local pose. It then runs the highlight and makes the
  held box follow the device.
- The origin-change listener refreshes the world group's pose, but only once `boxInit` holds.

The shared state is the array `objects` and the globals `SELECTED`, `INTERSECTED` and `boxInit`.

The project has five modules:

- `SceneTypes` (scene_types.dfy) holds the values the controller handles. Poses are opaque
  tokens, because the model covers state transitions and not geometry. An entity is a pose tagged
  with its reference frame. A box records its parent group, transform, colour, stashed colour and
  entity.
- `RayCast` (ray_cast.dfy) holds the hit list returned by THREE's raycaster: box indices with
  distances, sorted nearest first. It proves that the head of that list is the nearest hit.
- `Controller` (controller.dfy) gives the shared state as a value, the invariant every handler
  keeps, and one step function per handler.
- `HandlerProperties` (handler_properties.dfy) and `Session` (session.dfy) state what the handlers
  do case by case and over any interleaving of events.
- `DraggableCubes` (app.dfy) is the imperative model. Class `App` holds the boxes in an array and
  the globals as fields. Its handlers work step by step as the source does: THREE's `remove` and
  `add`, in-place entity conversion, colour writes. Each handler is proved to leave exactly the
  state its step function describes.

The results of external calls are inputs to the handlers. These are the ray-cast hit list, the
outcome of `Argon.convertEntityReferenceFrame` (`None` for failure, or the entity's new value),
the pose status, the poses returned by `getEntityPose`, and the event's kind, key and
`defaultPrevented` flag. One modelling assumption is used: after the held box's entity has been
converted to the `boxSceneEntity` frame, its pose relative to `boxSceneEntity` is the converted
value itself.

Three behaviours of the code are easy to misread, and the model keeps them as written:

- Selection is not exclusive. A second pick overwrites `SELECTED` without testing it
  (app.ts:259). The box held before stays in `userLocation`, unselected, until a later pick hits
  it. `PickWhileHoldingReplacesSelection`, `SecondPickStrandsFirst` and `StrandedBoxCanBeRepicked`
  state this behaviour.
- Touch-end does not test `defaultPrevented`; only touch-start does (app.ts:207-209, 263-275).
  See `TouchEndGuards`.
- A failed anchoring attempt still overwrites `boxSceneEntity` with the user pose in the default
  frame (app.ts:372-373), and that stays in place until the next attempt. See `UpdateInitAttempt`.

## Model

| member | source | states |
|---|---|---|
| RayCast.HeadIsNearest | code/draggablecubes/app.ts:230-233 | in a hit list sorted pairwise nearest first, the first hit is no farther than any other |
| RayCast.Nearest | code/draggablecubes/app.ts:230-233 | `intersects[0]` is absent exactly when nothing was hit; otherwise it is a hit on one of the boxes at the smallest distance |
| Controller.Init | code/draggablecubes/app.ts:154-197 | after spawning, every box is in `boxScene` at its placement, its entity holds that placement in the box-group frame, it shows its own colour, the three globals are unset, and the invariant holds |
| Controller.TouchStartStep | code/draggablecubes/app.ts:205-261 | touch-start keeps the invariant (partition, selected box carried, entities consistent) and changes only the boxes and SELECTED |
| Controller.TouchEndStep | code/draggablecubes/app.ts:263-301 | touch-end keeps the invariant and changes only the boxes and SELECTED |
| Controller.DeviceMoveStep | code/draggablecubes/app.ts:303-325 | handleDeviceMove keeps the invariant and changes only colours and INTERSECTED; the colour every box shows when not highlighted is unchanged |
| Controller.AnchorStep | code/draggablecubes/app.ts:368-393 | the box-group step leaves boxes and selection alone and sets boxInit exactly when it was set or the conversion to FIXED succeeds |
| Controller.UpdateStep | code/draggablecubes/app.ts:351-407 | a tick with an unknown pose changes nothing; a known tick moves `userLocation` to the user position and writes no box entity and no transform but the held box's, which takes its entity's local pose; boxInit becomes true exactly on a known tick whose FIXED conversion succeeds and is never reset; once set, `boxSceneEntity` is never touched; groups and SELECTED never change |
| Controller.OriginChangeStep | code/draggablecubes/app.ts:330-346 | once boxInit holds, an origin change gives the world group `boxSceneEntity`'s new local pose; before that it changes nothing; it never touches a box, carried or not |
| HandlerProperties.TouchStartGuards | code/draggablecubes/app.ts:207-248 | touch-start calls preventDefault exactly on unconsumed touches and space keys; a consumed event, another key, another event kind, an empty hit list or a failed conversion leaves the state unchanged |
| HandlerProperties.TouchStartPicksNearest | code/draggablecubes/app.ts:230-259 | a successful pick selects `intersects[0]`, the nearest hit; that box moves to `userLocation` with its entity in the device frame; no other box changes |
| HandlerProperties.PickWhileHoldingReplacesSelection | code/draggablecubes/app.ts:245-259 | a pick while another box is held overwrites SELECTED and leaves the earlier box in `userLocation` |
| HandlerProperties.TouchEndGuards | code/draggablecubes/app.ts:263-284 | touch-end calls preventDefault exactly on touches and space keys whether or not they were consumed; with nothing selected or a failed conversion it changes nothing |
| HandlerProperties.TouchEndRetry | code/draggablecubes/app.ts:277-284 | a release whose conversion fails keeps the same box selected and carried, so a later release acts as if the failed one never happened |
| HandlerProperties.TouchEndDrops | code/draggablecubes/app.ts:293-299 | a successful release puts the held box in `boxScene` at the converted pose, with its entity holding that pose in the box-group frame, and clears SELECTED; no other box changes |
| HandlerProperties.PickThenDrop | code/draggablecubes/app.ts:245-299 | a pick from IDLE followed by a drop returns to IDLE with the box in the world group at the drop pose and everything else as it was |
| HandlerProperties.SecondPickStrandsFirst | code/draggablecubes/app.ts:257-259 | two picks of different boxes and one release leave the first box in `userLocation` with nothing selected |
| HandlerProperties.StrandedBoxCanBeRepicked | code/draggablecubes/app.ts:229-299 | a box left carried with nothing selected is selected again by a pick whose nearest hit is that box, and a release returns it to `boxScene` |
| HandlerProperties.DeviceMoveWhileHolding | code/draggablecubes/app.ts:304-306 | while a box is held handleDeviceMove changes nothing |
| HandlerProperties.DeviceMoveSameTarget | code/draggablecubes/app.ts:313-314 | pointing at the box already highlighted changes nothing |
| HandlerProperties.DeviceMoveNewTarget | code/draggablecubes/app.ts:313-320 | pointing at a new box restores every other box to its own colour, stashes the new box's colour in `currentHex` and paints it 0xffff33 |
| HandlerProperties.DeviceMoveNoHit | code/draggablecubes/app.ts:321-324 | pointing at nothing clears INTERSECTED and every box shows its own colour |
| HandlerProperties.DeviceMoveIdempotent | code/draggablecubes/app.ts:303-325 | running handleDeviceMove twice on the same hits equals running it once |
| HandlerProperties.UpdateInitAttempt | code/draggablecubes/app.ts:370-385 | before boxInit, a failed FIXED conversion leaves boxInit unset and the world group in place, with the entity holding the user pose in the default frame; a successful one anchors the entity in FIXED, moves the world group to its local pose and sets boxInit |
| HandlerProperties.UpdateAfterInit | code/draggablecubes/app.ts:386-393 | after boxInit, each known tick re-copies the world group's local pose and leaves the entity alone |
| HandlerProperties.UpdateCarries | code/draggablecubes/app.ts:358-401 | every known tick moves `userLocation` to the user position, and the held box, if any, to its entity's local pose |
| HandlerProperties.UpdateHighlights | code/draggablecubes/app.ts:395 | a known tick runs handleDeviceMove on its hits: with nothing held INTERSECTED becomes the nearest hit or none and only that box shows 0xffff33, every other box its own colour; with a box held INTERSECTED and all colours stay |
| Session.Step | code/draggablecubes/app.ts:205-407 | every callback keeps the invariant, sets boxInit exactly on an anchoring tick, and never changes the colour a box shows when not highlighted |
| Session.Run | code/draggablecubes/app.ts:199-203 | after any interleaving of events, ticks and origin changes, every box is in exactly one of the two groups, SELECTED names a carried box, and boxInit, once set, stays set |
| Session.InitLatch | code/draggablecubes/app.ts:327 | after a session boxInit holds exactly when it held at the start or some tick had a known pose and a successful FIXED conversion |
| Session.AnchorSetOnce | code/draggablecubes/app.ts:370-386 | once boxInit holds, no later input changes `boxSceneEntity`: the anchoring never runs again |
| Session.ColoursSurvive | code/draggablecubes/app.ts:315-322 | over any session each box's own colour is preserved: highlighting is always undone from the stash |
| Session.TicksKeepGroups | code/draggablecubes/app.ts:351-407 | ticks and origin changes never move a box between groups nor change SELECTED |
| DraggableCubes.App.constructor | code/draggablecubes/app.ts:162-197 | the spawn loop builds the state `Init` describes |
| DraggableCubes.App.Remove | code/draggablecubes/app.ts:257 | THREE's `remove` detaches the box only if it is a child of that group |
| DraggableCubes.App.Add | code/draggablecubes/app.ts:258 | THREE's `add` makes the box a child of the group, whatever its parent was |
| DraggableCubes.App.ConvertEntity | code/draggablecubes/app.ts:245 | a conversion reports success exactly when it has a result; on success the entity holds that value in the target frame, and on failure nothing changes |
| DraggableCubes.App.OnDocumentTouchStart | code/draggablecubes/app.ts:205-261 | the handler, run step by step, leaves exactly the state and preventDefault outcome of `TouchStartStep` |
| DraggableCubes.App.OnDocumentTouchEnd | code/draggablecubes/app.ts:263-301 | the handler, run step by step, leaves exactly the state and preventDefault outcome of `TouchEndStep` |
| DraggableCubes.App.HandleDeviceMove | code/draggablecubes/app.ts:303-325 | the handler leaves exactly the state of `DeviceMoveStep` |
| DraggableCubes.App.OnUpdate | code/draggablecubes/app.ts:351-407 | the listener leaves exactly the state of `UpdateStep` |
| DraggableCubes.App.OnLocalOriginChange | code/draggablecubes/app.ts:330-346 | the listener leaves exactly the state of `OriginChangeStep` |

## Left out

- Rendering, viewport, scissor, the heads-up display and stats in the render listener (app.ts:410-448): these only pass parameters to the WebGL renderer.
- Font loading and the direction labels (app.ts:117-152): asynchronous asset loading and UI.
- Sun and moon lighting and the shadow setup, including the `sunMoonLights.update` call in each tick (app.ts:97-111, 366): an external floating-point routine.
- The random placements, rotations, scales and colours of the spawn loop (app.ts:162-197): the constructor takes the placements and colours as parameters. Scale, shadow flags and the box geometry are not modelled.
- Ray-cast geometry (app.ts:224-230): only the hit list it returns is modelled, as box indices with distances sorted nearest first.
- The internals of `Argon.convertEntityReferenceFrame` and `getEntityPose`: the frame conversion works on floating-point vectors and quaternions. A conversion is modelled as its outcome, and poses as opaque values.
- The order of children inside a THREE group: the model records only each box's parent.
- The value of `currentHex` before a box is first highlighted: it is undefined in the source, and the model starts it at 0. It is never read before it is written.
- `console.log` calls and the duplicate, discarded `getEntityPose` at app.ts:285: logging only.
- Argon initialisation, reality installation, geolocation subscription and listener registration (app.ts:24-27, 114, 199-203): setup glue. Key-down and key-up are delivered to the same two handlers as touch-start and touch-end, which is why the event kind is an input.
- The orientation of the user pose: the update listener copies only its position onto `userLocation` (app.ts:359), and the model does the same.
- The host environment: the handlers classify the event with `event instanceof TouchEvent` before testing for a keyboard event (app.ts:212, 265). In a host with no global `TouchEvent` that test throws, and a space key then changes nothing and calls no preventDefault. The model assumes a host that defines `TouchEvent`, as the AR browser the demo targets does, and takes the event kind as an input.
