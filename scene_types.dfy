/** Values the pick/drag/highlight controller of the draggable-cubes demo works on:
    poses, reference frames, the two parent groups, box records and input events. */
module SceneTypes {

  datatype Option<T> = None | Some(value: T)

  /** A THREE/Cesium vector or quaternion. Its floating-point contents are never
      inspected by the controller, so the model keeps them opaque. */
  datatype Position = Position(id: int)
  datatype Orientation = Orientation(id: int)
  datatype Pose = Pose(position: Position, orientation: Orientation)

  /** Cartesian3.ZERO with Quaternion.IDENTITY: the pose every entity and group starts with. */
  const ORIGIN: Pose := Pose(Position(0), Orientation(0))

  /** The reference frame an Argon entity's position value is expressed in:
      ReferenceFrame.FIXED, the context's default (local) frame, the device
      entity, or the box-group entity `boxSceneEntity`. */
  datatype Frame = Fixed | DefaultFrame | DeviceFrame | BoxSceneFrame

  /** An Argon entity: a pose value tagged with the frame it is expressed in. */
  datatype Entity = Entity(frame: Frame, value: Pose)

  /** The THREE parent of a box: the world group `boxScene`, the carried group
      `userLocation`, or none (only between a `remove` and the following `add`). */
  datatype Group = Detached | BoxScene | UserLocation

  /** A 24-bit RGB colour as THREE's Color.getHex/setHex use it. */
  type Hex = x: int | 0 <= x <= 0xFF_FFFF

  /** The colour a box under the view centre is painted with. */
  const HIGHLIGHT: Hex := 0xFF_FF33

  /** One entry of `objects`: its parent group, its THREE transform (position and
      quaternion), its material colour, the stashed colour `currentHex`, and its
      anchor entity. */
  datatype Box = Box(parent: Group, transform: Pose, colour: Hex, currentHex: Hex, entity: Entity)

  /** A DOM event as the touch/key handlers see it. */
  datatype InputEvent =
    | Touch(defaultPrevented: bool)
    | Keyboard(defaultPrevented: bool, key: string)
    | OtherEvent(defaultPrevented: bool)

  /** Argon's PoseStatus flag set; KNOWN is its lowest bit. */
  type PoseStatus = bv32
  const KNOWN: PoseStatus := 1

  predicate IsKnown(status: PoseStatus) {
    status & KNOWN != 0
  }
}
