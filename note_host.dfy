/**
 * The host game's note objects, as the per-tick applicator sees them: plain
 * mutable slots. The private fields that Noodle Extensions reaches through
 * field accessors (`_startPos`, `_endPos`, `_jumpDuration`, the world
 * rotations and their inverses, the cuttable colliders) are ordinary fields
 * here.
 */
module NoteHost {

  import opened Geometry

  /** `ColorType`; `NoColor` is the engine's `ColorType.None` (bombs). */
  datatype ColorType = ColorA | ColorB | NoColor

  /** The beatmap's note record; its identity keys the parsed animation data. */
  class NoteData {
    const time: real
    const colorType: ColorType

    constructor (time: real, colorType: ColorType)
      ensures this.time == time && this.colorType == colorType
    {
      this.time := time;
      this.colorType := colorType;
    }
  }

  /** The arc-jump part of a note's movement. */
  class NoteJump {
    var startPos: Vector3
    var endPos: Vector3
    var jumpDuration: real
    var worldRotation: Quaternion
    var inverseWorldRotation: Quaternion
  }

  /** The floor-slide part of a note's movement. */
  class NoteFloorMovement {
    var startPos: Vector3
    var endPos: Vector3
    var worldRotation: Quaternion
    var inverseWorldRotation: Quaternion
  }

  class Transform {
    var localRotation: Quaternion
    var localScale: Vector3
  }

  /** A hit-detection collider (`CuttableBySaber` and its subclass `BoxCuttableBySaber`). */
  class CuttableBySaber {
    var canBeCut: bool
  }

  /** The runtime class of a note controller, with the colliders that class owns. */
  datatype NoteKind =
    | GameNote(big: array<CuttableBySaber>, small: array<CuttableBySaber>)
    | BombNote(cuttable: CuttableBySaber)
    | OtherNote

  /** Every movement, transform and collider slot the applicator may write, as one value. */
  datatype HostSlots = HostSlots(
    floorStartPos: Vector3,
    floorEndPos: Vector3,
    jumpStartPos: Vector3,
    jumpEndPos: Vector3,
    jumpWorldRotation: Quaternion,
    jumpInverseWorldRotation: Quaternion,
    floorWorldRotation: Quaternion,
    floorInverseWorldRotation: Quaternion,
    localRotation: Quaternion,
    localScale: Vector3)

  class NoteController {
    const noteData: NoteData
    const noteJump: NoteJump
    const floorMovement: NoteFloorMovement
    const transform: Transform
    const kind: NoteKind

    constructor (noteData: NoteData, noteJump: NoteJump, floorMovement: NoteFloorMovement,
                 transform: Transform, kind: NoteKind)
      ensures this.noteData == noteData && this.noteJump == noteJump
      ensures this.floorMovement == floorMovement && this.transform == transform && this.kind == kind
    {
      this.noteData := noteData;
      this.noteJump := noteJump;
      this.floorMovement := floorMovement;
      this.transform := transform;
      this.kind := kind;
    }

    /** The current contents of the note's movement and transform slots. */
    function Slots(): HostSlots
      reads noteJump, floorMovement, transform
    {
      HostSlots(
        floorMovement.startPos, floorMovement.endPos, noteJump.startPos, noteJump.endPos,
        noteJump.worldRotation, noteJump.inverseWorldRotation,
        floorMovement.worldRotation, floorMovement.inverseWorldRotation,
        transform.localRotation, transform.localScale)
    }

    /** The arrays that hold this note's colliders (none for a bomb or another note class). */
    function ColliderLists(): set<array<CuttableBySaber>>
    {
      if kind.GameNote? then {kind.big, kind.small} else {}
    }

    /** Every collider this note owns. */
    function Cuttables(): set<CuttableBySaber>
      reads ColliderLists()
    {
      match kind
      case GameNote(big, small) =>
        (set i | 0 <= i < big.Length :: big[i]) + (set i | 0 <= i < small.Length :: small[i])
      case BombNote(cuttable) => {cuttable}
      case OtherNote => {}
    }
  }

  /**
   * The visual-cutout sinks, keyed by note: the last dissolve value written
   * to a note's body effect and to its arrow effect.
   */
  class CutoutManager {
    var noteCutoutEffects: map<NoteController, real>
    var noteDisappearingArrowWrappers: map<NoteController, real>

    constructor ()
      ensures noteCutoutEffects == map[] && noteDisappearingArrowWrappers == map[]
    {
      noteCutoutEffects := map[];
      noteDisappearingArrowWrappers := map[];
    }
  }

  /** The song clock. */
  class AudioTimeSyncController {
    var songTime: real
  }
}
