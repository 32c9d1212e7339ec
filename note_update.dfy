/**
 * The per-tick note transform applicator (`NoteUpdateNoodlifier`).
 *
 * Once per frame and note, before the engine's own update, it looks up the
 * note's parsed animation data, works out the normalised time, asks the
 * animation helper for seven optional results and writes every result that is
 * present into the note's movement anchors, orientation slots, transform,
 * cutout effects and collider flags. An absent result writes nothing.
 */
module NoteUpdate {

  import opened Wrappers
  import opened Geometry
  import opened Tracks
  import opened NoteHost

  /** An object's direct (track-less) animation properties, reduced to their names. */
  datatype AnimationObjectData = AnimationObjectData(properties: set<string>)

  /**
   * A note's parsed animation data: the tracks it references, its direct
   * properties, and the anchors captured at spawn from its unmodified
   * trajectory.
   */
  datatype NoodleBaseNoteData = NoodleBaseNoteData(
    track: Option<seq<Track>>,
    animationObject: Option<AnimationObjectData>,
    internalStartPos: Vector3,
    internalMidPos: Vector3,
    internalEndPos: Vector3,
    internalWorldRotation: Quaternion,
    internalLocalRotation: Quaternion)

  /** The seven optional results of `AnimationHelper.GetObjectOffset`. */
  datatype ObjectOffset = ObjectOffset(
    positionOffset: Option<Vector3>,
    rotationOffset: Option<Quaternion>,
    scaleOffset: Option<Vector3>,
    localRotationOffset: Option<Quaternion>,
    dissolve: Option<real>,
    dissolveArrow: Option<real>,
    cuttable: Option<real>)

  /**
   * The track evaluation the applicator calls into, as it stands this frame:
   * `getTimeProperty` is the descriptor's `GetTimeProperty()` (the animated
   * explicit time, if any) and `getObjectOffset` is
   * `AnimationHelper.GetObjectOffset` applied to the direct properties, the
   * tracks and the normalised time.
   */
  datatype AnimationHelper = AnimationHelper(
    getTimeProperty: NoodleBaseNoteData -> Option<real>,
    getObjectOffset: (Option<AnimationObjectData>, Option<seq<Track>>, real) -> ObjectOffset)

  /** Data with neither tracks nor direct properties has nothing to animate. */
  predicate IsAnimated(data: NoodleBaseNoteData)
  {
    data.track.Some? || data.animationObject.Some?
  }

  /**
   * The time at which the curves are sampled: the explicit time property when
   * there is one, otherwise the time elapsed since the jump began (half a jump
   * before the note's beat) as a fraction of the jump duration.
   */
  function NormalTime(timeProperty: Option<real>, songTime: real, noteTime: real, jumpDuration: real): (t: real)
    requires timeProperty.Some? || jumpDuration != 0.0
    ensures timeProperty.Some? ==> t == timeProperty.value
    ensures timeProperty.None? ==> t * jumpDuration == songTime - (noteTime - jumpDuration / 2.0)
  {
    match timeProperty
    case Some(time) => time
    case None =>
      var elapsedTime := songTime - (noteTime - jumpDuration * 0.5);
      elapsedTime / jumpDuration
  }

  /**
   * Without an explicit time, a jump of positive duration is sampled from 0
   * where it begins, through 0.5 on the note's beat, to 1 where it ends, and
   * later song times never sample earlier.
   */
  lemma NormalTimeSpansJump(noteTime: real, jumpDuration: real, songTime: real, laterSongTime: real)
    requires jumpDuration > 0.0 && songTime <= laterSongTime
    ensures NormalTime(None, noteTime - jumpDuration / 2.0, noteTime, jumpDuration) == 0.0
    ensures NormalTime(None, noteTime, noteTime, jumpDuration) == 0.5
    ensures NormalTime(None, noteTime + jumpDuration / 2.0, noteTime, jumpDuration) == 1.0
    ensures NormalTime(None, songTime, noteTime, jumpDuration)
         <= NormalTime(None, laterSongTime, noteTime, jumpDuration)
  {
    var early := NormalTime(None, songTime, noteTime, jumpDuration);
    var late := NormalTime(None, laterSongTime, noteTime, jumpDuration);
    assert (late - early) * jumpDuration == laterSongTime - songTime;
    if late < early {
      assert (early - late) * jumpDuration > 0.0;
    }
  }

  /** The world rotation both movements get: the captured one turned by the rotation offset. */
  function WorldRotation(data: NoodleBaseNoteData, rotationOffset: Quaternion): Quaternion
  {
    Mul(data.internalWorldRotation, rotationOffset)
  }

  /**
   * The transform's local rotation: the captured world rotation, then the
   * rotation offset, then the captured local rotation, then the local
   * rotation offset, each offset only when present.
   */
  function TransformRotation(data: NoodleBaseNoteData, rotationOffset: Option<Quaternion>,
                             localRotationOffset: Option<Quaternion>): Quaternion
  {
    var world := match rotationOffset
      case None => data.internalWorldRotation
      case Some(q) => WorldRotation(data, q);
    var local := Mul(world, data.internalLocalRotation);
    match localRotationOffset
    case None => local
    case Some(q) => Mul(local, q)
  }

  /** The composition order of the transform rotation, read as a product of factors. */
  lemma TransformRotationOrder(data: NoodleBaseNoteData, rotationOffset: Option<Quaternion>,
                               localRotationOffset: Option<Quaternion>)
    ensures Factors(TransformRotation(data, rotationOffset, localRotationOffset))
         == Factors(data.internalWorldRotation) + OptionalFactors(rotationOffset)
          + Factors(data.internalLocalRotation) + OptionalFactors(localRotationOffset)
  {
    var world := match rotationOffset
      case None => data.internalWorldRotation
      case Some(q) => WorldRotation(data, q);
    assert Factors(world) == Factors(data.internalWorldRotation) + OptionalFactors(rotationOffset);
    var local := Mul(world, data.internalLocalRotation);
    assert Factors(local) == Factors(world) + Factors(data.internalLocalRotation);
    match localRotationOffset
    case None =>
      assert TransformRotation(data, rotationOffset, localRotationOffset) == local;
    case Some(q) =>
      assert TransformRotation(data, rotationOffset, localRotationOffset) == Mul(local, q);
  }

  /** The slots after one application of `offset` to a note with animation data `data`. */
  function Animated(slots: HostSlots, data: NoodleBaseNoteData, offset: ObjectOffset): (r: HostSlots)
    // position: the four anchors move together, from the captured anchors
    ensures match offset.positionOffset
      case Some(p) =>
        && r.floorStartPos == Add(data.internalStartPos, p)
        && r.floorEndPos == Add(data.internalMidPos, p)
        && r.jumpStartPos == r.floorEndPos
        && r.jumpEndPos == Add(data.internalEndPos, p)
        && Sub(r.floorEndPos, r.floorStartPos) == Sub(data.internalMidPos, data.internalStartPos)
        && Sub(r.jumpEndPos, r.jumpStartPos) == Sub(data.internalEndPos, data.internalMidPos)
      case None =>
        && r.floorStartPos == slots.floorStartPos && r.floorEndPos == slots.floorEndPos
        && r.jumpStartPos == slots.jumpStartPos && r.jumpEndPos == slots.jumpEndPos
    // world rotation: both movements, with inverses recomputed from the same value
    ensures match offset.rotationOffset
      case Some(q) =>
        && r.jumpWorldRotation == WorldRotation(data, q)
        && r.floorWorldRotation == r.jumpWorldRotation
        && r.jumpInverseWorldRotation == Inverse(r.jumpWorldRotation)
        && r.floorInverseWorldRotation == Inverse(r.floorWorldRotation)
      case None =>
        && r.jumpWorldRotation == slots.jumpWorldRotation
        && r.jumpInverseWorldRotation == slots.jumpInverseWorldRotation
        && r.floorWorldRotation == slots.floorWorldRotation
        && r.floorInverseWorldRotation == slots.floorInverseWorldRotation
    // transform rotation: written when either rotation offset is present
    ensures r.localRotation
         == if offset.rotationOffset.Some? || offset.localRotationOffset.Some?
            then TransformRotation(data, offset.rotationOffset, offset.localRotationOffset)
            else slots.localRotation
    ensures offset.scaleOffset.Some? ==> r.localScale == offset.scaleOffset.value
    ensures offset.scaleOffset.None? ==> r.localScale == slots.localScale
  {
    var moved := match offset.positionOffset
      case None => slots
      case Some(p) =>
        slots.(floorStartPos := Add(data.internalStartPos, p), floorEndPos := Add(data.internalMidPos, p),
               jumpStartPos := Add(data.internalMidPos, p), jumpEndPos := Add(data.internalEndPos, p));
    var turned := match offset.rotationOffset
      case None => moved
      case Some(q) =>
        var world := WorldRotation(data, q);
        moved.(jumpWorldRotation := world, jumpInverseWorldRotation := Inverse(world),
               floorWorldRotation := world, floorInverseWorldRotation := Inverse(world));
    var oriented :=
      if offset.rotationOffset.Some? || offset.localRotationOffset.Some?
      then turned.(localRotation := TransformRotation(data, offset.rotationOffset, offset.localRotationOffset))
      else turned;
    match offset.scaleOffset
    case None => oriented
    case Some(scale) => oriented.(localScale := scale)
  }

  /** `SetCutout` on the effect a dictionary holds for `note`, when there is a value to set. */
  function SetCutout(effects: map<NoteController, real>, note: NoteController, dissolve: Option<real>)
    : (r: map<NoteController, real>)
    ensures dissolve.Some? ==> note in r && r[note] == dissolve.value
    ensures dissolve.None? ==> r == effects
    ensures r.Keys == if dissolve.Some? then effects.Keys + {note} else effects.Keys
    ensures forall other | other in effects && other != note :: r[other] == effects[other]
  {
    match dissolve
    case None => effects
    case Some(value) => effects[note := value]
  }

  /** The arrow dissolve that is applied: the arrow effect is written only for a note whose colour type is not None. */
  function ArrowDissolve(dissolveArrow: Option<real>, colorType: ColorType): (r: Option<real>)
    ensures r.Some? <==> dissolveArrow.Some? && colorType != NoColor
    ensures r.Some? ==> r == dissolveArrow
  {
    if dissolveArrow.Some? && colorType != NoColor then dissolveArrow else None
  }

  /** A collider's `canBeCut` after the frame: enabled exactly from a cuttable value of 1 upwards. */
  function CanBeCut(was: bool, cuttable: Option<real>): (enabled: bool)
    ensures cuttable.Some? ==> (enabled <==> cuttable.value >= 1.0)
    ensures cuttable.None? ==> enabled == was
  {
    match cuttable
    case None => was
    case Some(value) => value >= 1.0
  }

  /**
   * Offsets are added to the captured anchors, never to the current slots, so
   * a second application of the same results leaves every slot, effect and
   * flag as the first one left it.
   */
  lemma ApplyingTwiceIsApplyingOnce(slots: HostSlots, data: NoodleBaseNoteData, offset: ObjectOffset,
                                    effects: map<NoteController, real>, note: NoteController, was: bool)
    ensures Animated(Animated(slots, data, offset), data, offset) == Animated(slots, data, offset)
    ensures SetCutout(SetCutout(effects, note, offset.dissolve), note, offset.dissolve)
         == SetCutout(effects, note, offset.dissolve)
    ensures CanBeCut(CanBeCut(was, offset.cuttable), offset.cuttable) == CanBeCut(was, offset.cuttable)
  {
  }

  /** Results that are all absent write nothing. */
  lemma AbsentResultsWriteNothing(slots: HostSlots, data: NoodleBaseNoteData, effects: map<NoteController, real>,
                                  note: NoteController, was: bool)
    ensures var none := ObjectOffset(None, None, None, None, None, None, None);
      && Animated(slots, data, none) == slots
      && SetCutout(effects, note, none.dissolve) == effects
      && CanBeCut(was, none.cuttable) == was
  {
  }

  /** Sets `canBeCut` on every collider in `list`. */
  method SetCanBeCut(list: array<CuttableBySaber>, enabled: bool)
    modifies set i | 0 <= i < list.Length :: list[i]
    ensures forall i :: 0 <= i < list.Length ==> list[i].canBeCut == enabled
  {
    for i := 0 to list.Length
      invariant forall k :: 0 <= k < i ==> list[k].canBeCut == enabled
    {
      list[i].canBeCut := enabled;
    }
  }

  /**
   * The position, rotation and scale writes of one frame: the anchors move by
   * the position offset, the orientations are recomposed from the captured
   * rotations, and the scale is set, each only when its result is present.
   */
  method MoveAndTurn(note: NoteController, data: NoodleBaseNoteData, offset: ObjectOffset)
    modifies note.noteJump, note.floorMovement, note.transform
    ensures note.Slots() == Animated(old(note.Slots()), data, offset)
    ensures note.noteJump.jumpDuration == old(note.noteJump.jumpDuration)
  {
    var noteJump := note.noteJump;
    var floorMovement := note.floorMovement;

    if offset.positionOffset.Some? {
      var moveStartPos := data.internalStartPos;
      var moveEndPos := data.internalMidPos;
      var jumpEndPos := data.internalEndPos;
      var position := offset.positionOffset.value;
      floorMovement.startPos := Add(moveStartPos, position);
      floorMovement.endPos := Add(moveEndPos, position);
      noteJump.startPos := Add(moveEndPos, position);
      noteJump.endPos := Add(jumpEndPos, position);
    }

    var transform := note.transform;

    if offset.rotationOffset.Some? || offset.localRotationOffset.Some? {
      var worldRotation := data.internalWorldRotation;
      var localRotation := data.internalLocalRotation;

      var rotation := worldRotation;
      if offset.rotationOffset.Some? {
        rotation := Mul(rotation, offset.rotationOffset.value);
        var inverseWorldRotation := Inverse(rotation);
        noteJump.worldRotation := rotation;
        noteJump.inverseWorldRotation := inverseWorldRotation;
        floorMovement.worldRotation := rotation;
        floorMovement.inverseWorldRotation := inverseWorldRotation;
      }

      rotation := Mul(rotation, localRotation);

      if offset.localRotationOffset.Some? {
        rotation := Mul(rotation, offset.localRotationOffset.value);
      }

      transform.localRotation := rotation;
    }

    if offset.scaleOffset.Some? {
      transform.localScale := offset.scaleOffset.value;
    }
  }

  /** The dissolve writes of one frame: the body always, the arrow only on a note with a colour. */
  method Dissolve(cutoutManager: CutoutManager, note: NoteController, offset: ObjectOffset)
    modifies cutoutManager
    ensures cutoutManager.noteCutoutEffects == SetCutout(old(cutoutManager.noteCutoutEffects), note, offset.dissolve)
    ensures cutoutManager.noteDisappearingArrowWrappers
         == SetCutout(old(cutoutManager.noteDisappearingArrowWrappers), note,
                      ArrowDissolve(offset.dissolveArrow, note.noteData.colorType))
  {
    if offset.dissolve.Some? {
      cutoutManager.noteCutoutEffects := cutoutManager.noteCutoutEffects[note := offset.dissolve.value];
    }

    if offset.dissolveArrow.Some? && note.noteData.colorType != NoColor {
      cutoutManager.noteDisappearingArrowWrappers :=
        cutoutManager.noteDisappearingArrowWrappers[note := offset.dissolveArrow.value];
    }
  }

  /** Sets `canBeCut` on every collider the note owns, by the note's runtime class. */
  method SetNoteCanBeCut(note: NoteController, enabled: bool)
    modifies note.Cuttables()
    ensures forall c :: c in note.Cuttables() ==> c.canBeCut == enabled
  {
    match note.kind
    case GameNote(big, small) =>
      SetCanBeCut(big, enabled);
      SetCanBeCut(small, enabled);
    case BombNote(cuttable) =>
      cuttable.canBeCut := enabled;
    case OtherNote =>
  }

  class NoteUpdateNoodlifier {
    const deserializedData: map<NoteData, NoodleBaseNoteData>
    const cutoutManager: CutoutManager
    const audioTimeSyncController: AudioTimeSyncController

    /** The animation data of the note most recently updated, if it had any. */
    var noodleData: Option<NoodleBaseNoteData>

    constructor (deserializedData: map<NoteData, NoodleBaseNoteData>, cutoutManager: CutoutManager,
                 audioTimeSyncController: AudioTimeSyncController)
      ensures this.deserializedData == deserializedData && this.cutoutManager == cutoutManager
      ensures this.audioTimeSyncController == audioTimeSyncController && noodleData == None
    {
      this.deserializedData := deserializedData;
      this.cutoutManager := cutoutManager;
      this.audioTimeSyncController := audioTimeSyncController;
      noodleData := None;
    }

    /** `DeserializedData.Resolve`: the parsed animation data of a note, if it has any. */
    function Resolve(noteData: NoteData): Option<NoodleBaseNoteData>
    {
      if noteData in deserializedData then Some(deserializedData[noteData]) else None
    }

    /**
     * The results this frame applies to `note`: none when it has no animation
     * data or nothing to animate, otherwise the helper's results at the
     * note's normalised time.
     */
    function FrameOffset(note: NoteController, helper: AnimationHelper): (r: Option<ObjectOffset>)
      reads audioTimeSyncController, note.noteJump
      requires note.noteJump.jumpDuration != 0.0
      ensures r.Some? <==> note.noteData in deserializedData && IsAnimated(deserializedData[note.noteData])
    {
      match Resolve(note.noteData)
      case None => None
      case Some(data) =>
        if !IsAnimated(data) then None
        else
          var normalTime := NormalTime(helper.getTimeProperty(data), audioTimeSyncController.songTime,
                                       note.noteData.time, note.noteJump.jumpDuration);
          Some(helper.getObjectOffset(data.animationObject, data.track, normalTime))
    }

    /** The per-frame update of one note, run before the engine's own update of it. */
    method Prefix(note: NoteController, helper: AnimationHelper)
      requires note.noteJump.jumpDuration != 0.0
      modifies this, note.noteJump, note.floorMovement, note.transform, cutoutManager, note.Cuttables()
      ensures noodleData == Resolve(note.noteData)
      ensures note.noteJump.jumpDuration == old(note.noteJump.jumpDuration)
      ensures old(FrameOffset(note, helper)).None? ==>
        && note.Slots() == old(note.Slots())
        && cutoutManager.noteCutoutEffects == old(cutoutManager.noteCutoutEffects)
        && cutoutManager.noteDisappearingArrowWrappers == old(cutoutManager.noteDisappearingArrowWrappers)
        && forall c :: c in note.Cuttables() ==> c.canBeCut == old(c.canBeCut)
      ensures old(FrameOffset(note, helper)).Some? ==>
        var offset := old(FrameOffset(note, helper)).value;
        && note.Slots() == Animated(old(note.Slots()), deserializedData[note.noteData], offset)
        && cutoutManager.noteCutoutEffects
           == SetCutout(old(cutoutManager.noteCutoutEffects), note, offset.dissolve)
        && cutoutManager.noteDisappearingArrowWrappers
           == SetCutout(old(cutoutManager.noteDisappearingArrowWrappers), note,
                        ArrowDissolve(offset.dissolveArrow, note.noteData.colorType))
        && forall c :: c in note.Cuttables() ==> c.canBeCut == CanBeCut(old(c.canBeCut), offset.cuttable)
    {
      if note.noteData !in deserializedData {
        noodleData := None;
        return;
      }
      var data := deserializedData[note.noteData];
      noodleData := Some(data);

      if data.track.None? && data.animationObject.None? {
        return;
      }

      var time := helper.getTimeProperty(data);
      var normalTime: real;
      if time.Some? {
        normalTime := time.value;
      } else {
        var jumpDuration := note.noteJump.jumpDuration;
        var elapsedTime := audioTimeSyncController.songTime - (note.noteData.time - jumpDuration * 0.5);
        normalTime := elapsedTime / jumpDuration;
      }

      var offset := helper.getObjectOffset(data.animationObject, data.track, normalTime);
      assert old(FrameOffset(note, helper)) == Some(offset);

      MoveAndTurn(note, data, offset);

      Dissolve(cutoutManager, note, offset);

      if offset.cuttable.None? {
        return;
      }

      var enabled := offset.cuttable.value >= 1.0;
      SetNoteCanBeCut(note, enabled);
    }
  }
}
