# Noodle Extensions note animation: a Dafny model

This project models two parts of Noodle Extensions' animation layer for Beat Saber.

- **The per-tick note applicator** (`NoteUpdateNoodlifier.Prefix`) runs before the game's own update of each note.
  - It looks up the note's parsed animation data and computes the normalised time.
  - It asks the animation helper for seven optional results: position, rotation, scale, local rotation, dissolve, arrow dissolve and cuttable.
  - It writes each result that is present into the note's floor-movement and jump anchors, world rotations and their inverses, transform rotation and scale, cutout effects, and collider `canBeCut` flags.
- **The assign-player-to-track event** (`AssignPlayerToTrack`).
  - At load time it registers the track of every such event in the track manager.
  - At playback it rebinds the player's track when an event of that type carries parsed data with a track.

Files:

- `wrappers.dfy`: `Option`.
- `geometry.dfy`: `Vector3` is a triple of reals with addition and subtraction. `Quaternion` is a free term algebra: `Identity`, `Atom`, `Mul` and `Inverse`, none of them interpreted. `Factors` reads a product as its ordered list of factors.
- `tracks.dfy`: `Track`, the `TrackManager` registry and the `PlayerTrack` binding. These are stand-ins for code that is not part of this model. The registry is a get-or-create map from name to track with no removal; the binding is one mutable reference.
- `note_host.dfy`: the host game's note objects as plain mutable slots. It also holds `HostSlots`, which collects a note's movement and transform slots into one value.
- `note_update.dfy`: the applicator. `Animated` is the specification of one frame's slot writes, and lemmas state properties of it. `Prefix` is proved to write exactly what `Animated`, `SetCutout`, `ArrowDissolve` and `CanBeCut` describe, and nothing else.
- `assign_player_to_track.dfy`: the load-time scan and the playback-time callback. Each has a specification function: `RegisteredNames` for the scan, and `Rebound` with its fold `BindingAfter` for the callback.

Inputs the source reads from foreign code become explicit inputs:

- the song clock is an `AudioTimeSyncController` object;
- `GetTimeProperty` and `AnimationHelper.GetObjectOffset` are the two total functions of an `AnimationHelper` value passed to `Prefix`, standing for the track state of that frame;
- `TryGetEventData` is a total function passed to `Callback`.

Two points about the code that the model states:

- Floor end and jump start are both written from the captured mid anchor plus the offset (NoteUpdateNoodlifier.cs:100-101). So they are equal after every position write; `Animated` states that.
- `Callback` rebinds whenever the parsed data and its track are non-null (AssignPlayerToTrack.cs:29-34). It does not check that the track is registered; `Rebound` follows that.

## Model

| member | source | states |
|---|---|---|
| NoteUpdate.NoteUpdateNoodlifier.Prefix | NoodleExtensions/HarmonyPatches/Objects/NoteUpdateNoodlifier.cs:45-178 | `NoodleData` becomes the note's resolved data, or none. With no data, or data with neither tracks nor direct properties, no slot, cutout or `canBeCut` flag changes. Otherwise the slots become `Animated` of the old slots with that frame's results. The cutouts become `SetCutout` of the dissolve and of the coloured-note arrow dissolve. Every collider's flag becomes `CanBeCut` of the cuttable value. The jump duration is untouched. |
| NoteUpdate.NoteUpdateNoodlifier.FrameOffset | NoodleExtensions/HarmonyPatches/Objects/NoteUpdateNoodlifier.cs:49-90 | The frame has results exactly when the note resolves to animation data that has tracks or direct properties. |
| NoteUpdate.NoteUpdateNoodlifier.constructor | NoodleExtensions/HarmonyPatches/Objects/NoteUpdateNoodlifier.cs:31-43 | Keeps the injected data, cutout manager and clock; `NoodleData` starts unset. |
| NoteUpdate.NormalTime | NoodleExtensions/HarmonyPatches/Objects/NoteUpdateNoodlifier.cs:67-78 | The explicit time property when present. Otherwise the time `t` with `t * jumpDuration == songTime - (noteTime - jumpDuration/2)`: the elapsed part of the jump as a fraction of its duration. |
| NoteUpdate.NormalTimeSpansJump | NoodleExtensions/HarmonyPatches/Objects/NoteUpdateNoodlifier.cs:73-78 | For a positive jump duration the computed time is 0 where the jump begins, 0.5 on the note's beat and 1 where the jump ends. It never decreases as the song time grows. |
| NoteUpdate.TransformRotationOrder | NoodleExtensions/HarmonyPatches/Objects/NoteUpdateNoodlifier.cs:107-131 | The transform rotation is the product of: captured world rotation, rotation offset, captured local rotation, local rotation offset. The factors come in exactly that order, and an absent offset contributes no factor. |
| NoteUpdate.Animated | NoodleExtensions/HarmonyPatches/Objects/NoteUpdateNoodlifier.cs:92-136 | With a position offset, floor start, floor end, jump start and jump end are the captured start, mid, mid and end anchors plus the offset. So floor end equals jump start, and each leg keeps its captured length and direction. With a rotation offset, both world rotations are the captured world rotation times the offset, and both inverses are the inverse of that value. The transform rotation is written when either rotation offset is present. Scale is written when present. Every absent result leaves its slots as they were. |
| NoteUpdate.ApplyingTwiceIsApplyingOnce | NoodleExtensions/HarmonyPatches/Objects/NoteUpdateNoodlifier.cs:92-153 | Offsets are added to the captured anchors, not to current values. So applying the same results a second time changes no slot, cutout or flag: nothing accumulates. |
| NoteUpdate.AbsentResultsWriteNothing | NoodleExtensions/HarmonyPatches/Objects/NoteUpdateNoodlifier.cs:92-151 | When all seven results are absent, no slot, cutout or flag is written. |
| NoteUpdate.MoveAndTurn | NoodleExtensions/HarmonyPatches/Objects/NoteUpdateNoodlifier.cs:92-136 | The position, rotation and scale writes leave the note's slots equal to `Animated` of the old slots. They do not touch the jump duration. |
| NoteUpdate.SetCutout | NoodleExtensions/HarmonyPatches/Objects/NoteUpdateNoodlifier.cs:138-141 | A present dissolve becomes the note's entry. An absent one leaves the map as it was. Other notes' entries never change. |
| NoteUpdate.ArrowDissolve | NoodleExtensions/HarmonyPatches/Objects/NoteUpdateNoodlifier.cs:143-146 | The arrow dissolve is applied if and only if it is present and the note's colour type is not `None`. |
| NoteUpdate.Dissolve | NoodleExtensions/HarmonyPatches/Objects/NoteUpdateNoodlifier.cs:138-146 | The body cutouts become `SetCutout` of the dissolve, and the arrow cutouts become `SetCutout` of `ArrowDissolve`. |
| NoteUpdate.CanBeCut | NoodleExtensions/HarmonyPatches/Objects/NoteUpdateNoodlifier.cs:148-153 | With a cuttable value, the flag is enabled if and only if the value is at least 1. Without one, the flag keeps its value. |
| NoteUpdate.SetCanBeCut | NoodleExtensions/HarmonyPatches/Objects/NoteUpdateNoodlifier.cs:159-162 | Every collider in the list ends with `canBeCut` equal to the given value. |
| NoteUpdate.SetNoteCanBeCut | NoodleExtensions/HarmonyPatches/Objects/NoteUpdateNoodlifier.cs:155-177 | Every collider the note owns ends with the given value: both lists of a game note, or the single collider of a bomb. No other collider changes. |
| AssignPlayerToTrack.RegisteredNames | NoodleExtensions/NoodleExtensions/Animation/Events/AssignPlayerToTrack.cs:13-21 | The track name of every assign-player-to-track event in the list is among the registered names. |
| AssignPlayerToTrack.RegisteredNamesComeFromEvents | NoodleExtensions/NoodleExtensions/Animation/Events/AssignPlayerToTrack.cs:16-20 | Every registered name is the track of some assign-player-to-track event. Events of other types register nothing. |
| AssignPlayerToTrack.RegisteredNamesAppend | NoodleExtensions/NoodleExtensions/Animation/Events/AssignPlayerToTrack.cs:14-21 | Scanning a joined list registers the union of what scanning each part registers. |
| AssignPlayerToTrack.OnTrackManagerCreated | NoodleExtensions/NoodleExtensions/Animation/Events/AssignPlayerToTrack.cs:11-22 | Afterwards the registry's names are its old names plus `RegisteredNames` of the events. Every track already registered is kept, so the registry only grows. |
| AssignPlayerToTrack.Rebound | NoodleExtensions/NoodleExtensions/Animation/Events/AssignPlayerToTrack.cs:24-38 | The binding stays as it was for an event of another type, for missing parsed data, and for parsed data without a track. For a matching event whose data has a track, the binding becomes exactly that track. |
| AssignPlayerToTrack.Callback | NoodleExtensions/NoodleExtensions/Animation/Events/AssignPlayerToTrack.cs:24-38 | The player's binding becomes `Rebound` of the old binding. Only the player binding may change: the track registry is outside its frame. |
| AssignPlayerToTrack.NoRebindKeepsBinding | NoodleExtensions/NoodleExtensions/Animation/Events/AssignPlayerToTrack.cs:26-33 | A run of callbacks none of which rebinds leaves the binding unchanged. |
| AssignPlayerToTrack.LastRebindWins | NoodleExtensions/NoodleExtensions/Animation/Events/AssignPlayerToTrack.cs:31-34 | After a run of callbacks, the binding is the track of the last event that rebinds, whatever came before it. |

## Left out

- Floating point: positions, times and the cuttable value are exact reals, and rotations are uninterpreted terms. Unity's float rounding, NaN and infinity are not modelled, and neither is quaternion arithmetic.
- NoteUpdate.NoteUpdateNoodlifier.Prefix: requires a non-zero jump duration on every call, including when an explicit time property makes the division unnecessary. The source divides by it unchecked; a float division by zero would give an infinite or NaN time.
- NoteUpdate.NoteUpdateNoodlifier.Prefix: writes a dissolve value into a map keyed by note. The source indexes the cutout dictionaries and would throw for a note that has no cutout effect registered; that failure is not modelled.
- `AnimationHelper.GetObjectOffset`, `GetTimeProperty` and the curve sampling behind them (track layering, direct-property fallback, extrapolation) are foreign code. They are inputs to `Prefix`, and nothing is proved about how their results are composed.
- `DeserializedData.Resolve` is a map from note data to animation data. How the descriptors are built at spawn is not part of this model.
- `NoteMovement` is flattened: the note controller holds its jump and floor movement directly. The field-accessor reflection and the Harmony/Affinity patch installation are left out.
- AssignPlayerToTrack.OnTrackManagerCreated: requires every assign-player-to-track event to carry a track name. For an event without one, the source passes a null name to `TrackManager.AddTrack`, whose behaviour is not part of this model.
- `TryGetEventData` and the parsing of event data into `PlayerTrackEventData` are a function given to `Callback`. `Trees.at` is a lookup in the event's data map, reduced to string entries.
- The values of the `ASSIGNPLAYERTOTRACK` and `TRACK` constants are defined in NoodleExtensions/Plugin.cs, which is not part of this model.
- The internals of `TrackManager.AddTrack` and `PlayerTrack.AssignTrack` are modelled only as get-or-create on a map and as assignment of one reference.
- Heck/SettingsSetter/SettingsSetterViewController.cs is a menu flow: view controllers, reflection on settings and level start. NoodleExtensions/Installers/NoodlePlayerInstaller.cs only binds services for dependency injection. Neither has logic to state, so neither is modelled.
- Obstacles and sliders are handled by other patch classes, which are not part of this model.
