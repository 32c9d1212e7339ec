/**
 * The assign-player-to-track event: at load time every such event's track
 * is registered, so that it exists before playback; at playback each such
 * event whose parsed data names a track makes that track drive the player.
 */
module AssignPlayerToTrack {

  import opened Wrappers
  import opened Tracks

  /**
   * The event type and the data key of its track name. Both are defined in
   * NoodleExtensions/Plugin.cs, which is not part of this model; the values
   * are the beatmap format's names.
   */
  const ASSIGN_PLAYER_TO_TRACK: string := "AssignPlayerToTrack"
  const TRACK: string := "_track"

  /** A beatmap custom event: its type and its data tree, reduced to string entries. */
  datatype CustomEventData = CustomEventData(eventType: string, data: map<string, string>)

  /** The parsed data of an assign-player-to-track event: its track, when that resolved. */
  datatype PlayerTrackEventData = PlayerTrackEventData(track: Option<Track>)

  predicate IsAssignPlayerToTrack(event: CustomEventData)
  {
    event.eventType == ASSIGN_PLAYER_TO_TRACK
  }

  /** Every assign-player-to-track event among `events` carries a track name in its data. */
  predicate NameTheirTracks(events: seq<CustomEventData>)
  {
    forall e | e in events :: IsAssignPlayerToTrack(e) ==> TRACK in e.data
  }

  /** The names the load-time scan registers, visiting the events in list order. */
  function RegisteredNames(events: seq<CustomEventData>): (names: set<string>)
    requires NameTheirTracks(events)
    ensures forall e :: e in events && IsAssignPlayerToTrack(e) ==> e.data[TRACK] in names
  {
    if events == [] then {}
    else
      var last := events[|events| - 1];
      RegisteredNames(events[..|events| - 1]) + if IsAssignPlayerToTrack(last) then {last.data[TRACK]} else {}
  }

  /** Only assign-player-to-track events register anything: every registered name comes from one. */
  lemma {:induction false} RegisteredNamesComeFromEvents(events: seq<CustomEventData>, name: string)
    requires NameTheirTracks(events)
    requires name in RegisteredNames(events)
    ensures exists e :: e in events && IsAssignPlayerToTrack(e) && e.data[TRACK] == name
  {
    var last := events[|events| - 1];
    var front := events[..|events| - 1];
    assert forall e :: e in front ==> e in events;
    if name in RegisteredNames(front) {
      RegisteredNamesComeFromEvents(front, name);
    } else {
      assert IsAssignPlayerToTrack(last) && last.data[TRACK] == name;
    }
  }

  /** Scanning two event lists one after the other registers what scanning them joined does. */
  lemma {:induction false} RegisteredNamesAppend(first: seq<CustomEventData>, second: seq<CustomEventData>)
    requires NameTheirTracks(first)
    requires NameTheirTracks(second)
    ensures NameTheirTracks(first + second)
    ensures RegisteredNames(first + second) == RegisteredNames(first) + RegisteredNames(second)
  {
    var both := first + second;
    if second == [] {
      assert both == first;
    } else {
      var front := second[..|second| - 1];
      assert forall e :: e in front ==> e in second;
      RegisteredNamesAppend(first, front);
      assert both[..|both| - 1] == first + front;
      assert both[|both| - 1] == second[|second| - 1];
    }
  }

  /** `OnTrackManagerCreated`: registers the track of every assign-player-to-track event. */
  method OnTrackManagerCreated(trackManager: TrackManager, customEventsData: seq<CustomEventData>)
    requires NameTheirTracks(customEventsData)
    modifies trackManager
    ensures trackManager.tracks.Keys == old(trackManager.tracks.Keys) + RegisteredNames(customEventsData)
    ensures forall n :: n in old(trackManager.tracks) ==> trackManager.tracks[n] == old(trackManager.tracks)[n]
  {
    for i := 0 to |customEventsData|
      invariant trackManager.tracks.Keys == old(trackManager.tracks.Keys) + RegisteredNames(customEventsData[..i])
      invariant forall n :: n in old(trackManager.tracks) ==> trackManager.tracks[n] == old(trackManager.tracks)[n]
    {
      var customEventData := customEventsData[i];
      assert customEventsData[..i + 1][..i] == customEventsData[..i];
      if customEventData.eventType == ASSIGN_PLAYER_TO_TRACK {
        var trackName := customEventData.data[TRACK];
        trackManager.AddTrack(trackName);
      }
    }
    assert customEventsData[..|customEventsData|] == customEventsData;
  }

  /** The event rebinds the player: right type, parsed data present, and a track in it. */
  predicate Rebinds(event: CustomEventData, tryGetEventData: CustomEventData -> Option<PlayerTrackEventData>)
  {
    && IsAssignPlayerToTrack(event)
    && tryGetEventData(event).Some?
    && tryGetEventData(event).value.track.Some?
  }

  /** The player's binding after one event reaches `Callback`. */
  function Rebound(binding: Option<Track>, event: CustomEventData,
                   tryGetEventData: CustomEventData -> Option<PlayerTrackEventData>): (r: Option<Track>)
    ensures !IsAssignPlayerToTrack(event) ==> r == binding
    ensures tryGetEventData(event).None? ==> r == binding
    ensures tryGetEventData(event).Some? && tryGetEventData(event).value.track.None? ==> r == binding
    ensures Rebinds(event, tryGetEventData) ==> r == tryGetEventData(event).value.track
  {
    if event.eventType == ASSIGN_PLAYER_TO_TRACK then
      match tryGetEventData(event)
      case None => binding
      case Some(noodleData) =>
        match noodleData.track
        case None => binding
        case Some(track) => Some(track)
    else binding
  }

  /** `Callback`: the playback-time handler of one custom event. */
  method Callback(playerTrack: PlayerTrack, customEventData: CustomEventData,
                  tryGetEventData: CustomEventData -> Option<PlayerTrackEventData>)
    modifies playerTrack
    ensures playerTrack.assignedTrack == Rebound(old(playerTrack.assignedTrack), customEventData, tryGetEventData)
  {
    if customEventData.eventType == ASSIGN_PLAYER_TO_TRACK {
      var noodleData := tryGetEventData(customEventData);
      if noodleData.Some? {
        var track := noodleData.value.track;
        if track.Some? {
          playerTrack.AssignTrack(track.value);
        }
      }
    }
  }

  /** The player's binding after `Callback` has seen each of `events` in order. */
  function BindingAfter(binding: Option<Track>, events: seq<CustomEventData>,
                        tryGetEventData: CustomEventData -> Option<PlayerTrackEventData>): Option<Track>
    decreases events
  {
    if events == [] then binding
    else BindingAfter(Rebound(binding, events[0], tryGetEventData), events[1..], tryGetEventData)
  }

  /** Events none of which rebinds leave the binding as it was. */
  lemma {:induction false} NoRebindKeepsBinding(binding: Option<Track>, events: seq<CustomEventData>,
                                                tryGetEventData: CustomEventData -> Option<PlayerTrackEventData>)
    requires forall i :: 0 <= i < |events| ==> !Rebinds(events[i], tryGetEventData)
    ensures BindingAfter(binding, events, tryGetEventData) == binding
  {
    if events != [] {
      assert !Rebinds(events[0], tryGetEventData);
      NoRebindKeepsBinding(binding, events[1..], tryGetEventData);
    }
  }

  /** The last event that rebinds decides the binding, whatever came before it. */
  lemma {:induction false} LastRebindWins(binding: Option<Track>, events: seq<CustomEventData>,
                                          tryGetEventData: CustomEventData -> Option<PlayerTrackEventData>, k: nat)
    requires k < |events| && Rebinds(events[k], tryGetEventData)
    requires forall i :: k < i < |events| ==> !Rebinds(events[i], tryGetEventData)
    ensures BindingAfter(binding, events, tryGetEventData) == tryGetEventData(events[k]).value.track
    decreases k
  {
    var next := Rebound(binding, events[0], tryGetEventData);
    if k == 0 {
      NoRebindKeepsBinding(next, events[1..], tryGetEventData);
    } else {
      LastRebindWins(next, events[1..], tryGetEventData, k - 1);
    }
  }
}
