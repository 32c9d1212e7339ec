/**
 * Animation tracks, the track registry and the player's track binding.
 *
 * These stand in for Heck's `Track`, `TrackManager` and Noodle Extensions'
 * `PlayerTrack`, whose code is not part of this model: a track is an object
 * identified by its name, the registry is a name-to-track map with
 * get-or-create semantics and no removal, and the player binding is one
 * mutable reference.
 */
module Tracks {

  import opened Wrappers

  class Track {
    const name: string

    constructor (name: string)
      ensures this.name == name
    {
      this.name := name;
    }
  }

  class TrackManager {
    var tracks: map<string, Track>

    constructor ()
      ensures tracks == map[]
    {
      tracks := map[];
    }

    /** Creates the track `name` unless it exists; an existing track is kept as it is. */
    method AddTrack(name: string)
      modifies this
      ensures tracks.Keys == old(tracks.Keys) + {name}
      ensures forall n :: n in old(tracks) ==> tracks[n] == old(tracks)[n]
      ensures name !in old(tracks) ==> fresh(tracks[name]) && tracks[name].name == name
    {
      if name !in tracks {
        var track := new Track(name);
        tracks := tracks[name := track];
      }
    }
  }

  class PlayerTrack {
    var assignedTrack: Option<Track>

    constructor ()
      ensures assignedTrack == None
    {
      assignedTrack := None;
    }

    /** Makes `track` the one that drives the player's transform. */
    method AssignTrack(track: Track)
      modifies this
      ensures assignedTrack == Some(track)
    {
      assignedTrack := Some(track);
    }
  }
}
