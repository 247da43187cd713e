/**
 * The browser's HTMLMediaElement, reduced to what the front end touches:
 * the playback position, the volume, the paused flag, and a log of the
 * `play()`/`pause()` calls made on it.
 */
module Media {

  datatype MediaCall = PlayCall | PauseCall

  class MediaElement {
    var currentTime: real
    var volume: real
    var paused: bool
    var calls: seq<MediaCall>

    /** A freshly rendered element: at the start, full volume, paused. */
    constructor ()
      ensures currentTime == 0.0 && volume == 1.0 && paused && calls == []
    {
      currentTime := 0.0;
      volume := 1.0;
      paused := true;
      calls := [];
    }

    method Play()
      modifies this
      ensures !paused && calls == old(calls) + [PlayCall]
      ensures currentTime == old(currentTime) && volume == old(volume)
    {
      paused := false;
      calls := calls + [PlayCall];
    }

    method Pause()
      modifies this
      ensures paused && calls == old(calls) + [PauseCall]
      ensures currentTime == old(currentTime) && volume == old(volume)
    {
      paused := true;
      calls := calls + [PauseCall];
    }
  }
}
