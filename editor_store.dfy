/** The editor page's UI state: the active segment, the playback rate, the split mode and the
    selected voice track. Each setter overwrites its own field and nothing else. */
module EditorStore {
  import opened Wrappers

  class EditorStore {
    var activeSegmentId: Option<string>
    var playbackRate: real
    var splitMode: bool
    var selectedTrackId: Option<string>

    constructor()
      ensures activeSegmentId == None && playbackRate == 1.0 && !splitMode && selectedTrackId == None
    {
      activeSegmentId := None;
      playbackRate := 1.0;
      splitMode := false;
      selectedTrackId := None;
    }

    method SetActiveSegment(id: Option<string>)
      modifies this`activeSegmentId
      ensures activeSegmentId == id
      ensures playbackRate == old(playbackRate) && splitMode == old(splitMode) && selectedTrackId == old(selectedTrackId)
    {
      activeSegmentId := id;
    }

    /** The rate is stored as given; the store does not clamp it. */
    method SetPlaybackRate(rate: real)
      modifies this`playbackRate
      ensures playbackRate == rate
      ensures activeSegmentId == old(activeSegmentId) && splitMode == old(splitMode) && selectedTrackId == old(selectedTrackId)
    {
      playbackRate := rate;
    }

    /** Negates the split mode, so two toggles restore it. */
    method ToggleSplitMode()
      modifies this`splitMode
      ensures splitMode == !old(splitMode)
      ensures activeSegmentId == old(activeSegmentId) && playbackRate == old(playbackRate) && selectedTrackId == old(selectedTrackId)
    {
      splitMode := !splitMode;
    }

    method SelectTrack(id: Option<string>)
      modifies this`selectedTrackId
      ensures selectedTrackId == id
      ensures activeSegmentId == old(activeSegmentId) && playbackRate == old(playbackRate) && splitMode == old(splitMode)
    {
      selectedTrackId := id;
    }
  }
}
