/**
 * The browser media objects whose state the recorder's handlers change:
 * the microphone tracks, the stream that groups them, and the encoder
 * (`MediaRecorder`) bound to one stream. Their internals are the
 * browser's; only the state the handlers read and set is kept.
 */
module Media {

  /** One microphone track; `ended` once `track.stop()` has released it. */
  class Track {
    var ended: bool

    constructor ()
      ensures !ended
    {
      ended := false;
    }

    /** `track.stop()`: releases the device; stopping an ended track is harmless. */
    method Stop()
      modifies this
      ensures ended
    {
      ended := true;
    }
  }

  /** A captured microphone stream: the tracks `getUserMedia` handed out. */
  class Stream {
    const tracks: seq<Track>

    constructor (tracks: seq<Track>)
      ensures this.tracks == tracks
    {
      this.tracks := tracks;
    }

    ghost predicate Released()
      reads tracks
    {
      forall t :: t in tracks ==> t.ended
    }

    /** `stream.getTracks().forEach(track => track.stop())`. */
    method StopTracks()
      modifies set t | t in tracks
      ensures Released()
    {
      var i := 0;
      while i < |tracks|
        invariant 0 <= i <= |tracks|
        invariant forall j :: 0 <= j < i ==> tracks[j].ended
      {
        tracks[i].Stop();
        i := i + 1;
      }
    }
  }

  datatype RecorderState = Inactive | Recording

  /** A `MediaRecorder` encoding one stream. */
  class Recorder {
    const stream: Stream
    var state: RecorderState

    constructor (stream: Stream)
      ensures this.stream == stream && state == Inactive
    {
      this.stream := stream;
      state := Inactive;
    }

    /** `recorder.start()`. */
    method Start()
      modifies this
      ensures state == Recording
    {
      state := Recording;
    }

    /** `recorder.stop()`: the final data and stop events follow later. */
    method Stop()
      modifies this
      ensures state == Inactive
    {
      state := Inactive;
    }
  }
}
