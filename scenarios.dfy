/**
 * Runs of the session through its event handlers, from a freshly loaded
 * page, and what each run ends with.
 */
module Scenarios {

  import opened Chunks
  import opened Media
  import opened Script
  import Elapsed

  /**
   * One complete recording: start, the fragments arrive, stop, then the
   * recorder's stop event. The single clip holds exactly the bytes of the
   * fragments in arrival order; the microphone is released, the draw loop
   * and the timer are gone and the display reads "00:00".
   */
  method RecordOnce(fragments: seq<Chunk>)
    returns (clips: seq<Clip>, micReleased: bool, recording: bool, display: string, liveLoops: nat)
    ensures clips == [Clip(Concat(fragments), MIME_TYPE)]
    ensures micReleased && !recording && display == "00:00" && liveLoops == 0
  {
    var track := new Track();
    var stream := new Stream([track]);
    var s := new Session();
    s.Start(stream, NoFault);
    var rec: Recorder := s.recorder;
    Feed(s, fragments);
    StopAndDeliver(s, rec);
    BufferedConcat(fragments);
    clips := s.playlist;
    micReleased := track.ended;
    recording := s.isRecording;
    display := s.timerText;
    liveLoops := |s.liveIntervals| + |s.pendingFrames|;
  }

  /**
   * The microphone is refused: one alert, still not recording, no timer or
   * draw loop, no clip.
   */
  method MicrophoneRefused() returns (recording: bool, alerts: nat, clips: seq<Clip>, liveLoops: nat)
    ensures !recording && alerts == 1 && clips == [] && liveLoops == 0
  {
    var stream := new Stream([]);
    var s := new Session();
    s.Start(stream, MicUnavailable);
    recording := s.isRecording;
    alerts := s.notices;
    clips := s.playlist;
    liveLoops := |s.liveIntervals| + |s.pendingFrames|;
  }

  /**
   * Start, three ticks of the one-second timer, stop, stop event: the
   * third tick shows "00:03", stopping shows "00:00", one clip arrives.
   */
  method ThreeSecondsThenStop() returns (third: string, afterStop: string, clips: nat)
    ensures third == "00:03" && afterStop == "00:00" && clips == 1
  {
    var stream := new Stream([]);
    var s := new Session();
    s.Start(stream, NoFault);
    var rec: Recorder := s.recorder;
    var h := s.timerInterval;
    s.Tick(h, 1000);
    s.Tick(h, 2000);
    s.Tick(h, 3000);
    third := s.timerText;
    assert Elapsed.FormatElapsed(3000) == "00:03";
    s.Stop();
    afterStop := s.timerText;
    s.OnRecorderStop(rec);
    clips := |s.playlist|;
  }

  /**
   * Recording is started again after a stop but before the first
   * recorder's stop event. The first recorder's final fragment (`late`)
   * lands in the new recording's buffer, which therefore starts with the
   * old recorder's bytes. Its stop event builds its clip from that buffer.
   * The recorder is started without a timeslice, so an earlier fragment
   * (`early`) arrives only if the browser delivers one on its own; when it
   * does, the first clip holds only the late fragment.
   */
  method RestartBeforeStopEvent(early: Chunk, late: Chunk)
    returns (firstClip: Clip, secondBuffer: seq<Chunk>, recording: bool, downloadEnabled: bool)
    requires |early| > 0 && |late| > 0
    ensures firstClip == Clip(late, MIME_TYPE) && secondBuffer == [late] && recording
    // the late clip enables the download button in the middle of the second recording
    ensures downloadEnabled
  {
    var first := new Stream([]);
    var second := new Stream([]);
    var s := new Session();
    s.Start(first, NoFault);
    var rec1: Recorder := s.recorder;
    s.OnData(early);
    s.Stop();
    s.Start(second, NoFault);
    s.OnData(late);
    s.OnRecorderStop(rec1);
    assert [late][..0] == [];
    assert Concat([late]) == late;
    firstClip := s.playlist[0];
    secondBuffer := s.chunks;
    recording := s.isRecording;
    downloadEnabled := s.downloadEnabled;
  }

  /**
   * Keyboard only: Space starts, R while recording is ignored (no second
   * recorder), an unbound key changes nothing, Escape stops, and S while
   * stopped is ignored.
   */
  method KeyboardSession() returns (oneRecorder: bool, recording: bool, display: string)
    ensures oneRecorder && !recording && display == "00:00"
  {
    var stream := new Stream([]);
    var s := new Session();
    s.KeyDown("Space", stream, NoFault);
    var rec: Recorder := s.recorder;
    s.KeyDown("KeyR", stream, NoFault);
    s.KeyDown("Enter", stream, NoFault);
    oneRecorder := s.recorder == rec;
    s.KeyDown("Escape", stream, NoFault);
    s.KeyDown("KeyS", stream, NoFault);
    recording := s.isRecording;
    display := s.timerText;
  }

  /**
   * A start key when a setup call throws: with the `MediaRecorder`
   * constructor throwing no recorder exists; with `start()` throwing the
   * recorder exists but is not recording. Each shows one alert.
   */
  method StartFailures() returns (noRecorder: bool, recorderIdle: bool, recording: bool, alerts: nat)
    ensures noRecorder && recorderIdle && !recording && alerts == 2
  {
    var stream := new Stream([]);
    var s := new Session();
    s.KeyDown("Space", stream, RecorderFails);
    noRecorder := s.recorder == null;
    s.KeyDown("KeyR", stream, RecorderStartFails);
    recorderIdle := s.recorder != null && s.recorder.state == Inactive;
    recording := s.isRecording;
    alerts := s.notices;
  }

  /**
   * Stop, then a start key whose `MediaRecorder` constructor throws, before
   * the first recorder's stop event: the first recorder stays inactive and
   * its stop event still delivers the clip of its buffer.
   */
  method FailedRestart(c: Chunk) returns (firstIdle: bool, clips: seq<Clip>, alerts: nat)
    requires |c| > 0
    ensures firstIdle && clips == [Clip(c, MIME_TYPE)] && alerts == 1
  {
    var first := new Stream([]);
    var second := new Stream([]);
    var s := new Session();
    s.Start(first, NoFault);
    var rec: Recorder := s.recorder;
    s.OnData(c);
    s.Stop();
    s.KeyDown("Space", second, RecorderFails);
    firstIdle := rec.state == Inactive;
    s.OnRecorderStop(rec);
    assert [c][..0] == [];
    assert Concat([c]) == c;
    clips := s.playlist;
    alerts := s.notices;
  }

  /** After a finished recording, a click on the record button disables download and keeps the clip. */
  method RecordAgain(a: Chunk) returns (clips: seq<Clip>, downloadEnabled: bool, recording: bool)
    ensures clips == [Clip(a, MIME_TYPE)] && !downloadEnabled && recording
  {
    var s := new Session();
    Record(s, a);
    var stream := new Stream([]);
    s.ClickRecord(stream, NoFault);
    clips := s.playlist;
    downloadEnabled := s.downloadEnabled;
    recording := s.isRecording;
  }

  /** Escape while recording keeps the buffered fragment: the clip is built only by the stop event. */
  method StopKeepsBuffer(c: Chunk) returns (buffer: seq<Chunk>, clips: seq<Clip>, recording: bool)
    requires |c| > 0
    ensures buffer == [c] && clips == [] && !recording
  {
    var stream := new Stream([]);
    var s := new Session();
    s.Start(stream, NoFault);
    s.OnData(c);
    s.KeyDown("Escape", stream, NoFault);
    buffer := s.chunks;
    clips := s.playlist;
    recording := s.isRecording;
  }

  /**
   * Two recordings, then the newer is deleted: the older one remains and
   * the main download button stays enabled, but it still saves the deleted
   * clip, the one recorded last.
   */
  method DeleteNewest(a: Chunk, b: Chunk)
    returns (remaining: seq<Clip>, downloadEnabled: bool, downloadSavesRemaining: bool)
    requires a != b
    ensures remaining == [Clip(a, MIME_TYPE)] && downloadEnabled && !downloadSavesRemaining
  {
    var s := new Session();
    Record(s, a);
    Record(s, b);
    s.Delete(0);
    remaining := s.playlist;
    downloadEnabled := s.downloadEnabled;
    downloadSavesRemaining := s.downloadTarget.value in s.playlist;
  }

  /** Deleting the only clip empties the list and disables the download button. */
  method DeleteOnly(a: Chunk) returns (remaining: seq<Clip>, downloadEnabled: bool)
    ensures remaining == [] && !downloadEnabled
  {
    var s := new Session();
    Record(s, a);
    s.Delete(0);
    remaining := s.playlist;
    downloadEnabled := s.downloadEnabled;
  }

  /** A whole recording of one fragment on an idle session, through its handlers. */
  method Record(s: Session, c: Chunk)
    requires s.Valid() && s.Idle()
    modifies s
    ensures s.Valid() && s.Idle()
    ensures s.playlist == [Clip(c, MIME_TYPE)] + old(s.playlist)
    ensures s.downloadEnabled && s.downloadTarget.value == s.playlist[0]
  {
    var stream := new Stream([]);
    s.Start(stream, NoFault);
    var rec: Recorder := s.recorder;
    s.OnData(c);
    StopAndDeliver(s, rec);
    BufferedConcat([c]);
    assert [c][..0] == [];
    assert Concat([c]) == c;
  }

  /** The recorder delivers `fragments` one `dataavailable` event at a time. */
  method Feed(s: Session, fragments: seq<Chunk>)
    requires s.Valid() && s.Active() && s.chunks == []
    modifies s
    ensures s.Valid() && s.Active() && s.recorder == old(s.recorder)
    ensures s.chunks == Buffered(fragments) && s.playlist == old(s.playlist)
  {
    var i := 0;
    while i < |fragments|
      invariant 0 <= i <= |fragments|
      invariant s.Valid() && s.Active() && s.recorder == old(s.recorder)
      invariant s.chunks == Buffered(fragments[..i])
      invariant s.playlist == old(s.playlist)
    {
      s.OnData(fragments[i]);
      assert fragments[..i + 1][..i] == fragments[..i];
      i := i + 1;
    }
    assert fragments[..|fragments|] == fragments;
  }

  /** `stopRecording`, then the stop event of the recorder it stopped. */
  method StopAndDeliver(s: Session, rec: Recorder)
    requires s.Valid() && s.Active() && s.recorder == rec
    modifies s, rec, set t | t in rec.stream.tracks
    ensures s.Valid() && s.Idle()
    ensures s.playlist == [MakeClip(old(s.chunks))] + old(s.playlist)
    ensures s.downloadEnabled && s.downloadTarget.value == s.playlist[0]
    ensures s.timerText == RESET_DISPLAY && rec.stream.Released()
  {
    s.Stop();
    s.OnRecorderStop(rec);
  }
}
