/**
 * The recording session of the page: the module-level state of the
 * recorder script and the handlers that change it. Browser events
 * (a click, a key press, a recorder event, an animation frame, a timer
 * tick) are the methods of `Session`; what the browser hands a handler
 * (the captured stream, which setup call throws, a fragment, the elapsed
 * milliseconds) is a parameter.
 */
module Script {

  import opened Wrappers
  import opened Chunks
  import opened Media
  import Elapsed

  /** The analyser's transform window; it yields FFT_SIZE / 2 frequency bins. */
  const FFT_SIZE: nat := 256

  /** What the timer display is reset to when recording stops. */
  const RESET_DISPLAY: string := "00:00"

  /** The first browser call of `startRecording` that throws, if any. */
  datatype SetupFault =
    | NoFault
    | MicUnavailable      // getUserMedia rejects: permission denied or no device
    | ContextFails        // the AudioContext constructor throws
    | SourceFails         // createMediaStreamSource throws
    | ConnectFails        // source.connect(analyser) throws, after `source` was assigned
    | RecorderFails       // the MediaRecorder constructor throws
    | RecorderStartFails  // mediaRecorder.start() throws

  predicate IsStartKey(code: string) {
    code == "Space" || code == "KeyR"
  }

  predicate IsStopKey(code: string) {
    code == "KeyS" || code == "Escape"
  }

  class Session {
    /** `isRecording` */
    var isRecording: bool
    /** `mediaRecorder`; null until the first recorder is constructed */
    var recorder: Recorder?
    /** `audioChunks` */
    var chunks: seq<Chunk>
    /** the stream the last media-stream source node taps (`source`) */
    var source: Stream?
    /** `audioContext` (and with it `analyser`) exists */
    var ctxInitialised: bool
    /** length of `dataArray`, the analyser's sample buffer; 0 while it is undefined */
    var binCount: nat
    /** text of the timer display */
    var timerText: string
    /** `timerInterval` and the intervals the browser still fires */
    var timerInterval: nat
    var liveIntervals: set<nat>
    /** `animationId` and the animation frames the browser still has to run */
    var animationId: nat
    var pendingFrames: set<nat>
    /** the canvas shows bars drawn by the visualizer (false once cleared) */
    var canvasPainted: bool
    /** the next handle the browser gives out for an interval or a frame */
    var nextHandle: nat
    /** the last `updateUIState` signal: record button disabled, stop button enabled */
    var uiRecording: bool
    /** microphone-error alerts shown */
    var notices: nat
    /** playlist items, newest first */
    var playlist: seq<Clip>
    /** the main download button is enabled */
    var downloadEnabled: bool
    /** the clip the main download button saves */
    var downloadTarget: Option<Clip>

    /** Handles given out so far are below `nextHandle`; handle 0 stands for `undefined`. */
    ghost predicate HandlesOk()
      reads this
    {
      0 < nextHandle &&
      timerInterval < nextHandle && animationId < nextHandle &&
      (forall h :: h in liveIntervals ==> 0 < h < nextHandle) &&
      (forall h :: h in pendingFrames ==> 0 < h < nextHandle)
    }

    ghost predicate Valid()
      reads this
    {
      HandlesOk() &&
      binCount == (if ctxInitialised then FFT_SIZE / 2 else 0) &&
      uiRecording == isRecording &&
      (isRecording ==> ctxInitialised && recorder != null) &&
      (downloadEnabled ==> playlist != []) &&
      (playlist != [] ==> downloadTarget.Some?)
    }

    /** Not recording, and no interval or frame left running. */
    ghost predicate Idle()
      reads this
    {
      !isRecording && liveIntervals == {} && pendingFrames == {}
    }

    /** Recording: the recorder encodes, one timer runs and one frame is scheduled. */
    ghost predicate Active()
      reads this, recorder
    {
      isRecording && recorder != null && recorder.state == Recording &&
      liveIntervals == {timerInterval} && pendingFrames == {animationId}
    }

    /** Stopped, waiting for the recorder's stop event: the draw loop still runs. */
    ghost predicate Draining()
      reads this, recorder
    {
      !isRecording && ctxInitialised && recorder != null && recorder.state == Inactive &&
      liveIntervals == {} && pendingFrames == {animationId}
    }

    /** The state of a freshly loaded page. */
    constructor ()
      ensures Valid() && Idle()
      ensures recorder == null && source == null && !ctxInitialised && chunks == []
      ensures timerText == RESET_DISPLAY && notices == 0
      ensures playlist == [] && !downloadEnabled && downloadTarget == None
    {
      isRecording := false;
      recorder := null;
      chunks := [];
      source := null;
      ctxInitialised := false;
      binCount := 0;
      timerText := RESET_DISPLAY;
      timerInterval := 0;
      liveIntervals := {};
      animationId := 0;
      pendingFrames := {};
      canvasPainted := false;
      nextHandle := 1;
      uiRecording := false;
      notices := 0;
      playlist := [];
      downloadEnabled := false;
      downloadTarget := None;
    }

    /** `initAudioContext`: creates the context and its analyser on the first call only. */
    method InitAudioContext()
      requires Valid()
      modifies this`ctxInitialised, this`binCount
      ensures Valid()
      ensures ctxInitialised && binCount == FFT_SIZE / 2 == 128
      ensures old(ctxInitialised) ==> unchanged(this)
    {
      if !ctxInitialised {
        ctxInitialised := true;
        binCount := FFT_SIZE / 2;
      }
    }

    /** `draw`: unless its guard returns early, schedules the next frame and paints the bars. */
    method Draw()
      requires HandlesOk()
      modifies this`nextHandle, this`animationId, this`pendingFrames, this`canvasPainted
      ensures HandlesOk()
      ensures !isRecording && !ctxInitialised ==> unchanged(this)
      ensures isRecording || ctxInitialised ==>
                animationId == old(nextHandle) && animationId !in old(pendingFrames) &&
                pendingFrames == old(pendingFrames) + {animationId} &&
                nextHandle == old(nextHandle) + 1 && canvasPainted
    {
      if !isRecording && !ctxInitialised {
        return;
      }
      animationId := nextHandle;
      nextHandle := nextHandle + 1;
      pendingFrames := pendingFrames + {animationId};
      canvasPainted := true;
    }

    /** An animation frame the browser runs: the scheduled `draw` callback. */
    method Frame(h: nat)
      requires Valid()
      modifies this`nextHandle, this`animationId, this`pendingFrames, this`canvasPainted
      ensures Valid()
      ensures h !in old(pendingFrames) ==> unchanged(this)
      ensures h in old(pendingFrames) && (isRecording || ctxInitialised) ==>
                animationId == old(nextHandle) && pendingFrames == old(pendingFrames) - {h} + {animationId} &&
                nextHandle == old(nextHandle) + 1 && canvasPainted
      ensures h in old(pendingFrames) && !isRecording && !ctxInitialised ==>
                pendingFrames == old(pendingFrames) - {h} && animationId == old(animationId) &&
                canvasPainted == old(canvasPainted) && nextHandle == old(nextHandle)
      ensures old(Idle()) ==> Idle()
      ensures old(Active()) ==> Active()
      ensures old(Draining()) ==> Draining()
    {
      if h in pendingFrames {
        pendingFrames := pendingFrames - {h};
        Draw();
      }
    }

    /** `startTimer`: starts a one-second interval and remembers its handle. */
    method StartTimer()
      requires HandlesOk()
      modifies this`nextHandle, this`timerInterval, this`liveIntervals
      ensures HandlesOk()
      ensures timerInterval == old(nextHandle) && timerInterval !in old(liveIntervals)
      ensures liveIntervals == old(liveIntervals) + {timerInterval}
    {
      timerInterval := nextHandle;
      nextHandle := nextHandle + 1;
      liveIntervals := liveIntervals + {timerInterval};
    }

    /** `stopTimer`: clears the remembered interval and resets the display. */
    method StopTimer()
      modifies this`liveIntervals, this`timerText
      ensures liveIntervals == old(liveIntervals) - {timerInterval}
      ensures timerText == RESET_DISPLAY
    {
      liveIntervals := liveIntervals - {timerInterval};
      timerText := RESET_DISPLAY;
    }

    /** A tick of interval `h`, `elapsed` milliseconds after the timer started. */
    method Tick(h: nat, elapsed: nat)
      requires Valid()
      modifies this`timerText
      ensures Valid()
      ensures h in liveIntervals ==> timerText == Elapsed.FormatElapsed(elapsed)
      ensures h !in liveIntervals ==> timerText == old(timerText)
    {
      if h in liveIntervals {
        timerText := Elapsed.FormatElapsed(elapsed);
      }
    }

    /**
     * The steps of `startRecording` up to the new recorder and its empty
     * buffer; null when one of their browser calls throws.
     */
    method Prepare(stream: Stream, fault: SetupFault) returns (r: Recorder?)
      requires Valid()
      requires fault == ContextFails ==> !ctxInitialised
      modifies this`ctxInitialised, this`binCount, this`source, this`recorder, this`chunks
      ensures Valid()
      ensures ctxInitialised == (old(ctxInitialised) || fault !in {MicUnavailable, ContextFails})
      ensures source == if fault in {MicUnavailable, ContextFails, SourceFails} then old(source) else stream
      ensures r == null <==> fault in {MicUnavailable, ContextFails, SourceFails, ConnectFails, RecorderFails}
      ensures r == null ==> recorder == old(recorder) && chunks == old(chunks)
      ensures r != null ==> fresh(r) && recorder == r && r.stream == stream && r.state == Inactive && chunks == []
    {
      if fault == MicUnavailable || fault == ContextFails {
        return null;
      }
      InitAudioContext();
      if fault == SourceFails {
        return null;
      }
      source := stream;
      if fault == ConnectFails || fault == RecorderFails {
        return null;
      }
      r := new Recorder(stream);
      recorder := r;
      chunks := [];
    }

    /**
     * What `startRecording` leaves behind, from the state before it ran:
     * `fault` names the first browser call that threw, if any.
     */
    twostate predicate Started(stream: Stream, fault: SetupFault)
      reads this, recorder
    {
      // the catch path shows one alert and leaves the recording flag as it was
      && notices == old(notices) + (if fault == NoFault then 0 else 1)
      && isRecording == (old(isRecording) || fault == NoFault)
      && ctxInitialised == (old(ctxInitialised) || fault !in {MicUnavailable, ContextFails})
      && source == (if fault in {MicUnavailable, ContextFails, SourceFails} then old(source) else stream)
      // once the recorder is constructed: a new recorder on this stream and an empty buffer
      && (fault in {NoFault, RecorderStartFails} ==>
            fresh(recorder) && recorder.stream == stream && chunks == [] &&
            recorder.state == (if fault == NoFault then Recording else Inactive))
      && (fault !in {NoFault, RecorderStartFails} ==>
            recorder == old(recorder) && chunks == old(chunks))
      // timer, draw loop and UI signal only when every call succeeded
      && (fault == NoFault ==>
            liveIntervals == old(liveIntervals) + {timerInterval} && timerInterval !in old(liveIntervals) &&
            pendingFrames == old(pendingFrames) + {animationId} && animationId !in old(pendingFrames) &&
            uiRecording && !downloadEnabled && canvasPainted)
      && (fault != NoFault ==>
            liveIntervals == old(liveIntervals) && timerInterval == old(timerInterval) &&
            pendingFrames == old(pendingFrames) && animationId == old(animationId) &&
            uiRecording == old(uiRecording) && downloadEnabled == old(downloadEnabled) &&
            canvasPainted == old(canvasPainted))
      && timerText == old(timerText) && playlist == old(playlist) && downloadTarget == old(downloadTarget)
    }

    /**
     * What `stopRecording` leaves behind when it acts: the same recorder,
     * now inactive, recording off, the remembered timer cleared and the
     * display reset. The buffer, the draw loop, the playlist and everything
     * else are as they were.
     */
    twostate predicate Stopped()
      reads this, recorder
    {
      && recorder == old(recorder) && recorder != null && recorder.state == Inactive
      && !isRecording && !uiRecording
      && liveIntervals == old(liveIntervals) - {timerInterval} && timerInterval == old(timerInterval)
      && timerText == RESET_DISPLAY
      && chunks == old(chunks) && playlist == old(playlist) && notices == old(notices)
      && downloadEnabled == old(downloadEnabled) && downloadTarget == old(downloadTarget)
      && pendingFrames == old(pendingFrames) && animationId == old(animationId)
      && canvasPainted == old(canvasPainted) && source == old(source)
      && ctxInitialised == old(ctxInitialised) && binCount == old(binCount) && nextHandle == old(nextHandle)
    }

    /** `startRecording`, with `fault` naming the first browser call that throws. */
    method Start(stream: Stream, fault: SetupFault)
      requires Valid()
      requires fault == ContextFails ==> !ctxInitialised
      modifies this
      ensures Valid()
      ensures Started(stream, fault)
      ensures old(Idle()) ==> if fault == NoFault then Active() else Idle()
    {
      var r := Prepare(stream, fault);
      if r == null || fault == RecorderStartFails {
        notices := notices + 1;
        return;
      }
      Begin(r);
    }

    /** The rest of `startRecording` once recorder `r` exists: record, time, draw, signal. */
    method Begin(r: Recorder)
      requires Valid() && ctxInitialised && recorder == r
      modifies r, this`isRecording, this`nextHandle, this`timerInterval, this`liveIntervals
      modifies this`animationId, this`pendingFrames, this`canvasPainted, this`uiRecording, this`downloadEnabled
      ensures Valid()
      ensures r.state == Recording && isRecording && uiRecording && !downloadEnabled && canvasPainted
      ensures liveIntervals == old(liveIntervals) + {timerInterval} && timerInterval !in old(liveIntervals)
      ensures pendingFrames == old(pendingFrames) + {animationId} && animationId !in old(pendingFrames)
    {
      r.Start();
      isRecording := true;
      StartTimer();
      Draw();
      uiRecording := true;
      downloadEnabled := false;
    }

    /** `ondataavailable`: buffers a fragment unless it is empty. */
    method OnData(chunk: Chunk)
      requires Valid()
      modifies this`chunks
      ensures Valid()
      ensures |chunk| > 0 ==> chunks == old(chunks) + [chunk]
      ensures |chunk| == 0 ==> chunks == old(chunks)
    {
      if |chunk| > 0 {
        chunks := chunks + [chunk];
      }
    }

    /** `addRecordingToPlaylist`, as far as the list and the main download button go. */
    method AddToPlaylist(clip: Clip)
      modifies this`playlist, this`downloadEnabled, this`downloadTarget
      ensures playlist == [clip] + old(playlist)
      ensures downloadEnabled && downloadTarget == Some(clip)
    {
      downloadEnabled := true;
      downloadTarget := Some(clip);
      playlist := [clip] + playlist;
    }

    /**
     * `onstop` of recorder `rec`: the clip of the buffered fragments goes to
     * the front of the playlist, the frame in `animationId` is cancelled, the
     * canvas cleared, and every track of `rec`'s stream stopped.
     */
    method OnRecorderStop(rec: Recorder)
      requires Valid()
      modifies this`playlist, this`downloadEnabled, this`downloadTarget
      modifies this`pendingFrames, this`canvasPainted
      modifies set t | t in rec.stream.tracks
      ensures Valid()
      ensures playlist == [MakeClip(chunks)] + old(playlist)
      ensures downloadEnabled && downloadTarget == Some(MakeClip(chunks))
      ensures pendingFrames == old(pendingFrames) - {animationId} && !canvasPainted
      ensures rec.stream.Released()
      ensures old(Draining()) ==> Idle()
    {
      var clip := MakeClip(chunks);
      AddToPlaylist(clip);
      pendingFrames := pendingFrames - {animationId};
      canvasPainted := false;
      rec.stream.StopTracks();
    }

    /** `stopRecording`: does nothing unless a recorder exists and recording is on. */
    method Stop()
      requires Valid()
      modifies this`isRecording, this`liveIntervals, this`timerText, this`uiRecording, recorder
      ensures Valid()
      ensures !(old(recorder) != null && old(isRecording)) ==>
                unchanged(this) && (recorder != null ==> unchanged(recorder))
      ensures old(recorder) != null && old(isRecording) ==> Stopped()
      ensures old(Active()) ==> Draining()
    {
      if recorder != null && isRecording {
        recorder.Stop();
        isRecording := false;
        StopTimer();
        uiRecording := false;
      }
    }

    /** A click on the record button, which is disabled while the UI shows recording. */
    method ClickRecord(stream: Stream, fault: SetupFault)
      requires Valid()
      requires fault == ContextFails ==> !ctxInitialised
      modifies this
      ensures Valid()
      ensures old(isRecording) ==> unchanged(this)
      ensures !old(isRecording) ==> Started(stream, fault)
      ensures old(Idle()) ==> if fault == NoFault then Active() else Idle()
    {
      if !uiRecording {
        Start(stream, fault);
      }
    }

    /** The keyboard shortcuts: Space or R starts when idle, S or Escape stops when recording. */
    method KeyDown(code: string, stream: Stream, fault: SetupFault)
      requires Valid()
      requires fault == ContextFails ==> !ctxInitialised
      modifies this, recorder
      ensures Valid()
      ensures !(IsStartKey(code) && !old(isRecording)) && !(IsStopKey(code) && old(isRecording)) ==>
                unchanged(this) && (recorder != null ==> unchanged(recorder))
      ensures IsStartKey(code) && !old(isRecording) ==> Started(stream, fault)
      ensures IsStopKey(code) && old(isRecording) ==> Stopped()
      ensures IsStartKey(code) && old(Idle()) ==> if fault == NoFault then Active() else Idle()
      ensures IsStopKey(code) && old(Active()) ==> Draining()
      // startRecording never touches the recorder it replaces
      ensures IsStartKey(code) && !old(isRecording) && old(recorder) != null ==>
                old(recorder).state == old(recorder.state)
    {
      if IsStartKey(code) {
        if !isRecording {
          Start(stream, fault);
        }
      }
      if IsStopKey(code) {
        if isRecording {
          Stop();
        }
      }
    }

    /** The delete button of playlist item `i`: removes that item only. */
    method Delete(i: nat)
      requires Valid()
      requires i < |playlist|
      modifies this`playlist, this`downloadEnabled
      ensures Valid()
      ensures playlist == old(playlist[..i] + playlist[i + 1..])
      ensures downloadEnabled == (old(downloadEnabled) && playlist != [])
    {
      playlist := playlist[..i] + playlist[i + 1..];
      if |playlist| == 0 {
        downloadEnabled := false;
      }
    }
  }
}
