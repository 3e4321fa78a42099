/**
 * The recorder widget of src/components/AudioRecorder.tsx: a three-step countdown before the
 * recording starts, the waveform flag, which buttons are offered, and the completion callback.
 * A countdown step is the one-second timer firing; the effects run as methods after each
 * render, and each call of `onRecordingComplete` is recorded.
 */
module AudioRecorderWidget {
  import opened Wrappers
  import opened AudioRecorderHook

  /** The value the start button sets the countdown to. */
  const CountdownStart: nat := 3

  class RecorderWidget {
    /** The widget's own `useAudioRecorder`. */
    const recorder: AudioRecorderSession

    var countdown: Option<nat>
    var showWaveform: bool
    /** The blobs passed to `onRecordingComplete`, oldest first. */
    var completed: seq<Blob>

    /** The countdown never exceeds its start value, and the recorder is consistent. */
    ghost predicate Valid()
      reads this, recorder
    {
      recorder.Valid() && (countdown.Some? ==> countdown.value <= CountdownStart)
    }

    constructor ()
      ensures fresh(recorder) && Valid() && recorder.Settled() && recorder.Quiescent()
      ensures recorder.state == InitialState
      ensures countdown.None? && !showWaveform && completed == []
    {
      recorder := new AudioRecorderSession();
      countdown := None;
      showWaveform := false;
      completed := [];
    }

    /** The microphone button: offered exactly when nothing is being recorded and no recording is kept. */
    predicate MicButtonShown(): (r: bool)
      reads this, recorder
      ensures Valid() ==> (r <==> !recorder.state.isRecording && recorder.state.audioBlob.None?)
    {
      !recorder.state.isRecording && recorder.state.audioUrl.None?
    }

    /** Clicking the microphone is possible only with no other control on screen and no countdown running. */
    predicate MicButtonEnabled(): (r: bool)
      reads this, recorder
      ensures r ==> !StopButtonShown() && !PlaybackShown()
      ensures countdown.Some? ==> !r
    {
      MicButtonShown() && countdown.None?
    }

    /** The stop button: offered only while recording, when there is a recorder to stop and no URL yet. */
    predicate StopButtonShown(): (r: bool)
      reads this, recorder
      ensures Valid() && r ==> recorder.state.mediaRecorder.Some? && recorder.state.audioUrl.None?
    {
      recorder.state.isRecording
    }

    /** Playback and reset: offered exactly when a finished recording is kept. */
    predicate PlaybackShown(): (r: bool)
      reads this, recorder
      ensures Valid() ==> (r <==> recorder.state.audioBlob.Some?)
    {
      recorder.state.audioUrl.Some? && !recorder.state.isRecording
    }

    /** Exactly one of the microphone, stop and playback controls is on screen. */
    lemma OneControlShown()
      requires Valid()
      ensures (MicButtonShown() && !StopButtonShown() && !PlaybackShown())
        || (!MicButtonShown() && StopButtonShown() && !PlaybackShown())
        || (!MicButtonShown() && !StopButtonShown() && PlaybackShown())
    {
    }

    /** `handleStartRecording`: start the countdown at three. */
    method HandleStartRecording()
      requires Valid()
      modifies this`countdown
      ensures Valid() && countdown == Some(CountdownStart)
    {
      countdown := Some(CountdownStart);
    }

    /** The countdown timer firing: one step down while above zero. */
    method CountdownTick()
      requires Valid()
      modifies this`countdown
      ensures Valid()
      ensures old(countdown).Some? && old(countdown).value > 0 ==> countdown == Some(old(countdown).value - 1)
      ensures old(countdown).None? || old(countdown) == Some(0) ==> countdown == old(countdown)
    {
      if countdown.Some? && countdown.value > 0 {
        countdown := Some(countdown.value - 1);
      }
    }

    /**
     * The countdown effect at zero: show the waveform, start recording (`granted` is the
     * outcome of the microphone request) and leave the countdown. At any other value the
     * effect only arms the timer, which `CountdownTick` models.
     */
    method CountdownEffect(granted: bool)
      requires Valid()
      modifies this`countdown, this`showWaveform, recorder
      ensures Valid()
      ensures old(countdown) != Some(0) ==>
        && countdown == old(countdown) && showWaveform == old(showWaveform)
        && unchanged(recorder)
      ensures old(countdown) == Some(0) ==> countdown.None? && showWaveform
      ensures old(countdown) == Some(0) && granted ==>
        && recorder.state.isRecording && !recorder.state.isPaused && recorder.state.recordingTime == 0
        && recorder.state.audioBlob.None? && recorder.state.audioUrl.None? && recorder.chunks == []
      ensures old(countdown) == Some(0) && granted ==>
        && recorder.state.mediaRecorder.Some? && recorder.state.mediaRecorder.value >= old(recorder.platform.next)
        && recorder.streamRef.Some? && recorder.streamRef.value >= old(recorder.platform.next)
        && recorder.platform.streams == old(recorder.platform.streams) + {recorder.streamRef.value}
        && recorder.timerInterval.Some? && recorder.timerInterval.value >= old(recorder.platform.next)
        && recorder.platform.intervals ==
             old(recorder.platform.intervals) - Tokens(old(recorder.timerInterval)) + {recorder.timerInterval.value}
        && recorder.platform.urls == old(recorder.platform.urls) && recorder.effectUrl == old(recorder.effectUrl)
      ensures old(countdown) == Some(0) && granted && old(recorder.Settled()) && !old(recorder.state.isRecording) ==>
        recorder.OwnsResources()
      ensures old(countdown) == Some(0) && !granted ==> unchanged(recorder)
    {
      if countdown == Some(0) {
        showWaveform := true;
        recorder.StartRecording(granted);
        countdown := None;
      }
    }

    /** The completion effect: once not recording with a blob, hand the blob on. */
    method CompletionEffect()
      modifies this`completed
      ensures !recorder.state.isRecording && recorder.state.audioBlob.Some? ==>
        completed == old(completed) + [recorder.state.audioBlob.value]
      ensures recorder.state.isRecording || recorder.state.audioBlob.None? ==>
        completed == old(completed)
    {
      if !recorder.state.isRecording && recorder.state.audioBlob.Some? {
        completed := completed + [recorder.state.audioBlob.value];
      }
    }

    /** `handleStopRecording`: stop the recorder and hide the waveform. */
    method HandleStopRecording() returns (stopRequested: bool)
      requires Valid()
      modifies this`showWaveform, recorder`timerInterval, recorder`platform
      ensures Valid() && !showWaveform
      ensures stopRequested <==> recorder.state.isRecording && recorder.state.mediaRecorder.Some?
      ensures recorder.timerInterval.None?
      ensures recorder.platform ==
        old(recorder.platform).(intervals := old(recorder.platform.intervals) - Tokens(old(recorder.timerInterval)))
      ensures old(recorder.OwnsResources()) ==> recorder.OwnsResources() && recorder.platform.intervals == {}
    {
      stopRequested := recorder.StopRecording();
      showWaveform := false;
    }

    /** `handleReset`: reset the recorder and hide the waveform; the microphone is offered again. */
    method HandleReset()
      requires Valid()
      modifies this`showWaveform,
        recorder`state, recorder`platform, recorder`streamRef, recorder`timerInterval
      ensures Valid() && !showWaveform
      ensures recorder.state == InitialState && MicButtonShown()
      ensures recorder.timerInterval.None? && recorder.streamRef.None?
      ensures recorder.platform.intervals == old(recorder.platform.intervals) - Tokens(old(recorder.timerInterval))
      ensures recorder.platform.urls == old(recorder.platform.urls) - Tokens(old(recorder.state.audioUrl))
      ensures recorder.platform.streams == old(recorder.platform.streams) - Tokens(old(recorder.streamRef))
      ensures recorder.platform.next == old(recorder.platform.next)
      ensures old(recorder.Settled()) ==> recorder.OwnsResources() && recorder.Quiescent()
    {
      recorder.ResetRecording();
      showWaveform := false;
    }
  }

  /**
   * From a click on the microphone, recording starts exactly after the third tick: the
   * effects after the click and after the first two ticks leave the recorder alone, and the
   * effect after the third starts it. `observed` is the recording flag after each effect.
   */
  method RecordingStartsAfterThreeTicks(w: RecorderWidget) returns (observed: seq<bool>)
    requires w.Valid() && w.MicButtonEnabled()
    modifies w, w.recorder
    ensures observed == [false, false, false, true]
    ensures w.Valid() && w.countdown.None? && w.showWaveform
    ensures w.recorder.state.isRecording && w.recorder.state.recordingTime == 0
  {
    w.HandleStartRecording();
    w.CountdownEffect(true);
    observed := [w.recorder.state.isRecording];
    w.CountdownTick();
    w.CountdownEffect(true);
    assert w.countdown == Some(2);
    observed := observed + [w.recorder.state.isRecording];
    w.CountdownTick();
    w.CountdownEffect(true);
    assert w.countdown == Some(1);
    observed := observed + [w.recorder.state.isRecording];
    w.CountdownTick();
    assert w.countdown == Some(0);
    w.CountdownEffect(true);
    observed := observed + [w.recorder.state.isRecording];
  }
}
