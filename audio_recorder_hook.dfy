/**
 * The `useAudioRecorder` hook (src/hooks/useAudioRecorder.tsx): a recording session over the
 * platform's capture device, with a chunk buffer, an elapsed-time counter driven by an
 * interval timer, the assembled blob and its object URL.
 *
 * Platform resources are tokens: a media stream is live until its tracks are stopped, an
 * object URL until it is revoked, an interval until it is cleared. The session keeps the set
 * of live tokens of each kind, so that "released", "revoked" and "no further ticks" can be
 * stated. Device grants and recorder events are calls made by the environment.
 */
module AudioRecorderHook {
  import opened Wrappers
  import opened JsString

  newtype byte = x: int | 0 <= x < 256

  /** The `data` of one `BlobEvent`. */
  type Chunk = seq<byte>

  /** `new Blob(parts, { type })`: the bytes of the parts in order, tagged with a MIME type. */
  datatype Blob = Blob(data: seq<byte>, mimeType: string)

  const AudioMimeType: string := "audio/webm"

  /** Identity of a platform resource (stream, recorder, object URL, interval). */
  type Token = nat

  /** The bytes of `chunks`, in order. */
  function Concat(chunks: seq<Chunk>): seq<byte> {
    if chunks == [] then [] else Concat(chunks[..|chunks| - 1]) + chunks[|chunks| - 1]
  }

  lemma {:induction false} ConcatAppend(a: seq<Chunk>, b: seq<Chunk>)
    ensures Concat(a + b) == Concat(a) + Concat(b)
    decreases |b|
  {
    if b == [] {
      assert a + b == a;
    } else {
      var b' := b[..|b| - 1];
      ConcatAppend(a, b');
      assert (a + b)[..|a + b| - 1] == a + b';
    }
  }

  /** The chunks among `ds` that have a positive size, in arrival order. */
  function NonEmpty(ds: seq<Chunk>): seq<Chunk> {
    if ds == [] then []
    else NonEmpty(ds[..|ds| - 1]) + (if |ds[|ds| - 1]| > 0 then [ds[|ds| - 1]] else [])
  }

  /** Dropping the zero-length chunks does not change the bytes they make up together. */
  lemma {:induction false} ConcatNonEmpty(ds: seq<Chunk>)
    ensures Concat(NonEmpty(ds)) == Concat(ds)
  {
    if ds != [] {
      var init, last := ds[..|ds| - 1], ds[|ds| - 1];
      ConcatNonEmpty(init);
      ConcatAppend(NonEmpty(init), if |last| > 0 then [last] else []);
      assert Concat([last]) == last by { assert [last][..0] == []; }
    }
  }

  function Tokens(o: Option<Token>): set<Token> {
    if o.Some? then {o.value} else {}
  }

  predicate Below(s: set<Token>, bound: Token) {
    forall t :: t in s ==> t < bound
  }

  predicate Issued(o: Option<Token>, bound: Token) {
    o.Some? ==> o.value < bound
  }

  /** One field of `formatTime`: `n.toString().padStart(2, '0')`. At least two digits, two
      exactly below 100, and its digits read back as `n`. */
  function TwoDigitField(n: nat): (r: string)
    ensures |r| >= 2 && AllDigits(r) && DigitsValue(r) == n
    ensures |r| == 2 <==> n < 100
    ensures |r| > 2 ==> r[0] != '0'
  {
    var s := NatToString(n);
    NatToStringValue(n);
    PadStartZeroValue(s, 2);
    var r := PadStartZero(s, 2);
    assert |r| == if |s| < 2 then 2 else |s|;
    r
  }

  /** `formatTime`: whole minutes and remaining seconds as two-digit fields joined by ':'. */
  function FormatTime(seconds: nat): string {
    TwoDigitField(seconds / 60) + ":" + TwoDigitField(seconds % 60)
  }

  /** `r` is a clock "M…M:SS" whose minutes and seconds fields add up to `seconds`; the
      minutes are two digits below 100 minutes and carry no leading zero beyond that. */
  predicate ClockReads(r: string, seconds: nat) {
    && |r| >= 5 && r[|r| - 3] == ':'
    && AllDigits(r[..|r| - 3]) && AllDigits(r[|r| - 2..])
    && DigitsValue(r[|r| - 2..]) < 60
    && DigitsValue(r[..|r| - 3]) * 60 + DigitsValue(r[|r| - 2..]) == seconds
    && (|r| == 5 <==> seconds < 6000) && (|r| > 5 ==> r[0] != '0')
  }

  /** The clock `r` shows `minutes` before its colon and `secs` after it. */
  predicate ClockShows(r: string, minutes: nat, secs: nat) {
    && |r| >= 5 && AllDigits(r[..|r| - 3]) && AllDigits(r[|r| - 2..])
    && DigitsValue(r[..|r| - 3]) == minutes && DigitsValue(r[|r| - 2..]) == secs
  }

  /**
   * What `formatTime` yields: a clock whose seconds field is two digits below 60 and whose
   * fields read back as the whole minutes and the remaining seconds of the input; five
   * characters long exactly below 100 minutes.
   */
  lemma FormatTimeFields(seconds: nat)
    ensures ClockReads(FormatTime(seconds), seconds)
    ensures ClockShows(FormatTime(seconds), seconds / 60, seconds % 60)
  {
    var m, sec := seconds / 60, seconds % 60;
    MinutesSeconds(seconds);
    var minutes, secs := TwoDigitField(m), TwoDigitField(sec);
    assert FormatTime(seconds) == minutes + ":" + secs;
    ClockFields(minutes, secs, m, sec, seconds);
  }

  /** "a:b" for two digit strings that read back as `m` and `sec` is a clock for `seconds`. */
  lemma ClockFields(a: string, b: string, m: nat, sec: nat, seconds: nat)
    requires AllDigits(a) && AllDigits(b) && |a| >= 2 && |b| == 2
    requires DigitsValue(a) == m && DigitsValue(b) == sec < 60 && m * 60 + sec == seconds
    requires |a| == 2 <==> seconds < 6000
    requires |a| > 2 ==> a[0] != '0'
    ensures ClockReads(a + ":" + b, seconds) && ClockShows(a + ":" + b, m, sec)
  {
    ColonFields(a, b);
  }

  lemma MinutesSeconds(seconds: nat)
    ensures seconds / 60 * 60 + seconds % 60 == seconds && seconds % 60 < 60
    ensures seconds / 60 < 100 <==> seconds < 6000
  {
  }

  lemma ColonFields(a: string, b: string)
    requires |b| == 2
    ensures var r := a + ":" + b; |r| == |a| + 3 && r[..|r| - 3] == a && r[|r| - 3] == ':' && r[|r| - 2..] == b
  {
  }

  /** 65 seconds read "01:05", and a five-second recording reads "00:05". */
  lemma FormatTimeExamples()
    ensures FormatTime(65) == "01:05"
    ensures FormatTime(5) == "00:05"
  {
    assert NatToString(0) == "0" && NatToString(1) == "1" && NatToString(5) == "5";
    assert Zeros(1) == "0";
    assert TwoDigitField(0) == "00" && TwoDigitField(1) == "01" && TwoDigitField(5) == "05";
    assert 65 / 60 == 1 && 65 % 60 == 5 && 5 / 60 == 0 && 5 % 60 == 5;
  }

  /** `AudioRecorderState`, the object the hook keeps in `useState` and replaces on each update. */
  datatype RecorderState = RecorderState(
    isRecording: bool,
    isPaused: bool,
    recordingTime: nat,
    mediaRecorder: Option<Token>,
    audioBlob: Option<Blob>,
    audioUrl: Option<Token>)

  /** The state `useState` starts from and `resetRecording` restores. */
  const InitialState: RecorderState := RecorderState(false, false, 0, None, None, None)

  /** Platform resources not yet released, and the next unused token. */
  datatype Platform = Platform(streams: set<Token>, urls: set<Token>, intervals: set<Token>, next: Token)

  /** What every reachable recorder state satisfies. */
  predicate StateInvariant(st: RecorderState) {
    && !st.isPaused
    && (st.isRecording ==> st.mediaRecorder.Some? && st.audioBlob.None? && st.audioUrl.None?)
    && (st.audioUrl.Some? <==> st.audioBlob.Some?)
  }

  predicate Issues(p: Platform) {
    Below(p.streams, p.next) && Below(p.urls, p.next) && Below(p.intervals, p.next)
  }

  class AudioRecorderSession {
    var state: RecorderState

    // refs: chunks.current, timerInterval.current, streamRef.current
    var chunks: seq<Chunk>
    var timerInterval: Option<Token>
    var streamRef: Option<Token>

    /** The URL captured by the currently mounted run of the cleanup effect. */
    var effectUrl: Option<Token>

    var platform: Platform

    ghost predicate Valid()
      reads this
    {
      && StateInvariant(state)
      && Issues(platform)
      && Issued(state.mediaRecorder, platform.next) && Issued(state.audioUrl, platform.next)
      && Issued(effectUrl, platform.next) && Issued(timerInterval, platform.next)
      && Issued(streamRef, platform.next)
    }

    /**
     * Every live resource is reachable from the hook: the live stream is the one in
     * `streamRef` and only while recording, the live interval is the one in
     * `timerInterval`, and a live URL is the current one or the one the effect captured.
     */
    ghost predicate OwnsResources()
      reads this
    {
      && platform.streams <= Tokens(streamRef)
      && (platform.streams != {} ==> state.isRecording)
      && platform.intervals <= Tokens(timerInterval)
      && platform.urls <= Tokens(state.audioUrl) + Tokens(effectUrl)
    }

    /** The state between events: resources owned and the URL effect up to date. */
    ghost predicate Settled()
      reads this
    {
      OwnsResources() && effectUrl == state.audioUrl
    }

    /** Nothing is held: no stream, no URL, no interval. */
    ghost predicate Quiescent()
      reads this
    {
      platform.streams == {} && platform.urls == {} && platform.intervals == {}
    }

    /** The initial state of `useState` and the refs. */
    constructor ()
      ensures Valid() && Settled() && Quiescent()
      ensures state == InitialState && chunks == []
      ensures timerInterval.None? && streamRef.None?
    {
      state := InitialState;
      chunks, timerInterval, streamRef, effectUrl := [], None, None, None;
      platform := Platform({}, {}, {}, 0);
    }

    /** `formattedTime`: the clock on screen reads back as the elapsed seconds. */
    function FormattedTime(): (r: string)
      reads this
      ensures ClockReads(r, state.recordingTime)
    {
      FormatTimeFields(state.recordingTime);
      FormatTime(state.recordingTime)
    }

    /** `startTimer`: clear the interval in the ref, if any, and start a fresh one. */
    method StartTimer()
      requires Valid()
      modifies this`timerInterval, this`platform
      ensures Valid()
      ensures timerInterval == Some(old(platform.next)) && platform.next == old(platform.next) + 1
      ensures platform.intervals == old(platform.intervals) - Tokens(old(timerInterval)) + {old(platform.next)}
      ensures platform.streams == old(platform.streams) && platform.urls == old(platform.urls)
    {
      var id := platform.next;
      platform := platform.(intervals := platform.intervals - Tokens(timerInterval) + {id}, next := id + 1);
      timerInterval := Some(id);
    }

    /** `stopTimer`: clear the interval in the ref, if any, and empty the ref. */
    method StopTimer()
      requires Valid()
      modifies this`timerInterval, this`platform
      ensures Valid()
      ensures timerInterval.None?
      ensures platform == old(platform).(intervals := old(platform.intervals) - Tokens(old(timerInterval)))
      ensures old(OwnsResources()) ==> OwnsResources() && platform.intervals == {}
    {
      if timerInterval.Some? {
        platform := platform.(intervals := platform.intervals - {timerInterval.value});
        timerInterval := None;
      }
    }

    /** One firing of interval `interval`: only a live interval fires, and it adds one second. */
    method Tick(interval: Token)
      modifies this`state
      ensures state == old(state).(recordingTime := old(state.recordingTime) + if interval in platform.intervals then 1 else 0)
    {
      if interval in platform.intervals {
        state := state.(recordingTime := state.recordingTime + 1);
      }
    }

    /**
     * `startRecording`. `granted` is the outcome of `getUserMedia`: when it is refused the
     * error is logged and nothing changes; otherwise the fresh stream is stored in the ref, the
     * chunk buffer is emptied, the recorder and the timer start and the state is reset.
     */
    method StartRecording(granted: bool)
      requires Valid()
      modifies this
      ensures Valid()
      ensures !granted ==> unchanged(this)
      ensures granted ==> && state.isRecording && !state.isPaused && state.recordingTime == 0
                          && state.audioBlob.None? && state.audioUrl.None? && chunks == []
      ensures granted ==> && state.mediaRecorder.Some? && state.mediaRecorder.value >= old(platform.next)
                          && streamRef.Some? && streamRef.value >= old(platform.next)
                          && platform.streams == old(platform.streams) + {streamRef.value}
                          && timerInterval.Some? && timerInterval.value >= old(platform.next)
                          && platform.intervals == old(platform.intervals) - Tokens(old(timerInterval)) + {timerInterval.value}
                          && platform.urls == old(platform.urls) && effectUrl == old(effectUrl)
      ensures granted && old(Settled()) && !old(state.isRecording) ==> OwnsResources()
    {
      if !granted {
        return;
      }
      var stream, recorder := platform.next, platform.next + 1;
      platform := platform.(streams := platform.streams + {stream}, next := platform.next + 2);
      streamRef := Some(stream);
      chunks := [];
      StartTimer();
      state := RecorderState(true, false, 0, Some(recorder), None, None);
    }

    /** `ondataavailable`: a chunk of positive size is appended to the buffer. */
    method OnDataAvailable(chunk: Chunk)
      modifies this`chunks
      ensures chunks == old(chunks) + (if |chunk| > 0 then [chunk] else [])
    {
      if |chunk| > 0 {
        chunks := chunks + [chunk];
      }
    }

    /**
     * `onstop`: the buffered chunks become one audio blob with a fresh object URL, recording
     * ends, and the stream in the ref is released and the ref cleared.
     */
    method OnStop()
      requires Valid()
      modifies this`state, this`platform, this`streamRef
      ensures Valid()
      ensures state.audioBlob == Some(Blob(Concat(chunks), AudioMimeType))
      ensures state.audioUrl.Some? && state.audioUrl.value !in old(platform.urls)
      ensures platform.urls == old(platform.urls) + {state.audioUrl.value}
      ensures !state.isRecording && !state.isPaused
      ensures state.recordingTime == old(state.recordingTime) && state.mediaRecorder == old(state.mediaRecorder)
      ensures streamRef.None? && platform.streams == old(platform.streams) - Tokens(old(streamRef))
      ensures platform.intervals == old(platform.intervals)
      ensures old(Settled()) ==> OwnsResources()
    {
      var url := platform.next;
      platform := platform.(urls := platform.urls + {url}, streams := platform.streams - Tokens(streamRef), next := url + 1);
      state := state.(isRecording := false, isPaused := false,
                      audioBlob := Some(Blob(Concat(chunks), AudioMimeType)), audioUrl := Some(url));
      streamRef := None;
    }

    /**
     * `stopRecording`: the timer always stops; the recorder is asked to stop (its data and
     * stop events follow later) only when there is one and it is recording.
     */
    method StopRecording() returns (stopRequested: bool)
      requires Valid()
      modifies this`timerInterval, this`platform
      ensures Valid()
      ensures stopRequested <==> state.mediaRecorder.Some? && state.isRecording
      ensures timerInterval.None?
      ensures platform == old(platform).(intervals := old(platform.intervals) - Tokens(old(timerInterval)))
      ensures old(OwnsResources()) ==> OwnsResources() && platform.intervals == {}
    {
      StopTimer();
      stopRequested := state.mediaRecorder.Some? && state.isRecording;
    }

    /**
     * `resetRecording`: stop the timer, revoke the current URL, release the stream in the
     * ref, and restore the initial state. The chunk buffer is left as it is.
     */
    method ResetRecording()
      requires Valid()
      modifies this`state, this`platform, this`streamRef, this`timerInterval
      ensures Valid()
      ensures state == InitialState
      ensures timerInterval.None? && streamRef.None?
      ensures platform.intervals == old(platform.intervals) - Tokens(old(timerInterval))
      ensures platform.urls == old(platform.urls) - Tokens(old(state.audioUrl))
      ensures platform.streams == old(platform.streams) - Tokens(old(streamRef))
      ensures platform.next == old(platform.next)
      ensures old(Settled()) ==> OwnsResources() && Quiescent()
    {
      StopTimer();
      platform := platform.(urls := platform.urls - Tokens(state.audioUrl), streams := platform.streams - Tokens(streamRef));
      streamRef := None;
      state := InitialState;
    }

    /** The cleanup returned by the effect: clear the interval in the ref (the ref keeps its
        value), revoke the captured URL, stop the tracks of the stream in the ref. */
    method Cleanup(captured: Option<Token>)
      requires Valid()
      modifies this`platform
      ensures Valid()
      ensures platform == old(platform).(intervals := old(platform.intervals) - Tokens(timerInterval),
                                         urls := old(platform.urls) - Tokens(captured),
                                         streams := old(platform.streams) - Tokens(streamRef))
    {
      platform := platform.(intervals := platform.intervals - Tokens(timerInterval),
                            urls := platform.urls - Tokens(captured),
                            streams := platform.streams - Tokens(streamRef));
    }

    /**
     * The effect keyed on `audioUrl`, after a render: when the URL differs from the one the
     * mounted run captured, that run's cleanup executes and a new run captures the current URL.
     */
    method RunUrlEffect()
      requires Valid()
      modifies this`effectUrl, this`platform
      ensures Valid()
      ensures effectUrl == state.audioUrl
      ensures old(effectUrl) == state.audioUrl ==> platform == old(platform)
      ensures old(effectUrl) != state.audioUrl ==>
                platform == old(platform).(intervals := old(platform.intervals) - Tokens(timerInterval),
                                           urls := old(platform.urls) - Tokens(old(effectUrl)),
                                           streams := old(platform.streams) - Tokens(streamRef))
      ensures old(OwnsResources()) ==> Settled()
    {
      if effectUrl != state.audioUrl {
        Cleanup(effectUrl);
        effectUrl := state.audioUrl;
      }
    }

    /** Unmount: the mounted run's cleanup executes with the URL it captured. */
    method Unmount()
      requires Valid()
      modifies this`platform
      ensures Valid()
      ensures platform == old(platform).(intervals := old(platform.intervals) - Tokens(timerInterval),
                                         urls := old(platform.urls) - Tokens(effectUrl),
                                         streams := old(platform.streams) - Tokens(streamRef))
      ensures old(Settled()) ==> Quiescent()
    {
      Cleanup(effectUrl);
    }
  }
}
