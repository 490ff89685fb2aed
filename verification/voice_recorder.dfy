/** The voice-note recorder: the `m:ss` display, and the recording state machine
    (start, a one-second interval, stop, reset, save). The microphone, the
    media recorder and blob URLs are outside the model: their outcomes are
    parameters. */
module VoiceRecorder {
  import opened Common
  import Grouping

  predicate AllDigits(s: string) {
    forall i :: 0 <= i < |s| ==> Grouping.IsDigit(s[i])
  }

  /** `formatTime`: whole minutes, unpadded, a colon, then the seconds within
      the minute as exactly two digits. */
  function FormatTime(seconds: nat): (r: string)
    ensures |r| >= 4 && r[|r| - 3] == ':'
    ensures r[..|r| - 3] == Grouping.Decimal(seconds / 60)
    ensures AllDigits(r[|r| - 2..]) && Grouping.DigitsValue(r[|r| - 2..]) == seconds % 60
  {
    var secs := seconds % 60;
    var tail := (if secs < 10 then "0" else "") + Grouping.Decimal(secs);
    TwoDigits(secs, tail);
    var r := Grouping.Decimal(seconds / 60) + ":" + tail;
    assert r[|r| - 2..] == tail;
    assert r[..|r| - 3] == Grouping.Decimal(seconds / 60);
    r
  }

  lemma {:induction false} TwoDigits(secs: nat, tail: string)
    requires secs < 60 && tail == (if secs < 10 then "0" else "") + Grouping.Decimal(secs)
    ensures |tail| == 2 && AllDigits(tail) && Grouping.DigitsValue(tail) == secs
  {
    var d := Grouping.Decimal(secs);
    if secs < 10 {
      assert d == [Grouping.DigitChar(secs)];
      assert tail[..1] == "0";
      assert Grouping.DigitsValue("0") == 0;
    } else {
      assert Grouping.Decimal(secs / 10) == [Grouping.DigitChar(secs / 10)];
    }
  }

  /** Reading an `m:ss` display back into seconds. */
  function ParseTime(t: string): Option<nat>
  {
    if |t| >= 4 && t[|t| - 3] == ':' && AllDigits(t[..|t| - 3]) && AllDigits(t[|t| - 2..])
       && Grouping.DigitsValue(t[|t| - 2..]) < 60
    then Some(Grouping.DigitsValue(t[..|t| - 3]) * 60 + Grouping.DigitsValue(t[|t| - 2..]))
    else None
  }

  /** The display reads back as the number of seconds it was made from. */
  lemma {:induction false} ParseFormat(seconds: nat)
    ensures ParseTime(FormatTime(seconds)) == Some(seconds)
  {
    var r := FormatTime(seconds);
    assert Grouping.DigitsValue(r[..|r| - 3]) == seconds / 60;
  }

  /** Distinct durations are displayed differently. */
  lemma {:induction false} FormatInjective(a: nat, b: nat)
    requires FormatTime(a) == FormatTime(b)
    ensures a == b
  {
    ParseFormat(a);
    ParseFormat(b);
  }

  /** The one-second interval started by a recording: whether it is still
      scheduled, the closure's own seconds counter, and the `isRecording`
      value the closure captured when the recording started. */
  datatype Interval = Interval(active: bool, seconds: nat, sawRecording: bool)

  datatype RecState = RecState(hasRecorder: bool, recording: bool, time: nat, timer: Interval)

  /** Starting: the recorder exists, recording is on and a fresh interval runs
      whose closure saw the `isRecording` of the render it was created in. The
      displayed time is not reset. */
  function Started(s: RecState): RecState {
    RecState(true, true, s.time, Interval(true, 0, s.recording))
  }

  /** `stopRecording` as evaluated with a given `isRecording`: acts only when a
      recorder exists and that flag is set, and then also cancels the interval. */
  function Stopped(s: RecState, isRecording: bool): (r: RecState)
    ensures s.hasRecorder && isRecording ==> !r.recording && !r.timer.active && r.time == s.time
    ensures !(s.hasRecorder && isRecording) ==> r == s
  {
    if s.hasRecorder && isRecording then s.(recording := false, timer := s.timer.(active := false)) else s
  }

  /** One interval tick AS WRITTEN: the counter advances and is displayed, and
      at 60 the stop is requested through the `isRecording` the closure
      captured at start, which is `false`. */
  function TickAsWritten(s: RecState): RecState {
    if !s.timer.active then s
    else
      var n := s.timer.seconds + 1;
      var s1 := s.(time := n, timer := s.timer.(seconds := n));
      if n >= 60 then Stopped(s1, s.timer.sawRecording) else s1
  }

  /** One interval tick as intended: the stop at 60 sees the current state. */
  function Tick(s: RecState): RecState {
    if !s.timer.active then s
    else
      var n := s.timer.seconds + 1;
      var s1 := s.(time := n, timer := s.timer.(seconds := n));
      if n >= 60 then Stopped(s1, s1.recording) else s1
  }

  function RunAsWritten(s: RecState, k: nat): RecState
    decreases k
  {
    if k == 0 then s else RunAsWritten(TickAsWritten(s), k - 1)
  }

  function Run(s: RecState, k: nat): RecState
    decreases k
  {
    if k == 0 then s else Run(Tick(s), k - 1)
  }

  /** As written, a recording started from the idle screen is never stopped by
      the timer: after `k` ticks it is still recording and shows `k` seconds,
      61 and beyond included. */
  lemma {:induction false} StaleClosureNeverStops(s: RecState, k: nat)
    requires !s.recording
    ensures var r := RunAsWritten(Started(s), k);
      r.recording && r.timer.active && (k > 0 ==> r.time == k)
  {
    StaleClosureKeepsRunning(true, s.time, 0, k);
  }

  lemma {:induction false} StaleClosureKeepsRunning(rec: bool, t: nat, j: nat, k: nat)
    ensures var r := RunAsWritten(RecState(true, rec, t, Interval(true, j, false)), k);
      r.recording == rec && r.timer.active && r.timer.seconds == j + k && (k > 0 ==> r.time == j + k)
    decreases k
  {
    if k > 0 {
      StaleClosureKeepsRunning(rec, j + 1, j + 1, k - 1);
    }
  }

  lemma {:induction false} IdleUnchanged(s: RecState, k: nat)
    requires !s.timer.active
    ensures Run(s, k) == s
    decreases k
  {
    if k > 0 { IdleUnchanged(s, k - 1); }
  }

  /** With the intended stop, a recording lasts at most 60 seconds: after `k`
      ticks the display shows `min(k, 60)`, and recording and the interval end
      exactly at the 60th tick. */
  lemma {:induction false} RecordingCappedAt60(s: RecState, k: nat)
    ensures var r := Run(Started(s), k);
      (k > 0 ==> r.time == Min(k, 60))
      && (r.recording <==> k < 60) && (r.timer.active <==> k < 60)
  {
    CapFrom(s.recording, s.time, 0, k);
  }

  lemma {:induction false} CapFrom(b: bool, t: nat, j: nat, k: nat)
    requires j < 60
    ensures var r := Run(RecState(true, true, t, Interval(true, j, b)), k);
      (k > 0 ==> r.time == Min(j + k, 60))
      && (r.recording <==> j + k < 60) && (r.timer.active <==> j + k < 60)
    decreases k
  {
    var s := RecState(true, true, t, Interval(true, j, b));
    if k > 0 {
      if j + 1 < 60 {
        CapFrom(b, j + 1, j + 1, k - 1);
      } else {
        IdleUnchanged(Tick(s), k - 1);
      }
    }
  }

  /** What the recorder hands to the caller on save; `url` is `None` when the
      upload answer carries no `file_url`. */
  datatype VoiceNote = VoiceNote(kind: string, url: Option<string>, duration: nat)

  class Recorder {
    var hasRecorder: bool
    var isRecording: bool
    var recordingTime: nat
    var timer: Interval
    var chunks: seq<string>
    var audioUrl: Option<string>
    /** The chunks the current audio URL was made from. */
    var audioChunks: seq<string>
    var alerts: nat
    var saved: seq<VoiceNote>

    function State(): RecState
      reads this
    {
      RecState(hasRecorder, isRecording, recordingTime, timer)
    }

    constructor ()
      ensures State() == RecState(false, false, 0, Interval(false, 0, false))
      ensures chunks == [] && audioUrl == None && audioChunks == [] && alerts == 0 && saved == []
    {
      hasRecorder, isRecording, recordingTime := false, false, 0;
      timer := Interval(false, 0, false);
      chunks, audioUrl, audioChunks, alerts, saved := [], None, [], 0, [];
    }

    /** The chunk buffer is emptied first, whether or not the microphone opens. */
    method StartRecording(micOk: bool)
      modifies this
      ensures chunks == []
      ensures micOk ==> State() == Started(old(State())) && alerts == old(alerts)
      ensures !micOk ==> State() == old(State()) && alerts == old(alerts) + 1
      ensures audioUrl == old(audioUrl) && saved == old(saved)
    {
      chunks := [];
      if !micOk {
        alerts := alerts + 1;
        return;
      }
      timer := Interval(true, 0, isRecording);
      hasRecorder, isRecording := true, true;
    }

    /** The recorder's `dataavailable` event. */
    method DataAvailable(chunk: string)
      modifies this
      ensures hasRecorder ==> chunks == old(chunks) + [chunk]
      ensures !hasRecorder ==> chunks == old(chunks)
      ensures State() == old(State()) && audioUrl == old(audioUrl)
    {
      if hasRecorder {
        chunks := chunks + [chunk];
      }
    }

    /** The stop button: a no-op unless recording; otherwise recording ends and
        the interval is cleared. */
    method StopRecording()
      modifies this
      ensures State() == Stopped(old(State()), old(isRecording))
      ensures chunks == old(chunks) && audioUrl == old(audioUrl)
    {
      if hasRecorder && isRecording {
        isRecording := false;
        timer := timer.(active := false);
      }
    }

    method TimerTick()
      modifies this
      ensures State() == Tick(old(State()))
      ensures chunks == old(chunks) && audioUrl == old(audioUrl)
    {
      if timer.active {
        var n := timer.seconds + 1;
        timer := timer.(seconds := n);
        recordingTime := n;
        if n >= 60 && hasRecorder && isRecording {
          isRecording := false;
          timer := timer.(active := false);
        }
      }
    }

    /** The recorder's `stop` event: the buffered chunks become the playable audio. */
    method RecorderStopped(url: string)
      modifies this
      ensures audioUrl == Some(url) && audioChunks == old(chunks)
      ensures State() == old(State()) && chunks == old(chunks)
    {
      audioUrl := Some(url);
      audioChunks := chunks;
    }

    method ResetRecording()
      modifies this
      ensures audioUrl == None && recordingTime == 0
      ensures isRecording == old(isRecording) && timer == old(timer) && chunks == old(chunks)
    {
      audioUrl := None;
      recordingTime := 0;
    }

    /** Saving: nothing without audio; a failed upload alerts; otherwise a
        voice note with the uploaded URL and the displayed duration. The
        upload's answer is `None` when it names no `file_url`, and the note is
        handed over then too, without a URL. */
    method HandleSave(upload: Result<Option<string>>)
      modifies this
      ensures old(audioUrl).None? ==> saved == old(saved) && alerts == old(alerts)
      ensures old(audioUrl).Some? && upload.Err? ==> saved == old(saved) && alerts == old(alerts) + 1
      ensures old(audioUrl).Some? && upload.Ok? ==>
        saved == old(saved) + [VoiceNote("voice", upload.value, recordingTime)] && alerts == old(alerts)
      ensures State() == old(State()) && audioUrl == old(audioUrl)
    {
      if audioUrl.None? { return; }
      if upload.Err? {
        alerts := alerts + 1;
        return;
      }
      saved := saved + [VoiceNote("voice", upload.value, recordingTime)];
    }
  }
}
