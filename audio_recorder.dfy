/**
 * The in-process capture state machine of `AudioRecorder`: two flags, `recording` and
 * `paused`, and the growing buffer of captured chunks. The capture thread and the input
 * stream are not modelled; the stream's callback is the explicit method `AudioCallback`,
 * and a failure inside the capture thread is the explicit method `CaptureFailed`.
 */
module AudioCapture {
  import opened Wrappers

  /** One captured sample frame: one value per channel. */
  type Frame = seq<real>

  /** One block handed to the stream callback: a run of frames. */
  type Chunk = seq<Frame>

  /** The number of frames across all chunks. */
  function TotalFrames(chunks: seq<Chunk>): nat {
    if chunks == [] then 0 else |chunks[0]| + TotalFrames(chunks[1..])
  }

  /** The chunks joined end to end (`np.concatenate(..., axis=0)`). */
  function Concat(chunks: seq<Chunk>): seq<Frame> {
    if chunks == [] then [] else chunks[0] + Concat(chunks[1..])
  }

  lemma {:induction false} TotalFramesAppend(chunks: seq<Chunk>, c: Chunk)
    ensures TotalFrames(chunks + [c]) == TotalFrames(chunks) + |c|
  {
    if chunks != [] {
      assert (chunks + [c])[1..] == chunks[1..] + [c];
      TotalFramesAppend(chunks[1..], c);
    }
  }

  /** The joined audio has as many frames as the chunks hold together. */
  lemma {:induction false} ConcatLength(chunks: seq<Chunk>)
    ensures |Concat(chunks)| == TotalFrames(chunks)
  {
    if chunks != [] {
      ConcatLength(chunks[1..]);
    }
  }

  /** What a successful save writes: 16-bit frames at the recorder's rate and channel count. */
  datatype WavFile = WavFile(path: string, channels: int, sampleWidth: int, frameRate: int, frames: seq<Frame>)

  class AudioRecorder {
    const sampleRate: int
    const channels: int
    var recording: bool
    var paused: bool
    var audioData: seq<Chunk>

    /** `AudioRecorder(sample_rate, channels)`: idle, not paused, empty buffer. */
    constructor (sampleRate: int, channels: int)
      ensures this.sampleRate == sampleRate && this.channels == channels
      ensures !recording && !paused && audioData == []
    {
      this.sampleRate := sampleRate;
      this.channels := channels;
      recording := false;
      paused := false;
      audioData := [];
    }

    /** `start_recording`: a no-op while recording; otherwise recording starts on an empty buffer. */
    method StartRecording()
      modifies this
      ensures old(recording) ==> recording && paused == old(paused) && audioData == old(audioData)
      ensures !old(recording) ==> recording && paused == old(paused) && audioData == []
    {
      if recording {
        return;
      }
      recording := true;
      audioData := [];
    }

    /** `stop_recording`: a no-op when idle; otherwise both flags drop and the buffer is kept. */
    method StopRecording()
      modifies this
      ensures !old(recording) ==> !recording && paused == old(paused) && audioData == old(audioData)
      ensures old(recording) ==> !recording && !paused && audioData == old(audioData)
    {
      if !recording {
        return;
      }
      recording := false;
      paused := false;
    }

    /** `pause_recording`: pauses only a running, unpaused recording. */
    method PauseRecording()
      modifies this
      ensures recording == old(recording) && audioData == old(audioData)
      ensures paused == (old(paused) || old(recording))
    {
      if !recording {
        return;
      }
      if paused {
        return;
      }
      paused := true;
    }

    /** `resume_recording`: resumes only a running, paused recording. */
    method ResumeRecording()
      modifies this
      ensures recording == old(recording) && audioData == old(audioData)
      ensures paused == (old(paused) && !old(recording))
    {
      if !recording {
        return;
      }
      if !paused {
        return;
      }
      paused := false;
    }

    method IsPaused() returns (p: bool)
      ensures p == paused
    {
      p := paused;
    }

    method IsRecording() returns (r: bool)
      ensures r == recording
    {
      r := recording;
    }

    /** The capture thread's exception handler: the stream failed, so recording ends. */
    method CaptureFailed()
      modifies this
      ensures !recording && paused == old(paused) && audioData == old(audioData)
    {
      recording := false;
    }

    /** `_audio_callback`: one chunk is kept exactly when recording and not paused. */
    method AudioCallback(chunk: Chunk)
      modifies this
      ensures recording == old(recording) && paused == old(paused)
      ensures audioData == if old(recording) && !old(paused) then old(audioData) + [chunk] else old(audioData)
    {
      var p := IsPaused();
      if recording && !p {
        audioData := audioData + [chunk];
      }
    }

    /**
     * `save_recording(filepath)`. `writeOk` says whether creating the directory and writing the
     * WAV file succeed. An empty buffer, or a failed write, returns False and changes nothing;
     * a successful write empties the buffer and ends recording, leaving `paused` as it was.
     */
    method SaveRecording(path: string, writeOk: bool) returns (ok: bool, wav: Option<WavFile>)
      modifies this
      ensures ok <==> old(audioData) != [] && writeOk
      ensures ok ==> wav == Some(WavFile(path, channels, 2, sampleRate, Concat(old(audioData))))
      ensures !ok ==> wav.None? && recording == old(recording) && audioData == old(audioData)
      ensures ok ==> !recording && audioData == []
      ensures paused == old(paused)
    {
      if audioData == [] {
        return false, None;
      }
      var frames := Concat(audioData);
      if !writeOk {
        return false, None;
      }
      wav := Some(WavFile(path, channels, 2, sampleRate, frames));
      audioData := [];
      recording := false;
      ok := true;
    }

    /**
     * `get_recording_duration`: 0 for an empty buffer, otherwise the number of captured frames
     * over the sample rate. A zero sample rate with a non-empty buffer raises
     * `ZeroDivisionError` in the source and gives `None` here.
     */
    method GetRecordingDuration() returns (d: Option<real>)
      ensures audioData == [] ==> d == Some(0.0)
      ensures audioData != [] && sampleRate == 0 ==> d.None?
      ensures audioData != [] && sampleRate != 0 ==> d == Some(TotalFrames(audioData) as real / sampleRate as real)
    {
      if audioData == [] {
        return Some(0.0);
      }
      var total := 0;
      var i := 0;
      while i < |audioData|
        invariant 0 <= i <= |audioData|
        invariant total == TotalFrames(audioData[..i])
      {
        TotalFramesAppend(audioData[..i], audioData[i]);
        assert audioData[..i + 1] == audioData[..i] + [audioData[i]];
        total := total + |audioData[i]|;
        i := i + 1;
      }
      assert audioData[..i] == audioData;
      if sampleRate == 0 {
        return None;
      }
      d := Some(total as real / sampleRate as real);
    }
  }
}
