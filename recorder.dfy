/**
 * `SimpleRecorder` and the command-line flow around it: the recorder session state persisted
 * between command invocations, the recording file name, the duration bucketing and summary
 * mapping of the processing pipeline, the once-only guard of the `start` command's signal
 * handler, the `stop` command's fallback and the projection `list_meetings` prints.
 *
 * The state file is an in-memory `Option<Fields>`: `None` when the file is missing or does
 * not parse. Clocks, file sizes, the WAV header, the transcriber and the summariser are
 * parameters.
 */
module Recorder {
  import opened Wrappers
  import opened Strings
  import opened Json
  import opened Models
  import opened AudioCapture
  import opened Seqs

  /** What `get_state` returns when there is no usable state file. */
  function DefaultState(): Fields {
    [("recording", JBool(false)), ("current_file", JNull), ("session_name", JNull)]
  }

  /** `state.get(key)` used as a condition. */
  predicate Flag(state: Fields, key: string) {
    Truthy(GetOr(state, key, JNull))
  }

  /** `str(directory / name)`. */
  function JoinPath(dir: string, name: string): string {
    dir + "/" + name
  }

  /** The characters the session-name sanitiser keeps. */
  predicate SafeChar(c: char) {
    IsAlnum(c) || c == ' ' || c == '-' || c == '_'
  }

  predicate AllSafe(s: string) {
    forall i :: 0 <= i < |s| ==> SafeChar(s[i])
  }

  /** The generator expression of the sanitiser: the safe characters of `s`, in order. */
  function KeepSafe(s: string): (r: string)
    ensures AllSafe(r) && |r| <= |s|
    ensures AllSafe(s) ==> r == s
  {
    if s == [] then []
    else if SafeChar(s[0]) then [s[0]] + KeepSafe(s[1..])
    else KeepSafe(s[1..])
  }

  /** Every safe character is kept as often as it occurs, and no other character is. */
  lemma {:induction false} KeepSafeCounts(s: string)
    ensures forall c :: SafeChar(c) ==> multiset(KeepSafe(s))[c] == multiset(s)[c]
    ensures forall c :: !SafeChar(c) ==> multiset(KeepSafe(s))[c] == 0
    decreases |s|
  {
    if s != [] {
      assert s == [s[0]] + s[1..];
      KeepSafeCounts(s[1..]);
    }
  }

  /** One character is kept exactly when it is safe. */
  lemma KeepSafeOne(c: char)
    ensures KeepSafe([c]) == if SafeChar(c) then [c] else []
  {
    assert [c][1..] == [];
  }

  /** The sanitiser works character by character: it distributes over concatenation. */
  lemma {:induction false} KeepSafeConcat(a: string, b: string)
    ensures KeepSafe(a + b) == KeepSafe(a) + KeepSafe(b)
    decreases |a|
  {
    if a != [] {
      assert (a + b)[0] == a[0] && (a + b)[1..] == a[1..] + b;
      KeepSafeConcat(a[1..], b);
    } else {
      assert a + b == b;
    }
  }

  /** The sanitised session name: the safe characters, in order, then stripped. */
  function SafeName(sessionName: string): (r: string)
    ensures r == Strip(KeepSafe(sessionName))
    ensures AllSafe(r) && NoSpaceAtEnds(r)
    ensures |r| <= |sessionName|
  {
    var kept := KeepSafe(sessionName);
    var r := Strip(kept);
    StripIsSlice(kept);
    r
  }

  /** A name is its own sanitised form exactly when it is already safe and stripped. */
  lemma SafeNameFixedPoints(s: string)
    ensures SafeName(s) == s <==> AllSafe(s) && NoSpaceAtEnds(s)
  {
    if AllSafe(s) && NoSpaceAtEnds(s) {
      StripKeeps(s);
    }
  }

  /** Sanitising twice is sanitising once. */
  lemma SafeNameIdempotent(s: string)
    ensures SafeName(SafeName(s)) == SafeName(s)
  {
    SafeNameFixedPoints(SafeName(s));
  }

  /** `f"{timestamp}_{safe_name}.wav"`. */
  function RecordingFileName(timestamp: string, sessionName: string): string {
    timestamp + "_" + SafeName(sessionName) + ".wav"
  }

  /** The state `start_recording` saves. */
  function StartedState(path: string, sessionName: string, now: string): Fields {
    [("recording", JBool(true)), ("current_file", JStr(path)), ("session_name", JStr(sessionName)), ("start_time", JStr(now))]
  }

  /** The state `stop_recording` saves: always idle, with `last_recording` only for a saved file. */
  function StoppedState(now: string, last: Option<string>): Fields {
    [("recording", JBool(false)), ("current_file", JNull), ("session_name", JNull), ("stop_time", JStr(now))]
      + (if last.Some? then [("last_recording", JStr(last.value))] else [])
  }

  /** Reading back a started state. */
  lemma StartedStateFields(path: string, sessionName: string, now: string)
    ensures var s := StartedState(path, sessionName, now);
      Flag(s, "recording") && Get(s, "current_file") == Some(JStr(path)) &&
      Get(s, "session_name") == Some(JStr(sessionName))
  {
    var s := StartedState(path, sessionName, now);
    GetFirst(s, 1);
    GetFirst(s, 2);
  }

  /**
   * Reading back a stopped state: not recording, no current file or session name, and
   * `last_recording` present exactly when a file was saved.
   */
  lemma StoppedStateFields(now: string, last: Option<string>)
    ensures var s := StoppedState(now, last);
      !Flag(s, "recording") && Get(s, "current_file") == Some(JNull) && Get(s, "session_name") == Some(JNull) &&
      Get(s, "last_recording") == (if last.Some? then Some(JStr(last.value)) else None) &&
      Get(s, "start_time").None?
  {
    var s := StoppedState(now, last);
    GetFirst(s, 1);
    GetFirst(s, 2);
    assert Keys(s) == if last.Some? then ["recording", "current_file", "session_name", "stop_time", "last_recording"]
                      else ["recording", "current_file", "session_name", "stop_time"];
    if last.Some? {
      GetFirst(s, 4);
    } else {
      GetSpec(s, "last_recording");
    }
    GetSpec(s, "start_time");
  }

  /** The WAV header fields `process_recording` reads. */
  datatype WavHeader = WavHeader(frameRate: nat, numFrames: nat)

  /**
   * Whole minutes of a WAV file: 0 under a minute, otherwise the floor of the minutes. The
   * two branches of the source agree, so this is the floor of seconds over sixty.
   */
  function WavMinutes(numFrames: nat, frameRate: nat): (m: nat)
    requires frameRate > 0
    ensures numFrames < 60 * frameRate ==> m == 0
    ensures m * (60 * frameRate) <= numFrames < (m + 1) * (60 * frameRate)
  {
    if numFrames < 60 * frameRate then 0 else numFrames / (60 * frameRate)
  }

  /** `int(a / b)` for a positive divisor: division truncated toward zero. */
  function TruncDiv(a: int, b: int): (q: int)
    requires b > 0
    ensures a >= 0 ==> q * b <= a < (q + 1) * b
    ensures a < 0 ==> (q - 1) * b < a <= q * b
  {
    if a >= 0 then a / b else -((-a) / b)
  }

  /** Minutes from the state timestamps: at least one, otherwise the truncated minutes. */
  function TimestampMinutes(seconds: int): (m: int)
    ensures m >= 1
    ensures seconds < 120 ==> m == 1
    ensures seconds >= 60 ==> m * 60 <= seconds < (m + 1) * 60
  {
    var q := TruncDiv(seconds, 60);
    if q > 1 then q else 1
  }

  /** `duration_minutes` and, when it was computed, `duration_seconds` truncated to an integer. */
  datatype Duration = Duration(minutes: int, seconds: Option<int>)

  /** The minutes `process_recording` passes on when neither the WAV file nor the state helps. */
  const DefaultMinutes := 10

  /** The WAV branch succeeds: the file opened and its frame rate is not zero. */
  predicate WavUsable(wav: Option<WavHeader>) {
    wav.Some? && wav.value.frameRate > 0
  }

  /**
   * The timestamp fallback succeeds: `start_time` and `stop_time` are both truthy, both
   * strings (`parse` raises on anything else), and `elapsed` reads them.
   */
  predicate StampsUsable(state: Fields, elapsed: (string, string) -> Option<int>) {
    var start := GetOr(state, "start_time", JNull);
    var stop := GetOr(state, "stop_time", JNull);
    Truthy(start) && Truthy(stop) && start.JStr? && stop.JStr? && elapsed(start.s, stop.s).Some?
  }

  /**
   * The duration of a recording: from the WAV header when it opens and has a non-zero rate,
   * otherwise from the `start_time`/`stop_time` strings of the state through `elapsed` (which
   * parses two timestamps and gives the whole seconds between them), otherwise ten minutes.
   */
  function RecordingDuration(wav: Option<WavHeader>, state: Fields, elapsed: (string, string) -> Option<int>): (d: Duration)
    ensures WavUsable(wav) ==>
      d == Duration(WavMinutes(wav.value.numFrames, wav.value.frameRate), Some(wav.value.numFrames / wav.value.frameRate))
    ensures !WavUsable(wav) && StampsUsable(state, elapsed) ==>
      var seconds := elapsed(GetOr(state, "start_time", JNull).s, GetOr(state, "stop_time", JNull).s).value;
      d == Duration(TimestampMinutes(seconds), Some(seconds))
    ensures !WavUsable(wav) && !StampsUsable(state, elapsed) ==> d == Duration(DefaultMinutes, None)
    ensures d.seconds.None? ==> d.minutes == DefaultMinutes
    ensures d.minutes >= 0
  {
    if wav.Some? && wav.value.frameRate > 0 then
      Duration(WavMinutes(wav.value.numFrames, wav.value.frameRate), Some(wav.value.numFrames / wav.value.frameRate))
    else
      match (Get(state, "start_time"), Get(state, "stop_time"))
      case (Some(JStr(start)), Some(JStr(stop))) =>
        if start != "" && stop != "" && elapsed(start, stop).Some? then
          var seconds := elapsed(start, stop).value;
          Duration(TimestampMinutes(seconds), Some(seconds))
        else Duration(DefaultMinutes, None)
      case _ => Duration(DefaultMinutes, None)
  }

  /**
   * After a normal stop the state carries `stop_time` but no `start_time`, so a WAV file that
   * cannot be read always gives the ten-minute default.
   */
  lemma DurationAfterStopIsDefault(now: string, last: Option<string>, elapsed: (string, string) -> Option<int>)
    ensures RecordingDuration(None, StoppedState(now, last), elapsed) == Duration(DefaultMinutes, None)
  {
    StoppedStateFields(now, last);
  }

  function DecisionTexts(ds: seq<Decision>): (r: seq<string>)
    ensures |r| == |ds| && forall i :: 0 <= i < |ds| ==> r[i] == ds[i].decision
  {
    seq(|ds|, i requires 0 <= i < |ds| => ds[i].decision)
  }

  function ActionTexts(xs: seq<ActionItem>): (r: seq<string>)
    ensures |r| == |xs| && forall i :: 0 <= i < |xs| ==> r[i] == xs[i].description
  {
    seq(|xs|, i requires 0 <= i < |xs| => xs[i].description)
  }

  /**
   * `SimpleRecorder.summarize_transcript`: the summary dict built from the summariser's result.
   * A missing result gives a dict without `participants`.
   */
  function SummaryData(summary: Option<MeetingTranscript>): (d: Fields)
    ensures "participants" in Keys(d) <==> summary.Some?
    ensures Keys(d) == if summary.Some? then ["summary", "participants", "key_points", "action_items"]
                       else ["summary", "key_points", "action_items"]
  {
    match summary
    case None => [("summary", JStr("Failed to generate summary")), ("key_points", JArr([])), ("action_items", JArr([]))]
    case Some(m) =>
      [ ("summary", JStr(m.overview)),
        ("participants", StrsToJson(m.participants)),
        ("key_points", StrsToJson(DecisionTexts(m.keyDecisions))),
        ("action_items", StrsToJson(ActionTexts(m.keyActions))) ]
  }

  /** A summary's key points are its decisions' texts and its action items its actions' descriptions, in order. */
  lemma SummaryDataContents(m: MeetingTranscript)
    ensures var d := SummaryData(Some(m));
      Get(d, "summary") == Some(JStr(m.overview)) &&
      Get(d, "participants") == Some(StrsToJson(m.participants)) &&
      Get(d, "key_points").Some? && StrList(Get(d, "key_points").value) == Some(DecisionTexts(m.keyDecisions)) &&
      Get(d, "action_items").Some? && StrList(Get(d, "action_items").value) == Some(ActionTexts(m.keyActions))
  {
    var d := SummaryData(Some(m));
    GetFirst(d, 1);
    GetFirst(d, 2);
    GetFirst(d, 3);
    StrListRoundTrip(DecisionTexts(m.keyDecisions));
    StrListRoundTrip(ActionTexts(m.keyActions));
  }

  /** `Path(p).name`: the text after the last `/`. */
  function BaseName(path: string): (r: string)
    ensures '/' !in r
  {
    path[RFind(path, '/') + 1..]
  }

  /** `Path(p).stem`: the last path component without its last suffix. */
  function Stem(path: string): (r: string)
    ensures '/' !in r
  {
    var name := BaseName(path);
    var dot := RFind(name, '.');
    if 0 < dot < |name| - 1 then
      assert forall c :: c in name[..dot] ==> c in name;
      name[..dot]
    else name
  }

  /** The audio file a processing run works on: the argument, or the state's `last_recording`. */
  function ResolveAudioFile(audioFile: string, state: Fields): (r: Result<string, string>)
    ensures audioFile != "" ==> r == Ok(audioFile)
    ensures audioFile == "" ==> (r.Ok? <==> Flag(state, "last_recording"))
  {
    if audioFile != "" then Ok(audioFile)
    else
      var last := GetOr(state, "last_recording", JNull);
      if !Truthy(last) then Err("No audio file specified and no recent recording found")
      else Ok(PyStr(last))
  }

  function OptIntToJson(o: Option<int>): Json {
    match o
    case None => JNull
    case Some(n) => JNum(n)
  }

  /** The dict `process_recording` writes to the summary file and returns. */
  function CompleteData(sessionName: string, audioFile: string, transcriptFile: string, summaryFile: string,
                        processedAt: string, duration: Duration, summary: Fields, transcript: string): Fields
    requires "participants" in Keys(summary)
  {
    GetSpec(summary, "participants");
    [ ("session_info", JObj([ ("name", JStr(sessionName)),
                              ("audio_file", JStr(audioFile)),
                              ("transcript_file", JStr(transcriptFile)),
                              ("summary_file", JStr(summaryFile)),
                              ("processed_at", JStr(processedAt)),
                              ("duration_seconds", OptIntToJson(duration.seconds)),
                              ("duration_minutes", JNum(duration.minutes)) ])),
      ("summary", GetOr(summary, "summary", JNull)),
      ("participants", Get(summary, "participants").value),
      ("key_points", GetOr(summary, "key_points", JNull)),
      ("action_items", GetOr(summary, "action_items", JNull)),
      ("transcript", JStr(transcript)) ]
  }

  /** The keys `list_meetings` keeps, with the value each takes when absent. */
  function EssentialKeys(): seq<(string, Json)> {
    [ ("session_info", JObj([])), ("summary", JStr("")), ("participants", JArr([])),
      ("key_points", JArr([])), ("action_items", JArr([])), ("transcript", JStr("")) ]
  }

  /** The essential fields of one summary, each read with its default. */
  function Essential(data: Fields): (e: Fields)
    ensures |e| == |EssentialKeys()|
    ensures forall i :: 0 <= i < |e| ==> e[i] == (EssentialKeys()[i].0, GetOr(data, EssentialKeys()[i].0, EssentialKeys()[i].1))
  {
    var ks := EssentialKeys();
    seq(|ks|, i requires 0 <= i < |ks| => (ks[i].0, GetOr(data, ks[i].0, ks[i].1)))
  }

  /** Projecting an already projected summary changes nothing. */
  lemma EssentialIdempotent(data: Fields)
    ensures Essential(Essential(data)) == Essential(data)
  {
    var e := Essential(data);
    var ks := EssentialKeys();
    forall i | 0 <= i < |e|
      ensures Essential(e)[i] == e[i]
    {
      assert forall j :: 0 <= j < i ==> e[j].0 != e[i].0;
      GetFirst(e, i);
    }
  }

  /** The meeting one summary file contributes: none when it cannot be read or is not an object. */
  function MeetingOf(file: Option<Json>): (ms: seq<Json>)
    ensures |ms| <= 1
  {
    match file
    case Some(JObj(data)) => [JObj(Essential(data))]
    case _ => []
  }

  /** The meetings `list_meetings` prints, for the summary files in modification order. */
  function Essentials(files: seq<Option<Json>>): seq<Json> {
    FlatMap(files, MeetingOf)
  }

  /**
   * `list_meetings`: reads the summary files in the given order; a file that cannot be read,
   * or does not hold an object, is skipped.
   */
  method ListMeetings(files: seq<Option<Json>>) returns (meetings: seq<Json>)
    ensures meetings == Essentials(files)
  {
    meetings := [];
    var i := 0;
    while i < |files|
      invariant 0 <= i <= |files|
      invariant meetings == Essentials(files[..i])
    {
      FlatMapPrefix(files, i, MeetingOf);
      match files[i] {
        case Some(JObj(data)) =>
          meetings := meetings + [JObj(Essential(data))];
        case _ =>
      }
      i := i + 1;
    }
    assert files[..i] == files;
  }

  /** The projection of a summary has the six essential keys, in order. */
  lemma EssentialShape(data: Fields)
    ensures Keys(Essential(data)) == ["session_info", "summary", "participants", "key_points", "action_items", "transcript"]
  {
    var ks, names := Keys(Essential(data)), EssentialKeys();
    assert |ks| == 6;
    assert ks[0] == names[0].0 == "session_info" && ks[1] == names[1].0 == "summary";
    assert ks[2] == names[2].0 == "participants" && ks[3] == names[3].0 == "key_points";
    assert ks[4] == names[4].0 == "action_items" && ks[5] == names[5].0 == "transcript";
  }

  /** Every listed meeting has exactly the six essential keys, in order. */
  lemma {:induction false} EssentialsShape(files: seq<Option<Json>>, k: int)
    requires 0 <= k < |Essentials(files)|
    ensures Essentials(files)[k].JObj? && Keys(Essentials(files)[k].fields) ==
      ["session_info", "summary", "participants", "key_points", "action_items", "transcript"]
    decreases |files|
  {
    var init := files[..|files| - 1];
    if k < |Essentials(init)| {
      EssentialsShape(init, k);
    } else {
      match files[|files| - 1]
      case Some(JObj(data)) => EssentialShape(data);
      case _ =>
    }
  }

  /** The id one `pgrep` line names: none for a blank line or one that is not an integer. */
  function PidTarget(line: string): (p: seq<int>)
    ensures |p| <= 1
  {
    var t := Strip(line);
    if t == "" then []
    else
      match ParseInt(t)
      case Some(p) => [p]
      case None => []
  }

  /** The `pgrep` output lines that name a process, as the integers the `stop` command signals. */
  function PidTargets(lines: seq<string>): seq<int> {
    FlatMap(lines, PidTarget)
  }

  /** The decimal form of an id is a non-blank line that parses back to the id. */
  lemma PidLine(p: int)
    ensures Strip(IntToString(p)) == IntToString(p) != ""
    ensures ParseInt(IntToString(p)) == Some(p)
  {
    var t := IntToString(p);
    var digits := NatToString(if p < 0 then -p else p);
    assert t == (if p < 0 then "-" else "") + digits;
    assert t[|t| - 1] == digits[|digits| - 1];
    StripKeeps(t);
    ParseIntToString(p);
  }

  function IdLines(pids: seq<int>): (lines: seq<string>)
    ensures |lines| == |pids| && forall i :: 0 <= i < |pids| ==> lines[i] == IntToString(pids[i])
  {
    seq(|pids|, i requires 0 <= i < |pids| => IntToString(pids[i]))
  }

  /** Lines that are the decimal forms of process ids give back exactly those ids, in order. */
  lemma PidTargetsOfIds(pids: seq<int>)
    ensures PidTargets(IdLines(pids)) == pids
  {
    var lines := IdLines(pids);
    forall k | 0 <= k < |lines|
      ensures PidTarget(lines[k]) == [pids[k]]
    {
      PidLine(pids[k]);
    }
    FlatMapSingles(lines, pids, PidTarget);
  }

  /** The `stop` command's loop over `pgrep` lines: the ids it sends `SIGINT` to. */
  method SignalTargets(lines: seq<string>) returns (sent: seq<int>)
    ensures sent == PidTargets(lines)
  {
    sent := [];
    var i := 0;
    while i < |lines|
      invariant 0 <= i <= |lines|
      invariant sent == PidTargets(lines[..i])
    {
      FlatMapPrefix(lines, i, PidTarget);
      var t := Strip(lines[i]);
      if t != "" {
        var parsed := ParseInt(t);
        if parsed.Some? {
          sent := sent + [parsed.value];
        }
      }
      i := i + 1;
    }
    assert lines[..i] == lines;
  }

  datatype StopOutcome =
    | Signalled(pids: seq<int>)
    | ClearedStuckState
    | NoActiveRecording

  class SimpleRecorder {
    var stateFile: Option<Fields>
    /** The summary files in the output directory, by path. */
    var outputs: map<string, Fields>
    const audio: AudioRecorder
    const recordingsDir: string
    const transcriptsDir: string
    const outputDir: string

    constructor (recordingsDir: string, transcriptsDir: string, outputDir: string, stateFile: Option<Fields>, outputs: map<string, Fields>)
      ensures this.recordingsDir == recordingsDir && this.transcriptsDir == transcriptsDir && this.outputDir == outputDir
      ensures this.stateFile == stateFile && this.outputs == outputs
      ensures fresh(audio) && audio.sampleRate == 44100 && audio.channels == 1
      ensures !audio.recording && !audio.paused && audio.audioData == []
    {
      this.recordingsDir := recordingsDir;
      this.transcriptsDir := transcriptsDir;
      this.outputDir := outputDir;
      this.stateFile := stateFile;
      this.outputs := outputs;
      audio := new AudioRecorder(44100, 1);
    }

    /** `get_state`: the stored state, or the idle default when there is none. */
    function GetState(): (s: Fields)
      reads this
      ensures stateFile.None? ==> s == DefaultState()
      ensures stateFile.Some? ==> s == stateFile.value
    {
      match stateFile
      case None => DefaultState()
      case Some(s) => s
    }

    /**
     * `start_recording(session_name)`. While the state says a recording is active it raises and
     * changes nothing; otherwise it starts the capture and saves a recording state naming the
     * new file, whose path it returns.
     */
    method StartRecording(sessionName: string, timestamp: string, now: string) returns (r: Result<string, string>)
      modifies this, audio
      ensures Flag(old(GetState()), "recording") ==>
        r == Err("Already recording: " + PyStr(GetOr(old(GetState()), "current_file", JStr("unknown file")))) &&
        stateFile == old(stateFile) && unchanged(audio)
      ensures !Flag(old(GetState()), "recording") ==>
        r == Ok(JoinPath(recordingsDir, RecordingFileName(timestamp, sessionName))) &&
        stateFile == Some(StartedState(r.value, sessionName, now)) &&
        audio.recording &&
        audio.audioData == (if old(audio.recording) then old(audio.audioData) else [])
      ensures outputs == old(outputs)
    {
      var state := GetState();
      if Flag(state, "recording") {
        return Err("Already recording: " + PyStr(GetOr(state, "current_file", JStr("unknown file"))));
      }
      var path := JoinPath(recordingsDir, RecordingFileName(timestamp, sessionName));
      audio.StartRecording();
      stateFile := Some(StartedState(path, sessionName, now));
      r := Ok(path);
    }

    /**
     * `stop_recording`. When the state is idle it returns `None` and writes nothing. Otherwise
     * it stops the capture, saves the buffer to the planned file, and always saves an idle
     * state, naming the file as `last_recording` exactly when the save succeeded.
     */
    method StopRecording(writeOk: bool, timestamp: string, now: string) returns (r: Result<Option<string>, string>)
      modifies this, audio
      ensures !Flag(old(GetState()), "recording") ==> r == Ok(None) && stateFile == old(stateFile) && unchanged(audio)
      ensures Flag(old(GetState()), "recording") ==>
        !audio.recording && (old(audio.recording) ==> !audio.paused) &&
        match PlannedPath(old(GetState()), recordingsDir, timestamp)
        case Err(e) => r == Err(e) && stateFile == old(stateFile)
        case Ok(path) =>
          r == Ok(if old(audio.audioData) != [] && writeOk then Some(path) else None) &&
          stateFile == Some(StoppedState(now, r.value)) &&
          audio.audioData == (if r.value.Some? then [] else old(audio.audioData))
      ensures r == StopResult(old(GetState()), old(audio.audioData) != [], writeOk, recordingsDir, timestamp)
      ensures outputs == old(outputs)
    {
      var state := GetState();
      if !Flag(state, "recording") {
        return Ok(None);
      }
      audio.StopRecording();
      var planned := PlannedPath(state, recordingsDir, timestamp);
      if planned.Err? {
        return Err(planned.error);
      }
      var saved, _ := audio.SaveRecording(planned.value, writeOk);
      var last := if saved then Some(planned.value) else None;
      stateFile := Some(StoppedState(now, last));
      r := Ok(last);
    }

    /**
     * `process_recording(audio_file, session_name)`. `wav` is the header of the audio file when
     * it opens, `transcript` the transcriber's text when the file exists, `summary` the
     * summariser's result, `elapsed` the timestamp parser. A missing summary makes the
     * `participants` lookup raise before anything is written. On success the summary file is
     * written and the state file removed.
     */
    method ProcessRecording(audioFile: string, sessionName: string, wav: Option<WavHeader>,
                            elapsed: (string, string) -> Option<int>, transcript: Option<string>,
                            summary: Option<MeetingTranscript>, processedAt: string)
      returns (r: Result<Fields, string>)
      modifies this
      ensures var p := Processed(audioFile, sessionName, wav, elapsed, transcript, summary, processedAt, old(GetState()));
        (p.Err? ==> r == Err(p.error) && stateFile == old(stateFile) && outputs == old(outputs)) &&
        (p.Ok? ==> r == Ok(p.value.1) && stateFile.None? && outputs == old(outputs)[p.value.0 := p.value.1])
    {
      var p := Processed(audioFile, sessionName, wav, elapsed, transcript, summary, processedAt, GetState());
      if p.Err? {
        return Err(p.error);
      }
      outputs := outputs[p.value.0 := p.value.1];
      stateFile := None;
      r := Ok(p.value.1);
    }

    /**
     * What `process_recording` does with the state it reads: the summary path and the data
     * written there, or the error it reports. A missing summary makes the `participants`
     * lookup raise before anything is written.
     */
    function Processed(audioFile: string, sessionName: string, wav: Option<WavHeader>,
                       elapsed: (string, string) -> Option<int>, transcript: Option<string>,
                       summary: Option<MeetingTranscript>, processedAt: string, state: Fields): (r: Result<(string, Fields), string>)
      ensures ResolveAudioFile(audioFile, state).Err? ==> r == Err(ResolveAudioFile(audioFile, state).error)
      ensures ResolveAudioFile(audioFile, state).Ok? && transcript.None? ==>
        r == Err("Audio file not found: " + ResolveAudioFile(audioFile, state).value)
      ensures ResolveAudioFile(audioFile, state).Ok? && transcript.Some? && summary.None? ==>
        r == Err("KeyError: 'participants'")
      ensures r.Ok? <==> ResolveAudioFile(audioFile, state).Ok? && transcript.Some? && summary.Some?
      ensures r.Ok? ==>
        var file := ResolveAudioFile(audioFile, state).value;
        var data := SummaryData(summary);
        "participants" in Keys(data) &&
        r.value == (JoinPath(outputDir, Stem(file) + "_summary.json"),
                    CompleteData(sessionName, file, JoinPath(transcriptsDir, Stem(file) + "_transcript.txt"),
                                 JoinPath(outputDir, Stem(file) + "_summary.json"), processedAt,
                                 RecordingDuration(wav, state, elapsed), data, transcript.value))
    {
      match ResolveAudioFile(audioFile, state)
      case Err(e) => Err(e)
      case Ok(file) =>
        if transcript.None? then Err("Audio file not found: " + file)
        else
          var data := SummaryData(summary);
          if "participants" !in Keys(data) then Err("KeyError: 'participants'")
          else
            var summaryPath := JoinPath(outputDir, Stem(file) + "_summary.json");
            var transcriptFile := JoinPath(transcriptsDir, Stem(file) + "_transcript.txt");
            Ok((summaryPath, CompleteData(sessionName, file, transcriptFile, summaryPath, processedAt,
                                          RecordingDuration(wav, state, elapsed), data, transcript.value)))
    }

    /**
     * The `stop` command. When `pgrep` found recording processes, each listed id is signalled;
     * otherwise a state that still says it is recording is reset to the idle state.
     */
    method StopCommand(pgrepOk: bool, stdout: string) returns (o: StopOutcome)
      modifies this
      ensures pgrepOk && Strip(stdout) != "" ==>
        o == Signalled(PidTargets(Split(Strip(stdout), '\n'))) && stateFile == old(stateFile)
      ensures !(pgrepOk && Strip(stdout) != "") && Flag(old(GetState()), "recording") ==>
        o == ClearedStuckState && stateFile == Some(DefaultState())
      ensures !(pgrepOk && Strip(stdout) != "") && !Flag(old(GetState()), "recording") ==>
        o == NoActiveRecording && stateFile == old(stateFile)
      ensures outputs == old(outputs)
    {
      if pgrepOk && Strip(stdout) != "" {
        var sent := SignalTargets(Split(Strip(stdout), '\n'));
        return Signalled(sent);
      }
      if Flag(GetState(), "recording") {
        stateFile := Some(DefaultState());
        return ClearedStuckState;
      }
      o := NoActiveRecording;
    }

    /** The `clear_state` command: the state file is removed; the result says whether it existed. */
    method ClearState() returns (existed: bool)
      modifies this`stateFile
      ensures existed == old(stateFile).Some? && stateFile.None?
    {
      existed := stateFile.Some?;
      stateFile := None;
    }
  }

  /** The recorded file `stop_recording` saves to: the state's `current_file`, or a default name. */
  function PlannedPath(state: Fields, recordingsDir: string, timestamp: string): (r: Result<string, string>)
    ensures !Flag(state, "current_file") ==> r == Ok(JoinPath(recordingsDir, timestamp + "_recording.wav"))
    ensures Flag(state, "current_file") && GetOr(state, "current_file", JNull).JStr? ==>
      r == Ok(GetOr(state, "current_file", JNull).s)
    ensures Flag(state, "current_file") && !GetOr(state, "current_file", JNull).JStr? ==> r.Err?
    ensures r.Ok? ==> r.value != ""
  {
    var current := GetOr(state, "current_file", JNull);
    if !Truthy(current) then Ok(JoinPath(recordingsDir, timestamp + "_recording.wav"))
    else if current.JStr? then Ok(current.s)
    else Err("TypeError: expected str, bytes or os.PathLike object")
  }

  /**
   * What `stop_recording` returns for a state, whether the capture buffer held audio, and
   * whether the WAV write succeeds: `None` when idle, the `TypeError` of a bad planned path,
   * and otherwise the planned path exactly when audio was saved.
   */
  function StopResult(state: Fields, hadAudio: bool, writeOk: bool, recordingsDir: string, timestamp: string): (r: Result<Option<string>, string>)
    ensures !Flag(state, "recording") ==> r == Ok(None)
    ensures Flag(state, "recording") && PlannedPath(state, recordingsDir, timestamp).Err? ==>
      r == Err(PlannedPath(state, recordingsDir, timestamp).error)
    ensures r.Ok? && r.value.Some? <==>
      Flag(state, "recording") && PlannedPath(state, recordingsDir, timestamp).Ok? && hadAudio && writeOk
    ensures r.Ok? && r.value.Some? ==> r.value.value == PlannedPath(state, recordingsDir, timestamp).value
  {
    if !Flag(state, "recording") then Ok(None)
    else
      match PlannedPath(state, recordingsDir, timestamp)
      case Err(e) => Err(e)
      case Ok(path) => Ok(if hadAudio && writeOk then Some(path) else None)
  }

  /** The outcome of one signal delivered to the `start` command. */
  datatype SignalOutcome =
    | IgnoredDuringProcessing
    | ExitDuringProcessing
    | Ended(process: Option<string>)

  /**
   * The `start` command: the recorder plus the two flags its signal handler closes over. The
   * handler stops and processes a recording at most once.
   */
  class StartSession {
    const recorder: SimpleRecorder
    const sessionName: string
    var recordingStarted: bool
    var processingStarted: bool

    constructor (recorder: SimpleRecorder, sessionName: string)
      ensures this.recorder == recorder && this.sessionName == sessionName
      ensures !recordingStarted && !processingStarted
    {
      this.recorder := recorder;
      this.sessionName := sessionName;
      recordingStarted := false;
      processingStarted := false;
    }

    /** Starting the recording; a refusal ends the command with exit status 1. */
    method Begin(timestamp: string, now: string) returns (exitCode: Option<int>)
      modifies this, recorder, recorder.audio
      ensures exitCode.None? ==> recordingStarted
      ensures exitCode.Some? ==> exitCode.value == 1 && recordingStarted == old(recordingStarted)
      ensures processingStarted == old(processingStarted)
    {
      var r := recorder.StartRecording(sessionName, timestamp, now);
      if r.Err? {
        return Some(1);
      }
      recordingStarted := true;
      exitCode := None;
    }

    /**
     * The signal handler. During processing a SIGTERM (15) is ignored and any other signal
     * exits. Otherwise, once a recording has started, the handler marks processing as started,
     * stops the recording, and hands a saved file of at least 1000 bytes to the pipeline.
     * `fileSize` is the saved file's size, when it can be read.
     */
    method OnSignal(signum: int, writeOk: bool, timestamp: string, now: string, fileSize: Option<nat>)
      returns (o: SignalOutcome)
      modifies this, recorder, recorder.audio
      ensures old(processingStarted) ==>
        o == (if signum == 15 then IgnoredDuringProcessing else ExitDuringProcessing) &&
        processingStarted && unchanged(recorder) && unchanged(recorder.audio)
      ensures !old(processingStarted) ==> o.Ended?
      ensures !old(processingStarted) && !old(recordingStarted) ==>
        o == Ended(None) && !processingStarted && unchanged(recorder) && unchanged(recorder.audio)
      ensures o.Ended? && o.process.Some? ==>
        !old(processingStarted) && old(recordingStarted) && fileSize.Some? && fileSize.value >= 1000
      ensures !old(processingStarted) && old(recordingStarted) ==>
        var stop := StopResult(old(recorder.GetState()), old(recorder.audio.audioData) != [], writeOk,
                               recorder.recordingsDir, timestamp);
        o == Ended(if stop.Ok? && stop.value.Some? && fileSize.Some? && fileSize.value >= 1000 then stop.value else None)
      ensures !old(processingStarted) && old(recordingStarted) && !Flag(old(recorder.GetState()), "recording") ==>
        recorder.stateFile == old(recorder.stateFile) && unchanged(recorder.audio)
      ensures !old(processingStarted) && old(recordingStarted) && Flag(old(recorder.GetState()), "recording") ==>
        !recorder.audio.recording
      ensures !old(processingStarted) && old(recordingStarted) ==>
        var stop := StopResult(old(recorder.GetState()), old(recorder.audio.audioData) != [], writeOk,
                               recorder.recordingsDir, timestamp);
        (stop.Err? ==> recorder.stateFile == old(recorder.stateFile)) &&
        (Flag(old(recorder.GetState()), "recording") && stop.Ok? ==>
          recorder.stateFile == Some(StoppedState(now, stop.value)) &&
          recorder.audio.audioData == (if stop.value.Some? then [] else old(recorder.audio.audioData)))
      ensures recorder.outputs == old(recorder.outputs)
      ensures processingStarted == (old(processingStarted) || old(recordingStarted))
      ensures recordingStarted == old(recordingStarted)
    {
      if processingStarted {
        if signum == 15 {
          return IgnoredDuringProcessing;
        }
        return ExitDuringProcessing;
      }
      if !recordingStarted {
        return Ended(None);
      }
      processingStarted := true;
      var finalPath := recorder.StopRecording(writeOk, timestamp, now);
      if finalPath.Ok? && finalPath.value.Some? && fileSize.Some? && fileSize.value >= 1000 {
        return Ended(Some(finalPath.value.value));
      }
      o := Ended(None);
    }
  }
}
