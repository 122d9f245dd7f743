# stenoai core, in Dafny

stenoai records a meeting, transcribes it with Whisper and asks a local Ollama model for a
structured summary. This project models the logic around that flow, which is sequential and
runs inline in one command-line invocation, and proves properties of the model.

- **Recorder session and CLI flow** (`Recorder`, simple_recorder.py). The state persisted
  between command invocations is `recording`, `current_file`, `session_name` and
  `last_recording`; the state file is an `Option<Fields>`. Also covered:
  - starting with the "already recording" guard, and stopping, which always clears the
    session and records `last_recording` only after a successful save;
  - the file-name sanitiser and the recording file name;
  - the duration bucketing and the summary mapping of `process_recording`;
  - the once-only processing guard of the `start` command's signal handler;
  - the `stop` command's "clear stuck state" fallback, and `clear_state`;
  - the projection `list_meetings` prints.
- **Capture state machine** (`AudioCapture`, src/audio_recorder.py): the `recording` and
  `paused` flags and the chunk buffer, with the stream callback as an explicit method.
- **Summariser reply handling** (`Summarizer`, src/summarizer.py):
  - the chat retry loop, at most three attempts;
  - removal of Markdown fences and extraction of the `{`…`}` span;
  - mapping of `next_steps`/`key_points` into `ActionItem`/`Decision` lists;
  - the fallback summaries and model selection.
  The placeholder summary that `summarize_transcript` builds for a blank transcript passes
  keyword names that `MeetingTranscript` does not accept. Its construction therefore always
  fails validation, and the call returns `None` (`Summarizer.PlaceholderFails`). The model
  keeps that behaviour as written.
- **Summary records** (`Models`, src/models.py): the three pydantic records, their
  validation from keyword arguments, and the dump/load round trip.
- **Templates** (`Templates`, src/templates.py):
  - the loaded template table, where a later file overwrites an earlier one with the same id;
  - lookup and listing;
  - the data-dependent parts of `generate_prompt`.
- **Preferences and folders** (`Configuration`, src/config.py; `Folders`, src/folders.py):
  dictionary- and list-backed stores as classes. Each update saves, and a parameter says
  whether the write succeeds.
- **Ollama manager** (`OllamaManager`, src/ollama_manager.py): parsing of the `ollama list`
  table, the bundled binary's environment, and the result of a CLI command.
- **Prompt test harnesses** (`TemplateEval`, prompt_tests/test_templates.py;
  `PromptCompare`, prompt_tests/test_prompts.py):
  - the structural checks and score of one template summary, and the status and average
    report over all runs;
  - prompt selection, reply clean-up and the truncated display of one parsed reply.

Some modules are shared. `Strings` holds the Python string operations used, with ASCII
character classes. `Json` holds parsed values, where objects keep insertion order as a
Python `dict` does. `Seqs` holds a fold that appends element by element. `Wrappers` holds
the Option and Result types.

## Model

| member | source | states |
|---|---|---|
| Recorder.KeepSafe | simple_recorder.py:108 | the result holds only alphanumerics, spaces, `-` and `_`, is never longer than the input, and a name made only of those is kept whole |
| Recorder.KeepSafeOne | simple_recorder.py:108 | a single character is kept exactly when it is alphanumeric, a space, `-` or `_` |
| Recorder.KeepSafeConcat | simple_recorder.py:108 | the filter works character by character: the safe characters of two joined strings are those of each, joined in order |
| Recorder.KeepSafeCounts | simple_recorder.py:108 | every safe character occurs in the result as often as in the name, and no other character occurs |
| Recorder.SafeName | simple_recorder.py:108 | the sanitised name is the stripped result of the character filter, so it holds only alphanumerics, spaces, `-` and `_`, has no space at either end, and is never longer than the session name |
| Recorder.SafeNameFixedPoints | simple_recorder.py:108 | a name is left unchanged by the sanitiser exactly when it is already safe and stripped |
| Recorder.SafeNameIdempotent | simple_recorder.py:108 | sanitising twice is the same as sanitising once |
| Recorder.StartedStateFields | simple_recorder.py:119-126 | the saved start state says it is recording, with the returned path as `current_file` and the given name as `session_name` |
| Recorder.StoppedStateFields | simple_recorder.py:162-172 | the saved stop state is not recording and has no current file or session name; `last_recording` is present exactly when a file was saved, and then names it; there is no `start_time` |
| Recorder.WavMinutes | simple_recorder.py:287-296 | under a minute gives 0; in every case the result is the floor of the recording's length in minutes |
| Recorder.TruncDiv | simple_recorder.py:310 | `int(a / b)` truncates toward zero: the floor for non-negative `a`, the ceiling for negative `a` |
| Recorder.TimestampMinutes | simple_recorder.py:309-310 | at least one minute; under two minutes gives exactly one; from one minute on, the floor of the minutes |
| Recorder.RecordingDuration | simple_recorder.py:283-313 | a readable WAV header with a non-zero rate gives its floor minutes and whole seconds; otherwise truthy string `start_time` and `stop_time` that parse give `max(1, int(seconds / 60))` and those seconds; in every other case the minutes are the default 10 with no seconds; the minutes are never negative |
| Recorder.DurationAfterStopIsDefault | simple_recorder.py:300-313 | after a normal stop the state has no `start_time`, so an unreadable WAV file always gives the ten-minute default |
| Recorder.DecisionTexts | simple_recorder.py:264 | the key points are the decisions' texts, in order |
| Recorder.ActionTexts | simple_recorder.py:265 | the action items are the actions' descriptions, in order |
| Recorder.SummaryData | simple_recorder.py:254-266 | the dict has a `participants` key exactly when the summariser returned a summary; its keys are the four (or without a summary the three) of the source, in order |
| Recorder.SummaryDataContents | simple_recorder.py:261-266 | with a summary, the dict holds its overview, its participants, its decisions' texts and its actions' descriptions |
| Recorder.BaseName | simple_recorder.py:206 | a file name never contains `/` |
| Recorder.Stem | simple_recorder.py:324-325 | a stem never contains `/` |
| Recorder.ResolveAudioFile | simple_recorder.py:272-277 | a given file is used as is; without one, processing can go on exactly when the state has a truthy `last_recording` |
| Recorder.Essential | simple_recorder.py:793-800 | the projection has the six essential keys in order, each with the summary's value or its default |
| Recorder.EssentialIdempotent | simple_recorder.py:793-800 | projecting an already projected summary changes nothing |
| Recorder.EssentialShape | simple_recorder.py:793-800 | a projected summary has exactly the six essential keys, in order |
| Recorder.EssentialsShape | simple_recorder.py:788-805 | every listed meeting is an object with exactly the six essential keys, in order |
| Recorder.MeetingOf | simple_recorder.py:789-805 | a summary file contributes at most one meeting |
| Recorder.ListMeetings | simple_recorder.py:783-805 | the loop lists, in file order, the projection of every file that holds an object, and skips the rest |
| Recorder.PidTarget | simple_recorder.py:491-496 | a line names at most one process |
| Recorder.PidLine | simple_recorder.py:492-494 | the decimal form of a process id is a non-blank line that parses back to that id |
| Recorder.PidTargetsOfIds | simple_recorder.py:488-496 | `pgrep` lines that are the decimal forms of process ids give back exactly those ids, in order |
| Recorder.SignalTargets | simple_recorder.py:488-503 | the loop signals, in line order, the id of every line that is non-blank and parses as an integer |
| Recorder.PlannedPath | simple_recorder.py:146-156 | a missing or falsy `current_file` gives the default `{timestamp}_recording.wav` in the recordings directory; a string is used as is; any other truthy value is the `TypeError` of `Path(...)`; the path is never empty |
| Recorder.SimpleRecorder.constructor | simple_recorder.py:50-83 | the recorder keeps its directories, the state file and the summary files it is given, and owns a new idle capture at 44100 Hz, mono |
| Recorder.SimpleRecorder.GetState | simple_recorder.py:85-93 | the stored state, or `{"recording": False, "current_file": None, "session_name": None}` when there is no usable state file |
| Recorder.SimpleRecorder.StartRecording | simple_recorder.py:100-128 | while the state says it is recording, it raises and changes nothing; otherwise it starts the capture and saves a recording state naming `{timestamp}_{safe_name}.wav` in the recordings directory, which it returns |
| Recorder.SimpleRecorder.StopRecording | simple_recorder.py:130-173 | when the state is idle it returns `None` and writes nothing; otherwise the capture is stopped and an idle state is saved, naming the planned file as `last_recording` exactly when the audio was saved, which is when there was audio and the write succeeded; the result is `StopResult` of the old state |
| Recorder.StopResult | simple_recorder.py:130-173 | `None` for an idle state, the `TypeError` of a bad planned path, and otherwise the planned path exactly when there was audio and the write succeeded |
| Recorder.SimpleRecorder.Processed | simple_recorder.py:268-367 | each error the source raises, in its order: no audio file, a missing file, a missing summary (the `participants` lookup); success exactly when none occurs, and then the summary path and the complete data written |
| Recorder.SimpleRecorder.ProcessRecording | simple_recorder.py:268-367 | on an error nothing is written; on success the summary file holds the complete data, which is returned, and the state file is removed |
| Recorder.SimpleRecorder.StopCommand | simple_recorder.py:471-527 | with running start processes each listed id is signalled and the state is untouched; otherwise a state stuck in recording is reset to the idle default, and an idle state is left alone |
| Recorder.SimpleRecorder.ClearState | simple_recorder.py:811-820 | the state file is removed; the result says whether it existed |
| Recorder.StartSession.constructor | simple_recorder.py:384-387 | neither recording nor processing has started |
| Recorder.StartSession.Begin | simple_recorder.py:454-467 | a refused start ends the command with exit status 1; otherwise the recording is marked as started |
| Recorder.StartSession.OnSignal | simple_recorder.py:389-448 | during processing a SIGTERM is ignored and any other signal exits, touching nothing; before a recording starts nothing happens; otherwise processing is marked as started, so it happens at most once, the recording is stopped as `stop_recording` stops it (the capture ended and the idle state saved when the state said recording, nothing changed when it did not), and the saved path is handed on exactly when `stop_recording` returned it and the file has at least 1000 bytes |
| AudioCapture.TotalFramesAppend | src/audio_recorder.py:223 | appending a chunk adds its length to the frame total |
| AudioCapture.ConcatLength | src/audio_recorder.py:189-223 | the joined audio has exactly as many frames as the chunks hold together |
| AudioCapture.AudioRecorder.constructor | src/audio_recorder.py:34-51 | a new recorder keeps the given rate and channel count, is idle and unpaused, with an empty buffer |
| AudioCapture.AudioRecorder.StartRecording | src/audio_recorder.py:66-88 | a no-op while recording; otherwise recording starts on an emptied buffer and `paused` is untouched |
| AudioCapture.AudioRecorder.StopRecording | src/audio_recorder.py:90-103 | a no-op when idle; otherwise both flags become False and the buffer is kept |
| AudioCapture.AudioRecorder.PauseRecording | src/audio_recorder.py:105-115 | `paused` becomes True only while recording, and stays as it was otherwise; nothing else changes |
| AudioCapture.AudioRecorder.ResumeRecording | src/audio_recorder.py:117-127 | `paused` becomes False only while recording, and stays as it was otherwise; nothing else changes |
| AudioCapture.AudioRecorder.IsPaused | src/audio_recorder.py:129-132 | the `paused` flag |
| AudioCapture.AudioRecorder.IsRecording | src/audio_recorder.py:226-228 | the `recording` flag |
| AudioCapture.AudioRecorder.CaptureFailed | src/audio_recorder.py:153-156 | a failure of the capture stream ends recording and changes nothing else |
| AudioCapture.AudioRecorder.AudioCallback | src/audio_recorder.py:168-175 | exactly one chunk is appended when recording and not paused, and the buffer is unchanged otherwise; the flags never change |
| AudioCapture.AudioRecorder.SaveRecording | src/audio_recorder.py:177-215 | success exactly when the buffer is non-empty and the write succeeds; then the WAV holds the joined chunks as 16-bit frames at the recorder's rate and channels, the buffer is emptied and recording ends; on failure nothing changes; `paused` is never touched |
| AudioCapture.AudioRecorder.GetRecordingDuration | src/audio_recorder.py:217-224 | 0 for an empty buffer, otherwise the total frame count over the sample rate; a zero rate with a non-empty buffer is the division error |
| Summarizer.FirstReplyFrom | src/summarizer.py:408-430 | any reply found is the reply of some attempt that is still within the three allowed |
| Summarizer.ChatWithRetries | src/summarizer.py:408-438 | one to three attempts; the reply is that of the first attempt that succeeds, and every earlier attempt failed; with no success all three attempts were made |
| Summarizer.ExtractBracesCases | src/summarizer.py:454-458 | without both braces the text is kept; otherwise it becomes the span from the first `{` through the last `}` (which starts and ends with a brace and has no `{` before it nor `}` after it), or empty when the last `}` comes before the first `{` |
| Summarizer.ExtractWholeObject | src/summarizer.py:454-458 | a text that starts with `{` and ends with `}` is kept whole |
| Summarizer.ExtractAroundObject | src/summarizer.py:453-458 | a preamble without `{` and a trailer without `}` are cut off, leaving exactly the object text |
| Summarizer.FencesAround | src/summarizer.py:448-451 | removing the fences around text without backticks leaves that text, for both the `json` fence and the bare fence |
| Summarizer.ClosingFence | src/summarizer.py:449-451 | a closing fence after text without backticks is removed |
| Summarizer.StripNewlines | src/summarizer.py:449 | stripping removes the line breaks that a fence leaves around the object |
| Summarizer.FencedStripped | src/summarizer.py:440-449 | a reply in a `json` fence loses the fence and the surrounding line breaks |
| Summarizer.CleanFencedObject | src/summarizer.py:440-458 | a JSON object in a `json` fence comes out of the whole clean-up as exactly the object text |
| Summarizer.Iterate | src/summarizer.py:496-505 | a list is iterated element by element; iterating null, a boolean or a number raises |
| Summarizer.ActionFrom | src/summarizer.py:497-501 | only an object makes an action; a missing `description` gives `''`, a missing or falsy `assignee` gives `''`, and a missing `deadline` gives `None` |
| Summarizer.ActionFromFields | src/summarizer.py:497-501 | an object entry maps exactly when its description is a string, a truthy assignee is a string and its deadline is a string, null or absent, and then the action carries those values |
| Summarizer.ActionsFrom | src/summarizer.py:495-501 | the mapping succeeds exactly when every entry maps, and then gives one action per entry, in order |
| Summarizer.DecisionFrom | src/summarizer.py:506-519 | a string becomes `Decision(point, '', '')`, a value that is neither a string nor an object is dropped, and every decision has the empty assignee |
| Summarizer.DecisionFromFields | src/summarizer.py:513-519 | an object entry maps exactly when `point` and `context` (both defaulting to `''`) are strings, and the decision carries them |
| Summarizer.DecisionsFromSpec | src/summarizer.py:504-519 | the mapping succeeds exactly when no entry raises, and then holds what each entry contributes (one decision for a string or a valid object, none for any other value) in entry order; never more decisions than entries |
| Summarizer.DecisionsFromAppend | src/summarizer.py:504-519 | mapping two runs of entries succeeds exactly when both do, and the decisions are those of the first run followed by those of the second |
| Summarizer.DecisionsFromPrefix | src/summarizer.py:504-519 | once an entry raises, the whole mapping raises, whatever follows it |
| Summarizer.DecisionsFromStrings | src/summarizer.py:506-512 | a list of plain strings gives one `Decision(point, '', '')` per string, in order |
| Summarizer.MapActions | src/summarizer.py:495-501 | the `next_steps` loop gives what `ActionsFrom` specifies |
| Summarizer.MapDecisions | src/summarizer.py:504-519 | the `key_points` loop gives what `DecisionsFrom` specifies |
| Summarizer.BuildSummary | src/summarizer.py:492-535 | a summary comes only from an object; it carries the duration text, the transcript, and exactly the mapped `next_steps` and `key_points` lists |
| Summarizer.SummaryKwargsFields | src/summarizer.py:521-528 | with the lists mapped, the summary exists exactly when `overview` (default `''`) is a string and `participants` (default `[]`) a list of strings |
| Summarizer.KwargsLookups | src/summarizer.py:521-528 | each keyword argument of the summary is passed under its name, and `meeting_id` and `date` are left to their defaults |
| Summarizer.EmptyReplySummary | src/summarizer.py:492-531 | an empty object gives a summary with an empty overview and no participants, actions or decisions |
| Summarizer.PlaceholderFails | src/summarizer.py:393-401 | the placeholder for a blank transcript passes field names that `MeetingTranscript` does not accept, so its construction always fails and the call returns `None` |
| Summarizer.FallbackSummary | src/summarizer.py:477-490 | the fallback has the fixed overview, no participants, actions or decisions, the original transcript and the duration `"{n} minutes"` |
| Summarizer.SummarizeSpec | src/summarizer.py:380-544 | a blank, whitespace-only or "none" transcript gives `None`; so does a chat that never succeeds; a reply whose cleaned text parses gives `BuildSummary` of the parsed value; one that parses only after repair gives `BuildSummary` of the repaired parse; a reply that fails both parses gives the fallback; any summary carries the transcript and the duration text |
| Summarizer.EmptyObjectReply | src/summarizer.py:440-531 | a reply that cleans up to an empty object gives the empty summary |
| Summarizer.ExtractedDecisions | src/summarizer.py:210-217 | one decision per extracted key point, in order, each with the empty assignee and the fixed "Extracted from partially parsed response" context |
| Summarizer.OllamaSummarizer.constructor | src/summarizer.py:19-35 | the summarizer uses the given model name |
| Summarizer.OllamaSummarizer.Summarize | src/summarizer.py:380-544 | the result is `SummarizeSpec` of the first successful reply; a placeholder transcript makes no chat attempt and any other makes one to three |
| Summarizer.ReplySummary | src/summarizer.py:460-535 | a text that parses gives `BuildSummary` of the parsed value; otherwise a repaired text that parses gives `BuildSummary` of that; otherwise the fallback summary; any summary carries the transcript and the duration text |
| Summarizer.RepairUnusedOnParse | src/summarizer.py:460-478 | when the cleaned reply parses as it is, the result does not depend on the repair |
| Summarizer.OllamaSummarizer.SummarizeReply | src/summarizer.py:460-535 | the method with its parse loop equals `ReplySummary`: `BuildSummary` of the first parse that succeeds, the reply before the repaired reply, and the fallback only when both fail |
| Summarizer.OllamaSummarizer.MapSummary | src/summarizer.py:492-535 | the two loops and the construction give what `BuildSummary` specifies |
| Summarizer.OllamaSummarizer.EnhancedFallback | src/summarizer.py:148-220 | each extracted part is used only when its quoted key occurs in the response and its search matched, with the default overview and empty lists otherwise; key points become decisions in order; there are no actions; the transcript and duration are kept |
| Summarizer.OllamaSummarizer.SetModel | src/summarizer.py:580-604 | succeeds exactly when the model list could be read and names the model, and only then changes the model name |
| Summarizer.OllamaSummarizer.TestConnection | src/summarizer.py:546-578 | a configured model that is not listed is replaced by the first listed one; an unreadable or empty list fails and changes nothing; success means the chat succeeded and the model in use is listed |
| Models.RequiredStr | src/models.py:8 | a required `str` field is accepted exactly when it is present and a string, and then its text is the value |
| Models.OptionalStr | src/models.py:9-10 | an `Optional[str]` field: absent gives the declared default, `null` gives `None`, any non-string, non-null value is rejected |
| Models.NewActionItem | src/models.py:7-10 | `ActionItem(**kw)` validates exactly when `description` is a string and `assignee`/`deadline` are absent, null or strings |
| Models.NewDecision | src/models.py:13-16 | `Decision(**kw)` validates exactly when `decision` and `context` are strings and `assignee` is absent, null or a string |
| Models.ActionItemRoundTrip | src/models.py:7-10 | building an `ActionItem` from its own dump gives the same item |
| Models.DecisionRoundTrip | src/models.py:13-16 | building a `Decision` from its own dump gives the same decision |
| Models.StrList | src/models.py:24 | a `List[str]` field is accepted only as an array, and then element `i` is the string `i` of the result |
| Models.StrItems | src/models.py:24 | an item list is rejected exactly when some item is not a string; otherwise the strings are returned in order |
| Models.StrsToJson | src/models.py:33 | the dump of a string list is an array holding each string at its index |
| Models.StrListRoundTrip | src/models.py:24 | validating the dump of a string list gives the same list |
| Models.ActionItems | src/models.py:25 | a `List[ActionItem]` validates exactly when every element is an object that validates as an `ActionItem`, and then holds each element's record at its index |
| Models.Decisions | src/models.py:26 | a `List[Decision]` validates exactly when every element is an object that validates as a `Decision`, and then holds each element's record at its index |
| Models.ActionsToJson | src/models.py:33 | the dump of the action items is an array of the same length |
| Models.DecisionsToJson | src/models.py:33 | the dump of the decisions is an array of the same length |
| Models.ActionsRoundTrip | src/models.py:25 | validating the dump of a list of action items gives the same list |
| Models.DecisionsRoundTrip | src/models.py:26 | validating the dump of a list of decisions gives the same list |
| Models.ArrayField | src/models.py:24-26 | a list field yields items exactly when it is present and an array, and they are that array's items |
| Models.DefaultedStr | src/models.py:20-21 | a field with a `default_factory` takes the generated value when absent and must be a string when present |
| Models.NewMeetingTranscript | src/models.py:19-27 | a transcript validates exactly when `meeting_id` and `date` are absent or strings, `duration`, `overview` and `transcript` are strings, `participants` is a list of strings, and the two record lists validate; the record then carries each given value, and an absent `meeting_id` or `date` takes the generated id or today's date |
| Models.TranscriptRoundTrip | src/models.py:29-41 | `from_json_file` after `to_json_file` gives back the same record, whatever id and date the factories would generate |
| Templates.LaxBool | src/templates.py:19 | pydantic's lax `bool`: a boolean as is, 0 and 1, and the words 0/off/f/false/n/no and 1/on/t/true/y/yes in any ASCII case; every other value fails |
| Templates.OptionalBool | src/templates.py:19 | an absent `required` gives the default `True`; a present value is read as a lax `bool` |
| Templates.NewSection | src/templates.py:12-19 | a section validates exactly when the data is an object whose four required fields are strings, whose `item_format` is absent, null or a string, and whose `required` is absent or reads as a lax `bool`; the section carries each given value |
| Templates.Sections | src/templates.py:28 | a section list validates exactly when every element validates, and then holds each element's section at its index |
| Templates.NewTemplate | src/templates.py:22-28 | a template validates exactly when the data is an object with string `id`, `name` and `description`, an absent or string `icon`, and a valid `sections` list; it then carries those values, with the icon `"meeting"` when none is given |
| Templates.SectionRoundTrip | src/templates.py:12-19 | every section, written out as a file spells it, validates back to the same section |
| Templates.SectionsRoundTrip | src/templates.py:28 | every section list written out validates back to the same list |
| Templates.TemplateRoundTrip | src/templates.py:22-28 | every template, written out as a file, loads back as the same template |
| Templates.LoadAllKeys | src/templates.py:57-65 | after loading, an id is present exactly when it was before or some file yields a valid template with that id |
| Templates.LoadAllLastWins | src/templates.py:57-65 | when several files yield the same id, the last one's template is the one stored |
| Templates.LoadAllKeyed | src/templates.py:62 | loading keeps every template stored under its own id |
| Templates.SectionNames | src/templates.py:85 | one lower-cased title per section, in section order |
| Templates.SectionsProse | src/templates.py:86 | no sections raises an `IndexError`; one section gives its lower-cased title alone |
| Templates.SectionsProseMentions | src/templates.py:86 | the prose names every section, and with two or more sections ends in `" and "` followed by the last title |
| Templates.ItemValues | src/templates.py:102-108 | a value whose text contains "null" in any case gives the same "or null if unclear" text in all three items; any other value `v` gives `v`, `"v 2"` and `"v 3"` |
| Templates.Placeholders | src/templates.py:104-108 | one placeholder per key of the parsed `item_format`, with the keys in their original order |
| Templates.ExampleItemGet | src/templates.py:103-108 | every key of the parsed item appears in each example item with its placeholder |
| Templates.ExampleList | src/templates.py:101-110 | a parsed `item_format` gives exactly three example items |
| Templates.SectionValue | src/templates.py:91-122 | a `list` section always gets exactly three examples, parsed or generic |
| Templates.StructureKeys | src/templates.py:89-122 | the JSON structure has a key exactly when some section with a known format (paragraph, string or list) has that key |
| Templates.StructureLastWins | src/templates.py:89-122 | the last section with a known format and a given key decides that key's value |
| Templates.TemplateManager.constructor | src/templates.py:36-38 | a new manager holds the templates loaded from the directory, or none when the directory is missing |
| Templates.TemplateManager.LoadTemplates | src/templates.py:50-65 | the table becomes the old table with each valid file's template stored under its id, in file order; unchanged when the directory is missing |
| Templates.TemplateManager.GetTemplate | src/templates.py:67-69 | the stored template, or `None` exactly when the id is unknown |
| Templates.TemplateManager.ListTemplates | src/templates.py:71-80 | exactly the loaded ids, each with its template's name, description and icon |
| Templates.TemplateManager.ListValue | src/templates.py:95-122 | a `list` section's value is the one `SectionValue` specifies: parsed examples when `item_format` is non-empty and parses to an object, and the three generic items otherwise |
| Templates.TemplateManager.ExampleItems | src/templates.py:101-110 | the loop yields the three specified example items in order |
| Templates.TemplateManager.BuildItem | src/templates.py:103-109 | one example item is the placeholders stored key by key into an empty dict |
| Templates.TemplateManager.GeneratePrompt | src/templates.py:82-164 | `None` exactly when the template has no sections; otherwise the prose, one instruction line per section in order, the transcript, and the JSON structure that `Structure` specifies |
| Configuration.DefaultConfig | src/config.py:107-116 | the defaults have exactly the six keys, with the default model and template, both flags on, the generated id and version "1.0" |
| Configuration.GetModelInfo | src/config.py:139-149 | the metadata of a supported model, and `None` exactly for a name outside the table |
| Configuration.ListSupportedModels | src/config.py:151-153 | the copy has exactly the four supported model names, each with the metadata `get_model_info` gives |
| Configuration.DefaultModelSupported | src/config.py:19-31 | the default model is supported, and it is the only 3B model in the table |
| Configuration.Config.constructor | src/config.py:79-94 | a missing or unreadable file gives the defaults with the generated id; a parsed file is used as read; nothing is written |
| Configuration.Config.Save | src/config.py:96-105 | the result is whether the write succeeded, and only a successful write records the dictionary as saved |
| Configuration.Config.Get | src/config.py:215-217 | the stored value of a present key, the default for an absent one |
| Configuration.Config.Set | src/config.py:219-222 | the key takes the value, every other key reads as before, and the result is the save's |
| Configuration.Config.GetModel | src/config.py:118-120 | the stored model, or the default model when none is stored |
| Configuration.Config.SetModel | src/config.py:122-137 | any name is stored, supported or not, and then read back by `get_model`; the result is the save's |
| Configuration.Config.GetTemplate | src/config.py:155-157 | the stored template, or the default template when none is stored |
| Configuration.Config.SetTemplate | src/config.py:159-170 | the id is stored and then read back by `get_template`; the result is the save's |
| Configuration.Config.GetNotificationsEnabled | src/config.py:172-174 | the stored flag, on when none is stored |
| Configuration.Config.SetNotificationsEnabled | src/config.py:176-187 | the flag is stored and then read back; the result is the save's |
| Configuration.Config.GetTelemetryEnabled | src/config.py:189-191 | the stored flag, on when none is stored |
| Configuration.Config.SetTelemetryEnabled | src/config.py:193-204 | the flag is stored and then read back; the result is the save's |
| Configuration.Config.GetAnonymousId | src/config.py:206-213 | a truthy stored id is returned with nothing changed or written; a missing or falsy one is replaced by the generated id, stored and saved; afterwards the stored id is the returned one |
| Configuration.ConfigHolder.constructor | src/config.py:225-226 | no instance exists before the first call |
| Configuration.ConfigHolder.GetConfig | src/config.py:229-234 | the first call creates and keeps a fresh instance holding the file's dictionary, or the defaults for a missing or unreadable file, with nothing written; every later call returns that same instance |
| Configuration.AnonymousIdStable | src/config.py:206-213 | two calls of `get_anonymous_id` give the same id, whatever id the second call would have generated, and leave the dictionary and the saved copy as the first call alone leaves them, so the second call writes nothing |
| Folders.ShortId | src/folders.py:49 | `str(uuid4())[:8]` is the first eight characters of the generated string, or all of it when shorter |
| Folders.IndexOfId | src/folders.py:61-62 | the index of the first folder with the id, every earlier folder having another id; -1 exactly when no folder has it |
| Folders.Without | src/folders.py:68-70 | the filtered list holds exactly the folders whose id differs, and is no longer than the original |
| Folders.WithoutAppend | src/folders.py:68-70 | the filter keeps the survivors in their original order (it distributes over concatenation) |
| Folders.WithoutAbsent | src/folders.py:67-71 | deleting an id no folder has leaves the folder list unchanged |
| Folders.WithoutIdempotent | src/folders.py:67-71 | deleting the same id twice is the same as deleting it once |
| Folders.FoldersManager.constructor | src/folders.py:21-32 | a missing or unreadable `folders.json` gives `{"folders": []}`; a parsed one is kept as read; nothing is written |
| Folders.FoldersManager.Save | src/folders.py:34-42 | the result is whether the write succeeded, and only a successful write records the folder list as saved |
| Folders.FoldersManager.ListFolders | src/folders.py:44-45 | the stored folders, or `[]` when the key is missing |
| Folders.FoldersManager.CreateFolder | src/folders.py:47-58 | a missing key raises `KeyError` with nothing changed; otherwise one folder with the short id and `order` equal to the old count is appended, it stays whether or not the save succeeds, and it is returned only after a successful save |
| Folders.FoldersManager.RenameFolder | src/folders.py:60-65 | only the first folder with the id is renamed and the result is the save's; with no such folder the result is False and nothing changes; a missing key raises |
| Folders.FoldersManager.DeleteFolder | src/folders.py:67-71 | the list becomes the filtered list and the result is the save's; a missing key raises with nothing changed |
| Folders.HasRef | src/folders.py:79 | `folder_id in folders` is list membership for an array and is refused (a `TypeError`) for values that are not arrays, strings or objects |
| Folders.RemoveFirst | src/folders.py:96 | `list.remove` takes exactly one occurrence out of the multiset of references |
| Folders.AddMeetingToFolder | src/folders.py:73-87 | a write happens exactly when the summary parsed to an object whose `folders` list lacks the id and the write succeeds, and a write always reports True |
| Folders.RemoveMeetingFromFolder | src/folders.py:89-103 | a write happens exactly when the summary parsed to an object whose `folders` list holds the id and the write succeeds, and a write always reports True |
| Folders.AddWrites | src/folders.py:78-83 | what an add writes is the old list with the id appended, holding it exactly once, with every other key of the summary unchanged |
| Folders.AddIdempotent | src/folders.py:79 | adding an id a second time returns True and writes nothing |
| Folders.RemoveAfterAdd | src/folders.py:73-103 | removing an id just added writes back the reference list the summary had before |
| Folders.RemoveAppended | src/folders.py:96 | removing the first occurrence of a value appended to a list lacking it gives back the list |
| Folders.RemoveWrites | src/folders.py:94-99 | what a removal writes has one occurrence of the id fewer, with every other key of the summary unchanged |
| OllamaManager.RowName | src/ollama_manager.py:301-304 | a row contributes at most one name |
| OllamaManager.RowNameSpec | src/ollama_manager.py:301-304 | a row contributes a name exactly when it is not blank after stripping |
| OllamaManager.RowNamesAreTokens | src/ollama_manager.py:302-304 | every name read from the table is non-empty and contains no whitespace |
| OllamaManager.RowNamesAppend | src/ollama_manager.py:300-304 | rows keep their order: the names of two runs of rows are the names of each, joined |
| OllamaManager.ParseModelList | src/ollama_manager.py:299-306 | the loop returns the names of the rows of the stripped output after the header line, in order |
| OllamaManager.ReadRows | src/ollama_manager.py:300-304 | the loop appends each row's name, if any, in row order |
| OllamaManager.HeaderSkipped | src/ollama_manager.py:299-306 | for a header line followed by rows that each name a model, the result is exactly those names in row order, the header contributing nothing |
| OllamaManager.TableAfterHeader | src/ollama_manager.py:300 | `stdout.strip().split('\n')[1:]` of a header and newline-joined rows is the rows |
| OllamaManager.SplitJoin | src/ollama_manager.py:300 | splitting newline-joined rows that contain no newline gives the rows back |
| OllamaManager.RowsNamed | src/ollama_manager.py:300-304 | rows that each contribute one name give those names in order |
| OllamaManager.ListModels | src/ollama_manager.py:284-306 | `[]` when the server is not running and cannot be started or when `ollama list` fails; otherwise the names parsed from its output |
| OllamaManager.HasModel | src/ollama_manager.py:309-320 | true exactly when the server is available, the listing succeeds and the name is among the parsed names |
| OllamaManager.OllamaEnv | src/ollama_manager.py:99-127 | without a bundled directory the environment is unchanged; with one, exactly two keys are set: the directory is put in front of a non-empty `DYLD_LIBRARY_PATH` (or becomes it) and `MLX_METAL_PATH` names `mlx.metallib` inside it; every other variable is kept |
| OllamaManager.LibraryPathPrepends | src/ollama_manager.py:116-120 | read as a colon-separated search path, the new `DYLD_LIBRARY_PATH` is the bundled directory followed by every earlier entry in order |
| OllamaManager.RunOllamaCommand | src/ollama_manager.py:197-225 | no binary gives `(False, "", "Ollama binary not found")`; success exactly when the command completed with return code 0; a timeout and an exception give their messages with empty output |
| OllamaManager.ListModelsWithoutBinary | src/ollama_manager.py:295-297 | with no binary the command reports failure, so `list_models` returns `[]` |
| TemplateEval.ScoreBounds | prompt_tests/test_templates.py:118-121 | every score lies in [0, 100]; a result with no findings scores 100; more issues or warnings never raise the score |
| TemplateEval.StatusThresholds | prompt_tests/test_templates.py:219-227 | with no issues, up to six warnings still pass; one issue with up to three warnings passes; four issues always fail |
| TemplateEval.DateIssues | prompt_tests/test_templates.py:49-57 | at most one issue per date pattern |
| TemplateEval.TimeMisses | prompt_tests/test_templates.py:64-66 | at most one issue per matched time |
| TemplateEval.SurnameIssues | prompt_tests/test_templates.py:69-73 | at most one issue per listed surname |
| TemplateEval.EmptyItemSpec | prompt_tests/test_templates.py:82-83 | a list item counts as empty exactly when it is `""` or a dict whose values are all `None`, `""` or `[]` (so `{}` is empty); an empty list or `None` is not |
| TemplateEval.CountEmpty | prompt_tests/test_templates.py:82-83 | the count never exceeds the number of items, and is zero exactly when no item is empty |
| TemplateEval.EmptyStringIssue | prompt_tests/test_templates.py:78-87 | a top-level `""` under a key not starting with `_` adds exactly one issue, in that entry's place among the others |
| TemplateEval.PlaceholderWarnings | prompt_tests/test_templates.py:97-99 | at most one warning per placeholder pattern searched |
| TemplateEval.Sentences | prompt_tests/test_templates.py:106 | splitting always yields at least one piece |
| TemplateEval.OneSentence | prompt_tests/test_templates.py:105-108 | a text without `.`, `!` or `?` is one sentence, and so is long exactly when it has more than 40 words |
| TemplateEval.OnePiece | prompt_tests/test_templates.py:106 | splitting a text without terminators gives the text itself |
| TemplateEval.LongWarnings | prompt_tests/test_templates.py:104-109 | at most one warning per top-level entry |
| TemplateEval.Evaluate | prompt_tests/test_templates.py:44-123 | the score of a non-empty result is `max(0, 100 - 15 * issues - 5 * warnings)` over the findings it lists, and lies in [0, 100] |
| TemplateEval.BrevityWarning | prompt_tests/test_templates.py:111-116 | the brevity warning is present exactly for the three listed templates, when the lists not starting with `_` hold fewer than three items in total and a transcript of more than 1000 characters is given |
| TemplateEval.OnlyBrevityTooBrief | prompt_tests/test_templates.py:99-116 | no placeholder or long-sentence warning can be mistaken for the brevity warning |
| TemplateEval.PlaceholderWarningsShape | prompt_tests/test_templates.py:99 | every placeholder warning starts with "Contains" |
| TemplateEval.LongWarningsShape | prompt_tests/test_templates.py:109 | every long-sentence warning ends with ")" |
| TemplateEval.CheckDates | prompt_tests/test_templates.py:49-57 | the loop gives one issue per date pattern found, in pattern order |
| TemplateEval.CheckPatterns | prompt_tests/test_templates.py:55-57 | the loop over any pattern list gives what `DateIssues` specifies |
| TemplateEval.CheckTimes | prompt_tests/test_templates.py:59-66 | times are checked only when some were found and a transcript is given, giving one issue per time the transcript does not contain, ignoring case |
| TemplateEval.CheckSurnames | prompt_tests/test_templates.py:68-73 | one issue per listed surname that occurs in the output but not in a given transcript, in list order |
| TemplateEval.CheckNames | prompt_tests/test_templates.py:70-73 | the loop over any name list gives what `SurnameIssues` specifies |
| TemplateEval.CheckStructure | prompt_tests/test_templates.py:77-87 | the loop gives each entry's empty-item and empty-string issues, in entry order, skipping keys that start with `_` |
| TemplateEval.CheckPlaceholders | prompt_tests/test_templates.py:89-99 | only the first four placeholder patterns are searched, each adding one warning when found |
| TemplateEval.CheckSentences | prompt_tests/test_templates.py:103-109 | one warning per string entry longer than 50 characters with a sentence of more than 40 words |
| TemplateEval.CollectIssues | prompt_tests/test_templates.py:46-87 | the issues of the four checks, in the order they are appended |
| TemplateEval.CollectWarnings | prompt_tests/test_templates.py:89-116 | the warnings of the three checks, in the order they are appended |
| TemplateEval.EvaluateOutput | prompt_tests/test_templates.py:35-123 | a missing or empty result scores 0 with the single issue "No result returned"; otherwise the result is `Evaluate`'s; the score always lies in [0, 100] |
| TemplateEval.PrefixTotal | prompt_tests/test_templates.py:216-236 | when every run scores in [0, 100], the total of the matching runs lies between 0 and 100 times their number |
| TemplateEval.AverageInRange | prompt_tests/test_templates.py:238 | the average lies in [0, 100], and is 0 when there are no runs |
| TemplateEval.RatioBound | prompt_tests/test_templates.py:238 | a total of at most 100 per run gives a mean in [0, 100] |
| TemplateEval.PrefixTotalPrefix | prompt_tests/test_templates.py:216-222 | one more run adds its score and one to the count exactly when its key has the prefix |
| TemplateEval.ReportStandard | prompt_tests/test_templates.py:215-222 | one line per standard run in run order, with the sum and number of their scores |
| TemplateEval.ReportEdgeCases | prompt_tests/test_templates.py:224-236 | one line per edge-case run in run order, with its issues and warnings, and the sum and number of their scores |
| TemplateEval.Report | prompt_tests/test_templates.py:212-246 | the standard lines then the edge-case lines, the average over both kinds of run, and the overall status it gives |
| PromptCompare.CleanReply | prompt_tests/test_prompts.py:558-570 | the harness cleans a reply exactly as the summarizer does: the result equals `Summarizer.CleanResponse` of the raw content |
| PromptCompare.DropFences | prompt_tests/test_prompts.py:561-564 | the fence removal agrees with the summarizer's `StripFences` on every stripped reply |
| PromptCompare.CutBraces | prompt_tests/test_prompts.py:567-570 | the brace extraction agrees with the summarizer's `ExtractBraces` on every input |
| PromptCompare.TestPrompt | prompt_tests/test_prompts.py:517-599 | an exception gives a failed result with its message and type name; a reply gives a successful result with the name, the duration and the cleaned text; the parse succeeded flag holds exactly when parsing the cleaned text succeeds, and then the parsed value is recorded with no error, otherwise the value is null and the parser's message is the error |
| PromptCompare.KnownMembers | prompt_tests/test_prompts.py:628-631 | a name is run exactly when it was requested and is a template name |
| PromptCompare.AllByDefault | prompt_tests/test_prompts.py:624 | no list and an empty list both select every template, and every template is then run, in table order |
| PromptCompare.AllKnown | prompt_tests/test_prompts.py:628-631 | a list made only of template names is run in full and in order |
| PromptCompare.KeysOf | prompt_tests/test_prompts.py:627 | the keys of the ordered results dict, one per entry, in entry order |
| PromptCompare.Store | prompt_tests/test_prompts.py:635 | assigning into the results dict keeps the key order when the key is already present and otherwise appends the key at the end |
| PromptCompare.ResultsKeys | prompt_tests/test_prompts.py:627-635 | with no name requested twice, the results dict holds one entry per template run, in run order |
| PromptCompare.ComparePrompts | prompt_tests/test_prompts.py:624-635 | the names run are the known names among those selected (all templates by default), and the results dict is the one built by storing each run's result under its name |
| PromptCompare.RunPrompts | prompt_tests/test_prompts.py:628-635 | the loop runs exactly the known names in order, skipping the others, and builds the results dict entry by entry |
| PromptCompare.FallbackChains | prompt_tests/test_prompts.py:689-700 | the key points come from the first present key of key_points, key_decisions, discussion_summary, and the actions from next_steps, key_actions, action_items; with none present the list is empty |
| PromptCompare.AsItems | prompt_tests/test_prompts.py:690-691 | a list is iterated by its items and a string by its characters (same length); any other value makes `len` or slicing raise |
| PromptCompare.ShowList | prompt_tests/test_prompts.py:690-697 | the listing exists exactly when the value can be measured; its count is the number of items, at most `limit` lines are shown, and the "... and N more" line appears exactly when the count exceeds the limit, with N the number left out |
| PromptCompare.FlatMapShort | prompt_tests/test_prompts.py:691-695 | items that print at most one line each print no more lines than there are items |
| PromptCompare.ShowParsed | prompt_tests/test_prompts.py:689-710 | the key points are listed with a limit of five and the actions with a limit of three, each from its fallback chain |
| PromptCompare.ShowItems | prompt_tests/test_prompts.py:691-697 | the printing loop produces the listing `ShowList` specifies |
| PromptCompare.ShowPrompt | prompt_tests/test_prompts.py:757-773 | an unknown name gives the error output and nothing else; a known one gives the total length, a preview of at most 500 characters that is a prefix of the transcript, and the ellipsis exactly when the preview is not the whole transcript |

## Left out

- Audio hardware and threads. The input stream, the capture thread, its lock, the join timeouts and WAV encoding (src/audio_recorder.py:134-166, 189-202) are not modelled. Capture is sequential: the stream callback is `AudioCapture.AudioRecorder.AudioCallback`, and a failure in the capture thread is `CaptureFailed`.
- Floating point. Frame counts are integers, and durations are exact `real` quotients or integer floors. Float-to-int16 scaling is not modelled.
- Processes and signals. `pgrep` and `os.kill` in the `stop` command, `signal.signal` and `time.sleep` are not modelled. Whether `pgrep` succeeds and what it prints are parameters. The model computes the ids that would be signalled, and the signals themselves are not sent.
- The Ollama service. Starting, pulling and serving models, the `curl` health checks, `_find_ollama_path`, `_ensure_model_available`, `_ensure_ollama_ready`, `cleanup` and `__del__` are left out. So are `start_ollama_server`, `pull_model`, `get_ollama_binary` and `is_ollama_running` of src/ollama_manager.py: whether the server runs, whether it starts, and the binary's location are parameters.
- Foreign engines. The chat client, Whisper and `json.loads` are oracle parameters that return success or failure plus a value.
- Regular expressions. The rewrite rules of `_repair_json` and the repair at src/summarizer.py:472 are not modelled, and neither is the regex extraction inside `_create_enhanced_fallback`. At src/summarizer.py:148-220, the extracted strings are parameters. The date, time, name and placeholder searches of prompt_tests/test_templates.py are oracle parameters too.
- File persistence. The state file, `config.json`, `folders.json` and the summary files are in-memory values. The writes of `config.json`, `folders.json`, a meeting's folder list and the recorded WAV file take a boolean that says whether the write succeeds. Directory creation and globbing are not modelled.
- Recorder.SimpleRecorder.StartRecording, Recorder.SimpleRecorder.StopRecording, Recorder.SimpleRecorder.ProcessRecording and Recorder.SimpleRecorder.StopCommand: the state-file write of `save_state` (simple_recorder.py:95-98) and the summary write (simple_recorder.py:344-345) are taken to succeed. In the source these writes are unguarded, so a failing one raises out of the method or the command; that exception path is not modelled.
- Non-deterministic inputs. Timestamps, `uuid4` strings and modification-time sorting are parameters. The meeting files reach `list_meetings` already in the sorted order.
- `transcribe_audio` in simple_recorder.py. The call is an oracle, and the transcript file it writes is not modelled.
- src/transcriber.py is not part of this model. It wraps Whisper and ffmpeg discovery.
- setup.py is not part of this model. It holds packaging metadata.
- Prompt text. The literal prompt bodies of `PROMPT_TEMPLATES`, `_create_prompt` and `_create_detailed_prompt` are not modelled, and neither is the fixed wording of `generate_prompt`. Only the template names, in declaration order, and the data-dependent parts of the prompt are modelled.
- `get_folders_manager` (src/folders.py:108) imports `get_data_dirs`, which src/config.py does not define. `summarize_with_template`, called at prompt_tests/test_templates.py:142, is not defined in src/summarizer.py. Neither can be modelled from the code they refer to.
- Printing-only commands. `status`, `record`, `test` and `setup_check` of simple_recorder.py, and `list_prompts`, are not modelled. Neither is the console output of `compare_prompts` beyond the key-point and action listings, nor the timestamped results file.
- The thin `process` command is not modelled separately. It calls `process_recording` and prints the paths of the result.
- Unicode. `isalnum`, `isspace`, `lower` and `title` use their ASCII meanings, not the Unicode classes Python uses.
- JSON numbers are integers only. A configuration or summary file is modelled as a parsed object, or as missing or unreadable.
