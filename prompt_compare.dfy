/**
 * The prompt comparison harness: running one prompt template against the model and cleaning
 * its reply, choosing which templates to run, and the truncated display of one parsed reply.
 * The model call and `json.loads` are oracles; the prompt texts themselves are not modelled,
 * only the names of the templates, in their declaration order.
 */
module PromptCompare {
  import opened Wrappers
  import opened Strings
  import opened Json
  import opened Seqs
  import Summarizer

  /** The keys of the prompt template table, in order. */
  const PromptNames := ["current_simple", "detailed_professional", "balanced", "detailed_contextual",
                        "concise_bullet", "enhanced_simple", "balanced_enhanced", "schemaless",
                        "optimized", "permissive", "live_prompt"]

  /** What the model call gives: the reply text, or an exception with its message and class name. */
  datatype ChatReply = Reply(content: string) | ChatRaised(message: string, errorType: string)

  /** The dict `test_prompt` returns. `parsed` is `JNull` when parsing failed. */
  datatype TestResult =
    | Succeeded(promptName: string, durationSeconds: real, responseText: string,
                parsed: Json, parseSuccess: bool, parseError: Option<string>)
    | Failed(promptName: string, error: string, errorType: string)

  /** The clean-up `test_prompt` applies to a reply: the same steps as the summarizer's. */
  method CleanReply(content: string) returns (text: string)
    ensures text == Summarizer.CleanResponse(content)
  {
    text := DropFences(Strip(content));
    text := CutBraces(text);
  }

  /** Removing the Markdown fences around a stripped reply. */
  method DropFences(stripped: string) returns (text: string)
    ensures text == Summarizer.StripFences(stripped)
  {
    text := stripped;
    if StartsWith(text, "```json") {
      text := Strip(ReplaceAll(ReplaceAll(text, "```json", ""), "```", ""));
    } else if StartsWith(text, "```") {
      text := Strip(ReplaceAll(text, "```", ""));
    }
  }

  /** Keeping the span from the first `{` through the last `}`, when both occur. */
  method CutBraces(fenced: string) returns (text: string)
    ensures text == Summarizer.ExtractBraces(fenced)
  {
    text := fenced;
    if '{' in text && '}' in text {
      var start := Find(text, '{');
      var end := RFind(text, '}') + 1;
      text := Summarizer.BracesAt(text, start, end - 1);
    }
  }

  /**
   * `test_prompt`: an exception during the call gives a failed result carrying its message and
   * type; otherwise the reply is cleaned exactly as the summarizer cleans one, and the parse
   * outcome is recorded.
   */
  method TestPrompt(name: string, reply: ChatReply, duration: real, parse: string -> Result<Json, string>)
    returns (r: TestResult)
    ensures reply.ChatRaised? ==> r == Failed(name, reply.message, reply.errorType)
    ensures reply.Reply? ==> r.Succeeded? && r.promptName == name && r.durationSeconds == duration
    ensures reply.Reply? ==> r.responseText == Summarizer.CleanResponse(reply.content)
    ensures reply.Reply? ==> (r.parseSuccess <==> parse(r.responseText).Ok?)
    ensures reply.Reply? && r.parseSuccess ==> r.parsed == parse(r.responseText).value && r.parseError.None?
    ensures reply.Reply? && !r.parseSuccess ==> r.parsed == JNull && r.parseError == Some(parse(r.responseText).error)
  {
    if reply.ChatRaised? {
      return Failed(name, reply.message, reply.errorType);
    }
    var text := CleanReply(reply.content);
    match parse(text)
    case Ok(v) => r := Succeeded(name, duration, text, v, true, None);
    case Err(e) => r := Succeeded(name, duration, text, JNull, false, Some(e));
  }

  // ---------------------------------------------------------------- choosing the prompts

  /** `prompts if prompts else list(PROMPT_TEMPLATES.keys())`: no list, or an empty one, means all. */
  function ToTest(prompts: Option<seq<string>>): seq<string> {
    if prompts.Some? && prompts.value != [] then prompts.value else PromptNames
  }

  function KnownName(name: string): seq<string> {
    if name in PromptNames then [name] else []
  }

  /** The names actually run: unknown names are skipped, the rest keep their order. */
  function Known(names: seq<string>): seq<string> {
    FlatMap(names, KnownName)
  }

  /** A name is run exactly when it was asked for and is a template name. */
  lemma {:induction false} KnownMembers(names: seq<string>)
    ensures forall x :: x in Known(names) <==> x in names && x in PromptNames
    decreases |names|
  {
    if names != [] {
      var n := |names|;
      KnownMembers(names[..n - 1]);
      assert names == names[..n - 1] + [names[n - 1]];
    }
  }

  /** With no list every template is run, in table order. */
  lemma AllByDefault()
    ensures ToTest(None) == PromptNames && ToTest(Some([])) == PromptNames
    ensures Known(PromptNames) == PromptNames
  {
    AllKnown(PromptNames);
  }

  lemma {:induction false} AllKnown(names: seq<string>)
    requires forall k :: 0 <= k < |names| ==> names[k] in PromptNames
    ensures Known(names) == names
    decreases |names|
  {
    if names != [] {
      var n := |names|;
      AllKnown(names[..n - 1]);
      assert names == names[..n - 1] + [names[n - 1]];
    }
  }

  /** The keys of an ordered result dict. */
  function KeysOf<V>(d: seq<(string, V)>): (ks: seq<string>)
    ensures |ks| == |d| && forall k :: 0 <= k < |d| ==> ks[k] == d[k].0
  {
    if d == [] then [] else [d[0].0] + KeysOf(d[1..])
  }

  /** `results[name] = result`: an existing key keeps its place and takes the new value, a new key goes last. */
  function Store<V>(d: seq<(string, V)>, key: string, v: V): (r: seq<(string, V)>)
    ensures KeysOf(r) == if key in KeysOf(d) then KeysOf(d) else KeysOf(d) + [key]
  {
    if d == [] then [(key, v)]
    else if d[0].0 == key then [(key, v)] + d[1..]
    else
      assert KeysOf(d) == [d[0].0] + KeysOf(d[1..]);
      [d[0]] + Store(d[1..], key, v)
  }

  /** The results dict after running the named prompts; `run(i, name)` is the outcome of the i-th run. */
  function Results(names: seq<string>, run: (nat, string) -> TestResult): seq<(string, TestResult)>
    decreases |names|
  {
    if names == [] then []
    else
      var n := |names|;
      var init := Results(names[..n - 1], run);
      if names[n - 1] in PromptNames then Store(init, names[n - 1], run(n - 1, names[n - 1])) else init
  }

  /** With no repeated name, the results dict has one entry per name run, in run order. */
  lemma {:induction false} ResultsKeys(names: seq<string>, run: (nat, string) -> TestResult)
    requires forall i, j :: 0 <= i < j < |names| ==> names[i] != names[j]
    ensures KeysOf(Results(names, run)) == Known(names)
    decreases |names|
  {
    if names != [] {
      var n := |names|;
      var init := names[..n - 1];
      ResultsKeys(init, run);
      KnownMembers(init);
      assert names[n - 1] !in init;
    }
  }

  /**
   * The comparison loop of `compare_prompts`: each requested name that is a template is run
   * and its result stored under its name; the names run are returned in order.
   */
  method ComparePrompts(prompts: Option<seq<string>>, run: (nat, string) -> TestResult)
    returns (ran: seq<string>, results: seq<(string, TestResult)>)
    ensures ran == Known(ToTest(prompts))
    ensures results == Results(ToTest(prompts), run)
  {
    var names := if prompts.Some? && prompts.value != [] then prompts.value else PromptNames;
    ran, results := RunPrompts(names, run);
  }

  /** The loop itself over a list of requested names. */
  method RunPrompts(names: seq<string>, run: (nat, string) -> TestResult)
    returns (ran: seq<string>, results: seq<(string, TestResult)>)
    ensures ran == Known(names) && results == Results(names, run)
  {
    ran, results := [], [];
    var i := 0;
    while i < |names|
      invariant 0 <= i <= |names|
      invariant ran == Known(names[..i]) && results == Results(names[..i], run)
    {
      FlatMapPrefix(names, i, KnownName);
      assert names[..i + 1][..i] == names[..i];
      var name := names[i];
      if name in PromptNames {
        var result := run(i, name);
        results := Store(results, name, result);
        ran := ran + [name];
      }
      i := i + 1;
    }
    assert names[..i] == names;
  }

  // ---------------------------------------------------------------- displaying one reply

  /** `parsed.get('key_points', parsed.get('key_decisions', parsed.get('discussion_summary', [])))`. */
  function KeyPoints(parsed: Fields): Json {
    GetOr(parsed, "key_points", GetOr(parsed, "key_decisions", GetOr(parsed, "discussion_summary", JArr([]))))
  }

  /** `parsed.get('next_steps', parsed.get('key_actions', parsed.get('action_items', [])))`. */
  function Actions(parsed: Fields): Json {
    GetOr(parsed, "next_steps", GetOr(parsed, "key_actions", GetOr(parsed, "action_items", JArr([]))))
  }

  /** The first key of the chain that is present wins; with none of them the list is empty. */
  lemma FallbackChains(parsed: Fields)
    ensures Get(parsed, "key_points").Some? ==> KeyPoints(parsed) == Get(parsed, "key_points").value
    ensures Get(parsed, "key_points").None? && Get(parsed, "key_decisions").Some? ==>
      KeyPoints(parsed) == Get(parsed, "key_decisions").value
    ensures Get(parsed, "key_points").None? && Get(parsed, "key_decisions").None? ==>
      KeyPoints(parsed) == GetOr(parsed, "discussion_summary", JArr([]))
    ensures "key_points" !in Keys(parsed) && "key_decisions" !in Keys(parsed) && "discussion_summary" !in Keys(parsed) ==>
      KeyPoints(parsed) == JArr([])
    ensures "next_steps" !in Keys(parsed) && "key_actions" !in Keys(parsed) && "action_items" !in Keys(parsed) ==>
      Actions(parsed) == JArr([])
    ensures Get(parsed, "next_steps").None? && Get(parsed, "key_actions").Some? ==>
      Actions(parsed) == Get(parsed, "key_actions").value
  {
    GetSpec(parsed, "key_points");
    GetSpec(parsed, "key_decisions");
    GetSpec(parsed, "discussion_summary");
    GetSpec(parsed, "next_steps");
    GetSpec(parsed, "key_actions");
    GetSpec(parsed, "action_items");
  }

  /** What `len(v)` and `v[:n]` iterate over: a list's items, or a string's characters; `None` where they raise. */
  function AsItems(v: Json): (r: Option<seq<Json>>)
    ensures v.JArr? ==> r == Some(v.items)
    ensures v.JStr? ==> r.Some? && |r.value| == |v.s|
    ensures !v.JArr? && !v.JStr? ==> r.None?
  {
    match v
    case JArr(items) => Some(items)
    case JStr(s) => Some(seq(|s|, i requires 0 <= i < |s| => JStr([s[i]])))
    case _ => None
  }

  /** The line of one key point: a string as is, a dict by its `decision` or `topic`, nothing otherwise. */
  function KeyPointLine(kp: Json): seq<string> {
    match kp
    case JStr(s) => ["  - " + s]
    case JObj(f) => ["  - " + PyStr(GetOr(f, "decision", GetOr(f, "topic", kp)))]
    case _ => []
  }

  /** The line of one action: a string as is, a dict as `description [assignee]`, nothing otherwise. */
  function ActionLine(a: Json): seq<string> {
    match a
    case JStr(s) => ["  - " + s]
    case JObj(f) =>
      var desc := GetOr(f, "description", GetOr(f, "action", JStr("")));
      var assignee := GetOr(f, "assignee", JStr("Unassigned"));
      ["  - " + PyStr(desc) + " [" + PyStr(assignee) + "]"]
    case _ => []
  }

  /** A truncated listing: the count printed in the heading, the item lines, and the "... and N more" line. */
  datatype Listing = Listing(count: nat, lines: seq<string>, more: Option<string>)

  function Min(a: nat, b: nat): nat { if a < b then a else b }

  /**
   * The listing of at most `limit` items of `v`; `None` where `len` or slicing raises. The
   * "more" line appears exactly when there are more items than the limit.
   */
  function ShowList(v: Json, limit: nat, line: Json -> seq<string>): (r: Option<Listing>)
    requires forall j :: |line(j)| <= 1
    ensures r.None? <==> AsItems(v).None?
    ensures r.Some? ==> r.value.count == |AsItems(v).value| && |r.value.lines| <= limit
    ensures r.Some? ==> (r.value.more.Some? <==> r.value.count > limit)
    ensures r.Some? && r.value.count > limit ==>
      r.value.more == Some("  ... and " + IntToString(r.value.count - limit) + " more")
  {
    match AsItems(v)
    case None => None
    case Some(items) =>
      var shown := items[..Min(limit, |items|)];
      FlatMapShort(shown, line);
      Some(Listing(|items|, FlatMap(shown, line), if |items| > limit then Some("  ... and " + IntToString(|items| - limit) + " more") else None))
  }

  lemma {:induction false} FlatMapShort(xs: seq<Json>, line: Json -> seq<string>)
    requires forall j :: |line(j)| <= 1
    ensures |FlatMap(xs, line)| <= |xs|
    decreases |xs|
  {
    if xs != [] {
      FlatMapShort(xs[..|xs| - 1], line);
    }
  }

  /**
   * The key-points and action-items blocks of the comparison summary: the first five key
   * points and the first three actions are shown, each followed by the count of the rest.
   */
  method ShowParsed(parsed: Fields) returns (points: Option<Listing>, actions: Option<Listing>)
    ensures points == ShowList(KeyPoints(parsed), 5, KeyPointLine)
    ensures actions == ShowList(Actions(parsed), 3, ActionLine)
  {
    points := ShowItems(KeyPoints(parsed), 5, KeyPointLine);
    actions := ShowItems(Actions(parsed), 3, ActionLine);
  }

  /** The printing loop over `v[:limit]`. */
  method ShowItems(v: Json, limit: nat, line: Json -> seq<string>) returns (r: Option<Listing>)
    requires forall j :: |line(j)| <= 1
    ensures r == ShowList(v, limit, line)
  {
    var items := AsItems(v);
    if items.None? {
      return None;
    }
    var xs := items.value;
    var shown := xs[..Min(limit, |xs|)];
    var lines := [];
    var i := 0;
    while i < |shown|
      invariant 0 <= i <= |shown| && lines == FlatMap(shown[..i], line)
    {
      assert shown[..i + 1][..i] == shown[..i];
      lines := lines + line(shown[i]);
      i := i + 1;
    }
    assert shown[..i] == shown;
    var more := if |xs| > limit then Some("  ... and " + IntToString(|xs| - limit) + " more") else None;
    r := Some(Listing(|xs|, lines, more));
  }

  // ---------------------------------------------------------------- show_prompt

  const PreviewLength := 500

  /** What `show_prompt` prints before the prompt text: an error for an unknown name, else a preview. */
  datatype ShowOutcome =
    | UnknownPrompt(lines: seq<string>)
    | Preview(totalChars: nat, preview: string, ellipsis: bool, promptName: string)

  /** `show_prompt`: an unknown name prints the error and the names, and no prompt is generated. */
  function ShowPrompt(name: string, transcript: string): (r: ShowOutcome)
    ensures r.UnknownPrompt? <==> name !in PromptNames
    ensures r.Preview? ==> r.promptName == name && r.totalChars == |transcript|
    ensures r.Preview? ==> |r.preview| <= PreviewLength && StartsWith(transcript, r.preview)
    ensures r.Preview? ==> (r.ellipsis <==> r.preview != transcript)
  {
    if name !in PromptNames then
      UnknownPrompt(["Error: Unknown prompt template '" + name + "'", "Available prompts: " + Join(", ", PromptNames)])
    else
      var preview := transcript[..Min(PreviewLength, |transcript|)];
      Preview(|transcript|, preview, |transcript| > PreviewLength, name)
  }
}
