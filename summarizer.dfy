/**
 * `OllamaSummarizer`'s handling of a model reply: the retry loop around the chat call, the
 * clean-up of the reply text (Markdown fences, the `{`…`}` span), the mapping of the parsed
 * JSON into `ActionItem`/`Decision` lists, the fallback summaries, and the model selection of
 * `set_model`/`test_connection`. The chat client, `json.loads` and the regular-expression
 * repair are parameters.
 */
module Summarizer {
  import opened Wrappers
  import opened Strings
  import opened Json
  import opened Models
  import opened Seqs

  const MaxRetries := 3

  /** The reply of the first successful chat attempt from attempt `k` on, if any succeeds. */
  function FirstReplyFrom(chat: nat -> Option<string>, k: nat): (r: Option<string>)
    ensures r.Some? ==> exists j :: k <= j < MaxRetries && r == chat(j)
    decreases MaxRetries - k
  {
    if k >= MaxRetries then None
    else if chat(k).Some? then chat(k)
    else FirstReplyFrom(chat, k + 1)
  }


  /**
   * The retry loop: at most three chat attempts, stopping at the first success. `chat(k)` is
   * the reply content of attempt `k`, or `None` when that attempt raises.
   */
  method ChatWithRetries(chat: nat -> Option<string>) returns (reply: Option<string>, attempts: nat)
    ensures 1 <= attempts <= MaxRetries
    ensures reply == FirstReplyFrom(chat, 0)
    ensures reply.Some? ==> reply == chat(attempts - 1)
    ensures forall k :: 0 <= k < attempts - 1 ==> chat(k).None?
    ensures reply.None? ==> attempts == MaxRetries
  {
    attempts := 0;
    reply := None;
    while attempts < MaxRetries
      invariant 0 <= attempts <= MaxRetries
      invariant forall k :: 0 <= k < attempts ==> chat(k).None?
      invariant FirstReplyFrom(chat, 0) == FirstReplyFrom(chat, attempts)
    {
      var response := chat(attempts);
      attempts := attempts + 1;
      if response.Some? {
        return response, attempts;
      }
    }
  }

  /** The Markdown-fence clean-up of a stripped reply. */
  function StripFences(text: string): string {
    if StartsWith(text, "```json") then Strip(ReplaceAll(ReplaceAll(text, "```json", ""), "```", ""))
    else if StartsWith(text, "```") then Strip(ReplaceAll(text, "```", ""))
    else text
  }

  /** `text[find('{'):rfind('}') + 1].strip()` when both braces occur, else the text itself. */
  function ExtractBraces(text: string): string {
    if '{' in text && '}' in text then BracesAt(text, Find(text, '{'), RFind(text, '}')) else text
  }

  /** `text[start:last + 1].strip()`: empty when `last` comes before `start`. */
  function BracesAt(text: string, start: int, last: int): string
    requires 0 <= start < |text| && 0 <= last < |text|
  {
    if start <= last then Strip(text[start..last + 1]) else ""
  }

  /**
   * With both braces present, the result is the span from the first `{` through the last `}`
   * (nothing to strip: it starts and ends with a brace), and empty when the last `}` comes
   * before the first `{`. Without both braces the text is kept.
   */
  lemma {:induction false} ExtractBracesCases(text: string)
    ensures !('{' in text && '}' in text) ==> ExtractBraces(text) == text
    ensures '{' in text && '}' in text && Find(text, '{') < RFind(text, '}') ==>
      var i, j := Find(text, '{'), RFind(text, '}');
      var r := ExtractBraces(text);
      r == text[i..j + 1] && r[0] == '{' && r[|r| - 1] == '}' && '{' !in text[..i] && '}' !in text[j + 1..]
    ensures '{' in text && '}' in text && Find(text, '{') > RFind(text, '}') ==> ExtractBraces(text) == ""
  {
    if '{' in text && '}' in text {
      var i, j := Find(text, '{'), RFind(text, '}');
      assert ExtractBraces(text) == BracesAt(text, i, j);
      if i < j {
        BraceSpan(text, i, j);
        assert |text[i..j + 1]| - 1 == j - i;
      } else if i > j {
        BracesReversed(text, i, j);
      }
    }
  }

  lemma BraceSpan(text: string, i: int, j: int)
    requires 0 <= i < j < |text|
    requires i == Find(text, '{') && j == RFind(text, '}')
    ensures ExtractBraces(text) == text[i..j + 1]
    ensures '{' !in text[..i] && '}' !in text[j + 1..]
    ensures text[i..j + 1][0] == '{' && text[i..j + 1][j - i] == '}'
  {
    StripSliceKeeps(text, i, j + 1);
    var prefix, suffix := text[..i], text[j + 1..];
    assert forall k :: 0 <= k < |prefix| ==> prefix[k] == text[k];
    assert forall k :: 0 <= k < |suffix| ==> suffix[k] == text[j + 1 + k];
  }

  lemma BracesReversed(text: string, i: int, j: int)
    requires 0 <= j < i < |text|
    requires i == Find(text, '{') && j == RFind(text, '}')
    ensures ExtractBraces(text) == ""
  {
  }

  /** The text handed to `json.loads`: the reply stripped, unfenced and cut to its braces. */
  function CleanResponse(content: string): string {
    ExtractBraces(StripFences(Strip(content)))
  }

  /** Fence removal on text without backticks. */
  lemma FencesAround(body: string)
    requires '`' !in body
    ensures ReplaceAll(ReplaceAll("```json" + body + "```", "```json", ""), "```", "") == body
    ensures ReplaceAll("```" + body + "```", "```", "") == body
  {
    JsonFenceAround(body);
    ClosingFence(body);
    PlainFenceAround(body);
  }

  lemma JsonFenceAround(body: string)
    requires '`' !in body
    ensures ReplaceAll("```json" + body + "```", "```json", "") == body + "```"
  {
    var open, close := "```json", "```";
    assert open + body + close == open + (body + close);
    ReplaceFront(open, body + close, "");
    ReplaceSkips(body, close, open, "");
    assert ReplaceAll(close, open, "") == close;
  }

  lemma PlainFenceAround(body: string)
    requires '`' !in body
    ensures ReplaceAll("```" + body + "```", "```", "") == body
  {
    var fence := "```";
    ClosingFence(body);
    assert fence + body + fence == fence + (body + fence);
    ReplaceFront(fence, body + fence, "");
  }

  /** A closing fence after text without backticks is dropped. */
  lemma ClosingFence(body: string)
    requires '`' !in body
    ensures ReplaceAll(body + "```", "```", "") == body
  {
    ReplaceSkips(body, "```", "```", "");
    ReplaceFront("```", "", "");
    assert "```" + "" == "```";
  }

  /** A text that starts with `{` and ends with `}` is its own brace span. */
  lemma ExtractWholeObject(obj: string)
    requires |obj| >= 2 && obj[0] == '{' && obj[|obj| - 1] == '}'
    ensures ExtractBraces(obj) == obj
  {
    FindAt(obj, '{', 0);
    RFindAt(obj, '}', |obj| - 1);
    assert obj[0..|obj|] == obj;
    StripKeeps(obj);
  }

  /** Stripping a line break on each side of a text without outer whitespace. */
  lemma StripNewlines(obj: string)
    requires |obj| > 0 && !IsSpace(obj[0]) && !IsSpace(obj[|obj| - 1])
    ensures Strip("\n" + obj + "\n") == obj
  {
    var body := "\n" + obj + "\n";
    assert body[1..] == obj + "\n";
    assert LStrip(body) == LStrip(obj + "\n");
    assert LStrip(obj + "\n") == obj + "\n";
    assert (obj + "\n")[..|obj|] == obj;
    assert RStrip(obj + "\n") == RStrip(obj);
    assert RStrip(obj) == obj;
  }

  /** A JSON object in a ```` ```json ```` fence comes out of the clean-up as exactly the object text. */
  lemma CleanFencedObject(inner: string)
    requires '`' !in inner
    ensures CleanResponse("```json\n{" + inner + "}\n```") == "{" + inner + "}"
  {
    var obj := "{" + inner + "}";
    var content := "```json" + ("\n" + obj + "\n") + "```";
    assert "```json\n{" + inner + "}\n```" == content;
    FencedStripped(inner);
    ExtractWholeObject(obj);
  }

  /** The fence clean-up of a fenced object gives the object text. */
  lemma FencedStripped(inner: string)
    requires '`' !in inner
    ensures var obj := "{" + inner + "}";
      StripFences(Strip("```json" + ("\n" + obj + "\n") + "```")) == obj
  {
    var obj := "{" + inner + "}";
    var body := "\n" + obj + "\n";
    var content := "```json" + body + "```";
    StripKeeps(content);
    assert content[..7] == "```json";
    BodyHasNoBacktick(inner);
    FencesAround(body);
    StripNewlines(obj);
  }

  lemma BodyHasNoBacktick(inner: string)
    requires '`' !in inner
    ensures '`' !in "\n" + ("{" + inner + "}") + "\n"
  {
    var body := "\n" + ("{" + inner + "}") + "\n";
    assert forall k :: 0 <= k < |body| ==> body[k] == '\n' || body[k] == '{' || body[k] == '}' || body[k] in inner;
  }

  /** A preamble without `{` and a trailer without `}` are cut off around the object. */
  lemma ExtractAroundObject(pre: string, inner: string, post: string)
    requires '{' !in pre && '}' !in post
    ensures ExtractBraces(pre + "{" + inner + "}" + post) == "{" + inner + "}"
  {
    var obj := "{" + inner + "}";
    var t := pre + obj + post;
    assert pre + "{" + inner + "}" + post == t;
    var i := |pre|;
    var j := |pre| + |obj| - 1;
    assert t[..i] == pre && t[i] == '{' by {
      assert (pre + obj)[..i] == pre;
    }
    assert t[j + 1..] == post && t[j] == '}' by {
      assert t == (pre + obj) + post;
    }
    FindAt(t, '{', i);
    RFindAt(t, '}', j);
    assert t[i..j + 1] == obj by {
      assert (pre + obj)[i..] == obj;
    }
    StripKeeps(obj);
  }

  /** The values a `for` loop over a parsed JSON value visits; `None` when it is not iterable. */
  function Iterate(j: Json): (r: Option<seq<Json>>)
    ensures j.JArr? ==> r == Some(j.items)
    ensures r.None? <==> j.JNull? || j.JBool? || j.JNum?
  {
    match j
    case JArr(items) => Some(items)
    case JStr(s) => Some(seq(|s|, i requires 0 <= i < |s| => JStr([s[i]])))
    case JObj(fields) => Some(seq(|fields|, i requires 0 <= i < |fields| => JStr(fields[i].0)))
    case _ => None
  }

  /**
   * One `next_steps` entry as an `ActionItem`: `description` defaults to `''`, a missing or
   * falsy `assignee` becomes `''`, `deadline` is passed through. Anything that is not an
   * object, or whose fields fail validation, raises (`None`).
   */
  function ActionFrom(j: Json): (r: Option<ActionItem>)
    ensures r.Some? ==> j.JObj? && r.value.assignee.Some?
    ensures r.Some? && Get(j.fields, "description").None? ==> r.value.description == ""
    ensures r.Some? && !Truthy(GetOr(j.fields, "assignee", JNull)) ==> r.value.assignee == Some("")
    ensures r.Some? && Get(j.fields, "deadline").None? ==> r.value.deadline.None?
  {
    match j
    case JObj(f) =>
      var assignee := GetOr(f, "assignee", JStr(""));
      var kw := [ ("description", GetOr(f, "description", JStr(""))),
                  ("assignee", if Truthy(assignee) then assignee else JStr("")),
                  ("deadline", GetOr(f, "deadline", JNull)) ];
      GetFirst(kw, 1);
      GetFirst(kw, 2);
      NewActionItem(kw)
    case _ => None
  }

  /** All entries mapped in order, or `None` as soon as one raises. */
  function ActionsFrom(items: seq<Json>): (r: Option<seq<ActionItem>>)
    ensures r.Some? <==> forall i :: 0 <= i < |items| ==> ActionFrom(items[i]).Some?
    ensures r.Some? ==> |r.value| == |items| && forall i :: 0 <= i < |items| ==> r.value[i] == ActionFrom(items[i]).value
  {
    if items == [] then Some([])
    else
      match (ActionFrom(items[0]), ActionsFrom(items[1..]))
      case (Some(a), Some(rest)) => Some([a] + rest)
      case (None, _) => None
      case (_, None) =>
        var i :| 0 <= i < |items[1..]| && ActionFrom(items[1..][i]).None?;
        assert ActionFrom(items[i + 1]).None?;
        None
  }

  /**
   * One `key_points` entry: a string becomes `Decision(point, '', '')`, an object uses its
   * `point` and `context` (default `''`), anything else is dropped (`Some(None)`). A field
   * that fails validation raises (`None`).
   */
  function DecisionFrom(j: Json): (r: Option<Option<Decision>>)
    ensures j.JStr? ==> r == Some(Some(Decision(j.s, Some(""), "")))
    ensures !j.JStr? && !j.JObj? ==> r == Some(None)
    ensures r.Some? && r.value.Some? ==> r.value.value.assignee == Some("")
  {
    match j
    case JStr(s) => Some(Some(Decision(s, Some(""), "")))
    case JObj(f) =>
      var kw := [ ("decision", GetOr(f, "point", JStr(""))), ("assignee", JStr("")), ("context", GetOr(f, "context", JStr(""))) ];
      GetFirst(kw, 1);
      (match NewDecision(kw)
       case Some(d) => Some(Some(d))
       case None => None)
    case _ => Some(None)
  }

  /**
   * A `next_steps` object entry in full: it maps exactly when `description` (default `''`) is
   * a string, a truthy `assignee` is a string, and `deadline` is a string, null or absent.
   */
  lemma ActionFromFields(f: Fields)
    ensures var d := GetOr(f, "description", JStr(""));
      var a := GetOr(f, "assignee", JStr(""));
      var dl := GetOr(f, "deadline", JNull);
      ActionFrom(JObj(f)) ==
        if d.JStr? && (!Truthy(a) || a.JStr?) && (dl.JNull? || dl.JStr?)
        then Some(ActionItem(d.s, Some(if Truthy(a) then a.s else ""), if dl.JNull? then None else Some(dl.s)))
        else None
  {
    var a := GetOr(f, "assignee", JStr(""));
    var kw := [ ("description", GetOr(f, "description", JStr(""))),
                ("assignee", if Truthy(a) then a else JStr("")),
                ("deadline", GetOr(f, "deadline", JNull)) ];
    GetFirst(kw, 0);
    GetFirst(kw, 1);
    GetFirst(kw, 2);
  }

  /**
   * A `key_points` object entry in full: it maps exactly when `point` and `context` (both
   * defaulting to `''`) are strings, and the decision carries them with an empty assignee.
   */
  lemma DecisionFromFields(f: Fields)
    ensures var p := GetOr(f, "point", JStr(""));
      var c := GetOr(f, "context", JStr(""));
      DecisionFrom(JObj(f)) ==
        if p.JStr? && c.JStr? then Some(Some(Decision(p.s, Some(""), c.s))) else None
  {
    var kw := [ ("decision", GetOr(f, "point", JStr(""))), ("assignee", JStr("")), ("context", GetOr(f, "context", JStr(""))) ];
    GetFirst(kw, 0);
    GetFirst(kw, 1);
    GetFirst(kw, 2);
  }

  /** The decisions of all entries, in order, or `None` as soon as one raises. */
  function DecisionsFrom(items: seq<Json>): Option<seq<Decision>>
    decreases |items|
  {
    if items == [] then Some([])
    else
      var init := DecisionsFrom(items[..|items| - 1]);
      var d := DecisionFrom(items[|items| - 1]);
      if init.None? || d.None? then None else Some(init.value + Kept(d.value))
  }

  /**
   * The mapping succeeds exactly when no entry raises, and then holds what each entry
   * contributes, in entry order: never more decisions than entries.
   */
  lemma {:induction false} DecisionsFromSpec(items: seq<Json>)
    ensures DecisionsFrom(items).Some? <==> forall i :: 0 <= i < |items| ==> DecisionFrom(items[i]).Some?
    ensures DecisionsFrom(items).Some? ==> DecisionsFrom(items).value == FlatMap(items, Contributed)
    ensures DecisionsFrom(items).Some? ==> |DecisionsFrom(items).value| <= |items|
    decreases |items|
  {
    if items != [] {
      var n := |items|;
      var init := items[..n - 1];
      DecisionsFromSpec(init);
      assert forall i :: 0 <= i < n - 1 ==> init[i] == items[i];
      if DecisionsFrom(items).Some? {
        assert Contributed(items[n - 1]) == Kept(DecisionFrom(items[n - 1]).value);
      }
    }
  }

  /** The decision an entry contributes: none when it was dropped. */
  function Kept(d: Option<Decision>): (ds: seq<Decision>)
    ensures |ds| <= 1
  {
    if d.Some? then [d.value] else []
  }

  /** What one entry that does not raise contributes to the decisions. */
  function Contributed(j: Json): (ds: seq<Decision>)
    ensures |ds| <= 1
  {
    match DecisionFrom(j)
    case Some(d) => Kept(d)
    case None => []
  }

  /** Mapping two runs of entries maps each, and the decisions are joined in order. */
  lemma DecisionsFromAppend(a: seq<Json>, b: seq<Json>)
    ensures DecisionsFrom(a + b) ==
      if DecisionsFrom(a).Some? && DecisionsFrom(b).Some? then Some(DecisionsFrom(a).value + DecisionsFrom(b).value) else None
  {
    var r := DecisionsFrom(a + b);
    DecisionsFromSpec(a);
    DecisionsFromSpec(b);
    DecisionsFromSpec(a + b);
    assert forall i :: 0 <= i < |a| ==> (a + b)[i] == a[i];
    assert forall i :: 0 <= i < |b| ==> (a + b)[|a| + i] == b[i];
    if r.Some? {
      FlatMapAppend(a, b, Contributed);
    }
  }

  /** Once an entry raises, the whole mapping raises, whatever follows it. */
  lemma {:induction false} DecisionsFromPrefix(items: seq<Json>, i: int)
    requires 0 <= i <= |items| && DecisionsFrom(items[..i]).None?
    ensures DecisionsFrom(items).None?
    decreases |items|
  {
    if i == |items| {
      assert items[..i] == items;
    } else {
      var init := items[..|items| - 1];
      assert init[..i] == items[..i];
      DecisionsFromPrefix(init, i);
    }
  }

  /** A list of plain strings gives one `Decision(point, '', '')` per string, in order. */
  lemma {:induction false} DecisionsFromStrings(points: seq<string>)
    ensures DecisionsFrom(StrsToJson(points).items) == Some(seq(|points|, i requires 0 <= i < |points| => Decision(points[i], Some(""), "")))
  {
    var items := StrsToJson(points).items;
    if points != [] {
      var n := |points|;
      var init := points[..n - 1];
      assert items[..n - 1] == StrsToJson(init).items;
      DecisionsFromStrings(init);
      assert DecisionFrom(items[n - 1]) == Some(Some(Decision(points[n - 1], Some(""), "")));
      assert seq(|init|, i requires 0 <= i < |init| => Decision(init[i], Some(""), "")) + [Decision(points[n - 1], Some(""), "")]
          == seq(|points|, i requires 0 <= i < |points| => Decision(points[i], Some(""), ""));
    }
  }

  /** The `next_steps` loop. */
  method MapActions(items: seq<Json>) returns (actions: Option<seq<ActionItem>>)
    ensures actions == ActionsFrom(items)
  {
    var acc: seq<ActionItem> := [];
    var i := 0;
    while i < |items|
      invariant 0 <= i <= |items|
      invariant |acc| == i && forall k :: 0 <= k < i ==> ActionFrom(items[k]).Some? && acc[k] == ActionFrom(items[k]).value
    {
      var a := ActionFrom(items[i]);
      if a.None? {
        return None;
      }
      acc := acc + [a.value];
      i := i + 1;
    }
    assert ActionsFrom(items).Some?;
    assert ActionsFrom(items).value == acc;
    actions := Some(acc);
  }

  /** The `key_points` loop. */
  method MapDecisions(items: seq<Json>) returns (decisions: Option<seq<Decision>>)
    ensures decisions == DecisionsFrom(items)
  {
    var acc: seq<Decision> := [];
    var i := 0;
    while i < |items|
      invariant 0 <= i <= |items|
      invariant DecisionsFrom(items[..i]) == Some(acc)
    {
      assert items[..i + 1][..i] == items[..i];
      var d := DecisionFrom(items[i]);
      if d.None? {
        DecisionsFromPrefix(items, i + 1);
        return None;
      }
      assert items[..i + 1][i] == items[i];
      acc := acc + Kept(d.value);
      i := i + 1;
    }
    assert items[..i] == items;
    decisions := Some(acc);
  }

  /** `f"{duration_minutes} minutes"`. */
  function DurationText(minutes: int): string {
    IntToString(minutes) + " minutes"
  }

  /** The keyword arguments the summary is built from, after the two lists are mapped. */
  function SummaryKwargs(f: Fields, minutes: int, actions: seq<ActionItem>, decisions: seq<Decision>, transcript: string): Fields {
    [ ("duration", JStr(DurationText(minutes))),
      ("overview", GetOr(f, "overview", JStr(""))),
      ("participants", GetOr(f, "participants", JArr([]))),
      ("key_actions", ActionsToJson(actions)),
      ("key_decisions", DecisionsToJson(decisions)),
      ("transcript", JStr(transcript)) ]
  }

  /**
   * The summary built from a parsed reply. A reply that is not an object, an entry that
   * raises, or a field of the wrong type gives `None` (the source catches the error).
   */
  function BuildSummary(data: Json, minutes: int, transcript: string, freshId: string, today: string): (r: Option<MeetingTranscript>)
    ensures r.Some? ==> data.JObj?
    ensures r.Some? ==>
      r.value.meetingId == freshId && r.value.date == today &&
      r.value.duration == DurationText(minutes) && r.value.transcript == transcript &&
      Iterate(GetOr(data.fields, "next_steps", JArr([]))).Some? &&
      Some(r.value.keyActions) == ActionsFrom(Iterate(GetOr(data.fields, "next_steps", JArr([]))).value) &&
      Iterate(GetOr(data.fields, "key_points", JArr([]))).Some? &&
      Some(r.value.keyDecisions) == DecisionsFrom(Iterate(GetOr(data.fields, "key_points", JArr([]))).value)
  {
    match data
    case JObj(f) =>
      var steps := Iterate(GetOr(f, "next_steps", JArr([])));
      var points := Iterate(GetOr(f, "key_points", JArr([])));
      if steps.None? || points.None? then None
      else
        var actions := ActionsFrom(steps.value);
        var decisions := DecisionsFrom(points.value);
        if actions.None? || decisions.None? then None
        else
          var kw := SummaryKwargs(f, minutes, actions.value, decisions.value, transcript);
          SummaryKwargsFields(f, minutes, actions.value, decisions.value, transcript, freshId, today);
          NewMeetingTranscript(kw, freshId, today)
    case _ => None
  }

  /**
   * Validating the keyword arguments: the summary exists exactly when `overview` is a string
   * and `participants` a list of strings, and then it holds the mapped lists unchanged.
   */
  lemma SummaryKwargsFields(f: Fields, minutes: int, actions: seq<ActionItem>, decisions: seq<Decision>, transcript: string,
                            freshId: string, today: string)
    ensures var r := NewMeetingTranscript(SummaryKwargs(f, minutes, actions, decisions, transcript), freshId, today);
      var overview := GetOr(f, "overview", JStr(""));
      var participants := StrList(GetOr(f, "participants", JArr([])));
      (r.Some? <==> overview.JStr? && participants.Some?) &&
      (r.Some? ==> r.value == MeetingTranscript(freshId, today, DurationText(minutes), overview.s, participants.value,
                                                actions, decisions, transcript))
  {
    var kw := SummaryKwargs(f, minutes, actions, decisions, transcript);
    KwargsLookups(f, minutes, actions, decisions, transcript);
    ActionsRoundTrip(actions);
    DecisionsRoundTrip(decisions);
    assert ArrayField(kw, "key_actions") == Some(ActionsToJson(actions).items);
    assert ArrayField(kw, "key_decisions") == Some(DecisionsToJson(decisions).items);
  }

  /** Each keyword argument is found under its name, and the two generated fields are absent. */
  lemma KwargsLookups(f: Fields, minutes: int, actions: seq<ActionItem>, decisions: seq<Decision>, transcript: string)
    ensures var kw := SummaryKwargs(f, minutes, actions, decisions, transcript);
      Get(kw, "duration") == Some(JStr(DurationText(minutes))) &&
      Get(kw, "overview") == Some(GetOr(f, "overview", JStr(""))) &&
      Get(kw, "participants") == Some(GetOr(f, "participants", JArr([]))) &&
      Get(kw, "key_actions") == Some(ActionsToJson(actions)) &&
      Get(kw, "key_decisions") == Some(DecisionsToJson(decisions)) &&
      Get(kw, "transcript") == Some(JStr(transcript)) &&
      Get(kw, "meeting_id").None? && Get(kw, "date").None?
  {
    var kw := SummaryKwargs(f, minutes, actions, decisions, transcript);
    KwargsHead(kw);
    KwargsTail(kw);
    KwargsGenerated(kw);
  }

  lemma KwargsHead(kw: Fields)
    requires |kw| == 6 && kw[0].0 == "duration" && kw[1].0 == "overview" && kw[2].0 == "participants"
    ensures Get(kw, "duration") == Some(kw[0].1) && Get(kw, "overview") == Some(kw[1].1)
    ensures Get(kw, "participants") == Some(kw[2].1)
  {
    GetFirst(kw, 0);
    GetFirst(kw, 1);
    GetFirst(kw, 2);
  }

  lemma KwargsTail(kw: Fields)
    requires |kw| == 6 && kw[0].0 == "duration" && kw[1].0 == "overview" && kw[2].0 == "participants"
    requires kw[3].0 == "key_actions" && kw[4].0 == "key_decisions" && kw[5].0 == "transcript"
    ensures Get(kw, "key_actions") == Some(kw[3].1) && Get(kw, "key_decisions") == Some(kw[4].1)
    ensures Get(kw, "transcript") == Some(kw[5].1)
  {
    GetFirst(kw, 3);
    GetFirst(kw, 4);
    GetFirst(kw, 5);
  }

  lemma KwargsGenerated(kw: Fields)
    requires Keys(kw) == ["duration", "overview", "participants", "key_actions", "key_decisions", "transcript"]
    ensures Get(kw, "meeting_id").None? && Get(kw, "date").None?
  {
    GetSpec(kw, "meeting_id");
    GetSpec(kw, "date");
  }

  /** An empty object gives an empty summary with the default overview and participants. */
  lemma EmptyReplySummary(minutes: int, transcript: string, freshId: string, today: string)
    ensures BuildSummary(JObj([]), minutes, transcript, freshId, today) ==
      Some(MeetingTranscript(freshId, today, DurationText(minutes), "", [], [], [], transcript))
  {
    SummaryKwargsFields([], minutes, [], [], transcript, freshId, today);
  }

  /** `not t or t.strip() == "" or t.lower().strip() == "none"`. */
  predicate IsPlaceholderInput(transcript: string) {
    transcript == "" || Strip(transcript) == "" || Strip(Lower(transcript)) == "none"
  }

  const PlaceholderOverview := "No transcript was generated for this recording. This may be due to poor audio quality, silence throughout the recording, or technical issues with the speech recognition system."

  /** The keyword arguments of the placeholder summary, spelled as the source spells them. */
  function PlaceholderKwargs(minutes: int): Fields {
    [ ("overview", JStr(PlaceholderOverview)),
      ("participants", JArr([])),
      ("action_items", JArr([])),
      ("decisions", JArr([])),
      ("duration_minutes", JNum(minutes)) ]
  }

  /**
   * The placeholder never validates: `duration`, `key_actions`, `key_decisions` and
   * `transcript` are all missing, so the construction raises and the call returns `None`.
   */
  lemma PlaceholderFails(minutes: int, freshId: string, today: string)
    ensures NewMeetingTranscript(PlaceholderKwargs(minutes), freshId, today).None?
  {
    var kw := PlaceholderKwargs(minutes);
    assert Keys(kw) == ["overview", "participants", "action_items", "decisions", "duration_minutes"];
    GetSpec(kw, "duration");
  }

  const FallbackOverview := "Meeting transcript recorded but detailed analysis failed. Content appears to be in a non-English language or format not fully supported."

  /** The summary returned when neither the cleaned reply nor its repair parses. */
  function FallbackSummary(minutes: int, transcript: string, freshId: string, today: string): (r: Option<MeetingTranscript>)
    ensures r == Some(MeetingTranscript(freshId, today, DurationText(minutes), FallbackOverview, [], [], [], transcript))
  {
    var f := [("overview", JStr(FallbackOverview))];
    GetFirst(f, 0);
    GetSpec(f, "participants");
    SummaryKwargsFields(f, minutes, [], [], transcript, freshId, today);
    NewMeetingTranscript(SummaryKwargs(f, minutes, [], [], transcript), freshId, today)
  }

  /**
   * `summarize_transcript` as a function of the first chat reply. `parse` is `json.loads`
   * (`None` on a decode error) and `repair` the regular-expression rewrite applied before
   * the second parse.
   */
  function SummarizeSpec(transcript: string, minutes: int, reply: Option<string>, parse: string -> Option<Json>,
                         repair: string -> string, freshId: string, today: string): (r: Option<MeetingTranscript>)
    ensures IsPlaceholderInput(transcript) ==> r.None?
    ensures !IsPlaceholderInput(transcript) && reply.None? ==> r.None?
    ensures !IsPlaceholderInput(transcript) && reply.Some? && parse(CleanResponse(reply.value)).None? &&
            parse(repair(CleanResponse(reply.value))).None? ==>
      r == Some(MeetingTranscript(freshId, today, DurationText(minutes), FallbackOverview, [], [], [], transcript))
    ensures !IsPlaceholderInput(transcript) && reply.Some? && parse(CleanResponse(reply.value)).Some? ==>
      r == BuildSummary(parse(CleanResponse(reply.value)).value, minutes, transcript, freshId, today)
    ensures !IsPlaceholderInput(transcript) && reply.Some? && parse(CleanResponse(reply.value)).None? &&
            parse(repair(CleanResponse(reply.value))).Some? ==>
      r == BuildSummary(parse(repair(CleanResponse(reply.value))).value, minutes, transcript, freshId, today)
    ensures r.Some? ==> r.value.transcript == transcript && r.value.duration == DurationText(minutes)
  {
    if IsPlaceholderInput(transcript) then
      PlaceholderFails(minutes, freshId, today);
      NewMeetingTranscript(PlaceholderKwargs(minutes), freshId, today)
    else if reply.None? then None
    else ReplySummary(CleanResponse(reply.value), minutes, transcript, parse, repair, freshId, today)
  }

  /**
   * The summary built from a cleaned reply: the mapping of the reply as parsed, else of the
   * repaired reply as parsed, else the fallback. Whatever it is, it carries the transcript and
   * the duration text.
   */
  function ReplySummary(text: string, minutes: int, transcript: string, parse: string -> Option<Json>,
                        repair: string -> string, freshId: string, today: string): (r: Option<MeetingTranscript>)
    ensures parse(text).Some? ==> r == BuildSummary(parse(text).value, minutes, transcript, freshId, today)
    ensures parse(text).None? && parse(repair(text)).Some? ==>
      r == BuildSummary(parse(repair(text)).value, minutes, transcript, freshId, today)
    ensures parse(text).None? && parse(repair(text)).None? ==> r == FallbackSummary(minutes, transcript, freshId, today)
    ensures r.Some? ==> r.value.transcript == transcript && r.value.duration == DurationText(minutes)
  {
    match parse(text)
    case Some(data) => BuildSummary(data, minutes, transcript, freshId, today)
    case None =>
      match parse(repair(text))
      case Some(data) => BuildSummary(data, minutes, transcript, freshId, today)
      case None => FallbackSummary(minutes, transcript, freshId, today)
  }

  /** When the cleaned reply parses as it is, the repair is never consulted. */
  lemma RepairUnusedOnParse(text: string, minutes: int, transcript: string, parse: string -> Option<Json>,
                            repair: string -> string, repair': string -> string, freshId: string, today: string)
    requires parse(text).Some?
    ensures ReplySummary(text, minutes, transcript, parse, repair, freshId, today) ==
            ReplySummary(text, minutes, transcript, parse, repair', freshId, today)
  {
  }

  /** A reply that parses to an object with no entries gives the empty summary. */
  lemma EmptyObjectReply(transcript: string, minutes: int, reply: string, parse: string -> Option<Json>,
                         repair: string -> string, freshId: string, today: string)
    requires !IsPlaceholderInput(transcript) && parse(CleanResponse(reply)) == Some(JObj([]))
    ensures SummarizeSpec(transcript, minutes, Some(reply), parse, repair, freshId, today) ==
      Some(MeetingTranscript(freshId, today, DurationText(minutes), "", [], [], [], transcript))
  {
    EmptyReplySummary(minutes, transcript, freshId, today);
  }

  const DefaultModel := "llama3.2:3b"
  const EnhancedOverview := "Meeting transcript was processed but JSON parsing failed."
  const ExtractedContext := "Extracted from partially parsed response"

  /** The decisions `_create_enhanced_fallback` makes of the extracted key points. */
  function ExtractedDecisions(points: seq<string>): (ds: seq<Decision>)
    ensures |ds| == |points|
    ensures forall i :: 0 <= i < |points| ==> ds[i] == Decision(points[i], Some(""), ExtractedContext)
  {
    seq(|points|, i requires 0 <= i < |points| => Decision(points[i], Some(""), ExtractedContext))
  }

  /**
   * `OllamaSummarizer`. The service start-up, the model pull and the client object are not
   * modelled: the client's replies are parameters of each method.
   */
  class OllamaSummarizer {
    var modelName: string

    constructor (modelName: string)
      ensures this.modelName == modelName
    {
      this.modelName := modelName;
    }

    /**
     * `summarize_transcript`: a placeholder transcript makes no chat attempt; otherwise up to
     * three attempts, then the clean-up, the two parses and the two mapping loops.
     */
    method Summarize(transcript: string, minutes: int, chat: nat -> Option<string>, parse: string -> Option<Json>,
                     repair: string -> string, freshId: string, today: string) returns (r: Option<MeetingTranscript>, attempts: nat)
      ensures r == SummarizeSpec(transcript, minutes, FirstReplyFrom(chat, 0), parse, repair, freshId, today)
      ensures IsPlaceholderInput(transcript) <==> attempts == 0
      ensures attempts <= MaxRetries
    {
      if transcript == "" || Strip(transcript) == "" || Strip(Lower(transcript)) == "none" {
        PlaceholderFails(minutes, freshId, today);
        return NewMeetingTranscript(PlaceholderKwargs(minutes), freshId, today), 0;
      }
      var reply;
      reply, attempts := ChatWithRetries(chat);
      if reply.None? {
        return None, attempts;
      }
      var text := CleanResponse(reply.value);
      r := SummarizeReply(text, minutes, transcript, parse, repair, freshId, today);
    }

    /** The parse, the repaired parse and the mapping of one cleaned reply. */
    method SummarizeReply(text: string, minutes: int, transcript: string, parse: string -> Option<Json>,
                          repair: string -> string, freshId: string, today: string) returns (r: Option<MeetingTranscript>)
      ensures r == ReplySummary(text, minutes, transcript, parse, repair, freshId, today)
      ensures parse(text).Some? ==> r == BuildSummary(parse(text).value, minutes, transcript, freshId, today)
      ensures parse(text).None? && parse(repair(text)).Some? ==>
        r == BuildSummary(parse(repair(text)).value, minutes, transcript, freshId, today)
      ensures parse(text).None? && parse(repair(text)).None? ==> r == FallbackSummary(minutes, transcript, freshId, today)
    {
      var data := parse(text);
      if data.None? {
        data := parse(repair(text));
        if data.None? {
          return FallbackSummary(minutes, transcript, freshId, today);
        }
      }
      r := MapSummary(data.value, minutes, transcript, freshId, today);
    }

    /** The `try` block that builds the summary from the parsed reply, with its two loops. */
    method MapSummary(data: Json, minutes: int, transcript: string, freshId: string, today: string) returns (r: Option<MeetingTranscript>)
      ensures r == BuildSummary(data, minutes, transcript, freshId, today)
    {
      if !data.JObj? {
        return None;
      }
      var f := data.fields;
      var steps := Iterate(GetOr(f, "next_steps", JArr([])));
      if steps.None? {
        return None;
      }
      var actions := MapActions(steps.value);
      if actions.None? {
        return None;
      }
      var points := Iterate(GetOr(f, "key_points", JArr([])));
      if points.None? {
        return None;
      }
      var decisions := MapDecisions(points.value);
      if decisions.None? {
        return None;
      }
      r := NewMeetingTranscript(SummaryKwargs(f, minutes, actions.value, decisions.value, transcript), freshId, today);
    }

    /**
     * `_create_enhanced_fallback`. The three regular-expression searches are parameters: the
     * captured overview, and the quoted strings found in the `participants` and `key_points`
     * arrays, each `None` when its pattern does not match. A search runs only when its quoted
     * key occurs in the response.
     */
    method EnhancedFallback(response: string, transcript: string, minutes: int, overviewMatch: Option<string>,
                            participantsMatch: Option<seq<string>>, keyPointsMatch: Option<seq<string>>,
                            freshId: string, today: string) returns (r: MeetingTranscript)
      ensures r.overview == if Contains(response, "\"overview\"") && overviewMatch.Some? then overviewMatch.value else EnhancedOverview
      ensures r.participants == if Contains(response, "\"participants\"") && participantsMatch.Some? then participantsMatch.value else []
      ensures var points := if Contains(response, "\"key_points\"") && keyPointsMatch.Some? then keyPointsMatch.value else [];
        r.keyDecisions == ExtractedDecisions(points)
      ensures r.keyActions == [] && r.transcript == transcript && r.duration == DurationText(minutes)
      ensures r.meetingId == freshId && r.date == today
    {
      var overview := EnhancedOverview;
      var participants: seq<string> := [];
      var keyPoints: seq<string> := [];
      if Contains(response, "\"overview\"") && overviewMatch.Some? {
        overview := overviewMatch.value;
      }
      if Contains(response, "\"participants\"") && participantsMatch.Some? {
        participants := participantsMatch.value;
      }
      if Contains(response, "\"key_points\"") && keyPointsMatch.Some? {
        keyPoints := keyPointsMatch.value;
      }
      var decisions: seq<Decision> := [];
      var i := 0;
      while i < |keyPoints|
        invariant 0 <= i <= |keyPoints|
        invariant decisions == ExtractedDecisions(keyPoints[..i])
      {
        decisions := decisions + [Decision(keyPoints[i], Some(""), ExtractedContext)];
        i := i + 1;
      }
      assert keyPoints[..i] == keyPoints;
      r := MeetingTranscript(freshId, today, DurationText(minutes), overview, participants, [], decisions, transcript);
    }

    /**
     * `set_model`. `available` is the client's model list, `None` when listing raises. The
     * name changes only to a listed model.
     */
    method SetModel(name: string, available: Option<seq<string>>) returns (ok: bool)
      modifies this
      ensures ok <==> available.Some? && name in available.value
      ensures modelName == if ok then name else old(modelName)
    {
      if available.None? {
        return false;
      }
      if name in available.value {
        modelName := name;
        return true;
      }
      return false;
    }

    /**
     * `test_connection`. An absent configured model is replaced by the first listed one; with
     * no models, or when listing raises, the test fails. `chatOk` says whether the test chat
     * succeeds.
     */
    method TestConnection(available: Option<seq<string>>, chatOk: bool) returns (ok: bool)
      modifies this
      ensures available.None? ==> !ok && modelName == old(modelName)
      ensures available.Some? && old(modelName) in available.value ==> ok == chatOk && modelName == old(modelName)
      ensures available.Some? && old(modelName) !in available.value && available.value != [] ==>
        ok == chatOk && modelName == available.value[0]
      ensures available == Some([]) ==> !ok && modelName == old(modelName)
      ensures ok ==> modelName in available.value
    {
      if available.None? {
        return false;
      }
      if modelName !in available.value {
        if available.value != [] {
          modelName := available.value[0];
        } else {
          return false;
        }
      }
      ok := chatOk;
    }
  }
}
