/**
 * The scoring of one template summary in the template test harness, and the final report over
 * all runs. The regular-expression searches are oracles: `search(pattern, text)` is
 * `re.search(pattern, text, re.IGNORECASE)` succeeding, `findAll(pattern, text)` is
 * `re.findall(pattern, text)`, and `dumped` is `json.dumps(result)`.
 */
module TemplateEval {
  import opened Wrappers
  import opened Strings
  import opened Json
  import opened Seqs

  /** The outcome of `evaluate_output`. */
  datatype Evaluation = Evaluation(score: int, issues: seq<string>, warnings: seq<string>)

  const DatePatterns: seq<(string, string)> := [
    ("\\d{4}-\\d{2}-\\d{2}", "YYYY-MM-DD date"),
    ("\\d{1,2}/\\d{1,2}/\\d{4}", "MM/DD/YYYY date"),
    ("\\d{1,2}/\\d{1,2}/\\d{2}", "MM/DD/YY date"),
    ("(?:January|February|March|April|May|June|July|August|September|October|November|December)\\s+\\d{1,2}(?:st|nd|rd|th)?,?\\s*\\d{4}", "Month DD, YYYY date")
  ]
  const TimePattern := "\\d{1,2}:\\d{2}\\s*(?:AM|PM|am|pm)"
  const Surnames := ["Smith", "Johnson", "Williams", "Brown", "Jones", "Garcia", "Miller", "Davis", "Rodriguez", "Martinez"]
  /** The placeholder patterns; only the first four are searched for. */
  const PlaceholderPatterns := ["\\[.*?\\]", "TBD|TBA|N/A", "to be determined", "not specified", "unknown"]
  /** The templates for which a short output is suspicious. */
  const BriefTemplates := ["standard_meeting", "sales_call", "vet_consultation"]

  const NoResult := "No result returned"

  /** `if not result`: a missing or empty result dict. */
  predicate ResultGiven(result: Option<Fields>) { result.Some? && result.value != [] }

  /** `transcript and ...`: a transcript that is given and non-empty. */
  predicate TranscriptGiven(transcript: Option<string>) { transcript.Some? && transcript.value != "" }

  /** `max(0, 100 - 15 * issues - 5 * warnings)`. */
  function Score(issues: nat, warnings: nat): int {
    var s := 100 - issues * 15 - warnings * 5;
    if s < 0 then 0 else s
  }

  /** Every score lies in [0, 100]; a clean result scores 100, and each finding can only lower it. */
  lemma ScoreBounds(issues: nat, warnings: nat, issues2: nat, warnings2: nat)
    ensures 0 <= Score(issues, warnings) <= 100
    ensures Score(0, 0) == 100
    ensures issues <= issues2 && warnings <= warnings2 ==> Score(issues2, warnings2) <= Score(issues, warnings)
  {
  }

  /** `"PASS" if score >= 70 else "WARN" if score >= 50 else "FAIL"`. */
  function Status(score: int): string {
    if score >= 70 then "PASS" else if score >= 50 then "WARN" else "FAIL"
  }

  /** Without issues, up to six warnings still pass; four issues always fail. */
  lemma StatusThresholds(issues: nat, warnings: nat)
    ensures issues == 0 && warnings <= 6 ==> Status(Score(issues, warnings)) == "PASS"
    ensures issues >= 4 ==> Status(Score(issues, warnings)) == "FAIL"
    ensures issues == 1 && warnings <= 3 ==> Status(Score(issues, warnings)) == "PASS"
  {
  }

  // ---------------------------------------------------------------- hallucination checks

  function DateIssue(p: (string, string), text: string, search: (string, string) -> bool): seq<string> {
    if search(p.0, text) then ["Contains " + p.1 + " (potential hallucination)"] else []
  }

  /** One issue per date pattern found in the dumped result, in pattern order. */
  function DateIssues(ps: seq<(string, string)>, text: string, search: (string, string) -> bool): (r: seq<string>)
    ensures |r| <= |ps|
  {
    if ps == [] then [] else DateIssues(ps[..|ps| - 1], text, search) + DateIssue(ps[|ps| - 1], text, search)
  }

  function TimeIssue(m: string, transcript: string): seq<string> {
    if Contains(Lower(transcript), Lower(m)) then [] else ["Contains specific time '" + m + "' not in transcript"]
  }

  /** One issue per matched time that the transcript, ignoring case, does not contain. */
  function TimeMisses(ms: seq<string>, transcript: string): (r: seq<string>)
    ensures |r| <= |ms|
  {
    if ms == [] then [] else TimeMisses(ms[..|ms| - 1], transcript) + TimeIssue(ms[|ms| - 1], transcript)
  }

  /** Times are checked only when some were found and a transcript is given. */
  function TimeIssues(ms: seq<string>, transcript: Option<string>): seq<string> {
    if ms != [] && TranscriptGiven(transcript) then TimeMisses(ms, transcript.value) else []
  }

  function SurnameIssue(name: string, text: string, transcript: Option<string>): seq<string> {
    if Contains(text, name) && TranscriptGiven(transcript) && !Contains(transcript.value, name)
    then ["Contains surname '" + name + "' not in transcript (hallucination)"] else []
  }

  function SurnameIssues(names: seq<string>, text: string, transcript: Option<string>): (r: seq<string>)
    ensures |r| <= |names|
  {
    if names == [] then [] else SurnameIssues(names[..|names| - 1], text, transcript) + SurnameIssue(names[|names| - 1], text, transcript)
  }

  // ---------------------------------------------------------------- structural quality

  /** `all(v in (None, "", []) for v in d.values())`. */
  predicate AllBlank(fields: Fields) {
    forall k :: 0 <= k < |fields| ==> fields[k].1 == JNull || fields[k].1 == JStr("") || fields[k].1 == JArr([])
  }

  /** `item == "" or item == {} or (isinstance(item, dict) and all values blank)`. */
  predicate EmptyItem(item: Json) {
    item == JStr("") || item == JObj([]) || (item.JObj? && AllBlank(item.fields))
  }

  /** The `{}` test is subsumed: an item is empty exactly when it is `""` or a dict with only blank values. */
  lemma EmptyItemSpec(item: Json)
    ensures EmptyItem(item) <==> (item == JStr("") ||
      (item.JObj? && forall k :: 0 <= k < |item.fields| ==> item.fields[k].1 in {JNull, JStr(""), JArr([])}))
    ensures EmptyItem(JObj([])) && !EmptyItem(JArr([])) && !EmptyItem(JNull)
  {
  }

  /** `sum(1 for item in value if <empty>)`. */
  function CountEmpty(items: seq<Json>): (n: nat)
    ensures n <= |items|
    ensures n == 0 <==> forall k :: 0 <= k < |items| ==> !EmptyItem(items[k])
  {
    if items == [] then 0
    else
      var n := |items|;
      var last := if EmptyItem(items[n - 1]) then 1 else 0;
      assert forall k :: 0 <= k < n - 1 ==> items[..n - 1][k] == items[k];
      CountEmpty(items[..n - 1]) + last
  }

  /** The issues one top-level entry adds; entries whose key starts with `_` add none. */
  function FieldIssues(key: string, v: Json): seq<string> {
    if StartsWith(key, "_") then []
    else
      (if v.JArr? && CountEmpty(v.items) > 0 then [key + ": contains " + IntToString(CountEmpty(v.items)) + " empty/useless items"] else []) +
      (if v == JStr("") then [key + ": empty string (should be null)"] else [])
  }

  function EntryIssues(entry: (string, Json)): seq<string> {
    FieldIssues(entry.0, entry.1)
  }

  /** The structural issues of every top-level entry, in entry order. */
  function StructIssues(fields: Fields): seq<string> {
    FlatMap(fields, EntryIssues)
  }

  /** A top-level `""` under a key not starting with `_` adds exactly one issue, in that entry's place. */
  lemma EmptyStringIssue(pre: Fields, key: string, post: Fields)
    requires !StartsWith(key, "_")
    ensures StructIssues(pre + [(key, JStr(""))] + post) ==
      StructIssues(pre) + [key + ": empty string (should be null)"] + StructIssues(post)
  {
    FlatMapAppend(pre + [(key, JStr(""))], post, EntryIssues);
    FlatMapAppend(pre, [(key, JStr(""))], EntryIssues);
    FlatMapOne((key, JStr("")), EntryIssues);
  }

  // ---------------------------------------------------------------- warnings

  function PlaceholderWarning(p: string, text: string, search: (string, string) -> bool): seq<string> {
    if search(p, text) then ["Contains placeholder text matching '" + p + "'"] else []
  }

  function PlaceholderWarnings(ps: seq<string>, text: string, search: (string, string) -> bool): (r: seq<string>)
    ensures |r| <= |ps|
  {
    if ps == [] then [] else PlaceholderWarnings(ps[..|ps| - 1], text, search) + PlaceholderWarning(ps[|ps| - 1], text, search)
  }

  predicate IsTerminator(c: char) { c == '.' || c == '!' || c == '?' }

  /**
   * The pieces of `s` between sentence terminators. `re.split(r'[.!?]+', s)` merges a run of
   * terminators into one cut; cutting at each one only adds empty pieces, which hold no words.
   */
  function Sentences(s: string): (r: seq<string>)
    ensures |r| > 0
  {
    if s == [] then [""]
    else
      var rest := Sentences(s[1..]);
      if IsTerminator(s[0]) then [""] + rest
      else [[s[0]] + rest[0]] + rest[1..]
  }

  /** `[s for s in sentences if len(s.split()) > 40]` is non-empty. */
  predicate HasLongSentence(s: string) {
    var pieces := Sentences(s);
    exists k :: 0 <= k < |pieces| && |SplitWhitespace(pieces[k])| > 40
  }

  /** A text with no terminator is one sentence: it is long exactly when it has more than 40 words. */
  lemma OneSentence(s: string)
    requires forall p :: 0 <= p < |s| ==> !IsTerminator(s[p])
    ensures HasLongSentence(s) <==> |SplitWhitespace(s)| > 40
  {
    OnePiece(s);
    assert Sentences(s)[0] == s;
  }

  lemma {:induction false} OnePiece(s: string)
    requires forall p :: 0 <= p < |s| ==> !IsTerminator(s[p])
    ensures Sentences(s) == [s]
  {
    if s != [] {
      OnePiece(s[1..]);
      var rest := Sentences(s[1..]);
      assert rest == [s[1..]];
      assert [s[0]] + s[1..] == s;
      assert Sentences(s) == [[s[0]] + rest[0]] + rest[1..];
    }
  }

  function LongWarning(key: string, v: Json): seq<string> {
    if v.JStr? && |v.s| > 50 && HasLongSentence(v.s) then [key + ": contains very long sentences (>40 words)"] else []
  }

  function LongWarnings(fields: Fields): (r: seq<string>)
    ensures |r| <= |fields|
  {
    if fields == [] then [] else LongWarnings(fields[..|fields| - 1]) + LongWarning(fields[|fields| - 1].0, fields[|fields| - 1].1)
  }

  /** The number of list items across the top-level lists whose key does not start with `_`. */
  function ListItemTotal(fields: Fields): nat {
    if fields == [] then 0
    else
      var last := fields[|fields| - 1];
      ListItemTotal(fields[..|fields| - 1]) + (if last.1.JArr? && !StartsWith(last.0, "_") then |last.1.items| else 0)
  }

  function BrevityWarnings(templateId: string, fields: Fields, transcript: Option<string>): seq<string> {
    if templateId in BriefTemplates && ListItemTotal(fields) < 3 && TranscriptGiven(transcript) && |transcript.value| > 1000
    then [TooBrief] else []
  }

  /** The issues of a non-empty result, in check order. */
  function Issues(fields: Fields, transcript: Option<string>, dumped: string,
                  search: (string, string) -> bool, findAll: (string, string) -> seq<string>): seq<string> {
    DateIssues(DatePatterns, dumped, search) + TimeIssues(findAll(TimePattern, dumped), transcript) +
    SurnameIssues(Surnames, dumped, transcript) + StructIssues(fields)
  }

  /** The warnings of a non-empty result, in check order. */
  function Warnings(fields: Fields, templateId: string, transcript: Option<string>, dumped: string,
                    search: (string, string) -> bool): seq<string> {
    PlaceholderWarnings(PlaceholderPatterns[..4], dumped, search) + LongWarnings(fields) +
    BrevityWarnings(templateId, fields, transcript)
  }

  /** What `evaluate_output` returns for a non-empty result: the score follows from the counts. */
  function Evaluate(fields: Fields, templateId: string, transcript: Option<string>, dumped: string,
                    search: (string, string) -> bool, findAll: (string, string) -> seq<string>): (e: Evaluation)
    ensures 0 <= e.score <= 100
    ensures e.score == Score(|e.issues|, |e.warnings|)
  {
    var issues := Issues(fields, transcript, dumped, search, findAll);
    var warnings := Warnings(fields, templateId, transcript, dumped, search);
    ScoreBounds(|issues|, |warnings|, 0, 0);
    Evaluation(Score(|issues|, |warnings|), issues, warnings)
  }

  const TooBrief := "Output seems too brief for transcript length"

  /**
   * The brevity warning is raised exactly for the three content-heavy templates, when the
   * lists hold fewer than three items and a transcript of more than 1000 characters is given.
   */
  lemma BrevityWarning(fields: Fields, templateId: string, transcript: Option<string>, dumped: string,
                       search: (string, string) -> bool)
    ensures TooBrief in Warnings(fields, templateId, transcript, dumped, search) <==>
      templateId in BriefTemplates && ListItemTotal(fields) < 3 && TranscriptGiven(transcript) && |transcript.value| > 1000
  {
    var patterns := PlaceholderPatterns[..4];
    PlaceholderWarningsShape(patterns, dumped, search);
    LongWarningsShape(fields);
    OnlyBrevityTooBrief(PlaceholderWarnings(patterns, dumped, search), LongWarnings(fields),
                        BrevityWarnings(templateId, fields, transcript));
  }

  /** The brevity message starts with neither the placeholder letter nor ends like a length warning. */
  lemma OnlyBrevityTooBrief(ps: seq<string>, ls: seq<string>, bs: seq<string>)
    requires forall w :: w in ps ==> |w| > 0 && w[0] == 'C'
    requires forall w :: w in ls ==> |w| > 0 && w[|w| - 1] == ')'
    requires bs == [] || bs == [TooBrief]
    ensures TooBrief in ps + ls + bs <==> bs != []
  {
    assert TooBrief[0] == 'O' && TooBrief[|TooBrief| - 1] == 'h';
    assert TooBrief !in ps + ls;
  }

  lemma {:induction false} PlaceholderWarningsShape(ps: seq<string>, text: string, search: (string, string) -> bool)
    ensures forall w :: w in PlaceholderWarnings(ps, text, search) ==> |w| > 0 && w[0] == 'C'
    decreases |ps|
  {
    if ps != [] {
      PlaceholderWarningsShape(ps[..|ps| - 1], text, search);
    }
  }

  lemma {:induction false} LongWarningsShape(fields: Fields)
    ensures forall w :: w in LongWarnings(fields) ==> |w| > 0 && w[|w| - 1] == ')'
    decreases |fields|
  {
    if fields != [] {
      LongWarningsShape(fields[..|fields| - 1]);
      var last := fields[|fields| - 1];
      if LongWarning(last.0, last.1) != [] {
        var m := last.0 + ": contains very long sentences (>40 words)";
        assert m[|m| - 1] == ')';
      }
    }
  }

  // ---------------------------------------------------------------- the imperative checks

  method CheckDates(dumped: string, search: (string, string) -> bool) returns (found: seq<string>)
    ensures found == DateIssues(DatePatterns, dumped, search)
  {
    found := CheckPatterns(DatePatterns, dumped, search);
  }

  /** The loop over the date patterns: one issue per pattern found, in pattern order. */
  method CheckPatterns(ps: seq<(string, string)>, dumped: string, search: (string, string) -> bool) returns (found: seq<string>)
    ensures found == DateIssues(ps, dumped, search)
  {
    found := [];
    var i := 0;
    while i < |ps|
      invariant 0 <= i <= |ps| && found == DateIssues(ps[..i], dumped, search)
    {
      assert ps[..i + 1][..i] == ps[..i];
      var (pattern, desc) := ps[i];
      if search(pattern, dumped) {
        found := found + ["Contains " + desc + " (potential hallucination)"];
      }
      i := i + 1;
    }
    assert ps[..i] == ps;
  }

  method CheckTimes(matches: seq<string>, transcript: Option<string>) returns (found: seq<string>)
    ensures found == TimeIssues(matches, transcript)
  {
    found := [];
    if matches != [] && TranscriptGiven(transcript) {
      var i := 0;
      while i < |matches|
        invariant 0 <= i <= |matches| && found == TimeMisses(matches[..i], transcript.value)
      {
        assert matches[..i + 1][..i] == matches[..i];
        if !Contains(Lower(transcript.value), Lower(matches[i])) {
          found := found + ["Contains specific time '" + matches[i] + "' not in transcript"];
        }
        i := i + 1;
      }
      assert matches[..i] == matches;
    }
  }

  method CheckSurnames(dumped: string, transcript: Option<string>) returns (found: seq<string>)
    ensures found == SurnameIssues(Surnames, dumped, transcript)
  {
    found := CheckNames(Surnames, dumped, transcript);
  }

  /** The loop over the surnames: one issue per name in the output but not in the transcript. */
  method CheckNames(names: seq<string>, dumped: string, transcript: Option<string>) returns (found: seq<string>)
    ensures found == SurnameIssues(names, dumped, transcript)
  {
    found := [];
    var i := 0;
    while i < |names|
      invariant 0 <= i <= |names| && found == SurnameIssues(names[..i], dumped, transcript)
    {
      assert names[..i + 1][..i] == names[..i];
      var name := names[i];
      if Contains(dumped, name) {
        if TranscriptGiven(transcript) && !Contains(transcript.value, name) {
          found := found + ["Contains surname '" + name + "' not in transcript (hallucination)"];
        }
      }
      i := i + 1;
    }
    assert names[..i] == names;
  }

  method CheckStructure(fields: Fields) returns (found: seq<string>)
    ensures found == StructIssues(fields)
  {
    found := [];
    var i := 0;
    while i < |fields|
      invariant 0 <= i <= |fields| && found == StructIssues(fields[..i])
    {
      assert fields[..i + 1][..i] == fields[..i];
      var (key, value) := fields[i];
      if !StartsWith(key, "_") {
        if value.JArr? {
          var n := CountEmpty(value.items);
          if n > 0 {
            found := found + [key + ": contains " + IntToString(n) + " empty/useless items"];
          }
        }
        if value == JStr("") {
          found := found + [key + ": empty string (should be null)"];
        }
      }
      i := i + 1;
    }
    assert fields[..i] == fields;
  }

  method CheckPlaceholders(dumped: string, search: (string, string) -> bool) returns (found: seq<string>)
    ensures found == PlaceholderWarnings(PlaceholderPatterns[..4], dumped, search)
  {
    var ps := PlaceholderPatterns[..4];
    found := [];
    var i := 0;
    while i < |ps|
      invariant 0 <= i <= |ps| && found == PlaceholderWarnings(ps[..i], dumped, search)
    {
      assert ps[..i + 1][..i] == ps[..i];
      if search(ps[i], dumped) {
        found := found + ["Contains placeholder text matching '" + ps[i] + "'"];
      }
      i := i + 1;
    }
    assert ps[..i] == ps;
  }

  method CheckSentences(fields: Fields) returns (found: seq<string>)
    ensures found == LongWarnings(fields)
  {
    found := [];
    var i := 0;
    while i < |fields|
      invariant 0 <= i <= |fields| && found == LongWarnings(fields[..i])
    {
      assert fields[..i + 1][..i] == fields[..i];
      var (key, value) := fields[i];
      if value.JStr? && |value.s| > 50 && HasLongSentence(value.s) {
        found := found + [key + ": contains very long sentences (>40 words)"];
      }
      i := i + 1;
    }
    assert fields[..i] == fields;
  }

  /** The issue checks of `evaluate_output`, in the order they append. */
  method CollectIssues(fields: Fields, transcript: Option<string>, dumped: string,
                       search: (string, string) -> bool, findAll: (string, string) -> seq<string>)
    returns (issues: seq<string>)
    ensures issues == Issues(fields, transcript, dumped, search, findAll)
  {
    var dates := CheckDates(dumped, search);
    var times := CheckTimes(findAll(TimePattern, dumped), transcript);
    var surnames := CheckSurnames(dumped, transcript);
    var structure := CheckStructure(fields);
    issues := dates + times + surnames + structure;
  }

  /** The warning checks of `evaluate_output`, in the order they append. */
  method CollectWarnings(fields: Fields, templateId: string, transcript: Option<string>, dumped: string,
                         search: (string, string) -> bool)
    returns (warnings: seq<string>)
    ensures warnings == Warnings(fields, templateId, transcript, dumped, search)
  {
    var placeholders := CheckPlaceholders(dumped, search);
    var sentences := CheckSentences(fields);
    warnings := placeholders + sentences;
    if templateId in BriefTemplates {
      var total := ListItemTotal(fields);
      if total < 3 && TranscriptGiven(transcript) && |transcript.value| > 1000 {
        warnings := warnings + [TooBrief];
      }
    }
  }

  /**
   * `evaluate_output`: a missing or empty result scores 0 with the single issue
   * "No result returned"; otherwise the checks run in order and the score follows from the counts.
   */
  method EvaluateOutput(result: Option<Fields>, templateId: string, transcript: Option<string>, dumped: string,
                        search: (string, string) -> bool, findAll: (string, string) -> seq<string>)
    returns (e: Evaluation)
    ensures !ResultGiven(result) ==> e == Evaluation(0, [NoResult], [])
    ensures ResultGiven(result) ==> e == Evaluate(result.value, templateId, transcript, dumped, search, findAll)
    ensures 0 <= e.score <= 100
  {
    if !ResultGiven(result) {
      return Evaluation(0, [NoResult], []);
    }
    var fields := result.value;
    var issues := CollectIssues(fields, transcript, dumped, search, findAll);
    var warnings := CollectWarnings(fields, templateId, transcript, dumped, search);
    var score := 100 - |issues| * 15 - |warnings| * 5;
    if score < 0 {
      score := 0;
    }
    e := Evaluation(score, issues, warnings);
  }

  // ---------------------------------------------------------------- the final report

  /** The sum and the number of the scores whose key starts with `prefix`. */
  function PrefixTotal(results: seq<(string, Evaluation)>, prefix: string): (r: (int, nat))
    ensures (forall k :: 0 <= k < |results| ==> 0 <= results[k].1.score <= 100) ==> 0 <= r.0 <= 100 * r.1
  {
    if results == [] then (0, 0)
    else
      var n := |results|;
      var init := PrefixTotal(results[..n - 1], prefix);
      assert forall k :: 0 <= k < n - 1 ==> results[..n - 1][k] == results[k];
      var last := results[n - 1];
      if StartsWith(last.0, prefix) then (init.0 + last.1.score, init.1 + 1) else init
  }

  /** `total_score / test_count if test_count > 0 else 0` over the standard and the edge-case runs. */
  function Average(results: seq<(string, Evaluation)>): real {
    var std := PrefixTotal(results, "std_");
    var edge := PrefixTotal(results, "edge_");
    if std.1 + edge.1 > 0 then (std.0 + edge.0) as real / (std.1 + edge.1) as real else 0.0
  }

  /** When every run scores in [0, 100], so does the average; with no runs it is 0. */
  lemma AverageInRange(results: seq<(string, Evaluation)>)
    requires forall k :: 0 <= k < |results| ==> 0 <= results[k].1.score <= 100
    ensures 0.0 <= Average(results) <= 100.0
    ensures results == [] ==> Average(results) == 0.0
  {
    var std := PrefixTotal(results, "std_");
    var edge := PrefixTotal(results, "edge_");
    var t, c := std.0 + edge.0, std.1 + edge.1;
    if c > 0 {
      RatioBound(t, c);
    }
  }

  /** A total of at most 100 per run gives a mean in [0, 100]. */
  lemma RatioBound(t: int, c: int)
    requires c > 0 && 0 <= t <= 100 * c
    ensures 0.0 <= (t as real) / (c as real) <= 100.0
  {
    var q := (t as real) / (c as real);
    assert q * (c as real) == t as real;
    if q > 100.0 {
      assert q * (c as real) > 100.0 * (c as real);
    }
  }

  function OverallStatus(average: real): string {
    if average >= 80.0 then "GOOD" else if average >= 60.0 then "ACCEPTABLE" else "NEEDS WORK"
  }

  /** `f" - Issues: ..."` and `f" - Warnings: ..."` after an edge-case line. */
  function Findings(e: Evaluation): string {
    (if e.issues != [] then " - Issues: " + Join(", ", e.issues) else "") +
    (if e.warnings != [] then " - Warnings: " + Join(", ", e.warnings) else "")
  }

  function StdLine(key: string, e: Evaluation): string {
    "  " + ReplaceAll(key, "std_", "") + ": " + IntToString(e.score) + "/100 [" + Status(e.score) + "]"
  }

  function EdgeLine(key: string, e: Evaluation): string {
    "  " + ReplaceAll(key, "edge_", "") + ": " + IntToString(e.score) + "/100 [" + Status(e.score) + "]" + Findings(e)
  }

  function StdEntryLine(r: (string, Evaluation)): seq<string> {
    if StartsWith(r.0, "std_") then [StdLine(r.0, r.1)] else []
  }

  function EdgeEntryLine(r: (string, Evaluation)): seq<string> {
    if StartsWith(r.0, "edge_") then [EdgeLine(r.0, r.1)] else []
  }

  /** The report lines of the standard runs, then of the edge-case runs, each in run order. */
  function ReportLines(results: seq<(string, Evaluation)>): seq<string> {
    FlatMap(results, StdEntryLine) + FlatMap(results, EdgeEntryLine)
  }

  /** The first loop of `main`'s summary: the standard-transcript runs, in run order. */
  method ReportStandard(results: seq<(string, Evaluation)>) returns (lines: seq<string>, total: int, count: nat)
    ensures lines == FlatMap(results, StdEntryLine)
    ensures total == PrefixTotal(results, "std_").0 && count == PrefixTotal(results, "std_").1
  {
    lines, total, count := [], 0, 0;
    var i := 0;
    while i < |results|
      invariant 0 <= i <= |results| && lines == FlatMap(results[..i], StdEntryLine)
      invariant total == PrefixTotal(results[..i], "std_").0 && count == PrefixTotal(results[..i], "std_").1
    {
      FlatMapPrefix(results, i, StdEntryLine);
      PrefixTotalPrefix(results, i, "std_");
      var (key, e) := results[i];
      if StartsWith(key, "std_") {
        lines := lines + [StdLine(key, e)];
        total := total + e.score;
        count := count + 1;
      }
      i := i + 1;
    }
    assert results[..i] == results;
  }

  /** The second loop of `main`'s summary: the edge-case runs, in run order, with their findings. */
  method ReportEdgeCases(results: seq<(string, Evaluation)>) returns (lines: seq<string>, total: int, count: nat)
    ensures lines == FlatMap(results, EdgeEntryLine)
    ensures total == PrefixTotal(results, "edge_").0 && count == PrefixTotal(results, "edge_").1
  {
    lines, total, count := [], 0, 0;
    var i := 0;
    while i < |results|
      invariant 0 <= i <= |results| && lines == FlatMap(results[..i], EdgeEntryLine)
      invariant total == PrefixTotal(results[..i], "edge_").0 && count == PrefixTotal(results[..i], "edge_").1
    {
      FlatMapPrefix(results, i, EdgeEntryLine);
      PrefixTotalPrefix(results, i, "edge_");
      var (key, e) := results[i];
      if StartsWith(key, "edge_") {
        lines := lines + [EdgeLine(key, e)];
        total := total + e.score;
        count := count + 1;
      }
      i := i + 1;
    }
    assert results[..i] == results;
  }

  /** Extending a prefix of the runs by one run adds that run when its key matches. */
  lemma PrefixTotalPrefix(results: seq<(string, Evaluation)>, i: int, prefix: string)
    requires 0 <= i < |results|
    ensures var before := PrefixTotal(results[..i], prefix);
      PrefixTotal(results[..i + 1], prefix) ==
        if StartsWith(results[i].0, prefix) then (before.0 + results[i].1.score, before.1 + 1) else before
  {
    assert results[..i + 1][..i] == results[..i];
  }

  /**
   * The final summary of `main`: one line per standard run, then one per edge-case run, the
   * average over both, and the overall status.
   */
  method Report(results: seq<(string, Evaluation)>) returns (lines: seq<string>, average: real, overall: string)
    ensures lines == ReportLines(results)
    ensures average == Average(results) && overall == OverallStatus(average)
  {
    var std, total, count := ReportStandard(results);
    var edge, edgeTotal, edgeCount := ReportEdgeCases(results);
    total := total + edgeTotal;
    count := count + edgeCount;
    lines := std + edge;
    average := if count > 0 then total as real / count as real else 0.0;
    overall := OverallStatus(average);
  }
}
