/**
 * The three summary records (`ActionItem`, `Decision`, `MeetingTranscript`) and the
 * validation pydantic performs when one is built from keyword arguments: a required `str`
 * field must be present and a string, an `Optional[str]` field may also be null, a
 * missing optional field takes its default, and unknown keywords are ignored.
 */
module Models {
  import opened Wrappers
  import opened Json

  datatype ActionItem = ActionItem(description: string, assignee: Option<string>, deadline: Option<string>)

  datatype Decision = Decision(decision: string, assignee: Option<string>, context: string)

  datatype MeetingTranscript = MeetingTranscript(
    meetingId: string,
    date: string,
    duration: string,
    overview: string,
    participants: seq<string>,
    keyActions: seq<ActionItem>,
    keyDecisions: seq<Decision>,
    transcript: string)

  /** A required `str` field: present and a string. */
  function RequiredStr(kw: Fields, key: string): (r: Option<string>)
    ensures r.Some? <==> Get(kw, key).Some? && Get(kw, key).value.JStr?
    ensures r.Some? ==> Get(kw, key) == Some(JStr(r.value))
  {
    match Get(kw, key)
    case Some(JStr(s)) => Some(s)
    case _ => None
  }

  /** An `Optional[str]` field with a default: absent gives the default, null gives `None`. */
  function OptionalStr(kw: Fields, key: string, default: Option<string>): (r: Option<Option<string>>)
    ensures Get(kw, key).None? ==> r == Some(default)
    ensures Get(kw, key) == Some(JNull) ==> r == Some(None)
    ensures r.None? <==> Get(kw, key).Some? && !Get(kw, key).value.JNull? && !Get(kw, key).value.JStr?
  {
    match Get(kw, key)
    case None => Some(default)
    case Some(JNull) => Some(None)
    case Some(JStr(s)) => Some(Some(s))
    case Some(_) => None
  }

  function OptStrToJson(o: Option<string>): Json {
    match o
    case None => JNull
    case Some(s) => JStr(s)
  }

  /** `ActionItem(**kw)`: `assignee` defaults to `""` and `deadline` to `None`. */
  function NewActionItem(kw: Fields): (r: Option<ActionItem>)
    ensures r.Some? <==>
      RequiredStr(kw, "description").Some? &&
      OptionalStr(kw, "assignee", Some("")).Some? &&
      OptionalStr(kw, "deadline", None).Some?
  {
    match (RequiredStr(kw, "description"), OptionalStr(kw, "assignee", Some("")), OptionalStr(kw, "deadline", None))
    case (Some(d), Some(a), Some(dl)) => Some(ActionItem(d, a, dl))
    case _ => None
  }

  /** `Decision(**kw)`: `assignee` defaults to `""`; `decision` and `context` are required. */
  function NewDecision(kw: Fields): (r: Option<Decision>)
    ensures r.Some? <==>
      RequiredStr(kw, "decision").Some? &&
      OptionalStr(kw, "assignee", Some("")).Some? &&
      RequiredStr(kw, "context").Some?
  {
    match (RequiredStr(kw, "decision"), OptionalStr(kw, "assignee", Some("")), RequiredStr(kw, "context"))
    case (Some(d), Some(a), Some(c)) => Some(Decision(d, a, c))
    case _ => None
  }

  /** `model_dump()` of an `ActionItem`, in field order. */
  function ActionItemToJson(a: ActionItem): Json {
    JObj([("description", JStr(a.description)), ("assignee", OptStrToJson(a.assignee)), ("deadline", OptStrToJson(a.deadline))])
  }

  function DecisionToJson(d: Decision): Json {
    JObj([("decision", JStr(d.decision)), ("assignee", OptStrToJson(d.assignee)), ("context", JStr(d.context))])
  }

  /** Building an `ActionItem` from its own dump gives it back. */
  lemma ActionItemRoundTrip(a: ActionItem)
    ensures NewActionItem(ActionItemToJson(a).fields) == Some(a)
  {
    var kw := ActionItemToJson(a).fields;
    GetFirst(kw, 1);
    GetFirst(kw, 2);
  }

  lemma DecisionRoundTrip(d: Decision)
    ensures NewDecision(DecisionToJson(d).fields) == Some(d)
  {
    var kw := DecisionToJson(d).fields;
    GetFirst(kw, 1);
    GetFirst(kw, 2);
  }

  /** A `List[str]` field: a JSON array of strings. */
  function StrList(j: Json): (r: Option<seq<string>>)
    ensures r.Some? ==> j.JArr? && |r.value| == |j.items|
    ensures r.Some? ==> forall i :: 0 <= i < |j.items| ==> j.items[i] == JStr(r.value[i])
  {
    match j
    case JArr(items) => StrItems(items)
    case _ => None
  }

  function StrItems(items: seq<Json>): (r: Option<seq<string>>)
    ensures r.Some? ==> |r.value| == |items| && forall i :: 0 <= i < |items| ==> items[i] == JStr(r.value[i])
    ensures r.None? <==> exists i :: 0 <= i < |items| && !items[i].JStr?
  {
    if items == [] then Some([])
    else if !items[0].JStr? then None
    else
      match StrItems(items[1..])
      case None =>
        var i :| 0 <= i < |items[1..]| && !items[1..][i].JStr?;
        assert !items[i + 1].JStr?;
        None
      case Some(rest) => Some([items[0].s] + rest)
  }

  function StrsToJson(xs: seq<string>): (j: Json)
    ensures j.JArr? && |j.items| == |xs| && forall i :: 0 <= i < |xs| ==> j.items[i] == JStr(xs[i])
  {
    JArr(seq(|xs|, i requires 0 <= i < |xs| => JStr(xs[i])))
  }

  lemma {:induction false} StrListRoundTrip(xs: seq<string>)
    ensures StrList(StrsToJson(xs)) == Some(xs)
  {
    var items := StrsToJson(xs).items;
    var r := StrItems(items);
    assert r.Some?;
    assert r.value == xs;
  }

  /** One element of a `List[ActionItem]` field: an object that validates as an `ActionItem`. */
  predicate ValidAction(j: Json) {
    j.JObj? && NewActionItem(j.fields).Some?
  }

  predicate ValidDecision(j: Json) {
    j.JObj? && NewDecision(j.fields).Some?
  }

  /**
   * A `List[ActionItem]` field: it validates exactly when every element does, and then holds
   * each element's record at its index.
   */
  function ActionItems(items: seq<Json>): (r: Option<seq<ActionItem>>)
    ensures r.Some? <==> forall i :: 0 <= i < |items| ==> ValidAction(items[i])
    ensures r.Some? ==> |r.value| == |items|
    ensures r.Some? ==> forall i :: 0 <= i < |items| ==> r.value[i] == NewActionItem(items[i].fields).value
  {
    if items == [] then Some([])
    else if !items[0].JObj? then None
    else
      match (NewActionItem(items[0].fields), ActionItems(items[1..]))
      case (Some(a), Some(rest)) => Some([a] + rest)
      case (None, _) => None
      case (_, None) =>
        var i :| 0 <= i < |items[1..]| && !ValidAction(items[1..][i]);
        assert !ValidAction(items[i + 1]);
        None
  }

  /** A `List[Decision]` field, likewise. */
  function Decisions(items: seq<Json>): (r: Option<seq<Decision>>)
    ensures r.Some? <==> forall i :: 0 <= i < |items| ==> ValidDecision(items[i])
    ensures r.Some? ==> |r.value| == |items|
    ensures r.Some? ==> forall i :: 0 <= i < |items| ==> r.value[i] == NewDecision(items[i].fields).value
  {
    if items == [] then Some([])
    else if !items[0].JObj? then None
    else
      match (NewDecision(items[0].fields), Decisions(items[1..]))
      case (Some(d), Some(rest)) => Some([d] + rest)
      case (None, _) => None
      case (_, None) =>
        var i :| 0 <= i < |items[1..]| && !ValidDecision(items[1..][i]);
        assert !ValidDecision(items[i + 1]);
        None
  }

  function ActionsToJson(xs: seq<ActionItem>): (j: Json)
    ensures j.JArr? && |j.items| == |xs|
  {
    JArr(seq(|xs|, i requires 0 <= i < |xs| => ActionItemToJson(xs[i])))
  }

  function DecisionsToJson(xs: seq<Decision>): (j: Json)
    ensures j.JArr? && |j.items| == |xs|
  {
    JArr(seq(|xs|, i requires 0 <= i < |xs| => DecisionToJson(xs[i])))
  }

  lemma {:induction false} ActionsRoundTrip(xs: seq<ActionItem>)
    ensures ActionItems(ActionsToJson(xs).items) == Some(xs)
  {
    if xs != [] {
      var items := ActionsToJson(xs).items;
      assert items[0] == ActionItemToJson(xs[0]);
      ActionItemRoundTrip(xs[0]);
      assert items[1..] == ActionsToJson(xs[1..]).items;
      ActionsRoundTrip(xs[1..]);
      assert [xs[0]] + xs[1..] == xs;
    }
  }

  lemma {:induction false} DecisionsRoundTrip(xs: seq<Decision>)
    ensures Decisions(DecisionsToJson(xs).items) == Some(xs)
  {
    if xs != [] {
      var items := DecisionsToJson(xs).items;
      assert items[0] == DecisionToJson(xs[0]);
      DecisionRoundTrip(xs[0]);
      assert items[1..] == DecisionsToJson(xs[1..]).items;
      DecisionsRoundTrip(xs[1..]);
      assert [xs[0]] + xs[1..] == xs;
    }
  }

  /** A `List[...]` field's items, when it is an array. */
  function ArrayField(kw: Fields, key: string): (r: Option<seq<Json>>)
    ensures r.Some? <==> Get(kw, key).Some? && Get(kw, key).value.JArr?
    ensures r.Some? ==> Get(kw, key) == Some(JArr(r.value))
  {
    match Get(kw, key)
    case Some(JArr(items)) => Some(items)
    case _ => None
  }

  /** A `str` field with a `default_factory`: absent gives the generated value. */
  function DefaultedStr(kw: Fields, key: string, generated: string): (r: Option<string>)
    ensures Get(kw, key).None? ==> r == Some(generated)
    ensures Get(kw, key).Some? ==> r == RequiredStr(kw, key)
  {
    if Get(kw, key).None? then Some(generated) else RequiredStr(kw, key)
  }

  /**
   * `MeetingTranscript(**kw)`. `meeting_id` and `date` come from their default factories
   * (given here as `freshId` and `today`) when absent; the other six fields are required.
   */
  function NewMeetingTranscript(kw: Fields, freshId: string, today: string): (r: Option<MeetingTranscript>)
    ensures r.Some? <==>
      DefaultedStr(kw, "meeting_id", freshId).Some? && DefaultedStr(kw, "date", today).Some? &&
      RequiredStr(kw, "duration").Some? && RequiredStr(kw, "overview").Some? &&
      Get(kw, "participants").Some? && StrList(Get(kw, "participants").value).Some? &&
      ArrayField(kw, "key_actions").Some? && ActionItems(ArrayField(kw, "key_actions").value).Some? &&
      ArrayField(kw, "key_decisions").Some? && Decisions(ArrayField(kw, "key_decisions").value).Some? &&
      RequiredStr(kw, "transcript").Some?
    ensures r.Some? && Get(kw, "meeting_id").None? ==> r.value.meetingId == freshId
    ensures r.Some? && Get(kw, "meeting_id").Some? ==> Get(kw, "meeting_id") == Some(JStr(r.value.meetingId))
    ensures r.Some? && Get(kw, "date").None? ==> r.value.date == today
    ensures r.Some? && Get(kw, "date").Some? ==> Get(kw, "date") == Some(JStr(r.value.date))
    ensures r.Some? ==> Get(kw, "duration") == Some(JStr(r.value.duration))
    ensures r.Some? ==> Get(kw, "overview") == Some(JStr(r.value.overview))
    ensures r.Some? ==> Get(kw, "transcript") == Some(JStr(r.value.transcript))
    ensures r.Some? ==> Get(kw, "participants") == Some(StrsToJson(r.value.participants))
    ensures r.Some? ==> Get(kw, "key_actions") == Some(JArr(ArrayField(kw, "key_actions").value))
    ensures r.Some? ==> ActionItems(ArrayField(kw, "key_actions").value) == Some(r.value.keyActions)
    ensures r.Some? ==> Get(kw, "key_decisions") == Some(JArr(ArrayField(kw, "key_decisions").value))
    ensures r.Some? ==> Decisions(ArrayField(kw, "key_decisions").value) == Some(r.value.keyDecisions)
  {
    var id := DefaultedStr(kw, "meeting_id", freshId);
    var date := DefaultedStr(kw, "date", today);
    var duration := RequiredStr(kw, "duration");
    var overview := RequiredStr(kw, "overview");
    var participants := if Get(kw, "participants").Some? then StrList(Get(kw, "participants").value) else None;
    var actions := if ArrayField(kw, "key_actions").Some? then ActionItems(ArrayField(kw, "key_actions").value) else None;
    var decisions := if ArrayField(kw, "key_decisions").Some? then Decisions(ArrayField(kw, "key_decisions").value) else None;
    var transcript := RequiredStr(kw, "transcript");
    if id.Some? && date.Some? && duration.Some? && overview.Some? && participants.Some? &&
       actions.Some? && decisions.Some? && transcript.Some?
    then
      assert Get(kw, "participants").value == StrsToJson(participants.value);
      Some(MeetingTranscript(id.value, date.value, duration.value, overview.value,
                             participants.value, actions.value, decisions.value, transcript.value))
    else None
  }

  /** `model_dump()` of a `MeetingTranscript`: what `to_json_file` writes. */
  function TranscriptToJson(m: MeetingTranscript): Fields {
    [ ("meeting_id", JStr(m.meetingId)),
      ("date", JStr(m.date)),
      ("duration", JStr(m.duration)),
      ("overview", JStr(m.overview)),
      ("participants", StrsToJson(m.participants)),
      ("key_actions", ActionsToJson(m.keyActions)),
      ("key_decisions", DecisionsToJson(m.keyDecisions)),
      ("transcript", JStr(m.transcript)) ]
  }

  /**
   * `from_json_file` after `to_json_file` gives back the same record, whatever the default
   * factories would produce, since every field is in the dump.
   */
  lemma TranscriptRoundTrip(m: MeetingTranscript, freshId: string, today: string)
    ensures NewMeetingTranscript(TranscriptToJson(m), freshId, today) == Some(m)
  {
    var kw := TranscriptToJson(m);
    assert Get(kw, "meeting_id") == Some(JStr(m.meetingId)) by { GetFirst(kw, 0); }
    assert Get(kw, "date") == Some(JStr(m.date)) by { GetFirst(kw, 1); }
    assert Get(kw, "duration") == Some(JStr(m.duration)) by { GetFirst(kw, 2); }
    assert Get(kw, "overview") == Some(JStr(m.overview)) by { GetFirst(kw, 3); }
    assert Get(kw, "participants") == Some(StrsToJson(m.participants)) by { GetFirst(kw, 4); }
    assert Get(kw, "key_actions") == Some(ActionsToJson(m.keyActions)) by { GetFirst(kw, 5); }
    assert Get(kw, "key_decisions") == Some(DecisionsToJson(m.keyDecisions)) by { GetFirst(kw, 6); }
    assert Get(kw, "transcript") == Some(JStr(m.transcript)) by { GetFirst(kw, 7); }
    StrListRoundTrip(m.participants);
    ActionsRoundTrip(m.keyActions);
    DecisionsRoundTrip(m.keyDecisions);
  }
}
