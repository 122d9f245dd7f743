/**
 * Summary templates: the `TemplateSection`/`SummaryTemplate` records, `TemplateManager`'s
 * table of loaded templates (later files overwrite earlier ones with the same id), and the
 * data-dependent parts of `generate_prompt`: the prose list of section titles, the
 * per-section instruction lines and the example JSON structure. The template files are given
 * as their parsed contents in directory order; `json.loads` of an `item_format` is a parameter.
 */
module Templates {
  import opened Wrappers
  import opened Strings
  import opened Json
  import opened Models

  datatype TemplateSection = TemplateSection(key: string, title: string, instruction: string, format: string,
                                             itemFormat: Option<string>, required: bool)

  datatype SummaryTemplate = SummaryTemplate(id: string, name: string, description: string, icon: string,
                                             sections: seq<TemplateSection>)

  const DefaultTemplate := "standard_meeting"
  const DefaultIcon := "meeting"

  /** The strings pydantic reads as `False` and as `True`, compared without regard to ASCII case. */
  const FalseWords := ["0", "off", "f", "false", "n", "no"]
  const TrueWords := ["1", "on", "t", "true", "y", "yes"]

  /**
   * A `bool` field in pydantic's lax mode: a boolean as is, the integers 0 and 1, and the
   * words above; every other value fails validation.
   */
  function LaxBool(j: Json): (r: Option<bool>)
    ensures j.JBool? ==> r == Some(j.b)
    ensures j.JNum? ==> (r.Some? <==> j.n == 0 || j.n == 1)
    ensures j.JNum? && r.Some? ==> r.value == (j.n == 1)
    ensures j.JStr? ==> (r == Some(false) <==> Lower(j.s) in FalseWords)
    ensures j.JStr? ==> (r == Some(true) <==> Lower(j.s) in TrueWords)
    ensures !j.JBool? && !j.JNum? && !j.JStr? ==> r.None?
  {
    match j
    case JBool(b) => Some(b)
    case JNum(n) => if n == 0 then Some(false) else if n == 1 then Some(true) else None
    case JStr(w) =>
      if Lower(w) in FalseWords then Some(false)
      else if Lower(w) in TrueWords then Some(true)
      else None
    case _ => None
  }

  /** A `bool` field with a default: absent gives the default, a present value is read laxly. */
  function OptionalBool(kw: Fields, key: string, default: bool): (r: Option<bool>)
    ensures Get(kw, key).None? ==> r == Some(default)
    ensures Get(kw, key).Some? ==> r == LaxBool(Get(kw, key).value)
  {
    match Get(kw, key)
    case None => Some(default)
    case Some(v) => LaxBool(v)
  }

  /** `TemplateSection(**kw)`: four required strings, `item_format` defaults to `None`, `required` to `True`. */
  function NewSection(j: Json): (r: Option<TemplateSection>)
    ensures r.Some? <==>
      j.JObj? && RequiredStr(j.fields, "key").Some? && RequiredStr(j.fields, "title").Some? &&
      RequiredStr(j.fields, "instruction").Some? && RequiredStr(j.fields, "format").Some? &&
      OptionalStr(j.fields, "item_format", None).Some? && OptionalBool(j.fields, "required", true).Some?
    ensures r.Some? ==> Get(j.fields, "key") == Some(JStr(r.value.key))
    ensures r.Some? ==> Get(j.fields, "title") == Some(JStr(r.value.title))
    ensures r.Some? ==> Get(j.fields, "instruction") == Some(JStr(r.value.instruction))
    ensures r.Some? ==> Get(j.fields, "format") == Some(JStr(r.value.format))
    ensures r.Some? ==> Some(r.value.itemFormat) == OptionalStr(j.fields, "item_format", None)
    ensures r.Some? ==> Some(r.value.required) == OptionalBool(j.fields, "required", true)
  {
    match j
    case JObj(kw) =>
      var key := RequiredStr(kw, "key");
      var title := RequiredStr(kw, "title");
      var instruction := RequiredStr(kw, "instruction");
      var format := RequiredStr(kw, "format");
      var itemFormat := OptionalStr(kw, "item_format", None);
      var required := OptionalBool(kw, "required", true);
      if key.Some? && title.Some? && instruction.Some? && format.Some? && itemFormat.Some? && required.Some?
      then Some(TemplateSection(key.value, title.value, instruction.value, format.value, itemFormat.value, required.value))
      else None
    case _ => None
  }

  /**
   * A `List[TemplateSection]` field: it validates exactly when every element does, and then
   * holds each element's section at its index.
   */
  function Sections(items: seq<Json>): (r: Option<seq<TemplateSection>>)
    ensures r.Some? <==> forall i :: 0 <= i < |items| ==> NewSection(items[i]).Some?
    ensures r.Some? ==> |r.value| == |items|
    ensures r.Some? ==> forall i :: 0 <= i < |items| ==> r.value[i] == NewSection(items[i]).value
  {
    if items == [] then Some([])
    else
      var s := NewSection(items[0]);
      var rest := Sections(items[1..]);
      if s.None? then None
      else if rest.None? then
        var i :| 0 <= i < |items[1..]| && NewSection(items[1..][i]).None?;
        assert NewSection(items[i + 1]).None?;
        None
      else Some([s.value] + rest.value)
  }

  /**
   * `SummaryTemplate(**data)`: the data must be an object with string `id`, `name` and
   * `description`, a string `icon` or none (then `"meeting"`), and a valid section list.
   */
  function NewTemplate(data: Json): (r: Option<SummaryTemplate>)
    ensures r.Some? <==>
      data.JObj? && RequiredStr(data.fields, "id").Some? && RequiredStr(data.fields, "name").Some? &&
      RequiredStr(data.fields, "description").Some? && DefaultedStr(data.fields, "icon", DefaultIcon).Some? &&
      ArrayField(data.fields, "sections").Some? && Sections(ArrayField(data.fields, "sections").value).Some?
    ensures r.Some? ==> Get(data.fields, "id") == Some(JStr(r.value.id))
    ensures r.Some? ==> Get(data.fields, "name") == Some(JStr(r.value.name))
    ensures r.Some? ==> Get(data.fields, "description") == Some(JStr(r.value.description))
    ensures r.Some? && Get(data.fields, "icon").None? ==> r.value.icon == DefaultIcon
    ensures r.Some? && Get(data.fields, "icon").Some? ==> Get(data.fields, "icon") == Some(JStr(r.value.icon))
    ensures r.Some? ==> Get(data.fields, "sections") == Some(JArr(ArrayField(data.fields, "sections").value))
    ensures r.Some? ==> Sections(ArrayField(data.fields, "sections").value) == Some(r.value.sections)
  {
    match data
    case JObj(kw) =>
      var id := RequiredStr(kw, "id");
      var name := RequiredStr(kw, "name");
      var description := RequiredStr(kw, "description");
      var icon := DefaultedStr(kw, "icon", DefaultIcon);
      var sections := ArrayField(kw, "sections");
      if id.Some? && name.Some? && description.Some? && icon.Some? && sections.Some? && Sections(sections.value).Some?
      then Some(SummaryTemplate(id.value, name.value, description.value, icon.value, Sections(sections.value).value))
      else None
    case _ => None
  }

  /** A section as a template file spells it. */
  function SectionToJson(s: TemplateSection): Json {
    JObj([ ("key", JStr(s.key)), ("title", JStr(s.title)), ("instruction", JStr(s.instruction)),
           ("format", JStr(s.format)), ("item_format", OptStrToJson(s.itemFormat)), ("required", JBool(s.required)) ])
  }

  lemma SectionRoundTrip(s: TemplateSection)
    ensures NewSection(SectionToJson(s)) == Some(s)
  {
    var kw := SectionToJson(s).fields;
    assert RequiredStr(kw, "key") == Some(s.key) by { GetFirst(kw, 0); }
    assert RequiredStr(kw, "title") == Some(s.title) by { GetFirst(kw, 1); }
    assert RequiredStr(kw, "instruction") == Some(s.instruction) by { GetFirst(kw, 2); }
    assert RequiredStr(kw, "format") == Some(s.format) by { GetFirst(kw, 3); }
    assert OptionalStr(kw, "item_format", None) == Some(s.itemFormat) by { GetFirst(kw, 4); }
    assert OptionalBool(kw, "required", true) == Some(s.required) by { GetFirst(kw, 5); }
  }

  function SectionsToJson(ss: seq<TemplateSection>): (j: Json)
    ensures j.JArr? && |j.items| == |ss|
  {
    JArr(seq(|ss|, i requires 0 <= i < |ss| => SectionToJson(ss[i])))
  }

  lemma SectionsRoundTrip(ss: seq<TemplateSection>)
    ensures Sections(SectionsToJson(ss).items) == Some(ss)
  {
    var items := SectionsToJson(ss).items;
    forall i | 0 <= i < |items|
      ensures NewSection(items[i]) == Some(ss[i])
    {
      SectionRoundTrip(ss[i]);
    }
    assert Sections(items).value == ss;
  }

  /** A template as a template file spells it. */
  function TemplateToJson(t: SummaryTemplate): Json {
    JObj([ ("id", JStr(t.id)), ("name", JStr(t.name)), ("description", JStr(t.description)),
           ("icon", JStr(t.icon)), ("sections", SectionsToJson(t.sections)) ])
  }

  /** Every template can be written as a file that loads back as the same template. */
  lemma TemplateRoundTrip(t: SummaryTemplate)
    ensures NewTemplate(TemplateToJson(t)) == Some(t)
  {
    var kw := TemplateToJson(t).fields;
    GetFirst(kw, 0);
    GetFirst(kw, 1);
    GetFirst(kw, 2);
    GetFirst(kw, 3);
    GetFirst(kw, 4);
    SectionsRoundTrip(t.sections);
    assert ArrayField(kw, "sections") == Some(SectionsToJson(t.sections).items);
  }

  /** The template a file yields: `None` when reading or parsing it failed, or validation raises. */
  function FileTemplate(file: Option<Json>): Option<SummaryTemplate> {
    if file.Some? then NewTemplate(file.value) else None
  }

  /** The table after loading `files` in order on top of `m`. */
  function LoadAll(m: map<string, SummaryTemplate>, files: seq<Option<Json>>): map<string, SummaryTemplate>
    decreases |files|
  {
    if files == [] then m
    else
      var before := LoadAll(m, files[..|files| - 1]);
      var t := FileTemplate(files[|files| - 1]);
      if t.Some? then before[t.value.id := t.value] else before
  }

  /** An id is loaded exactly when it was there before or some file yields a template with that id. */
  lemma {:induction false} LoadAllKeys(m: map<string, SummaryTemplate>, files: seq<Option<Json>>, id: string)
    ensures id in LoadAll(m, files) <==>
      id in m || exists i :: 0 <= i < |files| && FileTemplate(files[i]).Some? && FileTemplate(files[i]).value.id == id
    decreases |files|
  {
    if files != [] {
      var n := |files|;
      var init := files[..n - 1];
      LoadAllKeys(m, init, id);
      if exists i :: 0 <= i < |init| && FileTemplate(init[i]).Some? && FileTemplate(init[i]).value.id == id {
        var i :| 0 <= i < |init| && FileTemplate(init[i]).Some? && FileTemplate(init[i]).value.id == id;
        assert files[i] == init[i];
      }
      if exists i :: 0 <= i < n && FileTemplate(files[i]).Some? && FileTemplate(files[i]).value.id == id {
        var i :| 0 <= i < n && FileTemplate(files[i]).Some? && FileTemplate(files[i]).value.id == id;
        if i < n - 1 {
          assert init[i] == files[i];
        }
      }
    }
  }

  /** The last file yielding a given id wins: its template is the one stored. */
  lemma {:induction false} LoadAllLastWins(m: map<string, SummaryTemplate>, files: seq<Option<Json>>, i: int)
    requires 0 <= i < |files| && FileTemplate(files[i]).Some?
    requires forall j :: i < j < |files| && FileTemplate(files[j]).Some? ==> FileTemplate(files[j]).value.id != FileTemplate(files[i]).value.id
    ensures var t := FileTemplate(files[i]).value;
      t.id in LoadAll(m, files) && LoadAll(m, files)[t.id] == t
    decreases |files|
  {
    var n := |files|;
    if i < n - 1 {
      var init := files[..n - 1];
      assert init[i] == files[i];
      forall j | i < j < |init| && FileTemplate(init[j]).Some?
        ensures FileTemplate(init[j]).value.id != FileTemplate(init[i]).value.id
      {
        assert init[j] == files[j];
      }
      LoadAllLastWins(m, init, i);
    }
  }

  /** Every template is stored under its own id. */
  predicate KeyedById(m: map<string, SummaryTemplate>) {
    forall id :: id in m ==> m[id].id == id
  }

  /** Loading keeps every template under its own id. */
  lemma {:induction false} LoadAllKeyed(m: map<string, SummaryTemplate>, files: seq<Option<Json>>)
    requires KeyedById(m)
    ensures KeyedById(LoadAll(m, files))
    decreases |files|
  {
    if files != [] {
      LoadAllKeyed(m, files[..|files| - 1]);
    }
  }

  /** What `list_templates` reports for one template. */
  datatype TemplateInfo = TemplateInfo(name: string, description: string, icon: string)

  /** One line of the prompt's section instructions. */
  function InstructionLine(s: TemplateSection): string {
    "- " + s.title + ": " + s.instruction
  }

  /** The lower-cased section titles. */
  function SectionNames(sections: seq<TemplateSection>): (names: seq<string>)
    ensures |names| == |sections| && forall i :: 0 <= i < |sections| ==> names[i] == Lower(sections[i].title)
  {
    seq(|sections|, i requires 0 <= i < |sections| => Lower(sections[i].title))
  }

  /**
   * The prose list of section titles: one title alone, several as `"a, b and c"`. A template
   * with no sections raises `IndexError` (`None`).
   */
  function SectionsProse(sections: seq<TemplateSection>): (r: Option<string>)
    ensures r.None? <==> sections == []
    ensures |sections| == 1 ==> r == Some(Lower(sections[0].title))
  {
    var names := SectionNames(sections);
    if |names| > 1 then Some(Join(", ", names[..|names| - 1]) + " and " + names[|names| - 1])
    else if |names| == 1 then Some(names[0])
    else None
  }

  /** The prose names every section, and with two or more sections ends in `" and "` plus the last title. */
  lemma SectionsProseMentions(sections: seq<TemplateSection>)
    ensures SectionsProse(sections).Some? ==>
      forall i :: 0 <= i < |sections| ==> Contains(SectionsProse(sections).value, Lower(sections[i].title))
    ensures |sections| > 1 ==>
      var last := " and " + Lower(sections[|sections| - 1].title);
      var prose := SectionsProse(sections).value;
      |last| <= |prose| && prose[|prose| - |last|..] == last
  {
    var names := SectionNames(sections);
    var n := |names|;
    if n == 1 {
      assert OccursAt(names[0], names[0], 0);
      ContainsAt(names[0], names[0]);
    } else if n > 1 {
      var init := names[..n - 1];
      var joined := Join(", ", init);
      forall i | 0 <= i < n
        ensures Contains(SectionsProse(sections).value, names[i])
      {
        if i < n - 1 {
          JoinContains(", ", init, i);
          assert init[i] == names[i];
          ContainsInside([], joined, " and " + names[n - 1], names[i]);
          assert [] + joined + (" and " + names[n - 1]) == SectionsProse(sections).value;
        } else {
          assert OccursAt(names[i], names[i], 0);
          ContainsAt(names[i], names[i]);
          ContainsInside(joined + " and ", names[i], [], names[i]);
          assert joined + " and " + names[i] + [] == SectionsProse(sections).value;
        }
      }
    }
  }

  /** The formats that give a section an entry in the JSON structure. */
  predicate KnownFormat(format: string) {
    format == "paragraph" || format == "string" || format == "list"
  }

  /** The three generic list examples. */
  function DefaultList(title: string): Json {
    JArr([ JStr("First " + Lower(title) + " item"), JStr("Second " + Lower(title) + " item"),
           JStr("Third " + Lower(title) + " item") ])
  }

  /** The placeholder for key `k` with example value `v` in example item `i` (counting from 0). */
  function ItemValue(k: string, v: Json, i: nat): Json {
    if Contains(Lower(PyStr(v)), "null") then JStr(Title(ReplaceAll(k, "_", " ")) + " or null if unclear")
    else if i > 0 then JStr(PyStr(v) + " " + IntToString(i + 1))
    else v
  }

  /** The placeholders of example item `i`, one per entry of the parsed `item_format`, in order. */
  function Placeholders(f: Fields, i: nat): (e: Fields)
    ensures |e| == |f| && forall n :: 0 <= n < |f| ==> e[n] == (f[n].0, ItemValue(f[n].0, f[n].1, i))
  {
    seq(|f|, n requires 0 <= n < |f| => (f[n].0, ItemValue(f[n].0, f[n].1, i)))
  }

  /** Example item `i`: the placeholders stored key by key into an empty `dict`. */
  function ExampleItem(f: Fields, i: nat): Fields {
    Dict(Placeholders(f, i))
  }

  /** A key of the example object whose later entries have other keys gets its placeholder in every item. */
  lemma ExampleItemGet(f: Fields, i: nat, j: int)
    requires 0 <= j < |f|
    requires forall k :: j < k < |f| ==> f[k].0 != f[j].0
    ensures Get(ExampleItem(f, i), f[j].0) == Some(ItemValue(f[j].0, f[j].1, i))
  {
    DictGet(Placeholders(f, i), j);
  }

  /**
   * The three examples of one key: a value whose text contains "null" (any case) gives the
   * same "or null if unclear" text three times; any other value `v` gives `v`, `"{v} 2"`
   * and `"{v} 3"`.
   */
  lemma ItemValues(k: string, v: Json)
    ensures Contains(Lower(PyStr(v)), "null") ==>
      ItemValue(k, v, 0) == ItemValue(k, v, 1) == ItemValue(k, v, 2) == JStr(Title(ReplaceAll(k, "_", " ")) + " or null if unclear")
    ensures !Contains(Lower(PyStr(v)), "null") ==>
      ItemValue(k, v, 0) == v && ItemValue(k, v, 1) == JStr(PyStr(v) + " 2") && ItemValue(k, v, 2) == JStr(PyStr(v) + " 3")
  {
    assert IntToString(2) == "2" && IntToString(3) == "3";
  }

  /** The three example items built from the parsed `item_format`. */
  function ExampleList(f: Fields): (v: Json)
    ensures v.JArr? && |v.items| == 3
  {
    JArr(seq(3, i requires 0 <= i < 3 => JObj(ExampleItem(f, i))))
  }

  /** The JSON value of one section: which placeholder `generate_prompt` puts under its key. */
  function SectionValue(s: TemplateSection, parse: string -> Option<Json>): (v: Json)
    ensures s.format == "list" ==> v.JArr? && |v.items| == 3
  {
    if s.format == "paragraph" then JStr("Brief " + Lower(s.title) + " of the meeting")
    else if s.format == "string" then JStr(s.title + " if mentioned or null")
    else if s.itemFormat.Some? && s.itemFormat.value != "" then
      match parse(ReplaceAll(s.itemFormat.value, "'", "\""))
      case Some(JObj(f)) => ExampleList(f)
      case _ => DefaultList(s.title)
    else DefaultList(s.title)
  }

  /** The JSON structure after the sections in order: later sections with the same key overwrite in place. */
  function Structure(sections: seq<TemplateSection>, parse: string -> Option<Json>): Fields
    decreases |sections|
  {
    if sections == [] then []
    else
      var n := |sections|;
      var before := Structure(sections[..n - 1], parse);
      var s := sections[n - 1];
      if KnownFormat(s.format) then Put(before, s.key, SectionValue(s, parse)) else before
  }

  /** The structure has a key exactly when some section of a known format has it. */
  lemma {:induction false} StructureKeys(sections: seq<TemplateSection>, parse: string -> Option<Json>, key: string)
    ensures key in Keys(Structure(sections, parse)) <==>
      exists i :: 0 <= i < |sections| && sections[i].key == key && KnownFormat(sections[i].format)
    decreases |sections|
  {
    if sections != [] {
      var n := |sections|;
      var init := sections[..n - 1];
      StructureKeys(init, parse, key);
      if exists i :: 0 <= i < |init| && init[i].key == key && KnownFormat(init[i].format) {
        var i :| 0 <= i < |init| && init[i].key == key && KnownFormat(init[i].format);
        assert sections[i] == init[i];
      }
      if exists i :: 0 <= i < n && sections[i].key == key && KnownFormat(sections[i].format) {
        var i :| 0 <= i < n && sections[i].key == key && KnownFormat(sections[i].format);
        if i < n - 1 {
          assert init[i] == sections[i];
        }
      }
    }
  }

  /** The last section of a known format with a given key decides that key's value. */
  lemma {:induction false} StructureLastWins(sections: seq<TemplateSection>, parse: string -> Option<Json>, i: int)
    requires 0 <= i < |sections| && KnownFormat(sections[i].format)
    requires forall j :: i < j < |sections| && KnownFormat(sections[j].format) ==> sections[j].key != sections[i].key
    ensures Get(Structure(sections, parse), sections[i].key) == Some(SectionValue(sections[i], parse))
    decreases |sections|
  {
    var n := |sections|;
    var init := sections[..n - 1];
    var s := sections[n - 1];
    GetPut(Structure(init, parse), s.key, SectionValue(s, parse), sections[i].key);
    if i < n - 1 {
      assert init[i] == sections[i];
      forall j | i < j < |init| && KnownFormat(init[j].format) ensures init[j].key != init[i].key {
        assert init[j] == sections[j];
      }
      StructureLastWins(init, parse, i);
    }
  }

  /** The parts of the generated prompt that depend on the template and the transcript. */
  datatype Prompt = Prompt(prose: string, instructions: seq<string>, transcript: string, structure: Fields)

  /** `TemplateManager`: the loaded templates by id. */
  class TemplateManager {
    var templates: map<string, SummaryTemplate>

    /** `TemplateManager()`: loads the template directory, when it exists. */
    constructor (dirExists: bool, files: seq<Option<Json>>)
      ensures templates == if dirExists then LoadAll(map[], files) else map[]
    {
      templates := map[];
      new;
      LoadTemplates(dirExists, files);
    }

    /**
     * `_load_templates`: each file that parses and validates is stored under its id,
     * replacing any earlier template with that id; the others are skipped.
     */
    method LoadTemplates(dirExists: bool, files: seq<Option<Json>>)
      modifies this
      ensures templates == if dirExists then LoadAll(old(templates), files) else old(templates)
    {
      if !dirExists {
        return;
      }
      var i := 0;
      while i < |files|
        invariant 0 <= i <= |files|
        invariant templates == LoadAll(old(templates), files[..i])
      {
        assert files[..i + 1][..i] == files[..i];
        var t := FileTemplate(files[i]);
        if t.Some? {
          templates := templates[t.value.id := t.value];
        }
        i := i + 1;
      }
      assert files[..i] == files;
    }

    /** `get_template`: the template stored under the id, `None` for an unknown id. */
    function GetTemplate(id: string): (r: Option<SummaryTemplate>)
      reads this
      ensures r.None? <==> id !in templates
      ensures r.Some? ==> r.value == templates[id]
    {
      if id in templates then Some(templates[id]) else None
    }

    /** `list_templates`: exactly the loaded ids, each with its name, description and icon. */
    function ListTemplates(): (r: map<string, TemplateInfo>)
      reads this
      ensures r.Keys == templates.Keys
      ensures forall id :: id in r ==>
        r[id].name == templates[id].name && r[id].description == templates[id].description && r[id].icon == templates[id].icon
    {
      map id | id in templates :: TemplateInfo(templates[id].name, templates[id].description, templates[id].icon)
    }

    /** The list examples of one `list` section: three items built key by key. */
    method ListValue(s: TemplateSection, parse: string -> Option<Json>) returns (v: Json)
      requires s.format == "list"
      ensures v == SectionValue(s, parse)
    {
      if s.itemFormat.None? || s.itemFormat.value == "" {
        return DefaultList(s.title);
      }
      var parsed := parse(ReplaceAll(s.itemFormat.value, "'", "\""));
      if parsed.None? || !parsed.value.JObj? {
        return DefaultList(s.title);
      }
      v := ExampleItems(parsed.value.fields);
    }

    /** The loop over the three example items. */
    method ExampleItems(f: Fields) returns (v: Json)
      ensures v == ExampleList(f)
    {
      var examples: seq<Json> := [];
      var i := 0;
      while i < 3
        invariant 0 <= i <= 3
        invariant |examples| == i && forall n :: 0 <= n < i ==> examples[n] == JObj(ExampleItem(f, n))
      {
        var item := BuildItem(f, i);
        examples := examples + [JObj(item)];
        i := i + 1;
      }
      v := JArr(examples);
    }

    /** One example item: the keys of the parsed `item_format` in order, each with its placeholder. */
    method BuildItem(f: Fields, i: nat) returns (item: Fields)
      ensures item == ExampleItem(f, i)
    {
      item := [];
      var j := 0;
      ghost var e := Placeholders(f, i);
      while j < |f|
        invariant 0 <= j <= |f|
        invariant item == Dict(e[..j])
      {
        var key, value := f[j].0, ItemValue(f[j].0, f[j].1, i);
        assert e[j] == (key, value) && e[..j + 1][..j] == e[..j];
        DictLast(e[..j + 1]);
        item := Put(item, key, value);
        j := j + 1;
      }
      assert e[..j] == e;
    }

    /**
     * `generate_prompt`: `None` for a template without sections (the source raises
     * `IndexError`); otherwise the prose, one instruction line per section in order, the
     * transcript and the example JSON structure.
     */
    method GeneratePrompt(template: SummaryTemplate, transcript: string, parse: string -> Option<Json>) returns (p: Option<Prompt>)
      ensures p.None? <==> template.sections == []
      ensures p.Some? ==> p.value.prose == SectionsProse(template.sections).value
      ensures p.Some? ==> |p.value.instructions| == |template.sections|
      ensures p.Some? ==> forall i :: 0 <= i < |template.sections| ==> p.value.instructions[i] == InstructionLine(template.sections[i])
      ensures p.Some? ==> p.value.transcript == transcript && p.value.structure == Structure(template.sections, parse)
    {
      var sections := template.sections;
      var prose := SectionsProse(sections);
      if prose.None? {
        return None;
      }
      var structure: Fields := [];
      var i := 0;
      while i < |sections|
        invariant 0 <= i <= |sections|
        invariant structure == Structure(sections[..i], parse)
      {
        assert sections[..i + 1][..i] == sections[..i];
        var s := sections[i];
        if s.format == "paragraph" || s.format == "string" {
          structure := Put(structure, s.key, SectionValue(s, parse));
        } else if s.format == "list" {
          var v := ListValue(s, parse);
          structure := Put(structure, s.key, v);
        }
        i := i + 1;
      }
      assert sections[..i] == sections;
      var instructions: seq<string> := [];
      var k := 0;
      while k < |sections|
        invariant 0 <= k <= |sections|
        invariant |instructions| == k && forall n :: 0 <= n < k ==> instructions[n] == InstructionLine(sections[n])
      {
        instructions := instructions + [InstructionLine(sections[k])];
        k := k + 1;
      }
      p := Some(Prompt(prose.value, instructions, transcript, structure));
    }
  }
}
