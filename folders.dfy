/**
 * `FoldersManager`: the list of folders kept under the `"folders"` key of `folders.json`, and
 * the per-meeting list of folder ids kept under the `"folders"` key of a summary JSON file.
 * Files are values: what the constructor reads, the list last written, and for a meeting the
 * parsed summary before and the JSON written after. Whether a write succeeds, the `uuid4`
 * string and the timestamp are parameters.
 */
module Folders {
  import opened Wrappers
  import opened Strings
  import opened Json

  const DefaultColor := "#6366f1"

  /** The error raised by `self._data["folders"]` when the loaded file has no such key. */
  const MissingFoldersKey := "KeyError: 'folders'"

  datatype Folder = Folder(id: string, name: string, color: string, createdAt: string, order: int)

  /** What the constructor finds: no file, an unreadable one, or parsed data with or without the key. */
  datatype FoldersFile = Absent | Unreadable | Loaded(folders: Option<seq<Folder>>)

  /** `str(uuid.uuid4())[:8]`. */
  function ShortId(uuid: string): (id: string)
    ensures |id| == if |uuid| < 8 then |uuid| else 8
    ensures id == uuid[..|id|]
  {
    if |uuid| < 8 then uuid else uuid[..8]
  }

  /** The index of the first folder with the id, or -1 when none has it. */
  function IndexOfId(fs: seq<Folder>, id: string): (i: int)
    ensures -1 <= i < |fs|
    ensures i < 0 <==> forall k :: 0 <= k < |fs| ==> fs[k].id != id
    ensures 0 <= i ==> fs[i].id == id && forall k :: 0 <= k < i ==> fs[k].id != id
  {
    if fs == [] then -1
    else if fs[0].id == id then 0
    else
      var i := IndexOfId(fs[1..], id);
      if i < 0 then -1 else i + 1
  }

  /** `[f for f in folders if f["id"] != folder_id]`. */
  function Without(fs: seq<Folder>, id: string): (r: seq<Folder>)
    ensures forall f :: f in r <==> f in fs && f.id != id
    ensures |r| <= |fs|
  {
    if fs == [] then []
    else (if fs[0].id == id then [] else [fs[0]]) + Without(fs[1..], id)
  }

  /** Filtering keeps the survivors in their original order: it distributes over concatenation. */
  lemma {:induction false} WithoutAppend(a: seq<Folder>, b: seq<Folder>, id: string)
    ensures Without(a + b, id) == Without(a, id) + Without(b, id)
  {
    if a != [] {
      assert (a + b)[0] == a[0] && (a + b)[1..] == a[1..] + b;
      WithoutAppend(a[1..], b, id);
    } else {
      assert a + b == b;
    }
  }

  /** Deleting an id no folder has leaves the list as it is. */
  lemma {:induction false} WithoutAbsent(fs: seq<Folder>, id: string)
    requires forall k :: 0 <= k < |fs| ==> fs[k].id != id
    ensures Without(fs, id) == fs
  {
    if fs != [] {
      WithoutAbsent(fs[1..], id);
    }
  }

  /** Deleting twice is deleting once. */
  lemma WithoutIdempotent(fs: seq<Folder>, id: string)
    ensures Without(Without(fs, id), id) == Without(fs, id)
  {
    var r := Without(fs, id);
    forall k | 0 <= k < |r| ensures r[k].id != id {
      assert r[k] in r;
    }
    WithoutAbsent(r, id);
  }

  class FoldersManager {
    /** The `"folders"` entry of the loaded data; `None` when the file had no such key. */
    var folders: Option<seq<Folder>>
    /** The folder list most recently written to `folders.json`, if any. */
    var saved: Option<seq<Folder>>

    /** `FoldersManager(data_dir)` with `_load`: no file or an unreadable one gives `{"folders": []}`. */
    constructor (file: FoldersFile)
      ensures file.Loaded? ==> folders == file.folders
      ensures !file.Loaded? ==> folders == Some([])
      ensures saved.None?
    {
      saved := None;
      if file.Loaded? {
        folders := file.folders;
      } else {
        folders := Some([]);
      }
    }

    /** `_save`. */
    method Save(writeOk: bool) returns (ok: bool)
      requires folders.Some?
      modifies this
      ensures ok == writeOk && folders == old(folders)
      ensures saved == if writeOk then Some(folders.value) else old(saved)
    {
      if writeOk {
        saved := Some(folders.value);
      }
      ok := writeOk;
    }

    /** `list_folders`: the folders, or `[]` when the key is missing. */
    function ListFolders(): (r: seq<Folder>)
      reads this
      ensures folders.Some? ==> r == folders.value
      ensures folders.None? ==> r == []
    {
      folders.GetOr([])
    }

    /**
     * `create_folder`: one folder whose `order` is the number of folders before it goes at the
     * end, and stays there whether or not the save succeeds; it is returned only when it does.
     */
    method CreateFolder(name: string, color: string, uuid: string, now: string, writeOk: bool)
      returns (r: Result<Option<Folder>, string>)
      modifies this
      ensures old(folders).None? ==> r == Err(MissingFoldersKey) && folders == old(folders) && saved == old(saved)
      ensures old(folders).Some? ==>
        var f := Folder(ShortId(uuid), name, color, now, |old(folders).value|);
        folders == Some(old(folders).value + [f]) &&
        r == Ok(if writeOk then Some(f) else None) &&
        saved == if writeOk then folders else old(saved)
    {
      if folders.None? {
        return Err(MissingFoldersKey);
      }
      var f := Folder(ShortId(uuid), name, color, now, |folders.value|);
      folders := Some(folders.value + [f]);
      var ok := Save(writeOk);
      r := Ok(if ok then Some(f) else None);
    }

    /**
     * `rename_folder`: the first folder with the id takes the new name and the list is saved;
     * with no such folder the result is False and nothing changes.
     */
    method RenameFolder(id: string, name: string, writeOk: bool) returns (r: Result<bool, string>)
      modifies this
      ensures old(folders).None? ==> r == Err(MissingFoldersKey) && folders == old(folders) && saved == old(saved)
      ensures old(folders).Some? && IndexOfId(old(folders).value, id) < 0 ==>
        r == Ok(false) && folders == old(folders) && saved == old(saved)
      ensures old(folders).Some? && 0 <= IndexOfId(old(folders).value, id) ==>
        var i := IndexOfId(old(folders).value, id);
        folders == Some(old(folders).value[i := old(folders).value[i].(name := name)]) &&
        r == Ok(writeOk) && saved == if writeOk then folders else old(saved)
    {
      if folders.None? {
        return Err(MissingFoldersKey);
      }
      var fs := folders.value;
      var j := 0;
      while j < |fs|
        invariant 0 <= j <= |fs| && folders == Some(fs) && saved == old(saved)
        invariant forall k :: 0 <= k < j ==> fs[k].id != id
      {
        if fs[j].id == id {
          folders := Some(fs[j := fs[j].(name := name)]);
          var ok := Save(writeOk);
          return Ok(ok);
        }
        j := j + 1;
      }
      r := Ok(false);
    }

    /** `delete_folder`: every folder with the id goes, the rest keep their order, and the list is saved. */
    method DeleteFolder(id: string, writeOk: bool) returns (r: Result<bool, string>)
      modifies this
      ensures old(folders).None? ==> r == Err(MissingFoldersKey) && folders == old(folders) && saved == old(saved)
      ensures old(folders).Some? ==>
        folders == Some(Without(old(folders).value, id)) &&
        r == Ok(writeOk) && saved == if writeOk then folders else old(saved)
    {
      if folders.None? {
        return Err(MissingFoldersKey);
      }
      folders := Some(Without(folders.value, id));
      var ok := Save(writeOk);
      r := Ok(ok);
    }
  }

  /** The outcome of editing a meeting's summary file: the returned flag and what was written. */
  datatype MeetingEdit = MeetingEdit(ok: bool, written: Option<Json>)

  /** `data.get("folders", [])` on a parsed summary object. */
  function FolderRefs(data: Fields): Json {
    GetOr(data, "folders", JArr([]))
  }

  /**
   * `folder_id in folders` for whatever the key holds: list membership, substring for a string,
   * key membership for an object; `None` where Python raises `TypeError`.
   */
  function HasRef(v: Json, id: string): (r: Option<bool>)
    ensures r.Some? <==> v.JArr? || v.JStr? || v.JObj?
    ensures v.JArr? ==> r == Some(JStr(id) in v.items)
  {
    match v
    case JArr(xs) => Some(JStr(id) in xs)
    case JStr(s) => Some(Contains(s, id))
    case JObj(f) => Some(id in Keys(f))
    case _ => None
  }

  /** `list.remove(x)`: the first occurrence goes. */
  function RemoveFirst(xs: seq<Json>, x: Json): (r: seq<Json>)
    requires x in xs
    ensures multiset(r) == multiset(xs) - multiset{x}
  {
    assert xs == [xs[0]] + xs[1..];
    if xs[0] == x then xs[1..]
    else
      [xs[0]] + RemoveFirst(xs[1..], x)
  }

  /**
   * `add_meeting_to_folder`. `content` is the parsed summary, `None` when reading or parsing
   * fails. The id is appended and the file rewritten only when the list lacks it; a present id
   * gives True with no write. Every exception (a non-object summary, a `folders` value that
   * cannot be searched or appended to, a failed write) gives False.
   */
  function AddMeetingToFolder(content: Option<Json>, id: string, writeOk: bool): (r: MeetingEdit)
    ensures r.written.Some? ==> r.ok
    ensures r.written.Some? <==>
      content.Some? && content.value.JObj? && FolderRefs(content.value.fields).JArr? &&
      JStr(id) !in FolderRefs(content.value.fields).items && writeOk
  {
    if content.None? || !content.value.JObj? then MeetingEdit(false, None)
    else
      var data := content.value.fields;
      var v := FolderRefs(data);
      match HasRef(v, id)
      case None => MeetingEdit(false, None)
      case Some(present) =>
        if present then MeetingEdit(true, None)
        else if v.JArr? && writeOk then MeetingEdit(true, Some(JObj(Put(data, "folders", JArr(v.items + [JStr(id)])))))
        else MeetingEdit(false, None)
  }

  /**
   * `remove_meeting_from_folder`: the first occurrence of the id goes and the file is rewritten;
   * an absent id gives True with no write, and a string or object `folders` value holding the id
   * raises (it has no `remove`), giving False.
   */
  function RemoveMeetingFromFolder(content: Option<Json>, id: string, writeOk: bool): (r: MeetingEdit)
    ensures r.written.Some? ==> r.ok
    ensures r.written.Some? <==>
      content.Some? && content.value.JObj? && FolderRefs(content.value.fields).JArr? &&
      JStr(id) in FolderRefs(content.value.fields).items && writeOk
  {
    if content.None? || !content.value.JObj? then MeetingEdit(false, None)
    else
      var data := content.value.fields;
      var v := FolderRefs(data);
      match HasRef(v, id)
      case None => MeetingEdit(false, None)
      case Some(present) =>
        if !present then MeetingEdit(true, None)
        else if v.JArr? && writeOk then MeetingEdit(true, Some(JObj(Put(data, "folders", JArr(RemoveFirst(v.items, JStr(id)))))))
        else MeetingEdit(false, None)
  }

  /**
   * What an add writes: the summary with the id appended once to its list (now holding it
   * exactly once) and every other key as it was.
   */
  lemma AddWrites(data: Fields, id: string, writeOk: bool, other: string)
    requires AddMeetingToFolder(Some(JObj(data)), id, writeOk).written.Some?
    ensures var w := AddMeetingToFolder(Some(JObj(data)), id, writeOk).written.value;
      w.JObj? && FolderRefs(w.fields) == JArr(FolderRefs(data).items + [JStr(id)]) &&
      multiset(FolderRefs(w.fields).items)[JStr(id)] == 1 &&
      (other != "folders" ==> Get(w.fields, other) == Get(data, other))
  {
    var xs := FolderRefs(data).items;
    GetPut(data, "folders", JArr(xs + [JStr(id)]), other);
    assert multiset(xs)[JStr(id)] == 0;
  }

  /** Adding is idempotent: once the id has been added, adding it again is True and writes nothing. */
  lemma AddIdempotent(data: Fields, id: string, writeOk: bool, writeOk2: bool)
    requires AddMeetingToFolder(Some(JObj(data)), id, writeOk).written.Some?
    ensures AddMeetingToFolder(AddMeetingToFolder(Some(JObj(data)), id, writeOk).written, id, writeOk2)
      == MeetingEdit(true, None)
  {
    AddWrites(data, id, writeOk, "folders");
    var w := AddMeetingToFolder(Some(JObj(data)), id, writeOk).written.value;
    assert JStr(id) in FolderRefs(w.fields).items;
  }

  /** Removing what was just added restores the list the summary had before. */
  lemma RemoveAfterAdd(data: Fields, id: string, writeOk: bool)
    requires AddMeetingToFolder(Some(JObj(data)), id, writeOk).written.Some?
    ensures var w := AddMeetingToFolder(Some(JObj(data)), id, writeOk).written;
      RemoveMeetingFromFolder(w, id, true).written == Some(JObj(Put(w.value.fields, "folders", FolderRefs(data))))
  {
    AddWrites(data, id, writeOk, "folders");
    var xs := FolderRefs(data).items;
    RemoveAppended(xs, JStr(id));
  }

  lemma {:induction false} RemoveAppended(xs: seq<Json>, x: Json)
    requires x !in xs
    ensures RemoveFirst(xs + [x], x) == xs
  {
    if xs != [] {
      assert (xs + [x])[1..] == xs[1..] + [x];
      RemoveAppended(xs[1..], x);
    }
  }

  /** What a removal writes: one occurrence fewer and every other key as it was. */
  lemma RemoveWrites(data: Fields, id: string, writeOk: bool, other: string)
    requires RemoveMeetingFromFolder(Some(JObj(data)), id, writeOk).written.Some?
    ensures var w := RemoveMeetingFromFolder(Some(JObj(data)), id, writeOk).written.value;
      w.JObj? && FolderRefs(w.fields).JArr? &&
      multiset(FolderRefs(w.fields).items) == multiset(FolderRefs(data).items) - multiset{JStr(id)} &&
      (other != "folders" ==> Get(w.fields, other) == Get(data, other))
  {
    var xs := FolderRefs(data).items;
    GetPut(data, "folders", JArr(RemoveFirst(xs, JStr(id))), other);
  }
}
