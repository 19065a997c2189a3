/**
 * neva::WebContentsDelegate::OnRunFileChooserRespondCallback: the native
 * file chooser answers with a JSON text, which is validated into the list
 * of files handed to the FileSelectListener.  Validation is all or nothing:
 * any malformed part drops the whole answer and the listener is never told.
 *
 * The reply text is given already parsed (`None` when the JSON reader
 * rejects it); a `Some` result stands for the one FileSelected call.
 */
module FileChooser {
  import opened Wrappers
  import opened Json

  /** NativeFileInfo: the file path and its display name. */
  datatype FileInfo = NativeFile(path: string, displayName: string)

  /** The arguments of FileSelected: the files in list order and the chooser mode. */
  datatype Selection = Selection(files: seq<FileInfo>, mode: int)

  /** An acceptable element of "file_list" (size and modification time must be present but are not kept). */
  predicate IsFileEntry(entry: Value) {
    && GetString(entry, "file_path").Some?
    && GetString(entry, "display_name").Some?
    && GetInt(entry, "size").Some?
    && GetString(entry, "modification_time").Some?
  }

  /** One element of "file_list" turned into a file, or None when it is not acceptable. */
  function EntryFile(entry: Value): (r: Option<FileInfo>)
    ensures r.Some? <==> IsFileEntry(entry)
    ensures r.Some? ==> entry.Dict? && entry.entries["file_path"] == Str(r.value.path) &&
                        entry.entries["display_name"] == Str(r.value.displayName)
  {
    if IsFileEntry(entry) then
      Some(NativeFile(GetString(entry, "file_path").value, GetString(entry, "display_name").value))
    else None
  }

  /** The files of a whole list, or None as soon as one element is not acceptable. */
  function ListFiles(items: seq<Value>): Option<seq<FileInfo>>
  {
    if items == [] then Some([])
    else match (ListFiles(items[..|items| - 1]), EntryFile(items[|items| - 1]))
      case (Some(files), Some(f)) => Some(files + [f])
      case _ => None
  }

  /** ListFiles is all or nothing, and keeps the list's order. */
  lemma {:induction false} ListFilesAt(items: seq<Value>)
    ensures ListFiles(items).Some? <==> forall i :: 0 <= i < |items| ==> IsFileEntry(items[i])
    ensures ListFiles(items).Some? ==>
              |ListFiles(items).value| == |items| &&
              forall i :: 0 <= i < |items| ==> ListFiles(items).value[i] == EntryFile(items[i]).value
    decreases |items|
  {
    if items != [] {
      var init := items[..|items| - 1];
      ListFilesAt(init);
      assert forall i :: 0 <= i < |init| ==> init[i] == items[i];
    }
  }

  /**
   * The whole validation: the reply must parse to a dictionary with an
   * integer "mode" and a list "file_list" whose every element is acceptable.
   */
  function Validate(response: Option<Value>): (r: Option<Selection>)
    ensures r.Some? <==>
              && response.Some?
              && GetInt(response.value, "mode").Some?
              && GetList(response.value, "file_list").Some?
              && (forall e :: e in GetList(response.value, "file_list").value ==> IsFileEntry(e))
    ensures r.Some? ==>
              var items := GetList(response.value, "file_list").value;
              && r.value.mode == GetInt(response.value, "mode").value
              && |r.value.files| == |items|
              && (forall i :: 0 <= i < |items| ==> r.value.files[i] == EntryFile(items[i]).value)
  {
    if response.None? || !response.value.Dict? then None
    else
      var dict := response.value;
      match (GetInt(dict, "mode"), GetList(dict, "file_list"))
      case (Some(mode), Some(items)) =>
        ListFilesAt(items);
        (match ListFiles(items)
         case Some(files) => Some(Selection(files, mode))
         case None => None)
      case _ => None
  }

  /**
   * OnRunFileChooserRespondCallback: walks "file_list" by index, stopping
   * at the first bad element; only a complete walk selects anything.
   */
  method RespondCallback(response: Option<Value>) returns (selected: Option<Selection>)
    ensures selected == Validate(response)
  {
    if response.None? {
      return None;
    }
    var dict := response.value;
    if !dict.Dict? {
      return None;
    }
    var mode := GetInt(dict, "mode");
    if mode.None? {
      return None;
    }
    var list := GetList(dict, "file_list");
    if list.None? {
      return None;
    }
    var items := list.value;
    var files: seq<FileInfo> := [];
    for i := 0 to |items|
      invariant ListFiles(items[..i]) == Some(files)
    {
      assert items[..i + 1][..i] == items[..i];
      var file := EntryFile(items[i]);
      if file.None? {
        ListFilesAt(items);
        return None;
      }
      files := files + [file.value];
    }
    assert items[..|items|] == items;
    selected := Some(Selection(files, mode.value));
  }

  /** The element the chooser would send for a file, with any size and modification time. */
  function EntryValue(f: FileInfo, size: int, modificationTime: string): Value {
    Dict(map["file_path" := Str(f.path), "display_name" := Str(f.displayName),
             "size" := Int(size), "modification_time" := Str(modificationTime)])
  }

  /** The reply the chooser would send for a selection (sizes 0, empty modification times). */
  function ResponseValue(s: Selection): Value {
    Dict(map["mode" := Int(s.mode),
             "file_list" := List(seq(|s.files|, i requires 0 <= i < |s.files| => EntryValue(s.files[i], 0, "")))])
  }

  /** A file written as an element is read back whatever its size and modification time. */
  lemma EntryRoundTrip(f: FileInfo, size: int, modificationTime: string)
    ensures EntryFile(EntryValue(f, size, modificationTime)) == Some(f)
  {
    var e := EntryValue(f, size, modificationTime);
    assert GetString(e, "file_path") == Some(f.path);
    assert GetString(e, "display_name") == Some(f.displayName);
  }

  /** A selection written as a reply is validated back to itself. */
  lemma ValidateRoundTrip(s: Selection)
    ensures Validate(Some(ResponseValue(s))) == Some(s)
  {
    var v := ResponseValue(s);
    var items := seq(|s.files|, i requires 0 <= i < |s.files| => EntryValue(s.files[i], 0, ""));
    assert GetList(v, "file_list") == Some(items);
    assert GetInt(v, "mode") == Some(s.mode);
    forall i | 0 <= i < |items|
      ensures EntryFile(items[i]) == Some(s.files[i])
    {
      EntryRoundTrip(s.files[i], 0, "");
    }
    var r := Validate(Some(v));
    assert r.Some?;
    assert r.value.files == s.files;
  }

  /** One bad element anywhere drops the whole reply, however many good ones surround it. */
  lemma BadEntryDropsAll(mode: int, before: seq<Value>, bad: Value, after: seq<Value>)
    requires !IsFileEntry(bad)
    ensures Validate(Some(Dict(map["mode" := Int(mode), "file_list" := List(before + [bad] + after)]))) == None
  {
    var v := Dict(map["mode" := Int(mode), "file_list" := List(before + [bad] + after)]);
    assert GetList(v, "file_list") == Some(before + [bad] + after);
    assert (before + [bad] + after)[|before|] == bad;
  }
}
