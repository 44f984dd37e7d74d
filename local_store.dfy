/** The rest of the upload hooks: `parseJSON`, which picks the list of
    records out of a parsed JSON document, and the uploaded-file list kept
    by `useLocalStorage('uploadedFiles', [])`, whose setter writes a
    serialisable copy (every browser `File` replaced by its name, size and
    type) to local storage. */
module LocalStore {
  import opened Common
  import opened Cells

  /** A parsed JSON value. */
  datatype Json = JNull | JBool(b: bool) | JNum(n: real) | JStr(s: string)
                | JArr(items: seq<Json>) | JObj(props: map<string, Json>)

  /** What `parseJSON` ends in: a list of records, or the TypeError that
      reading `.data` of `null` throws. */
  datatype Records = Records(items: seq<Json>) | Thrown

  /** `data.data && Array.isArray(data.data)`: arrays are always truthy. */
  predicate HasArray(data: Json, key: string) {
    data.JObj? && key in data.props && data.props[key].JArr?
  }

  /** `parseJSON` after `JSON.parse`: an array as it is, else an array under
      `data`, else an array under `records`, else the value alone. */
  function ParseJson(data: Json): (r: Records)
    ensures r == Thrown <==> data == JNull
    ensures data.JArr? ==> r == Records(data.items)
    ensures !data.JArr? && HasArray(data, "data") ==> r == Records(data.props["data"].items)
    ensures !data.JArr? && !HasArray(data, "data") && HasArray(data, "records") ==>
      r == Records(data.props["records"].items)
    ensures data != JNull && !data.JArr? && !HasArray(data, "data") && !HasArray(data, "records") ==>
      r == Records([data])
  {
    if data.JArr? then Records(data.items)
    else if data == JNull then Thrown
    else if HasArray(data, "data") then Records(data.props["data"].items)
    else if HasArray(data, "records") then Records(data.props["records"].items)
    else Records([data])
  }

  /** An object with an array under both keys gives the `data` one. */
  lemma DataBeforeRecords(a: seq<Json>, b: seq<Json>)
    ensures ParseJson(JObj(map["data" := JArr(a), "records" := JArr(b)])) == Records(a)
  {
  }

  // ---------------------------------------------------------------------------
  // The stored list

  /** A browser `File`: its `name`, `size` and `type`. */
  datatype FileInfo = FileInfo(name: string, size: nat, mime: string)

  /** A property value of a stored entry: JSON, a `File` kept in memory, or
      the rows parsed from the file. */
  datatype Value = V(json: Json) | FileObj(file: FileInfo) | Table(rows: seq<Row>)

  /** One uploaded-file entry. */
  type Item = map<string, Value>

  predicate HoldsFile(item: Item) {
    "file" in item && item["file"].FileObj?
  }

  /** The `map` callback of `setValue`: `{...rest, hasFile: true, fileName,
      fileSize, fileType}` in place of an entry's `File`. */
  function Serialise(item: Item): (r: Item)
    ensures !HoldsFile(item) ==> r == item
    ensures HoldsFile(item) ==> var f := item["file"].file;
      "file" !in r && "hasFile" in r && "fileName" in r && "fileSize" in r && "fileType" in r
      && r["hasFile"] == V(JBool(true)) && r["fileName"] == V(JStr(f.name))
      && r["fileSize"] == V(JNum(f.size as real)) && r["fileType"] == V(JStr(f.mime))
      && forall k :: k in item && k !in {"file", "hasFile", "fileName", "fileSize", "fileType"} ==> k in r && r[k] == item[k]
    ensures !HoldsFile(r)
  {
    if HoldsFile(item) then
      var f := item["file"].file;
      (item - {"file"})["hasFile" := V(JBool(true))]["fileName" := V(JStr(f.name))]
        ["fileSize" := V(JNum(f.size as real))]["fileType" := V(JStr(f.mime))]
    else item
  }

  function SerialiseAll(items: seq<Item>): (r: seq<Item>)
    ensures |r| == |items|
    ensures forall i :: 0 <= i < |items| ==> r[i] == Serialise(items[i])
  {
    seq(|items|, i requires 0 <= i < |items| => Serialise(items[i]))
  }

  /** What is written holds no `File`, so writing it again changes nothing. */
  lemma SerialiseIdempotent(items: seq<Item>)
    ensures SerialiseAll(SerialiseAll(items)) == SerialiseAll(items)
    ensures forall i :: 0 <= i < |items| ==> !HoldsFile(SerialiseAll(items)[i])
  {
  }

  /** The value handed to `setValue`: a list, or anything else. */
  datatype Stored = List(items: seq<Item>) | Other(json: Json)

  /** `item.id`: `undefined` when missing. */
  function IdOf(item: Item): Option<Value> {
    if "id" in item then Some(item["id"]) else None
  }

  /** `prev.filter(file => file.id !== fileId)`: every entry with that id
      goes, the others stay in order, and with no such entry nothing
      changes. */
  function Without(items: seq<Item>, id: Value): (r: seq<Item>)
    ensures forall x :: x in r <==> x in items && IdOf(x) != Some(id)
    ensures IsSubsequence(r, items)
    ensures (forall x :: x in items ==> IdOf(x) != Some(id)) ==> r == items
  {
    var keep := (x: Item) => IdOf(x) != Some(id);
    FilterIsSubsequence(items, keep);
    FilterMembers(items, keep);
    if forall x :: x in items ==> keep(x) then
      FilterKeepsAll(items, keep);
      Filter(items, keep)
    else
      Filter(items, keep)
  }

  /** `prev.map(file => file.id === fileId ? {...file, ...updates} : file)`. */
  function Updated(items: seq<Item>, id: Value, updates: Item): (r: seq<Item>)
    ensures |r| == |items|
    ensures forall i :: 0 <= i < |items| ==>
      r[i] == if IdOf(items[i]) == Some(id) then items[i] + updates else items[i]
  {
    seq(|items|, i requires 0 <= i < |items| => if IdOf(items[i]) == Some(id) then items[i] + updates else items[i])
  }

  /** A merged entry takes every updated property and keeps the rest. */
  lemma MergeKeeps(item: Item, updates: Item, k: string)
    ensures k in updates ==> (item + updates)[k] == updates[k]
    ensures k !in updates && k in item ==> (item + updates)[k] == item[k]
    ensures k in item + updates <==> k in item || k in updates
  {
  }

  /** The entry `addUploadedFile` appends; `id` is `Date.now()`, `date` the
      upload time, and `parsed` the rows read from the file, if any. */
  function NewEntry(file: FileInfo, id: nat, date: string, parsed: Option<seq<Row>>): (r: Item)
    ensures r.Keys == {"id", "fileName", "fileSize", "fileType", "uploadDate", "uploadStatus", "status", "file", "fileData"}
    ensures r["uploadStatus"] == V(JStr("success")) && r["status"] == V(JStr("uploaded"))
    ensures r["file"] == FileObj(file) && IdOf(r) == Some(V(JNum(id as real)))
    ensures parsed.None? ==> r["fileData"] == V(JNull)
    ensures parsed.Some? ==> r["fileData"] == Table(parsed.value)
  {
    map["id" := V(JNum(id as real)), "fileName" := V(JStr(file.name)), "fileSize" := V(JNum(file.size as real)),
        "fileType" := V(JStr(file.mime)), "uploadDate" := V(JStr(date)), "uploadStatus" := V(JStr("success")),
        "status" := V(JStr("uploaded")), "file" := FileObj(file),
        "fileData" := if parsed.Some? then Table(parsed.value) else V(JNull)]
  }

  /** `useUploadedFiles`: the in-memory state and what local storage holds. */
  class UploadedFiles {
    var stored: Stored
    var saved: Option<seq<Item>>

    /** The state starts from what local storage holds, else from `[]`. */
    constructor(fromStorage: Option<seq<Item>>)
      ensures stored == List(if fromStorage.Some? then fromStorage.value else [])
      ensures saved == fromStorage
    {
      stored := List(if fromStorage.Some? then fromStorage.value else []);
      saved := fromStorage;
    }

    /** `setValue(value)`: the state is set first; a list is then written
        serialised, while anything else makes `.map` throw, which is
        caught, so nothing is written. */
    method SetValue(value: Stored)
      modifies this
      ensures stored == value
      ensures value.List? ==> saved == Some(SerialiseAll(value.items))
      ensures value.Other? ==> saved == old(saved)
    {
      stored := value;
      if value.List? {
        saved := Some(SerialiseAll(value.items));
      }
    }

    /** `addUploadedFile`: one entry appended at the end.  Like every
        updater handed to `setValue`, it is applied to `seen`, the state of
        the render that created `setValue`, not to the latest state; a
        change made since that render is lost.  Spreading a state that is
        not a list throws inside `setValue`, so nothing changes then (a
        string state, which spreads into its characters, is not modelled). */
    method Add(seen: Stored, file: FileInfo, id: nat, date: string, parsed: Option<seq<Row>>)
      modifies this
      ensures seen.List? ==> (stored == List(seen.items + [NewEntry(file, id, date, parsed)])
                              && saved == Some(SerialiseAll(stored.items)))
      ensures seen.Other? ==> stored == old(stored) && saved == old(saved)
    {
      if seen.List? {
        SetValue(List(seen.items + [NewEntry(file, id, date, parsed)]));
      }
    }

    /** `removeUploadedFile`: every entry with that id dropped from the
        render's state `seen`. */
    method Remove(seen: Stored, id: Value)
      modifies this
      ensures seen.List? ==> (stored == List(Without(seen.items, id))
                              && saved == Some(SerialiseAll(stored.items)))
      ensures seen.Other? ==> stored == old(stored) && saved == old(saved)
    {
      if seen.List? {
        SetValue(List(Without(seen.items, id)));
      }
    }

    /** `updateUploadedFile`: the updates merged into the entries with that
        id of the render's state `seen`. */
    method Update(seen: Stored, id: Value, updates: Item)
      modifies this
      ensures seen.List? ==> (stored == List(Updated(seen.items, id, updates))
                              && saved == Some(SerialiseAll(stored.items)))
      ensures seen.Other? ==> stored == old(stored) && saved == old(saved)
    {
      if seen.List? {
        SetValue(List(Updated(seen.items, id, updates)));
      }
    }
  }

  /** A file removed while an upload started in the same render is still
      being parsed comes back: the add is applied to the state that render
      saw, which still holds the removed entry. */
  method RemoveDuringUpload(e: Item, x: Value, file: FileInfo, id: nat, date: string, parsed: Option<seq<Row>>)
    returns (u: UploadedFiles)
    requires IdOf(e) == Some(x)
    ensures u.stored == List([e, NewEntry(file, id, date, parsed)])
  {
    u := new UploadedFiles(Some([e]));
    var seen := u.stored;
    u.Remove(seen, x);
    assert u.stored == List([]);
    u.Add(seen, file, id, date, parsed);
  }

  /** An added entry is written without its `File`, but with its name,
      size and type. */
  lemma AddedEntrySaved(file: FileInfo, id: nat, date: string, parsed: Option<seq<Row>>)
    ensures var s := Serialise(NewEntry(file, id, date, parsed));
      "file" !in s && s["hasFile"] == V(JBool(true)) && s["fileName"] == V(JStr(file.name))
      && s["fileSize"] == V(JNum(file.size as real)) && s["fileType"] == V(JStr(file.mime))
      && s["status"] == V(JStr("uploaded"))
  {
    var e := NewEntry(file, id, date, parsed);
    assert HoldsFile(e);
  }
}
