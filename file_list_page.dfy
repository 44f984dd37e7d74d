/** The admin's file list: the files shown for a search term, deleting a
    file (which also closes its preview), and the preview of a chosen file's
    first rows. */
module FileListPage {
  import opened Common
  import opened Cells

  /** A stored file as the list holds it.  `ownerName` is
      `owner?.username`, `""` when there is none; `data` is the parsed rows,
      `[]` when there are none. */
  datatype FileEntry = FileEntry(id: string, fileName: string, ownerName: string, data: seq<Row>)

  const Deleting := "Deleting file..."
  const Deleted := "File deleted successfully"
  const DeleteFailed := "Failed to delete file"

  /** Rows the preview table shows at most. */
  const PreviewRowCap: nat := 10

  /** The search box: the term occurs in the file name, or in the owner's
      name when there is one (an empty name is falsy), ignoring case. */
  predicate Matches(f: FileEntry, term: string) {
    ContainsIgnoreCase(f.fileName, term) || (f.ownerName != "" && ContainsIgnoreCase(f.ownerName, term))
  }

  function Shown(term: string): FileEntry -> bool {
    (f: FileEntry) => Matches(f, term)
  }

  /** `filteredFiles`. */
  function FilteredFiles(files: seq<FileEntry>, term: string): (r: seq<FileEntry>)
    ensures |r| <= |files|
  {
    Filter(files, Shown(term))
  }

  /** A file is shown exactly when its name or its owner's name matches,
      and the shown files keep the list's order. */
  lemma FilteredFilesMembers(files: seq<FileEntry>, term: string)
    ensures forall f :: f in FilteredFiles(files, term) <==> f in files && Matches(f, term)
    ensures IsSubsequence(FilteredFiles(files, term), files)
  {
    FilterMembers(files, Shown(term));
    FilterIsSubsequence(files, Shown(term));
  }

  /** A file without an owner is found only by its name. */
  lemma OwnerlessByNameOnly(f: FileEntry, term: string)
    requires f.ownerName == ""
    ensures Matches(f, term) <==> ContainsIgnoreCase(f.fileName, term)
  {
  }

  /** With no search term every file is shown. */
  lemma EmptyTermShowsAll(files: seq<FileEntry>)
    ensures FilteredFiles(files, "") == files
  {
    forall f | f in files
      ensures Shown("")(f)
    {
      ContainsIgnoreCaseEmpty(f.fileName);
    }
    FilterKeepsAll(files, Shown(""));
  }

  /** `files.filter((file) => file._id !== fileId)`. */
  function WithoutFile(files: seq<FileEntry>, id: string): (r: seq<FileEntry>)
    ensures |r| <= |files|
  {
    Filter(files, (f: FileEntry) => f.id != id)
  }

  /** Deleting drops exactly the files with that id and keeps the others in
      order. */
  lemma WithoutFileMembers(files: seq<FileEntry>, id: string)
    ensures forall f :: f in WithoutFile(files, id) <==> f in files && f.id != id
    ensures IsSubsequence(WithoutFile(files, id), files)
  {
    FilterMembers(files, (f: FileEntry) => f.id != id);
    FilterIsSubsequence(files, (f: FileEntry) => f.id != id);
  }

  /** The rows of the preview table: shown only for a chosen file with
      rows, and then its first rows, at most `PreviewRowCap` of them. */
  function PreviewRows(selected: Option<FileEntry>): (r: Option<seq<Row>>)
    ensures r.Some? <==> selected.Some? && selected.value.data != []
    ensures r.Some? ==> |r.value| == Min(PreviewRowCap, |selected.value.data|)
                        && r.value == selected.value.data[..|r.value|]
  {
    if selected.None? || |selected.value.data| == 0 then None
    else
      var data := selected.value.data;
      Some(if |data| <= PreviewRowCap then data else data[..PreviewRowCap])
  }

  class FileList {
    var files: seq<FileEntry>
    var selected: Option<FileEntry>

    /** The list as fetched from the server, with nothing chosen. */
    constructor(fetched: seq<FileEntry>)
      ensures files == fetched && selected.None?
    {
      files := fetched;
      selected := None;
    }

    /** `handlePreview`. */
    method Preview(f: FileEntry)
      modifies this
      ensures selected == Some(f) && files == old(files)
    {
      selected := Some(f);
    }

    /** `handleClosePreview`. */
    method ClosePreview()
      modifies this
      ensures selected.None? && files == old(files)
    {
      selected := None;
    }

    /** `handleDelete`; `accepted` is whether the server accepted the
        request.  A deleted file that was being previewed is no longer
        chosen. */
    method Delete(id: string, accepted: bool) returns (toasts: seq<Toast>)
      modifies this
      ensures accepted ==>
        files == WithoutFile(old(files), id)
        && selected == (if old(selected).Some? && old(selected).value.id == id then None else old(selected))
        && toasts == [Info(Deleting), Done(Deleted)]
      ensures !accepted ==>
        files == old(files) && selected == old(selected) && toasts == [Info(Deleting), Warning(DeleteFailed)]
      ensures selected.Some? ==> selected.value.id != id || !accepted
    {
      toasts := [Info(Deleting)];
      if !accepted {
        return toasts + [Warning(DeleteFailed)];
      }
      files := WithoutFile(files, id);
      toasts := toasts + [Done(Deleted)];
      if selected.Some? && selected.value.id == id {
        selected := None;
      }
    }
  }
}
