/** The home page's upload panel: choosing a file (at most 10 MiB, then a
    CSV, Excel or JSON MIME type or file name), and uploading it by trying
    three endpoints in turn until one answers.  Whether or not one does, the
    file joins the uploaded-file list and the page moves to the
    visualisation tab. */
module UserHomePage {
  import opened Common
  import opened LocalStore
  import opened Cells
  import FileRoutes

  const MaxBytes: nat := 10 * 1024 * 1024
  const TooLarge := "File size must be less than 10MB"
  const WrongType := "Please select a valid file type (CSV, Excel, or JSON)"
  const NoFile := "Please select a file first"

  /** The three upload endpoints, in the order they are tried. */
  const Endpoints: seq<string> := ["/api/upload", "/api/files/upload", "/upload"]

  predicate AllowedMime(mime: string) {
    mime in {"text/csv", "application/vnd.ms-excel",
             "application/vnd.openxmlformats-officedocument.spreadsheetml.sheet", "application/json"}
  }

  /** `/\.(csv|xlsx|xls|json)$/i`. */
  predicate AllowedName(name: string) {
    var n := Lower(name);
    EndsWith(n, ".csv") || EndsWith(n, ".xlsx") || EndsWith(n, ".xls") || EndsWith(n, ".json")
  }

  /** `handleFileSelect`'s checks: size first, then type or name. */
  function Validate(f: FileInfo): (r: Option<string>)
    ensures f.size > MaxBytes ==> r == Some(TooLarge)
    ensures f.size <= MaxBytes && !AllowedMime(f.mime) && !AllowedName(f.name) ==> r == Some(WrongType)
    ensures r.None? <==> f.size <= MaxBytes && (AllowedMime(f.mime) || AllowedName(f.name))
  {
    if f.size > MaxBytes then Some(TooLarge)
    else if !AllowedMime(f.mime) && !AllowedName(f.name) then Some(WrongType)
    else None
  }

  /** An over-sized file is refused for its size even when its type is
      wrong as well. */
  lemma SizeCheckedFirst(f: FileInfo)
    requires f.size > MaxBytes
    ensures Validate(f) == Some(TooLarge)
  {
  }

  /** A CSV file the panel takes is still refused by the server's upload
      filter, which only lets Excel files through. */
  lemma CsvTakenButRefused(f: FileInfo)
    requires f.mime == "text/csv" && f.size <= MaxBytes && EndsWith(f.name, ".csv")
    ensures Validate(f).None? && !FileRoutes.Accepts(f.mime, f.name)
  {
    var n := |f.name|;
    assert f.name[n - 4..] == ".csv";
    assert f.name[n - 1] == f.name[n - 4..][3] == 'v';
    assert !EndsWith(f.name, ".xls") by {
      assert ".xls"[3] == 's';
    }
    assert !EndsWith(f.name, ".xlsx") by {
      assert ".xlsx"[4] == 'x';
    }
  }

  /** The index of the endpoint that answers first, when one does. */
  function FirstSuccess(answers: seq<bool>): (r: Option<nat>)
    ensures r.None? <==> forall i :: 0 <= i < |answers| ==> !answers[i]
    ensures r.Some? ==> (r.value < |answers| && answers[r.value]
                         && forall j :: 0 <= j < r.value ==> !answers[j])
  {
    if answers == [] then None
    else if answers[0] then Some(0)
    else
      var rest := FirstSuccess(answers[1..]);
      if rest.Some? then Some(rest.value + 1) else None
  }

  class UploadPanel {
    var selectedFile: Option<FileInfo>
    var uploadError: Option<string>
    var activeTab: string
    var fileUploaded: bool

    constructor()
      ensures selectedFile.None? && uploadError.None? && activeTab == "upload" && !fileUploaded
    {
      selectedFile := None;
      uploadError := None;
      activeTab := "upload";
      fileUploaded := false;
    }

    /** `handleFileSelect`: a refused file sets the error and keeps the
        earlier choice; a taken one becomes the choice and clears it. */
    method HandleFileSelect(file: Option<FileInfo>)
      modifies this
      ensures file.None? ==> selectedFile == old(selectedFile) && uploadError == old(uploadError)
      ensures file.Some? && Validate(file.value).Some? ==>
        selectedFile == old(selectedFile) && uploadError == Validate(file.value)
      ensures file.Some? && Validate(file.value).None? ==> selectedFile == file && uploadError.None?
      ensures activeTab == old(activeTab) && fileUploaded == old(fileUploaded)
    {
      if file.None? {
        return;
      }
      var f := file.value;
      if f.size > MaxBytes {
        uploadError := Some(TooLarge);
        return;
      }
      if !AllowedMime(f.mime) && !AllowedName(f.name) {
        uploadError := Some(WrongType);
        return;
      }
      selectedFile := file;
      uploadError := None;
    }

    /** `handleUpload`.  `answers[i]` says whether a post to endpoint `i`
        succeeds; the loop stops at the first that does.  Either way the
        file is added to `files` (`id` and `date` are the clock's, `parsed`
        the rows read from it), and the choice is cleared.  `tried` is the
        number of endpoints posted to.  `seen` is the list state of the
        render that created the handler, to which the add is applied. */
    method HandleUpload(files: UploadedFiles, seen: Stored, answers: seq<bool>, id: nat, date: string, parsed: Option<seq<Row>>)
      returns (tried: nat)
      requires |answers| == |Endpoints|
      modifies this, files
      ensures old(selectedFile).None? ==> (uploadError == Some(NoFile) && tried == 0
                                           && selectedFile == old(selectedFile) && activeTab == old(activeTab)
                                           && files.stored == old(files.stored) && files.saved == old(files.saved))
      ensures old(selectedFile).Some? ==> (var s := FirstSuccess(answers);
                                           tried == (if s.Some? then s.value + 1 else |Endpoints|)
                                           && selectedFile.None? && uploadError.None?
                                           && activeTab == "visualize" && fileUploaded)
      ensures old(selectedFile).Some? && seen.List? ==>
        files.stored == List(seen.items + [NewEntry(old(selectedFile).value, id, date, parsed)])
      ensures old(selectedFile).Some? && seen.Other? ==>
        files.stored == old(files.stored) && files.saved == old(files.saved)
    {
      if selectedFile.None? {
        uploadError := Some(NoFile);
        return 0;
      }
      uploadError := None;
      var answered := false;
      tried := 0;
      while tried < |Endpoints| && !answered
        invariant 0 <= tried <= |Endpoints|
        invariant forall j :: 0 <= j < tried - (if answered then 1 else 0) ==> !answers[j]
        invariant answered ==> tried > 0 && answers[tried - 1]
        decreases |Endpoints| - tried, if answered then 0 else 1
      {
        answered := answers[tried];
        tried := tried + 1;
      }
      FirstSuccessAt(answers, tried, answered);
      files.Add(seen, selectedFile.value, id, date, parsed);
      fileUploaded := true;
      activeTab := "visualize";
      selectedFile := None;
    }
  }

  /** Where the endpoint loop stops is the first answering endpoint. */
  lemma FirstSuccessAt(answers: seq<bool>, tried: nat, answered: bool)
    requires tried <= |answers|
    requires forall j :: 0 <= j < tried - (if answered then 1 else 0) ==> !answers[j]
    requires answered ==> tried > 0 && answers[tried - 1]
    requires !answered ==> tried == |answers|
    ensures var s := FirstSuccess(answers); tried == (if s.Some? then s.value + 1 else |answers|)
  {
  }
}
