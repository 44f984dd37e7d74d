/** The stand-alone upload form: choosing a file (Excel MIME types only, at
    most 5 MiB), the guard against uploading nothing, the outcome of the
    upload, and clearing the form. */
module FileUploadForm {
  import opened Common
  import opened LocalStore
  import FileRoutes

  const MaxBytes: nat := 5 * 1024 * 1024
  const WrongType := "Please upload a valid Excel file (.xls or .xlsx)"
  const TooLarge := "File size must be less than 5MB"
  const NoFile := "Please select a file first"
  const UploadFailed := "Upload failed. Please try again."

  /** The form's check on a chosen file: `None` when it is taken, else the
      message; the type is checked before the size. */
  function Validate(f: FileInfo): (r: Option<string>)
    ensures r.None? <==> (f.mime == FileRoutes.XlsMime || f.mime == FileRoutes.XlsxMime) && f.size <= MaxBytes
    ensures f.mime != FileRoutes.XlsMime && f.mime != FileRoutes.XlsxMime ==> r == Some(WrongType)
    ensures (f.mime == FileRoutes.XlsMime || f.mime == FileRoutes.XlsxMime) && f.size > MaxBytes ==> r == Some(TooLarge)
  {
    if f.mime != FileRoutes.XlsMime && f.mime != FileRoutes.XlsxMime then Some(WrongType)
    else if f.size > MaxBytes then Some(TooLarge)
    else None
  }

  /** Every file the form takes also passes the server's filter. */
  lemma FormChoiceServerAccepted(f: FileInfo)
    requires Validate(f).None?
    ensures FileRoutes.Accepts(f.mime, f.name)
  {
  }

  /** How the upload request ended: success, or the server's message and
      the error's own message (`""` when absent). */
  datatype UploadResult = Uploaded | Failed(serverMessage: string, errorMessage: string)

  class UploadForm {
    var file: Option<FileInfo>
    var errorMessage: string
    var uploadStatus: Option<string>
    var uploadProgress: nat

    constructor()
      ensures file.None? && errorMessage == "" && uploadStatus.None? && uploadProgress == 0
    {
      file := None;
      errorMessage := "";
      uploadStatus := None;
      uploadProgress := 0;
    }

    /** `handleFileChange`: a refused file sets the message and keeps the
        file chosen before; a taken one replaces it and clears the message
        and status. */
    method HandleFileChange(selected: Option<FileInfo>)
      modifies this
      ensures selected.None? ==> file == old(file) && errorMessage == old(errorMessage) && uploadStatus == old(uploadStatus)
      ensures selected.Some? && Validate(selected.value).Some? ==>
        file == old(file) && errorMessage == Validate(selected.value).value && uploadStatus == old(uploadStatus)
      ensures selected.Some? && Validate(selected.value).None? ==>
        file == selected && errorMessage == "" && uploadStatus.None?
      ensures uploadProgress == old(uploadProgress)
    {
      if selected.None? {
        return;
      }
      var f := selected.value;
      if f.mime != FileRoutes.XlsMime && f.mime != FileRoutes.XlsxMime {
        errorMessage := WrongType;
        return;
      }
      if f.size > MaxBytes {
        errorMessage := TooLarge;
        return;
      }
      file := selected;
      errorMessage := "";
      uploadStatus := None;
    }

    /** `handleUpload`: nothing to send sets the message; otherwise the
        status follows the request, a failure showing the server's message,
        else the error's, else a fixed one. */
    method HandleUpload(result: UploadResult) returns (sent: bool)
      modifies this
      ensures sent <==> old(file).Some?
      ensures !sent ==> errorMessage == NoFile && uploadStatus == old(uploadStatus)
      ensures sent && result == Uploaded ==> uploadStatus == Some("success") && errorMessage == old(errorMessage)
      ensures sent && result.Failed? ==>
        uploadStatus == Some("error")
        && errorMessage == (if result.serverMessage != "" then result.serverMessage
                            else if result.errorMessage != "" then result.errorMessage
                            else UploadFailed)
      ensures file == old(file)
      ensures sent ==> uploadProgress == 0
    {
      if file.None? {
        errorMessage := NoFile;
        return false;
      }
      sent := true;
      uploadStatus := None;
      uploadProgress := 0;
      match result
      case Uploaded =>
        uploadStatus := Some("success");
      case Failed(server, own) =>
        uploadStatus := Some("error");
        errorMessage := if server != "" then server else if own != "" then own else UploadFailed;
    }

    /** `removeFile`: the form as it started. */
    method RemoveFile()
      modifies this
      ensures file.None? && uploadStatus.None? && errorMessage == "" && uploadProgress == 0
    {
      file := None;
      uploadStatus := None;
      errorMessage := "";
      uploadProgress := 0;
    }
  }
}
