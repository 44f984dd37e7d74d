/** The upload route's file filter and its error handler: a file passes
    when its MIME type is an Excel type or its name ends in `.xls` or
    `.xlsx`; a refused file and an upload error both answer 400. */
module FileRoutes {
  import opened Common

  const XlsMime := "application/vnd.ms-excel"
  const XlsxMime := "application/vnd.openxmlformats-officedocument.spreadsheetml.sheet"
  const OnlyExcel := "Only Excel files (.xls, .xlsx) are allowed"
  const UploadErrorMessage := "File upload error"

  /** The `fileFilter` test on `mimetype` and `originalname`; the suffix
      test is case-sensitive. */
  predicate Accepts(mime: string, name: string) {
    mime == XlsMime || mime == XlsxMime || EndsWith(name, ".xls") || EndsWith(name, ".xlsx")
  }

  /** What reaches the route's error handler. */
  datatype UploadError = NoError | MulterError | Refused(message: string)

  /** `fileFilter`: `cb(null, true)`, or the refusal error. */
  function FileFilter(mime: string, name: string): (e: UploadError)
    ensures e == NoError <==> Accepts(mime, name)
    ensures e != NoError ==> e == Refused(OnlyExcel)
  {
    if Accepts(mime, name) then NoError else Refused(OnlyExcel)
  }

  /** The error handler: `None` passes on to the upload itself. */
  function ErrorReply(e: UploadError): (r: Option<(nat, string)>)
    ensures e == NoError <==> r.None?
    ensures e == MulterError ==> r == Some((400, UploadErrorMessage))
    ensures e.Refused? ==> r == Some((400, e.message))
  {
    match e
    case NoError => None
    case MulterError => Some((400, UploadErrorMessage))
    case Refused(m) => Some((400, m))
  }

  /** A name ending in `.xls` or `.xlsx` passes whatever its MIME type. */
  lemma ExtensionSuffices(mime: string, base: string)
    ensures Accepts(mime, base + ".xls") && Accepts(mime, base + ".xlsx")
  {
    assert (base + ".xls")[|base + ".xls"| - 4..] == ".xls";
    assert (base + ".xlsx")[|base + ".xlsx"| - 5..] == ".xlsx";
  }

  /** Every refused file is answered 400 with the Excel-only message. */
  lemma RefusedIs400(mime: string, name: string)
    requires !Accepts(mime, name)
    ensures ErrorReply(FileFilter(mime, name)) == Some((400, OnlyExcel))
  {
  }

  /** The suffix test does not fold case: an upper-case extension with some
      other MIME type is refused. */
  lemma UpperCaseExtensionRefused(mime: string, name: string)
    requires mime != XlsMime && mime != XlsxMime
    requires name == "DATA.XLSX"
    ensures !Accepts(mime, name)
  {
    assert name[|name| - 4..] != ".xls" by {
      assert name[|name| - 4..][0] == 'X';
    }
    assert name[|name| - 5..] != ".xlsx" by {
      assert name[|name| - 5..][1] == 'X';
    }
  }
}
