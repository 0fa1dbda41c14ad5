/** The upload screen: two file slots, PDF-only validation, and a submit
    that needs both files. */
module FileUpload {
  import opened Types

  const PDF_MIME: string := "application/pdf"
  const ERROR_NOT_PDF: string := "Please upload PDF files only."
  const ERROR_MISSING: string := "Both files are required."

  /** The submit button is enabled only when both slots are filled. */
  predicate SubmitEnabled(normalFile: Option<UploadedFile>, correctionFile: Option<UploadedFile>)
    : (enabled: bool)
    ensures normalFile.None? ==> !enabled
    ensures correctionFile.None? ==> !enabled
    ensures normalFile.Some? && correctionFile.Some? ==> enabled
  {
    normalFile.Some? && correctionFile.Some?
  }

  class UploadForm {
    var normalFile: Option<UploadedFile>
    var correctionFile: Option<UploadedFile>
    var error: string

    constructor ()
      ensures normalFile == None && correctionFile == None && error == ""
    {
      normalFile := None;
      correctionFile := None;
      error := "";
    }

    /** A file chosen for slot `slot` (`files` is the picker's selection, possibly empty). */
    method HandleFileChange(slot: FileRole, files: seq<UploadedFile>)
      modifies this
      ensures files == [] ==> unchanged(this)
      ensures files != [] && files[0].mimeType != PDF_MIME ==>
                && error == ERROR_NOT_PDF
                && normalFile == old(normalFile) && correctionFile == old(correctionFile)
      ensures files != [] && files[0].mimeType == PDF_MIME ==>
                && error == ""
                && normalFile == (if slot == NormalRole then Some(files[0]) else old(normalFile))
                && correctionFile == (if slot == CorrectionRole then Some(files[0]) else old(correctionFile))
    {
      if files != [] {
        var file := files[0];
        if file.mimeType != PDF_MIME {
          error := ERROR_NOT_PDF;
          return;
        }
        error := "";
        if slot == NormalRole {
          normalFile := Some(file);
        } else {
          correctionFile := Some(file);
        }
      }
    }

    /** Submit: hand (normal, correction) to the upload callback, or report the missing file. */
    method HandleSubmit() returns (upload: Option<(UploadedFile, UploadedFile)>)
      modifies this
      ensures SubmitEnabled(old(normalFile), old(correctionFile)) ==>
                && upload == Some((old(normalFile).value, old(correctionFile).value))
                && unchanged(this)
      ensures !SubmitEnabled(old(normalFile), old(correctionFile)) ==>
                && upload == None && error == ERROR_MISSING
                && normalFile == old(normalFile) && correctionFile == old(correctionFile)
    {
      if normalFile.Some? && correctionFile.Some? {
        upload := Some((normalFile.value, correctionFile.value));
      } else {
        error := ERROR_MISSING;
        upload := None;
      }
    }
  }
}
