/** The file picker of client/src/components/ResumeUpload.jsx: the chosen file and the error shown. */
module ResumeUpload {
  import opened Wrappers

  /** The parts of a browser File object the picker reads. */
  datatype SelectedFile = SelectedFile(name: string, mimeType: string, size: nat)

  const MaxBytes := 5 * 1024 * 1024
  const TypeError := "Only PDF and TXT files are supported"
  const SizeError := "File size must be less than 5MB"

  predicate AcceptedType(mimeType: string) {
    mimeType == "application/pdf" || mimeType == "text/plain"
  }

  /** The error a file is refused with; the type is checked before the size. */
  function FileError(f: SelectedFile): (r: Option<string>)
    ensures r == Some(TypeError) <==> !AcceptedType(f.mimeType)
    ensures r == Some(SizeError) <==> AcceptedType(f.mimeType) && f.size > MaxBytes
    ensures r.None? <==> AcceptedType(f.mimeType) && f.size <= MaxBytes
  {
    if !AcceptedType(f.mimeType) then Some(TypeError)
    else if f.size > MaxBytes then Some(SizeError)
    else None
  }

  /** A file of exactly 5 MiB of an accepted type is accepted. */
  lemma ExactlyFiveMiB(name: string, mimeType: string)
    requires AcceptedType(mimeType)
    ensures FileError(SelectedFile(name, mimeType, 5242880)).None?
  {
  }

  class Picker {
    var file: Option<SelectedFile>
    var error: string

    constructor ()
      ensures file == None && error == ""
    {
      file := None;
      error := "";
    }

    /** handleFileChange: ignore no selection, reject with a message, or keep the file and clear the error. */
    method HandleFileChange(selected: Option<SelectedFile>)
      modifies this
      ensures selected.None? ==> file == old(file) && error == old(error)
      ensures selected.Some? && FileError(selected.value).Some? ==>
        file == old(file) && error == FileError(selected.value).value
      ensures selected.Some? && FileError(selected.value).None? ==> file == selected && error == ""
    {
      if selected.None? {
        return;
      }
      var selectedFile := selected.value;
      if !(selectedFile.mimeType == "application/pdf" || selectedFile.mimeType == "text/plain") {
        error := TypeError;
        return;
      }
      if selectedFile.size > 5 * 1024 * 1024 {
        error := SizeError;
        return;
      }
      file := selected;
      error := "";
    }
  }
}
