/** The browser's pre-check of a selected file, run before anything is sent:
    a narrower format list and a 10 MiB ceiling, reported in the same order as
    on the server. */
module ClientValidation {
  import opened Wrappers

  /** The browser's `File`, reduced to the fields the page reads. */
  datatype BrowserFile = BrowserFile(name: string, mimeType: string, size: nat)

  const AcceptedFormats: seq<string> := ["audio/mpeg", "audio/wav", "audio/x-m4a", "audio/ogg"]

  /** 10 MiB; a file of exactly this many bytes is still accepted. */
  const MaxFileSize: nat := 10 * 1024 * 1024

  const NoFileMessage: string := "No se seleccionó ningún archivo"
  const BadFormatMessage: string := "Formato no válido. Solo se aceptan archivos MP3, WAV, M4A y OGG"
  const TooLargeMessage: string := "El archivo excede el tamaño máximo de 10 MB"

  datatype FileValidation = FileValidation(valid: bool, error: Option<string>)

  /** `validateFile(file)`: valid exactly for a present file of an accepted
      format within the ceiling; an invalid result always explains itself,
      a missing file first, then the format, then the size. */
  function ValidateFile(file: Option<BrowserFile>): (r: FileValidation)
    ensures r.valid <==>
              file.Some? && file.value.mimeType in AcceptedFormats && file.value.size <= MaxFileSize
    ensures r.valid <==> r.error.None?
    ensures r.error.Some? ==> r.error.value != ""
    ensures file.None? ==> r.error == Some(NoFileMessage)
    ensures file.Some? && file.value.mimeType !in AcceptedFormats ==> r.error == Some(BadFormatMessage)
    ensures file.Some? && file.value.mimeType in AcceptedFormats && file.value.size > MaxFileSize ==>
              r.error == Some(TooLargeMessage)
  {
    if file.None? then FileValidation(false, Some(NoFileMessage))
    else if file.value.mimeType !in AcceptedFormats then FileValidation(false, Some(BadFormatMessage))
    else if file.value.size > MaxFileSize then FileValidation(false, Some(TooLargeMessage))
    else FileValidation(true, None)
  }
}
