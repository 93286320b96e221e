/** How the browser's pre-check and the server's check relate: they accept
    different format sets, so some files pass one and fail the other. */
module ValidationDivergence {
  import opened Wrappers
  import opened Dto
  import UploadValidation
  import ClientValidation

  /** The server's view of a browser file once uploaded. */
  function Uploaded(f: ClientValidation.BrowserFile, buffer: Bytes): UploadedFile
  {
    UploadedFile(f.name, f.mimeType, f.size, buffer)
  }

  /** A small M4A file passes the browser and is rejected by the server for
      its type. */
  lemma M4aPassesClientOnly(f: ClientValidation.BrowserFile, buffer: Bytes)
    requires f.mimeType == "audio/x-m4a" && f.size <= ClientValidation.MaxFileSize
    ensures ClientValidation.ValidateFile(Some(f)).valid
    ensures UploadValidation.CheckUpload(Some(Uploaded(f, buffer))) ==
            Failure(BadRequestException(UploadValidation.InvalidTypeMessage()))
  {
  }

  /** FLAC, WAVE, X-WAV and MP3 files pass the server (within its ceiling)
      and are rejected by the browser for their format. */
  lemma ServerOnlyFormats(f: ClientValidation.BrowserFile, buffer: Bytes)
    requires f.mimeType in ["audio/flac", "audio/wave", "audio/x-wav", "audio/mp3"]
    requires f.size <= UploadValidation.MaxUploadSize
    ensures UploadValidation.CheckUpload(Some(Uploaded(f, buffer))).Success?
    ensures ClientValidation.ValidateFile(Some(f)).error == Some(ClientValidation.BadFormatMessage)
  {
  }

  /** Apart from M4A, whatever the browser lets through the server accepts:
      the browser's ceiling is the stricter one. */
  lemma ClientAcceptanceImpliesServer(f: ClientValidation.BrowserFile, buffer: Bytes)
    requires ClientValidation.ValidateFile(Some(f)).valid && f.mimeType != "audio/x-m4a"
    ensures UploadValidation.CheckUpload(Some(Uploaded(f, buffer))).Success?
  {
  }
}
