/** The server's upload checks, run before anything else in the identify
    endpoint: the file must be present, of an accepted audio type, and at most
    50 MiB, reported in that order. */
module UploadValidation {
  import opened Wrappers
  import opened Strings
  import opened Dto

  /** The seven MIME types the server accepts, in the order the rejection
      message lists them. */
  const AllowedMimeTypes: seq<string> := [
    "audio/mpeg",
    "audio/wav",
    "audio/wave",
    "audio/x-wav",
    "audio/flac",
    "audio/ogg",
    "audio/mp3"
  ]

  /** 50 MiB; a file of exactly this many bytes is still accepted. */
  const MaxUploadSize: nat := 50 * 1024 * 1024

  const MissingFileMessage: string := "No audio file provided"
  const InvalidTypePrefix: string := "Invalid file type. Allowed types: "
  const TooLargeMessage: string := "File size exceeds 50MB limit"

  function InvalidTypeMessage(): string
  {
    InvalidTypePrefix + Join(AllowedMimeTypes, ", ")
  }

  /** The validation chain of the identify endpoint. A missing file is
      reported before the type, the type before the size, and an accepted
      file is handed on unchanged. */
  function CheckUpload(file: Option<UploadedFile>): (r: Result<UploadedFile, Exception>)
    ensures r.Success? <==>
              file.Some? && file.value.mimeType in AllowedMimeTypes && file.value.size <= MaxUploadSize
    ensures r.Success? ==> r.value == file.value
    ensures r.Failure? ==> r.error.BadRequestException?
    ensures file.None? ==> r == Failure(BadRequestException(MissingFileMessage))
    ensures file.Some? && file.value.mimeType !in AllowedMimeTypes ==>
              r == Failure(BadRequestException(InvalidTypeMessage()))
    ensures file.Some? && file.value.mimeType in AllowedMimeTypes && file.value.size > MaxUploadSize ==>
              r == Failure(BadRequestException(TooLargeMessage))
  {
    if file.None? then
      Failure(BadRequestException(MissingFileMessage))
    else if file.value.mimeType !in AllowedMimeTypes then
      Failure(BadRequestException(InvalidTypeMessage()))
    else if file.value.size > MaxUploadSize then
      Failure(BadRequestException(TooLargeMessage))
    else
      Success(file.value)
  }

  /** The type-rejection message names every accepted type verbatim. */
  lemma InvalidTypeMessageListsAllowedTypes(k: int)
    requires 0 <= k < |AllowedMimeTypes|
    ensures IsInfix(AllowedMimeTypes[k], InvalidTypeMessage())
  {
    var joined := Join(AllowedMimeTypes, ", ");
    JoinContainsEachPart(AllowedMimeTypes, ", ", k);
    var i :| 0 <= i <= |joined| && AllowedMimeTypes[k] <= joined[i..];
    var message := InvalidTypeMessage();
    assert message[|InvalidTypePrefix| + i..] == joined[i..];
  }
}
