/** The identify endpoint of the variant that stores audio first: validate the
    upload, then hand the file and the two optional body fields to
    `processAudio`. */
module RecognitionController {
  import opened Wrappers
  import opened Dto
  import opened UploadValidation
  import RecognitionSrc

  /** The optional string fields of the multipart body. */
  datatype RequestBody = RequestBody(location: Option<string>, recordedAt: Option<string>)

  /** One request: the response or the exception, and the recognition run if
      the request got past validation. */
  datatype Handled = Handled(response: Result<Recognition, Exception>, run: Option<RecognitionSrc.Run>)

  /** `identifyBird(file, body)` */
  function IdentifyBird(file: Option<UploadedFile>, body: RequestBody, env: RecognitionSrc.Collaborators): (h: Handled)
    ensures h.run.Some? <==>
              file.Some? && file.value.mimeType in AllowedMimeTypes && file.value.size <= MaxUploadSize
    ensures h.run.None? ==> h.response.Failure? && h.response.error.BadRequestException?
    ensures h.run.None? ==> h.response == Failure(CheckUpload(file).error)
    ensures h.run.Some? ==>
              h.run.value ==
              RecognitionSrc.ProcessAudio(file.value, Some(Metadata(body.location, body.recordedAt)), env)
    ensures h.run.Some? ==> h.response == h.run.value.result
  {
    match CheckUpload(file)
    case Failure(e) => Handled(Failure(e), None)
    case Success(accepted) =>
      var run := RecognitionSrc.ProcessAudio(accepted, Some(Metadata(body.location, body.recordedAt)), env);
      Handled(run.result, Some(run))
  }

  /** A request with a rejected upload never reaches storage or the model,
      whatever the collaborators would have done. */
  lemma RejectedRequestTouchesNothing(file: Option<UploadedFile>, body: RequestBody,
                                      env1: RecognitionSrc.Collaborators, env2: RecognitionSrc.Collaborators)
    requires CheckUpload(file).Failure?
    ensures IdentifyBird(file, body, env1) == IdentifyBird(file, body, env2)
  {
  }
}
