/** `processAudio` of the variant that stores audio first: upload, then predict
    with the URL the upload returned; any error is rethrown unchanged and the
    metadata is only logged. */
module RecognitionSrc {
  import opened Wrappers
  import opened Dto
  import opened MlCommon
  import opened MlServiceSrc
  import opened AzureStorage

  /** Everything `processAudio` depends on besides its arguments: the storage
      adapter's state and inputs, and the ML service's configuration and
      inputs. */
  datatype Collaborators = Collaborators(
    container: Option<ContainerClient>,
    uuid: string,
    storeReply: StoreReply,
    ml: MlConfig,
    entropy: Entropy,
    mlReply: Reply)

  /** One run: what the caller received, the upload call, and the prediction
      call if it was made. */
  datatype Run = Run(result: Result<Recognition, Exception>, upload: Upload, inference: Option<Inference>)

  function ProcessAudio(file: UploadedFile, metadata: Option<Metadata>, env: Collaborators): (r: Run)
    ensures r.upload == UploadFile(env.container, file, env.uuid, env.storeReply)
    ensures r.inference.Some? <==> r.upload.result.Success?
    ensures r.inference.Some? ==>
              r.inference.value ==
              PredictBirdSpecies(env.ml, file.buffer, r.upload.result.value, env.entropy, env.mlReply)
    ensures r.upload.result.Failure? ==> r.result == Failure(r.upload.result.error)
    ensures r.inference.Some? ==> r.result == r.inference.value.result
  {
    var upload := UploadFile(env.container, file, env.uuid, env.storeReply);
    match upload.result
    case Failure(e) => Run(Failure(e), upload, None)
    case Success(audioUrl) =>
      var inference := PredictBirdSpecies(env.ml, file.buffer, audioUrl, env.entropy, env.mlReply);
      Run(inference.result, upload, Some(inference))
  }

  /** The metadata, present or not, never changes a run. */
  lemma MetadataNeverMatters(file: UploadedFile, m1: Option<Metadata>, m2: Option<Metadata>, env: Collaborators)
    ensures ProcessAudio(file, m1, env) == ProcessAudio(file, m2, env)
  {
  }

  /** A successful run's record points at the blob the upload reported, and
      carries no reference facts. */
  lemma SuccessCarriesUploadedUrl(file: UploadedFile, metadata: Option<Metadata>, env: Collaborators)
    ensures var r := ProcessAudio(file, metadata, env);
            r.result.Success? ==>
              env.storeReply.Stored? && r.result.value.audioUrl == Some(env.storeReply.url) &&
              r.result.value.details.None?
  {
  }

  /** Without a container client nothing is written, no prediction is
      requested, and the caller sees the storage error. */
  lemma UnconfiguredStorageStopsEarly(file: UploadedFile, metadata: Option<Metadata>, env: Collaborators)
    requires env.container.None?
    ensures var r := ProcessAudio(file, metadata, env);
            r.result == Failure(Error(NotConfiguredMessage)) && r.upload.write.None? && r.inference.None?
  {
  }

  /** A configured ML endpoint that answers badly after a good upload makes
      the whole run fail; the mock is not substituted. */
  lemma InferenceFailureIsSurfaced(file: UploadedFile, metadata: Option<Metadata>, env: Collaborators)
    requires env.container.Some? && env.storeReply.Stored?
    requires EndpointConfigured(env.ml) && !IsUsable(env.mlReply)
    ensures ProcessAudio(file, metadata, env).result == Failure(Error(RecognitionFailedMessage))
  {
  }
}
