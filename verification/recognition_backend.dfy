/** `processAudio` of the variant without storage: one prediction request with
    the file's bytes, its result returned unchanged, the metadata only
    logged. */
module RecognitionBackend {
  import opened Wrappers
  import opened Dto
  import opened MlCommon
  import opened MlServiceBackend

  /** The ML service's inputs for one run. */
  datatype Collaborators = Collaborators(entropy: Entropy, mlReply: Reply)

  /** One run: what the caller received and the single prediction call. */
  datatype Run = Run(result: Result<Recognition, Exception>, inference: Inference)

  function ProcessAudio(file: UploadedFile, metadata: Option<Metadata>, env: Collaborators): (r: Run)
    ensures r.inference == PredictBirdSpecies(file.buffer, env.entropy, env.mlReply)
    ensures r.inference.request.Some? && r.inference.request.value.audio == file.buffer
    ensures r.result == r.inference.result
  {
    var inference := PredictBirdSpecies(file.buffer, env.entropy, env.mlReply);
    Run(inference.result, inference)
  }

  /** Composed with a service that masks every upstream failure, a run always
      yields a record, and never one with an audio URL. */
  lemma AlwaysRecognises(file: UploadedFile, metadata: Option<Metadata>, env: Collaborators)
    ensures var r := ProcessAudio(file, metadata, env);
            r.result.Success? && r.result.value.audioUrl.None?
  {
  }

  /** The metadata, present or not, never changes a run. */
  lemma MetadataNeverMatters(file: UploadedFile, m1: Option<Metadata>, m2: Option<Metadata>, env: Collaborators)
    ensures ProcessAudio(file, m1, env) == ProcessAudio(file, m2, env)
  {
  }
}
