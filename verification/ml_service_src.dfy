/** The ML service of the variant that stores audio first. With no endpoint
    configured it answers with the mock and sends nothing; otherwise it sends
    one credentialed request and either maps a good reply or throws. It never
    falls back to the mock once the network has been tried. */
module MlServiceSrc {
  import opened Wrappers
  import opened Dto
  import opened MlCommon

  /** The two configuration values the service reads at construction. */
  datatype MlConfig = MlConfig(endpoint: Option<string>, apiKey: Option<string>)

  /** `!this.mlEndpoint` is false: an empty endpoint counts as unset. */
  predicate EndpointConfigured(config: MlConfig)
  {
    config.endpoint.Some? && config.endpoint.value != ""
  }

  /** `${value}` for a string that may be undefined. */
  function Interpolated(value: Option<string>): string
  {
    match value
    case Some(v) => v
    case None => "undefined"
  }

  /** `Bearer ${this.mlApiKey}`: an unset key is rendered as "undefined". */
  function BearerHeader(apiKey: Option<string>): (h: string)
    ensures "Bearer " <= h
    ensures apiKey.Some? ==> h[|"Bearer "|..] == apiKey.value
    ensures apiKey.None? ==> h == "Bearer undefined"
  {
    "Bearer " + Interpolated(apiKey)
  }

  const RecognitionFailedMessage: string := "Bird recognition failed"

  /** `predictBirdSpecies(audioBuffer, audioUrl)` */
  function PredictBirdSpecies(config: MlConfig, audio: Bytes, audioUrl: string, e: Entropy, reply: Reply): (r: Inference)
    ensures !EndpointConfigured(config) ==>
              r.request.None? && r.result == Success(MockPrediction(e, Some(audioUrl)))
    ensures EndpointConfigured(config) ==>
              r.request == Some(AudioUpload(config.endpoint.value, Some(BearerHeader(config.apiKey)), audio))
    ensures EndpointConfigured(config) ==> (r.result.Success? <==> IsUsable(reply))
    ensures EndpointConfigured(config) && r.result.Success? ==> Reported(r.result.value) == reply.body.value
    ensures r.result.Failure? ==> r.result.error == Error(RecognitionFailedMessage)
    ensures r.result.Success? ==>
              r.result.value.audioUrl == Some(audioUrl) && r.result.value.details.None? &&
              IdPrefix <= r.result.value.id
  {
    if !EndpointConfigured(config) then
      Inference(Success(MockPrediction(e, Some(audioUrl))), None)
    else
      var request := AudioUpload(config.endpoint.value, Some(BearerHeader(config.apiKey)), audio);
      var result :=
        match reply
        case TransportFailure => Failure(Error(RecognitionFailedMessage))
        case Reply(status, body) =>
          if !IsOk(status) then Failure(Error(RecognitionFailedMessage))
          else if body.None? then Failure(Error(RecognitionFailedMessage))
          else Success(FromModelResponse(body.value, e, Some(audioUrl)));
      Inference(result, Some(request))
  }

  /** Without an endpoint the upstream reply cannot influence anything. */
  lemma UnconfiguredIgnoresNetwork(config: MlConfig, audio: Bytes, audioUrl: string, e: Entropy, r1: Reply, r2: Reply)
    requires !EndpointConfigured(config)
    ensures PredictBirdSpecies(config, audio, audioUrl, e, r1) == PredictBirdSpecies(config, audio, audioUrl, e, r2)
  {
  }

  /** Once an endpoint is configured the mock is never returned for a bad
      reply: every non-2xx status, transport failure or unparsable body
      throws the same error. */
  lemma ConfiguredNeverFallsBack(config: MlConfig, audio: Bytes, audioUrl: string, e: Entropy, reply: Reply)
    requires EndpointConfigured(config) && !IsUsable(reply)
    ensures PredictBirdSpecies(config, audio, audioUrl, e, reply).result == Failure(Error(RecognitionFailedMessage))
  {
  }
}
