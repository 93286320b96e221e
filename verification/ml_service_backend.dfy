/** The ML service of the variant without storage. Its endpoint is a constant,
    so it always sends one request, without credentials, and turns every
    failure into the mock prediction: it never throws. */
module MlServiceBackend {
  import opened Wrappers
  import opened Dto
  import opened MlCommon

  const MlEndpoint: string := "http://bird-ml-api-sg.brazilsouth.azurecontainer.io:8000/predict"

  /** `predictBirdSpecies(audioBuffer)` */
  function PredictBirdSpecies(audio: Bytes, e: Entropy, reply: Reply): (r: Inference)
    ensures r.result.Success?
    ensures r.request == Some(AudioUpload(MlEndpoint, None, audio))
    ensures IsUsable(reply) ==> Reported(r.result.value) == reply.body.value
    ensures !IsUsable(reply) ==> r.result.value == MockPrediction(e, None)
    ensures r.result.value.audioUrl.None? && r.result.value.details.None?
    ensures IdPrefix <= r.result.value.id
  {
    var request := AudioUpload(MlEndpoint, None, audio);
    var recognition :=
      match reply
      case TransportFailure => MockPrediction(e, None)
      case Reply(status, body) =>
        if !IsOk(status) then MockPrediction(e, None)
        else if body.None? then MockPrediction(e, None)
        else FromModelResponse(body.value, e, None);
    Inference(Success(recognition), Some(request))
  }

  /** Whatever goes wrong upstream, the caller receives a complete synthetic
      record: one of the four fixed species, two alternatives that exclude
      it, and confidences in [0, 1]. */
  lemma FailureYieldsCompleteMock(audio: Bytes, e: Entropy, reply: Reply)
    requires !IsUsable(reply)
    ensures var r := PredictBirdSpecies(audio, e, reply).result.value;
            StructurallyComplete(r) && r.species == MockBirds[PickIndex(e.pick)].species
  {
  }
}
