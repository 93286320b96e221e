/** What the two ML service variants share: the upstream reply, the outbound
    multipart request, the mapping of a live reply into a recognition record,
    the fixed four-record mock catalog with its fallback prediction, and the
    identifier format. Clock, randomness and the network are parameters. */
module MlCommon {
  import opened Wrappers
  import opened Strings
  import opened Dto

  /** The parsed body of the model's reply. */
  datatype ModelResponse = ModelResponse(
    species: string,
    commonName: string,
    scientificName: string,
    confidence: real,
    alternatives: Option<seq<Alternative>>)

  /** What `fetch` yielded: a status with a body that did or did not parse as
      JSON, or a transport failure. */
  datatype Reply =
    | Reply(status: int, body: Option<ModelResponse>)
    | TransportFailure

  /** `response.ok` */
  predicate IsOk(status: int)
  {
    200 <= status <= 299
  }

  /** A reply that the live path can turn into a record. */
  predicate IsUsable(reply: Reply)
  {
    reply.Reply? && IsOk(reply.status) && reply.body.Some?
  }

  /** The single POST both variants send: the audio as a WAV blob named
      "audio.wav" under the form field "audio". */
  datatype OutboundRequest = OutboundRequest(
    url: string,
    authorization: Option<string>,
    fieldName: string,
    fileName: string,
    contentType: string,
    audio: Bytes)

  function AudioUpload(url: string, authorization: Option<string>, audio: Bytes): OutboundRequest
  {
    OutboundRequest(url, authorization, "audio", "audio.wav", "audio/wav", audio)
  }

  /** One call of `predictBirdSpecies`: what it returned or threw, and the
      request it sent, if any. */
  datatype Inference = Inference(result: Result<Recognition, Exception>, request: Option<OutboundRequest>)

  /** A value of `Math.random()`. */
  type RandomDraw = r: real | 0.0 <= r < 1.0 witness 0.0

  /** The ambient inputs of one prediction: `Date.now()`, the base-36 random
      suffix of the identifier, the draw that picks the mock record, and
      `new Date().toISOString()`. */
  datatype Entropy = Entropy(millis: nat, idSuffix: string, pick: RandomDraw, isoTime: string)

  const IdPrefix: string := "bird_"

  /** `bird_${Date.now()}_${suffix}` */
  function GenerateId(millis: nat, suffix: string): (id: string)
    ensures IdPrefix <= id
    ensures |id| >= |IdPrefix| + 2 + |suffix|
    ensures id[|IdPrefix|..|id| - |suffix| - 1] == Decimal(millis)
    ensures id[|id| - |suffix|..] == suffix && id[|id| - |suffix| - 1] == '_'
    ensures forall i :: |IdPrefix| <= i < |id| - |suffix| - 1 ==> '0' <= id[i] <= '9'
  {
    var digits := Decimal(millis);
    var id := IdPrefix + digits + "_" + suffix;
    assert id[|IdPrefix|..|IdPrefix| + |digits|] == digits;
    id
  }

  /** The fields of a record that the model's reply supplied. */
  function Reported(r: Recognition): ModelResponse
  {
    ModelResponse(r.species, r.commonName, r.scientificName, r.confidence, r.alternativePredictions)
  }

  /** The live path: the reply's fields are copied verbatim, with a fresh
      identifier and timestamp and the given audio URL; nothing is enriched. */
  function FromModelResponse(response: ModelResponse, e: Entropy, audioUrl: Option<string>): (r: Recognition)
    ensures Reported(r) == response
    ensures r.audioUrl == audioUrl && r.details.None?
    ensures IdPrefix <= r.id && r.timestamp == e.isoTime
  {
    Recognition(
      GenerateId(e.millis, e.idSuffix),
      response.species,
      response.commonName,
      response.scientificName,
      response.confidence,
      e.isoTime,
      response.alternatives,
      audioUrl,
      None)
  }

  datatype MockBird = MockBird(species: string, commonName: string, scientificName: string, confidence: real)

  const MockBirds: seq<MockBird> := [
    MockBird("Chucao", "Chucao Tapaculo", "Scelorchilus rubecula", 0.92),
    MockBird("Zorzal", "Austral Thrush", "Turdus falcklandii", 0.87),
    MockBird("Diuca", "Common Diuca-Finch", "Diuca diuca", 0.85),
    MockBird("Cachudito", "White-crested Elaenia", "Elaenia albiceps", 0.79)
  ]

  predicate DistinctSpecies(birds: seq<MockBird>)
  {
    forall i, j :: 0 <= i < j < |birds| ==> birds[i].species != birds[j].species
  }

  /** `Math.floor(Math.random() * mockBirds.length)`: each record owns an
      equal quarter of the draws. */
  function PickIndex(pick: RandomDraw): (i: nat)
    ensures i < |MockBirds|
    ensures (i as real) / 4.0 <= pick < ((i + 1) as real) / 4.0
  {
    var k := (pick * (|MockBirds| as real)).Floor;
    assert 0 <= k;
    k
  }

  /** `birds.filter(b => b.species !== species)` */
  function OtherBirds(birds: seq<MockBird>, species: string): (rest: seq<MockBird>)
    ensures |rest| <= |birds|
    ensures forall b :: b in rest <==> b in birds && b.species != species
  {
    if |birds| == 0 then []
    else if birds[0].species != species then [birds[0]] + OtherBirds(birds[1..], species)
    else OtherBirds(birds[1..], species)
  }

  /** Filtering out one record's species, when the species are distinct,
      removes exactly that record and keeps the order of the rest. */
  lemma {:induction false} OtherBirdsDropsOnlyOne(birds: seq<MockBird>, p: nat)
    requires p < |birds| && DistinctSpecies(birds)
    ensures OtherBirds(birds, birds[p].species) == birds[..p] + birds[p + 1..]
  {
    var key := birds[p].species;
    if p == 0 {
      KeepsAllWithoutKey(birds[1..], key);
    } else {
      OtherBirdsDropsOnlyOne(birds[1..], p - 1);
      assert birds[1..][p - 1] == birds[p];
      assert birds[0].species != key;
      assert [birds[0]] + birds[1..][..p - 1] == birds[..p];
      assert birds[1..][p..] == birds[p + 1..];
    }
  }

  lemma {:induction false} KeepsAllWithoutKey(birds: seq<MockBird>, key: string)
    requires forall i :: 0 <= i < |birds| ==> birds[i].species != key
    ensures OtherBirds(birds, key) == birds
  {
    if |birds| > 0 {
      KeepsAllWithoutKey(birds[1..], key);
      assert birds == [birds[0]] + birds[1..];
    }
  }

  /** `{species: b.commonName, confidence: b.confidence}` */
  function AsAlternative(b: MockBird): Alternative
  {
    Alternative(b.commonName, b.confidence)
  }

  /** `.filter(...).slice(0, 2).map(...)` over the mock catalog: at most two
      alternatives, each reporting a catalog record of another species. */
  function MockAlternatives(primary: MockBird): (alts: seq<Alternative>)
    ensures |alts| <= 2
    ensures forall a :: a in alts ==>
              exists b :: b in MockBirds && b.species != primary.species && a == AsAlternative(b)
  {
    var others := OtherBirds(MockBirds, primary.species);
    var firstTwo := if |others| > 2 then others[..2] else others;
    seq(|firstTwo|, i requires 0 <= i < |firstTwo| => AsAlternative(firstTwo[i]))
  }

  /** The catalog with record `p` taken out, order kept. */
  function Remaining(p: nat): (rest: seq<MockBird>)
    requires p < |MockBirds|
    ensures |rest| == |MockBirds| - 1
  {
    MockBirds[..p] + MockBirds[p + 1..]
  }

  /** The mock alternatives are the first two records other than the primary,
      in catalog order, each reporting its common name and confidence. */
  lemma MockAlternativesInCatalogOrder(p: nat)
    requires p < |MockBirds|
    ensures var alts := MockAlternatives(MockBirds[p]);
            |alts| == 2 && alts[0] == AsAlternative(Remaining(p)[0]) && alts[1] == AsAlternative(Remaining(p)[1])
  {
    assert DistinctSpecies(MockBirds);
    OtherBirdsDropsOnlyOne(MockBirds, p);
  }

  /** Hence there are always two alternatives, neither names the primary
      record, and their confidences do not increase. */
  lemma MockAlternativesShape(p: nat)
    requires p < |MockBirds|
    ensures var alts := MockAlternatives(MockBirds[p]);
            && |alts| == 2
            && alts[0].confidence >= alts[1].confidence
            && (forall a :: a in alts ==> a.species != MockBirds[p].commonName && a.species != MockBirds[p].species)
            && (forall a :: a in alts ==> 0.0 <= a.confidence <= 1.0)
  {
    MockAlternativesInCatalogOrder(p);
    var i: nat := if p == 0 then 1 else 0;
    var j: nat := if p <= 1 then 2 else 1;
    assert Remaining(p)[0] == MockBirds[i];
    assert Remaining(p)[1] == MockBirds[j];
    TwoOthersShape(MockAlternatives(MockBirds[p]), p, i, j);
  }

  /** The shape facts for the two alternatives drawn from records `i` and `j`. */
  lemma TwoOthersShape(alts: seq<Alternative>, p: nat, i: nat, j: nat)
    requires p < |MockBirds| && i < j < |MockBirds| && i != p && j != p
    requires |alts| == 2 && alts[0] == AsAlternative(MockBirds[i]) && alts[1] == AsAlternative(MockBirds[j])
    ensures alts[0].confidence >= alts[1].confidence
    ensures forall a :: a in alts ==> a.species != MockBirds[p].commonName && a.species != MockBirds[p].species
    ensures forall a :: a in alts ==> 0.0 <= a.confidence <= 1.0
  {
    NamesDiffer(p, i);
    NamesDiffer(p, j);
    assert alts == [AsAlternative(MockBirds[i]), AsAlternative(MockBirds[j])];
  }

  /** A record's common name is neither the common name nor the species of
      another record. */
  lemma NamesDiffer(p: nat, q: nat)
    requires p < |MockBirds| && q < |MockBirds| && p != q
    ensures MockBirds[q].commonName != MockBirds[p].commonName
    ensures MockBirds[q].commonName != MockBirds[p].species
  {
    assert |MockBirds[q].commonName| != |MockBirds[p].commonName|;
    assert |MockBirds[q].commonName| != |MockBirds[p].species|;
  }

  /** A confidence on the server's scale, [0, 1]. */
  predicate ConfidenceInRange(c: real)
  {
    0.0 <= c <= 1.0
  }

  /** The checks a synthetic record is expected to pass: a confidence in
      [0, 1], at most two alternatives, each with a confidence in [0, 1] and
      none naming the primary species. */
  predicate StructurallyComplete(r: Recognition)
  {
    && ConfidenceInRange(r.confidence)
    && r.alternativePredictions.Some?
    && |r.alternativePredictions.value| <= 2
    && forall a :: a in r.alternativePredictions.value ==>
         ConfidenceInRange(a.confidence) && a.species != r.species && a.species != r.commonName
  }

  /** `getMockPrediction`: one of the four fixed records, picked by the draw,
      with the alternatives above and the given audio URL. */
  function MockPrediction(e: Entropy, audioUrl: Option<string>): (r: Recognition)
    ensures var b := MockBirds[PickIndex(e.pick)];
            r.species == b.species && r.commonName == b.commonName &&
            r.scientificName == b.scientificName && r.confidence == b.confidence
    ensures r.alternativePredictions == Some(MockAlternatives(MockBirds[PickIndex(e.pick)]))
    ensures StructurallyComplete(r)
    ensures r.audioUrl == audioUrl && r.details.None?
    ensures IdPrefix <= r.id && r.timestamp == e.isoTime
  {
    var p := PickIndex(e.pick);
    var primary := MockBirds[p];
    MockAlternativesShape(p);
    Recognition(
      GenerateId(e.millis, e.idSuffix),
      primary.species,
      primary.commonName,
      primary.scientificName,
      primary.confidence,
      e.isoTime,
      Some(MockAlternatives(primary)),
      audioUrl,
      None)
  }
}
