/** Shapes shared by the server side: the uploaded file as the multipart
    interceptor hands it over, the optional request metadata, the recognition
    response record, and the exceptions the services throw. */
module Dto {
  import opened Wrappers

  type Bytes = seq<bv8>

  /** The uploaded file (`Express.Multer.File`), reduced to the fields the
      core reads. */
  datatype UploadedFile = UploadedFile(
    originalName: string,
    mimeType: string,
    size: nat,
    buffer: Bytes)

  /** Optional free-text metadata sent beside the file. */
  datatype Metadata = Metadata(location: Option<string>, recordedAt: Option<string>)

  /** One lower-confidence candidate of a prediction. */
  datatype Alternative = Alternative(species: string, confidence: real)

  /** Reference facts about a species; declared by the response type but
      never filled in by either recognition service. */
  datatype BirdDetails = BirdDetails(
    image: string,
    size: string,
    weight: string,
    colors: string,
    habitat: string)

  /** The recognition response record. `audioUrl` is only ever set by the
      variant that stores the audio first. */
  datatype Recognition = Recognition(
    id: string,
    species: string,
    commonName: string,
    scientificName: string,
    confidence: real,
    timestamp: string,
    alternativePredictions: Option<seq<Alternative>>,
    audioUrl: Option<string>,
    details: Option<BirdDetails>)

  /** What the services throw: the framework's HTTP exceptions and a plain
      `Error` carrying only a message. */
  datatype Exception =
    | BadRequestException(message: string)
    | NotFoundException(message: string)
    | Error(message: string)
}
