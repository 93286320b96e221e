# Bird call recognition — a Dafny model of its decision rules

The system takes an uploaded recording of a bird call, checks it, asks a
remote model which species is singing, and returns one recognition record.
When the model cannot be asked, it may substitute a synthetic prediction.
Two server variants exist, and this model covers both:

- `src/` stores the audio in blob storage first. It then asks the model with
  the blob URL. When no model endpoint is configured it answers with a mock
  record; when the model fails it throws.
- `backend/` only asks the model, at a fixed endpoint. Every failure turns
  into the mock record.

A React page (`front-msi607/`) pre-checks the selected file and shows the
result with a confidence band. Its identify handler awaits the analysis, so
it is modelled as two transitions: the part before the wait and the part
after it. Cancelling or picking another file in between is possible, and the
late result then lands beside no file or beside the new one. A reference catalog (`backend/src/birds`)
looks up species facts case-insensitively. Nothing in either variant calls
the catalog, so the model keeps the lookup as a separate operation and adds
no enrichment step. The response type declares a mandatory `details`, but
no service sets it. Every record the model produces has `details == None`,
and the contracts say so.

Everything is pure. Every input from outside the code is a parameter:

- the `fetch` reply: a status with a body that parsed or did not, or a
  transport failure;
- what the storage SDK did, and the uuid;
- `Date.now()`, the random suffix of the identifier, the `Math.random()`
  draw that picks the mock record, and the ISO timestamp.

Each service call returns a record of its result together with the request
it issued, if any. That makes "no request is sent" and "the prediction is
never requested" statements about values.

Modules, one per source file or shared concern:

- `Wrappers`: `Option` and `Result`.
- `Strings`: `join`, `split(c).pop()`, ASCII case folding, decimal digits.
- `Dto`: the uploaded file, the metadata, the recognition record and the
  exceptions.
- `UploadValidation` and `RecognitionController`: the identify endpoint.
- `MlCommon`: the live-reply mapping, the mock catalog and the identifiers.
- `MlServiceSrc` and `MlServiceBackend`: the two ML services.
- `AzureStorage`: blob storage.
- `RecognitionSrc` and `RecognitionBackend`: the two `processAudio`s.
- `BirdsCatalog`: the reference catalog.
- `ClientValidation` and `BirdsFinder`: the page.
- `ValidationDivergence`: how the page's check and the server's check differ.

Server confidences are `real`s on a 0-to-1 scale; the page's are percentages. Only the mock's confidences are proved to lie in [0, 1]: a live reply's confidence is copied as it comes.

## Model

| member | source | states |
|---|---|---|
| UploadValidation.CheckUpload | src/bird-recognition/bird-recognition.controller.ts:55-78 | accepts exactly a present file of one of the seven audio types of at most 52428800 bytes (exactly 52428800 passes) and hands it on unchanged; otherwise a BadRequest: missing file first, then wrong type whatever the size, then size |
| UploadValidation.InvalidTypeMessageListsAllowedTypes | src/bird-recognition/bird-recognition.controller.ts:59-73 | the wrong-type message contains every accepted type verbatim |
| Strings.JoinContainsEachPart | src/bird-recognition/bird-recognition.controller.ts:71 | every element of a joined array occurs verbatim in the joined string |
| RecognitionController.IdentifyBird | src/bird-recognition/bird-recognition.controller.ts:51-84 | `processAudio` runs if and only if all three checks pass, with the accepted file and the body's `location`/`recordedAt` unchanged, and its outcome is the response; a rejected request gets the validation error |
| RecognitionController.RejectedRequestTouchesNothing | src/bird-recognition/bird-recognition.controller.ts:55-78 | a rejected request's outcome does not depend on storage or the model at all |
| ClientValidation.ValidateFile | front-msi607/src/app/components/BirdsFinder.tsx:35-63 | valid exactly for a present file of one of the four formats of at most 10485760 bytes; valid iff no error; an invalid result always has a non-empty error, missing file first, then format, then size |
| ValidationDivergence.M4aPassesClientOnly | front-msi607/src/app/components/BirdsFinder.tsx:35-41 | a small audio/x-m4a file passes the page and is rejected by the server for its type |
| ValidationDivergence.ServerOnlyFormats | src/bird-recognition/bird-recognition.controller.ts:59-78 | flac, wave, x-wav and mp3 files within 50 MiB pass the server and are rejected by the page for their format |
| ValidationDivergence.ClientAcceptanceImpliesServer | front-msi607/src/app/components/BirdsFinder.tsx:35-63 | apart from audio/x-m4a, every file the page accepts the server accepts |
| BirdsFinder.ConfidenceColor | front-msi607/src/app/components/BirdsFinder.tsx:175-180 | the colour is that of the confidence's band: at least 80 high, 60 up to 80 medium, below 60 low |
| BirdsFinder.ConfidenceLabel | front-msi607/src/app/components/BirdsFinder.tsx:182-186 | the label is that of the same band |
| BirdsFinder.ColorAndLabelAgree | front-msi607/src/app/components/BirdsFinder.tsx:175-186 | two confidences get the same colour iff they get the same label iff they fall in the same band |
| BirdsFinder.BandIsMonotone | front-msi607/src/app/components/BirdsFinder.tsx:175-186 | a higher confidence never falls in a lower band |
| BirdsFinder.ErrorText | front-msi607/src/app/components/BirdsFinder.tsx:71 | the shown validation error is never blank: the validation's own message, or "Error desconocido" when it has none |
| BirdsFinder.HandleFileSelect | front-msi607/src/app/components/BirdsFinder.tsx:65-79 | no selection changes nothing; an invalid file only sets the validation's error; a valid file is kept and clears result and error |
| BirdsFinder.HandleCancel | front-msi607/src/app/components/BirdsFinder.tsx:159-166 | file, result and error become empty; the rest is kept |
| BirdsFinder.StartIdentify | front-msi607/src/app/components/BirdsFinder.tsx:135-144 | without a file only the "load a file first" error is set; otherwise the analysing flag is raised, the error cleared and the counter restarted, with the file and any earlier result kept |
| BirdsFinder.SettleIdentify | front-msi607/src/app/components/BirdsFinder.tsx:146-156 | applied to whatever state the page is in when the analysis ends: the outcome's result is shown or the failure message set, the flag and counter are reset, and the file is left as it is then |
| BirdsFinder.IdentifyUninterrupted | front-msi607/src/app/components/BirdsFinder.tsx:135-156 | an identification nobody interrupts shows its outcome next to the file it was started for, with the error cleared on success |
| BirdsFinder.CancelDuringAnalysisLeavesResultWithoutFile | front-msi607/src/app/components/BirdsFinder.tsx:146-166 | a cancel made during the analysis is followed by the late result, so the page holds a result and no file |
| BirdsFinder.NewFileDuringAnalysisGetsEarlierResult | front-msi607/src/app/components/BirdsFinder.tsx:65-79 | a valid file selected during the analysis ends up next to the result of the analysis started for the previous file |
| BirdsFinder.TransitionsKeepValidFile | front-msi607/src/app/components/BirdsFinder.tsx:65-79 | the page never holds a file its own validation rejects, across file selection, cancel, both halves of identify and a progress tick, in any interleaving |
| BirdsFinder.ProgressTick | front-msi607/src/app/components/BirdsFinder.tsx:102-108 | a tick keeps the counter on the grid 0, 10, …, 100 and never lowers it |
| BirdsFinder.ProgressSchedule | front-msi607/src/app/components/BirdsFinder.tsx:100-108 | from 0, after n ticks the counter reads min(10·n, 100), so it only takes values 0, 10, …, 100 |
| BirdsFinder.ProgressStaysFull | front-msi607/src/app/components/BirdsFinder.tsx:102-106 | once 100 is reached, every later tick reads 100 |
| MlCommon.GenerateId | src/ml-service/ml-service.service.ts:124-126 | an identifier is "bird_", then the non-empty decimal rendering of the clock reading, then "_", then the random suffix |
| MlCommon.FromModelResponse | src/ml-service/ml-service.service.ts:58-69 | species, common name, scientific name, confidence and alternatives come verbatim from the reply; the given audio URL is attached; no details |
| MlCommon.PickIndex | src/ml-service/ml-service.service.ts:106 | the draw picks one of the four records, each owning an equal quarter of [0, 1) |
| MlCommon.OtherBirds | src/ml-service/ml-service.service.ts:107-108 | the filter keeps exactly the records of another species |
| MlCommon.OtherBirdsDropsOnlyOne | src/ml-service/ml-service.service.ts:107-108 | with distinct species, filtering out one record's species removes exactly that record and keeps the order |
| MlCommon.MockAlternatives | src/ml-service/ml-service.service.ts:107-110 | for any primary, at most two alternatives, each reporting the common name and confidence of a catalog record of another species |
| MlCommon.MockAlternativesInCatalogOrder | src/ml-service/ml-service.service.ts:107-110 | the mock alternatives are the first two other records in list order, each reporting its common name and confidence |
| MlCommon.MockAlternativesShape | src/ml-service/ml-service.service.ts:79-110 | there are always exactly two mock alternatives, neither names the primary, their confidences do not increase and lie in [0, 1] |
| MlCommon.MockPrediction | src/ml-service/ml-service.service.ts:76-122 | the mock primary's fields come verbatim from the picked record, the record is structurally complete, the given audio URL is attached, no details |
| MlCommon.AudioUpload | src/ml-service/ml-service.service.ts:39-52 | the one multipart POST both variants build: the audio bytes as "audio.wav" of type audio/wav under the field "audio"; what each variant sends is stated by its PredictBirdSpecies row |
| MlServiceSrc.BearerHeader | src/ml-service/ml-service.service.ts:49 | the header is "Bearer " and the key, or "Bearer undefined" when no key is set |
| MlServiceSrc.PredictBirdSpecies | src/ml-service/ml-service.service.ts:30-74 | no endpoint: the mock with the audio URL and no request; otherwise one credentialed request with the audio, success iff the reply is 2xx and parsed, fields copied verbatim, and every failure is "Bird recognition failed" |
| MlServiceSrc.UnconfiguredIgnoresNetwork | src/ml-service/ml-service.service.ts:34-36 | without an endpoint the upstream reply has no influence |
| MlServiceSrc.ConfiguredNeverFallsBack | src/ml-service/ml-service.service.ts:54-73 | with an endpoint, a bad reply always throws; the mock is never substituted |
| MlServiceBackend.PredictBirdSpecies | backend/src/ml-service/ml-service.service.ts:22-65 | never fails; always sends one uncredentialed request to the fixed endpoint; a usable reply is copied verbatim, anything else gives the mock; no audio URL, no details |
| MlServiceBackend.FailureYieldsCompleteMock | backend/src/ml-service/ml-service.service.ts:60-111 | after any upstream failure the record is structurally complete and names the picked mock species |
| AzureStorage.ContainerName | src/storage/azure-storage.service.ts:15-17 | an unset or empty container name becomes "bird-audios" |
| AzureStorage.Connect | src/storage/azure-storage.service.ts:11-35 | a container client exists iff a non-empty connection string was given and the SDK accepted it, and it uses that container name |
| AzureStorage.FileExtension | src/storage/azure-storage.service.ts:53 | the extension holds no "."; without a "." it is the whole name; otherwise the name is a prefix, ".", then the extension |
| AzureStorage.BlobName | src/storage/azure-storage.service.ts:53-54 | the blob name is the uuid, ".", then the extension, and its own extension is the original file's |
| AzureStorage.UploadFile | src/storage/azure-storage.service.ts:48-70 | without a client it fails with "Azure Storage is not configured" and writes nothing; otherwise it writes the bytes under the generated name with the file's MIME type, returning the SDK's URL or "File upload failed" |
| AzureStorage.DeleteTarget | src/storage/azure-storage.service.ts:78 | the delete target is the suffix of the URL after its last "/" and holds no "/" |
| AzureStorage.DeleteFile | src/storage/azure-storage.service.ts:72-86 | without a client it fails with "Azure Storage is not configured" and targets nothing; otherwise it targets that blob, and a failed delete is "File deletion failed" |
| AzureStorage.DeleteTargetsNamedBlob | src/storage/azure-storage.service.ts:53-78 | for a "/"-free uuid, a URL of the form prefix + "/" + the blob name generated for an original name makes delete target exactly that blob name if and only if the original name's extension holds no "/" |
| AzureStorage.SlashInNameBreaksDelete | src/storage/azure-storage.service.ts:72-80 | for the original name "a.b/c" the blob is named "u.b/c", yet a delete of its URL targets "c" |
| Strings.LastPart | src/storage/azure-storage.service.ts:53 | `split(c).pop()` is the separator-free suffix after the last `c`, or the whole string |
| Strings.LastPartOfTail | src/storage/azure-storage.service.ts:53-54 | appending "." and a dot-free tail makes that tail the new last part |
| Strings.SplitThenJoin | src/storage/azure-storage.service.ts:53 | joining the pieces of a split with the separator restores the string |
| Strings.JoinThenSplit | src/storage/azure-storage.service.ts:78 | splitting a join of separator-free pieces gives the pieces back |
| RecognitionSrc.ProcessAudio | src/bird-recognition/bird-recognition.service.ts:15-46 | the upload comes first; the prediction is requested iff the upload succeeded, with the file's bytes and exactly the returned URL; an upload error or a prediction outcome is passed on unchanged |
| RecognitionSrc.MetadataNeverMatters | src/bird-recognition/bird-recognition.service.ts:37-41 | metadata present or absent gives the same run |
| RecognitionSrc.SuccessCarriesUploadedUrl | src/bird-recognition/bird-recognition.service.ts:23-30 | a successful result's audio URL is the URL the upload returned |
| RecognitionSrc.UnconfiguredStorageStopsEarly | src/bird-recognition/bird-recognition.service.ts:23-45 | without storage the caller gets "Azure Storage is not configured", nothing is written and no prediction is requested |
| RecognitionSrc.InferenceFailureIsSurfaced | src/bird-recognition/bird-recognition.service.ts:27-45 | a bad reply from a configured model after a good upload fails the run with "Bird recognition failed" |
| RecognitionBackend.ProcessAudio | backend/src/bird-recognition/bird-recognition.service.ts:11-35 | exactly one prediction request, carrying the file's bytes; no storage step; the prediction's outcome is returned unchanged |
| RecognitionBackend.AlwaysRecognises | backend/src/bird-recognition/bird-recognition.service.ts:18-19 | every run returns a record, never one with an audio URL |
| RecognitionBackend.MetadataNeverMatters | backend/src/bird-recognition/bird-recognition.service.ts:25-30 | metadata present or absent gives the same run |
| BirdsCatalog.FirstMatch | backend/src/birds/birds.service.ts:24-26 | finds the first record whose species equals the key up to ASCII letter case, or reports that none does |
| BirdsCatalog.FindBySpecies | backend/src/birds/birds.service.ts:21-36 | succeeds iff some record's species equals the key ignoring case, returning the first such record; otherwise NotFound naming the key |
| BirdsCatalog.FirstMatchIgnoresCase | backend/src/birds/birds.service.ts:24-26 | keys differing only in letter case match at the same position |
| BirdsCatalog.LookupIgnoresCase | backend/src/birds/birds.service.ts:24-26 | keys differing only in letter case find the same record or both fail |
| BirdsCatalog.FindAll | backend/src/birds/birds.service.ts:38-40 | the listing is the whole collection, element for element |
| BirdsCatalog.FoundRecordIsListed | backend/src/birds/birds.service.ts:21-40 | every record a lookup finds is in the listing |

## Left out

- BirdsCatalog.FindBySpecies: requires a key of ASCII characters with no regular-expression metacharacter. The source puts the key into `^…$` unescaped, so other keys follow regex and Unicode case rules, which the model does not cover. The match itself is also only exact for stored species that are ASCII without a trailing newline: the database's regex engine lets `$` match before a final newline (a stored "Chucao\n" is found by "Chucao") and folds non-ASCII stored characters by Unicode rules (KELVIN SIGN matches "k"), while `Strings.Lower` folds only A to Z.
- BirdsCatalog.FindBySpecies: the store's `findOne` is taken to return the first match in collection order. The database connection and driver are not modelled.
- MlCommon.GenerateId: the random suffix (`Math.random().toString(36).substr(2, 9)`) is an opaque string. Its base-36 rendering and its length are not modelled.
- MlCommon.FromModelResponse: a reply body is either a complete record or unparsable. A JSON body with missing or mistyped fields is not modelled.
- The multipart encoding, the `Blob`, and the HTTP transport are left out. Their result is one abstract reply value.
- The storage SDK is left out: `BlobServiceClient`, `createIfNotExists`, `uploadData`, `delete` and the returned `url`. The model does not claim that the returned URL names the generated blob.
- AzureStorage.DeleteTargetsNamedBlob: upload and delete are not inverse for every original name. Upload keeps everything after the last "." as the extension, "/" included, while delete keeps only what follows the last "/". The round trip is proved exactly when the extension holds no "/". Whether the upload library ever passes such a name is not part of this model.
- The fire-and-forget container creation is left out. Its failure is only logged.
- Logging is left out, including the only use the services make of metadata.
- Module and dependency-injection wiring is left out.
- The page's rendering, drag-and-drop handlers and the section toggle are left out.
- BirdsFinder.HandleCancel: the reset of the file input's DOM value is left out. That reset is what lets the same file be picked again after a cancel.
- The page's timers are left out: the 5-second error clear, the interval that drives the progress counter, and the 1-second analysis timeout. The counter is modelled as successive ticks.
- The page's hard-coded simulated analysis result is left out. The analysis outcome is an input of `SettleIdentify`.
- The disabled identify button is left out: `StartIdentify` is the handler itself, which checks only for a file. The button is disabled both when no file is loaded and while an analysis runs, so on the page the no-file branch is reached only by calling the handler directly. Cancel, drop and the file input stay live during an analysis, and the model allows them between the two halves.
- `front-msi607/src/app/services/identificateBirdSound.ts` is a thin fetch wrapper and is left out. It sends the file under "audioFile" while the server reads "file".
- `NoResults.tsx` is left out. It is static markup.
- Number formatting (`toFixed`) is left out.
- No species enrichment producing `details` is modelled, because the code has none.
- Where the intended design and the code differ, the code is modelled:
  - The credential header is always sent, even when no key is set.
  - The failure message of the `src/` service is a fixed string, without the upstream status.
