/** The blob-storage adapter: how the container client comes to exist, how an
    upload names its blob, how a delete finds its target, and which errors
    each reports. The SDK calls, the uuid and the returned URL are inputs. */
module AzureStorage {
  import opened Wrappers
  import opened Strings
  import opened Dto

  const DefaultContainerName: string := "bird-audios"
  const NotConfiguredMessage: string := "Azure Storage is not configured"
  const UploadFailedMessage: string := "File upload failed"
  const DeletionFailedMessage: string := "File deletion failed"

  /** The two configuration values the adapter reads at construction. */
  datatype StorageConfig = StorageConfig(connectionString: Option<string>, containerName: Option<string>)

  datatype ContainerClient = ContainerClient(name: string)

  /** `AZURE_STORAGE_CONTAINER_NAME || 'bird-audios'` */
  function ContainerName(config: StorageConfig): (name: string)
    ensures config.containerName.Some? && config.containerName.value != "" ==>
              name == config.containerName.value
    ensures config.containerName.None? || config.containerName.value == "" ==>
              name == DefaultContainerName
    ensures name != ""
  {
    if config.containerName.Some? && config.containerName.value != "" then config.containerName.value
    else DefaultContainerName
  }

  /** The constructor: without a connection string, or when the SDK rejects
      it (`clientCreated` false), no container client exists. */
  function Connect(config: StorageConfig, clientCreated: bool): (client: Option<ContainerClient>)
    ensures client.Some? <==>
              config.connectionString.Some? && config.connectionString.value != "" && clientCreated
    ensures client.Some? ==> client.value.name == ContainerName(config)
  {
    if config.connectionString.None? || config.connectionString.value == "" then None
    else if !clientCreated then None
    else Some(ContainerClient(ContainerName(config)))
  }

  /** `originalname.split('.').pop()` */
  function FileExtension(originalName: string): (ext: string)
    ensures '.' !in ext
    ensures '.' !in originalName ==> ext == originalName
    ensures '.' in originalName ==>
              |ext| < |originalName| &&
              originalName == originalName[..|originalName| - |ext| - 1] + "." + ext
  {
    var ext := LastPart(originalName, '.');
    if '.' in originalName then
      assert originalName[..|originalName| - |ext|] ==
             originalName[..|originalName| - |ext| - 1] + [originalName[|originalName| - |ext| - 1]];
      ext
    else ext
  }

  /** `${uuidv4()}.${fileExtension}`: the blob keeps the original extension. */
  function BlobName(uuid: string, originalName: string): (name: string)
    ensures name == uuid + "." + FileExtension(originalName)
    ensures FileExtension(name) == FileExtension(originalName)
  {
    var ext := FileExtension(originalName);
    LastPartOfTail(uuid, ext, '.');
    uuid + "." + ext
  }

  /** What the SDK's `uploadData` did. */
  datatype StoreReply = Stored(url: string) | StoreFailed

  /** The blob write issued by an upload. */
  datatype BlobWrite = BlobWrite(container: string, blobName: string, contentType: string, data: Bytes)

  /** One call of `uploadFile`: the URL or the error, and the write attempted. */
  datatype Upload = Upload(result: Result<string, Exception>, write: Option<BlobWrite>)

  /** `uploadFile(file)` */
  function UploadFile(client: Option<ContainerClient>, file: UploadedFile, uuid: string, reply: StoreReply): (r: Upload)
    ensures client.None? ==> r == Upload(Failure(Error(NotConfiguredMessage)), None)
    ensures client.Some? ==>
              r.write == Some(BlobWrite(client.value.name, BlobName(uuid, file.originalName), file.mimeType, file.buffer))
    ensures client.Some? ==> (r.result.Success? <==> reply.Stored?)
    ensures r.result.Success? ==> reply.Stored? && r.result.value == reply.url
    ensures client.Some? && reply.StoreFailed? ==> r.result == Failure(Error(UploadFailedMessage))
  {
    if client.None? then
      Upload(Failure(Error(NotConfiguredMessage)), None)
    else
      var write := BlobWrite(client.value.name, BlobName(uuid, file.originalName), file.mimeType, file.buffer);
      match reply
      case Stored(url) => Upload(Success(url), Some(write))
      case StoreFailed => Upload(Failure(Error(UploadFailedMessage)), Some(write))
  }

  /** `blobUrl.split('/').pop()` */
  function DeleteTarget(blobUrl: string): (name: string)
    ensures '/' !in name
    ensures '/' !in blobUrl ==> name == blobUrl
    ensures |name| <= |blobUrl| && blobUrl[|blobUrl| - |name|..] == name
    ensures '/' in blobUrl ==> blobUrl[|blobUrl| - |name| - 1] == '/'
  {
    LastPart(blobUrl, '/')
  }

  /** What the SDK's `delete` did. */
  datatype DeleteReply = Deleted | DeleteFailed

  /** One call of `deleteFile`: the outcome and the blob it targeted. */
  datatype Deletion = Deletion(result: Result<(), Exception>, target: Option<(string, string)>)

  /** `deleteFile(blobUrl)` */
  function DeleteFile(client: Option<ContainerClient>, blobUrl: string, reply: DeleteReply): (r: Deletion)
    ensures client.None? ==> r == Deletion(Failure(Error(NotConfiguredMessage)), None)
    ensures client.Some? ==> r.target == Some((client.value.name, DeleteTarget(blobUrl)))
    ensures client.Some? ==> (r.result.Success? <==> reply.Deleted?)
    ensures client.Some? && reply.DeleteFailed? ==> r.result == Failure(Error(DeletionFailedMessage))
  {
    if client.None? then
      Deletion(Failure(Error(NotConfiguredMessage)), None)
    else
      var target := (client.value.name, DeleteTarget(blobUrl));
      match reply
      case Deleted => Deletion(Success(()), Some(target))
      case DeleteFailed => Deletion(Failure(Error(DeletionFailedMessage)), Some(target))
  }

  /** A blob URL that ends in `/` followed by a generated blob name leads a
      delete to exactly that blob, and only then: when the original name's
      extension holds a `/`, the delete targets a shorter name. */
  lemma DeleteTargetsNamedBlob(prefix: string, uuid: string, originalName: string)
    requires '/' !in uuid
    ensures DeleteTarget(prefix + "/" + BlobName(uuid, originalName)) == BlobName(uuid, originalName)
            <==> '/' !in FileExtension(originalName)
  {
    var ext := FileExtension(originalName);
    var name := BlobName(uuid, originalName);
    if '/' !in ext {
      assert '/' !in name;
      LastPartOfTail(prefix, name, '/');
    } else {
      assert '/' in name by {
        var k :| 0 <= k < |ext| && ext[k] == '/';
        assert name[|uuid| + 1 + k] == '/';
      }
    }
  }

  /** Upload does not guard against a `/` in the original name: for
      "a.b/c" the blob is stored as "u.b/c", but its URL makes a delete target
      "c". */
  lemma SlashInNameBreaksDelete()
    ensures BlobName("u", "a.b/c") == "u.b/c"
    ensures DeleteTarget("h/" + BlobName("u", "a.b/c")) == "c"
  {
    assert FileExtension("a.b/c") == "b/c" by {
      LastPartOfTail("a", "b/c", '.');
      assert "a" + ['.'] + "b/c" == "a.b/c";
    }
    LastPartOfTail("h/u.b", "c", '/');
    assert "h/u.b" + ['/'] + "c" == "h/" + "u.b/c";
  }
}
