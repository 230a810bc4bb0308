/** The S3 object-storage client: object-key construction, the put request,
    the returned URL, lazy bucket provisioning, pre-signed URLs and the
    batched delete with partial-failure reporting.

    Everything the client asks of code it cannot see is a parameter: the
    store's operations are the fields of `S3Client`, the SDK's static
    helpers those of `SdkUtilities`, and the URL decomposition rule is part
    of `BucketConfiguration`. Operations that issue store calls return the
    calls they issue, in order, beside their result. */
module Storage {
  import opened Strings

  datatype Option<T> = None | Some(value: T)

  /** URIs are kept as the text they are built from. */
  type Uri = string

  /** A handle on the caller's content stream; its bytes are not modelled. */
  type StreamId = nat

  datatype CannedAcl = PublicRead | Private

  /** The verbs of the SDK's `HttpVerb` enumeration. */
  datatype HttpVerb = GET | HEAD | PUT | DELETE

  const HTTP_STATUS_OK: int := 200

  /** The media type of a default-constructed `ContentType`. */
  const DEFAULT_MEDIA_TYPE: string := "application/octet-stream"

  const SHORT_PATH_MESSAGE: string := "File path should contain at least 2 elements. Bucket and file name"
  const FILE_PATH_PARAMETER: string := "filePath"
  const INVALID_BUCKET_MESSAGE: string := "Bucket name is not valid."

  /** Upload input: the stream and the media type of its optional content type. */
  datatype FileContent = FileContent(fileStream: StreamId, mediaType: Option<string>)

  /** What `FromUrl` finds in a public URL. */
  datatype ObjectInfo = ObjectInfo(bucket: string, key: string)

  /** The injected per-bucket configuration; `fromUrl` is its URL-decomposition rule. */
  datatype BucketConfiguration = BucketConfiguration(
    bucket: string,
    customDomainUrl: Option<string>,
    fromUrl: Uri -> Option<ObjectInfo>)

  datatype PutObjectRequest = PutObjectRequest(
    bucketName: string,
    key: string,
    inputStream: StreamId,
    contentType: string,
    metadata: map<string, string>,
    cannedAcl: CannedAcl)

  datatype PutBucketRequest = PutBucketRequest(bucketName: string, useClientRegion: bool, cannedAcl: CannedAcl)

  datatype DeleteObjectsRequest = DeleteObjectsRequest(bucketName: string, quiet: bool, keys: seq<string>)

  datatype DeleteError = DeleteError(key: string, code: string, message: string)

  datatype GetPreSignedUrlRequest = GetPreSignedUrlRequest(bucketName: string, expires: int, verb: HttpVerb, key: string)

  /** Caller options for a pre-signed URL; `expiry` is an opaque instant. */
  datatype SignedStorageAccessOptions = SignedStorageAccessOptions(action: string, expiry: int)

  /** The store operations the client issues. */
  datatype StoreCall =
    | DoesBucketExist(bucketName: string)
    | PutBucket(bucketRequest: PutBucketRequest)
    | PutObject(objectRequest: PutObjectRequest)
    | DeleteObjects(deleteRequest: DeleteObjectsRequest)
    | GetPreSignedUrl(signRequest: GetPreSignedUrlRequest)

  /** The store's answers. `putBucket` gives the response's status code, or
      None for a null response; `putObject` is false for a null response;
      `serviceEndpoint` is the SDK's endpoint derivation for a request. */
  datatype S3Client = S3Client(
    bucketExists: string -> bool,
    putBucket: PutBucketRequest -> Option<int>,
    putObject: PutObjectRequest -> bool,
    serviceEndpoint: PutObjectRequest -> string,
    deleteObjects: DeleteObjectsRequest -> seq<DeleteError>,
    preSignedUrl: GetPreSignedUrlRequest -> string)

  /** `AmazonS3Util.ValidateV2Bucket` and `MimeUtility.GetExtensions` (None: a null array). */
  datatype SdkUtilities = SdkUtilities(
    isValidBucketName: string -> bool,
    getExtensions: string -> Option<seq<string>>)

  datatype Error =
    | ArgumentError(message: string, paramName: Option<string>)
    | FailedBucketGeneration(bucketName: string)

  datatype Result<T> = Ok(value: T) | Err(error: Error)

  /** A result together with the store calls issued to reach it. */
  datatype Outcome<T> = Outcome(result: Result<T>, calls: seq<StoreCall>)

  /** `string.IsNullOrWhiteSpace`: null, or nothing left once trimmed. */
  predicate IsNullOrWhiteSpace(s: Option<string>)
    ensures IsNullOrWhiteSpace(s) <==> s.None? || TrimStart(s.value) == ""
  {
    s.None? || IsWhiteSpace(s.value)
  }

  /** The custom domain as string interpolation renders it: null becomes empty. */
  function DomainText(config: BucketConfiguration): string {
    match config.customDomainUrl
    case None => ""
    case Some(d) => d
  }

  /** The request that creates a missing bucket: client region, public-read ACL. */
  function CreateBucketRequest(bucketName: string): (req: PutBucketRequest)
    ensures req.bucketName == bucketName && req.useClientRegion && req.cannedAcl == PublicRead
  {
    PutBucketRequest(bucketName, true, PublicRead)
  }

  /** Validates the name, then creates the bucket only when the store says it
      is absent; true when it was present or its creation answered OK. */
  function EnsureBucketExists(s3: S3Client, sdk: SdkUtilities, bucketName: string): (r: Outcome<bool>)
    ensures !sdk.isValidBucketName(bucketName) ==>
              r.result == Err(ArgumentError(INVALID_BUCKET_MESSAGE, None)) && r.calls == []
    ensures sdk.isValidBucketName(bucketName) && s3.bucketExists(bucketName) ==>
              r.result == Ok(true) && r.calls == [DoesBucketExist(bucketName)]
    ensures sdk.isValidBucketName(bucketName) && !s3.bucketExists(bucketName) ==>
              r.calls == [DoesBucketExist(bucketName), PutBucket(CreateBucketRequest(bucketName))]
              && (r.result == Ok(true) <==> s3.putBucket(CreateBucketRequest(bucketName)) == Some(HTTP_STATUS_OK))
    ensures r.result.Ok? <==> sdk.isValidBucketName(bucketName)
    ensures forall i :: 0 <= i < |r.calls| && r.calls[i].PutBucket? ==> !s3.bucketExists(bucketName)
  {
    if !sdk.isValidBucketName(bucketName) then
      Outcome(Err(ArgumentError(INVALID_BUCKET_MESSAGE, None)), [])
    else if !s3.bucketExists(bucketName) then
      var request := CreateBucketRequest(bucketName);
      Outcome(Ok(s3.putBucket(request) == Some(HTTP_STATUS_OK)), [DoesBucketExist(bucketName), PutBucket(request)])
    else
      Outcome(Ok(true), [DoesBucketExist(bucketName)])
  }

  /** Appends `.` and the first extension the MIME lookup offers for the
      declared media type; otherwise the key is kept as it is. */
  function GetAndSetFileNameWithExtensions(sdk: SdkUtilities, fileContent: FileContent, key: string): (r: string)
    ensures fileContent.mediaType.Some? && sdk.getExtensions(fileContent.mediaType.value).Some?
            && |sdk.getExtensions(fileContent.mediaType.value).value| >= 1 ==>
              r == key + "." + sdk.getExtensions(fileContent.mediaType.value).value[0]
    ensures fileContent.mediaType.None? || sdk.getExtensions(fileContent.mediaType.value).None?
            || |sdk.getExtensions(fileContent.mediaType.value).value| == 0 ==>
              r == key
    ensures key <= r
  {
    match fileContent.mediaType
    case None => key
    case Some(mediaType) =>
      match sdk.getExtensions(mediaType)
      case Some(extensions) =>
        if |extensions| >= 1 then key + "." + extensions[0] else key
      case None => key
  }

  /** The declared media type, or the default one when none is declared. */
  function MediaTypeOrDefault(fileContent: FileContent): (t: string)
    ensures fileContent.mediaType.Some? ==> t == fileContent.mediaType.value
    ensures fileContent.mediaType.None? ==> t == DEFAULT_MEDIA_TYPE
  {
    match fileContent.mediaType
    case Some(mediaType) => mediaType
    case None => DEFAULT_MEDIA_TYPE
  }

  /** The put request: bucket, key and the caller's stream, the content type
      both as header and as "Content-Type" metadata, and a public-read ACL
      exactly when asked for. */
  function ConstructPutObjectRequest(fileContent: FileContent, publicRead: bool, bucketName: string, key: string): (req: PutObjectRequest)
    ensures req.bucketName == bucketName && req.key == key
    ensures req.inputStream == fileContent.fileStream
    ensures req.contentType == MediaTypeOrDefault(fileContent)
    ensures req.metadata == map["Content-Type" := req.contentType]
    ensures req.cannedAcl == PublicRead <==> publicRead
  {
    var mediaType := MediaTypeOrDefault(fileContent);
    PutObjectRequest(bucketName, key, fileContent.fileStream, mediaType,
                     map["Content-Type" := mediaType],
                     if publicRead then PublicRead else Private)
  }

  /** The URL of an uploaded object: the store's endpoint followed by the key
      when no custom domain is configured, `{domain}/{bucket}/{key}` otherwise.
      Either way it ends with the key of the put request. */
  function UploadUrl(s3: S3Client, config: BucketConfiguration, request: PutObjectRequest): (url: Uri)
    ensures IsNullOrWhiteSpace(config.customDomainUrl) ==>
              url == s3.serviceEndpoint(request) + request.key
    ensures !IsNullOrWhiteSpace(config.customDomainUrl) ==>
              url == config.customDomainUrl.value + "/" + config.bucket + "/" + request.key
    ensures EndsWith(url, request.key)
  {
    if IsNullOrWhiteSpace(config.customDomainUrl) then
      s3.serviceEndpoint(request) + request.key
    else
      config.customDomainUrl.value + "/" + config.bucket + "/" + request.key
  }

  /** Uploads the content under the joined path. Fails with an argument error
      before any store call when fewer than two segments are given, fails
      with the bucket-generation error when provisioning reports false, and
      issues exactly one put only once the bucket is known to exist. A null
      put response gives no URL. */
  function Upload(s3: S3Client, sdk: SdkUtilities, config: BucketConfiguration,
                  fileContent: FileContent, publicRead: bool, filePath: seq<string>): (r: Outcome<Option<Uri>>)
    ensures |filePath| < 2 ==>
              r.result == Err(ArgumentError(SHORT_PATH_MESSAGE, Some(FILE_PATH_PARAMETER))) && r.calls == []
    ensures |filePath| >= 2 && !sdk.isValidBucketName(config.bucket) ==>
              r.result == Err(ArgumentError(INVALID_BUCKET_MESSAGE, None))
    ensures |filePath| >= 2 && EnsureBucketExists(s3, sdk, config.bucket).result == Ok(false) ==>
              r.result == Err(FailedBucketGeneration(config.bucket))
    ensures |filePath| >= 2 && r.result.Err? ==> r.calls == EnsureBucketExists(s3, sdk, config.bucket).calls
    ensures r.result.Err? ==> forall i :: 0 <= i < |r.calls| ==> !r.calls[i].PutObject?
    ensures r.result.Ok? <==> |filePath| >= 2 && EnsureBucketExists(s3, sdk, config.bucket).result == Ok(true)
    ensures r.result.Ok? ==>
              var key := GetAndSetFileNameWithExtensions(sdk, fileContent, Join("/", filePath));
              var request := ConstructPutObjectRequest(fileContent, publicRead, config.bucket, key);
              r.calls == EnsureBucketExists(s3, sdk, config.bucket).calls + [PutObject(request)]
              && (r.result.value.None? <==> !s3.putObject(request))
              && (r.result.value.Some? ==> r.result.value.value == UploadUrl(s3, config, request))
  {
    if |filePath| < 2 then
      Outcome(Err(ArgumentError(SHORT_PATH_MESSAGE, Some(FILE_PATH_PARAMETER))), [])
    else
      var ensured := EnsureBucketExists(s3, sdk, config.bucket);
      match ensured.result
      case Err(e) => Outcome(Err(e), ensured.calls)
      case Ok(bucketReady) =>
        if !bucketReady then
          Outcome(Err(FailedBucketGeneration(config.bucket)), ensured.calls)
        else
          var key := GetAndSetFileNameWithExtensions(sdk, fileContent, Join("/", filePath));
          var request := ConstructPutObjectRequest(fileContent, publicRead, config.bucket, key);
          var calls := ensured.calls + [PutObject(request)];
          if !s3.putObject(request) then Outcome(Ok(None), calls)
          else Outcome(Ok(Some(UploadUrl(s3, config, request))), calls)
  }

  /** The enumeration's member names. */
  function VerbName(verb: HttpVerb): string {
    match verb
    case GET => "GET"
    case HEAD => "HEAD"
    case PUT => "PUT"
    case DELETE => "DELETE"
  }

  /** Matches a trimmed action against the member names; None where
      `Enum.Parse` finds no member. */
  function ParseHttpVerb(name: string): (r: Option<HttpVerb>)
    ensures r.Some? ==> VerbName(r.value) == name
    ensures r.None? ==> forall v: HttpVerb :: VerbName(v) != name
  {
    if name == "GET" then Some(GET)
    else if name == "HEAD" then Some(HEAD)
    else if name == "PUT" then Some(PUT)
    else if name == "DELETE" then Some(DELETE)
    else None
  }

  /** Every verb name parses back to its verb. */
  lemma ParseVerbName(verb: HttpVerb)
    ensures ParseHttpVerb(VerbName(verb)) == Some(verb)
  {
  }

  const EMPTY_ENUM_MESSAGE: string := "Must specify valid information for parsing in the string."
  const ENUM_VALUE_PARAMETER: string := "value"

  function UnknownVerbMessage(value: string): string {
    "Requested value '" + value + "' was not found."
  }

  /** `Enum.Parse<HttpVerb>(action)`: leading white space is dropped; nothing
      left is the "must specify" error for parameter `value`; otherwise the
      value, trailing white space dropped, must be a member name, and the
      not-found error quotes the value. */
  function ParseVerbAction(action: string): (r: Result<HttpVerb>)
    ensures IsWhiteSpace(action) ==>
              r == Err(ArgumentError(EMPTY_ENUM_MESSAGE, Some(ENUM_VALUE_PARAMETER)))
    ensures !IsWhiteSpace(action) && ParseHttpVerb(TrimEnd(TrimStart(action))).None? ==>
              r == Err(ArgumentError(UnknownVerbMessage(TrimStart(action)), None))
    ensures r.Ok? <==> ParseHttpVerb(TrimEnd(TrimStart(action))).Some? && !IsWhiteSpace(action)
    ensures r.Ok? ==> VerbName(r.value) == TrimEnd(TrimStart(action))
  {
    var value := TrimStart(action);
    if value == "" then
      Err(ArgumentError(EMPTY_ENUM_MESSAGE, Some(ENUM_VALUE_PARAMETER)))
    else
      match ParseHttpVerb(TrimEnd(value))
      case None => Err(ArgumentError(UnknownVerbMessage(value), None))
      case Some(verb) => Ok(verb)
  }

  /** Signs the joined path in the configured bucket for the requested verb
      and expiry, or fails with the parse error, before any store call, when
      the action names no verb. */
  function GeneratePreSignedUrl(s3: S3Client, config: BucketConfiguration,
                                accessOptions: SignedStorageAccessOptions, filePath: seq<string>): (r: Outcome<Uri>)
    ensures ParseVerbAction(accessOptions.action).Err? ==>
              r.result == Err(ParseVerbAction(accessOptions.action).error) && r.calls == []
    ensures ParseVerbAction(accessOptions.action).Ok? ==>
              |r.calls| == 1 && r.calls[0].GetPreSignedUrl?
              && r.calls[0].signRequest.bucketName == config.bucket
              && r.calls[0].signRequest.expires == accessOptions.expiry
              && r.calls[0].signRequest.verb == ParseVerbAction(accessOptions.action).value
              && r.calls[0].signRequest.key == Join("/", filePath)
              && r.result == Ok(s3.preSignedUrl(r.calls[0].signRequest))
  {
    match ParseVerbAction(accessOptions.action)
    case Err(e) => Outcome(Err(e), [])
    case Ok(verb) =>
      var request := GetPreSignedUrlRequest(config.bucket, accessOptions.expiry, verb, Join("/", filePath));
      Outcome(Ok(s3.preSignedUrl(request)), [GetPreSignedUrl(request)])
  }

  // ----- Batched delete -----

  /** The keys of the URIs the configuration can decompose, in input order. */
  function ResolvedKeys(fromUrl: Uri -> Option<ObjectInfo>, uris: seq<Uri>): seq<string>
    decreases |uris|
  {
    if |uris| == 0 then []
    else
      var front := ResolvedKeys(fromUrl, uris[..|uris| - 1]);
      match fromUrl(uris[|uris| - 1])
      case Some(info) => front + [info.key]
      case None => front
  }

  /** The URIs the configuration cannot decompose, in input order. */
  function Unresolved(fromUrl: Uri -> Option<ObjectInfo>, uris: seq<Uri>): seq<Uri>
    decreases |uris|
  {
    if |uris| == 0 then []
    else
      var front := Unresolved(fromUrl, uris[..|uris| - 1]);
      if fromUrl(uris[|uris| - 1]).None? then front + [uris[|uris| - 1]] else front
  }

  /** The URI reported for a key the store failed to delete: `{domain}/{key}`.
      It starts with the domain text and ends with "/" and the key. */
  function FailedDeleteUri(config: BucketConfiguration, key: string): (u: Uri)
    ensures DomainText(config) <= u
    ensures EndsWith(u, "/" + key)
    ensures |u| == |DomainText(config)| + 1 + |key|
  {
    DomainText(config) + "/" + key
  }

  /** Under a custom domain, the URI reported for a key that failed to delete
      is never the URL the upload returned for that key: it lacks the bucket
      segment. */
  lemma FailedUriDiffersFromUploadUrl(s3: S3Client, config: BucketConfiguration, request: PutObjectRequest)
    requires !IsNullOrWhiteSpace(config.customDomainUrl)
    ensures FailedDeleteUri(config, request.key) != UploadUrl(s3, config, request)
  {
    assert |UploadUrl(s3, config, request)| == |FailedDeleteUri(config, request.key)| + |config.bucket| + 1;
  }

  /** One reported URI per store error, in the store's order. */
  function ErrorUris(config: BucketConfiguration, errors: seq<DeleteError>): (r: seq<Uri>)
    ensures |r| == |errors|
    ensures forall i :: 0 <= i < |errors| ==> r[i] == FailedDeleteUri(config, errors[i].key)
    decreases |errors|
  {
    if |errors| == 0 then []
    else ErrorUris(config, errors[..|errors| - 1]) + [FailedDeleteUri(config, errors[|errors| - 1].key)]
  }

  /** Sends one quiet batched delete for every URI that resolves to a key and
      returns the failures: the unresolved URIs, never sent, followed by one
      `{domain}/{key}` URI per error the store reports. */
  method DeleteMultiple(s3: S3Client, config: BucketConfiguration, uris: seq<Uri>)
    returns (sent: DeleteObjectsRequest, failed: seq<Uri>)
    ensures sent == DeleteObjectsRequest(config.bucket, true, ResolvedKeys(config.fromUrl, uris))
    ensures failed == Unresolved(config.fromUrl, uris) + ErrorUris(config, s3.deleteObjects(sent))
  {
    var deleteObjectsRequest := DeleteObjectsRequest(config.bucket, true, []);
    failed := [];
    for i := 0 to |uris|
      invariant deleteObjectsRequest == DeleteObjectsRequest(config.bucket, true, ResolvedKeys(config.fromUrl, uris[..i]))
      invariant failed == Unresolved(config.fromUrl, uris[..i])
    {
      assert uris[..i + 1][..i] == uris[..i];
      var objectInfo := config.fromUrl(uris[i]);
      if objectInfo.None? {
        failed := failed + [uris[i]];
        continue;
      }
      deleteObjectsRequest := deleteObjectsRequest.(keys := deleteObjectsRequest.keys + [objectInfo.value.key]);
    }
    assert uris[..|uris|] == uris;
    sent := deleteObjectsRequest;
    var errors := s3.deleteObjects(sent);
    ghost var unresolved := failed;
    for j := 0 to |errors|
      invariant failed == unresolved + ErrorUris(config, errors[..j])
    {
      assert errors[..j + 1][..j] == errors[..j];
      failed := failed + [FailedDeleteUri(config, errors[j].key)];
    }
    assert errors[..|errors|] == errors;
  }

  /** Every URI is either resolved to a key or reported unresolved. */
  lemma {:induction false} ResolvedUnresolvedPartition(fromUrl: Uri -> Option<ObjectInfo>, uris: seq<Uri>)
    ensures |ResolvedKeys(fromUrl, uris)| + |Unresolved(fromUrl, uris)| == |uris|
    decreases |uris|
  {
    if |uris| > 0 {
      ResolvedUnresolvedPartition(fromUrl, uris[..|uris| - 1]);
    }
  }

  /** A URI is reported unresolved exactly when it is an input the
      configuration cannot decompose. */
  lemma {:induction false} UnresolvedMembership(fromUrl: Uri -> Option<ObjectInfo>, uris: seq<Uri>, u: Uri)
    ensures u in Unresolved(fromUrl, uris) <==> u in uris && fromUrl(u).None?
    decreases |uris|
  {
    if |uris| > 0 {
      var front := uris[..|uris| - 1];
      UnresolvedMembership(fromUrl, front, u);
      assert uris == front + [uris[|uris| - 1]];
    }
  }

  /** A key is sent exactly when some input URI resolves to it. */
  lemma {:induction false} ResolvedKeysMembership(fromUrl: Uri -> Option<ObjectInfo>, uris: seq<Uri>, k: string)
    ensures k in ResolvedKeys(fromUrl, uris) <==>
              exists i :: 0 <= i < |uris| && fromUrl(uris[i]).Some? && fromUrl(uris[i]).value.key == k
    decreases |uris|
  {
    if |uris| > 0 {
      var front := uris[..|uris| - 1];
      ResolvedKeysMembership(fromUrl, front, k);
      if exists i :: 0 <= i < |uris| && fromUrl(uris[i]).Some? && fromUrl(uris[i]).value.key == k {
        var i :| 0 <= i < |uris| && fromUrl(uris[i]).Some? && fromUrl(uris[i]).value.key == k;
        if i < |uris| - 1 {
          assert front[i] == uris[i];
        }
      }
      if k in ResolvedKeys(fromUrl, front) {
        var i :| 0 <= i < |front| && fromUrl(front[i]).Some? && fromUrl(front[i]).value.key == k;
        assert uris[i] == front[i];
      }
    }
  }

  /** The failed list holds one entry per unresolved URI and one per store error. */
  lemma {:induction false} FailedCount(config: BucketConfiguration, uris: seq<Uri>, errors: seq<DeleteError>)
    ensures |Unresolved(config.fromUrl, uris) + ErrorUris(config, errors)|
            == |uris| - |ResolvedKeys(config.fromUrl, uris)| + |errors|
  {
    ResolvedUnresolvedPartition(config.fromUrl, uris);
  }

  /** When the store reports at most one error per key sent, no more URIs
      fail than were given. */
  lemma {:induction false} FailedBounded(config: BucketConfiguration, uris: seq<Uri>, errors: seq<DeleteError>)
    requires |errors| <= |ResolvedKeys(config.fromUrl, uris)|
    ensures |Unresolved(config.fromUrl, uris) + ErrorUris(config, errors)| <= |uris|
  {
    FailedCount(config, uris, errors);
  }

  /** An input URI missing from the failed list resolved, and its key was sent. */
  lemma {:induction false} NotFailedWasSent(config: BucketConfiguration, uris: seq<Uri>, errors: seq<DeleteError>, u: Uri)
    requires u in uris
    requires u !in Unresolved(config.fromUrl, uris) + ErrorUris(config, errors)
    ensures config.fromUrl(u).Some?
    ensures config.fromUrl(u).value.key in ResolvedKeys(config.fromUrl, uris)
  {
    UnresolvedMembership(config.fromUrl, uris, u);
    var i :| 0 <= i < |uris| && uris[i] == u;
    ResolvedKeysMembership(config.fromUrl, uris, config.fromUrl(u).value.key);
  }
}
