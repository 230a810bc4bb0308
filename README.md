# MyServe storage client and cache control, in Dafny

This project models two parts of the MyServe backend and proves properties of them.

- **The S3 object-storage client** (`S3StorageClient`), in module `Storage` (`Storage.dfy`). It covers:
  - the object-key construction: path segments joined with `/`, then `.` and the first MIME extension when a media type is declared;
  - the put request: bucket, key, stream, content type with the `application/octet-stream` fallback, and the ACL;
  - the URL an upload returns;
  - lazy bucket provisioning;
  - pre-signed URL requests;
  - the batched delete that reports partial failures.
- **`CacheControl`**, in module `CommonImpl` (`CacheControl.dfy`). It is a class with a growing set of cache-expiry keys and one endpoint cache key.
- **Module `Strings`** (`Strings.dfy`) gives .NET's `string.Join`, ordinal `EndsWith`, `char.IsWhiteSpace`, `TrimStart` and `TrimEnd`. It also has `Split`, the inverse of `Join`, and round-trip lemmas in both directions.

How the client is modelled:

- Everything the client asks of code outside it is passed in as a parameter:
  - the store's answers are the fields of `S3Client`: bucket existence, bucket creation, put, endpoint derivation, batched delete and signing;
  - `AmazonS3Util.ValidateV2Bucket` and `MimeUtility.GetExtensions` are the fields of `SdkUtilities`;
  - `BucketCustomConfiguration.FromUrl` is the `fromUrl` field of `BucketConfiguration`.
- `Upload`, `EnsureBucketExists` and `GeneratePreSignedUrl` return an `Outcome`. It holds the result (`Ok` or an `Error`) and the store calls issued, in order. This is how "fails before any store call" and "no put is issued" are stated.
- `DeleteMultiple` is a method with the source's two loops. It returns the request it sent and the failed list.

How `CacheControl` is modelled:

- It is a class with the source's two fields.
- Two ghost sets record which expiry keys were added as wildcards and which as exact keys. `Valid()` says the expiry set is their union and that every wildcard key ends in `-*`.
- Three more ghost fields record whether an endpoint key has been framed, and from which module and keys. `Valid()` ties the endpoint key to them.
- `ExpiryKeys()` and `EndpointCacheKey()` are the read-only accessors. The mutators' contracts are stated in terms of the fields they return.

Where the code and the design description differ, the model follows the code:

- The delete result is a list in input order, followed by the store's error order. It is not a set, and duplicates are kept.
- Path segments are not checked for being non-empty.
- A URI reported for a failed delete is `{domain}/{key}`, without the bucket. `FailedUriDiffersFromUploadUrl` proves that, under a custom domain, such a URI never equals the URL the upload returned for the same key.
- When no custom domain is configured, the domain is interpolated as the empty string, which gives `/{key}`.
- `DeleteMultipleAsync` keeps only the key that `FromUrl` finds and drops the bucket it finds (S3StorageClient.cs:111). The model does the same: `ResolvedKeys` ignores `ObjectInfo.bucket`. A URI that names another bucket therefore sends its key for deletion in the configured bucket.

## Model

| member | source | states |
|---|---|---|
| Storage.EnsureBucketExists | MyServe.Backend.App.Infrastructure/Client/Storage/S3StorageClient.cs:140-161 | An invalid bucket name gives the argument error with no store call. An existing bucket gives true after only the existence check. A missing bucket gets exactly one create request, and the result is true iff its status is OK. A create is issued only when the bucket was reported absent. |
| Storage.CreateBucketRequest | MyServe.Backend.App.Infrastructure/Client/Storage/S3StorageClient.cs:149-154 | The create request names the bucket, uses the client region and has a public-read ACL. |
| Storage.GetAndSetFileNameWithExtensions | MyServe.Backend.App.Infrastructure/Client/Storage/S3StorageClient.cs:65-86 | With a media type and a non-empty extension list, the key becomes `key + "." + extensions[0]`. With no media type, a null list or an empty list, the key is unchanged. The original key is always a prefix. |
| Storage.MediaTypeOrDefault | MyServe.Backend.App.Infrastructure/Client/Storage/S3StorageClient.cs:54-57 | The declared media type, or `application/octet-stream` when none is declared. |
| Storage.ConstructPutObjectRequest | MyServe.Backend.App.Infrastructure/Client/Storage/S3StorageClient.cs:46-63 | The request carries the given bucket, key and stream. Its content type is the declared or default media type, and the `Content-Type` metadata has the same value. The ACL is PublicRead iff `publicRead`. |
| Storage.UploadUrl | MyServe.Backend.App.Infrastructure/Client/Storage/S3StorageClient.cs:36-43 | With the custom domain null or whitespace, the URL is endpoint + key. Otherwise it is `domain/bucket/key`. Either way it ends with the key. |
| Storage.Upload | MyServe.Backend.App.Infrastructure/Client/Storage/S3StorageClient.cs:18-44 | Fewer than two segments give the `filePath` argument error with no store call. An invalid bucket gives the argument error. Provisioning that reports false gives `FailedBucketGeneration(bucket)`. On every error path with at least two segments, the calls issued are exactly those of `EnsureBucketExists`, so an invalid bucket name fails with no store call. No error path issues a put. Success happens iff provisioning reports true; then exactly one put of the constructed request follows the provisioning calls. A null response gives no URL; otherwise the URL is `UploadUrl`. |
| Storage.IsNullOrWhiteSpace | MyServe.Backend.App.Infrastructure/Client/Storage/S3StorageClient.cs:37 | True iff the custom domain is null, or nothing is left of it once leading white space is dropped. |
| Storage.ParseHttpVerb | MyServe.Backend.App.Infrastructure/Client/Storage/S3StorageClient.cs:132 | A parsed verb's name is the given name. No verb is returned iff no verb has that name. |
| Storage.ParseVerbAction | MyServe.Backend.App.Infrastructure/Client/Storage/S3StorageClient.cs:132 | An empty or white-space action gives "Must specify valid information for parsing in the string." for parameter `value`. Otherwise the action, trimmed at both ends, must be a verb name; if it is not, the not-found error quotes the action without its leading white space. It succeeds iff the trimmed action names a verb, and then gives that verb. |
| Storage.ParseVerbName | MyServe.Backend.App.Infrastructure/Client/Storage/S3StorageClient.cs:132 | Every verb's name parses back to that verb. |
| Storage.GeneratePreSignedUrl | MyServe.Backend.App.Infrastructure/Client/Storage/S3StorageClient.cs:126-138 | An action that does not parse gives the parse error from `ParseVerbAction`, with no store call. Otherwise exactly one signing call is made for the configured bucket, with the given expiry, the parsed verb and the `/`-joined key, and the result is the store's URL. |
| Storage.FailedDeleteUri | MyServe.Backend.App.Infrastructure/Client/Storage/S3StorageClient.cs:121 | The URI reported for a failed key starts with the custom-domain text (empty when null) and ends with "/" and the key, with nothing else between them. |
| Storage.ErrorUris | MyServe.Backend.App.Infrastructure/Client/Storage/S3StorageClient.cs:118-122 | For each store error, in order, one `{domain}/{key}` URI. |
| Storage.DeleteMultiple | MyServe.Backend.App.Infrastructure/Client/Storage/S3StorageClient.cs:93-124 | The sent request is quiet, for the configured bucket, and holds exactly the resolved keys in input order. The failed list is the unresolved URIs in input order, followed by one URI per reported error. |
| Storage.ResolvedUnresolvedPartition | MyServe.Backend.App.Infrastructure/Client/Storage/S3StorageClient.cs:101-113 | Each input URI is counted once: as a resolved key or as an unresolved URI. |
| Storage.UnresolvedMembership | MyServe.Backend.App.Infrastructure/Client/Storage/S3StorageClient.cs:103-108 | A URI is reported unresolved iff it is an input that `FromUrl` cannot decompose. |
| Storage.ResolvedKeysMembership | MyServe.Backend.App.Infrastructure/Client/Storage/S3StorageClient.cs:101-113 | A key is sent iff some input URI resolves to it. |
| Storage.FailedCount | MyServe.Backend.App.Infrastructure/Client/Storage/S3StorageClient.cs:100-123 | The number of failed entries is the number of unresolved URIs plus the number of store errors. |
| Storage.FailedBounded | MyServe.Backend.App.Infrastructure/Client/Storage/S3StorageClient.cs:115-123 | When the store reports at most one error per sent key, no more URIs fail than were given. |
| Storage.NotFailedWasSent | MyServe.Backend.App.Infrastructure/Client/Storage/S3StorageClient.cs:100-123 | An input URI that is not in the failed list was resolved, and its key was in the sent request. |
| Storage.FailedUriDiffersFromUploadUrl | MyServe.Backend.App.Infrastructure/Client/Storage/S3StorageClient.cs:43 | Under a custom domain, the URI reported for a key that failed to delete differs from the upload URL for that key. |
| Strings.Join | MyServe.Backend.App.Infrastructure/Client/Storage/S3StorageClient.cs:26 | `string.Join` as used for object keys (also at S3StorageClient.cs:133 and CacheControl.cs:14, 25 and 33). An empty list joins to "". Otherwise the first part leads, and the length is the parts' total length plus one separator per neighbouring pair. |
| Strings.TrimStart | MyServe.Backend.App.Infrastructure/Client/Storage/S3StorageClient.cs:132 | The result is a suffix of the input, and what was dropped is all white space. The result does not start with white space, and it is empty iff the input is all white space. |
| Strings.TrimEnd | MyServe.Backend.App.Infrastructure/Client/Storage/S3StorageClient.cs:132 | The result is a prefix of the input, and what was dropped is all white space. The result does not end with white space. |
| Strings.JoinSplit | MyServe.Backend.App.Infrastructure/Client/Storage/S3StorageClient.cs:26 | Joining what was split on one character gives the original string back. |
| Strings.SplitJoin | MyServe.Backend.App.Infrastructure/Client/Storage/S3StorageClient.cs:26 | If no segment contains the separator, splitting the joined key gives the segments back, so the join loses nothing. |
| Strings.JoinCons | MyServe.Backend.App.Common/Impl/CacheControl.cs:33 | Joining a head in front of a non-empty list adds exactly one separator after the head. |
| CommonImpl.WildcardKey | MyServe.Backend.App.Common/Impl/CacheControl.cs:14-18 | The wildcard form ends in `-*`. It is the joined key or the joined key + `-*`, and it is the joined key itself when that already ends in `-*`. |
| CommonImpl.WildcardKeyIdempotent | MyServe.Backend.App.Common/Impl/CacheControl.cs:15-18 | Taking the wildcard form twice is the same as taking it once, so the suffix is never doubled. |
| CommonImpl.EndpointKeyIsJoin | MyServe.Backend.App.Common/Impl/CacheControl.cs:33 | With at least one key, `module + "-" + join("-", keys)` is the `-`-join of the module and the keys. |
| CommonImpl.CacheControl.constructor | MyServe.Backend.App.Common/Impl/CacheControl.cs:7-8 | A fresh instance is valid, has no expiry keys and an empty endpoint key, and is not endpoint-cached. |
| CommonImpl.CacheControl.ExpiryKeys | MyServe.Backend.App.Common/Impl/CacheControl.cs:10 | The read-only expiry set is the wildcard keys plus the exact keys. Every key in it is an exact key or ends in `-*`. |
| CommonImpl.CacheControl.EndpointCacheKey | MyServe.Backend.App.Common/Impl/CacheControl.cs:29 | The endpoint key is empty until one is framed. After that it is the last framed module, "-" and the joined keys. |
| CommonImpl.CacheControl.IsEndpointCached | MyServe.Backend.App.Common/Impl/CacheControl.cs:36 | Cached iff the endpoint key is non-empty, which is exactly when a key has been framed. |
| CommonImpl.CacheControl.AddKeyToExpire | MyServe.Backend.App.Common/Impl/CacheControl.cs:12-21 | The new set is the old set with `WildcardKey(join("-", keys))` added, recorded as a wildcard key, so the invariant that wildcard keys end in `-*` is kept. The exact keys and the endpoint key are unchanged. |
| CommonImpl.CacheControl.AddExactKeyToExpire | MyServe.Backend.App.Common/Impl/CacheControl.cs:23-27 | The new set is the old set with `join("-", keys)` added as it is. The wildcard keys and the endpoint key are unchanged. |
| CommonImpl.CacheControl.FrameEndpointCacheKey | MyServe.Backend.App.Common/Impl/CacheControl.cs:31-34 | The endpoint key becomes `module + "-" + join("-", keys)` and is recorded as framed from that module and those keys, which is the `-`-join of module and keys when there is at least one key. The instance is then endpoint-cached, and the expiry keys are unchanged. |

## Left out

- `DeleteAsync` only throws `NotImplementedException`; it has no behaviour to model.
- `FileService` and `FilesS3StorageClient` are not part of this model. The first is a pass-through to a repository; the second is dependency-injection wiring of the client.
- Asynchrony is not modelled. Each call is treated as one step, so the check-then-create race between concurrent `EnsureBucketExistsAsync` calls is not represented.
- All logging is left out.
- Stream contents are left out. A stream is an opaque handle, and the model only states that it is passed to the put request unchanged.
- `System.Uri` construction and validation are left out, and URIs are strings. What `new Uri` does with the `/{key}` built when no custom domain is configured depends on the platform, and the model assumes nothing about it.
- The presigned-URL expiry is an opaque integer passed through unchanged.
- Exceptions raised by the SDK's store calls are not modelled. The model assumes that every store call answers.
- Storage.DeleteMultiple: models the code as written, on the assumption that `DeleteObjectsAsync` returns its per-key errors in `DeleteErrors` (S3StorageClient.cs:118-122). The SDK may instead throw when a key fails, or leave that list null. Neither case is modelled, so the model does not promise what happens to the failed list then. `Storage.ErrorUris` rests on the same assumption.
- The MIME table behind `MimeUtility.GetExtensions`, the bucket naming rules behind `ValidateV2Bucket`, the endpoint derivation and the URL decomposition rule are all oracle parameters.
- Storage.ParseVerbAction: models `Enum.Parse`'s trimming, its empty-input error and the exact member names GET, HEAD, PUT and DELETE. It does not model numeric strings or comma-separated names, which `Enum.Parse` also accepts. `ArgumentNullException` for a null action is not modelled.
- CommonImpl.WildcardKey: uses an ordinal suffix test, while .NET's `string.EndsWith(string)` compares culture-sensitively.
- CommonImpl.CacheControl.AddKeyToExpire: its body makes the same ordinal suffix test (CacheControl.cs:15), so it shares that deviation from the culture-sensitive `EndsWith`.
- Null elements in the `params string[]` arrays are not modelled (`string.Join` renders them as empty). Segments are always strings.
- `ExpiryKeys` returns the live `HashSet` as a read-only view. The model returns the set's value, so later changes seen through an earlier reference are not captured.
