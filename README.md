# Storage blob service of BatchExplorer, in Dafny

This project models the core of BatchExplorer's `StorageBlobService`. That is the Angular service
through which the application lists, reads, deletes and uploads blobs in Azure Storage. It covers
five parts.

- **SAS-URL parsing** (`SasUrl`). The service turns a pre-signed blob URL into its four parts:
  the account URL, the container, the blob and the SAS token. It uses the case-insensitive pattern
  `storageBlobUrlRegex` and `_parseSasUrl`. The model is a hand-written matcher. It is proved
  sound and complete against a declarative statement of the pattern, `IsMatch`, under the
  semantics of JavaScript regular expressions without the `u` flag. In that mode `\w` is ASCII
  only and `.` excludes the line terminators.
- **The error path of remote calls** (`StorageCall`). `_callStorageClient` normalizes every
  storage failure into a `ServerError`. It hands the error once to the optional error callback
  and re-raises it. `uploadFile` is one such call, with a logging callback.
- **The bulk uploader** (`BulkUpload`, `StorageBlobService.UploadFiles`). `uploadFiles` uploads
  the files one after another. For each file it emits a start status and a finish status. It
  stops at the first failed upload.
- **The scoped blob cache** (`StorageBlob`). There is one cache per
  `${storageAccountId}/${container}` key, keyed by blob name. Each cache is created on first
  request. `deleteBlobIfExists` evicts the deleted blob from it.
- **Request shaping.** This covers the blob path `${blobPrefix || ""}${blobName}` used by
  `getBlobContent`, and the options of every `listBlobs` page request. The page size is always
  the service's `maxBlobPageSize`, which starts at 200.

Remote replies (upload, delete) are parameters of the model: a `Reply` that is either
`Resolved` or `Rejected`. A per-upload reply is a function of the upload's index and request.
`CloudPathUtils.join` is also a function parameter.

The blob group of the pattern at line 87 excludes `/`. So a SAS URL whose blob path has several
segments, such as `path/to/blob.txt`, is not matched, and parsing it fails
(`MultiSegmentBlobRejected`).

## Model

| member | source | states |
|---|---|---|
| SasUrl.ParseSasUrl | src/app/services/storage/storage-blob.service.ts:421-434 | the only failure of the parser as written is the `TypeError` from reading `length` of a null match; on success the URL starts with an "https://" scheme in either case |
| SasUrl.ParseSound | src/app/services/storage/storage-blob.service.ts:87 | whatever the parser returns is a match of the pattern: each group is in its character class, and the groups joined by "/", "/" and "?" give back the input |
| SasUrl.ParseComplete | src/app/services/storage/storage-blob.service.ts:421-434 | every decomposition of a string that the pattern accepts is what the parser returns |
| SasUrl.ParseErrIffNoMatch | src/app/services/storage/storage-blob.service.ts:422-424 | the parser fails exactly on the strings that no choice of groups matches |
| SasUrl.MatchIsUnique | src/app/services/storage/storage-blob.service.ts:87 | a string matches the pattern in at most one way, so the four groups are well defined |
| SasUrl.FormatRoundTrip | src/app/services/storage/storage-blob.service.ts:428-433 | groups that fit their alphabets are recovered unchanged from the URL they form |
| SasUrl.ParsedNamesHaveNoSeparators | src/app/services/storage/storage-blob.service.ts:87 | a parsed container holds no "/"; a parsed blob holds no "/" and no "?" |
| SasUrl.ParseExample | src/app/services/storage/storage-blob.service.ts:428-433 | an upper-case "HTTPS://a/c/b?t=1" splits into account URL "HTTPS://a", container "c", blob "b" and token "t=1" |
| SasUrl.MultiSegmentBlobRejected | src/app/services/storage/storage-blob.service.ts:87 | for every account URL, container and token, a blob path made of name characters and "/" that holds at least one "/" is not matched |
| SasUrl.LineTerminatorInTokenRejected | src/app/services/storage/storage-blob.service.ts:87 | a URL whose token ends in a line feed is not matched, because `.` does not match line terminators |
| SasUrl.NotAUrlThrowsTypeError | src/app/services/storage/storage-blob.service.ts:422-425 | for "not-a-url" the code as written throws the null-match `TypeError`; the corrected parser raises InvalidSasUrlError with the message `Invalid sas url "not-a-url"` |
| SasUrl.ParseSasUrlChecked | src/app/services/storage/storage-blob.service.ts:424-426 | the corrected parser fails exactly when nothing matches, and then with InvalidSasUrlError carrying the URL in its message; on success its result is a match |
| StorageCall.FromStorage | src/app/services/storage/storage-blob.service.ts:409 | the normalized error keeps the storage failure's status code and message |
| StorageCall.CallStorageClient | src/app/services/storage/storage-blob.service.ts:400-419 | a call emits exactly when its reply resolves, and then emits the reply's value; a rejection is raised as the normalized error; the callback is called once with that same error, exactly when the call was rejected and a callback exists |
| StorageCall.UploadFile | src/app/services/storage/storage-blob.service.ts:320-331 | an upload raises exactly when its reply is rejected, and then raises and logs the same normalized error, logging it once; a resolved upload emits its result and logs nothing |
| BulkUpload.Destination | src/app/services/storage/storage-blob.service.ts:359 | without a remote path, or with an empty one, a file goes to its own remote path; otherwise it goes to that path joined under the remote path |
| BulkUpload.PlannedRequests | src/app/services/storage/storage-blob.service.ts:353-360 | one `uploadFile` request per file, in file order, with the file's local path and its destination |
| BulkUpload.UploadStream | src/app/services/storage/storage-blob.service.ts:351-367 | the whole stream when the first failing upload is file k: the start and finish statuses (`Started`, `Finished`) of every file before k, then file k's start status; 2k statuses when none fails, 2k+1 otherwise |
| BulkUpload.Progress | src/app/services/storage/storage-blob.service.ts:353-368 | the statuses of fully uploaded files number two per file |
| BulkUpload.FirstFailure | src/app/services/storage/storage-blob.service.ts:353-368 | the index where the sequential stream stops: every earlier upload resolved, and the upload at that index (if any) was rejected |
| BulkUpload.ProgressLayout | src/app/services/storage/storage-blob.service.ts:354-365 | file i's start status sits at position 2i and its finish status at 2i+1 |
| BulkUpload.StreamAt | src/app/services/storage/storage-blob.service.ts:351-366 | position j of the stream reports (j+1)/2 files uploaded out of the total, for file j/2 |
| BulkUpload.AllUploadedStream | src/app/services/storage/storage-blob.service.ts:345-371 | when every upload succeeds the stream has 2n statuses, and the last reports n of n uploaded for the last file |
| BulkUpload.FailedUploadStream | src/app/services/storage/storage-blob.service.ts:345-371 | when file k fails the stream has 2k+1 statuses: the successful prefix, then file k's start status; nothing reports more than k uploaded |
| BulkUpload.UploadedMonotone | src/app/services/storage/storage-blob.service.ts:351-366 | the uploaded count never decreases along the stream, never exceeds the total, and every status carries the total |
| StorageBlob.ScopeKey | src/app/services/storage/storage-blob.service.ts:102-104 | a scope key is the account id, then "/", then the container as a template literal renders it |
| StorageBlob.ScopeKeyInjective | src/app/services/storage/storage-blob.service.ts:102-104 | for account ids without "/", equal keys mean the same account and the same rendered container |
| StorageBlob.ScopeKeyInjectiveByContainer | src/app/services/storage/storage-blob.service.ts:102-104 | for rendered containers without "/", equal keys mean the same account and the same rendered container, whatever the account ids hold |
| StorageBlob.ScopeKeyCollision | src/app/services/storage/storage-blob.service.ts:102-104 | with a "/" in the account id, two different scopes share one cache key |
| StorageBlob.UndefinedContainerCollision | src/app/services/storage/storage-blob.service.ts:102-104 | an absent container shares its cache with a container named "undefined" |
| StorageBlob.WithScope | src/app/services/storage/storage-blob.service.ts:143-145 | requesting a scope adds only its key; an existing cache, and every other cache, is kept |
| StorageBlob.WithScopeIdempotent | src/app/services/storage/storage-blob.service.ts:143-145 | requesting a scope twice is the same as requesting it once |
| StorageBlob.AfterDelete | src/app/services/storage/storage-blob.service.ts:274-281 | after a delete, the scope exists; other scopes are unchanged; the scope loses exactly the blob's name if the result was truthy, and keeps every remaining entry's value |
| StorageBlob.FalsyDeleteKeepsLookups | src/app/services/storage/storage-blob.service.ts:276-280 | a falsy delete result changes no lookup in any scope |
| StorageBlob.TruthyDeleteEvictsOne | src/app/services/storage/storage-blob.service.ts:276-280 | a truthy delete result removes the deleted blob from its scope and changes no other lookup |
| StorageBlob.DeleteLeavesOtherContainers | src/app/services/storage/storage-blob.service.ts:268-283 | a delete in one container of an account leaves the cache of another container untouched |
| StorageBlob.BlobPath | src/app/services/storage/storage-blob.service.ts:228-236 | the blob path is the name alone without a prefix, and the prefix followed by the name with one |
| StorageBlob.GetBlobContent | src/app/services/storage/storage-blob.service.ts:213-240 | content and download read the same blob at the prefixed path; properties fetch the blob with name and prefix kept apart; the loader is named after the blob and grouped by the prefix |
| StorageBlob.UploadToSasUrl | src/app/services/storage/storage-blob.service.ts:298-313 | the call throws the parser's null-match error before any upload exactly when the URL does not match; otherwise the upload targets the matched groups, and the subject emits its result or raises its normalized error |
| StorageBlob.StorageBlobService.constructor | src/app/services/storage/storage-blob.service.ts:99-104 | the blob page size starts at 200 and the container page size at 100, with no scope caches |
| StorageBlob.StorageBlobService.GetBlobFileCache | src/app/services/storage/storage-blob.service.ts:143-145 | returns the scope's cache, creating it empty on the first request only, and keeps every item under its own name |
| StorageBlob.StorageBlobService.CacheItem | src/app/services/storage/storage-blob.service.ts:102-104 | an item stored in a scope sits under its name, replacing what was there, and changes no other scope |
| StorageBlob.StorageBlobService.DeleteBlobIfExists | src/app/services/storage/storage-blob.service.ts:268-283 | a resolved delete updates the caches as AfterDelete does and emits once with no callback call; after a truthy result no cached item of the scope carries the deleted name; a rejected delete leaves the caches alone and raises the normalized error without a callback |
| StorageBlob.StorageBlobService.ListBlobsRequest | src/app/services/storage/storage-blob.service.ts:122-138 | a page request carries the caller's folder, recursive flag and limit (as page count), the container, the continuation token, and the service's own page size |
| StorageBlob.StorageBlobService.UploadFiles | src/app/services/storage/storage-blob.service.ts:345-371 | the statuses emitted are the stream up to the first failed upload; the requests made are the planned ones up to and including that upload; the stream ends with that upload's normalized error exactly when one fails, and logs it once |

## Left out

- `list`, `listView`, `navigate`, `get`, `blobView`: these only hand parameters to the generic list and entity getters and views, whose code is not part of this model. What the list getter sends per page is modelled by `ListBlobsRequest`.
- `saveBlobToFile` and `generateSharedAccessBlobUrl`: single delegations to the storage client through `_callStorageClient`. Their error path is `CallStorageClient`; the client calls themselves are outside the model.
- `hasAutoStorage`, `hasArmAutoStorage`, `clearCurrentStorageKeys`: these forward to the storage client service, which is not part of this model.
- Paging of listings: continuation-token handling and the page loop live in the list getter, which is not part of this model.
- The RxJS machinery (`share`, `take(1)`, `enterZone`, `AsyncSubject`), `NgZone`, laziness and multicasting of observables: each call is modelled by the single outcome its observable delivers.
- `storageClient.getFor`: a failure to obtain a client is one more rejected `Reply`.
- The log output of error callbacks: only the errors they are given are recorded.
- `createBlobClient` and the block-blob upload in `uploadToSasUrl`: the `upload` parameter stands for both. A throw from `createBlobClient` itself happens synchronously, outside the promise chain, and escapes `uploadToSasUrl` without reaching the subject; the model cannot represent that path and renders every client failure as a rejected upload normalized by `FromStorage`.
- `ServerError.fromStorage` is reduced to the status code and the message it keeps.
- `TargetedDataCache` and `DataCache` internals: a scope cache is a map from blob name to file. Item writes by the getters are modelled by `CacheItem`; expiry and change notifications are left out.
- `CloudPathUtils.join` is a parameter, so the joined blob name is not computed.
- Strings are sequences of Unicode scalar values (`char`), not of UTF-16 code units. A character outside the Basic Multilingual Plane is one `char` here but two code units in the source, so lengths and positions in a token holding one differ. Which URLs match does not change: non-ASCII characters can only occur in the token, where `.` accepts both halves of a surrogate pair. Lone surrogate halves cannot be represented.
- `StorageBlob.StorageBlobService.DeleteBlobIfExists`: the `options` argument passed to the remote delete is left out, since it does not affect the cache.
- `StorageBlob.StorageBlobService.UploadFiles`: the model runs the uploads to completion and returns what the stream emitted; cancellation by an unsubscribing caller is not modelled.

## Findings

| source | as written | input that shows it | evidently intended | confidence | as-written member | corrected member |
|---|---|---|---|---|---|---|
| src/app/services/storage/storage-blob.service.ts:422-426 | `exec` returns null when the URL does not match, so the length test throws a `TypeError`; the `InvalidSasUrlError` branch can never run, because a match always has five entries | `"not-a-url"` | a URL that does not match raises `InvalidSasUrlError` with the message `Invalid sas url "<url>"` | high, not executed | SasUrl.NotAUrlThrowsTypeError | SasUrl.ParseSasUrlChecked |
