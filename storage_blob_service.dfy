/**
 * `StorageBlobService`: the per-scope blob cache with its eviction on delete,
 * the bulk uploader, the upload to a pre-signed URL, the blob path used to
 * read a blob's content, and the options it lists blobs with.
 */
module StorageBlob {
  import opened Wrappers
  import opened StorageCall
  import opened SasUrl
  import opened BulkUpload

  /** A blob's metadata as the cache holds it; its identity is `name`. */
  datatype File = File(name: string, isDirectory: bool, contentLength: nat)

  /** The scope of a listing: an account and an optional container. */
  datatype ListBlobParams = ListBlobParams(storageAccountId: string, container: Option<string>)

  /** The parameters of a single-blob fetch. */
  datatype BlobFileParams = BlobFileParams(
    storageAccountId: string,
    container: Option<string>,
    blobName: Option<string>,
    blobPrefix: Option<string>)

  /** The options a caller lists blobs with (the `original` options the list getter keeps). */
  datatype ListOptions = ListOptions(folder: Option<string>, recursive: Option<bool>, limit: Option<int>)

  /** The options handed to the storage client's `listBlobs`. */
  datatype ListBlobOptions = ListBlobOptions(
    folder: Option<string>,
    recursive: Option<bool>,
    maxPages: Option<int>,
    maxPageSize: int)

  /** One `listBlobs` call: container, options and the continuation token of the page. */
  datatype ListBlobsCall = ListBlobsCall(
    container: Option<string>,
    options: ListBlobOptions,
    continuationToken: Option<string>)

  /** A remote read of one blob, for its content or for a download. */
  datatype BlobRead = BlobRead(storageAccountId: string, container: string, path: string)

  /** The file loader `getBlobContent` builds: where each of its accessors reads from. */
  datatype BlobLoader = BlobLoader(
    filename: string,
    source: string,
    groupId: Option<string>,
    properties: BlobFileParams,
    content: BlobRead,
    download: BlobRead)

  /** What `uploadToSasUrl` does: throw before any client exists, or upload and report. */
  datatype SasUpload<+T> =
    | ThrownBeforeUpload(error: ParseError)
    | UploadStarted(target: CreateBlobParams, outcome: Outcome<T>)

  type ScopeCaches = map<string, map<string, File>>

  /** How a template literal renders an optional string: an absent one reads "undefined". */
  function Interpolate(s: Option<string>): string {
    match s
    case Some(v) => v
    case None => "undefined"
  }

  /** The key of a scope's cache: `${storageAccountId}/${container}`. */
  function ScopeKey(params: ListBlobParams): (key: string)
    ensures |key| == |params.storageAccountId| + 1 + |Interpolate(params.container)|
    ensures key[..|params.storageAccountId|] == params.storageAccountId
    ensures key[|params.storageAccountId|] == '/'
    ensures key[|params.storageAccountId| + 1..] == Interpolate(params.container)
  {
    params.storageAccountId + "/" + Interpolate(params.container)
  }

  /** The cache of a scope; a scope never requested reads as empty. */
  function Scope(caches: ScopeCaches, key: string): map<string, File> {
    if key in caches then caches[key] else map[]
  }

  /** The cache registry after the cache of `key` is requested: created empty when absent. */
  function WithScope(caches: ScopeCaches, key: string): (r: ScopeCaches)
    ensures r.Keys == caches.Keys + {key}
    ensures r[key] == Scope(caches, key)
    ensures forall k :: k in caches ==> r[k] == caches[k]
  {
    if key in caches then caches else caches[key := map[]]
  }

  /**
   * The cache registry after a delete of `blob` in scope `key` whose remote
   * result was `deleted` (truthy): the scope's cache is requested, then loses
   * `blob` when the remote store reports the deletion.
   */
  function AfterDelete(caches: ScopeCaches, key: string, blob: string, deleted: bool): (r: ScopeCaches)
    ensures r.Keys == caches.Keys + {key}
    ensures forall k :: k in caches && k != key ==> r[k] == caches[k]
    ensures r[key].Keys == if deleted then Scope(caches, key).Keys - {blob} else Scope(caches, key).Keys
    ensures forall n :: n in r[key] ==> r[key][n] == Scope(caches, key)[n]
  {
    var scope := Scope(caches, key);
    caches[key := if deleted then scope - {blob} else scope]
  }

  /** The path of a blob under an optional prefix: `${blobPrefix || ""}${blobName}`. */
  function BlobPath(blobPrefix: Option<string>, blobName: string): (path: string)
    ensures blobPrefix.None? ==> path == blobName
    ensures blobPrefix.Some? ==> path == blobPrefix.value + blobName
  {
    match blobPrefix
    case Some(p) => p + blobName
    case None => blobName
  }

  /**
   * `getBlobContent`: a loader whose properties come from a blob fetch with
   * the name and prefix kept apart, and whose content and download both read
   * the blob at the prefixed path.
   */
  function GetBlobContent(storageAccountId: string, container: string, blobName: string, blobPrefix: Option<string>)
    : (l: BlobLoader)
    ensures l.content == l.download
    ensures l.content == BlobRead(storageAccountId, container, BlobPath(blobPrefix, blobName))
    ensures l.filename == blobName && l.source == "blob" && l.groupId == blobPrefix
    ensures l.properties == BlobFileParams(storageAccountId, Some(container), Some(blobName), blobPrefix)
  {
    var read := BlobRead(storageAccountId, container, BlobPath(blobPrefix, blobName));
    BlobLoader(blobName, "blob", blobPrefix,
      BlobFileParams(storageAccountId, Some(container), Some(blobName), blobPrefix), read, read)
  }

  /**
   * `uploadToSasUrl`: the URL is parsed first, so a URL the pattern does not
   * match throws (the parser's null-match error) before any blob client is
   * created; otherwise the upload's reply is what the returned subject
   * reports, normalized when it failed. `upload` stands for creating the
   * block blob client and uploading the file.
   */
  function UploadToSasUrl<T>(sasUrl: string, filePath: string, upload: (CreateBlobParams, string) -> Reply<T>)
    : (r: SasUpload<T>)
    ensures r.ThrownBeforeUpload? <==> forall p :: !IsMatch(sasUrl, p)
    ensures r.ThrownBeforeUpload? ==> r.error == MatchIsNull
    ensures r.UploadStarted? ==> IsMatch(sasUrl, r.target)
    ensures r.UploadStarted? ==> r.outcome == match upload(r.target, filePath)
      case Resolved(v) => Emitted(v)
      case Rejected(f) => Raised(FromStorage(f))
  {
    ParseErrIffNoMatch(sasUrl);
    match ParseSasUrl(sasUrl)
    case Err(e) => ThrownBeforeUpload(e)
    case Ok(p) =>
      ParseSound(sasUrl);
      var outcome := match upload(p, filePath)
        case Resolved(v) => Emitted(v)
        case Rejected(f) => Raised(FromStorage(f));
      UploadStarted(p, outcome)
  }

  class StorageBlobService {
    /** The page size every blob listing request asks for. */
    var maxBlobPageSize: int
    var maxContainerPageSize: int
    /** `_blobListCache`: scope key to that scope's cache, blob name to metadata. */
    var blobListCache: ScopeCaches

    /** Every cached item sits under its own name, the key the caches are built with. */
    ghost predicate Valid()
      reads this
    {
      forall key, name :: key in blobListCache && name in blobListCache[key] ==>
        blobListCache[key][name].name == name
    }

    constructor ()
      ensures Valid()
      ensures maxBlobPageSize == 200 && maxContainerPageSize == 100
      ensures blobListCache == map[]
    {
      maxBlobPageSize := 200;
      maxContainerPageSize := 100;
      blobListCache := map[];
    }

    /** The cache of a scope, created empty the first time the scope is requested. */
    method GetBlobFileCache(params: ListBlobParams) returns (cache: map<string, File>)
      requires Valid()
      modifies this`blobListCache
      ensures Valid()
      ensures blobListCache == WithScope(old(blobListCache), ScopeKey(params))
      ensures ScopeKey(params) in old(blobListCache) ==> blobListCache == old(blobListCache)
      ensures cache == blobListCache[ScopeKey(params)]
    {
      var key := ScopeKey(params);
      if key !in blobListCache {
        blobListCache := blobListCache[key := map[]];
      }
      cache := blobListCache[key];
    }

    /**
     * A getter storing a fetched item in its scope's cache: keyed by its name,
     * replacing what was cached under that name.
     */
    method CacheItem(params: ListBlobParams, file: File)
      requires Valid()
      modifies this`blobListCache
      ensures Valid()
      ensures blobListCache == old(blobListCache)[ScopeKey(params) := Scope(old(blobListCache), ScopeKey(params))[file.name := file]]
    {
      var scope := GetBlobFileCache(params);
      blobListCache := blobListCache[ScopeKey(params) := scope[file.name := file]];
    }

    /**
     * `deleteBlobIfExists`. `reply` is the remote delete's result: its truthiness
     * when it resolved. After a resolved delete the scope's cache is requested
     * and, when the result is truthy, loses `blob`; no other name and no other
     * scope changes. A rejected delete leaves every cache alone and raises the
     * normalized error.
     */
    method DeleteBlobIfExists(storageAccountId: string, container: string, blob: string, reply: Reply<bool>)
      returns (r: CallResult<()>)
      requires Valid()
      modifies this`blobListCache
      ensures Valid()
      ensures reply.Rejected? ==> blobListCache == old(blobListCache)
      ensures reply.Resolved? ==>
                blobListCache == AfterDelete(old(blobListCache), ScopeKey(ListBlobParams(storageAccountId, Some(container))), blob, reply.value)
      ensures reply.Resolved? && reply.value ==>
                var scope := blobListCache[ScopeKey(ListBlobParams(storageAccountId, Some(container)))];
                forall n :: n in scope ==> scope[n].name != blob
      ensures r.outcome.Emitted? <==> reply.Resolved?
      ensures reply.Resolved? ==> r == CallResult(Emitted(()), [])
      ensures reply.Rejected? ==> r == CallResult(Raised(FromStorage(reply.failure)), [])
    {
      match reply {
        case Rejected(f) =>
          r := CallStorageClient(Rejected(f), false);
        case Resolved(deleted) =>
          var params := ListBlobParams(storageAccountId, Some(container));
          var scope := GetBlobFileCache(params);
          if deleted {
            blobListCache := blobListCache[ScopeKey(params) := scope - {blob}];
          }
          r := CallStorageClient(Resolved(()), false);
      }
    }

    /**
     * The `listBlobs` call the list getter makes for a page: the caller's
     * folder, recursive flag and limit (as the page count), and always the
     * service's own page size.
     */
    function ListBlobsRequest(params: ListBlobParams, original: ListOptions, continuationToken: Option<string>)
      : (call: ListBlobsCall)
      reads this
      ensures call.container == params.container && call.continuationToken == continuationToken
      ensures call.options.folder == original.folder && call.options.recursive == original.recursive
      ensures call.options.maxPages == original.limit
      ensures call.options.maxPageSize == maxBlobPageSize
    {
      ListBlobsCall(
        params.container,
        ListBlobOptions(original.folder, original.recursive, original.limit, maxBlobPageSize),
        continuationToken)
    }

    /**
     * `uploadFiles`: uploads `files` one after the other and returns the
     * progress statuses emitted, the `uploadFile` calls made, the error the
     * stream ended with, and the errors `uploadFile` logged.
     */
    method UploadFiles(
      storageAccountId: string, container: string, files: seq<FileUpload>, remotePath: Option<string>,
      join: (string, string) -> string, upload: (nat, UploadRequest) -> Reply<()>)
      returns (statuses: seq<BulkUploadStatus>, requests: seq<UploadRequest>,
               error: Option<ServerError>, logged: seq<ServerError>)
      ensures var reqs := PlannedRequests(storageAccountId, container, files, remotePath, join);
        var k := FirstFailure(reqs, upload, 0);
        && statuses == UploadStream(files, k)
        && requests == reqs[..if k == |files| then k else k + 1]
        && (error.None? <==> k == |files|)
        && (k < |files| ==> error == Some(FromStorage(upload(k, reqs[k]).failure)))
        && logged == (if k < |files| then [error.value] else [])
    {
      ghost var reqs := PlannedRequests(storageAccountId, container, files, remotePath, join);
      var n := |files|;
      statuses, requests, error, logged := [], [], None, [];
      var i := 0;
      while i < n
        invariant 0 <= i <= n
        invariant statuses == Progress(files, i)
        invariant requests == reqs[..i]
        invariant forall j :: 0 <= j < i ==> upload(j, reqs[j]).Resolved?
      {
        statuses := statuses + [Started(files, i)];
        var request := UploadRequest(storageAccountId, container, files[i].localPath,
                                     Destination(remotePath, files[i], join));
        requests := requests + [request];
        var call := UploadFile(upload(i, request));
        if call.outcome.Raised? {
          error := Some(call.outcome.error);
          logged := call.callbackCalls;
          FirstFailureIs(reqs, upload, i);
          return;
        }
        statuses := statuses + [Finished(files, i)];
        i := i + 1;
      }
      FirstFailureIs(reqs, upload, n);
    }
  }

  // ---------------------------------------------------------------------------
  // Lemmas

  /** The index of the first "/" in `s`, or `|s|` when there is none. */
  function SlashIndex(s: string): (i: nat)
    ensures i <= |s|
    ensures forall j :: 0 <= j < i ==> s[j] != '/'
    ensures i < |s| ==> s[i] == '/'
  {
    if s == [] then 0 else if s[0] == '/' then 0 else 1 + SlashIndex(s[1..])
  }

  /** The first "/" of a scope key is the separator, when the account id holds none. */
  lemma SlashIndexOfKey(p: ListBlobParams)
    requires '/' !in p.storageAccountId
    ensures SlashIndex(ScopeKey(p)) == |p.storageAccountId|
  {
    var key, a := ScopeKey(p), p.storageAccountId;
    var i := SlashIndex(key);
    forall j | 0 <= j < |a| ensures key[j] != '/' {
      assert key[j] == a[j];
    }
    assert key[|a|] == '/';
  }

  /**
   * When account ids hold no "/", the scope key determines the account and
   * the rendered container: different scopes never share a cache.
   */
  lemma ScopeKeyInjective(p: ListBlobParams, q: ListBlobParams)
    requires '/' !in p.storageAccountId && '/' !in q.storageAccountId
    requires ScopeKey(p) == ScopeKey(q)
    ensures p.storageAccountId == q.storageAccountId
    ensures Interpolate(p.container) == Interpolate(q.container)
  {
    SlashIndexOfKey(p);
    SlashIndexOfKey(q);
  }

  /** The index of the last "/" in `s`, or -1 when there is none. */
  function LastSlashIndex(s: string): (i: int)
    ensures -1 <= i < |s|
    ensures 0 <= i ==> s[i] == '/'
    ensures forall j :: i < j < |s| ==> s[j] != '/'
  {
    if s == [] then -1 else if s[|s| - 1] == '/' then |s| - 1 else LastSlashIndex(s[..|s| - 1])
  }

  /** The last "/" of a scope key is the separator, when the rendered container holds none. */
  lemma LastSlashIndexOfKey(p: ListBlobParams)
    requires '/' !in Interpolate(p.container)
    ensures LastSlashIndex(ScopeKey(p)) == |p.storageAccountId|
  {
    var key, a, c := ScopeKey(p), p.storageAccountId, Interpolate(p.container);
    forall j | |a| < j < |key| ensures key[j] != '/' {
      assert key[j] == key[|a| + 1..][j - |a| - 1] == c[j - |a| - 1];
    }
    assert key[|a|] == '/';
  }

  /**
   * When rendered containers hold no "/", the scope key determines the account
   * and the container, whatever the account ids hold (resource paths included).
   */
  lemma ScopeKeyInjectiveByContainer(p: ListBlobParams, q: ListBlobParams)
    requires '/' !in Interpolate(p.container) && '/' !in Interpolate(q.container)
    requires ScopeKey(p) == ScopeKey(q)
    ensures p.storageAccountId == q.storageAccountId
    ensures Interpolate(p.container) == Interpolate(q.container)
  {
    LastSlashIndexOfKey(p);
    LastSlashIndexOfKey(q);
  }

  /** With a "/" in the account id, two different scopes share one key. */
  lemma ScopeKeyCollision()
    ensures ScopeKey(ListBlobParams("a/b", Some("c"))) == ScopeKey(ListBlobParams("a", Some("b/c")))
  {
    assert "a/b" + "/" + "c" == "a" + "/" + "b/c";
  }

  /** An absent container shares its key with the container named "undefined". */
  lemma UndefinedContainerCollision(id: string)
    ensures ScopeKey(ListBlobParams(id, None)) == ScopeKey(ListBlobParams(id, Some("undefined")))
  {
  }

  /** Requesting a scope twice is requesting it once. */
  lemma WithScopeIdempotent(caches: ScopeCaches, key: string)
    ensures WithScope(WithScope(caches, key), key) == WithScope(caches, key)
  {
  }

  /** A delete whose remote result is falsy changes no lookup, in any scope. */
  lemma FalsyDeleteKeepsLookups(caches: ScopeCaches, key: string, blob: string, k: string, name: string)
    ensures var r := AfterDelete(caches, key, blob, false);
      (name in Scope(r, k)) == (name in Scope(caches, k))
      && (name in Scope(caches, k) ==> Scope(r, k)[name] == Scope(caches, k)[name])
  {
  }

  /** A truthy delete evicts exactly the deleted blob of the deleted scope. */
  lemma TruthyDeleteEvictsOne(caches: ScopeCaches, key: string, blob: string, k: string, name: string)
    ensures var r := AfterDelete(caches, key, blob, true);
      && blob !in Scope(r, key)
      && ((k != key || name != blob) ==> (name in Scope(r, k)) == (name in Scope(caches, k)))
      && (name in Scope(r, k) ==> Scope(r, k)[name] == Scope(caches, k)[name])
  {
  }

  /** Scope keys of this service's own calls: a delete in one container never touches another's cache. */
  lemma DeleteLeavesOtherContainers(
    caches: ScopeCaches, account: string, container: string, other: string, blob: string, deleted: bool)
    requires container != other
    requires ScopeKey(ListBlobParams(account, Some(other))) in caches
    ensures var k := ScopeKey(ListBlobParams(account, Some(other)));
      AfterDelete(caches, ScopeKey(ListBlobParams(account, Some(container))), blob, deleted)[k] == caches[k]
  {
    var k := ScopeKey(ListBlobParams(account, Some(other)));
    var key := ScopeKey(ListBlobParams(account, Some(container)));
    assert k != key by {
      assert k[|account| + 1..] == other;
      assert key[|account| + 1..] == container;
    }
  }
}
