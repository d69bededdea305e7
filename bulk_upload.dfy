/**
 * The progress stream of the bulk uploader `uploadFiles`: what it emits for
 * each file, in which order, and where it stops when an upload fails.
 *
 * The files are uploaded strictly one after the other (`concatMap`). For file
 * `i` of `n` the stream emits a start status `{uploaded: i, total: n,
 * current: file}`, then uploads the file, then emits `{uploaded: i + 1, ...}`.
 * A failed upload raises its error through the stream and ends it.
 */
module BulkUpload {
  import opened Wrappers
  import opened StorageCall

  /** A local file and the blob name it is uploaded under. */
  datatype FileUpload = FileUpload(localPath: string, remotePath: string)

  /** One progress record of the stream. */
  datatype BulkUploadStatus = BulkUploadStatus(uploaded: nat, total: nat, current: FileUpload)

  /** The arguments of one `uploadFile` call. */
  datatype UploadRequest = UploadRequest(
    storageAccountId: string,
    container: string,
    localPath: string,
    blobName: string)

  /**
   * The blob a file is uploaded to: the file's own remote path joined under
   * `remotePath` when that is given and non-empty (a truthy string), the
   * file's remote path alone otherwise. `join` stands for `CloudPathUtils.join`.
   */
  function Destination(remotePath: Option<string>, file: FileUpload, join: (string, string) -> string): (blob: string)
    ensures remotePath.None? || remotePath == Some("") ==> blob == file.remotePath
    ensures remotePath.Some? && remotePath.value != "" ==> blob == join(remotePath.value, file.remotePath)
  {
    match remotePath
    case Some(p) => if p != "" then join(p, file.remotePath) else file.remotePath
    case None => file.remotePath
  }

  /** The `uploadFile` call made for each file, in the order of the files. */
  function PlannedRequests(
    storageAccountId: string, container: string, files: seq<FileUpload>,
    remotePath: Option<string>, join: (string, string) -> string): (reqs: seq<UploadRequest>)
    ensures |reqs| == |files|
    ensures forall i :: 0 <= i < |files| ==>
      reqs[i] == UploadRequest(storageAccountId, container, files[i].localPath, Destination(remotePath, files[i], join))
  {
    seq(|files|, i requires 0 <= i < |files| =>
      UploadRequest(storageAccountId, container, files[i].localPath, Destination(remotePath, files[i], join)))
  }

  /** The status emitted before file `i` is uploaded. */
  function Started(files: seq<FileUpload>, i: nat): BulkUploadStatus
    requires i < |files|
  {
    BulkUploadStatus(i, |files|, files[i])
  }

  /** The status emitted once file `i` is uploaded. */
  function Finished(files: seq<FileUpload>, i: nat): BulkUploadStatus
    requires i < |files|
  {
    BulkUploadStatus(i + 1, |files|, files[i])
  }

  /** The statuses emitted for the first `done` files when all of them were uploaded. */
  function Progress(files: seq<FileUpload>, done: nat): (s: seq<BulkUploadStatus>)
    requires done <= |files|
    ensures |s| == 2 * done
  {
    if done == 0 then []
    else Progress(files, done - 1) + [Started(files, done - 1), Finished(files, done - 1)]
  }

  /**
   * The whole stream when the first failing upload is that of file `k`
   * (`k == |files|` when none fails): the statuses of the files before it and
   * the start status of file `k`.
   */
  function UploadStream(files: seq<FileUpload>, k: nat): (s: seq<BulkUploadStatus>)
    requires k <= |files|
    ensures |s| == if k == |files| then 2 * k else 2 * k + 1
    ensures s[..2 * k] == Progress(files, k)
  {
    if k == |files| then Progress(files, k) else Progress(files, k) + [Started(files, k)]
  }

  /**
   * The index of the first upload, from `i` on, that the remote store rejects,
   * or `|reqs|` when none is. `upload(j, r)` is the store's reply to the `j`-th
   * upload, made with request `r`.
   */
  function FirstFailure(reqs: seq<UploadRequest>, upload: (nat, UploadRequest) -> Reply<()>, i: nat): (k: nat)
    requires i <= |reqs|
    ensures i <= k <= |reqs|
    ensures forall j :: i <= j < k ==> upload(j, reqs[j]).Resolved?
    ensures k < |reqs| ==> upload(k, reqs[k]).Rejected?
    decreases |reqs| - i
  {
    if i == |reqs| || upload(i, reqs[i]).Rejected? then i else FirstFailure(reqs, upload, i + 1)
  }

  // ---------------------------------------------------------------------------
  // Lemmas

  /** Two statuses per uploaded file: the start status at `2i`, the finish status at `2i + 1`. */
  lemma {:induction false} ProgressLayout(files: seq<FileUpload>, done: nat)
    requires done <= |files|
    ensures forall i :: 0 <= i < done ==>
      Progress(files, done)[2 * i] == Started(files, i) && Progress(files, done)[2 * i + 1] == Finished(files, i)
  {
    if done > 0 {
      ProgressLayout(files, done - 1);
    }
  }

  /** Position `j` of the stream reports `(j + 1) / 2` uploads, for file `j / 2`, which is never past `k`. */
  lemma StreamAt(files: seq<FileUpload>, k: nat, j: nat)
    requires k <= |files|
    requires j < |UploadStream(files, k)|
    ensures j / 2 <= k && j / 2 < |files|
    ensures UploadStream(files, k)[j] == BulkUploadStatus((j + 1) / 2, |files|, files[j / 2])
  {
    ProgressLayout(files, k);
    var i := j / 2;
    if j < 2 * k {
      if j == 2 * i {
        assert UploadStream(files, k)[2 * i] == Started(files, i);
      } else {
        assert j == 2 * i + 1;
        assert UploadStream(files, k)[2 * i + 1] == Finished(files, i);
      }
    } else {
      assert j == 2 * k;
    }
  }

  /** All uploads succeed: `2n` statuses, the last of which reports all `n` files uploaded. */
  lemma AllUploadedStream(files: seq<FileUpload>)
    ensures |UploadStream(files, |files|)| == 2 * |files|
    ensures |files| > 0 ==> UploadStream(files, |files|)[2 * |files| - 1] == BulkUploadStatus(|files|, |files|, files[|files| - 1])
  {
    ProgressLayout(files, |files|);
    if |files| > 0 {
      StreamAt(files, |files|, 2 * |files| - 1);
    }
  }

  /**
   * The upload of file `k` fails: the statuses of files `0 .. k - 1` and the
   * start status of file `k`, and nothing about any later file.
   */
  lemma FailedUploadStream(files: seq<FileUpload>, k: nat)
    requires k < |files|
    ensures |UploadStream(files, k)| == 2 * k + 1
    ensures UploadStream(files, k)[2 * k] == BulkUploadStatus(k, |files|, files[k])
    ensures UploadStream(files, k)[..2 * k] == UploadStream(files, |files|)[..2 * k]
    ensures forall j :: 0 <= j < |UploadStream(files, k)| ==> UploadStream(files, k)[j].uploaded <= k
  {
    ProgressLayout(files, k);
    ProgressLayout(files, |files|);
    forall j | 0 <= j < 2 * k ensures UploadStream(files, k)[j] == UploadStream(files, |files|)[j] {
      StreamAt(files, k, j);
      StreamAt(files, |files|, j);
    }
    forall j | 0 <= j < |UploadStream(files, k)| ensures UploadStream(files, k)[j].uploaded <= k {
      StreamAt(files, k, j);
    }
  }

  /** `uploaded` never decreases along the stream, and every status carries the total. */
  lemma UploadedMonotone(files: seq<FileUpload>, k: nat, j1: nat, j2: nat)
    requires k <= |files|
    requires j1 <= j2 < |UploadStream(files, k)|
    ensures UploadStream(files, k)[j1].uploaded <= UploadStream(files, k)[j2].uploaded <= |files|
    ensures UploadStream(files, k)[j2].total == |files|
  {
    StreamAt(files, k, j1);
    StreamAt(files, k, j2);
  }

  /** The first failure is the one index before which every upload succeeds and at which one fails. */
  lemma FirstFailureIs(reqs: seq<UploadRequest>, upload: (nat, UploadRequest) -> Reply<()>, k: nat)
    requires k <= |reqs|
    requires forall j :: 0 <= j < k ==> upload(j, reqs[j]).Resolved?
    requires k < |reqs| ==> upload(k, reqs[k]).Rejected?
    ensures FirstFailure(reqs, upload, 0) == k
  {
  }
}
