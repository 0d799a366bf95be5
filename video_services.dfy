/**
 * The string building of VideoUploadService
 * (src/api/modules/video_input_output/services.py): blob-name normalisation,
 * blob URLs, the upload blob name and SAS URL, the blob-existence probe, and
 * the processing-status report of a video.
 */
module VideoServices {
  import opened Wrappers
  import opened Strings
  import opened ProcessingJobs
  import Models

  const VIDEOS_PREFIX: string := "videos/"

  /** The storage account and container the service is configured with. */
  datatype StorageConfig = StorageConfig(accountName: string, containerName: string)

  /** "https://{account}.blob.core.windows.net/{container}/" */
  function ContainerUrl(cfg: StorageConfig): string {
    "https://" + cfg.accountName + ".blob.core.windows.net/" + cfg.containerName + "/"
  }

  /** "https://{account}.blob.core.windows.net/{container}/{name}" */
  function BlobUrl(cfg: StorageConfig, name: string): string {
    ContainerUrl(cfg) + name
  }

  /** The user folder "videos/{user_id}/", or just "videos/" without a user. */
  function Folder(userId: Option<int>): (f: string)
    ensures StartsWith(f, VIDEOS_PREFIX)
  {
    if userId.Some? then VIDEOS_PREFIX + DecimalString(userId.value) + "/" else VIDEOS_PREFIX
  }

  /** The normalisation shared by get_blob_url and verify_blob_exists. */
  function NormaliseBlobName(blobName: string, userId: Option<int>): (r: string)
    ensures StartsWith(r, VIDEOS_PREFIX) && EndsWith(r, blobName)
    ensures StartsWith(blobName, VIDEOS_PREFIX) ==> r == blobName
    ensures !StartsWith(blobName, VIDEOS_PREFIX) ==> r == Folder(userId) + blobName
  {
    if StartsWith(blobName, VIDEOS_PREFIX) then blobName
    else
      StartsWithBefore(Folder(userId), blobName, VIDEOS_PREFIX);
      EndsWithAfter(Folder(userId), blobName, blobName);
      Folder(userId) + blobName
  }

  /** Normalising an already normalised name changes nothing, whatever user is passed the second time. */
  lemma NormaliseIdempotent(blobName: string, u1: Option<int>, u2: Option<int>)
    ensures NormaliseBlobName(NormaliseBlobName(blobName, u1), u2) == NormaliseBlobName(blobName, u1)
  {
  }

  /** get_blob_url: the account/container URL of the normalised name. */
  function GetBlobUrl(cfg: StorageConfig, blobName: string, userId: Option<int>): (url: string)
    ensures StartsWith(url, ContainerUrl(cfg) + VIDEOS_PREFIX) && EndsWith(url, blobName)
  {
    var name := NormaliseBlobName(blobName, userId);
    StartsWithAfter(ContainerUrl(cfg), name, VIDEOS_PREFIX);
    EndsWithAfter(ContainerUrl(cfg), name, blobName);
    BlobUrl(cfg, name)
  }

  /**
   * verify_blob_exists. `probe(container, name)` is the blob client's exists():
   * Some(answer), or None when the client raises; a raised error reads as False.
   */
  function VerifyBlobExists(cfg: StorageConfig, blobName: string, userId: Option<int>, probe: (string, string) -> Option<bool>): (r: bool)
    ensures r <==> probe(cfg.containerName, NormaliseBlobName(blobName, userId)) == Some(true)
  {
    match probe(cfg.containerName, NormaliseBlobName(blobName, userId))
    case None => false
    case Some(found) => found
  }

  /** The existence check and the URL address the same blob, for every spelling of its name. */
  lemma VerifyAndUrlAgree(cfg: StorageConfig, blobName: string, userId: Option<int>, probe: (string, string) -> Option<bool>)
    ensures var name := NormaliseBlobName(blobName, userId);
      && GetBlobUrl(cfg, blobName, userId) == BlobUrl(cfg, name)
      && GetBlobUrl(cfg, name, None) == BlobUrl(cfg, name)
      && VerifyBlobExists(cfg, name, None, probe) == VerifyBlobExists(cfg, blobName, userId, probe)
  {
  }

  /** What generate_upload_sas_url returns; the expiry time is left out. */
  datatype UploadTicket = UploadTicket(blobName: string, sasUrl: string, containerName: string, blobUrl: string)

  /** The file part "{timestamp}_{id8}.{ext}"; `uuid` is str(uuid4()), cut like Python's [:8]. */
  function UploadFileName(extension: string, timestamp: string, uuid: string): (f: string)
    ensures EndsWith(f, "." + extension)
  {
    var id8 := if |uuid| <= 8 then uuid else uuid[..8];
    var stem := timestamp + "_" + id8;
    EndsWithAfter(stem, "." + extension, "." + extension);
    stem + ("." + extension)
  }

  /** The upload blob name: the user folder (or "videos/") and the file part. */
  function UploadBlobName(extension: string, userId: Option<int>, timestamp: string, uuid: string): (name: string)
    ensures StartsWith(name, VIDEOS_PREFIX) && EndsWith(name, "." + extension)
  {
    var file := UploadFileName(extension, timestamp, uuid);
    StartsWithBefore(Folder(userId), file, VIDEOS_PREFIX);
    EndsWithAfter(Folder(userId), file, "." + extension);
    Folder(userId) + file
  }

  /**
   * generate_upload_sas_url. `timestamp` is the UTC clock formatted
   * "%Y%m%d_%H%M%S", `sasToken` what generate_blob_sas returns.
   */
  function GenerateUploadSasUrl(
    cfg: StorageConfig, extension: string, userId: Option<int>, timestamp: string, uuid: string, sasToken: string): (t: UploadTicket)
    ensures t.blobName == UploadBlobName(extension, userId, timestamp, uuid)
    ensures t.sasUrl == t.blobUrl + "?" + sasToken && t.containerName == cfg.containerName
    ensures forall u :: t.blobUrl == GetBlobUrl(cfg, t.blobName, u)
  {
    var name := UploadBlobName(extension, userId, timestamp, uuid);
    var url := BlobUrl(cfg, name);
    UploadTicket(name, url + "?" + sasToken, cfg.containerName, url)
  }

  /** A client that confirms an upload by the bare file name, with its user id, reaches the uploaded blob. */
  lemma BareFileNameResolvesToUpload(extension: string, userId: Option<int>, timestamp: string, uuid: string)
    requires !StartsWith(UploadFileName(extension, timestamp, uuid), VIDEOS_PREFIX)
    ensures NormaliseBlobName(UploadFileName(extension, timestamp, uuid), userId) == UploadBlobName(extension, userId, timestamp, uuid)
  {
  }

  /** In "videos/{d}/{rest}", with no '/' in `d`, the first '/' after "videos/" ends `d`. */
  lemma SlashEndsUserId(d: string, rest: string)
    requires forall i :: 0 <= i < |d| ==> d[i] != '/'
    ensures var s := VIDEOS_PREFIX + d + "/" + rest;
      && s[|VIDEOS_PREFIX| + |d|] == '/'
      && (forall i :: |VIDEOS_PREFIX| <= i < |VIDEOS_PREFIX| + |d| ==> s[i] != '/')
      && s[|VIDEOS_PREFIX|..|VIDEOS_PREFIX| + |d|] == d
  {
    var s := VIDEOS_PREFIX + d + "/" + rest;
    assert forall i :: |VIDEOS_PREFIX| <= i < |VIDEOS_PREFIX| + |d| ==> s[i] == d[i - |VIDEOS_PREFIX|];
  }

  /** The folder segment of "videos/{d}/{rest}" is determined by the name when it holds no '/'. */
  lemma FolderSegmentDetermined(d1: string, d2: string, rest1: string, rest2: string)
    requires forall i :: 0 <= i < |d1| ==> d1[i] != '/'
    requires forall i :: 0 <= i < |d2| ==> d2[i] != '/'
    requires VIDEOS_PREFIX + d1 + "/" + rest1 == VIDEOS_PREFIX + d2 + "/" + rest2
    ensures d1 == d2
  {
    SlashEndsUserId(d1, rest1);
    SlashEndsUserId(d2, rest2);
    assert |d1| == |d2|;
  }

  /** Distinct users' folders never share a name: the user id is recovered from everything before the second '/'. */
  lemma UserFoldersDisjoint(u1: int, u2: int, rest1: string, rest2: string)
    requires Folder(Some(u1)) + rest1 == Folder(Some(u2)) + rest2
    ensures u1 == u2
  {
    var d1, d2 := DecimalString(u1), DecimalString(u2);
    assert Folder(Some(u1)) + rest1 == VIDEOS_PREFIX + d1 + "/" + rest1;
    assert Folder(Some(u2)) + rest2 == VIDEOS_PREFIX + d2 + "/" + rest2;
    FolderSegmentDetermined(d1, d2, rest1, rest2);
    DecimalStringInjective(u1, u2);
  }

  /** Upload blob names of two different users are different, whatever their timestamps and ids. */
  lemma UploadNamesOfUsersDiffer(
    cfg: StorageConfig, u1: int, u2: int, e1: string, e2: string, t1: string, t2: string, id1: string, id2: string, sas1: string, sas2: string)
    requires u1 != u2
    ensures GenerateUploadSasUrl(cfg, e1, Some(u1), t1, id1, sas1).blobName != GenerateUploadSasUrl(cfg, e2, Some(u2), t2, id2, sas2).blobName
  {
    if GenerateUploadSasUrl(cfg, e1, Some(u1), t1, id1, sas1).blobName == GenerateUploadSasUrl(cfg, e2, Some(u2), t2, id2, sas2).blobName {
      UserFoldersDisjoint(u1, u2, UploadFileName(e1, t1, id1), UploadFileName(e2, t2, id2));
    }
  }

  // ------------------------------------------------------- processing status

  /** The dictionary get_processing_status returns; `jobId` is absent when no job exists yet. */
  datatype StatusReport = StatusReport(
    videoId: int, jobId: Option<int>, status: string, currentStep: Option<string>, progress: real,
    createdAt: int, completedAt: Option<int>, errorMessage: Option<string>)

  /** The first video with this primary key, as `.filter(id == ...).first()`. */
  function FindVideo(videos: seq<Video>, videoId: int): (r: Option<nat>)
    ensures r.Some? ==> r.value < |videos| && videos[r.value].id == videoId
    ensures r.None? <==> forall i :: 0 <= i < |videos| ==> videos[i].id != videoId
  {
    Models.FirstMatch(videos, (v: Video) => v.id == videoId)
  }

  /** The video's most recent job by created_at (among equal timestamps, the earliest row). */
  function LatestJob(jobs: seq<Job>, videoId: int): (r: Option<nat>)
    ensures r.None? <==> forall i :: 0 <= i < |jobs| ==> jobs[i].videoId != Some(videoId)
    ensures r.Some? ==> r.value < |jobs| && jobs[r.value].videoId == Some(videoId)
    ensures r.Some? ==> forall i :: 0 <= i < |jobs| && jobs[i].videoId == Some(videoId) ==> jobs[i].createdAt <= jobs[r.value].createdAt
  {
    if jobs == [] then None
    else
      var last := |jobs| - 1;
      var rest := LatestJob(jobs[..last], videoId);
      assert forall i :: 0 <= i < last ==> jobs[..last][i] == jobs[i];
      if jobs[last].videoId != Some(videoId) then rest
      else if rest.Some? && jobs[last].createdAt <= jobs[rest.value].createdAt then rest
      else Some(last)
  }

  /** `float(p) if p else 0.0`. */
  function ProgressOrZero(p: Option<real>): (r: real)
    ensures p.None? ==> r == 0.0
    ensures p.Some? ==> r == p.value
  {
    if p.Some? && p.value != 0.0 then p.value else 0.0
  }

  /**
   * get_processing_status: an error for an unknown video; "uploaded" with
   * progress 0.0 while the video has no job; otherwise the latest job's fields.
   */
  function GetProcessingStatus(videos: seq<Video>, jobs: seq<Job>, videoId: int): (r: Result<StatusReport>)
    ensures r.Err? <==> forall i :: 0 <= i < |videos| ==> videos[i].id != videoId
    ensures r.Err? ==> r.message == "Video not found: video_id=" + DecimalString(videoId)
    ensures r.Ok? ==> r.value.videoId == videoId
    ensures r.Ok? && (forall i :: 0 <= i < |jobs| ==> jobs[i].videoId != Some(videoId)) ==>
      && r.value.jobId.None? && r.value.status == "uploaded" && r.value.progress == 0.0
      && r.value.currentStep.None? && r.value.completedAt.None? && r.value.errorMessage.None?
      && exists i :: 0 <= i < |videos| && videos[i].id == videoId && r.value.createdAt == videos[i].createdAt
    ensures r.Ok? && r.value.jobId.Some? ==>
      exists k :: 0 <= k < |jobs| && JobReported(jobs, videoId, k, r.value)
  {
    match FindVideo(videos, videoId)
    case None => Err("Video not found: video_id=" + DecimalString(videoId))
    case Some(v) =>
      match LatestJob(jobs, videoId)
      case None => Ok(StatusReport(videoId, None, "uploaded", None, 0.0, videos[v].createdAt, None, None))
      case Some(k) =>
        var job := jobs[k];
        var report := StatusReport(videoId, Some(job.id), StatusValue(job.status), job.currentStep,
          ProgressOrZero(job.progress), job.createdAt, job.completedAt, job.errorMessage);
        assert JobReported(jobs, videoId, k, report);
        Ok(report)
  }

  /** `report` shows job `k`, a most recent job of the video. */
  predicate JobReported(jobs: seq<Job>, videoId: int, k: int, report: StatusReport) {
    && 0 <= k < |jobs| && jobs[k].videoId == Some(videoId)
    && (forall i :: 0 <= i < |jobs| && jobs[i].videoId == Some(videoId) ==> jobs[i].createdAt <= jobs[k].createdAt)
    && report.jobId == Some(jobs[k].id) && report.status == StatusValue(jobs[k].status)
    && report.currentStep == jobs[k].currentStep && report.progress == ProgressOrZero(jobs[k].progress)
    && report.createdAt == jobs[k].createdAt && report.completedAt == jobs[k].completedAt
    && report.errorMessage == jobs[k].errorMessage
  }

  /** A job of the video exists exactly when the report names one, and then its status is never "uploaded". */
  lemma ReportNamesJobIff(videos: seq<Video>, jobs: seq<Job>, videoId: int)
    requires GetProcessingStatus(videos, jobs, videoId).Ok?
    ensures var report := GetProcessingStatus(videos, jobs, videoId).value;
      && (report.jobId.Some? <==> exists i :: 0 <= i < |jobs| && jobs[i].videoId == Some(videoId))
      && (report.jobId.Some? ==> report.status != "uploaded")
  {
    var report := GetProcessingStatus(videos, jobs, videoId).value;
    if report.jobId.Some? {
      var k :| 0 <= k < |jobs| && JobReported(jobs, videoId, k, report);
      assert report.status in {"pending", "running", "completed", "failed"};
    }
  }
}
