/**
 * Processing-job records (src/shared/models/processing_job.py) and the
 * videos they belong to. Progress percentages are kept as exact reals.
 */
module ProcessingJobs {
  import opened Wrappers
  import Models

  datatype JobStatus = Pending | Running | Completed | Failed

  /** The enum's string value. */
  function StatusValue(s: JobStatus): (v: string)
    ensures v in {"pending", "running", "completed", "failed"}
  {
    match s
    case Pending => "pending"
    case Running => "running"
    case Completed => "completed"
    case Failed => "failed"
  }

  lemma StatusValueInjective(a: JobStatus, b: JobStatus)
    requires StatusValue(a) == StatusValue(b)
    ensures a == b
  {
  }

  datatype Job = Job(
    id: int, videoId: Option<int>, userId: Option<int>, status: JobStatus,
    currentStep: Option<string>, progress: Option<real>, errorMessage: Option<string>,
    createdAt: int, completedAt: Option<int>)

  datatype Video = Video(id: int, userId: Option<int>, blobUrl: string, createdAt: int)

  /** The first row with this primary key, as `.filter(id == ...).first()`. */
  function FindJob(jobs: seq<Job>, jobId: int): (r: Option<nat>)
    ensures r.Some? ==> r.value < |jobs| && jobs[r.value].id == jobId && forall i :: 0 <= i < r.value ==> jobs[i].id != jobId
    ensures r.None? <==> forall i :: 0 <= i < |jobs| ==> jobs[i].id != jobId
  {
    Models.FirstMatch(jobs, (job: Job) => job.id == jobId)
  }

  predicate JobIdsUnique(jobs: seq<Job>) {
    forall i, j | 0 <= i < |jobs| && 0 <= j < |jobs| && jobs[i].id == jobs[j].id :: i == j
  }
}
