/**
 * update_job_progress (src/shared/services/progress_service.py): a partial
 * update of one job row in place, then commit or roll back.
 */
module Progress {
  import opened Wrappers
  import opened ProcessingJobs

  /** The partial-update rule: each provided field is overwritten, every other field is kept. */
  function ApplyProgress(j: Job, step: Option<string>, progress: Option<real>, errorMessage: Option<string>): (r: Job)
    ensures step.Some? ==> r.currentStep == step
    ensures step.None? ==> r.currentStep == j.currentStep
    ensures progress.Some? ==> r.progress == progress
    ensures progress.None? ==> r.progress == j.progress
    ensures errorMessage.Some? ==> r.errorMessage == errorMessage
    ensures errorMessage.None? ==> r.errorMessage == j.errorMessage
    ensures r.(currentStep := j.currentStep, progress := j.progress, errorMessage := j.errorMessage) == j
  {
    j.(currentStep := if step.Some? then step else j.currentStep,
       progress := if progress.Some? then progress else j.progress,
       errorMessage := if errorMessage.Some? then errorMessage else j.errorMessage)
  }

  /** The later of two optional values, as successive partial updates see it. */
  function Later<T>(first: Option<T>, second: Option<T>): Option<T> {
    if second.Some? then second else first
  }

  /** An update that provides nothing leaves the job as it was. */
  lemma NothingProvidedIsIdentity(j: Job)
    ensures ApplyProgress(j, None, None, None) == j
  {
  }

  /** Repeating an update changes nothing more. */
  lemma ApplyProgressIdempotent(j: Job, step: Option<string>, progress: Option<real>, errorMessage: Option<string>)
    ensures ApplyProgress(ApplyProgress(j, step, progress, errorMessage), step, progress, errorMessage)
      == ApplyProgress(j, step, progress, errorMessage)
  {
  }

  /** Two successive updates act as one in which the later provided value of each field wins. */
  lemma SuccessiveUpdatesCompose(
    j: Job, s1: Option<string>, p1: Option<real>, e1: Option<string>, s2: Option<string>, p2: Option<real>, e2: Option<string>)
    ensures ApplyProgress(ApplyProgress(j, s1, p1, e1), s2, p2, e2) == ApplyProgress(j, Later(s1, s2), Later(p1, p2), Later(e1, e2))
  {
  }

  /** The processing_jobs table as one database session sees it. */
  class JobTable {
    var jobs: seq<Job>

    ghost predicate Valid()
      reads this
    {
      JobIdsUnique(jobs)
    }

    constructor(rows: seq<Job>)
      requires JobIdsUnique(rows)
      ensures Valid() && jobs == rows
    {
      jobs := rows;
    }
  }

  /**
   * update_job_progress. `commitSucceeds` is the database's verdict on the
   * commit (False stands for any exception, after which the session rolls back).
   */
  method UpdateJobProgress(
    table: JobTable, jobId: int, step: Option<string>, progress: Option<real>, errorMessage: Option<string>,
    commitSucceeds: bool) returns (ok: bool)
    requires table.Valid()
    modifies table
    ensures table.Valid()
    ensures var k := FindJob(old(table.jobs), jobId);
      && (k.None? ==> !ok && table.jobs == old(table.jobs))
      && (k.Some? && !commitSucceeds ==> !ok && table.jobs == old(table.jobs))
      && (k.Some? && commitSucceeds ==>
            ok && table.jobs == old(table.jobs)[k.value := ApplyProgress(old(table.jobs)[k.value], step, progress, errorMessage)])
  {
    var k := FindJob(table.jobs, jobId);
    if k.None? {
      return false;
    }
    var job := table.jobs[k.value];
    if step.Some? {
      job := job.(currentStep := step);
    }
    if progress.Some? {
      job := job.(progress := progress);
    }
    if errorMessage.Some? {
      job := job.(errorMessage := errorMessage);
    }
    if !commitSucceeds {
      return false;
    }
    table.jobs := table.jobs[k.value := job];
    ok := true;
  }
}
