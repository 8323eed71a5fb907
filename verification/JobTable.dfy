/** The rows of the job table. */
module JobTable {
  import opened Prelude

  datatype Status = Queued | Running | Done | Failed

  datatype JobRow = JobRow(
    jid: string, kind: string, session: Option<string>, status: Status, progress: real, stage: string,
    error: Option<string>, result: Option<string>, createdAt: real, updatedAt: real)

  predicate Live(j: JobRow) {
    j.status == Queued || j.status == Running
  }

  const DAY: real := 86400.0

  function KeptJob(days: int, now: real): JobRow -> bool {
    (j: JobRow) => Live(j) || !(j.updatedAt < now - days as real * DAY)
  }

  function PruneJobs(jobs: seq<JobRow>, days: int, now: real): seq<JobRow> {
    if days > 0 then Filter(jobs, KeptJob(days, now)) else jobs
  }
}
