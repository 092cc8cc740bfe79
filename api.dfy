/** Values exchanged with the CI platform's REST API: runs, jobs, annotations,
    the requests the command issues and the errors it can report. */
module Api {

  datatype Option<+T> = None | Some(value: T)

  /** The outcome of a REST call or of a command step: a value or an error. */
  datatype Result<+T> = Ok(value: T) | Err(error: Error)

  /** Status of a run or a job. The platform sends a string; the values the
      command distinguishes get their own constructor, any other string
      (including the empty one of a response without a status) is kept in
      `Other`. Decoding maps "completed" and "in_progress" to `Completed` and
      `InProgress`, so `Other` never holds those two strings. */
  datatype Status = Requested | Queued | Waiting | Pending | InProgress | Completed | Other(raw: string)

  /** A workflow run as the run snapshot endpoint returns it. */
  datatype Run = Run(id: int, workflowId: int, name: string, status: Status, conclusion: string)

  /** One entry of the run listing used to find the dispatched run. */
  datatype WorkflowRun = WorkflowRun(id: int, workflowId: int, name: string, status: Status, conclusion: string)

  /** A job of a run; its steps are only ever rendered, so they stay inside the
      opaque job tree of the report. */
  datatype Job = Job(id: int, runId: int, name: string, status: Status, conclusion: string)

  /** A check-run annotation; `jobName` is filled in by the command, not by the API. */
  datatype Annotation = Annotation(jobName: string, path: string, level: string, message: string)

  /** The requests the command sends, one constructor per path template. */
  datatype Request =
    | PostDispatch(repo: string, workflow: string)   // POST repos/{repo}/actions/workflows/{workflow}/dispatches
    | ListRuns(repo: string, workflow: string)       // GET repos/{repo}/actions/runs?name={workflow}&event=workflow_dispatch
    | FetchRun(repo: string, runId: int)             // GET repos/{repo}/actions/runs/{id}
    | FetchJobs(repo: string, runId: int)            // GET repos/{repo}/actions/runs/{id}/attempts/1/jobs
    | FetchAnnotations(repo: string, jobId: int)     // GET repos/{repo}/check-runs/{jobId}/annotations

  datatype Error =
    | Transport(message: string)              // the HTTP call failed or returned an error status
    | Decode(message: string)                 // the response body could not be decoded
    | NoResponse(request: Request)            // the server has no (further) answer to this request
    | IndexOutOfRange                         // the run listing was empty; the command indexes its first entry
    | FailedToGetRun(cause: Error)            // "failed to get run: ..."
    | FailedToGetJobs(cause: Error)           // "failed to get jobs: ..."
    | FailedToGetAnnotations(cause: Error)    // "failed to get annotations: ..."
}
