# gh-dispatch: the dispatch-and-watch core, modelled in Dafny

gh-dispatch is a GitHub CLI extension. It triggers a workflow dispatch event and then follows the run it started on the terminal's alternate screen. This project models the command's core:

- **`workflowDispatchRun`** (cmd/workflow.go) posts the dispatch and finds the run with `getWorkflowDispatchRunID`. It fetches the run's first snapshot, then polls the run. Each poll re-renders the run into an off-screen buffer. If the fresh snapshot is not completed, the command clears the screen, prints the refresh banner and the run's permalink, copies the buffer to the terminal and resets the buffer.
- **`renderRun`** (cmd/shared.go) re-fetches the run and fetches its jobs. It then gathers the jobs' annotations through an annotation cache that lives for the whole command, and prints a report of a blank line, a JOBS section and an ANNOTATIONS section.
- **`getRun`, `getJobs` and `getAnnotations`** are the single REST calls behind `renderRun`. `getAnnotations` stamps each annotation with its job's name.

The files:

- **`api.dfy`** (`Api`) holds the records exchanged with the REST API (`Run`, `WorkflowRun`, `Job`, `Annotation`), the requests the command sends and the errors it can meet.
- **`rest.dfy`** (`Rest`) models the REST client as a scripted server. The server is a value with one queue of answers per endpoint and a log of the requests it received. An exhausted queue answers `NoResponse`. `Rest.Client` is the client object; each of its methods hands one request to the server.
- **`terminal.dfy`** (`Term`) models the output side:
  - the report buffer (`Buffer`: `Println`, `Reset`);
  - the terminal (`Terminal`). Its state is an alternate-screen flag, the list of screens drawn (one per `RefreshScreen`) and a script of outcomes for the copies of the buffer to the terminal.
  - The texts of the job tree and of the annotation table are opaque `Line` values.
- **`shared.dfy`** (`Shared`) models `renderRun` and its fetchers:
  - `Accumulate` is the annotation loop as a function of the server and the cache;
  - `Render` is a whole render cycle as a function;
  - `AccumulateAnnotations` and `RenderRun` are the imperative loop and render cycle. They update the cache object in place and are proved equal to those functions.
- **`workflow.dfy`** (`Workflow`) models the command:
  - `Resolve` and `GetWorkflowDispatchRunId` are the run resolver;
  - `Poll` and `PollRun` are the polling loop;
  - `Dispatch` and `WorkflowDispatchRun` are the whole command;
  - it also has lemmas about these functions and a replay of a scripted session.

Some behaviour of the code is kept exactly as written:
- A cache hit replaces the accumulated annotation list instead of appending to it.
- A cache write stores the whole accumulated list, not just that job's annotations.
- Only jobs that are not in progress are cached.
- A failed copy to the terminal ends the command without an error.
- A render error ends the command with the alternate screen still on: the error is returned at cmd/workflow.go:69-71, before the call that leaves the alternate screen at cmd/workflow.go:99.
- The loop polls by the id of the previous snapshot, while the permalink always shows the resolved run id.
- The resolver reads the first entry of a listing without checking that it exists. The model turns that out-of-range access into the error `IndexOutOfRange`.

## Model

| member | source | states |
|---|---|---|
| Rest.Client.Dispatch | cmd/workflow.go:45-49 | the dispatch POST takes the next scripted dispatch answer and logs one `PostDispatch` request |
| Rest.Client.GetRunList | cmd/workflow.go:106-110 | the run listing GET takes the next scripted listing and logs one `ListRuns` request |
| Rest.Client.GetRunSnapshot | cmd/shared.go:92-97 | the run GET takes the next scripted run answer and logs one `FetchRun` request for that id |
| Rest.Client.GetJobList | cmd/shared.go:102-107 | the jobs GET (first attempt) takes the next scripted jobs answer and logs one `FetchJobs` request |
| Rest.Client.GetAnnotationList | cmd/shared.go:113-117 | the annotations GET takes the next scripted answer and logs one `FetchAnnotations` request for the job id |
| Term.Buffer.Println | cmd/shared.go:74-86 | printing to the buffer appends exactly one line |
| Term.Buffer.Reset | cmd/workflow.go:87 | resetting the buffer empties it |
| Term.Terminal.StartAlternateScreen | cmd/workflow.go:64 | entering the alternate screen sets the flag and draws nothing |
| Term.Terminal.StopAlternateScreen | cmd/workflow.go:99 | leaving the alternate screen clears the flag and draws nothing |
| Term.Terminal.RefreshScreen | cmd/workflow.go:78 | clearing the screen opens a new, empty frame |
| Term.Terminal.Println | cmd/workflow.go:81-84 | printing to the terminal appends one line to the current frame |
| Term.Terminal.Copy | cmd/workflow.go:86-90 | a copy of the buffer consumes one scripted outcome; on success the buffer's lines are appended to the current frame, on failure nothing is drawn and the error is returned |
| Shared.GetRun | cmd/shared.go:92-100 | getRun returns the server's run answer unchanged, error included |
| Shared.GetJobs | cmd/shared.go:102-110 | getJobs returns the server's jobs answer unchanged, error included |
| Shared.Stamped | cmd/shared.go:119-125 | the stamped list has the same length and order as the fetched one, and each element differs only in carrying the job's name |
| Shared.GetAnnotations | cmd/shared.go:112-126 | getAnnotations returns the fetch error unchanged, or the fetched annotations stamped with the job's name, after exactly one request |
| Shared.Step | cmd/shared.go:54-67 | one job of the annotation loop, as a definition: a cached job is not fetched and the accumulated list becomes its entry; otherwise its annotations are fetched and appended, a fetch error stops the loop, and a job that is not in progress is cached with the whole accumulated list. The Accumulate lemmas below state its properties |
| Shared.Accumulate | cmd/shared.go:50-68 | the annotation loop over the jobs in order, stopping at the first failed fetch; its contract states that only the annotation queue and the request log change, and that the log only grows |
| Shared.AccumulateKeepsCache | cmd/shared.go:53-68 | the cache only grows: every entry present before the loop is still there with the same value |
| Shared.AccumulateCachesOnlySettled | cmd/shared.go:65-67 | every key the loop adds belongs to a job of the list whose status is not in progress |
| Shared.AccumulateSkipsCached | cmd/shared.go:53-59 | every request the loop sends is an annotation fetch for a job that was not in the cache when the loop began |
| Shared.AccumulateAllCached | cmd/shared.go:54-57 | when every job is cached, nothing is fetched, the cache and server are unchanged, and the list is the cached list of the last job |
| Shared.AccumulateCachesSettled | cmd/shared.go:63-67 | after a loop without failure, every job that is not in progress has a cache entry |
| Shared.AccumulateEndsOnCachedList | cmd/shared.go:63-66 | after a loop without failure whose last job is settled, the accumulated list is that job's cache entry |
| Shared.SecondCycleFetchesNothing | cmd/shared.go:53-68 | repeating the loop over settled jobs after a successful loop fetches nothing, changes nothing and yields the same list, whatever list it starts from |
| Shared.AccumulateRefetchesRunning | cmd/shared.go:59-67 | a job in progress stays out of the cache, and, unless a fetch fails, its annotations were fetched in this cycle, so every cycle fetches them again |
| Shared.AccumulateSplit | cmd/shared.go:53-68 | a loop that gets through a prefix of the jobs goes on from the state that prefix left |
| Shared.AccumulateKeepsEarlierEntries | cmd/shared.go:59-67 | entries cached for jobs before a failing fetch stay in the cache, and every settled job of that prefix has one |
| Shared.AccumulateCacheHitReplaces | cmd/shared.go:54-56 | when the last job was already cached, a successful loop ends with that job's cached list, whatever the earlier jobs added |
| Shared.AccumulateUsesAnswersInOrder | cmd/shared.go:59-63 | the loop consumes exactly one scripted annotation answer per request it sends, and a loop without failure used only successful answers |
| Shared.AccumulateOkBeforeLast | cmd/shared.go:59-62 | every answer the loop used before its last one was a success |
| Shared.AccumulateStopsAtFirstFailure | cmd/shared.go:59-62 | a failed loop failed on its last request, with the error the server answered to it, so no later job is fetched |
| Shared.AccumulateConcatenates | cmd/shared.go:59-63 | when every job is fetched successfully, the list is the jobs' stamped annotations concatenated in job order |
| Shared.AccumulateCachesRunningTotals | cmd/shared.go:63-66 | in that case the entry cached for a settled job is the whole list accumulated up to and including that job |
| Shared.Report | cmd/shared.go:74-89 | the lines renderRun prints, as a definition: a blank line, then, with jobs, the JOBS heading and the job tree, then, with annotations, a blank line, the ANNOTATIONS heading and the annotation table. ReportSections states its properties |
| Shared.ReportSections | cmd/shared.go:74-89 | the report opens with a blank line; with no jobs it is that line alone; the JOBS section appears exactly when there are jobs, and the ANNOTATIONS section exactly when there are jobs and annotations |
| Shared.Render | cmd/shared.go:37-43 | a render cycle consumes one run answer, and on success returns exactly that fresh snapshot |
| Shared.RenderCycle | cmd/shared.go:37-90 | a render cycle fetches the given run's id first and never dispatches or lists; the cache only grows; any failure prints nothing and is one of the three wrapped errors; a failed run fetch gives `FailedToGetRun` of its error after that one request; a failure before the annotation loop leaves the cache unchanged; success prints a report that opens with a blank line |
| Shared.RenderFailures | cmd/shared.go:45-72 | after a successful run fetch, a failed jobs fetch gives `FailedToGetJobs` of its error, prints nothing and leaves the cache unchanged; once the jobs are known, the cycle fails exactly when the annotation loop does, with `FailedToGetAnnotations` of that loop's error, and its cache is the loop's cache |
| Shared.AccumulateAnnotations | cmd/shared.go:50-68 | the imperative annotation loop leaves the server, the cache object, the list and the error exactly as `Accumulate` says |
| Shared.PrintReport | cmd/shared.go:74-89 | printing appends exactly the report to the buffer |
| Shared.RenderRun | cmd/shared.go:37-90 | the imperative render cycle returns, fetches, caches and prints exactly what `Render` says |
| Workflow.Verdict | cmd/workflow.go:107-114 | what one listing decides, as a definition: a listing error is returned, an empty listing fails with the out-of-range error, a first run that is not completed gives its id, and a completed first run means list again. ResolveFirstDecisive states the resolver's behaviour through it |
| Workflow.Resolve | cmd/workflow.go:104-116 | the resolver only lists runs: it leaves every other queue alone and sends at least one request |
| Workflow.GetWorkflowDispatchRunId | cmd/workflow.go:104-116 | the imperative retry loop returns and consumes exactly what `Resolve` says |
| Workflow.ResolveFirstDecisive | cmd/workflow.go:105-115 | the resolver lists until the first listing that is an error, empty or headed by a run that is not completed, sends one request per listing read, and returns that listing's error, out-of-range failure or first run id |
| Workflow.ResolvedRunIsActive | cmd/workflow.go:112-113 | a resolved id is that of the first run of some listing, and that run was not completed |
| Workflow.ResolveFirstListing | cmd/workflow.go:107-113 | when the first listing's first run is not completed, its id is returned after a single request |
| Workflow.ResolveEmptyListing | cmd/workflow.go:112 | an empty listing met before any decisive one fails with the out-of-range error |
| Workflow.ResolveWhileAllCompleted | cmd/workflow.go:105-115 | while every listing's first run is completed the resolver keeps listing, until the server has no answer left |
| Workflow.Poll | cmd/workflow.go:66-97 | the poll loop, as a definition: while the snapshot is not completed, render it; stop on a render error or on a completed fresh snapshot; otherwise draw the header and, if the copy succeeds, the report, and stop on a failed copy. The Poll lemmas below state its properties |
| Workflow.PollSkipsCompleted | cmd/workflow.go:66 | a snapshot that is already completed is not rendered: nothing is fetched, no frame is drawn and there is no error |
| Workflow.PollFramesHeaded | cmd/workflow.go:78-87 | every frame the loop draws starts with the banner and the permalink of the resolved run id |
| Workflow.PollCountsFrames | cmd/workflow.go:66-90 | the loop draws one frame per render, except the render that finds the run completed, which draws none; a run that is not completed is rendered at least once or fails |
| Workflow.PollStopsAtCompleted | cmd/workflow.go:66-75 | no rendered snapshot before the last is completed, and none at all when the loop stops on an error |
| Workflow.PollEndsCompleted | cmd/workflow.go:66-75 | a loop that ends without error and without a copy failure ends on a completed snapshot, either the last rendered one or the starting one |
| Workflow.PollFollowsScript | cmd/workflow.go:68 | the snapshots rendered are the server's successive run answers, in order |
| Workflow.PollKeepsCache | cmd/workflow.go:62-68 | the annotation cache only grows over the whole loop |
| Workflow.PollOnlyPolls | cmd/workflow.go:66-97 | the loop sends no dispatch or listing request and the request log only grows |
| Workflow.PollLeavesFinalReport | cmd/workflow.go:73-88 | the report buffer is left holding a report only when the loop ended without error on a fresh completed snapshot, a report that is never drawn; after an error, a failed copy or no render at all the buffer is empty |
| Workflow.PollSwallowsCopyError | cmd/workflow.go:86-90 | a failed copy ends the loop with no error; the error discarded is the copy outcome of the last frame drawn |
| Workflow.PollSwallowedFrameBare | cmd/workflow.go:78-88 | the frame drawn before a failed copy shows the header alone |
| Workflow.PollFailsInRender | cmd/workflow.go:68-71 | an error out of the loop is a render cycle's wrapped run, jobs or annotations error, never a copy error |
| Workflow.ShowHeader | cmd/workflow.go:78-84 | clearing the screen and printing the header opens one new frame that holds exactly the header: the refresh banner for 3 seconds, a blank line, the permalink of the repository and run id, and a blank line |
| Workflow.ShowFrame | cmd/workflow.go:78-88 | one frame is the header followed by the buffer if the copy succeeded, the buffer is empty afterwards, and one copy outcome is consumed |
| Workflow.PollRun | cmd/workflow.go:62-97 | the imperative loop returns, fetches, caches and draws exactly what `Poll` says, leaves in the buffer exactly the report `Poll` says is unflushed, and leaves the alternate-screen flag alone |
| Workflow.WorkflowDispatchRun | cmd/workflow.go:28-102 | the imperative command returns, fetches and draws exactly what `Dispatch` says; it ends on the normal screen on success and stays on the alternate screen after a render error |
| Workflow.Dispatch | cmd/workflow.go:28-102 | the command, as a definition: post the dispatch, resolve the run, fetch its first snapshot (wrapping a failure as `FailedToGetRun`), enter the alternate screen and poll with an empty annotation cache; the Dispatch lemmas below state its properties |
| Workflow.DispatchPostsFirst | cmd/workflow.go:46-49 | the first request is the dispatch POST, and a rejected POST returns its error after that one request, before the alternate screen is entered or anything is drawn |
| Workflow.DispatchFramesHeaded | cmd/workflow.go:51-84 | only a command that found its run and entered the alternate screen draws frames, and each frame starts with the header of that run id |
| Workflow.DispatchOutcome | cmd/workflow.go:64-101 | a command that returns no error entered the alternate screen; an error returned after entering it is a wrapped render error |
| Workflow.ScriptedFirstCycle | cmd/repository_test.go:52-81 | the first render of the scripted run fetches the completed job's empty annotation list once, caches it, and reports the JOBS section only |
| Workflow.ScriptedSecondCycle | cmd/repository_test.go:52-81 | the second render serves the job from the cache and returns the completed snapshot |
| Workflow.ScriptedDispatch | cmd/repository_test.go:40-82 | the whole scripted session draws exactly one frame (header, blank line, JOBS section, no ANNOTATIONS), returns no error and uses every scripted answer |

## Left out

- Encoding the dispatch request body as JSON, decoding responses, building the HTTP client and its authentication (cmd/workflow.go:29-43) are library behaviour. A decode failure appears only as one of the error answers the scripted server can give.
- `time.Sleep` and `time.ParseDuration` between polls (cmd/workflow.go:92-96) are real time. "3s" always parses, so the error branch cannot be reached and is not modelled.
- The text of the job tree, of the annotation table and of the colour scheme (cmd/shared.go:38, 80-86) belongs to the rendering library. It is kept as opaque `Line` values.
- The cobra command wiring (cmd/workflow.go:21-26, 118-120) is left out.
- The repository dispatch command is not part of this model. Its test is used only as the script of the replayed session, on the workflow path.
- Go slice aliasing is not modelled: the model treats lists as values. In the source, a cache entry and the accumulated list can share a backing array, and later appends could be visible through an earlier entry.
- Null entries in the annotation array returned by the API are not modelled, because the model's answers are lists of annotations.
- A copy that fails after writing part of the buffer is not modelled: in the model, a failed copy writes nothing.
- Workflow.GetWorkflowDispatchRunId: the source retries forever while the newest listed run is completed. The model's server holds finitely many answers and then answers `NoResponse`, so such a spin ends in that error; `ResolveWhileAllCompleted` states this.
- Workflow.GetWorkflowDispatchRunId: indexing an empty listing panics in the source. The model returns the error `IndexOutOfRange` instead.
- Workflow.Poll: the loop is bounded by the scripted run answers. A run that never completes in the source polls forever; in the model the next render fails with `NoResponse`.
- Interrupting the command (Ctrl+C) is not modelled.
- Status strings: the model assumes decoding maps "completed" and "in_progress" to `Completed` and `InProgress`, so `Other` never carries those strings. The model does not exclude `Other("completed")`, and a run with that status would not count as completed.
- The scripted session's listing entry and job are reconstructions: the test's response fixtures (`getWorkflowRunsResponse`, `getJobsResponse`) are not part of this model. The listing is taken as run 123 not yet completed, and the job as a completed job 123 named "build", as the expected output shows.
