/** The REST client the command talks to, replaced by a scripted server: for
    each endpoint a queue of the replies it will give, in order, and a log of
    the requests received. A request to an endpoint whose queue is used up is
    answered with `NoResponse`, as a mock transport with no stub left does. */
module Rest {
  import opened Api

  datatype Server = Server(
    dispatches: seq<Result<()>>,
    listings: seq<Result<seq<WorkflowRun>>>,
    runs: seq<Result<Run>>,
    jobLists: seq<Result<seq<Job>>>,
    annotationLists: seq<Result<seq<Annotation>>>,
    log: seq<Request>)

  /** The answer to one request and the server after it. */
  datatype Reply<+T> = Reply(answer: Result<T>, server: Server)

  /** The next scripted answer of a queue. */
  function Answer<T>(replies: seq<Result<T>>, req: Request): Result<T>
  {
    if replies == [] then Err(NoResponse(req)) else replies[0]
  }

  /** The queue after one request. */
  function Later<T>(replies: seq<T>): seq<T>
  {
    if replies == [] then [] else replies[1..]
  }

  /** The queue after `n` requests. */
  function Drop<T>(s: seq<T>, n: nat): seq<T>
  {
    if n <= |s| then s[n..] else []
  }

  /** `n` copies of the same request, as the log shows a request repeated. */
  function Repeat(req: Request, n: nat): (r: seq<Request>)
    ensures |r| == n
    ensures forall i :: 0 <= i < n ==> r[i] == req
  {
    if n == 0 then [] else Repeat(req, n - 1) + [req]
  }

  function ServeDispatch(s: Server, repo: string, workflow: string): Reply<()>
  {
    var req := PostDispatch(repo, workflow);
    Reply(Answer(s.dispatches, req), s.(dispatches := Later(s.dispatches), log := s.log + [req]))
  }

  function ServeListing(s: Server, repo: string, workflow: string): Reply<seq<WorkflowRun>>
  {
    var req := ListRuns(repo, workflow);
    Reply(Answer(s.listings, req), s.(listings := Later(s.listings), log := s.log + [req]))
  }

  function ServeRun(s: Server, repo: string, runId: int): Reply<Run>
  {
    var req := FetchRun(repo, runId);
    Reply(Answer(s.runs, req), s.(runs := Later(s.runs), log := s.log + [req]))
  }

  function ServeJobs(s: Server, repo: string, runId: int): Reply<seq<Job>>
  {
    var req := FetchJobs(repo, runId);
    Reply(Answer(s.jobLists, req), s.(jobLists := Later(s.jobLists), log := s.log + [req]))
  }

  function ServeAnnotations(s: Server, repo: string, jobId: int): Reply<seq<Annotation>>
  {
    var req := FetchAnnotations(repo, jobId);
    Reply(Answer(s.annotationLists, req), s.(annotationLists := Later(s.annotationLists), log := s.log + [req]))
  }

  /** The REST client: every call hands one request to the server. */
  class Client {
    var server: Server

    constructor (server: Server)
      ensures this.server == server
    {
      this.server := server;
    }

    /** `client.Post` on the workflow dispatch path. */
    method Dispatch(repo: string, workflow: string) returns (r: Result<()>)
      modifies this
      ensures r == ServeDispatch(old(server), repo, workflow).answer
      ensures server == ServeDispatch(old(server), repo, workflow).server
    {
      var reply := ServeDispatch(server, repo, workflow);
      r, server := reply.answer, reply.server;
    }

    /** `client.Get` on the run listing path. */
    method GetRunList(repo: string, workflow: string) returns (r: Result<seq<WorkflowRun>>)
      modifies this
      ensures r == ServeListing(old(server), repo, workflow).answer
      ensures server == ServeListing(old(server), repo, workflow).server
    {
      var reply := ServeListing(server, repo, workflow);
      r, server := reply.answer, reply.server;
    }

    /** `client.Get` on the run snapshot path. */
    method GetRunSnapshot(repo: string, runId: int) returns (r: Result<Run>)
      modifies this
      ensures r == ServeRun(old(server), repo, runId).answer
      ensures server == ServeRun(old(server), repo, runId).server
    {
      var reply := ServeRun(server, repo, runId);
      r, server := reply.answer, reply.server;
    }

    /** `client.Get` on the job listing path of the run's first attempt. */
    method GetJobList(repo: string, runId: int) returns (r: Result<seq<Job>>)
      modifies this
      ensures r == ServeJobs(old(server), repo, runId).answer
      ensures server == ServeJobs(old(server), repo, runId).server
    {
      var reply := ServeJobs(server, repo, runId);
      r, server := reply.answer, reply.server;
    }

    /** `client.Get` on the check-run annotations path. */
    method GetAnnotationList(repo: string, jobId: int) returns (r: Result<seq<Annotation>>)
      modifies this
      ensures r == ServeAnnotations(old(server), repo, jobId).answer
      ensures server == ServeAnnotations(old(server), repo, jobId).server
    {
      var reply := ServeAnnotations(server, repo, jobId);
      r, server := reply.answer, reply.server;
    }
  }
}
