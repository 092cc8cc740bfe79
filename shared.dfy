/** One render cycle of a run (cmd/shared.go): re-fetch the run, fetch its
    jobs, gather the jobs' annotations through the annotation cache, and
    print the report into a buffer. `Accumulate` and `Render` are the
    specification; `RenderRun` and `GetAnnotations` are the imperative code,
    proved to compute exactly what the specification says. */
module Shared {
  import opened Api
  import opened Rest
  import opened Term

  /** Job id to the annotation list stored for it. */
  type Cache = map<int, seq<Annotation>>

  /** The cache a command invocation keeps across render cycles; render
      cycles add to it in place. */
  class AnnotationCache {
    var entries: Cache

    constructor ()
      ensures entries == map[]
    {
      entries := map[];
    }
  }

  /** Every entry of `before` is still in `after`, with the same value. */
  ghost predicate CacheExtends(before: Cache, after: Cache)
  {
    before.Keys <= after.Keys && forall k :: k in before ==> after[k] == before[k]
  }

  // ---------------------------------------------------------------------------
  // Fetching a run, its jobs and a job's annotations

  method GetRun(client: Client, repo: string, runId: int) returns (r: Result<Run>)
    modifies client
    ensures r == ServeRun(old(client.server), repo, runId).answer
    ensures client.server == ServeRun(old(client.server), repo, runId).server
  {
    r := client.GetRunSnapshot(repo, runId);
  }

  method GetJobs(client: Client, repo: string, runId: int) returns (r: Result<seq<Job>>)
    modifies client
    ensures r == ServeJobs(old(client.server), repo, runId).answer
    ensures client.server == ServeJobs(old(client.server), repo, runId).server
  {
    r := client.GetJobList(repo, runId);
  }

  /** The annotations as returned for `job`, each carrying the job's name. */
  function Stamped(raw: seq<Annotation>, job: Job): (r: seq<Annotation>)
    ensures |r| == |raw|
    ensures forall i :: 0 <= i < |raw| ==> r[i] == raw[i].(jobName := job.name)
  {
    if raw == [] then [] else [raw[0].(jobName := job.name)] + Stamped(raw[1..], job)
  }

  /** The answer of the annotation endpoint for `job`, stamped with its name. */
  function AnnotationsOf(s: Server, repo: string, job: Job): Reply<seq<Annotation>>
  {
    var reply := ServeAnnotations(s, repo, job.id);
    match reply.answer
    case Ok(raw) => Reply(Ok(Stamped(raw, job)), reply.server)
    case Err(_) => reply
  }

  method GetAnnotations(client: Client, repo: string, job: Job) returns (r: Result<seq<Annotation>>)
    modifies client
    ensures r == AnnotationsOf(old(client.server), repo, job).answer
    ensures client.server == AnnotationsOf(old(client.server), repo, job).server
  {
    var result := client.GetAnnotationList(repo, job.id);
    if result.Err? {
      return Err(result.error);
    }
    var raw := result.value;
    var annotations: seq<Annotation> := [];
    for i := 0 to |raw|
      invariant |annotations| == i
      invariant forall k :: 0 <= k < i ==> annotations[k] == raw[k].(jobName := job.name)
    {
      annotations := annotations + [raw[i].(jobName := job.name)];
    }
    assert annotations == Stamped(raw, job);
    return Ok(annotations);
  }

  // ---------------------------------------------------------------------------
  // The annotation loop of a render cycle

  /** The state of the annotation loop: the server, the cache, the annotation
      list accumulated so far and the error that stopped the loop, if any. */
  datatype Pass = Pass(server: Server, cache: Cache, acc: seq<Annotation>, failure: Option<Error>)

  /** One job of the loop. A job already in the cache is not fetched and the
      accumulated list becomes its cached list. Otherwise its annotations are
      fetched and appended, and a job that is not in progress gets the whole
      accumulated list as its cache entry. */
  function Step(repo: string, p: Pass, job: Job): Pass
  {
    if job.id in p.cache then p.(acc := p.cache[job.id])
    else
      var fetched := AnnotationsOf(p.server, repo, job);
      match fetched.answer
      case Err(e) => p.(server := fetched.server, failure := Some(e))
      case Ok(stamped) =>
        var acc := p.acc + stamped;
        Pass(fetched.server, if job.status != InProgress then p.cache[job.id := acc] else p.cache, acc, None)
  }

  /** The loop over `jobs`, stopping at the first failed fetch. */
  function Accumulate(repo: string, p: Pass, jobs: seq<Job>): (r: Pass)
    requires p.failure.None?
    ensures r.server.(annotationLists := p.server.annotationLists, log := p.server.log) == p.server
    ensures p.server.log <= r.server.log
    decreases |jobs|
  {
    if jobs == [] then p
    else
      var q := Step(repo, p, jobs[0]);
      if q.failure.Some? then q else Accumulate(repo, q, jobs[1..])
  }

  /** The cache only grows: no entry is overwritten or removed. */
  lemma {:induction false} AccumulateKeepsCache(repo: string, p: Pass, jobs: seq<Job>)
    requires p.failure.None?
    ensures CacheExtends(p.cache, Accumulate(repo, p, jobs).cache)
    decreases |jobs|
  {
    if jobs != [] {
      var q := Step(repo, p, jobs[0]);
      if q.failure.None? {
        AccumulateKeepsCache(repo, q, jobs[1..]);
      }
    }
  }

  /** A key the loop adds to the cache belongs to a job of the list that is
      not in progress. */
  lemma {:induction false} AccumulateCachesOnlySettled(repo: string, p: Pass, jobs: seq<Job>)
    requires p.failure.None?
    ensures forall k :: k in Accumulate(repo, p, jobs).cache && k !in p.cache ==>
        exists j :: j in jobs && j.id == k && j.status != InProgress
    decreases |jobs|
  {
    if jobs != [] {
      var q := Step(repo, p, jobs[0]);
      if q.failure.None? {
        AccumulateCachesOnlySettled(repo, q, jobs[1..]);
        var r := Accumulate(repo, q, jobs[1..]);
        forall k | k in r.cache && k !in p.cache
          ensures exists j :: j in jobs && j.id == k && j.status != InProgress
        {
          if k in q.cache {
            assert jobs[0].id == k && jobs[0].status != InProgress;
          } else {
            var j :| j in jobs[1..] && j.id == k && j.status != InProgress;
            assert j in jobs;
          }
        }
      }
    }
  }

  /** Every request the loop sends is an annotation fetch for a job of the
      list that was not in the cache when the loop began: a cached job is
      never fetched. */
  lemma {:induction false} AccumulateSkipsCached(repo: string, p: Pass, jobs: seq<Job>)
    requires p.failure.None?
    ensures && p.server.log <= Accumulate(repo, p, jobs).server.log
      && forall i :: |p.server.log| <= i < |Accumulate(repo, p, jobs).server.log| ==>
           exists j :: j in jobs && j.id !in p.cache && Accumulate(repo, p, jobs).server.log[i] == FetchAnnotations(repo, j.id)
    decreases |jobs|
  {
    if jobs != [] {
      var q := Step(repo, p, jobs[0]);
      if q.failure.None? {
        AccumulateSkipsCached(repo, q, jobs[1..]);
        var r := Accumulate(repo, q, jobs[1..]);
        forall i | |p.server.log| <= i < |r.server.log|
          ensures exists j :: j in jobs && j.id !in p.cache && r.server.log[i] == FetchAnnotations(repo, j.id)
        {
          if i < |q.server.log| {
            assert r.server.log[i] == q.server.log[i];
            assert jobs[0] in jobs && jobs[0].id !in p.cache;
          } else {
            var j :| j in jobs[1..] && j.id !in q.cache && r.server.log[i] == FetchAnnotations(repo, j.id);
            assert j in jobs;
          }
        }
      }
    }
  }

  /** When every job is cached, the loop fetches nothing, leaves the cache
      alone and ends with the cached list of the last job. */
  lemma {:induction false} AccumulateAllCached(repo: string, p: Pass, jobs: seq<Job>)
    requires p.failure.None?
    requires forall j :: j in jobs ==> j.id in p.cache
    ensures Accumulate(repo, p, jobs) == p.(acc := if jobs == [] then p.acc else p.cache[jobs[|jobs| - 1].id])
    decreases |jobs|
  {
    if jobs != [] {
      assert jobs[0] in jobs;
      var q := Step(repo, p, jobs[0]);
      forall j | j in jobs[1..] ensures j.id in q.cache {
        assert j in jobs;
      }
      AccumulateAllCached(repo, q, jobs[1..]);
      if |jobs| > 1 {
        assert jobs[1..][|jobs[1..]| - 1] == jobs[|jobs| - 1];
      }
    }
  }

  /** After a loop without failure, every job that is not in progress has a
      cache entry. */
  lemma {:induction false} AccumulateCachesSettled(repo: string, p: Pass, jobs: seq<Job>)
    requires p.failure.None?
    ensures Accumulate(repo, p, jobs).failure.None? ==> forall j :: j in jobs && j.status != InProgress ==> j.id in Accumulate(repo, p, jobs).cache
    decreases |jobs|
  {
    if jobs != [] {
      var q := Step(repo, p, jobs[0]);
      if q.failure.None? {
        AccumulateCachesSettled(repo, q, jobs[1..]);
        AccumulateKeepsCache(repo, q, jobs[1..]);
        var r := Accumulate(repo, q, jobs[1..]);
        forall j | j in jobs && j.status != InProgress && r.failure.None?
          ensures j.id in r.cache
        {
          if j != jobs[0] {
            assert j in jobs[1..];
          }
        }
      }
    }
  }

  /** After a loop without failure whose last job is not in progress, the
      accumulated list is that job's cache entry. */
  lemma {:induction false} AccumulateEndsOnCachedList(repo: string, p: Pass, jobs: seq<Job>)
    requires p.failure.None?
    ensures var r := Accumulate(repo, p, jobs);
      r.failure.None? && jobs != [] && jobs[|jobs| - 1].status != InProgress ==>
        jobs[|jobs| - 1].id in r.cache && r.acc == r.cache[jobs[|jobs| - 1].id]
    decreases |jobs|
  {
    if jobs != [] {
      var q := Step(repo, p, jobs[0]);
      if q.failure.None? && |jobs| > 1 {
        AccumulateEndsOnCachedList(repo, q, jobs[1..]);
        assert jobs[1..][|jobs[1..]| - 1] == jobs[|jobs| - 1];
      }
    }
  }

  /** A second cycle over the same jobs, none of them in progress, after a
      cycle without failure: no annotation is fetched, the cache does not
      change and the same annotation list results, whatever the list starts
      from. */
  lemma SecondCycleFetchesNothing(repo: string, p: Pass, jobs: seq<Job>, start: seq<Annotation>)
    requires p.failure.None?
    requires forall j :: j in jobs ==> j.status != InProgress
    requires jobs != []
    requires Accumulate(repo, p, jobs).failure.None?
    ensures var r := Accumulate(repo, p, jobs);
      Accumulate(repo, Pass(r.server, r.cache, start, None), jobs) == r
  {
    var r := Accumulate(repo, p, jobs);
    AccumulateCachesSettled(repo, p, jobs);
    AccumulateEndsOnCachedList(repo, p, jobs);
    AccumulateAllCached(repo, Pass(r.server, r.cache, start, None), jobs);
  }

  /** A job in progress that is not cached, and no job of the list with the
      same id is settled: the loop fetches its annotations (unless a fetch
      fails) and still leaves it out of the cache, so the next cycle fetches
      it again. */
  lemma {:induction false} AccumulateRefetchesRunning(repo: string, p: Pass, jobs: seq<Job>, job: Job)
    requires p.failure.None?
    requires job in jobs && job.status == InProgress && job.id !in p.cache
    requires forall j :: j in jobs && j.id == job.id ==> j.status == InProgress
    ensures var r := Accumulate(repo, p, jobs);
      && job.id !in r.cache
      && (r.failure.None? ==> FetchAnnotations(repo, job.id) in r.server.log[|p.server.log|..])
    decreases |jobs|
  {
    AccumulateCachesOnlySettled(repo, p, jobs);
    AccumulateSkipsCached(repo, p, jobs);
    var q := Step(repo, p, jobs[0]);
    if q.failure.None? {
      var r := Accumulate(repo, q, jobs[1..]);
      AccumulateSkipsCached(repo, q, jobs[1..]);
      if jobs[0].id == job.id {
        assert q.server.log == p.server.log + [FetchAnnotations(repo, job.id)];
        assert q.server.log <= r.server.log;
        assert r.server.log[|p.server.log|] == FetchAnnotations(repo, job.id);
      } else {
        assert job in jobs[1..];
        forall j | j in jobs[1..] && j.id == job.id ensures j.status == InProgress {
          assert j in jobs;
        }
        AccumulateRefetchesRunning(repo, q, jobs[1..], job);
        var suffix := r.server.log[|q.server.log|..];
        assert suffix == r.server.log[|p.server.log|..][|q.server.log| - |p.server.log|..];
      }
    }
  }

  /** A loop that reaches the end of a prefix of the jobs without failure
      goes on from where the prefix left it. */
  lemma {:induction false} AccumulateSplit(repo: string, p: Pass, jobs: seq<Job>, k: nat)
    requires p.failure.None? && k <= |jobs|
    requires Accumulate(repo, p, jobs[..k]).failure.None?
    ensures Accumulate(repo, p, jobs) == Accumulate(repo, Accumulate(repo, p, jobs[..k]), jobs[k..])
    decreases k
  {
    if k == 0 {
      assert jobs[..0] == [] && jobs[0..] == jobs;
    } else {
      var q := Step(repo, p, jobs[0]);
      assert jobs[..k][0] == jobs[0] && jobs[..k][1..] == jobs[1..][..k - 1];
      assert q.failure.None?;
      AccumulateSplit(repo, q, jobs[1..], k - 1);
      assert jobs[1..][k - 1..] == jobs[k..];
    }
  }

  /** Entries cached before a failed fetch stay in the cache: every job of a
      prefix the loop got through, if not in progress, keeps its entry,
      however the rest of the loop goes. */
  lemma AccumulateKeepsEarlierEntries(repo: string, p: Pass, jobs: seq<Job>, k: nat)
    requires p.failure.None? && k <= |jobs|
    requires Accumulate(repo, p, jobs[..k]).failure.None?
    ensures CacheExtends(Accumulate(repo, p, jobs[..k]).cache, Accumulate(repo, p, jobs).cache)
    ensures forall j :: j in jobs[..k] && j.status != InProgress ==> j.id in Accumulate(repo, p, jobs).cache
  {
    var w := Accumulate(repo, p, jobs[..k]);
    AccumulateSplit(repo, p, jobs, k);
    AccumulateKeepsCache(repo, w, jobs[k..]);
    AccumulateCachesSettled(repo, p, jobs[..k]);
  }

  /** A cache hit replaces the accumulated list instead of appending to it:
      when the last job was cached before the loop began, the loop ends with
      that job's entry, whatever the jobs before it added. */
  lemma {:induction false} AccumulateCacheHitReplaces(repo: string, p: Pass, jobs: seq<Job>)
    requires p.failure.None? && jobs != [] && jobs[|jobs| - 1].id in p.cache
    ensures Accumulate(repo, p, jobs).failure.None?
      ==> Accumulate(repo, p, jobs).acc == p.cache[jobs[|jobs| - 1].id]
    decreases |jobs|
  {
    var last := jobs[|jobs| - 1];
    var q := Step(repo, p, jobs[0]);
    if q.failure.None? {
      assert CacheExtends(p.cache, q.cache);
      if |jobs| > 1 {
        assert jobs[1..][|jobs[1..]| - 1] == last;
        AccumulateCacheHitReplaces(repo, q, jobs[1..]);
      }
    }
  }

  /** The first `n` scripted answers exist and are all successes. */
  ghost predicate AllOk<T>(replies: seq<Result<T>>, n: int)
  {
    n <= |replies| && forall i :: 0 <= i < n ==> replies[i].Ok?
  }

  /** The loop `r`, started on answer queue `replies` with log `before`,
      consumed one answer per request it sent, and, if it did not fail, only
      successful ones. */
  ghost predicate UsedInOrder(replies: seq<Result<seq<Annotation>>>, before: seq<Request>, r: Pass)
  {
    && |before| <= |r.server.log|
    && r.server.annotationLists == Drop(replies, |r.server.log| - |before|)
    && (r.failure.None? ==> AllOk(replies, |r.server.log| - |before|))
  }

  /** The loop sends one request per scripted answer it uses, and when it
      ends without failure every answer it used was a success. */
  lemma {:induction false} AccumulateUsesAnswersInOrder(repo: string, p: Pass, jobs: seq<Job>)
    requires p.failure.None?
    ensures UsedInOrder(p.server.annotationLists, p.server.log, Accumulate(repo, p, jobs))
    decreases |jobs|
  {
    var replies := p.server.annotationLists;
    if jobs == [] {
      assert Drop(replies, 0) == replies;
    } else {
      var q := Step(repo, p, jobs[0]);
      if q.failure.None? {
        AccumulateUsesAnswersInOrder(repo, q, jobs[1..]);
        var r := Accumulate(repo, q, jobs[1..]);
        assert Accumulate(repo, p, jobs) == r;
        if jobs[0].id in p.cache {
          assert q.server == p.server;
        } else {
          var m := |r.server.log| - |q.server.log|;
          assert |q.server.log| == |p.server.log| + 1;
          assert replies != [] && replies[0].Ok?;
          assert q.server.annotationLists == replies[1..];
          assert Drop(replies, m + 1) == Drop(replies[1..], m);
          if r.failure.None? {
            assert AllOk(replies[1..], m);
            forall i | 0 <= i < m + 1 ensures replies[i].Ok? {
              if i > 0 {
                assert replies[i] == replies[1..][i - 1];
              }
            }
          }
          assert UsedInOrder(replies, p.server.log, r);
        }
      } else {
        assert |q.server.log| == |p.server.log| + 1;
        assert Drop(replies, 1) == Later(replies);
        assert UsedInOrder(replies, p.server.log, q);
      }
    }
  }

  /** Every answer the loop used before its last one was a success: the loop
      moves to the next job only after a successful fetch. */
  lemma {:induction false} AccumulateOkBeforeLast(repo: string, p: Pass, jobs: seq<Job>)
    requires p.failure.None?
    ensures AllOk(p.server.annotationLists, |Accumulate(repo, p, jobs).server.log| - |p.server.log| - 1)
    decreases |jobs|
  {
    if jobs != [] {
      var replies := p.server.annotationLists;
      var q := Step(repo, p, jobs[0]);
      if q.failure.None? {
        AccumulateOkBeforeLast(repo, q, jobs[1..]);
        var r := Accumulate(repo, q, jobs[1..]);
        assert Accumulate(repo, p, jobs) == r;
        if jobs[0].id in p.cache {
          assert q.server == p.server;
        } else {
          var m := |r.server.log| - |q.server.log|;
          assert |q.server.log| == |p.server.log| + 1;
          assert replies != [] && replies[0].Ok?;
          assert q.server.annotationLists == replies[1..];
          assert AllOk(replies[1..], m - 1);
          forall i | 0 <= i < m ensures replies[i].Ok? {
            if i > 0 {
              assert replies[i] == replies[1..][i - 1];
            }
          }
        }
      }
    }
  }

  /** When the loop `r` failed, it failed on the last request it sent, and
      its error is the answer `replies` held for that request. */
  ghost predicate FailsOnLast(replies: seq<Result<seq<Annotation>>>, before: seq<Request>, r: Pass)
  {
    r.failure.Some? ==>
      && |before| < |r.server.log|
      && Answer(Drop(replies, |r.server.log| - |before| - 1), r.server.log[|r.server.log| - 1]) == Err(r.failure.value)
  }

  /** A failed loop reports the error of the last answer it used, so no job
      after the failing one is fetched. */
  lemma {:induction false} AccumulateStopsAtFirstFailure(repo: string, p: Pass, jobs: seq<Job>)
    requires p.failure.None?
    ensures FailsOnLast(p.server.annotationLists, p.server.log, Accumulate(repo, p, jobs))
    decreases |jobs|
  {
    if jobs != [] {
      var replies := p.server.annotationLists;
      var q := Step(repo, p, jobs[0]);
      if q.failure.None? {
        AccumulateStopsAtFirstFailure(repo, q, jobs[1..]);
        var r := Accumulate(repo, q, jobs[1..]);
        assert Accumulate(repo, p, jobs) == r;
        if jobs[0].id in p.cache {
          assert q.server == p.server;
        } else if r.failure.Some? {
          var m := |r.server.log| - |q.server.log|;
          assert |q.server.log| == |p.server.log| + 1;
          assert replies != [] && q.server.annotationLists == replies[1..];
          assert Drop(replies, m) == Drop(replies[1..], m - 1);
          assert FailsOnLast(replies, p.server.log, r);
        }
      } else {
        var req := FetchAnnotations(repo, jobs[0].id);
        assert q.server.log == p.server.log + [req] && q.server.log[|q.server.log| - 1] == req;
        assert Drop(replies, 0) == replies && Answer(replies, req) == Err(q.failure.value);
        assert FailsOnLast(replies, p.server.log, q);
      }
    }
  }

  /** The lists concatenated in order. */
  function Concat(lists: seq<seq<Annotation>>): seq<Annotation>
  {
    if lists == [] then [] else lists[0] + Concat(lists[1..])
  }

  /** The stamped answers the server holds for `jobs`, one per job. */
  function ScriptedAnnotations(replies: seq<Result<seq<Annotation>>>, jobs: seq<Job>): (r: seq<seq<Annotation>>)
    requires |jobs| <= |replies|
    requires forall i :: 0 <= i < |jobs| ==> replies[i].Ok?
    ensures |r| == |jobs|
    ensures forall i :: 0 <= i < |jobs| ==> r[i] == Stamped(replies[i].value, jobs[i])
  {
    if jobs == [] then [] else [Stamped(replies[0].value, jobs[0])] + ScriptedAnnotations(replies[1..], jobs[1..])
  }

  /** A running total over a non-empty prefix peels off its first list. */
  lemma ConcatPrefix(acc: seq<Annotation>, lists: seq<seq<Annotation>>, i: nat)
    requires i < |lists|
    ensures acc + Concat(lists[..i + 1]) == (acc + lists[0]) + Concat(lists[1..][..i])
  {
    assert lists[..i + 1][0] == lists[0];
    assert lists[..i + 1][1..] == lists[1..][..i];
  }

  /** Appending a concatenation is appending its first list, then the rest. */
  lemma AppendConcat(acc: seq<Annotation>, lists: seq<seq<Annotation>>)
    requires lists != []
    ensures acc + Concat(lists) == (acc + lists[0]) + Concat(lists[1..])
  {
  }

  /** The conditions under which every job of `jobs` is fetched once and
      successfully: distinct ids, none cached, and an `Ok` answer scripted
      for each. */
  ghost predicate FetchesAll(p: Pass, jobs: seq<Job>)
  {
    && p.failure.None?
    && (forall a, b :: 0 <= a < b < |jobs| ==> jobs[a].id != jobs[b].id)
    && (forall j :: j in jobs ==> j.id !in p.cache)
    && |jobs| <= |p.server.annotationLists|
    && (forall i :: 0 <= i < |jobs| ==> p.server.annotationLists[i].Ok?)
  }

  /** The first step of a loop that fetches everything, and the conditions
      passing on to the rest of the jobs. */
  lemma FetchesAllStep(repo: string, p: Pass, jobs: seq<Job>)
    requires FetchesAll(p, jobs) && jobs != []
    ensures var q := Step(repo, p, jobs[0]);
      var fetched := ScriptedAnnotations(p.server.annotationLists, jobs);
      && q.failure.None?
      && q.acc == p.acc + fetched[0]
      && q.cache == (if jobs[0].status != InProgress then p.cache[jobs[0].id := q.acc] else p.cache)
      && q.server.annotationLists == p.server.annotationLists[1..]
      && ScriptedAnnotations(q.server.annotationLists, jobs[1..]) == fetched[1..]
      && FetchesAll(q, jobs[1..])
  {
    var replies := p.server.annotationLists;
    var job := jobs[0];
    assert job in jobs;
    var q := Step(repo, p, job);
    assert replies[0].Ok?;
    var tail := jobs[1..];
    forall a, b | 0 <= a < b < |tail| ensures tail[a].id != tail[b].id {
      assert tail[a] == jobs[a + 1] && tail[b] == jobs[b + 1];
    }
    forall j | j in tail ensures j.id !in q.cache {
      var b :| 0 <= b < |tail| && tail[b] == j;
      assert jobs[b + 1] == j;
      assert jobs[0].id != jobs[b + 1].id;
    }
    forall i | 0 <= i < |tail| ensures replies[1..][i].Ok? {
      assert replies[1..][i] == replies[i + 1];
    }
  }

  /** When every job is fetched successfully, the loop appends each job's
      annotations in order. */
  lemma {:induction false} AccumulateConcatenates(repo: string, p: Pass, jobs: seq<Job>)
    requires FetchesAll(p, jobs)
    ensures var r := Accumulate(repo, p, jobs);
      && r.failure.None?
      && r.acc == p.acc + Concat(ScriptedAnnotations(p.server.annotationLists, jobs))
    decreases |jobs|
  {
    if jobs != [] {
      var fetched := ScriptedAnnotations(p.server.annotationLists, jobs);
      FetchesAllStep(repo, p, jobs);
      var q := Step(repo, p, jobs[0]);
      AccumulateConcatenates(repo, q, jobs[1..]);
      AppendConcat(p.acc, fetched);
    }
  }

  /** When every job is fetched successfully, the entry cached for a job that
      is not in progress is the whole list accumulated up to and including
      that job, not that job's annotations alone. */
  lemma {:induction false} AccumulateCachesRunningTotals(repo: string, p: Pass, jobs: seq<Job>, i: nat)
    requires FetchesAll(p, jobs)
    requires i < |jobs| && jobs[i].status != InProgress
    ensures var r := Accumulate(repo, p, jobs);
      var fetched := ScriptedAnnotations(p.server.annotationLists, jobs);
      jobs[i].id in r.cache && r.cache[jobs[i].id] == p.acc + Concat(fetched[..i + 1])
    decreases |jobs|
  {
    var fetched := ScriptedAnnotations(p.server.annotationLists, jobs);
    FetchesAllStep(repo, p, jobs);
    var q := Step(repo, p, jobs[0]);
    ConcatPrefix(p.acc, fetched, i);
    if i == 0 {
      AccumulateKeepsCache(repo, q, jobs[1..]);
      assert fetched[1..][..0] == [];
    } else {
      assert jobs[1..][i - 1] == jobs[i];
      AccumulateCachesRunningTotals(repo, q, jobs[1..], i - 1);
    }
  }

  // ---------------------------------------------------------------------------
  // The report and the whole render cycle

  /** The report printed for a run: a blank line, then, when there are jobs,
      the JOBS section and, when annotations were gathered, the ANNOTATIONS
      section. */
  function Report(jobs: seq<Job>, annotations: seq<Annotation>): seq<Line>
  {
    if jobs == [] then [Blank]
    else
      [Blank, Heading("JOBS"), JobTree(jobs)]
      + if |annotations| > 0 then [Blank, Heading("ANNOTATIONS"), AnnotationTable(annotations)] else []
  }

  /** The report opens with a blank line; the JOBS section is there exactly
      when the run has jobs, and the ANNOTATIONS section exactly when it has
      jobs and annotations were gathered. */
  lemma ReportSections(jobs: seq<Job>, annotations: seq<Annotation>)
    ensures var r := Report(jobs, annotations);
      && r != [] && r[0] == Blank
      && (jobs == [] ==> r == [Blank])
      && (Heading("JOBS") in r <==> jobs != [])
      && (JobTree(jobs) in r <==> jobs != [])
      && (Heading("ANNOTATIONS") in r <==> jobs != [] && annotations != [])
      && (AnnotationTable(annotations) in r <==> jobs != [] && annotations != [])
  {
    var r := Report(jobs, annotations);
    if jobs != [] {
      assert r[1] == Heading("JOBS") && r[2] == JobTree(jobs);
      if annotations != [] {
        assert r[4] == Heading("ANNOTATIONS") && r[5] == AnnotationTable(annotations);
      }
    }
  }

  /** A render cycle: the server and cache after it, what it prints and the
      run it returns or the error it reports. */
  datatype Rendered = Rendered(server: Server, cache: Cache, report: seq<Line>, result: Result<Run>)

  /** renderRun as a function of the server and the cache. */
  function Render(s: Server, cache: Cache, repo: string, run: Run): (r: Rendered)
    ensures r.server.runs == Later(s.runs)
    ensures r.result.Ok? ==> r.result == Answer(s.runs, FetchRun(repo, run.id))
  {
    var runReply := ServeRun(s, repo, run.id);
    match runReply.answer
    case Err(e) => Rendered(runReply.server, cache, [], Err(FailedToGetRun(e)))
    case Ok(snapshot) =>
      var jobsReply := ServeJobs(runReply.server, repo, snapshot.id);
      match jobsReply.answer
      case Err(e) => Rendered(jobsReply.server, cache, [], Err(FailedToGetJobs(e)))
      case Ok(jobs) =>
        var w := Accumulate(repo, Pass(jobsReply.server, cache, [], None), jobs);
        if w.failure.Some? then Rendered(w.server, w.cache, [], Err(FailedToGetAnnotations(w.failure.value)))
        else Rendered(w.server, w.cache, Report(jobs, w.acc), Ok(snapshot))
  }

  /** What one render cycle does: it fetches exactly one run snapshot, by the
      id of the snapshot it is given, and sends no dispatch or listing
      request; the cache only grows; a failure prints nothing and is wrapped
      by the step that failed, and before the annotation loop it leaves the
      cache alone; a success returns the fresh snapshot and prints a report. */
  lemma RenderCycle(s: Server, cache: Cache, repo: string, run: Run)
    ensures var r := Render(s, cache, repo, run);
      var first := Answer(s.runs, FetchRun(repo, run.id));
      && r.server.dispatches == s.dispatches && r.server.listings == s.listings
      && s.log < r.server.log && r.server.log[|s.log|] == FetchRun(repo, run.id)
      && CacheExtends(cache, r.cache)
      && (r.result.Err? ==> r.report == [])
      && (r.result.Ok? ==> r.report != [] && r.report[0] == Blank)
      && (r.result.Err? ==>
            r.result.error.FailedToGetRun? || r.result.error.FailedToGetJobs? || r.result.error.FailedToGetAnnotations?)
      && (first.Err? ==> r.result == Err(FailedToGetRun(first.error)) && |r.server.log| == |s.log| + 1)
      && (r.result.Err? && !r.result.error.FailedToGetAnnotations? ==> r.cache == cache)
  {
    var runReply := ServeRun(s, repo, run.id);
    if runReply.answer.Ok? {
      var jobsReply := ServeJobs(runReply.server, repo, runReply.answer.value.id);
      if jobsReply.answer.Ok? {
        var jobs := jobsReply.answer.value;
        var p := Pass(jobsReply.server, cache, [], None);
        AccumulateKeepsCache(repo, p, jobs);
        ReportSections(jobs, Accumulate(repo, p, jobs).acc);
      }
    }
  }

  /** Each failing step of a render cycle reports its own error, wrapped:
      a failed jobs fetch gives the jobs error and, like a failed run fetch,
      leaves the cache alone; once the jobs are known, the cycle fails exactly
      when the annotation loop does, with that loop's error. Nothing is
      printed on failure. */
  lemma RenderFailures(s: Server, cache: Cache, repo: string, run: Run)
    ensures var r := Render(s, cache, repo, run);
      var first := Answer(s.runs, FetchRun(repo, run.id));
      first.Ok? ==>
        var afterRun := ServeRun(s, repo, run.id).server;
        var jobs := Answer(afterRun.jobLists, FetchJobs(repo, first.value.id));
        && (jobs.Err? ==> r.result == Err(FailedToGetJobs(jobs.error)) && r.cache == cache && r.report == [])
        && (jobs.Ok? ==>
              var w := Accumulate(repo, Pass(ServeJobs(afterRun, repo, first.value.id).server, cache, [], None), jobs.value);
              && (r.result.Err? <==> w.failure.Some?)
              && (w.failure.Some? ==> r.result == Err(FailedToGetAnnotations(w.failure.value)) && r.report == [])
              && r.cache == w.cache)
  {
  }

  /** The annotation loop of renderRun, equal to `Accumulate` from an empty
      list. */
  method AccumulateAnnotations(client: Client, repo: string, jobs: seq<Job>, cache: AnnotationCache)
    returns (annotations: seq<Annotation>, annotationErr: Option<Error>)
    modifies client, cache
    ensures var total := Accumulate(repo, Pass(old(client.server), old(cache.entries), [], None), jobs);
      total == Pass(client.server, cache.entries, annotations, annotationErr)
  {
    ghost var total := Accumulate(repo, Pass(client.server, cache.entries, [], None), jobs);
    annotations := [];
    annotationErr := None;
    var i := 0;
    while i < |jobs|
      invariant 0 <= i <= |jobs|
      invariant annotationErr.None?
      invariant total == Accumulate(repo, Pass(client.server, cache.entries, annotations, None), jobs[i..])
    {
      var job := jobs[i];
      assert jobs[i..][0] == job && jobs[i..][1..] == jobs[i + 1..];
      if job.id in cache.entries {
        annotations := cache.entries[job.id];
        i := i + 1;
        continue;
      }
      var fetchedAnnotations := GetAnnotations(client, repo, job);
      if fetchedAnnotations.Err? {
        annotationErr := Some(fetchedAnnotations.error);
        assert total == Pass(client.server, cache.entries, annotations, annotationErr);
        return;
      }
      annotations := annotations + fetchedAnnotations.value;
      if job.status != InProgress {
        cache.entries := cache.entries[job.id := annotations];
      }
      i := i + 1;
    }
  }

  /** The printing at the end of renderRun. */
  method PrintReport(out: Buffer, jobs: seq<Job>, annotations: seq<Annotation>)
    modifies out
    ensures out.lines == old(out.lines) + Report(jobs, annotations)
  {
    out.Println(Blank);
    if |jobs| == 0 {
      return;
    }
    out.Println(Heading("JOBS"));
    out.Println(JobTree(jobs));
    if |annotations| > 0 {
      out.Println(Blank);
      out.Println(Heading("ANNOTATIONS"));
      out.Println(AnnotationTable(annotations));
    }
  }

  /** renderRun: the imperative render cycle, equal to `Render`. */
  method RenderRun(out: Buffer, client: Client, repo: string, run: Run, cache: AnnotationCache) returns (r: Result<Run>)
    modifies out, client, cache
    ensures var d := Render(old(client.server), old(cache.entries), repo, run);
      && r == d.result
      && client.server == d.server
      && cache.entries == d.cache
      && out.lines == old(out.lines) + d.report
  {
    ghost var s0, c0 := client.server, cache.entries;
    var fetched := GetRun(client, repo, run.id);
    ghost var runReply := ServeRun(s0, repo, run.id);
    assert fetched == runReply.answer && client.server == runReply.server;
    if fetched.Err? {
      return Err(FailedToGetRun(fetched.error));
    }
    var current := fetched.value;

    var jobsReply := GetJobs(client, repo, current.id);
    ghost var jobsReply0 := ServeJobs(runReply.server, repo, current.id);
    if jobsReply.Err? {
      return Err(FailedToGetJobs(jobsReply.error));
    }
    var jobs := jobsReply.value;

    var annotations, annotationErr := AccumulateAnnotations(client, repo, jobs, cache);
    ghost var total := Accumulate(repo, Pass(jobsReply0.server, c0, [], None), jobs);
    ghost var d := Render(s0, c0, repo, run);
    assert d.server == total.server && d.cache == total.cache;

    if annotationErr.Some? {
      assert d.result == Err(FailedToGetAnnotations(annotationErr.value));
      return Err(FailedToGetAnnotations(annotationErr.value));
    }
    assert d.report == Report(jobs, annotations) && d.result == Ok(current);
    PrintReport(out, jobs, annotations);
    return Ok(current);
  }
}
