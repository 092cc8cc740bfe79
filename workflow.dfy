/** The workflow dispatch command (cmd/workflow.go): trigger the dispatch,
    find the run it started, then poll and redraw that run on the alternate
    screen until it completes. `Resolve`, `Poll` and `Dispatch` are the
    specification; `GetWorkflowDispatchRunId` and `WorkflowDispatchRun` are
    the imperative code, proved to do what the specification says. */
module Workflow {
  import opened Api
  import opened Rest
  import opened Term
  import opened Shared

  // ---------------------------------------------------------------------------
  // Finding the dispatched run

  /** What one listing tells the resolver: `None` when the newest listed run
      is already completed (list again), otherwise the outcome. An empty
      listing ends in the out-of-range failure of indexing its first entry. */
  function Verdict(listing: Result<seq<WorkflowRun>>): Option<Result<int>>
  {
    match listing
    case Err(e) => Some(Err(e))
    case Ok(runs) =>
      if runs == [] then Some(Err(IndexOutOfRange))
      else if runs[0].status != Completed then Some(Ok(runs[0].id))
      else None
  }

  /** The number of leading listings that send the resolver round again. */
  function StaleListings(listings: seq<Result<seq<WorkflowRun>>>): (k: nat)
    ensures k <= |listings|
    ensures forall i :: 0 <= i < k ==> Verdict(listings[i]).None?
    ensures k < |listings| ==> Verdict(listings[k]).Some?
  {
    if listings == [] || Verdict(listings[0]).Some? then 0 else 1 + StaleListings(listings[1..])
  }

  datatype Resolved = Resolved(result: Result<int>, server: Server)

  /** getWorkflowDispatchRunID: list the runs until the newest one is not
      completed. */
  function Resolve(s: Server, repo: string, workflow: string): (r: Resolved)
    ensures r.server.(listings := s.listings, log := s.log) == s
    ensures s.log < r.server.log
    decreases |s.listings|
  {
    var reply := ServeListing(s, repo, workflow);
    match Verdict(reply.answer)
    case Some(v) => Resolved(v, reply.server)
    case None => Resolve(reply.server, repo, workflow)
  }

  method GetWorkflowDispatchRunId(client: Client, repo: string, workflow: string) returns (r: Result<int>)
    modifies client
    ensures r == Resolve(old(client.server), repo, workflow).result
    ensures client.server == Resolve(old(client.server), repo, workflow).server
  {
    ghost var total := Resolve(client.server, repo, workflow);
    while true
      invariant total == Resolve(client.server, repo, workflow)
      decreases |client.server.listings|
    {
      ghost var before := client.server;
      var listing := client.GetRunList(repo, workflow);
      if listing.Err? {
        return Err(listing.error);
      }
      var runs := listing.value;
      if |runs| == 0 {
        // indexing the first entry of an empty listing
        return Err(IndexOutOfRange);
      }
      if runs[0].status != Completed {
        return Ok(runs[0].id);
      }
      assert before.listings != [];
    }
  }

  /** The resolver reads listings until the first decisive one, sending one
      listing request each time, and answers what that listing says; with no
      decisive listing it lists until the server has no answer left. */
  lemma {:induction false} ResolveFirstDecisive(s: Server, repo: string, workflow: string)
    ensures var r := Resolve(s, repo, workflow);
      var k := StaleListings(s.listings);
      var req := ListRuns(repo, workflow);
      && r.result == (if k < |s.listings| then Verdict(s.listings[k]).value else Err(NoResponse(req)))
      && r.server.listings == Drop(s.listings, k + 1)
      && r.server.log == s.log + Repeat(req, k + 1)
    decreases |s.listings|
  {
    var req := ListRuns(repo, workflow);
    var reply := ServeListing(s, repo, workflow);
    if Verdict(reply.answer).None? {
      var t := reply.server;
      ResolveFirstDecisive(t, repo, workflow);
      assert s.listings[1..] == t.listings;
      assert StaleListings(s.listings) == 1 + StaleListings(t.listings);
      var k := StaleListings(t.listings);
      if k < |t.listings| {
        assert s.listings[k + 1] == t.listings[k];
      }
      assert Drop(s.listings, k + 2) == Drop(t.listings, k + 1);
      assert s.log + Repeat(req, k + 2) == t.log + Repeat(req, k + 1) by {
        assert Repeat(req, k + 2) == [req] + Repeat(req, k + 1) by {
          RepeatFront(req, k + 1);
        }
      }
    } else {
      assert s.listings != [] ==> Verdict(s.listings[0]).Some?;
      assert Repeat(req, 1) == [req];
    }
  }

  /** A repeated request can be split off at the front. */
  lemma RepeatFront(req: Request, n: nat)
    ensures Repeat(req, n + 1) == [req] + Repeat(req, n)
  {
    var a, b := Repeat(req, n + 1), [req] + Repeat(req, n);
    assert |a| == |b|;
    forall i | 0 <= i < |a| ensures a[i] == b[i] {
    }
  }

  /** The resolved id is that of a listed run that was not completed, the
      newest one of its listing. */
  lemma ResolvedRunIsActive(s: Server, repo: string, workflow: string)
    requires Resolve(s, repo, workflow).result.Ok?
    ensures exists i :: (0 <= i < |s.listings| && s.listings[i].Ok? && s.listings[i].value != []
                         && s.listings[i].value[0].status != Completed
                         && s.listings[i].value[0].id == Resolve(s, repo, workflow).result.value)
  {
    ResolveFirstDecisive(s, repo, workflow);
    var k := StaleListings(s.listings);
    assert k < |s.listings|;
  }

  /** When the first listing shows a run that is not completed, its id is
      returned after a single request. */
  lemma ResolveFirstListing(s: Server, repo: string, workflow: string, runs: seq<WorkflowRun>)
    requires s.listings != [] && s.listings[0] == Ok(runs)
    requires runs != [] && runs[0].status != Completed
    ensures Resolve(s, repo, workflow).result == Ok(runs[0].id)
    ensures Resolve(s, repo, workflow).server.log == s.log + [ListRuns(repo, workflow)]
  {
  }

  /** An empty listing met before any usable one fails the way indexing an
      empty list does, instead of listing again. */
  lemma ResolveEmptyListing(s: Server, repo: string, workflow: string)
    requires StaleListings(s.listings) < |s.listings|
    requires s.listings[StaleListings(s.listings)] == Ok([])
    ensures Resolve(s, repo, workflow).result == Err(IndexOutOfRange)
  {
    ResolveFirstDecisive(s, repo, workflow);
  }

  /** While the newest listed run stays completed (the dispatched run has not
      shown up yet, or never will), the resolver keeps listing: with a finite
      script it lists once more than there are listings, and then fails. */
  lemma ResolveWhileAllCompleted(s: Server, repo: string, workflow: string)
    requires forall i :: 0 <= i < |s.listings| ==> Verdict(s.listings[i]).None?
    ensures Resolve(s, repo, workflow).result == Err(NoResponse(ListRuns(repo, workflow)))
    ensures |Resolve(s, repo, workflow).server.log| == |s.log| + |s.listings| + 1
  {
    ResolveFirstDecisive(s, repo, workflow);
  }

  // ---------------------------------------------------------------------------
  // Polling the run

  /** Where the poll loop ended: server, cache and copy script after it, the
      frames drawn and the run snapshots rendered (both including those given
      at the start), the error returned, if any, the copy error the loop
      stopped on and discarded, if any, and what is left in the report buffer:
      the report of a render that found the run completed, which is never
      copied to the terminal. */
  datatype Polled = Polled(
    server: Server,
    cache: Cache,
    faults: seq<Option<Error>>,
    frames: seq<seq<Line>>,
    renders: seq<Run>,
    failure: Option<Error>,
    swallowed: Option<Error>,
    unflushed: seq<Line>)

  /** The screen drawn after a render of a run that is still going: the
      header, then the report if the copy went through. */
  function Frame(repo: string, runId: int, fault: Option<Error>, report: seq<Line>): seq<Line>
  {
    Header(repo, runId) + if fault.None? then report else []
  }

  /** The loop of workflowDispatchRun from snapshot `run` on: while the run is
      not completed, render it again; stop on a render error or when the fresh
      snapshot is completed; otherwise draw a frame with the header and the
      report, and stop if copying the report failed. */
  function Poll(s: Server, cache: Cache, faults: seq<Option<Error>>, repo: string, runId: int, run: Run,
                frames: seq<seq<Line>>, renders: seq<Run>): (r: Polled)
    decreases |s.runs|
  {
    if run.status == Completed then Polled(s, cache, faults, frames, renders, None, None, [])
    else
      var d := Render(s, cache, repo, run);
      match d.result
      case Err(e) => Polled(d.server, d.cache, faults, frames, renders, Some(e), None, [])
      case Ok(next) =>
        if next.status == Completed then Polled(d.server, d.cache, faults, frames, renders + [next], None, None, d.report)
        else
          var fault := NextFault(faults);
          var frames' := frames + [Frame(repo, runId, fault, d.report)];
          if fault.Some? then Polled(d.server, d.cache, Later(faults), frames', renders + [next], None, fault, [])
          else Poll(d.server, d.cache, Later(faults), repo, runId, next, frames', renders + [next])
  }

  /** Every frame from index `from` on starts with the header of `runId`. */
  ghost predicate HeadedFrom(frames: seq<seq<Line>>, from: nat, repo: string, runId: int)
  {
    forall i :: from <= i < |frames| ==> |frames[i]| >= 4 && frames[i][..4] == Header(repo, runId)
  }

  /** No snapshot at an index in [from, to) is completed. */
  ghost predicate NoneCompleted(runs: seq<Run>, from: int, to: int)
  {
    forall i :: from <= i < to && 0 <= i < |runs| ==> runs[i].status != Completed
  }

  /** The snapshots `rendered` are the first answers of the run queue. */
  ghost predicate Follows(replies: seq<Result<Run>>, rendered: seq<Run>)
  {
    |rendered| <= |replies| && forall i :: 0 <= i < |rendered| ==> replies[i] == Ok(rendered[i])
  }

  /** Every frame the loop draws starts with the header: the refresh banner
      and the permalink of the resolved run. */
  lemma {:induction false} PollFramesHeaded(s: Server, cache: Cache, faults: seq<Option<Error>>, repo: string,
                                            runId: int, run: Run, frames: seq<seq<Line>>, renders: seq<Run>)
    ensures var r := Poll(s, cache, faults, repo, runId, run, frames, renders);
      frames <= r.frames && HeadedFrom(r.frames, |frames|, repo, runId)
    decreases |s.runs|
  {
    if run.status != Completed {
      var d := Render(s, cache, repo, run);
      if d.result.Ok? && d.result.value.status != Completed {
        var frame := Frame(repo, runId, NextFault(faults), d.report);
        assert frame[..4] == Header(repo, runId);
        if NextFault(faults).None? {
          PollFramesHeaded(d.server, d.cache, Later(faults), repo, runId, d.result.value, frames + [frame],
                           renders + [d.result.value]);
        }
      }
    }
  }

  /** A run already completed is not rendered again: nothing is fetched
      and no frame is drawn. */
  lemma PollSkipsCompleted(s: Server, cache: Cache, faults: seq<Option<Error>>, repo: string,
                           runId: int, run: Run, frames: seq<seq<Line>>, renders: seq<Run>)
    requires run.status == Completed
    ensures Poll(s, cache, faults, repo, runId, run, frames, renders) == Polled(s, cache, faults, frames, renders, None, None, [])
  {
  }

  /** One frame per render, except for the render that finds the run
      completed, which draws none. */
  lemma {:induction false} PollCountsFrames(s: Server, cache: Cache, faults: seq<Option<Error>>, repo: string,
                                            runId: int, run: Run, frames: seq<seq<Line>>, renders: seq<Run>)
    ensures var r := Poll(s, cache, faults, repo, runId, run, frames, renders);
      && renders <= r.renders
      && (run.status != Completed ==> r.failure.Some? || |r.renders| > |renders|)
      && |r.frames| - |frames|
         == |r.renders| - |renders| - (if r.failure.None? && r.swallowed.None? && |r.renders| > |renders| then 1 else 0)
    decreases |s.runs|
  {
    var r := Poll(s, cache, faults, repo, runId, run, frames, renders);
    if run.status == Completed {
      assert r.renders == renders && r.frames == frames;
    } else {
      var d := Render(s, cache, repo, run);
      if d.result.Err? {
        assert r.renders == renders && r.frames == frames && r.failure.Some?;
      } else if d.result.value.status == Completed {
        assert r.renders == renders + [d.result.value] && r.frames == frames && r.failure.None? && r.swallowed.None?;
      } else if NextFault(faults).Some? {
        assert r.renders == renders + [d.result.value] && |r.frames| == |frames| + 1 && r.swallowed.Some?;
      } else {
        var frames', renders' := frames + [Frame(repo, runId, NextFault(faults), d.report)], renders + [d.result.value];
        PollCountsFrames(d.server, d.cache, Later(faults), repo, runId, d.result.value, frames', renders');
        assert r == Poll(d.server, d.cache, Later(faults), repo, runId, d.result.value, frames', renders');
        assert renders <= renders' && |frames'| == |frames| + 1 && |renders'| == |renders| + 1;
      }
    }
  }

  /** The loop renders no completed snapshot before its last one, and none at
      all when it stops on an error: it leaves as soon as one is completed. */
  lemma {:induction false} PollStopsAtCompleted(s: Server, cache: Cache, faults: seq<Option<Error>>, repo: string,
                                                runId: int, run: Run, frames: seq<seq<Line>>, renders: seq<Run>)
    ensures var r := Poll(s, cache, faults, repo, runId, run, frames, renders);
      && renders <= r.renders
      && (|r.renders| > |renders| ==> run.status != Completed)
      && NoneCompleted(r.renders, |renders|, |r.renders| - 1)
      && (r.failure.Some? || r.swallowed.Some? ==> NoneCompleted(r.renders, |renders|, |r.renders|))
    decreases |s.runs|
  {
    var r := Poll(s, cache, faults, repo, runId, run, frames, renders);
    if run.status != Completed {
      var d := Render(s, cache, repo, run);
      if d.result.Err? {
        assert r.renders == renders;
      } else {
        var next := d.result.value;
        var renders' := renders + [next];
        assert renders'[|renders|] == next;
        if next.status == Completed {
          assert r.renders == renders' && r.failure.None? && r.swallowed.None?;
        } else if NextFault(faults).Some? {
          assert r.renders == renders' && r.swallowed.Some?;
        } else {
          var frames' := frames + [Frame(repo, runId, NextFault(faults), d.report)];
          PollStopsAtCompleted(d.server, d.cache, Later(faults), repo, runId, next, frames', renders');
          assert r == Poll(d.server, d.cache, Later(faults), repo, runId, next, frames', renders');
          assert renders <= renders' <= r.renders;
          assert r.renders[|renders|] == next;
          var last := if r.failure.Some? || r.swallowed.Some? then |r.renders| else |r.renders| - 1;
          assert NoneCompleted(r.renders, |renders'|, last);
          forall i | |renders| <= i < last && 0 <= i < |r.renders| ensures r.renders[i].status != Completed {
            if i > |renders| {
              assert |renders'| <= i;
            }
          }
        }
      }
    }
  }

  /** The loop ends without error only once the run is completed: the last
      snapshot rendered (or the starting one, when none was) is completed. */
  lemma {:induction false} PollEndsCompleted(s: Server, cache: Cache, faults: seq<Option<Error>>, repo: string,
                                             runId: int, run: Run, frames: seq<seq<Line>>, renders: seq<Run>)
    ensures var r := Poll(s, cache, faults, repo, runId, run, frames, renders);
      && |renders| <= |r.renders|
      && (r.failure.None? && r.swallowed.None? && |r.renders| == |renders| ==> run.status == Completed)
      && (r.failure.None? && r.swallowed.None? && |r.renders| > |renders| ==>
            r.renders[|r.renders| - 1].status == Completed)
    decreases |s.runs|
  {
    var r := Poll(s, cache, faults, repo, runId, run, frames, renders);
    if run.status != Completed {
      var d := Render(s, cache, repo, run);
      if d.result.Err? {
        assert r.renders == renders && r.failure.Some?;
      } else {
        var next := d.result.value;
        var renders' := renders + [next];
        if next.status == Completed {
          assert r.renders == renders' && r.renders[|r.renders| - 1] == next;
        } else if NextFault(faults).Some? {
          assert r.renders == renders' && r.swallowed.Some?;
        } else {
          var frames' := frames + [Frame(repo, runId, NextFault(faults), d.report)];
          PollEndsCompleted(d.server, d.cache, Later(faults), repo, runId, next, frames', renders');
          assert r == Poll(d.server, d.cache, Later(faults), repo, runId, next, frames', renders');
        }
      }
    }
  }

  /** A suffix is its first element followed by the rest. */
  lemma SuffixCons<T>(a: seq<T>, k: nat)
    requires k < |a|
    ensures a[k..] == [a[k]] + a[k + 1..]
  {
  }

  /** A snapshot answered first, followed by snapshots that follow the
      remaining answers, follows the whole queue. */
  lemma FollowsCons(replies: seq<Result<Run>>, next: Run, rest: seq<Run>)
    requires replies != [] && replies[0] == Ok(next) && Follows(replies[1..], rest)
    ensures Follows(replies, [next] + rest)
  {
    forall i | 0 <= i < 1 + |rest| ensures replies[i] == Ok(([next] + rest)[i]) {
      if i > 0 {
        assert replies[i] == replies[1..][i - 1];
      }
    }
  }

  /** The snapshots rendered are the server's run answers, in order: the
      loop takes each answer as the next snapshot. */
  lemma {:induction false} PollFollowsScript(s: Server, cache: Cache, faults: seq<Option<Error>>, repo: string,
                                             runId: int, run: Run, frames: seq<seq<Line>>, renders: seq<Run>)
    ensures var r := Poll(s, cache, faults, repo, runId, run, frames, renders);
      renders <= r.renders && Follows(s.runs, r.renders[|renders|..])
    decreases |s.runs|
  {
    var r := Poll(s, cache, faults, repo, runId, run, frames, renders);
    if run.status != Completed {
      var d := Render(s, cache, repo, run);
      if d.result.Err? {
        assert r.renders == renders && r.renders[|renders|..] == [];
      } else {
        var next := d.result.value;
        var renders' := renders + [next];
        assert s.runs != [] && s.runs[0] == Ok(next);
        if next.status == Completed || NextFault(faults).Some? {
          assert r.renders == renders' && r.renders[|renders|..] == [next];
          assert Follows(s.runs, [next]);
        } else {
          var frames' := frames + [Frame(repo, runId, NextFault(faults), d.report)];
          PollFollowsScript(d.server, d.cache, Later(faults), repo, runId, next, frames', renders');
          assert r == Poll(d.server, d.cache, Later(faults), repo, runId, next, frames', renders');
          assert d.server.runs == s.runs[1..];
          var rest := r.renders[|renders'|..];
          assert renders' <= r.renders && r.renders[|renders|] == next;
          SuffixCons(r.renders, |renders|);
          FollowsCons(s.runs, next, rest);
        }
      }
    }
  }


  /** The annotation cache only grows over the whole loop. */
  lemma {:induction false} PollKeepsCache(s: Server, cache: Cache, faults: seq<Option<Error>>, repo: string,
                                          runId: int, run: Run, frames: seq<seq<Line>>, renders: seq<Run>)
    ensures CacheExtends(cache, Poll(s, cache, faults, repo, runId, run, frames, renders).cache)
    decreases |s.runs|
  {
    if run.status != Completed {
      var d := Render(s, cache, repo, run);
      RenderCycle(s, cache, repo, run);
      if d.result.Ok? && d.result.value.status != Completed && NextFault(faults).None? {
        var next := d.result.value;
        var frames', renders' := frames + [Frame(repo, runId, NextFault(faults), d.report)], renders + [next];
        PollKeepsCache(d.server, d.cache, Later(faults), repo, runId, next, frames', renders');
        assert Poll(s, cache, faults, repo, runId, run, frames, renders)
            == Poll(d.server, d.cache, Later(faults), repo, runId, next, frames', renders');
      }
    }
  }

  /** The loop only fetches runs, jobs and annotations: the dispatch and
      listing answers are left for later and the log only grows. */
  lemma {:induction false} PollOnlyPolls(s: Server, cache: Cache, faults: seq<Option<Error>>, repo: string,
                                         runId: int, run: Run, frames: seq<seq<Line>>, renders: seq<Run>)
    ensures var r := Poll(s, cache, faults, repo, runId, run, frames, renders);
      r.server.dispatches == s.dispatches && r.server.listings == s.listings && s.log <= r.server.log
    decreases |s.runs|
  {
    if run.status != Completed {
      var d := Render(s, cache, repo, run);
      RenderCycle(s, cache, repo, run);
      if d.result.Ok? && d.result.value.status != Completed && NextFault(faults).None? {
        var next := d.result.value;
        var frames', renders' := frames + [Frame(repo, runId, NextFault(faults), d.report)], renders + [next];
        PollOnlyPolls(d.server, d.cache, Later(faults), repo, runId, next, frames', renders');
        assert Poll(s, cache, faults, repo, runId, run, frames, renders)
            == Poll(d.server, d.cache, Later(faults), repo, runId, next, frames', renders');
      }
    }
  }

  /** When the loop `r`, started with `frames` drawn and copy script
      `faults`, stopped on a failed copy, it returns no error, and the failure
      it discarded is the copy outcome scripted for the last frame drawn. */
  ghost predicate SwallowedLast(r: Polled, frames: seq<seq<Line>>, faults: seq<Option<Error>>)
  {
    r.swallowed.Some? ==>
      && r.failure.None?
      && |frames| < |r.frames| <= |frames| + |faults|
      && r.swallowed == faults[|r.frames| - |frames| - 1]
  }

  /** The loop `r`, started with `renders` rendered, left a report in the
      buffer only if it ended without error on a fresh completed snapshot,
      and left it empty after an error, a failed copy or no render at all. */
  ghost predicate UnflushedOnlyAtEnd(r: Polled, renders: seq<Run>)
  {
    && (r.unflushed != [] ==>
          r.failure.None? && r.swallowed.None? && |r.renders| > |renders| && r.renders[|r.renders| - 1].status == Completed)
    && (r.failure.Some? || r.swallowed.Some? || |r.renders| == |renders| ==> r.unflushed == [])
  }

  /** The report buffer is left holding a report only when the loop ended
      on a fresh snapshot that is completed; that report was never drawn. */
  lemma {:induction false} PollLeavesFinalReport(s: Server, cache: Cache, faults: seq<Option<Error>>, repo: string,
                                                 runId: int, run: Run, frames: seq<seq<Line>>, renders: seq<Run>)
    ensures UnflushedOnlyAtEnd(Poll(s, cache, faults, repo, runId, run, frames, renders), renders)
    decreases |s.runs|
  {
    var r := Poll(s, cache, faults, repo, runId, run, frames, renders);
    if run.status != Completed {
      var d := Render(s, cache, repo, run);
      if d.result.Ok? {
        var next := d.result.value;
        var renders' := renders + [next];
        if next.status == Completed {
          assert r.renders == renders' && r.renders[|r.renders| - 1] == next;
          assert UnflushedOnlyAtEnd(r, renders);
        } else if NextFault(faults).None? {
          var frames' := frames + [Frame(repo, runId, NextFault(faults), d.report)];
          PollLeavesFinalReport(d.server, d.cache, Later(faults), repo, runId, next, frames', renders');
          assert r == Poll(d.server, d.cache, Later(faults), repo, runId, next, frames', renders');
          PollCountsFrames(d.server, d.cache, Later(faults), repo, runId, next, frames', renders');
          assert |r.renders| >= |renders'|;
          assert UnflushedOnlyAtEnd(r, renders);
        } else {
          assert r.unflushed == [];
        }
      } else {
        assert r.unflushed == [];
      }
    } else {
      assert r.unflushed == [];
    }
  }

  /** A failed copy ends the loop without an error, and the failure is the
      copy outcome scripted for the last frame drawn. */
  lemma {:induction false} PollSwallowsCopyError(s: Server, cache: Cache, faults: seq<Option<Error>>, repo: string,
                                                 runId: int, run: Run, frames: seq<seq<Line>>, renders: seq<Run>)
    ensures SwallowedLast(Poll(s, cache, faults, repo, runId, run, frames, renders), frames, faults)
    decreases |s.runs|
  {
    var r := Poll(s, cache, faults, repo, runId, run, frames, renders);
    if run.status != Completed {
      var d := Render(s, cache, repo, run);
      if d.result.Ok? && d.result.value.status != Completed {
        var next := d.result.value;
        var frames' := frames + [Frame(repo, runId, NextFault(faults), d.report)];
        if NextFault(faults).None? {
          PollSwallowsCopyError(d.server, d.cache, Later(faults), repo, runId, next, frames', renders + [next]);
          assert r == Poll(d.server, d.cache, Later(faults), repo, runId, next, frames', renders + [next]);
          if r.swallowed.Some? {
            var k := |r.frames| - |frames| - 1;
            assert faults != [] && faults[k] == Later(faults)[k - 1];
          }
        } else {
          assert r.frames == frames' && r.swallowed == faults[0] && r.failure.None?;
        }
      } else {
        assert r.swallowed.None?;
      }
    }
  }

  /** The frame drawn before a failed copy shows the header alone: the report
      was lost with the copy. */
  lemma {:induction false} PollSwallowedFrameBare(s: Server, cache: Cache, faults: seq<Option<Error>>, repo: string,
                                                  runId: int, run: Run, frames: seq<seq<Line>>, renders: seq<Run>)
    ensures var r := Poll(s, cache, faults, repo, runId, run, frames, renders);
      r.swallowed.Some? ==> r.frames != [] && r.frames[|r.frames| - 1] == Header(repo, runId)
    decreases |s.runs|
  {
    var r := Poll(s, cache, faults, repo, runId, run, frames, renders);
    if run.status != Completed {
      var d := Render(s, cache, repo, run);
      if d.result.Ok? && d.result.value.status != Completed {
        var next := d.result.value;
        var frames' := frames + [Frame(repo, runId, NextFault(faults), d.report)];
        if NextFault(faults).None? {
          PollSwallowedFrameBare(d.server, d.cache, Later(faults), repo, runId, next, frames', renders + [next]);
          assert r == Poll(d.server, d.cache, Later(faults), repo, runId, next, frames', renders + [next]);
        } else {
          assert r.frames == frames' && r.swallowed.Some?;
          assert Frame(repo, runId, NextFault(faults), d.report) == Header(repo, runId);
        }
      } else {
        assert r.swallowed.None?;
      }
    }
  }

  // ---------------------------------------------------------------------------
  // The whole command

  /** A command invocation: server and copy script after it, the frames
      drawn, the error returned, whether the alternate screen was entered, and
      the id of the run that was found. */
  datatype Session = Session(
    server: Server,
    faults: seq<Option<Error>>,
    frames: seq<seq<Line>>,
    failure: Option<Error>,
    entered: bool,
    runId: Option<int>)

  /** workflowDispatchRun: trigger the dispatch, resolve the run, fetch its
      first snapshot, then poll it with an empty annotation cache. */
  function Dispatch(s: Server, faults: seq<Option<Error>>, repo: string, workflow: string): Session
  {
    var posted := ServeDispatch(s, repo, workflow);
    if posted.answer.Err? then Session(posted.server, faults, [], Some(posted.answer.error), false, None)
    else
      var resolved := Resolve(posted.server, repo, workflow);
      if resolved.result.Err? then Session(resolved.server, faults, [], Some(resolved.result.error), false, None)
      else
        var runId := resolved.result.value;
        var first := ServeRun(resolved.server, repo, runId);
        if first.answer.Err? then
          Session(first.server, faults, [], Some(FailedToGetRun(first.answer.error)), false, Some(runId))
        else
          var p := Poll(first.server, map[], faults, repo, runId, first.answer.value, [], []);
          Session(p.server, p.faults, p.frames, p.failure, true, Some(runId))
  }

  /** Clears the screen and prints the header of a frame. */
  method ShowHeader(term: Terminal, repo: string, runId: int)
    modifies term
    ensures term.screens == old(term.screens) + [Header(repo, runId)]
    ensures term.alternate == old(term.alternate) && term.copyFaults == old(term.copyFaults)
  {
    ghost var before := term.screens;
    var banner, link := Banner(RefreshSeconds), Permalink(repo, runId);
    term.RefreshScreen();
    term.Println(banner);
    WriteToLastFrame(before, [], [banner]);
    assert [] + [banner] == [banner];
    assert term.screens == before + [[banner]];
    term.Println(Blank);
    WriteToLastFrame(before, [banner], [Blank]);
    assert [banner] + [Blank] == [banner, Blank];
    assert term.screens == before + [[banner, Blank]];
    term.Println(link);
    WriteToLastFrame(before, [banner, Blank], [link]);
    assert [banner, Blank] + [link] == [banner, Blank, link];
    assert term.screens == before + [[banner, Blank, link]];
    term.Println(Blank);
    WriteToLastFrame(before, [banner, Blank, link], [Blank]);
    assert [banner, Blank, link] + [Blank] == Header(repo, runId);
  }

  /** Draws one frame: the header, then the buffered report copied to the
      terminal, after which the buffer is emptied. A failed copy leaves the
      header alone on the screen. */
  method ShowFrame(term: Terminal, out: Buffer, repo: string, runId: int) returns (copyErr: Option<Error>)
    modifies term, out
    ensures copyErr == NextFault(old(term.copyFaults))
    ensures term.copyFaults == Later(old(term.copyFaults))
    ensures term.screens == old(term.screens) + [Frame(repo, runId, copyErr, old(out.lines))]
    ensures term.alternate == old(term.alternate)
    ensures out.lines == []
  {
    ghost var before := term.screens;
    ShowHeader(term, repo, runId);
    copyErr := term.Copy(out);
    if copyErr.None? {
      WriteToLastFrame(before, Header(repo, runId), out.lines);
    } else {
      assert Frame(repo, runId, copyErr, out.lines) == Header(repo, runId);
    }
    out.Reset();
  }

  /** The polling loop of workflowDispatchRun, from the first snapshot on,
      with an empty report buffer; it returns the error that ends the
      command, the copy error it stops on being discarded. */
  method PollRun(client: Client, term: Terminal, out: Buffer, cache: AnnotationCache, repo: string, runId: int, run: Run)
    returns (err: Option<Error>)
    requires out.lines == []
    modifies client, term, out, cache
    ensures var p := Poll(old(client.server), old(cache.entries), old(term.copyFaults), repo, runId, run, [], []);
      && err == p.failure
      && client.server == p.server
      && cache.entries == p.cache
      && term.copyFaults == p.faults
      && term.screens == old(term.screens) + p.frames
      && term.alternate == old(term.alternate)
      && out.lines == p.unflushed
  {
    ghost var screens0 := term.screens;
    ghost var frames: seq<seq<Line>> := [];
    ghost var renders: seq<Run> := [];
    ghost var total := Poll(client.server, cache.entries, term.copyFaults, repo, runId, run, frames, renders);
    var current := run;
    while current.status != Completed
      invariant out.lines == []
      invariant term.alternate == old(term.alternate)
      invariant term.screens == screens0 + frames
      invariant total == Poll(client.server, cache.entries, term.copyFaults, repo, runId, current, frames, renders)
      decreases |client.server.runs|
    {
      ghost var d := Render(client.server, cache.entries, repo, current);
      var next := RenderRun(out, client, repo, current, cache);
      if next.Err? {
        assert total == Polled(client.server, cache.entries, term.copyFaults, frames, renders, Some(next.error), None, []);
        return Some(next.error);
      }
      current := next.value;
      renders := renders + [current];
      if current.status == Completed {
        assert total == Polled(client.server, cache.entries, term.copyFaults, frames, renders, None, None, out.lines);
        break;
      }

      assert out.lines == d.report;
      var copyErr := ShowFrame(term, out, repo, runId);
      frames := frames + [Frame(repo, runId, copyErr, d.report)];
      assert term.screens == screens0 + frames;
      if copyErr.Some? {
        assert total == Polled(client.server, cache.entries, term.copyFaults, frames, renders, None, copyErr, []);
        break;
      }
      // the pause before the next poll is not modelled
    }
    assert total.failure.None? && total.server == client.server && total.faults == term.copyFaults;
    assert total.cache == cache.entries && total.frames == frames;
    assert term.screens == screens0 + total.frames;
    return None;
  }

  method WorkflowDispatchRun(client: Client, term: Terminal, repo: string, workflow: string) returns (err: Option<Error>)
    modifies client, term
    ensures var d := Dispatch(old(client.server), old(term.copyFaults), repo, workflow);
      && err == d.failure
      && client.server == d.server
      && term.copyFaults == d.faults
      && term.screens == old(term.screens) + d.frames
      && term.alternate == (if d.entered then d.failure.Some? else old(term.alternate))
  {
    var posted := client.Dispatch(repo, workflow);
    if posted.Err? {
      return Some(posted.error);
    }
    var resolved := GetWorkflowDispatchRunId(client, repo, workflow);
    if resolved.Err? {
      return Some(resolved.error);
    }
    var runId := resolved.value;
    var fetched := GetRun(client, repo, runId);
    if fetched.Err? {
      return Some(FailedToGetRun(fetched.error));
    }
    var run := fetched.value;

    var cache := new AnnotationCache();
    var out := new Buffer();
    term.StartAlternateScreen();
    err := PollRun(client, term, out, cache, repo, runId, run);
    if err.Some? {
      return err;
    }
    term.StopAlternateScreen();
  }

  /** The command first posts the dispatch; a rejected dispatch ends it with
      that error before anything else is requested or drawn and before the
      alternate screen is entered. */
  lemma DispatchPostsFirst(s: Server, faults: seq<Option<Error>>, repo: string, workflow: string)
    ensures var d := Dispatch(s, faults, repo, workflow);
      var posted := Answer(s.dispatches, PostDispatch(repo, workflow));
      && |d.server.log| > |s.log| && d.server.log[..|s.log| + 1] == s.log + [PostDispatch(repo, workflow)]
      && (posted.Err? ==> d.failure == Some(posted.error) && d.frames == [] && !d.entered
                          && d.server.log == s.log + [PostDispatch(repo, workflow)])
  {
    var log1 := s.log + [PostDispatch(repo, workflow)];
    var posted := ServeDispatch(s, repo, workflow);
    if posted.answer.Ok? {
      var resolved := Resolve(posted.server, repo, workflow);
      var d := Dispatch(s, faults, repo, workflow);
      assert log1 <= resolved.server.log;
      if resolved.result.Ok? {
        var first := ServeRun(resolved.server, repo, resolved.result.value);
        if first.answer.Ok? {
          PollOnlyPolls(first.server, map[], faults, repo, resolved.result.value, first.answer.value, [], []);
          assert first.server.log <= d.server.log;
        }
        assert log1 <= d.server.log;
      }
      assert d.server.log[..|s.log| + 1] == log1;
    }
  }

  /** Only a command that entered the alternate screen draws frames, and
      each of them starts with the header carrying the resolved run's
      permalink. */
  lemma DispatchFramesHeaded(s: Server, faults: seq<Option<Error>>, repo: string, workflow: string)
    ensures var d := Dispatch(s, faults, repo, workflow);
      && (d.frames != [] ==> d.entered)
      && (d.entered ==> d.runId.Some?)
      && (d.runId.Some? ==> HeadedFrom(d.frames, 0, repo, d.runId.value))
  {
    var posted := ServeDispatch(s, repo, workflow);
    if posted.answer.Ok? {
      var resolved := Resolve(posted.server, repo, workflow);
      if resolved.result.Ok? {
        var first := ServeRun(resolved.server, repo, resolved.result.value);
        if first.answer.Ok? {
          PollFramesHeaded(first.server, map[], faults, repo, resolved.result.value, first.answer.value, [], []);
        }
      }
    }
  }

  /** A command that returns no error entered the alternate screen (and
      leaves it), and either saw the run completed or gave up on a failed
      copy; a command that returns an error after entering the alternate
      screen failed in a render cycle, with a wrapped error. */
  lemma DispatchOutcome(s: Server, faults: seq<Option<Error>>, repo: string, workflow: string)
    ensures var d := Dispatch(s, faults, repo, workflow);
      && (d.failure.None? ==> d.entered)
      && (d.entered && d.failure.Some? ==>
            var e := d.failure.value;
            e.FailedToGetRun? || e.FailedToGetJobs? || e.FailedToGetAnnotations?)
  {
    var posted := ServeDispatch(s, repo, workflow);
    if posted.answer.Ok? {
      var resolved := Resolve(posted.server, repo, workflow);
      if resolved.result.Ok? {
        var first := ServeRun(resolved.server, repo, resolved.result.value);
        if first.answer.Ok? {
          PollFailsInRender(first.server, map[], faults, repo, resolved.result.value, first.answer.value, [], []);
        }
      }
    }
  }

  /** An error out of the loop is the wrapped error of a failed render cycle. */
  lemma {:induction false} PollFailsInRender(s: Server, cache: Cache, faults: seq<Option<Error>>, repo: string,
                                             runId: int, run: Run, frames: seq<seq<Line>>, renders: seq<Run>)
    ensures var r := Poll(s, cache, faults, repo, runId, run, frames, renders);
      r.failure.Some? ==>
        && r.swallowed.None?
        && (r.failure.value.FailedToGetRun? || r.failure.value.FailedToGetJobs?
            || r.failure.value.FailedToGetAnnotations?)
    decreases |s.runs|
  {
    if run.status != Completed {
      var d := Render(s, cache, repo, run);
      RenderCycle(s, cache, repo, run);
      if d.result.Ok? && d.result.value.status != Completed && NextFault(faults).None? {
        var next := d.result.value;
        var frames', renders' := frames + [Frame(repo, runId, NextFault(faults), d.report)], renders + [next];
        PollFailsInRender(d.server, d.cache, Later(faults), repo, runId, next, frames', renders');
        assert Poll(s, cache, faults, repo, runId, run, frames, renders)
            == Poll(d.server, d.cache, Later(faults), repo, runId, next, frames', renders');
      }
    }
  }

  // ---------------------------------------------------------------------------
  // A scripted session

  const ScriptRepo := "OWNER/REPO"
  const ScriptWorkflow := "ci.yml"

  /** The job the scripted server reports: run 123's completed build job. */
  const BuildJob := Job(123, 123, "build", Completed, "success")

  /** Run 123 as first answered (no status) and as finally answered. */
  const Pending := Run(123, 0, "", Other(""), "")
  const Done := Run(123, 0, "", Completed, "")

  /** A dispatch whose run is listed at once, whose first two snapshots have
      no status and whose third is completed, with one completed job without
      annotations. */
  const Script := Server(
    [Ok(())],
    [Ok([WorkflowRun(123, 1, "build", Queued, "")])],
    [Ok(Pending), Ok(Pending), Ok(Done)],
    [Ok([BuildJob]), Ok([BuildJob])],
    [Ok([])],
    [])

  /** The report of run 123: no annotations, so only the JOBS section. */
  const JobsReport := [Blank, Heading("JOBS"), JobTree([BuildJob])]

  /** The script once the dispatch is posted, the run resolved and fetched. */
  const Polling := Server([], [], [Ok(Pending), Ok(Done)], [Ok([BuildJob]), Ok([BuildJob])], [Ok([])],
    [PostDispatch(ScriptRepo, ScriptWorkflow), ListRuns(ScriptRepo, ScriptWorkflow), FetchRun(ScriptRepo, 123)])

  /** The script after the first render cycle. */
  const Rendered1 := Polling.(runs := [Ok(Done)], jobLists := [Ok([BuildJob])], annotationLists := [],
    log := Polling.log + [FetchRun(ScriptRepo, 123), FetchJobs(ScriptRepo, 123), FetchAnnotations(ScriptRepo, 123)])

  /** The script after the second render cycle: every answer used. */
  const Rendered2 := Rendered1.(runs := [], jobLists := [],
    log := Rendered1.log + [FetchRun(ScriptRepo, 123), FetchJobs(ScriptRepo, 123)])

  /** First cycle: the job's (empty) annotations are fetched and cached, as
      the job is completed, and the report shows the JOBS section. */
  lemma ScriptedFirstCycle()
    ensures Render(Polling, map[], ScriptRepo, Pending) == Rendered(Rendered1, map[123 := []], JobsReport, Ok(Pending))
  {
    var p := Pass(ServeJobs(ServeRun(Polling, ScriptRepo, 123).server, ScriptRepo, 123).server, map[], [], None);
    var q := Step(ScriptRepo, p, BuildJob);
    assert q == Pass(Rendered1, map[123 := []], [], None);
    assert [BuildJob][1..] == [];
    assert Accumulate(ScriptRepo, q, []) == q;
  }

  /** Second cycle: the job is served from the cache, and the run is
      completed. */
  lemma ScriptedSecondCycle()
    ensures Render(Rendered1, map[123 := []], ScriptRepo, Pending)
         == Rendered(Rendered2, map[123 := []], JobsReport, Ok(Done))
  {
    var p := Pass(ServeJobs(ServeRun(Rendered1, ScriptRepo, 123).server, ScriptRepo, 123).server, map[123 := []], [], None);
    assert Step(ScriptRepo, p, BuildJob) == p;
    assert [BuildJob][1..] == [];
    assert Accumulate(ScriptRepo, p, []) == p;
  }

  /** The scripted dispatch is accepted, run 123 is resolved from the first
      listing and its first snapshot is fetched. */
  lemma ScriptedStart()
    ensures var posted := ServeDispatch(Script, ScriptRepo, ScriptWorkflow);
      var resolved := Resolve(posted.server, ScriptRepo, ScriptWorkflow);
      && posted.answer.Ok?
      && resolved.result == Ok(123)
      && ServeRun(resolved.server, ScriptRepo, 123) == Reply(Ok(Pending), Polling)
  {
    var posted := ServeDispatch(Script, ScriptRepo, ScriptWorkflow);
    var resolved := Resolve(posted.server, ScriptRepo, ScriptWorkflow);
    assert resolved.result == Ok(123);
  }

  /** The scripted polling: two render cycles, one frame with the JOBS
      section, no error. */
  lemma ScriptedPolling()
    ensures Poll(Polling, map[], [], ScriptRepo, 123, Pending, [], [])
         == Polled(Rendered2, map[123 := []], [], [Header(ScriptRepo, 123) + JobsReport], [Pending, Done], None, None, JobsReport)
  {
    ScriptedFirstCycle();
    ScriptedSecondCycle();
    var frame := Frame(ScriptRepo, 123, None, JobsReport);
    assert [] + [frame] == [frame] && [] + [Pending] == [Pending];
    var r := Poll(Polling, map[], [], ScriptRepo, 123, Pending, [], []);
    assert r == Poll(Rendered1, map[123 := []], [], ScriptRepo, 123, Pending, [frame], [Pending]);
    assert r == Polled(Rendered2, map[123 := []], [], [frame], [Pending, Done], None, None, JobsReport);
  }

  /** Replaying the session: exactly one frame is drawn, with the header and
      the JOBS section; the job's annotations are fetched once; the command
      returns no error after leaving the alternate screen; every scripted
      answer is used. */
  lemma ScriptedDispatch()
    ensures var d := Dispatch(Script, [], ScriptRepo, ScriptWorkflow);
      && d.failure.None? && d.entered && d.runId == Some(123)
      && d.frames == [Header(ScriptRepo, 123) + JobsReport]
      && d.server == Rendered2
  {
    ScriptedStart();
    ScriptedPolling();
  }

}
