/** The scheduling loop of `work_flow` with `parents_status`, `submit` and `kill_job`. The
    job graph is the local dictionary of `work_flow`, threaded through the methods as a
    value; the outside world answers through a `World`, and every call to it is one event of
    the returned log. */
module Scheduler {
  import opened JobModel
  import opened GraphBuilder
  import opened GraphProperties
  import opened QueueAdapter
  import opened SchedulerTrace
  import opened SchedulerState

  /** How a run ends. `Finished` is the normal exit of the loop; the four failures are the
      `KeyError` of the graph builder and the three `sys.exit(1)` calls; `Unfinished` says
      the call budget `horizon` of the model ran out first. */
  datatype Outcome =
    | Finished
    | ConfigError(error: BuildError)
    | DepthQueryFailed(job: JobKey)
    | SubmitFailed(job: JobKey)
    | JobFailed(job: JobKey)
    | Unfinished

  /** `parents_status`: complete exactly when no parent is incomplete, so in particular for
      a job without parents. */
  function ParentsStatus(g: Graph, k: JobKey): (s: Status)
    requires k in g.jobs && forall p :: p in g.jobs[k].parents ==> p in g.jobs
    ensures s == Complete <==> forall p :: p in g.jobs[k].parents ==> g.jobs[p].status == Complete
  {
    var ps := g.jobs[k].parents;
    if |ps| == 0 then Complete
    else
      var statusList := seq(|ps|, i requires 0 <= i < |ps| => g.jobs[ps[i]].status);
      assert forall i :: 0 <= i < |ps| ==> statusList[i] == g.jobs[ps[i]].status;
      if Incomplete !in statusList then Complete else Incomplete
  }

  // ---------------------------------------------------------------------------------
  // `submit`.

  /** What `submit` ends with: a failed depth query, the submission made when the queue
      held `queued` jobs, or the call budget running out while the queue stayed full. */
  datatype SubmitResult = DepthError | Sent(queued: nat, reply: SubmitReply) | OutOfTime

  /** Depth replies that succeeded but were at or above the ceiling. */
  predicate Busy(evs: seq<Event>) {
    forall i :: 0 <= i < |evs| ==>
      evs[i].DepthQuery? && evs[i].depth.DepthOk? && evs[i].depth.count >= Ceiling
  }

  /** `submit`: query the depth of the queue, wait while it is at the ceiling, and submit
      `k` once it is below; a failed query ends the run. The new events are the replies
      `waits` at or above the ceiling, followed by a failed query, by nothing once the call
      budget runs out, or by a successful query below the ceiling and the submission itself. */
  method Submit(w: World, k: JobKey, log: seq<Event>, horizon: nat)
    returns (r: SubmitResult, log': seq<Event>, ghost waits: seq<Event>)
    requires Consistent(w, log)
    ensures Consistent(w, log') && |log'| > |log| && Busy(waits)
    ensures r.DepthError? ==> log' == log + waits + [DepthQuery(DepthFailed)] && log'[|log'| - 1] == DepthQuery(DepthFailed)
    ensures r.OutOfTime? ==> log' == log + waits && |log'| >= horizon
    ensures r.Sent? ==>
      r.queued < Ceiling && log' == log + waits + [DepthQuery(DepthOk(r.queued)), SubmitCmd(k, r.reply)] &&
      log'[|log'| - 1] == SubmitCmd(k, r.reply)
  {
    var d := w.depth(|log|);
    ConsistentSnoc(w, log, DepthQuery(d));
    log' := log + [DepthQuery(d)];
    waits := [];
    assert log' == log + waits + [DepthQuery(d)];
    if d.DepthFailed? {
      return DepthError, log', waits;
    }
    while d.count >= Ceiling && |log'| < horizon
      invariant d.DepthOk? && Consistent(w, log')
      invariant log' == log + waits + [DepthQuery(d)] && Busy(waits)
      decreases horizon - |log'|
    {
      var next := w.depth(|log'|);
      ConsistentSnoc(w, log', DepthQuery(next));
      Regroup(log, waits, DepthQuery(d), DepthQuery(next));
      waits := waits + [DepthQuery(d)];
      log' := log' + [DepthQuery(next)];
      d := next;
      if d.DepthFailed? {
        return DepthError, log', waits;
      }
    }
    if d.count >= Ceiling {
      Regroup(log, waits, DepthQuery(d), DepthQuery(d));
      waits := waits + [DepthQuery(d)];
      return OutOfTime, log', waits;
    }
    var reply := w.submit(|log'|, k);
    ConsistentSnoc(w, log', SubmitCmd(k, reply));
    Regroup(log, waits, DepthQuery(d), SubmitCmd(k, reply));
    log' := log' + [SubmitCmd(k, reply)];
    r := Sent(d.count, reply);
  }

  lemma Regroup(a: seq<Event>, b: seq<Event>, x: Event, y: Event)
    ensures a + b + [x] == a + (b + [x])
    ensures a + b + [x] + [y] == a + (b + [x]) + [y] == a + b + [x, y]
  {
  }

  // ---------------------------------------------------------------------------------
  // `kill_job`.

  lemma KillStep(g: Graph, order: seq<JobKey>, log: seq<Event>, before: seq<Event>, after: seq<Event>, j: JobKey, b: bool)
    requires |before| >= |log| && before[..|log|] == log && KillBlocks(g, order, before[|log|..]) && j in g.jobs
    requires after == before + if !b && g.jobs[j].jobId != "" then [KillCheck(j, b), Cancel(g.jobs[j].jobId)]
                               else [KillCheck(j, b)]
    ensures |after| >= |log| && after[..|log|] == log && KillBlocks(g, order + [j], after[|log|..])
  {
    KillBlocksSnoc(g, order, before[|log|..], j, b);
    var blk := if !b && g.jobs[j].jobId != "" then [KillCheck(j, b), Cancel(g.jobs[j].jobId)] else [KillCheck(j, b)];
    assert after[|log|..] == before[|log|..] + blk;
  }

  /** `kill_job`: over the frontier `jobs`, in some order, check each marker and cancel the
      queue id of each job whose marker is missing and whose id is not empty. */
  method Kill(g: Graph, jobs: set<JobKey>, w: World, log: seq<Event>) returns (log': seq<Event>, ghost order: seq<JobKey>)
    requires jobs <= g.jobs.Keys && Consistent(w, log)
    ensures Consistent(w, log') && |log'| >= |log| && log'[..|log|] == log
    ensures Distinct(order) && Elems(order) == jobs && KillBlocks(g, order, log'[|log|..])
  {
    log' := log;
    order := [];
    var todo := jobs;
    assert log'[|log|..] == [];
    while todo != {}
      invariant todo <= jobs && todo + Elems(order) == jobs && todo !! Elems(order)
      invariant Distinct(order)
      invariant Consistent(w, log') && |log'| >= |log| && log'[..|log|] == log
      invariant KillBlocks(g, order, log'[|log|..])
      decreases todo
    {
      var j :| j in todo;
      var b := w.marker(|log'|, j);
      ghost var before := log';
      ConsistentSnoc(w, log', KillCheck(j, b));
      log' := log' + [KillCheck(j, b)];
      if !b && g.jobs[j].jobId != "" {
        ConsistentSnoc(w, log', Cancel(g.jobs[j].jobId));
        log' := log' + [Cancel(g.jobs[j].jobId)];
      }
      KillStep(g, order, log, before, log', j, b);
      assert Elems(order + [j]) == Elems(order) + {j};
      order := order + [j];
      todo := todo - {j};
    }
  }

  // ---------------------------------------------------------------------------------
  // One pass of the loop body, for one frontier job.

  datatype Visited = Keep | Drop | Halt(outcome: Outcome)

  /** The loop may go on after `log`: the invariant holds, and no call so far is one after
      which `work_flow` exits. */
  ghost predicate Live(g0: Graph, m: set<JobKey>, w: World, g: Graph, log: seq<Event>) {
    Tracking(g0, m, w, g, log) && NoFatal(log)
  }

  /** The abort of `work_flow` after job `k` vanished from the queue: the log up to the two
      confirmations obeys the trace rules, nothing before the second one exits the run, and
      `kill_job` ran over the frontier `jobs`. */
  ghost predicate AbortedAt(g0: Graph, m: set<JobKey>, w: World, g: Graph, jobs: set<JobKey>, k: JobKey, log: seq<Event>) {
    Consistent(w, log) &&
    exists n: nat :: n + 3 <= |log| && Tracking(g0, m, w, g, log[..n + 3]) && NoFatal(log[..n + 2]) &&
                     FailedTail(g, jobs, k, log, n)
  }

  /** What a halt of the loop body leaves: the last event explains it, and it is the first
      call of the log after which the run exits. */
  ghost predicate HaltedBy(g0: Graph, m: set<JobKey>, w: World, g: Graph, jobs: set<JobKey>,
                           log: seq<Event>, horizon: nat, o: Outcome) {
    match o
    case DepthQueryFailed(k) =>
      Tracking(g0, m, w, g, log) && |log| > 0 && log[|log| - 1] == DepthQuery(DepthFailed) && NoFatal(log[..|log| - 1])
    case SubmitFailed(k) =>
      Tracking(g0, m, w, g, log) && |log| > 0 && log[|log| - 1] == SubmitCmd(k, Rejected) && NoFatal(log[..|log| - 1])
    case JobFailed(k) => AbortedAt(g0, m, w, g, jobs, k, log)
    case Unfinished => Live(g0, m, w, g, log) && |log| >= horizon
    case _ => false
  }

  /** What `parents_status` reports complete: every parent is a job that is complete. */
  ghost predicate ParentsDone(g: Graph, k: JobKey)
    requires k in g.jobs
  {
    forall p :: p in g.jobs[k].parents ==> p in g.jobs && g.jobs[p].status == Complete
  }

  /** What `submit` logs after `log`: the depth replies `waits` at or above the ceiling, then
      a failed depth query, or nothing more once the call budget ran out, or a depth reply
      below the ceiling followed by the submission of `k`. */
  ghost predicate SubmitLog(k: JobKey, log: seq<Event>, waits: seq<Event>, log': seq<Event>) {
    && Busy(waits)
    && (|| log' == log + waits + [DepthQuery(DepthFailed)]
        || (|waits| > 0 && log' == log + waits)
        || (&& |log'| == |log| + |waits| + 2 && log'[..|log| + |waits|] == log + waits
            && DepthAllows(log'[..|log'| - 1])
            && log'[|log'| - 1].SubmitCmd? && log'[|log'| - 1].key == k))
  }

  /** How the submitting branch ends after `log`, decided by its last call: an accepted
      submission of `k` keeps the job in the frontier and stores the id it returned (which
      may be empty); a failed depth query or a refused submission halts the run; otherwise
      the call budget ran out while the queue was full. */
  ghost predicate SubmitEnd(g: Graph, k: JobKey, log: seq<Event>, horizon: nat, v: Visited, g': Graph, log': seq<Event>)
    requires k in g.jobs
  {
    && |log'| > |log| && log'[..|log|] == log
    && (exists waits :: SubmitLog(k, log, waits, log'))
    && (v == Keep || v == Halt(DepthQueryFailed(k)) || v == Halt(SubmitFailed(k)) || v == Halt(Unfinished))
    && (var e := log'[|log'| - 1];
        && (v == Keep <==> e.SubmitCmd? && e.key == k && e.submitted.Accepted?)
        && (v == Halt(DepthQueryFailed(k)) <==> e == DepthQuery(DepthFailed))
        && (v == Halt(SubmitFailed(k)) <==> e == SubmitCmd(k, Rejected))
        && (v == Halt(Unfinished) ==> |log'| >= horizon)
        && g' == if v == Keep then SetId(g, k, e.submitted.id) else g)
  }

  /** How the two confirmations after an absent status reply for `k` end: a marker found by
      either keeps the job; no marker on both aborts the run, the log going on with `kill_job`. */
  ghost predicate ConfirmEnd(w: World, k: JobKey, log: seq<Event>, v: Visited, log': seq<Event>) {
    var b1, b2 := w.marker(|log|, k), w.marker(|log| + 1, k);
    && (b1 ==> v == Keep && log' == log + [Recheck(k, true, false)])
    && (!b1 && b2 ==> v == Keep && log' == log + [Recheck(k, false, false), Recheck(k, true, true)])
    && (!b1 && !b2 ==>
          v == Halt(JobFailed(k)) && |log'| >= |log| + 2 &&
          log'[..|log| + 2] == log + [Recheck(k, false, false), Recheck(k, false, true)])
  }

  /** How the polling branch ends after `log` for `k` holding `id`: one status probe, and the
      confirmations when the reply says the queue no longer knows the job. */
  ghost predicate PollEnd(w: World, k: JobKey, id: string, log: seq<Event>, v: Visited, log': seq<Event>) {
    var st := w.status(|log|, id);
    var l1 := log + [StatusQuery(k, id, st)];
    && (!Absent(st) ==> v == Keep && log' == l1)
    && (Absent(st) ==> ConfirmEnd(w, k, l1, v, log'))
  }

  /** Which branch of the loop body runs for `k` after `log`: after the refresh, a complete job
      is dropped, and an incomplete one goes on as `WaitEnd` says. */
  ghost predicate VisitEnd(w: World, g: Graph, k: JobKey, log: seq<Event>, horizon: nat,
                           v: Visited, g': Graph, log': seq<Event>)
    requires k in g.jobs
  {
    var b := w.marker(|log|, k);
    var g1, l1 := (if b then SetComplete(g, k) else g), log + [MarkerCheck(k, b)];
    && (g1.jobs[k].status == Complete ==> v == Drop && g' == g1 && log' == l1)
    && (g1.jobs[k].status == Incomplete ==> WaitEnd(w, g1, k, l1, horizon, v, g', log'))
  }

  /** How the loop body goes on for an incomplete job `k` after `log`: without an id, it is
      submitted when its parents are complete and kept otherwise; holding an id, it is polled. */
  ghost predicate WaitEnd(w: World, g: Graph, k: JobKey, log: seq<Event>, horizon: nat,
                          v: Visited, g': Graph, log': seq<Event>)
    requires k in g.jobs
  {
    && (g.jobs[k].jobId == "" ==>
          if ParentsDone(g, k) then SubmitEnd(g, k, log, horizon, v, g', log')
          else v == Keep && g' == g && log' == log)
    && (g.jobs[k].jobId != "" ==> g' == g && PollEnd(w, k, g.jobs[k].jobId, log, v, log'))
  }

  /** The body of the loop of `work_flow` for frontier job `k`: refresh its marker; if it is
      incomplete and holds no id, submit it once its parents are complete; if it holds an id,
      probe the queue, and if the queue no longer knows it and two marker checks find no
      marker, kill the frontier and abort. The job is dropped from the frontier exactly when
      it is complete after the refresh. Only `k` changes. */
  method Visit(g0: Graph, m: set<JobKey>, w: World, g: Graph, jobs: set<JobKey>, k: JobKey,
               log: seq<Event>, horizon: nat)
    returns (v: Visited, g': Graph, log': seq<Event>)
    requires Live(g0, m, w, g, log) && k in jobs && jobs <= g.jobs.Keys
    ensures VisitEnd(w, g, k, log, horizon, v, g', log')
    ensures OnlyChanged(g, g', k)
    ensures g.jobs[k].status == Complete ==> g'.jobs[k].status == Complete
    ensures |log'| > |log|
    ensures !v.Halt? ==> Live(g0, m, w, g', log')
    ensures v.Drop? <==> !v.Halt? && g'.jobs[k].status == Complete
    ensures v.Halt? ==> v.outcome == DepthQueryFailed(k) || v.outcome == SubmitFailed(k) || v.outcome == JobFailed(k) ||
                         v.outcome == Unfinished
    ensures v.Halt? ==> HaltedBy(g0, m, w, g', jobs, log', horizon, v.outcome)
  {
    var b := w.marker(|log|, k);
    Refresh(g0, m, w, g, log, k);
    var l1 := log + [MarkerCheck(k, b)];
    var g1 := if b then SetComplete(g, k) else g;
    SetCompleteOnly(g, k);
    if g1.jobs[k].status == Complete {
      return Drop, g1, l1;
    }
    v, g', log' := Wait(g0, m, w, g1, jobs, k, l1, horizon);
    OnlyChangedTrans(g, g1, g', k);
  }

  /** The refresh of `k` keeps the loop going. */
  lemma Refresh(g0: Graph, m: set<JobKey>, w: World, g: Graph, log: seq<Event>, k: JobKey)
    requires Live(g0, m, w, g, log) && k in g.jobs
    ensures var b := w.marker(|log|, k);
      Live(g0, m, w, if b then SetComplete(g, k) else g, log + [MarkerCheck(k, b)])
  {
    RefreshStep(g0, m, w, g, log, k);
    NoFatalSnoc(log, MarkerCheck(k, w.marker(|log|, k)));
  }

  /** The loop body for a job still incomplete after the refresh. */
  method Wait(g0: Graph, m: set<JobKey>, w: World, g: Graph, jobs: set<JobKey>, k: JobKey,
              log: seq<Event>, horizon: nat)
    returns (v: Visited, g': Graph, log': seq<Event>)
    requires Live(g0, m, w, g, log) && k in jobs && jobs <= g.jobs.Keys && g.jobs[k].status == Incomplete
    ensures WaitEnd(w, g, k, log, horizon, v, g', log')
    ensures OnlyChanged(g, g', k) && g'.jobs[k].status == Incomplete
    ensures |log'| >= |log| && !v.Drop?
    ensures v.Keep? ==> Live(g0, m, w, g', log')
    ensures v.Halt? ==> v.outcome == DepthQueryFailed(k) || v.outcome == SubmitFailed(k) || v.outcome == JobFailed(k) ||
                         v.outcome == Unfinished
    ensures v.Halt? ==> HaltedBy(g0, m, w, g', jobs, log', horizon, v.outcome)
  {
    if g.jobs[k].jobId == "" {
      v, g', log' := Ready(g0, m, w, g, jobs, k, log, horizon);
    } else {
      g' := g;
      v, log' := Poll(g0, m, w, g, jobs, k, log, horizon);
      PolledEnd(w, g, k, log, horizon, v, log');
    }
  }

  /** The polling branch ends as `WaitEnd` says. */
  lemma PolledEnd(w: World, g: Graph, k: JobKey, log: seq<Event>, horizon: nat, v: Visited, log': seq<Event>)
    requires k in g.jobs && g.jobs[k].jobId != "" && PollEnd(w, k, g.jobs[k].jobId, log, v, log')
    ensures WaitEnd(w, g, k, log, horizon, v, g, log')
  {
  }

  /** The loop body for an incomplete job without an id: submit it once its parents are
      complete, and keep it waiting otherwise. */
  method Ready(g0: Graph, m: set<JobKey>, w: World, g: Graph, jobs: set<JobKey>, k: JobKey,
               log: seq<Event>, horizon: nat)
    returns (v: Visited, g': Graph, log': seq<Event>)
    requires Live(g0, m, w, g, log) && k in jobs && jobs <= g.jobs.Keys
    requires g.jobs[k].status == Incomplete && g.jobs[k].jobId == ""
    ensures WaitEnd(w, g, k, log, horizon, v, g', log')
    ensures OnlyChanged(g, g', k) && g'.jobs[k].status == Incomplete
    ensures |log'| >= |log| && !v.Drop?
    ensures v.Keep? ==> Live(g0, m, w, g', log')
    ensures v.Halt? ==> v.outcome == DepthQueryFailed(k) || v.outcome == SubmitFailed(k) || v.outcome == Unfinished
    ensures v.Halt? ==> HaltedBy(g0, m, w, g', jobs, log', horizon, v.outcome)
  {
    ParentsKnown(g0, m, w, g, log, k);
    if ParentsStatus(g, k) == Complete {
      v, g', log' := SubmitJob(g0, m, w, g, jobs, k, log, horizon);
      SubmittedEnd(w, g, k, log, horizon, v, g', log');
    } else {
      v, g', log' := Keep, g, log;
      HeldEnd(w, g, k, log, horizon);
    }
  }

  /** The parents of a job of the graph are jobs of the graph, and `parents_status` reports
      complete exactly when they all are. */
  lemma ParentsKnown(g0: Graph, m: set<JobKey>, w: World, g: Graph, log: seq<Event>, k: JobKey)
    requires Tracking(g0, m, w, g, log) && k in g.jobs
    ensures forall p :: p in g.jobs[k].parents ==> p in g.jobs
    ensures ParentsStatus(g, k) == Complete <==> ParentsDone(g, k)
  {
    assert Shape(g.jobs[k]) == Shape(g0.jobs[k]);
    assert ChildOfParents(g0, k);
  }

  /** The submitting branch ends as `WaitEnd` says. */
  lemma SubmittedEnd(w: World, g: Graph, k: JobKey, log: seq<Event>, horizon: nat, v: Visited, g': Graph, log': seq<Event>)
    requires k in g.jobs && g.jobs[k].jobId == "" && ParentsDone(g, k)
    requires SubmitEnd(g, k, log, horizon, v, g', log')
    ensures WaitEnd(w, g, k, log, horizon, v, g', log')
  {
  }

  /** A job whose parents are not all complete keeps waiting, as `WaitEnd` says. */
  lemma HeldEnd(w: World, g: Graph, k: JobKey, log: seq<Event>, horizon: nat)
    requires k in g.jobs && g.jobs[k].jobId == "" && !ParentsDone(g, k)
    ensures WaitEnd(w, g, k, log, horizon, Keep, g, log)
  {
  }

  /** Depth replies at the ceiling, then one more depth reply, keep the invariant. */
  lemma AfterWaits(g0: Graph, m: set<JobKey>, w: World, g: Graph, log: seq<Event>, waits: seq<Event>, e: Event)
    requires Tracking(g0, m, w, g, log) && Busy(waits) && e.DepthQuery?
    requires Consistent(w, log + waits + [e])
    ensures Tracking(g0, m, w, g, log + waits + [e])
  {
    ConsistentLast(w, log + waits, e);
    DepthsStep(g0, m, w, g, log, waits);
    QuietStep(g0, m, w, g, log + waits, e);
  }

  /** Depth replies at the ceiling, one below it, then the submission of `k`: storing the
      reply's id keeps the invariant. */
  lemma AfterSubmit(g0: Graph, m: set<JobKey>, w: World, g: Graph, log: seq<Event>, waits: seq<Event>,
                    q: nat, k: JobKey, reply: SubmitReply)
    requires Tracking(g0, m, w, g, log) && k in g.jobs
    requires g.jobs[k].status == Incomplete && g.jobs[k].jobId == ""
    requires forall p :: p in g.jobs[k].parents ==> p in g.jobs && g.jobs[p].status == Complete
    requires Busy(waits) && q < Ceiling
    requires Consistent(w, log + waits + [DepthQuery(DepthOk(q)), SubmitCmd(k, reply)])
    ensures Tracking(g0, m, w, if reply.Accepted? then SetId(g, k, reply.id) else g,
                     log + waits + [DepthQuery(DepthOk(q)), SubmitCmd(k, reply)])
  {
    var pre := log + waits + [DepthQuery(DepthOk(q))];
    var e := SubmitCmd(k, reply);
    assert log + waits + [DepthQuery(DepthOk(q)), e] == pre + [e];
    ConsistentLast(w, pre, e);
    AfterWaits(g0, m, w, g, log, waits, DepthQuery(DepthOk(q)));
    assert pre[|pre| - 1] == DepthQuery(DepthOk(q));
    SubmitStep(g0, m, w, g, pre, k);
  }

  /** Depth replies at the ceiling exit nothing. */
  lemma NoFatalAfterWaits(log: seq<Event>, waits: seq<Event>)
    requires NoFatal(log) && Busy(waits)
    ensures NoFatal(log + waits)
  {
    forall e | e in log + waits ensures !Fatal(e) {
      if e in waits {
        var i :| 0 <= i < |waits| && waits[i] == e;
      }
    }
  }

  /** An event after which the run goes on exits nothing. */
  lemma NoFatalSnoc(log: seq<Event>, e: Event)
    requires NoFatal(log) && !Fatal(e)
    ensures NoFatal(log + [e])
  {
    forall x | x in log + [e] ensures !Fatal(x) {
      if x !in log {
        assert x in [e];
      }
    }
  }

  /** What `submit` logs before its last call exits nothing, and neither does an accepted
      submission. */
  lemma NoFatalSubmit(log: seq<Event>, waits: seq<Event>, q: nat, k: JobKey, reply: SubmitReply)
    requires NoFatal(log) && Busy(waits)
    ensures NoFatal(log + waits + [DepthQuery(DepthOk(q))])
    ensures reply.Accepted? ==> NoFatal(log + waits + [DepthQuery(DepthOk(q)), SubmitCmd(k, reply)])
  {
    NoFatalAfterWaits(log, waits);
    NoFatalSnoc(log + waits, DepthQuery(DepthOk(q)));
    if reply.Accepted? {
      NoFatalSnoc(log + waits + [DepthQuery(DepthOk(q))], SubmitCmd(k, reply));
      assert log + waits + [DepthQuery(DepthOk(q))] + [SubmitCmd(k, reply)] ==
             log + waits + [DepthQuery(DepthOk(q)), SubmitCmd(k, reply)];
    }
  }

  /** The loop body's verdict on what `submit` returned. */
  function SubmitVerdict(r: SubmitResult, k: JobKey): Visited {
    match r
    case DepthError => Halt(DepthQueryFailed(k))
    case OutOfTime => Halt(Unfinished)
    case Sent(_, reply) => if reply.Rejected? then Halt(SubmitFailed(k)) else Keep
  }

  /** Each way `submit` can end gives the submitting branch the end `SubmitEnd` describes. */
  lemma SubmitEnds(g: Graph, k: JobKey, log: seq<Event>, horizon: nat, r: SubmitResult, l2: seq<Event>, waits: seq<Event>)
    requires k in g.jobs && |l2| > |log| && Busy(waits)
    requires r.DepthError? ==> l2 == log + waits + [DepthQuery(DepthFailed)]
    requires r.OutOfTime? ==> l2 == log + waits && |l2| >= horizon
    requires r.Sent? ==> r.queued < Ceiling && l2 == log + waits + [DepthQuery(DepthOk(r.queued)), SubmitCmd(k, r.reply)]
    ensures SubmitEnd(g, k, log, horizon, SubmitVerdict(r, k),
                      if SubmitVerdict(r, k) == Keep then SetId(g, k, r.reply.id) else g, l2)
  {
    assert l2[..|log|] == log;
    if r.OutOfTime? {
      assert l2[|l2| - 1] == waits[|waits| - 1];
    }
    if r.Sent? {
      assert l2[..|log| + |waits|] == log + waits;
      assert l2[..|l2| - 1][|l2| - 2] == DepthQuery(DepthOk(r.queued));
    }
    assert SubmitLog(k, log, waits, l2);
  }

  /** A failed depth query in `submit` halts the run, explained by that query. */
  lemma DepthHalts(g0: Graph, m: set<JobKey>, w: World, g: Graph, jobs: set<JobKey>, k: JobKey, log: seq<Event>,
                   horizon: nat, l2: seq<Event>, waits: seq<Event>)
    requires Live(g0, m, w, g, log) && Consistent(w, l2) && Busy(waits)
    requires l2 == log + waits + [DepthQuery(DepthFailed)]
    ensures HaltedBy(g0, m, w, g, jobs, l2, horizon, DepthQueryFailed(k))
  {
    NoFatalAfterWaits(log, waits);
    AfterWaits(g0, m, w, g, log, waits, DepthQuery(DepthFailed));
    assert l2[..|l2| - 1] == log + waits;
    HaltLast(g0, m, w, g, jobs, l2, horizon, DepthQueryFailed(k));
  }

  /** Running out of calls while the queue stays full halts the run unfinished. */
  lemma TimeHalts(g0: Graph, m: set<JobKey>, w: World, g: Graph, jobs: set<JobKey>, log: seq<Event>,
                  horizon: nat, l2: seq<Event>, waits: seq<Event>)
    requires Live(g0, m, w, g, log) && Consistent(w, l2) && Busy(waits)
    requires l2 == log + waits && |l2| >= horizon && |l2| > |log|
    ensures HaltedBy(g0, m, w, g, jobs, l2, horizon, Unfinished)
  {
    NoFatalAfterWaits(log, waits);
    DepthsStep(g0, m, w, g, log, waits);
    HaltLast(g0, m, w, g, jobs, l2, horizon, Unfinished);
  }

  /** A refused submission halts the run, explained by that submission. */
  lemma RefusedHalts(g0: Graph, m: set<JobKey>, w: World, g: Graph, jobs: set<JobKey>, k: JobKey, log: seq<Event>,
                     horizon: nat, l2: seq<Event>, waits: seq<Event>, q: nat)
    requires Live(g0, m, w, g, log) && k in g.jobs && Consistent(w, l2) && Busy(waits) && q < Ceiling
    requires l2 == log + waits + [DepthQuery(DepthOk(q)), SubmitCmd(k, Rejected)]
    requires g.jobs[k].status == Incomplete && g.jobs[k].jobId == ""
    requires forall p :: p in g.jobs[k].parents ==> p in g.jobs && g.jobs[p].status == Complete
    ensures HaltedBy(g0, m, w, g, jobs, l2, horizon, SubmitFailed(k))
  {
    AfterSubmit(g0, m, w, g, log, waits, q, k, Rejected);
    NoFatalSubmit(log, waits, q, k, Rejected);
    assert l2[..|l2| - 1] == log + waits + [DepthQuery(DepthOk(q))];
    HaltLast(g0, m, w, g, jobs, l2, horizon, SubmitFailed(k));
  }

  /** An accepted submission keeps the loop going, with the returned id stored. */
  lemma SubmitKeeps(g0: Graph, m: set<JobKey>, w: World, g: Graph, k: JobKey, log: seq<Event>,
                    waits: seq<Event>, q: nat, reply: SubmitReply)
    requires Live(g0, m, w, g, log) && k in g.jobs && Busy(waits) && q < Ceiling && reply.Accepted?
    requires Consistent(w, log + waits + [DepthQuery(DepthOk(q)), SubmitCmd(k, reply)])
    requires g.jobs[k].status == Incomplete && g.jobs[k].jobId == ""
    requires forall p :: p in g.jobs[k].parents ==> p in g.jobs && g.jobs[p].status == Complete
    ensures Live(g0, m, w, SetId(g, k, reply.id), log + waits + [DepthQuery(DepthOk(q)), SubmitCmd(k, reply)])
  {
    AfterSubmit(g0, m, w, g, log, waits, q, k, reply);
    NoFatalSubmit(log, waits, q, k, reply);
  }

  /** The submitting branch of the loop body: `submit`, then store the returned id. */
  method SubmitJob(g0: Graph, m: set<JobKey>, w: World, g: Graph, jobs: set<JobKey>, k: JobKey, log: seq<Event>, horizon: nat)
    returns (v: Visited, g': Graph, log': seq<Event>)
    requires Live(g0, m, w, g, log) && k in g.jobs
    requires g.jobs[k].status == Incomplete && g.jobs[k].jobId == ""
    requires forall p :: p in g.jobs[k].parents ==> p in g.jobs && g.jobs[p].status == Complete
    ensures SubmitEnd(g, k, log, horizon, v, g', log')
    ensures OnlyChanged(g, g', k)
    ensures g'.jobs[k].status == Incomplete
    ensures v.Keep? ==> Live(g0, m, w, g', log')
    ensures v.Halt? ==> HaltedBy(g0, m, w, g', jobs, log', horizon, v.outcome)
  {
    var r, l2, waits := Submit(w, k, log, horizon);
    SubmitEnds(g, k, log, horizon, r, l2, waits);
    v := SubmitVerdict(r, k);
    log' := l2;
    if v == Keep {
      SubmitKeeps(g0, m, w, g, k, log, waits, r.queued, r.reply);
      SetIdOnly(g, k, r.reply.id);
      g' := SetId(g, k, r.reply.id);
    } else {
      match r {
        case DepthError => DepthHalts(g0, m, w, g, jobs, k, log, horizon, l2, waits);
        case OutOfTime => TimeHalts(g0, m, w, g, jobs, log, horizon, l2, waits);
        case Sent(q, reply) => RefusedHalts(g0, m, w, g, jobs, k, log, horizon, l2, waits, q);
      }
      g' := g;
    }
  }

  /** The polling branch of the loop body: probe the queue, and abort if it no longer knows
      the job and two marker checks find no marker. The status is not set here. */
  method Poll(g0: Graph, m: set<JobKey>, w: World, g: Graph, jobs: set<JobKey>, k: JobKey, log: seq<Event>, horizon: nat)
    returns (v: Visited, log': seq<Event>)
    requires Live(g0, m, w, g, log) && k in jobs && jobs <= g.jobs.Keys
    requires g.jobs[k].status == Incomplete && g.jobs[k].jobId != ""
    ensures PollEnd(w, k, g.jobs[k].jobId, log, v, log')
    ensures |log'| > |log|
    ensures v.Keep? || v == Halt(JobFailed(k))
    ensures v.Keep? ==> Live(g0, m, w, g, log')
    ensures v.Halt? ==> HaltedBy(g0, m, w, g, jobs, log', horizon, v.outcome)
  {
    var id := g.jobs[k].jobId;
    var st := w.status(|log|, id);
    StatusStep(g0, m, w, g, log, k);
    log' := log + [StatusQuery(k, id, st)];
    if !Absent(st) {
      return Keep, log';
    }
    v, log' := Confirm(g0, m, w, g, jobs, k, log', |log|, horizon);
  }

  /** The queue no longer knows `k`: check its marker twice, and abort when both checks
      find nothing. */
  method Confirm(g0: Graph, m: set<JobKey>, w: World, g: Graph, jobs: set<JobKey>, k: JobKey,
                 log: seq<Event>, n: nat, horizon: nat) returns (v: Visited, log': seq<Event>)
    requires Live(g0, m, w, g, log) && jobs <= g.jobs.Keys
    requires |log| == n + 1 && log[n].StatusQuery? && log[n].key == k && Absent(log[n].status)
    ensures ConfirmEnd(w, k, log, v, log')
    ensures |log'| > |log|
    ensures v.Keep? || v == Halt(JobFailed(k))
    ensures v.Keep? ==> Live(g0, m, w, g, log')
    ensures v.Halt? ==> HaltedBy(g0, m, w, g, jobs, log', horizon, v.outcome)
  {
    var b1 := w.marker(|log|, k);
    RecheckStep(g0, m, w, g, log, k, false);
    log' := log + [Recheck(k, b1, false)];
    if b1 {
      return Keep, log';
    }
    var b2 := w.marker(|log'|, k);
    assert log'[|log'| - 1] == Recheck(k, false, false);
    RecheckStep(g0, m, w, g, log', k, true);
    assert log'[n] == log[n] && log'[n + 1] == Recheck(k, false, false);
    ghost var first := log';
    log' := log' + [Recheck(k, b2, true)];
    if b2 {
      return Keep, log';
    }
    assert log' == log + [Recheck(k, false, false), Recheck(k, false, true)];
    log' := Abort(g0, m, w, g, jobs, k, log', n, first, horizon);
    v := Halt(JobFailed(k));
  }

  /** `kill_job` over the frontier after the poll of `k` found it gone from the queue. */
  method Abort(g0: Graph, m: set<JobKey>, w: World, g: Graph, jobs: set<JobKey>, k: JobKey,
               main: seq<Event>, n: nat, ghost first: seq<Event>, horizon: nat) returns (log': seq<Event>)
    requires Tracking(g0, m, w, g, main) && jobs <= g.jobs.Keys && |main| == n + 3
    requires main[n].StatusQuery? && main[n].key == k && Absent(main[n].status)
    requires main[n + 1] == Recheck(k, false, false) && main[n + 2] == Recheck(k, false, true)
    requires first == main[..n + 2] && NoFatal(first)
    ensures |log'| >= |main| && log'[..|main|] == main
    ensures HaltedBy(g0, m, w, g, jobs, log', horizon, JobFailed(k))
  {
    ghost var order;
    log', order := Kill(g, jobs, w, main);
    PollAborted(g0, m, w, g, jobs, k, main, n, log', order, horizon);
  }

  /** A halt explained by the last event of the log, which still keeps the invariant. */
  lemma HaltLast(g0: Graph, m: set<JobKey>, w: World, g: Graph, jobs: set<JobKey>, log: seq<Event>, horizon: nat, o: Outcome)
    requires Tracking(g0, m, w, g, log) && |log| > 0
    requires o.DepthQueryFailed? ==> log[|log| - 1] == DepthQuery(DepthFailed)
    requires o.SubmitFailed? ==> log[|log| - 1] == SubmitCmd(o.job, Rejected)
    requires o.DepthQueryFailed? || o.SubmitFailed? ==> NoFatal(log[..|log| - 1])
    requires o.Unfinished? ==> |log| >= horizon && NoFatal(log)
    requires o.DepthQueryFailed? || o.SubmitFailed? || o.Unfinished?
    ensures HaltedBy(g0, m, w, g, jobs, log, horizon, o)
  {
  }

  /** The abort after both confirmations of `k` found nothing, once `kill_job` has run. */
  lemma PollAborted(g0: Graph, m: set<JobKey>, w: World, g: Graph, jobs: set<JobKey>, k: JobKey,
                    main: seq<Event>, n: nat, l3: seq<Event>, order: seq<JobKey>, horizon: nat)
    requires Tracking(g0, m, w, g, main) && |main| == n + 3 && NoFatal(main[..n + 2])
    requires main[n].StatusQuery? && main[n].key == k && Absent(main[n].status)
    requires main[n + 1] == Recheck(k, false, false) && main[n + 2] == Recheck(k, false, true)
    requires Consistent(w, l3) && |l3| >= |main| && l3[..|main|] == main
    requires Distinct(order) && Elems(order) == jobs && KillBlocks(g, order, l3[|main|..])
    ensures HaltedBy(g0, m, w, g, jobs, l3, horizon, JobFailed(k))
  {
    PollTail(g, jobs, k, main, n, l3, order);
    assert l3[..n + 3] == main;
    assert l3[..n + 2] == main[..n + 2];
    assert Tracking(g0, m, w, g, l3[..n + 3]);
  }

  /** The events of the poll that finds `k` gone, followed by `kill_job`, form a failed tail. */
  lemma PollTail(g: Graph, jobs: set<JobKey>, k: JobKey, main: seq<Event>, n: nat, l3: seq<Event>, order: seq<JobKey>)
    requires |main| == n + 3
    requires main[n].StatusQuery? && main[n].key == k && Absent(main[n].status)
    requires main[n + 1] == Recheck(k, false, false) && main[n + 2] == Recheck(k, false, true)
    requires |l3| >= |main| && l3[..|main|] == main
    requires Distinct(order) && Elems(order) == jobs && KillBlocks(g, order, l3[|main|..])
    ensures FailedTail(g, jobs, k, l3, n)
  {
    assert l3[n] == main[n] && l3[n + 1] == main[n + 1] && l3[n + 2] == main[n + 2];
  }

  // ---------------------------------------------------------------------------------
  // One round over the frontier.

  datatype RoundEnd = Continue | Stop(outcome: Outcome)

  /** The frontier jobs that are complete: the ones a round removes. */
  ghost function Removed(g: Graph, jobs: set<JobKey>): set<JobKey> {
    set k | k in jobs && k in g.jobs && g.jobs[k].status == Complete
  }

  /** The jobs listed as Children of `ks` in the graph `g0`. */
  ghost function ChildrenOf(g0: Graph, ks: set<JobKey>): set<JobKey> {
    set k, c | k in ks && k in g0.jobs && c in g0.jobs[k].children :: c
  }

  lemma ChildrenOfAdd(g0: Graph, ks: set<JobKey>, k: JobKey)
    requires k in g0.jobs
    ensures ChildrenOf(g0, ks + {k}) == ChildrenOf(g0, ks) + Elems(g0.jobs[k].children)
  {
  }

  /** Visiting `k` adds it to the removed jobs exactly when it is dropped. */
  lemma RemovedStep(g: Graph, g': Graph, jobs: set<JobKey>, todo: set<JobKey>, k: JobKey, drop: bool)
    requires k in todo && todo <= jobs && jobs <= g.jobs.Keys && OnlyChanged(g, g', k)
    requires drop <==> g'.jobs[k].status == Complete
    ensures Removed(g', jobs - (todo - {k})) == Removed(g, jobs - todo) + (if drop then {k} else {})
  {
  }

  lemma MonotoneStep(g: Graph, g': Graph, g'': Graph, k: JobKey)
    requires Monotone(g, g') && k in g'.jobs && OnlyChanged(g', g'', k)
    requires g'.jobs[k].status == Complete ==> g''.jobs[k].status == Complete
    ensures Monotone(g, g'')
  {
  }

  /** Only the jobs of `jobs` may differ between `g` and `g'`. */
  ghost predicate Untouched(g: Graph, g': Graph, jobs: set<JobKey>) {
    forall j :: j in g.jobs && j !in jobs ==> j in g'.jobs && g'.jobs[j] == g.jobs[j]
  }

  /** Visiting a frontier job `k` keeps the jobs outside the frontier as they were. */
  lemma UntouchedStep(g: Graph, g': Graph, g2: Graph, jobs: set<JobKey>, k: JobKey)
    requires Untouched(g, g', jobs) && k in jobs && OnlyChanged(g', g2, k)
    ensures Untouched(g, g2, jobs)
  {
  }

  /** The state of a round after visiting the frontier jobs outside `todo`, none of which
      aborted: `removed` are the visited jobs that are complete and `added` their children. */
  ghost predicate RoundSoFar(g0: Graph, m: set<JobKey>, w: World, g: Graph, jobs: set<JobKey>, log: seq<Event>,
                             todo: set<JobKey>, g': Graph, log': seq<Event>, removed: set<JobKey>, added: set<JobKey>) {
    && todo <= jobs
    && Live(g0, m, w, g', log')
    && g'.order == g.order && g'.jobs.Keys == g.jobs.Keys && Monotone(g, g') && Untouched(g, g', jobs)
    && |log'| >= |log| && (todo != jobs ==> |log'| > |log|)
    && removed == Removed(g', jobs - todo)
    && added == ChildrenOf(g0, removed)
  }

  lemma RoundStart(g0: Graph, m: set<JobKey>, w: World, g: Graph, jobs: set<JobKey>, log: seq<Event>)
    requires Live(g0, m, w, g, log)
    ensures RoundSoFar(g0, m, w, g, jobs, log, jobs, g, log, {}, {})
  {
    assert Removed(g, jobs - jobs) == {};
    assert ChildrenOf(g0, {}) == {};
  }

  lemma RoundFinish(g0: Graph, m: set<JobKey>, w: World, g: Graph, jobs: set<JobKey>, log: seq<Event>,
                    g': Graph, log': seq<Event>, removed: set<JobKey>, added: set<JobKey>)
    requires RoundSoFar(g0, m, w, g, jobs, log, {}, g', log', removed, added)
    ensures Live(g0, m, w, g', log')
    ensures g'.order == g.order && g'.jobs.Keys == g.jobs.Keys && Monotone(g, g') && Untouched(g, g', jobs)
    ensures jobs != {} ==> |log'| > |log|
    ensures (jobs - removed) + added == (jobs - Removed(g', jobs)) + ChildrenOf(g0, Removed(g', jobs))
  {
    assert jobs - {} == jobs;
  }

  /** Visits one after the other: visit `i` takes job `ks[i]` from graph `gs[i]` and log
      `ls[i]` to `gs[i + 1]` and `ls[i + 1]` with verdict `vs[i]`, as `VisitEnd` says. */
  ghost predicate Visits(w: World, horizon: nat, ks: seq<JobKey>, vs: seq<Visited>, gs: seq<Graph>, ls: seq<seq<Event>>) {
    && |vs| == |ks| && |gs| == |ks| + 1 && |ls| == |ks| + 1
    && forall i :: 0 <= i < |ks| ==>
         ks[i] in gs[i].jobs && VisitEnd(w, gs[i], ks[i], ls[i], horizon, vs[i], gs[i + 1], ls[i + 1])
  }

  /** One more visit extends the chain. */
  lemma VisitsSnoc(w: World, horizon: nat, ks: seq<JobKey>, vs: seq<Visited>, gs: seq<Graph>, ls: seq<seq<Event>>,
                   k: JobKey, v: Visited, g': Graph, log': seq<Event>)
    requires Visits(w, horizon, ks, vs, gs, ls) && k in gs[|ks|].jobs
    requires VisitEnd(w, gs[|ks|], k, ls[|ks|], horizon, v, g', log')
    ensures Visits(w, horizon, ks + [k], vs + [v], gs + [g'], ls + [log'])
  {
    var ks2, vs2, gs2, ls2 := ks + [k], vs + [v], gs + [g'], ls + [log'];
    forall i | 0 <= i < |ks2|
      ensures ks2[i] in gs2[i].jobs && VisitEnd(w, gs2[i], ks2[i], ls2[i], horizon, vs2[i], gs2[i + 1], ls2[i + 1])
    {
      if i < |ks| {
        assert ks2[i] == ks[i] && vs2[i] == vs[i] && gs2[i] == gs[i] && ls2[i] == ls[i];
        assert gs2[i + 1] == gs[i + 1] && ls2[i + 1] == ls[i + 1];
      } else {
        assert ks2[i] == k && vs2[i] == v && gs2[i] == gs[|ks|] && ls2[i] == ls[|ks|];
        assert gs2[i + 1] == g' && ls2[i + 1] == log';
      }
    }
  }

  /** A round so far: the jobs `done` were visited once each, in the order `ks`, from `g` and
      `log` to `g'` and `log'`, and none of them halted the run. */
  ghost predicate VisitedSoFar(w: World, horizon: nat, g: Graph, log: seq<Event>, done: set<JobKey>, g': Graph, log': seq<Event>,
                               ks: seq<JobKey>, vs: seq<Visited>, gs: seq<Graph>, ls: seq<seq<Event>>) {
    && Visits(w, horizon, ks, vs, gs, ls)
    && gs[0] == g && ls[0] == log && gs[|ks|] == g' && ls[|ks|] == log'
    && Distinct(ks) && Elems(ks) == done
    && forall i :: 0 <= i < |ks| ==> !vs[i].Halt?
  }

  /** A whole round from `g` and `log` over the frontier `jobs`, ending as `r` in `g'` and
      `log'`: frontier jobs visited once each in the order `ks`, as `VisitEnd` says, where
      only the last visit of a stopped round halts and a round that goes on visits every
      frontier job. */
  ghost predicate VisitChain(w: World, horizon: nat, g: Graph, jobs: set<JobKey>, log: seq<Event>, r: RoundEnd,
                             g': Graph, log': seq<Event>, ks: seq<JobKey>, vs: seq<Visited>, gs: seq<Graph>, ls: seq<seq<Event>>) {
    && Visits(w, horizon, ks, vs, gs, ls)
    && gs[0] == g && ls[0] == log && gs[|ks|] == g' && ls[|ks|] == log'
    && Distinct(ks) && Elems(ks) <= jobs
    && (forall i :: 0 <= i < |ks| ==> (vs[i].Halt? <==> r.Stop? && i == |ks| - 1))
    && (r.Continue? ==> Elems(ks) == jobs)
    && (r.Stop? ==> |ks| > 0 && vs[|ks| - 1] == Halt(r.outcome))
  }

  /** Some order of visits makes the round from `g` and `log` over `jobs` end as `r` in `g'`
      and `log'`. */
  ghost predicate RoundVisits(w: World, horizon: nat, g: Graph, jobs: set<JobKey>, log: seq<Event>, r: RoundEnd,
                              g': Graph, log': seq<Event>) {
    exists ks, vs, gs, ls :: VisitChain(w, horizon, g, jobs, log, r, g', log', ks, vs, gs, ls)
  }

  lemma VisitedStart(w: World, horizon: nat, g: Graph, log: seq<Event>)
    ensures VisitedSoFar(w, horizon, g, log, {}, g, log, [], [], [g], [log])
  {
  }

  /** A visit that does not halt extends the round so far. */
  lemma VisitedStep(w: World, horizon: nat, g: Graph, log: seq<Event>, done: set<JobKey>, g': Graph, log': seq<Event>,
                    ks: seq<JobKey>, vs: seq<Visited>, gs: seq<Graph>, ls: seq<seq<Event>>,
                    k: JobKey, v: Visited, g2: Graph, l2: seq<Event>)
    requires VisitedSoFar(w, horizon, g, log, done, g', log', ks, vs, gs, ls)
    requires k !in done && k in g'.jobs && !v.Halt? && VisitEnd(w, g', k, log', horizon, v, g2, l2)
    ensures VisitedSoFar(w, horizon, g, log, done + {k}, g2, l2, ks + [k], vs + [v], gs + [g2], ls + [l2])
  {
    VisitsSnoc(w, horizon, ks, vs, gs, ls, k, v, g2, l2);
    assert Elems(ks + [k]) == Elems(ks) + {k};
    var vs2 := vs + [v];
    assert forall i :: 0 <= i < |ks| ==> vs2[i] == vs[i];
  }

  lemma DoneStep(jobs: set<JobKey>, todo: set<JobKey>, k: JobKey)
    requires k in todo && todo <= jobs
    ensures (jobs - todo) + {k} == jobs - (todo - {k})
  {
  }

  /** A round whose every frontier job was visited without a halt goes on. */
  lemma VisitedAll(w: World, horizon: nat, g: Graph, jobs: set<JobKey>, log: seq<Event>, g': Graph, log': seq<Event>,
                   ks: seq<JobKey>, vs: seq<Visited>, gs: seq<Graph>, ls: seq<seq<Event>>)
    requires VisitedSoFar(w, horizon, g, log, jobs, g', log', ks, vs, gs, ls)
    ensures RoundVisits(w, horizon, g, jobs, log, Continue, g', log')
  {
    assert VisitChain(w, horizon, g, jobs, log, Continue, g', log', ks, vs, gs, ls);
  }

  /** A visit that halts ends the round. */
  lemma VisitedHalt(w: World, horizon: nat, g: Graph, jobs: set<JobKey>, log: seq<Event>, done: set<JobKey>,
                    g': Graph, log': seq<Event>, ks: seq<JobKey>, vs: seq<Visited>, gs: seq<Graph>, ls: seq<seq<Event>>,
                    k: JobKey, o: Outcome, g2: Graph, l2: seq<Event>)
    requires VisitedSoFar(w, horizon, g, log, done, g', log', ks, vs, gs, ls) && done <= jobs
    requires k in jobs && k !in done && k in g'.jobs && VisitEnd(w, g', k, log', horizon, Halt(o), g2, l2)
    ensures RoundVisits(w, horizon, g, jobs, log, Stop(o), g2, l2)
  {
    VisitsSnoc(w, horizon, ks, vs, gs, ls, k, Halt(o), g2, l2);
    var ks2, vs2, gs2, ls2 := ks + [k], vs + [Halt(o)], gs + [g2], ls + [l2];
    assert Elems(ks2) == Elems(ks) + {k};
    assert forall i :: 0 <= i < |ks| ==> vs2[i] == vs[i];
    assert VisitChain(w, horizon, g, jobs, log, Stop(o), g2, l2, ks2, vs2, gs2, ls2);
  }

  /** The state of a round after visiting the frontier jobs outside `todo`: the bookkeeping
      of `RoundSoFar` and the visits so far. */
  ghost predicate RoundState(g0: Graph, m: set<JobKey>, w: World, horizon: nat, g: Graph, jobs: set<JobKey>, log: seq<Event>,
                             todo: set<JobKey>, g': Graph, log': seq<Event>, removed: set<JobKey>, added: set<JobKey>,
                             ks: seq<JobKey>, vs: seq<Visited>, gs: seq<Graph>, ls: seq<seq<Event>>) {
    RoundSoFar(g0, m, w, g, jobs, log, todo, g', log', removed, added) &&
    VisitedSoFar(w, horizon, g, log, jobs - todo, g', log', ks, vs, gs, ls)
  }

  /** A round stopped by outcome `o`: the graph changed only in the frontier and only
      forwards, the halt is explained, and the visits before it are recorded. */
  ghost predicate RoundStopped(g0: Graph, m: set<JobKey>, w: World, horizon: nat, g: Graph, jobs: set<JobKey>,
                               log: seq<Event>, o: Outcome, g': Graph, log': seq<Event>) {
    && g'.order == g.order && g'.jobs.Keys == g.jobs.Keys && Monotone(g, g') && Untouched(g, g', jobs)
    && HaltedBy(g0, m, w, g', jobs, log', horizon, o)
    && (!o.Unfinished? ==> o.job in jobs)
    && RoundVisits(w, horizon, g, jobs, log, Stop(o), g', log')
  }

  /** A round from `g` and `log` over the frontier `jobs` that ended as `r` in `g'`, with new
      frontier `jobs'` and log `log'`. The graph changed only in the frontier and only forwards.
      A continuing round visited every frontier job as `VisitEnd` says and kept the run live;
      its new frontier is the old one without its complete jobs, plus the children of those.
      A stopped round is explained by `RoundStopped`. */
  ghost predicate RoundDone(g0: Graph, m: set<JobKey>, w: World, horizon: nat, g: Graph, jobs: set<JobKey>,
                            log: seq<Event>, r: RoundEnd, g': Graph, jobs': set<JobKey>, log': seq<Event>) {
    && g'.order == g.order && g'.jobs.Keys == g.jobs.Keys && Monotone(g, g') && Untouched(g, g', jobs)
    && (jobs != {} ==> |log'| > |log|)
    && (r.Continue? ==>
          && Live(g0, m, w, g', log')
          && jobs' == (jobs - Removed(g', jobs)) + ChildrenOf(g0, Removed(g', jobs))
          && RoundVisits(w, horizon, g, jobs, log, Continue, g', log'))
    && (r.Stop? ==> RoundStopped(g0, m, w, horizon, g, jobs, log, r.outcome, g', log'))
  }

  /** A round whose every frontier job was visited without a halt is done. */
  lemma RoundContinues(g0: Graph, m: set<JobKey>, w: World, horizon: nat, g: Graph, jobs: set<JobKey>, log: seq<Event>,
                       g': Graph, log': seq<Event>, removed: set<JobKey>, added: set<JobKey>,
                       ks: seq<JobKey>, vs: seq<Visited>, gs: seq<Graph>, ls: seq<seq<Event>>)
    requires RoundState(g0, m, w, horizon, g, jobs, log, {}, g', log', removed, added, ks, vs, gs, ls)
    ensures RoundDone(g0, m, w, horizon, g, jobs, log, Continue, g', (jobs - removed) + added, log')
  {
    assert jobs - {} == jobs;
    VisitedAll(w, horizon, g, jobs, log, g', log', ks, vs, gs, ls);
    RoundFinish(g0, m, w, g, jobs, log, g', log', removed, added);
  }

  /** A round stopped by a visit is done. */
  lemma RoundStops(g0: Graph, m: set<JobKey>, w: World, horizon: nat, g: Graph, jobs: set<JobKey>, log: seq<Event>,
                   o: Outcome, g': Graph, log': seq<Event>)
    requires RoundStopped(g0, m, w, horizon, g, jobs, log, o, g', log') && jobs != {} && |log'| > |log|
    ensures RoundDone(g0, m, w, horizon, g, jobs, log, Stop(o), g', jobs, log')
  {
  }

  /** The body of the `for job in jobs` loop, with the visits so far. */
  method RoundNext(g0: Graph, m: set<JobKey>, w: World, g: Graph, jobs: set<JobKey>, log: seq<Event>, horizon: nat,
                   todo: set<JobKey>, g': Graph, log': seq<Event>, removed: set<JobKey>, added: set<JobKey>,
                   ghost ks: seq<JobKey>, ghost vs: seq<Visited>, ghost gs: seq<Graph>, ghost ls: seq<seq<Event>>)
    returns (v: Visited, k: JobKey, g2: Graph, l2: seq<Event>, removed2: set<JobKey>, added2: set<JobKey>,
             ghost ks2: seq<JobKey>, ghost vs2: seq<Visited>, ghost gs2: seq<Graph>, ghost ls2: seq<seq<Event>>)
    requires jobs <= g.jobs.Keys && todo != {}
    requires RoundState(g0, m, w, horizon, g, jobs, log, todo, g', log', removed, added, ks, vs, gs, ls)
    ensures k in todo && |l2| > |log|
    ensures !v.Halt? ==> RoundState(g0, m, w, horizon, g, jobs, log, todo - {k}, g2, l2, removed2, added2, ks2, vs2, gs2, ls2)
    ensures v.Halt? ==> RoundStopped(g0, m, w, horizon, g, jobs, log, v.outcome, g2, l2)
  {
    ks2, vs2, gs2, ls2 := ks, vs, gs, ls;
    v, k, g2, l2, removed2, added2 := RoundStep(g0, m, w, g, jobs, log, horizon, todo, g', log', removed, added);
    if v.Halt? {
      VisitedHalt(w, horizon, g, jobs, log, jobs - todo, g', log', ks, vs, gs, ls, k, v.outcome, g2, l2);
      return;
    }
    VisitedStep(w, horizon, g, log, jobs - todo, g', log', ks, vs, gs, ls, k, v, g2, l2);
    DoneStep(jobs, todo, k);
    ks2, vs2, gs2, ls2 := ks + [k], vs + [v], gs + [g2], ls + [l2];
  }

  /** One pass of the `for job in jobs` loop: visit some job `k` still to do. */
  method RoundStep(g0: Graph, m: set<JobKey>, w: World, g: Graph, jobs: set<JobKey>, log: seq<Event>, horizon: nat,
                   todo: set<JobKey>, g': Graph, log': seq<Event>, removed: set<JobKey>, added: set<JobKey>)
    returns (v: Visited, k: JobKey, g2: Graph, l2: seq<Event>, removed2: set<JobKey>, added2: set<JobKey>)
    requires jobs <= g.jobs.Keys && todo != {}
    requires RoundSoFar(g0, m, w, g, jobs, log, todo, g', log', removed, added)
    ensures k in todo && |l2| > |log|
    ensures k in g'.jobs && VisitEnd(w, g', k, log', horizon, v, g2, l2)
    ensures !v.Halt? ==> RoundSoFar(g0, m, w, g, jobs, log, todo - {k}, g2, l2, removed2, added2)
    ensures v.Halt? ==> g2.order == g.order && g2.jobs.Keys == g.jobs.Keys && Monotone(g, g2) && Untouched(g, g2, jobs)
    ensures v.Halt? ==> v.outcome == DepthQueryFailed(k) || v.outcome == SubmitFailed(k) || v.outcome == JobFailed(k) ||
                         v.outcome == Unfinished
    ensures v.Halt? ==> HaltedBy(g0, m, w, g2, jobs, l2, horizon, v.outcome)
  {
    k :| k in todo;
    v, g2, l2 := Visit(g0, m, w, g', jobs, k, log', horizon);
    MonotoneStep(g, g', g2, k);
    UntouchedStep(g, g', g2, jobs, k);
    removed2, added2 := removed, added;
    if v.Halt? {
      return;
    }
    if v.Drop? {
      removed2 := removed + {k};
      added2 := added + Elems(g2.jobs[k].children);
    }
    RoundSoFarStep(g0, m, w, g, jobs, log, todo, g', log', removed, added, k, v.Drop?, g2, l2);
  }

  lemma RoundSoFarStep(g0: Graph, m: set<JobKey>, w: World, g: Graph, jobs: set<JobKey>, log: seq<Event>,
                       todo: set<JobKey>, g': Graph, log': seq<Event>, removed: set<JobKey>, added: set<JobKey>,
                       k: JobKey, drop: bool, g2: Graph, l2: seq<Event>)
    requires jobs <= g.jobs.Keys && k in todo
    requires RoundSoFar(g0, m, w, g, jobs, log, todo, g', log', removed, added)
    requires Live(g0, m, w, g2, l2) && |l2| > |log'| && Monotone(g, g2) && Untouched(g, g2, jobs)
    requires OnlyChanged(g', g2, k)
    requires drop <==> g2.jobs[k].status == Complete
    ensures RoundSoFar(g0, m, w, g, jobs, log, todo - {k}, g2, l2,
                       if drop then removed + {k} else removed,
                       if drop then added + Elems(g2.jobs[k].children) else added)
  {
    RemovedStep(g', g2, jobs, todo, k, drop);
    if drop {
      assert Shape(g2.jobs[k]) == Shape(g0.jobs[k]);
      ChildrenOfAdd(g0, removed, k);
    }
  }

  /** The `for job in jobs` loop of `work_flow`, in some order of the frontier `jobs`. When
      no job aborts the run, the new frontier is the old one without its complete jobs, plus
      the children of those. */
  method Round(g0: Graph, m: set<JobKey>, w: World, g: Graph, jobs: set<JobKey>, log: seq<Event>, horizon: nat)
    returns (r: RoundEnd, g': Graph, jobs': set<JobKey>, log': seq<Event>)
    requires Live(g0, m, w, g, log) && jobs <= g.jobs.Keys
    ensures RoundDone(g0, m, w, horizon, g, jobs, log, r, g', jobs', log')
  {
    g', log' := g, log;
    var todo := jobs;
    var removed: set<JobKey> := {};
    var added: set<JobKey> := {};
    RoundStart(g0, m, w, g, jobs, log);
    ghost var ks: seq<JobKey>, vs: seq<Visited>, gs: seq<Graph>, ls: seq<seq<Event>> := [], [], [g], [log];
    VisitedStart(w, horizon, g, log);
    assert jobs - todo == {};
    while todo != {}
      invariant RoundState(g0, m, w, horizon, g, jobs, log, todo, g', log', removed, added, ks, vs, gs, ls)
      decreases todo
    {
      var v, k, g2, l2, removed2, added2;
      v, k, g2, l2, removed2, added2, ks, vs, gs, ls :=
        RoundNext(g0, m, w, g, jobs, log, horizon, todo, g', log', removed, added, ks, vs, gs, ls);
      if v.Halt? {
        RoundStops(g0, m, w, horizon, g, jobs, log, v.outcome, g2, l2);
        return Stop(v.outcome), g2, jobs, l2;
      }
      g', log', removed, added := g2, l2, removed2, added2;
      todo := todo - {k};
    }
    RoundContinues(g0, m, w, horizon, g, jobs, log, g', log', removed, added, ks, vs, gs, ls);
    r := Continue;
    jobs' := (jobs - removed) + added;
  }

  // ---------------------------------------------------------------------------------
  // `work_flow`.

  /** The first frontier: the jobs without parents. */
  function Roots(g0: Graph): set<JobKey> {
    set k | k in g0.jobs && |g0.jobs[k].parents| == 0
  }

  /** With the jobs `done` removed from the frontier so far (all complete), every job that
      is neither done nor in the frontier still waits for a parent that is not done. */
  ghost predicate FrontierOk(g0: Graph, g: Graph, done: set<JobKey>, jobs: set<JobKey>) {
    && (forall k :: k in done ==> k in g.jobs && g.jobs[k].status == Complete)
    && (forall k :: k in g0.jobs && k !in done && k !in jobs ==> PendingParent(g0, done, k))
  }

  ghost predicate PendingParent(g0: Graph, done: set<JobKey>, k: JobKey)
    requires k in g0.jobs
  {
    exists p :: p in g0.jobs[k].parents && p !in done
  }

  /** The frontier starts as the jobs without parents. */
  lemma FrontierStart(g0: Graph, roots: set<JobKey>)
    requires roots == Roots(g0)
    ensures FrontierOk(g0, g0, {}, roots)
  {
    forall k | k in g0.jobs && k !in roots ensures PendingParent(g0, {}, k) {
      assert g0.jobs[k].parents[0] in g0.jobs[k].parents;
    }
  }

  /** A round keeps the frontier bookkeeping: a job left out waits for a parent that is not
      done, because the children of every removed job join the frontier. */
  lemma FrontierStep(g0: Graph, g: Graph, g': Graph, done: set<JobKey>, jobs: set<JobKey>, jobs': set<JobKey>)
    requires WellFormed(g0) && FrontierOk(g0, g, done, jobs) && Monotone(g, g')
    requires jobs' == (jobs - Removed(g', jobs)) + ChildrenOf(g0, Removed(g', jobs))
    ensures FrontierOk(g0, g', done + Removed(g', jobs), jobs')
  {
    var rm := Removed(g', jobs);
    forall k | k in g0.jobs && k !in done + rm && k !in jobs'
      ensures PendingParent(g0, done + rm, k)
    {
      assert k !in jobs;
      var p :| p in g0.jobs[k].parents && p !in done;
      assert ChildOfParents(g0, k);
      assert p in rm ==> k in ChildrenOf(g0, rm);
    }
  }

  /** With an empty frontier and parent edges going down in rank, every job is done. */
  lemma {:induction false} AllDone(g0: Graph, g: Graph, done: set<JobKey>, rank: map<string, nat>, k: JobKey)
    requires Closed(g0) && Layered(g0, rank) && FrontierOk(g0, g, done, {}) && k in g0.jobs
    ensures k in done
    decreases rank[k.step]
  {
    assert RanksBelow(rank, g0.jobs[k].parents, k);
    if k !in done {
      var p :| p in g0.jobs[k].parents && p !in done;
      AllDone(g0, g, done, rank, p);
    }
  }

  /** The frontier stays inside the graph. */
  lemma FrontierInGraph(g0: Graph, g: Graph, jobs: set<JobKey>, rm: set<JobKey>)
    requires WellFormed(g0) && SameShape(g0, g) && jobs <= g.jobs.Keys
    ensures (jobs - rm) + ChildrenOf(g0, rm) <= g.jobs.Keys
  {
  }

  /** A normal exit: the frontier is empty, so under an acyclic step table every job of
      the built graph is done, hence complete. */
  lemma FinishedComplete(t: StepTable, samples: seq<string>, markers: set<JobKey>, g: Graph, done: set<JobKey>)
    requires Buildable(t, samples)
    requires SameShape(Expand(t, samples, markers), g)
    requires FrontierOk(Expand(t, samples, markers), g, done, {})
    ensures forall rank :: StepsAcyclic(t, rank) ==> forall k :: k in g.jobs ==> g.jobs[k].status == Complete
  {
    var g0 := Expand(t, samples, markers);
    ExpandWellFormed(t, samples, markers);
    forall rank | StepsAcyclic(t, rank) ensures forall k :: k in g.jobs ==> g.jobs[k].status == Complete {
      ExpandLayered(t, samples, markers, rank);
      forall k | k in g.jobs ensures g.jobs[k].status == Complete {
        AllDone(g0, g, done, rank, k);
      }
    }
  }

  /** What the end of a run over `g0` explains, for each way it ends other than a
      configuration error. */
  ghost predicate Explained(g0: Graph, m: set<JobKey>, w: World, g: Graph, jobs: set<JobKey>,
                            log: seq<Event>, horizon: nat, o: Outcome) {
    && !o.ConfigError?
    && SameShape(g0, g) && Consistent(w, log) && jobs <= g.jobs.Keys
    && CompleteSeen(m, g, log)
    && (o.Finished? || o.Unfinished? || o.DepthQueryFailed? || o.SubmitFailed? ==>
          TraceOk(g0, m, log) && IdsTracked(g, log))
    && (o.Finished? || o.Unfinished? ==> NoFatal(log))
    && (o.Unfinished? ==> |log| >= horizon)
    && (o.DepthQueryFailed? ==>
          o.job in jobs && |log| > 0 && log[|log| - 1] == DepthQuery(DepthFailed) && NoFatal(log[..|log| - 1]))
    && (o.SubmitFailed? ==>
          o.job in jobs && |log| > 0 && log[|log| - 1] == SubmitCmd(o.job, Rejected) && NoFatal(log[..|log| - 1]))
    && (o.JobFailed? ==>
          && o.job in jobs
          && exists n: nat :: n + 3 <= |log| && TraceOk(g0, m, log[..n + 3]) && NoFatal(log[..n + 2]) &&
                              FailedTail(g, jobs, o.job, log, n))
  }

  /** What `Explained` says, clause by clause, as `work_flow`'s contract states it. */
  lemma ExplainedEnds(g0: Graph, m: set<JobKey>, w: World, g: Graph, jobs: set<JobKey>,
                      log: seq<Event>, horizon: nat, o: Outcome)
    requires Explained(g0, m, w, g, jobs, log, horizon, o)
    ensures SameShape(g0, g) && Consistent(w, log) && jobs <= g.jobs.Keys && CompleteSeen(m, g, log)
    ensures o.Finished? || o.Unfinished? || o.DepthQueryFailed? || o.SubmitFailed? ==> TraceOk(g0, m, log) && IdsTracked(g, log)
    ensures o.Finished? || o.Unfinished? ==> NoFatal(log)
    ensures o.Unfinished? ==> |log| >= horizon
    ensures o.DepthQueryFailed? ==>
      o.job in jobs && |log| > 0 && log[|log| - 1] == DepthQuery(DepthFailed) && NoFatal(log[..|log| - 1])
    ensures o.SubmitFailed? ==>
      o.job in jobs && |log| > 0 && log[|log| - 1] == SubmitCmd(o.job, Rejected) && NoFatal(log[..|log| - 1])
    ensures o.JobFailed? ==>
      && o.job in jobs
      && exists n: nat :: n + 3 <= |log| && TraceOk(g0, m, log[..n + 3]) && NoFatal(log[..n + 2]) &&
                          FailedTail(g, jobs, o.job, log, n)
  {
  }

  /** A halt of a round is explained by its log. */
  lemma HaltExplained(g0: Graph, m: set<JobKey>, w: World, g: Graph, jobs: set<JobKey>,
                      log: seq<Event>, horizon: nat, o: Outcome)
    requires HaltedBy(g0, m, w, g, jobs, log, horizon, o) && jobs <= g.jobs.Keys
    requires !o.Unfinished? ==> o.job in jobs
    ensures Explained(g0, m, w, g, jobs, log, horizon, o)
  {
    if o.JobFailed? {
      var n: nat :| n + 3 <= |log| && Tracking(g0, m, w, g, log[..n + 3]) && NoFatal(log[..n + 2]) &&
                    FailedTail(g, jobs, o.job, log, n);
      CompleteSeenPrefix(m, g, log, n + 3);
    }
  }

  /** Rounds one after the other: round `i` starts from frontier `fs[i]`, graph `gs[i]` and
      log `ls[i]` with calls left, continues as `RoundVisits` says, and hands the next round
      the old frontier without its complete jobs, plus the children of those. */
  ghost predicate Rounds(g0: Graph, w: World, horizon: nat, fs: seq<set<JobKey>>, gs: seq<Graph>, ls: seq<seq<Event>>) {
    && |fs| > 0 && |gs| == |fs| && |ls| == |fs|
    && forall i :: 0 <= i < |fs| - 1 ==>
         && fs[i] != {} && |ls[i]| < horizon
         && RoundVisits(w, horizon, gs[i], fs[i], ls[i], Continue, gs[i + 1], ls[i + 1])
         && fs[i + 1] == (fs[i] - Removed(gs[i + 1], fs[i])) + ChildrenOf(g0, Removed(gs[i + 1], fs[i]))
  }

  /** The continuing rounds of a run over `g0` so far, from the roots and the empty log to
      frontier `jobs`, graph `g` and log `log`. */
  ghost predicate RunSoFar(g0: Graph, w: World, horizon: nat, g: Graph, jobs: set<JobKey>, log: seq<Event>,
                           fs: seq<set<JobKey>>, gs: seq<Graph>, ls: seq<seq<Event>>) {
    && Rounds(g0, w, horizon, fs, gs, ls)
    && fs[0] == Roots(g0) && gs[0] == g0 && ls[0] == []
    && fs[|fs| - 1] == jobs && gs[|fs| - 1] == g && ls[|fs| - 1] == log
  }

  /** A whole run over `g0` ending as `o` with frontier `jobs`, graph `g` and log `log`: the
      continuing rounds, then either the loop's exit (an empty frontier gives `Finished`, a
      spent budget `Unfinished`) or one more round that stops with `o`. */
  ghost predicate RunChain(g0: Graph, w: World, horizon: nat, o: Outcome, g: Graph, jobs: set<JobKey>, log: seq<Event>,
                           fs: seq<set<JobKey>>, gs: seq<Graph>, ls: seq<seq<Event>>) {
    && Rounds(g0, w, horizon, fs, gs, ls)
    && fs[0] == Roots(g0) && gs[0] == g0 && ls[0] == []
    && fs[|fs| - 1] == jobs
    && (|| (&& gs[|fs| - 1] == g && ls[|fs| - 1] == log
            && (jobs == {} || |log| >= horizon)
            && o == (if jobs == {} then Finished else Unfinished))
        || (&& jobs != {} && |ls[|fs| - 1]| < horizon
            && RoundVisits(w, horizon, gs[|fs| - 1], jobs, ls[|fs| - 1], Stop(o), g, log)))
  }

  ghost predicate RunOf(g0: Graph, w: World, horizon: nat, o: Outcome, g: Graph, jobs: set<JobKey>, log: seq<Event>) {
    exists fs, gs, ls :: RunChain(g0, w, horizon, o, g, jobs, log, fs, gs, ls)
  }

  lemma RunStart(g0: Graph, w: World, horizon: nat)
    ensures RunSoFar(g0, w, horizon, g0, Roots(g0), [], [Roots(g0)], [g0], [[]])
  {
  }

  /** A continuing round extends the run. */
  lemma RunStep(g0: Graph, w: World, horizon: nat, g: Graph, jobs: set<JobKey>, log: seq<Event>,
                fs: seq<set<JobKey>>, gs: seq<Graph>, ls: seq<seq<Event>>, g2: Graph, jobs2: set<JobKey>, l2: seq<Event>)
    requires RunSoFar(g0, w, horizon, g, jobs, log, fs, gs, ls) && jobs != {} && |log| < horizon
    requires RoundVisits(w, horizon, g, jobs, log, Continue, g2, l2)
    requires jobs2 == (jobs - Removed(g2, jobs)) + ChildrenOf(g0, Removed(g2, jobs))
    ensures RunSoFar(g0, w, horizon, g2, jobs2, l2, fs + [jobs2], gs + [g2], ls + [l2])
  {
    var fs2, gs2, ls2 := fs + [jobs2], gs + [g2], ls + [l2];
    forall i | 0 <= i < |fs2| - 1
      ensures && fs2[i] != {} && |ls2[i]| < horizon
              && RoundVisits(w, horizon, gs2[i], fs2[i], ls2[i], Continue, gs2[i + 1], ls2[i + 1])
              && fs2[i + 1] == (fs2[i] - Removed(gs2[i + 1], fs2[i])) + ChildrenOf(g0, Removed(gs2[i + 1], fs2[i]))
    {
      assert fs2[i] == fs[i] && gs2[i] == gs[i] && ls2[i] == ls[i];
      if i < |fs| - 1 {
        assert fs2[i + 1] == fs[i + 1] && gs2[i + 1] == gs[i + 1] && ls2[i + 1] == ls[i + 1];
      }
    }
  }

  /** The loop's exit ends the run. */
  lemma RunExits(g0: Graph, w: World, horizon: nat, g: Graph, jobs: set<JobKey>, log: seq<Event>,
                 fs: seq<set<JobKey>>, gs: seq<Graph>, ls: seq<seq<Event>>)
    requires RunSoFar(g0, w, horizon, g, jobs, log, fs, gs, ls) && (jobs == {} || |log| >= horizon)
    ensures RunOf(g0, w, horizon, if jobs == {} then Finished else Unfinished, g, jobs, log)
  {
    assert RunChain(g0, w, horizon, if jobs == {} then Finished else Unfinished, g, jobs, log, fs, gs, ls);
  }

  /** A stopped round ends the run. */
  lemma RunStops(g0: Graph, w: World, horizon: nat, g: Graph, jobs: set<JobKey>, log: seq<Event>,
                 fs: seq<set<JobKey>>, gs: seq<Graph>, ls: seq<seq<Event>>, o: Outcome, g2: Graph, l2: seq<Event>)
    requires RunSoFar(g0, w, horizon, g, jobs, log, fs, gs, ls) && jobs != {} && |log| < horizon
    requires RoundVisits(w, horizon, g, jobs, log, Stop(o), g2, l2)
    ensures RunOf(g0, w, horizon, o, g2, jobs, l2)
  {
    assert RunChain(g0, w, horizon, o, g2, jobs, l2, fs, gs, ls);
  }

  /** The `while len(jobs) > 0` loop of `work_flow`, over the graph `g0` built with markers
      `m`, from the jobs without parents. It stops when the frontier is empty, when a round
      aborts, or when the call budget is spent. */
  method RunRounds(g0: Graph, m: set<JobKey>, w: World, horizon: nat)
    returns (outcome: Outcome, g: Graph, jobs: set<JobKey>, log: seq<Event>, ghost done: set<JobKey>)
    requires WellFormed(g0) && Fresh(g0, m)
    ensures Explained(g0, m, w, g, jobs, log, horizon, outcome)
    ensures outcome.Finished? ==> jobs == {} && FrontierOk(g0, g, done, {})
    ensures RunOf(g0, w, horizon, outcome, g, jobs, log)
  {
    TrackingStart(g0, m, w);
    g, log := g0, [];
    jobs := Roots(g0);
    FrontierStart(g0, jobs);
    done := {};
    ghost var fs: seq<set<JobKey>>, gs: seq<Graph>, ls: seq<seq<Event>> := [jobs], [g], [log];
    RunStart(g0, w, horizon);
    while jobs != {} && |log| < horizon
      invariant Live(g0, m, w, g, log) && g.jobs.Keys == g0.jobs.Keys && jobs <= g.jobs.Keys
      invariant FrontierOk(g0, g, done, jobs)
      invariant RunSoFar(g0, w, horizon, g, jobs, log, fs, gs, ls)
      decreases horizon - |log|
    {
      var rr, g2, jobs2, l2 := Round(g0, m, w, g, jobs, log, horizon);
      if rr.Stop? {
        HaltExplained(g0, m, w, g2, jobs, l2, horizon, rr.outcome);
        RunStops(g0, w, horizon, g, jobs, log, fs, gs, ls, rr.outcome, g2, l2);
        return rr.outcome, g2, jobs, l2, done;
      }
      FrontierStep(g0, g, g2, done, jobs, jobs2);
      FrontierInGraph(g0, g2, jobs, Removed(g2, jobs));
      RunStep(g0, w, horizon, g, jobs, log, fs, gs, ls, g2, jobs2, l2);
      fs, gs, ls := fs + [jobs2], gs + [g2], ls + [l2];
      done := done + Removed(g2, jobs);
      g, jobs, log := g2, jobs2, l2;
    }
    RunExits(g0, w, horizon, g, jobs, log, fs, gs, ls);
    outcome := if jobs == {} then Finished else Unfinished;
  }

  /** `work_flow`: build the graph, start from the jobs without parents, and run rounds
      until the frontier is empty or the run aborts. A normal exit leaves every job complete
      when the step table is acyclic; every submission obeys the throttle and the guards of
      the trace rules; an abort is explained by the end of the log. */
  method WorkFlow(t: StepTable, samples: seq<string>, markers: set<JobKey>, w: World, horizon: nat)
    returns (outcome: Outcome, g: Graph, jobs: set<JobKey>, log: seq<Event>)
    requires ValidTable(t) && Distinct(samples)
    ensures outcome.ConfigError? <==> FirstUnknown(t, t.names, samples).Some?
    ensures outcome.ConfigError? ==> outcome.error == FirstUnknown(t, t.names, samples).value && log == []
    ensures !outcome.ConfigError? ==>
      SameShape(Expand(t, samples, markers), g) && Consistent(w, log) && jobs <= g.jobs.Keys &&
      CompleteSeen(markers, g, log)
    ensures !outcome.ConfigError? ==> RunOf(Expand(t, samples, markers), w, horizon, outcome, g, jobs, log)
    ensures outcome.Finished? || outcome.Unfinished? || outcome.DepthQueryFailed? || outcome.SubmitFailed? ==>
      TraceOk(Expand(t, samples, markers), markers, log) && IdsTracked(g, log)
    ensures outcome.Finished? ==>
      jobs == {} && forall rank :: StepsAcyclic(t, rank) ==> forall k :: k in g.jobs ==> g.jobs[k].status == Complete
    ensures outcome.Finished? || outcome.Unfinished? ==> NoFatal(log)
    ensures outcome.Unfinished? ==> |log| >= horizon
    ensures outcome.DepthQueryFailed? ==>
      outcome.job in jobs && |log| > 0 && log[|log| - 1] == DepthQuery(DepthFailed) && NoFatal(log[..|log| - 1])
    ensures outcome.SubmitFailed? ==>
      outcome.job in jobs && |log| > 0 && log[|log| - 1] == SubmitCmd(outcome.job, Rejected) && NoFatal(log[..|log| - 1])
    ensures outcome.JobFailed? ==>
      && outcome.job in jobs
      && exists n: nat :: n + 3 <= |log| && TraceOk(Expand(t, samples, markers), markers, log[..n + 3]) &&
           NoFatal(log[..n + 2]) && FailedTail(g, jobs, outcome.job, log, n)
  {
    var built := GenerateJobGraph(t, samples, markers);
    if built.Failure? {
      return ConfigError(built.error), Graph([], map[]), {}, [];
    }
    var g0 := built.value;
    ExpandWellFormed(t, samples, markers);
    ExpandInitialised(t, samples, markers);
    ghost var done;
    outcome, g, jobs, log, done := RunRounds(g0, markers, w, horizon);
    ExplainedEnds(g0, markers, w, g, jobs, log, horizon, outcome);
    if outcome.Finished? {
      FinishedComplete(t, samples, markers, g, done);
    }
  }
}
