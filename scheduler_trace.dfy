/** What the scheduling loop of `work_flow` may do, stated on its event log: when a
    submission or a status probe is allowed, and what the cancellations before an abort
    look like. The lemmas derive the guarantees of the scheduler from these rules. */
module SchedulerTrace {
  import opened JobModel
  import opened QueueAdapter

  /** Every parent of `k` in the built graph had its marker seen before this point. */
  ghost predicate ParentsSeen(g0: Graph, m: set<JobKey>, prefix: seq<Event>, k: JobKey)
    requires k in g0.jobs
  {
    forall p :: p in g0.jobs[k].parents ==> Seen(m, prefix, p)
  }

  /** The throttle: the event just before is a depth query that succeeded below the ceiling. */
  predicate DepthAllows(prefix: seq<Event>) {
    |prefix| > 0 && prefix[|prefix| - 1].DepthQuery? &&
    prefix[|prefix| - 1].depth.DepthOk? && prefix[|prefix| - 1].depth.count < Ceiling
  }

  /** Event `e` may follow `prefix` in the loop of `work_flow` over graph `g0` built with
      markers `m`. A submission needs the throttle, a job of the graph whose marker was
      never seen, that holds no queue id, and whose parents were all seen complete; a status
      probe asks about the id the job holds; the first confirmation follows an absent status
      reply for the same job and the second a first one that found nothing; the checks and
      cancellations of `kill_job` only happen while aborting. */
  ghost predicate EventOk(g0: Graph, m: set<JobKey>, prefix: seq<Event>, e: Event) {
    match e
    case SubmitCmd(k, _) =>
      && DepthAllows(prefix)
      && k in g0.jobs
      && !Seen(m, prefix, k)
      && LastIdOf(prefix, k) == ""
      && ParentsSeen(g0, m, prefix, k)
    case StatusQuery(k, id, _) => k in g0.jobs && id != "" && id == LastIdOf(prefix, k)
    case Recheck(k, _, second) => |prefix| > 0 && RecheckFollows(prefix[|prefix| - 1], k, second)
    case KillCheck(_, _) => false
    case Cancel(_) => false
    case _ => true
  }

  /** The call right before a confirmation of `k`: the absent status reply, or the first
      confirmation that found nothing. */
  predicate RecheckFollows(before: Event, k: JobKey, second: bool) {
    if second then before == Recheck(k, false, false)
    else before.StatusQuery? && before.key == k && Absent(before.status)
  }

  /** The `i`-th event of the log may follow the events before it. */
  ghost predicate EventOkAt(g0: Graph, m: set<JobKey>, log: seq<Event>, i: nat)
    requires i < |log|
  {
    EventOk(g0, m, log[..i], log[i])
  }

  ghost predicate TraceOk(g0: Graph, m: set<JobKey>, log: seq<Event>) {
    forall i :: 0 <= i < |log| ==> EventOkAt(g0, m, log, i)
  }

  lemma TraceSnoc(g0: Graph, m: set<JobKey>, log: seq<Event>, e: Event)
    requires TraceOk(g0, m, log) && EventOk(g0, m, log, e)
    ensures TraceOk(g0, m, log + [e])
  {
    var l := log + [e];
    forall i | 0 <= i < |l| ensures EventOkAt(g0, m, l, i) {
      if i == |log| {
        assert l[..i] == log;
      } else {
        assert EventOkAt(g0, m, log, i);
        assert l[..i] == log[..i];
      }
    }
  }

  // ---------------------------------------------------------------------------------
  // What the rules guarantee.

  /** The throttle: every submission comes right after a successful depth query below
      the ceiling. This reads the rule off `EventOk`; what makes it a property of the
      scheduler is that every run obeys the rules (`TraceOk` in `Scheduler.WorkFlow`). */
  lemma SubmitThrottled(g0: Graph, m: set<JobKey>, log: seq<Event>, i: nat)
    requires TraceOk(g0, m, log) && i < |log| && log[i].SubmitCmd?
    ensures i > 0 && log[i - 1].DepthQuery? && log[i - 1].depth.DepthOk? && log[i - 1].depth.count < Ceiling
  {
    assert EventOkAt(g0, m, log, i);
    assert log[..i][i - 1] == log[i - 1];
  }

  /** A submitted job had no marker at build time, no refresh found one since, it held no
      queue id, and the marker of each parent had been seen, so each parent was complete.
      Like `SubmitThrottled` this reads the rule off `EventOk`; runs obey the rules by
      `Scheduler.WorkFlow`. */
  lemma SubmitGuarded(g0: Graph, m: set<JobKey>, log: seq<Event>, i: nat)
    requires TraceOk(g0, m, log) && i < |log| && log[i].SubmitCmd?
    ensures var k := log[i].key;
      && k in g0.jobs && k !in m && MarkerCheck(k, true) !in log[..i]
      && LastIdOf(log[..i], k) == ""
      && forall p :: p in g0.jobs[k].parents ==> Seen(m, log[..i], p)
  {
    assert EventOkAt(g0, m, log, i);
  }

  /** Once a submission of `k` is accepted with a non-empty id, `k` holds that id for the
      rest of the log. */
  lemma {:induction false} IdKept(g0: Graph, m: set<JobKey>, log: seq<Event>, i: nat, n: nat)
    requires TraceOk(g0, m, log) && i < n <= |log|
    requires log[i].SubmitCmd? && log[i].submitted.Accepted? && log[i].submitted.id != ""
    ensures LastIdOf(log[..n], log[i].key) == log[i].submitted.id
    decreases n
  {
    var k := log[i].key;
    assert log[..n][..n - 1] == log[..n - 1];
    if n > i + 1 {
      IdKept(g0, m, log, i, n - 1);
      assert EventOkAt(g0, m, log, n - 1);
    }
  }

  /** A job that was given a queue id is never submitted again. */
  lemma NeverResubmitted(g0: Graph, m: set<JobKey>, log: seq<Event>, i: nat, j: nat)
    requires TraceOk(g0, m, log) && i < j < |log|
    requires log[i].SubmitCmd? && log[i].submitted.Accepted? && log[i].submitted.id != ""
    ensures !(log[j].SubmitCmd? && log[j].key == log[i].key)
  {
    IdKept(g0, m, log, i, j);
    assert EventOkAt(g0, m, log, j);
  }

  /** A status probe asks about a non-empty id that the queue gave this very job. */
  lemma PolledIdWasIssued(g0: Graph, m: set<JobKey>, log: seq<Event>, i: nat)
    requires TraceOk(g0, m, log) && i < |log| && log[i].StatusQuery?
    ensures log[i].id != ""
    ensures exists j :: 0 <= j < i && log[j] == SubmitCmd(log[i].key, Accepted(log[i].id))
  {
    assert EventOkAt(g0, m, log, i);
    LastIdOfWitness(log[..i], log[i].key);
    var j :| 0 <= j < i && log[..i][j] == SubmitCmd(log[i].key, Accepted(log[i].id));
  }

  // ---------------------------------------------------------------------------------
  // `kill_job`.

  /** The events of `kill_job` over the jobs `order`, in that order: a marker check for each,
      followed by a cancellation of its queue id when the marker is missing and the id is
      not empty. */
  ghost predicate KillBlocks(g: Graph, order: seq<JobKey>, evs: seq<Event>)
    decreases |order|
  {
    if order == [] then evs == []
    else
      var j, init := order[|order| - 1], order[..|order| - 1];
      && j in g.jobs
      && if |evs| >= 2 && evs[|evs| - 1].Cancel? then
           && evs[|evs| - 2] == KillCheck(j, false)
           && g.jobs[j].jobId != ""
           && evs[|evs| - 1] == Cancel(g.jobs[j].jobId)
           && KillBlocks(g, init, evs[..|evs| - 2])
         else
           && |evs| >= 1 && evs[|evs| - 1].KillCheck? && evs[|evs| - 1].key == j
           && (evs[|evs| - 1].present || g.jobs[j].jobId == "")
           && KillBlocks(g, init, evs[..|evs| - 1])
  }

  /** Appending the block of one more job. */
  lemma KillBlocksSnoc(g: Graph, order: seq<JobKey>, evs: seq<Event>, j: JobKey, b: bool)
    requires KillBlocks(g, order, evs) && j in g.jobs
    ensures var blk := if !b && g.jobs[j].jobId != "" then [KillCheck(j, b), Cancel(g.jobs[j].jobId)]
                       else [KillCheck(j, b)];
      KillBlocks(g, order + [j], evs + blk)
  {
    var blk := if !b && g.jobs[j].jobId != "" then [KillCheck(j, b), Cancel(g.jobs[j].jobId)]
               else [KillCheck(j, b)];
    var o, e := order + [j], evs + blk;
    assert o[..|o| - 1] == order;
    assert e[..|e| - |blk|] == evs;
  }

  /** `kill_job` cancels only ids held by jobs of the frontier, each right after finding
      that job's marker missing. */
  lemma {:induction false} KillCancelsOnlySubmitted(g: Graph, order: seq<JobKey>, evs: seq<Event>, i: nat)
    requires KillBlocks(g, order, evs) && i < |evs| && evs[i].Cancel?
    ensures 0 < i && evs[i].id != ""
    ensures exists j :: (j in order && j in g.jobs && g.jobs[j].jobId == evs[i].id &&
                         evs[i - 1] == KillCheck(j, false))
    decreases |order|
  {
    var j, init := order[|order| - 1], order[..|order| - 1];
    var n := if |evs| >= 2 && evs[|evs| - 1].Cancel? then 2 else 1;
    if i < |evs| - n {
      var pre := evs[..|evs| - n];
      assert pre[i] == evs[i];
      KillCancelsOnlySubmitted(g, init, pre, i);
      var j' :| j' in init && j' in g.jobs && g.jobs[j'].jobId == pre[i].id &&
                pre[i - 1] == KillCheck(j', false);
      assert j' in order;
    } else {
      assert n == 2 && i == |evs| - 1;
    }
  }

  /** `kill_job` checks the marker of every frontier job, and cancels each one whose marker
      is missing and that holds a queue id. */
  lemma {:induction false} KillCoversFrontier(g: Graph, order: seq<JobKey>, evs: seq<Event>, j: JobKey)
    requires KillBlocks(g, order, evs) && j in order
    ensures j in g.jobs
    ensures KillCheck(j, true) in evs ||
      (KillCheck(j, false) in evs && (g.jobs[j].jobId != "" ==> Cancel(g.jobs[j].jobId) in evs))
    decreases |order|
  {
    var last, init := order[|order| - 1], order[..|order| - 1];
    var n := if |evs| >= 2 && evs[|evs| - 1].Cancel? then 2 else 1;
    if j == last {
      assert evs[|evs| - n] in evs;
      assert evs[|evs| - 1] in evs;
    } else {
      assert order == init + [last];
      KillCoversFrontier(g, init, evs[..|evs| - n], j);
      PrefixMembers(evs, |evs| - n);
    }
  }

  lemma PrefixMembers(s: seq<Event>, n: nat)
    requires n <= |s|
    ensures forall e :: e in s[..n] ==> e in s
  {
    forall e | e in s[..n] ensures e in s {
      var i :| 0 <= i < n && s[..n][i] == e;
      assert s[i] == e;
    }
  }

  /** The calls after which `work_flow` exits: a failed depth query, a failed submission,
      and a second confirmation that finds no marker. */
  predicate Fatal(e: Event) {
    e == DepthQuery(DepthFailed) || (e.SubmitCmd? && e.submitted.Rejected?) ||
    (e.Recheck? && e.second && !e.present)
  }

  /** No call of `log` is one after which the run exits. */
  ghost predicate NoFatal(log: seq<Event>) {
    forall e :: e in log ==> !Fatal(e)
  }

  /** The end of a log that is aborted because job `k` vanished from the queue: from index
      `n`, the status probe of `k` reported it absent, both confirmations found no marker,
      and `kill_job` ran over the frontier `jobs`. */
  ghost predicate FailedTail(g: Graph, jobs: set<JobKey>, k: JobKey, log: seq<Event>, n: nat) {
    && n + 3 <= |log|
    && log[n].StatusQuery? && log[n].key == k && Absent(log[n].status)
    && log[n + 1] == Recheck(k, false, false)
    && log[n + 2] == Recheck(k, false, true)
    && exists order :: Distinct(order) && Elems(order) == jobs && KillBlocks(g, order, log[n + 3..])
  }
}
