/** The scheduler's view of the outside world: completion markers on disk and the batch
    queue (`job_num_in_sge`, `job_id_in_sge`, `job_status_in_sge` and `qdel`). Every call
    to the outside is one entry of an event log; what the world answers to the n-th call is
    given by a `World`, so a run is determined by its inputs and its world. */
module QueueAdapter {
  import opened JobModel

  /** The queue throttle: a job is submitted only while fewer than this many jobs are queued. */
  const Ceiling: nat := 4000

  /** `job_num_in_sge`: a failed `qstat` or the number of the user's queued jobs. */
  datatype DepthReply = DepthOk(count: nat) | DepthFailed

  /** `job_id_in_sge`: `qsub` failed, or it succeeded and the reply held this id. A
      successful reply without a recognisable id gives `Accepted("")`. */
  datatype SubmitReply = Accepted(id: string) | Rejected

  /** `job_status_in_sge`: exit status and output of the `qstat | grep` probe. */
  datatype StatusReply = StatusReply(exitCode: int, output: string)

  /** The queue no longer knows the job: the probe failed and printed nothing. */
  predicate Absent(r: StatusReply) {
    r.exitCode != 0 && r.output == ""
  }

  /** One call to the outside world, with its answer. The marker of a job is looked at in
      three places, told apart here: the refresh at the top of the loop body, which alone
      sets the status (`MarkerCheck`), the two confirmations after an absent status reply
      (`Recheck`, with `second` for the one after the delay), and the checks of `kill_job`
      (`KillCheck`). */
  datatype Event =
    | MarkerCheck(key: JobKey, present: bool)
    | Recheck(key: JobKey, present: bool, second: bool)
    | KillCheck(key: JobKey, present: bool)
    | DepthQuery(depth: DepthReply)
    | SubmitCmd(key: JobKey, submitted: SubmitReply)
    | StatusQuery(key: JobKey, id: string, status: StatusReply)
    | Cancel(id: string)

  /** What the world answers to the call made as the n-th event. */
  datatype World = World(marker: (nat, JobKey) -> bool,
                         depth: nat -> DepthReply,
                         submit: (nat, JobKey) -> SubmitReply,
                         status: (nat, string) -> StatusReply)

  /** Event `e`, made as call number `i`, carries the world's answer. */
  predicate Answers(w: World, i: nat, e: Event) {
    match e
    case MarkerCheck(k, b) => b == w.marker(i, k)
    case Recheck(k, b, _) => b == w.marker(i, k)
    case KillCheck(k, b) => b == w.marker(i, k)
    case DepthQuery(r) => r == w.depth(i)
    case SubmitCmd(k, r) => r == w.submit(i, k)
    case StatusQuery(_, id, r) => r == w.status(i, id)
    case Cancel(_) => true
  }

  /** Every event of the log carries the world's answer to it. */
  ghost predicate Consistent(w: World, log: seq<Event>) {
    forall i :: 0 <= i < |log| ==> Answers(w, i, log[i])
  }

  lemma ConsistentSnoc(w: World, log: seq<Event>, e: Event)
    requires Consistent(w, log) && Answers(w, |log|, e)
    ensures Consistent(w, log + [e])
  {
    forall i | 0 <= i < |log + [e]| ensures Answers(w, i, (log + [e])[i]) {
      if i < |log| {
        assert (log + [e])[i] == log[i];
      }
    }
  }

  lemma ConsistentPrefix(w: World, a: seq<Event>, b: seq<Event>)
    requires Consistent(w, a + b)
    ensures Consistent(w, a)
  {
    forall i | 0 <= i < |a| ensures Answers(w, i, a[i]) {
      assert (a + b)[i] == a[i];
    }
  }

  lemma ConsistentLast(w: World, a: seq<Event>, e: Event)
    requires Consistent(w, a + [e])
    ensures Consistent(w, a) && Answers(w, |a|, e)
  {
    ConsistentPrefix(w, a, [e]);
    assert (a + [e])[|a|] == e;
  }

  /** The queue id held for `k` after `log`: the id of its last accepted submission, or
      `""` if it has none. */
  function LastIdOf(log: seq<Event>, k: JobKey): string
  {
    if log == [] then ""
    else
      var e := log[|log| - 1];
      if e.SubmitCmd? && e.key == k && e.submitted.Accepted? then e.submitted.id
      else LastIdOf(log[..|log| - 1], k)
  }

  /** A non-empty id held for `k` was the reply to an earlier submission of `k`. */
  lemma {:induction false} LastIdOfWitness(log: seq<Event>, k: JobKey)
    requires LastIdOf(log, k) != ""
    ensures exists i :: 0 <= i < |log| && log[i] == SubmitCmd(k, Accepted(LastIdOf(log, k)))
    decreases |log|
  {
    var init := log[..|log| - 1];
    var e := log[|log| - 1];
    if !(e.SubmitCmd? && e.key == k && e.submitted.Accepted?) {
      LastIdOfWitness(init, k);
      var i :| 0 <= i < |init| && init[i] == SubmitCmd(k, Accepted(LastIdOf(init, k)));
      assert log[i] == init[i];
    }
  }

  /** Whether the marker of `k` has been seen by the scheduler: it existed at build time, or
      a refresh found it. These are the two ways the status becomes complete. */
  ghost predicate Seen(m: set<JobKey>, log: seq<Event>, k: JobKey) {
    k in m || MarkerCheck(k, true) in log
  }
}
