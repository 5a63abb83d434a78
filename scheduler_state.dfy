/** The invariant that ties the mutable job graph of `work_flow` to its event log, and the
    effect of each kind of call on it. */
module SchedulerState {
  import opened JobModel
  import opened QueueAdapter
  import opened SchedulerTrace

  /** Every job holds the id of its last accepted submission. */
  ghost predicate IdsTracked(g: Graph, log: seq<Event>) {
    forall k :: k in g.jobs ==> g.jobs[k].jobId == LastIdOf(log, k)
  }

  /** A job is complete only once its marker was seen. */
  ghost predicate CompleteSeen(m: set<JobKey>, g: Graph, log: seq<Event>) {
    forall k :: k in g.jobs && g.jobs[k].status == Complete ==> Seen(m, log, k)
  }

  /** A job whose marker was seen is complete or already holds a queue id. */
  ghost predicate SeenSettled(m: set<JobKey>, g: Graph, log: seq<Event>) {
    forall k :: k in g.jobs && Seen(m, log, k) ==> g.jobs[k].status == Complete || g.jobs[k].jobId != ""
  }

  /** A marker seen in a prefix of the log stays seen. */
  lemma CompleteSeenPrefix(m: set<JobKey>, g: Graph, log: seq<Event>, n: nat)
    requires n <= |log| && CompleteSeen(m, g, log[..n])
    ensures CompleteSeen(m, g, log)
  {
    forall k | k in g.jobs && g.jobs[k].status == Complete ensures Seen(m, log, k) {
      if k !in m {
        var i :| 0 <= i < n && log[..n][i] == MarkerCheck(k, true);
        assert log[i] == MarkerCheck(k, true);
      }
    }
  }

  /** The state of `work_flow` after `log`, for the graph `g0` built with markers `m`. */
  ghost predicate Tracking(g0: Graph, m: set<JobKey>, w: World, g: Graph, log: seq<Event>) {
    && WellFormed(g0)
    && SameShape(g0, g)
    && Consistent(w, log)
    && TraceOk(g0, m, log)
    && IdsTracked(g, log)
    && CompleteSeen(m, g, log)
    && SeenSettled(m, g, log)
  }

  function SetComplete(g: Graph, k: JobKey): Graph
    requires k in g.jobs
  {
    Graph(g.order, g.jobs[k := g.jobs[k].(status := Complete)])
  }

  function SetId(g: Graph, k: JobKey, id: string): Graph
    requires k in g.jobs
  {
    Graph(g.order, g.jobs[k := g.jobs[k].(jobId := id)])
  }

  /** `g'` is `g` with at most the job `k` changed. */
  ghost predicate OnlyChanged(g: Graph, g': Graph, k: JobKey) {
    && g'.order == g.order && g'.jobs.Keys == g.jobs.Keys
    && forall j :: j in g.jobs && j != k ==> g'.jobs[j] == g.jobs[j]
  }

  lemma SetIdOnly(g: Graph, k: JobKey, id: string)
    requires k in g.jobs
    ensures OnlyChanged(g, SetId(g, k, id), k)
  {
  }

  lemma SetCompleteOnly(g: Graph, k: JobKey)
    requires k in g.jobs
    ensures OnlyChanged(g, SetComplete(g, k), k)
  {
  }

  lemma OnlyChangedTrans(g: Graph, g': Graph, g'': Graph, k: JobKey)
    requires OnlyChanged(g, g', k) && OnlyChanged(g', g'', k)
    ensures OnlyChanged(g, g'', k)
  {
  }

  /** No status goes back from complete to incomplete. */
  ghost predicate Monotone(g: Graph, g': Graph) {
    forall k :: k in g.jobs && g.jobs[k].status == Complete ==> k in g'.jobs && g'.jobs[k].status == Complete
  }

  lemma SetIdShape(g0: Graph, g: Graph, k: JobKey, id: string)
    requires SameShape(g0, g) && k in g.jobs
    ensures SameShape(g0, SetId(g, k, id))
  {
    var g' := SetId(g, k, id);
    forall j | j in g0.jobs ensures Shape(g'.jobs[j]) == Shape(g0.jobs[j]) {
      assert Shape(g'.jobs[j]) == Shape(g.jobs[j]);
    }
  }

  lemma SetCompleteShape(g0: Graph, g: Graph, k: JobKey)
    requires SameShape(g0, g) && k in g.jobs
    ensures SameShape(g0, SetComplete(g, k))
  {
    var g' := SetComplete(g, k);
    forall j | j in g0.jobs ensures Shape(g'.jobs[j]) == Shape(g0.jobs[j]) {
      assert Shape(g'.jobs[j]) == Shape(g.jobs[j]);
    }
  }

  /** An event that is not a marker check sees no marker. */
  lemma SeenSnocOther(m: set<JobKey>, log: seq<Event>, e: Event)
    requires !e.MarkerCheck?
    ensures forall j :: Seen(m, log + [e], j) <==> Seen(m, log, j)
  {
    forall j ensures Seen(m, log + [e], j) <==> Seen(m, log, j) {
      assert MarkerCheck(j, true) != e;
    }
  }

  /** An event that is not an accepted submission leaves every held id alone. */
  lemma LastIdSnocOther(log: seq<Event>, e: Event)
    requires !(e.SubmitCmd? && e.submitted.Accepted?)
    ensures forall j :: LastIdOf(log + [e], j) == LastIdOf(log, j)
  {
    assert (log + [e])[..|log|] == log;
  }

  lemma TrackingStart(g0: Graph, m: set<JobKey>, w: World)
    requires WellFormed(g0) && Fresh(g0, m)
    ensures Tracking(g0, m, w, g0, [])
  {
  }

  /** A marker check leaves the ids alone and can only add to what was seen. */
  lemma SeenSnocCheck(m: set<JobKey>, log: seq<Event>, k: JobKey, b: bool, j: JobKey)
    ensures Seen(m, log + [MarkerCheck(k, b)], j) <==> Seen(m, log, j) || (j == k && b)
    ensures LastIdOf(log + [MarkerCheck(k, b)], j) == LastIdOf(log, j)
  {
    var l := log + [MarkerCheck(k, b)];
    assert l[..|l| - 1] == log;
  }

  /** A marker check keeps the held ids, whether or not it marks the job complete. */
  lemma CheckIds(g: Graph, log: seq<Event>, k: JobKey, b: bool)
    requires IdsTracked(g, log) && k in g.jobs
    ensures IdsTracked(if b then SetComplete(g, k) else g, log + [MarkerCheck(k, b)])
  {
    LastIdSnocOther(log, MarkerCheck(k, b));
  }

  /** A found marker is seen, and marks its job complete. */
  lemma CheckSettled(m: set<JobKey>, g: Graph, log: seq<Event>, k: JobKey, b: bool)
    requires CompleteSeen(m, g, log) && SeenSettled(m, g, log) && k in g.jobs
    ensures var g' := if b then SetComplete(g, k) else g;
      CompleteSeen(m, g', log + [MarkerCheck(k, b)]) && SeenSettled(m, g', log + [MarkerCheck(k, b)])
  {
    var g' := if b then SetComplete(g, k) else g;
    forall j | j in g'.jobs
      ensures g'.jobs[j].status == Complete ==> Seen(m, log + [MarkerCheck(k, b)], j)
      ensures Seen(m, log + [MarkerCheck(k, b)], j) ==> g'.jobs[j].status == Complete || g'.jobs[j].jobId != ""
    {
      SeenSnocCheck(m, log, k, b, j);
    }
  }

  /** The marker refresh at the top of the loop body: a found marker makes the job complete. */
  lemma RefreshStep(g0: Graph, m: set<JobKey>, w: World, g: Graph, log: seq<Event>, k: JobKey)
    requires Tracking(g0, m, w, g, log) && k in g.jobs
    ensures var b := w.marker(|log|, k);
      Tracking(g0, m, w, if b then SetComplete(g, k) else g, log + [MarkerCheck(k, b)])
  {
    var b := w.marker(|log|, k);
    ConsistentSnoc(w, log, MarkerCheck(k, b));
    TraceSnoc(g0, m, log, MarkerCheck(k, b));
    CheckIds(g, log, k, b);
    CheckSettled(m, g, log, k, b);
    SetCompleteShape(g0, g, k);
  }

  /** A confirmation after an absent status reply keeps the invariant and leaves the graph
      alone: it sets no status, and what it finds does not count as seen. */
  lemma RecheckStep(g0: Graph, m: set<JobKey>, w: World, g: Graph, log: seq<Event>, k: JobKey, second: bool)
    requires Tracking(g0, m, w, g, log) && |log| > 0 && RecheckFollows(log[|log| - 1], k, second)
    ensures Tracking(g0, m, w, g, log + [Recheck(k, w.marker(|log|, k), second)])
  {
    QuietStep(g0, m, w, g, log, Recheck(k, w.marker(|log|, k), second));
  }

  /** A query that changes nothing in the graph and sees no marker. */
  lemma QuietStep(g0: Graph, m: set<JobKey>, w: World, g: Graph, log: seq<Event>, e: Event)
    requires Tracking(g0, m, w, g, log) && Answers(w, |log|, e) && EventOk(g0, m, log, e)
    requires e.DepthQuery? || e.StatusQuery? || e.Recheck?
    ensures Tracking(g0, m, w, g, log + [e])
  {
    ConsistentSnoc(w, log, e);
    TraceSnoc(g0, m, log, e);
    SeenSnocOther(m, log, e);
    LastIdSnocOther(log, e);
  }

  /** A run of depth queries, as the throttle loop makes them. */
  lemma {:induction false} DepthsStep(g0: Graph, m: set<JobKey>, w: World, g: Graph, log: seq<Event>, ext: seq<Event>)
    requires Tracking(g0, m, w, g, log)
    requires forall i :: 0 <= i < |ext| ==> ext[i].DepthQuery?
    requires Consistent(w, log + ext)
    ensures Tracking(g0, m, w, g, log + ext)
    decreases |ext|
  {
    if ext != [] {
      var init, e := ext[..|ext| - 1], ext[|ext| - 1];
      assert log + ext == (log + init) + [e];
      assert Consistent(w, log + init) by {
        forall i | 0 <= i < |log + init| ensures Answers(w, i, (log + init)[i]) {
          assert (log + init)[i] == (log + ext)[i];
        }
      }
      DepthsStep(g0, m, w, g, log, init);
      assert Answers(w, |log + init|, e) by {
        assert (log + ext)[|log + init|] == e;
      }
      QuietStep(g0, m, w, g, log + init, e);
    } else {
      assert log + ext == log;
    }
  }

  /** The status probe of a job holding a queue id. */
  lemma StatusStep(g0: Graph, m: set<JobKey>, w: World, g: Graph, log: seq<Event>, k: JobKey)
    requires Tracking(g0, m, w, g, log) && k in g.jobs && g.jobs[k].jobId != ""
    ensures var id := g.jobs[k].jobId;
      Tracking(g0, m, w, g, log + [StatusQuery(k, id, w.status(|log|, id))])
  {
    var id := g.jobs[k].jobId;
    QuietStep(g0, m, w, g, log, StatusQuery(k, id, w.status(|log|, id)));
  }

  /** A submission made under the guards of `work_flow` is allowed by the trace rules. */
  lemma SubmitAllowed(g0: Graph, m: set<JobKey>, w: World, g: Graph, log: seq<Event>, k: JobKey, r: SubmitReply)
    requires Tracking(g0, m, w, g, log) && k in g.jobs && DepthAllows(log)
    requires g.jobs[k].status == Incomplete && g.jobs[k].jobId == ""
    requires forall p :: p in g.jobs[k].parents ==> p in g.jobs && g.jobs[p].status == Complete
    ensures EventOk(g0, m, log, SubmitCmd(k, r))
  {
    assert Shape(g.jobs[k]) == Shape(g0.jobs[k]);
  }

  /** Storing the id a submission returned keeps the ids tracked. */
  lemma SubmitIds(g: Graph, log: seq<Event>, k: JobKey, r: SubmitReply)
    requires IdsTracked(g, log) && k in g.jobs
    ensures IdsTracked(if r.Accepted? then SetId(g, k, r.id) else g, log + [SubmitCmd(k, r)])
  {
    var l := log + [SubmitCmd(k, r)];
    assert l[..|l| - 1] == log;
  }

  /** A submission sees no marker, so what was seen and what is complete agree as before. */
  lemma SubmitSettled(m: set<JobKey>, g: Graph, log: seq<Event>, k: JobKey, r: SubmitReply)
    requires CompleteSeen(m, g, log) && SeenSettled(m, g, log) && k in g.jobs && !Seen(m, log, k)
    ensures var g' := if r.Accepted? then SetId(g, k, r.id) else g;
      CompleteSeen(m, g', log + [SubmitCmd(k, r)]) && SeenSettled(m, g', log + [SubmitCmd(k, r)])
  {
    SeenSnocOther(m, log, SubmitCmd(k, r));
  }

  /** A submission made under the guards of `work_flow` is allowed by the trace rules, and
      storing the returned id keeps the invariant. */
  lemma SubmitStep(g0: Graph, m: set<JobKey>, w: World, g: Graph, log: seq<Event>, k: JobKey)
    requires Tracking(g0, m, w, g, log) && k in g.jobs && DepthAllows(log)
    requires g.jobs[k].status == Incomplete && g.jobs[k].jobId == ""
    requires forall p :: p in g.jobs[k].parents ==> p in g.jobs && g.jobs[p].status == Complete
    ensures var r := w.submit(|log|, k);
      Tracking(g0, m, w, if r.Accepted? then SetId(g, k, r.id) else g, log + [SubmitCmd(k, r)])
  {
    var r := w.submit(|log|, k);
    var e := SubmitCmd(k, r);
    SubmitAllowed(g0, m, w, g, log, k, r);
    ConsistentSnoc(w, log, e);
    TraceSnoc(g0, m, log, e);
    SubmitSettled(m, g, log, k, r);
    SubmitIds(g, log, k, r);
    if r.Accepted? {
      SetIdShape(g0, g, k, r.id);
    }
  }
}
