/** Expansion of the step table and the sample list into the job graph
    (`initialize_job` and `generate_job_graph`). The functions state what the two loops of
    `generate_job_graph` compute; the methods are those loops. */
module GraphBuilder {
  import opened JobModel

  /** The `KeyError` that an undeclared parent name raises. */
  datatype BuildError = UnknownParentStep(step: string, parent: string)

  // ---------------------------------------------------------------------------------
  // Specification of the first loop: the keys, and each job's Parents list.

  /** The keys of a single step's jobs, one per sample, in sample order. */
  function SampleKeys(s: string, samples: seq<string>): seq<JobKey>
  {
    if samples == [] then []
    else SampleKeys(s, samples[..|samples| - 1]) + [JobKey(s, Some(samples[|samples| - 1]))]
  }

  /** The keys step `s` contributes: one per sample, or the one batch key. */
  function StepKeys(t: StepTable, s: string, samples: seq<string>): seq<JobKey>
    requires s in t.conf
  {
    if t.conf[s].kind == Single then SampleKeys(s, samples) else [JobKey(s, None)]
  }

  /** The keys of the graph in insertion order, for the steps `names`. */
  function KeysOf(t: StepTable, names: seq<string>, samples: seq<string>): seq<JobKey>
    requires forall s :: s in names ==> s in t.conf
  {
    if names == [] then []
    else KeysOf(t, names[..|names| - 1], samples) + StepKeys(t, names[|names| - 1], samples)
  }

  /** The first entry of a split `Parents` cell that is neither "None" nor a step name. */
  function UnknownIn(t: StepTable, ps: seq<string>): Option<string>
  {
    if ps == [] then None
    else
      var earlier := UnknownIn(t, ps[..|ps| - 1]);
      var p := ps[|ps| - 1];
      if earlier.Some? then earlier
      else if p != NoParent && p !in t.conf then Some(p)
      else None
  }

  /** Whether the first loop reads the `Parents` cell of step `s` at all: a single step's
      cell is read inside the loop over the samples, so not when there are none. */
  predicate ReadsParents(t: StepTable, s: string, samples: seq<string>)
    requires s in t.conf
  {
    t.conf[s].kind == Batch || |samples| > 0
  }

  /** The `KeyError` the first loop raises, if any: the first step in table order whose
      cell is read and names an unknown step, with that name. */
  function FirstUnknown(t: StepTable, names: seq<string>, samples: seq<string>): Option<BuildError>
    requires forall s :: s in names ==> s in t.conf
  {
    if names == [] then None
    else
      var earlier := FirstUnknown(t, names[..|names| - 1], samples);
      var s := names[|names| - 1];
      if earlier.Some? then earlier
      else if ReadsParents(t, s, samples) && UnknownIn(t, t.conf[s].parents).Some? then
        Some(UnknownParentStep(s, UnknownIn(t, t.conf[s].parents).value))
      else None
  }

  /** The Parents list of the job of a single step for sample `x`, whose cell is `ps`:
      a single parent step gives its job for the same sample, a batch one its one job. */
  function SingleParentKeys(t: StepTable, ps: seq<string>, x: string): seq<JobKey>
    requires UnknownIn(t, ps) == None
  {
    if ps == [] then []
    else
      var p := ps[|ps| - 1];
      SingleParentKeys(t, ps[..|ps| - 1], x) +
      (if p == NoParent then []
       else if t.conf[p].kind == Single then [JobKey(p, Some(x))]
       else [JobKey(p, None)])
  }

  /** The Parents list of the job of a batch step whose cell is `ps`: a single parent step
      gives all of its per-sample jobs, a batch one its one job. */
  function BatchParentKeys(t: StepTable, ps: seq<string>, samples: seq<string>): seq<JobKey>
    requires UnknownIn(t, ps) == None
  {
    if ps == [] then []
    else
      var p := ps[|ps| - 1];
      BatchParentKeys(t, ps[..|ps| - 1], samples) +
      (if p == NoParent then []
       else if t.conf[p].kind == Single then SampleKeys(p, samples)
       else [JobKey(p, None)])
  }

  function ParentKeys(t: StepTable, samples: seq<string>, k: JobKey): seq<JobKey>
    requires k.step in t.conf && UnknownIn(t, t.conf[k.step].parents) == None
  {
    match k.sample
    case Some(x) => SingleParentKeys(t, t.conf[k.step].parents, x)
    case None => BatchParentKeys(t, t.conf[k.step].parents, samples)
  }

  /** The entry `initialize_job` creates for `k`: status from the marker, no queue handle,
      no edges yet. */
  function NewJob(t: StepTable, k: JobKey, markers: set<JobKey>): Job
    requires k.step in t.conf
  {
    Job(k.step, t.conf[k.step].kind, t.conf[k.step].resources,
        if k in markers then Complete else Incomplete, "", [], [])
  }

  /** The graph after the first loop: every key with its Parents list, no Children. */
  function Phase1(t: StepTable, samples: seq<string>, markers: set<JobKey>): (g: Graph)
    requires ValidTable(t) && FirstUnknown(t, t.names, samples) == None
    ensures g.jobs.Keys == Elems(g.order)
  {
    var order := KeysOf(t, t.names, samples);
    KeysReadParents(t, t.names, samples);
    Graph(order, map k | k in Elems(order) :: NewJob(t, k, markers).(parents := ParentKeys(t, samples, k)))
  }

  // ---------------------------------------------------------------------------------
  // Specification of the second loop: appending each job to its parents' Children.

  function ParentMap(g: Graph): map<JobKey, seq<JobKey>> {
    map k | k in g.jobs :: g.jobs[k].parents
  }

  function Repeat(x: JobKey, n: nat): seq<JobKey> {
    if n == 0 then [] else Repeat(x, n - 1) + [x]
  }

  /** What the second loop appends to the Children of `p` after visiting `order`: each
      visited job once for every time `p` occurs in its Parents list. */
  function ChildrenIn(pm: map<JobKey, seq<JobKey>>, order: seq<JobKey>, p: JobKey): seq<JobKey>
    requires forall j :: j in order ==> j in pm
  {
    if order == [] then []
    else
      var j := order[|order| - 1];
      ChildrenIn(pm, order[..|order| - 1], p) + Repeat(j, Count(pm[j], p))
  }

  function Link(g: Graph): Graph
    requires forall j :: j in g.order ==> j in g.jobs
  {
    Graph(g.order, map k | k in g.jobs ::
      g.jobs[k].(children := g.jobs[k].children + ChildrenIn(ParentMap(g), g.order, k)))
  }

  /** The job graph `generate_job_graph` returns. */
  function Expand(t: StepTable, samples: seq<string>, markers: set<JobKey>): Graph
    requires ValidTable(t) && FirstUnknown(t, t.names, samples) == None
  {
    Link(Phase1(t, samples, markers))
  }

  // ---------------------------------------------------------------------------------
  // Facts the methods need about the specification.

  lemma {:induction false} SampleKeysAre(s: string, samples: seq<string>)
    ensures |SampleKeys(s, samples)| == |samples|
    ensures forall i :: 0 <= i < |samples| ==> SampleKeys(s, samples)[i] == JobKey(s, Some(samples[i]))
    decreases |samples|
  {
    if samples != [] {
      SampleKeysAre(s, samples[..|samples| - 1]);
    }
  }

  lemma {:induction false} KeysReadParents(t: StepTable, names: seq<string>, samples: seq<string>)
    requires forall s :: s in names ==> s in t.conf
    requires FirstUnknown(t, names, samples) == None
    ensures forall k :: k in KeysOf(t, names, samples) ==>
      k.step in names && k.step in t.conf && UnknownIn(t, t.conf[k.step].parents) == None
    decreases |names|
  {
    if names != [] {
      var init, s := names[..|names| - 1], names[|names| - 1];
      KeysReadParents(t, init, samples);
      SampleKeysAre(s, samples);
      forall k | k in KeysOf(t, names, samples)
        ensures k.step in names && k.step in t.conf && UnknownIn(t, t.conf[k.step].parents) == None
      {
        if k !in KeysOf(t, init, samples) {
          assert k in StepKeys(t, s, samples);
          assert k.step == s && ReadsParents(t, s, samples);
        }
      }
    }
  }

  lemma {:induction false} UnknownInPrefix(t: StepTable, ps: seq<string>, i: nat)
    requires i <= |ps| && UnknownIn(t, ps[..i]).Some?
    ensures UnknownIn(t, ps) == UnknownIn(t, ps[..i])
    decreases |ps|
  {
    if i < |ps| {
      assert ps[..|ps| - 1][..i] == ps[..i];
      UnknownInPrefix(t, ps[..|ps| - 1], i);
    } else {
      assert ps[..i] == ps;
    }
  }

  lemma {:induction false} FirstUnknownPrefix(t: StepTable, names: seq<string>, samples: seq<string>, i: nat)
    requires forall s :: s in names ==> s in t.conf
    requires i <= |names| && FirstUnknown(t, names[..i], samples).Some?
    ensures FirstUnknown(t, names, samples) == FirstUnknown(t, names[..i], samples)
    decreases |names|
  {
    if i < |names| {
      assert names[..|names| - 1][..i] == names[..i];
      FirstUnknownPrefix(t, names[..|names| - 1], samples, i);
    } else {
      assert names[..i] == names;
    }
  }

  lemma SampleKeysMembers(s: string, samples: seq<string>)
    ensures forall q :: q in SampleKeys(s, samples) <==>
      q.step == s && q.sample.Some? && q.sample.value in samples
  {
    SampleKeysAre(s, samples);
    forall q: JobKey | q.step == s && q.sample.Some? && q.sample.value in samples
      ensures q in SampleKeys(s, samples)
    {
      var i :| 0 <= i < |samples| && samples[i] == q.sample.value;
      assert SampleKeys(s, samples)[i] == q;
    }
  }

  /** A key belongs to the graph exactly when its step is in the table and it has a sample
      from the list if and only if the step is single. */
  lemma {:induction false} KeysOfMembers(t: StepTable, names: seq<string>, samples: seq<string>)
    requires forall s :: s in names ==> s in t.conf
    ensures forall k :: k in KeysOf(t, names, samples) <==>
      k.step in names &&
      (if t.conf[k.step].kind == Single then k.sample.Some? && k.sample.value in samples
       else k.sample == None)
    decreases |names|
  {
    if names != [] {
      var init, s := names[..|names| - 1], names[|names| - 1];
      KeysOfMembers(t, init, samples);
      SampleKeysMembers(s, samples);
      assert names == init + [s];
    }
  }

  lemma {:induction false} KeysOfDistinct(t: StepTable, names: seq<string>, samples: seq<string>)
    requires forall s :: s in names ==> s in t.conf
    requires Distinct(names) && Distinct(samples)
    ensures Distinct(KeysOf(t, names, samples))
    decreases |names|
  {
    if names != [] {
      var init, s := names[..|names| - 1], names[|names| - 1];
      assert names == init + [s];
      KeysOfDistinct(t, init, samples);
      KeysOfMembers(t, init, samples);
      SampleKeysAre(s, samples);
      var a, b := KeysOf(t, init, samples), StepKeys(t, s, samples);
      forall i, j | 0 <= i < j < |a + b| ensures (a + b)[i] != (a + b)[j] {
        if j >= |a| && i < |a| {
          assert (a + b)[i] in a && (a + b)[j] in b;
          assert s !in init;
        }
      }
    }
  }

  lemma SingleParentKeysMembers(t: StepTable, ps: seq<string>, x: string)
    requires UnknownIn(t, ps) == None
    ensures forall q :: q in SingleParentKeys(t, ps, x) ==>
      q.step in ps && q.step != NoParent && q.step in t.conf &&
      q.sample == (if t.conf[q.step].kind == Single then Some(x) else None)
    decreases |ps|
  {
    if ps != [] {
      SingleParentKeysMembers(t, ps[..|ps| - 1], x);
    }
  }

  lemma BatchParentKeysMembers(t: StepTable, ps: seq<string>, samples: seq<string>)
    requires UnknownIn(t, ps) == None
    ensures forall q :: q in BatchParentKeys(t, ps, samples) ==>
      q.step in ps && q.step != NoParent && q.step in t.conf &&
      (if t.conf[q.step].kind == Single then q.sample.Some? && q.sample.value in samples
       else q.sample == None)
    decreases |ps|
  {
    if ps != [] {
      BatchParentKeysMembers(t, ps[..|ps| - 1], samples);
      SampleKeysMembers(ps[|ps| - 1], samples);
    }
  }

  lemma Phase1Distinct(t: StepTable, samples: seq<string>, markers: set<JobKey>)
    requires ValidTable(t) && FirstUnknown(t, t.names, samples) == None && Distinct(samples)
    ensures Distinct(Phase1(t, samples, markers).order)
  {
    KeysOfDistinct(t, t.names, samples);
  }

  /** Every parent key of a job is itself a job of the graph. */
  lemma Phase1Closed(t: StepTable, samples: seq<string>, markers: set<JobKey>)
    requires ValidTable(t) && FirstUnknown(t, t.names, samples) == None
    ensures var g := Phase1(t, samples, markers);
      forall k :: k in g.jobs ==> forall p :: p in g.jobs[k].parents ==> p in g.jobs
  {
    var g := Phase1(t, samples, markers);
    KeysOfMembers(t, t.names, samples);
    KeysReadParents(t, t.names, samples);
    forall k, p | k in g.jobs && p in g.jobs[k].parents ensures p in g.jobs {
      var cell := t.conf[k.step].parents;
      assert g.jobs[k].parents == ParentKeys(t, samples, k);
      match k.sample {
        case Some(x) =>
          SingleParentKeysMembers(t, cell, x);
          assert x in samples;
        case None =>
          BatchParentKeysMembers(t, cell, samples);
      }
      assert p.step in t.names;
    }
  }

  // ---------------------------------------------------------------------------------
  // The loops.

  /** The parents loop for the job of a single step for sample `x`. */
  method SingleParents(t: StepTable, ps: seq<string>, x: string) returns (r: Result<seq<JobKey>, string>)
    ensures UnknownIn(t, ps).Some? ==> r == Failure(UnknownIn(t, ps).value)
    ensures UnknownIn(t, ps) == None ==> r == Success(SingleParentKeys(t, ps, x))
  {
    var acc: seq<JobKey> := [];
    var i := 0;
    while i < |ps|
      invariant 0 <= i <= |ps|
      invariant UnknownIn(t, ps[..i]) == None
      invariant acc == SingleParentKeys(t, ps[..i], x)
    {
      var p := ps[i];
      assert ps[..i + 1][..i] == ps[..i];
      if p != NoParent {
        if p !in t.conf {
          UnknownInPrefix(t, ps, i + 1);
          return Failure(p);
        }
        if t.conf[p].kind == Single {
          acc := acc + [JobKey(p, Some(x))];
        } else {
          acc := acc + [JobKey(p, None)];
        }
      }
      i := i + 1;
    }
    assert ps[..i] == ps;
    r := Success(acc);
  }

  /** The parents loop for the job of a batch step, with its inner loop over the samples. */
  method BatchParents(t: StepTable, ps: seq<string>, samples: seq<string>) returns (r: Result<seq<JobKey>, string>)
    ensures UnknownIn(t, ps).Some? ==> r == Failure(UnknownIn(t, ps).value)
    ensures UnknownIn(t, ps) == None ==> r == Success(BatchParentKeys(t, ps, samples))
  {
    var acc: seq<JobKey> := [];
    var i := 0;
    while i < |ps|
      invariant 0 <= i <= |ps|
      invariant UnknownIn(t, ps[..i]) == None
      invariant acc == BatchParentKeys(t, ps[..i], samples)
    {
      var p := ps[i];
      assert ps[..i + 1][..i] == ps[..i];
      if p != NoParent {
        if p !in t.conf {
          UnknownInPrefix(t, ps, i + 1);
          return Failure(p);
        }
        if t.conf[p].kind == Single {
          var j := 0;
          while j < |samples|
            invariant 0 <= j <= |samples|
            invariant acc == BatchParentKeys(t, ps[..i], samples) + SampleKeys(p, samples[..j])
          {
            assert samples[..j + 1][..j] == samples[..j];
            acc := acc + [JobKey(p, Some(samples[j]))];
            j := j + 1;
          }
          assert samples[..j] == samples;
        } else {
          acc := acc + [JobKey(p, None)];
        }
      }
      i := i + 1;
    }
    assert ps[..i] == ps;
    r := Success(acc);
  }

  /** The entry the first loop leaves for key `k`. */
  ghost predicate EntryOk(t: StepTable, samples: seq<string>, markers: set<JobKey>, k: JobKey, j: Job) {
    k.step in t.conf && UnknownIn(t, t.conf[k.step].parents) == None &&
    j == NewJob(t, k, markers).(parents := ParentKeys(t, samples, k))
  }

  ghost predicate EntriesOk(t: StepTable, samples: seq<string>, markers: set<JobKey>, jobs: map<JobKey, Job>) {
    forall k :: k in jobs ==> EntryOk(t, samples, markers, k, jobs[k])
  }

  /** One pass of the first loop for a single step `s`: one job per sample. */
  method AddSingleJobs(t: StepTable, s: string, samples: seq<string>, markers: set<JobKey>,
                       jobs: map<JobKey, Job>, order: seq<JobKey>)
    returns (r: Result<(map<JobKey, Job>, seq<JobKey>), string>)
    requires s in t.conf && t.conf[s].kind == Single
    requires jobs.Keys == Elems(order) && EntriesOk(t, samples, markers, jobs)
    ensures ReadsParents(t, s, samples) && UnknownIn(t, t.conf[s].parents).Some? ==>
      r == Failure(UnknownIn(t, t.conf[s].parents).value)
    ensures !(ReadsParents(t, s, samples) && UnknownIn(t, t.conf[s].parents).Some?) ==>
      r.Success? && r.value.1 == order + SampleKeys(s, samples) &&
      r.value.0.Keys == Elems(r.value.1) && EntriesOk(t, samples, markers, r.value.0)
  {
    var cell := t.conf[s].parents;
    var js, ks := jobs, order;
    var j := 0;
    while j < |samples|
      invariant 0 <= j <= |samples|
      invariant j > 0 ==> UnknownIn(t, cell) == None
      invariant ks == order + SampleKeys(s, samples[..j])
      invariant js.Keys == Elems(ks) && EntriesOk(t, samples, markers, js)
    {
      var key := JobKey(s, Some(samples[j]));
      js := js[key := NewJob(t, key, markers)];
      var ps := SingleParents(t, cell, samples[j]);
      if ps.Failure? {
        return Failure(ps.error);
      }
      js := js[key := js[key].(parents := ps.value)];
      assert EntryOk(t, samples, markers, key, js[key]);
      assert samples[..j + 1][..j] == samples[..j];
      ks := ks + [key];
      j := j + 1;
    }
    assert samples[..j] == samples;
    r := Success((js, ks));
  }

  /** One pass of the first loop for a batch step `s`: its one job. */
  method AddBatchJob(t: StepTable, s: string, samples: seq<string>, markers: set<JobKey>,
                     jobs: map<JobKey, Job>, order: seq<JobKey>)
    returns (r: Result<(map<JobKey, Job>, seq<JobKey>), string>)
    requires s in t.conf && t.conf[s].kind == Batch
    requires jobs.Keys == Elems(order) && EntriesOk(t, samples, markers, jobs)
    ensures UnknownIn(t, t.conf[s].parents).Some? ==> r == Failure(UnknownIn(t, t.conf[s].parents).value)
    ensures UnknownIn(t, t.conf[s].parents) == None ==>
      r.Success? && r.value.1 == order + [JobKey(s, None)] &&
      r.value.0.Keys == Elems(r.value.1) && EntriesOk(t, samples, markers, r.value.0)
  {
    var key := JobKey(s, None);
    var js := jobs[key := NewJob(t, key, markers)];
    var ps := BatchParents(t, t.conf[s].parents, samples);
    if ps.Failure? {
      return Failure(ps.error);
    }
    js := js[key := js[key].(parents := ps.value)];
    assert EntryOk(t, samples, markers, key, js[key]);
    r := Success((js, order + [key]));
  }

  /** Unfolding the table-order functions by one step. */
  lemma NamesStep(t: StepTable, samples: seq<string>, i: nat)
    requires ValidTable(t) && i < |t.names|
    ensures KeysOf(t, t.names[..i + 1], samples) == KeysOf(t, t.names[..i], samples) + StepKeys(t, t.names[i], samples)
    ensures FirstUnknown(t, t.names[..i], samples) == None ==>
      var s := t.names[i];
      FirstUnknown(t, t.names[..i + 1], samples) ==
        if ReadsParents(t, s, samples) && UnknownIn(t, t.conf[s].parents).Some? then
          Some(UnknownParentStep(s, UnknownIn(t, t.conf[s].parents).value))
        else None
  {
    assert t.names[..i + 1][..i] == t.names[..i];
  }

  /** Entries built for exactly the keys of the table are those of `Phase1`. */
  lemma EntriesArePhase1(t: StepTable, samples: seq<string>, markers: set<JobKey>,
                         jobs: map<JobKey, Job>, order: seq<JobKey>)
    requires ValidTable(t) && FirstUnknown(t, t.names, samples) == None
    requires order == KeysOf(t, t.names, samples)
    requires jobs.Keys == Elems(order) && EntriesOk(t, samples, markers, jobs)
    ensures Graph(order, jobs) == Phase1(t, samples, markers)
  {
    var spec := Phase1(t, samples, markers);
    forall k | k in jobs ensures jobs[k] == spec.jobs[k] {
      assert EntryOk(t, samples, markers, k, jobs[k]);
    }
  }

  /** The first loop of `generate_job_graph`: initialise every job and fill its Parents. */
  method BuildJobs(t: StepTable, samples: seq<string>, markers: set<JobKey>) returns (r: Result<Graph, BuildError>)
    requires ValidTable(t)
    ensures FirstUnknown(t, t.names, samples).Some? ==> r == Failure(FirstUnknown(t, t.names, samples).value)
    ensures FirstUnknown(t, t.names, samples) == None ==> r == Success(Phase1(t, samples, markers))
  {
    var jobs: map<JobKey, Job> := map[];
    var order: seq<JobKey> := [];
    var i := 0;
    while i < |t.names|
      invariant 0 <= i <= |t.names|
      invariant FirstUnknown(t, t.names[..i], samples) == None
      invariant order == KeysOf(t, t.names[..i], samples)
      invariant jobs.Keys == Elems(order) && EntriesOk(t, samples, markers, jobs)
    {
      var s := t.names[i];
      NamesStep(t, samples, i);
      var step;
      if t.conf[s].kind == Single {
        step := AddSingleJobs(t, s, samples, markers, jobs, order);
      } else {
        step := AddBatchJob(t, s, samples, markers, jobs, order);
      }
      if step.Failure? {
        FirstUnknownPrefix(t, t.names, samples, i + 1);
        return Failure(UnknownParentStep(s, step.error));
      }
      jobs, order := step.value.0, step.value.1;
      i := i + 1;
    }
    assert t.names[..i] == t.names;
    EntriesArePhase1(t, samples, markers, jobs, order);
    r := Success(Graph(order, jobs));
  }

  /** The inner loop of the second loop: append `j` to the Children of each of `ps`. */
  method AppendToParents(jobs: map<JobKey, Job>, ps: seq<JobKey>, j: JobKey) returns (r: map<JobKey, Job>)
    requires forall p :: p in ps ==> p in jobs
    ensures r.Keys == jobs.Keys
    ensures forall k :: k in jobs ==>
      r[k] == jobs[k].(children := jobs[k].children + Repeat(j, Count(ps, k)))
  {
    r := jobs;
    var m := 0;
    while m < |ps|
      invariant 0 <= m <= |ps|
      invariant r.Keys == jobs.Keys
      invariant forall k :: k in jobs ==>
        r[k] == jobs[k].(children := jobs[k].children + Repeat(j, Count(ps[..m], k)))
    {
      var q := ps[m];
      assert ps[..m + 1][..m] == ps[..m];
      r := r[q := r[q].(children := r[q].children + [j])];
      m := m + 1;
    }
    assert ps[..m] == ps;
  }

  /** The entries after the second loop has visited `prefix`. */
  ghost predicate LinkedAfter(g: Graph, pm: map<JobKey, seq<JobKey>>, jobs: map<JobKey, Job>, prefix: seq<JobKey>)
    requires forall j :: j in prefix ==> j in pm
  {
    && jobs.Keys == g.jobs.Keys
    && forall k :: k in jobs ==>
         jobs[k] == g.jobs[k].(children := g.jobs[k].children + ChildrenIn(pm, prefix, k))
  }

  lemma ChildrenInSnoc(pm: map<JobKey, seq<JobKey>>, prefix: seq<JobKey>, j: JobKey, p: JobKey)
    requires j in pm && forall q :: q in prefix ==> q in pm
    ensures ChildrenIn(pm, prefix + [j], p) == ChildrenIn(pm, prefix, p) + Repeat(j, Count(pm[j], p))
  {
    assert (prefix + [j])[..|prefix|] == prefix;
  }

  lemma AppendTwice(x: Job, y: Job, z: Job, a: seq<JobKey>, b: seq<JobKey>)
    requires y == x.(children := x.children + a)
    requires z == y.(children := y.children + b)
    ensures z == x.(children := x.children + (a + b))
  {
    assert (x.children + a) + b == x.children + (a + b);
  }

  /** Visiting `j` extends the visited prefix by `j`. */
  lemma LinkStep(g: Graph, pm: map<JobKey, seq<JobKey>>, before: map<JobKey, Job>, after: map<JobKey, Job>,
                 prefix: seq<JobKey>, j: JobKey)
    requires j in pm && forall q :: q in prefix ==> q in pm
    requires LinkedAfter(g, pm, before, prefix)
    requires after.Keys == before.Keys
    requires forall k :: k in before ==>
      after[k] == before[k].(children := before[k].children + Repeat(j, Count(pm[j], k)))
    ensures LinkedAfter(g, pm, after, prefix + [j])
  {
    var next := prefix + [j];
    assert next[..|next| - 1] == prefix;
    forall k | k in after
      ensures after[k] == g.jobs[k].(children := g.jobs[k].children + ChildrenIn(pm, next, k))
    {
      ChildrenInSnoc(pm, prefix, j, k);
      AppendTwice(g.jobs[k], before[k], after[k], ChildrenIn(pm, prefix, k), Repeat(j, Count(pm[j], k)));
    }
  }

  /** Once every key has been visited, the entries are those of `Link`. */
  lemma LinkedAll(g: Graph, jobs: map<JobKey, Job>)
    requires forall j :: j in g.order ==> j in g.jobs
    requires LinkedAfter(g, ParentMap(g), jobs, g.order)
    ensures Graph(g.order, jobs) == Link(g)
  {
  }

  /** The parents of a visited entry are untouched. */
  lemma LinkedParents(g: Graph, pm: map<JobKey, seq<JobKey>>, jobs: map<JobKey, Job>, prefix: seq<JobKey>, j: JobKey)
    requires forall q :: q in prefix ==> q in pm
    requires LinkedAfter(g, pm, jobs, prefix) && j in g.jobs
    ensures j in jobs && jobs[j].parents == g.jobs[j].parents
  {
  }

  /** The loop of the second pass, over the keys in insertion order. */
  method LinkLoop(g: Graph, pm: map<JobKey, seq<JobKey>>) returns (jobs: map<JobKey, Job>)
    requires g.jobs.Keys == Elems(g.order) && pm.Keys == g.jobs.Keys
    requires forall k :: k in g.jobs ==> pm[k] == g.jobs[k].parents
    requires forall k :: k in pm ==> forall p :: p in pm[k] ==> p in g.jobs
    ensures LinkedAfter(g, pm, jobs, g.order)
  {
    jobs := g.jobs;
    var i := 0;
    assert g.order[..0] == [];
    while i < |g.order|
      invariant 0 <= i <= |g.order|
      invariant LinkedAfter(g, pm, jobs, g.order[..i])
    {
      var j := g.order[i];
      LinkedParents(g, pm, jobs, g.order[..i], j);
      var after := AppendToParents(jobs, jobs[j].parents, j);
      LinkStep(g, pm, jobs, after, g.order[..i], j);
      assert g.order[..i + 1] == g.order[..i] + [j];
      jobs := after;
      i := i + 1;
    }
    assert g.order[..i] == g.order;
  }

  /** The second loop of `generate_job_graph`: append every job to the Children of each of
      its parents, visiting the jobs in insertion order. */
  method LinkChildren(g: Graph) returns (r: Graph)
    requires g.jobs.Keys == Elems(g.order)
    requires forall k :: k in g.jobs ==> forall p :: p in g.jobs[k].parents ==> p in g.jobs
    ensures r == Link(g)
  {
    var jobs := LinkLoop(g, ParentMap(g));
    LinkedAll(g, jobs);
    r := Graph(g.order, jobs);
  }

  /** `generate_job_graph`. */
  method GenerateJobGraph(t: StepTable, samples: seq<string>, markers: set<JobKey>) returns (r: Result<Graph, BuildError>)
    requires ValidTable(t) && Distinct(samples)
    ensures FirstUnknown(t, t.names, samples).Some? ==> r == Failure(FirstUnknown(t, t.names, samples).value)
    ensures FirstUnknown(t, t.names, samples) == None ==> r == Success(Expand(t, samples, markers))
  {
    var first := BuildJobs(t, samples, markers);
    if first.Failure? {
      return Failure(first.error);
    }
    var g := first.value;
    Phase1Distinct(t, samples, markers);
    Phase1Closed(t, samples, markers);
    var linked := LinkChildren(g);
    r := Success(linked);
  }
}
