/** What the job graph built by `generate_job_graph` looks like: which jobs it has, which
    edges each declared parent gives, and that Children is the transpose of Parents. */
module GraphProperties {
  import opened JobModel
  import opened GraphBuilder

  /** The inputs for which `generate_job_graph` returns a graph: a loaded step table, a
      sample list without repetitions (the keys of the sample table), and no unknown
      parent name in a cell that gets read. */
  ghost predicate Buildable(t: StepTable, samples: seq<string>) {
    ValidTable(t) && Distinct(samples) && FirstUnknown(t, t.names, samples) == None
  }

  /** Whether `q` is a key that a job of step `k.step` takes as parent for a declared parent
      step `q.step`: the same-sample job or the batch job for a single child; every sample's
      job or the batch job for a batch child. */
  predicate ParentFits(t: StepTable, samples: seq<string>, k: JobKey, q: JobKey)
    requires q.step in t.conf
  {
    if t.conf[q.step].kind == Single then
      match k.sample
      case Some(x) => q.sample == Some(x)
      case None => q.sample.Some? && q.sample.value in samples
    else q.sample == None
  }

  /** The jobs of step `s`. */
  ghost function JobsOfStep(g: Graph, s: string): set<JobKey> {
    set k | k in g.jobs && k.step == s
  }

  // ---------------------------------------------------------------------------------
  // Which jobs there are.

  /** The graph has one entry per key, in insertion order without repetition; a key is there
      exactly when its step is in the table and it carries a listed sample if and only if
      the step is single. */
  lemma ExpandKeys(t: StepTable, samples: seq<string>, markers: set<JobKey>)
    requires Buildable(t, samples)
    ensures var g := Expand(t, samples, markers);
      && Distinct(g.order) && g.jobs.Keys == Elems(g.order)
      && forall k :: k in g.jobs <==>
           k.step in t.conf &&
           (if t.conf[k.step].kind == Single then k.sample.Some? && k.sample.value in samples
            else k.sample == None)
  {
    Phase1Distinct(t, samples, markers);
    KeysOfMembers(t, t.names, samples);
  }

  lemma {:induction false} SampleKeysDistinct(s: string, samples: seq<string>)
    requires Distinct(samples)
    ensures Distinct(SampleKeys(s, samples))
  {
    SampleKeysAre(s, samples);
  }

  /** A single step has exactly one job per sample and a batch step exactly one job. */
  lemma StepJobCount(t: StepTable, samples: seq<string>, markers: set<JobKey>, s: string)
    requires Buildable(t, samples) && s in t.conf
    ensures |JobsOfStep(Expand(t, samples, markers), s)| ==
      if t.conf[s].kind == Single then |samples| else 1
  {
    var g := Expand(t, samples, markers);
    ExpandKeys(t, samples, markers);
    if t.conf[s].kind == Single {
      SingleStepJobs(g, s, samples);
    } else {
      BatchStepJobs(g, s);
    }
  }

  /** A step whose only key is the one without a sample has one job. */
  lemma BatchStepJobs(g: Graph, s: string)
    requires forall k: JobKey :: k.step == s ==> (k in g.jobs <==> k.sample == None)
    ensures |JobsOfStep(g, s)| == 1
  {
    assert JobsOfStep(g, s) == {JobKey(s, None)};
  }

  /** The jobs of a step whose keys are exactly the step's sample keys number the samples. */
  lemma SingleStepJobs(g: Graph, s: string, samples: seq<string>)
    requires Distinct(samples)
    requires forall k: JobKey :: k.step == s ==> (k in g.jobs <==> k.sample.Some? && k.sample.value in samples)
    ensures |JobsOfStep(g, s)| == |samples|
  {
    SampleKeysMembers(s, samples);
    assert JobsOfStep(g, s) == Elems(SampleKeys(s, samples));
    SampleKeysDistinct(s, samples);
    DistinctElems(SampleKeys(s, samples));
    SampleKeysAre(s, samples);
  }

  /** `initialize_job`: every job carries its step's name, type and resources, no queue
      handle, and is complete exactly when its marker existed at build time. */
  lemma ExpandInitialised(t: StepTable, samples: seq<string>, markers: set<JobKey>)
    requires Buildable(t, samples)
    ensures var g := Expand(t, samples, markers);
      && Fresh(g, markers)
      && forall k :: k in g.jobs ==>
           k.step in t.conf && g.jobs[k].name == k.step && g.jobs[k].kind == t.conf[k.step].kind &&
           g.jobs[k].resources == t.conf[k.step].resources
  {
    KeysOfMembers(t, t.names, samples);
  }

  // ---------------------------------------------------------------------------------
  // Which parent edges there are.

  lemma {:induction false} CountSampleKeys(s: string, samples: seq<string>, q: JobKey)
    requires Distinct(samples)
    ensures Count(SampleKeys(s, samples), q) ==
      if q.step == s && q.sample.Some? && q.sample.value in samples then 1 else 0
    decreases |samples|
  {
    if samples != [] {
      var init, x := samples[..|samples| - 1], samples[|samples| - 1];
      assert samples == init + [x];
      CountSampleKeys(s, init, q);
      CountAppend(SampleKeys(s, init), [JobKey(s, Some(x))], q);
      assert [JobKey(s, Some(x))][..0] == [];
      if q == JobKey(s, Some(x)) {
        assert x !in init;
      }
    }
  }

  /** What one cell entry contributes to the Parents of a single step's job. */
  lemma CountSingleTail(t: StepTable, p: string, x: string, q: JobKey)
    requires p == NoParent || p in t.conf
    ensures Count(if p == NoParent then []
                  else if t.conf[p].kind == Single then [JobKey(p, Some(x))]
                  else [JobKey(p, None)], q) ==
      if p == q.step && q.step != NoParent && q.step in t.conf &&
         q.sample == (if t.conf[q.step].kind == Single then Some(x) else None)
      then 1 else 0
  {
    if p != NoParent {
      var one := if t.conf[p].kind == Single then JobKey(p, Some(x)) else JobKey(p, None);
      assert [one][..0] == [];
    }
  }

  lemma {:induction false} CountSingleParentKeys(t: StepTable, ps: seq<string>, x: string, q: JobKey)
    requires UnknownIn(t, ps) == None
    ensures Count(SingleParentKeys(t, ps, x), q) ==
      if q.step != NoParent && q.step in t.conf &&
         q.sample == (if t.conf[q.step].kind == Single then Some(x) else None)
      then Count(ps, q.step) else 0
    decreases |ps|
  {
    if ps != [] {
      var init, p := ps[..|ps| - 1], ps[|ps| - 1];
      CountSingleParentKeys(t, init, x, q);
      assert UnknownIn(t, init) == None;
      var tail := if p == NoParent then []
                  else if t.conf[p].kind == Single then [JobKey(p, Some(x))]
                  else [JobKey(p, None)];
      assert SingleParentKeys(t, ps, x) == SingleParentKeys(t, init, x) + tail;
      CountAppend(SingleParentKeys(t, init, x), tail, q);
      assert Count(ps, q.step) == Count(init, q.step) + (if p == q.step then 1 else 0);
      CountSingleTail(t, p, x, q);
    }
  }

  lemma {:induction false} CountBatchParentKeys(t: StepTable, ps: seq<string>, samples: seq<string>, q: JobKey)
    requires UnknownIn(t, ps) == None && Distinct(samples)
    ensures Count(BatchParentKeys(t, ps, samples), q) ==
      if q.step != NoParent && q.step in t.conf &&
         (if t.conf[q.step].kind == Single then q.sample.Some? && q.sample.value in samples
          else q.sample == None)
      then Count(ps, q.step) else 0
    decreases |ps|
  {
    if ps != [] {
      var init, p := ps[..|ps| - 1], ps[|ps| - 1];
      CountBatchParentKeys(t, init, samples, q);
      var tail := if p == NoParent then []
                  else if t.conf[p].kind == Single then SampleKeys(p, samples)
                  else [JobKey(p, None)];
      assert UnknownIn(t, init) == None;
      assert BatchParentKeys(t, ps, samples) == BatchParentKeys(t, init, samples) + tail;
      CountAppend(BatchParentKeys(t, init, samples), tail, q);
      assert Count(ps, q.step) == Count(init, q.step) + (if p == q.step then 1 else 0);
      if p != NoParent {
        if t.conf[p].kind == Single {
          CountSampleKeys(p, samples, q);
        } else {
          assert tail[..0] == [];
        }
      }
    }
  }

  /** The edge rule. Job `k` takes `q` as a parent once for every time `q`'s step is
      declared in `k`'s cell, provided that step is not "None" and `q` is the job of that
      step the rule picks (same sample, all samples, or the batch job); it takes no other
      parents. */
  lemma EdgeRule(t: StepTable, samples: seq<string>, markers: set<JobKey>, k: JobKey, q: JobKey)
    requires Buildable(t, samples)
    requires k in Expand(t, samples, markers).jobs
    ensures k.step in t.conf
    ensures Count(Expand(t, samples, markers).jobs[k].parents, q) ==
      if q.step != NoParent && q.step in t.conf && ParentFits(t, samples, k, q)
      then Count(t.conf[k.step].parents, q.step) else 0
  {
    KeysReadParents(t, t.names, samples);
    var cell := t.conf[k.step].parents;
    match k.sample {
      case Some(x) => CountSingleParentKeys(t, cell, x, q);
      case None => CountBatchParentKeys(t, cell, samples, q);
    }
  }

  lemma {:induction false} SingleParentKeysLength(t: StepTable, ps: seq<string>, x: string)
    requires UnknownIn(t, ps) == None
    ensures |SingleParentKeys(t, ps, x)| == |ps| - Count(ps, NoParent)
    decreases |ps|
  {
    if ps != [] {
      SingleParentKeysLength(t, ps[..|ps| - 1], x);
    }
  }

  /** A job of a single step has one parent per entry of its cell that is not "None". */
  lemma SingleChildEdgeCount(t: StepTable, samples: seq<string>, markers: set<JobKey>, k: JobKey)
    requires Buildable(t, samples)
    requires k in Expand(t, samples, markers).jobs && k.sample.Some?
    ensures k.step in t.conf
    ensures |Expand(t, samples, markers).jobs[k].parents| ==
      |t.conf[k.step].parents| - Count(t.conf[k.step].parents, NoParent)
  {
    KeysReadParents(t, t.names, samples);
    SingleParentKeysLength(t, t.conf[k.step].parents, k.sample.value);
  }

  // ---------------------------------------------------------------------------------
  // Children is the transpose of Parents.

  lemma {:induction false} CountRepeat(x: JobKey, n: nat, y: JobKey)
    ensures Count(Repeat(x, n), y) == if x == y then n else 0
    decreases n
  {
    if n > 0 {
      var r := Repeat(x, n);
      assert r == Repeat(x, n - 1) + [x];
      assert r[..|r| - 1] == Repeat(x, n - 1);
      CountRepeat(x, n - 1, y);
    }
  }

  lemma {:induction false} CountChildrenIn(pm: map<JobKey, seq<JobKey>>, order: seq<JobKey>, p: JobKey, j: JobKey)
    requires (forall q :: q in order ==> q in pm) && Distinct(order)
    ensures Count(ChildrenIn(pm, order, p), j) == if j in order then Count(pm[j], p) else 0
    decreases |order|
  {
    if order != [] {
      var init, last := order[..|order| - 1], order[|order| - 1];
      var n := Count(pm[last], p);
      assert ChildrenIn(pm, order, p) == ChildrenIn(pm, init, p) + Repeat(last, n);
      forall a, b | 0 <= a < b < |init| ensures init[a] != init[b] {
        assert init[a] == order[a] && init[b] == order[b];
      }
      CountChildrenIn(pm, init, p, j);
      CountAppend(ChildrenIn(pm, init, p), Repeat(last, n), j);
      CountRepeat(last, n, j);
      assert order == init + [last];
      forall a | 0 <= a < |init| ensures init[a] != last {
        assert init[a] == order[a];
      }
    }
  }

  /** After the second loop, `j` occurs in the Children of `p` exactly as often as `p`
      occurs in the Parents of `j`: one child entry per parent edge. */
  lemma Transpose(t: StepTable, samples: seq<string>, markers: set<JobKey>, p: JobKey, j: JobKey)
    requires Buildable(t, samples)
    requires p in Expand(t, samples, markers).jobs
    ensures var g := Expand(t, samples, markers);
      Count(g.jobs[p].children, j) == if j in g.jobs then Count(g.jobs[j].parents, p) else 0
  {
    var g0 := Phase1(t, samples, markers);
    Phase1Distinct(t, samples, markers);
    CountChildrenIn(ParentMap(g0), g0.order, p, j);
    assert g0.jobs[p].children == [];
    assert [] + ChildrenIn(ParentMap(g0), g0.order, p) == ChildrenIn(ParentMap(g0), g0.order, p);
  }

  /** The membership form of the transpose: `j` is a child of `p` iff `p` is a parent of `j`. */
  lemma ChildIffParent(t: StepTable, samples: seq<string>, markers: set<JobKey>, p: JobKey, j: JobKey)
    requires Buildable(t, samples)
    requires p in Expand(t, samples, markers).jobs && j in Expand(t, samples, markers).jobs
    ensures var g := Expand(t, samples, markers);
      j in g.jobs[p].children <==> p in g.jobs[j].parents
  {
    var g := Expand(t, samples, markers);
    Transpose(t, samples, markers, p, j);
    CountPositive(g.jobs[p].children, j);
    CountPositive(g.jobs[j].parents, p);
  }

  /** The built graph is what the scheduler expects: keys without repetition, every edge
      between jobs of the graph, and every parent edge mirrored by a child edge. */
  lemma ExpandWellFormed(t: StepTable, samples: seq<string>, markers: set<JobKey>)
    requires Buildable(t, samples)
    ensures WellFormed(Expand(t, samples, markers))
  {
    var g := Expand(t, samples, markers);
    ExpandKeys(t, samples, markers);
    Phase1Closed(t, samples, markers);
    forall k | k in g.jobs
      ensures (forall p :: p in g.jobs[k].parents ==> p in g.jobs) &&
              (forall c :: c in g.jobs[k].children ==> c in g.jobs)
    {
      forall c | c in g.jobs[k].children ensures c in g.jobs {
        Transpose(t, samples, markers, k, c);
        CountPositive(g.jobs[k].children, c);
      }
    }
    forall k | k in g.jobs ensures ChildOfParents(g, k) {
      forall p | p in g.jobs[k].parents ensures p in g.jobs && k in g.jobs[p].children {
        ChildIffParent(t, samples, markers, p, k);
      }
    }
  }

  /** An acyclic step table gives a graph whose parent edges all go down in rank. */
  lemma ExpandLayered(t: StepTable, samples: seq<string>, markers: set<JobKey>, rank: map<string, nat>)
    requires Buildable(t, samples) && StepsAcyclic(t, rank)
    ensures Layered(Expand(t, samples, markers), rank)
  {
    var g := Expand(t, samples, markers);
    forall k | k in g.jobs ensures RanksBelow(rank, g.jobs[k].parents, k) {
      JobLayered(t, samples, markers, rank, k);
    }
  }

  lemma JobLayered(t: StepTable, samples: seq<string>, markers: set<JobKey>, rank: map<string, nat>, k: JobKey)
    requires Buildable(t, samples) && StepsAcyclic(t, rank)
    requires k in Expand(t, samples, markers).jobs
    ensures RanksBelow(rank, Expand(t, samples, markers).jobs[k].parents, k)
  {
    var ps := Expand(t, samples, markers).jobs[k].parents;
    EdgeRule(t, samples, markers, k, k);
    assert k.step in t.conf;
    assert DeclaredBelow(t, rank, k.step);
    forall p | p in ps ensures p.step in rank && rank[p.step] < rank[k.step] {
      EdgeRule(t, samples, markers, k, p);
      CountPositive(ps, p);
      CountPositive(t.conf[k.step].parents, p.step);
    }
  }

  // ---------------------------------------------------------------------------------
  // A worked example: a per-sample alignment step feeding one merge step.

  function ExampleTable(): StepTable {
    StepTable(["align", "merge"],
              map["align" := StepDef(Single, ["None"], "-l p=4"),
                  "merge" := StepDef(Batch, ["align"], "-l p=1")])
  }

  /** Over three samples there are three alignment jobs and one merge job; the merge job
      takes each alignment job as a parent exactly once, and each alignment job has the merge
      job as a child exactly once. */
  lemma ExampleMergeWaitsForAll(markers: set<JobKey>)
    ensures var t, samples := ExampleTable(), ["s1", "s2", "s3"];
      && Buildable(t, samples)
      && |JobsOfStep(Expand(t, samples, markers), "align")| == 3
      && |JobsOfStep(Expand(t, samples, markers), "merge")| == 1
      && forall x :: x in samples ==>
           var g, a, m := Expand(t, samples, markers), JobKey("align", Some(x)), JobKey("merge", None);
           a in g.jobs && m in g.jobs && Count(g.jobs[m].parents, a) == 1 && Count(g.jobs[a].children, m) == 1
  {
    var t, samples := ExampleTable(), ["s1", "s2", "s3"];
    assert ValidTable(t);
    assert t.names[..1] == ["align"] && ["align"][..0] == [];
    assert ["None"][..0] == [] && ["align"][..0] == [];
    assert FirstUnknown(t, t.names, samples) == None;
    StepJobCount(t, samples, markers, "align");
    StepJobCount(t, samples, markers, "merge");
    var g, m := Expand(t, samples, markers), JobKey("merge", None);
    ExpandKeys(t, samples, markers);
    forall x | x in samples
      ensures var a := JobKey("align", Some(x));
        a in g.jobs && m in g.jobs && Count(g.jobs[m].parents, a) == 1 && Count(g.jobs[a].children, m) == 1
    {
      var a := JobKey("align", Some(x));
      EdgeRule(t, samples, markers, m, a);
      assert Count(t.conf["merge"].parents, "align") == 1;
      Transpose(t, samples, markers, a, m);
    }
  }
}
