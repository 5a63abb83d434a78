/** The values the orchestrator works on: the step table, job keys, jobs and the job graph. */
module JobModel {

  datatype Option<T> = None | Some(value: T)

  datatype Result<T, E> = Success(value: T) | Failure(error: E)

  /** The `Type` column of the step table: a `single` step runs once per sample; every
      other value of the column makes a batch step, which runs once per run. */
  datatype StepType = Single | Batch

  /** One row of the step table: its type, its `Parents` cell split at the commas, and its
      `Resources` cell, which is handed to the queue verbatim. */
  datatype StepDef = StepDef(kind: StepType, parents: seq<string>, resources: string)

  /** The step table as the dictionary the scheduler reads: step names in row order, and the
      row of each name. */
  datatype StepTable = StepTable(names: seq<string>, conf: map<string, StepDef>)

  /** The literal that a `Parents` cell holds for a step without parents. */
  const NoParent: string := "None"

  predicate Distinct<T(==)>(s: seq<T>) {
    forall i, j :: 0 <= i < j < |s| ==> s[i] != s[j]
  }

  function Elems<T(==)>(s: seq<T>): set<T> {
    set x | x in s
  }

  /** How many times `x` occurs in `s`. */
  function Count<T(==)>(s: seq<T>, x: T): nat {
    if s == [] then 0 else Count(s[..|s| - 1], x) + (if s[|s| - 1] == x then 1 else 0)
  }

  lemma {:induction false} CountAppend<T>(a: seq<T>, b: seq<T>, x: T)
    ensures Count(a + b, x) == Count(a, x) + Count(b, x)
    decreases |b|
  {
    if b != [] {
      assert (a + b)[..|a + b| - 1] == a + b[..|b| - 1];
      CountAppend(a, b[..|b| - 1], x);
    } else {
      assert a + b == a;
    }
  }

  lemma {:induction false} CountPositive<T>(s: seq<T>, x: T)
    ensures Count(s, x) > 0 <==> x in s
    decreases |s|
  {
    if s != [] {
      CountPositive(s[..|s| - 1], x);
      assert s == s[..|s| - 1] + [s[|s| - 1]];
    }
  }

  /** A sequence without repetitions has as many distinct elements as entries. */
  lemma {:induction false} DistinctElems<T>(s: seq<T>)
    requires Distinct(s)
    ensures |Elems(s)| == |s|
    decreases |s|
  {
    if s != [] {
      var init, x := s[..|s| - 1], s[|s| - 1];
      assert s == init + [x];
      assert Elems(s) == Elems(init) + {x};
      assert x !in Elems(init);
      DistinctElems(init);
    }
  }

  /** What loading the table guarantees: row names are unique and every row is in the map. */
  predicate ValidTable(t: StepTable) {
    Distinct(t.names) && Elems(t.names) == t.conf.Keys
  }

  /** The identity of a job: its step and, for a single step, its sample. It stands for the
      script path `work_dir/<sample>/shell/<step>.sh` or `work_dir/shell/<step>.sh`. */
  datatype JobKey = JobKey(step: string, sample: Option<string>)

  datatype Status = Complete | Incomplete

  /** One entry of the job graph. `jobId` is the queue's handle, `""` until submitted. */
  datatype Job = Job(name: string, kind: StepType, resources: string, status: Status,
                     jobId: string, parents: seq<JobKey>, children: seq<JobKey>)

  /** The job graph: keys in insertion order and the entry of each key. */
  datatype Graph = Graph(order: seq<JobKey>, jobs: map<JobKey, Job>)

  /** The part of a job that scheduling never changes. */
  function Shape(j: Job): Job {
    j.(status := Incomplete, jobId := "")
  }

  /** `b` is `a` with at most statuses and queue handles changed. */
  ghost predicate SameShape(a: Graph, b: Graph) {
    && a.order == b.order
    && a.jobs.Keys == b.jobs.Keys
    && forall k :: k in a.jobs ==> Shape(b.jobs[k]) == Shape(a.jobs[k])
  }

  /** Every parent and child named in the graph is a job of the graph. */
  ghost predicate Closed(g: Graph) {
    forall k :: k in g.jobs ==>
      (forall p :: p in g.jobs[k].parents ==> p in g.jobs) &&
      (forall c :: c in g.jobs[k].children ==> c in g.jobs)
  }

  /** Every parent edge is also recorded as a child edge. */
  ghost predicate Transposed(g: Graph) {
    forall k :: k in g.jobs ==> ChildOfParents(g, k)
  }

  /** `k` is among the Children of each of its parents. */
  ghost predicate ChildOfParents(g: Graph, k: JobKey)
    requires k in g.jobs
  {
    forall p :: p in g.jobs[k].parents ==> p in g.jobs && k in g.jobs[p].children
  }

  /** What the scheduler relies on in the graph it is given. */
  ghost predicate WellFormed(g: Graph) {
    && Distinct(g.order)
    && g.jobs.Keys == Elems(g.order)
    && Closed(g)
    && Transposed(g)
  }

  /** The state of a freshly built graph: nothing submitted, and exactly the jobs whose
      marker existed at build time are complete. */
  ghost predicate Fresh(g: Graph, markers: set<JobKey>) {
    forall k :: k in g.jobs ==>
      g.jobs[k].jobId == "" && (g.jobs[k].status == Complete <==> k in markers)
  }

  /** A rank on steps under which every declared parent ranks below its child: the step
      table has no cycle. */
  ghost predicate StepsAcyclic(t: StepTable, rank: map<string, nat>) {
    forall s :: s in t.conf ==> s in rank && DeclaredBelow(t, rank, s)
  }

  /** Every step that `s` names as a parent ranks below `s`. */
  ghost predicate DeclaredBelow(t: StepTable, rank: map<string, nat>, s: string)
    requires s in t.conf && s in rank
  {
    forall p :: p in t.conf[s].parents && p != NoParent && p in t.conf ==> p in rank && rank[p] < rank[s]
  }

  /** Every parent edge of the job graph goes from a lower-ranked step to a higher one. */
  ghost predicate Layered(g: Graph, rank: map<string, nat>) {
    forall k :: k in g.jobs ==> RanksBelow(rank, g.jobs[k].parents, k)
  }

  ghost predicate RanksBelow(rank: map<string, nat>, ps: seq<JobKey>, k: JobKey) {
    k.step in rank && forall p :: p in ps ==> p.step in rank && rank[p.step] < rank[k.step]
  }
}
