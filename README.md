# SJF: a model of the job-graph builder and scheduler of `SubJobFrame`

`SJF.py` runs a bioinformatics pipeline on an SGE batch queue. A step table lists the pipeline's
steps. Each row has a `Type`: a `single` step runs once per sample, and any other value makes a
batch step that runs once per run. Each row also has a `Parents` cell, the comma-separated steps
it depends on or `None`, and a `Resources` cell. A sample table lists the samples.

`SubJobFrame` works in two stages:

1. `generate_job_graph` expands the two tables into a job graph. Every job holds its status,
   its queue id, its Parents list and its Children list.
2. `work_flow` drives the graph from its roots, the jobs without parents. In each round it
   visits every job of the frontier:
   - it refreshes the job's `.complete` marker;
   - if the job is incomplete and has no queue id, and all its parents are complete, it
     submits the job through the throttle in `submit`;
   - if the job holds a queue id, it polls the queue. If the queue no longer knows the job
     and two marker checks in a row find no marker, it cancels the frontier with `kill_job`
     and exits;
   - a complete job is dropped from the frontier and its children join it.

The loop ends when the frontier is empty.

The project has seven modules:

- `JobModel` (`job_model.dfy`): the values.
  - `StepTable` holds the names in row order and the rows as a map.
  - `JobKey(step, sample)` stands for the script path of a job. `sample` is `None` for a
    batch step.
  - `Job` holds Name, Type, Resources, Status, JobID, Parents and Children.
  - `Graph` holds the keys in dictionary insertion order and the entry of each key.
- `GraphBuilder` (`graph_builder.dfy`): `initialize_job` and `generate_job_graph`.
  - Each loop of the source is a method with loop invariants.
  - Each method is proved against a specification function: `Phase1` for the first loop,
    `Link` for the second, and `Expand` for the whole.
  - A parent name that is not in the table raises `KeyError` in the source. Here it gives
    `Failure(UnknownParentStep(step, parent))`, computed by `FirstUnknown`.
- `GraphProperties` (`graph_properties.dfy`): what the built graph looks like.
  - Job counts.
  - The four-case edge rule.
  - Children is the transpose of Parents.
  - Under an acyclic step table, edges go down a rank.
- `QueueAdapter` (`queue_adapter.dfy`): the outside world, meaning the `.complete` markers,
  `qstat`, `qsub` and `qdel`.
  - Every call to the outside is one `Event`, appended to a log.
  - The three places that test a marker are three kinds of event:
    - `MarkerCheck`, the refresh at the top of the loop body;
    - `Recheck`, the two confirmations after an absent status reply;
    - `KillCheck`, the test in `kill_job`.
  - `Seen`, "a marker of this job was found", counts only refreshes. Only a refresh sets a
    status, so it is the only check that makes a parent count as complete.
  - What the world answers to the n-th call is given by a `World` of functions, so a run is
    determined by its inputs and its world.
- `SchedulerTrace` (`scheduler_trace.dfy`): the rules every event of a run obeys (`EventOk`),
  and what they imply:
  - the throttle;
  - the submission guards;
  - no resubmission once an id is held;
  - every polled id was issued by the queue;
  - the shape of the `kill_job` events before an abort.
  - `Fatal` names the three events after which `work_flow` exits: a failed depth query, a
    refused submission, and a second confirmation that finds no marker. `NoFatal(log)` says
    that no event of `log` is one of them.
- `SchedulerState` (`scheduler_state.dfy`): the invariant `Tracking`, which ties the graph
  being updated to the log, and one lemma per kind of call showing that the call keeps it.
- `Scheduler` (`scheduler.dfy`): `parents_status`, `submit`, `kill_job`, the loop body, one
  round and `work_flow`.
  - The graph is a local dictionary of `work_flow`, passed to static helpers. Here it is
    threaded through the methods as a value.
  - Each branch of the loop body has an end predicate: `SubmitEnd`, `PollEnd`, `ConfirmEnd`,
    `WaitEnd` and `VisitEnd`. Each states how the branch ends, in terms of the world's
    answers, in both directions. For example, the run halts on a job that is gone from the
    queue if and only if both confirmations find no marker.
  - A round is a chain of visits (`RoundVisits`): each frontier job is visited exactly once,
    as `VisitEnd` says, the state handed from one visit to the next. A continuing round covers
    the whole frontier. A stopped round covers the jobs up to the visit that halted.
  - A run is a chain of rounds (`RunOf`) from the roots and the empty log. Each continuing
    round hands the next one its new frontier. The run then ends at the loop's exit or with
    one stopped round.

The main result is `Scheduler.WorkFlow`. Its ensures state:

- a configuration error happens exactly when a read `Parents` cell names an unknown step;
- otherwise the run is a chain of rounds from the roots, each a chain of visits (`RunOf`);
- the run's log obeys the trace rules of the built graph;
- a job ends complete only if its marker existed at build time or a refresh found it;
- a normal exit leaves every job complete whenever the step table is acyclic;
- each abort is explained by the last events of the log;
- the first fatal event of the log ends the run. The log of a normal or unfinished run has
  no fatal event, and the log before the explaining events of an abort has none either.

## Model

| member | source | states |
|---|---|---|
| GraphBuilder.GenerateJobGraph | SJF.py:90-122 | Fails with the first unknown parent step (the `KeyError`) exactly when one exists; otherwise returns `Expand`, the initialised graph with Parents filled and then linked |
| GraphBuilder.BuildJobs | SJF.py:92-118 | The first loop over the steps in row order: fails at the first unknown parent that is read, otherwise yields `Phase1`, every key with its initial entry and Parents list |
| GraphBuilder.AddSingleJobs | SJF.py:95-106 | A single step adds one job per sample, in sample order, each with its parents; it fails on an unknown parent only when there is a sample to read the cell for |
| GraphBuilder.AddBatchJob | SJF.py:107-118 | A batch step adds its one job with its parents, or fails on an unknown parent |
| GraphBuilder.SingleParents | SJF.py:100-106 | The Parents of a single job for sample `x`: the same-sample job of a single parent step, the batch job of a batch parent step, nothing for `None`; fails on an unknown name |
| GraphBuilder.BatchParents | SJF.py:110-118 | The Parents of a batch job: every sample's job of a single parent step in sample order, the batch job of a batch parent step, nothing for `None`; fails on an unknown name |
| GraphBuilder.AppendToParents | SJF.py:120-121 | The inner linking loop appends `j` to the Children of each listed parent, once per occurrence, and changes nothing else |
| GraphBuilder.LinkLoop | SJF.py:119-121 | After the outer linking loop, every job's Children is its old list followed by the jobs that list it as a parent, in insertion order |
| GraphBuilder.LinkChildren | SJF.py:119-121 | The second loop of `generate_job_graph` computes `Link` |
| GraphProperties.ExpandKeys | SJF.py:94-109 | The keys have no repetition and are exactly: one per sample for a single step, one without a sample for a batch step |
| GraphProperties.StepJobCount | SJF.py:94-109 | A single step has exactly as many jobs as there are samples; a batch step has exactly one |
| GraphProperties.ExpandInitialised | SJF.py:75-88 | Every job carries its step's name, type and resources, holds no queue id, and is complete exactly when its marker existed at build time |
| GraphProperties.EdgeRule | SJF.py:100-118 | For each job `k` and key `q`, `q` occurs in the Parents of `k` as often as `q`'s step occurs in `k`'s cell, when `q` fits the four-case rule; otherwise never. `None` adds no edge |
| GraphProperties.SingleChildEdgeCount | SJF.py:100-106 | A single job has one parent per entry of its cell other than `None` |
| GraphProperties.Transpose | SJF.py:119-121 | `j` occurs in the Children of `p` exactly as often as `p` occurs in the Parents of `j`: one child entry per parent edge |
| GraphProperties.ChildIffParent | SJF.py:119-121 | `j` is a child of `p` if and only if `p` is a parent of `j` |
| GraphProperties.ExpandWellFormed | SJF.py:90-122 | The built graph is closed (every edge joins two of its jobs) and every parent edge is mirrored by a child edge |
| GraphProperties.ExpandLayered | SJF.py:100-118 | If the step table is acyclic (ranked), every parent edge of the job graph goes to a lower-ranked step |
| GraphProperties.ExampleMergeWaitsForAll | SJF.py:90-122 | One per-sample step feeding one batch step over three samples gives three jobs and one job; the batch job lists each per-sample job once as a parent, and each lists it once as a child |
| QueueAdapter.LastIdOfWitness | SJF.py:203-207 | A non-empty id held for a job is the reply to an earlier accepted submission of that job |
| SchedulerTrace.SubmitThrottled | SJF.py:171-184 | Every submission comes right after a depth query that succeeded with fewer than 4000 queued jobs |
| SchedulerTrace.SubmitGuarded | SJF.py:198-208 | A submitted job is a job of the graph: no marker at build time, none found since, no queue id held, and every parent's marker seen |
| SchedulerTrace.IdKept | SJF.py:200-207 | Once a submission is accepted with a non-empty id, the job holds that id for the rest of the run |
| SchedulerTrace.NeverResubmitted | SJF.py:200-207 | A job that received a non-empty id is never submitted again |
| SchedulerTrace.PolledIdWasIssued | SJF.py:209-210 | A status probe asks about a non-empty id that the queue gave that very job |
| SchedulerTrace.KillCancelsOnlySubmitted | SJF.py:160-166 | `kill_job` cancels only non-empty ids held by frontier jobs, each right after finding that job's marker missing |
| SchedulerTrace.KillCoversFrontier | SJF.py:160-166 | `kill_job` checks the marker of every frontier job, and cancels each one whose marker is missing and whose id is not empty |
| SchedulerState.TrackingStart | SJF.py:190-193 | The freshly built graph and the empty log satisfy the invariant |
| SchedulerState.RefreshStep | SJF.py:198-199 | The marker refresh keeps the invariant; a found marker makes the job complete |
| SchedulerState.RecheckStep | SJF.py:211-213 | A confirmation right after an absent reply, or after a first confirmation that found nothing, keeps the invariant without touching the graph |
| Scheduler.Refresh | SJF.py:198-199 | The marker refresh keeps the run going: the invariant holds and the new event is not fatal |
| SchedulerState.StatusStep | SJF.py:210 | The status probe of a job holding an id keeps the invariant |
| SchedulerState.DepthsStep | SJF.py:171-180 | Any run of depth queries keeps the invariant |
| SchedulerState.SubmitStep | SJF.py:202-207 | A submission under the guards of the loop body is allowed by the trace rules, and storing the returned id keeps the invariant |
| Scheduler.ParentsStatus | SJF.py:149-157 | Complete if and only if no parent is incomplete, so vacuously for a job without parents |
| Scheduler.Submit | SJF.py:169-184 | Queries the depth and waits while it is 4000 or more. The log gains the waits, then a failed query, or the call budget running out, or a query below 4000 followed by the submission |
| Scheduler.Kill | SJF.py:159-167 | Over the frontier in some order: one `KillCheck` of each job's marker, followed by a cancellation of its id exactly when the marker is missing and the id is not empty. Nothing else is logged |
| Scheduler.Visit | SJF.py:197-220 | `VisitEnd`: after the refresh, a complete job is dropped, and an incomplete one goes on as `WaitEnd` says. Only the visited job changes, and a complete job stays complete. The job is dropped exactly when it is complete after the refresh. A halt is a failed depth query, a refused submission, a vanished job or the end of the call budget, each explained by the log; otherwise the run goes on with no fatal event |
| Scheduler.Wait | SJF.py:199-216 | `WaitEnd` for a job still incomplete after the refresh. Without an id, the job goes through `SubmitEnd` exactly when `parents_status` is complete, and is kept untouched otherwise. With an id, it is probed as `PollEnd` says |
| Scheduler.Ready | SJF.py:200-208 | The branch for a job without an id: `SubmitEnd` when every parent is a complete job, otherwise `Keep` with graph and log unchanged |
| Scheduler.ParentsKnown | SJF.py:149-157 | The parents of a job of the graph are jobs of the graph, and `parents_status` is complete exactly when all of them are complete |
| Scheduler.SubmitJob | SJF.py:200-208 | `SubmitEnd`: the log only grows, and its last event decides the end. An accepted submission of the job if and only if the job stays in the frontier with the returned id stored (possibly empty). A failed depth query if and only if the run halts with `DepthQueryFailed`. A refused submission if and only if it halts with `SubmitFailed`. Otherwise the call budget ran out. Only the job's id changes, and each halt is explained with no earlier fatal event. The events added are the throttle's waits, then a failed depth query, or nothing more (budget spent), or an allowed depth query followed by the submission of this job (`SubmitLog`) |
| Scheduler.SubmitEnds | SJF.py:169-184 | Each of the three ways `submit` ends gives the `SubmitEnd` of the matching verdict |
| Scheduler.Poll | SJF.py:209-216 | `PollEnd`: exactly one status probe of the held id. A reply other than absent keeps the job and logs nothing more. An absent reply goes on as `ConfirmEnd` says. A kept job leaves the run going with no fatal event |
| Scheduler.Confirm | SJF.py:211-216 | `ConfirmEnd`: a marker found by the first check keeps the job after that one check; otherwise a marker found by the second keeps it after both. No marker at either check if and only if the run halts with `JobFailed`, after exactly those two checks and then `kill_job`. Nothing is fatal before the second check |
| Scheduler.Abort | SJF.py:214-216 | The log only grows while `kill_job` runs over the frontier. The whole log is then explained: up to the two failed checks it obeys the trace rules with no earlier fatal event, and it ends in a failed tail (probe, two checks, kill blocks) |
| Scheduler.RoundNext | SJF.py:195-220 | One pass of the `for` loop visits a frontier job not yet visited and extends the chain of visits by that visit. A visit that does not halt keeps the round's bookkeeping; a halt ends the chain and is explained by the log |
| Scheduler.Round | SJF.py:195-223 | `RoundDone`: the round is a chain of visits, one per frontier job, each as `VisitEnd` says. A round without an abort visits the whole frontier, and the new frontier is the old one minus its complete jobs, plus all children of those; the run goes on with no fatal event. A stopped round visits the jobs up to the halting visit, and the halt is explained by the log. Jobs outside the frontier are unchanged, and statuses only go from incomplete to complete |
| Scheduler.FrontierStart | SJF.py:193 | The initial frontier holds exactly the roots, so every other job waits for a parent not yet done |
| Scheduler.FrontierStep | SJF.py:217-223 | A round keeps the bookkeeping: every job outside the frontier and not yet done waits for a parent not yet done |
| Scheduler.AllDone | SJF.py:194 | With an empty frontier and parent edges going down in rank, every job has been done |
| Scheduler.FinishedComplete | SJF.py:194-224 | A normal exit leaves every job of the graph complete whenever the step table is acyclic |
| Scheduler.RunStep | SJF.py:217-223 | A continuing round extends the chain of rounds, and its new frontier becomes the next round's |
| Scheduler.RunRounds | SJF.py:193-223 | The `while` loop from the roots is a chain of rounds (`RunOf`), each visiting its whole frontier, ending at the loop's exit or in one stopped round. A normal exit has an empty frontier with every done job complete and a log with no fatal event. Every other way the loop ends is explained by the first fatal event of the log, or by the end of the call budget. A complete job's marker existed at build time or was found by a refresh |
| Scheduler.WorkFlow | SJF.py:186-224 | A configuration error happens exactly when a read cell names an unknown step. Otherwise the run is a chain of rounds from the roots over the built graph, each visiting its frontier job by job; it obeys the trace rules; a job ends complete only if its marker existed at build time or a refresh found it and leaves every job complete if it finishes and the table is acyclic. A finished or unfinished log has no failed depth query, no refused submission and no confirmed vanish. Each abort is explained by its first fatal event and the events after it |

## Left out

- `make`, `create_job`, `__init__` and `main`: script generation, loading the tables with pandas,
  argument parsing and logging. The step table and the sample list are parameters of
  `WorkFlow`.
- The command strings of `job_num_in_sge`, `job_id_in_sge`, `job_status_in_sge` and `qdel`, and the
  regular expression that finds the id in `qsub`'s reply. Each call is an event whose answer
  comes from the `World`.
  - `DepthReply` models the `qstat` exit status and the count.
  - `SubmitReply` models the `qsub` exit status and the parsed id. `Accepted("")` is a successful
    `qsub` without a recognisable id.
  - `StatusReply` models the probe's exit status and output.
- A `qstat` output that is not a number raises `ValueError` at `int(job_num)` in the source. The
  model gets the count as a number and has no such error.
- `time.sleep`: all sleeps are no-ops, including the 600 s wait in the throttle, the 60 s wait
  before the second marker check and the 60 s wait between rounds without additions. The
  marker check after the delay is a second, separate call to the world.
- Logging.
- Termination: the source loops until the queue and the markers change. The model gives the loops a
  call budget `horizon` on the length of the log. Running out of it ends a run as
  `Unfinished`, which the source does not have.
- Iteration order: the frontier is a set, and each round visits its jobs in an arbitrary order,
  chosen nondeterministically.
  - In the source, the first round visits the roots in dictionary insertion order, because it
    iterates a `filter` over `job_graph.keys()`.
  - Every later round visits a Python list built from a set, in whatever order that gives.
  - The model covers both because it allows every order.
  - `kill_job` iterates that same list. The model lets it run over the frontier in its own
    arbitrary order.
- Script paths: a `JobKey(step, sample)` stands for `work_dir/<sample>/shell/<step>.sh`, and for
  `work_dir/shell/<step>.sh` when the sample is `None`. Path strings, `os.path.join` and
  directory names are not modelled.
- The `Type` column: only `single` versus everything else is distinguished, as in the source.
- The `Parents` cell is given already split at the commas.
- The markers present when the graph is built are a set `markers`. The scheduler reads
  markers only through the `World`.
- GraphProperties.ExpandInitialised: does not state that Parents and Children start empty, which
  `initialize_job` does. It states the entries after the builder has filled both lists, as
  `EdgeRule` and `Transpose` describe.
- Scheduler.WorkFlow: a run that exits normally is proved to leave every job complete only for
  an acyclic step table. With a cycle among the steps, a job on the cycle either never enters
  the frontier or waits in it forever.
  - Take steps `a` (`None`), `b` (`a,c`) and `c` (`b`). The job of `b` joins the frontier as
    a child of the root `a`. Without markers it is never submitted, because `c` never completes. The source
    then loops forever, and the model ends the run `Unfinished` once the call budget is
    spent.
  - A cycle that no root reaches never enters the frontier. The loop can then end normally
    with its jobs incomplete. The model allows this, as the source does.
- Scheduler.Round: the children of a dropped job join the frontier whether or not they are
  ready, and whether or not they are already complete. This is what the code does, even
  though only ready children can make progress in the next round.
- `Accepted("")` is stored as an empty id, as in the source. The job then counts as never
  submitted and is submitted again in a later round, so `SchedulerTrace.NeverResubmitted` is
  stated only for non-empty ids.
