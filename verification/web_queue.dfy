/** The webauto job queue (app/backend/webauto/service.py): the agent's
    scheduling with a worker created up front and the report lines of
    `parse_job`.

    `dequeue` is the agent's `pop` step for step, so the queue is modelled
    as an agent whose worker is always present, with `WebFormat.ParseJob`
    as the formatter and `DEFAULT_FORMAT` as the default.  The web driver
    the worker is created with is the environment `Env`.
 */
module WebQueue {
  import opened Wrappers
  import opened Assoc
  import opened PyJson
  import opened Browser
  import opened Slots
  import opened Script
  import opened WebModels
  import WebWorker
  import WebFormat
  import opened WebAgent

  datatype Queue = Queue(
    worker: WebWorker.Worker,
    jobs: seq<Entry>,
    stdout: seq<string>,
    catalog: Assoc<Key, Sequence>)

  /** The queue seen as an agent that already has its worker. */
  function AsAgent(q: Queue): (r: Agent)
    ensures r.worker == Some(q.worker) && r.queue == q.jobs && r.results == q.stdout && r.tasks == q.catalog
  {
    Agent(Some(q.worker), q.jobs, q.stdout, q.catalog)
  }

  /** `parse_job` as the formatter of report lines (service.py:109-110). */
  function JobFormat(rt: Runtime): Formatter {
    (fmt: string, tbl: Option<Lut>, results: Table) => WebFormat.ParseJob(rt, fmt, tbl, results)
  }

  /** `__init__` (service.py:27-33): the worker exists from the start. */
  function Init(defs: seq<Sequence>, prefix: seq<Command>, postfix: seq<Command>): (r: Queue)
    ensures r.worker == WebWorker.Fresh() && r.jobs == [] && r.stdout == []
    ensures r.catalog == Tasks(defs, prefix, postfix)
  {
    Queue(WebWorker.Fresh(), [], [], Tasks(defs, prefix, postfix))
  }

  /** `reset` (service.py:56-57): only the collected lines go; unlike the
      agent's `reset`, the worker and the waiting jobs stay. */
  function Reset(q: Queue): (r: Queue)
    ensures r.stdout == [] && r.worker == q.worker && r.jobs == q.jobs && r.catalog == q.catalog
  {
    q.(stdout := [])
  }

  /** `set_middleware` (service.py:59-76). */
  function SetMiddleware(q: Queue, defs: seq<Sequence>, prefix: seq<Command>, postfix: seq<Command>): (r: Queue)
    ensures r.worker == q.worker && r.jobs == q.jobs && r.stdout == q.stdout
    ensures r.catalog == Tasks(defs, prefix, postfix)
  {
    q.(catalog := Tasks(defs, prefix, postfix))
  }

  /** `enqueue` (service.py:79-95). */
  function Enqueue(q: Queue, env: string, name: string, fmt: string, tbl: Option<Lut>): (r: Queue)
    ensures |r.jobs| == |q.jobs| + 1 && r.jobs[..|q.jobs|] == q.jobs
    ensures r.jobs[|q.jobs|] == Entry(Key(name, env), fmt, tbl)
    ensures r.worker == q.worker && r.stdout == q.stdout && r.catalog == q.catalog
  {
    var a := WebAgent.Push(AsAgent(q), env, name, fmt, tbl);
    q.(jobs := a.queue)
  }

  /** `dequeue` (service.py:97-111): load the job's sequence only when the
      key changed, run it with the job's table, append its `parse_job` line. */
  function Dequeue(e: Env, cfg: Settings, q: Queue): (r: Result<Queue>)
    ensures q.jobs == [] ==> r == Failure(IndexError)
    ensures q.jobs != [] && Get(q.catalog, q.jobs[0].key).None? ==> r == Success(q.(jobs := q.jobs[1..]))
    ensures r.Success? ==> r.value.jobs == q.jobs[1..] && r.value.catalog == q.catalog
    ensures r.Success? && Get(q.catalog, q.jobs[0].key).Some? ==>
            WebFormat.ParseJob(e.rt, FormatOf(q.jobs[0], WebFormat.DEFAULT_FORMAT), q.jobs[0].tbl, r.value.worker.results).Success? &&
            r.value.stdout == q.stdout + [WebFormat.ParseJob(e.rt, FormatOf(q.jobs[0], WebFormat.DEFAULT_FORMAT), q.jobs[0].tbl, r.value.worker.results).value] &&
            r.value.worker.tbl == q.jobs[0].tbl &&
            r.value.worker.log == Prepare(q.worker, q.jobs[0], Get(q.catalog, q.jobs[0].key).value).log
  {
    var a :- WebAgent.Pop(e, cfg, JobFormat(e.rt), WebFormat.DEFAULT_FORMAT, AsAgent(q));
    Success(Queue(a.worker.value, a.queue, a.results, a.tasks))
  }

  /** `submit` (service.py:113-118): dequeue until no job is left. */
  function Submit(e: Env, cfg: Settings, q: Queue): (r: Result<Queue>)
    ensures r.Success? ==> r.value.jobs == [] && r.value.catalog == q.catalog && q.stdout <= r.value.stdout
    ensures r.Success? <==> Drain(e, cfg, JobFormat(e.rt), WebFormat.DEFAULT_FORMAT, AsAgent(q)).Success?
  {
    var a :- Drain(e, cfg, JobFormat(e.rt), WebFormat.DEFAULT_FORMAT, AsAgent(q));
    Success(Queue(a.worker.value, a.queue, a.results, a.tasks))
  }

  /** A submit appends one line per known job and loads a sequence exactly
      when the job's key differs from the one loaded before. */
  lemma SubmitResults(e: Env, cfg: Settings, q: Queue)
    requires WellKeyed(KeyOf, q.catalog)
    requires Submit(e, cfg, q).Success?
    ensures |Submit(e, cfg, q).value.stdout| == |q.stdout| + |Known(q.catalog, q.jobs)|
    ensures Submit(e, cfg, q).value.worker.log ==
            q.worker.log + Assigns(WebWorker.TaskKey(q.worker), q.catalog, q.jobs)
  {
    DrainResults(e, cfg, JobFormat(e.rt), WebFormat.DEFAULT_FORMAT, AsAgent(q));
  }

  /** Because `reset` keeps the worker, jobs for the sequence already loaded
      never load it again, across any number of submits. */
  lemma RepeatedJobsLoadNothing(e: Env, cfg: Settings, q: Queue, k: Key)
    requires WellKeyed(KeyOf, q.catalog) && Get(q.catalog, k).Some?
    requires WebWorker.TaskKey(q.worker) == Some(k)
    requires forall i :: 0 <= i < |q.jobs| ==> q.jobs[i].key == k
    ensures Submit(e, cfg, Reset(q)).Success? ==> Submit(e, cfg, Reset(q)).value.worker.log == q.worker.log
  {
    if Submit(e, cfg, Reset(q)).Success? {
      SubmitResults(e, cfg, Reset(q));
      SameKeyOneAssign(Some(k), q.catalog, q.jobs, k);
    }
  }

  /** `save` (service.py:120-131): the text written; the lines are kept. */
  function Save(q: Queue): string {
    Report(q.stdout)
  }
}
