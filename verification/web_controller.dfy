/** The webauto controller (app/backend/webauto/services.py): jobs named by
    sequence name alone, run by the sequence worker of models.py.

    Unlike the agent and the queue, the controller loads the job's sequence
    before every run, formats each line from the job's own `argv`, and
    empties its lines when it saves them.
 */
module WebController {
  import opened Wrappers
  import opened Assoc
  import opened PyJson
  import opened Browser
  import opened Script
  import opened WebModels
  import SeqWorker
  import WebFormat
  import opened WebAgent

  /** One queued job (services.py:80): the sequence name, the format (empty
      when missing) and the look-up table. */
  datatype Job = Job(name: string, fmt: string, argv: Option<Lut>)

  datatype Controller = Controller(
    worker: SeqWorker.Worker,
    jobs: seq<Job>,
    stdout: seq<string>,
    catalog: Assoc<string, Sequence>)

  function NameOf(s: Sequence): string {
    s.name
  }

  /** The controller's catalogue (services.py:59-65): the wrapped sequences
      filed by name. */
  function Sequences(defs: seq<Sequence>, prefix: seq<Command>, postfix: seq<Command>): (r: Assoc<string, Sequence>)
    ensures WellKeyed(NameOf, r) && Distinct(r)
    ensures forall n :: Get(r, n).Some? <==> exists i :: 0 <= i < |defs| && defs[i].name == n
  {
    var ss := Wrapped(defs, prefix, postfix);
    var r := Catalog(NameOf, ss);
    CatalogGet(NameOf, ss, "");
    forall n ensures Get(r, n).Some? <==> exists i :: 0 <= i < |defs| && defs[i].name == n {
      CatalogGet(NameOf, ss, n);
      if Get(r, n).Some? {
        var i := LastWithKey(NameOf, ss, n).value;
        assert KeyOf(ss[i]) == KeyOf(defs[i]);
      }
      if exists i :: 0 <= i < |defs| && defs[i].name == n {
        var i :| 0 <= i < |defs| && defs[i].name == n;
        assert KeyOf(ss[i]) == KeyOf(defs[i]);
        assert NameOf(ss[i]) == n;
      }
    }
    r
  }

  /** Two sequences with one name but different environments collide: the
      later definition hides the earlier one. */
  lemma LaterEnvironmentWins(a: Sequence, b: Sequence, prefix: seq<Command>, postfix: seq<Command>)
    requires a.name == b.name
    ensures Get(Sequences([a, b], prefix, postfix), a.name) == Some(Wrap(b, prefix, postfix))
  {
    var ss := Wrapped([a, b], prefix, postfix);
    CatalogGet(NameOf, ss, a.name);
    assert KeyOf(ss[1]) == KeyOf(b);
    assert LastWithKey(NameOf, ss, a.name) == Some(1);
  }

  /** `__init__` (services.py:21-27): the worker exists from the start. */
  function Init(defs: seq<Sequence>, prefix: seq<Command>, postfix: seq<Command>): (r: Controller)
    ensures r.worker == SeqWorker.Fresh() && r.jobs == [] && r.stdout == []
    ensures r.catalog == Sequences(defs, prefix, postfix)
  {
    Controller(SeqWorker.Fresh(), [], [], Sequences(defs, prefix, postfix))
  }

  /** `set_middleware` (services.py:48-65). */
  function SetMiddleware(c: Controller, defs: seq<Sequence>, prefix: seq<Command>, postfix: seq<Command>): (r: Controller)
    ensures r.worker == c.worker && r.jobs == c.jobs && r.stdout == c.stdout
    ensures r.catalog == Sequences(defs, prefix, postfix)
  {
    c.(catalog := Sequences(defs, prefix, postfix))
  }

  /** `enqueue` (services.py:67-80). */
  function Enqueue(c: Controller, name: string, fmt: string, argv: Option<Lut>): (r: Controller)
    ensures |r.jobs| == |c.jobs| + 1 && r.jobs[..|c.jobs|] == c.jobs
    ensures r.jobs[|c.jobs|] == Job(name, fmt, argv)
    ensures r.worker == c.worker && r.stdout == c.stdout && r.catalog == c.catalog
  {
    c.(jobs := c.jobs + [Job(name, fmt, argv)])
  }

  /** The format a job is reported with (services.py:92-93). */
  function JobFormatOf(j: Job): (r: string)
    ensures j.fmt != "" ==> r == j.fmt
    ensures j.fmt == "" ==> r == WebFormat.DEFAULT_FORMAT
  {
    if j.fmt != "" then j.fmt else WebFormat.DEFAULT_FORMAT
  }

  /** `dequeue` (services.py:82-94): take the oldest job; an unknown name is
      dropped, a known one is loaded, run and its line appended. */
  function Dequeue(cfg: Settings, e: Env, pats: SeqWorker.Patterns, c: Controller): (r: Result<Controller>)
    ensures c.jobs == [] ==> r == Failure(IndexError)
    ensures c.jobs != [] && Get(c.catalog, c.jobs[0].name).None? ==> r == Success(c.(jobs := c.jobs[1..]))
    ensures r.Success? ==> r.value.jobs == c.jobs[1..] && r.value.catalog == c.catalog
    ensures r.Success? && Get(c.catalog, c.jobs[0].name).Some? ==>
            r.value.worker.sequence == Get(c.catalog, c.jobs[0].name) &&
            WebFormat.ParseJob(e.rt, JobFormatOf(c.jobs[0]), c.jobs[0].argv, r.value.worker.stdout).Success? &&
            r.value.stdout == c.stdout + [WebFormat.ParseJob(e.rt, JobFormatOf(c.jobs[0]), c.jobs[0].argv, r.value.worker.stdout).value]
    ensures r.Success? && Get(c.catalog, c.jobs[0].name).Some? ==>
            SeqWorker.Exec(cfg, e, pats, SeqWorker.Load(c.worker, Get(c.catalog, c.jobs[0].name).value)) == Success(r.value.worker)
  {
    if c.jobs == [] then Failure(IndexError)
    else
      var j := c.jobs[0];
      var rest := c.(jobs := c.jobs[1..]);
      match Get(c.catalog, j.name)
      case None => Success(rest)
      case Some(s) =>
        var w :- SeqWorker.Exec(cfg, e, pats, SeqWorker.Load(c.worker, s));
        var line :- WebFormat.ParseJob(e.rt, JobFormatOf(j), j.argv, w.stdout);
        Success(rest.(worker := w, stdout := c.stdout + [line]))
  }

  /** Reference for the sequence the worker holds after a batch of jobs:
      the last known job's sequence, or the one held before if none. */
  function Loaded(current: Option<Sequence>, catalog: Assoc<string, Sequence>, jobs: seq<Job>): (r: Option<Sequence>)
    decreases |jobs|
  {
    if jobs == [] then current
    else
      var next := if Get(catalog, jobs[0].name).Some? then Get(catalog, jobs[0].name) else current;
      Loaded(next, catalog, jobs[1..])
  }

  /** The jobs whose names the catalogue knows. */
  function KnownJobs(catalog: Assoc<string, Sequence>, jobs: seq<Job>): (r: seq<Job>)
    ensures |r| <= |jobs|
    ensures forall i :: 0 <= i < |r| ==> r[i] in jobs && Get(catalog, r[i].name).Some?
    decreases |jobs|
  {
    if jobs == [] then []
    else (if Get(catalog, jobs[0].name).Some? then [jobs[0]] else []) + KnownJobs(catalog, jobs[1..])
  }

  /** `submit` (services.py:96-101): dequeue until no job is left. */
  function Submit(cfg: Settings, e: Env, pats: SeqWorker.Patterns, c: Controller): (r: Result<Controller>)
    ensures r.Success? ==> r.value.jobs == [] && r.value.catalog == c.catalog && c.stdout <= r.value.stdout
    decreases |c.jobs|
  {
    if c.jobs == [] then Success(c)
    else
      var c1 :- Dequeue(cfg, e, pats, c);
      Submit(cfg, e, pats, c1)
  }

  /** A submit appends one line per known job and leaves the worker holding
      the last known job's sequence. */
  lemma {:induction false} SubmitResults(cfg: Settings, e: Env, pats: SeqWorker.Patterns, c: Controller)
    requires Submit(cfg, e, pats, c).Success?
    ensures |Submit(cfg, e, pats, c).value.stdout| == |c.stdout| + |KnownJobs(c.catalog, c.jobs)|
    ensures Submit(cfg, e, pats, c).value.worker.sequence == Loaded(c.worker.sequence, c.catalog, c.jobs)
    decreases |c.jobs|
  {
    if c.jobs != [] {
      var c1 := Dequeue(cfg, e, pats, c).value;
      assert Submit(cfg, e, pats, c) == Submit(cfg, e, pats, c1);
      SubmitResults(cfg, e, pats, c1);
      if Get(c.catalog, c.jobs[0].name).Some? {
        assert KnownJobs(c.catalog, c.jobs) == [c.jobs[0]] + KnownJobs(c.catalog, c.jobs[1..]);
      } else {
        assert KnownJobs(c.catalog, c.jobs) == KnownJobs(c.catalog, c.jobs[1..]);
      }
    }
  }

  /** `save` (services.py:103-115): the text written, and the controller
      with its lines emptied. */
  function Save(c: Controller): (r: (Controller, string))
    ensures r.0.stdout == [] && r.0.worker == c.worker && r.0.jobs == c.jobs && r.0.catalog == c.catalog
    ensures r.1 == Report(c.stdout)
  {
    (c.(stdout := []), Report(c.stdout))
  }

  /** After a save, the next submit's text holds exactly that submit's
      lines: one per known job. */
  lemma SaveStartsOver(cfg: Settings, e: Env, pats: SeqWorker.Patterns, c: Controller)
    requires Submit(cfg, e, pats, Save(c).0).Success?
    ensures |Submit(cfg, e, pats, Save(c).0).value.stdout| == |KnownJobs(c.catalog, c.jobs)|
  {
    SubmitResults(cfg, e, pats, Save(c).0);
  }
}
