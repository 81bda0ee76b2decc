/** An ina job (project/server/tasks/ina/job.py): a FIFO queue of task
    requests, drained by one driver, each answered by one formatted line.

    The task table and the response formatter come from modules that are
    not part of this model, so they are parameters; writing the lines to
    a file is I/O and is left out.
 */
module InaJob {
  import opened Wrappers
  import opened Assoc
  import opened PyJson
  import opened Browser
  import opened Slots
  import Script
  import opened InaModels
  import opened InaDriver

  /** One queued request: the task key, an optional format, an optional
      look-up table. */
  datatype Entry = Entry(key: Key, fmt: Option<string>, lut: Option<Lut>)

  /** The job's queue, its result lines, and its driver (created on first use). */
  datatype Job = Job(queue: seq<Entry>, results: seq<string>, driver: Option<Driver>)

  /** `TASK_DICT` and `parse_task_response(fmt, lut, response)`, with the
      default format used when a request has none. */
  datatype Tasks = Tasks(
    table: Assoc<Key, Task>,
    format: (string, Option<Lut>, Table) -> string,
    defaultFormat: string)

  function NewJob(): Job {
    Job([], [], None)
  }

  /** `push` (job.py:58-71). */
  function Push(j: Job, key: Key, fmt: Option<string>, lut: Option<Lut>): (r: Job)
    ensures r.queue == j.queue + [Entry(key, fmt, lut)]
    ensures r.results == j.results && r.driver == j.driver
  {
    j.(queue := j.queue + [Entry(key, fmt, lut)])
  }

  /** `push_` (job.py:73-89): `push` with the key built from its parts. */
  function PushNamed(j: Job, env: string, name: string, fmt: Option<string>, lut: Option<Lut>): (r: Job)
    ensures r == Push(j, Key(env, name), fmt, lut)
  {
    j.(queue := j.queue + [Entry(Key(env, name), fmt, lut)])
  }

  /** `reset` (job.py:40-46): empties the queue and the result lines. */
  function ResetJob(j: Job): (r: Job)
    ensures r.queue == [] && r.results == [] && r.driver == j.driver
  {
    j.(queue := [], results := [])
  }

  /** The format a request is answered with: its own when truthy. */
  function FormatOf(ts: Tasks, fmt: Option<string>): (r: string)
    ensures fmt.Some? && fmt.value != "" ==> r == fmt.value
    ensures fmt.None? || fmt.value == "" ==> r == ts.defaultFormat
  {
    if fmt.Some? && fmt.value != "" then fmt.value else ts.defaultFormat
  }

  /** The driver ready for a task: assigned when it holds another task,
      only reset when it already holds this one (job.py:99-100). */
  function Prepare(d: Driver, t: Task, key: Key): (r: Driver)
    ensures r.results == [] && r.trace == d.trace
    ensures TaskKey(d) != Some(key) ==> r == Assign(d, t)
    ensures TaskKey(d) == Some(key) ==> r == Reset(d)
  {
    if TaskKey(d) != Some(key) then Assign(d, t) else Reset(d)
  }

  /** `pop` (job.py:91-106): the oldest request is run if its task exists,
      and answered with one formatted line; an unknown task is dropped. */
  function Pop(e: Env, cfg: Settings, ts: Tasks, d: Driver, j: Job): (r: Result<(Driver, Job)>)
    ensures j.queue == [] ==> r == Failure(IndexError)
    ensures j.queue != [] && Get(ts.table, j.queue[0].key).None? ==> r == Success((d, j.(queue := j.queue[1..])))
    ensures r.Success? ==> r.value.1.queue == j.queue[1..] && r.value.1.driver == j.driver
    ensures r.Success? && Get(ts.table, j.queue[0].key).Some? ==>
            |r.value.1.results| == |j.results| + 1 && r.value.1.results[..|j.results|] == j.results
    ensures r.Success? && Get(ts.table, j.queue[0].key).Some? ==>
            TaskKey(r.value.0) == (if TaskKey(d) == Some(j.queue[0].key) then TaskKey(d)
                                   else Some(Get(ts.table, j.queue[0].key).value.key)) &&
            |r.value.0.log| == |d.log| + if TaskKey(d) != Some(j.queue[0].key) then 1 else 0
    ensures r.Success? && Get(ts.table, j.queue[0].key).Some? ==>
            r.value.1.results == j.results + [ts.format(FormatOf(ts, j.queue[0].fmt), j.queue[0].lut, r.value.0.results)]
    ensures j.queue != [] && Get(ts.table, j.queue[0].key).Some? ==>
            (r.Success? <==> InaDriver.Exec(e, cfg, Prepare(d, Get(ts.table, j.queue[0].key).value, j.queue[0].key), j.queue[0].lut).Success?)
  {
    var (rest, entry) :- Script.PopLeft(j.queue);
    var task := Get(ts.table, entry.key);
    if task.None? then Success((d, j.(queue := rest)))
    else
      var ready := Prepare(d, task.value, entry.key);
      var ran :- InaDriver.Exec(e, cfg, ready, entry.lut);
      var line := ts.format(FormatOf(ts, entry.fmt), entry.lut, ran.results);
      Success((ran, j.(queue := rest, results := j.results + [line])))
  }

  /** The keys of the requests whose task exists, in queue order. */
  function KnownKeys(ts: Tasks, q: seq<Entry>): (r: seq<Key>)
    ensures |r| <= |q|
  {
    if q == [] then []
    else (if Get(ts.table, q[0].key).Some? then [q[0].key] else []) + KnownKeys(ts, q[1..])
  }

  /** The requests whose task exists, in queue order. */
  function KnownEntries(ts: Tasks, q: seq<Entry>): (r: seq<Entry>)
    ensures |r| == |KnownKeys(ts, q)|
    ensures forall i :: 0 <= i < |r| ==> r[i].key == KnownKeys(ts, q)[i] && r[i] in q
  {
    if q == [] then []
    else (if Get(ts.table, q[0].key).Some? then [q[0]] else []) + KnownEntries(ts, q[1..])
  }

  /** `line` answers request `x`: it is the response of some run, formatted
      with the request's format (or the default) and table. */
  ghost predicate AnswersTo(ts: Tasks, x: Entry, line: string) {
    exists res: Table :: ts.format(FormatOf(ts, x.fmt), x.lut, res) == line
  }

  /** From position `n` on, the lines answer the requests `xs` in order. */
  ghost predicate AnswersAll(ts: Tasks, xs: seq<Entry>, lines: seq<string>, n: nat) {
    n + |xs| <= |lines| && forall i :: 0 <= i < |xs| ==> AnswersTo(ts, xs[i], lines[n + i])
  }

  /** How many times a run of keys differs from the key before it: the
      number of task swaps a driver starting at `current` needs. */
  function Swaps(current: Option<Key>, keys: seq<Key>): (r: nat)
    ensures r <= |keys|
    decreases |keys|
  {
    if keys == [] then 0
    else (if current != Some(keys[0]) then 1 else 0) + Swaps(Some(keys[0]), keys[1..])
  }

  /** Draining the queue: the `while len(self.queue) > 0: self.pop()` loop
      of `exec`. */
  function Drain(e: Env, cfg: Settings, ts: Tasks, d: Driver, j: Job): (r: Result<(Driver, Job)>)
    ensures r.Success? ==> r.value.1.queue == [] && r.value.1.driver == j.driver
    ensures r.Success? ==> |r.value.1.results| == |j.results| + |KnownKeys(ts, j.queue)|
    ensures r.Success? ==> r.value.1.results[..|j.results|] == j.results
    ensures r.Success? && KnownKeys(ts, j.queue) == [] ==> r.value.0 == d
    decreases |j.queue|
  {
    if j.queue == [] then Success((d, j))
    else
      var (d1, j1) :- Pop(e, cfg, ts, d, j);
      assert j1.queue == j.queue[1..];
      var r := Drain(e, cfg, ts, d1, j1);
      if r.Success? then
        assert r.value.1.results[..|j.results|] == j1.results[..|j.results|];
        r
      else r
  }

  /** One turn of the draining loop. */
  lemma DrainStep(e: Env, cfg: Settings, ts: Tasks, d: Driver, j: Job)
    requires j.queue != [] && Drain(e, cfg, ts, d, j).Success?
    ensures Pop(e, cfg, ts, d, j).Success?
    ensures Drain(e, cfg, ts, d, j) == Drain(e, cfg, ts, Pop(e, cfg, ts, d, j).value.0, Pop(e, cfg, ts, d, j).value.1)
    ensures Pop(e, cfg, ts, d, j).value.1.queue == j.queue[1..]
  {
  }

  /** A pop of a known request appends a line answering it. */
  lemma PopAnswers(e: Env, cfg: Settings, ts: Tasks, d: Driver, j: Job)
    requires j.queue != [] && Get(ts.table, j.queue[0].key).Some?
    requires Pop(e, cfg, ts, d, j).Success?
    ensures var lines := Pop(e, cfg, ts, d, j).value.1.results;
            |lines| == |j.results| + 1 && AnswersTo(ts, j.queue[0], lines[|j.results|])
  {
    var (d1, j1) := Pop(e, cfg, ts, d, j).value;
    var x := j.queue[0];
    assert ts.format(FormatOf(ts, x.fmt), x.lut, d1.results) == j1.results[|j.results|];
  }

  /** Draining answers the known requests in queue order, one line each,
      after the lines already there. */
  lemma {:induction false} DrainLines(e: Env, cfg: Settings, ts: Tasks, d: Driver, j: Job)
    requires Drain(e, cfg, ts, d, j).Success?
    ensures |Drain(e, cfg, ts, d, j).value.1.results| == |j.results| + |KnownEntries(ts, j.queue)|
    ensures AnswersAll(ts, KnownEntries(ts, j.queue), Drain(e, cfg, ts, d, j).value.1.results, |j.results|)
    decreases |j.queue|
  {
    if j.queue != [] {
      DrainStep(e, cfg, ts, d, j);
      var (d1, j1) := Pop(e, cfg, ts, d, j).value;
      var lines := Drain(e, cfg, ts, d1, j1).value.1.results;
      DrainLines(e, cfg, ts, d1, j1);
      assert j1.queue == j.queue[1..];
      var x := j.queue[0];
      var rest := KnownEntries(ts, j1.queue);
      if Get(ts.table, x.key).Some? {
        PopAnswers(e, cfg, ts, d, j);
        var n := |j.results|;
        assert |j1.results| == n + 1 && AnswersTo(ts, x, j1.results[n]);
        assert lines[..n + 1] == j1.results;
        assert AnswersTo(ts, x, lines[n]) by {
          assert lines[n] == lines[..n + 1][n];
        }
        assert KnownEntries(ts, j.queue) == [x] + rest;
        ShiftAnswers(ts, x, rest, lines, n);
      } else {
        assert KnownEntries(ts, j.queue) == rest;
      }
    }
  }

  lemma ShiftAnswers(ts: Tasks, x: Entry, rest: seq<Entry>, lines: seq<string>, n: nat)
    requires n + 1 + |rest| <= |lines| && AnswersTo(ts, x, lines[n])
    requires AnswersAll(ts, rest, lines, n + 1)
    ensures AnswersAll(ts, [x] + rest, lines, n)
  {
    forall i | 0 <= i < |[x] + rest|
      ensures AnswersTo(ts, ([x] + rest)[i], lines[n + i])
    {
      if i > 0 {
        assert ([x] + rest)[i] == rest[i - 1];
      }
    }
  }

  /** The job's driver, a fresh one if it has none yet. */
  function DriverOf(j: Job): Driver {
    if j.driver.Some? then j.driver.value else Fresh()
  }

  /** Every task in the table is filed under its own key, as the task
      dictionary is built. */
  predicate Keyed(ts: Tasks) {
    forall i :: 0 <= i < |ts.table| ==> ts.table[i].1.key == ts.table[i].0
  }

  /** The driver swaps tasks only when the next runnable request is for a
      different task than the one it holds: the number of assignments is
      the number of key changes along the runnable requests, and the driver
      ends holding the last of them. */
  lemma {:induction false} DrainSwaps(e: Env, cfg: Settings, ts: Tasks, d: Driver, j: Job)
    requires Keyed(ts)
    requires Drain(e, cfg, ts, d, j).Success?
    ensures |Drain(e, cfg, ts, d, j).value.0.log| == |d.log| + Swaps(TaskKey(d), KnownKeys(ts, j.queue))
    ensures KnownKeys(ts, j.queue) != [] ==>
            TaskKey(Drain(e, cfg, ts, d, j).value.0) == Some(KnownKeys(ts, j.queue)[|KnownKeys(ts, j.queue)| - 1])
    ensures KnownKeys(ts, j.queue) == [] ==> Drain(e, cfg, ts, d, j).value.0 == d
    decreases |j.queue|
  {
    if j.queue != [] {
      var (d1, j1) := Pop(e, cfg, ts, d, j).value;
      DrainSwaps(e, cfg, ts, d1, j1);
      var k := j.queue[0].key;
      var rest := KnownKeys(ts, j1.queue);
      if Get(ts.table, k).Some? {
        assert Get(ts.table, k).value.key == k;
        assert KnownKeys(ts, j.queue) == [k] + rest;
        assert ([k] + rest)[1..] == rest;
      } else {
        assert KnownKeys(ts, j.queue) == rest;
      }
    }
  }

  /** `exec` (job.py:49-56): create the driver if there is none and drain
      the queue.  The returned job holds the driver. */
  function Exec(e: Env, cfg: Settings, ts: Tasks, j: Job): (r: Result<Job>)
    ensures r.Success? ==> r.value.queue == [] && r.value.driver.Some?
    ensures r.Success? ==> |r.value.results| == |j.results| + |KnownKeys(ts, j.queue)|
    ensures r.Success? <==> Drain(e, cfg, ts, DriverOf(j), j).Success?
    ensures r.Success? ==> r.value.driver.value == Drain(e, cfg, ts, DriverOf(j), j).value.0
  {
    var (d1, j1) :- Drain(e, cfg, ts, DriverOf(j), j);
    Success(j1.(driver := Some(d1)))
  }

  /** Requests for the same task back to back are served by one
      assignment: a fresh driver swaps once for a queue of one key. */
  lemma {:induction false} SameKeyAssignsOnce(current: Option<Key>, k: Key, n: nat)
    ensures Swaps(current, seq(n, _ => k)) == if n == 0 || current == Some(k) then 0 else 1
    decreases n
  {
    if n > 0 {
      var keys := seq(n, _ => k);
      assert keys[1..] == seq(n - 1, _ => k);
      SameKeyAssignsOnce(Some(k), k, n - 1);
    }
  }
}
