/** The webauto agent (app/backend/webauto/agent.py): a catalogue of
    sequences filed by key, a queue of requests, and one worker that runs
    them in order.

    The agent reassigns its worker only when a request names a different
    sequence than the one the worker holds; otherwise it merely resets the
    worker.  The formatter that turns a run into a report line
    (`utils.parse_task`) and its default format are not part of this model,
    so both are parameters.
 */
module WebAgent {
  import opened Wrappers
  import opened Text
  import opened Assoc
  import opened PyJson
  import opened Browser
  import opened Slots
  import opened Script
  import opened WebModels
  import WebWorker

  /** One queued request (agent.py:100-101).  An empty `fmt` stands for a
      missing or empty format: both select the default. */
  datatype Entry = Entry(key: Key, fmt: string, tbl: Option<Lut>)

  datatype Agent = Agent(
    worker: Option<WebWorker.Worker>,
    queue: seq<Entry>,
    results: seq<string>,
    tasks: Assoc<Key, Sequence>)

  /** `parse_task(fmt, tbl, response)`: not part of this model; it may
      raise, so it yields a `Result`. */
  type Formatter = (string, Option<Lut>, Table) -> Result<string>

  /** Every sequence is filed under its own key, for a choice of key:
      the agent and the queue file by `KeyOf`, the controller by name. */
  ghost predicate WellKeyed<K>(key: Sequence -> K, t: Assoc<K, Sequence>) {
    forall i :: 0 <= i < |t| ==> key(t[i].1) == t[i].0
  }

  /** The sequences with the middleware added (agent.py:70-72). */
  function Wrapped(defs: seq<Sequence>, prefix: seq<Command>, postfix: seq<Command>): (r: seq<Sequence>)
    ensures |r| == |defs|
    ensures forall i :: 0 <= i < |defs| ==> r[i] == Wrap(defs[i], prefix, postfix)
    decreases |defs|
  {
    if defs == [] then [] else [Wrap(defs[0], prefix, postfix)] + Wrapped(defs[1..], prefix, postfix)
  }

  /** The filing loop of `set_middleware` (agent.py:73, service.py:76,
      services.py:65): every sequence goes under its key; a later sequence
      replaces an earlier one with the same key. */
  function Catalog<K(==)>(key: Sequence -> K, ss: seq<Sequence>): (r: Assoc<K, Sequence>)
    decreases |ss|
  {
    if ss == [] then []
    else Put(Catalog(key, ss[..|ss| - 1]), key(ss[|ss| - 1]), ss[|ss| - 1])
  }

  /** Index of the last sequence with the given key, if any. */
  function LastWithKey<K(==)>(key: Sequence -> K, ss: seq<Sequence>, k: K): (r: Option<nat>)
    ensures r.Some? ==> r.value < |ss| && key(ss[r.value]) == k &&
                        forall j :: r.value < j < |ss| ==> key(ss[j]) != k
    ensures r.None? ==> forall j :: 0 <= j < |ss| ==> key(ss[j]) != k
    decreases |ss|
  {
    if ss == [] then None
    else if key(ss[|ss| - 1]) == k then Some(|ss| - 1)
    else LastWithKey(key, ss[..|ss| - 1], k)
  }

  /** Putting a sequence under its own key keeps the catalogue well keyed. */
  lemma {:induction false} PutOwnKey<K>(key: Sequence -> K, t: Assoc<K, Sequence>, s: Sequence)
    requires WellKeyed(key, t)
    ensures WellKeyed(key, Put(t, key(s), s))
  {
    if t != [] && t[0].0 != key(s) {
      PutOwnKey(key, t[1..], s);
      assert Put(t, key(s), s) == [t[0]] + Put(t[1..], key(s), s);
    }
  }

  /** A key finds the last sequence carrying it; the catalogue holds each
      key once, each sequence under its own key. */
  lemma {:induction false} CatalogGet<K>(key: Sequence -> K, ss: seq<Sequence>, k: K)
    ensures Get(Catalog(key, ss), k) ==
            match LastWithKey(key, ss, k) case None => None case Some(i) => Some(ss[i])
    ensures Distinct(Catalog(key, ss))
    ensures WellKeyed(key, Catalog(key, ss))
    decreases |ss|
  {
    if ss != [] {
      var init := ss[..|ss| - 1];
      var last := ss[|ss| - 1];
      CatalogGet(key, init, k);
      PutGet(Catalog(key, init), key(last), last, k);
      PutDistinct(Catalog(key, init), key(last), last);
      PutOwnKey(key, Catalog(key, init), last);
      if key(last) != k {
        assert LastWithKey(key, ss, k) == LastWithKey(key, init, k);
        match LastWithKey(key, init, k)
        case None =>
        case Some(i) => assert ss[i] == init[i];
      }
    }
  }

  /** A well-keyed catalogue returns a sequence only for its own key. */
  lemma WellKeyedGet<K>(key: Sequence -> K, t: Assoc<K, Sequence>, k: K)
    requires WellKeyed(key, t)
    ensures Get(t, k).Some? ==> key(Get(t, k).value) == k
  {
    if Get(t, k).Some? {
      var i :| 0 <= i < |t| && t[i] == (k, Get(t, k).value);
    }
  }

  /** The agent's catalogue: the wrapped sequences filed by key. */
  function Tasks(defs: seq<Sequence>, prefix: seq<Command>, postfix: seq<Command>): (r: Assoc<Key, Sequence>)
    ensures WellKeyed(KeyOf, r) && Distinct(r)
    ensures forall k :: Get(r, k).Some? <==> exists i :: 0 <= i < |defs| && KeyOf(defs[i]) == k
  {
    var ss := Wrapped(defs, prefix, postfix);
    var r := Catalog(KeyOf, ss);
    CatalogGet(KeyOf, ss, Key("", ""));
    forall k ensures Get(r, k).Some? <==> exists i :: 0 <= i < |defs| && KeyOf(defs[i]) == k {
      CatalogGet(KeyOf, ss, k);
      if Get(r, k).Some? {
        var i := LastWithKey(KeyOf, ss, k).value;
        assert KeyOf(defs[i]) == k;
      }
      if exists i :: 0 <= i < |defs| && KeyOf(defs[i]) == k {
        var i :| 0 <= i < |defs| && KeyOf(defs[i]) == k;
        assert KeyOf(ss[i]) == k;
      }
    }
    r
  }

  /** `__init__` (agent.py:19-26): no worker yet, an empty queue. */
  function Init(defs: seq<Sequence>, prefix: seq<Command>, postfix: seq<Command>): (r: Agent)
    ensures r.worker.None? && r.queue == [] && r.results == []
    ensures r.tasks == Tasks(defs, prefix, postfix)
  {
    Agent(None, [], [], Tasks(defs, prefix, postfix))
  }

  /** `set_middleware` (agent.py:58-73): a new catalogue; nothing else changes. */
  function SetMiddleware(a: Agent, defs: seq<Sequence>, prefix: seq<Command>, postfix: seq<Command>): (r: Agent)
    ensures r.worker == a.worker && r.queue == a.queue && r.results == a.results
    ensures r.tasks == Tasks(defs, prefix, postfix)
  {
    a.(tasks := Tasks(defs, prefix, postfix))
  }

  /** `reset` (agent.py:49-56): drop the worker, the queue and the results;
      the catalogue stays. */
  function Reset(a: Agent): (r: Agent)
    ensures r.worker.None? && r.queue == [] && r.results == [] && r.tasks == a.tasks
  {
    a.(worker := None, queue := [], results := [])
  }

  /** `push` (agent.py:85-101): the request joins the back of the queue. */
  function Push(a: Agent, env: string, name: string, fmt: string, tbl: Option<Lut>): (r: Agent)
    ensures |r.queue| == |a.queue| + 1 && r.queue[..|a.queue|] == a.queue
    ensures r.queue[|a.queue|] == Entry(Key(name, env), fmt, tbl)
    ensures r.worker == a.worker && r.results == a.results && r.tasks == a.tasks
  {
    a.(queue := a.queue + [Entry(Key(name, env), fmt, tbl)])
  }

  /** The format a request is reported with (agent.py:115-116). */
  function FormatOf(x: Entry, dflt: string): (r: string)
    ensures x.fmt != "" ==> r == x.fmt
    ensures x.fmt == "" ==> r == dflt
  {
    if x.fmt != "" then x.fmt else dflt
  }

  /** The worker ready to run a known request: reassigned only when it holds
      a different sequence (agent.py:111-112). */
  function Prepare(w: WebWorker.Worker, x: Entry, task: Sequence): (r: WebWorker.Worker)
    ensures Some(x.key) != WebWorker.TaskKey(w) ==> r == WebWorker.Assign(w, task)
    ensures Some(x.key) == WebWorker.TaskKey(w) ==> r == WebWorker.Reset(w)
  {
    if Some(x.key) != WebWorker.TaskKey(w) then WebWorker.Assign(w, task) else WebWorker.Reset(w)
  }

  /** `pop` (agent.py:103-117): take the oldest request; an unknown key is
      dropped silently, a known one is run and its report line appended. */
  function Pop(e: Env, cfg: Settings, format: Formatter, dflt: string, a: Agent): (r: Result<Agent>)
    ensures a.queue == [] ==> r == Failure(IndexError)
    ensures a.queue != [] && Get(a.tasks, a.queue[0].key).None? ==> r == Success(a.(queue := a.queue[1..]))
    ensures a.queue != [] && Get(a.tasks, a.queue[0].key).Some? && a.worker.None? ==> r == Failure(AttributeError)
    ensures r.Success? ==> r.value.queue == a.queue[1..] && r.value.tasks == a.tasks
    ensures r.Success? && a.worker.Some? ==> r.value.worker.Some?
    ensures r.Success? && Get(a.tasks, a.queue[0].key).Some? ==>
            a.worker.Some? && r.value.worker.Some? &&
            format(FormatOf(a.queue[0], dflt), a.queue[0].tbl, r.value.worker.value.results).Success? &&
            r.value.results == a.results + [format(FormatOf(a.queue[0], dflt), a.queue[0].tbl, r.value.worker.value.results).value] &&
            r.value.worker.value.tbl == a.queue[0].tbl &&
            r.value.worker.value.log == Prepare(a.worker.value, a.queue[0], Get(a.tasks, a.queue[0].key).value).log &&
            WebWorker.TaskKey(r.value.worker.value) == WebWorker.TaskKey(Prepare(a.worker.value, a.queue[0], Get(a.tasks, a.queue[0].key).value))
  {
    if a.queue == [] then Failure(IndexError)
    else
      var x := a.queue[0];
      var rest := a.(queue := a.queue[1..]);
      match Get(a.tasks, x.key)
      case None => Success(rest)
      case Some(task) =>
        var w :- Need(a.worker, AttributeError);
        var w1 :- WebWorker.Exec(e, cfg, Prepare(w, x, task), x.tbl);
        var line :- format(FormatOf(x, dflt), x.tbl, w1.results);
        Success(rest.(worker := Some(w1), results := a.results + [line]))
  }

  /** The requests of the queue whose keys the catalogue knows. */
  function Known(tasks: Assoc<Key, Sequence>, q: seq<Entry>): (r: seq<Entry>)
    ensures |r| <= |q|
    ensures forall i :: 0 <= i < |r| ==> r[i] in q && Get(tasks, r[i].key).Some?
    decreases |q|
  {
    if q == [] then []
    else (if Get(tasks, q[0].key).Some? then [q[0]] else []) + Known(tasks, q[1..])
  }

  /** Reference for the assignment log: walking the known requests in order,
      a key is logged each time it differs from the key held before. */
  function Assigns(current: Option<Key>, tasks: Assoc<Key, Sequence>, q: seq<Entry>): (r: seq<Key>)
    decreases |q|
  {
    if q == [] then []
    else if Get(tasks, q[0].key).None? then Assigns(current, tasks, q[1..])
    else if current != Some(q[0].key) then [q[0].key] + Assigns(Some(q[0].key), tasks, q[1..])
    else Assigns(current, tasks, q[1..])
  }

  /** The `while` loop of `exec` (agent.py:82): pop until the queue is
      empty; the first failure ends the loop. */
  function Drain(e: Env, cfg: Settings, format: Formatter, dflt: string, a: Agent): (r: Result<Agent>)
    ensures r.Success? ==> r.value.queue == [] && r.value.tasks == a.tasks && a.results <= r.value.results
    ensures r.Success? && a.worker.Some? ==> r.value.worker.Some?
    decreases |a.queue|
  {
    if a.queue == [] then Success(a)
    else
      var a1 :- Pop(e, cfg, format, dflt, a);
      Drain(e, cfg, format, dflt, a1)
  }

  /** One pop accounts for the head request: one line when its key is
      known, and the log entry `Assigns` gives it. */
  lemma PopStep(e: Env, cfg: Settings, format: Formatter, dflt: string, a: Agent)
    requires WellKeyed(KeyOf, a.tasks)
    requires a.queue != [] && Pop(e, cfg, format, dflt, a).Success?
    ensures |Pop(e, cfg, format, dflt, a).value.results| + |Known(a.tasks, a.queue[1..])| ==
            |a.results| + |Known(a.tasks, a.queue)|
    ensures a.worker.Some? ==>
            Pop(e, cfg, format, dflt, a).value.worker.Some? &&
            Pop(e, cfg, format, dflt, a).value.worker.value.log +
              Assigns(WebWorker.TaskKey(Pop(e, cfg, format, dflt, a).value.worker.value), a.tasks, a.queue[1..]) ==
            a.worker.value.log + Assigns(WebWorker.TaskKey(a.worker.value), a.tasks, a.queue)
  {
    var a1 := Pop(e, cfg, format, dflt, a).value;
    var x := a.queue[0];
    if Get(a.tasks, x.key).Some? {
      WellKeyedGet(KeyOf, a.tasks, x.key);
      var w := a.worker.value;
      assert Known(a.tasks, a.queue) == [x] + Known(a.tasks, a.queue[1..]);
      assert WebWorker.TaskKey(a1.worker.value) == Some(x.key);
      if Some(x.key) != WebWorker.TaskKey(w) {
        assert Assigns(WebWorker.TaskKey(w), a.tasks, a.queue) == [x.key] + Assigns(Some(x.key), a.tasks, a.queue[1..]);
      } else {
        assert Assigns(WebWorker.TaskKey(w), a.tasks, a.queue) == Assigns(Some(x.key), a.tasks, a.queue[1..]);
      }
    } else {
      assert Known(a.tasks, a.queue) == Known(a.tasks, a.queue[1..]);
    }
  }

  /** Draining appends one line per known request, and the worker was
      reassigned exactly when the key changed. */
  lemma {:induction false} DrainResults(e: Env, cfg: Settings, format: Formatter, dflt: string, a: Agent)
    requires WellKeyed(KeyOf, a.tasks)
    requires Drain(e, cfg, format, dflt, a).Success?
    ensures |Drain(e, cfg, format, dflt, a).value.results| == |a.results| + |Known(a.tasks, a.queue)|
    ensures a.worker.Some? ==>
            Drain(e, cfg, format, dflt, a).value.worker.Some? &&
            Drain(e, cfg, format, dflt, a).value.worker.value.log ==
              a.worker.value.log + Assigns(WebWorker.TaskKey(a.worker.value), a.tasks, a.queue)
    decreases |a.queue|
  {
    if a.queue != [] {
      var a1 := Pop(e, cfg, format, dflt, a).value;
      assert Drain(e, cfg, format, dflt, a) == Drain(e, cfg, format, dflt, a1);
      PopStep(e, cfg, format, dflt, a);
      DrainResults(e, cfg, format, dflt, a1);
    }
  }

  /** A run of requests for one known sequence assigns the worker at most
      once, and not at all when it already holds that sequence. */
  lemma {:induction false} SameKeyOneAssign(current: Option<Key>, tasks: Assoc<Key, Sequence>, q: seq<Entry>, k: Key)
    requires forall i :: 0 <= i < |q| ==> q[i].key == k
    requires Get(tasks, k).Some?
    ensures Assigns(current, tasks, q) == if q == [] || current == Some(k) then [] else [k]
    decreases |q|
  {
    if q != [] {
      SameKeyOneAssign(Some(k), tasks, q[1..], k);
      if current == Some(k) {
        SameKeyOneAssign(current, tasks, q[1..], k);
      }
    }
  }

  /** `exec` with the report step repaired (agent.py:76-83): create the worker
      on first use, then drain the queue; the report is `Report(results)`. */
  function Exec(e: Env, cfg: Settings, format: Formatter, dflt: string, a: Agent): (r: Result<Agent>)
    ensures r.Success? ==> r.value.queue == [] && r.value.tasks == a.tasks
    ensures a.worker.Some? ==> r == Drain(e, cfg, format, dflt, a)
  {
    var w := if a.worker.Some? then a.worker else Some(WebWorker.Fresh());
    Drain(e, cfg, format, dflt, a.(worker := w))
  }

  /** The first `exec` on an agent logs exactly the key changes of its known
      requests, starting from a worker that holds nothing. */
  lemma ExecFromScratch(e: Env, cfg: Settings, format: Formatter, dflt: string, a: Agent)
    requires a.worker.None? && WellKeyed(KeyOf, a.tasks)
    requires Exec(e, cfg, format, dflt, a).Success?
    ensures Exec(e, cfg, format, dflt, a).value.worker.Some?
    ensures Exec(e, cfg, format, dflt, a).value.worker.value.log == Assigns(None, a.tasks, a.queue)
    ensures |Exec(e, cfg, format, dflt, a).value.results| == |a.results| + |Known(a.tasks, a.queue)|
  {
    DrainResults(e, cfg, format, dflt, a.(worker := Some(WebWorker.Fresh())));
  }

  /** The text `respond` writes (agent.py:129-130), and `save` in the queue
      and the controller: the lines joined by ",\n", each new line after
      the text of the earlier ones. */
  function Report(lines: seq<string>): (r: string)
    ensures lines == [] ==> r == ""
    ensures |lines| == 1 ==> r == lines[0]
    ensures |lines| > 1 ==> r == Report(lines[..|lines| - 1]) + ",\n" + lines[|lines| - 1]
  {
    if |lines| > 1 then
      assert lines == lines[..|lines| - 1] + [lines[|lines| - 1]];
      JoinSnoc(",\n", lines[..|lines| - 1], lines[|lines| - 1]);
      Join(",\n", lines)
    else Join(",\n", lines)
  }

  /** `exec` as written: `respond` tests `filepath` before anything assigns
      it (agent.py:128), so every call that gets past the queue raises
      `UnboundLocalError`. */
  function ExecAsWritten(e: Env, cfg: Settings, format: Formatter, dflt: string, a: Agent): (r: Result<Agent>)
    ensures r.Failure?
    ensures Exec(e, cfg, format, dflt, a).Success? ==> r == Failure(UnboundLocal)
    ensures Exec(e, cfg, format, dflt, a).Failure? ==> r.error == Exec(e, cfg, format, dflt, a).error
  {
    var d :- Exec(e, cfg, format, dflt, a);
    Failure(UnboundLocal)
  }
}
