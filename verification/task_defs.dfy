/** Loading ina tasks from their JSON definitions
    (project/server/tasks/utils.py): decoding one definition, decorating it
    with the shared prefix and suffix commands and the leading `printf` of
    its environment and name, and filing the tasks by key.

    Finding the definition files and reading them is I/O: the model starts
    from the decoded JSON documents, in the order the directory walk yields
    them.
 */
module TaskDefs {
  import opened Wrappers
  import opened Text
  import opened Assoc
  import opened PyJson
  import opened Script
  import opened InaModels
  import opened Browser
  import opened Slots
  import opened Placeholders
  import InaDriver

  /** Tasks of this environment are not decorated (utils.py:67, 88). */
  const ALL: string := "ALL"
  const PRINTF: string := "printf"

  /** One entry of the "commands" list (utils.py:116-128): `[label]`,
      `[label, target]` or `[label, {"target": ..., "argv": ...}]`; the label
      is lower-cased and a single truthy `argv` is wrapped in a list. */
  function DecodeCommand(cmd: Json): (r: Result<Command>)
    ensures r.Success? ==> Lower(r.value.op) == r.value.op
    ensures r.Success? ==> !Truthy(r.value.argv) || r.value.argv.JArr?
    ensures cmd == JArr([]) || cmd == JStr([]) ==> r == Failure(IndexError)
    ensures cmd.JArr? && cmd.items != [] && !cmd.items[0].JStr? ==> r == Failure(AttributeError)
    ensures cmd.JArr? && |cmd.items| == 1 && cmd.items[0].JStr? ==>
            r == Success(Command(Lower(cmd.items[0].s), JNull, JNull))
    ensures cmd.JArr? && |cmd.items| >= 2 && cmd.items[0].JStr? && !cmd.items[1].JObj? ==>
            r == Success(Command(Lower(cmd.items[0].s), cmd.items[1], JNull))
    ensures cmd.JArr? && |cmd.items| >= 2 && cmd.items[0].JStr? && cmd.items[1].JObj? ==>
            r.Success? && r.value.op == Lower(cmd.items[0].s) &&
            r.value.target == Get(cmd.items[1].fields, "target").GetOr(JNull) &&
            (Get(cmd.items[1].fields, "argv").GetOr(JNull).JArr? ==> r.value.argv == Get(cmd.items[1].fields, "argv").value)
  {
    var head :- Index(cmd, 0);
    var op :- if head.JStr? then Success(Lower(head.s)) else Failure(AttributeError);
    LowerIdempotent(if head.JStr? then head.s else "");
    if (cmd.JArr? && |cmd.items| > 1) || (cmd.JStr? && |cmd.s| > 1) then
      var second := if cmd.JArr? then cmd.items[1] else JStr([cmd.s[1]]);
      match second
      case JObj(fs) =>
        var target := Get(fs, "target").GetOr(JNull);
        var argv := Get(fs, "argv").GetOr(JNull);
        Success(Command(op, target, if Truthy(argv) && !argv.JArr? then JArr([argv]) else argv))
      case _ => Success(Command(op, second, JNull))
    else Success(Command(op, JNull, JNull))
  }

  function DecodeCommands(items: seq<Json>): (r: Result<seq<Command>>)
    ensures r.Success? ==> |r.value| == |items| &&
                           forall i :: 0 <= i < |items| ==> DecodeCommand(items[i]) == Success(r.value[i])
    ensures r.Failure? ==> exists i :: 0 <= i < |items| && DecodeCommand(items[i]) == Failure(r.error)
    decreases |items|
  {
    if items == [] then Success([])
    else
      var c :- DecodeCommand(items[0]);
      var rest :- DecodeCommands(items[1..]);
      Success([c] + rest)
  }

  /** `parse_json` (utils.py:98-131) on an already decoded document: the
      commands first, then the key. */
  function ParseTask(raw: Json): (r: Result<Task>)
    ensures !raw.JObj? ==> r == Failure(TypeError)
    ensures r.Success? ==> raw.JObj? && Get(raw.fields, "env") == Some(JStr(r.value.key.env)) &&
                           Get(raw.fields, "name") == Some(JStr(r.value.key.name))
  {
    var list :- Field(raw, "commands");
    var items :- Iterate(list);
    var cmds :- DecodeCommands(items);
    var env :- Field(raw, "env");
    var name :- Field(raw, "name");
    if env.JStr? && name.JStr? then Success(Task(Key(env.s, name.s), cmds))
    else Failure(TypeError)
  }

  /** The definition of a command, in the long form the decoder accepts. */
  function EncodeCommand(c: Command): Json {
    JArr([JStr(c.op), JObj([("target", c.target), ("argv", c.argv)])])
  }

  /** The definition of a task. */
  function EncodeTask(t: Task): Json {
    JObj([
      ("env", JStr(t.key.env)),
      ("name", JStr(t.key.name)),
      ("commands", JArr(seq(|t.cmds|, i requires 0 <= i < |t.cmds| => EncodeCommand(t.cmds[i]))))])
  }

  /** A command the decoder can produce: a lower-case label and an `argv`
      that is a list or falsy. */
  predicate Decodable(c: Command) {
    Lower(c.op) == c.op && (!Truthy(c.argv) || c.argv.JArr?)
  }

  /** Decoding gives back every decodable command. */
  lemma DecodeEncodeCommand(c: Command)
    requires Decodable(c)
    ensures DecodeCommand(EncodeCommand(c)) == Success(c)
  {
    var fs := [("target", c.target), ("argv", c.argv)];
    assert Get(fs, "target") == Some(c.target);
    assert Get(fs, "argv") == Some(c.argv);
  }

  /** Decoding gives back every task whose commands are all decodable. */
  lemma DecodeEncodeTask(t: Task)
    requires forall i :: 0 <= i < |t.cmds| ==> Decodable(t.cmds[i])
    ensures ParseTask(EncodeTask(t)) == Success(t)
  {
    var raw := EncodeTask(t);
    var items := seq(|t.cmds|, i requires 0 <= i < |t.cmds| => EncodeCommand(t.cmds[i]));
    var fs := raw.fields;
    assert fs[0].0 != "commands" && fs[1].0 != "commands" && fs[0].0 != "name";
    assert Get(fs[2..], "commands") == Some(JArr(items));
    assert Get(fs[1..], "commands") == Some(JArr(items));
    assert Field(raw, "commands") == Success(JArr(items));
    assert Field(raw, "env") == Success(JStr(t.key.env));
    assert Get(fs[1..], "name") == Some(JStr(t.key.name));
    assert Field(raw, "name") == Success(JStr(t.key.name));
    forall i | 0 <= i < |items|
      ensures DecodeCommand(items[i]) == Success(t.cmds[i])
    {
      DecodeEncodeCommand(t.cmds[i]);
    }
    DecodeAll(items, t.cmds);
  }

  lemma {:induction false} DecodeAll(items: seq<Json>, cmds: seq<Command>)
    requires |items| == |cmds|
    requires forall i :: 0 <= i < |items| ==> DecodeCommand(items[i]) == Success(cmds[i])
    ensures DecodeCommands(items) == Success(cmds)
    decreases |items|
  {
    if items != [] {
      DecodeAll(items[1..], cmds[1..]);
      assert cmds == [cmds[0]] + cmds[1..];
    }
  }

  /** The command every decorated task starts with. */
  function Banner(k: Key): Command {
    Command(PRINTF, JStr(k.env + "," + k.name), JNull)
  }

  /** The decoration of `get_tasklist`/`get_taskdict` (utils.py:67-70,
      88-91): a task outside the "ALL" environment gets the prefix before
      and the suffix after its commands, and the banner before all. */
  function Decorate(t: Task, prefix: seq<Command>, suffix: seq<Command>): (r: Task)
    ensures r.key == t.key
    ensures t.key.env == ALL ==> r == t
    ensures t.key.env != ALL ==> r.cmds == [Banner(t.key)] + prefix + t.cmds + suffix
  {
    if t.key.env == ALL then t
    else
      var withPrefix := if prefix != [] then ExtendLeft(t, prefix) else t;
      var withSuffix := if suffix != [] then Extend(withPrefix, suffix) else withPrefix;
      PushLeft(withSuffix, Banner(t.key))
  }

  /** Decoding and decorating one document. */
  function Load(raw: Json, prefix: seq<Command>, suffix: seq<Command>): (r: Result<Task>)
    ensures r.Success? <==> ParseTask(raw).Success?
    ensures r.Success? ==> r.value == Decorate(ParseTask(raw).value, prefix, suffix)
  {
    var t :- ParseTask(raw);
    Success(Decorate(t, prefix, suffix))
  }

  /** `get_tasklist` (utils.py:55-74): every document loaded, in order; the
      first failing document ends it. */
  function TaskList(raws: seq<Json>, prefix: seq<Command>, suffix: seq<Command>): (r: Result<seq<Task>>)
    ensures r.Success? ==> |r.value| == |raws| &&
                           forall i :: 0 <= i < |raws| ==> Load(raws[i], prefix, suffix) == Success(r.value[i])
    decreases |raws|
  {
    if raws == [] then Success([])
    else
      var t :- Load(raws[0], prefix, suffix);
      var rest :- TaskList(raws[1..], prefix, suffix);
      Success([t] + rest)
  }

  /** `tasks[task.key] = task` over a list of tasks. */
  function FileByKey(ts: seq<Task>): (r: Assoc<Key, Task>)
    decreases |ts|
  {
    if ts == [] then [] else Put(FileByKey(ts[..|ts| - 1]), ts[|ts| - 1].key, ts[|ts| - 1])
  }

  /** `get_taskdict` (utils.py:76-95): the same tasks as `get_tasklist`,
      filed by key. */
  function TaskDict(raws: seq<Json>, prefix: seq<Command>, suffix: seq<Command>): (r: Result<Assoc<Key, Task>>)
    ensures r.Success? <==> TaskList(raws, prefix, suffix).Success?
    ensures r.Success? ==> r.value == FileByKey(TaskList(raws, prefix, suffix).value)
  {
    var ts :- TaskList(raws, prefix, suffix);
    Success(FileByKey(ts))
  }

  /** Index of the last task with the given key, if any. */
  function LastWithKey(ts: seq<Task>, k: Key): (r: Option<nat>)
    ensures r.Some? ==> r.value < |ts| && ts[r.value].key == k &&
                        forall j :: r.value < j < |ts| ==> ts[j].key != k
    ensures r.None? ==> forall j :: 0 <= j < |ts| ==> ts[j].key != k
    decreases |ts|
  {
    if ts == [] then None
    else if ts[|ts| - 1].key == k then Some(|ts| - 1)
    else LastWithKey(ts[..|ts| - 1], k)
  }

  /** In the dictionary a key names the last task defined under it; every
      task is filed under its own key and no key appears twice. */
  lemma {:induction false} FileByKeyGet(ts: seq<Task>, k: Key)
    ensures Get(FileByKey(ts), k) == match LastWithKey(ts, k) case None => None case Some(i) => Some(ts[i])
    ensures Distinct(FileByKey(ts))
    ensures forall i :: 0 <= i < |FileByKey(ts)| ==> FileByKey(ts)[i].1.key == FileByKey(ts)[i].0
    decreases |ts|
  {
    if ts != [] {
      var init := ts[..|ts| - 1];
      var last := ts[|ts| - 1];
      FileByKeyGet(init, k);
      PutGet(FileByKey(init), last.key, last, k);
      PutDistinct(FileByKey(init), last.key, last);
      FiledUnderOwnKey(FileByKey(init), last);
      if last.key != k {
        assert LastWithKey(ts, k) == LastWithKey(init, k);
        match LastWithKey(init, k)
        case None =>
        case Some(i) => assert ts[i] == init[i];
      }
    }
  }

  /** Filing a task under its own key keeps every task filed under its own key. */
  lemma {:induction false} FiledUnderOwnKey(t: Assoc<Key, Task>, x: Task)
    requires forall i :: 0 <= i < |t| ==> t[i].1.key == t[i].0
    ensures forall i :: 0 <= i < |Put(t, x.key, x)| ==> Put(t, x.key, x)[i].1.key == Put(t, x.key, x)[i].0
  {
    if t != [] && t[0].0 != x.key {
      FiledUnderOwnKey(t[1..], x);
      assert Put(t, x.key, x) == [t[0]] + Put(t[1..], x.key, x);
    }
  }

  predicate NoDollar(s: string) {
    forall k :: 0 <= k < |s| ==> s[k] != '$'
  }

  /** A decorated task run on a freshly assigned driver reports its
      environment and name in the first result slot `${0}`, whatever the
      page does and whatever commands follow, as the default response
      format expects (ina/config.py:23-27). */
  lemma BannerLandsInFirstSlot(e: Env, cfg: Settings, d: InaDriver.Driver, t: Task,
                               prefix: seq<Command>, suffix: seq<Command>, lut: Option<Lut>)
    requires t.key.env != ALL && NoDollar(t.key.env) && NoDollar(t.key.name)
    requires InaDriver.Exec(e, cfg, InaDriver.Assign(d, Decorate(t, prefix, suffix)), lut).Success?
    ensures Get(InaDriver.Exec(e, cfg, InaDriver.Assign(d, Decorate(t, prefix, suffix)), lut).value.results, "${0}")
            == Some(t.key.env + "," + t.key.name)
  {
    var dt := Decorate(t, prefix, suffix);
    var d0 := InaDriver.Assign(d, dt).(lut := lut);
    var text := t.key.env + "," + t.key.name;
    assert NoDollar(text);
    NoDollarNoPlaceholders(text);
    assert Lower(PRINTF) == PRINTF;
    var c := dt.cmds[0];
    assert c == Banner(t.key);
    var key := InaDriver.ArgvKey(d0);
    assert FirstFree(d0.results, "${", "}", 0) == 0;
    assert key == "${0}";
    var d1 := InaDriver.Step(e, cfg, d0, c);
    assert d1 == InaDriver.Printf(e, cfg, d0, JStr(text));
    assert d1.Success? && d1.value.results == Put(d0.results, key, text);
    assert Filled(d1.value.results, key);
    assert InaDriver.Run(e, cfg, d0, dt.cmds) == InaDriver.Run(e, cfg, d1.value, dt.cmds[1..]);
  }
}
