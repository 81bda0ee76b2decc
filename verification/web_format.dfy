/** The webauto report formatter and sequence decoder
    (app/backend/webauto/utils.py).

    `parse_job` turns one run's results into a report line: each `${...}` of
    the format is replaced, in order, by a value taken from the run's
    results or from the request's look-up table.  It never looks at the
    page.  `parse_json_file` decodes a sequence definition; reading the file
    is I/O, so the model starts from the decoded document.
 */
module WebFormat {
  import opened Wrappers
  import opened Text
  import opened Assoc
  import opened PyJson
  import opened Placeholders
  import opened Slots
  import opened Script
  import TaskDefs
  import InaModels
  import opened WebModels

  /** Sigils inside `${...}` (utils.py:194, config.py:23). */
  const RESULT: string := "@RESULT"
  const ARGV: string := "@"

  const NOT_AVAILABLE: string := "N/A"
  const NONE: string := "None"

  /** `DEFAULT_FORMAT` (config.py:18). */
  const DEFAULT_FORMAT: string := "argv: ${@}, tblv: ${@#}"

  /** What one placeholder of the format becomes (utils.py:192-201). */
  function JobValue(rt: Runtime, argv: Option<Lut>, results: Table, ph: string): (r: Result<string>)
    ensures Value(ph) == RESULT ==>
            exists vs :: IsRun(results, "${", "}", 1, vs) && r == Success(Join(", ", vs))
    ensures Value(ph) != RESULT && IsDigits(Value(ph)) ==> r == Success(Get(results, ph).GetOr(NOT_AVAILABLE))
    ensures Value(ph) == ARGV ==> r == Success(rt.dumps(ObjOf(argv)))
    ensures Value(ph) != RESULT && !IsDigits(Value(ph)) && Value(ph) != ARGV ==>
            (argv.None? ==> r == Failure(AttributeError)) &&
            (argv.Some? && Get(argv.value, Value(ph)).None? ==> r == Success(NONE)) &&
            (argv.Some? && Get(argv.value, Value(ph)).Some? ==>
               (Get(argv.value, Value(ph)).value.JStr? <==> r.Success?) &&
               (r.Success? ==> Get(argv.value, Value(ph)).value == JStr(r.value)))
    ensures r.Failure? ==> r.error == AttributeError || r.error == TypeError
  {
    var value := Value(ph);
    if value == RESULT then
      var run := RunFrom(results, "${", "}", 1, 1);
      assert IsRun(results, "${", "}", 1, run);
      Success(Join(", ", run))
    else if IsDigits(value) then
      assert value[0] != ARGV[0];
      Success(Get(results, ph).GetOr(NOT_AVAILABLE))
    else if value == ARGV then Success(rt.dumps(ObjOf(argv)))
    else
      var tbl :- Need(argv, AttributeError);
      match Get(tbl, value)
      case None => Success(NONE)
      case Some(x) => if x.JStr? then Success(x.s) else Failure(TypeError)
  }

  /** `parse_job(fmt, argv, results)` (utils.py:174-202): the placeholders of
      the original format, each replaced in turn wherever it still occurs. */
  function ParseJob(rt: Runtime, fmt: string, argv: Option<Lut>, results: Table): (r: Result<string>)
    ensures FindPlaceholders(fmt) == [] ==> r == Success(fmt)
  {
    Substitute(fmt, FindPlaceholders(fmt), ph => JobValue(rt, argv, results, ph))
  }

  /** A report fails exactly when it names a table entry that cannot be
      read: there is no table, or the entry is not text. */
  lemma ParseJobFailsIff(rt: Runtime, fmt: string, argv: Option<Lut>, results: Table)
    ensures ParseJob(rt, fmt, argv, results).Failure? <==>
            exists k :: 0 <= k < |FindPlaceholders(fmt)| &&
                        JobValue(rt, argv, results, FindPlaceholders(fmt)[k]).Failure?
    ensures ParseJob(rt, fmt, argv, results).Failure? ==>
            ParseJob(rt, fmt, argv, results).error in {AttributeError, TypeError}
  {
    var resolve := ph => JobValue(rt, argv, results, ph);
    SubstituteFailsIff(fmt, FindPlaceholders(fmt), resolve);
  }

  /** With a table whose entries are all text, every report succeeds. */
  lemma ParseJobTotal(rt: Runtime, fmt: string, tbl: Lut, results: Table)
    requires forall i :: 0 <= i < |tbl| ==> tbl[i].1.JStr?
    ensures ParseJob(rt, fmt, Some(tbl), results).Success?
  {
    ParseJobFailsIff(rt, fmt, Some(tbl), results);
    forall k | 0 <= k < |FindPlaceholders(fmt)|
      ensures JobValue(rt, Some(tbl), results, FindPlaceholders(fmt)[k]).Success?
    {
      var value := Value(FindPlaceholders(fmt)[k]);
      if Get(tbl, value).Some? {
        var i :| 0 <= i < |tbl| && tbl[i] == (value, Get(tbl, value).value);
      }
    }
  }

  /** `${@RESULT}` is the texts of `${1}`, `${2}`, … joined by ", ", up to
      the first slot that is missing or empty. */
  lemma ReportOfResults(rt: Runtime, argv: Option<Lut>, results: Table, vs: seq<string>)
    requires IsRun(results, "${", "}", 1, vs)
    ensures ParseJob(rt, "${@RESULT}", argv, results) == Success(Join(", ", vs))
  {
    var ph := "${@RESULT}";
    assert Value(ph) == RESULT;
    SinglePlaceholder(ph, p => JobValue(rt, argv, results, p));
    var ws :| IsRun(results, "${", "}", 1, ws) && JobValue(rt, argv, results, ph) == Success(Join(", ", ws));
    RunFromUnique(results, "${", "}", 1, 1, ws);
    RunFromUnique(results, "${", "}", 1, 1, vs);
  }

  /** `${n}` is the text of result slot `n`, "N/A" when the slot is missing. */
  lemma ReportOfSlot(rt: Runtime, argv: Option<Lut>, results: Table, n: nat)
    ensures ParseJob(rt, Slot("${", n, "}"), argv, results) ==
            Success(Get(results, Slot("${", n, "}")).GetOr(NOT_AVAILABLE))
  {
    var ph := Slot("${", n, "}");
    var digits := NatToString(n);
    assert ph == "${" + digits + "}";
    assert Value(ph) == digits;
    assert IsPlaceholder(ph) by {
      forall k | 2 <= k < |ph| - 1
        ensures ph[k] != '}' && ph[k] != '\n'
      {
        assert ph[k] == digits[k - 2];
        assert IsDigit(digits[k - 2]);
      }
    }
    SinglePlaceholder(ph, p => JobValue(rt, argv, results, p));
  }

  /** `${name}` for any other name is the table's text for it, "None" when
      the table has no entry. */
  lemma ReportOfName(rt: Runtime, tbl: Lut, results: Table, name: string)
    requires IsPlaceholder("${" + name + "}")
    requires name != RESULT && name != ARGV && !IsDigits(name)
    ensures Get(tbl, name).None? ==> ParseJob(rt, "${" + name + "}", Some(tbl), results) == Success(NONE)
    ensures Get(tbl, name).Some? && Get(tbl, name).value.JStr? ==>
            ParseJob(rt, "${" + name + "}", Some(tbl), results) == Success(Get(tbl, name).value.s)
  {
    var ph := "${" + name + "}";
    assert Value(ph) == name;
    SinglePlaceholder(ph, p => JobValue(rt, Some(tbl), results, p));
  }

  /** `parse_json_file` (utils.py:119-156) on an already decoded document:
      the commands in file order, then the name and the environment.  Any
      failure at all is reported as an `IndexError`. */
  function ParseSequence(raw: Json): (r: Result<Sequence>)
    ensures r.Failure? ==> r.error == IndexError
    ensures r.Success? ==> raw.JObj? && Get(raw.fields, "name") == Some(JStr(r.value.name)) &&
                           Get(raw.fields, "env") == Some(JStr(r.value.env))
  {
    var decoded := DecodeSequence(raw);
    if decoded.Success? then decoded else Failure(IndexError)
  }

  /** The decoding `ParseSequence` reports the errors of: a document that
      is no object raises `TypeError`, a missing field `KeyError`. */
  function DecodeSequence(raw: Json): (r: Result<Sequence>)
    ensures !raw.JObj? ==> r == Failure(TypeError)
    ensures raw.JObj? && Get(raw.fields, "commands").None? ==> r == Failure(KeyError)
    ensures r.Success? ==> Field(raw, "commands").Success? && Iterate(Field(raw, "commands").value).Success? &&
                           TaskDefs.DecodeCommands(Iterate(Field(raw, "commands").value).value) == Success(r.value.cmds)
    ensures r.Success? ==> raw.JObj? && Get(raw.fields, "name") == Some(JStr(r.value.name)) &&
                           Get(raw.fields, "env") == Some(JStr(r.value.env))
  {
    var list :- Field(raw, "commands");
    var items :- Iterate(list);
    var cmds :- TaskDefs.DecodeCommands(items);
    var name :- Field(raw, "name");
    var env :- Field(raw, "env");
    if name.JStr? && env.JStr? then Success(Sequence(name.s, env.s, cmds)) else Failure(TypeError)
  }

  /** The sequence decoder and the ina task decoder accept the same
      documents and decode the same commands; only the key's field order
      differs. */
  lemma SameDecoding(raw: Json)
    ensures ParseSequence(raw).Success? <==> TaskDefs.ParseTask(raw).Success?
    ensures ParseSequence(raw).Success? ==>
            var s := ParseSequence(raw).value;
            var t := TaskDefs.ParseTask(raw).value;
            s.cmds == t.cmds && s.name == t.key.name && s.env == t.key.env
  {
  }

  /** The definition of a sequence, in the long form of every command. */
  function EncodeSequence(s: Sequence): Json {
    TaskDefs.EncodeTask(InaModels.Task(InaModels.Key(s.env, s.name), s.cmds))
  }

  /** Decoding gives back every sequence whose commands are decodable. */
  lemma DecodeEncodeSequence(s: Sequence)
    requires forall i :: 0 <= i < |s.cmds| ==> TaskDefs.Decodable(s.cmds[i])
    ensures ParseSequence(EncodeSequence(s)) == Success(s)
  {
    TaskDefs.DecodeEncodeTask(InaModels.Task(InaModels.Key(s.env, s.name), s.cmds));
    SameDecoding(EncodeSequence(s));
  }
}
