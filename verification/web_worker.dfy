/** The webauto worker (app/backend/webauto/models/worker.py): runs the
    commands of the assigned sequence against the browser with a look-up
    table (`tbl`) given per run, and keeps the `printf` results.

    As in the ina driver, the state is immutable: every handler returns the
    next state, everything done to the browser is appended to `trace`, and
    the page answers look-ups as a function of that trace.  A handler that
    raises is a `Failure` naming the exception.  Unlike the ina driver, the
    webauto worker looks elements up without a presence wait, and a missing
    element is simply skipped.
 */
module WebWorker {
  import opened Wrappers
  import opened Text
  import opened Assoc
  import opened PyJson
  import opened Browser
  import opened Placeholders
  import opened Slots
  import opened Script
  import opened WebModels
  import WebKeys

  /** Sigils inside `${...}`: the whole table and the positional arguments
      (config.py:23-24), and the find-all prefix (the worker's tests use
      `${@//xpath}`). */
  const TBLV: string := "@#"
  const ARGV: string := "@"
  const FINDV: char := '@'

  const NONE: string := "None"
  const UNTIL: string := "UNTIL"
  const UNTIL_NOT: string := "UNTIL_NOT"
  const VISIBILITY: string := "VISIBILITY_OF_ELEMENT_LOCATED"

  /** `log` is the debug log of `assign` (worker.py:53): one key per call. */
  datatype Worker = Worker(
    task: Option<Sequence>,
    tbl: Option<Lut>,
    results: Table,
    trace: Trace,
    log: seq<Key>)

  /** A worker just created: no task, nothing done yet. */
  function Fresh(): Worker {
    Worker(None, None, [], [], [])
  }

  /** `key` (worker.py:41-43): the assigned sequence's key, `None` before any. */
  function TaskKey(w: Worker): (r: Option<Key>)
    ensures r.Some? <==> w.task.Some?
    ensures r.Some? ==> r.value == KeyOf(w.task.value)
  {
    match w.task
    case None => None
    case Some(s) => Some(KeyOf(s))
  }

  /** `reset` (worker.py:55-61): empty table and results. */
  function Reset(w: Worker): (r: Worker)
    ensures r.tbl == Some([]) && r.results == []
    ensures r.task == w.task && r.trace == w.trace && r.log == w.log
  {
    w.(tbl := Some([]), results := [])
  }

  /** `assign` (worker.py:46-53): reset, then take the sequence. */
  function Assign(w: Worker, s: Sequence): (r: Worker)
    ensures TaskKey(r) == Some(KeyOf(s)) && r.task == Some(s)
    ensures r.tbl == Some([]) && r.results == []
    ensures r.trace == w.trace && r.log == w.log + [KeyOf(s)]
  {
    Reset(w).(task := Some(s), log := w.log + [KeyOf(s)])
  }

  /** Record one browser action. The same as `InaDriver.Act`, but on the
      webauto `Worker` record; the records share no trait to define it once. */
  function Act(w: Worker, a: Action): (r: Worker)
    ensures r.trace == w.trace + [a]
  {
    w.(trace := w.trace + [a])
  }

  /** `find` (worker.py:115-132): the element's text, "" when there is none. */
  function Find(e: Env, w: Worker, target: Json): (r: string)
    ensures e.page.first(w.trace, target).None? ==> r == ""
    ensures e.page.first(w.trace, target).Some? ==> r == e.page.first(w.trace, target).value.text
  {
    match e.page.first(w.trace, target)
    case None => ""
    case Some(elem) => elem.text
  }

  /** `find_all` (worker.py:134-152): the texts joined by ", ", "" when
      nothing matches. */
  function FindAll(e: Env, w: Worker, target: Json): (r: string)
    ensures e.page.all(w.trace, target) == [] ==> r == ""
    ensures r == Join(", ", Texts(e.page.all(w.trace, target)))
  {
    Join(", ", Texts(e.page.all(w.trace, target)))
  }

  /** The table entry `peek` uses: present and truthy in a non-empty table. */
  function Entry(w: Worker, key: string): (r: Option<Json>)
    ensures r.Some? <==> w.tbl.Some? && Get(w.tbl.value, key).Some? && Truthy(Get(w.tbl.value, key).value)
    ensures r.Some? ==> r.value == Get(w.tbl.value, key).value
  {
    if w.tbl.Some? && w.tbl.value != [] && Get(w.tbl.value, key).Some? && Truthy(Get(w.tbl.value, key).value)
    then Get(w.tbl.value, key) else None
  }

  /** `peek` (worker.py:154-175) as written: a list entry is rendered by
      joining the characters of its printed form. */
  function PeekAsWritten(e: Env, w: Worker, key: string): (r: string)
    ensures Entry(w, key).None? ==> r == Find(e, w, JStr(key))
    ensures Entry(w, key).Some? && Entry(w, key).value.JArr? ==>
            r == Join(", ", Characters(Str(e.rt, Entry(w, key).value)))
    ensures Entry(w, key).Some? && Entry(w, key).value.JStr? ==> r == Entry(w, key).value.s
    ensures Entry(w, key).Some? && Entry(w, key).value.JObj? ==> r == e.rt.dumps(JStr(e.rt.repr(Entry(w, key).value)))
    ensures Entry(w, key).Some? && (Entry(w, key).value.JNum? || Entry(w, key).value.JBool?) ==>
            r == Str(e.rt, Entry(w, key).value)
  {
    match Entry(w, key)
    case None => Find(e, w, JStr(key))
    case Some(x) => Render(e.rt, x, Join(", ", Characters(Str(e.rt, x))))
  }

  /** `peek` as evidently intended: a list entry is rendered by joining its
      items, which must be strings, as the ina driver does. */
  function Peek(e: Env, w: Worker, key: string): (r: Result<string>)
    ensures Entry(w, key).None? ==> r == Success(Find(e, w, JStr(key)))
    ensures Entry(w, key).Some? && Entry(w, key).value.JStr? ==> r == Success(Entry(w, key).value.s)
    ensures Entry(w, key).Some? && Entry(w, key).value.JArr? ==>
            (r.Success? <==> Strings(Entry(w, key).value.items).Success?) &&
            (r.Success? ==> r.value == Join(", ", Strings(Entry(w, key).value.items).value))
    ensures !Entry(w, key).Some? || !Entry(w, key).value.JArr? ==> r == Success(PeekAsWritten(e, w, key))
  {
    match Entry(w, key)
    case None => Success(Find(e, w, JStr(key)))
    case Some(x) =>
      if x.JArr? then
        var strs :- Strings(x.items);
        Success(Join(", ", strs))
      else Success(Render(e.rt, x, ""))
  }

  /** A table entry as text: a string as itself, a dict as the JSON text of
      its printed form, anything else printed; `list` is what a list
      becomes. */
  function Render(rt: Runtime, x: Json, list: string): (r: string)
    ensures x.JStr? ==> r == x.s
    ensures x.JArr? ==> r == list
    ensures x.JObj? ==> r == rt.dumps(JStr(rt.repr(x)))
  {
    match x
    case JStr(s) => s
    case JArr(_) => list
    case JObj(_) => rt.dumps(JStr(Str(rt, x)))
    case _ => Str(rt, x)
  }

  /** Iterating a string: its characters, each a string of its own. */
  function Characters(s: string): (r: seq<string>)
    ensures |r| == |s| && forall i :: 0 <= i < |s| ==> r[i] == [s[i]]
  {
    seq(|s|, i requires 0 <= i < |s| => [s[i]])
  }

  /** `argv[int(value) - 1]` (worker.py:199): counted from 1, so `${0}` is
      index -1, the last argument.  The argument must be a string. */
  function Positional(argv: Json, n: nat): (r: Result<string>)
    ensures argv.JArr? && 1 <= n <= |argv.items| ==>
            (r.Success? <==> argv.items[n - 1].JStr?) && (r.Success? ==> JStr(r.value) == argv.items[n - 1])
    ensures argv.JArr? && argv.items != [] && n == 0 ==>
            (r.Success? <==> argv.items[|argv.items| - 1].JStr?) &&
            (r.Success? ==> JStr(r.value) == argv.items[|argv.items| - 1])
    ensures argv.JArr? && n > |argv.items| ==> r == Failure(IndexError)
  {
    var x :- At(argv, n - 1);
    if x.JStr? then Success(x.s) else Failure(TypeError)
  }

  /** A placeholder that none of the special forms of `scan` claims, so
      that `scan` peeks at its name. */
  predicate FallsToPeek(ph: string, argv: Json) {
    var value := Value(ph);
    value != TBLV && value != ARGV && !(IsDigits(value) && Truthy(argv)) && value != "" && value[0] != FINDV
  }

  /** What one placeholder is replaced by in `scan` (worker.py:192-205), as
      written: `${@#}` the table as JSON, `${@}` the arguments joined (or
      "None" without any), `${n}` the n-th argument when there are
      arguments, `${@x}` every text found for `x`, and any other `${x}` what
      `peek` as written gives for `x`. */
  function Resolve(e: Env, w: Worker, argv: Json, ph: string): (r: Result<string>)
    ensures Value(ph) == TBLV ==> r == Success(e.rt.dumps(ObjOf(w.tbl)))
    ensures Value(ph) == ARGV && !Truthy(argv) ==> r == Success(NONE)
    ensures Value(ph) == ARGV && argv.JArr? && argv.items != [] ==>
            (r.Success? <==> Strings(argv.items).Success?) &&
            (r.Success? ==> r.value == Join(", ", Strings(argv.items).value))
    ensures IsDigits(Value(ph)) && Truthy(argv) ==> r == Positional(argv, DigitsValue(Value(ph)))
    ensures Value(ph) == "" ==> r == Failure(IndexError)
    ensures |Value(ph)| >= 1 && Value(ph)[0] == FINDV && Value(ph) != TBLV && Value(ph) != ARGV ==>
            r == Success(FindAll(e, w, JStr(Value(ph)[1..])))
    ensures FallsToPeek(ph, argv) ==> r == Success(PeekAsWritten(e, w, Value(ph)))
  {
    assert !IsDigits(TBLV) && !IsDigits(ARGV) by {
      assert TBLV[0] == '@' && ARGV[0] == '@';
    }
    var value := Value(ph);
    if value == TBLV then Success(e.rt.dumps(ObjOf(w.tbl)))
    else if value == ARGV then
      if Truthy(argv) then
        var items :- Iterate(argv);
        var strs :- Strings(items);
        Success(Join(", ", strs))
      else Success(NONE)
    else if IsDigits(value) && Truthy(argv) then Positional(argv, DigitsValue(value))
    else if value == "" then Failure(IndexError)
    else if value[0] == FINDV then Success(FindAll(e, w, JStr(value[1..])))
    else Success(PeekAsWritten(e, w, value))
  }

  /** A placeholder's value as evidently intended: the same, except that a
      name `scan` peeks at is read by the intended `peek`. */
  function ResolveIntended(e: Env, w: Worker, argv: Json, ph: string): (r: Result<string>)
    ensures !FallsToPeek(ph, argv) ==> r == Resolve(e, w, argv, ph)
    ensures FallsToPeek(ph, argv) ==> r == Peek(e, w, Value(ph))
  {
    if FallsToPeek(ph, argv) then Peek(e, w, Value(ph)) else Resolve(e, w, argv, ph)
  }

  /** Placeholders whose value the page is never asked for: the table, the
      arguments, and (when there are arguments) a position. */
  predicate PageFree(ph: string, argv: Json) {
    Value(ph) == TBLV || Value(ph) == ARGV || (IsDigits(Value(ph)) && Truthy(argv))
  }

  /** `scan(fmt, argv)` (worker.py:177-207): every placeholder of the text
      replaced, in order, by its resolved value. */
  function Scan(e: Env, w: Worker, fmt: Json, argv: Json): (r: Result<string>)
    ensures !fmt.JStr? ==> r == Failure(TypeError)
    ensures fmt.JStr? && FindPlaceholders(fmt.s) == [] ==> r == Success(fmt.s)
  {
    match fmt
    case JStr(s) => Substitute(s, FindPlaceholders(s), ph => Resolve(e, w, argv, ph))
    case _ => Failure(TypeError)
  }

  /** `scan` as evidently intended: the same substitution, with the
      intended `peek`. */
  function ScanIntended(e: Env, w: Worker, fmt: Json, argv: Json): (r: Result<string>)
    ensures !fmt.JStr? ==> r == Failure(TypeError)
    ensures fmt.JStr? && FindPlaceholders(fmt.s) == [] ==> r == Success(fmt.s)
    ensures fmt.JStr? && (forall k :: 0 <= k < |FindPlaceholders(fmt.s)| ==> !FallsToPeek(FindPlaceholders(fmt.s)[k], argv)) ==>
            r == Scan(e, w, fmt, argv)
  {
    match fmt
    case JStr(s) =>
      var phs := FindPlaceholders(s);
      assert (forall k :: 0 <= k < |phs| ==> !FallsToPeek(phs[k], argv)) ==>
             Substitute(s, phs, ph => ResolveIntended(e, w, argv, ph)) == Substitute(s, phs, ph => Resolve(e, w, argv, ph)) by {
        if forall k :: 0 <= k < |phs| ==> !FallsToPeek(phs[k], argv) {
          SubstituteAgrees(s, phs, ph => ResolveIntended(e, w, argv, ph), ph => Resolve(e, w, argv, ph));
        }
      }
      Substitute(s, phs, ph => ResolveIntended(e, w, argv, ph))
    case _ => Failure(TypeError)
  }

  /** `${n}` is one placeholder whose value is the digits of `n`. */
  lemma SlotPlaceholder(n: nat)
    ensures IsPlaceholder(Slot("${", n, "}")) && Value(Slot("${", n, "}")) == NatToString(n)
    ensures IsDigits(NatToString(n)) && DigitsValue(NatToString(n)) == n
  {
    var ph := Slot("${", n, "}");
    var digits := NatToString(n);
    assert ph == "${" + digits + "}";
    assert Value(ph) == digits;
    forall k | 2 <= k < |ph| - 1
      ensures ph[k] != '}' && ph[k] != '\n'
    {
      assert ph[k] == digits[k - 2];
      assert IsDigit(digits[k - 2]);
    }
    NatToStringRoundTrip(n);
  }

  /** With arguments, `${n}` resolves to the n-th argument. */
  lemma ResolveSlot(e: Env, w: Worker, argv: Json, n: nat)
    requires Truthy(argv)
    ensures Scan(e, w, JStr(Slot("${", n, "}")), argv) == Positional(argv, n)
  {
    var ph := Slot("${", n, "}");
    SlotPlaceholder(n);
    var digits := NatToString(n);
    assert digits[0] != TBLV[0] && digits != ARGV;
    assert Resolve(e, w, argv, ph) == Positional(argv, n);
    SinglePlaceholder(ph, p => Resolve(e, w, argv, p));
  }

  /** `${n}` with a list of string arguments is the n-th argument counted
      from 1; `${0}` is the last one and a number past the end raises
      `IndexError`. */
  lemma ScanPositional(e: Env, w: Worker, args: seq<string>, n: nat)
    requires args != []
    ensures var argv := JArr(seq(|args|, i requires 0 <= i < |args| => JStr(args[i])));
            Scan(e, w, JStr(Slot("${", n, "}")), argv) ==
            if n == 0 then Success(args[|args| - 1])
            else if n <= |args| then Success(args[n - 1])
            else Failure(IndexError)
  {
    var argv := JArr(seq(|args|, i requires 0 <= i < |args| => JStr(args[i])));
    ResolveSlot(e, w, argv, n);
  }

  /** Without arguments a number is not positional: it is looked up like
      any other name. */
  lemma ScanNumberWithoutArguments(e: Env, w: Worker, n: nat)
    ensures Scan(e, w, JStr(Slot("${", n, "}")), JNull) == Success(PeekAsWritten(e, w, NatToString(n)))
  {
    var ph := Slot("${", n, "}");
    SlotPlaceholder(n);
    var digits := NatToString(n);
    assert digits[0] != TBLV[0] && digits != ARGV && digits[0] != FINDV;
    SinglePlaceholder(ph, p => Resolve(e, w, JNull, p));
  }

  /** A scan whose placeholders are all table, argument or positional
      references does not depend on the page. */
  lemma ScanPageIndependent(e1: Env, e2: Env, w: Worker, s: string, argv: Json)
    requires e1.rt == e2.rt
    requires forall k :: 0 <= k < |FindPlaceholders(s)| ==> PageFree(FindPlaceholders(s)[k], argv)
    ensures Scan(e1, w, JStr(s), argv) == Scan(e2, w, JStr(s), argv)
  {
    SubstituteAgrees(s, FindPlaceholders(s), ph => Resolve(e1, w, argv, ph), ph => Resolve(e2, w, argv, ph));
  }

  /** A scan reads the table and the page, never the results. */
  lemma ScanIgnoresResults(e: Env, w: Worker, results: Table, fmt: Json, argv: Json)
    ensures Scan(e, w.(results := results), fmt, argv) == Scan(e, w, fmt, argv)
  {
    if fmt.JStr? {
      var s := fmt.s;
      var w1 := w.(results := results);
      forall k | 0 <= k < |FindPlaceholders(s)|
        ensures Resolve(e, w1, argv, FindPlaceholders(s)[k]) == Resolve(e, w, argv, FindPlaceholders(s)[k])
      {
        var value := Value(FindPlaceholders(s)[k]);
        assert Entry(w1, value) == Entry(w, value);
        assert Find(e, w1, JStr(value)) == Find(e, w, JStr(value));
        if value != [] {
          assert FindAll(e, w1, JStr(value[1..])) == FindAll(e, w, JStr(value[1..]));
        }
      }
      SubstituteAgrees(s, FindPlaceholders(s), ph => Resolve(e, w1, argv, ph), ph => Resolve(e, w, argv, ph));
      assert Scan(e, w1, fmt, argv) == Substitute(s, FindPlaceholders(s), ph => Resolve(e, w1, argv, ph));
    }
  }

  /** The characters of `['ab']`, joined by ", ". */
  lemma JoinCharactersExample()
    ensures Join(", ", Characters("['ab']")) == "[, ', a, b, ', ]"
  {
    var cs := Characters("['ab']");
    assert cs == ["[", "'", "a", "b", "'", "]"];
    assert Join(", ", cs[4..]) == "', ]" by { assert cs[4..][1..] == cs[5..] == ["]"]; }
    assert Join(", ", cs[3..]) == "b, ', ]" by { assert cs[3..][1..] == cs[4..]; }
    assert Join(", ", cs[2..]) == "a, b, ', ]" by { assert cs[2..][1..] == cs[3..]; }
    assert Join(", ", cs[1..]) == "', a, b, ', ]" by { assert cs[1..][1..] == cs[2..]; }
  }

  /** The `peek` of a list entry as written does not give the list's items:
      with Python's printed form `['ab']` of the list `["ab"]`, it gives
      the characters of that form, while the intended `peek` gives "ab". */
  lemma PeekListAsWritten(e: Env, w: Worker)
    requires e.rt.repr(JArr([JStr("ab")])) == "['ab']"
    requires w.tbl == Some([("k", JArr([JStr("ab")]))])
    ensures PeekAsWritten(e, w, "k") == "[, ', a, b, ', ]"
    ensures Peek(e, w, "k") == Success("ab")
  {
    var x := JArr([JStr("ab")]);
    assert Get(w.tbl.value, "k") == Some(x);
    assert Entry(w, "k") == Some(x);
    assert Str(e.rt, x) == "['ab']";
    JoinCharactersExample();
    var items: seq<Json> := [JStr("ab")];
    assert items[1..] == [];
    assert Strings(items[1..]) == Success([]);
    assert Strings(items) == Success([items[0].s] + []);
  }

  /** The same entry through `scan`: the worker as written puts the
      characters of the printed list into the text, the intended one the
      list's item. */
  lemma ScanListAsWritten(e: Env, w: Worker)
    requires e.rt.repr(JArr([JStr("ab")])) == "['ab']"
    requires w.tbl == Some([("k", JArr([JStr("ab")]))])
    ensures Scan(e, w, JStr("${k}"), JNull) == Success("[, ', a, b, ', ]")
    ensures ScanIntended(e, w, JStr("${k}"), JNull) == Success("ab")
  {
    var ph := "${k}";
    assert Value(ph) == "k";
    assert FallsToPeek(ph, JNull);
    assert IsPlaceholder(ph);
    PeekListAsWritten(e, w);
    SinglePlaceholder(ph, p => Resolve(e, w, JNull, p));
    SinglePlaceholder(ph, p => ResolveIntended(e, w, JNull, p));
  }

  /** The configured condition of a wait and its argument
      (worker.py:450-454). */
  function WaitRequest(e: Env, cfg: Settings, trace: Trace, target: Json, argv: Json): (r: Result<WaitSpec>)
    ensures r.Success? ==> Index(argv, 1).Success? && Index(argv, 1).value == JStr(r.value.condition)
    ensures r.Success? ==> Index(argv, 0).Success? && (r.value.negated <==> Index(argv, 0).value == JStr(UNTIL_NOT))
  {
    var op :- Index(argv, 0);
    var name :- Index(argv, 1);
    var kind :- ConditionKind(cfg, name);
    var arg :- WebKeys.ExpectedArg(e, trace, kind, target);
    Success(WaitSpec(op == JStr(UNTIL_NOT), name.s, arg))
  }

  /** `wait` (worker.py:438-471): `True` when the condition held in time,
      `False` on timeout; too short an `argv` raises `IndexError` and an
      unknown condition `ValueError`. */
  function Wait(e: Env, cfg: Settings, trace: Trace, target: Json, argv: Json): (r: Result<bool>)
    ensures r.Success? <==> WaitRequest(e, cfg, trace, target, argv).Success?
    ensures r.Success? ==> r.value == (e.page.until(trace, WaitRequest(e, cfg, trace, target, argv).value) == Satisfied)
    ensures argv.JArr? && |argv.items| < 2 ==> r == Failure(IndexError)
    ensures (argv.JArr? && |argv.items| >= 2 && argv.items[1].JStr? &&
             cfg.conditions(argv.items[1].s).None?) ==> r == Failure(ValueError)
  {
    var spec :- WaitRequest(e, cfg, trace, target, argv);
    Success(e.page.until(trace, spec) == Satisfied)
  }

  /** The command changed nothing but the trace, which it extended. */
  predicate OnlyActs(before: Worker, after: Worker) {
    after == before.(trace := after.trace) && before.trace <= after.trace
  }

  /** `click`, `click_and_hold`, `release`, `context_click`, `double_click`
      (worker.py:236-304): on the element if there is a target and it is
      found, at the cursor if there is no target; a missing element is
      skipped. */
  function PointerCommand(e: Env, w: Worker, kind: PointerKind, target: Json): (r: Worker)
    ensures OnlyActs(w, r)
    ensures !Truthy(target) ==> r == Act(w, Pointer(kind, None))
    ensures Truthy(target) ==> r == if e.page.first(w.trace, target).Some? then Act(w, Pointer(kind, Some(target))) else w
  {
    if Truthy(target) then
      if e.page.first(w.trace, target).Some? then Act(w, Pointer(kind, Some(target))) else w
    else Act(w, Pointer(kind, None))
  }

  /** `get` (worker.py:210-227): navigate, then the settling pause. */
  function Navigate(w: Worker, url: Json): (r: Worker)
    ensures OnlyActs(w, r) && r.trace == w.trace + [Action.Navigate(url), Settle]
  {
    Act(Act(w, Action.Navigate(url)), Settle)
  }

  /** `drag_and_drop` (worker.py:306-325): both ends must be found. */
  function DragAndDropCommand(e: Env, w: Worker, target: Json, argv: Json): (r: Result<Worker>)
    ensures r.Success? <==> Index(argv, 0).Success?
    ensures r.Success? ==> OnlyActs(w, r.value)
    ensures r.Success? && r.value != w ==>
            e.page.first(w.trace, target).Some? && e.page.first(w.trace, Index(argv, 0).value).Some? &&
            r.value == Act(w, DragAndDrop(target, Index(argv, 0).value))
  {
    var destLoc :- Index(argv, 0);
    var found := e.page.first(w.trace, target).Some? && e.page.first(w.trace, destLoc).Some?;
    Success(if found then Act(w, DragAndDrop(target, destLoc)) else w)
  }

  /** `drag_and_drop_by_offset`, `move_to_element_with_offset`
      (worker.py:327-347, 361-381). */
  function OffsetCommand(e: Env, w: Worker, drag: bool, target: Json, argv: Json): (r: Result<Worker>)
    ensures r.Success? <==> Offsets(e.rt, argv).Success?
    ensures r.Success? ==> OnlyActs(w, r.value)
    ensures r.Success? && e.page.first(w.trace, target).None? ==> r.value == w
    ensures r.Success? && e.page.first(w.trace, target).Some? ==>
            var (x, y) := Offsets(e.rt, argv).value;
            r.value == Act(w, if drag then DragByOffset(target, x, y) else MoveWithOffset(target, x, y))
  {
    var (x, y) :- Offsets(e.rt, argv);
    Success(if e.page.first(w.trace, target).Some?
            then Act(w, if drag then DragByOffset(target, x, y) else MoveWithOffset(target, x, y)) else w)
  }

  /** `move_to_element` (worker.py:349-359). */
  function MoveToCommand(e: Env, w: Worker, target: Json): (r: Worker)
    ensures r == if e.page.first(w.trace, target).Some? then Act(w, MoveTo(target)) else w
  {
    if e.page.first(w.trace, target).Some? then Act(w, MoveTo(target)) else w
  }

  /** `move_by_offset` (worker.py:383-400). */
  function MoveByCommand(rt: Runtime, w: Worker, argv: Json): (r: Result<Worker>)
    ensures r.Success? <==> Offsets(rt, argv).Success?
    ensures r.Success? ==> r.value == Act(w, MoveBy(Offsets(rt, argv).value.0, Offsets(rt, argv).value.1))
  {
    var (x, y) :- Offsets(rt, argv);
    Success(Act(w, MoveBy(x, y)))
  }

  /** `send_keys` (worker.py:402-418): to the element if there is a target
      and it is found, raw keyboard input if there is no target. */
  function SendKeysCommand(e: Env, cfg: Settings, w: Worker, target: Json, argv: Json): (r: Result<Worker>)
    ensures r.Success? ==> OnlyActs(w, r.value)
    ensures Truthy(target) && e.page.first(w.trace, target).None? ==> r == Success(w)
    ensures !Truthy(target) || e.page.first(w.trace, target).Some? ==>
            var on := if Truthy(target) then Some(target) else None;
            (r.Success? <==> WebKeys.Chain(cfg.keys, argv, on).Success?) &&
            (r.Success? ==> r.value == Act(w, KeyChain(WebKeys.Chain(cfg.keys, argv, on).value)))
  {
    if Truthy(target) && e.page.first(w.trace, target).None? then Success(w)
    else
      var steps :- WebKeys.Chain(cfg.keys, argv, if Truthy(target) then Some(target) else None);
      Success(Act(w, KeyChain(steps)))
  }

  /** `pause` (worker.py:420-436): the target must be a number of seconds.
      The handler for a bad number re-raises with a variable that was never
      assigned, so it ends in `UnboundLocalError`, never `ValueError`. */
  function PauseCommand(rt: Runtime, w: Worker, target: Json): (r: Result<Worker>)
    ensures r.Success? <==> Float(rt, target).Success?
    ensures r.Success? ==> r.value == Act(w, Sleep(target))
    ensures Float(rt, target) == Failure(ValueError) ==> r == Failure(UnboundLocal)
    ensures r.Failure? ==> r.error != ValueError
  {
    match Float(rt, target)
    case Success(_) => Success(Act(w, Sleep(target)))
    case Failure(err) => Failure(if err == ValueError then UnboundLocal else err)
  }

  /** `wait` as a command: its answer is dropped. */
  function WaitCommand(e: Env, cfg: Settings, w: Worker, target: Json, argv: Json): (r: Result<Worker>)
    ensures r.Success? <==> Wait(e, cfg, w.trace, target, argv).Success?
    ensures r.Success? ==> r.value == w
  {
    var _ :- Wait(e, cfg, w.trace, target, argv);
    Success(w)
  }

  /** `dget` (worker.py:474-483): navigate to the URL the table holds under
      the target, only when that entry is truthy. */
  function DGetCommand(w: Worker, target: Json): (r: Result<Worker>)
    ensures r.Success? && r.value != w ==>
            w.tbl.Some? && LutGet(w.tbl.value, target).Success? && LutGet(w.tbl.value, target).value.Some? &&
            Truthy(LutGet(w.tbl.value, target).value.value) &&
            r.value == Navigate(w, LutGet(w.tbl.value, target).value.value)
    ensures w.tbl.None? || w.tbl == Some([]) ==> r == Success(w)
  {
    if w.tbl.Some? && w.tbl.value != [] then
      var entry :- LutGet(w.tbl.value, target);
      if entry.Some? && Truthy(entry.value) then Success(Navigate(w, entry.value)) else Success(w)
    else Success(w)
  }

  /** The actions of `dsend_keys`: each string scanned (without arguments)
      and then sent as text, special keys expanded. */
  function ScannedSteps(e: Env, cfg: Settings, w: Worker, items: seq<Json>, on: Option<Json>): (r: Result<seq<KeyAction>>)
    requires forall i :: 0 <= i < |items| ==> items[i].JStr?
    ensures r.Success? ==> forall i :: 0 <= i < |r.value| ==> r.value[i].SendText? && r.value[i].on == on
    ensures r.Success? ==> |r.value| == |items|
    decreases |items|
  {
    if items == [] then Success([])
    else
      var v :- Scan(e, w, items[0], JNull);
      var first :- WebKeys.ItemSteps(cfg.keys, JStr(v), on);
      var rest :- ScannedSteps(e, cfg, w, items[1..], on);
      Success(first + rest)
  }

  /** `filter(lambda arg: isinstance(arg, str), argv)`. */
  function FilterStrings(items: seq<Json>): (r: seq<Json>)
    ensures forall i :: 0 <= i < |r| ==> r[i].JStr? && r[i] in items
    ensures forall i :: 0 <= i < |items| && items[i].JStr? ==> items[i] in r
  {
    if items == [] then []
    else (if items[0].JStr? then [items[0]] else []) + FilterStrings(items[1..])
  }

  /** `dsend_keys` (worker.py:485-501): the string items of `argv`, scanned
      lazily, so nothing is scanned when the target's element is missing. */
  function DSendKeysCommand(e: Env, cfg: Settings, w: Worker, target: Json, argv: Json): (r: Result<Worker>)
    ensures r.Success? ==> OnlyActs(w, r.value) && Iterate(argv).Success?
    ensures Truthy(target) && e.page.first(w.trace, target).None? && Iterate(argv).Success? ==> r == Success(w)
    ensures r.Success? && r.value != w ==>
            exists steps: seq<KeyAction> :: (r.value == Act(w, KeyChain(steps)) &&
                                             |steps| == |FilterStrings(Iterate(argv).value)| &&
                                             forall i :: 0 <= i < |steps| ==> steps[i].SendText?)
  {
    var items :- Iterate(argv);
    var strs := FilterStrings(items);
    var on := if Truthy(target) then Some(target) else None;
    if Truthy(target) && e.page.first(w.trace, target).None? then Success(w)
    else
      var steps :- ScannedSteps(e, cfg, w, strs, on);
      Success(Act(w, KeyChain(steps)))
  }

  /** The slot rule `next_argv_key` evidently stands for: the first slot
      `${n}`, counting from 1, that is missing or holds the empty string (the
      worker's tests read the first `printf` at `${1}`). */
  function ArgvKey(w: Worker): (r: string)
    ensures exists n: nat :: n >= 1 && r == Slot("${", n, "}") && !Filled(w.results, r) &&
                             forall m: nat :: 1 <= m < n ==> Filled(w.results, Slot("${", m, "}"))
  {
    Slot("${", FirstFree(w.results, "${", "}", 1), "}")
  }

  /** `printf` as written (worker.py:515): it calls `utils.next_argv_key`,
      which app/backend/webauto/models/utils.py does not define, so the
      command raises `AttributeError` before anything is stored. */
  function PrintfAsWritten(w: Worker, target: Json, argv: Json): (r: Result<Worker>)
    ensures r.Failure? && r.error == AttributeError
  {
    Failure(AttributeError)
  }

  /** `printf` as intended (worker.py:503-518): the first free slot gets ""
      and then, when there is a target, the scanned target. */
  function Printf(e: Env, w: Worker, target: Json, argv: Json): (r: Result<Worker>)
    ensures r.Success? ==> r.value == w.(results := r.value.results)
    ensures !Truthy(target) ==> r == Success(w.(results := Put(w.results, ArgvKey(w), "")))
    ensures Truthy(target) ==> (r.Success? <==> Scan(e, w, target, argv).Success?)
    ensures Truthy(target) && r.Success? ==> r.value.results == Put(w.results, ArgvKey(w), Scan(e, w, target, argv).value)
  {
    var key := ArgvKey(w);
    var w1 := w.(results := Put(w.results, key, ""));
    if Truthy(target) then
      ScanIgnoresResults(e, w, w1.results, target, argv);
      var v :- Scan(e, w1, target, argv);
      PutTwice(w.results, key, "", v);
      Success(w1.(results := Put(w1.results, key, v)))
    else Success(w1)
  }

  /** `write` (worker.py:521-532): wait for the target to be visible, and
      type into it only when the wait succeeded in time. */
  function WriteCommand(e: Env, cfg: Settings, w: Worker, target: Json, argv: Json): (r: Result<Worker>)
    ensures r.Success? ==> Wait(e, cfg, w.trace, target, JArr([JStr(UNTIL), JStr(VISIBILITY)])).Success?
    ensures Wait(e, cfg, w.trace, target, JArr([JStr(UNTIL), JStr(VISIBILITY)])) == Success(false) ==> r == Success(w)
    ensures Wait(e, cfg, w.trace, target, JArr([JStr(UNTIL), JStr(VISIBILITY)])) == Success(true) ==>
            r == DSendKeysCommand(e, cfg, w, target, argv)
  {
    var visible :- Wait(e, cfg, w.trace, target, JArr([JStr(UNTIL), JStr(VISIBILITY)]));
    if visible then DSendKeysCommand(e, cfg, w, target, argv) else Success(w)
  }

  /** The command names the worker answers to: its command methods. */
  const COMMANDS: set<string> := {
    "get", "refresh", "click", "click_and_hold", "release", "context_click",
    "double_click", "drag_and_drop", "drag_and_drop_by_offset", "move_to_element",
    "move_to_element_with_offset", "move_by_offset", "send_keys", "pause", "wait",
    "dget", "dsend_keys", "printf", "write"}

  /** One command: `getattr(self, label.lower())(target=..., argv=...)`
      (worker.py:80). */
  function Step(e: Env, cfg: Settings, w: Worker, c: Command): (r: Result<Worker>)
    ensures Lower(c.op) !in COMMANDS ==> r == Failure(UnknownCommand(Lower(c.op)))
    ensures Lower(c.op) == "printf" ==> r == Failure(AttributeError)
    ensures r.Success? ==> OnlyActs(w, r.value)
  {
    var name := Lower(c.op);
    var target := c.target;
    var argv := c.argv;
    if name == "get" then Success(Navigate(w, target))
    else if name == "refresh" then Success(Act(w, Refresh))
    else if name == "click" then Success(PointerCommand(e, w, Click, target))
    else if name == "click_and_hold" then Success(PointerCommand(e, w, ClickAndHold, target))
    else if name == "release" then Success(PointerCommand(e, w, Release, target))
    else if name == "context_click" then Success(PointerCommand(e, w, ContextClick, target))
    else if name == "double_click" then Success(PointerCommand(e, w, DoubleClick, target))
    else if name == "drag_and_drop" then DragAndDropCommand(e, w, target, argv)
    else if name == "drag_and_drop_by_offset" then OffsetCommand(e, w, true, target, argv)
    else if name == "move_to_element" then Success(MoveToCommand(e, w, target))
    else if name == "move_to_element_with_offset" then OffsetCommand(e, w, false, target, argv)
    else if name == "move_by_offset" then MoveByCommand(e.rt, w, argv)
    else if name == "send_keys" then SendKeysCommand(e, cfg, w, target, argv)
    else if name == "pause" then PauseCommand(e.rt, w, target)
    else if name == "wait" then WaitCommand(e, cfg, w, target, argv)
    else if name == "dget" then DGetCommand(w, target)
    else if name == "dsend_keys" then DSendKeysCommand(e, cfg, w, target, argv)
    else if name == "printf" then PrintfAsWritten(w, target, argv)
    else if name == "write" then WriteCommand(e, cfg, w, target, argv)
    else Failure(UnknownCommand(name))
  }

  /** Slots that hold text keep it: a later state agrees with an earlier
      one on every taken slot. */
  ghost predicate KeepsFilled(before: Table, after: Table) {
    forall k :: Filled(before, k) ==> Get(after, k) == Get(before, k)
  }

  /** What a run may change: it extends the trace, keeps taken slots, and
      leaves the sequence, the table and the assignment log alone. */
  ghost predicate Follows(before: Worker, after: Worker) {
    after.task == before.task && after.tbl == before.tbl && after.log == before.log &&
    before.trace <= after.trace && KeepsFilled(before.results, after.results)
  }

  /** Every command only adds to the trace. */
  lemma StepFollows(e: Env, cfg: Settings, w: Worker, c: Command)
    requires Step(e, cfg, w, c).Success?
    ensures Follows(w, Step(e, cfg, w, c).value)
  {
  }

  /** The intended `printf` only adds to the results: taken slots keep their
      text, since it writes a slot that was free. */
  lemma PrintfFollows(e: Env, w: Worker, target: Json, argv: Json)
    requires Printf(e, w, target, argv).Success?
    ensures Follows(w, Printf(e, w, target, argv).value)
  {
    var r := Printf(e, w, target, argv).value;
    var key := ArgvKey(w);
    forall k | Filled(w.results, k)
      ensures Get(r.results, k) == Get(w.results, k)
    {
      if Truthy(target) {
        PutGet(w.results, key, Scan(e, w, target, argv).value, k);
      } else {
        PutGet(w.results, key, "", k);
      }
    }
  }

  /** One command with `printf` as intended; every other command as written. */
  function StepIntended(e: Env, cfg: Settings, w: Worker, c: Command): (r: Result<Worker>)
    ensures Lower(c.op) != "printf" ==> r == Step(e, cfg, w, c)
    ensures Lower(c.op) == "printf" ==> r == Printf(e, w, c.target, c.argv)
    ensures r.Success? ==> Follows(w, r.value)
  {
    if Lower(c.op) == "printf" then
      var r := Printf(e, w, c.target, c.argv);
      assert r.Success? ==> Follows(w, r.value) by {
        if r.Success? { PrintfFollows(e, w, c.target, c.argv); }
      }
      r
    else
      var r := Step(e, cfg, w, c);
      assert r.Success? ==> Follows(w, r.value) by {
        if r.Success? { StepFollows(e, cfg, w, c); }
      }
      r
  }

  /** The commands run in order; the first failure ends the run. */
  function Run(e: Env, cfg: Settings, w: Worker, cmds: seq<Command>): (r: Result<Worker>)
    ensures r.Success? ==> Follows(w, r.value)
    decreases |cmds|
  {
    if cmds == [] then Success(w)
    else
      var w1 :- Step(e, cfg, w, cmds[0]);
      StepFollows(e, cfg, w, cmds[0]);
      Run(e, cfg, w1, cmds[1..])
  }

  /** `run(tbl)` (worker.py:64-81): take the table, run every command of the
      assigned sequence, return the worker whose `results` are the response. */
  function Exec(e: Env, cfg: Settings, w: Worker, tbl: Option<Lut>): (r: Result<Worker>)
    ensures w.task.None? ==> r == Failure(AttributeError)
    ensures r.Success? ==> r.value.tbl == tbl && r.value.task == w.task && r.value.log == w.log
    ensures r.Success? ==> w.trace <= r.value.trace && KeepsFilled(w.results, r.value.results)
  {
    var s :- Need(w.task, AttributeError);
    Run(e, cfg, w.(tbl := tbl), s.cmds)
  }

  /** As written, no run gets past a `printf`: a sequence holding one never
      completes, whatever comes before it. */
  lemma {:induction false} RunStopsAtPrintf(e: Env, cfg: Settings, w: Worker, cmds: seq<Command>, i: nat)
    requires i < |cmds| && Lower(cmds[i].op) == "printf"
    ensures Run(e, cfg, w, cmds).Failure?
    decreases i
  {
    if i > 0 {
      var r := Step(e, cfg, w, cmds[0]);
      if r.Success? {
        RunStopsAtPrintf(e, cfg, r.value, cmds[1..], i - 1);
      }
    }
  }

  /** The intended run: the commands in order with `printf` storing its
      text; the first failure ends the run. */
  function RunIntended(e: Env, cfg: Settings, w: Worker, cmds: seq<Command>): (r: Result<Worker>)
    ensures r.Success? ==> Follows(w, r.value)
    ensures (forall i :: 0 <= i < |cmds| ==> Lower(cmds[i].op) != "printf") ==> r == Run(e, cfg, w, cmds)
    decreases |cmds|
  {
    if cmds == [] then Success(w)
    else
      var w1 :- StepIntended(e, cfg, w, cmds[0]);
      assert forall i :: 0 <= i < |cmds[1..]| ==> cmds[1..][i] == cmds[i + 1];
      RunIntended(e, cfg, w1, cmds[1..])
  }
}
