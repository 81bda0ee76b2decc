/** The ina executor (project/server/tasks/ina/driver.py): runs the commands
    of the assigned task against the browser, keeping a look-up table
    (`lut`) given per run and a table of `printf` results.

    The driver's state is immutable here: every handler returns the next
    state.  Everything done to the browser is appended to `trace`; the page
    answers look-ups as a function of that trace.  A handler that raises is
    a `Failure` naming the exception; the state reached before it is not
    kept.
 */
module InaDriver {
  import opened Wrappers
  import opened Text
  import opened Assoc
  import opened PyJson
  import opened Browser
  import opened Placeholders
  import opened Slots
  import opened Script
  import opened InaModels

  /** Sigils inside `${...}`: the whole look-up table, all results, and the
      find-all prefix (the values the driver's tests use). */
  const LUTV: string := "@#"
  const ARGV: string := "@"
  const FINDV: char := '@'

  const NOT_FOUND: string := "N/F"
  const NOT_AVAILABLE: string := "N/A"
  const UNTIL: string := "UNTIL"
  const UNTIL_NOT: string := "UNTIL_NOT"
  const PRESENCE: string := "PRESENCE_OF_ELEMENT_LOCATED"

  /** `log` is the debug log of `assign` (driver.py:81): one key per call. */
  datatype Driver = Driver(
    task: Option<Task>,
    lut: Option<Lut>,
    results: Table,
    trace: Trace,
    log: seq<Key>)

  /** A driver just created: no task, nothing done yet. */
  function Fresh(): Driver {
    Driver(None, None, [], [], [])
  }

  /** `taskkey` (driver.py:62-71): the assigned task's key, `None` before any. */
  function TaskKey(d: Driver): (r: Option<Key>)
    ensures r.Some? <==> d.task.Some?
    ensures r.Some? ==> r.value == d.task.value.key
  {
    match d.task
    case None => None
    case Some(t) => Some(t.key)
  }

  /** `reset` (driver.py:83-89): empty look-up table and results. */
  function Reset(d: Driver): (r: Driver)
    ensures r.lut == Some([]) && r.results == []
    ensures r.task == d.task && r.trace == d.trace && r.log == d.log
  {
    d.(lut := Some([]), results := [])
  }

  /** `assign` (driver.py:74-81): reset, then take the task. */
  function Assign(d: Driver, t: Task): (r: Driver)
    ensures TaskKey(r) == Some(t.key) && r.task == Some(t)
    ensures r.lut == Some([]) && r.results == []
    ensures r.trace == d.trace && r.log == d.log + [t.key]
  {
    Reset(d).(task := Some(t), log := d.log + [t.key])
  }

  function Act(d: Driver, a: Action): (r: Driver)
    ensures r.trace == d.trace + [a]
  {
    d.(trace := d.trace + [a])
  }

  /** `argvkey` (driver.py:112-124): the first slot `${n}`, counting from 0,
      that is missing or holds the empty string. */
  function ArgvKey(d: Driver): (r: string)
    ensures exists n: nat :: r == Slot("${", n, "}") && !Filled(d.results, r) &&
                             forall m: nat :: m < n ==> Filled(d.results, Slot("${", m, "}"))
  {
    Slot("${", FirstFree(d.results, "${", "}", 0), "}")
  }

  /** The condition argument for a non-element kind
      (`parse_expected_condition`, driver.py:263-283). */
  function PlainArg(rt: Runtime, kind: ArgKind, target: Json): (r: Result<CondArg>)
    requires kind != ElementKind
  {
    match kind
    case IntegerKind =>
      var n :- Int(rt, target);
      Success(IntArg(n))
    case LocatorKind => Success(LocatorArg(ByXPath, target))
    case RawKind => Success(RawArg(target))
  }

  /** The presence wait inside `find_element(s)_by_xpath` (driver.py:139,
      163): `wait(target, ("UNTIL", "PRESENCE_OF_ELEMENT_LOCATED"))`.  A
      presence condition configured as an element condition would look the
      element up by waiting for it again, without end. */
  function PresenceWait(e: Env, cfg: Settings, trace: Trace, target: Json): (r: Result<bool>)
  {
    match cfg.conditions(PRESENCE)
    case None => Failure(ValueError)
    case Some(ElementKind) => Failure(RecursionError)
    case Some(kind) =>
      var arg :- PlainArg(e.rt, kind, target);
      Success(e.page.until(trace, WaitSpec(false, PRESENCE, arg)) == Satisfied)
  }

  /** `find_element_by_xpath` (driver.py:126-148): after a successful
      presence wait the element must be there; after a timeout a missing
      element is `None`. */
  function FindElement(e: Env, cfg: Settings, trace: Trace, target: Json): (r: Result<Option<Elem>>)
    ensures r.Success? ==> r.value == e.page.first(trace, target)
    ensures PresenceWait(e, cfg, trace, target) == Success(false) ==> r == Success(e.page.first(trace, target))
  {
    var present :- PresenceWait(e, cfg, trace, target);
    var found := e.page.first(trace, target);
    if present && found.None? then Failure(NoSuchElement) else Success(found)
  }

  /** `find_elements_by_xpath` (driver.py:150-172). */
  function FindElements(e: Env, cfg: Settings, trace: Trace, target: Json): (r: Result<seq<Elem>>)
    ensures r.Success? <==> PresenceWait(e, cfg, trace, target).Success?
    ensures r.Success? ==> r.value == e.page.all(trace, target)
  {
    var _ :- PresenceWait(e, cfg, trace, target);
    Success(e.page.all(trace, target))
  }

  /** `find` (driver.py:174-191): the first element's text, or "N/F". */
  function Find(e: Env, cfg: Settings, trace: Trace, target: Json): (r: Result<string>)
    ensures r.Success? <==> FindElement(e, cfg, trace, target).Success?
    ensures r.Success? && e.page.first(trace, target).None? ==> r.value == NOT_FOUND
    ensures r.Success? && e.page.first(trace, target).Some? ==> r.value == e.page.first(trace, target).value.text
  {
    var elem :- FindElement(e, cfg, trace, target);
    Success(if elem.Some? then elem.value.text else NOT_FOUND)
  }

  /** `find_all` (driver.py:193-212): the texts joined by "; ", or "N/F"
      when nothing matches. */
  function FindAll(e: Env, cfg: Settings, trace: Trace, target: Json): (r: Result<string>)
    ensures r.Success? <==> PresenceWait(e, cfg, trace, target).Success?
    ensures r.Success? && e.page.all(trace, target) == [] ==> r.value == NOT_FOUND
    ensures r.Success? && e.page.all(trace, target) != [] ==> r.value == Join("; ", Texts(e.page.all(trace, target)))
  {
    var elems :- FindElements(e, cfg, trace, target);
    Success(if elems == [] then NOT_FOUND else Join("; ", Texts(elems)))
  }

  /** `wait` (driver.py:582-615): `argv` names the operation and the
      condition; `True` when the condition held in time, `False` on timeout. */
  function Wait(e: Env, cfg: Settings, trace: Trace, target: Json, argv: Json): (r: Result<bool>)
    ensures Index(argv, 1).Failure? ==> r.Failure?
    ensures argv.JArr? && |argv.items| < 2 ==> r == Failure(IndexError)
    ensures (argv.JArr? && |argv.items| >= 2 && argv.items[1].JStr? &&
             cfg.conditions(argv.items[1].s).None?) ==> r == Failure(ValueError)
    ensures r.Success? ==> Index(argv, 1).Success? && Index(argv, 1).value.JStr? &&
                           cfg.conditions(Index(argv, 1).value.s).Some?
    ensures r.Success? ==>
      exists spec: WaitSpec :: (spec.negated == (Index(argv, 0).value == JStr(UNTIL_NOT)) &&
                                spec.condition == Index(argv, 1).value.s &&
                                r.value == (e.page.until(trace, spec) == Satisfied))
  {
    var op :- Index(argv, 0);
    var name :- Index(argv, 1);
    var kind :- ConditionKind(cfg, name);
    var arg :- if kind == ElementKind then
                 var elem :- FindElement(e, cfg, trace, target);
                 Success(ElementArg(elem))
               else PlainArg(e.rt, kind, target);
    var spec := WaitSpec(op == JStr(UNTIL_NOT), name.s, arg);
    Success(e.page.until(trace, spec) == Satisfied)
  }

  /** The presence wait of the element look-ups is the command `wait` with
      the fixed arguments ("UNTIL", "PRESENCE_OF_ELEMENT_LOCATED"), whenever
      presence is not configured as an element condition. */
  lemma PresenceWaitIsWait(e: Env, cfg: Settings, trace: Trace, target: Json)
    requires cfg.conditions(PRESENCE) != Some(ElementKind)
    ensures PresenceWait(e, cfg, trace, target) == Wait(e, cfg, trace, target, JArr([JStr(UNTIL), JStr(PRESENCE)]))
  {
  }

  /** `peek` (driver.py:302-323): a truthy look-up table entry rendered as
      text, otherwise the text of the element the key locates. */
  function Peek(e: Env, cfg: Settings, d: Driver, key: string): (r: Result<string>)
    ensures d.lut.None? ==> r == Failure(AttributeError)
    ensures (d.lut.Some? && Get(d.lut.value, key).Some? && Get(d.lut.value, key).value.JStr? &&
             Get(d.lut.value, key).value.s != "") ==> r == Success(Get(d.lut.value, key).value.s)
    ensures d.lut.Some? && (Get(d.lut.value, key).None? || !Truthy(Get(d.lut.value, key).value)) ==>
            r == Find(e, cfg, d.trace, JStr(key))
    ensures var v := if d.lut.Some? then Get(d.lut.value, key) else None;
            v.Some? && v.value.JArr? && v.value.items != [] ==>
              (r.Success? <==> forall i :: 0 <= i < |v.value.items| ==> v.value.items[i].JStr?) &&
              (r.Failure? ==> r.error == TypeError) &&
              (r.Success? ==> Strings(v.value.items).Success? && r.value == Join(", ", Strings(v.value.items).value))
    ensures var v := if d.lut.Some? then Get(d.lut.value, key) else None;
            v.Some? && v.value.JObj? && v.value.fields != [] ==> r == Success(e.rt.dumps(v.value))
    ensures var v := if d.lut.Some? then Get(d.lut.value, key) else None;
            v.Some? && Truthy(v.value) && (v.value.JNum? || v.value.JBool?) ==> r == Success(Str(e.rt, v.value))
  {
    var lut :- Need(d.lut, AttributeError);
    var v := Get(lut, key);
    if v.Some? && Truthy(v.value) then
      var x := v.value;
      match x
      case JStr(s) => Success(s)
      case JArr(xs) =>
        var strs :- Strings(xs);
        Success(Join(", ", strs))
      case JObj(_) => Success(e.rt.dumps(x))
      case _ => Success(Str(e.rt, x))
    else Find(e, cfg, d.trace, JStr(key))
  }

  /** One `key: value` item of the `${@#}` expansion. */
  function LutItems(rt: Runtime, lut: Lut): (r: seq<string>)
    ensures |r| == |lut|
    ensures forall i :: 0 <= i < |lut| ==> r[i] == lut[i].0 + ": " + Str(rt, lut[i].1)
  {
    seq(|lut|, i requires 0 <= i < |lut| => lut[i].0 + ": " + Str(rt, lut[i].1))
  }

  /** What one placeholder is replaced by in `scan` (driver.py:336-347):
      `${@#}` the table as "key: value" items, `${@}` the results, `${n}`
      the numbered result or "N/A", `${@x}` every text found for `x`, and
      any other `${x}` what `peek` gives for `x`. */
  function Resolve(e: Env, cfg: Settings, d: Driver, ph: string): (r: Result<string>)
    ensures Value(ph) == LUTV && d.lut.None? ==> r == Failure(AttributeError)
    ensures Value(ph) == LUTV && d.lut.Some? ==> r == Success(Join(", ", LutItems(e.rt, d.lut.value)))
    ensures Value(ph) == ARGV ==> r == Success(Join(", ", Values(d.results)))
    ensures IsDigits(Value(ph)) ==> r == Success(Get(d.results, ph).GetOr(NOT_AVAILABLE))
    ensures Value(ph) == "" ==> r == Failure(IndexError)
    ensures |Value(ph)| >= 1 && Value(ph)[0] == FINDV && Value(ph) != LUTV && Value(ph) != ARGV ==>
            r == FindAll(e, cfg, d.trace, JStr(Value(ph)[1..]))
    ensures |Value(ph)| >= 1 && Value(ph)[0] != FINDV && !IsDigits(Value(ph)) ==> r == Peek(e, cfg, d, Value(ph))
  {
    assert !IsDigits(LUTV) && !IsDigits(ARGV) by {
      assert LUTV[0] == '@' && ARGV[0] == '@';
    }
    var value := Value(ph);
    if value == LUTV then
      var lut :- Need(d.lut, AttributeError);
      Success(Join(", ", LutItems(e.rt, lut)))
    else if value == ARGV then Success(Join(", ", Values(d.results)))
    else if IsDigits(value) then Success(Get(d.results, ph).GetOr(NOT_AVAILABLE))
    else if value == "" then Failure(IndexError)
    else if value[0] == FINDV then FindAll(e, cfg, d.trace, JStr(value[1..]))
    else Peek(e, cfg, d, value)
  }

  /** Placeholders whose value the page is never asked for. */
  predicate PageFree(ph: string) {
    Value(ph) == LUTV || Value(ph) == ARGV || IsDigits(Value(ph))
  }

  /** `scan` (driver.py:325-349): every placeholder of the target replaced,
      in order, by its resolved value. */
  function Scan(e: Env, cfg: Settings, d: Driver, target: Json): (r: Result<string>)
    ensures !target.JStr? ==> r == Failure(TypeError)
    ensures target.JStr? && FindPlaceholders(target.s) == [] ==> r == Success(target.s)
  {
    match target
    case JStr(s) => Substitute(s, FindPlaceholders(s), ph => Resolve(e, cfg, d, ph))
    case _ => Failure(TypeError)
  }

  /** A scan whose placeholders are all look-up-table, result-list or
      numbered-result references does not depend on the page. */
  lemma ScanPageIndependent(e1: Env, e2: Env, cfg: Settings, d: Driver, s: string)
    requires e1.rt == e2.rt
    requires forall k :: 0 <= k < |FindPlaceholders(s)| ==> PageFree(FindPlaceholders(s)[k])
    ensures Scan(e1, cfg, d, JStr(s)) == Scan(e2, cfg, d, JStr(s))
  {
    SubstituteAgrees(s, FindPlaceholders(s), ph => Resolve(e1, cfg, d, ph), ph => Resolve(e2, cfg, d, ph));
  }

  /** A scan fails exactly when one of its placeholders cannot be resolved. */
  lemma ScanFailsIff(e: Env, cfg: Settings, d: Driver, s: string)
    ensures Scan(e, cfg, d, JStr(s)).Failure? <==>
            exists k :: 0 <= k < |FindPlaceholders(s)| && Resolve(e, cfg, d, FindPlaceholders(s)[k]).Failure?
  {
    SubstituteFailsIff(s, FindPlaceholders(s), ph => Resolve(e, cfg, d, ph));
  }

  /** The key steps of one `argv` item of `enact_key_actions`
      (driver.py:235-261): a list is `[logic, keys]`; anything else is text
      sent as a whole.  Special keys are expanded first. */
  function ItemSteps(cfg: Settings, rt: Runtime, item: Json, on: Option<Json>): (r: Result<seq<KeyAction>>)
    ensures r.Success? ==> forall i :: 0 <= i < |r.value| ==> r.value[i].on == on
    ensures r.Success? && !item.JArr? ==> |r.value| == 1 && r.value[0].SendText?
    ensures item.JArr? && |item.items| < 2 ==> r == Failure(IndexError)
  {
    if item.JArr? then
      var logic :- Index(item, 0);
      var raw :- Index(item, 1);
      var keys :- if raw.JStr? then SpecialKeys(raw.s, cfg.keys) else Failure(TypeError);
      Success(if logic == JStr(SEND) then [KeyStep(logic, keys, on)] else PerCharacter(logic, keys, on))
    else
      var keys :- SpecialKeys(Str(rt, item), cfg.keys);
      Success([KeyStep(JStr(SEND), keys, on)])
  }

  /** The steps of all items, in order; the first failing item ends it. */
  function ItemsSteps(cfg: Settings, rt: Runtime, items: seq<Json>, on: Option<Json>): (r: Result<seq<KeyAction>>)
    ensures r.Success? ==> forall i :: 0 <= i < |r.value| ==> r.value[i].on == on
    decreases |items|
  {
    if items == [] then Success([])
    else
      var first :- ItemSteps(cfg, rt, items[0], on);
      var rest :- ItemsSteps(cfg, rt, items[1..], on);
      Success(first + rest)
  }

  /** `enact_key_actions(on, argv)`: one action chain, performed once. */
  function Enact(e: Env, cfg: Settings, d: Driver, on: Option<Json>, argv: Json): (r: Result<Driver>)
    ensures r.Success? ==>
      exists steps: seq<KeyAction> :: (r.value == Act(d, KeyChain(steps)) &&
                                       forall i :: 0 <= i < |steps| ==> steps[i].on == on)
  {
    var items :- Iterate(argv);
    var steps :- ItemsSteps(cfg, e.rt, items, on);
    Success(Act(d, KeyChain(steps)))
  }

  /** The steps of `dsend_keys`: each string item scanned, then sent as text. */
  function ScannedSteps(e: Env, cfg: Settings, d: Driver, items: seq<Json>, on: Option<Json>): (r: Result<seq<KeyAction>>)
    ensures r.Success? ==> forall i :: 0 <= i < |r.value| ==> r.value[i].on == on && r.value[i].SendText?
    decreases |items|
  {
    if items == [] then Success([])
    else
      var first :- if items[0].JStr? then
                     var v :- Scan(e, cfg, d, items[0]);
                     ItemSteps(cfg, e.rt, JStr(v), on)
                   else Success([]);
      var rest :- ScannedSteps(e, cfg, d, items[1..], on);
      Success(first + rest)
  }

  /** The command changed nothing but the trace, which it extended. */
  predicate OnlyActs(before: Driver, after: Driver) {
    after == before.(trace := after.trace) && before.trace <= after.trace
  }

  /** `click`, `click_and_hold`, `release`, `context_click`, `double_click`
      (driver.py:380-448): on the located element if there is a target and
      it is found, at the cursor if there is no target. */
  function PointerCommand(e: Env, cfg: Settings, d: Driver, kind: PointerKind, target: Json): (r: Result<Driver>)
    ensures !Truthy(target) ==> r == Success(Act(d, Pointer(kind, None)))
    ensures Truthy(target) ==> (r.Success? <==> FindElement(e, cfg, d.trace, target).Success?)
    ensures Truthy(target) && r.Success? ==>
            r.value == if e.page.first(d.trace, target).Some? then Act(d, Pointer(kind, Some(target))) else d
  {
    if Truthy(target) then
      var elem :- FindElement(e, cfg, d.trace, target);
      Success(if elem.Some? then Act(d, Pointer(kind, Some(target))) else d)
    else Success(Act(d, Pointer(kind, None)))
  }

  /** `get` (driver.py:352-371): navigate, then the settling pause. */
  function Navigate(d: Driver, url: Json): (r: Driver)
    ensures OnlyActs(d, r) && r.trace == d.trace + [Action.Navigate(url), Settle]
  {
    Act(Act(d, Action.Navigate(url)), Settle)
  }

  /** `drag_and_drop` (driver.py:450-469): both ends must be found. */
  function DragAndDropCommand(e: Env, cfg: Settings, d: Driver, target: Json, argv: Json): (r: Result<Driver>)
    ensures r.Success? ==> OnlyActs(d, r.value)
    ensures Index(argv, 0).Failure? && FindElement(e, cfg, d.trace, target).Success? ==> r.Failure?
    ensures r.Success? && r.value != d ==>
            e.page.first(d.trace, target).Some? && Index(argv, 0).Success? &&
            e.page.first(d.trace, Index(argv, 0).value).Some? &&
            r.value == Act(d, DragAndDrop(target, Index(argv, 0).value))
  {
    var src :- FindElement(e, cfg, d.trace, target);
    var destLoc :- Index(argv, 0);
    var dest :- FindElement(e, cfg, d.trace, destLoc);
    Success(if src.Some? && dest.Some? then Act(d, DragAndDrop(target, destLoc)) else d)
  }

  /** `drag_and_drop_by_offset`, `move_to_element_with_offset`
      (driver.py:471-491, 505-525): the element first, then the offsets. */
  function OffsetCommand(e: Env, cfg: Settings, d: Driver, drag: bool, target: Json, argv: Json): (r: Result<Driver>)
    ensures r.Success? ==> OnlyActs(d, r.value) && Offsets(e.rt, argv).Success?
    ensures r.Success? && e.page.first(d.trace, target).None? ==> r.value == d
    ensures r.Success? && e.page.first(d.trace, target).Some? ==>
            var (x, y) := Offsets(e.rt, argv).value;
            r.value == Act(d, if drag then DragByOffset(target, x, y) else MoveWithOffset(target, x, y))
  {
    var src :- FindElement(e, cfg, d.trace, target);
    var (x, y) :- Offsets(e.rt, argv);
    Success(if src.Some? then Act(d, if drag then DragByOffset(target, x, y) else MoveWithOffset(target, x, y)) else d)
  }

  /** `move_to_element` (driver.py:493-503). */
  function MoveToCommand(e: Env, cfg: Settings, d: Driver, target: Json): (r: Result<Driver>)
    ensures r.Success? <==> FindElement(e, cfg, d.trace, target).Success?
    ensures r.Success? ==> r.value == if e.page.first(d.trace, target).Some? then Act(d, MoveTo(target)) else d
  {
    var elem :- FindElement(e, cfg, d.trace, target);
    Success(if elem.Some? then Act(d, MoveTo(target)) else d)
  }

  /** `move_by_offset` (driver.py:527-544). */
  function MoveByCommand(rt: Runtime, d: Driver, argv: Json): (r: Result<Driver>)
    ensures r.Success? <==> Offsets(rt, argv).Success?
    ensures r.Success? ==> r.value == Act(d, MoveBy(Offsets(rt, argv).value.0, Offsets(rt, argv).value.1))
  {
    var (x, y) :- Offsets(rt, argv);
    Success(Act(d, MoveBy(x, y)))
  }

  /** `send_keys` (driver.py:546-562): to the located element if found, to
      the page when there is no target. */
  function SendKeysCommand(e: Env, cfg: Settings, d: Driver, target: Json, argv: Json): (r: Result<Driver>)
    ensures r.Success? ==> OnlyActs(d, r.value)
    ensures !Truthy(target) ==> r == Enact(e, cfg, d, None, argv)
    ensures Truthy(target) && e.page.first(d.trace, target).None? && r.Success? ==> r.value == d
  {
    if Truthy(target) then
      var elem :- FindElement(e, cfg, d.trace, target);
      if elem.Some? then Enact(e, cfg, d, Some(target), argv) else Success(d)
    else Enact(e, cfg, d, None, argv)
  }

  /** `pause` (driver.py:564-580): the target must be a number of seconds. */
  function PauseCommand(rt: Runtime, d: Driver, target: Json): (r: Result<Driver>)
    ensures r.Success? <==> Float(rt, target).Success?
    ensures r.Success? ==> r.value == Act(d, Sleep(target))
    ensures target.JNull? ==> r == Failure(TypeError)
  {
    var _ :- Float(rt, target);
    Success(Act(d, Sleep(target)))
  }

  /** `wait` as a command: its answer is dropped. */
  function WaitCommand(e: Env, cfg: Settings, d: Driver, target: Json, argv: Json): (r: Result<Driver>)
    ensures r.Success? <==> Wait(e, cfg, d.trace, target, argv).Success?
    ensures r.Success? ==> r.value == d
  {
    var _ :- Wait(e, cfg, d.trace, target, argv);
    Success(d)
  }

  /** `dget` (driver.py:618-628): navigate to the scanned target. */
  function DGetCommand(e: Env, cfg: Settings, d: Driver, target: Json): (r: Result<Driver>)
    ensures r.Success? <==> Scan(e, cfg, d, target).Success?
    ensures r.Success? ==> r.value == Navigate(d, JStr(Scan(e, cfg, d, target).value))
  {
    var url :- Scan(e, cfg, d, target);
    Success(Navigate(d, JStr(url)))
  }

  /** `dclick` (driver.py:630-640): click the scanned target; an empty scan
      clicks at the cursor. */
  function DClickCommand(e: Env, cfg: Settings, d: Driver, target: Json): (r: Result<Driver>)
    ensures r.Success? ==> OnlyActs(d, r.value) && Scan(e, cfg, d, target).Success?
    ensures Scan(e, cfg, d, target) == Success("") ==> r == Success(Act(d, Pointer(Click, None)))
  {
    var t :- Scan(e, cfg, d, target);
    PointerCommand(e, cfg, d, Click, JStr(t))
  }

  /** `dsend_keys` (driver.py:642-659): the string items of `argv`, each
      scanned, sent as text to the located element or the page. */
  function DSendKeysCommand(e: Env, cfg: Settings, d: Driver, target: Json, argv: Json): (r: Result<Driver>)
    ensures r.Success? ==> OnlyActs(d, r.value) && Iterate(argv).Success?
    ensures r.Success? && r.value != d ==>
            exists steps: seq<KeyAction> :: (r.value == Act(d, KeyChain(steps)) &&
                                             forall i :: 0 <= i < |steps| ==> steps[i].SendText?)
  {
    var items :- Iterate(argv);
    var strs := FilterStrings(items);
    if Truthy(target) then
      var elem :- FindElement(e, cfg, d.trace, target);
      if elem.Some? then
        var steps :- ScannedSteps(e, cfg, d, strs, Some(target));
        Success(Act(d, KeyChain(steps)))
      else Success(d)
    else
      var steps :- ScannedSteps(e, cfg, d, strs, None);
      Success(Act(d, KeyChain(steps)))
  }

  /** `printf` (driver.py:661-674): the first free slot gets "" and then,
      when there is a target, the scanned target. */
  function Printf(e: Env, cfg: Settings, d: Driver, target: Json): (r: Result<Driver>)
    ensures r.Success? ==> r.value == d.(results := r.value.results)
    ensures r.Success? ==> exists v :: (r.value.results == Put(d.results, ArgvKey(d), v) &&
                                       (!Truthy(target) ==> v == "") &&
                                       (Truthy(target) ==> Scan(e, cfg, d.(results := Put(d.results, ArgvKey(d), "")), target) == Success(v)))
    ensures Truthy(target) && !target.JStr? ==> r == Failure(TypeError)
  {
    var key := ArgvKey(d);
    var d1 := d.(results := Put(d.results, key, ""));
    if Truthy(target) then
      var v :- Scan(e, cfg, d1, target);
      assert Put(d1.results, key, v) == Put(d.results, key, v) by { PutTwice(d.results, key, "", v); }
      Success(d1.(results := Put(d1.results, key, v)))
    else Success(d1)
  }

  /** The command names the driver answers to: its command methods, which
      all take `target` and `argv`. */
  const COMMANDS: set<string> := {
    "get", "refresh", "click", "click_and_hold", "release", "context_click",
    "double_click", "drag_and_drop", "drag_and_drop_by_offset", "move_to_element",
    "move_to_element_with_offset", "move_by_offset", "send_keys", "pause", "wait",
    "dget", "dclick", "dsend_keys", "printf"}

  /** One command: `getattr(self, label.lower())(target=..., argv=...)`
      (driver.py:105-107). */
  function Step(e: Env, cfg: Settings, d: Driver, c: Command): (r: Result<Driver>)
    ensures Lower(c.op) !in COMMANDS ==> r == Failure(UnknownCommand(Lower(c.op)))
    ensures Lower(c.op) == "printf" ==> r == Printf(e, cfg, d, c.target)
    ensures Lower(c.op) != "printf" && r.Success? ==> OnlyActs(d, r.value)
  {
    var name := Lower(c.op);
    var target := c.target;
    var argv := c.argv;
    if name == "get" then Success(Navigate(d, target))
    else if name == "refresh" then Success(Act(d, Refresh))
    else if name == "click" then PointerCommand(e, cfg, d, Click, target)
    else if name == "click_and_hold" then PointerCommand(e, cfg, d, ClickAndHold, target)
    else if name == "release" then PointerCommand(e, cfg, d, Release, target)
    else if name == "context_click" then PointerCommand(e, cfg, d, ContextClick, target)
    else if name == "double_click" then PointerCommand(e, cfg, d, DoubleClick, target)
    else if name == "drag_and_drop" then DragAndDropCommand(e, cfg, d, target, argv)
    else if name == "drag_and_drop_by_offset" then OffsetCommand(e, cfg, d, true, target, argv)
    else if name == "move_to_element" then MoveToCommand(e, cfg, d, target)
    else if name == "move_to_element_with_offset" then OffsetCommand(e, cfg, d, false, target, argv)
    else if name == "move_by_offset" then MoveByCommand(e.rt, d, argv)
    else if name == "send_keys" then SendKeysCommand(e, cfg, d, target, argv)
    else if name == "pause" then PauseCommand(e.rt, d, target)
    else if name == "wait" then WaitCommand(e, cfg, d, target, argv)
    else if name == "dget" then DGetCommand(e, cfg, d, target)
    else if name == "dclick" then DClickCommand(e, cfg, d, target)
    else if name == "dsend_keys" then DSendKeysCommand(e, cfg, d, target, argv)
    else if name == "printf" then Printf(e, cfg, d, target)
    else Failure(UnknownCommand(name))
  }

  /** `filter(lambda arg: isinstance(arg, str), argv)`. */
  function FilterStrings(items: seq<Json>): (r: seq<Json>)
    ensures forall i :: 0 <= i < |r| ==> r[i].JStr? && r[i] in items
    ensures forall i :: 0 <= i < |items| && items[i].JStr? ==> items[i] in r
  {
    if items == [] then []
    else (if items[0].JStr? then [items[0]] else []) + FilterStrings(items[1..])
  }

  /** Slots that hold text keep it: a state reached later agrees with an
      earlier one on every taken slot. */
  ghost predicate KeepsFilled(before: Table, after: Table) {
    forall k :: Filled(before, k) ==> Get(after, k) == Get(before, k)
  }

  /** What a run may change: it extends the trace, keeps taken slots, and
      leaves the task, the table and the assignment log alone. */
  ghost predicate Follows(before: Driver, after: Driver) {
    after.task == before.task && after.lut == before.lut && after.log == before.log &&
    before.trace <= after.trace && KeepsFilled(before.results, after.results)
  }

  /** `printf` writes only the free slot it picked. */
  lemma PrintfKeepsFilled(e: Env, cfg: Settings, d: Driver, target: Json)
    requires Printf(e, cfg, d, target).Success?
    ensures Follows(d, Printf(e, cfg, d, target).value)
  {
    var r := Printf(e, cfg, d, target).value;
    var key := ArgvKey(d);
    var v :| r.results == Put(d.results, key, v);
    forall k | Filled(d.results, k)
      ensures Get(r.results, k) == Get(d.results, k)
    {
      PutGet(d.results, key, v, k);
    }
  }

  /** Every command only adds to the trace and to the results. */
  lemma StepFollows(e: Env, cfg: Settings, d: Driver, c: Command)
    requires Step(e, cfg, d, c).Success?
    ensures Follows(d, Step(e, cfg, d, c).value)
  {
    if Lower(c.op) == "printf" {
      PrintfKeepsFilled(e, cfg, d, c.target);
    }
  }

  /** The commands run in order; the first failure ends the run. */
  function Run(e: Env, cfg: Settings, d: Driver, cmds: seq<Command>): (r: Result<Driver>)
    ensures r.Success? ==> Follows(d, r.value)
    decreases |cmds|
  {
    if cmds == [] then Success(d)
    else
      var d1 :- Step(e, cfg, d, cmds[0]);
      StepFollows(e, cfg, d, cmds[0]);
      Run(e, cfg, d1, cmds[1..])
  }

  /** `exec` (driver.py:92-109): take the look-up table, run every command of
      the assigned task, return the driver whose `results` are the response. */
  function Exec(e: Env, cfg: Settings, d: Driver, lut: Option<Lut>): (r: Result<Driver>)
    ensures d.task.None? ==> r == Failure(AttributeError)
    ensures r.Success? ==> r.value.lut == lut && r.value.task == d.task && r.value.log == d.log
    ensures r.Success? ==> d.trace <= r.value.trace && KeepsFilled(d.results, r.value.results)
  {
    var t :- Need(d.task, AttributeError);
    Run(e, cfg, d.(lut := lut), t.cmds)
  }
}
