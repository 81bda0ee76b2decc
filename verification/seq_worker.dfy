/** The older webauto worker (app/backend/webauto/models/models.py,
    `Worker`): runs a loaded `Sequence` against the browser and collects its
    output in `stdout`, a table from keys (XPaths and `stdoutN`) to text.

    Unlike the newer worker, this one looks elements up with Selenium's
    raising look-up (a missing element is `NoSuchElementException`) and acts
    only on displayed elements; most handlers log some errors and let the
    run go on, which the model shows as the state left unchanged.
 */
module SeqWorker {
  import opened Wrappers
  import opened Text
  import opened Assoc
  import opened PyJson
  import opened Browser
  import opened Placeholders
  import opened Slots
  import opened Script
  import opened WebModels
  import WebKeys

  /** The placeholder `printf` replaces by all the arguments. */
  const ALL_ARGS: string := "${@}"

  /** The worker's `FIND` and `FIND_ALL` patterns: the matches of each in a
      text, in order.  Each match is `${xpath}`-shaped: its XPath is
      `match[2:-1]`. */
  datatype Patterns = Patterns(find: string -> seq<string>, findAll: string -> seq<string>)

  datatype Worker = Worker(sequence: Option<Sequence>, stdout: Table, trace: Trace)

  /** A worker just created: nothing loaded, nothing done. */
  function Fresh(): Worker {
    Worker(None, [], [])
  }

  /** `load` (models.py:133-139). */
  function Load(w: Worker, s: Sequence): (r: Worker)
    ensures r.sequence == Some(s) && r.stdout == w.stdout && r.trace == w.trace
  {
    w.(sequence := Some(s))
  }

  /** Record one browser action. The same as `InaDriver.Act`, but on the
      sequence `Worker` record; the records share no trait to define it once. */
  function Act(w: Worker, a: Action): (r: Worker)
    ensures r.trace == w.trace + [a]
  {
    w.(trace := w.trace + [a])
  }

  /** `find_element_by_xpath` (models.py:155-163): raises when nothing
      matches. */
  function Located(e: Env, w: Worker, target: Json): (r: Result<Elem>)
    ensures r.Success? <==> e.page.first(w.trace, target).Some?
    ensures r.Success? ==> r.value == e.page.first(w.trace, target).value
    ensures r.Failure? ==> r.error == NoSuchElement
  {
    Need(e.page.first(w.trace, target), NoSuchElement)
  }

  /** A handler's `except` clauses that only log: those errors leave the
      state as it was and the run goes on. */
  function Swallow(w: Worker, r: Result<Worker>, caught: set<Error>): (q: Result<Worker>)
    ensures r.Success? ==> q == r
    ensures r.Failure? && r.error in caught ==> q == Success(w)
    ensures q.Failure? ==> q == r && q.error !in caught
  {
    if r.Failure? && r.error in caught then Success(w) else r
  }

  /** The command changed nothing but the trace, which it extended. */
  predicate OnlyActs(before: Worker, after: Worker) {
    after == before.(trace := after.trace) && before.trace <= after.trace
  }

  /** `click`, `click_and_hold`, `release`, `context_click`, `double_click`
      (models.py:193-261): on the element when there is a target and the
      element is displayed, at the cursor when there is no target. */
  function PointerCommand(e: Env, w: Worker, kind: PointerKind, target: Json): (r: Result<Worker>)
    ensures !Truthy(target) ==> r == Success(Act(w, Pointer(kind, None)))
    ensures Truthy(target) ==> (r.Success? <==> e.page.first(w.trace, target).Some?)
    ensures Truthy(target) && r.Success? ==>
            r.value == if e.page.first(w.trace, target).value.displayed then Act(w, Pointer(kind, Some(target))) else w
  {
    if Truthy(target) then
      var elem :- Located(e, w, target);
      Success(if elem.displayed then Act(w, Pointer(kind, Some(target))) else w)
    else Success(Act(w, Pointer(kind, None)))
  }

  /** `drag_and_drop` (models.py:263-281): the source, then the destination
      named by `argv[0]`; both must be displayed.  A missing `argv[0]` is
      logged and skipped. */
  function DragAndDropCommand(e: Env, w: Worker, target: Json, argv: Json): (r: Result<Worker>)
    ensures r.Failure? ==> r.error != IndexError
    ensures r.Success? ==> OnlyActs(w, r.value)
    ensures e.page.first(w.trace, target).Some? && Index(argv, 0) == Failure(IndexError) ==> r == Success(w)
    ensures r.Success? && r.value != w ==>
            Index(argv, 0).Success? &&
            e.page.first(w.trace, target).Some? && e.page.first(w.trace, target).value.displayed &&
            e.page.first(w.trace, Index(argv, 0).value).Some? &&
            e.page.first(w.trace, Index(argv, 0).value).value.displayed &&
            r.value == Act(w, DragAndDrop(target, Index(argv, 0).value))
  {
    var attempt := (
      var source :- Located(e, w, target);
      var destLoc :- Index(argv, 0);
      var dest :- Located(e, w, destLoc);
      Success(if source.displayed && dest.displayed then Act(w, DragAndDrop(target, destLoc)) else w));
    Swallow(w, attempt, {IndexError})
  }

  /** `drag_and_drop_by_offset`, `move_to_element_with_offset`
      (models.py:283-302, 316-335): the element, then the two offsets;
      missing offsets are logged and skipped, bad ones raise. */
  function OffsetCommand(e: Env, w: Worker, drag: bool, target: Json, argv: Json): (r: Result<Worker>)
    ensures r.Failure? ==> r.error != IndexError
    ensures r.Success? ==> OnlyActs(w, r.value)
    ensures e.page.first(w.trace, target).None? ==> r == Failure(NoSuchElement)
    ensures e.page.first(w.trace, target).Some? && Offsets(e.rt, argv).Success? ==>
            var (x, y) := Offsets(e.rt, argv).value;
            r == Success(if e.page.first(w.trace, target).value.displayed
                         then Act(w, if drag then DragByOffset(target, x, y) else MoveWithOffset(target, x, y))
                         else w)
  {
    var attempt := (
      var elem :- Located(e, w, target);
      var (x, y) :- Offsets(e.rt, argv);
      Success(if elem.displayed
              then Act(w, if drag then DragByOffset(target, x, y) else MoveWithOffset(target, x, y))
              else w));
    Swallow(w, attempt, {IndexError})
  }

  /** `move_to_element` (models.py:304-314). */
  function MoveToCommand(e: Env, w: Worker, target: Json): (r: Result<Worker>)
    ensures r.Success? <==> e.page.first(w.trace, target).Some?
    ensures r.Success? ==> r.value == if e.page.first(w.trace, target).value.displayed then Act(w, MoveTo(target)) else w
  {
    var elem :- Located(e, w, target);
    Success(if elem.displayed then Act(w, MoveTo(target)) else w)
  }

  /** `move_by_offset` (models.py:337-353). */
  function MoveByCommand(rt: Runtime, w: Worker, argv: Json): (r: Result<Worker>)
    ensures r.Failure? ==> r.error != IndexError
    ensures Offsets(rt, argv).Success? ==> r == Success(Act(w, MoveBy(Offsets(rt, argv).value.0, Offsets(rt, argv).value.1)))
    ensures Index(argv, 0).Success? && Int(rt, Index(argv, 0).value).Success? && Index(argv, 1) == Failure(IndexError) ==>
            r == Success(w)
  {
    var attempt := (
      var (x, y) :- Offsets(rt, argv);
      Success(Act(w, MoveBy(x, y))));
    Swallow(w, attempt, {IndexError})
  }

  /** `send_keys` (models.py:355-379): to the displayed element, or raw
      keyboard input without a target; missing list entries and unknown
      special keys are logged and skipped. */
  function SendKeysCommand(cfg: Settings, e: Env, w: Worker, target: Json, argv: Json): (r: Result<Worker>)
    ensures r.Failure? ==> r.error != IndexError && r.error != KeyError
    ensures r.Success? ==> OnlyActs(w, r.value)
    ensures Truthy(target) && e.page.first(w.trace, target).None? ==> r == Failure(NoSuchElement)
    ensures r.Success? && r.value != w ==>
            var on := if Truthy(target) then Some(target) else None;
            WebKeys.Chain(cfg.keys, argv, on).Success? &&
            r.value == Act(w, KeyChain(WebKeys.Chain(cfg.keys, argv, on).value))
  {
    var attempt :=
      if Truthy(target) then
        var elem :- Located(e, w, target);
        if elem.displayed then
          var steps :- WebKeys.Chain(cfg.keys, argv, Some(target));
          Success(Act(w, KeyChain(steps)))
        else Success(w)
      else
        var steps :- WebKeys.Chain(cfg.keys, argv, None);
        Success(Act(w, KeyChain(steps)));
    Swallow(w, attempt, {IndexError, KeyError})
  }

  /** `pause` (models.py:381-396): the target must be a number of seconds;
      the only error it catches cannot occur. */
  function PauseCommand(rt: Runtime, w: Worker, target: Json): (r: Result<Worker>)
    ensures r.Success? <==> Float(rt, target).Success?
    ensures r.Success? ==> r.value == Act(w, Sleep(target))
    ensures r.Failure? ==> r.error == Float(rt, target).error
  {
    var _ :- Float(rt, target);
    Success(Act(w, Sleep(target)))
  }

  /** `wait` (models.py:398-427): waits and drops the outcome.  Too short an
      `argv`, an unknown condition and a bad integer are logged; a timeout
      is too. */
  function WaitCommand(cfg: Settings, e: Env, w: Worker, target: Json, argv: Json): (r: Result<Worker>)
    ensures r.Success? ==> r.value == w
    ensures r.Failure? ==> r.error in {KeyError, TypeError, NoSuchElement}
    ensures Index(argv, 1) == Failure(IndexError) ==> r == Success(w)
    ensures argv.JArr? && |argv.items| >= 2 && argv.items[1].JStr? && cfg.conditions(argv.items[1].s).None? ==>
            r == Success(w)
  {
    var attempt := (
      var _ :- Index(argv, 0);
      var name :- Index(argv, 1);
      var kind :- ConditionKind(cfg, name);
      var _ :- WebKeys.ExpectedArg(e, w.trace, kind, target);
      Success(w));
    Swallow(w, attempt, {IndexError, ValueError})
  }

  /** `find` (models.py:429-441): `stdout[xpath]` becomes "" and then the
      element's text if it is displayed. */
  function FindInto(e: Env, w: Worker, xpath: string): (r: Result<Worker>)
    ensures r.Success? <==> e.page.first(w.trace, JStr(xpath)).Some?
    ensures r.Success? ==>
            var elem := e.page.first(w.trace, JStr(xpath)).value;
            r.value == w.(stdout := Put(w.stdout, xpath, if elem.displayed then elem.text else ""))
  {
    var cleared := w.(stdout := Put(w.stdout, xpath, ""));
    var elem :- Located(e, w, JStr(xpath));
    if elem.displayed then
      PutTwice(w.stdout, xpath, "", elem.text);
      Success(cleared.(stdout := Put(cleared.stdout, xpath, elem.text)))
    else Success(cleared)
  }

  /** The texts of the displayed elements, in order. */
  function DisplayedTexts(elems: seq<Elem>): (r: seq<string>)
    ensures |r| <= |elems|
    ensures forall i :: 0 <= i < |elems| && elems[i].displayed ==> elems[i].text in r
    ensures forall t :: t in r ==> exists i :: 0 <= i < |elems| && elems[i].displayed && elems[i].text == t
    decreases |elems|
  {
    if elems == [] then []
    else
      var rest := DisplayedTexts(elems[1..]);
      assert forall i :: 1 <= i < |elems| ==> elems[i] == elems[1..][i - 1];
      (if elems[0].displayed then [elems[0].text] else []) + rest
  }

  /** `find_all` (models.py:443-459): `stdout[xpath]` becomes the displayed
      texts joined by ", ", "" when none is displayed. */
  function FindAllInto(e: Env, w: Worker, xpath: string): (r: Worker)
    ensures r == w.(stdout := Put(w.stdout, xpath, Join(", ", DisplayedTexts(e.page.all(w.trace, JStr(xpath))))))
    ensures DisplayedTexts(e.page.all(w.trace, JStr(xpath))) == [] ==> Get(r.stdout, xpath) == Some("")
  {
    var cleared := w.(stdout := Put(w.stdout, xpath, ""));
    var texts := DisplayedTexts(e.page.all(w.trace, JStr(xpath)));
    PutTwice(w.stdout, xpath, "", Join(", ", texts));
    PutGet(w.stdout, xpath, Join(", ", texts), xpath);
    if texts != [] then cleared.(stdout := Put(cleared.stdout, xpath, Join(", ", texts))) else cleared
  }

  /** What the `idx`-th placeholder of a `printf` target becomes
      (models.py:478-479): all the arguments for `${@}`, else `argv[idx]`. */
  function PositionalValue(argv: Json, ph: string, idx: nat): (r: Result<string>)
    ensures ph == ALL_ARGS && !Truthy(argv) ==> r == Success("")
    ensures ph == ALL_ARGS && argv.JArr? ==>
            (r.Success? <==> Strings(argv.items).Success?) &&
            (r.Success? ==> r.value == Join(", ", Strings(argv.items).value))
    ensures ph != ALL_ARGS ==> (r.Success? <==> Index(argv, idx).Success? && Index(argv, idx).value.JStr?)
    ensures ph != ALL_ARGS && r.Success? ==> JStr(r.value) == Index(argv, idx).value
    ensures ph != ALL_ARGS && argv.JArr? && idx >= |argv.items| ==> r == Failure(IndexError)
  {
    if ph == ALL_ARGS then
      var items :- if Truthy(argv) then Iterate(argv) else Success([]);
      var strs :- Strings(items);
      Success(Join(", ", strs))
    else
      var x :- Index(argv, idx);
      if x.JStr? then Success(x.s) else Failure(TypeError)
  }

  /** The positional pass of `printf` (models.py:476-482): the placeholders
      of the original target, numbered from `idx`, each replaced in turn
      wherever it still occurs; one with no argument is logged and left. */
  function Positional(t: string, phs: seq<string>, idx: nat, argv: Json): (r: Result<string>)
    ensures r.Failure? ==> r.error != IndexError
    decreases |phs|
  {
    if phs == [] then Success(t)
    else
      var v := PositionalValue(argv, phs[0], idx);
      if v.Failure? && v.error == IndexError then Positional(t, phs[1..], idx + 1, argv)
      else
        var s :- v;
        Positional(ReplaceAll(t, phs[0], s), phs[1..], idx + 1, argv)
  }

  /** Placeholders past the end of a list of arguments are left as they
      are: the run is not aborted. */
  lemma {:induction false} PositionalPastEnd(t: string, phs: seq<string>, idx: nat, args: seq<Json>)
    requires idx >= |args|
    requires forall k :: 0 <= k < |phs| ==> phs[k] != ALL_ARGS
    ensures Positional(t, phs, idx, JArr(args)) == Success(t)
    decreases |phs|
  {
    if phs != [] {
      PositionalPastEnd(t, phs[1..], idx + 1, args);
    }
  }

  /** The match-driven passes of `printf` (models.py:484-492): each match's
      XPath is looked up, which records it in `stdout`, and the match is
      replaced by what was recorded. */
  function Scrape(e: Env, w: Worker, t: string, ms: seq<string>, all: bool): (r: Result<(Worker, string)>)
    ensures r.Success? ==> r.value.0.sequence == w.sequence && r.value.0.trace == w.trace
    ensures ms == [] ==> r == Success((w, t))
    ensures r.Failure? ==> r.error == NoSuchElement
    decreases |ms|
  {
    if ms == [] then Success((w, t))
    else
      var xpath := Value(ms[0]);
      var w1 :- if all then Success(FindAllInto(e, w, xpath)) else FindInto(e, w, xpath);
      // the look-up has just set `stdout[xpath]`
      Scrape(e, w1, ReplaceAll(t, ms[0], Get(w1.stdout, xpath).GetOr("")), ms[1..], all)
  }

  /** A text neither `FIND` nor `FIND_ALL` matches in. */
  predicate NoMatches(pats: Patterns, t: string) {
    pats.find(t) == [] && pats.findAll(t) == []
  }

  /** `printf` (models.py:461-494): the next `stdoutN` slot gets "" and then,
      when there is a target, the target with its positional placeholders,
      then its `FIND` matches, then its `FIND_ALL` matches replaced. */
  function Printf(e: Env, pats: Patterns, w: Worker, target: Json, argv: Json): (r: Result<Worker>)
    ensures !Truthy(target) ==> r == Success(w.(stdout := Put(w.stdout, WebKeys.NextDictKey(w.stdout), "")))
    ensures Truthy(target) && !target.JStr? ==> r == Failure(TypeError)
    ensures r.Success? ==> r.value.sequence == w.sequence && r.value.trace == w.trace
    ensures r.Success? ==> Get(r.value.stdout, WebKeys.NextDictKey(w.stdout)).Some?
    ensures r.Failure? ==> r.error != IndexError
    ensures Truthy(target) && target.JStr? && Positional(target.s, FindPlaceholders(target.s), 0, argv).Failure? ==>
            r == Failure(Positional(target.s, FindPlaceholders(target.s), 0, argv).error)
    ensures Truthy(target) && target.JStr? && Positional(target.s, FindPlaceholders(target.s), 0, argv).Success? &&
            NoMatches(pats, Positional(target.s, FindPlaceholders(target.s), 0, argv).value) ==>
            r == Success(w.(stdout := Put(w.stdout, WebKeys.NextDictKey(w.stdout),
                                           Positional(target.s, FindPlaceholders(target.s), 0, argv).value)))
  {
    var key := WebKeys.NextDictKey(w.stdout);
    var w1 := w.(stdout := Put(w.stdout, key, ""));
    if !Truthy(target) then
      PutGet(w.stdout, key, "", key);
      Success(w1)
    else if !target.JStr? then Failure(TypeError)
    else
      var t1 :- Positional(target.s, FindPlaceholders(target.s), 0, argv);
      var found :- Scrape(e, w1, t1, pats.find(t1), false);
      var scraped :- Scrape(e, found.0, found.1, pats.findAll(found.1), true);
      PutGet(scraped.0.stdout, key, scraped.1, key);
      PutTwice(w.stdout, key, "", scraped.1);
      Success(scraped.0.(stdout := Put(scraped.0.stdout, key, scraped.1)))
  }

  /** A target with no placeholders and no matches is stored as it is in
      the next free `stdoutN` slot. */
  lemma PrintfPlain(e: Env, pats: Patterns, w: Worker, t: string, argv: Json)
    requires t != "" && FindPlaceholders(t) == [] && NoMatches(pats, t)
    ensures Printf(e, pats, w, JStr(t), argv) == Success(w.(stdout := Put(w.stdout, WebKeys.NextDictKey(w.stdout), t)))
  {
    PutTwice(w.stdout, WebKeys.NextDictKey(w.stdout), "", t);
  }

  /** A target that is one placeholder stores the first argument. */
  lemma PrintfArgument(e: Env, pats: Patterns, w: Worker, ph: string, x: string)
    requires IsPlaceholder(ph) && ph != ALL_ARGS && NoMatches(pats, x)
    ensures Printf(e, pats, w, JStr(ph), JArr([JStr(x)])) ==
            Success(w.(stdout := Put(w.stdout, WebKeys.NextDictKey(w.stdout), x)))
  {
    var argv := JArr([JStr(x)]);
    SinglePlaceholder(ph, p => Success(p));
    assert PositionalValue(argv, ph, 0) == Success(x);
    ReplaceAllAtFront(ph, ph, x, []);
    assert ReplaceAll(ph, ph, x) == x;
    assert [ph][1..] == [];
    assert Positional(ph, FindPlaceholders(ph), 0, argv) == Positional(x, [], 1, argv) == Success(x);
  }

  /** Two plain outputs on a fresh `stdout` land at `stdout1` and `stdout2`. */
  lemma TwoPrintfs(e: Env, pats: Patterns, w: Worker, t1: string, t2: string, argv: Json)
    requires w.stdout == []
    requires t1 != "" && FindPlaceholders(t1) == [] && NoMatches(pats, t1)
    requires t2 != "" && FindPlaceholders(t2) == [] && NoMatches(pats, t2)
    ensures Printf(e, pats, w, JStr(t1), argv).Success?
    ensures Printf(e, pats, Printf(e, pats, w, JStr(t1), argv).value, JStr(t2), argv) ==
            Success(w.(stdout := [("stdout1", t1), ("stdout2", t2)]))
  {
    var s1 := Slot("stdout", 1, "");
    var s2 := Slot("stdout", 2, "");
    assert s1 == "stdout1" && s2 == "stdout2";
    var k1 := WebKeys.NextDictKey([]);
    var n1: nat :| n1 >= 1 && k1 == Slot("stdout", n1, "") &&
                   forall m: nat :: 1 <= m < n1 ==> Filled([], Slot("stdout", m, ""));
    assert !Filled([], Slot("stdout", 1, ""));
    assert k1 == s1;
    PrintfPlain(e, pats, w, t1, argv);
    var w1 := w.(stdout := [(s1, t1)]);
    assert Put(w.stdout, k1, t1) == w1.stdout;
    var k2 := WebKeys.NextDictKey(w1.stdout);
    var n2: nat :| n2 >= 1 && k2 == Slot("stdout", n2, "") && !Filled(w1.stdout, k2) &&
                   forall m: nat :: 1 <= m < n2 ==> Filled(w1.stdout, Slot("stdout", m, ""));
    assert Filled(w1.stdout, s1) && !Filled(w1.stdout, s2);
    assert k2 == s2 && s1 != s2;
    assert Put(w1.stdout, k2, t2) == [(s1, t1), (s2, t2)];
    PrintfPlain(e, pats, w1, t2, argv);
  }

  /** Once a slot holds text, the next `printf` writes elsewhere. */
  lemma PrintfMovesOn(stdout: Table, t: string)
    requires t != ""
    ensures WebKeys.NextDictKey(Put(stdout, WebKeys.NextDictKey(stdout), t)) != WebKeys.NextDictKey(stdout)
  {
    var key := WebKeys.NextDictKey(stdout);
    PutGet(stdout, key, t, key);
    assert Filled(Put(stdout, key, t), key);
  }

  /** The command names the worker answers to: its command methods. */
  const COMMANDS: set<string> := {
    "get", "refresh", "click", "click_and_hold", "release", "context_click",
    "double_click", "drag_and_drop", "drag_and_drop_by_offset", "move_to_element",
    "move_to_element_with_offset", "move_by_offset", "send_keys", "pause", "wait",
    "find", "find_all", "printf"}

  /** Commands that write to `stdout`. */
  const WRITERS: set<string> := {"find", "find_all", "printf"}

  /** One command: `getattr(self, cmd.label.lower())(target=..., argv=...)`
      (models.py:152).  `find` and `find_all` key `stdout` by their target,
      which must be a string here. */
  function Step(cfg: Settings, e: Env, pats: Patterns, w: Worker, c: Command): (r: Result<Worker>)
    ensures Lower(c.op) !in COMMANDS ==> r == Failure(UnknownCommand(Lower(c.op)))
    ensures r.Success? ==> r.value.sequence == w.sequence && w.trace <= r.value.trace
    ensures r.Success? && Lower(c.op) !in WRITERS ==> r.value.stdout == w.stdout
    ensures r.Success? && Lower(c.op) in WRITERS ==> r.value.trace == w.trace
  {
    var name := Lower(c.op);
    var target := c.target;
    var argv := c.argv;
    if name == "get" then Success(Act(w, Navigate(target)))
    else if name == "refresh" then Success(Act(w, Refresh))
    else if name == "click" then PointerCommand(e, w, Click, target)
    else if name == "click_and_hold" then PointerCommand(e, w, ClickAndHold, target)
    else if name == "release" then PointerCommand(e, w, Release, target)
    else if name == "context_click" then PointerCommand(e, w, ContextClick, target)
    else if name == "double_click" then PointerCommand(e, w, DoubleClick, target)
    else if name == "drag_and_drop" then DragAndDropCommand(e, w, target, argv)
    else if name == "drag_and_drop_by_offset" then OffsetCommand(e, w, true, target, argv)
    else if name == "move_to_element" then MoveToCommand(e, w, target)
    else if name == "move_to_element_with_offset" then OffsetCommand(e, w, false, target, argv)
    else if name == "move_by_offset" then MoveByCommand(e.rt, w, argv)
    else if name == "send_keys" then SendKeysCommand(cfg, e, w, target, argv)
    else if name == "pause" then PauseCommand(e.rt, w, target)
    else if name == "wait" then WaitCommand(cfg, e, w, target, argv)
    else if name == "find" then (if target.JStr? then FindInto(e, w, target.s) else Failure(TypeError))
    else if name == "find_all" then (if target.JStr? then Success(FindAllInto(e, w, target.s)) else Failure(TypeError))
    else if name == "printf" then Printf(e, pats, w, target, argv)
    else Failure(UnknownCommand(name))
  }

  /** The commands in order; the first error that escapes its handler ends
      the run. */
  function Run(cfg: Settings, e: Env, pats: Patterns, w: Worker, cmds: seq<Command>): (r: Result<Worker>)
    ensures r.Success? ==> r.value.sequence == w.sequence && w.trace <= r.value.trace
    ensures (forall i :: 0 <= i < |cmds| ==> Lower(cmds[i].op) !in WRITERS) && r.Success? ==> r.value.stdout == w.stdout
    decreases |cmds|
  {
    if cmds == [] then Success(w)
    else
      var w1 :- Step(cfg, e, pats, w, cmds[0]);
      assert forall i :: 1 <= i < |cmds| ==> cmds[i] == cmds[1..][i - 1];
      Run(cfg, e, pats, w1, cmds[1..])
  }

  /** `run` (models.py:141-153): a fresh `stdout`, then every command of the
      loaded sequence; the final `stdout` is the answer. */
  function Exec(cfg: Settings, e: Env, pats: Patterns, w: Worker): (r: Result<Worker>)
    ensures w.sequence.None? ==> r == Failure(AttributeError)
    ensures r.Success? ==> r.value.sequence == w.sequence && w.trace <= r.value.trace
    ensures r.Success? && (forall i :: 0 <= i < |w.sequence.value.cmds| ==> Lower(w.sequence.value.cmds[i].op) !in WRITERS) ==>
            r.value.stdout == []
  {
    var s :- Need(w.sequence, AttributeError);
    Run(cfg, e, pats, w.(stdout := []), s.cmds)
  }

  /** What a run produces does not depend on an earlier run's output. */
  lemma ExecForgets(cfg: Settings, e: Env, pats: Patterns, w: Worker, earlier: Table)
    ensures Exec(cfg, e, pats, w.(stdout := earlier)) == Exec(cfg, e, pats, w)
  {
    assert w.(stdout := earlier).(stdout := []) == w.(stdout := []);
  }
}
