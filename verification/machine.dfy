/** The cyclic machine of app/machine/model.py: a list of actions run one
    per call of `next`, round and round, and a text stream that `write`
    fills line by line and `flush` or `close_file` hands to a file.

    The browser, the clock and the file system are outside the model: what
    the page shows, whether a file exists and whether a browser action
    succeeds are answered by a `World` of functions, and every effect on
    them is appended to the machine's `deeds`.  The placeholder patterns
    the machine matches (`constant.POSITIONAL`, `ELEM`, `ELEMS`) are not
    part of this model, so they are part of the `World` too.
 */
module StateMachine {
  import opened Wrappers
  import opened Text
  import opened Placeholders

  /** `Action(name, key, arguments)` (model.py:21-29). */
  datatype Action = Action(name: string, key: string, arguments: seq<string>)

  /** A sleep: `idle` sleeps a configured time, `wait` the given seconds. */
  datatype Pause = Idle | Seconds(decimal: string)

  /** What `time.sleep(float(s))` makes of a string `s`: `float` rejects
      it, or it is a duration the clock can sleep, or a negative number or
      NaN that `sleep` rejects, or a number too large for the clock
      (infinity among them). */
  datatype Decimal = Malformed | Duration | Negative | NotANumber | TooLarge

  /** What the machine did to the world outside it. */
  datatype Deed =
    | Slept(pause: Pause)
    | Browsed(key: string, argv: seq<string>)
    | Wrote(path: string, text: string, append: bool)

  /** `stream` is `None` until the machine is entered (model.py:46-48);
      `path` is `None` when no file was named. */
  datatype Machine = Machine(
    actions: seq<Action>,
    counter: nat,
    stream: Option<string>,
    path: Option<string>,
    deeds: seq<Deed>)

  /** The matches of each placeholder pattern in a text, in order. */
  datatype Patterns = Patterns(
    positional: string -> seq<string>,
    elem: string -> seq<string>,
    elems: string -> seq<string>)

  /** `located(deeds, xpath)`: the text of the first element at `xpath` once
      it is present, `None` when the presence wait times out.  `browse`
      answers whether a browser action raises.  `file(deeds, path)`: the
      content of the file, `None` when there is no such file. */
  datatype World = World(
    pats: Patterns,
    decimal: string -> Decimal,
    located: (seq<Deed>, string) -> Option<string>,
    browse: (seq<Deed>, string, seq<string>) -> Option<Error>,
    file: (seq<Deed>, string) -> Option<string>)

  const IDLE: string := "idle"
  const WAIT: string := "wait"
  const MAKE_FILE: string := "make_file"
  const OPEN_FILE: string := "open_file"
  const FLUSH: string := "flush"
  const CLOSE_FILE: string := "close_file"
  const WRITE: string := "write"
  const WRITE_IF_ELSE: string := "write_if_else"

  /** The action states that only act on the browser (model.py:105-364). */
  const BROWSER_ACTIONS: set<string> :=
    {"get_page", "get_elem", "get_elems", "click_elem", "double_click_elem", "send_keys_elem", "send_keys"}

  /** `__init__` (model.py:37-44). */
  function Create(actions: seq<Action>, path: Option<string>): (r: Machine)
    ensures r.counter == 0 && r.stream.None? && r.deeds == []
  {
    Machine(actions, 0, None, path, [])
  }

  /** `__enter__` (model.py:46-48): an empty stream. */
  function Enter(m: Machine): (r: Machine)
    ensures r.stream == Some("") && r.counter == m.counter && r.path == m.path && r.deeds == m.deeds
  {
    m.(stream := Some(""))
  }

  function Do(m: Machine, d: Deed): (r: Machine)
    ensures r.deeds == m.deeds + [d]
  {
    m.(deeds := m.deeds + [d])
  }

  /** `wait` (model.py:79-103): sleep `float(argv[0])` seconds, or idle
      when there is no argument.  A value `float` rejects, a negative one
      and NaN raise `ValueError` (the handler re-raises it); a value too
      large for the clock raises `OverflowError`, which nothing catches. */
  function Wait(w: World, m: Machine, argv: seq<string>): (r: Result<Machine>)
    ensures argv == [] ==> r == Success(Do(m, Slept(Idle)))
    ensures argv != [] ==> (r.Success? <==> w.decimal(argv[0]) == Duration)
    ensures r.Success? && argv != [] ==> r.value == Do(m, Slept(Seconds(argv[0])))
    ensures argv != [] && w.decimal(argv[0]) in {Malformed, Negative, NotANumber} ==> r == Failure(ValueError)
    ensures argv != [] && w.decimal(argv[0]) == TooLarge ==> r == Failure(OverflowError)
  {
    if argv == [] then Success(Do(m, Slept(Idle)))
    else
      match w.decimal(argv[0])
      case Duration => Success(Do(m, Slept(Seconds(argv[0]))))
      case TooLarge => Failure(OverflowError)
      case _ => Failure(ValueError)
  }

  /** `make_file` (model.py:366-389): a fresh stream for a new path. */
  function MakeFile(m: Machine, argv: seq<string>): (r: Result<Machine>)
    ensures argv == [] <==> r == Failure(IndexError)
    ensures r.Success? ==> r.value == m.(stream := Some(""), path := Some(argv[0]))
  {
    if argv == [] then Failure(IndexError) else Success(m.(stream := Some(""), path := Some(argv[0])))
  }

  /** `open_file` (model.py:409-438): the stream becomes the file's content,
      or empty when there is no such file. */
  function OpenFile(w: World, m: Machine, argv: seq<string>): (r: Result<Machine>)
    ensures argv == [] <==> r == Failure(IndexError)
    ensures r.Success? ==> (r.value.path == Some(argv[0]) && r.value.deeds == m.deeds &&
                            r.value.stream == Some(w.file(m.deeds, argv[0]).GetOr("")))
  {
    if argv == [] then Failure(IndexError)
    else Success(m.(path := Some(argv[0]), stream := Some(w.file(m.deeds, argv[0]).GetOr(""))))
  }

  /** Handing the stream to the file, appending (`flush`, model.py:391-407)
      or overwriting (`close_file`, model.py:440-456); the stream is then
      empty.  Without a stream or a path the operation raises, and the
      handler re-raises a plain `Exception`. */
  function Save(m: Machine, append: bool): (r: Result<Machine>)
    ensures r.Success? <==> m.stream.Some? && m.path.Some?
    ensures r.Failure? ==> r.error == GenericException
    ensures r.Success? ==> (r.value.stream == Some("") &&
                            r.value.deeds == m.deeds + [Wrote(m.path.value, m.stream.value, append)] &&
                            r.value.path == m.path && r.value.counter == m.counter)
  {
    match (m.stream, m.path)
    case (Some(s), Some(p)) => Success(Do(m, Wrote(p, s, append)).(stream := Some("")))
    case _ => Failure(GenericException)
  }

  /** `flush` (model.py:391-407): the stream is appended to the file. */
  function Flush(m: Machine): (r: Result<Machine>)
    ensures r.Success? <==> m.stream.Some? && m.path.Some?
    ensures r.Failure? ==> r.error == GenericException
    ensures r.Success? ==> (r.value.stream == Some("") && r.value.path == m.path &&
                            r.value.deeds == m.deeds + [Wrote(m.path.value, m.stream.value, true)])
  {
    Save(m, true)
  }

  /** `close_file` (model.py:440-456): the stream overwrites the file. */
  function CloseFile(m: Machine): (r: Result<Machine>)
    ensures r.Success? <==> m.stream.Some? && m.path.Some?
    ensures r.Failure? ==> r.error == GenericException
    ensures r.Success? ==> (r.value.stream == Some("") && r.value.path == m.path &&
                            r.value.deeds == m.deeds + [Wrote(m.path.value, m.stream.value, false)])
  {
    Save(m, false)
  }

  /** `values.replace(ph_i, vals_i)` for each positional placeholder in turn
      (model.py:479-480). */
  function Fill(s: string, phs: seq<string>, vals: seq<string>): (r: string)
    requires |phs| <= |vals|
    ensures (forall i :: 0 <= i < |phs| ==> phs[i] != [] && !Occurs(s, phs[i])) ==> r == s
    ensures (forall i :: 0 <= i < |phs| ==> phs[i] != [] && vals[i] == phs[i]) ==> r == s
    decreases |phs|
  {
    if phs == [] then s
    else
      var next := ReplaceAll(s, phs[0], vals[0]);
      assert phs[0] != [] && vals[0] == phs[0] ==> next == s by {
        if phs[0] != [] && vals[0] == phs[0] { ReplaceAllIdentity(s, phs[0]); }
      }
      assert phs[0] != [] && !Occurs(s, phs[0]) ==> next == s by {
        if phs[0] != [] && !Occurs(s, phs[0]) { ReplaceAllAbsent(s, phs[0], vals[0]); }
      }
      Fill(next, phs[1..], vals[1..])
  }

  /** What an element placeholder becomes: `str(get_elem([arg]))` and the
      join of `get_elems([arg])` (model.py:481-488).  `get_elems` finds
      one element, so both give its text, or "None" on a timeout. */
  function ElementText(w: World, deeds: seq<Deed>): (r: string -> Result<string>)
    ensures forall x :: r(x) == Success(w.located(deeds, x).GetOr("None"))
  {
    (x: string) => Success(w.located(deeds, x).GetOr("None"))
  }

  /** The line `write` adds (model.py:469-488): positional placeholders
      first, each by the next argument, then the element placeholders; all
      three pattern lists are taken from the text as given. */
  function Line(w: World, deeds: seq<Deed>, argv: seq<string>): (r: Result<string>)
    ensures r.Failure? <==> argv == [] || |w.pats.positional(argv[0])| >= |argv|
    ensures r.Failure? ==> r.error == IndexError
  {
    if argv == [] then Failure(IndexError)
    else
      var values := argv[0];
      var positional := w.pats.positional(values);
      if |positional| >= |argv| then Failure(IndexError)
      else
        var filled := Fill(values, positional, argv[1..]);
        var onePass := Substitute(filled, w.pats.elem(values), ElementText(w, deeds));
        SubstituteTotal(filled, w.pats.elem(values), ElementText(w, deeds));
        SubstituteTotal(onePass.value, w.pats.elems(values), ElementText(w, deeds));
        Success(Substitute(onePass.value, w.pats.elems(values), ElementText(w, deeds)).value)
  }

  /** A resolver that never fails makes substitution succeed. */
  lemma {:induction false} SubstituteTotal(s: string, phs: seq<string>, resolve: string -> Result<string>)
    requires forall x :: resolve(x).Success?
    ensures Substitute(s, phs, resolve).Success?
    decreases |phs|
  {
    if phs != [] {
      SubstituteTotal(ReplaceAll(s, phs[0], resolve(phs[0]).value), phs[1..], resolve);
    }
  }

  /** `write` (model.py:458-499): append exactly one line, the expanded text
      and a newline; too few arguments raise `IndexError`. */
  function Write(w: World, m: Machine, argv: seq<string>): (r: Result<Machine>)
    ensures Line(w, m.deeds, argv).Failure? ==> r == Failure(IndexError)
    ensures Line(w, m.deeds, argv).Success? && m.stream.None? ==> r == Failure(GenericException)
    ensures r.Success? ==> (m.stream.Some? && Line(w, m.deeds, argv).Success? &&
                            r.value.stream == Some(m.stream.value + Line(w, m.deeds, argv).value + "\n"))
    ensures r.Success? ==> r.value.deeds == m.deeds && r.value.path == m.path && r.value.counter == m.counter
  {
    var line :- Line(w, m.deeds, argv);
    var s :- Need(m.stream, GenericException);
    Success(m.(stream := Some(s + line + "\n")))
  }

  /** A text without placeholders is written as it is. */
  lemma WritePlain(w: World, m: Machine, text: string)
    requires m.stream.Some?
    requires w.pats.positional(text) == [] && w.pats.elem(text) == [] && w.pats.elems(text) == []
    ensures Write(w, m, [text]) == Success(m.(stream := Some(m.stream.value + text + "\n")))
  {
  }

  /** Text that cannot start the pattern is copied by `replace`. */
  lemma ReplaceAllSkip(s: string, pat: string, rep: string)
    requires pat != [] && s != [] && s[0] != pat[0]
    ensures ReplaceAll(s, pat, rep) == [s[0]] + ReplaceAll(s[1..], pat, rep)
  {
    if |s| >= |pat| {
      assert s[..|pat|][0] != pat[0];
    }
  }

  /** A `$`-free text holds no `$`-led pattern. */
  lemma DollarFreeNoOccurrence(t: string, p: string)
    requires p != [] && p[0] == '$'
    requires forall i :: 0 <= i < |t| ==> t[i] != '$'
    ensures !Occurs(t, p)
  {
  }

  /** Replacing a `$`-led pattern that occurs once, between two `$`-free
      texts, replaces just that occurrence. */
  lemma {:induction false} ReplaceSole(pre: string, p: string, post: string, x: string)
    requires p != [] && p[0] == '$'
    requires forall i :: 0 <= i < |pre| ==> pre[i] != '$'
    requires forall i :: 0 <= i < |post| ==> post[i] != '$'
    ensures ReplaceAll(pre + p + post, p, x) == pre + x + post
    decreases |pre|
  {
    if pre == [] {
      assert pre + p + post == p + post;
      ReplaceAllAtFront(p + post, p, x, post);
      DollarFreeNoOccurrence(post, p);
      ReplaceAllAbsent(post, p, x);
    } else {
      var s := pre + p + post;
      assert s[0] == pre[0];
      assert s[1..] == pre[1..] + p + post;
      ReplaceAllSkip(s, p, x);
      ReplaceSole(pre[1..], p, post, x);
      assert pre + x + post == [pre[0]] + (pre[1..] + x + post);
    }
  }

  /** The one positional placeholder of a `write` becomes the argument
      after the text. */
  lemma WriteOnePositional(w: World, m: Machine, pre: string, p: string, post: string, x: string)
    requires m.stream.Some? && p != [] && p[0] == '$'
    requires forall i :: 0 <= i < |pre| ==> pre[i] != '$'
    requires forall i :: 0 <= i < |post| ==> post[i] != '$'
    requires w.pats.positional(pre + p + post) == [p]
    requires w.pats.elem(pre + p + post) == [] && w.pats.elems(pre + p + post) == []
    ensures Write(w, m, [pre + p + post, x]) == Success(m.(stream := Some(m.stream.value + pre + x + post + "\n")))
  {
    var values := pre + p + post;
    var argv := [values, x];
    ReplaceSole(pre, p, post, x);
    assert argv[0] == values && argv[1..] == [x];
    assert Fill(values, [p], [x]) == Fill(pre + x + post, [], []) == pre + x + post;
    var f := ElementText(w, m.deeds);
    assert Substitute(pre + x + post, w.pats.elem(values), f) == Success(pre + x + post);
    assert Substitute(pre + x + post, w.pats.elems(values), f) == Success(pre + x + post);
    assert Line(w, m.deeds, argv) == Success(pre + x + post);
    assert m.stream.value + (pre + x + post) + "\n" == m.stream.value + pre + x + post + "\n";
  }

  /** A Python string used where a list is expected: its characters. */
  function Chars(s: string): (r: seq<string>)
    ensures |r| == |s|
    ensures forall i :: 0 <= i < |s| ==> r[i] == [s[i]]
  {
    if s == [] then [] else [[s[0]]] + Chars(s[1..])
  }

  /** `write_if_else` as written (model.py:501-536): when the element is
      present it calls `write(values)` with the string itself, so `write`
      takes the string's first character as the text and its later
      characters as arguments. */
  function WriteIfElseAsWritten(w: World, m: Machine, argv: seq<string>): (r: Result<Machine>)
    ensures |argv| < 3 ==> r == Failure(IndexError)
    ensures |argv| >= 3 && w.located(m.deeds, argv[0]).Some? ==> r == Write(w, m, Chars(argv[1]))
    ensures |argv| >= 3 && w.located(m.deeds, argv[0]).None? ==> r == Write(w, m, [argv[2]])
  {
    if |argv| < 3 then Failure(IndexError)
    else if w.located(m.deeds, argv[0]).Some? then Write(w, m, Chars(argv[1]))
    else Write(w, m, [argv[2]])
  }

  /** `write_if_else` as evidently intended: the values are written as one
      text when the element is present, the default otherwise. */
  function WriteIfElse(w: World, m: Machine, argv: seq<string>): (r: Result<Machine>)
    ensures |argv| < 3 ==> r == Failure(IndexError)
    ensures |argv| >= 3 && w.located(m.deeds, argv[0]).Some? ==> r == Write(w, m, [argv[1]])
    ensures |argv| >= 3 && w.located(m.deeds, argv[0]).None? ==> r == Write(w, m, [argv[2]])
    ensures |argv| >= 3 ==> r == WriteIfElseAsWritten(w, m, argv) || w.located(m.deeds, argv[0]).Some?
  {
    if |argv| < 3 then Failure(IndexError)
    else if w.located(m.deeds, argv[0]).Some? then Write(w, m, [argv[1]])
    else Write(w, m, [argv[2]])
  }

  /** On a timeout a plain default is written as its own line. */
  lemma WriteIfElseDefault(w: World, m: Machine, xpath: string, values: string, default: string)
    requires m.stream.Some? && w.located(m.deeds, xpath).None?
    requires w.pats.positional(default) == [] && w.pats.elem(default) == [] && w.pats.elems(default) == []
    ensures WriteIfElse(w, m, [xpath, values, default]) == Success(m.(stream := Some(m.stream.value + default + "\n")))
  {
    WritePlain(w, m, default);
  }

  /** With the element present and plain two-letter values "ab", the code as
      written writes the line "a", the intended behaviour "ab". */
  lemma WriteIfElseLosesText(w: World, m: Machine, xpath: string, default: string)
    requires m.stream.Some? && w.located(m.deeds, xpath).Some?
    requires w.pats.positional("a") == [] && w.pats.elem("a") == [] && w.pats.elems("a") == []
    requires w.pats.positional("ab") == [] && w.pats.elem("ab") == [] && w.pats.elems("ab") == []
    ensures WriteIfElseAsWritten(w, m, [xpath, "ab", default]) == Success(m.(stream := Some(m.stream.value + "a\n")))
    ensures WriteIfElse(w, m, [xpath, "ab", default]) == Success(m.(stream := Some(m.stream.value + "ab\n")))
  {
    assert Chars("ab") == ["a", "b"];
    assert ["a", "b"][1..] == ["b"];
    assert Line(w, m.deeds, ["a", "b"]) == Success("a");
    assert WriteIfElseAsWritten(w, m, [xpath, "ab", default]) == Write(w, m, ["a", "b"]);
    WritePlain(w, m, "ab");
    assert WriteIfElse(w, m, [xpath, "ab", default]) == Write(w, m, ["ab"]);
    assert Write(w, m, ["a", "b"]) == Success(m.(stream := Some(m.stream.value + "a" + "\n")));
    assert m.stream.value + "a" + "\n" == m.stream.value + "a\n";
    assert m.stream.value + "ab" + "\n" == m.stream.value + "ab\n";
  }

  /** One action state, looked up by name (model.py:59).  A name that is no
      action state raises `AttributeError`. */
  function Perform(w: World, m: Machine, a: Action): (r: Result<Machine>)
    ensures r.Success? ==> r.value.actions == m.actions && r.value.counter == m.counter
    ensures r.Success? ==> m.deeds <= r.value.deeds
    ensures a.key == WRITE ==> r == Write(w, m, a.arguments)
    ensures a.key == WRITE_IF_ELSE ==> r == WriteIfElseAsWritten(w, m, a.arguments)
    ensures a.key !in BROWSER_ACTIONS + {IDLE, WAIT, MAKE_FILE, OPEN_FILE, FLUSH, CLOSE_FILE, WRITE, WRITE_IF_ELSE} ==>
            r == Failure(AttributeError)
  {
    if a.key == IDLE then Success(Do(m, Slept(Idle)))
    else if a.key == WAIT then Wait(w, m, a.arguments)
    else if a.key == MAKE_FILE then MakeFile(m, a.arguments)
    else if a.key == OPEN_FILE then OpenFile(w, m, a.arguments)
    else if a.key == FLUSH then Flush(m)
    else if a.key == CLOSE_FILE then CloseFile(m)
    else if a.key == WRITE then Write(w, m, a.arguments)
    else if a.key == WRITE_IF_ELSE then WriteIfElseAsWritten(w, m, a.arguments)
    else if a.key in BROWSER_ACTIONS then
      match w.browse(m.deeds, a.key, a.arguments)
      case Some(err) => Failure(err)
      case None => Success(Do(m, Browsed(a.key, a.arguments)))
    else Failure(AttributeError)
  }

  /** One action state with `write_if_else` as evidently intended; every
      other action state runs as written. */
  function PerformIntended(w: World, m: Machine, a: Action): (r: Result<Machine>)
    ensures a.key != WRITE_IF_ELSE ==> r == Perform(w, m, a)
    ensures a.key == WRITE_IF_ELSE ==> r == WriteIfElse(w, m, a.arguments)
    ensures r.Success? ==> r.value.actions == m.actions && r.value.counter == m.counter && m.deeds <= r.value.deeds
  {
    if a.key == WRITE_IF_ELSE then WriteIfElse(w, m, a.arguments) else Perform(w, m, a)
  }

  /** The counter points at an action. */
  predicate Valid(m: Machine) {
    m.counter < |m.actions|
  }

  /** `next` (model.py:53-66): run the action at the counter, then move on;
      after the last action the counter returns to 0 and `False` is
      returned. */
  function Next(w: World, m: Machine): (r: Result<(Machine, bool)>)
    ensures !Valid(m) ==> r == Failure(IndexError)
    ensures r.Success? ==> Valid(m) && Perform(w, m, m.actions[m.counter]).Success?
    ensures r.Success? ==> (r.value.1 <==> m.counter < |m.actions| - 1)
    ensures r.Success? ==> r.value.0 == Perform(w, m, m.actions[m.counter]).value.(counter := if r.value.1 then m.counter + 1 else 0)
    ensures r.Success? ==> Valid(r.value.0) && r.value.0.actions == m.actions
  {
    if !Valid(m) then Failure(IndexError)
    else
      var m1 :- Perform(w, m, m.actions[m.counter]);
      if m1.counter < |m1.actions| - 1 then Success((m1.(counter := m1.counter + 1), true))
      else Success((m1.(counter := 0), false))
  }

  /** `n` calls of `next`, collecting what each returned. */
  function Steps(w: World, m: Machine, n: nat): (r: Result<(Machine, seq<bool>)>)
    ensures r.Success? ==> |r.value.1| == n && r.value.0.actions == m.actions
    decreases n
  {
    if n == 0 then Success((m, []))
    else
      var first :- Next(w, m);
      var rest :- Steps(w, first.0, n - 1);
      Success((rest.0, [first.1] + rest.1))
  }

  function Trues(n: nat): (r: seq<bool>)
    ensures |r| == n && forall i :: 0 <= i < n ==> r[i]
  {
    if n == 0 then [] else [true] + Trues(n - 1)
  }

  /** `n > 0` calls are one `next` followed by `n - 1` more. */
  lemma StepsCons(w: World, m: Machine, n: nat)
    requires n > 0
    ensures Steps(w, m, n).Success? ==> Next(w, m).Success? && Steps(w, Next(w, m).value.0, n - 1).Success?
    ensures Steps(w, m, n).Success? ==>
            Steps(w, m, n).value ==
            (Steps(w, Next(w, m).value.0, n - 1).value.0, [Next(w, m).value.1] + Steps(w, Next(w, m).value.0, n - 1).value.1)
  {
  }

  /** From any valid counter, the calls up to the end of the cycle return
      `True` until the last, which returns `False` and rewinds the counter. */
  lemma {:induction false} CycleFromCounter(w: World, m: Machine)
    requires Valid(m)
    requires Steps(w, m, |m.actions| - m.counter).Success?
    ensures Steps(w, m, |m.actions| - m.counter).value.1 == Trues(|m.actions| - m.counter - 1) + [false]
    ensures Steps(w, m, |m.actions| - m.counter).value.0.counter == 0
    decreases |m.actions| - m.counter
  {
    var n := |m.actions| - m.counter;
    StepsCons(w, m, n);
    var first := Next(w, m).value;
    var rest := Steps(w, first.0, n - 1).value;
    if m.counter < |m.actions| - 1 {
      assert first.1 && first.0.counter == m.counter + 1 && first.0.actions == m.actions;
      CycleFromCounter(w, first.0);
      assert rest.1 == Trues(n - 2) + [false] && rest.0.counter == 0;
      TruesCons(n - 1);
    } else {
      assert !first.1 && n == 1;
      assert rest == (first.0, []);
    }
  }

  lemma TruesCons(n: nat)
    requires n > 0
    ensures [true] + (Trues(n - 1) + [false]) == Trues(n) + [false]
  {
    assert Trues(n) == [true] + Trues(n - 1);
  }

  /** A whole cycle from the start: `len(actions) - 1` times `True`, then
      `False`, back at the first action. */
  lemma Cycle(w: World, m: Machine)
    requires m.counter == 0 && |m.actions| > 0
    requires Steps(w, m, |m.actions|).Success?
    ensures Steps(w, m, |m.actions|).value.1 == Trues(|m.actions| - 1) + [false]
    ensures Steps(w, m, |m.actions|).value.0.counter == 0
  {
    assert Valid(m) && |m.actions| - m.counter == |m.actions|;
    CycleFromCounter(w, m);
  }

  /** `__exit__` as written (model.py:50-51): with a path and unsaved text
      it calls `self.close()`, which the machine does not define, so the
      text is never written. */
  function ExitAsWritten(m: Machine): (r: Result<Machine>)
    ensures r.Success? ==> r.value == m
    ensures r.Failure? <==> m.path.Some? && m.path.value != "" && m.stream.Some? && m.stream.value != ""
    ensures r.Failure? ==> r.error == AttributeError
  {
    if m.path.Some? && m.path.value != "" && m.stream.Some? && m.stream.value != "" then Failure(AttributeError)
    else Success(m)
  }

  /** `__exit__` as evidently intended: unsaved text goes to the file
      through `close_file`. */
  function Exit(m: Machine): (r: Result<Machine>)
    ensures m.path.Some? && m.path.value != "" && m.stream.Some? && m.stream.value != "" ==>
            r.Success? && r.value.deeds == m.deeds + [Wrote(m.path.value, m.stream.value, false)]
    ensures !(m.path.Some? && m.path.value != "" && m.stream.Some? && m.stream.value != "") ==> r == Success(m)
  {
    if m.path.Some? && m.path.value != "" && m.stream.Some? && m.stream.value != "" then CloseFile(m)
    else Success(m)
  }

  /** After `make_file`, a `write` of plain text and `flush`, the file
      receives exactly that line and the stream is empty again. */
  lemma MakeWriteFlush(w: World, m: Machine, path: string, text: string)
    requires w.pats.positional(text) == [] && w.pats.elem(text) == [] && w.pats.elems(text) == []
    ensures MakeFile(m, [path]).Success?
    ensures Write(w, MakeFile(m, [path]).value, [text]).Success?
    ensures Flush(Write(w, MakeFile(m, [path]).value, [text]).value) ==
            Success(m.(stream := Some(""), path := Some(path), deeds := m.deeds + [Wrote(path, text + "\n", true)]))
  {
    var m1 := MakeFile(m, [path]).value;
    WritePlain(w, m1, text);
    assert "" + text + "\n" == text + "\n";
  }
}
