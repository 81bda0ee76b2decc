/** The browser as the interpreters see it through Selenium.

    Everything the interpreters do to the browser is recorded, in order, as
    an `Action` in a `Trace`.  What the browser shows is not modelled: the
    `Page` answers element look-ups and waits as a function of the trace of
    actions performed so far, so any behaviour of a real page is one
    possible `Page`.
 */
module Browser {
  import opened Wrappers
  import opened PyJson

  /** A located web element: its text and whether it is displayed. */
  datatype Elem = Elem(text: string, displayed: bool)

  /** Selenium locator strategies used by the source. */
  datatype By = ByXPath | ById

  /** How `parse_expected_condition` turns a target into a condition argument. */
  datatype ArgKind = LocatorKind | ElementKind | IntegerKind | RawKind

  datatype CondArg =
    | IntArg(n: int)
    | LocatorArg(strategy: By, locator: Json)
    | ElementArg(element: Option<Elem>)
    | RawArg(raw: Json)

  /** A `WebDriverWait(...).until(...)` (or `until_not`) request. */
  datatype WaitSpec = WaitSpec(negated: bool, condition: string, arg: CondArg)

  datatype WaitOutcome = Satisfied | TimedOut

  datatype PointerKind = Click | ClickAndHold | Release | ContextClick | DoubleClick

  /** One step of an action chain built from keys; `on` is the locator of the
      element the step is sent to, or `None` for raw keyboard input. */
  datatype KeyAction =
    | KeyDown(key: string, on: Option<Json>)
    | KeyUp(key: string, on: Option<Json>)
    | SendText(text: string, on: Option<Json>)

  datatype Action =
    | Navigate(url: Json)
    /** The configured settling pause after a navigation. */
    | Settle
    | Refresh
    | Pointer(kind: PointerKind, at: Option<Json>)
    | DragAndDrop(source: Json, dest: Json)
    | DragByOffset(source: Json, dx: int, dy: int)
    | MoveTo(to: Json)
    | MoveWithOffset(to: Json, dx: int, dy: int)
    | MoveBy(dx: int, dy: int)
    /** One `ActionChains.perform()` of key actions. */
    | KeyChain(steps: seq<KeyAction>)
    | Sleep(seconds: Json)

  type Trace = seq<Action>

  /** `first` is `find_element_by_xpath` (`None` when it raises
      `NoSuchElementException`), `all` is `find_elements_by_xpath`, `until`
      is the outcome of a wait; each may depend on everything done so far. */
  datatype Page = Page(
    first: (Trace, Json) -> Option<Elem>,
    all: (Trace, Json) -> seq<Elem>,
    until: (Trace, WaitSpec) -> WaitOutcome)

  /** The environment of an interpreter: the browser and the runtime. */
  datatype Env = Env(page: Page, rt: Runtime)

  /** The configuration tables the source imports: `EXPECTED_CONDITIONS`
      (condition name to argument kind) and the special-key table. */
  datatype Settings = Settings(conditions: string -> Option<ArgKind>, keys: map<string, string>)

  /** The texts of located elements, in order. */
  function Texts(elems: seq<Elem>): (r: seq<string>)
    ensures |r| == |elems| && forall i :: 0 <= i < |elems| ==> r[i] == elems[i].text
  {
    seq(|elems|, i requires 0 <= i < |elems| => elems[i].text)
  }

  /** `EXPECTED_CONDITIONS.get(name)`, shared by every `wait`: unhashable names raise `TypeError`,
      names that are not configured make `wait` raise `ValueError`. */
  function ConditionKind(cfg: Settings, name: Json): (r: Result<ArgKind>)
    ensures r.Success? ==> name.JStr? && cfg.conditions(name.s) == Some(r.value)
    ensures name.JStr? && cfg.conditions(name.s).None? ==> r == Failure(ValueError)
  {
    match name
    case JStr(s) => Need(cfg.conditions(s), ValueError)
    case JArr(_) => Failure(TypeError)
    case JObj(_) => Failure(TypeError)
    case _ => Failure(ValueError)
  }

  const KEY_DOWN: string := "KEY_DOWN"
  const KEY_UP: string := "KEY_UP"
  const SEND: string := "SEND"

  /** `enqueue_key_action` / `send_key` / `send_raw_key`: one key under the
      given logic. */
  function KeyStep(logic: Json, key: string, on: Option<Json>): (r: KeyAction)
    ensures r.on == on
    ensures r.KeyDown? <==> logic == JStr(KEY_DOWN)
    ensures r.KeyUp? <==> logic == JStr(KEY_UP)
  {
    if logic == JStr(KEY_DOWN) then KeyDown(key, on)
    else if logic == JStr(KEY_UP) then KeyUp(key, on)
    else SendText(key, on)
  }

  /** The text a key step types (or presses). */
  function StepText(a: KeyAction): string {
    match a
    case KeyDown(k, _) => k
    case KeyUp(k, _) => k
    case SendText(t, _) => t
  }

  /** One step per character of `keys`, all under `logic`. */
  function PerCharacter(logic: Json, keys: string, on: Option<Json>): (r: seq<KeyAction>)
    ensures |r| == |keys|
    ensures forall i :: 0 <= i < |keys| ==> r[i] == KeyStep(logic, [keys[i]], on)
  {
    seq(|keys|, i requires 0 <= i < |keys| => KeyStep(logic, [keys[i]], on))
  }

  function Concat<T>(xss: seq<seq<T>>): seq<T> {
    if xss == [] then [] else xss[0] + Concat(xss[1..])
  }

  lemma {:induction false} ConcatAppend<T>(xss: seq<seq<T>>, ys: seq<T>)
    ensures Concat(xss + [ys]) == Concat(xss) + ys
  {
    if xss != [] {
      assert (xss + [ys])[1..] == xss[1..] + [ys];
      ConcatAppend(xss[1..], ys);
    } else {
      assert xss + [ys] == [ys];
    }
  }

  /** The typed text of a run of steps. */
  function TypedText(steps: seq<KeyAction>): string {
    if steps == [] then "" else StepText(steps[0]) + TypedText(steps[1..])
  }

  lemma {:induction false} TypedTextAppend(a: seq<KeyAction>, b: seq<KeyAction>)
    ensures TypedText(a + b) == TypedText(a) + TypedText(b)
  {
    if a != [] {
      assert (a + b)[0] == a[0] && (a + b)[1..] == a[1..] + b;
      TypedTextAppend(a[1..], b);
    } else {
      assert a + b == b;
    }
  }

  /** Per-character steps type exactly the characters given. */
  lemma {:induction false} PerCharacterTypes(logic: Json, keys: string, on: Option<Json>)
    ensures TypedText(PerCharacter(logic, keys, on)) == keys
    decreases |keys|
  {
    if keys != [] {
      assert PerCharacter(logic, keys, on)[1..] == PerCharacter(logic, keys[1..], on);
      PerCharacterTypes(logic, keys[1..], on);
      assert keys == [keys[0]] + keys[1..];
    }
  }
}
