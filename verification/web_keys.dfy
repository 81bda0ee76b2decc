/** The webauto worker helpers (app/backend/webauto/models/utils.py): the
    next free `stdoutN` key, the argument of an expected condition, and the
    decomposition of `send_keys` items into key actions.
 */
module WebKeys {
  import opened Wrappers
  import opened Text
  import opened Assoc
  import opened PyJson
  import opened Browser
  import opened Placeholders
  import opened Slots

  const STDOUT: string := "stdout"

  /** `next_dict_key` (models/utils.py:160-178): starting from "stdout1", the
      number is raised while the key holds a non-empty text. */
  function NextDictKey(stdout: Table): (r: string)
    ensures exists n: nat :: n >= 1 && r == Slot(STDOUT, n, "") && !Filled(stdout, r) &&
                             forall m: nat :: 1 <= m < n ==> Filled(stdout, Slot(STDOUT, m, ""))
  {
    Slot(STDOUT, FirstFree(stdout, STDOUT, "", 1), "")
  }

  /** `parse_expected_condition(driver, raw, ec)` (models/utils.py:53-71): a
      locator by id, the element Selenium finds (`NoSuchElementException`
      when there is none), an integer, or the raw target. */
  function ExpectedArg(e: Env, trace: Trace, kind: ArgKind, raw: Json): (r: Result<CondArg>)
    ensures kind == LocatorKind ==> r == Success(LocatorArg(ById, raw))
    ensures kind == ElementKind ==> (r.Success? <==> e.page.first(trace, raw).Some?)
    ensures kind == ElementKind && r.Failure? ==> r.error == NoSuchElement
    ensures kind == IntegerKind ==> (r.Success? <==> Int(e.rt, raw).Success?)
    ensures r.Success? ==> kind == IntegerKind ==> r.value == IntArg(Int(e.rt, raw).value)
    ensures kind == RawKind ==> r == Success(RawArg(raw))
  {
    match kind
    case LocatorKind => Success(LocatorArg(ById, raw))
    case ElementKind =>
      var elem :- Need(e.page.first(trace, raw), NoSuchElement);
      Success(ElementArg(Some(elem)))
    case IntegerKind =>
      var n :- Int(e.rt, raw);
      Success(IntArg(n))
    case RawKind => Success(RawArg(raw))
  }

  /** The key state and the special-key-expanded text of one `send_keys`
      item (models/utils.py:143-148): a list is `[state, keys]`, anything
      else is text sent as a whole.  The text must be a string. */
  function Item(table: map<string, string>, item: Json): (r: Result<(Json, string)>)
    ensures !item.JArr? ==> (r.Success? <==> item.JStr? && SpecialKeys(item.s, table).Success?)
    ensures !item.JArr? && r.Success? ==> r.value == (JStr(SEND), SpecialKeys(item.s, table).value)
    ensures item.JArr? && |item.items| < 2 ==> r == Failure(IndexError)
    ensures item.JArr? && |item.items| >= 2 ==>
            (r.Success? <==> item.items[1].JStr? && SpecialKeys(item.items[1].s, table).Success?)
    ensures item.JArr? && r.Success? ==> r.value == (item.items[0], SpecialKeys(item.items[1].s, table).value)
  {
    if item.JArr? then
      var state :- Index(item, 0);
      var raw :- Index(item, 1);
      var keys :- if raw.JStr? then SpecialKeys(raw.s, table) else Failure(TypeError);
      Success((state, keys))
    else if item.JStr? then
      var keys :- SpecialKeys(item.s, table);
      Success((JStr(SEND), keys))
    else Failure(TypeError)
  }

  /** The actions of one item (models/utils.py:150-157): SEND types the
      whole text at once, any other state acts once per character. */
  function ItemSteps(table: map<string, string>, item: Json, on: Option<Json>): (r: Result<seq<KeyAction>>)
    ensures r.Success? <==> Item(table, item).Success?
    ensures r.Success? ==> forall i :: 0 <= i < |r.value| ==> r.value[i].on == on
    ensures r.Success? ==> TypedText(r.value) == Item(table, item).value.1
    ensures r.Success? && Item(table, item).value.0 == JStr(SEND) ==>
            r.value == [SendText(Item(table, item).value.1, on)]
    ensures r.Success? && Item(table, item).value.0 != JStr(SEND) ==>
            |r.value| == |Item(table, item).value.1| &&
            forall i :: 0 <= i < |r.value| ==> r.value[i] == KeyStep(Item(table, item).value.0, [Item(table, item).value.1[i]], on)
  {
    var (state, keys) :- Item(table, item);
    if state == JStr(SEND) then
      assert TypedText([SendText(keys, on)]) == keys + TypedText([]);
      Success([SendText(keys, on)])
    else
      PerCharacterTypes(state, keys, on);
      Success(PerCharacter(state, keys, on))
  }

  /** `send_keys(driver, elem, items)`: the actions of every item in order,
      to be performed as one chain; the first failing item ends it. */
  function ItemsSteps(table: map<string, string>, items: seq<Json>, on: Option<Json>): (r: Result<seq<KeyAction>>)
    ensures r.Success? ==> forall i :: 0 <= i < |r.value| ==> r.value[i].on == on
    ensures r.Success? <==> forall i :: 0 <= i < |items| ==> Item(table, items[i]).Success?
    decreases |items|
  {
    if items == [] then Success([])
    else
      var first :- ItemSteps(table, items[0], on);
      var rest :- ItemsSteps(table, items[1..], on);
      assert forall i :: 1 <= i < |items| ==> items[i] == items[1..][i - 1];
      Success(first + rest)
  }

  /** `send_keys(driver, elem, argv)` on the command's `argv`, which must be
      iterable: the key actions of all its items. */
  function Chain(table: map<string, string>, argv: Json, on: Option<Json>): (r: Result<seq<KeyAction>>)
    ensures r.Success? ==> forall i :: 0 <= i < |r.value| ==> r.value[i].on == on
    ensures r.Success? <==> Iterate(argv).Success? &&
                            forall i :: 0 <= i < |Iterate(argv).value| ==> Item(table, Iterate(argv).value[i]).Success?
    ensures Iterate(argv).Failure? ==> r == Failure(TypeError)
  {
    var items :- Iterate(argv);
    ItemsSteps(table, items, on)
  }

  /** A plain text item, without `$`, is typed as it stands in one action. */
  lemma PlainItemStep(table: map<string, string>, t: string, on: Option<Json>)
    requires forall k :: 0 <= k < |t| ==> t[k] != '$'
    ensures ItemSteps(table, JStr(t), on) == Success([SendText(t, on)])
  {
    NoDollarNoPlaceholders(t);
    assert SpecialKeys(t, table) == Success(t);
  }

  /** The chain of a non-empty item list is the head's actions followed by
      the rest's. */
  lemma ItemsStepsCons(table: map<string, string>, items: seq<Json>, on: Option<Json>, first: seq<KeyAction>, rest: seq<KeyAction>)
    requires items != []
    requires ItemSteps(table, items[0], on) == Success(first)
    requires ItemsSteps(table, items[1..], on) == Success(rest)
    ensures ItemsSteps(table, items, on) == Success(first + rest)
  {
  }

  /** The item list and the action list of plain texts both split at
      their head. */
  lemma PlainSplit(texts: seq<string>, on: Option<Json>)
    requires texts != []
    ensures seq(|texts|, i requires 0 <= i < |texts| => JStr(texts[i]))[0] == JStr(texts[0])
    ensures seq(|texts|, i requires 0 <= i < |texts| => JStr(texts[i]))[1..] ==
            seq(|texts[1..]|, i requires 0 <= i < |texts[1..]| => JStr(texts[1..][i]))
    ensures seq(|texts|, i requires 0 <= i < |texts| => SendText(texts[i], on)) ==
            [SendText(texts[0], on)] + seq(|texts[1..]|, i requires 0 <= i < |texts[1..]| => SendText(texts[1..][i], on))
  {
  }

  /** Plain text items, without special keys, are typed one item per action
      and in order, all sent to the same place. */
  lemma {:induction false} PlainItemsSteps(table: map<string, string>, texts: seq<string>, on: Option<Json>)
    requires forall i, k :: 0 <= i < |texts| && 0 <= k < |texts[i]| ==> texts[i][k] != '$'
    ensures ItemsSteps(table, seq(|texts|, i requires 0 <= i < |texts| => JStr(texts[i])), on) ==
            Success(seq(|texts|, i requires 0 <= i < |texts| => SendText(texts[i], on)))
    decreases |texts|
  {
    var items := seq(|texts|, i requires 0 <= i < |texts| => JStr(texts[i]));
    if texts != [] {
      var tail := texts[1..];
      PlainSplit(texts, on);
      PlainItemStep(table, texts[0], on);
      PlainItemsSteps(table, tail, on);
      ItemsStepsCons(table, items, on, [SendText(texts[0], on)],
                     seq(|tail|, i requires 0 <= i < |tail| => SendText(tail[i], on)));
    } else {
      assert items == [];
      assert seq(|texts|, i requires 0 <= i < |texts| => SendText(texts[i], on)) == [];
    }
  }
}
