/** JSON values as Python sees them after `json.load`, and the few built-in
    operations the interpreters apply to them: truthiness, indexing,
    iteration, `dict.get`, `str()`, `int()` and `float()`.

    Floating-point numbers are not modelled (integers only).  Text that only
    the Python runtime can produce (`json.dumps`, the `repr` of a container,
    whether `int()`/`float()` accept a string) comes from an `Oracles` record.
 */
module PyJson {
  import opened Wrappers
  import opened Text
  import opened Assoc

  datatype Json =
    | JNull
    | JBool(b: bool)
    | JNum(n: int)
    | JStr(s: string)
    | JArr(items: seq<Json>)
    | JObj(fields: seq<(string, Json)>)

  /** A JSON object: the look-up tables (`lut`, `tbl`, `argv`) of the source. */
  type Lut = Assoc<string, Json>

  /** What only the Python runtime knows.  `dumps` is `json.dumps`, `repr` is
      `str()` of a list or dict, `intOf` is `int()` of a string (`None` when it
      raises `ValueError`), `isFloat` says whether `float()` accepts a string. */
  datatype Runtime = Runtime(
    dumps: Json -> string,
    repr: Json -> string,
    intOf: string -> Option<int>,
    isFloat: string -> bool)

  /** Python truthiness: `None`, `False`, `0`, `""`, `[]` and `{}` are falsy. */
  predicate Truthy(j: Json) {
    match j
    case JNull => false
    case JBool(b) => b
    case JNum(n) => n != 0
    case JStr(s) => s != ""
    case JArr(xs) => xs != []
    case JObj(fs) => fs != []
  }

  /** `j[i]` for a non-negative integer index. */
  function Index(j: Json, i: nat): (r: Result<Json>)
    ensures r.Success? <==> (j.JArr? && i < |j.items|) || (j.JStr? && i < |j.s|)
  {
    match j
    case JArr(xs) => if i < |xs| then Success(xs[i]) else Failure(IndexError)
    case JStr(s) => if i < |s| then Success(JStr([s[i]])) else Failure(IndexError)
    case JObj(_) => Failure(KeyError)
    case _ => Failure(TypeError)
  }

  /** `j[i]` for any integer index: a negative index counts from the end. */
  function At(j: Json, i: int): (r: Result<Json>)
    ensures i >= 0 ==> r == Index(j, i)
    ensures i < 0 && j.JArr? && -i <= |j.items| ==> r == Success(j.items[|j.items| + i])
    ensures i < 0 && j.JArr? && -i > |j.items| ==> r == Failure(IndexError)
  {
    if i >= 0 then Index(j, i)
    else match j
      case JArr(xs) => if -i <= |xs| then Success(xs[|xs| + i]) else Failure(IndexError)
      case JStr(s) => if -i <= |s| then Success(JStr([s[|s| + i]])) else Failure(IndexError)
      case JObj(_) => Failure(KeyError)
      case _ => Failure(TypeError)
  }

  /** `len(j)`. */
  function Len(j: Json): Result<nat> {
    match j
    case JArr(xs) => Success(|xs|)
    case JStr(s) => Success(|s|)
    case JObj(fs) => Success(|fs|)
    case _ => Failure(TypeError)
  }

  /** The items `for x in j` visits: list items, characters, dict keys. */
  function Iterate(j: Json): Result<seq<Json>> {
    match j
    case JArr(xs) => Success(xs)
    case JStr(s) => Success(seq(|s|, i requires 0 <= i < |s| => JStr([s[i]])))
    case JObj(fs) => Success(seq(|fs|, i requires 0 <= i < |fs| => JStr(fs[i].0)))
    case _ => Failure(TypeError)
  }

  /** `j.get(key)`: only dicts have it. */
  function GetField(j: Json, key: string): Result<Option<Json>> {
    match j
    case JObj(fs) => Success(Get(fs, key))
    case _ => Failure(AttributeError)
  }

  /** `j[key]` for a string key. */
  function Field(j: Json, key: string): Result<Json> {
    match j
    case JObj(fs) => Need(Get(fs, key), KeyError)
    case _ => Failure(TypeError)
  }

  /** `d.get(key)` where the key itself is a JSON value: unhashable lists and
      dicts raise `TypeError`, non-string scalars are never keys of a JSON
      object. */
  function LutGet(t: Lut, key: Json): Result<Option<Json>> {
    match key
    case JStr(k) => Success(Get(t, k))
    case JArr(_) => Failure(TypeError)
    case JObj(_) => Failure(TypeError)
    case _ => Success(None)
  }

  /** `str(j)` (also what an f-string prints). */
  function Str(rt: Runtime, j: Json): string {
    match j
    case JNull => "None"
    case JBool(b) => if b then "True" else "False"
    case JNum(n) => IntToString(n)
    case JStr(s) => s
    case _ => rt.repr(j)
  }

  /** `int(j)`. */
  function Int(rt: Runtime, j: Json): Result<int> {
    match j
    case JNum(n) => Success(n)
    case JBool(b) => Success(if b then 1 else 0)
    case JStr(s) => Need(rt.intOf(s), ValueError)
    case _ => Failure(TypeError)
  }

  /** `float(j)` succeeds (the number itself is not needed by the model). */
  function Float(rt: Runtime, j: Json): Result<Json> {
    match j
    case JNum(_) => Success(j)
    case JBool(_) => Success(j)
    case JStr(s) => if rt.isFloat(s) then Success(j) else Failure(ValueError)
    case _ => Failure(TypeError)
  }

  /** Both offsets of `argv`, as `int(argv[0])`, `int(argv[1])`. */
  function Offsets(rt: Runtime, argv: Json): (r: Result<(int, int)>)
    ensures r.Success? <==> Index(argv, 1).Success? && Int(rt, Index(argv, 0).value).Success? &&
                            Int(rt, Index(argv, 1).value).Success?
    ensures r.Success? ==> Int(rt, Index(argv, 0).value) == Success(r.value.0) &&
                           Int(rt, Index(argv, 1).value) == Success(r.value.1)
  {
    var x0 :- Index(argv, 0);
    var x :- Int(rt, x0);
    var y0 :- Index(argv, 1);
    var y :- Int(rt, y0);
    Success((x, y))
  }

  /** The strings of a list whose items must all be strings (`", ".join(xs)`). */
  function Strings(xs: seq<Json>): (r: Result<seq<string>>)
    ensures r.Success? ==> |r.value| == |xs| && forall i :: 0 <= i < |xs| ==> xs[i] == JStr(r.value[i])
    ensures r.Failure? ==> r.error == TypeError && exists i :: 0 <= i < |xs| && !xs[i].JStr?
  {
    if xs == [] then Success([])
    else if !xs[0].JStr? then Failure(TypeError)
    else
      var rest :- Strings(xs[1..]);
      Success([xs[0].s] + rest)
  }

  /** A `Lut` as the JSON object it is. */
  function ObjOf(t: Option<Lut>): Json {
    match t
    case None => JNull
    case Some(fs) => JObj(fs)
  }
}
