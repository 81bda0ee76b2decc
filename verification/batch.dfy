/** Building ina jobs from a client request
    (project/server/tasks/__init__.py and its older copy
    project/server/tasks/tasks.py): `create_job` turns rows naming a task
    and a user into task runs, each preceded by a user swap when the user
    changes; `create_scan` turns order rows into look-ups by order id and
    searches by name.

    The job the builders fill (`ina.Job(...).push`, `deploy`) is not part
    of this model: a builder's result is the list of requests it pushed,
    deployed with the receipt, or `Rejected` when it answers `False`.
 */
module Batch {
  import opened Wrappers
  import opened Assoc
  import opened PyJson
  import opened Sorting
  import opened InaModels

  /** The task a request runs: the three fixed tasks of the task constants
      module (not part of this model) or a task from the task dictionary. */
  datatype Pushed = SwapUser | GetOrderById | FindOrder | RunTask(task: Task)

  /** One `handler.push(task, elut=lut, ...)`; `quiet` is `trace=False`. */
  datatype Request = Request(what: Pushed, lut: Lut, quiet: bool)

  datatype Outcome = Rejected | Deployed(receipt: Json, plan: seq<Request>)

  /** `row.get(k)` on a row already known to be a dict. */
  function Lookup(row: Json, k: string): Json {
    match row
    case JObj(fs) => Get(fs, k).GetOr(JNull)
    case _ => JNull
  }

  /** The user a request's table names. */
  function UserOf(lut: Lut): Json {
    Get(lut, "usrId").GetOr(JNull)
  }

  /** The user the browser session holds after a run of requests: the one of
      the last swap, `None` before any. */
  function SessionUser(plan: seq<Request>): (r: Json)
    decreases |plan|
  {
    if plan == [] then JNull
    else if plan[|plan| - 1].what == SwapUser then UserOf(plan[|plan| - 1].lut)
    else SessionUser(plan[..|plan| - 1])
  }

  /** Requests that act on a user's account. */
  predicate UserBound(q: Request) {
    q.what.RunTask? || q.what == FindOrder
  }

  /** Every request that acts on a user's account runs while the session
      holds that user. */
  predicate SessionConsistent(plan: seq<Request>) {
    forall i :: 0 <= i < |plan| && UserBound(plan[i]) ==> SessionUser(plan[..i]) == UserOf(plan[i].lut)
  }

  function CountOf(plan: seq<Request>, what: Pushed): (r: nat)
    ensures r <= |plan|
    decreases |plan|
  {
    if plan == [] then 0 else (if plan[0].what == what then 1 else 0) + CountOf(plan[1..], what)
  }

  lemma {:induction false} CountOfAppend(a: seq<Request>, b: seq<Request>, what: Pushed)
    ensures CountOf(a + b, what) == CountOf(a, what) + CountOf(b, what)
    decreases |a|
  {
    if a != [] {
      assert (a + b)[1..] == a[1..] + b;
      CountOfAppend(a[1..], b, what);
    } else {
      assert a + b == b;
    }
  }

  /** `{**base, **(row["lut"] or {})}`: the row's own table, when it has a
      truthy one, overrides the base. */
  function RowLut(base: Lut, row: Json): (r: Result<Lut>)
    ensures r.Success? ==> row.JObj? && HasKey(row.fields, "lut")
    ensures row.JObj? && !HasKey(row.fields, "lut") ==> r == Failure(KeyError)
    ensures r.Success? && !Truthy(Get(row.fields, "lut").value) ==> r.value == base
    ensures r.Success? && Truthy(Get(row.fields, "lut").value) ==>
            Get(row.fields, "lut").value.JObj? && r.value == Overlay(base, Get(row.fields, "lut").value.fields)
  {
    var extra :- Field(row, "lut");
    if !Truthy(extra) then Success(base)
    else if extra.JObj? then Success(Overlay(base, extra.fields))
    else Failure(TypeError)
  }

  /** A usable sort key: strings, and numbers with booleans as 0 and 1. */
  function SortKeyOf(j: Json): Option<SortKey> {
    match j
    case JStr(s) => Some(StrKey(s))
    case JNum(n) => Some(NumKey(n))
    case JBool(b) => Some(NumKey(if b then 1 else 0))
    case _ => None
  }

  /** Every row's key is usable, and all keys are of one kind. */
  predicate Comparable(rows: seq<Json>, key: Json -> Json) {
    (forall i :: 0 <= i < |rows| ==> SortKeyOf(key(rows[i])).Some?) &&
    ((forall i :: 0 <= i < |rows| ==> SortKeyOf(key(rows[i])).value.NumKey?) ||
     (forall i :: 0 <= i < |rows| ==> SortKeyOf(key(rows[i])).value.StrKey?))
  }

  /** Row `a` may stand before row `b` in the sorted list: both keys are
      usable and `b`'s is not below `a`'s. */
  predicate InOrder(key: Json -> Json, a: Json, b: Json) {
    SortKeyOf(key(a)).Some? && SortKeyOf(key(b)).Some? &&
    !Less(SortKeyOf(key(b)).value, SortKeyOf(key(a)).value)
  }

  /** The rows whose key is `k`, in their order. */
  function RowsWithKey(rows: seq<Json>, key: Json -> Json, k: SortKey): (r: seq<Json>)
    ensures |r| <= |rows|
    decreases |rows|
  {
    if rows == [] then []
    else (if SortKeyOf(key(rows[0])) == Some(k) then [rows[0]] else []) + RowsWithKey(rows[1..], key, k)
  }

  /** Pairs whose key is the one their row's key function gives. */
  predicate KeyedBy(ps: seq<(SortKey, Json)>, key: Json -> Json) {
    forall i :: 0 <= i < |ps| ==> SortKeyOf(key(ps[i].1)) == Some(ps[i].0)
  }

  /** Each row paired with its key. */
  function Keyed(rows: seq<Json>, key: Json -> Json): (r: seq<(SortKey, Json)>)
    requires forall i :: 0 <= i < |rows| ==> SortKeyOf(key(rows[i])).Some?
    ensures |r| == |rows| && Values(r) == rows && KeyedBy(r, key)
  {
    seq(|rows|, i requires 0 <= i < |rows| => (SortKeyOf(key(rows[i])).value, rows[i]))
  }

  /** A permutation of keyed pairs is keyed alike. */
  lemma KeyedByPermutes(ps: seq<(SortKey, Json)>, qs: seq<(SortKey, Json)>, key: Json -> Json)
    requires KeyedBy(ps, key) && multiset(qs) == multiset(ps)
    ensures KeyedBy(qs, key)
  {
    forall i | 0 <= i < |qs|
      ensures SortKeyOf(key(qs[i].1)) == Some(qs[i].0)
    {
      assert qs[i] in multiset(ps);
      var j :| 0 <= j < |ps| && ps[j] == qs[i];
    }
  }

  /** Among keyed pairs, the rows of the pairs with key `k` are the rows
      whose key is `k`. */
  lemma {:induction false} ValuesWithKey(ps: seq<(SortKey, Json)>, key: Json -> Json, k: SortKey)
    requires KeyedBy(ps, key)
    ensures Values(WithKey(ps, k)) == RowsWithKey(Values(ps), key, k)
    decreases |ps|
  {
    if ps != [] {
      ValuesWithKey(ps[1..], key, k);
      assert Values(ps)[1..] == Values(ps[1..]);
      var h := if ps[0].0 == k then [ps[0]] else [];
      assert Values(h + WithKey(ps[1..], k)) == Values(h) + Values(WithKey(ps[1..], k));
    }
  }

  /** `data.sort(key=...)`: fewer than two rows are never compared;
      otherwise keys Python cannot order against each other raise
      `TypeError`, and the rows come out in ascending key order, rows of
      equal key in their original order. */
  function SortRows(rows: seq<Json>, key: Json -> Json): (r: Result<seq<Json>>)
    ensures |rows| < 2 ==> r == Success(rows)
    ensures r.Failure? <==> |rows| >= 2 && !Comparable(rows, key)
    ensures r.Failure? ==> r.error == TypeError
    ensures r.Success? ==> |r.value| == |rows| && multiset(r.value) == multiset(rows)
    ensures r.Success? && |rows| >= 2 ==>
            forall i, j :: 0 <= i < j < |r.value| ==> InOrder(key, r.value[i], r.value[j])
    ensures r.Success? ==> forall k :: RowsWithKey(r.value, key, k) == RowsWithKey(rows, key, k)
  {
    if |rows| < 2 then Success(rows)
    else if !Comparable(rows, key) then Failure(TypeError)
    else
      var ps := Keyed(rows, key);
      var sorted := SortByKey(ps);
      SortValuesPermute(ps);
      SortPermutes(ps);
      SortedBySort(ps);
      KeyedByPermutes(ps, sorted, key);
      assert forall i, j :: 0 <= i < j < |sorted| ==> InOrder(key, Values(sorted)[i], Values(sorted)[j]);
      assert forall k :: RowsWithKey(Values(sorted), key, k) == RowsWithKey(rows, key, k) by {
        forall k
          ensures RowsWithKey(Values(sorted), key, k) == RowsWithKey(rows, key, k)
        {
          SortStable(ps, k);
          ValuesWithKey(sorted, key, k);
          ValuesWithKey(ps, key, k);
        }
      }
      Success(Values(sorted))
  }

  // ---------------------------------------------------------------- create_job

  /** The row filter of `create_job`: the current builder keeps rows with a
      truthy environment, name and user (__init__.py:86), the older one
      rows with a truthy user (tasks.py:86).  Rows must be dicts. */
  function Retain(items: seq<Json>, strict: bool): (r: Result<seq<Json>>)
    ensures r.Success? ==> |r.value| <= |items|
    ensures r.Success? ==>
      forall i :: 0 <= i < |r.value| ==>
        (r.value[i].JObj? && r.value[i] in items && Truthy(Lookup(r.value[i], "usrId")) &&
         (strict ==> Truthy(Lookup(r.value[i], "env")) && Truthy(Lookup(r.value[i], "name"))))
    ensures (forall i :: 0 <= i < |items| ==> items[i].JObj?) ==> r.Success?
    decreases |items|
  {
    if items == [] then Success([])
    else if !items[0].JObj? then Failure(AttributeError)
    else
      var row := items[0];
      var keep := (!strict || (Truthy(Lookup(row, "env")) && Truthy(Lookup(row, "name")))) && Truthy(Lookup(row, "usrId"));
      var rest :- Retain(items[1..], strict);
      Success(if keep then [row] + rest else rest)
  }

  /** Integers as Python adds them: numbers, and booleans as 0 and 1. */
  predicate IntLike(j: Json) {
    j.JNum? || j.JBool?
  }

  /** `TASKS_DICT.get(Key(env, name))`.  The look-up hashes `env + name`
      (models.py:45-46): two strings give the key of a task, if the
      dictionary has one; two integers add and hash, but their key equals
      no key of string parts; any other pair raises `TypeError`, since
      Python cannot add the two, or cannot hash the sum of two lists. */
  function RowTask(table: Assoc<Key, Task>, env: Json, name: Json): (r: Result<Option<Task>>)
    ensures r.Failure? <==> !(env.JStr? && name.JStr?) && !(IntLike(env) && IntLike(name))
    ensures r.Failure? ==> r.error == TypeError
    ensures env.JStr? && name.JStr? ==> r == Success(Get(table, Key(env.s, name.s)))
    ensures r.Success? && r.value.Some? ==> env.JStr? && name.JStr? && (Key(env.s, name.s), r.value.value) in table
  {
    if env.JStr? && name.JStr? then Success(Get(table, Key(env.s, name.s)))
    else if IntLike(env) && IntLike(name) then Success(None)
    else Failure(TypeError)
  }

  /** One row of `create_job`'s loop read: its environment, name, table
      (the row's user overridden by the row's own table) and the table's
      user.  A missing field raises `KeyError`. */
  function RowFields(row: Json): (r: Result<(Json, Json, Lut, Json)>)
    ensures r.Success? ==> UserOf(r.value.2) == r.value.3
    ensures r.Success? ==> row.JObj? && HasKey(row.fields, "env") && HasKey(row.fields, "name") && HasKey(row.fields, "usrId")
  {
    var env :- Field(row, "env");
    var name :- Field(row, "name");
    var usr :- Field(row, "usrId");
    var lut :- RowLut([("usrId", usr)], row);
    var curr :- Field(JObj(lut), "usrId");
    Success((env, name, lut, curr))
  }

  /** What one row pushes: nothing when it names no task; otherwise a user
      swap when its user differs from the previous one, then the task. */
  function RowRequests(prev: Json, curr: Json, lut: Lut, what: Option<Pushed>): (r: seq<Request>)
    ensures what.None? <==> r == []
    ensures what.Some? ==> r[|r| - 1] == Request(what.value, lut, false)
    ensures what.Some? ==> (|r| == 2 <==> prev != curr) && (|r| == 2 ==> r[0] == Request(SwapUser, lut, true))
  {
    if what.None? then []
    else (if prev != curr then [Request(SwapUser, lut, true)] else []) + [Request(what.value, lut, false)]
  }

  /** The request a row's task makes, if the task exists. */
  function Run(task: Option<Task>): Option<Pushed> {
    if task.None? then None else Some(RunTask(task.value))
  }

  /** The loop of `create_job` (__init__.py:99-110, tasks.py:99-110) AS
      WRITTEN: the previous user advances on every row, also on rows whose
      task does not exist and which push nothing. */
  function JobRowsAsWritten(table: Assoc<Key, Task>, rows: seq<Json>, prev: Json): (r: Result<seq<Request>>)
    ensures r.Success? ==> CountOf(r.value, SwapUser) <= |rows|
    decreases |rows|
  {
    if rows == [] then Success([])
    else
      var f :- RowFields(rows[0]);
      var task :- RowTask(table, f.0, f.1);
      var here := RowRequests(prev, f.3, f.2, Run(task));
      var rest :- JobRowsAsWritten(table, rows[1..], f.3);
      CountOfAppend(here, rest, SwapUser);
      Success(here + rest)
  }

  /** A row of user `u` naming task `name` of environment `env`, with no
      table of its own. */
  function PlainRow(env: string, name: string, u: string): Json {
    JObj([("env", JStr(env)), ("name", JStr(name)), ("usrId", JStr(u)), ("lut", JNull)])
  }

  /** The four fields of a plain row read back as written. */
  lemma PlainRowGets(env: string, name: string, u: string)
    ensures Field(PlainRow(env, name, u), "env") == Success(JStr(env))
    ensures Field(PlainRow(env, name, u), "name") == Success(JStr(name))
    ensures Field(PlainRow(env, name, u), "usrId") == Success(JStr(u))
    ensures Field(PlainRow(env, name, u), "lut") == Success(JNull)
  {
    var fs := PlainRow(env, name, u).fields;
    assert "env"[0] == 'e' && "name"[0] == 'n' && "usrId"[0] == 'u' && "lut"[0] == 'l';
    assert Distinct(fs);
    GetEntry(fs, 0);
    GetEntry(fs, 1);
    GetEntry(fs, 2);
    GetEntry(fs, 3);
  }

  lemma PlainRowFields(env: string, name: string, u: string)
    ensures RowFields(PlainRow(env, name, u)) == Success((JStr(env), JStr(name), [("usrId", JStr(u))], JStr(u)))
  {
    var lut: Lut := [("usrId", JStr(u))];
    PlainRowGets(env, name, u);
    assert RowLut(lut, PlainRow(env, name, u)) == Success(lut);
    assert Field(JObj(lut), "usrId") == Success(JStr(u));
  }

  /** One turn of the as-written loop on a row whose fields read. */
  lemma AsWrittenStep(table: Assoc<Key, Task>, rows: seq<Json>, prev: Json)
    requires rows != [] && RowFields(rows[0]).Success?
    requires RowTask(table, RowFields(rows[0]).value.0, RowFields(rows[0]).value.1).Success?
    requires JobRowsAsWritten(table, rows[1..], RowFields(rows[0]).value.3).Success?
    ensures var f := RowFields(rows[0]).value;
            JobRowsAsWritten(table, rows, prev) ==
            Success(RowRequests(prev, f.3, f.2, Run(RowTask(table, f.0, f.1).value)) +
                    JobRowsAsWritten(table, rows[1..], f.3).value)
  {
  }

  /** As written, a single row whose fields read pushes its own requests. */
  lemma AsWrittenOneRow(table: Assoc<Key, Task>, row: Json, prev: Json)
    requires RowFields(row).Success? && RowTask(table, RowFields(row).value.0, RowFields(row).value.1).Success?
    ensures var f := RowFields(row).value;
            JobRowsAsWritten(table, [row], prev) == Success(RowRequests(prev, f.3, f.2, Run(RowTask(table, f.0, f.1).value)))
  {
    var f := RowFields(row).value;
    assert [row][1..] == [];
    assert JobRowsAsWritten(table, [row][1..], f.3) == Success([]);
    AsWrittenStep(table, [row], prev);
    var here := RowRequests(prev, f.3, f.2, Run(RowTask(table, f.0, f.1).value));
    assert here + [] == here;
  }

  /** As written, a row naming an existing task of the user the loop saw
      last runs it with no swap. */
  lemma AsWrittenLastRow(table: Assoc<Key, Task>, rows: seq<Json>, env: string, present: string, u: string)
    requires Get(table, Key(env, present)).Some?
    requires rows == [PlainRow(env, present, u)]
    ensures JobRowsAsWritten(table, rows, JStr(u)) == Success([Request(RunTask(Get(table, Key(env, present)).value), [("usrId", JStr(u))], false)])
  {
    var t := Get(table, Key(env, present)).value;
    var lut: Lut := [("usrId", JStr(u))];
    PlainRowFields(env, present, u);
    AsWrittenOneRow(table, PlainRow(env, present, u), JStr(u));
    assert RowTask(table, JStr(env), JStr(present)).value == Some(t);
    assert RowRequests(JStr(u), JStr(u), lut, Run(Some(t))) == [Request(RunTask(t), lut, false)];
  }

  /** Two rows of one user: the first names a task the dictionary lacks,
      the second one it has.  As written, the skipped row already counts as
      its user being logged in, so the task runs with no swap before it,
      under whatever user the session held. */
  lemma AsWrittenSkipsSwap(table: Assoc<Key, Task>, env: string, missing: string, present: string, u: string)
    requires Get(table, Key(env, missing)).None? && Get(table, Key(env, present)).Some?
    ensures var rows := [PlainRow(env, missing, u), PlainRow(env, present, u)];
            var task := Get(table, Key(env, present)).value;
            JobRowsAsWritten(table, rows, JNull) == Success([Request(RunTask(task), [("usrId", JStr(u))], false)]) &&
            !SessionConsistent(JobRowsAsWritten(table, rows, JNull).value)
  {
    var task := Get(table, Key(env, present)).value;
    var rows := [PlainRow(env, missing, u), PlainRow(env, present, u)];
    var plan := [Request(RunTask(task), [("usrId", JStr(u))], false)];
    PlainRowFields(env, missing, u);
    var f := RowFields(rows[0]).value;
    assert f.3 == JStr(u) && f.2 == [("usrId", JStr(u))] && f.0 == JStr(env) && f.1 == JStr(missing);
    AsWrittenLastRow(table, rows[1..], env, present, u);
    AsWrittenStep(table, rows, JNull);
    assert RowTask(table, f.0, f.1).value == None;
    assert RowRequests(JNull, f.3, f.2, Run(None)) == [];
    assert [] + plan == plan;
    assert JobRowsAsWritten(table, rows, JNull) == Success(plan);
    assert plan[..0] == [];
    assert UserBound(plan[0]) && SessionUser(plan[..0]) != UserOf(plan[0].lut);
  }

  /** One turn of the corrected loop on a row whose fields read. */
  lemma CorrectedStep(table: Assoc<Key, Task>, rows: seq<Json>, prev: Json)
    requires rows != [] && RowFields(rows[0]).Success?
    requires RowTask(table, RowFields(rows[0]).value.0, RowFields(rows[0]).value.1).Success?
    requires var f := RowFields(rows[0]).value;
             JobRows(table, rows[1..], if RowTask(table, f.0, f.1).value.None? then prev else f.3).Success?
    ensures var f := RowFields(rows[0]).value;
            var task := RowTask(table, f.0, f.1).value;
            JobRows(table, rows, prev) ==
            Success(RowRequests(prev, f.3, f.2, Run(task)) +
                    JobRows(table, rows[1..], if task.None? then prev else f.3).value)
  {
  }

  /** A row of a new user pushes the swap, then its task. */
  lemma SwapThenRun(prev: Json, curr: Json, lut: Lut, what: Pushed)
    requires prev != curr
    ensures RowRequests(prev, curr, lut, Some(what)) == [Request(SwapUser, lut, true), Request(what, lut, false)]
  {
  }

  /** Corrected, a single row whose fields read pushes its own requests. */
  lemma CorrectedOneRow(table: Assoc<Key, Task>, row: Json, prev: Json)
    requires RowFields(row).Success? && RowTask(table, RowFields(row).value.0, RowFields(row).value.1).Success?
    ensures var f := RowFields(row).value;
            JobRows(table, [row], prev) == Success(RowRequests(prev, f.3, f.2, Run(RowTask(table, f.0, f.1).value)))
  {
    var f := RowFields(row).value;
    var task := RowTask(table, f.0, f.1).value;
    assert [row][1..] == [];
    assert JobRows(table, [row][1..], if task.None? then prev else f.3) == Success([]);
    CorrectedStep(table, [row], prev);
    var here := RowRequests(prev, f.3, f.2, Run(task));
    assert here + [] == here;
  }

  /** The corrected loop swaps to a row's user when the session holds
      nobody, then runs the row's task. */
  lemma CorrectedLastRow(table: Assoc<Key, Task>, rows: seq<Json>, env: string, present: string, u: string)
    requires Get(table, Key(env, present)).Some?
    requires rows == [PlainRow(env, present, u)]
    ensures JobRows(table, rows, JNull) ==
            Success([Request(SwapUser, [("usrId", JStr(u))], true),
                     Request(RunTask(Get(table, Key(env, present)).value), [("usrId", JStr(u))], false)])
  {
    var task := Get(table, Key(env, present)).value;
    var lut: Lut := [("usrId", JStr(u))];
    PlainRowFields(env, present, u);
    CorrectedOneRow(table, rows[0], JNull);
    SwapThenRun(JNull, JStr(u), lut, RunTask(task));
  }

  /** On the same rows the corrected loop swaps to the user before the task. */
  lemma CorrectedSwaps(table: Assoc<Key, Task>, env: string, missing: string, present: string, u: string)
    requires Get(table, Key(env, missing)).None? && Get(table, Key(env, present)).Some?
    ensures var rows := [PlainRow(env, missing, u), PlainRow(env, present, u)];
            var task := Get(table, Key(env, present)).value;
            JobRows(table, rows, JNull) ==
            Success([Request(SwapUser, [("usrId", JStr(u))], true), Request(RunTask(task), [("usrId", JStr(u))], false)])
  {
    var task := Get(table, Key(env, present)).value;
    var rows := [PlainRow(env, missing, u), PlainRow(env, present, u)];
    var lut := [("usrId", JStr(u))];
    var plan := [Request(SwapUser, lut, true), Request(RunTask(task), lut, false)];
    PlainRowFields(env, missing, u);
    var f := RowFields(rows[0]).value;
    assert f.3 == JStr(u) && f.2 == lut && f.0 == JStr(env) && f.1 == JStr(missing);
    assert RowTask(table, f.0, f.1).value == None;
    CorrectedLastRow(table, rows[1..], env, present, u);
    CorrectedStep(table, rows, JNull);
    assert RowRequests(JNull, f.3, f.2, Run(None)) == [];
    assert [] + plan == plan;
  }

  /** The loop of `create_job` as evidently intended: the previous user
      advances only when a task was pushed for it, so every task runs under
      the user of its row. */
  function JobRows(table: Assoc<Key, Task>, rows: seq<Json>, prev: Json): (r: Result<seq<Request>>)
    ensures r.Success? ==> CountOf(r.value, SwapUser) <= |rows|
    decreases |rows|
  {
    if rows == [] then Success([])
    else
      var f :- RowFields(rows[0]);
      var task :- RowTask(table, f.0, f.1);
      var here := RowRequests(prev, f.3, f.2, Run(task));
      var rest :- JobRows(table, rows[1..], if task.None? then prev else f.3);
      CountOfAppend(here, rest, SwapUser);
      Success(here + rest)
  }

  /** The session after `acc + more` is decided by `more` when it swaps,
      and by `acc` otherwise. */
  lemma {:induction false} SessionUserAppend(acc: seq<Request>, more: seq<Request>)
    ensures CountOf(more, SwapUser) == 0 ==> SessionUser(acc + more) == SessionUser(acc)
    ensures more != [] && more[|more| - 1].what == SwapUser ==> SessionUser(acc + more) == UserOf(more[|more| - 1].lut)
    decreases |more|
  {
    if more != [] {
      var init := more[..|more| - 1];
      assert (acc + more)[..|acc + more| - 1] == acc + init;
      assert more == init + [more[|more| - 1]];
      CountOfAppend(init, [more[|more| - 1]], SwapUser);
      SessionUserAppend(acc, init);
    } else {
      assert acc + more == acc;
    }
  }

  /** The corrected loop keeps the session consistent: started with the
      session holding `prev`, every task it pushes runs under its row's user. */
  lemma {:induction false} JobRowsConsistent(table: Assoc<Key, Task>, rows: seq<Json>, prev: Json, acc: seq<Request>)
    requires SessionConsistent(acc) && SessionUser(acc) == prev
    requires JobRows(table, rows, prev).Success?
    ensures SessionConsistent(acc + JobRows(table, rows, prev).value)
    decreases |rows|
  {
    if rows == [] {
      assert acc + [] == acc;
    } else {
      var (env, name, lut, curr) := RowFields(rows[0]).value;
      var task := RowTask(table, env, name).value;
      var here := RowRequests(prev, curr, lut, Run(task));
      var next := if task.None? then prev else curr;
      var rest := JobRows(table, rows[1..], next).value;
      assert JobRows(table, rows, prev).value == here + rest;
      AppendConsistent(acc, prev, curr, lut, Run(task));
      JobRowsConsistent(table, rows[1..], next, acc + here);
      ConsistentAssoc(acc, here, rest);
    }
  }

  lemma ConsistentAssoc(a: seq<Request>, b: seq<Request>, c: seq<Request>)
    requires SessionConsistent((a + b) + c)
    ensures SessionConsistent(a + (b + c))
  {
    assert a + (b + c) == (a + b) + c;
  }

  /** One row's requests keep the session consistent and leave it at the
      row's user when they ran a task. */
  lemma AppendConsistent(acc: seq<Request>, prev: Json, curr: Json, lut: Lut, what: Option<Pushed>)
    requires SessionConsistent(acc) && SessionUser(acc) == prev && UserOf(lut) == curr
    requires what != Some(SwapUser)
    ensures SessionConsistent(acc + RowRequests(prev, curr, lut, what))
    ensures SessionUser(acc + RowRequests(prev, curr, lut, what)) == if what.None? then prev else curr
  {
    var here := RowRequests(prev, curr, lut, what);
    if what.None? {
      assert acc + here == acc;
    } else {
      var run := Request(what.value, lut, false);
      var swap := if prev != curr then [Request(SwapUser, lut, true)] else [];
      var before := acc + swap;
      assert SessionUser(before) == curr by {
        if prev != curr {
          SessionUserAppend(acc, swap);
        } else {
          assert before == acc;
        }
      }
      assert SessionConsistent(before) by {
        forall i | 0 <= i < |before| && UserBound(before[i])
          ensures SessionUser(before[..i]) == UserOf(before[i].lut)
        {
          assert i < |acc|;
          assert before[..i] == acc[..i];
        }
      }
      assert acc + here == before + [run];
      SessionUserAppend(before, [run]);
      forall i | 0 <= i < |before + [run]| && UserBound((before + [run])[i])
        ensures SessionUser((before + [run])[..i]) == UserOf((before + [run])[i].lut)
      {
        if i < |before| {
          assert (before + [run])[..i] == before[..i];
        } else {
          assert (before + [run])[..i] == before;
        }
      }
    }
  }

  // ------------------------------------------------------ the tasks a plan runs

  /** The requests of a plan that run something, in order: the plan
      without its swaps. */
  function Runs(plan: seq<Request>): (r: seq<Request>)
    ensures |r| <= |plan|
    decreases |plan|
  {
    if plan == [] then [] else (if plan[0].what == SwapUser then [] else [plan[0]]) + Runs(plan[1..])
  }

  lemma {:induction false} RunsAppend(a: seq<Request>, b: seq<Request>)
    ensures Runs(a + b) == Runs(a) + Runs(b)
    decreases |a|
  {
    if a != [] {
      assert (a + b)[1..] == a[1..] + b;
      RunsAppend(a[1..], b);
      var h := if a[0].what == SwapUser then [] else [a[0]];
      assert h + (Runs(a[1..]) + Runs(b)) == (h + Runs(a[1..])) + Runs(b);
    } else {
      assert a + b == b;
    }
  }

  /** The task runs a list of rows asks for, read row by row with no regard
      to users: one per row whose task exists, with the row's table. */
  function RowRuns(table: Assoc<Key, Task>, rows: seq<Json>): (r: Result<seq<Request>>)
    ensures r.Success? ==> |r.value| <= |rows|
    ensures r.Success? ==> forall i :: 0 <= i < |r.value| ==> r.value[i].what.RunTask? && !r.value[i].quiet
    decreases |rows|
  {
    if rows == [] then Success([])
    else
      var f :- RowFields(rows[0]);
      var task :- RowTask(table, f.0, f.1);
      var rest :- RowRuns(table, rows[1..]);
      Success((if task.None? then [] else [Request(RunTask(task.value), f.2, false)]) + rest)
  }

  /** The runs among one row's requests. */
  lemma RowRequestsRuns(prev: Json, curr: Json, lut: Lut, task: Option<Task>)
    ensures Runs(RowRequests(prev, curr, lut, Run(task))) ==
            if task.None? then [] else [Request(RunTask(task.value), lut, false)]
  {
    var what := Run(task);
    if what.Some? {
      var run := Request(what.value, lut, false);
      var swap := if prev != curr then [Request(SwapUser, lut, true)] else [];
      RunsAppend(swap, [run]);
      assert Runs([run]) == [run] + Runs([]);
      if prev != curr {
        assert Runs(swap) == [] + Runs([]);
      }
    }
  }

  /** As written, the loop runs exactly the rows' tasks, in row order, and
      fails exactly as reading the rows does. */
  lemma {:induction false} JobRowsAsWrittenRuns(table: Assoc<Key, Task>, rows: seq<Json>, prev: Json)
    ensures JobRowsAsWritten(table, rows, prev).Success? == RowRuns(table, rows).Success?
    ensures JobRowsAsWritten(table, rows, prev).Success? ==>
            RowRuns(table, rows).value == Runs(JobRowsAsWritten(table, rows, prev).value)
    ensures JobRowsAsWritten(table, rows, prev).Failure? ==>
            RowRuns(table, rows).error == JobRowsAsWritten(table, rows, prev).error
    decreases |rows|
  {
    if rows != [] && RowFields(rows[0]).Success? {
      var f := RowFields(rows[0]).value;
      if RowTask(table, f.0, f.1).Success? {
        var task := RowTask(table, f.0, f.1).value;
        JobRowsAsWrittenRuns(table, rows[1..], f.3);
        if JobRowsAsWritten(table, rows[1..], f.3).Success? {
          var here := RowRequests(prev, f.3, f.2, Run(task));
          RunsAppend(here, JobRowsAsWritten(table, rows[1..], f.3).value);
          RowRequestsRuns(prev, f.3, f.2, task);
        }
      }
    }
  }

  /** The corrected loop runs the same tasks, in the same order. */
  lemma {:induction false} JobRowsRuns(table: Assoc<Key, Task>, rows: seq<Json>, prev: Json)
    ensures JobRows(table, rows, prev).Success? == RowRuns(table, rows).Success?
    ensures JobRows(table, rows, prev).Success? ==>
            RowRuns(table, rows).value == Runs(JobRows(table, rows, prev).value)
    ensures JobRows(table, rows, prev).Failure? ==>
            RowRuns(table, rows).error == JobRows(table, rows, prev).error
    decreases |rows|
  {
    if rows != [] && RowFields(rows[0]).Success? {
      var f := RowFields(rows[0]).value;
      if RowTask(table, f.0, f.1).Success? {
        var task := RowTask(table, f.0, f.1).value;
        var next := if task.None? then prev else f.3;
        JobRowsRuns(table, rows[1..], next);
        if JobRows(table, rows[1..], next).Success? {
          var here := RowRequests(prev, f.3, f.2, Run(task));
          RunsAppend(here, JobRows(table, rows[1..], next).value);
          RowRequestsRuns(prev, f.3, f.2, task);
        }
      }
    }
  }

  /** A row whose fields read and whose key is looked up without error, but
      which names no task of the dictionary. */
  predicate MissesTask(table: Assoc<Key, Task>, row: Json) {
    RowFields(row).Success? &&
    RowTask(table, RowFields(row).value.0, RowFields(row).value.1) == Success(None)
  }

  predicate NamesMissingTask(table: Assoc<Key, Task>, rows: seq<Json>) {
    exists i :: 0 <= i < |rows| && MissesTask(table, rows[i])
  }

  /** The two loops differ only through rows naming a missing task: without
      such rows they push the same requests, or fail alike. */
  lemma {:induction false} AsWrittenAgrees(table: Assoc<Key, Task>, rows: seq<Json>, prev: Json)
    requires !NamesMissingTask(table, rows)
    ensures JobRowsAsWritten(table, rows, prev) == JobRows(table, rows, prev)
    decreases |rows|
  {
    if rows != [] {
      assert !MissesTask(table, rows[0]);
      assert !NamesMissingTask(table, rows[1..]) by {
        forall i | 0 <= i < |rows[1..]|
          ensures !MissesTask(table, rows[1..][i])
        {
          assert rows[1..][i] == rows[i + 1];
        }
      }
      if RowFields(rows[0]).Success? {
        var f := RowFields(rows[0]).value;
        AsWrittenAgrees(table, rows[1..], f.3);
      }
    }
  }

  // ------------------------------------------------------------------- builders

  /** Which copy of the builders: the current package (__init__.py) or
      the older module (tasks.py).  They differ in the `create_job` row
      filter and in `create_scan`'s default user. */
  datatype Variant = Current | Legacy

  /** The answer of a builder whose `try` block ended with `body`: only a
      `KeyError` is caught, and answered `False`. */
  function Conclude(receipt: Json, body: Result<seq<Request>>): (r: Result<Outcome>)
    ensures body.Success? ==> r == Success(Deployed(receipt, body.value))
    ensures body == Failure(KeyError) ==> r == Success(Rejected)
    ensures body.Failure? && body.error != KeyError ==> r == Failure(body.error)
  {
    match body
    case Success(plan) => Success(Deployed(receipt, plan))
    case Failure(err) => if err == KeyError then Success(Rejected) else Failure(err)
  }

  /** The key `create_job` sorts by: `row["usrId"]` of a row the filter
      kept. */
  function UserKey(row: Json): Json {
    Lookup(row, "usrId")
  }

  /** The rows `create_job` loops over: the kept rows, sorted by user. */
  function JobRowsOf(data: Json, v: Variant): (r: Result<seq<Json>>)
    ensures r.Success? ==> Iterate(data).Success? && Retain(Iterate(data).value, v == Current).Success? &&
                           SortRows(Retain(Iterate(data).value, v == Current).value, UserKey) == r
    ensures r.Success? ==> forall i :: 0 <= i < |r.value| ==> r.value[i] in Iterate(data).value
  {
    var items :- Iterate(data);
    var rows :- Retain(items, v == Current);
    var sorted :- SortRows(rows, UserKey);
    assert forall i :: 0 <= i < |sorted| ==> sorted[i] in multiset(rows);
    Success(sorted)
  }

  /** The body of `create_job`'s `try` block AS WRITTEN: filter, sort by
      user, and the loop from no previous user.  It runs the task of every
      kept row whose task exists, in the sorted row order; when no row names
      a missing task, it is the intended body, which runs every task under
      its row's user. */
  function JobPlan(table: Assoc<Key, Task>, data: Json, v: Variant): (r: Result<seq<Request>>)
    ensures r.Success? ==> Iterate(data).Success? && CountOf(r.value, SwapUser) <= |Iterate(data).value|
    ensures r.Success? ==> JobRowsOf(data, v).Success? && RowRuns(table, JobRowsOf(data, v).value) == Success(Runs(r.value))
    ensures Iterate(data).Success? && !NamesMissingTask(table, Iterate(data).value) ==> r == JobPlanIntended(table, data, v)
  {
    var sorted :- JobRowsOf(data, v);
    JobRowsAsWrittenRuns(table, sorted, JNull);
    assert !NamesMissingTask(table, Iterate(data).value) ==>
           JobRowsAsWritten(table, sorted, JNull) == JobRows(table, sorted, JNull) by {
      if !NamesMissingTask(table, Iterate(data).value) {
        forall i | 0 <= i < |sorted|
          ensures !MissesTask(table, sorted[i])
        {
          var j :| 0 <= j < |Iterate(data).value| && Iterate(data).value[j] == sorted[i];
        }
        AsWrittenAgrees(table, sorted, JNull);
      }
    }
    var plan :- JobRowsAsWritten(table, sorted, JNull);
    Success(plan)
  }

  /** The body of `create_job`'s `try` block as evidently intended: the
      corrected loop, which runs every task under its row's user. */
  function JobPlanIntended(table: Assoc<Key, Task>, data: Json, v: Variant): (r: Result<seq<Request>>)
    ensures r.Success? ==> Iterate(data).Success? && CountOf(r.value, SwapUser) <= |Iterate(data).value|
    ensures r.Success? ==> JobRowsOf(data, v).Success? && RowRuns(table, JobRowsOf(data, v).value) == Success(Runs(r.value))
    ensures r.Success? ==> SessionConsistent(r.value)
  {
    var sorted :- JobRowsOf(data, v);
    var plan :- JobRows(table, sorted, JNull);
    JobRowsRuns(table, sorted, JNull);
    JobRowsConsistent(table, sorted, JNull, []);
    assert [] + plan == plan;
    Success(plan)
  }

  /** `create_job` (__init__.py:75-114, tasks.py:75-114) as written: a
      request without truthy data is answered `False`; otherwise the plan
      of the rows is deployed, or `False` answers a missing field.  When no
      row names a missing task it is the intended `create_job`. */
  function CreateJob(table: Assoc<Key, Task>, raw: Json, v: Variant): (r: Result<Outcome>)
    ensures !raw.JObj? ==> r == Failure(AttributeError)
    ensures raw.JObj? && !Truthy(Lookup(raw, "data")) ==> r == Success(Rejected)
    ensures r.Success? && r.value.Deployed? ==> r.value.receipt == Lookup(raw, "receipt")
    ensures r.Success? && r.value.Deployed? ==>
            Iterate(Lookup(raw, "data")).Success? &&
            CountOf(r.value.plan, SwapUser) <= |Iterate(Lookup(raw, "data")).value| &&
            JobRowsOf(Lookup(raw, "data"), v).Success? &&
            RowRuns(table, JobRowsOf(Lookup(raw, "data"), v).value) == Success(Runs(r.value.plan))
    ensures Iterate(Lookup(raw, "data")).Success? && !NamesMissingTask(table, Iterate(Lookup(raw, "data")).value) ==>
            r == CreateJobIntended(table, raw, v)
  {
    if !raw.JObj? then Failure(AttributeError)
    else
      var data := Lookup(raw, "data");
      if !Truthy(data) then Success(Rejected)
      else Conclude(Lookup(raw, "receipt"), JobPlan(table, data, v))
  }

  /** `create_job` as evidently intended: every row naming an existing task
      runs it under the row's user, after a swap when the user changes. */
  function CreateJobIntended(table: Assoc<Key, Task>, raw: Json, v: Variant): (r: Result<Outcome>)
    ensures !raw.JObj? ==> r == Failure(AttributeError)
    ensures raw.JObj? && !Truthy(Lookup(raw, "data")) ==> r == Success(Rejected)
    ensures r.Success? && r.value.Deployed? ==> r.value.receipt == Lookup(raw, "receipt")
    ensures r.Success? && r.value.Deployed? ==>
            Iterate(Lookup(raw, "data")).Success? &&
            CountOf(r.value.plan, SwapUser) <= |Iterate(Lookup(raw, "data")).value| &&
            JobRowsOf(Lookup(raw, "data"), v).Success? &&
            RowRuns(table, JobRowsOf(Lookup(raw, "data"), v).value) == Success(Runs(r.value.plan))
    ensures r.Success? && r.value.Deployed? ==> SessionConsistent(r.value.plan)
  {
    if !raw.JObj? then Failure(AttributeError)
    else
      var data := Lookup(raw, "data");
      if !Truthy(data) then Success(Rejected)
      else Conclude(Lookup(raw, "receipt"), JobPlanIntended(table, data, v))
  }

  // ------------------------------------------------------------ create_scan

  /** `utils.partition(pred, xs)`: the items satisfying `pred` and the rest,
      each in their original order. */
  function Partition(xs: seq<Json>, key: string): (r: (seq<Json>, seq<Json>))
    ensures multiset(r.0) + multiset(r.1) == multiset(xs)
    ensures forall i :: 0 <= i < |r.0| ==> Truthy(Lookup(r.0[i], key))
    ensures forall i :: 0 <= i < |r.1| ==> !Truthy(Lookup(r.1[i], key))
    decreases |xs|
  {
    if xs == [] then ([], [])
    else
      var (ts, fs) := Partition(xs[1..], key);
      assert xs == [xs[0]] + xs[1..];
      if Truthy(Lookup(xs[0], key)) then ([xs[0]] + ts, fs) else (ts, [xs[0]] + fs)
  }

  /** The look-ups of `create_scan` (__init__.py:36-44 and 56-58): one per
      row with an order id, under the row's user or a default. */
  function GetRows(rows: seq<Json>, fallback: string): (r: Result<seq<Request>>)
    ensures r.Success? ==> |r.value| == |rows| && CountOf(r.value, GetOrderById) == |rows|
    ensures r.Success? ==> forall i :: 0 <= i < |r.value| ==> r.value[i].what == GetOrderById
    ensures r.Success? ==> CountOf(r.value, FindOrder) == 0 && CountOf(r.value, SwapUser) == 0
    decreases |rows|
  {
    if rows == [] then Success([])
    else
      var row := rows[0];
      var usr := if Truthy(Lookup(row, "usrId")) then Lookup(row, "usrId") else JStr(fallback);
      var order :- Field(row, "orderId");
      var lut :- RowLut([("usrId", usr), ("orderId", order)], row);
      var rest :- GetRows(rows[1..], fallback);
      assert ([Request(GetOrderById, lut, false)] + rest)[1..] == rest;
      Success([Request(GetOrderById, lut, false)] + rest)
  }

  /** One row of the searches (__init__.py:45-53 and 61-62): its table, the
      row's user and name overridden by the row's own table, and that
      table's user. */
  function FindFields(row: Json): (r: Result<(Lut, Json)>)
    ensures r.Success? ==> UserOf(r.value.0) == r.value.1
  {
    var usr :- Field(row, "usrId");
    var name :- Field(row, "name");
    var lut :- RowLut([("usrId", usr), ("name", name)], row);
    var curr :- Field(JObj(lut), "usrId");
    Success((lut, curr))
  }

  /** The search loop of `create_scan` (__init__.py:59-68): a swap whenever
      the user changes, then the search. */
  function FindRows(rows: seq<Json>, prev: Json): (r: Result<seq<Request>>)
    ensures r.Success? ==> CountOf(r.value, FindOrder) == |rows| && CountOf(r.value, GetOrderById) == 0
    ensures r.Success? ==> forall i :: 0 <= i < |r.value| ==> r.value[i].what == SwapUser || r.value[i].what == FindOrder
    decreases |rows|
  {
    if rows == [] then Success([])
    else
      var (lut, curr) :- FindFields(rows[0]);
      var here := RowRequests(prev, curr, lut, Some(FindOrder));
      var rest :- FindRows(rows[1..], curr);
      assert CountOf(here, FindOrder) == 1 && CountOf(here, GetOrderById) == 0 by {
        if prev != curr {
          assert here == [Request(SwapUser, lut, true)] + [Request(FindOrder, lut, false)];
          CountOfAppend([Request(SwapUser, lut, true)], [Request(FindOrder, lut, false)], FindOrder);
          CountOfAppend([Request(SwapUser, lut, true)], [Request(FindOrder, lut, false)], GetOrderById);
        }
      }
      CountOfAppend(here, rest, FindOrder);
      CountOfAppend(here, rest, GetOrderById);
      Success(here + rest)
  }

  lemma {:induction false} FindRowsConsistent(rows: seq<Json>, prev: Json, acc: seq<Request>)
    requires SessionConsistent(acc) && SessionUser(acc) == prev
    requires FindRows(rows, prev).Success?
    ensures SessionConsistent(acc + FindRows(rows, prev).value)
    decreases |rows|
  {
    if rows == [] {
      assert acc + [] == acc;
    } else {
      var (lut, curr) := FindFields(rows[0]).value;
      var here := RowRequests(prev, curr, lut, Some(FindOrder));
      var rest := FindRows(rows[1..], curr).value;
      assert FindRows(rows, prev).value == here + rest;
      AppendConsistent(acc, prev, curr, lut, Some(FindOrder));
      FindRowsConsistent(rows[1..], curr, acc + here);
      ConsistentAssoc(acc, here, rest);
    }
  }

  /** The user `create_scan` sorts a row by, and looks an order up under
      when the row has none. */
  function DefaultUser(v: Variant): string {
    if v == Current then "N/A" else "N/F"
  }

  /** The key `create_scan` sorts by: `row.get("usrId") or "N/F"`. */
  function ScanKey(row: Json): Json {
    if Truthy(Lookup(row, "usrId")) then Lookup(row, "usrId") else JStr("N/F")
  }

  /** No request other than a look-up comes before a look-up. */
  predicate LookupsFirst(plan: seq<Request>) {
    forall i, j :: 0 <= i < j < |plan| && plan[j].what == GetOrderById ==> plan[i].what == GetOrderById
  }

  /** Look-ups followed by requests that are none. */
  lemma LookupsThenSearches(gets: seq<Request>, finds: seq<Request>)
    requires forall i :: 0 <= i < |gets| ==> gets[i].what == GetOrderById
    requires forall i :: 0 <= i < |finds| ==> finds[i].what != GetOrderById
    ensures LookupsFirst(gets + finds)
  {
    forall i, j | 0 <= i < j < |gets + finds|
      ensures (gets + finds)[j].what == GetOrderById ==> (gets + finds)[i].what == GetOrderById
    {
      if j >= |gets| {
        assert (gets + finds)[j] == finds[j - |gets|];
      } else {
        assert (gets + finds)[i] == gets[i];
      }
    }
  }

  /** The requests `create_scan` pushes for its sorted rows: look-ups,
      which swap nobody, then searches from no previous user, so that every
      search runs under its row's user. */
  function ScanRequests(sorted: seq<Json>, v: Variant): (r: Result<seq<Request>>)
    ensures r.Success? ==> |r.value| >= |sorted|
    ensures r.Success? ==> CountOf(r.value, GetOrderById) + CountOf(r.value, FindOrder) == |sorted|
    ensures r.Success? ==> LookupsFirst(r.value)
    ensures r.Success? ==> SessionConsistent(r.value)
  {
    var (trues, falses) := Partition(sorted, "orderId");
    assert |trues| + |falses| == |sorted| by {
      assert |multiset(trues) + multiset(falses)| == |multiset(sorted)|;
    }
    var gets :- GetRows(trues, DefaultUser(v));
    var finds :- FindRows(falses, JNull);
    CountOfAppend(gets, finds, FindOrder);
    CountOfAppend(gets, finds, GetOrderById);
    SessionUserAppend([], gets);
    assert [] + gets == gets;
    assert SessionConsistent(gets);
    FindRowsConsistent(falses, JNull, gets);
    LookupsThenSearches(gets, finds);
    Success(gets + finds)
  }

  /** The body of `create_scan`'s `try` block: the rows, which must be
      dicts, sorted by user, then their requests. */
  function ScanPlan(data: Json, v: Variant): (r: Result<seq<Request>>)
    ensures r.Success? ==> data.JArr? && |r.value| >= |data.items|
    ensures r.Success? ==> CountOf(r.value, GetOrderById) + CountOf(r.value, FindOrder) == |data.items|
    ensures r.Success? ==> LookupsFirst(r.value)
    ensures r.Success? ==> SessionConsistent(r.value)
  {
    if !data.JArr? then Failure(AttributeError)
    else
      var rows := data.items;
      if exists i :: 0 <= i < |rows| && !rows[i].JObj? then Failure(AttributeError)
      else
        var sorted :- SortRows(rows, ScanKey);
        ScanRequests(sorted, v)
  }

  /** `create_scan` (__init__.py:21-73, tasks.py:21-73): rows with an order id
      become look-ups, the others searches by name; every search runs under
      its row's user. */
  function CreateScan(raw: Json, v: Variant): (r: Result<Outcome>)
    ensures !raw.JObj? ==> r == Failure(AttributeError)
    ensures raw.JObj? && !Truthy(Lookup(raw, "data")) ==> r == Success(Rejected)
    ensures r.Success? && r.value.Deployed? ==>
            r.value.receipt == Lookup(raw, "receipt") && Lookup(raw, "data").JArr? &&
            |r.value.plan| >= |Lookup(raw, "data").items|
    ensures r.Success? && r.value.Deployed? ==>
            CountOf(r.value.plan, GetOrderById) + CountOf(r.value.plan, FindOrder) == |Lookup(raw, "data").items|
    ensures r.Success? && r.value.Deployed? ==> LookupsFirst(r.value.plan)
    ensures r.Success? && r.value.Deployed? ==> SessionConsistent(r.value.plan)
  {
    if !raw.JObj? then Failure(AttributeError)
    else
      var data := Lookup(raw, "data");
      if !Truthy(data) then Success(Rejected)
      else Conclude(Lookup(raw, "receipt"), ScanPlan(data, v))
  }
}
