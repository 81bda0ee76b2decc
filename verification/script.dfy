/** Commands and the double-ended command queues that hold them.

    Both code bases define the same frozen `Command(label, target, argv)`
    record (project/server/tasks/ina/models.py:9-28 and
    app/backend/webauto/models/models.py) and keep commands in a
    `collections.deque`.  `target` and `argv` are kept exactly as the JSON
    decoder produced them.
 */
module Script {
  import opened Wrappers
  import opened PyJson

  /** A command: `op` is the source's `label`. */
  datatype Command = Command(op: string, target: Json, argv: Json)

  /** `deque.extendleft(reversed(xs))` written as the source's loop
      `for x in reversed(xs): q.appendleft(x)`. */
  function PrependReversedLoop<T>(q: seq<T>, xs: seq<T>): seq<T>
    decreases |xs|
  {
    if xs == [] then q else PrependReversedLoop([xs[|xs| - 1]] + q, xs[..|xs| - 1])
  }

  /** Prepending the items last-to-first leaves them in their given order
      in front of the queue. */
  lemma {:induction false} PrependReversedLoopKeepsOrder<T>(q: seq<T>, xs: seq<T>)
    ensures PrependReversedLoop(q, xs) == xs + q
    decreases |xs|
  {
    if xs != [] {
      var init := xs[..|xs| - 1];
      PrependReversedLoopKeepsOrder([xs[|xs| - 1]] + q, init);
      assert xs == init + [xs[|xs| - 1]];
    }
  }

  /** `deque.pop()`: the rightmost item and the rest. */
  function PopRight<T>(q: seq<T>): (r: Result<(seq<T>, T)>)
    ensures r.Failure? <==> q == []
    ensures r.Failure? ==> r.error == IndexError
    ensures r.Success? ==> r.value.0 + [r.value.1] == q
  {
    if q == [] then Failure(IndexError) else Success((q[..|q| - 1], q[|q| - 1]))
  }

  /** `deque.popleft()`: the leftmost item and the rest. */
  function PopLeft<T>(q: seq<T>): (r: Result<(seq<T>, T)>)
    ensures r.Failure? <==> q == []
    ensures r.Failure? ==> r.error == IndexError
    ensures r.Success? ==> [r.value.1] + r.value.0 == q
  {
    if q == [] then Failure(IndexError) else Success((q[1..], q[0]))
  }
}
