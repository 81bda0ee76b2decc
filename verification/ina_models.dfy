/** The ina data model (project/server/tasks/ina/models.py): task keys and
    tasks, a task being a key and a deque of commands.
 */
module InaModels {
  import opened Wrappers
  import opened Script

  /** `Key(env, name)`: two keys are equal exactly when both fields are
      (models.py:48-51), which is datatype equality. */
  datatype Key = Key(env: string, name: string)

  /** What `Key.__hash__` hashes: the concatenation of the two fields
      (models.py:45-46). */
  function HashInput(k: Key): string {
    k.env + k.name
  }

  /** Equal keys hash alike, as a dict key must. */
  lemma EqualKeysHashAlike(a: Key, b: Key)
    requires a == b
    ensures HashInput(a) == HashInput(b)
  {
  }

  /** The hash is not injective: keys that split the same text differently
      collide, and `__eq__` still tells them apart. */
  lemma HashCollision()
    ensures Key("ab", "c") != Key("a", "bc")
    ensures HashInput(Key("ab", "c")) == HashInput(Key("a", "bc"))
  {
  }

  datatype Task = Task(key: Key, cmds: seq<Command>)

  /** `Task.push` (models.py:74-83): the command goes to the right end. */
  function Push(t: Task, c: Command): (r: Task)
    ensures r.key == t.key
    ensures |r.cmds| == |t.cmds| + 1 && r.cmds[..|t.cmds|] == t.cmds && r.cmds[|t.cmds|] == c
  {
    t.(cmds := t.cmds + [c])
  }

  /** `Task.pushleft` (models.py:85-94): the command goes to the left end. */
  function PushLeft(t: Task, c: Command): (r: Task)
    ensures r.key == t.key
    ensures |r.cmds| == |t.cmds| + 1 && r.cmds[0] == c && r.cmds[1..] == t.cmds
  {
    t.(cmds := [c] + t.cmds)
  }

  /** `Task.extend` (models.py:96-105). */
  function Extend(t: Task, cs: seq<Command>): (r: Task)
    ensures r.key == t.key
    ensures |r.cmds| == |t.cmds| + |cs| && r.cmds[..|t.cmds|] == t.cmds && r.cmds[|t.cmds|..] == cs
  {
    t.(cmds := t.cmds + cs)
  }

  /** `Task.extendleft` (models.py:107-116): prepends last-to-first, which
      leaves the commands in their given order at the front. */
  function ExtendLeft(t: Task, cs: seq<Command>): (r: Task)
    ensures r.key == t.key
    ensures r.cmds == cs + t.cmds
  {
    PrependReversedLoopKeepsOrder(t.cmds, cs);
    t.(cmds := PrependReversedLoop(t.cmds, cs))
  }

  /** `Task.pop` (models.py:118-126): the rightmost command, `IndexError`
      when there is none. */
  function Pop(t: Task): (r: Result<(Task, Command)>)
    ensures r.Failure? <==> t.cmds == []
    ensures r.Failure? ==> r.error == IndexError
    ensures r.Success? ==> r.value.0.key == t.key && r.value.0.cmds + [r.value.1] == t.cmds
  {
    var (rest, c) :- PopRight(t.cmds);
    Success((t.(cmds := rest), c))
  }

  /** `Task.popleft` (models.py:128-136). */
  function PopLeft(t: Task): (r: Result<(Task, Command)>)
    ensures r.Failure? <==> t.cmds == []
    ensures r.Failure? ==> r.error == IndexError
    ensures r.Success? ==> r.value.0.key == t.key && [r.value.1] + r.value.0.cmds == t.cmds
  {
    var (rest, c) :- Script.PopLeft(t.cmds);
    Success((t.(cmds := rest), c))
  }

  /** Pushing then popping at the same end gives back the command and the
      task; so does the left-hand pair. */
  lemma PushPopRoundTrip(t: Task, c: Command)
    ensures Pop(Push(t, c)) == Success((t, c))
    ensures PopLeft(PushLeft(t, c)) == Success((t, c))
  {
    assert (t.cmds + [c])[..|t.cmds|] == t.cmds;
    assert ([c] + t.cmds)[1..] == t.cmds;
  }

  /** Extending at both ends puts the prefix first and the suffix last and
      keeps the original commands, in order, between them. */
  lemma ExtendBothEnds(t: Task, prefix: seq<Command>, suffix: seq<Command>)
    ensures Extend(ExtendLeft(t, prefix), suffix).cmds == prefix + t.cmds + suffix
    ensures ExtendLeft(Extend(t, suffix), prefix).cmds == prefix + t.cmds + suffix
  {
  }
}
