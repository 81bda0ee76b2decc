/** The webauto data model (app/backend/webauto/models/models.py): sequence
    keys and sequences, a sequence being a name, an environment and a deque
    of commands.

    The `Key` class itself is not part of the files modelled here; its
    callers build it as `Key(name, env)` (agent.py:100, service.py:94) and
    the tests use it as a dictionary key compared by value
    (tests/test_models.py:26-37), which is datatype equality.  Every caller
    reads a sequence's key as the key of its name and environment.
 */
module WebModels {
  import opened Wrappers
  import opened Script

  datatype Key = Key(name: string, env: string)

  /** `Sequence(name, env, cmds)` (models.py:32-44). */
  datatype Sequence = Sequence(name: string, env: string, cmds: seq<Command>)

  /** `sequence.key`. */
  function KeyOf(s: Sequence): Key {
    Key(s.name, s.env)
  }

  /** Two sequences share a key exactly when they share name and environment,
      whatever their commands. */
  lemma KeyOfIff(a: Sequence, b: Sequence)
    ensures KeyOf(a) == KeyOf(b) <==> a.name == b.name && a.env == b.env
  {
  }

  /** `Sequence.push` (models.py:46-55): the command goes to the right end. */
  function Push(s: Sequence, c: Command): (r: Sequence)
    ensures KeyOf(r) == KeyOf(s)
    ensures |r.cmds| == |s.cmds| + 1 && r.cmds[..|s.cmds|] == s.cmds && r.cmds[|s.cmds|] == c
  {
    s.(cmds := s.cmds + [c])
  }

  /** `Sequence.pushleft` (models.py:57-66): the command goes to the left end. */
  function PushLeft(s: Sequence, c: Command): (r: Sequence)
    ensures KeyOf(r) == KeyOf(s)
    ensures |r.cmds| == |s.cmds| + 1 && r.cmds[0] == c && r.cmds[1..] == s.cmds
  {
    s.(cmds := [c] + s.cmds)
  }

  /** `Sequence.extend` (models.py:68-77). */
  function Extend(s: Sequence, cs: seq<Command>): (r: Sequence)
    ensures KeyOf(r) == KeyOf(s)
    ensures |r.cmds| == |s.cmds| + |cs| && r.cmds[..|s.cmds|] == s.cmds && r.cmds[|s.cmds|..] == cs
  {
    s.(cmds := s.cmds + cs)
  }

  /** `Sequence.extendleft` (models.py:79-88): prepends last-to-first, which
      leaves the commands in their given order at the front. */
  function ExtendLeft(s: Sequence, cs: seq<Command>): (r: Sequence)
    ensures KeyOf(r) == KeyOf(s)
    ensures r.cmds == cs + s.cmds
  {
    PrependReversedLoopKeepsOrder(s.cmds, cs);
    s.(cmds := PrependReversedLoop(s.cmds, cs))
  }

  /** `Sequence.pop` (models.py:90-98): the rightmost command, `IndexError`
      when there is none. */
  function Pop(s: Sequence): (r: Result<(Sequence, Command)>)
    ensures r.Failure? <==> s.cmds == []
    ensures r.Failure? ==> r.error == IndexError
    ensures r.Success? ==> KeyOf(r.value.0) == KeyOf(s) && r.value.0.cmds + [r.value.1] == s.cmds
  {
    var (rest, c) :- PopRight(s.cmds);
    Success((s.(cmds := rest), c))
  }

  /** `Sequence.popleft` (models.py:100-108). */
  function PopLeft(s: Sequence): (r: Result<(Sequence, Command)>)
    ensures r.Failure? <==> s.cmds == []
    ensures r.Failure? ==> r.error == IndexError
    ensures r.Success? ==> KeyOf(r.value.0) == KeyOf(s) && [r.value.1] + r.value.0.cmds == s.cmds
  {
    var (rest, c) :- Script.PopLeft(s.cmds);
    Success((s.(cmds := rest), c))
  }

  /** Pushing then popping at the same end gives back the command and the
      sequence; so does the left-hand pair. */
  lemma PushPopRoundTrip(s: Sequence, c: Command)
    ensures Pop(Push(s, c)) == Success((s, c))
    ensures PopLeft(PushLeft(s, c)) == Success((s, c))
  {
    assert (s.cmds + [c])[..|s.cmds|] == s.cmds;
    assert ([c] + s.cmds)[1..] == s.cmds;
  }

  /** The middleware wrapping of `set_middleware`: the prefix first, the
      postfix last, the sequence's own commands between them in order, in
      whichever order the two ends are added. */
  lemma ExtendBothEnds(s: Sequence, prefix: seq<Command>, postfix: seq<Command>)
    ensures Extend(ExtendLeft(s, prefix), postfix).cmds == prefix + s.cmds + postfix
    ensures ExtendLeft(Extend(s, postfix), prefix).cmds == prefix + s.cmds + postfix
  {
  }

  /** `set_middleware` applied to one sequence (agent.py:71-72,
      service.py:73-74, services.py:63-64). */
  function Wrap(s: Sequence, prefix: seq<Command>, postfix: seq<Command>): (r: Sequence)
    ensures KeyOf(r) == KeyOf(s)
    ensures |r.cmds| == |prefix| + |s.cmds| + |postfix|
    ensures r.cmds[..|prefix|] == prefix && r.cmds[|prefix| + |s.cmds|..] == postfix
    ensures r.cmds[|prefix|..|prefix| + |s.cmds|] == s.cmds
  {
    var r := Extend(ExtendLeft(s, prefix), postfix);
    assert r.cmds == prefix + s.cmds + postfix;
    assert (prefix + s.cmds + postfix)[|prefix|..|prefix| + |s.cmds|] == s.cmds;
    r
  }
}
