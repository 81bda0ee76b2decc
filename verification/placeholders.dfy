/** The `${...}` placeholders every interpreter in the repository substitutes.

    The pattern is `\$\{.*?\}` (app/backend/webauto/config.py:22): a dollar,
    an opening brace, the shortest run of non-newline characters, and a
    closing brace.  `re.findall` scans left to right; after a match it
    resumes at the match's end, otherwise one character further on.
    Substitution then walks the matches of the ORIGINAL string in order and
    applies `str.replace` for each to the string built so far.
 */
module Placeholders {
  import opened Wrappers
  import opened Text

  /** A string the pattern matches as a whole. */
  predicate IsPlaceholder(p: string) {
    |p| >= 3 && p[0] == '$' && p[1] == '{' && p[|p| - 1] == '}' &&
    forall k :: 2 <= k < |p| - 1 ==> p[k] != '}' && p[k] != '\n'
  }

  /** The text between the braces: `ph[2:-1]` in the source. */
  function Inner(ph: string): string
    requires |ph| >= 3
  {
    ph[2..|ph| - 1]
  }

  /** `ph[2:-1]`, with Python's clamping slice semantics. */
  function Value(ph: string): (r: string)
    ensures |ph| >= 3 ==> r == Inner(ph)
  {
    if |ph| >= 3 then Inner(ph) else ""
  }

  /** The first `}` at or after `k`, unless a newline comes first. */
  function Close(s: string, k: nat): (r: Option<nat>)
    ensures r.Some? ==> k <= r.value < |s| && s[r.value] == '}'
    ensures r.Some? ==> forall m :: k <= m < r.value ==> s[m] != '}' && s[m] != '\n'
    decreases |s| - k
  {
    if k >= |s| then None
    else if s[k] == '}' then Some(k)
    else if s[k] == '\n' then None
    else Close(s, k + 1)
  }

  /** The end (exclusive) of the match that starts at `i`, if one does. */
  function MatchAt(s: string, i: nat): (r: Option<nat>)
    ensures r.Some? ==> i + 3 <= r.value <= |s| && IsPlaceholder(s[i..r.value])
  {
    if i + 1 < |s| && s[i] == '$' && s[i + 1] == '{' then
      match Close(s, i + 2)
      case Some(j) => Some(j + 1)
      case None => None
    else None
  }

  /** `re.findall` from position `i` onwards. */
  function FindFrom(s: string, i: nat): (r: seq<string>)
    ensures forall k :: 0 <= k < |r| ==> IsPlaceholder(r[k])
    decreases |s| - i
  {
    if i >= |s| then []
    else match MatchAt(s, i)
      case Some(e) => [s[i..e]] + FindFrom(s, e)
      case None => FindFrom(s, i + 1)
  }

  /** `re.findall(POSITIONAL, s)`. */
  function FindPlaceholders(s: string): (r: seq<string>)
    ensures forall k :: 0 <= k < |r| ==> IsPlaceholder(r[k])
  {
    FindFrom(s, 0)
  }

  /** Some substring of `s` from `i` is a placeholder. */
  predicate HasPlaceholderAt(s: string, i: nat) {
    exists j: nat | j <= |s| :: i <= j && IsPlaceholder(s[i..j])
  }

  predicate HasPlaceholder(s: string) {
    exists i: nat | i <= |s| :: HasPlaceholderAt(s, i)
  }

  /** A placeholder substring starting at `i` is exactly what the pattern
      matches there. */
  lemma MatchAtComplete(s: string, i: nat, j: nat)
    requires i <= j <= |s| && IsPlaceholder(s[i..j])
    ensures MatchAt(s, i) == Some(j)
  {
    var p := s[i..j];
    assert s[i] == p[0] && s[i + 1] == p[1];
    forall m | i + 2 <= m < j - 1
      ensures s[m] != '}' && s[m] != '\n'
    {
      assert s[m] == p[m - i];
    }
    assert s[j - 1] == p[|p| - 1];
    CloseFinds(s, i + 2, j - 1);
  }

  lemma {:induction false} CloseFinds(s: string, k: nat, j: nat)
    requires k <= j < |s| && s[j] == '}'
    requires forall m :: k <= m < j ==> s[m] != '}' && s[m] != '\n'
    ensures Close(s, k) == Some(j)
    decreases j - k
  {
    if k < j {
      CloseFinds(s, k + 1, j);
    }
  }

  lemma {:induction false} FindFromNonEmpty(s: string, i: nat, k: nat)
    requires i <= k < |s| && MatchAt(s, k).Some?
    ensures FindFrom(s, i) != []
    decreases k - i
  {
    if MatchAt(s, i).None? {
      FindFromNonEmpty(s, i + 1, k);
    }
  }

  /** The scan finds nothing exactly when no substring is a placeholder. */
  lemma FindPlaceholdersEmptyIff(s: string)
    ensures FindPlaceholders(s) == [] <==> !HasPlaceholder(s)
  {
    if HasPlaceholder(s) {
      var i: nat, j: nat :| i <= j <= |s| && IsPlaceholder(s[i..j]);
      MatchAtComplete(s, i, j);
      FindFromNonEmpty(s, 0, i);
    }
    if FindPlaceholders(s) != [] {
      FindFromFirst(s, 0);
    }
  }

  lemma {:induction false} FindFromFirst(s: string, i: nat)
    requires FindFrom(s, i) != []
    ensures HasPlaceholder(s)
    decreases |s| - i
  {
    match MatchAt(s, i)
    case Some(e) =>
      assert HasPlaceholderAt(s, i);
    case None =>
      FindFromFirst(s, i + 1);
  }

  /** A string without a dollar sign has no placeholders. */
  lemma NoDollarNoPlaceholders(s: string)
    requires forall k :: 0 <= k < |s| ==> s[k] != '$'
    ensures FindPlaceholders(s) == []
  {
    FindPlaceholdersEmptyIff(s);
  }

  /** Sequential substitution: for each placeholder `ph` of `phs` in turn, its
      resolved value replaces every occurrence of `ph` in the text built so
      far.  The first placeholder that fails to resolve ends the scan. */
  function Substitute(s: string, phs: seq<string>, resolve: string -> Result<string>): (r: Result<string>)
    decreases |phs|
  {
    if phs == [] then Success(s)
    else
      var v :- resolve(phs[0]);
      Substitute(ReplaceAll(s, phs[0], v), phs[1..], resolve)
  }

  /** Substitution fails exactly when some placeholder fails to resolve, and
      then with the error of the first one that does. */
  lemma {:induction false} SubstituteFailsIff(s: string, phs: seq<string>, resolve: string -> Result<string>)
    ensures Substitute(s, phs, resolve).Failure? <==>
            exists k :: 0 <= k < |phs| && resolve(phs[k]).Failure?
    ensures Substitute(s, phs, resolve).Failure? ==>
            exists k :: 0 <= k < |phs| && resolve(phs[k]).Failure? &&
                         Substitute(s, phs, resolve).error == resolve(phs[k]).error &&
                         forall m :: 0 <= m < k ==> resolve(phs[m]).Success?
    decreases |phs|
  {
    if phs != [] && resolve(phs[0]).Success? {
      var v := resolve(phs[0]).value;
      SubstituteFailsIff(ReplaceAll(s, phs[0], v), phs[1..], resolve);
      if Substitute(s, phs, resolve).Failure? {
        var k :| 0 <= k < |phs[1..]| && resolve(phs[1..][k]).Failure? &&
                 Substitute(s, phs, resolve).error == resolve(phs[1..][k]).error &&
                 forall m :: 0 <= m < k ==> resolve(phs[1..][m]).Success?;
        assert resolve(phs[k + 1]).Failure?;
        forall m | 0 <= m < k + 1
          ensures resolve(phs[m]).Success?
        {
          if m > 0 { assert phs[m] == phs[1..][m - 1]; }
        }
      }
      if exists k :: 0 <= k < |phs| && resolve(phs[k]).Failure? {
        var k :| 0 <= k < |phs| && resolve(phs[k]).Failure?;
        assert phs[1..][k - 1] == phs[k];
      }
    }
  }

  /** Substitution reads the resolver only at the given placeholders. */
  lemma {:induction false} SubstituteAgrees(s: string, phs: seq<string>, f: string -> Result<string>, g: string -> Result<string>)
    requires forall k :: 0 <= k < |phs| ==> f(phs[k]) == g(phs[k])
    ensures Substitute(s, phs, f) == Substitute(s, phs, g)
    decreases |phs|
  {
    if phs != [] && f(phs[0]).Success? {
      assert forall k :: 0 <= k < |phs[1..]| ==> phs[1..][k] == phs[k + 1];
      SubstituteAgrees(ReplaceAll(s, phs[0], f(phs[0]).value), phs[1..], f, g);
    }
  }

  /** A text that is one placeholder is found as itself, and substituting
      it gives just the placeholder's resolved value. */
  lemma SinglePlaceholder(ph: string, resolve: string -> Result<string>)
    requires IsPlaceholder(ph)
    ensures FindPlaceholders(ph) == [ph]
    ensures Substitute(ph, FindPlaceholders(ph), resolve) == resolve(ph)
  {
    assert ph[0..|ph|] == ph;
    MatchAtComplete(ph, 0, |ph|);
    assert FindFrom(ph, |ph|) == [];
    if resolve(ph).Success? {
      ReplaceAllAtFront(ph, ph, resolve(ph).value, []);
      assert resolve(ph).value + [] == resolve(ph).value;
    }
  }

  /** `parse_special_key(s)` (project/server/tasks/ina/driver.py:285-300) and
      `parse_special_keys` (app/backend/webauto/models/utils.py:73-90): each
      placeholder is replaced by its entry in the special-key table. */
  function SpecialKeys(s: string, table: map<string, string>): (r: Result<string>)
  {
    Substitute(s, FindPlaceholders(s), ph => if ph in table then Success(table[ph]) else Failure(KeyError))
  }

  /** Special-key expansion fails, with a `KeyError`, exactly when some
      placeholder of the text is not in the table; text without
      placeholders is returned unchanged. */
  lemma SpecialKeysSpec(s: string, table: map<string, string>)
    ensures SpecialKeys(s, table).Failure? <==>
            exists k :: 0 <= k < |FindPlaceholders(s)| && FindPlaceholders(s)[k] !in table
    ensures SpecialKeys(s, table).Failure? ==> SpecialKeys(s, table).error == KeyError
    ensures FindPlaceholders(s) == [] ==> SpecialKeys(s, table) == Success(s)
  {
    var resolve := ph => if ph in table then Success(table[ph]) else Failure(KeyError);
    SubstituteFailsIff(s, FindPlaceholders(s), resolve);
  }
}
