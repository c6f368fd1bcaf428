/** The two string operations the executors use: deleting a set of
    characters (`str::replace` with an empty replacement) and substring search
    (`str::contains`). */
module Text {

  /** The pattern `[' ', '\t', '\n', '\r']` both executors strip from the block. */
  const Whitespace: set<char> := {' ', '\t', '\n', '\r'}

  /** The pattern `" "` both executors strip from the line. */
  const Space: set<char> := {' '}

  /** `s` with every character of `cs` deleted: no character of `cs` is
      left, and the result is empty precisely when `s` holds nothing but
      characters of `cs` (RemoveAllCounts adds that every other character is
      kept as often as in `s`). */
  function RemoveAll(s: string, cs: set<char>): (r: string)
    ensures |r| <= |s|
    ensures forall i :: 0 <= i < |r| ==> r[i] !in cs
    ensures r == [] <==> forall i :: 0 <= i < |s| ==> s[i] in cs
  {
    if s == [] then []
    else if s[0] in cs then RemoveAll(s[1..], cs)
    else [s[0]] + RemoveAll(s[1..], cs)
  }

  /** Deleting the characters of `cs` keeps every other character exactly as
      often as it occurs in `s`. */
  lemma {:induction false} RemoveAllCounts(s: string, cs: set<char>)
    ensures forall c :: c !in cs ==> multiset(RemoveAll(s, cs))[c] == multiset(s)[c]
  {
    if s != [] {
      assert s == [s[0]] + s[1..];
      RemoveAllCounts(s[1..], cs);
    }
  }

  /** `s` has a character outside `cs`, i.e. it is not blank for `cs`. */
  ghost predicate HasCharOutside(s: string, cs: set<char>)
  {
    exists i :: 0 <= i < |s| && s[i] !in cs
  }

  /** A text that is not blank for a set of characters is not blank for any
      smaller set either. */
  lemma RemoveAllAntitone(s: string, small: set<char>, big: set<char>)
    requires small <= big
    requires RemoveAll(s, big) != []
    ensures RemoveAll(s, small) != []
  {
    var i :| 0 <= i < |s| && s[i] !in big;
    assert s[i] !in small;
  }

  /** `sub` occurs in `s` starting at index `i`. */
  ghost predicate OccursAt(s: string, sub: string, i: nat)
  {
    i + |sub| <= |s| && s[i..i + |sub|] == sub
  }

  /** `str::contains`: true exactly when `sub` occurs somewhere in `s` (so
      always for the empty pattern). */
  function Contains(s: string, sub: string): (b: bool)
    ensures b <==> exists i: nat :: OccursAt(s, sub, i)
    decreases |s|
  {
    if |s| < |sub| then false
    else if s[..|sub|] == sub then
      assert OccursAt(s, sub, 0);
      true
    else
      OccursInTail(s, sub);
      Contains(s[1..], sub)
  }

  /** When `sub` does not start `s`, it occurs in `s` exactly when it occurs
      in `s` without its first character. */
  lemma OccursInTail(s: string, sub: string)
    requires |s| >= |sub| && s[..|sub|] != sub
    ensures |s| >= 1
    ensures (exists i: nat :: OccursAt(s[1..], sub, i)) <==> (exists j: nat :: OccursAt(s, sub, j))
  {
    if exists i: nat :: OccursAt(s[1..], sub, i) {
      var i: nat :| OccursAt(s[1..], sub, i);
      ShiftOccurrence(s, sub, i);
    }
    if exists j: nat :: OccursAt(s, sub, j) {
      var j: nat :| OccursAt(s, sub, j);
      assert j != 0;
      ShiftOccurrence(s, sub, j - 1);
    }
  }

  /** An occurrence at `i` in the tail of `s` is one at `i + 1` in `s`. */
  lemma ShiftOccurrence(s: string, sub: string, i: nat)
    requires |s| >= 1
    ensures OccursAt(s[1..], sub, i) <==> OccursAt(s, sub, i + 1)
  {
    if i + |sub| <= |s[1..]| {
      assert s[1..][i..i + |sub|] == s[i + 1..i + 1 + |sub|];
    }
  }

  /** A text occurs in any text that has it between a prefix and a suffix. */
  lemma ContainsInfix(prefix: string, sub: string, suffix: string)
    ensures Contains(prefix + sub + suffix, sub)
  {
    var s := prefix + sub + suffix;
    assert s[|prefix|..|prefix| + |sub|] == sub;
    assert OccursAt(s, sub, |prefix|);
  }

  /** A non-empty pattern never occurs in the empty text. */
  lemma NothingInEmpty(sub: string)
    requires sub != []
    ensures !Contains([], sub)
  {
  }

  /** Every character of an occurring pattern is a character of the text. */
  lemma ContainedCharacters(s: string, sub: string, k: nat)
    requires Contains(s, sub) && k < |sub|
    ensures exists i :: 0 <= i < |s| && s[i] == sub[k]
  {
    var j: nat :| OccursAt(s, sub, j);
    assert s[j..j + |sub|][k] == s[j + k];
  }
}
