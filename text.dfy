/** String helpers shared by the model: Python's `code in text` substring test,
    the prefix test and the first-newline search used to read a file back line by line. */
module Text {

  import opened Wrappers

  /** `c` occurs in `s` starting at position `i`. */
  predicate OccursAt(s: string, c: string, i: int)
  {
    0 <= i && i + |c| <= |s| && s[i..i + |c|] == c
  }

  /** Python's `c in s` for two strings. */
  predicate Contains(s: string, c: string)
  {
    exists i | 0 <= i <= |s| - |c| :: OccursAt(s, c, i)
  }

  /** `p` is a prefix of `s` (Python's `s.startswith(p)`). */
  predicate HasPrefix(s: string, p: string)
  {
    |p| <= |s| && s[..|p|] == p
  }

  /** The position of the first line break in `s`, if there is one. */
  function NewlineIndex(s: string): (r: Option<nat>)
    ensures r.Some? ==> r.value < |s| && s[r.value] == '\n' && '\n' !in s[..r.value]
    ensures r.None? ==> '\n' !in s
  {
    if s == [] then None
    else if s[0] == '\n' then Some(0)
    else match NewlineIndex(s[1..])
      case None => None
      case Some(i) =>
        assert s[1..][..i] == s[1..i + 1];
        Some(i + 1)
  }

  /** A substring of the right-hand part of a concatenation is a substring of the whole. */
  lemma ContainsRight(a: string, b: string, c: string)
    requires Contains(b, c)
    ensures Contains(a + b, c)
  {
    var i :| 0 <= i <= |b| - |c| && OccursAt(b, c, i);
    assert (a + b)[|a| + i..|a| + i + |c|] == b[i..i + |c|];
    assert OccursAt(a + b, c, |a| + i);
  }

  /** A substring of the left-hand part of a concatenation is a substring of the whole. */
  lemma ContainsLeft(a: string, b: string, c: string)
    requires Contains(a, c)
    ensures Contains(a + b, c)
  {
    var i :| 0 <= i <= |a| - |c| && OccursAt(a, c, i);
    assert (a + b)[i..i + |c|] == a[i..i + |c|];
    assert OccursAt(a + b, c, i);
  }

  /** Every character of an occurring string occurs in the text: a text that lacks
      one character of `c` cannot contain `c`. */
  lemma ContainsHasChar(s: string, c: string, k: nat)
    requires k < |c| && Contains(s, c)
    ensures c[k] in s
  {
    var i :| 0 <= i <= |s| - |c| && OccursAt(s, c, i);
    assert s[i..i + |c|][k] == s[i + k];
  }

  /** The first line break of `line + "\n" + rest`, when `line` has none, ends `line`. */
  lemma NewlineAfterLine(line: string, rest: string)
    requires '\n' !in line
    ensures NewlineIndex(line + "\n" + rest) == Some(|line|)
    ensures (line + "\n" + rest)[..|line|] == line
    ensures (line + "\n" + rest)[|line| + 1..] == rest
  {
    var s := line + "\n" + rest;
    assert s[..|line|] == line;
    assert s[|line|] == '\n';
    assert s[..|line| + 1][|line|] == '\n';
  }
}
