/**
 * The string operations the tools rely on: lower-casing (Python's `str.lower`,
 * restricted to ASCII letters) and substring search (Python's `in` on strings).
 */
module Text {

  /** Lower-cases one character: 'A'..'Z' become 'a'..'z', every other character is kept. */
  function LowerChar(c: char): char
  {
    if 'A' <= c <= 'Z' then (c as int + 32) as char else c
  }

  /** `s.lower()`: the same length as `s`, every character lower-cased in place. */
  function Lower(s: string): (r: string)
    ensures |r| == |s|
    ensures forall i :: 0 <= i < |s| ==> r[i] == LowerChar(s[i])
  {
    if s == [] then [] else [LowerChar(s[0])] + Lower(s[1..])
  }

  /** No character of `s` changes when lower-cased. */
  predicate IsLower(s: string)
  {
    forall i :: 0 <= i < |s| ==> !('A' <= s[i] <= 'Z')
  }

  /** `a` and `b` are the same text up to the case of their letters. */
  predicate SameIgnoringCase(a: string, b: string)
  {
    |a| == |b| && forall i :: 0 <= i < |a| ==> LowerChar(a[i]) == LowerChar(b[i])
  }

  /** The result of `lower()` is lower-case, so lower-casing it again changes nothing. */
  lemma LowerIsIdempotent(s: string)
    ensures IsLower(Lower(s))
    ensures Lower(Lower(s)) == Lower(s)
  {
  }

  /** A lower-case string is its own lower-case form. */
  lemma LowerOfLower(s: string)
    requires IsLower(s)
    ensures Lower(s) == s
  {
  }

  /** Two strings have the same lower-case form exactly when they agree up to case. */
  lemma LowerDecidesCase(a: string, b: string)
    ensures SameIgnoringCase(a, b) <==> Lower(a) == Lower(b)
  {
  }

  /** Lower-casing commutes with taking a slice. */
  lemma LowerSlice(s: string, i: int, j: int)
    requires 0 <= i <= j <= |s|
    ensures Lower(s[i..j]) == Lower(s)[i..j]
  {
  }

  /** `p` is a prefix of `s`. */
  predicate StartsWith(s: string, p: string)
  {
    |p| <= |s| && s[..|p|] == p
  }


  /** `p` stands in `s` at index `i`. */
  ghost predicate OccursAt(s: string, p: string, i: int)
  {
    0 <= i && i + |p| <= |s| && s[i..i + |p|] == p
  }

  /** The slice of `text` at index `i` of the length of `word` is `word`, up to case. */
  ghost predicate MatchesAt(text: string, word: string, i: int)
  {
    0 <= i && i + |word| <= |text| && SameIgnoringCase(text[i..i + |word|], word)
  }

  /** `word` appears somewhere in `text`, in any mixture of upper and lower case. */
  ghost predicate OccursIgnoringCase(text: string, word: string)
  {
    exists i :: MatchesAt(text, word, i)
  }

  /** An occurrence in `s[1..]` is one in `s`, one place further right, and back. */
  lemma OccursShift(s: string, p: string)
    requires s != []
    ensures forall i :: OccursAt(s[1..], p, i) ==> OccursAt(s, p, i + 1)
    ensures forall i :: OccursAt(s, p, i) && i != 0 ==> OccursAt(s[1..], p, i - 1)
  {
  }

  /**
   * `p in s`, searched as "`p` is a prefix of `s` or of one of its suffixes"; the
   * search finds exactly the occurrences there are.
   */
  function Contains(s: string, p: string): (r: bool)
    ensures r <==> exists i :: OccursAt(s, p, i)
    decreases |s|
  {
    if StartsWith(s, p) then
      assert OccursAt(s, p, 0);
      true
    else if s == [] then
      assert forall i :: !OccursAt(s, p, i);
      false
    else
      OccursShift(s, p);
      Contains(s[1..], p)
  }

  /**
   * Searching the lower-cased text for a lower-case word finds it exactly when the
   * word appears in the original text in some mixture of cases.
   */
  lemma ContainsLowerIff(text: string, word: string)
    requires IsLower(word)
    ensures Contains(Lower(text), word) <==> OccursIgnoringCase(text, word)
  {
    LowerOfLower(word);
    forall i | 0 <= i && i + |word| <= |text|
      ensures OccursAt(Lower(text), word, i) <==> MatchesAt(text, word, i)
    {
      LowerSlice(text, i, i + |word|);
      LowerDecidesCase(text[i..i + |word|], word);
    }
    if Contains(Lower(text), word) {
      var i :| OccursAt(Lower(text), word, i);
      assert MatchesAt(text, word, i);
    }
    if OccursIgnoringCase(text, word) {
      var i :| MatchesAt(text, word, i);
      assert OccursAt(Lower(text), word, i);
    }
  }
}
