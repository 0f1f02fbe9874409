/**
 * The string operations the storefront relies on: `toLowerCase` restricted to
 * ASCII letters, and `String.prototype.includes`.
 */
module Text {

  predicate IsUpper(c: char) { 'A' <= c <= 'Z' }

  function LowerChar(c: char): char
  {
    if IsUpper(c) then (c as int + 32) as char else c
  }

  /** `toLowerCase`, on ASCII letters only. */
  function ToLower(s: string): (r: string)
    ensures |r| == |s|
    ensures forall i :: 0 <= i < |s| ==> r[i] == LowerChar(s[i])
  {
    seq(|s|, i requires 0 <= i < |s| => LowerChar(s[i]))
  }

  /** Lower-casing leaves no upper-case letter behind, so doing it twice changes nothing. */
  lemma ToLowerIdempotent(s: string)
    ensures forall i :: 0 <= i < |s| ==> !IsUpper(ToLower(s)[i])
    ensures ToLower(ToLower(s)) == ToLower(s)
  {
  }

  predicate OccursAt(text: string, pattern: string, i: int)
  {
    0 <= i && i + |pattern| <= |text| && text[i..i + |pattern|] == pattern
  }

  /** `text.includes(pattern)`: tries every starting position from the left. */
  function Includes(text: string, pattern: string): bool
    decreases |text|
  {
    (|pattern| <= |text| && text[..|pattern|] == pattern)
    || (|text| > 0 && Includes(text[1..], pattern))
  }

  /** An occurrence at position `i` is found by the search. */
  lemma {:induction false} OccurrenceIsFound(text: string, pattern: string, i: int)
    requires OccursAt(text, pattern, i)
    ensures Includes(text, pattern)
    decreases i
  {
    if i > 0 {
      assert text[1..][i - 1..i - 1 + |pattern|] == text[i..i + |pattern|];
      OccurrenceIsFound(text[1..], pattern, i - 1);
    }
  }

  /** The search finds the pattern exactly when it occurs at some position. */
  lemma {:induction false} IncludesIff(text: string, pattern: string)
    ensures Includes(text, pattern) <==> exists i :: OccursAt(text, pattern, i)
    decreases |text|
  {
    if exists i :: OccursAt(text, pattern, i) {
      var i :| OccursAt(text, pattern, i);
      OccurrenceIsFound(text, pattern, i);
    }
    if Includes(text, pattern) {
      if |pattern| <= |text| && text[..|pattern|] == pattern {
        assert OccursAt(text, pattern, 0);
      } else {
        IncludesIff(text[1..], pattern);
        var i :| OccursAt(text[1..], pattern, i);
        assert text[i + 1..i + 1 + |pattern|] == text[1..][i..i + |pattern|];
        assert OccursAt(text, pattern, i + 1);
      }
    }
  }

  /** Every string includes the empty string. */
  lemma IncludesEmpty(text: string)
    ensures Includes(text, "")
  {
    assert text[..0] == "";
  }
}
