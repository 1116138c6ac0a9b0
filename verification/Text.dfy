/** Case folding shared by every component that compares Windows paths.
    Only the ASCII letters have a case here. */
module Text {

  function LowerChar(c: char): char {
    if 'A' <= c <= 'Z' then (c as int + 32) as char else c
  }

  function UpperChar(c: char): char {
    if 'a' <= c <= 'z' then (c as int - 32) as char else c
  }

  function Lower(s: string): (r: string)
    ensures |r| == |s|
  {
    seq(|s|, i requires 0 <= i < |s| => LowerChar(s[i]))
  }

  function Upper(s: string): (r: string)
    ensures |r| == |s|
  {
    seq(|s|, i requires 0 <= i < |s| => UpperChar(s[i]))
  }

  // The same character, or the two cases of one letter.
  predicate SameLetter(a: char, b: char) {
    || a == b
    || ('A' <= a <= 'Z' && b as int == a as int + 32)
    || ('A' <= b <= 'Z' && a as int == b as int + 32)
  }

  lemma {:induction false} SameLetterIff(a: char, b: char)
    ensures SameLetter(a, b) <==> LowerChar(a) == LowerChar(b)
    ensures SameLetter(a, b) <==> UpperChar(a) == UpperChar(b)
  {
  }

  /** Two strings fold to the same one, in either direction, exactly when they differ at most in
      the case of their letters. */
  lemma {:induction false} FoldedSameIff(a: string, b: string)
    ensures Lower(a) == Lower(b) <==> |a| == |b| && forall i :: 0 <= i < |a| ==> SameLetter(a[i], b[i])
    ensures Upper(a) == Upper(b) <==> Lower(a) == Lower(b)
  {
    hide LowerChar, UpperChar, SameLetter;
    if |a| == |b| {
      forall i | 0 <= i < |a|
        ensures SameLetter(a[i], b[i]) <==> Lower(a)[i] == Lower(b)[i]
        ensures SameLetter(a[i], b[i]) <==> Upper(a)[i] == Upper(b)[i]
      {
        SameLetterIff(a[i], b[i]);
      }
    }
  }

  lemma {:induction false} FoldedLetters(s: string)
    ensures forall i :: 0 <= i < |s| ==> !('A' <= Lower(s)[i] <= 'Z') && SameLetter(s[i], Lower(s)[i])
    ensures forall i :: 0 <= i < |s| ==> !('a' <= Upper(s)[i] <= 'z') && SameLetter(s[i], Upper(s)[i])
  {
  }
}
