/**
 * `String.toUpperCase()`, restricted to the ASCII letters: 'a'..'z' become
 * 'A'..'Z', every other character is kept.
 */
module JavaString {

  predicate IsLowerAscii(c: char)
  {
    'a' <= c <= 'z'
  }

  /** The upper-case form of one character. */
  function UpperChar(c: char): (u: char)
    ensures !IsLowerAscii(u)
    ensures IsLowerAscii(c) ==> 'A' <= u <= 'Z' && u as int - 'A' as int == c as int - 'a' as int
    ensures !IsLowerAscii(c) ==> u == c
  {
    if IsLowerAscii(c) then (c as int - 'a' as int + 'A' as int) as char else c
  }

  /** No character of `s` is a lower-case letter. */
  predicate HasNoLowerCase(s: string)
  {
    forall i :: 0 <= i < |s| ==> !IsLowerAscii(s[i])
  }

  /** `s.toUpperCase()`: same length, each character upper-cased in place. */
  function ToUpperCase(s: string): (r: string)
    ensures |r| == |s|
    ensures forall i :: 0 <= i < |s| ==> r[i] == UpperChar(s[i])
  {
    if s == [] then [] else [UpperChar(s[0])] + ToUpperCase(s[1..])
  }

  /** Upper-casing leaves no lower-case letter behind. */
  lemma ToUpperCaseHasNoLowerCase(s: string)
    ensures HasNoLowerCase(ToUpperCase(s))
  {
  }

  /** The strings that upper-casing keeps as they are are exactly those without a lower-case letter. */
  lemma ToUpperCaseFixedPoints(s: string)
    ensures ToUpperCase(s) == s <==> HasNoLowerCase(s)
  {
    if HasNoLowerCase(s) {
      assert forall i :: 0 <= i < |s| ==> ToUpperCase(s)[i] == s[i];
    } else {
      var i :| 0 <= i < |s| && IsLowerAscii(s[i]);
      assert ToUpperCase(s)[i] != s[i];
    }
  }

  /** Upper-casing twice is upper-casing once. */
  lemma ToUpperCaseIdempotent(s: string)
    ensures ToUpperCase(ToUpperCase(s)) == ToUpperCase(s)
  {
    ToUpperCaseHasNoLowerCase(s);
    ToUpperCaseFixedPoints(ToUpperCase(s));
  }
}
