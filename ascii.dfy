/** Letter case on ASCII text: `toLowerCase()` and `charAt(0).toUpperCase() + slice(1)`. */
module Ascii {

  predicate IsUpper(c: char) { 'A' <= c <= 'Z' }

  predicate IsLower(c: char) { 'a' <= c <= 'z' }

  function LowerChar(c: char): char
  {
    if IsUpper(c) then (c as int + 32) as char else c
  }

  function UpperChar(c: char): char
  {
    if IsLower(c) then (c as int - 32) as char else c
  }

  /** `s.toLowerCase()` on ASCII letters. */
  function ToLower(s: string): (r: string)
    ensures |r| == |s|
    ensures forall i :: 0 <= i < |s| ==> r[i] == LowerChar(s[i])
  {
    seq(|s|, i requires 0 <= i < |s| => LowerChar(s[i]))
  }

  /** A lower-cased string holds no upper-case letter, and lower-casing it again changes nothing. */
  lemma ToLowerIsLowerAndIdempotent(s: string)
    ensures forall i :: 0 <= i < |ToLower(s)| ==> !IsUpper(ToLower(s)[i])
    ensures ToLower(ToLower(s)) == ToLower(s)
  {
  }

  /** `s.charAt(0).toUpperCase() + s.slice(1)`; the empty string stays empty. */
  function Capitalize(s: string): (r: string)
  {
    if s == [] then [] else [UpperChar(s[0])] + s[1..]
  }

  /** Capitalising changes the case of the first letter and nothing else: same length, same
      tail, and the same text once both are lower-cased. */
  lemma CapitalizeChangesOnlyCase(s: string)
    ensures |Capitalize(s)| == |s|
    ensures s != [] ==> Capitalize(s)[1..] == s[1..] && !IsLower(Capitalize(s)[0])
    ensures ToLower(Capitalize(s)) == ToLower(s)
  {
    if s != [] {
      assert LowerChar(UpperChar(s[0])) == LowerChar(s[0]);
      assert forall i :: 1 <= i < |s| ==> Capitalize(s)[i] == s[i];
    }
  }
}
