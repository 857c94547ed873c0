/**
 * Upper- and lower-casing of text, restricted to the ASCII letters:
 * `'a'..'z'` and `'A'..'Z'` are mapped onto each other and every other
 * character is left as it is.
 */
module AsciiCase {

  predicate IsLower(c: char) { 'a' <= c <= 'z' }

  predicate IsUpper(c: char) { 'A' <= c <= 'Z' }

  /** The distance between a lower-case ASCII letter and its upper-case form. */
  const CaseOffset: int := 'a' as int - 'A' as int

  function UpperChar(c: char): (u: char)
    ensures !IsLower(u)
    ensures IsLower(c) ==> IsUpper(u) && u as int + CaseOffset == c as int
    ensures !IsLower(c) ==> u == c
  {
    if IsLower(c) then (c as int - CaseOffset) as char else c
  }

  function LowerChar(c: char): (l: char)
    ensures !IsUpper(l)
    ensures IsUpper(c) ==> IsLower(l) && l as int == c as int + CaseOffset
    ensures !IsUpper(c) ==> l == c
  {
    if IsUpper(c) then (c as int + CaseOffset) as char else c
  }

  /** Java's `String.toUpperCase`, on ASCII letters only. */
  function ToUpperCase(s: string): (r: string)
    ensures |r| == |s|
    ensures forall i :: 0 <= i < |s| ==> r[i] == UpperChar(s[i])
  {
    if s == [] then [] else [UpperChar(s[0])] + ToUpperCase(s[1..])
  }

  /** Java's `String.toLowerCase`, on ASCII letters only. */
  function ToLowerCase(s: string): (r: string)
    ensures |r| == |s|
    ensures forall i :: 0 <= i < |s| ==> r[i] == LowerChar(s[i])
  {
    if s == [] then [] else [LowerChar(s[0])] + ToLowerCase(s[1..])
  }

  /** Text with no lower-case ASCII letter is its own upper-case form. */
  lemma UpperCaseFixed(s: string)
    requires forall i :: 0 <= i < |s| ==> !IsLower(s[i])
    ensures ToUpperCase(s) == s
  {
  }

  /** Lower-casing first changes nothing about the upper-case form. */
  lemma UpperOfLower(s: string)
    ensures ToUpperCase(ToLowerCase(s)) == ToUpperCase(s)
  {
  }
}
