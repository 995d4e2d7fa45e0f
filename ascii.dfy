/** ASCII letter case, used to state where the prober matches case-sensitively and where it does not. */
module Ascii {

  predicate IsUpper(c: char) { 'A' <= c <= 'Z' }

  predicate IsLower(c: char) { 'a' <= c <= 'z' }

  /** Maps 'A'..'Z' to 'a'..'z' and leaves every other character alone. */
  function Lower(c: char): (d: char)
    ensures IsUpper(c) ==> IsLower(d) && d != c
    ensures !IsUpper(c) ==> d == c
  {
    if IsUpper(c) then (c as int - 'A' as int + 'a' as int) as char else c
  }

  function LowerString(s: string): (t: string)
    ensures |t| == |s|
    ensures forall i :: 0 <= i < |s| ==> t[i] == Lower(s[i])
  {
    seq(|s|, i requires 0 <= i < |s| => Lower(s[i]))
  }
}
