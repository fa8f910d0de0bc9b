/** String operations the catalogue's search relies on: `String.prototype.toLowerCase`
    and `String.prototype.includes`. */
module Text {

  /** Lower-casing of one character, for the scripts the catalogue's texts are written in:
      Latin A..Z and the Cyrillic capitals U+0400..U+042F (Ѐ..Џ, А..Я). Any other
      character is left as it is. */
  function LowerChar(c: char): (l: char)
    ensures c == l || ('A' <= c <= 'Z') || ('Ѐ' <= c <= 'Я')
    ensures 'A' <= c <= 'Z' ==> 'a' <= l <= 'z'
    ensures 'Ѐ' <= c <= 'Я' ==> 'а' <= l <= 'џ'
  {
    if 'A' <= c <= 'Z' then (c as int + 32) as char
    else if 'А' <= c <= 'Я' then (c as int + 32) as char
    else if 'Ѐ' <= c <= 'Џ' then (c as int + 80) as char
    else c
  }

  /** `s.toLowerCase()`, character by character. */
  function Lower(s: string): (l: string)
    ensures |l| == |s|
    ensures forall i :: 0 <= i < |s| ==> l[i] == LowerChar(s[i])
  {
    seq(|s|, i requires 0 <= i < |s| => LowerChar(s[i]))
  }

  /** A lower-cased character has no further lower case. */
  lemma LowerCharIdempotent(c: char)
    ensures LowerChar(LowerChar(c)) == LowerChar(c)
  {
  }

  /** Lower-casing twice is lower-casing once, so a query lower-cased by the page is
      compared with lower-cased text on equal terms. */
  lemma LowerIdempotent(s: string)
    ensures Lower(Lower(s)) == Lower(s)
  {
    forall i | 0 <= i < |s|
      ensures Lower(Lower(s))[i] == Lower(s)[i]
    {
      LowerCharIdempotent(s[i]);
    }
  }

  /** `sub` occurs in `s` starting at position `i`. */
  predicate OccursAt(s: string, sub: string, i: int)
  {
    0 <= i && i + |sub| <= |s| && s[i..i + |sub|] == sub
  }

  /** `s.includes(sub)`: a left-to-right search for an occurrence of `sub` in `s`. */
  function Includes(s: string, sub: string): (r: bool)
    ensures r <==> exists i :: OccursAt(s, sub, i)
    decreases |s|
  {
    if |sub| > |s| then false
    else if s[..|sub|] == sub then
      assert OccursAt(s, sub, 0);
      true
    else
      var rest := Includes(s[1..], sub);
      forall i | i >= 0
        ensures OccursAt(s, sub, i + 1) <==> OccursAt(s[1..], sub, i)
      {
        OccursShifted(s, sub, i);
      }
      assert !OccursAt(s, sub, 0);
      assert forall i :: OccursAt(s, sub, i) ==> OccursAt(s[1..], sub, i - 1);
      rest
  }

  /** An occurrence in the tail `s[1..]` is an occurrence in `s` one position further on. */
  lemma OccursShifted(s: string, sub: string, i: int)
    requires |s| >= 1 && i >= 0
    ensures OccursAt(s, sub, i + 1) <==> OccursAt(s[1..], sub, i)
  {
    if i + |sub| <= |s| - 1 {
      assert s[1..][i..i + |sub|] == s[i + 1..i + 1 + |sub|];
    }
  }
}
