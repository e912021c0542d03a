/** Python's `str.upper()`, `str.lower()` and `str.title()` restricted to ASCII letters. */
module Ascii {

  predicate IsUpper(c: char) { 'A' <= c <= 'Z' }
  predicate IsLower(c: char) { 'a' <= c <= 'z' }

  /** A "cased" character in Python's sense; for ASCII these are exactly the letters. */
  predicate IsLetter(c: char) { IsUpper(c) || IsLower(c) }

  function UpperChar(c: char): (u: char)
    ensures IsLetter(c) <==> IsLetter(u)
    ensures !IsLower(u)
    ensures !IsLetter(c) ==> u == c
  {
    if IsLower(c) then (c as int - 32) as char else c
  }

  function LowerChar(c: char): (l: char)
    ensures IsLetter(c) <==> IsLetter(l)
    ensures !IsUpper(l)
    ensures !IsLetter(c) ==> l == c
  {
    if IsUpper(c) then (c as int + 32) as char else c
  }

  function Upper(s: string): (u: string)
    ensures |u| == |s|
    ensures forall i :: 0 <= i < |s| ==> u[i] == UpperChar(s[i])
  {
    if s == [] then [] else [UpperChar(s[0])] + Upper(s[1..])
  }

  /**
   * `str.title()`: a letter becomes upper case when the character before it is not a
   * letter (or it is the first), lower case otherwise; every other character is kept.
   * `afterLetter` says whether the character before `s` was a letter.
   */
  function TitleFrom(s: string, afterLetter: bool): string {
    if s == [] then []
    else
      var c := s[0];
      var t := if !IsLetter(c) then c else if afterLetter then LowerChar(c) else UpperChar(c);
      [t] + TitleFrom(s[1..], IsLetter(c))
  }

  function Title(s: string): string {
    TitleFrom(s, false)
  }

  /** The character `Title` puts at position `i` of `s`, stated without recursion. */
  function TitleCharAt(s: string, i: nat): char
    requires i < |s|
  {
    if !IsLetter(s[i]) then s[i]
    else if i > 0 && IsLetter(s[i - 1]) then LowerChar(s[i])
    else UpperChar(s[i])
  }

  lemma {:induction false} TitleFromAt(s: string, afterLetter: bool, i: nat)
    requires i < |s|
    ensures |TitleFrom(s, afterLetter)| == |s|
    ensures TitleFrom(s, afterLetter)[i] ==
      if !IsLetter(s[i]) then s[i]
      else if (if i == 0 then afterLetter else IsLetter(s[i - 1])) then LowerChar(s[i])
      else UpperChar(s[i])
  {
    if i == 0 {
      TitleFromLength(s[1..], IsLetter(s[0]));
    } else {
      TitleFromAt(s[1..], IsLetter(s[0]), i - 1);
    }
  }

  lemma {:induction false} TitleFromLength(s: string, afterLetter: bool)
    ensures |TitleFrom(s, afterLetter)| == |s|
  {
    if s != [] {
      TitleFromLength(s[1..], IsLetter(s[0]));
    }
  }

  /** `Title` keeps the length and each character obeys the title-case rule. */
  lemma TitleIsPointwise(s: string)
    ensures |Title(s)| == |s|
    ensures forall i :: 0 <= i < |s| ==> Title(s)[i] == TitleCharAt(s, i)
  {
    TitleFromLength(s, false);
    forall i | 0 <= i < |s|
      ensures Title(s)[i] == TitleCharAt(s, i)
    {
      TitleFromAt(s, false, i);
    }
  }

  /** Title-casing a title-cased string changes nothing. */
  lemma TitleIdempotent(s: string)
    ensures Title(Title(s)) == Title(s)
  {
    var t := Title(s);
    TitleIsPointwise(s);
    TitleIsPointwise(t);
    forall i | 0 <= i < |t|
      ensures Title(t)[i] == t[i]
    {
      assert t[i] == TitleCharAt(s, i);
      if i > 0 {
        assert t[i - 1] == TitleCharAt(s, i - 1);
      }
    }
  }
}
