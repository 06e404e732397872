/** The string normalisations the sources apply to user input, over ASCII case and whitespace. */
module Text {
  import opened Common

  predicate IsSpace(c: char) { c == ' ' || '\t' <= c <= '\r' }

  predicate Stripped(s: string) { s == "" || (!IsSpace(s[0]) && !IsSpace(Last(s))) }

  function Strip(s: string): (r: string)
    ensures Stripped(r)
    ensures Stripped(s) ==> r == s
    decreases |s|
  {
    if s == "" then ""
    else if IsSpace(s[0]) then Strip(s[1..])
    else if IsSpace(Last(s)) then Strip(Init(s))
    else s
  }

  /** What is stripped is the space at both ends and nothing else. */
  lemma {:induction false} StripIs(s: string) returns (i: nat, j: nat)
    ensures i <= j <= |s| && Strip(s) == s[i..j]
    ensures forall k | 0 <= k < i || j <= k < |s| :: IsSpace(s[k])
    decreases |s|
  {
    if s == "" {
      i, j := 0, 0;
    } else if IsSpace(s[0]) {
      i, j := StripIs(s[1..]);
      assert s[1..][i..j] == s[i + 1..j + 1];
      assert forall k | 0 < k < |s| :: s[k] == s[1..][k - 1];
      i, j := i + 1, j + 1;
    } else if IsSpace(Last(s)) {
      i, j := StripIs(Init(s));
      assert Init(s)[i..j] == s[i..j];
      assert forall k | 0 <= k < |s| - 1 :: s[k] == Init(s)[k];
    } else {
      i, j := 0, |s|;
    }
  }

  function LowerChar(c: char): char {
    if 'A' <= c <= 'Z' then c - 'A' + 'a' else c
  }

  function UpperChar(c: char): char {
    if 'a' <= c <= 'z' then c - 'a' + 'A' else c
  }

  /** The 26 capital letters come 32 places before the small ones, and nothing else has a case. */
  lemma LetterCase(c: char)
    ensures LowerChar(c) as int == c as int + if 65 <= c as int < 65 + 26 then 32 else 0
    ensures UpperChar(c) as int == c as int - if 97 <= c as int < 97 + 26 then 32 else 0
  {
  }

  function Lower(s: string): string { seq(|s|, i requires 0 <= i < |s| => LowerChar(s[i])) }

  function Upper(s: string): string { seq(|s|, i requires 0 <= i < |s| => UpperChar(s[i])) }

  function Underscored(s: string): string { seq(|s|, i requires 0 <= i < |s| => if s[i] == '-' then '_' else s[i]) }

  lemma LowerFixed(s: string)
    ensures Lower(Lower(s)) == Lower(s)
    ensures Stripped(s) ==> Stripped(Lower(s))
  {
  }

  lemma UnderscoredFixed(s: string)
    ensures Underscored(Underscored(s)) == Underscored(s)
    ensures Lower(s) == s ==> Lower(Underscored(s)) == Underscored(s)
    ensures Stripped(s) ==> Stripped(Underscored(s))
  {
    if Lower(s) == s {
      assert forall i | 0 <= i < |s| :: LowerChar(s[i]) == Lower(s)[i] == s[i];
    }
  }
}
