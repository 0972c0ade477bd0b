/** The string operations the services use, on ASCII text. */
module Text {

  function LowerChar(c: char): char {
    if 'A' <= c <= 'Z' then (c as int - 'A' as int + 'a' as int) as char else c
  }

  function Lower(s: string): string { seq(|s|, i requires 0 <= i < |s| => LowerChar(s[i])) }

  function UpperChar(c: char): char {
    if 'a' <= c <= 'z' then (c as int - 'a' as int + 'A' as int) as char else c
  }

  function Upper(s: string): string { seq(|s|, i requires 0 <= i < |s| => UpperChar(s[i])) }

  predicate IsSpace(c: char) { c == ' ' || c == '\t' || c == '\n' || c == '\r' }

  function StripLeft(s: string): string { if s != "" && IsSpace(s[0]) then StripLeft(s[1..]) else s }

  function StripRight(s: string): string {
    if s != "" && IsSpace(s[|s| - 1]) then StripRight(s[..|s| - 1]) else s
  }

  function Strip(s: string): string { StripRight(StripLeft(s)) }

  predicate Contains(s: string, word: string) {
    |word| <= |s| && (word <= s || Contains(s[1..], word))
  }

  lemma UpperIsIdempotent(s: string)
    ensures Upper(Upper(s)) == Upper(s)
  {
    assert |Upper(Upper(s))| == |Upper(s)|;
  }

  lemma LowerKeeps(s: string)
    requires forall i | 0 <= i < |s| :: !('A' <= s[i] <= 'Z')
    ensures Lower(s) == s
  {
  }

  /** `s` is the word `word` of small letters, in any mixture of cases. */
  predicate Spells(s: string, word: string) {
    |s| == |word| && forall i | 0 <= i < |s| :: s[i] == word[i] || s[i] as int + 32 == word[i] as int
  }

  lemma LowerSpells(s: string, word: string)
    requires forall i | 0 <= i < |word| :: 'a' <= word[i] <= 'z'
    ensures Lower(s) == word <==> Spells(s, word)
  {
    if Lower(s) == word {
      assert |Lower(s)| == |s| && forall i | 0 <= i < |s| :: Lower(s)[i] == LowerChar(s[i]);
    }
    if Spells(s, word) {
      assert forall i | 0 <= i < |s| :: Lower(s)[i] == LowerChar(s[i]) == word[i];
    }
  }

  lemma {:induction false} StripLeftUpper(s: string)
    ensures StripLeft(Upper(s)) == Upper(StripLeft(s))
  {
    if s != "" && IsSpace(s[0]) {
      assert Upper(s)[1..] == Upper(s[1..]);
      StripLeftUpper(s[1..]);
    }
  }

  lemma {:induction false} StripRightUpper(s: string)
    ensures StripRight(Upper(s)) == Upper(StripRight(s))
  {
    if s != "" && IsSpace(s[|s| - 1]) {
      assert Upper(s)[..|s| - 1] == Upper(s[..|s| - 1]);
      StripRightUpper(s[..|s| - 1]);
    }
  }

  lemma StripUpper(s: string)
    ensures Strip(Upper(s)) == Upper(Strip(s))
  {
    StripLeftUpper(s);
    StripRightUpper(StripLeft(s));
  }
}
