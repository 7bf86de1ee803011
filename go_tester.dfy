/** Character classes of the Go tokenizer (tokenizer/tester.go). */
module GoTester {

  /** The value `peekFar` yields past the end of the buffer. */
  const NUL: char := '\0'

  const Lower: string := "abcdefghijklmnopqrstuvwxyz"
  const Upper: string := "ABCDEFGHIJKLMNOPQRSTUVWXYZ"
  const Digits: string := "0123456789"

  predicate IsIdentifierStarter(ch: char) {
    ('a' <= ch <= 'z') || ('A' <= ch <= 'Z') || ch == '_'
  }

  predicate IsIdentifierLetter(ch: char) {
    ('0' <= ch <= '9') || ('a' <= ch <= 'z') || ('A' <= ch <= 'Z') || ch == '_'
  }

  predicate IsStringStarter(ch: char) {
    ch == '\'' || ch == '#'
  }

  /** The ASCII decimal digits, the only digits of unicode.IsDigit on a byte. */
  predicate IsAsciiDigit(ch: char) {
    '0' <= ch <= '9'
  }

  /** The starters are exactly the 52 ASCII letters and the underscore. */
  lemma StarterIsLetterOrUnderscore(ch: char)
    ensures IsIdentifierStarter(ch) <==> ch in Lower || ch in Upper || ch == '_'
  {
    CharRange(Lower, 'a', ch);
    CharRange(Upper, 'A', ch);
  }

  /** The identifier letters are the starters plus the ten digits. */
  lemma LetterIsStarterOrDigit(ch: char)
    ensures IsIdentifierLetter(ch) <==> IsIdentifierStarter(ch) || ch in Digits
  {
    CharRange(Digits, '0', ch);
  }

  /** A string of consecutive code points holds exactly the characters of its range. */
  lemma CharRange(s: string, lo: char, ch: char)
    requires forall i :: 0 <= i < |s| ==> s[i] as int == lo as int + i
    ensures ch in s <==> lo as int <= ch as int < lo as int + |s|
  {
    if lo as int <= ch as int < lo as int + |s| {
      assert s[ch as int - lo as int] == ch;
    }
  }

  /** Every starter may also continue an identifier. */
  lemma StarterIsLetter(ch: char)
    requires IsIdentifierStarter(ch)
    ensures IsIdentifierLetter(ch)
  {
  }

  /** String starters, identifier starters and digits are pairwise disjoint,
      so the order of the dispatch cases cannot change the branch taken. */
  lemma StartersDisjoint(ch: char)
    ensures !(IsStringStarter(ch) && IsIdentifierStarter(ch))
    ensures !(IsStringStarter(ch) && IsAsciiDigit(ch))
    ensures !(IsIdentifierStarter(ch) && IsAsciiDigit(ch))
  {
  }

  /** None of the classes holds for the past-the-end value, so loops over
      `peekFar` stop at the end of the buffer. */
  lemma NulInNoClass()
    ensures !IsIdentifierStarter(NUL) && !IsIdentifierLetter(NUL)
    ensures !IsStringStarter(NUL) && !IsAsciiDigit(NUL)
  {
  }
}
