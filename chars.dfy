/**
 * Character classes of the data-URI pattern in index.js, read with the
 * pattern's `/i` flag, and the "same string up to letter case" relation.
 */
module Chars {

  predicate IsUpper(c: char) { 'A' <= c <= 'Z' }

  predicate IsLower(c: char) { 'a' <= c <= 'z' }

  /**
   * `[a-z]` under `/i`. Without the `u` flag JavaScript folds case with
   * `toUpperCase` but never lets a non-ASCII character fold onto an ASCII
   * one, so the class holds exactly the 52 ASCII letters.
   */
  predicate IsLetter(c: char) { IsLower(c) || IsUpper(c) }

  predicate IsDigit(c: char) { '0' <= c <= '9' }

  /** JavaScript `\s`: the WhiteSpace and LineTerminator code points. */
  predicate IsSpace(c: char) {
    var n := c as int;
    || n == 0x09 || n == 0x0A || n == 0x0B || n == 0x0C || n == 0x0D || n == 0x20
    || n == 0xA0 || n == 0x1680 || (0x2000 <= n <= 0x200A)
    || n == 0x2028 || n == 0x2029 || n == 0x202F || n == 0x205F
    || n == 0x3000 || n == 0xFEFF
  }

  /** `[a-z\-]` under `/i`: the characters of a parameter name or value. */
  predicate IsNameChar(c: char) { IsLetter(c) || c == '-' }

  /** The punctuation the data segment may hold. */
  const DataPunctuation: string := "!$&',()*+;=-._~:@/?%"

  /** The class of the data segment: letters, digits, `DataPunctuation` and `\s`. */
  predicate IsDataChar(c: char) {
    IsLetter(c) || IsDigit(c) || c in DataPunctuation || IsSpace(c)
  }

  /** The case-insensitive comparison key of a character: ASCII upper case goes to lower case. */
  function Fold(c: char): (f: char)
    ensures !IsUpper(f)
    ensures IsUpper(c) ==> IsLower(f) && f as int == c as int + 32
    ensures !IsUpper(c) ==> f == c
  {
    if IsUpper(c) then (c as int + 32) as char else c
  }

  /** `c` and `d` match each other under `/i`, for this pattern's atoms (all ASCII or caseless). */
  predicate SameUpToCase(c: char, d: char) { Fold(c) == Fold(d) }

  /** Every character of `s` is in the class `p`. */
  predicate All(s: string, p: char -> bool) {
    forall i :: 0 <= i < |s| ==> p(s[i])
  }

  /** `t` is `s` with the case of some of its letters changed. */
  predicate CaseVariant(s: string, t: string) {
    |s| == |t| && forall i :: 0 <= i < |s| ==> SameUpToCase(s[i], t[i])
  }

  /** A class that `/i` cannot tell apart from its case variants. */
  predicate CaseBlind(p: char -> bool) {
    forall c, d :: SameUpToCase(c, d) ==> p(c) == p(d)
  }

  /** Against this pattern's atoms, only ASCII letters have case variants. */
  lemma NonLetterHasNoVariant(c: char, d: char)
    requires SameUpToCase(c, d)
    ensures IsLetter(c) == IsLetter(d)
    ensures !IsLetter(c) ==> c == d
  {
  }

  /** None of the pattern's classes depends on letter case. */
  lemma ClassesAreCaseBlind()
    ensures CaseBlind(IsLetter) && CaseBlind(IsNameChar)
    ensures CaseBlind(IsSpace) && CaseBlind(IsDataChar)
  {
  }
}
