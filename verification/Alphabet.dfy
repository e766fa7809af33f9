/** The characters of the ASCII classes, written out. */
module Alphabet {
  const CAPITALS := "ABCDEFGHIJKLMNOPQRSTUVWXYZ"
  const SMALLS := "abcdefghijklmnopqrstuvwxyz"
  const DIGITS := "0123456789"

  lemma CapitalsAre(c: char)
    ensures 'A' <= c <= 'Z' <==> c in CAPITALS
  {
  }

  lemma SmallsAre(c: char)
    ensures 'a' <= c <= 'z' <==> c in SMALLS
  {
  }

  lemma DigitsAre(c: char)
    ensures '0' <= c <= '9' <==> c in DIGITS
  {
  }

  /** The letters stand in the order of their codes. */
  lemma LetterAt(k: nat)
    requires k < |CAPITALS|
    ensures k < |SMALLS| && CAPITALS[k] as int == 65 + k && SMALLS[k] as int == 97 + k
  {
  }
}
