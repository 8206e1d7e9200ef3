/**
  The character repertoire of ISO/IEC 8859-7 (Latin/Greek), stated independently
  of any lookup table: which byte values are decimal digits, which are uppercase
  letters and which are lowercase letters. The lower half (0x00-0x7F) is ASCII;
  the upper half places the Greek alphabet at 0xC1-0xFE, with the accented
  capitals in row 0xB_ and the slot 0xD2 left unassigned (Greek has no capital
  final sigma).
 */
module GreekCharset {

  /** One byte of source text, read as an unsigned value. */
  newtype byte = x: int | 0 <= x < 256

  /** The classes a byte can fall into, as far as the lexer is concerned. */
  datatype CharClass = Unclassified | Digit | LowercaseLetter | UppercaseLetter

  /** ASCII decimal digits '0'-'9'. */
  predicate IsDigit(b: byte) {
    0x30 <= b <= 0x39
  }

  /**
    Capital letters: Latin A-Z; the Greek capitals with tonos (Alpha 0xB6,
    Epsilon, Eta, Iota 0xB8-0xBA, Omicron 0xBC, Upsilon, Omega 0xBE-0xBF);
    Alpha-Rho 0xC1-0xD1; Sigma-Upsilon with dialytika 0xD3-0xDB.
   */
  predicate IsUppercaseLetter(b: byte) {
    || 0x41 <= b <= 0x5A
    || b == 0xB6
    || 0xB8 <= b <= 0xBA
    || b == 0xBC
    || 0xBE <= b <= 0xBF
    || 0xC1 <= b <= 0xD1
    || 0xD3 <= b <= 0xDB
  }

  /**
    Small letters: Latin a-z; iota with dialytika and tonos (0xC0); the Greek
    small letters from alpha with tonos to omega with tonos, final sigma
    included (0xDC-0xFE).
   */
  predicate IsLowercaseLetter(b: byte) {
    || 0x61 <= b <= 0x7A
    || b == 0xC0
    || 0xDC <= b <= 0xFE
  }

  predicate IsLetter(b: byte) {
    IsUppercaseLetter(b) || IsLowercaseLetter(b)
  }

  function Classify(b: byte): CharClass {
    if IsUppercaseLetter(b) then UppercaseLetter
    else if IsLowercaseLetter(b) then LowercaseLetter
    else if IsDigit(b) then Digit
    else Unclassified
  }

  /** The three named sets are pairwise disjoint, so the order of tests in Classify does not matter. */
  lemma ClassesDisjoint(b: byte)
    ensures !(IsDigit(b) && IsLetter(b))
    ensures !(IsUppercaseLetter(b) && IsLowercaseLetter(b))
    ensures Classify(b) == UppercaseLetter <==> IsUppercaseLetter(b)
    ensures Classify(b) == LowercaseLetter <==> IsLowercaseLetter(b)
    ensures Classify(b) == Digit <==> IsDigit(b)
  {
  }

  /**
    The bytes outside every class, listed as ranges: controls, space and ASCII
    punctuation, the C1 controls and the symbols of rows 0x8_-0xB_, and the
    unassigned 0xD2 and 0xFF.
   */
  lemma UnclassifiedRanges(b: byte)
    ensures Classify(b) == Unclassified <==>
      || b <= 0x2F
      || 0x3A <= b <= 0x40
      || 0x5B <= b <= 0x60
      || 0x7B <= b <= 0xB5
      || b == 0xB7
      || b == 0xBB
      || b == 0xBD
      || b == 0xD2
      || b == 0xFF
  {
  }
}
