/**
  The ISO/IEC 8859-7 encoding table used by the lexer: a 256-entry bitfield
  table indexed by byte value, and the four per-character queries the lexer
  calls through the encoding record (character width, alphabetic,
  alphanumeric, uppercase). Each query receives a pointer to the current
  source position and reads only the byte there; the model passes that byte.
 */
module Iso8859_7 {
  import opened GreekCharset

  // Bits of a table entry. Their definitions live in yp_encoding.h, which is
  // not part of this model; these values are the ones the table's entries
  // (only ever 0b000, 0b010, 0b011, 0b111) are consistent with.
  const AlphabeticBit: bv8 := 0x1
  const AlphanumericBit: bv8 := 0x2
  const UppercaseBit: bv8 := 0x4

  // The table, one constant per source row; the hex digit is the high nibble
  // of the byte values the row covers (0b000 = 0x0, 0b010 = 0x2, 0b011 = 0x3,
  // 0b111 = 0x7).
  //                             0    1    2    3    4    5    6    7    8    9    A    B    C    D    E    F
  const Row0x: seq<bv8> := [0x0, 0x0, 0x0, 0x0, 0x0, 0x0, 0x0, 0x0, 0x0, 0x0, 0x0, 0x0, 0x0, 0x0, 0x0, 0x0]
  const Row1x: seq<bv8> := [0x0, 0x0, 0x0, 0x0, 0x0, 0x0, 0x0, 0x0, 0x0, 0x0, 0x0, 0x0, 0x0, 0x0, 0x0, 0x0]
  const Row2x: seq<bv8> := [0x0, 0x0, 0x0, 0x0, 0x0, 0x0, 0x0, 0x0, 0x0, 0x0, 0x0, 0x0, 0x0, 0x0, 0x0, 0x0]
  const Row3x: seq<bv8> := [0x2, 0x2, 0x2, 0x2, 0x2, 0x2, 0x2, 0x2, 0x2, 0x2, 0x0, 0x0, 0x0, 0x0, 0x0, 0x0]
  const Row4x: seq<bv8> := [0x0, 0x7, 0x7, 0x7, 0x7, 0x7, 0x7, 0x7, 0x7, 0x7, 0x7, 0x7, 0x7, 0x7, 0x7, 0x7]
  const Row5x: seq<bv8> := [0x7, 0x7, 0x7, 0x7, 0x7, 0x7, 0x7, 0x7, 0x7, 0x7, 0x7, 0x0, 0x0, 0x0, 0x0, 0x0]
  const Row6x: seq<bv8> := [0x0, 0x3, 0x3, 0x3, 0x3, 0x3, 0x3, 0x3, 0x3, 0x3, 0x3, 0x3, 0x3, 0x3, 0x3, 0x3]
  const Row7x: seq<bv8> := [0x3, 0x3, 0x3, 0x3, 0x3, 0x3, 0x3, 0x3, 0x3, 0x3, 0x3, 0x0, 0x0, 0x0, 0x0, 0x0]
  const Row8x: seq<bv8> := [0x0, 0x0, 0x0, 0x0, 0x0, 0x0, 0x0, 0x0, 0x0, 0x0, 0x0, 0x0, 0x0, 0x0, 0x0, 0x0]
  const Row9x: seq<bv8> := [0x0, 0x0, 0x0, 0x0, 0x0, 0x0, 0x0, 0x0, 0x0, 0x0, 0x0, 0x0, 0x0, 0x0, 0x0, 0x0]
  const RowAx: seq<bv8> := [0x0, 0x0, 0x0, 0x0, 0x0, 0x0, 0x0, 0x0, 0x0, 0x0, 0x0, 0x0, 0x0, 0x0, 0x0, 0x0]
  const RowBx: seq<bv8> := [0x0, 0x0, 0x0, 0x0, 0x0, 0x0, 0x7, 0x0, 0x7, 0x7, 0x7, 0x0, 0x7, 0x0, 0x7, 0x7]
  const RowCx: seq<bv8> := [0x3, 0x7, 0x7, 0x7, 0x7, 0x7, 0x7, 0x7, 0x7, 0x7, 0x7, 0x7, 0x7, 0x7, 0x7, 0x7]
  const RowDx: seq<bv8> := [0x7, 0x7, 0x0, 0x7, 0x7, 0x7, 0x7, 0x7, 0x7, 0x7, 0x7, 0x7, 0x3, 0x3, 0x3, 0x3]
  const RowEx: seq<bv8> := [0x3, 0x3, 0x3, 0x3, 0x3, 0x3, 0x3, 0x3, 0x3, 0x3, 0x3, 0x3, 0x3, 0x3, 0x3, 0x3]
  const RowFx: seq<bv8> := [0x3, 0x3, 0x3, 0x3, 0x3, 0x3, 0x3, 0x3, 0x3, 0x3, 0x3, 0x3, 0x3, 0x3, 0x3, 0x0]

  /** The sixteen rows, top to bottom. */
  const Rows: seq<seq<bv8>> := [
    Row0x, Row1x, Row2x, Row3x, Row4x, Row5x, Row6x, Row7x,
    Row8x, Row9x, RowAx, RowBx, RowCx, RowDx, RowEx, RowFx
  ]

  /** Every row has one entry per low nibble. */
  predicate FullRows(rows: seq<seq<bv8>>) {
    forall r :: 0 <= r < |rows| ==> |rows[r]| == 16
  }

  /** `rows` laid end to end. */
  function Flatten(rows: seq<seq<bv8>>): (t: seq<bv8>)
    requires FullRows(rows)
    ensures |t| == 16 * |rows|
  {
    if rows == [] then [] else Flatten(rows[..|rows| - 1]) + rows[|rows| - 1]
  }

  /** `yp_encoding_iso_8859_7_table`: the 256 entries in byte order, row after row. */
  function Table(): (t: seq<bv8>)
    ensures |t| == 256
  {
    Flatten(Rows)
  }

  /** The table entry for byte `b`: `yp_encoding_iso_8859_7_table[v]`. */
  function Entry(b: byte): bv8 {
    Table()[b as int]
  }

  /** The bits a byte of each class is meant to carry. */
  function ClassBits(c: CharClass): bv8 {
    match c
    case Unclassified => 0
    case Digit => AlphanumericBit
    case LowercaseLetter => AlphabeticBit | AlphanumericBit
    case UppercaseLetter => AlphabeticBit | AlphanumericBit | UppercaseBit
  }

  /** Position `i` of the flattened rows is column `i % 16` of row `i / 16`. */
  lemma {:induction false} FlattenAt(rows: seq<seq<bv8>>, i: nat)
    requires FullRows(rows) && i < 16 * |rows|
    ensures Flatten(rows)[i] == rows[i / 16][i % 16]
  {
    var front := rows[..|rows| - 1];
    if i < 16 * |front| {
      FlattenAt(front, i);
    } else {
      var k := i - 16 * |front|;
      SplitIndex(|front|, k);
    }
  }

  /** Column `k` of row `h` is byte `16 * h + k`. */
  lemma SplitIndex(h: nat, k: nat)
    requires k < 16
    ensures (16 * h + k) / 16 == h && (16 * h + k) % 16 == k
  {
  }

  /** Entry `b` of the table sits in row `b / 16` at column `b % 16`. */
  lemma EntryInRow(b: byte)
    ensures Entry(b) == Rows[b as int / 16][b as int % 16]
  {
    FlattenAt(Rows, b as int);
  }

  /** Rows 0x_ to 3x: controls, space, punctuation and the digits. */
  lemma LowAsciiRowsMatch(h: nat, k: nat)
    requires h < 4 && k < 16
    ensures Rows[h][k] == ClassBits(Classify((16 * h + k) as byte))
  {
  }

  /** Rows 4x to 7x: the Latin letters and the remaining ASCII punctuation. */
  lemma HighAsciiRowsMatch(h: nat, k: nat)
    requires 4 <= h < 8 && k < 16
    ensures Rows[h][k] == ClassBits(Classify((16 * h + k) as byte))
  {
  }

  /** Rows 8x to Bx: C1 controls, symbols and the Greek capitals with tonos. */
  lemma GreekSymbolRowsMatch(h: nat, k: nat)
    requires 8 <= h < 12 && k < 16
    ensures Rows[h][k] == ClassBits(Classify((16 * h + k) as byte))
  {
  }

  /** Rows Cx to Fx: the Greek alphabet. */
  lemma GreekLetterRowsMatch(h: nat, k: nat)
    requires 12 <= h < 16 && k < 16
    ensures Rows[h][k] == ClassBits(Classify((16 * h + k) as byte))
  {
  }

  /** Every cell of a row carries the bits of its byte's class. */
  lemma RowMatchesCharset(h: nat, k: nat)
    requires h < 16 && k < 16
    ensures Rows[h][k] == ClassBits(Classify((16 * h + k) as byte))
  {
    if h < 4 {
      LowAsciiRowsMatch(h, k);
    } else if h < 8 {
      HighAsciiRowsMatch(h, k);
    } else if h < 12 {
      GreekSymbolRowsMatch(h, k);
    } else {
      GreekLetterRowsMatch(h, k);
    }
  }

  /** The table encodes exactly the ISO/IEC 8859-7 character classes. */
  lemma TableMatchesCharset(b: byte)
    ensures Entry(b) == ClassBits(Classify(b))
  {
    EntryInRow(b);
    RowMatchesCharset(b as int / 16, b as int % 16);
  }

  /**
    Every entry is one of 0b000, 0b010, 0b011, 0b111, and the bits are nested:
    uppercase implies alphabetic, alphabetic implies alphanumeric.
   */
  lemma TableEntryShapes(b: byte)
    ensures Entry(b) in {0x0, 0x2, 0x3, 0x7}
    ensures Entry(b) & UppercaseBit != 0 ==> Entry(b) & AlphabeticBit != 0
    ensures Entry(b) & AlphabeticBit != 0 ==> Entry(b) & AlphanumericBit != 0
  {
    TableMatchesCharset(b);
  }

  /** `yp_encoding_iso_8859_7_char_width`: every byte is one whole character. */
  function CharWidth(b: byte): (w: nat)
    ensures w == 1
  {
    1
  }

  /** `yp_encoding_iso_8859_7_alpha_char`: 1 for a letter, 0 for anything else. */
  function AlphaChar(b: byte): (r: nat)
    ensures r == 0 || r == 1
    ensures r == 1 <==> IsLetter(b)
  {
    TableMatchesCharset(b);
    if Entry(b) & AlphabeticBit != 0 then 1 else 0
  }

  /** `yp_encoding_iso_8859_7_alnum_char`: 1 for a letter or a digit, 0 for anything else. */
  function AlnumChar(b: byte): (r: nat)
    ensures r == 0 || r == 1
    ensures r == 1 <==> IsLetter(b) || IsDigit(b)
  {
    TableMatchesCharset(b);
    if Entry(b) & AlphanumericBit != 0 then 1 else 0
  }

  /** `yp_encoding_iso_8859_7_isupper_char`: true exactly for the capital letters. */
  function IsUpperChar(b: byte): (r: bool)
    ensures r <==> IsUppercaseLetter(b)
  {
    TableMatchesCharset(b);
    Entry(b) & UppercaseBit != 0
  }

  /** The queries agree with the three bits of the byte's table entry. */
  lemma QueriesReadEntryBits(b: byte)
    ensures AlphaChar(b) == 1 <==> Entry(b) & AlphabeticBit != 0
    ensures AlnumChar(b) == 1 <==> Entry(b) & AlphanumericBit != 0
    ensures IsUpperChar(b) <==> Entry(b) & UppercaseBit != 0
  {
  }

  /** What the lexer may rely on: an uppercase byte is alphabetic, an alphabetic byte is alphanumeric. */
  lemma QueryHierarchy(b: byte)
    ensures IsUpperChar(b) ==> AlphaChar(b) == 1
    ensures AlphaChar(b) == 1 ==> AlnumChar(b) == 1
  {
  }

  /** ASCII digits continue an identifier but cannot start one and have no case. */
  lemma DigitsAreOnlyAlphanumeric(b: byte)
    requires 0x30 <= b <= 0x39
    ensures AlnumChar(b) == 1 && AlphaChar(b) == 0 && !IsUpperChar(b)
  {
  }

  /** The uppercase letters: alphabetic, alphanumeric and uppercase. */
  lemma UppercaseLetters(b: byte)
    requires IsUppercaseLetter(b)
    ensures AlphaChar(b) == 1 && AlnumChar(b) == 1 && IsUpperChar(b)
  {
  }

  /** The lowercase letters, Greek final sigma and iota with dialytika and tonos among them: alphabetic but not uppercase. */
  lemma LowercaseLetters(b: byte)
    requires IsLowercaseLetter(b)
    ensures AlphaChar(b) == 1 && AlnumChar(b) == 1 && !IsUpperChar(b)
  {
    ClassesDisjoint(b);
  }

  /** The bytes no query classifies: every answer is 0 or false there, and only there. */
  lemma UnclassifiedBytes(b: byte)
    ensures AlnumChar(b) == 0 <==>
      || b <= 0x2F
      || 0x3A <= b <= 0x40
      || 0x5B <= b <= 0x60
      || 0x7B <= b <= 0xB5
      || b == 0xB7
      || b == 0xBB
      || b == 0xBD
      || b == 0xD2
      || b == 0xFF
    ensures AlnumChar(b) == 0 ==> AlphaChar(b) == 0 && !IsUpperChar(b)
  {
    UnclassifiedRanges(b);
  }
}
