# ISO/IEC 8859-7 character classification, modelled in Dafny

The parser's lexer works with pluggable character encodings. Each encoding tells the lexer three things:

- how many bytes the character at the current position takes;
- whether that character is alphabetic or alphanumeric, which decides where identifiers start and continue;
- whether it is uppercase, which separates constants from local names.

This project models the ISO/IEC 8859-7 (Latin/Greek) encoding, `src/enc/iso_8859_7.c`. That file holds a 256-entry static bitfield table indexed by byte value, plus four query functions. Each query reads the byte under its pointer argument and either returns 1 or masks the table entry against one bit.

The model has two modules:

- `GreekCharset` (`greek_charset.dfy`) describes the ISO/IEC 8859-7 repertoire on its own terms, with no table. It says which byte values are the ASCII digits, which are capital letters (Latin A-Z and the Greek capitals, including those with tonos or dialytika) and which are small letters (Latin a-z and the Greek small letters, final sigma included). It also lists, as ranges, the byte values that fall in none of these classes.
- `Iso8859_7` (`iso_8859_7.dfy`) holds the table and the four queries. The table is written as sixteen row constants, `Row0x` to `RowFx`, one per source line and in the same column order. `Table()` is those rows laid end to end, 256 entries in byte order. The queries have the same bodies as the C functions: one table lookup and a bitwise AND. The central lemma, `TableMatchesCharset`, proves that for all 256 bytes the table entry is exactly the bit pattern of that byte's class in `GreekCharset`. Every query's contract is stated in terms of those classes, so each contract is checked against the independent description rather than against the table itself.

Assumptions:

- The bit constants come from `yp_encoding.h`, which is not part of this model. The model takes `AlphabeticBit = 0x1`, `AlphanumericBit = 0x2` and `UppercaseBit = 0x4`. These are the values consistent with a table whose entries are always `0b000`, `0b010` (digits), `0b011` (small letters) or `0b111` (capital letters).
- The pointer argument `const char *c` is modelled as the one byte `*c` that each query reads, converted to `unsigned char` (type `byte`, 0..255). The C `size_t` results are `nat` in the model, and the `bool` result is `bool`.

## Model

| member | source | states |
|---|---|---|
| `Iso8859_7.Table` | src/enc/iso_8859_7.c:5-23 | The table has exactly 256 entries, one per byte value. |
| `Iso8859_7.Flatten` | src/enc/iso_8859_7.c:5-23 | Laying full 16-entry rows end to end gives 16 entries per row. |
| `Iso8859_7.FlattenAt` | src/enc/iso_8859_7.c:5-23 | Position i of the laid-out rows is column i mod 16 of row i / 16, the layout of the C initializer. |
| `Iso8859_7.EntryInRow` | src/enc/iso_8859_7.c:5-23 | The entry for byte b is column b mod 16 of source row b / 16. |
| `Iso8859_7.LowAsciiRowsMatch` | src/enc/iso_8859_7.c:7-10 | In rows 0x to 3x, every cell carries the bits of its byte's class: only the digits 0x30-0x39 are classified. |
| `Iso8859_7.HighAsciiRowsMatch` | src/enc/iso_8859_7.c:11-14 | In rows 4x to 7x, every cell carries the bits of its byte's class: A-Z uppercase, a-z lowercase, punctuation unclassified. |
| `Iso8859_7.GreekSymbolRowsMatch` | src/enc/iso_8859_7.c:15-18 | In rows 8x to Bx, every cell carries the bits of its byte's class: only the Greek capitals with tonos are classified. |
| `Iso8859_7.GreekLetterRowsMatch` | src/enc/iso_8859_7.c:19-22 | In rows Cx to Fx, every cell carries the bits of its byte's class: the Greek capitals and small letters, with 0xD2 and 0xFF unclassified. |
| `Iso8859_7.RowMatchesCharset` | src/enc/iso_8859_7.c:7-22 | Every cell of every row carries the bits of the class of its byte (16 × row + column). |
| `Iso8859_7.TableMatchesCharset` | src/enc/iso_8859_7.c:5-23 | For every byte, the table entry is 0 for unclassified bytes, the alphanumeric bit for digits, alphabetic + alphanumeric for small letters, and all three bits for capital letters. |
| `Iso8859_7.TableEntryShapes` | src/enc/iso_8859_7.c:5-23 | Every entry is one of 0b000, 0b010, 0b011, 0b111; the uppercase bit implies the alphabetic bit, which implies the alphanumeric bit. |
| `Iso8859_7.CharWidth` | src/enc/iso_8859_7.c:25-28 | Every byte is a character of width 1: the encoding is single-byte. |
| `Iso8859_7.AlphaChar` | src/enc/iso_8859_7.c:30-34 | Returns only 0 or 1, and returns 1 exactly when the byte is a Latin or Greek letter. |
| `Iso8859_7.AlnumChar` | src/enc/iso_8859_7.c:36-40 | Returns only 0 or 1, and returns 1 exactly when the byte is a letter or an ASCII digit. |
| `Iso8859_7.IsUpperChar` | src/enc/iso_8859_7.c:42-46 | True exactly when the byte is a Latin or Greek capital letter. |
| `Iso8859_7.QueriesReadEntryBits` | src/enc/iso_8859_7.c:30-46 | Each query answers 1 or true exactly when its bit (alphabetic, alphanumeric, uppercase) is set in the byte's table entry. |
| `Iso8859_7.QueryHierarchy` | src/enc/iso_8859_7.c:30-46 | An uppercase byte is alphabetic, and an alphabetic byte is alphanumeric. |
| `Iso8859_7.DigitsAreOnlyAlphanumeric` | src/enc/iso_8859_7.c:10 | Bytes 0x30-0x39 are alphanumeric but neither alphabetic nor uppercase. |
| `Iso8859_7.UppercaseLetters` | src/enc/iso_8859_7.c:11-20 | The capital letters are alphabetic, alphanumeric and uppercase: 0x41-0x5A, 0xB6, 0xB8-0xBA, 0xBC, 0xBE-0xBF, 0xC1-0xD1 and 0xD3-0xDB. |
| `Iso8859_7.LowercaseLetters` | src/enc/iso_8859_7.c:13-22 | The small letters are alphabetic and alphanumeric but not uppercase: 0x61-0x7A, 0xC0 and 0xDC-0xFE. |
| `Iso8859_7.UnclassifiedBytes` | src/enc/iso_8859_7.c:7-22 | The alphanumeric query answers 0 exactly at 0x00-0x2F, 0x3A-0x40, 0x5B-0x60, 0x7B-0xB5, 0xB7, 0xBB, 0xBD, 0xD2 and 0xFF. At those bytes the other two queries answer 0 and false as well. |
| `GreekCharset.UnclassifiedRanges` | src/enc/iso_8859_7.c:7-22 | The bytes outside every class are exactly the ranges listed above. |
| `GreekCharset.ClassesDisjoint` | src/enc/iso_8859_7.c:7-22 | Digits, capital letters and small letters are pairwise disjoint, so each byte has exactly one class. |

## Left out

- Pointer semantics: the queries take a `const char *` and read only `*c`. The model takes that byte and does not model memory, reads past the byte, or invalid pointers.
- The signed-to-unsigned conversion `const unsigned char v = *c`: the model's input is already the unsigned byte value.
- The encoding record that bundles these functions under a name, and the bit macros in `yp_encoding.h`: `yp_encoding.h` is not part of this model. Its bit values are taken as the assumption stated above.
- The lexer, parser, serializer and encoding-negotiation callbacks that use this table: their source is not part of this model.
- `rust/yarp-sys/tests/parser_tests.rs`: a test harness across the foreign-function boundary. It reads files and uses raw pointers, and it tests the parser, not this encoding.
