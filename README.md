# pydyf, modelled in Dafny

pydyf is a low-level PDF generator. Its object classes (`Object`, `Dictionary`,
`Array`, `String`, `Stream`) turn themselves into PDF syntax through a `data`
property. Its `PDF` class registers objects, numbers them, keeps a page tree, and
writes a whole file in one pass: the `%PDF-1.7` header, each live object as an
indirect object, the cross-reference table, and the trailer. While it writes, it
counts every byte, so each cross-reference offset is where its object starts.
The file structure is the one of ISO 32000-1 ("PDF 1.7"), sections 7.3 and
7.5.2 to 7.5.5.

The repository holds two versions of this code, and both are modelled:

- `pydyf/__init__.py`, the current writer, builds `bytes` and writes them to an
  output stream. It is modelled in these files:
  - `pydyf_values.dfy`: the `data` of each class, on values;
  - `pydyf_objects.dfy`: `Object` and the `Stream` operators, as a class whose
    fields are updated in place;
  - `pydyf_document.dfy`: the `PDF` class and its write pass, as imperative
    methods;
  - `pydyf_layout.dfy`: what a reader finds in the file that was written.
- `__init__.py` at the top of the repository, the earlier writer, builds `str`
  and prints it. It counts characters, not bytes. It also registers an outline
  dictionary, and it chooses fill rules by name. It is modelled in
  `legacy_values.dfy`, `legacy_objects.dfy` and `legacy_document.dfy`.

Two helper modules are shared:

- `text.dfy`: joining, splitting, decimal text, zero padding, and the sequence lemmas both layouts use;
- `bytes.dfy`: ASCII and UTF-16BE encoding.

Each object's body is a datatype (`Node`, `LNode`), and its `data` is a function of
that value. Objects whose fields the writer updates are classes (`PdfObject`,
`LegacyObject`, `PDF`, `LegacyPdf`). The write methods are specified against
functions of the registered objects:

- `FileBytes` / `FileText` is the whole file;
- `AfterBody` is the objects with their offsets set;
- `XrefPosition` is where `xref_position` ends up.

The layout lemmas then say what those functions guarantee a reader of the file.

The output sink `output` (current writer) and standard output (earlier writer)
are modelled as an object with one sequence field, `Output` and `Console`.
`write(b)` / `print(s)` append to that field. The cursor `current_position` is
an unbounded count. Every numeric operand is an integer.

## Model

| member | source | states |
|---|---|---|
| Text.JoinSplit | pydyf/__init__.py:214-216 | splitting a text on a separator and joining the pieces with it gives the text back, which is why `write_object` emits the object's `data` unchanged |
| Text.SplitJoin | pydyf/__init__.py:42-54 | joining separator-free parts and splitting on the separator gives the parts back, which is how the dictionary, array and stream layouts read back |
| Text.ParseNatToString | pydyf/__init__.py:246 | the decimal text of a natural number parses back to that number |
| Text.ZeroPaddedSpec | pydyf/__init__.py:234-235 | `{n:0w}` is all digits, is exactly `w` characters long if and only if `n` has at most `w` digits, and parses back to `n` |
| Bytes.Ascii | pydyf/__init__.py:49 | `str.encode('ascii')` gives one byte per character, equal to its code point and below 128 |
| Bytes.Utf16BeRoundTrip | pydyf/__init__.py:149 | decoding the UTF-16BE encoding of any string, surrogate pairs included, gives the string back |
| Bytes.Utf16BeLengthBmp | pydyf/__init__.py:149 | UTF-16BE takes two bytes per character in the Basic Multilingual Plane |
| PydyfValues.Lookup | pydyf/__init__.py:202-204 | a key maps to the value of an entry that has it, and to nothing exactly when no entry has it |
| PydyfValues.Put | pydyf/__init__.py:202-204 | defines `d[k] = v` on the entry list: the value is replaced in its place when `k` is present, otherwise a new entry is appended; `PutSpec` proves what that means for lookups and key order |
| PydyfValues.PutSpec | pydyf/__init__.py:202-204 | `d[k] = v` maps `k` to `v`, leaves every other key's value as it was, and keeps the insertion order (a new key goes last) |
| PydyfValues.PutEncodable | pydyf/__init__.py:202-204 | assigning an encodable value to an ASCII key keeps a dictionary encodable |
| PydyfValues.Data | pydyf/__init__.py:42-169 | defines the `data` property of `Dictionary`, `Array`, `String` and `Stream`, only for values it can encode (the `requires`); the read-back lemmas below state its layout |
| PydyfValues.DictionaryData | pydyf/__init__.py:42-54 | defines `Dictionary.data`: `<<`, one line per entry, `>>`, joined by newlines; `DictionaryDataLines` reads it back |
| PydyfValues.ArrayData | pydyf/__init__.py:159-169 | defines `Array.data`: `[`, each element's bytes, `]`, joined by spaces; `ArrayDataWords` reads it back |
| PydyfValues.StreamData | pydyf/__init__.py:120-135 | defines `Stream.data`: the `/Length` line, `stream`, the payload and `endstream`; `StreamDataLength` and `StreamPayloadTokens` state its layout |
| PydyfValues.PayloadBytes | pydyf/__init__.py:144-151 | defines the bytes between a `String`'s parentheses: ASCII when possible, otherwise the byte-order mark and UTF-16BE, and `bytes` unchanged; `StringDataRoundTrip` and `BinaryStringData` state the result |
| PydyfValues.KeyLineFields | pydyf/__init__.py:50-52 | a reader of a dictionary line finds `/`, then, for a key without spaces, the ASCII key as the first space-separated word, and after that first space exactly the value's bytes |
| PydyfValues.DictionaryDataLines | pydyf/__init__.py:42-54 | `Dictionary.data` read back line by line is `<<`, one `/key value` line per entry in insertion order, and `>>` |
| PydyfValues.ArrayDataWords | pydyf/__init__.py:159-169 | `Array.data` split on spaces is `[`, each element's bytes in order, and `]` |
| PydyfValues.StreamDataLength | pydyf/__init__.py:120-135 | `Stream.data` is the `/Length` line, `stream`, the payload and `endstream`; the declared length is exactly the payload plus its closing newline, and it reads back as that number |
| PydyfValues.StreamPayloadTokens | pydyf/__init__.py:121-129 | with newline-free tokens, the payload split on newlines is the token list in order |
| PydyfValues.StringDataRoundTrip | pydyf/__init__.py:143-150 | a `str` is written in parentheses as ASCII when it is ASCII and otherwise as the byte-order mark plus UTF-16BE; a reader gets the text back either way |
| PydyfValues.BinaryStringData | pydyf/__init__.py:151 | `bytes` are written unchanged between `(` and `)`: the first byte is `(`, the last is `)`, and what lies between is the input |
| PydyfObjects.ObjHeader | pydyf/__init__.py:23 | the `N G obj` line is ASCII and has no newline |
| PydyfObjects.ObjectId | pydyf/__init__.py:23-30 | the `N G` text shared by the header and a reference is ASCII and has no newline |
| PydyfObjects.IndirectBytes | pydyf/__init__.py:20-26 | defines `Object.indirect`; `IndirectLayout` states its three lines |
| PydyfObjects.ReferenceText | pydyf/__init__.py:28-30 | `Object.reference` is ASCII and has no newline; `ReferenceRoundTrip` reads its words back |
| PydyfObjects.IndirectLayout | pydyf/__init__.py:20-26 | the indirect form is the header line, the data and `endobj`, newline-separated, and its first line is the `N G obj` header |
| PydyfObjects.ReferenceRoundTrip | pydyf/__init__.py:28-30 | a reference's words are the number, the generation and `R`, and both numbers parse back |
| PydyfObjects.Operation | pydyf/__init__.py:62-118 | defines the space-joined operands and operator that each stream method appends; `OperationWords` reads it back |
| PydyfObjects.OperationWords | pydyf/__init__.py:68-118 | an operator token is one ASCII line whose space-separated words are the operands followed by the operator |
| PydyfObjects.DashArrayBytes | pydyf/__init__.py:101-103 | the dash array of `set_dash` encodes to ASCII bytes on one line, so decoding it as ASCII succeeds |
| PydyfObjects.PdfObject.Clip | pydyf/__init__.py:62-63 | appends `W`, or `W*` for the even-odd rule, and nothing else |
| PydyfObjects.PdfObject.Close | pydyf/__init__.py:65-66 | appends `h` |
| PydyfObjects.PdfObject.CurveTo | pydyf/__init__.py:68-69 | appends the six operands and `c` |
| PydyfObjects.PdfObject.End | pydyf/__init__.py:71-72 | appends `n` |
| PydyfObjects.PdfObject.Fill | pydyf/__init__.py:74-75 | appends `f`, or `f*` for the even-odd rule |
| PydyfObjects.PdfObject.FillAndStroke | pydyf/__init__.py:77-78 | appends `B`, or `B*` for the even-odd rule |
| PydyfObjects.PdfObject.FillStrokeAndClose | pydyf/__init__.py:80-81 | appends `b`, or `b*` for the even-odd rule |
| PydyfObjects.PdfObject.LineTo | pydyf/__init__.py:83-84 | appends `x y l` |
| PydyfObjects.PdfObject.MoveTo | pydyf/__init__.py:86-87 | appends `x y m` |
| PydyfObjects.PdfObject.PopState | pydyf/__init__.py:89-90 | appends `Q` |
| PydyfObjects.PdfObject.PushState | pydyf/__init__.py:92-93 | appends `q` |
| PydyfObjects.PdfObject.Rectangle | pydyf/__init__.py:95-96 | appends `x y width height re` |
| PydyfObjects.PdfObject.SetColorRgb | pydyf/__init__.py:98-99 | appends `r g b RG` when stroking, otherwise `r g b rg` |
| PydyfObjects.PdfObject.SetDash | pydyf/__init__.py:101-103 | appends the dash array's text, the phase and `d` |
| PydyfObjects.PdfObject.SetLineWidth | pydyf/__init__.py:105-106 | appends `width w` |
| PydyfObjects.PdfObject.SetState | pydyf/__init__.py:108-109 | appends `/name gs` |
| PydyfObjects.PdfObject.Stroke | pydyf/__init__.py:111-112 | appends `S` |
| PydyfObjects.PdfObject.StrokeAndClose | pydyf/__init__.py:114-115 | appends `s` |
| PydyfObjects.PdfObject.Transform | pydyf/__init__.py:117-118 | appends the six matrix operands and `cm` |
| PydyfDocument.Output.Write | pydyf/__init__.py:212 | `output.write(b)` appends `b` to what was written |
| PydyfDocument.PageTreeWithKid | pydyf/__init__.py:201-204 | defines the page tree after `add_page` as two dictionary assignments, `/Count` first; `PageTreeWithKidSpec` states the result |
| PydyfDocument.PageTreeWithKidSpec | pydyf/__init__.py:201-204 | after `add_page`, `/Count` is one higher, `/Kids` gains `number 0 R`, and every other entry and the key order are unchanged |
| PydyfDocument.KidsWithEncodable | pydyf/__init__.py:204 | the extended `/Kids` array stays encodable |
| PydyfDocument.PageTreeWithKidEncodable | pydyf/__init__.py:201-204 | adding a page keeps an encodable page tree encodable |
| PydyfDocument.InitialEntriesWritable | pydyf/__init__.py:173-199 | in a new document only the free object 0 lacks `data`, and the page tree has the integer `/Count` and the `/Kids` array that `add_page` updates |
| PydyfDocument.AfterBody | pydyf/__init__.py:221-226 | defines the objects after the body pass, as many as before: each live object's offset is the cursor reached when its indirect form starts; `AfterBodyOffsetsOnly` and `OffsetPointsAtObject` state what that means |
| PydyfDocument.XrefLine | pydyf/__init__.py:234-235 | one cross-reference entry is ASCII; `XrefLineWidth` and `XrefLineFields` state its width and fields |
| PydyfDocument.XrefTable | pydyf/__init__.py:228-236 | defines what `write_cross_reference_table` emits: `xref`, the subsection line and the entries |
| PydyfDocument.TrailerBytes | pydyf/__init__.py:238-247 | defines what `write_trailer` emits: `trailer`, the dictionary, `startxref`, the position and `%%EOF` |
| PydyfDocument.FileBytes | pydyf/__init__.py:249-253 | defines the whole file `write` emits from a given cursor; `FileLayout` and `XrefEntryLocatesObject` state what a reader finds in it |
| PydyfDocument.PDF.constructor | pydyf/__init__.py:173-199 | a new document holds the free object 0 with generation 65535, then the page tree, the info dictionary and the catalog as objects 1 to 3; the catalog points at `1 0 R`; the cursor is 0 and `xref_position` is `None`; all four objects are newly allocated, so a caller may go on to `add_page` and `write` |
| PydyfDocument.PDF.AddObject | pydyf/__init__.py:206-208 | the object gets the count of objects before it as its number and is appended; numbering stays dense |
| PydyfDocument.PDF.AddPage | pydyf/__init__.py:201-204 | the page is registered with the next number, and the page tree becomes `PageTreeWithKid` of the old one |
| PydyfDocument.PDF.WriteLine | pydyf/__init__.py:210-212 | writes `content` and a newline, and moves the cursor by exactly that many bytes |
| PydyfDocument.PDF.WriteObject | pydyf/__init__.py:214-216 | writing the `data` line by line emits the `data` followed by one newline, and the cursor moves by the bytes written |
| PydyfDocument.PDF.WriteHeader | pydyf/__init__.py:218-219 | writes the `%PDF-1.7` line |
| PydyfDocument.PDF.WriteBody | pydyf/__init__.py:221-226 | free objects are skipped; each live object's offset becomes the cursor at which its indirect form starts, and the body is the objects' indirect forms in number order |
| PydyfDocument.PDF.WriteCrossReferenceTable | pydyf/__init__.py:228-236 | writes `xref`, records the cursor after that line as `xref_position`, then `0 len(objects)` and one entry per object, free ones included, leaving the objects unchanged |
| PydyfDocument.PDF.WriteTrailer | pydyf/__init__.py:238-247 | writes `trailer`, the dictionary with `/Size`, `/Root` (the catalog's reference) and `/Info` (the info dictionary's reference), `startxref`, `xref_position` and `%%EOF` |
| PydyfDocument.PDF.Write | pydyf/__init__.py:249-253 | the whole file is `FileBytes` of the objects, the objects end up as `AfterBody`, and `xref_position` is `XrefPosition` |
| PydyfLayout.AfterBodyOffsetsOnly | pydyf/__init__.py:221-226 | the body pass changes offsets only, and never a free object's |
| PydyfLayout.OffsetPointsAtObject | pydyf/__init__.py:221-226 | the offset recorded for a live object is where its indirect form starts in the file: the file is what precedes that offset, then the whole indirect object, then the rest |
| PydyfLayout.ChunkOpensWithHeader | pydyf/__init__.py:20-26 | what starts at a recorded offset opens with that object's `N G obj` line |
| PydyfLayout.FileLayout | pydyf/__init__.py:228-253 | the file is the header and body, then `xref`, the subsection line, the entries, `trailer`, the dictionary, `startxref`, the position and `%%EOF`; the recorded position is five bytes past the start of `xref`, and the number after `startxref` reads back as it |
| PydyfLayout.XrefLineWidth | pydyf/__init__.py:234-235 | an entry is 20 bytes with its newline when the offset has at most ten digits and the generation at most five |
| PydyfLayout.XrefLineFields | pydyf/__init__.py:234-235 | an entry's fields are the padded offset, the padded generation, the flag and an empty word; the numbers parse back and the flag is `f` exactly for a free object |
| PydyfLayout.XrefEntriesLength | pydyf/__init__.py:232-236 | with offsets and generations in range, the entries take 20 bytes per object |
| PydyfLayout.XrefEntriesPrefix | pydyf/__init__.py:232-236 | the entries of the first `n` objects are a prefix of the entries of all of them |
| PydyfLayout.XrefEntryAt | pydyf/__init__.py:232-236 | object `k`'s entry starts at byte `20k` of the entries and follows the entries of objects `0` to `k-1` |
| PydyfLayout.XrefEntryLocatesObject | pydyf/__init__.py:221-236 | in a written file, the cross-reference entry of a live object `k` is the line at byte `20k` of the entries; it reads back as the offset recorded for `k`, and at that offset (less the starting cursor) the file holds `k`'s `N G obj` line |
| PydyfLayout.TrailerDictionaryLines | pydyf/__init__.py:240-244 | the trailer dictionary read back line by line is `<<`, `/Size` with the object count, `/Root` and `/Info` with the given references, and `>>` |
| LegacyValues.Lookup | __init__.py:173 | a key maps to the value of an entry that has it, and to nothing exactly when no entry has it |
| LegacyValues.Put | __init__.py:173-175 | defines `d[k] = v` on the entry list: the value is replaced in its place when `k` is present, otherwise a new entry is appended; `PutSpec` proves what that means for lookups and key order |
| LegacyValues.PutSpec | __init__.py:173-175 | `d[k] = v` maps `k` to `v`, leaves every other key's value as it was, and keeps the insertion order: the keys are unchanged for a present key, and a new key goes last |
| LegacyValues.PutSerialisable | __init__.py:173-175 | assigning a serialisable value keeps a dictionary serialisable |
| LegacyValues.Data | __init__.py:31-133 | defines the `data` property of `Dictionary`, `Array`, `String` and `Stream`, only for values it can format (the `requires`); the read-back lemmas below state its layout |
| LegacyValues.DictionaryDataLines | __init__.py:31-39 | `Dictionary.data` read back line by line is `<<`, one `/key value` line per entry in insertion order, and `>>` |
| LegacyValues.ItemLineFields | __init__.py:37 | a dictionary line is `/`, the key, a space and the value's text, and the key is its first word |
| LegacyValues.ArrayDataWords | __init__.py:125-133 | `Array.data` split on spaces is `[`, each element's `str` in order, and `]` |
| LegacyValues.EmptyArrayData | __init__.py:125-133 | an empty array is written `[ ]` |
| LegacyValues.StreamDataLength | __init__.py:94-107 | `Stream.data` is the `/Length` line, `stream`, the text and `endstream`; the declared length is exactly the text plus its closing newline, and it reads back as that number |
| LegacyValues.StreamTextEntries | __init__.py:96-101 | with newline-free entries, the stream text split on newlines is the entry list in order |
| LegacyValues.StringDataRoundTrip | __init__.py:115-117 | a string is written as `( s )`, four characters longer, and a reader gets `s` back |
| LegacyObjects.LegacyIndirect | __init__.py:9-15 | defines `Object.indirect` on `str`; `LegacyIndirectLayout` states its three lines |
| LegacyObjects.LegacyIndirectLayout | __init__.py:9-15 | the indirect form is the header line, the data and `endobj`, newline-separated, and its first line is the `N G obj` header |
| LegacyObjects.RuleOperator | __init__.py:59-75 | defines the choice the painting methods make by rule name; `RuleOperatorsStandard` proves which operator each name gives |
| LegacyObjects.RuleOperatorsStandard | __init__.py:59-75 | `fill`, `fill_and_stroke` and `fill_stroke_and_close` emit an operator exactly for `'winding'` and `'even-odd'`; it is the one Table 60 of ISO 32000-1 assigns to that rule |
| LegacyObjects.StrokeOperatorsSwapped | __init__.py:88-92 | as written, `stroke` emits the close-and-stroke operator `s` and `stroke_and_close` emits the stroke operator `S`, the reverse of Table 59 |
| LegacyObjects.MovedTo | __init__.py:80-83 | defines the stream after `move_to`, or the failure where the source raises; `MovedToSpec` and `MoveToCollapses` state its meaning |
| LegacyObjects.MovedToSpec | __init__.py:80-83 | `move_to` fails exactly when the last entry is an `Object` or an empty string; otherwise the new move ends the stream, preceded by the old entries with a pending move dropped, and only then |
| LegacyObjects.MoveToCollapses | __init__.py:80-83 | two consecutive `move_to`s leave the stream as if only the second had been made |
| LegacyObjects.LegacyObject.Clip | __init__.py:47-48 | appends `W` |
| LegacyObjects.LegacyObject.Close | __init__.py:50-51 | appends `h` |
| LegacyObjects.LegacyObject.CurveTo | __init__.py:53-54 | appends the six operands and `c` |
| LegacyObjects.LegacyObject.End | __init__.py:56-57 | appends `n` |
| LegacyObjects.LegacyObject.Fill | __init__.py:59-63 | appends `f` for `'winding'`, `f*` for `'even-odd'`, nothing for any other rule |
| LegacyObjects.LegacyObject.FillAndStroke | __init__.py:65-69 | appends `B` for `'winding'`, `B*` for `'even-odd'`, nothing for any other rule |
| LegacyObjects.LegacyObject.FillStrokeAndClose | __init__.py:71-75 | appends `b` for `'winding'`, `b*` for `'even-odd'`, nothing for any other rule |
| LegacyObjects.LegacyObject.LineTo | __init__.py:77-78 | appends `x y l` |
| LegacyObjects.LegacyObject.MoveTo | __init__.py:80-83 | reports failure exactly where the source raises, leaving the stream unchanged; otherwise the stream becomes `MovedTo` of the old one |
| LegacyObjects.LegacyObject.Rectangle | __init__.py:85-86 | appends `x y width height re` |
| LegacyObjects.LegacyObject.Stroke | __init__.py:88-89 | appends the stroke operator `S` of Table 59 (corrected; see Findings) |
| LegacyObjects.LegacyObject.StrokeAndClose | __init__.py:91-92 | appends the close-and-stroke operator `s` of Table 59 (corrected; see Findings) |
| LegacyDocument.Console.Print | __init__.py:183 | `print(content, end='\n')` appends `content` and a newline to what was printed |
| LegacyDocument.XrefLine | __init__.py:204-206 | defines one cross-reference entry on `str`; `XrefLineAgrees` and `XrefLineFields` state its fields |
| LegacyDocument.XrefLineAgrees | __init__.py:204-206 | the earlier writer formats a cross-reference entry exactly as the current one |
| LegacyDocument.XrefLineFields | __init__.py:204-206 | an entry's fields are the padded offset, the padded generation, the flag and an empty word; the numbers parse back and the flag is `f` exactly for a free object and `n` exactly for a live one |
| LegacyDocument.TrailerAfterBody | __init__.py:192-197 | the body pass leaves the trailer naming the same catalog and info dictionary |
| LegacyDocument.OffsetPointsAtObject | __init__.py:192-197 | the offset recorded for a live object is where its indirect form starts in the printed text: the text is what precedes that offset, then the whole indirect object, then the rest |
| LegacyDocument.FileLayout | __init__.py:199-223 | the text is the header and body, then `xref`, the subsection line, the entries, `trailer`, the dictionary, `startxref`, the position and `%%EOF`; the recorded position is five characters past the start of `xref`, and the number after `startxref` reads back as it |
| LegacyDocument.FileText | __init__.py:219-223 | defines the whole text `write` prints from a given cursor; `FileLayout` and `OffsetPointsAtObject` state what a reader finds in it |
| LegacyDocument.TrailerDictionaryLines | __init__.py:208-214 | the trailer dictionary read back line by line is `<<`, `/Size` with the object count, `/Root` and `/Info` with the given references, and `>>` |
| LegacyDocument.PageTreeWithKid | __init__.py:172-175 | defines the page tree after `add_page` as two dictionary assignments, `/Count` first; `PageTreeWithKidSpec` states the result |
| LegacyDocument.PageTreeWithKidSpec | __init__.py:172-175 | after `add_page`, `/Count` is one higher, `/Kids` gains `number 0 R`, and every other entry, the number of entries and the key order are unchanged |
| LegacyDocument.PageTreeWithKidSerialisable | __init__.py:172-175 | adding a page keeps the page tree serialisable |
| LegacyDocument.InitialEntriesWritable | __init__.py:137-170 | in a new document only the free object 0 lacks `data`, and the page tree has the integer `/Count` and the `/Kids` array that `add_page` updates |
| LegacyDocument.LegacyPdf.constructor | __init__.py:137-170 | a new document holds the free object 0 with generation 65535, the outlines (`/Count 0`), the page tree, the info dictionary and the catalog as objects 1 to 4; the catalog points at `1 0 R` and `2 0 R`; the cursor is 0 and `xref_position` is `None`; all five objects are newly allocated, so a caller may go on to `add_page` and `write` |
| LegacyDocument.LegacyPdf.AddObject | __init__.py:177-179 | the object gets the count of objects before it as its number and is appended; numbering stays dense |
| LegacyDocument.LegacyPdf.AddPage | __init__.py:172-175 | the page is registered with the next number, and the page tree becomes `PageTreeWithKid` of the old one |
| LegacyDocument.LegacyPdf.WriteLine | __init__.py:181-183 | prints `content` and a newline, and moves the cursor by exactly that many characters |
| LegacyDocument.LegacyPdf.WriteObject | __init__.py:185-187 | printing the `data` line by line prints the `data` followed by one newline, and the cursor moves by the characters printed |
| LegacyDocument.LegacyPdf.WriteHeader | __init__.py:189-190 | prints the `%PDF-1.7` line |
| LegacyDocument.LegacyPdf.WriteBody | __init__.py:192-197 | free objects are skipped; each live object's offset becomes the cursor at which its indirect form starts, and the body is the objects' indirect forms in number order |
| LegacyDocument.LegacyPdf.WriteCrossReferenceTable | __init__.py:199-206 | prints `xref`, records the cursor after that line as `xref_position`, then `0 len(objects)` and one entry per object, free ones included, leaving the objects unchanged |
| LegacyDocument.LegacyPdf.WriteTrailer | __init__.py:208-217 | prints `trailer`, the dictionary with `/Size`, `/Root` (the catalog's reference) and `/Info` (the info dictionary's reference), `startxref`, `str(xref_position)` and `%%EOF` |
| LegacyDocument.LegacyPdf.Write | __init__.py:219-223 | the printed text is `FileText` of the objects, the objects end up as `AfterBody`, and `xref_position` is `XrefPosition` |

## Left out

- Floating-point operands. Python's `str` of a float is not modelled, so every coordinate, width, colour component and dash length is an integer.
- Python's integer rendering of `bool` values and of other objects in dictionaries and arrays. The model offers integers, strings, bytes (current writer) and nested objects, which is what the writer itself puts there.
- The output stream (`sys.stdout.buffer` by default) and standard output. They are the sequence field of `Output` and `Console`; buffering and I/O errors are not modelled.
- The `_indirect` field. Both writers set it on the zero object and never read it.
- The `__main__` demonstration at the end of the earlier `__init__.py` (lines 226-332). It only builds and prints one sample document.
- The free flag. The source stores `'n'` or `'f'`; the model stores a boolean, because nothing else is ever assigned.
- Aliasing of nested objects. In the source, a `Dictionary`, `Array` or `Stream` holds a nested `Object` itself and reads its `data` only when the file is written, so a change made to that object after nesting (a stream operator, `d[k] = v`, the `/Kids` array that `add_page` extends in place) shows up in the output and in every other holder. The model copies the nested value (`Obj` and `ObjToken` in the current writer, `LObj` and `LNested` in the earlier one) at the moment of nesting, and `add_page` replaces the page tree's value.
- `bytes` dictionary keys in the current writer, which `Dictionary.data` passes through without encoding (pydyf/__init__.py:50-51). Keys are `str` in the model, as every key the writer itself uses is.
- PydyfDocument.PDF.AddObject, PydyfDocument.PDF.AddPage, LegacyDocument.LegacyPdf.AddObject and LegacyDocument.LegacyPdf.AddPage require an object that is not registered yet. Registering an object twice in the source renumbers it, lists it twice, writes its indirect form twice, and both cross-reference entries then carry the second offset; that case is not modelled.
- Serialisable / Encodable preconditions. The methods that evaluate `data` (`WriteObject`, `WriteBody`, `Write`) demand that it succeeds, so the `NotImplementedError` of a bare `Object` and the `UnicodeEncodeError` of a non-ASCII key, `str` value or token are preconditions rather than modelled errors.
- PydyfDocument.PDF.AddPage and LegacyDocument.LegacyPdf.AddPage require the page tree to keep its integer `/Count` and its `/Kids` array. Without them the source raises `KeyError` or `TypeError`, and that error path is not modelled.
- PydyfDocument.PDF.WriteObject, WriteBody, WriteCrossReferenceTable and WriteTrailer, and their LegacyDocument counterparts: each states the cursor's movement as the number of bytes (or characters) it appended. The absolute position is stated only for `Write`, the operation that starts the pass.
- LegacyObjects.RuleOperatorsStandard and LegacyDocument.XrefLineAgrees state their properties over the model's definitions, which the verifier unfolds on its own.

Where the code and the file-format description disagree, the model follows the code, with one exception, the third item below:

- `xref_position` is taken after the `xref` line is written. So the number after `startxref` points five bytes past the `xref` keyword, not at it as section 7.5.5 of ISO 32000-1 asks. `FileLayout` states this position as the code computes it.
- The earlier writer's `move_to` drops any last stream entry whose final character is `m`, not only a previous move. `MovedToSpec` states exactly that.
- The earlier writer's `stroke` and `stroke_and_close` (__init__.py:88-92) append each other's operator. The model's `LegacyObject.Stroke` and `StrokeAndClose` follow Table 59 of ISO 32000-1 instead, and `AsWrittenStrokeOperator` keeps the code's choice; see Findings.

## Findings

| source | as written | input that shows it | evidently intended | confidence | as-written member | corrected member |
|---|---|---|---|---|---|---|
| __init__.py:88-92 | `stroke` appends `s` and `stroke_and_close` appends `S` | `Stream().stroke()` yields the token `s`, which closes the path before stroking it | `stroke` appends `S` and `stroke_and_close` appends `s` (Table 59 of ISO 32000-1, as pydyf/__init__.py:111-115 later does) | high (not executed) | LegacyObjects.AsWrittenStrokeOperator, LegacyObjects.StrokeOperatorsSwapped | LegacyObjects.LegacyObject.Stroke, LegacyObjects.LegacyObject.StrokeAndClose |
