/** What the bytes of `PDF.write` guarantee a reader of the file: every
    cross-reference offset is where its object's `N G obj` line starts, the
    table has one fixed-width entry per object, `startxref` records the
    position `write_cross_reference_table` took, and the trailer names the
    document's size, catalog and info dictionary. `pos` is the cursor when
    `write` starts (0 for a fresh `PDF`), so file byte `i` sits at cursor `pos + i`. */
module PydyfLayout {
  import opened Text
  import opened Bytes
  import opened PydyfValues
  import opened PydyfObjects
  import opened PydyfDocument

  // ---------------------------------------------------------------------
  // The body

  /** The body pass changes offsets only, and never those of free objects. */
  lemma {:induction false} AfterBodyOffsetsOnly(es: seq<Entry>, pos: nat, k: nat)
    requires LiveEncodable(es) && k < |es|
    ensures var e := AfterBody(es, pos)[k];
      && e == es[k].(offset := e.offset)
      && (es[k].free ==> e == es[k])
  {
    PlacedAt(es, pos, k, pos + |Flatten(Chunks(es)[..k])|);
  }

  /** The offset recorded for a live object is the cursor at which its indirect
      form starts in the file: the file is the bytes before that offset, then the
      object's whole indirect form, then the rest. */
  lemma {:induction false} OffsetPointsAtObject(es: seq<Entry>, pos: nat, k: nat)
    requires |es| >= 4 && LiveEncodable(es) && k < |es| && !es[k].free
    ensures var e := es[k];
      var before := Line(HeaderComment) + Flatten(Chunks(es)[..k]);
      var after := Flatten(Chunks(es)[k + 1..]) + FileTail(es, pos);
      && AfterBody(es, pos + |Line(HeaderComment)|)[k].offset == pos + |before|
      && FileBytes(es, pos) == before + Line(IndirectBytes(e.number, e.generation, e.body)) + after
  {
    var h := Line(HeaderComment);
    var chunks := Chunks(es);
    PlacedAt(es, pos + |h|, k, pos + |h| + |Flatten(chunks[..k])|);
    FlattenSplit(chunks, k);
    assert chunks[k] == Line(IndirectBytes(es[k].number, es[k].generation, es[k].body));
    Regroup(h, Flatten(chunks[..k]), chunks[k], Flatten(chunks[k + 1..]), FileTail(es, pos));
  }

  /** An indirect object's line opens with its `N G obj` line. */
  lemma {:induction false} ChunkOpensWithHeader(e: Entry)
    requires !e.free && Encodable(e.body)
    ensures var header := Line(Ascii(ObjHeader(e.number, e.generation)));
      var chunk := Line(IndirectBytes(e.number, e.generation, e.body));
      |header| <= |chunk| && chunk[..|header|] == header
  {
    IndirectLayout(e.number, e.generation, e.body);
    PrefixOfNested(Ascii(ObjHeader(e.number, e.generation)), NewLine, Data(e.body), NewLine, Ascii("endobj"), NewLine);
  }

  // ---------------------------------------------------------------------
  // The cross-reference table

  /** The whole file, line by line: the header comment and the body, `xref`, the
      subsection line `0 len(objects)`, the entries, `trailer`, the trailer
      dictionary, `startxref`, the recorded position as decimal text, `%%EOF`.
      `xref_position` is taken after the `xref` line, five bytes past its start,
      and the number after `startxref` reads back as that position. */
  lemma {:induction false} FileLayout(es: seq<Entry>, pos: nat)
    requires |es| >= 4 && LiveEncodable(es)
    ensures var placed := AfterBody(es, pos + |Line(HeaderComment)|);
      var x := XrefPosition(es, pos);
      && FileBytes(es, pos) == FileHead(es) + Line(XrefKeyword) + Line(Ascii(SubsectionLine(|es|)))
           + XrefEntries(placed) + Line(TrailerKeyword) + Line(Data(Trailer(es)))
           + Line(StartxrefKeyword) + Line(Ascii(NatToString(x))) + Line(EofMarker)
      && |Line(XrefKeyword)| == 5
      && x == pos + |FileHead(es) + Line(XrefKeyword)|
      && ParseNat(NatToString(x)) == x
  {
    var x := XrefPosition(es, pos);
    var placed := AfterBody(es, pos + |Line(HeaderComment)|);
    Flatten9(FileHead(es), Line(XrefKeyword), Line(Ascii(SubsectionLine(|es|))), XrefEntries(placed),
      Line(TrailerKeyword), Line(Data(Trailer(es))), Line(StartxrefKeyword), Line(Ascii(NatToString(x))), Line(EofMarker));
    ParseNatToString(x);
  }

  /** An entry is 20 bytes with its newline when the offset has at most ten digits
      and the generation at most five. */
  lemma {:induction false} XrefLineWidth(e: Entry)
    requires e.offset < Pow10(10) && e.generation < Pow10(5)
    ensures |Line(Ascii(XrefLine(e)))| == 20
  {
    ZeroPaddedSpec(e.offset, 10);
    ZeroPaddedSpec(e.generation, 5);
  }

  /** An entry reads back: its space-separated fields are the zero-padded offset,
      the zero-padded generation, the flag and the empty word after the trailing
      space, and the two numbers parse back to the object's offset and generation. */
  lemma {:induction false} XrefLineFields(e: Entry)
    ensures var fields := Split(XrefLine(e), ' ');
      && fields == [ZeroPadded(e.offset, 10), ZeroPadded(e.generation, 5), FreeFlag(e), ""]
      && ParseNat(fields[0]) == e.offset && ParseNat(fields[1]) == e.generation
      && (fields[2] == "f" <==> e.free)
  {
    var parts := [ZeroPadded(e.offset, 10), ZeroPadded(e.generation, 5), FreeFlag(e), ""];
    JoinFour(parts[0], parts[1], parts[2], parts[3], " ");
    assert XrefLine(e) == Join(parts, " ");
    DigitsHaveNoSpace(parts[0]);
    DigitsHaveNoSpace(parts[1]);
    assert forall k :: 0 <= k < 4 ==> ' ' !in parts[k];
    SplitJoin(parts, ' ');
    ZeroPaddedSpec(e.offset, 10);
    ZeroPaddedSpec(e.generation, 5);
  }

  lemma {:induction false} DigitsHaveNoSpace(s: string)
    requires AllDigits(s)
    ensures ' ' !in s
  {
    assert forall i :: 0 <= i < |s| ==> IsDigit(s[i]);
  }

  predicate EntriesFit(es: seq<Entry>)
  {
    forall i :: 0 <= i < |es| ==> es[i].offset < Pow10(10) && es[i].generation < Pow10(5)
  }

  lemma {:induction false} XrefEntriesLength(es: seq<Entry>)
    requires EntriesFit(es)
    ensures |XrefEntries(es)| == 20 * |es|
  {
    if |es| > 0 {
      assert EntriesFit(es[..|es| - 1]);
      XrefEntriesLength(es[..|es| - 1]);
      XrefLineWidth(es[|es| - 1]);
    }
  }

  /** The entries of the first `n` objects open the entries of all of them. */
  lemma {:induction false} XrefEntriesPrefix(es: seq<Entry>, n: nat)
    requires n <= |es|
    ensures XrefEntries(es[..n]) <= XrefEntries(es)
    decreases |es|
  {
    if n < |es| {
      var init := es[..|es| - 1];
      assert es[..n] == init[..n];
      XrefEntriesPrefix(init, n);
    } else {
      assert es[..n] == es;
    }
  }

  /** With every offset and generation in range, the table holds one 20-byte entry
      per object, in number order: the entries of objects `0 .. k-1` take `20k`
      bytes, and object `k`'s entry follows them. */
  lemma {:induction false} XrefEntryAt(es: seq<Entry>, k: nat)
    requires EntriesFit(es) && k < |es|
    ensures |XrefEntries(es)| == 20 * |es|
    ensures |XrefEntries(es[..k])| == 20 * k
    ensures XrefEntries(es[..k]) + Line(Ascii(XrefLine(es[k]))) <= XrefEntries(es)
  {
    assert EntriesFit(es[..k]);
    XrefEntriesLength(es);
    XrefEntriesLength(es[..k]);
    XrefEntriesStep(es, k);
    XrefEntriesPrefix(es, k + 1);
  }

  /** How a reader takes the offset from an entry: the number its first field reads as. */
  function ReadOffset(line: string): Option<nat>
  {
    var field := Split(line, ' ')[0];
    if AllDigits(field) then Some(ParseNat(field)) else None
  }

  /** What a reader of the file relies on, for the objects `placed` as `write`
      leaves them: object `k`'s cross-reference entry is the 20 bytes at `20k` of
      the entries, it reads back as the offset recorded for the object, and that
      offset, less the cursor `pos` at which `write` started, is the index in the
      file where the object's `N G obj` line starts. */
  lemma {:induction false} XrefEntryLocatesObject(es: seq<Entry>, pos: nat, k: nat, placed: seq<Entry>)
    requires |es| >= 4 && LiveEncodable(es) && k < |es| && !es[k].free
    requires placed == AfterBody(es, pos + |Line(HeaderComment)|) && EntriesFit(placed)
    ensures OccursAt(XrefEntries(placed), 20 * k, Line(Ascii(XrefLine(placed[k]))))
    ensures ReadOffset(XrefLine(placed[k])) == Some(placed[k].offset)
    ensures OccursAt(FileBytes(es, pos), placed[k].offset - pos, Line(Ascii(ObjHeader(es[k].number, es[k].generation))))
  {
    EntryFoundAt(placed, k);
    EntryReadsBack(placed[k]);
    EntryOpensAt(es, pos, k, placed);
  }

  /** An entry reads back as the offset it was written from. */
  lemma {:induction false} EntryReadsBack(e: Entry)
    ensures ReadOffset(XrefLine(e)) == Some(e.offset)
  {
    XrefLineFields(e);
  }

  /** Object `k`'s entry is found at byte `20k` of the entries. */
  lemma {:induction false} EntryFoundAt(es: seq<Entry>, k: nat)
    requires EntriesFit(es) && k < |es|
    ensures OccursAt(XrefEntries(es), 20 * k, Line(Ascii(XrefLine(es[k]))))
  {
    XrefEntryAt(es, k);
    SliceAfterPrefix(XrefEntries(es[..k]), Line(Ascii(XrefLine(es[k]))), XrefEntries(es));
  }

  /** The header of live object `k` starts at the file byte its placed offset names. */
  lemma {:induction false} EntryOpensAt(es: seq<Entry>, pos: nat, k: nat, placed: seq<Entry>)
    requires |es| >= 4 && LiveEncodable(es) && k < |es| && !es[k].free
    requires placed == AfterBody(es, pos + |Line(HeaderComment)|)
    ensures OccursAt(FileBytes(es, pos), placed[k].offset - pos, Line(Ascii(ObjHeader(es[k].number, es[k].generation))))
  {
    var e := es[k];
    var before := Line(HeaderComment) + Flatten(Chunks(es)[..k]);
    var chunk := Line(IndirectBytes(e.number, e.generation, e.body));
    var after := Flatten(Chunks(es)[k + 1..]) + FileTail(es, pos);
    OffsetPointsAtObject(es, pos, k);
    ChunkOpensWithHeader(e);
    SliceOfMiddle(before, chunk, after, Line(Ascii(ObjHeader(e.number, e.generation))));
  }

  // ---------------------------------------------------------------------
  // The trailer

  /** The trailer dictionary, read back line by line: `<<`, `/Size` with the object
      count, `/Root` with the catalog's reference, `/Info` with the info
      dictionary's reference, `>>`. `Trailer(es)` is this dictionary for the
      references of objects 3 and 2, which hold no newline. */
  lemma {:induction false} TrailerDictionaryLines(size: nat, root: string, info: string)
    requires IsAscii(root) && IsAscii(info) && '\n' !in root && '\n' !in info
    ensures Encodable(TrailerDictionary(size, root, info))
    ensures Split(Data(TrailerDictionary(size, root, info)), NL) == [Ascii("<<"),
        KeyLine("Size", Ascii(NatToString(size))), KeyLine("Root", Ascii(root)), KeyLine("Info", Ascii(info)),
        Ascii(">>")]
  {
    var items := [Item("Size", Int(size)), Item("Root", Str(root)), Item("Info", Str(info))];
    TrailerEncodable(size, root, info);
    AsciiNoNewline(IntToString(size));
    AsciiNoNewline(root);
    AsciiNoNewline(info);
    assert forall i :: 0 <= i < |items| ==> '\n' !in items[i].key && NL !in ValueBytes(items[i].value);
    DictionaryDataLines(items);
    assert ItemLines(items) == [KeyLine("Size", Ascii(NatToString(size))), KeyLine("Root", Ascii(root)),
      KeyLine("Info", Ascii(info))];
  }
}
