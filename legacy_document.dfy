/** The `PDF` class of the earlier, text-based writer (__init__.py at the top of the
    repository): the same single write pass as the current writer, over `str`,
    printing each line and counting characters. Its document also registers an
    empty outline dictionary, so numbering is outlines 1, page tree 2, info 3 and
    catalog 4. */
module LegacyDocument {
  import opened Text
  import opened LegacyValues
  import opened LegacyObjects
  import opened PydyfObjects
  import PydyfValues
  import PydyfDocument
  import PydyfLayout

  /** Standard output: `print(content, end='\n')` appends `content` and a newline. */
  class Console {
    var text: string

    constructor ()
      ensures text == []
    {
      text := [];
    }

    method Print(content: string)
      modifies this`text
      ensures text == old(text) + content + "\n"
    {
      text := text + content + "\n";
    }
  }

  /** Everything the write pass reads of one registered object. */
  datatype LEntry = LEntry(number: Option<nat>, generation: nat, free: bool, offset: nat, body: LNode)

  function EntryOf(o: LegacyObject): LEntry
    reads o
  {
    LEntry(o.number, o.generation, o.free, o.offset, o.body)
  }

  ghost function EntriesOf(os: seq<LegacyObject>): (r: seq<LEntry>)
    reads os
    ensures |r| == |os|
  {
    if |os| == 0 then [] else EntriesOf(os[..|os| - 1]) + [EntryOf(os[|os| - 1])]
  }

  lemma {:induction false} EntriesOfIndex(os: seq<LegacyObject>)
    ensures forall i :: 0 <= i < |os| ==> EntriesOf(os)[i] == EntryOf(os[i])
  {
    if |os| > 0 {
      EntriesOfIndex(os[..|os| - 1]);
    }
  }

  /** The write pass evaluates `data` of live objects only; these must not raise. */
  predicate LiveSerialisable(es: seq<LEntry>)
  {
    forall i :: 0 <= i < |es| ==> !es[i].free ==> Serialisable(es[i].body)
  }

  // ---------------------------------------------------------------------
  // The text of each phase, as functions of the objects

  /** What `write_line(content)` prints. */
  function Line(content: string): string
  {
    content + "\n"
  }

  const HeaderComment: string := "%PDF-1.7"
  const XrefKeyword: string := "xref"
  const TrailerKeyword: string := "trailer"
  const StartxrefKeyword: string := "startxref"
  const EofMarker: string := "%%EOF"

  /** What `write_body` prints for one object: nothing for a free one, otherwise
      its indirect form as one line. */
  function BodyChunk(e: LEntry): string
    requires !e.free ==> Serialisable(e.body)
  {
    if e.free then [] else Line(LegacyIndirect(e.number, e.generation, e.body))
  }

  function Chunks(es: seq<LEntry>): (r: seq<string>)
    requires LiveSerialisable(es)
    ensures |r| == |es|
  {
    seq(|es|, i requires 0 <= i < |es| => BodyChunk(es[i]))
  }

  /** What `write_body` prints. */
  function BodyText(es: seq<LEntry>): string
    requires LiveSerialisable(es)
  {
    Flatten(Chunks(es))
  }

  /** An object after `write_body` reached it with the cursor at `pos`. */
  function Placed(e: LEntry, pos: nat): LEntry
  {
    if e.free then e else e.(offset := pos)
  }

  /** The objects after `write_body` starts at cursor `pos`: a live object's offset
      is the cursor just before its indirect form; a free object is untouched. */
  function AfterBody(es: seq<LEntry>, pos: nat): (r: seq<LEntry>)
    requires LiveSerialisable(es)
    ensures |r| == |es|
  {
    var chunks := Chunks(es);
    seq(|es|, i requires 0 <= i < |es| => Placed(es[i], pos + |Flatten(chunks[..i])|))
  }

  /** Printing the `k`-th chunk after the first `k` extends the body by one object,
      and that object is placed at the cursor reached so far. */
  lemma {:induction false} ChunkStep(es: seq<LEntry>, pos: nat, start: string, k: nat, text: string, cursor: nat)
    requires LiveSerialisable(es) && k < |es|
    requires text == start + Flatten(Chunks(es)[..k])
    requires cursor == pos + |Flatten(Chunks(es)[..k])|
    ensures text + BodyChunk(es[k]) == start + Flatten(Chunks(es)[..k + 1])
    ensures cursor + |BodyChunk(es[k])| == pos + |Flatten(Chunks(es)[..k + 1])|
    ensures AfterBody(es, pos)[k] == Placed(es[k], cursor)
  {
    var chunks := Chunks(es);
    FlattenStep(chunks, k);
    AppendAssoc(start, Flatten(chunks[..k]), chunks[k]);
  }

  /** `f'{offset:010} {generation:05} {free} '`, one cross-reference entry. */
  function XrefLine(e: LEntry): string
  {
    ZeroPadded(e.offset, 10) + " " + ZeroPadded(e.generation, 5) + " " + (if e.free then "f" else "n") + " "
  }

  /** Both writers format a cross-reference entry alike. */
  lemma {:induction false} XrefLineAgrees(e: LEntry)
    ensures XrefLine(e) == PydyfDocument.XrefLine(PydyfDocument.Entry(e.number, e.generation, e.free, e.offset, PydyfValues.Plain))
  {
  }

  /** An entry reads back: its space-separated fields are the zero-padded offset,
      the zero-padded generation, the flag and the empty word after the trailing
      space; the numbers parse back and the flag is `f` exactly for a free object. */
  lemma {:induction false} XrefLineFields(e: LEntry)
    ensures var fields := Split(XrefLine(e), ' ');
      && fields == [ZeroPadded(e.offset, 10), ZeroPadded(e.generation, 5), if e.free then "f" else "n", ""]
      && ParseNat(fields[0]) == e.offset && ParseNat(fields[1]) == e.generation
      && (fields[2] == "f" <==> e.free) && (fields[2] == "n" <==> !e.free)
  {
    var entry := PydyfDocument.Entry(e.number, e.generation, e.free, e.offset, PydyfValues.Plain);
    XrefLineAgrees(e);
    PydyfLayout.XrefLineFields(entry);
  }

  function XrefEntries(es: seq<LEntry>): string
  {
    if |es| == 0 then [] else XrefEntries(es[..|es| - 1]) + Line(XrefLine(es[|es| - 1]))
  }

  lemma {:induction false} XrefEntriesStep(es: seq<LEntry>, i: nat)
    requires i < |es|
    ensures XrefEntries(es[..i + 1]) == XrefEntries(es[..i]) + Line(XrefLine(es[i]))
  {
    assert es[..i + 1][..i] == es[..i];
  }

  /** What `write_cross_reference_table` prints. */
  function XrefTable(es: seq<LEntry>): string
  {
    Line(XrefKeyword) + Line(PydyfDocument.SubsectionLine(|es|)) + XrefEntries(es)
  }

  /** The dictionary `write_trailer` builds. */
  function TrailerDictionary(size: nat, root: string, info: string): (r: LNode)
    ensures Serialisable(r)
  {
    LDictionary([LItem("Size", LInt(size)), LItem("Root", LText(root)), LItem("Info", LText(info))])
  }

  /** What `write_trailer` prints around its dictionary. */
  function TrailerText(trailer: LNode, xref: Option<nat>): string
    requires Serialisable(trailer)
  {
    Line(TrailerKeyword) + Line(Data(trailer)) + StartxrefText(xref)
  }

  /** `startxref`, `str(self.xref_position)` and the end-of-file marker. */
  function StartxrefText(xref: Option<nat>): string
  {
    Line(StartxrefKeyword) + Line(NumberText(xref)) + Line(EofMarker)
  }

  /** Where `xref_position` ends up when the write pass starts at cursor `pos`. */
  function XrefPosition(es: seq<LEntry>, pos: nat): nat
    requires LiveSerialisable(es)
  {
    pos + |Line(HeaderComment)| + |BodyText(es)| + |Line(XrefKeyword)|
  }

  /** What `write` prints when it starts at cursor `pos`, object 4 being the catalog
      and object 3 the info dictionary. */
  function FileText(es: seq<LEntry>, pos: nat): string
    requires |es| >= 5 && LiveSerialisable(es)
  {
    FileHead(es) + FileTail(es, pos)
  }

  /** What `write` prints up to the end of the body. */
  function FileHead(es: seq<LEntry>): string
    requires LiveSerialisable(es)
  {
    Line(HeaderComment) + BodyText(es)
  }

  /** The trailer dictionary of the objects `es`. */
  function Trailer(es: seq<LEntry>): (r: LNode)
    requires |es| >= 5
    ensures Serialisable(r)
  {
    TrailerDictionary(|es|, ReferenceText(es[4].number, es[4].generation), ReferenceText(es[3].number, es[3].generation))
  }

  /** What `write` prints after the body. */
  function FileTail(es: seq<LEntry>, pos: nat): string
    requires |es| >= 5 && LiveSerialisable(es)
  {
    XrefTable(AfterBody(es, pos + |Line(HeaderComment)|)) + TrailerText(Trailer(es), Some(XrefPosition(es, pos)))
  }

  /** The body pass changes offsets only, so the trailer still names the same objects. */
  lemma {:induction false} TrailerAfterBody(es: seq<LEntry>, pos: nat)
    requires |es| >= 5 && LiveSerialisable(es)
    ensures Trailer(AfterBody(es, pos)) == Trailer(es)
  {
    var placed := AfterBody(es, pos);
    assert placed[3].number == es[3].number && placed[3].generation == es[3].generation;
    assert placed[4].number == es[4].number && placed[4].generation == es[4].generation;
  }

  lemma {:induction false} FileTailParts(es: seq<LEntry>, pos: nat, placed: seq<LEntry>, xref: nat, trailer: LNode)
    requires |es| >= 5 && LiveSerialisable(es)
    requires placed == AfterBody(es, pos + |Line(HeaderComment)|)
    requires xref == XrefPosition(es, pos) && trailer == Trailer(es)
    ensures FileTail(es, pos) == XrefTable(placed) + TrailerText(trailer, Some(xref))
  {
  }

  // ---------------------------------------------------------------------
  // What a reader finds in the file

  /** The offset recorded for a live object is the cursor at which its indirect
      form starts: the file is the text before that offset, then the object's
      whole indirect form, then the rest. */
  lemma {:induction false} OffsetPointsAtObject(es: seq<LEntry>, pos: nat, k: nat)
    requires |es| >= 5 && LiveSerialisable(es) && k < |es| && !es[k].free
    ensures var e := es[k];
      var before := Line(HeaderComment) + Flatten(Chunks(es)[..k]);
      var after := Flatten(Chunks(es)[k + 1..]) + FileTail(es, pos);
      && AfterBody(es, pos + |Line(HeaderComment)|)[k].offset == pos + |before|
      && FileText(es, pos) == before + Line(LegacyIndirect(e.number, e.generation, e.body)) + after
  {
    var h := Line(HeaderComment);
    var chunks := Chunks(es);
    assert AfterBody(es, pos + |h|)[k] == Placed(es[k], pos + |h| + |Flatten(chunks[..k])|);
    FlattenSplit(chunks, k);
    assert chunks[k] == Line(LegacyIndirect(es[k].number, es[k].generation, es[k].body));
    Regroup(h, Flatten(chunks[..k]), chunks[k], Flatten(chunks[k + 1..]), FileTail(es, pos));
  }

  /** The whole file, line by line: the header comment and the body, `xref`, the
      subsection line, the entries, `trailer`, the trailer dictionary, `startxref`,
      the recorded position and `%%EOF`. `xref_position` is taken after the `xref`
      line, five characters past its start, and the number after `startxref`
      reads back as that position. */
  lemma {:induction false} FileLayout(es: seq<LEntry>, pos: nat)
    requires |es| >= 5 && LiveSerialisable(es)
    ensures var placed := AfterBody(es, pos + |Line(HeaderComment)|);
      var x := XrefPosition(es, pos);
      && FileText(es, pos) == FileHead(es) + Line(XrefKeyword) + Line(PydyfDocument.SubsectionLine(|es|))
           + XrefEntries(placed) + Line(TrailerKeyword) + Line(Data(Trailer(es)))
           + Line(StartxrefKeyword) + Line(NatToString(x)) + Line(EofMarker)
      && |Line(XrefKeyword)| == 5
      && x == pos + |FileHead(es) + Line(XrefKeyword)|
      && ParseNat(NatToString(x)) == x
  {
    var x := XrefPosition(es, pos);
    var placed := AfterBody(es, pos + |Line(HeaderComment)|);
    Flatten9(FileHead(es), Line(XrefKeyword), Line(PydyfDocument.SubsectionLine(|es|)), XrefEntries(placed),
      Line(TrailerKeyword), Line(Data(Trailer(es))), Line(StartxrefKeyword), Line(NatToString(x)), Line(EofMarker));
    ParseNatToString(x);
  }

  /** The trailer dictionary, read back line by line: `<<`, `/Size`, `/Root`,
      `/Info`, `>>`. */
  lemma {:induction false} TrailerDictionaryLines(size: nat, root: string, info: string)
    requires '\n' !in root && '\n' !in info
    ensures Split(Data(TrailerDictionary(size, root, info)), '\n') ==
      ["<<", "/Size " + NatToString(size), "/Root " + root, "/Info " + info, ">>"]
  {
    var parts := ["<<", "/Size " + NatToString(size), "/Root " + root, "/Info " + info, ">>"];
    TrailerData(size, root, info);
    assert '\n' !in IntToString(size);
    SplitFive(parts[0], parts[1], parts[2], parts[3], parts[4]);
  }

  lemma {:induction false} TrailerData(size: nat, root: string, info: string)
    ensures Data(TrailerDictionary(size, root, info)) ==
      Join(["<<", "/Size " + NatToString(size), "/Root " + root, "/Info " + info, ">>"], "\n")
  {
    var size', root', info' := LItem("Size", LInt(size)), LItem("Root", LText(root)), LItem("Info", LText(info));
    ItemLinesOfThree(size', root', info');
    assert ItemLine(size') == "/Size " + NatToString(size) by {
      KeyLineText("Size", IntToString(size));
      assert "/" + "Size" + " " == "/Size ";
    }
    assert ItemLine(root') == "/Root " + root by {
      KeyLineText("Root", root);
      assert "/" + "Root" + " " == "/Root ";
    }
    assert ItemLine(info') == "/Info " + info by {
      KeyLineText("Info", info);
      assert "/" + "Info" + " " == "/Info ";
    }
    var parts := ["<<", "/Size " + NatToString(size), "/Root " + root, "/Info " + info, ">>"];
    var lines := ItemLines([size', root', info']);
    assert lines == parts[1..4];
    assert ["<<"] + lines + [">>"] == parts;
    assert TrailerDictionary(size, root, info) == LDictionary([size', root', info']);
  }

  lemma {:induction false} SplitFive(a: string, b: string, c: string, d: string, e: string)
    requires '\n' !in a && '\n' !in b && '\n' !in c && '\n' !in d && '\n' !in e
    ensures Split(Join([a, b, c, d, e], "\n"), '\n') == [a, b, c, d, e]
  {
    var parts := [a, b, c, d, e];
    assert forall k :: 0 <= k < |parts| ==> '\n' !in parts[k];
    SplitJoin(parts, '\n');
  }

  lemma {:induction false} KeyLineText(key: string, text: string)
    ensures "/" + key + " " + text == ("/" + key + " ") + text
  {
  }

  lemma {:induction false} ItemLinesOfThree(a: LItem, b: LItem, c: LItem)
    requires ValueSerialisable(a.value) && ValueSerialisable(b.value) && ValueSerialisable(c.value)
    ensures ItemLines([a, b, c]) == [ItemLine(a), ItemLine(b), ItemLine(c)]
  {
  }

  // ---------------------------------------------------------------------
  // The page tree

  /** The shape `add_page` relies on: an integer `/Count` and an `Array` of `/Kids`. */
  predicate PageTreeOk(n: LNode)
  {
    && n.LDictionary?
    && Lookup(n.items, "Count").Some? && Lookup(n.items, "Count").value.LInt?
    && Lookup(n.items, "Kids").Some? && Lookup(n.items, "Kids").value.LObj?
    && Lookup(n.items, "Kids").value.n.LArray?
  }

  function PageCount(n: LNode): int
    requires PageTreeOk(n)
  {
    Lookup(n.items, "Count").value.i
  }

  function Kids(n: LNode): seq<LValue>
    requires PageTreeOk(n)
  {
    Lookup(n.items, "Kids").value.n.elements
  }

  function KidsWith(n: LNode, number: nat): LValue
    requires PageTreeOk(n)
  {
    LObj(LArray(Kids(n) + [LInt(number), LInt(0), LText("R")]))
  }

  /** The page tree after `add_page` registers object `number`. */
  function PageTreeWithKid(n: LNode, number: nat): LNode
    requires PageTreeOk(n)
  {
    LDictionary(Put(Put(n.items, "Count", LInt(PageCount(n) + 1)), "Kids", KidsWith(n, number)))
  }

  /** `/Count` one higher, `/Kids` extended by `number 0 R`, every other entry, the
      number of entries and the key order unchanged. */
  lemma {:induction false} PageTreeWithKidSpec(n: LNode, number: nat)
    requires PageTreeOk(n)
    ensures var r := PageTreeWithKid(n, number);
      && PageTreeOk(r)
      && PageCount(r) == PageCount(n) + 1
      && Kids(r) == Kids(n) + [LInt(number), LInt(0), LText("R")]
      && (forall k :: k != "Count" && k != "Kids" ==> Lookup(r.items, k) == Lookup(n.items, k))
      && |r.items| == |n.items| && Keys(r.items) == Keys(n.items)
  {
    var counted := Put(n.items, "Count", LInt(PageCount(n) + 1));
    PutSpec(n.items, "Count", LInt(PageCount(n) + 1));
    PutSpec(counted, "Kids", KidsWith(n, number));
    PageTreeWithKidKeys(n, number);
  }

  lemma {:induction false} PageTreeWithKidKeys(n: LNode, number: nat)
    requires PageTreeOk(n)
    ensures Keys(PageTreeWithKid(n, number).items) == Keys(n.items)
  {
    var items, count, kids := n.items, LInt(PageCount(n) + 1), KidsWith(n, number);
    assert PageTreeWithKid(n, number).items == Put(Put(items, "Count", count), "Kids", kids);
    PutTwiceKeys(items, "Count", count, "Kids", kids);
  }

  /** Adding a page keeps the page tree serialisable. */
  lemma {:induction false} PageTreeWithKidSerialisable(n: LNode, number: nat)
    requires PageTreeOk(n) && Serialisable(n)
    ensures Serialisable(PageTreeWithKid(n, number))
  {
    var counted := Put(n.items, "Count", LInt(PageCount(n) + 1));
    PutSerialisable(n.items, "Count", LInt(PageCount(n) + 1));
    LookupSerialisable(n.items, "Kids");
    KidsSerialisable(Kids(n), number);
    PutSerialisable(counted, "Kids", KidsWith(n, number));
  }

  lemma {:induction false} KidsSerialisable(kids: seq<LValue>, number: nat)
    requires Serialisable(LArray(kids))
    ensures Serialisable(LArray(kids + [LInt(number), LInt(0), LText("R")]))
  {
    var all := kids + [LInt(number), LInt(0), LText("R")];
    forall i | 0 <= i < |all| ensures ValueSerialisable(all[i]) {
      if i < |kids| {
        assert all[i] == kids[i];
      }
    }
  }

  const EmptyOutlines: LNode := LDictionary([LItem("Type", LText("/Outlines")), LItem("Count", LInt(0))])

  const EmptyPageTree: LNode :=
    LDictionary([LItem("Type", LText("/Pages")), LItem("Kids", LObj(LArray([]))), LItem("Count", LInt(0))])

  const CatalogBody: LNode :=
    LDictionary([LItem("Type", LText("/Catalog")), LItem("Outlines", LText("1 0 R")), LItem("Pages", LText("2 0 R"))])

  /** The objects of a new document: the free object 0 (generation 65535), the empty
      outlines, the empty page tree, the empty info dictionary and the catalog
      pointing at the outlines and the page tree, numbered 0 to 4. */
  const InitialEntries: seq<LEntry> := [
    LEntry(Some(0), 65535, true, 0, LPlain),
    LEntry(Some(1), 0, false, 0, EmptyOutlines),
    LEntry(Some(2), 0, false, 0, EmptyPageTree),
    LEntry(Some(3), 0, false, 0, LDictionary([])),
    LEntry(Some(4), 0, false, 0, CatalogBody)]

  lemma {:induction false} InitialReferences()
    ensures ReferenceText(Some(1), 0) == "1 0 R" && ReferenceText(Some(2), 0) == "2 0 R"
  {
    assert NatToString(1) == "1" && NatToString(2) == "2" && NatToString(0) == "0";
  }

  /** A new document can be written: only the free object lacks `data`, and the
      page tree has the shape `add_page` needs. */
  lemma {:induction false} InitialEntriesWritable()
    ensures LiveSerialisable(InitialEntries) && PageTreeOk(EmptyPageTree)
  {
    assert Lookup(EmptyPageTree.items, "Count") == Some(LInt(0));
    assert Lookup(EmptyPageTree.items, "Kids") == Some(LObj(LArray([])));
  }

  // ---------------------------------------------------------------------
  // The document

  class LegacyPdf {
    var objects: seq<LegacyObject>
    var outlines: LegacyObject
    var pages: LegacyObject
    var info: LegacyObject
    var catalog: LegacyObject
    var currentPosition: nat
    var xrefPosition: Option<nat>

    /** Numbers are dense and in registration order (so no object is registered twice). */
    ghost predicate Registered()
      reads this`objects, objects`number
    {
      forall i :: 0 <= i < |objects| ==> objects[i].number == Some(i)
    }

    ghost predicate Valid()
      reads this`objects, this`outlines, this`pages, this`info, this`catalog, objects`number
    {
      && Registered()
      && |objects| >= 5
      && objects[1] == outlines && objects[2] == pages && objects[3] == info && objects[4] == catalog
    }

    ghost function Entries(): (r: seq<LEntry>)
      reads this`objects, objects
      ensures |r| == |objects|
    {
      EntriesOf(objects)
    }

    lemma {:induction false} EntriesIndex()
      ensures forall i :: 0 <= i < |objects| ==> Entries()[i] == EntryOf(objects[i])
    {
      EntriesOfIndex(objects);
    }

    /** `PDF.__init__`: the free object 0, then the outlines, the page tree, the
        info and the catalog dictionaries as objects 1 to 4. */
    constructor ()
      ensures Valid() && |objects| == |InitialEntries|
      ensures forall k :: 0 <= k < |objects| ==> EntryOf(objects[k]) == InitialEntries[k]
      ensures currentPosition == 0 && xrefPosition == None
      ensures forall k :: 0 <= k < |objects| ==> fresh(objects[k])
    {
      var zero, outline, tree, information, root := StandardObjects();
      objects := [zero, outline, tree, information, root];
      outlines := outline;
      pages := tree;
      info := information;
      catalog := root;
      currentPosition := 0;
      xrefPosition := None;
    }

    /** The five objects `__init__` registers, each numbered as `add_object`
        numbers it: by the count of objects registered before it. */
    static method StandardObjects() returns (zero: LegacyObject, outline: LegacyObject, tree: LegacyObject,
                                             information: LegacyObject, root: LegacyObject)
      ensures EntryOf(zero) == InitialEntries[0] && EntryOf(outline) == InitialEntries[1]
      ensures EntryOf(tree) == InitialEntries[2] && EntryOf(information) == InitialEntries[3]
      ensures EntryOf(root) == InitialEntries[4]
      ensures fresh(zero) && fresh(outline) && fresh(tree) && fresh(information) && fresh(root)
    {
      zero := new LegacyObject(LPlain);
      zero.generation := 65535;
      zero.free := true;
      zero.number := Some(0);
      outline := Numbered(EmptyOutlines, 1);
      tree := Numbered(EmptyPageTree, 2);
      information := Numbered(LDictionary([]), 3);
      InitialReferences();
      root := Numbered(LDictionary([LItem("Type", LText("/Catalog")),
        LItem("Outlines", LText(outline.Reference())), LItem("Pages", LText(tree.Reference()))]), 4);
    }

    /** A new live object holding `body`, given the number `add_object` gives it. */
    static method Numbered(body: LNode, number: nat) returns (o: LegacyObject)
      ensures fresh(o) && EntryOf(o) == LEntry(Some(number), 0, false, 0, body)
    {
      o := new LegacyObject(body);
      o.number := Some(number);
    }

    /** `add_object`: the object's number is the count of objects registered before it. */
    method AddObject(o: LegacyObject)
      requires Registered() && o !in objects
      modifies this`objects, o`number
      ensures objects == old(objects) + [o] && o.number == Some(old(|objects|))
      ensures Entries() == old(Entries()) + [EntryOf(o)]
      ensures Registered()
      ensures old(Valid()) ==> Valid()
    {
      o.number := Some(|objects|);
      objects := objects + [o];
    }

    /** `add_page`: counts the page, registers it and lists its reference among the kids. */
    method AddPage(page: LegacyObject)
      requires Valid() && page !in objects && PageTreeOk(pages.body)
      modifies this`objects, page`number, pages`body
      ensures objects == old(objects) + [page] && page.number == Some(old(|objects|))
      ensures pages.body == PageTreeWithKid(old(pages.body), old(|objects|))
      ensures Valid()
    {
      var tree := pages.body;
      var counted := Put(tree.items, "Count", LInt(PageCount(tree) + 1));
      pages.body := LDictionary(counted);
      AddObject(page);
      assert PageTreeWithKid(tree, page.number.value) == LDictionary(Put(counted, "Kids", KidsWith(tree, page.number.value)));
      pages.body := LDictionary(Put(counted, "Kids", KidsWith(tree, page.number.value)));
    }

    /** `write_line`: one line printed, and the cursor moves by its length plus the newline. */
    method WriteLine(content: string, out: Console)
      modifies this`currentPosition, out`text
      ensures out.text == old(out.text) + Line(content)
      ensures currentPosition == old(currentPosition) + |Line(content)|
    {
      currentPosition := currentPosition + |content| + 1;
      out.Print(content);
    }

    /** `write_object`: the object's `data`, one line at a time. */
    method WriteObject(n: LNode, out: Console)
      requires Serialisable(n)
      modifies this`currentPosition, out`text
      ensures out.text == old(out.text) + Line(Data(n))
      ensures currentPosition - old(currentPosition) == |out.text| - |old(out.text)|
    {
      WriteLines(Data(n), out);
    }

    /** Printing every newline-separated piece of `content` as a line amounts to
        printing `content` as one line. */
    method WriteLines(content: string, out: Console)
      modifies this`currentPosition, out`text
      ensures out.text == old(out.text) + Line(content)
      ensures currentPosition - old(currentPosition) == |out.text| - |old(out.text)|
    {
      var lines := Split(content, '\n');
      var i := 0;
      while i < |lines|
        invariant 0 <= i <= |lines|
        invariant out.text == old(out.text) + Lines(lines[..i], '\n')
        invariant currentPosition - old(currentPosition) == |out.text| - |old(out.text)|
      {
        assert Lines(lines[..i + 1], '\n') == Lines(lines[..i], '\n') + lines[i] + ['\n'] by {
          assert lines[..i + 1][..i] == lines[..i];
        }
        WriteLine(lines[i], out);
        i := i + 1;
      }
      assert lines[..|lines|] == lines;
      LinesJoin(lines, '\n');
      JoinSplit(content, '\n');
    }

    method WriteHeader(out: Console)
      modifies this`currentPosition, out`text
      ensures out.text == old(out.text) + Line(HeaderComment)
      ensures currentPosition - old(currentPosition) == |out.text| - |old(out.text)|
    {
      WriteLine(HeaderComment, out);
    }

    /** One step of `write_body`. */
    method WriteEntry(o: LegacyObject, out: Console)
      requires !o.free ==> Serialisable(o.body)
      modifies this`currentPosition, out`text, o`offset
      ensures EntryOf(o) == Placed(old(EntryOf(o)), old(currentPosition))
      ensures out.text == old(out.text) + BodyChunk(old(EntryOf(o)))
      ensures currentPosition - old(currentPosition) == |out.text| - |old(out.text)|
    {
      if !o.free {
        o.offset := currentPosition;
        WriteLine(o.Indirect(), out);
      }
    }

    /** Where `write_body`, started at cursor `pos` on objects holding `es` with
        `start` printed, stands once it has handled the first `i` objects. */
    ghost predicate BodyWritten(out: Console, es: seq<LEntry>, pos: nat, start: string, i: nat)
      reads this`objects, objects, this`currentPosition, out`text
    {
      && i <= |objects| == |es| && Registered() && LiveSerialisable(es)
      && (forall k :: 0 <= k < |objects| ==> EntryOf(objects[k]) == if k < i then AfterBody(es, pos)[k] else es[k])
      && out.text == start + Flatten(Chunks(es)[..i])
      && currentPosition == pos + |Flatten(Chunks(es)[..i])|
    }

    /** One iteration of `write_body`: only the `i`-th object changes. */
    method WriteBodyStep(o: LegacyObject, i: nat, out: Console, ghost es: seq<LEntry>, ghost pos: nat, ghost start: string)
      requires BodyWritten(out, es, pos, start, i) && i < |objects| && o == objects[i]
      modifies this`currentPosition, out`text, o`offset
      ensures BodyWritten(out, es, pos, start, i + 1)
    {
      ChunkStep(es, pos, start, i, out.text, currentPosition);
      assert EntryOf(o) == es[i];
      assert forall k :: 0 <= k < |objects| && k != i ==> objects[k] != o;
      WriteEntry(o, out);
    }

    /** `write_body`: every live object's offset becomes the cursor before its
        indirect form; free objects are skipped and their `data` never evaluated. */
    method WriteBody(out: Console, ghost placed: seq<LEntry>)
      requires Registered() && LiveSerialisable(Entries())
      requires placed == AfterBody(Entries(), currentPosition)
      modifies this`currentPosition, out`text, objects`offset
      ensures Entries() == placed
      ensures out.text == old(out.text) + BodyText(old(Entries()))
      ensures currentPosition - old(currentPosition) == |out.text| - |old(out.text)|
    {
      ghost var es := Entries();
      EntriesIndex();
      ghost var pos := currentPosition;
      ghost var start := out.text;
      var i: nat := 0;
      while i < |objects|
        invariant BodyWritten(out, es, pos, start, i)
      {
        WriteBodyStep(objects[i], i, out, es, pos, start);
        i := i + 1;
      }
      BodyDone(out, es, pos, start);
    }

    /** Once every object is handled, the objects hold `AfterBody` and the whole body is printed. */
    lemma {:induction false} BodyDone(out: Console, es: seq<LEntry>, pos: nat, start: string)
      requires BodyWritten(out, es, pos, start, |objects|)
      ensures Entries() == AfterBody(es, pos)
      ensures out.text == start + BodyText(es)
      ensures currentPosition == pos + |BodyText(es)|
    {
      assert Chunks(es)[..|es|] == Chunks(es);
      EntriesIndex();
      assert forall k :: 0 <= k < |es| ==> Entries()[k] == AfterBody(es, pos)[k];
    }

    /** `write_cross_reference_table`: `xref`, the subsection line, then one entry
        per object, free ones included, in number order. */
    method WriteCrossReferenceTable(out: Console)
      modifies this`currentPosition, this`xrefPosition, out`text
      ensures out.text == old(out.text) + XrefTable(old(Entries()))
      ensures currentPosition - old(currentPosition) == |out.text| - |old(out.text)|
      ensures xrefPosition == Some(old(currentPosition) + |Line(XrefKeyword)|)
      ensures Entries() == old(Entries())
    {
      ghost var es := Entries();
      ghost var start := out.text;
      ghost var head := Line(XrefKeyword) + Line(PydyfDocument.SubsectionLine(|es|));
      WriteLine(XrefKeyword, out);
      xrefPosition := Some(currentPosition);
      WriteLine(PydyfDocument.SubsectionLine(|objects|), out);
      AppendAssoc(start, Line(XrefKeyword), Line(PydyfDocument.SubsectionLine(|es|)));
      assert Entries() == es;
      WriteXrefEntries(out);
      AppendAssoc(start, head, XrefEntries(es));
      assert out.text == start + XrefTable(es);
      assert Entries() == es;
    }

    /** The entry loop of `write_cross_reference_table`. */
    method WriteXrefEntries(out: Console)
      modifies this`currentPosition, out`text
      ensures out.text == old(out.text) + XrefEntries(old(Entries()))
      ensures currentPosition - old(currentPosition) == |out.text| - |old(out.text)|
    {
      ghost var es := Entries();
      EntriesIndex();
      ghost var start := out.text;
      var i := 0;
      while i < |objects|
        invariant 0 <= i <= |objects|
        invariant out.text == start + XrefEntries(es[..i])
        invariant currentPosition - old(currentPosition) == |out.text| - |old(out.text)|
      {
        WriteXrefStep(objects[i], out, es, i, start);
        i := i + 1;
      }
      assert es[..|es|] == es;
    }

    /** One iteration of the entry loop: object `i`'s entry follows the entries before it. */
    method WriteXrefStep(o: LegacyObject, out: Console, ghost es: seq<LEntry>, ghost i: nat, ghost start: string)
      requires i < |es| && es[i] == EntryOf(o) && out.text == start + XrefEntries(es[..i])
      modifies this`currentPosition, out`text
      ensures out.text == start + XrefEntries(es[..i + 1])
      ensures currentPosition - old(currentPosition) == |out.text| - |old(out.text)|
    {
      XrefEntriesStep(es, i);
      AppendAssoc(start, XrefEntries(es[..i]), Line(XrefLine(es[i])));
      WriteLine(XrefLine(EntryOf(o)), out);
    }

    /** `write_trailer`: `trailer`, the trailer dictionary line by line, `startxref`,
        `str(self.xref_position)` and `%%EOF`. */
    method WriteTrailer(out: Console)
      modifies this`currentPosition, out`text
      ensures out.text == old(out.text) +
        TrailerText(TrailerDictionary(|objects|, catalog.Reference(), info.Reference()), xrefPosition)
      ensures currentPosition - old(currentPosition) == |out.text| - |old(out.text)|
      ensures Entries() == old(Entries())
    {
      var trailer := TrailerDictionary(|objects|, catalog.Reference(), info.Reference());
      ghost var start := out.text;
      WriteTrailerDictionary(trailer, out);
      WriteStartxref(out);
      AppendAssoc(start, Line(TrailerKeyword) + Line(Data(trailer)), StartxrefText(xrefPosition));
    }

    method WriteTrailerDictionary(trailer: LNode, out: Console)
      requires Serialisable(trailer)
      modifies this`currentPosition, out`text
      ensures out.text == old(out.text) + (Line(TrailerKeyword) + Line(Data(trailer)))
      ensures currentPosition - old(currentPosition) == |out.text| - |old(out.text)|
    {
      ghost var start := out.text;
      WriteLine(TrailerKeyword, out);
      WriteObject(trailer, out);
      AppendAssoc(start, Line(TrailerKeyword), Line(Data(trailer)));
    }

    method WriteStartxref(out: Console)
      modifies this`currentPosition, out`text
      ensures out.text == old(out.text) + StartxrefText(xrefPosition)
      ensures currentPosition - old(currentPosition) == |out.text| - |old(out.text)|
    {
      ghost var start := out.text;
      WriteLine(StartxrefKeyword, out);
      WriteLine(NumberText(xrefPosition), out);
      assert out.text == start + (Line(StartxrefKeyword) + Line(NumberText(xrefPosition)));
      WriteLine(EofMarker, out);
    }

    /** `write`: header, body, cross-reference table and trailer in one pass. */
    method Write(out: Console)
      requires Valid() && LiveSerialisable(Entries())
      modifies this`currentPosition, this`xrefPosition, out`text, objects`offset
      ensures out.text == old(out.text) + FileText(old(Entries()), old(currentPosition))
      ensures Entries() == AfterBody(old(Entries()), old(currentPosition) + |Line(HeaderComment)|)
      ensures xrefPosition == Some(XrefPosition(old(Entries()), old(currentPosition)))
      ensures currentPosition == old(currentPosition) + |FileText(old(Entries()), old(currentPosition))|
    {
      ghost var es := Entries();
      ghost var pos := currentPosition;
      ghost var start := out.text;
      ghost var placed := AfterBody(es, pos + |Line(HeaderComment)|);
      WriteHeaderAndBody(out, placed);
      assert currentPosition == pos + |FileHead(es)|;
      WriteTail(out, es, pos, placed);
      AppendAssoc(start, FileHead(es), FileTail(es, pos));
    }

    method WriteTail(out: Console, ghost es: seq<LEntry>, ghost pos: nat, ghost placed: seq<LEntry>)
      requires |es| >= 5 && LiveSerialisable(es)
      requires |objects| >= 5 && objects[3] == info && objects[4] == catalog
      requires placed == AfterBody(es, pos + |Line(HeaderComment)|) && Entries() == placed
      requires currentPosition == pos + |FileHead(es)|
      modifies this`currentPosition, this`xrefPosition, out`text
      ensures Entries() == placed
      ensures xrefPosition == Some(XrefPosition(es, pos))
      ensures out.text == old(out.text) + FileTail(es, pos)
      ensures currentPosition - old(currentPosition) == |out.text| - |old(out.text)|
    {
      ghost var xref := XrefPosition(es, pos);
      ghost var trailer := Trailer(es);
      TrailerOfEntries();
      TrailerAfterBody(es, pos + |Line(HeaderComment)|);
      WriteTables(out, placed, xref, trailer);
      FileTailParts(es, pos, placed, xref, trailer);
    }

    /** The trailer dictionary names the catalog and the info dictionary by reference. */
    lemma {:induction false} TrailerOfEntries()
      requires |objects| >= 5 && objects[3] == info && objects[4] == catalog
      ensures Trailer(Entries()) == TrailerDictionary(|objects|, catalog.Reference(), info.Reference())
    {
      EntriesIndex();
    }

    method WriteHeaderAndBody(out: Console, ghost placed: seq<LEntry>)
      requires Registered() && LiveSerialisable(Entries())
      requires placed == AfterBody(Entries(), currentPosition + |Line(HeaderComment)|)
      modifies this`currentPosition, out`text, objects`offset
      ensures Entries() == placed
      ensures out.text == old(out.text) + FileHead(old(Entries()))
      ensures currentPosition - old(currentPosition) == |out.text| - |old(out.text)|
    {
      ghost var es := Entries();
      ghost var start := out.text;
      ghost var pos := currentPosition;
      WriteHeader(out);
      assert currentPosition == pos + |Line(HeaderComment)|;
      assert Entries() == es;
      WriteBody(out, placed);
      AppendAssoc(start, Line(HeaderComment), BodyText(es));
    }

    method WriteTables(out: Console, ghost placed: seq<LEntry>, ghost xref: nat, ghost trailer: LNode)
      requires Entries() == placed && currentPosition + |Line(XrefKeyword)| == xref
      requires trailer == TrailerDictionary(|objects|, catalog.Reference(), info.Reference())
      modifies this`currentPosition, this`xrefPosition, out`text
      ensures Entries() == placed
      ensures xrefPosition == Some(xref)
      ensures out.text == old(out.text) + (XrefTable(placed) + TrailerText(trailer, Some(xref)))
      ensures currentPosition - old(currentPosition) == |out.text| - |old(out.text)|
    {
      ghost var start := out.text;
      ghost var size, root, information := |objects|, catalog.Reference(), info.Reference();
      WriteCrossReferenceTable(out);
      assert xrefPosition == Some(xref);
      assert out.text == start + XrefTable(placed);
      assert |objects| == size && catalog.Reference() == root && info.Reference() == information;
      ghost var middle := out.text;
      WriteTrailer(out);
      assert out.text == middle + TrailerText(trailer, Some(xref));
      AppendAssoc(start, XrefTable(placed), TrailerText(trailer, Some(xref)));
    }
  }
}
