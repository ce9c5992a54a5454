/** The `PDF` class of pydyf/__init__.py: object registration, the page tree, and
    the single write pass that emits the header, body, cross-reference table and
    trailer of ISO 32000-1 (sections 7.5.2 to 7.5.5) while counting the bytes it
    has written, so that every cross-reference offset is where its object starts. */
module PydyfDocument {
  import opened Text
  import opened Bytes
  import opened PydyfValues
  import opened PydyfObjects

  /** The output sink: `output.write(b)` appends `b` to what was written. */
  class Output {
    var data: seq<byte>

    constructor ()
      ensures data == []
    {
      data := [];
    }

    method Write(b: seq<byte>)
      modifies this`data
      ensures data == old(data) + b
    {
      data := data + b;
    }
  }

  /** Everything the write pass reads of one registered object. */
  datatype Entry = Entry(number: Option<nat>, generation: nat, free: bool, offset: nat, body: Node)

  function EntryOf(o: PdfObject): Entry
    reads o
  {
    Entry(o.number, o.generation, o.free, o.offset, o.body)
  }

  ghost function EntriesOf(os: seq<PdfObject>): (r: seq<Entry>)
    reads os
    ensures |r| == |os|
  {
    if |os| == 0 then [] else EntriesOf(os[..|os| - 1]) + [EntryOf(os[|os| - 1])]
  }

  lemma {:induction false} EntriesOfIndex(os: seq<PdfObject>)
    ensures forall i :: 0 <= i < |os| ==> EntriesOf(os)[i] == EntryOf(os[i])
  {
    if |os| > 0 {
      EntriesOfIndex(os[..|os| - 1]);
    }
  }

  /** The write pass evaluates `data` of live objects only; these must not raise. */
  predicate LiveEncodable(es: seq<Entry>)
  {
    forall i :: 0 <= i < |es| ==> !es[i].free ==> Encodable(es[i].body)
  }

  // ---------------------------------------------------------------------
  // The bytes of each phase, as functions of the objects

  /** What `write_line(content)` emits. */
  function Line(content: seq<byte>): seq<byte>
  {
    content + NewLine
  }

  const HeaderComment: seq<byte> := Ascii("%PDF-1.7")
  const XrefKeyword: seq<byte> := Ascii("xref")
  const TrailerKeyword: seq<byte> := Ascii("trailer")
  const StartxrefKeyword: seq<byte> := Ascii("startxref")
  const EofMarker: seq<byte> := Ascii("%%EOF")

  /** What `write_body` emits for one object: nothing for a free one, otherwise
      its indirect form as one line. */
  function BodyChunk(e: Entry): seq<byte>
    requires !e.free ==> Encodable(e.body)
  {
    if e.free then [] else Line(IndirectBytes(e.number, e.generation, e.body))
  }

  /** What `write_body` emits for each object, in number order. */
  function Chunks(es: seq<Entry>): (r: seq<seq<byte>>)
    requires LiveEncodable(es)
    ensures |r| == |es|
  {
    seq(|es|, i requires 0 <= i < |es| => BodyChunk(es[i]))
  }

  /** What `write_body` emits. */
  function BodyBytes(es: seq<Entry>): seq<byte>
    requires LiveEncodable(es)
  {
    Flatten(Chunks(es))
  }

  /** An object after `write_body` reached it with the cursor at `pos`. */
  function Placed(e: Entry, pos: nat): Entry
  {
    if e.free then e else e.(offset := pos)
  }

  /** The objects after `write_body` starts at cursor `pos`: a live object's offset
      is the cursor just before its indirect form; a free object is untouched. */
  function AfterBody(es: seq<Entry>, pos: nat): (r: seq<Entry>)
    requires LiveEncodable(es)
    ensures |r| == |es|
  {
    var chunks := Chunks(es);
    seq(|es|, i requires 0 <= i < |es| => Placed(es[i], pos + |Flatten(chunks[..i])|))
  }

  /** The `k`-th object after the body pass sits where the bytes of the objects
      before it end. */
  lemma {:induction false} PlacedAt(es: seq<Entry>, pos: nat, k: nat, cursor: nat)
    requires LiveEncodable(es) && k < |es|
    requires cursor == pos + |Flatten(Chunks(es)[..k])|
    ensures AfterBody(es, pos)[k] == Placed(es[k], cursor)
  {
  }

  /** Writing the `k`-th chunk after the first `k` extends the body by one object,
      and that object is placed at the cursor reached so far. */
  lemma {:induction false} ChunkStep(es: seq<Entry>, pos: nat, start: seq<byte>, k: nat, data: seq<byte>, cursor: nat)
    requires LiveEncodable(es) && k < |es|
    requires data == start + Flatten(Chunks(es)[..k])
    requires cursor == pos + |Flatten(Chunks(es)[..k])|
    ensures data + BodyChunk(es[k]) == start + Flatten(Chunks(es)[..k + 1])
    ensures cursor + |BodyChunk(es[k])| == pos + |Flatten(Chunks(es)[..k + 1])|
    ensures AfterBody(es, pos)[k] == Placed(es[k], cursor)
  {
    var chunks := Chunks(es);
    FlattenStep(chunks, k);
    AppendAssoc(start, Flatten(chunks[..k]), chunks[k]);
  }

  function FreeFlag(e: Entry): string
  {
    if e.free then "f" else "n"
  }

  /** `f'{offset:010} {generation:05} {free} '`, one cross-reference entry. */
  function XrefLine(e: Entry): (r: string)
    ensures IsAscii(r)
  {
    ZeroPadded(e.offset, 10) + " " + ZeroPadded(e.generation, 5) + " " + FreeFlag(e) + " "
  }

  function XrefEntries(es: seq<Entry>): seq<byte>
  {
    if |es| == 0 then [] else XrefEntries(es[..|es| - 1]) + Line(Ascii(XrefLine(es[|es| - 1])))
  }

  lemma {:induction false} XrefEntriesStep(es: seq<Entry>, i: nat)
    requires i < |es|
    ensures XrefEntries(es[..i + 1]) == XrefEntries(es[..i]) + Line(Ascii(XrefLine(es[i])))
  {
    assert es[..i + 1][..i] == es[..i];
  }

  /** `f'0 {len(self.objects)}'`, the subsection line. */
  function SubsectionLine(count: nat): (r: string)
    ensures IsAscii(r)
  {
    "0 " + NatToString(count)
  }

  /** What `write_cross_reference_table` emits. */
  function XrefTable(es: seq<Entry>): seq<byte>
  {
    Line(XrefKeyword) + Line(Ascii(SubsectionLine(|es|))) + XrefEntries(es)
  }

  /** The dictionary `write_trailer` builds. */
  function TrailerDictionary(size: nat, root: string, info: string): Node
  {
    Dictionary([Item("Size", Int(size)), Item("Root", Str(root)), Item("Info", Str(info))])
  }

  lemma {:induction false} TrailerEncodable(size: nat, root: string, info: string)
    requires IsAscii(root) && IsAscii(info)
    ensures Encodable(TrailerDictionary(size, root, info))
  {
  }

  /** What `write_trailer` emits around its dictionary. */
  function TrailerBytes(trailer: Node, xref: Option<nat>): seq<byte>
    requires Encodable(trailer)
  {
    Line(TrailerKeyword) + Line(Data(trailer)) + StartxrefBytes(xref)
  }

  /** `startxref`, the cross-reference position and the end-of-file marker. */
  function StartxrefBytes(xref: Option<nat>): seq<byte>
  {
    Line(StartxrefKeyword) + Line(Ascii(NumberText(xref))) + Line(EofMarker)
  }

  /** Where `xref_position` ends up when the write pass starts at cursor `pos`. */
  function XrefPosition(es: seq<Entry>, pos: nat): nat
    requires LiveEncodable(es)
  {
    pos + |Line(HeaderComment)| + |BodyBytes(es)| + |Line(XrefKeyword)|
  }

  /** What `write` emits when it starts at cursor `pos`, object 3 being the
      catalog and object 2 the info dictionary. */
  function FileBytes(es: seq<Entry>, pos: nat): seq<byte>
    requires |es| >= 4 && LiveEncodable(es)
  {
    FileHead(es) + FileTail(es, pos)
  }

  /** What `write` emits up to the end of the body. */
  function FileHead(es: seq<Entry>): seq<byte>
    requires LiveEncodable(es)
  {
    Line(HeaderComment) + BodyBytes(es)
  }

  /** The trailer dictionary of the objects `es`, object 3 being the catalog and
      object 2 the info dictionary. */
  function Trailer(es: seq<Entry>): (r: Node)
    requires |es| >= 4
    ensures Encodable(r)
  {
    var root := ReferenceText(es[3].number, es[3].generation);
    var info := ReferenceText(es[2].number, es[2].generation);
    TrailerEncodable(|es|, root, info);
    TrailerDictionary(|es|, root, info)
  }

  /** What `write` emits after the body: the cross-reference table of the placed
      objects and the trailer. */
  function FileTail(es: seq<Entry>, pos: nat): seq<byte>
    requires |es| >= 4 && LiveEncodable(es)
  {
    XrefTable(AfterBody(es, pos + |Line(HeaderComment)|)) + TrailerBytes(Trailer(es), Some(XrefPosition(es, pos)))
  }

  /** The body pass changes offsets only, so the trailer still names the same objects. */
  lemma {:induction false} TrailerAfterBody(es: seq<Entry>, pos: nat)
    requires |es| >= 4 && LiveEncodable(es)
    ensures Trailer(AfterBody(es, pos)) == Trailer(es)
  {
    var placed := AfterBody(es, pos);
    assert placed[2].number == es[2].number && placed[2].generation == es[2].generation;
    assert placed[3].number == es[3].number && placed[3].generation == es[3].generation;
  }

  /** The tail of the file in the two pieces `write` emits it in. */
  lemma {:induction false} FileTailParts(es: seq<Entry>, pos: nat, placed: seq<Entry>, xref: nat, trailer: Node)
    requires |es| >= 4 && LiveEncodable(es)
    requires placed == AfterBody(es, pos + |Line(HeaderComment)|)
    requires xref == XrefPosition(es, pos) && trailer == Trailer(es)
    ensures FileTail(es, pos) == XrefTable(placed) + TrailerBytes(trailer, Some(xref))
  {
  }

  // ---------------------------------------------------------------------
  // The page tree

  /** The shape `add_page` relies on: an integer `/Count` and an `Array` of `/Kids`. */
  predicate PageTreeOk(n: Node)
  {
    && n.Dictionary?
    && Lookup(n.items, "Count").Some? && Lookup(n.items, "Count").value.Int?
    && Lookup(n.items, "Kids").Some? && Lookup(n.items, "Kids").value.Obj?
    && Lookup(n.items, "Kids").value.n.Array?
  }

  function PageCount(n: Node): int
    requires PageTreeOk(n)
  {
    Lookup(n.items, "Count").value.i
  }

  function Kids(n: Node): seq<Value>
    requires PageTreeOk(n)
  {
    Lookup(n.items, "Kids").value.n.elements
  }

  /** The page tree after `add_page` registers object `number`: `/Count` one
      higher, `/Kids` extended by `number 0 R`, every other entry and the key
      order unchanged. */
  function PageTreeWithKid(n: Node, number: nat): Node
    requires PageTreeOk(n)
  {
    Dictionary(Put(Put(n.items, "Count", Int(PageCount(n) + 1)), "Kids", KidsWith(n, number)))
  }

  /** `add_page` builds the new page tree in two steps, `/Count` first. */
  lemma {:induction false} PageTreeWithKidSteps(n: Node, counted: seq<Item>, number: nat)
    requires PageTreeOk(n) && counted == Put(n.items, "Count", Int(PageCount(n) + 1))
    ensures PageTreeWithKid(n, number) == Dictionary(Put(counted, "Kids", KidsWith(n, number)))
  {
  }

  /** The page tree after `add_page` registers object `number`: `/Count` one
      higher, `/Kids` extended by `number 0 R`, every other entry and the key
      order unchanged, and still serialisable. */
  lemma {:induction false} PageTreeWithKidSpec(n: Node, number: nat)
    requires PageTreeOk(n)
    ensures var r := PageTreeWithKid(n, number);
      && PageTreeOk(r)
      && PageCount(r) == PageCount(n) + 1
      && Kids(r) == Kids(n) + [Int(number), Int(0), Str("R")]
      && (forall k :: k != "Count" && k != "Kids" ==> Lookup(r.items, k) == Lookup(n.items, k))
      && Keys(r.items) == Keys(n.items)
  {
    var counted := Put(n.items, "Count", Int(PageCount(n) + 1));
    PutSpec(n.items, "Count", Int(PageCount(n) + 1));
    PutSpec(counted, "Kids", KidsWith(n, number));
  }

  function KidsWith(n: Node, number: nat): Value
    requires PageTreeOk(n)
  {
    Obj(Array(Kids(n) + [Int(number), Int(0), Str("R")]))
  }

  lemma {:induction false} KidsWithEncodable(n: Node, number: nat)
    requires PageTreeOk(n) && Encodable(n)
    ensures ValueEncodable(KidsWith(n, number))
  {
    LookupEncodable(n.items, "Kids");
    ReferenceAppendEncodable(Kids(n), number);
  }

  /** Adding a page keeps an encodable page tree encodable. */
  lemma {:induction false} PageTreeWithKidEncodable(n: Node, number: nat)
    requires PageTreeOk(n) && Encodable(n)
    ensures Encodable(PageTreeWithKid(n, number))
  {
    var items, count, kids := n.items, Int(PageCount(n) + 1), KidsWith(n, number);
    assert PageTreeWithKid(n, number) == Dictionary(Put(Put(items, "Count", count), "Kids", kids));
    KidsWithEncodable(n, number);
    assert IsAscii("Count") && IsAscii("Kids");
    PutTwiceEncodable(items, "Count", count, "Kids", kids);
  }

  lemma {:induction false} PutTwiceEncodable(items: seq<Item>, k1: string, v1: Value, k2: string, v2: Value)
    requires Encodable(Dictionary(items)) && IsAscii(k1) && IsAscii(k2)
    requires ValueEncodable(v1) && ValueEncodable(v2)
    ensures Encodable(Dictionary(Put(Put(items, k1, v1), k2, v2)))
  {
    PutEncodable(items, k1, v1);
    PutEncodable(Put(items, k1, v1), k2, v2);
  }

  lemma {:induction false} ReferenceAppendEncodable(kids: seq<Value>, number: nat)
    requires Encodable(Array(kids))
    ensures Encodable(Array(kids + [Int(number), Int(0), Str("R")]))
  {
    var reference := [Int(number), Int(0), Str("R")];
    assert IsAsciiChar("R"[0]);
    assert ValueEncodable(reference[2]);
    var vs := kids + reference;
    forall i | 0 <= i < |vs| ensures ValueEncodable(vs[i]) {
      if i < |kids| {
        assert vs[i] == kids[i];
      } else {
        assert vs[i] == reference[i - |kids|];
      }
    }
  }

  const EmptyPageTree: Node :=
    Dictionary([Item("Type", Str("/Pages")), Item("Kids", Obj(Array([]))), Item("Count", Int(0))])

  const CatalogBody: Node := Dictionary([Item("Type", Str("/Catalog")), Item("Pages", Str("1 0 R"))])

  /** The objects of a new document: the free object 0 (generation 65535), the
      empty page tree, the empty info dictionary and the catalog pointing at the
      page tree, numbered 0 to 3. */
  const InitialEntries: seq<Entry> := [
    Entry(Some(0), 65535, true, 0, Plain),
    Entry(Some(1), 0, false, 0, EmptyPageTree),
    Entry(Some(2), 0, false, 0, Dictionary([])),
    Entry(Some(3), 0, false, 0, CatalogBody)]

  /** A new document can be written: only the free object lacks `data`, and the
      page tree has the integer `/Count` and the `/Kids` array `add_page` updates. */
  lemma {:induction false} InitialEntriesWritable()
    ensures LiveEncodable(InitialEntries) && PageTreeOk(EmptyPageTree)
  {
    EmptyPageTreeEncodable();
    CatalogEncodable();
    EmptyPageTreeOk();
  }

  lemma {:induction false} EmptyPageTreeOk()
    ensures PageTreeOk(EmptyPageTree)
  {
    var items := EmptyPageTree.items;
    assert items[0].key[0] != 'C' && items[0].key[0] != 'K' && items[1].key[0] != 'C';
    assert Lookup(items[2..], "Count") == Some(Int(0));
    assert Lookup(items, "Count") == Some(Int(0));
    assert Lookup(items[1..], "Kids") == Some(Obj(Array([])));
    assert Lookup(items, "Kids") == Some(Obj(Array([])));
  }

  lemma {:induction false} EmptyPageTreeEncodable()
    ensures Encodable(EmptyPageTree)
  {
    assert IsAscii("Type") && IsAscii("/Pages") && IsAscii("Kids") && IsAscii("Count");
  }

  lemma {:induction false} CatalogEncodable()
    ensures Encodable(CatalogBody)
  {
    assert IsAscii("Type") && IsAscii("/Catalog") && IsAscii("Pages") && IsAscii("1 0 R");
  }

  lemma {:induction false} ReferenceOfPages()
    ensures ReferenceText(Some(1), 0) == "1 0 R"
  {
    assert NatToString(1) == "1" && NatToString(0) == "0";
  }

  // ---------------------------------------------------------------------
  // The document

  class PDF {
    var objects: seq<PdfObject>
    var pages: PdfObject
    var info: PdfObject
    var catalog: PdfObject
    var currentPosition: nat
    var xrefPosition: Option<nat>

    /** Numbers are dense and in registration order (so no object is registered twice). */
    ghost predicate Registered()
      reads this`objects, objects`number
    {
      forall i :: 0 <= i < |objects| ==> objects[i].number == Some(i)
    }

    ghost predicate Valid()
      reads this`objects, this`pages, this`info, this`catalog, objects`number
    {
      && Registered()
      && |objects| >= 4
      && objects[1] == pages && objects[2] == info && objects[3] == catalog
    }

    ghost function Entries(): (r: seq<Entry>)
      reads this`objects, objects
      ensures |r| == |objects|
    {
      EntriesOf(objects)
    }

    lemma {:induction false} EntriesIndex()
      ensures forall i :: 0 <= i < |objects| ==> Entries()[i] == EntryOf(objects[i])
    {
      EntriesOfIndex(objects);
    }

    /** `PDF.__init__`: the free object 0, then the page tree, the info and the
        catalog dictionaries as objects 1, 2 and 3. */
    constructor ()
      ensures Valid() && |objects| == |InitialEntries|
      ensures forall k :: 0 <= k < |objects| ==> EntryOf(objects[k]) == InitialEntries[k]
      ensures currentPosition == 0 && xrefPosition == None
      ensures forall k :: 0 <= k < |objects| ==> fresh(objects[k])
    {
      var zero, tree, information, root := StandardObjects();
      objects := [zero, tree, information, root];
      pages := tree;
      info := information;
      catalog := root;
      currentPosition := 0;
      xrefPosition := None;
    }

    /** The four objects `__init__` registers, each numbered as `add_object`
        numbers it: by the count of objects registered before it. */
    static method StandardObjects() returns (zero: PdfObject, tree: PdfObject, information: PdfObject, root: PdfObject)
      ensures EntryOf(zero) == InitialEntries[0] && EntryOf(tree) == InitialEntries[1]
      ensures EntryOf(information) == InitialEntries[2] && EntryOf(root) == InitialEntries[3]
      ensures fresh(zero) && fresh(tree) && fresh(information) && fresh(root)
    {
      zero := new PdfObject(Plain);
      zero.generation := 65535;
      zero.free := true;
      zero.number := Some(0);
      tree := new PdfObject(EmptyPageTree);
      tree.number := Some(1);
      information := new PdfObject(Dictionary([]));
      information.number := Some(2);
      ReferenceOfPages();
      root := new PdfObject(Dictionary([Item("Type", Str("/Catalog")), Item("Pages", Str(tree.Reference()))]));
      root.number := Some(3);
    }

    /** `add_object`: the object's number is the count of objects registered before it. */
    method AddObject(o: PdfObject)
      requires Registered() && o !in objects
      modifies this`objects, o`number
      ensures objects == old(objects) + [o] && o.number == Some(old(|objects|))
      ensures Entries() == old(Entries()) + [EntryOf(o)]
      ensures Registered()
      ensures old(Valid()) ==> Valid()
    {
      o.number := Some(|objects|);
      objects := objects + [o];
    }

    /** `add_page`: counts the page, registers it and lists its reference among the kids. */
    method AddPage(page: PdfObject)
      requires Valid() && page !in objects && PageTreeOk(pages.body)
      modifies this`objects, page`number, pages`body
      ensures objects == old(objects) + [page] && page.number == Some(old(|objects|))
      ensures pages.body == PageTreeWithKid(old(pages.body), old(|objects|))
      ensures Valid()
    {
      var tree := pages.body;
      var counted := Put(tree.items, "Count", Int(PageCount(tree) + 1));
      pages.body := Dictionary(counted);
      AddObject(page);
      PageTreeWithKidSteps(tree, counted, page.number.value);
      pages.body := Dictionary(Put(counted, "Kids", KidsWith(tree, page.number.value)));
    }

    /** `write_line`: one line out, and the cursor moves by its length plus the newline. */
    method WriteLine(content: seq<byte>, out: Output)
      modifies this`currentPosition, out`data
      ensures out.data == old(out.data) + Line(content)
      ensures currentPosition == old(currentPosition) + |Line(content)|
    {
      currentPosition := currentPosition + |content| + 1;
      out.Write(content + NewLine);
    }

    /** `write_object`: the object's `data`, one line at a time. */
    method WriteObject(n: Node, out: Output)
      requires Encodable(n)
      modifies this`currentPosition, out`data
      ensures out.data == old(out.data) + Line(Data(n))
      ensures currentPosition - old(currentPosition) == |out.data| - |old(out.data)|
    {
      WriteLines(Data(n), out);
    }

    /** Writing every newline-separated piece of `content` as a line amounts to
        writing `content` as one line. */
    method WriteLines(content: seq<byte>, out: Output)
      modifies this`currentPosition, out`data
      ensures out.data == old(out.data) + Line(content)
      ensures currentPosition - old(currentPosition) == |out.data| - |old(out.data)|
    {
      var lines := Split(content, NL);
      var i := 0;
      while i < |lines|
        invariant 0 <= i <= |lines|
        invariant out.data == old(out.data) + Lines(lines[..i], NL)
        invariant currentPosition - old(currentPosition) == |out.data| - |old(out.data)|
      {
        assert Lines(lines[..i + 1], NL) == Lines(lines[..i], NL) + lines[i] + [NL] by {
          assert lines[..i + 1][..i] == lines[..i];
        }
        WriteLine(lines[i], out);
        i := i + 1;
      }
      assert lines[..|lines|] == lines;
      LinesJoin(lines, NL);
      JoinSplit(content, NL);
    }

    method WriteHeader(out: Output)
      modifies this`currentPosition, out`data
      ensures out.data == old(out.data) + Line(HeaderComment)
      ensures currentPosition - old(currentPosition) == |out.data| - |old(out.data)|
    {
      WriteLine(HeaderComment, out);
    }

    /** One step of `write_body`. */
    method WriteEntry(o: PdfObject, out: Output)
      requires !o.free ==> Encodable(o.body)
      modifies this`currentPosition, out`data, o`offset
      ensures EntryOf(o) == Placed(old(EntryOf(o)), old(currentPosition))
      ensures out.data == old(out.data) + BodyChunk(old(EntryOf(o)))
      ensures currentPosition - old(currentPosition) == |out.data| - |old(out.data)|
    {
      if !o.free {
        o.offset := currentPosition;
        WriteLine(o.Indirect(), out);
      }
    }

    /** Where `write_body`, started at cursor `pos` on objects holding `es` with
        `start` written, stands once it has handled the first `i` objects: those
        are placed, the others untouched, and their chunks written. */
    ghost predicate BodyWritten(out: Output, es: seq<Entry>, pos: nat, start: seq<byte>, i: nat)
      reads this`objects, objects, this`currentPosition, out`data
    {
      && i <= |objects| == |es| && Registered() && LiveEncodable(es)
      && (forall k :: 0 <= k < |objects| ==> EntryOf(objects[k]) == if k < i then AfterBody(es, pos)[k] else es[k])
      && out.data == start + Flatten(Chunks(es)[..i])
      && currentPosition == pos + |Flatten(Chunks(es)[..i])|
    }

    /** One iteration of `write_body`: only the `i`-th object changes. */
    method WriteBodyStep(o: PdfObject, i: nat, out: Output, ghost es: seq<Entry>, ghost pos: nat, ghost start: seq<byte>)
      requires BodyWritten(out, es, pos, start, i) && i < |objects| && o == objects[i]
      modifies this`currentPosition, out`data, o`offset
      ensures BodyWritten(out, es, pos, start, i + 1)
    {
      ChunkStep(es, pos, start, i, out.data, currentPosition);
      assert EntryOf(o) == es[i];
      WriteEntry(o, out);
      assert forall k :: 0 <= k < |objects| && k != i ==> objects[k] != o;
    }

    /** `write_body`: every live object's offset becomes the cursor before its
        indirect form; free objects are skipped and their `data` never evaluated. */
    method WriteBody(out: Output, ghost placed: seq<Entry>)
      requires Registered() && LiveEncodable(Entries())
      requires placed == AfterBody(Entries(), currentPosition)
      modifies this`currentPosition, out`data, objects`offset
      ensures Entries() == placed
      ensures out.data == old(out.data) + BodyBytes(old(Entries()))
      ensures currentPosition - old(currentPosition) == |out.data| - |old(out.data)|
    {
      ghost var es := Entries();
      EntriesIndex();
      ghost var pos := currentPosition;
      ghost var start := out.data;
      var i: nat := 0;
      while i < |objects|
        invariant BodyWritten(out, es, pos, start, i)
      {
        WriteBodyStep(objects[i], i, out, es, pos, start);
        i := i + 1;
      }
      assert Chunks(es)[..|es|] == Chunks(es);
      EntriesIndex();
      assert forall k :: 0 <= k < |es| ==> Entries()[k] == placed[k];
    }

    /** `write_cross_reference_table`: `xref`, the subsection line, then one entry
        per object, free ones included, in number order. */
    method WriteCrossReferenceTable(out: Output)
      modifies this`currentPosition, this`xrefPosition, out`data
      ensures out.data == old(out.data) + XrefTable(old(Entries()))
      ensures currentPosition - old(currentPosition) == |out.data| - |old(out.data)|
      ensures xrefPosition == Some(old(currentPosition) + |Line(XrefKeyword)|)
      ensures Entries() == old(Entries())
    {
      ghost var es := Entries();
      ghost var start := out.data;
      ghost var head := Line(XrefKeyword) + Line(Ascii(SubsectionLine(|es|)));
      WriteLine(XrefKeyword, out);
      xrefPosition := Some(currentPosition);
      WriteLine(Ascii(SubsectionLine(|objects|)), out);
      AppendAssoc(start, Line(XrefKeyword), Line(Ascii(SubsectionLine(|es|))));
      assert Entries() == es;
      WriteXrefEntries(out);
      AppendAssoc(start, head, XrefEntries(es));
      assert out.data == start + XrefTable(es);
      assert Entries() == es;
    }

    /** The entry loop of `write_cross_reference_table`. */
    method WriteXrefEntries(out: Output)
      modifies this`currentPosition, out`data
      ensures out.data == old(out.data) + XrefEntries(old(Entries()))
      ensures currentPosition - old(currentPosition) == |out.data| - |old(out.data)|
    {
      ghost var es := Entries();
      EntriesIndex();
      ghost var start := out.data;
      var i := 0;
      while i < |objects|
        invariant 0 <= i <= |objects|
        invariant out.data == start + XrefEntries(es[..i])
        invariant currentPosition - old(currentPosition) == |out.data| - |old(out.data)|
      {
        ghost var line := Line(Ascii(XrefLine(es[i])));
        XrefEntriesStep(es, i);
        AppendAssoc(start, XrefEntries(es[..i]), line);
        WriteLine(Ascii(XrefLine(EntryOf(objects[i]))), out);
        i := i + 1;
      }
      assert es[..|es|] == es;
    }

    /** `write_trailer`: `trailer`, the trailer dictionary line by line, `startxref`,
        the recorded cross-reference position and `%%EOF`. */
    method WriteTrailer(out: Output)
      modifies this`currentPosition, out`data
      ensures Encodable(TrailerDictionary(|objects|, catalog.Reference(), info.Reference()))
      ensures out.data == old(out.data) +
        TrailerBytes(TrailerDictionary(|objects|, catalog.Reference(), info.Reference()), xrefPosition)
      ensures currentPosition - old(currentPosition) == |out.data| - |old(out.data)|
      ensures Entries() == old(Entries())
    {
      var trailer := TrailerDictionary(|objects|, catalog.Reference(), info.Reference());
      TrailerEncodable(|objects|, catalog.Reference(), info.Reference());
      ghost var start := out.data;
      WriteTrailerDictionary(trailer, out);
      WriteStartxref(out);
      AppendAssoc(start, Line(TrailerKeyword) + Line(Data(trailer)), StartxrefBytes(xrefPosition));
    }

    /** The start of `write_trailer`: the keyword, then the dictionary line by line. */
    method WriteTrailerDictionary(trailer: Node, out: Output)
      requires Encodable(trailer)
      modifies this`currentPosition, out`data
      ensures out.data == old(out.data) + (Line(TrailerKeyword) + Line(Data(trailer)))
      ensures currentPosition - old(currentPosition) == |out.data| - |old(out.data)|
    {
      ghost var start := out.data;
      WriteLine(TrailerKeyword, out);
      WriteObject(trailer, out);
      AppendAssoc(start, Line(TrailerKeyword), Line(Data(trailer)));
    }

    /** The end of `write_trailer`. */
    method WriteStartxref(out: Output)
      modifies this`currentPosition, out`data
      ensures out.data == old(out.data) + StartxrefBytes(xrefPosition)
      ensures currentPosition - old(currentPosition) == |out.data| - |old(out.data)|
    {
      ghost var start := out.data;
      WriteLine(StartxrefKeyword, out);
      WriteLine(Ascii(NumberText(xrefPosition)), out);
      assert out.data == start + (Line(StartxrefKeyword) + Line(Ascii(NumberText(xrefPosition))));
      WriteLine(EofMarker, out);
    }

    /** `write`: header, body, cross-reference table and trailer in one pass. */
    method Write(out: Output)
      requires Valid() && LiveEncodable(Entries())
      modifies this`currentPosition, this`xrefPosition, out`data, objects`offset
      ensures out.data == old(out.data) + FileBytes(old(Entries()), old(currentPosition))
      ensures Entries() == AfterBody(old(Entries()), old(currentPosition) + |Line(HeaderComment)|)
      ensures xrefPosition == Some(XrefPosition(old(Entries()), old(currentPosition)))
      ensures currentPosition == old(currentPosition) + |FileBytes(old(Entries()), old(currentPosition))|
    {
      ghost var es := Entries();
      ghost var pos := currentPosition;
      ghost var start := out.data;
      ghost var placed := AfterBody(es, pos + |Line(HeaderComment)|);
      WriteHeaderAndBody(out, placed);
      assert currentPosition == pos + |FileHead(es)|;
      WriteTail(out, es, pos, placed);
      AppendAssoc(start, FileHead(es), FileTail(es, pos));
    }

    /** `write_cross_reference_table` and `write_trailer`, once `write_body` has
        placed the objects `es` that a write pass starting at cursor `pos` found. */
    method WriteTail(out: Output, ghost es: seq<Entry>, ghost pos: nat, ghost placed: seq<Entry>)
      requires |es| >= 4 && LiveEncodable(es)
      requires |objects| >= 4 && objects[2] == info && objects[3] == catalog
      requires placed == AfterBody(es, pos + |Line(HeaderComment)|) && Entries() == placed
      requires currentPosition == pos + |FileHead(es)|
      modifies this`currentPosition, this`xrefPosition, out`data
      ensures Entries() == placed
      ensures xrefPosition == Some(XrefPosition(es, pos))
      ensures out.data == old(out.data) + FileTail(es, pos)
      ensures currentPosition - old(currentPosition) == |out.data| - |old(out.data)|
    {
      ghost var xref := XrefPosition(es, pos);
      ghost var trailer := Trailer(es);
      TrailerOfEntries();
      TrailerAfterBody(es, pos + |Line(HeaderComment)|);
      WriteTables(out, placed, xref, trailer);
      FileTailParts(es, pos, placed, xref, trailer);
    }

    /** The trailer dictionary names the catalog and the info dictionary by reference. */
    lemma {:induction false} TrailerOfEntries()
      requires |objects| >= 4 && objects[2] == info && objects[3] == catalog
      ensures Trailer(Entries()) == TrailerDictionary(|objects|, catalog.Reference(), info.Reference())
    {
      EntriesIndex();
    }

    /** `write_header` and `write_body`. */
    method WriteHeaderAndBody(out: Output, ghost placed: seq<Entry>)
      requires Registered() && LiveEncodable(Entries())
      requires placed == AfterBody(Entries(), currentPosition + |Line(HeaderComment)|)
      modifies this`currentPosition, out`data, objects`offset
      ensures Entries() == placed
      ensures out.data == old(out.data) + FileHead(old(Entries()))
      ensures currentPosition - old(currentPosition) == |out.data| - |old(out.data)|
    {
      ghost var es := Entries();
      ghost var start := out.data;
      ghost var pos := currentPosition;
      WriteHeader(out);
      assert currentPosition == pos + |Line(HeaderComment)|;
      assert Entries() == es;
      WriteBody(out, placed);
      AppendAssoc(start, Line(HeaderComment), BodyBytes(es));
    }

    /** `write_cross_reference_table` and `write_trailer` once the objects hold
        `placed`, the cross-reference table will start at `xref` and the trailer
        dictionary built from the objects is `trailer`. */
    method WriteTables(out: Output, ghost placed: seq<Entry>, ghost xref: nat, ghost trailer: Node)
      requires Entries() == placed && currentPosition + |Line(XrefKeyword)| == xref
      requires trailer == TrailerDictionary(|objects|, catalog.Reference(), info.Reference())
      modifies this`currentPosition, this`xrefPosition, out`data
      ensures Entries() == placed
      ensures xrefPosition == Some(xref)
      ensures Encodable(trailer)
      ensures out.data == old(out.data) + (XrefTable(placed) + TrailerBytes(trailer, Some(xref)))
      ensures currentPosition - old(currentPosition) == |out.data| - |old(out.data)|
    {
      ghost var start := out.data;
      ghost var size, root, information := |objects|, catalog.Reference(), info.Reference();
      TrailerEncodable(size, root, information);
      WriteCrossReferenceTable(out);
      assert xrefPosition == Some(xref);
      assert out.data == start + XrefTable(placed);
      assert |objects| == size && catalog.Reference() == root && info.Reference() == information;
      ghost var middle := out.data;
      WriteTrailer(out);
      assert out.data == middle + TrailerBytes(trailer, Some(xref));
      AppendAssoc(start, XrefTable(placed), TrailerBytes(trailer, Some(xref)));
    }
  }
}
