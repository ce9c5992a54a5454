/** The `Object` and `Stream` classes of pydyf/__init__.py: an object's identity
    fields, its indirect form and reference (ISO 32000-1, section 7.3.10), and the
    content-stream operators that append tokens to a `Stream`. */
module PydyfObjects {
  import opened Text
  import opened Bytes
  import opened PydyfValues

  /** `f'{number}'`: the object number, which is `None` until the object is registered. */
  function NumberText(n: Option<nat>): (r: string)
    ensures IsAscii(r) && ' ' !in r && '\n' !in r
  {
    match n
    case None => "None"
    case Some(k) => NatToString(k)
  }

  /** `f'{number} {generation}'`, which both the indirect form and a reference open with. */
  function ObjectId(number: Option<nat>, generation: nat): (r: string)
    ensures IsAscii(r) && '\n' !in r
  {
    NumberText(number) + " " + NatToString(generation)
  }

  /** `f'{number} {generation} obj'`, the line that opens an indirect object. */
  function ObjHeader(number: Option<nat>, generation: nat): (r: string)
    ensures IsAscii(r) && '\n' !in r
  {
    ObjectId(number, generation) + " obj"
  }

  /** `Object.indirect`: the header line, the body's `data`, then `endobj`. */
  function IndirectBytes(number: Option<nat>, generation: nat, body: Node): seq<byte>
    requires Encodable(body)
  {
    Join([Ascii(ObjHeader(number, generation)), Data(body), Ascii("endobj")], NewLine)
  }

  /** `Object.reference`: `f'{number} {generation} R'`. */
  function ReferenceText(number: Option<nat>, generation: nat): (r: string)
    ensures IsAscii(r) && '\n' !in r
  {
    ObjectId(number, generation) + " R"
  }

  /** The indirect form is the header line, the data and `endobj`, newline-separated. */
  lemma {:induction false} IndirectLayout(number: Option<nat>, generation: nat, body: Node)
    requires Encodable(body)
    ensures IndirectBytes(number, generation, body) ==
      Ascii(ObjHeader(number, generation)) + NewLine + Data(body) + NewLine + Ascii("endobj")
    ensures Split(IndirectBytes(number, generation, body), NL)[0] == Ascii(ObjHeader(number, generation))
  {
    var h, b, e := Ascii(ObjHeader(number, generation)), Data(body), Ascii("endobj");
    JoinThree(h, b, e, NewLine);
    AsciiNoNewline(ObjHeader(number, generation));
    assert h + NewLine + b + NewLine + e == h + [NL] + (b + NewLine + e);
    SplitFirst(h, b + NewLine + e, NL);
  }

  /** A reference reads back: its three words are the number, the generation and
      `R`, and the two numbers parse back to the values they were made from. */
  lemma {:induction false} ReferenceRoundTrip(number: nat, generation: nat)
    ensures Split(ReferenceText(Some(number), generation), ' ') ==
      [NatToString(number), NatToString(generation), "R"]
    ensures ParseNat(NatToString(number)) == number
    ensures ParseNat(NatToString(generation)) == generation
  {
    var parts := [NatToString(number), NatToString(generation), "R"];
    JoinThree(parts[0], parts[1], parts[2], " ");
    assert ReferenceText(Some(number), generation) == Join(parts, " ");
    assert forall k :: 0 <= k < 3 ==> ' ' !in parts[k] by {
      assert forall i :: 0 <= i < |parts[0]| ==> IsDigit(parts[0][i]);
      assert forall i :: 0 <= i < |parts[1]| ==> IsDigit(parts[1][i]);
    }
    SplitJoin(parts, ' ');
    ParseNatToString(number);
    ParseNatToString(generation);
  }

  // ---------------------------------------------------------------------
  // Content-stream tokens

  /** One content-stream operation as the operator methods format it, e.g.
      `f'{x} {y} m'`: the operands, then the operator, separated by spaces. */
  function Operation(operands: seq<string>, operator: string): string
  {
    Join(operands + [operator], " ")
  }

  /** `f'{x}'` of an integer operand. */
  function Num(x: int): (r: string)
    ensures IsAscii(r) && ' ' !in r && '\n' !in r && |r| >= 1
  {
    IntToString(x)
  }

  predicate IsWord(s: string) { IsAscii(s) && ' ' !in s && '\n' !in s }

  /** An operation made of words is an ASCII line with no newline, and splitting it
      on spaces gives back the operands followed by the operator. */
  lemma {:induction false} OperationWords(operands: seq<string>, operator: string)
    requires forall k :: 0 <= k < |operands| ==> IsWord(operands[k])
    requires IsWord(operator)
    ensures IsAscii(Operation(operands, operator)) && '\n' !in Operation(operands, operator)
    ensures Split(Operation(operands, operator), ' ') == operands + [operator]
  {
    var parts := operands + [operator];
    assert forall k :: 0 <= k < |parts| ==> IsWord(parts[k]);
    JoinWords(parts);
    SplitJoin(parts, ' ');
  }

  lemma {:induction false} JoinWords(parts: seq<string>)
    requires forall k :: 0 <= k < |parts| ==> IsAscii(parts[k]) && '\n' !in parts[k]
    ensures IsAscii(Join(parts, " ")) && '\n' !in Join(parts, " ")
  {
    if |parts| > 1 {
      JoinWords(parts[1..]);
    }
  }

  /** `Array(dash_array).data.decode("ascii")` for integer dash lengths. */
  function DashArrayText(dashes: seq<int>): (r: string)
    ensures IsAscii(r) && '\n' !in r
  {
    var d := DashArray(dashes);
    DashArrayBytes(dashes);
    AsciiTextNoNewline(Data(d));
    AsciiText(Data(d))
  }

  /** The dash lengths as the elements of an `Array`. */
  function DashArray(dashes: seq<int>): (r: Node)
    ensures r.Array? && |r.elements| == |dashes|
    ensures forall i :: 0 <= i < |dashes| ==> r.elements[i] == Int(dashes[i])
  {
    Array(seq(|dashes|, i requires 0 <= i < |dashes| => Int(dashes[i])))
  }

  /** An array of integers encodes to ASCII bytes on one line. */
  lemma {:induction false} DashArrayBytes(dashes: seq<int>)
    ensures Encodable(DashArray(dashes))
    ensures Below128(Data(DashArray(dashes))) && NL !in Data(DashArray(dashes))
  {
    var vs := DashArray(dashes).elements;
    var parts := [Ascii("[")] + seq(|vs|, i requires 0 <= i < |vs| => ValueBytes(vs[i])) + [Ascii("]")];
    assert Data(Array(vs)) == Join(parts, Space);
    forall k | 0 <= k < |parts| ensures Below128(parts[k]) && NL !in parts[k] {
      if 1 <= k <= |vs| {
        assert parts[k] == Ascii(Num(dashes[k - 1]));
        AsciiNoNewline(Num(dashes[k - 1]));
      }
    }
    JoinBelow128(parts, Space);
    JoinAvoids(parts, Space, NL);
  }

  lemma {:induction false} JoinAvoids(parts: seq<seq<byte>>, sep: seq<byte>, x: byte)
    requires forall k :: 0 <= k < |parts| ==> x !in parts[k]
    requires x !in sep
    ensures x !in Join(parts, sep)
  {
    if |parts| > 1 {
      JoinAvoids(parts[1..], sep, x);
    }
  }

  // ---------------------------------------------------------------------
  // Objects

  /** Any object of the source: the identity fields every `Object` has and the
      `PDF` writer updates, and the body that its class and contents give it. */
  class PdfObject {
    var number: Option<nat>
    var offset: nat
    var generation: nat
    var free: bool    // `free == 'f'`; the source stores 'n' or 'f'
    var body: Node

    /** `Object.__init__` together with the subclass's own initialiser. */
    constructor (body: Node)
      ensures number == None && offset == 0 && generation == 0 && !free
      ensures this.body == body
    {
      number := None;
      offset := 0;
      generation := 0;
      free := false;
      this.body := body;
    }

    function Indirect(): seq<byte>
      reads this`number, this`generation, this`body
      requires Encodable(body)
    {
      IndirectBytes(number, generation, body)
    }

    function Reference(): string
      reads this`number, this`generation
    {
      ReferenceText(number, generation)
    }

    predicate IsStream()
      reads this`body
    {
      body.Stream?
    }

    /** `self.stream.append(token)`. */
    method Append(token: string)
      requires IsStream()
      modifies this`body
      ensures IsStream() && body.tokens == old(body.tokens) + [OpToken(token)]
    {
      body := Stream(body.tokens + [OpToken(token)]);
    }

    method Clip(evenOdd: bool)
      requires IsStream()
      modifies this`body
      ensures IsStream() && body.tokens == old(body.tokens) + [OpToken(Operation([], if evenOdd then "W*" else "W"))]
    {
      Append(if evenOdd then "W*" else "W");
    }

    method Close()
      requires IsStream()
      modifies this`body
      ensures IsStream() && body.tokens == old(body.tokens) + [OpToken(Operation([], "h"))]
    {
      Append("h");
    }

    method CurveTo(x1: int, y1: int, x2: int, y2: int, x3: int, y3: int)
      requires IsStream()
      modifies this`body
      ensures IsStream() && body.tokens == old(body.tokens) +
        [OpToken(Operation([Num(x1), Num(y1), Num(x2), Num(y2), Num(x3), Num(y3)], "c"))]
    {
      Append(Operation([Num(x1), Num(y1), Num(x2), Num(y2), Num(x3), Num(y3)], "c"));
    }

    method End()
      requires IsStream()
      modifies this`body
      ensures IsStream() && body.tokens == old(body.tokens) + [OpToken(Operation([], "n"))]
    {
      Append("n");
    }

    method Fill(evenOdd: bool)
      requires IsStream()
      modifies this`body
      ensures IsStream() && body.tokens == old(body.tokens) + [OpToken(Operation([], if evenOdd then "f*" else "f"))]
    {
      Append(if evenOdd then "f*" else "f");
    }

    method FillAndStroke(evenOdd: bool)
      requires IsStream()
      modifies this`body
      ensures IsStream() && body.tokens == old(body.tokens) + [OpToken(Operation([], if evenOdd then "B*" else "B"))]
    {
      Append(if evenOdd then "B*" else "B");
    }

    method FillStrokeAndClose(evenOdd: bool)
      requires IsStream()
      modifies this`body
      ensures IsStream() && body.tokens == old(body.tokens) + [OpToken(Operation([], if evenOdd then "b*" else "b"))]
    {
      Append(if evenOdd then "b*" else "b");
    }

    method LineTo(x: int, y: int)
      requires IsStream()
      modifies this`body
      ensures IsStream() && body.tokens == old(body.tokens) + [OpToken(Operation([Num(x), Num(y)], "l"))]
    {
      Append(Operation([Num(x), Num(y)], "l"));
    }

    method MoveTo(x: int, y: int)
      requires IsStream()
      modifies this`body
      ensures IsStream() && body.tokens == old(body.tokens) + [OpToken(Operation([Num(x), Num(y)], "m"))]
    {
      Append(Operation([Num(x), Num(y)], "m"));
    }

    method PopState()
      requires IsStream()
      modifies this`body
      ensures IsStream() && body.tokens == old(body.tokens) + [OpToken(Operation([], "Q"))]
    {
      Append("Q");
    }

    method PushState()
      requires IsStream()
      modifies this`body
      ensures IsStream() && body.tokens == old(body.tokens) + [OpToken(Operation([], "q"))]
    {
      Append("q");
    }

    method Rectangle(x: int, y: int, width: int, height: int)
      requires IsStream()
      modifies this`body
      ensures IsStream() && body.tokens == old(body.tokens) +
        [OpToken(Operation([Num(x), Num(y), Num(width), Num(height)], "re"))]
    {
      Append(Operation([Num(x), Num(y), Num(width), Num(height)], "re"));
    }

    method SetColorRgb(r: int, g: int, b: int, stroke: bool)
      requires IsStream()
      modifies this`body
      ensures IsStream() && body.tokens == old(body.tokens) +
        [OpToken(Operation([Num(r), Num(g), Num(b)], if stroke then "RG" else "rg"))]
    {
      Append(Operation([Num(r), Num(g), Num(b)], if stroke then "RG" else "rg"));
    }

    method SetDash(dashArray: seq<int>, dashPhase: int)
      requires IsStream()
      modifies this`body
      ensures IsStream() && body.tokens == old(body.tokens) +
        [OpToken(Operation([DashArrayText(dashArray), Num(dashPhase)], "d"))]
    {
      Append(Operation([DashArrayText(dashArray), Num(dashPhase)], "d"));
    }

    method SetLineWidth(width: int)
      requires IsStream()
      modifies this`body
      ensures IsStream() && body.tokens == old(body.tokens) + [OpToken(Operation([Num(width)], "w"))]
    {
      Append(Operation([Num(width)], "w"));
    }

    method SetState(stateName: string)
      requires IsStream()
      modifies this`body
      ensures IsStream() && body.tokens == old(body.tokens) + [OpToken(Operation(["/" + stateName], "gs"))]
    {
      Append(Operation(["/" + stateName], "gs"));
    }

    method Stroke()
      requires IsStream()
      modifies this`body
      ensures IsStream() && body.tokens == old(body.tokens) + [OpToken(Operation([], "S"))]
    {
      Append("S");
    }

    method StrokeAndClose()
      requires IsStream()
      modifies this`body
      ensures IsStream() && body.tokens == old(body.tokens) + [OpToken(Operation([], "s"))]
    {
      Append("s");
    }

    method Transform(a: int, b: int, c: int, d: int, e: int, f: int)
      requires IsStream()
      modifies this`body
      ensures IsStream() && body.tokens == old(body.tokens) +
        [OpToken(Operation([Num(a), Num(b), Num(c), Num(d), Num(e), Num(f)], "cm"))]
    {
      Append(Operation([Num(a), Num(b), Num(c), Num(d), Num(e), Num(f)], "cm"));
    }
  }
}
