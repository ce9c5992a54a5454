/** The object model of pydyf/__init__.py as values: what every node's `data`
    property turns it into (ISO 32000-1, section 7.3: strings 7.3.4, arrays 7.3.6,
    dictionaries 7.3.7, streams 7.3.8). */
module PydyfValues {
  import opened Text
  import opened Bytes

  /** The body of an object, one variant per class of the source. */
  datatype Node =
    | Plain                          // `Object` itself: its `data` raises NotImplementedError
    | Dictionary(items: seq<Item>)   // `Dictionary`, a Python dict: insertion-ordered entries
    | Array(elements: seq<Value>)    // `Array`, a Python list
    | String(payload: Payload)       // `String`
    | Stream(tokens: seq<Token>)     // `Stream` and its `stream` list

  datatype Item = Item(key: string, value: Value)

  /** A dictionary value or array element: an `Object` (inlined through its
      `data`), `bytes` (passed through), or anything else, written with `str`. */
  datatype Value = Int(i: int) | Str(s: string) | Raw(b: seq<byte>) | Obj(n: Node)

  /** An entry of a stream's token list: `str` (encoded), `bytes` or an `Object`. */
  datatype Token = OpToken(s: string) | RawToken(b: seq<byte>) | ObjToken(n: Node)

  /** What a `String` wraps: a `str` or `bytes`. */
  datatype Payload = Unicode(s: string) | Binary(b: seq<byte>)

  const NewLine: seq<byte> := [NL]
  const Space: seq<byte> := [SP]

  // ---------------------------------------------------------------------
  // When `data` succeeds

  /** `data` raises on a bare `Object` anywhere in the tree and on a key,
      `str` value or `str` token that is not ASCII; these say when it does not. */
  predicate Encodable(n: Node)
    decreases n
  {
    match n
    case Plain => false
    case Dictionary(items) =>
      forall i :: 0 <= i < |items| ==> IsAscii(items[i].key) && ValueEncodable(items[i].value)
    case Array(vs) => forall i :: 0 <= i < |vs| ==> ValueEncodable(vs[i])
    case String(_) => true
    case Stream(ts) => forall i :: 0 <= i < |ts| ==> TokenEncodable(ts[i])
  }

  predicate ValueEncodable(v: Value)
    decreases v
  {
    match v
    case Int(_) => true
    case Str(s) => IsAscii(s)
    case Raw(_) => true
    case Obj(n) => Encodable(n)
  }

  predicate TokenEncodable(t: Token)
    decreases t
  {
    match t
    case OpToken(s) => IsAscii(s)
    case RawToken(_) => true
    case ObjToken(n) => Encodable(n)
  }

  // ---------------------------------------------------------------------
  // The `data` properties

  /** The bytes a dictionary value or array element contributes. */
  function ValueBytes(v: Value): seq<byte>
    requires ValueEncodable(v)
    decreases v
  {
    match v
    case Int(i) => Ascii(IntToString(i))
    case Str(s) => Ascii(s)
    case Raw(b) => b
    case Obj(n) => Data(n)
  }

  function TokenBytes(t: Token): seq<byte>
    requires TokenEncodable(t)
    decreases t
  {
    match t
    case OpToken(s) => Ascii(s)
    case RawToken(b) => b
    case ObjToken(n) => Data(n)
  }

  /** One `/key value` line of a dictionary. */
  function ItemLine(it: Item): seq<byte>
    requires IsAscii(it.key) && ValueEncodable(it.value)
    decreases it
  {
    KeyLine(it.key, ValueBytes(it.value))
  }

  /** `b'/' + key + b' ' + value` once the key is encoded and the value turned into bytes. */
  function KeyLine(key: string, value: seq<byte>): seq<byte>
    requires IsAscii(key)
  {
    ['/' as int] + Ascii(key) + Space + value
  }

  function ItemLines(items: seq<Item>): (r: seq<seq<byte>>)
    requires forall i :: 0 <= i < |items| ==> IsAscii(items[i].key) && ValueEncodable(items[i].value)
    ensures |r| == |items|
    decreases items, 0
  {
    seq(|items|, i requires 0 <= i < |items| => ItemLine(items[i]))
  }

  function PayloadBytes(p: Payload): seq<byte>
  {
    match p
    case Unicode(s) => if IsAscii(s) then Ascii(s) else BomUtf16Be + Utf16Be(s)
    case Binary(b) => b
  }

  /** A stream's payload: its tokens joined by newlines. */
  function StreamPayload(ts: seq<Token>): seq<byte>
    requires forall i :: 0 <= i < |ts| ==> TokenEncodable(ts[i])
    decreases ts, 0
  {
    Join(seq(|ts|, i requires 0 <= i < |ts| => TokenBytes(ts[i])), NewLine)
  }

  /** The metadata line of a stream, declaring its `/Length`. */
  function LengthLine(length: nat): seq<byte>
  {
    Ascii("<< /Length " + NatToString(length) + " >>")
  }

  /** The `data` property of every variant. */
  function Data(n: Node): seq<byte>
    requires Encodable(n)
    decreases n, 1
  {
    match n
    case Dictionary(items) => DictionaryData(items)
    case Array(vs) => ArrayData(vs)
    case String(p) => Ascii("(") + PayloadBytes(p) + Ascii(")")
    case Stream(ts) => StreamData(ts)
  }

  /** `Dictionary.data`. */
  function DictionaryData(items: seq<Item>): seq<byte>
    requires forall i :: 0 <= i < |items| ==> IsAscii(items[i].key) && ValueEncodable(items[i].value)
    decreases items, 1
  {
    Join([Ascii("<<")] + ItemLines(items) + [Ascii(">>")], NewLine)
  }

  /** `Array.data`. */
  function ArrayData(vs: seq<Value>): seq<byte>
    requires forall i :: 0 <= i < |vs| ==> ValueEncodable(vs[i])
    decreases vs
  {
    Join([Ascii("[")] + seq(|vs|, i requires 0 <= i < |vs| => ValueBytes(vs[i])) + [Ascii("]")], Space)
  }

  /** `Stream.data`. */
  function StreamData(ts: seq<Token>): seq<byte>
    requires forall i :: 0 <= i < |ts| ==> TokenEncodable(ts[i])
    decreases ts, 1
  {
    var payload := StreamPayload(ts);
    Join([LengthLine(|payload| + 1), Ascii("stream"), payload, Ascii("endstream")], NewLine)
  }

  // ---------------------------------------------------------------------
  // Dictionary updates (`d[k] = v`)

  function Keys(items: seq<Item>): (r: seq<string>)
    ensures |r| == |items| && forall i :: 0 <= i < |items| ==> r[i] == items[i].key
  {
    if |items| == 0 then [] else [items[0].key] + Keys(items[1..])
  }

  /** `d.get(k)`: the value of the first entry with key `k`. */
  function Lookup(items: seq<Item>, k: string): (r: Option<Value>)
    ensures r.None? <==> k !in Keys(items)
    ensures r.Some? ==> exists i :: 0 <= i < |items| && items[i] == Item(k, r.value)
  {
    if |items| == 0 then None
    else if items[0].key == k then Some(items[0].value)
    else
      assert Keys(items) == [items[0].key] + Keys(items[1..]);
      Lookup(items[1..], k)
  }

  /** A value found in a serialisable dictionary is itself serialisable. */
  lemma {:induction false} LookupEncodable(items: seq<Item>, k: string)
    requires Encodable(Dictionary(items)) && Lookup(items, k).Some?
    ensures ValueEncodable(Lookup(items, k).value)
  {
    var j :| 0 <= j < |items| && items[j] == Item(k, Lookup(items, k).value);
    assert ValueEncodable(items[j].value);
  }

  /** `d[k] = v`: replaces the value in place when `k` is present, otherwise appends. */
  function Put(items: seq<Item>, k: string, v: Value): seq<Item>
  {
    if |items| == 0 then [Item(k, v)]
    else if items[0].key == k then [Item(k, v)] + items[1..]
    else [items[0]] + Put(items[1..], k, v)
  }

  /** Python dict assignment: afterwards `k` maps to `v`, every other key keeps its
      value, and the key order is unchanged (a new key goes last). */
  lemma {:induction false} PutSpec(items: seq<Item>, k: string, v: Value)
    ensures Lookup(Put(items, k, v), k) == Some(v)
    ensures forall k' :: k' != k ==> Lookup(Put(items, k, v), k') == Lookup(items, k')
    ensures Keys(Put(items, k, v)) == if k in Keys(items) then Keys(items) else Keys(items) + [k]
  {
    PutFound(items, k, v);
    forall k' | k' != k ensures Lookup(Put(items, k, v), k') == Lookup(items, k') {
      PutOther(items, k, v, k');
    }
    PutKeys(items, k, v);
  }

  lemma {:induction false} PutFound(items: seq<Item>, k: string, v: Value)
    ensures Lookup(Put(items, k, v), k) == Some(v)
  {
    if |items| > 0 && items[0].key != k {
      PutFound(items[1..], k, v);
    }
  }

  lemma {:induction false} PutOther(items: seq<Item>, k: string, v: Value, k': string)
    requires k' != k
    ensures Lookup(Put(items, k, v), k') == Lookup(items, k')
  {
    if |items| > 0 && items[0].key != k {
      PutOther(items[1..], k, v, k');
    }
  }

  lemma {:induction false} PutKeys(items: seq<Item>, k: string, v: Value)
    ensures Keys(Put(items, k, v)) == if k in Keys(items) then Keys(items) else Keys(items) + [k]
  {
    if |items| > 0 {
      var head, rest := [items[0].key], Keys(items[1..]);
      assert Keys(items) == head + rest;
      if items[0].key != k {
        PutKeys(items[1..], k, v);
        assert Keys(Put(items, k, v)) == head + Keys(Put(items[1..], k, v));
        assert k in Keys(items) <==> k in rest;
        AppendAssoc(head, rest, [k]);
      }
    }
  }

  lemma {:induction false} PutEncodable(items: seq<Item>, k: string, v: Value)
    requires Encodable(Dictionary(items)) && IsAscii(k) && ValueEncodable(v)
    ensures Encodable(Dictionary(Put(items, k, v)))
  {
    if |items| > 0 && items[0].key != k {
      assert Encodable(Dictionary(items[1..]));
      PutEncodable(items[1..], k, v);
      var rest := Put(items[1..], k, v);
      assert Put(items, k, v) == [items[0]] + rest;
    }
  }

  // ---------------------------------------------------------------------
  // Properties of the encodings

  /** One dictionary line reads back: it opens with `/`; when the key holds no
      space, the first space-separated word after the `/` is the key, and the
      bytes after that first space are the value's. */
  lemma {:induction false} KeyLineFields(key: string, value: seq<byte>)
    requires IsAscii(key) && ' ' !in key
    ensures var line := KeyLine(key, value);
            && line[0] == '/' as int
            && Split(line[1..], SP)[0] == Ascii(key)
            && line[|key| + 2..] == value
  {
    var line, k := KeyLine(key, value), Ascii(key);
    assert line[1..] == k + [SP] + value;
    assert SP !in k by {
      assert forall i :: 0 <= i < |k| ==> k[i] == key[i] as int && key[i] != ' ';
    }
    SplitFirst(k, value, SP);
  }

  /** A dictionary line holds no newline when neither the key nor the value does. */
  lemma {:induction false} KeyLineNoNewline(key: string, value: seq<byte>)
    requires IsAscii(key) && '\n' !in key && NL !in value
    ensures NL !in KeyLine(key, value)
  {
    AsciiNoNewline(key);
    var a, b := ['/' as int] + Ascii(key), Space + value;
    assert NL !in a && NL !in b;
    assert KeyLine(key, value) == a + b;
  }

  /** `Dictionary.data`: `<<`, one `/key value` line per entry in insertion order
      (see `KeyLineFields`), `>>`. When no key or value spans lines, reading the
      bytes back line by line gives exactly those lines. */
  lemma {:induction false} DictionaryDataLines(items: seq<Item>)
    requires Encodable(Dictionary(items))
    requires forall i :: 0 <= i < |items| ==> '\n' !in items[i].key && NL !in ValueBytes(items[i].value)
    ensures Split(Data(Dictionary(items)), NL) == [Ascii("<<")] + ItemLines(items) + [Ascii(">>")]
  {
    var parts := [Ascii("<<")] + ItemLines(items) + [Ascii(">>")];
    assert Data(Dictionary(items)) == DictionaryData(items) == Join(parts, NewLine);
    ItemLinesSingle(items);
    AsciiNoNewline("<<");
    AsciiNoNewline(">>");
    NoneContains([Ascii("<<")], ItemLines(items), [Ascii(">>")], NL);
    SplitJoin(parts, NL);
  }

  /** `d` occurs in no part of `a + b + c` when it occurs in no part of each. */
  lemma {:induction false} NoneContains<T>(a: seq<seq<T>>, b: seq<seq<T>>, c: seq<seq<T>>, d: T)
    requires forall k :: 0 <= k < |a| ==> d !in a[k]
    requires forall k :: 0 <= k < |b| ==> d !in b[k]
    requires forall k :: 0 <= k < |c| ==> d !in c[k]
    ensures forall k :: 0 <= k < |a + b + c| ==> d !in (a + b + c)[k]
  {
  }

  lemma {:induction false} ItemLinesSingle(items: seq<Item>)
    requires forall i :: 0 <= i < |items| ==> IsAscii(items[i].key) && ValueEncodable(items[i].value)
    requires forall i :: 0 <= i < |items| ==> '\n' !in items[i].key && NL !in ValueBytes(items[i].value)
    ensures forall i :: 0 <= i < |items| ==> NL !in ItemLines(items)[i]
  {
    forall i | 0 <= i < |items| ensures NL !in ItemLines(items)[i] {
      KeyLineNoNewline(items[i].key, ValueBytes(items[i].value));
    }
  }

  /** `Array.data`: `[`, the elements, `]`, separated by single spaces. When no
      element contains a space, splitting on spaces gives the elements back. */
  lemma {:induction false} ArrayDataWords(vs: seq<Value>)
    requires Encodable(Array(vs))
    requires forall i :: 0 <= i < |vs| ==> SP !in ValueBytes(vs[i])
    ensures Split(Data(Array(vs)), SP) ==
      [Ascii("[")] + seq(|vs|, i requires 0 <= i < |vs| => ValueBytes(vs[i])) + [Ascii("]")]
  {
    var parts := [Ascii("[")] + seq(|vs|, i requires 0 <= i < |vs| => ValueBytes(vs[i])) + [Ascii("]")];
    assert forall k :: 0 <= k < |parts| ==> SP !in parts[k];
    SplitJoin(parts, SP);
  }

  /** `Stream.data`: the `/Length` line, `stream`, the payload, `endstream`. The
      declared length is the payload plus its closing newline: exactly the bytes
      between the `stream` line and `endstream`, and it reads back as a number. */
  lemma {:induction false} StreamDataLength(ts: seq<Token>)
    requires Encodable(Stream(ts))
    ensures var payload := StreamPayload(ts);
            var length := |payload| + 1;
            var head := LengthLine(length) + NewLine + Ascii("stream") + NewLine;
            var d := Data(Stream(ts));
            && d == head + payload + NewLine + Ascii("endstream")
            && d[|head|..|head| + length] == payload + NewLine
            && d[|head| + length..] == Ascii("endstream")
            && ParseNat(NatToString(length)) == length
  {
    var payload := StreamPayload(ts);
    var length := |payload| + 1;
    var head := LengthLine(length) + NewLine + Ascii("stream") + NewLine;
    var tail := Ascii("endstream");
    assert Data(Stream(ts)) == StreamData(ts);
    JoinFour(LengthLine(length), Ascii("stream"), payload, tail, NewLine);
    AppendAssoc(head, payload, NewLine);
    ConcatSlices(head, payload + NewLine, tail);
    ParseNatToString(length);
  }

  /** With tokens that hold no newline, splitting the payload on newlines
      reproduces the token sequence (pydyf's tokens are written one per line). */
  lemma {:induction false} StreamPayloadTokens(ts: seq<Token>)
    requires |ts| >= 1
    requires forall i :: 0 <= i < |ts| ==> TokenEncodable(ts[i]) && NL !in TokenBytes(ts[i])
    ensures Split(StreamPayload(ts), NL) == seq(|ts|, i requires 0 <= i < |ts| => TokenBytes(ts[i]))
  {
    SplitJoin(seq(|ts|, i requires 0 <= i < |ts| => TokenBytes(ts[i])), NL);
  }

  /** How a reader recovers the text of a string literal written by `String.data`:
      a literal opening with the UTF-16BE byte-order mark is UTF-16BE, any other is ASCII. */
  function ReadTextLiteral(d: seq<byte>): Option<string>
  {
    if |d| < 2 || d[0] != '(' as int || d[|d| - 1] != ')' as int then None
    else
      var inner := d[1..|d| - 1];
      if |inner| >= 2 && inner[..2] == BomUtf16Be then Utf16BeDecode(inner[2..])
      else if Below128(inner) then Some(AsciiText(inner))
      else None
  }

  /** `String.data` on a `str`: ASCII text in parentheses when it is ASCII, else the
      byte-order mark and UTF-16BE; either way a reader gets the text back. */
  lemma {:induction false} StringDataRoundTrip(s: string)
    ensures var d := Data(String(Unicode(s)));
            && d[0] == '(' as int && d[|d| - 1] == ')' as int
            && (IsAscii(s) ==> d == Ascii("(") + Ascii(s) + Ascii(")"))
            && (!IsAscii(s) ==> d == Ascii("(") + BomUtf16Be + Utf16Be(s) + Ascii(")"))
            && ReadTextLiteral(d) == Some(s)
  {
    var d := Data(String(Unicode(s)));
    var inner := PayloadBytes(Unicode(s));
    assert d[1..|d| - 1] == inner;
    if IsAscii(s) {
      if |inner| >= 2 {
        assert inner[0] < 128;
        assert inner[..2] != BomUtf16Be;
      }
      assert AsciiText(inner) == s;
    } else {
      assert inner[..2] == BomUtf16Be;
      assert inner[2..] == Utf16Be(s);
      Utf16BeRoundTrip(s);
    }
  }

  /** `String.data` on `bytes`: the bytes unchanged between parentheses. */
  lemma {:induction false} BinaryStringData(b: seq<byte>)
    ensures var d := Data(String(Binary(b)));
            && |d| == |b| + 2 && d[0] == '(' as int && d[|d| - 1] == ')' as int
            && d[1..|d| - 1] == b
  {
  }
}
