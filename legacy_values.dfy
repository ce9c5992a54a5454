/** The object model of the earlier, text-based writer (__init__.py at the top of
    the repository) as values: what every node's `data` property turns it into.
    This writer builds `str` throughout and prints the file, so its `data` is text. */
module LegacyValues {
  import opened Text

  /** The body of an object, one variant per class of the earlier writer. */
  datatype LNode =
    | LPlain                            // `Object` itself: its `data` raises NotImplementedError
    | LDictionary(items: seq<LItem>)    // `Dictionary`, a Python dict: insertion-ordered entries
    | LArray(elements: seq<LValue>)     // `Array`
    | LString(s: string)                // `String`
    | LStream(tokens: seq<LToken>)      // `Stream` and its `stream` list

  datatype LItem = LItem(key: string, value: LValue)

  /** A dictionary value or array element: an `Object` (inlined through its `data`),
      an `int` or a `str`, both written with `str`. */
  datatype LValue = LInt(i: int) | LText(s: string) | LObj(n: LNode)

  /** An entry of a stream's list: an operator line or an `Object` inlined through its `data`. */
  datatype LToken = LOp(s: string) | LNested(n: LNode)

  // ---------------------------------------------------------------------
  // When `data` succeeds

  /** `data` raises on a bare `Object` anywhere in the tree; everything else has text. */
  predicate Serialisable(n: LNode)
    decreases n
  {
    match n
    case LPlain => false
    case LDictionary(items) => forall i :: 0 <= i < |items| ==> ValueSerialisable(items[i].value)
    case LArray(vs) => forall i :: 0 <= i < |vs| ==> ValueSerialisable(vs[i])
    case LString(_) => true
    case LStream(ts) => forall i :: 0 <= i < |ts| ==> TokenSerialisable(ts[i])
  }

  predicate ValueSerialisable(v: LValue)
    decreases v
  {
    v.LObj? ==> Serialisable(v.n)
  }

  predicate TokenSerialisable(t: LToken)
    decreases t
  {
    t.LNested? ==> Serialisable(t.n)
  }

  // ---------------------------------------------------------------------
  // The `data` properties

  /** The text a dictionary value or array element contributes. */
  function ValueText(v: LValue): string
    requires ValueSerialisable(v)
    decreases v
  {
    match v
    case LInt(i) => IntToString(i)
    case LText(s) => s
    case LObj(n) => Data(n)
  }

  function TokenText(t: LToken): string
    requires TokenSerialisable(t)
    decreases t
  {
    match t
    case LOp(s) => s
    case LNested(n) => Data(n)
  }

  /** `f'/{key} {value}'`, one line of a dictionary. */
  function ItemLine(it: LItem): string
    requires ValueSerialisable(it.value)
    decreases it
  {
    "/" + it.key + " " + ValueText(it.value)
  }

  function ItemLines(items: seq<LItem>): (r: seq<string>)
    requires forall i :: 0 <= i < |items| ==> ValueSerialisable(items[i].value)
    ensures |r| == |items|
    decreases items, 0
  {
    seq(|items|, i requires 0 <= i < |items| => ItemLine(items[i]))
  }

  function ElementTexts(vs: seq<LValue>): (r: seq<string>)
    requires forall i :: 0 <= i < |vs| ==> ValueSerialisable(vs[i])
    ensures |r| == |vs|
    decreases vs, 0
  {
    seq(|vs|, i requires 0 <= i < |vs| => ValueText(vs[i]))
  }

  /** The body of a stream: its entries joined by newlines. */
  function StreamText(ts: seq<LToken>): string
    requires forall i :: 0 <= i < |ts| ==> TokenSerialisable(ts[i])
    decreases ts, 0
  {
    Join(seq(|ts|, i requires 0 <= i < |ts| => TokenText(ts[i])), "\n")
  }

  /** The line declaring a stream's `/Length`. */
  function LengthLine(length: nat): string
  {
    "<< /Length " + NatToString(length) + " >>"
  }

  /** The `data` property of every variant. */
  function Data(n: LNode): string
    requires Serialisable(n)
    decreases n, 1
  {
    match n
    case LDictionary(items) => Join(["<<"] + ItemLines(items) + [">>"], "\n")
    case LArray(vs) => Join(["["] + ElementTexts(vs) + ["]"], " ")
    case LString(s) => "( " + s + " )"
    case LStream(ts) => StreamData(ts)
  }

  /** `Stream.data`. */
  function StreamData(ts: seq<LToken>): string
    requires forall i :: 0 <= i < |ts| ==> TokenSerialisable(ts[i])
    decreases ts, 1
  {
    var text := StreamText(ts);
    Join([LengthLine(|text| + 1), "stream", text, "endstream"], "\n")
  }

  // ---------------------------------------------------------------------
  // Dictionary updates (`d[k] = v`)

  /** The keys of a dictionary, in insertion order. */
  function Keys(items: seq<LItem>): (r: seq<string>)
    ensures |r| == |items| && forall i :: 0 <= i < |items| ==> r[i] == items[i].key
  {
    if |items| == 0 then [] else [items[0].key] + Keys(items[1..])
  }

  /** `d.get(k)`: the value of the first entry with key `k`. */
  function Lookup(items: seq<LItem>, k: string): (r: Option<LValue>)
    ensures r.Some? ==> exists i :: 0 <= i < |items| && items[i] == LItem(k, r.value)
    ensures r.None? ==> forall i :: 0 <= i < |items| ==> items[i].key != k
  {
    if |items| == 0 then None
    else if items[0].key == k then Some(items[0].value)
    else
      var r := Lookup(items[1..], k);
      assert forall i :: 1 <= i < |items| ==> items[i] == items[1..][i - 1];
      r
  }

  /** A key that `d.get` finds is one of the dictionary's keys. */
  lemma {:induction false} LookupKey(items: seq<LItem>, k: string)
    requires Lookup(items, k).Some?
    ensures k in Keys(items)
  {
    var j :| 0 <= j < |items| && items[j] == LItem(k, Lookup(items, k).value);
    assert Keys(items)[j] == k;
  }

  /** `d[k] = v`: replaces the value in place when `k` is present, otherwise appends. */
  function Put(items: seq<LItem>, k: string, v: LValue): (r: seq<LItem>)
  {
    if |items| == 0 then [LItem(k, v)]
    else if items[0].key == k then [LItem(k, v)] + items[1..]
    else [items[0]] + Put(items[1..], k, v)
  }

  /** Python dict assignment: afterwards `k` maps to `v`, every other key keeps its
      value, and the key order is unchanged (a new key goes last). */
  lemma {:induction false} PutSpec(items: seq<LItem>, k: string, v: LValue)
    ensures Lookup(Put(items, k, v), k) == Some(v)
    ensures forall k' :: k' != k ==> Lookup(Put(items, k, v), k') == Lookup(items, k')
    ensures |Put(items, k, v)| == if Lookup(items, k).Some? then |items| else |items| + 1
    ensures Keys(Put(items, k, v)) == if k in Keys(items) then Keys(items) else Keys(items) + [k]
    decreases |items|
  {
    if |items| > 0 && items[0].key != k {
      PutSpec(items[1..], k, v);
      assert Put(items, k, v)[1..] == Put(items[1..], k, v);
    }
    PutKeys(items, k, v);
  }

  lemma {:induction false} PutKeys(items: seq<LItem>, k: string, v: LValue)
    ensures Keys(Put(items, k, v)) == if k in Keys(items) then Keys(items) else Keys(items) + [k]
  {
    if |items| > 0 {
      var head, rest := [items[0].key], Keys(items[1..]);
      assert Keys(items) == head + rest;
      if items[0].key != k {
        PutKeys(items[1..], k, v);
        assert Keys(Put(items, k, v)) == head + Keys(Put(items[1..], k, v));
        assert k in Keys(items) <==> k in rest;
        AppendAssoc(head, rest, [k]);
      }
    }
  }

  /** Assigning two keys that are both present leaves the key order as it was. */
  lemma {:induction false} PutTwiceKeys(items: seq<LItem>, k1: string, v1: LValue, k2: string, v2: LValue)
    requires Lookup(items, k1).Some? && Lookup(items, k2).Some?
    ensures Keys(Put(Put(items, k1, v1), k2, v2)) == Keys(items)
  {
    LookupKey(items, k1);
    LookupKey(items, k2);
    PutKeys(items, k1, v1);
    PutKeys(Put(items, k1, v1), k2, v2);
  }

  lemma {:induction false} PutSerialisable(items: seq<LItem>, k: string, v: LValue)
    requires Serialisable(LDictionary(items)) && ValueSerialisable(v)
    ensures Serialisable(LDictionary(Put(items, k, v)))
    decreases |items|
  {
    if |items| > 0 && items[0].key != k {
      assert Serialisable(LDictionary(items[1..]));
      PutSerialisable(items[1..], k, v);
      assert Put(items, k, v) == [items[0]] + Put(items[1..], k, v);
    }
  }

  lemma {:induction false} LookupSerialisable(items: seq<LItem>, k: string)
    requires Serialisable(LDictionary(items)) && Lookup(items, k).Some?
    ensures ValueSerialisable(Lookup(items, k).value)
  {
    var j :| 0 <= j < |items| && items[j] == LItem(k, Lookup(items, k).value);
    assert ValueSerialisable(items[j].value);
  }

  // ---------------------------------------------------------------------
  // Properties of the encodings

  /** `Dictionary.data`: `<<`, one `/key value` line per entry in insertion order,
      `>>`. When no key or value spans lines, reading the text back line by line
      gives exactly those lines. */
  lemma {:induction false} DictionaryDataLines(items: seq<LItem>)
    requires Serialisable(LDictionary(items))
    requires forall i :: 0 <= i < |items| ==> '\n' !in items[i].key && '\n' !in ValueText(items[i].value)
    ensures Split(Data(LDictionary(items)), '\n') == ["<<"] + ItemLines(items) + [">>"]
  {
    var lines := ItemLines(items);
    forall i | 0 <= i < |items| ensures '\n' !in lines[i] {
      assert lines[i] == ItemLine(items[i]);
      assert lines[i] == "/" + items[i].key + " " + ValueText(items[i].value);
    }
    var parts := ["<<"] + lines + [">>"];
    assert forall k :: 0 <= k < |parts| ==> '\n' !in parts[k];
    SplitJoin(parts, '\n');
  }

  /** One dictionary line reads back as `/`, the key, a space and the value's text. */
  lemma {:induction false} ItemLineFields(it: LItem)
    requires ValueSerialisable(it.value) && ' ' !in it.key
    ensures var line := ItemLine(it);
      && line[0] == '/'
      && Split(line[1..], ' ')[0] == it.key
      && line[|it.key| + 2..] == ValueText(it.value)
  {
    var line := ItemLine(it);
    assert line[1..] == it.key + [' '] + ValueText(it.value);
    SplitFirst(it.key, ValueText(it.value), ' ');
  }

  /** `Array.data`: `[`, the elements, `]`, separated by single spaces, so an empty
      array is `[ ]`. When no element contains a space, splitting on spaces gives
      the elements back. */
  lemma {:induction false} ArrayDataWords(vs: seq<LValue>)
    requires Serialisable(LArray(vs))
    requires forall i :: 0 <= i < |vs| ==> ' ' !in ValueText(vs[i])
    ensures Split(Data(LArray(vs)), ' ') == ["["] + ElementTexts(vs) + ["]"]
  {
    var parts := ["["] + ElementTexts(vs) + ["]"];
    assert forall k :: 0 <= k < |parts| ==> ' ' !in parts[k];
    SplitJoin(parts, ' ');
  }

  lemma {:induction false} EmptyArrayData()
    ensures Data(LArray([])) == "[ ]"
  {
    var parts := ["["] + ElementTexts([]) + ["]"];
    assert parts == ["[", "]"] && parts[1..] == ["]"];
    assert Join(parts, " ") == "[" + " " + "]";
  }

  /** `Stream.data`: the `/Length` line, `stream`, the body, `endstream`. The
      declared length is the body plus its closing newline: exactly the text
      between the `stream` line and `endstream`, and it reads back as a number. */
  lemma {:induction false} StreamDataLength(ts: seq<LToken>)
    requires Serialisable(LStream(ts))
    ensures var text := StreamText(ts);
            var length := |text| + 1;
            var head := LengthLine(length) + "\n" + "stream" + "\n";
            && Data(LStream(ts)) == head + (text + "\n") + "endstream"
            && |text + "\n"| == length
            && ParseNat(NatToString(length)) == length
  {
    var text := StreamText(ts);
    var length := |text| + 1;
    assert Data(LStream(ts)) == StreamData(ts);
    JoinFour(LengthLine(length), "stream", text, "endstream", "\n");
    ParseNatToString(length);
  }

  /** With entries that hold no newline, splitting a stream's body on newlines
      gives back its entries, one per line. */
  lemma {:induction false} StreamTextEntries(ts: seq<LToken>)
    requires |ts| >= 1
    requires forall i :: 0 <= i < |ts| ==> TokenSerialisable(ts[i]) && '\n' !in TokenText(ts[i])
    ensures Split(StreamText(ts), '\n') == seq(|ts|, i requires 0 <= i < |ts| => TokenText(ts[i]))
  {
    SplitJoin(seq(|ts|, i requires 0 <= i < |ts| => TokenText(ts[i])), '\n');
  }

  /** How a reader recovers the text of a `String` written as `( s )`. */
  function ReadStringLiteral(d: string): Option<string>
  {
    if |d| >= 4 && d[..2] == "( " && d[|d| - 2..] == " )" then Some(d[2..|d| - 2]) else None
  }

  /** `String.data` pads the text with one space inside each parenthesis, and a
      reader gets the text back. */
  lemma {:induction false} StringDataRoundTrip(s: string)
    ensures var d := Data(LString(s));
      && |d| == |s| + 4
      && ReadStringLiteral(d) == Some(s)
  {
    var d := Data(LString(s));
    assert d[..2] == "( " && d[|d| - 2..] == " )" && d[2..|d| - 2] == s;
  }
}
