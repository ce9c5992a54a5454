/** The `Object` and `Stream` classes of the earlier, text-based writer
    (__init__.py at the top of the repository): an object's identity fields, its
    indirect form and reference, and the content-stream operators, including the
    painting rules chosen by name and the collapsing of consecutive `move_to`s. */
module LegacyObjects {
  import opened Text
  import opened LegacyValues
  import opened PydyfObjects

  /** `Object.indirect`: the header line, the body's `data`, then `endobj`. */
  function LegacyIndirect(number: Option<nat>, generation: nat, body: LNode): string
    requires Serialisable(body)
  {
    Join([ObjHeader(number, generation), Data(body), "endobj"], "\n")
  }

  /** The indirect form is the header line, the data and `endobj`, newline-separated,
      and its first line is the `N G obj` header. */
  lemma {:induction false} LegacyIndirectLayout(number: Option<nat>, generation: nat, body: LNode)
    requires Serialisable(body)
    ensures LegacyIndirect(number, generation, body) ==
      ObjHeader(number, generation) + "\n" + Data(body) + "\n" + "endobj"
    ensures Split(LegacyIndirect(number, generation, body), '\n')[0] == ObjHeader(number, generation)
  {
    var h, b, e := ObjHeader(number, generation), Data(body), "endobj";
    JoinThree(h, b, e, "\n");
    assert h + "\n" + b + "\n" + e == h + ['\n'] + (b + "\n" + e);
    SplitFirst(h, b + "\n" + e, '\n');
  }

  // ---------------------------------------------------------------------
  // Painting operators (ISO 32000-1, section 8.5.3, Tables 59 and 60)

  /** The ways of painting a path that the writer offers. */
  datatype Painting = StrokePath | CloseAndStrokePath | FillPath | FillAndStrokePath | CloseFillAndStrokePath

  /** The operator ISO 32000-1 Tables 59 and 60 assign to each way of painting,
      with the even-odd rule when `evenOdd` (the fill operators only). */
  function StandardOperator(p: Painting, evenOdd: bool): string
  {
    match p
    case StrokePath => "S"
    case CloseAndStrokePath => "s"
    case FillPath => if evenOdd then "f*" else "f"
    case FillAndStrokePath => if evenOdd then "B*" else "B"
    case CloseFillAndStrokePath => if evenOdd then "b*" else "b"
  }

  /** `fill`, `fill_and_stroke` and `fill_stroke_and_close` name their rule:
      `'winding'` gives the nonzero winding number operator, `'even-odd'` the
      starred one, and any other name appends nothing. */
  function RuleOperator(rule: string, nonzero: string, evenOdd: string): Option<string>
  {
    if rule == "winding" then Some(nonzero)
    else if rule == "even-odd" then Some(evenOdd)
    else None
  }

  /** The stream after a painting method that chose `op`. */
  function Painted(ts: seq<LToken>, op: Option<string>): (r: seq<LToken>)
    ensures op.None? ==> r == ts
    ensures op.Some? ==> |r| == |ts| + 1 && r[..|ts|] == ts && r[|ts|] == LOp(op.value)
  {
    if op.Some? then ts + [LOp(op.value)] else ts
  }

  /** The three rule-taking methods emit exactly the operators of Table 60: the
      nonzero winding number rule for `'winding'`, the even-odd rule for
      `'even-odd'`, nothing for any other name. */
  lemma {:induction false} RuleOperatorsStandard(rule: string)
    ensures var fills := [RuleOperator(rule, "f", "f*"), RuleOperator(rule, "B", "B*"), RuleOperator(rule, "b", "b*")];
      var kinds := [FillPath, FillAndStrokePath, CloseFillAndStrokePath];
      forall k :: 0 <= k < 3 ==>
        && (fills[k].Some? <==> rule == "winding" || rule == "even-odd")
        && (fills[k].Some? ==> fills[k].value == StandardOperator(kinds[k], rule == "even-odd"))
  {
  }

  /** The stroking operators of the earlier writer, as written: `stroke` appends
      `s` and `stroke_and_close` appends `S`. */
  function AsWrittenStrokeOperator(p: Painting): string
    requires p == StrokePath || p == CloseAndStrokePath
  {
    if p == StrokePath then "s" else "S"
  }

  /** As written, `stroke` and `stroke_and_close` are swapped: each emits the
      operator Table 59 assigns to the other, so `stroke()` closes the path and
      `stroke_and_close()` leaves it open. */
  lemma {:induction false} StrokeOperatorsSwapped()
    ensures AsWrittenStrokeOperator(StrokePath) == StandardOperator(CloseAndStrokePath, false)
    ensures AsWrittenStrokeOperator(CloseAndStrokePath) == StandardOperator(StrokePath, false)
    ensures AsWrittenStrokeOperator(StrokePath) != StandardOperator(StrokePath, false)
    ensures AsWrittenStrokeOperator(CloseAndStrokePath) != StandardOperator(CloseAndStrokePath, false)
  {
  }

  // ---------------------------------------------------------------------
  // `move_to`

  /** `f'{x} {y} m'`. */
  function MoveOperation(x: int, y: int): string
  {
    Operation([Num(x), Num(y)], "m")
  }

  /** `move_to(x, y)` on a stream holding `ts`: a last entry whose final character
      is `m` is replaced, any other last entry kept; `None` when the source raises
      (the last entry is an `Object`, which cannot be indexed, or an empty `str`). */
  function MovedTo(ts: seq<LToken>, x: int, y: int): Option<seq<LToken>>
  {
    var op := LOp(MoveOperation(x, y));
    if |ts| == 0 then Some([op])
    else
      match ts[|ts| - 1]
      case LNested(_) => None
      case LOp(s) =>
        if |s| == 0 then None
        else if s[|s| - 1] == 'm' then Some(ts[..|ts| - 1] + [op])
        else Some(ts + [op])
  }

  /** Whether a stream's last entry is a `str` ending in `m` (a pending move). */
  predicate EndsWithMove(ts: seq<LToken>)
  {
    |ts| > 0 && ts[|ts| - 1].LOp? && |ts[|ts| - 1].s| > 0 && ts[|ts| - 1].s[|ts[|ts| - 1].s| - 1] == 'm'
  }

  lemma {:induction false} MoveOperationEndsWithMove(x: int, y: int)
    ensures EndsWithMove([LOp(MoveOperation(x, y))])
  {
    JoinThree(Num(x), Num(y), "m", " ");
    assert [Num(x), Num(y)] + ["m"] == [Num(x), Num(y), "m"];
  }

  /** `move_to` fails exactly when the last entry is an `Object` or an empty `str`;
      otherwise the new move ends the stream, preceded by the old entries with a
      pending move dropped (and only then). */
  lemma {:induction false} MovedToSpec(ts: seq<LToken>, x: int, y: int)
    ensures MovedTo(ts, x, y).None? <==>
      |ts| > 0 && (ts[|ts| - 1].LNested? || ts[|ts| - 1].s == [])
    ensures MovedTo(ts, x, y).Some? ==>
      var r := MovedTo(ts, x, y).value;
      && |r| > 0 && r[|r| - 1] == LOp(MoveOperation(x, y))
      && r[..|r| - 1] == if EndsWithMove(ts) then ts[..|ts| - 1] else ts
  {
    if MovedTo(ts, x, y).Some? {
      var r := MovedTo(ts, x, y).value;
      var op := LOp(MoveOperation(x, y));
      if EndsWithMove(ts) {
        assert r == ts[..|ts| - 1] + [op];
      } else {
        assert r == ts + [op];
      }
    }
  }

  /** Consecutive `move_to`s collapse: the second one undoes the first, leaving the
      stream as if only the second had been made. */
  lemma {:induction false} MoveToCollapses(ts: seq<LToken>, x1: int, y1: int, x2: int, y2: int)
    requires MovedTo(ts, x1, y1).Some?
    ensures MovedTo(MovedTo(ts, x1, y1).value, x2, y2) == MovedTo(ts, x2, y2)
  {
    var t1 := MovedTo(ts, x1, y1).value;
    MovedToSpec(ts, x1, y1);
    MovedToSpec(ts, x2, y2);
    MoveOperationEndsWithMove(x1, y1);
    assert EndsWithMove(t1);
    MovedToSpec(t1, x2, y2);
    assert MovedTo(ts, x2, y2).Some?;
  }

  // ---------------------------------------------------------------------
  // Objects

  /** Any object of the earlier writer: the identity fields every `Object` has and
      the `PDF` writer updates, and the body its class and contents give it. */
  class LegacyObject {
    var number: Option<nat>
    var offset: nat
    var generation: nat
    var free: bool    // `free == 'f'`; the source stores 'n' or 'f'
    var body: LNode

    /** `Object.__init__` together with the subclass's own initialiser. */
    constructor (body: LNode)
      ensures number == None && offset == 0 && generation == 0 && !free
      ensures this.body == body
    {
      number := None;
      offset := 0;
      generation := 0;
      free := false;
      this.body := body;
    }

    function Indirect(): string
      reads this`number, this`generation, this`body
      requires Serialisable(body)
    {
      LegacyIndirect(number, generation, body)
    }

    function Reference(): string
      reads this`number, this`generation
    {
      ReferenceText(number, generation)
    }

    predicate IsStream()
      reads this`body
    {
      body.LStream?
    }

    /** `self.stream.append(token)`. */
    method Append(token: string)
      requires IsStream()
      modifies this`body
      ensures IsStream() && body.tokens == old(body.tokens) + [LOp(token)]
    {
      body := LStream(body.tokens + [LOp(token)]);
    }

    method Clip()
      requires IsStream()
      modifies this`body
      ensures IsStream() && body.tokens == old(body.tokens) + [LOp("W")]
    {
      Append("W");
    }

    method Close()
      requires IsStream()
      modifies this`body
      ensures IsStream() && body.tokens == old(body.tokens) + [LOp("h")]
    {
      Append("h");
    }

    method CurveTo(x1: int, y1: int, x2: int, y2: int, x3: int, y3: int)
      requires IsStream()
      modifies this`body
      ensures IsStream() && body.tokens == old(body.tokens) +
        [LOp(Operation([Num(x1), Num(y1), Num(x2), Num(y2), Num(x3), Num(y3)], "c"))]
    {
      Append(Operation([Num(x1), Num(y1), Num(x2), Num(y2), Num(x3), Num(y3)], "c"));
    }

    method End()
      requires IsStream()
      modifies this`body
      ensures IsStream() && body.tokens == old(body.tokens) + [LOp("n")]
    {
      Append("n");
    }

    /** A painting method: appends the operator its rule chose, if any. */
    method Paint(op: Option<string>)
      requires IsStream()
      modifies this`body
      ensures IsStream() && body.tokens == Painted(old(body.tokens), op)
    {
      if op.Some? {
        Append(op.value);
      }
    }

    method Fill(rule: string)
      requires IsStream()
      modifies this`body
      ensures IsStream() && body.tokens == Painted(old(body.tokens), RuleOperator(rule, "f", "f*"))
    {
      Paint(RuleOperator(rule, "f", "f*"));
    }

    method FillAndStroke(rule: string)
      requires IsStream()
      modifies this`body
      ensures IsStream() && body.tokens == Painted(old(body.tokens), RuleOperator(rule, "B", "B*"))
    {
      Paint(RuleOperator(rule, "B", "B*"));
    }

    method FillStrokeAndClose(rule: string)
      requires IsStream()
      modifies this`body
      ensures IsStream() && body.tokens == Painted(old(body.tokens), RuleOperator(rule, "b", "b*"))
    {
      Paint(RuleOperator(rule, "b", "b*"));
    }

    method LineTo(x: int, y: int)
      requires IsStream()
      modifies this`body
      ensures IsStream() && body.tokens == old(body.tokens) + [LOp(Operation([Num(x), Num(y)], "l"))]
    {
      Append(Operation([Num(x), Num(y)], "l"));
    }

    /** `move_to`: `ok` is false where the source raises, and the stream is then unchanged. */
    method MoveTo(x: int, y: int) returns (ok: bool)
      requires IsStream()
      modifies this`body
      ensures ok == MovedTo(old(body.tokens), x, y).Some?
      ensures IsStream() && body.tokens == if ok then MovedTo(old(body.tokens), x, y).value else old(body.tokens)
    {
      var ts := body.tokens;
      if |ts| > 0 {
        match ts[|ts| - 1]
        case LNested(_) =>
          return false;
        case LOp(s) =>
          if |s| == 0 {
            return false;
          }
          if s[|s| - 1] == 'm' {
            body := LStream(ts[..|ts| - 1]);
          }
      }
      Append(MoveOperation(x, y));
      ok := true;
    }

    method Rectangle(x: int, y: int, width: int, height: int)
      requires IsStream()
      modifies this`body
      ensures IsStream() && body.tokens == old(body.tokens) +
        [LOp(Operation([Num(x), Num(y), Num(width), Num(height)], "re"))]
    {
      Append(Operation([Num(x), Num(y), Num(width), Num(height)], "re"));
    }

    /** `stroke`, with the operator of Table 59 (`S`); see `StrokeOperatorsSwapped`. */
    method Stroke()
      requires IsStream()
      modifies this`body
      ensures IsStream() && body.tokens == old(body.tokens) + [LOp(StandardOperator(StrokePath, false))]
    {
      Append(StandardOperator(StrokePath, false));
    }

    /** `stroke_and_close`, with the operator of Table 59 (`s`). */
    method StrokeAndClose()
      requires IsStream()
      modifies this`body
      ensures IsStream() && body.tokens == old(body.tokens) + [LOp(StandardOperator(CloseAndStrokePath, false))]
    {
      Append(StandardOperator(CloseAndStrokePath, false));
    }
  }
}
