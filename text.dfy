/** Sequence and number formatting helpers shared by both writer variants:
    Python's `sep.join(parts)` and `s.split(sep)` on a one-element separator,
    `str(n)` for integers and the zero-padded `f'{n:0W}'` format. */
module Text {

  datatype Option<+T> = None | Some(value: T)

  /** Concatenation is associative; stated once so that proofs can cite it. */
  lemma {:induction false} AppendAssoc<T>(a: seq<T>, b: seq<T>, c: seq<T>)
    ensures (a + b) + c == a + (b + c)
  {
  }

  /** The three parts of a concatenation are found again at their offsets. */
  lemma {:induction false} ConcatSlices<T>(a: seq<T>, b: seq<T>, c: seq<T>)
    ensures (a + b + c)[..|a|] == a
    ensures (a + b + c)[|a|..|a| + |b|] == b
    ensures (a + b + c)[|a| + |b|..] == c
  {
  }

  /** Regroupings of concatenations that the layout proofs cite by name. */
  lemma {:induction false} Regroup<T>(h: seq<T>, p: seq<T>, c: seq<T>, q: seq<T>, t: seq<T>)
    ensures (h + ((p + c) + q)) + t == ((h + p) + c) + (q + t)
  {
  }

  lemma {:induction false} Flatten9<T>(a: seq<T>, b: seq<T>, c: seq<T>, d: seq<T>, e: seq<T>, f: seq<T>, g: seq<T>, h: seq<T>, i: seq<T>)
    ensures a + (((b + c) + d) + ((e + f) + ((g + h) + i))) == a + b + c + d + e + f + g + h + i
  {
  }

  /** The first two parts of a left-nested concatenation are its prefix. */
  lemma {:induction false} PrefixOfNested<T>(p: seq<T>, q: seq<T>, r: seq<T>, s: seq<T>, t: seq<T>, u: seq<T>)
    ensures |p + q| <= |((((p + q) + r) + s) + t) + u|
    ensures (((((p + q) + r) + s) + t) + u)[..|p + q|] == p + q
  {
    var f := ((((p + q) + r) + s) + t) + u;
    assert forall i :: 0 <= i < |p + q| ==> f[i] == (p + q)[i];
  }

  /** `h` is found in `s` starting at index `i`. */
  predicate OccursAt<T(==)>(s: seq<T>, i: int, h: seq<T>)
  {
    0 <= i && i + |h| <= |s| && s[i..i + |h|] == h
  }

  /** What follows a prefix `p` of `s` is found again at offset `|p|`. */
  lemma {:induction false} SliceAfterPrefix<T>(p: seq<T>, l: seq<T>, s: seq<T>)
    requires p + l <= s
    ensures OccursAt(s, |p|, l)
  {
    assert forall j :: |p| <= j < |p| + |l| ==> s[j] == (p + l)[j];
  }

  /** A prefix `h` of the middle part `c` is found at offset `|b|` of `b + c + a`. */
  lemma {:induction false} SliceOfMiddle<T>(b: seq<T>, c: seq<T>, a: seq<T>, h: seq<T>)
    requires |h| <= |c| && c[..|h|] == h
    ensures OccursAt(b + c + a, |b|, h)
  {
    assert forall i :: 0 <= i < |h| ==> (b + c + a)[|b| + i] == c[i];
  }

  /** The parts one after another, with nothing between them. */
  function Flatten<T>(parts: seq<seq<T>>): seq<T>
  {
    if |parts| == 0 then [] else Flatten(parts[..|parts| - 1]) + parts[|parts| - 1]
  }

  lemma {:induction false} FlattenStep<T>(parts: seq<seq<T>>, i: nat)
    requires i < |parts|
    ensures Flatten(parts[..i + 1]) == Flatten(parts[..i]) + parts[i]
  {
    assert parts[..i + 1][..i] == parts[..i];
  }

  lemma {:induction false} FlattenAppend<T>(a: seq<seq<T>>, b: seq<seq<T>>)
    ensures Flatten(a + b) == Flatten(a) + Flatten(b)
    decreases |b|
  {
    if |b| == 0 {
      assert a + b == a;
    } else {
      var init := b[..|b| - 1];
      assert (a + b)[..|a + b| - 1] == a + init;
      FlattenAppend(a, init);
    }
  }

  /** The flattening of the parts is the parts before `k`, part `k`, and the parts after. */
  lemma {:induction false} FlattenSplit<T>(parts: seq<seq<T>>, k: nat)
    requires k < |parts|
    ensures Flatten(parts) == Flatten(parts[..k]) + parts[k] + Flatten(parts[k + 1..])
  {
    FlattenStep(parts, k);
    assert parts == parts[..k + 1] + parts[k + 1..];
    FlattenAppend(parts[..k + 1], parts[k + 1..]);
  }

  /** `sep.join(parts)`: the parts with `sep` between consecutive ones. */
  function Join<T>(parts: seq<seq<T>>, sep: seq<T>): seq<T>
  {
    if |parts| == 0 then []
    else if |parts| == 1 then parts[0]
    else parts[0] + sep + Join(parts[1..], sep)
  }

  /** What writing every part as its own line produces: each part followed by `d`. */
  function Lines<T>(parts: seq<seq<T>>, d: T): seq<T>
  {
    if |parts| == 0 then [] else Lines(parts[..|parts| - 1], d) + parts[|parts| - 1] + [d]
  }

  /** Index of the first `d` in `s`, or `|s|` when there is none. */
  function IndexOf<T(==)>(s: seq<T>, d: T): (k: nat)
    ensures k <= |s|
    ensures k < |s| ==> s[k] == d
    ensures forall j :: 0 <= j < k ==> s[j] != d
  {
    if |s| == 0 then 0 else if s[0] == d then 0 else 1 + IndexOf(s[1..], d)
  }

  /** `s.split(d)`: the maximal runs of `s` between occurrences of `d`. */
  function Split<T(==)>(s: seq<T>, d: T): (r: seq<seq<T>>)
    ensures |r| >= 1
    ensures forall k :: 0 <= k < |r| ==> d !in r[k]
    decreases |s|
  {
    var i := IndexOf(s, d);
    if i == |s| then [s] else [s[..i]] + Split(s[i + 1..], d)
  }

  lemma {:induction false} JoinSplit<T>(s: seq<T>, d: T)
    ensures Join(Split(s, d), [d]) == s
    decreases |s|
  {
    var i := IndexOf(s, d);
    if i < |s| {
      var rest := Split(s[i + 1..], d);
      JoinSplit(s[i + 1..], d);
      assert Split(s, d) == [s[..i]] + rest;
      assert Join(Split(s, d), [d]) == s[..i] + [d] + Join(rest, [d]);
      assert s == s[..i] + [d] + s[i + 1..];
    }
  }

  lemma {:induction false} IndexOfJoin<T>(a: seq<T>, b: seq<T>, d: T)
    requires d !in a
    ensures IndexOf(a + [d] + b, d) == |a|
    decreases |a|
  {
    if |a| > 0 {
      assert (a + [d] + b)[1..] == a[1..] + [d] + b;
      IndexOfJoin(a[1..], b, d);
    }
  }

  /** The first piece of a split is everything before the first separator. */
  lemma {:induction false} SplitFirst<T>(a: seq<T>, b: seq<T>, d: T)
    requires d !in a
    ensures Split(a + [d] + b, d)[0] == a
  {
    IndexOfJoin(a, b, d);
    assert (a + [d] + b)[..|a|] == a;
  }

  lemma {:induction false} SplitJoin<T>(parts: seq<seq<T>>, d: T)
    requires |parts| >= 1
    requires forall k :: 0 <= k < |parts| ==> d !in parts[k]
    ensures Split(Join(parts, [d]), d) == parts
    decreases |parts|
  {
    if |parts| == 1 {
      assert IndexOf(parts[0], d) == |parts[0]|;
    } else {
      var tail := Join(parts[1..], [d]);
      var s := parts[0] + [d] + tail;
      IndexOfJoin(parts[0], tail, d);
      assert s[..|parts[0]|] == parts[0];
      assert s[|parts[0]| + 1..] == tail;
      SplitJoin(parts[1..], d);
      assert Split(s, d) == [parts[0]] + Split(tail, d);
      assert parts == [parts[0]] + parts[1..];
    }
  }

  lemma {:induction false} LinesJoin<T>(parts: seq<seq<T>>, d: T)
    requires |parts| >= 1
    ensures Lines(parts, d) == Join(parts, [d]) + [d]
    decreases |parts|
  {
    if |parts| > 1 {
      var init := parts[..|parts| - 1];
      LinesJoin(init, d);
      JoinSnoc(init, parts[|parts| - 1], [d]);
      assert init + [parts[|parts| - 1]] == parts;
    }
  }

  lemma {:induction false} JoinSnoc<T>(parts: seq<seq<T>>, last: seq<T>, sep: seq<T>)
    requires |parts| >= 1
    ensures Join(parts + [last], sep) == Join(parts, sep) + sep + last
    decreases |parts|
  {
    if |parts| > 1 {
      assert (parts + [last])[1..] == parts[1..] + [last];
      JoinSnoc(parts[1..], last, sep);
    }
  }

  lemma {:induction false} JoinThree<T>(a: seq<T>, b: seq<T>, c: seq<T>, sep: seq<T>)
    ensures Join([a, b, c], sep) == a + sep + b + sep + c
  {
    assert [b, c][1..] == [c];
    assert Join([b, c], sep) == b + sep + c;
    assert [a, b, c][1..] == [b, c];
  }

  lemma {:induction false} JoinFour<T>(a: seq<T>, b: seq<T>, c: seq<T>, d: seq<T>, sep: seq<T>)
    ensures Join([a, b, c, d], sep) == a + sep + b + sep + c + sep + d
  {
    assert [a, b, c, d][1..] == [b, c, d];
    JoinThree(b, c, d, sep);
  }

  /** The length of a join: every part plus one separator between each pair. */
  lemma {:induction false} JoinLength<T>(parts: seq<seq<T>>, sep: seq<T>, total: nat)
    requires |parts| >= 1
    requires total == SumLengths(parts)
    ensures |Join(parts, sep)| == total + (|parts| - 1) * |sep|
    decreases |parts|
  {
    if |parts| > 1 {
      JoinLength(parts[1..], sep, SumLengths(parts[1..]));
    }
  }

  function SumLengths<T>(parts: seq<seq<T>>): nat
  {
    if |parts| == 0 then 0 else |parts[0]| + SumLengths(parts[1..])
  }

  // ---------------------------------------------------------------------
  // Decimal text of integers

  predicate IsDigit(c: char) { '0' <= c <= '9' }

  predicate AllDigits(s: string) { forall i :: 0 <= i < |s| ==> IsDigit(s[i]) }

  function DigitChar(d: nat): (c: char)
    requires d < 10
    ensures IsDigit(c) && c as int - '0' as int == d
  {
    ('0' as int + d) as char
  }

  function DigitValue(c: char): nat
    requires IsDigit(c)
  {
    c as int - '0' as int
  }

  /** `str(n)` for a non-negative integer: decimal digits, no leading zero. */
  function NatToString(n: nat): (r: string)
    ensures |r| >= 1 && AllDigits(r)
    ensures |r| > 1 ==> r[0] != '0'
  {
    if n < 10 then [DigitChar(n)] else NatToString(n / 10) + [DigitChar(n % 10)]
  }

  /** `str(i)` for any integer: a minus sign only when negative. */
  function IntToString(i: int): (r: string)
    ensures |r| >= 1 && (r[0] == '-' || IsDigit(r[0])) && AllDigits(r[1..])
    ensures '\n' !in r && ' ' !in r
  {
    if i < 0 then "-" + NatToString(-i) else NatToString(i)
  }

  /** Reads a run of decimal digits back as the number it denotes. */
  function ParseNat(s: string): nat
    requires AllDigits(s)
  {
    if |s| == 0 then 0 else 10 * ParseNat(s[..|s| - 1]) + DigitValue(s[|s| - 1])
  }

  /** Reads an optionally negative decimal integer back. */
  function ParseInt(s: string): int
    requires |s| >= 1
    requires AllDigits(s[1..]) && (s[0] == '-' || IsDigit(s[0]))
  {
    if s[0] == '-' then -(ParseNat(s[1..]) as int) else ParseNat(s) as int
  }

  lemma {:induction false} ParseNatToString(n: nat)
    ensures ParseNat(NatToString(n)) == n
  {
    if n >= 10 {
      var s := NatToString(n);
      assert s[..|s| - 1] == NatToString(n / 10);
      ParseNatToString(n / 10);
    }
  }

  lemma {:induction false} ParseIntToString(i: int)
    ensures |IntToString(i)| >= 1
    ensures AllDigits(IntToString(i)[1..])
    ensures ParseInt(IntToString(i)) == i
  {
    var s := IntToString(i);
    if i < 0 {
      assert s[1..] == NatToString(-i);
      ParseNatToString(-i);
      assert s[0] == '-';
    } else {
      var t := NatToString(i);
      assert IsDigit(t[0]);
      ParseNatToString(i);
    }
  }

  function Pow10(w: nat): nat
  {
    if w == 0 then 1 else 10 * Pow10(w - 1)
  }

  /** `str(n)` fits in `w` characters exactly when `n < 10^w`. */
  lemma {:induction false} NatToStringFits(n: nat, w: nat)
    requires w >= 1
    ensures |NatToString(n)| <= w <==> n < Pow10(w)
    decreases w
  {
    if n >= 10 {
      if w == 1 {
        assert Pow10(1) == 10;
      } else {
        NatToStringFits(n / 10, w - 1);
      }
    } else {
      PowAtLeast10(w);
    }
  }

  lemma {:induction false} PowAtLeast10(w: nat)
    requires w >= 1
    ensures Pow10(w) >= 10
  {
    if w > 1 { PowAtLeast10(w - 1); }
  }

  function Repeat(c: char, k: nat): (r: string)
    ensures |r| == k && forall i :: 0 <= i < k ==> r[i] == c
  {
    if k == 0 then [] else Repeat(c, k - 1) + [c]
  }

  /** `f'{n:0W}'`: the decimal text of `n` padded on the left with zeros to width `w`. */
  function ZeroPadded(n: nat, w: nat): (r: string)
    ensures AllDigits(r)
  {
    var s := NatToString(n);
    if |s| >= w then s else Repeat('0', w - |s|) + s
  }

  lemma {:induction false} ParseNatLeadingZeros(k: nat, s: string)
    requires AllDigits(s)
    ensures AllDigits(Repeat('0', k) + s)
    ensures ParseNat(Repeat('0', k) + s) == ParseNat(s)
    decreases |s|
  {
    if |s| == 0 {
      ParseNatZeros(k);
      assert Repeat('0', k) + s == Repeat('0', k);
    } else {
      var t := Repeat('0', k) + s;
      assert t[..|t| - 1] == Repeat('0', k) + s[..|s| - 1];
      ParseNatLeadingZeros(k, s[..|s| - 1]);
    }
  }

  lemma {:induction false} ParseNatZeros(k: nat)
    ensures ParseNat(Repeat('0', k)) == 0
  {
    if k > 0 {
      assert Repeat('0', k)[..k - 1] == Repeat('0', k - 1);
      ParseNatZeros(k - 1);
    }
  }

  /** The zero-padded form is `w` characters long exactly when `n` fits, and it reads back as `n`. */
  lemma {:induction false} ZeroPaddedSpec(n: nat, w: nat)
    requires w >= 1
    ensures |ZeroPadded(n, w)| == w <==> n < Pow10(w)
    ensures ParseNat(ZeroPadded(n, w)) == n
  {
    NatToStringFits(n, w);
    ParseNatToString(n);
    var s := NatToString(n);
    if |s| < w {
      ParseNatLeadingZeros(w - |s|, s);
    } else if |s| == w {
    } else {
      assert |ZeroPadded(n, w)| > w;
    }
  }
}
