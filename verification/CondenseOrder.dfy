// Where the lines of a condensed output stand: read back, it is the head, one
// marker line with the exact counts, the rescued lines and the tail, in order.

module CondenseOrder {
  import opened Utf8
  import Utf8Cut
  import opened Decimal
  import opened Condense
  import opened CondenseLaws

  // ------------------------------------------------------------------------
  // Reading an output back

  /** The lines of a text; an unfinished last line counts. */
  function ReadLines(b: Bytes, cur: Line): seq<Line>
    decreases |b|
  {
    if b == [] then (if cur == [] then [] else [cur])
    else if b[0] == 10 then [cur] + ReadLines(b[1..], [])
    else ReadLines(b[1..], cur + [b[0]])
  }

  predicate OneLine(l: Line) {
    forall i | 0 <= i < |l| :: l[i] != 10
  }

  predicate AllOneLine(ls: seq<Line>) {
    forall i | 0 <= i < |ls| :: OneLine(ls[i])
  }

  lemma {:induction false} ReadOne(l: Line, rest: Bytes, cur: Line)
    requires OneLine(l)
    ensures ReadLines(l + ([10] + rest), cur) == [cur + l] + ReadLines(rest, [])
    decreases |l|
  {
    if l == [] {
      assert l + ([10] + rest) == [10] + rest && ([10] + rest)[1..] == rest && cur + l == cur;
    } else {
      assert (l + ([10] + rest))[1..] == l[1..] + ([10] + rest);
      ReadOne(l[1..], rest, cur + [l[0]]);
      assert cur + [l[0]] + l[1..] == cur + l;
    }
  }

  lemma {:induction false} ReadPrinted(ls: seq<Line>, rest: Bytes)
    requires AllOneLine(ls)
    ensures ReadLines(Print(ls) + rest, []) == ls + ReadLines(rest, [])
    decreases |ls|
  {
    hide OneLine, ReadLines;
    if ls == [] {
      assert Print(ls) + rest == rest;
    } else {
      var n := |ls| - 1;
      var front, l := ls[..n], ls[n];
      assert Print(ls) == Print(front) + (l + [10]);
      assert Print(ls) + rest == Print(front) + (l + ([10] + rest));
      ReadPrinted(front, l + ([10] + rest));
      ReadOne(l, rest, []);
      assert [] + l == l && ls == front + [l];
    }
  }

  // ------------------------------------------------------------------------
  // The marker and the rendered lines tell their numbers

  /** The number that the digits `s[i..j]` stand for is `n`. */
  predicate Tells(s: Bytes, i: nat, j: nat, n: nat) {
    i <= j <= |s| && Digits(s[i..j]) && Value(s[i..j]) == n
  }

  /** `front`, the digits of `n`, and `back` behind one another. */
  lemma NumberBetween(front: Bytes, n: nat, back: Bytes)
    ensures var s := front + Show(n) + back; var j := |front| + |Show(n)|;
      Tells(s, |front|, j, n) && s[..|front|] == front && s[j..] == back
  {
    hide Digits, Value;
    ValueShow(n);
    var s, j := front + Show(n) + back, |front| + |Show(n)|;
    assert s[|front|..j] == Show(n);
    ShowDigits(n);
  }

  lemma ShowDigits(n: nat)
    ensures Digits(Show(n))
  {
  }

  function MarkerEnd(notable: bool): Line {
    B(" bytes") + (if notable then B("; notable lines kept below") else []) + B("]...")
  }

  /** The marker without its line end. */
  function MarkerLine(lines: nat, bytes: nat, notable: bool): Line {
    B("...[omitted ") + Show(lines) + B(" lines, ~") + Show(bytes) + MarkerEnd(notable)
  }

  lemma Associative(a: Bytes, b: Bytes, c: Bytes)
    ensures a + (b + c) == a + b + c
  {
  }

  lemma {:induction false} WordIsLine(w: string)
    requires forall i | 0 <= i < |w| :: w[i] != '\n' && w[i] < 128 as char
    ensures OneLine(B(w))
  {
  }

  lemma BothLines(a: Line, b: Line)
    requires OneLine(a) && OneLine(b)
    ensures OneLine(a + b)
  {
  }

  lemma ShowOneLine(n: nat)
    ensures OneLine(Show(n))
  {
  }

  lemma EndWords()
    ensures B("]...\n") == B("]...") + [10]
  {
  }

  lemma MarkerEndsLine(notable: bool)
    ensures OneLine(MarkerEnd(notable))
  {
    hide OneLine, B;
    WordIsLine(" bytes");
    WordIsLine("]...");
    WordIsLine("; notable lines kept below");
    WordIsLine("");
    NoWord();
    BothLines(B(" bytes"), if notable then B("; notable lines kept below") else []);
    BothLines(B(" bytes") + (if notable then B("; notable lines kept below") else []), B("]..."));
  }

  lemma NoWord()
    ensures B("") == []
  {
  }

  /** The marker is one line. */
  lemma MarkerIsLine(lines: nat, bytes: nat, notable: bool)
    ensures Marker(lines, bytes, notable) == MarkerLine(lines, bytes, notable) + [10]
    ensures OneLine(MarkerLine(lines, bytes, notable))
  {
    hide OneLine, B, Show;
    var (a, x, b, y) := (B("...[omitted "), Show(lines), B(" lines, ~"), Show(bytes));
    var extra := if notable then B("; notable lines kept below") else [];
    EndWords();
    Associative(a + x + b + y, B(" bytes"), extra);
    Associative(a + x + b + y, B(" bytes") + extra, B("]..."));
    Associative(a + x + b + y + B(" bytes") + extra, B("]..."), [10]);
    WordIsLine("...[omitted ");
    WordIsLine(" lines, ~");
    ShowOneLine(lines);
    ShowOneLine(bytes);
    MarkerEndsLine(notable);
    BothLines(a, x);
    BothLines(a + x, b);
    BothLines(a + x + b, y);
    BothLines(a + x + b + y, MarkerEnd(notable));
  }

  /** The number behind the marker's opening words is the count of lines, the next one the count of bytes, and only
      with rescued lines the marker says so. */
  lemma MarkerTells(lines: nat, bytes: nat, notable: bool) returns (i: nat, j: nat)
    ensures var m := MarkerLine(lines, bytes, notable);
      && 12 <= i && i + 9 <= j <= |m|
      && m[..12] == B("...[omitted ") && Tells(m, 12, i, lines)
      && m[i..i + 9] == B(" lines, ~") && Tells(m, i + 9, j, bytes)
      && m[j..] == MarkerEnd(notable)
  {
    hide B, Show, Tells, MarkerEnd;
    var (a, x, b, y) := (B("...[omitted "), Show(lines), B(" lines, ~"), Show(bytes));
    var m, end := MarkerLine(lines, bytes, notable), MarkerEnd(notable);
    WordLengths();
    i := 12 + |x|;
    j := i + 9 + |y|;
    Associative(a + x, b, y);
    Associative(a + x, b + y, end);
    NumberBetween(a, lines, b + y + end);
    NumberBetween(a + x + b, bytes, end);
    assert m[i..i + 9] == b;
  }

  lemma WordLengths()
    ensures |B("...[omitted ")| == 12 && |B(" lines, ~")| == 9
  {
  }

  /** A rendered line is the line, and for a run of lines the number of its repetitions behind it. */
  lemma RenderTells(e: Entry)
    ensures e.raw <= Render(e) && (e.cnt <= 1 ==> Render(e) == e.raw)
    ensures e.cnt > 1 ==> var (r, i, j) := (Render(e), |e.raw| + 11, |Render(e)| - 2);
      i <= j && r[|e.raw|..i] == B(" (repeated ") && Tells(r, i, j, e.cnt) && r[j..] == B("x)")
  {
    hide Digits, Value;
    if e.cnt > 1 {
      var a := B(" (repeated ");
      NumberBetween(e.raw + a, e.cnt, B("x)"));
      assert Render(e)[|e.raw|..|e.raw| + 11] == a;
    }
  }

  // ------------------------------------------------------------------------
  // The output, read back

  lemma RenderOneLine(e: Entry)
    requires OneLine(e.raw)
    ensures OneLine(Render(e))
  {
    if e.cnt > 1 { ShowOneLine(e.cnt); }
  }

  lemma {:induction false} FoldedOneLine(s: Settings, lines: seq<Line>)
    requires AllOneLine(lines)
    ensures forall i | 0 <= i < |Folded(s, lines)| :: OneLine(Folded(s, lines)[i].raw)
  {
    hide Capped, OneLine;
    if lines != [] {
      var front, l := lines[..|lines| - 1], lines[|lines| - 1];
      FoldedOneLine(s, front);
      CappedOneLine(s, l);
    }
  }

  lemma CappedOneLine(s: Settings, l: Line)
    requires OneLine(l)
    ensures OneLine(Capped(s, l))
  {
    if 0 < s.lineMax < |l| {
      CutOneLine(l, s.lineMax);
    }
  }

  lemma CutOneLine(l: Line, m: nat)
    requires OneLine(l)
    ensures OneLine(Utf8Cut.StripPartial(Utf8Cut.Head(l, m)))
  {
  }

  lemma PartsOneLine(ren: seq<Line>, p: Plan)
    requires AllOneLine(ren) && p.head <= |ren| && p.tail <= |ren|
    ensures AllOneLine(ren[..p.head]) && AllOneLine(ren[p.tail..]) && AllOneLine(At(ren, p.rescued))
  {
  }

  /** The printed text begins with the head and ends in the tail. */
  lemma EndsKept(es: seq<Entry>, p: Plan)
    requires InRange(es, p)
    ensures var (ren, out) := (RenderAll(es), Output(es, p)); var last := Print(ren[p.tail..]);
      Print(ren[..p.head]) <= out && |last| <= |out| && out[|out| - |last|..] == last
  {
    hide Print, Marker, Lines, InputBytes, At;
  }

  /** A selected output is the head, the marker line with exactly the omitted counts, the rescued lines and the tail. */
  lemma OutputReads(es: seq<Entry>, p: Plan)
    requires InRange(es, p) && AllOneLine(RenderAll(es))
    ensures var ren := RenderAll(es);
      var marker := MarkerLine(Lines(es, p.head, p.tail, p.rescued), InputBytes(es, p.head, p.tail, p.rescued),
                               p.rescued != []);
      ReadLines(Output(es, p), []) == ren[..p.head] + [marker] + At(ren, p.rescued) + ren[p.tail..]
  {
    hide Print, Marker, MarkerLine, Lines, InputBytes, At, ReadLines, OneLine, AllOneLine, RenderAll, Within;
    var ren := RenderAll(es);
    var (lines, bytes) := (Lines(es, p.head, p.tail, p.rescued), InputBytes(es, p.head, p.tail, p.rescued));
    MarkerIsLine(lines, bytes, p.rescued != []);
    PartsOneLine(ren, p);
    FourParts(ren[..p.head], MarkerLine(lines, bytes, p.rescued != []), At(ren, p.rescued), ren[p.tail..]);
  }

  lemma FourParts(a: seq<Line>, m: Line, b: seq<Line>, c: seq<Line>)
    requires AllOneLine(a) && OneLine(m) && AllOneLine(b) && AllOneLine(c)
    ensures ReadLines(Print(a) + (m + [10]) + Print(b) + Print(c), []) == a + [m] + b + c
  {
    hide Print, ReadLines, OneLine, AllOneLine;
    CostAppend(b, c);
    BothAll(b, c);
    Associative(Print(a) + (m + [10]), Print(b), Print(c));
    Associative(Print(a), m + [10], Print(b + c));
    Associative(m, [10], Print(b + c));
    ReadPrinted(a, m + ([10] + Print(b + c)));
    ReadOne(m, Print(b + c), []);
    ReadPrinted(b + c, []);
    ReadNothing();
    assert Print(b + c) + [] == Print(b + c) && [] + m == m && (b + c) + [] == b + c;
    assert a + ([m] + (b + c)) == a + [m] + b + c;
  }

  lemma BothAll(b: seq<Line>, c: seq<Line>)
    requires AllOneLine(b) && AllOneLine(c)
    ensures AllOneLine(b + c)
  {
    hide OneLine;
  }

  lemma ReadNothing()
    ensures ReadLines([], []) == []
  {
  }

  /** The indices of the printed lines, in the order of the output. */
  function Printed(es: seq<Entry>, p: Plan): seq<nat>
    requires InRange(es, p)
  {
    seq(p.head, i requires 0 <= i < p.head => i) + p.rescued
    + seq(|es| - p.tail, i requires 0 <= i < |es| - p.tail => p.tail + i)
  }

  /** The printed lines keep the order of the input, and none is printed twice. */
  lemma PrintedInOrder(s: Settings, es: seq<Entry>, available: int, p: Plan)
    requires Planned(s, es, available, p) && InRange(es, p)
    ensures Increasing(Printed(es, p)) && Within(Printed(es, p), 0, |es|)
    ensures var ren := RenderAll(es); At(ren, Printed(es, p)) == ren[..p.head] + At(ren, p.rescued) + ren[p.tail..]
  {
    hide Planned, RenderAll, Printed, At, Increasing;
    RescuedIncreasing(s, es, available, p);
    PrintedIncreases(es, p);
    PickedLines(RenderAll(es), es, p);
  }

  lemma PrintedIncreases(es: seq<Entry>, p: Plan)
    requires InRange(es, p) && Increasing(p.rescued)
    ensures Increasing(Printed(es, p)) && Within(Printed(es, p), 0, |es|)
  {
    var ks := Printed(es, p);
    forall i, j | 0 <= i < j < |ks|
      ensures ks[i] < ks[j] < |es|
    {
      var n := p.head + |p.rescued|;
      assert p.head <= i < n ==> ks[i] == p.rescued[i - p.head];
      assert p.head <= j < n ==> ks[j] == p.rescued[j - p.head];
    }
  }

  lemma PickedLines(ren: seq<Line>, es: seq<Entry>, p: Plan)
    requires InRange(es, p) && |ren| == |es|
    ensures At(ren, Printed(es, p)) == ren[..p.head] + At(ren, p.rescued) + ren[p.tail..]
  {
    var (got, want) := (At(ren, Printed(es, p)), ren[..p.head] + At(ren, p.rescued) + ren[p.tail..]);
    var n := p.head + |p.rescued|;
    forall i | 0 <= i < |want|
      ensures got[i] == want[i]
    {
      var k := Printed(es, p)[i];
      assert i < p.head ==> k == i;
      assert p.head <= i < n ==> k == p.rescued[i - p.head];
      assert n <= i ==> k == p.tail + (i - n);
    }
  }

  lemma RenderedOneLine(s: Settings, lines: seq<Line>)
    requires AllOneLine(lines)
    ensures AllOneLine(RenderAll(Folded(s, lines)))
  {
    hide OneLine, Render;
    var es := Folded(s, lines);
    FoldedOneLine(s, lines);
    forall i | 0 <= i < |es|
      ensures OneLine(RenderAll(es)[i])
    {
      RenderOneLine(es[i]);
    }
  }

  /** What the condenser prints, read back: every line; nothing; or head, marker, rescued lines and tail. */
  lemma CondensedReads(s: Settings, lines: seq<Line>, max: nat, o: Outcome, out: Bytes)
    requires AllOneLine(lines) && Condensed(s, Folded(s, lines), max, o, out)
    ensures var es := Folded(s, lines); var ren := RenderAll(es);
      match o
      case Whole => ReadLines(out, []) == ren
      case Nothing => out == []
      case Selected(p) =>
        var marker := MarkerLine(Lines(es, p.head, p.tail, p.rescued), InputBytes(es, p.head, p.tail, p.rescued),
                                 p.rescued != []);
        ReadLines(out, []) == ren[..p.head] + [marker] + At(ren, p.rescued) + ren[p.tail..]
  {
    hide OneLine, AllOneLine, ReadLines, Output, MarkerLine, Planned, Reserve, Lines, InputBytes, At, RenderAll, Print;
    var es := Folded(s, lines);
    RenderedOneLine(s, lines);
    match o
    case Whole =>
      ReadPrinted(RenderAll(es), []);
      ReadNothing();
      assert Print(RenderAll(es)) + [] == Print(RenderAll(es));
    case Nothing =>
    case Selected(p) => OutputReads(es, p);
  }

  // ------------------------------------------------------------------------
  // What is left out

  /** The entries `h` to `t` without the indices in `k`. */
  function Dropped(es: seq<Entry>, h: nat, t: nat, k: seq<nat>): seq<Entry>
    requires t <= |es|
    decreases t
  {
    if t <= h then [] else Dropped(es, h, t - 1, k) + (if t - 1 in k then [] else [es[t - 1]])
  }

  /** The two numbers of the marker are the count and the bytes, with their line ends, of the lines that the dropped
      entries stand for. */
  lemma {:induction false} DroppedCounts(es: seq<Entry>, h: nat, t: nat, k: seq<nat>)
    requires t <= |es|
    ensures var lines := Expand(Dropped(es, h, t, k));
      |lines| == Lines(es, h, t, k) && Cost(lines) == InputBytes(es, h, t, k)
    decreases t
  {
    hide Expand, Cost;
    if t <= h {
      NothingDropped();
    } else {
      DroppedCounts(es, h, t - 1, k);
      EntryCounts(Dropped(es, h, t - 1, k), es[t - 1]);
      assert Dropped(es, h, t - 1, k) + [] == Dropped(es, h, t - 1, k);
    }
  }

  lemma NothingDropped()
    ensures Expand([]) == [] && Cost([]) == 0
  {
  }

  lemma EntryCounts(es: seq<Entry>, e: Entry)
    ensures |Expand(es + [e])| == |Expand(es)| + e.cnt
    ensures Cost(Expand(es + [e])) == Cost(Expand(es)) + (|e.raw| + 1) * e.cnt
  {
    hide Cost;
    assert (es + [e])[..|es|] == es;
    CostAppend(Expand(es), Repeat(e.raw, e.cnt));
    RepeatCosts(e.raw, e.cnt);
  }

  lemma {:induction false} RepeatCosts(l: Line, n: nat)
    ensures Cost(Repeat(l, n)) == (|l| + 1) * n
  {
    if n > 0 {
      RepeatCosts(l, n - 1);
      assert Repeat(l, n)[..n - 1] == Repeat(l, n - 1);
      assert (|l| + 1) * n == (|l| + 1) * (n - 1) + (|l| + 1);
    }
  }

  /** A capped line is the line itself, or begins with the front of it, at most the cap and whole characters, and says
      that it was cut. */
  lemma CappedTells(s: Settings, l: Line)
    ensures if s.lineMax <= 0 || |l| <= s.lineMax then Capped(s, l) == l
            else exists front: Line ::
                   && front <= l && |front| <= s.lineMax && Capped(s, l) == front + B(" ...<line truncated>")
                   && (WellFormed(l) ==> WellFormed(front) && |front| + 4 >= s.lineMax)
  {
    if 0 < s.lineMax < |l| {
      var front := Utf8Cut.StripPartial(Utf8Cut.Head(l, s.lineMax));
      assert front <= l;
      if WellFormed(l) {
        Utf8Cut.CutIsWellFormed(l, s.lineMax);
      }
    }
  }
}
