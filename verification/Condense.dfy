// The condenser: tool output cut to a byte budget. Consecutive equal lines are
// folded, the head and the tail are kept, priority lines of the omitted middle
// are rescued, and a marker says what was left out.

module Condense {
  import opened Utf8
  import opened Utf8Cut
  import opened Decimal

  type Line = Bytes

  /** A run of equal lines: its text and how often it occurred. */
  datatype Entry = Entry(raw: Line, cnt: nat)

  /** `same` is the comparison of lines, `lineMax` 0 or less for no line cap; each
      pattern says whether a line carries it. */
  datatype Settings = Settings(lineMax: int, rescueMax: int, pats: seq<Line -> bool>, same: (Line, Line) -> bool)

  // ------------------------------------------------------------------------
  // Folding

  function Capped(s: Settings, l: Line): Line {
    if 0 < s.lineMax < |l| then StripPartial(Head(l, s.lineMax)) + B(" ...<line truncated>") else l
  }

  function Push(s: Settings, es: seq<Entry>, l: Line): seq<Entry> {
    var n := |es| - 1;
    if n >= 0 && s.same(l, es[n].raw) then es[..n] + [Entry(es[n].raw, es[n].cnt + 1)]
    else es + [Entry(l, 1)]
  }

  function Folded(s: Settings, lines: seq<Line>): seq<Entry> {
    if lines == [] then []
    else Push(s, Folded(s, lines[..|lines| - 1]), Capped(s, lines[|lines| - 1]))
  }

  lemma FoldedNothing(s: Settings)
    ensures Folded(s, []) == []
  {
  }

  lemma FoldedNext(s: Settings, lines: seq<Line>, k: nat)
    requires k < |lines|
    ensures Folded(s, lines[..k + 1]) == Push(s, Folded(s, lines[..k]), Capped(s, lines[k]))
  {
    hide Capped, Push;
    assert lines[..k + 1][..k] == lines[..k];
  }

  method Fold(s: Settings, lines: seq<Line>) returns (es: seq<Entry>)
    ensures es == Folded(s, lines)
  {
    hide Folded, StripPartial, Head, B;
    es := [];
    assert Folded(s, []) == [] by { FoldedNothing(s); }
    for k := 0 to |lines|
      invariant es == Folded(s, lines[..k])
    {
      var line := lines[k];
      FoldedNext(s, lines, k);
      if s.lineMax > 0 && |line| > s.lineMax {
        var t := Utf8SafeCut(line, s.lineMax);
        line := t + B(" ...<line truncated>");
      }
      var n := |es| - 1;
      if n >= 0 && s.same(line, es[n].raw) {
        es := es[..n] + [es[n].(cnt := es[n].cnt + 1)];
      } else {
        es := es + [Entry(line, 1)];
      }
    }
    assert lines[..|lines|] == lines;
  }

  // ------------------------------------------------------------------------
  // Rendering

  function Render(e: Entry): Line {
    if e.cnt > 1 then e.raw + B(" (repeated ") + Show(e.cnt) + B("x)") else e.raw
  }

  function RenderAll(es: seq<Entry>): (r: seq<Line>)
    ensures |r| == |es|
  {
    seq(|es|, i requires 0 <= i < |es| => Render(es[i]))
  }

  function Print(ls: seq<Line>): Bytes {
    if ls == [] then [] else Print(ls[..|ls| - 1]) + (ls[|ls| - 1] + [10])
  }

  function Cost(ls: seq<Line>): nat {
    if ls == [] then 0 else Cost(ls[..|ls| - 1]) + |ls[|ls| - 1]| + 1
  }

  function Marker(lines: nat, bytes: nat, notable: bool): Bytes {
    B("...[omitted ") + Show(lines) + B(" lines, ~") + Show(bytes) + B(" bytes")
    + (if notable then B("; notable lines kept below") else []) + B("]...\n")
  }

  /** Input lines that the entries `i` to `j` stand for, the indices in `k` not counted. */
  function Lines(es: seq<Entry>, i: nat, j: nat, k: seq<nat>): nat
    requires j <= |es|
    decreases j
  {
    if j <= i then 0 else Lines(es, i, j - 1, k) + (if j - 1 in k then 0 else es[j - 1].cnt)
  }

  function InputBytes(es: seq<Entry>, i: nat, j: nat, k: seq<nat>): nat
    requires j <= |es|
    decreases j
  {
    if j <= i then 0
    else InputBytes(es, i, j - 1, k) + (if j - 1 in k then 0 else (|es[j - 1].raw| + 1) * es[j - 1].cnt)
  }

  // ------------------------------------------------------------------------
  // Selection

  predicate Notable(s: Settings, l: Line) {
    exists p | 0 <= p < |s.pats| :: s.pats[p](l)
  }

  predicate Within(k: seq<nat>, h: nat, t: nat) {
    forall i | 0 <= i < |k| :: h <= k[i] < t
  }

  /** The indices of `h` to `t` whose lines are notable, in order. */
  function Hits(s: Settings, ren: seq<Line>, h: nat, t: nat): seq<nat>
    requires t <= |ren|
    decreases t
  {
    if t <= h then [] else
      Hits(s, ren, h, t - 1) + (if Notable(s, ren[t - 1]) then [t - 1] else [])
  }

  function At(ren: seq<Line>, k: seq<nat>): (r: seq<Line>)
    ensures |r| == |k|
  {
    seq(|k|, i requires 0 <= i < |k| => if k[i] < |ren| then ren[k[i]] else [])
  }

  /** `head` entries from the front, the entries from `tail` on, and the rescued ones between. */
  datatype Plan = Plan(head: nat, tail: nat, rescued: seq<nat>)

  function Reserve(es: seq<Entry>): nat {
    |Marker(Lines(es, 0, |es|, []), InputBytes(es, 0, |es|, []), false)|
  }

  function NotableExtra(s: Settings): nat {
    if s.pats != [] && s.rescueMax > 0 then |B("; notable lines kept below")| else 0
  }

  /** The longest front part that fits. */
  predicate HeadFits(ren: seq<Line>, h: nat, budget: int) {
    && h <= |ren| && Cost(ren[..h]) <= budget
    && (h < |ren| ==> Cost(ren[..h + 1]) > budget)
  }

  /** The longest end part behind `h` that fits. */
  predicate TailFits(ren: seq<Line>, h: nat, t: nat, budget: int) {
    && h <= t <= |ren| && Cost(ren[t..]) <= budget
    && (h < t ==> Cost(ren[t - 1..]) > budget)
  }

  /** The first hits, as many as the count and the budget allow. */
  predicate RescueFits(s: Settings, ren: seq<Line>, h: nat, t: nat, k: seq<nat>, budget: int)
    requires t <= |ren|
  {
    var hits := Hits(s, ren, h, t);
    && k <= hits
    && (k != [] ==> |k| <= s.rescueMax && Cost(At(ren, k)) + NotableExtra(s) <= budget)
    && (k != hits && |k| < s.rescueMax ==> Cost(At(ren, hits[..|k| + 1])) + NotableExtra(s) > budget)
  }

  /** The selection, said by what is maximal under which share of the bytes that the
      marker leaves. The unused head share goes to the tail. */
  predicate Planned(s: Settings, es: seq<Entry>, available: int, p: Plan) {
    var ren := RenderAll(es);
    var hb, tb := available * 60 / 100, available * 25 / 100;
    && available >= 0
    && HeadFits(ren, p.head, hb)
    && TailFits(ren, p.head, p.tail, tb + hb - Cost(ren[..p.head]))
    && RescueFits(s, ren, p.head, p.tail, p.rescued, available - hb - tb)
  }

  lemma {:induction false} HitsWithin(s: Settings, ren: seq<Line>, h: nat, t: nat)
    requires t <= |ren|
    ensures Within(Hits(s, ren, h, t), h, t)
    decreases t
  {
    if h < t { HitsWithin(s, ren, h, t - 1); }
  }

  lemma RescuedInMiddle(s: Settings, ren: seq<Line>, h: nat, t: nat, k: seq<nat>, budget: int)
    requires t <= |ren| && RescueFits(s, ren, h, t, k, budget)
    ensures Within(k, h, t)
  {
    HitsWithin(s, ren, h, t);
    var hits := Hits(s, ren, h, t);
    assert forall i | 0 <= i < |k| :: k[i] == hits[i];
  }

  predicate InRange(es: seq<Entry>, p: Plan) {
    p.head <= p.tail <= |es| && Within(p.rescued, p.head, p.tail)
  }

  function Output(es: seq<Entry>, p: Plan): Bytes
    requires InRange(es, p)
  {
    var ren := RenderAll(es);
    Print(ren[..p.head])
    + Marker(Lines(es, p.head, p.tail, p.rescued), InputBytes(es, p.head, p.tail, p.rescued), p.rescued != [])
    + Print(At(ren, p.rescued)) + Print(ren[p.tail..])
  }

  /** What a run of the condenser prints: everything, nothing, or a plan. */
  datatype Outcome = Whole | Nothing | Selected(p: Plan)

  ghost predicate Condensed(s: Settings, es: seq<Entry>, max: nat, o: Outcome, out: Bytes) {
    match o
    case Whole => Cost(RenderAll(es)) <= max && out == Print(RenderAll(es))
    case Nothing => Cost(RenderAll(es)) > max && Reserve(es) > max && out == []
    case Selected(p) =>
      Cost(RenderAll(es)) > max && Planned(s, es, max - Reserve(es), p) && InRange(es, p) && out == Output(es, p)
  }

  // ------------------------------------------------------------------------
  // The condenser

  lemma {:induction false} CostAppend(a: seq<Line>, b: seq<Line>)
    ensures Cost(a + b) == Cost(a) + Cost(b)
    ensures Print(a + b) == Print(a) + Print(b)
  {
    if b == [] {
      assert a + b == a;
    } else {
      var n := |b| - 1;
      assert (a + b)[..|a + b| - 1] == a + b[..n];
      CostAppend(a, b[..n]);
    }
  }

  lemma {:induction false} PrintLength(ls: seq<Line>)
    ensures |Print(ls)| == Cost(ls)
  {
    if ls != [] { PrintLength(ls[..|ls| - 1]); }
  }

  method Rendered(es: seq<Entry>) returns (ren: seq<Line>, total: nat, allLines: nat, allBytes: nat)
    ensures ren == RenderAll(es) && total == Cost(ren)
    ensures allLines == Lines(es, 0, |es|, []) && allBytes == InputBytes(es, 0, |es|, [])
  {
    hide Render;
    ren, total, allLines, allBytes := [], 0, 0, 0;
    for i := 0 to |es|
      invariant ren == RenderAll(es)[..i] && total == Cost(ren)
      invariant allLines == Lines(es, 0, i, []) && allBytes == InputBytes(es, 0, i, [])
    {
      var r := Render(es[i]);
      assert (ren + [r])[..|ren|] == ren;
      ren := ren + [r];
      total := total + |r| + 1;
      allLines := allLines + es[i].cnt;
      allBytes := allBytes + (|es[i].raw| + 1) * es[i].cnt;
    }
  }

  method TakeHead(ren: seq<Line>, budget: int) returns (head: nat, used: nat)
    requires budget >= 0
    ensures HeadFits(ren, head, budget) && used == Cost(ren[..head])
  {
    used, head := 0, 0;
    for i := 0 to |ren|
      invariant head == i && used == Cost(ren[..head]) <= budget
    {
      var l := |ren[i]| + 1;
      assert ren[..i + 1][..i] == ren[..i];
      if used + l > budget { break; }
      used, head := used + l, i + 1;
    }
  }

  method TakeTail(ren: seq<Line>, head: nat, budget: int) returns (tail: nat)
    requires head <= |ren| && budget >= 0
    ensures TailFits(ren, head, tail, budget)
  {
    var used := 0;
    tail := |ren|;
    assert ren[|ren|..] == [];
    for i := |ren| downto head
      invariant tail == i && used == Cost(ren[tail..]) <= budget
    {
      var l := |ren[i]| + 1;
      assert ren[i..] == [ren[i]] + ren[i + 1..];
      CostAppend([ren[i]], ren[i + 1..]);
      if used + l > budget { return; }
      used, tail := used + l, i;
    }
  }

  lemma {:induction false} HitsPrefix(s: Settings, ren: seq<Line>, h: nat, i: nat, t: nat)
    requires h <= i <= t <= |ren|
    ensures Hits(s, ren, h, i) <= Hits(s, ren, h, t)
    decreases t
  {
    if i < t { HitsPrefix(s, ren, h, i, t - 1); }
  }

  lemma HitsStep(s: Settings, ren: seq<Line>, h: nat, i: nat)
    requires h <= i < |ren|
    ensures Hits(s, ren, h, i + 1) == if Notable(s, ren[i]) then Hits(s, ren, h, i) + [i] else Hits(s, ren, h, i)
  {
  }

  lemma AtSnoc(ren: seq<Line>, k: seq<nat>, x: nat)
    requires x < |ren|
    ensures Cost(At(ren, k + [x])) == Cost(At(ren, k)) + |ren[x]| + 1
  {
    assert At(ren, k + [x])[..|k|] == At(ren, k);
  }

  method MatchesAny(s: Settings, l: Line) returns (hit: bool)
    ensures hit == Notable(s, l)
  {
    hit := false;
    for p := 0 to |s.pats|
      invariant !hit && forall q | 0 <= q < p :: !s.pats[q](l)
    {
      if s.pats[p](l) { return true; }
    }
  }

  /** The rescue so far: the notable lines up to `i`, all of which fit. */
  ghost predicate Rescuing(s: Settings, ren: seq<Line>, h: nat, i: nat, k: seq<nat>, used: nat, budget: int) {
    && h <= i <= |ren| && k == Hits(s, ren, h, i) && used == Cost(At(ren, k))
    && (k != [] ==> |k| <= s.rescueMax && used + NotableExtra(s) <= budget)
  }

  lemma RescueStart(s: Settings, ren: seq<Line>, h: nat, budget: int)
    requires h <= |ren|
    ensures Rescuing(s, ren, h, h, [], 0, budget)
  {
  }

  /** One line of the middle: passed over when it is not notable or there is room for it. */
  lemma RescueNext(s: Settings, ren: seq<Line>, h: nat, i: nat, k: seq<nat>, used: nat, budget: int)
    requires Rescuing(s, ren, h, i, k, used, budget) && i < |ren| && |k| < s.rescueMax
    ensures !Notable(s, ren[i]) ==> Rescuing(s, ren, h, i + 1, k, used, budget)
    ensures Notable(s, ren[i]) && used + |ren[i]| + 1 + NotableExtra(s) <= budget
        ==> Rescuing(s, ren, h, i + 1, k + [i], used + |ren[i]| + 1, budget)
  {
    hide Notable, NotableExtra, Hits, At, Cost;
    HitsStep(s, ren, h, i);
    AtSnoc(ren, k, i);
  }

  lemma RescueComplete(s: Settings, ren: seq<Line>, h: nat, i: nat, t: nat, k: seq<nat>, used: nat, budget: int)
    requires Rescuing(s, ren, h, i, k, used, budget) && i <= t <= |ren| && (i == t || |k| >= s.rescueMax)
    ensures RescueFits(s, ren, h, t, k, budget)
  {
    HitsPrefix(s, ren, h, i, t);
  }

  lemma RescueFull(s: Settings, ren: seq<Line>, h: nat, i: nat, t: nat, k: seq<nat>, used: nat, budget: int)
    requires Rescuing(s, ren, h, i, k, used, budget) && i < t <= |ren| && Notable(s, ren[i])
    requires used + |ren[i]| + 1 + NotableExtra(s) > budget
    ensures RescueFits(s, ren, h, t, k, budget)
  {
    hide Notable, NotableExtra, Hits, At, Cost;
    HitsStep(s, ren, h, i);
    HitsPrefix(s, ren, h, i + 1, t);
    assert Hits(s, ren, h, t)[..|k| + 1] == k + [i];
    AtSnoc(ren, k, i);
  }

  method Rescue(s: Settings, ren: seq<Line>, head: nat, tail: nat, extra: nat, budget: int) returns (rescued: seq<nat>)
    requires head <= tail <= |ren| && extra == NotableExtra(s)
    ensures RescueFits(s, ren, head, tail, rescued, budget)
  {
    hide NotableExtra, Notable, RescueFits, Rescuing;
    rescued := [];
    var used: nat, i: nat := 0, head;
    RescueStart(s, ren, head, budget);
    while i < tail && |rescued| < s.rescueMax
      invariant head <= i <= tail && Rescuing(s, ren, head, i, rescued, used, budget)
    {
      var hit := MatchesAny(s, ren[i]);
      RescueNext(s, ren, head, i, rescued, used, budget);
      if hit {
        var l := |ren[i]| + 1;
        if used + l + extra > budget {
          RescueFull(s, ren, head, i, tail, rescued, used, budget);
          return;
        }
        used, rescued := used + l, rescued + [i];
      }
      i := i + 1;
    }
    RescueComplete(s, ren, head, i, tail, rescued, used, budget);
  }

  method Omitted(es: seq<Entry>, p: Plan) returns (lines: nat, bytes: nat)
    requires InRange(es, p)
    ensures lines == Lines(es, p.head, p.tail, p.rescued) && bytes == InputBytes(es, p.head, p.tail, p.rescued)
  {
    lines, bytes := 0, 0;
    for i := p.head to p.tail
      invariant lines == Lines(es, p.head, i, p.rescued) && bytes == InputBytes(es, p.head, i, p.rescued)
    {
      if i !in p.rescued {
        lines := lines + es[i].cnt;
        bytes := bytes + (|es[i].raw| + 1) * es[i].cnt;
      }
    }
  }

  method PrintLines(ls: seq<Line>) returns (out: Bytes)
    ensures out == Print(ls)
  {
    out := [];
    for i := 0 to |ls|
      invariant out == Print(ls[..i])
    {
      assert ls[..i + 1][..i] == ls[..i];
      out := out + (ls[i] + [10]);
    }
    assert ls[..|ls|] == ls;
  }

  method CondenseText(s: Settings, lines: seq<Line>, max: nat) returns (out: Bytes, o: Outcome)
    ensures Condensed(s, Folded(s, lines), max, o, out)
  {
    var es := Fold(s, lines);
    out, o := CondenseEntries(s, es, max);
  }

  method CondenseEntries(s: Settings, es: seq<Entry>, max: nat) returns (out: Bytes, o: Outcome)
    ensures Condensed(s, es, max, o, out)
  {
    hide Planned, Output, NotableExtra, RenderAll;
    var ren, total, allLines, allBytes := Rendered(es);
    if total <= max {
      out := PrintLines(ren);
      return out, Whole;
    }
    var reserve, extra := MarkerShare(s, es, allLines, allBytes);
    if reserve > max {
      return [], Nothing;
    }
    var p := Select(s, es, ren, max - reserve, extra);
    out := PrintPlan(es, ren, p);
    o := Selected(p);
    SelectedHolds(s, es, max, p, out);
  }

  lemma SelectedHolds(s: Settings, es: seq<Entry>, max: nat, p: Plan, out: Bytes)
    requires Cost(RenderAll(es)) > max
    requires Planned(s, es, max - Reserve(es), p) && InRange(es, p) && out == Output(es, p)
    ensures Condensed(s, es, max, Selected(p), out)
  {
  }

  /** The bytes of the ordinary marker, and what the rescue wording adds to it. */
  method MarkerShare(s: Settings, es: seq<Entry>, allLines: nat, allBytes: nat) returns (reserve: nat, extra: nat)
    requires allLines == Lines(es, 0, |es|, []) && allBytes == InputBytes(es, 0, |es|, [])
    ensures reserve == Reserve(es) && extra == NotableExtra(s)
  {
    reserve, extra := |Marker(allLines, allBytes, false)|, 0;
    if |s.pats| > 0 && s.rescueMax > 0 {
      extra := |Marker(allLines, allBytes, true)| - reserve;
    }
  }

  method Select(s: Settings, es: seq<Entry>, ren: seq<Line>, available: nat, extra: nat) returns (p: Plan)
    requires ren == RenderAll(es) && extra == NotableExtra(s)
    ensures Planned(s, es, available, p) && InRange(es, p)
  {
    var headBudget, tailBudget := available * 60 / 100, available * 25 / 100;
    var rescueBudget := available - headBudget - tailBudget;
    var head, used := TakeHead(ren, headBudget);
    tailBudget := tailBudget + headBudget - used;
    var tail := TakeTail(ren, head, tailBudget);
    var rescued := Rescue(s, ren, head, tail, extra, rescueBudget);
    RescuedInMiddle(s, ren, head, tail, rescued, rescueBudget);
    p := Plan(head, tail, rescued);
  }

  method PrintPlan(es: seq<Entry>, ren: seq<Line>, p: Plan) returns (out: Bytes)
    requires ren == RenderAll(es) && InRange(es, p)
    ensures out == Output(es, p)
  {
    var omLines, omBytes := Omitted(es, p);
    var first := PrintLines(ren[..p.head]);
    var kept := PrintLines(At(ren, p.rescued));
    var last := PrintLines(ren[p.tail..]);
    out := first + Marker(omLines, omBytes, |p.rescued| > 0) + kept + last;
  }
}
