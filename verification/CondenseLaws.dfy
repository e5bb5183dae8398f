// What the condenser guarantees of every run: a hard byte bound, an exact line
// count, intact UTF-8, and folding that loses nothing.

module CondenseLaws {
  import opened Utf8
  import opened Utf8Cut
  import opened Decimal
  import opened Condense

  // ------------------------------------------------------------------------
  // The byte bound

  lemma MarkerLength(l: nat, b: nat, l': nat, b': nat, notable: bool)
    requires l <= l' && b <= b'
    ensures |Marker(l, b, notable)| <= |Marker(l', b', notable)|
  {
    ShowLength(l, l');
    ShowLength(b, b');
  }

  lemma NotableMarkerLength(l: nat, b: nat)
    ensures |Marker(l, b, true)| == |Marker(l, b, false)| + |B("; notable lines kept below")|
  {
  }

  lemma {:induction false} OmittedAtMostAll(es: seq<Entry>, i: nat, j: nat, k: seq<nat>)
    requires i <= j <= |es|
    ensures Lines(es, i, j, k) <= Lines(es, 0, |es|, [])
    ensures InputBytes(es, i, j, k) <= InputBytes(es, 0, |es|, [])
    decreases |es| - j, j
  {
    PartAtMost(es, i, j, k);
    GrowRight(es, j, |es|);
  }

  lemma {:induction false} PartAtMost(es: seq<Entry>, i: nat, j: nat, k: seq<nat>)
    requires i <= j <= |es|
    ensures Lines(es, i, j, k) <= Lines(es, 0, j, [])
    ensures InputBytes(es, i, j, k) <= InputBytes(es, 0, j, [])
    decreases j
  {
    if i < j { PartAtMost(es, i, j - 1, k); }
  }

  lemma {:induction false} GrowRight(es: seq<Entry>, i: nat, j: nat)
    requires i <= j <= |es|
    ensures Lines(es, 0, i, []) <= Lines(es, 0, j, []) && InputBytes(es, 0, i, []) <= InputBytes(es, 0, j, [])
    decreases j
  {
    if i < j { GrowRight(es, i, j - 1); }
  }

  /** The bytes of the lines a plan prints. */
  function KeptCost(es: seq<Entry>, p: Plan): nat
    requires InRange(es, p)
  {
    var ren := RenderAll(es);
    Cost(ren[..p.head]) + Cost(ren[p.tail..]) + Cost(At(ren, p.rescued))
  }

  lemma OutputLength(es: seq<Entry>, p: Plan)
    requires InRange(es, p)
    ensures |Output(es, p)| == KeptCost(es, p)
      + |Marker(Lines(es, p.head, p.tail, p.rescued), InputBytes(es, p.head, p.tail, p.rescued), p.rescued != [])|
  {
    var ren := RenderAll(es);
    PrintLength(ren[..p.head]);
    PrintLength(At(ren, p.rescued));
    PrintLength(ren[p.tail..]);
  }

  /** The marker that is printed fits what was reserved, the rescue wording included. */
  lemma MarkerFits(s: Settings, es: seq<Entry>, p: Plan, lines: nat, bytes: nat)
    requires InRange(es, p) && lines == Lines(es, p.head, p.tail, p.rescued)
    requires bytes == InputBytes(es, p.head, p.tail, p.rescued)
    requires p.rescued != [] ==> s.pats != [] && s.rescueMax > 0
    ensures |Marker(lines, bytes, p.rescued != [])| <= Reserve(es) + if p.rescued == [] then 0 else NotableExtra(s)
  {
    OmittedAtMostAll(es, p.head, p.tail, p.rescued);
    MarkerLength(lines, bytes, Lines(es, 0, |es|, []), InputBytes(es, 0, |es|, []), false);
    NotableMarkerLength(lines, bytes);
  }

  lemma RescueNeedsPatterns(s: Settings, ren: seq<Line>, h: nat, t: nat, k: seq<nat>, budget: int)
    requires t <= |ren| && RescueFits(s, ren, h, t, k, budget) && k != []
    ensures s.pats != [] && s.rescueMax > 0
  {
    HitsNotable(s, ren, h, t);
    HitsWithin(s, ren, h, t);
    assert k[0] == Hits(s, ren, h, t)[0];
  }

  lemma {:induction false} HitsNotable(s: Settings, ren: seq<Line>, h: nat, t: nat)
    requires t <= |ren|
    ensures forall x | x in Hits(s, ren, h, t) :: x < |ren| && Notable(s, ren[x])
    decreases t
  {
    if h < t { HitsNotable(s, ren, h, t - 1); }
  }

  lemma SharesFit(available: nat)
    ensures 0 <= available * 60 / 100 && 0 <= available * 25 / 100
    ensures available * 60 / 100 + available * 25 / 100 <= available
  {
  }

  /** Head, tail and rescue shares, and the head share carried into the tail, stay within `available`. */
  lemma KeptFits(s: Settings, es: seq<Entry>, available: int, p: Plan)
    requires Planned(s, es, available, p) && InRange(es, p)
    ensures KeptCost(es, p) + (if p.rescued == [] then 0 else NotableExtra(s)) <= available
    ensures p.rescued != [] ==> s.pats != [] && s.rescueMax > 0
  {
    var ren := RenderAll(es);
    var hb, tb := available * 60 / 100, available * 25 / 100;
    SharesFit(available);
    if p.rescued == [] {
      assert Cost(At(ren, [])) == 0;
    } else {
      RescueNeedsPatterns(s, ren, p.head, p.tail, p.rescued, available - hb - tb);
    }
  }

  lemma SelectedWithinBudget(s: Settings, es: seq<Entry>, max: nat, p: Plan)
    requires Planned(s, es, max - Reserve(es), p) && InRange(es, p)
    ensures |Output(es, p)| <= max
  {
    hide Planned, Marker, Output;
    KeptFits(s, es, max - Reserve(es), p);
    OutputLength(es, p);
    MarkerFits(s, es, p, Lines(es, p.head, p.tail, p.rescued), InputBytes(es, p.head, p.tail, p.rescued));
  }

  /** Annotations, line ends and marker included, the output never exceeds the budget. */
  lemma WithinBudget(s: Settings, es: seq<Entry>, max: nat, o: Outcome, out: Bytes)
    requires Condensed(s, es, max, o, out)
    ensures |out| <= max
  {
    match o
    case Whole => PrintLength(RenderAll(es));
    case Nothing =>
    case Selected(p) => SelectedWithinBudget(s, es, max, p);
  }

  // ------------------------------------------------------------------------
  // The line count

  /** Input lines behind the entries with indices `k`. */
  function Picked(es: seq<Entry>, k: seq<nat>): nat {
    if k == [] then 0
    else Picked(es, k[..|k| - 1]) + (if k[|k| - 1] < |es| then es[k[|k| - 1]].cnt else 0)
  }

  predicate Increasing(k: seq<nat>) {
    forall i, j | 0 <= i < j < |k| :: k[i] < k[j]
  }

  lemma {:induction false} HitsIncreasing(s: Settings, ren: seq<Line>, h: nat, t: nat)
    requires t <= |ren|
    ensures Increasing(Hits(s, ren, h, t))
    decreases t
  {
    if h < t {
      HitsIncreasing(s, ren, h, t - 1);
      HitsWithin(s, ren, h, t - 1);
    }
  }

  lemma {:induction false} Partition(es: seq<Entry>, h: nat, t: nat, k: seq<nat>)
    requires h <= t <= |es| && Increasing(k) && Within(k, h, t)
    ensures Lines(es, h, t, k) + Picked(es, k) == Lines(es, h, t, [])
    decreases t
  {
    if h < t {
      var n := |k| - 1;
      if n >= 0 && k[n] == t - 1 {
        assert k == k[..n] + [k[n]];
        PrefixBelow(k, h, t);
        Partition(es, h, t - 1, k[..n]);
        SameBelow(es, h, t - 1, k, k[..n]);
      } else {
        LastIsGreatest(k, h, t);
        Partition(es, h, t - 1, k);
      }
    }
  }

  lemma LastIsGreatest(k: seq<nat>, h: nat, t: nat)
    requires Increasing(k) && Within(k, h, t) && (k != [] ==> k[|k| - 1] != t - 1)
    ensures t - 1 !in k
  {
    assert forall i | 0 <= i < |k| :: k[i] <= k[|k| - 1];
  }

  lemma PrefixBelow(k: seq<nat>, h: nat, t: nat)
    requires k != [] && Increasing(k) && k[|k| - 1] == t - 1 && Within(k, h, t)
    ensures var p := k[..|k| - 1];
      && Within(p, h, t - 1)
      && (forall x | h <= x < t - 1 && x in k :: x in p)
  {
    var n := |k| - 1;
    forall x | h <= x < t - 1 && x in k
      ensures x in k[..n]
    {
      var j :| 0 <= j < |k| && k[j] == x;
      assert k[..n][j] == x;
    }
  }

  lemma {:induction false} SameBelow(es: seq<Entry>, h: nat, t: nat, k: seq<nat>, k': seq<nat>)
    requires t <= |es| && forall x | h <= x < t :: x in k <==> x in k'
    ensures Lines(es, h, t, k) == Lines(es, h, t, k')
    decreases t
  {
    if h < t { SameBelow(es, h, t - 1, k, k'); }
  }

  lemma {:induction false} LinesSplit(es: seq<Entry>, i: nat, j: nat, k: nat)
    requires i <= j <= k <= |es|
    ensures Lines(es, i, k, []) == Lines(es, i, j, []) + Lines(es, j, k, [])
    decreases k
  {
    if j < k { LinesSplit(es, i, j, k - 1); }
  }

  predicate Counted(es: seq<Entry>) {
    forall i | 0 <= i < |es| :: es[i].cnt >= 1
  }

  lemma {:induction false} FoldedCounts(s: Settings, lines: seq<Line>)
    ensures Lines(Folded(s, lines), 0, |Folded(s, lines)|, []) == |lines|
    ensures Counted(Folded(s, lines))
  {
    hide Capped, Push;
    if lines != [] {
      hide Lines, Counted;
      FoldedCounts(s, lines[..|lines| - 1]);
      PushCounts(s, Folded(s, lines[..|lines| - 1]), Capped(s, lines[|lines| - 1]));
    }
  }

  lemma PushCounts(s: Settings, es: seq<Entry>, l: Line)
    requires Counted(es)
    ensures var es' := Push(s, es, l); Counted(es') && Lines(es', 0, |es'|, []) == Lines(es, 0, |es|, []) + 1
  {
    var es' := Push(s, es, l);
    SameEntries(es, es', |es'| - 1);
    if |es'| == |es| {
      assert Lines(es', 0, |es'|, []) == Lines(es, 0, |es| - 1, []) + es[|es| - 1].cnt + 1;
    }
  }

  lemma {:induction false} SameEntries(es: seq<Entry>, es': seq<Entry>, n: nat)
    requires n <= |es| && n <= |es'| && es[..n] == es'[..n]
    ensures Lines(es, 0, n, []) == Lines(es', 0, n, [])
  {
    if n > 0 {
      assert es[..n][n - 1] == es[n - 1] && es'[..n][n - 1] == es'[n - 1];
      assert es[..n - 1] == es[..n][..n - 1] && es'[..n - 1] == es'[..n][..n - 1];
      SameEntries(es, es', n - 1);
    }
  }

  lemma {:induction false} PositiveLines(es: seq<Entry>, h: nat, t: nat, k: seq<nat>)
    requires t <= |es| && Lines(es, h, t, k) == 0
    requires Counted(es)
    ensures forall x | h <= x < t :: x in k
    decreases t
  {
    if h < t { PositiveLines(es, h, t - 1, k); }
  }

  lemma {:induction false} AllPicked(ren: seq<Line>, h: nat, t: nat, k: seq<nat>)
    requires h <= t <= |ren| && Increasing(k)
    requires Within(k, h, t) && forall x | h <= x < t :: x in k
    ensures At(ren, k) == ren[h..t]
    decreases t
  {
    if h < t {
      var n := |k| - 1;
      assert t - 1 in k;
      var i :| 0 <= i < |k| && k[i] == t - 1;
      assert k[n] < t && i == n;
      assert k == k[..n] + [k[n]];
      PrefixBelow(k, h, t);
      forall x | h <= x < t - 1
        ensures x in k[..n]
      {
        assert x in k;
      }
      AllPicked(ren, h, t - 1, k[..n]);
      assert At(ren, k) == At(ren, k[..n]) + [ren[t - 1]];
      assert ren[h..t] == ren[h..t - 1] + [ren[t - 1]];
    }
  }

  /** When a marker is printed it reports at least one line, and the lines printed
      and the lines reported omitted are the input lines. */
  lemma LinesAccountedFor(s: Settings, lines: seq<Line>, max: nat, p: Plan, out: Bytes)
    requires Condensed(s, Folded(s, lines), max, Selected(p), out)
    ensures var es := Folded(s, lines);
      var omitted := Lines(es, p.head, p.tail, p.rescued);
      && omitted >= 1
      && Lines(es, 0, p.head, []) + Picked(es, p.rescued) + Lines(es, p.tail, |es|, []) + omitted == |lines|
  {
    hide Planned, Output, Reserve, Cost, Folded, Lines, Picked, Counted, RenderAll;
    var es := Folded(s, lines);
    FoldedCounts(s, lines);
    EntriesAccountedFor(s, es, max, p);
  }

  lemma EntriesAccountedFor(s: Settings, es: seq<Entry>, max: nat, p: Plan)
    requires Cost(RenderAll(es)) > max && Planned(s, es, max - Reserve(es), p) && InRange(es, p)
    requires Counted(es)
    ensures var omitted := Lines(es, p.head, p.tail, p.rescued);
      && omitted >= 1
      && Lines(es, 0, p.head, []) + Picked(es, p.rescued) + Lines(es, p.tail, |es|, []) + omitted
         == Lines(es, 0, |es|, [])
  {
    hide Planned, NotableExtra, Reserve, KeptCost, Cost, Lines, Counted, Increasing;
    RescuedIncreasing(s, es, max - Reserve(es), p);
    KeptFits(s, es, max - Reserve(es), p);
    PlanPartition(es, p);
    if Lines(es, p.head, p.tail, p.rescued) == 0 {
      EverythingCosts(es, p);
    }
  }

  lemma PlanPartition(es: seq<Entry>, p: Plan)
    requires InRange(es, p) && Increasing(p.rescued)
    ensures Lines(es, 0, p.head, []) + Picked(es, p.rescued) + Lines(es, p.tail, |es|, [])
         + Lines(es, p.head, p.tail, p.rescued) == Lines(es, 0, |es|, [])
  {
    Partition(es, p.head, p.tail, p.rescued);
    LinesSplit(es, 0, p.head, p.tail);
    LinesSplit(es, 0, p.tail, |es|);
  }

  lemma RescuedIncreasing(s: Settings, es: seq<Entry>, available: int, p: Plan)
    requires Planned(s, es, available, p) && InRange(es, p)
    ensures Increasing(p.rescued)
  {
    var hits := Hits(s, RenderAll(es), p.head, p.tail);
    HitsIncreasing(s, RenderAll(es), p.head, p.tail);
    assert forall i | 0 <= i < |p.rescued| :: p.rescued[i] == hits[i];
  }

  lemma EverythingCosts(es: seq<Entry>, p: Plan)
    requires InRange(es, p) && Increasing(p.rescued) && Counted(es)
    requires Lines(es, p.head, p.tail, p.rescued) == 0
    ensures KeptCost(es, p) == Cost(RenderAll(es))
  {
    hide Cost, Lines, At, RenderAll, Increasing, Counted;
    PositiveLines(es, p.head, p.tail, p.rescued);
    AllPicked(RenderAll(es), p.head, p.tail, p.rescued);
    CostMiddle(RenderAll(es), p.head, p.tail);
  }

  lemma CostMiddle(ls: seq<Line>, h: nat, t: nat)
    requires h <= t <= |ls|
    ensures Cost(ls) == Cost(ls[..h]) + Cost(ls[h..t]) + Cost(ls[t..])
  {
    hide Cost;
    assert ls == ls[..t] + ls[t..] && ls[..t] == ls[..h] + ls[h..t];
    CostAppend(ls[..t], ls[t..]);
    CostAppend(ls[..h], ls[h..t]);
  }

  // ------------------------------------------------------------------------
  // Folding loses nothing when `same` is equality

  function Repeat(l: Line, n: nat): seq<Line> {
    seq(n, _ => l)
  }

  function Expand(es: seq<Entry>): seq<Line> {
    if es == [] then [] else Expand(es[..|es| - 1]) + Repeat(es[|es| - 1].raw, es[|es| - 1].cnt)
  }

  function CapAll(s: Settings, lines: seq<Line>): seq<Line> {
    seq(|lines|, i requires 0 <= i < |lines| => Capped(s, lines[i]))
  }

  predicate NeighboursDiffer(es: seq<Entry>) {
    forall i | 0 < i < |es| :: es[i - 1].raw != es[i].raw
  }

  lemma PushDiffers(s: Settings, es: seq<Entry>, l: Line)
    requires (forall a, b :: s.same(a, b) <==> a == b) && NeighboursDiffer(es)
    ensures NeighboursDiffer(Push(s, es, l))
  {
  }

  /** The entries stand for the capped input lines, and neighbours differ. */
  lemma {:induction false} FoldingIsLossless(s: Settings, lines: seq<Line>)
    requires forall a, b :: s.same(a, b) <==> a == b
    ensures Expand(Folded(s, lines)) == CapAll(s, lines)
    ensures NeighboursDiffer(Folded(s, lines))
  {
    hide Capped, Push;
    if lines != [] {
      var l := Capped(s, lines[|lines| - 1]);
      FoldingIsLossless(s, lines[..|lines| - 1]);
      PushExpands(s, Folded(s, lines[..|lines| - 1]), l);
      PushDiffers(s, Folded(s, lines[..|lines| - 1]), l);
      assert CapAll(s, lines) == CapAll(s, lines[..|lines| - 1]) + [l];
    }
  }

  lemma PushExpands(s: Settings, es: seq<Entry>, l: Line)
    requires forall a, b :: s.same(a, b) <==> a == b
    ensures Expand(Push(s, es, l)) == Expand(es) + [l]
  {
    var n := |es| - 1;
    if n >= 0 && l == es[n].raw {
      var es' := Push(s, es, l);
      assert es'[..n] == es[..n];
      assert Repeat(l, es[n].cnt + 1) == Repeat(l, es[n].cnt) + [l];
    } else {
      assert (es + [Entry(l, 1)])[..|es|] == es;
      assert Repeat(l, 1) == [l];
    }
  }

  // ------------------------------------------------------------------------
  // UTF-8

  lemma CappedWellFormed(s: Settings, l: Line)
    requires WellFormed(l)
    ensures WellFormed(Capped(s, l))
  {
    if 0 < s.lineMax < |l| {
      CutIsWellFormed(l, s.lineMax);
      AsciiIsWellFormed(B(" ...<line truncated>"));
      WellFormedConcat(StripPartial(Head(l, s.lineMax)), B(" ...<line truncated>"));
    }
  }

  lemma Concat3(a: Bytes, b: Bytes, c: Bytes)
    requires WellFormed(a) && WellFormed(b) && WellFormed(c)
    ensures WellFormed(a + b + c)
  {
    WellFormedConcat(a, b);
    WellFormedConcat(a + b, c);
  }

  lemma MarkerWellFormed(lines: nat, bytes: nat, notable: bool)
    ensures WellFormed(Marker(lines, bytes, notable))
  {
    AsciiIsWellFormed(Marker(lines, bytes, notable));
  }

  lemma RenderWellFormed(e: Entry)
    requires WellFormed(e.raw)
    ensures WellFormed(Render(e))
  {
    if e.cnt > 1 {
      var a, c := B(" (repeated "), B("x)");
      AsciiIsWellFormed(a + Show(e.cnt) + c);
      WellFormedConcat(e.raw, a + Show(e.cnt) + c);
      assert e.raw + a + Show(e.cnt) + c == e.raw + (a + Show(e.cnt) + c);
    }
  }

  lemma {:induction false} FoldedWellFormed(s: Settings, lines: seq<Line>)
    requires forall l | l in lines :: WellFormed(l)
    ensures forall i | 0 <= i < |Folded(s, lines)| :: WellFormed(Folded(s, lines)[i].raw)
  {
    hide WellFormed, Capped;
    if lines != [] {
      FoldedWellFormed(s, lines[..|lines| - 1]);
      CappedWellFormed(s, lines[|lines| - 1]);
    }
  }

  lemma {:induction false} PrintWellFormed(ls: seq<Line>)
    requires forall i | 0 <= i < |ls| :: WellFormed(ls[i])
    ensures WellFormed(Print(ls))
  {
    if ls != [] {
      PrintWellFormed(ls[..|ls| - 1]);
      AsciiIsWellFormed([10]);
      WellFormedConcat(ls[|ls| - 1], [10]);
      WellFormedConcat(Print(ls[..|ls| - 1]), ls[|ls| - 1] + [10]);
    }
  }

  lemma OutputWellFormed(es: seq<Entry>, p: Plan)
    requires InRange(es, p) && forall l | l in RenderAll(es) :: WellFormed(l)
    ensures WellFormed(Output(es, p))
  {
    var ren := RenderAll(es);
    var lines, bytes := Lines(es, p.head, p.tail, p.rescued), InputBytes(es, p.head, p.tail, p.rescued);
    PrintWellFormed(ren[..p.head]);
    PrintWellFormed(ren[p.tail..]);
    PrintWellFormed(At(ren, p.rescued));
    MarkerWellFormed(lines, bytes, p.rescued != []);
    Concat3(Print(ren[..p.head]), Marker(lines, bytes, p.rescued != []), Print(At(ren, p.rescued)));
    WellFormedConcat(Print(ren[..p.head]) + Marker(lines, bytes, p.rescued != []) + Print(At(ren, p.rescued)),
                     Print(ren[p.tail..]));
  }

  /** Well-formed lines give a well-formed output, whatever is cut, folded or omitted. */
  lemma Utf8Intact(s: Settings, lines: seq<Line>, max: nat, o: Outcome, out: Bytes)
    requires forall l | l in lines :: WellFormed(l)
    requires Condensed(s, Folded(s, lines), max, o, out)
    ensures WellFormed(out)
  {
    var es := Folded(s, lines);
    FoldedWellFormed(s, lines);
    forall l | l in RenderAll(es)
      ensures WellFormed(l)
    {
      var i :| 0 <= i < |es| && RenderAll(es)[i] == l;
      RenderWellFormed(es[i]);
    }
    match o
    case Whole => PrintWellFormed(RenderAll(es));
    case Nothing =>
    case Selected(p) => OutputWellFormed(es, p);
  }
}
