// Bounded help output: a head buffer and a ring of the last lines agree with the
// plain view "first lines, marker, last lines".

module ToolText {
  import opened Utf8
  import opened Decimal

  type Line = Bytes

  function HeadShare(maxLines: nat): nat {
    maxLines * 60 / 100
  }

  function TailShare(maxLines: nat): nat {
    var tail := maxLines - HeadShare(maxLines) - 1;
    if tail < 0 then 0 else tail
  }

  function OmittedLine(k: int): Line
    requires k >= 0
  {
    B("...[omitted ") + Show(k) + B(" lines]...")
  }

  function Shorten(l: Line, maxBytes: nat): Line {
    if |l| > maxBytes then l[..maxBytes] + B("...<truncated>") else l
  }

  lemma SharesBelow(maxLines: nat)
    ensures HeadShare(maxLines) + TailShare(maxLines) <= maxLines
    ensures maxLines > 0 ==> HeadShare(maxLines) + TailShare(maxLines) == maxLines - 1
  {
  }

  /** The plain view of `all`. */
  function Window(all: seq<Line>, maxLines: nat): seq<Line> {
    SharesBelow(maxLines);
    if |all| <= maxLines then all
    else
      var (h, t) := (HeadShare(maxLines), TailShare(maxLines));
      all[..h] + [OmittedLine(|all| - h - t)] + all[|all| - t..]
  }

  function ShownLines(lines: seq<Line>, clean: Line -> Line, maxBytes: nat): seq<Line> {
    seq(|lines|, i requires 0 <= i < |lines| => Shorten(clean(lines[i]), maxBytes))
  }

  /** A line that fits is shown whole; of any other the front is shown, and then the mark. */
  lemma ShownFront(lines: seq<Line>, clean: Line -> Line, maxBytes: nat, i: nat)
    requires i < |lines|
    ensures var (l, shown) := (clean(lines[i]), ShownLines(lines, clean, maxBytes)[i]);
      if |l| <= maxBytes then shown == l
      else exists front :: front <= l && |front| == maxBytes && shown == front + B("...<truncated>")
  {
    var l := clean(lines[i]);
    if |l| > maxBytes {
      assert l[..maxBytes] <= l;
    }
  }

  lemma RingSlots(j: nat, m: nat, cap: nat)
    requires cap > 0 && j < m < j + cap
    ensures j % cap != m % cap
  {
    var q := m / cap - j / cap;
    assert m - j == cap * q + (m % cap - j % cap);
    if q >= 1 {
      assert cap * q >= cap;
    } else {
      assert cap * q <= 0;
    }
  }

  /** The ring holds the last `r.Length` lines of `all[head..n]`, line `j` in slot `j % r.Length`. */
  ghost predicate RingHolds(r: array<Line>, all: seq<Line>, head: nat, n: nat)
    requires r.Length > 0 && n <= |all|
    reads r
  {
    forall j: nat | j < n - head && n - head - r.Length <= j :: r[j % r.Length] == all[head + j]
  }

  /** Files line `n` of `all` in its slot. */
  method Store(r: array<Line>, line: Line, ghost all: seq<Line>, head: nat, n: nat)
    requires r.Length > 0 && head <= n < |all| && line == all[n] && RingHolds(r, all, head, n)
    modifies r
    ensures RingHolds(r, all, head, n + 1)
  {
    var m, cap := n - head, r.Length;
    forall j: nat | j < m && m + 1 - cap <= j
      ensures j % cap != m % cap
    {
      RingSlots(j, m, cap);
    }
    r[m % cap] := line;
  }

  method PrintRing(r: array<Line>, from: nat, to: nat, ghost all: seq<Line>, head: nat) returns (out: seq<Line>)
    requires r.Length > 0 && from <= to && to - from <= r.Length && head + to <= |all|
    requires RingHolds(r, all, head, head + to)
    ensures out == all[head + from..head + to]
  {
    out := [];
    for k := from to to
      invariant out == all[head + from..head + k]
    {
      out := out + [r[k % r.Length]];
    }
  }

  /** `clean` stands for the removal of control characters. */
  method SafeToolText(lines: seq<Line>, maxLines: nat, maxBytes: nat, clean: Line -> Line) returns (out: seq<Line>)
    ensures out == Window(ShownLines(lines, clean, maxBytes), maxLines)
  {
    hide Shorten, Window;
    var head := maxLines * 60 / 100;
    var tail := maxLines - head - 1;
    if tail < 0 { tail := 0; }
    var cap := tail + 1;
    if cap < 1 { cap := 1; }
    SharesBelow(maxLines);
    ghost var all := ShownLines(lines, clean, maxBytes);
    var h: seq<Line> := [];
    var r := new Line[cap](_ => []);
    var n := 0;
    while n < |lines|
      invariant 0 <= n <= |lines|
      invariant h == all[..if n <= head then n else head]
      invariant RingHolds(r, all, head, n)
    {
      var line := Shorten(clean(lines[n]), maxBytes);
      if n < head {
        h := h + [line];
      } else {
        Store(r, line, all, head, n);
      }
      n := n + 1;
    }
    out := PrintWindow(h, r, n, maxLines, all);
  }

  method PrintWindow(h: seq<Line>, r: array<Line>, n: nat, maxLines: nat, ghost all: seq<Line>) returns (out: seq<Line>)
    requires n == |all| && r.Length == TailShare(maxLines) + 1 && RingHolds(r, all, HeadShare(maxLines), n)
    requires h == all[..if n <= HeadShare(maxLines) then n else HeadShare(maxLines)]
    ensures out == Window(all, maxLines)
  {
    hide OmittedLine;
    SharesBelow(maxLines);
    var head, tail := HeadShare(maxLines), TailShare(maxLines);
    if n <= maxLines {
      out := h;
      if head < n {
        var rest := PrintRing(r, 0, n - head, all, head);
        out := out + rest;
      }
    } else {
      var rest := PrintRing(r, n - head - tail, n - head, all, head);
      out := h + [OmittedLine(n - head - tail)] + rest;
    }
  }

  /** The line cap holds exactly when there is a cap to hold: with `maxLines` 0 the
      marker itself is one line too many. */
  lemma WindowSize(all: seq<Line>, maxLines: nat)
    ensures |Window(all, maxLines)| <= maxLines <==> maxLines > 0 || all == []
  {
  }

  /** Every line outside the reported gap is shown, in place. */
  lemma WindowShowsEnds(all: seq<Line>, maxLines: nat, i: nat)
    requires 0 < maxLines < |all| && i < |all|
    ensures var (w, t) := (Window(all, maxLines), TailShare(maxLines));
      && |w| == maxLines && w[HeadShare(maxLines)] == OmittedLine(|all| - (maxLines - 1))
      && (i < HeadShare(maxLines) ==> w[i] == all[i])
      && (i >= |all| - t ==> w[|w| - (|all| - i)] == all[i])
  {
  }
}
