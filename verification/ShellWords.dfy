// The quoting rules of section 2.2 of POSIX.1-2017 XCU as a grammar of local command lines: what each part of a word
// stands for, how blanks and pipes divide a line, and the verdict of every line by what it reads as.

module ShellWords {
  import opened Common
  import opened LocalWords

  // ------------------------------------------------------------------------
  // Words

  /** A character between double quotes, or a backslash and a character. */
  datatype Inner = Lit(c: char) | Esc(c: char)

  /** A part of a word: an ordinary character, a backslash and any character, or quoted text. */
  datatype Part = Bare(c: char) | Escaped(c: char) | InSingle(text: string) | InDouble(inner: seq<Inner>)

  predicate InnerFits(i: Inner) {
    i.Lit? ==> i.c != '\\' && i.c != '\"'
  }

  predicate PartFits(p: Part) {
    match p
    case Bare(c) => c !in "\\'\" \t|*?[#~"
    case Escaped(_) => true
    case InSingle(text) => '\'' !in text
    case InDouble(inner) => forall k | 0 <= k < |inner| :: InnerFits(inner[k])
  }

  function InnerText(inner: seq<Inner>): string {
    if inner == [] then ""
    else
      var i := inner[|inner| - 1];
      InnerText(inner[..|inner| - 1]) + if i.Lit? then [i.c] else ['\\', i.c]
  }

  /** Between double quotes a backslash goes only in front of a backslash, a double quote, a dollar sign or a grave
      accent. */
  function InnerValue(inner: seq<Inner>): string {
    if inner == [] then ""
    else
      var i := inner[|inner| - 1];
      InnerValue(inner[..|inner| - 1])
      + if i.Esc? && i.c !in {'\\', '\"', '$', '`'} then ['\\', i.c] else [i.c]
  }

  function PartText(p: Part): string {
    match p
    case Bare(c) => [c]
    case Escaped(c) => ['\\', c]
    case InSingle(text) => "'" + text + "'"
    case InDouble(inner) => "\"" + InnerText(inner) + "\""
  }

  function PartValue(p: Part): string {
    match p
    case Bare(c) => [c]
    case Escaped(c) => [c]
    case InSingle(text) => text
    case InDouble(inner) => InnerValue(inner)
  }

  function PartsText(ps: seq<Part>): string {
    if ps == [] then "" else PartsText(ps[..|ps| - 1]) + PartText(ps[|ps| - 1])
  }

  function PartsValue(ps: seq<Part>): string {
    if ps == [] then "" else PartsValue(ps[..|ps| - 1]) + PartValue(ps[|ps| - 1])
  }

  // ------------------------------------------------------------------------
  // Lines

  /** A word with the blanks in front of it. */
  datatype Spaced = Spaced(gap: string, parts: seq<Part>)

  /** The words of one segment and the blanks behind them. */
  datatype Segment = Segment(words: seq<Spaced>, trail: string)

  predicate Blank(gap: string) {
    forall k | 0 <= k < |gap| :: gap[k] == ' ' || gap[k] == '\t'
  }

  predicate WordFits(w: Spaced) {
    Blank(w.gap) && w.parts != [] && forall k | 0 <= k < |w.parts| :: PartFits(w.parts[k])
  }

  predicate SegmentFits(g: Segment) {
    && Blank(g.trail)
    && forall k | 0 <= k < |g.words| :: WordFits(g.words[k]) && (k > 0 ==> g.words[k].gap != "")
  }

  predicate LineFits(l: seq<Segment>) {
    l != [] && forall k | 0 <= k < |l| :: SegmentFits(l[k])
  }

  function WordsText(ws: seq<Spaced>): string {
    if ws == [] then ""
    else
      var w := ws[|ws| - 1];
      WordsText(ws[..|ws| - 1]) + (w.gap + PartsText(w.parts))
  }

  function LineText(l: seq<Segment>): string {
    if l == [] then ""
    else
      var g := l[|l| - 1];
      (if |l| == 1 then "" else LineText(l[..|l| - 1]) + "|") + (WordsText(g.words) + g.trail)
  }

  function Values(ws: seq<Spaced>): (vs: seq<string>)
    ensures |vs| == |ws|
  {
    seq(|ws|, k requires 0 <= k < |ws| => PartsValue(ws[k].parts))
  }

  function LineValues(l: seq<Segment>): (vs: seq<seq<string>>)
    ensures |vs| == |l|
  {
    seq(|l|, k requires 0 <= k < |l| => Values(l[k].words))
  }

  // ------------------------------------------------------------------------
  // What the decoder makes of parts and words

  lemma ScanPair(s: Scanner, a: char, b: char)
    ensures Scan(s, [a, b]) == Step(Step(s, a), b)
  {
    hide Step;
    Scan1(s, a);
    ScanSnoc(s, [a], b);
    assert [a] + [b] == [a, b];
  }

  lemma {:induction false} ScanInner(s: Scanner, inner: seq<Inner>)
    requires s.stuck.None? && s.mode.Double? && s.active
    requires forall k | 0 <= k < |inner| :: InnerFits(inner[k])
    ensures Scan(s, InnerText(inner)) == s.(word := s.word + InnerValue(inner))
  {
    hide Scan;
    ScanNothing(s);
    if inner == [] {
      assert s.word + "" == s.word;
    } else {
      var front, i := inner[..|inner| - 1], inner[|inner| - 1];
      ScanInner(s, front);
      var t := s.(word := s.word + InnerValue(front));
      var text := if i.Lit? then [i.c] else ['\\', i.c];
      ScanAppend(s, InnerText(front), text);
      assert InnerFits(i);
      Scan1(t, i.c);
      ScanPair(t, '\\', i.c);
      Regroup(s.word, InnerValue(front), [i.c]);
      Regroup(s.word, InnerValue(front), ['\\', i.c]);
    }
  }

  lemma Regroup(a: string, b: string, c: string)
    ensures a + b + c == a + (b + c)
  {
  }

  lemma {:induction false} ScanSingle(s: Scanner, text: string)
    requires s.stuck.None? && s.mode.Single? && '\'' !in text
    ensures Scan(s, text) == s.(word := s.word + text)
  {
    if text == "" {
      assert s.word + "" == s.word;
    } else {
      var front, c := text[..|text| - 1], text[|text| - 1];
      ScanSingle(s, front);
      Regroup(s.word, front, [c]);
      assert front + [c] == text;
    }
  }

  lemma ScanPart(s: Scanner, p: Part)
    requires s.stuck.None? && s.mode.Plain? && PartFits(p)
    ensures Scan(s, PartText(p)) == s.(word := s.word + PartValue(p), active := true)
  {
    hide Scan;
    match p
    case Bare(c) =>
      Scan1(s, c);
    case Escaped(c) =>
      ScanPair(s, '\\', c);
    case InSingle(text) =>
      var t := s.(mode := Single, active := true);
      Scan1(s, '\'');
      ScanSingle(t, text);
      Scan1(t.(word := s.word + text), '\'');
      ScanAppend(s, "'", text);
      ScanAppend(s, "'" + text, "'");
    case InDouble(inner) =>
      var t := s.(mode := Double, active := true);
      Scan1(s, '\"');
      ScanInner(t, inner);
      Scan1(t.(word := s.word + InnerValue(inner)), '\"');
      ScanAppend(s, "\"", InnerText(inner));
      ScanAppend(s, "\"" + InnerText(inner), "\"");
  }

  lemma {:induction false} ScanParts(s: Scanner, ps: seq<Part>)
    requires s.stuck.None? && s.mode.Plain? && forall k | 0 <= k < |ps| :: PartFits(ps[k])
    ensures Scan(s, PartsText(ps)) == s.(word := s.word + PartsValue(ps), active := s.active || ps != [])
  {
    hide Scan, PartText, PartValue, PartFits;
    if ps == [] {
      ScanNothing(s);
      assert s.word + "" == s.word;
    } else {
      var front, p := ps[..|ps| - 1], ps[|ps| - 1];
      ScanParts(s, front);
      ScanAppend(s, PartsText(front), PartText(p));
      ScanPart(s.(word := s.word + PartsValue(front), active := s.active || front != []), p);
      Regroup(s.word, PartsValue(front), PartValue(p));
    }
  }

  /** Nothing is open: the next character starts a word. */
  predicate AtGap(s: Scanner) {
    s.stuck.None? && s.mode.Plain? && !s.active && s.word == ""
  }

  predicate AtRest(s: Scanner) {
    s.stuck.None? && s.mode.Plain? && (!s.active ==> s.word == "")
  }

  lemma {:induction false} ScanBlanks(s: Scanner, gap: string)
    requires AtRest(s) && Blank(gap)
    ensures var t := Scan(s, gap); AtRest(t) && t.done == s.done && Closed(t) == Closed(s)
    ensures var t := Scan(s, gap); (gap != "" || AtGap(s) ==> AtGap(t)) && (gap == "" ==> t == s)
  {
    if gap != "" {
      var front, c := gap[..|gap| - 1], gap[|gap| - 1];
      ScanBlanks(s, front);
      assert c == ' ' || c == '\t';
    }
  }

  /** A segment of words: each of them closed by the blanks behind it. */
  lemma {:induction false} ScanSpaced(s: Scanner, ws: seq<Spaced>)
    requires AtGap(s) && s.words == []
    requires forall k | 0 <= k < |ws| :: WordFits(ws[k]) && (k > 0 ==> ws[k].gap != "")
    ensures var t := Scan(s, WordsText(ws)); AtRest(t) && t.done == s.done && Closed(t) == Values(ws)
    ensures ws == [] ==> Scan(s, WordsText(ws)) == s
  {
    hide Scan, PartsText, PartsValue, PartFits, Blank;
    if ws == [] {
      ScanNothing(s);
    } else {
      var front, w := ws[..|ws| - 1], ws[|ws| - 1];
      assert WordFits(w);
      ScanSpaced(s, front);
      var t := Scan(s, WordsText(front));
      ScanBlanks(t, w.gap);
      var u := Scan(t, w.gap);
      ScanParts(u, w.parts);
      ScanAppend(s, WordsText(front), w.gap + PartsText(w.parts));
      ScanAppend(t, w.gap, PartsText(w.parts));
      assert "" + PartsValue(w.parts) == PartsValue(w.parts);
      assert Values(front) + [PartsValue(w.parts)] == Values(ws);
    }
  }

  lemma ScanOneSegment(s: Scanner, g: Segment)
    requires AtGap(s) && s.words == [] && SegmentFits(g)
    ensures var t := Scan(s, WordsText(g.words) + g.trail);
      AtRest(t) && t.done == s.done && Closed(t) == Values(g.words)
  {
    hide Scan, WordFits, Blank, Closed, Values;
    ScanSpaced(s, g.words);
    ScanAppend(s, WordsText(g.words), g.trail);
    ScanBlanks(Scan(s, WordsText(g.words)), g.trail);
  }

  lemma {:induction false} ScanLine(l: seq<Segment>)
    requires LineFits(l)
    ensures var t := Scan(START, LineText(l));
      AtRest(t) && t.done == LineValues(l[..|l| - 1]) && Closed(t) == Values(l[|l| - 1].words)
  {
    hide Scan, SegmentFits, WordsText, Values;
    var g := l[|l| - 1];
    assert SegmentFits(g);
    var text := WordsText(g.words) + g.trail;
    if |l| == 1 {
      ScanOneSegment(START, g);
      assert "" + text == text;
      assert LineValues([]) == [];
    } else {
      var front := l[..|l| - 1];
      ScanLine(front);
      var t := Scan(START, LineText(front));
      Scan1(t, '|');
      var u := Step(t, '|');
      ScanAppend(START, LineText(front), "|");
      ScanOneSegment(u, g);
      ScanAppend(START, LineText(front) + "|", text);
      assert LineValues(front[..|front| - 1]) + [Values(front[|front| - 1].words)] == LineValues(front);
    }
  }

  // ------------------------------------------------------------------------
  // Every line has a reading

  /** What follows the last complete part: nothing, a backslash at the end of the line, quotes that are not closed, or
      a character that is not decoded with everything behind it. */
  datatype Tail =
    | Ended
    | Dangling
    | OpenSingle(text: string)
    | OpenDouble(inner: seq<Inner>)
    | OpenEscape(inner: seq<Inner>)
    | Stopped(c: char, rest: string)

  predicate TailFits(t: Tail) {
    match t
    case Ended => true
    case Dangling => true
    case OpenSingle(text) => '\'' !in text
    case OpenDouble(inner) => forall k | 0 <= k < |inner| :: InnerFits(inner[k])
    case OpenEscape(inner) => forall k | 0 <= k < |inner| :: InnerFits(inner[k])
    case Stopped(c, _) => c in "*?[#~"
  }

  function TailText(t: Tail): string {
    match t
    case Ended => ""
    case Dangling => "\\"
    case OpenSingle(text) => "'" + text
    case OpenDouble(inner) => "\"" + InnerText(inner)
    case OpenEscape(inner) => "\"" + InnerText(inner) + "\\"
    case Stopped(c, rest) => [c] + rest
  }

  /** One more part, in the open word or in a new one. */
  function AddPart(g: Segment, p: Part): Segment {
    if g.trail != "" || g.words == [] then Segment(g.words + [Spaced(g.trail, [p])], "")
    else
      var w := g.words[|g.words| - 1];
      Segment(g.words[..|g.words| - 1] + [Spaced(w.gap, w.parts + [p])], "")
  }

  lemma AddPartText(g: Segment, p: Part)
    requires SegmentFits(g) && PartFits(p)
    ensures var h := AddPart(g, p);
      SegmentFits(h) && WordsText(h.words) + h.trail == WordsText(g.words) + g.trail + PartText(p)
  {
    hide PartFits, PartText;
    var h := AddPart(g, p);
    OnePart(p);
    if g.trail != "" || g.words == [] {
      assert h.words[..|h.words| - 1] == g.words;
    } else {
      var front, w := g.words[..|g.words| - 1], g.words[|g.words| - 1];
      assert WordFits(w) && h.words[..|h.words| - 1] == front;
      assert (w.parts + [p])[..|w.parts|] == w.parts;
      Regroup(w.gap, PartsText(w.parts), PartText(p));
      Regroup(WordsText(front), w.gap + PartsText(w.parts), PartText(p));
      assert WordsText(g.words) + "" == WordsText(g.words);
    }
    assert WordsText(h.words) + "" == WordsText(h.words);
  }

  lemma OnePart(p: Part)
    ensures PartsText([p]) == PartText(p) && PartsText([]) == ""
  {
    hide PartText;
    assert [p][..0] == [];
    assert "" + PartText(p) == PartText(p);
  }

  /** The line with its last segment replaced. */
  function WithLast(l: seq<Segment>, g: Segment): seq<Segment>
    requires l != []
  {
    l[..|l| - 1] + [g]
  }

  lemma WithLastText(l: seq<Segment>, g: Segment, text: string)
    requires LineFits(l) && SegmentFits(g)
    requires var last := l[|l| - 1]; WordsText(g.words) + g.trail == WordsText(last.words) + last.trail + text
    ensures LineFits(WithLast(l, g)) && LineText(WithLast(l, g)) == LineText(l) + text
  {
    hide SegmentFits, WordsText;
    var m, last := WithLast(l, g), l[|l| - 1];
    assert m[..|m| - 1] == l[..|l| - 1];
    LastApart(l);
    LastApart(m);
    hide LineText;
    Regroup(Front(l), WordsText(last.words) + last.trail, text);
  }

  /** What stands in front of the last segment. */
  function Front(l: seq<Segment>): string
    requires l != []
  {
    if |l| == 1 then "" else LineText(l[..|l| - 1]) + "|"
  }

  lemma LastApart(l: seq<Segment>)
    requires l != []
    ensures LineText(l) == Front(l) + (WordsText(l[|l| - 1].words) + l[|l| - 1].trail)
  {
    hide WordsText;
  }

  /** What one more character makes of a reading. */
  function Extend(l: seq<Segment>, t: Tail, c: char): (seq<Segment>, Tail)
    requires LineFits(l)
  {
    var g := l[|l| - 1];
    match t
    case Stopped(c0, rest) => (l, Stopped(c0, rest + [c]))
    case OpenSingle(text) =>
      if c == '\'' then (WithLast(l, AddPart(g, InSingle(text))), Ended) else (l, OpenSingle(text + [c]))
    case OpenDouble(inner) =>
      if c == '\\' then (l, OpenEscape(inner))
      else if c == '\"' then (WithLast(l, AddPart(g, InDouble(inner))), Ended)
      else (l, OpenDouble(inner + [Lit(c)]))
    case OpenEscape(inner) => (l, OpenDouble(inner + [Esc(c)]))
    case Dangling => (WithLast(l, AddPart(g, Escaped(c))), Ended)
    case Ended =>
      if c == '\\' then (l, Dangling)
      else if c == '\'' then (l, OpenSingle(""))
      else if c == '\"' then (l, OpenDouble([]))
      else if c == ' ' || c == '\t' then (WithLast(l, g.(trail := g.trail + [c])), Ended)
      else if c == '|' then (l + [Segment([], "")], Ended)
      else if c in "*?[#~" then (l, Stopped(c, ""))
      else (WithLast(l, AddPart(g, Bare(c))), Ended)
  }

  lemma InnerSnoc(inner: seq<Inner>, i: Inner)
    ensures InnerText(inner + [i]) == InnerText(inner) + if i.Lit? then [i.c] else ['\\', i.c]
  {
    assert (inner + [i])[..|inner|] == inner;
  }

  /** A completed part joins the last word. */
  lemma PartJoins(l: seq<Segment>, p: Part)
    requires LineFits(l) && PartFits(p)
    ensures var m := WithLast(l, AddPart(l[|l| - 1], p)); LineFits(m) && LineText(m) == LineText(l) + PartText(p)
  {
    hide SegmentFits, WordsText, PartText, PartFits, LineText;
    assert SegmentFits(l[|l| - 1]);
    AddPartText(l[|l| - 1], p);
    WithLastText(l, AddPart(l[|l| - 1], p), PartText(p));
  }

  /** A character that completes the part `p`. */
  lemma Joined(l: seq<Segment>, t: Tail, c: char, p: Part)
    requires LineFits(l)
    ensures var m := WithLast(l, AddPart(l[|l| - 1], p));
      PartFits(p) && PartText(p) == TailText(t) + [c]
      ==> LineFits(m) && LineText(m) + "" == LineText(l) + (TailText(t) + [c])
  {
    hide LineText, TailText, PartText, PartFits, AddPart, SegmentFits;
    if PartFits(p) {
      PartJoins(l, p);
    }
  }

  lemma NoWords()
    ensures WordsText([]) == "" && SegmentFits(Segment([], ""))
  {
  }

  /** A blank behind the words of the last segment. */
  lemma BlankJoins(l: seq<Segment>, c: char)
    requires LineFits(l) && (c == ' ' || c == '\t')
    ensures var g := l[|l| - 1];
      var m := WithLast(l, g.(trail := g.trail + [c])); LineFits(m) && LineText(m) == LineText(l) + [c]
  {
    hide WordsText, WordFits, LineText;
    var g := l[|l| - 1];
    assert SegmentFits(g);
    Regroup(WordsText(g.words), g.trail, [c]);
    WithLastText(l, g.(trail := g.trail + [c]), [c]);
  }

  /** A pipe starts a segment. */
  lemma PipeStarts(l: seq<Segment>)
    requires LineFits(l)
    ensures var m := l + [Segment([], "")]; LineFits(m) && LineText(m) == LineText(l) + "|"
  {
    hide WordsText, SegmentFits;
    NoWords();
    assert (l + [Segment([], "")])[..|l|] == l;
  }

  /** A character behind a complete part. */
  lemma Begun(l: seq<Segment>, c: char)
    requires LineFits(l)
    ensures var (m, u) := Extend(l, Ended, c);
      LineFits(m) && TailFits(u) && LineText(m) + TailText(u) == LineText(l) + [c]
  {
    hide LineText, LineFits, AddPart, WithLast;
    if c == ' ' || c == '\t' {
      BlankJoins(l, c);
    } else if c == '|' {
      PipeStarts(l);
    } else if c !in "\\'\"*?[#~" {
      PartJoins(l, Bare(c));
    }
  }

  lemma ExtendText(l: seq<Segment>, t: Tail, c: char)
    requires LineFits(l) && TailFits(t)
    ensures var (m, u) := Extend(l, t, c);
      LineFits(m) && TailFits(u) && LineText(m) + TailText(u) == LineText(l) + (TailText(t) + [c])
  {
    hide LineText, InnerText, SegmentFits, AddPart, WithLast;
    match t
    case Stopped(c0, rest) =>
      Regroup([c0], rest, [c]);
    case OpenSingle(text) =>
      Joined(l, t, c, InSingle(text));
      Regroup("'", text, [c]);
    case OpenDouble(inner) =>
      Joined(l, t, c, InDouble(inner));
      InnerSnoc(inner, Lit(c));
      Regroup("\"", InnerText(inner), [c]);
    case OpenEscape(inner) =>
      InnerSnoc(inner, Esc(c));
      assert "\"" + InnerText(inner) + "\\" + [c] == "\"" + (InnerText(inner) + ['\\', c]);
    case Dangling =>
      Joined(l, t, c, Escaped(c));
      assert "\\" + [c] == ['\\', c];
    case Ended =>
      Begun(l, c);
      assert "" + [c] == [c];
  }

  lemma NoText()
    ensures var l := [Segment([], "")]; LineFits(l) && TailFits(Ended) && LineText(l) + TailText(Ended) == ""
  {
  }

  lemma ReadingGrows(text: string, l: seq<Segment>, t: Tail, c: char)
    requires LineFits(l) && TailFits(t) && text == LineText(l) + TailText(t)
    ensures var more := Extend(l, t, c);
      LineFits(more.0) && TailFits(more.1) && text + [c] == LineText(more.0) + TailText(more.1)
  {
    hide LineFits, TailFits, LineText, TailText, Extend;
    ExtendText(l, t, c);
    Regroup(LineText(l), TailText(t), [c]);
  }

  /** Every text is a line with a tail. */
  lemma {:induction false} EveryLineReads(text: string) returns (l: seq<Segment>, t: Tail)
    ensures LineFits(l) && TailFits(t) && text == LineText(l) + TailText(t)
  {
    hide LineFits, TailFits, LineText, TailText, Extend;
    if text == "" {
      l, t := [Segment([], "")], Ended;
      NoText();
    } else {
      var front, c := text[..|text| - 1], text[|text| - 1];
      var l0, t0 := EveryLineReads(front);
      ReadingGrows(front, l0, t0, c);
      var more := Extend(l0, t0, c);
      l, t := more.0, more.1;
      assert text == front + [c];
    }
  }

  // ------------------------------------------------------------------------
  // The verdict

  /** The segments in front of the last one. */
  function Before(l: seq<Segment>): seq<seq<string>>
    requires l != []
  {
    LineValues(l[..|l| - 1])
  }

  /** The words of the last segment; a backslash at the end of the line opens a word and stands for nothing. */
  function LastValues(l: seq<Segment>, t: Tail): seq<string>
    requires l != []
  {
    var g := l[|l| - 1];
    Values(if t.Dangling? then AddPart(g, InSingle("")).words else g.words)
  }

  /** Where the tail leaves the decoder. */
  lemma ScanTail(s: Scanner, t: Tail)
    requires AtRest(s) && TailFits(t)
    ensures var u := Scan(s, TailText(t));
      match t
      case Ended => u == s
      case Dangling => u == s.(mode := PlainEscape, active := true)
      case Stopped(c, _) => u.done == s.done && u.stuck == Some(if c == '~' then UnsafePath else Unsupported)
      case _ => u.done == s.done && u.stuck.None? && !Complete(u)
  {
    hide Scan, InnerText, InnerValue, InnerFits;
    match t
    case Ended =>
      ScanNothing(s);
    case Dangling =>
      Scan1(s, '\\');
    case OpenSingle(text) =>
      Scan1(s, '\'');
      ScanSingle(s.(mode := Single, active := true), text);
      ScanAppend(s, "'", text);
    case OpenDouble(inner) =>
      Scan1(s, '\"');
      ScanInner(s.(mode := Double, active := true), inner);
      ScanAppend(s, "\"", InnerText(inner));
    case OpenEscape(inner) =>
      Scan1(s, '\"');
      ScanInner(s.(mode := Double, active := true), inner);
      ScanAppend(s, "\"", InnerText(inner));
      var u := s.(mode := Double, active := true, word := s.word + InnerValue(inner));
      Scan1(u, '\\');
      ScanAppend(s, "\"" + InnerText(inner), "\\");
    case Stopped(c, rest) =>
      Scan1(s, c);
      ScanKeeps(Step(s, c), rest);
      ScanAppend(s, [c], rest);
  }

  /** The verdict of every line, by its reading: the first reason among the segments in front of the last; then the
      character that is not decoded; then quotes that are not closed; then the last segment. */
  lemma VerdictReads(allowed: set<string>, l: seq<Segment>, t: Tail)
    requires LineFits(l) && TailFits(t)
    ensures var front := FirstReason(allowed, Before(l));
      Judge(allowed, LineText(l) + TailText(t))
      == if front != Ok then front
         else match t
              case Stopped(c, _) => if c == '~' then UnsafePath else Unsupported
              case Ended => WordsVerdict(allowed, LastValues(l, t))
              case Dangling => WordsVerdict(allowed, LastValues(l, t))
              case _ => Unsupported
  {
    hide Scan, LineText, TailText, FirstReason, WordsVerdict, LineFits, TailFits, Values, AddPart;
    ScanLine(l);
    var s := Scan(START, LineText(l));
    ScanTail(s, t);
    ScanAppend(START, LineText(l), TailText(t));
    if t.Dangling? {
      DanglingValues(l);
    }
  }

  lemma DanglingValues(l: seq<Segment>)
    requires LineFits(l)
    ensures var s := Scan(START, LineText(l)); Closed(s.(active := true)) == LastValues(l, Dangling)
  {
    hide Scan, LineText, WordsText, Values, SegmentFits;
    var p := InSingle("");
    var m := WithLast(l, AddPart(l[|l| - 1], p));
    PartJoins(l, p);
    ScanLine(l);
    ScanLine(m);
    var s := Scan(START, LineText(l));
    ScanAppend(START, LineText(l), PartText(p));
    ScanPart(s, p);
    assert s.word + "" == s.word;
    assert m[|m| - 1] == AddPart(l[|l| - 1], p);
  }

  /** A line is allowed exactly when its reading ends behind a complete part, or in a last backslash, and every segment
      is safe: an allowlisted command first, no suspicious word and no acting `find`. */
  lemma AllowedReads(allowed: set<string>, l: seq<Segment>, t: Tail)
    requires LineFits(l) && TailFits(t)
    ensures Judge(allowed, LineText(l) + TailText(t)) == Ok
       <==> && (t.Ended? || t.Dangling?) && SegmentSafe(allowed, LastValues(l, t))
            && forall i | 0 <= i < |l| - 1 :: SegmentSafe(allowed, Values(l[i].words))
  {
    hide LineText, TailText, SegmentFits, TailFits, Values, AddPart, FirstReason, SegmentSafe, LastValues, Judge;
    VerdictReads(allowed, l, t);
    FirstReasonOk(allowed, Before(l));
    VerdictOk(allowed, LastValues(l, t));
    assert forall i | 0 <= i < |l| - 1 :: Before(l)[i] == Values(l[i].words);
  }

  lemma VerdictOk(allowed: set<string>, words: seq<string>)
    ensures WordsVerdict(allowed, words) == Ok <==> SegmentSafe(allowed, words)
  {
    hide SegmentAllowed, SuspiciousWord;
  }

  // ------------------------------------------------------------------------
  // Two ways to write a word

  /** Any word between double quotes, with a backslash in front of each character that keeps its meaning there. */
  function DoubleQuoted(w: string): seq<Inner> {
    seq(|w|, k requires 0 <= k < |w| => if w[k] in {'\\', '\"', '$', '`'} then Esc(w[k]) else Lit(w[k]))
  }

  /** Any word with a backslash in front of every character. */
  function Backslashed(w: string): seq<Part> {
    seq(|w|, k requires 0 <= k < |w| => Escaped(w[k]))
  }

  /** Both are read as the word. */
  lemma WrittenReads(w: string)
    ensures PartFits(InDouble(DoubleQuoted(w))) && PartValue(InDouble(DoubleQuoted(w))) == w
    ensures PartsValue(Backslashed(w)) == w
  {
    hide InnerValue, PartsValue, DoubleQuoted, Backslashed;
    DoubleQuotedReads(w);
    BackslashedReads(w);
    DoubleQuotedFits(w);
  }

  lemma DoubleQuotedFits(w: string)
    ensures PartFits(InDouble(DoubleQuoted(w)))
  {
  }

  lemma {:induction false} DoubleQuotedReads(w: string)
    ensures InnerValue(DoubleQuoted(w)) == w
  {
    if w != "" {
      var front, c := w[..|w| - 1], w[|w| - 1];
      DoubleQuotedReads(front);
      assert DoubleQuoted(w)[..|w| - 1] == DoubleQuoted(front);
      hide DoubleQuoted;
      assert front + [c] == w;
    }
  }

  lemma {:induction false} BackslashedReads(w: string)
    ensures PartsValue(Backslashed(w)) == w
  {
    if w != "" {
      var front, c := w[..|w| - 1], w[|w| - 1];
      BackslashedReads(front);
      assert Backslashed(w)[..|w| - 1] == Backslashed(front);
      hide Backslashed;
      assert front + [c] == w;
    }
  }
}
