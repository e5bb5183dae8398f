// A grammar of what an answer line can hold, and what of it reaches the screen:
// visible characters, and control functions as ECMA-48 writes them, each dropped
// whole, broken off or unfinished ones included.

module ControlFunctions {
  import opened Utf8
  import opened Sanitizer
  import opened SanitizerLaws

  type Chars = seq<Scalar>

  /** ESC, CSI, and the C1 openers of control strings. */
  predicate Introducer(c: Scalar) {
    c == 27 || c == 0x9B || c == 0x90 || c == 0x98 || c == 0x9D || c == 0x9E || c == 0x9F
  }

  /** Behind ESC: neither a final character nor an introducer, so intermediate characters and whatever is ignored. */
  predicate EscapeBody(b: Chars) {
    forall i | 0 <= i < |b| :: !(0x30 <= b[i] <= 0x7E) && !Introducer(b[i])
  }

  /** Behind CSI: parameter and intermediate characters and whatever is ignored. */
  predicate CsiBody(b: Chars) {
    forall i | 0 <= i < |b| :: !(0x40 <= b[i] <= 0x7E) && !Introducer(b[i])
  }

  predicate StringFinal(c: Scalar) {
    c == 0x5D || c == 0x50 || c == 0x58 || c == 0x5E || c == 0x5F
  }

  predicate EscapeFinal(c: Scalar) {
    0x30 <= c <= 0x7E && c != 0x5B && !StringFinal(c)
  }

  predicate CsiOpener(o: Chars) {
    o == [0x9B] || (|o| >= 2 && o[0] == 27 && EscapeBody(o[1..|o| - 1]) && o[|o| - 1] == 0x5B)
  }

  predicate StringOpener(o: Chars) {
    || (|o| == 1 && Introducer(o[0]) && o[0] != 27 && o[0] != 0x9B)
    || (|o| >= 2 && o[0] == 27 && EscapeBody(o[1..|o| - 1]) && StringFinal(o[|o| - 1]))
  }

  predicate StringCloser(t: Chars) {
    t == [7] || t == [0x9C] || t == [27, 0x5C]
  }

  /** No string terminator stands in the payload. */
  predicate Payload(p: Chars) {
    forall i | 0 <= i < |p| :: p[i] != 7 && p[i] != 0x9C && (p[i] == 27 && i + 1 < |p| ==> p[i + 1] != 0x5C)
  }

  /** One character, a complete control function, or one that is broken off. */
  datatype Piece =
    | Char(c: Scalar)
    | Esc(body: Chars, final: Scalar)
    | Sequence(opener: Chars, body: Chars, final: Scalar)
    | String(opener: Chars, payload: Chars, closer: Chars)
    | BrokenEscape(body: Chars)
    | BrokenSequence(opener: Chars, body: Chars)
    | BrokenString(opener: Chars, payload: Chars)

  predicate Valid(p: Piece) {
    match p
    case Char(c) => !Introducer(c)
    case Esc(b, f) => EscapeBody(b) && EscapeFinal(f)
    case Sequence(o, b, f) => CsiOpener(o) && CsiBody(b) && 0x40 <= f <= 0x7E
    case String(o, p, t) => StringOpener(o) && Payload(p) && StringCloser(t)
    case BrokenEscape(b) => EscapeBody(b)
    case BrokenSequence(o, b) => CsiOpener(o) && CsiBody(b)
    case BrokenString(o, p) => StringOpener(o) && Payload(p)
  }

  function TextOf(p: Piece): Chars {
    match p
    case Char(c) => [c]
    case Esc(b, f) => [27] + (b + [f])
    case Sequence(o, b, f) => o + (b + [f])
    case String(o, p, t) => o + (p + t)
    case BrokenEscape(b) => [27] + b
    case BrokenSequence(o, b) => o + b
    case BrokenString(o, p) => o + p
  }

  function TextOfAll(ps: seq<Piece>): Chars {
    if ps == [] then [] else TextOf(ps[0]) + TextOfAll(ps[1..])
  }

  /** A sequence is broken off by the next introducer or by the end of the line, a string by the end only. */
  predicate WellPlaced(ps: seq<Piece>)
    decreases |ps|
  {
    ps == [] ||
    (&& Valid(ps[0]) && WellPlaced(ps[1..])
     && var rest := TextOfAll(ps[1..]);
        match ps[0]
        case BrokenEscape(_) => rest == [] || Introducer(rest[0])
        case BrokenSequence(_, _) => rest == [] || Introducer(rest[0])
        case BrokenString(_, _) => rest == []
        case _ => true)
  }

  /** What reaches the screen: the visible characters that belong to no control function. */
  function Shown(ps: seq<Piece>): Chars {
    if ps == [] then []
    else (if ps[0].Char? && Visible(ps[0].c) then [ps[0].c] else []) + Shown(ps[1..])
  }

  // ------------------------------------------------------------------------
  // Steps of the automaton, as the grammar needs them

  lemma Drop(c: Scalar, s: Chars, st: State, next: State)
    requires ScalarStep([c] + s, st) == Step(false, 1, next)
    ensures Render([c] + s, st) == Render(s, next)
  {
    assert ([c] + s)[1..] == s;
  }

  lemma CharStep(c: Scalar, s: Chars)
    requires !Introducer(c)
    ensures Render([c] + s, Normal) == (if Visible(c) then [c] else []) + Render(s, Normal)
  {
    assert ([c] + s)[1..] == s;
  }

  lemma {:induction false} EscapeBodyIgnored(b: Chars, s: Chars)
    requires EscapeBody(b)
    ensures Render(b + s, State.Escape) == Render(s, State.Escape)
    decreases |b|
  {
    if b == [] {
      assert b + s == s;
    } else {
      assert b + s == [b[0]] + (b[1..] + s);
      EscapeIdle(b[0], b[1..] + s);
      EscapeBodyIgnored(b[1..], s);
    }
  }

  lemma EscapeIdle(c: Scalar, s: Chars)
    requires !(0x30 <= c <= 0x7E) && !Introducer(c)
    ensures Render([c] + s, State.Escape) == Render(s, State.Escape)
  {
    hide Render;
    Drop(c, s, State.Escape, State.Escape);
  }

  lemma {:induction false} CsiBodyIgnored(b: Chars, s: Chars)
    requires CsiBody(b)
    ensures Render(b + s, Csi) == Render(s, Csi)
    decreases |b|
  {
    if b == [] {
      assert b + s == s;
    } else {
      assert b + s == [b[0]] + (b[1..] + s);
      CsiIdle(b[0], b[1..] + s);
      CsiBodyIgnored(b[1..], s);
    }
  }

  lemma CsiIdle(c: Scalar, s: Chars)
    requires !(0x40 <= c <= 0x7E) && !Introducer(c)
    ensures Render([c] + s, Csi) == Render(s, Csi)
  {
    hide Render;
    Drop(c, s, Csi, Csi);
  }

  /** Behind ESC and what is ignored there. */
  lemma AfterEscape(b: Chars, c: Scalar, s: Chars, next: State)
    requires EscapeBody(b) && ScalarStep([c] + s, State.Escape) == Step(false, 1, next)
    ensures Render([27] + (b + [c]) + s, Normal) == Render(s, next)
  {
    hide Render, ScalarStep;
    assert [27] + (b + [c]) + s == [27] + (b + ([c] + s));
    EscapeEntered(b + ([c] + s));
    EscapeBodyIgnored(b, [c] + s);
    Drop(c, s, State.Escape, next);
  }

  lemma EscapeEntered(s: Chars)
    ensures Render([27] + s, Normal) == Render(s, State.Escape)
  {
    Drop(27, s, Normal, State.Escape);
  }

  lemma EscapeEnds(b: Chars, f: Scalar, s: Chars)
    requires EscapeBody(b) && EscapeFinal(f)
    ensures Render([27] + (b + [f]) + s, Normal) == Render(s, Normal)
  {
    hide Render;
    AfterEscape(b, f, s, Normal);
  }

  lemma CsiEntered(o: Chars, s: Chars)
    requires CsiOpener(o)
    ensures Render(o + s, Normal) == Render(s, Csi)
  {
    hide Render, EscapeBody;
    if o == [0x9B] {
      Drop(0x9B, s, Normal, Csi);
    } else {
      var b := o[1..|o| - 1];
      assert o == [27] + (b + [0x5B]);
      AfterEscape(b, 0x5B, s, Csi);
    }
  }

  lemma StringEntered(o: Chars, s: Chars)
    requires StringOpener(o)
    ensures Render(o + s, Normal) == Render(s, Str)
  {
    hide Render, EscapeBody;
    if |o| == 1 {
      assert o == [o[0]];
      Drop(o[0], s, Normal, Str);
    } else {
      var (b, f) := (o[1..|o| - 1], o[|o| - 1]);
      assert o == [27] + (b + [f]);
      AfterEscape(b, f, s, Str);
    }
  }

  lemma CsiEnds(b: Chars, f: Scalar, s: Chars)
    requires CsiBody(b) && 0x40 <= f <= 0x7E
    ensures Render(b + [f] + s, Csi) == Render(s, Normal)
  {
    hide Render;
    assert b + [f] + s == b + ([f] + s);
    CsiBodyIgnored(b, [f] + s);
    Drop(f, s, Csi, Normal);
  }

  /** A payload is ignored up to what stands behind it, which must not complete a terminator. */
  lemma {:induction false} PayloadIgnored(p: Chars, s: Chars)
    requires Payload(p) && (p != [] && p[|p| - 1] == 27 && s != [] ==> s[0] != 0x5C)
    ensures Render(p + s, Str) == Render(s, Str)
    decreases |p|
  {
    if p == [] {
      assert p + s == s;
    } else {
      assert p + s == [p[0]] + (p[1..] + s);
      PayloadTail(p);
      PayloadStep(p[0], p[1..] + s);
      PayloadIgnored(p[1..], s);
    }
  }

  lemma PayloadTail(p: Chars)
    requires Payload(p) && p != []
    ensures Payload(p[1..]) && (|p| > 1 ==> p[1..][|p| - 2] == p[|p| - 1])
    ensures p[0] != 7 && p[0] != 0x9C && (p[0] == 27 && |p| > 1 ==> p[1] != 0x5C)
  {
  }

  lemma PayloadStep(c: Scalar, s: Chars)
    requires c != 7 && c != 0x9C && (c == 27 && s != [] ==> s[0] != 0x5C)
    ensures Render([c] + s, Str) == Render(s, Str)
  {
    hide Render;
    Drop(c, s, Str, Str);
  }

  lemma StringEnds(p: Chars, t: Chars, s: Chars)
    requires Payload(p) && StringCloser(t)
    ensures Render(p + t + s, Str) == Render(s, Normal)
  {
    hide Render;
    assert p + t + s == p + (t + s);
    PayloadIgnored(p, t + s);
    StringCloses(t, s);
  }

  lemma StringCloses(t: Chars, s: Chars)
    requires StringCloser(t)
    ensures Render(t + s, Str) == Render(s, Normal)
  {
    if |t| == 1 {
      Drop(t[0], s, Str, Normal);
    } else {
      assert (t + s)[2..] == s;
    }
  }

  /** An introducer begins a new control function, outside strings wherever it stands. */
  lemma IntroducerRestarts(s: Chars, st: State)
    requires s == [] || Introducer(s[0])
    requires st != Str
    ensures Render(s, st) == Render(s, Normal)
  {
  }

  // ------------------------------------------------------------------------
  // The grammar says what is displayed

  lemma PieceRenders(p: Piece, s: Chars)
    requires Valid(p) && match p
      case BrokenEscape(_) => s == [] || Introducer(s[0])
      case BrokenSequence(_, _) => s == [] || Introducer(s[0])
      case BrokenString(_, _) => s == []
      case _ => true
    ensures Render(TextOf(p) + s, Normal)
         == (if p.Char? && Visible(p.c) then [p.c] else []) + Render(s, Normal)
  {
    hide Render, EscapeBody, CsiBody, Payload, CsiOpener, StringOpener, StringCloser, Introducer, EscapeFinal;
    match p
    case Char(c) => CharStep(c, s);
    case Esc(b, f) => EscapeEnds(b, f, s);
    case Sequence(o, b, f) =>
      assert o + (b + [f]) + s == o + (b + [f] + s);
      CsiEntered(o, b + [f] + s);
      CsiEnds(b, f, s);
    case String(o, q, t) =>
      assert o + (q + t) + s == o + (q + t + s);
      StringEntered(o, q + t + s);
      StringEnds(q, t, s);
    case BrokenEscape(b) =>
      assert [27] + b + s == [27] + (b + s);
      EscapeEntered(b + s);
      EscapeBodyIgnored(b, s);
      IntroducerRestarts(s, State.Escape);
    case BrokenSequence(o, b) =>
      assert o + b + s == o + (b + s);
      CsiEntered(o, b + s);
      CsiBodyIgnored(b, s);
      IntroducerRestarts(s, Csi);
    case BrokenString(o, q) =>
      assert o + q + s == o + (q + s);
      StringEntered(o, q + s);
      PayloadIgnored(q, s);
      NothingRenders(Str);
      NothingRenders(Normal);
  }

  lemma NothingRenders(st: State)
    ensures Render([], st) == []
  {
  }

  /** Of any sequence of characters and control functions exactly the visible characters are displayed. */
  lemma {:induction false} GrammarRenders(ps: seq<Piece>)
    requires WellPlaced(ps)
    ensures Render(TextOfAll(ps), Normal) == Shown(ps)
    decreases |ps|
  {
    hide Render, Valid, TextOf;
    if ps == [] {
      NothingRenders(Normal);
    } else {
      GrammarRenders(ps[1..]);
      PieceRenders(ps[0], TextOfAll(ps[1..]));
    }
  }

  // ------------------------------------------------------------------------
  // Every text is in the grammar

  lemma {:induction false} SplitEscape(t: Chars) returns (b: Chars, rest: Chars)
    ensures t == b + rest && EscapeBody(b)
    ensures rest == [] || Introducer(rest[0]) || 0x30 <= rest[0] <= 0x7E
  {
    if t == [] || Introducer(t[0]) || 0x30 <= t[0] <= 0x7E {
      b, rest := [], t;
    } else {
      b, rest := SplitEscape(t[1..]);
      b := [t[0]] + b;
    }
  }

  lemma {:induction false} SplitCsi(t: Chars) returns (b: Chars, rest: Chars)
    ensures t == b + rest && CsiBody(b)
    ensures rest == [] || Introducer(rest[0]) || 0x40 <= rest[0] <= 0x7E
  {
    if t == [] || Introducer(t[0]) || 0x40 <= t[0] <= 0x7E {
      b, rest := [], t;
    } else {
      b, rest := SplitCsi(t[1..]);
      b := [t[0]] + b;
    }
  }

  /** The payload up to the first terminator; a string without one is all payload. */
  lemma {:induction false} SplitString(t: Chars) returns (p: Chars, c: Chars, rest: Chars)
    ensures t == p + (c + rest) && Payload(p)
    ensures if c == [] then rest == [] else StringCloser(c)
  {
    if t == [] {
      p, c, rest := [], [], [];
    } else if t[0] == 7 || t[0] == 0x9C {
      p, c, rest := [], [t[0]], t[1..];
    } else if t[0] == 27 && |t| > 1 && t[1] == 0x5C {
      p, c, rest := [], [27, 0x5C], t[2..];
    } else {
      p, c, rest := SplitString(t[1..]);
      PayloadMore(t[0], p, c + rest);
      p := [t[0]] + p;
      assert t == [t[0]] + t[1..];
    }
  }

  lemma PayloadMore(x: Scalar, p: Chars, more: Chars)
    requires Payload(p) && x != 7 && x != 0x9C && (x == 27 && |p + more| > 0 ==> (p + more)[0] != 0x5C)
    ensures Payload([x] + p)
  {
    var q := [x] + p;
    assert p != [] ==> (p + more)[0] == p[0];
    forall i | 0 <= i < |q|
      ensures q[i] != 7 && q[i] != 0x9C && (q[i] == 27 && i + 1 < |q| ==> q[i + 1] != 0x5C)
    {
      if i > 0 { assert q[i] == p[i - 1]; }
    }
  }

  lemma Prepend(p: Piece, ps: seq<Piece>)
    ensures TextOfAll([p] + ps) == TextOf(p) + TextOfAll(ps)
    ensures WellPlaced([p] + ps) <==> WellPlaced(ps) && Valid(p) && var rest := TextOfAll(ps);
      match p
      case BrokenEscape(_) => rest == [] || Introducer(rest[0])
      case BrokenSequence(_, _) => rest == [] || Introducer(rest[0])
      case BrokenString(_, _) => rest == []
      case _ => true
  {
    hide TextOf, Valid;
    assert ([p] + ps)[1..] == ps;
  }

  lemma NoPieces()
    ensures WellPlaced([]) && TextOfAll([]) == []
  {
  }

  lemma Associative(a: Chars, b: Chars, c: Chars)
    ensures a + (b + c) == a + b + c
  {
  }

  /** Every text can be read by the grammar, so the displayed text of every line is known from its reading. */
  lemma {:induction false} EveryTextReads(s: Chars) returns (ps: seq<Piece>)
    ensures WellPlaced(ps) && TextOfAll(ps) == s
    decreases |s|, 0
  {
    hide WellPlaced, TextOfAll;
    if s == [] {
      ps := [];
      NoPieces();
    } else {
      var c, t := s[0], s[1..];
      assert s == [c] + t;
      if !Introducer(c) {
        var more := EveryTextReads(t);
        ps := [Char(c)] + more;
        Prepend(Char(c), more);
      } else if c == 27 {
        ps := ReadEscape(t);
      } else if c == 0x9B {
        ps := ReadSequence([c], t);
      } else {
        ps := ReadString([c], t);
      }
    }
  }

  lemma {:induction false} ReadEscape(t: Chars) returns (ps: seq<Piece>)
    ensures WellPlaced(ps) && TextOfAll(ps) == [27] + t
    decreases |t|, 1
  {
    hide WellPlaced, TextOfAll, EscapeBody;
    var b, rest := SplitEscape(t);
    if rest == [] || Introducer(rest[0]) {
      var more := EveryTextReads(rest);
      ps := [BrokenEscape(b)] + more;
      Prepend(BrokenEscape(b), more);
      Associative([27], b, rest);
    } else {
      var f, later := rest[0], rest[1..];
      assert rest == [f] + later;
      var o := [27] + (b + [f]);
      assert o[1..|o| - 1] == b;
      Associative(b, [f], later);
      Associative([27], b + [f], later);
      if f == 0x5B {
        ps := ReadSequence(o, later);
      } else if StringFinal(f) {
        ps := ReadString(o, later);
      } else {
        var more := EveryTextReads(later);
        ps := [Esc(b, f)] + more;
        Prepend(Esc(b, f), more);
      }
    }
  }

  lemma {:induction false} ReadSequence(o: Chars, t: Chars) returns (ps: seq<Piece>)
    requires CsiOpener(o)
    ensures WellPlaced(ps) && TextOfAll(ps) == o + t
    decreases |t|, 1
  {
    hide WellPlaced, TextOfAll, CsiOpener, CsiBody;
    var b, rest := SplitCsi(t);
    if rest == [] || Introducer(rest[0]) {
      var more := EveryTextReads(rest);
      ps := [BrokenSequence(o, b)] + more;
      Prepend(BrokenSequence(o, b), more);
      Associative(o, b, rest);
    } else {
      var f, later := rest[0], rest[1..];
      assert rest == [f] + later;
      var more := EveryTextReads(later);
      ps := [Sequence(o, b, f)] + more;
      Prepend(Sequence(o, b, f), more);
      Associative(b, [f], later);
      Associative(o, b + [f], later);
    }
  }

  lemma {:induction false} ReadString(o: Chars, t: Chars) returns (ps: seq<Piece>)
    requires StringOpener(o)
    ensures WellPlaced(ps) && TextOfAll(ps) == o + t
    decreases |t|, 1
  {
    hide WellPlaced, TextOfAll, StringOpener, Payload, StringCloser;
    var p, c, rest := SplitString(t);
    if c == [] {
      NoPieces();
      ps := [BrokenString(o, p)] + [];
      Prepend(BrokenString(o, p), []);
      assert t == p && o + p + [] == o + t;
    } else {
      CloserIsSomething(c);
      var more := EveryTextReads(rest);
      ps := [String(o, p, c)] + more;
      Prepend(String(o, p, c), more);
      Associative(p, c, rest);
      Associative(o, p + c, rest);
    }
  }

  lemma CloserIsSomething(c: Chars)
    requires StringCloser(c)
    ensures c != []
  {
  }

  /** The displayed text of any line, through its reading. */
  lemma DisplayedIsShown(s: Chars) returns (ps: seq<Piece>)
    ensures WellPlaced(ps) && TextOfAll(ps) == s && Render(s, Normal) == Shown(ps)
    ensures Sanitize(EncodeAll(s)) == EncodeAll(Shown(ps))
  {
    hide WellPlaced, TextOfAll, Shown, Render;
    ps := EveryTextReads(s);
    GrammarRenders(ps);
    FiltersCharacters(s, Normal);
  }
}
