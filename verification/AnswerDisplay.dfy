// The whole answer: control sequences vanish without a trace, and every line
// is sanitized on its own, so an unfinished sequence ends with its line.

module AnswerDisplay {
  import opened Utf8
  import opened Sanitizer
  import opened SanitizerLaws
  import opened ControlFunctions

  /** The state `Render` is in after `cs`. */
  function After(cs: seq<Scalar>, st: State): State
    decreases |cs|
  {
    if cs == [] then st else After(cs[ScalarStep(cs, st).take..], ScalarStep(cs, st).next)
  }

  /** `b` does not complete an ESC at the end of `a` to a string terminator. */
  predicate Separate(a: seq<Scalar>, b: seq<Scalar>) {
    a == [] || b == [] || a[|a| - 1] != 27 || b[0] != 92
  }

  lemma OneStep(cs: seq<Scalar>, rest: seq<Scalar>, st: State)
    requires cs != [] && rest == cs[ScalarStep(cs, st).take..]
    ensures var r := ScalarStep(cs, st);
      && Render(cs, st) == (if r.keep then [cs[0]] + Render(rest, r.next) else Render(rest, r.next))
      && After(cs, st) == After(rest, r.next)
  {
  }

  lemma {:induction false} RenderAppend(a: seq<Scalar>, b: seq<Scalar>, st: State)
    requires Separate(a, b)
    ensures Render(a + b, st) == Render(a, st) + Render(b, After(a, st))
    ensures After(a + b, st) == After(b, After(a, st))
    decreases |a|
  {
    if a == [] {
      assert a + b == b;
    } else {
      var r := ScalarStep(a, st);
      StepLocal(a, b, st);
      var rest := a[r.take..];
      assert (a + b)[r.take..] == rest + b;
      RenderAppend(rest, b, r.next);
      assert rest != [] ==> rest[|rest| - 1] == a[|a| - 1];
      AppendStep(a, b, rest, st, r);
    }
  }

  lemma AppendStep(a: seq<Scalar>, b: seq<Scalar>, rest: seq<Scalar>, st: State, r: Step)
    requires a != [] && r == ScalarStep(a, st) == ScalarStep(a + b, st) && rest == a[r.take..]
    requires Render(rest + b, r.next) == Render(rest, r.next) + Render(b, After(rest, r.next))
    requires After(rest + b, r.next) == After(b, After(rest, r.next))
    ensures Render(a + b, st) == Render(a, st) + Render(b, After(a, st))
    ensures After(a + b, st) == After(b, After(a, st))
  {
    hide ScalarStep, Render, After;
    assert (a + b)[r.take..] == rest + b;
    OneStep(a, rest, st);
    OneStep(a + b, rest + b, st);
  }

  lemma StepLocal(a: seq<Scalar>, b: seq<Scalar>, st: State)
    requires a != [] && Separate(a, b)
    ensures ScalarStep(a + b, st) == ScalarStep(a, st)
  {
  }

  /** A complete control function between two texts leaves no trace. */
  lemma ControlFunctionVanishes(a: seq<Scalar>, p: Piece, b: seq<Scalar>)
    requires After(a, Normal) == Normal && Valid(p) && (p.Esc? || p.Sequence? || p.String?)
    ensures Render(a + TextOf(p) + b, Normal) == Render(a, Normal) + Render(b, Normal)
  {
    hide Render, After, Valid, TextOf;
    FunctionIntroduced(p);
    assert a + TextOf(p) + b == a + (TextOf(p) + b);
    RenderAppend(a, TextOf(p) + b, Normal);
    PieceRenders(p, b);
  }

  lemma FunctionIntroduced(p: Piece)
    requires Valid(p) && (p.Esc? || p.Sequence? || p.String?)
    ensures TextOf(p) != [] && Introducer(TextOf(p)[0])
  {
    hide EscapeBody, CsiBody, Payload;
  }

  /** An escape sequence (ECMA-35): ESC, intermediate characters, and a final character that opens nothing. */
  lemma EscapeSequenceVanishes(a: seq<Scalar>, i: seq<Scalar>, f: Scalar, b: seq<Scalar>)
    requires After(a, Normal) == Normal && EscapeBody(i) && EscapeFinal(f)
    ensures Render(a + ([27] + (i + [f])) + b, Normal) == Render(a, Normal) + Render(b, Normal)
  {
    hide Render, After;
    ControlFunctionVanishes(a, Esc(i, f), b);
  }

  /** A control sequence (ECMA-48 section 5.4), opened by ESC [ or by CSI. */
  lemma ControlSequenceVanishes(a: seq<Scalar>, o: seq<Scalar>, p: seq<Scalar>, f: Scalar, b: seq<Scalar>)
    requires After(a, Normal) == Normal && CsiOpener(o) && CsiBody(p) && 0x40 <= f <= 0x7E
    ensures Render(a + (o + (p + [f])) + b, Normal) == Render(a, Normal) + Render(b, Normal)
  {
    hide Render, After;
    ControlFunctionVanishes(a, Sequence(o, p, f), b);
  }

  /** A closed control string (ECMA-48 section 5.6), whatever it carries. */
  lemma ControlStringVanishes(a: seq<Scalar>, o: seq<Scalar>, p: seq<Scalar>, t: seq<Scalar>, b: seq<Scalar>)
    requires After(a, Normal) == Normal && StringOpener(o) && Payload(p) && StringCloser(t)
    ensures Render(a + (o + (p + t)) + b, Normal) == Render(a, Normal) + Render(b, Normal)
  {
    hide Render, After;
    ControlFunctionVanishes(a, Piece.String(o, p, t), b);
  }

  // ------------------------------------------------------------------------
  // Lines

  /** The lines the reader delivers: split at LF, NUL dropped, an unfinished last line counted. */
  function Lines(b: Bytes, cur: Bytes): seq<Bytes>
    decreases |b|
  {
    if b == [] then (if cur == [] then [] else [cur])
    else if b[0] == 10 then [cur] + Lines(b[1..], [])
    else if b[0] == 0 then Lines(b[1..], cur)
    else Lines(b[1..], cur + [b[0]])
  }

  function Emit(lines: seq<Bytes>): Bytes {
    if lines == [] then [] else Sanitize(lines[0]) + [10] + Emit(lines[1..])
  }

  function Display(b: Bytes): Bytes {
    Emit(Lines(b, []))
  }

  method DisplayAnswer(b: Bytes) returns (out: Bytes)
    ensures out == Display(b)
  {
    out := [];
    var cur: Bytes := [];
    for i := 0 to |b|
      invariant out + Emit(Lines(b[i..], cur)) == Display(b)
    {
      assert b[i..][1..] == b[i + 1..];
      if b[i] == 10 {
        var line := DisplayLine(cur);
        EmitHead(cur, Lines(b[i + 1..], []));
        out := out + (line + [10]);
        cur := [];
      } else if b[i] != 0 {
        cur := cur + [b[i]];
      }
    }
    if cur != [] {
      var line := DisplayLine(cur);
      EmitHead(cur, []);
      out := out + (line + [10]);
    }
  }

  lemma EmitHead(line: Bytes, rest: seq<Bytes>)
    ensures Emit([line] + rest) == Sanitize(line) + [10] + Emit(rest)
  {
  }

  lemma {:induction false} EmitAppend(a: seq<Bytes>, b: seq<Bytes>)
    ensures Emit(a + b) == Emit(a) + Emit(b)
  {
    if a == [] {
      assert a + b == b;
    } else {
      assert a + b == [a[0]] + (a[1..] + b);
      EmitHead(a[0], a[1..] + b);
      EmitAppend(a[1..], b);
    }
  }

  lemma {:induction false} LinesSplit(a: Bytes, b: Bytes, cur: Bytes)
    ensures Lines(a + [10] + b, cur) == Lines(a + [10], cur) + Lines(b, [])
    decreases |a|
  {
    if a == [] {
      assert a + [10] + b == [10] + b && ([10] + b)[1..] == b;
      assert a + [10] == [10] && [10][1..] == [];
    } else {
      var cur' := if a[0] == 10 then [] else if a[0] == 0 then cur else cur + [a[0]];
      assert (a + [10] + b)[1..] == a[1..] + [10] + b;
      assert (a + [10])[1..] == a[1..] + [10];
      LinesSplit(a[1..], b, cur');
    }
  }

  /** What precedes a line feed never changes how the later lines are shown. */
  lemma LinesAreIsolated(a: Bytes, b: Bytes)
    ensures Display(a + [10] + b) == Display(a + [10]) + Display(b)
  {
    LinesSplit(a, b, []);
    EmitAppend(Lines(a + [10], []), Lines(b, []));
  }

  lemma {:induction false} ReadLine(l: Bytes, rest: Bytes, cur: Bytes)
    requires 10 !in l && 0 !in l
    ensures Lines(l + [10] + rest, cur) == [cur + l] + Lines(rest, [])
    decreases |l|
  {
    if l == [] {
      assert l + [10] + rest == [10] + rest && ([10] + rest)[1..] == rest && cur + l == cur;
    } else {
      assert (l + [10] + rest)[1..] == l[1..] + [10] + rest;
      assert l[0] in l;
      ReadLine(l[1..], rest, cur + [l[0]]);
      assert cur + [l[0]] + l[1..] == cur + l;
    }
  }

  function Joined(lines: seq<Bytes>): Bytes {
    if lines == [] then [] else lines[0] + [10] + Joined(lines[1..])
  }

  lemma {:induction false} AnswerLines(lines: seq<Bytes>, last: Bytes)
    requires (forall i | 0 <= i < |lines| :: 10 !in lines[i] && 0 !in lines[i]) && 10 !in last && 0 !in last
    ensures Lines(Joined(lines) + last, []) == lines + if last == [] then [] else [last]
  {
    if lines == [] {
      assert [] + last == last;
      LastLine(last, []);
    } else {
      var rest := lines[1..];
      assert lines == [lines[0]] + rest;
      AnswerLines(rest, last);
      ReadLine(lines[0], Joined(rest) + last, []);
      assert lines[0] + [10] + Joined(rest) + last == lines[0] + [10] + (Joined(rest) + last);
      assert [] + lines[0] == lines[0];
    }
  }

  /** An answer of lines is shown line by line, each on its own, and an unfinished last line like a finished one. */
  lemma AnswerIsShown(lines: seq<Bytes>, last: Bytes)
    requires (forall i | 0 <= i < |lines| :: 10 !in lines[i] && 0 !in lines[i]) && 10 !in last && 0 !in last
    ensures Display(Joined(lines) + last) == Emit(lines) + if last == [] then [] else Sanitize(last) + [10]
  {
    hide Sanitize, Lines, Joined;
    AnswerLines(lines, last);
    EmitAppend(lines, if last == [] then [] else [last]);
    EmitOne(last);
  }

  lemma EmitOne(l: Bytes)
    ensures Emit([]) == [] && Emit([l]) == Sanitize(l) + [10]
  {
    hide Sanitize;
    EmitHead(l, []);
    assert [l] + [] == [l] && Sanitize(l) + [10] + [] == Sanitize(l) + [10];
  }

  lemma {:induction false} LastLine(l: Bytes, cur: Bytes)
    requires 10 !in l && 0 !in l
    ensures Lines(l, cur) == if cur + l == [] then [] else [cur + l]
    decreases |l|
  {
    if l == [] {
      assert cur + l == cur;
    } else {
      assert l[0] in l;
      LastLine(l[1..], cur + [l[0]]);
      assert cur + [l[0]] + l[1..] == cur + l;
    }
  }

  /** A NUL leaves no trace. */
  lemma {:induction false} NulDropped(a: Bytes, b: Bytes, cur: Bytes)
    ensures Lines(a + [0] + b, cur) == Lines(a + b, cur)
    decreases |a|
  {
    if a == [] {
      assert a + [0] + b == [0] + b && ([0] + b)[1..] == b && a + b == b;
    } else {
      assert (a + [0] + b)[1..] == a[1..] + [0] + b && (a + b)[1..] == a[1..] + b;
      NulDropped(a[1..], b, if a[0] == 10 then [] else if a[0] == 0 then cur else cur + [a[0]]);
    }
  }

  function SanitizeAll(lines: seq<Bytes>): seq<Bytes> {
    if lines == [] then [] else [Sanitize(lines[0])] + SanitizeAll(lines[1..])
  }

  /** Reading the display back gives the sanitized lines: as many lines, none merged or split. */
  lemma {:induction false} DisplayedLines(lines: seq<Bytes>)
    ensures Lines(Emit(lines), []) == SanitizeAll(lines)
  {
    if lines != [] {
      var l := Sanitize(lines[0]);
      SafeExactly(lines[0]);
      assert 10 !in l && 0 !in l;
      ReadLine(l, Emit(lines[1..]), []);
      assert [] + l == l;
      DisplayedLines(lines[1..]);
    }
  }

  lemma {:induction false} EmitSanitized(lines: seq<Bytes>)
    ensures Emit(SanitizeAll(lines)) == Emit(lines)
  {
    if lines != [] {
      Idempotent(lines[0]);
      EmitSanitized(lines[1..]);
      EmitHead(Sanitize(lines[0]), SanitizeAll(lines[1..]));
    }
  }

  /** Displaying a displayed answer changes nothing. */
  lemma DisplayIdempotent(b: Bytes)
    ensures Display(Display(b)) == Display(b)
  {
    DisplayedLines(Lines(b, []));
    EmitSanitized(Lines(b, []));
  }
}
