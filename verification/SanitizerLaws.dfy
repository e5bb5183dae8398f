// What the sanitizer guarantees: its results are exactly the safe lines, it is
// idempotent on every byte line, and on UTF-8 text it is a filter of characters.

module SanitizerLaws {
  import opened Utf8
  import opened Sanitizer

  /** `s` read as units is kept whole. */
  predicate Clean(s: Bytes)
    decreases |s|
  {
    s == [] || (StepOf(s, Normal).keep && Clean(s[UnitLen(s)..]))
  }

  /** Safe for a terminal, said of byte positions alone: no C0 or DEL byte, no C1 control
      as C2 80..9F, no Bidi control, and 80..9F only inside a well-formed sequence. */
  ghost predicate Safe(s: Bytes) {
    && (forall i | 0 <= i < |s| :: 32 <= s[i] != 127)
    && (forall i | 0 <= i < |s| - 1 :: !(s[i] == 194 && 128 <= s[i + 1] < 160))
    && (forall i | 0 <= i < |s| :: !BidiHead(s[i..]))
    && (forall i | 0 <= i < |s| && 128 <= s[i] < 160 :: Covered(s, i))
  }

  /** A well-formed sequence that starts before `i` reaches over `i`. */
  ghost predicate Covered(s: Bytes, i: nat)
    requires i < |s|
  {
    exists j | 0 <= j < i :: i < j + WfLen(s[j..])
  }

  lemma {:induction false} CleanIsKept(s: Bytes)
    requires Clean(s)
    ensures Sanitize(s) == s
    decreases |s|
  {
    if s != [] {
      var k := UnitLen(s);
      CleanIsKept(s[k..]);
      assert s == s[..k] + s[k..];
      Unfold(s, 1, Normal, StepOf(s, Normal));
    }
  }

  lemma StrayHead(s: Bytes)
    requires Clean(s) && s != [] && Cont(s[0])
    ensures Clean(s[1..]) && 160 <= s[0]
  {
  }

  predicate Continues(s: Bytes, j: nat)
    requires j <= |s|
  {
    forall i | 0 <= i < j :: Cont(s[i])
  }

  /** The first `j` bytes are no C1 bytes. */
  predicate High(s: Bytes, j: nat)
    requires j <= |s|
  {
    forall i | 0 <= i < j :: 160 <= s[i]
  }

  lemma ContinuesTail(s: Bytes, j: nat)
    requires 0 < j <= |s| && Continues(s, j)
    ensures Cont(s[0]) && Continues(s[1..], j - 1)
  {
    hide Cont;
  }

  lemma HighFront(s: Bytes, j: nat)
    requires 0 < j <= |s| && 160 <= s[0] && High(s[1..], j - 1)
    ensures High(s, j)
  {
    forall i | 0 <= i < j
      ensures 160 <= s[i]
    {
      if i > 0 { assert s[i] == s[1..][i - 1]; }
    }
  }

  /** Continuation bytes at the head of a clean line are single units from A0 to BF. */
  lemma {:induction false} StrayContinuations(s: Bytes, j: nat)
    requires Clean(s) && j <= |s| && Continues(s, j)
    ensures Clean(s[j..]) && High(s, j)
  {
    if j > 0 {
      hide Clean, Cont, Continues, High;
      ContinuesTail(s, j);
      StrayHead(s);
      StrayContinuations(s[1..], j - 1);
      assert s[1..][j - 1..] == s[j..];
      HighFront(s, j);
    } else {
      assert s[0..] == s;
    }
  }

  /** A well-formed sequence is `k` bytes and no shorter: cutting it after `k` keeps it, whatever follows. */
  lemma HeadAlone(s: Bytes, rest: Bytes)
    requires WfLen(s) > 0
    ensures WfLen(s[..WfLen(s)] + rest) == WfLen(s)
    ensures BidiHead(s[..WfLen(s)] + rest) <==> BidiHead(s)
  {
    var t := s[..WfLen(s)] + rest;
    assert forall i | 0 <= i < WfLen(s) :: t[i] == s[i];
  }

  lemma WfLenContinuations(s: Bytes)
    requires WfLen(s) > 0
    ensures WfLen(s) > 1 ==> 194 <= s[0] <= 244
    ensures WfLen(s) == 1 ==> s[0] < 128
    ensures forall i | 1 <= i < WfLen(s) :: Cont(s[i])
  {
  }

  /** A stray byte in front of a clean line gives a clean line, even when it completes a sequence. */
  lemma StrayPrepend(b: Byte, t: Bytes)
    requires 160 <= b && Clean(t)
    ensures Clean([b] + t)
  {
    hide Clean, WfLen, StepOf, UnitLen, Continues, High;
    var s := [b] + t;
    if WfLen(s) == 0 {
      StrayUnit(s);
      assert s[1..] == t;
    } else {
      CompletedTail(b, t);
      StrayContinuations(t, WfLen(s) - 1);
      CompletedUnit(b, t);
      assert s[WfLen(s)..] == t[WfLen(s) - 1..];
    }
    CleanUnit(s);
  }

  lemma CleanUnit(s: Bytes)
    requires s != [] && StepOf(s, Normal).keep && Clean(s[UnitLen(s)..])
    ensures Clean(s)
  {
    hide StepOf;
  }

  lemma StrayUnit(s: Bytes)
    requires s != [] && 160 <= s[0] && WfLen(s) == 0
    ensures StepOf(s, Normal).keep && UnitLen(s) == 1
  {
  }

  /** The stray byte completes a sequence with the continuations behind it. */
  lemma CompletedTail(b: Byte, t: Bytes)
    requires 160 <= b && WfLen([b] + t) > 0
    ensures 0 < WfLen([b] + t) - 1 <= |t| && Continues(t, WfLen([b] + t) - 1)
  {
    hide Cont;
    var s := [b] + t;
    WfLenContinuations(s);
    forall i | 0 <= i < WfLen(s) - 1
      ensures Cont(t[i])
    {
      assert Cont(s[i + 1]);
    }
  }

  /** Its second byte is no C1 byte, so it is no control and no Bidi control. */
  lemma CompletedUnit(b: Byte, t: Bytes)
    requires 160 <= b && WfLen([b] + t) > 1 && High(t, WfLen([b] + t) - 1)
    ensures StepOf([b] + t, Normal).keep && UnitLen([b] + t) == WfLen([b] + t)
  {
    var s := [b] + t;
    assert s[1] == t[0] >= 160;
  }

  lemma UnitPrepend(s: Bytes, t: Bytes)
    requires s != [] && StepOf(s, Normal).keep && Clean(t)
    ensures Clean(s[..UnitLen(s)] + t)
  {
    var k := UnitLen(s);
    if WfLen(s) == 0 {
      assert s[..k] == [s[0]];
      StrayPrepend(s[0], t);
    } else {
      HeadAlone(s, t);
      var u := s[..k] + t;
      assert u[0] == s[0] && (k > 1 ==> u[1] == s[1]);
      assert u[k..] == t;
    }
  }

  lemma {:induction false} FilterIsClean(s: Bytes, st: State)
    ensures Clean(Filter(s, st))
    decreases |s|
  {
    if s != [] {
      var r := StepOf(s, st);
      FilterIsClean(s[r.take..], r.next);
      if r.keep {
        UnitPrepend(s, Filter(s[r.take..], r.next));
      }
    }
  }

  /** Sanitizing twice is sanitizing once, for every byte line. */
  lemma Idempotent(s: Bytes)
    ensures Sanitize(Sanitize(s)) == Sanitize(s)
  {
    FilterIsClean(s, Normal);
    CleanIsKept(Sanitize(s));
  }

  // ------------------------------------------------------------------------
  // Safety

  /** A suffix of a clean line that does not start inside a sequence is clean. */
  lemma {:induction false} CleanSuffix(s: Bytes, i: nat)
    requires Clean(s) && i < |s| && !Cont(s[i])
    ensures Clean(s[i..])
    decreases |s|
  {
    if i == 0 {
      assert s[0..] == s;
    } else {
      var k := UnitLen(s);
      if WfLen(s) > 0 { WfLenContinuations(s); }
      assert k <= i;
      CleanSuffix(s[k..], i - k);
      assert s[k..][i - k..] == s[i..];
    }
  }

  lemma {:induction false} CleanBytes(s: Bytes, i: nat)
    requires Clean(s) && i < |s|
    ensures 32 <= s[i] != 127
    ensures 128 <= s[i] < 160 ==> Covered(s, i)
    decreases |s|
  {
    var k := UnitLen(s);
    if i < k {
      HeadBytes(s, i);
    } else {
      hide StepOf, WfLen;
      CleanBytes(s[k..], i - k);
      if 128 <= s[i] < 160 {
        var j :| 0 <= j < i - k && i - k < j + WfLen(s[k..][j..]);
        assert s[k..][j..] == s[k + j..];
        assert 0 <= k + j < i && i < k + j + WfLen(s[k + j..]);
      }
    }
  }

  lemma HeadBytes(s: Bytes, i: nat)
    requires s != [] && StepOf(s, Normal).keep && i < UnitLen(s)
    ensures 32 <= s[i] != 127
    ensures 128 <= s[i] < 160 ==> Covered(s, i)
  {
    if WfLen(s) > 0 { WfLenContinuations(s); }
    assert s[0..] == s;
    assert 0 < i ==> i < 0 + WfLen(s[0..]);
  }

  lemma CleanHead(s: Bytes)
    requires s != [] && Clean(s) && !Cont(s[0])
    ensures !BidiHead(s) && (|s| > 1 ==> !(s[0] == 194 && 128 <= s[1] < 160))
  {
  }

  lemma CleanIsSafe(s: Bytes)
    requires Clean(s)
    ensures Safe(s)
  {
    hide Clean, WfLen, Covered;
    forall i | 0 <= i < |s|
      ensures 32 <= s[i] != 127 && !BidiHead(s[i..])
      ensures i < |s| - 1 ==> !(s[i] == 194 && 128 <= s[i + 1] < 160)
      ensures 128 <= s[i] < 160 ==> Covered(s, i)
    {
      CleanBytes(s, i);
      if !Cont(s[i]) {
        CleanSuffix(s, i);
        CleanHead(s[i..]);
        assert s[i..][0] == s[i] && (i < |s| - 1 ==> s[i..][1] == s[i + 1]);
      }
    }
  }

  lemma SafeTail(s: Bytes)
    requires s != [] && Safe(s)
    ensures Safe(s[UnitLen(s)..])
  {
    hide BidiHead, WfLen, UnitLen;
    var k := UnitLen(s);
    var t := s[k..];
    forall i | 0 <= i < |t|
      ensures 32 <= t[i] != 127 && !BidiHead(t[i..])
      ensures i < |t| - 1 ==> !(t[i] == 194 && 128 <= t[i + 1] < 160)
      ensures 128 <= t[i] < 160 ==> Covered(t, i)
    {
      assert t[i] == s[k + i] && t[i..] == s[k + i..];
      assert i < |t| - 1 ==> t[i + 1] == s[k + i + 1];
      if 128 <= t[i] < 160 { CoveredTail(s, i); }
    }
  }

  lemma CoveredTail(s: Bytes, i: nat)
    requires s != [] && UnitLen(s) + i < |s| && Covered(s, UnitLen(s) + i)
    ensures Covered(s[UnitLen(s)..], i)
  {
    var k := UnitLen(s);
    var j :| 0 <= j < k + i && k + i < j + WfLen(s[j..]);
    assert k <= j by {
      WfLenContinuations(s[j..]);
      if WfLen(s) > 0 { WfLenContinuations(s); }
      assert s[0..] == s && s[j] == s[j..][0];
    }
    assert s[j..] == s[k..][j - k..];
  }

  lemma {:induction false} SafeIsClean(s: Bytes)
    requires Safe(s)
    ensures Clean(s)
    decreases |s|
  {
    if s != [] {
      assert s[0..] == s;
      assert !(128 <= s[0] < 160);
      SafeTail(s);
      SafeIsClean(s[UnitLen(s)..]);
    }
  }

  /** Every result is safe, and exactly the safe lines are left as they are. */
  lemma SafeExactly(s: Bytes)
    ensures Safe(Sanitize(s))
    ensures Sanitize(s) == s <==> Safe(s)
  {
    FilterIsClean(s, Normal);
    CleanIsSafe(Sanitize(s));
    if Safe(s) {
      SafeIsClean(s);
      CleanIsKept(s);
    }
  }

  // ------------------------------------------------------------------------
  // Characters

  predicate BidiScalar(c: Scalar) {
    || c == 0x61C || c == 0x200E || c == 0x200F
    || 0x202A <= c <= 0x202E || 0x2066 <= c <= 0x2069
  }

  function ScalarStep(cs: seq<Scalar>, st: State): (r: Step)
    requires cs != []
    ensures 1 <= r.take <= |cs| && (r.keep ==> r.take == 1)
  {
    var c := cs[0];
    if BidiScalar(c) then Step(false, 1, st)
    else if c < 160 then Advance(c, if |cs| > 1 then cs[1] else 0, 1, st)
    else Step(st == Normal, 1, st)
  }

  /** The sanitizer on characters: the same control functions, no bytes. */
  function Render(cs: seq<Scalar>, st: State): seq<Scalar>
    decreases |cs|
  {
    if cs == [] then []
    else
      var r := ScalarStep(cs, st);
      var rest := Render(cs[r.take..], r.next);
      if r.keep then [cs[0]] + rest else rest
  }

  lemma EncodedUnit(c: Scalar, t: Bytes)
    ensures var s := Encode(c) + t;
      && s != [] && UnitLen(s) == |Encode(c)| && s[..UnitLen(s)] == Encode(c) && s[UnitLen(s)..] == t
      && Classify(s) == if BidiScalar(c) then Bidi else if c < 160 then Value(c) else Text
  {
    EncodeIsWellFormed(c, t);
    var s := Encode(c) + t;
    if 0x80 <= c < 0x800 {
      assert c == 64 * (c / 64) + c % 64;
    } else if 0x800 <= c < 0x1_0000 {
      assert c / 64 == 64 * (c / 4096) + c / 64 % 64;
      assert c == 4096 * (c / 4096) + 64 * (c / 64 % 64) + c % 64;
    }
  }

  lemma FollowByte(cs: seq<Scalar>)
    requires cs != []
    ensures EncodeAll(cs) != [] && (EncodeAll(cs)[0] == 92 <==> cs[0] == 92)
  {
  }

  lemma AdvanceFollow(n: int, f: int, g: int, take: nat, st: State)
    requires f == 92 <==> g == 92
    ensures Advance(n, f, take, st) == Advance(n, g, take, st)
  {
  }

  /** The bytes after the step encode the characters after the step. */
  lemma StepRest(cs: seq<Scalar>, e: Bytes, t: Bytes, take: nat)
    requires cs != [] && e == Encode(cs[0]) && t == EncodeAll(cs[1..])
    requires take == 1 || (take == 2 && |cs| >= 2 && cs[1] == 92)
    ensures |e| + take - 1 <= |e + t| && (e + t)[|e| + take - 1..] == EncodeAll(cs[take..])
  {
    if take == 2 {
      assert cs[1..][1..] == cs[2..];
      assert t == [92] + EncodeAll(cs[2..]);
    }
  }

  /** The byte step on a unit `e` with class `u`. */
  lemma StepOnUnit(e: Bytes, t: Bytes, u: Unit, st: State)
    requires e != [] && UnitLen(e + t) == |e| && Classify(e + t) == u
    ensures StepOf(e + t, st) == match u
      case Bidi => Step(false, |e|, st)
      case Text => Step(st == Normal, |e|, st)
      case Value(n) => Advance(n, if t != [] then t[0] else 0, |e|, st)
  {
    var s := e + t;
    assert |e| < |s| ==> s[|e|] == t[0];
  }

  /** What `StepsAgree` says of one character `c` encoded as `e` in front of `t`. */
  lemma UnitStepAgrees(c: Scalar, e: Bytes, t: Bytes, st: State, follow: int)
    requires e != [] && UnitLen(e + t) == |e|
    requires Classify(e + t) == if BidiScalar(c) then Bidi else if c < 160 then Value(c) else Text
    requires (if t != [] then t[0] else 0) == 92 <==> follow == 92
    ensures var b := StepOf(e + t, st);
      var r := if BidiScalar(c) then Step(false, 1, st)
               else if c < 160 then Advance(c, follow, 1, st)
               else Step(st == Normal, 1, st);
      b.keep == r.keep && b.next == r.next && b.take - |e| == r.take - 1
  {
    StepOnUnit(e, t, Classify(e + t), st);
    if !BidiScalar(c) && c < 160 {
      var f := if t != [] then t[0] else 0;
      AdvanceFollow(c, f, follow, |e|, st);
      AdvanceTake(c, follow, |e|, st);
    }
  }

  /** The byte step at the head of an encoding is the character step. */
  lemma StepsAgree(cs: seq<Scalar>, e: Bytes, t: Bytes, st: State)
    requires cs != [] && e == Encode(cs[0]) && t == EncodeAll(cs[1..])
    ensures var r := ScalarStep(cs, st);
      && e + t != [] && var b := StepOf(e + t, st);
      && b.keep == r.keep && b.next == r.next && b.take - |e| == r.take - 1
  {
    EncodedUnit(cs[0], t);
    var follow: int := if |cs| > 1 then cs[1] else 0;
    assert (if t != [] then t[0] else 0) == 92 <==> follow == 92 by {
      if |cs| > 1 { FollowByte(cs[1..]); }
    }
    UnitStepAgrees(cs[0], e, t, st, follow);
  }

  lemma AdvanceTake(n: int, follow: int, take: nat, st: State)
    ensures var (a, b) := (Advance(n, follow, 1, st), Advance(n, follow, take, st));
      b.keep == a.keep && b.next == a.next && b.take - take == a.take - 1
  {
  }

  lemma AdvanceTakesTwo(cs: seq<Scalar>, st: State)
    requires cs != [] && ScalarStep(cs, st).take != 1
    ensures ScalarStep(cs, st).take == 2 && |cs| >= 2 && cs[1] == 92 && !ScalarStep(cs, st).keep
  {
  }

  /** On encoded text the byte filter keeps or drops whole characters, as `Render` says. */
  lemma {:induction false} FiltersCharacters(cs: seq<Scalar>, st: State)
    ensures Filter(EncodeAll(cs), st) == EncodeAll(Render(cs, st))
    decreases |cs|
  {
    if cs != [] {
      hide Filter, Encode, EncodeAll, Render, ScalarStep, StepOf;
      var r := ScalarStep(cs, st);
      TakesOneOrTwo(cs, st);
      FiltersCharacters(cs[r.take..], r.next);
      FiltersHead(cs, st, Render(cs[r.take..], r.next));
      RenderHead(cs, st);
    }
  }

  lemma TakesOneOrTwo(cs: seq<Scalar>, st: State)
    requires cs != []
    ensures var r := ScalarStep(cs, st); r.take == 1 || (r.take == 2 && |cs| >= 2 && cs[1] == 92 && !r.keep)
  {
    hide Advance;
    if ScalarStep(cs, st).take != 1 { AdvanceTakesTwo(cs, st); }
  }

  lemma RenderHead(cs: seq<Scalar>, st: State)
    requires cs != []
    ensures var r := ScalarStep(cs, st);
      var rest := Render(cs[r.take..], r.next);
      Render(cs, st) == if r.keep then [cs[0]] + rest else rest
  {
    hide ScalarStep;
  }

  /** The first character, when the rest is filtered to the encoding of `rest`. */
  lemma FiltersHead(cs: seq<Scalar>, st: State, rest: seq<Scalar>)
    requires cs != []
    requires var r := ScalarStep(cs, st); Filter(EncodeAll(cs[r.take..]), r.next) == EncodeAll(rest)
    ensures Filter(EncodeAll(cs), st) == EncodeAll(if ScalarStep(cs, st).keep then [cs[0]] + rest else rest)
  {
    hide Filter, Encode, ScalarStep, StepOf;
    var e, t, r := Encode(cs[0]), EncodeAll(cs[1..]), ScalarStep(cs, st);
    TakesOneOrTwo(cs, st);
    assert EncodeAll(cs) == e + t;
    hide EncodeAll;
    StepsAgree(cs, e, t, st);
    StepRest(cs, e, t, r.take);
    FilterHead(e, t, st, StepOf(e + t, st));
    EncodeAllPrepend(cs[0], rest);
  }

  lemma FilterHead(e: Bytes, t: Bytes, st: State, b: Step)
    requires e + t != [] && b == StepOf(e + t, st) && (b.keep ==> b.take == |e|)
    ensures var rest := Filter((e + t)[b.take..], b.next); Filter(e + t, st) == if b.keep then e + rest else rest
  {
    if b.keep { assert (e + t)[..|e|] == e; }
  }

  lemma Utf8Preserved(s: Bytes)
    requires WellFormed(s)
    ensures WellFormed(Sanitize(s))
  {
    WellFormedIffEncoding(s);
    var cs: seq<Scalar> :| EncodeAll(cs) == s;
    FiltersCharacters(cs, Normal);
    EncodeAllIsWellFormed(Render(cs, Normal));
  }

  predicate Visible(c: Scalar) {
    !Control(c) && !BidiScalar(c)
  }

  predicate Subsequence<T(==)>(a: seq<T>, b: seq<T>)
    decreases |b|
  {
    a == [] || (b != [] && if a[0] == b[0] then Subsequence(a[1..], b[1..]) else Subsequence(a, b[1..]))
  }

  lemma {:induction false} SubsequenceSkip<T>(a: seq<T>, b: seq<T>, n: nat)
    requires n <= |b| && Subsequence(a, b[n..])
    ensures Subsequence(a, b)
    decreases |b|, n
  {
    if n == 0 {
      assert b[0..] == b;
    } else if a != [] {
      assert b[1..][n - 1..] == b[n..];
      if a[0] == b[0] {
        DropFirst(a, b[n..]);
        assert b[n..] == b[1..][n - 1..];
        SubsequenceSkip(a[1..], b[1..], n - 1);
      } else {
        SubsequenceSkip(a, b[1..], n - 1);
      }
    }
  }

  lemma {:induction false} DropFirst<T>(a: seq<T>, b: seq<T>)
    requires a != [] && Subsequence(a, b)
    ensures Subsequence(a[1..], b)
    decreases |b|
  {
    if a[0] == b[0] {
      if |a| > 1 && a[1] == b[0] {
        DropFirst(a[1..], b[1..]);
      }
    } else {
      DropFirst(a, b[1..]);
      if |a| > 1 && a[1] == b[0] {
        DropFirst(a[1..], b[1..]);
      }
    }
  }

  /** Only visible characters come out. */
  lemma {:induction false} RenderedAreVisible(cs: seq<Scalar>, st: State)
    ensures forall c | c in Render(cs, st) :: Visible(c)
    decreases |cs|
  {
    if cs != [] {
      var r := ScalarStep(cs, st);
      RenderedAreVisible(cs[r.take..], r.next);
    }
  }

  /** What comes out keeps the order of the input; nothing is invented. */
  lemma {:induction false} RenderedInOrder(cs: seq<Scalar>, st: State)
    ensures Subsequence(Render(cs, st), cs)
    decreases |cs|
  {
    if cs != [] {
      var r := ScalarStep(cs, st);
      RenderedInOrder(cs[r.take..], r.next);
      if r.keep {
        assert Render(cs, st)[1..] == Render(cs[1..], r.next);
      } else {
        SubsequenceSkip(Render(cs[r.take..], r.next), cs, r.take);
      }
    }
  }

  /** Text of visible characters is left as it is, and only such text. */
  lemma {:induction false} VisibleTextUnchanged(cs: seq<Scalar>)
    ensures Render(cs, Normal) == cs <==> forall c | c in cs :: Visible(c)
    decreases |cs|
  {
    RenderedAreVisible(cs, Normal);
    if cs != [] && forall c | c in cs :: Visible(c) {
      assert Visible(cs[0]) && forall c | c in cs[1..] :: c in cs;
      VisibleTextUnchanged(cs[1..]);
      assert cs == [cs[0]] + cs[1..];
    }
  }
}
