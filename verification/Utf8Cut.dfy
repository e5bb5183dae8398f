// Cutting a line to a byte cap without splitting a UTF-8 sequence.

module Utf8Cut {
  import opened Utf8

  predicate Lead(b: Byte) {
    194 <= b <= 247
  }

  function StripContinuations(t: Bytes): (r: Bytes)
    ensures r <= t
  {
    if t != [] && Cont(t[|t| - 1]) then StripContinuations(t[..|t| - 1]) else t
  }

  function StripPartial(t: Bytes): (r: Bytes)
    ensures r <= t
  {
    var r := StripContinuations(t);
    if r != [] && Lead(r[|r| - 1]) then r[..|r| - 1] else r
  }

  function Head(s: Bytes, m: nat): (t: Bytes)
    ensures t <= s && |t| <= m
  {
    if |s| <= m then s else s[..m]
  }

  method Utf8SafeCut(s: Bytes, m: nat) returns (t: Bytes)
    ensures t == StripPartial(Head(s, m))
  {
    t := Head(s, m);
    while |t| > 0
      invariant StripPartial(t) == StripPartial(Head(s, m))
      decreases |t|
    {
      var c := t[|t| - 1];
      if Cont(c) {
        t := t[..|t| - 1];
        continue;
      }
      if Lead(c) { t := t[..|t| - 1]; }
      break;
    }
  }

  lemma {:induction false} StripAfter(u: Bytes, t: Bytes)
    requires t != [] && !Cont(t[0])
    ensures StripContinuations(t) != []
    ensures StripContinuations(u + t) == u + StripContinuations(t)
    decreases |t|
  {
    var n := |t| - 1;
    assert (u + t)[|u + t| - 1] == t[n];
    if Cont(t[n]) {
      assert (u + t)[..|u + t| - 1] == u + t[..n];
      StripAfter(u, t[..n]);
    }
  }

  lemma {:induction false} StripAllContinuations(u: Bytes)
    requires u != [] && !Cont(u[0]) && forall i | 1 <= i < |u| :: Cont(u[i])
    ensures StripContinuations(u) == [u[0]]
    decreases |u|
  {
    if |u| > 1 { StripAllContinuations(u[..|u| - 1]); }
  }

  lemma HeadShape(s: Bytes)
    requires WfLen(s) > 0
    ensures !Cont(s[0]) && (forall i | 1 <= i < WfLen(s) :: Cont(s[i])) && (WfLen(s) > 1 <==> Lead(s[0]))
    ensures WfLen(s[..WfLen(s)]) == WfLen(s)
  {
  }

  /** A cut inside the first sequence, or right after it. */
  lemma CutFirst(s: Bytes, p: Bytes)
    requires WfLen(s) > 0 && p != [] && p <= s && |p| <= WfLen(s)
    ensures StripPartial(p) == if WfLen(s) == 1 then p else []
    ensures WfLen(s) == 1 ==> Ascii(p)
  {
    HeadShape(s);
    assert forall i | 0 <= i < |p| :: p[i] == s[i];
    StripAllContinuations(p);
  }

  lemma CutLater(s: Bytes, u: Bytes, q: Bytes)
    requires q != [] && (WfLen(q) > 0 || (s != [] && WfLen(s) > 0 && q <= s))
    ensures StripPartial(u + q) == u + StripPartial(q)
  {
    if WfLen(q) > 0 { HeadShape(q); } else { HeadShape(s); }
    StripAfter(u, q);
  }

  lemma PrependUnit(s: Bytes, r: Bytes)
    requires WfLen(s) > 0 && WellFormed(r)
    ensures WellFormed(s[..WfLen(s)] + r)
  {
  }

  /** A cut of well-formed text is well-formed text, and loses at most the
      character that straddles or ends at the cap. */
  lemma {:induction false} CutIsWellFormed(s: Bytes, m: nat)
    requires WellFormed(s)
    ensures WellFormed(StripPartial(Head(s, m)))
    ensures |StripPartial(Head(s, m))| + 4 >= |Head(s, m)|
    decreases |s|
  {
    hide WfLen, StripPartial, Head;
    if |Head(s, m)| <= WfLen(s) {
      CutFront(s, m);
    } else {
      CutFits(s, m);
      CutIsWellFormed(s[WfLen(s)..], m - WfLen(s));
      CutBehind(s, m);
    }
  }

  lemma CutFits(s: Bytes, m: nat)
    requires |Head(s, m)| > WfLen(s)
    ensures s != [] && m >= WfLen(s)
  {
  }

  lemma CutFront(s: Bytes, m: nat)
    requires WellFormed(s) && |Head(s, m)| <= WfLen(s)
    ensures WellFormed(StripPartial(Head(s, m)))
    ensures |StripPartial(Head(s, m))| + 4 >= |Head(s, m)|
  {
    var p := Head(s, m);
    if p != [] {
      hide WfLen, StripPartial, Head;
      CutFirst(s, p);
      if WfLen(s) == 1 { AsciiIsWellFormed(p); }
    }
  }

  lemma CutBehind(s: Bytes, m: nat)
    requires WellFormed(s) && s != [] && |Head(s, m)| > WfLen(s)
    requires var q := Head(s[WfLen(s)..], m - WfLen(s)); WellFormed(StripPartial(q)) && |StripPartial(q)| + 4 >= |q|
    ensures WellFormed(StripPartial(Head(s, m)))
    ensures |StripPartial(Head(s, m))| + 4 >= |Head(s, m)|
  {
    hide WfLen, StripPartial;
    var k := WfLen(s);
    var u, rest := s[..k], s[k..];
    var q := Head(rest, m - k);
    assert Head(s, m) == u + q;
    CutLater(rest, u, q);
    PrependUnit(s, StripPartial(q));
  }

  // ------------------------------------------------------------------------
  // One display line of an error text

  predicate Blank(b: Byte) {
    b == 32 || 9 <= b <= 13
  }

  /** All lines joined by spaces. */
  function Joined(t: Bytes): (r: Bytes)
    ensures |r| == |t|
  {
    seq(|t|, i requires 0 <= i < |t| => if t[i] == 10 then 32 else t[i])
  }

  /** A line feed becomes one space, and the text around it is joined by itself; a text without one stays. */
  lemma JoinsLines(a: Bytes, b: Bytes)
    ensures Joined(a + [10] + b) == Joined(a) + [32] + Joined(b)
    ensures 10 !in a ==> Joined(a) == a
  {
  }

  function StripBlanks(t: Bytes): (r: Bytes)
    ensures r <= t && (r != [] ==> !Blank(r[|r| - 1]))
  {
    if t != [] && Blank(t[|t| - 1]) then StripBlanks(t[..|t| - 1]) else t
  }

  lemma {:induction false} JoinedIsWellFormed(t: Bytes)
    requires WellFormed(t)
    ensures WellFormed(Joined(t))
    decreases |t|
  {
    if t != [] {
      var k := WfLen(t);
      JoinedIsWellFormed(t[k..]);
      assert Joined(t)[k..] == Joined(t[k..]);
      JoinedHead(t);
    }
  }

  lemma JoinedHead(t: Bytes)
    ensures WfLen(Joined(t)) == WfLen(t)
  {
  }

  /** The last byte of well-formed text can be taken off when it is ASCII. */
  lemma {:induction false} WithoutLastAscii(t: Bytes)
    requires WellFormed(t) && t != [] && t[|t| - 1] < 128
    ensures WellFormed(t[..|t| - 1])
    decreases |t|
  {
    var k, front := WfLen(t), t[..|t| - 1];
    HeadShape(t);
    if k < |t| {
      WithoutLastAscii(t[k..]);
      assert t[k..][..|t| - k - 1] == front[k..];
      WfLenPrefix(t[..k], front[k..]);
      assert t[..k] + front[k..] == front;
    }
  }

  lemma {:induction false} StrippedIsWellFormed(t: Bytes)
    requires WellFormed(t)
    ensures WellFormed(StripBlanks(t))
    decreases |t|
  {
    if t != [] && Blank(t[|t| - 1]) {
      WithoutLastAscii(t);
      StrippedIsWellFormed(t[..|t| - 1]);
    }
  }

  /** The line without its line end: unchanged when it fits, otherwise a whole-character prefix and three dots. */
  method CapLine(s: Bytes, max: nat) returns (r: Bytes)
    ensures r == if |s| > max then StripPartial(s[..max]) + [46, 46, 46] else s
  {
    r := s;
    if |r| > max {
      r := r[..max];
      while |r| > 0 && Cont(r[|r| - 1])
        invariant StripContinuations(r) == StripContinuations(s[..max])
        decreases |r|
      {
        r := r[..|r| - 1];
      }
      if |r| > 0 && Lead(r[|r| - 1]) { r := r[..|r| - 1]; }
      r := r + [46, 46, 46];
    }
  }

  lemma CapIsWellFormed(s: Bytes, max: nat)
    requires WellFormed(s)
    ensures WellFormed(if |s| > max then StripPartial(s[..max]) + [46, 46, 46] else s)
  {
    hide WellFormed, StripPartial;
    CutIsWellFormed(s, max);
    AsciiIsWellFormed([46, 46, 46]);
    if |s| > max {
      WellFormedConcat(StripPartial(s[..max]), [46, 46, 46]);
    }
  }

  lemma NoLineFeed(t: Bytes, i: nat)
    requires i < |StripBlanks(Joined(t))|
    ensures StripBlanks(Joined(t))[i] != 10
  {
    hide StripBlanks;
  }

  /** An error text on one line: nothing for a blank text, otherwise one line end behind the capped line. */
  method DisplayErrorLine(t: Bytes, max: nat) returns (r: Bytes)
    ensures var s := StripBlanks(Joined(t));
      && (s == [] ==> r == [])
      && (0 < |s| <= max ==> r == s + [10])
      && (|s| > max ==> r == StripPartial(s[..max]) + [46, 46, 46, 10] && |r| <= max + 4)
    ensures forall i | 0 <= i < |r| :: r[i] == 10 <==> i == |r| - 1
    ensures WellFormed(t) ==> WellFormed(r)
  {
    hide WellFormed, StripPartial, StripBlanks, Joined;
    r := StripBlanks(Joined(t));
    forall i | 0 <= i < |r|
      ensures r[i] != 10
    {
      NoLineFeed(t, i);
    }
    if r == [] {
      if WellFormed(t) { AsciiIsWellFormed([]); }
      return;
    }
    ghost var s := r;
    r := CapLine(r, max);
    if WellFormed(t) {
      JoinedIsWellFormed(t);
      StrippedIsWellFormed(Joined(t));
      CapIsWellFormed(s, max);
      AsciiIsWellFormed([10]);
      WellFormedConcat(r, [10]);
    }
    r := r + [10];
  }
}
