// Content-Length framing of the language server connection ("Base Protocol" of
// the Language Server Protocol 3.17): reading arbitrary chunks, and writing.

module LspFraming {
  import opened Common
  import opened Utf8
  import Decimal

  const SEPARATOR: Bytes := [13, 10, 13, 10]

  /** The offset of the first blank line, the end of the header. */
  function HeaderEnd(buf: Bytes): (r: Option<nat>)
    ensures r.Some? ==> r.value + 4 <= |buf|
  {
    if |buf| < 4 then None
    else if buf[..4] == SEPARATOR then Some(0)
    else
      var next := HeaderEnd(buf[1..]);
      if next.None? then None else Some(next.value + 1)
  }

  predicate BlankAt(buf: Bytes, i: nat) {
    i + 4 <= |buf| && buf[i] == 13 && buf[i + 1] == 10 && buf[i + 2] == 13 && buf[i + 3] == 10
  }

  lemma {:induction false} HeaderEndIsFirst(buf: Bytes)
    ensures HeaderEnd(buf).Some? ==> BlankAt(buf, HeaderEnd(buf).value)
    ensures forall i: nat | BlankAt(buf, i) :: HeaderEnd(buf).Some? && HeaderEnd(buf).value <= i
  {
    if |buf| >= 4 {
      assert BlankAt(buf, 0) <==> buf[..4] == SEPARATOR;
      HeaderEndIsFirst(buf[1..]);
      forall i: nat | BlankAt(buf, i)
        ensures HeaderEnd(buf).Some? && HeaderEnd(buf).value <= i
      {
        if i > 0 {
          assert BlankAt(buf[1..], i - 1);
        }
      }
    }
  }

  /** The length announced by the header that ends at `h`. */
  function LengthAt(parse: Bytes -> Option<nat>, buf: Bytes, h: nat): Option<nat>
    requires h <= |buf|
  {
    parse(buf[..h])
  }

  /** The message at the head of a buffer: none yet, a header to skip, or a body in a range. */
  datatype Head = Wait | Skip(end: nat) | Body(start: nat, end: nat)

  function HeadOf(parse: Bytes -> Option<nat>, buf: Bytes): (r: Head)
    ensures r.Skip? ==> 0 < r.end <= |buf|
    ensures r.Body? ==> 0 < r.start <= r.end <= |buf|
  {
    var h := HeaderEnd(buf);
    if h.None? then Wait
    else
      var (length, start) := (LengthAt(parse, buf, h.value), h.value + 4);
      if length.None? then Skip(start)
      else if |buf| < start + length.value then Wait
      else Body(start, start + length.value)
  }

  datatype Drained = Drained(bodies: seq<Bytes>, rest: Bytes)

  /** The bodies a buffer holds, for any reading of the header, and the bytes that wait for more. */
  function Drain(parse: Bytes -> Option<nat>, buf: Bytes): Drained
    decreases |buf|
  {
    var head := HeadOf(parse, buf);
    match head
    case Wait => Drained([], buf)
    case Skip(end) => Drain(parse, buf[end..])
    case Body(start, end) =>
      var more := Drain(parse, buf[end..]);
      more.(bodies := [buf[start..end]] + more.bodies)
  }

  /** A blank line found in a prefix is the first one of the whole. */
  lemma {:induction false} HeaderEndPrefix(a: Bytes, b: Bytes)
    requires HeaderEnd(a).Some?
    ensures HeaderEnd(a + b) == HeaderEnd(a)
  {
    assert (a + b)[..4] == a[..4];
    if a[..4] != SEPARATOR {
      assert (a + b)[1..] == a[1..] + b;
      HeaderEndPrefix(a[1..], b);
    }
  }

  lemma HeadPrefix(parse: Bytes -> Option<nat>, a: Bytes, b: Bytes)
    requires !HeadOf(parse, a).Wait?
    ensures HeadOf(parse, a + b) == HeadOf(parse, a)
  {
    HeaderEndPrefix(a, b);
    var n := HeaderEnd(a).value;
    assert (a + b)[..n] == a[..n];
  }

  /** Draining after a chunk and again after the next one is draining both at once. */
  lemma {:induction false} DrainAppend(parse: Bytes -> Option<nat>, a: Bytes, b: Bytes)
    ensures var (first, all) := (Drain(parse, a), Drain(parse, a + b));
      var second := Drain(parse, first.rest + b);
      all == Drained(first.bodies + second.bodies, second.rest)
    decreases |a|
  {
    hide HeadOf;
    var head := HeadOf(parse, a);
    if !head.Wait? {
      HeadPrefix(parse, a, b);
      assert (a + b)[head.end..] == a[head.end..] + b;
      DrainAppend(parse, a[head.end..], b);
      if head.Body? {
        assert (a + b)[head.start..head.end] == a[head.start..head.end];
      }
    }
  }

  /** What is delivered and what a buffer still holds make up `want`. */
  ghost predicate Owes(parse: Bytes -> Option<nat>, delivered: seq<Bytes>, buf: Bytes, want: Drained) {
    want == Drained(delivered + Drain(parse, buf).bodies, Drain(parse, buf).rest)
  }

  lemma OwesAll(parse: Bytes -> Option<nat>, delivered: seq<Bytes>, buf: Bytes)
    ensures Owes(parse, delivered, buf, Drained(delivered + Drain(parse, buf).bodies, Drain(parse, buf).rest))
  {
  }

  lemma OwesSkip(parse: Bytes -> Option<nat>, delivered: seq<Bytes>, buf: Bytes, want: Drained, end: nat)
    requires Owes(parse, delivered, buf, want) && HeadOf(parse, buf) == Skip(end)
    ensures Owes(parse, delivered, buf[end..], want)
  {
  }

  lemma OwesBody(parse: Bytes -> Option<nat>, delivered: seq<Bytes>, buf: Bytes, want: Drained, start: nat, end: nat)
    requires Owes(parse, delivered, buf, want) && HeadOf(parse, buf) == Body(start, end)
    ensures Owes(parse, delivered + [buf[start..end]], buf[end..], want)
  {
  }

  lemma OwesNothing(parse: Bytes -> Option<nat>, delivered: seq<Bytes>, buf: Bytes, want: Drained)
    requires Owes(parse, delivered, buf, want) && HeadOf(parse, buf).Wait?
    ensures want == Drained(delivered, buf)
  {
  }

  /** The head of a buffer as the reading loop computes it. */
  lemma HeadIs(parse: Bytes -> Option<nat>, buf: Bytes)
    ensures HeaderEnd(buf).None? ==> HeadOf(parse, buf).Wait?
    ensures HeaderEnd(buf).Some? ==>
      var (length, start) := (LengthAt(parse, buf, HeaderEnd(buf).value), HeaderEnd(buf).value + 4);
      HeadOf(parse, buf) ==
      if length.None? then Skip(start)
      else if |buf| < start + length.value then Wait else Body(start, start + length.value)
  {
  }

  /** A header that announces no length is skipped, and one that announces a length takes its body along; what is behind
      them is read in the same way. */
  lemma HeaderTaken(parse: Bytes -> Option<nat>, h: Bytes, body: Bytes, rest: Bytes)
    requires HeaderEnd(h + SEPARATOR) == Some(|h|)
    ensures parse(h).None? ==> Drain(parse, h + SEPARATOR + rest) == Drain(parse, rest)
    ensures parse(h) == Some(|body|) ==>
      Drain(parse, h + SEPARATOR + body + rest)
      == Drained([body] + Drain(parse, rest).bodies, Drain(parse, rest).rest)
  {
    hide HeaderEnd;
    HeaderEndPrefix(h + SEPARATOR, rest);
    HeaderEndPrefix(h + SEPARATOR, body + rest);
    var (all, more) := (h + SEPARATOR + body + rest, h + SEPARATOR + rest);
    assert h + SEPARATOR + (body + rest) == all;
    assert all[..|h|] == h && more[..|h|] == h;
    assert more[|h| + 4..] == rest;
    var end := |h| + 4 + |body|;
    assert all[|h| + 4..end] == body && all[end..] == rest;
  }

  class Reader {
    var buffer: Bytes
    var delivered: seq<Bytes>

    constructor ()
      ensures buffer == [] && delivered == []
    {
      buffer, delivered := [], [];
    }

    /** One chunk from the server; `live` is false for a retired or failed server. */
    method OnData(parse: Bytes -> Option<nat>, chunk: Bytes, live: bool)
      modifies this
      ensures live ==> Owes(parse, old(delivered), old(buffer) + chunk, Drained(delivered, buffer))
      ensures !live ==> delivered == old(delivered) && buffer == old(buffer)
    {
      if !live {
        return;
      }
      hide HeaderEnd, HeadOf, Drain, LengthAt, Owes;
      buffer := buffer + chunk;
      ghost var want := Drained(delivered + Drain(parse, buffer).bodies, Drain(parse, buffer).rest);
      OwesAll(parse, delivered, buffer);
      while true
        invariant Owes(parse, delivered, buffer, want)
        decreases |buffer|
      {
        HeadIs(parse, buffer);
        var h := HeaderEnd(buffer);
        if h.None? {
          OwesNothing(parse, delivered, buffer, want);
          return;
        }
        var length := LengthAt(parse, buffer, h.value);
        if length.None? {
          OwesSkip(parse, delivered, buffer, want, h.value + 4);
          buffer := buffer[h.value + 4..];
          continue;
        }
        var end := h.value + 4 + length.value;
        if |buffer| < end {
          OwesNothing(parse, delivered, buffer, want);
          return;
        }
        OwesBody(parse, delivered, buffer, want, h.value + 4, end);
        var body := buffer[h.value + 4..end];
        delivered := delivered + [body];
        buffer := buffer[end..];
      }
    }
  }

  /** However the stream is split, the same bodies arrive and the same bytes are left. */
  method Receive(parse: Bytes -> Option<nat>, chunks: seq<Bytes>) returns (delivered: seq<Bytes>, rest: Bytes)
    ensures Drained(delivered, rest) == Drain(parse, Concat(chunks))
  {
    var r := new Reader();
    for i := 0 to |chunks|
      invariant Drained(r.delivered, r.buffer) == Drain(parse, Concat(chunks[..i]))
    {
      assert chunks[..i + 1][..i] == chunks[..i];
      DrainAppend(parse, Concat(chunks[..i]), chunks[i]);
      r.OnData(parse, chunks[i], true);
    }
    assert chunks[..|chunks|] == chunks;
    delivered, rest := r.delivered, r.buffer;
  }

  // ------------------------------------------------------------------------
  // The header that is read and the header that is written

  function Lower(b: Byte): Byte {
    if 65 <= b <= 90 then b + 32 else b
  }

  /** `content-length:` */
  const NAME: Bytes := [99, 111, 110, 116, 101, 110, 116, 45, 108, 101, 110, 103, 116, 104, 58]

  /** `Content-Length: ` */
  const FIELD: Bytes := [67, 111, 110, 116, 101, 110, 116, 45, 76, 101, 110, 103, 116, 104, 58, 32]

  predicate Named(h: Bytes, p: nat) {
    p + |NAME| <= |h| && forall i | 0 <= i < |NAME| :: Lower(h[p + i]) == NAME[i]
  }

  function SpacesEnd(h: Bytes, i: nat): (r: nat)
    requires i <= |h|
    ensures i <= r <= |h|
    decreases |h| - i
  {
    if i < |h| && (h[i] == 32 || 9 <= h[i] <= 13) then SpacesEnd(h, i + 1) else i
  }

  function DigitsEnd(h: Bytes, i: nat): (r: nat)
    requires i <= |h|
    ensures i <= r <= |h| && Decimal.Digits(h[i..r])
    ensures r < |h| ==> !(48 <= h[r] <= 57)
    decreases |h| - i
  {
    if i < |h| && 48 <= h[i] <= 57 then
      var r := DigitsEnd(h, i + 1);
      assert h[i..r] == [h[i]] + h[i + 1..r];
      r
    else i
  }

  /** The length given by the first place from `p` on that has the name, white space and digits. */
  function LengthFrom(h: Bytes, p: nat): Option<nat>
    decreases |h| - p
  {
    if p + |NAME| > |h| then None
    else
      var from := if Named(h, p) then SpacesEnd(h, p + |NAME|) else |h|;
      var to := DigitsEnd(h, from);
      if from < to then Some(Decimal.Value(h[from..to])) else LengthFrom(h, p + 1)
  }

  function ParseHeader(h: Bytes): Option<nat> {
    LengthFrom(h, 0)
  }

  /** What `send` writes for one body. */
  function Frame(body: Bytes): Bytes {
    FIELD + Decimal.Show(|body|) + SEPARATOR + body
  }

  function Wire(bodies: seq<Bytes>): Bytes {
    if bodies == [] then [] else Frame(bodies[0]) + Wire(bodies[1..])
  }

  lemma {:induction false} AllDigits(h: Bytes, i: nat)
    requires i <= |h| && Decimal.Digits(h[i..])
    ensures DigitsEnd(h, i) == |h|
    decreases |h| - i
  {
  }

  /** The reader gets the number the writer wrote. */
  lemma HeaderRoundTrip(n: nat)
    ensures ParseHeader(FIELD + Decimal.Show(n)) == Some(n)
  {
    var digits := Decimal.Show(n);
    var h := FIELD + digits;
    assert forall i | 0 <= i < |NAME| :: h[i] == FIELD[i];
    assert Named(h, 0);
    assert h[15] == 32 && h[16] == digits[0];
    assert SpacesEnd(h, 16) == 16;
    assert SpacesEnd(h, 15) == 16;
    assert h[16..] == digits;
    AllDigits(h, 16);
    assert h[16..|h|] == digits;
    Decimal.ValueShow(n);
  }

  lemma {:induction false} NoBlankLine(head: Bytes, tail: Bytes)
    requires forall i | 0 <= i < |head| :: head[i] != 13
    ensures HeaderEnd(head + SEPARATOR + tail) == Some(|head|)
  {
    var buf := head + SEPARATOR + tail;
    if head == [] {
      assert buf[..4] == SEPARATOR;
    } else {
      assert buf[..4][0] != 13;
      assert buf[1..] == head[1..] + SEPARATOR + tail;
      NoBlankLine(head[1..], tail);
    }
  }

  lemma FrameDrains(body: Bytes, more: Bytes)
    ensures var d := Drain(ParseHeader, more);
      Drain(ParseHeader, Frame(body) + more) == d.(bodies := [body] + d.bodies)
  {
    var head := FIELD + Decimal.Show(|body|);
    var buf := Frame(body) + more;
    assert buf == head + SEPARATOR + (body + more);
    NoBlankLine(head, body + more);
    assert buf[..|head|] == head;
    HeaderRoundTrip(|body|);
    var start := |head| + 4;
    assert buf[start..start + |body|] == body && buf[start + |body|..] == more;
  }

  /** Receiving what was sent returns the bodies in order and leaves nothing. */
  lemma {:induction false} SendReceive(bodies: seq<Bytes>)
    ensures Drain(ParseHeader, Wire(bodies)) == Drained(bodies, [])
  {
    if bodies != [] {
      SendReceive(bodies[1..]);
      FrameDrains(bodies[0], Wire(bodies[1..]));
    }
  }

  /** Sent bodies arrive complete and in order through any split, even a prefix of the stream
      delivers a prefix of the bodies. */
  lemma PrefixDelivers(bodies: seq<Bytes>, n: nat)
    requires n <= |Wire(bodies)|
    ensures Drain(ParseHeader, Wire(bodies)[..n]).bodies <= bodies
  {
    var a, b := Wire(bodies)[..n], Wire(bodies)[n..];
    assert Wire(bodies) == a + b;
    SendReceive(bodies);
    DrainAppend(ParseHeader, a, b);
  }
}
