// The terminal sanitizer that displays untrusted answer lines: a byte automaton
// over one line at a time. `Filter` says byte unit by byte unit what is kept;
// `DisplayLine` is the loop that emits slices through the pending index `run`.

module Sanitizer {
  import opened Utf8

  datatype State = Normal | Escape | Csi | Str

  /** What the decoder makes of the head of a line: a Bidi control, a unit that is
      text in any state, or a single value (a byte, or a C1 code written as C2 xx). */
  datatype Unit = Bidi | Text | Value(n: int)

  datatype Step = Step(keep: bool, take: nat, next: State)

  /** U+061C, U+200E, U+200F, U+202A to U+202E, U+2066 to U+2069 in UTF-8. */
  predicate BidiHead(s: Bytes) {
    || (|s| >= 2 && s[0] == 216 && s[1] == 156)
    || (|s| >= 3 && s[0] == 226 && s[1] == 128 && (s[2] == 142 || s[2] == 143 || 170 <= s[2] <= 174))
    || (|s| >= 3 && s[0] == 226 && s[1] == 129 && 166 <= s[2] <= 169)
  }

  function UnitLen(s: Bytes): (k: nat)
    requires s != []
    ensures 1 <= k <= |s|
  {
    if WfLen(s) == 0 then 1 else WfLen(s)
  }

  function Classify(s: Bytes): Unit
    requires s != []
  {
    if BidiHead(s) then Bidi
    else if WfLen(s) == 2 && s[0] == 194 && s[1] < 160 then Value(s[1])
    else if WfLen(s) >= 2 || s[0] == 194 then Text
    else Value(s[0])
  }

  predicate StartsString(n: int) {
    n == 144 || n == 152 || n == 157 || n == 158 || n == 159
  }

  predicate Control(n: int) {
    n < 32 || 127 <= n < 160
  }

  /** One step of the automaton; `follow` is the byte after the unit, or 0. */
  function Advance(n: int, follow: int, take: nat, st: State): Step {
    if st == Str then
      if n == 7 || n == 156 then Step(false, take, Normal)
      else if n == 27 && follow == 92 then Step(false, take + 1, Normal)
      else Step(false, take, Str)
    else if n == 27 then Step(false, take, Escape)
    else if n == 155 then Step(false, take, Csi)
    else if StartsString(n) then Step(false, take, Str)
    else if Control(n) then Step(false, take, st)
    else match st
      case Escape =>
        Step(false, take, if n == 91 then Csi
                          else if n == 93 || n == 80 || n == 88 || n == 94 || n == 95 then Str
                          else if n > 47 then Normal
                          else Escape)
      case Csi => Step(false, take, if 64 <= n <= 126 then Normal else Csi)
      case _ => Step(true, take, Normal)
  }

  function StepOf(s: Bytes, st: State): (r: Step)
    requires s != []
    ensures 1 <= r.take <= |s|
    ensures r.keep ==> st == Normal && r.next == Normal && r.take == UnitLen(s)
  {
    var k := UnitLen(s);
    match Classify(s)
    case Bidi => Step(false, k, st)
    case Text => Step(st == Normal, k, st)
    case Value(n) => Advance(n, if k < |s| then s[k] else 0, k, st)
  }

  /** The bytes of `s` that reach the terminal when the automaton starts in `st`. */
  function Filter(s: Bytes, st: State): Bytes
    decreases |s|
  {
    if s == [] then []
    else
      var r := StepOf(s, st);
      var rest := Filter(s[r.take..], r.next);
      if r.keep then s[..r.take] + rest else rest
  }

  function Sanitize(s: Bytes): Bytes {
    Filter(s, Normal)
  }

  // ------------------------------------------------------------------------
  // The loop

  /** The byte at position `i`, counted from 1; past the end it compares like 0. */
  function At(s: Bytes, i: nat): int {
    if 1 <= i <= |s| then s[i - 1] else 0
  }

  function Pending(s: Bytes, run: nat, i: nat): Bytes
    requires run == 0 || 1 <= run <= i <= |s| + 1
  {
    if run == 0 then [] else s[run - 1..i - 1]
  }

  /** What the loop keeps: emitted bytes, the pending slice and the filtered rest are the whole result. */
  ghost predicate Emitting(s: Bytes, out: Bytes, run: nat, i: nat, st: State) {
    && 1 <= i <= |s| + 1
    && (run == 0 || 1 <= run < i)
    && (st != Normal ==> run == 0)
    && out + Pending(s, run, i) + Filter(s[i - 1..], st) == Sanitize(s)
  }

  lemma Unfold(s: Bytes, i: nat, st: State, r: Step)
    requires 1 <= i <= |s| && r == StepOf(s[i - 1..], st)
    ensures 1 <= r.take && i + r.take <= |s| + 1
    ensures var rest := Filter(s[i + r.take - 1..], r.next);
            Filter(s[i - 1..], st) == if r.keep then s[i - 1..i - 1 + r.take] + rest else rest
  {
    assert s[i - 1..][r.take..] == s[i + r.take - 1..];
  }

  lemma KeepStep(s: Bytes, out: Bytes, run: nat, i: nat, r: Step)
    requires 1 <= i <= |s| && r == StepOf(s[i - 1..], Normal) && r.keep
    requires Emitting(s, out, run, i, Normal)
    ensures Emitting(s, out, if run == 0 then i else run, i + r.take, Normal)
  {
    hide StepOf, Filter, Pending;
    var unit := s[i - 1..i - 1 + r.take];
    Unfold(s, i, Normal, r);
    PendingGrows(s, run, i, r.take);
    Regroup(out, Pending(s, run, i), unit, Filter(s[i + r.take - 1..], Normal));
  }

  lemma PendingGrows(s: Bytes, run: nat, i: nat, take: nat)
    requires (run == 0 || 1 <= run < i) && 1 <= i && 1 <= take && i + take <= |s| + 1
    ensures Pending(s, if run == 0 then i else run, i + take) == Pending(s, run, i) + s[i - 1..i - 1 + take]
  {
  }

  lemma Regroup(a: Bytes, b: Bytes, c: Bytes, d: Bytes)
    ensures a + b + (c + d) == a + (b + c) + d
  {
  }

  lemma DropStep(s: Bytes, out: Bytes, run: nat, i: nat, st: State, r: Step)
    requires 1 <= i <= |s| && r == StepOf(s[i - 1..], st) && !r.keep
    requires Emitting(s, out, run, i, st)
    ensures Emitting(s, out + Pending(s, run, i), 0, i + r.take, r.next)
  {
    hide StepOf, Filter, Pending;
    Unfold(s, i, st, r);
    assert out + Pending(s, run, i) + [] == out + Pending(s, run, i);
    NothingPending(s, i + r.take);
  }

  lemma NothingPending(s: Bytes, i: nat)
    ensures Pending(s, 0, i) == []
  {
  }

  /** The decoder of the loop: one unit at position `i`. */
  method DecodeUnit(s: Bytes, i: nat) returns (u: Unit, width: nat)
    requires 1 <= i <= |s|
    ensures u == Classify(s[i - 1..]) && width == UnitLen(s[i - 1..])
  {
    var len, n := |s|, At(s, i);
    var m1, m2, m3 := At(s, i + 1), At(s, i + 2), At(s, i + 3);
    u, width := Value(n), 1;
    if n >= 128 {
      if n == 194 {
        if i < len && 128 <= m1 <= 159 {
          return Value(m1), 2;
        } else if i < len && 160 <= m1 <= 191 {
          return Text, 2;
        }
        return Text, 1;
      } else if 195 <= n <= 223 {
        if i < len && 128 <= m1 <= 191 {
          if n == 216 && m1 == 156 {
            return Bidi, 2;
          }
          return Text, 2;
        }
      } else if n == 224 {
        if i + 1 <= len && 160 <= m1 <= 191 && 128 <= m2 <= 191 {
          return Text, 3;
        }
      } else if 225 <= n <= 236 || n == 238 || n == 239 {
        if i + 1 <= len && 128 <= m1 <= 191 && 128 <= m2 <= 191 {
          if n == 226
             && ((m1 == 128 && (m2 == 142 || m2 == 143 || 170 <= m2 <= 174)) || (m1 == 129 && 166 <= m2 <= 169)) {
            return Bidi, 3;
          }
          return Text, 3;
        }
      } else if n == 237 {
        if i + 1 <= len && 128 <= m1 <= 159 && 128 <= m2 <= 191 {
          return Text, 3;
        }
      } else if n == 240 {
        if i + 2 <= len && 144 <= m1 <= 191 && 128 <= m2 <= 191 && 128 <= m3 <= 191 {
          return Text, 4;
        }
      } else if 241 <= n <= 243 {
        if i + 2 <= len && 128 <= m1 <= 191 && 128 <= m2 <= 191 && 128 <= m3 <= 191 {
          return Text, 4;
        }
      } else if n == 244 {
        if i + 2 <= len && 128 <= m1 <= 143 && 128 <= m2 <= 191 && 128 <= m3 <= 191 {
          return Text, 4;
        }
      }
    }
  }

  /** What one turn does: keep the unit and extend the slice, or drop it and flush the slice. */
  ghost predicate Turned(s: Bytes, out0: Bytes, run0: nat, i0: nat, state0: State,
                         out: Bytes, run: nat, i: nat, state: State)
    requires 1 <= i0 <= |s| && (run0 == 0 || 1 <= run0 < i0)
  {
    var r := StepOf(s[i0 - 1..], state0);
    && i == i0 + r.take && state == r.next
    && if r.keep then out == out0 && run == (if run0 == 0 then i0 else run0)
       else out == out0 + Pending(s, run0, i0) && run == 0
  }

  lemma TurnKeepsEmitting(s: Bytes, out0: Bytes, run0: nat, i0: nat, state0: State,
                          out: Bytes, run: nat, i: nat, state: State)
    requires i0 <= |s| && Emitting(s, out0, run0, i0, state0)
    requires Turned(s, out0, run0, i0, state0, out, run, i, state)
    ensures Emitting(s, out, run, i, state) && i0 < i
  {
    hide StepOf, Filter, Pending;
    var r := StepOf(s[i0 - 1..], state0);
    if r.keep { KeepStep(s, out0, run0, i0, r); } else { DropStep(s, out0, run0, i0, state0, r); }
  }

  lemma Finish(s: Bytes, out: Bytes, run: nat, i: nat, state: State)
    requires |s| < i && Emitting(s, out, run, i, state)
    ensures (if run != 0 then out + s[run - 1..] else out) == Sanitize(s)
  {
  }

  /** One turn of the loop: how the unit at `i` moves the state and the pending slice. */
  method Turn(s: Bytes, out0: Bytes, run0: nat, i0: nat, state0: State, u: Unit, width: nat)
      returns (out: Bytes, run: nat, i: nat, state: State)
    requires 1 <= i0 <= |s| && (run0 == 0 || 1 <= run0 < i0) && (state0 != Normal ==> run0 == 0)
    requires u == Classify(s[i0 - 1..]) && width == UnitLen(s[i0 - 1..])
    ensures Turned(s, out0, run0, i0, state0, out, run, i, state)
  {
    out, run, state := out0, run0, state0;
    i := i0 + width;
    if u.Bidi? {
      if run != 0 { out := out + s[run - 1..i0 - 1]; run := 0; }
      return;
    }
    if u.Text? {
      if state == Normal && run == 0 { run := i0; }
      return;
    }
    var n := u.n;               // a byte, or a C1 code that two bytes encode
    if state == Str {
      if n == 7 || n == 156 {
        state := Normal;
      } else if n == 27 && At(s, i0 + 1) == 92 {
        state, i := Normal, i + 1;
      }
      return;
    }
    if n == 27 || n == 155 || n == 144 || n == 152 || n == 157 || n == 158 || n == 159 {
      if run != 0 { out := out + s[run - 1..i0 - 1]; run := 0; }
      state := if n == 27 then Escape else if n == 155 then Csi else Str;
      return;
    }
    if n < 32 || 127 <= n <= 159 {
      if run != 0 { out := out + s[run - 1..i0 - 1]; run := 0; }
      return;
    }
    if state == Escape {
      if n == 91 {
        state := Csi;
      } else if n == 93 || n == 80 || n == 88 || n == 94 || n == 95 {
        state := Str;
      } else if n < 32 || n > 47 {
        state := Normal;
      }
      return;
    }
    if state == Csi {
      if 64 <= n <= 126 { state := Normal; }
      return;
    }
    if run == 0 { run := i0; }
  }

  /** Emits `s` through slices; a state other than Normal implies that no slice is pending. */
  method DisplayLine(s: Bytes) returns (out: Bytes)
    ensures out == Sanitize(s)
  {
    out := [];
    var state, run: nat, i: nat := Normal, 0, 1;
    assert s[0..] == s;
    while i <= |s|
      invariant Emitting(s, out, run, i, state)
      decreases |s| + 1 - i
    {
      var u, width := DecodeUnit(s, i);
      ghost var before := (out, run, i, state);
      out, run, i, state := Turn(s, out, run, i, state, u, width);
      TurnKeepsEmitting(s, before.0, before.1, before.2, before.3, out, run, i, state);
    }
    Finish(s, out, run, i, state);
    if run != 0 { out := out + s[run - 1..]; }
  }
}
