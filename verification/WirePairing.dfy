// Pairing in the Responses form: the items of a posted input, where the calls of a
// turn stand among the replayed items and each result names its call by id.

module WirePairing {
  import opened Common
  import opened Exchange
  import opened ExchangeHistory
  import opened ExchangeStory
  import opened ExchangeLoop
  import opened Replay

  /** An item of the posted input: plain text, a replayed or rebuilt item, or the output of a call. */
  datatype Wire = Plain | Part(input: Input) | Output(callId: string)

  /** What an assistant message keeps besides its calls. */
  datatype Stash = Stash(text: bool, replay: Option<seq<Item>>)

  /** In a paired history every id is a string. */
  function StringOf(f: Field): string {
    if f.Text? then f.s else ""
  }

  function WireCalls(calls: seq<Call>, args: Call -> string): (r: seq<Input>)
    ensures |r| == |calls|
  {
    seq(|calls|, i requires 0 <= i < |calls| =>
          Rebuilt(StringOf(calls[i].id), StringOf(calls[i].name), args(calls[i])))
  }

  function Parts(xs: seq<Input>): (r: seq<Wire>)
    ensures |r| == |xs|
  {
    seq(|xs|, i requires 0 <= i < |xs| => Part(xs[i]))
  }

  function CallItems(calls: seq<Call>, replay: Option<seq<Item>>, args: Call -> string): seq<Input> {
    var rebuilt := WireCalls(calls, args);
    if replay.Some? then ReplayItems(replay.value, rebuilt) else rebuilt
  }

  function Emit(m: Msg, s: Stash, args: Call -> string): seq<Wire> {
    match m
    case System => []
    case User => [Plain]
    case Tool(id, _, _) => [Output(id)]
    case Assistant(calls) =>
      if calls == [] then [Plain] else (if s.text then [Plain] else []) + Parts(CallItems(calls, s.replay, args))
  }

  function WireOf(ms: seq<Msg>, stash: seq<Stash>, args: Call -> string): seq<Wire>
    requires |stash| == |ms|
  {
    if ms == [] then [] else Emit(ms[0], stash[0], args) + WireOf(ms[1..], stash[1..], args)
  }

  predicate IsCall(x: Wire, id: string) {
    x.Part? && x.input.Rebuilt? && x.input.callId == id
  }

  function CallCount(xs: seq<Wire>, id: string): nat {
    if xs == [] then 0 else CallCount(xs[..|xs| - 1], id) + if IsCall(xs[|xs| - 1], id) then 1 else 0
  }

  function OutputCount(xs: seq<Wire>, id: string): nat {
    if xs == [] then 0 else OutputCount(xs[..|xs| - 1], id) + if xs[|xs| - 1] == Output(id) then 1 else 0
  }

  /** Every id has as many outputs as calls, and at no place more outputs than calls before it. */
  ghost predicate Balanced(xs: seq<Wire>) {
    && (forall id :: OutputCount(xs, id) == CallCount(xs, id))
    && forall n, id | 0 <= n <= |xs| :: OutputCount(xs[..n], id) <= CallCount(xs[..n], id)
  }

  // ------------------------------------------------------------------------
  // Counting

  lemma {:induction false} CountAppend(a: seq<Wire>, b: seq<Wire>, id: string)
    ensures CallCount(a + b, id) == CallCount(a, id) + CallCount(b, id)
    ensures OutputCount(a + b, id) == OutputCount(a, id) + OutputCount(b, id)
  {
    if b == [] {
      assert a + b == a;
    } else {
      assert (a + b)[..|a + b| - 1] == a + b[..|b| - 1];
      CountAppend(a, b[..|b| - 1], id);
    }
  }

  lemma BalancedAppend(a: seq<Wire>, b: seq<Wire>)
    requires Balanced(a) && Balanced(b)
    ensures Balanced(a + b)
  {
    hide CallCount, OutputCount;
    forall id
      ensures OutputCount(a + b, id) == CallCount(a + b, id)
    {
      CountAppend(a, b, id);
    }
    forall n, id | 0 <= n <= |a + b|
      ensures OutputCount((a + b)[..n], id) <= CallCount((a + b)[..n], id)
    {
      if n <= |a| {
        assert (a + b)[..n] == a[..n];
      } else {
        assert (a + b)[..n] == a + b[..n - |a|];
        CountAppend(a, b[..n - |a|], id);
      }
    }
  }

  lemma {:induction false} Positive(xs: seq<Wire>, id: string)
    ensures CallCount(xs, id) > 0 <==> exists i | 0 <= i < |xs| :: IsCall(xs[i], id)
    ensures OutputCount(xs, id) > 0 <==> exists i | 0 <= i < |xs| :: xs[i] == Output(id)
  {
    if xs != [] {
      var n := |xs| - 1;
      Positive(xs[..n], id);
      assert xs == xs[..n] + [xs[n]];
      assert IsCall(xs[n], id) ==> exists i | 0 <= i < |xs| :: IsCall(xs[i], id);
    }
  }

  /** No outputs in front of the calls, and as many behind as there are calls. */
  lemma CallsThenOutputs(a: seq<Wire>, b: seq<Wire>)
    requires forall i | 0 <= i < |a| :: !a[i].Output?
    requires forall i | 0 <= i < |b| :: b[i].Output?
    requires forall id :: CallCount(a, id) == OutputCount(b, id)
    ensures Balanced(a + b)
  {
    hide CallCount, OutputCount;
    forall id
      ensures OutputCount(a + b, id) == CallCount(a + b, id)
    {
      CountAppend(a, b, id);
      Positive(a, id);
      Positive(b, id);
    }
    forall n, id | 0 <= n <= |a + b|
      ensures OutputCount((a + b)[..n], id) <= CallCount((a + b)[..n], id)
    {
      Positive(a, id);
      if n <= |a| {
        assert (a + b)[..n] == a[..n];
        Positive(a[..n], id);
      } else {
        var k := n - |a|;
        assert (a + b)[..n] == a + b[..k] && b == b[..k] + b[k..];
        CountAppend(a, b[..k], id);
        CountAppend(b[..k], b[k..], id);
      }
    }
  }

  // ------------------------------------------------------------------------
  // The calls of one turn

  lemma {:induction false} PartsCount(xs: seq<Input>, id: string)
    ensures CallCount(Parts(xs), id) == |Matching(xs, id)|
  {
    if xs != [] {
      var n := |xs| - 1;
      assert Parts(xs)[..n] == Parts(xs[..n]);
      PartsCount(xs[..n], id);
    }
  }

  lemma {:induction false} MatchingCalls(xs: seq<Input>, id: string)
    ensures Matching(CallsIn(xs), id) == Matching(xs, id)
  {
    if xs != [] {
      MatchingCalls(xs[..|xs| - 1], id);
    }
  }

  /** How often an id occurs does not depend on the order. */
  lemma {:induction false} PermutedMatching(a: seq<Input>, b: seq<Input>, id: string)
    requires multiset(a) == multiset(b)
    ensures |Matching(a, id)| == |Matching(b, id)|
  {
    if a == [] {
      assert |multiset(b)| == |multiset(a)| == 0;
    } else {
      var front, x := a[..|a| - 1], a[|a| - 1];
      assert a == front + [x];
      assert x in multiset(b);
      var j :| 0 <= j < |b| && b[j] == x;
      var rest := b[..j] + b[j + 1..];
      WithoutOne(b, j);
      assert multiset(front) == multiset(a) - multiset{x};
      PermutedMatching(front, rest, id);
      MatchingWithout(b, j, id);
      MinusAppend(front, [x], [], id);
    }
  }

  lemma WithoutOne(b: seq<Input>, j: nat)
    requires j < |b|
    ensures multiset(b[..j] + b[j + 1..]) == multiset(b) - multiset{b[j]}
  {
    assert b == b[..j] + [b[j]] + b[j + 1..];
  }

  lemma MatchingWithout(b: seq<Input>, j: nat, id: string)
    requires j < |b|
    ensures |Matching(b, id)| == |Matching(b[..j] + b[j + 1..], id)| + |Matching([b[j]], id)|
  {
    hide Matching, Minus;
    assert b == b[..j] + [b[j]] + b[j + 1..];
    MinusAppend(b[..j] + [b[j]], b[j + 1..], [], id);
    MinusAppend(b[..j], [b[j]], [], id);
    MinusAppend(b[..j], b[j + 1..], [], id);
  }

  lemma CallItemsCount(calls: seq<Call>, replay: Option<seq<Item>>, args: Call -> string, id: string)
    ensures CallCount(Parts(CallItems(calls, replay, args)), id) == |Matching(WireCalls(calls, args), id)|
  {
    hide Matching, ReplayItems, CallCount;
    var rebuilt := WireCalls(calls, args);
    PartsCount(CallItems(calls, replay, args), id);
    if replay.Some? {
      var xs := ReplayItems(replay.value, rebuilt);
      ReplayConserves(replay.value, rebuilt);
      PermutedMatching(CallsIn(xs), rebuilt, id);
      MatchingCalls(xs, id);
    }
  }

  lemma WireCons(ms: seq<Msg>, stash: seq<Stash>, args: Call -> string)
    requires ms != [] && |stash| == |ms|
    ensures WireOf(ms, stash, args) == Emit(ms[0], stash[0], args) + WireOf(ms[1..], stash[1..], args)
  {
  }

  lemma FrontMatching(x: Input, cs: seq<Input>, id: string)
    requires x.Rebuilt?
    ensures |Matching([x] + cs, id)| == (if x.callId == id then 1 else 0) + |Matching(cs, id)|
  {
    MinusAppend([x], cs, [], id);
  }

  lemma FrontOutput(out: string, rest: seq<Wire>, id: string)
    ensures OutputCount([Output(out)] + rest, id) == (if out == id then 1 else 0) + OutputCount(rest, id)
  {
    CountAppend([Output(out)], rest, id);
  }

  lemma AnsweringTool(m: Msg, call: Call)
    requires Answers(m, call)
    ensures m.Tool? && m.id == StringOf(call.id)
  {
  }

  /** The outputs of tool messages that answer the calls one for one. */
  lemma {:induction false} OutputsCount(calls: seq<Call>, ms: seq<Msg>, stash: seq<Stash>,
          args: Call -> string, id: string)
    requires |ms| == |stash| == |calls| && forall j | 0 <= j < |calls| :: Answers(ms[j], calls[j])
    ensures var xs := WireOf(ms, stash, args);
      && OutputCount(xs, id) == |Matching(WireCalls(calls, args), id)|
      && forall i | 0 <= i < |xs| :: xs[i].Output?
  {
    hide Answers, Matching, OutputCount, WireCalls;
    if ms == [] {
      NoCalls(args, id);
    } else {
      hide WireOf;
      OutputsCount(calls[1..], ms[1..], stash[1..], args, id);
      AnsweringTool(ms[0], calls[0]);
      WireCons(ms, stash, args);
      FrontOutput(ms[0].id, WireOf(ms[1..], stash[1..], args), id);
      CallsFront(calls, args, id);
    }
  }

  lemma NoCalls(args: Call -> string, id: string)
    ensures |Matching(WireCalls([], args), id)| == 0 == OutputCount([], id)
  {
  }

  lemma CallsFront(calls: seq<Call>, args: Call -> string, id: string)
    requires calls != []
    ensures |Matching(WireCalls(calls, args), id)|
         == (if StringOf(calls[0].id) == id then 1 else 0) + |Matching(WireCalls(calls[1..], args), id)|
  {
    hide Matching, StringOf;
    var cs := WireCalls(calls, args);
    assert cs == [cs[0]] + WireCalls(calls[1..], args);
    FrontMatching(cs[0], WireCalls(calls[1..], args), id);
  }

  lemma EmitCalls(m: Msg, s: Stash, args: Call -> string, id: string)
    requires m.Assistant? && m.calls != []
    ensures var xs := Emit(m, s, args);
      && CallCount(xs, id) == |Matching(WireCalls(m.calls, args), id)|
      && forall i | 0 <= i < |xs| :: !xs[i].Output?
  {
    hide Matching, CallItems;
    var front, parts := if s.text then [Plain] else [], Parts(CallItems(m.calls, s.replay, args));
    CallItemsCount(m.calls, s.replay, args, id);
    CountAppend(front, parts, id);
    assert CallCount(front, id) == 0;
  }

  // ------------------------------------------------------------------------
  // Whole histories

  lemma {:induction false} WireAppend(a: seq<Msg>, b: seq<Msg>, sa: seq<Stash>, sb: seq<Stash>, args: Call -> string)
    requires |sa| == |a| && |sb| == |b|
    ensures WireOf(a + b, sa + sb, args) == WireOf(a, sa, args) + WireOf(b, sb, args)
  {
    hide Emit;
    if a == [] {
      assert a + b == b && sa + sb == sb;
    } else {
      assert (a + b)[1..] == a[1..] + b && (sa + sb)[1..] == sa[1..] + sb;
      WireAppend(a[1..], b, sa[1..], sb, args);
    }
  }

  lemma PlainBalanced(xs: seq<Wire>)
    requires forall i | 0 <= i < |xs| :: xs[i].Plain?
    ensures Balanced(xs)
  {
    hide CallCount, OutputCount;
    forall n, id | 0 <= n <= |xs|
      ensures OutputCount(xs[..n], id) == 0 == CallCount(xs[..n], id)
    {
      Positive(xs[..n], id);
    }
    assert xs[..|xs|] == xs;
  }

  /** A turn and its results. */
  lemma TurnBalanced(m: Msg, results: seq<Msg>, s: Stash, stash: seq<Stash>, args: Call -> string)
    requires m.Assistant? && m.calls != [] && |results| == |m.calls| == |stash|
    requires forall j | 0 <= j < |m.calls| :: Answers(results[j], m.calls[j])
    ensures Balanced(Emit(m, s, args) + WireOf(results, stash, args))
  {
    hide Emit, WireOf, Matching, Answers, CallCount, OutputCount;
    var a, b := Emit(m, s, args), WireOf(results, stash, args);
    forall id
      ensures CallCount(a, id) == OutputCount(b, id)
    {
      EmitCalls(m, s, args, id);
      OutputsCount(m.calls, results, stash, args, id);
    }
    EmitCalls(m, s, args, "");
    OutputsCount(m.calls, results, stash, args, "");
    CallsThenOutputs(a, b);
  }

  /** The number of results that stand behind the first message. */
  function Width(ms: seq<Msg>): nat
    requires ms != []
  {
    if ms[0].Assistant? then |ms[0].calls| else 0
  }

  lemma PairedFront(ms: seq<Msg>)
    requires Paired(ms) && ms != []
    ensures Width(ms) < |ms| && Paired(ms[1 + Width(ms)..]) && !ms[0].Tool?
    ensures ms[0].Assistant? ==> forall j | 0 <= j < |ms[0].calls| :: Answers(ms[1 + j], ms[0].calls[j])
  {
    hide Answers;
    if ms[0].Assistant? {
      assert Paired(ms[1 + |ms[0].calls|..]);
    } else {
      assert Paired(ms[1..]);
    }
  }

  lemma FrontBalanced(ms: seq<Msg>, stash: seq<Stash>, args: Call -> string)
    requires Paired(ms) && ms != [] && |stash| == |ms| && Width(ms) < |ms|
    ensures Balanced(Emit(ms[0], stash[0], args) + WireOf(ms[1..1 + Width(ms)], stash[1..1 + Width(ms)], args))
  {
    hide Paired, Balanced, Answers;
    PairedFront(ms);
    var k := Width(ms);
    var results := ms[1..1 + k];
    if k > 0 {
      hide Emit, WireOf;
      assert forall j | 0 <= j < k :: results[j] == ms[1 + j];
      TurnBalanced(ms[0], results, stash[0], stash[1..1 + k], args);
    } else {
      PlainBalanced(Emit(ms[0], stash[0], args) + WireOf(results, stash[1..1 + k], args));
    }
  }

  lemma WireFront(ms: seq<Msg>, stash: seq<Stash>, args: Call -> string, k: nat)
    requires k < |ms| == |stash|
    ensures WireOf(ms, stash, args)
         == Emit(ms[0], stash[0], args) + WireOf(ms[1..1 + k], stash[1..1 + k], args)
            + WireOf(ms[1 + k..], stash[1 + k..], args)
  {
    hide WireOf, Emit;
    WireCons(ms, stash, args);
    CutTail(ms, k);
    CutTail(stash, k);
    WireAppend(ms[1..1 + k], ms[1 + k..], stash[1..1 + k], stash[1 + k..], args);
    Associative(Emit(ms[0], stash[0], args), WireOf(ms[1..1 + k], stash[1..1 + k], args),
                WireOf(ms[1 + k..], stash[1 + k..], args));
  }

  lemma CutTail<T>(s: seq<T>, k: nat)
    requires k < |s|
    ensures s[1..] == s[1..1 + k] + s[1 + k..]
  {
  }

  lemma Associative<T>(a: seq<T>, b: seq<T>, c: seq<T>)
    ensures a + (b + c) == a + b + c
  {
  }

  /** A paired history is balanced in the Responses form, whatever was replayed. */
  lemma {:induction false} PairedIsBalanced(ms: seq<Msg>, stash: seq<Stash>, args: Call -> string)
    requires Paired(ms) && |stash| == |ms|
    ensures Balanced(WireOf(ms, stash, args))
    decreases |ms|
  {
    hide Balanced, Paired, Emit;
    if ms == [] {
      PlainBalanced([]);
    } else {
      hide WireOf;
      PairedFront(ms);
      var k := Width(ms);
      PairedIsBalanced(ms[1 + k..], stash[1 + k..], args);
      FrontBalanced(ms, stash, args);
      WireFront(ms, stash, args, k);
      BalancedAppend(Emit(ms[0], stash[0], args) + WireOf(ms[1..1 + k], stash[1..1 + k], args),
                     WireOf(ms[1 + k..], stash[1 + k..], args));
    }
  }

  /** Where ids are distinct, every call has exactly one output, and it stands behind the call. */
  lemma OneLaterOutput(xs: seq<Wire>, i: nat) returns (j: nat)
    requires Balanced(xs) && i < |xs| && xs[i].Part? && xs[i].input.Rebuilt?
    requires forall k | 0 <= k < |xs| && IsCall(xs[k], xs[i].input.callId) :: k == i
    ensures i < j < |xs| && xs[j] == Output(xs[i].input.callId)
    ensures forall k | 0 <= k < |xs| && xs[k] == Output(xs[i].input.callId) :: k == j
  {
    hide CallCount, OutputCount;
    var id := xs[i].input.callId;
    CountOnce(xs, i, id);
    assert OutputCount(xs, id) == 1;
    Positive(xs, id);
    j :| 0 <= j < |xs| && xs[j] == Output(id);
    Positive(xs[..j + 1], id);
    assert OutputCount(xs[..j + 1], id) <= CallCount(xs[..j + 1], id);
    assert xs[..j + 1][j] == Output(id);
    var c :| 0 <= c < j + 1 && IsCall(xs[..j + 1][c], id);
    assert xs[c] == xs[..j + 1][c];
    forall k | 0 <= k < |xs| && xs[k] == Output(id)
      ensures k == j
    {
      if k < j {
        TwoOutputs(xs, k, j, id);
      } else if j < k {
        TwoOutputs(xs, j, k, id);
      }
    }
  }

  lemma CountOnce(xs: seq<Wire>, i: nat, id: string)
    requires i < |xs| && IsCall(xs[i], id) && forall k | 0 <= k < |xs| && IsCall(xs[k], id) :: k == i
    ensures CallCount(xs, id) == 1
  {
    hide OutputCount;
    assert xs == xs[..i] + [xs[i]] + xs[i + 1..];
    CountAppend(xs[..i] + [xs[i]], xs[i + 1..], id);
    CountAppend(xs[..i], [xs[i]], id);
    Positive(xs[..i], id);
    Positive(xs[i + 1..], id);
    assert CallCount([xs[i]], id) == 1;
    var rest := xs[i + 1..];
    forall k | 0 <= k < |rest|
      ensures !IsCall(rest[k], id)
    {
      assert rest[k] == xs[i + 1 + k];
    }
    assert forall k | 0 <= k < i :: xs[..i][k] == xs[k];
  }

  lemma TwoOutputs(xs: seq<Wire>, i: nat, j: nat, id: string)
    requires i < j < |xs| && xs[i] == xs[j] == Output(id)
    ensures OutputCount(xs, id) >= 2
  {
    hide CallCount;
    assert xs == xs[..j] + [xs[j]] + xs[j + 1..];
    CountAppend(xs[..j] + [xs[j]], xs[j + 1..], id);
    CountAppend(xs[..j], [xs[j]], id);
    Positive(xs[..j], id);
    assert xs[..j][i] == Output(id);
    assert OutputCount([xs[j]], id) == 1;
  }

  /** A posted history whose turns are all whole is balanced in the Responses form. */
  lemma PostedIsBalanced(c: Config, w: World, r: Run, i: nat, stash: seq<Stash>, args: Call -> string)
    requires Recorded(c, w, r) && i < |r.posts| && |stash| == |r.posts[i].msgs|
    requires AllWhole(c, w, r.posts[i].origins, r.posts[i].from)
    ensures Balanced(WireOf(r.posts[i].msgs, stash, args))
  {
    hide Balanced, Paired, AllWhole, WireOf, Recorded;
    PostedPairing(c, w, r);
    PairedIsBalanced(r.posts[i].msgs, stash, args);
  }

  /** Native tools that do not read their standard input, and answers whose ids reach their results: every request of
      the run is balanced in the Responses form. */
  lemma NativeRunsBalance(c: Config, w: World, r: Run, i: nat, stash: seq<Stash>, args: Call -> string)
    requires Recorded(c, w, r) && Quiet(w) && c.mode == Openai
    requires forall k, j | 0 <= j < |w.provider(k).body.native| :: Addressed(w.provider(k).body.native[j])
    requires forall n | 0 <= n < |r.origins| :: r.origins[n].Sent?
    requires i < |r.posts| && |stash| == |r.posts[i].msgs|
    ensures Balanced(WireOf(r.posts[i].msgs, stash, args))
  {
    hide Balanced, Paired, WireOf, Recorded, Addressed;
    NativeRunsPair(c, w, r);
    PairedIsBalanced(r.posts[i].msgs, stash, args);
  }
}
