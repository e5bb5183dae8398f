// Responses replay: a normalized turn keeps the raw output items, and the next
// request rebuilds them around the tool calls that were executed.

module Replay {
  import opened Common

  /** Call arguments: a JSON string, or another JSON value in its text form. */
  datatype Args = Str(s: string) | Json(text: string)

  /** One output item of a response. `Scalar` is anything that is neither an object nor null. */
  datatype Item =
    | Null
    | Scalar
    | Message(raw: string)
    | FunctionCall(callId: Option<string>, id: Option<string>, name: Option<string>, args: Option<Args>)
    | Opaque(raw: string)

  datatype ToolCall = ToolCall(id: string, name: string, args: Args)

  /** An input item of the next request. */
  datatype Input = Verbatim(item: Item) | Rebuilt(callId: string, name: string, arguments: string)

  function Or<T>(a: Option<T>, b: T): T {
    if a.Some? then a.value else b
  }

  function ItemId(item: Item): string
    requires item.FunctionCall?
  {
    if item.callId.Some? then item.callId.value else Or(item.id, "")
  }

  function ToolCallOf(item: Item): ToolCall
    requires item.FunctionCall?
  {
    ToolCall(ItemId(item), Or(item.name, ""), Or(item.args, Str("{}")))
  }

  function Calls(output: seq<Item>): seq<ToolCall> {
    if output == [] then []
    else Calls(output[..|output| - 1])
         + if output[|output| - 1].FunctionCall? then [ToolCallOf(output[|output| - 1])] else []
  }

  /** The calls of the normalized message; a scalar item makes the whole step fail. */
  function Normalize(output: seq<Item>): Option<seq<ToolCall>> {
    if Scalar in output then None else Some(Calls(output))
  }

  function Rebuild(c: ToolCall): Input {
    Rebuilt(c.id, c.name, if c.args.Str? then c.args.s else c.args.text)
  }

  function RebuildAll(cs: seq<ToolCall>): (r: seq<Input>)
    ensures |r| == |cs|
  {
    seq(|cs|, i requires 0 <= i < |cs| => Rebuild(cs[i]))
  }

  function Matching(cs: seq<Input>, id: string): seq<Input> {
    if cs == [] then []
    else
      var (front, x) := (Matching(cs[..|cs| - 1], id), cs[|cs| - 1]);
      if x.Rebuilt? && x.callId == id then front + [x] else front
  }

  /** jq's array difference: every element equal to one of `hit` goes. */
  function Minus(cs: seq<Input>, hit: seq<Input>): seq<Input> {
    if cs == [] then []
    else
      var (front, x) := (Minus(cs[..|cs| - 1], hit), cs[|cs| - 1]);
      if x in hit then front else front + [x]
  }

  datatype Fold = Fold(out: seq<Input>, rest: seq<Input>)

  function Step(f: Fold, item: Item): Fold {
    match item
    case Null => f
    case Scalar => f
    case Message(_) => f
    case FunctionCall(_, _, _, _) =>
      var hit := Matching(f.rest, ItemId(item));
      Fold(f.out + hit, Minus(f.rest, hit))
    case Opaque(_) => f.(out := f.out + [Verbatim(item)])
  }

  function Reduce(replay: seq<Item>, calls: seq<Input>): Fold {
    if replay == [] then Fold([], calls)
    else Step(Reduce(replay[..|replay| - 1], calls), replay[|replay| - 1])
  }

  function ReplayItems(replay: seq<Item>, calls: seq<Input>): seq<Input> {
    Reduce(replay, calls).out + Reduce(replay, calls).rest
  }

  // ------------------------------------------------------------------------
  // The same fold without the items that are skipped

  /** A call item as an input item, from its own fields. */
  function AsInput(item: Item): Input
    requires item.FunctionCall?
  {
    var id := if item.callId.Some? then item.callId.value else if item.id.Some? then item.id.value else "";
    var arguments := match item.args
      case None => "{}"
      case Some(Str(s)) => s
      case Some(Json(text)) => text;
    Rebuilt(id, if item.name.Some? then item.name.value else "", arguments)
  }

  /** The output without message items, in its order. */
  function Original(output: seq<Item>): seq<Input> {
    if output == [] then []
    else
      var (front, item) := (Original(output[..|output| - 1]), output[|output| - 1]);
      match item
      case FunctionCall(_, _, _, _) => front + [AsInput(item)]
      case Opaque(_) => front + [Verbatim(item)]
      case _ => front
  }

  function Take(f: Fold, x: Input): Fold {
    if x.Rebuilt? then
      var hit := Matching(f.rest, x.callId);
      Fold(f.out + hit, Minus(f.rest, hit))
    else f.(out := f.out + [x])
  }

  function TakeAll(xs: seq<Input>, calls: seq<Input>): Fold {
    if xs == [] then Fold([], calls) else Take(TakeAll(xs[..|xs| - 1], calls), xs[|xs| - 1])
  }

  lemma TakeSnoc(xs: seq<Input>, x: Input, calls: seq<Input>)
    ensures TakeAll(xs + [x], calls) == Take(TakeAll(xs, calls), x)
  {
  }

  lemma NormalizedCall(item: Item)
    requires item.FunctionCall?
    ensures AsInput(item) == Rebuild(ToolCallOf(item)) && AsInput(item).Rebuilt? && AsInput(item).callId == ItemId(item)
  {
  }

  lemma {:induction false} ReduceIsTakeAll(replay: seq<Item>, calls: seq<Input>)
    ensures Reduce(replay, calls) == TakeAll(Original(replay), calls)
  {
    hide AsInput, Matching, Minus;
    if replay != [] {
      var front, item := replay[..|replay| - 1], replay[|replay| - 1];
      ReduceIsTakeAll(front, calls);
      if item.FunctionCall? {
        NormalizedCall(item);
        TakeSnoc(Original(front), AsInput(item), calls);
      } else if item.Opaque? {
        TakeSnoc(Original(front), Verbatim(item), calls);
      }
    }
  }

  // ------------------------------------------------------------------------
  // Conservation

  predicate SameId(a: Input, b: Input) {
    a.Rebuilt? && b.Rebuilt? && a.callId == b.callId
  }

  predicate AllRebuilt(cs: seq<Input>) {
    forall i | 0 <= i < |cs| :: cs[i].Rebuilt?
  }

  function CallsIn(xs: seq<Input>): seq<Input> {
    if xs == [] then []
    else
      var front := CallsIn(xs[..|xs| - 1]);
      if xs[|xs| - 1].Rebuilt? then front + [xs[|xs| - 1]] else front
  }

  function VerbatimIn(xs: seq<Input>): seq<Input> {
    if xs == [] then []
    else
      var front := VerbatimIn(xs[..|xs| - 1]);
      if xs[|xs| - 1].Verbatim? then front + [xs[|xs| - 1]] else front
  }

  lemma {:induction false} InAppend(a: seq<Input>, b: seq<Input>)
    ensures CallsIn(a + b) == CallsIn(a) + CallsIn(b) && VerbatimIn(a + b) == VerbatimIn(a) + VerbatimIn(b)
  {
    if b == [] {
      assert a + b == a;
    } else {
      assert (a + b)[..|a + b| - 1] == a + b[..|b| - 1];
      InAppend(a, b[..|b| - 1]);
    }
  }

  lemma {:induction false} CallsAreIn(xs: seq<Input>)
    ensures AllRebuilt(CallsIn(xs)) && forall x | x in CallsIn(xs) :: x in xs
  {
    if xs != [] {
      CallsAreIn(xs[..|xs| - 1]);
      assert xs == xs[..|xs| - 1] + [xs[|xs| - 1]];
    }
  }

  lemma {:induction false} OnlyCalls(cs: seq<Input>)
    requires AllRebuilt(cs)
    ensures CallsIn(cs) == cs && VerbatimIn(cs) == []
  {
    if cs != [] {
      OnlyCalls(cs[..|cs| - 1]);
      assert cs == cs[..|cs| - 1] + [cs[|cs| - 1]];
    }
  }

  lemma {:induction false} MatchingIn(cs: seq<Input>, id: string)
    ensures AllRebuilt(Matching(cs, id)) && forall x | x in Matching(cs, id) :: x in cs && x.callId == id
    ensures forall x | x in cs && x.Rebuilt? && x.callId == id :: x in Matching(cs, id)
  {
    if cs != [] {
      var front := cs[..|cs| - 1];
      MatchingIn(front, id);
      assert cs == front + [cs[|cs| - 1]];
    }
  }

  lemma TakenSnoc(cs: seq<Input>, x: Input, id: string, hit: seq<Input>)
    requires x.Rebuilt?
    ensures Matching(cs + [x], id) == if x.callId == id then Matching(cs, id) + [x] else Matching(cs, id)
    ensures Minus(cs + [x], hit) == if x in hit then Minus(cs, hit) else Minus(cs, hit) + [x]
  {
    assert (cs + [x])[..|cs|] == cs;
  }

  lemma {:induction false} MinusIn(cs: seq<Input>, hit: seq<Input>)
    ensures forall x | x in Minus(cs, hit) :: x in cs && x !in hit
  {
    if cs != [] {
      MinusIn(cs[..|cs| - 1], hit);
      assert cs == cs[..|cs| - 1] + [cs[|cs| - 1]];
    }
  }

  /** Taking out the matching calls leaves exactly the others. */
  lemma {:induction false} MinusSplits(cs: seq<Input>, id: string, hit: seq<Input>)
    requires AllRebuilt(cs)
    requires forall x | x in cs :: x in hit <==> x.callId == id
    ensures multiset(Matching(cs, id)) + multiset(Minus(cs, hit)) == multiset(cs)
  {
    if cs != [] {
      hide Matching, Minus;
      var front, x := cs[..|cs| - 1], cs[|cs| - 1];
      assert cs == front + [x] && x in cs;
      MinusSplits(front, id, hit);
      TakenSnoc(front, x, id, hit);
      assert multiset(cs) == multiset(front) + multiset{x};
    }
  }

  /** One call item moves all waiting calls of its id to the output. */
  lemma TakeCall(f: Fold, x: Input)
    requires AllRebuilt(f.rest) && x.Rebuilt?
    ensures var (hit, f') := (Matching(f.rest, x.callId), Take(f, x));
      && f'.out == f.out + hit && AllRebuilt(hit) && AllRebuilt(f'.rest)
      && multiset(hit) + multiset(f'.rest) == multiset(f.rest)
      && (forall y | y in hit :: y.callId == x.callId && y in f.rest)
      && (forall y | y in f'.rest :: y.callId != x.callId && y in f.rest)
  {
    var hit := Matching(f.rest, x.callId);
    MatchingIn(f.rest, x.callId);
    assert forall y | y in f.rest :: y.Rebuilt?;
    MinusSplits(f.rest, x.callId, hit);
    MinusIn(f.rest, hit);
  }

  lemma CallConserves(f: Fold, x: Input)
    requires AllRebuilt(f.rest) && x.Rebuilt?
    ensures var f' := Take(f, x);
      && multiset(CallsIn(f'.out)) + multiset(f'.rest) == multiset(CallsIn(f.out)) + multiset(f.rest)
      && VerbatimIn(f'.out) == VerbatimIn(f.out)
  {
    var hit, f' := Matching(f.rest, x.callId), Take(f, x);
    TakeCall(f, x);
    hide Matching, Minus, Take;
    InAppend(f.out, hit);
    OnlyCalls(hit);
    assert multiset(CallsIn(f.out) + hit) == multiset(CallsIn(f.out)) + multiset(hit);
  }

  lemma {:induction false} TakeConserves(xs: seq<Input>, calls: seq<Input>)
    requires AllRebuilt(calls)
    ensures var f := TakeAll(xs, calls);
      && AllRebuilt(f.rest) && multiset(CallsIn(f.out)) + multiset(f.rest) == multiset(calls)
      && VerbatimIn(f.out) == VerbatimIn(xs)
  {
    if xs != [] {
      var f, x := TakeAll(xs[..|xs| - 1], calls), xs[|xs| - 1];
      TakeConserves(xs[..|xs| - 1], calls);
      if x.Rebuilt? {
        CallConserves(f, x);
        TakeCall(f, x);
      } else {
        InAppend(f.out, [x]);
        assert CallsIn([x]) == [] && VerbatimIn([x]) == [x];
      }
    }
  }

  /** What is left over is an input call whose id the fold has not seen. */
  lemma {:induction false} RestUnseen(xs: seq<Input>, calls: seq<Input>, j: nat)
    requires AllRebuilt(calls) && j < |TakeAll(xs, calls).rest|
    ensures var y := TakeAll(xs, calls).rest[j]; y in calls && forall i | 0 <= i < |xs| :: !SameId(xs[i], y)
  {
    if xs != [] {
      var front, x := xs[..|xs| - 1], xs[|xs| - 1];
      var f, rest := TakeAll(front, calls), TakeAll(xs, calls).rest;
      var y := rest[j];
      var k := j;
      if x.Rebuilt? {
        TakeConserves(front, calls);
        TakeCall(f, x);
        assert y in rest;
        k :| 0 <= k < |f.rest| && f.rest[k] == y;
      }
      RestUnseen(front, calls, k);
      forall i | 0 <= i < |xs|
        ensures !SameId(xs[i], y)
      {
        assert i < |front| ==> xs[i] == front[i];
      }
    }
  }

  /** Whatever the replay holds, every call is sent once and the opaque items keep their order. */
  lemma ReplayConserves(replay: seq<Item>, calls: seq<Input>)
    requires AllRebuilt(calls)
    ensures var xs := ReplayItems(replay, calls);
      multiset(CallsIn(xs)) == multiset(calls) && VerbatimIn(xs) == VerbatimIn(Original(replay))
  {
    ReduceIsTakeAll(replay, calls);
    var f := TakeAll(Original(replay), calls);
    TakeConserves(Original(replay), calls);
    InAppend(f.out, f.rest);
    OnlyCalls(f.rest);
  }

  // ------------------------------------------------------------------------
  // Round trip

  /** Calls that share an id stand together. */
  predicate Grouped(xs: seq<Input>) {
    forall i, j, k | 0 <= i < k < j < |xs| && SameId(xs[i], xs[j]) :: SameId(xs[i], xs[k])
  }

  /** No id of `rest` occurs in `out`. */
  predicate Apart(out: seq<Input>, rest: seq<Input>) {
    forall i, j | 0 <= i < |out| && 0 <= j < |rest| :: !SameId(out[i], rest[j])
  }

  lemma GroupedAppend(out: seq<Input>, hit: seq<Input>)
    requires Grouped(out) && Apart(out, hit)
    requires forall i, j | 0 <= i < |hit| && 0 <= j < |hit| :: hit[i].Rebuilt? ==> SameId(hit[i], hit[j])
    ensures Grouped(out + hit)
  {
  }

  /** The rebuilt items are grouped by id, whatever the input. */
  lemma {:induction false} TakeGroups(xs: seq<Input>, calls: seq<Input>)
    requires AllRebuilt(calls)
    ensures var f := TakeAll(xs, calls); Grouped(f.out) && Apart(f.out, f.rest) && AllRebuilt(f.rest)
  {
    if xs != [] {
      var f, x := TakeAll(xs[..|xs| - 1], calls), xs[|xs| - 1];
      TakeGroups(xs[..|xs| - 1], calls);
      if x.Rebuilt? {
        CallGroups(f, x);
      } else {
        GroupedAppend(f.out, [x]);
      }
    }
  }

  lemma CallGroups(f: Fold, x: Input)
    requires AllRebuilt(f.rest) && x.Rebuilt? && Grouped(f.out) && Apart(f.out, f.rest)
    ensures var f' := Take(f, x); Grouped(f'.out) && Apart(f'.out, f'.rest) && AllRebuilt(f'.rest)
  {
    var hit, f' := Matching(f.rest, x.callId), Take(f, x);
    TakeCall(f, x);
    forall i | 0 <= i < |hit|
      ensures hit[i].callId == x.callId && exists j | 0 <= j < |f.rest| :: f.rest[j] == hit[i]
    {
      assert hit[i] in hit;
    }
    forall i | 0 <= i < |f'.rest|
      ensures f'.rest[i].callId != x.callId && exists j | 0 <= j < |f.rest| :: f.rest[j] == f'.rest[i]
    {
      assert f'.rest[i] in f'.rest;
    }
    GroupedAppend(f.out, hit);
  }

  lemma {:induction false} CallsOfOutput(output: seq<Item>)
    ensures RebuildAll(Calls(output)) == CallsIn(Original(output))
  {
    if output != [] {
      var front, item := output[..|output| - 1], output[|output| - 1];
      CallsOfOutput(front);
      if item.FunctionCall? {
        assert RebuildAll(Calls(front) + [ToolCallOf(item)]) == RebuildAll(Calls(front)) + [Rebuild(ToolCallOf(item))];
        NormalizedCall(item);
        InAppend(Original(front), [AsInput(item)]);
        OnlyCalls([AsInput(item)]);
      } else if item.Opaque? {
        InAppend(Original(front), [Verbatim(item)]);
      }
    }
  }

  /** Taking the calls of `xs` itself leaves nothing over. */
  lemma NothingLeft(xs: seq<Input>)
    ensures TakeAll(xs, CallsIn(xs)).rest == []
  {
    var f := TakeAll(xs, CallsIn(xs));
    CallsAreIn(xs);
    if f.rest != [] {
      RestUnseen(xs, CallsIn(xs), 0);
      assert false;
    }
  }

  /** The end of the block of equal ids that starts at `n`. */
  function BlockEnd(xs: seq<Input>, n: nat, e: nat): (r: nat)
    requires n < e <= |xs|
    ensures e <= r <= |xs| && (r < |xs| ==> !SameId(xs[n], xs[r]))
    ensures forall m | e <= m < r :: SameId(xs[n], xs[m])
    decreases |xs| - e
  {
    if e < |xs| && SameId(xs[n], xs[e]) then BlockEnd(xs, n, e + 1) else e
  }

  /** After `n` items of a grouped list the output is the list up to `e`, the end of the block at `n`. */
  ghost predicate Reached(xs: seq<Input>, n: nat, e: nat) {
    && n <= e <= |xs|
    && TakeAll(xs[..n], CallsIn(xs)) == Fold(xs[..e], CallsIn(xs[e..]))
    && (n == 0 ==> e == 0)
    && (n > 0 ==> forall m | n <= m < e :: SameId(xs[n - 1], xs[m]))
    && (n > 0 && e < |xs| ==> !SameId(xs[n - 1], xs[e]))
  }

  /** In a grouped list nothing behind the end of a block has the id of the block. */
  lemma BehindBlock(xs: seq<Input>, n: nat, e: nat)
    requires Grouped(xs) && n < e <= |xs| && xs[n].Rebuilt? && (e < |xs| ==> !SameId(xs[n], xs[e]))
    ensures Matching(CallsIn(xs[e..]), xs[n].callId) == []
    ensures forall y | y in CallsIn(xs[e..]) :: y.Rebuilt? && y.callId != xs[n].callId
  {
    var tail := xs[e..];
    CallsAreIn(tail);
    forall y | y in CallsIn(tail)
      ensures y.callId != xs[n].callId
    {
      var j :| 0 <= j < |tail| && tail[j] == y;
      assert tail[j] == xs[e + j];
    }
    MatchingNone(CallsIn(tail), xs[n].callId);
  }

  lemma {:induction false} MatchingNone(cs: seq<Input>, id: string)
    requires forall y | y in cs :: y.Rebuilt? && y.callId != id
    ensures Matching(cs, id) == []
  {
    if cs != [] {
      assert cs[|cs| - 1] in cs;
      MatchingNone(cs[..|cs| - 1], id);
    }
  }

  lemma {:induction false} MinusNone(cs: seq<Input>, hit: seq<Input>)
    requires forall y | y in cs :: y !in hit
    ensures Minus(cs, hit) == cs
  {
    if cs != [] {
      var front, x := cs[..|cs| - 1], cs[|cs| - 1];
      assert cs == front + [x] && x in cs;
      MinusNone(front, hit);
    }
  }

  lemma {:induction false} MinusAppend(a: seq<Input>, b: seq<Input>, hit: seq<Input>, id: string)
    ensures Minus(a + b, hit) == Minus(a, hit) + Minus(b, hit)
    ensures Matching(a + b, id) == Matching(a, id) + Matching(b, id)
  {
    if b == [] {
      assert a + b == a;
    } else {
      assert (a + b)[..|a + b| - 1] == a + b[..|b| - 1];
      MinusAppend(a, b[..|b| - 1], hit, id);
    }
  }

  lemma {:induction false} MatchingAll(cs: seq<Input>, id: string)
    requires forall i | 0 <= i < |cs| :: cs[i].Rebuilt? && cs[i].callId == id
    ensures Matching(cs, id) == cs
  {
    if cs != [] {
      MatchingAll(cs[..|cs| - 1], id);
      assert cs == cs[..|cs| - 1] + [cs[|cs| - 1]];
    }
  }

  lemma {:induction false} MinusAll(cs: seq<Input>, hit: seq<Input>)
    requires forall i | 0 <= i < |cs| :: cs[i] in hit
    ensures Minus(cs, hit) == []
  {
    if cs != [] {
      MinusAll(cs[..|cs| - 1], hit);
    }
  }

  /** A block of one id in front of calls with other ids is taken whole. */
  lemma TakeBlock(block: seq<Input>, others: seq<Input>, id: string)
    requires forall i | 0 <= i < |block| :: block[i].Rebuilt? && block[i].callId == id
    requires Matching(others, id) == [] && forall y | y in others :: y.Rebuilt? && y.callId != id
    ensures Matching(block + others, id) == block && Minus(block + others, block) == others
  {
    MatchingAll(block, id);
    MinusAll(block, block);
    MinusAppend(block, others, block, id);
    forall y | y in others
      ensures y !in block
    {
    }
    MinusNone(others, block);
  }

  /** A call inside a block that was already sent adds nothing. */
  lemma ReachInside(xs: seq<Input>, n: nat, e: nat)
    requires Grouped(xs) && n < e && Reached(xs, n, e)
    ensures Reached(xs, n + 1, e)
  {
    hide Grouped;
    var x, f := xs[n], TakeAll(xs[..n], CallsIn(xs));
    TakeSnoc(xs[..n], x, CallsIn(xs));
    assert xs[..n + 1] == xs[..n] + [x];
    assert SameId(xs[n - 1], xs[n]);
    BehindBlock(xs, n, e);
    assert Matching(f.rest, x.callId) == [];
    MinusNone(f.rest, []);
    assert f.out + [] == f.out;
    forall m | n + 1 <= m < e
      ensures SameId(xs[n], xs[m])
    {
      assert SameId(xs[n - 1], xs[m]);
    }
  }

  lemma ReachVerbatim(xs: seq<Input>, n: nat)
    requires n < |xs| && Reached(xs, n, n) && xs[n].Verbatim?
    ensures Reached(xs, n + 1, n + 1)
  {
    var x := xs[n];
    TakeSnoc(xs[..n], x, CallsIn(xs));
    assert xs[..n + 1] == xs[..n] + [x];
    assert xs[n..] == [x] + xs[n + 1..];
    InAppend([x], xs[n + 1..]);
    assert CallsIn([x]) == [];
  }

  /** The first call of a block takes the whole block. */
  lemma TakesBlock(xs: seq<Input>, n: nat, e: nat)
    requires Grouped(xs) && n < e <= |xs| && xs[n].Rebuilt?
    requires (e < |xs| ==> !SameId(xs[n], xs[e])) && forall m | n < m < e :: SameId(xs[n], xs[m])
    ensures Take(Fold(xs[..n], CallsIn(xs[n..])), xs[n]) == Fold(xs[..e], CallsIn(xs[e..]))
  {
    hide Grouped, Matching, Minus, CallsIn;
    var block, others := xs[n..e], CallsIn(xs[e..]);
    BehindBlock(xs, n, e);
    assert xs[n..] == block + xs[e..];
    InAppend(block, xs[e..]);
    OnlyCalls(block);
    TakeBlock(block, others, xs[n].callId);
    assert xs[..n] + block == xs[..e];
  }

  lemma ReachBlock(xs: seq<Input>, n: nat, e: nat)
    requires Grouped(xs) && n < e <= |xs| && Reached(xs, n, n) && xs[n].Rebuilt?
    requires (e < |xs| ==> !SameId(xs[n], xs[e])) && forall m | n < m < e :: SameId(xs[n], xs[m])
    ensures Reached(xs, n + 1, e)
  {
    hide Grouped, Take;
    TakeSnoc(xs[..n], xs[n], CallsIn(xs));
    assert xs[..n + 1] == xs[..n] + [xs[n]];
    TakesBlock(xs, n, e);
  }

  lemma ReachMore(xs: seq<Input>, n: nat, e: nat) returns (e': nat)
    requires Grouped(xs) && n < |xs| && n <= e && Reached(xs, n, e)
    ensures n < e' && Reached(xs, n + 1, e')
  {
    hide Grouped, Reached, TakeAll;
    if n < e {
      e' := e;
      ReachInside(xs, n, e);
    } else if xs[n].Verbatim? {
      e' := n + 1;
      ReachVerbatim(xs, n);
    } else {
      e' := BlockEnd(xs, n, n + 1);
      ReachBlock(xs, n, e');
    }
  }

  lemma {:induction false} GroupedReach(xs: seq<Input>, n: nat) returns (e: nat)
    requires Grouped(xs) && n <= |xs|
    ensures n <= e && Reached(xs, n, e)
  {
    if n == 0 {
      e := 0;
      assert xs[0..] == xs;
    } else {
      var e0 := GroupedReach(xs, n - 1);
      e := ReachMore(xs, n - 1, e0);
    }
  }

  /** Normalizing a response and sending it back restores the output without its messages,
      in its order, exactly when calls that share an id stand together. */
  lemma ReplayRoundTrip(output: seq<Item>)
    requires Normalize(output).Some?
    ensures ReplayItems(output, RebuildAll(Normalize(output).value)) == Original(output) <==> Grouped(Original(output))
  {
    var xs := Original(output);
    CallsOfOutput(output);
    ReduceIsTakeAll(output, CallsIn(xs));
    var f := TakeAll(xs, CallsIn(xs));
    NothingLeft(xs);
    CallsAreIn(xs);
    TakeGroups(xs, CallsIn(xs));
    assert ReplayItems(output, CallsIn(xs)) == f.out;
    if Grouped(xs) {
      var e := GroupedReach(xs, |xs|);
      assert xs[..|xs|] == xs;
    }
  }

  /** With distinct call ids the round trip always restores the output. */
  lemma DistinctIdsRoundTrip(output: seq<Item>)
    requires Normalize(output).Some?
    requires var xs := Original(output); forall i, j | 0 <= i < j < |xs| :: !SameId(xs[i], xs[j])
    ensures ReplayItems(output, RebuildAll(Normalize(output).value)) == Original(output)
  {
    ReplayRoundTrip(output);
  }
}
