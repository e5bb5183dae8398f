// The message history of an exchange: when every assistant turn with native
// calls is followed by exactly one result for each of its calls, in order.

module ExchangeHistory {
  import opened Common
  import opened Exchange

  /** A provider matches a result to its call by the id. */
  predicate Answers(m: Msg, call: Call) {
    m.Tool? && call.id == Text(m.id)
  }

  /** Every assistant turn with native calls is followed by exactly one result per call,
      in order, and there are no other results. */
  predicate Paired(ms: seq<Msg>)
    decreases |ms|
  {
    ms == [] ||
    match ms[0]
    case System => Paired(ms[1..])
    case User => Paired(ms[1..])
    case Tool(_, _, _) => false
    case Assistant(calls) =>
      && |ms| > |calls|
      && (forall j | 0 <= j < |calls| :: Answers(ms[1 + j], calls[j]))
      && Paired(ms[1 + |calls|..])
  }

  lemma {:induction false} PairedAppend(a: seq<Msg>, b: seq<Msg>)
    requires Paired(a)
    ensures Paired(a + b) <==> Paired(b)
    decreases |a|
  {
    if a == [] {
      assert a + b == b;
    } else {
      var k := if a[0].Assistant? then 1 + |a[0].calls| else 1;
      assert (a + b)[0] == a[0] && (a + b)[k..] == a[k..] + b;
      assert forall j | 0 <= j < k :: (a + b)[j] == a[j];
      PairedAppend(a[k..], b);
    }
  }

  lemma {:induction false} UsersArePaired(ms: seq<Msg>)
    requires forall i | 0 <= i < |ms| :: ms[i] == User || ms[i] == System
    ensures Paired(ms)
  {
    if ms != [] {
      UsersArePaired(ms[1..]);
    }
  }

  // ------------------------------------------------------------------------
  // The results of one turn

  function Min(a: nat, b: nat): nat {
    if a < b then a else b
  }

  function Result(source: Source, call: Call, skipped: bool): Msg {
    if source == Native then Tool(Raw(call.id), Raw(call.name), skipped) else User
  }

  /** What waits after tool number `e` has read from the calls `rest`: whole calls are gone, and when it stopped
      inside a line the loop reads what is left of that line. */
  function Left(w: World, e: nat, rest: seq<Call>): (r: seq<Call>)
    ensures |r| <= |rest|
  {
    var whole := rest[Min(w.swallows(e), |rest|)..];
    if whole != [] && w.tears(e).Some? then [w.tears(e).value] + whole[1..] else whole
  }

  /** The calls as the loop reads them, from call number `index` on. A tool that is run may read waiting calls as its
      own input; calls over the limit are answered without being run. */
  function Served(c: Config, w: World, calls: seq<Call>, executed: nat, index: nat): (r: seq<Call>)
    ensures |r| <= |calls|
    decreases |calls|
  {
    if calls == [] then []
    else if index >= c.callsPerRound then [calls[0]] + Served(c, w, calls[1..], executed, index + 1)
    else [calls[0]] + Served(c, w, Left(w, executed, calls[1..]), executed + 1, index + 1)
  }

  /** The results of the calls that are read, in order. */
  function ResultsFor(c: Config, source: Source, served: seq<Call>, index: nat): (r: seq<Msg>)
    ensures |r| == |served|
  {
    seq(|served|, i requires 0 <= i < |served| => Result(source, served[i], index + i >= c.callsPerRound))
  }

  function Results(c: Config, w: World, source: Source, calls: seq<Call>, executed: nat): (r: seq<Msg>)
    ensures |r| <= |calls|
  {
    ResultsFor(c, source, Served(c, w, calls, executed, 0), 0)
  }

  /** No executed call other than the last of the turn reads from a waiting call. */
  predicate Intact(c: Config, w: World, n: nat, executed: nat, index: nat) {
    forall e: nat | executed <= e && e - executed < n - 1 && e - executed + index < c.callsPerRound ::
      w.swallows(e) == 0 && w.tears(e).None?
  }

  /** Without a reading tool every call is read as it is. */
  lemma {:induction false} IntactServes(c: Config, w: World, calls: seq<Call>, executed: nat, index: nat)
    requires Intact(c, w, |calls|, executed, index)
    ensures Served(c, w, calls, executed, index) == calls
    decreases |calls|
  {
    hide Intact, Left;
    if calls == [] {
    } else if index >= c.callsPerRound {
      IntactOver(c, w, |calls| - 1, executed, index + 1);
      IntactServes(c, w, calls[1..], executed, index + 1);
    } else {
      IntactStep(c, w, |calls|, executed, index);
      LeftAlone(w, executed, calls[1..]);
      IntactServes(c, w, calls[1..], executed + 1, index + 1);
    }
  }

  lemma IntactOver(c: Config, w: World, n: nat, executed: nat, index: nat)
    requires index >= c.callsPerRound
    ensures Intact(c, w, n, executed, index)
  {
  }

  lemma LeftAlone(w: World, e: nat, rest: seq<Call>)
    requires rest == [] || (w.swallows(e) == 0 && w.tears(e).None?)
    ensures Left(w, e, rest) == rest
  {
    assert rest[0..] == rest;
  }

  lemma IntactStep(c: Config, w: World, n: nat, executed: nat, index: nat)
    requires n > 0 && index < c.callsPerRound
    ensures Intact(c, w, n, executed, index)
       <==> (n == 1 || (w.swallows(executed) == 0 && w.tears(executed).None?))
            && Intact(c, w, n - 1, executed + 1, index + 1)
  {
  }

  /** A tool that takes a whole waiting call leaves the turn a result short. */
  lemma {:induction false} SwallowingShortens(c: Config, w: World, calls: seq<Call>, executed: nat, index: nat, e: nat)
    requires executed <= e && e - executed < |Served(c, w, calls, executed, index)| - 1
    requires e - executed + index < c.callsPerRound && w.swallows(e) > 0
    ensures |Served(c, w, calls, executed, index)| < |calls|
    decreases |calls|
  {
    var rest := Left(w, executed, calls[1..]);
    if e > executed {
      SwallowingShortens(c, w, rest, executed + 1, index + 1, e);
    }
  }

  lemma TextResults(c: Config, served: seq<Call>, index: nat)
    ensures forall i | 0 <= i < |served| :: ResultsFor(c, InText, served, index)[i] == User
  {
  }

  // ------------------------------------------------------------------------
  // Turns

  /** The id reaches the result unchanged. */
  predicate Addressed(call: Call) {
    call.id.Text? && Captured(call.id.s) == call.id.s
  }

  /** The result of `read` answers `call`. */
  predicate Reaches(read: Call, call: Call) {
    call.id == Text(Raw(read.id))
  }

  /** When a turn leaves the history paired. */
  predicate Whole(c: Config, w: World, t: Turn) {
    if t.source == InText then t.native == []
    else
      var served := Served(c, w, t.calls, t.before, 0);
      t.ran && |served| == |t.calls| && forall i | 0 <= i < |t.calls| :: Reaches(served[i], t.calls[i])
  }

  lemma ReachesItself(call: Call)
    ensures Reaches(call, call) <==> Addressed(call)
  {
  }

  /** Where no tool stops inside a line, a native turn is whole exactly when it was run, no executed call but the last
      reads a waiting one, and each id reaches its result unchanged. */
  lemma WholeMeans(c: Config, w: World, t: Turn)
    requires t.source == Native && forall e :: w.tears(e).None?
    ensures Whole(c, w, t)
       <==> && t.ran && Intact(c, w, |t.calls|, t.before, 0)
            && forall i | 0 <= i < |t.calls| :: Addressed(t.calls[i])
  {
    hide Served, Addressed, Reaches, Intact;
    forall i | 0 <= i < |t.calls|
      ensures Reaches(t.calls[i], t.calls[i]) <==> Addressed(t.calls[i])
    {
      ReachesItself(t.calls[i]);
    }
    if Intact(c, w, |t.calls|, t.before, 0) {
      IntactServes(c, w, t.calls, t.before, 0);
    } else if |Served(c, w, t.calls, t.before, 0)| == |t.calls| {
      var e := NotIntact(c, w, |t.calls|, t.before);
      SwallowingShortens(c, w, t.calls, t.before, 0, e);
      assert false;
    }
  }

  lemma NotIntact(c: Config, w: World, n: nat, executed: nat) returns (e: nat)
    requires !Intact(c, w, n, executed, 0) && forall e :: w.tears(e).None?
    ensures executed <= e && e - executed < n - 1 && e - executed < c.callsPerRound && w.swallows(e) > 0
  {
    e :| executed <= e && e - executed < n - 1 && e - executed < c.callsPerRound && w.swallows(e) != 0;
  }

  /** A turn that can happen: native calls are run as they are. */
  predicate Possible(t: Turn) {
    t.calls != [] && (t.source == Native ==> t.calls == t.native)
  }

  /** The messages of a turn. */
  function Block(c: Config, w: World, t: Turn): seq<Msg> {
    [Assistant(t.native)] + if t.ran then Results(c, w, t.source, t.calls, t.before) else []
  }

  lemma ResultAnswers(read: Call, call: Call, skipped: bool)
    ensures Answers(Result(Native, read, skipped), call) <==> Reaches(read, call)
    ensures !Answers(Result(InText, read, skipped), call) && !Answers(User, call)
  {
  }

  /** The results of a turn answer its native calls one for one exactly when the turn is whole. */
  predicate AnswersAll(rs: seq<Msg>, native: seq<Call>) {
    |rs| >= |native| && forall j | 0 <= j < |native| :: Answers(rs[j], native[j])
  }

  lemma WholeAnswers(c: Config, w: World, t: Turn)
    requires Possible(t)
    ensures var rs := Block(c, w, t)[1..];
      && (AnswersAll(rs, t.native) <==> Whole(c, w, t))
      && (Whole(c, w, t) ==> Paired(rs[|t.native|..]))
      && |rs| <= |t.calls|
  {
    hide Result, Served, Reaches, Answers;
    var served := Served(c, w, t.calls, t.before, 0);
    var all := Results(c, w, t.source, t.calls, t.before);
    var rs := Block(c, w, t)[1..];
    assert rs == if t.ran then all else [];
    if t.source == InText {
      TextResults(c, served, 0);
      UsersArePaired(rs);
      if t.native != [] && rs != [] {
        ResultAnswers(t.native[0], t.native[0], false);
      }
    } else if t.ran && |served| == |t.calls| {
      forall j | 0 <= j < |t.calls|
        ensures Answers(rs[j], t.calls[j]) <==> Reaches(served[j], t.calls[j])
      {
        ResultAnswers(served[j], t.calls[j], j >= c.callsPerRound);
      }
    }
  }

  lemma BlockPaired(c: Config, w: World, t: Turn)
    requires Possible(t)
    ensures Paired(Block(c, w, t)) <==> Whole(c, w, t)
  {
    hide Whole, Answers, Results;
    var block := Block(c, w, t);
    WholeAnswers(c, w, t);
    assert forall j | 0 <= j < |block| - 1 :: block[1 + j] == block[1..][j];
    if |block| > |t.native| {
      assert block[1 + |t.native|..] == block[1..][|t.native|..];
    }
  }

  /** A turn keeps the history paired exactly when its calls were taken natively and run, every call is read, and what
      is read carries the id to its result unchanged; or when there are no native calls. */
  lemma TurnKeepsPairing(c: Config, w: World, ms: seq<Msg>, t: Turn)
    requires Paired(ms) && Possible(t)
    ensures Paired(ms + Block(c, w, t)) <==> Whole(c, w, t)
  {
    hide Paired, Whole, Block;
    PairedAppend(ms, Block(c, w, t));
    BlockPaired(c, w, t);
  }

  /** Two native calls, and the first one runs a command that reads its standard input: the second call is never
      answered. */
  lemma StandardInputSwallowsCall()
    ensures var calls := [Call(Text("a"), Text("command_run"), false), Call(Text("b"), Text("command_exists"), false)];
      forall c: Config, w: World | c.callsPerRound > 0 && w.swallows(0) == 1 ::
        && Block(c, w, Turn(Native, calls, calls, 0, true)) == [Assistant(calls), Tool("a", "command_run", false)]
        && !Paired(Block(c, w, Turn(Native, calls, calls, 0, true)))
  {
    var calls := [Call(Text("a"), Text("command_run"), false), Call(Text("b"), Text("command_exists"), false)];
    forall c: Config, w: World | c.callsPerRound > 0 && w.swallows(0) == 1
      ensures Block(c, w, Turn(Native, calls, calls, 0, true)) == [Assistant(calls), Tool("a", "command_run", false)]
    {
      assert calls[1..][1..] == [];
      assert Left(w, 0, calls[1..]) == [];
      assert Served(c, w, calls, 0, 0) == [calls[0]] + Served(c, w, [], 1, 1) == [calls[0]];
      assert Raw(calls[0].id) == "a" && Raw(calls[0].name) == "command_run";
    }
  }

  /** A tool that stops inside the next call: what is left of the line has no id to read, and the result of the second
      call answers nobody. */
  lemma TornCallAnswersNobody(torn: Call)
    requires Raw(torn.id) != "b"
    ensures var calls := [Call(Text("a"), Text("command_run"), false), Call(Text("b"), Text("command_exists"), false)];
      forall c: Config, w: World | c.callsPerRound > 0 && w.swallows(0) == 0 && w.tears(0) == Some(torn) ::
        |Block(c, w, Turn(Native, calls, calls, 0, true))| == 3
        && !Paired(Block(c, w, Turn(Native, calls, calls, 0, true)))
  {
    hide Paired, Block;
    var calls := [Call(Text("a"), Text("command_run"), false), Call(Text("b"), Text("command_exists"), false)];
    var t := Turn(Native, calls, calls, 0, true);
    forall c: Config, w: World | c.callsPerRound > 0 && w.swallows(0) == 0 && w.tears(0) == Some(torn)
      ensures |Block(c, w, t)| == 3 && !Paired(Block(c, w, t))
    {
      TornServed(c, w, calls, torn);
      BlockPaired(c, w, t);
      assert Served(c, w, calls, 0, 0)[1] == torn;
      BlockLength(c, w, t);
    }
  }

  lemma TornServed(c: Config, w: World, calls: seq<Call>, torn: Call)
    requires |calls| == 2 && c.callsPerRound > 0 && w.swallows(0) == 0 && w.tears(0) == Some(torn)
    ensures Served(c, w, calls, 0, 0) == [calls[0], torn]
  {
    assert calls[1..][0..] == [calls[1]];
    assert Left(w, 0, calls[1..]) == [torn];
    assert [torn][1..] == [];
    assert |Left(w, 1, [])| == 0;
    assert Served(c, w, [torn], 1, 1) == [torn];
  }

  lemma BlockLength(c: Config, w: World, t: Turn)
    requires t.ran
    ensures |Block(c, w, t)| == 1 + |Served(c, w, t.calls, t.before, 0)|
  {
  }

  // ------------------------------------------------------------------------
  // Histories of many turns

  /** No continuation makes the history paired. */
  ghost predicate Broken(ms: seq<Msg>) {
    forall rest :: !Paired(ms + rest)
  }

  /** Paired when `good`, and otherwise beyond repair. */
  ghost predicate Stands(good: bool, ms: seq<Msg>) {
    if good then Paired(ms) else Broken(ms)
  }

  lemma BrokenMore(a: seq<Msg>, b: seq<Msg>)
    requires Broken(a)
    ensures Broken(a + b)
  {
    hide Paired;
    forall rest
      ensures !Paired(a + b + rest)
    {
      assert a + b + rest == a + (b + rest);
    }
  }

  lemma BrokenBehind(a: seq<Msg>, b: seq<Msg>)
    requires Paired(a) && Broken(b)
    ensures Broken(a + b)
  {
    hide Paired;
    forall rest
      ensures !Paired(a + b + rest)
    {
      assert a + b + rest == a + (b + rest);
      PairedAppend(a, b + rest);
    }
  }

  lemma BrokenIsUnpaired(ms: seq<Msg>)
    requires Broken(ms)
    ensures !Paired(ms)
  {
    hide Paired;
    assert ms + [] == ms;
  }

  /** What the closing user message makes of a turn: whole, or broken for good. */
  lemma ClosedBlock(c: Config, w: World, t: Turn)
    requires Possible(t)
    ensures Stands(Whole(c, w, t), Block(c, w, t) + [User])
  {
    hide Whole;
    var block := Block(c, w, t);
    if Whole(c, w, t) {
      BlockPaired(c, w, t);
      PairedAppend(block, [User]);
      UsersArePaired([User]);
    } else {
      WholeAnswers(c, w, t);
      forall rest
        ensures !Paired(block + [User] + rest)
      {
        UnansweredStays(block[1..], t.native, rest);
        assert block + [User] + rest == [Assistant(t.native)] + (block[1..] + [User] + rest);
      }
    }
  }

  lemma PairedTurn(native: seq<Call>, tail: seq<Msg>)
    requires Paired([Assistant(native)] + tail)
    ensures AnswersAll(tail, native)
  {
    hide Answers;
    var ms := [Assistant(native)] + tail;
    assert forall j | 0 <= j < |native| :: ms[1 + j] == tail[j];
  }

  lemma UnansweredStays(rs: seq<Msg>, native: seq<Call>, rest: seq<Msg>)
    requires !AnswersAll(rs, native)
    ensures !Paired([Assistant(native)] + (rs + [User] + rest))
  {
    hide Paired, Answers, Reaches;
    var tail := rs + [User] + rest;
    assert forall j | 0 <= j < |rs| :: tail[j] == rs[j];
    if |rs| < |native| {
      ResultAnswers(native[|rs|], native[|rs|], false);
      assert tail[|rs|] == User;
    }
    assert !AnswersAll(tail, native);
    if Paired([Assistant(native)] + tail) {
      PairedTurn(native, tail);
      assert false;
    }
  }

  /** One more turn and the user message behind it. */
  lemma TurnStands(c: Config, w: World, ms: seq<Msg>, good: bool, t: Turn)
    requires Stands(good, ms) && Possible(t)
    ensures Stands(good && Whole(c, w, t), ms + Block(c, w, t) + [User])
  {
    hide Paired, Broken, Block, Whole;
    var block := Block(c, w, t) + [User];
    assert ms + Block(c, w, t) + [User] == ms + block;
    ClosedBlock(c, w, t);
    if !good {
      BrokenMore(ms, block);
    } else if Whole(c, w, t) {
      PairedAppend(ms, block);
    } else {
      BrokenBehind(ms, block);
    }
  }

  lemma UserStands(ms: seq<Msg>, good: bool)
    requires Stands(good, ms)
    ensures Stands(good, ms + [User])
  {
    hide Paired, Broken;
    if good {
      PairedAppend(ms, [User]);
      UsersArePaired([User]);
    } else {
      BrokenMore(ms, [User]);
    }
  }

  lemma StandsMeans(ms: seq<Msg>, good: bool)
    requires Stands(good, ms)
    ensures Paired(ms) <==> good
  {
    hide Paired, Broken;
    if !good {
      BrokenIsUnpaired(ms);
    }
  }
}
