// The tool loop over posts: rounds of local tools, summaries of long histories,
// the forced last answer and the two retries, with their allowances.

module ExchangeLoop {
  import opened Common
  import opened Exchange
  import opened ExchangeHistory
  import opened ExchangeStory

  // ------------------------------------------------------------------------
  // What every run keeps

  function Searches(posts: seq<Payload>): nat {
    if posts == [] then 0
    else Searches(posts[..|posts| - 1]) + if posts[|posts| - 1].search then 1 else 0
  }

  /** The tool turns of the run come from its answers, and every posted history is the story of the turns that had
      been taken when it was written. */
  ghost predicate Recorded(c: Config, w: World, r: Run) {
    && Credible(c, w, r.origins, |r.http|) && r.from <= |r.origins|
    && |r.answers| == |r.posts| && (forall i | 0 <= i < |r.answers| :: r.answers[i] < |r.http|)
    && forall i | 0 <= i < |r.posts| :: r.posts[i].origins <= r.origins && Told(c, w, r.posts[i])
  }

  ghost predicate Kept(c: Config, w: World, r: Run) {
    && |r.http| <= 5 * (c.retries + 1) * |r.posts|
    && Searches(r.posts) <= (if r.requested then 1 else 0)
    && (!RepeatAllowed(c) ==> |r.http| <= (c.retries + 1) * |r.posts|)
    && Recorded(c, w, r)
  }

  /** A payload that may be posted now. */
  ghost predicate Due(c: Config, w: World, r: Run, p: Payload) {
    (p.search ==> c.search && !r.requested) && p.origins <= r.origins && Told(c, w, p)
  }

  lemma SearchesMore(posts: seq<Payload>, p: Payload)
    ensures Searches(posts + [p]) == Searches(posts) + if p.search then 1 else 0
  {
    assert (posts + [p])[..|posts|] == posts;
  }

  lemma PostKeeps(c: Config, w: World, r: Run, p: Payload, r': Run, ok: bool, body: Body)
    requires Kept(c, w, r) && Due(c, w, r, p) && Posted(c, w, r, p, r', ok, body)
    ensures Kept(c, w, r')
  {
    hide Recorded, Told, Searches, Transient, Variant;
    SearchesMore(r.posts, p);
    Distribute(c.retries + 1, |r.posts|);
    PostRecords(c, w, r, p, r', ok, body);
  }

  lemma PostRecords(c: Config, w: World, r: Run, p: Payload, r': Run, ok: bool, body: Body)
    requires Recorded(c, w, r) && p.origins <= r.origins && Told(c, w, p) && Posted(c, w, r, p, r', ok, body)
    ensures Recorded(c, w, r')
  {
    hide Told, Asks, Transient, Variant;
  }

  lemma Distribute(s: nat, n: nat)
    ensures 5 * s * (n + 1) == 5 * s * n + 5 * s && s * (n + 1) == s * n + s
  {
  }

  lemma KeptFrame(c: Config, w: World, r: Run, r': Run)
    requires Kept(c, w, r) && r'.http == r.http && r'.posts == r.posts && r'.answers == r.answers
    requires r'.requested == r.requested && r'.origins == r.origins && r'.from <= |r'.origins|
    ensures Kept(c, w, r')
  {
    hide Told, Credible, Searches;
  }

  /** The answer may be the next one whose turn is taken. */
  ghost predicate Follows(c: Config, w: World, r: Run, o: Origin) {
    && Asks(c, w, o) && (o.Sent? ==> o.k < |r.http|)
    && forall n | 0 <= n < |r.origins| :: Earlier(r.origins[n], o)
  }

  lemma KeptMore(c: Config, w: World, r: Run, o: Origin, r': Run)
    requires Kept(c, w, r) && Follows(c, w, r, o) && r'.origins == r.origins + [o] && r'.from == r.from
    requires r'.http == r.http && r'.posts == r.posts && r'.answers == r.answers && r'.requested == r.requested
    ensures Kept(c, w, r')
  {
    hide Told, Asks, Searches;
    forall i | 0 <= i < |r'.posts|
      ensures r'.posts[i].origins <= r'.origins && Told(c, w, r'.posts[i])
    {
      assert r.posts[i].origins <= r.origins;
    }
  }

  method Post(c: Config, w: World, r: Run, p: Payload) returns (r': Run, ok: bool, body: Body)
    requires Kept(c, w, r) && Due(c, w, r, p)
    ensures Posted(c, w, r, p, r', ok, body) && Kept(c, w, r')
    ensures ok <==> LastAccepted(w, r')
    ensures ok ==> Answered(w, r', body)
  {
    hide Kept, Due, Mended, Variant;
    r', ok, body := PostChat(c, w, r, p);
    PostKeeps(c, w, r, p, r', ok, body);
  }

  lemma WrittenIsDue(c: Config, w: World, r: Run, ms: seq<Msg>, from: nat, withTools: bool)
    requires from <= |r.origins|
    requires || ms == Story(c, w, r.origins, from) || ms == Story(c, w, r.origins, from) + [User]
             || (ms == OPENING && from == |r.origins|)
    ensures Due(c, w, r, WritePayload(c, r, ms, from, withTools))
  {
    hide Story;
  }

  /** The last thing the provider sent was accepted. */
  predicate LastAccepted(w: World, r: Run) {
    r.http != [] && Accepted(w, |r.http| - 1)
  }

  /** `body` is the last thing the provider sent, and it was accepted. */
  ghost predicate Answered(w: World, r: Run, body: Body) {
    LastAccepted(w, r) && body == w.provider(|r.http| - 1).body
  }

  /** The last thing the provider sent was accepted and says something. */
  predicate LastSays(w: World, r: Run) {
    LastAccepted(w, r) && w.provider(|r.http| - 1).body.content
  }

  // ------------------------------------------------------------------------
  // Which answers became tool turns

  /** A request of the loop itself, as opposed to a summary or a forced answer. */
  predicate LoopPost(c: Config, w: World, p: Payload) {
    p.from <= |p.origins| && p.msgs == Story(c, w, p.origins, p.from)
  }

  /** Of the first `n` requests, each one of the loop whose answer asks for tools while rounds are left is followed by
      the tool turn of that answer. */
  ghost predicate Complete(c: Config, w: World, r: Run, n: nat) {
    && n <= |r.posts| == |r.answers|
    && forall i | 0 <= i < n && LoopPost(c, w, r.posts[i]) && Asks(c, w, Sent(r.answers[i])) ::
         var taken := |r.posts[i].origins|;
         taken < c.rounds ==> taken < |r.origins| && r.origins[taken] == Sent(r.answers[i])
  }

  /** Later requests and turns change nothing about the first `n`. */
  lemma CompleteStays(c: Config, w: World, r: Run, r': Run, n: nat)
    requires Complete(c, w, r, n) && r.posts <= r'.posts && r.answers <= r'.answers && r.origins <= r'.origins
    requires |r'.posts| == |r'.answers|
    ensures Complete(c, w, r', n)
  {
    hide LoopPost, Asks;
    forall i | 0 <= i < n
      ensures r'.posts[i] == r.posts[i] && r'.answers[i] == r.answers[i]
    {
    }
  }

  /** One more request: it is not of the loop, or its answer asks for nothing or comes too late, or its turn was
      taken. */
  lemma CompleteNext(c: Config, w: World, r: Run, n: nat)
    requires Complete(c, w, r, n) && n < |r.posts|
    requires var (p, o) := (r.posts[n], Sent(r.answers[n]));
      || !LoopPost(c, w, p) || !Asks(c, w, o) || |p.origins| >= c.rounds
      || (|p.origins| < |r.origins| && r.origins[|p.origins|] == o)
    ensures Complete(c, w, r, n + 1)
  {
    hide LoopPost, Asks;
  }

  /** Request `i` is of the loop, was written after `n` turns, and the answer to it is reply `k`. */
  predicate Source(c: Config, w: World, r: Run, n: nat, i: nat) {
    && i < |r.posts| == |r.answers| && n < |r.origins|
    && LoopPost(c, w, r.posts[i]) && |r.posts[i].origins| == n && r.origins[n] == Sent(r.answers[i])
  }

  /** Every turn from a reply comes from the answer to the loop's own request at that point. */
  ghost predicate Sourced(c: Config, w: World, r: Run) {
    forall n: nat | n < |r.origins| && r.origins[n].Sent? :: exists i: nat :: Source(c, w, r, n, i)
  }

  lemma SourcedStays(c: Config, w: World, r: Run, r': Run)
    requires Sourced(c, w, r) && r'.origins == r.origins && r.posts <= r'.posts && r.answers <= r'.answers
    requires |r'.posts| == |r'.answers|
    ensures Sourced(c, w, r')
  {
    hide LoopPost;
    forall n: nat | n < |r'.origins| && r'.origins[n].Sent?
      ensures exists i: nat :: Source(c, w, r', n, i)
    {
      var i: nat :| Source(c, w, r, n, i);
      assert Source(c, w, r', n, i);
    }
  }

  /** One more turn: from a stream, or from the answer to the last request. */
  lemma SourcedMore(c: Config, w: World, r: Run, o: Origin, r': Run)
    requires Sourced(c, w, r) && r'.origins == r.origins + [o] && r'.posts == r.posts && r'.answers == r.answers
    requires o.Heard? || (r.posts != [] && Source(c, w, r', |r.origins|, |r.posts| - 1))
    ensures Sourced(c, w, r')
  {
    hide LoopPost;
    forall n: nat | n < |r'.origins| && r'.origins[n].Sent?
      ensures exists i: nat :: Source(c, w, r', n, i)
    {
      if n < |r.origins| {
        var i: nat :| Source(c, w, r, n, i);
        assert Source(c, w, r', n, i);
      }
    }
  }

  lemma SummarizedSourced(c: Config, w: World, r: Run, r': Run)
    requires Sourced(c, w, r) && Summarized(r, r') && r'.origins == r.origins && |r'.posts| == |r'.answers|
    ensures Sourced(c, w, r')
  {
    hide Sourced;
    SourcedStays(c, w, r, r');
  }

  lemma SummaryIsNoLoopPost(c: Config, w: World, p: Payload)
    requires p.msgs == OPENING && p.from == |p.origins| && p.from > 0
    ensures !LoopPost(c, w, p)
  {
    StoryStart(c, w, p.origins);
  }

  // ------------------------------------------------------------------------
  // A tool round

  /** The summary request of a long history; its answer replaces the history. */
  method SummarizeToolHistory(c: Config, w: World, r: Run, round: nat) returns (r': Run, ok: bool)
    requires Kept(c, w, r) && OPENING <= r.msgs
    ensures Kept(c, w, r') && r'.executed == r.executed && r'.origins == r.origins
    ensures Summarized(r, r') && (c.search ==> r'.format == r.format)
    ensures |r'.posts| == |r.posts| + if w.historyLong(round) then 1 else 0
    ensures ok <==> !w.historyLong(round) || LastSays(w, r')
    ensures ok ==> r'.msgs == (if w.historyLong(round) then OPENING + [User] else r.msgs)
    ensures ok ==> r'.from == if w.historyLong(round) then |r.origins| else r.from
  {
    hide Kept, Told, Variant;
    r', ok := r, true;
    if w.historyLong(round) {
      WrittenIsDue(c, w, r, OPENING, |r.origins|, false);
      var body;
      r', ok, body := Post(c, w, r, WritePayload(c, r, OPENING, |r.origins|, false));
      if !ok || !body.content {
        return r', false;
      }
      ghost var before := r';
      r' := r'.(msgs := [r'.msgs[0], r'.msgs[1], User], from := |r'.origins|);
      KeptFrame(c, w, before, r');
    }
  }

  /** At most one request, about the opening messages only. */
  predicate Summarized(r: Run, r': Run) {
    || (r'.posts == r.posts && r'.answers == r.answers && r'.http == r.http)
    || (&& r'.http != [] && r'.answers != [] && r'.answers[|r'.answers| - 1] == |r'.http| - 1
        && |r'.posts| == |r.posts| + 1 && r.posts <= r'.posts
        && |r'.answers| == |r.answers| + 1 && r.answers <= r'.answers
        && var q := r'.posts[|r.posts|]; q.msgs == OPENING && q.from == |q.origins| == |r'.origins|)
  }

  /** The calls that are read can all be answered: none carries a NUL, and no tool that is run fails. */
  predicate Succeeds(c: Config, w: World, served: seq<Call>, before: nat) {
    forall i | 0 <= i < |served| :: !served[i].nul && (i < c.callsPerRound ==> !w.toolFails(before + i))
  }

  predicate Runs(c: Config, w: World, t: Turn) {
    Succeeds(c, w, Served(c, w, t.calls, t.before, 0), t.before)
  }

  /** One result per call that was read, with its id and its name; the first `run` calls were run. */
  predicate Filed(served: seq<Call>, results: seq<Msg>, run: nat) {
    && |results| == |served|
    && forall i | 0 <= i < |results| ::
         && results[i].Tool? && results[i].id == Raw(served[i].id) && results[i].name == Raw(served[i].name)
         && (results[i].skipped <==> i >= run)
  }

  /** The calls of one round: each that is read is answered, and run unless it is over the limit; an executed tool may
      read waiting calls as its own input. */
  method RunCalls(c: Config, w: World, source: Source, calls: seq<Call>, before: nat)
      returns (results: seq<Msg>, executed: nat, ok: bool)
    ensures ok <==> Succeeds(c, w, Served(c, w, calls, before, 0), before)
    ensures ok ==> results == Results(c, w, source, calls, before)
    ensures executed <= before + Min(|calls|, c.callsPerRound)
    ensures ok ==> executed == before + Min(|results|, c.callsPerRound)
    ensures ok && source == Native ==> Filed(Served(c, w, calls, before, 0), results, executed - before)
  {
    hide Result, Served, Left, Succeeds, ResultsFor;
    var waiting := calls;
    results, executed, ok := [], before, true;
    ghost var done: seq<Call> := [];
    NoneServed(c, w, source, before);
    while waiting != []
      invariant |done| == |results| && results == ResultsFor(c, source, done, 0)
      invariant |done| + |waiting| <= |calls| && executed == before + Min(|results|, c.callsPerRound)
      invariant done + Served(c, w, waiting, executed, |done|) == Served(c, w, calls, before, 0)
      invariant Succeeds(c, w, done, before)
      decreases |waiting|
    {
      var call, index := waiting[0], |results|;
      ServedStep(c, w, done, waiting, executed);
      waiting := waiting[1..];
      SucceedsMore(c, w, done, call, Served(c, w, calls, before, 0), before);
      if call.nul {
        return results, executed, false;
      }
      if index < c.callsPerRound {
        if w.toolFails(executed) {
          return results, executed, false;
        }
        waiting := AfterTool(w, executed, waiting);
        executed := executed + 1;
      }
      ResultsSnoc(c, source, done, call);
      done := done + [call];
      results := results + [Result(source, call, index >= c.callsPerRound)];
    }
    ServedEnd(c, w, done, executed);
    ResultsSkip(c, source, done);
  }

  lemma ResultsSkip(c: Config, source: Source, done: seq<Call>)
    ensures source == Native ==> Filed(done, ResultsFor(c, source, done, 0), Min(|done|, c.callsPerRound))
  {
  }

  lemma NoneServed(c: Config, w: World, source: Source, before: nat)
    ensures Succeeds(c, w, [], before) && ResultsFor(c, source, [], 0) == []
  {
  }

  /** One more call is read: all can be answered only if this one can. */
  lemma SucceedsMore(c: Config, w: World, done: seq<Call>, call: Call, all: seq<Call>, before: nat)
    requires Succeeds(c, w, done, before) && done + [call] <= all
    ensures var fine := !call.nul && (|done| < c.callsPerRound ==> !w.toolFails(before + |done|));
      if fine then Succeeds(c, w, done + [call], before) else !Succeeds(c, w, all, before)
  {
    assert all[|done|] == (done + [call])[|done|] == call;
  }

  /** What a tool leaves of the waiting calls. */
  method AfterTool(w: World, executed: nat, rest: seq<Call>) returns (waiting: seq<Call>)
    ensures waiting == Left(w, executed, rest)
  {
    waiting := rest[Min(w.swallows(executed), |rest|)..];
    if waiting != [] && w.tears(executed).Some? {
      waiting := [w.tears(executed).value] + waiting[1..];
    }
  }

  lemma ServedEnd(c: Config, w: World, done: seq<Call>, executed: nat)
    ensures done + Served(c, w, [], executed, |done|) == done
  {
  }

  lemma ResultsSnoc(c: Config, source: Source, done: seq<Call>, call: Call)
    ensures ResultsFor(c, source, done + [call], 0)
         == ResultsFor(c, source, done, 0) + [Result(source, call, |done| >= c.callsPerRound)]
  {
    hide Result;
  }

  /** One turn of the loop over the waiting calls. */
  lemma ServedStep(c: Config, w: World, done: seq<Call>, waiting: seq<Call>, executed: nat)
    requires waiting != []
    ensures var (index, rest, more) := (|done|, waiting[1..], done + [waiting[0]]);
      done + Served(c, w, waiting, executed, index)
      == if index >= c.callsPerRound then more + Served(c, w, rest, executed, index + 1)
         else more + Served(c, w, Left(w, executed, rest), executed + 1, index + 1)
  {
    hide Left;
  }

  /** Whether the history is summarized behind the round. */
  predicate Condenses(c: Config, w: World, round: nat) {
    round > 2 && c.summarize && w.historyLong(round)
  }

  /** How a tool round ends: it fails when its calls cannot all be answered, or when the summary that it needs is not
      accepted or empty. */
  ghost predicate RoundEnds(c: Config, w: World, r: Run, o: Origin, t: Turn, round: nat, r': Run, ok: bool) {
    && (ok <==> Runs(c, w, t) && (Condenses(c, w, round) ==> LastSays(w, r')))
    && r'.origins == r.origins + (if Runs(c, w, t) then [o] else [])
    && |r'.posts| == |r.posts| + if Runs(c, w, t) && Condenses(c, w, round) then 1 else 0
  }

  /** What a tool round leaves behind when it succeeds. */
  ghost predicate RoundDone(c: Config, w: World, r: Run, o: Origin, t: Turn, round: nat, r': Run) {
    && r'.origins == r.origins + [o] && r'.executed == r.executed + Ran(c, w, t)
    && if Condenses(c, w, round) then r'.msgs == OPENING + [User] + [User] && r'.from == |r'.origins|
       else r'.msgs == r.msgs + Block(c, w, t)[1..] + [User] && r'.from == r.from
  }

  /** Runs the calls, files the results, and appends the next instruction. */
  method ExecuteToolRound(c: Config, w: World, r: Run, o: Origin, round: nat) returns (r': Run, ok: bool)
    requires Kept(c, w, r) && OPENING <= r.msgs && Follows(c, w, r, o) && TurnFor(c, w, o, r.executed).ran
    ensures Kept(c, w, r') && (c.search ==> r'.format == r.format)
    ensures r'.executed <= r.executed + c.callsPerRound
    ensures Summarized(r, r') && RoundEnds(c, w, r, o, TurnFor(c, w, o, r.executed), round, r', ok)
    ensures ok ==> RoundDone(c, w, r, o, TurnFor(c, w, o, r.executed), round, r')
  {
    hide Kept, Follows, Served, ResultsFor, TurnFor;
    var t := TurnFor(c, w, o, r.executed);
    assert t.before == r.executed by { TurnBefore(c, w, o, r.executed); }
    var results, executed;
    results, executed, ok := RunCalls(c, w, t.source, t.calls, r.executed);
    r' := r.(executed := executed);
    KeptFrom(c, w, r);
    KeptFrame(c, w, r, r');
    if !ok {
      return r', false;
    }
    assert Block(c, w, t)[1..] == results;
    ghost var ran := r';
    r' := r'.(msgs := r.msgs + results, origins := r.origins + [o]);
    FollowsSame(c, w, r, ran, o);
    KeptMore(c, w, ran, o, r');
    if round > 2 && c.summarize {
      r', ok := SummarizeToolHistory(c, w, r', round);
      if !ok {
        return r', false;
      }
    }
    KeptFrom(c, w, r');
    ghost var before := r';
    r' := r'.(msgs := r'.msgs + [User]);
    KeptFrame(c, w, before, r');
  }

  lemma TurnBefore(c: Config, w: World, o: Origin, before: nat)
    ensures TurnFor(c, w, o, before).before == before
  {
  }

  lemma KeptFrom(c: Config, w: World, r: Run)
    requires Kept(c, w, r)
    ensures r.from <= |r.origins| && |r.posts| == |r.answers|
  {
  }

  /** After the round the history is the story of the turns that are still in it. */
  lemma RoundTells(c: Config, w: World, r: Run, o: Origin, round: nat, turn: Run, r': Run)
    requires r.from <= |r.origins| && r.msgs == Story(c, w, r.origins, r.from)
    requires r.executed == Executed(c, w, r.origins)
    requires var t := TurnFor(c, w, o, r.executed);
      turn == r.(msgs := r.msgs + [Assistant(t.native)]) && RoundDone(c, w, turn, o, t, round, r')
    ensures r'.from <= |r'.origins| && r'.msgs == Story(c, w, r'.origins, r'.from)
    ensures r'.executed == Executed(c, w, r'.origins) && OPENING <= r'.msgs
  {
    hide Story, TurnFor, Executed, Ran, Served;
    var t := TurnFor(c, w, o, r.executed);
    ExecutedMore(c, w, r.origins, o);
    if Condenses(c, w, round) {
      StoryStart(c, w, r'.origins);
      assert OPENING + [User] + [User] == OPENING + [User, User];
    } else {
      StoryMore(c, w, r.origins, o, r.from);
      assert r.msgs + [Assistant(t.native)] + Block(c, w, t)[1..] == r.msgs + Block(c, w, t);
      StoryOpens(c, w, r'.origins, r'.from);
    }
  }

  lemma {:induction false} StoryOpens(c: Config, w: World, os: seq<Origin>, from: nat)
    requires from <= |os|
    ensures OPENING <= Story(c, w, os, from)
    decreases |os|
  {
    hide Block, TurnNo;
    if |os| > from {
      StoryOpens(c, w, os[..|os| - 1], from);
    }
  }

  // ------------------------------------------------------------------------
  // The run

  function Summaries(rounds: nat): nat {
    if rounds > 2 then rounds - 2 else 0
  }

  /** The history in hand: the story of its turns, or that story up to the instruction that closes it, when a turn was
      stored behind the last round. */
  predicate InHand(c: Config, w: World, r: Run, round: nat) {
    && r.from <= |r.origins|
    && if |r.origins| == round then r.msgs == Story(c, w, r.origins, r.from)
       else |r.origins| == round + 1 && round == c.rounds && r.msgs + [User] == Story(c, w, r.origins, r.from)
  }

  /** What holds at the head of the loop after `round` tool rounds. */
  ghost predicate AtRound(c: Config, w: World, r: Run, p: Payload, round: nat) {
    && Kept(c, w, r) && Due(c, w, r, p) && OPENING <= r.msgs
    && LoopPost(c, w, p) && |p.origins| == round && InHand(c, w, r, round)
    && r.executed == Executed(c, w, r.origins) && Complete(c, w, r, |r.posts|) && Sourced(c, w, r)
    && round <= c.rounds && |r.posts| <= round + Summaries(round)
    && r.executed <= round * c.callsPerRound
    && (c.mode == NoTools ==> round == 0 && r.posts == [])
  }

  lemma RoundsGrow(round: nat, c: Config)
    requires round <= c.rounds
    ensures round + Summaries(round) <= c.rounds + Summaries(c.rounds)
    ensures round * c.callsPerRound <= c.rounds * c.callsPerRound
    ensures (round + 1) * c.callsPerRound == round * c.callsPerRound + c.callsPerRound
  {
    Monotone(c.callsPerRound, round, c.rounds);
  }

  lemma Monotone(s: nat, n: nat, m: nat)
    requires n <= m
    ensures n * s <= m * s && s * n <= s * m
  {
    assert m * s == n * s + (m - n) * s;
  }

  /** A tool round and the next request, from a history that is the story of its turns. */
  method TakeTurn(c: Config, w: World, r: Run, o: Origin, round: nat) returns (r': Run, ok: bool, p: Payload)
    requires Kept(c, w, r) && OPENING <= r.msgs && Follows(c, w, r, o) && TurnFor(c, w, o, 0).ran
    requires r.from <= |r.origins| == round && r.msgs == Story(c, w, r.origins, r.from)
    requires r.executed == Executed(c, w, r.origins)
    ensures Kept(c, w, r') && Summarized(r, r')
    ensures RoundEnds(c, w, r, o, TurnFor(c, w, o, r.executed), round + 1, r', ok)
    ensures r'.executed <= r.executed + c.callsPerRound
    ensures c.search ==> r'.format == r.format
    ensures ok ==> Due(c, w, r', p) && OPENING <= r'.msgs && LoopPost(c, w, p) && p.origins == r'.origins
    ensures ok ==> r'.origins == r.origins + [o] && InHand(c, w, r', round + 1)
    ensures ok ==> r'.executed == Executed(c, w, r'.origins)
    ensures p == WritePayload(c, r', r'.msgs, r'.from, true)
  {
    hide Kept, Follows, Executed, Story, Told, Block, Ran, TurnFor, Summarized, Condenses;
    TurnAlways(c, w, o, r.executed);
    var native := TurnFor(c, w, o, r.executed).native;
    var turn := r.(msgs := r.msgs + [Assistant(native)]);
    KeptFrame(c, w, r, turn);
    FollowsSame(c, w, r, turn, o);
    r', ok := ExecuteToolRound(c, w, turn, o, round + 1);
    SummarizedSame(r, turn, r');
    p := WritePayload(c, r', r'.msgs, r'.from, true);
    if ok {
      RoundTells(c, w, r, o, round + 1, turn, r');
      WrittenIsDue(c, w, r', r'.msgs, r'.from, true);
    }
  }

  lemma TurnAlways(c: Config, w: World, o: Origin, before: nat)
    ensures TurnFor(c, w, o, before).ran == TurnFor(c, w, o, 0).ran
  {
  }

  lemma FollowsSame(c: Config, w: World, r: Run, r': Run, o: Origin)
    requires Follows(c, w, r, o) && r'.http == r.http && r'.origins == r.origins
    ensures Follows(c, w, r', o)
  {
  }

  lemma SummarizedSame(r: Run, turn: Run, r': Run)
    requires Summarized(turn, r') && turn.posts == r.posts && turn.answers == r.answers && turn.http == r.http
    ensures Summarized(r, r')
  {
  }

  lemma SummarizedComplete(c: Config, w: World, r: Run, r': Run, n: nat)
    requires Complete(c, w, r, n) && n == |r.posts| && Summarized(r, r') && r.origins <= r'.origins && r'.origins != []
    requires |r'.posts| == |r'.answers|
    ensures Complete(c, w, r', |r'.posts|)
  {
    hide LoopPost, Asks;
    CompleteStays(c, w, r, r', n);
    if |r'.posts| > n {
      SummaryIsNoLoopPost(c, w, r'.posts[n]);
      CompleteNext(c, w, r', n);
    }
  }

  /** The head of the loop just after a post: its answer is the last one and asks for tools. */
  ghost predicate Asking(c: Config, w: World, r: Run, round: nat) {
    && Kept(c, w, r) && OPENING <= r.msgs && InHand(c, w, r, round)
    && r.executed == Executed(c, w, r.origins) && r.executed <= round * c.callsPerRound
    && r.http != [] && r.posts != [] && |r.posts| <= round + Summaries(round) + 1
    && Credible(c, w, r.origins, |r.http| - 1) && Asks(c, w, Sent(|r.http| - 1))
    && r.answers != [] && r.answers[|r.answers| - 1] == |r.http| - 1
    && LoopPost(c, w, r.posts[|r.posts| - 1]) && |r.posts[|r.posts| - 1].origins| == round
    && Complete(c, w, r, |r.posts| - 1) && Sourced(c, w, r)
  }

  /** Only answers to sends are added. */
  predicate Extends(os: seq<Origin>, more: seq<Origin>) {
    os <= more && forall n | |os| <= n < |more| :: more[n].Sent?
  }

  predicate SummaryPost(p: Payload) {
    p.msgs == OPENING && p.from == |p.origins| > 0
  }

  /** Why the loop stops without an answer when reply `k` to the request `p` is the last: the reply was not accepted, or
      it is an empty summary, or it asks for tools whose calls cannot all be answered. */
  predicate Halts(c: Config, w: World, p: Payload, k: nat) {
    || !Accepted(w, k)
    || (SummaryPost(p) && !w.provider(k).body.content)
    || (&& LoopPost(c, w, p) && Asks(c, w, Sent(k)) && |p.origins| < c.rounds
        && !Runs(c, w, TurnFor(c, w, Sent(k), Executed(c, w, p.origins))))
  }

  /** The last request of the run so far stops the loop. */
  predicate Halted(c: Config, w: World, r: Run) {
    && r.posts != [] && r.answers != []
    && Halts(c, w, r.posts[|r.posts| - 1], r.answers[|r.answers| - 1])
  }

  /** One tool round: the turn, its results, the next request. */
  method NextRound(c: Config, w: World, r: Run, round: nat) returns (r': Run, ok: bool, p: Payload)
    requires Asking(c, w, r, round) && round < c.rounds && c.mode != NoTools
    ensures Kept(c, w, r') && r.posts <= r'.posts && |r'.posts| <= round + 1 + Summaries(round + 1)
    ensures r'.executed <= (round + 1) * c.callsPerRound && Extends(r.origins, r'.origins)
    ensures if ok then AtRound(c, w, r', p, round + 1) else Halted(c, w, r')
    ensures r'.answers != [] && r'.answers[|r'.answers| - 1] == |r'.http| - 1
    ensures Complete(c, w, r', if ok then |r'.posts| else |r'.posts| - 1) && Sourced(c, w, r')
  {
    hide Halts, Runs, Kept, Due, Executed, Story, LoopPost, Asks, WritePayload, Complete, Sourced, TurnFor, InHand;
    hide Summarized;
    var o := Sent(|r.http| - 1);
    LastFollows(c, w, r, round);
    RoundsGrow(round, c);
    r', ok, p := TakeTurn(c, w, r, o, round);
    SummarizedGrows(r, r');
    SummarizedLast(r, r');
    if ok {
      RoundComplete(c, w, r, r', round);
    } else {
      FailedComplete(c, w, r, r', round);
      RoundHalts(c, w, r, round, r');
    }
  }

  lemma RoundHalts(c: Config, w: World, r: Run, round: nat, r': Run)
    requires Asking(c, w, r, round) && round < c.rounds && Summarized(r, r')
    requires var o := Sent(|r.http| - 1); RoundEnds(c, w, r, o, TurnFor(c, w, o, r.executed), round + 1, r', false)
    ensures Halted(c, w, r')
  {
    hide Executed, Story, LoopPost, Asks, Complete, Sourced, Runs, TurnFor, Told, Searches, Credible;
    var p := r.posts[|r.posts| - 1];
    assert p.origins <= r.origins && |p.origins| == |r.origins|;
    assert p.origins == r.origins;
  }

  lemma SummarizedGrows(r: Run, r': Run)
    requires Summarized(r, r')
    ensures r.posts <= r'.posts && |r'.posts| <= |r.posts| + 1
  {
  }

  lemma SummarizedLast(r: Run, r': Run)
    requires Summarized(r, r') && r.answers != [] && r.answers[|r.answers| - 1] == |r.http| - 1
    ensures r'.answers != [] && r'.answers[|r'.answers| - 1] == |r'.http| - 1
  {
  }

  lemma LastFollows(c: Config, w: World, r: Run, round: nat)
    requires Asking(c, w, r, round) && round < c.rounds
    ensures Follows(c, w, r, Sent(|r.http| - 1)) && TurnFor(c, w, Sent(|r.http| - 1), 0).ran
    ensures r.from <= |r.origins| == round && r.msgs == Story(c, w, r.origins, r.from)
  {
    hide Kept, Executed, Story, Asks, Complete, Sourced, LoopPost;
  }

  /** The answer to the last request became the next turn. */
  lemma RoundComplete(c: Config, w: World, r: Run, r': Run, round: nat)
    requires Asking(c, w, r, round) && round < c.rounds && Kept(c, w, r')
    requires r'.origins == r.origins + [Sent(|r.http| - 1)] && Summarized(r, r')
    ensures Complete(c, w, r', |r'.posts|) && Sourced(c, w, r')
  {
    hide Executed, Story, Asks, LoopPost, Credible, Told, Searches, Sourced;
    var n := |r.posts|;
    var taken := r.(origins := r'.origins);
    CompleteStays(c, w, r, taken, n - 1);
    CompleteNext(c, w, taken, n - 1);
    SummarizedComplete(c, w, taken, r', n);
    SourcedMore(c, w, r, Sent(|r.http| - 1), taken);
    SummarizedSourced(c, w, taken, r');
  }

  /** The same when the round failed, but for its last request. */
  lemma FailedComplete(c: Config, w: World, r: Run, r': Run, round: nat)
    requires Asking(c, w, r, round) && round < c.rounds && Kept(c, w, r') && Summarized(r, r')
    requires var o := Sent(|r.http| - 1); RoundEnds(c, w, r, o, TurnFor(c, w, o, r.executed), round + 1, r', false)
    ensures Complete(c, w, r', |r'.posts| - 1) && Sourced(c, w, r')
  {
    hide Executed, Story, Asks, LoopPost, Credible, Told, Searches, Sourced, Complete, Runs, LastSays, TurnFor;
    if r'.origins == r.origins {
      SummarizedSourced(c, w, r, r');
      CompleteStays(c, w, r, r', |r.posts| - 1);
    } else {
      RoundComplete(c, w, r, r', round);
      CompleteLess(c, w, r', |r'.posts|);
    }
  }

  lemma CompleteLess(c: Config, w: World, r: Run, n: nat)
    requires Complete(c, w, r, n) && n > 0
    ensures Complete(c, w, r, n - 1)
  {
    hide LoopPost, Asks;
  }

  /** The answer forced after the last round, without local tools. */
  method ForcedAnswer(c: Config, w: World, r: Run) returns (r': Run, ok: bool, p: Payload, body: Body)
    requires Kept(c, w, r) && InHand(c, w, r, c.rounds)
    ensures Kept(c, w, r') && r'.posts == r.posts + [p] && r'.executed == r.executed && Due(c, w, r, p)
    ensures r'.origins == r.origins && |r'.answers| == |r.answers| + 1 && r.answers <= r'.answers
    ensures p.msgs == r.msgs + [User] && p.origins == r.origins
    ensures r'.answers == r.answers + [|r'.http| - 1]
    ensures (ok <==> LastAccepted(w, r')) && (ok ==> Answered(w, r', body))
    ensures RepeatAllowed(c) ==> !p.tools && !p.search
  {
    hide Kept, Told, Story;
    var msgs := r.msgs + [User];
    WrittenIsDue(c, w, r, msgs, r.from, false);
    p := WritePayload(c, r, msgs, r.from, false);
    KeptFrame(c, w, r, r.(msgs := msgs));
    r', ok, body := Post(c, w, r.(msgs := msgs), p);
  }

  /** What the loop leaves behind: an accepted answer that asks for no tools, or the one forced when the rounds are
      used up; and the tool turns are those of the answers that asked for tools while rounds were left. */
  ghost predicate LoopDone(c: Config, w: World, r: Run, ok: bool, p: Payload, body: Body) {
    && Kept(c, w, r) && r.posts != []
    && (ok <==> !Halted(c, w, r)) && (ok ==> p == r.posts[|r.posts| - 1])
    && r.answers[|r.answers| - 1] == |r.http| - 1
    && (ok ==> Answered(w, r, body) && (Asked(c, body).1 == [] || |r.origins| >= c.rounds))
    && Complete(c, w, r, if ok then |r.posts| else |r.posts| - 1) && Sourced(c, w, r)
    && (ok ==> r.executed == Executed(c, w, r.origins))
    && |r.posts| <= c.rounds + 1 + Summaries(c.rounds) + 1
    && r.executed <= c.rounds * c.callsPerRound
    && (c.mode == NoTools ==> r.executed == 0 && |r.posts| == 1)
    && (ok && RepeatAllowed(c) ==> !p.search)
    && (ok && RepeatAllowed(c) && p.tools ==> |r.posts| <= c.rounds + 1 + Summaries(c.rounds))
    && (ok ==> Told(c, w, p) && p.origins <= r.origins)
  }

  /** What one post changes at the head of the loop. */
  lemma PostInRound(c: Config, w: World, r: Run, p: Payload, round: nat, r': Run, ok: bool, body: Body)
    requires AtRound(c, w, r, p, round) && Posted(c, w, r, p, r', ok, body) && Kept(c, w, r')
    ensures r'.posts == r.posts + [p] && r'.executed == r.executed && InHand(c, w, r', round)
    ensures Complete(c, w, r', |r'.posts| - 1) && Sourced(c, w, r')
    ensures ok && Asked(c, body).1 != [] ==> Asking(c, w, r', round)
    ensures ok && (Asked(c, body).1 == [] || round == c.rounds) ==> Complete(c, w, r', |r'.posts|)
    ensures r'.origins == r.origins && r'.msgs == r.msgs
  {
    hide Told, Executed, Story, LoopPost, Asked, Searches, Transient, Variant, Sourced;
    CompleteStays(c, w, r, r', |r.posts|);
    SourcedStays(c, w, r, r');
    if ok && (Asked(c, body).1 == [] || round == c.rounds) {
      CompleteNext(c, w, r', |r.posts|);
    }
  }

  /** A rejected answer halts the loop, and an accepted one that asks for no tools does not. */
  lemma PostEnds(c: Config, w: World, r: Run, p: Payload, round: nat, r': Run, ok: bool, body: Body)
    requires AtRound(c, w, r, p, round) && Posted(c, w, r, p, r', ok, body)
    ensures |r'.answers| == |r'.posts| && r'.answers[|r'.answers| - 1] == |r'.http| - 1
    ensures r'.posts[|r'.posts| - 1] == p
    ensures !ok ==> Halted(c, w, r')
    ensures ok && Asked(c, body).1 == [] ==> !Halted(c, w, r')
  {
    hide Told, Executed, Story, LoopPost, Asked, Searches, Transient, Variant, Sourced, Complete, Mended, Accepted;
    hide Runs;
    if SummaryPost(p) {
      SummaryIsNoLoopPost(c, w, p);
    }
  }

  lemma AskedMeansTools(c: Config, body: Body)
    requires Asked(c, body).1 != []
    ensures c.mode != NoTools
  {
  }

  /** The loop ends behind a post: its answer was rejected, or it asks for no tools. */
  lemma PostDone(c: Config, w: World, r: Run, p: Payload, round: nat, r': Run, ok: bool, body: Body)
    requires AtRound(c, w, r, p, round) && Posted(c, w, r, p, r', ok, body) && Kept(c, w, r')
    requires !ok || Asked(c, body).1 == []
    ensures LoopDone(c, w, r', ok, p, body)
  {
    hide Kept, Complete, Sourced, Executed, Told, Halted, Asked, LoopPost, InHand, Mended, Variant, Transient;
    hide Success;
    PostInRound(c, w, r, p, round, r', ok, body);
    PostEnds(c, w, r, p, round, r', ok, body);
    RoundsGrow(round, c);
  }

  /** The loop ends behind a tool round that failed. */
  lemma RoundFails(c: Config, w: World, round: nat, r': Run, p: Payload, body: Body)
    requires Kept(c, w, r') && |r'.posts| <= round + 1 + Summaries(round + 1) && round < c.rounds && c.mode != NoTools
    requires r'.executed <= (round + 1) * c.callsPerRound && Halted(c, w, r')
    requires r'.answers[|r'.answers| - 1] == |r'.http| - 1
    requires Complete(c, w, r', |r'.posts| - 1) && Sourced(c, w, r')
    ensures LoopDone(c, w, r', false, p, body)
  {
    hide Kept, Complete, Sourced, Executed, Told, Halts;
    RoundsGrow(round + 1, c);
  }

  /** The loop ends behind the forced answer. */
  lemma ForcedDone(c: Config, w: World, r: Run, round: nat, r': Run, ok: bool, p: Payload, body: Body)
    requires Asking(c, w, r, round) && round == c.rounds && c.mode != NoTools
    requires Complete(c, w, r, |r.posts|) && r'.executed == r.executed
    requires r.executed <= c.rounds * c.callsPerRound
    requires Kept(c, w, r') && r'.posts == r.posts + [p] && Due(c, w, r, p) && r'.origins == r.origins == p.origins
    requires p.msgs == r.msgs + [User] && r'.answers == r.answers + [|r'.http| - 1]
    requires (ok <==> LastAccepted(w, r')) && (ok ==> Answered(w, r', body))
    requires RepeatAllowed(c) ==> !p.tools && !p.search
    ensures LoopDone(c, w, r', ok, p, body)
  {
    hide Complete, Sourced, Executed, Story, Credible, Searches, Asks, Accepted, Halted, Asked, LoopPost, Told;
    ForcedComplete(c, w, r, r', p);
    ForcedEnds(c, w, r, r', p);
  }

  /** The loop over rounds, entered after `round` of them with the request `first`: it ends with an answer that asks
      for no tools, or with the answer forced after the last round. */
  method Continue(c: Config, w: World, start: Run, first: Payload, round: nat)
      returns (r: Run, ok: bool, p: Payload, body: Body)
    requires AtRound(c, w, start, first, round)
    ensures LoopDone(c, w, r, ok, p, body)
    ensures start.posts + [first] <= r.posts && Extends(start.origins, r.origins)
  {
    hide Posted, Kept, WritePayload, Asked, Answered, Executed, Story, Complete, Sourced;
    hide Asking, LoopPost, Told, InHand, Halted, LastAccepted, LoopDone, Due;
    r, p := start, first;
    var turns := round;
    while true
      invariant AtRound(c, w, r, p, turns)
      invariant Extends(start.origins, r.origins)
      invariant if r.posts == start.posts then p == first else start.posts + [first] <= r.posts
      decreases c.rounds - turns
    {
      ghost var r0 := r;
      r, ok, body := Post(c, w, r, p);
      PostInRound(c, w, r0, p, turns, r, ok, body);
      if !ok || Asked(c, body).1 == [] {
        PostDone(c, w, r0, p, turns, r, ok, body);
        return;
      }
      AskedMeansTools(c, body);
      if turns >= c.rounds {
        ghost var asked := r;
        r, ok, p, body := ForcedAnswer(c, w, r);
        ForcedDone(c, w, asked, turns, r, ok, p, body);
        return;
      }
      r, ok, p := NextRound(c, w, r, turns);
      if !ok {
        RoundFails(c, w, turns, r, p, body);
        return;
      }
      turns := turns + 1;
    }
  }

  lemma ForcedComplete(c: Config, w: World, r: Run, r': Run, p: Payload)
    requires Complete(c, w, r, |r.posts|) && Sourced(c, w, r)
    requires r'.posts == r.posts + [p] && r'.origins == r.origins == p.origins
    requires |r'.answers| == |r.answers| + 1 && r.answers <= r'.answers && |r.origins| >= c.rounds
    ensures Complete(c, w, r', |r'.posts|) && Complete(c, w, r', |r'.posts| - 1) && Sourced(c, w, r')
  {
    hide LoopPost, Asks, Sourced;
    CompleteStays(c, w, r, r', |r.posts|);
    CompleteNext(c, w, r', |r.posts|);
    SourcedStays(c, w, r, r');
  }

  /** Behind a forced answer the loop halts exactly when it was not accepted. */
  lemma ForcedEnds(c: Config, w: World, r: Run, r': Run, p: Payload)
    requires OPENING <= r.msgs && p.msgs == r.msgs + [User] && |p.origins| >= c.rounds
    requires r'.posts == r.posts + [p] && r'.http != [] && r'.answers == r.answers + [|r'.http| - 1]
    ensures Halted(c, w, r') <==> !LastAccepted(w, r')
  {
    hide LoopPost, Asks, Accepted, Runs;
  }

  function Opening(c: Config): Run {
    Run(OPENING, [], 0, c.format, false, [], [], [], 0)
  }

  /** The first request carries the opening messages, the tools and, where enabled, the search. */
  function FirstRequest(c: Config): Payload {
    WritePayload(c, Opening(c), OPENING, 0, true)
  }

  lemma StartOfRun(c: Config, w: World)
    ensures AtRound(c, w, Opening(c), FirstRequest(c), 0)
  {
    StoryStart(c, w, []);
  }

  method ToolLoop(c: Config, w: World) returns (r: Run, ok: bool, p: Payload, body: Body)
    ensures LoopDone(c, w, r, ok, p, body) && r.posts[0] == FirstRequest(c)
    ensures forall n | 0 <= n < |r.origins| :: r.origins[n].Sent?
  {
    hide LoopDone, AtRound, WritePayload;
    StartOfRun(c, w);
    r, ok, p, body := Continue(c, w, Opening(c), WritePayload(c, Opening(c), OPENING, 0, true), 0);
    assert [] + [FirstRequest(c)] <= r.posts;
  }

  /** The allowances of a whole run. */
  ghost predicate Bounded(c: Config, w: World, r: Run) {
    && Kept(c, w, r) && r.posts != []
    && |r.posts| <= c.rounds + 1 + Summaries(c.rounds) + 2
    && r.executed <= c.rounds * c.callsPerRound
    && (c.mode == NoTools ==> r.executed == 0 && |r.posts| <= if RepeatAllowed(c) then 2 else 1)
  }

  /** An answer without content is asked for once more, without the tools. */
  predicate AsksAgain(c: Config, p: Payload, body: Body) {
    c.mode == Auto && !body.content && p.tools && body.emptyRetryable && RepeatAllowed(c)
  }

  /** Candidates that were all rejected are asked for once more. */
  predicate RetriesCandidates(c: Config, body: Body) {
    c.commands && body.retryWorthy && RepeatAllowed(c)
  }

  /** How a run goes on behind the first `loop` requests, whose last answer is the one of the tool loop: once more
      without tools when that answer is empty and tools were offered, and once more with the opening alone when the
      candidates are rejected. It succeeds exactly when the answers that were asked for are accepted and the one behind
      the loop says something. */
  ghost predicate Followed(c: Config, w: World, r: Run, loop: nat, ok: bool) {
    && 0 < loop <= |r.posts| == |r.answers|
    && var again := AsksAgain(c, r.posts[loop - 1], w.provider(r.answers[loop - 1]).body);
    && var n := if again then loop + 1 else loop;
    && n <= |r.posts| && (again ==> r.posts[loop] == r.posts[loop - 1].(tools := false))
    && var reply := w.provider(r.answers[n - 1]);
    && var usable := Success(reply.code) && reply.accepted && reply.body.content;
    && |r.posts| == (if usable && RetriesCandidates(c, reply.body) then n + 1 else n)
    && (|r.posts| > n ==> r.posts[n].msgs == OPENING && !r.posts[n].tools && !r.posts[n].search)
    && (ok <==> usable && Accepted(w, r.answers[|r.answers| - 1]))
  }

  /** What follows the loop: the retry without tools after an empty answer, and the retry after rejected candidates. */
  method FinishRun(c: Config, w: World, r0: Run, p: Payload, body0: Body) returns (r: Run, ok: bool, body: Body)
    requires LoopDone(c, w, r0, true, p, body0)
    ensures Bounded(c, w, r) && r.origins == r0.origins
    ensures r0.posts <= r.posts && r0.answers <= r.answers && Followed(c, w, r, |r0.posts|, ok)
    ensures ok ==> Answered(w, r, body)
  {
    hide Kept, Told, Complete, Sourced, Executed, Story, Halted, Mended, Variant, Transient;
    AnswersCount(c, w, r0);
    r, ok, body := r0, true, body0;
    if c.mode == Auto && !body.content && p.tools && body.emptyRetryable && RepeatAllowed(c) {
      assert Due(c, w, r, p.(tools := false)) by { SameTold(c, w, p, p.(tools := false)); }
      r, ok, body := Post(c, w, r, p.(tools := false));
      if !ok {
        return;
      }
    }
    if !body.content {
      return r, false, body;
    }
    if c.commands && body.retryWorthy && RepeatAllowed(c) {
      WrittenIsDue(c, w, r, OPENING, |r.origins|, false);
      r, ok, body := Post(c, w, r, WritePayload(c, r, OPENING, |r.origins|, false));
    }
  }

  lemma AnswersCount(c: Config, w: World, r: Run)
    requires Kept(c, w, r)
    ensures |r.answers| == |r.posts|
  {
  }

  lemma SameTold(c: Config, w: World, p: Payload, q: Payload)
    requires Told(c, w, p) && q.msgs == p.msgs && q.origins == p.origins && q.from == p.from
    ensures Told(c, w, q)
  {
  }

  /** How a run ends: with the loop when that halts, and otherwise behind the retries. */
  ghost predicate Concluded(c: Config, w: World, r: Run, loop: nat, ok: bool) {
    && 0 < loop <= |r.posts| == |r.answers|
    && if Halts(c, w, r.posts[loop - 1], r.answers[loop - 1]) then !ok && |r.posts| == loop
       else Followed(c, w, r, loop, ok)
  }

  /** One exchange against any provider: each posted history is the story of the answers before it, and is paired
      exactly when all their turns in it are whole; the first `loop` requests are those of the tool loop, whose answers
      became the turns; tool, search, post and send allowances. */
  method ChatRun(c: Config, w: World) returns (r: Run, ok: bool, body: Body, loop: nat)
    requires Admitted(c)
    ensures Concluded(c, w, r, loop, ok) && |r.posts| <= loop + 2
    ensures Complete(c, w, r, if ok then loop else loop - 1) && Sourced(c, w, r)
    ensures Bounded(c, w, r) && Recorded(c, w, r) && r.posts[0] == FirstRequest(c)
    ensures forall n | 0 <= n < |r.origins| :: r.origins[n].Sent?
    ensures forall i | 0 <= i < |r.posts| ::
              Paired(r.posts[i].msgs) <==> AllWhole(c, w, r.posts[i].origins, r.posts[i].from)
    ensures ok ==> Answered(w, r, body)
  {
    hide Told, Paired, AllWhole, Complete, Sourced, Executed, Story, Halts, Followed, Kept;
    var p;
    r, ok, p, body := ToolLoop(c, w);
    loop := |r.posts|;
    AnswersCount(c, w, r);
    if ok {
      ghost var r0 := r;
      r, ok, body := FinishRun(c, w, r, p, body);
      RunComplete(c, w, r0, r, ok, loop);
    }
    KeptRecorded(c, w, r);
    PostedPairing(c, w, r);
  }

  lemma KeptRecorded(c: Config, w: World, r: Run)
    requires Kept(c, w, r)
    ensures Recorded(c, w, r)
  {
  }

  lemma RunComplete(c: Config, w: World, r0: Run, r: Run, ok: bool, loop: nat)
    requires Complete(c, w, r0, loop) && Sourced(c, w, r0) && r.origins == r0.origins
    requires 0 < loop == |r0.posts| == |r0.answers|
    requires r0.posts <= r.posts && r0.answers <= r.answers && Followed(c, w, r, loop, ok)
    ensures Complete(c, w, r, loop) && Complete(c, w, r, loop - 1) && Sourced(c, w, r)
    ensures |r.posts| <= loop + 2
    ensures r.posts[loop - 1] == r0.posts[loop - 1] && r.answers[loop - 1] == r0.answers[loop - 1]
  {
    hide Sourced, Complete;
    CompleteStays(c, w, r0, r, loop);
    CompleteLess(c, w, r, loop);
    SourcedStays(c, w, r0, r);
  }

  /** Every posted history is paired exactly when the turns of the answers in it are whole. */
  lemma PostedPairing(c: Config, w: World, r: Run)
    requires Recorded(c, w, r)
    ensures forall i | 0 <= i < |r.posts| ::
              Paired(r.posts[i].msgs) <==> AllWhole(c, w, r.posts[i].origins, r.posts[i].from)
  {
    hide Paired, AllWhole, Told;
    forall i | 0 <= i < |r.posts|
      ensures Paired(r.posts[i].msgs) <==> AllWhole(c, w, r.posts[i].origins, r.posts[i].from)
    {
      PostedCredible(c, w, r, i);
      ToldPairs(c, w, r.posts[i], |r.http|);
    }
  }

  lemma PostedCredible(c: Config, w: World, r: Run, i: nat)
    requires Recorded(c, w, r) && i < |r.posts|
    ensures Told(c, w, r.posts[i]) && Credible(c, w, r.posts[i].origins, |r.http|)
  {
    hide Told, Asks;
    var os := r.posts[i].origins;
    assert forall n | 0 <= n < |os| :: os[n] == r.origins[n];
  }

  /** Where no tool reads its standard input, a posted history is paired exactly when the answers it came from are
      tidy: native calls with ids that reach their results, or none beside the text protocol. */
  lemma QuietPairing(c: Config, w: World, r: Run, i: nat)
    requires Recorded(c, w, r) && Quiet(w) && i < |r.posts|
    ensures var p := r.posts[i];
      Paired(p.msgs) <==> forall n | p.from <= n < |p.origins| :: Tidy(c, w, p.origins[n])
  {
    hide Paired, Told, Whole, Tidy, Credible, TurnNo;
    PostedPairing(c, w, r);
    var p := r.posts[i];
    forall n | p.from <= n < |p.origins|
      ensures Whole(c, w, TurnNo(c, w, p.origins, n)) <==> Tidy(c, w, p.origins[n])
    {
      QuietTurns(c, w, p.origins, n);
    }
  }

  /** What a caller can check before the call: native tools that do not read their standard input, and a provider
      whose native calls all carry an id that reaches the result. Then every posted history is paired. */
  lemma NativeRunsPair(c: Config, w: World, r: Run)
    requires Recorded(c, w, r) && Quiet(w) && c.mode == Openai
    requires forall k, i | 0 <= i < |w.provider(k).body.native| :: Addressed(w.provider(k).body.native[i])
    requires forall n | 0 <= n < |r.origins| :: r.origins[n].Sent?
    ensures forall i | 0 <= i < |r.posts| :: Paired(r.posts[i].msgs)
  {
    hide Paired, Told, Addressed;
    forall i | 0 <= i < |r.posts|
      ensures Paired(r.posts[i].msgs)
    {
      QuietPairing(c, w, r, i);
      PostedCredible(c, w, r, i);
      var p := r.posts[i];
      assert p.origins <= r.origins;
      forall n | p.from <= n < |p.origins|
        ensures Tidy(c, w, p.origins[n])
      {
        assert p.origins[n] == r.origins[n] && Asks(c, w, r.origins[n]);
      }
    }
  }

  /** On the subscription route one logical request is made and no local tool runs; with
      native search at most one logical request asks for it. */
  lemma PaidRoutes(c: Config, w: World, r: Run)
    requires Admitted(c) && Bounded(c, w, r)
    ensures c.chatgpt ==> |r.posts| <= 1 && r.executed == 0 && |r.http| <= c.retries + 1
    ensures Searches(r.posts) <= 1
    ensures |r.http| <= 5 * (c.retries + 1) * (c.rounds + Summaries(c.rounds) + 3)
  {
    hide Recorded, Searches;
    Monotone(5 * (c.retries + 1), |r.posts|, c.rounds + Summaries(c.rounds) + 3);
    if c.chatgpt {
      Monotone(c.retries + 1, |r.posts|, 1);
    }
  }
}
