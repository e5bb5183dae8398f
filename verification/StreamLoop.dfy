// The streamed conversation: rounds of streams and local tools, and what is left
// for the buffered loop when streaming gives up.

module StreamLoop {
  import opened Common
  import opened Exchange
  import opened ExchangeHistory
  import opened ExchangeStory
  import opened ExchangeLoop
  import opened Streaming

  datatype Ending = Finished | HandedOver | ToolsFailed

  function TextOf(s: Streamed): string {
    if s.sawData then s.text else ""
  }

  predicate Collects(c: Config, w: World, j: nat) {
    Asks(c, w, Heard(j))
  }

  function OutcomeOf(c: Config, w: World, budget: nat, j: nat): Outcome {
    var s := w.streams(j);
    StreamOutcome(TextOf(s), budget, s.sawData, s.complete, Collects(c, w, j), s.appended)
  }

  function LinesOf(w: World, budget: nat, j: nat): seq<string> {
    Display(TextOf(w.streams(j)), budget).lines
  }

  /** The lines that the first `n` rounds print. */
  function PrintedBy(w: World, budget: nat, n: nat): seq<string> {
    if n == 0 then [] else PrintedBy(w, budget, n - 1) + LinesOf(w, budget, n - 1)
  }

  /** The turns of the first `n` streams. */
  function Rounds(n: nat): (os: seq<Origin>)
    ensures |os| == n && forall j | 0 <= j < n :: os[j] == Heard(j)
  {
    seq(n, j requires 0 <= j < n => Heard(j))
  }

  // ------------------------------------------------------------------------
  // The loop

  /** Each streamed request carries the story of the streams before it. */
  ghost predicate Streams(c: Config, w: World, streamed: seq<Payload>) {
    forall j | 0 <= j < |streamed| ::
      streamed[j].origins == Rounds(j) && LoopPost(c, w, streamed[j]) && !streamed[j].search
  }

  /** What holds before a streamed round. */
  ghost predicate AtStream(c: Config, w: World, r: Run, p: Payload, round: nat, streamed: seq<Payload>, sends: nat) {
    && AtRound(c, w, r, p, round) && r.origins == Rounds(round)
    && |streamed| == round && sends <= 2 * round && Streams(c, w, streamed)
    && !p.search && (c.search ==> r.format == Chat)
  }

  /** The buffered loop takes over behind this round: its stream was no use, or it asks for tools and the rounds
      are used up. */
  predicate HandsOver(c: Config, w: World, budget: nat, round: nat) {
    var outcome := OutcomeOf(c, w, budget, round);
    outcome.Fallback? || (outcome.ToolRound? && round == c.rounds)
  }

  /** The calls that the stream of round `j` brings can all be answered. */
  predicate RoundRuns(c: Config, w: World, j: nat) {
    Runs(c, w, TurnFor(c, w, Heard(j), Executed(c, w, Rounds(j))))
  }

  /** Which streamed round is the last, and how it ends: every round before it asked for tools that could be run, and
      the streams decide between an answer, the buffered loop, and tools whose calls or summary fail. */
  ghost predicate StreamsDone(c: Config, w: World, budget: nat, ending: Ending, round: nat, r: Run) {
    && round <= c.rounds
    && (forall j: nat | j < round :: OutcomeOf(c, w, budget, j).ToolRound? && RoundRuns(c, w, j))
    && (ending.Finished? <==> OutcomeOf(c, w, budget, round).Answered?)
    && (ending.HandedOver? <==> HandsOver(c, w, budget, round))
    && (ending.ToolsFailed? ==>
        !RoundRuns(c, w, round) || (Condenses(c, w, round + 1) && !LastSays(w, r)))
  }

  /** The turns that are stored: those of the rounds before, and the one of a round that asks for tools when no round
      is left, unless its tools failed. */
  ghost predicate Stored(c: Config, w: World, budget: nat, ending: Ending, round: nat, r: Run) {
    if ending.ToolsFailed? then r.origins == Rounds(round) || r.origins == Rounds(round + 1)
    else
      && r.origins == Rounds(if OutcomeOf(c, w, budget, round).ToolRound? then round + 1 else round)
      && r.executed == Executed(c, w, r.origins)
  }

  /** Streams every round and runs the collected tools. The turn of a round that exceeds the limit is stored without
      its tools being run. */
  method Stream(c: Config, w: World, budget: nat)
      returns (ending: Ending, r: Run, p: Payload, round: nat, printed: seq<string>, streamed: seq<Payload>, sends: nat)
    requires c.format == Chat
    ensures StreamsDone(c, w, budget, ending, round, r) && printed == PrintedBy(w, budget, round + 1)
    ensures Stored(c, w, budget, ending, round, r)
    ensures ending.HandedOver? ==> AtRound(c, w, r, p, round)
    ensures Kept(c, w, r) && |r.posts| <= c.rounds + Summaries(c.rounds) && r.executed <= c.rounds * c.callsPerRound
    ensures |streamed| == round + 1 && sends <= 2 * |streamed| && Streams(c, w, streamed)
  {
    hide AtRound, Kept, WritePayload, OutcomeOf, LinesOf, Executed, Asks, Rounds, Streams, Follows, TurnFor;
    hide RoundRuns, Condenses, LastSays;
    r, p, round := Opening(c), FirstRequest(c), 0;
    printed, streamed, sends := [], [], 0;
    StartOfRun(c, w);
    ChatSearchesNot(c, Opening(c), OPENING, 0, true);
    NoRounds();
    assert Streams(c, w, []) by { NoStreams(c, w); }
    while true
      invariant AtStream(c, w, r, p, round, streamed, sends)
      invariant printed == PrintedBy(w, budget, round)
      invariant forall j: nat | j < round :: OutcomeOf(c, w, budget, j).ToolRound? && RoundRuns(c, w, j)
      decreases c.rounds - round
    {
      var s := w.streams(round);
      RoundBounds(c, w, r, p, round);
      SentOut(c, w, r, p, round, streamed);
      streamed, sends := streamed + [p], sends + if s.again then 2 else 1;
      printed := printed + LinesOf(w, budget, round);
      var outcome := OutcomeOf(c, w, budget, round);
      if !outcome.ToolRound? {
        return if outcome.Answered? then Finished else HandedOver, r, p, round, printed, streamed, sends;
      }
      ToolRoundCollects(c, w, budget, round);
      HeardFollows(c, w, r, round);
      if round >= c.rounds {
        r := StoreTurn(c, w, r, p, round);
        RoundBounds(c, w, r, p, round);
        return HandedOver, r, p, round, printed, streamed, sends;
      }
      var ok;
      r, ok, p := RunRound(c, w, r, p, round);
      if !ok {
        return ToolsFailed, r, p, round, printed, streamed, sends;
      }
      round := round + 1;
    }
  }

  lemma RoundBounds(c: Config, w: World, r: Run, p: Payload, round: nat)
    requires AtRound(c, w, r, p, round)
    ensures Kept(c, w, r) && round <= c.rounds && |r.posts| <= c.rounds + Summaries(c.rounds)
    ensures r.executed == Executed(c, w, r.origins) <= c.rounds * c.callsPerRound
  {
    RoundsGrow(round, c);
  }

  lemma NoStreams(c: Config, w: World)
    ensures Streams(c, w, [])
  {
  }

  lemma NoRounds()
    ensures Rounds(0) == []
  {
  }

  lemma RoundsMore(n: nat)
    ensures Rounds(n + 1) == Rounds(n) + [Heard(n)]
  {
  }

  lemma ChatSearchesNot(c: Config, r: Run, ms: seq<Msg>, from: nat, withTools: bool)
    requires c.search ==> r.format == Chat
    ensures !WritePayload(c, r, ms, from, withTools).search
  {
  }

  /** The request of a round is the story of the streams so far. */
  lemma SentOut(c: Config, w: World, r: Run, p: Payload, round: nat, streamed: seq<Payload>)
    requires AtRound(c, w, r, p, round) && r.origins == Rounds(round) && !p.search
    requires Streams(c, w, streamed) && |streamed| == round
    ensures Streams(c, w, streamed + [p])
  {
    hide Kept, Story, LoopPost, Told, Complete, Executed;
    assert p.origins == r.origins;
  }

  lemma ToolRoundCollects(c: Config, w: World, budget: nat, round: nat)
    requires OutcomeOf(c, w, budget, round).ToolRound?
    ensures Collects(c, w, round) && c.mode != NoTools
  {
    hide Display;
  }

  lemma HeardFollows(c: Config, w: World, r: Run, round: nat)
    requires Collects(c, w, round) && r.origins == Rounds(round)
    ensures Follows(c, w, r, Heard(round))
    ensures TurnFor(c, w, Heard(round), 0).ran == (round < c.rounds)
  {
    hide Asks;
  }

  /** Stores a turn whose tools are not going to be run. */
  method StoreTurn(c: Config, w: World, r: Run, p: Payload, round: nat) returns (r': Run)
    requires AtRound(c, w, r, p, round) && r.origins == Rounds(round) && round == c.rounds
    requires Follows(c, w, r, Heard(round)) && c.mode != NoTools
    ensures AtRound(c, w, r', p, round) && r'.origins == Rounds(round + 1)
    ensures r'.msgs == r.msgs + [Assistant(TurnFor(c, w, Heard(round), r.executed).native)]
  {
    hide Kept, Story, Executed, Follows, Complete, Sourced, Told, TurnFor, LoopPost;
    var o := Heard(round);
    var t := TurnFor(c, w, o, r.executed);
    r' := r.(msgs := r.msgs + [Assistant(t.native)], origins := r.origins + [o]);
    RoundsMore(round);
    KeptMore(c, w, r, o, r');
    UnrunTurn(c, w, o, r.executed);
    StoryMore(c, w, r.origins, o, r.from);
    ExecutedMore(c, w, r.origins, o);
    assert r.msgs + [Assistant(t.native)] + [User] == r'.msgs + [User];
    KeptFrom(c, w, r');
    CompleteStays(c, w, r, r', |r.posts|);
    SourcedMore(c, w, r, o, r');
  }

  lemma UnrunTurn(c: Config, w: World, o: Origin, before: nat)
    requires o == Heard(c.rounds)
    ensures var t := TurnFor(c, w, o, before); Block(c, w, t) == [Assistant(t.native)] && Ran(c, w, t) == 0
  {
  }

  lemma HeardSourced(c: Config, w: World, r: Run, o: Origin, r': Run)
    requires Sourced(c, w, r) && o.Heard? && r'.origins == r.origins + [o] && Summarized(r, r')
    requires |r'.posts| == |r'.answers|
    ensures Sourced(c, w, r')
  {
    hide Sourced;
    var taken := r.(origins := r'.origins);
    SourcedMore(c, w, r, o, taken);
    SummarizedSourced(c, w, taken, r');
  }

  /** The tools of one streamed round and the next request. */
  method RunRound(c: Config, w: World, r: Run, p: Payload, round: nat) returns (r': Run, ok: bool, p': Payload)
    requires AtRound(c, w, r, p, round) && r.origins == Rounds(round) && round < c.rounds
    requires Follows(c, w, r, Heard(round)) && TurnFor(c, w, Heard(round), 0).ran
    requires c.mode != NoTools && (c.search ==> r.format == Chat)
    ensures Kept(c, w, r') && |r'.posts| <= c.rounds + Summaries(c.rounds) && r'.executed <= c.rounds * c.callsPerRound
    ensures r'.origins == Rounds(round) || r'.origins == Rounds(round + 1)
    ensures ok ==> AtRound(c, w, r', p', round + 1) && r'.origins == Rounds(round + 1)
    ensures ok <==> RoundRuns(c, w, round) && (Condenses(c, w, round + 1) ==> LastSays(w, r'))
    ensures !p'.search && (c.search ==> r'.format == Chat)
  {
    hide Kept, Due, Story, Executed, Follows, Complete, Sourced, TurnFor, LoopPost, Summarized, Rounds, Runs;
    RoundsMore(round);
    RoundsGrow(round, c);
    RoundsGrow(round + 1, c);
    r', ok, p' := TakeTurn(c, w, r, Heard(round), round);
    ChatSearchesNot(c, r', r'.msgs, r'.from, true);
    SummarizedGrows(r, r');
    if ok {
      KeptFrom(c, w, r');
      SummarizedComplete(c, w, r, r', |r.posts|);
      HeardSourced(c, w, r, Heard(round), r');
    }
  }

  // ------------------------------------------------------------------------
  // When printed text is followed by a buffered request

  /** The buffered path follows printed text exactly when an earlier round printed, or this round printed and
      collected calls whose turn could not be stored or whose round was one too many. */
  lemma HandoverAfterPrint(c: Config, w: World, budget: nat, round: nat)
    requires HandsOver(c, w, budget, round)
    ensures PrintedBy(w, budget, round + 1) != []
       <==> || (exists j: nat | j < round :: LinesOf(w, budget, j) != [])
            || (LinesOf(w, budget, round) != [] && Collects(c, w, round)
                && (!w.streams(round).appended || round == c.rounds))
  {
    hide Display, Asks;
    PrintedSome(w, budget, round);
    FallbackPrinted(c, w, budget, round);
  }

  lemma FallbackPrinted(c: Config, w: World, budget: nat, j: nat)
    ensures OutcomeOf(c, w, budget, j).Fallback? && LinesOf(w, budget, j) != []
        ==> Collects(c, w, j) && !w.streams(j).appended
    ensures OutcomeOf(c, w, budget, j).ToolRound? ==> Collects(c, w, j) && w.streams(j).appended
  {
    hide Display, Asks;
    var s := w.streams(j);
    FallbackAfterPrint(TextOf(s), budget, s.sawData, s.complete, Collects(c, w, j), s.appended);
  }

  lemma {:induction false} PrintedSome(w: World, budget: nat, n: nat)
    ensures PrintedBy(w, budget, n) != [] <==> exists j: nat | j < n :: LinesOf(w, budget, j) != []
  {
    hide LinesOf;
    if n > 0 {
      PrintedSome(w, budget, n - 1);
    }
  }

  lemma OkIsPrinted(budget: nat)
    requires budget == 0 || budget >= 3
    ensures Display("ok\n", budget).lines == ["ok"] && Display("ok\n", budget).emitted == 3
  {
    hide Split, HandleAll, Opens, Closes, ToolRequest, Trim;
    OkIsALine();
    OkIsDisplayable();
    HandleMore([], budget, "ok");
    HandleNothing(budget);
    assert [] + ["ok"] == ["ok"];
  }

  lemma HandleNothing(budget: nat)
    ensures HandleAll([], budget) == START
  {
  }

  lemma OkIsALine()
    ensures AllLines("ok\n") == ["ok"]
  {
    var t := "ok\n";
    assert t[..|t| - 1] == "ok";
    SplitFlat("ok");
    assert [] + ["ok"] == ["ok"];
  }

  lemma OkIsDisplayable()
    ensures Displayable("ok")
  {
    assert Trim("ok") == "ok";
  }

  /** Streams that always print a line and ask for a native tool: behind the last round the buffered loop takes
      over, after text has been printed. */
  lemma LimitRepeatsPrinted(c: Config, w: World, budget: nat, call: Call)
    requires c.mode == Openai && (budget == 0 || budget >= 3)
    requires forall j :: w.streams(j) == Streamed("ok\n", true, true, [call], [], true, false)
    ensures forall j: nat :: OutcomeOf(c, w, budget, j).ToolRound? && LinesOf(w, budget, j) == ["ok"]
    ensures HandsOver(c, w, budget, c.rounds) && PrintedBy(w, budget, c.rounds + 1) != []
  {
    hide Display;
    OkIsPrinted(budget);
    HandoverAfterPrint(c, w, budget, c.rounds);
  }

  // ------------------------------------------------------------------------
  // The whole conversation

  /** The buffered loop behind the streams, and what follows it. */
  method TakeOver(c: Config, w: World, start: Run, first: Payload, round: nat) returns (r: Run, ok: bool, loop: nat)
    requires AtRound(c, w, start, first, round)
    ensures Concluded(c, w, r, loop, ok) && Extends(start.origins, r.origins) && Kept(c, w, r)
    ensures Complete(c, w, r, if ok then loop else loop - 1) && Sourced(c, w, r)
    ensures |r.posts| <= c.rounds + Summaries(c.rounds) + 3 && r.executed <= c.rounds * c.callsPerRound
  {
    hide AtRound, Kept, LoopDone, Halts, Followed, Complete, Sourced, Extends;
    var p, body;
    r, ok, p, body := Continue(c, w, start, first, round);
    LoopBounds(c, w, r, ok, p, body);
    loop := |r.posts|;
    ghost var r0 := r;
    if ok {
      r, ok, body := FinishRun(c, w, r, p, body);
      RunComplete(c, w, r0, r, ok, loop);
    }
    LoopConcludes(c, w, r0, r, ok);
  }

  /** Streaming, and the buffered loop from wherever streaming gave up. Every history, streamed or posted, is the story
      of the answers before it, and paired exactly when all their turns in it are whole. It succeeds when a stream
      brings the answer, or when the buffered loop and what follows it do. */
  method StreamedRun(c: Config, w: World, budget: nat)
      returns (ok: bool, ending: Ending, r: Run, printed: seq<string>, streamed: seq<Payload>, taken: nat, sends: nat,
               loop: nat)
    requires c.format == Chat
    ensures if ending.HandedOver? then Concluded(c, w, r, loop, ok) else ok == ending.Finished?
    ensures streamed != [] && |streamed| <= c.rounds + 1 && sends <= 2 * (c.rounds + 1)
    ensures ending.HandedOver? ==> Complete(c, w, r, if ok then loop else loop - 1) && Sourced(c, w, r)
    ensures StreamsDone(c, w, budget, ending, |streamed| - 1, r)
    ensures printed == PrintedBy(w, budget, |streamed|)
    ensures Recorded(c, w, r) && Extends(Rounds(taken), r.origins) && taken <= c.rounds + 1
    ensures forall i | 0 <= i < |r.posts| ::
              Paired(r.posts[i].msgs) <==> AllWhole(c, w, r.posts[i].origins, r.posts[i].from)
    ensures Streams(c, w, streamed)
    ensures forall j | 0 <= j < |streamed| ::
              Paired(streamed[j].msgs) <==> AllWhole(c, w, streamed[j].origins, streamed[j].from)
    ensures |r.posts| <= c.rounds + Summaries(c.rounds) + 3 && |r.http| <= 5 * (c.retries + 1) * |r.posts|
    ensures Searches(r.posts) <= 1 && r.executed <= c.rounds * c.callsPerRound
  {
    hide AtRound, Kept, Recorded, Streams, Paired, AllWhole, StreamsDone, LoopDone, Searches, Rounds, OutcomeOf;
    hide Concluded, Complete, Sourced, Extends, Stored, PrintedBy, Summaries;
    var p, round;
    ending, r, p, round, printed, streamed, sends := Stream(c, w, budget);
    StreamsBounded(c, w, budget, ending, round, r);
    StreamedPairing(c, w, budget, ending, round, r, streamed);
    ok, loop := ending.Finished?, 0;
    NoneAdded(r.origins);
    taken := |r.origins|;
    TakenRounds(c, w, budget, ending, round, r);
    if ending.HandedOver? {
      ghost var handed := r;
      r, ok, loop := TakeOver(c, w, r, p, round);
      StreamsStay(c, w, budget, ending, round, handed, r);
    }
    assert Recorded(c, w, r) by { KeptRecorded(c, w, r); }
    PostedPairing(c, w, r);
    SendsKept(c, w, r);
  }

  lemma StreamsStay(c: Config, w: World, budget: nat, ending: Ending, round: nat, r: Run, r': Run)
    requires StreamsDone(c, w, budget, ending, round, r) && !ending.ToolsFailed?
    ensures StreamsDone(c, w, budget, ending, round, r')
  {
    hide OutcomeOf, HandsOver, RoundRuns;
  }

  /** A run ends with the loop, or behind the retries. */
  lemma LoopConcludes(c: Config, w: World, r0: Run, r: Run, ok: bool)
    requires r0.posts != [] && |r0.posts| == |r0.answers| && r0.posts <= r.posts && r0.answers <= r.answers
    requires if Halted(c, w, r0) then !ok && r == r0 else Followed(c, w, r, |r0.posts|, ok)
    ensures Concluded(c, w, r, |r0.posts|, ok)
  {
    hide Halts, Followed;
    assert Halted(c, w, r0) <==> Halts(c, w, r.posts[|r0.posts| - 1], r.answers[|r0.posts| - 1]);
    if !Halted(c, w, r0) {
      FollowedLasts(c, w, r, |r0.posts|, ok);
    }
  }

  lemma FollowedLasts(c: Config, w: World, r: Run, loop: nat, ok: bool)
    requires Followed(c, w, r, loop, ok)
    ensures 0 < loop <= |r.posts| == |r.answers|
  {
  }

  lemma NoneAdded(os: seq<Origin>)
    ensures Extends(os, os)
  {
  }

  lemma TakenRounds(c: Config, w: World, budget: nat, ending: Ending, round: nat, r: Run)
    requires Stored(c, w, budget, ending, round, r) && round <= c.rounds
    ensures r.origins == Rounds(|r.origins|) && |r.origins| <= c.rounds + 1
  {
    hide OutcomeOf, Executed;
  }

  lemma StreamsBounded(c: Config, w: World, budget: nat, ending: Ending, round: nat, r: Run)
    requires StreamsDone(c, w, budget, ending, round, r)
    ensures round <= c.rounds
  {
  }

  lemma LoopBounds(c: Config, w: World, r: Run, ok: bool, p: Payload, body: Body)
    requires LoopDone(c, w, r, ok, p, body)
    ensures Kept(c, w, r) && 0 < |r.posts| == |r.answers| && |r.posts| <= c.rounds + 1 + Summaries(c.rounds) + 1
    ensures ok <==> !Halted(c, w, r)
    ensures r.executed <= c.rounds * c.callsPerRound
    ensures Complete(c, w, r, if ok then |r.posts| else |r.posts| - 1) && Sourced(c, w, r)
  {
  }

  lemma SendsKept(c: Config, w: World, r: Run)
    requires Kept(c, w, r)
    ensures |r.http| <= 5 * (c.retries + 1) * |r.posts| && Searches(r.posts) <= 1
  {
  }

  lemma StreamedPairing(c: Config, w: World, budget: nat, ending: Ending, round: nat, r: Run, streamed: seq<Payload>)
    requires StreamsDone(c, w, budget, ending, round, r) && |streamed| == round + 1 && Streams(c, w, streamed)
    ensures forall j | 0 <= j < |streamed| ::
              Paired(streamed[j].msgs) <==> AllWhole(c, w, streamed[j].origins, streamed[j].from)
  {
    hide Paired, AllWhole, Story, OutcomeOf, HandsOver;
    forall j | 0 <= j < |streamed|
      ensures Paired(streamed[j].msgs) <==> AllWhole(c, w, streamed[j].origins, streamed[j].from)
    {
      HeardCredible(c, w, budget, j);
      ToldPairs(c, w, streamed[j], 0);
    }
  }

  lemma HeardCredible(c: Config, w: World, budget: nat, n: nat)
    requires forall j: nat | j < n :: OutcomeOf(c, w, budget, j).ToolRound?
    ensures Credible(c, w, Rounds(n), 0)
  {
    hide OutcomeOf, Asks;
    forall j: nat | j < n
      ensures Asks(c, w, Heard(j))
    {
      ToolRoundCollects(c, w, budget, j);
    }
  }

  /** A native turn that was stored when the rounds were used up stays unanswered: every history that still holds it is
      unpaired, the one of the forced answer to begin with. */
  lemma LimitTurnUnpaired(c: Config, w: World, p: Payload, sent: nat, n: nat)
    requires Told(c, w, p) && Credible(c, w, p.origins, sent) && p.from <= n < |p.origins|
    requires p.origins[n] == Heard(c.rounds) && (c.mode == Openai || c.mode == Auto)
    requires w.streams(c.rounds).native != []
    ensures !Paired(p.msgs)
  {
    hide Paired, Told, Executed, Credible;
    ToldPairs(c, w, p, sent);
    assert !Whole(c, w, TurnNo(c, w, p.origins, n));
  }
}
