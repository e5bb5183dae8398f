// The history of a run as its replies tell it: which tool turns were taken, what
// each of them left in the history, and when the history is paired.

module ExchangeStory {
  import opened Common
  import opened Exchange
  import opened ExchangeHistory

  const OPENING: seq<Msg> := [System, User]

  /** Which calls the answer asks for: native ones first, then the text protocol. */
  function Asked(c: Config, body: Body): (Source, seq<Call>) {
    if (c.mode == Openai || c.mode == Auto) && body.native != [] then (Native, body.native)
    else if c.mode == TextProtocol || c.mode == Auto then (InText, body.asked)
    else (InText, [])
  }

  /** Which calls each tool mode takes from an answer. */
  lemma AnswerAsks(c: Config, body: Body)
    ensures var (source, calls) := Asked(c, body);
      && (c.mode == NoTools ==> calls == [])
      && (c.mode == Openai ==> calls == body.native)
      && (c.mode == TextProtocol ==> calls == body.asked)
      && (c.mode == Auto && body.native != [] ==> calls == body.native)
      && (c.mode == Auto && body.native == [] ==> calls == body.asked)
      && (calls != [] ==> (source == Native <==> c.mode == Openai || (c.mode == Auto && body.native != [])))
  {
  }

  function BodyOf(w: World, o: Origin): Body {
    match o
    case Sent(k) => w.provider(k).body
    case Heard(j) => Body(w.streams(j).native, w.streams(j).asked, false, false, false)
  }

  /** The answer asks for tools; a reply must have been accepted. */
  predicate Asks(c: Config, w: World, o: Origin) {
    && Asked(c, BodyOf(w, o)).1 != []
    && (o.Sent? ==> Success(w.provider(o.k).code) && w.provider(o.k).accepted)
  }

  /** A streamed turn in the text protocol stores only its text; one that is streamed behind the last round is
      stored without its tools being run. */
  function TurnFor(c: Config, w: World, o: Origin, before: nat): Turn {
    var (source, calls) := Asked(c, BodyOf(w, o));
    Turn(source, if o.Sent? || source == Native then BodyOf(w, o).native else [], calls, before,
         o.Sent? || o.j < c.rounds)
  }

  /** How many tools the turn executes. */
  function Ran(c: Config, w: World, t: Turn): nat {
    if t.ran then Min(|Served(c, w, t.calls, t.before, 0)|, c.callsPerRound) else 0
  }

  /** How many tools the turns execute, one after the other. */
  function Executed(c: Config, w: World, os: seq<Origin>): nat {
    if os == [] then 0
    else
      var before := Executed(c, w, os[..|os| - 1]);
      before + Ran(c, w, TurnFor(c, w, os[|os| - 1], before))
  }

  /** Turn number `n` of the run. */
  function TurnNo(c: Config, w: World, os: seq<Origin>, n: nat): Turn
    requires n < |os|
  {
    TurnFor(c, w, os[n], Executed(c, w, os[..n]))
  }

  /** What stands in front of the first turn of the history: a summary and an instruction once turns are dropped. */
  function Base(from: nat): seq<Msg> {
    if from == 0 then OPENING else OPENING + [User, User]
  }

  /** The history: each turn from `from` on with its results and the next instruction. */
  function Story(c: Config, w: World, os: seq<Origin>, from: nat): seq<Msg>
    requires from <= |os|
    decreases |os|
  {
    if |os| == from then Base(from)
    else
      var n := |os| - 1;
      Story(c, w, os[..n], from) + Block(c, w, TurnNo(c, w, os, n)) + [User]
  }

  predicate AllWhole(c: Config, w: World, os: seq<Origin>, from: nat) {
    forall n | from <= n < |os| :: Whole(c, w, TurnNo(c, w, os, n))
  }

  predicate Earlier(a: Origin, b: Origin) {
    match a
    case Heard(i) => b.Sent? || i < b.j
    case Sent(k) => b.Sent? && k < b.k
  }

  /** Each turn comes from an answer that asks for tools, in the order of the answers. */
  ghost predicate Credible(c: Config, w: World, os: seq<Origin>, sent: nat) {
    && (forall n | 0 <= n < |os| :: Asks(c, w, os[n]) && (os[n].Sent? ==> os[n].k < sent))
    && forall m, n | 0 <= m < n < |os| :: Earlier(os[m], os[n])
  }

  lemma ExecutedMore(c: Config, w: World, os: seq<Origin>, o: Origin)
    ensures Executed(c, w, os + [o]) == Executed(c, w, os) + Ran(c, w, TurnFor(c, w, o, Executed(c, w, os)))
  {
    hide Ran, TurnFor;
    assert (os + [o])[..|os|] == os;
  }

  lemma StoryMore(c: Config, w: World, os: seq<Origin>, o: Origin, from: nat)
    requires from <= |os|
    ensures Story(c, w, os + [o], from)
         == Story(c, w, os, from) + Block(c, w, TurnFor(c, w, o, Executed(c, w, os))) + [User]
  {
    hide Block, TurnFor, Executed;
    assert (os + [o])[..|os|] == os;
  }

  lemma StoryStart(c: Config, w: World, os: seq<Origin>)
    ensures Story(c, w, os, |os|) == Base(|os|)
  {
  }

  lemma AskingIsPossible(c: Config, w: World, o: Origin, before: nat)
    requires Asks(c, w, o)
    ensures Possible(TurnFor(c, w, o, before))
  {
  }

  lemma AllWholeMore(c: Config, w: World, os: seq<Origin>, from: nat)
    requires from < |os|
    ensures var n := |os| - 1;
      AllWhole(c, w, os, from) <==> AllWhole(c, w, os[..n], from) && Whole(c, w, TurnNo(c, w, os, n))
  {
    hide Whole, TurnFor, Executed;
    var n := |os| - 1;
    forall m | from <= m < n
      ensures TurnNo(c, w, os, m) == TurnNo(c, w, os[..n], m)
    {
      assert os[..n][..m] == os[..m];
    }
  }

  lemma BaseStands(from: nat)
    ensures Stands(true, Base(from)) && Stands(true, OPENING)
  {
    hide Paired;
    UsersArePaired(Base(from));
    UsersArePaired(OPENING);
  }

  /** The history is paired exactly when every turn in it is whole, and otherwise beyond repair. */
  lemma {:induction false} StoryStands(c: Config, w: World, os: seq<Origin>, from: nat)
    requires from <= |os| && forall n | 0 <= n < |os| :: Asks(c, w, os[n])
    ensures Stands(AllWhole(c, w, os, from), Story(c, w, os, from))
    decreases |os|
  {
    hide Stands, Whole, Asks, Block, TurnFor, Executed;
    if |os| == from {
      BaseStands(from);
    } else {
      hide AllWhole;
      var n := |os| - 1;
      StoryStands(c, w, os[..n], from);
      AskingIsPossible(c, w, os[n], Executed(c, w, os[..n]));
      TurnStands(c, w, Story(c, w, os[..n], from), AllWhole(c, w, os[..n], from), TurnNo(c, w, os, n));
      AllWholeMore(c, w, os, from);
    }
  }

  /** The history of a request: that of its turns, the same with a closing instruction, or just the opening. */
  ghost predicate Told(c: Config, w: World, p: Payload) {
    && p.from <= |p.origins|
    && (|| p.msgs == Story(c, w, p.origins, p.from)
        || p.msgs == Story(c, w, p.origins, p.from) + [User]
        || (p.msgs == OPENING && p.from == |p.origins|))
  }

  lemma ToldPairs(c: Config, w: World, p: Payload, sent: nat)
    requires Told(c, w, p) && Credible(c, w, p.origins, sent)
    ensures Paired(p.msgs) <==> AllWhole(c, w, p.origins, p.from)
  {
    hide Paired, Stands, Story, Asks, Whole, TurnNo;
    var good, story := AllWhole(c, w, p.origins, p.from), Story(c, w, p.origins, p.from);
    StoryStands(c, w, p.origins, p.from);
    StandsMeans(story, good);
    UserStands(story, good);
    StandsMeans(story + [User], good);
    BaseStands(0);
    StandsMeans(OPENING, true);
  }

  // ------------------------------------------------------------------------
  // What a caller can check of the answers and the tools

  /** Wherever this answer comes in a run, its turn keeps the history paired. */
  predicate Tidy(c: Config, w: World, o: Origin) {
    var t := TurnFor(c, w, o, 0);
    if t.source == InText then t.native == []
    else t.ran && forall i | 0 <= i < |t.calls| :: Addressed(t.calls[i])
  }

  /** No tool reads its standard input. */
  ghost predicate Quiet(w: World) {
    forall e :: w.swallows(e) == 0 && w.tears(e).None?
  }

  /** With tools that do not read their standard input, a turn is whole exactly when its answer is tidy, whatever came
      before it. */
  lemma QuietTurns(c: Config, w: World, os: seq<Origin>, n: nat)
    requires Quiet(w) && n < |os|
    ensures Whole(c, w, TurnNo(c, w, os, n)) <==> Tidy(c, w, os[n])
  {
    hide Asked, Executed, Addressed, Whole;
    var t := TurnNo(c, w, os, n);
    if t.source == InText {
      WholeInText(c, w, t);
    } else {
      WholeMeans(c, w, t);
    }
  }

  lemma WholeInText(c: Config, w: World, t: Turn)
    requires t.source == InText
    ensures Whole(c, w, t) <==> t.native == []
  {
  }
}
