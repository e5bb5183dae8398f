// The request table of the language server client across server generations.
// Request ids start at one again in every generation.

module LspRequests {

  /** What a response brought, a result or an error, or a local rejection (failure or timeout). */
  datatype Outcome = Answered(payload: string) | Refused(payload: string) | Rejected

  function OutcomeOf(payload: string, error: bool): Outcome {
    if error then Refused(payload) else Answered(payload)
  }

  /** One server: `settled` holds the outcome of every promise that is settled, by request id. */
  datatype Generation = Generation(failed: bool, alive: bool, pending: set<nat>, timers: set<nat>, nextId: nat,
                                   settled: map<nat, Outcome>)

  const FRESH := Generation(false, true, {}, {}, 1, map[])

  datatype Event =
    | Start(writeFails: bool)
    | Request(writeFails: bool)
    | Reply(gen: nat, writeFails: bool)
    | Response(gen: nat, id: nat, payload: string, error: bool)
    | Timeout(gen: nat, id: nat)
    | Died(gen: nat)
    | Exit(gen: nat)
    | Abandon(gen: nat)
    | PipeError(gen: nat)

  // ------------------------------------------------------------------------
  // One generation

  /** A promise is settled at most once. */
  function Settle(settled: map<nat, Outcome>, id: nat, o: Outcome): map<nat, Outcome> {
    if id in settled then settled else settled[id := o]
  }

  function RejectAll(settled: map<nat, Outcome>, ids: set<nat>): map<nat, Outcome> {
    map id | id in settled.Keys + ids :: if id in settled then settled[id] else Rejected
  }

  lemma RejectOne(settled: map<nat, Outcome>, done: set<nat>, id: nat)
    ensures RejectAll(settled, done + {id}) == Settle(RejectAll(settled, done), id, Rejected)
  {
  }

  lemma RejectNone(settled: map<nat, Outcome>)
    ensures RejectAll(settled, {}) == settled
  {
  }

  function Fail(g: Generation): Generation {
    if g.failed then g
    else Generation(true, false, {}, g.timers - g.pending, g.nextId, RejectAll(g.settled, g.pending))
  }

  function Drop(g: Generation, id: nat, o: Outcome): Generation {
    g.(pending := g.pending - {id}, timers := g.timers - {id}, settled := Settle(g.settled, id, o))
  }

  predicate Sends(g: Generation, current: bool, writeFails: bool) {
    current && !g.failed && g.alive && !writeFails
  }

  function Send(g: Generation, current: bool, writeFails: bool): Generation {
    if Sends(g, current, writeFails) then g else Fail(g)
  }

  function Issue(g: Generation, writeFails: bool): Generation {
    var id := g.nextId;
    var waiting := g.(nextId := id + 1, pending := g.pending + {id}, timers := g.timers + {id});
    var sent := Send(waiting, true, writeFails);
    if Sends(waiting, true, writeFails) then sent else Drop(sent, id, Rejected)
  }

  /** The initialize request, which has the first id, was rejected or answered with an error. */
  predicate Abandons(g: Generation) {
    INITIALIZE in g.settled && !g.settled[INITIALIZE].Answered?
  }

  const INITIALIZE: nat := 1

  /** A new server: the initialize request is sent at once and takes the first id. */
  function Started(writeFails: bool): Generation {
    Issue(FRESH, writeFails)
  }

  // ------------------------------------------------------------------------
  // All generations; the last one is the client's current server

  type State = seq<Generation>

  predicate Addressed(s: State, e: Event) {
    match e
    case Start(_) => true
    case Request(_) => s != []
    case Reply(gen, _) => gen < |s|
    case Response(gen, _, _, _) => gen < |s|
    case Timeout(gen, _) => gen < |s|
    case Died(gen) => gen < |s|
    case Exit(gen) => gen < |s|
    case Abandon(gen) => gen < |s|
    case PipeError(gen) => gen < |s|
  }

  function Step(s: State, e: Event): (r: State)
    requires Addressed(s, e)
  {
    match e
    case Start(writeFails) =>
      if s == [] then [Started(writeFails)]
      else if !s[|s| - 1].failed && s[|s| - 1].alive then s
      else s[|s| - 1 := Fail(s[|s| - 1])] + [Started(writeFails)]
    case Request(writeFails) => s[|s| - 1 := Issue(s[|s| - 1], writeFails)]
    case Reply(gen, writeFails) => s[gen := Send(s[gen], gen == |s| - 1, writeFails)]
    case Response(gen, id, payload, error) =>
      if gen != |s| - 1 || s[gen].failed || id !in s[gen].pending then s
      else s[gen := Drop(s[gen], id, OutcomeOf(payload, error))]
    case Timeout(gen, id) => if id in s[gen].timers then s[gen := Drop(s[gen], id, Rejected)] else s
    case Died(gen) => s[gen := s[gen].(alive := false)]
    case Exit(gen) => s[gen := Fail(s[gen].(alive := false))]
    case Abandon(gen) => if Abandons(s[gen]) then s[gen := Fail(s[gen])] else s
    case PipeError(gen) => s[gen := Fail(s[gen])]
  }

  // ------------------------------------------------------------------------
  // The client, updated in place

  class Server {
    var failed: bool
    var alive: bool
    var pending: set<nat>
    var timers: set<nat>
    var nextId: nat
    var settled: map<nat, Outcome>

    constructor ()
      ensures View() == FRESH
    {
      failed, alive, pending, timers, nextId, settled := false, true, {}, {}, 1, map[];
    }

    ghost function View(): Generation
      reads this
    {
      Generation(failed, alive, pending, timers, nextId, settled)
    }

    method RejectPending()
      modifies this`timers, this`settled
      ensures settled == RejectAll(old(settled), pending) && timers == old(timers) - pending
    {
      hide RejectAll, Settle;
      var waiting := pending;
      ghost var done, running, before := {}, timers, settled;
      RejectNone(settled);
      while waiting != {}
        invariant done + waiting == pending && timers == running - done && settled == RejectAll(before, done)
        decreases waiting
      {
        var id :| id in waiting;
        RejectOne(before, done, id);
        timers := timers - {id};
        settled := Settle(settled, id, Rejected);
        waiting, done := waiting - {id}, done + {id};
      }
      assert done == pending;
    }

    /** Rejects every pending request, once; a later failure of the same server does nothing. */
    method FailServer()
      modifies this
      ensures View() == Fail(old(View()))
    {
      if failed {
        return;
      }
      failed := true;
      RejectPending();
      pending := {};
      alive := false;
    }

    method Withdraw(id: nat, o: Outcome)
      modifies this
      ensures View() == Drop(old(View()), id, o)
    {
      timers := timers - {id};
      pending := pending - {id};
      settled := Settle(settled, id, o);
    }

    /** `current`: this server is still the client's. */
    method SendMessage(current: bool, writeFails: bool) returns (ok: bool)
      modifies this
      ensures ok == Sends(old(View()), current, writeFails) && View() == Send(old(View()), current, writeFails)
    {
      if !current || failed || !alive || writeFails {
        FailServer();
        return false;
      }
      return true;
    }
  }

  class Client {
    /** All servers started so far; the last one is the current one, the others only live on in their events. */
    var servers: seq<Server>

    constructor ()
      ensures Apart() && View() == []
    {
      servers := [];
    }

    ghost predicate Apart()
      reads this
    {
      forall i, j | 0 <= i < j < |servers| :: servers[i] != servers[j]
    }

    ghost function View(): State
      reads this, servers
    {
      seq(|servers|, i requires 0 <= i < |servers| reads this, servers => servers[i].View())
    }

    method StartServer(writeFails: bool)
      requires Apart()
      modifies this, servers
      ensures Apart() && View() == Step(old(View()), Start(writeFails))
    {
      hide Fail, Issue;
      if servers != [] {
        var server := servers[|servers| - 1];
        if !server.failed && server.alive {
          return;
        }
        server.FailServer();
      }
      var next := new Server();
      servers := servers + [next];
      var initialize := SendRequest(writeFails);
    }

    method SendRequest(writeFails: bool) returns (id: nat)
      requires Apart() && servers != []
      modifies servers
      ensures View() == Step(old(View()), Request(writeFails))
      ensures id == old(View())[|servers| - 1].nextId
    {
      hide Fail, Drop;
      var server := servers[|servers| - 1];
      id := server.nextId;
      server.nextId := id + 1;
      server.timers := server.timers + {id};
      server.pending := server.pending + {id};
      var ok := server.SendMessage(true, writeFails);
      if !ok {
        server.Withdraw(id, Rejected);
      }
    }

    method SendReply(gen: nat, writeFails: bool)
      requires Apart() && gen < |servers|
      modifies servers
      ensures View() == Step(old(View()), Reply(gen, writeFails))
    {
      var ok := servers[gen].SendMessage(gen == |servers| - 1, writeFails);
    }

    /** A response with an error rejects the promise. */
    method OnResponse(gen: nat, id: nat, payload: string, error: bool)
      requires Apart() && gen < |servers|
      modifies servers
      ensures View() == Step(old(View()), Response(gen, id, payload, error))
    {
      var server := servers[gen];
      if gen == |servers| - 1 && !server.failed && id in server.pending {
        if error {
          server.Withdraw(id, Refused(payload));
        } else {
          server.Withdraw(id, Answered(payload));
        }
      }
    }

    method OnTimeout(gen: nat, id: nat)
      requires Apart() && gen < |servers|
      modifies servers
      ensures View() == Step(old(View()), Timeout(gen, id))
    {
      if id in servers[gen].timers {
        servers[gen].Withdraw(id, Rejected);
      }
    }

    /** The process is gone and no handler has run yet. */
    method ProcessDies(gen: nat)
      requires Apart() && gen < |servers|
      modifies servers
      ensures View() == Step(old(View()), Died(gen))
    {
      servers[gen].alive := false;
    }

    /** A start gives up its server when the initialize request came to nothing. */
    method AbandonStart(gen: nat)
      requires Apart() && gen < |servers|
      modifies servers
      ensures View() == Step(old(View()), Abandon(gen))
    {
      hide Fail;
      var server := servers[gen];
      if INITIALIZE in server.settled && !server.settled[INITIALIZE].Answered? {
        server.FailServer();
      }
    }

    method OnExit(gen: nat)
      requires Apart() && gen < |servers|
      modifies servers
      ensures View() == Step(old(View()), Exit(gen))
    {
      servers[gen].alive := false;
      servers[gen].FailServer();
    }

    method OnPipeError(gen: nat)
      requires Apart() && gen < |servers|
      modifies servers
      ensures View() == Step(old(View()), PipeError(gen))
    {
      servers[gen].FailServer();
    }
  }

  // ------------------------------------------------------------------------
  // What every step keeps

  /** Every issued request is in exactly one of pending or settled; only pending requests have a timer;
      a failed server is dead and has nothing pending. */
  ghost predicate Sound(g: Generation) {
    && g.pending !! g.settled.Keys
    && g.timers == g.pending
    && g.nextId >= 1
    && (forall id: nat :: id in g.pending || id in g.settled <==> 1 <= id < g.nextId)
    && (g.failed ==> g.pending == {} && !g.alive)
  }

  ghost predicate Valid(s: State) {
    && (forall k | 0 <= k < |s| :: Sound(s[k]))
    && forall k | 0 <= k < |s| - 1 :: s[k].failed
  }

  lemma FailSound(g: Generation)
    requires Sound(g) || Sound(g.(alive := true))
    ensures Sound(Fail(g)) || (g.failed && Fail(g) == g)
    ensures Fail(g).failed
  {
  }

  lemma DropSound(g: Generation, id: nat, o: Outcome)
    requires Sound(g) && id in g.pending
    ensures Sound(Drop(g, id, o))
  {
    var d := Drop(g, id, o);
    forall i: nat
      ensures i in d.pending || i in d.settled <==> 1 <= i < d.nextId
    {
    }
  }

  lemma IssueSound(g: Generation, writeFails: bool)
    requires Sound(g)
    ensures var r := Issue(g, writeFails);
      && Sound(r) && r.nextId == g.nextId + 1
      && (if Sends(g, true, writeFails) then r.pending == g.pending + {g.nextId} && r.settled == g.settled
          else r.failed && g.nextId in r.settled && r.settled[g.nextId] == Rejected)
  {
    var r, id := Issue(g, writeFails), g.nextId;
    assert id !in g.pending && id !in g.settled;
    if Sends(g, true, writeFails) {
      assert r.pending == g.pending + {id} && r.settled == g.settled;
    } else {
      assert r.pending == {} && r.settled.Keys == g.settled.Keys + g.pending + {id};
    }
    forall i: nat
      ensures i in r.pending || i in r.settled <==> 1 <= i < r.nextId
    {
      assert i in g.pending || i in g.settled <==> 1 <= i < g.nextId;
    }
  }

  lemma StepKeepsValid(s: State, e: Event)
    requires Valid(s) && Addressed(s, e)
    ensures Valid(Step(s, e))
  {
    match e
    case Start(writeFails) =>
      IssueSound(FRESH, writeFails);
      if s != [] {
        FailSound(s[|s| - 1]);
      }
    case Request(writeFails) => IssueSound(s[|s| - 1], writeFails);
    case Reply(gen, _) => FailSound(s[gen]);
    case Response(gen, id, payload, error) =>
      if id in s[gen].pending {
        DropSound(s[gen], id, OutcomeOf(payload, error));
      }
    case Timeout(gen, id) =>
      if id in s[gen].timers {
        DropSound(s[gen], id, Rejected);
      }
    case Died(_) =>
    case Exit(gen) => FailSound(s[gen].(alive := false));
    case Abandon(gen) => FailSound(s[gen]);
    case PipeError(gen) => FailSound(s[gen]);
  }

  // ------------------------------------------------------------------------
  // Isolation

  function Target(e: Event): nat
    requires !e.Start? && !e.Request?
  {
    e.gen
  }

  /** Nothing that still arrives from a retired server changes anything: no response, exit, pipe error,
      timer or late reply of it touches a request of its replacement. */
  lemma RetiredIsInert(s: State, e: Event)
    requires Valid(s) && Addressed(s, e) && !e.Start? && !e.Request? && Target(e) < |s| - 1
    ensures Step(s, e) == s
  {
    var g := s[Target(e)];
    assert g.failed && Sound(g);
    assert g.(alive := false) == g;
  }

  /** Each step touches one generation; the ids of the others keep their state. */
  lemma StepTouchesOne(s: State, e: Event, k: nat)
    requires Valid(s) && Addressed(s, e) && k < |s|
    ensures |Step(s, e)| >= |s|
    ensures k < |s| - 1 ==> Step(s, e)[k] == s[k]
    ensures e.Start? && |Step(s, e)| > |s| ==> Step(s, e)[|s|] == Started(e.writeFails) && Step(s, e)[|s| - 1].failed
  {
    if k < |s| - 1 && !e.Start? && !e.Request? && Target(e) == k {
      RetiredIsInert(s, e);
    }
  }

  // ------------------------------------------------------------------------
  // Runs

  predicate Possible(es: seq<Event>)
    decreases |es|, 0
  {
    es == [] || (Possible(es[..|es| - 1]) && Addressed(Run(es[..|es| - 1]), es[|es| - 1]))
  }

  function Run(es: seq<Event>): State
    requires Possible(es)
    decreases |es|, 1
  {
    if es == [] then [] else Step(Run(es[..|es| - 1]), es[|es| - 1])
  }

  lemma {:induction false} RunIsValid(es: seq<Event>)
    requires Possible(es)
    ensures Valid(Run(es))
  {
    if es != [] {
      RunIsValid(es[..|es| - 1]);
      StepKeepsValid(Run(es[..|es| - 1]), es[|es| - 1]);
    }
  }

  /** Once the process is gone, with its exit still unreported, the next request finds it out: the server fails, and
      that request and all pending ones are rejected. */
  lemma RequestFindsDeath(s: State, writeFails: bool)
    requires Valid(s) && s != [] && !s[|s| - 1].failed
    ensures var (dead, k) := (Step(s, Died(|s| - 1)), |s| - 1); var r := Step(dead, Request(writeFails));
      && !dead[k].failed && dead[k].pending == s[k].pending
      && r[k].failed && r[k].pending == {}
      && s[k].nextId in r[k].settled && r[k].settled[s[k].nextId] == Rejected
      && forall id | id in s[k].pending :: id in r[k].settled && r[k].settled[id] == Rejected
  {
    var dead := Step(s, Died(|s| - 1));
    IssueSound(dead[|s| - 1], writeFails);
  }

  /** A settled promise keeps its outcome, whatever arrives later. */
  lemma SettledOnce(s: State, e: Event, k: nat, id: nat)
    requires Valid(s) && Addressed(s, e) && k < |s| && id in s[k].settled
    ensures k < |Step(s, e)| && id in Step(s, e)[k].settled && Step(s, e)[k].settled[id] == s[k].settled[id]
  {
    StepTouchesOne(s, e, k);
  }

  /** An answer or an error that a promise got came in a response to that id from the server the request went to,
      while that server was the current one and the request was pending. */
  lemma {:induction false} AnswersAreResponses(es: seq<Event>, k: nat, id: nat) returns (i: nat)
    requires Possible(es) && k < |Run(es)| && id in Run(es)[k].settled && !Run(es)[k].settled[id].Rejected?
    ensures var o := Run(es)[k].settled[id]; i < |es| && es[i] == Response(k, id, o.payload, o.Refused?)
    ensures Possible(es[..i]) && |Run(es[..i])| == k + 1 && id in Run(es[..i])[k].pending
  {
    var front, e := es[..|es| - 1], es[|es| - 1];
    var s := Run(front);
    RunIsValid(front);
    if k < |s| && id in s[k].settled {
      SettledOnce(s, e, k, id);
      i := AnswersAreResponses(front, k, id);
      assert front[..i] == es[..i];
    } else {
      FirstAnswer(s, e, k, id);
      i := |es| - 1;
    }
  }

  lemma FirstAnswer(s: State, e: Event, k: nat, id: nat)
    requires Valid(s) && Addressed(s, e) && k < |Step(s, e)| && (k < |s| ==> id !in s[k].settled)
    requires id in Step(s, e)[k].settled && !Step(s, e)[k].settled[id].Rejected?
    ensures var o := Step(s, e)[k].settled[id];
      e == Response(k, id, o.payload, o.Refused?) && |s| == k + 1 && id in s[k].pending
  {
  }

  // ------------------------------------------------------------------------
  // What an event brings about

  /** The server is gone: what was pending is rejected, and what was settled stays. */
  ghost predicate Gone(g: Generation, r: Generation) {
    && r.failed && !r.alive && r.pending == {} && r.nextId == g.nextId
    && (forall id | id in g.pending :: id in r.settled && r.settled[id] == Rejected)
    && forall id | id in g.settled :: id in r.settled && r.settled[id] == g.settled[id]
  }

  /** An event that ends its server: its exit, an error of its pipe, an initialize request that came to nothing, or a
      reply that cannot be sent. */
  predicate Ends(s: State, e: Event)
    requires Addressed(s, e)
  {
    match e
    case Exit(_) => true
    case PipeError(_) => true
    case Abandon(gen) => 1 in s[gen].settled && !s[gen].settled[1].Answered?
    case Reply(gen, writeFails) => gen != |s| - 1 || !s[gen].alive || writeFails
    case _ => false
  }

  lemma EndedServer(s: State, e: Event)
    requires Valid(s) && Addressed(s, e) && Ends(s, e)
    ensures |Step(s, e)| == |s| && Gone(s[Target(e)], Step(s, e)[Target(e)])
  {
    assert Sound(s[Target(e)]);
  }

  /** A timer rejects its request, a response settles it with what it brought, and the other requests wait on. */
  lemma RequestSettled(s: State, e: Event)
    requires Valid(s) && Addressed(s, e) && (e.Timeout? || e.Response?)
    requires e.gen == |s| - 1 && e.id in s[e.gen].pending
    ensures var (g, r) := (s[e.gen], Step(s, e)[e.gen]);
      && r.pending == g.pending - {e.id} && r.failed == g.failed && r.alive == g.alive && r.nextId == g.nextId
      && r.settled == g.settled[e.id := if e.Timeout? then Rejected
                                        else if e.error then Refused(e.payload) else Answered(e.payload)]
  {
    assert Sound(s[e.gen]);
  }
}
