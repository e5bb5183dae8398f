// The buffered exchange with a provider: a tool loop whose every logical request
// is one post, and every post a few HTTP sends. The provider is an arbitrary
// function of the send number, so it may answer each send as it likes.

module Exchange {
  import opened Common

  /** A field of a call as the provider states it: absent or null, a string, or another JSON value in text form. */
  datatype Field = Absent | Text(s: string) | Json(text: string)

  /** One tool call; `nul` when a field carries a NUL. */
  datatype Call = Call(id: Field, name: Field, nul: bool)

  /** What the shell holds of a field: raw output, captured. */
  function Raw(f: Field): string {
    match f
    case Absent => "null"
    case Text(s) => Captured(s)
    case Json(text) => text
  }

  datatype Msg =
    | System
    | User
    | Assistant(calls: seq<Call>)
    | Tool(id: string, name: string, skipped: bool)

  /** What a response holds: native calls, calls asked for in text, and what the
      later decisions read from it. */
  datatype Body = Body(native: seq<Call>, asked: seq<Call>, content: bool, emptyRetryable: bool, retryWorthy: bool)

  /** The answer to one send; `code` 0 is a transport failure. The named fields say
      what the error text mentions. */
  datatype Reply = Reply(code: nat, accepted: bool, structured: bool, storeNamed: bool,
                         tokensNamed: bool, responsesNamed: bool, body: Body)

  datatype Source = Native | InText

  /** One tool turn: the native calls of the assistant turn, the calls that were run, how many tools had been executed
      before, and whether the tools were run at all. */
  datatype Turn = Turn(source: Source, native: seq<Call>, calls: seq<Call>, before: nat, ran: bool)

  /** Where a tool turn comes from: the answer to a send, or a streamed round. */
  datatype Origin = Sent(k: nat) | Heard(j: nat)

  /** What one streamed round brings: the text and the calls that were collected, whether the turn could be stored,
      and whether the request was sent again without usage options because nothing came. */
  datatype Streamed = Streamed(text: string, sawData: bool, complete: bool, native: seq<Call>, asked: seq<Call>,
                               appended: bool, again: bool)

  datatype ToolMode = NoTools | Openai | TextProtocol | Auto
  datatype Format = Chat | Responses | Messages

  datatype Config = Config(mode: ToolMode, chatgpt: bool, search: bool, format: Format, toolsEnabled: bool,
                           rounds: nat, callsPerRound: nat, retries: nat,
                           summarize: bool, storeFallback: bool, commands: bool)

  /** A request, written when the tool turns of `origins` had been taken; its history holds those from `from` on. */
  datatype Payload = Payload(msgs: seq<Msg>, origins: seq<Origin>, from: nat, format: Format, tools: bool, search: bool,
                             store: bool, tokens: bool)

  /** Everything outside: the provider's answers, the streams, failing tools, how many of the waiting calls a tool
      reads from the standard input that it inherits and what the loop makes of a line it stopped in, long histories.
      Tools are numbered in the order of their execution. */
  datatype World = World(provider: nat -> Reply, streams: nat -> Streamed, toolFails: nat -> bool,
                         swallows: nat -> nat, tears: nat -> Option<Call>, historyLong: nat -> bool)

  /** The run so far: the conversation and where its tool turns come from, all sends, all logical requests and for
      each of them the number of its last send. */
  datatype Run = Run(msgs: seq<Msg>, origins: seq<Origin>, from: nat, format: Format, requested: bool,
                     http: seq<Payload>, posts: seq<Payload>, answers: seq<nat>, executed: nat)

  /** The engine refuses local tools on the subscription route before it starts. */
  predicate Admitted(c: Config) {
    c.chatgpt ==> c.mode == NoTools
  }

  predicate RepeatAllowed(c: Config) {
    !c.chatgpt && !c.search
  }

  predicate Transient(r: Reply) {
    r.code == 0 || r.code == 429 || r.code == 502 || r.code == 503 || r.code == 504
  }

  predicate Success(code: nat) {
    200 <= code < 300
  }

  function WritePayload(c: Config, r: Run, msgs: seq<Msg>, from: nat, withTools: bool): Payload {
    var native := c.mode == Openai || c.mode == Auto;
    var search := c.search && r.format == Responses && !r.requested;
    Payload(msgs, r.origins, from, r.format,
            (withTools && c.toolsEnabled && native && r.format != Messages && !c.chatgpt) || search,
            search, r.format != Messages, !c.chatgpt)
  }

  /** What a request carries: tools of its own only where the mode, the format and the route allow them; a search at
      most once in an exchange; no store field on the messages format and no token fields on the subscription route. */
  lemma RequestCarries(c: Config, r: Run, ms: seq<Msg>, from: nat)
    ensures var p := WritePayload(c, r, ms, from, true);
      var local := c.toolsEnabled && !c.chatgpt && (c.mode == Openai || c.mode == Auto);
      && p.msgs == ms && p.origins == r.origins && p.from == from && p.format == r.format
      && (local && (r.format == Chat || r.format == Responses) ==> p.tools)
      && (!local || r.format == Messages ==> (p.tools <==> p.search))
      && (p.search <==> c.search && !r.requested && r.format == Responses)
      && (p.store <==> r.format == Chat || r.format == Responses) && (p.tokens <==> !c.chatgpt)
    ensures var (p, q) := (WritePayload(c, r, ms, from, true), WritePayload(c, r, ms, from, false));
      q == p.(tools := p.search)
  {
  }

  // ------------------------------------------------------------------------
  // One post

  /** A send on behalf of `p` differs from it in the fields that providers reject, and adds no tools. */
  predicate Variant(q: Payload, p: Payload) {
    && q == p.(format := q.format, tools := q.tools, store := q.store, tokens := q.tokens)
    && (q.tools ==> p.tools) && (q.tokens ==> p.tokens)
  }

  /** The number of the last of up to `left` + 1 equal sends, the first of which has number `first`: a transient answer
      is asked for again. */
  function LastOf(w: World, first: nat, left: nat): (last: nat)
    ensures first <= last <= first + left && (Transient(w.provider(last)) ==> last == first + left)
    ensures forall i | first <= i < last :: Transient(w.provider(i))
    decreases left
  {
    if left == 0 || !Transient(w.provider(first)) then first else LastOf(w, first + 1, left - 1)
  }

  /** The provider's answer number `k` is a success, and what it holds was accepted. */
  predicate Accepted(w: World, k: nat) {
    Success(w.provider(k).code) && w.provider(k).accepted
  }

  method SendWithRetry(c: Config, w: World, http: seq<Payload>, p: Payload)
      returns (http': seq<Payload>, meta: nat, last: Reply)
    ensures |http| < |http'| <= |http| + c.retries + 1 && http <= http'
    ensures forall i | |http| <= i < |http'| :: http'[i] == p
    ensures last == w.provider(|http'| - 1) && meta == last.code
    ensures |http'| - 1 == LastOf(w, |http|, c.retries)
  {
    http' := http;
    var attempt := 0;
    while true
      invariant 0 <= attempt <= c.retries && |http'| == |http| + attempt && http <= http'
      invariant forall i | |http| <= i < |http'| :: http'[i] == p
      invariant LastOf(w, |http'|, c.retries - attempt) == LastOf(w, |http|, c.retries)
      decreases c.retries - attempt
    {
      last := w.provider(|http'|);
      http' := http' + [p];
      meta := last.code;
      if !Transient(last) || attempt >= c.retries { return; }
      attempt := attempt + 1;
    }
  }

  /** What one post may do to a run: it stops at the first success, and only that can be accepted. */
  ghost predicate Posted(c: Config, w: World, r: Run, p: Payload, r': Run, ok: bool, body: Body) {
    && r'.msgs == r.msgs && r'.origins == r.origins && r'.from == r.from && r'.executed == r.executed
    && r'.posts == r.posts + [p] && |r'.http| > 0 && r'.answers == r.answers + [|r'.http| - 1]
    && r'.requested == (r.requested || p.search)
    && (r'.format == r.format || (r.format == Chat && r'.format == Responses && RepeatAllowed(c)))
    && r.http < r'.http
    && |r'.http| - |r.http| <= (if RepeatAllowed(c) then 5 else 1) * (c.retries + 1)
    && (forall i | |r.http| <= i < |r'.http| :: Variant(r'.http[i], p))
    && (forall i | |r.http| <= i < |r'.http| - 1 :: !Success(w.provider(i).code))
    && (ok <==> Accepted(w, |r'.http| - 1)) && (ok ==> body == w.provider(|r'.http| - 1).body)
    && Mended(c, w, r, p, r'.http)
  }

  /** The provider refuses the request as such, in an error that can be read, on a route where a request may be
      repeated. */
  predicate Refused(c: Config, reply: Reply) {
    RepeatAllowed(c) && reply.code == 400 && reply.structured
  }

  /** What the error names and the request can do without, or say otherwise. */
  predicate StoreNamed(c: Config, p: Payload, reply: Reply) {
    Refused(c, reply) && p.store && reply.storeNamed && c.storeFallback
  }

  predicate TokensNamed(c: Config, r: Run, p: Payload, reply: Reply) {
    Refused(c, reply) && r.format != Messages && p.tokens && reply.tokensNamed
  }

  predicate ResponsesNamed(c: Config, r: Run, reply: Reply) {
    Refused(c, reply) && r.format == Chat && reply.responsesNamed
  }

  predicate ToolsOptional(c: Config, p: Payload, reply: Reply) {
    Refused(c, reply) && c.mode == Auto && p.tools
  }

  /** There is nothing to change. */
  predicate Untouched(c: Config, r: Run, p: Payload, reply: Reply) {
    && !StoreNamed(c, p, reply) && !TokensNamed(c, r, p, reply)
    && !ResponsesNamed(c, r, reply) && !ToolsOptional(c, p, reply)
  }

  /** `q` is the request with the first change that the error names; without one it goes without its tools. */
  predicate FirstChange(c: Config, r: Run, p: Payload, reply: Reply, q: Payload) {
    if StoreNamed(c, p, reply) then q == p.(store := false)
    else if TokensNamed(c, r, p, reply) then q == p.(tokens := p.format != Chat)
    else if ResponsesNamed(c, r, reply) then q == p.(format := Responses, store := true)
    else ToolsOptional(c, p, reply) && q == p.(tools := false)
  }

  /** The first sends are those of the request itself, repeated while the answer is transient. More follow exactly when
      there is something to change, and they begin with the first change. */
  ghost predicate Mended(c: Config, w: World, r: Run, p: Payload, http: seq<Payload>) {
    var last := LastOf(w, |r.http|, c.retries);
    var reply := w.provider(last);
    && last < |http| && (forall i | |r.http| <= i <= last :: http[i] == p)
    && (|http| == last + 1 <==> Untouched(c, r, p, reply))
    && (|http| > last + 1 ==> FirstChange(c, r, p, reply, http[last + 1]))
  }

  /** Only the request itself was sent so far. */
  ghost predicate Unmended(c: Config, w: World, r: Run, p: Payload, http: seq<Payload>) {
    && |http| == LastOf(w, |r.http|, c.retries) + 1
    && (forall i | |r.http| <= i < |http| :: http[i] == p)
  }

  /** The sends of a post so far: the original and `used` fallbacks. */
  ghost predicate Sending(c: Config, w: World, r: Run, p: Payload, http: seq<Payload>, used: nat) {
    && r.http < http && |http| - |r.http| <= (used + 1) * (c.retries + 1)
    && (forall i | |r.http| <= i < |http| :: Variant(http[i], p))
    && (forall i | |r.http| <= i < |http| - 1 :: !Success(w.provider(i).code))
    && (if used == 0 then Unmended(c, w, r, p, http)
        else Mended(c, w, r, p, http) && |http| > LastOf(w, |r.http|, c.retries) + 1)
  }

  lemma ChangeHelps(c: Config, r: Run, p: Payload, reply: Reply, q: Payload)
    ensures FirstChange(c, r, p, reply, q) ==> !Untouched(c, r, p, reply)
  {
  }

  lemma MendedMore(c: Config, w: World, r: Run, p: Payload, http: seq<Payload>, http': seq<Payload>, used: nat)
    requires Sending(c, w, r, p, http, used) && http < http'
    requires used == 0 ==> FirstChange(c, r, p, w.provider(|http| - 1), http'[|http|])
    ensures Mended(c, w, r, p, http') && |http'| > LastOf(w, |r.http|, c.retries) + 1
  {
    hide Variant, LastOf, FirstChange, Untouched, Success;
    forall i | 0 <= i < |http|
      ensures http'[i] == http[i]
    {
    }
    ChangeHelps(c, r, p, w.provider(|http| - 1), http'[|http|]);
  }

  /** A fallback: one more round of sends with a variant of the payload. */
  method Fallback(c: Config, w: World, ghost r: Run, ghost p: Payload, http: seq<Payload>, q: Payload, ghost used: nat)
      returns (http': seq<Payload>, meta: nat, last: Reply)
    requires Sending(c, w, r, p, http, used) && Variant(q, p) && !Success(w.provider(|http| - 1).code)
    requires used == 0 ==> FirstChange(c, r, p, w.provider(|http| - 1), q)
    ensures Sending(c, w, r, p, http', used + 1) && http' != []
    ensures last == w.provider(|http'| - 1) && meta == last.code
  {
    hide Variant, LastOf, FirstChange, Untouched;
    http', meta, last := SendWithRetry(c, w, http, q);
    assert (used + 2) * (c.retries + 1) == (used + 1) * (c.retries + 1) + (c.retries + 1);
    forall i | |r.http| <= i < |http'|
      ensures Variant(http'[i], p)
    {
      if i < |http| { assert http'[i] == http[i]; }
    }
    MendedMore(c, w, r, p, http, http', used);
  }

  /** The run after a post that made the sends `http`. */
  function After(r: Run, p: Payload, http: seq<Payload>, format: Format): Run
    requires http != []
  {
    r.(requested := r.requested || p.search, posts := r.posts + [p], answers := r.answers + [|http| - 1],
       http := http, format := format)
  }

  lemma Repeated(c: Config, w: World, r: Run, p: Payload, http: seq<Payload>, used: nat,
          format: Format, ok: bool, body: Body)
    requires Sending(c, w, r, p, http, used) && used <= 4 && RepeatAllowed(c)
    requires format == r.format || (r.format == Chat && format == Responses)
    requires used == 0 ==> Untouched(c, r, p, w.provider(|http| - 1))
    requires (ok <==> Accepted(w, |http| - 1)) && (ok ==> body == w.provider(|http| - 1).body)
    ensures Posted(c, w, r, p, After(r, p, http, format), ok, body)
  {
    MoreSends(used, c.retries);
  }

  lemma MoreSends(used: nat, retries: nat)
    requires used <= 4
    ensures (used + 1) * (retries + 1) <= 5 * (retries + 1)
  {
  }

  /** The sends of the request itself. */
  lemma FirstSends(c: Config, w: World, r: Run, p: Payload, http: seq<Payload>)
    requires r.http < http && |http| == LastOf(w, |r.http|, c.retries) + 1
    requires forall i | |r.http| <= i < |http| :: http[i] == p
    ensures Sending(c, w, r, p, http, 0)
  {
    hide LastOf;
  }

  /** A request that is not repeated. */
  lemma Unrepeated(c: Config, w: World, r: Run, p: Payload, http: seq<Payload>, ok: bool, body: Body)
    requires Sending(c, w, r, p, http, 0) && (w.provider(|http| - 1).code != 400 || !RepeatAllowed(c))
    requires (ok <==> Accepted(w, |http| - 1)) && (ok ==> body == w.provider(|http| - 1).body)
    ensures Posted(c, w, r, p, After(r, p, http, r.format), ok, body)
  {
    hide LastOf, Variant, Transient, Success;
  }

  /** One logical request: it succeeds exactly when the last answer is a success that was accepted. */
  method PostChat(c: Config, w: World, r: Run, p: Payload) returns (r': Run, ok: bool, body: Body)
    ensures Posted(c, w, r, p, r', ok, body)
  {
    hide Posted, Sending, After, RepeatAllowed, LastOf, Transient;
    var http, code, last := SendWithRetry(c, w, r.http, p);
    FirstSends(c, w, r, p, http);
    if code == 0 {
      Unrepeated(c, w, r, p, http, false, last.body);
      return After(r, p, http, r.format), false, last.body;
    }
    if Success(code) {
      Unrepeated(c, w, r, p, http, last.accepted, last.body);
      return After(r, p, http, r.format), last.accepted, last.body;
    }
    if !RepeatAllowed(c) {
      Unrepeated(c, w, r, p, http, false, last.body);
      return After(r, p, http, r.format), false, last.body;
    }
    r', ok, body := PostAgain(c, w, r, p, http, code, last);
  }

  /** The compatibility fallbacks, each at most once, in order. */
  method PostAgain(c: Config, w: World, r: Run, p: Payload, http0: seq<Payload>, code0: nat, last0: Reply)
      returns (r': Run, ok: bool, body: Body)
    requires Sending(c, w, r, p, http0, 0) && RepeatAllowed(c) && http0 != []
    requires last0 == w.provider(|http0| - 1) && code0 == last0.code && !Success(code0)
    ensures Posted(c, w, r, p, r', ok, body)
  {
    hide Posted, Sending, After, RepeatAllowed;
    var http, code, last, q := http0, code0, last0, p;
    var meta;
    ghost var used := 0;
    if code == 400 && q.store && last.structured && last.storeNamed && c.storeFallback {
      var q' := q.(store := false);
      http, meta, last := Fallback(c, w, r, p, http, q', used);
      used := used + 1;
      if meta != 0 {
        code := meta;
        if Success(code) {
          Repeated(c, w, r, p, http, used, r.format, last.accepted, last.body);
          return After(r, p, http, r.format), last.accepted, last.body;
        }
        q := q';
      }
    }
    if code == 400 && r.format != Messages && q.tokens && last.structured && last.tokensNamed {
      var q' := q.(tokens := q.format != Chat);
      http, meta, last := Fallback(c, w, r, p, http, q', used);
      used := used + 1;
      if meta != 0 {
        code := meta;
        if Success(code) {
          Repeated(c, w, r, p, http, used, r.format, last.accepted, last.body);
          return After(r, p, http, r.format), last.accepted, last.body;
        }
        q := q';
      }
    }
    r', ok, body := PostConverted(c, w, r, p, http, code, last, q, used);
  }

  /** The last fallbacks: the Responses form of the request, then the request without tools. */
  method PostConverted(c: Config, w: World, r: Run, p: Payload, http0: seq<Payload>, code: nat,
          last0: Reply, q: Payload, ghost used0: nat)
      returns (r': Run, ok: bool, body: Body)
    requires Sending(c, w, r, p, http0, used0) && used0 <= 2 && RepeatAllowed(c) && http0 != [] && Variant(q, p)
    requires !Success(w.provider(|http0| - 1).code)
    requires used0 == 0 ==> q == p && last0 == w.provider(|http0| - 1) && code == last0.code
    requires used0 == 0 ==> !StoreNamed(c, p, last0) && !TokensNamed(c, r, p, last0)
    ensures Posted(c, w, r, p, r', ok, body)
  {
    hide Posted, Sending, After, RepeatAllowed;
    var http, last := http0, last0;
    var meta;
    ghost var used := used0;
    if code == 400 && r.format == Chat && last.structured && last.responsesNamed {
      var original := last;
      http, meta, last := Fallback(c, w, r, p, http, q.(format := Responses, store := true), used);
      used := used + 1;
      if meta != 0 {
        if Success(meta) {
          var format := if last.accepted then Responses else r.format;
          Repeated(c, w, r, p, http, used, format, last.accepted, last.body);
          return After(r, p, http, format), last.accepted, last.body;
        }
        last := original;
      }
    }
    if code == 400 && c.mode == Auto && last.structured && q.tools {
      http, meta, last := Fallback(c, w, r, p, http, q.(tools := false), used);
      used := used + 1;
      if Success(meta) {
        Repeated(c, w, r, p, http, used, r.format, last.accepted, last.body);
        return After(r, p, http, r.format), last.accepted, last.body;
      }
    }
    Repeated(c, w, r, p, http, used, r.format, false, last.body);
    return After(r, p, http, r.format), false, last.body;
  }
}
