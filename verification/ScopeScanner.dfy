// The availability scanner at token level: which function names a command line
// may call, with snapshots for conditional scopes, function bodies and braces.

module ScopeScanner {
  import opened Common

  /** A lexed token. Keywords keep their kind everywhere; whether they act depends on the position.
      `Amp(false)` is an ampersand that belongs to a redirection. A header is lexed only where a
      command may start. */
  datatype Kind =
    | Newline | Semi | Amp(terminates: bool) | ListOperator | Open | Close | BranchEnd
    | LBrace | RBrace | If | Then | Elif | Else | Fi | For | While | Do | Done
    | Case | In | Esac | Header | Unset | Unfunction | DashF | DashV | Assignment | Prefix | Word

  /** `direct`: a removal word at a standalone command position, spelled plainly; `wrapped`: one behind a
      wrapper such as `command`; `valid`, `identifier`: the text is usable as a removal operand. */
  datatype Token = Token(kind: Kind, text: string, direct: bool, wrapped: bool, valid: bool, identifier: bool)

  /** The callable names; those of the caller's that are still bound; those the candidate defined. */
  datatype Names = Names(known: set<string>, retained: set<string>, candidate: set<string>)

  datatype ScopeKind = InIf | InLoop | InBranch | InSubshell

  datatype Frame = Frame(kind: ScopeKind, names: Names)
  datatype Body = Body(depth: nat, names: Names)

  /** One brace level; level 0 is the line itself. `saved` is absent for function bodies. */
  datatype Brace = Brace(saved: Option<Names>, definition: bool, listOperator: bool, listDefinition: bool)

  datatype CaseState = AtSelector | AtIn | AtPattern | AtBody

  datatype Mode = NoRemoval | AwaitOption | RemoveNames | RemoveVariables

  datatype State = State(
    names: Names, scopes: seq<Frame>, bodies: seq<Body>, braces: seq<Brace>, cases: seq<CaseState>,
    started: bool, patternDepth: nat, commandStart: bool, compoundEnd: bool,
    ifs: nat, elifs: nat, loops: nat,
    closed: Option<Names>, mode: Mode, background: Option<Names>)

  const LEVEL := Brace(None, false, false, false)

  function Initial(caller: set<string>, candidate: set<string>): State {
    State(Names(caller, caller, candidate * caller), [], [], [LEVEL], [],
          false, 0, true, false, 0, 0, 0, None, NoRemoval, None)
  }

  // ------------------------------------------------------------------------
  // Scopes

  function Push(s: State, kind: ScopeKind): State {
    s.(scopes := s.scopes + [Frame(kind, s.names)])
  }

  predicate Inside(s: State, kind: ScopeKind) {
    s.scopes != [] && s.scopes[|s.scopes| - 1].kind == kind
  }

  function Restore(s: State, kind: ScopeKind): Option<State> {
    if Inside(s, kind) then Some(s.(names := s.scopes[|s.scopes| - 1].names)) else None
  }

  function Pop(s: State, kind: ScopeKind): Option<State> {
    if Inside(s, kind) then Some(s.(names := s.scopes[|s.scopes| - 1].names, scopes := s.scopes[..|s.scopes| - 1]))
    else None
  }

  // ------------------------------------------------------------------------
  // Removals

  predicate Separates(k: Kind) {
    k.Semi? || k.ListOperator? || k.Amp? || k.Open? || k.Close?
  }

  /** A terminating ampersand brings back the names in front of the brace group it sends to the background. */
  function Unbrace(s: State, k: Kind): (r: State)
    ensures r.braces == s.braces
  {
    if s.closed.None? then s
    else if k == Amp(true) then s.(names := s.closed.value, closed := None)
    else if (Separates(k) && !k.Amp?) || k.BranchEnd? then s.(closed := None)
    else s
  }

  /** The same for a removal sent to the background; any separator ends the removal. */
  function Foreground(s: State, k: Kind): (r: State)
    ensures r.braces == s.braces
  {
    var s1 := if k == Amp(true) && s.background.Some? then s.(names := s.background.value) else s;
    if Separates(k) || k.RBrace? then s1.(mode := NoRemoval, background := None) else s1
  }

  function Asynchronous(s: State, k: Kind): (r: State)
    ensures r.braces == s.braces
  {
    Foreground(Unbrace(s, k), k)
  }

  function Without(n: Names, name: string): Names {
    Names(n.known - {name}, n.retained - {name}, n.candidate - {name})
  }

  predicate RemovalSafe(s: State) {
    s.ifs == 0 && s.elifs == 0 && s.loops == 0 && forall i | 0 <= i < |s.scopes| :: s.scopes[i].kind == InSubshell
  }

  /** A token behind a removal word. */
  function Operand(s: State, t: Token): (r: Option<State>)
    ensures r.Some? ==> r.value.braces == s.braces
  {
    if s.mode.AwaitOption? then
      if t.kind.DashF? then Some(s.(mode := RemoveNames, background := Some(s.names)))
      else if t.kind.DashV? then Some(s.(mode := RemoveVariables))
      else None
    else if s.mode.RemoveVariables? then if t.identifier then Some(s) else None
    else if t.valid && RemovalSafe(s) then Some(s.(names := Without(s.names, t.text)))
    else None
  }

  /** A removal word, unless a function of that name shadows it. */
  function Remover(s: State, t: Token): (r: Option<State>)
    ensures r.Some? ==> r.value.braces == s.braces
  {
    if !(t.kind.Unset? || t.kind.Unfunction?) || !(s.commandStart || t.wrapped) then Some(s)
    else if !t.wrapped && t.text in s.names.known then Some(s)
    else if !s.commandStart || !t.direct || t.wrapped then None
    else if t.kind.Unset? then Some(s.(mode := AwaitOption))
    else Some(s.(mode := RemoveNames, background := Some(s.names)))
  }

  function Removal(s: State, t: Token): (r: Option<State>)
    ensures r.Some? ==> r.value.braces == s.braces
  {
    if s.mode.NoRemoval? then Remover(s, t) else Operand(s, t)
  }

  // ------------------------------------------------------------------------
  // Commands

  function Top(s: State): Brace
    requires s.braces != []
  {
    s.braces[|s.braces| - 1]
  }

  function SetTop(s: State, b: Brace): State
    requires s.braces != []
  {
    s.(braces := s.braces[|s.braces| - 1 := b])
  }

  function Define(s: State, name: string): (r: Option<State>)
    requires s.braces != []
    ensures r.Some? ==> r.value.braces != []
  {
    if Top(s).listOperator then None
    else
      var s1 := SetTop(s, Top(s).(listDefinition := true, definition := true));
      var names := s.names.(known := s.names.known + {name}, candidate := s.names.candidate + {name});
      Some(s1.(names := names, braces := s1.braces + [LEVEL], bodies := s1.bodies + [Body(|s1.braces|, names)],
               commandStart := true))
  }

  /** A closing brace ends a function body when one was opened at its depth. */
  function LeaveBody(s: State): (r: State)
    ensures r.braces == s.braces
  {
    if s.bodies != [] && s.bodies[|s.bodies| - 1].depth == |s.braces| - 1 then
      s.(names := s.bodies[|s.bodies| - 1].names, bodies := s.bodies[..|s.bodies| - 1])
    else s
  }

  /** Ends the innermost brace level; one that held a definition makes its surroundings hold one. */
  function EndLevel(s: State): (r: Option<State>)
    requires |s.braces| > 1
    ensures r.Some? ==> r.value.braces != []
  {
    var level := Top(s);
    var outer := s.(braces := s.braces[..|s.braces| - 1], compoundEnd := true);
    if !level.definition then Some(outer)
    else if Top(outer).listOperator then None
    else Some(SetTop(outer, Top(outer).(listDefinition := true, definition := true)))
  }

  function CloseBrace(s: State): (r: Option<State>)
    requires s.braces != []
    ensures r.Some? ==> r.value.braces != []
  {
    if |s.braces| == 1 then None else EndLevel(LeaveBody(s.(closed := Top(s).saved)))
  }

  function Lists(s: State, k: Kind, previousEnd: bool): (r: Option<State>)
    requires s.braces != []
    ensures r.Some? ==> r.value.braces != []
  {
    if k.ListOperator? then
      if Top(s).listDefinition then None else Some(SetTop(s, Top(s).(listOperator := true)))
    else if k.Semi? then Some(SetTop(s, Top(s).(listOperator := false, listDefinition := false)))
    else if k.LBrace? && s.commandStart then Some(s.(braces := s.braces + [LEVEL.(saved := Some(s.names))]))
    else if k.RBrace? && (s.commandStart || previousEnd) then CloseBrace(s)
    else Some(s)
  }

  function Scopes(s: State, k: Kind): (r: Option<State>)
    ensures r.Some? ==> r.value.braces == s.braces
  {
    if k.Open? then Some(Push(s, InSubshell))
    else if k.Close? then Pop(s.(compoundEnd := true), InSubshell)
    else if !s.commandStart then Some(s)
    else
      match k
      case If => Some(s.(ifs := s.ifs + 1))
      case Then =>
        if s.elifs > 0 then if s.scopes == [] then None else Some(s.(elifs := s.elifs - 1))
        else if s.ifs > 0 then Some(Push(s.(ifs := s.ifs - 1), InIf))
        else None
      case Elif =>
        var r := Restore(s, InIf);
        if r.None? then None else Some(r.value.(elifs := s.elifs + 1))
      case Else => Restore(s, InIf)
      case Fi => Pop(s.(compoundEnd := true), InIf)
      case Do => Some(Push(s, InLoop))
      case Done => Pop(s.(compoundEnd := true), InLoop)
      case _ => Some(s)
  }

  function NextStart(commandStart: bool, k: Kind): bool {
    if Separates(k) then true
    else commandStart && (k.Prefix? || k.If? || k.Then? || k.Else? || k.Do? || k.While? || k.LBrace? || k.Assignment?)
  }

  function EndBranch(s: State): (r: Option<State>)
    requires s.cases != []
    ensures r.Some? ==> r.value.braces == s.braces
  {
    var r := Pop(s, InBranch);
    if r.None? then None
    else Some(r.value.(cases := s.cases[|s.cases| - 1 := AtPattern], started := false, patternDepth := 0))
  }

  function EndCase(s: State): (r: State)
    requires s.cases != []
    ensures r.braces == s.braces
  {
    var r := if Inside(s, InBranch) then Pop(s, InBranch).value else s;
    r.(cases := s.cases[..|s.cases| - 1], commandStart := false, compoundEnd := true)
  }

  function Plain(s: State, k: Kind, previousEnd: bool): (r: Option<State>)
    requires s.braces != []
    ensures r.Some? ==> r.value.braces != []
  {
    var s1 := Lists(s, k, previousEnd);
    if s1.None? then None
    else
      var s2 := Scopes(s1.value, k);
      if s2.None? then None else Some(s2.value.(commandStart := NextStart(s.commandStart, k)))
  }

  function Command(s: State, t: Token, previousEnd: bool): (r: Option<State>)
    requires s.braces != []
    ensures r.Some? ==> r.value.braces != []
  {
    var k := t.kind;
    if k.Header? then if s.commandStart then Define(s, t.text) else None
    else if k.Case? && s.commandStart then Some(s.(cases := s.cases + [AtSelector]))
    else if k.BranchEnd? && s.cases != [] then EndBranch(s)
    else if k.Esac? && s.cases != [] && s.commandStart then Some(EndCase(s))
    else Plain(s, k, previousEnd)
  }

  function LoopHeaders(s: State, k: Kind): (r: State)
    ensures r.braces == s.braces
  {
    if s.commandStart && (k.For? || k.While?) then s.(loops := s.loops + 1)
    else if s.commandStart && k.Do? && s.loops > 0 then s.(loops := s.loops - 1)
    else s
  }

  function Pattern(s: State, k: Kind): (r: Option<State>)
    requires s.cases != []
    ensures r.Some? ==> r.value.braces == s.braces
  {
    var (outer, last) := (s.cases[..|s.cases| - 1], |s.cases| - 1);
    if k.Esac? then
      if s.started then None else Some(s.(cases := outer, commandStart := false, compoundEnd := true))
    else if k.Open? then
      Some(s.(patternDepth := if s.started then s.patternDepth + 1 else s.patternDepth, started := true))
    else if k.Close? then
      if s.patternDepth > 0 then Some(s.(patternDepth := s.patternDepth - 1))
      else Some(Push(s.(cases := s.cases[last := AtBody], commandStart := true), InBranch))
    else Some(s.(started := true))
  }

  function Place(s: State): CaseState {
    if s.cases == [] then AtBody else s.cases[|s.cases| - 1]
  }

  function StepBody(s: State, t: Token, previousEnd: bool): (r: Option<State>)
    requires s.braces != []
    ensures r.Some? ==> r.value.braces != []
  {
    var s1 := Removal(Asynchronous(s, t.kind), t);
    if s1.None? then None else Command(LoopHeaders(s1.value, t.kind), t, previousEnd)
  }

  function Step(s: State, t: Token): (r: Option<State>)
    requires s.braces != []
    ensures r.Some? ==> r.value.braces != []
  {
    if t.kind.Newline? then Some(s.(mode := NoRemoval, background := None, closed := None, commandStart := true))
    else
      var s0 := s.(compoundEnd := false);
      match Place(s)
      case AtSelector => Some(s0.(cases := s.cases[|s.cases| - 1 := AtIn]))
      case AtIn =>
        if t.kind.In? then Some(s0.(cases := s.cases[|s.cases| - 1 := AtPattern], started := false, patternDepth := 0))
        else None
      case AtPattern => Pattern(s0, t.kind)
      case AtBody => StepBody(s0, t, s.compoundEnd)
  }

  function Run(s: State, ts: seq<Token>): (r: Option<State>)
    requires s.braces != []
    ensures r.Some? ==> r.value.braces != []
  {
    if ts == [] then Some(s)
    else
      var front := Run(s, ts[..|ts| - 1]);
      if front.None? then None else Step(front.value, ts[|ts| - 1])
  }

  predicate Finished(s: State) {
    s.cases == [] && |s.braces| == 1 && s.scopes == [] && s.ifs == 0 && s.elifs == 0
  }

  predicate Accepts(caller: set<string>, candidate: set<string>, ts: seq<Token>) {
    var r := Run(Initial(caller, candidate), ts);
    r.Some? && Finished(r.value)
  }

  // ------------------------------------------------------------------------
  // Inclusion

  predicate Included(n: Names, caller: set<string>) {
    n.retained <= caller && n.retained <= n.known && n.candidate <= n.known
  }

  predicate IncludedIf(n: Option<Names>, caller: set<string>) {
    n.Some? ==> Included(n.value, caller)
  }

  /** The current names and every snapshot are included. */
  predicate AllIncluded(s: State, caller: set<string>) {
    && Included(s.names, caller)
    && (forall i | 0 <= i < |s.scopes| :: Included(s.scopes[i].names, caller))
    && (forall i | 0 <= i < |s.bodies| :: Included(s.bodies[i].names, caller))
    && (forall i | 0 <= i < |s.braces| :: IncludedIf(s.braces[i].saved, caller))
    && IncludedIf(s.closed, caller) && IncludedIf(s.background, caller)
  }

  lemma AsynchronousIncluded(s: State, k: Kind, caller: set<string>)
    requires AllIncluded(s, caller)
    ensures AllIncluded(Asynchronous(s, k), caller)
  {
    hide AllIncluded, Unbrace, Foreground;
    UnbraceIncluded(s, k, caller);
    ForegroundIncluded(Unbrace(s, k), k, caller);
  }

  lemma UnbraceIncluded(s: State, k: Kind, caller: set<string>)
    requires AllIncluded(s, caller)
    ensures AllIncluded(Unbrace(s, k), caller)
  {
    hide Included;
  }

  lemma ForegroundIncluded(s: State, k: Kind, caller: set<string>)
    requires AllIncluded(s, caller)
    ensures AllIncluded(Foreground(s, k), caller)
  {
    hide Included;
  }

  lemma RemovalIncluded(s: State, t: Token, caller: set<string>)
    requires AllIncluded(s, caller)
    ensures Removal(s, t).Some? ==> AllIncluded(Removal(s, t).value, caller)
  {
    hide Included, Without, RemovalSafe;
    WithoutIncluded(s.names, t.text, caller);
  }

  lemma WithoutIncluded(n: Names, name: string, caller: set<string>)
    requires Included(n, caller)
    ensures Included(Without(n, name), caller)
  {
  }

  lemma LeaveBodyIncluded(s: State, caller: set<string>)
    requires AllIncluded(s, caller)
    ensures AllIncluded(LeaveBody(s), caller)
  {
    hide Included;
  }

  lemma CloseBraceIncluded(s: State, caller: set<string>)
    requires AllIncluded(s, caller) && s.braces != []
    ensures CloseBrace(s).Some? ==> AllIncluded(CloseBrace(s).value, caller)
  {
    hide Included, LeaveBody;
    if |s.braces| > 1 {
      LeaveBodyIncluded(s.(closed := Top(s).saved), caller);
    }
  }

  lemma ListsIncluded(s: State, k: Kind, previousEnd: bool, caller: set<string>)
    requires AllIncluded(s, caller) && s.braces != []
    ensures Lists(s, k, previousEnd).Some? ==> AllIncluded(Lists(s, k, previousEnd).value, caller)
  {
    hide Included, CloseBrace;
    CloseBraceIncluded(s, caller);
  }

  lemma ScopesIncluded(s: State, k: Kind, caller: set<string>)
    requires AllIncluded(s, caller)
    ensures Scopes(s, k).Some? ==> AllIncluded(Scopes(s, k).value, caller)
  {
    hide Included;
  }

  lemma DefineIncluded(s: State, name: string, caller: set<string>)
    requires AllIncluded(s, caller) && s.braces != []
    ensures Define(s, name).Some? ==> AllIncluded(Define(s, name).value, caller)
  {
  }

  lemma EndIncluded(s: State, caller: set<string>)
    requires AllIncluded(s, caller) && s.cases != []
    ensures AllIncluded(EndCase(s), caller) && (EndBranch(s).Some? ==> AllIncluded(EndBranch(s).value, caller))
  {
    hide Included;
  }

  lemma PlainIncluded(s: State, k: Kind, previousEnd: bool, caller: set<string>)
    requires AllIncluded(s, caller) && s.braces != []
    ensures Plain(s, k, previousEnd).Some? ==> AllIncluded(Plain(s, k, previousEnd).value, caller)
  {
    hide Included, Lists, Scopes, NextStart;
    ListsIncluded(s, k, previousEnd, caller);
    if Lists(s, k, previousEnd).Some? {
      ScopesIncluded(Lists(s, k, previousEnd).value, k, caller);
    }
  }

  lemma CommandIncluded(s: State, t: Token, previousEnd: bool, caller: set<string>)
    requires AllIncluded(s, caller) && s.braces != []
    ensures Command(s, t, previousEnd).Some? ==> AllIncluded(Command(s, t, previousEnd).value, caller)
  {
    hide Included, Define, EndBranch, EndCase, Plain;
    DefineIncluded(s, t.text, caller);
    PlainIncluded(s, t.kind, previousEnd, caller);
    if s.cases != [] {
      EndIncluded(s, caller);
    }
  }

  lemma StepBodyIncluded(s: State, t: Token, previousEnd: bool, caller: set<string>)
    requires AllIncluded(s, caller) && s.braces != []
    ensures StepBody(s, t, previousEnd).Some? ==> AllIncluded(StepBody(s, t, previousEnd).value, caller)
  {
    hide Included, Command, Removal, Asynchronous;
    AsynchronousIncluded(s, t.kind, caller);
    RemovalIncluded(Asynchronous(s, t.kind), t, caller);
    var s1 := Removal(Asynchronous(s, t.kind), t);
    if s1.Some? {
      CommandIncluded(LoopHeaders(s1.value, t.kind), t, previousEnd, caller);
    }
  }

  lemma PatternIncluded(s: State, k: Kind, caller: set<string>)
    requires AllIncluded(s, caller) && s.cases != []
    ensures Pattern(s, k).Some? ==> AllIncluded(Pattern(s, k).value, caller)
  {
    hide Included;
  }

  lemma SameIncluded(s: State, r: State, caller: set<string>)
    requires AllIncluded(s, caller)
    requires r.names == s.names && r.scopes == s.scopes && r.bodies == s.bodies && r.braces == s.braces
    requires (r.closed == s.closed && r.background == s.background) || (r.closed.None? && r.background.None?)
    ensures AllIncluded(r, caller)
  {
    hide Included;
  }

  lemma StepIncluded(s: State, t: Token, caller: set<string>)
    requires AllIncluded(s, caller) && s.braces != []
    ensures Step(s, t).Some? ==> AllIncluded(Step(s, t).value, caller)
  {
    hide Included, AllIncluded, StepBody, Pattern;
    var s0 := s.(compoundEnd := false);
    SameIncluded(s, s0, caller);
    if Step(s, t).Some? && (t.kind.Newline? || Place(s).AtSelector? || Place(s).AtIn?) {
      SameIncluded(s, Step(s, t).value, caller);
    }
    StepBodyIncluded(s0, t, s.compoundEnd, caller);
    if s.cases != [] {
      PatternIncluded(s0, t.kind, caller);
    }
  }

  /** In every state of every scan the surviving caller names are the caller's and are known, and the names
      the candidate defined are known; so they are in every snapshot on every stack. */
  lemma {:induction false} RunIncluded(caller: set<string>, candidate: set<string>, ts: seq<Token>)
    ensures var r := Run(Initial(caller, candidate), ts); r.Some? ==> AllIncluded(r.value, caller)
  {
    if ts != [] {
      RunIncluded(caller, candidate, ts[..|ts| - 1]);
      var front := Run(Initial(caller, candidate), ts[..|ts| - 1]);
      if front.Some? {
        StepIncluded(front.value, ts[|ts| - 1], caller);
      }
    }
  }

  // ------------------------------------------------------------------------
  // Scope isolation

  /** The scopes stay, or one more saves the current names, or one less leaves its names current. */
  predicate ScopeMove(before: seq<Frame>, r: State) {
    || r.scopes == before
    || (|r.scopes| == |before| + 1 && r.scopes[..|before|] == before && r.scopes[|before|].names == r.names)
    || (|r.scopes| == |before| - 1 && r.scopes == before[..|r.scopes|] && r.names == before[|r.scopes|].names)
  }

  /** Nothing is pushed or popped. */
  predicate SameStacks(s: State, r: State) {
    r.scopes == s.scopes && r.bodies == s.bodies
  }

  lemma AsynchronousKeeps(s: State, k: Kind)
    ensures SameStacks(s, Asynchronous(s, k))
  {
    hide Foreground;
    ForegroundKeeps(Unbrace(s, k), k);
  }

  lemma ForegroundKeeps(s: State, k: Kind)
    ensures SameStacks(s, Foreground(s, k))
  {
  }

  lemma OperandKeeps(s: State, t: Token)
    ensures Operand(s, t).Some? ==> SameStacks(s, Operand(s, t).value)
  {
    hide Without, RemovalSafe;
  }

  lemma RemovalKeeps(s: State, t: Token)
    ensures Removal(s, t).Some? ==> SameStacks(s, Removal(s, t).value)
  {
    hide Operand;
    OperandKeeps(s, t);
  }

  /** What comes in front of a command leaves the stacks alone. */
  lemma RemovalKeepsStacks(s: State, t: Token)
    ensures SameStacks(s, Asynchronous(s, t.kind))
    ensures Removal(s, t).Some? ==> SameStacks(s, Removal(s, t).value)
  {
    hide Asynchronous, Removal;
    AsynchronousKeeps(s, t.kind);
    RemovalKeeps(s, t);
  }

  lemma CloseBraceKeepsScopes(s: State)
    requires s.braces != []
    ensures CloseBrace(s).Some? ==> CloseBrace(s).value.scopes == s.scopes
  {
  }

  lemma ListsKeepsScopes(s: State, k: Kind, previousEnd: bool)
    requires s.braces != []
    ensures Lists(s, k, previousEnd).Some? ==> Lists(s, k, previousEnd).value.scopes == s.scopes
    ensures Lists(s, k, previousEnd).Some? && !k.RBrace? ==> Lists(s, k, previousEnd).value.names == s.names
  {
    hide CloseBrace;
    CloseBraceKeepsScopes(s);
  }

  lemma ScopesMove(s: State, k: Kind)
    ensures Scopes(s, k).Some? ==> ScopeMove(s.scopes, Scopes(s, k).value)
    ensures Scopes(s, k).Some? && |Scopes(s, k).value.scopes| == |s.scopes| + 1 ==>
              Scopes(s, k).value.names == s.names && (k.Open? || k.Then? || k.Do?)
  {
  }

  lemma PlainMoves(s: State, k: Kind, previousEnd: bool)
    requires s.braces != []
    ensures Plain(s, k, previousEnd).Some? ==> ScopeMove(s.scopes, Plain(s, k, previousEnd).value)
    ensures Plain(s, k, previousEnd).Some? && |Plain(s, k, previousEnd).value.scopes| == |s.scopes| + 1 ==>
              Plain(s, k, previousEnd).value.names == s.names && !k.Amp?
  {
    hide Lists, Scopes, NextStart;
    ListsKeepsScopes(s, k, previousEnd);
    if Lists(s, k, previousEnd).Some? {
      ScopesMove(Lists(s, k, previousEnd).value, k);
    }
  }

  lemma CommandMoves(s: State, t: Token, previousEnd: bool)
    requires s.braces != []
    ensures Command(s, t, previousEnd).Some? ==> ScopeMove(s.scopes, Command(s, t, previousEnd).value)
  {
    hide Plain;
    PlainMoves(s, t.kind, previousEnd);
  }

  lemma StepMoves(s: State, t: Token)
    requires s.braces != []
    ensures Step(s, t).Some? ==> ScopeMove(s.scopes, Step(s, t).value)
  {
    hide Command, Removal, Asynchronous;
    var s0 := s.(compoundEnd := false);
    RemovalKeepsStacks(s0, t);
    RemovalKeepsStacks(Asynchronous(s0, t.kind), t);
    var s1 := Removal(Asynchronous(s0, t.kind), t);
    if s1.Some? {
      CommandMoves(LoopHeaders(s1.value, t.kind), t, s.compoundEnd);
    }
  }

  lemma RunSnoc(s: State, ts: seq<Token>, i: nat)
    requires s.braces != [] && i < |ts|
    ensures var r := Run(s, ts[..i]);
      Run(s, ts[..i + 1]) == if r.None? then None else Step(r.value, ts[i])
  {
    assert ts[..i + 1][..i] == ts[..i];
  }

  lemma OpenerKeepsNames(s: State, t: Token, open: State)
    requires s.braces != [] && Step(s, t) == Some(open) && |open.scopes| == |s.scopes| + 1
    ensures s.mode.NoRemoval? ==> open.names == s.names
  {
    hide Command, Asynchronous, Removal;
    if s.mode.NoRemoval? && !t.kind.Newline? && Place(s).AtBody? {
      var s0 := s.(compoundEnd := false);
      AsynchronousNames(s0, t.kind);
      var s1 := Asynchronous(s0, t.kind);
      RemovalKeepsStacks(s0, t);
      RemovalKeepsStacks(s1, t);
      RemovalNames(s1, t);
      CommandOpens(LoopHeaders(Removal(s1, t).value, t.kind), t, s.compoundEnd);
    }
  }

  lemma AsynchronousNames(s: State, k: Kind)
    requires s.mode.NoRemoval?
    ensures Asynchronous(s, k).mode.NoRemoval? && (k != Amp(true) ==> Asynchronous(s, k).names == s.names)
  {
  }

  lemma RemovalNames(s: State, t: Token)
    requires s.mode.NoRemoval?
    ensures Removal(s, t).Some? ==> Removal(s, t).value.names == s.names
  {
  }

  lemma CommandOpens(s: State, t: Token, previousEnd: bool)
    requires s.braces != []
    ensures var r := Command(s, t, previousEnd);
      r.Some? && |r.value.scopes| == |s.scopes| + 1 ==> r.value.names == s.names && t.kind != Amp(true)
  {
    hide Plain;
    PlainMoves(s, t.kind, previousEnd);
  }

  /** No token of the run takes the scope stack below `level`. */
  ghost predicate StaysAbove(s: State, ts: seq<Token>, level: nat)
    requires s.braces != []
  {
    forall i | 0 <= i <= |ts| :: Run(s, ts[..i]).Some? && |Run(s, ts[..i]).value.scopes| >= level
  }

  lemma {:induction false} FramesKept(s: State, ts: seq<Token>, level: nat, i: nat)
    requires s.braces != [] && StaysAbove(s, ts, level) && level <= |s.scopes| && i <= |ts|
    ensures Run(s, ts[..i]).Some? && |Run(s, ts[..i]).value.scopes| >= level
    ensures Run(s, ts[..i]).value.scopes[..level] == s.scopes[..level]
  {
    hide Step;
    assert Run(s, ts[..i]).Some?;
    if i > 0 {
      FramesKept(s, ts, level, i - 1);
      RunSnoc(s, ts, i - 1);
      assert Run(s, ts[..i]).Some?;
      StepMoves(Run(s, ts[..i - 1]).value, ts[i - 1]);
    }
  }

  /** Whatever happens inside an if, a loop, a case branch or a subshell, after its closer the names are
      again the ones that its opener saved. */
  lemma ScopeIsolates(s: State, opener: Token, open: State, inner: seq<Token>, end: State, closer: Token, after: State)
    requires s.braces != [] && Step(s, opener) == Some(open) && |open.scopes| == |s.scopes| + 1
    requires StaysAbove(open, inner, |s.scopes| + 1) && Run(open, inner) == Some(end)
    requires Step(end, closer) == Some(after) && |after.scopes| == |s.scopes|
    ensures after.names == open.names && after.scopes == s.scopes
    ensures s.mode.NoRemoval? ==> after.names == s.names
  {
    hide Step, Run, StaysAbove;
    var n := |s.scopes|;
    StepMoves(s, opener);
    OpenerKeepsNames(s, opener, open);
    FramesKept(open, inner, n + 1, |inner|);
    assert inner[..|inner|] == inner;
    StepMoves(end, closer);
    assert end.scopes[..n + 1][n] == open.scopes[..n + 1][n];
    assert end.scopes[..n] == end.scopes[..n + 1][..n] == open.scopes[..n + 1][..n];
  }

  // ------------------------------------------------------------------------
  // Removals

  /** The token is an operand of an accepted removal of function names. */
  predicate Removes(s: State, t: Token) {
    !t.kind.Newline? && Place(s).AtBody? && Asynchronous(s, t.kind).mode.RemoveNames?
  }

  /** Names are removed only outside conditionals and loops: every open scope is a subshell. */
  lemma RemovalOnlyDirect(s: State, t: Token)
    requires s.braces != [] && Step(s, t).Some? && Removes(s, t)
    ensures RemovalSafe(s)
  {
    hide Command;
  }

  /** Inside an if, loop or case branch no token removes a name, at whatever depth. */
  lemma NoRemovalInside(s: State, ts: seq<Token>, k: nat, i: nat)
    requires s.braces != [] && k < |s.scopes| && s.scopes[k].kind != InSubshell
    requires StaysAbove(s, ts, k + 1) && i < |ts|
    ensures Run(s, ts[..i]).Some? && !Removes(Run(s, ts[..i]).value, ts[i])
  {
    FramesKept(s, ts, k + 1, i);
    var r := Run(s, ts[..i]).value;
    assert r.scopes[k] == r.scopes[..k + 1][k] == s.scopes[..k + 1][k];
    RunSnoc(s, ts, i);
    assert Run(s, ts[..i + 1]).Some?;
    if Removes(r, ts[i]) {
      RemovalOnlyDirect(r, ts[i]);
      assert false;
    }
  }

  // ------------------------------------------------------------------------
  // Function bodies

  /** The open bodies stay, or one more saves the current names, or one less leaves its names current. */
  predicate BodyMove(before: seq<Body>, r: State) {
    || r.bodies == before
    || (|r.bodies| == |before| + 1 && r.bodies[..|before|] == before && r.bodies[|before|].names == r.names)
    || (|r.bodies| == |before| - 1 && r.bodies == before[..|r.bodies|] && r.names == before[|r.bodies|].names)
  }

  lemma ListsMoveBodies(s: State, k: Kind, previousEnd: bool)
    requires s.braces != []
    ensures Lists(s, k, previousEnd).Some? ==> BodyMove(s.bodies, Lists(s, k, previousEnd).value)
    ensures Lists(s, k, previousEnd).Some? && !k.RBrace? ==> Lists(s, k, previousEnd).value.bodies == s.bodies
  {
  }

  lemma ScopesKeepBodies(s: State, k: Kind)
    ensures Scopes(s, k).Some?
        ==> Scopes(s, k).value.bodies == s.bodies && (k.RBrace? ==> Scopes(s, k).value.names == s.names)
  {
  }

  lemma PlainMovesBodies(s: State, k: Kind, previousEnd: bool)
    requires s.braces != []
    ensures Plain(s, k, previousEnd).Some? ==> BodyMove(s.bodies, Plain(s, k, previousEnd).value)
  {
    hide Lists, Scopes, NextStart;
    ListsMoveBodies(s, k, previousEnd);
    if Lists(s, k, previousEnd).Some? {
      ScopesKeepBodies(Lists(s, k, previousEnd).value, k);
    }
  }

  lemma CommandMovesBodies(s: State, t: Token, previousEnd: bool)
    requires s.braces != []
    ensures Command(s, t, previousEnd).Some? ==> BodyMove(s.bodies, Command(s, t, previousEnd).value)
  {
    hide Plain;
    PlainMovesBodies(s, t.kind, previousEnd);
  }

  lemma StepMovesBodies(s: State, t: Token)
    requires s.braces != []
    ensures Step(s, t).Some? ==> BodyMove(s.bodies, Step(s, t).value)
  {
    hide Command, Removal, Asynchronous;
    var s0 := s.(compoundEnd := false);
    RemovalKeepsStacks(s0, t);
    RemovalKeepsStacks(Asynchronous(s0, t.kind), t);
    var s1 := Removal(Asynchronous(s0, t.kind), t);
    if s1.Some? {
      CommandMovesBodies(LoopHeaders(s1.value, t.kind), t, s.compoundEnd);
    }
  }

  /** No token of the run closes one of the first `level` function bodies. */
  ghost predicate StaysInBody(s: State, ts: seq<Token>, level: nat)
    requires s.braces != []
  {
    forall i | 0 <= i <= |ts| :: Run(s, ts[..i]).Some? && |Run(s, ts[..i]).value.bodies| >= level
  }

  lemma {:induction false} BodiesKept(s: State, ts: seq<Token>, level: nat, i: nat)
    requires s.braces != [] && StaysInBody(s, ts, level) && level <= |s.bodies| && i <= |ts|
    ensures Run(s, ts[..i]).Some? && |Run(s, ts[..i]).value.bodies| >= level
    ensures Run(s, ts[..i]).value.bodies[..level] == s.bodies[..level]
  {
    hide Step;
    assert Run(s, ts[..i]).Some?;
    if i > 0 {
      BodiesKept(s, ts, level, i - 1);
      RunSnoc(s, ts, i - 1);
      assert Run(s, ts[..i]).Some?;
      StepMovesBodies(Run(s, ts[..i - 1]).value, ts[i - 1]);
    }
  }

  /** A body defines nothing for the line that holds it: after the closing brace the names are the ones
      right after the header, the function itself included. */
  lemma BodyIsolates(s: State, header: Token, open: State, inner: seq<Token>, end: State, closer: Token, after: State)
    requires s.braces != [] && Step(s, header) == Some(open) && |open.bodies| == |s.bodies| + 1
    requires StaysInBody(open, inner, |s.bodies| + 1) && Run(open, inner) == Some(end)
    requires Step(end, closer) == Some(after) && |after.bodies| == |s.bodies|
    ensures after.names == open.names && after.bodies == s.bodies
  {
    hide Step, Run, StaysInBody;
    var n := |s.bodies|;
    StepMovesBodies(s, header);
    BodiesKept(open, inner, n + 1, |inner|);
    assert inner[..|inner|] == inner;
    StepMovesBodies(end, closer);
    assert end.bodies[..n + 1][n] == open.bodies[..n + 1][n];
    assert end.bodies[..n] == end.bodies[..n + 1][..n] == open.bodies[..n + 1][..n];
  }
}
