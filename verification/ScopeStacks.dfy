// The scanner's loop in place: three name lists, and for every scope, function
// body and brace three snapshots on parallel stacks, updated token by token.

module ScopeStacks {
  import opened Common
  import opened ScopeScanner

  /** Parallel stacks read as one stack of frames. */
  function Frames(kinds: seq<ScopeKind>, known: seq<set<string>>,
          retained: seq<set<string>>, candidate: seq<set<string>>): seq<Frame>
  {
    if |kinds| == |known| == |retained| == |candidate| then
      seq(|kinds|, i requires 0 <= i < |kinds| => Frame(kinds[i], Names(known[i], retained[i], candidate[i])))
    else []
  }

  function Bodies(depths: seq<nat>, known: seq<set<string>>,
          retained: seq<set<string>>, candidate: seq<set<string>>): seq<Body>
  {
    if |depths| == |known| == |retained| == |candidate| then
      seq(|depths|, i requires 0 <= i < |depths| => Body(depths[i], Names(known[i], retained[i], candidate[i])))
    else []
  }

  lemma FramesPush(kinds: seq<ScopeKind>, known: seq<set<string>>, retained: seq<set<string>>,
          candidate: seq<set<string>>,
                   kind: ScopeKind, n: Names)
    requires |kinds| == |known| == |retained| == |candidate|
    ensures Frames(kinds + [kind], known + [n.known], retained + [n.retained], candidate + [n.candidate])
         == Frames(kinds, known, retained, candidate) + [Frame(kind, n)]
  {
  }

  lemma FramesTop(kinds: seq<ScopeKind>, known: seq<set<string>>, retained: seq<set<string>>,
          candidate: seq<set<string>>)
    requires |kinds| == |known| == |retained| == |candidate|
    ensures var f, top := Frames(kinds, known, retained, candidate), |kinds| - 1;
      && |f| == |kinds|
      && (top >= 0 ==> f[top] == Frame(kinds[top], Names(known[top], retained[top], candidate[top]))
                       && Frames(kinds[..top], known[..top], retained[..top], candidate[..top]) == f[..top])
  {
  }

  lemma BodiesPush(depths: seq<nat>, known: seq<set<string>>, retained: seq<set<string>>, candidate: seq<set<string>>,
                   depth: nat, n: Names)
    requires |depths| == |known| == |retained| == |candidate|
    ensures Bodies(depths + [depth], known + [n.known], retained + [n.retained], candidate + [n.candidate])
         == Bodies(depths, known, retained, candidate) + [Body(depth, n)]
  {
  }

  lemma BodiesTop(depths: seq<nat>, known: seq<set<string>>, retained: seq<set<string>>, candidate: seq<set<string>>)
    requires |depths| == |known| == |retained| == |candidate|
    ensures var f, top := Bodies(depths, known, retained, candidate), |depths| - 1;
      && |f| == |depths|
      && (top >= 0 ==> f[top] == Body(depths[top], Names(known[top], retained[top], candidate[top]))
                       && Bodies(depths[..top], known[..top], retained[..top], candidate[..top]) == f[..top])
  {
  }

  class Scan {
    var functions: set<string>
    var retained: set<string>
    var candidate: set<string>
    var scopeKind: seq<ScopeKind>
    var scopeSaved: seq<set<string>>
    var retainedScopeSaved: seq<set<string>>
    var candidateScopeSaved: seq<set<string>>
    var functionScopeDepth: seq<nat>
    var functionScopeSaved: seq<set<string>>
    var retainedFunctionScopeSaved: seq<set<string>>
    var candidateFunctionScopeSaved: seq<set<string>>
    var braces: seq<Brace>
    var cases: seq<CaseState>
    var patternStarted: bool
    var patternDepth: nat
    var commandStart: bool
    var compoundEnd: bool
    var ifPending: nat
    var elifPending: nat
    var loopPending: nat
    var closedBrace: Option<Names>
    var removalMode: Mode
    var background: Option<Names>

    ghost predicate Parallel()
      reads this
    {
      && |scopeKind| == |scopeSaved| == |retainedScopeSaved| == |candidateScopeSaved|
      && |functionScopeDepth| == |functionScopeSaved| == |retainedFunctionScopeSaved| == |candidateFunctionScopeSaved|
    }

    ghost function Current(): Names
      reads this`functions, this`retained, this`candidate
    {
      Names(functions, retained, candidate)
    }

    ghost function ScopeStack(): seq<Frame>
      reads this`scopeKind, this`scopeSaved, this`retainedScopeSaved, this`candidateScopeSaved
    {
      Frames(scopeKind, scopeSaved, retainedScopeSaved, candidateScopeSaved)
    }

    ghost function BodyStack(): seq<Body>
      reads this`functionScopeDepth, this`functionScopeSaved
      reads this`retainedFunctionScopeSaved, this`candidateFunctionScopeSaved
    {
      Bodies(functionScopeDepth, functionScopeSaved, retainedFunctionScopeSaved, candidateFunctionScopeSaved)
    }

    ghost function View(): State
      reads this
    {
      State(Current(), ScopeStack(), BodyStack(),
            braces, cases, patternStarted, patternDepth, commandStart, compoundEnd,
            ifPending, elifPending, loopPending, closedBrace, removalMode, background)
    }

    constructor (caller: set<string>, provenance: set<string>)
      ensures Parallel() && View() == Initial(caller, provenance)
    {
      functions, retained, candidate := caller, caller, provenance * caller;
      scopeKind, scopeSaved, retainedScopeSaved, candidateScopeSaved := [], [], [], [];
      functionScopeDepth, functionScopeSaved, retainedFunctionScopeSaved, candidateFunctionScopeSaved := [], [], [], [];
      braces, cases := [LEVEL], [];
      patternStarted, patternDepth, commandStart, compoundEnd := false, 0, true, false;
      ifPending, elifPending, loopPending := 0, 0, 0;
      closedBrace, removalMode, background := None, NoRemoval, None;
    }

    // ---- the stacks

    method SetNames(n: Names)
      modifies this`functions, this`retained, this`candidate
      ensures Current() == n
    {
      functions, retained, candidate := n.known, n.retained, n.candidate;
    }

    method PushFrame(kind: ScopeKind)
      requires Parallel()
      modifies this`scopeKind, this`scopeSaved, this`retainedScopeSaved, this`candidateScopeSaved
      ensures Parallel() && ScopeStack() == old(ScopeStack()) + [Frame(kind, Current())]
    {
      hide Frames;
      FramesPush(scopeKind, scopeSaved, retainedScopeSaved, candidateScopeSaved, kind, Current());
      scopeSaved := scopeSaved + [functions];
      retainedScopeSaved := retainedScopeSaved + [retained];
      candidateScopeSaved := candidateScopeSaved + [candidate];
      scopeKind := scopeKind + [kind];
    }

    method LoadFrame()
      requires Parallel() && scopeKind != []
      modifies this`functions, this`retained, this`candidate
      ensures ScopeStack() != [] && Current() == ScopeStack()[|ScopeStack()| - 1].names
    {
      hide Frames;
      FramesTop(scopeKind, scopeSaved, retainedScopeSaved, candidateScopeSaved);
      var top := |scopeKind| - 1;
      functions, retained, candidate := scopeSaved[top], retainedScopeSaved[top], candidateScopeSaved[top];
    }

    method DropFrame()
      requires Parallel() && scopeKind != []
      modifies this`scopeKind, this`scopeSaved, this`retainedScopeSaved, this`candidateScopeSaved
      ensures Parallel() && old(ScopeStack()) != [] && ScopeStack() == old(ScopeStack())[..|old(ScopeStack())| - 1]
    {
      hide Frames;
      FramesTop(scopeKind, scopeSaved, retainedScopeSaved, candidateScopeSaved);
      var top := |scopeKind| - 1;
      scopeSaved := scopeSaved[..top];
      retainedScopeSaved := retainedScopeSaved[..top];
      candidateScopeSaved := candidateScopeSaved[..top];
      scopeKind := scopeKind[..top];
    }

    lemma Fields()
      ensures var s := View();
        && s.braces == braces && s.cases == cases && s.started == patternStarted && s.patternDepth == patternDepth
        && s.commandStart == commandStart && s.compoundEnd == compoundEnd && s.ifs == ifPending
        && s.elifs == elifPending && s.loops == loopPending && s.closed == closedBrace
        && s.mode == removalMode && s.background == background
    {
      hide ScopeStack, Current, BodyStack;
    }

    lemma TopScope()
      requires Parallel()
      ensures |ScopeStack()| == |scopeKind|
      ensures scopeKind != [] ==> ScopeStack()[|scopeKind| - 1].kind == scopeKind[|scopeKind| - 1]
    {
    }

    method PushScope(kind: ScopeKind)
      requires Parallel()
      modifies this`scopeKind, this`scopeSaved, this`retainedScopeSaved, this`candidateScopeSaved
      ensures Parallel() && View() == Push(old(View()), kind)
    {
      hide ScopeStack, Current, BodyStack;
      PushFrame(kind);
    }

    method RestoreScope(kind: ScopeKind) returns (ok: bool)
      requires Parallel()
      modifies this`functions, this`retained, this`candidate
      ensures ok == Restore(old(View()), kind).Some?
        && View() == if ok then Restore(old(View()), kind).value else old(View())
    {
      hide ScopeStack, Current, BodyStack;
      TopScope();
      ok := scopeKind != [] && scopeKind[|scopeKind| - 1] == kind;
      if ok {
        LoadFrame();
      }
    }

    method DropScope()
      requires Parallel() && scopeKind != []
      modifies this`scopeKind, this`scopeSaved, this`retainedScopeSaved, this`candidateScopeSaved
      ensures Parallel() && View() == old(View()).(scopes := old(View()).scopes[..|old(View()).scopes| - 1])
    {
      hide ScopeStack, Current, BodyStack;
      DropFrame();
    }

    method PopScope(kind: ScopeKind) returns (ok: bool)
      requires Parallel()
      modifies this`functions, this`retained, this`candidate
      modifies this`scopeKind, this`scopeSaved, this`retainedScopeSaved, this`candidateScopeSaved
      ensures Parallel()
      ensures ok == Pop(old(View()), kind).Some? && View() == if ok then Pop(old(View()), kind).value else old(View())
    {
      hide ScopeStack, Current, BodyStack;
      TopScope();
      ok := RestoreScope(kind);
      if ok {
        DropScope();
      }
    }

    method PushBody(depth: nat)
      requires Parallel()
      modifies this`functionScopeDepth, this`functionScopeSaved
      modifies this`retainedFunctionScopeSaved, this`candidateFunctionScopeSaved
      ensures Parallel() && BodyStack() == old(BodyStack()) + [Body(depth, Current())]
    {
      hide Bodies;
      BodiesPush(functionScopeDepth, functionScopeSaved, retainedFunctionScopeSaved, candidateFunctionScopeSaved,
                 depth, Current());
      functionScopeSaved := functionScopeSaved + [functions];
      retainedFunctionScopeSaved := retainedFunctionScopeSaved + [retained];
      candidateFunctionScopeSaved := candidateFunctionScopeSaved + [candidate];
      functionScopeDepth := functionScopeDepth + [depth];
    }

    method LoadBody()
      requires Parallel() && functionScopeDepth != []
      modifies this`functions, this`retained, this`candidate
      ensures BodyStack() != [] && Current() == BodyStack()[|BodyStack()| - 1].names
    {
      hide Bodies;
      BodiesTop(functionScopeDepth, functionScopeSaved, retainedFunctionScopeSaved, candidateFunctionScopeSaved);
      var top := |functionScopeDepth| - 1;
      functions, retained := functionScopeSaved[top], retainedFunctionScopeSaved[top];
      candidate := candidateFunctionScopeSaved[top];
    }

    method DropBody()
      requires Parallel() && functionScopeDepth != []
      modifies this`functionScopeDepth, this`functionScopeSaved
      modifies this`retainedFunctionScopeSaved, this`candidateFunctionScopeSaved
      ensures Parallel() && old(BodyStack()) != [] && BodyStack() == old(BodyStack())[..|old(BodyStack())| - 1]
    {
      hide Bodies;
      BodiesTop(functionScopeDepth, functionScopeSaved, retainedFunctionScopeSaved, candidateFunctionScopeSaved);
      var top := |functionScopeDepth| - 1;
      functionScopeSaved := functionScopeSaved[..top];
      retainedFunctionScopeSaved := retainedFunctionScopeSaved[..top];
      candidateFunctionScopeSaved := candidateFunctionScopeSaved[..top];
      functionScopeDepth := functionScopeDepth[..top];
    }

    lemma TopBody()
      requires Parallel()
      ensures |View().bodies| == |functionScopeDepth|
      ensures functionScopeDepth != []
          ==> View().bodies[|functionScopeDepth| - 1].depth == functionScopeDepth[|functionScopeDepth| - 1]
    {
      hide ScopeStack, Current;
    }

    /** The last body is taken off with the names saved at its header. */
    method TakeBody()
      requires Parallel() && functionScopeDepth != []
      modifies this`functions, this`retained, this`candidate
      modifies this`functionScopeDepth, this`functionScopeSaved
      modifies this`retainedFunctionScopeSaved, this`candidateFunctionScopeSaved
      ensures Parallel() && old(View()).bodies != []
      ensures var (bodies, last) := (old(View()).bodies, |old(View()).bodies| - 1);
        View() == old(View()).(names := bodies[last].names, bodies := bodies[..last])
    {
      hide ScopeStack, Current, BodyStack;
      LoadBody();
      DropBody();
    }

    /** The closing brace ends the last function body when it was opened at the same depth. */
    method PopBody()
      requires Parallel()
      modifies this`functions, this`retained, this`candidate
      modifies this`functionScopeDepth, this`functionScopeSaved,
          this`retainedFunctionScopeSaved, this`candidateFunctionScopeSaved
      ensures Parallel() && View() == LeaveBody(old(View()))
    {
      hide View;
      Fields();
      TopBody();
      var top := |functionScopeDepth| - 1;
      if top >= 0 && functionScopeDepth[top] == |braces| - 1 {
        TakeBody();
      }
    }

    // ---- one token

    method LeaveBrace(k: Kind)
      requires Parallel()
      modifies this`functions, this`retained, this`candidate, this`closedBrace
      ensures View() == Unbrace(old(View()), k)
    {
      hide ScopeStack, Current, BodyStack;
      if closedBrace.Some? {
        if k == Amp(true) {
          SetNames(closedBrace.value);
          closedBrace := None;
        } else if k.Semi? || k.BranchEnd? || k.ListOperator? || k.Open? || k.Close? {
          closedBrace := None;
        }
      }
    }

    method RestoreNames()
      requires background.Some?
      modifies this`functions, this`retained, this`candidate, this`background
      ensures View() == old(View()).(names := old(background).value, background := None)
    {
      hide ScopeStack, Current, BodyStack;
      SetNames(background.value);
      background := None;
    }

    method EndMode()
      modifies this`background, this`removalMode
      ensures View() == old(View()).(mode := NoRemoval, background := None)
    {
      hide ScopeStack, Current, BodyStack;
      removalMode, background := NoRemoval, None;
    }

    method EndRemoval(k: Kind)
      requires Parallel()
      modifies this`functions, this`retained, this`candidate, this`background, this`removalMode
      ensures View() == Foreground(old(View()), k)
    {
      hide ScopeStack, Current, BodyStack;
      if k == Amp(true) && background.Some? {
        RestoreNames();
      }
      if k.Semi? || k.ListOperator? || k.Amp? || k.Open? || k.Close? || k.RBrace? {
        EndMode();
      }
    }

    method OnlySubshells() returns (ok: bool)
      requires Parallel()
      ensures ok == forall j | 0 <= j < |View().scopes| :: View().scopes[j].kind == InSubshell
    {
      hide Current, BodyStack;
      for i := 0 to |scopeKind|
        invariant forall j | 0 <= j < i :: View().scopes[j].kind == InSubshell
      {
        if scopeKind[i] != InSubshell {
          assert View().scopes[i].kind != InSubshell;
          return false;
        }
      }
      return true;
    }

    method ForgetName(name: string)
      modifies this`functions, this`retained, this`candidate
      ensures View() == old(View()).(names := Without(old(View()).names, name))
    {
      hide ScopeStack, BodyStack;
      SetNames(Names(functions - {name}, retained - {name}, candidate - {name}));
    }

    method RemoveOperand(t: Token) returns (ok: bool)
      requires Parallel()
      modifies this`functions, this`retained, this`candidate, this`background, this`removalMode
      ensures ok == Operand(old(View()), t).Some? && (ok ==> View() == Operand(old(View()), t).value)
    {
      hide ScopeStack, BodyStack, Without;
      if removalMode.AwaitOption? {
        if t.kind.DashF? {
          removalMode, background := RemoveNames, Some(Names(functions, retained, candidate));
        } else if t.kind.DashV? {
          removalMode := RemoveVariables;
        } else {
          return false;
        }
      } else if removalMode.RemoveVariables? {
        return t.identifier;
      } else {
        var direct := OnlySubshells();
        if !t.valid || ifPending > 0 || elifPending > 0 || loopPending > 0 || !direct {
          return false;
        }
        ForgetName(t.text);
      }
      return true;
    }

    method StartRemoval(t: Token) returns (ok: bool)
      requires Parallel()
      modifies this`background, this`removalMode
      ensures ok == Remover(old(View()), t).Some? && (ok ==> View() == Remover(old(View()), t).value)
    {
      hide ScopeStack, BodyStack;
      if (t.kind.Unset? || t.kind.Unfunction?) && (commandStart || t.wrapped) {
        if t.wrapped || t.text !in functions {
          if !commandStart || !t.direct || t.wrapped {
            return false;
          }
          if t.kind.Unset? {
            removalMode := AwaitOption;
          } else {
            removalMode, background := RemoveNames, Some(Names(functions, retained, candidate));
          }
        }
      }
      return true;
    }

    lemma DefineIs(s: State, name: string)
      requires s.braces != []
      ensures var top := |s.braces| - 1; var d := Define(s, name);
        if s.braces[top].listOperator then d.None?
        else
          var names := Names(s.names.known + {name}, s.names.retained, s.names.candidate + {name});
          d == Some(s.(names := names, bodies := s.bodies + [Body(top + 1, names)], commandStart := true,
                       braces := s.braces[top := s.braces[top].(listDefinition := true, definition := true)] + [LEVEL]))
    {
    }

    method AddFunction(name: string)
      modifies this`functions, this`retained, this`candidate
      ensures var n := old(View()).names;
        View() == old(View()).(names := Names(n.known + {name}, n.retained, n.candidate + {name}))
    {
      hide ScopeStack, BodyStack;
      SetNames(Names(functions + {name}, retained, candidate + {name}));
    }

    method OpenBody(depth: nat)
      requires Parallel()
      modifies this`functionScopeDepth, this`functionScopeSaved
      modifies this`retainedFunctionScopeSaved, this`candidateFunctionScopeSaved
      ensures Parallel() && View() == old(View()).(bodies := old(View()).bodies + [Body(depth, old(View()).names)])
    {
      hide ScopeStack, Current, BodyStack;
      PushBody(depth);
    }

    method DefineFunction(name: string) returns (ok: bool)
      requires Parallel() && braces != []
      modifies this
      ensures ok == Define(old(View()), name).Some? && (ok ==> Parallel() && View() == Define(old(View()), name).value)
    {
      hide View, Define;
      Fields();
      DefineIs(View(), name);
      var top := |braces| - 1;
      if braces[top].listOperator {
        return false;
      }
      OpenLevel();
      AddFunction(name);
      OpenBody(top + 1);
      return true;
    }

    method OpenLevel()
      requires braces != []
      modifies this`braces, this`commandStart
      ensures var top := |old(braces)| - 1;
        View() == old(View()).(commandStart := true,
          braces := old(braces)[top := old(braces)[top].(listDefinition := true, definition := true)] + [LEVEL])
    {
      hide ScopeStack, Current, BodyStack;
      var top := |braces| - 1;
      braces := braces[top := braces[top].(listDefinition := true, definition := true)] + [LEVEL];
      commandStart := true;
    }

    method NoteBrace(saved: Option<Names>)
      modifies this`closedBrace
      ensures View() == old(View()).(closed := saved)
    {
      hide ScopeStack, Current, BodyStack;
      closedBrace := saved;
    }

    method CloseGroup() returns (ok: bool)
      requires Parallel() && braces != []
      modifies this
      ensures ok == CloseBrace(old(View())).Some? && (ok ==> Parallel() && View() == CloseBrace(old(View())).value)
    {
      hide View, EndLevel, LeaveBody;
      Fields();
      var depth := |braces| - 1;
      if depth == 0 {
        return false;
      }
      NoteBrace(braces[depth].saved);
      PopBody();
      ok := LeaveLevel();
    }

    method LeaveLevel() returns (ok: bool)
      requires |braces| > 1
      modifies this`braces, this`compoundEnd
      ensures ok == EndLevel(old(View())).Some? && (ok ==> View() == EndLevel(old(View())).value)
    {
      hide ScopeStack, Current, BodyStack;
      var depth := |braces| - 1;
      var level, outer := braces[depth], braces[depth - 1];
      if level.definition && outer.listOperator {
        return false;
      }
      compoundEnd := true;
      braces := if level.definition
        then braces[..depth][depth - 1 := outer.(listDefinition := true, definition := true)]
                else braces[..depth];
      return true;
    }

    method ListToken(k: Kind, previousEnd: bool) returns (ok: bool)
      requires Parallel() && braces != []
      modifies this
      ensures var r := Lists(old(View()), k, previousEnd); ok == r.Some? && (ok ==> Parallel() && View() == r.value)
    {
      hide ScopeStack, BodyStack, CloseBrace;
      var top := |braces| - 1;
      ok := true;
      if k.ListOperator? {
        if braces[top].listDefinition {
          return false;
        }
        braces := braces[top := braces[top].(listOperator := true)];
      } else if k.Semi? {
        braces := braces[top := braces[top].(listOperator := false, listDefinition := false)];
      } else if k.LBrace? && commandStart {
        braces := braces + [LEVEL.(saved := Some(Names(functions, retained, candidate)))];
      } else if k.RBrace? && (commandStart || previousEnd) {
        ok := CloseGroup();
      }
    }

    method ThenToken() returns (ok: bool)
      requires Parallel() && commandStart
      modifies this
      ensures var r := Scopes(old(View()), Then); ok == r.Some? && (ok ==> Parallel() && View() == r.value)
    {
      hide ScopeStack, Current, BodyStack, Push;
      if elifPending > 0 {
        TopScope();
        elifPending := elifPending - 1;
        return scopeKind != [];
      }
      if ifPending == 0 {
        return false;
      }
      ifPending := ifPending - 1;
      PushScope(InIf);
      return true;
    }

    method MarkEnd()
      modifies this`compoundEnd
      ensures View() == old(View()).(compoundEnd := true)
    {
      hide ScopeStack, Current, BodyStack;
      compoundEnd := true;
    }

    method CloserToken(k: Kind, kind: ScopeKind) returns (ok: bool)
      requires Parallel() && (k.Close? || (commandStart && (k.Fi? || k.Done?)))
      requires kind == if k.Close? then InSubshell else if k.Fi? then InIf else InLoop
      modifies this
      ensures var r := Scopes(old(View()), k); ok == r.Some? && (ok ==> Parallel() && View() == r.value)
    {
      hide View, Pop;
      Fields();
      MarkEnd();
      ok := PopScope(kind);
    }

    method ElifToken() returns (ok: bool)
      requires Parallel() && commandStart
      modifies this
      ensures var r := Scopes(old(View()), Elif); ok == r.Some? && (ok ==> Parallel() && View() == r.value)
    {
      hide ScopeStack, Current, BodyStack, Restore;
      ok := RestoreScope(InIf);
      elifPending := elifPending + 1;
    }

    method ScopeToken(k: Kind) returns (ok: bool)
      requires Parallel()
      modifies this
      ensures var r := Scopes(old(View()), k); ok == r.Some? && (ok ==> Parallel() && View() == r.value)
    {
      hide View, Push, Pop, Restore;
      Fields();
      if k.Open? {
        PushScope(InSubshell);
        return true;
      }
      if k.Close? {
        ok := CloserToken(k, InSubshell);
        return;
      }
      if commandStart {
        ok := KeywordToken(k);
        return;
      }
      return true;
    }

    method AwaitThen()
      modifies this`ifPending
      ensures View() == old(View()).(ifs := old(ifPending) + 1)
    {
      hide ScopeStack, Current, BodyStack;
      ifPending := ifPending + 1;
    }

    method KeywordToken(k: Kind) returns (ok: bool)
      requires Parallel() && commandStart && !k.Open? && !k.Close?
      modifies this
      ensures var r := Scopes(old(View()), k); ok == r.Some? && (ok ==> Parallel() && View() == r.value)
    {
      hide View, Push, Pop, Restore;
      Fields();
      if k.Then? {
        ok := ThenToken();
      } else if k.Elif? {
        ok := ElifToken();
      } else if k.Fi? {
        ok := CloserToken(k, InIf);
      } else if k.Done? {
        ok := CloserToken(k, InLoop);
      } else if k.Else? {
        ok := RestoreScope(InIf);
      } else {
        if k.If? {
          AwaitThen();
        } else if k.Do? {
          PushScope(InLoop);
        }
        ok := true;
      }
    }

    method PlainToken(k: Kind, previousEnd: bool) returns (ok: bool)
      requires Parallel() && braces != []
      modifies this
      ensures var r := Plain(old(View()), k, previousEnd); ok == r.Some? && (ok ==> Parallel() && View() == r.value)
    {
      hide ScopeStack, Current, BodyStack, Lists, Scopes, NextStart;
      var start := commandStart;
      ok := ListToken(k, previousEnd);
      if ok {
        ok := ScopeToken(k);
        if ok {
          commandStart := NextStart(start, k);
        }
      }
    }

    method BranchEndToken() returns (ok: bool)
      requires Parallel() && cases != []
      modifies this
      ensures var r := EndBranch(old(View())); ok == r.Some? && (ok ==> Parallel() && View() == r.value)
    {
      hide ScopeStack, Current, BodyStack, Pop;
      ok := PopScope(InBranch);
      StartPatterns();
    }

    method StartPatterns()
      requires cases != []
      modifies this`cases, this`patternStarted, this`patternDepth
      ensures View() == old(View()).(cases := old(cases)[|old(cases)| - 1 := AtPattern],
            started := false, patternDepth := 0)
    {
      hide ScopeStack, Current, BodyStack;
      cases := cases[|cases| - 1 := AtPattern];
      patternStarted, patternDepth := false, 0;
    }

    method LeaveCase()
      requires cases != []
      modifies this`cases, this`commandStart, this`compoundEnd
      ensures View() == old(View()).(cases := old(cases)[..|old(cases)| - 1],
            commandStart := false, compoundEnd := true)
    {
      hide ScopeStack, Current, BodyStack;
      cases := cases[..|cases| - 1];
      commandStart, compoundEnd := false, true;
    }

    method EsacToken()
      requires Parallel() && cases != []
      modifies this
      ensures Parallel() && View() == EndCase(old(View()))
    {
      hide ScopeStack, Current, BodyStack, Inside;
      var branch := PopScope(InBranch);
      LeaveCase();
    }

    method CommandToken(t: Token, previousEnd: bool) returns (ok: bool)
      requires Parallel() && braces != []
      modifies this
      ensures var r := Command(old(View()), t, previousEnd); ok == r.Some? && (ok ==> Parallel() && View() == r.value)
    {
      hide ScopeStack, Current, BodyStack, Define, Plain, EndBranch, EndCase;
      var k := t.kind;
      if k.Header? {
        if !commandStart {
          return false;
        }
        ok := DefineFunction(t.text);
      } else if k.Case? && commandStart {
        cases := cases + [AtSelector];
        ok := true;
      } else if k.BranchEnd? && cases != [] {
        ok := BranchEndToken();
      } else if k.Esac? && cases != [] && commandStart {
        EsacToken();
        ok := true;
      } else {
        ok := PlainToken(k, previousEnd);
      }
    }

    method LoopToken(k: Kind)
      requires Parallel()
      modifies this`loopPending
      ensures View() == LoopHeaders(old(View()), k)
    {
      hide ScopeStack, Current, BodyStack;
      if commandStart && (k.For? || k.While?) {
        loopPending := loopPending + 1;
      } else if commandStart && k.Do? && loopPending > 0 {
        loopPending := loopPending - 1;
      }
    }

    method EnterBranch()
      requires Parallel() && cases != []
      modifies this
      ensures Parallel()
      ensures View()
        == Push(old(View()).(cases := old(cases)[|old(cases)| - 1 := AtBody], commandStart := true), InBranch)
    {
      hide ScopeStack, Current, BodyStack;
      cases, commandStart := cases[|cases| - 1 := AtBody], true;
      PushScope(InBranch);
    }

    method PatternToken(k: Kind) returns (ok: bool)
      requires Parallel() && cases != []
      modifies this
      ensures var r := Pattern(old(View()), k); ok == r.Some? && (ok ==> Parallel() && View() == r.value)
    {
      hide ScopeStack, Current, BodyStack, Push;
      ok := true;
      if k.Esac? {
        ok := !patternStarted;
        LeaveCase();
      } else if k.Open? {
        patternDepth := if patternStarted then patternDepth + 1 else patternDepth;
        patternStarted := true;
      } else if k.Close? {
        if patternDepth > 0 {
          patternDepth := patternDepth - 1;
        } else {
          EnterBranch();
        }
      } else {
        patternStarted := true;
      }
    }

    method BodyToken(t: Token, previousEnd: bool) returns (ok: bool)
      requires Parallel() && braces != []
      modifies this
      ensures var r := StepBody(old(View()), t, previousEnd); ok == r.Some? && (ok ==> Parallel() && View() == r.value)
    {
      hide View, Unbrace, Foreground, Operand, Remover, LoopHeaders, Command;
      LeaveBrace(t.kind);
      EndRemoval(t.kind);
      Fields();
      if removalMode.NoRemoval? {
        ok := StartRemoval(t);
      } else {
        ok := RemoveOperand(t);
      }
      if ok {
        LoopToken(t.kind);
        ok := CommandToken(t, previousEnd);
      }
    }

    method StartLine()
      modifies this`removalMode, this`background, this`closedBrace, this`commandStart
      ensures View() == old(View()).(mode := NoRemoval, background := None, closed := None, commandStart := true)
    {
      hide ScopeStack, Current, BodyStack;
      removalMode, background, closedBrace, commandStart := NoRemoval, None, None, true;
    }

    method TakeEnd() returns (previousEnd: bool)
      modifies this`compoundEnd
      ensures previousEnd == old(View()).compoundEnd && View() == old(View()).(compoundEnd := false)
    {
      hide ScopeStack, Current, BodyStack;
      previousEnd := compoundEnd;
      compoundEnd := false;
    }

    method PassSelector()
      requires cases != []
      modifies this`cases
      ensures View() == old(View()).(cases := old(cases)[|old(cases)| - 1 := AtIn])
    {
      hide ScopeStack, Current, BodyStack;
      cases := cases[|cases| - 1 := AtIn];
    }

    method NextToken(t: Token) returns (ok: bool)
      requires Parallel() && braces != []
      modifies this
      ensures var r := Step(old(View()), t); ok == r.Some? && (ok ==> Parallel() && View() == r.value)
    {
      hide View, StepBody, Pattern;
      Fields();
      ok := true;
      if t.kind.Newline? {
        StartLine();
        return;
      }
      var previousEnd := TakeEnd();
      Fields();
      var place := if cases == [] then AtBody else cases[|cases| - 1];
      if place.AtSelector? {
        PassSelector();
      } else if place.AtIn? {
        ok := t.kind.In?;
        StartPatterns();
      } else if place.AtPattern? {
        ok := PatternToken(t.kind);
      } else {
        ok := BodyToken(t, previousEnd);
      }
    }

    method Done() returns (ok: bool)
      requires Parallel()
      ensures ok == Finished(View())
    {
      TopScope();
      ok := cases == [] && |braces| == 1 && scopeKind == [] && ifPending == 0 && elifPending == 0;
    }
  }

  /** The whole scan accepts exactly what the token rules accept, with the names they leave. */
  method ScanTokens(caller: set<string>, provenance: set<string>, ts: seq<Token>) returns (ok: bool, names: Names)
    ensures ok == Accepts(caller, provenance, ts)
    ensures ok ==> names == Run(Initial(caller, provenance), ts).value.names
  {
    hide Step, Finished;
    var scan := new Scan(caller, provenance);
    names := Names(scan.functions, scan.retained, scan.candidate);
    ghost var s := Initial(caller, provenance);
    for i := 0 to |ts|
      invariant scan.Parallel() && Run(s, ts[..i]) == Some(scan.View())
    {
      RunSnoc(s, ts, i);
      ok := scan.NextToken(ts[i]);
      if !ok {
        RunStops(s, ts, i + 1);
        return;
      }
    }
    assert ts[..|ts|] == ts;
    names := Names(scan.functions, scan.retained, scan.candidate);
    ok := scan.Done();
  }

  lemma {:induction false} RunStops(s: State, ts: seq<Token>, i: nat)
    requires s.braces != [] && i <= |ts| && Run(s, ts[..i]).None?
    ensures Run(s, ts).None?
    decreases |ts| - i
  {
    if i == |ts| {
      assert ts[..i] == ts;
    } else {
      RunSnoc(s, ts, i);
      RunStops(s, ts, i + 1);
    }
  }
}
