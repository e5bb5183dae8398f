// What each token does to the callable names: which tokens remove, add or bring back names, and that no other token
// changes any.

module ScopeNames {
  import opened Common
  import opened ScopeScanner

  // ------------------------------------------------------------------------
  // A removal stands inside one command

  predicate Taking(m: Mode) {
    m.AwaitOption? || m.RemoveNames?
  }

  /** While function names are being removed no command can start. */
  predicate Calm(s: State) {
    Taking(s.mode) ==> !s.commandStart && Place(s).AtBody?
  }

  lemma RemovalTakes(s: State, t: Token)
    requires Calm(s) && Place(s).AtBody? && Removal(s, t).Some? && Taking(Removal(s, t).value.mode)
    ensures var r := Removal(s, t).value;
      if s.commandStart then t.kind.Unset? || t.kind.Unfunction?
      else t.kind.DashF? || (r.mode.RemoveNames? && RemovalSafe(r))
    ensures var r := Removal(s, t).value; r.cases == s.cases && r.commandStart == s.commandStart && r.scopes == s.scopes
  {
  }

  /** The same state but for the names and what is noted of removals and groups. */
  predicate SamePlace(s: State, r: State) {
    && r.cases == s.cases && r.scopes == s.scopes && r.commandStart == s.commandStart
    && r.ifs == s.ifs && r.elifs == s.elifs && r.loops == s.loops && r.braces == s.braces && r.bodies == s.bodies
  }

  lemma UnbracePlace(s: State, k: Kind)
    ensures var r := Unbrace(s, k); SamePlace(s, r) && r.mode == s.mode && r.background == s.background
    ensures Unbrace(s, k).names == if k == Amp(true) && s.closed.Some? then s.closed.value else s.names
  {
  }

  lemma ForegroundPlace(s: State, k: Kind)
    ensures var r := Foreground(s, k);
      SamePlace(s, r) && r.mode == (if Separates(k) || k.RBrace? then NoRemoval else s.mode)
    ensures Foreground(s, k).names == if k == Amp(true) && s.background.Some? then s.background.value else s.names
  {
  }

  lemma AsynchronousPlace(s: State, k: Kind)
    ensures var r := Asynchronous(s, k);
      SamePlace(s, r) && r.mode == (if Separates(k) || k.RBrace? then NoRemoval else s.mode)
  {
    hide Unbrace, Foreground, Separates;
    UnbracePlace(s, k);
    ForegroundPlace(Unbrace(s, k), k);
  }

  /** A token inside a removal starts no command and stays in place. */
  lemma CommandTakes(s: State, t: Token, previousEnd: bool)
    requires s.braces != [] && Place(s).AtBody? && Taking(s.mode) && Command(s, t, previousEnd).Some?
    requires !Separates(t.kind) && !t.kind.RBrace?
    requires if s.commandStart then t.kind.Unset? || t.kind.Unfunction? else t.kind.DashF? || RemovalSafe(s)
    ensures var r := Command(s, t, previousEnd).value;
      && !r.commandStart && Place(r).AtBody? && r.mode == s.mode && r.names == s.names
      && r.background == s.background
  {
  }

  lemma StepCalm(s: State, t: Token)
    requires s.braces != [] && Calm(s) && Step(s, t).Some?
    ensures Calm(Step(s, t).value)
  {
    hide Asynchronous, Removal, Command, LoopHeaders;
    if !t.kind.Newline? && Place(s).AtBody? {
      var s0 := s.(compoundEnd := false);
      var s1 := Asynchronous(s0, t.kind);
      AsynchronousPlace(s0, t.kind);
      var s2 := Removal(s1, t);
      HeadersKeep(s2.value, t.kind);
      var s3 := LoopHeaders(s2.value, t.kind);
      if Taking(s2.value.mode) {
        RemovalTakes(s1, t);
        if Separates(t.kind) || t.kind.RBrace? {
          SeparatorStarts(s1, t);
        } else {
          CommandTakes(s3, t, s.compoundEnd);
        }
      } else {
        CommandMode(s3, t, s.compoundEnd);
      }
    }
  }

  lemma HeadersKeep(s: State, k: Kind)
    ensures var r := LoopHeaders(s, k);
      && r == s.(loops := r.loops) && (!s.commandStart ==> r == s)
      && (k.Unset? || k.Unfunction? ==> r == s)
  {
  }

  /** A separator removes nothing. */
  lemma SeparatorStarts(s: State, t: Token)
    requires s.mode.NoRemoval? && (Separates(t.kind) || t.kind.RBrace?)
    ensures Removal(s, t) == Some(s)
  {
  }

  lemma ListsMode(s: State, k: Kind, previousEnd: bool)
    requires s.braces != [] && Lists(s, k, previousEnd).Some?
    ensures Lists(s, k, previousEnd).value.mode == s.mode
  {
  }

  lemma ScopesMode(s: State, k: Kind)
    requires Scopes(s, k).Some?
    ensures Scopes(s, k).value.mode == s.mode
  {
  }

  lemma CommandMode(s: State, t: Token, previousEnd: bool)
    requires s.braces != [] && Command(s, t, previousEnd).Some?
    ensures Command(s, t, previousEnd).value.mode == s.mode
  {
    hide Lists, Scopes, NextStart;
    if Lists(s, t.kind, previousEnd).Some? {
      ListsMode(s, t.kind, previousEnd);
      if Scopes(Lists(s, t.kind, previousEnd).value, t.kind).Some? {
        ScopesMode(Lists(s, t.kind, previousEnd).value, t.kind);
      }
    }
  }

  /** No run has a removal of function names where a command can start. */
  lemma {:induction false} RunCalm(s: State, ts: seq<Token>)
    requires s.braces != [] && Calm(s) && Run(s, ts).Some?
    ensures Calm(Run(s, ts).value)
  {
    hide Step, Calm;
    if ts != [] {
      RunCalm(s, ts[..|ts| - 1]);
      StepCalm(Run(s, ts[..|ts| - 1]).value, ts[|ts| - 1]);
    }
  }

  lemma InitialCalm(caller: set<string>, candidate: set<string>)
    ensures Calm(Initial(caller, candidate))
  {
  }

  // ------------------------------------------------------------------------
  // The effect of one token

  /** Exactly the name is gone, from every set. */
  ghost predicate Gone(n: Names, name: string, r: Names) {
    && name !in r.known && name !in r.retained && name !in r.candidate
    && forall x: string | x != name ::
         && (x in r.known <==> x in n.known)
         && (x in r.retained <==> x in n.retained)
         && (x in r.candidate <==> x in n.candidate)
  }

  /** Exactly the name can be called now, and is the candidate's. */
  ghost predicate Added(n: Names, name: string, r: Names) {
    && name in r.known && name in r.candidate && r.retained == n.retained
    && forall x: string | x != name :: (x in r.known <==> x in n.known) && (x in r.candidate <==> x in n.candidate)
  }

  /** A command token: a header adds its name; a closer brings back what its opener saved, and so does a new branch of
      an if; nothing else changes names. */
  ghost predicate Effect(s: State, t: Token, r: State) {
    if t.kind.Header? then Added(s.names, t.text, r.names)
    else if |r.scopes| < |s.scopes| then r.names == s.scopes[|s.scopes| - 1].names
    else if |r.bodies| < |s.bodies| then r.names == s.bodies[|s.bodies| - 1].names
    else if (t.kind.Else? || t.kind.Elif?) && s.commandStart then
      s.scopes != [] && r.names == s.scopes[|s.scopes| - 1].names
    else r.names == s.names
  }

  lemma CommandEffect(s: State, t: Token, previousEnd: bool)
    requires s.braces != [] && Command(s, t, previousEnd).Some?
    ensures Effect(s, t, Command(s, t, previousEnd).value)
  {
    hide Plain, CloseBrace;
    if !t.kind.Header? {
      PlainEffect(s, t, previousEnd);
    }
  }

  lemma PlainEffect(s: State, t: Token, previousEnd: bool)
    requires s.braces != [] && !t.kind.Header?
    ensures var r := Plain(s, t.kind, previousEnd); r.Some? ==> Effect(s, t, r.value)
  {
    hide Lists, Scopes, NextStart;
    if Lists(s, t.kind, previousEnd).Some? {
      ListsEffect(s, t.kind, previousEnd);
      if Scopes(Lists(s, t.kind, previousEnd).value, t.kind).Some? {
        ScopesEffect(Lists(s, t.kind, previousEnd).value, t.kind);
      }
    }
  }

  lemma CloseEffect(s: State)
    requires s.braces != [] && CloseBrace(s).Some?
    ensures var r := CloseBrace(s).value;
      && r.scopes == s.scopes && r.commandStart == s.commandStart && |r.bodies| <= |s.bodies|
      && r.names == if |r.bodies| < |s.bodies| then s.bodies[|s.bodies| - 1].names else s.names
  {
  }

  lemma ListsEffect(s: State, k: Kind, previousEnd: bool)
    requires s.braces != [] && Lists(s, k, previousEnd).Some?
    ensures var r := Lists(s, k, previousEnd).value;
      && r.scopes == s.scopes && r.commandStart == s.commandStart
      && |r.bodies| <= |s.bodies| && (!k.RBrace? ==> r.bodies == s.bodies)
      && r.names == if |r.bodies| < |s.bodies| then s.bodies[|s.bodies| - 1].names else s.names
  {
    hide CloseBrace;
    if CloseBrace(s).Some? {
      CloseEffect(s);
    }
  }

  lemma ScopesEffect(s: State, k: Kind)
    requires Scopes(s, k).Some?
    ensures var r := Scopes(s, k).value;
      && r.bodies == s.bodies && (k.RBrace? ==> r == s)
      && (|r.scopes| < |s.scopes| || ((k.Else? || k.Elif?) && s.commandStart) ==> s.scopes != [])
      && r.names == if s.scopes != [] && (|r.scopes| < |s.scopes| || ((k.Else? || k.Elif?) && s.commandStart))
                    then s.scopes[|s.scopes| - 1].names else s.names
  {
  }

  /** What stands in front of the group or the removal that an ampersand sends to the background. */
  function InFront(s: State): Names {
    if s.background.Some? then s.background.value
    else if s.closed.Some? then s.closed.value
    else s.names
  }

  /** What one accepted token does to the names. */
  ghost predicate Changes(s: State, t: Token, r: State) {
    if t.kind.Newline? || !Place(s).AtBody? then r.names == s.names
    else if t.kind == Amp(true) then r.names == InFront(s)
    else if Removes(s, t) then Gone(s.names, t.text, r.names)
    else Effect(s, t, r)
  }

  lemma AsynchronousFront(s: State, k: Kind)
    ensures Asynchronous(s, k).names == if k == Amp(true) then InFront(s) else s.names
  {
    hide Unbrace, Foreground;
    UnbracePlace(s, k);
    ForegroundPlace(Unbrace(s, k), k);
  }

  /** What a removal word or operand does to the names. */
  lemma RemovalChanges(s: State, t: Token)
    requires Removal(s, t).Some?
    ensures var r := Removal(s, t).value;
      && r == s.(names := r.names, mode := r.mode, background := r.background)
      && if s.mode.RemoveNames? then r.mode.RemoveNames? && Gone(s.names, t.text, r.names) else r.names == s.names
  {
  }

  lemma StepChanges(s: State, t: Token)
    requires s.braces != [] && Calm(s) && Step(s, t).Some?
    ensures Changes(s, t, Step(s, t).value)
  {
    hide Command, Asynchronous, Removal, LoopHeaders, Effect, Gone, Pattern, InFront;
    if t.kind.Newline? {
    } else if !Place(s).AtBody? {
      if Place(s).AtPattern? {
        PatternEffect(s.(compoundEnd := false), t.kind);
      }
    } else {
      var s0 := s.(compoundEnd := false);
      var s1 := Asynchronous(s0, t.kind);
      AsynchronousPlace(s0, t.kind);
      AsynchronousFront(s0, t.kind);
      RemovalChanges(s1, t);
      var s2 := Removal(s1, t).value;
      HeadersKeep(s2, t.kind);
      var s3 := LoopHeaders(s2, t.kind);
      if t.kind == Amp(true) {
        AmpersandEffect(s3, t, s.compoundEnd);
      } else if s1.mode.RemoveNames? {
        RemovalTakes(s1, t);
        CommandTakes(s3, t, s.compoundEnd);
      } else {
        CommandEffect(s3, t, s.compoundEnd);
        SameEffect(s3, s, t, Command(s3, t, s.compoundEnd).value);
      }
      AsynchronousPlace(s, t.kind);
      SameFront(s0, s);
    }
  }

  /** In every run every accepted token changes the names just so. */
  lemma RunChanges(caller: set<string>, candidate: set<string>, ts: seq<Token>, i: nat)
    requires i < |ts| && Run(Initial(caller, candidate), ts[..i + 1]).Some?
    ensures var start := Initial(caller, candidate);
      Run(start, ts[..i]).Some? && Changes(Run(start, ts[..i]).value, ts[i], Run(start, ts[..i + 1]).value)
  {
    hide Step, Calm, Changes;
    var start := Initial(caller, candidate);
    RunSnoc(start, ts, i);
    InitialCalm(caller, candidate);
    RunCalm(start, ts[..i]);
    StepChanges(Run(start, ts[..i]).value, ts[i]);
  }

  lemma SameFront(s: State, r: State)
    requires s.background == r.background && s.closed == r.closed && s.names == r.names
    ensures InFront(s) == InFront(r)
  {
  }

  lemma SameEffect(s: State, s': State, t: Token, r: State)
    requires s'.names == s.names && s'.scopes == s.scopes && s'.bodies == s.bodies && s'.commandStart == s.commandStart
    ensures Effect(s, t, r) <==> Effect(s', t, r)
  {
    hide Added;
  }

  lemma AmpersandEffect(s: State, t: Token, previousEnd: bool)
    requires s.braces != [] && t.kind == Amp(true) && Command(s, t, previousEnd).Some?
    ensures Command(s, t, previousEnd).value.names == s.names
  {
  }

  lemma PatternEffect(s: State, k: Kind)
    requires s.cases != [] && Pattern(s, k).Some?
    ensures Pattern(s, k).value.names == s.names
  {
  }

  // ------------------------------------------------------------------------
  // Removal words

  /** A removal word starts a removal unless a function of that name is known; it must stand at a direct command
      position, spelled plainly, and behind no wrapper. */
  lemma RemovalWord(s: State, t: Token)
    requires s.braces != [] && Place(s).AtBody? && s.mode.NoRemoval? && (t.kind.Unset? || t.kind.Unfunction?)
    ensures var word := (s.commandStart || t.wrapped) && (t.wrapped || t.text !in s.names.known);
      && (Step(s, t).None? <==> word && (!s.commandStart || t.wrapped || !t.direct))
      && (Step(s, t).Some? ==>
          && Step(s, t).value.names == s.names
          && Step(s, t).value.mode == if !word then NoRemoval else if t.kind.Unset? then AwaitOption else RemoveNames)
  {
    hide Asynchronous, Remover, Command;
    var s0 := s.(compoundEnd := false);
    AsynchronousPlace(s0, t.kind);
    AsynchronousFront(s0, t.kind);
    RemoverStarts(Asynchronous(s0, t.kind), t);
    if Remover(Asynchronous(s0, t.kind), t).Some? {
      WordCommand(Remover(Asynchronous(s0, t.kind), t).value, t, s.compoundEnd);
    }
  }

  lemma RemoverStarts(s: State, t: Token)
    requires s.mode.NoRemoval? && (t.kind.Unset? || t.kind.Unfunction?)
    ensures var word := (s.commandStart || t.wrapped) && (t.wrapped || t.text !in s.names.known);
      var r := Remover(s, t);
      && (r.None? <==> word && (!s.commandStart || t.wrapped || !t.direct))
      && (r.Some? ==>
          && r.value.names == s.names && r.value.braces == s.braces
          && r.value.mode == if !word then NoRemoval else if t.kind.Unset? then AwaitOption else RemoveNames)
  {
  }

  lemma WordCommand(s: State, t: Token, previousEnd: bool)
    requires s.braces != [] && (t.kind.Unset? || t.kind.Unfunction?)
    ensures var r := Command(s, t, previousEnd); r.Some? && r.value.names == s.names && r.value.mode == s.mode
  {
  }

  /** Behind `unset` an option decides between functions and variables, and nothing else is accepted. */
  lemma RemovalOption(s: State, t: Token)
    requires s.braces != [] && s.mode.AwaitOption? && Calm(s) && !t.kind.Newline? && !Separates(t.kind)
    requires !t.kind.RBrace?
    ensures Step(s, t).Some? <==> t.kind.DashF? || t.kind.DashV?
    ensures Step(s, t).Some? ==>
              Step(s, t).value.mode == if t.kind.DashF? then RemoveNames else RemoveVariables
  {
  }

  // ------------------------------------------------------------------------
  // The background

  /** The tokens between a removal word and the ampersand: an option, or names. */
  ghost predicate Operands(s: State, ts: seq<Token>)
    requires s.braces != []
  {
    forall i | 0 <= i < |ts| :: Run(s, ts[..i]).Some? && Removes(Run(s, ts[..i]).value, ts[i])
  }

  /** Operands leave what stands in front of the removal in mind. */
  lemma OperandKeepsFront(s: State, t: Token)
    requires s.braces != [] && Calm(s) && Removes(s, t) && Step(s, t).Some?
    ensures var r := Step(s, t).value; r.mode.RemoveNames? && r.background == s.background
  {
    hide Command, Asynchronous, Removal, LoopHeaders;
    var s0 := s.(compoundEnd := false);
    var s1 := Asynchronous(s0, t.kind);
    AsynchronousPlace(s0, t.kind);
    AsynchronousPlace(s, t.kind);
    RemovalChanges(s1, t);
    OperandFront(s0, t);
    HeadersKeep(Removal(s1, t).value, t.kind);
    RemovalTakes(s1, t);
    CommandTakes(LoopHeaders(Removal(s1, t).value, t.kind), t, s.compoundEnd);
  }

  lemma OperandFront(s: State, t: Token)
    requires Asynchronous(s, t.kind).mode.RemoveNames? && Removal(Asynchronous(s, t.kind), t).Some?
    ensures Removal(Asynchronous(s, t.kind), t).value.background == s.background
  {
  }

  lemma {:induction false} OperandsKeepFront(s: State, ts: seq<Token>, r: State)
    requires s.braces != [] && Calm(s) && s.mode.RemoveNames? && Operands(s, ts) && Run(s, ts) == Some(r)
    ensures r.mode.RemoveNames? && r.background == s.background && Calm(r)
  {
    hide Step, Calm, Removes;
    if ts != [] {
      var front, t := ts[..|ts| - 1], ts[|ts| - 1];
      assert forall i | 0 <= i < |front| :: ts[..i] == front[..i];
      assert Run(s, ts[..|ts| - 1]).Some?;
      OperandsKeepFront(s, front, Run(s, front).value);
      OperandKeepsFront(Run(s, front).value, t);
      StepCalm(Run(s, front).value, t);
    }
  }

  /** A removal in the background changes only its own process: behind the ampersand the names are those in front of
      it. `word` is the token that starts the removal of function names. */
  lemma BackgroundRemoval(s: State, word: Token, open: State, names: seq<Token>, end: State, amp: Token, after: State)
    requires s.braces != [] && Calm(s) && Step(s, word) == Some(open)
    requires !s.mode.RemoveNames? && open.mode.RemoveNames? && word.kind != Amp(true)
    requires Operands(open, names) && Run(open, names) == Some(end)
    requires amp.kind == Amp(true) && Step(end, amp) == Some(after)
    ensures after.names == s.names
  {
    hide Step, Run, Operands;
    StepCalm(s, word);
    RemovalOpens(s, word);
    OperandsKeepFront(open, names, end);
    StepChanges(end, amp);
  }

  /** What stands in front is noted when the removal of function names starts. */
  lemma RemovalOpens(s: State, t: Token)
    requires s.braces != [] && Calm(s) && Step(s, t).Some? && t.kind != Amp(true)
    requires !s.mode.RemoveNames? && Step(s, t).value.mode.RemoveNames?
    ensures Step(s, t).value.background == Some(s.names)
  {
    hide Command, Asynchronous, LoopHeaders;
    if !t.kind.Newline? && Place(s).AtBody? {
      var s0 := s.(compoundEnd := false);
      var s1 := Asynchronous(s0, t.kind);
      AsynchronousPlace(s0, t.kind);
      AsynchronousFront(s0, t.kind);
      var s2 := Removal(s1, t).value;
      HeadersKeep(s2, t.kind);
      CommandMode(LoopHeaders(s2, t.kind), t, s.compoundEnd);
      if s2.mode.RemoveNames? {
        RemovalTakes(s1, t);
        CommandTakes(LoopHeaders(s2, t.kind), t, s.compoundEnd);
      }
    }
  }

  /** The brace levels that stay keep what they saved. */
  predicate SavedStay(before: seq<Brace>, after: seq<Brace>) {
    forall j | 0 <= j < |before| && j < |after| :: after[j].saved == before[j].saved
  }

  lemma CommandBraces(s: State, t: Token, previousEnd: bool)
    requires s.braces != [] && Command(s, t, previousEnd).Some?
    ensures var r := Command(s, t, previousEnd).value;
      && SavedStay(s.braces, r.braces)
      && (|r.braces| < |s.braces| ==>
          && |r.braces| == |s.braces| - 1 && r.closed == s.braces[|r.braces|].saved && t.kind.RBrace?
          && r.background == s.background && r.cases == s.cases)
      && (|r.braces| > |s.braces| && t.kind.LBrace? ==>
          s.commandStart && |r.braces| == |s.braces| + 1 && r.braces[|s.braces|].saved == Some(s.names))
  {
    hide Lists, Scopes, NextStart;
    if Lists(s, t.kind, previousEnd).Some? {
      ListsBraces(s, t.kind, previousEnd);
      if Scopes(Lists(s, t.kind, previousEnd).value, t.kind).Some? {
        ScopesBraces(Lists(s, t.kind, previousEnd).value, t.kind);
      }
    }
  }

  lemma CloseBraces(s: State)
    requires s.braces != [] && CloseBrace(s).Some?
    ensures var r := CloseBrace(s).value;
      && SavedStay(s.braces, r.braces) && |r.braces| == |s.braces| - 1
      && r.closed == s.braces[|r.braces|].saved && r.background == s.background && r.cases == s.cases
  {
  }

  lemma ListsBraces(s: State, k: Kind, previousEnd: bool)
    requires s.braces != [] && Lists(s, k, previousEnd).Some?
    ensures var r := Lists(s, k, previousEnd).value;
      && SavedStay(s.braces, r.braces)
      && (|r.braces| < |s.braces| ==>
          && |r.braces| == |s.braces| - 1 && r.closed == s.braces[|r.braces|].saved && k.RBrace?
          && r.background == s.background && r.cases == s.cases)
      && (|r.braces| > |s.braces| && k.LBrace? ==>
          s.commandStart && |r.braces| == |s.braces| + 1 && r.braces[|s.braces|].saved == Some(s.names))
  {
    hide CloseBrace;
    if CloseBrace(s).Some? {
      CloseBraces(s);
    }
  }

  lemma ScopesBraces(s: State, k: Kind)
    requires Scopes(s, k).Some?
    ensures var r := Scopes(s, k).value;
      r.braces == s.braces && r.closed == s.closed && r.background == s.background && r.cases == s.cases
  {
  }

  lemma StepBraces(s: State, t: Token)
    requires s.braces != [] && Step(s, t).Some?
    ensures var r := Step(s, t).value;
      && SavedStay(s.braces, r.braces)
      && (|r.braces| < |s.braces| ==>
          && |r.braces| == |s.braces| - 1 && r.closed == s.braces[|r.braces|].saved && r.background.None?
          && Place(r).AtBody?)
      && (|r.braces| > |s.braces| && t.kind.LBrace? && Calm(s) ==>
          |r.braces| == |s.braces| + 1 && r.braces[|s.braces|].saved == Some(s.names))
  {
    hide Command, Asynchronous, Removal, LoopHeaders;
    if !t.kind.Newline? && Place(s).AtBody? {
      var s0 := s.(compoundEnd := false);
      var s1 := Asynchronous(s0, t.kind);
      AsynchronousPlace(s0, t.kind);
      AsynchronousFront(s0, t.kind);
      RemovalChanges(s1, t);
      var s2 := Removal(s1, t).value;
      HeadersKeep(s2, t.kind);
      CommandBraces(LoopHeaders(s2, t.kind), t, s.compoundEnd);
      if t.kind.RBrace? {
        SeparatorStarts(s1, t);
        RBraceForgets(s0, t.kind);
      }
    }
  }

  lemma RBraceForgets(s: State, k: Kind)
    requires k.RBrace?
    ensures Asynchronous(s, k).background.None?
  {
  }

  /** No token of the run closes one of the first `level` groups. */
  ghost predicate StaysInGroup(s: State, ts: seq<Token>, level: nat)
    requires s.braces != []
  {
    forall i | 0 <= i <= |ts| :: Run(s, ts[..i]).Some? && |Run(s, ts[..i]).value.braces| >= level
  }

  lemma {:induction false} GroupsKept(s: State, ts: seq<Token>, level: nat, i: nat)
    requires s.braces != [] && StaysInGroup(s, ts, level) && level <= |s.braces| && i <= |ts|
    ensures Run(s, ts[..i]).Some? && |Run(s, ts[..i]).value.braces| >= level
    ensures forall j | 0 <= j < level :: Run(s, ts[..i]).value.braces[j].saved == s.braces[j].saved
  {
    hide Step;
    assert Run(s, ts[..i]).Some?;
    if i > 0 {
      GroupsKept(s, ts, level, i - 1);
      RunSnoc(s, ts, i - 1);
      StepBraces(Run(s, ts[..i - 1]).value, ts[i - 1]);
    }
  }

  /** A brace group in the background changes only its own process: behind its ampersand the names are those in front
      of the group. */
  lemma BackgroundGroup(s: State, opener: Token, open: State, inner: seq<Token>, end: State, closer: Token,
                        closed: State, amp: Token, after: State)
    requires s.braces != [] && Calm(s) && opener.kind.LBrace? && Step(s, opener) == Some(open)
    requires |open.braces| > |s.braces|
    requires StaysInGroup(open, inner, |open.braces|) && Run(open, inner) == Some(end)
    requires Step(end, closer) == Some(closed) && |closed.braces| == |s.braces|
    requires amp.kind == Amp(true) && Step(closed, amp) == Some(after)
    ensures after.names == s.names
  {
    hide Step, Run, StaysInGroup;
    StepCalm(s, opener);
    RunCalm(open, inner);
    StepCalm(end, closer);
    StepBraces(s, opener);
    GroupsKept(open, inner, |open.braces|, |inner|);
    assert inner[..|inner|] == inner;
    StepBraces(end, closer);
    StepChanges(closed, amp);
  }

  // ------------------------------------------------------------------------
  // Definitions in lists

  /** No level holds both a definition and a list operator since its last semicolon. */
  predicate Unlisted(braces: seq<Brace>) {
    forall j | 0 <= j < |braces| :: !braces[j].listOperator || !braces[j].listDefinition
  }

  lemma CloseUnlisted(s: State)
    requires s.braces != [] && Unlisted(s.braces) && CloseBrace(s).Some?
    ensures Unlisted(CloseBrace(s).value.braces)
  {
  }

  lemma CommandUnlisted(s: State, t: Token, previousEnd: bool)
    requires s.braces != [] && Unlisted(s.braces) && Command(s, t, previousEnd).Some?
    ensures Unlisted(Command(s, t, previousEnd).value.braces)
  {
    hide CloseBrace, Scopes, NextStart;
    if CloseBrace(s).Some? {
      CloseUnlisted(s);
    }
  }

  lemma StepUnlisted(s: State, t: Token)
    requires s.braces != [] && Unlisted(s.braces) && Step(s, t).Some?
    ensures Unlisted(Step(s, t).value.braces)
  {
    hide Asynchronous, Removal, LoopHeaders, Command, Unlisted;
    if !t.kind.Newline? && Place(s).AtBody? {
      var s0 := s.(compoundEnd := false);
      CommandUnlisted(LoopHeaders(Removal(Asynchronous(s0, t.kind), t).value, t.kind), t, s.compoundEnd);
    }
  }

  /** In every run, at every brace level, a definition and a list operator have a semicolon between them. */
  lemma {:induction false} RunUnlisted(caller: set<string>, candidate: set<string>, ts: seq<Token>)
    ensures var r := Run(Initial(caller, candidate), ts); r.Some? ==> Unlisted(r.value.braces)
  {
    hide Step;
    if ts != [] {
      RunUnlisted(caller, candidate, ts[..|ts| - 1]);
      var front := Run(Initial(caller, candidate), ts[..|ts| - 1]);
      if front.Some? && Step(front.value, ts[|ts| - 1]).Some? {
        StepUnlisted(front.value, ts[|ts| - 1]);
      }
    }
  }

  /** A header marks the level it stands in, a list operator too, and only a semicolon takes the marks of its level
      away. */
  ghost predicate Marks(before: seq<Brace>, k: Kind, after: seq<Brace>)
    requires before != []
  {
    var top := |before| - 1;
    && (k.Header? ==> |after| > top && after[top].listDefinition)
    && (k.ListOperator? ==> |after| > top && after[top].listOperator)
    && forall j | 0 <= j < |before| && j < |after| && !(k.Semi? && j == top) ::
         && (before[j].listDefinition ==> after[j].listDefinition)
         && (before[j].listOperator ==> after[j].listOperator)
  }

  lemma CloseMarks(s: State)
    requires s.braces != [] && CloseBrace(s).Some?
    ensures Marks(s.braces, RBrace, CloseBrace(s).value.braces)
  {
  }

  lemma CommandMarks(s: State, t: Token, previousEnd: bool)
    requires s.braces != [] && Command(s, t, previousEnd).Some?
    ensures Marks(s.braces, t.kind, Command(s, t, previousEnd).value.braces)
  {
    hide CloseBrace, Scopes, NextStart;
    if CloseBrace(s).Some? {
      CloseMarks(s);
    }
  }

  /** In a run every token at a place for commands marks its level so. */
  lemma StepMarks(s: State, t: Token)
    requires s.braces != [] && Step(s, t).Some? && !t.kind.Newline? && Place(s).AtBody?
    ensures Marks(s.braces, t.kind, Step(s, t).value.braces)
  {
    hide Asynchronous, Removal, LoopHeaders, Command, Marks;
    var s0 := s.(compoundEnd := false);
    var s1 := Removal(Asynchronous(s0, t.kind), t).value;
    HeadersKeep(s1, t.kind);
    CommandMarks(LoopHeaders(s1, t.kind), t, s.compoundEnd);
  }
}
