// A grammar of command lines, what each command does to the callable names, and that the scanner accepts and computes
// exactly this.

module ScopeGrammar {
  import opened Common
  import opened ScopeScanner

  // ------------------------------------------------------------------------
  // Commands

  /** Words and their prefixes; `unset -f`; the compound commands and function definitions of the shell grammar. */
  datatype Command =
    | Simple(front: seq<Token>, words: seq<Token>)
    | Remove(direct: bool, names: seq<string>)
    | Sequence(first: Command, second: Command)
    | Chain(first: Command, second: Command)
    | Conditional(test: Command, yes: Command, no: Command)
    | Loop(test: Command, body: Command)
    | Each(words: seq<Token>, body: Command)
    | Subshell(body: Command)
    | Group(body: Command)
    | Function(name: string, body: Command)
    | Cases(word: Token, branches: Branches)

  datatype Branches = NoBranch | Branch(pattern: seq<Token>, body: Command, rest: Branches)

  function Reserved(k: Kind): Token {
    Token(k, "", false, false, false, false)
  }

  predicate Ordinary(ts: seq<Token>) {
    forall i | 0 <= i < |ts| :: ts[i].kind.Word?
  }

  predicate Leading(ts: seq<Token>) {
    forall i | 0 <= i < |ts| :: ts[i].kind.Prefix? || ts[i].kind.Assignment?
  }

  /** The words are words, and none is missing. */
  predicate Fits(c: Command) {
    match c
    case Simple(front, words) => Leading(front) && Ordinary(words) && words != []
    case Remove(_, names) => names != []
    case Sequence(a, b) => Fits(a) && Fits(b)
    case Chain(a, b) => Fits(a) && Fits(b)
    case Conditional(t, y, n) => Fits(t) && Fits(y) && Fits(n)
    case Loop(t, b) => Fits(t) && Fits(b)
    case Each(words, b) => Ordinary(words) && words != [] && Fits(b)
    case Subshell(b) => Fits(b)
    case Group(b) => Fits(b)
    case Function(_, b) => Fits(b)
    case Cases(word, bs) => !word.kind.Newline? && AllFit(bs)
  }

  predicate AllFit(bs: Branches) {
    bs.NoBranch? || (Ordinary(bs.pattern) && bs.pattern != [] && Fits(bs.body) && AllFit(bs.rest))
  }

  function Heading(name: string): Token {
    Token(Header, name, false, false, false, false)
  }

  function Operands(names: seq<string>): (ts: seq<Token>)
    ensures |ts| == |names|
  {
    seq(|names|, i requires 0 <= i < |names| => Token(Word, names[i], false, false, true, false))
  }

  function Text(c: Command): seq<Token>
    decreases c, 0
  {
    match c
    case Simple(front, words) => front + words
    case Remove(direct, names) =>
      [Token(Unset, "unset", direct, false, false, false), Reserved(DashF)] + Operands(names)
    case Sequence(a, b) => Text(a) + ([Reserved(Semi)] + Text(b))
    case Chain(a, b) => Text(a) + ([Reserved(ListOperator)] + Text(b))
    case Conditional(t, y, n) =>
      [Reserved(If)] + (Lined(t) + ([Reserved(Then)] + (Lined(y) + ([Reserved(Else)] + (Lined(n) + [Reserved(Fi)])))))
    case Loop(t, b) => [Reserved(While)] + (Lined(t) + ([Reserved(Do)] + (Lined(b) + [Reserved(Done)])))
    case Each(words, b) =>
      [Reserved(For)] + (words + ([Reserved(Semi)] + ([Reserved(Do)] + (Lined(b) + [Reserved(Done)]))))
    case Subshell(b) => [Reserved(Open)] + (Text(b) + [Reserved(Close)])
    case Group(b) => [Reserved(LBrace)] + (Lined(b) + [Reserved(RBrace)])
    case Function(name, b) => [Heading(name)] + (Lined(b) + [Reserved(RBrace)])
    case Cases(word, bs) => [Reserved(Case), word, Reserved(In)] + (BranchTexts(bs) + [Reserved(Esac)])
  }

  /** A command and the semicolon behind it. */
  function Lined(c: Command): seq<Token>
    decreases c, 1
  {
    Text(c) + [Reserved(Semi)]
  }

  function BranchTexts(bs: Branches): seq<Token>
    decreases bs, 0
  {
    if bs.NoBranch? then []
    else bs.pattern + ([Reserved(Close)] + (Text(bs.body) + ([Reserved(BranchEnd)] + BranchTexts(bs.rest))))
  }

  // ------------------------------------------------------------------------
  // What a command does

  /** Whether a list operator, or a definition, stands at this brace level since the last semicolon, and whether a
      definition stands there at all. */
  datatype Flags = Flags(operator: bool, definition: bool, ever: bool)

  const FRESH := Flags(false, false, false)

  function Behind(f: Flags): Flags {
    f.(operator := false, definition := false)
  }

  function Defining(f: Flags): Flags {
    f.(definition := true, ever := true)
  }

  datatype Effect = Effect(names: Names, flags: Flags)

  function Elements(names: seq<string>): set<string> {
    set x | x in names
  }

  function Minus(n: Names, gone: set<string>): Names {
    Names(n.known - gone, n.retained - gone, n.candidate - gone)
  }

  function Plus(n: Names, name: string): Names {
    Names(n.known + {name}, n.retained, n.candidate + {name})
  }

  /** The names behind a command, or none when the line is refused. What a subshell, the branches of an if, a loop or a
      case, and a function body do stays there; a test, a group and a sequence keep it. Function names are removed only
      where `safe`, and definitions do not stand in one list with an operator. */
  function Means(c: Command, n: Names, f: Flags, safe: bool): Option<Effect> {
    match c
    case Simple(_, _) => Some(Effect(n, f))
    case Remove(direct, names) =>
      if "unset" in n.known then Some(Effect(n, f))
      else if direct && safe then Some(Effect(Minus(n, Elements(names)), f))
      else None
    case Sequence(a, b) =>
      var r := Means(a, n, f, safe);
      if r.None? then None else Means(b, r.value.names, Behind(r.value.flags), safe)
    case Chain(a, b) =>
      var r := Means(a, n, f, safe);
      if r.None? || r.value.flags.definition then None
      else Means(b, r.value.names, r.value.flags.(operator := true), safe)
    case Conditional(t, y, e) =>
      var r := Means(t, n, f, false);
      if r.None? then None
      else
        var ry := Means(y, r.value.names, Behind(r.value.flags), false);
        if ry.None? then None
        else
          var re := Means(e, r.value.names, Behind(ry.value.flags), false);
          if re.None? then None else Some(Effect(r.value.names, Behind(re.value.flags)))
    case Loop(t, b) =>
      var r := Means(t, n, f, false);
      if r.None? then None
      else
        var rb := Means(b, r.value.names, Behind(r.value.flags), false);
        if rb.None? then None else Some(Effect(r.value.names, Behind(rb.value.flags)))
    case Each(_, b) =>
      var rb := Means(b, n, Behind(f), false);
      if rb.None? then None else Some(Effect(n, Behind(rb.value.flags)))
    case Subshell(b) =>
      var rb := Means(b, n, f, safe);
      if rb.None? then None else Some(Effect(n, rb.value.flags))
    case Group(b) =>
      var rb := Means(b, n, FRESH, safe);
      if rb.None? then None
      else if !rb.value.flags.ever then Some(Effect(rb.value.names, f))
      else if f.operator then None
      else Some(Effect(rb.value.names, Defining(f)))
    case Function(name, b) =>
      if f.operator || Means(b, Plus(n, name), FRESH, safe).None? then None
      else Some(Effect(Plus(n, name), Defining(f)))
    case Cases(_, bs) =>
      var r := AllMean(bs, n, f);
      if r.None? then None else Some(Effect(n, r.value))
  }

  function AllMean(bs: Branches, n: Names, f: Flags): Option<Flags> {
    if bs.NoBranch? then Some(f)
    else
      var r := Means(bs.body, n, f, false);
      if r.None? then None else AllMean(bs.rest, n, r.value.flags)
  }

  // ------------------------------------------------------------------------
  // Where a command starts and ends

  predicate Ready(s: State) {
    && s.commandStart && s.mode.NoRemoval? && Place(s).AtBody? && s.braces != [] && s.elifs == 0
    && (s.bodies != [] ==> s.bodies[|s.bodies| - 1].depth < |s.braces|)
  }

  function FlagsOf(b: Brace): Flags {
    Flags(b.listOperator, b.listDefinition, b.definition)
  }

  function Flagged(b: Brace, f: Flags): Brace {
    b.(listOperator := f.operator, listDefinition := f.definition, definition := f.ever)
  }

  /** The state behind a command that had the effect `e`. */
  predicate Ended(s: State, r: State, e: Effect) {
    && s.braces != [] && r.names == e.names && r.braces == s.braces[|s.braces| - 1 := Flagged(Top(s), e.flags)]
    && r.scopes == s.scopes && r.bodies == s.bodies && r.cases == s.cases
    && r.ifs == s.ifs && r.elifs == s.elifs && r.loops == s.loops
    && (r.mode.NoRemoval? || RemovalSafe(s))
  }

  /** The scanner goes on from `m` so that the command that began in `s` ends as it means. */
  predicate Completes(s: State, m: State, ts: seq<Token>, e: Option<Effect>)
    requires m.braces != []
  {
    var r := Run(m, ts);
    if e.None? then r.None? else r.Some? && Ended(s, r.value, e.value)
  }

  /** The scanner does with the text what the command means. */
  predicate Agrees(s: State, ts: seq<Token>, e: Option<Effect>)
    requires s.braces != []
  {
    Completes(s, s, ts, e)
  }

  // ------------------------------------------------------------------------
  // Single tokens

  lemma RunOne(s: State, t: Token)
    requires s.braces != []
    ensures Run(s, [t]) == Step(s, t)
  {
    hide Step;
    assert [t][..0] == [];
  }

  lemma {:induction false} RunAppend(s: State, a: seq<Token>, b: seq<Token>)
    requires s.braces != []
    ensures Run(s, a + b) == if Run(s, a).None? then None else Run(Run(s, a).value, b)
  {
    hide Step;
    if b == [] {
      assert a + b == a;
    } else {
      var front := b[..|b| - 1];
      assert (a + b)[..|a + b| - 1] == a + front && (a + b)[|a + b| - 1] == b[|b| - 1];
      RunAppend(s, a, front);
    }
  }

  lemma StepWord(s: State, t: Token)
    requires s.braces != [] && s.mode.NoRemoval? && Place(s).AtBody? && t.kind.Word?
    ensures Step(s, t) == Some(s.(compoundEnd := false, commandStart := false))
  {
    hide Pattern, CloseBrace, EndBranch, EndCase, Define, Operand;
  }

  lemma StepFront(s: State, t: Token)
    requires Ready(s) && (t.kind.Prefix? || t.kind.Assignment?)
    ensures Step(s, t) == Some(s.(compoundEnd := false))
  {
    hide Pattern, CloseBrace, EndBranch, EndCase, Define, Operand;
  }

  /** A semicolon ends the command, and with it the removal and the list. */
  lemma StepSemi(s: State)
    requires s.braces != [] && Place(s).AtBody?
    ensures var top := |s.braces| - 1;
      Step(s, Reserved(Semi))
      == Some(s.(closed := None, mode := NoRemoval, background := None, compoundEnd := false, commandStart := true,
                 braces := s.braces[top := s.braces[top].(listOperator := false, listDefinition := false)]))
  {
    hide Pattern, CloseBrace, EndBranch, EndCase, Define, Operand;
  }

  lemma StepOperator(s: State)
    requires s.braces != [] && Place(s).AtBody?
    ensures var top := |s.braces| - 1;
      Step(s, Reserved(ListOperator))
      == if s.braces[top].listDefinition then None
         else Some(s.(closed := None, mode := NoRemoval, background := None, compoundEnd := false, commandStart := true,
                      braces := s.braces[top := s.braces[top].(listOperator := true)]))
  {
    hide Pattern, CloseBrace, EndBranch, EndCase, Define, Operand;
  }

  lemma StepIf(s: State)
    requires Ready(s)
    ensures Step(s, Reserved(If)) == Some(s.(compoundEnd := false, ifs := s.ifs + 1))
  {
    hide Pattern, CloseBrace, EndBranch, EndCase, Define, Operand;
  }

  lemma StepThen(s: State)
    requires Ready(s) && s.ifs > 0
    ensures Step(s, Reserved(Then))
         == Some(s.(compoundEnd := false, ifs := s.ifs - 1, scopes := s.scopes + [Frame(InIf, s.names)]))
  {
    hide Pattern, CloseBrace, EndBranch, EndCase, Define, Operand;
  }

  lemma StepElse(s: State)
    requires Ready(s) && Inside(s, InIf)
    ensures Step(s, Reserved(Else)) == Some(s.(compoundEnd := false, names := s.scopes[|s.scopes| - 1].names))
  {
    hide Pattern, CloseBrace, EndBranch, EndCase, Define, Operand;
  }

  /** A closing word is an ordinary token of its place. */
  lemma StepCloser(s: State, k: Kind)
    requires s.braces != [] && Place(s).AtBody? && (k.Close? || (s.mode.NoRemoval? && (k.Fi? || k.Done?)))
    ensures var s1 := s.(compoundEnd := false);
      var s2 := if k.Close? then s1.(closed := None, mode := NoRemoval, background := None) else s1;
      Step(s, Reserved(k)) == Plain(s2, k, s.compoundEnd)
  {
    hide Pattern, Plain, EndBranch, EndCase, Define, Operand;
  }

  lemma StepFi(s: State)
    requires Ready(s) && Inside(s, InIf)
    ensures var last := |s.scopes| - 1;
      Step(s, Reserved(Fi)) == Some(s.(compoundEnd := true, commandStart := false, names := s.scopes[last].names,
                                       scopes := s.scopes[..last]))
  {
    hide Step, CloseBrace;
    StepCloser(s, Fi);
  }

  lemma StepWhile(s: State)
    requires Ready(s)
    ensures Step(s, Reserved(While)) == Some(s.(compoundEnd := false, loops := s.loops + 1))
  {
    hide Pattern, CloseBrace, EndBranch, EndCase, Define, Operand;
  }

  lemma StepFor(s: State)
    requires Ready(s)
    ensures Step(s, Reserved(For)) == Some(s.(compoundEnd := false, loops := s.loops + 1, commandStart := false))
  {
    hide Pattern, CloseBrace, EndBranch, EndCase, Define, Operand;
  }

  lemma StepDo(s: State)
    requires Ready(s) && s.loops > 0
    ensures Step(s, Reserved(Do))
         == Some(s.(compoundEnd := false, loops := s.loops - 1, scopes := s.scopes + [Frame(InLoop, s.names)]))
  {
    hide Pattern, CloseBrace, EndBranch, EndCase, Define, Operand;
  }

  lemma StepDone(s: State)
    requires Ready(s) && Inside(s, InLoop)
    ensures var last := |s.scopes| - 1;
      Step(s, Reserved(Done)) == Some(s.(compoundEnd := true, commandStart := false, names := s.scopes[last].names,
                                         scopes := s.scopes[..last]))
  {
    hide Step, CloseBrace;
    StepCloser(s, Done);
  }

  lemma StepOpen(s: State)
    requires Ready(s)
    ensures Step(s, Reserved(Open))
         == Some(s.(compoundEnd := false, closed := None, background := None,
                    scopes := s.scopes + [Frame(InSubshell, s.names)]))
  {
    hide Pattern, CloseBrace, EndBranch, EndCase, Define, Operand;
  }

  lemma StepClose(s: State)
    requires s.braces != [] && Place(s).AtBody? && Inside(s, InSubshell)
    ensures var last := |s.scopes| - 1;
      Step(s, Reserved(Close))
      == Some(s.(compoundEnd := true, commandStart := true, closed := None, mode := NoRemoval, background := None,
                 names := s.scopes[last].names, scopes := s.scopes[..last]))
  {
    hide Step, CloseBrace;
    StepCloser(s, Close);
  }

  lemma StepLBrace(s: State)
    requires Ready(s)
    ensures Step(s, Reserved(LBrace))
         == Some(s.(compoundEnd := false, braces := s.braces + [LEVEL.(saved := Some(s.names))]))
  {
    hide Pattern, CloseBrace, EndBranch, EndCase, Define, Operand;
  }

  lemma StepHeader(s: State, name: string)
    requires Ready(s)
    ensures var top := |s.braces| - 1;
      Step(s, Heading(name))
      == if s.braces[top].listOperator then None
         else Some(s.(compoundEnd := false, names := Plus(s.names, name),
                      braces := s.braces[top := s.braces[top].(listDefinition := true, definition := true)] + [LEVEL],
                      bodies := s.bodies + [Body(top + 1, Plus(s.names, name))]))
  {
    hide Pattern, CloseBrace, EndBranch, EndCase, Operand, Plain;
  }

  /** The end of a brace level: what it saved is noted, and a definition in it counts outside. */
  function Shut(s: State): Option<State>
    requires |s.braces| > 1
  {
    var (level, outer) := (s.braces[|s.braces| - 1], s.braces[|s.braces| - 2]);
    var r := s.(compoundEnd := true, commandStart := false, closed := level.saved, background := None,
                braces := s.braces[..|s.braces| - 1]);
    if !level.definition then Some(r)
    else if outer.listOperator then None
    else Some(r.(braces := r.braces[|s.braces| - 2 := outer.(listDefinition := true, definition := true)]))
  }

  /** A closing brace where a command may start. */
  lemma StepBrace(s: State)
    requires s.commandStart && s.mode.NoRemoval? && Place(s).AtBody? && s.braces != []
    ensures var r := CloseBrace(s.(compoundEnd := false, background := None));
      Step(s, Reserved(RBrace)) == if r.None? then None else Some(r.value.(commandStart := false))
  {
    hide CloseBrace, Pattern, EndBranch, EndCase, Define, Operand;
  }

  lemma BraceShuts(s: State)
    requires |s.braces| > 1 && (s.bodies == [] || s.bodies[|s.bodies| - 1].depth != |s.braces| - 1)
    ensures var (r, shut) := (CloseBrace(s.(compoundEnd := false, background := None)), Shut(s));
      if r.None? then shut.None? else shut == Some(r.value.(commandStart := false))
  {
  }

  lemma BodyShut(s: State)
    requires |s.braces| > 1 && s.bodies != [] && s.bodies[|s.bodies| - 1].depth == |s.braces| - 1
    ensures var last := |s.bodies| - 1;
      var r := CloseBrace(s.(compoundEnd := false, background := None));
      var shut := Shut(s.(names := s.bodies[last].names, bodies := s.bodies[..last]));
      if r.None? then shut.None? else shut == Some(r.value.(commandStart := false))
  {
  }

  lemma StepRBrace(s: State)
    requires s.commandStart && s.mode.NoRemoval? && Place(s).AtBody? && |s.braces| > 1
    requires s.bodies == [] || s.bodies[|s.bodies| - 1].depth != |s.braces| - 1
    ensures Step(s, Reserved(RBrace)) == Shut(s)
  {
    hide Step, CloseBrace, Shut;
    StepBrace(s);
    BraceShuts(s);
  }

  lemma StepBodyEnd(s: State)
    requires s.commandStart && s.mode.NoRemoval? && Place(s).AtBody? && |s.braces| > 1
    requires s.bodies != [] && s.bodies[|s.bodies| - 1].depth == |s.braces| - 1
    ensures var last := |s.bodies| - 1;
      Step(s, Reserved(RBrace)) == Shut(s.(names := s.bodies[last].names, bodies := s.bodies[..last]))
  {
    hide Step, CloseBrace, Shut;
    StepBrace(s);
    BodyShut(s);
  }

  lemma StepCase(s: State, word: Token)
    requires Ready(s) && !word.kind.Newline?
    ensures Run(s, [Reserved(Case), word, Reserved(In)])
         == Some(s.(compoundEnd := false, cases := s.cases + [AtPattern], started := false, patternDepth := 0))
  {
    var s1 := s.(compoundEnd := false, cases := s.cases + [AtSelector]);
    var s2 := s1.(cases := s.cases + [AtIn]);
    CaseOpens(s);
    SelectorTaken(s, s1, word);
    InTaken(s, s2);
    hide Step;
    RunOne(s, Reserved(Case));
    RunOne(s1, word);
    RunOne(s2, Reserved(In));
    RunAppend(s, [Reserved(Case)], [word]);
    RunAppend(s, [Reserved(Case)] + [word], [Reserved(In)]);
    assert [Reserved(Case)] + [word] + [Reserved(In)] == [Reserved(Case), word, Reserved(In)];
  }

  lemma CaseOpens(s: State)
    requires Ready(s)
    ensures Step(s, Reserved(Case)) == Some(s.(compoundEnd := false, cases := s.cases + [AtSelector]))
  {
  }

  lemma SelectorTaken(s: State, s1: State, word: Token)
    requires s1.braces != [] && s1.cases == s.cases + [AtSelector] && !s1.compoundEnd && !word.kind.Newline?
    ensures Step(s1, word) == Some(s1.(cases := s.cases + [AtIn]))
  {
    hide StepBody, Pattern;
    assert s1.cases[|s1.cases| - 1 := AtIn] == s.cases + [AtIn];
  }

  lemma InTaken(s: State, s2: State)
    requires s2.braces != [] && s2.cases == s.cases + [AtIn] && !s2.compoundEnd
    ensures Step(s2, Reserved(In)) == Some(s2.(cases := s.cases + [AtPattern], started := false, patternDepth := 0))
  {
    hide StepBody, Pattern;
    assert s2.cases[|s2.cases| - 1 := AtPattern] == s.cases + [AtPattern];
  }

  predicate InPattern(s: State) {
    s.braces != [] && Place(s).AtPattern? && s.mode.NoRemoval? && s.patternDepth == 0
  }

  lemma StepPatternWord(s: State, t: Token)
    requires InPattern(s) && t.kind.Word?
    ensures Step(s, t) == Some(s.(compoundEnd := false, started := true))
  {
    hide StepBody;
  }

  lemma StepPatternEnd(s: State)
    requires InPattern(s)
    ensures Step(s, Reserved(Close))
         == Some(s.(compoundEnd := false, commandStart := true, cases := s.cases[|s.cases| - 1 := AtBody],
                    scopes := s.scopes + [Frame(InBranch, s.names)]))
  {
    hide StepBody;
  }

  lemma StepBranchEnd(s: State)
    requires s.braces != [] && s.cases != [] && Place(s).AtBody? && s.mode.NoRemoval? && Inside(s, InBranch)
    ensures var last := |s.scopes| - 1;
      Step(s, Reserved(BranchEnd))
      == Some(s.(compoundEnd := false, closed := None, names := s.scopes[last].names, scopes := s.scopes[..last],
                 cases := s.cases[|s.cases| - 1 := AtPattern], started := false, patternDepth := 0))
  {
    hide Pattern, CloseBrace, EndCase, Define, Operand, Plain;
  }

  lemma StepEsac(s: State)
    requires InPattern(s) && !s.started
    ensures Step(s, Reserved(Esac))
         == Some(s.(compoundEnd := true, commandStart := false, cases := s.cases[..|s.cases| - 1]))
  {
    hide StepBody;
  }

  lemma StepUnset(s: State, direct: bool)
    requires Ready(s)
    ensures var r := Step(s, Token(Unset, "unset", direct, false, false, false));
      var s1 := s.(compoundEnd := false, commandStart := false);
      r == if "unset" in s.names.known then Some(s1) else if direct then Some(s1.(mode := AwaitOption)) else None
  {
    hide Pattern, CloseBrace, EndBranch, EndCase, Define, Operand;
  }

  lemma StepDashF(s: State)
    requires s.braces != [] && Place(s).AtBody? && !s.commandStart && (s.mode.NoRemoval? || s.mode.AwaitOption?)
    ensures var s1 := s.(compoundEnd := false);
      Step(s, Reserved(DashF))
      == Some(if s.mode.NoRemoval? then s1 else s1.(mode := RemoveNames, background := Some(s.names)))
  {
    hide Pattern, CloseBrace, EndBranch, EndCase, Define;
  }

  lemma StepOperand(s: State, name: string)
    requires s.braces != [] && Place(s).AtBody? && !s.commandStart && s.mode.RemoveNames?
    ensures Step(s, Token(Word, name, false, false, true, false))
         == if RemovalSafe(s) then Some(s.(compoundEnd := false, names := Minus(s.names, {name}))) else None
  {
    hide Pattern, CloseBrace, EndBranch, EndCase, Define;
  }

  // ------------------------------------------------------------------------
  // Words and removals

  lemma RunFirst(s: State, t: Token, rest: seq<Token>)
    requires s.braces != []
    ensures Run(s, [t] + rest) == if Step(s, t).None? then None else Run(Step(s, t).value, rest)
  {
    hide Run, Step;
    RunOne(s, t);
    RunAppend(s, [t], rest);
  }

  lemma {:induction false} RunLeading(s: State, ts: seq<Token>)
    requires Ready(s) && Leading(ts)
    ensures Run(s, ts) == Some(if ts == [] then s else s.(compoundEnd := false))
  {
    hide Step;
    if ts != [] {
      var front := ts[..|ts| - 1];
      RunLeading(s, front);
      StepFront(Run(s, front).value, ts[|ts| - 1]);
    }
  }

  lemma {:induction false} RunWords(s: State, ts: seq<Token>)
    requires s.braces != [] && s.mode.NoRemoval? && Place(s).AtBody? && Ordinary(ts)
    ensures Run(s, ts) == Some(if ts == [] then s else s.(compoundEnd := false, commandStart := false))
  {
    hide Step;
    if ts != [] {
      var front := ts[..|ts| - 1];
      RunWords(s, front);
      StepWord(Run(s, front).value, ts[|ts| - 1]);
    }
  }

  lemma FlagsSame(s: State)
    requires s.braces != []
    ensures s.braces[|s.braces| - 1 := Flagged(Top(s), FlagsOf(Top(s)))] == s.braces
  {
  }

  lemma ScansSimple(c: Command, s: State)
    requires Ready(s) && Fits(c) && c.Simple?
    ensures Agrees(s, Text(c), Means(c, s.names, FlagsOf(Top(s)), RemovalSafe(s)))
  {
    hide Run, Step, RemovalSafe;
    RunLeading(s, c.front);
    RunWords(Run(s, c.front).value, c.words);
    RunAppend(s, c.front, c.words);
    FlagsSame(s);
  }

  lemma {:induction false} RunOperands(s: State, names: seq<string>)
    requires s.braces != [] && Place(s).AtBody? && !s.commandStart && s.mode.RemoveNames? && !s.compoundEnd
    ensures RemovalSafe(s) ==> Run(s, Operands(names)) == Some(s.(names := Minus(s.names, Elements(names))))
    ensures !RemovalSafe(s) && names != [] ==> Run(s, Operands(names)).None?
  {
    hide Step, RemovalSafe;
    if names == [] {
      assert Elements(names) == {} && Minus(s.names, {}) == s.names;
    } else {
      var front, name := names[..|names| - 1], names[|names| - 1];
      RunOperands(s, front);
      assert Operands(names)[..|names| - 1] == Operands(front);
      if RemovalSafe(s) {
        var t := Run(s, Operands(front)).value;
        SafeStays(s, t);
        StepOperand(t, name);
        assert Elements(names) == Elements(front) + {name};
        MinusMore(s.names, Elements(front), name);
      } else if front == [] {
        StepOperand(s, name);
      }
    }
  }

  lemma SafeStays(s: State, t: State)
    requires t.scopes == s.scopes && t.ifs == s.ifs && t.elifs == s.elifs && t.loops == s.loops
    ensures RemovalSafe(t) <==> RemovalSafe(s)
  {
  }

  lemma MinusMore(n: Names, gone: set<string>, name: string)
    ensures Minus(Minus(n, gone), {name}) == Minus(n, gone + {name})
  {
  }

  lemma ScansRemove(c: Command, s: State)
    requires Ready(s) && Fits(c) && c.Remove?
    ensures Agrees(s, Text(c), Means(c, s.names, FlagsOf(Top(s)), RemovalSafe(s)))
  {
    hide Run, Step, RemovalSafe, Minus;
    var unset := Token(Unset, "unset", c.direct, false, false, false);
    var rest := [Reserved(DashF)] + Operands(c.names);
    assert Text(c) == [unset] + rest;
    RunFirst(s, unset, rest);
    StepUnset(s, c.direct);
    FlagsSame(s);
    if "unset" in s.names.known || c.direct {
      var s1 := Step(s, unset).value;
      RunFirst(s1, Reserved(DashF), Operands(c.names));
      StepDashF(s1);
      var s2 := Step(s1, Reserved(DashF)).value;
      SafeStays(s, s2);
      if "unset" in s.names.known {
        RunWords(s2, Operands(c.names));
      } else {
        RunOperands(s2, c.names);
      }
    }
  }

  // ------------------------------------------------------------------------
  // Compound commands

  /** Inside a compound command that was entered in `s`: the scopes and pending words that it opened, and its effect so
      far. */
  predicate Inner(s: State, q: State, held: seq<Frame>, ifs: nat, loops: nat, e: Effect) {
    && s.braces != [] && q.names == e.names && q.braces == s.braces[|s.braces| - 1 := Flagged(Top(s), e.flags)]
    && q.scopes == s.scopes + held && q.bodies == s.bodies && q.cases == s.cases
    && q.ifs == s.ifs + ifs && q.elifs == s.elifs && q.loops == s.loops + loops
  }

  /** A command inside a compound command, and the semicolon behind it. */
  lemma ScansLined(c: Command, s: State, q: State, held: seq<Frame>, ifs: nat, loops: nat, e: Effect)
    requires Ready(q) && Inner(s, q, held, ifs, loops, e)
    requires Agrees(q, Text(c), Means(c, q.names, FlagsOf(Top(q)), RemovalSafe(q)))
    ensures var ec := Means(c, e.names, e.flags, RemovalSafe(q));
      var r := Run(q, Lined(c));
      if ec.None? then r.None?
      else r.Some? && Ready(r.value)
           && Inner(s, r.value, held, ifs, loops, Effect(ec.value.names, Behind(ec.value.flags)))
  {
    hide Run, Step, Means, Text, RemovalSafe;
    RunAppend(q, Text(c), [Reserved(Semi)]);
    assert FlagsOf(Top(q)) == e.flags;
    if Run(q, Text(c)).Some? {
      var r := Run(q, Text(c)).value;
      RunOne(r, Reserved(Semi));
      StepSemi(r);
    }
  }

  lemma InnerSafe(s: State, q: State, held: seq<Frame>, ifs: nat, loops: nat, e: Effect)
    requires Inner(s, q, held, ifs, loops, e)
    ensures ifs + loops > 0 ==> !RemovalSafe(q)
    ensures |held| == 1 && held[0].kind != InSubshell ==> !RemovalSafe(q)
    ensures ifs + loops == 0 && (held == [] || (|held| == 1 && held[0].kind == InSubshell))
        ==> (RemovalSafe(q) <==> RemovalSafe(s))
  {
    assert forall i | 0 <= i < |s.scopes| :: q.scopes[i] == s.scopes[i];
    if |held| == 1 {
      assert q.scopes[|s.scopes|] == held[0];
    }
  }

  lemma InnerStart(s: State)
    requires Ready(s)
    ensures Inner(s, s, [], 0, 0, Effect(s.names, FlagsOf(Top(s))))
  {
    FlagsSame(s);
    assert s.scopes + [] == s.scopes;
  }

  /** The last part of a compound command. */
  lemma EndedInner(s: State, q: State, r: State, e: Effect, e': Effect)
    requires Inner(s, q, [], 0, 0, e) && Ended(q, r, e')
    ensures Ended(s, r, e')
  {
    InnerSafe(s, q, [], 0, 0, e);
    hide RemovalSafe;
    var top := |s.braces| - 1;
    assert s.braces[top := Flagged(Top(s), e.flags)][top := Flagged(Top(s), e'.flags)]
        == s.braces[top := Flagged(Top(s), e'.flags)];
  }

  lemma ScansSequence(c: Command, s: State)
    requires Ready(s) && Fits(c) && c.Sequence?
    ensures Agrees(s, Text(c), Means(c, s.names, FlagsOf(Top(s)), RemovalSafe(s)))
    decreases c, 0
  {
    hide Run, Step, RemovalSafe, Inner, Ended;
    var e0 := Effect(s.names, FlagsOf(Top(s)));
    Scans(c.first, s);
    InnerStart(s);
    ScansLined(c.first, s, s, [], 0, 0, e0);
    RunAppend(s, Lined(c.first), Text(c.second));
    assert Text(c) == Lined(c.first) + Text(c.second);
    var r := Means(c.first, s.names, FlagsOf(Top(s)), RemovalSafe(s));
    if r.Some? {
      var m := Run(s, Lined(c.first)).value;
      var e := Effect(r.value.names, Behind(r.value.flags));
      Scans(c.second, m);
      InnerSafe(s, m, [], 0, 0, e);
      InnerTop(s, m, [], 0, 0, e);
      if Run(m, Text(c.second)).Some? {
        EndedInner(s, m, Run(m, Text(c.second)).value, e,
          Means(c.second, m.names, FlagsOf(Top(m)), RemovalSafe(m)).value);
      }
    }
  }

  lemma InnerTop(s: State, q: State, held: seq<Frame>, ifs: nat, loops: nat, e: Effect)
    requires Inner(s, q, held, ifs, loops, e)
    ensures q.braces != [] && q.names == e.names && FlagsOf(Top(q)) == e.flags
  {
  }

  /** The operator behind the first command of a list. */
  lemma Operated(s: State, r: State, e: Effect)
    requires Ready(s) && Ended(s, r, e)
    ensures var m := Step(r, Reserved(ListOperator));
      if e.flags.definition then m.None?
      else m.Some? && Ready(m.value) && Inner(s, m.value, [], 0, 0, Effect(e.names, e.flags.(operator := true)))
  {
    hide Step, RemovalSafe;
    StepOperator(r);
    assert s.scopes + [] == s.scopes;
  }

  lemma ScansChain(c: Command, s: State)
    requires Ready(s) && Fits(c) && c.Chain?
    ensures Agrees(s, Text(c), Means(c, s.names, FlagsOf(Top(s)), RemovalSafe(s)))
    decreases c, 0
  {
    hide Run, Step, RemovalSafe, Inner, Ended;
    Scans(c.first, s);
    RunAppend(s, Text(c.first), [Reserved(ListOperator)] + Text(c.second));
    var first := Means(c.first, s.names, FlagsOf(Top(s)), RemovalSafe(s));
    if first.Some? {
      var r := Run(s, Text(c.first)).value;
      Operated(s, r, first.value);
      RunFirst(r, Reserved(ListOperator), Text(c.second));
      if !first.value.flags.definition {
        var m := Step(r, Reserved(ListOperator)).value;
        var e := Effect(first.value.names, first.value.flags.(operator := true));
        Scans(c.second, m);
        InnerSafe(s, m, [], 0, 0, e);
        InnerTop(s, m, [], 0, 0, e);
        if Run(m, Text(c.second)).Some? {
          EndedInner(s, m, Run(m, Text(c.second)).value, e,
            Means(c.second, m.names, FlagsOf(Top(m)), RemovalSafe(m)).value);
        }
      }
    }
  }

  // An if

  lemma ToThen(s: State, m: State, e: Effect)
    requires Ready(m) && Inner(s, m, [], 1, 0, e)
    ensures var q := Step(m, Reserved(Then));
      q.Some? && Ready(q.value) && Inner(s, q.value, [Frame(InIf, e.names)], 0, 0, e)
  {
    hide Step;
    StepThen(m);
    assert s.scopes + [] + [Frame(InIf, e.names)] == s.scopes + [Frame(InIf, e.names)];
  }

  lemma ToElse(s: State, m: State, names: Names, e: Effect)
    requires Ready(m) && Inner(s, m, [Frame(InIf, names)], 0, 0, e)
    ensures var q := Step(m, Reserved(Else));
      q.Some? && Ready(q.value) && Inner(s, q.value, [Frame(InIf, names)], 0, 0, Effect(names, e.flags))
  {
    hide Step;
    StepElse(m);
  }

  lemma ToFi(s: State, m: State, names: Names, e: Effect)
    requires Ready(m) && Inner(s, m, [Frame(InIf, names)], 0, 0, e)
    ensures var q := Step(m, Reserved(Fi)); q.Some? && Ended(s, q.value, Effect(names, e.flags))
  {
    hide Step;
    StepFi(m);
    assert m.scopes[..|m.scopes| - 1] == s.scopes;
  }

  lemma ScansElse(c: Command, s: State, m: State, names: Names, e: Effect)
    requires Ready(m) && Fits(c) && Inner(s, m, [Frame(InIf, names)], 0, 0, e)
    ensures var ec := Means(c, names, e.flags, false);
      Completes(s, m, [Reserved(Else)] + (Lined(c) + [Reserved(Fi)]),
              if ec.None? then None else Some(Effect(names, Behind(ec.value.flags))))
    decreases c, 3
  {
    hide Run, Step, RemovalSafe, Inner, Ended, Means;
    var held := [Frame(InIf, names)];
    ToElse(s, m, names, e);
    RunFirst(m, Reserved(Else), Lined(c) + [Reserved(Fi)]);
    var q := Step(m, Reserved(Else)).value;
    var e1 := Effect(names, e.flags);
    InnerSafe(s, q, held, 0, 0, e1);
    InnerTop(s, q, held, 0, 0, e1);
    Scans(c, q);
    ScansLined(c, s, q, held, 0, 0, e1);
    RunAppend(q, Lined(c), [Reserved(Fi)]);
    var ec := Means(c, names, e.flags, false);
    if ec.Some? {
      var m3 := Run(q, Lined(c)).value;
      ToFi(s, m3, names, Effect(ec.value.names, Behind(ec.value.flags)));
      RunOne(m3, Reserved(Fi));
    }
  }
  lemma ScansYes(c: Command, s: State, m: State, e: Effect)
    requires Ready(m) && c.Conditional? && Fits(c) && Inner(s, m, [], 1, 0, e)
    ensures var ey := Means(c.yes, e.names, e.flags, false);
      var en := if ey.None? then None else Means(c.no, e.names, Behind(ey.value.flags), false);
      Completes(s, m, [Reserved(Then)] + (Lined(c.yes) + ([Reserved(Else)] + (Lined(c.no) + [Reserved(Fi)]))),
                if en.None? then None else Some(Effect(e.names, Behind(en.value.flags))))
    decreases c, 0
  {
    hide Run, Step, RemovalSafe, Inner, Ended, Means;
    var held := [Frame(InIf, e.names)];
    var rest := [Reserved(Else)] + (Lined(c.no) + [Reserved(Fi)]);
    ToThen(s, m, e);
    RunFirst(m, Reserved(Then), Lined(c.yes) + rest);
    var q := Step(m, Reserved(Then)).value;
    InnerSafe(s, q, held, 0, 0, e);
    InnerTop(s, q, held, 0, 0, e);
    Scans(c.yes, q);
    ScansLined(c.yes, s, q, held, 0, 0, e);
    RunAppend(q, Lined(c.yes), rest);
    var ey := Means(c.yes, e.names, e.flags, false);
    if ey.Some? {
      ScansElse(c.no, s, Run(q, Lined(c.yes)).value, e.names, Effect(ey.value.names, Behind(ey.value.flags)));
    }
  }

  lemma ToTest(s: State)
    requires Ready(s)
    ensures var q := Step(s, Reserved(If));
      q.Some? && Ready(q.value) && Inner(s, q.value, [], 1, 0, Effect(s.names, FlagsOf(Top(s))))
  {
    hide Step;
    StepIf(s);
    FlagsSame(s);
    assert s.scopes + [] == s.scopes;
  }

  lemma ScansConditional(c: Command, s: State)
    requires Ready(s) && Fits(c) && c.Conditional?
    ensures Agrees(s, Text(c), Means(c, s.names, FlagsOf(Top(s)), RemovalSafe(s)))
    decreases c, 1
  {
    hide Run, Step, RemovalSafe, Inner, Ended;
    var e := Effect(s.names, FlagsOf(Top(s)));
    var rest := [Reserved(Then)] + (Lined(c.yes) + ([Reserved(Else)] + (Lined(c.no) + [Reserved(Fi)])));
    ToTest(s);
    RunFirst(s, Reserved(If), Lined(c.test) + rest);
    var q := Step(s, Reserved(If)).value;
    InnerSafe(s, q, [], 1, 0, e);
    InnerTop(s, q, [], 1, 0, e);
    Scans(c.test, q);
    ScansLined(c.test, s, q, [], 1, 0, e);
    RunAppend(q, Lined(c.test), rest);
    var et := Means(c.test, s.names, FlagsOf(Top(s)), false);
    if et.Some? {
      ScansYes(c, s, Run(q, Lined(c.test)).value, Effect(et.value.names, Behind(et.value.flags)));
    }
  }

  // Loops

  lemma ToDo(s: State, m: State, e: Effect)
    requires Ready(m) && Inner(s, m, [], 0, 1, e)
    ensures var q := Step(m, Reserved(Do));
      q.Some? && Ready(q.value) && Inner(s, q.value, [Frame(InLoop, e.names)], 0, 0, e)
  {
    hide Step;
    StepDo(m);
    assert s.scopes + [] + [Frame(InLoop, e.names)] == s.scopes + [Frame(InLoop, e.names)];
  }

  lemma ToDone(s: State, m: State, names: Names, e: Effect)
    requires Ready(m) && Inner(s, m, [Frame(InLoop, names)], 0, 0, e)
    ensures var q := Step(m, Reserved(Done)); q.Some? && Ended(s, q.value, Effect(names, e.flags))
  {
    hide Step;
    StepDone(m);
    assert m.scopes[..|m.scopes| - 1] == s.scopes;
  }

  lemma ScansBody(c: Command, s: State, m: State, e: Effect)
    requires Ready(m) && Fits(c) && Inner(s, m, [], 0, 1, e)
    ensures var ec := Means(c, e.names, e.flags, false);
      Completes(s, m, [Reserved(Do)] + (Lined(c) + [Reserved(Done)]),
                if ec.None? then None else Some(Effect(e.names, Behind(ec.value.flags))))
    decreases c, 3
  {
    hide Run, Step, RemovalSafe, Inner, Ended, Means;
    var held := [Frame(InLoop, e.names)];
    ToDo(s, m, e);
    RunFirst(m, Reserved(Do), Lined(c) + [Reserved(Done)]);
    var q := Step(m, Reserved(Do)).value;
    InnerSafe(s, q, held, 0, 0, e);
    InnerTop(s, q, held, 0, 0, e);
    Scans(c, q);
    ScansLined(c, s, q, held, 0, 0, e);
    RunAppend(q, Lined(c), [Reserved(Done)]);
    var ec := Means(c, e.names, e.flags, false);
    if ec.Some? {
      var m3 := Run(q, Lined(c)).value;
      ToDone(s, m3, e.names, Effect(ec.value.names, Behind(ec.value.flags)));
      RunOne(m3, Reserved(Done));
    }
  }

  lemma ToLoop(s: State)
    requires Ready(s)
    ensures var q := Step(s, Reserved(While));
      q.Some? && Ready(q.value) && Inner(s, q.value, [], 0, 1, Effect(s.names, FlagsOf(Top(s))))
  {
    hide Step;
    StepWhile(s);
    FlagsSame(s);
    assert s.scopes + [] == s.scopes;
  }

  lemma ScansLoop(c: Command, s: State)
    requires Ready(s) && Fits(c) && c.Loop?
    ensures Agrees(s, Text(c), Means(c, s.names, FlagsOf(Top(s)), RemovalSafe(s)))
    decreases c, 0
  {
    hide Run, Step, RemovalSafe, Inner, Ended;
    var e := Effect(s.names, FlagsOf(Top(s)));
    var rest := [Reserved(Do)] + (Lined(c.body) + [Reserved(Done)]);
    ToLoop(s);
    RunFirst(s, Reserved(While), Lined(c.test) + rest);
    var q := Step(s, Reserved(While)).value;
    InnerSafe(s, q, [], 0, 1, e);
    InnerTop(s, q, [], 0, 1, e);
    Scans(c.test, q);
    ScansLined(c.test, s, q, [], 0, 1, e);
    RunAppend(q, Lined(c.test), rest);
    var et := Means(c.test, s.names, FlagsOf(Top(s)), false);
    if et.Some? {
      ScansBody(c.body, s, Run(q, Lined(c.test)).value, Effect(et.value.names, Behind(et.value.flags)));
    }
  }

  /** The head of a for loop, up to its semicolon. */
  lemma RunEach(s: State, words: seq<Token>)
    requires Ready(s) && Ordinary(words) && words != []
    ensures var q := Run(s, [Reserved(For)] + (words + [Reserved(Semi)]));
      q.Some? && Ready(q.value) && Inner(s, q.value, [], 0, 1, Effect(s.names, Behind(FlagsOf(Top(s)))))
  {
    hide Run, Step;
    RunFirst(s, Reserved(For), words + [Reserved(Semi)]);
    StepFor(s);
    var q := Step(s, Reserved(For)).value;
    RunWords(q, words);
    RunAppend(q, words, [Reserved(Semi)]);
    var m := Run(q, words).value;
    RunOne(m, Reserved(Semi));
    StepSemi(m);
    assert s.scopes + [] == s.scopes;
  }

  lemma ScansEach(c: Command, s: State)
    requires Ready(s) && Fits(c) && c.Each?
    ensures Agrees(s, Text(c), Means(c, s.names, FlagsOf(Top(s)), RemovalSafe(s)))
    decreases c, 0
  {
    hide Run, Step, RemovalSafe, Inner, Ended;
    var front := [Reserved(For)] + (c.words + [Reserved(Semi)]);
    var rest := [Reserved(Do)] + (Lined(c.body) + [Reserved(Done)]);
    assert Text(c) == front + rest;
    RunEach(s, c.words);
    RunAppend(s, front, rest);
    ScansBody(c.body, s, Run(s, front).value, Effect(s.names, Behind(FlagsOf(Top(s)))));
  }

  // Subshells and groups

  lemma ToInside(s: State)
    requires Ready(s)
    ensures var q := Step(s, Reserved(Open));
      && q.Some? && Ready(q.value)
      && Inner(s, q.value, [Frame(InSubshell, s.names)], 0, 0, Effect(s.names, FlagsOf(Top(s))))
  {
    hide Step;
    StepOpen(s);
    FlagsSame(s);
  }

  lemma ToClose(s: State, q: State, r: State, e: Effect, e': Effect)
    requires Inner(s, q, [Frame(InSubshell, s.names)], 0, 0, e) && Place(s).AtBody? && Ended(q, r, e')
    ensures var m := Step(r, Reserved(Close)); m.Some? && Ended(s, m.value, Effect(s.names, e'.flags))
  {
    hide Step, RemovalSafe;
    StepClose(r);
    assert r.scopes[..|r.scopes| - 1] == s.scopes;
    var top := |s.braces| - 1;
    assert s.braces[top := Flagged(Top(s), e.flags)][top := Flagged(Top(s), e'.flags)]
        == s.braces[top := Flagged(Top(s), e'.flags)];
  }

  lemma ScansSubshell(c: Command, s: State)
    requires Ready(s) && Fits(c) && c.Subshell?
    ensures Agrees(s, Text(c), Means(c, s.names, FlagsOf(Top(s)), RemovalSafe(s)))
    decreases c, 0
  {
    hide Run, Step, RemovalSafe, Inner, Ended;
    var e := Effect(s.names, FlagsOf(Top(s)));
    ToInside(s);
    RunFirst(s, Reserved(Open), Text(c.body) + [Reserved(Close)]);
    var q := Step(s, Reserved(Open)).value;
    InnerSafe(s, q, [Frame(InSubshell, s.names)], 0, 0, e);
    InnerTop(s, q, [Frame(InSubshell, s.names)], 0, 0, e);
    Scans(c.body, q);
    RunAppend(q, Text(c.body), [Reserved(Close)]);
    var eb := Means(c.body, s.names, FlagsOf(Top(s)), RemovalSafe(s));
    if eb.Some? {
      var r := Run(q, Text(c.body)).value;
      ToClose(s, q, r, e, eb.value);
      RunOne(r, Reserved(Close));
    }
  }

  /** A command on a brace level of its own. */
  lemma ScansLevel(c: Command, q: State)
    requires Ready(q) && Fits(c) && FlagsOf(Top(q)) == FRESH
    ensures var ec := Means(c, q.names, FRESH, RemovalSafe(q));
      var r := Run(q, Lined(c));
      if ec.None? then r.None?
      else r.Some? && Ready(r.value)
           && Inner(q, r.value, [], 0, 0, Effect(ec.value.names, Behind(ec.value.flags)))
    decreases c, 3
  {
    hide Run, Step, RemovalSafe, Inner, Ended, Means;
    InnerStart(q);
    Scans(c, q);
    ScansLined(c, q, q, [], 0, 0, Effect(q.names, FRESH));
  }

  /** The group that opens in `s`. */
  function Grouped(s: State): State {
    s.(compoundEnd := false, braces := s.braces + [LEVEL.(saved := Some(s.names))])
  }

  lemma GroupShuts(s: State, m: State, e: Effect)
    requires Ready(s) && Ready(m) && Inner(Grouped(s), m, [], 0, 0, e)
    ensures var (f, r) := (FlagsOf(Top(s)), Step(m, Reserved(RBrace)));
      if e.flags.ever && f.operator then r.None?
      else r.Some? && Ended(s, r.value, Effect(e.names, if e.flags.ever then Defining(f) else f))
  {
    hide Step, RemovalSafe;
    StepRBrace(m);
    assert m.braces[..|m.braces| - 1] == s.braces;
    assert s.scopes + [] == s.scopes;
    FlagsSame(s);
  }

  lemma ScansGroup(c: Command, s: State)
    requires Ready(s) && Fits(c) && c.Group?
    ensures Agrees(s, Text(c), Means(c, s.names, FlagsOf(Top(s)), RemovalSafe(s)))
    decreases c, 0
  {
    hide Run, Step, RemovalSafe, Inner, Ended;
    var q := Grouped(s);
    StepLBrace(s);
    RunFirst(s, Reserved(LBrace), Lined(c.body) + [Reserved(RBrace)]);
    SafeStays(s, q);
    ScansLevel(c.body, q);
    RunAppend(q, Lined(c.body), [Reserved(RBrace)]);
    var eb := Means(c.body, s.names, FRESH, RemovalSafe(s));
    if eb.Some? {
      var m := Run(q, Lined(c.body)).value;
      GroupShuts(s, m, Effect(eb.value.names, Behind(eb.value.flags)));
      RunOne(m, Reserved(RBrace));
    }
  }

  // Functions

  /** The body that the header opens in `s`. */
  function Headed(s: State, name: string): State
    requires s.braces != []
  {
    var top := |s.braces| - 1;
    s.(compoundEnd := false, names := Plus(s.names, name),
       braces := s.braces[top := s.braces[top].(listDefinition := true, definition := true)] + [LEVEL],
       bodies := s.bodies + [Body(top + 1, Plus(s.names, name))])
  }

  lemma BodyShuts(s: State, name: string, m: State, e: Effect)
    requires Ready(s) && Ready(m) && !Top(s).listOperator && Inner(Headed(s, name), m, [], 0, 0, e)
    ensures var r := Step(m, Reserved(RBrace));
      r.Some? && Ended(s, r.value, Effect(Plus(s.names, name), Defining(FlagsOf(Top(s)))))
  {
    hide Step, RemovalSafe;
    StepBodyEnd(m);
    var top := |s.braces| - 1;
    assert m.braces[..|m.braces| - 1] == s.braces[top := Flagged(Top(s), Defining(FlagsOf(Top(s))))];
    assert m.bodies[..|m.bodies| - 1] == s.bodies;
    assert s.scopes + [] == s.scopes;
  }

  lemma ScansFunction(c: Command, s: State)
    requires Ready(s) && Fits(c) && c.Function?
    ensures Agrees(s, Text(c), Means(c, s.names, FlagsOf(Top(s)), RemovalSafe(s)))
    decreases c, 0
  {
    hide Run, Step, RemovalSafe, Inner, Ended;
    StepHeader(s, c.name);
    RunFirst(s, Heading(c.name), Lined(c.body) + [Reserved(RBrace)]);
    if !Top(s).listOperator {
      var q := Headed(s, c.name);
      SafeStays(s, q);
      ScansLevel(c.body, q);
      RunAppend(q, Lined(c.body), [Reserved(RBrace)]);
      var eb := Means(c.body, q.names, FRESH, RemovalSafe(s));
      if eb.Some? {
        var m := Run(q, Lined(c.body)).value;
        BodyShuts(s, c.name, m, Effect(eb.value.names, Behind(eb.value.flags)));
        RunOne(m, Reserved(RBrace));
      }
    }
  }

  // Cases

  /** Between two branches of the case that was entered in `s`. */
  predicate Patterned(s: State, q: State, f: Flags) {
    && s.braces != [] && q.names == s.names && q.braces == s.braces[|s.braces| - 1 := Flagged(Top(s), f)]
    && q.scopes == s.scopes && q.bodies == s.bodies && q.cases == s.cases + [AtPattern]
    && q.ifs == s.ifs && q.elifs == s.elifs && q.loops == s.loops
    && q.mode.NoRemoval? && !q.started && q.patternDepth == 0
  }

  lemma {:induction false} RunPattern(q: State, ts: seq<Token>)
    requires InPattern(q) && Ordinary(ts)
    ensures Run(q, ts) == Some(if ts == [] then q else q.(compoundEnd := false, started := true))
  {
    hide Step;
    if ts != [] {
      var front := ts[..|ts| - 1];
      RunPattern(q, front);
      StepPatternWord(Run(q, front).value, ts[|ts| - 1]);
    }
  }

  /** The body of a branch. */
  function InBody(q: State): State
    requires q.cases != []
  {
    q.(compoundEnd := false, started := true, commandStart := true, cases := q.cases[|q.cases| - 1 := AtBody],
       scopes := q.scopes + [Frame(InBranch, q.names)])
  }

  lemma ToBody(s: State, q: State, f: Flags, pattern: seq<Token>)
    requires Ready(s) && Patterned(s, q, f) && Ordinary(pattern) && pattern != []
    ensures Run(q, pattern + [Reserved(Close)]) == Some(InBody(q))
    ensures var p := InBody(q); Ready(p) && !RemovalSafe(p) && p.names == s.names && FlagsOf(Top(p)) == f
  {
    hide Run, Step;
    RunPattern(q, pattern);
    RunAppend(q, pattern, [Reserved(Close)]);
    var q1 := Run(q, pattern).value;
    RunOne(q1, Reserved(Close));
    StepPatternEnd(q1);
    var p := InBody(q);
    assert p.scopes[|q.scopes|].kind == InBranch;
  }

  lemma FromBody(s: State, q: State, f: Flags, r: State, e: Effect)
    requires Ready(s) && Patterned(s, q, f) && Ended(InBody(q), r, e) && !RemovalSafe(InBody(q))
    ensures var m := Step(r, Reserved(BranchEnd)); m.Some? && Patterned(s, m.value, e.flags) && m.value.cases != []
  {
    hide Step, RemovalSafe;
    StepBranchEnd(r);
    assert r.scopes[..|r.scopes| - 1] == s.scopes;
    var top := |s.braces| - 1;
    assert s.braces[top := Flagged(Top(s), f)][top := Flagged(Top(s), e.flags)]
        == s.braces[top := Flagged(Top(s), e.flags)];
    assert r.cases[|r.cases| - 1 := AtPattern] == s.cases + [AtPattern];
  }

  lemma ScansBranches(bs: Branches, s: State, q: State, f: Flags)
    requires Ready(s) && AllFit(bs) && Patterned(s, q, f) && q.braces != [] && q.cases != []
    ensures var (f', r) := (AllMean(bs, s.names, f), Run(q, BranchTexts(bs)));
      if f'.None? then r.None? else r.Some? && Patterned(s, r.value, f'.value)
    decreases bs, 0
  {
    hide Run, Step, RemovalSafe, Ended, Patterned, Means, InBody;
    if bs.NoBranch? {
      RunNothing(q);
    } else {
      var rest := [Reserved(BranchEnd)] + BranchTexts(bs.rest);
      var front := bs.pattern + [Reserved(Close)];
      ToBody(s, q, f, bs.pattern);
      var p := InBody(q);
      assert BranchTexts(bs) == front + (Text(bs.body) + rest);
      RunAppend(q, front, Text(bs.body) + rest);
      Scans(bs.body, p);
      RunAppend(p, Text(bs.body), rest);
      var e := Means(bs.body, s.names, f, false);
      if e.Some? {
        var r := Run(p, Text(bs.body)).value;
        FromBody(s, q, f, r, e.value);
        RunFirst(r, Reserved(BranchEnd), BranchTexts(bs.rest));
        ScansBranches(bs.rest, s, Step(r, Reserved(BranchEnd)).value, e.value.flags);
      }
    }
  }

  lemma RunNothing(s: State)
    requires s.braces != []
    ensures Run(s, []) == Some(s)
  {
  }

  lemma ToEsac(s: State, m: State, f: Flags)
    requires Ready(s) && Patterned(s, m, f)
    ensures var r := Step(m, Reserved(Esac)); r.Some? && Ended(s, r.value, Effect(s.names, f))
  {
    hide Step;
    StepEsac(m);
    assert m.cases[..|m.cases| - 1] == s.cases;
  }

  lemma ScansCases(c: Command, s: State)
    requires Ready(s) && Fits(c) && c.Cases?
    ensures Agrees(s, Text(c), Means(c, s.names, FlagsOf(Top(s)), RemovalSafe(s)))
    decreases c, 0
  {
    hide Run, Step, RemovalSafe, Ended;
    var front := [Reserved(Case), c.word, Reserved(In)];
    StepCase(s, c.word);
    RunAppend(s, front, BranchTexts(c.branches) + [Reserved(Esac)]);
    var q := Run(s, front).value;
    FlagsSame(s);
    var f := FlagsOf(Top(s));
    ScansBranches(c.branches, s, q, f);
    RunAppend(q, BranchTexts(c.branches), [Reserved(Esac)]);
    var f' := AllMean(c.branches, s.names, f);
    if f'.Some? {
      var m := Run(q, BranchTexts(c.branches)).value;
      ToEsac(s, m, f'.value);
      RunOne(m, Reserved(Esac));
    }
  }

  /** Every text of the grammar: the scanner accepts it exactly when it means something, and leaves the names, the
      scopes and the marks of its level as it means. */
  lemma Scans(c: Command, s: State)
    requires Ready(s) && Fits(c)
    ensures Agrees(s, Text(c), Means(c, s.names, FlagsOf(Top(s)), RemovalSafe(s)))
    decreases c, 2
  {
    match c
    case Simple(_, _) => ScansSimple(c, s);
    case Remove(_, _) => ScansRemove(c, s);
    case Sequence(_, _) => ScansSequence(c, s);
    case Chain(_, _) => ScansChain(c, s);
    case Conditional(_, _, _) => ScansConditional(c, s);
    case Loop(_, _) => ScansLoop(c, s);
    case Each(_, _) => ScansEach(c, s);
    case Subshell(_) => ScansSubshell(c, s);
    case Group(_) => ScansGroup(c, s);
    case Function(_, _) => ScansFunction(c, s);
    case Cases(_, _) => ScansCases(c, s);
  }

  /** A whole line of the grammar, the names in front of it being those of the caller: it is accepted exactly when it
      means something, and then the names behind it are as it means. */
  lemma LineScans(c: Command, caller: set<string>, candidate: set<string>)
    requires Fits(c)
    ensures var n := Names(caller, caller, candidate * caller);
      var (e, r) := (Means(c, n, FRESH, true), Run(Initial(caller, candidate), Text(c)));
      && (Accepts(caller, candidate, Text(c)) <==> e.Some?)
      && (e.Some? ==> r.Some? && r.value.names == e.value.names)
  {
    hide Run, Step, Means, Text;
    var s := Initial(caller, candidate);
    Scans(c, s);
  }
}
