// The streamed answer: content deltas are cut into lines, which are held back or
// printed within a byte budget. A character stands for one byte.

module Streaming {
  import opened Common

  const LF := '\n'

  predicate Space(c: char) {
    c == ' ' || '\t' <= c <= '\r'
  }

  // ------------------------------------------------------------------------
  // Lines

  datatype Text = Text(lines: seq<string>, tail: string)

  predicate Ends(c: char) {
    c == LF || c == '\r'
  }

  predicate Flat(l: string) {
    forall i | 0 <= i < |l| :: !Ends(l[i])
  }

  /** The complete lines of a text and what follows the last line end; CR and LF both end a line. */
  function Split(t: string): Text {
    if t == [] then Text([], [])
    else
      var (front, c) := (Split(t[..|t| - 1]), t[|t| - 1]);
      if Ends(c) then Text(front.lines + [front.tail], []) else front.(tail := front.tail + [c])
  }

  function Newline(c: char): char {
    if c == '\r' then LF else c
  }

  function Newlines(t: string): string {
    if t == [] then [] else Newlines(t[..|t| - 1]) + [Newline(t[|t| - 1])]
  }

  function Unlines(lines: seq<string>): string {
    if lines == [] then [] else Unlines(lines[..|lines| - 1]) + lines[|lines| - 1] + [LF]
  }

  /** What the split means: the pieces put together are the text, and none holds a line end. */
  lemma {:induction false} SplitIsLines(t: string)
    ensures Unlines(Split(t).lines) + Split(t).tail == Newlines(t)
    ensures Flat(Split(t).tail) && forall i | 0 <= i < |Split(t).lines| :: Flat(Split(t).lines[i])
  {
    if t != [] {
      var s, c := Split(t[..|t| - 1]), t[|t| - 1];
      SplitIsLines(t[..|t| - 1]);
      if Ends(c) {
        assert (s.lines + [s.tail])[..|s.lines|] == s.lines;
      }
    }
  }

  lemma {:induction false} SplitFlat(l: string)
    requires Flat(l)
    ensures Split(l) == Text([], l)
  {
    if l != [] {
      SplitFlat(l[..|l| - 1]);
    }
  }

  /** One more character behind a split text. */
  function More(s: Text, c: char): Text {
    if Ends(c) then Text(s.lines + [s.tail], []) else s.(tail := s.tail + [c])
  }

  lemma SplitSnoc(t: string, c: char)
    ensures Split(t + [c]) == More(Split(t), c)
  {
    assert (t + [c])[..|t|] == t;
  }

  lemma MoreBehind(lines: seq<string>, s: Text, c: char)
    ensures More(Text(lines + s.lines, s.tail), c) == Text(lines + More(s, c).lines, More(s, c).tail)
  {
  }

  lemma {:induction false} SplitAppend(t: string, u: string)
    ensures Split(t + u) == Text(Split(t).lines + Split(Split(t).tail + u).lines, Split(Split(t).tail + u).tail)
  {
    hide Split, More;
    var s := Split(t);
    if u == [] {
      assert t + u == t && s.tail + u == s.tail;
      SplitIsLines(t);
      SplitFlat(s.tail);
    } else {
      var front, c := u[..|u| - 1], u[|u| - 1];
      assert t + u == (t + front) + [c] && s.tail + u == (s.tail + front) + [c];
      SplitSnoc(t + front, c);
      SplitSnoc(s.tail + front, c);
      SplitAppend(t, front);
      MoreBehind(s.lines, Split(s.tail + front), c);
    }
  }

  /** Splitting off the first line. */
  lemma SplitFirst(t: string, i: nat)
    requires i < |t| && t[i] == LF && Flat(t[..i])
    ensures Split(t) == Text([t[..i]] + Split(t[i + 1..]).lines, Split(t[i + 1..]).tail)
  {
    var head := t[..i + 1];
    assert t == head + t[i + 1..] && head[..|head| - 1] == t[..i];
    SplitFlat(t[..i]);
    assert Split(head) == Text([t[..i]], []);
    SplitAppend(head, t[i + 1..]);
    assert [] + t[i + 1..] == t[i + 1..];
  }

  lemma {:induction false} SplitNewlines(t: string, u: string)
    requires Flat(t)
    ensures Split(t + Newlines(u)) == Split(t + u)
  {
    if u != [] {
      var front := u[..|u| - 1];
      assert (t + u)[..|t + u| - 1] == t + front;
      assert (t + Newlines(u))[..|t + Newlines(u)| - 1] == t + Newlines(front);
      SplitNewlines(t, front);
    }
  }

  lemma {:induction false} NewlinesOnly(t: string)
    ensures |Newlines(t)| == |t| && forall i | 0 <= i < |t| :: Newlines(t)[i] == Newline(t[i])
  {
    if t != [] {
      NewlinesOnly(t[..|t| - 1]);
    }
  }

  /** A delta appended to the unfinished line, with its carriage returns turned into line feeds. */
  lemma Arrives(t: string, u: string)
    ensures var s := Split(t); var buf := s.tail + Newlines(u);
      Split(t + u) == Text(s.lines + Split(buf).lines, Split(buf).tail) && '\r' !in buf
  {
    SplitIsLines(t);
    SplitAppend(t, u);
    SplitNewlines(Split(t).tail, u);
    NewlinesOnly(u);
  }

  lemma FlatBuffer(l: string)
    requires LF !in l && '\r' !in l
    ensures Split(l) == Text([], l)
  {
    assert forall i | 0 <= i < |l| :: l[i] in l;
    SplitFlat(l);
  }

  /** The lines handled once the stream ended: an unfinished last line counts unless it is empty. */
  function AllLines(t: string): seq<string> {
    Split(t).lines + if Split(t).tail == [] then [] else [Split(t).tail]
  }

  // ------------------------------------------------------------------------
  // One line

  function TrimLeft(l: string): string {
    if l != [] && Space(l[0]) then TrimLeft(l[1..]) else l
  }

  function TrimRight(l: string): string {
    if l != [] && Space(l[|l| - 1]) then TrimRight(l[..|l| - 1]) else l
  }

  function Trim(l: string): string {
    TrimRight(TrimLeft(l))
  }

  function Lower(l: string): (r: string)
    ensures |r| == |l|
  {
    seq(|l|, i requires 0 <= i < |l| => if 'A' <= l[i] <= 'Z' then (l[i] as int + 32) as char else l[i])
  }

  /** `name`, optionally `ing`, white space, and a closing bracket. */
  predicate Tag(l: string, name: string) {
    && name <= l
    && var n := if name + "ing" <= l then |name| + 3 else |name|;
    && n < |l| && l[|l| - 1] == '>'
    && forall i | n <= i < |l| - 1 :: Space(l[i])
  }

  predicate Opens(l: string) {
    Tag(Lower(Trim(l)), "<think")
  }

  predicate Closes(l: string) {
    Tag(Lower(Trim(l)), "</think")
  }

  predicate ToolRequest(l: string) {
    "TOOL " <= Trim(l) || "Tool " <= Trim(l) || "tool " <= Trim(l)
  }

  // ------------------------------------------------------------------------
  // Which lines are caught

  predicate Spaces(t: string) {
    forall i | 0 <= i < |t| :: Space(t[i])
  }

  /** No white space at either end. */
  predicate Tight(t: string) {
    t != [] && !Space(t[0]) && !Space(t[|t| - 1])
  }

  lemma {:induction false} TrimLeftIs(a: string, t: string)
    requires Spaces(a) && (t == [] || !Space(t[0]))
    ensures TrimLeft(a + t) == t
  {
    if a == [] {
      assert a + t == t;
    } else {
      assert (a + t)[1..] == a[1..] + t;
      TrimLeftIs(a[1..], t);
    }
  }

  lemma {:induction false} TrimRightIs(t: string, b: string)
    requires Spaces(b) && (t == [] || !Space(t[|t| - 1]))
    ensures TrimRight(t + b) == t
  {
    if b == [] {
      assert t + b == t;
    } else {
      assert (t + b)[..|t + b| - 1] == t + b[..|b| - 1];
      TrimRightIs(t, b[..|b| - 1]);
    }
  }

  lemma TrimIs(a: string, t: string, b: string)
    requires Spaces(a) && Tight(t) && Spaces(b)
    ensures Trim(a + t + b) == t
  {
    assert a + t + b == a + (t + b);
    TrimLeftIs(a, t + b);
    TrimRightIs(t, b);
  }

  lemma {:induction false} TrimLeftParts(l: string) returns (a: string)
    ensures Spaces(a) && l == a + TrimLeft(l) && (TrimLeft(l) == [] || !Space(TrimLeft(l)[0]))
  {
    a := [];
    if l != [] && Space(l[0]) {
      var rest := TrimLeftParts(l[1..]);
      a := [l[0]] + rest;
    }
  }

  lemma {:induction false} TrimRightParts(l: string) returns (b: string)
    ensures Spaces(b) && l == TrimRight(l) + b && (TrimRight(l) == [] || !Space(TrimRight(l)[|TrimRight(l)| - 1]))
  {
    b := [];
    if l != [] && Space(l[|l| - 1]) {
      var rest := TrimRightParts(l[..|l| - 1]);
      b := rest + [l[|l| - 1]];
    }
  }

  /** A line is its trimmed form between white space. */
  lemma TrimParts(l: string) returns (a: string, b: string)
    ensures Spaces(a) && Spaces(b) && l == a + Trim(l) + b && (Trim(l) == [] || Tight(Trim(l)))
  {
    a := TrimLeftParts(l);
    b := TrimRightParts(TrimLeft(l));
    assert a + (Trim(l) + b) == a + Trim(l) + b;
    if Trim(l) != [] {
      assert Trim(l)[0] == TrimLeft(l)[0];
    }
  }

  /** A tag in a line: white space, `<name` or `<nameing` in any case, white space, a closing bracket, white space. */
  predicate Written(l: string, name: string, a: string, t: string, gap: string, b: string) {
    && l == a + (t + gap + ">") + b && Spaces(a) && Spaces(gap) && Spaces(b)
    && (Lower(t) == name || Lower(t) == name + "ing")
  }

  lemma TagTight(name: string, t: string, gap: string)
    requires (Lower(t) == name || Lower(t) == name + "ing") && name != [] && name[0] == '<'
    ensures Tight(t + gap + ">")
  {
    assert Lower(t)[0] == '<';
  }

  lemma TagWritten(name: string, t: string, gap: string)
    requires (Lower(t) == name || Lower(t) == name + "ing") && Spaces(gap)
    ensures Tag(Lower(t + gap + ">"), name)
  {
    var l := Lower(t + gap + ">");
    assert forall i | 0 <= i < |t| :: l[i] == Lower(t)[i];
    assert forall i | 0 <= i < |gap| :: l[|t| + i] == gap[i];
    assert l[..|t|] == Lower(t);
    assert name <= l;
    assert |t| == |name| ==> l[|name|] != 'i';
    assert name + "ing" <= l ==> l[|name|] == (name + "ing")[|name|];
  }

  lemma TagParts(name: string, l: string) returns (t: string, gap: string)
    requires Tag(Lower(l), name)
    ensures l == t + gap + ">" && Spaces(gap) && (Lower(t) == name || Lower(t) == name + "ing")
  {
    var n := if name + "ing" <= Lower(l) then |name| + 3 else |name|;
    t, gap := l[..n], l[n..|l| - 1];
    assert Lower(t) == Lower(l)[..n];
    assert forall i | n <= i < |l| - 1 :: Space(Lower(l)[i]) && Lower(l)[i] == l[i];
    assert l == t + gap + [l[|l| - 1]];
  }

  /** The lines that open or close a think block are exactly the tags, in any case and with white space around them
      and in front of the bracket. */
  lemma TagsCaught(l: string, name: string)
    requires name != [] && name[0] == '<'
    ensures Tag(Lower(Trim(l)), name) <==> exists a, t, gap, b :: Written(l, name, a, t, gap, b)
  {
    hide Tag, Trim, Tight;
    if Tag(Lower(Trim(l)), name) {
      var a, b := TrimParts(l);
      var t, gap := TagParts(name, Trim(l));
      assert Written(l, name, a, t, gap, b);
    }
    if a, t, gap, b :| Written(l, name, a, t, gap, b) {
      TagTight(name, t, gap);
      TrimIs(a, t + gap + ">", b);
      TagWritten(name, t, gap);
    }
  }

  /** A request in a line: white space, the word in one of three spellings, a blank, and more than white space. */
  predicate Requests(l: string, a: string, word: string, rest: string) {
    && l == a + (word + " " + rest) && Spaces(a) && !Spaces(rest)
    && (word == "TOOL" || word == "Tool" || word == "tool")
  }

  lemma RequestFound(l: string, a: string, word: string, rest: string)
    requires Requests(l, a, word, rest)
    ensures ToolRequest(l)
  {
    var b := TrimRightParts(rest);
    var core := TrimRight(rest);
    assert core != [] by { NotOnlySpaces(rest, core, b); }
    var t := word + " " + core;
    assert l == a + t + b;
    TrimIs(a, t, b);
    assert word + " " <= t;
  }

  lemma NotOnlySpaces(rest: string, core: string, b: string)
    requires !Spaces(rest) && rest == core + b && Spaces(b)
    ensures core != []
  {
  }

  lemma RequestParts(l: string) returns (a: string, word: string, rest: string)
    requires ToolRequest(l)
    ensures Requests(l, a, word, rest)
  {
    var b;
    a, b := TrimParts(l);
    var t := Trim(l);
    word, rest := t[..4], t[5..] + b;
    assert t[4] == ' ';
    assert t == word + " " + t[5..];
    assert |t| > 5;
    assert rest[|t| - 6] == t[|t| - 1];
    assert l == a + (word + " " + rest);
  }

  /** The lines that are held back as tool requests. */
  lemma RequestsCaught(l: string)
    ensures ToolRequest(l) <==> exists a, word, rest :: Requests(l, a, word, rest)
  {
    hide ToolRequest, Requests;
    if ToolRequest(l) {
      var a, word, rest := RequestParts(l);
    }
    if a, word, rest :| Requests(l, a, word, rest) {
      RequestFound(l, a, word, rest);
    }
  }

  /** A line that may reach the display when no think block is open. */
  predicate Displayable(l: string) {
    !Opens(l) && !Closes(l) && !ToolRequest(l) && Trim(l) != []
  }

  datatype View = View(skip: bool, content: nat, emitted: nat, truncated: bool, lines: seq<string>)

  const START := View(false, 0, 0, false, [])

  function Handle(v: View, budget: nat, l: string): View {
    if Opens(l) then v.(skip := true)
    else if Closes(l) then v.(skip := false)
    else if v.skip || !Displayable(l) then v
    else if budget > 0 && v.emitted + |l| + 1 > budget then v.(content := v.content + |l| + 1, truncated := true)
    else v.(content := v.content + |l| + 1, emitted := v.emitted + |l| + 1, lines := v.lines + [l])
  }

  function HandleAll(lines: seq<string>, budget: nat): View {
    if lines == [] then START else Handle(HandleAll(lines[..|lines| - 1], budget), budget, lines[|lines| - 1])
  }

  lemma HandleMore(lines: seq<string>, budget: nat, l: string)
    ensures HandleAll(lines + [l], budget) == Handle(HandleAll(lines, budget), budget, l)
  {
  }

  function Display(text: string, budget: nat): View {
    HandleAll(AllLines(text), budget)
  }

  // ------------------------------------------------------------------------
  // The stream

  function FirstLF(t: string): (i: nat)
    requires LF in t
    ensures i < |t| && t[i] == LF && forall k | 0 <= k < i :: t[k] != LF
  {
    if t[0] == LF then 0 else 1 + FirstLF(t[1..])
  }

  class Stream {
    const budget: nat
    var skip: bool
    var contentBytes: nat
    var emittedBytes: nat
    var truncated: bool
    var gotContent: bool
    var printed: seq<string>
    var content: string
    var buf: string

    constructor (budget: nat)
      ensures this.budget == budget && Valid() && content == []
    {
      this.budget := budget;
      skip, contentBytes, emittedBytes, truncated, gotContent := false, 0, 0, false, false;
      printed, content, buf := [], [], [];
    }

    ghost function Shown(): View
      reads this
    {
      View(skip, contentBytes, emittedBytes, truncated, printed)
    }

    /** Everything the stream keeps follows from the content received so far. */
    ghost predicate Valid()
      reads this
    {
      && Shown() == HandleAll(Split(content).lines, budget)
      && gotContent == (printed != [])
      && buf == Split(content).tail
    }

    method HandleLine(l: string) returns (emitted: bool)
      modifies this`skip, this`contentBytes, this`emittedBytes, this`truncated, this`printed
      ensures Shown() == Handle(old(Shown()), budget, l)
      ensures printed == old(printed) + if emitted then [l] else []
    {
      if Opens(l) {
        skip := true;
        return false;
      }
      if Closes(l) {
        skip := false;
        return false;
      }
      if skip || ToolRequest(l) || Trim(l) == [] {
        return false;
      }
      contentBytes := contentBytes + |l| + 1;
      if budget > 0 && emittedBytes + |l| + 1 > budget {
        truncated := true;
        return false;
      }
      emittedBytes := emittedBytes + |l| + 1;
      printed := printed + [l];
      return true;
    }

    /** One content delta. */
    method Feed(chunk: string)
      requires Valid()
      modifies this
      ensures Valid() && content == old(content) + chunk
    {
      hide Handle, Displayable, Split, HandleAll, Newlines, Opens, Closes, ToolRequest, Trim;
      Arrives(content, chunk);
      ghost var done := Split(content).lines;
      content := content + chunk;
      buf := buf + Newlines(chunk);
      while LF in buf
        invariant Split(content) == Text(done + Split(buf).lines, Split(buf).tail)
        invariant Shown() == HandleAll(done, budget)
        invariant gotContent == (printed != [])
        invariant '\r' !in buf && content == old(content) + chunk
        decreases |buf|
      {
        var i := FirstLF(buf);
        var line := buf[..i];
        assert Flat(line);
        SplitFirst(buf, i);
        HandleMore(done, budget, line);
        done := done + [line];
        buf := buf[i + 1..];
        var emitted := HandleLine(line);
        gotContent := gotContent || emitted;
      }
      FlatBuffer(buf);
      assert done + [] == done;
    }

    /** The end of the stream. */
    method Finish()
      requires Valid()
      modifies this
      ensures Shown() == Display(content, budget)
      ensures gotContent == (printed != []) && content == old(content)
    {
      if buf != [] {
        HandleMore(Split(content).lines, budget, buf);
        var emitted := HandleLine(buf);
        gotContent := gotContent || emitted;
      } else {
        assert AllLines(content) == Split(content).lines;
      }
    }
  }

  /** However the text is cut into deltas, the display is the one of the whole text. */
  method Receive(chunks: seq<string>, budget: nat) returns (v: View, got: bool, content: string)
    ensures v == Display(Concat(chunks), budget)
    ensures got == (v.lines != []) && content == Concat(chunks)
  {
    var s := new Stream(budget);
    for i := 0 to |chunks|
      invariant s.Valid() && s.budget == budget && s.content == Concat(chunks[..i])
    {
      assert chunks[..i + 1][..i] == chunks[..i];
      s.Feed(chunks[i]);
    }
    assert chunks[..|chunks|] == chunks;
    s.Finish();
    v := View(s.skip, s.contentBytes, s.emittedBytes, s.truncated, s.printed);
    got, content := s.gotContent, s.content;
  }

  // ------------------------------------------------------------------------
  // What is displayed

  function SkipAfter(lines: seq<string>): bool {
    lines != []
    && var l := lines[|lines| - 1];
    (Opens(l) || (!Closes(l) && SkipAfter(lines[..|lines| - 1])))
  }

  /** A think block is open exactly after an opening line with no closing line behind it. */
  lemma {:induction false} SkipMeans(lines: seq<string>)
    ensures SkipAfter(lines)
       <==> exists j | 0 <= j < |lines| ::
              Opens(lines[j]) && forall k | j < k < |lines| :: Opens(lines[k]) || !Closes(lines[k])
  {
    hide Opens, Closes;
    if lines != [] {
      var front, n := lines[..|lines| - 1], |lines| - 1;
      SkipMeans(front);
      if !Opens(lines[n]) && !Closes(lines[n]) && SkipAfter(front) {
        var j :| 0 <= j < n && Opens(front[j]) && forall k | j < k < n :: Opens(front[k]) || !Closes(front[k]);
        assert Opens(lines[j]);
        assert forall k | j < k < n :: lines[k] == front[k];
      }
      if j :| 0 <= j < n && Opens(lines[j]) && forall k | j < k < |lines| :: Opens(lines[k]) || !Closes(lines[k]) {
        assert Opens(front[j]);
        assert forall k | j < k < n :: lines[k] == front[k];
      }
    }
  }

  /** The lines outside think blocks that are neither blank nor tool requests. */
  function Eligible(lines: seq<string>): seq<string> {
    if lines == [] then []
    else
      var (front, l) := (lines[..|lines| - 1], lines[|lines| - 1]);
      if Displayable(l) && !SkipAfter(front) then Eligible(front) + [l] else Eligible(front)
  }

  function Size(lines: seq<string>): nat {
    if lines == [] then 0 else Size(lines[..|lines| - 1]) + |lines[|lines| - 1]| + 1
  }

  /** Each line that still fits is kept. */
  function Fit(lines: seq<string>, budget: nat): seq<string> {
    if lines == [] then []
    else
      var (kept, l) := (Fit(lines[..|lines| - 1], budget), lines[|lines| - 1]);
      if budget > 0 && Size(kept) + |l| + 1 > budget then kept else kept + [l]
  }

  lemma SizeMore(lines: seq<string>, l: string)
    ensures Size(lines + [l]) == Size(lines) + |l| + 1
  {
  }

  /** A view that agrees with the eligible lines. */
  ghost predicate Agrees(v: View, skip: bool, e: seq<string>, budget: nat) {
    && v.lines == Fit(e, budget) && v.skip == skip
    && v.content == Size(e) && v.emitted == Size(v.lines)
    && v.emitted <= v.content && (v.truncated <==> v.content > v.emitted)
  }

  lemma AgreesMore(v: View, e: seq<string>, budget: nat, l: string)
    requires Agrees(v, false, e, budget) && Displayable(l)
    ensures Agrees(Handle(v, budget, l), false, e + [l], budget)
  {
    hide Opens, Closes, ToolRequest, Trim, Size;
    assert (e + [l])[..|e|] == e;
    SizeMore(e, l);
    SizeMore(v.lines, l);
  }

  /** A line that adds nothing to the eligible ones. */
  lemma AgreesSame(v: View, skip: bool, e: seq<string>, budget: nat, l: string)
    requires Agrees(v, skip, e, budget) && (!Displayable(l) || skip)
    ensures Agrees(Handle(v, budget, l), Opens(l) || (!Closes(l) && skip), e, budget)
  {
    hide Opens, Closes, ToolRequest, Trim, Size, Fit;
  }

  /** The display in terms of the eligible lines, the counters included. */
  lemma {:induction false} DisplayIsFit(lines: seq<string>, budget: nat)
    ensures Agrees(HandleAll(lines, budget), SkipAfter(lines), Eligible(lines), budget)
  {
    if lines != [] {
      var front, l := lines[..|lines| - 1], lines[|lines| - 1];
      DisplayIsFit(front, budget);
      AgreesNext(lines, budget);
    }
  }

  lemma AgreesNext(lines: seq<string>, budget: nat)
    requires lines != []
    requires var front := lines[..|lines| - 1];
      Agrees(HandleAll(front, budget), SkipAfter(front), Eligible(front), budget)
    ensures Agrees(HandleAll(lines, budget), SkipAfter(lines), Eligible(lines), budget)
  {
    hide Opens, Closes, ToolRequest, Trim, Size, Fit, Handle, Agrees;
    var front, l := lines[..|lines| - 1], lines[|lines| - 1];
    var v := HandleAll(front, budget);
    if Displayable(l) && !SkipAfter(front) {
      AgreesMore(v, Eligible(front), budget, l);
    } else {
      AgreesSame(v, SkipAfter(front), Eligible(front), budget, l);
    }
  }

  lemma {:induction false} FitBounds(lines: seq<string>, budget: nat)
    requires budget > 0
    ensures Size(Fit(lines, budget)) <= budget
    ensures Fit(lines, budget) == lines <==> Size(lines) <= budget
    ensures |Fit(lines, budget)| <= |lines|
  {
    if lines != [] {
      var front, l := lines[..|lines| - 1], lines[|lines| - 1];
      FitBounds(front, budget);
      SizeMore(Fit(front, budget), l);
      if |Fit(lines, budget)| == |lines| {
        assert Fit(front, budget) + [l] == lines <==> Fit(front, budget) == front;
      }
    }
  }

  /** The byte bound, what the counters mean, and when something was cut. */
  lemma DisplayBounded(text: string, budget: nat)
    requires budget > 0
    ensures var (v, e) := (Display(text, budget), Eligible(AllLines(text)));
      && v.emitted == Size(v.lines) <= budget && v.content == Size(e)
      && (v.truncated <==> v.content > v.emitted)
      && (v.truncated <==> Size(e) > budget)
      && (!v.truncated <==> v.lines == e)
  {
    DisplayIsFit(AllLines(text), budget);
    FitBounds(Eligible(AllLines(text)), budget);
  }

  /** Emission does not stop at the first line that is withheld. */
  lemma LaterLineStillPrints(long: string, short: string, budget: nat)
    requires Displayable(long) && Displayable(short) && |short| + 1 <= budget < |long| + 1
    ensures HandleAll([long, short], budget).lines == [short] && HandleAll([long, short], budget).truncated
  {
    hide Opens, Closes, ToolRequest, Trim;
    HandleMore([], budget, long);
    HandleMore([long], budget, short);
    assert [] + [long] == [long] && [long] + [short] == [long, short];
  }

  // ------------------------------------------------------------------------
  // What follows the stream

  datatype Outcome = Answered | ToolRound | Fallback

  /** `calls`: tool requests were collected; `appended`: the assistant turn was stored. */
  function StreamOutcome(text: string, budget: nat, sawData: bool, complete: bool,
          calls: bool, appended: bool): Outcome {
    var v := Display(text, budget);
    if !sawData || (!complete && v.emitted == 0) then Fallback
    else if calls then if appended then ToolRound else Fallback
    else if v.lines == [] then Fallback
    else Answered
  }

  /** A stream that printed is abandoned at once exactly when it collected calls and storing their turn failed. */
  lemma FallbackAfterPrint(text: string, budget: nat, sawData: bool, complete: bool, calls: bool, appended: bool)
    requires !sawData ==> text == []
    ensures StreamOutcome(text, budget, sawData, complete, calls, appended).Fallback?
       && Display(text, budget).lines != []
       <==> calls && !appended && Display(text, budget).lines != []
  {
    DisplayIsFit(AllLines(text), budget);
  }
}
