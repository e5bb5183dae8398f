// Decoding the literal words of a local command line (quoting as in section 2.2
// of POSIX.1-2017 XCU) and the verdict on its segments.

module LocalWords {
  import opened Common
  import Settings

  datatype Verdict = Ok | UnsafePath | NotAllowed | Unsupported

  // ------------------------------------------------------------------------
  // One segment

  predicate Contains(s: string, sub: string) {
    exists i | 0 <= i <= |s| :: sub <= s[i..]
  }

  predicate EndsWith(s: string, sub: string) {
    |sub| <= |s| && s[|s| - |sub|..] == sub
  }

  predicate SuspiciousPath(p: string) {
    || "/" <= p || "~" <= p
    || p == ".." || "../" <= p || EndsWith(p, "/..") || Contains(p, "/../")
    || '$' in p
  }

  /** What follows the first `=`, or the whole word. */
  function Operand(w: string): string {
    var i := Settings.Equals(w);
    if i < |w| then w[i + 1..] else w
  }

  predicate SuspiciousWord(w: string) {
    SuspiciousPath(w) || SuspiciousPath(Operand(w))
  }

  const FIND_ACTIONS: set<string> :=
    {"-delete", "-exec", "-execdir", "-ok", "-okdir", "-fls", "-fprint", "-fprint0", "-fprintf"}

  predicate SegmentAllowed(allowed: set<string>, words: seq<string>) {
    && words != [] && words[0] != "" && '=' !in words[0] && words[0] in allowed
    && (words[0] == "find" ==> forall i | 1 <= i < |words| :: words[i] !in FIND_ACTIONS)
  }

  function WordsVerdict(allowed: set<string>, words: seq<string>): Verdict {
    if exists i | 0 <= i < |words| :: SuspiciousWord(words[i]) then UnsafePath
    else if SegmentAllowed(allowed, words) then Ok
    else NotAllowed
  }

  method WordsRejectionReason(allowed: set<string>, words: seq<string>) returns (v: Verdict)
    ensures v == WordsVerdict(allowed, words)
  {
    hide SuspiciousPath, Operand;
    for i := 0 to |words|
      invariant forall k | 0 <= k < i :: !SuspiciousWord(words[k])
    {
      if SuspiciousPath(words[i]) || SuspiciousPath(Operand(words[i])) {
        return UnsafePath;
      }
    }
    if words == [] || words[0] == "" || '=' in words[0] || words[0] !in allowed {
      return NotAllowed;
    }
    if words[0] == "find" {
      for i := 1 to |words|
        invariant forall k | 1 <= k < i :: words[k] !in FIND_ACTIONS
      {
        if words[i] in FIND_ACTIONS {
          return NotAllowed;
        }
      }
    }
    return Ok;
  }

  // ------------------------------------------------------------------------
  // The path test

  /** A path component `..` at offset `i`. */
  predicate DotDotAt(p: string, i: nat) {
    && i + 2 <= |p| && p[i] == '.' && p[i + 1] == '.'
    && (i == 0 || p[i - 1] == '/') && (i + 2 == |p| || p[i + 2] == '/')
  }

  /** The patterns catch exactly the absolute paths, home paths, expansions, and parent components. */
  lemma SuspiciousMeans(p: string)
    ensures SuspiciousPath(p)
       <==> (p != "" && p[0] in "/~") || '$' in p || exists i: nat :: DotDotAt(p, i)
  {
    hide Contains, EndsWith, DotDotAt;
    assert (p != "" && p[0] in "/~") <==> "/" <= p || "~" <= p;
    if i: nat :| DotDotAt(p, i) {
      DotDotCaught(p, i);
    }
    if DotDots(p) {
      var i := DotDotFound(p);
    }
  }

  /** A word of the form `name=value` is suspicious for its whole or for the value; any other for its whole. */
  lemma SuspiciousOperand(name: string, value: string)
    requires '=' !in name
    ensures SuspiciousWord(name) <==> SuspiciousPath(name)
    ensures SuspiciousWord(name + "=" + value) <==> SuspiciousPath(name + "=" + value) || SuspiciousPath(value)
  {
    hide SuspiciousPath, Settings.Equals;
    EqualsAt(name, value);
    assert (name + "=" + value)[|name| + 1..] == value;
  }

  lemma {:induction false} EqualsAt(name: string, value: string)
    requires '=' !in name
    ensures Settings.Equals(name) == |name| && Settings.Equals(name + "=" + value) == |name|
  {
    if name == "" {
      assert "" + "=" + value == "=" + value;
    } else {
      EqualsAt(name[1..], value);
      assert (name + "=" + value)[1..] == name[1..] + "=" + value;
    }
  }

  predicate DotDots(p: string) {
    p == ".." || "../" <= p || EndsWith(p, "/..") || Contains(p, "/../")
  }

  lemma DotDotCaught(p: string, i: nat)
    requires DotDotAt(p, i)
    ensures DotDots(p)
  {
    if i == 0 {
      hide Contains, EndsWith;
      assert p == ".." || p[..3] == "../";
    } else if i + 2 == |p| {
      hide Contains;
      assert p[i - 1..] == "/..";
    } else {
      hide EndsWith;
      assert "/../" <= p[i - 1..];
    }
  }

  lemma DotDotFound(p: string) returns (i: nat)
    requires DotDots(p)
    ensures DotDotAt(p, i)
  {
    if p == ".." || "../" <= p {
      i := 0;
    } else if EndsWith(p, "/..") {
      var t := p[|p| - 3..];
      assert t[0] == '/' && t[1] == '.' && t[2] == '.';
      i := |p| - 2;
    } else {
      var j :| 0 <= j <= |p| && "/../" <= p[j..];
      var t := p[j..];
      assert t[0] == '/' && t[1] == '.' && t[2] == '.' && t[3] == '/';
      i := j + 1;
    }
  }

  // ------------------------------------------------------------------------
  // Words

  datatype Mode = Plain | Single | Double | PlainEscape | DoubleEscape

  /** `done`: the segments in front of a pipe; `words` and `word` are of the open segment.
      `active`: a word is open, even when it is empty. `stuck`: why decoding stopped. */
  datatype Scanner = Scanner(done: seq<seq<string>>, words: seq<string>, word: string, active: bool, mode: Mode,
                             stuck: Option<Verdict>)

  const START := Scanner([], [], "", false, Plain, None)

  function Closed(s: Scanner): seq<string> {
    if s.active then s.words + [s.word] else s.words
  }

  function Flush(s: Scanner): Scanner {
    if s.active then s.(words := s.words + [s.word], word := "", active := false) else s
  }

  predicate DoubleEscapes(c: char) {
    c in "\\\"$`"
  }

  function StepPlain(s: Scanner, c: char): Scanner {
    if c == '\\' then s.(mode := PlainEscape, active := true)
    else if c == '\'' then s.(mode := Single, active := true)
    else if c == '\"' then s.(mode := Double, active := true)
    else if c == ' ' || c == '\t' then Flush(s)
    else if c == '|' then Flush(s).(done := s.done + [Closed(s)], words := [])
    else if c in "*?[#" then s.(stuck := Some(Unsupported))
    else if c == '~' then s.(stuck := Some(UnsafePath))
    else s.(word := s.word + [c], active := true)
  }

  function Step(s: Scanner, c: char): Scanner {
    if s.stuck.Some? then s
    else
      match s.mode
      case Plain => StepPlain(s, c)
      case Single => if c == '\'' then s.(mode := Plain) else s.(word := s.word + [c])
      case Double =>
        if c == '\\' then s.(mode := DoubleEscape, active := true)
        else if c == '\"' then s.(mode := Plain)
        else s.(word := s.word + [c])
      case PlainEscape => s.(word := s.word + [c], mode := Plain)
      case DoubleEscape => s.(word := s.word + (if DoubleEscapes(c) then [c] else ['\\', c]), mode := Double)
  }

  function Scan(s: Scanner, text: string): Scanner {
    if text == "" then s else Step(Scan(s, text[..|text| - 1]), text[|text| - 1])
  }

  /** Decoding ended inside no quotes; a final backslash stands for nothing. */
  predicate Complete(s: Scanner) {
    s.stuck.None? && (s.mode.Plain? || s.mode.PlainEscape?)
  }

  /** All segments of a decoded line. */
  function Segments(s: Scanner): seq<seq<string>> {
    s.done + [Closed(s)]
  }

  function FirstReason(allowed: set<string>, segments: seq<seq<string>>): Verdict {
    if segments == [] then Ok
    else
      var front := FirstReason(allowed, segments[..|segments| - 1]);
      if front != Ok then front else WordsVerdict(allowed, segments[|segments| - 1])
  }

  /** The verdict of a line: the first reason in the order of the text. */
  function Judge(allowed: set<string>, line: string): Verdict {
    var s := Scan(START, line);
    var front := FirstReason(allowed, s.done);
    if front != Ok then front
    else if s.stuck.Some? then s.stuck.value
    else if !Complete(s) then Unsupported
    else WordsVerdict(allowed, Closed(s))
  }

  // ------------------------------------------------------------------------
  // The decoder

  lemma {:induction false} ScanAppend(s: Scanner, a: string, b: string)
    ensures Scan(s, a + b) == Scan(Scan(s, a), b)
  {
    if b == "" {
      assert a + b == a;
    } else {
      assert (a + b)[..|a + b| - 1] == a + b[..|b| - 1];
      ScanAppend(s, a, b[..|b| - 1]);
    }
  }

  lemma ScanOne(line: string, i: nat)
    requires i < |line|
    ensures Scan(START, line[..i + 1]) == Step(Scan(START, line[..i]), line[i])
  {
    assert line[..i + 1][..i] == line[..i];
  }

  lemma StepKeeps(s: Scanner, c: char)
    ensures s.done <= Step(s, c).done
    ensures s.stuck.Some? ==> Step(s, c) == s
    ensures s.stuck.None? && Step(s, c).stuck.Some? ==> Step(s, c).stuck.value != Ok
  {
  }

  lemma {:induction false} ScanKeeps(s: Scanner, text: string)
    ensures s.done <= Scan(s, text).done
    ensures s.stuck.Some? ==> Scan(s, text) == s
    ensures s.stuck.None? && Scan(s, text).stuck.Some? ==> Scan(s, text).stuck.value != Ok
  {
    hide Step;
    if text != "" {
      var front, c := text[..|text| - 1], text[|text| - 1];
      ScanKeeps(s, front);
      StepKeeps(Scan(s, front), c);
    }
  }

  lemma {:induction false} FirstReasonPrefix(allowed: set<string>, a: seq<seq<string>>, b: seq<seq<string>>)
    requires a <= b
    ensures FirstReason(allowed, a) != Ok ==> FirstReason(allowed, b) == FirstReason(allowed, a)
  {
    if |b| > |a| {
      FirstReasonPrefix(allowed, a, b[..|b| - 1]);
    } else {
      assert a == b;
    }
  }

  /** A reason found in front of the end is the verdict. */
  lemma Decided(allowed: set<string>, line: string, i: nat)
    requires i <= |line|
    ensures var s := Scan(START, line[..i]);
      && (FirstReason(allowed, s.done) != Ok ==> Judge(allowed, line) == FirstReason(allowed, s.done))
      && (FirstReason(allowed, s.done) == Ok && s.stuck.Some? ==> Judge(allowed, line) == s.stuck.value)
  {
    var s := Scan(START, line[..i]);
    assert line == line[..i] + line[i..];
    ScanAppend(START, line[..i], line[i..]);
    ScanKeeps(s, line[i..]);
    FirstReasonPrefix(allowed, s.done, Scan(START, line).done);
  }

  /** The scanner with a pending backslash resolved as at the end of the line. */
  function Settled(s: Scanner): Scanner {
    if s.mode.PlainEscape? then s.(mode := Plain)
    else if s.mode.DoubleEscape? then s.(mode := Double, word := s.word + ['\\'])
    else s
  }

  /** `s` is the decoder's state once the first `i` characters are consumed. */
  predicate Reached(line: string, i: nat, s: Scanner) {
    if i < |line| then Scan(START, line[..i]) == s else Settled(Scan(START, line)) == s
  }

  lemma Advance(line: string, i: nat, s: Scanner)
    requires i < |line| && Reached(line, i, s)
    ensures var t := Step(s, line[i]);
      && Scan(START, line[..i + 1]) == t
      && (t == Settled(t) ==> Reached(line, i + 1, t))
      && (i + 1 == |line| ==> Reached(line, i + 1, Settled(t)))
  {
    ScanOne(line, i);
    assert i + 1 == |line| ==> line[..i + 1] == line;
  }

  /** A backslash outside single quotes takes the next character with it. */
  lemma AdvanceEscape(line: string, i: nat, s: Scanner)
    requires i < |line| && Reached(line, i, s) && s.stuck.None? && line[i] == '\\' && (s.mode.Plain? || s.mode.Double?)
    ensures i + 1 == |line|
        ==> Reached(line, i + 1, s.(active := true, word := s.word + if s.mode.Plain? then "" else "\\"))
    ensures i + 1 < |line| ==>
      Reached(line, i + 2, s.(active := true,
        word := s.word + if s.mode.Plain? || DoubleEscapes(line[i + 1]) then [line[i + 1]] else ['\\', line[i + 1]]))
  {
    hide Reached;
    Advance(line, i, s);
    if i + 1 == |line| {
      assert s.word + "" == s.word;
    } else {
      var t := Step(s, line[i]);
      assert Reached(line, i + 1, t) by { ReachedAt(line, i + 1, t); }
      Advance(line, i + 1, t);
    }
  }

  lemma ReachedAt(line: string, i: nat, s: Scanner)
    requires i < |line| && Scan(START, line[..i]) == s
    ensures Reached(line, i, s)
  {
  }

  /** A rejection found on the way is the verdict of the whole line. */
  lemma ReachedDecides(allowed: set<string>, line: string, i: nat, s: Scanner)
    requires i < |line| && Reached(line, i, s)
    ensures var t := Step(s, line[i]);
      && (FirstReason(allowed, t.done) != Ok ==> Judge(allowed, line) == FirstReason(allowed, t.done))
      && (FirstReason(allowed, t.done) == Ok && t.stuck.Some? ==> Judge(allowed, line) == t.stuck.value)
  {
    ScanOne(line, i);
    Decided(allowed, line, i + 1);
  }

  lemma ReachedEnd(allowed: set<string>, line: string, i: nat, s: Scanner)
    requires i >= |line| && Reached(line, i, s) && FirstReason(allowed, s.done) == Ok && s.stuck.None?
    ensures Judge(allowed, line) == if s.mode.Plain? then WordsVerdict(allowed, Closed(s)) else Unsupported
  {
  }

  lemma FirstReasonMore(allowed: set<string>, front: seq<seq<string>>, words: seq<string>)
    ensures FirstReason(allowed, front + [words])
         == if FirstReason(allowed, front) != Ok then FirstReason(allowed, front) else WordsVerdict(allowed, words)
  {
  }

  /** The scan with its look-ahead, checking each segment at its pipe. */
  method LiteralRejectionReason(allowed: set<string>, line: string) returns (v: Verdict)
    ensures v == Judge(allowed, line)
  {
    hide FirstReason, WordsVerdict, Judge, Scan, Reached;
    var word, words, active, quote := "", [], false, Plain;
    ghost var done: seq<seq<string>> := [];
    var i := 0;
    StartReached(allowed, line);
    while i < |line|
      invariant quote.Plain? || quote.Single? || quote.Double?
      invariant Reached(line, i, Scanner(done, words, word, active, quote, None))
      invariant FirstReason(allowed, done) == Ok
      decreases |line| - i
    {
      ghost var s := Scanner(done, words, word, active, quote, None);
      var ch := line[i];
      Advance(line, i, s);
      if quote.Single? {
        if ch == '\'' { quote := Plain; } else { word := word + [ch]; }
        i := i + 1;
      } else if ch == '\\' {
        AdvanceEscape(line, i, s);
        var next := if i + 1 < |line| then [line[i + 1]] else "";
        assert word + [ch] + next == word + ([ch] + next);
        assert [ch] + next == if next == "" then "\\" else ['\\', next[0]];
        if !quote.Double? || (next != "" && DoubleEscapes(next[0])) {
          word := word + next;
          i := i + |next| + 1;
        } else {
          word := word + [ch] + next;
          i := i + |next| + 1;
        }
        active := true;
      } else if quote.Double? {
        if ch == '\"' { quote := Plain; } else { word := word + [ch]; }
        i := i + 1;
      } else if ch == '\'' || ch == '\"' {
        quote := if ch == '\'' then Single else Double;
        active := true;
        i := i + 1;
      } else if ch == ' ' || ch == '\t' || ch == '|' {
        if active {
          words := words + [word];
          word, active := "", false;
        }
        if ch == '|' {
          var rejection := WordsRejectionReason(allowed, words);
          FirstReasonMore(allowed, done, words);
          ReachedDecides(allowed, line, i, s);
          if rejection != Ok {
            return rejection;
          }
          done := done + [words];
          words := [];
        }
        i := i + 1;
      } else if ch in "*?[#" {
        ReachedDecides(allowed, line, i, s);
        return Unsupported;
      } else if ch == '~' {
        ReachedDecides(allowed, line, i, s);
        return UnsafePath;
      } else {
        word := word + [ch];
        active := true;
        i := i + 1;
      }
    }
    ReachedEnd(allowed, line, i, Scanner(done, words, word, active, quote, None));
    if !quote.Plain? {
      return Unsupported;
    }
    if active {
      words := words + [word];
    }
    v := WordsRejectionReason(allowed, words);
  }

  lemma StartReached(allowed: set<string>, line: string)
    ensures Reached(line, 0, START) && FirstReason(allowed, []) == Ok
  {
  }

  // ------------------------------------------------------------------------
  // What an `ok` verdict means

  predicate SegmentSafe(allowed: set<string>, words: seq<string>) {
    SegmentAllowed(allowed, words) && forall i | 0 <= i < |words| :: !SuspiciousWord(words[i])
  }

  lemma {:induction false} FirstReasonOk(allowed: set<string>, segments: seq<seq<string>>)
    ensures FirstReason(allowed, segments) == Ok
       <==> forall i | 0 <= i < |segments| :: SegmentSafe(allowed, segments[i])
  {
    hide SegmentAllowed, SuspiciousWord;
    if segments != [] {
      FirstReasonOk(allowed, segments[..|segments| - 1]);
      assert WordsVerdict(allowed, segments[|segments| - 1]) == Ok <==> SegmentSafe(allowed, segments[|segments| - 1]);
    }
  }

  /** A line is `ok` exactly when it decodes completely and every segment of its pipeline is safe:
      nonempty, an allowlisted command first, no suspicious word and no acting `find`. */
  lemma OkMeans(allowed: set<string>, line: string)
    ensures var s := Scan(START, line);
      Judge(allowed, line) == Ok
      <==> Complete(s) && forall i | 0 <= i < |Segments(s)| :: SegmentSafe(allowed, Segments(s)[i])
  {
    hide WordsVerdict, SegmentSafe;
    var s := Scan(START, line);
    ScanKeeps(START, line);
    FirstReasonOk(allowed, s.done);
    FirstReasonOk(allowed, Segments(s));
    FirstReasonMore(allowed, s.done, Closed(s));
  }

  // ------------------------------------------------------------------------
  // The printer

  /** The words of one segment, each in single quotes. */
  function PrintWords(words: seq<string>): string {
    if words == [] then ""
    else PrintWords(words[..|words| - 1]) + (if |words| > 1 then " " else "") + Settings.Quote(words[|words| - 1])
  }

  function PrintPipeline(segments: seq<seq<string>>): string
    requires segments != []
  {
    if |segments| == 1 then PrintWords(segments[0])
    else PrintPipeline(segments[..|segments| - 1]) + "|" + PrintWords(segments[|segments| - 1])
  }

  lemma ScanNothing(s: Scanner)
    ensures Scan(s, "") == s
  {
  }

  lemma Scan1(s: Scanner, a: char)
    ensures Scan(s, [a]) == Step(s, a)
  {
  }

  lemma ScanSnoc(s: Scanner, text: string, c: char)
    ensures Scan(s, text + [c]) == Step(Scan(s, text), c)
  {
  }

  lemma ScanEscapedQuote(s: Scanner)
    requires s.stuck.None? && s.mode.Single? && s.active
    ensures Scan(s, "'\\''") == s.(word := s.word + "'")
  {
    hide Scan;
    Scan1(s, '\'');
    ScanSnoc(s, "'", '\\');
    ScanSnoc(s, "'\\", '\'');
    ScanSnoc(s, "'\\'", '\'');
    assert "'" + ['\\'] == "'\\" && "'\\" + ['\''] == "'\\'" && "'\\'" + ['\''] == "'\\''";
    assert s.word + ['\''] == s.word + "'";
  }

  lemma {:induction false} ScanEscaped(s: Scanner, v: string)
    requires s.stuck.None? && s.mode.Single? && s.active
    ensures Scan(s, Settings.Escaped(v)) == s.(word := s.word + v)
    decreases v
  {
    hide Scan;
    assert Scan(s, "") == s by { ScanNothing(s); }
    if v == "" {
      assert s.word + v == s.word;
    } else {
      var s1 := s.(word := s.word + [v[0]]);
      if v[0] == '\'' {
        ScanEscapedQuote(s);
        ScanAppend(s, "'\\''", Settings.Escaped(v[1..]));
      } else {
        Scan1(s, v[0]);
        ScanAppend(s, [v[0]], Settings.Escaped(v[1..]));
      }
      ScanEscaped(s1, v[1..]);
      assert s.word + [v[0]] + v[1..] == s.word + v;
    }
  }

  /** A quoted value is taken whole into the open word, whatever it holds. */
  lemma ScanQuoted(s: Scanner, v: string)
    requires s.stuck.None? && s.mode.Plain?
    ensures Scan(s, Settings.Quote(v)) == s.(word := s.word + v, active := true)
  {
    hide Scan;
    var e := Settings.Escaped(v);
    var s1 := s.(mode := Single, active := true);
    Scan1(s, '\'');
    ScanEscaped(s1, v);
    Scan1(s1.(word := s.word + v), '\'');
    ScanAppend(s, "'", e);
    ScanAppend(s, "'" + e, "'");
  }

  lemma {:induction false} ScanWords(s: Scanner, words: seq<string>)
    requires s.stuck.None? && s.mode.Plain? && s.words == [] && s.word == "" && !s.active
    ensures var t := Scan(s, PrintWords(words));
      && t.stuck.None? && t.mode.Plain? && t.done == s.done && Closed(t) == words
      && t.active == (words != []) && (!t.active ==> t.word == "") && (words == [] ==> t == s)
  {
    hide Settings.Quote, Scan;
    if words == [] {
      ScanNothing(s);
    } else {
      var front, w := words[..|words| - 1], words[|words| - 1];
      ScanWords(s, front);
      ScanGap(s, front);
      var gap := if |words| > 1 then " " else "";
      var t := Scan(s, PrintWords(front) + gap);
      ScanAppend(s, PrintWords(front) + gap, Settings.Quote(w));
      ScanQuoted(t, w);
      assert "" + w == w && front + [w] == words;
    }
  }

  /** The blank behind a printed word closes it. */
  lemma ScanGap(s: Scanner, front: seq<string>)
    requires var t := Scan(s, PrintWords(front));
      && t.stuck.None? && t.mode.Plain? && t.done == s.done && Closed(t) == front
      && t.active == (front != []) && (!t.active ==> t.word == "")
    ensures var t := Scan(s, PrintWords(front) + if front != [] then " " else "");
      && t.stuck.None? && t.mode.Plain? && t.done == s.done && t.words == front && t.word == "" && !t.active
  {
    hide PrintWords, Scan;
    var t := Scan(s, PrintWords(front));
    if front == [] {
      assert PrintWords(front) + "" == PrintWords(front);
    } else {
      ScanAppend(s, PrintWords(front), " ");
      Scan1(t, ' ');
    }
  }

  lemma {:induction false} ScanPipeline(segments: seq<seq<string>>)
    requires segments != []
    ensures var t := Scan(START, PrintPipeline(segments));
      t.stuck.None? && t.mode.Plain? && Segments(t) == segments && (!t.active ==> t.word == "")
  {
    hide PrintWords, Scan;
    var last := segments[|segments| - 1];
    if |segments| == 1 {
      ScanWords(START, last);
      assert [last] == segments;
    } else {
      var front := segments[..|segments| - 1];
      ScanPipeline(front);
      ScanSegment(PrintPipeline(front), last);
      assert front + [last] == segments;
    }
  }

  /** A pipe and one more segment behind a text that leaves nothing open. */
  lemma ScanSegment(text: string, words: seq<string>)
    requires var t := Scan(START, text); t.stuck.None? && t.mode.Plain? && (!t.active ==> t.word == "")
    ensures var (t, u) := (Scan(START, text), Scan(START, text + "|" + PrintWords(words)));
      u.stuck.None? && u.mode.Plain? && Segments(u) == Segments(t) + [words] && (!u.active ==> u.word == "")
  {
    hide PrintWords, Scan;
    var t := Scan(START, text);
    Scan1(t, '|');
    var t1 := Step(t, '|');
    assert t1.done == t.done + [Closed(t)];
    ScanAppend(START, text, "|");
    ScanWords(t1, words);
    ScanAppend(START, text + "|", PrintWords(words));
  }

  /** Any pipeline of any words, printed in single quotes, decodes to itself; so its verdict is the
      verdict on the words that were printed. */
  lemma PrintedPipelineDecodes(allowed: set<string>, segments: seq<seq<string>>)
    requires segments != []
    ensures var s := Scan(START, PrintPipeline(segments)); Complete(s) && Segments(s) == segments
    ensures Judge(allowed, PrintPipeline(segments)) == FirstReason(allowed, segments)
  {
    ScanPipeline(segments);
    var s := Scan(START, PrintPipeline(segments));
    FirstReasonMore(allowed, s.done, Closed(s));
  }
}
