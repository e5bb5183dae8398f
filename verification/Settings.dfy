// The settings file: single-quoted values, one assignment a line, and the laws
// that tie writing a key to loading the file.

module Settings {
  import opened Common

  /** Exit status 2 of the writer; the file stays as it is. */
  datatype Result<+T> = Ok(value: T) | InvalidKey | InvalidValue

  // ------------------------------------------------------------------------
  // Quoting

  function Escaped(v: string): string {
    if v == "" then "" else (if v[0] == '\'' then "'\\''" else [v[0]]) + Escaped(v[1..])
  }

  function Quote(v: string): string {
    "'" + Escaped(v) + "'"
  }

  /** Every `'\''`, found from the left, becomes a quote. */
  function Unescaped(s: string): string {
    if s == "" then ""
    else if |s| >= 4 && s[..4] == "'\\''" then "'" + Unescaped(s[4..])
    else [s[0]] + Unescaped(s[1..])
  }

  predicate Special(c: char) {
    c in "`$<>|&;(){}" || c == ' ' || '\t' <= c <= '\r'
  }

  predicate Enclosed(raw: string, q: char) {
    |raw| >= 2 && raw[0] == q && raw[|raw| - 1] == q
  }

  function ParseValue(raw: string): Option<string> {
    if Enclosed(raw, '\'') then Some(Unescaped(raw[1..|raw| - 1]))
    else if Enclosed(raw, '\"') || exists i | 0 <= i < |raw| :: Special(raw[i]) then None
    else Some(raw)
  }

  lemma {:induction false} UnescapeEscape(v: string)
    ensures Unescaped(Escaped(v)) == v
  {
    if v != "" {
      UnescapeEscape(v[1..]);
      UnescapeOne(v[0], Escaped(v[1..]));
      assert v == [v[0]] + v[1..];
    }
  }

  lemma UnescapeOne(c: char, e: string)
    ensures Unescaped((if c == '\'' then "'\\''" else [c]) + e) == [c] + Unescaped(e)
  {
  }

  lemma ParseQuote(v: string)
    ensures ParseValue(Quote(v)) == Some(v)
  {
    UnescapeEscape(v);
    assert Quote(v)[1..|Quote(v)| - 1] == Escaped(v);
  }

  // ------------------------------------------------------------------------
  // Lines

  predicate KeyChar(c: char) {
    'A' <= c <= 'Z' || '0' <= c <= '9' || c == '_'
  }

  predicate ValidKey(k: string) {
    |k| > 7 && k[..7] == "LMLINE_" && forall i | 7 <= i < |k| :: KeyChar(k[i])
  }

  /** Position of the first `=`, or the length. */
  function Equals(s: string): (i: nat)
    ensures i <= |s| && (forall j | 0 <= j < i :: s[j] != '=') && (i < |s| ==> s[i] == '=')
  {
    if s == "" || s[0] == '=' then 0 else 1 + Equals(s[1..])
  }

  lemma EqualsAt(s: string, i: nat)
    requires i < |s| && s[i] == '=' && forall j | 0 <= j < i :: s[j] != '='
    ensures Equals(s) == i
  {
  }

  const EXPORT: string := "export "

  predicate IsExport(line: string) {
    EXPORT <= line && "LMLINE_" <= line[7..]
  }

  function ParseLine(line: string): Option<(string, string)> {
    if !IsExport(line) then None
    else
      var rest := line[7..];
      var e := Equals(rest);
      if e == |rest| || !ValidKey(rest[..e]) then None
      else match ParseValue(rest[e + 1..])
        case None => None
        case Some(v) => Some((rest[..e], Captured(v)))
  }

  function Assignment(key: string, value: string): string {
    EXPORT + key + "=" + Quote(value)
  }

  /** The lines that the writer takes out before it appends the new one. */
  predicate Assigns(line: string, key: string) {
    EXPORT + key + "=" <= line
  }

  function Apply(m: map<string, string>, line: string): map<string, string> {
    match ParseLine(line)
    case None => m
    case Some((k, v)) => m[k := v]
  }

  function Load(lines: seq<string>): map<string, string> {
    if lines == [] then map[] else Apply(Load(lines[..|lines| - 1]), lines[|lines| - 1])
  }

  function Without(lines: seq<string>, key: string): seq<string> {
    if lines == [] then []
    else
      var rest := Without(lines[..|lines| - 1], key);
      if Assigns(lines[|lines| - 1], key) then rest else rest + [lines[|lines| - 1]]
  }

  // ------------------------------------------------------------------------
  // Text

  /** The lines of a file, an unfinished last line included. */
  function Split(text: string, cur: string): seq<string>
    decreases |text|
  {
    if text == "" then (if cur == "" then [] else [cur])
    else if text[0] == '\n' then [cur] + Split(text[1..], "")
    else Split(text[1..], cur + [text[0]])
  }

  function Join(lines: seq<string>): string {
    if lines == [] then "" else lines[0] + "\n" + Join(lines[1..])
  }

  predicate OneLine(s: string) {
    forall i | 0 <= i < |s| :: s[i] != '\n'
  }

  predicate ControlFree(v: string) {
    forall i | 0 <= i < |v| :: v[i] >= ' ' && v[i] != 127 as char
  }

  function LoadText(text: string): map<string, string> {
    Load(Split(text, ""))
  }

  /** What loading a file gives; a missing file gives nothing. */
  function LoadFile(file: Option<string>): map<string, string> {
    if file.Some? then LoadText(file.value) else map[]
  }

  function SetInFile(file: Option<string>, key: string, value: string): Result<Option<string>> {
    if !ValidKey(key) then InvalidKey
    else if !ControlFree(value) then InvalidValue
    else Ok(Some(Join(Without(Split(if file.Some? then file.value else "", ""), key) + [Assignment(key, value)])))
  }

  function UnsetInFile(file: Option<string>, key: string): Result<Option<string>> {
    if !ValidKey(key) then InvalidKey
    else if file.None? then Ok(None)
    else Ok(Some(Join(Without(Split(file.value, ""), key))))
  }

  // ------------------------------------------------------------------------
  // Laws

  /** A line that assigns to a valid key is read by its value. */
  lemma LineParts(key: string, raw: string)
    requires ValidKey(key)
    ensures ParseLine(EXPORT + key + "=" + raw)
         == match ParseValue(raw) { case None => None case Some(v) => Some((key, Captured(v))) }
  {
    hide ParseValue, Captured;
    var line, rest := EXPORT + key + "=" + raw, key + "=" + raw;
    assert line[7..] == rest && line[..7] == EXPORT;
    assert rest[..7] == key[..7];
    KeyHasNoEquals(key);
    EqualsAt(rest, |key|);
    assert rest[..|key|] == key && rest[|key| + 1..] == raw;
  }

  lemma ParseAssignment(key: string, value: string)
    requires ValidKey(key) && OneLine(value)
    ensures ParseLine(Assignment(key, value)) == Some((key, value))
  {
    hide ParseLine, ParseValue, Captured, Quote;
    LineParts(key, Quote(value));
    ParseQuote(value);
    CapturedPrefix(value);
  }

  lemma KeyHasNoEquals(key: string)
    requires ValidKey(key)
    ensures forall i | 0 <= i < |key| :: key[i] != '=' && key[i] != '\n'
  {
  }

  /** A value without quotes around it stands for itself when no character in it is special, and a line with any other
      value, or one in double quotes, is passed over. */
  lemma UnquotedLine(key: string, raw: string)
    requires ValidKey(key) && !Enclosed(raw, '\'')
    ensures var plain := !Enclosed(raw, '\"') && forall i | 0 <= i < |raw| :: !Special(raw[i]);
      ParseLine(EXPORT + key + "=" + raw) == if plain then Some((key, Captured(raw))) else None
  {
    hide ParseLine, Special, ValidKey;
    LineParts(key, raw);
  }

  /** A later line for a key wins over the lines in front of it, and leaves the other keys alone. */
  lemma LaterLineWins(lines: seq<string>, key: string, value: string)
    requires ValidKey(key) && OneLine(value)
    ensures Load(lines + [Assignment(key, value)]) == Load(lines)[key := value]
  {
    ParseAssignment(key, value);
    LoadSnoc(lines, Assignment(key, value));
  }

  /** A line is taken out exactly when the loader would read it as this key, or as nothing. */
  lemma AssignsMeansKey(line: string, key: string)
    requires ValidKey(key)
    ensures Assigns(line, key) ==> ParseLine(line).None? || ParseLine(line).value.0 == key
    ensures ParseLine(line).Some? && ParseLine(line).value.0 == key ==> Assigns(line, key)
  {
    var p := EXPORT + key + "=";
    KeyHasNoEquals(key);
    if Assigns(line, key) && IsExport(line) {
      var rest := line[7..];
      assert forall i | 0 <= i < |p| :: line[i] == p[i];
      assert forall i | 0 <= i <= |key| :: rest[i] == p[7 + i];
      EqualsAt(rest, |key|);
      assert rest[..|key|] == key;
    }
    if ParseLine(line).Some? && ParseLine(line).value.0 == key {
      var rest := line[7..];
      assert rest[..|key| + 1] == key + "=";
      assert line == EXPORT + rest;
      assert line[..|p|] == p;
    }
  }

  lemma {:induction false} LoadWithout(lines: seq<string>, key: string)
    requires ValidKey(key)
    ensures Load(Without(lines, key)) == Load(lines) - {key}
  {
    hide ParseLine, Assigns;
    if lines != [] {
      var front, last := lines[..|lines| - 1], lines[|lines| - 1];
      LoadWithout(front, key);
      AssignsMeansKey(last, key);
      if !Assigns(last, key) {
        LoadSnoc(Without(front, key), last);
      }
    }
  }

  lemma LoadSnoc(lines: seq<string>, last: string)
    ensures Load(lines + [last]) == Apply(Load(lines), last)
  {
  }

  lemma {:induction false} SplitLine(l: string, rest: string, cur: string)
    requires OneLine(l)
    ensures Split(l + "\n" + rest, cur) == [cur + l] + Split(rest, "")
    decreases |l|
  {
    if l == "" {
      assert l + "\n" + rest == "\n" + rest && ("\n" + rest)[1..] == rest && cur + l == cur;
    } else {
      assert (l + "\n" + rest)[1..] == l[1..] + "\n" + rest;
      SplitLine(l[1..], rest, cur + [l[0]]);
      assert cur + [l[0]] + l[1..] == cur + l;
    }
  }

  lemma {:induction false} SplitJoin(lines: seq<string>)
    requires forall i | 0 <= i < |lines| :: OneLine(lines[i])
    ensures Split(Join(lines), "") == lines
  {
    if lines != [] {
      SplitLine(lines[0], Join(lines[1..]), "");
      SplitJoin(lines[1..]);
      assert "" + lines[0] == lines[0];
    }
  }

  lemma {:induction false} SplitOneLine(text: string, cur: string)
    requires OneLine(cur)
    ensures forall i | 0 <= i < |Split(text, cur)| :: OneLine(Split(text, cur)[i])
    decreases |text|
  {
    if text != "" {
      SplitOneLine(text[1..], if text[0] == '\n' then "" else cur + [text[0]]);
    }
  }

  lemma {:induction false} WithoutOneLine(lines: seq<string>, key: string)
    requires forall i | 0 <= i < |lines| :: OneLine(lines[i])
    ensures forall i | 0 <= i < |Without(lines, key)| :: OneLine(Without(lines, key)[i])
  {
    if lines != [] { WithoutOneLine(lines[..|lines| - 1], key); }
  }

  lemma {:induction false} EscapedOneLine(v: string)
    requires OneLine(v)
    ensures OneLine(Escaped(v))
  {
    if v != "" { EscapedOneLine(v[1..]); }
  }

  /** Lines are taken out wherever they stand, and the others keep their order. */
  lemma {:induction false} WithoutAppend(a: seq<string>, b: seq<string>, key: string)
    ensures Without(a + b, key) == Without(a, key) + Without(b, key)
    ensures forall l | l in Without(a, key) :: l in a && !Assigns(l, key)
  {
    hide Assigns;
    if b != [] {
      var front := b[..|b| - 1];
      assert (a + b)[..|a + b| - 1] == a + front;
      WithoutAppend(a, front, key);
    } else {
      assert a + b == a;
      if a != [] {
        WithoutAppend(a[..|a| - 1], [], key);
      }
    }
  }

  lemma AssignmentOneLine(key: string, value: string)
    requires ValidKey(key) && OneLine(value)
    ensures OneLine(Assignment(key, value))
  {
    KeyHasNoEquals(key);
    EscapedOneLine(value);
  }

  lemma {:induction false} UnescapedOneLine(s: string)
    requires OneLine(s)
    ensures OneLine(Unescaped(s))
  {
    if |s| >= 4 && s[..4] == "'\\''" {
      UnescapedOneLine(s[4..]);
    } else if s != "" {
      UnescapedOneLine(s[1..]);
    }
  }

  lemma ParsedOneLine(line: string)
    requires OneLine(line) && ParseLine(line).Some?
    ensures OneLine(ParseLine(line).value.1)
  {
    var rest := line[7..];
    var raw := rest[Equals(rest) + 1..];
    assert OneLine(raw);
    if Enclosed(raw, '\'') {
      UnescapedOneLine(raw[1..|raw| - 1]);
    }
    CapturedPrefix(ParseValue(raw).value);
  }

  lemma {:induction false} CapturedPrefix(s: string)
    ensures Captured(s) <= s
    ensures OneLine(s) ==> Captured(s) == s
  {
    if s != "" && s[|s| - 1] == '\n' { CapturedPrefix(s[..|s| - 1]); }
  }

  /** No file gives a key a value with a line feed. */
  lemma {:induction false} LoadOneLine(lines: seq<string>, key: string)
    requires (forall i | 0 <= i < |lines| :: OneLine(lines[i])) && key in Load(lines)
    ensures OneLine(Load(lines)[key])
  {
    hide ParseLine, OneLine;
    var front, last := lines[..|lines| - 1], lines[|lines| - 1];
    if ParseLine(last).Some? && ParseLine(last).value.0 == key {
      ParsedOneLine(last);
    } else {
      LoadOneLine(front, key);
    }
  }

  lemma LoadTextOneLine(text: string, key: string)
    requires key in LoadText(text)
    ensures OneLine(LoadText(text)[key])
  {
    SplitOneLine(text, "");
    LoadOneLine(Split(text, ""), key);
  }

  /** A file that holds one assignment. */
  lemma AssignmentLoads(key: string, value: string)
    requires ValidKey(key) && OneLine(value)
    ensures LoadText(Assignment(key, value) + "\n") == map[key := value]
  {
    var line := Assignment(key, value);
    AssignmentOneLine(key, value);
    SplitJoin([line]);
    assert Join([line]) == line + "\n" + "";
    assert line + "\n" + "" == line + "\n";
    LoadSnoc([], line);
    assert [] + [line] == [line];
    ParseAssignment(key, value);
  }

  /** A quoted value comes back through the loader exactly when it holds no line feed. */
  lemma QuotedValueReturns(key: string, value: string)
    requires ValidKey(key)
    ensures LoadText(Assignment(key, value) + "\n") == map[key := value] <==> OneLine(value)
  {
    if OneLine(value) {
      AssignmentLoads(key, value);
    } else if LoadText(Assignment(key, value) + "\n") == map[key := value] {
      LoadTextOneLine(Assignment(key, value) + "\n", key);
      assert false;
    }
  }

  lemma Unbroken(value: string)
    requires ControlFree(value)
    ensures OneLine(value)
  {
  }

  lemma NoLines()
    ensures Split("", "") == [] && Load([]) == map[]
  {
  }

  /** A set keeps the other lines as they were, in their order, and the new one is the last. */
  lemma SetWrites(file: Option<string>, key: string, value: string)
    requires ValidKey(key) && ControlFree(value)
    ensures var (r, before) := (SetInFile(file, key, value), Split(if file.Some? then file.value else "", ""));
      r.Ok? && r.value.Some? && Split(r.value.value, "") == Without(before, key) + [Assignment(key, value)]
  {
    hide Split, Join, Without, Assignment, ValidKey;
    var before := Split(if file.Some? then file.value else "", "");
    SplitOneLine(if file.Some? then file.value else "", "");
    WithoutOneLine(before, key);
    AssignmentOneLine(key, value);
    SplitJoin(Without(before, key) + [Assignment(key, value)]);
  }

  /** Loading after a set gives the old settings updated at the key. */
  lemma SetThenLoad(file: Option<string>, key: string, value: string)
    requires ValidKey(key) && ControlFree(value)
    ensures var r := SetInFile(file, key, value);
      r.Ok? && LoadFile(r.value) == LoadFile(file)[key := value]
  {
    hide Split, Without, Load, Assignment, ValidKey, SetInFile, ControlFree;
    var before := Split(if file.Some? then file.value else "", "");
    SetWrites(file, key, value);
    NoLines();
    Unbroken(value);
    LaterLineWins(Without(before, key), key, value);
    LoadWithout(before, key);
  }

  /** Loading after an unset gives the old settings without the key. */
  lemma UnsetThenLoad(file: Option<string>, key: string)
    requires ValidKey(key)
    ensures var r := UnsetInFile(file, key);
      r.Ok? && LoadFile(r.value) == LoadFile(file) - {key}
  {
    if file.Some? {
      var before := Split(file.value, "");
      SplitOneLine(file.value, "");
      WithoutOneLine(before, key);
      SplitJoin(Without(before, key));
      LoadWithout(before, key);
    }
  }
}
