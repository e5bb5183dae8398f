// Completion edits in UTF-16 code units ("Position" in the Language Server
// Protocol 3.17): checked offsets, one edit, and the list of candidates.

module LspEdit {
  import opened Common

  type Unit = u: int | 0 <= u < 0x1_0000
  type Text = seq<Unit>

  predicate High(u: Unit) {
    0xD800 <= u < 0xDC00
  }

  predicate Low(u: Unit) {
    0xDC00 <= u < 0xE000
  }

  predicate PairAt(t: Text, i: int) {
    0 <= i < |t| - 1 && High(t[i]) && Low(t[i + 1])
  }

  /** An offset of the text that does not stand inside a surrogate pair. */
  predicate Boundary(t: Text, k: int) {
    0 <= k <= |t| && !PairAt(t, k - 1)
  }

  /** Walks the characters of the text up to the offset. */
  method Utf16Offset(text: Text, character: int) returns (r: int)
    ensures r == if Boundary(text, character) then character else -1
  {
    if character < 0 {
      return -1;
    }
    var units, index := 0, 0;
    while index < |text|
      invariant 0 <= index == units <= |text| && units <= character
      invariant Boundary(text, index)
    {
      if units == character {
        return index;
      }
      var width := if PairAt(text, index) then 2 else 1;
      if units + width > character {
        return -1;
      }
      units := units + width;
      index := index + width;
    }
    return if units == character then |text| else -1;
  }

  // ------------------------------------------------------------------------
  // One edit

  datatype Position = Position(line: int, character: int)
  datatype Range = Range(start: Position, end: Position)

  /** A completion: `replacing` is the second range of an insert-replace range and wins over it. */
  datatype Item = Item(text: Text, range: Option<Range>, replacing: Option<Range>)

  /** The start that `slice` uses for any integer: negative offsets count from the end. */
  function SliceIndex(t: Text, k: int): (r: nat)
    ensures r <= |t|
  {
    if k < 0 then if |t| + k < 0 then 0 else |t| + k else if k < |t| then k else |t|
  }

  function RangeOf(item: Item): Option<Range> {
    if item.range.None? then None else if item.replacing.Some? then item.replacing else item.range
  }

  function Apply(line: Text, item: Item, character: int): Option<Text> {
    var at := SliceIndex(line, character);
    if 10 in item.text || 13 in item.text then None
    else if RangeOf(item).None? then Some(line[..at] + item.text + line[at..])
    else
      var (start, end) := (RangeOf(item).value.start, RangeOf(item).value.end);
      if start.line != 0 || end.line != 0 then None
      else if !Boundary(line, start.character) || !Boundary(line, end.character) then None
      else if end.character < start.character then None
      else Some(line[..start.character] + item.text + line[end.character..])
  }

  method ApplyInlineItem(line: Text, item: Item, character: int) returns (r: Option<Text>)
    ensures r == Apply(line, item, character)
  {
    if 10 in item.text || 13 in item.text {
      return None;
    }
    if item.range.Some? {
      var range := if item.replacing.Some? then item.replacing.value else item.range.value;
      if range.start.line != 0 || range.end.line != 0 {
        return None;
      }
      var start := Utf16Offset(line, range.start.character);
      var end := Utf16Offset(line, range.end.character);
      if start < 0 || end < start {
        return None;
      }
      return Some(line[..start] + item.text + line[end..]);
    }
    var at := SliceIndex(line, character);
    return Some(line[..at] + item.text + line[at..]);
  }

  /** No lone surrogate. */
  predicate WellFormed(t: Text) {
    forall i | 0 <= i < |t| :: (High(t[i]) ==> PairAt(t, i)) && (Low(t[i]) ==> PairAt(t, i - 1))
  }

  lemma WellFormedCut(t: Text, k: nat)
    requires WellFormed(t) && k <= |t|
    ensures WellFormed(t[..k]) <==> Boundary(t, k)
    ensures WellFormed(t[k..]) <==> Boundary(t, k)
  {
    var a, b := t[..k], t[k..];
    if Boundary(t, k) {
      forall i | 0 <= i < |a|
        ensures (High(a[i]) ==> PairAt(a, i)) && (Low(a[i]) ==> PairAt(a, i - 1))
      {
        assert a[i] == t[i];
        assert PairAt(t, i) ==> i + 1 != k && PairAt(a, i);
        assert PairAt(t, i - 1) ==> PairAt(a, i - 1);
      }
      forall i | 0 <= i < |b|
        ensures (High(b[i]) ==> PairAt(b, i)) && (Low(b[i]) ==> PairAt(b, i - 1))
      {
        assert b[i] == t[k + i];
        assert PairAt(t, k + i - 1) ==> i > 0 && PairAt(b, i - 1);
        assert PairAt(t, k + i) ==> PairAt(b, i);
      }
    } else {
      assert High(a[k - 1]) && !PairAt(a, k - 1);
      assert Low(b[0]) && !PairAt(b, -1);
    }
  }

  lemma WellFormedJoin(a: Text, b: Text)
    requires WellFormed(a) && WellFormed(b)
    ensures WellFormed(a + b)
  {
    var t := a + b;
    forall i | 0 <= i < |t|
      ensures (High(t[i]) ==> PairAt(t, i)) && (Low(t[i]) ==> PairAt(t, i - 1))
    {
      if i < |a| {
        assert PairAt(a, i) ==> PairAt(t, i);
        assert PairAt(a, i - 1) ==> PairAt(t, i - 1);
      } else {
        assert PairAt(b, i - |a|) ==> PairAt(t, i);
        assert PairAt(b, i - |a| - 1) ==> PairAt(t, i - 1);
      }
    }
  }

  /** An edit by range never tears a character apart. */
  lemma RangeEditWellFormed(line: Text, item: Item, character: int)
    requires WellFormed(line) && WellFormed(item.text) && item.range.Some?
    ensures Apply(line, item, character).Some? ==> WellFormed(Apply(line, item, character).value)
  {
    if Apply(line, item, character).Some? {
      var start, end := RangeOf(item).value.start.character, RangeOf(item).value.end.character;
      WellFormedCut(line, start);
      WellFormedCut(line, end);
      WellFormedJoin(line[..start], item.text);
      WellFormedJoin(line[..start] + item.text, line[end..]);
    }
  }

  /** Without a range the cursor offset is used unchecked: the result is well formed exactly when
      nothing is inserted or the offset stands between characters. */
  lemma CursorEditWellFormed(line: Text, item: Item, character: int)
    requires WellFormed(line) && WellFormed(item.text) && item.range.None? && Apply(line, item, character).Some?
    ensures WellFormed(Apply(line, item, character).value)
       <==> item.text == [] || Boundary(line, SliceIndex(line, character))
  {
    var at := SliceIndex(line, character);
    var t := Apply(line, item, character).value;
    WellFormedCut(line, at);
    if item.text == [] {
      assert t == line;
    } else if Boundary(line, at) {
      WellFormedJoin(line[..at], item.text);
      WellFormedJoin(line[..at] + item.text, line[at..]);
    } else {
      assert t[at - 1] == line[at - 1] && t[at] == item.text[0];
      assert !Low(item.text[0]) by {
        assert !PairAt(item.text, -1);
      }
      assert High(t[at - 1]) && !PairAt(t, at - 1);
    }
  }

  /** An edit adds no line break, and keeps the text before its start and behind its end. */
  lemma EditIsLocal(line: Text, item: Item, character: int) returns (start: nat, end: nat)
    requires Apply(line, item, character).Some?
    ensures start <= end <= |line|
    ensures var t := Apply(line, item, character).value;
      && |t| == |line| - (end - start) + |item.text|
      && t[..start] == line[..start] && t[start + |item.text|..] == line[end..]
      && (forall i | 0 <= i < |t| && t[i] in [10, 13] :: t[i] in line)
  {
    start, end := SliceIndex(line, character), SliceIndex(line, character);
    if item.range.Some? {
      start, end := RangeOf(item).value.start.character, RangeOf(item).value.end.character;
    }
    var t := Apply(line, item, character).value;
    forall i | 0 <= i < |t| && t[i] in [10, 13]
      ensures t[i] in line
    {
      if !(start <= i < start + |item.text|) {
        assert t[i] == if i < start then line[i] else line[end + i - start - |item.text|];
      }
    }
  }

  /** Of an insert-replace edit only the replaced range counts, and without a first range neither does. */
  lemma ReplacedRange(line: Text, text: Text, insert: Option<Range>, replace: Option<Range>, character: int)
    ensures insert.Some? && replace.Some? ==>
      Apply(line, Item(text, insert, replace), character) == Apply(line, Item(text, replace, None), character)
    ensures insert.None? ==>
      Apply(line, Item(text, insert, replace), character) == Apply(line, Item(text, None, None), character)
  {
  }

  // ------------------------------------------------------------------------
  // The candidates of one request

  predicate Wanted(line: Text, item: Item, character: int, prefix: Text) {
    Apply(line, item, character).Some? && prefix <= Apply(line, item, character).value
  }

  /** The edited lines in the order of their first item. */
  function Collect(line: Text, items: seq<Item>, character: int, prefix: Text): seq<Text> {
    if items == [] then []
    else
      var (front, item) := (Collect(line, items[..|items| - 1], character, prefix), items[|items| - 1]);
      if Wanted(line, item, character, prefix) && Apply(line, item, character).value !in front
      then front + [Apply(line, item, character).value]
      else front
  }

  /** `generate` completes at the cursor and keeps the typed prefix; the other modes edit the whole line. */
  method Candidates(line: Text, items: seq<Item>, generate: bool, pointUtf16: int) returns (candidates: seq<Text>)
    ensures candidates == if generate then Collect(line, items, pointUtf16, line[..SliceIndex(line, pointUtf16)])
                          else Collect(line, items, |line|, [])
  {
    var character := if generate then pointUtf16 else |line|;
    var prefix := if generate then line[..SliceIndex(line, character)] else [];
    candidates := [];
    for i := 0 to |items|
      invariant candidates == Collect(line, items[..i], character, prefix)
    {
      assert items[..i + 1][..i] == items[..i];
      var text := ApplyInlineItem(line, items[i], character);
      if text.None? || (generate && !(prefix <= text.value)) || text.value in candidates {
        continue;
      }
      candidates := candidates + [text.value];
    }
    assert items[..|items|] == items;
  }

  /** The candidates are distinct, keep the prefix, and are exactly the results of the wanted items. */
  lemma {:induction false} CandidatesExactly(line: Text, items: seq<Item>, character: int, prefix: Text)
    ensures var cs := Collect(line, items, character, prefix);
      && (forall i, j | 0 <= i < j < |cs| :: cs[i] != cs[j])
      && (forall t :: t in cs <==> exists k | 0 <= k < |items| ::
                      Wanted(line, items[k], character, prefix) && Apply(line, items[k], character) == Some(t))
      && (forall i | 0 <= i < |cs| :: prefix <= cs[i])
  {
    hide Apply;
    if items != [] {
      var front, n := items[..|items| - 1], |items| - 1;
      CandidatesExactly(line, front, character, prefix);
      var cs, before := Collect(line, items, character, prefix), Collect(line, front, character, prefix);
      forall t
        ensures t in cs <==> exists k | 0 <= k < |items| ::
                  Wanted(line, items[k], character, prefix) && Apply(line, items[k], character) == Some(t)
      {
        if t in before {
          var k :| 0 <= k < n
            && Wanted(line, front[k], character, prefix) && Apply(line, front[k], character) == Some(t);
          assert items[k] == front[k];
        }
        if k :| && 0 <= k < |items| && Wanted(line, items[k], character, prefix)
                && Apply(line, items[k], character) == Some(t) {
          if k < n {
            assert front[k] == items[k];
            assert t in before;
          }
          assert t in cs;
        }
      }
    }
  }
}
