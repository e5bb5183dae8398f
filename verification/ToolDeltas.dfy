// Tool calls of a streamed turn: deltas are grouped by index and each group is joined.

module ToolDeltas {
  import opened Common
  import opened Utf8
  import Decimal

  datatype Delta = Delta(index: Option<nat>, id: Option<Bytes>, name: Option<Bytes>, arguments: Option<Bytes>)

  datatype Group = Group(key: nat, deltas: seq<Delta>)

  datatype ToolCall = ToolCall(id: Bytes, name: Bytes, arguments: Bytes)

  function Key(d: Delta): nat {
    if d.index.Some? then d.index.value else 0
  }

  /** Stable grouping: a delta joins the group of its key, and the groups stay in key order. */
  function Insert(gs: seq<Group>, d: Delta): seq<Group> {
    if gs == [] || Key(d) < gs[0].key then [Group(Key(d), [d])] + gs
    else if Key(d) == gs[0].key then [Group(Key(d), gs[0].deltas + [d])] + gs[1..]
    else [gs[0]] + Insert(gs[1..], d)
  }

  function GroupBy(ds: seq<Delta>): seq<Group> {
    if ds == [] then [] else Insert(GroupBy(ds[..|ds| - 1]), ds[|ds| - 1])
  }

  function FirstId(ds: seq<Delta>): Option<Bytes> {
    if ds == [] then None
    else if ds[0].id.Some? && ds[0].id.value != [] then ds[0].id
    else FirstId(ds[1..])
  }

  function Or(s: Option<Bytes>): Bytes {
    if s.Some? then s.value else []
  }

  function Names(ds: seq<Delta>): Bytes {
    if ds == [] then [] else Or(ds[0].name) + Names(ds[1..])
  }

  function Arguments(ds: seq<Delta>): Bytes {
    if ds == [] then [] else Or(ds[0].arguments) + Arguments(ds[1..])
  }

  function CallOf(key: nat, ds: seq<Delta>): ToolCall {
    ToolCall(if FirstId(ds).Some? then FirstId(ds).value else Decimal.B("stream_call_") + Decimal.Show(key),
             Names(ds), Arguments(ds))
  }

  function CallsOf(gs: seq<Group>): (r: seq<ToolCall>)
    ensures |r| == |gs|
  {
    seq(|gs|, i requires 0 <= i < |gs| => CallOf(gs[i].key, gs[i].deltas))
  }

  function Assemble(ds: seq<Delta>): seq<ToolCall> {
    CallsOf(GroupBy(ds))
  }

  // ------------------------------------------------------------------------
  // What the groups hold

  /** The deltas of one index in the order they arrived. */
  function At(ds: seq<Delta>, key: nat): seq<Delta> {
    if ds == [] then []
    else
      var front := At(ds[..|ds| - 1], key);
      if Key(ds[|ds| - 1]) == key then front + [ds[|ds| - 1]] else front
  }

  function Find(gs: seq<Group>, key: nat): seq<Delta> {
    if gs == [] then [] else if gs[0].key == key then gs[0].deltas else Find(gs[1..], key)
  }

  predicate Ordered(gs: seq<Group>) {
    && (forall i, j | 0 <= i < j < |gs| :: gs[i].key < gs[j].key)
    && forall i | 0 <= i < |gs| :: gs[i].deltas != []
  }

  lemma {:induction false} InsertOrdered(gs: seq<Group>, d: Delta)
    requires Ordered(gs)
    ensures Ordered(Insert(gs, d))
    ensures Insert(gs, d) != []
    ensures Insert(gs, d)[0].key == if gs == [] || Key(d) < gs[0].key then Key(d) else gs[0].key
  {
    if gs != [] && Key(d) > gs[0].key {
      InsertOrdered(gs[1..], d);
      var rest := Insert(gs[1..], d);
      assert gs[0].key < rest[0].key;
    }
  }

  lemma {:induction false} InsertFinds(gs: seq<Group>, d: Delta, key: nat)
    requires Ordered(gs)
    ensures Find(Insert(gs, d), key) == Find(gs, key) + if Key(d) == key then [d] else []
  {
    if gs == [] || Key(d) < gs[0].key {
      FindNone(gs, Key(d));
    } else if Key(d) > gs[0].key {
      InsertFinds(gs[1..], d, key);
    }
  }

  lemma {:induction false} FindNone(gs: seq<Group>, key: nat)
    requires Ordered(gs) && (gs != [] ==> key < gs[0].key)
    ensures Find(gs, key) == []
  {
    if gs != [] {
      FindNone(gs[1..], key);
    }
  }

  lemma {:induction false} GroupByOrdered(ds: seq<Delta>)
    ensures Ordered(GroupBy(ds))
  {
    if ds != [] {
      GroupByOrdered(ds[..|ds| - 1]);
      InsertOrdered(GroupBy(ds[..|ds| - 1]), ds[|ds| - 1]);
    }
  }

  lemma {:induction false} GroupByFinds(ds: seq<Delta>, key: nat)
    ensures Find(GroupBy(ds), key) == At(ds, key)
  {
    if ds != [] {
      GroupByOrdered(ds[..|ds| - 1]);
      GroupByFinds(ds[..|ds| - 1], key);
      InsertFinds(GroupBy(ds[..|ds| - 1]), ds[|ds| - 1], key);
    }
  }

  lemma {:induction false} FindAt(gs: seq<Group>, i: nat)
    requires Ordered(gs) && i < |gs|
    ensures Find(gs, gs[i].key) == gs[i].deltas
  {
    if i > 0 {
      FindAt(gs[1..], i - 1);
    }
  }

  lemma {:induction false} FindSome(gs: seq<Group>, key: nat) returns (i: nat)
    requires Find(gs, key) != []
    ensures i < |gs| && gs[i].key == key
  {
    if gs[0].key == key {
      i := 0;
    } else {
      i := FindSome(gs[1..], key);
      i := i + 1;
    }
  }

  /** One call per index that occurs, in index order, made of exactly the deltas of that index. */
  lemma AssembledCalls(ds: seq<Delta>)
    ensures var (gs, calls) := (GroupBy(ds), Assemble(ds));
      && |calls| == |gs|
      && (forall i, j | 0 <= i < j < |gs| :: gs[i].key < gs[j].key)
      && (forall i | 0 <= i < |gs| :: At(ds, gs[i].key) != [] && calls[i] == CallOf(gs[i].key, At(ds, gs[i].key)))
      && (forall k: nat | At(ds, k) != [] :: exists i | 0 <= i < |gs| :: gs[i].key == k)
  {
    var gs := GroupBy(ds);
    GroupByOrdered(ds);
    forall i | 0 <= i < |gs|
      ensures At(ds, gs[i].key) == gs[i].deltas
    {
      FindAt(gs, i);
      GroupByFinds(ds, gs[i].key);
    }
    forall k: nat | At(ds, k) != []
      ensures exists i | 0 <= i < |gs| :: gs[i].key == k
    {
      GroupByFinds(ds, k);
      var i := FindSome(gs, k);
    }
  }

  // ------------------------------------------------------------------------
  // Interleaving

  lemma FirstKey(a: seq<Group>, b: seq<Group>)
    requires Ordered(a) && Ordered(b) && a != []
    requires forall k: nat :: Find(a, k) == [] <==> Find(b, k) == []
    ensures b != [] && b[0].key <= a[0].key
  {
    assert Find(a, a[0].key) == a[0].deltas;
    var i := FindSome(b, a[0].key);
  }

  /** The same call at every index. */
  ghost predicate Alike(key: nat, a: seq<Delta>, b: seq<Delta>) {
    (a == [] <==> b == []) && CallOf(key, a) == CallOf(key, b)
  }

  lemma {:induction false} AlikeGroups(a: seq<Group>, b: seq<Group>)
    requires Ordered(a) && Ordered(b)
    requires forall k: nat :: Alike(k, Find(a, k), Find(b, k))
    ensures CallsOf(a) == CallsOf(b)
  {
    hide CallOf;
    if a == [] {
      if b != [] {
        FirstKey(b, a);
      }
    } else {
      FirstKey(a, b);
      FirstKey(b, a);
      var key := a[0].key;
      assert Find(a, key) == a[0].deltas && Find(b, key) == b[0].deltas;
      assert Alike(key, Find(a, key), Find(b, key));
      FindNone(a[1..], key);
      FindNone(b[1..], key);
      forall k: nat
        ensures Alike(k, Find(a[1..], k), Find(b[1..], k))
      {
        assert Alike(k, Find(a, k), Find(b, k));
      }
      AlikeGroups(a[1..], b[1..]);
      assert CallsOf(a) == [CallOf(key, a[0].deltas)] + CallsOf(a[1..]);
      assert CallsOf(b) == [CallOf(key, b[0].deltas)] + CallsOf(b[1..]);
    }
  }

  lemma AlikeStreams(xs: seq<Delta>, ys: seq<Delta>)
    requires forall k: nat :: Alike(k, At(xs, k), At(ys, k))
    ensures Assemble(xs) == Assemble(ys)
  {
    hide Alike;
    GroupByOrdered(xs);
    GroupByOrdered(ys);
    forall k: nat
      ensures Alike(k, Find(GroupBy(xs), k), Find(GroupBy(ys), k))
    {
      assert Alike(k, At(xs, k), At(ys, k));
      GroupByFinds(xs, k);
      GroupByFinds(ys, k);
    }
    AlikeGroups(GroupBy(xs), GroupBy(ys));
  }

  /** How the deltas of different indices are interleaved does not matter. */
  lemma InterleavingIrrelevant(xs: seq<Delta>, ys: seq<Delta>)
    requires forall k: nat :: At(xs, k) == At(ys, k)
    ensures Assemble(xs) == Assemble(ys)
  {
    forall k: nat
      ensures Alike(k, At(xs, k), At(ys, k))
    {
      assert At(xs, k) == At(ys, k);
    }
    AlikeStreams(xs, ys);
  }

  lemma {:induction false} ArgumentsJoin(a: seq<Delta>, b: seq<Delta>)
    ensures Arguments(a + b) == Arguments(a) + Arguments(b)
  {
    if a == [] {
      assert a + b == b;
    } else {
      assert (a + b)[1..] == a[1..] + b;
      ArgumentsJoin(a[1..], b);
    }
  }

  lemma {:induction false} NamesJoin(a: seq<Delta>, b: seq<Delta>)
    ensures Names(a + b) == Names(a) + Names(b)
  {
    if a == [] {
      assert a + b == b;
    } else {
      assert (a + b)[1..] == a[1..] + b;
      NamesJoin(a[1..], b);
    }
  }

  lemma {:induction false} FirstIdJoin(a: seq<Delta>, b: seq<Delta>)
    ensures FirstId(a + b) == if FirstId(a).Some? then FirstId(a) else FirstId(b)
  {
    if a == [] {
      assert a + b == b;
    } else {
      assert (a + b)[1..] == a[1..] + b;
      FirstIdJoin(a[1..], b);
    }
  }

  /** What a call is made of does not change when its deltas are replaced by ones with the same parts. */
  lemma SameParts(key: nat, a: seq<Delta>, x: seq<Delta>, y: seq<Delta>, b: seq<Delta>)
    requires Arguments(x) == Arguments(y) && Names(x) == Names(y) && FirstId(x) == FirstId(y)
    ensures CallOf(key, a + x + b) == CallOf(key, a + y + b)
  {
    hide Arguments, Names, FirstId;
    ArgumentsJoin(a + x, b);
    ArgumentsJoin(a, x);
    ArgumentsJoin(a + y, b);
    ArgumentsJoin(a, y);
    NamesJoin(a + x, b);
    NamesJoin(a, x);
    NamesJoin(a + y, b);
    NamesJoin(a, y);
    FirstIdJoin(a + x, b);
    FirstIdJoin(a, x);
    FirstIdJoin(a + y, b);
    FirstIdJoin(a, y);
  }

  lemma One(d: Delta)
    ensures Arguments([d]) == Or(d.arguments) && Names([d]) == Or(d.name)
    ensures FirstId([d]) == if d.id.Some? && d.id.value != [] then d.id else None
  {
  }

  lemma {:induction false} AtAppend(a: seq<Delta>, b: seq<Delta>, key: nat)
    ensures At(a + b, key) == At(a, key) + At(b, key)
  {
    if b == [] {
      assert a + b == a;
    } else {
      assert (a + b)[..|a + b| - 1] == a + b[..|b| - 1];
      AtAppend(a, b[..|b| - 1], key);
    }
  }

  lemma AtPair(d0: Delta, d1: Delta, key: nat)
    ensures At([d0], key) == if Key(d0) == key then [d0] else []
    ensures Key(d0) == Key(d1) ==> At([d0, d1], key) == if Key(d0) == key then [d0, d1] else []
  {
    assert [d0, d1][..1] == [d0] && [d0][..0] == [];
  }

  lemma AtMiddle(a: seq<Delta>, x: seq<Delta>, b: seq<Delta>, key: nat)
    ensures At(a + x + b, key) == At(a, key) + At(x, key) + At(b, key)
  {
    hide At;
    AtAppend(a + x, b, key);
    AtAppend(a, x, key);
  }

  lemma CutParts(d: Delta, s: Bytes, t: Bytes)
    ensures var (x, y) :=
        ([d.(arguments := Some(s + t))], [d.(arguments := Some(s)), Delta(d.index, None, None, Some(t))]);
      Arguments(x) == Arguments(y) && Names(x) == Names(y) && FirstId(x) == FirstId(y)
  {
    var d0, d1 := d.(arguments := Some(s)), Delta(d.index, None, None, Some(t));
    One(d.(arguments := Some(s + t)));
    One(d0);
    One(d1);
    ArgumentsJoin([d0], [d1]);
    NamesJoin([d0], [d1]);
    FirstIdJoin([d0], [d1]);
    assert [d0] + [d1] == [d0, d1] && Or(d.name) + [] == Or(d.name);
  }

  /** Cutting the arguments of a delta into two deltas changes none of the calls of the stream. */
  lemma FragmentationIrrelevant(a: seq<Delta>, d: Delta, s: Bytes, t: Bytes, b: seq<Delta>)
    ensures Assemble(a + [d.(arguments := Some(s + t))] + b)
         == Assemble(a + [d.(arguments := Some(s)), Delta(d.index, None, None, Some(t))] + b)
  {
    hide At, CallOf;
    var d0, d1 := d.(arguments := Some(s)), Delta(d.index, None, None, Some(t));
    var x, y := [d.(arguments := Some(s + t))], [d0, d1];
    forall k: nat
      ensures Alike(k, At(a + x + b, k), At(a + y + b, k))
    {
      AtMiddle(a, x, b, k);
      AtMiddle(a, y, b, k);
      AtPair(x[0], x[0], k);
      AtPair(d0, d1, k);
      CutParts(d, s, t);
      SameParts(k, At(a, k), x, y, At(b, k));
    }
    AlikeStreams(a + x + b, a + y + b);
  }

  // ------------------------------------------------------------------------
  // A provider that streams whole calls

  /** A call as a provider streams it: a delta with its index, id and name, and then its arguments in pieces. */
  datatype Sent = Sent(key: nat, id: Option<Bytes>, name: Bytes, pieces: seq<Bytes>)

  function Pieces(key: nat, pieces: seq<Bytes>): seq<Delta> {
    if pieces == [] then []
    else Pieces(key, pieces[..|pieces| - 1]) + [Delta(Some(key), None, None, Some(pieces[|pieces| - 1]))]
  }

  function Deltas(c: Sent): seq<Delta> {
    [Delta(Some(c.key), c.id, Some(c.name), None)] + Pieces(c.key, c.pieces)
  }

  function Stream(cs: seq<Sent>): seq<Delta> {
    if cs == [] then [] else Stream(cs[..|cs| - 1]) + Deltas(cs[|cs| - 1])
  }

  /** The call that was sent; one without an id is named after its index. */
  function Received(c: Sent): ToolCall {
    ToolCall(if c.id.Some? && c.id.value != [] then c.id.value else Decimal.B("stream_call_") + Decimal.Show(c.key),
             c.name, Concat(c.pieces))
  }

  lemma {:induction false} PiecesHold(key: nat, pieces: seq<Bytes>)
    ensures Names(Pieces(key, pieces)) == [] && Arguments(Pieces(key, pieces)) == Concat(pieces)
    ensures FirstId(Pieces(key, pieces)) == None
  {
    if pieces != [] {
      var front, d := pieces[..|pieces| - 1], Delta(Some(key), None, None, Some(pieces[|pieces| - 1]));
      PiecesHold(key, front);
      One(d);
      hide Names, Arguments, FirstId;
      NamesJoin(Pieces(key, front), [d]);
      ArgumentsJoin(Pieces(key, front), [d]);
      FirstIdJoin(Pieces(key, front), [d]);
    }
  }

  lemma CallArrives(c: Sent)
    ensures CallOf(c.key, Deltas(c)) == Received(c)
  {
    hide Names, Arguments, FirstId, Pieces, Concat;
    var d := Delta(Some(c.key), c.id, Some(c.name), None);
    One(d);
    PiecesHold(c.key, c.pieces);
    NamesJoin([d], Pieces(c.key, c.pieces));
    ArgumentsJoin([d], Pieces(c.key, c.pieces));
    FirstIdJoin([d], Pieces(c.key, c.pieces));
  }

  lemma GroupBySnoc(ds: seq<Delta>, d: Delta)
    ensures GroupBy(ds + [d]) == Insert(GroupBy(ds), d)
  {
    assert (ds + [d])[..|ds|] == ds;
  }

  /** A delta of a new last index. */
  lemma {:induction false} InsertLast(gs: seq<Group>, d: Delta)
    requires forall i | 0 <= i < |gs| :: gs[i].key < Key(d)
    ensures Insert(gs, d) == gs + [Group(Key(d), [d])]
  {
    if gs != [] {
      InsertLast(gs[1..], d);
    }
  }

  /** One more delta of the last index. */
  lemma {:induction false} InsertMore(gs: seq<Group>, g: Group, d: Delta)
    requires (forall i | 0 <= i < |gs| :: gs[i].key < g.key) && Key(d) == g.key
    ensures Insert(gs + [g], d) == gs + [Group(g.key, g.deltas + [d])]
  {
    if gs == [] {
      assert [] + [g] == [g];
    } else {
      assert (gs + [g])[1..] == gs[1..] + [g];
      InsertMore(gs[1..], g, d);
    }
  }

  lemma {:induction false} GroupPieces(ds: seq<Delta>, gs: seq<Group>, d: Delta, pieces: seq<Bytes>)
    requires GroupBy(ds) == gs && forall i | 0 <= i < |gs| :: gs[i].key < Key(d)
    ensures GroupBy(ds + ([d] + Pieces(Key(d), pieces))) == gs + [Group(Key(d), [d] + Pieces(Key(d), pieces))]
  {
    hide GroupBy, Insert;
    if pieces == [] {
      GroupBySnoc(ds, d);
      InsertLast(gs, d);
      assert [d] + Pieces(Key(d), pieces) == [d];
    } else {
      var front, last := pieces[..|pieces| - 1], Delta(Some(Key(d)), None, None, Some(pieces[|pieces| - 1]));
      var some := [d] + Pieces(Key(d), front);
      GroupPieces(ds, gs, d, front);
      GroupBySnoc(ds + some, last);
      InsertMore(gs, Group(Key(d), some), last);
      assert some + [last] == [d] + Pieces(Key(d), pieces);
      assert ds + some + [last] == ds + (some + [last]);
    }
  }

  function GroupsOf(cs: seq<Sent>): (gs: seq<Group>)
    ensures |gs| == |cs|
  {
    seq(|cs|, i requires 0 <= i < |cs| => Group(cs[i].key, Deltas(cs[i])))
  }

  predicate Rising(cs: seq<Sent>) {
    forall i, j | 0 <= i < j < |cs| :: cs[i].key < cs[j].key
  }

  lemma {:induction false} StreamGroups(cs: seq<Sent>)
    requires Rising(cs)
    ensures GroupBy(Stream(cs)) == GroupsOf(cs)
  {
    hide GroupBy, Pieces;
    if cs == [] {
      NoGroups();
    } else {
      var front, c := cs[..|cs| - 1], cs[|cs| - 1];
      StreamGroups(front);
      GroupPieces(Stream(front), GroupsOf(front), Delta(Some(c.key), c.id, Some(c.name), None), c.pieces);
      assert GroupsOf(front) + [Group(c.key, Deltas(c))] == GroupsOf(cs);
    }
  }

  lemma NoGroups()
    ensures GroupBy([]) == []
  {
  }

  /** Calls that are streamed arrive as they were sent, in the order of their indices and however their deltas are
      interleaved: each with its own id or the one made of its index, its name, and its arguments put together. */
  lemma StreamedCallsArrive(cs: seq<Sent>, ds: seq<Delta>)
    requires Rising(cs) && forall k: nat :: At(ds, k) == At(Stream(cs), k)
    ensures |Assemble(ds)| == |cs| && forall i | 0 <= i < |cs| :: Assemble(ds)[i] == Received(cs[i])
  {
    hide CallOf, Received, Deltas, Stream, At, GroupBy;
    InterleavingIrrelevant(ds, Stream(cs));
    StreamGroups(cs);
    forall i | 0 <= i < |cs|
      ensures CallsOf(GroupsOf(cs))[i] == Received(cs[i])
    {
      CallArrives(cs[i]);
    }
  }
}
