// The fail-closed runner: a bounded drain of one child, and the report over all
// targets of the manifest. The child, the clock and the kernel are events.

module PerFileRunner {
  import opened Common
  import opened Utf8

  datatype Pipe = Stdout | Stderr

  datatype Error = OverCap(pipe: Pipe) | TimedOut | Terminated | NotReserved | Failed | NotUtf8(pipe: Pipe)

  /** What one pass of the drain loop can see. */
  datatype Event =
    | Read(pipe: Pipe, chunk: Bytes)
    | Deadline
    | Signal
    | Reaped(status: int)

  /** One measured child. `quiescent`: its group is known to be empty. */
  datatype Measured = Measured(stdout: Bytes, stderr: Bytes, errors: seq<Error>, status: Option<int>,
                               quiescent: bool, signalled: bool)

  /** Everything the child wrote to one pipe. */
  function Written(events: seq<Event>, pipe: Pipe): Bytes {
    if events == [] then []
    else
      var (front, e) := (Written(events[..|events| - 1], pipe), events[|events| - 1]);
      if e.Read? && e.pipe == pipe then front + e.chunk else front
  }

  function Prefix(b: Bytes, cap: nat): Bytes {
    if |b| <= cap then b else b[..cap]
  }

  /** The status of the child, when it was reaped; the last one counts. */
  function StatusOf(events: seq<Event>): Option<int> {
    if events == [] then None
    else if events[|events| - 1].Reaped? then Some(events[|events| - 1].status)
    else StatusOf(events[..|events| - 1])
  }

  /** The group was told to end: its time is up, a signal was caught, or a stream went over the cap. */
  predicate Ended(events: seq<Event>, cap: nat) {
    || Deadline in events || Signal in events
    || |Written(events, Stdout)| > cap || |Written(events, Stderr)| > cap
  }

  /** `e` is what ended the group. */
  predicate EndedBy(events: seq<Event>, cap: nat, e: Event) {
    exists i | 0 <= i < |events| :: events[i] == e && !Ended(events[..i], cap)
  }

  /** No overflow is recorded twice. */
  predicate OverflowOnce(errors: seq<Error>) {
    forall i, j | 0 <= i < j < |errors| && errors[i].OverCap? :: errors[i] != errors[j]
  }

  predicate OverflowExactly(errors: seq<Error>, events: seq<Event>, cap: nat) {
    && (OverCap(Stdout) in errors <==> |Written(events, Stdout)| > cap)
    && (OverCap(Stderr) in errors <==> |Written(events, Stderr)| > cap)
  }

  function Add(errors: seq<Error>, occurred: bool, e: Error): seq<Error> {
    if occurred then errors + [e] else errors
  }

  lemma AddKeeps(errors: seq<Error>, occurred: bool, e: Error, events: seq<Event>, cap: nat)
    requires OverflowExactly(errors, events, cap) && OverflowOnce(errors) && !e.OverCap?
    ensures var more := Add(errors, occurred, e);
      && OverflowExactly(more, events, cap) && OverflowOnce(more)
      && forall x :: x in more <==> x in errors || (occurred && x == e)
  {
  }

  lemma Grows(written: Bytes, chunk: Bytes, cap: nat)
    ensures var buf := Prefix(written, cap); var room := cap - |buf|;
      && room >= 0
      && Prefix(written + chunk, cap) == buf + (if |chunk| <= room then chunk else chunk[..room])
      && (|written| > cap || |chunk| > room <==> |written + chunk| > cap)
  {
  }

  lemma NothingRead(cap: nat)
    ensures Prefix(Written([], Stdout), cap) == [] == Prefix(Written([], Stderr), cap)
    ensures OverflowExactly([], [], cap) && OverflowOnce([]) && Causes([], [], cap)
    ensures StatusOf([]) == None && !Ended([], cap)
  {
  }

  /** The errors of the drain loop besides an overflow: what ended the group. */
  predicate Causes(errors: seq<Error>, events: seq<Event>, cap: nat) {
    && (TimedOut in errors <==> EndedBy(events, cap, Deadline))
    && (Terminated in errors <==> EndedBy(events, cap, Signal))
    && forall x | x in errors :: x.OverCap? || x == TimedOut || x == Terminated
  }

  lemma EndedMore(events: seq<Event>, cap: nat, e: Event, cause: Event)
    requires cause == Deadline || cause == Signal
    ensures EndedBy(events + [e], cap, cause) <==> EndedBy(events, cap, cause) || (e == cause && !Ended(events, cap))
  {
    hide Ended;
    var more := events + [e];
    assert more[..|events|] == events;
    forall i | 0 <= i < |events|
      ensures more[..i] == events[..i]
    {
    }
  }

  lemma EndedNow(events: seq<Event>, cap: nat, e: Event)
    ensures e.Read? ==> (Ended(events + [e], cap)
        <==> Ended(events, cap) || |Written(events, e.pipe) + e.chunk| > cap)
    ensures e.Read? && |Written(events, e.pipe)| > cap ==> Ended(events, cap)
    ensures !e.Read? ==> (Ended(events + [e], cap) <==> Ended(events, cap) || e == Deadline || e == Signal)
    ensures StatusOf(events + [e]) == if e.Reaped? then Some(e.status) else StatusOf(events)
  {
    WrittenMore(events, e, Stdout);
    WrittenMore(events, e, Stderr);
    hide Written;
    assert (events + [e])[..|events|] == events;
    assert Deadline in events + [e] <==> Deadline in events || e == Deadline;
    assert Signal in events + [e] <==> Signal in events || e == Signal;
  }

  /** One more event, and the error that it adds. */
  lemma CausesMore(errors: seq<Error>, events: seq<Event>, cap: nat, e: Event)
    requires Causes(errors, events, cap)
    ensures e.Read? || e.Reaped? || Ended(events, cap) ==> Causes(errors, events + [e], cap)
    ensures e.Read? ==> Causes(errors + [OverCap(e.pipe)], events + [e], cap)
    ensures !e.Read? && !e.Reaped? && !Ended(events, cap)
        ==> Causes(errors + [if e.Signal? then Terminated else TimedOut], events + [e], cap)
  {
    hide Ended, EndedBy;
    EndedMore(events, cap, e, Deadline);
    EndedMore(events, cap, e, Signal);
  }

  lemma WrittenMore(events: seq<Event>, e: Event, pipe: Pipe)
    ensures Written(events + [e], pipe)
         == if e.Read? && e.pipe == pipe then Written(events, pipe) + e.chunk else Written(events, pipe)
  {
    assert (events + [e])[..|events|] == events;
  }

  lemma NoReadKeeps(errors: seq<Error>, events: seq<Event>, e: Event, cap: nat)
    requires !e.Read? && OverflowExactly(errors, events, cap)
    ensures OverflowExactly(errors, events + [e], cap)
    ensures forall pipe :: Written(events + [e], pipe) == Written(events, pipe)
  {
    hide Written;
    forall pipe
      ensures Written(events + [e], pipe) == Written(events, pipe)
    {
      WrittenMore(events, e, pipe);
    }
  }

  /** A chunk grows its own pipe only, and it goes over the cap exactly when it does not fit the room that is left. */
  lemma ReadKeeps(errors: seq<Error>, events: seq<Event>, e: Event, cap: nat)
    requires e.Read? && OverflowExactly(errors, events, cap) && OverflowOnce(errors)
    ensures Written(events + [e], e.pipe) == Written(events, e.pipe) + e.chunk
    ensures forall pipe | pipe != e.pipe :: Written(events + [e], pipe) == Written(events, pipe)
    ensures var room := cap - |Prefix(Written(events, e.pipe), cap)|;
      var more := if |e.chunk| > room && OverCap(e.pipe) !in errors then errors + [OverCap(e.pipe)] else errors;
      OverflowExactly(more, events + [e], cap) && OverflowOnce(more)
  {
    hide Written;
    WrittenMore(events, e, Stdout);
    WrittenMore(events, e, Stderr);
    Grows(Written(events, e.pipe), e.chunk, cap);
  }

  /** Each buffer is the prefix of its stream up to the cap; going over the cap is recorded once and only then. */
  method Drain(events: seq<Event>, cap: nat)
      returns (out: Bytes, err: Bytes, errors: seq<Error>, status: Option<int>, signalled: bool)
    ensures out == Prefix(Written(events, Stdout), cap) && err == Prefix(Written(events, Stderr), cap)
    ensures OverflowExactly(errors, events, cap) && OverflowOnce(errors)
    ensures (signalled <==> Signal in events) && status == StatusOf(events) && Causes(errors, events, cap)
  {
    hide Prefix, Written, OverflowExactly, OverflowOnce, Causes, StatusOf, Ended;
    out, err, errors, status, signalled := [], [], [], None, false;
    var killed := false;
    NothingRead(cap);
    for i := 0 to |events|
      invariant out == Prefix(Written(events[..i], Stdout), cap) && err == Prefix(Written(events[..i], Stderr), cap)
      invariant OverflowExactly(errors, events[..i], cap) && OverflowOnce(errors)
      invariant (signalled <==> Signal in events[..i]) && status == StatusOf(events[..i])
      invariant Causes(errors, events[..i], cap) && (killed <==> Ended(events[..i], cap))
    {
      assert events[..i + 1] == events[..i] + [events[i]];
      var e := events[i];
      CausesMore(errors, events[..i], cap, e);
      EndedNow(events[..i], cap, e);
      if e.Read? {
        ReadKeeps(errors, events[..i], e, cap);
        var buf := if e.pipe.Stdout? then out else err;
        Grows(Written(events[..i], e.pipe), e.chunk, cap);
        var room := cap - |buf|;
        var kept := buf + if |e.chunk| <= room then e.chunk else e.chunk[..room];
        if e.pipe.Stdout? { out := kept; } else { err := kept; }
        if |e.chunk| > room {
          if OverCap(e.pipe) !in errors {
            errors := errors + [OverCap(e.pipe)];
          }
          killed := true;
        }
      } else {
        NoReadKeeps(errors, events[..i], e, cap);
        if e.Reaped? {
          status := Some(e.status);
        } else if !killed {
          var error := if e.Signal? then Terminated else TimedOut;
          AddKeeps(errors, true, error, events[..i + 1], cap);
          errors := Add(errors, true, error);
          killed := true;
        }
        signalled := signalled || e.Signal?;
      }
    }
    assert events[..|events|] == events;
  }

  /** The errors say exactly what happened: a caught signal, the time limit, a group that may still hold processes, an
      exception of the wrapper (`failed`), a stream over the cap, a retained prefix that is not UTF-8. */
  method Measure(events: seq<Event>, cap: nat, failed: bool, cleaned: bool) returns (m: Measured)
    ensures m.stdout == Prefix(Written(events, Stdout), cap) && m.stderr == Prefix(Written(events, Stderr), cap)
    ensures OverflowExactly(m.errors, events, cap) && OverflowOnce(m.errors)
    ensures m.quiescent == cleaned && (m.signalled <==> Signal in events)
    ensures m.status == StatusOf(events) && Honest(m)
    ensures (Failed in m.errors <==> failed) && (NotReserved in m.errors <==> !cleaned)
    ensures Terminated in m.errors <==> Signal in events
    ensures TimedOut in m.errors <==> EndedBy(events, cap, Deadline)
    ensures NotUtf8(Stdout) in m.errors <==> !WellFormed(m.stdout)
    ensures NotUtf8(Stderr) in m.errors <==> !WellFormed(m.stderr)
  {
    hide WellFormed, Prefix, OverflowExactly, OverflowOnce, Add, Ended;
    var out, err, errors, status, signalled := Drain(events, cap);
    AddKeeps(errors, failed, Failed, events, cap);
    errors := Add(errors, failed, Failed);
    AddKeeps(errors, !cleaned, NotReserved, events, cap);
    errors := Add(errors, !cleaned, NotReserved);
    AddKeeps(errors, signalled && Terminated !in errors, Terminated, events, cap);
    errors := Add(errors, signalled && Terminated !in errors, Terminated);
    AddKeeps(errors, !WellFormed(out), NotUtf8(Stdout), events, cap);
    errors := Add(errors, !WellFormed(out), NotUtf8(Stdout));
    AddKeeps(errors, !WellFormed(err), NotUtf8(Stderr), events, cap);
    errors := Add(errors, !WellFormed(err), NotUtf8(Stderr));
    m := Measured(out, err, errors, status, cleaned, signalled);
  }

  predicate Honest(m: Measured) {
    !m.quiescent || m.signalled ==> m.errors != []
  }

  // ------------------------------------------------------------------------
  // The report

  /** The diagnostics of a JSON answer: the file of each row, or `None` for an answer of another shape. */
  type Rows = Option<seq<string>>

  /** What happens to one target: `broken`: its path or its sources do not resolve; `measured` is absent when
      the wrapper failed before the child ended. */
  datatype Attempt = Attempt(broken: bool, measured: Option<Measured>, rows: Rows)

  datatype Entry = Entry(target: string, measured: Option<Measured>, errors: nat, diagnostics: nat)

  datatype Report = Report(entries: seq<Entry>, errors: nat, diagnostics: nat, status: int, complete: bool)

  function Count(rows: seq<string>, target: string): nat {
    if rows == [] then 0 else Count(rows[..|rows| - 1], target) + if rows[|rows| - 1] == target then 1 else 0
  }

  /** The diagnostics of a target are the rows that name it, each counted once. */
  lemma {:induction false} CountIsMultiplicity(rows: seq<string>, target: string)
    ensures Count(rows, target) == multiset(rows)[target]
  {
    if rows != [] {
      CountIsMultiplicity(rows[..|rows| - 1], target);
      assert rows == rows[..|rows| - 1] + [rows[|rows| - 1]];
    }
  }

  predicate Stops(m: Option<Measured>) {
    m.Some? && (!m.value.quiescent || m.value.signalled)
  }

  /** The target was measured by a child that ended by itself with an answer that fits its status. */
  predicate Clean(a: Attempt) {
    && !a.broken && a.measured.Some? && a.rows.Some?
    && var m := a.measured.value;
       m.errors == [] && m.stderr == [] && m.status == Some(if a.rows.value == [] then 0 else 1)
  }

  function EntryOf(target: string, a: Attempt): Entry {
    if a.measured.None? then Entry(target, None, (if a.broken then 1 else 0) + 1, 0)
    else
      var m := a.measured.value;
      var tool := |m.errors|
        + (if m.status == Some(0) || m.status == Some(1) then 0 else 1) + (if m.stderr == [] then 0 else 1);
      if a.rows.None? then Entry(target, a.measured, (if a.broken then 1 else 0) + tool + 1, 0)
      else
        var mismatch := (m.status == Some(0) && a.rows.value != []) || (m.status == Some(1) && a.rows.value == []);
        Entry(target, a.measured, (if a.broken then 1 else 0) + tool + (if mismatch then 1 else 0),
              Count(a.rows.value, target))
  }

  function Diagnostics(entries: seq<Entry>): nat {
    if entries == [] then 0 else Diagnostics(entries[..|entries| - 1]) + entries[|entries| - 1].diagnostics
  }

  /** `version`: the measured version check; `pinned`: it answered the pinned version. */
  method Run(manifest: seq<string>, version: Option<Measured>, pinned: bool, attempts: seq<Attempt>) returns (r: Report)
    requires |attempts| == |manifest|
    requires version.Some? ==> Honest(version.value)
    requires forall i | 0 <= i < |attempts| && attempts[i].measured.Some? :: Honest(attempts[i].measured.value)
    ensures r.complete <==> Accepted(manifest, version, pinned) && forall i | 0 <= i < |attempts| :: Clean(attempts[i])
    ensures r.complete ==> |r.entries| == |manifest| && forall i | 0 <= i < |manifest| ::
              r.entries[i] == EntryOf(manifest[i], attempts[i])
                && r.entries[i].errors == 0 && r.entries[i].measured.Some?
    ensures |r.entries| <= |manifest|
    ensures forall k | 0 <= k < |r.entries| :: r.entries[k] == EntryOf(manifest[k], attempts[k])
    ensures forall k | 0 <= k < |r.entries| - 1 :: !Stops(attempts[k].measured)
    ensures |r.entries| < |manifest|
        ==> Stops(version) || (r.entries != [] && Stops(attempts[|r.entries| - 1].measured))
    ensures Stops(version) ==> r.entries == []
    ensures r.errors == if Accepted(manifest, version, pinned) then 0 else 1
    ensures r.diagnostics == Diagnostics(r.entries)
    ensures r.status == if !r.complete then 2 else if Diagnostics(r.entries) > 0 then 1 else 0
  {
    hide EntryOf, Clean, Stops, Accepted, Diagnostics;
    NoDiagnostics();
    StopsRejects(manifest, version, pinned);
    var errors: nat := if Accepted(manifest, version, pinned) then 0 else 1;
    var entries: seq<Entry>, diagnostics := [], 0;
    var faulty := false;
    var i := 0;
    while i < |manifest|
      invariant 0 <= i <= |manifest| && |entries| == i
      invariant forall k | 0 <= k < i :: entries[k] == EntryOf(manifest[k], attempts[k])
      invariant diagnostics == Diagnostics(entries)
      invariant faulty <==> exists k | 0 <= k < i :: entries[k].errors > 0
      invariant forall k | 0 <= k < i :: !Stops(attempts[k].measured)
      invariant i > 0 ==> !Stops(version)
    {
      if Stops(version) {
        break;
      }
      var entry := EntryOf(manifest[i], attempts[i]);
      EntryClean(manifest[i], attempts[i]);
      DiagnosticsMore(entries, entry);
      entries := entries + [entry];
      diagnostics := diagnostics + entry.diagnostics;
      faulty := faulty || entry.errors > 0;
      i := i + 1;
      if Stops(entry.measured) {
        break;
      }
    }
    forall k | 0 <= k < i
      ensures entries[k].errors == 0 <==> Clean(attempts[k])
      ensures entries[k].errors == 0 ==> entries[k].measured.Some?
    {
      EntryClean(manifest[k], attempts[k]);
    }
    var status := if errors > 0 || faulty then 2 else if diagnostics > 0 then 1 else 0;
    r := Report(entries, errors, diagnostics, status, status != 2);
  }

  /** The manifest is not empty and the version check passed. */
  predicate Accepted(manifest: seq<string>, version: Option<Measured>, pinned: bool) {
    && manifest != [] && version.Some? && pinned
    && version.value.errors == [] && version.value.status == Some(0) && version.value.stderr == []
  }

  lemma NoDiagnostics()
    ensures Diagnostics([]) == 0
  {
  }

  lemma DiagnosticsMore(entries: seq<Entry>, entry: Entry)
    ensures Diagnostics(entries + [entry]) == Diagnostics(entries) + entry.diagnostics
  {
    assert (entries + [entry])[..|entries|] == entries;
  }

  lemma StopsRejects(manifest: seq<string>, version: Option<Measured>, pinned: bool)
    requires version.Some? ==> Honest(version.value)
    ensures Stops(version) || manifest == [] ==> !Accepted(manifest, version, pinned)
  {
  }

  lemma EntryClean(target: string, a: Attempt)
    ensures EntryOf(target, a).errors == 0 <==> Clean(a)
    ensures EntryOf(target, a).measured == a.measured
    ensures Clean(a) ==> a.measured.Some?
    ensures a.measured.Some? && Honest(a.measured.value) && Stops(a.measured) ==> EntryOf(target, a).errors > 0
  {
  }
}
