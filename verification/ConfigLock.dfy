// Concurrent writers of the settings file. A lock directory, made by one atomic
// mkdir, guards a read-modify-write in several steps; any interleaving, failure
// and crash is a sequence of actions.

module ConfigLock {
  import opened Common
  import opened Settings

  type Pid = nat

  datatype Op = Set(key: string, value: string) | Unset(key: string)

  datatype Dir = Absent | Present(pid: Option<Pid>)

  /** Where a process is: waiting after `tries` failed attempts, holding the lock, or at rest. */
  datatype Pc =
    | Rest                            // not writing: not started, done, timed out or crashed
    | Waiting(op: Op, tries: nat)
    | Made(op: Op)                    // the directory exists, the pid is not written yet
    | Held(op: Op)
    | Ready(op: Op, tmp: string)      // the new text is in the temporary file
    | Copying(op: Op, tmp: string)    // mv between filesystems: the old file is gone, the new one grows
    | Finished                        // written or given up, the lock is still held
    | Checked                         // release has found its own pid in the lock
    | PidRemoved                      // rm -rf has removed the pid file

  datatype State = State(dir: Dir, file: Option<string>, pcs: map<Pid, Pc>, log: seq<Op>)

  datatype Action =
    | Start(p: Pid, op: Op)
    | TryMake(p: Pid)
    | WritePid(p: Pid, ok: bool)
    | Touch(p: Pid)
    | ReadFile(p: Pid)
    | Commit(p: Pid)
    | Copy(p: Pid, n: nat)            // the first n characters have arrived
    | Abort(p: Pid)
    | Release(p: Pid)
    | RemovePid(p: Pid)
    | RemoveDir(p: Pid)
    | Crash(p: Pid)
    | ManualRemove                    // an operator removes a stale lock, all writers stopped
    | SkipLock(p: Pid)                // LMLINE_NO_LOCK=1: acquiring is a no-op

  function At(s: State, p: Pid): Pc {
    if p in s.pcs then s.pcs[p] else Rest
  }

  function Move(s: State, p: Pid, pc: Pc): State {
    s.(pcs := s.pcs[p := pc])
  }

  function Text(file: Option<string>): string {
    if file.Some? then file.value else ""
  }

  function Rewritten(text: string, op: Op): string {
    match op
    case Set(k, v) => Join(Without(Split(text, ""), k) + [Assignment(k, v)])
    case Unset(k) => Join(Without(Split(text, ""), k))
  }

  predicate ValidOp(op: Op) {
    ValidKey(op.key) && (op.Set? ==> ControlFree(op.value))
  }

  predicate Stopped(s: State) {
    forall p | p in s.pcs :: s.pcs[p].Rest?
  }

  /** An action that is not enabled does nothing. `limit` is the number of attempts; `same`: the temporary file
      lies on the filesystem of the settings, so that mv is one rename. */
  function Next(same: bool, limit: nat, s: State, a: Action): State {
    match a
    case Start(p, op) => if At(s, p).Rest? then Move(s, p, Waiting(op, 0)) else s
    case TryMake(p) => (
      match At(s, p)
      case Waiting(op, n) =>
        if s.dir.Absent? then Move(s.(dir := Present(None)), p, Made(op))
        else if n + 1 >= limit then Move(s, p, Rest)
        else Move(s, p, Waiting(op, n + 1))
      case _ => s)
    case WritePid(p, ok) =>
      if At(s, p).Made? then
        Move(if ok && s.dir.Present? then s.(dir := Present(Some(p))) else s, p, Held(At(s, p).op))
      else s
    case Touch(p) =>
      if At(s, p).Held? && At(s, p).op.Set? && ValidOp(At(s, p).op) && s.file.None? then s.(file := Some("")) else s
    case ReadFile(p) => (
      match At(s, p)
      case Held(op) =>
        if !ValidOp(op) || (op.Unset? && s.file.None?) then Move(s, p, Finished)
        else Move(s, p, Ready(op, Rewritten(Text(s.file), op)))
      case _ => s)
    case Commit(p) => (
      match At(s, p)
      case Ready(op, tmp) =>
        if same then Move(s.(file := Some(tmp), log := s.log + [op]), p, Finished)
        else Move(s.(file := None), p, Copying(op, tmp))
      case _ => s)
    case Copy(p, n) => (
      match At(s, p)
      case Copying(op, tmp) =>
        if n < |tmp| then s.(file := Some(tmp[..n]))
        else Move(s.(file := Some(tmp), log := s.log + [op]), p, Finished)
      case _ => s)
    case Abort(p) => if At(s, p).Held? || At(s, p).Ready? || At(s, p).Copying? then Move(s, p, Finished) else s
    case Release(p) =>
      if !At(s, p).Finished? then s
      else if s.dir == Present(Some(p)) then Move(s, p, Checked)
      else Move(s, p, Rest)           // not its own lock: left intact
    case RemovePid(p) => if At(s, p).Checked? then Move(s.(dir := Present(None)), p, PidRemoved) else s
    case RemoveDir(p) => if At(s, p).PidRemoved? then Move(s.(dir := Absent), p, Rest) else s
    case Crash(p) => Move(s, p, Rest)
    case ManualRemove => if Stopped(s) then s.(dir := Absent) else s
    case SkipLock(p) => if At(s, p).Waiting? then Move(s, p, Held(At(s, p).op)) else s
  }

  function Run(same: bool, limit: nat, file: Option<string>, actions: seq<Action>): State {
    if actions == [] then State(Absent, file, map[], [])
    else Next(same, limit, Run(same, limit, file, actions[..|actions| - 1]), actions[|actions| - 1])
  }

  function Folded(text: string, log: seq<Op>): string {
    if log == [] then text else Rewritten(Folded(text, log[..|log| - 1]), log[|log| - 1])
  }

  // ------------------------------------------------------------------------
  // Mutual exclusion

  /** Between acquire and release. */
  predicate Holding(s: State, p: Pid) {
    !At(s, p).Rest? && !At(s, p).Waiting?
  }

  ghost predicate Exclusive(s: State) {
    && (forall p, q | Holding(s, p) && Holding(s, q) :: p == q)
    && (forall p | Holding(s, p) :: s.dir.Present? && (s.dir.pid.Some? ==> s.dir.pid.value == p))
  }

  predicate Locked(actions: seq<Action>) {
    forall i | 0 <= i < |actions| :: !actions[i].SkipLock?
  }

  lemma StoppedMeansNobodyHolds(s: State)
    requires Stopped(s)
    ensures forall p :: At(s, p).Rest?
  {
  }

  lemma StepExcludes(same: bool, limit: nat, s: State, a: Action)
    requires Exclusive(s) && !a.SkipLock?
    ensures Exclusive(Next(same, limit, s, a))
  {
    hide Rewritten, ValidOp, Text;
    var s' := Next(same, limit, s, a);
    if a == ManualRemove {
      if Stopped(s) { StoppedMeansNobodyHolds(s); }
    } else {
      assert Holding(s, a.p) ==> s.dir.Present?;
      assert forall q | q != a.p :: Holding(s', q) == Holding(s, q);
    }
  }

  /** In every interleaving, failures and crashes included, at most one process is between acquire and release. */
  lemma {:induction false} LockExcludes(same: bool, limit: nat, file: Option<string>, actions: seq<Action>)
    requires Locked(actions)
    ensures Exclusive(Run(same, limit, file, actions))
  {
    hide Next;
    if actions != [] {
      LockExcludes(same, limit, file, actions[..|actions| - 1]);
      StepExcludes(same, limit, Run(same, limit, file, actions[..|actions| - 1]), actions[|actions| - 1]);
    }
  }

  lemma RemovesOwn(same: bool, limit: nat, s: State, a: Action)
    requires Exclusive(s) && !a.SkipLock? && s.dir.Present? && Next(same, limit, s, a).dir.Absent?
    ensures || (a == ManualRemove && forall p :: !Holding(s, p))
            || (a.RemoveDir? && Holding(s, a.p) && forall p | Holding(s, p) :: p == a.p)
  {
    hide Rewritten, ValidOp, Text;
    if a == ManualRemove {
      StoppedMeansNobodyHolds(s);
    } else {
      assert a.RemoveDir? && At(s, a.p).PidRemoved?;
      assert Holding(s, a.p);
    }
  }

  /** A step that takes the lock away is the release of its only holder, or the operator's
      with all writers stopped. */
  lemma OnlyOwnLockRemoved(same: bool, limit: nat, file: Option<string>, actions: seq<Action>, a: Action)
    requires Locked(actions) && !a.SkipLock?
    ensures var s := Run(same, limit, file, actions);
      s.dir.Present? && Next(same, limit, s, a).dir.Absent? ==>
        || (a == ManualRemove && forall p :: !Holding(s, p))
        || (a.RemoveDir? && Holding(s, a.p) && forall p | Holding(s, p) :: p == a.p)
  {
    hide Run, Next, Exclusive;
    var s := Run(same, limit, file, actions);
    LockExcludes(same, limit, file, actions);
    if s.dir.Present? && Next(same, limit, s, a).dir.Absent? {
      RemovesOwn(same, limit, s, a);
    }
  }

  // ------------------------------------------------------------------------
  // No lost update

  /** Nobody is in the middle of a copy. */
  ghost predicate Whole(s: State) {
    forall p :: !At(s, p).Copying?
  }

  /** What the holder is about to write comes from the committed text; and that is the text of the file, unless a
      copy is on its way. */
  ghost predicate Serial(file: Option<string>, s: State) {
    && (forall p :: At(s, p).Ready? ==> ValidOp(At(s, p).op) && At(s, p).tmp == Rewritten(Text(s.file), At(s, p).op))
    && (forall p :: At(s, p).Copying? ==>
          ValidOp(At(s, p).op) && At(s, p).tmp == Rewritten(Folded(Text(file), s.log), At(s, p).op))
    && (Whole(s) ==> Text(s.file) == Folded(Text(file), s.log))
    && (forall op | op in s.log :: ValidOp(op))
  }

  /** No copy is cut short by a crash or a failing mv. */
  ghost predicate Untorn(same: bool, limit: nat, file: Option<string>, actions: seq<Action>) {
    forall i | 0 <= i < |actions| && (actions[i].Crash? || actions[i].Abort?) ::
      !At(Run(same, limit, file, actions[..i]), actions[i].p).Copying?
  }

  lemma FoldedSnoc(text: string, log: seq<Op>, op: Op)
    ensures Folded(text, log + [op]) == Rewritten(Folded(text, log), op)
  {
    assert (log + [op])[..|log|] == log;
  }

  /** Around a step of the only holder everybody else waits or rests. */
  lemma OthersIdle(s: State, p: Pid, s': State, pc: Pc)
    requires Exclusive(s) && Holding(s, p) && s'.pcs == s.pcs[p := pc]
    ensures At(s', p) == pc
    ensures forall q :: q != p ==> At(s, q).Rest? || At(s, q).Waiting?
    ensures forall q :: q != p ==> At(s', q).Rest? || At(s', q).Waiting?
  {
    forall q | q != p
      ensures (At(s, q).Rest? || At(s, q).Waiting?) && At(s', q) == At(s, q)
    {
      assert !Holding(s, q);
    }
  }

  /** The writer that commits is the only holder, so nobody else has text prepared. */
  lemma WrittenKeepsSerial(file: Option<string>, s: State, p: Pid, op: Op)
    requires Exclusive(s) && Serial(file, s) && Holding(s, p) && ValidOp(op)
    requires At(s, p) == Ready(op, Rewritten(Folded(Text(file), s.log), op))
          || At(s, p) == Copying(op, Rewritten(Folded(Text(file), s.log), op))
    ensures Serial(
        file, Move(s.(file := Some(Rewritten(Folded(Text(file), s.log), op)), log := s.log + [op]), p, Finished))
  {
    hide Rewritten, Folded, ValidOp;
    FoldedSnoc(Text(file), s.log, op);
    var s' := Move(s.(file := Some(Rewritten(Folded(Text(file), s.log), op)), log := s.log + [op]), p, Finished);
    OthersIdle(s, p, s', Finished);
  }

  /** From the removal of the old file on, what the file holds does not matter. */
  lemma CopyingKeepsSerial(file: Option<string>, s: State, p: Pid, op: Op, tmp: string, part: Option<string>)
    requires Exclusive(s) && Serial(file, s) && Holding(s, p) && ValidOp(op)
    requires tmp == Rewritten(Folded(Text(file), s.log), op)
    ensures Serial(file, Move(s.(file := part), p, Copying(op, tmp)))
  {
    hide Rewritten, Folded, ValidOp;
    var s' := Move(s.(file := part), p, Copying(op, tmp));
    OthersIdle(s, p, s', Copying(op, tmp));
  }

  lemma HolderIsWhole(s: State, p: Pid)
    requires Exclusive(s) && Holding(s, p) && !At(s, p).Copying?
    ensures Whole(s)
  {
    OthersIdle(s, p, s.(pcs := s.pcs[p := At(s, p)]), At(s, p));
  }

  lemma CommitKeepsSerial(same: bool, limit: nat, file: Option<string>, s: State, a: Action)
    requires Exclusive(s) && Serial(file, s) && (a.Commit? || a.Copy?)
    ensures Serial(file, Next(same, limit, s, a))
  {
    hide Rewritten, Folded, ValidOp, Exclusive, Whole;
    var pc := At(s, a.p);
    if a.Commit? && pc.Ready? {
      HolderIsWhole(s, a.p);
      if same {
        WrittenKeepsSerial(file, s, a.p, pc.op);
      } else {
        CopyingKeepsSerial(file, s, a.p, pc.op, pc.tmp, None);
      }
    } else if a.Copy? && pc.Copying? {
      if a.n < |pc.tmp| {
        CopyingKeepsSerial(file, s, a.p, pc.op, pc.tmp, Some(pc.tmp[..a.n]));
        assert s.pcs[a.p := pc] == s.pcs;
      } else {
        WrittenKeepsSerial(file, s, a.p, pc.op);
      }
    }
  }

  /** A step of a process that neither is nor gets into a copy, and leaves text and log alone. */
  lemma LocalKeepsSerial(file: Option<string>, s: State, s': State, p: Pid)
    requires Serial(file, s) && Text(s'.file) == Text(s.file) && s'.log == s.log
    requires forall q | q != p :: At(s', q) == At(s, q)
    requires !At(s, p).Copying? && !At(s', p).Copying?
    requires At(s', p).Ready? ==> ValidOp(At(s', p).op) && At(s', p).tmp == Rewritten(Text(s.file), At(s', p).op)
    ensures Serial(file, s')
  {
    hide Rewritten, Folded, ValidOp, Text;
    assert Whole(s') ==> Whole(s);
  }

  lemma StepKeepsSerial(same: bool, limit: nat, file: Option<string>, s: State, a: Action)
    requires Exclusive(s) && Serial(file, s) && !a.SkipLock?
    requires a.Crash? || a.Abort? ==> !At(s, a.p).Copying?
    ensures Serial(file, Next(same, limit, s, a))
  {
    hide Rewritten, Folded, ValidOp, Exclusive;
    var s' := Next(same, limit, s, a);
    if a.Commit? || a.Copy? {
      CommitKeepsSerial(same, limit, file, s, a);
    } else if a == ManualRemove {
    } else if s' != s {
      LocalKeepsSerial(file, s, s', a.p);
    }
  }

  /** The committed text is the fold of the committed operations in lock order: no update is lost as long as no copy
      is cut short, and with one filesystem there is no copy. */
  lemma {:induction false} LockIsSafe(same: bool, limit: nat, file: Option<string>, actions: seq<Action>)
    requires Locked(actions) && Untorn(same, limit, file, actions)
    ensures Serial(file, Run(same, limit, file, actions))
  {
    hide Next, Exclusive;
    if actions != [] {
      var front, a := actions[..|actions| - 1], actions[|actions| - 1];
      UntornFront(same, limit, file, actions);
      LockIsSafe(same, limit, file, front);
      LockExcludes(same, limit, file, front);
      StepKeepsSerial(same, limit, file, Run(same, limit, file, front), a);
    }
  }

  lemma UntornFront(same: bool, limit: nat, file: Option<string>, actions: seq<Action>)
    requires Untorn(same, limit, file, actions) && actions != []
    ensures Untorn(same, limit, file, actions[..|actions| - 1])
  {
    hide Run;
    var front := actions[..|actions| - 1];
    forall i | 0 <= i < |front|
      ensures front[..i] == actions[..i] && front[i] == actions[i]
    {
    }
  }

  /** With the temporary file on the filesystem of the settings there is never a copy. */
  lemma {:induction false} NeverCopies(limit: nat, file: Option<string>, actions: seq<Action>)
    ensures Whole(Run(true, limit, file, actions))
  {
    if actions != [] {
      NeverCopies(limit, file, actions[..|actions| - 1]);
      StepNeverCopies(limit, Run(true, limit, file, actions[..|actions| - 1]), actions[|actions| - 1]);
    }
  }

  lemma StepNeverCopies(limit: nat, s: State, a: Action)
    requires Whole(s)
    ensures Whole(Next(true, limit, s, a))
  {
    hide Rewritten, ValidOp;
    var s' := Next(true, limit, s, a);
    if a != ManualRemove {
      forall q
        ensures !At(s', q).Copying?
      {
        assert !At(s, q).Copying? && !At(s, a.p).Copying?;
      }
    }
  }

  // ------------------------------------------------------------------------
  // What the settings mean

  function Updated(m: map<string, string>, log: seq<Op>): map<string, string> {
    if log == [] then m
    else
      var m' := Updated(m, log[..|log| - 1]);
      match log[|log| - 1]
      case Set(k, v) => m'[k := v]
      case Unset(k) => m' - {k}
  }

  lemma RewrittenLoads(text: string, op: Op)
    requires ValidOp(op)
    ensures LoadText(Rewritten(text, op))
         == match op case Set(k, v) => LoadText(text)[k := v] case Unset(k) => LoadText(text) - {k}
  {
    match op
    case Set(k, v) => SetThenLoad(Some(text), k, v);
    case Unset(k) => UnsetThenLoad(Some(text), k);
  }

  lemma {:induction false} FoldedLoads(text: string, log: seq<Op>)
    requires forall op | op in log :: ValidOp(op)
    ensures LoadText(Folded(text, log)) == Updated(LoadText(text), log)
  {
    if log != [] {
      var front, op := log[..|log| - 1], log[|log| - 1];
      assert op in log && forall o | o in front :: o in log;
      FoldedLoads(text, front);
      RewrittenLoads(Folded(text, front), op);
    }
  }

  ghost predicate ReadersAgree(same: bool, limit: nat, file: Option<string>, actions: seq<Action>) {
    var s := Run(same, limit, file, actions);
    LoadText(Text(s.file)) == Updated(LoadText(Text(file)), s.log)
  }

  /** While no copy is on its way a reader loads the old settings updated by the committed writes. */
  lemma ReadersSeeCommittedWrites(same: bool, limit: nat, file: Option<string>, actions: seq<Action>)
    requires Locked(actions) && Untorn(same, limit, file, actions) && Whole(Run(same, limit, file, actions))
    ensures ReadersAgree(same, limit, file, actions)
  {
    LockIsSafe(same, limit, file, actions);
    FoldedLoads(Text(file), Run(same, limit, file, actions).log);
  }

  lemma RunSnoc(same: bool, limit: nat, file: Option<string>, actions: seq<Action>, a: Action)
    ensures Run(same, limit, file, actions + [a]) == Next(same, limit, Run(same, limit, file, actions), a)
  {
    assert (actions + [a])[..|actions|] == actions;
  }

  // ------------------------------------------------------------------------
  // Where the promise ends

  /** The write of `op` by process 0 up to the start of its mv. */
  function Opening(op: Op): seq<Action> {
    [Start(0, op), TryMake(0), WritePid(0, true), ReadFile(0), Commit(0)]
  }

  /** The rest of it, with a copy that arrives whole. */
  function Closing(n: nat): seq<Action> {
    [Copy(0, n), Release(0), RemovePid(0), RemoveDir(0)]
  }

  lemma RunFour(same: bool, limit: nat, file: Option<string>, t: seq<Action>,
          a: Action, b: Action, c: Action, d: Action)
    ensures Run(same, limit, file, t + [a, b, c, d])
         == Next(same, limit,
              Next(same, limit, Next(same, limit, Next(same, limit, Run(same, limit, file, t), a), b), c), d)
  {
    hide Next;
    RunSnoc(same, limit, file, t, a);
    RunSnoc(same, limit, file, t + [a], b);
    RunSnoc(same, limit, file, t + [a] + [b], c);
    RunSnoc(same, limit, file, t + [a] + [b] + [c], d);
    assert t + [a] + [b] + [c] + [d] == t + [a, b, c, d];
  }

  predicate Free(s: State) {
    At(s, 0).Rest? && s.dir.Absent?
  }

  lemma OpeningRemoves(limit: nat, file: Option<string>, t: seq<Action>, op: Op)
    requires limit > 0 && Free(Run(false, limit, file, t)) && ValidOp(op) && op.Set?
    ensures var (s, r) := (Run(false, limit, file, t), Run(false, limit, file, t + Opening(op)));
      && At(r, 0) == Copying(op, Rewritten(Text(s.file), op)) && r.file == None && r.log == s.log
      && r.dir == Present(Some(0))
  {
    hide Rewritten, ValidOp, Run;
    RunFour(false, limit, file, t, Start(0, op), TryMake(0), WritePid(0, true), ReadFile(0));
    RunSnoc(false, limit, file, t + [Start(0, op), TryMake(0), WritePid(0, true), ReadFile(0)], Commit(0));
    assert t + [Start(0, op), TryMake(0), WritePid(0, true), ReadFile(0)] + [Commit(0)] == t + Opening(op);
  }

  lemma ClosingCommits(limit: nat, file: Option<string>, t: seq<Action>, op: Op, tmp: string)
    requires At(Run(false, limit, file, t), 0) == Copying(op, tmp) && Run(false, limit, file, t).dir == Present(Some(0))
    ensures var (s, r) := (Run(false, limit, file, t), Run(false, limit, file, t + Closing(|tmp|)));
      Free(r) && r.file == Some(tmp) && r.log == s.log + [op]
  {
    hide Rewritten, ValidOp, Run;
    RunFour(false, limit, file, t, Copy(0, |tmp|), Release(0), RemovePid(0), RemoveDir(0));
  }

  /** A locked run in which nothing crashes or fails. */
  predicate Calm(actions: seq<Action>) {
    forall i | 0 <= i < |actions| :: !actions[i].Crash? && !actions[i].Abort? && !actions[i].SkipLock?
  }

  lemma CalmMore(a: seq<Action>, b: seq<Action>)
    requires Calm(a) && Calm(b)
    ensures Calm(a + b)
  {
  }

  lemma CalmIsUntorn(limit: nat, file: Option<string>, actions: seq<Action>)
    requires Calm(actions)
    ensures Locked(actions) && Untorn(false, limit, file, actions)
  {
    hide Run;
  }

  /** Process 0 writes one setting, and removes the file for the next one. */
  lemma SecondRemoval(limit: nat, file: Option<string>, op: Op, tmp: string) returns (actions: seq<Action>)
    requires limit > 0 && ValidOp(op) && op.Set? && tmp == Rewritten(Text(file), op)
    ensures Calm(actions)
    ensures var s := Run(false, limit, file, actions); s.file == None && s.log == [op] && At(s, 0).Copying?
  {
    hide Rewritten, ValidOp, Run, Calm, Opening, Closing;
    var t0: seq<Action> := [];
    var t1 := t0 + Opening(op);
    var t2 := t1 + Closing(|tmp|);
    actions := t2 + Opening(op);
    RunNothing(limit, file);
    OpeningRemoves(limit, file, t0, op);
    ClosingCommits(limit, file, t1, op, tmp);
    OpeningRemoves(limit, file, t2, op);
    CalmSteps(op, |tmp|);
    CalmMore(t0, Opening(op));
    CalmMore(t1, Closing(|tmp|));
    CalmMore(t2, Opening(op));
  }

  lemma CalmSteps(op: Op, n: nat)
    ensures Calm([]) && Calm(Opening(op)) && Calm(Closing(n))
  {
  }

  /** Between filesystems, after one committed setting: the second write has removed the file and copied nothing. */
  lemma ReaderFindsNothing(limit: nat, file: Option<string>) returns (actions: seq<Action>)
    requires limit > 0
    ensures Locked(actions) && Untorn(false, limit, file, actions)
    ensures var s := Run(false, limit, file, actions);
      s.file == None && s.log == [Set("LMLINE_A", "1")] && At(s, 0).Copying?
    ensures !ReadersAgree(false, limit, file, actions)
  {
    var op := Set("LMLINE_A", "1");
    assert ValidOp(op);
    hide Rewritten, ValidOp, Run, LoadText, Untorn;
    actions := SecondRemoval(limit, file, op, Rewritten(Text(file), op));
    CalmIsUntorn(limit, file, actions);
    LoadsNothing();
    UpdatedOnce(LoadText(Text(file)), op);
    assert op.key in Updated(LoadText(Text(file)), [op]) && op.key !in LoadText("");
    assert Text(Run(false, limit, file, actions).file) == "";
  }

  lemma UpdatedOnce(m: map<string, string>, op: Op)
    requires op.Set?
    ensures Updated(m, [op]) == m[op.key := op.value]
  {
    assert [op][..0] == [];
  }

  lemma RunNothing(limit: nat, file: Option<string>)
    ensures Run(false, limit, file, []) == State(Absent, file, map[], [])
  {
  }

  lemma LoadsNothing()
    ensures LoadText("") == map[]
  {
  }

  /** A crash at that point leaves the settings gone with nobody writing. */
  lemma CrashLeavesNothing(limit: nat, file: Option<string>) returns (actions: seq<Action>)
    requires limit > 0
    ensures Locked(actions) && At(Run(false, limit, file, actions), 0).Rest?
    ensures Run(false, limit, file, actions).file == None && !ReadersAgree(false, limit, file, actions)
  {
    hide Run, LoadText;
    var t := ReaderFindsNothing(limit, file);
    actions := t + [Crash(0)];
    RunSnoc(false, limit, file, t, Crash(0));
  }

  lemma SameNeverTears(limit: nat, file: Option<string>, actions: seq<Action>)
    ensures Untorn(true, limit, file, actions)
  {
    hide Run;
    forall i | 0 <= i < |actions|
      ensures !At(Run(true, limit, file, actions[..i]), if actions[i] == ManualRemove then 0 else actions[i].p).Copying?
    {
      NeverCopies(limit, file, actions[..i]);
    }
  }

  /** Readers see exactly the committed writes at every moment of every locked run, crashes included, exactly when
      the temporary file lies on the filesystem of the settings. */
  lemma RenameDecides(same: bool, limit: nat, file: Option<string>)
    requires limit > 0
    ensures (forall actions | Locked(actions) :: ReadersAgree(same, limit, file, actions)) <==> same
  {
    hide Run, ReadersAgree;
    if same {
      forall actions | Locked(actions)
        ensures ReadersAgree(same, limit, file, actions)
      {
        SameNeverTears(limit, file, actions);
        NeverCopies(limit, file, actions);
        ReadersSeeCommittedWrites(same, limit, file, actions);
      }
    } else {
      var actions := ReaderFindsNothing(limit, file);
      assert Locked(actions) && !ReadersAgree(same, limit, file, actions);
    }
  }

  predicate BothHold(s: State, a: Op, b: Op) {
    At(s, 0) == Held(a) && At(s, 1) == Held(b) && s.file == None && s.log == []
  }

  lemma SkipToHeld(a: Op, b: Op) returns (actions: seq<Action>)
    ensures BothHold(Run(true, 1, None, actions), a, b)
  {
    actions := [] + [Start(0, a), Start(1, b), SkipLock(0), SkipLock(1)];
    RunFour(true, 1, None, [], Start(0, a), Start(1, b), SkipLock(0), SkipLock(1));
  }

  lemma BothCommit(s: State, a: Op, b: Op)
    requires BothHold(s, a, b) && ValidOp(a) && ValidOp(b) && a.Set? && b.Set?
    ensures var s' :=
        Next(true, 1, Next(true, 1, Next(true, 1, Next(true, 1, s, ReadFile(0)), ReadFile(1)), Commit(0)), Commit(1));
      s'.log == [a, b] && s'.file == Some(Rewritten("", b))
  {
    hide Rewritten, ValidOp;
  }

  /** Without the lock two writers can both commit and one update is gone. */
  lemma SkippingLosesUpdates() returns (actions: seq<Action>)
    ensures var s := Run(true, 1, None, actions);
      && s.log == [Set("LMLINE_A", "1"), Set("LMLINE_B", "2")]
      && LoadText(Text(s.file)) == map["LMLINE_B" := "2"]
  {
    var a, b := Set("LMLINE_A", "1"), Set("LMLINE_B", "2");
    RewrittenLoads("", b);
    assert ValidOp(a);
    LoadsNothing();
    hide Rewritten, LoadText, ValidOp, Next, Run;
    var t := SkipToHeld(a, b);
    BothCommit(Run(true, 1, None, t), a, b);
    RunFour(true, 1, None, t, ReadFile(0), ReadFile(1), Commit(0), Commit(1));
    actions := t + [ReadFile(0), ReadFile(1), Commit(0), Commit(1)];
  }

  // ------------------------------------------------------------------------
  // A writer that meets a free lock

  /** The process makes the lock its own. */
  function Entered(same: bool, limit: nat, s: State, p: Pid, op: Op): State {
    Next(same, limit, Next(same, limit, Next(same, limit, s, Start(p, op)), TryMake(p)), WritePid(p, true))
  }

  /** The release in its three steps. */
  function Released(same: bool, limit: nat, s: State, p: Pid): State {
    Next(same, limit, Next(same, limit, Next(same, limit, s, Release(p)), RemovePid(p)), RemoveDir(p))
  }

  /** The holder reads the file and replaces it by a rename. */
  function Wrote(limit: nat, s: State, p: Pid): State {
    Next(true, limit, Next(true, limit, Next(true, limit, s, Touch(p)), ReadFile(p)), Commit(p))
  }

  lemma EnteredIs(same: bool, limit: nat, s: State, p: Pid, op: Op)
    requires At(s, p).Rest? && s.dir.Absent?
    ensures var r := Entered(same, limit, s, p, op);
      At(r, p) == Held(op) && r.dir == Present(Some(p)) && r.file == s.file && r.log == s.log
  {
  }

  lemma ReleasedIs(same: bool, limit: nat, s: State, p: Pid)
    requires At(s, p).Finished? && s.dir == Present(Some(p))
    ensures var r := Released(same, limit, s, p);
      At(r, p).Rest? && r.dir.Absent? && r.file == s.file && r.log == s.log
  {
  }

  /** A valid change that meets a free lock is written in one rename, and the lock is gone afterwards. Only an unset
      without a file writes nothing. */
  lemma WriterCommits(limit: nat, s: State, p: Pid, op: Op)
    requires At(s, p).Rest? && s.dir.Absent? && ValidOp(op)
    ensures var r := Released(true, limit, Wrote(limit, Entered(true, limit, s, p, op), p), p);
      && At(r, p).Rest? && r.dir.Absent?
      && if op.Unset? && s.file.None? then r.file == None && r.log == s.log
         else r.file == Some(Rewritten(Text(s.file), op)) && r.log == s.log + [op]
  {
    hide Entered, Released, Rewritten, ValidOp;
    EnteredIs(true, limit, s, p, op);
    var e := Entered(true, limit, s, p, op);
    ReleasedIs(true, limit, Wrote(limit, e, p), p);
  }

  /** A change that is not valid writes nothing. */
  lemma InvalidIsNotWritten(limit: nat, s: State, p: Pid, op: Op)
    requires At(s, p).Rest? && s.dir.Absent? && !ValidOp(op)
    ensures var r := Released(true, limit, Wrote(limit, Entered(true, limit, s, p, op), p), p);
      At(r, p).Rest? && r.dir.Absent? && r.log == s.log && r.file == s.file
  {
    hide Entered, Released, Rewritten, ValidOp;
    EnteredIs(true, limit, s, p, op);
    var e := Entered(true, limit, s, p, op);
    ReleasedIs(true, limit, Wrote(limit, e, p), p);
  }

  /** The state after `n` attempts in a row. */
  function Tried(same: bool, limit: nat, s: State, p: Pid, n: nat): State {
    if n == 0 then s else Next(same, limit, Tried(same, limit, s, p, n - 1), TryMake(p))
  }

  /** A writer that finds the lock taken at every attempt gives up after the last one and changes nothing. */
  lemma {:induction false} WriterGivesUp(same: bool, limit: nat, s: State, p: Pid, op: Op, n: nat)
    requires At(s, p) == Waiting(op, 0) && s.dir.Present? && 0 < n <= limit
    ensures var r := Tried(same, limit, s, p, n);
      && r.dir == s.dir && r.file == s.file && r.log == s.log
      && At(r, p) == if n == limit then Rest else Waiting(op, n)
  {
    if n > 1 {
      WriterGivesUp(same, limit, s, p, op, n - 1);
    }
  }
}
