// Sessions of the plan account: login, refresh, token and logout processes that
// share one credential file. The lock is taken to exclude: only a lock whose
// holder has ended is ever reclaimed.

module Credentials {
  import opened Common

  datatype Credential = Credential(clientId: string, account: string, access: string, refresh: string,
                                   expiresAt: int, scopes: set<string>)

  /** A token answer; an empty refresh token keeps the stored one, an absent scope grants nothing. */
  datatype Payload = Payload(access: string, refresh: string, expiresAt: int, scope: Option<set<string>>,
    account: Option<string>)

  datatype Command = Login(credential: Credential) | Refresh | Token | Logout(purge: bool)

  const PLAN := "chatgpt.tokens.use.direct"

  function ApplyTokenPayload(c: Credential, p: Payload): Credential {
    Credential(c.clientId, if p.account.Some? then p.account.value else c.account, p.access,
               if p.refresh != "" then p.refresh else c.refresh, p.expiresAt,
               if p.scope.Some? then p.scope.value else {})
  }

  function Cleared(c: Credential): Credential {
    c.(access := "", refresh := "", expiresAt := 0, scopes := {})
  }

  /** What a process holds between its steps inside the lock. `Finished`: only the release is left. */
  datatype Process =
    | Idle
    | Waiting(command: Command)
    | Locked(command: Command)
    | Loaded(command: Command, found: Option<Credential>)
    | Sent(command: Command, credential: Credential)
    | Answered(command: Command, credential: Credential, payload: Payload)
    | Saved(command: Command, credential: Credential)
    | Finished
    | Dead

  /** What was written, in order. */
  datatype Commit = SignedIn(credential: Credential) | Refreshed(payload: Payload) | SignedOut(purge: bool)

  /** A refresh token that was presented after the first `at` commits. */
  datatype Shown = Shown(token: string, at: nat)

  /** An access token that was handed out after the first `at` commits; `asOf` is the clock when it was
      handed out as stored, and absent when it had just been refreshed. */
  datatype Handed = Handed(token: string, at: nat, asOf: Option<int>)

  datatype State = State(file: Option<Credential>, lock: Option<nat>, processes: seq<Process>,
                         log: seq<Commit>, presented: seq<Shown>, printed: seq<Handed>)

  datatype Action =
    | Begin(p: nat, command: Command)
    | GiveUp(p: nat)
    | Acquire(p: nat)
    | Load(p: nat)
    | Proceed(p: nat, now: int)
    | Answer(p: nat, payload: Option<Payload>)
    | Save(p: nat)
    | Print(p: nat)
    | Release(p: nat)
    | Kill(p: nat)
    | Reclaim

  const REFRESH_MARGIN := 60

  predicate InSection(x: Process) {
    x.Locked? || x.Loaded? || x.Sent? || x.Answered? || x.Saved? || x.Finished?
  }

  function Put(s: State, p: nat, x: Process): State
    requires p < |s.processes|
  {
    s.(processes := s.processes[p := x])
  }

  /** A command that has read the file: what it does before it needs an answer. */
  function Decide(s: State, p: nat, now: int): State
    requires p < |s.processes| && s.processes[p].Loaded?
  {
    var (command, found) := (s.processes[p].command, s.processes[p].found);
    match command
    case Login(c) => s
    case Logout(purge) =>
      if found.None? then Put(s, p, Finished)
      else
        Put(s, p, Finished)
          .(file := if purge then None else Some(Cleared(found.value)), log := s.log + [SignedOut(purge)])
    case Refresh =>
      if found.None? || found.value.refresh == "" then Put(s, p, Finished) else Present(s, p, command, found.value)
    case Token =>
      if found.None? || found.value.access == "" then Put(s, p, Finished)
      else if found.value.expiresAt - REFRESH_MARGIN > now then Hand(s, p, found.value, Some(now))
      else if found.value.refresh == "" then Put(s, p, Finished)
      else Present(s, p, command, found.value)
  }

  function Present(s: State, p: nat, command: Command, c: Credential): State
    requires p < |s.processes|
  {
    Put(s, p, Sent(command, c)).(presented := s.presented + [Shown(c.refresh, |s.log|)])
  }

  /** Hands the access token out only with the plan scope. */
  function Hand(s: State, p: nat, c: Credential, asOf: Option<int>): State
    requires p < |s.processes|
  {
    if PLAN in c.scopes then Put(s, p, Finished).(printed := s.printed + [Handed(c.access, |s.log|, asOf)])
    else Put(s, p, Finished)
  }

  /** An action that is not possible changes nothing. */
  function Next(s: State, a: Action): State {
    if a.Reclaim? then
      if s.lock.Some? && s.lock.value < |s.processes| && s.processes[s.lock.value].Dead? then s.(lock := None) else s
    else if a.p >= |s.processes| then s
    else
      var x := s.processes[a.p];
      match a
      case Begin(p, command) => if x.Idle? then Put(s, p, Waiting(command)) else s
      case GiveUp(p) => if x.Waiting? then Put(s, p, Idle) else s
      case Acquire(p) => if x.Waiting? && s.lock.None? then Put(s, p, Locked(x.command)).(lock := Some(p)) else s
      case Load(p) => if x.Locked? && !x.command.Login? then Put(s, p, Loaded(x.command, s.file)) else s
      case Proceed(p, now) => if x.Loaded? then Decide(s, p, now) else s
      case Answer(p, payload) =>
        if !x.Sent? then s
        else if payload.None? || payload.value.access == "" then Put(s, p, Finished)
        else Put(s, p, Answered(x.command, x.credential, payload.value))
      case Save(p) =>
        if x.Locked? && x.command.Login? then
          Put(s, p, Finished).(file := Some(x.command.credential), log := s.log + [SignedIn(x.command.credential)])
        else if x.Answered? then
          var updated := ApplyTokenPayload(x.credential, x.payload);
          Put(s, p, Saved(x.command, updated)).(file := Some(updated), log := s.log + [Refreshed(x.payload)])
        else s
      case Print(p) =>
        if x.Saved? then if x.command.Token? then Hand(s, p, x.credential, None) else Put(s, p, Finished) else s
      case Release(p) => if InSection(x) then Put(s, p, Idle).(lock := None) else s
      case Kill(p) => Put(s, p, Dead)
  }

  function Initial(file: Option<Credential>, n: nat): State {
    State(file, None, seq(n, _ => Idle), if file.None? then [] else [SignedIn(file.value)], [], [])
  }

  function Run(s: State, actions: seq<Action>): State {
    if actions == [] then s else Next(Run(s, actions[..|actions| - 1]), actions[|actions| - 1])
  }

  // ------------------------------------------------------------------------
  // The commits as one sequence

  /** The file as one commit after the other leaves it, with no process in between. */
  function Replay(log: seq<Commit>): Option<Credential> {
    if log == [] then None
    else
      var before := Replay(log[..|log| - 1]);
      match log[|log| - 1]
      case SignedIn(c) => Some(c)
      case Refreshed(payload) => if before.None? then None else Some(ApplyTokenPayload(before.value, payload))
      case SignedOut(purge) => if purge || before.None? then None else Some(Cleared(before.value))
  }

  lemma ReplayMore(log: seq<Commit>, c: Commit)
    ensures Replay(log + [c]) ==
      match c
      case SignedIn(credential) => Some(credential)
      case Refreshed(payload) =>
        if Replay(log).None? then None else Some(ApplyTokenPayload(Replay(log).value, payload))
      case SignedOut(purge) => if purge || Replay(log).None? then None else Some(Cleared(Replay(log).value))
  {
  }

  /** Every refresh in the log found a refresh token. */
  ghost predicate Earned(log: seq<Commit>) {
    forall i | 0 <= i < |log| && log[i].Refreshed? :: Replay(log[..i]).Some? && Replay(log[..i]).value.refresh != ""
  }

  /** Each token shown was the stored one when it left. */
  ghost predicate Presented(log: seq<Commit>, shown: seq<Shown>) {
    forall i | 0 <= i < |shown| ::
      && shown[i].at <= |log| && Replay(log[..shown[i].at]).Some?
      && shown[i].token == Replay(log[..shown[i].at]).value.refresh && shown[i].token != ""
  }

  /** Each access token handed out was the stored one, covered by the plan scope, and either not about to
      expire or the result of the refresh that was just committed. */
  ghost predicate Printed(log: seq<Commit>, handed: seq<Handed>) {
    forall i | 0 <= i < |handed| ::
      && handed[i].at <= |log| && Replay(log[..handed[i].at]).Some?
      && Covers(Replay(log[..handed[i].at]).value, handed[i])
      && (handed[i].asOf.None? ==> handed[i].at > 0 && log[handed[i].at - 1].Refreshed?)
  }

  predicate Covers(c: Credential, h: Handed) {
    && h.token == c.access && PLAN in c.scopes
    && (h.asOf.Some? ==> c.expiresAt - REFRESH_MARGIN > h.asOf.value)
  }

  /** What a process in the section carries is what is stored. */
  ghost predicate Carries(x: Process, file: Option<Credential>, log: seq<Commit>) {
    && (x.Loaded? ==> x.found == file && !x.command.Login?)
    && (x.Sent? || x.Answered? ==> file == Some(x.credential) && x.credential.refresh != "")
    && (x.Saved? ==> file == Some(x.credential) && log != [] && log[|log| - 1].Refreshed?)
  }

  ghost predicate Exclusive(s: State) {
    && (forall p | 0 <= p < |s.processes| && InSection(s.processes[p]) :: s.lock == Some(p))
    && (s.lock.Some? ==>
          s.lock.value < |s.processes| && (InSection(s.processes[s.lock.value]) || s.processes[s.lock.value].Dead?))
  }

  ghost predicate Valid(s: State) {
    && Exclusive(s)
    && (forall p | 0 <= p < |s.processes| :: Carries(s.processes[p], s.file, s.log))
    && s.file == Replay(s.log)
    && Earned(s.log) && Presented(s.log, s.presented) && Printed(s.log, s.printed)
  }

  // ------------------------------------------------------------------------
  // Every step keeps it

  lemma LogMore(s: State, c: Commit)
    requires Earned(s.log) && Presented(s.log, s.presented) && Printed(s.log, s.printed)
    requires c.Refreshed? ==> Replay(s.log).Some? && Replay(s.log).value.refresh != ""
    ensures Earned(s.log + [c]) && Presented(s.log + [c], s.presented) && Printed(s.log + [c], s.printed)
  {
    hide Replay;
    var log := s.log + [c];
    forall i | 0 <= i <= |s.log|
      ensures log[..i] == s.log[..i]
    {
    }
    assert s.log[..|s.log|] == s.log;
  }

  lemma PresentKeeps(s: State, p: nat, command: Command, c: Credential)
    requires Valid(s) && p < |s.processes| && s.processes[p].Loaded?
      && s.file == Some(c) && c.refresh != "" && !command.Login?
    ensures Valid(Present(s, p, command, c))
  {
    hide Replay, Earned;
    assert s.log[..|s.log|] == s.log;
  }

  lemma HandKeeps(s: State, p: nat, c: Credential, asOf: Option<int>)
    requires Valid(s) && p < |s.processes| && InSection(s.processes[p]) && s.file == Some(c)
    requires if asOf.Some? then c.expiresAt - REFRESH_MARGIN > asOf.value
      else s.log != [] && s.log[|s.log| - 1].Refreshed?
    ensures Valid(Hand(s, p, c, asOf))
  {
    hide Replay, Earned;
    assert s.log[..|s.log|] == s.log;
  }

  /** A commit of the lock's holder. */
  lemma CommitKeeps(s: State, p: nat, x: Process, file: Option<Credential>, c: Commit)
    requires Valid(s) && p < |s.processes| && InSection(s.processes[p]) && InSection(x)
    requires c.Refreshed? ==> Replay(s.log).Some? && Replay(s.log).value.refresh != ""
    requires file == Replay(s.log + [c]) && Carries(x, file, s.log + [c])
    ensures Valid(Put(s, p, x).(file := file, log := s.log + [c]))
  {
    hide Replay, Earned, Presented, Printed, Carries;
    LogMore(s, c);
    var r := Put(s, p, x).(file := file, log := s.log + [c]);
    forall q | 0 <= q < |r.processes|
      ensures Carries(r.processes[q], file, r.log)
    {
      if q != p {
        Outside(s, q, file, r.log);
      }
    }
  }

  lemma Outside(s: State, q: nat, file: Option<Credential>, log: seq<Commit>)
    requires q < |s.processes| && !InSection(s.processes[q])
    ensures Carries(s.processes[q], file, log)
  {
  }

  /** A step that writes and shows nothing. */
  lemma MoveKeeps(s: State, p: nat, x: Process, lock: Option<nat>)
    requires Valid(s) && p < |s.processes| && Carries(x, s.file, s.log)
    requires Exclusive(Put(s, p, x).(lock := lock))
    ensures Valid(Put(s, p, x).(lock := lock))
  {
  }

  lemma DecideKeeps(s: State, p: nat, now: int)
    requires Valid(s) && p < |s.processes| && s.processes[p].Loaded?
    ensures Valid(Decide(s, p, now))
  {
    hide Replay, Earned, Presented, Printed, Hand, Present;
    var x := s.processes[p];
    assert Carries(x, s.file, s.log);
    MoveKeeps(s, p, Finished, s.lock);
    if x.found.Some? {
      if x.found.value.expiresAt - REFRESH_MARGIN > now {
        HandKeeps(s, p, x.found.value, Some(now));
      }
      if x.found.value.refresh != "" {
        PresentKeeps(s, p, x.command, x.found.value);
      }
      if x.command.Logout? {
        var c := SignedOut(x.command.purge);
        ReplayMore(s.log, c);
        CommitKeeps(s, p, Finished, Replay(s.log + [c]), c);
      }
    }
  }

  lemma SaveKeeps(s: State, p: nat)
    requires Valid(s) && p < |s.processes|
    ensures Valid(Next(s, Save(p)))
  {
    hide Replay, Earned, Presented, Printed;
    var x := s.processes[p];
    assert Carries(x, s.file, s.log);
    if x.Locked? && x.command.Login? {
      var c := SignedIn(x.command.credential);
      ReplayMore(s.log, c);
      CommitKeeps(s, p, Finished, Some(x.command.credential), c);
    } else if x.Answered? {
      var updated := ApplyTokenPayload(x.credential, x.payload);
      ReplayMore(s.log, Refreshed(x.payload));
      CommitKeeps(s, p, Saved(x.command, updated), Some(updated), Refreshed(x.payload));
    }
  }

  lemma AnswerKeeps(s: State, p: nat, payload: Option<Payload>)
    requires Valid(s) && p < |s.processes| && s.processes[p].Sent?
    ensures Valid(Next(s, Answer(p, payload)))
  {
    hide Replay, Earned, Presented, Printed;
    var x := s.processes[p];
    assert Carries(x, s.file, s.log);
    MoveKeeps(s, p, Finished, s.lock);
    if payload.Some? {
      MoveKeeps(s, p, Answered(x.command, x.credential, payload.value), s.lock);
    }
  }

  lemma PrintKeeps(s: State, p: nat)
    requires Valid(s) && p < |s.processes| && s.processes[p].Saved?
    ensures Valid(Next(s, Print(p)))
  {
    hide Replay, Earned, Presented, Printed, Hand;
    var x := s.processes[p];
    assert Carries(x, s.file, s.log);
    HandKeeps(s, p, x.credential, None);
    MoveKeeps(s, p, Finished, s.lock);
  }

  lemma NextKeeps(s: State, a: Action)
    requires Valid(s)
    ensures Valid(Next(s, a))
  {
    hide Replay, Earned, Presented, Printed, Decide, Hand;
    if !a.Reclaim? && a.p < |s.processes| {
      var x := s.processes[a.p];
      assert Carries(x, s.file, s.log);
      match a
      case Begin(p, command) => if x.Idle? { MoveKeeps(s, p, Waiting(command), s.lock); }
      case GiveUp(p) => if x.Waiting? { MoveKeeps(s, p, Idle, s.lock); }
      case Acquire(p) => if x.Waiting? && s.lock.None? { MoveKeeps(s, p, Locked(x.command), Some(p)); }
      case Load(p) => if x.Locked? && !x.command.Login? { MoveKeeps(s, p, Loaded(x.command, s.file), s.lock); }
      case Proceed(p, now) => if x.Loaded? { DecideKeeps(s, p, now); }
      case Answer(p, payload) => if x.Sent? { AnswerKeeps(s, p, payload); }
      case Save(p) => SaveKeeps(s, p);
      case Print(p) => if x.Saved? { PrintKeeps(s, p); }
      case Release(p) => if InSection(x) { MoveKeeps(s, p, Idle, None); }
      case Kill(p) => MoveKeeps(s, p, Dead, s.lock);
    }
  }

  /** In every interleaving: at most one process is in the section, the stored credential is what the commits
      one after the other leave, a refresh presents only the stored refresh token, and an access token is
      handed out only as stored and with the plan scope. */
  lemma {:induction false} SessionsAreSerial(file: Option<Credential>, n: nat, actions: seq<Action>)
    ensures Valid(Run(Initial(file, n), actions))
  {
    if actions == [] {
      var s := Initial(file, n);
      if file.Some? {
        ReplayMore([], SignedIn(file.value));
        assert [] + [SignedIn(file.value)] == [SignedIn(file.value)];
      }
    } else {
      SessionsAreSerial(file, n, actions[..|actions| - 1]);
      NextKeeps(Run(Initial(file, n), actions[..|actions| - 1]), actions[|actions| - 1]);
    }
  }

  // ------------------------------------------------------------------------
  // Sign-out and descent

  predicate SignedOutOnly(file: Option<Credential>) {
    file.Some? ==> file.value.access == "" && file.value.refresh == "" && file.value.scopes == {}
  }

  /** After a sign-out nothing but a later sign-in brings a token back, and no refresh commits. */
  lemma {:induction false} LogoutStays(log: seq<Commit>, i: nat)
    requires Earned(log) && i < |log| && log[i].SignedOut?
    requires forall j | i < j < |log| :: !log[j].SignedIn?
    ensures SignedOutOnly(Replay(log)) && forall j | i < j < |log| :: log[j].SignedOut?
    decreases |log|
  {
    var front, last := log[..|log| - 1], log[|log| - 1];
    assert log == front + [last];
    ReplayMore(front, last);
    if i < |log| - 1 {
      EarnedFront(log);
      LogoutStays(front, i);
      assert log[..|log| - 1] == front;
      assert !log[|log| - 1].Refreshed?;
    } else {
      assert SignedOutOnly(Replay(log));
    }
  }

  lemma EarnedFront(log: seq<Commit>)
    requires Earned(log) && log != []
    ensures Earned(log[..|log| - 1])
  {
    hide Replay;
    var front := log[..|log| - 1];
    forall i | 0 <= i < |front| && front[i].Refreshed?
      ensures Replay(front[..i]).Some? && Replay(front[..i]).value.refresh != ""
    {
      assert front[..i] == log[..i];
    }
  }

  function Refreshes(c: Credential, commits: seq<Commit>): Credential {
    if commits == [] then c
    else
      var front := Refreshes(c, commits[..|commits| - 1]);
      if commits[|commits| - 1].Refreshed? then ApplyTokenPayload(front, commits[|commits| - 1].payload) else front
  }

  /** A stored session is the last committed sign-in with the refreshes committed since, nothing else. */
  lemma {:induction false} SessionDescends(log: seq<Commit>) returns (i: nat)
    requires Earned(log) && Replay(log).Some? && (Replay(log).value.refresh != "" || Replay(log).value.access != "")
    ensures i < |log| && log[i].SignedIn? && forall j | i < j < |log| :: log[j].Refreshed?
    ensures Replay(log) == Some(Refreshes(log[i].credential, log[i + 1..]))
    ensures Replay(log).value.clientId == log[i].credential.clientId
  {
    hide Replay, Refreshes, Earned;
    assert log != [] by { ReplayNothing(); }
    var front, last := log[..|log| - 1], log[|log| - 1];
    assert log == front + [last];
    ReplayMore(front, last);
    if last.SignedIn? {
      i := |log| - 1;
      assert log[i + 1..] == [];
      RefreshesNone(last.credential);
    } else {
      EarnedFront(log);
      assert last.Refreshed?;
      EarnedLast(log);
      i := SessionDescends(front);
      assert log[i + 1..] == front[i + 1..] + [last];
      RefreshesMore(log[i].credential, front[i + 1..], last);
    }
  }

  lemma ReplayNothing()
    ensures Replay([]) == None
  {
  }

  lemma RefreshesNone(c: Credential)
    ensures Refreshes(c, []) == c
  {
  }

  lemma RefreshesMore(c: Credential, commits: seq<Commit>, last: Commit)
    requires last.Refreshed?
    ensures Refreshes(c, commits + [last]) == ApplyTokenPayload(Refreshes(c, commits), last.payload)
  {
  }

  lemma EarnedLast(log: seq<Commit>)
    requires Earned(log) && log != [] && log[|log| - 1].Refreshed?
    ensures Replay(log[..|log| - 1]).Some? && Replay(log[..|log| - 1]).value.refresh != ""
  {
  }

  /** The same over runs: whatever overlaps a committed sign-out, the file holds no token until a later sign-in. */
  lemma LogoutStaysInRuns(file: Option<Credential>, n: nat, actions: seq<Action>, i: nat)
    requires var s := Run(Initial(file, n), actions);
      i < |s.log| && s.log[i].SignedOut? && forall j | i < j < |s.log| :: !s.log[j].SignedIn?
    ensures SignedOutOnly(Run(Initial(file, n), actions).file)
  {
    hide Replay, Run, Earned, Presented, Printed;
    SessionsAreSerial(file, n, actions);
    LogoutStays(Run(Initial(file, n), actions).log, i);
  }

  // ------------------------------------------------------------------------
  // Grants and rotation

  /** The commit itself states the plan scope. */
  predicate Grants(c: Commit) {
    match c
    case SignedIn(credential) => PLAN in credential.scopes
    case Refreshed(payload) => payload.scope.Some? && PLAN in payload.scope.value
    case SignedOut(_) => false
  }

  /** An access token is handed out only while the latest commit states the grant: an answer without a
      scope takes it away, whatever was granted before. */
  lemma OnlyProvenGrants(file: Option<Credential>, n: nat, actions: seq<Action>, i: nat)
    requires i < |Run(Initial(file, n), actions).printed|
    ensures var s := Run(Initial(file, n), actions);
      var h := s.printed[i];
      0 < h.at <= |s.log| && Grants(s.log[h.at - 1])
  {
    hide Run;
    SessionsAreSerial(file, n, actions);
    var s := Run(Initial(file, n), actions);
    var at := s.printed[i].at;
    assert Replay(s.log[..at]).Some? && PLAN in Replay(s.log[..at]).value.scopes;
    assert s.log[..at] != [] by { ReplayNothing(); }
    assert s.log[..at] == s.log[..at - 1] + [s.log[at - 1]];
    ReplayMore(s.log[..at - 1], s.log[at - 1]);
  }

  /** After a refresh that rotated the refresh token, only the new one is presented. */
  lemma RotationHolds(file: Option<Credential>, n: nat, actions: seq<Action>, i: nat, k: nat)
    requires var s := Run(Initial(file, n), actions);
      && i < |s.presented| && k < s.presented[i].at <= |s.log|
      && s.log[k].Refreshed? && s.log[k].payload.refresh != ""
      && forall j | k < j < s.presented[i].at :: s.log[j].Refreshed? && s.log[j].payload.refresh == ""
    ensures var s := Run(Initial(file, n), actions); s.presented[i].token == s.log[k].payload.refresh
  {
    hide Run;
    SessionsAreSerial(file, n, actions);
    var s := Run(Initial(file, n), actions);
    RefreshKept(s.log[..s.presented[i].at], k);
  }

  lemma {:induction false} RefreshKept(log: seq<Commit>, k: nat)
    requires k < |log| && log[k].Refreshed? && log[k].payload.refresh != ""
    requires Replay(log).Some? && forall j | k < j < |log| :: log[j].Refreshed? && log[j].payload.refresh == ""
    ensures Replay(log).value.refresh == log[k].payload.refresh
    decreases |log|
  {
    var front, last := log[..|log| - 1], log[|log| - 1];
    assert log == front + [last];
    ReplayMore(front, last);
    if k < |front| {
      RefreshKept(front, k);
    }
  }

  // ------------------------------------------------------------------------
  // What the refreshes leave

  function Refreshings(payloads: seq<Payload>): seq<Commit> {
    seq(|payloads|, i requires 0 <= i < |payloads| => Refreshed(payloads[i]))
  }

  /** The last refresh decides the access token, its end and its scopes; the refresh token and the account are the last
      ones that a refresh named, and the client stays. */
  lemma {:induction false} RefreshedFields(c: Credential, payloads: seq<Payload>)
    ensures var r := Refreshes(c, Refreshings(payloads));
      && r.clientId == c.clientId && r.refresh == Newest(c.refresh, payloads)
      && r.account == NewestAccount(c.account, payloads)
      && (payloads == [] ==> r == c)
      && (payloads != [] ==>
          var last := payloads[|payloads| - 1];
          && r.access == last.access && r.expiresAt == last.expiresAt
          && forall x :: x in r.scopes <==> last.scope.Some? && x in last.scope.value)
  {
    hide Newest, NewestAccount, Refreshes;
    if payloads == [] {
      RefreshesNone(c);
      NewestNone(c);
    } else {
      var front, last := payloads[..|payloads| - 1], payloads[|payloads| - 1];
      RefreshedFields(c, front);
      assert Refreshings(payloads) == Refreshings(front) + [Refreshed(last)];
      RefreshesMore(c, Refreshings(front), Refreshed(last));
      NewestMore(c, front, last);
      assert payloads == front + [last];
    }
  }

  /** The last of the refresh tokens that is not empty. */
  function Newest(first: string, payloads: seq<Payload>): string {
    if payloads == [] then first
    else if payloads[|payloads| - 1].refresh != "" then payloads[|payloads| - 1].refresh
    else Newest(first, payloads[..|payloads| - 1])
  }

  function NewestAccount(first: string, payloads: seq<Payload>): string {
    if payloads == [] then first
    else if payloads[|payloads| - 1].account.Some? then payloads[|payloads| - 1].account.value
    else NewestAccount(first, payloads[..|payloads| - 1])
  }

  lemma NewestNone(c: Credential)
    ensures Newest(c.refresh, []) == c.refresh && NewestAccount(c.account, []) == c.account
  {
  }

  lemma NewestMore(c: Credential, front: seq<Payload>, last: Payload)
    ensures Newest(c.refresh, front + [last]) == (if last.refresh != "" then last.refresh else Newest(c.refresh, front))
    ensures NewestAccount(c.account, front + [last])
         == if last.account.Some? then last.account.value else NewestAccount(c.account, front)
  {
    assert (front + [last])[..|front|] == front;
  }

  // ------------------------------------------------------------------------
  // A command that meets a free lock

  predicate Free(s: State, p: nat) {
    p < |s.processes| && s.processes[p].Idle? && s.lock.None?
  }

  /** The process has come as far as its command does before it has read or written the file. */
  function Entered(s: State, p: nat, command: Command): State {
    Next(Next(s, Begin(p, command)), Acquire(p))
  }

  /** A login stores its credential and gives the lock back. */
  lemma LoginStores(s: State, p: nat, c: Credential)
    requires Free(s, p)
    ensures var r := Next(Next(Entered(s, p, Login(c)), Save(p)), Release(p));
      && r.file == Some(c) && r.log == s.log + [SignedIn(c)] && Free(r, p)
      && r.printed == s.printed && r.presented == s.presented
  {
  }

  /** A logout takes the tokens away, or the whole file; without a file it commits nothing. */
  lemma LogoutClears(s: State, p: nat, purge: bool, now: int)
    requires Free(s, p)
    ensures var r := Next(Next(Next(Entered(s, p, Logout(purge)), Load(p)), Proceed(p, now)), Release(p));
      && Free(r, p) && r.printed == s.printed && r.presented == s.presented
      && (s.file.None? ==> r.file == None && r.log == s.log)
      && (s.file.Some? ==> r.log == s.log + [SignedOut(purge)])
      && (s.file.Some? && purge ==> r.file == None)
      && (s.file.Some? && !purge ==>
          r.file.Some? && SignedOutOnly(r.file) && r.file.value.clientId == s.file.value.clientId
          && r.file.value.account == s.file.value.account)
  {
  }

  /** A stored access token that is not about to end is handed out exactly when it has the plan scope. */
  lemma TokenIsHandedOut(s: State, p: nat, now: int)
    requires Free(s, p) && s.file.Some? && s.file.value.access != "" && s.file.value.expiresAt - 60 > now
    ensures var r := Next(Next(Next(Entered(s, p, Token), Load(p)), Proceed(p, now)), Release(p));
      && r.file == s.file && r.log == s.log && r.presented == s.presented && Free(r, p)
      && r.printed == s.printed + if PLAN in s.file.value.scopes
                                  then [Handed(s.file.value.access, |s.log|, Some(now))] else []
  {
  }

  /** The command presents the stored refresh token and waits for the answer. */
  function Asking(s: State, p: nat, command: Command, now: int): State {
    Next(Next(Entered(s, p, command), Load(p)), Proceed(p, now))
  }

  lemma AskingIs(s: State, p: nat, token: bool, now: int)
    requires Free(s, p) && s.file.Some? && s.file.value.refresh != ""
    requires token ==> s.file.value.access != "" && s.file.value.expiresAt - 60 <= now
    ensures var (c, command) := (s.file.value, if token then Token else Refresh);
      var q := Asking(s, p, command, now);
      && p < |q.processes| && q.processes[p] == Sent(command, c) && q.lock == Some(p)
      && q.file == s.file && q.log == s.log && q.printed == s.printed
      && q.presented == s.presented + [Shown(c.refresh, |s.log|)]
  {
  }

  /** A refresh, or a token that is about to end, presents the stored refresh token once. A usable answer is stored, and
      the token that was asked for is handed out exactly when the answer states the plan scope. */
  lemma AnswerIsStored(s: State, p: nat, token: bool, now: int, payload: Payload)
    requires Free(s, p) && s.file.Some? && s.file.value.refresh != "" && payload.access != ""
    requires token ==> s.file.value.access != "" && s.file.value.expiresAt - 60 <= now
    ensures var c := s.file.value;
      var answered := Next(Asking(s, p, if token then Token else Refresh, now), Answer(p, Some(payload)));
      var r := Next(Next(Next(answered, Save(p)), Print(p)), Release(p));
      && Free(r, p) && r.log == s.log + [Refreshed(payload)]
      && r.presented == s.presented + [Shown(c.refresh, |s.log|)]
      && r.file.Some? && r.file.value.access == payload.access && r.file.value.clientId == c.clientId
      && r.file.value.refresh == (if payload.refresh != "" then payload.refresh else c.refresh)
      && r.printed == s.printed + if token && payload.scope.Some? && PLAN in payload.scope.value
                                  then [Handed(payload.access, |s.log| + 1, None)] else []
  {
    hide Asking;
    AskingIs(s, p, token, now);
  }

  /** Without a usable answer nothing is stored or handed out, though the refresh token has been shown. */
  lemma NoAnswerStoresNothing(s: State, p: nat, now: int, payload: Option<Payload>)
    requires Free(s, p) && s.file.Some? && s.file.value.refresh != ""
    requires payload.Some? ==> payload.value.access == ""
    ensures var answered := Next(Asking(s, p, Refresh, now), Answer(p, payload));
      var r := Next(Next(Next(answered, Save(p)), Print(p)), Release(p));
      && Free(r, p) && r.file == s.file && r.log == s.log && r.printed == s.printed
      && r.presented == s.presented + [Shown(s.file.value.refresh, |s.log|)]
  {
    hide Asking;
    AskingIs(s, p, false, now);
  }
}
