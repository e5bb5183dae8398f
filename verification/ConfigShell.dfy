// The layered configuration of one long-lived shell: what a load does to the
// variables, and a reference that explains every variable by its own history.

module ConfigShell {
  import opened Common
  import opened Settings

  type Vars = map<string, string>

  /** The bookkeeping of a shell: variables, the values captured before any file,
      the keys the last load defined and the values it left there. */
  datatype Shell = Shell(env: Vars, captured: bool, base: Vars, owned: set<string>, stamps: Vars)

  /** What a load finds on disk: the default configuration directory, the settings file of each directory that
      has one, and the project files of the Git root and of the working directory. */
  datatype Disk = Disk(home: string, dirs: map<string, string>, root: Option<string>, cwd: Option<string>)

  /** The three files of a load; None for a file that is not there. */
  datatype Files = Files(settings: Option<string>, root: Option<string>, cwd: Option<string>)

  const GATE: string := "LMLINE_PROJECT_CONFIG"

  /** Names the directory of the settings file; any loaded file may define it. */
  const DIR: string := "LMLINE_CONFIG_DIR"

  function Look(m: Vars, k: string): Option<string> {
    if k in m then Some(m[k]) else None
  }

  /** How a missing variable compares. */
  function Vis(v: Option<string>): string {
    if v.Some? then v.value else ""
  }

  predicate Open(v: Option<string>) {
    v == Some("1")
  }

  function Defs(file: Option<string>): Vars {
    LoadFile(file)
  }

  /** The files of a load that finds `dir` in the directory variable; an empty value counts as none. */
  function FilesAt(d: Disk, dir: Option<string>): Files {
    var place := if Vis(dir) == "" then d.home else Vis(dir);
    Files(if place in d.dirs then Some(d.dirs[place]) else None, d.root, d.cwd)
  }

  function Capture(sh: Shell): Shell {
    if sh.captured then sh else sh.(captured := true, base := sh.env)
  }

  predicate Restores(env: Vars, stamps: Vars, dropped: set<string>, k: string) {
    k in dropped && Vis(Look(env, k)) == Vis(Look(stamps, k))
  }

  /** The dropped keys that still hold their stamp go back to the baseline. */
  function Restored(env: Vars, base: Vars, stamps: Vars, dropped: set<string>): (r: Vars)
    ensures forall k {:trigger Look(r, k)} ::
      Look(r, k) == if Restores(env, stamps, dropped, k) then Look(base, k) else Look(env, k)
  {
    map k | k in env.Keys + base.Keys && (if Restores(env, stamps, dropped, k) then k in base else k in env)
          :: if Restores(env, stamps, dropped, k) then base[k] else env[k]
  }

  function Reconciled(sh: Shell, keys: set<string>): Shell {
    sh.(env := Restored(sh.env, sh.base, sh.stamps, sh.owned - keys), owned := keys,
        stamps := map k | k in keys :: Vis(Look(sh.env, k)))
  }

  /** The shell after the settings file, where the gate is read. */
  function SettingsLoaded(sh: Shell, f: Files): Shell {
    var s := Capture(sh);
    Reconciled(s.(env := s.env + Defs(f.settings)), Defs(f.settings).Keys)
  }

  function LoadAll(sh: Shell, f: Files): Shell {
    var s := SettingsLoaded(sh, f);
    if Open(Look(s.env, GATE)) then
      Reconciled(s.(env := s.env + Defs(f.root) + Defs(f.cwd)),
                 Defs(f.settings).Keys + Defs(f.root).Keys + Defs(f.cwd).Keys)
    else s
  }

  /** One load: the directory variable as it stands decides which settings file is read. */
  function LoadDisk(sh: Shell, d: Disk): Shell {
    LoadAll(sh, FilesAt(d, Look(sh.env, DIR)))
  }

  function UserWrite(sh: Shell, k: string, v: Option<string>): Shell {
    sh.(env := if v.Some? then sh.env[k := v.value] else sh.env - {k})
  }

  datatype Event = Loaded(d: Disk) | Wrote(k: string, v: Option<string>)

  function Apply(sh: Shell, e: Event): Shell {
    match e
    case Loaded(d) => LoadDisk(sh, d)
    case Wrote(k, v) => UserWrite(sh, k, v)
  }

  /** A shell from its start; the baseline is captured by the first load. */
  function Session(env: Vars, es: seq<Event>): Shell {
    if es == [] then Shell(env, false, map[], {}, map[])
    else Apply(Session(env, es[..|es| - 1]), es[|es| - 1])
  }

  /** The variables after writes alone. */
  function Written(env: Vars, ws: seq<Event>): Vars {
    Session(env, ws).env
  }

  /** A shell from the moment its baseline is captured. */
  function Run(env: Vars, es: seq<Event>): Shell {
    if es == [] then Shell(env, true, env, {}, map[])
    else
      Apply(Run(env, es[..|es| - 1]), es[|es| - 1])
  }

  // ------------------------------------------------------------------------
  // The reference: one key, its history, no key lists and no stamps

  /** A load that defines the key, a load that does not, a write of the user. */
  datatype Mark = Defined(v: string) | Undefined | Own(w: Option<string>)

  /** What the last load made of the key. */
  function LastLoad(h: seq<Mark>): Mark {
    if h == [] then Undefined
    else if h[|h| - 1].Own? then LastLoad(h[..|h| - 1])
    else h[|h| - 1]
  }

  function Expected(h: seq<Mark>, base: Option<string>): Option<string> {
    if h == [] then base
    else
      var (p, m) := (h[..|h| - 1], h[|h| - 1]);
      match m
      case Own(w) => w
      case Defined(v) => Some(v)
      case Undefined =>
        if LastLoad(p).Defined? && Vis(Expected(p, base)) == LastLoad(p).v then base else Expected(p, base)
  }

  function MarkOf(defs: Vars, k: string): Mark {
    if k in defs then Defined(defs[k]) else Undefined
  }

  /** What a load defines when its project files are read or not. */
  function Effective(f: Files, open: bool): Vars {
    if open then Defs(f.settings) + Defs(f.root) + Defs(f.cwd) else Defs(f.settings)
  }

  /** The directory variable after a run. */
  function Directory(env: Vars, es: seq<Event>): Option<string>
    decreases |es|, 1
  {
    Expected(History(env, es, DIR), Look(env, DIR))
  }

  /** The files that a load after the run reads. */
  function Chosen(env: Vars, es: seq<Event>, d: Disk): Files
    decreases |es|, 2
  {
    FilesAt(d, Directory(env, es))
  }

  /** Whether a load after the run would read project files. */
  predicate Consent(env: Vars, es: seq<Event>, d: Disk)
    decreases |es|, 3
  {
    Open(Expected(History(env, es, GATE) + [MarkOf(Defs(Chosen(env, es, d).settings), GATE)], Look(env, GATE)))
  }

  /** What a load after the run defines. */
  function Assigned(env: Vars, es: seq<Event>, d: Disk): Vars
    decreases |es|, 4
  {
    Effective(Chosen(env, es, d), Consent(env, es, d))
  }

  function History(env: Vars, es: seq<Event>, k: string): seq<Mark>
    decreases |es|, 0
  {
    if es == [] then []
    else
      var p := es[..|es| - 1];
      match es[|es| - 1]
      case Loaded(d) => History(env, p, k) + [MarkOf(Assigned(env, p, d), k)]
      case Wrote(k', v) => if k' == k then History(env, p, k) + [Own(v)] else History(env, p, k)
  }

  /** The machine's view of one key agrees with its history. */
  predicate Explained(sh: Shell, k: string, h: seq<Mark>, base: Option<string>) {
    && sh.captured && Look(sh.base, k) == base
    && Look(sh.env, k) == Expected(h, base)
    && (k in sh.owned <==> LastLoad(h).Defined?)
    && (k in sh.owned ==> Vis(Look(sh.stamps, k)) == LastLoad(h).v)
  }

  lemma SnocMark(h: seq<Mark>, m: Mark, base: Option<string>)
    ensures (h + [m])[..|h|] == h && LastLoad(h + [m]) == if m.Own? then LastLoad(h) else m
  {
  }

  /** One reconciliation after sourcing `defs` on top, seen at one key. */
  lemma ReconcileAtKey(sh: Shell, defs: Vars, k: string, h: seq<Mark>, base: Option<string>)
    requires Explained(sh, k, h, base)
    ensures Explained(Reconciled(sh.(env := sh.env + defs), defs.Keys), k, h + [MarkOf(defs, k)], base)
  {
  }

  /** The second reconciliation of a load changes a key only through the project files. */
  lemma ProjectAtKey(sh: Shell, first: Vars, more: Vars, k: string, h: seq<Mark>, base: Option<string>)
    requires Explained(sh, k, h + [MarkOf(first, k)], base) && sh.owned == first.Keys
    requires k !in first ==> Look(sh.env, k) == Expected(h + [Undefined], base)
    ensures Explained(
        Reconciled(sh.(env := sh.env + more), first.Keys + more.Keys), k, h + [MarkOf(first + more, k)], base)
  {
  }

  lemma LoadAtKey(sh: Shell, f: Files, open: bool, k: string, h: seq<Mark>, base: Option<string>)
    requires Explained(sh, k, h, base) && open == Open(Look(SettingsLoaded(sh, f).env, GATE))
    ensures Explained(LoadAll(sh, f), k, h + [MarkOf(Effective(f, open), k)], base)
  {
    hide Explained, Restored, LoadAll, Effective, Reconciled, SettingsLoaded;
    var s, first, more := SettingsLoaded(sh, f), Defs(f.settings), Defs(f.root) + Defs(f.cwd);
    LoadTogether(sh, f);
    SettingsAtKey(sh, f, k, h, base);
    if open {
      ProjectAtKey(s, first, more, k, h, base);
    }
  }

  /** The two project files act as one. */
  lemma LoadTogether(sh: Shell, f: Files)
    ensures var (s, first, more) := (SettingsLoaded(sh, f), Defs(f.settings), Defs(f.root) + Defs(f.cwd));
      && Effective(f, true) == first + more && Effective(f, false) == first
      && LoadAll(sh, f) == if Open(Look(s.env, GATE))
                           then Reconciled(s.(env := s.env + more), first.Keys + more.Keys) else s
  {
    hide Reconciled, SettingsLoaded;
    var s, first, more := SettingsLoaded(sh, f), Defs(f.settings), Defs(f.root) + Defs(f.cwd);
    assert s.env + more == s.env + Defs(f.root) + Defs(f.cwd);
    assert first.Keys + more.Keys == first.Keys + Defs(f.root).Keys + Defs(f.cwd).Keys;
  }

  lemma SettingsAtKey(sh: Shell, f: Files, k: string, h: seq<Mark>, base: Option<string>)
    requires Explained(sh, k, h, base)
    ensures var (s, first) := (SettingsLoaded(sh, f), Defs(f.settings));
      && Explained(s, k, h + [MarkOf(first, k)], base) && s.owned == first.Keys
      && (k !in first ==> Look(s.env, k) == Expected(h + [Undefined], base))
  {
  }

  /** Over any sequence of loads and user writes, every variable has the value its history explains. */
  lemma {:induction false} ReloadIsExplained(env: Vars, es: seq<Event>, k: string)
    ensures Explained(Run(env, es), k, History(env, es, k), Look(env, k))
    decreases |es|, 0
  {
    hide LoadAll, UserWrite, SettingsLoaded, Expected, LastLoad, MarkOf, Effective, Consent, Chosen, FilesAt;
    if es == [] {
      StartsExplained(env, k);
    } else {
      var p := es[..|es| - 1];
      var sh, h := Run(env, p), History(env, p, k);
      ReloadIsExplained(env, p, k);
      match es[|es| - 1]
      case Loaded(d) =>
        LoadIsChosen(env, p, d);
        GateIsExplained(env, p, d);
        LoadAtKey(sh, Chosen(env, p, d), Consent(env, p, d), k, h, Look(env, k));
      case Wrote(k', v) =>
        WriteAtKey(sh, k', v, k, h, Look(env, k));
    }
  }

  /** Which settings file a load reads, and whether it reads the project files, is what the history says. */
  lemma {:induction false} LoadIsChosen(env: Vars, es: seq<Event>, d: Disk)
    ensures LoadDisk(Run(env, es), d) == LoadAll(Run(env, es), Chosen(env, es, d))
    decreases |es|, 1
  {
    hide LoadAll;
    ReloadIsExplained(env, es, DIR);
  }

  lemma StartsExplained(env: Vars, k: string)
    ensures Explained(Shell(env, true, env, {}, map[]), k, [], Look(env, k))
  {
  }

  lemma WriteAtKey(sh: Shell, k': string, v: Option<string>, k: string, h: seq<Mark>, base: Option<string>)
    requires Explained(sh, k, h, base)
    ensures Explained(UserWrite(sh, k', v), k, if k' == k then h + [Own(v)] else h, base)
  {
    SnocMark(h, Own(v), base);
  }

  lemma {:induction false} GateIsExplained(env: Vars, es: seq<Event>, d: Disk)
    ensures Open(Look(SettingsLoaded(Run(env, es), Chosen(env, es, d)).env, GATE)) == Consent(env, es, d)
    decreases |es|, 1
  {
    hide Chosen;
    var settings := Chosen(env, es, d).settings;
    ReloadIsExplained(env, es, GATE);
    ReconcileAtKey(Run(env, es), Defs(settings), GATE, History(env, es, GATE), Look(env, GATE));
  }

  // ------------------------------------------------------------------------
  // What the history says

  /** The user's last write that no load has overruled: not set by a file since, and
      not found equal to the stamp when a load stopped defining the key. */
  function Standing(h: seq<Mark>): Option<Option<string>> {
    if h == [] then None
    else
      var (p, m) := (h[..|h| - 1], h[|h| - 1]);
      match m
      case Own(w) => Some(w)
      case Defined(v) => None
      case Undefined =>
        if LastLoad(p).Defined? && Standing(p).Some? && Vis(Standing(p).value) == LastLoad(p).v then None
        else Standing(p)
  }

  /** A key the last load defines has the file value, any other its baseline, unless
      a write of the user stands. */
  lemma {:induction false} ExpectedIs(h: seq<Mark>, base: Option<string>)
    ensures Expected(h, base) ==
      if Standing(h).Some? then Standing(h).value
      else if LastLoad(h).Defined? then Some(LastLoad(h).v)
      else base
  {
    if h != [] { ExpectedIs(h[..|h| - 1], base); }
  }

  predicate NoWrites(es: seq<Event>, k: string) {
    forall i | 0 <= i < |es| :: !(es[i].Wrote? && es[i].k == k)
  }

  lemma {:induction false} NothingStands(env: Vars, es: seq<Event>, k: string)
    requires NoWrites(es, k)
    ensures Standing(History(env, es, k)).None?
  {
    hide Assigned, MarkOf;
    if es != [] {
      var p := es[..|es| - 1];
      NothingStands(env, p, k);
      if es[|es| - 1].Loaded? {
        var h, m := History(env, p, k), MarkOf(Assigned(env, p, es[|es| - 1].d), k);
        MarkIsLoad(Assigned(env, p, es[|es| - 1].d), k);
        assert (h + [m])[..|h|] == h;
      }
    }
  }

  lemma MarkIsLoad(defs: Vars, k: string)
    ensures !MarkOf(defs, k).Own?
  {
  }

  // ------------------------------------------------------------------------
  // From the start of the shell

  lemma {:induction false} WritesStayUncaptured(env: Vars, ws: seq<Event>)
    requires forall i | 0 <= i < |ws| :: ws[i].Wrote?
    ensures Session(env, ws) == Shell(Written(env, ws), false, map[], {}, map[])
  {
    if ws != [] {
      WritesStayUncaptured(env, ws[..|ws| - 1]);
    }
  }

  /** A shell behaves from its first load on as if it had started with the variables that the user's writes before
      that load left: they are part of the baseline. */
  lemma {:induction false} SessionIsRun(env: Vars, ws: seq<Event>, es: seq<Event>)
    requires (forall i | 0 <= i < |ws| :: ws[i].Wrote?) && es != [] && es[0].Loaded?
    ensures Session(env, ws + es) == Run(Written(env, ws), es)
    decreases |es|
  {
    hide LoadAll, UserWrite;
    var n := |es| - 1;
    assert (ws + es)[..|ws + es| - 1] == ws + es[..n];
    if n == 0 {
      assert ws + es[..0] == ws && es[..0] == [];
      WritesStayUncaptured(env, ws);
      CaptureFirst(Session(env, ws), es[0].d);
    } else {
      SessionIsRun(env, ws, es[..n]);
    }
  }

  lemma CaptureFirst(sh: Shell, d: Disk)
    ensures LoadDisk(sh, d) == LoadDisk(Capture(sh), d)
  {
    hide Reconciled, FilesAt;
  }

  /** So every variable of a session has the value that its history since the first load explains, over the baseline
      that the writes before it made. */
  lemma SessionIsExplained(env: Vars, ws: seq<Event>, es: seq<Event>, k: string)
    requires (forall i | 0 <= i < |ws| :: ws[i].Wrote?) && es != [] && es[0].Loaded?
    ensures var start := Written(env, ws);
      Explained(Session(env, ws + es), k, History(start, es, k), Look(start, k))
  {
    SessionIsRun(env, ws, es);
    ReloadIsExplained(Written(env, ws), es, k);
  }
}
