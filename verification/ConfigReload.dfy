// What reloading promises: when a load forgets the loads before it, and when
// project files have a say in whether project files are read.

module ConfigReload {
  import opened Common
  import opened Settings
  import opened ConfigShell

  // ------------------------------------------------------------------------
  // One load

  predicate Opens(env: Vars, f: Files) {
    Open(if GATE in Defs(f.settings) then Look(Defs(f.settings), GATE) else Look(env, GATE))
  }

  /** Without a write to the gate, consent follows from the settings file that the load reads and the baseline. */
  lemma ConsentIs(env: Vars, es: seq<Event>, d: Disk)
    requires NoWrites(es, GATE)
    ensures Consent(env, es, d) == Opens(env, Chosen(env, es, d))
  {
    hide Chosen;
    var h, m := History(env, es, GATE), MarkOf(Defs(Chosen(env, es, d).settings), GATE);
    NothingStands(env, es, GATE);
    assert (h + [m])[..|h|] == h;
    ExpectedIs(h + [m], Look(env, GATE));
  }

  /** Of the files that a load reads the nearest one wins: that of the working directory, that of the Git root, the
      settings file. */
  lemma NearestFileWins(sh: Shell, f: Files, k: string)
    requires Open(Look(SettingsLoaded(sh, f).env, GATE))
    ensures var v := Look(LoadAll(sh, f).env, k);
      && (k in Defs(f.cwd) ==> v == Look(Defs(f.cwd), k))
      && (k !in Defs(f.cwd) && k in Defs(f.root) ==> v == Look(Defs(f.root), k))
      && (k !in Defs(f.cwd) && k !in Defs(f.root) && k in Defs(f.settings) ==> v == Look(Defs(f.settings), k))
  {
    hide Defs;
    SettingsFirst(sh, f, k);
  }

  lemma SettingsFirst(sh: Shell, f: Files, k: string)
    ensures k in Defs(f.settings) ==> Look(SettingsLoaded(sh, f).env, k) == Look(Defs(f.settings), k)
  {
    hide Defs;
  }

  /** Without a write to `k`, its value after a load is what the files of this load define, or the baseline. */
  lemma LoadedValue(env: Vars, es: seq<Event>, d: Disk, k: string)
    requires NoWrites(es, k)
    ensures var defs := Assigned(env, es, d);
      Look(Run(env, es + [Loaded(d)]).env, k) == if k in defs then Look(defs, k) else Look(env, k)
  {
    hide Assigned, LoadDisk;
    var h, m := History(env, es, k), MarkOf(Assigned(env, es, d), k);
    HistoryMore(env, es, d, k);
    ReloadIsExplained(env, es + [Loaded(d)], k);
    NothingStands(env, es, k);
    assert (h + [m])[..|h|] == h;
    ExpectedIs(h + [m], Look(env, k));
  }

  lemma HistoryMore(env: Vars, es: seq<Event>, d: Disk, k: string)
    ensures History(env, es + [Loaded(d)], k) == History(env, es, k) + [MarkOf(Assigned(env, es, d), k)]
  {
    hide Assigned;
    assert (es + [Loaded(d)])[..|es|] == es;
  }

  /** The directory variable without a write to it: the last load's value, or the baseline. */
  lemma DirectoryIs(env: Vars, es: seq<Event>)
    requires NoWrites(es, DIR)
    ensures var last := LastLoad(History(env, es, DIR));
      Directory(env, es) == if last.Defined? then Some(last.v) else Look(env, DIR)
  {
    NothingStands(env, es, DIR);
    ExpectedIs(History(env, es, DIR), Look(env, DIR));
  }

  // ------------------------------------------------------------------------
  // Disks that tell two directories apart

  function Place(d: Disk, dir: Option<string>): string {
    if Vis(dir) == "" then d.home else Vis(dir)
  }

  function OneSetting(key: string, value: string): string {
    Assignment(key, value) + "\n"
  }

  lemma GateLoads(value: string)
    requires OneLine(value)
    ensures Defs(Some(OneSetting(GATE, value))) == map[GATE := value]
  {
    assert GATE[..7] == "LMLINE_";
    AssignmentLoads(GATE, value);
  }

  lemma DirLoads(value: string)
    requires OneLine(value)
    ensures Defs(Some(OneSetting(DIR, value))) == map[DIR := value]
  {
    assert DIR[..7] == "LMLINE_";
    AssignmentLoads(DIR, value);
  }

  /** A disk on which the directory `a` opens the gate and the directory `b` closes it. */
  function Telling(a: Option<string>, b: Option<string>, x: string, y: string): Disk {
    var home := if Vis(a) == "" then Vis(b) + "x" else Vis(a) + "x";
    var bare := Disk(home, map[], None, None);
    bare.(dirs := map[Place(bare, a) := OneSetting(GATE, x), Place(bare, b) := OneSetting(GATE, y)])
  }

  lemma TellsApart(a: Option<string>, b: Option<string>, x: string, y: string)
    requires Vis(a) != Vis(b) && OneLine(x) && OneLine(y)
    ensures var d := Telling(a, b, x, y);
      && Defs(FilesAt(d, a).settings) == map[GATE := x] && Defs(FilesAt(d, b).settings) == map[GATE := y]
      && FilesAt(d, a).root.None? && FilesAt(d, a).cwd.None?
  {
    hide Defs, OneSetting;
    GateLoads(x);
    GateLoads(y);
    var d := Telling(a, b, x, y);
    assert Place(d, a) != Place(d, b) by {
      assert |d.home| > |Vis(a)| || |d.home| > |Vis(b)|;
      if Vis(a) == "" {
        assert |d.home| > |Vis(b)|;
      } else if Vis(b) == "" {
        assert |d.home| > |Vis(a)|;
      }
    }
  }

  // ------------------------------------------------------------------------
  // Reload forgets

  /** After the run the load gives `k` the value that it would give in a fresh shell. */
  predicate Forgets(env: Vars, es: seq<Event>, d: Disk, k: string) {
    Look(Run(env, es + [Loaded(d)]).env, k) == Look(Run(env, [Loaded(d)]).env, k)
  }

  lemma SameFilesForget(env: Vars, es: seq<Event>, d: Disk, k: string)
    requires NoWrites(es, GATE) && NoWrites(es, k) && Vis(Directory(env, es)) == Vis(Look(env, DIR))
    ensures Forgets(env, es, d, k)
  {
    hide Run, Defs, Opens;
    ConsentIs(env, es, d);
    ConsentIs(env, [], d);
    LoadedValue(env, es, d, k);
    LoadedValue(env, [], d, k);
    assert [] + [Loaded(d)] == [Loaded(d)];
  }

  /** A load gives every variable that the user left alone the value of a fresh load, whatever disk it finds,
      exactly when the directory variable still names the directory of the start. */
  lemma ReloadIsHistoryIndependent(env: Vars, es: seq<Event>)
    requires NoWrites(es, GATE)
    ensures (forall d, k | NoWrites(es, k) :: Forgets(env, es, d, k))
       <==> Vis(Directory(env, es)) == Vis(Look(env, DIR))
  {
    hide Forgets, Directory;
    if Vis(Directory(env, es)) == Vis(Look(env, DIR)) {
      forall d, k | NoWrites(es, k)
        ensures Forgets(env, es, d, k)
      {
        SameFilesForget(env, es, d, k);
      }
    } else {
      var d := Telling(Directory(env, es), Look(env, DIR), "0", "2");
      RedirectedRemembers(env, es);
      assert !Forgets(env, es, d, GATE);
    }
  }

  lemma RedirectedRemembers(env: Vars, es: seq<Event>)
    requires NoWrites(es, GATE) && Vis(Directory(env, es)) != Vis(Look(env, DIR))
    ensures !Forgets(env, es, Telling(Directory(env, es), Look(env, DIR), "0", "2"), GATE)
  {
    hide Run, Defs, Directory, Telling;
    var dir := Directory(env, es);
    var d := Telling(dir, Look(env, DIR), "0", "2");
    TellsApart(dir, Look(env, DIR), "0", "2");
    ConsentIs(env, es, d);
    StartDirectory(env);
    ConsentIs(env, [], d);
    LoadedValue(env, es, d, GATE);
    LoadedValue(env, [], d, GATE);
    assert [] + [Loaded(d)] == [Loaded(d)];
  }

  lemma StartDirectory(env: Vars)
    ensures Directory(env, []) == Look(env, DIR)
  {
  }

  /** Some file on the disk defines the directory variable. */
  ghost predicate Redirects(d: Disk) {
    DIR in Defs(d.root) || DIR in Defs(d.cwd) || exists p | p in d.dirs :: DIR in LoadText(d.dirs[p])
  }

  /** The directory stays when neither a loaded disk nor the user says otherwise. */
  lemma {:induction false} DirectoryStays(env: Vars, es: seq<Event>)
    requires NoWrites(es, DIR) && forall i | 0 <= i < |es| && es[i].Loaded? :: !Redirects(es[i].d)
    ensures Directory(env, es) == Look(env, DIR)
  {
    hide Assigned;
    DirectoryIs(env, es);
    NeverDefined(env, es);
  }

  lemma {:induction false} NeverDefined(env: Vars, es: seq<Event>)
    requires forall i | 0 <= i < |es| && es[i].Loaded? :: !Redirects(es[i].d)
    ensures !LastLoad(History(env, es, DIR)).Defined?
  {
    hide Assigned;
    if es != [] {
      var p, e := es[..|es| - 1], es[|es| - 1];
      NeverDefined(env, p);
      if e.Loaded? {
        assert DIR !in Assigned(env, p, e.d) by { NotAssigned(env, p, e.d); }
        SnocMark(History(env, p, DIR), MarkOf(Assigned(env, p, e.d), DIR), None);
      } else if e.k == DIR {
        SnocMark(History(env, p, DIR), Own(e.v), None);
      }
    }
  }

  lemma NotAssigned(env: Vars, es: seq<Event>, d: Disk)
    requires !Redirects(d)
    ensures DIR !in Assigned(env, es, d)
  {
    hide Directory, Consent;
  }

  /** Two settings files: the one at home names the directory of the other, which is empty. */
  function Alternating(): Disk {
    Disk("/a", map["/a" := OneSetting(DIR, "/b"), "/b" := ""], None, None)
  }

  lemma AlternatingFiles()
    ensures Defs(FilesAt(Alternating(), None).settings) == map[DIR := "/b"]
    ensures Defs(FilesAt(Alternating(), Some("/b")).settings) == map[]
    ensures Alternating().root == Alternating().cwd == None && Defs(None) == map[]
  {
    hide OneSetting, LoadText;
    DirLoads("/b");
    EmptyLoads();
  }

  lemma EmptyLoads()
    ensures LoadText("") == map[]
  {
  }

  /** What a load without project files assigns. */
  lemma AssignedAlone(es: seq<Event>, d: Disk)
    requires d.root == d.cwd == None
    ensures Assigned(map[], es, d) == Defs(FilesAt(d, Directory(map[], es)).settings)
  {
    hide Directory, Consent, Defs, FilesAt;
    NoDefs();
    var settings := Defs(FilesAt(d, Directory(map[], es)).settings);
    NoProjects(d, Directory(map[], es));
    assert settings + map[] + map[] == settings;
  }

  lemma NoProjects(d: Disk, dir: Option<string>)
    ensures FilesAt(d, dir).root == d.root && FilesAt(d, dir).cwd == d.cwd
  {
  }

  lemma NoDefs()
    ensures Defs(None) == map[]
  {
  }

  lemma FirstLoadRedirects(d: Disk)
    requires d == Alternating()
    ensures Directory(map[], [Loaded(d)]) == Some("/b") && Look(Run(map[], [Loaded(d)]).env, DIR) == Some("/b")
  {
    hide Run, Assigned, FilesAt, Alternating, Defs, Directory;
    AlternatingFiles();
    StartDirectory(map[]);
    AssignedAlone([], d);
    LoadedValue(map[], [], d, DIR);
    assert [] + [Loaded(d)] == [Loaded(d)];
    HistoryMore(map[], [], d, DIR);
    HistoryNothing(DIR);
    SnocMark([], Defined("/b"), None);
    DirectoryIs(map[], [Loaded(d)]);
  }

  lemma HistoryNothing(k: string)
    ensures History(map[], [], k) == []
  {
  }

  lemma SecondLoadReturns(d: Disk)
    requires d == Alternating() && Directory(map[], [Loaded(d)]) == Some("/b")
    ensures Look(Run(map[], [Loaded(d), Loaded(d)]).env, DIR) == None
  {
    hide Run, Assigned, FilesAt, Alternating, Defs, Directory;
    AlternatingFiles();
    AssignedAlone([Loaded(d)], d);
    LoadedValue(map[], [Loaded(d)], d, DIR);
    assert [Loaded(d)] + [Loaded(d)] == [Loaded(d), Loaded(d)];
  }

  /** Unchanged files can load differently every time: the settings file names another directory, whose settings
      file does not. */
  lemma ReloadAlternates()
    ensures var d := Disk("/a", map["/a" := OneSetting(DIR, "/b"), "/b" := ""], None, None);
      && Look(Run(map[], [Loaded(d)]).env, DIR) == Some("/b")
      && Look(Run(map[], [Loaded(d), Loaded(d)]).env, DIR) == None
  {
    hide Run, OneSetting, Directory;
    FirstLoadRedirects(Alternating());
    SecondLoadReturns(Alternating());
  }
}
