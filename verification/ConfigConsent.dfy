// When the project files of earlier loads have a say in whether a later load
// reads project files.

module ConfigConsent {
  import opened Common
  import opened Settings
  import opened ConfigShell
  import opened ConfigReload

  /** The run as it would be without any project file. */
  function Silenced(es: seq<Event>): seq<Event> {
    if es == [] then []
    else
      var (front, e) := (Silenced(es[..|es| - 1]), es[|es| - 1]);
      front + [if e.Loaded? then Loaded(e.d.(root := None, cwd := None)) else e]
  }

  lemma {:induction false} SilencedWrites(es: seq<Event>, k: string)
    requires NoWrites(es, k)
    ensures NoWrites(Silenced(es), k)
  {
    if es != [] {
      SilencedWrites(es[..|es| - 1], k);
    }
  }

  /** Without a write to the gate, the project files of a run have no say in the consent of any later load exactly
      when they do not make the directory variable name another directory. */
  lemma ConsentIgnoresProjects(env: Vars, es: seq<Event>)
    requires NoWrites(es, GATE)
    ensures (forall d :: Consent(env, es, d) == Consent(env, Silenced(es), d))
       <==> Vis(Directory(env, es)) == Vis(Directory(env, Silenced(es)))
  {
    hide Consent, Directory, Opens;
    var quiet := Silenced(es);
    SilencedWrites(es, GATE);
    if Vis(Directory(env, es)) == Vis(Directory(env, quiet)) {
      forall d
        ensures Consent(env, es, d) == Consent(env, quiet, d)
      {
        ConsentIs(env, es, d);
        ConsentIs(env, quiet, d);
      }
    } else {
      var d := Telling(Directory(env, es), Directory(env, quiet), "1", "0");
      DirectoryDecides(env, es, quiet);
      assert Consent(env, es, d) != Consent(env, quiet, d);
    }
  }

  lemma DirectoryDecides(env: Vars, es: seq<Event>, quiet: seq<Event>)
    requires NoWrites(es, GATE) && NoWrites(quiet, GATE) && Vis(Directory(env, es)) != Vis(Directory(env, quiet))
    ensures var d := Telling(Directory(env, es), Directory(env, quiet), "1", "0");
      Consent(env, es, d) && !Consent(env, quiet, d)
  {
    hide Consent, Directory, Defs, Telling;
    var d := Telling(Directory(env, es), Directory(env, quiet), "1", "0");
    TellsApart(Directory(env, es), Directory(env, quiet), "1", "0");
    ConsentIs(env, es, d);
    ConsentIs(env, quiet, d);
  }

  /** No project file that the run finds defines the directory variable. */
  predicate KeepDirectory(es: seq<Event>) {
    forall i | 0 <= i < |es| && es[i].Loaded? :: DIR !in Defs(es[i].d.root) && DIR !in Defs(es[i].d.cwd)
  }

  lemma {:induction false} SilencedLength(es: seq<Event>)
    ensures |Silenced(es)| == |es|
  {
    if es != [] {
      SilencedLength(es[..|es| - 1]);
    }
  }

  lemma {:induction false} SameDirectory(env: Vars, es: seq<Event>)
    requires KeepDirectory(es)
    ensures History(env, es, DIR) == History(env, Silenced(es), DIR)
  {
    hide Defs, Consent, MarkOf;
    if es != [] {
      var p, e := es[..|es| - 1], es[|es| - 1];
      SameDirectory(env, p);
      if e.Loaded? {
        SameMark(env, p, Silenced(p), e.d);
        HistoryMore(env, Silenced(p), e.d.(root := None, cwd := None), DIR);
      } else {
        SilencedLength(p);
        assert (Silenced(p) + [e])[..|p|] == Silenced(p);
      }
    }
  }

  lemma SameMark(env: Vars, p: seq<Event>, q: seq<Event>, d: Disk)
    requires History(env, p, DIR) == History(env, q, DIR) && DIR !in Defs(d.root) && DIR !in Defs(d.cwd)
    ensures MarkOf(Assigned(env, p, d), DIR) == MarkOf(Assigned(env, q, d.(root := None, cwd := None)), DIR)
  {
    hide Consent, Assigned;
    AssignedIs(env, p, d);
    AssignedIs(env, q, d.(root := None, cwd := None));
  }

  /** Which definitions a load makes. */
  lemma AssignedIs(env: Vars, es: seq<Event>, d: Disk)
    ensures var settings := Defs(FilesAt(d, Directory(env, es)).settings);
      && Defs(Chosen(env, es, d).settings) == settings
      && Assigned(env, es, d) == if Consent(env, es, d) then settings + Defs(d.root) + Defs(d.cwd) else settings
  {
    hide Consent, Defs, Directory;
    assert Chosen(env, es, d) == FilesAt(d, Directory(env, es));
  }

  /** Project files that leave the directory variable alone never influence whether project files are read,
      as long as the user does not write the gate. */
  lemma ProjectsHaveNoSay(env: Vars, es: seq<Event>, d: Disk)
    requires NoWrites(es, GATE) && KeepDirectory(es)
    ensures Consent(env, es, d) == Consent(env, Silenced(es), d)
  {
    ConsentIgnoresProjects(env, es);
    SameDirectory(env, es);
  }

  /** A project file that names its own configuration directory keeps itself read after the user has taken back
      the consent, without any write to the gate. */
  lemma ProjectRedirectsConsent()
    ensures var (project, on) := (OneSetting(DIR, "/repo/cfg"), OneSetting(GATE, "1"));
      var before := Disk("/home", map["/home" := on, "/repo/cfg" := on], None, Some(project));
      var after := before.(dirs := map["/home" := "", "/repo/cfg" := on]);
      && Consent(map[], [Loaded(before)], after) && !Consent(map[], Silenced([Loaded(before)]), after)
      && Look(Run(map[], [Loaded(before), Loaded(after)]).env, DIR) == Some("/repo/cfg")
  {
    hide Run, OneSetting, Consent, Silenced, Assigned;
    var project, on := OneSetting(DIR, "/repo/cfg"), OneSetting(GATE, "1");
    var before := Disk("/home", map["/home" := on, "/repo/cfg" := on], None, Some(project));
    var after := before.(dirs := map["/home" := "", "/repo/cfg" := on]);
    var quiet := before.(cwd := None);
    GateLoads("1");
    DirLoads("/repo/cfg");
    StartDirectory(map[]);
    Redirected(before, project, on);
    Undirected(quiet, on);
    SilencedOne(before);
    ConsentIs(map[], [Loaded(before)], after);
    ConsentIs(map[], [Loaded(quiet)], after);
    AssignedProject(map[], [Loaded(before)], after);
    LoadedValue(map[], [Loaded(before)], after, DIR);
    assert [Loaded(before)] + [Loaded(after)] == [Loaded(before), Loaded(after)];
  }

  lemma SilencedOne(d: Disk)
    ensures Silenced([Loaded(d)]) == [Loaded(d.(root := None, cwd := None))]
  {
    assert [Loaded(d)][..0] == [];
  }

  /** What a consenting load of a disk without a Git root defines in the directory variable. */
  lemma AssignedProject(env: Vars, es: seq<Event>, d: Disk)
    requires Consent(env, es, d) && d.root.None?
    ensures DIR in Defs(d.cwd) ==> DIR in Assigned(env, es, d) && Assigned(env, es, d)[DIR] == Defs(d.cwd)[DIR]
    ensures d.cwd.None? ==> Assigned(env, es, d) == Defs(Chosen(env, es, d).settings)
  {
    hide Consent, Chosen, Assigned;
    AssignedIs(env, es, d);
    assert Defs(None) == map[];
  }

  lemma Redirected(d: Disk, project: string, on: string)
    requires d == Disk("/home", map["/home" := on, "/repo/cfg" := on], None, Some(project))
    requires Defs(Some(on)) == map[GATE := "1"] && Defs(Some(project)) == map[DIR := "/repo/cfg"]
    ensures Directory(map[], [Loaded(d)]) == Some("/repo/cfg")
  {
    hide Consent, Assigned;
    StartDirectory(map[]);
    ConsentIs(map[], [], d);
    AssignedProject(map[], [], d);
    HistoryMore(map[], [], d, DIR);
    assert [] + [Loaded(d)] == [Loaded(d)];
    SnocMark([], Defined("/repo/cfg"), None);
    DirectoryIs(map[], [Loaded(d)]);
  }

  lemma Undirected(d: Disk, on: string)
    requires d == Disk("/home", map["/home" := on, "/repo/cfg" := on], None, None) && Defs(Some(on)) == map[GATE := "1"]
    ensures Directory(map[], [Loaded(d)]) == None
  {
    hide Consent, Assigned;
    StartDirectory(map[]);
    ConsentIs(map[], [], d);
    AssignedProject(map[], [], d);
    HistoryMore(map[], [], d, DIR);
    assert [] + [Loaded(d)] == [Loaded(d)];
    assert GATE != DIR;
    SnocMark([], Undefined, None);
    DirectoryIs(map[], [Loaded(d)]);
  }

  // ------------------------------------------------------------------------
  // A write to the gate in between

  /** A load of `d1` with the project files `root` and `cwd`, then the user's write of the gate, if any. */
  function Window(p: seq<Event>, d1: Disk, root: Option<string>, cwd: Option<string>,
          own: Option<Option<string>>): seq<Event> {
    var loaded := p + [Loaded(d1.(root := root, cwd := cwd))];
    if own.Some? then loaded + [Wrote(GATE, own.value)] else loaded
  }

  /** The settings that the load behind the window reads when there is no project file. */
  function NextSettings(env: Vars, p: seq<Event>, d1: Disk, own: Option<Option<string>>, d2: Disk): Vars {
    Defs(Chosen(env, Window(p, d1, None, None, own), d2).settings)
  }

  /** Project files that leave the directory variable alone cannot sway the consent of the next load exactly when
      the new settings decide it; or the user wrote a value that agrees with the baseline or that no file can
      hold; or nothing was written and the old settings defined the gate or the baseline opens it. */
  lemma ProjectsSwayConsent(env: Vars, p: seq<Event>, d1: Disk, own: Option<Option<string>>, d2: Disk)
    requires Consent(env, p, d1)
    ensures (forall root, cwd | DIR !in Defs(root) && DIR !in Defs(cwd) ::
               Consent(env, Window(p, d1, root, cwd, own), d2) == Consent(env, Window(p, d1, None, None, own), d2))
       <==> || GATE in NextSettings(env, p, d1, own, d2)
            || (if own.Some? then Open(own.value) == Open(Look(env, GATE)) || !OneLine(Vis(own.value))
                else GATE in Defs(Chosen(env, p, d1).settings) || Open(Look(env, GATE)))
  {
    hide Consent, Window, Chosen, Defs, Outcome, NextSettings, MarkOf;
    var base, e1 := Look(env, GATE), MarkOf(Defs(Chosen(env, p, d1).settings), GATE);
    var e2 := MarkOf(NextSettings(env, p, d1, own, d2), GATE);
    MarkDefined(Defs(Chosen(env, p, d1).settings));
    MarkDefined(NextSettings(env, p, d1, own, d2));
    forall root, cwd | DIR !in Defs(root) && DIR !in Defs(cwd)
      ensures Consent(env, Window(p, d1, root, cwd, own), d2) == Outcome(base, e1, ProjectGate(root, cwd), own, e2)
    {
      WindowOutcome(env, p, d1, root, cwd, own, d2);
    }
    assert ProjectGate(None, None) == None && DIR !in Defs(None) by { NoProject(); }
    if Steady(base, e1, own, e2) {
      forall root, cwd | DIR !in Defs(root) && DIR !in Defs(cwd)
        ensures Consent(env, Window(p, d1, root, cwd, own), d2) == Consent(env, Window(p, d1, None, None, own), d2)
      {
        ProjectGateOneLine(root, cwd);
        SettingsOneLine(env, p, d1);
        SteadyOutcome(base, e1, ProjectGate(root, cwd), own, e2);
      }
    } else {
      var v := Swaying(base, e1, own);
      SwayingOutcome(base, e1, own, e2);
      ProjectSays(v);
      var cwd := Some(OneSetting(GATE, v));
      assert DIR !in Defs(None) && DIR !in Defs(cwd);
      assert Consent(env, Window(p, d1, None, cwd, own), d2) != Consent(env, Window(p, d1, None, None, own), d2);
    }
  }

  /** What the project files make of the gate. */
  function ProjectGate(root: Option<string>, cwd: Option<string>): Option<string> {
    Look(Defs(root) + Defs(cwd), GATE)
  }

  lemma NoProject()
    ensures ProjectGate(None, None) == None && DIR !in Defs(None)
  {
  }

  lemma MarkDefined(defs: Vars)
    ensures !MarkOf(defs, GATE).Own? && (MarkOf(defs, GATE).Defined? <==> GATE in defs)
  {
  }

  lemma ProjectGateOneLine(root: Option<string>, cwd: Option<string>)
    ensures var x := ProjectGate(root, cwd); x.Some? ==> OneLine(x.value)
  {
    hide LoadText, OneLine;
    if root.Some? && GATE in Defs(root) { LoadTextOneLine(root.value, GATE); }
    if cwd.Some? && GATE in Defs(cwd) { LoadTextOneLine(cwd.value, GATE); }
  }

  lemma SettingsOneLine(env: Vars, p: seq<Event>, d: Disk)
    ensures var e := MarkOf(Defs(Chosen(env, p, d).settings), GATE); e.Defined? ==> OneLine(e.v)
  {
    hide LoadText, OneLine, Chosen;
    var settings := Chosen(env, p, d).settings;
    if settings.Some? && GATE in Defs(settings) { LoadTextOneLine(settings.value, GATE); }
  }

  lemma ProjectSays(v: string)
    requires OneLine(v)
    ensures ProjectGate(None, Some(OneSetting(GATE, v))) == Some(v)
    ensures DIR !in Defs(None) && DIR !in Defs(Some(OneSetting(GATE, v)))
  {
    hide OneSetting;
    GateLoads(v);
    assert Defs(None) == map[] && GATE != DIR;
  }

  // ---- the outcome as a function of the marks

  predicate Outcome(base: Option<string>, e1: Mark, x: Option<string>, own: Option<Option<string>>, e2: Mark) {
    var m := if x.Some? then Defined(x.value) else e1;
    if e2.Defined? then e2.v == "1"
    else if own.Some? then Open(if m.Defined? && Vis(own.value) == m.v then base else own.value)
    else m.Undefined? || Open(base)
  }

  predicate Steady(base: Option<string>, e1: Mark, own: Option<Option<string>>, e2: Mark) {
    || e2.Defined?
    || (if own.Some? then Open(own.value) == Open(base) || !OneLine(Vis(own.value)) else e1.Defined? || Open(base))
  }

  lemma SteadyOutcome(base: Option<string>, e1: Mark, x: Option<string>, own: Option<Option<string>>, e2: Mark)
    requires Steady(base, e1, own, e2) && !e1.Own? && !e2.Own?
    requires (e1.Defined? ==> OneLine(e1.v)) && (x.Some? ==> OneLine(x.value))
    ensures Outcome(base, e1, x, own, e2) == Outcome(base, e1, None, own, e2)
  {
    hide OneLine;
  }

  /** A gate value whose outcome differs from the one without project files. */
  function Swaying(base: Option<string>, e1: Mark, own: Option<Option<string>>): string {
    if own.None? then "1"
    else if e1.Defined? && e1.v == Vis(own.value) then Vis(own.value) + "x"
    else Vis(own.value)
  }

  lemma SwayingOutcome(base: Option<string>, e1: Mark, own: Option<Option<string>>, e2: Mark)
    requires !Steady(base, e1, own, e2) && !e1.Own? && !e2.Own?
    ensures OneLine(Swaying(base, e1, own))
    ensures Outcome(base, e1, Some(Swaying(base, e1, own)), own, e2) != Outcome(base, e1, None, own, e2)
  {
    if own.Some? && e1.Defined? && e1.v == Vis(own.value) {
      assert |e1.v + "x"| > |e1.v|;
    }
  }

  // ---- the window and its marks

  lemma ExpectedSnoc(h: seq<Mark>, m: Mark, base: Option<string>)
    ensures LastLoad(h + [m]) == if m.Own? then LastLoad(h) else m
    ensures Expected(h + [m], base) == match m
      case Own(w) => w
      case Defined(v) => Some(v)
      case Undefined =>
        if LastLoad(h).Defined? && Vis(Expected(h, base)) == LastLoad(h).v then base else Expected(h, base)
  {
    assert (h + [m])[..|h|] == h;
  }

  function Later(h: seq<Mark>, m: Mark, own: Option<Option<string>>): seq<Mark> {
    if own.Some? then h + [m] + [Own(own.value)] else h + [m]
  }

  lemma OutcomeOf(h: seq<Mark>, base: Option<string>, e1: Mark, x: Option<string>,
          own: Option<Option<string>>, e2: Mark)
    requires !e1.Own? && !e2.Own? && Open(Expected(h + [e1], base))
    ensures var m := if x.Some? then Defined(x.value) else e1;
      Open(Expected(Later(h, m, own) + [e2], base)) == Outcome(base, e1, x, own, e2)
  {
    hide Expected, LastLoad;
    var m := if x.Some? then Defined(x.value) else e1;
    ExpectedSnoc(h, m, base);
    ExpectedSnoc(h, e1, base);
    if own.Some? { ExpectedSnoc(h + [m], Own(own.value), base); }
    ExpectedSnoc(Later(h, m, own), e2, base);
  }

  lemma WindowHistory(env: Vars, p: seq<Event>, d1: Disk, root: Option<string>, cwd: Option<string>,
                      own: Option<Option<string>>, k: string)
    ensures var m := MarkOf(Assigned(env, p, d1.(root := root, cwd := cwd)), k);
      History(env, Window(p, d1, root, cwd, own), k) == Later(History(env, p, k), m, if k == GATE then own else None)
  {
    hide Assigned, MarkOf;
    var d := d1.(root := root, cwd := cwd);
    HistoryMore(env, p, d, k);
    if own.Some? {
      var loaded := p + [Loaded(d)];
      assert (loaded + [Wrote(GATE, own.value)])[..|loaded|] == loaded;
    }
  }

  /** The directory of the load behind the window does not depend on the project files. */
  lemma WindowDirectory(env: Vars, p: seq<Event>, d1: Disk, root: Option<string>,
          cwd: Option<string>, own: Option<Option<string>>)
    requires DIR !in Defs(root) && DIR !in Defs(cwd)
    ensures Directory(env, Window(p, d1, root, cwd, own)) == Directory(env, Window(p, d1, None, None, own))
  {
    hide Window, Assigned, Consent, Expected, Later, Defs, MarkOf;
    assert GATE != DIR;
    WindowHistory(env, p, d1, root, cwd, own, DIR);
    WindowHistory(env, p, d1, None, None, own, DIR);
    SameMark(env, p, p, d1.(root := root, cwd := cwd));
  }

  lemma SameConsent(env: Vars, p: seq<Event>, d: Disk, root: Option<string>, cwd: Option<string>)
    ensures Consent(env, p, d.(root := root, cwd := cwd)) == Consent(env, p, d)
    ensures Chosen(env, p, d.(root := root, cwd := cwd)).settings == Chosen(env, p, d).settings
  {
    hide Directory, Expected;
    assert Chosen(env, p, d.(root := root, cwd := cwd)).settings == Chosen(env, p, d).settings;
  }

  lemma ConsentOf(env: Vars, es: seq<Event>, d: Disk)
    ensures Consent(env, es, d)
         == Open(Expected(History(env, es, GATE) + [MarkOf(Defs(Chosen(env, es, d).settings), GATE)], Look(env, GATE)))
  {
    hide Chosen, Expected, Defs, MarkOf;
  }

  lemma SameChoice(env: Vars, es: seq<Event>, fs: seq<Event>, d: Disk)
    requires Directory(env, es) == Directory(env, fs)
    ensures Chosen(env, es, d) == Chosen(env, fs, d)
  {
    hide Directory;
  }

  lemma ProjectMark(settings: Vars, root: Vars, cwd: Vars)
    ensures MarkOf(settings + root + cwd, GATE)
         == var x := Look(root + cwd, GATE); if x.Some? then Defined(x.value) else MarkOf(settings, GATE)
  {
  }

  lemma WindowOutcome(env: Vars, p: seq<Event>, d1: Disk, root: Option<string>, cwd: Option<string>,
                      own: Option<Option<string>>, d2: Disk)
    requires Consent(env, p, d1) && DIR !in Defs(root) && DIR !in Defs(cwd)
    ensures var e1 := MarkOf(Defs(Chosen(env, p, d1).settings), GATE);
      Consent(env, Window(p, d1, root, cwd, own), d2)
      == Outcome(Look(env, GATE), e1, ProjectGate(root, cwd), own, MarkOf(NextSettings(env, p, d1, own, d2), GATE))
  {
    hide Consent, Window, Chosen, Defs, Outcome, Assigned, Expected, MarkOf, Directory, FilesAt;
    var d, es := d1.(root := root, cwd := cwd), Window(p, d1, root, cwd, own);
    var settings := Defs(Chosen(env, p, d1).settings);
    var e1, e2 := MarkOf(settings, GATE), MarkOf(NextSettings(env, p, d1, own, d2), GATE);
    SameConsent(env, p, d1, root, cwd);
    AssignedIs(env, p, d);
    ProjectMark(settings, Defs(root), Defs(cwd));
    WindowHistory(env, p, d1, root, cwd, own, GATE);
    WindowDirectory(env, p, d1, root, cwd, own);
    SameChoice(env, es, Window(p, d1, None, None, own), d2);
    ConsentOf(env, es, d2);
    ConsentOf(env, p, d1);
    MarkDefined(settings);
    MarkDefined(NextSettings(env, p, d1, own, d2));
    OutcomeOf(History(env, p, GATE), Look(env, GATE), e1, ProjectGate(root, cwd), own, e2);
  }

  /** A run in which a project file turns consent back on against the user's last word: the baseline consents, the
      project file sets the gate to 0, the user writes 0, and the next load takes the 0 for its own stamp. */
  lemma ProjectUndoesOptOut()
    ensures var project := OneSetting(GATE, "0");
      var (d, env) := (Disk("/home", map[], None, Some(project)), map[GATE := "1"]);
      var es := [Loaded(d), Wrote(GATE, Some("0"))];
      Consent(env, es, d) && !Consent(env, Silenced(es), d)
  {
    hide Consent, Chosen, OneSetting, Silenced, Defs;
    var project := OneSetting(GATE, "0");
    var (d, env) := (Disk("/home", map[], None, Some(project)), map[GATE := "1"]);
    var es, own := [Loaded(d), Wrote(GATE, Some("0"))], Some(Some("0"));
    var bare := d.(cwd := None);
    ProjectSays("0");
    NoProject();
    NoSettings(env, [], d);
    StartConsents(env, d);
    SameConsent(env, [], d, None, Some(project));
    NoSettings(env, Window([], d, None, None, own), d);
    WindowOutcome(env, [], d, None, Some(project), own, d);
    WindowOutcome(env, [], d, None, None, own, d);
    assert [] + [Loaded(d)] + [Wrote(GATE, Some("0"))] == es;
    assert [] + [Loaded(bare)] + [Wrote(GATE, Some("0"))] == [Loaded(bare), Wrote(GATE, Some("0"))];
    SilencedTwo(d, Wrote(GATE, Some("0")));
  }

  lemma NoSettings(env: Vars, es: seq<Event>, d: Disk)
    requires d.dirs == map[]
    ensures Chosen(env, es, d).settings == None && Defs(None) == map[]
  {
    hide Directory;
  }

  lemma StartConsents(env: Vars, d: Disk)
    requires d.dirs == map[] && Open(Look(env, GATE))
    ensures Consent(env, [], d)
  {
    hide Chosen, Defs, Consent;
    NoSettings(env, [], d);
    ConsentIs(env, [], d);
  }

  lemma SilencedTwo(d: Disk, e: Event)
    requires e.Wrote?
    ensures Silenced([Loaded(d), e]) == [Loaded(d.(root := None, cwd := None)), e]
  {
    SilencedOne(d);
    assert [Loaded(d), e][..1] == [Loaded(d)];
  }
}
