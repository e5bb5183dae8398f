// The loader as it runs: global variables of one shell, rewritten key by key.

module ConfigLoader {
  import opened Common
  import opened Settings
  import opened ConfigShell

  class ShellVars {
    var env: map<string, string>
    var baselineSet: bool
    var baseline: map<string, string>
    var fileKeys: seq<string>       // keys of the last load, without repetition
    var loadKeys: seq<string>       // keys defined so far in this load
    var stamps: map<string, string>

    ghost predicate Valid()
      reads this
    {
      && (forall i, j | 0 <= i < j < |fileKeys| :: fileKeys[i] != fileKeys[j])
      && stamps.Keys == KeySet(fileKeys)
    }

    ghost function View(): Shell
      reads this
    {
      Shell(env, baselineSet, baseline, KeySet(fileKeys), stamps)
    }

    constructor (initial: map<string, string>)
      ensures Valid() && View() == Shell(initial, false, map[], {}, map[])
    {
      env, baselineSet, baseline, fileKeys, loadKeys, stamps := initial, false, map[], [], [], map[];
    }

    /** Snapshot of the user's variables, once per process. */
    method CaptureEnvBaseline()
      requires Valid()
      modifies this`baselineSet, this`baseline
      ensures Valid() && View() == Capture(old(View()))
    {
      if baselineSet { return; }
      baselineSet := true;
      baseline := env;
    }

    method LoadExportFile(file: Option<string>)
      requires Valid()
      modifies this`env, this`loadKeys
      ensures Valid() && View() == old(View()).(env := old(env) + Defs(file))
      ensures KeySet(loadKeys) == KeySet(old(loadKeys)) + Defs(file).Keys
    {
      if file.None? {
        return;
      }
      var lines := Split(file.value, "");
      ghost var before := env;
      for i := 0 to |lines|
        invariant env == before + Load(lines[..i])
        invariant KeySet(loadKeys) == KeySet(old(loadKeys)) + Load(lines[..i]).Keys
      {
        hide Load, ParseLine, KeySet;
        LineLoads(before, lines, i);
        var parsed := ParseLine(lines[i]);
        if parsed.Some? {
          var (k, v) := parsed.value;
          env := env[k := v];
          KeySetSnoc(loadKeys, k);
          loadKeys := loadKeys + [k];
        }
      }
      assert lines[..|lines|] == lines;
    }

    /** Forgets the old keys that are not among the new ones; a value changed meanwhile is left alone. */
    method DropStaleKeys(newKeys: seq<string>)
      requires Valid()
      modifies this`env, this`stamps
      ensures var dropped := KeySet(fileKeys) - KeySet(newKeys);
        && env == Restored(old(env), baseline, old(stamps), dropped)
        && stamps == old(stamps) - dropped
    {
      hide Restored, KeySet;
      NothingRestored(env, baseline, stamps);
      KeySetEmpty();
      assert fileKeys[..0] == [] && KeySet(fileKeys[..0]) - KeySet(newKeys) == {};
      for i := 0 to |fileKeys|
        invariant env == Restored(old(env), baseline, old(stamps), KeySet(fileKeys[..i]) - KeySet(newKeys))
        invariant stamps == old(stamps) - (KeySet(fileKeys[..i]) - KeySet(newKeys))
      {
        var k := fileKeys[i];
        DroppedStep(fileKeys, i, newKeys);
        if k in newKeys { continue; }
        ghost var before := KeySet(fileKeys[..i]) - KeySet(newKeys);
        var cur := Vis(Look(env, k));
        var stamp := Vis(Look(stamps, k));
        if cur == stamp {
          env := if k in baseline then env[k := baseline[k]] else env - {k};
        }
        RestoreOneMore(old(env), baseline, old(stamps), before, k, env);
        stamps := stamps - {k};
      }
      assert fileKeys[..|fileKeys|] == fileKeys;
    }

    method StampKeys(newKeys: seq<string>)
      modifies this`stamps
      ensures stamps == old(stamps) + map k | k in KeySet(newKeys) :: Vis(Look(env, k))
    {
      hide Look, Vis;
      for i := 0 to |newKeys|
        invariant stamps == old(stamps) + map k | k in KeySet(newKeys[..i]) :: Vis(Look(env, k))
      {
        var k := newKeys[i];
        assert newKeys[..i + 1] == newKeys[..i] + [k];
        KeySetSnoc(newKeys[..i], k);
        stamps := stamps[k := Vis(Look(env, k))];
      }
      assert newKeys[..|newKeys|] == newKeys;
    }

    method ReconcileConfigLoad()
      requires Valid()
      modifies this`env, this`fileKeys, this`stamps
      ensures Valid() && View() == Reconciled(old(View()), KeySet(loadKeys))
    {
      hide Restored;
      var newKeys := Distinct(loadKeys);
      DropStaleKeys(newKeys);
      LoadedKeysUntouched(old(env), baseline, old(stamps), KeySet(fileKeys), KeySet(newKeys));
      fileKeys := newKeys;
      StampKeys(newKeys);
    }

    /** One load. The directory is read first, as whatever was loaded before left it. */
    method LoadAllConfig(d: Disk)
      requires Valid()
      modifies this
      ensures Valid() && View() == LoadDisk(old(View()), d)
      ensures var place := if DIR in old(env) && old(env)[DIR] != "" then old(env)[DIR] else d.home;
        View() == LoadAll(old(View()), Files(if place in d.dirs then Some(d.dirs[place]) else None, d.root, d.cwd))
    {
      hide Restored, Defs, Reconciled;
      var configDir := if DIR in env && env[DIR] != "" then env[DIR] else d.home;
      var settings := if configDir in d.dirs then Some(d.dirs[configDir]) else None;
      ghost var f := FilesAt(d, Look(env, DIR));
      CaptureEnvBaseline();
      loadKeys := [];
      LoadExportFile(settings);
      assert KeySet(loadKeys) == Defs(f.settings).Keys;
      ReconcileConfigLoad();
      if GATE in env && env[GATE] == "1" {
        ghost var s := View();
        LoadExportFile(d.root);
        LoadExportFile(d.cwd);
        assert View() == s.(env := s.env + Defs(f.root) + Defs(f.cwd));
        ReconcileConfigLoad();
      }
    }
  }

  lemma LineLoads(before: Vars, lines: seq<string>, i: nat)
    requires i < |lines|
    ensures var (m, m') := (Load(lines[..i]), Load(lines[..i + 1]));
      match ParseLine(lines[i])
      case None => m' == m
      case Some((k, v)) => before + m' == (before + m)[k := v] && m'.Keys == m.Keys + {k}
  {
    hide ParseLine;
    assert lines[..i + 1] == lines[..i] + [lines[i]];
    LoadSnoc(lines[..i], lines[i]);
  }

  function KeySet(ks: seq<string>): set<string> {
    set k | k in ks
  }

  lemma KeySetEmpty()
    ensures KeySet([]) == {}
  {
  }

  lemma KeySetSnoc(ks: seq<string>, k: string)
    ensures KeySet(ks + [k]) == KeySet(ks) + {k}
  {
  }

  /** The first occurrence of every key, in order. */
  method Distinct(ks: seq<string>) returns (r: seq<string>)
    ensures KeySet(r) == KeySet(ks) && forall i, j | 0 <= i < j < |r| :: r[i] != r[j]
  {
    r := [];
    for i := 0 to |ks|
      invariant KeySet(r) == KeySet(ks[..i])
      invariant forall i, j | 0 <= i < j < |r| :: r[i] != r[j]
    {
      assert ks[..i + 1] == ks[..i] + [ks[i]];
      KeySetSnoc(ks[..i], ks[i]);
      if ks[i] !in r {
        KeySetSnoc(r, ks[i]);
        assert ks[i] !in KeySet(r);
        r := r + [ks[i]];
      } else {
        assert ks[i] in KeySet(r);
      }
    }
    assert ks[..|ks|] == ks;
  }

  lemma DroppedStep(ks: seq<string>, i: nat, others: seq<string>)
    requires i < |ks| && forall a, b | 0 <= a < b < |ks| :: ks[a] != ks[b]
    ensures var (d, d') := (KeySet(ks[..i]) - KeySet(others), KeySet(ks[..i + 1]) - KeySet(others));
      ks[i] !in d && d' == if ks[i] in others then d else d + {ks[i]}
  {
  }

  lemma NothingRestored(env: Vars, base: Vars, stamps: Vars)
    ensures Restored(env, base, stamps, {}) == env
  {
  }

  lemma RestoreOneMore(env: Vars, base: Vars, stamps: Vars, dropped: set<string>, k: string, now: Vars)
    requires k !in dropped
    requires var r := Restored(env, base, stamps, dropped);
      now == if Vis(Look(r, k)) != Vis(Look(stamps, k)) then r
             else if k in base then r[k := base[k]] else r - {k}
    ensures now == Restored(env, base, stamps, dropped + {k})
  {
  }

  lemma LoadedKeysUntouched(env: Vars, base: Vars, stamps: Vars, oldKeys: set<string>, newKeys: set<string>)
    requires stamps.Keys == oldKeys
    ensures var r := Restored(env, base, stamps, oldKeys - newKeys);
      (stamps - (oldKeys - newKeys)) + (map k | k in newKeys :: Vis(Look(r, k)))
        == map k | k in newKeys :: Vis(Look(env, k))
  {
  }
}
