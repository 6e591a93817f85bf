/** What the operations of `etc/builds/build.py` guarantee, stated over
    the functions that describe them: the `has_checked_*` flags are set
    only by a check that passed and then silence it, they agree with the
    machine at all times, the checks run in dependency order, cleaning
    runs no subprocess and leaves only the placeholders, exporting and
    publishing launch exactly their command, the loops over channels
    launch a prefix of their plan, publishing happens only behind the
    passcode and after every export, and `run_command` does nothing for a
    malformed command. */
module ReleaseProperties {
  import opened Env
  import opened Text
  import opened ReleaseClean
  import opened ReleaseBuild

  // ---------------------------------------------------------------------
  // The globals

  /** What the globals claim holds on the machine: a set flag means its
      check passed there, and the commands are the ones `build.cfg`
      names once it has been read. */
  predicate Coherent(h: Host, s: Survey, m: Memo)
  {
    && (m.files ==> s.passed)
    && (m.config ==> m.files && CONFIG_PATH in h.files && h.config == Parsed(Some(m.godot), Some(m.butler)))
    && (m.godotOk ==> m.config && h.Succeeds([m.godot, "--version"]))
    && (m.butlerOk ==> m.config && h.Succeeds([m.butler, "version"]))
  }

  /** No flag is cleared and the commands are fixed once read. */
  predicate Keeps(m: Memo, n: Memo)
  {
    && (m.files ==> n.files)
    && (m.config ==> n.config && n.godot == m.godot && n.butler == m.butler)
    && (m.godotOk ==> n.godotOk)
    && (m.butlerOk ==> n.butlerOk)
  }

  lemma KeepsTrans(a: Memo, b: Memo, c: Memo)
    requires Keeps(a, b) && Keeps(b, c)
    ensures Keeps(a, c)
  {
  }

  /** The script starts with every flag clear, which claims nothing. */
  lemma InitiallyCoherent(h: Host, s: Survey)
    ensures Coherent(h, s, INITIAL) && !INITIAL.files && !INITIAL.config
  {
  }

  /** What the file tests find: `check_files` passes exactly when every
      required file is there, and only tests files. */
  lemma SurveyFacts(h: Host)
    ensures SurveyOf(h).passed <==> forall i :: 0 <= i < |RequiredFiles()| ==> RequiredFiles()[i] in h.files
    ensures forall i :: 0 <= i < |SurveyOf(h).log| ==> SurveyOf(h).log[i].TestFile?
  {
    var paths := RequiredFiles();
    var tests := FileTests(h, paths);
    forall i | 0 <= i < |paths| ensures tests[i].passes == (paths[i] in h.files) {
      FileTestsAt(h, paths, i);
    }
    TrailPrefix(tests);
    forall i | 0 <= i < |Trail(tests)| ensures Trail(tests)[i].TestFile? {
      FileTestsAt(h, paths, i);
    }
  }

  /** A survey whose log only tests files, as every survey of a machine. */
  predicate Quiet(s: Survey)
  {
    forall i :: 0 <= i < |s.log| ==> s.log[i].TestFile?
  }

  /** Every machine's survey is quiet, so the lemmas below that ask for
      `Quiet` and `Coherent` hold for the script from its start. */
  lemma SurveyQuiet(h: Host)
    ensures Quiet(SurveyOf(h)) && Coherent(h, SurveyOf(h), INITIAL)
  {
    SurveyFacts(h);
  }

  lemma QuietLooks(s: Survey)
    requires Quiet(s)
    ensures AllLook(s.log)
  {
  }

  // ---------------------------------------------------------------------
  // The checks

  /** `check_files` sets its flag exactly when it passes, and only then;
      it passes without a test once the flag is set, and a second call
      after it passed does nothing. It changes no other global. */
  lemma FilesCheck(s: Survey, m: Memo)
    ensures var c := CheckFilesSpec(s, m);
            && (c.result == Done <==> c.memo.files)
            && (c.result == Done <==> m.files || s.passed)
            && c.memo == m.(files := c.memo.files) && Keeps(m, c.memo)
            && (m.files ==> c.log == [])
            && (c.result == Done ==> CheckFilesSpec(s, c.memo) == Checked(Done, c.memo, []))
            && (c.result != Done ==> c.result == Failed(WrongDirectory))
  {
  }

  /** `build.cfg` names both commands. */
  predicate ConfigNamesBoth(h: Host)
  {
    CONFIG_PATH in h.files && h.config.Parsed? && h.config.godot.Some? && h.config.butler.Some?
  }

  /** `check_config` runs `check_files` first and sets its flag exactly
      when both pass and `build.cfg` names both commands; it then stores
      those commands. It only looks at files, keeps the globals coherent
      and is silent once it passed. */
  lemma ConfigCheck(h: Host, s: Survey, m: Memo)
    ensures var c := CheckConfigSpec(h, s, m);
            && (c.result == Done <==> c.memo.config)
            && (c.result == Done <==> m.config || ((m.files || s.passed) && ConfigNamesBoth(h)))
            && Keeps(m, c.memo) && c.memo.godotOk == m.godotOk && c.memo.butlerOk == m.butlerOk
            && (!m.config ==> IsPrefix(CheckFilesSpec(s, m).log, c.log))
            && (c.result == Done ==> CheckConfigSpec(h, s, c.memo) == Checked(Done, c.memo, []))
            && (c.result != Done ==> c.result in {Failed(WrongDirectory), Failed(NoConfig), Failed(BadConfig), Crashed})
            && (c.result == Crashed <==>
                  !m.config && (m.files || s.passed) && CONFIG_PATH in h.files && h.config.Undecodable?)
    ensures Coherent(h, s, m) ==> Coherent(h, s, CheckConfigSpec(h, s, m).memo)
    ensures Quiet(s) ==> AllLook(CheckConfigSpec(h, s, m).log)
  {
    var c := CheckConfigSpec(h, s, m);
    if !m.config {
      var f := CheckFilesSpec(s, m);
      if f.result == Done {
        var r := ReadConfig(h, f.memo);
        assert c.log == f.log + r.log;
        assert IsPrefix(f.log, c.log) by { assert (f.log + r.log)[..|f.log|] == f.log; }
        if Quiet(s) {
          LookConcat(f.log, r.log);
        }
      }
    }
  }

  /** A log of checks: events that look at files, and tool probes. */
  predicate Checking(t: seq<Event>)
  {
    forall i :: 0 <= i < |t| ==> Looks(t[i]) || (t[i].Call? && IsProbe(t[i].argv))
  }

  /** Checks launch nothing, copy nothing and delete nothing. */
  lemma CheckingQuiet(t: seq<Event>)
    requires Checking(t)
    ensures Launches(t) == []
    ensures forall e: Event :: e.Copy? || IsDeletion(e) ==> Count(t, e) == 0
  {
    LaunchFree(t);
    forall e: Event | e.Copy? || IsDeletion(e) ensures Count(t, e) == 0 {
      assert e !in t;
      CountAbsent(t, e);
    }
  }

  /** The probe of a tool, after the configuration check: the only
      subprocess of the log, run once. */
  lemma ProbeLog(cfg: seq<Event>, probe: seq<string>, flag: string, other: string)
    requires AllLook(cfg) && IsProbe(probe) && probe[1] == flag && flag != other
    ensures Checking(cfg + [Call(probe)]) && Probes(cfg + [Call(probe)], flag) == 1
    ensures Probes(cfg + [Call(probe)], other) == 0
    ensures Checking(cfg) && Probes(cfg, flag) == 0 && Probes(cfg, other) == 0
  {
    CallFree(cfg);
    Snoc(cfg, Call(probe), Call(probe), flag);
    Snoc(cfg, Call(probe), Call(probe), other);
    forall i | 0 <= i < |cfg + [Call(probe)]|
      ensures Looks((cfg + [Call(probe)])[i]) || ((cfg + [Call(probe)])[i].Call? && IsProbe((cfg + [Call(probe)])[i].argv))
    {
      if i < |cfg| {
        assert (cfg + [Call(probe)])[i] == cfg[i];
      }
    }
  }

  /** `check_godot` runs `check_config` first and then probes
      `<godot> --version`, once, as its last step; it sets its flag
      exactly when the probe succeeds, and only then. The probe runs the
      command `build.cfg` names. */
  lemma GodotCheck(h: Host, s: Survey, m: Memo)
    ensures var c := CheckGodotSpec(h, s, m);
            var cfg := CheckConfigSpec(h, s, m);
            && (c.result == Done <==> c.memo.godotOk)
            && (c.result == Done <==> m.godotOk || (cfg.result == Done && h.Succeeds([cfg.memo.godot, "--version"])))
            && Keeps(m, c.memo) && c.memo.butlerOk == m.butlerOk
            && (!m.godotOk ==> c.log == cfg.log + if cfg.result == Done then [Call([cfg.memo.godot, "--version"])] else [])
            && (c.result == Done ==> CheckGodotSpec(h, s, c.memo) == Checked(Done, c.memo, []))
    ensures Coherent(h, s, m) ==>
              && Coherent(h, s, CheckGodotSpec(h, s, m).memo)
              && (CheckConfigSpec(h, s, m).result == Done ==> Some(CheckConfigSpec(h, s, m).memo.godot) == h.config.godot)
    ensures Quiet(s) ==>
              var t := CheckGodotSpec(h, s, m).log;
              Checking(t) && Probes(t, "--version") <= (if m.godotOk then 0 else 1) && Probes(t, "version") == 0
  {
    ConfigCheck(h, s, m);
    var cfg := CheckConfigSpec(h, s, m);
    if Quiet(s) && !m.godotOk {
      ProbeLog(cfg.log, [cfg.memo.godot, "--version"], "--version", "version");
    }
    if Quiet(s) && m.godotOk {
      CallFree([]);
    }
  }

  /** `check_butler` runs `check_config` first and then probes
      `<butler> version`, once, as its last step; it sets its flag exactly
      when the probe succeeds, and only then. The probe runs the command
      `build.cfg` names. */
  lemma ButlerCheck(h: Host, s: Survey, m: Memo)
    ensures var c := CheckButlerSpec(h, s, m);
            var cfg := CheckConfigSpec(h, s, m);
            && (c.result == Done <==> c.memo.butlerOk)
            && (c.result == Done <==> m.butlerOk || (cfg.result == Done && h.Succeeds([cfg.memo.butler, "version"])))
            && Keeps(m, c.memo) && c.memo.godotOk == m.godotOk
            && (!m.butlerOk ==> c.log == cfg.log + if cfg.result == Done then [Call([cfg.memo.butler, "version"])] else [])
            && (c.result == Done ==> CheckButlerSpec(h, s, c.memo) == Checked(Done, c.memo, []))
    ensures Coherent(h, s, m) ==>
              && Coherent(h, s, CheckButlerSpec(h, s, m).memo)
              && (CheckConfigSpec(h, s, m).result == Done ==> Some(CheckConfigSpec(h, s, m).memo.butler) == h.config.butler)
    ensures Quiet(s) ==>
              var t := CheckButlerSpec(h, s, m).log;
              Checking(t) && Probes(t, "version") <= (if m.butlerOk then 0 else 1) && Probes(t, "--version") == 0
  {
    ConfigCheck(h, s, m);
    var cfg := CheckConfigSpec(h, s, m);
    if Quiet(s) && !m.butlerOk {
      ProbeLog(cfg.log, [cfg.memo.butler, "version"], "version", "--version");
    }
    if Quiet(s) && m.butlerOk {
      CallFree([]);
    }
  }

  /** `check_channel` accepts exactly the channels of `CHANNELS`, after
      the file checks pass. */
  lemma ChannelCheck(s: Survey, m: Memo, channel: string)
    ensures var c := CheckChannelSpec(s, m, channel);
            && (c.result == Done <==> (m.files || s.passed) && channel in CHANNELS)
            && ((m.files || s.passed) && channel !in CHANNELS ==> c.result == Failed(UnknownChannel(channel)))
            && c.memo == CheckFilesSpec(s, m).memo && c.log == CheckFilesSpec(s, m).log
  {
  }

  // ---------------------------------------------------------------------
  // Cleaning

  /** `clean_channel` succeeds exactly when the file checks pass, the
      channel is one of `CHANNELS`, its directory can be listed and every
      entry in it is cleanable; it then leaves only the top-level `.itch`
      placeholders. It only changes that channel's directory and the file
      flag, and runs no subprocess. */
  lemma CleanOutcome(s: Survey, m: Memo, out: map<string, Node>, channel: string)
    ensures var e := CleanChannelSpec(s, m, out, channel);
            e.result == Done <==>
              && (m.files || s.passed) && channel in CHANNELS && Listable(out, channel)
              && Cleanable(Listing(out[channel]), 0)
    ensures var e := CleanChannelSpec(s, m, out, channel);
            e.result == Done ==>
              e.outputs == out[channel := Relisted(out[channel], Itches(Listing(out[channel])))]
    ensures var e := CleanChannelSpec(s, m, out, channel);
            && e.outputs.Keys == out.Keys
            && (forall c :: c in out && c != channel ==> e.outputs[c] == out[c])
            && e.memo == CheckFilesSpec(s, m).memo
    ensures var e := CleanChannelSpec(s, m, out, channel);
            (m.files || s.passed) && channel in CHANNELS && !Listable(out, channel) ==>
              e == Effect(Failed(CleanFailed(channel)), e.memo, out, CheckFilesSpec(s, m).log)
    ensures Quiet(s) ==> Tidy(CleanChannelSpec(s, m, out, channel).log)
  {
    var c := CheckChannelSpec(s, m, channel);
    if c.result == Done && Listable(out, channel) {
      var es := Listing(out[channel]);
      SweepOutcome(channel, es, 0);
      SweepOnlyDeletes(channel, es, 0);
      if Quiet(s) {
        TidyConcat(c.log, Sweep(channel, es, 0).log);
      }
    }
  }

  /** A second `clean_channel` after one that succeeded changes nothing
      and logs nothing: it neither tests files again nor deletes. */
  lemma CleanAgain(s: Survey, m: Memo, out: map<string, Node>, channel: string)
    requires CleanChannelSpec(s, m, out, channel).result == Done
    ensures var e := CleanChannelSpec(s, m, out, channel);
            CleanChannelSpec(s, e.memo, e.outputs, channel) == Effect(Done, e.memo, e.outputs, [])
  {
    var c := CheckChannelSpec(s, m, channel);
    assert c.result == Done && Listable(out, channel);
    var d := out[channel];
    var w := Sweep(channel, Listing(d), 0);
    assert w.fault == None;
    var d2 := Relisted(d, w.kept);
    var e := CleanChannelSpec(s, m, out, channel);
    assert e == Effect(Done, c.memo, out[channel := d2], c.log + w.log);
    assert CheckChannelSpec(s, c.memo, channel) == Checked(Done, c.memo, []);
    SweepAgain(channel, Listing(d));
    RelistedAgain(d, w.kept, w.kept);
    assert e.outputs[channel := Relisted(d2, w.kept)] == e.outputs;
  }

  // ---------------------------------------------------------------------
  // Exporting and publishing

  /** The log counters of two logs in a row. */
  lemma Tally(a: seq<Event>, b: seq<Event>, flag: string, c: Event)
    ensures Launches(a + b) == Launches(a) + Launches(b)
    ensures Probes(a + b, flag) == Probes(a, flag) + Probes(b, flag)
    ensures Count(a + b, c) == Count(a, c) + Count(b, c)
  {
    LaunchesAppend(a, b);
    ProbesAppend(a, b, flag);
    CountAppend(a, b, c);
  }

  /** The checks of `export_channel`: `check_channel`, then `check_godot`. */
  function ExportChecks(h: Host, s: Survey, m: Memo, channel: string): Checked
  {
    var c := CheckChannelSpec(s, m, channel);
    if c.result != Done then c else CheckAfter(c.log, CheckGodotSpec(h, s, c.memo))
  }

  lemma CheckingConcat(a: seq<Event>, b: seq<Event>)
    requires Checking(a) && Checking(b)
    ensures Checking(a + b)
  {
    forall i | 0 <= i < |a + b| ensures Looks((a + b)[i]) || ((a + b)[i].Call? && IsProbe((a + b)[i].argv)) {
      if i < |a| {
        assert (a + b)[i] == a[i];
      } else {
        assert (a + b)[i] == b[i - |a|];
      }
    }
  }

  /** A check that looks at files, followed by one that may probe. */
  lemma CheckStep(c: Checked, d: Checked, flag: string, bound: nat)
    requires AllLook(c.log) && Checking(d.log) && Probes(d.log, flag) <= bound
    ensures var g := if c.result != Done then c else CheckAfter(c.log, d);
            Checking(g.log) && Probes(g.log, flag) <= bound
  {
    CallFree(c.log);
    if c.result == Done {
      ProbesAppend(c.log, d.log, flag);
      CheckingConcat(c.log, d.log);
    }
  }

  lemma ExportChecksLog(h: Host, s: Survey, m: Memo, channel: string)
    requires Quiet(s)
    ensures var g := ExportChecks(h, s, m, channel);
            && Checking(g.log) && Probes(g.log, "--version") <= (if m.godotOk then 0 else 1)
            && g.memo.godotOk == (g.result == Done || m.godotOk)
  {
    var c := CheckChannelSpec(s, m, channel);
    assert AllLook(c.log);
    GodotCheck(h, s, c.memo);
    CheckStep(c, CheckGodotSpec(h, s, c.memo), "--version", if m.godotOk then 0 else 1);
  }

  /** `export_channel` is the checks, then the clean, then the export. */
  lemma ExportSplit(h: Host, s: Survey, m: Memo, out: map<string, Node>, channel: string)
    ensures var g := ExportChecks(h, s, m, channel);
            ExportChannelSpec(h, s, m, out, channel)
            == if g.result != Done then Halt(g, out) else After(g.log, ExportCleanSpec(h, s, g.memo, out, channel))
  {
  }

  /** The export call and the copy: one launch, and the copy only after
      the engine succeeded. */
  lemma BuildLog(h: Host, m: Memo, out: map<string, Node>, channel: string)
    requires Listable(out, channel)
    ensures var b := BuildSpec(h, m, out, channel);
            var argv := ExportArgv(m.godot, channel);
            && Launches(b.log) == [argv]
            && Count(b.log, Copy(EULA, ReadmePath(channel))) == (if h.Succeeds(argv) then 1 else 0)
            && Probes(b.log, "--version") == 0
  {
    var argv := ExportArgv(m.godot, channel);
    var cp := Copy(EULA, ReadmePath(channel));
    Snoc([], Call(argv), cp, "--version");
    Snoc([Call(argv)], cp, cp, "--version");
    assert [Call(argv)] + [cp] == [Call(argv), cp];
  }

  /** The clean and the export after the checks passed: the engine runs
      once, as `<godot> --path ../.. --headless --export-release
      <channel>`, only if the clean succeeded, and the EULA is copied
      only if the engine succeeded. Nothing is probed. */
  lemma ExportCleanLog(h: Host, s: Survey, m: Memo, out: map<string, Node>, channel: string)
    requires Quiet(s)
    ensures var e := ExportCleanSpec(h, s, m, out, channel);
            var ok := CleanChannelSpec(s, m, out, channel).result == Done;
            var argv := ExportArgv(m.godot, channel);
            && Launches(e.log) == (if ok then [argv] else [])
            && Count(e.log, Copy(EULA, ReadmePath(channel))) == (if ok && h.Succeeds(argv) then 1 else 0)
            && Probes(e.log, "--version") == 0
  {
    var cl := CleanChannelSpec(s, m, out, channel);
    CleanOutcome(s, m, out, channel);
    TidyIsQuiet(cl.log);
    if cl.result == Done {
      BuildLog(h, cl.memo, cl.outputs, channel);
      Tally(cl.log, BuildSpec(h, cl.memo, cl.outputs, channel).log, "--version", Copy(EULA, ReadmePath(channel)));
    }
  }

  /** `export_channel` runs its steps in order and stops at the first
      that fails: the engine is launched once, with the configured
      command, exactly when the channel, engine and clean checks pass,
      and the EULA is copied exactly when the engine then succeeds. The
      engine is probed once at most, and not at all once known to work. */
  lemma ExportLaunches(h: Host, s: Survey, m: Memo, out: map<string, Node>, channel: string)
    requires Quiet(s)
    ensures var e := ExportChannelSpec(h, s, m, out, channel);
            var g := ExportChecks(h, s, m, channel);
            var ready := g.result == Done && CleanChannelSpec(s, g.memo, out, channel).result == Done;
            var argv := ExportArgv(g.memo.godot, channel);
            && Launches(e.log) == (if ready then [argv] else [])
            && Count(e.log, Copy(EULA, ReadmePath(channel))) == (if ready && h.Succeeds(argv) then 1 else 0)
            && Probes(e.log, "--version") <= (if m.godotOk then 0 else 1)
  {
    ExportSplit(h, s, m, out, channel);
    ExportChecksLog(h, s, m, channel);
    var g := ExportChecks(h, s, m, channel);
    CheckingQuiet(g.log);
    if g.result == Done {
      ExportCleanLog(h, s, g.memo, out, channel);
      Tally(g.log, ExportCleanSpec(h, s, g.memo, out, channel).log, "--version", Copy(EULA, ReadmePath(channel)));
    }
  }

  lemma BuildProbesNoTool(h: Host, m: Memo, out: map<string, Node>, channel: string)
    requires Listable(out, channel)
    ensures Probes(BuildSpec(h, m, out, channel).log, "version") == 0
    ensures Probes(BuildSpec(h, m, out, channel).log, "--version") == 0
  {
    var argv := ExportArgv(m.godot, channel);
    var cp := Copy(EULA, ReadmePath(channel));
    Snoc([], Call(argv), cp, "version");
    Snoc([Call(argv)], cp, cp, "version");
    Snoc([], Call(argv), cp, "--version");
    Snoc([Call(argv)], cp, cp, "--version");
    assert [Call(argv)] + [cp] == [Call(argv), cp];
  }

  lemma ExportCleanSkipsButler(h: Host, s: Survey, m: Memo, out: map<string, Node>, channel: string)
    requires Quiet(s)
    ensures Probes(ExportCleanSpec(h, s, m, out, channel).log, "version") == 0
  {
    var cl := CleanChannelSpec(s, m, out, channel);
    CleanOutcome(s, m, out, channel);
    TidyIsQuiet(cl.log);
    if cl.result == Done {
      BuildProbesNoTool(h, cl.memo, cl.outputs, channel);
      ProbesAppend(cl.log, BuildSpec(h, cl.memo, cl.outputs, channel).log, "version");
    }
  }

  lemma ExportChecksSkipButler(h: Host, s: Survey, m: Memo, channel: string)
    requires Quiet(s)
    ensures Probes(ExportChecks(h, s, m, channel).log, "version") == 0
  {
    var c := CheckChannelSpec(s, m, channel);
    assert AllLook(c.log);
    GodotCheck(h, s, c.memo);
    CheckStep(c, CheckGodotSpec(h, s, c.memo), "version", 0);
  }

  /** `export_channel` never probes the butler. */
  lemma ExportSkipsButler(h: Host, s: Survey, m: Memo, out: map<string, Node>, channel: string)
    requires Quiet(s)
    ensures Probes(ExportChannelSpec(h, s, m, out, channel).log, "version") == 0
  {
    ExportSplit(h, s, m, out, channel);
    ExportChecksSkipButler(h, s, m, channel);
    var g := ExportChecks(h, s, m, channel);
    if g.result == Done {
      ExportCleanSkipsButler(h, s, g.memo, out, channel);
      ProbesAppend(g.log, ExportCleanSpec(h, s, g.memo, out, channel).log, "version");
    }
  }

  /** The commands `build.cfg` names, or nothing. */
  function Godot(h: Host): string
  {
    if h.config.Parsed? && h.config.godot.Some? then h.config.godot.value else ""
  }

  function Butler(h: Host): string
  {
    if h.config.Parsed? && h.config.butler.Some? then h.config.butler.value else ""
  }

  /** The checks of `export_channel` keep the globals coherent, so that
      once they pass the engine command is the configured one. */
  lemma ExportChecksCoherent(h: Host, s: Survey, m: Memo, channel: string)
    requires Coherent(h, s, m)
    ensures var g := ExportChecks(h, s, m, channel);
            && Coherent(h, s, g.memo) && Keeps(m, g.memo) && g.memo.butlerOk == m.butlerOk
            && (g.result == Done ==> g.memo.godotOk && g.memo.godot == Godot(h))
  {
    var c := CheckChannelSpec(s, m, channel);
    FilesCheck(s, m);
    if c.result == Done {
      GodotCheck(h, s, c.memo);
    }
  }

  /** What `export_channel` returns: it succeeds exactly when every step
      does, fails without a trace of the copy when the engine fails, and
      crashes when its checks crash (an undecodable `build.cfg`) or when
      only the copy fails, with an `OSError`. */
  lemma ExportResult(h: Host, s: Survey, m: Memo, out: map<string, Node>, channel: string)
    ensures var e := ExportChannelSpec(h, s, m, out, channel);
            var g := ExportChecks(h, s, m, channel);
            var ready := g.result == Done && CleanChannelSpec(s, g.memo, out, channel).result == Done;
            var argv := ExportArgv(g.memo.godot, channel);
            && (e.result == Done <==> ready && h.Succeeds(argv) && h.CopySucceeds(EULA, ReadmePath(channel)))
            && (e.result == Crashed <==>
                  g.result == Crashed || (ready && h.Succeeds(argv) && !h.CopySucceeds(EULA, ReadmePath(channel))))
  {
    ExportSplit(h, s, m, out, channel);
    var g := ExportChecks(h, s, m, channel);
    if g.result == Done {
      CleanOutcome(s, g.memo, out, channel);
    }
  }

  /** What `export_channel` leaves: a successful export leaves the
      placeholders and the EULA as `readme.md` in the channel directory.
      No other channel directory changes. */
  lemma ExportOutputs(h: Host, s: Survey, m: Memo, out: map<string, Node>, channel: string)
    ensures var e := ExportChannelSpec(h, s, m, out, channel);
            e.result == Done ==>
              && Listable(out, channel)
              && e.outputs == out[channel := Relisted(out[channel], Itches(Listing(out[channel])) + [Entry(README, File(false))])]
    ensures var e := ExportChannelSpec(h, s, m, out, channel);
            e.outputs.Keys == out.Keys && forall c :: c in out && c != channel ==> e.outputs[c] == out[c]
  {
    ExportSplit(h, s, m, out, channel);
    var g := ExportChecks(h, s, m, channel);
    if g.result == Done {
      CleanOutcome(s, g.memo, out, channel);
      var cl := CleanChannelSpec(s, g.memo, out, channel);
      if cl.result == Done {
        var left := Itches(Listing(out[channel]));
        var d := Relisted(out[channel], left);
        assert cl.outputs == out[channel := d];
        PutFresh(left, Entry(README, File(false)));
        RelistedAgain(out[channel], left, left + [Entry(README, File(false))]);
        assert WithReadme(d) == Relisted(out[channel], left + [Entry(README, File(false))]);
      }
    }
  }

  /** The checks of `publish_channel`: `check_channel`, then `check_butler`. */
  function PublishChecks(h: Host, s: Survey, m: Memo, channel: string): Checked
  {
    var c := CheckChannelSpec(s, m, channel);
    if c.result != Done then c else CheckAfter(c.log, CheckButlerSpec(h, s, c.memo))
  }

  lemma PublishChecksLog(h: Host, s: Survey, m: Memo, channel: string)
    requires Quiet(s)
    ensures var b := PublishChecks(h, s, m, channel);
            Checking(b.log) && Probes(b.log, "version") <= (if m.butlerOk then 0 else 1)
  {
    var c := CheckChannelSpec(s, m, channel);
    assert AllLook(c.log);
    ButlerCheck(h, s, c.memo);
    CheckStep(c, CheckButlerSpec(h, s, c.memo), "version", if m.butlerOk then 0 else 1);
  }

  /** `publish_channel` is the checks, then the push. */
  lemma PublishSplit(h: Host, s: Survey, m: Memo, out: map<string, Node>, channel: string)
    ensures var b := PublishChecks(h, s, m, channel);
            var argv := PushArgv(b.memo.butler, channel);
            PublishChannelSpec(h, s, m, out, channel)
            == if b.result != Done then Halt(b, out) else Effect(CallResult(h, argv), b.memo, out, b.log + [Call(argv)])
  {
  }

  /** One call after the checks. */
  lemma PushStep(b: Checked, argv: seq<string>, e: Effect, out: map<string, Node>, r: Result, bound: nat, flag: string)
    requires Checking(b.log) && Probes(b.log, flag) <= bound && |argv| == 5
    requires e == if b.result != Done then Halt(b, out) else Effect(r, b.memo, out, b.log + [Call(argv)])
    ensures Launches(e.log) == (if b.result == Done then [argv] else [])
    ensures Probes(e.log, flag) <= bound
  {
    CheckingQuiet(b.log);
    Snoc(b.log, Call(argv), Call(argv), flag);
  }

  /** `publish_channel` makes exactly one call once its checks pass,
      `<butler> push --userversion=0.7.0 <channel>
      krobbizoid/coldest-night:<channel>`, as its last step; it succeeds
      exactly when that call does, and changes no directory. The butler
      is probed once at most, and not at all once known to work. */
  lemma PublishOutcome(h: Host, s: Survey, m: Memo, out: map<string, Node>, channel: string)
    requires Quiet(s)
    ensures var e := PublishChannelSpec(h, s, m, out, channel);
            var b := PublishChecks(h, s, m, channel);
            var argv := PushArgv(b.memo.butler, channel);
            && e.log == b.log + (if b.result == Done then [Call(argv)] else [])
            && Launches(e.log) == (if b.result == Done then [argv] else [])
            && (e.result == Done <==> b.result == Done && h.Succeeds(argv))
            && e.outputs == out && e.memo == b.memo
            && Probes(e.log, "version") <= (if m.butlerOk then 0 else 1)
  {
    PublishSplit(h, s, m, out, channel);
    PublishChecksLog(h, s, m, channel);
    var b := PublishChecks(h, s, m, channel);
    var argv := PushArgv(b.memo.butler, channel);
    PushStep(b, argv, PublishChannelSpec(h, s, m, out, channel), out, CallResult(h, argv), if m.butlerOk then 0 else 1, "version");
  }

  /** `publish_channel` never probes the engine. */
  lemma PublishSkipsGodot(h: Host, s: Survey, m: Memo, out: map<string, Node>, channel: string)
    requires Quiet(s)
    ensures Probes(PublishChannelSpec(h, s, m, out, channel).log, "--version") == 0
  {
    PublishSplit(h, s, m, out, channel);
    var c := CheckChannelSpec(s, m, channel);
    assert AllLook(c.log);
    ButlerCheck(h, s, c.memo);
    CheckStep(c, CheckButlerSpec(h, s, c.memo), "--version", 0);
    var b := PublishChecks(h, s, m, channel);
    var argv := PushArgv(b.memo.butler, channel);
    PushStep(b, argv, PublishChannelSpec(h, s, m, out, channel), out, CallResult(h, argv), 0, "--version");
  }

  /** The checks of `publish_channel` keep the globals coherent, so that
      once they pass the butler command is the configured one. */
  lemma PublishChecksCoherent(h: Host, s: Survey, m: Memo, channel: string)
    requires Coherent(h, s, m)
    ensures var b := PublishChecks(h, s, m, channel);
            && Coherent(h, s, b.memo) && Keeps(m, b.memo) && b.memo.godotOk == m.godotOk
            && (b.result == Done ==> b.memo.butlerOk && b.memo.butler == Butler(h))
  {
    var c := CheckChannelSpec(s, m, channel);
    FilesCheck(s, m);
    if c.result == Done {
      ButlerCheck(h, s, c.memo);
    }
  }

  /** Everything `export_channel` changes in the globals is changed by its
      checks. */
  lemma ExportMemo(h: Host, s: Survey, m: Memo, out: map<string, Node>, channel: string)
    ensures ExportChannelSpec(h, s, m, out, channel).memo == ExportChecks(h, s, m, channel).memo
  {
    ExportSplit(h, s, m, out, channel);
    var g := ExportChecks(h, s, m, channel);
    if g.result == Done {
      var c := CheckChannelSpec(s, m, channel);
      FilesCheck(s, m);
      GodotCheck(h, s, c.memo);
      FilesCheck(s, g.memo);
      CleanOutcome(s, g.memo, out, channel);
    }
  }

  // ---------------------------------------------------------------------
  // The loops over channels

  /** What the operation launches for one channel once its checks pass,
      with the commands `build.cfg` names. */
  function Step(h: Host, op: Op, channel: string): seq<seq<string>>
  {
    match op
    case CleanOp => []
    case ExportOp => [ExportArgv(Godot(h), channel)]
    case PublishOp => [PushArgv(Butler(h), channel)]
  }

  /** What the first n iterations of `for_channels(cs, op)` launch when
      every one succeeds. */
  function Plan(h: Host, op: Op, cs: seq<string>, n: nat): seq<seq<string>>
    requires n <= |cs|
  {
    if n == 0 then [] else Plan(h, op, cs, n - 1) + Step(h, op, cs[n - 1])
  }

  /** An exporting or publishing loop plans one launch per channel. */
  lemma {:induction false} PlanLength(h: Host, op: Op, cs: seq<string>, n: nat)
    requires n <= |cs| && op != CleanOp
    ensures |Plan(h, op, cs, n)| == n
    decreases n
  {
    if n > 0 {
      PlanLength(h, op, cs, n - 1);
    }
  }

  /** One iteration keeps the globals coherent, launches nothing or its
      whole step, and the whole step when it succeeds, which it does only
      for a channel of `CHANNELS`. It keeps the set of directories, and
      publishing changes none. */
  /** Each tool is probed once at most, and not at all once known to
      work (the flags of `m`); a run that succeeded without ending up
      knowing a tool works never probed it. */
  predicate Frugal(m: Memo, e: Effect)
  {
    && Probes(e.log, "--version") <= (if m.godotOk then 0 else 1)
    && Probes(e.log, "version") <= (if m.butlerOk then 0 else 1)
    && (e.result == Done && !e.memo.godotOk ==> Probes(e.log, "--version") == 0)
    && (e.result == Done && !e.memo.butlerOk ==> Probes(e.log, "version") == 0)
  }

  /** Running `o` after a successful `p`, both frugal, is frugal: a tool
      that `p` probed is known to work afterwards, so `o` does not probe
      it again. */
  lemma FrugalThen(m: Memo, p: Effect, o: Effect, e: Effect)
    requires e == if p.result != Done then p else After(p.log, o)
    requires Frugal(m, p) && Keeps(m, p.memo)
    requires p.result == Done ==> Frugal(p.memo, o) && Keeps(p.memo, o.memo)
    ensures Frugal(m, e)
  {
    if p.result == Done {
      ProbesAppend(p.log, o.log, "--version");
      ProbesAppend(p.log, o.log, "version");
    }
  }

  /** Every step probes frugally. */
  lemma OpFrugal(h: Host, s: Survey, m: Memo, out: map<string, Node>, op: Op, channel: string)
    requires Coherent(h, s, m) && Quiet(s)
    ensures Frugal(m, OpSpec(h, s, m, out, op, channel))
  {
    match op
    case CleanOp =>
      CleanOutcome(s, m, out, channel);
      TidyIsQuiet(OpSpec(h, s, m, out, op, channel).log);
    case ExportOp =>
      ExportLaunches(h, s, m, out, channel);
      ExportSkipsButler(h, s, m, out, channel);
      ExportResult(h, s, m, out, channel);
      ExportChecksCoherent(h, s, m, channel);
      ExportMemo(h, s, m, out, channel);
    case PublishOp =>
      PublishOutcome(h, s, m, out, channel);
      PublishSkipsGodot(h, s, m, out, channel);
      PublishChecksCoherent(h, s, m, channel);
  }

  lemma OpFacts(h: Host, s: Survey, m: Memo, out: map<string, Node>, op: Op, channel: string)
    requires Coherent(h, s, m) && Quiet(s)
    ensures var o := OpSpec(h, s, m, out, op, channel);
            && Coherent(h, s, o.memo) && Keeps(m, o.memo)
            && (Launches(o.log) == [] || Launches(o.log) == Step(h, op, channel))
            && (o.result == Done ==> Launches(o.log) == Step(h, op, channel) && channel in CHANNELS)
            && o.outputs.Keys == out.Keys
            && (op == PublishOp ==> o.outputs == out)
  {
    ChannelCheck(s, m, channel);
    FilesCheck(s, m);
    match op
    case CleanOp =>
      CleanOutcome(s, m, out, channel);
      TidyIsQuiet(OpSpec(h, s, m, out, op, channel).log);
    case ExportOp =>
      ExportLaunches(h, s, m, out, channel);
      ExportResult(h, s, m, out, channel);
      ExportOutputs(h, s, m, out, channel);
      ExportChecksCoherent(h, s, m, channel);
      ExportMemo(h, s, m, out, channel);
    case PublishOp =>
      PublishOutcome(h, s, m, out, channel);
      PublishChecksCoherent(h, s, m, channel);
  }

  /** Where the loop stands after some iterations: the globals are
      coherent and only gained, the set of directories is kept, it
      launched a prefix of the plan, all of it if nothing failed, and it
      probed each tool once at most. */
  ghost predicate OnPlan(h: Host, s: Survey, m: Memo, out: map<string, Node>, e: Effect, plan: seq<seq<string>>)
  {
    && Coherent(h, s, e.memo) && Keeps(m, e.memo) && e.outputs.Keys == out.Keys
    && IsPrefix(Launches(e.log), plan)
    && (e.result == Done ==> Launches(e.log) == plan)
    && Frugal(m, e)
  }

  /** One more iteration, after `p`, of an operation that behaves as
      `OpFacts` says. */
  lemma BatchStep(h: Host, s: Survey, m: Memo, out: map<string, Node>, p: Effect, o: Effect, e: Effect,
                  plan: seq<seq<string>>, step: seq<seq<string>>, channel: string, publish: bool)
    requires e == if p.result != Done then p else After(p.log, o)
    requires OnPlan(h, s, m, out, p, plan) && (publish ==> p.outputs == out)
    requires p.result == Done ==>
               && Coherent(h, s, o.memo) && Keeps(p.memo, o.memo) && Frugal(p.memo, o)
               && (Launches(o.log) == [] || Launches(o.log) == step)
               && (o.result == Done ==> Launches(o.log) == step && channel in CHANNELS)
               && o.outputs.Keys == p.outputs.Keys
               && (publish ==> o.outputs == p.outputs)
    ensures OnPlan(h, s, m, out, e, plan + step) && (publish ==> e.outputs == out)
    ensures e.result == Done ==> p.result == Done && channel in CHANNELS
  {
    FrugalThen(m, p, o, e);
    if p.result == Done {
      LaunchesAppend(p.log, o.log);
      KeepsTrans(m, p.memo, o.memo);
      if Launches(o.log) == [] {
        assert Launches(p.log) + [] == Launches(p.log);
        PrefixGrows(Launches(p.log), Launches(p.log), step);
      }
    } else {
      PrefixGrows(Launches(p.log), plan, step);
    }
  }

  /** The plan of fewer iterations starts the plan of more. */
  lemma {:induction false} PlanGrows(h: Host, op: Op, cs: seq<string>, i: nat, n: nat)
    requires i <= n <= |cs|
    ensures IsPrefix(Plan(h, op, cs, i), Plan(h, op, cs, n))
    decreases n
  {
    if i < n {
      PlanGrows(h, op, cs, i, n - 1);
      PrefixGrows(Plan(h, op, cs, i), Plan(h, op, cs, n - 1), Step(h, op, cs[n - 1]));
    } else {
      assert Plan(h, op, cs, n)[..|Plan(h, op, cs, i)|] == Plan(h, op, cs, n);
    }
  }

  /** Iteration i + 1 of `for_channels(cs, op)`, after i that succeeded. */
  lemma BatchNext(h: Host, s: Survey, m: Memo, out: map<string, Node>, op: Op, cs: seq<string>, i: nat, e: Effect)
      returns (n: Effect)
    requires i < |cs| && e.result == Done && Quiet(s)
    requires Iterated(h, s, m, out, op, cs, i, e) && OnPlan(h, s, m, out, e, Plan(h, op, cs, i))
    requires op == PublishOp ==> e.outputs == out
    ensures && Iterated(h, s, m, out, op, cs, i + 1, n) && OnPlan(h, s, m, out, n, Plan(h, op, cs, i + 1))
            && (n.result == Done ==> cs[i] in CHANNELS)
            && (op == PublishOp ==> n.outputs == out)
  {
    var o := OpSpec(h, s, e.memo, e.outputs, op, cs[i]);
    assert ForChannelsSpec(h, s, m, out, op, cs, i) == e;
    assert ForChannelsSpec(h, s, m, out, op, cs, i + 1) == After(e.log, o);
    OpFacts(h, s, e.memo, e.outputs, op, cs[i]);
    OpFrugal(h, s, e.memo, e.outputs, op, cs[i]);
    n := After(e.log, o);
    BatchStep(h, s, m, out, e, o, n, Plan(h, op, cs, i), Step(h, op, cs[i]), cs[i], op == PublishOp);
  }

  /** The iterations of `for_channels(cs, op)` up to the first that
      fails, or all of them. */
  lemma BatchRun(h: Host, s: Survey, m: Memo, out: map<string, Node>, op: Op, cs: seq<string>)
      returns (i: nat, e: Effect)
    requires Coherent(h, s, m) && Quiet(s)
    ensures i <= |cs| && (i == |cs| || e.result != Done)
    ensures Iterated(h, s, m, out, op, cs, i, e) && OnPlan(h, s, m, out, e, Plan(h, op, cs, i))
    ensures e.result == Done ==> forall k :: 0 <= k < i ==> cs[k] in CHANNELS
    ensures op == PublishOp ==> e.outputs == out
  {
    e := Effect(Done, m, out, []);
    i := 0;
    assert ForChannelsSpec(h, s, m, out, op, cs, 0) == e;
    assert IsPrefix([], Plan(h, op, cs, 0));
    while i < |cs| && e.result == Done
      invariant 0 <= i <= |cs|
      invariant Iterated(h, s, m, out, op, cs, i, e) && OnPlan(h, s, m, out, e, Plan(h, op, cs, i))
      invariant e.result == Done ==> forall k :: 0 <= k < i ==> cs[k] in CHANNELS
      invariant op == PublishOp ==> e.outputs == out
    {
      e := BatchNext(h, s, m, out, op, cs, i, e);
      i := i + 1;
    }
  }

  /** `for_channels(cs, op)` keeps the globals coherent and the set of
      directories, launches a prefix of its plan, in order, and the whole
      plan when it succeeds, which it does only when every channel it was
      given is one of `CHANNELS`. Publishing changes no directory. */
  lemma BatchPlan(h: Host, s: Survey, m: Memo, out: map<string, Node>, op: Op, cs: seq<string>)
    requires Coherent(h, s, m) && Quiet(s)
    ensures var e := AllOf(h, s, m, out, op, cs);
            && OnPlan(h, s, m, out, e, Plan(h, op, cs, |cs|))
            && (e.result == Done ==> forall i :: 0 <= i < |cs| ==> cs[i] in CHANNELS)
            && (op == PublishOp ==> e.outputs == out)
  {
    var i, e := BatchRun(h, s, m, out, op, cs);
    ForChannelsDone(h, s, m, out, op, cs, i, e);
    PlanGrows(h, op, cs, i, |cs|);
    PrefixTrans(Launches(e.log), Plan(h, op, cs, i), Plan(h, op, cs, |cs|));
  }

  /** `clean_channel` launches nothing, so neither does a loop of it. */
  lemma {:induction false} CleanPlan(h: Host, cs: seq<string>, n: nat)
    requires n <= |cs|
    ensures Plan(h, CleanOp, cs, n) == []
    decreases n
  {
    if n > 0 {
      CleanPlan(h, cs, n - 1);
    }
  }

  /** The engine calls and then the pushes of a release, with the
      configured commands. */
  function ReleasePlan(h: Host): seq<seq<string>>
  {
    Plan(h, ExportOp, CHANNELS, |CHANNELS|) + Plan(h, PublishOp, CHANNELS, |CHANNELS|)
  }

  /** The passcode tells the drawn numbers apart, so only the passcode of
      this draw unlocks publishing. */
  lemma PasscodeInjective(n: nat, k: nat)
    ensures Passcode(n) == Passcode(k) <==> n == k
  {
    var pre := "v" + VERSION + ":";
    assert |pre| == 7;
    assert Passcode(n)[7..] == Decimal(n);
    assert Passcode(k)[7..] == Decimal(k);
    DecimalRoundTrip(n);
    DecimalRoundTrip(k);
  }

  /** `publish_all_channels` crashes without doing anything when standard
      input is at its end, and does nothing when the line read is not the
      passcode. Given the passcode, it exports every channel and pushes every channel, in
      that order and only after every export succeeded: what it launches
      is a prefix of the engine calls for all channels followed by the
      pushes for all channels, and all of them when it succeeds; anything
      launched beyond the engine calls was launched only after exporting
      every channel succeeded. It keeps the globals coherent and the set
      of directories, and probes each tool once at most. */
  lemma PublishAllPlan(h: Host, s: Survey, m: Memo, out: map<string, Node>, n: nat, prompt: Option<string>)
    requires Coherent(h, s, m) && Quiet(s)
    ensures var e := PublishAllSpec(h, s, m, out, n, prompt);
            && (prompt == None ==> e == Effect(Crashed, m, out, []))
            && (prompt.Some? && prompt.value != Passcode(n) ==> e == Effect(Done, m, out, []))
            && IsPrefix(Launches(e.log), ReleasePlan(h))
            && (prompt == Some(Passcode(n)) && e.result == Done ==> Launches(e.log) == ReleasePlan(h))
            && (|Launches(e.log)| > |CHANNELS| ==>
                  prompt == Some(Passcode(n)) && AllOf(h, s, m, out, ExportOp, CHANNELS).result == Done)
            && Coherent(h, s, e.memo) && e.outputs.Keys == out.Keys
            && Frugal(m, e)
  {
    var x := Plan(h, ExportOp, CHANNELS, |CHANNELS|);
    var y := Plan(h, PublishOp, CHANNELS, |CHANNELS|);
    if prompt == Some(Passcode(n)) {
      BatchPlan(h, s, m, out, ExportOp, CHANNELS);
      var a := AllOf(h, s, m, out, ExportOp, CHANNELS);
      if a.result == Done {
        BatchPlan(h, s, a.memo, a.outputs, PublishOp, CHANNELS);
        var b := AllOf(h, s, a.memo, a.outputs, PublishOp, CHANNELS);
        LaunchesAppend(a.log, b.log);
        PrefixAfter(x, Launches(b.log), y);
        FrugalThen(m, a, b, After(a.log, b));
      } else {
        PrefixGrows(Launches(a.log), x, y);
        PlanLength(h, ExportOp, CHANNELS, |CHANNELS|);
      }
    } else {
      assert IsPrefix([], ReleasePlan(h));
    }
  }

  /** `run_command` refuses a malformed command without doing anything;
      `clean` launches no subprocess; a command that names channels
      succeeds only if each is one of `CHANNELS`; `export` launches a
      prefix of the engine calls for the channels named, and `publish` a
      prefix of a release. The globals stay coherent. */
  lemma RunCommandFacts(h: Host, s: Survey, m: Memo, out: map<string, Node>, command: seq<string>, n: nat, prompt: Option<string>)
    requires Coherent(h, s, m) && Quiet(s)
    ensures var e := RunCommandSpec(h, s, m, out, command, n, prompt);
            var c := ParseCommand(command);
            && (c == BadUsage ==> e == Effect(Failed(Usage), m, out, []))
            && (c == CleanAll || c.CleanSome? ==> Launches(e.log) == [])
            && (c.CleanSome? || c.ExportSome? ==> e.result == Done ==> forall i :: 0 <= i < |c.cs| ==> c.cs[i] in CHANNELS)
            && (c == ExportAll ==> IsPrefix(Launches(e.log), Plan(h, ExportOp, CHANNELS, |CHANNELS|)))
            && (c.ExportSome? ==> IsPrefix(Launches(e.log), Plan(h, ExportOp, c.cs, |c.cs|)))
            && (c == PublishAll ==> IsPrefix(Launches(e.log), ReleasePlan(h)))
            && Coherent(h, s, e.memo) && e.outputs.Keys == out.Keys
            && Frugal(m, e)
  {
    match ParseCommand(command)
    case CleanAll =>
      BatchPlan(h, s, m, out, CleanOp, CHANNELS);
      CleanPlan(h, CHANNELS, |CHANNELS|);
    case ExportAll =>
      BatchPlan(h, s, m, out, ExportOp, CHANNELS);
    case PublishAll =>
      PublishAllPlan(h, s, m, out, n, prompt);
    case CleanSome(cs) =>
      BatchPlan(h, s, m, out, CleanOp, cs);
      CleanPlan(h, cs, |cs|);
    case ExportSome(cs) =>
      BatchPlan(h, s, m, out, ExportOp, cs);
    case BadUsage =>
  }
}
