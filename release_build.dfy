/** The release script `etc/builds/build.py`: module-level flags that
    remember which checks have passed, the channel operations built on
    them (clean, export, publish), the loops over channels, the passcode
    gate of publishing and the command dispatcher. The script runs in
    `etc/builds/`, so every path here is relative to that directory. */
module ReleaseBuild {
  import opened Env
  import opened Text
  import opened ReleaseClean

  const VERSION := "0.7.0"
  const CHANNELS := ["win-demo", "linux-demo", "mac-demo"]
  const PROJECT := "krobbizoid/coldest-night"
  const CONFIG_PATH := "build.cfg"
  const EULA := "eula.md"
  const README := "readme.md"

  /** The files `check_files` requires, in the order it tests them. */
  function RequiredFiles(): seq<string>
  {
    ["../../export_presets.cfg", "../../project.godot", "../.gdignore", "build.py", EULA,
     "win-demo/.itch", "linux-demo/.itch", "mac-demo/.itch"]
  }

  /** The `os.path.isfile` tests of a loop over `paths`. */
  function FileTests(h: Host, paths: seq<string>): (tests: seq<Test>)
    ensures |tests| == |paths|
  {
    if paths == [] then [] else [Test(TestFile(paths[0]), paths[0] in h.files)] + FileTests(h, paths[1..])
  }

  lemma {:induction false} FileTestsAt(h: Host, paths: seq<string>, i: nat)
    requires i < |paths|
    ensures FileTests(h, paths)[i] == Test(TestFile(paths[i]), paths[i] in h.files)
  {
    if i > 0 {
      FileTestsAt(h, paths[1..], i - 1);
    }
  }

  /** What the tests of `check_files` find: whether every required file
      is there, and the tests made until the first missing one. */
  datatype Survey = Survey(passed: bool, log: seq<Event>)

  function SurveyOf(h: Host): Survey
  {
    var tests := FileTests(h, RequiredFiles());
    Survey(AllPass(tests), Trail(tests))
  }

  /** The subprocess that exports a channel. */
  function ExportArgv(godot: string, channel: string): seq<string>
  {
    [godot, "--path", "../..", "--headless", "--export-release", channel]
  }

  /** The subprocess that publishes a channel. */
  function PushArgv(butler: string, channel: string): seq<string>
  {
    [butler, "push", "--userversion=" + VERSION, channel, PROJECT + ":" + channel]
  }

  function ReadmePath(channel: string): string
  {
    channel + "/" + README
  }

  /** The messages of the `BuildError`s the script raises. */
  datatype BuildError =
    | WrongDirectory                  // "Run the build script from 'etc/builds/'."
    | NoConfig                        // "Create a 'build.cfg' file."
    | BadConfig                       // "Could not parse 'build.cfg'."
    | CallFailed                      // "Could not call subprocess."
    | UnknownChannel(channel: string) // "Channel '...' does not exist."
    | CleaningTooDeep(path: string)   // "Cleaning depth exceeded at '...'."
    | BrokenDirectoryEntry(path: string) // "Broken directory entry at '...'."
    | CleanFailed(channel: string)    // "Could not clean channel '...'."
    | Usage                           // the usage text

  /** How an operation ends: normally, with a `BuildError`, or with an
      exception the script does not catch (an `OSError` from
      `shutil.copy`, which `except shutil.Error` lets through). */
  datatype Result = Done | Failed(error: BuildError) | Crashed

  /** The module globals: the commands read from `build.cfg` and the
      `has_checked_*` flags. */
  datatype Memo = Memo(godot: string, butler: string, files: bool, config: bool, godotOk: bool, butlerOk: bool)

  /** The globals when the script starts. */
  const INITIAL := Memo("", "", false, false, false, false)

  // ---------------------------------------------------------------------
  // What each operation does, as a function of the environment and the
  // globals

  /** What a check returns, the globals it leaves and the events it adds
      to the log; checks leave the channel directories alone. */
  datatype Checked = Checked(result: Result, memo: Memo, log: seq<Event>)

  /** The check `d`, run after events `log`. */
  function CheckAfter(log: seq<Event>, d: Checked): Checked
  {
    Checked(d.result, d.memo, log + d.log)
  }

  /** `call(*argv)`: a subprocess that cannot be started or exits with a
      nonzero status raises "Could not call subprocess.". */
  function CallResult(h: Host, argv: seq<string>): Result
  {
    if h.Succeeds(argv) then Done else Failed(CallFailed)
  }

  /** `check_files()`, given what its tests find. */
  function CheckFilesSpec(s: Survey, m: Memo): Checked
  {
    if m.files then Checked(Done, m, [])
    else if s.passed then Checked(Done, m.(files := true), s.log)
    else Checked(Failed(WrongDirectory), m, s.log)
  }

  /** The part of `check_config()` after `check_files()`: the file test,
      the read and the two lookups. The godot command is stored even when
      the butler lookup then fails. */
  function ReadConfig(h: Host, m: Memo): Checked
  {
    if CONFIG_PATH !in h.files then Checked(Failed(NoConfig), m, [TestFile(CONFIG_PATH)])
    else
      var log := [TestFile(CONFIG_PATH), Read(CONFIG_PATH)];
      match h.config
      case Undecodable => Checked(Crashed, m, log)
      case Unparsable => Checked(Failed(BadConfig), m, log)
      case Parsed(g, b) =>
        if g.None? then Checked(Failed(BadConfig), m, log)
        else if b.None? then Checked(Failed(BadConfig), m.(godot := g.value), log)
        else Checked(Done, m.(godot := g.value, butler := b.value, config := true), log)
  }

  /** `check_config()`. */
  function CheckConfigSpec(h: Host, s: Survey, m: Memo): Checked
  {
    if m.config then Checked(Done, m, [])
    else
      var c := CheckFilesSpec(s, m);
      if c.result != Done then c else CheckAfter(c.log, ReadConfig(h, c.memo))
  }

  /** `check_godot()`. */
  function CheckGodotSpec(h: Host, s: Survey, m: Memo): Checked
  {
    if m.godotOk then Checked(Done, m, [])
    else
      var c := CheckConfigSpec(h, s, m);
      var argv := [c.memo.godot, "--version"];
      if c.result != Done then c
      else CheckAfter(c.log, Checked(CallResult(h, argv), c.memo.(godotOk := h.Succeeds(argv)), [Call(argv)]))
  }

  /** `check_butler()`. */
  function CheckButlerSpec(h: Host, s: Survey, m: Memo): Checked
  {
    if m.butlerOk then Checked(Done, m, [])
    else
      var c := CheckConfigSpec(h, s, m);
      var argv := [c.memo.butler, "version"];
      if c.result != Done then c
      else CheckAfter(c.log, Checked(CallResult(h, argv), c.memo.(butlerOk := h.Succeeds(argv)), [Call(argv)]))
  }

  /** `check_channel(channel)`. */
  function CheckChannelSpec(s: Survey, m: Memo, channel: string): Checked
  {
    var c := CheckFilesSpec(s, m);
    if c.result != Done || channel in CHANNELS then c else Checked(Failed(UnknownChannel(channel)), c.memo, c.log)
  }

  /** What an operation returns, the globals and channel directories it
      leaves and the events it adds to the log. */
  datatype Effect = Effect(result: Result, memo: Memo, outputs: map<string, Node>, log: seq<Event>)

  /** The check `c` as an operation that changes no directory. */
  function Halt(c: Checked, out: map<string, Node>): Effect
  {
    Effect(c.result, c.memo, out, c.log)
  }

  /** The operation `e`, run after events `log`. */
  function After(log: seq<Event>, e: Effect): Effect
  {
    Effect(e.result, e.memo, e.outputs, log + e.log)
  }

  /** How `clean_channel` reports the fault that stopped `clean_dir`: the
      `BuildError`s pass through, an `OSError` becomes "Could not clean
      channel". */
  function CleanResult(channel: string, fault: Option<Fault>): Result
  {
    match fault
    case None => Done
    case Some(DepthExceeded(p)) => Failed(CleaningTooDeep(p))
    case Some(BrokenEntry(p)) => Failed(BrokenDirectoryEntry(p))
    case Some(OSFailure) => Failed(CleanFailed(channel))
  }

  /** `os.scandir` can list the channel directory. */
  predicate Listable(out: map<string, Node>, channel: string)
  {
    channel in out && Opens(out[channel])
  }

  /** The `try: clean_dir(channel)` part of `clean_channel`; a channel
      directory that cannot be listed is an `OSError` too. */
  function CleanDirSpec(m: Memo, out: map<string, Node>, channel: string): (e: Effect)
    ensures e.result == Done ==> Listable(e.outputs, channel)
  {
    if !Listable(out, channel) then Effect(Failed(CleanFailed(channel)), m, out, [])
    else
      var w := Sweep(channel, Listing(out[channel]), 0);
      Effect(CleanResult(channel, w.fault), m, out[channel := Relisted(out[channel], w.kept)], w.log)
  }

  /** `clean_channel(channel)`. */
  function CleanChannelSpec(s: Survey, m: Memo, out: map<string, Node>, channel: string): (e: Effect)
    ensures e.result == Done ==> Listable(e.outputs, channel)
  {
    var c := CheckChannelSpec(s, m, channel);
    if c.result != Done then Halt(c, out) else After(c.log, CleanDirSpec(c.memo, out, channel))
  }

  /** The channel directory after the EULA was copied to `readme.md` in
      it, replacing a file of that name. */
  function WithReadme(d: Node): Node
    requires Opens(d)
  {
    Relisted(d, Put(Listing(d), Entry(README, File(false))))
  }

  /** The export call and the EULA copy of `export_channel`. */
  function BuildSpec(h: Host, m: Memo, out: map<string, Node>, channel: string): Effect
    requires Listable(out, channel)
  {
    var argv := ExportArgv(m.godot, channel);
    if !h.Succeeds(argv) then Effect(Failed(CallFailed), m, out, [Call(argv)])
    else
      var log := [Call(argv), Copy(EULA, ReadmePath(channel))];
      if !h.CopySucceeds(EULA, ReadmePath(channel)) then Effect(Crashed, m, out, log)
      else Effect(Done, m, out[channel := WithReadme(out[channel])], log)
  }

  /** The part of `export_channel` after its checks. */
  function ExportCleanSpec(h: Host, s: Survey, m: Memo, out: map<string, Node>, channel: string): Effect
  {
    var c := CleanChannelSpec(s, m, out, channel);
    if c.result != Done then c
    else After(c.log, BuildSpec(h, c.memo, c.outputs, channel))
  }

  /** `export_channel(channel)`. */
  function ExportChannelSpec(h: Host, s: Survey, m: Memo, out: map<string, Node>, channel: string): Effect
  {
    var c := CheckChannelSpec(s, m, channel);
    if c.result != Done then Halt(c, out)
    else
      var g := CheckGodotSpec(h, s, c.memo);
      if g.result != Done then Halt(CheckAfter(c.log, g), out)
      else After(c.log + g.log, ExportCleanSpec(h, s, g.memo, out, channel))
  }

  /** `publish_channel(channel)`. */
  function PublishChannelSpec(h: Host, s: Survey, m: Memo, out: map<string, Node>, channel: string): Effect
  {
    var c := CheckChannelSpec(s, m, channel);
    if c.result != Done then Halt(c, out)
    else
      var b := CheckButlerSpec(h, s, c.memo);
      var argv := PushArgv(b.memo.butler, channel);
      if b.result != Done then Halt(CheckAfter(c.log, b), out)
      else Effect(CallResult(h, argv), b.memo, out, c.log + b.log + [Call(argv)])
  }

  /** The functions `for_channels` is given. */
  datatype Op = CleanOp | ExportOp | PublishOp

  function OpSpec(h: Host, s: Survey, m: Memo, out: map<string, Node>, op: Op, channel: string): Effect
  {
    match op
    case CleanOp => CleanChannelSpec(s, m, out, channel)
    case ExportOp => ExportChannelSpec(h, s, m, out, channel)
    case PublishOp => PublishChannelSpec(h, s, m, out, channel)
  }

  /** The first n iterations of `for_channels(cs, op)`; an error ends the
      loop. */
  function ForChannelsSpec(h: Host, s: Survey, m: Memo, out: map<string, Node>, op: Op, cs: seq<string>, n: nat): Effect
    requires n <= |cs|
  {
    if n == 0 then Effect(Done, m, out, [])
    else
      var p := ForChannelsSpec(h, s, m, out, op, cs, n - 1);
      if p.result != Done then p else After(p.log, OpSpec(h, s, p.memo, p.outputs, op, cs[n - 1]))
  }

  /** `for_channels(cs, op)`. */
  function AllOf(h: Host, s: Survey, m: Memo, out: map<string, Node>, op: Op, cs: seq<string>): Effect
  {
    ForChannelsSpec(h, s, m, out, op, cs, |cs|)
  }

  /** Once an iteration has failed the loop's outcome is settled. */
  lemma {:induction false} ForChannelsStops(h: Host, s: Survey, m: Memo, out: map<string, Node>, op: Op, cs: seq<string>, i: nat, n: nat)
    requires i <= n <= |cs| && (i < n ==> ForChannelsSpec(h, s, m, out, op, cs, i).result != Done)
    ensures ForChannelsSpec(h, s, m, out, op, cs, n) == ForChannelsSpec(h, s, m, out, op, cs, i)
    decreases n
  {
    if i < n {
      ForChannelsStops(h, s, m, out, op, cs, i, n - 1);
    }
  }

  /** `e` is what the first n iterations of `for_channels(cs, op)` do.
      The equation sits under a quantifier so that a proof about one
      iteration does not unfold the ones before it. */
  ghost predicate Iterated(h: Host, s: Survey, m: Memo, out: map<string, Node>, op: Op, cs: seq<string>, n: nat, e: Effect)
  {
    forall k {:trigger ForChannelsSpec(h, s, m, out, op, cs, k)} :: k == n && k <= |cs| ==> ForChannelsSpec(h, s, m, out, op, cs, k) == e
  }

  /** The loop has done what `for_channels` does once it ran out of
      channels or an iteration failed. */
  lemma ForChannelsDone(h: Host, s: Survey, m: Memo, out: map<string, Node>, op: Op, cs: seq<string>, n: nat, e: Effect)
    requires n <= |cs| && Iterated(h, s, m, out, op, cs, n, e) && (n == |cs| || e.result != Done)
    ensures AllOf(h, s, m, out, op, cs) == e
  {
    assert ForChannelsSpec(h, s, m, out, op, cs, n) == e;
    ForChannelsStops(h, s, m, out, op, cs, n, |cs|);
  }

  /** The passcode `publish_all_channels` asks for, for the random number
      n. */
  function Passcode(n: nat): string
  {
    "v" + VERSION + ":" + Decimal(n)
  }

  /** `publish_all_channels()`, given the number `random.randint` drew and
      the line the user typed, or `None` when standard input is at its
      end: `input` then raises `EOFError`, which nothing catches, before
      anything is done. */
  function PublishAllSpec(h: Host, s: Survey, m: Memo, out: map<string, Node>, n: nat, prompt: Option<string>): Effect
  {
    match prompt
    case None => Effect(Crashed, m, out, [])
    case Some(line) => if line != Passcode(n) then Effect(Done, m, out, []) else ReleaseSpec(h, s, m, out)
  }

  /** What `publish_all_channels()` does once the passcode matches: every
      channel is exported, then every channel is published. */
  function ReleaseSpec(h: Host, s: Survey, m: Memo, out: map<string, Node>): Effect
  {
    var e := AllOf(h, s, m, out, ExportOp, CHANNELS);
    if e.result != Done then e else After(e.log, AllOf(h, s, e.memo, e.outputs, PublishOp, CHANNELS))
  }

  /** What `run_command` does with its arguments. */
  datatype Command = CleanAll | ExportAll | PublishAll | CleanSome(cs: seq<string>) | ExportSome(cs: seq<string>) | BadUsage

  /** `run_command`'s choice: a word alone, or `clean`/`export` followed
      by at least one channel; anything else is a usage error. */
  function ParseCommand(command: seq<string>): (c: Command)
    ensures c == CleanAll <==> command == ["clean"]
    ensures c == ExportAll <==> command == ["export"]
    ensures c == PublishAll <==> command == ["publish"]
    ensures c.CleanSome? <==> |command| > 1 && command[0] == "clean"
    ensures c.ExportSome? <==> |command| > 1 && command[0] == "export"
    ensures c.CleanSome? || c.ExportSome? ==> c.cs == command[1..]
    ensures c == BadUsage <==> !(command in {["clean"], ["export"], ["publish"]})
                               && !(|command| > 1 && command[0] in {"clean", "export"})
  {
    if |command| == 1 then
      if command[0] == "clean" then CleanAll
      else if command[0] == "export" then ExportAll
      else if command[0] == "publish" then PublishAll
      else BadUsage
    else if |command| > 1 then
      if command[0] == "clean" then CleanSome(command[1..])
      else if command[0] == "export" then ExportSome(command[1..])
      else BadUsage
    else BadUsage
  }

  /** `run_command(command)`. */
  function RunCommandSpec(h: Host, s: Survey, m: Memo, out: map<string, Node>, command: seq<string>, n: nat, prompt: Option<string>): Effect
  {
    match ParseCommand(command)
    case CleanAll => AllOf(h, s, m, out, CleanOp, CHANNELS)
    case ExportAll => AllOf(h, s, m, out, ExportOp, CHANNELS)
    case PublishAll => PublishAllSpec(h, s, m, out, n, prompt)
    case CleanSome(cs) => AllOf(h, s, m, out, CleanOp, cs)
    case ExportSome(cs) => AllOf(h, s, m, out, ExportOp, cs)
    case BadUsage => Effect(Failed(Usage), m, out, [])
  }

  // ---------------------------------------------------------------------
  // The script

  class Script {
    /** The machine the script runs on, in `etc/builds/`. */
    const host: Host
    /** What the tests of `check_files` find on `host`. */
    ghost const survey: Survey
    var godot: string
    var butler: string
    var hasCheckedFiles: bool
    var hasCheckedConfig: bool
    var hasCheckedGodot: bool
    var hasCheckedButler: bool

    /** `survey` is what the file tests find on `host`. */
    ghost predicate Surveyed()
    {
      forall h {:trigger SurveyOf(h)} :: h == host ==> survey == SurveyOf(h)
    }

    function Globals(): Memo
      reads this
    {
      Memo(godot, butler, hasCheckedFiles, hasCheckedConfig, hasCheckedGodot, hasCheckedButler)
    }

    /** The globals as the module defines them. */
    constructor (host: Host)
      ensures this.host == host && Surveyed() && Globals() == INITIAL
    {
      this.host := host;
      survey := SurveyOf(host);
      godot, butler := "", "";
      hasCheckedFiles, hasCheckedConfig, hasCheckedGodot, hasCheckedButler := false, false, false, false;
    }

    method Note(e: Event)
      modifies host`trace
      ensures host.trace == old(host.trace) + [e]
    {
      host.trace := host.trace + [e];
    }

    /** `call(*argv)`. */
    method Invoke(argv: seq<string>) returns (r: Result)
      modifies host`trace
      ensures r == CallResult(host, argv) && host.trace == old(host.trace) + [Call(argv)]
    {
      Note(Call(argv));
      r := if argv in host.exitCodes && host.exitCodes[argv] == 0 then Done else Failed(CallFailed);
    }

    /** The loop of `check_files`: each required file in turn, until one
        is missing. */
    method ScanRequired() returns (ok: bool)
      requires Surveyed()
      modifies host`trace
      ensures ok == survey.passed && host.trace == old(host.trace) + survey.log
    {
      var paths := RequiredFiles();
      ghost var tests := FileTests(host, paths);
      ok := true;
      var i := 0;
      while i < |paths| && ok
        invariant 0 <= i <= |paths|
        invariant ok ==> host.trace == old(host.trace) + Events(tests[..i]) && AllPass(tests[..i])
        invariant !ok ==> host.trace == old(host.trace) + Trail(tests) && !AllPass(tests)
      {
        var path := paths[i];
        FileTestsAt(host, paths, i);
        Note(TestFile(path));
        assert tests[..i + 1] == tests[..i] + [tests[i]];
        if path !in host.files {
          TrailStopsAt(tests, i);
          ok := false;
        }
        i := i + 1;
      }
      if ok {
        assert tests[..|tests|] == tests;
        TrailAllPass(tests);
      }
      assert survey == SurveyOf(host);
    }

    /** `check_files()`. */
    method CheckFiles() returns (r: Result)
      requires Surveyed()
      modifies this`hasCheckedFiles, host`trace
      ensures var c := CheckFilesSpec(survey, old(Globals()));
              r == c.result && Globals() == c.memo && host.trace == old(host.trace) + c.log
    {
      if hasCheckedFiles {
        return Done;
      }
      var ok := ScanRequired();
      if !ok {
        return Failed(WrongDirectory);
      }
      hasCheckedFiles := true;
      r := Done;
    }

    /** `check_config()`. */
    method CheckConfig() returns (r: Result)
      requires Surveyed()
      modifies this`hasCheckedFiles, this`hasCheckedConfig, this`godot, this`butler, host`trace
      ensures var c := CheckConfigSpec(host, survey, old(Globals()));
              r == c.result && Globals() == c.memo && host.trace == old(host.trace) + c.log
    {
      if hasCheckedConfig {
        return Done;
      }
      r := CheckFiles();
      if r != Done {
        return;
      }
      Note(TestFile(CONFIG_PATH));
      if CONFIG_PATH !in host.files {
        return Failed(NoConfig);
      }
      Note(Read(CONFIG_PATH));
      if host.config.Undecodable? {
        return Crashed;
      }
      if host.config.Unparsable? || host.config.godot.None? {
        return Failed(BadConfig);
      }
      godot := host.config.godot.value;
      if host.config.butler.None? {
        return Failed(BadConfig);
      }
      butler := host.config.butler.value;
      hasCheckedConfig := true;
    }

    /** `check_godot()`. */
    method CheckGodot() returns (r: Result)
      requires Surveyed()
      modifies this`hasCheckedFiles, this`hasCheckedConfig, this`godot, this`butler, this`hasCheckedGodot, host`trace
      ensures var c := CheckGodotSpec(host, survey, old(Globals()));
              r == c.result && Globals() == c.memo && host.trace == old(host.trace) + c.log
    {
      if hasCheckedGodot {
        return Done;
      }
      r := CheckConfig();
      if r != Done {
        return;
      }
      r := Invoke([godot, "--version"]);
      hasCheckedGodot := r == Done;
    }

    /** `check_butler()`. */
    method CheckButler() returns (r: Result)
      requires Surveyed()
      modifies this`hasCheckedFiles, this`hasCheckedConfig, this`godot, this`butler, this`hasCheckedButler, host`trace
      ensures var c := CheckButlerSpec(host, survey, old(Globals()));
              r == c.result && Globals() == c.memo && host.trace == old(host.trace) + c.log
    {
      if hasCheckedButler {
        return Done;
      }
      r := CheckConfig();
      if r != Done {
        return;
      }
      r := Invoke([butler, "version"]);
      hasCheckedButler := r == Done;
    }

    /** `check_channel(channel)`. */
    method CheckChannel(channel: string) returns (r: Result)
      requires Surveyed()
      modifies this`hasCheckedFiles, host`trace
      ensures var c := CheckChannelSpec(survey, old(Globals()), channel);
              r == c.result && Globals() == c.memo && host.trace == old(host.trace) + c.log
    {
      r := CheckFiles();
      if r == Done && channel !in CHANNELS {
        r := Failed(UnknownChannel(channel));
      }
    }

    /** `clean_channel(channel)`: the channel directory is rewritten with
        what `clean_dir` leaves in it. */
    method CleanChannel(channel: string) returns (r: Result)
      requires Surveyed()
      modifies this`hasCheckedFiles, host`trace, host`outputs
      ensures var e := CleanChannelSpec(survey, old(Globals()), old(host.outputs), channel);
              r == e.result && Globals() == e.memo && host.outputs == e.outputs
              && host.trace == old(host.trace) + e.log
    {
      r := CheckChannel(channel);
      if r != Done {
        return;
      }
      if !(channel in host.outputs && Opens(host.outputs[channel])) {
        return Failed(CleanFailed(channel));
      }
      var d := host.outputs[channel];
      var kept, fault := CleanDir(host, channel, Listing(d), 0);
      host.outputs := host.outputs[channel := Relisted(d, kept)];
      r := match fault
        case None => Done
        case Some(DepthExceeded(p)) => Failed(CleaningTooDeep(p))
        case Some(BrokenEntry(p)) => Failed(BrokenDirectoryEntry(p))
        case Some(OSFailure) => Failed(CleanFailed(channel));
    }

    /** The export call and the EULA copy; a failing copy raises an
        `OSError` the script does not catch. */
    method Build(channel: string) returns (r: Result)
      requires Listable(host.outputs, channel)
      modifies host`trace, host`outputs
      ensures var e := BuildSpec(host, Globals(), old(host.outputs), channel);
              r == e.result && host.outputs == e.outputs && host.trace == old(host.trace) + e.log
    {
      r := Invoke(ExportArgv(godot, channel));
      if r != Done {
        return;
      }
      Note(Copy(EULA, ReadmePath(channel)));
      if !(EULA in host.files && ReadmePath(channel) !in host.copyFails) {
        return Crashed;
      }
      var d := host.outputs[channel];
      host.outputs := host.outputs[channel := Relisted(d, Put(Listing(d), Entry(README, File(false))))];
    }

    /** The cleaning, export call and copy of `export_channel`. */
    method ExportClean(channel: string) returns (r: Result)
      requires Surveyed()
      modifies this`hasCheckedFiles, host`trace, host`outputs
      ensures var e := ExportCleanSpec(host, survey, old(Globals()), old(host.outputs), channel);
              r == e.result && Globals() == e.memo && host.outputs == e.outputs
              && host.trace == old(host.trace) + e.log
    {
      r := CleanChannel(channel);
      if r == Done {
        r := Build(channel);
      }
    }

    /** `export_channel(channel)`. */
    method ExportChannel(channel: string) returns (r: Result)
      requires Surveyed()
      modifies this`hasCheckedFiles, this`hasCheckedConfig, this`godot, this`butler, this`hasCheckedGodot
      modifies host`trace, host`outputs
      ensures var e := ExportChannelSpec(host, survey, old(Globals()), old(host.outputs), channel);
              r == e.result && Globals() == e.memo && host.outputs == e.outputs
              && host.trace == old(host.trace) + e.log
    {
      r := CheckChannel(channel);
      if r == Done {
        r := CheckGodot();
        if r == Done {
          r := ExportClean(channel);
        }
      }
    }

    /** `publish_channel(channel)`. */
    method PublishChannel(channel: string) returns (r: Result)
      requires Surveyed()
      modifies this`hasCheckedFiles, this`hasCheckedConfig, this`godot, this`butler, this`hasCheckedButler
      modifies host`trace
      ensures var e := PublishChannelSpec(host, survey, old(Globals()), old(host.outputs), channel);
              r == e.result && Globals() == e.memo && host.outputs == e.outputs
              && host.trace == old(host.trace) + e.log
    {
      r := CheckChannel(channel);
      if r != Done {
        return;
      }
      r := CheckButler();
      if r != Done {
        return;
      }
      r := Invoke(PushArgv(butler, channel));
    }

    /** The function `for_channels` is given, applied to one channel. */
    method Apply(op: Op, channel: string) returns (r: Result)
      requires Surveyed()
      modifies this`hasCheckedFiles, this`hasCheckedConfig, this`godot, this`butler, this`hasCheckedGodot
      modifies this`hasCheckedButler, host`trace, host`outputs
      ensures var e := OpSpec(host, survey, old(Globals()), old(host.outputs), op, channel);
              r == e.result && Globals() == e.memo && host.outputs == e.outputs
              && host.trace == old(host.trace) + e.log
    {
      match op
      case CleanOp => r := CleanChannel(channel);
      case ExportOp => r := ExportChannel(channel);
      case PublishOp => r := PublishChannel(channel);
    }

    /** One iteration of `for_channels(cs, op)`, after `i` iterations
        that ended normally and logged `log`. */
    method ForNext(op: Op, cs: seq<string>, i: nat, ghost m0: Memo, ghost out0: map<string, Node>, ghost log: seq<Event>)
      returns (r: Result, ghost step: seq<Event>)
      requires Surveyed() && i < |cs|
      requires Iterated(host, survey, m0, out0, op, cs, i, Effect(Done, Globals(), host.outputs, log))
      modifies this`hasCheckedFiles, this`hasCheckedConfig, this`godot, this`butler, this`hasCheckedGodot
      modifies this`hasCheckedButler, host`trace, host`outputs
      ensures Iterated(host, survey, m0, out0, op, cs, i + 1, Effect(r, Globals(), host.outputs, log + step))
      ensures host.trace == old(host.trace) + step
    {
      ghost var o := OpSpec(host, survey, Globals(), host.outputs, op, cs[i]);
      assert ForChannelsSpec(host, survey, m0, out0, op, cs, i) == Effect(Done, Globals(), host.outputs, log);
      r := Apply(op, cs[i]);
      step := o.log;
    }

    /** `for_channels(cs, op)`: an error raised for one channel ends the
        loop. */
    method ForChannels(op: Op, cs: seq<string>) returns (r: Result)
      requires Surveyed()
      modifies this`hasCheckedFiles, this`hasCheckedConfig, this`godot, this`butler, this`hasCheckedGodot
      modifies this`hasCheckedButler, host`trace, host`outputs
      ensures var e := AllOf(host, survey, old(Globals()), old(host.outputs), op, cs);
              r == e.result && Globals() == e.memo && host.outputs == e.outputs
              && host.trace == old(host.trace) + e.log
    {
      ghost var m0, out0, t0 := Globals(), host.outputs, host.trace;
      ghost var log: seq<Event> := [];
      r := Done;
      var i := 0;
      assert ForChannelsSpec(host, survey, m0, out0, op, cs, 0) == Effect(Done, m0, out0, []);
      while i < |cs| && r == Done
        invariant 0 <= i <= |cs|
        invariant Iterated(host, survey, m0, out0, op, cs, i, Effect(r, Globals(), host.outputs, log))
        invariant host.trace == t0 + log
      {
        ghost var step;
        r, step := ForNext(op, cs, i, m0, out0, log);
        log := log + step;
        i := i + 1;
      }
      ForChannelsDone(host, survey, m0, out0, op, cs, i, Effect(r, Globals(), host.outputs, log));
    }

    /** `for_each_channel(op)`. */
    method ForEachChannel(op: Op) returns (r: Result)
      requires Surveyed()
      modifies this`hasCheckedFiles, this`hasCheckedConfig, this`godot, this`butler, this`hasCheckedGodot
      modifies this`hasCheckedButler, host`trace, host`outputs
      ensures var e := AllOf(host, survey, old(Globals()), old(host.outputs), op, CHANNELS);
              r == e.result && Globals() == e.memo && host.outputs == e.outputs
              && host.trace == old(host.trace) + e.log
    {
      r := ForChannels(op, CHANNELS);
    }

    /** `publish_all_channels()`; `code` is the number `random.randint`
        draws and `prompt` the line `input` reads, `None` at the end of
        standard input. */
    method PublishAllChannels(code: nat, prompt: Option<string>) returns (r: Result)
      requires Surveyed()
      modifies this`hasCheckedFiles, this`hasCheckedConfig, this`godot, this`butler, this`hasCheckedGodot
      modifies this`hasCheckedButler, host`trace, host`outputs
      ensures var e := PublishAllSpec(host, survey, old(Globals()), old(host.outputs), code, prompt);
              r == e.result && Globals() == e.memo && host.outputs == e.outputs
              && host.trace == old(host.trace) + e.log
    {
      var passcode := "v" + VERSION + ":" + Decimal(code);
      match prompt
      case None =>
        r := Crashed;
      case Some(line) =>
        if line == passcode {
          r := Release();
        } else {
          r := Done;
        }
    }

    /** The exports and pushes of `publish_all_channels()`. */
    method Release() returns (r: Result)
      requires Surveyed()
      modifies this`hasCheckedFiles, this`hasCheckedConfig, this`godot, this`butler, this`hasCheckedGodot
      modifies this`hasCheckedButler, host`trace, host`outputs
      ensures var e := ReleaseSpec(host, survey, old(Globals()), old(host.outputs));
              r == e.result && Globals() == e.memo && host.outputs == e.outputs
              && host.trace == old(host.trace) + e.log
    {
      ghost var t0 := host.trace;
      ghost var spec := ReleaseSpec(host, survey, Globals(), host.outputs);
      ghost var a := AllOf(host, survey, Globals(), host.outputs, ExportOp, CHANNELS);
      r := ForEachChannel(ExportOp);
      if r == Done {
        ghost var b := AllOf(host, survey, a.memo, a.outputs, PublishOp, CHANNELS);
        assert spec == After(a.log, b);
        r := ForEachChannel(PublishOp);
        assert host.trace == t0 + (a.log + b.log);
      } else {
        assert spec == a;
      }
    }

    /** `run_command(command)`. */
    method RunCommand(command: seq<string>, code: nat, prompt: Option<string>) returns (r: Result)
      requires Surveyed()
      modifies this`hasCheckedFiles, this`hasCheckedConfig, this`godot, this`butler, this`hasCheckedGodot
      modifies this`hasCheckedButler, host`trace, host`outputs
      ensures var e := RunCommandSpec(host, survey, old(Globals()), old(host.outputs), command, code, prompt);
              r == e.result && Globals() == e.memo && host.outputs == e.outputs
              && host.trace == old(host.trace) + e.log
    {
      if |command| == 1 {
        if command[0] == "clean" {
          r := ForEachChannel(CleanOp);
        } else if command[0] == "export" {
          r := ForEachChannel(ExportOp);
        } else if command[0] == "publish" {
          r := PublishAllChannels(code, prompt);
        } else {
          r := Failed(Usage);
        }
      } else if |command| > 1 {
        if command[0] == "clean" {
          r := ForChannels(CleanOp, command[1..]);
        } else if command[0] == "export" {
          r := ForChannels(ExportOp, command[1..]);
        } else {
          r := Failed(Usage);
        }
      } else {
        r := Failed(Usage);
      }
    }
  }
}
