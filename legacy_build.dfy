/** The build command of `build.py`: run from the repository root, it
    validates its working directory, loads the channel list from
    `builds/channels.txt` and the Godot Engine path from
    `builds/godot_path.txt`, caching each validation in a tri-state field,
    and cleans or exports one channel or all of them. */
module LegacyBuild {
  import opened Env
  import opened Text

  /** The tri-state of a cached validation: build.py's NO (-1), MAYBE (0)
      and YES (1). */
  datatype Tri = No | Maybe | Yes

  /** Once a state has left Maybe it keeps its value. */
  predicate Refines(before: Tri, after: Tri)
  {
    before != Maybe ==> after == before
  }

  /** What a build.py operation does: it returns True or False, or an
      exception that it does not catch escapes from it (and ends the
      script with a traceback). */
  datatype Status = Returned(ok: bool) | Raised

  const CHANNELS_PATH := "builds/channels.txt"
  const GODOT_PATH := "builds/godot_path.txt"
  const EULA_PATH := "docs/eula.md"
  /** The entry `clean_channel` keeps in each channel directory. */
  const PLACEHOLDER := ".empty"
  const LAYOUT_DIRS := ["builds", "docs"]
  const LAYOUT_FILES := ["build.py", "export_presets.cfg", "project.godot"]

  // ---------------------------------------------------------------------
  // The channel list

  /** One step of loading the channel list: the stripped line is added
      unless it is blank or already listed. */
  function Register(channels: seq<string>, line: string): seq<string>
  {
    var c := Strip(line);
    if c != "" && c !in channels then channels + [c] else channels
  }

  /** The channels that the lines of `builds/channels.txt` yield, in the
      order `has_channels` appends them. */
  function ChannelList(lines: seq<string>): seq<string>
  {
    if lines == [] then [] else Register(ChannelList(lines[..|lines| - 1]), lines[|lines| - 1])
  }

  /** Index of the first line that strips to c (|lines| when there is none). */
  function FirstLine(lines: seq<string>, c: string): (k: nat)
    ensures k <= |lines|
    ensures forall i :: 0 <= i < k ==> Strip(lines[i]) != c
    ensures k < |lines| ==> Strip(lines[k]) == c
  {
    if lines == [] then 0
    else if Strip(lines[0]) == c then 0
    else
      var k := 1 + FirstLine(lines[1..], c);
      assert forall i :: 1 <= i < k ==> lines[i] == lines[1..][i - 1];
      k
  }

  predicate Distinct(s: seq<string>)
  {
    forall i, j :: 0 <= i < j < |s| ==> s[i] != s[j]
  }

  /** A channel is listed exactly when it is non-blank and some line
      strips to it. */
  lemma {:induction false} ChannelListMembers(lines: seq<string>, c: string)
    ensures c in ChannelList(lines) <==> c != "" && exists i :: 0 <= i < |lines| && Strip(lines[i]) == c
    decreases |lines|
  {
    if lines != [] {
      var init := lines[..|lines| - 1];
      ChannelListMembers(init, c);
      assert forall i :: 0 <= i < |init| ==> init[i] == lines[i];
      if exists i :: 0 <= i < |lines| && Strip(lines[i]) == c {
        var i :| 0 <= i < |lines| && Strip(lines[i]) == c;
        if i < |init| { assert Strip(init[i]) == c; }
      }
    }
  }

  /** No channel is listed twice. */
  lemma {:induction false} ChannelListDistinct(lines: seq<string>)
    ensures Distinct(ChannelList(lines))
    decreases |lines|
  {
    if lines != [] {
      ChannelListDistinct(lines[..|lines| - 1]);
    }
  }

  /** Every listed channel is non-empty and has no whitespace at either
      end. */
  lemma ChannelListTrimmed(lines: seq<string>)
    ensures forall c :: c in ChannelList(lines) ==> c != "" && Trimmed(c)
  {
    forall c | c in ChannelList(lines) ensures c != "" && Trimmed(c) {
      ChannelListMembers(lines, c);
      var i :| 0 <= i < |lines| && Strip(lines[i]) == c;
      StripSplits(lines[i]);
    }
  }

  lemma FirstLineOfPrefix(lines: seq<string>, n: nat, c: string)
    requires n <= |lines| && FirstLine(lines[..n], c) < n
    ensures FirstLine(lines, c) == FirstLine(lines[..n], c)
  {
    var p, q := FirstLine(lines, c), FirstLine(lines[..n], c);
    assert lines[..n][q] == lines[q];
    forall i | 0 <= i < q ensures Strip(lines[i]) != c {
      assert lines[..n][i] == lines[i];
    }
    assert p <= q;
  }

  /** The channels are listed in the order in which they first appear in
      the file. */
  lemma {:induction false} ChannelListOrder(lines: seq<string>)
    ensures forall i, j :: 0 <= i < j < |ChannelList(lines)| ==>
              FirstLine(lines, ChannelList(lines)[i]) < FirstLine(lines, ChannelList(lines)[j])
    decreases |lines|
  {
    if lines != [] {
      var n := |lines| - 1;
      var init := lines[..n];
      var before := ChannelList(init);
      var r := ChannelList(lines);
      ChannelListOrder(init);
      assert lines[..n] == init;
      forall c | c in before ensures FirstLine(lines, c) == FirstLine(init, c) < n {
        ChannelListMembers(init, c);
        var i :| 0 <= i < n && Strip(init[i]) == c;
        FirstLineOfPrefix(lines, n, c);
      }
      if r != before {
        var x := Strip(lines[n]);
        assert r == before + [x] && x !in before && x != "";
        ChannelListMembers(init, x);
        forall i | 0 <= i < n ensures Strip(lines[i]) != x {
          assert init[i] == lines[i];
        }
        assert FirstLine(lines, x) == n;
        forall i, j | 0 <= i < j < |r|
          ensures FirstLine(lines, r[i]) < FirstLine(lines, r[j])
        {
          assert r[i] in before;
          if j < |before| { assert r[j] in before; }
        }
      } else {
        forall i, j | 0 <= i < j < |r|
          ensures FirstLine(lines, r[i]) < FirstLine(lines, r[j])
        {
          assert r[i] in before && r[j] in before;
        }
      }
    }
  }

  // ---------------------------------------------------------------------
  // What the environment offers, independently of the command's state

  function DirTest(h: Host, path: string): Test
  {
    Test(TestDir(path), path in h.dirs)
  }

  function FileTest(h: Host, path: string): Test
  {
    Test(TestFile(path), path in h.files)
  }

  /** `os.path.isdir(path)` when `dir` holds, `os.path.isfile(path)`
      otherwise. */
  function ExistenceTest(h: Host, path: string, dir: bool): Test
  {
    if dir then DirTest(h, path) else FileTest(h, path)
  }

  /** The tests of a loop over `paths`, one per path, in order. */
  function ExistenceTests(h: Host, paths: seq<string>, dir: bool): (tests: seq<Test>)
    ensures |tests| == |paths|
  {
    if paths == [] then [] else [ExistenceTest(h, paths[0], dir)] + ExistenceTests(h, paths[1..], dir)
  }

  lemma {:induction false} ExistenceTestsAt(h: Host, paths: seq<string>, dir: bool, i: nat)
    requires i < |paths|
    ensures ExistenceTests(h, paths, dir)[i] == ExistenceTest(h, paths[i], dir)
  {
    if i > 0 {
      ExistenceTestsAt(h, paths[1..], dir, i - 1);
    }
  }

  /** The tests of the first loop of `has_correct_dir`. */
  function DirTests(h: Host): seq<Test>
  {
    ExistenceTests(h, LAYOUT_DIRS, true)
  }

  /** The tests of the second loop of `has_correct_dir`. */
  function FileTests(h: Host): seq<Test>
  {
    ExistenceTests(h, LAYOUT_FILES, false)
  }

  /** The tests `has_correct_dir` performs, in order. */
  function LayoutTests(h: Host): seq<Test>
  {
    DirTests(h) + FileTests(h)
  }

  /** The working directory is the repository root: it holds the
      directories and files `has_correct_dir` looks for. */
  predicate LayoutPresent(h: Host)
  {
    && "builds" in h.dirs && "docs" in h.dirs
    && "build.py" in h.files && "export_presets.cfg" in h.files && "project.godot" in h.files
  }

  /** The layout tests all pass exactly when the layout is present. */
  lemma LayoutTestsPass(h: Host)
    ensures AllPass(LayoutTests(h)) <==> LayoutPresent(h)
  {
    var tests := LayoutTests(h);
    ExistenceTestsAt(h, LAYOUT_DIRS, true, 0);
    ExistenceTestsAt(h, LAYOUT_DIRS, true, 1);
    ExistenceTestsAt(h, LAYOUT_FILES, false, 0);
    ExistenceTestsAt(h, LAYOUT_FILES, false, 1);
    ExistenceTestsAt(h, LAYOUT_FILES, false, 2);
    assert tests[0] == DirTest(h, "builds") && tests[1] == DirTest(h, "docs");
    assert tests[2] == FileTest(h, "build.py") && tests[3] == FileTest(h, "export_presets.cfg");
    assert tests[4] == FileTest(h, "project.godot");
  }

  /** The channels `builds/channels.txt` yields when it can be read. */
  function ListedChannels(h: Host): seq<string>
  {
    if CHANNELS_PATH in h.texts then ChannelList(ReadLines(h.texts[CHANNELS_PATH])) else []
  }

  /** `has_channels` can succeed. */
  predicate ChannelsAvailable(h: Host)
  {
    LayoutPresent(h) && CHANNELS_PATH in h.files && CHANNELS_PATH in h.texts && ListedChannels(h) != []
  }

  /** The Godot Engine path `builds/godot_path.txt` holds, stripped. */
  function GodotPath(h: Host): string
  {
    if GODOT_PATH in h.texts then Strip(ReadText(h.texts[GODOT_PATH])) else ""
  }

  /** `has_godot` can succeed: the path is non-empty, names a file and the
      `--version` probe of that file exits with 0. */
  predicate GodotAvailable(h: Host)
  {
    && LayoutPresent(h) && GODOT_PATH in h.files && GODOT_PATH in h.texts
    && GodotPath(h) != "" && GodotPath(h) in h.files && h.Succeeds([GodotPath(h), "--version"])
  }

  /** The events of `has_channels` after `has_correct_dir` has passed. */
  function ChannelSourceTrail(h: Host): seq<Event>
  {
    [TestFile(CHANNELS_PATH)] + (if CHANNELS_PATH in h.files then [Read(CHANNELS_PATH)] else [])
  }

  /** The events of `has_godot` after `has_correct_dir` has passed. */
  function GodotSourceTrail(h: Host): seq<Event>
  {
    [TestFile(GODOT_PATH)]
    + if GODOT_PATH !in h.files then []
      else [Read(GODOT_PATH)]
           + if GODOT_PATH !in h.texts || GodotPath(h) == "" then []
             else [TestFile(GodotPath(h))]
                  + if GodotPath(h) !in h.files then [] else [Call([GodotPath(h), "--version"])]
  }

  /** What the three cached checks find in the environment: whether each
      can pass, what it yields, and the events it performs once the
      checks it depends on have passed. None of this depends on the
      command's state. */
  datatype Facts = Facts(
    layout: bool, layoutTrail: seq<Event>,
    channelsOk: bool, listed: seq<string>, channelTrail: seq<Event>,
    godotOk: bool, godotPath: string, godotTrail: seq<Event>)

  /** The facts behind `has_correct_dir`. */
  function LayoutOf(h: Host): (bool, seq<Event>)
  {
    (LayoutPresent(h), Trail(LayoutTests(h)))
  }

  /** The facts behind `has_channels`. */
  function ChannelsOf(h: Host): (bool, seq<string>, seq<Event>)
  {
    (ChannelsAvailable(h), ListedChannels(h), ChannelSourceTrail(h))
  }

  /** The facts behind `has_godot`. */
  function GodotOf(h: Host): (bool, string, seq<Event>)
  {
    (GodotAvailable(h), GodotPath(h), GodotSourceTrail(h))
  }

  function FactsOf(h: Host): Facts
  {
    Facts(LayoutOf(h).0, LayoutOf(h).1,
          ChannelsOf(h).0, ChannelsOf(h).1, ChannelsOf(h).2,
          GodotOf(h).0, GodotOf(h).1, GodotOf(h).2)
  }

  /** The events `has_correct_dir` performs from the given state. */
  function LayoutTrailFrom(f: Facts, dir: Tri): seq<Event>
  {
    if dir == Maybe then f.layoutTrail else []
  }

  /** The events `has_channels` performs from the given states. */
  function ChannelsTrailFrom(f: Facts, dir: Tri, chans: Tri): seq<Event>
  {
    if chans != Maybe then []
    else LayoutTrailFrom(f, dir) + (if f.layout then f.channelTrail else [])
  }

  /** The events `has_godot` performs from the given states. */
  function GodotTrailFrom(f: Facts, dir: Tri, godot: Tri): seq<Event>
  {
    if godot != Maybe then []
    else LayoutTrailFrom(f, dir) + (if f.layout then f.godotTrail else [])
  }

  /** The layout tests are existence tests of the layout paths and
      nothing else. */
  lemma LayoutTrailTests(h: Host)
    ensures forall e :: e in Trail(LayoutTests(h)) ==>
              (e.TestDir? && e.path in LAYOUT_DIRS) || (e.TestFile? && e.path in LAYOUT_FILES)
  {
    var dirs, files := DirTests(h), FileTests(h);
    var tests := dirs + files;
    TrailPrefix(tests);
    forall e | e in Trail(tests)
      ensures (e.TestDir? && e.path in LAYOUT_DIRS) || (e.TestFile? && e.path in LAYOUT_FILES)
    {
      var i :| 0 <= i < |Trail(tests)| && Trail(tests)[i] == e;
      if i < |dirs| {
        assert tests[i] == dirs[i];
        ExistenceTestsAt(h, LAYOUT_DIRS, true, i);
      } else {
        assert tests[i] == files[i - |dirs|];
        ExistenceTestsAt(h, LAYOUT_FILES, false, i - |dirs|);
      }
    }
  }

  /** With the wrong working directory, `has_channels` and `has_godot`
      only test the layout: they read no file and run no subprocess. */
  lemma WrongDirOnlyTests(h: Host, dir: Tri, state: Tri)
    requires !LayoutPresent(h)
    ensures forall e :: e in ChannelsTrailFrom(FactsOf(h), dir, state) ==> e.TestDir? || e.TestFile?
    ensures forall e :: e in GodotTrailFrom(FactsOf(h), dir, state) ==> e.TestDir? || e.TestFile?
  {
    var f := FactsOf(h);
    LayoutTrailTests(h);
    if state == Maybe {
      assert ChannelsTrailFrom(f, dir, state) == LayoutTrailFrom(f, dir) + [];
      assert GodotTrailFrom(f, dir, state) == LayoutTrailFrom(f, dir) + [];
    }
  }

  /** The layout tests run no subprocess. */
  lemma LayoutTrailCallFree(h: Host, dir: Tri)
    ensures forall i :: 0 <= i < |LayoutTrailFrom(FactsOf(h), dir)| ==> !LayoutTrailFrom(FactsOf(h), dir)[i].Call?
  {
    var a := LayoutTrailFrom(FactsOf(h), dir);
    LayoutTrailTests(h);
    forall i | 0 <= i < |a| ensures !a[i].Call? {
      assert a[i] in a;
    }
  }

  /** Loading the channel list runs no subprocess. */
  lemma ChannelsTrailCallsNothing(h: Host, dir: Tri, chans: Tri)
    ensures Launches(ChannelsTrailFrom(FactsOf(h), dir, chans)) == []
    ensures forall flag :: Probes(ChannelsTrailFrom(FactsOf(h), dir, chans), flag) == 0
  {
    var f := FactsOf(h);
    var t := ChannelsTrailFrom(f, dir, chans);
    var a := LayoutTrailFrom(f, dir);
    LayoutTrailCallFree(h, dir);
    forall i | 0 <= i < |t| ensures !t[i].Call? {
      if i >= |a| {
        assert t[i] == ChannelSourceTrail(h)[i - |a|];
      } else {
        assert t[i] == a[i];
      }
    }
    CallFree(t);
  }

  /** After the layout check `has_godot` runs one subprocess at most: the
      `--version` probe. */
  lemma GodotSourceProbes(h: Host)
    ensures Probes(GodotSourceTrail(h), "--version") <= 1 && Launches(GodotSourceTrail(h)) == []
  {
    var b := GodotSourceTrail(h);
    assert forall i :: 0 <= i < |b| && i != 3 ==> !b[i].Call?;
    ProbesAtMostOnce(b, "--version", 3);
    LaunchFree(b);
  }

  // ---------------------------------------------------------------------
  // Cleaning one channel directory

  /** Result of cleaning a listing: the entries left, the deletions tried
      and the outcome. */
  datatype Wiped = Wiped(kept: seq<Entry>, log: seq<Event>, status: Status)

  /** `shutil.rmtree` removes the entry and everything below it only when
      it is a real directory (it refuses a symbolic link), every directory
      of the subtree can be listed and the OS lets every entry of the
      subtree be deleted. */
  predicate Deletable(n: Node)
  {
    !n.locked && !n.Sealed? && (n.Dir? ==> forall i :: 0 <= i < |n.entries| ==> Deletable(n.entries[i].node))
  }

  /** The deletion `clean_channel` tries for an entry at `path`: what
      `os.path.isdir` calls a directory goes to `shutil.rmtree`, anything
      else to `os.remove`. */
  function Attempt(path: string, n: Node): Event
  {
    if ResolvesToDir(n) then RemoveTree(path) else Remove(path)
  }

  /** How that deletion ends: an `rmtree` failure escapes, since only
      `shutil.Error` is caught; an `os.remove` failure makes the channel
      fail. */
  function AttemptStatus(n: Node): Status
  {
    if ResolvesToDir(n) then (if n.Dir? && Deletable(n) then Returned(true) else Raised)
    else if n.locked then Returned(false)
    else Returned(true)
  }

  /** `clean_channel`'s loop over the entries of `builds/<channel>` (named
      with the prefix `base`): the placeholder is skipped, every other
      entry is deleted, and the first deletion that fails ends the loop. */
  function WipeFrom(base: string, es: seq<Entry>): (w: Wiped)
  {
    if es == [] then Wiped([], [], Returned(true))
    else
      var e := es[0];
      if e.name == PLACEHOLDER then
        var w := WipeFrom(base, es[1..]);
        Wiped([e] + w.kept, w.log, w.status)
      else
        var d := Attempt(base + "/" + e.name, e.node);
        if AttemptStatus(e.node) != Returned(true) then Wiped(es, [d], AttemptStatus(e.node))
        else
          var w := WipeFrom(base, es[1..]);
          Wiped(w.kept, [d] + w.log, w.status)
  }

  /** Cleaning tries deletions and nothing else. */
  lemma {:induction false} WipeOnlyDeletes(base: string, es: seq<Entry>)
    ensures OnlyDeletions(WipeFrom(base, es).log)
    decreases |es|
  {
    if es != [] {
      WipeOnlyDeletes(base, es[1..]);
    }
  }

  /** The result of cleaning the remaining entries after `kept` was kept
      and `log` performed. */
  function After(kept: seq<Entry>, log: seq<Event>, w: Wiped): Wiped
  {
    Wiped(kept + w.kept, log + w.log, w.status)
  }

  lemma AfterKeep(kept: seq<Entry>, log: seq<Event>, e: Entry, w: Wiped)
    ensures After(kept, log, Wiped([e] + w.kept, w.log, w.status)) == After(kept + [e], log, w)
  {
    assert kept + ([e] + w.kept) == (kept + [e]) + w.kept;
  }

  lemma AfterLog(kept: seq<Entry>, log: seq<Event>, d: Event, w: Wiped)
    ensures After(kept, log, Wiped(w.kept, [d] + w.log, w.status)) == After(kept, log + [d], w)
  {
    assert log + ([d] + w.log) == (log + [d]) + w.log;
  }

  /** One step of the cleaning loop at position i. */
  lemma WipeStep(base: string, es: seq<Entry>, i: nat)
    requires i < |es|
    ensures var e := es[i];
            var d := Attempt(base + "/" + e.name, e.node);
            var w := WipeFrom(base, es[i + 1..]);
            WipeFrom(base, es[i..]) ==
              if e.name == PLACEHOLDER then Wiped([e] + w.kept, w.log, w.status)
              else if AttemptStatus(e.node) != Returned(true) then Wiped(es[i..], [d], AttemptStatus(e.node))
              else Wiped(w.kept, [d] + w.log, w.status)
  {
    assert es[i..][0] == es[i] && es[i..][1..] == es[i + 1..];
  }

  /** An entry `clean_channel` can get rid of. */
  predicate Wipeable(e: Entry)
  {
    e.name == PLACEHOLDER || AttemptStatus(e.node) == Returned(true)
  }

  function Placeholders(es: seq<Entry>): seq<Entry>
  {
    if es == [] then []
    else (if es[0].name == PLACEHOLDER then [es[0]] else []) + Placeholders(es[1..])
  }

  /** Cleaning succeeds exactly when every entry can be deleted or is the
      placeholder; it then leaves the placeholder entries and nothing
      else. */
  lemma {:induction false} WipeOutcome(base: string, es: seq<Entry>)
    ensures WipeFrom(base, es).status == Returned(true) <==> forall i :: 0 <= i < |es| ==> Wipeable(es[i])
    ensures WipeFrom(base, es).status == Returned(true) ==> WipeFrom(base, es).kept == Placeholders(es)
    decreases |es|
  {
    if es != [] {
      WipeOutcome(base, es[1..]);
      assert forall i :: 1 <= i < |es| ==> es[i] == es[1..][i - 1];
      if forall i :: 0 <= i < |es[1..]| ==> Wipeable(es[1..][i]) {
        forall i | 0 <= i < |es| && Wipeable(es[0]) ensures Wipeable(es[i]) {
          if i > 0 { assert es[i] == es[1..][i - 1]; }
        }
      }
    }
  }

  /** The first step of cleaning: an entry that can go is dealt with and
      the rest cleaned; one that cannot ends the cleaning with every
      entry left in place. */
  lemma WipeHead(base: string, es: seq<Entry>)
    requires es != []
    ensures var w := WipeFrom(base, es);
            var rest := WipeFrom(base, es[1..]);
            if Wipeable(es[0]) then
              w.status == rest.status && w.kept == (if es[0].name == PLACEHOLDER then [es[0]] else []) + rest.kept
            else
              w.status != Returned(true) && w.kept == es
  {
  }

  /** Every entry of the listing can go. */
  predicate AllWipeable(es: seq<Entry>)
  {
    es == [] || (Wipeable(es[0]) && AllWipeable(es[1..]))
  }

  lemma PlaceholdersCons(e: Entry, es: seq<Entry>)
    ensures Placeholders([e] + es) == (if e.name == PLACEHOLDER then [e] else []) + Placeholders(es)
  {
    assert ([e] + es)[0] == e && ([e] + es)[1..] == es;
  }

  /** Cleaning fails at the first entry that cannot go (the head of
      `rest`): the entries before it are gone but for placeholders, and
      it and every later entry are left as they were. */
  lemma {:induction false} WipeStopsAtFailure(base: string, pre: seq<Entry>, rest: seq<Entry>)
    requires AllWipeable(pre) && rest != [] && !Wipeable(rest[0])
    ensures WipeFrom(base, pre + rest).status == AttemptStatus(rest[0].node) != Returned(true)
    ensures WipeFrom(base, pre + rest).kept == Placeholders(pre) + rest
    ensures WipeFrom(base, pre + rest).log
            == WipeFrom(base, pre).log + [Attempt(base + "/" + rest[0].name, rest[0].node)]
    decreases |pre|
  {
    if pre == [] {
      assert pre + rest == rest;
    } else {
      var p, tail := pre[0], pre[1..];
      assert pre == [p] + tail;
      assert (pre + rest)[0] == p && (pre + rest)[1..] == tail + rest;
      WipeStopsAtFailure(base, tail, rest);
      PlaceholdersCons(p, tail);
    }
  }

  /** Cleaning an already clean channel deletes nothing and succeeds. */
  lemma {:induction false} WipeIdempotent(base: string, es: seq<Entry>)
    ensures WipeFrom(base, Placeholders(es)) == Wiped(Placeholders(es), [], Returned(true))
    decreases |es|
  {
    if es != [] {
      WipeIdempotent(base, es[1..]);
      if es[0].name == PLACEHOLDER {
        assert Placeholders(es) == [es[0]] + Placeholders(es[1..]);
        assert Placeholders(es)[1..] == Placeholders(es[1..]);
      } else {
        assert Placeholders(es) == Placeholders(es[1..]);
      }
    }
  }

  // ---------------------------------------------------------------------
  // Argument vectors and dispatch

  function ExportArgv(godot: string, channel: string): seq<string>
  {
    [godot, "--no-window", "--export", channel]
  }

  function ExportPlan(godot: string, channels: seq<string>): (plan: seq<seq<string>>)
    ensures |plan| == |channels|
    ensures forall i :: 0 <= i < |channels| ==> plan[i] == ExportArgv(godot, channels[i])
  {
    if channels == [] then [] else ExportPlan(godot, channels[..|channels| - 1]) + [ExportArgv(godot, channels[|channels| - 1])]
  }

  function ChannelDir(channel: string): string
  {
    "builds/" + channel
  }

  /** The name under which `export_channel` copies the EULA. */
  const README := "readme.md"

  function ReadmePath(channel: string): string
  {
    ChannelDir(channel) + "/" + README
  }

  /** What `run` does with its arguments. */
  datatype Request = Help | List | CleanAll | ExportAll | CleanOne(channel: string) | ExportOne(channel: string) | Usage

  /** `run`'s choice: one of the four words alone, or `clean`/`export`
      followed by a single channel; anything else prints the usage. */
  function Parse(args: seq<string>): (r: Request)
    ensures r == Help <==> args == ["help"]
    ensures r == List <==> args == ["list"]
    ensures r == CleanAll <==> args == ["clean"]
    ensures r == ExportAll <==> args == ["export"]
    ensures r.CleanOne? <==> |args| == 2 && args[0] == "clean"
    ensures r.ExportOne? <==> |args| == 2 && args[0] == "export"
    ensures r.CleanOne? || r.ExportOne? ==> r.channel == args[1]
    ensures r == Usage <==> !(args in {["help"], ["list"], ["clean"], ["export"]})
                            && !(|args| == 2 && args[0] in {"clean", "export"})
  {
    if |args| == 1 && args[0] == "help" then Help
    else if |args| == 1 && args[0] == "list" then List
    else if |args| == 1 && args[0] == "clean" then CleanAll
    else if |args| == 1 && args[0] == "export" then ExportAll
    else if |args| == 2 && args[0] == "clean" then CleanOne(args[1])
    else if |args| == 2 && args[0] == "export" then ExportOne(args[1])
    else Usage
  }

  /** `main`'s exit code for what `run` did: 0 exactly when it returned
      True; an escaping exception ends Python with status 1. */
  function ExitCode(s: Status): (code: int)
    ensures code == 0 <==> s == Returned(true)
    ensures code == 0 || code == 1
  {
    if s == Returned(true) then 0 else 1
  }

  // ---------------------------------------------------------------------
  // What each operation does, as a function of the environment and the
  // cached states

  /** What an operation returns, the channel directories it leaves and
      the events it adds to the log. */
  datatype Outcome = Outcome(status: Status, outputs: map<string, Node>, log: seq<Event>)

  /** An outcome preceded by the events `log`. */
  function Then(log: seq<Event>, o: Outcome): Outcome
  {
    Outcome(o.status, o.outputs, log + o.log)
  }

  /** `has_channel(channel)` holds. */
  predicate Selected(f: Facts, channel: string)
  {
    f.channelsOk && channel in f.listed
  }

  /** `os.listdir` can list the directory of the channel. */
  predicate Listable(out: map<string, Node>, channel: string)
  {
    channel in out && Opens(out[channel])
  }

  /** `clean_channel(channel)` from the given layout and channel states. */
  function CleanSpec(f: Facts, dir: Tri, chans: Tri, out: map<string, Node>, channel: string): Outcome
  {
    var pre := ChannelsTrailFrom(f, dir, chans);
    if !Selected(f, channel) then Outcome(Returned(false), out, pre)
    else if !Listable(out, channel) then Outcome(Raised, out, pre)
    else
      var d := out[channel];
      var w := WipeFrom(ChannelDir(channel), Listing(d));
      Outcome(w.status, out[channel := Relisted(d, w.kept)], pre + w.log)
  }

  /** No entry of the listing has the given name. */
  predicate Lacks(es: seq<Entry>, name: string)
  {
    forall k :: 0 <= k < |es| ==> es[k].name != name
  }

  /** Only placeholders survive a successful clean. */
  lemma {:induction false} PlaceholdersNamed(es: seq<Entry>)
    ensures forall k :: 0 <= k < |Placeholders(es)| ==> Placeholders(es)[k].name == PLACEHOLDER
  {
    if es != [] {
      PlaceholdersNamed(es[1..]);
    }
  }

  /** A clean that succeeds was given a listed channel whose directory can
      be listed, and leaves the placeholders of that directory and
      nothing else; in particular no `readme.md`. */
  lemma CleanSucceeded(f: Facts, dir: Tri, chans: Tri, out: map<string, Node>, channel: string)
    requires CleanSpec(f, dir, chans, out, channel).status == Returned(true)
    ensures Selected(f, channel) && Listable(out, channel)
    ensures CleanSpec(f, dir, chans, out, channel).outputs
            == out[channel := Relisted(out[channel], Placeholders(Listing(out[channel])))]
    ensures Lacks(Placeholders(Listing(out[channel])), README)
  {
    WipeOutcome(ChannelDir(channel), Listing(out[channel]));
    PlaceholdersNamed(Listing(out[channel]));
  }

  /** The listing of a channel directory after the EULA was copied into
      it, when it held no `readme.md` (as after cleaning): the copy adds
      the file. */
  function WithReadme(d: Node): Node
    requires Opens(d)
  {
    Relisted(d, Listing(d) + [Entry(README, File(false))])
  }

  /** What `export_channel` does once the channel is clean: check the
      engine (the layout is known to be present by then), export, copy
      the EULA; the first step that fails ends it. */
  function ExportTail(h: Host, f: Facts, gs: Tri, out: map<string, Node>, channel: string): Outcome
    requires Listable(out, channel)
  {
    var t := GodotTrailFrom(f, Yes, gs);
    if !f.godotOk then Outcome(Returned(false), out, t)
    else
      var argv := ExportArgv(f.godotPath, channel);
      if !h.Succeeds(argv) then
        Outcome(if h.Starts(argv) then Returned(false) else Raised, out, t + [Call(argv)])
      else
        var t2 := t + [Call(argv), Copy(EULA_PATH, ReadmePath(channel))];
        if !h.CopySucceeds(EULA_PATH, ReadmePath(channel)) then Outcome(Raised, out, t2)
        else Outcome(Returned(true), out[channel := WithReadme(out[channel])], t2)
  }

  /** `export_channel(channel)` from the given states: clean the channel,
      then the rest, only if cleaning succeeded. */
  function ExportSpec(h: Host, f: Facts, dir: Tri, chans: Tri, gs: Tri, out: map<string, Node>, channel: string): Outcome
  {
    var c := CleanSpec(f, dir, chans, out, channel);
    if c.status != Returned(true) then c
    else Then(c.log, ExportTail(h, f, gs, c.outputs, channel))
  }

  /** The first n iterations of the loop of `clean_all_channels` over
      `cs`, once the channel list is loaded; after a failure the later
      iterations do nothing. */
  function CleanFirst(f: Facts, out: map<string, Node>, cs: seq<string>, n: nat): Outcome
    requires n <= |cs|
  {
    if n == 0 then Outcome(Returned(true), out, [])
    else
      var p := CleanFirst(f, out, cs, n - 1);
      if p.status != Returned(true) then p
      else Then(p.log, CleanSpec(f, Yes, Yes, p.outputs, cs[n - 1]))
  }

  /** The first n iterations of the loop of `export_all_channels`; the
      engine state is `gs` for the first channel and settled (YES)
      after a channel was exported. */
  function ExportFirst(h: Host, f: Facts, gs: Tri, out: map<string, Node>, cs: seq<string>, n: nat): Outcome
    requires n <= |cs|
  {
    if n == 0 then Outcome(Returned(true), out, [])
    else
      var p := ExportFirst(h, f, gs, out, cs, n - 1);
      if p.status != Returned(true) then p
      else Then(p.log, ExportSpec(h, f, Yes, Yes, if n == 1 then gs else Yes, p.outputs, cs[n - 1]))
  }

  /** Once an iteration has failed the loop's outcome is settled. */
  lemma {:induction false} CleanFirstStops(f: Facts, out: map<string, Node>, cs: seq<string>, i: nat, n: nat)
    requires i <= n <= |cs| && (i < n ==> CleanFirst(f, out, cs, i).status != Returned(true))
    ensures CleanFirst(f, out, cs, n) == CleanFirst(f, out, cs, i)
    decreases n
  {
    if i < n {
      CleanFirstStops(f, out, cs, i, n - 1);
    }
  }

  lemma {:induction false} ExportFirstStops(h: Host, f: Facts, gs: Tri, out: map<string, Node>, cs: seq<string>, i: nat, n: nat)
    requires i <= n <= |cs| && (i < n ==> ExportFirst(h, f, gs, out, cs, i).status != Returned(true))
    ensures ExportFirst(h, f, gs, out, cs, n) == ExportFirst(h, f, gs, out, cs, i)
    decreases n
  {
    if i < n {
      ExportFirstStops(h, f, gs, out, cs, i, n - 1);
    }
  }
  /** `o` is what the first n iterations of the export loop do. The
      equation sits under a quantifier so that a proof about one
      iteration does not unfold the ones before it. */
  ghost predicate Exported(h: Host, f: Facts, gs: Tri, out: map<string, Node>, cs: seq<string>, n: nat, o: Outcome)
  {
    forall k {:trigger ExportFirst(h, f, gs, out, cs, k)} :: k == n && k <= |cs| ==> ExportFirst(h, f, gs, out, cs, k) == o
  }

  /** The loop has done what the whole export loop does once it ran out
      of channels or an iteration failed. */
  lemma ExportedAll(h: Host, f: Facts, gs: Tri, out: map<string, Node>, cs: seq<string>, n: nat, o: Outcome)
    requires n <= |cs| && Exported(h, f, gs, out, cs, n, o) && (n == |cs| || o.status != Returned(true))
    ensures ExportFirst(h, f, gs, out, cs, |cs|) == o
  {
    assert ExportFirst(h, f, gs, out, cs, n) == o;
    ExportFirstStops(h, f, gs, out, cs, n, |cs|);
  }


  /** `clean_all_channels()`. */
  function CleanAllSpec(f: Facts, dir: Tri, chans: Tri, out: map<string, Node>): Outcome
  {
    var pre := ChannelsTrailFrom(f, dir, chans);
    if !f.channelsOk then Outcome(Returned(false), out, pre)
    else Then(pre, CleanFirst(f, out, f.listed, |f.listed|))
  }

  /** `export_all_channels()`. */
  function ExportAllSpec(h: Host, f: Facts, dir: Tri, chans: Tri, gs: Tri, out: map<string, Node>): Outcome
  {
    var pre := ChannelsTrailFrom(f, dir, chans);
    if !f.channelsOk then Outcome(Returned(false), out, pre)
    else Then(pre, ExportFirst(h, f, gs, out, f.listed, |f.listed|))
  }

  /** `run(args)`. */
  function RunSpec(h: Host, f: Facts, dir: Tri, chans: Tri, gs: Tri, out: map<string, Node>, args: seq<string>): Outcome
  {
    match Parse(args)
    case Help => Outcome(Returned(true), out, [])
    case List => Outcome(Returned(f.channelsOk), out, ChannelsTrailFrom(f, dir, chans))
    case CleanAll => CleanAllSpec(f, dir, chans, out)
    case ExportAll => ExportAllSpec(h, f, dir, chans, gs, out)
    case CleanOne(c) => CleanSpec(f, dir, chans, out, c)
    case ExportOne(c) => ExportSpec(h, f, dir, chans, gs, out, c)
    case Usage => Outcome(Returned(false), out, [])
  }

  // ---------------------------------------------------------------------
  // The build command

  class BuildCommand {
    /** The machine the command runs on (its working directory is the
        script's directory). */
    const host: Host
    /** What the environment offers, fixed for the life of the command. */
    ghost const facts: Facts
    var correctDirState: Tri
    var channelsState: Tri
    var channels: seq<string>
    var godotState: Tri
    var godot: string

    /** The fixed facts are those of the host. Each group of facts is
        guarded by its own trigger, so the definitions behind it enter a
        proof only where the proof mentions that group. */
    ghost predicate Snapshot()
    {
      && (forall h: Host {:trigger LayoutOf(h)} :: h == host ==> LayoutOf(h) == (facts.layout, facts.layoutTrail))
      && (forall h: Host {:trigger ChannelsOf(h)} :: h == host ==>
            ChannelsOf(h) == (facts.channelsOk, facts.listed, facts.channelTrail))
      && (forall h: Host {:trigger GodotOf(h)} :: h == host ==>
            GodotOf(h) == (facts.godotOk, facts.godotPath, facts.godotTrail))
    }

    /** Every cached state agrees with the environment; a dependent check
        is settled only after the layout check. */
    ghost predicate Valid()
      reads this
    {
      && Snapshot()
      && (correctDirState != Maybe ==> (correctDirState == Yes <==> facts.layout))
      && (channelsState != Maybe ==> correctDirState != Maybe)
      && (channelsState == Yes ==> correctDirState == Yes)
      && (channelsState != Maybe ==> (channelsState == Yes <==> facts.channelsOk))
      && channels == (if channelsState == Yes then facts.listed else [])
      && (godotState != Maybe ==> correctDirState != Maybe)
      && (godotState == Yes ==> correctDirState == Yes)
      && (godotState != Maybe ==> (godotState == Yes <==> facts.godotOk))
      && (godotState == Yes ==> godot == facts.godotPath)
      && (godotState == Maybe ==> godot == "")
    }

    /** `BuildCommand()`: every state starts at MAYBE. */
    constructor (host: Host)
      ensures Valid() && this.host == host && facts == FactsOf(host)
      ensures correctDirState == Maybe && channelsState == Maybe && godotState == Maybe
    {
      this.host := host;
      facts := FactsOf(host);
      correctDirState, channelsState, godotState := Maybe, Maybe, Maybe;
      channels, godot := [], "";
    }

    /** Appends an event to the log. */
    method Note(e: Event)
      modifies host`trace
      ensures host.trace == old(host.trace) + [e]
    {
      host.trace := host.trace + [e];
    }

    /** Both loops of `has_correct_dir`, the second one run only when
        the first finds every directory. */
    method ScanLayout() returns (ok: bool)
      modifies host`trace
      ensures ok <==> LayoutPresent(host)
      ensures host.trace == old(host.trace) + Trail(LayoutTests(host))
    {
      TrailConcat(DirTests(host), FileTests(host));
      LayoutTestsPass(host);
      ok := ScanDirs();
      if ok {
        TrailAllPass(DirTests(host));
        ok := ScanFiles();
      }
    }

    /** The first loop of `has_correct_dir`: the required directories,
        tested in order until one is missing. */
    method ScanDirs() returns (ok: bool)
      modifies host`trace
      ensures ok <==> AllPass(DirTests(host))
      ensures host.trace == old(host.trace) + Trail(DirTests(host))
    {
      ghost var tests := DirTests(host);
      ok := true;
      var i := 0;
      while i < |LAYOUT_DIRS| && ok
        invariant 0 <= i <= |LAYOUT_DIRS|
        invariant ok ==> host.trace == old(host.trace) + Events(tests[..i]) && AllPass(tests[..i])
        invariant !ok ==> host.trace == old(host.trace) + Trail(tests) && !AllPass(tests)
      {
        var path := LAYOUT_DIRS[i];
        ExistenceTestsAt(host, LAYOUT_DIRS, true, i);
        Note(TestDir(path));
        assert tests[..i + 1] == tests[..i] + [tests[i]];
        if path !in host.dirs {
          TrailStopsAt(tests, i);
          ok := false;
        }
        i := i + 1;
      }
      if ok {
        assert tests[..|tests|] == tests;
        TrailAllPass(tests);
      }
    }

    /** The second loop of `has_correct_dir`: the required files, tested
        in order until one is missing. */
    method ScanFiles() returns (ok: bool)
      modifies host`trace
      ensures ok <==> AllPass(FileTests(host))
      ensures host.trace == old(host.trace) + Trail(FileTests(host))
    {
      ghost var tests := FileTests(host);
      ok := true;
      var i := 0;
      while i < |LAYOUT_FILES| && ok
        invariant 0 <= i <= |LAYOUT_FILES|
        invariant ok ==> host.trace == old(host.trace) + Events(tests[..i]) && AllPass(tests[..i])
        invariant !ok ==> host.trace == old(host.trace) + Trail(tests) && !AllPass(tests)
      {
        var path := LAYOUT_FILES[i];
        ExistenceTestsAt(host, LAYOUT_FILES, false, i);
        Note(TestFile(path));
        assert tests[..i + 1] == tests[..i] + [tests[i]];
        if path !in host.files {
          TrailStopsAt(tests, i);
          ok := false;
        }
        i := i + 1;
      }
      if ok {
        assert tests[..|tests|] == tests;
        TrailAllPass(tests);
      }
    }

    /** `has_correct_dir`: the layout is tested at most once per command;
        later calls answer from the cached state without testing
        anything. */
    method HasCorrectDir() returns (ok: bool)
      requires Valid()
      modifies this`correctDirState, host`trace
      ensures Valid()
      ensures Refines(old(correctDirState), correctDirState) && correctDirState != Maybe
      ensures ok <==> facts.layout
      ensures host.trace == old(host.trace) + LayoutTrailFrom(facts, old(correctDirState))
    {
      if correctDirState == Maybe {
        assert LayoutOf(host) == (facts.layout, facts.layoutTrail);
        ok := ScanLayout();
        correctDirState := if ok then Yes else No;
      }
      ok := correctDirState == Yes;
    }

    /** The part of `has_channels` after the layout check: the list file
        is tested, read and scanned line by line. */
    method LoadChannels() returns (ok: bool)
      requires channels == []
      modifies this`channels, host`trace
      ensures ok <==> CHANNELS_PATH in host.files && CHANNELS_PATH in host.texts && ListedChannels(host) != []
      ensures channels == (if ok then ListedChannels(host) else [])
      ensures host.trace == old(host.trace) + ChannelSourceTrail(host)
    {
      Note(TestFile(CHANNELS_PATH));
      ok := false;
      if CHANNELS_PATH in host.files {
        Note(Read(CHANNELS_PATH));
        if CHANNELS_PATH in host.texts {
          var lines := ReadLines(host.texts[CHANNELS_PATH]);
          ghost var read := host.trace;
          for i := 0 to |lines|
            invariant channels == ChannelList(lines[..i])
            invariant host.trace == read
          {
            var channel := Strip(lines[i]);
            assert lines[..i + 1][..i] == lines[..i];
            if channel != "" && channel !in channels {
              channels := channels + [channel];
            }
          }
          assert lines[..|lines|] == lines;
          ok := channels != [];
        }
        assert host.trace == old(host.trace) + ([TestFile(CHANNELS_PATH)] + [Read(CHANNELS_PATH)]);
      }
    }

    /** `has_channels`: loads the channel list once; the list is the
        stripped, non-blank lines of the file without repetitions, in
        first-seen order, and the check passes when it is non-empty. When
        the working directory is wrong the file is never touched. */
    method HasChannels() returns (ok: bool)
      requires Valid()
      modifies this`correctDirState, this`channelsState, this`channels, host`trace
      ensures Valid()
      ensures Refines(old(correctDirState), correctDirState) && correctDirState != Maybe
      ensures Refines(old(channelsState), channelsState) && channelsState != Maybe
      ensures ok <==> facts.channelsOk
      ensures host.trace == old(host.trace) + ChannelsTrailFrom(facts, old(correctDirState), old(channelsState))
    {
      if channelsState == Maybe {
        assert LayoutOf(host) == (facts.layout, facts.layoutTrail);
        assert ChannelsOf(host) == (facts.channelsOk, facts.listed, facts.channelTrail);
        var dirOk := HasCorrectDir();
        if dirOk {
          var loaded := LoadChannels();
          assert host.trace == old(host.trace) + (LayoutTrailFrom(facts, old(correctDirState)) + facts.channelTrail);
          channelsState := if loaded then Yes else No;
        } else {
          channelsState := No;
        }
      }
      ok := channelsState == Yes;
    }

    /** `has_channel`: the channel list loads and names the channel. */
    method HasChannel(channel: string) returns (ok: bool)
      requires Valid()
      modifies this`correctDirState, this`channelsState, this`channels, host`trace
      ensures Valid()
      ensures Refines(old(correctDirState), correctDirState) && correctDirState != Maybe
      ensures Refines(old(channelsState), channelsState) && channelsState != Maybe
      ensures ok <==> Selected(facts, channel)
      ensures host.trace == old(host.trace) + ChannelsTrailFrom(facts, old(correctDirState), old(channelsState))
    {
      ok := HasChannels();
      if ok {
        ok := channel in channels;
      }
    }

    /** The part of `has_godot` after the layout check: the path file is
        tested and read, the path it holds is tested and the engine is
        probed with `--version`. */
    method LoadGodot() returns (ok: bool)
      modifies this`godot, host`trace
      ensures ok <==> && GODOT_PATH in host.files && GODOT_PATH in host.texts
                      && GodotPath(host) != "" && GodotPath(host) in host.files
                      && host.Succeeds([GodotPath(host), "--version"])
      ensures ok ==> godot == GodotPath(host)
      ensures host.trace == old(host.trace) + GodotSourceTrail(host)
    {
      Note(TestFile(GODOT_PATH));
      ok := false;
      if GODOT_PATH in host.files {
        Note(Read(GODOT_PATH));
        if GODOT_PATH in host.texts {
          godot := Strip(ReadText(host.texts[GODOT_PATH]));
          if godot != "" {
            Note(TestFile(godot));
            if godot in host.files {
              Note(Call([godot, "--version"]));
              ok := host.Succeeds([godot, "--version"]);
            }
          }
        }
      }
    }

    /** `has_godot`: reads the engine path and probes it with `--version`
        once; later calls answer from the cached state. */
    method HasGodot() returns (ok: bool)
      requires Valid()
      modifies this`correctDirState, this`godotState, this`godot, host`trace
      ensures Valid()
      ensures Refines(old(correctDirState), correctDirState) && correctDirState != Maybe
      ensures Refines(old(godotState), godotState) && godotState != Maybe
      ensures ok <==> facts.godotOk
      ensures host.trace == old(host.trace) + GodotTrailFrom(facts, old(correctDirState), old(godotState))
    {
      if godotState == Maybe {
        assert LayoutOf(host) == (facts.layout, facts.layoutTrail);
        assert GodotOf(host) == (facts.godotOk, facts.godotPath, facts.godotTrail);
        var dirOk := HasCorrectDir();
        if dirOk {
          var loaded := LoadGodot();
          assert host.trace == old(host.trace) + (LayoutTrailFrom(facts, old(correctDirState)) + facts.godotTrail);
          godotState := if loaded then Yes else No;
        } else {
          godotState := No;
        }
      }
      ok := godotState == Yes;
    }

    /** `list_all_channels`: the lines it prints are the loaded channels. */
    method ListAllChannels() returns (ok: bool, shown: seq<string>)
      requires Valid()
      modifies this`correctDirState, this`channelsState, this`channels, host`trace
      ensures Valid()
      ensures Refines(old(correctDirState), correctDirState) && Refines(old(channelsState), channelsState)
      ensures ok <==> facts.channelsOk
      ensures shown == (if ok then facts.listed else [])
      ensures host.trace == old(host.trace) + ChannelsTrailFrom(facts, old(correctDirState), old(channelsState))
    {
      ok := HasChannels();
      shown := if ok then channels else [];
    }

    /** Deletes the entry at `path`: `shutil.rmtree` for what
        `os.path.isdir` calls a directory, `os.remove` otherwise. */
    method Delete(path: string, n: Node) returns (r: Status)
      modifies host`trace
      ensures r == AttemptStatus(n) && host.trace == old(host.trace) + [Attempt(path, n)]
    {
      if ResolvesToDir(n) {
        Note(RemoveTree(path));
        r := if n.Dir? && Deletable(n) then Returned(true) else Raised;
      } else {
        Note(Remove(path));
        r := if n.locked then Returned(false) else Returned(true);
      }
    }

    /** The loop of `clean_channel` over the listing of the channel
        directory. */
    method WipeChannel(channel: string) returns (r: Status)
      requires Listable(host.outputs, channel)
      modifies host`trace, host`outputs
      ensures var dir := old(host.outputs)[channel];
              var w := WipeFrom(ChannelDir(channel), Listing(dir));
              && r == w.status
              && host.outputs == old(host.outputs)[channel := Relisted(dir, w.kept)]
              && host.trace == old(host.trace) + w.log
    {
      var start := host.outputs;
      var dir := host.outputs[channel];
      var es := Listing(dir);
      var base := ChannelDir(channel);
      ghost var whole := WipeFrom(base, es);
      var kept: seq<Entry> := [];
      ghost var log: seq<Event> := [];
      assert kept + es[0..] == es && Relisted(dir, es) == dir;
      assert After(kept, log, whole) == whole;
      r := Returned(true);
      var i := 0;
      while i < |es| && r == Returned(true)
        invariant 0 <= i <= |es|
        invariant r == Returned(true) ==> whole == After(kept, log, WipeFrom(base, es[i..]))
        invariant r != Returned(true) ==> whole == Wiped(kept + es[i..], log, r)
        invariant host.outputs == start
        invariant host.trace == old(host.trace) + log
        decreases |es| - i, if r == Returned(true) then 1 else 0
      {
        var e := es[i];
        ghost var rest := WipeFrom(base, es[i + 1..]);
        WipeStep(base, es, i);
        if e.name == PLACEHOLDER {
          AfterKeep(kept, log, e, rest);
          kept := kept + [e];
          i := i + 1;
        } else {
          var path := base + "/" + e.name;
          r := Delete(path, e.node);
          AfterLog(kept, log, Attempt(path, e.node), rest);
          log := log + [Attempt(path, e.node)];
          if r == Returned(true) {
            i := i + 1;
          }
        }
      }
      if r == Returned(true) {
        assert es[i..] == [];
      }
      host.outputs := start[channel := Relisted(dir, kept + es[i..])];
    }

    /** `clean_channel`: the channel must be listed; its directory is then
        listed (which raises when it cannot be) and every entry but the
        placeholder is deleted in listing order, stopping at the first
        failure. */
    method CleanChannel(channel: string) returns (r: Status)
      requires Valid()
      modifies this`correctDirState, this`channelsState, this`channels, host`trace, host`outputs
      ensures Valid()
      ensures Refines(old(correctDirState), correctDirState) && correctDirState != Maybe
      ensures Refines(old(channelsState), channelsState) && channelsState != Maybe
      ensures var o := CleanSpec(facts, old(correctDirState), old(channelsState), old(host.outputs), channel);
              r == o.status && host.outputs == o.outputs && host.trace == old(host.trace) + o.log
    {
      var has := HasChannel(channel);
      if !has {
        r := Returned(false);
      } else if channel !in host.outputs || !Opens(host.outputs[channel]) {
        r := Raised;
      } else {
        r := WipeChannel(channel);
      }
    }

    /** The engine call of `export_channel`: `check_call` raises
        CalledProcessError on a non-zero exit status, which is caught, and
        OSError when the engine cannot be started, which is not. */
    method LaunchExport(channel: string) returns (r: Status)
      modifies host`trace
      ensures host.trace == old(host.trace) + [Call(ExportArgv(godot, channel))]
      ensures r == if host.Succeeds(ExportArgv(godot, channel)) then Returned(true)
                   else if host.Starts(ExportArgv(godot, channel)) then Returned(false)
                   else Raised
    {
      var argv := [godot, "--no-window", "--export", channel];
      Note(Call(argv));
      if argv !in host.exitCodes {
        return Raised;
      }
      return Returned(host.exitCodes[argv] == 0);
    }

    /** The EULA copy of `export_channel`: a failing `shutil.copy` raises
        OSError, which the `except shutil.Error` does not catch. */
    method CopyEula(channel: string) returns (r: Status)
      requires Listable(host.outputs, channel)
      modifies host`trace, host`outputs
      ensures host.trace == old(host.trace) + [Copy(EULA_PATH, ReadmePath(channel))]
      ensures r == if host.CopySucceeds(EULA_PATH, ReadmePath(channel)) then Returned(true) else Raised
      ensures var d := old(host.outputs)[channel];
              host.outputs == if r == Returned(true) then old(host.outputs)[channel := Relisted(d, Put(Listing(d), Entry(README, File(false))))]
                              else old(host.outputs)
    {
      Note(Copy(EULA_PATH, ReadmePath(channel)));
      if !host.CopySucceeds(EULA_PATH, ReadmePath(channel)) {
        return Raised;
      }
      var d := host.outputs[channel];
      host.outputs := host.outputs[channel := Relisted(d, Put(Listing(d), Entry(README, File(false))))];
      return Returned(true);
    }

    /** The part of `export_channel` after cleaning. */
    method ExportCleaned(channel: string) returns (r: Status)
      requires Valid() && correctDirState == Yes
      requires Listable(host.outputs, channel) && Lacks(Listing(host.outputs[channel]), README)
      modifies this`correctDirState, this`godotState, this`godot, host`trace, host`outputs
      ensures Valid() && correctDirState == Yes
      ensures Refines(old(godotState), godotState)
      ensures r == Returned(true) ==> godotState == Yes
      ensures var o := ExportTail(host, facts, old(godotState), old(host.outputs), channel);
              r == o.status && host.outputs == o.outputs && host.trace == old(host.trace) + o.log
    {
      var hasGodot := HasGodot();
      if hasGodot {
        r := LaunchExport(channel);
        if r == Returned(true) {
          PutFresh(Listing(host.outputs[channel]), Entry(README, File(false)));
          r := CopyEula(channel);
        }
      } else {
        r := Returned(false);
      }
    }

    /** `export_channel`: clean, check the engine, export, copy the EULA,
        each step only after the previous one succeeded. */
    method ExportChannel(channel: string) returns (r: Status)
      requires Valid()
      modifies this`correctDirState, this`channelsState, this`channels, this`godotState, this`godot, host`trace, host`outputs
      ensures Valid()
      ensures Refines(old(correctDirState), correctDirState) && Refines(old(channelsState), channelsState)
      ensures Refines(old(godotState), godotState)
      ensures r == Returned(true) ==> godotState == Yes
      ensures var o := ExportSpec(host, facts, old(correctDirState), old(channelsState), old(godotState), old(host.outputs), channel);
              r == o.status && host.outputs == o.outputs && host.trace == old(host.trace) + o.log
    {
      ghost var cl := CleanSpec(facts, correctDirState, channelsState, host.outputs, channel);
      ghost var gs := godotState;
      ghost var start := host.trace;
      r := CleanChannel(channel);
      if r == Returned(true) {
        CleanSucceeded(facts, old(correctDirState), old(channelsState), old(host.outputs), channel);
        assert Listable(host.outputs, channel) && Lacks(Listing(host.outputs[channel]), README);
        r := ExportCleaned(channel);
        ghost var tail := ExportTail(host, facts, gs, cl.outputs, channel);
        assert host.trace == start + (cl.log + tail.log);
      }
    }

    /** `clean_all_channels`: loads the channel list, then cleans the
        channels in list order and stops at the first one that fails. */
    method CleanAllChannels() returns (r: Status)
      requires Valid()
      modifies this`correctDirState, this`channelsState, this`channels, host`trace, host`outputs
      ensures Valid()
      ensures Refines(old(correctDirState), correctDirState) && correctDirState != Maybe
      ensures Refines(old(channelsState), channelsState) && channelsState != Maybe
      ensures var o := CleanAllSpec(facts, old(correctDirState), old(channelsState), old(host.outputs));
              r == o.status && host.outputs == o.outputs && host.trace == old(host.trace) + o.log
    {
      var ok := HasChannels();
      if !ok {
        r := Returned(false);
      } else {
        r := CleanListed();
      }
    }

    /** The loop of `clean_all_channels` over the loaded channel list. */
    method CleanListed() returns (r: Status)
      requires Valid() && correctDirState == Yes && channelsState == Yes
      modifies this`correctDirState, this`channelsState, this`channels, host`trace, host`outputs
      ensures Valid() && correctDirState == Yes && channelsState == Yes
      ensures var o := CleanFirst(facts, old(host.outputs), facts.listed, |facts.listed|);
              r == o.status && host.outputs == o.outputs && host.trace == old(host.trace) + o.log
    {
      ghost var out := host.outputs;
      ghost var start := host.trace;
      ghost var log: seq<Event> := [];
      r := Returned(true);
      var i := 0;
      while i < |channels| && r == Returned(true)
        invariant Valid() && correctDirState == Yes && channelsState == Yes
        invariant 0 <= i <= |channels|
        invariant CleanFirst(facts, out, channels, i) == Outcome(r, host.outputs, log)
        invariant host.trace == start + log
        decreases |channels| - i
      {
        ghost var step;
        r, step := CleanNext(out, i, log);
        log := log + step;
        i := i + 1;
      }
      CleanFirstStops(facts, out, channels, i, |channels|);
    }

    /** One iteration of the loop of `clean_all_channels`: cleans the
        channel at index i after the ones before it succeeded. */
    method CleanNext(ghost out: map<string, Node>, i: nat, ghost log: seq<Event>)
      returns (r: Status, ghost step: seq<Event>)
      requires Valid() && correctDirState == Yes && channelsState == Yes && i < |channels|
      requires CleanFirst(facts, out, channels, i) == Outcome(Returned(true), host.outputs, log)
      modifies this`correctDirState, this`channelsState, this`channels, host`trace, host`outputs
      ensures Valid() && correctDirState == Yes && channelsState == Yes
      ensures CleanFirst(facts, out, channels, i + 1) == Outcome(r, host.outputs, log + step)
      ensures host.trace == old(host.trace) + step
    {
      ghost var o := CleanSpec(facts, Yes, Yes, host.outputs, channels[i]);
      r := CleanChannel(channels[i]);
      step := o.log;
    }

    /** `run(arguments)`: dispatches to exactly one operation, or prints
        the usage and fails. */
    method Run(args: seq<string>) returns (r: Status)
      requires Valid()
      modifies this`correctDirState, this`channelsState, this`channels, this`godotState, this`godot, host`trace, host`outputs
      ensures Valid()
      ensures Refines(old(correctDirState), correctDirState) && Refines(old(channelsState), channelsState)
      ensures Refines(old(godotState), godotState)
      ensures var o := RunSpec(host, facts, old(correctDirState), old(channelsState), old(godotState), old(host.outputs), args);
              r == o.status && host.outputs == o.outputs && host.trace == old(host.trace) + o.log
    {
      ghost var p := Parse(args);
      if |args| == 1 && args[0] == "help" {
        r := Returned(true);
      } else if |args| == 1 && args[0] == "list" {
        assert p == List;
        var ok, shown := ListAllChannels();
        r := Returned(ok);
      } else if |args| == 1 && args[0] == "clean" {
        assert p == CleanAll;
        r := CleanAllChannels();
      } else if |args| == 1 && args[0] == "export" {
        assert p == ExportAll;
        r := ExportAllChannels();
      } else if |args| == 2 && args[0] == "clean" {
        assert p == CleanOne(args[1]);
        r := CleanChannel(args[1]);
      } else if |args| == 2 && args[0] == "export" {
        assert p == ExportOne(args[1]);
        r := ExportChannel(args[1]);
      } else {
        assert p == Usage;
        r := Returned(false);
      }
    }

    /** One iteration of the loop of `export_all_channels`: exports the
        channel at index i after the ones before it succeeded. */
    method ExportNext(ghost gs: Tri, ghost out: map<string, Node>, i: nat, ghost log: seq<Event>)
      returns (r: Status, ghost step: seq<Event>)
      requires Valid() && correctDirState == Yes && channelsState == Yes && i < |channels|
      requires godotState == if i == 0 then gs else Yes
      requires Exported(host, facts, gs, out, channels, i, Outcome(Returned(true), host.outputs, log))
      modifies this`correctDirState, this`channelsState, this`channels, this`godotState, this`godot, host`trace, host`outputs
      ensures Valid() && correctDirState == Yes && channelsState == Yes
      ensures Refines(old(godotState), godotState)
      ensures r == Returned(true) ==> godotState == Yes
      ensures Exported(host, facts, gs, out, channels, i + 1, Outcome(r, host.outputs, log + step))
      ensures host.trace == old(host.trace) + step
    {
      ghost var o := ExportSpec(host, facts, Yes, Yes, godotState, host.outputs, channels[i]);
      assert ExportFirst(host, facts, gs, out, channels, i) == Outcome(Returned(true), host.outputs, log);
      r := ExportChannel(channels[i]);
      step := o.log;
    }

    /** `export_all_channels`: loads the channel list, then exports the
        channels in list order and stops at the first one that fails. */
    method ExportAllChannels() returns (r: Status)
      requires Valid()
      modifies this`correctDirState, this`channelsState, this`channels, this`godotState, this`godot, host`trace, host`outputs
      ensures Valid()
      ensures Refines(old(correctDirState), correctDirState) && correctDirState != Maybe
      ensures Refines(old(channelsState), channelsState) && channelsState != Maybe
      ensures Refines(old(godotState), godotState)
      ensures var o := ExportAllSpec(host, facts, old(correctDirState), old(channelsState), old(godotState), old(host.outputs));
              r == o.status && host.outputs == o.outputs && host.trace == old(host.trace) + o.log
    {
      ghost var pre := ChannelsTrailFrom(facts, correctDirState, channelsState);
      ghost var start := host.trace;
      var ok := HasChannels();
      if !ok {
        r := Returned(false);
      } else {
        ghost var mid := host.trace;
        r := ExportListed();
        assert host.trace == start + (pre + (host.trace[|mid|..])) by {
          assert mid == start + pre;
        }
      }
    }

    /** The loop of `export_all_channels` over the loaded channel list. */
    method ExportListed() returns (r: Status)
      requires Valid() && correctDirState == Yes && channelsState == Yes
      modifies this`correctDirState, this`channelsState, this`channels, this`godotState, this`godot, host`trace, host`outputs
      ensures Valid() && correctDirState == Yes && channelsState == Yes
      ensures Refines(old(godotState), godotState)
      ensures var o := ExportFirst(host, facts, old(godotState), old(host.outputs), facts.listed, |facts.listed|);
              r == o.status && host.outputs == o.outputs && host.trace == old(host.trace) + o.log
    {
      ghost var gs := godotState;
      ghost var out := host.outputs;
      ghost var start := host.trace;
      ghost var log: seq<Event> := [];
      r := Returned(true);
      var i := 0;
      while i < |channels| && r == Returned(true)
        invariant Valid() && correctDirState == Yes && channelsState == Yes
        invariant Refines(gs, godotState)
        invariant r == Returned(true) ==> godotState == if i == 0 then gs else Yes
        invariant 0 <= i <= |channels|
        invariant Exported(host, facts, gs, out, channels, i, Outcome(r, host.outputs, log))
        invariant host.trace == start + log
        decreases |channels| - i
      {
        ghost var step;
        r, step := ExportNext(gs, out, i, log);
        log := log + step;
        i := i + 1;
      }
      ExportedAll(host, facts, gs, out, channels, i, Outcome(r, host.outputs, log));
    }
  }

  /** `main(argv)`: no arguments at all gives exit code 1; otherwise a
      fresh command runs the arguments after the script name, and the
      exit code is 0 exactly when that run returned True. */
  method MainExitCode(host: Host, argv: seq<string>) returns (code: int)
    modifies host`trace, host`outputs
    ensures argv == [] ==> code == 1 && host.trace == old(host.trace) && host.outputs == old(host.outputs)
    ensures argv != [] ==>
              var o := RunSpec(host, FactsOf(host), Maybe, Maybe, Maybe, old(host.outputs), argv[1..]);
              && code == ExitCode(o.status)
              && host.outputs == o.outputs && host.trace == old(host.trace) + o.log
  {
    if argv == [] {
      code := 1;
    } else {
      var command := new BuildCommand(host);
      var r := command.Run(argv[1..]);
      code := ExitCode(r);
    }
  }
}
