/** The abstract environment both build scripts run against: a file tree
    for the channel output directories, oracles for file existence, file
    contents, the configuration file and subprocess exit codes, and a log
    of every external action the scripts perform. */
module Env {

  datatype Option<T> = None | Some(value: T)

  /** What a symbolic link resolves to: a regular file, a directory with
      the given listing, a directory that cannot be listed, or nothing. */
  datatype LinkTarget = ToFile | ToDir(entries: seq<Entry>) | ToSealed | Dangling

  /** An entry of a directory tree. `locked` says that the operating
      system refuses to delete this entry (for a directory: refuses to
      remove the directory itself once it is empty). A `Sealed` entry is
      a directory whose contents cannot be listed (reading it fails with
      an OSError). A `Broken` entry is one that is neither a regular file,
      a symbolic link nor a directory (a socket, a device, an entry whose
      type cannot be read). */
  datatype Node =
    | File(locked: bool)
    | Link(target: LinkTarget, locked: bool)
    | Dir(entries: seq<Entry>, locked: bool)
    | Sealed(locked: bool)
    | Broken(locked: bool)

  datatype Entry = Entry(name: string, node: Node)

  /** `os.path.isfile` of an entry: follows symbolic links. */
  predicate ResolvesToFile(n: Node)
  {
    n.File? || (n.Link? && n.target == ToFile)
  }

  /** `os.path.isdir` of an entry: follows symbolic links. */
  predicate ResolvesToDir(n: Node)
  {
    n.Dir? || n.Sealed? || (n.Link? && (n.target.ToDir? || n.target.ToSealed?))
  }

  /** `os.listdir` and `os.scandir` of the entry's path list it: it is a
      directory, or a symbolic link to one, whose contents can be read. */
  predicate Opens(n: Node)
  {
    n.Dir? || (n.Link? && n.target.ToDir?)
  }

  /** What listing the entry's path shows, following a symbolic link. */
  function Listing(n: Node): seq<Entry>
    requires Opens(n)
  {
    if n.Dir? then n.entries else n.target.entries
  }

  /** The entry after its listing (or its link target's) changed to `es`;
      a link stays a link to the changed directory. */
  function Relisted(n: Node, es: seq<Entry>): (r: Node)
    requires Opens(n)
    ensures Opens(r) && Listing(r) == es && (r.Dir? <==> n.Dir?) && r.locked == n.locked
  {
    if n.Dir? then Dir(es, n.locked) else Link(ToDir(es), n.locked)
  }

  /** Relisting only depends on the kind of the entry, not on its old
      listing, and relisting with its own listing changes nothing. */
  lemma RelistedAgain(n: Node, a: seq<Entry>, b: seq<Entry>)
    requires Opens(n)
    ensures Relisted(Relisted(n, a), b) == Relisted(n, b)
    ensures Relisted(n, Listing(n)) == n
  {
  }

  /** `shutil.copy` placing a fresh regular file named `e.name` into a
      listing: an entry of that name is replaced, otherwise one is added. */
  function Put(es: seq<Entry>, e: Entry): seq<Entry>
  {
    if es == [] then [e]
    else if es[0].name == e.name then [e] + Put(es[1..], e)
    else [es[0]] + Put(es[1..], e)
  }

  /** After the copy the listing holds the new file and every entry of
      another name, and nothing else. */
  lemma {:induction false} PutContents(es: seq<Entry>, e: Entry)
    ensures e in Put(es, e)
    ensures forall x :: x in es && x.name != e.name ==> x in Put(es, e)
    ensures forall x :: x in Put(es, e) ==> x == e || (x in es && x.name != e.name)
  {
    if es != [] {
      PutContents(es[1..], e);
    }
  }

  /** Copying a file of a new name adds it at the end of the listing. */
  lemma {:induction false} PutFresh(es: seq<Entry>, e: Entry)
    requires forall k :: 0 <= k < |es| ==> es[k].name != e.name
    ensures Put(es, e) == es + [e]
  {
    if es != [] {
      PutFresh(es[1..], e);
    }
  }

  /** One external action, as recorded in the log. */
  datatype Event =
    | TestDir(path: string)         // os.path.isdir
    | TestFile(path: string)        // os.path.isfile
    | Read(path: string)            // open() and read, or config.read
    | Call(argv: seq<string>)       // a subprocess invocation
    | Remove(path: string)          // os.remove
    | RemoveTree(path: string)      // shutil.rmtree
    | RemoveDir(path: string)       // os.rmdir
    | Copy(src: string, dst: string) // shutil.copy

  predicate IsDeletion(e: Event)
  {
    e.Remove? || e.RemoveTree? || e.RemoveDir?
  }

  /** A log made of deletions only. */
  predicate OnlyDeletions(t: seq<Event>)
  {
    forall i :: 0 <= i < |t| ==> IsDeletion(t[i])
  }

  /** A tool probe: `<tool> --version` or `<tool> version`. */
  predicate IsProbe(argv: seq<string>)
  {
    |argv| == 2 && (argv[1] == "--version" || argv[1] == "version")
  }

  /** The number of probes `<tool> <flag>` in a log. */
  function Probes(t: seq<Event>, flag: string): nat
  {
    if t == [] then 0
    else Probes(t[..|t| - 1], flag)
         + (if t[|t| - 1].Call? && |t[|t| - 1].argv| == 2 && t[|t| - 1].argv[1] == flag then 1 else 0)
  }

  /** The argument vectors of the subprocesses in a log that do real work
      (everything but the probes), in order. */
  function Launches(t: seq<Event>): seq<seq<string>>
  {
    if t == [] then []
    else Launches(t[..|t| - 1])
         + (if t[|t| - 1].Call? && !IsProbe(t[|t| - 1].argv) then [t[|t| - 1].argv] else [])
  }

  /** `a` is where `b` starts. */
  predicate IsPrefix<T(==)>(a: seq<T>, b: seq<T>)
  {
    |a| <= |b| && a == b[..|a|]
  }

  /** A prefix stays one when the longer sequence grows. */
  lemma PrefixGrows<T>(a: seq<T>, b: seq<T>, c: seq<T>)
    requires IsPrefix(a, b)
    ensures IsPrefix(a, b + c)
  {
    assert (b + c)[..|a|] == b[..|a|];
  }

  /** A common start keeps a prefix one. */
  lemma PrefixAfter<T>(x: seq<T>, a: seq<T>, b: seq<T>)
    requires IsPrefix(a, b)
    ensures IsPrefix(x + a, x + b)
  {
    assert (x + b)[..|x + a|] == x + b[..|a|];
  }

  lemma PrefixTrans<T>(a: seq<T>, b: seq<T>, c: seq<T>)
    requires IsPrefix(a, b) && IsPrefix(b, c)
    ensures IsPrefix(a, c)
  {
    assert c[..|b|][..|a|] == c[..|a|];
  }

  /** The number of occurrences of an event in a log. */
  function Count(t: seq<Event>, e: Event): nat
  {
    if t == [] then 0 else Count(t[..|t| - 1], e) + (if t[|t| - 1] == e then 1 else 0)
  }

  lemma {:induction false} CountAppend(a: seq<Event>, b: seq<Event>, e: Event)
    ensures Count(a + b, e) == Count(a, e) + Count(b, e)
    decreases |b|
  {
    if b != [] {
      assert (a + b)[..|a + b| - 1] == a + b[..|b| - 1];
      CountAppend(a, b[..|b| - 1], e);
    } else {
      assert a + b == a;
    }
  }

  lemma {:induction false} CountAbsent(t: seq<Event>, e: Event)
    requires e !in t
    ensures Count(t, e) == 0
  {
    if t != [] {
      assert e !in t[..|t| - 1];
      CountAbsent(t[..|t| - 1], e);
    }
  }

  /** A log without subprocess calls launches and probes nothing. */
  lemma {:induction false} CallFree(t: seq<Event>)
    requires forall i :: 0 <= i < |t| ==> !t[i].Call?
    ensures Launches(t) == [] && forall flag :: Probes(t, flag) == 0
  {
    if t != [] {
      CallFree(t[..|t| - 1]);
    }
  }

  /** An event that can occur only at position k occurs at most once. */
  lemma {:induction false} CountAtMostOnce(t: seq<Event>, e: Event, k: nat)
    requires forall i :: 0 <= i < |t| && i != k ==> t[i] != e
    ensures Count(t, e) <= 1
  {
    if t != [] {
      var n := |t| - 1;
      if n == k {
        assert forall i :: 0 <= i < n ==> t[..n][i] == t[i];
        CountAbsent(t[..n], e);
      } else {
        assert forall i :: 0 <= i < n ==> t[..n][i] == t[i];
        CountAtMostOnce(t[..n], e, k);
      }
    }
  }

  /** A log whose only call can be the one at position k holds at most one
      probe. */
  lemma {:induction false} ProbesAtMostOnce(t: seq<Event>, flag: string, k: nat)
    requires forall i :: 0 <= i < |t| && i != k ==> !t[i].Call?
    ensures Probes(t, flag) <= 1
  {
    if t != [] {
      var n := |t| - 1;
      assert forall i :: 0 <= i < n ==> t[..n][i] == t[i];
      if n == k {
        CallFree(t[..n]);
      } else {
        ProbesAtMostOnce(t[..n], flag, k);
      }
    }
  }

  /** A log whose calls are all probes launches nothing. */
  lemma {:induction false} LaunchFree(t: seq<Event>)
    requires forall i :: 0 <= i < |t| && t[i].Call? ==> IsProbe(t[i].argv)
    ensures Launches(t) == []
  {
    if t != [] {
      LaunchFree(t[..|t| - 1]);
    }
  }

  lemma {:induction false} ProbesAppend(a: seq<Event>, b: seq<Event>, flag: string)
    ensures Probes(a + b, flag) == Probes(a, flag) + Probes(b, flag)
    decreases |b|
  {
    if b != [] {
      assert (a + b)[..|a + b| - 1] == a + b[..|b| - 1];
      ProbesAppend(a, b[..|b| - 1], flag);
    } else {
      assert a + b == a;
    }
  }

  lemma {:induction false} LaunchesAppend(a: seq<Event>, b: seq<Event>)
    ensures Launches(a + b) == Launches(a) + Launches(b)
    decreases |b|
  {
    if b != [] {
      assert (a + b)[..|a + b| - 1] == a + b[..|b| - 1];
      LaunchesAppend(a, b[..|b| - 1]);
    } else {
      assert a + b == a;
    }
  }

  /** A log of deletions holds no subprocess call of any kind. */
  lemma {:induction false} DeletionsCallNothing(t: seq<Event>, flag: string)
    requires OnlyDeletions(t)
    ensures Launches(t) == [] && Probes(t, flag) == 0
    ensures forall e :: e in t ==> !e.Call? && !e.TestDir? && !e.TestFile? && !e.Read?
    ensures forall e :: !IsDeletion(e) ==> Count(t, e) == 0
  {
    if t != [] {
      assert OnlyDeletions(t[..|t| - 1]);
      DeletionsCallNothing(t[..|t| - 1], flag);
      assert IsDeletion(t[|t| - 1]);
    }
  }

  // ---------------------------------------------------------------------
  // Kinds of logs

  /** An event that only looks at the file system. */
  predicate Looks(e: Event)
  {
    e.TestDir? || e.TestFile? || e.Read?
  }

  predicate AllLook(t: seq<Event>)
  {
    forall i :: 0 <= i < |t| ==> Looks(t[i])
  }

  lemma LookConcat(a: seq<Event>, b: seq<Event>)
    requires AllLook(a) && AllLook(b)
    ensures AllLook(a + b)
  {
    forall i | 0 <= i < |a + b| ensures Looks((a + b)[i]) {
      if i >= |a| {
        assert (a + b)[i] == b[i - |a|];
      }
    }
  }

  /** A log that only looks at files and deletes. */
  predicate Tidy(t: seq<Event>)
  {
    forall i :: 0 <= i < |t| ==> Looks(t[i]) || IsDeletion(t[i])
  }

  lemma TidyConcat(a: seq<Event>, b: seq<Event>)
    requires Tidy(a) && Tidy(b)
    ensures Tidy(a + b)
  {
    forall i | 0 <= i < |a + b| ensures Looks((a + b)[i]) || IsDeletion((a + b)[i]) {
      if i >= |a| {
        assert (a + b)[i] == b[i - |a|];
      } else {
        assert (a + b)[i] == a[i];
      }
    }
  }

  /** Such a log runs no subprocess and copies nothing. */
  lemma TidyIsQuiet(t: seq<Event>)
    requires Tidy(t)
    ensures Launches(t) == [] && forall flag :: Probes(t, flag) == 0
    ensures forall e: Event :: e.Copy? ==> Count(t, e) == 0
  {
    CallFree(t);
    forall e: Event | e.Copy? ensures Count(t, e) == 0 {
      assert e !in t;
      CountAbsent(t, e);
    }
  }

  /** The log counters after one more event. */
  lemma Snoc(t: seq<Event>, e: Event, c: Event, flag: string)
    ensures Launches(t + [e]) == Launches(t) + (if e.Call? && !IsProbe(e.argv) then [e.argv] else [])
    ensures Probes(t + [e], flag) == Probes(t, flag) + (if e.Call? && |e.argv| == 2 && e.argv[1] == flag then 1 else 0)
    ensures Count(t + [e], c) == Count(t, c) + (if e == c then 1 else 0)
  {
    assert (t + [e])[..|t|] == t;
  }

  // ---------------------------------------------------------------------
  // Existence tests

  /** An existence test and whether it passes. */
  datatype Test = Test(event: Event, passes: bool)

  function Events(tests: seq<Test>): (r: seq<Event>)
    ensures |r| == |tests|
    ensures forall i :: 0 <= i < |tests| ==> r[i] == tests[i].event
  {
    if tests == [] then [] else Events(tests[..|tests| - 1]) + [tests[|tests| - 1].event]
  }

  predicate AllPass(tests: seq<Test>)
  {
    forall i :: 0 <= i < |tests| ==> tests[i].passes
  }

  /** The tests a scan performs when it stops at the first one that fails:
      all of them if every test passes, otherwise those up to and
      including the first failing one. */
  function Trail(tests: seq<Test>): seq<Event>
  {
    if tests == [] then []
    else if !tests[0].passes then [tests[0].event]
    else [tests[0].event] + Trail(tests[1..])
  }

  /** A scan performs its tests in order, and at least one when it has
      any. */
  lemma {:induction false} TrailPrefix(tests: seq<Test>)
    ensures |Trail(tests)| <= |tests|
    ensures tests != [] ==> |Trail(tests)| > 0
    ensures forall i :: 0 <= i < |Trail(tests)| ==> Trail(tests)[i] == tests[i].event
  {
    if tests != [] && tests[0].passes {
      TrailPrefix(tests[1..]);
    }
  }

  /** A scan whose tests all pass performs every test. */
  lemma {:induction false} TrailAllPass(tests: seq<Test>)
    requires AllPass(tests)
    ensures Trail(tests) == Events(tests)
  {
    if tests != [] {
      TrailAllPass(tests[1..]);
      assert Trail(tests) == [tests[0].event] + Events(tests[1..]);
    }
  }

  /** A scan that reaches test k with every earlier test passed and test k
      failing performs exactly the tests up to k. */
  lemma {:induction false} TrailStopsAt(tests: seq<Test>, k: nat)
    requires k < |tests| && AllPass(tests[..k]) && !tests[k].passes
    ensures Trail(tests) == Events(tests[..k + 1])
  {
    if k > 0 {
      var rest := tests[1..];
      assert tests[..k][0] == tests[0];
      forall j | 0 <= j < k - 1 ensures rest[j].passes {
        assert rest[j] == tests[..k][j + 1];
      }
      assert forall j :: 0 <= j < k - 1 ==> rest[..k - 1][j] == rest[j];
      TrailStopsAt(rest, k - 1);
      assert Trail(tests) == [tests[0].event] + Events(rest[..k]);
    }
  }

  /** Two scans run one after the other, the second only when the first
      passes throughout, perform the tests of one scan over both lists. */
  lemma {:induction false} TrailConcat(a: seq<Test>, b: seq<Test>)
    ensures AllPass(a + b) <==> AllPass(a) && AllPass(b)
    ensures Trail(a + b) == if AllPass(a) then Events(a) + Trail(b) else Trail(a)
    decreases |a|
  {
    if a == [] {
      assert a + b == b;
    } else {
      assert (a + b)[0] == a[0] && (a + b)[1..] == a[1..] + b;
      TrailConcat(a[1..], b);
      AllPassCons(a);
      AllPassCons(a + b);
      if a[0].passes && AllPass(a[1..]) {
        EventsCons(a);
      }
    }
  }

  lemma AllPassCons(a: seq<Test>)
    requires a != []
    ensures AllPass(a) <==> a[0].passes && AllPass(a[1..])
  {
    assert forall i :: 1 <= i < |a| ==> a[i] == a[1..][i - 1];
  }

  lemma EventsCons(a: seq<Test>)
    requires a != []
    ensures Events(a) == [a[0].event] + Events(a[1..])
  {
    assert forall i :: 1 <= i < |a| ==> a[i] == a[1..][i - 1];
  }

  /** The contents of `build.cfg` as `configparser` sees it: not text in
      the locale's encoding (reading it raises `UnicodeDecodeError`),
      unparsable, or parsed with the `[commands]` keys `godot` and
      `butler` present or missing. */
  datatype Config = Undecodable | Unparsable | Parsed(godot: Option<string>, butler: Option<string>)

  /** The machine a build script runs on. The constants are oracles that
      the scripts only query; `outputs` (the channel output directories,
      keyed by channel) and `trace` (every external action so far) change
      as the scripts run. */
  class Host {
    /** Paths at which `os.path.isdir` holds. */
    const dirs: set<string>
    /** Paths at which `os.path.isfile` holds, outside the channel trees. */
    const files: set<string>
    /** Contents of the files that can be opened and read. */
    const texts: map<string, string>
    /** What `configparser` makes of `build.cfg`. */
    const config: Config
    /** Exit code of each subprocess that can be started; an argument
        vector missing here cannot be started (an OSError). */
    const exitCodes: map<seq<string>, int>
    /** Destinations to which a copy fails with an OSError. */
    const copyFails: set<string>
    /** The directory of each channel (missing: it cannot be listed). */
    var outputs: map<string, Node>
    /** Every external action performed so far, oldest first. */
    var trace: seq<Event>

    constructor (dirs: set<string>, files: set<string>, texts: map<string, string>, config: Config,
                 exitCodes: map<seq<string>, int>, copyFails: set<string>, outputs: map<string, Node>)
      ensures this.dirs == dirs && this.files == files && this.texts == texts
      ensures this.config == config && this.exitCodes == exitCodes && this.copyFails == copyFails
      ensures this.outputs == outputs && trace == []
    {
      this.dirs, this.files, this.texts, this.config := dirs, files, texts, config;
      this.exitCodes, this.copyFails, this.outputs := exitCodes, copyFails, outputs;
      trace := [];
    }

    /** The subprocess can be started. */
    predicate Starts(argv: seq<string>)
    {
      argv in exitCodes
    }

    /** `subprocess.check_call(argv)` returns normally (exit code 0). */
    predicate Succeeds(argv: seq<string>)
    {
      argv in exitCodes && exitCodes[argv] == 0
    }

    /** `shutil.copy(src, dst)` returns normally. */
    predicate CopySucceeds(src: string, dst: string)
    {
      src in files && dst !in copyFails
    }
  }
}
