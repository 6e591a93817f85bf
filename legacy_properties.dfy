/** What the operations of `build.py` guarantee, stated over the
    functions that describe them: which channel directories a clean
    leaves and when it fails, that cleaning runs no subprocess, in which
    order and how often exports launch the engine, and what `run` does
    for each request. */
module LegacyProperties {
  import opened Env
  import opened LegacyBuild

  // ---------------------------------------------------------------------
  // What the checks add to the log

  /** What the cached checks of `build.py` can add to the log: the layout
      and channel checks only look at files; the engine check also runs
      the engine with `--version`, once at most, and nothing else. */
  predicate Checks(f: Facts)
  {
    && AllLook(f.layoutTrail) && AllLook(f.channelTrail)
    && (forall i :: 0 <= i < |f.godotTrail| ==>
          Looks(f.godotTrail[i]) || f.godotTrail[i] == Call([f.godotPath, "--version"]))
    && Probes(f.godotTrail, "--version") <= 1
  }

  /** The checks as the environment determines them are of that kind. */
  lemma ChecksHold(h: Host)
    ensures Checks(FactsOf(h))
  {
    var f := FactsOf(h);
    LayoutTrailTests(h);
    forall i | 0 <= i < |f.layoutTrail| ensures Looks(f.layoutTrail[i]) {
      assert f.layoutTrail[i] in Trail(LayoutTests(h));
    }
    GodotSourceProbes(h);
  }

  /** `has_channels` only looks at files. */
  lemma ChannelsTrailLooks(f: Facts, dir: Tri, chans: Tri)
    requires Checks(f)
    ensures AllLook(ChannelsTrailFrom(f, dir, chans))
  {
    if chans == Maybe {
      LookConcat(LayoutTrailFrom(f, dir), if f.layout then f.channelTrail else []);
    }
  }

  /** `has_godot` launches and copies nothing, and probes the engine only
      while its state is unsettled, once at most. */
  lemma GodotTrailQuiet(f: Facts, dir: Tri, gs: Tri)
    requires Checks(f)
    ensures var t := GodotTrailFrom(f, dir, gs);
            && Launches(t) == [] && Probes(t, "--version") <= (if gs == Maybe then 1 else 0)
            && forall e: Event :: e.Copy? ==> Count(t, e) == 0
  {
    if gs == Maybe {
      var a := LayoutTrailFrom(f, dir);
      var b := if f.layout then f.godotTrail else [];
      TidyIsQuiet(a);
      GodotSourceQuiet(f, b);
      LaunchesAppend(a, b);
      ProbesAppend(a, b, "--version");
      forall e: Event | e.Copy? ensures Count(a + b, e) == 0 {
        CountAppend(a, b, e);
      }
    }
  }

  /** The tests of the engine's path only look at files and probe it. */
  lemma GodotSourceQuiet(f: Facts, b: seq<Event>)
    requires Checks(f) && (b == f.godotTrail || b == [])
    ensures Launches(b) == [] && Probes(b, "--version") <= 1
    ensures forall e: Event :: e.Copy? ==> Count(b, e) == 0
  {
    assert forall i :: 0 <= i < |b| && b[i].Call? ==> IsProbe(b[i].argv);
    LaunchFree(b);
    forall e: Event | e.Copy? ensures Count(b, e) == 0 {
      assert e !in b;
      CountAbsent(b, e);
    }
  }

  // ---------------------------------------------------------------------
  // Cleaning

  /** `clean_channel` succeeds exactly when the channel is listed, its
      directory can be listed and every entry in it is a placeholder or
      can be deleted; it then leaves only the placeholders. It touches
      no other channel directory, and an unlisted channel is left alone
      after the checks. */
  lemma CleanOutcome(f: Facts, dir: Tri, chans: Tri, out: map<string, Node>, channel: string)
    ensures var o := CleanSpec(f, dir, chans, out, channel);
            o.status == Returned(true) <==>
              && Selected(f, channel) && Listable(out, channel)
              && forall i :: 0 <= i < |Listing(out[channel])| ==> Wipeable(Listing(out[channel])[i])
    ensures var o := CleanSpec(f, dir, chans, out, channel);
            o.status == Returned(true) ==>
              o.outputs == out[channel := Relisted(out[channel], Placeholders(Listing(out[channel])))]
    ensures var o := CleanSpec(f, dir, chans, out, channel);
            o.outputs.Keys == out.Keys && forall c :: c in out && c != channel ==> o.outputs[c] == out[c]
    ensures !Selected(f, channel) ==>
              CleanSpec(f, dir, chans, out, channel) == Outcome(Returned(false), out, ChannelsTrailFrom(f, dir, chans))
  {
    if Selected(f, channel) && Listable(out, channel) {
      WipeOutcome(ChannelDir(channel), Listing(out[channel]));
    }
  }

  /** When an entry cannot be deleted, `clean_channel` stops at it: the
      entries before it are gone except the placeholders, it and all the
      entries after it remain, and the failed deletion is the last
      action. */
  lemma CleanStops(f: Facts, dir: Tri, chans: Tri, out: map<string, Node>, channel: string,
                   pre: seq<Entry>, rest: seq<Entry>)
    requires Selected(f, channel) && Listable(out, channel)
    requires Listing(out[channel]) == pre + rest
    requires AllWipeable(pre) && rest != [] && !Wipeable(rest[0])
    ensures var o := CleanSpec(f, dir, chans, out, channel);
            && o.status != Returned(true)
            && o.outputs == out[channel := Relisted(out[channel], Placeholders(pre) + rest)]
            && |o.log| > 0 && o.log[|o.log| - 1] == Attempt(ChannelDir(channel) + "/" + rest[0].name, rest[0].node)
  {
    WipeStopsAtFailure(ChannelDir(channel), pre, rest);
  }

  /** Cleaning a channel that was just cleaned does nothing and succeeds:
      the channel checks are settled and only placeholders are left. */
  lemma CleanAgain(f: Facts, dir: Tri, chans: Tri, out: map<string, Node>, channel: string)
    requires CleanSpec(f, dir, chans, out, channel).status == Returned(true)
    ensures var o := CleanSpec(f, dir, chans, out, channel);
            CleanSpec(f, Yes, Yes, o.outputs, channel) == Outcome(Returned(true), o.outputs, [])
  {
    var o := CleanSpec(f, dir, chans, out, channel);
    var es := Listing(out[channel]);
    CleanSucceeded(f, dir, chans, out, channel);
    WipeIdempotent(ChannelDir(channel), es);
    var d := Relisted(out[channel], Placeholders(es));
    assert o.outputs[channel] == d;
    assert o.outputs[channel := d] == o.outputs;
  }

  /** The channel checks and the deletions of a clean only look at files
      and delete: cleaning runs no subprocess and copies nothing. */
  lemma CleanQuiet(f: Facts, dir: Tri, chans: Tri, out: map<string, Node>, channel: string)
    requires Checks(f)
    ensures var o := CleanSpec(f, dir, chans, out, channel);
            Tidy(o.log) && Launches(o.log) == [] && forall flag :: Probes(o.log, flag) == 0
  {
    var pre := ChannelsTrailFrom(f, dir, chans);
    ChannelsTrailLooks(f, dir, chans);
    if Selected(f, channel) && Listable(out, channel) {
      var w := WipeFrom(ChannelDir(channel), Listing(out[channel]));
      WipeOnlyDeletes(ChannelDir(channel), Listing(out[channel]));
      TidyConcat(pre, w.log);
    }
    TidyIsQuiet(CleanSpec(f, dir, chans, out, channel).log);
  }

  /** The loop of `clean_all_channels` runs no subprocess. */
  lemma {:induction false} CleanFirstQuiet(f: Facts, out: map<string, Node>, cs: seq<string>, n: nat)
    requires Checks(f) && n <= |cs|
    ensures var o := CleanFirst(f, out, cs, n);
            Tidy(o.log) && Launches(o.log) == [] && forall flag :: Probes(o.log, flag) == 0
  {
    var o := CleanFirst(f, out, cs, n);
    if n > 0 {
      var p := CleanFirst(f, out, cs, n - 1);
      CleanFirstQuiet(f, out, cs, n - 1);
      if p.status == Returned(true) {
        var c := CleanSpec(f, Yes, Yes, p.outputs, cs[n - 1]);
        CleanQuiet(f, Yes, Yes, p.outputs, cs[n - 1]);
        TidyConcat(p.log, c.log);
      }
    }
    TidyIsQuiet(o.log);
  }

  /** `clean_all_channels` runs no subprocess. */
  lemma CleanAllQuiet(f: Facts, dir: Tri, chans: Tri, out: map<string, Node>)
    requires Checks(f)
    ensures var o := CleanAllSpec(f, dir, chans, out);
            Launches(o.log) == [] && forall flag :: Probes(o.log, flag) == 0
  {
    var pre := ChannelsTrailFrom(f, dir, chans);
    ChannelsTrailLooks(f, dir, chans);
    if f.channelsOk {
      var l := CleanFirst(f, out, f.listed, |f.listed|);
      CleanFirstQuiet(f, out, f.listed, |f.listed|);
      TidyConcat(pre, l.log);
    }
    TidyIsQuiet(CleanAllSpec(f, dir, chans, out).log);
  }

  // ---------------------------------------------------------------------
  // Exporting

  /** After the clean, `export_channel` launches the export exactly when
      the engine is available, probes it only while its state is
      unsettled, copies the EULA only after an export that succeeded, and
      succeeds exactly when the engine is available, the export succeeds
      and the copy succeeds. */
  lemma ExportTailSteps(h: Host, f: Facts, gs: Tri, out: map<string, Node>, channel: string)
    requires Checks(f) && Listable(out, channel)
    ensures var t := ExportTail(h, f, gs, out, channel);
            var argv := ExportArgv(f.godotPath, channel);
            && Launches(t.log) == (if f.godotOk then [argv] else [])
            && Probes(t.log, "--version") <= (if gs == Maybe then 1 else 0)
            && Count(t.log, Copy(EULA_PATH, ReadmePath(channel))) == (if f.godotOk && h.Succeeds(argv) then 1 else 0)
            && (t.status == Returned(true) <==>
                  f.godotOk && h.Succeeds(argv) && h.CopySucceeds(EULA_PATH, ReadmePath(channel)))
  {
    var g := GodotTrailFrom(f, Yes, gs);
    var argv := ExportArgv(f.godotPath, channel);
    var cp := Copy(EULA_PATH, ReadmePath(channel));
    GodotTrailQuiet(f, Yes, gs);
    if f.godotOk {
      Snoc(g, Call(argv), cp, "--version");
      if h.Succeeds(argv) {
        Snoc(g + [Call(argv)], cp, cp, "--version");
        assert g + [Call(argv), cp] == g + [Call(argv)] + [cp];
      }
    }
  }

  /** `export_channel` launches at most the one export of the channel,
      and launches it whenever it succeeds; it probes the engine only
      while its state is unsettled, once at most. */
  lemma ExportLaunches(h: Host, f: Facts, dir: Tri, chans: Tri, gs: Tri, out: map<string, Node>, channel: string)
    requires Checks(f)
    ensures var o := ExportSpec(h, f, dir, chans, gs, out, channel);
            var argv := ExportArgv(f.godotPath, channel);
            && (Launches(o.log) == [] || Launches(o.log) == [argv])
            && (o.status == Returned(true) ==> Launches(o.log) == [argv])
            && Probes(o.log, "--version") <= (if gs == Maybe then 1 else 0)
  {
    var c := CleanSpec(f, dir, chans, out, channel);
    CleanQuiet(f, dir, chans, out, channel);
    if c.status == Returned(true) {
      CleanSucceeded(f, dir, chans, out, channel);
      var t := ExportTail(h, f, gs, c.outputs, channel);
      ExportTailSteps(h, f, gs, c.outputs, channel);
      LaunchesAppend(c.log, t.log);
      ProbesAppend(c.log, t.log, "--version");
    }
  }

  /** `export_channel` does nothing beyond a clean that fails. Otherwise
      it launches the export exactly when the engine is available, copies
      the EULA only after the export succeeded, and succeeds exactly when
      the clean, the engine check, the export and the copy all do; the
      channel directory then holds its placeholders and the EULA. */
  lemma ExportSteps(h: Host, f: Facts, dir: Tri, chans: Tri, gs: Tri, out: map<string, Node>, channel: string)
    requires Checks(f)
    ensures var c := CleanSpec(f, dir, chans, out, channel);
            var o := ExportSpec(h, f, dir, chans, gs, out, channel);
            var argv := ExportArgv(f.godotPath, channel);
            var ready := c.status == Returned(true) && f.godotOk;
            && (c.status != Returned(true) ==> o == c)
            && Launches(o.log) == (if ready then [argv] else [])
            && Count(o.log, Copy(EULA_PATH, ReadmePath(channel))) == (if ready && h.Succeeds(argv) then 1 else 0)
            && (o.status == Returned(true) <==>
                  ready && h.Succeeds(argv) && h.CopySucceeds(EULA_PATH, ReadmePath(channel)))
  {
    var c := CleanSpec(f, dir, chans, out, channel);
    CleanQuiet(f, dir, chans, out, channel);
    TidyIsQuiet(c.log);
    if c.status == Returned(true) {
      CleanSucceeded(f, dir, chans, out, channel);
      var t := ExportTail(h, f, gs, c.outputs, channel);
      var cp := Copy(EULA_PATH, ReadmePath(channel));
      ExportTailSteps(h, f, gs, c.outputs, channel);
      LaunchesAppend(c.log, t.log);
      CountAppend(c.log, t.log, cp);
    }
  }

  /** After a successful `export_channel` the channel directory holds its
      placeholders and the EULA, and no other directory has changed. */
  lemma ExportLeaves(h: Host, f: Facts, dir: Tri, chans: Tri, gs: Tri, out: map<string, Node>, channel: string)
    requires ExportSpec(h, f, dir, chans, gs, out, channel).status == Returned(true)
    ensures ExportSpec(h, f, dir, chans, gs, out, channel).outputs
            == out[channel := Relisted(out[channel], Placeholders(Listing(out[channel])) + [Entry(README, File(false))])]
  {
    CleanSucceeded(f, dir, chans, out, channel);
    var d := Relisted(out[channel], Placeholders(Listing(out[channel])));
    assert out[channel := d][channel := WithReadme(d)] == out[channel := WithReadme(d)];
  }

  /** One more iteration of a loop that stops at the first failure, seen
      from its launches: if the launches so far are a prefix of the plan
      (all of it on success) and the next iteration launches at most the
      next step of the plan (that step on success), the same holds for the
      plan extended by that step. */
  lemma PlanStep(p: Outcome, e: Outcome, o: Outcome, plan: seq<seq<string>>, argv: seq<string>, bound: nat)
    requires o == if p.status != Returned(true) then p else Then(p.log, e)
    requires IsPrefix(Launches(p.log), plan) && (p.status == Returned(true) ==> Launches(p.log) == plan)
    requires Launches(e.log) == [] || Launches(e.log) == [argv]
    requires e.status == Returned(true) ==> Launches(e.log) == [argv]
    requires Probes(p.log, "--version") + (if p.status == Returned(true) then Probes(e.log, "--version") else 0) <= bound
    ensures IsPrefix(Launches(o.log), plan + [argv])
    ensures o.status == Returned(true) ==> Launches(o.log) == plan + [argv]
    ensures Probes(o.log, "--version") <= bound
  {
    if p.status == Returned(true) {
      LaunchesAppend(p.log, e.log);
      ProbesAppend(p.log, e.log, "--version");
    } else {
      assert (plan + [argv])[..|plan|] == plan;
    }
  }

  /** One export after the exports that launched `plan`. */
  lemma ExportThen(h: Host, f: Facts, g: Tri, p: Outcome, channel: string, plan: seq<seq<string>>, bound: nat)
    requires Checks(f) && p.status == Returned(true) && Launches(p.log) == plan
    requires Probes(p.log, "--version") + (if g == Maybe then 1 else 0) <= bound
    ensures var o := Then(p.log, ExportSpec(h, f, Yes, Yes, g, p.outputs, channel));
            && IsPrefix(Launches(o.log), plan + [ExportArgv(f.godotPath, channel)])
            && (o.status == Returned(true) ==> Launches(o.log) == plan + [ExportArgv(f.godotPath, channel)])
            && Probes(o.log, "--version") <= bound
  {
    var e := ExportSpec(h, f, Yes, Yes, g, p.outputs, channel);
    ExportLaunches(h, f, Yes, Yes, g, p.outputs, channel);
    PlanStep(p, e, Then(p.log, e), plan, ExportArgv(f.godotPath, channel), bound);
  }

  /** Iteration i + 1 of the export loop, after i that succeeded and
      launched `plan`. */
  lemma ExportNextPlan(h: Host, f: Facts, gs: Tri, out: map<string, Node>, cs: seq<string>, i: nat, p: Outcome,
                       plan: seq<seq<string>>)
      returns (o: Outcome)
    requires Checks(f) && i < |cs| && p.status == Returned(true)
    requires Exported(h, f, gs, out, cs, i, p) && Launches(p.log) == plan
    requires Probes(p.log, "--version") <= (if gs == Maybe then 1 else 0) && (i == 0 ==> p.log == [])
    ensures Exported(h, f, gs, out, cs, i + 1, o)
    ensures IsPrefix(Launches(o.log), plan + [ExportArgv(f.godotPath, cs[i])])
    ensures o.status == Returned(true) ==> Launches(o.log) == plan + [ExportArgv(f.godotPath, cs[i])]
    ensures Probes(o.log, "--version") <= (if gs == Maybe then 1 else 0)
  {
    var g := if i == 0 then gs else Yes;
    ExportThen(h, f, g, p, cs[i], plan, if gs == Maybe then 1 else 0);
    o := Then(p.log, ExportSpec(h, f, Yes, Yes, g, p.outputs, cs[i]));
    assert ExportFirst(h, f, gs, out, cs, i + 1) == o;
  }

  /** The iterations of the export loop up to the first that fails, or
      all of them. */
  lemma ExportRun(h: Host, f: Facts, gs: Tri, out: map<string, Node>, cs: seq<string>)
      returns (i: nat, o: Outcome)
    requires Checks(f)
    ensures i <= |cs| && (i == |cs| || o.status != Returned(true)) && Exported(h, f, gs, out, cs, i, o)
    ensures IsPrefix(Launches(o.log), ExportPlan(f.godotPath, cs[..i]))
    ensures o.status == Returned(true) ==> Launches(o.log) == ExportPlan(f.godotPath, cs[..i])
    ensures Probes(o.log, "--version") <= (if gs == Maybe then 1 else 0)
  {
    o := Outcome(Returned(true), out, []);
    i := 0;
    assert ExportFirst(h, f, gs, out, cs, 0) == o;
    assert cs[..0] == [];
    while i < |cs| && o.status == Returned(true)
      invariant 0 <= i <= |cs| && Exported(h, f, gs, out, cs, i, o)
      invariant IsPrefix(Launches(o.log), ExportPlan(f.godotPath, cs[..i]))
      invariant o.status == Returned(true) ==> Launches(o.log) == ExportPlan(f.godotPath, cs[..i])
      invariant Probes(o.log, "--version") <= (if gs == Maybe then 1 else 0)
      invariant i == 0 ==> o.log == []
    {
      o := ExportNextPlan(h, f, gs, out, cs, i, o, ExportPlan(f.godotPath, cs[..i]));
      assert cs[..i + 1][..i] == cs[..i];
      i := i + 1;
    }
  }

  /** The export loop launches the exports of its channels in order,
      stopping at the first failure: the launches are a prefix of that
      plan and all of it when every iteration succeeds. The engine is
      probed once at most. */
  lemma ExportFirstPlan(h: Host, f: Facts, gs: Tri, out: map<string, Node>, cs: seq<string>)
    requires Checks(f)
    ensures var o := ExportFirst(h, f, gs, out, cs, |cs|);
            && IsPrefix(Launches(o.log), ExportPlan(f.godotPath, cs))
            && (o.status == Returned(true) ==> Launches(o.log) == ExportPlan(f.godotPath, cs))
            && Probes(o.log, "--version") <= (if gs == Maybe then 1 else 0)
  {
    var i, o := ExportRun(h, f, gs, out, cs);
    ExportedAll(h, f, gs, out, cs, i, o);
    assert cs[..|cs|] == cs;
    var head := ExportPlan(f.godotPath, cs[..i]);
    assert ExportPlan(f.godotPath, cs)[..|head|] == head;
    PrefixTrans(Launches(o.log), head, ExportPlan(f.godotPath, cs));
  }

  /** `export_all_channels` launches the exports of the listed channels in
      the order of the channel list, stopping at the first failure, and
      probes the engine once at most. */
  lemma ExportAllPlan(h: Host, f: Facts, dir: Tri, chans: Tri, gs: Tri, out: map<string, Node>)
    requires Checks(f)
    ensures var o := ExportAllSpec(h, f, dir, chans, gs, out);
            && IsPrefix(Launches(o.log), ExportPlan(f.godotPath, f.listed))
            && (o.status == Returned(true) ==> Launches(o.log) == ExportPlan(f.godotPath, f.listed))
            && Probes(o.log, "--version") <= (if gs == Maybe then 1 else 0)
  {
    var pre := ChannelsTrailFrom(f, dir, chans);
    ChannelsTrailLooks(f, dir, chans);
    TidyIsQuiet(pre);
    if f.channelsOk {
      var l := ExportFirst(h, f, gs, out, f.listed, |f.listed|);
      ExportFirstPlan(h, f, gs, out, f.listed);
      LaunchesAppend(pre, l.log);
      ProbesAppend(pre, l.log, "--version");
    }
  }

  // ---------------------------------------------------------------------
  // Dispatch

  /** `run` acts only on the requests it knows: a usage error does
      nothing at all; `help`, `list` and the clean commands run no
      subprocess; `help`, `list` and a usage error change no channel
      directory; only the export commands launch anything. */
  lemma RunDispatch(h: Host, f: Facts, dir: Tri, chans: Tri, gs: Tri, out: map<string, Node>, args: seq<string>)
    requires Checks(f)
    ensures var o := RunSpec(h, f, dir, chans, gs, out, args);
            && (Parse(args) == Usage ==> o == Outcome(Returned(false), out, []))
            && (Parse(args) in {Help, List, Usage} ==> o.outputs == out)
            && (!(Parse(args) == ExportAll || Parse(args).ExportOne?) ==>
                  Launches(o.log) == [] && forall flag :: Probes(o.log, flag) == 0)
  {
    match Parse(args)
    case Help =>
    case List =>
      ChannelsTrailLooks(f, dir, chans);
      TidyIsQuiet(ChannelsTrailFrom(f, dir, chans));
    case CleanAll => CleanAllQuiet(f, dir, chans, out);
    case ExportAll =>
    case CleanOne(c) => CleanQuiet(f, dir, chans, out, c);
    case ExportOne(c) =>
    case Usage =>
  }
}
