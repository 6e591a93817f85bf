# Coldest Night release scripts in Dafny

This project models the two release scripts of the Coldest Night Godot game and proves properties about them. Both scripts check the working directory and the tools, clean the per-channel output directories, export each channel with the Godot engine, and (in the newer script) publish each channel to itch.io with `butler`.

- `build.py` is the older script. Its `BuildCommand` class caches tri-state checks (`NO`/`MAYBE`/`YES`), reads the channel list and the engine path from text files, and cleans with `shutil.rmtree`/`os.remove`. `run` dispatches `help`, `list`, `clean [channel]` and `export [channel]`, and `main` maps the result to an exit code.
- `etc/builds/build.py` is the newer script. It keeps module globals with `has_checked_*` flags, reads `build.cfg` for the `godot` and `butler` commands, and uses a fixed channel list. It cleans with a recursive `clean_dir` bounded at depth 8. Its `run_command` dispatches `clean`, `export` and `publish`, and `publish` asks for a passcode before it exports and pushes every channel.

The machine is the class `Env.Host`. Its constants are oracles:
- which paths are files or directories;
- file contents;
- what `configparser` makes of `build.cfg`;
- the exit code of each subprocess;
- which copies fail.

Its variables are:
- `outputs`: the channel output directories, as trees of entries. An entry is a file, a symbolic link, a directory, a directory whose contents cannot be listed (listing it raises `OSError`), or an entry of another kind; each may be locked against deletion. A symbolic link records what it resolves to: a file, a directory with its listing, an unlistable directory, or nothing. A channel directory is reached through its path, so a channel directory that is a symbolic link to a directory is listed, cleaned and copied into through the link;
- `trace`: every external action, in order (existence tests, reads, subprocess calls, deletions, copies).

Each script operation is a method on the script's own class (`LegacyBuild.BuildCommand`, `ReleaseBuild.Script`). Each method is proved equal to a specification function of the old state: its result, the new directories and the events it appends. The properties are lemmas about those functions:
- which subprocesses run, in which order, and how often each tool is probed;
- what a clean leaves behind, and that a clean is idempotent;
- fail-fast stopping of the channel loops;
- that the cached checks never test twice;
- the command-line dispatch.

Python exceptions are modelled as result values:
- `build.py`: `Returned(b)` for a returned boolean, `Raised` for an exception that escapes;
- `etc/builds/build.py`: `Done`, `Failed(kind)` for a `BuildError`, `Crashed` for any other exception.

Where the code's behaviour differs from the intended design, the model follows the statements as written:
- The EULA copy in both scripts is wrapped in `except shutil.Error`, but `shutil.copy` raises `OSError`. A failed copy therefore escapes: `Raised` in the older script and `Crashed` in the newer one. It is not reported as a build error.
- In `build.py`, `subprocess.check_call` for the export catches only `CalledProcessError`. An engine that cannot be started raises `OSError`, which escapes.
- In `build.py`, cleaning wraps `rmtree` in `except shutil.Error`, but deletion failures are `OSError`. They escape as `Raised`.
- `clean_dir` removes symbolic links as files (`is_entry_file`) and never descends into them, so a symbolic-link cycle cannot reach the depth bound. The bound is modelled as written: a fault at depth 8.

## Model

| member | source | states |
|---|---|---|
| Text.StripSplits | build.py:102 | `str.strip` removes whitespace from both ends only: the result is a slice of the input padded by whitespace on each side, and starts and ends with a non-space character |
| Text.StripPadded | build.py:102 | padding a trimmed text with whitespace and stripping gives that text back |
| Text.StripIdempotent | build.py:146 | stripping twice is the same as stripping once |
| Text.Translate | build.py:145-146 | reading a file in text mode leaves no carriage return and never lengthens the text |
| Text.TranslateKeeps | build.py:145-146 | a text without carriage returns reads as itself |
| Text.TranslateIdempotent | build.py:145-146 | translating newlines twice is the same as once |
| Text.SplitLinesJoin | build.py:94-95 | `readlines()` splits the text into non-empty lines that join back to it, each ending at its only `\n` (the last possibly without one) |
| Text.Decimal | etc/builds/build.py:229 | the decimal rendering of the drawn number is non-empty and made of digits |
| Text.DecimalRoundTrip | etc/builds/build.py:229 | reading the decimal rendering back gives the number |
| Env.PutContents | build.py:251-255 | after a copy the listing holds the copied file and every entry with another name, and nothing else |
| Env.PutFresh | etc/builds/build.py:196-197 | copying a file with a new name appends it to the listing |
| Env.TrailPrefix | build.py:62-72 | a scan performs its tests in order, and at least one when it has any |
| Env.TrailAllPass | build.py:62-72 | a scan whose tests all pass performs every test |
| Env.TrailStopsAt | build.py:62-72 | a scan that fails at test k performs exactly the tests up to k |
| Env.TrailConcat | build.py:53-75 | two scans in a row, the second only when the first passes, act as one scan over both lists |
| LegacyBuild.FirstLine | build.py:101-105 | the index of the first line that strips to a channel: no earlier line does, and that one does |
| LegacyBuild.ChannelListMembers | build.py:101-105 | a channel is listed iff it is non-blank and some line strips to it |
| LegacyBuild.ChannelListDistinct | build.py:104-105 | no channel is listed twice |
| LegacyBuild.ChannelListTrimmed | build.py:102-104 | every listed channel is non-empty with no surrounding whitespace |
| LegacyBuild.ChannelListOrder | build.py:101-105 | channels are listed in the order of their first appearance in the file |
| LegacyBuild.ExistenceTests | build.py:62-72 | one existence test per required path |
| LegacyBuild.LayoutTestsPass | build.py:53-75 | the layout tests all pass iff every required directory and file exists |
| LegacyBuild.LayoutTrailTests | build.py:62-72 | the layout check tests only the required directories and files |
| LegacyBuild.WrongDirOnlyTests | build.py:82-86 | with the wrong working directory, `has_channels` and `has_godot` only test the layout: no read and no subprocess |
| LegacyBuild.LayoutTrailCallFree | build.py:53-75 | the layout check runs no subprocess |
| LegacyBuild.ChannelsTrailCallsNothing | build.py:78-113 | loading the channel list runs no subprocess and probes nothing |
| LegacyBuild.GodotSourceProbes | build.py:139-167 | after the layout check, `has_godot` runs only the `--version` probe, at most once |
| LegacyBuild.WipeOnlyDeletes | build.py:195-216 | cleaning only attempts deletions |
| LegacyBuild.WipeStep | build.py:195-216 | one loop step: the placeholder is kept, an entry that cannot be deleted stops the loop with its status, and any other entry is deleted and the loop goes on |
| LegacyBuild.WipeOutcome | build.py:195-216 | cleaning succeeds iff every entry is the placeholder or can be deleted, and then only the placeholders are left |
| LegacyBuild.WipeHead | build.py:195-216 | the first entry: a deletable entry is handled and the rest cleaned; one that cannot be deleted ends the clean with every entry left in place |
| LegacyBuild.WipeStopsAtFailure | build.py:195-216 | the clean stops at the first entry that cannot be deleted: earlier entries are gone except placeholders, that entry and all later ones remain, and its failed deletion is the last event |
| LegacyBuild.WipeIdempotent | build.py:195-216 | cleaning a clean directory deletes nothing and succeeds |
| LegacyBuild.PlaceholdersNamed | build.py:196-197 | only the placeholder survives a successful clean |
| LegacyBuild.ExportPlan | build.py:244-249 | one engine command per channel, in channel order |
| LegacyBuild.Parse | build.py:287-310 | `run`'s dispatch: each word alone, or `clean`/`export` with exactly one channel; anything else is a usage error (both directions) |
| LegacyBuild.ExitCode | build.py:348 | the exit code is 0 iff `run` returned True, and 1 otherwise |
| LegacyBuild.CleanSucceeded | build.py:185-218 | a successful clean had a listed channel whose directory (or the directory its symbolic link points to) is listable, leaves only that directory's placeholders, and leaves no `readme.md` |
| LegacyBuild.CleanFirstStops | build.py:220-230 | once a channel fails, the clean-all loop does nothing more |
| LegacyBuild.ExportFirstStops | build.py:260-272 | once a channel fails, the export-all loop does nothing more |
| LegacyBuild.ExportedAll | build.py:260-272 | a loop that ran out of channels or failed has the outcome of the whole export-all loop |
| LegacyBuild.BuildCommand.constructor | build.py:30-50 | every cached state starts at MAYBE |
| LegacyBuild.BuildCommand.ScanLayout | build.py:62-72 | both loops: the result is true iff the layout is present, and the log is the tests up to the first failure |
| LegacyBuild.BuildCommand.ScanDirs | build.py:62-66 | the directory loop passes iff every directory exists, and tests them in order until one is missing |
| LegacyBuild.BuildCommand.ScanFiles | build.py:68-72 | the file loop passes iff every file exists, and tests them in order until one is missing |
| LegacyBuild.BuildCommand.HasCorrectDir | build.py:53-75 | the state moves from MAYBE only, is settled afterwards, and the layout is tested only while MAYBE |
| LegacyBuild.BuildCommand.LoadChannels | build.py:88-113 | passes iff the list file exists and reads to a non-empty channel list, which then becomes `channels` |
| LegacyBuild.BuildCommand.HasChannels | build.py:78-113 | cached channel check: answers from the state once it is settled, and never touches the file with a wrong directory |
| LegacyBuild.BuildCommand.HasChannel | build.py:116-126 | true iff the list loads and contains the channel |
| LegacyBuild.BuildCommand.LoadGodot | build.py:139-167 | passes iff the path file exists and is readable, the path (read in text mode, with universal newlines, then stripped) is non-empty and exists, and `--version` succeeds; it then stores that path |
| LegacyBuild.BuildCommand.HasGodot | build.py:129-170 | cached engine check, probing `--version` at most once per command |
| LegacyBuild.BuildCommand.ListAllChannels | build.py:173-182 | prints exactly the loaded channels when the list loads, and nothing otherwise |
| LegacyBuild.BuildCommand.Delete | build.py:201-216 | `rmtree` for what `isdir` calls a directory, `os.remove` otherwise; the outcome follows the entry's oracle, and `rmtree` raises on a tree holding a directory it cannot list |
| LegacyBuild.BuildCommand.WipeChannel | build.py:195-216 | the channel directory becomes what the clean leaves, and the log is its deletions |
| LegacyBuild.BuildCommand.CleanChannel | build.py:185-218 | the result, directories and log are those of the clean specification, which cleans a channel directory or the directory its symbolic link points to |
| LegacyBuild.BuildCommand.LaunchExport | build.py:244-249 | a zero exit code gives True, a non-zero one False, and an engine that cannot start raises |
| LegacyBuild.BuildCommand.CopyEula | build.py:251-255 | a successful copy puts `readme.md` into the channel directory; a failed one raises and changes nothing |
| LegacyBuild.BuildCommand.ExportCleaned | build.py:241-257 | the engine check, export and copy after the clean, as the specification says |
| LegacyBuild.BuildCommand.ExportChannel | build.py:233-257 | clean, engine check, export, copy, each only after the previous one succeeded |
| LegacyBuild.BuildCommand.CleanAllChannels | build.py:220-230 | cleans the listed channels in order and stops at the first failure |
| LegacyBuild.BuildCommand.CleanListed | build.py:225-230 | the loop over the list equals the clean-all loop specification |
| LegacyBuild.BuildCommand.CleanNext | build.py:225-230 | one iteration extends the loop specification by one channel |
| LegacyBuild.BuildCommand.Run | build.py:287-310 | dispatches to exactly one operation, as the run specification says |
| LegacyBuild.BuildCommand.ExportNext | build.py:265-272 | one iteration extends the export-all loop specification by one channel |
| LegacyBuild.BuildCommand.ExportAllChannels | build.py:260-272 | exports the listed channels in order and stops at the first failure |
| LegacyBuild.BuildCommand.ExportListed | build.py:265-272 | the loop over the list equals the export-all loop specification |
| LegacyBuild.MainExitCode | build.py:313-351 | no argv at all gives 1 and does nothing; otherwise a fresh command runs `argv[1:]` and the code is 0 iff that run returned True |
| LegacyProperties.ChecksHold | build.py:53-170 | the checks the machine determines only test, read and probe |
| LegacyProperties.ChannelsTrailLooks | build.py:78-113 | `has_channels` only looks at files |
| LegacyProperties.GodotTrailQuiet | build.py:129-170 | `has_godot` launches and copies nothing, and probes the engine at most once, and only while its state is MAYBE |
| LegacyProperties.GodotSourceQuiet | build.py:139-167 | the engine-path tests only look at files and probe once at most |
| LegacyProperties.CleanOutcome | build.py:185-218 | `clean_channel` succeeds iff the channel is listed, its directory (or its symbolic link's target directory) is listable and every entry can go; it then leaves only placeholders, changes no other directory, and leaves an unlisted channel's directory alone |
| LegacyProperties.CleanStops | build.py:195-216 | on an undeletable entry the clean stops there: earlier entries are gone except placeholders, later ones remain, and the failed attempt is the last event |
| LegacyProperties.CleanAgain | build.py:185-218 | cleaning a just-cleaned channel does nothing and succeeds |
| LegacyProperties.CleanQuiet | build.py:185-218 | a clean runs no subprocess and copies nothing |
| LegacyProperties.CleanFirstQuiet | build.py:225-230 | the clean-all loop runs no subprocess |
| LegacyProperties.CleanAllQuiet | build.py:220-230 | `clean_all_channels` runs no subprocess |
| LegacyProperties.ExportTailSteps | build.py:241-257 | after the clean, the export is launched iff the engine is available, the EULA is copied only after a successful export, and the result is True iff all three succeed |
| LegacyProperties.ExportLaunches | build.py:233-257 | `export_channel` launches at most the channel's export, always launches it when it succeeds, and probes at most once |
| LegacyProperties.ExportSteps | build.py:233-257 | a failed clean ends the export with nothing more done; otherwise launch and copy happen exactly as specified, and the result is True iff every step succeeds |
| LegacyProperties.ExportLeaves | build.py:233-257 | after a successful export the channel directory holds its placeholders and `readme.md` |
| LegacyProperties.PlanStep | build.py:265-272 | a fail-fast loop step keeps the launches a prefix of the plan, and all of it on success |
| LegacyProperties.ExportNextPlan | build.py:265-272 | one export iteration extends the launched prefix by that channel's command |
| LegacyProperties.ExportRun | build.py:265-272 | the iterations up to the first failure launch a prefix of the plan |
| LegacyProperties.ExportFirstPlan | build.py:265-272 | the export loop launches the channels' exports in order, stopping at the first failure, and probes at most once |
| LegacyProperties.ExportAllPlan | build.py:260-272 | `export_all_channels` launches the listed channels' exports in list order, a prefix of them (all on success), and probes the engine at most once |
| LegacyProperties.RunDispatch | build.py:287-310 | a usage error does nothing; `help`, `list` and the clean commands run no subprocess; `help`, `list` and usage change no directory |
| ReleaseClean.Treat | etc/builds/build.py:144-173 | files and symbolic links are unlinked, real directories (listable or not) are descended into, and other entries are refused |
| ReleaseClean.Itches | etc/builds/build.py:164-165 | the kept placeholders are `.itch` entries of the listing |
| ReleaseClean.SweepOutcome | etc/builds/build.py:156-173 | `clean_dir` succeeds iff the depth is below 8 and the tree has no broken, unlistable or undeletable entry within the bound; it then leaves the top-level `.itch` and empties every subdirectory before removing it |
| ReleaseClean.EntriesOutcome | etc/builds/build.py:162-173 | the entry loop succeeds iff every entry is cleanable, and then leaves what the clean specification says |
| ReleaseClean.HeadOutcome | etc/builds/build.py:164-173 | one entry is cleanable iff it is dealt with; only a top-level `.itch` is kept |
| ReleaseClean.SweepOnlyDeletes | etc/builds/build.py:156-173 | `clean_dir` only deletes |
| ReleaseClean.EntriesStep | etc/builds/build.py:163-173 | one loop iteration: a fault keeps the rest of the listing, otherwise the loop continues |
| ReleaseClean.SweepAgain | etc/builds/build.py:156-173 | cleaning a just-cleaned directory deletes nothing and succeeds |
| ReleaseClean.ItchesSkipped | etc/builds/build.py:164-165 | a listing of placeholders only is left as it is |
| ReleaseClean.CleanDir | etc/builds/build.py:156-173 | the recursive method returns what the clean specification leaves and logs its deletions |
| ReleaseClean.CleanEntries | etc/builds/build.py:162-173 | the loop over a listing returns what the specification leaves |
| ReleaseClean.CleanHead | etc/builds/build.py:164-173 | one iteration returns what the specification leaves |
| ReleaseBuild.FileTests | etc/builds/build.py:62-80 | one `isfile` test per required file |
| ReleaseBuild.CleanDirSpec | etc/builds/build.py:181-184 | a successful `clean_dir` is on a listable channel directory, or a symbolic link to one |
| ReleaseBuild.CleanChannelSpec | etc/builds/build.py:176-184 | a successful clean leaves the channel directory (or its symbolic link to one) listable |
| ReleaseBuild.ForChannelsStops | etc/builds/build.py:213-217 | once an iteration raises, `for_channels` does nothing more |
| ReleaseBuild.ForChannelsDone | etc/builds/build.py:213-217 | a loop that ran out of channels or raised has the outcome of `for_channels` |
| ReleaseBuild.ParseCommand | etc/builds/build.py:252-272 | `run_command`'s dispatch: a word alone, or `clean`/`export` with one or more channels; anything else is a usage error (both directions) |
| ReleaseBuild.Script.constructor | etc/builds/build.py:22-38 | the globals start empty, with every flag clear |
| ReleaseBuild.Script.Invoke | etc/builds/build.py:53-59 | `call` logs the subprocess and fails unless the exit code is 0 |
| ReleaseBuild.Script.ScanRequired | etc/builds/build.py:62-80 | the file loop passes iff the survey passes, and logs its tests |
| ReleaseBuild.Script.CheckFiles | etc/builds/build.py:62-80 | result, globals and log as the `check_files` specification says |
| ReleaseBuild.Script.CheckConfig | etc/builds/build.py:83-104 | result, globals and log as the `check_config` specification says, including the crash when `build.cfg` cannot be decoded |
| ReleaseBuild.Script.CheckGodot | etc/builds/build.py:107-118 | result, globals and log as the `check_godot` specification says |
| ReleaseBuild.Script.CheckButler | etc/builds/build.py:121-132 | result, globals and log as the `check_butler` specification says |
| ReleaseBuild.Script.CheckChannel | etc/builds/build.py:135-141 | result, globals and log as the `check_channel` specification says |
| ReleaseBuild.Script.CleanChannel | etc/builds/build.py:176-184 | the channel directory, or the directory its symbolic link points to, is rewritten with what `clean_dir` leaves |
| ReleaseBuild.Script.Build | etc/builds/build.py:194-199 | the export call, then the EULA copy only after the export succeeds |
| ReleaseBuild.Script.ExportClean | etc/builds/build.py:193-199 | clean, export and copy as the specification says |
| ReleaseBuild.Script.ExportChannel | etc/builds/build.py:187-199 | `export_channel` as the specification says |
| ReleaseBuild.Script.PublishChannel | etc/builds/build.py:202-210 | `publish_channel` as the specification says; no directory changes |
| ReleaseBuild.Script.Apply | etc/builds/build.py:216-217 | applies the operation `for_channels` was given to one channel |
| ReleaseBuild.Script.ForNext | etc/builds/build.py:216-217 | one iteration extends the loop specification by one channel |
| ReleaseBuild.Script.ForChannels | etc/builds/build.py:213-217 | the loop equals `for_channels`'s specification: in order, stopping at the first error |
| ReleaseBuild.Script.ForEachChannel | etc/builds/build.py:220-223 | `for_channels` over the fixed channel list |
| ReleaseBuild.Script.PublishAllChannels | etc/builds/build.py:226-237 | `publish_all_channels` with the drawn number and the typed line as inputs; at the end of standard input (`input` raises `EOFError`, which nothing catches) it crashes before doing anything |
| ReleaseBuild.Script.Release | etc/builds/build.py:233-235 | export every channel, then publish every channel only if every export succeeded |
| ReleaseBuild.Script.RunCommand | etc/builds/build.py:252-272 | `run_command` as the specification says |
| ReleaseProperties.InitiallyCoherent | etc/builds/build.py:22-38 | the initial globals claim nothing |
| ReleaseProperties.SurveyFacts | etc/builds/build.py:62-80 | `check_files` passes iff every required file exists, and only tests files |
| ReleaseProperties.SurveyQuiet | etc/builds/build.py:62-80 | every machine's file survey only tests files, and the script starts coherent |
| ReleaseProperties.FilesCheck | etc/builds/build.py:62-80 | the flag is set iff the check passes; once set, the check is silent; a failure is a wrong-directory error; no other global changes |
| ReleaseProperties.ConfigCheck | etc/builds/build.py:83-104 | passes iff the files pass and `build.cfg` names both commands, which are then stored; the failure kinds; it crashes exactly when `build.cfg` exists but cannot be decoded (a `UnicodeDecodeError` is not a `configparser.Error`); only looks at files; silent once passed |
| ReleaseProperties.CheckingQuiet | etc/builds/build.py:62-141 | the checks launch, copy and delete nothing |
| ReleaseProperties.ProbeLog | etc/builds/build.py:107-132 | a tool probe is the only subprocess of a check, run once |
| ReleaseProperties.GodotCheck | etc/builds/build.py:107-118 | `check_godot` probes `<godot> --version` once, last, with the configured command; its flag is set iff the probe succeeds; silent once passed |
| ReleaseProperties.ButlerCheck | etc/builds/build.py:121-132 | `check_butler` probes `<butler> version` once, last, with the configured command; its flag is set iff the probe succeeds; silent once passed |
| ReleaseProperties.ChannelCheck | etc/builds/build.py:135-141 | accepts exactly the channels of `CHANNELS` once the files pass, with an unknown-channel error otherwise |
| ReleaseProperties.CleanOutcome | etc/builds/build.py:176-184 | `clean_channel` succeeds iff the files pass, the channel is known, its directory (or its symbolic link's target directory) is listable and cleanable; it then leaves only `.itch`, changes only that directory, and an unlistable directory is a clean failure |
| ReleaseProperties.CleanAgain | etc/builds/build.py:176-184 | a second clean after a successful one changes and logs nothing |
| ReleaseProperties.Tally | etc/builds/build.py:187-210 | the log counters of two logs in a row add up |
| ReleaseProperties.CheckStep | etc/builds/build.py:190-191 | a check that only looks at files, then one that may probe, probes at most as the second does |
| ReleaseProperties.ExportChecksLog | etc/builds/build.py:190-191 | the export checks probe the engine at most once, and never once it is known to work |
| ReleaseProperties.ExportSplit | etc/builds/build.py:187-199 | `export_channel` is the checks, then the clean and export |
| ReleaseProperties.BuildLog | etc/builds/build.py:194-199 | one engine launch, and the copy iff the engine succeeded |
| ReleaseProperties.ExportCleanLog | etc/builds/build.py:193-199 | the engine runs as `<godot> --path ../.. --headless --export-release <channel>` only after a successful clean; the EULA is copied only after the engine succeeded |
| ReleaseProperties.ExportLaunches | etc/builds/build.py:187-199 | the engine is launched once iff the checks and the clean pass; the copy happens iff it then succeeds; at most one probe |
| ReleaseProperties.ExportChecksCoherent | etc/builds/build.py:190-191 | once the export checks pass, the engine command is the configured one |
| ReleaseProperties.ExportResult | etc/builds/build.py:187-199 | succeeds iff every step does; crashes iff the checks crash or only the copy fails |
| ReleaseProperties.ExportOutputs | etc/builds/build.py:187-199 | a successful export leaves in the channel directory the top-level `.itch` entries it had, and `readme.md`; no other directory changes |
| ReleaseProperties.BuildProbesNoTool | etc/builds/build.py:194-199 | the export call and the copy probe neither the engine (`--version`) nor the butler (`version`) |
| ReleaseProperties.ExportCleanSkipsButler | etc/builds/build.py:193-199 | the clean and export never probe the butler |
| ReleaseProperties.ExportChecksSkipButler | etc/builds/build.py:190-191 | the export checks never probe the butler |
| ReleaseProperties.ExportSkipsButler | etc/builds/build.py:187-199 | `export_channel` never probes the butler |
| ReleaseProperties.PublishChecksLog | etc/builds/build.py:205-206 | the publish checks probe the butler at most once |
| ReleaseProperties.PublishSplit | etc/builds/build.py:202-210 | `publish_channel` is the checks, then the push |
| ReleaseProperties.PushStep | etc/builds/build.py:208-210 | the push after passing checks is the only launch |
| ReleaseProperties.PublishOutcome | etc/builds/build.py:202-210 | exactly one push, `<butler> push --userversion=0.7.0 <channel> krobbizoid/coldest-night:<channel>`, once the checks pass; succeeds iff it does; no directory changes; the butler is probed once at most, never once known to work |
| ReleaseProperties.PublishSkipsGodot | etc/builds/build.py:202-210 | `publish_channel` never probes the engine |
| ReleaseProperties.PublishChecksCoherent | etc/builds/build.py:205-206 | once the publish checks pass, the butler command is the configured one |
| ReleaseProperties.ExportMemo | etc/builds/build.py:187-199 | only the checks of `export_channel` change the globals |
| ReleaseProperties.FrugalThen | etc/builds/build.py:107-132 | after a successful step that probed a tool, the tool is known to work, so a frugal next step does not probe it again: the two together probe each tool once at most |
| ReleaseProperties.OpFrugal | etc/builds/build.py:107-132 | every clean, export or publish step probes each tool once at most, not at all once it is known to work, and a step that succeeds without learning a tool works never probed it |
| ReleaseProperties.OpFacts | etc/builds/build.py:216-217 | one iteration keeps the globals coherent, launches nothing or its whole step (the whole step on success, only for a known channel), keeps the directories, and a publish changes none |
| ReleaseProperties.BatchStep | etc/builds/build.py:216-217 | one more fail-fast iteration keeps the launches a prefix of the plan |
| ReleaseProperties.PlanGrows | etc/builds/build.py:216-217 | the plan of fewer iterations is a prefix of the plan of more |
| ReleaseProperties.BatchNext | etc/builds/build.py:216-217 | iteration i + 1 keeps the loop on its plan |
| ReleaseProperties.BatchRun | etc/builds/build.py:216-217 | the iterations up to the first failure stay on the plan |
| ReleaseProperties.PlanLength | etc/builds/build.py:213-217 | an export or publish loop plans one launch per channel |
| ReleaseProperties.BatchPlan | etc/builds/build.py:213-217 | `for_channels` launches a prefix of its plan in order (the whole plan on success, which needs every channel known), keeps the globals coherent, probes each tool once at most over the whole loop (never once known to work), and publishing changes no directory |
| ReleaseProperties.CleanPlan | etc/builds/build.py:176-184 | a loop of cleans launches nothing |
| ReleaseProperties.PasscodeInjective | etc/builds/build.py:229 | different draws give different passcodes |
| ReleaseProperties.PublishAllPlan | etc/builds/build.py:226-237 | at the end of standard input it crashes and does nothing; a wrong line does nothing; otherwise the launches are a prefix of all exports followed by all pushes (all of them on success), in that order; a push happens only after exporting every channel succeeded; each tool is probed once at most over the whole run |
| ReleaseProperties.RunCommandFacts | etc/builds/build.py:252-272 | a malformed command does nothing; `clean` launches nothing; named channels must be known for success; `export` and `publish` launch prefixes of their plans; any one command probes each tool once at most, and never one already known to work |

## Left out

- Printed messages, the usage text and `BuildError` messages are not modelled; a failure keeps only its kind.
- `change_to_builds_path` and the return to the old working directory in both `main`s are left out: they are operating-system path handling. The working directory is folded into the oracles.
- The newer script's `main` (`etc/builds/build.py:300-320`) is not modelled apart from `run_command`. It exits with the error message (status 1) on a `BuildError` and with a traceback on any other exception.
- `configparser` is an oracle: `build.cfg` is unparsable, or parsed with each of `godot`/`butler` present or missing.
- `random.randint(1111, 9999)` and `input` become parameters of `PublishAllChannels`; the line read is `None` when standard input is at its end.
- ReleaseProperties.PasscodeInjective: takes any natural number, not only draws between 1111 and 9999.
- The files the Godot export writes into a channel directory are not modelled. The export call only logs and returns its oracle exit code, so after a successful export the directory holds the placeholders and `readme.md`.
- `shutil.rmtree` is one attempt per top-level entry that succeeds or fails whole. A partial deletion before a failure is not modelled.
- The files that `check_files` and the older script's layout and channel-list tests look at are oracles that are independent of the channel trees in `outputs`. `check_files` tests `<channel>/.itch` (`etc/builds/build.py:74`), but the model does not tie that answer to the `.itch` entry of `outputs`, so a clean or export is described for any tree. A clean never removes a top-level `.itch`, so the independence only matters for trees where that answer would differ.
- Channel names that point outside the channel directories, such as `.` or `../docs` in the older script's channel list, would make a clean delete the files the layout and list tests read. This aliasing is not modelled: every channel name denotes its own directory.
- LegacyBuild.BuildCommand.LoadChannels: a channel list that is not valid text is not modelled. There `readlines()` raises `UnicodeDecodeError`, which the `except IOError` at `build.py:96` does not catch; the model reads every existing, readable file as text.
- LegacyBuild.BuildCommand.LoadGodot: a Godot path file that is not valid text is not modelled. There `read()` raises `UnicodeDecodeError`, which the `except IOError` at `build.py:147` does not catch; the model reads every existing, readable file as text.
- `os.path.realpath` in the older script's `clean_channel` is not modelled as a path: the deletions it logs are named under `builds/<channel>` even when that directory is a symbolic link. What is listed and deleted is the link's target, as in the source.
- Concurrency, other processes changing the tree while a script runs, and file-system timestamps are left out.
- The `test <engine|uploader>` command belongs to another version of the scripts; neither file modelled here has it.
