/** The recursive clean of `etc/builds/build.py`: `clean_dir` walks a
    channel directory, keeps the top-level `.itch` placeholder, removes
    files and symbolic links, cleans and removes real directories, refuses
    broken entries, fails on a directory it cannot list and gives up below
    a fixed depth. */
module ReleaseClean {
  import opened Env

  /** `clean_dir` gives up at this depth. */
  const MAX_DEPTH: nat := 8

  /** The placeholder kept at the top of a channel directory. */
  const ITCH := ".itch"

  /** `is_entry_file(entry)`: the entry itself (not what it points to) is
      a regular file or a symbolic link; for anything else
      `os.readlink` fails and the answer is False. */
  function IsEntryFile(n: Node): bool
  {
    match n
    case File(_) => true
    case Link(_, _) => true
    case Dir(_, _) => false
    case Sealed(_) => false
    case Broken(_) => false
  }

  /** What `clean_dir` does with an entry that is not the placeholder. */
  datatype Treatment = Unlink | Descend | Refuse

  function Treat(n: Node): (t: Treatment)
    ensures t == Unlink <==> n.File? || n.Link?
    ensures t == Descend <==> n.Dir? || n.Sealed?
    ensures t == Refuse <==> n.Broken?
  {
    if IsEntryFile(n) then Unlink
    else if n.Dir? || n.Sealed? then Descend
    else Refuse
  }

  /** Why a clean stopped: the two `BuildError`s `clean_dir` raises, and
      an `OSError` from a deletion. */
  datatype Fault = DepthExceeded(path: string) | BrokenEntry(path: string) | OSFailure

  /** What a clean leaves: the entries still in the directory, the
      deletions performed and the fault that stopped it, if any. */
  datatype Swept = Swept(kept: seq<Entry>, log: seq<Event>, fault: Option<Fault>)

  /** `entry.path` of an entry of the directory at `path`. */
  function EntryPath(path: string, name: string): string
  {
    path + "/" + name
  }

  /** A clean preceded by one that left `kept` and deleted `log`. */
  function Joined(kept: seq<Entry>, log: seq<Event>, s: Swept): Swept
  {
    Swept(kept + s.kept, log + s.log, s.fault)
  }

  /** `clean_dir(path, depth)` on a directory listing `es`. */
  function Sweep(path: string, es: seq<Entry>, depth: nat): Swept
    decreases MAX_DEPTH - depth, |es|, 2
  {
    if depth >= MAX_DEPTH then Swept(es, [], Some(DepthExceeded(path)))
    else SweepEntries(path, es, depth)
  }

  /** The loop of `clean_dir` over the entries `es`: each entry in turn,
      up to the first that fails. */
  function SweepEntries(path: string, es: seq<Entry>, depth: nat): Swept
    requires depth < MAX_DEPTH
    decreases MAX_DEPTH - depth, |es|, 1
  {
    if es == [] then Swept([], [], None)
    else
      var t := SweepHead(path, es, depth);
      if t.fault != None then Swept(t.kept + es[1..], t.log, t.fault)
      else
        Joined(t.kept, t.log, SweepEntries(path, es[1..], depth))
  }

  /** One iteration of that loop, on the first entry of `es`: what is left
      of the entry, the deletions and the fault. */
  function SweepHead(path: string, es: seq<Entry>, depth: nat): Swept
    requires depth < MAX_DEPTH && es != []
    decreases MAX_DEPTH - depth, |es|, 0
  {
    var e := es[0];
    var p := EntryPath(path, e.name);
    if e.name == ITCH && depth == 0 then Swept([e], [], None)
    else match Treat(e.node)
      case Unlink =>
        if e.node.locked then Swept([e], [Remove(p)], Some(OSFailure))
        else Swept([], [Remove(p)], None)
      case Descend =>
        if e.node.Sealed? then
          // the recursive call checks the depth, then `os.scandir` raises
          Swept([e], [], Some(if depth + 1 >= MAX_DEPTH then DepthExceeded(p) else OSFailure))
        else
          var s := Sweep(p, e.node.entries, depth + 1);
          var inner := Entry(e.name, Dir(s.kept, e.node.locked));
          if s.fault != None then Swept([inner], s.log, s.fault)
          else if e.node.locked then Swept([inner], s.log + [RemoveDir(p)], Some(OSFailure))
          else Swept([], s.log + [RemoveDir(p)], None)
      case Refuse => Swept([e], [], Some(BrokenEntry(p)))
  }

  // ---------------------------------------------------------------------
  // An independent description of what a clean needs and leaves

  /** Every entry of `es` at `depth` can be cleaned away or is kept. */
  predicate Cleanable(es: seq<Entry>, depth: nat)
    decreases MAX_DEPTH - depth, |es|, 1
  {
    es == [] || (EntryCleanable(es[0], depth) && Cleanable(es[1..], depth))
  }

  /** The entry is the top-level placeholder, a file or link that may be
      removed, or a real directory that may be removed, lies above the
      depth bound and is itself cleanable. */
  predicate EntryCleanable(e: Entry, depth: nat)
    decreases MAX_DEPTH - depth, 0
  {
    || (e.name == ITCH && depth == 0)
    || ((e.node.File? || e.node.Link?) && !e.node.locked)
    || (e.node.Dir? && !e.node.locked && depth + 1 < MAX_DEPTH && Cleanable(e.node.entries, depth + 1))
  }

  /** The placeholders of a listing, in order. */
  function Itches(es: seq<Entry>): (r: seq<Entry>)
    ensures forall k :: 0 <= k < |r| ==> r[k].name == ITCH && r[k] in es
  {
    if es == [] then []
    else if es[0].name == ITCH then [es[0]] + Itches(es[1..])
    else Itches(es[1..])
  }

  /** What a successful clean at `depth` leaves: the placeholders at the
      top, nothing below. */
  function Remaining(es: seq<Entry>, depth: nat): seq<Entry>
  {
    if depth == 0 then Itches(es) else []
  }

  /** A clean succeeds exactly when the listing is cleanable, and then
      leaves the placeholders at the top and nothing in a subdirectory,
      so that every subdirectory it descended into was empty when it was
      removed. */
  lemma {:induction false} SweepOutcome(path: string, es: seq<Entry>, depth: nat)
    ensures Sweep(path, es, depth).fault == None <==> depth < MAX_DEPTH && Cleanable(es, depth)
    ensures Sweep(path, es, depth).fault == None ==> Sweep(path, es, depth).kept == Remaining(es, depth)
    decreases MAX_DEPTH - depth, |es|, 2
  {
    if depth < MAX_DEPTH {
      EntriesOutcome(path, es, depth);
    }
  }

  lemma {:induction false} EntriesOutcome(path: string, es: seq<Entry>, depth: nat)
    requires depth < MAX_DEPTH
    ensures SweepEntries(path, es, depth).fault == None <==> Cleanable(es, depth)
    ensures SweepEntries(path, es, depth).fault == None ==> SweepEntries(path, es, depth).kept == Remaining(es, depth)
    decreases MAX_DEPTH - depth, |es|, 1
  {
    if es != [] {
      HeadOutcome(path, es, depth);
      EntriesOutcome(path, es[1..], depth);
    }
  }

  lemma {:induction false} HeadOutcome(path: string, es: seq<Entry>, depth: nat)
    requires depth < MAX_DEPTH && es != []
    ensures SweepHead(path, es, depth).fault == None <==> EntryCleanable(es[0], depth)
    ensures SweepHead(path, es, depth).fault == None ==>
              SweepHead(path, es, depth).kept == if es[0].name == ITCH && depth == 0 then [es[0]] else []
    decreases MAX_DEPTH - depth, |es|, 0
  {
    if es[0].node.Dir? {
      SweepOutcome(EntryPath(path, es[0].name), es[0].node.entries, depth + 1);
    }
  }

  /** Only deletions are performed. */
  lemma {:induction false} SweepOnlyDeletes(path: string, es: seq<Entry>, depth: nat)
    ensures OnlyDeletions(Sweep(path, es, depth).log)
    decreases MAX_DEPTH - depth, |es|, 2
  {
    if depth < MAX_DEPTH {
      EntriesOnlyDelete(path, es, depth);
    }
  }

  lemma {:induction false} EntriesOnlyDelete(path: string, es: seq<Entry>, depth: nat)
    requires depth < MAX_DEPTH
    ensures OnlyDeletions(SweepEntries(path, es, depth).log)
    decreases MAX_DEPTH - depth, |es|, 1
  {
    if es != [] {
      HeadOnlyDeletes(path, es, depth);
      EntriesOnlyDelete(path, es[1..], depth);
      var t, r := SweepHead(path, es, depth), SweepEntries(path, es[1..], depth);
      assert forall k :: |t.log| <= k < |t.log + r.log| ==> (t.log + r.log)[k] == r.log[k - |t.log|];
    }
  }

  lemma {:induction false} HeadOnlyDeletes(path: string, es: seq<Entry>, depth: nat)
    requires depth < MAX_DEPTH && es != []
    ensures OnlyDeletions(SweepHead(path, es, depth).log)
    decreases MAX_DEPTH - depth, |es|, 0
  {
    if es[0].node.Dir? {
      SweepOnlyDeletes(EntryPath(path, es[0].name), es[0].node.entries, depth + 1);
    }
  }

  /** One more iteration of the loop of `clean_dir`, after iterations
      that left `kept` and deleted `log`. */
  lemma EntriesStep(path: string, es: seq<Entry>, depth: nat, i: nat, kept: seq<Entry>, log: seq<Event>, t: Swept)
    requires depth < MAX_DEPTH && i < |es|
    requires t == SweepHead(path, es[i..], depth)
    requires SweepEntries(path, es, depth) == Joined(kept, log, SweepEntries(path, es[i..], depth))
    ensures SweepEntries(path, es, depth)
            == if t.fault != None then Swept(kept + t.kept + es[i + 1..], log + t.log, t.fault)
               else Joined(kept + t.kept, log + t.log, SweepEntries(path, es[i + 1..], depth))
  {
    assert es[i..][1..] == es[i + 1..];
  }

  /** Cleaning a channel directory that was just cleaned deletes nothing
      and succeeds. */
  lemma {:induction false} SweepAgain(path: string, es: seq<Entry>)
    requires Sweep(path, es, 0).fault == None
    ensures Sweep(path, Sweep(path, es, 0).kept, 0) == Swept(Sweep(path, es, 0).kept, [], None)
  {
    SweepOutcome(path, es, 0);
    ItchesSkipped(path, Itches(es));
  }

  lemma {:induction false} ItchesSkipped(path: string, es: seq<Entry>)
    requires forall k :: 0 <= k < |es| ==> es[k].name == ITCH
    ensures SweepEntries(path, es, 0) == Swept(es, [], None)
  {
    if es != [] {
      ItchesSkipped(path, es[1..]);
    }
  }

  // ---------------------------------------------------------------------
  // The procedure

  /** `clean_dir(path, depth)` on a directory whose listing is `es`:
      returns the entries left and the fault that stopped it, and records
      each deletion. */
  method CleanDir(host: Host, path: string, es: seq<Entry>, depth: nat) returns (kept: seq<Entry>, fault: Option<Fault>)
    modifies host`trace
    ensures var w := Sweep(path, es, depth);
            kept == w.kept && fault == w.fault && host.trace == old(host.trace) + w.log
    decreases MAX_DEPTH - depth, |es|, 2
  {
    if depth >= MAX_DEPTH {
      kept, fault := es, Some(DepthExceeded(path));
    } else {
      kept, fault := CleanEntries(host, path, es, depth);
    }
  }

  /** The loop of `clean_dir` over a listing, entry by entry, up to the
      first that fails. */
  method CleanEntries(host: Host, path: string, es: seq<Entry>, depth: nat) returns (kept: seq<Entry>, fault: Option<Fault>)
    requires depth < MAX_DEPTH
    modifies host`trace
    ensures var w := SweepEntries(path, es, depth);
            kept == w.kept && fault == w.fault && host.trace == old(host.trace) + w.log
    decreases MAX_DEPTH - depth, |es|, 1
  {
    var i := 0;
    ghost var log: seq<Event> := [];
    fault := None;
    kept := [];
    while i < |es| && fault == None
      invariant 0 <= i <= |es|
      invariant host.trace == old(host.trace) + log
      invariant SweepEntries(path, es, depth)
                == if fault != None then Swept(kept, log, fault)
                   else Joined(kept, log, SweepEntries(path, es[i..], depth))
      decreases |es| - i, if fault == None then 1 else 0
    {
      var left, f := CleanHead(host, path, es[i..], depth);
      ghost var t := SweepHead(path, es[i..], depth);
      EntriesStep(path, es, depth, i, kept, log, t);
      log := log + t.log;
      kept := kept + left + if f != None then es[i + 1..] else [];
      fault := f;
      i := i + 1;
    }
  }

  /** One iteration: clean away the first entry of `es`, or keep it. */
  method CleanHead(host: Host, path: string, es: seq<Entry>, depth: nat) returns (left: seq<Entry>, fault: Option<Fault>)
    requires depth < MAX_DEPTH && es != []
    modifies host`trace
    ensures var t := SweepHead(path, es, depth);
            left == t.kept && fault == t.fault && host.trace == old(host.trace) + t.log
    decreases MAX_DEPTH - depth, |es|, 0
  {
    var e := es[0];
    var p := EntryPath(path, e.name);
    if e.name == ITCH && depth == 0 {
      left, fault := [e], None;
    } else if IsEntryFile(e.node) {
      host.trace := host.trace + [Remove(p)];
      if e.node.locked {
        left, fault := [e], Some(OSFailure);
      } else {
        left, fault := [], None;
      }
    } else if e.node.Sealed? {
      left, fault := [e], Some(if depth + 1 >= MAX_DEPTH then DepthExceeded(p) else OSFailure);
    } else if e.node.Dir? {
      var inner, f := CleanDir(host, p, e.node.entries, depth + 1);
      if f != None {
        left, fault := [Entry(e.name, Dir(inner, e.node.locked))], f;
      } else {
        host.trace := host.trace + [RemoveDir(p)];
        if e.node.locked {
          left, fault := [Entry(e.name, Dir(inner, e.node.locked))], Some(OSFailure);
        } else {
          left, fault := [], None;
        }
      }
    } else {
      left, fault := [e], Some(BrokenEntry(p));
    }
  }
}
