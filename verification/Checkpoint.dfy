/**
 Checkpoints of a replay: progress is kept in memory, copied under the lock, written to a temporary file,
 synced and renamed into place. Every disk state in between is recorded, since a crash may come at any of
 them.
 */
module Checkpoint {
  import opened Options

  datatype Snapshot = Snapshot(sent: nat, errored: nat, filtered: nat, position: string, updated: nat)

  /** A file that does not exist, one that holds a complete snapshot, or one with partial contents. `version`
      says which progress it is, counted from the start; nothing in the program looks at it. */
  datatype File = Missing | Whole(version: nat, snapshot: Snapshot) | Torn

  /** The checkpoint file and the temporary one, with whether their contents are known to be on disk. A rename
      may be undone by a crash, so `previous` is what the checkpoint file was before the last one. */
  datatype Disk = Disk(file: File, synced: bool, previous: File, tmp: File, tmpSynced: bool)

  /** What the checkpoint file can be after a crash in this state. */
  ghost predicate AfterCrash(d: Disk, found: File) {
    found == d.previous || found == d.file || (!d.synced && found.Torn?)
  }

  /** The next step of `writeCheckpoint`. */
  datatype Stage = Open | Write | Sync | Close | Rename

  /** A flush under way: the copy it took, and how far it is. */
  datatype Flushing = NotFlushing | Flushing(copy: File, stage: Stage)

  /** Absent, or complete progress of some time. */
  ghost predicate Recorded(f: File, history: seq<Snapshot>) {
    f.Missing? || (f.Whole? && f.version < |history| && history[f.version] == f.snapshot)
  }

  function Age(f: File): int {
    if f.Whole? then f.version else -1
  }

  ghost predicate DiskFits(d: Disk, history: seq<Snapshot>) {
    Recorded(d.file, history) && Recorded(d.previous, history) && d.synced
  }

  /** Every disk state fits, and the file never goes back to earlier progress. */
  ghost predicate TraceFits(trace: seq<Disk>, history: seq<Snapshot>) {
    && (forall i :: 0 <= i < |trace| ==> DiskFits(trace[i], history))
    && (forall i, j :: 0 <= i < j < |trace| ==> Age(trace[i].file) <= Age(trace[j].file))
  }

  lemma TraceExtends(trace: seq<Disk>, history: seq<Snapshot>, next: Snapshot)
    requires TraceFits(trace, history)
    ensures TraceFits(trace, history + [next])
  {
    forall i | 0 <= i < |trace| ensures DiskFits(trace[i], history + [next]) {
      assert DiskFits(trace[i], history);
    }
  }

  /** The temporary file during a flush: complete from the write on, and on disk from the sync on. */
  ghost predicate TmpFits(d: Disk, f: Flushing) {
    f.Flushing? ==>
      && f.copy.Whole?
      && (f.stage.Sync? || f.stage.Close? || f.stage.Rename? ==> d.tmp == f.copy)
      && (f.stage.Close? || f.stage.Rename? ==> d.tmpSynced)
  }

  /** A copy in progress is newer than the file, and the latest progress unless that changed meanwhile. */
  ghost predicate CopyFits(d: Disk, f: Flushing, history: seq<Snapshot>, dirty: bool) {
    f.Flushing? ==>
      && Recorded(f.copy, history) && Age(d.file) < Age(f.copy)
      && (dirty <==> Age(f.copy) < |history| - 1)
  }

  /** The disk after one step, completed or failed. */
  function Stepped(d: Disk, copy: File, stage: Stage, ok: bool): Disk {
    match stage
    case Open => if ok then d.(tmp := Torn, tmpSynced := false) else d
    case Write => d.(tmp := if ok then copy else Torn)
    case Sync => if ok then d.(tmpSynced := true) else d
    case Close => d
    case Rename => if ok then Disk(d.tmp, d.tmpSynced, d.file, Missing, false) else d
  }

  /** Until the directory is on disk a crash may undo the rename: it finds the file from before or the new one. */
  lemma RenameMayBeUndone(d: Disk, copy: File)
    requires d.tmp == copy
    ensures var after := Stepped(d, copy, Rename, true);
            after.file == copy && AfterCrash(after, d.file) && AfterCrash(after, copy)
  {
  }

  /** A file that was not synced may be found torn. */
  lemma UnsyncedMayBeTorn(d: Disk)
    ensures AfterCrash(d, Torn) <==> !d.synced || d.file.Torn? || d.previous.Torn?
  {
  }

  /** Progress recorded meanwhile may come between any two steps of a flush. */
  class Checkpointer {
    var current: Option<Snapshot>
    var dirty: bool
    var flushing: Flushing
    var disk: Disk
    /** The progress so far: what an earlier session left, the initial state, and one entry for each update. */
    ghost var history: seq<Snapshot>
    /** Counts the entries of `history`. */
    var versions: nat
    /** Every disk state since the start; whether anything was recorded; whether the last write failed. */
    ghost var trace: seq<Disk>
    ghost var touched: bool
    ghost var failed: bool

    ghost predicate Valid()
      reads this
    {
      && trace != [] && trace[|trace| - 1] == disk && TraceFits(trace, history) && versions == |history|
      && (current.None? ==> !dirty && !touched && flushing.NotFlushing?)
      && (dirty || flushing.Flushing? ==> touched)
      && TmpFits(disk, flushing) && CopyFits(disk, flushing, history, dirty)
      && (current.Some? ==> history != [] && current.value == history[|history| - 1])
      && (touched && !dirty && flushing.NotFlushing? ==> (Age(disk.file) == |history| - 1 <==> !failed))
      && (dirty ==> Age(disk.file) < |history| - 1)
    }

    /** `Start`, with the checkpoint file that an earlier session left, if any. */
    constructor (initial: Snapshot, found: Option<Snapshot>)
      ensures Valid() && current == Some(initial) && !dirty && flushing.NotFlushing? && !touched && !failed
      ensures disk.file == if found.Some? then Whole(0, found.value) else Missing
      ensures history == (if found.Some? then [found.value] else []) + [initial]
    {
      var file := if found.Some? then Whole(0, found.value) else Missing;
      current, dirty, flushing, disk := Some(initial), false, NotFlushing, Disk(file, true, file, Missing, false);
      history, versions := (if found.Some? then [found.value] else []) + [initial], if found.Some? then 2 else 1;
      trace, touched, failed := [Disk(file, true, file, Missing, false)], false, false;
    }

    /** Progress: whatever the given function makes of it. */
    method Update(next: Snapshot)
      requires Valid()
      modifies this`current, this`dirty, this`touched, this`history, this`versions
      ensures Valid()
      ensures if old(current).Some? then current == Some(next) && dirty && touched && history == old(history) + [next]
              else current.None? && dirty == old(dirty) && touched == old(touched) && history == old(history)
    {
      if current.Some? {
        TraceExtends(trace, history, next);
        assert DiskFits(trace[|trace| - 1], history);
        current, dirty, touched, history, versions := Some(next), true, true, history + [next], versions + 1;
      }
    }

    /** Copies the progress and clears `dirty`, before anything is written. */
    method BeginFlush() returns (began: bool)
      requires Valid() && flushing.NotFlushing?
      modifies this`dirty, this`flushing
      ensures Valid() && began == old(dirty) && !dirty
      ensures flushing == if began then Flushing(Whole(|history| - 1, current.value), Open) else NotFlushing
    {
      began := dirty && current.Some?;
      if began {
        flushing, dirty := Flushing(Whole(versions - 1, current.value), Open), false;
      }
    }

    /** One step of `writeCheckpoint`; a step that fails ends the flush. */
    method WriteStep(ok: bool)
      requires Valid() && flushing.Flushing?
      modifies this`flushing, this`disk, this`trace, this`failed
      ensures Valid() && old(trace) <= trace
      ensures if !ok then flushing.NotFlushing? && failed && disk.file == old(disk).file
              else if old(flushing).stage.Rename?
              then flushing.NotFlushing? && !failed && disk.file == old(flushing).copy
              else && flushing == Flushing(old(flushing).copy, After(old(flushing).stage))
                   && failed == old(failed) && disk.file == old(disk).file
    {
      var copy, stage := flushing.copy, flushing.stage;
      assert DiskFits(trace[|trace| - 1], history);
      var next := Stepped(disk, copy, stage, ok);
      disk, trace := next, trace + [next];
      if !ok {
        flushing, failed := NotFlushing, true;
      } else if stage.Rename? {
        flushing, failed := NotFlushing, false;
      } else {
        flushing := Flushing(copy, After(stage));
      }
    }

    /** A whole flush without interruption, failing at stage `fail`, or not at all. */
    method Flush(fail: Option<Stage>) returns (ok: bool)
      requires Valid() && flushing.NotFlushing?
      modifies this`dirty, this`flushing, this`disk, this`trace, this`failed
      ensures Valid() && flushing.NotFlushing? && !dirty && old(trace) <= trace
      ensures ok <==> !old(dirty) || fail.None?
      ensures failed == if old(dirty) then !ok else old(failed)
      ensures !ok || !old(dirty) ==> disk.file == old(disk).file
    {
      ok := true;
      var began := BeginFlush();
      while flushing.Flushing?
        invariant Valid() && !dirty && old(trace) <= trace
        invariant began ==> if flushing.Flushing? then ok && Reaches(flushing.stage, fail)
                            else ok == fail.None? && failed == !ok
        invariant !began ==> flushing.NotFlushing? && ok && failed == old(failed)
        invariant flushing.Flushing? || !ok || !began ==> disk.file == old(disk).file
        decreases if flushing.Flushing? then Left(flushing.stage) else 0
      {
        ok := fail != Some(flushing.stage);
        WriteStep(ok);
      }
    }

    /** The flusher is stopped, then a last flush. When it reports success, the file is the latest progress if and
        only if that was still dirty or its write had not failed. */
    method Stop(fail: Option<Stage>) returns (ok: bool)
      requires Valid() && flushing.NotFlushing?
      modifies this`dirty, this`flushing, this`disk, this`trace, this`failed
      ensures Valid() && old(trace) <= trace
      ensures ok <==> !old(dirty) || fail.None?
      ensures ok && touched ==> (disk.file == Whole(|history| - 1, current.value) <==> old(dirty) || !old(failed))
      ensures !ok || !old(dirty) ==> disk.file == old(disk).file
    {
      ok := Flush(fail);
      assert DiskFits(trace[|trace| - 1], history);
    }
  }

  /** Whenever the process crashes, at any step of a flush, it finds no file or one complete snapshot: the
      progress of some earlier time. */
  lemma CrashAtomicity(c: Checkpointer, i: nat, found: File)
    requires c.Valid() && i < |c.trace| && AfterCrash(c.trace[i], found)
    ensures || found.Missing?
            || (found.Whole? && found.version < |c.history| && c.history[found.version] == found.snapshot)
  {
    assert DiskFits(c.trace[i], c.history);
  }

  ghost predicate NotBelow(a: Snapshot, b: Snapshot) {
    a.sent <= b.sent && a.errored <= b.errored && a.filtered <= b.filtered
  }

  /** No update lowers a counter. */
  ghost predicate CountsUp(history: seq<Snapshot>) {
    forall a, b :: 0 <= a <= b < |history| ==> NotBelow(history[a], history[b])
  }

  /** The file is never replaced by earlier progress, so the persisted counters never go down as long as no
      update lowers a counter. */
  lemma PersistedNeverGoesBack(c: Checkpointer, i: nat, j: nat)
    requires c.Valid() && i < j < |c.trace| && c.trace[i].file.Whole?
    ensures c.trace[j].file.Whole? && c.trace[i].file.version <= c.trace[j].file.version
    ensures CountsUp(c.history) ==> NotBelow(c.trace[i].file.snapshot, c.trace[j].file.snapshot)
  {
    assert DiskFits(c.trace[i], c.history) && DiskFits(c.trace[j], c.history);
    assert Age(c.trace[i].file) <= Age(c.trace[j].file);
  }

  function After(s: Stage): Stage {
    match s
    case Open => Write
    case Write => Sync
    case Sync => Close
    case Close => Rename
    case Rename => Rename
  }

  function Left(s: Stage): nat {
    match s
    case Open => 5
    case Write => 4
    case Sync => 3
    case Close => 2
    case Rename => 1
  }

  /** The failing stage is still to come. */
  predicate Reaches(s: Stage, fail: Option<Stage>) {
    fail.Some? ==> Left(fail.value) <= Left(s)
  }

  /** A write that fails is not repeated: Stop reports success, and the latest progress is not on disk. */
  method FailedFlushIsForgotten(s: Snapshot, t: Snapshot, fail: Stage) returns (ok: bool, file: File)
    ensures ok && file == Missing
  {
    var c := new Checkpointer(s, None);
    c.Update(t);
    var flushed := c.Flush(Some(fail));
    ok := c.Stop(None);
    file := c.disk.file;
  }
}
