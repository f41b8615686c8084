/**
 Restoring a whole state: databases into a new home directory, vector collections
 into an empty server, and the one rename that makes both visible.
 */
module StateBackup {
  import opened Wrappers
  import opened Texts
  import opened SnapshotRestore

  /** `staging` is the hidden directory beside the home. */
  datatype Disk = Disk(home: bool, staging: bool)

  datatype Snapshot = Snapshot(disk: Disk, server: Server)

  datatype Failing =
    | DestinationExists
    | ManifestInvalid
    | IdentityMismatch
    | ArtifactInvalid
    | StagingFailed
    | WriteFailed
    | StagingNotRemoved

  /** Which steps succeed; `copies` are the staged files in order, each with the
      error it meets, if any. */
  datatype Steps = Steps(
    lookup: bool,
    manifest: bool,
    identity: bool,
    artifacts: bool,
    directory: bool,
    permission: bool,
    copies: seq<Option<Failing>>,
    rename: bool,
    removal: bool)

  /** `trace` lists the states between effects, the last one final; `vectors` is the
      error the vector side met. */
  datatype Run = Run(trace: seq<Snapshot>, failure: Option<Failing>, vectors: Option<Code>)

  function FirstError(copies: seq<Option<Failing>>): Option<Failing> {
    if copies == [] then None
    else if copies[0].Some? then copies[0]
    else FirstError(copies[1..])
  }

  /** What fails before anything is written. */
  function Refused(steps: Steps, disk: Disk): Option<Failing> {
    if disk.home || !steps.lookup then Some(DestinationExists)
    else if !steps.manifest then Some(ManifestInvalid)
    else if !steps.identity then Some(IdentityMismatch)
    else if !steps.artifacts then Some(ArtifactInvalid)
    else if !steps.directory then Some(StagingFailed)
    else None
  }

  /** The staging directory goes; an error in that hides the one before it. */
  function Swept(steps: Steps, trace: seq<Snapshot>, disk: Disk, server: Server, failure: Failing, vectors: Option<Code>): Run {
    if steps.removal then Run(trace + [Snapshot(disk.(staging := false), server)], Some(failure), vectors)
    else Run(trace + [Snapshot(disk, server)], Some(StagingNotRemoved), vectors)
  }

  function RestoreState(steps: Steps, replies: Replies, disk: Disk, server: Server,
                        names: seq<Text>, valid: Text -> bool): Run {
    var start := [Snapshot(disk, server)];
    var staged := Disk(disk.home, true);
    var trace := start + [Snapshot(staged, server)];
    if Refused(steps, disk).Some? then Run(start, Refused(steps, disk), None)
    else if !steps.permission then Run(trace, Some(StagingFailed), None)
    else if FirstError(steps.copies).Some? then Swept(steps, trace, staged, server, FirstError(steps.copies).value, None)
    else
      var restored := Restore(replies, server, names, valid);
      var later := trace + [Snapshot(staged, restored.server)];
      if restored.failure.Some? then Swept(steps, later, staged, restored.server, WriteFailed, restored.failure)
      else if steps.rename then Run(later + [Snapshot(Disk(true, false), restored.server)], None, None)
      else
        var undone := Undo(replies, restored.server, restored.created, true);
        Swept(steps, later + [Snapshot(staged, undone.server)], staged, undone.server, WriteFailed, undone.failure)
  }

  ghost function Final(run: Run): Snapshot
    requires run.trace != []
  {
    run.trace[|run.trace| - 1]
  }

  // ------------------------------------------------------------------ the commit

  /** At no point of any run is a restored home visible without every collection. */
  lemma HomeImpliesCollections(steps: Steps, replies: Replies, disk: Disk, server: Server,
                               names: seq<Text>, valid: Text -> bool)
    ensures var run := RestoreState(steps, replies, disk, server, names, valid);
            forall i :: 0 <= i < |run.trace| && run.trace[i].disk.home && !disk.home ==>
              Names(names) <= run.trace[i].server.present
  {
    hide Restore, Undo;
    RestoreCompletes(replies, server, names, valid);
  }

  /** A run that returns has put the home and every collection in place, and no
      more. */
  lemma RestoreStateCompletes(steps: Steps, replies: Replies, disk: Disk, server: Server,
                              names: seq<Text>, valid: Text -> bool)
    ensures var run := RestoreState(steps, replies, disk, server, names, valid);
            run.failure.None? ==>
              && !disk.home
              && Final(run).disk == Disk(true, false)
              && Final(run).server.present == server.present + Names(names)
              && Names(names) !! server.present
  {
    hide Restore, Undo;
    RestoreCompletes(replies, server, names, valid);
  }

  /** A run returns if and only if nothing stands against it: no home, every check
      passed, every file staged, every upload working and the rename done. */
  lemma RestoreStateSucceedsIff(steps: Steps, replies: Replies, disk: Disk, server: Server,
                                names: seq<Text>, valid: Text -> bool)
    ensures RestoreState(steps, replies, disk, server, names, valid).failure.None?
            <==> && !disk.home && steps.lookup && steps.manifest && steps.identity && steps.artifacts
                 && steps.directory && steps.permission
                 && (forall i :: 0 <= i < |steps.copies| ==> steps.copies[i].None?)
                 && PreflightPasses(replies, server, names, valid)
                 && UploadsWork(replies, server.asked + |names|, names, 0)
                 && steps.rename
  {
    FirstErrorIn(steps.copies);
    RestoreSucceedsIff(replies, server, names, valid);
    hide Restore, Undo, PreflightPasses, UploadsWork, FirstError;
  }

  lemma RestoredBackOut(replies: Replies, server: Server, names: seq<Text>, valid: Text -> bool)
    ensures var restored := Restore(replies, server, names, valid);
            && (restored.failure.Some? && restored.failure.value != CleanupFailed ==>
                  restored.server.present == server.present)
            && server.present <= restored.server.present
            && (restored.failure.None? ==>
                  var undone := Undo(replies, restored.server, restored.created, true);
                  && (undone.failure.None? ==> undone.server.present == server.present)
                  && undone.failure in {None, Some(CleanupFailed)}
                  && server.present <= undone.server.present)
  {
    hide Restore, DeleteAll;
    RestoreAtomic(replies, server, names, valid);
    RestoreHarmless(replies, server, names, valid);
    if Restore(replies, server, names, valid).failure.None? {
      UndoInverts(replies, server, names, valid);
    }
  }

  /** A run that fails leaves the home as it was, and the collections too unless
      the vector side could not clean up. */
  lemma RestoreStateBacksOut(steps: Steps, replies: Replies, disk: Disk, server: Server,
                             names: seq<Text>, valid: Text -> bool)
    ensures var run := RestoreState(steps, replies, disk, server, names, valid);
            run.failure.Some? ==>
              && Final(run).disk.home == disk.home
              && server.present <= Final(run).server.present
              && (run.vectors != Some(CleanupFailed) ==> Final(run).server.present == server.present)
  {
    hide Restore, Undo;
    RestoredBackOut(replies, server, names, valid);
  }

  /** Whether a run that has made its staging directory fails to commit. */
  predicate Uncommitted(steps: Steps, replies: Replies, server: Server, names: seq<Text>, valid: Text -> bool) {
    FirstError(steps.copies).Some? || Restore(replies, server, names, valid).failure.Some? || !steps.rename
  }

  /** Of a run that began without a staging directory, one is left exactly when it
      was made and then its permissions could not be set, or the run did not commit
      and could not remove it. */
  lemma StagingLeftIff(steps: Steps, replies: Replies, disk: Disk, server: Server,
                       names: seq<Text>, valid: Text -> bool)
    requires !disk.staging
    ensures Final(RestoreState(steps, replies, disk, server, names, valid)).disk.staging
            <==> && Refused(steps, disk).None?
                 && (!steps.permission || (!steps.removal && Uncommitted(steps, replies, server, names, valid)))
  {
    hide Restore, Undo;
  }

  function PermissionDenied(): Steps {
    Steps(true, true, true, true, true, false, [], true, true)
  }

  /** The failing input: the directory is made and its permissions cannot be set;
      nothing was to stop its removal, and it stays. */
  lemma StagingSurvives(replies: Replies, server: Server, names: seq<Text>, valid: Text -> bool)
    ensures var run := RestoreState(PermissionDenied(), replies, Disk(false, false), server, names, valid);
            run.failure == Some(StagingFailed) && Final(run).disk == Disk(false, true) && PermissionDenied().removal
  {
  }

  lemma {:induction false} FirstErrorIn(copies: seq<Option<Failing>>)
    ensures FirstError(copies).Some? ==> FirstError(copies) in copies
    ensures FirstError(copies).None? <==> forall i :: 0 <= i < |copies| ==> copies[i].None?
  {
    if copies != [] {
      FirstErrorIn(copies[1..]);
      assert copies == [copies[0]] + copies[1..];
    }
  }

  // ---------------------------------------------------------------- step by step

  method StageCopies(copies: seq<Option<Failing>>) returns (failure: Option<Failing>)
    ensures failure == FirstError(copies)
  {
    var i := 0;
    while i < |copies|
      invariant 0 <= i <= |copies|
      invariant FirstError(copies[i..]) == FirstError(copies)
    {
      assert copies[i..][0] == copies[i] && copies[i..][1..] == copies[i + 1..];
      if copies[i].Some? {
        return copies[i];
      }
      i := i + 1;
    }
    failure := None;
  }

  /** The commit point and the two flags that decide what is undone. */
  method RestoreStateBackup(steps: Steps, replies: Replies, start: Disk, before: Server,
                            names: seq<Text>, valid: Text -> bool)
    returns (disk: Disk, server: Server, run: Run)
    ensures run == RestoreState(steps, replies, start, before, names, valid)
    ensures run.trace != [] && Final(run) == Snapshot(disk, server)
  {
    hide Restore, Undo;
    disk, server := start, before;
    var trace := [Snapshot(disk, server)];
    var refusal := Refused(steps, disk);
    if refusal.Some? {
      run := Run(trace, refusal, None);
      return;
    }
    disk := disk.(staging := true);
    trace := trace + [Snapshot(disk, server)];
    if !steps.permission {
      run := Run(trace, Some(StagingFailed), None);
      return;
    }
    var committed := false;
    var vectors: Option<Code> := None;
    var failure := StageCopies(steps.copies);
    if failure.None? {
      var created;
      server, created, vectors := RestoreCollections(replies, server, names, valid);
      trace := trace + [Snapshot(disk, server)];
      if vectors.Some? {
        failure := Some(WriteFailed);
      } else {
        var lease := new RestoreLease(created);
        if steps.rename {
          disk := Disk(true, false);
          trace := trace + [Snapshot(disk, server)];
          committed := true;
        } else {
          server, vectors := lease.Rollback(replies, server);
          trace := trace + [Snapshot(disk, server)];
          failure := Some(WriteFailed);
        }
      }
    }
    if !committed {
      if steps.removal {
        disk := disk.(staging := false);
      } else {
        failure := Some(StagingNotRemoved);
      }
      trace := trace + [Snapshot(disk, server)];
    }
    run := Run(trace, failure, vectors);
  }
}
