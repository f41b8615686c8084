/**
 Restoring vector collections from snapshots, all or none.

 The server is a set of collection names.  Every request draws one reply from an
 oracle: it may be acknowledged or fail, and a failed request may still have taken
 effect, at once or only after the restore has returned.
 */
module SnapshotRestore {
  import opened Wrappers
  import opened Orders
  import opened Texts

  /** When a request takes effect, whatever the reply says. */
  datatype Effect = Now | Later | Never

  /** `typed` tells a malformed answer from a failed transport. */
  datatype Reply = Reply(ok: bool, effect: Effect, typed: bool)

  type Replies = nat -> Reply

  /**
   `late` are the uploads still to land; `deletes` lists the delete requests sent.
   */
  datatype Server = Server(present: set<Text>, late: set<Text>, asked: nat, deletes: seq<Text>)

  datatype Code = AlreadyExists | ResponseInvalid | RestoreFailed | CleanupFailed | Transport

  // ------------------------------------------------------------------- requests

  function Fault(reply: Reply): Code {
    if reply.typed then ResponseInvalid else Transport
  }

  datatype Probed = Probed(server: Server, answer: Result<bool, Code>)

  /** An answered probe tells the truth. */
  function Exists(replies: Replies, server: Server, name: Text): Probed {
    var reply := replies(server.asked);
    Probed(
      server.(asked := server.asked + 1),
      if reply.ok then Success(name in server.present) else Failure(Fault(reply)))
  }

  datatype Requested = Requested(server: Server, failure: Option<Code>)

  function Upload(replies: Replies, server: Server, name: Text): Requested {
    var reply := replies(server.asked);
    Requested(
      server.(
        asked := server.asked + 1,
        present := if reply.effect.Now? then server.present + {name} else server.present,
        late := if reply.effect.Later? then server.late + {name} else server.late),
      if reply.ok then None else if reply.typed then Some(ResponseInvalid) else Some(RestoreFailed))
  }

  /** An acknowledged delete has removed the collection. */
  function Delete(replies: Replies, server: Server, name: Text): Requested {
    var reply := replies(server.asked);
    Requested(
      server.(
        asked := server.asked + 1,
        present := if reply.ok || reply.effect.Now? then server.present - {name} else server.present,
        deletes := server.deletes + [name]),
      if reply.ok then None else Some(Fault(reply)))
  }

  // -------------------------------------------------------------------- restore

  /** Every name must be well-formed and absent before anything is uploaded. */
  function Preflight(replies: Replies, server: Server, names: seq<Text>, valid: Text -> bool): Requested
    decreases |names|
  {
    if names == [] then Requested(server, None)
    else if !valid(names[0]) then Requested(server, Some(ResponseInvalid))
    else
      var probe := Exists(replies, server, names[0]);
      match probe.answer
      case Failure(code) => Requested(probe.server, Some(code))
      case Success(true) => Requested(probe.server, Some(AlreadyExists))
      case Success(false) => Preflight(replies, probe.server, names[1..], valid)
  }

  /** `created` are the names to delete should the attempt fail. */
  datatype Progress = Progress(server: Server, created: seq<Text>, failure: Option<Code>)

  /** A failed upload may have taken effect, so the server is asked. */
  function UploadOne(replies: Replies, server: Server, name: Text, created: seq<Text>): Progress {
    var upload := Upload(replies, server, name);
    var probe := Exists(replies, upload.server, name);
    if upload.failure.Some? then
      match probe.answer
      case Failure(_) => Progress(probe.server, created, Some(CleanupFailed))
      case Success(seen) => Progress(probe.server, if seen then created + [name] else created, upload.failure)
    else
      match probe.answer
      case Failure(code) => Progress(probe.server, created + [name], Some(code))
      case Success(false) => Progress(probe.server, created + [name], Some(ResponseInvalid))
      case Success(true) => Progress(probe.server, created + [name], None)
  }

  function UploadAll(replies: Replies, server: Server, names: seq<Text>, created: seq<Text>): Progress
    decreases |names|
  {
    if names == [] then Progress(server, created, None)
    else
      var step := UploadOne(replies, server, names[0], created);
      if step.failure.Some? then step else UploadAll(replies, step.server, names[1..], step.created)
  }

  datatype Swept = Swept(server: Server, errors: nat)

  /** Deletes every name, errors or not, and counts the errors. */
  function DeleteAll(replies: Replies, server: Server, names: seq<Text>): Swept
    decreases |names|
  {
    if names == [] then Swept(server, 0)
    else
      var one := Delete(replies, server, names[0]);
      var rest := DeleteAll(replies, one.server, names[1..]);
      Swept(rest.server, rest.errors + if one.failure.Some? then 1 else 0)
  }

  datatype Restored = Restored(server: Server, created: seq<Text>, failure: Option<Code>)

  /** The error reported when uploading failed with `failure`. */
  function Reported(failure: Code, errors: nat): Code {
    if errors > 0 then CleanupFailed else if failure.Transport? then RestoreFailed else failure
  }

  function Restore(replies: Replies, server: Server, names: seq<Text>, valid: Text -> bool): Restored {
    var preflight := Preflight(replies, server, names, valid);
    if preflight.failure.Some? then Restored(preflight.server, [], preflight.failure)
    else
      var progress := UploadAll(replies, preflight.server, names, []);
      if progress.failure.None? then Restored(progress.server, progress.created, None)
      else
        var swept := DeleteAll(replies, progress.server, Reverse(progress.created));
        Restored(swept.server, progress.created, Some(Reported(progress.failure.value, swept.errors)))
  }

  // ---------------------------------------------------------------- set reasoning

  ghost function Names(names: seq<Text>): set<Text> {
    set n | n in names
  }

  lemma {:induction false} PreflightKeeps(replies: Replies, server: Server, names: seq<Text>, valid: Text -> bool)
    ensures var r := Preflight(replies, server, names, valid);
            && r.server == server.(asked := r.server.asked)
            && (r.failure.None? ==> Names(names) !! server.present && forall n :: n in names ==> valid(n))
    decreases |names|
  {
    if names != [] && valid(names[0]) && Exists(replies, server, names[0]).answer == Success(false) {
      PreflightKeeps(replies, Exists(replies, server, names[0]).server, names[1..], valid);
      assert names == [names[0]] + names[1..];
    }
  }

  /** What holds between uploads: nothing that was there has gone, all that is new
      is due for deletion, and only new names are. */
  ghost predicate Accounted(before: Server, names: set<Text>, server: Server, created: seq<Text>) {
    && before.present <= server.present <= before.present + Names(created)
    && Names(created) <= names
    && before.late <= server.late <= before.late + names
    && server.deletes == before.deletes
  }

  lemma UploadOneKeeps(replies: Replies, before: Server, names: set<Text>, server: Server, name: Text, created: seq<Text>)
    requires Accounted(before, names, server, created) && name in names
    ensures var step := UploadOne(replies, server, name, created);
            && (step.failure != Some(CleanupFailed) ==> Accounted(before, names, step.server, step.created))
            && (step.failure.None? ==> step.created == created + [name] && name in step.server.present)
            && server.present <= step.server.present
            && Loosely(before, names, step.server, step.created)
  {
    assert Names(created + [name]) == Names(created) + {name};
  }

  /** The same without accounting for what the last upload did. */
  ghost predicate Loosely(before: Server, names: set<Text>, server: Server, created: seq<Text>) {
    && before.present <= server.present <= before.present + names
    && Names(created) <= names
    && before.late <= server.late <= before.late + names
    && server.deletes == before.deletes
  }

  lemma AccountedLoosely(before: Server, names: set<Text>, server: Server, created: seq<Text>)
    requires Accounted(before, names, server, created)
    ensures Loosely(before, names, server, created)
  {
  }

  lemma {:induction false} UploadAllKeeps(replies: Replies, before: Server, all: set<Text>,
                                          server: Server, names: seq<Text>, created: seq<Text>)
    requires Accounted(before, all, server, created) && Names(names) <= all
    ensures var r := UploadAll(replies, server, names, created);
            && (r.failure != Some(CleanupFailed) ==> Accounted(before, all, r.server, r.created))
            && (r.failure.None? ==> r.created == created + names && Names(names) <= r.server.present)
            && server.present <= r.server.present
            && Loosely(before, all, r.server, r.created)
    decreases |names|
  {
    hide UploadOne, Accounted, Loosely;
    if names == [] {
      assert created + names == created;
      AccountedLoosely(before, all, server, created);
    } else {
      assert names[0] in names && names == [names[0]] + names[1..];
      UploadOneKeeps(replies, before, all, server, names[0], created);
      var step := UploadOne(replies, server, names[0], created);
      if step.failure.None? {
        UploadAllKeeps(replies, before, all, step.server, names[1..], step.created);
        assert created + names == step.created + names[1..];
      }
    }
  }

  /** A sweep asks for exactly the listed deletions, in order, and without an error
      it has removed them all. */
  lemma {:induction false} DeleteAllRemoves(replies: Replies, server: Server, names: seq<Text>)
    ensures var r := DeleteAll(replies, server, names);
            && r.server.deletes == server.deletes + names
            && server.present - Names(names) <= r.server.present <= server.present
            && (r.errors == 0 ==> r.server.present == server.present - Names(names))
            && r.server.late == server.late
    decreases |names|
  {
    if names != [] {
      var one := Delete(replies, server, names[0]);
      DeleteAllRemoves(replies, one.server, names[1..]);
      assert names == [names[0]] + names[1..];
      assert Names(names) == {names[0]} + Names(names[1..]);
      assert one.server.deletes + names[1..] == server.deletes + names;
    } else {
      assert server.deletes + names == server.deletes;
    }
  }

  lemma ReverseNames(names: seq<Text>)
    ensures Names(Reverse(names)) == Names(names)
  {
    forall n | n in names ensures n in Reverse(names) {
      var i :| 0 <= i < |names| && names[i] == n;
      assert Reverse(names)[|names| - 1 - i] == n;
    }
  }

  // ------------------------------------------------------------------- atomicity

  /** A restore that returns has every artifact's collection on the server, and
      nothing else has changed there. */
  lemma RestoreCompletes(replies: Replies, server: Server, names: seq<Text>, valid: Text -> bool)
    ensures var r := Restore(replies, server, names, valid);
            r.failure.None? ==>
              && r.server.present == server.present + Names(names)
              && Names(names) !! server.present
              && r.created == names
              && r.server.deletes == server.deletes
  {
    hide Preflight, UploadAll;
    PreflightKeeps(replies, server, names, valid);
    var preflight := Preflight(replies, server, names, valid);
    if preflight.failure.None? {
      UploadAllKeeps(replies, preflight.server, Names(names), preflight.server, names, []);
    }
  }

  /** A restore that fails with anything but a failed cleanup leaves exactly the
      collections that were there. */
  lemma RestoreAtomic(replies: Replies, server: Server, names: seq<Text>, valid: Text -> bool)
    ensures var r := Restore(replies, server, names, valid);
            r.failure.Some? && r.failure.value != CleanupFailed ==> r.server.present == server.present
  {
    hide Preflight, UploadAll, DeleteAll;
    PreflightKeeps(replies, server, names, valid);
    var preflight := Preflight(replies, server, names, valid);
    if preflight.failure.None? {
      UploadAllKeeps(replies, preflight.server, Names(names), preflight.server, names, []);
      var progress := UploadAll(replies, preflight.server, names, []);
      DeleteAllRemoves(replies, progress.server, Reverse(progress.created));
      ReverseNames(progress.created);
    }
  }

  /** Whatever happens, what was there stays; only restored names can remain, and
      only they are ever deleted, newest first. */
  lemma RestoreHarmless(replies: Replies, server: Server, names: seq<Text>, valid: Text -> bool)
    ensures var r := Restore(replies, server, names, valid);
            && server.present <= r.server.present <= server.present + Names(names)
            && (r.server.deletes == server.deletes || r.server.deletes == server.deletes + Reverse(r.created))
            && Names(r.created) <= Names(names)
            && (r.created != [] ==> Names(names) !! server.present)
  {
    hide Preflight, UploadAll, DeleteAll;
    PreflightKeeps(replies, server, names, valid);
    var preflight := Preflight(replies, server, names, valid);
    if preflight.failure.None? {
      UploadAllKeeps(replies, preflight.server, Names(names), preflight.server, names, []);
      var progress := UploadAll(replies, preflight.server, names, []);
      DeleteAllRemoves(replies, progress.server, Reverse(progress.created));
      ReverseNames(progress.created);
    }
  }

  /** The collections once every late upload has landed. */
  ghost function Settled(server: Server): set<Text> {
    server.present + server.late
  }

  /** Name `i` is well-formed, and an answered probe will find it absent. */
  predicate Clear(replies: Replies, server: Server, names: seq<Text>, valid: Text -> bool, i: nat)
    requires i < |names|
  {
    valid(names[i]) && names[i] !in server.present && replies(server.asked + i).ok
  }

  predicate PreflightPasses(replies: Replies, server: Server, names: seq<Text>, valid: Text -> bool) {
    forall i :: 0 <= i < |names| ==> Clear(replies, server, names, valid, i)
  }

  lemma PassesSplit(replies: Replies, server: Server, names: seq<Text>, valid: Text -> bool)
    requires names != []
    ensures PreflightPasses(replies, server, names, valid)
            <==> && Clear(replies, server, names, valid, 0)
                 && PreflightPasses(replies, server.(asked := server.asked + 1), names[1..], valid)
  {
    var next := server.(asked := server.asked + 1);
    forall i | 0 <= i < |names[1..]|
      ensures Clear(replies, next, names[1..], valid, i) <==> Clear(replies, server, names, valid, i + 1)
    {
      assert names[1..][i] == names[i + 1] && next.asked + i == server.asked + (i + 1);
    }
    hide Clear;
    if Clear(replies, server, names, valid, 0) && PreflightPasses(replies, next, names[1..], valid) {
      forall i | 0 <= i < |names| ensures Clear(replies, server, names, valid, i) {
        if i > 0 {
          assert Clear(replies, next, names[1..], valid, i - 1);
        }
      }
    }
  }

  lemma {:induction false} PreflightPassesIff(replies: Replies, server: Server, names: seq<Text>, valid: Text -> bool)
    ensures var r := Preflight(replies, server, names, valid);
            && (r.failure.None? <==> PreflightPasses(replies, server, names, valid))
            && (r.failure.None? ==> r.server == server.(asked := server.asked + |names|))
    decreases |names|
  {
    if names != [] {
      PassesSplit(replies, server, names, valid);
      PreflightPassesIff(replies, server.(asked := server.asked + 1), names[1..], valid);
    }
  }

  /**
   Whether uploading meets a reply that takes effect late: the uploads before it are
   acknowledged, take effect at once (or find the collection there already), and
   are seen to.  Uploads and their probes alternate from request `at` on.
   */
  predicate LateSent(replies: Replies, at: nat, names: seq<Text>, present: set<Text>)
    decreases |names|
  {
    names != []
    && var upload := replies(at);
    || upload.effect.Later?
    || (&& upload.ok
        && (upload.effect.Now? || names[0] in present)
        && replies(at + 1).ok
        && LateSent(replies, at + 2, names[1..], present + {names[0]}))
  }

  lemma {:induction false} LateSentIff(replies: Replies, server: Server, names: seq<Text>, created: seq<Text>)
    ensures var r := UploadAll(replies, server, names, created);
            && server.late <= r.server.late <= server.late + Names(names)
            && (!LateSent(replies, server.asked, names, server.present) ==> r.server.late == server.late)
            && (LateSent(replies, server.asked, names, server.present) ==> r.server.late * Names(names) != {})
    decreases |names|
  {
    if names != [] {
      assert names == [names[0]] + names[1..];
      var step := UploadOne(replies, server, names[0], created);
      assert Names(names) == {names[0]} + Names(names[1..]);
      if step.failure.None? {
        LateSentIff(replies, step.server, names[1..], step.created);
        assert step.server.present == server.present + {names[0]};
      }
      var r := UploadAll(replies, server, names, created);
      if replies(server.asked).effect.Later? {
        assert names[0] in r.server.late * Names(names);
      } else if LateSent(replies, server.asked, names, server.present) {
        var n :| n in r.server.late * Names(names[1..]);
        assert n in r.server.late * Names(names);
      }
    }
  }

  /** An upload that lands after its probe escapes the rollback.  A restore that
      fails (cleanup aside) is undone for good exactly when no such upload is sent,
      which the replies to come decide: either the preflight stops it, or no upload it
      gets to takes effect late. */
  lemma RestoreAtomicOnceSettled(replies: Replies, server: Server, names: seq<Text>, valid: Text -> bool)
    requires server.late == {}
    ensures var r := Restore(replies, server, names, valid);
            r.failure.Some? && r.failure.value != CleanupFailed ==>
              (Settled(r.server) == server.present
               <==> !(PreflightPasses(replies, server, names, valid)
                      && LateSent(replies, server.asked + |names|, names, server.present)))
  {
    hide Preflight, UploadAll, DeleteAll, LateSent, PreflightPasses;
    RestoreAtomic(replies, server, names, valid);
    PreflightKeeps(replies, server, names, valid);
    PreflightPassesIff(replies, server, names, valid);
    var preflight := Preflight(replies, server, names, valid);
    if preflight.failure.None? {
      LateSentIff(replies, preflight.server, names, []);
      var progress := UploadAll(replies, preflight.server, names, []);
      DeleteAllRemoves(replies, progress.server, Reverse(progress.created));
      if n :| n in progress.server.late * Names(names) {
        assert n !in server.present;
      }
    }
  }

  /** So it is undone for good whenever no request takes effect late. */
  lemma PromptServerRestoresForGood(replies: Replies, server: Server, names: seq<Text>, valid: Text -> bool)
    requires server.late == {} && forall i: nat :: !replies(i).effect.Later?
    ensures var r := Restore(replies, server, names, valid);
            r.failure.Some? && r.failure.value != CleanupFailed ==> Settled(r.server) == server.present
  {
    hide Restore;
    RestoreAtomicOnceSettled(replies, server, names, valid);
    NeverLate(replies, server.asked + |names|, names, server.present);
  }

  lemma {:induction false} NeverLate(replies: Replies, at: nat, names: seq<Text>, present: set<Text>)
    requires forall i: nat :: !replies(i).effect.Later?
    ensures !LateSent(replies, at, names, present)
    decreases |names|
  {
    if names != [] {
      NeverLate(replies, at + 2, names[1..], present + {names[0]});
    }
  }

  function LateUpload(): Replies {
    (i: nat) => if i == 1 then Reply(false, Later, false) else Reply(true, Now, true)
  }

  function AnyName(): Text -> bool {
    _ => true
  }

  /** One artifact, an upload that times out and lands afterwards. */
  lemma LateUploadSurvives(name: Text)
    ensures var r := Restore(LateUpload(), Server({}, {}, 0, []), [name], AnyName());
            r.failure == Some(RestoreFailed) && r.server.present == {} && Settled(r.server) == {name}
  {
    var server := Server({}, {}, 0, []);
    var probe := Exists(LateUpload(), server, name);
    assert Preflight(LateUpload(), server, [name], AnyName()) == Preflight(LateUpload(), probe.server, [], AnyName());
    var step := UploadOne(LateUpload(), probe.server, name, []);
    assert step.failure == Some(RestoreFailed) && step.created == [];
    assert UploadAll(LateUpload(), probe.server, [name], []) == step;
    assert Reverse<Text>([]) == [];
  }

  // ------------------------------------------------------ when a restore succeeds

  /** Upload `i` is acknowledged and takes effect at once, or is of a name uploaded
      before, and the probe after it is answered.  Uploads and their probes alternate
      from request `at` on. */
  predicate UploadWorks(replies: Replies, at: nat, names: seq<Text>, i: nat)
    requires i < |names|
  {
    && replies(at + 2 * i).ok
    && (replies(at + 2 * i).effect.Now? || names[i] in names[..i])
    && replies(at + 2 * i + 1).ok
  }

  /** The uploads work from number `i` on. */
  predicate UploadsWork(replies: Replies, at: nat, names: seq<Text>, i: nat) {
    forall k :: i <= k < |names| ==> UploadWorks(replies, at, names, k)
  }

  /** Half way through: `i` uploads have worked. */
  ghost predicate Uploaded(at: nat, before: set<Text>, names: seq<Text>, i: nat, server: Server, created: seq<Text>) {
    && i <= |names|
    && server.asked == at + 2 * i
    && server.present == before + Names(names[..i])
    && created == names[..i]
  }

  lemma UploadOneWorks(replies: Replies, at: nat, before: set<Text>, names: seq<Text>, i: nat, server: Server, created: seq<Text>)
    requires i < |names| && Uploaded(at, before, names, i, server, created) && names[i] !in before
    ensures var step := UploadOne(replies, server, names[i], created);
            && (step.failure.None? <==> UploadWorks(replies, at, names, i))
            && (step.failure.None? ==> Uploaded(at, before, names, i + 1, step.server, step.created))
  {
    assert names[..i + 1] == names[..i] + [names[i]];
    assert Names(names[..i + 1]) == Names(names[..i]) + {names[i]};
  }

  lemma {:induction false} UploadAllWorks(replies: Replies, at: nat, before: set<Text>, names: seq<Text>, i: nat,
                                          server: Server, created: seq<Text>)
    requires Uploaded(at, before, names, i, server, created) && Names(names) !! before
    ensures UploadAll(replies, server, names[i..], created).failure.None? <==> UploadsWork(replies, at, names, i)
    decreases |names| - i
  {
    if i < |names| {
      assert names[i] in names && names[i..][0] == names[i] && names[i..][1..] == names[i + 1..];
      UploadOneWorks(replies, at, before, names, i, server, created);
      var step := UploadOne(replies, server, names[i], created);
      hide UploadWorks, Uploaded, UploadOne, Names;
      if step.failure.None? {
        UploadAllWorks(replies, at, before, names, i + 1, step.server, step.created);
      }
    }
  }

  /** A restore succeeds if and only if every name is well-formed and found absent and
      then every upload works: a condition on the replies to come alone. */
  lemma RestoreSucceedsIff(replies: Replies, server: Server, names: seq<Text>, valid: Text -> bool)
    ensures Restore(replies, server, names, valid).failure.None?
            <==> PreflightPasses(replies, server, names, valid) && UploadsWork(replies, server.asked + |names|, names, 0)
  {
    hide Preflight, UploadAll, DeleteAll, PreflightPasses, UploadsWork;
    PreflightKeeps(replies, server, names, valid);
    PreflightPassesIff(replies, server, names, valid);
    var preflight := Preflight(replies, server, names, valid);
    if preflight.failure.None? {
      assert names[..0] == [] && names[0..] == names;
      UploadAllWorks(replies, preflight.server.asked, server.present, names, 0, preflight.server, []);
    }
  }

  // ----------------------------------------------------- when it cannot clean up

  /** The first upload that does not work. */
  predicate FirstFailing(replies: Replies, at: nat, names: seq<Text>, k: nat) {
    && k < |names|
    && !UploadWorks(replies, at, names, k)
    && forall i :: 0 <= i < k ==> UploadWorks(replies, at, names, i)
  }

  /** Upload `k` failed and its probe was not answered: nobody knows what it did. */
  predicate Unknown(replies: Replies, at: nat, k: nat) {
    !replies(at + 2 * k).ok && !replies(at + 2 * k + 1).ok
  }

  /** How many collections are known to have been created when upload `k` is the first
      that does not work. */
  function Created(replies: Replies, at: nat, names: seq<Text>, k: nat): nat
    requires k < |names|
  {
    var seen := replies(at + 2 * k + 1).ok && (replies(at + 2 * k).effect.Now? || names[k] in names[..k]);
    if replies(at + 2 * k).ok || seen then k + 1 else k
  }

  /** One of the `n` deletions asked from request `at` on is not acknowledged. */
  predicate DeletionFails(replies: Replies, at: nat, n: nat) {
    exists j :: at <= j < at + n && !replies(j).ok
  }

  lemma {:induction false} DeleteAllErrors(replies: Replies, server: Server, names: seq<Text>)
    ensures DeleteAll(replies, server, names).errors > 0 <==> DeletionFails(replies, server.asked, |names|)
    decreases |names|
  {
    if names != [] {
      var next := Delete(replies, server, names[0]).server;
      DeleteAllErrors(replies, next, names[1..]);
      assert next.asked == server.asked + 1;
      if DeletionFails(replies, server.asked, |names|) && replies(server.asked).ok {
        var j :| server.asked <= j < server.asked + |names| && !replies(j).ok;
        assert next.asked <= j < next.asked + |names[1..]|;
      }
    }
  }

  lemma UploadOneFails(replies: Replies, at: nat, before: set<Text>, names: seq<Text>, i: nat, server: Server, created: seq<Text>)
    requires i < |names| && Uploaded(at, before, names, i, server, created) && names[i] !in before
    requires !UploadWorks(replies, at, names, i)
    ensures var step := UploadOne(replies, server, names[i], created);
            && (step.failure == Some(CleanupFailed) <==> Unknown(replies, at, i))
            && |step.created| == Created(replies, at, names, i)
            && step.server.asked == at + 2 * i + 2
  {
  }

  lemma {:induction false} UploadAllFails(replies: Replies, at: nat, before: set<Text>, names: seq<Text>, i: nat,
                                          server: Server, created: seq<Text>, k: nat)
    requires Uploaded(at, before, names, i, server, created) && Names(names) !! before
    requires i <= k && FirstFailing(replies, at, names, k)
    ensures var r := UploadAll(replies, server, names[i..], created);
            && r.failure.Some?
            && (r.failure == Some(CleanupFailed) <==> Unknown(replies, at, k))
            && |r.created| == Created(replies, at, names, k)
            && r.server.asked == at + 2 * k + 2
    decreases |names| - i
  {
    assert names[i] in names && names[i..][0] == names[i] && names[i..][1..] == names[i + 1..];
    UploadOneWorks(replies, at, before, names, i, server, created);
    var step := UploadOne(replies, server, names[i], created);
    if i < k {
      hide UploadOne, Names, Unknown, Created, Uploaded;
      UploadAllFails(replies, at, before, names, i + 1, step.server, step.created, k);
    } else {
      UploadOneFails(replies, at, before, names, i, server, created);
    }
  }

  lemma {:induction false} FirstFailingExists(replies: Replies, at: nat, names: seq<Text>, i: nat) returns (k: nat)
    requires i <= |names| && !UploadsWork(replies, at, names, 0)
    requires forall j :: 0 <= j < i ==> UploadWorks(replies, at, names, j)
    ensures FirstFailing(replies, at, names, k)
    decreases |names| - i
  {
    hide UploadWorks;
    if i < |names| && UploadWorks(replies, at, names, i) {
      k := FirstFailingExists(replies, at, names, i + 1);
    } else {
      k := i;
    }
  }

  /** The sweep after a failed restore begins right after the requests of the upload
      that failed. */
  predicate CleanupFails(replies: Replies, at: nat, names: seq<Text>, k: nat)
    requires k < |names|
  {
    Unknown(replies, at, k) || DeletionFails(replies, at + 2 * k + 2, Created(replies, at, names, k))
  }

  ghost predicate Strands(replies: Replies, at: nat, names: seq<Text>) {
    exists k :: FirstFailing(replies, at, names, k) && CleanupFails(replies, at, names, k)
  }

  /** The cleanup is reported as failed if and only if it is: some upload did not work,
      and either nobody knows what it did or one of the deletions was not
      acknowledged. */
  lemma CleanupFailedIff(replies: Replies, server: Server, names: seq<Text>, valid: Text -> bool)
    ensures Restore(replies, server, names, valid).failure == Some(CleanupFailed)
            <==> PreflightPasses(replies, server, names, valid) && Strands(replies, server.asked + |names|, names)
  {
    var at := server.asked + |names|;
    PreflightKeeps(replies, server, names, valid);
    PreflightPassesIff(replies, server, names, valid);
    PreflightCodes(replies, server, names, valid);
    RestoreSucceedsIff(replies, server, names, valid);
    if PreflightPasses(replies, server, names, valid) && !UploadsWork(replies, at, names, 0) {
      var k := FirstFailingExists(replies, at, names, 0);
      FailedRestore(replies, server, names, valid, k);
      forall other | FirstFailing(replies, at, names, other) ensures other == k {
        FirstFailingUnique(replies, at, names, k, other);
      }
    } else {
      forall k | FirstFailing(replies, at, names, k) ensures !UploadsWork(replies, at, names, 0) {
        assert !UploadWorks(replies, at, names, k);
      }
    }
  }

  lemma FirstFailingUnique(replies: Replies, at: nat, names: seq<Text>, j: nat, k: nat)
    requires FirstFailing(replies, at, names, j) && FirstFailing(replies, at, names, k)
    ensures j == k
  {
    hide UploadWorks;
  }

  lemma {:induction false} PreflightCodes(replies: Replies, server: Server, names: seq<Text>, valid: Text -> bool)
    ensures Preflight(replies, server, names, valid).failure != Some(CleanupFailed)
    decreases |names|
  {
    if names != [] {
      PreflightCodes(replies, Exists(replies, server, names[0]).server, names[1..], valid);
    }
  }

  lemma FailedRestore(replies: Replies, server: Server, names: seq<Text>, valid: Text -> bool, k: nat)
    requires PreflightPasses(replies, server, names, valid) && FirstFailing(replies, server.asked + |names|, names, k)
    ensures Restore(replies, server, names, valid).failure == Some(CleanupFailed)
            <==> CleanupFails(replies, server.asked + |names|, names, k)
  {
    var at := server.asked + |names|;
    PreflightKeeps(replies, server, names, valid);
    PreflightPassesIff(replies, server, names, valid);
    hide Preflight, UploadAll, DeleteAll, PreflightPasses, FirstFailing, Unknown, DeletionFails, Created;
    var preflight := Preflight(replies, server, names, valid);
    assert names[..0] == [] && names[0..] == names;
    UploadAllFails(replies, at, server.present, names, 0, preflight.server, [], k);
    var progress := UploadAll(replies, preflight.server, names, []);
    DeleteAllErrors(replies, progress.server, Reverse(progress.created));
    ReverseNames(progress.created);
  }

  // ------------------------------------------------------- what a failure reports

  /** The error that upload `k` and its probe amount to: a malformed answer, or a
      collection that was acknowledged and is not there, is an invalid response. */
  function UploadError(replies: Replies, at: nat, k: nat): Code {
    var upload, probe := replies(at + 2 * k), replies(at + 2 * k + 1);
    if (upload.ok && probe.ok) || (if upload.ok then probe else upload).typed then ResponseInvalid else RestoreFailed
  }

  lemma UploadOneReports(replies: Replies, at: nat, before: set<Text>, names: seq<Text>, i: nat, server: Server, created: seq<Text>)
    requires i < |names| && Uploaded(at, before, names, i, server, created) && names[i] !in before
    requires !UploadWorks(replies, at, names, i) && !Unknown(replies, at, i)
    ensures var step := UploadOne(replies, server, names[i], created);
            && step.failure.Some?
            && Reported(step.failure.value, 0) == UploadError(replies, at, i)
  {
  }

  lemma {:induction false} UploadAllReports(replies: Replies, at: nat, before: set<Text>, names: seq<Text>, i: nat,
                                            server: Server, created: seq<Text>, k: nat)
    requires Uploaded(at, before, names, i, server, created) && Names(names) !! before
    requires i <= k && FirstFailing(replies, at, names, k) && !Unknown(replies, at, k)
    ensures var r := UploadAll(replies, server, names[i..], created);
            r.failure.Some? && Reported(r.failure.value, 0) == UploadError(replies, at, k)
    decreases |names| - i
  {
    assert names[i] in names && names[i..][0] == names[i] && names[i..][1..] == names[i + 1..];
    UploadOneWorks(replies, at, before, names, i, server, created);
    var step := UploadOne(replies, server, names[i], created);
    if i < k {
      hide UploadOne, Names, Unknown, Uploaded, UploadError;
      UploadAllReports(replies, at, before, names, i + 1, step.server, step.created, k);
    } else {
      UploadOneReports(replies, at, before, names, i, server, created);
    }
  }

  /** A restore that failed while uploading and cleaned up after itself reports the
      error of the first upload that did not work. */
  lemma UploadFailureReported(replies: Replies, server: Server, names: seq<Text>, valid: Text -> bool, k: nat)
    requires PreflightPasses(replies, server, names, valid) && FirstFailing(replies, server.asked + |names|, names, k)
    requires !CleanupFails(replies, server.asked + |names|, names, k)
    ensures Restore(replies, server, names, valid).failure == Some(UploadError(replies, server.asked + |names|, k))
  {
    var at := server.asked + |names|;
    FailedRestore(replies, server, names, valid, k);
    PreflightKeeps(replies, server, names, valid);
    PreflightPassesIff(replies, server, names, valid);
    hide Preflight, UploadAll, DeleteAll, PreflightPasses, FirstFailing, DeletionFails, Created, Unknown, UploadError;
    var preflight := Preflight(replies, server, names, valid);
    assert names[..0] == [] && names[0..] == names;
    UploadAllReports(replies, at, server.present, names, 0, preflight.server, [], k);
  }

  /** The first name that the preflight stops at. */
  predicate FirstUnclear(replies: Replies, server: Server, names: seq<Text>, valid: Text -> bool, k: nat) {
    && k < |names|
    && !Clear(replies, server, names, valid, k)
    && forall i :: 0 <= i < k ==> Clear(replies, server, names, valid, i)
  }

  lemma {:induction false} PreflightReports(replies: Replies, server: Server, names: seq<Text>, valid: Text -> bool, k: nat)
    requires FirstUnclear(replies, server, names, valid, k)
    ensures Preflight(replies, server, names, valid).failure
            == Some(if !valid(names[k]) then ResponseInvalid
                    else if replies(server.asked + k).ok then AlreadyExists
                    else if replies(server.asked + k).typed then ResponseInvalid else Transport)
    decreases |names|
  {
    if k > 0 {
      assert Clear(replies, server, names, valid, 0);
      var next := server.(asked := server.asked + 1);
      forall i | 0 <= i < |names[1..]|
        ensures Clear(replies, next, names[1..], valid, i) <==> Clear(replies, server, names, valid, i + 1)
      {
        assert names[1..][i] == names[i + 1] && next.asked + i == server.asked + (i + 1);
      }
      PreflightReports(replies, next, names[1..], valid, k - 1);
    }
  }

  /** The first name that is malformed, whose probe is not answered or that is already
      there stops the restore with the error that says so. */
  lemma PreflightFailureReported(replies: Replies, server: Server, names: seq<Text>, valid: Text -> bool, k: nat)
    requires FirstUnclear(replies, server, names, valid, k)
    ensures Restore(replies, server, names, valid).failure
            == Some(if !valid(names[k]) then ResponseInvalid
                    else if replies(server.asked + k).ok then AlreadyExists
                    else if replies(server.asked + k).typed then ResponseInvalid else Transport)
  {
    hide FirstUnclear, Clear, Preflight, UploadAll, DeleteAll;
    PreflightReports(replies, server, names, valid, k);
  }

  // -------------------------------------------------------------- the lease

  /** What undoing a finished restore does: nothing a second time. */
  datatype Undone = Undone(server: Server, active: bool, failure: Option<Code>)

  function Undo(replies: Replies, server: Server, created: seq<Text>, active: bool): Undone {
    if !active then Undone(server, false, None)
    else
      var swept := DeleteAll(replies, server, Reverse(created));
      Undone(swept.server, swept.errors > 0, if swept.errors > 0 then Some(CleanupFailed) else None)
  }

  /** Undoing a finished restore without an error gives back the collections that
      were there, and undoing again asks for nothing. */
  lemma UndoInverts(replies: Replies, server: Server, names: seq<Text>, valid: Text -> bool)
    requires Restore(replies, server, names, valid).failure.None?
    ensures var done := Restore(replies, server, names, valid);
            var undone := Undo(replies, done.server, done.created, true);
            && (undone.failure.None? <==> !undone.active)
            && (undone.failure.None? ==>
                  && undone.server.present == server.present
                  && Undo(replies, undone.server, done.created, undone.active).server == undone.server)
            && server.present <= undone.server.present
  {
    hide Restore, DeleteAll;
    RestoreCompletes(replies, server, names, valid);
    var done := Restore(replies, server, names, valid);
    DeleteAllRemoves(replies, done.server, Reverse(done.created));
    ReverseNames(done.created);
  }

  // ------------------------------------------------------------- step by step

  /** The collections are deleted last first, and every error is kept. */
  method DeleteCollections(replies: Replies, start: Server, collections: seq<Text>) returns (server: Server, errors: nat)
    ensures Swept(server, errors) == DeleteAll(replies, start, Reverse(collections))
  {
    server, errors := start, 0;
    var order := Reverse(collections);
    var i := 0;
    while i < |order|
      invariant 0 <= i <= |order|
      invariant var rest := DeleteAll(replies, server, order[i..]);
                DeleteAll(replies, start, order) == Swept(rest.server, errors + rest.errors)
    {
      assert order[i..][0] == order[i] && order[i..][1..] == order[i + 1..];
      var one := Delete(replies, server, order[i]);
      server := one.server;
      if one.failure.Some? {
        errors := errors + 1;
      }
      i := i + 1;
    }
  }

  method CheckAbsent(replies: Replies, start: Server, names: seq<Text>, valid: Text -> bool)
    returns (server: Server, failure: Option<Code>)
    ensures Requested(server, failure) == Preflight(replies, start, names, valid)
  {
    server, failure := start, None;
    var i := 0;
    while i < |names|
      invariant 0 <= i <= |names|
      invariant failure.None?
      invariant Preflight(replies, server, names[i..], valid) == Preflight(replies, start, names, valid)
    {
      assert names[i..][0] == names[i] && names[i..][1..] == names[i + 1..];
      if !valid(names[i]) {
        return server, Some(ResponseInvalid);
      }
      var probe := Exists(replies, server, names[i]);
      server := probe.server;
      match probe.answer {
        case Failure(code) => return server, Some(code);
        case Success(seen) =>
          if seen {
            return server, Some(AlreadyExists);
          }
      }
      i := i + 1;
    }
  }

  method UploadCollections(replies: Replies, start: Server, names: seq<Text>)
    returns (server: Server, created: seq<Text>, failure: Option<Code>)
    ensures Progress(server, created, failure) == UploadAll(replies, start, names, [])
  {
    server, created, failure := start, [], None;
    var i := 0;
    while i < |names|
      invariant 0 <= i <= |names|
      invariant failure.None?
      invariant UploadAll(replies, server, names[i..], created) == UploadAll(replies, start, names, [])
    {
      assert names[i..][0] == names[i] && names[i..][1..] == names[i + 1..];
      ghost var before, had := server, created;
      var name := names[i];
      var upload := Upload(replies, server, name);
      server := upload.server;
      if upload.failure.None? {
        created := created + [name];
      }
      var probe := Exists(replies, server, name);
      server := probe.server;
      match probe.answer {
        case Failure(code) =>
          failure := Some(if upload.failure.Some? then CleanupFailed else code);
        case Success(seen) =>
          if upload.failure.Some? {
            if seen {
              created := created + [name];
            }
            failure := upload.failure;
          } else if !seen {
            failure := Some(ResponseInvalid);
          }
      }
      assert Progress(server, created, failure) == UploadOne(replies, before, name, had);
      if failure.Some? {
        return;
      }
      i := i + 1;
    }
  }

  method RestoreCollections(replies: Replies, start: Server, names: seq<Text>, valid: Text -> bool)
    returns (server: Server, created: seq<Text>, failure: Option<Code>)
    ensures Restored(server, created, failure) == Restore(replies, start, names, valid)
  {
    created := [];
    server, failure := CheckAbsent(replies, start, names, valid);
    if failure.Some? {
      return;
    }
    server, created, failure := UploadCollections(replies, server, names);
    if failure.Some? {
      var errors;
      server, errors := DeleteCollections(replies, server, created);
      if errors > 0 {
        failure := Some(CleanupFailed);
      } else if failure.value.Transport? {
        failure := Some(RestoreFailed);
      }
    }
  }

  /** The right to undo a finished restore, used up by the first undoing that
      meets no error. */
  class RestoreLease {
    const created: seq<Text>
    var active: bool

    constructor (created: seq<Text>)
      ensures this.created == created && active
    {
      this.created := created;
      active := true;
    }

    method Rollback(replies: Replies, start: Server) returns (server: Server, failure: Option<Code>)
      modifies this`active
      ensures Undone(server, active, failure) == Undo(replies, start, created, old(active))
    {
      if !active {
        return start, None;
      }
      var errors;
      server, errors := DeleteCollections(replies, start, created);
      if errors > 0 {
        return server, Some(CleanupFailed);
      }
      active := false;
      failure := None;
    }
  }
}
