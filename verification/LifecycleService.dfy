/**
 The processor of control operations.  Every phase may be repeated; a processor that stops at any
 point leaves a state another one can pick up, because each call it makes is one protocol step and
 it advances the intent in MySQL only after the matching Redis call has been seen to succeed.
 */
module LifecycleService {
  import opened MemoryModel
  import opened Ledger
  import H = History
  import opened Journal
  import opened Runtime
  import opened Protocol
  import opened ProtocolInvariant
  import opened ProtocolTheorems
  import opened MemoryStore
  import opened RuntimeStore
  import opened ArchiveService
  import opened LifecycleTheorems

  /** What the database answers when a waiting room is to be started: nothing wrong, or the error's kind. */
  datatype Startup = Playable | Refused(permanent: bool)

  predicate Succeeded(result: ControlResult) {
    result.Done? || result.Already?
  }

  class GameMemoryLifecycleService {
    const runtime: RedisGameStateRepo
    const store: GameMemoryRepo
    const archive: GameArchiveService

    constructor (archive: GameArchiveService)
      ensures this.archive == archive && runtime == archive.runtime && store == archive.store
    {
      this.archive := archive;
      runtime := archive.runtime;
      store := archive.store;
    }

    /** The objects agree, and hold what the steps taken so far lead to. */
    ghost predicate Tracks(s: System, steps: seq<Step>)
      reads this, runtime, store
    {
      && runtime == archive.runtime && store == archive.store
      && store.Valid() && Mirrors(runtime, store, Run(s, steps))
    }

    method Apply(id: Uuid, op: Operation, fence: Uuid, recovery: bool, ghost s: System, ghost done: seq<Step>)
      returns (ok: bool, ghost steps: seq<Step>)
      requires Tracks(s, done) && id in store.operations && store.operations[id] == op && ImageReadable(op)
      modifies runtime
      ensures steps == done + [ApplyImage(id, fence, recovery)] && Tracks(s, steps)
      ensures Run(s, steps).workers == Run(s, done).workers
      ensures ok ==> id in Run(s, steps).learned.applied
      ensures op.kind.EndOp? ==> runtime.play == old(runtime.play)
      ensures runtime.receipts == old(runtime.receipts) && runtime.lease == old(runtime.lease)
      ensures ok ==> id in old(runtime.receipts) || old(runtime.boundaries) == {}
      ensures AtFence(old(runtime.Keys()), id, op, fence) ==> ok && Settled(runtime.Keys(), id, op, recovery)
      ensures Settled(old(runtime.Keys()), id, op, recovery) && !op.kind.EndOp? ==> ok && runtime.Keys() == old(runtime.Keys())
    {
      RunAppend(s, done, ApplyImage(id, fence, recovery));
      ControlKeepsWorkers(Run(s, done), ApplyImage(id, fence, recovery));
      var result := runtime.ApplyMemoryOperation(id, op, fence, recovery);
      ok := Succeeded(result);
      steps := done + [ApplyImage(id, fence, recovery)];
    }

    /**
     Drain: archive what was committed before the fence and store every waiting snapshot, or give up for now.
     `found` are the boundaries whose row an earlier flush has left, `next` the next fresh row number.
     */
    method Drain(owner: Uuid, found: set<Boundary>, next: nat, ghost s: System, ghost done: seq<Step>)
      returns (ok: bool, ghost steps: seq<Step>)
      requires Tracks(s, done) && owner !in Run(s, done).workers
      requires Numbered(store.saves, next) && forall b :: b in found ==> SavedAt(store.Contents(), b)
      modifies runtime, store
      ensures Tracks(s, steps)
      ensures ok ==> runtime.meta.Some? && runtime.meta.value.head == runtime.meta.value.durable && runtime.boundaries == {}
      ensures KeepsIntents(Run(s, done)) && SameButProgress(old(store.row), store.row)
      ensures Arises(Run(s, done)) && FreshOwner(Run(s, done), owner) ==>
                && (ok <==> OpenGate(Run(s, done).redis) && DrainFree(Run(s, done)))
                && (ok ==> runtime.pending.None? && OpenGate(runtime.Keys()) && store.Contents().tables == DrainedTables(Run(s, done)))
    {
      steps := done;
      if runtime.meta.None? || runtime.meta.value.state.Blocked? {
        return false, steps;
      }
      if Arises(Run(s, done)) {
        BodyAhead(Run(s, done));
      }
      if runtime.meta.value.head > runtime.meta.value.durable {
        steps := ArchiveHead(owner, s, done);
        if Arises(Run(s, done)) {
          ArisesLater(s, done, steps);
        }
        if runtime.meta.None? || runtime.meta.value.head != runtime.meta.value.durable {
          return false, steps;
        }
      }
      if runtime.meta.value.head != runtime.meta.value.durable {
        return false, steps;
      }
      ok, steps := FlushAutoSaves(found, next, s, steps);
    }

    /** One pass of the archive worker over what was committed before the fence. */
    method ArchiveHead(owner: Uuid, ghost s: System, ghost done: seq<Step>) returns (ghost steps: seq<Step>)
      requires Tracks(s, done) && owner !in Run(s, done).workers
      modifies runtime, store
      ensures Tracks(s, steps) && done <= steps
      ensures KeepsIntents(Run(s, done)) && store.saves == old(store.saves) && SameButProgress(old(store.row), store.row)
      ensures Arises(Run(s, done)) && FreshOwner(Run(s, done), owner) && OpenGate(Run(s, done).redis) && Run(s, done).redis.pending.Some? ==>
                && runtime.meta.Some?
                && (runtime.meta.value.head == runtime.meta.value.durable <==> DrainFree(Run(s, done)))
                && (DrainFree(Run(s, done)) ==>
                      OpenGate(runtime.Keys()) && runtime.pending.None? && store.Contents().tables == DrainedTables(Run(s, done)))
    {
      ghost var was := Run(s, done);
      WorkedIsRun(s, done, owner);
      WorkedKeepsIntents(was, owner);
      if Arises(was) && FreshOwner(was, owner) && OpenGate(was.redis) && was.redis.pending.Some? {
        WorkedDrainsIff(was, owner);
      }
      var _ := archive.Process(owner, was);
      steps := done + WorkerSteps(owner);
    }

    /** The intents, the room's state, the runtime and the control token are those of `s`. */
    ghost predicate KeepsIntents(s: System)
      reads runtime, store
    {
      && store.operations == s.store.ops && store.state == s.store.state
      && runtime.receipts == s.redis.receipts && runtime.play == s.redis.play && runtime.control == s.redis.control
      && SameToken(s.redis.meta, runtime.meta)
    }

    /** FlushAutoSaves: a snapshot stops waiting only after its row stands; the loop gives up at the first refusal. */
    method FlushAutoSaves(found: set<Boundary>, next: nat, ghost s: System, ghost done: seq<Step>)
      returns (ok: bool, ghost steps: seq<Step>)
      requires Tracks(s, done)
      requires Numbered(store.saves, next) && forall b :: b in found ==> SavedAt(store.Contents(), b)
      modifies runtime`boundaries, store`saves
      ensures Tracks(s, steps)
      ensures ok ==> runtime.boundaries == {}
      ensures Arises(Run(s, done)) ==> ok
    {
      steps := done;
      ok := true;
      var row := next;
      while ok && runtime.boundaries != {}
        invariant Tracks(s, steps) && Numbered(store.saves, row)
        invariant forall b :: b in found ==> SavedAt(store.Contents(), b)
        invariant done <= steps && (Arises(Run(s, done)) ==> ok)
        decreases ok, runtime.boundaries
      {
        var b :| b in runtime.boundaries;
        if Arises(Run(s, done)) {
          ArisesLater(s, done, steps);
          BoundaryFlushable(Run(s, steps), b);
        }
        ok, steps := FlushBoundaryOf(b, b in found, row, s, steps);
        row := row + 1;
      }
    }

    method FlushBoundaryOf(b: Boundary, found: bool, n: nat, ghost s: System, ghost done: seq<Step>)
      returns (ok: bool, ghost steps: seq<Step>)
      requires Tracks(s, done) && Numbered(store.saves, n) && b in runtime.boundaries
      requires found ==> SavedAt(store.Contents(), b)
      modifies runtime`boundaries, store`saves
      ensures Tracks(s, steps) && Numbered(store.saves, n + 1)
      ensures forall k :: k in old(store.saves) ==> k in store.saves && store.saves[k] == old(store.saves)[k]
      ensures runtime.boundaries == if ok then old(runtime.boundaries) - {b} else old(runtime.boundaries)
      ensures done <= steps
      ensures ok <==> b.timeline in store.timelines && store.timelines[b.timeline].status.Active? && b.position <= store.timelines[b.timeline].durable
    {
      steps := done;
      if b.timeline !in store.timelines || !store.timelines[b.timeline].status.Active? || b.position > store.timelines[b.timeline].durable {
        return false, steps;
      }
      var point := SavePoint(Some(b.timeline), Some(b.position), b.round);
      if !found {
        RunAppend(s, steps, AddSave(n, point));
        store.AddSave(n, point);
        steps := steps + [AddSave(n, point)];
        assert store.saves[n] == point;
      }
      RunAppend(s, steps, Step.FlushBoundary(b));
      runtime.AcknowledgeMemoryAutoSave(b);
      steps := steps + [Step.FlushBoundary(b)];
      return true, steps;
    }

    /** The prepared phase up to the call that installs the image; false also after aborting a refused start. */
    method Ready(id: Uuid, op: Operation, fence: Uuid, recovery: bool, startup: Startup, owner: Uuid,
                 found: set<Boundary>, next: nat, ghost s: System)
      returns (ok: bool, ghost steps: seq<Step>)
      requires Tracks(s, []) && owner !in s.workers
      requires Numbered(store.saves, next) && forall b :: b in found ==> SavedAt(store.Contents(), b)
      requires id in store.operations && store.operations[id] == op && ImageReadable(op) && op.phase.PreparedPhase?
      requires SameRoom(store.row, op)
      modifies runtime, store
      ensures Tracks(s, steps)
      ensures ok ==> id in store.operations && store.operations[id] == op
      ensures ok && op.kind.StartOp? ==> Run(s, steps).workers == s.workers
      ensures ok ==> runtime.receipts == old(runtime.receipts)
      ensures ok && op.kind.StartOp? ==> store.row == old(store.row).(status := StartedAs(old(store.row).status, recovery))
      ensures ok && !op.kind.StartOp? ==> SameRoom(store.row, op) && (InPlay(store.row) <==> InPlay(old(store.row)))
      ensures op.kind.EndOp? ==> TurnOf(runtime.play) == TurnOf(old(runtime.play))
      ensures FirstAttempt(s, id, op) && FreshOwner(s, owner) ==>
                && (MayProceed(s, old(store.row), op, startup, recovery) ==> ok && runtime.boundaries == {})
                && (ok && runtime.boundaries == {} ==> MayProceed(s, old(store.row), op, startup, recovery))
                && (ok && runtime.boundaries == {} ==>
                           AtFence(runtime.Keys(), id, op, fence) && Owns(store.Contents(), id, Completed)
                           && store.state == s.store.state && (op.kind.StartOp? ==> runtime.lease == s.redis.lease)
                           && store.Contents().tables == if op.kind.StartOp? then s.store.tables else DrainedTables(s))
      ensures TurnedAway(s, old(store.row), id, op, startup) ==> !ok && StartRefused(s.store, id, startup)
    {
      if FirstAttempt(s, id, op) {
        OpenIntent(s, id);
      }
      if op.kind.StartOp? {
        ok, steps := ReadyStart(id, op, recovery, startup, s);
      } else {
        ok, steps := ReadySource(id, op, fence, recovery, owner, found, next, s);
      }
    }

    method ReadyStart(id: Uuid, op: Operation, recovery: bool, startup: Startup, ghost s: System)
      returns (ok: bool, ghost steps: seq<Step>)
      requires Tracks(s, []) && SameRoom(store.row, op) && op.kind.StartOp?
      requires id in store.operations && store.operations[id] == op && ImageReadable(op) && op.phase.PreparedPhase?
      modifies runtime, store
      ensures Tracks(s, steps)
      ensures ok ==> store.Contents() == old(store.Contents()) && Run(s, steps).workers == s.workers
      ensures ok ==> runtime.receipts == old(runtime.receipts)
      ensures ok ==> store.row == old(store.row).(status := StartedAs(old(store.row).status, recovery))
      ensures id !in s.redis.receipts && s.redis.control.None? && s.redis.meta.None? && Owns(s.store, id, Completed) ==>
                && (ok <==> s.redis.play.None? && MayStart(old(store.row), startup.Playable?))
                && (ok ==> && runtime.control == Some(Control(id, op.image, Fenced))
                           && runtime.play == Some(Play(Provisional, op.image.generation, op.image.turn))
                           && runtime.meta == Some(Meta(op.target.value, 0, 0, op.image.targetRevision, Recovering, Some(id), None))
                           && runtime.Keys() == s.redis.(control := runtime.control, play := runtime.play, meta := runtime.meta))
      ensures id !in s.redis.receipts && s.redis.control.None? && s.redis.meta.None? && s.redis.play.None? && s.redis.pending.None?
              && Owns(s.store, id, Completed) && old(store.row).status.WaitingRoom? && startup.Refused? ==>
                StartRefused(s.store, id, startup)
    {
      RunAppend(s, [], InitializeStart(id));
      ControlKeepsWorkers(s, InitializeStart(id));
      var result := runtime.InitializeMemoryStart(id, op);
      steps := [] + [InitializeStart(id)];
      if !Succeeded(result) {
        return false, steps;
      }
      if store.row.status.WaitingRoom? {
        if startup.Refused? {
          if startup.permanent {
            steps := AbandonStart(id, op, s, steps);
          }
          return false, steps;
        }
        var _ := store.TransitionRoomStatus(op.image.owner, {WaitingRoom}, PlayingRoom);
      }
      if !InPlay(store.row) {
        return false, steps;
      }
      ok := true;
      if recovery {
        ok := store.PauseOperationRoom(id, op.image.targetRevision);
      }
    }

    method ReadySource(id: Uuid, op: Operation, fence: Uuid, recovery: bool, owner: Uuid,
                       found: set<Boundary>, next: nat, ghost s: System)
      returns (ok: bool, ghost steps: seq<Step>)
      requires Tracks(s, []) && owner !in s.workers && SameRoom(store.row, op) && !op.kind.StartOp?
      requires Numbered(store.saves, next) && forall b :: b in found ==> SavedAt(store.Contents(), b)
      requires id in store.operations && store.operations[id] == op && ImageReadable(op) && op.phase.PreparedPhase?
      modifies runtime, store
      ensures Tracks(s, steps) && store.operations == old(store.operations) && runtime.receipts == old(runtime.receipts)
      ensures SameRoom(store.row, op) && (InPlay(store.row) <==> InPlay(old(store.row)))
      ensures op.kind.EndOp? ==> TurnOf(runtime.play) == TurnOf(old(runtime.play))
      ensures Arises(s) && FreshOwner(s, owner) && FreeToken(s.redis, id, op) ==>
                && (ok <==> MayFence(s.redis, op, recovery) && DrainFree(s))
                && (ok ==> AtFence(runtime.Keys(), id, op, fence) && store.state == s.store.state && store.Contents().tables == DrainedTables(s))
    {
      ok, steps := FenceSource(id, op, fence, recovery, s);
      if ok {
        if Arises(s) {
          ArisesLater(s, [], steps);
        }
        ok, steps := Drain(owner, found, next, s, steps);
      }
    }

    /** Commits are closed under a generation of the operation's own, and the room is paused. */
    method FenceSource(id: Uuid, op: Operation, fence: Uuid, recovery: bool, ghost s: System)
      returns (ok: bool, ghost steps: seq<Step>)
      requires Tracks(s, []) && SameRoom(store.row, op) && !op.kind.StartOp?
      requires id in store.operations && store.operations[id] == op && ImageReadable(op) && op.phase.PreparedPhase?
      modifies runtime, store`row
      ensures Tracks(s, steps) && store.Contents() == old(store.Contents())
      ensures Run(s, steps).workers == s.workers && Run(s, steps).store == s.store && runtime.receipts == old(runtime.receipts)
      ensures SameRoom(store.row, op) && (InPlay(store.row) <==> InPlay(old(store.row)))
      ensures op.kind.EndOp? ==> TurnOf(runtime.play) == TurnOf(old(runtime.play))
      ensures FreeToken(s.redis, id, op) ==>
                && (ok <==> MayFence(s.redis, op, recovery))
                && (ok ==> && runtime.control == Some(Control(id, op.image, Fenced))
                           && runtime.play.Some? && runtime.play.value.status.Paused? && runtime.play.value.generation == fence
                           && runtime.meta == Some(s.redis.meta.value.(control := Some(id), state := Recovering))
                           && runtime.Keys() == s.redis.(control := runtime.control, play := runtime.play, meta := runtime.meta))
    {
      RunAppend(s, [], FenceRoom(id, fence, recovery));
      FenceChanges(s, id, fence, recovery);
      var result := runtime.FenceMemoryOperation(id, op, fence, recovery);
      steps := [] + [FenceRoom(id, fence, recovery)];
      ok := Succeeded(result);
      if ok {
        var _ := store.TransitionRoomStatus(op.image.owner, {PlayingRoom, PausedRoom}, PausedRoom);
      }
    }

    /** A start refused for good is aborted, with the runtime gone and the gate closed; otherwise the intent waits for another attempt. */
    ghost predicate StartRefused(was: Store, id: Uuid, startup: Startup)
      reads runtime, store
      requires startup.Refused?
    {
      && store.row.status.WaitingRoom?
      && if startup.permanent then
           && Moved(was, store.Contents(), id, AbortedPhase)
           && runtime.play.None? && runtime.meta.Some? && runtime.meta.value.state.Blocked?
         else store.Contents() == was
    }

    /** A start refused for good is aborted in Redis first and in MySQL only after that has succeeded. */
    method AbandonStart(id: Uuid, op: Operation, ghost s: System, ghost done: seq<Step>) returns (ghost steps: seq<Step>)
      requires Tracks(s, done) && id in store.operations && store.operations[id] == op && ImageReadable(op) && op.kind.StartOp?
      modifies runtime, store
      ensures Tracks(s, steps) && store.row == old(store.row)
      ensures Untouched(old(runtime.Keys()), id, op) && op.phase.PreparedPhase? && Owns(old(store.Contents()), id, AbortedPhase) ==>
                && Moved(old(store.Contents()), store.Contents(), id, AbortedPhase)
                && runtime.play.None? && runtime.meta.Some? && runtime.meta.value.state.Blocked?
    {
      RunAppend(s, done, AbortRedisStart(id));
      var result := runtime.AbortMemoryStart(id, op);
      steps := done + [AbortRedisStart(id)];
      if Succeeded(result) {
        steps := AbortIntentOf(id, op, s, steps);
      }
    }

    method AbortIntentOf(id: Uuid, op: Operation, ghost s: System, ghost done: seq<Step>) returns (ghost steps: seq<Step>)
      requires Tracks(s, done) && id in store.operations && store.operations[id] == op && ImageReadable(op) && op.kind.StartOp?
      requires id in Run(s, done).learned.startAborted
      modifies store
      ensures Tracks(s, steps) && store.row == old(store.row)
      ensures op.phase.PreparedPhase? && Owns(old(store.Contents()), id, AbortedPhase) ==>
                Moved(old(store.Contents()), store.Contents(), id, AbortedPhase)
    {
      RunAppend(s, done, AbortIntent(id));
      var _ := store.AdvanceOperation(id, PreparedPhase, AbortedPhase);
      steps := done + [AbortIntent(id)];
    }

    method Advance(id: Uuid, op: Operation, ghost s: System, ghost done: seq<Step>)
      returns (ok: bool, ghost steps: seq<Step>)
      requires Tracks(s, done) && id in store.operations && store.operations[id] == op && ImageReadable(op)
      requires id in Run(s, done).learned.applied
      modifies store
      ensures steps == done + [RecordApplied(id)] && Tracks(s, steps)
      ensures Run(s, steps).workers == Run(s, done).workers
      ensures ok ==> id in store.operations && store.operations[id] == op.(phase := RedisApplied)
      ensures store.row == old(store.row)
      ensures op.phase.PreparedPhase? && Owns(old(store.Contents()), id, RedisApplied) ==>
                ok && Moved(old(store.Contents()), store.Contents(), id, RedisApplied)
    {
      RunAppend(s, done, RecordApplied(id));
      ControlKeepsWorkers(Run(s, done), RecordApplied(id));
      var failed := store.AdvanceOperation(id, PreparedPhase, RedisApplied);
      ok := failed.None?;
      steps := done + [RecordApplied(id)];
    }

    /** The prepared phase: make the room ready, install the image, and only then say so in MySQL. */
    method Occupy(id: Uuid, op: Operation, fence: Uuid, recovery: bool, startup: Startup, owner: Uuid,
                  found: set<Boundary>, next: nat, ghost s: System)
      returns (ok: bool, ghost steps: seq<Step>)
      requires Tracks(s, []) && owner !in s.workers
      requires Numbered(store.saves, next) && forall b :: b in found ==> SavedAt(store.Contents(), b)
      requires id in store.operations && store.operations[id] == op && ImageReadable(op) && op.phase.PreparedPhase?
      requires SameRoom(store.row, op)
      modifies runtime, store
      ensures Tracks(s, steps)
      ensures ok ==> id in store.operations && store.operations[id] == op.(phase := RedisApplied)
      ensures ok && op.kind.StartOp? ==> Run(s, steps).workers == s.workers
      ensures ok ==> runtime.receipts == old(runtime.receipts)
      ensures ok && op.kind.StartOp? ==> store.row == old(store.row).(status := StartedAs(old(store.row).status, recovery))
      ensures ok && !op.kind.StartOp? ==> SameRoom(store.row, op) && (InPlay(store.row) <==> InPlay(old(store.row)))
      ensures op.kind.EndOp? ==> TurnOf(runtime.play) == TurnOf(old(runtime.play))
      ensures FirstAttempt(s, id, op) && FreshOwner(s, owner) ==>
                && (ok <==> MayProceed(s, old(store.row), op, startup, recovery))
                && (ok ==> Settled(runtime.Keys(), id, op, recovery) && Owns(store.Contents(), id, Completed)
                           && store.state.value.revision + 1 == op.image.targetRevision
                           && (op.kind.StartOp? ==> runtime.lease.None?)
                           && store.Contents().tables == if op.kind.StartOp? then s.store.tables else DrainedTables(s))
      ensures TurnedAway(s, old(store.row), id, op, startup) ==> !ok && StartRefused(s.store, id, startup)
    {
      if FirstAttempt(s, id, op) {
        OpenIntent(s, id);
        if op.kind.StartOp? {
          OpeningFresh(s, id);
        }
      }
      ok, steps := Ready(id, op, fence, recovery, startup, owner, found, next, s);
      if !ok {
        return false, steps;
      }
      ok, steps := InstallImage(id, op, fence, recovery, s, steps);
    }

    /** Redis first; only then does MySQL say so. */
    method InstallImage(id: Uuid, op: Operation, fence: Uuid, recovery: bool, ghost s: System, ghost done: seq<Step>)
      returns (ok: bool, ghost steps: seq<Step>)
      requires Tracks(s, done) && id in store.operations && store.operations[id] == op && ImageReadable(op) && op.phase.PreparedPhase?
      modifies runtime, store
      ensures Tracks(s, steps) && Run(s, steps).workers == Run(s, done).workers
      ensures ok ==> id in store.operations && store.operations[id] == op.(phase := RedisApplied)
      ensures store.row == old(store.row) && runtime.receipts == old(runtime.receipts) && runtime.lease == old(runtime.lease)
      ensures op.kind.EndOp? ==> runtime.play == old(runtime.play)
      ensures ok ==> id in old(runtime.receipts) || old(runtime.boundaries) == {}
      ensures AtFence(old(runtime.Keys()), id, op, fence) && Owns(old(store.Contents()), id, Completed) ==>
                && ok && Settled(runtime.Keys(), id, op, recovery) && Owns(store.Contents(), id, Completed)
                && store.state.value.revision == old(store.state).value.revision + 1
                && store.Contents().tables == old(store.Contents()).tables
    {
      ok, steps := Apply(id, op, fence, recovery, s, done);
      if !ok {
        return false, steps;
      }
      ok, steps := Advance(id, op, s, steps);
    }

    /** Publish in MySQL: refused for a room that is not in play, which then takes no protocol step at all. */
    method CompleteIntentOf(id: Uuid, op: Operation, p: Progress, ghost s: System, ghost done: seq<Step>)
      returns (ok: bool, ghost steps: seq<Step>)
      requires Tracks(s, done) && id in store.operations && store.operations[id] == op && ImageReadable(op) && op.phase.RedisApplied?
      requires id in Run(s, done).learned.inspected && p.image == op.image
      modifies store
      ensures Tracks(s, steps)
      ensures Run(s, steps).workers == Run(s, done).workers
      ensures ok ==> id in store.operations && store.operations[id] == op.(phase := Completed)
      ensures ok ==> Moved(old(store.Contents()), store.Contents(), id, Completed)
      ensures store.row == if ok then ProgressedRow(old(store.row), op.kind, p) else old(store.row)
      ensures ok <==> Owns(old(store.Contents()), id, Completed) && RowFits(old(store.row), op)
    {
      RunAppend(s, done, CompleteIntent(id));
      CompleteChanges(Run(s, done), id);
      var failed := store.CompleteOperationAndProgress(id, p);
      ok := failed.None?;
      steps := if ok then done + [CompleteIntent(id)] else done;
    }

    /** A recovery installs the image once more where it is lost; a recovered start is paused first. */
    method Reinstall(id: Uuid, op: Operation, fence: Uuid, ghost s: System, ghost done: seq<Step>)
      returns (ok: bool, ghost steps: seq<Step>)
      requires Tracks(s, done) && id in store.operations && store.operations[id] == op && ImageReadable(op) && !op.kind.EndOp?
      modifies runtime, store`row
      ensures Tracks(s, steps) && store.Contents() == old(store.Contents())
      ensures Run(s, steps).workers == Run(s, done).workers
      ensures store.row == if op.kind.StartOp? && store.row.status.PausedRoom? then old(store.row).(status := PausedRoom) else old(store.row)
      ensures ok && op.kind.StartOp? ==> store.row.status.PausedRoom?
      ensures runtime.receipts == old(runtime.receipts) && runtime.lease == old(runtime.lease)
      ensures Settled(old(runtime.Keys()), id, op, true) ==>
                && runtime.Keys() == old(runtime.Keys())
                && (ok <==> op.kind.StartOp? ==> MayPause(store.Contents(), old(store.row), id, op.image.targetRevision))
    {
      steps := done;
      if op.kind.StartOp? {
        ok := store.PauseOperationRoom(id, op.image.targetRevision);
        if !ok {
          return false, steps;
        }
      }
      ok, steps := Apply(id, op, fence, true, s, steps);
    }

    /** The redis_applied phase: reinstall after a recovery, look at the control token, complete in MySQL. */
    method Complete(id: Uuid, op: Operation, fence: Uuid, recovery: bool, sourceRound: nat, ghost s: System, ghost done: seq<Step>)
      returns (ok: bool, ghost steps: seq<Step>)
      requires Tracks(s, done) && id in store.operations && store.operations[id] == op && ImageReadable(op) && op.phase.RedisApplied?
      modifies runtime, store
      ensures Tracks(s, steps)
      ensures Run(s, steps).workers == Run(s, done).workers
      ensures ok ==> id in store.operations && store.operations[id] == op.(phase := Completed)
      ensures runtime.receipts == old(runtime.receipts)
      ensures ok ==> Owns(old(store.Contents()), id, Completed) && Moved(old(store.Contents()), store.Contents(), id, Completed)
      ensures ok ==> store.row == Shown(old(store.row), op, TurnOf(old(runtime.play)), sourceRound, recovery)
      ensures !recovery ==>
                && runtime.Keys() == old(runtime.Keys())
                && (ok <==> Inspectable(runtime.Keys(), id, op) && Owns(old(store.Contents()), id, Completed) && RowFits(old(store.row), op))
      ensures Settled(old(runtime.Keys()), id, op, recovery) && Owns(old(store.Contents()), id, Completed) ==>
                && (ok <==> RowFits(old(store.row), op))
                && (ok ==> runtime.Keys() == old(runtime.Keys()))
    {
      steps := done;
      ok := true;
      if recovery && !op.kind.EndOp? {
        ok, steps := Reinstall(id, op, fence, s, steps);
        if !ok {
          return false, steps;
        }
      }
      RunAppend(s, steps, InspectControl(id));
      ControlKeepsWorkers(Run(s, steps), InspectControl(id));
      steps := steps + [InspectControl(id)];
      if id in runtime.receipts || !SameControl(runtime.Keys(), id, op) || !runtime.control.value.phase.Applied? {
        return false, steps;
      }
      var turn, round := op.image.turn, op.image.round;
      if op.kind.EndOp? {
        turn, round := if runtime.play.Some? then runtime.play.value.turn else 0, sourceRound;
      }
      ok, steps := CompleteIntentOf(id, op, Progress(turn, round, op.image), s, steps);
    }

    /** The baseline of a legacy save is archived from the persisted image while the token is held. */
    method Import(id: Uuid, op: Operation, ghost s: System, ghost done: seq<Step>) returns (ok: bool, ghost steps: seq<Step>)
      requires Tracks(s, done) && id in store.operations && store.operations[id] == op && ImageReadable(op) && op.phase.Completed?
      requires op.kind.LoadOp? && op.image.boundary.Some?
      modifies store
      ensures Tracks(s, steps) && store.operations == old(store.operations) && store.row == old(store.row)
      ensures Run(s, steps).workers == Run(s, done).workers
      ensures ok ==> (op.target.value, 0) in store.records
      ensures ok <==> Accepts(old(store.Contents()).tables, op.image.boundary.value)
    {
      RunAppend(s, done, Step.ArchiveBaseline(id));
      ControlKeepsWorkers(Run(s, done), Step.ArchiveBaseline(id));
      ghost var before := store.Contents().tables;
      var archived := store.Archive(op.image.boundary.value);
      ok := archived.Ok?;
      if ok {
        AcceptedIsStored(before, op.image.boundary.value);
      }
      steps := done + [Step.ArchiveBaseline(id)];
    }

    /** Release the control token and leave the receipt. */
    method Finish(id: Uuid, op: Operation, ghost s: System, ghost done: seq<Step>) returns (ok: bool, ghost steps: seq<Step>)
      requires Tracks(s, done) && id in store.operations && store.operations[id] == op && ImageReadable(op) && op.phase.Completed?
      requires op.kind.LoadOp? && op.image.boundary.Some? ==> (op.target.value, 0) in store.records
      modifies runtime
      ensures Tracks(s, steps)
      ensures Run(s, steps).workers == Run(s, done).workers
      ensures ok ==> id in store.operations && store.operations[id] == op && id in runtime.receipts && runtime.receipts[id] == op.image
      ensures id !in old(runtime.receipts) ==> (ok <==> Releasable(old(runtime.Keys()), id, op))
      ensures ok && id !in old(runtime.receipts) && op.kind.StartOp? ==>
                && runtime.pending.Some? && runtime.pending.value.record == op.image.boundary.value
                && HandedOver(runtime.Keys(), op)
      ensures runtime.lease == old(runtime.lease)
    {
      RunAppend(s, done, FinishControl(id));
      ControlKeepsWorkers(Run(s, done), FinishControl(id));
      var result := runtime.FinishMemoryOperation(id, op);
      steps := done + [FinishControl(id)];
      ok := Succeeded(result);
    }

    /** The completed phase: reinstall a lost image, import the baseline of a legacy save, release the token. */
    method Release(id: Uuid, op: Operation, fence: Uuid, recovery: bool, ghost s: System, ghost done: seq<Step>)
      returns (ok: bool, ghost steps: seq<Step>)
      requires Tracks(s, done) && id in store.operations && store.operations[id] == op && ImageReadable(op) && op.phase.Completed?
      modifies runtime, store
      ensures Tracks(s, steps)
      ensures Run(s, steps).workers == Run(s, done).workers
      ensures ok ==> id in store.operations && store.operations[id] == op && id in runtime.receipts && runtime.receipts[id] == op.image
      ensures store.row == if recovery && op.kind.StartOp? && store.row.status.PausedRoom? then old(store.row).(status := PausedRoom)
                           else old(store.row)
      ensures ok && id !in old(runtime.receipts) && op.kind.StartOp? ==>
                && runtime.pending.Some? && runtime.pending.value.record == op.image.boundary.value && HandedOver(runtime.Keys(), op)
                && store.Contents() == old(store.Contents())
      ensures runtime.lease == old(runtime.lease)
      ensures !recovery && id !in old(runtime.receipts) ==>
                (ok <==> Importable(old(store.Contents()).tables, op) && Releasable(old(runtime.Keys()), id, op))
      ensures Settled(old(runtime.Keys()), id, op, recovery)
              && (recovery && op.kind.StartOp? ==> Published(old(store.state), op) && InPlay(old(store.row))) ==>
                (ok <==> Importable(old(store.Contents()).tables, op))
    {
      steps := done;
      ok := true;
      if recovery && !op.kind.EndOp? && (!op.kind.StartOp? || (runtime.meta.Some? && runtime.meta.value.head == 0)) {
        ok, steps := Reinstall(id, op, fence, s, steps);
        if !ok {
          return false, steps;
        }
      }
      if op.kind.LoadOp? && op.image.boundary.Some? {
        ok, steps := Import(id, op, s, steps);
        if !ok {
          return false, steps;
        }
      }
      ok, steps := Finish(id, op, s, steps);
    }

    /** A finished start has its opening archived right away; whether that succeeds does not matter. */
    method Publish(op: Operation, owner: Uuid, ghost s: System, ghost done: seq<Step>) returns (ghost steps: seq<Step>)
      requires Tracks(s, done) && owner !in Run(s, done).workers
      modifies runtime, store
      ensures Tracks(s, steps)
      ensures store.operations == old(store.operations) && runtime.receipts == old(runtime.receipts)
      ensures !op.kind.StartOp? ==> store.row == old(store.row)
      ensures old(runtime.pending).Some? && Showing(old(store.row), old(runtime.pending).value.record) ==> store.row == old(store.row)
      ensures op.kind.StartOp? && ImageReadable(op) && HandedOver(old(runtime.Keys()), op) && old(runtime.lease).None?
              && Published(old(store.state), op) && Accepts(old(store.Contents()).tables, op.image.boundary.value) ==>
                UnderWay(runtime.Keys(), store.Contents().tables, op)
    {
      steps := done;
      if op.kind.StartOp? && runtime.meta.Some? && Some(runtime.meta.value.timeline) == op.target {
        if ImageReadable(op) && HandedOver(runtime.Keys(), op) && runtime.lease.None?
           && Published(store.state, op) && Accepts(store.Contents().tables, op.image.boundary.value) {
          ClaimedDelivers(Run(s, done), owner);
        }
        WorkedIsRun(s, done, owner);
        WorkedKeepsIntents(Run(s, done), owner);
        var _ := archive.Process(owner, Run(s, done));
        steps := done + WorkerSteps(owner);
      }
    }

    /**
     ProcessOperation.  Whatever it returns, the stores are where the protocol steps it took lead to,
     so every invariant of the protocol applies; it reports success only when the intent is completed in
     MySQL and its receipt is in Redis.  An intent it has completed itself shows in the room row: a load at
     the image's turn and round, an end at the turn the runtime had when the call came and the round of the
     source, a start at its opening.  What it succeeds on is stated for a first attempt in a reachable room,
     for every later one that is no recovery, and for a recovery that finds the image in place.
     */
    method ProcessOperation(id: Uuid, fence: Uuid, recovery: bool, startup: Startup, owner: Uuid,
                            found: set<Boundary>, next: nat, sourceRound: nat, ghost s: System)
      returns (ok: bool, ghost steps: seq<Step>)
      requires Tracks(s, []) && owner !in s.workers
      requires Numbered(store.saves, next) && forall b :: b in found ==> SavedAt(store.Contents(), b)
      modifies runtime, store
      ensures Tracks(s, steps)
      ensures ok ==> && id in store.operations && store.operations[id].phase.Completed?
                     && id in runtime.receipts
      ensures ok && id !in old(runtime.receipts) ==> runtime.receipts[id] == store.operations[id].image
      ensures ok ==> id in old(store.operations) && ImageReadable(old(store.operations)[id])
      ensures ok && !old(store.operations)[id].phase.Completed? ==>
                store.row == Shown(old(store.row), store.operations[id], TurnOf(old(runtime.play)), sourceRound, recovery)
      ensures id in old(runtime.receipts) ==>
                (ok <==> id in old(store.operations) && ImageReadable(old(store.operations)[id]) && old(store.operations)[id].phase.Completed?)
      ensures id in old(store.operations) && ImageReadable(old(store.operations)[id]) && id !in old(runtime.receipts) && !recovery ==>
                var (op, k, x) := (old(store.operations)[id], old(runtime.Keys()), old(store.Contents()));
                && (op.phase.RedisApplied? ==>
                      (ok <==> Releasable(k, id, op) && Owns(x, id, Completed) && RowFits(old(store.row), op) && BaselineFits(x.tables, op)))
                && (op.phase.Completed? ==> (ok <==> Releasable(k, id, op) && SameRoom(old(store.row), op) && Importable(x.tables, op)))
      ensures id in old(store.operations) && ImageReadable(old(store.operations)[id]) && old(store.operations)[id].phase.RedisApplied?
              && Settled(old(runtime.Keys()), id, old(store.operations)[id], recovery) && Owns(old(store.Contents()), id, Completed)
              && old(store.state).value.revision + 1 == old(store.operations)[id].image.targetRevision ==>
                (ok <==> RowFits(old(store.row), old(store.operations)[id]) && BaselineFits(old(store.Contents()).tables, old(store.operations)[id]))
      ensures id in old(store.operations) && FirstAttempt(s, id, old(store.operations)[id]) && FreshOwner(s, owner) ==>
                var op := old(store.operations)[id];
                && (ok <==> SameRoom(old(store.row), op) && MayProceed(s, old(store.row), op, startup, recovery) && MayComplete(s, old(store.row), op))
                && (ok && op.kind.StartOp? && Absent(s.store.tables, op.image.boundary.value) ==>
                      UnderWay(runtime.Keys(), store.Contents().tables, op))
      ensures id in old(store.operations) && SameRoom(old(store.row), old(store.operations)[id])
              && TurnedAway(s, old(store.row), id, old(store.operations)[id], startup) ==>
                !ok && StartRefused(s.store, id, startup)
    {
      steps := [];
      if id !in store.operations {
        return false, steps;
      }
      var op := store.operations[id];
      if FirstAttempt(s, id, op) {
        OpenIntent(s, id);
      }
      if !ImageReadable(op) || op.phase.BlockedPhase? || op.phase.AbortedPhase? {
        return false, steps;
      }
      if id in runtime.receipts {
        if op.phase.Completed? {
          steps := Publish(op, owner, s, steps);
        }
        return op.phase.Completed?, steps;
      }
      if store.row.owner != op.image.owner || store.row.solo != op.image.solo {
        return false, steps;
      }
      if op.phase.PreparedPhase? {
        ok, steps := FromPrepared(id, op, fence, recovery, startup, owner, found, next, sourceRound, s);
      } else if op.phase.RedisApplied? {
        ok, steps := FromApplied(id, op, fence, recovery, owner, sourceRound, s, steps);
      } else {
        ok, steps := LetGo(id, op, fence, recovery, owner, s, steps);
      }
    }

    /** All phases of an intent that is only prepared. */
    method FromPrepared(id: Uuid, op: Operation, fence: Uuid, recovery: bool, startup: Startup, owner: Uuid,
                        found: set<Boundary>, next: nat, sourceRound: nat, ghost s: System)
      returns (ok: bool, ghost steps: seq<Step>)
      requires Tracks(s, []) && owner !in s.workers && SameRoom(store.row, op) && id !in runtime.receipts
      requires Numbered(store.saves, next) && forall b :: b in found ==> SavedAt(store.Contents(), b)
      requires id in store.operations && store.operations[id] == op && ImageReadable(op) && op.phase.PreparedPhase?
      modifies runtime, store
      ensures Tracks(s, steps)
      ensures ok ==> && id in store.operations && store.operations[id] == op.(phase := Completed)
                     && id in runtime.receipts && runtime.receipts[id] == op.image
                     && store.row == Shown(old(store.row), op, TurnOf(old(runtime.play)), sourceRound, recovery)
      ensures FirstAttempt(s, id, op) && FreshOwner(s, owner) ==>
                && (ok <==> MayProceed(s, old(store.row), op, startup, recovery) && MayComplete(s, old(store.row), op))
                && (ok && op.kind.StartOp? && Absent(s.store.tables, op.image.boundary.value) ==>
                      UnderWay(runtime.Keys(), store.Contents().tables, op))
      ensures TurnedAway(s, old(store.row), id, op, startup) ==> !ok && StartRefused(s.store, id, startup)
    {
      if FirstAttempt(s, id, op) && op.kind.StartOp? {
        OpeningFresh(s, id);
      }
      ok, steps := Occupy(id, op, fence, recovery, startup, owner, found, next, s);
      if ok {
        ok, steps := FromApplied(id, store.operations[id], fence, recovery, owner, sourceRound, s, steps);
      }
    }

    /** From the installed image on: complete in MySQL, let the token go, and have a start's opening archived. */
    method FromApplied(id: Uuid, op: Operation, fence: Uuid, recovery: bool, owner: Uuid, sourceRound: nat,
                       ghost s: System, ghost done: seq<Step>)
      returns (ok: bool, ghost steps: seq<Step>)
      requires Tracks(s, done) && id in store.operations && store.operations[id] == op && ImageReadable(op) && op.phase.RedisApplied?
      requires op.kind.StartOp? ==> owner !in Run(s, done).workers
      requires id !in runtime.receipts && SameRoom(store.row, op)
      modifies runtime, store
      ensures Tracks(s, steps)
      ensures ok ==> && id in store.operations && store.operations[id] == op.(phase := Completed)
                     && id in runtime.receipts && runtime.receipts[id] == op.image
                     && store.row == Shown(old(store.row), op, TurnOf(old(runtime.play)), sourceRound, recovery)
      ensures !recovery ==>
                (ok <==> && Releasable(old(runtime.Keys()), id, op) && Owns(old(store.Contents()), id, Completed)
                         && RowFits(old(store.row), op) && BaselineFits(old(store.Contents()).tables, op))
      ensures Settled(old(runtime.Keys()), id, op, recovery) && Owns(old(store.Contents()), id, Completed)
              && old(store.state).value.revision + 1 == op.image.targetRevision ==>
                (ok <==> RowFits(old(store.row), op) && BaselineFits(old(store.Contents()).tables, op))
      ensures ok && op.kind.StartOp? && Settled(old(runtime.Keys()), id, op, recovery) && old(runtime.lease).None?
              && Owns(old(store.Contents()), id, Completed) && old(store.state).value.revision + 1 == op.image.targetRevision
              && OpeningNew(old(store.Contents()).tables, op) ==>
                UnderWay(runtime.Keys(), store.Contents().tables, op)
    {
      ghost var x := store.Contents();
      ok, steps := Complete(id, op, fence, recovery, sourceRound, s, done);
      if ok {
        PublishedBaseline(x, store.Contents(), id, op);
        if op.kind.StartOp? && OpeningNew(x.tables, op) {
          PublishedOpening(x, store.Contents(), id, op);
        }
        ok, steps := LetGo(id, op.(phase := Completed), fence, recovery, owner, s, steps);
      }
    }

    /** The completed phase; an opening handed over is archived at once, which leaves the row where it is. */
    method LetGo(id: Uuid, op: Operation, fence: Uuid, recovery: bool, owner: Uuid, ghost s: System, ghost done: seq<Step>)
      returns (ok: bool, ghost steps: seq<Step>)
      requires Tracks(s, done) && id in store.operations && store.operations[id] == op && ImageReadable(op) && op.phase.Completed?
      requires op.kind.StartOp? ==> owner !in Run(s, done).workers
      requires id !in runtime.receipts
      modifies runtime, store
      ensures Tracks(s, steps)
      ensures ok ==> id in store.operations && store.operations[id] == op && id in runtime.receipts && runtime.receipts[id] == op.image
      ensures ok && (op.kind.StartOp? ==> old(store.row).turn == op.image.turn && old(store.row).round == op.image.round) ==>
                store.row == if recovery && op.kind.StartOp? && store.row.status.PausedRoom? then old(store.row).(status := PausedRoom)
                             else old(store.row)
      ensures !recovery ==> (ok <==> Importable(old(store.Contents()).tables, op) && Releasable(old(runtime.Keys()), id, op))
      ensures Settled(old(runtime.Keys()), id, op, recovery)
              && (recovery && op.kind.StartOp? ==> Published(old(store.state), op) && InPlay(old(store.row))) ==>
                (ok <==> Importable(old(store.Contents()).tables, op))
      ensures ok && op.kind.StartOp? && old(runtime.lease).None? && Published(old(store.state), op)
              && Accepts(old(store.Contents()).tables, op.image.boundary.value) ==>
                UnderWay(runtime.Keys(), store.Contents().tables, op)
    {
      ok, steps := Release(id, op, fence, recovery, s, done);
      if ok && op.kind.StartOp? {
        steps := Publish(op, owner, s, steps);
      }
    }

    /** An intent that is still open is given up; a completed one never is. */
    method GiveUp(id: Uuid, ghost s: System, ghost done: seq<Step>) returns (ghost steps: seq<Step>)
      requires Tracks(s, done) && Inv(Run(s, done))
      modifies store
      ensures Tracks(s, steps)
      ensures id in store.operations ==> !store.operations[id].phase.PreparedPhase? && !store.operations[id].phase.RedisApplied?
    {
      steps := done;
      if id in store.operations && (store.operations[id].phase.PreparedPhase? || store.operations[id].phase.RedisApplied?) {
        OpenIntentIsGivenUp(Run(s, steps), id);
        RunAppend(s, steps, BlockIntent(id));
        var _ := store.AdvanceOperation(id, store.operations[id].phase, BlockedPhase);
        steps := steps + [BlockIntent(id)];
      }
    }

    /**
     One round of the recovery worker over a due intent: process it, and after a permanent error give up an
     intent that is still open.  From a reachable room such an intent never stays open, and a given-up intent
     closes the room's ledger.
     */
    method Recover(id: Uuid, fence: Uuid, startup: Startup, permanent: bool, owner: Uuid,
                   found: set<Boundary>, next: nat, sourceRound: nat, ghost s: System)
      returns (ok: bool, ghost steps: seq<Step>)
      requires Inv(s) && Tracks(s, []) && owner !in s.workers
      requires Numbered(store.saves, next) && forall b :: b in found ==> SavedAt(store.Contents(), b)
      modifies runtime, store
      ensures Tracks(s, steps) && Inv(Run(s, steps))
      ensures ok ==> id in store.operations && store.operations[id].phase.Completed? && id in runtime.receipts
      ensures !ok && permanent && id in store.operations ==>
                !store.operations[id].phase.PreparedPhase? && !store.operations[id].phase.RedisApplied?
      ensures id in store.operations && store.operations[id].phase.BlockedPhase? ==> CapabilityBlocked(store.Contents())
    {
      ok, steps := ProcessOperation(id, fence, true, startup, owner, found, next, sourceRound, s);
      RunKeeps(s, steps);
      if !ok && permanent {
        steps := GiveUp(id, s, steps);
        RunKeeps(s, steps);
      }
      if id in store.operations && store.operations[id].phase.BlockedPhase? {
        GivenUpBlocks(Run(s, steps), id);
      }
    }
  }

  /** Row numbers are handed out in order. */
  predicate Numbered(saves: map<nat, SavePoint>, next: nat) {
    forall n :: n in saves ==> n < next
  }

  ghost predicate SameRoom(row: RoomRow, op: Operation) {
    row.owner == op.image.owner && row.solo == op.image.solo
  }

  ghost predicate SameButProgress(a: RoomRow, b: RoomRow) {
    b == a.(turn := b.turn, round := b.round)
  }

  /** A lost runtime counts as turn 0. */
  ghost function TurnOf(play: Option<Play>): nat {
    if play.Some? then play.value.turn else 0
  }

  ghost function StartedAs(status: RoomStatus, recovery: bool): RoomStatus {
    if recovery then PausedRoom else if status.WaitingRoom? then PlayingRoom else status
  }

  /** What players see of a completed operation; `turn` and `round` are those of the game that is ended. */
  ghost function Shown(row: RoomRow, op: Operation, turn: nat, round: nat, recovery: bool): RoomRow {
    match op.kind
    case LoadOp => RoomRow(row.owner, row.solo, PausedRoom, op.image.turn, op.image.round)
    case EndOp => RoomRow(row.owner, row.solo, EndedRoom, turn, round)
    case StartOp => RoomRow(row.owner, row.solo, StartedAs(row.status, recovery), op.image.turn, op.image.round)
  }

  /** The row is at least as far as the record. */
  ghost predicate Showing(row: RoomRow, r: Record) {
    r.turnAfter <= row.turn && r.roundAfter <= row.round
  }

  ghost predicate Published(state: Option<StateRow>, op: Operation) {
    && state.Some? && state.value.status.ReadyState? && state.value.operation.None? && state.value.active.Some?
    && state.value.active == op.target && state.value.revision == op.image.targetRevision
  }

  /** The room has been initialised or fenced for this intent, and nothing is left to archive or to save. */
  ghost predicate AtFence(k: Redis, id: Uuid, op: Operation, fence: Uuid) {
    && id !in k.receipts && k.control == Some(Control(id, op.image, Fenced))
    && k.meta.Some? && !k.meta.value.state.Blocked? && k.meta.value.control == Some(id)
    && k.meta.value.head == k.meta.value.durable && k.pending.None? && k.boundaries == {} && k.play.Some?
    && (if op.kind.StartOp? then k.play.value == Play(Provisional, op.image.generation, op.image.turn) && op.image.position == 0
        else k.play.value.status.Paused? && k.play.value.generation == fence)
  }

  /** The token is free and the opening is the one record waiting, for a game that stands where the image does. */
  ghost predicate HandedOver(k: Redis, op: Operation) {
    && op.image.boundary.Some? && k.pending.Some? && k.pending.value.record == op.image.boundary.value
    && k.meta.Some? && k.meta.value.state.Pending? && k.meta.value.control.None? && k.meta.value.head == 1 && k.meta.value.durable == 0
    && k.meta.value.timeline == op.image.boundary.value.timeline && k.meta.value.revision == op.image.boundary.value.revision
    && k.play.Some? && k.play.value.generation == op.image.generation && k.play.value.turn == op.image.turn
  }

  /** The opening is in the ledger and the gate is open for the first action. */
  ghost predicate UnderWay(k: Redis, l: Tables, op: Operation) {
    && op.image.boundary.Some? && InLedger(l, op.image.boundary.value)
    && k.pending.None? && k.meta.Some? && k.meta.value.state.Ready? && k.meta.value.head == k.meta.value.durable == 1
  }

  /** The room has been initialised for this start, and that is all. */
  ghost predicate Untouched(k: Redis, id: Uuid, op: Operation) {
    && id !in k.receipts && k.control == Some(Control(id, op.image, Fenced))
    && k.meta.Some? && k.meta.value.control == Some(id) && k.meta.value.head == 0 && k.meta.value.durable == 0 && k.pending.None?
  }

  /** The image is installed and nothing has happened since. */
  ghost predicate Settled(k: Redis, id: Uuid, op: Operation, recovery: bool) {
    && Releasable(k, id, op) && k.pending.None? && k.boundaries == {} && k.meta.value.head == k.meta.value.durable
    && (op.kind.StartOp? && recovery ==> k.play.value.status.Paused?)
  }

  /** The token is free and the room still on the intent's source. */
  ghost predicate FreeToken(k: Redis, id: Uuid, op: Operation) {
    && id !in k.receipts && k.meta.Some? && k.meta.value.control != Some(id)
    && Some(k.meta.value.timeline) == op.source && k.meta.value.revision == op.image.sourceRevision
    && (k.meta.value.control.None? ==> k.control.None? || k.control.value.phase.Finished?)
  }

  /** In a reachable room, nobody has begun to process the prepared intent. */
  ghost predicate FirstAttempt(s: System, id: Uuid, op: Operation) {
    && Arises(s) && id in s.store.ops && s.store.ops[id] == op && ImageReadable(op) && op.phase.PreparedPhase?
    && (if op.kind.StartOp? then s.redis.meta.None? else s.redis.meta.Some? && s.redis.meta.value.control != Some(id))
  }

  /** A first attempt at a start finds the room waiting, and the database refuses to let it play. */
  ghost predicate TurnedAway(s: System, row: RoomRow, id: Uuid, op: Operation, startup: Startup) {
    FirstAttempt(s, id, op) && op.kind.StartOp? && s.redis.play.None? && row.status.WaitingRoom? && startup.Refused?
  }

  /** What the prepared phase succeeds on. */
  ghost predicate MayProceed(s: System, row: RoomRow, op: Operation, startup: Startup, recovery: bool) {
    if op.kind.StartOp? then s.redis.play.None? && s.redis.boundaries == {} && MayStart(row, startup.Playable?)
    else MayFence(s.redis, op, recovery) && DrainFree(s)
  }

  /** What the later phases add for a load or an end: a room in play, and a baseline that fits the drained ledger. */
  ghost predicate MayComplete(s: System, row: RoomRow, op: Operation) {
    !op.kind.StartOp? ==> (row.status.PlayingRoom? || row.status.PausedRoom?) && BaselineFits(DrainedTables(s), op)
  }
}
