/**
 When a control operation can go through: what each phase asks of the two stores, and what an
 undisturbed archive pass leaves of them.
 */
module LifecycleTheorems {
  import opened MemoryModel
  import opened Ledger
  import H = History
  import opened Journal
  import opened Runtime
  import opened Protocol
  import opened ProtocolInvariant
  import opened ProtocolTheorems
  import opened MemoryStore
  import opened ArchiveService

  function WorkerSteps(owner: Uuid): seq<Step> {
    [ClaimOutbox(owner), ArchiveClaimed(owner, false), ReclaimOutbox(owner), AcknowledgeStored(owner, false), Step.CleanUp(owner)]
  }

  lemma WorkedIsRun(s: System, steps: seq<Step>, owner: Uuid)
    ensures Run(s, steps + WorkerSteps(owner)) == Worked(Run(s, steps), owner)
  {
    var t := steps;
    RunAppend(s, t, ClaimOutbox(owner));
    t := t + [ClaimOutbox(owner)];
    RunAppend(s, t, ArchiveClaimed(owner, false));
    t := t + [ArchiveClaimed(owner, false)];
    RunAppend(s, t, ReclaimOutbox(owner));
    t := t + [ReclaimOutbox(owner)];
    RunAppend(s, t, AcknowledgeStored(owner, false));
    t := t + [AcknowledgeStored(owner, false)];
    RunAppend(s, t, Step.CleanUp(owner));
    assert t + [Step.CleanUp(owner)] == steps + WorkerSteps(owner);
  }

  lemma ControlKeepsWorkers(s: System, step: Step)
    requires OfControl(step)
    ensures Next(s, step).workers == s.workers
  {
  }

  lemma OpenIntentIsGivenUp(s: System, id: Uuid)
    requires Inv(s) && id in s.store.ops && (s.store.ops[id].phase.PreparedPhase? || s.store.ops[id].phase.RedisApplied?)
    ensures Journal.Advance(s.store, id, s.store.ops[id].phase, BlockedPhase).1.None?
    ensures Next(s, BlockIntent(id)).store == Journal.Advance(s.store, id, s.store.ops[id].phase, BlockedPhase).0
    ensures id in Next(s, BlockIntent(id)).store.ops && Next(s, BlockIntent(id)).store.ops[id].phase.BlockedPhase?
    ensures Next(s, BlockIntent(id)).redis == s.redis
  {
  }

  lemma GivenUpBlocks(s: System, id: Uuid)
    requires Inv(s) && id in s.store.ops && s.store.ops[id].phase.BlockedPhase?
    ensures CapabilityBlocked(s.store)
  {
  }

  /** A successful archive call, fresh or replayed, leaves the record in its own place. */
  lemma AcceptedIsStored(l: Tables, r: Record)
    requires H.Inv(l) && H.Archived(l, r).1.Ok?
    ensures var m := H.Archived(l, r).0;
      (r.timeline, r.position) in m.records && m.records[(r.timeline, r.position)] == r
  {
    if H.Archived(l, r).1 == Ok(false) {
      var k :| k in l.records && H.SameIdentity(l.records[k], r);
      assert H.RowOk(l, k.0, k.1);
    }
  }

  // ---------------------------------------------------------------- reachable rooms

  ghost predicate Arises(s: System) {
    exists steps :: s == Run(INITIAL, steps)
  }

  lemma ArisesInv(s: System)
    requires Arises(s)
    ensures Inv(s)
  {
    var steps :| s == Run(INITIAL, steps);
    Reachable(steps);
  }

  lemma {:induction false} RunJoin(s: System, a: seq<Step>, b: seq<Step>)
    ensures Run(s, a + b) == Run(Run(s, a), b)
    decreases |a|
  {
    if a == [] {
      assert a + b == b;
    } else {
      assert (a + b)[1..] == a[1..] + b;
      RunJoin(Next(s, a[0]), a[1..], b);
    }
  }

  lemma ArisesLater(s: System, done: seq<Step>, steps: seq<Step>)
    requires Arises(Run(s, done)) && done <= steps
    ensures Arises(Run(s, steps))
  {
    var before :| Run(s, done) == Run(INITIAL, before);
    var more := steps[|done|..];
    assert steps == done + more;
    RunJoin(s, done, more);
    RunJoin(INITIAL, before, more);
    assert Run(s, steps) == Run(INITIAL, before + more);
  }

  // ---------------------------------------------------------------- an archive pass under an operation

  /** Archive workers leave intents, saves, receipts, the runtime and the control token alone. */
  predicate SameIntents(s: System, n: System) {
    && n.store.ops == s.store.ops && n.store.saves == s.store.saves && n.store.state == s.store.state
    && n.redis.receipts == s.redis.receipts && n.redis.play == s.redis.play && n.redis.control == s.redis.control
    && SameToken(s.redis.meta, n.redis.meta)
  }

  predicate SameToken(a: Option<Meta>, b: Option<Meta>) {
    && (a.Some? <==> b.Some?)
    && (a.Some? ==> b.value.timeline == a.value.timeline && b.value.revision == a.value.revision && b.value.control == a.value.control)
  }

  lemma WorkerKeepsIntents(s: System, step: Step)
    requires OfWorkers(step)
    ensures SameIntents(s, Next(s, step))
  {
  }

  lemma WorkedKeepsIntents(s: System, owner: Uuid)
    ensures SameIntents(s, Worked(s, owner))
  {
    var a := Next(s, ClaimOutbox(owner));
    var b := Next(a, ArchiveClaimed(owner, false));
    var c := Next(b, ReclaimOutbox(owner));
    WorkerKeepsIntents(s, ClaimOutbox(owner));
    WorkerKeepsIntents(a, ArchiveClaimed(owner, false));
    WorkerKeepsIntents(b, ReclaimOutbox(owner));
    WorkerKeepsIntents(c, AcknowledgeStored(owner, false));
    WorkerKeepsIntents(Pass(s, owner), Step.CleanUp(owner));
  }

  lemma WorkedKeepsInv(s: System, owner: Uuid)
    requires Inv(s)
    ensures Inv(Worked(s, owner))
  {
    var a := Next(s, ClaimOutbox(owner));
    var b := Next(a, ArchiveClaimed(owner, false));
    NextKeeps(s, ClaimOutbox(owner));
    NextKeeps(a, ArchiveClaimed(owner, false));
    NextKeeps(b, ReclaimOutbox(owner));
    NextKeeps(Next(b, ReclaimOutbox(owner)), AcknowledgeStored(owner, false));
    NextKeeps(Pass(s, owner), Step.CleanUp(owner));
  }

  /** Nothing waits to be archived, or one body that nobody leases and MySQL accepts. */
  predicate DrainFree(s: System) {
    s.redis.pending.Some? ==> s.redis.lease.None? && Storable(s.store, s.redis.pending.value.record)
  }

  /** The ledger once the waiting body is in it. */
  ghost function DrainedTables(s: System): Tables {
    if s.redis.pending.Some? && s.redis.pending.value.record.timeline in s.store.tables.timelines
       && Absent(s.store.tables, s.redis.pending.value.record)
    then Extended(s.store.tables, s.redis.pending.value.record) else s.store.tables
  }

  predicate FreshOwner(s: System, owner: Uuid) {
    owner !in s.workers && (s.redis.lease.Some? ==> s.redis.lease.value.owner != owner)
  }

  predicate OpenGate(k: Redis) {
    k.meta.Some? && !k.meta.value.state.Blocked?
  }

  /** A fresh worker's undisturbed pass empties the outbox exactly when the body is free and storable. */
  lemma WorkedDrainsIff(s: System, owner: Uuid)
    requires Arises(s) && FreshOwner(s, owner) && OpenGate(s.redis) && s.redis.pending.Some?
    ensures var n := Worked(s, owner);
      && n.redis.meta.Some?
      && (n.redis.meta.value.head == n.redis.meta.value.durable <==> DrainFree(s))
      && (DrainFree(s) ==> OpenGate(n.redis) && n.redis.pending.None? && n.store.tables == DrainedTables(s))
  {
    ArisesInv(s);
    WorkedKeepsInv(s, owner);
    if s.redis.lease.Some? {
      NothingClaimed(s, owner);
    } else {
      PassDrainsIff(s, owner);
      if DrainFree(s) {
        StorableTables(s, owner);
      }
    }
  }

  lemma StorableTables(s: System, owner: Uuid)
    requires Inv(s) && MayClaim(s, owner) && Storable(s.store, s.redis.pending.value.record)
    ensures Worked(s, owner).store.tables == DrainedTables(s)
  {
    PendingArchivableIff(s);
    ArchivedTables(s.store, s.redis.pending.value.record);
    WorkedTables(s, owner);
  }

  lemma WorkedTables(s: System, owner: Uuid)
    requires OutboxOk(s.redis) && MayClaim(s, owner)
    ensures Worked(s, owner).store.tables == ArchiveAndAdvance(s.store, s.redis.pending.value.record).0.tables
  {
    var b := Archiving(s, owner);
    var c := Next(b, ReclaimOutbox(owner));
    HeldTables(s, owner);
    TablesKept(b, ReclaimOutbox(owner));
    TablesKept(c, AcknowledgeStored(owner, false));
    TablesKept(Pass(s, owner), Step.CleanUp(owner));
  }

  lemma ArchivedTables(s: Store, r: Record)
    requires H.Inv(s.tables) && ArchiveAndAdvance(s, r).1.Ok?
    ensures r.timeline in s.tables.timelines
    ensures ArchiveAndAdvance(s, r).0.tables == if Absent(s.tables, r) then Extended(s.tables, r) else s.tables
  {
    ArchivedAccepts(s.tables, r);
  }

  lemma HeldTables(s: System, owner: Uuid)
    requires OutboxOk(s.redis) && MayClaim(s, owner)
    ensures Archiving(s, owner).store == ArchiveAndAdvance(s.store, s.redis.pending.value.record).0
  {
    var a := Next(s, ClaimOutbox(owner));
    assert a.store == s.store && a.workers[owner] == Holding(s.redis.pending.value.record);
  }

  lemma BodyAhead(s: System)
    requires Arises(s) && s.redis.meta.Some?
    ensures s.redis.pending.Some? <==> s.redis.meta.value.head > s.redis.meta.value.durable
    ensures s.redis.pending.None? ==> s.redis.meta.value.head == s.redis.meta.value.durable
  {
    ArisesInv(s);
  }

  lemma FenceChanges(s: System, id: Uuid, fence: Uuid, recovery: bool)
    requires id in s.store.ops && ImageReadable(s.store.ops[id]) && !s.store.ops[id].kind.StartOp?
    ensures Next(s, FenceRoom(id, fence, recovery)) == s.(redis := Fence(s.redis, id, s.store.ops[id], fence, recovery).0)
  {
  }

  lemma CompleteChanges(s: System, id: Uuid)
    requires id in s.store.ops && ImageReadable(s.store.ops[id]) && id in s.learned.inspected
    ensures Next(s, CompleteIntent(id)) == s.(store := Journal.Advance(s.store, id, RedisApplied, Completed).0)
  {
  }

  /** In every reachable state a waiting snapshot can be stored. */
  lemma BoundaryFlushable(s: System, b: Boundary)
    requires Arises(s) && b in s.redis.boundaries
    ensures b.timeline in s.store.tables.timelines && s.store.tables.timelines[b.timeline].status.Active?
    ensures b.position <= s.store.tables.timelines[b.timeline].durable
  {
    ArisesInv(s);
    assert BoundaryOk(s.store.tables, b);
    assert H.RowOk(s.store.tables, b.timeline, b.position) && H.TimelineOk(s.store.tables, b.timeline);
  }

  // ---------------------------------------------------------------- what the phases ask for

  /** The control token shows this very image as installed. */
  ghost predicate Inspectable(k: Redis, id: Uuid, op: Operation) {
    && id !in k.receipts && k.control.Some? && k.control.value.op == id && k.control.value.image == op.image
    && k.control.value.phase.Applied?
  }

  /** The token can be let go: the image is in place, and its opening is the next thing to archive or nothing is. */
  ghost predicate Releasable(k: Redis, id: Uuid, op: Operation) {
    && Inspectable(k, id, op) && k.meta.Some? && !k.meta.value.state.Blocked? && k.meta.value.control == Some(id)
    && (!op.kind.EndOp? ==>
          && k.play.Some? && k.play.value.generation == op.image.generation && k.play.value.turn == op.image.turn
          && !k.play.value.status.Provisional?)
    && match op.kind
       case StartOp =>
         && op.image.boundary.Some? && k.meta.value.timeline == op.image.boundary.value.timeline
         && k.meta.value.revision == op.image.boundary.value.revision && k.meta.value.durable == 0
         && (if k.pending.Some? then k.pending.value.record == op.image.boundary.value && k.meta.value.head == 1 else k.meta.value.head == 0)
       case LoadOp =>
         && k.pending.None? && k.boundaries == {} && k.meta.value.head == k.meta.value.durable
         && Some(k.meta.value.timeline) == op.target && k.meta.value.revision == op.image.targetRevision
       case EndOp => k.pending.None? && k.boundaries == {} && k.meta.value.head == k.meta.value.durable
  }

  /** The room is the one the intent was made for, and it is in play. */
  ghost predicate RowFits(row: RoomRow, op: Operation) {
    row.owner == op.image.owner && row.solo == op.image.solo && (row.status.PlayingRoom? || row.status.PausedRoom?)
  }

  /** A legacy baseline is stored already, or has the root of its branch to itself. */
  ghost predicate BaselineFits(l: Tables, op: Operation) {
    op.kind.LoadOp? && op.image.boundary.Some? ==>
      var r := op.image.boundary.value;
      && r.timeline in l.timelines
      && (InLedger(l, r)
          || (Absent(l, r) && (r.timeline, 0) !in l.records && l.timelines[r.timeline].parent.None?
              && !l.timelines[r.timeline].complete && l.timelines[r.timeline].durable == 0))
  }

  /** What a processor of the completed phase may still have to archive. */
  ghost predicate Importable(l: Tables, op: Operation) {
    op.kind.LoadOp? && op.image.boundary.Some? ==> Accepts(l, op.image.boundary.value)
  }

  lemma PublishedBaseline(s: Store, n: Store, id: Uuid, op: Operation)
    requires id in s.ops && s.ops[id] == op && ImageReadable(op) && Owns(s, id, Completed) && Moved(s, n, id, Completed)
    ensures Importable(n.tables, op) <==> BaselineFits(s.tables, op)
  {
    if op.kind.LoadOp? && op.image.boundary.Some? {
      var r := op.image.boundary.value;
      assert Absent(n.tables, r) <==> Absent(s.tables, r) by {
        AbsentIsUnused(n.tables, r);
        AbsentIsUnused(s.tables, r);
      }
      if InLedger(s.tables, r) {
        assert !Absent(s.tables, r) by {
          assert s.tables.records[(r.timeline, r.position)].commit == r.commit;
        }
      }
    }
  }

  /** The opening of a start is new to the ledger, and its branch has nothing yet. */
  ghost predicate OpeningNew(l: Tables, op: Operation) {
    && op.image.boundary.Some?
    && var r := op.image.boundary.value;
    && r.timeline in l.timelines && l.timelines[r.timeline].parent.None? && l.timelines[r.timeline].complete
    && l.timelines[r.timeline].durable == 0 && Absent(l, r)
  }

  lemma PublishedOpening(s: Store, n: Store, id: Uuid, op: Operation)
    requires id in s.ops && s.ops[id] == op && ImageReadable(op) && op.kind.StartOp?
    requires Owns(s, id, Completed) && Moved(s, n, id, Completed) && OpeningNew(s.tables, op)
    ensures Accepts(n.tables, op.image.boundary.value)
  {
    var r := op.image.boundary.value;
    assert Absent(n.tables, r) by {
      AbsentIsUnused(n.tables, r);
      AbsentIsUnused(s.tables, r);
    }
  }

  // ---------------------------------------------------------------- first attempts

  /** The row a prepared start finds: still waiting and playable, or already in play. */
  ghost predicate MayStart(row: RoomRow, playable: bool) {
    (row.status.WaitingRoom? && playable) || row.status.PlayingRoom? || row.status.PausedRoom?
  }

  /** The running game is the one the intent was made for; a lost one is replaced only by a recovering load. */
  ghost predicate MayFence(k: Redis, op: Operation, recovery: bool) {
    && OpenGate(k) && k.meta.value.control.None?
    && (if k.play.None? then recovery && op.kind.LoadOp?
        else k.play.value.generation == op.sourceGeneration && !k.play.value.status.Provisional?)
  }

  /** In a reachable state an open intent owns its room and its branch, and its token is free or its own. */
  lemma OpenIntent(s: System, id: Uuid)
    requires Arises(s) && id in s.store.ops && (s.store.ops[id].phase.PreparedPhase? || s.store.ops[id].phase.RedisApplied?)
    ensures Owns(s.store, id, Completed) && id !in s.redis.receipts
    ensures s.store.state.value.revision == PhaseRevision(s.store.ops[id])
    ensures var (k, op) := (s.redis, s.store.ops[id]);
      && op.image.targetRevision == (if op.kind.StartOp? then 3 else op.image.sourceRevision + 3)
      && (op.kind.StartOp? ==> op.image.position == 0)
      && (!op.kind.StartOp? ==> k.meta.Some?)
      && (!op.kind.StartOp? && k.meta.value.control != Some(id) ==>
            Some(k.meta.value.timeline) == op.source && k.meta.value.revision == op.image.sourceRevision)
      && (k.meta.Some? && k.meta.value.control.None? ==> k.control.None? || k.control.value.phase.Finished?)
      && (k.meta.None? ==> k.control.None? && k.pending.None?)
  {
    ArisesInv(s);
    assert OpOk(s.store.tables.timelines, s.store.ops[id]);
  }

  /** The branch of an open start is empty, and before the room has metadata nobody leases anything. */
  lemma OpeningFresh(s: System, id: Uuid)
    requires Arises(s) && id in s.store.ops && s.store.ops[id].kind.StartOp? && s.store.ops[id].phase.PreparedPhase?
    ensures s.store.ops[id].image.boundary.Some?
    ensures Absent(s.store.tables, s.store.ops[id].image.boundary.value) ==> OpeningNew(s.store.tables, s.store.ops[id])
    ensures s.redis.meta.None? ==> s.redis.lease.None?
  {
    ArisesInv(s);
    assert OpOk(s.store.tables.timelines, s.store.ops[id]);
    assert H.TimelineOk(s.store.tables, s.store.ops[id].target.value);
  }
}
