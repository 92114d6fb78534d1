/**
 What the protocol promises over whole runs, starting from an empty room.
 */
module ProtocolTheorems {
  import opened MemoryModel
  import opened Ledger
  import H = History
  import opened Journal
  import opened Runtime
  import opened Protocol
  import opened ProtocolInvariant

  lemma Reachable(steps: seq<Step>)
    ensures Inv(Run(INITIAL, steps))
  {
    InitialOk();
    RunKeeps(INITIAL, steps);
  }

  lemma {:induction false} RunAppend(s: System, steps: seq<Step>, step: Step)
    ensures Run(s, steps + [step]) == Next(Run(s, steps), step)
    decreases |steps|
  {
    if steps == [] {
      assert [step][1..] == [];
      assert Run(Next(s, step), []) == Next(s, step);
    } else {
      assert (steps + [step])[1..] == steps[1..] + [step];
      RunAppend(Next(s, steps[0]), steps[1..], step);
    }
  }

  // ---------------------------------------------------------------- one append-only log

  /**
   The two stores refine one log: what was ever committed on a timeline is its MySQL ledger,
   or that ledger and exactly the one record waiting in the outbox.
   */
  lemma LedgerRefinesLog(steps: seq<Step>, id: Uuid)
    requires id in Run(INITIAL, steps).committed
    ensures var s := Run(INITIAL, steps);
      && id in s.store.tables.timelines
      && LogOk(s.store.tables, s.redis, s.committed[id], id)
      && (s.committed[id] == OwnLog(s.store.tables, id)
          || (Unarchived(s.store.tables, s.redis, id)
              && s.committed[id] == OwnLog(s.store.tables, id) + [s.redis.pending.value.record]))
  {
    var s := Run(INITIAL, steps);
    Reachable(steps);
    assert LogOk(s.store.tables, s.redis, s.committed[id], id);
  }

  /** Redis durable <= MySQL durable <= Redis head <= Redis durable + 1, on the branch Redis serves. */
  lemma MarksOrdered(steps: seq<Step>)
    ensures var s := Run(INITIAL, steps);
      s.redis.meta.Some? ==>
        var m := s.redis.meta.value;
        && m.timeline in s.store.tables.timelines
        && m.durable <= s.store.tables.timelines[m.timeline].durable <= m.head <= m.durable + 1
  {
    Reachable(steps);
  }

  /** A waiting body is never forgotten: unless the gate is closed, the room stands in the recovery queue. */
  lemma BodyIsDiscoverable(steps: seq<Step>)
    ensures var k := Run(INITIAL, steps).redis;
      k.pending.Some? ==> k.meta.Some? && (k.queued || k.meta.value.state.Blocked?)
  {
    Reachable(steps);
  }

  /** A body leaves the outbox only when the identical record is already in the ledger. */
  lemma BodyLeavesArchived(steps: seq<Step>, step: Step)
    requires Run(INITIAL, steps).redis.pending.Some?
    ensures var s := Run(INITIAL, steps);
            var r := s.redis.pending.value.record;
      InLedger(s.store.tables, r) || (Next(s, step).redis.pending.Some? && Next(s, step).redis.pending.value.record == r)
  {
    Reachable(steps);
    BodyKept(Run(INITIAL, steps), step);
  }

  lemma BodyKept(s: System, step: Step)
    requires Inv(s) && s.redis.pending.Some?
    ensures InLedger(s.store.tables, s.redis.pending.value.record) || SameBody(s.redis.pending, Next(s, step).redis.pending)
  {
    if OfControl(step) {
      BodyKeptByControl(s, step);
    } else if step.AcknowledgeStored? {
      if step.owner in s.workers {
        assert StageOk(s.store.tables, s.redis, s.workers[step.owner]);
      }
    } else {
      BodyKeptElsewhere(s, step);
    }
  }

  /** Commits need an empty outbox and claims only read the body. */
  lemma BodyKeptElsewhere(s: System, step: Step)
    requires s.redis.pending.Some? && !OfControl(step) && !step.AcknowledgeStored?
    ensures SameBody(s.redis.pending, Next(s, step).redis.pending)
  {
  }

  /** Every control script that would replace the branch insists on an empty outbox. */
  lemma BodyKeptByControl(s: System, step: Step)
    requires s.redis.pending.Some? && OfControl(step)
    requires s.redis.meta.Some?
    ensures SameBody(s.redis.pending, Next(s, step).redis.pending)
  {
    match step
    case InitializeStart(_) =>
    case AbortRedisStart(_) =>
    case FenceRoom(_, _, _) =>
    case ApplyImage(_, _, _) =>
    case FinishControl(_) =>
    case _ =>
  }

  // ---------------------------------------------------------------- nothing committed is lost

  predicate LogsGrow(a: map<Uuid, seq<Record>>, b: map<Uuid, seq<Record>>) {
    forall id :: id in a ==> id in b && a[id] <= b[id]
  }

  lemma AdvanceGrows(s: Store, id: Uuid, from: Phase, to: Phase)
    ensures H.Grows(s.tables, Advance(s, id, from, to).0.tables)
  {
    var m := Advance(s, id, from, to).0.tables;
    if m != s.tables {
      var target, status := s.ops[id].target.value, if to.Completed? then Active else Aborted;
      assert m == H.WithStatus(s.tables, target, status);
    }
  }

  lemma IntentGrows(s: System, step: Step)
    requires OfControl(step) && !step.ArchiveBaseline?
    ensures H.Grows(s.store.tables, Next(s, step).store.tables)
  {
    if step.AbortIntent? || step.RecordApplied? || step.CompleteIntent? {
      IntentChanges(s, step);
      AdvanceGrows(s.store, step.id, if step.CompleteIntent? then RedisApplied else PreparedPhase, PhaseAfter(step));
    } else {
      ControlKeepsTables(s, step);
    }
  }

  lemma ControlKeepsTables(s: System, step: Step)
    requires OfControl(step) && !step.ArchiveBaseline? && !step.AbortIntent? && !step.RecordApplied? && !step.CompleteIntent?
    ensures Next(s, step).store.tables == s.store.tables
  {
  }

  lemma ArchiveGrows(s: System, owner: Uuid, lost: bool)
    requires H.Inv(s.store.tables)
    ensures H.Grows(s.store.tables, Next(s, ArchiveClaimed(owner, lost)).store.tables)
  {
    if owner in s.workers {
      H.ArchiveKeepsInv(s.store.tables, s.workers[owner].record);
    }
  }

  lemma LedgerGrows(s: System, step: Step)
    requires Inv(s)
    ensures H.Grows(s.store.tables, Next(s, step).store.tables)
  {
    if step.ArchiveClaimed? {
      ArchiveGrows(s, step.owner, step.responseLost);
    } else if step.PrepareIntent? {
      PrepareChanges(s, step.id, step.op, step.target);
      if Creates(s.store, step.id, step.op, step.target) {
        PreparedTables(s.store, step.id, step.op, step.target);
      }
    } else if step.ArchiveBaseline? {
      BaselineChanges(s, step.id);
      if BaselineDue(s, step.id) {
        H.ArchiveKeepsInv(s.store.tables, s.store.ops[step.id].image.boundary.value);
      }
    } else if OfControl(step) {
      IntentGrows(s, step);
    } else if step.BlockIntent? {
      BlockGrows(s, step.id);
    } else {
      TablesKept(s, step);
    }
  }

  lemma BlockGrows(s: System, id: Uuid)
    ensures H.Grows(s.store.tables, Next(s, BlockIntent(id)).store.tables)
  {
    if id in s.store.ops {
      AdvanceGrows(s.store, id, s.store.ops[id].phase, BlockedPhase);
    }
  }

  lemma TablesKept(s: System, step: Step)
    requires !OfControl(step) && !step.ArchiveClaimed? && !step.PrepareIntent? && !step.BlockIntent?
    ensures Next(s, step).store.tables == s.store.tables
  {
  }

  /** Only a commit and the end of a start publish a record, and only preparing a branch opens a log. */
  lemma CommittedKept(s: System, step: Step)
    requires !step.CommitAction? && !step.FinishControl? && !step.PrepareIntent?
    ensures Next(s, step).committed == s.committed
  {
  }

  lemma CommittedGrows(s: System, step: Step)
    requires Inv(s)
    ensures LogsGrow(s.committed, Next(s, step).committed)
  {
    match step
    case FinishControl(id) => FinishChanges(s, id);
    case PrepareIntent(id, op, target) => PrepareChanges(s, id, op, target);
    case CommitAction(_, _) =>
    case _ => CommittedKept(s, step);
  }

  lemma {:induction false} HistoryGrows(s: System, later: seq<Step>)
    requires Inv(s)
    ensures H.Grows(s.store.tables, Run(s, later).store.tables)
    ensures LogsGrow(s.committed, Run(s, later).committed)
    decreases |later|
  {
    if later != [] {
      LedgerGrows(s, later[0]);
      CommittedGrows(s, later[0]);
      NextKeeps(s, later[0]);
      HistoryGrows(Next(s, later[0]), later[1..]);
    }
  }

  /** The i-th record ever committed on a timeline is archived, or it is the one waiting in the outbox. */
  lemma CommittedIsSafe(s: System, id: Uuid, i: nat)
    requires Inv(s) && id in s.committed && i < |s.committed[id]|
    ensures InLedger(s.store.tables, s.committed[id][i])
            || (s.redis.pending.Some? && s.redis.pending.value.record == s.committed[id][i])
  {
    var l := s.store.tables;
    assert LogOk(l, s.redis, s.committed[id], id);
    if i < |OwnLog(l, id)| {
      assert s.committed[id][i] == l.records[(id, l.timelines[id].fork + 1 + i)];
      assert H.RowOk(l, id, l.timelines[id].fork + 1 + i);
    }
  }

  /**
   No committed fact is ever lost or altered: whatever happens later, in either store, the record
   committed i-th on a timeline stays the i-th, and is in the ledger or still in the outbox.
   */
  lemma NothingIsLost(steps: seq<Step>, later: seq<Step>, id: Uuid, i: nat)
    requires id in Run(INITIAL, steps).committed && i < |Run(INITIAL, steps).committed[id]|
    ensures var s, n := Run(INITIAL, steps), Run(Run(INITIAL, steps), later);
            var r := s.committed[id][i];
      && id in n.committed && i < |n.committed[id]| && n.committed[id][i] == r
      && (InLedger(n.store.tables, r) || (n.redis.pending.Some? && n.redis.pending.value.record == r))
      && (InLedger(s.store.tables, r) ==> InLedger(n.store.tables, r))
  {
    var s := Run(INITIAL, steps);
    var n := Run(s, later);
    Reachable(steps);
    RunKeeps(s, later);
    HistoryGrows(s, later);
    assert s.committed[id] <= n.committed[id];
    CommittedIsSafe(n, id, i);
  }

  /** What an active branch sees at a position it goes on seeing, through every protocol step. */
  lemma ViewsNeverChange(steps: seq<Step>, later: seq<Step>, id: Uuid, through: nat, p: nat)
    requires var l := Run(INITIAL, steps).store.tables;
      && id in l.timelines && l.timelines[id].status.Active?
      && l.timelines[id].fork <= through <= l.timelines[id].durable && 0 < p <= through
    ensures var l, m := Run(INITIAL, steps).store.tables, Run(Run(INITIAL, steps), later).store.tables;
      && Resolves(l.timelines, id, through, MAX_DEPTH) && Resolves(m.timelines, id, through, MAX_DEPTH)
      && Segments(m.timelines, id, through, MAX_DEPTH) == Segments(l.timelines, id, through, MAX_DEPTH)
      && H.RecordAt(l, id, p, MAX_DEPTH).Some?
      && H.RecordAt(m, id, p, MAX_DEPTH) == H.RecordAt(l, id, p, MAX_DEPTH)
  {
    var s := Run(INITIAL, steps);
    var l, m := s.store.tables, Run(s, later).store.tables;
    Reachable(steps);
    HistoryGrows(s, later);
    H.ActiveResolves(l, id, through);
    H.SeenEverywhere(l, id, through, MAX_DEPTH, p);
    H.ResolvesGrows(l, m, id, through, MAX_DEPTH);
    H.SeenGrows(l, m, id, through, p, MAX_DEPTH);
  }

  // ---------------------------------------------------------------- control operations

  /** While MySQL calls the room ready, Redis serves that very branch at that very revision. */
  lemma ReadyStoresAgree(steps: seq<Step>)
    ensures var s := Run(INITIAL, steps);
      s.store.state.Some? && s.store.state.value.status.ReadyState? ==>
        && s.redis.meta.Some?
        && s.store.state.value.active == Some(s.redis.meta.value.timeline)
        && s.store.state.value.revision == s.redis.meta.value.revision
  {
    Reachable(steps);
  }

  /** Phases are counted once each: completing takes the room to the revision its image named. */
  lemma CompletionCountsPhasesOnce(steps: seq<Step>, id: Uuid)
    requires id in Run(INITIAL, steps).store.ops && !Run(INITIAL, steps).store.ops[id].phase.Completed?
    requires id in Next(Run(INITIAL, steps), CompleteIntent(id)).store.ops
    requires Next(Run(INITIAL, steps), CompleteIntent(id)).store.ops[id].phase.Completed?
    ensures var op := Run(INITIAL, steps).store.ops[id];
            var st := Next(Run(INITIAL, steps), CompleteIntent(id)).store.state;
      && st.Some? && st.value.operation.None?
      && st.value.revision == op.image.targetRevision
                           == (if op.kind.StartOp? then 3 else op.image.sourceRevision + 3)
      && (if op.kind.EndOp? then st.value.status.EndedState? else st.value.status.ReadyState? && st.value.active == op.target)
  {
    var s := Run(INITIAL, steps);
    Reachable(steps);
    CompletionRevision(s, id);
    assert OpOk(s.store.tables.timelines, s.store.ops[id]);
  }

  /** A target image is installed only when every committed fact of the room is already in MySQL. */
  lemma InstallLosesNothing(steps: seq<Step>, id: Uuid, fence: Uuid, recovery: bool, timeline: Uuid)
    requires Installs(Run(INITIAL, steps), id, fence, recovery)
    requires timeline in Run(INITIAL, steps).committed
    ensures var s := Run(INITIAL, steps);
      && s.redis.pending.None? && s.redis.boundaries == {}
      && timeline in s.store.tables.timelines
      && LogOk(s.store.tables, s.redis, s.committed[timeline], timeline)
      && s.committed[timeline] == OwnLog(s.store.tables, timeline)
  {
    var s := Run(INITIAL, steps);
    Reachable(steps);
    assert LogOk(s.store.tables, s.redis, s.committed[timeline], timeline);
  }

  // ---------------------------------------------------------------- pausing and resuming

  /** A pause takes effect at any time and under a new generation; a resume waits for everything to be archived. */
  lemma PlayChanges(s: System, g: Uuid)
    ensures var (k, n) := (s.redis, Next(s, PausePlay(g)));
      if k.play.Some? && !k.play.value.status.Provisional?
      then n == s.(redis := k.(play := Some(Play(Paused, g, k.play.value.turn)))) else n == s
    ensures var (k, n) := (s.redis, Next(s, ResumePlay(g)));
      if k.play.Some? && k.play.value.status.Paused? && k.meta.Some? && k.meta.value.state.Ready? && k.meta.value.control.None?
         && k.meta.value.head == k.meta.value.durable && k.pending.None?
      then n == s.(redis := k.(play := Some(Play(Playing, g, k.play.value.turn)))) else n == s
  {
  }

  /** Nothing computed under the generation a pause has replaced can be committed. */
  lemma PauseFences(steps: seq<Step>, g: Uuid, r: Record, boundary: bool)
    requires var k := Run(INITIAL, steps).redis; k.play.Some? && !k.play.value.status.Provisional?
    requires r.generation == Run(INITIAL, steps).redis.play.value.generation && g != r.generation
    ensures var n := Next(Run(INITIAL, steps), PausePlay(g));
      && Next(n, CommitAction(r, boundary)) == n
      && forall h: Uuid :: h != r.generation ==> var m := Next(n, ResumePlay(h)); Next(m, CommitAction(r, boundary)) == m
  {
  }

  // ---------------------------------------------------------------- automatic-save boundaries

  /** A waiting snapshot belongs to a published branch and to a position MySQL has, so storing it is never refused for a gap. */
  lemma BoundaryStandsOnLedger(steps: seq<Step>, b: Boundary)
    requires b in Run(INITIAL, steps).redis.boundaries
    ensures var l := Run(INITIAL, steps).store.tables;
      && b.timeline in l.timelines && l.timelines[b.timeline].status.Active?
      && l.timelines[b.timeline].fork < b.position <= l.timelines[b.timeline].durable
      && (b.timeline, b.position) in l.records && l.records[(b.timeline, b.position)].roundAfter == b.round
  {
    var s := Run(INITIAL, steps);
    Reachable(steps);
    assert BoundaryOk(s.store.tables, b);
    assert H.RowOk(s.store.tables, b.timeline, b.position) && H.TimelineOk(s.store.tables, b.timeline);
  }

  /** No snapshot stops waiting before a save stands at its position. */
  lemma BoundaryLeavesSaved(s: System, step: Step, b: Boundary)
    requires b in s.redis.boundaries && b !in Next(s, step).redis.boundaries
    ensures SavedAt(s.store, b)
  {
    if OfControl(step) {
      ControlKeepsBoundaries(s, step);
    }
  }

  lemma ControlKeepsBoundaries(s: System, step: Step)
    requires OfControl(step)
    ensures Next(s, step).redis.boundaries == s.redis.boundaries
  {
  }

  /** The snapshot taken with a record waits in the outbox with it, waits on its own, or is stored under its place and round. */
  ghost predicate SnapshotKept(s: System, r: Record) {
    || (s.redis.pending.Some? && s.redis.pending.value.record == r && s.redis.pending.value.boundary)
    || Boundary(r.timeline, r.position, r.roundAfter) in s.redis.boundaries
    || exists n :: n in s.store.saves && s.store.saves[n] == SavePoint(Some(r.timeline), Some(r.position), r.roundAfter)
  }

  /** A save row keeps its number and place. */
  lemma SavesKept(s: System, step: Step, n: nat)
    requires n in s.store.saves
    ensures n in Next(s, step).store.saves && Next(s, step).store.saves[n] == s.store.saves[n]
  {
    if OfControl(step) {
      ControlKeepsSaves(s, step);
    }
  }

  lemma ControlKeepsSaves(s: System, step: Step)
    requires OfControl(step)
    ensures Next(s, step).store.saves == s.store.saves
  {
  }

  /** Only acknowledging the record takes it out of the outbox, and then its snapshot starts to wait. */
  lemma PendingSnapshotKept(s: System, step: Step, r: Record)
    requires Inv(s) && s.redis.pending.Some? && s.redis.pending.value.record == r && s.redis.pending.value.boundary
    ensures SnapshotKept(Next(s, step), r)
  {
    if OfControl(step) {
      BodyKeptByControl(s, step);
    } else if !step.AcknowledgeStored? {
      BodyKeptElsewhere(s, step);
    } else if step.owner in s.workers && s.workers[step.owner].Confirmed? {
      AcknowledgeOutbox(s.redis, step.owner, s.workers[step.owner].record);
    }
  }

  lemma SnapshotStepKeeps(s: System, step: Step, r: Record)
    requires Inv(s) && SnapshotKept(s, r)
    ensures SnapshotKept(Next(s, step), r)
  {
    var b := Boundary(r.timeline, r.position, r.roundAfter);
    if s.redis.pending.Some? && s.redis.pending.value.record == r && s.redis.pending.value.boundary {
      PendingSnapshotKept(s, step, r);
    } else if n: nat :| n in s.store.saves && s.store.saves[n] == SavePoint(Some(r.timeline), Some(r.position), r.roundAfter) {
      SavesKept(s, step, n);
    } else if b !in Next(s, step).redis.boundaries {
      BoundaryLeavesSaved(s, step, b);
    }
  }

  lemma {:induction false} SnapshotRunKeeps(s: System, steps: seq<Step>, r: Record)
    requires Inv(s) && SnapshotKept(s, r)
    ensures SnapshotKept(Run(s, steps), r)
    decreases |steps|
  {
    if steps != [] {
      SnapshotStepKeeps(s, steps[0], r);
      NextKeeps(s, steps[0]);
      SnapshotRunKeeps(Next(s, steps[0]), steps[1..], r);
    }
  }

  /**
   No automatic save is lost: once a commit has taken its snapshot along, the snapshot is in the outbox,
   waiting, or stored, at the record's own position and round, whatever happens later in either store.
   */
  lemma BoundaryNeverLost(steps: seq<Step>, r: Record, later: seq<Step>)
    requires CommitAdmitted(Run(INITIAL, steps).redis, r) && H.EventsOk(r)
    ensures SnapshotKept(Run(Next(Run(INITIAL, steps), CommitAction(r, true)), later), r)
  {
    var s := Run(INITIAL, steps);
    Reachable(steps);
    NextKeeps(s, CommitAction(r, true));
    SnapshotRunKeeps(Next(s, CommitAction(r, true)), later, r);
  }

  // ---------------------------------------------------------------- when the outbox drains

  /** An intent has been given up, and nobody has let the room go since. */
  predicate CapabilityBlocked(s: Store) {
    s.state.Some? && s.state.value.status.BlockedState?
  }

  /** The room is not blocked, and no other record of it carries this commit or request identity. */
  predicate Storable(s: Store, r: Record) {
    !CapabilityBlocked(s) && (InLedger(s.tables, r) || H.Unused(s.tables, r))
  }

  lemma OnceArchivedReplays(l: Tables, r: Record)
    requires H.Inv(l) && InLedger(l, r)
    ensures H.ReplayOf(l, r) && !H.Unused(l, r)
    ensures r.timeline in l.timelines && r.position <= l.timelines[r.timeline].durable
  {
    assert H.RowOk(l, r.timeline, r.position);
    assert H.SameIdentity(l.records[(r.timeline, r.position)], r);
  }

  lemma RowWithinMark(l: Tables, id: Uuid, p: nat)
    requires H.Inv(l) && (id, p) in l.records
    ensures id in l.timelines && p <= l.timelines[id].durable
  {
    assert H.RowOk(l, id, p);
  }

  lemma NewPendingIsNext(s: System)
    requires Inv(s) && s.redis.pending.Some? && !InLedger(s.store.tables, s.redis.pending.value.record)
    ensures var l, r := s.store.tables, s.redis.pending.value.record;
      && r.timeline in l.timelines && l.timelines[r.timeline].durable + 1 == r.position
      && (r.timeline, r.position) !in l.records
      && Sealed(r) && FitsTimeline(l, r)
  {
    var l, r := s.store.tables, s.redis.pending.value.record;
    if (r.timeline, r.position) in l.records {
      RowWithinMark(l, r.timeline, r.position);
    }
  }

  /** The key events of a pending record can always be derived: the services check them before the commit. */
  lemma PendingEventsDerivable(steps: seq<Step>)
    ensures var k := Run(INITIAL, steps).redis; k.pending.Some? ==> H.EventsOk(k.pending.value.record)
  {
    Reachable(steps);
  }

  /**
   In every reachable state the pending record is accepted by MySQL if and only if no intent has been
   given up and the record is already there or reuses nobody's identity.
   */
  lemma PendingArchivableIff(s: System)
    requires Inv(s) && s.redis.pending.Some?
    ensures ArchiveAndAdvance(s.store, s.redis.pending.value.record).1.Ok? <==>
              !CapabilityBlocked(s.store)
              && (InLedger(s.store.tables, s.redis.pending.value.record) || H.Unused(s.store.tables, s.redis.pending.value.record))
  {
    var l, r := s.store.tables, s.redis.pending.value.record;
    if CapabilityBlocked(s.store) {
      assert CapabilityArchiveError(s.store, r).Some?;
    } else if InLedger(l, r) {
      OnceArchivedReplays(l, r);
    } else if H.Unused(l, r) {
      NewPendingIsNext(s);
    } else {
      ReusedIsRefused(l, r);
    }
  }

  lemma ReusedIsRefused(l: Tables, r: Record)
    requires H.Inv(l) && !InLedger(l, r) && !H.Unused(l, r)
    ensures !H.ReplayOf(l, r) && !H.Archived(l, r).1.Ok?
  {
    var k :| k in l.records && H.SameIdentity(l.records[k], r);
    assert H.RowOk(l, k.0, k.1);
  }

  /** With the gate open, an acknowledgement by a confirmed worker is never found corrupt. */
  lemma ConfirmedNeverCorrupt(s: System, owner: Uuid)
    requires Inv(s) && owner in s.workers && s.workers[owner].Confirmed?
    requires s.redis.meta.Some? && !s.redis.meta.value.state.Blocked?
    ensures !Acknowledge(s.redis, owner, s.workers[owner].record).1.Corrupt?
    ensures s.redis.lease == Some(Lease(owner, s.workers[owner].record)) ==>
              Acknowledge(s.redis, owner, s.workers[owner].record).1.Acked?
  {
  }

  /** One undisturbed pass of a worker: claim, archive, claim again, acknowledge. */
  function Pass(s: System, owner: Uuid): System {
    Next(Next(Next(Next(s, ClaimOutbox(owner)), ArchiveClaimed(owner, false)), ReclaimOutbox(owner)), AcknowledgeStored(owner, false))
  }

  predicate MayClaim(s: System, owner: Uuid) {
    && s.redis.pending.Some? && s.redis.lease.None? && owner !in s.workers
    && s.redis.meta.Some? && !s.redis.meta.value.state.Blocked?
  }

  lemma ArchivesHeld(s: System, owner: Uuid)
    requires Inv(s) && owner in s.workers && s.workers[owner].Holding?
    requires s.redis.pending.Some? && s.redis.pending.value.record == s.workers[owner].record
    ensures var r, n := s.workers[owner].record, Next(s, ArchiveClaimed(owner, false));
      && n.redis == s.redis && owner in n.workers && n.workers[owner].record == r
      && (n.workers[owner].Stored? <==> Storable(s.store, r))
      && (!n.workers[owner].Stored? ==> n.workers[owner] == Failed(r, true))
  {
    PendingArchivableIff(s);
  }

  lemma ConfirmsAndAcknowledges(s: System, owner: Uuid)
    requires Inv(s) && owner in s.workers && s.workers[owner].Stored?
    requires s.redis.lease == Some(Lease(owner, s.workers[owner].record))
    requires s.redis.meta.Some? && !s.redis.meta.value.state.Blocked?
    ensures var r, n := s.workers[owner].record, Next(Next(s, ReclaimOutbox(owner)), AcknowledgeStored(owner, false));
      && n.store == s.store && owner !in n.workers
      && n.redis.pending.None? && n.redis.meta.Some?
      && n.redis.meta.value == s.redis.meta.value.(durable := s.redis.meta.value.head, last := Some(Lease(owner, r)),
                                 state := if s.redis.meta.value.control.None? then Ready else Recovering)
  {
    var m := Next(s, ReclaimOutbox(owner));
    assert m.redis == s.redis && m.workers == s.workers[owner := Confirmed(s.workers[owner].record)];
  }

  /** The pass and its clean-up: the whole of one worker's life. */
  function Worked(s: System, owner: Uuid): System {
    Next(Pass(s, owner), Step.CleanUp(owner))
  }

  /** The body is stored for good and the gate reopens. */
  ghost predicate Drained(s: System, n: System)
    requires s.redis.pending.Some? && s.redis.meta.Some?
  {
    var m := s.redis.meta.value;
    && n.redis.pending.None? && InLedger(n.store.tables, s.redis.pending.value.record)
    && n.redis.meta.Some? && n.redis.meta.value.head == n.redis.meta.value.durable == m.head
    && n.redis.meta.value.state == (if m.control.None? then Ready else Recovering)
  }

  /** The gate closes and the body stays. */
  ghost predicate ClosedOver(s: System, n: System) {
    n.store == s.store && n.redis.pending == s.redis.pending && n.redis.meta.Some? && n.redis.meta.value.state.Blocked?
  }

  /** The pass up to and including its MySQL transaction. */
  function Archiving(s: System, owner: Uuid): System {
    Next(Next(s, ClaimOutbox(owner)), ArchiveClaimed(owner, false))
  }

  lemma PassArchives(s: System, owner: Uuid)
    requires Inv(s) && MayClaim(s, owner)
    ensures var r, a, b := s.redis.pending.value.record, Next(s, ClaimOutbox(owner)), Archiving(s, owner);
      && a.redis == b.redis == s.redis.(lease := Some(Lease(owner, r))) && a.store == s.store
      && a.workers == s.workers[owner := Holding(r)]
      && Inv(b) && owner in b.workers && b.workers[owner].record == r
      && (b.workers[owner].Stored? <==> Storable(s.store, r))
      && (!b.workers[owner].Stored? ==> b.workers[owner] == Failed(r, true))
  {
    var a := Next(s, ClaimOutbox(owner));
    NextKeeps(s, ClaimOutbox(owner));
    NextKeeps(a, ArchiveClaimed(owner, false));
    ArchivesHeld(a, owner);
  }

  /**
   An undisturbed worker empties the outbox, reopens the gate and leaves the record in the ledger
   exactly when the record is storable; otherwise it closes the gate and keeps the body.
   */
  lemma PassDrainsIff(s: System, owner: Uuid)
    requires Inv(s) && MayClaim(s, owner)
    ensures Storable(s.store, s.redis.pending.value.record) ==> Drained(s, Worked(s, owner))
    ensures !Storable(s.store, s.redis.pending.value.record) ==> ClosedOver(s, Worked(s, owner))
  {
    if Storable(s.store, s.redis.pending.value.record) {
      StorablePass(s, owner);
    } else {
      PassArchives(s, owner);
      RefusedPass(Next(s, ClaimOutbox(owner)), Archiving(s, owner), owner);
    }
  }

  lemma StorablePass(s: System, owner: Uuid)
    requires Inv(s) && MayClaim(s, owner) && Storable(s.store, s.redis.pending.value.record)
    ensures Drained(s, Worked(s, owner)) && owner !in Pass(s, owner).workers
  {
    PassArchives(s, owner);
    var b := Archiving(s, owner);
    StoredIsInLedger(b, owner);
    ConfirmsAndAcknowledges(b, owner);
    DrainedAfter(s, b, Pass(s, owner), owner);
  }

  lemma StoredIsInLedger(s: System, owner: Uuid)
    requires Inv(s) && owner in s.workers && s.workers[owner].Stored?
    ensures InLedger(s.store.tables, s.workers[owner].record)
  {
    assert StageOk(s.store.tables, s.redis, s.workers[owner]);
  }

  /** A worker that is through leaves its clean-up nothing to do. */
  lemma DrainedAfter(s: System, b: System, n: System, owner: Uuid)
    requires s.redis.pending.Some? && s.redis.meta.Some? && OutboxOk(s.redis)
    requires InLedger(b.store.tables, s.redis.pending.value.record) && n.store == b.store && owner !in n.workers
    requires n.redis.pending.None? && n.redis.meta.Some? && n.redis.meta.value.head == n.redis.meta.value.durable == s.redis.meta.value.head
    requires n.redis.meta.value.state == (if s.redis.meta.value.control.None? then Ready else Recovering)
    ensures Drained(s, Next(n, Step.CleanUp(owner)))
  {
  }

  lemma RefusedPass(a: System, b: System, owner: Uuid)
    requires b == Next(a, ArchiveClaimed(owner, false))
    requires owner in a.workers && a.workers[owner].Holding? && owner in b.workers
    requires a.redis.meta.Some? && a.redis.pending.Some? && a.redis.pending.value.record == a.workers[owner].record
    requires a.redis.meta.value.timeline == a.workers[owner].record.timeline
    requires a.redis.lease == Some(Lease(owner, a.workers[owner].record))
    requires b.workers[owner] == Failed(a.workers[owner].record, true)
    ensures Next(Next(b, ReclaimOutbox(owner)), AcknowledgeStored(owner, false)) == b
    ensures b.store == a.store
    ensures var c := Next(b, Step.CleanUp(owner));
      c.store == a.store && c.redis.pending == a.redis.pending && c.redis.meta.Some? && c.redis.meta.value.state.Blocked?
  {
  }
}
