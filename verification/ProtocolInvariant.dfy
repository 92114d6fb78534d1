/**
 The invariant that ties the two stores together, and what it gives.
 */
module ProtocolInvariant {
  import opened MemoryModel
  import opened Ledger
  import H = History
  import opened Journal
  import opened Runtime
  import opened Protocol

  // ---------------------------------------------------------------- Redis on its own

  ghost predicate OutboxOk(k: Redis) {
    && (k.meta.None? ==> k.pending.None? && k.control.None? && k.receipts == map[])
    && (k.lease.Some? ==> k.pending.Some? && k.lease.value.record == k.pending.value.record)
    && (k.meta.Some? ==> MetaOk(k))
  }

  /** What every committed record has been checked for. */
  predicate PendingShape(r: Record) {
    Sealed(r) && H.EventsOk(r)
  }

  ghost predicate MetaOk(k: Redis)
    requires k.meta.Some?
  {
    var m := k.meta.value;
    && m.revision <= MAX_REDIS_POSITION
    && (k.pending.None? ==> m.head == m.durable)
    && (k.pending.Some? && !m.state.Blocked? ==> k.queued)
    && (k.pending.Some? ==> OutboxIntact(k) && PendingShape(k.pending.value.record) && m.head <= MAX_REDIS_POSITION)
    && (m.state.Ready? ==> k.pending.None? && m.control.None?)
    && (m.state.Pending? ==> k.pending.Some? && m.control.None?)
    && (m.state.Recovering? ==> m.control.Some?)
    && (k.pending.Some? && m.control.None? && k.play.Some? && k.play.value.status.Playing? ==>
          CanResume(k, k.pending.value.record))
  }

  // ---------------------------------------------------------------- ledger against outbox

  /** The pending record may be archived as far as the shape of its timeline is concerned. */
  predicate FitsTimeline(l: Tables, r: Record) {
    && r.timeline in l.timelines
    && !r.kind.LegacyBaseline?
    && H.FitsRoot(l, r)
    && (r.position == 1 && l.timelines[r.timeline].parent.None? && !l.timelines[r.timeline].complete ==>
          (r.timeline, 0) in l.records)
  }

  /** Redis durable <= MySQL durable <= Redis head <= Redis durable + 1. */
  ghost predicate MarksOk(l: Tables, k: Redis) {
    k.meta.Some? ==>
      && k.meta.value.timeline in l.timelines
      && k.meta.value.durable <= l.timelines[k.meta.value.timeline].durable <= k.meta.value.head
      && (k.pending.Some? ==>
            && FitsTimeline(l, k.pending.value.record)
            && (l.timelines[k.meta.value.timeline].durable == k.meta.value.head ==> InLedger(l, k.pending.value.record)))
  }

  ghost function OwnLog(l: Tables, id: Uuid): seq<Record>
    requires id in l.timelines && l.timelines[id].fork <= l.timelines[id].durable
    requires forall p :: l.timelines[id].fork < p <= l.timelines[id].durable ==> (id, p) in l.records
  {
    var t := l.timelines[id];
    seq(t.durable - t.fork, i requires 0 <= i < t.durable - t.fork => l.records[(id, t.fork + 1 + i)])
  }

  predicate Unarchived(l: Tables, k: Redis, id: Uuid)
    requires id in l.timelines
  {
    k.meta.Some? && k.meta.value.timeline == id && k.pending.Some? && l.timelines[id].durable < k.meta.value.head
  }

  function Extra(l: Tables, k: Redis, id: Uuid): seq<Record>
    requires id in l.timelines
  {
    if Unarchived(l, k, id) then [k.pending.value.record] else []
  }

  /** The committed log of a timeline is its ledger, or its ledger and the one pending record. */
  ghost predicate LogOk(l: Tables, k: Redis, log: seq<Record>, id: Uuid)
    requires id in l.timelines
  {
    && l.timelines[id].fork <= l.timelines[id].durable
    && (forall p :: l.timelines[id].fork < p <= l.timelines[id].durable ==> (id, p) in l.records)
    && log == OwnLog(l, id) + Extra(l, k, id)
  }

  ghost predicate LogsOk(l: Tables, k: Redis, committed: map<Uuid, seq<Record>>) {
    && (forall id :: id in committed <==> id in l.timelines)
    && (forall id {:trigger LogOk(l, k, committed[id], id)} :: id in committed ==> LogOk(l, k, committed[id], id))
  }

  ghost predicate StageOk(l: Tables, k: Redis, stage: Stage) {
    && (stage.Stored? || stage.Confirmed? ==> InLedger(l, stage.record))
    && (InLedger(l, stage.record) || (k.pending.Some? && k.pending.value.record == stage.record))
  }

  ghost predicate WorkersOk(l: Tables, k: Redis, workers: map<Uuid, Stage>) {
    forall o :: o in workers ==> StageOk(l, k, workers[o])
  }

  // ---------------------------------------------------------------- control operations

  predicate OpOk(ts: map<Uuid, Timeline>, op: Operation) {
    var i := op.image;
    && StoredWell(op)
    && (op.phase.AbortedPhase? ==> op.kind.StartOp?)
    && (op.target.Some? ==> op.target.value in ts)
    && (op.source.Some? ==> op.source.value in ts && op.source != op.target)
    && (op.kind.StartOp? ==> i.targetRevision == 3 && i.position == 0)
    && (!op.kind.StartOp? ==> 0 < i.sourceRevision && i.targetRevision == i.sourceRevision + 3)
    && (op.target.Some? ==> TargetOk(op, ts[op.target.value]))
    && (i.boundary.Some? ==> Some(i.boundary.value.timeline) == op.target)
  }

  /** The intent still occupies the room: nobody has completed or aborted it. */
  predicate Unsettled(op: Operation) {
    op.phase.PreparedPhase? || op.phase.RedisApplied? || op.phase.BlockedPhase?
  }

  predicate TargetOk(op: Operation, t: Timeline) {
    && t.fork == op.image.position <= MAX_REDIS_POSITION
    && (op.kind.StartOp? ==> t.parent.None? && t.complete)
    && (op.kind.LoadOp? ==> (t.parent.None? <==> op.image.boundary.Some?) && (t.parent.None? ==> !t.complete))
    && (Unsettled(op) ==> t.status.Prepared?)
    && (op.phase.Completed? ==> t.status.Active?)
  }

  ghost predicate OpsOk(s: Store) {
    && (forall id {:trigger OpOk(s.tables.timelines, s.ops[id])} :: id in s.ops ==> OpOk(s.tables.timelines, s.ops[id]))
    && (forall id :: id in s.ops && Unsettled(s.ops[id]) ==>
          s.state.Some? && s.state.value.operation == Some(id))
    && (s.state.Some? && s.state.value.operation.Some? ==> s.state.value.operation.value in s.ops)
    && (s.state.None? ==> s.ops == map[])
    && (forall id :: id in s.ops && s.ops[id].phase.AbortedPhase? ==> s.state.Some? && s.state.value.status.BlockedState? && s.state.value.operation.None?)
  }

  /** What the metadata says once the operation's image is in place. */
  predicate Installed(k: Redis, op: Operation) {
    && k.meta.Some? && k.pending.None?
    && if op.kind.EndOp? then Some(k.meta.value.timeline) == op.source && k.meta.value.revision == op.image.sourceRevision
       else Some(k.meta.value.timeline) == op.target && k.meta.value.revision == op.image.targetRevision
            && k.meta.value.head == k.meta.value.durable == op.image.position
  }

  /** What it says while the operation only holds the fence. */
  predicate OnSource(k: Redis, op: Operation) {
    && k.meta.Some?
    && if op.kind.StartOp? then Installed(k, op)
       else Some(k.meta.value.timeline) == op.source && k.meta.value.revision == op.image.sourceRevision
  }

  predicate TokenHeldBy(k: Redis, id: Uuid) {
    k.meta.Some? && k.meta.value.control == Some(id)
  }

  predicate AppliedBy(k: Redis, id: Uuid) {
    TokenHeldBy(k, id) && k.control.Some? && k.control.value.op == id && k.control.value.phase.Applied?
  }

  ghost predicate TokenOk(s: Store, k: Redis) {
    && (forall id :: id in k.receipts ==> id in s.ops && s.ops[id].phase.Completed?)
    && (forall id :: id in s.ops && s.ops[id].phase.Completed? ==> id in k.receipts || AppliedBy(k, id))
    && (k.control.Some? && k.control.value.phase.Finished? ==> k.control.value.op in k.receipts && k.meta.Some? && k.meta.value.control != Some(k.control.value.op))
    && (k.control.Some? && !k.control.value.phase.Finished? ==> TokenHeldBy(k, k.control.value.op))
    && (k.meta.Some? && k.meta.value.control.Some? ==> HolderOk(s, k, k.meta.value.control.value))
  }

  ghost predicate HolderOk(s: Store, k: Redis, c: Uuid) {
    && c in s.ops && c !in k.receipts
    && k.control.Some? && k.control.value.op == c && k.control.value.image == s.ops[c].image && !k.control.value.phase.Finished?
    && (k.control.value.phase.Applied? ==> Installed(k, s.ops[c]))
    && (k.control.value.phase.Fenced? ==> OnSource(k, s.ops[c]) && (s.ops[c].phase.PreparedPhase? || s.ops[c].phase.BlockedPhase?))
    && (k.control.value.phase.StartAborted? ==>
          s.ops[c].kind.StartOp? && (s.ops[c].phase.PreparedPhase? || s.ops[c].phase.AbortedPhase? || s.ops[c].phase.BlockedPhase?)
          && Installed(k, s.ops[c]) && k.meta.value.state.Blocked?)
  }

  /** While an intent occupies the room, Redis is in its hands or still on its source; a blocked intent occupies it for good. */
  ghost predicate BusyOk(s: Store, k: Redis, id: Uuid)
    requires s.state.Some? && id in s.ops
  {
    var st, op := s.state.value, s.ops[id];
    && Unsettled(op)
    && (op.phase.BlockedPhase? || st.revision == PhaseRevision(op))
    && (op.phase.RedisApplied? ==> AppliedBy(k, id))
    && (op.phase.BlockedPhase? <==> st.status.BlockedState?)
    && if op.kind.StartOp? then
         && (st.status.Initializing? || st.status.BlockedState?) && st.active.None?
         && (k.meta.None? || TokenHeldBy(k, id))
       else
         && (st.status.RecoveringState? || st.status.BlockedState?) && st.active == op.source
         && k.meta.Some?
         && (!TokenHeldBy(k, id) ==> OnSource(k, op))
  }

  /** Preparing and applying count one revision each. */
  function PhaseRevision(op: Operation): nat {
    (if op.kind.StartOp? then 0 else op.image.sourceRevision) + (if op.phase.PreparedPhase? then 1 else 2)
  }

  ghost predicate SettledOk(s: Store, k: Redis)
    requires s.state.Some?
  {
    var st := s.state.value;
    match st.status
    case ReadyState =>
      && k.meta.Some? && st.active == Some(k.meta.value.timeline) && st.revision == k.meta.value.revision
      && (k.meta.value.control.Some? ==> k.control.Some? && k.control.value.phase.Applied?)
    case EndedState =>
      && k.meta.Some? && st.active == Some(k.meta.value.timeline) && k.pending.None?
      && (k.meta.value.control.Some? ==>
            && k.control.Some? && k.control.value.phase.Applied?
            && k.meta.value.control.value in s.ops && s.ops[k.meta.value.control.value].kind.EndOp?)
      && (k.meta.value.control.None? ==> k.play.None?)
    case BlockedState =>
      k.meta.Some? && k.pending.None? && k.meta.value.state.Blocked? && k.control.Some? && k.control.value.phase.StartAborted?
    case _ => false
  }

  ghost predicate StateOk(s: Store, k: Redis) {
    && (s.state.None? ==> k.meta.None?)
    && (s.state.Some? && s.state.value.operation.Some? ==>
          s.state.value.operation.value in s.ops && BusyOk(s, k, s.state.value.operation.value))
    && (s.state.Some? && s.state.value.operation.None? ==> SettledOk(s, k))
    && (s.state.Some? && s.state.value.active.Some? ==>
          && s.state.value.active.value in s.tables.timelines
          && s.tables.timelines[s.state.value.active.value].status.Active?)
  }

  /** Once its own operation has let go, a root has its opening or its imported baseline. */
  ghost predicate RootOk(s: Store, k: Redis) {
    k.meta.Some? && k.meta.value.timeline in s.tables.timelines && s.tables.timelines[k.meta.value.timeline].parent.None?
    && (k.meta.value.control.Some? && k.meta.value.control.value in s.ops ==>
          s.ops[k.meta.value.control.value].target != Some(k.meta.value.timeline)) ==>
      if s.tables.timelines[k.meta.value.timeline].complete then k.meta.value.head >= 1
      else (k.meta.value.timeline, 0) in s.tables.records
  }

  ghost predicate LearnedOk(s: Store, k: Redis, g: Learned) {
    && (forall id :: id in g.applied || id in g.inspected ==> id in k.receipts || AppliedBy(k, id))
    && (forall id :: id in g.startAborted ==>
          id in k.receipts || (TokenHeldBy(k, id) && k.control.Some? && k.control.value.op == id && k.control.value.phase.StartAborted?))
  }

  ghost predicate ControlOk(s: Store, k: Redis, g: Learned) {
    OpsOk(s) && TokenOk(s, k) && StateOk(s, k) && RootOk(s, k) && LearnedOk(s, k, g)
  }

  /** A snapshot waits only for a record that is already archived on a published branch. */
  ghost predicate BoundaryOk(l: Tables, b: Boundary) {
    (b.timeline, b.position) in l.records && b.position > 0 && l.records[(b.timeline, b.position)].roundAfter == b.round
  }

  ghost predicate BoundariesOk(l: Tables, k: Redis) {
    forall b {:trigger b in k.boundaries} :: b in k.boundaries ==> BoundaryOk(l, b)
  }

  ghost predicate Inv(s: System) {
    && H.Inv(s.store.tables)
    && OutboxOk(s.redis)
    && MarksOk(s.store.tables, s.redis)
    && LogsOk(s.store.tables, s.redis, s.committed)
    && WorkersOk(s.store.tables, s.redis, s.workers)
    && ControlOk(s.store, s.redis, s.learned)
    && BoundariesOk(s.store.tables, s.redis)
  }

  lemma InitialOk()
    ensures Inv(INITIAL)
  {
  }

  // ---------------------------------------------------------------- steps that keep the outbox and the token

  predicate SameBody(a: Option<Outbox>, b: Option<Outbox>) {
    (a.Some? <==> b.Some?) && (a.Some? ==> a.value.record == b.value.record && a.value.boundary == b.value.boundary)
  }

  /** Only the lease, the play status, the attempt count or a closed gate differ. */
  predicate Quiet(k: Redis, n: Redis) {
    && SameBody(k.pending, n.pending)
    && k.receipts == n.receipts && k.control == n.control
    && (k.meta.Some? <==> n.meta.Some?)
    && (k.meta.Some? ==>
          && n.meta.value == k.meta.value.(state := n.meta.value.state)
          && (n.meta.value.state == k.meta.value.state || n.meta.value.state.Blocked?))
    && (k.play.None? ==> n.play.None?)
    && n.boundaries <= k.boundaries
  }

  lemma LogsFrame(l: Tables, k: Redis, n: Redis, committed: map<Uuid, seq<Record>>)
    requires LogsOk(l, k, committed)
    requires SameBody(k.pending, n.pending) && (k.meta.Some? <==> n.meta.Some?)
    requires k.meta.Some? ==> n.meta.value.timeline == k.meta.value.timeline && n.meta.value.head == k.meta.value.head
    ensures LogsOk(l, n, committed)
  {
    forall id | id in committed ensures LogOk(l, n, committed[id], id) {
      assert LogOk(l, k, committed[id], id);
    }
  }

  lemma QuietKeeps(s: System, n: System)
    requires Inv(s) && n.store == s.store && n.committed == s.committed && n.learned == s.learned
    requires Quiet(s.redis, n.redis) && OutboxOk(n.redis)
    requires WorkersOk(n.store.tables, n.redis, n.workers)
    ensures Inv(n)
  {
    LogsFrame(s.store.tables, s.redis, n.redis, s.committed);
  }

  lemma ClaimQuiet(k: Redis, owner: Uuid)
    requires OutboxOk(k)
    ensures Quiet(k, Claim(k, owner).0) && OutboxOk(Claim(k, owner).0)
    ensures Claim(k, owner).1.Claimed? ==> k.pending.Some? && k.pending.value.record == Claim(k, owner).1.record
  {
  }

  lemma ClaimKeeps(s: System, owner: Uuid)
    requires Inv(s)
    ensures Inv(Next(s, ClaimOutbox(owner)))
  {
    ClaimQuiet(s.redis, owner);
    var n := ClaimStep(s, owner);
    if owner !in s.workers {
      assert WorkersOk(n.store.tables, n.redis, n.workers);
      QuietKeeps(s, n);
    }
  }

  lemma ReclaimKeeps(s: System, owner: Uuid)
    requires Inv(s)
    ensures Inv(Next(s, ReclaimOutbox(owner)))
  {
    QuietKeeps(s, ReclaimStep(s, owner));
  }

  lemma GiveBackQuiet(k: Redis, owner: Uuid, r: Record)
    requires OutboxOk(k)
    ensures Quiet(k, Retry(k, owner, r)) && OutboxOk(Retry(k, owner, r))
    ensures Quiet(k, Block(k, owner, r)) && OutboxOk(Block(k, owner, r))
  {
  }

  lemma CleanUpKeeps(s: System, owner: Uuid)
    requires Inv(s)
    ensures Inv(Next(s, Step.CleanUp(owner)))
  {
    if owner in s.workers && s.workers[owner].Failed? {
      GiveBackQuiet(s.redis, owner, s.workers[owner].record);
      QuietKeeps(s, CleanUpStep(s, owner));
    }
  }

  lemma PauseKeeps(s: System, generation: Uuid)
    requires Inv(s)
    ensures Inv(Next(s, PausePlay(generation)))
  {
    QuietKeeps(s, s.(redis := Pause(s.redis, generation)));
  }

  lemma ResumeKeeps(s: System, generation: Uuid)
    requires Inv(s)
    ensures Inv(Next(s, ResumePlay(generation)))
  {
    QuietKeeps(s, s.(redis := Resume(s.redis, generation)));
  }

  lemma CrashKeeps(s: System, owner: Uuid)
    requires Inv(s)
    ensures Inv(Next(s, CrashWorker(owner)))
  {
    QuietKeeps(s, s.(workers := s.workers - {owner}));
  }

  lemma LeaseExpiryKeeps(s: System)
    requires Inv(s)
    ensures Inv(Next(s, ExpireLease))
  {
    QuietKeeps(s, s.(redis := s.redis.(lease := None)));
  }

  lemma RuntimeExpiryKeeps(s: System)
    requires Inv(s)
    ensures Inv(Next(s, ExpireRuntime))
  {
    QuietKeeps(s, s.(redis := s.redis.(play := None)));
  }

  lemma CloseGateKeeps(s: System)
    requires Inv(s)
    ensures Inv(Next(s, CloseGate))
  {
    QuietKeeps(s, s.(redis := Quarantined(s.redis)));
  }

  lemma AddSaveKeeps(s: System, n: nat, p: SavePoint)
    requires Inv(s)
    ensures Inv(Next(s, AddSave(n, p)))
  {
  }

  lemma FlushKeeps(s: System, b: Boundary)
    requires Inv(s)
    ensures Inv(Next(s, FlushBoundary(b)))
  {
    QuietKeeps(s, s.(redis := Flushed(s.redis, b)));
  }

  // ---------------------------------------------------------------- committing

  lemma CommitLogs(s: System, r: Record, boundary: bool)
    requires Inv(s) && CommitAdmitted(s.redis, r) && H.EventsOk(r)
    ensures LogsOk(s.store.tables, Commit(s.redis, r, boundary), CommitStep(s, r, boundary).committed)
  {
    var l, k, n, c := s.store.tables, s.redis, Commit(s.redis, r, boundary), CommitStep(s, r, boundary).committed;
    forall id | id in c ensures LogOk(l, n, c[id], id) {
      assert LogOk(l, k, s.committed[id], id);
    }
  }

  lemma CommitKeeps(s: System, r: Record, boundary: bool)
    requires Inv(s)
    ensures Inv(Next(s, CommitAction(r, boundary)))
  {
    if CommitAdmitted(s.redis, r) && H.EventsOk(r) {
      CommitLogs(s, r, boundary);
    }
  }

  // ---------------------------------------------------------------- archiving

  lemma GrowsLedger(l: Tables, m: Tables, k: Redis, workers: map<Uuid, Stage>)
    requires H.Grows(l, m) && WorkersOk(l, k, workers)
    ensures WorkersOk(m, k, workers)
  {
  }

  predicate SameStatuses(l: Tables, m: Tables) {
    forall id :: id in l.timelines && id in m.timelines ==> m.timelines[id].status == l.timelines[id].status
  }

  lemma GrowsOps(s: Store, m: Tables)
    requires OpsOk(s) && H.Grows(s.tables, m) && SameStatuses(s.tables, m)
    ensures OpsOk(s.(tables := m))
  {
    var n := s.(tables := m);
    forall id | id in n.ops ensures OpOk(n.tables.timelines, n.ops[id]) {
      assert OpOk(s.tables.timelines, s.ops[id]);
    }
  }

  lemma GrowsControl(s: Store, m: Tables, k: Redis, g: Learned)
    requires ControlOk(s, k, g) && MarksOk(s.tables, k) && H.Grows(s.tables, m) && SameStatuses(s.tables, m)
    ensures ControlOk(s.(tables := m), k, g)
  {
    GrowsOps(s, m);
  }

  lemma ReplayChangesNothing(l: Tables, r: Record)
    requires H.Archived(l, r).1 != Ok(true)
    ensures H.Archived(l, r).0 == l
  {
  }

  lemma InsertOtherLog(l: Tables, k: Redis, log: seq<Record>, id: Uuid, r: Record)
    requires r.timeline in l.timelines && id in l.timelines && LogOk(l, k, log, id)
    requires id != r.timeline || r.position == 0
    requires (r.timeline, r.position) !in l.records
    ensures LogOk(H.Insert(l, r), k, log, id)
  {
    assert OwnLog(H.Insert(l, r), id) == OwnLog(l, id);
  }

  lemma InsertOwnLog(l: Tables, k: Redis, log: seq<Record>, r: Record)
    requires r.timeline in l.timelines && LogOk(l, k, log, r.timeline)
    requires r.position == l.timelines[r.timeline].durable + 1
    requires k.pending.Some? && k.pending.value.record == r && k.meta.Some? && OutboxIntact(k)
    ensures LogOk(H.Insert(l, r), k, log, r.timeline)
  {
    assert OwnLog(H.Insert(l, r), r.timeline) == OwnLog(l, r.timeline) + [r];
  }

  /** Archiving the pending record moves it from the extra slot to the end of the ledger. */
  lemma InsertLogs(l: Tables, k: Redis, committed: map<Uuid, seq<Record>>, r: Record)
    requires LogsOk(l, k, committed) && H.Archived(l, r).1 == Ok(true)
    requires r.position == 0 || (k.pending.Some? && k.pending.value.record == r && k.meta.Some? && OutboxIntact(k))
    ensures LogsOk(H.Insert(l, r), k, committed)
  {
    var m := H.Insert(l, r);
    forall id | id in committed ensures LogOk(m, k, committed[id], id) {
      assert LogOk(l, k, committed[id], id);
      if id != r.timeline || r.position == 0 {
        InsertOtherLog(l, k, committed[id], id, r);
      } else {
        InsertOwnLog(l, k, committed[id], r);
      }
    }
  }

  lemma ArchivedLogs(l: Tables, k: Redis, committed: map<Uuid, seq<Record>>, r: Record)
    requires LogsOk(l, k, committed) && H.Inv(l)
    requires r.position == 0 || InLedger(l, r) || (k.pending.Some? && k.pending.value.record == r && k.meta.Some? && OutboxIntact(k))
    ensures LogsOk(H.Archived(l, r).0, k, committed)
    ensures H.Archived(l, r).0 == if H.Archived(l, r).1 == Ok(true) then H.Insert(l, r) else l
  {
    if InLedger(l, r) {
      assert H.SameIdentity(l.records[(r.timeline, r.position)], r);
    }
    if H.Archived(l, r).1 == Ok(true) {
      InsertLogs(l, k, committed, r);
    } else {
      ReplayChangesNothing(l, r);
    }
  }

  /** One archive transaction, by anyone who may hold `r`, keeps everything but the workers' stages. */
  lemma ArchivedKeeps(s: System, r: Record)
    requires Inv(s)
    requires r.position == 0 || InLedger(s.store.tables, r) || (s.redis.pending.Some? && s.redis.pending.value.record == r)
    ensures Inv(s.(store := s.store.(tables := H.Archived(s.store.tables, r).0)))
  {
    var l := s.store.tables;
    var m := H.Archived(l, r).0;
    H.ArchiveKeepsInv(l, r);
    ArchivedLogs(l, s.redis, s.committed, r);
    GrowsLedger(l, m, s.redis, s.workers);
    GrowsControl(s.store, m, s.redis, s.learned);
  }

  /** The ledger may grow under a worker's claim, but its record is the pending one or already archived. */
  lemma ArchiveKeeps(s: System, owner: Uuid, lost: bool)
    requires Inv(s)
    ensures Inv(Next(s, ArchiveClaimed(owner, lost)))
  {
    if owner in s.workers && s.workers[owner].Holding? {
      var r := s.workers[owner].record;
      var n := ArchiveStep(s, owner, lost);
      if CapabilityArchiveError(s.store, r).None? && Sealed(r) {
        ArchivedKeeps(s, r);
      }
      assert Inv(s.(store := n.store));
      ArchivedIsStored(s, owner, lost);
      StageAdvances(s.(store := n.store), owner, n.workers[owner]);
    }
  }

  lemma StageAdvances(s: System, owner: Uuid, stage: Stage)
    requires Inv(s) && owner in s.workers && stage.record == s.workers[owner].record
    requires stage.Stored? ==> InLedger(s.store.tables, stage.record)
    requires stage.Confirmed? ==> InLedger(s.store.tables, stage.record)
    ensures Inv(s.(workers := s.workers[owner := stage]))
  {
  }

  /** A transaction that reports success has the record in the ledger, inserted or replayed. */
  lemma ArchivedIsStored(s: System, owner: Uuid, lost: bool)
    requires Inv(s) && owner in s.workers && s.workers[owner].Holding?
    ensures ArchiveStep(s, owner, lost).workers[owner].Stored? ==>
              InLedger(ArchiveStep(s, owner, lost).store.tables, s.workers[owner].record)
  {
    var r, l := s.workers[owner].record, s.store.tables;
    if H.Archived(l, r).1 == Ok(false) {
      var key :| key in l.records && H.SameIdentity(l.records[key], r);
      assert l.records[key] == r;
      assert H.RowOk(l, key.0, key.1);
    }
  }

  /** An acknowledged record is in the ledger, so the MySQL mark already stands at the Redis head. */
  lemma AcknowledgeMarks(l: Tables, k: Redis, owner: Uuid, r: Record)
    requires MarksOk(l, k) && InLedger(l, r) && H.Inv(l) && Acknowledge(k, owner, r).1.Acked?
    ensures MarksOk(l, Acknowledge(k, owner, r).0)
    ensures l.timelines[r.timeline].durable == k.meta.value.head
  {
    assert H.RowOk(l, r.timeline, r.position);
  }

  lemma AcknowledgeLogs(l: Tables, k: Redis, committed: map<Uuid, seq<Record>>, owner: Uuid, r: Record)
    requires LogsOk(l, k, committed) && r.timeline in l.timelines && Acknowledge(k, owner, r).1.Acked?
    requires l.timelines[r.timeline].durable == k.meta.value.head
    ensures LogsOk(l, Acknowledge(k, owner, r).0, committed)
  {
    var n := Acknowledge(k, owner, r).0;
    forall id | id in committed ensures LogOk(l, n, committed[id], id) {
      assert LogOk(l, k, committed[id], id);
    }
  }

  lemma AcknowledgeOutbox(k: Redis, owner: Uuid, r: Record)
    requires OutboxOk(k)
    ensures OutboxOk(Acknowledge(k, owner, r).0)
    ensures var n := Acknowledge(k, owner, r).0; n == k || (Acknowledge(k, owner, r).1.Acked? && k.pending.Some? && k.pending.value.record == r)
  {
  }

  lemma AcknowledgeControl(s: Store, k: Redis, g: Learned, owner: Uuid, r: Record)
    requires ControlOk(s, k, g) && Acknowledge(k, owner, r).1.Acked?
    ensures ControlOk(s, Acknowledge(k, owner, r).0, g)
  {
  }

  lemma AcknowledgeWorkers(l: Tables, k: Redis, workers: map<Uuid, Stage>, owner: Uuid, r: Record)
    requires WorkersOk(l, k, workers) && InLedger(l, r) && Acknowledge(k, owner, r).1.Acked?
    ensures WorkersOk(l, Acknowledge(k, owner, r).0, workers)
  {
  }

  /** A snapshot starts to wait only with a record that is in the ledger. */
  lemma AcknowledgeBoundaries(l: Tables, k: Redis, owner: Uuid, r: Record)
    requires BoundariesOk(l, k) && InLedger(l, r) && PendingShape(r) && !r.kind.LegacyBaseline?
    requires Acknowledge(k, owner, r).1.Acked? && k.pending.Some? && k.pending.value.record == r
    ensures BoundariesOk(l, Acknowledge(k, owner, r).0)
  {
  }

  lemma AcknowledgeKeeps(s: System, owner: Uuid, lost: bool)
    requires Inv(s)
    ensures Inv(Next(s, AcknowledgeStored(owner, lost)))
  {
    if owner in s.workers && s.workers[owner].Confirmed? {
      var r, l := s.workers[owner].record, s.store.tables;
      AcknowledgeOutbox(s.redis, owner, r);
      assert InLedger(l, r);
      if Acknowledge(s.redis, owner, r).1.Acked? {
        AcknowledgeMarks(l, s.redis, owner, r);
        AcknowledgeLogs(l, s.redis, s.committed, owner, r);
        AcknowledgeControl(s.store, s.redis, s.learned, owner, r);
        AcknowledgeWorkers(l, s.redis, s.workers, owner, r);
        AcknowledgeBoundaries(l, s.redis, owner, r);
      }
    }
  }

  // ---------------------------------------------------------------- control operations: MySQL steps

  predicate Creates(s: Store, id: Uuid, op: Operation, target: Option<Timeline>) {
    && WellBuilt(op, target)
    && id !in s.ops
    && Prepare(s, id, op, target, op.image.sourceRevision).1.Ok?
  }

  lemma PreparedTables(s: Store, id: Uuid, op: Operation, target: Option<Timeline>)
    requires H.Inv(s.tables) && Creates(s, id, op, target)
    ensures var n := Prepare(s, id, op, target, op.image.sourceRevision).0;
      && H.Inv(n.tables) && H.Grows(s.tables, n.tables) && n.tables.records == s.tables.records
      && n.tables.timelines == (if target.Some? then s.tables.timelines[op.target.value := target.value.(status := Prepared)] else s.tables.timelines)
      && (target.Some? ==> op.target.value !in s.tables.timelines)
  {
    if target.Some? {
      var t := target.value.(status := Prepared);
      H.BranchKeepsInv(s.tables, op.target.value, t);
      assert H.BranchAdmitted(s.tables, op.target.value, t);
    }
  }

  lemma PreparedOps(s: Store, k: Redis, id: Uuid, op: Operation, target: Option<Timeline>)
    requires H.Inv(s.tables) && OpsOk(s) && StateOk(s, k) && Creates(s, id, op, target)
    ensures OpsOk(Prepare(s, id, op, target, op.image.sourceRevision).0)
  {
    var n := Prepare(s, id, op, target, op.image.sourceRevision).0;
    PreparedTables(s, id, op, target);
    forall o | o in n.ops ensures OpOk(n.tables.timelines, n.ops[o]) {
      if o != id {
        assert OpOk(s.tables.timelines, s.ops[o]);
      }
    }
  }

  lemma PreparedState(s: Store, k: Redis, id: Uuid, op: Operation, target: Option<Timeline>)
    requires OpsOk(s) && TokenOk(s, k) && StateOk(s, k) && Creates(s, id, op, target)
    ensures StateOk(Prepare(s, id, op, target, op.image.sourceRevision).0, k)
  {
  }

  lemma PreparedToken(s: Store, k: Redis, id: Uuid, op: Operation, target: Option<Timeline>)
    requires OpsOk(s) && TokenOk(s, k) && Creates(s, id, op, target)
    ensures TokenOk(Prepare(s, id, op, target, op.image.sourceRevision).0, k)
  {
  }

  lemma PreparedRoot(s: Store, k: Redis, id: Uuid, op: Operation, target: Option<Timeline>)
    requires MarksOk(s.tables, k) && TokenOk(s, k) && RootOk(s, k) && Creates(s, id, op, target)
    ensures RootOk(Prepare(s, id, op, target, op.image.sourceRevision).0, k)
  {
  }

  lemma PreparedControl(s: Store, k: Redis, g: Learned, id: Uuid, op: Operation, target: Option<Timeline>)
    requires H.Inv(s.tables) && MarksOk(s.tables, k) && ControlOk(s, k, g) && Creates(s, id, op, target)
    ensures ControlOk(Prepare(s, id, op, target, op.image.sourceRevision).0, k, g)
  {
    PreparedOps(s, k, id, op, target);
    PreparedState(s, k, id, op, target);
    PreparedToken(s, k, id, op, target);
    PreparedRoot(s, k, id, op, target);
  }

  /** New timelines start with an empty log; the others are untouched. */
  lemma NewTimelineLogs(l: Tables, m: Tables, k: Redis, committed: map<Uuid, seq<Record>>, id: Uuid, t: Timeline)
    requires LogsOk(l, k, committed) && MarksOk(l, k)
    requires id !in l.timelines && t.durable == t.fork
    requires m.records == l.records && m.timelines == l.timelines[id := t]
    ensures LogsOk(m, k, committed[id := []]) && MarksOk(m, k)
  {
    var grown := committed[id := []];
    forall o | o in grown ensures LogOk(m, k, grown[o], o) {
      if o != id {
        assert LogOk(l, k, committed[o], o);
        assert OwnLog(m, o) == OwnLog(l, o);
      }
    }
  }

  lemma PrepareChanges(s: System, id: Uuid, op: Operation, target: Option<Timeline>)
    requires H.Inv(s.store.tables) && LogsOk(s.store.tables, s.redis, s.committed)
    requires OpsOk(s.store)
    ensures var store := Prepare(s.store, id, op, target, op.image.sourceRevision).0;
            Next(s, PrepareIntent(id, op, target)) ==
              if !Creates(s.store, id, op, target) then s
              else if target.None? then s.(store := store)
              else s.(store := store, committed := s.committed[op.target.value := []])
  {
    if Creates(s.store, id, op, target) {
      PreparedTables(s.store, id, op, target);
    }
  }

  lemma PrepareKeeps(s: System, id: Uuid, op: Operation, target: Option<Timeline>)
    requires Inv(s)
    ensures Inv(Next(s, PrepareIntent(id, op, target)))
  {
    PrepareChanges(s, id, op, target);
    if Creates(s.store, id, op, target) {
      var store := Prepare(s.store, id, op, target, op.image.sourceRevision).0;
      PreparedTables(s.store, id, op, target);
      PreparedControl(s.store, s.redis, s.learned, id, op, target);
      GrowsLedger(s.store.tables, store.tables, s.redis, s.workers);
      if target.Some? {
        NewTimelineLogs(s.store.tables, store.tables, s.redis, s.committed, op.target.value, target.value.(status := Prepared));
      }
    }
  }

  lemma SettledLog(l: Tables, k: Redis, log: seq<Record>, id: Uuid, to: TimelineStatus, o: Uuid)
    requires o in l.timelines && LogOk(l, k, log, o)
    ensures LogOk(H.WithStatus(l, id, to), k, log, o)
  {
    assert OwnLog(H.WithStatus(l, id, to), o) == OwnLog(l, o);
  }

  /** Settling the target of an operation touches nothing but that timeline's status. */
  lemma SettledLogs(l: Tables, k: Redis, committed: map<Uuid, seq<Record>>, id: Uuid, to: TimelineStatus)
    requires LogsOk(l, k, committed)
    ensures LogsOk(H.WithStatus(l, id, to), k, committed)
  {
    var m := H.WithStatus(l, id, to);
    forall o | o in committed ensures LogOk(m, k, committed[o], o) {
      assert LogOk(l, k, committed[o], o);
      SettledLog(l, k, committed[o], id, to, o);
    }
  }

  lemma SettledMarks(l: Tables, k: Redis, id: Uuid, to: TimelineStatus)
    requires MarksOk(l, k)
    ensures MarksOk(H.WithStatus(l, id, to), k)
  {
  }

  /** The service advances an intent only after the matching Redis step has been seen to succeed. */
  predicate AdvanceEarned(s: System, id: Uuid, from: Phase, to: Phase) {
    || (from.PreparedPhase? && to.RedisApplied? && id in s.learned.applied)
    || (from.RedisApplied? && to.Completed? && id in s.learned.inspected)
    || (from.PreparedPhase? && to.AbortedPhase? && id in s.learned.startAborted)
  }

  lemma AdvancedOps(s: Store, id: Uuid, from: Phase, to: Phase)
    requires OpsOk(s) && Advance(s, id, from, to).1.None?
    requires to.RedisApplied? || to.Completed? || (to.AbortedPhase? && s.ops[id].kind.StartOp?)
    ensures OpsOk(Advance(s, id, from, to).0)
  {
    var n := Advance(s, id, from, to).0;
    forall o | o in n.ops ensures OpOk(n.tables.timelines, n.ops[o]) {
      assert OpOk(s.tables.timelines, s.ops[o]) && OpOk(s.tables.timelines, s.ops[id]);
    }
  }

  lemma AdvancedToken(s: System, id: Uuid, from: Phase, to: Phase)
    requires Inv(s) && AdvanceEarned(s, id, from, to) && Advance(s.store, id, from, to).1.None?
    ensures TokenOk(Advance(s.store, id, from, to).0, s.redis)
  {
    assert id in s.store.ops ==> OpOk(s.store.tables.timelines, s.store.ops[id]);
  }

  lemma AdvancedState(s: System, id: Uuid, from: Phase, to: Phase)
    requires Inv(s) && AdvanceEarned(s, id, from, to) && Advance(s.store, id, from, to).1.None?
    ensures StateOk(Advance(s.store, id, from, to).0, s.redis)
  {
    if to.RedisApplied? {
      AppliedState(s, id);
    } else {
      SettledState(s, id, from, to);
    }
  }

  lemma AppliedState(s: System, id: Uuid)
    requires Inv(s) && id in s.learned.applied && Advance(s.store, id, PreparedPhase, RedisApplied).1.None?
    ensures StateOk(Advance(s.store, id, PreparedPhase, RedisApplied).0, s.redis)
  {
    assert OpOk(s.store.tables.timelines, s.store.ops[id]);
  }

  lemma SettledState(s: System, id: Uuid, from: Phase, to: Phase)
    requires Inv(s) && AdvanceEarned(s, id, from, to) && !to.RedisApplied? && Advance(s.store, id, from, to).1.None?
    ensures StateOk(Advance(s.store, id, from, to).0, s.redis)
  {
    assert OpOk(s.store.tables.timelines, s.store.ops[id]);
  }

  lemma AdvancedRoot(s: System, id: Uuid, from: Phase, to: Phase)
    requires Inv(s) && AdvanceEarned(s, id, from, to) && Advance(s.store, id, from, to).1.None?
    ensures RootOk(Advance(s.store, id, from, to).0, s.redis)
  {
    assert OpOk(s.store.tables.timelines, s.store.ops[id]);
  }

  lemma AdvanceKeeps(s: System, id: Uuid, from: Phase, to: Phase)
    requires Inv(s) && AdvanceEarned(s, id, from, to)
    ensures Inv(s.(store := Advance(s.store, id, from, to).0))
  {
    var (n, error) := Advance(s.store, id, from, to);
    if error.None? && s.store.ops[id].phase == from {
      var op := s.store.ops[id];
      assert OpOk(s.store.tables.timelines, s.store.ops[id]);
      AdvancedOps(s.store, id, from, to);
      AdvancedToken(s, id, from, to);
      AdvancedState(s, id, from, to);
      AdvancedRoot(s, id, from, to);
      if n.tables != s.store.tables {
        var status := if to.Completed? then Active else Aborted;
        assert n.tables == H.WithStatus(s.store.tables, op.target.value, status);
        H.SettleKeepsInv(s.store.tables, op.target.value, status);
        SettledLogs(s.store.tables, s.redis, s.committed, op.target.value, status);
        SettledMarks(s.store.tables, s.redis, op.target.value, status);
        GrowsLedger(s.store.tables, n.tables, s.redis, s.workers);
      }
    } else {
      assert n == s.store;
    }
  }

  /** The three steps that move an intent along in MySQL. */
  lemma IntentKeeps(s: System, step: Step)
    requires Inv(s) && (step.AbortIntent? || step.RecordApplied? || step.CompleteIntent?)
    ensures Inv(Next(s, step))
  {
    if Earns(s, step) {
      AdvanceKeeps(s, step.id, if step.CompleteIntent? then RedisApplied else PreparedPhase, PhaseAfter(step));
    }
    IntentChanges(s, step);
  }

  function PhaseAfter(step: Step): Phase {
    if step.AbortIntent? then AbortedPhase else if step.RecordApplied? then RedisApplied else Completed
  }

  predicate Earns(s: System, step: Step)
    requires step.AbortIntent? || step.RecordApplied? || step.CompleteIntent?
  {
    step.id in (if step.AbortIntent? then s.learned.startAborted else if step.RecordApplied? then s.learned.applied else s.learned.inspected)
  }

  lemma IntentChanges(s: System, step: Step)
    requires step.AbortIntent? || step.RecordApplied? || step.CompleteIntent?
    ensures var from := if step.CompleteIntent? then RedisApplied else PreparedPhase;
      || Next(s, step) == s
      || (Earns(s, step) && Next(s, step) == s.(store := Advance(s.store, step.id, from, PhaseAfter(step)).0))
  {
  }

  lemma BlockedOps(s: Store, id: Uuid)
    requires OpsOk(s) && id in s.ops && Advance(s, id, s.ops[id].phase, BlockedPhase).1.None?
    ensures OpsOk(Advance(s, id, s.ops[id].phase, BlockedPhase).0)
  {
    var n := Advance(s, id, s.ops[id].phase, BlockedPhase).0;
    forall o | o in n.ops ensures OpOk(n.tables.timelines, n.ops[o]) {
      assert OpOk(s.tables.timelines, s.ops[o]);
    }
  }

  lemma BlockedToken(s: System, id: Uuid)
    requires Inv(s) && id in s.store.ops && Advance(s.store, id, s.store.ops[id].phase, BlockedPhase).1.None?
    ensures TokenOk(Advance(s.store, id, s.store.ops[id].phase, BlockedPhase).0, s.redis)
  {
  }

  lemma BlockedState(s: System, id: Uuid)
    requires Inv(s) && id in s.store.ops && Advance(s.store, id, s.store.ops[id].phase, BlockedPhase).1.None?
    ensures StateOk(Advance(s.store, id, s.store.ops[id].phase, BlockedPhase).0, s.redis)
  {
  }

  /** Giving an intent up leaves both stores consistent, whatever Redis has done about it so far. */
  lemma BlockKeeps(s: System, id: Uuid)
    requires Inv(s)
    ensures Inv(Next(s, BlockIntent(id)))
  {
    if id in s.store.ops && Advance(s.store, id, s.store.ops[id].phase, BlockedPhase).1.None? {
      BlockedControl(s, id);
      assert Next(s, BlockIntent(id)).store.tables == s.store.tables;
    }
  }

  lemma BlockedControl(s: System, id: Uuid)
    requires Inv(s) && id in s.store.ops && Advance(s.store, id, s.store.ops[id].phase, BlockedPhase).1.None?
    ensures ControlOk(Advance(s.store, id, s.store.ops[id].phase, BlockedPhase).0, s.redis, s.learned)
  {
    BlockedOps(s.store, id);
    BlockedToken(s, id);
    BlockedState(s, id);
    BlockedRoot(s, id);
  }

  lemma BlockedRoot(s: System, id: Uuid)
    requires Inv(s) && id in s.store.ops && Advance(s.store, id, s.store.ops[id].phase, BlockedPhase).1.None?
    ensures RootOk(Advance(s.store, id, s.store.ops[id].phase, BlockedPhase).0, s.redis)
  {
  }

  /** Completion counts each phase once: the room ends up at the revision its image promised. */
  lemma CompletionRevision(s: System, id: Uuid)
    requires Inv(s) && id in s.learned.inspected && id in s.store.ops && !s.store.ops[id].phase.Completed?
    requires Advance(s.store, id, RedisApplied, Completed).1.None?
    ensures var n := Advance(s.store, id, RedisApplied, Completed).0;
      && n.state.value.revision == s.store.ops[id].image.targetRevision
      && n.state.value.operation.None?
      && (if s.store.ops[id].kind.EndOp? then n.state.value.status.EndedState?
          else n.state.value.status.ReadyState? && n.state.value.active == s.store.ops[id].target)
  {
    assert OpOk(s.store.tables.timelines, s.store.ops[id]);
  }

  predicate BaselineDue(s: System, id: Uuid) {
    && id in s.store.ops && ImageReadable(s.store.ops[id])
    && s.store.ops[id].phase.Completed? && s.store.ops[id].kind.LoadOp? && s.store.ops[id].image.boundary.Some?
  }

  lemma BaselineChanges(s: System, id: Uuid)
    ensures Next(s, Step.ArchiveBaseline(id)) ==
      if BaselineDue(s, id)
      then s.(store := s.store.(tables := H.Archived(s.store.tables, s.store.ops[id].image.boundary.value).0)) else s
  {
  }

  lemma BaselineIsZero(s: System, id: Uuid)
    requires OpsOk(s.store) && BaselineDue(s, id)
    ensures s.store.ops[id].image.boundary.value.position == 0
  {
    assert OpOk(s.store.tables.timelines, s.store.ops[id]);
  }

  lemma BaselineKeeps(s: System, id: Uuid)
    requires Inv(s)
    ensures Inv(Next(s, Step.ArchiveBaseline(id)))
  {
    BaselineChanges(s, id);
    if BaselineDue(s, id) {
      BaselineIsZero(s, id);
      ArchivedKeeps(s, s.store.ops[id].image.boundary.value);
    }
  }

  // ---------------------------------------------------------------- control operations: Redis steps

  lemma InitializeControl(s: System, id: Uuid)
    requires Inv(s) && id in s.store.ops && s.store.ops[id].kind.StartOp? && ImageReadable(s.store.ops[id])
    requires Initialize(s.redis, id, s.store.ops[id]).1.Done?
    ensures ControlOk(s.store, Initialize(s.redis, id, s.store.ops[id]).0, s.learned)
    ensures OutboxOk(Initialize(s.redis, id, s.store.ops[id]).0)
    ensures MarksOk(s.store.tables, Initialize(s.redis, id, s.store.ops[id]).0)
  {
    assert OpOk(s.store.tables.timelines, s.store.ops[id]);
    var op := s.store.ops[id];
    assert H.TimelineOk(s.store.tables, op.target.value);
    assert op.phase.PreparedPhase? || op.phase.BlockedPhase?;
  }

  /** With no body pending there is nothing outside the ledgers, whichever timeline the metadata names. */
  lemma EmptyOutboxLogs(l: Tables, k: Redis, n: Redis, committed: map<Uuid, seq<Record>>)
    requires LogsOk(l, k, committed) && k.pending.None? && n.pending.None?
    ensures LogsOk(l, n, committed)
  {
    forall o | o in committed ensures LogOk(l, n, committed[o], o) {
      assert LogOk(l, k, committed[o], o);
    }
  }

  lemma InitializeKeeps(s: System, id: Uuid)
    requires Inv(s)
    ensures Inv(Next(s, InitializeStart(id)))
  {
    var n := Next(s, InitializeStart(id));
    if n.redis != s.redis {
      InitializeControl(s, id);
      EmptyOutboxLogs(s.store.tables, s.redis, n.redis, s.committed);
    }
  }

  lemma AbortedControl(s: System, id: Uuid)
    requires Inv(s) && id in s.store.ops && s.store.ops[id].kind.StartOp?
    requires AbortStart(s.redis, id, s.store.ops[id]).1.Done?
    ensures ControlOk(s.store, AbortStart(s.redis, id, s.store.ops[id]).0, s.learned)
  {
    assert OpOk(s.store.tables.timelines, s.store.ops[id]);
  }

  lemma AbortedLearned(k: Redis, id: Uuid, op: Operation)
    requires var r := AbortStart(k, id, op).1; r.Done? || r.Already?
    ensures var n := AbortStart(k, id, op).0;
      id in n.receipts || (TokenHeldBy(n, id) && n.control.Some? && n.control.value.op == id && n.control.value.phase.StartAborted?)
  {
  }

  /** Fencing and aborting a start leave the branch, its marks and the pending body alone. */
  predicate SameMarks(k: Redis, n: Redis) {
    && n.pending == k.pending && n.lease == k.lease
    && (k.meta.Some? <==> n.meta.Some?)
    && (k.meta.Some? ==>
          && n.meta.value.timeline == k.meta.value.timeline && n.meta.value.head == k.meta.value.head
          && n.meta.value.durable == k.meta.value.durable && n.meta.value.revision == k.meta.value.revision)
  }

  lemma SameMarksKeep(s: System, n: Redis)
    requires Inv(s) && SameMarks(s.redis, n)
    ensures MarksOk(s.store.tables, n) && LogsOk(s.store.tables, n, s.committed) && WorkersOk(s.store.tables, n, s.workers)
  {
    LogsFrame(s.store.tables, s.redis, n, s.committed);
  }

  lemma AbortQuiet(k: Redis, id: Uuid, op: Operation)
    requires OutboxOk(k)
    ensures SameMarks(k, AbortStart(k, id, op).0) && OutboxOk(AbortStart(k, id, op).0)
    ensures !AbortStart(k, id, op).1.Done? ==> AbortStart(k, id, op).0 == k
  {
  }

  lemma FenceQuiet(k: Redis, id: Uuid, op: Operation, fence: Uuid, recovery: bool)
    requires OutboxOk(k) && op.source.Some?
    ensures SameMarks(k, Fence(k, id, op, fence, recovery).0) && OutboxOk(Fence(k, id, op, fence, recovery).0)
    ensures !Fence(k, id, op, fence, recovery).1.Done? ==> Fence(k, id, op, fence, recovery).0 == k
  {
  }

  lemma AbortStepKeeps(s: System, id: Uuid)
    requires Inv(s) && id in s.store.ops && s.store.ops[id].kind.StartOp? && ImageReadable(s.store.ops[id])
    ensures Inv(s.(redis := AbortStart(s.redis, id, s.store.ops[id]).0))
  {
    AbortQuiet(s.redis, id, s.store.ops[id]);
    SameMarksKeep(s, AbortStart(s.redis, id, s.store.ops[id]).0);
    if AbortStart(s.redis, id, s.store.ops[id]).1.Done? {
      AbortedControl(s, id);
    }
  }

  lemma AbortChanges(s: System, id: Uuid)
    ensures Next(s, AbortRedisStart(id)) ==
            if id in s.store.ops && ImageReadable(s.store.ops[id]) && s.store.ops[id].kind.StartOp? then AbortRedisStep(s, id) else s
  {
  }

  lemma AbortRedisKeeps(s: System, id: Uuid)
    requires Inv(s)
    ensures Inv(Next(s, AbortRedisStart(id)))
  {
    AbortChanges(s, id);
    if id in s.store.ops && s.store.ops[id].kind.StartOp? && ImageReadable(s.store.ops[id]) {
      var (n, result) := AbortStart(s.redis, id, s.store.ops[id]);
      AbortStepKeeps(s, id);
      if result.Done? || result.Already? {
        AbortedLearned(s.redis, id, s.store.ops[id]);
        AbortedLearns(s, n, id);
      }
    }
  }

  lemma FencedControl(s: System, id: Uuid, fence: Uuid, recovery: bool)
    requires Inv(s) && id in s.store.ops && !s.store.ops[id].kind.StartOp? && ImageReadable(s.store.ops[id])
    requires Fence(s.redis, id, s.store.ops[id], fence, recovery).1.Done?
    ensures ControlOk(s.store, Fence(s.redis, id, s.store.ops[id], fence, recovery).0, s.learned)
  {
    assert OpOk(s.store.tables.timelines, s.store.ops[id]);
    assert s.store.ops[id].phase.PreparedPhase? || s.store.ops[id].phase.BlockedPhase?;
  }

  lemma FenceKeeps(s: System, id: Uuid, fence: Uuid, recovery: bool)
    requires Inv(s)
    ensures Inv(Next(s, FenceRoom(id, fence, recovery)))
  {
    if id in s.store.ops && !s.store.ops[id].kind.StartOp? && ImageReadable(s.store.ops[id]) {
      var (n, result) := Fence(s.redis, id, s.store.ops[id], fence, recovery);
      FenceQuiet(s.redis, id, s.store.ops[id], fence, recovery);
      SameMarksKeep(s, n);
      if result.Done? {
        FencedControl(s, id, fence, recovery);
      }
    }
  }

  lemma InspectKeeps(s: System, id: Uuid)
    requires Inv(s)
    ensures Inv(Next(s, InspectControl(id)))
  {
  }

  /** The operation holds the token and may install its image now. */
  predicate Installs(s: System, id: Uuid, fence: Uuid, recovery: bool) {
    && id in s.store.ops && ImageReadable(s.store.ops[id])
    && Apply(s.redis, id, s.store.ops[id], fence, recovery).1.Done?
  }

  lemma InstalledOutbox(k: Redis, id: Uuid, op: Operation, fence: Uuid, recovery: bool)
    requires OutboxOk(k) && op.image.targetRevision <= MAX_REDIS_POSITION && (!op.kind.EndOp? ==> op.target.Some?) && Apply(k, id, op, fence, recovery).1.Done?
    ensures var n := Apply(k, id, op, fence, recovery).0; OutboxOk(n) && k.pending.None? && n.pending.None? && n.receipts == k.receipts
  {
  }

  /** The target is still empty: either not published yet, or already installed under this very token. */
  lemma TargetUntouched(s: System, id: Uuid)
    requires Inv(s) && id in s.store.ops && Holds(s.redis, id, s.store.ops[id])
    requires s.redis.control.value.phase.Fenced? || s.redis.control.value.phase.Applied?
    requires !s.store.ops[id].kind.EndOp?
    ensures s.store.ops[id].target.Some? && s.store.ops[id].target.value in s.store.tables.timelines
    ensures s.store.tables.timelines[s.store.ops[id].target.value].durable == s.store.ops[id].image.position
  {
    var op := s.store.ops[id];
    assert OpOk(s.store.tables.timelines, op);
    assert H.TimelineOk(s.store.tables, op.target.value);
  }

  lemma InstalledMarks(s: System, id: Uuid, fence: Uuid, recovery: bool)
    requires Inv(s) && Installs(s, id, fence, recovery)
    ensures MarksOk(s.store.tables, Apply(s.redis, id, s.store.ops[id], fence, recovery).0)
  {
    if !s.store.ops[id].kind.EndOp? {
      TargetUntouched(s, id);
    }
  }

  lemma InstalledToken(s: System, id: Uuid, fence: Uuid, recovery: bool)
    requires Inv(s) && Installs(s, id, fence, recovery)
    ensures TokenOk(s.store, Apply(s.redis, id, s.store.ops[id], fence, recovery).0)
    ensures AppliedBy(Apply(s.redis, id, s.store.ops[id], fence, recovery).0, id)
  {
    assert OpOk(s.store.tables.timelines, s.store.ops[id]);
    InstalledOutbox(s.redis, id, s.store.ops[id], fence, recovery);
  }

  lemma InstalledState(s: System, id: Uuid, fence: Uuid, recovery: bool)
    requires Inv(s) && Installs(s, id, fence, recovery)
    ensures StateOk(s.store, Apply(s.redis, id, s.store.ops[id], fence, recovery).0)
  {
    assert OpOk(s.store.tables.timelines, s.store.ops[id]);
    InstalledOutbox(s.redis, id, s.store.ops[id], fence, recovery);
  }

  lemma InstalledRoot(s: System, id: Uuid, fence: Uuid, recovery: bool)
    requires Inv(s) && Installs(s, id, fence, recovery)
    ensures RootOk(s.store, Apply(s.redis, id, s.store.ops[id], fence, recovery).0)
    ensures LearnedOk(s.store, Apply(s.redis, id, s.store.ops[id], fence, recovery).0, s.learned)
  {
    assert OpOk(s.store.tables.timelines, s.store.ops[id]);
  }

  lemma InstalledWorkers(s: System, id: Uuid, fence: Uuid, recovery: bool)
    requires Inv(s) && Installs(s, id, fence, recovery)
    ensures WorkersOk(s.store.tables, Apply(s.redis, id, s.store.ops[id], fence, recovery).0, s.workers)
  {
    assert OpOk(s.store.tables.timelines, s.store.ops[id]);
    InstalledOutbox(s.redis, id, s.store.ops[id], fence, recovery);
  }

  lemma InstalledKeeps(s: System, id: Uuid, fence: Uuid, recovery: bool)
    requires Inv(s) && Installs(s, id, fence, recovery)
    ensures Inv(s.(redis := Apply(s.redis, id, s.store.ops[id], fence, recovery).0))
  {
    assert OpOk(s.store.tables.timelines, s.store.ops[id]);
    InstalledOutbox(s.redis, id, s.store.ops[id], fence, recovery);
    InstalledMarks(s, id, fence, recovery);
    InstalledToken(s, id, fence, recovery);
    InstalledState(s, id, fence, recovery);
    InstalledRoot(s, id, fence, recovery);
    InstalledWorkers(s, id, fence, recovery);
    EmptyOutboxLogs(s.store.tables, s.redis, Apply(s.redis, id, s.store.ops[id], fence, recovery).0, s.committed);
  }

  /** A processor told that Apply succeeded can rely on it: applied under the token, or long finished. */
  lemma ApplyReply(k: Redis, id: Uuid, op: Operation, fence: Uuid, recovery: bool)
    requires !op.kind.EndOp? ==> op.target.Some?
    requires var r := Apply(k, id, op, fence, recovery).1; r.Done? || r.Already?
    ensures id in k.receipts || AppliedBy(Apply(k, id, op, fence, recovery).0, id)
    ensures Apply(k, id, op, fence, recovery).0.receipts == k.receipts
    ensures !Apply(k, id, op, fence, recovery).1.Done? ==> Apply(k, id, op, fence, recovery).0 == k
  {
  }

  /** Only a call that installs the image changes any key. */
  lemma ApplyUnchanged(k: Redis, id: Uuid, op: Operation, fence: Uuid, recovery: bool)
    requires !op.kind.EndOp? ==> op.target.Some?
    ensures Apply(k, id, op, fence, recovery).1.Done? || Apply(k, id, op, fence, recovery).0 == k
  {
  }

  lemma AppliedKeeps(s: System, id: Uuid, fence: Uuid, recovery: bool)
    requires Inv(s) && id in s.store.ops && ImageReadable(s.store.ops[id])
    ensures Inv(s.(redis := Apply(s.redis, id, s.store.ops[id], fence, recovery).0))
  {
    if Apply(s.redis, id, s.store.ops[id], fence, recovery).1.Done? {
      InstalledKeeps(s, id, fence, recovery);
    } else {
      ApplyUnchanged(s.redis, id, s.store.ops[id], fence, recovery);
      assert s.(redis := s.redis) == s;
    }
  }

  lemma ApplyStepKeeps(s: System, id: Uuid, fence: Uuid, recovery: bool)
    requires Inv(s) && id in s.store.ops && ImageReadable(s.store.ops[id])
    ensures Inv(ApplyStep(s, id, fence, recovery))
  {
    var (n, result) := Apply(s.redis, id, s.store.ops[id], fence, recovery);
    AppliedKeeps(s, id, fence, recovery);
    if result.Done? || result.Already? {
      ApplyReply(s.redis, id, s.store.ops[id], fence, recovery);
      AppliedLearns(s, n, id);
    }
  }

  lemma ApplyChanges(s: System, id: Uuid, fence: Uuid, recovery: bool)
    ensures Next(s, ApplyImage(id, fence, recovery)) ==
            if id in s.store.ops && ImageReadable(s.store.ops[id]) then ApplyStep(s, id, fence, recovery) else s
  {
  }

  lemma ApplyKeeps(s: System, id: Uuid, fence: Uuid, recovery: bool)
    requires Inv(s)
    ensures Inv(Next(s, ApplyImage(id, fence, recovery)))
  {
    ApplyChanges(s, id, fence, recovery);
    if id in s.store.ops && ImageReadable(s.store.ops[id]) {
      ApplyStepKeeps(s, id, fence, recovery);
    }
  }

  /** A processor that has seen Apply succeed may go on relying on it. */
  lemma AppliedLearns(s: System, n: Redis, id: Uuid)
    requires Inv(s.(redis := n)) && (id in n.receipts || AppliedBy(n, id))
    ensures Inv(s.(redis := n, learned := s.learned.(applied := s.learned.applied + {id})))
  {
  }

  lemma AbortedLearns(s: System, n: Redis, id: Uuid)
    requires Inv(s.(redis := n))
    requires id in n.receipts || (TokenHeldBy(n, id) && n.control.Some? && n.control.value.op == id && n.control.value.phase.StartAborted?)
    ensures Inv(s.(redis := n, learned := s.learned.(startAborted := s.learned.startAborted + {id})))
  {
  }

  // ---------------------------------------------------------------- finishing

  predicate Finishes(s: System, id: Uuid) {
    && id in s.store.ops && ImageReadable(s.store.ops[id])
    && s.store.ops[id].phase.Completed? && BaselineStored(s, id)
    && Finish(s.redis, id, s.store.ops[id]).1.Done?
  }

  /** Finishing starts from an empty outbox with the image in place. */
  lemma FinishStarts(s: System, id: Uuid)
    requires Inv(s) && Finishes(s, id)
    ensures s.redis.pending.None? && Installed(s.redis, s.store.ops[id]) && AppliedBy(s.redis, id) && id !in s.redis.receipts
  {
  }

  lemma FinishedOutbox(s: System, id: Uuid)
    requires Inv(s) && Finishes(s, id)
    ensures OutboxOk(Finish(s.redis, id, s.store.ops[id]).0)
  {
    FinishStarts(s, id);
    assert OpOk(s.store.tables.timelines, s.store.ops[id]);
  }

  lemma FinishedMarks(s: System, id: Uuid)
    requires Inv(s) && Finishes(s, id)
    ensures MarksOk(s.store.tables, Finish(s.redis, id, s.store.ops[id]).0)
  {
    FinishStarts(s, id);
    assert OpOk(s.store.tables.timelines, s.store.ops[id]);
  }

  lemma FinishedLogs(s: System, id: Uuid)
    requires Inv(s) && Finishes(s, id)
    ensures LogsOk(s.store.tables, Finish(s.redis, id, s.store.ops[id]).0, FinishStep(s, id).committed)
  {
    FinishStarts(s, id);
    var op := s.store.ops[id];
    assert OpOk(s.store.tables.timelines, op);
    var n, c := Finish(s.redis, id, op).0, FinishStep(s, id).committed;
    if op.kind.StartOp? {
      TargetUntouched(s, id);
    }
    forall o | o in c ensures LogOk(s.store.tables, n, c[o], o) {
      assert LogOk(s.store.tables, s.redis, s.committed[o], o);
    }
  }

  lemma FinishedToken(s: System, id: Uuid)
    requires Inv(s) && Finishes(s, id)
    ensures TokenOk(s.store, Finish(s.redis, id, s.store.ops[id]).0)
    ensures LearnedOk(s.store, Finish(s.redis, id, s.store.ops[id]).0, s.learned)
  {
    FinishStarts(s, id);
  }

  lemma FinishedState(s: System, id: Uuid)
    requires Inv(s) && Finishes(s, id)
    ensures StateOk(s.store, Finish(s.redis, id, s.store.ops[id]).0)
  {
    FinishStarts(s, id);
  }

  lemma FinishedRoot(s: System, id: Uuid)
    requires Inv(s) && Finishes(s, id)
    ensures RootOk(s.store, Finish(s.redis, id, s.store.ops[id]).0)
  {
    FinishStarts(s, id);
    assert OpOk(s.store.tables.timelines, s.store.ops[id]);
  }

  lemma FinishChanges(s: System, id: Uuid)
    ensures Next(s, FinishControl(id)) ==
      if Finishes(s, id) then s.(redis := Finish(s.redis, id, s.store.ops[id]).0, committed := FinishStep(s, id).committed) else s
  {
  }

  lemma FinishedControl(s: System, id: Uuid)
    requires Inv(s) && Finishes(s, id)
    ensures ControlOk(s.store, Finish(s.redis, id, s.store.ops[id]).0, s.learned)
  {
    FinishedToken(s, id);
    FinishedState(s, id);
    FinishedRoot(s, id);
  }

  lemma FinishKeeps(s: System, id: Uuid)
    requires Inv(s)
    ensures Inv(Next(s, FinishControl(id)))
  {
    FinishChanges(s, id);
    if Finishes(s, id) {
      FinishedOutbox(s, id);
      FinishedMarks(s, id);
      FinishedLogs(s, id);
      FinishedControl(s, id);
      FinishedWorkers(s, id);
    }
  }

  lemma FinishedWorkers(s: System, id: Uuid)
    requires Inv(s) && Finishes(s, id)
    ensures WorkersOk(s.store.tables, Finish(s.redis, id, s.store.ops[id]).0, s.workers)
    ensures BoundariesOk(s.store.tables, Finish(s.redis, id, s.store.ops[id]).0)
  {
    FinishStarts(s, id);
  }

  // ---------------------------------------------------------------- every step, every run

  predicate OfControl(step: Step) {
    || step.InitializeStart? || step.AbortRedisStart? || step.AbortIntent? || step.FenceRoom? || step.ApplyImage?
    || step.RecordApplied? || step.InspectControl? || step.CompleteIntent? || step.ArchiveBaseline? || step.FinishControl?
  }

  lemma ControlKeeps(s: System, step: Step)
    requires Inv(s) && OfControl(step)
    ensures Inv(Next(s, step))
  {
    match step
    case InitializeStart(id) => InitializeKeeps(s, id);
    case AbortRedisStart(id) => AbortRedisKeeps(s, id);
    case AbortIntent(id) => IntentKeeps(s, step);
    case FenceRoom(id, fence, recovery) => FenceKeeps(s, id, fence, recovery);
    case ApplyImage(id, fence, recovery) => ApplyKeeps(s, id, fence, recovery);
    case RecordApplied(id) => IntentKeeps(s, step);
    case InspectControl(id) => InspectKeeps(s, id);
    case CompleteIntent(id) => IntentKeeps(s, step);
    case ArchiveBaseline(id) => BaselineKeeps(s, id);
    case FinishControl(id) => FinishKeeps(s, id);
  }

  predicate OfWorkers(step: Step) {
    || step.ClaimOutbox? || step.ArchiveClaimed? || step.ReclaimOutbox? || step.AcknowledgeStored? || step.CleanUp? || step.CrashWorker?
  }

  lemma WorkerKeeps(s: System, step: Step)
    requires Inv(s) && OfWorkers(step)
    ensures Inv(Next(s, step))
  {
    match step
    case ClaimOutbox(owner) => ClaimKeeps(s, owner);
    case ArchiveClaimed(owner, lost) => ArchiveKeeps(s, owner, lost);
    case ReclaimOutbox(owner) => ReclaimKeeps(s, owner);
    case AcknowledgeStored(owner, lost) => AcknowledgeKeeps(s, owner, lost);
    case CleanUp(owner) => CleanUpKeeps(s, owner);
    case CrashWorker(owner) => CrashKeeps(s, owner);
  }

  predicate OfPlay(step: Step) {
    step.ExpireLease? || step.CloseGate? || step.ExpireRuntime? || step.PausePlay? || step.ResumePlay?
  }

  lemma PlayKeeps(s: System, step: Step)
    requires Inv(s) && OfPlay(step)
    ensures Inv(Next(s, step))
  {
    match step
    case ExpireLease => LeaseExpiryKeeps(s);
    case CloseGate => CloseGateKeeps(s);
    case ExpireRuntime => RuntimeExpiryKeeps(s);
    case PausePlay(g) => PauseKeeps(s, g);
    case ResumePlay(g) => ResumeKeeps(s, g);
  }

  lemma NextKeeps(s: System, step: Step)
    requires Inv(s)
    ensures Inv(Next(s, step))
  {
    if OfWorkers(step) {
      WorkerKeeps(s, step);
    } else if OfPlay(step) {
      PlayKeeps(s, step);
    } else if OfControl(step) {
      ControlKeeps(s, step);
    } else {
      match step
      case CommitAction(r, boundary) => CommitKeeps(s, r, boundary);
      case AddSave(n, p) => AddSaveKeeps(s, n, p);
      case FlushBoundary(b) => FlushKeeps(s, b);
      case PrepareIntent(id, op, target) => PrepareKeeps(s, id, op, target);
      case BlockIntent(id) => BlockKeeps(s, id);
    }
  }

  lemma {:induction false} RunKeeps(s: System, steps: seq<Step>)
    requires Inv(s)
    ensures Inv(Run(s, steps))
    decreases |steps|
  {
    if steps != [] {
      NextKeeps(s, steps[0]);
      RunKeeps(Next(s, steps[0]), steps[1..]);
    }
  }
}
