/**
 One room as a state machine over both stores.  Every MySQL transaction and every Redis script
 is one step; workers may crash, stall or lose a response between any two of them.
 `committed` is a history variable: per timeline, every record a commit ever published.
 */
module Protocol {
  import opened MemoryModel
  import opened Ledger
  import opened History
  import opened Journal
  import opened Runtime

  /** How far an archive worker has got with the record it claimed. */
  datatype Stage =
    | Holding(record: Record)
    | Stored(record: Record)
    | Confirmed(record: Record)
    | Failed(record: Record, permanent: bool)

  /** Facts an operation processor can only learn from a successful reply; they outlive the worker. */
  datatype Learned = Learned(applied: set<Uuid>, inspected: set<Uuid>, startAborted: set<Uuid>)

  datatype System = System(store: Store, redis: Redis, committed: map<Uuid, seq<Record>>,
                           workers: map<Uuid, Stage>, learned: Learned)

  const INITIAL: System := System(EMPTY, NO_KEYS, map[], map[], Learned({}, {}, {}))

  function CommittedOn(s: System, id: Uuid): seq<Record> {
    if id in s.committed then s.committed[id] else []
  }

  datatype Step =
    | CommitAction(record: Record, boundary: bool)
    | ClaimOutbox(owner: Uuid)
    | ArchiveClaimed(owner: Uuid, responseLost: bool)
    | ReclaimOutbox(owner: Uuid)
    | AcknowledgeStored(owner: Uuid, responseLost: bool)
    | CleanUp(owner: Uuid)
    | CrashWorker(owner: Uuid)
    | ExpireLease
    | CloseGate
    | ExpireRuntime
    | PausePlay(generation: Uuid)
    | ResumePlay(generation: Uuid)
    | AddSave(save: nat, point: SavePoint)
    | FlushBoundary(waiting: Boundary)
    | PrepareIntent(id: Uuid, op: Operation, target: Option<Timeline>)
    | InitializeStart(id: Uuid)
    | AbortRedisStart(id: Uuid)
    | AbortIntent(id: Uuid)
    | BlockIntent(id: Uuid)
    | FenceRoom(id: Uuid, fence: Uuid, recovery: bool)
    | ApplyImage(id: Uuid, fence: Uuid, recovery: bool)
    | RecordApplied(id: Uuid)
    | InspectControl(id: Uuid)
    | CompleteIntent(id: Uuid)
    | ArchiveBaseline(id: Uuid)
    | FinishControl(id: Uuid)

  // ---------------------------------------------------------------- archive workers

  /** The services hand over normalised effects only, so a committed action's key events can be derived. */
  function CommitStep(s: System, r: Record, boundary: bool): System {
    if !CommitAdmitted(s.redis, r) || !EventsOk(r) then s
    else s.(redis := Commit(s.redis, r, boundary), committed := s.committed[r.timeline := CommittedOn(s, r.timeline) + [r]])
  }

  /** Owner tokens are fresh, so a new worker never shares one. */
  function ClaimStep(s: System, owner: Uuid): System {
    if owner in s.workers then s
    else
      var (k, result) := Claim(s.redis, owner);
      s.(redis := k, workers := if result.Claimed? then s.workers[owner := Holding(result.record)] else s.workers)
  }

  predicate PermanentError(e: Error) {
    e.Conflict? || e.Gap? || e.Branch? || e.Invalid? || e.NotFound?
  }

  function ArchiveStep(s: System, owner: Uuid, responseLost: bool): System {
    if owner !in s.workers || !s.workers[owner].Holding? then s
    else
      var r := s.workers[owner].record;
      var (store, result) := ArchiveAndAdvance(s.store, r);
      s.(store := store,
         workers := s.workers[owner := if responseLost then Failed(r, false)
                                       else if result.Ok? then Stored(r) else Failed(r, PermanentError(result.error))])
  }

  function ReclaimStep(s: System, owner: Uuid): System {
    if owner !in s.workers || !s.workers[owner].Stored? then s
    else
      var r := s.workers[owner].record;
      var (k, result) := Claim(s.redis, owner);
      s.(redis := k,
         workers := s.workers[owner := if result == Claimed(r) then Confirmed(r) else Failed(r, result.Damaged?)])
  }

  /** A lost acknowledgement leaves the worker free to repeat the identical one. */
  function AcknowledgeStep(s: System, owner: Uuid, responseLost: bool): System {
    if owner !in s.workers || !s.workers[owner].Confirmed? then s
    else
      var r := s.workers[owner].record;
      var (k, result) := Acknowledge(s.redis, owner, r);
      s.(redis := k,
         workers := if responseLost then s.workers
                    else if result.Acked? || result.Duplicate? then s.workers - {owner}
                    else s.workers[owner := Failed(r, result.Corrupt?)])
  }

  function CleanUpStep(s: System, owner: Uuid): System {
    if owner !in s.workers || !s.workers[owner].Failed? then s
    else
      var r := s.workers[owner].record;
      s.(redis := if s.workers[owner].permanent then Block(s.redis, owner, r) else Retry(s.redis, owner, r),
         workers := s.workers - {owner})
  }

  /** A save of that round stands at the boundary; the service acknowledges the snapshot only then. */
  predicate SavedAt(s: Store, b: Boundary) {
    exists n :: n in s.saves && s.saves[n] == SavePoint(Some(b.timeline), Some(b.position), b.round)
  }

  // ---------------------------------------------------------------- control operations

  /** What Start, Load and End put into an intent, and what operationImage insists on when it is read back. */
  predicate WellBuilt(op: Operation, target: Option<Timeline>) {
    var i := op.image;
    && OperationSealed(op)
    && (op.target.Some? <==> target.Some?)
    && match op.kind
       case StartOp =>
         && i.sourceRevision == 0 && i.targetRevision == 3 && i.position == 0 && i.boundary.Some?
         && BoundaryOf(op, i.boundary.value, Opening, 1)
       case LoadOp =>
         && 0 < i.sourceRevision <= MAX_REDIS_POSITION - 3 && i.targetRevision == i.sourceRevision + 3 && i.position == target.value.fork <= MAX_REDIS_POSITION
         && (target.value.parent.None? <==> i.boundary.Some?)
         && (i.boundary.Some? ==> BoundaryOf(op, i.boundary.value, LegacyBaseline, 0))
       case EndOp => 0 < i.sourceRevision <= MAX_REDIS_POSITION - 3 && i.targetRevision == i.sourceRevision + 3 && i.boundary.None?
  }

  predicate BoundaryOf(op: Operation, r: Record, kind: Kind, position: nat) {
    && Sealed(r) && r.kind == kind && r.position == position && Some(r.timeline) == op.target
    && r.generation == op.image.generation && r.revision == op.image.targetRevision
    && r.turnBefore == op.image.turn && r.turnAfter == op.image.turn
    && r.roundBefore == op.image.round && r.roundAfter == op.image.round
  }

  function PrepareStep(s: System, id: Uuid, op: Operation, target: Option<Timeline>): System {
    if !WellBuilt(op, target) then s
    else
      var store := Prepare(s.store, id, op, target, op.image.sourceRevision).0;
      s.(store := store,
         committed := if op.target.Some? && op.target.value in store.tables.timelines && op.target.value !in s.committed
                      then s.committed[op.target.value := []] else s.committed)
  }

  function ApplyStep(s: System, id: Uuid, fence: Uuid, recovery: bool): System
    requires id in s.store.ops && OperationSealed(s.store.ops[id])
  {
    var (k, result) := Apply(s.redis, id, s.store.ops[id], fence, recovery);
    s.(redis := k,
       learned := if result.Done? || result.Already? then s.learned.(applied := s.learned.applied + {id}) else s.learned)
  }

  function InspectStep(s: System, id: Uuid): System
    requires id in s.store.ops
  {
    if id !in s.redis.receipts && SameControl(s.redis, id, s.store.ops[id]) && s.redis.control.value.phase.Applied?
    then s.(learned := s.learned.(inspected := s.learned.inspected + {id})) else s
  }

  function AbortRedisStep(s: System, id: Uuid): System
    requires id in s.store.ops
  {
    var (k, result) := AbortStart(s.redis, id, s.store.ops[id]);
    s.(redis := k,
       learned := if result.Done? || result.Already? then s.learned.(startAborted := s.learned.startAborted + {id}) else s.learned)
  }

  /** A start publishes its opening record through the outbox, so finishing it is a commit. */
  function FinishStep(s: System, id: Uuid): System
    requires id in s.store.ops && OperationSealed(s.store.ops[id])
    requires s.store.ops[id].kind.StartOp? ==> s.store.ops[id].image.boundary.Some?
  {
    var op := s.store.ops[id];
    var (k, result) := Finish(s.redis, id, op);
    s.(redis := k,
       committed := if result.Done? && op.kind.StartOp? && s.redis.pending.None?
                    then s.committed[op.target.value := CommittedOn(s, op.target.value) + [op.image.boundary.value]]
                    else s.committed)
  }

  /** The recovery worker gives an intent up after a permanent error; that may come in any state of the room. */
  function BlockStep(s: System, id: Uuid): System {
    if id !in s.store.ops then s
    else s.(store := Advance(s.store, id, s.store.ops[id].phase, BlockedPhase).0)
  }

  predicate BaselineStored(s: System, id: Uuid)
    requires id in s.store.ops
  {
    var op := s.store.ops[id];
    op.kind.LoadOp? && op.image.boundary.Some? ==>
      op.target.Some? && (op.target.value, 0) in s.store.tables.records
  }

  /** Every stored intent keeps the shape its builder gave it; its boundary record is derived from it. */
  predicate StoredWell(op: Operation) {
    && OperationSealed(op)
    && (op.kind.StartOp? ==> op.image.boundary.Some? && BoundaryOf(op, op.image.boundary.value, Opening, 1))
    && (op.kind.LoadOp? && op.image.boundary.Some? ==> BoundaryOf(op, op.image.boundary.value, LegacyBaseline, 0))
  }

  /** What operationImage accepts when a processor reads the intent back; nothing is done about any other. */
  predicate ImageReadable(op: Operation) {
    && StoredWell(op)
    && (!op.kind.StartOp? ==> 0 < op.image.sourceRevision <= MAX_REDIS_POSITION - 3)
  }

  function ControlStep(s: System, step: Step): System
    requires step.InitializeStart? || step.AbortRedisStart? || step.AbortIntent? || step.FenceRoom? || step.ApplyImage?
          || step.RecordApplied? || step.InspectControl? || step.CompleteIntent? || step.ArchiveBaseline? || step.FinishControl?
  {
    if step.id !in s.store.ops || !ImageReadable(s.store.ops[step.id]) then s
    else
      var id, op := step.id, s.store.ops[step.id];
      match step
      case InitializeStart(_) => if op.kind.StartOp? then s.(redis := Initialize(s.redis, id, op).0) else s
      case AbortRedisStart(_) => if op.kind.StartOp? then AbortRedisStep(s, id) else s
      case AbortIntent(_) => if id in s.learned.startAborted then s.(store := Advance(s.store, id, PreparedPhase, AbortedPhase).0) else s
      case FenceRoom(_, fence, recovery) => if op.kind.StartOp? then s else s.(redis := Fence(s.redis, id, op, fence, recovery).0)
      case ApplyImage(_, fence, recovery) => ApplyStep(s, id, fence, recovery)
      case RecordApplied(_) => if id in s.learned.applied then s.(store := Advance(s.store, id, PreparedPhase, RedisApplied).0) else s
      case InspectControl(_) => InspectStep(s, id)
      case CompleteIntent(_) => if id in s.learned.inspected then s.(store := Advance(s.store, id, RedisApplied, Completed).0) else s
      case ArchiveBaseline(_) =>
        if op.phase.Completed? && op.kind.LoadOp? && op.image.boundary.Some?
        then s.(store := s.store.(tables := Archived(s.store.tables, op.image.boundary.value).0)) else s
      case FinishControl(_) => if op.phase.Completed? && BaselineStored(s, id) then FinishStep(s, id) else s
  }

  function Next(s: System, step: Step): System {
    match step
    case CommitAction(r, boundary) => CommitStep(s, r, boundary)
    case ClaimOutbox(owner) => ClaimStep(s, owner)
    case ArchiveClaimed(owner, lost) => ArchiveStep(s, owner, lost)
    case ReclaimOutbox(owner) => ReclaimStep(s, owner)
    case AcknowledgeStored(owner, lost) => AcknowledgeStep(s, owner, lost)
    case CleanUp(owner) => CleanUpStep(s, owner)
    case CrashWorker(owner) => s.(workers := s.workers - {owner})
    case ExpireLease => s.(redis := s.redis.(lease := None))
    case CloseGate => s.(redis := Quarantined(s.redis))
    case ExpireRuntime => s.(redis := s.redis.(play := None))
    case PausePlay(g) => s.(redis := Pause(s.redis, g))
    case ResumePlay(g) => s.(redis := Resume(s.redis, g))
    case AddSave(n, p) => if n in s.store.saves then s else s.(store := s.store.(saves := s.store.saves[n := p]))
    case FlushBoundary(b) => if SavedAt(s.store, b) then s.(redis := Flushed(s.redis, b)) else s
    case PrepareIntent(id, op, target) => PrepareStep(s, id, op, target)
    case BlockIntent(id) => BlockStep(s, id)
    case _ => ControlStep(s, step)
  }

  function Run(s: System, steps: seq<Step>): System
    decreases |steps|
  {
    if steps == [] then s else Run(Next(s, steps[0]), steps[1..])
  }
}
