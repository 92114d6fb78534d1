/**
 The Redis side of one room: archive metadata, the one-slot outbox, its lease, the control
 token and the runtime keys the archive scripts look at.  Each function is one atomic script.
 */
module Runtime {
  import opened MemoryModel
  import opened Journal

  const MAX_REDIS_POSITION: nat := 9007199254740990

  datatype ArchiveState = Ready | Pending | Recovering | Blocked

  datatype Meta = Meta(timeline: Uuid, head: nat, durable: nat, revision: nat, state: ArchiveState,
                       control: Option<Uuid>, last: Option<Lease>)

  /** `boundary` says that the commit took an automatic-save snapshot along. */
  datatype Outbox = Outbox(record: Record, attempts: nat, boundary: bool)

  /** The name under which an automatic-save snapshot waits to be stored. */
  datatype Boundary = Boundary(timeline: Uuid, position: nat, round: nat)

  datatype Lease = Lease(owner: Uuid, record: Record)

  datatype ControlPhase = Fenced | Applied | StartAborted | Finished

  datatype Control = Control(op: Uuid, image: Image, phase: ControlPhase)

  datatype PlayStatus = Provisional | Playing | Paused

  datatype Play = Play(status: PlayStatus, generation: Uuid, turn: nat)

  /** `queued` is the room's entry in the queue from which recovery finds rooms with a body to archive. */
  datatype Redis = Redis(meta: Option<Meta>, pending: Option<Outbox>, lease: Option<Lease>, queued: bool,
                         control: Option<Control>, receipts: map<Uuid, Image>, play: Option<Play>,
                         boundaries: set<Boundary>)

  const NO_KEYS: Redis := Redis(None, None, None, false, None, map[], None, {})

  // ---------------------------------------------------------------- commit and outbox

  predicate GateOpen(k: Redis) {
    && k.meta.Some? && k.meta.value.state.Ready? && k.meta.value.control.None?
    && k.meta.value.head == k.meta.value.durable && k.pending.None?
  }

  /** archive_prepare accepts the record for the current branch, revision, generation and turn. */
  predicate CommitAdmitted(k: Redis, r: Record) {
    && GateOpen(k) && k.play.Some? && k.play.value.status.Playing?
    && r.timeline == k.meta.value.timeline
    && r.position == k.meta.value.head + 1 <= MAX_REDIS_POSITION
    && r.revision == k.meta.value.revision
    && r.generation == k.play.value.generation
    && r.turnBefore == k.play.value.turn && r.turnAfter == r.turnBefore + 1
    && (r.kind.Action? || r.kind.SkipManual? || r.kind.SkipTimeout?)
    && Sealed(r)
  }

  function Commit(k: Redis, r: Record, boundary: bool): Redis {
    if !CommitAdmitted(k, r) then k
    else k.(meta := Some(k.meta.value.(head := r.position, state := Pending)),
            pending := Some(Outbox(r, 0, boundary)), queued := true,
            play := Some(k.play.value.(turn := r.turnAfter)))
  }

  /** What the claim and acknowledge scripts require of the stored body before they trust it. */
  predicate OutboxIntact(k: Redis)
    requires k.meta.Some? && k.pending.Some?
  {
    var m, r := k.meta.value, k.pending.value.record;
    r.timeline == m.timeline && r.position == m.head == m.durable + 1 && r.revision == m.revision
  }

  datatype ClaimResult = Nothing | Closed | Damaged | LeaseTaken | Claimed(record: Record)

  function Quarantined(k: Redis): Redis {
    if k.meta.Some? then k.(meta := Some(k.meta.value.(state := Blocked))) else k
  }

  function Claim(k: Redis, owner: Uuid): (Redis, ClaimResult) {
    if k.meta.None? then (k.(queued := false), Nothing)
    else if k.meta.value.state.Blocked? then (k.(queued := false), Closed)
    else if k.pending.None? then
      if k.meta.value.head != k.meta.value.durable then (Quarantined(k).(queued := false), Damaged)
      else (k.(queued := false), Nothing)
    else if !(k.meta.value.state.Pending? || k.meta.value.state.Recovering?) || !OutboxIntact(k) then
      (Quarantined(k).(queued := false), Damaged)
    else if k.lease.Some? && k.lease.value != Lease(owner, k.pending.value.record) then (k, LeaseTaken)
    else (k.(lease := Some(Lease(owner, k.pending.value.record)), queued := true), Claimed(k.pending.value.record))
  }

  datatype AckResult = Acked | Duplicate | LeaseLost | BranchChanged | Corrupt

  /** Play may go on under the committed record's own generation and turn. */
  predicate CanResume(k: Redis, r: Record) {
    k.play.Some? && k.play.value == Play(Playing, r.generation, r.turnAfter)
  }

  function Waiting(o: Outbox): set<Boundary> {
    if o.boundary then {Boundary(o.record.timeline, o.record.position, o.record.roundAfter)} else {}
  }

  function Acknowledge(k: Redis, owner: Uuid, r: Record): (Redis, AckResult) {
    if k.meta.None? || k.meta.value.timeline != r.timeline then (k, BranchChanged)
    else
      var m := k.meta.value;
      if k.pending.None? then
        (k, if m.last == Some(Lease(owner, r)) && m.durable == r.position then Duplicate else LeaseLost)
      else if k.lease != Some(Lease(owner, r)) then (k, LeaseLost)
      else if k.pending.value.record != r || m.head != r.position || m.durable + 1 != m.head
           || !(m.state.Pending? || m.state.Recovering?) then (k, Corrupt)
      else if k.play.Some? && k.play.value.status.Playing? && m.control.None? && !CanResume(k, r) then (k, Corrupt)
      else
        (k.(meta := Some(m.(durable := r.position, state := if m.control.None? then Ready else Recovering,
                            last := Some(Lease(owner, r)))),
            pending := None, lease := None, queued := false, boundaries := k.boundaries + Waiting(k.pending.value)), Acked)
  }

  predicate HoldsLease(k: Redis, owner: Uuid, r: Record) {
    && k.meta.Some? && k.meta.value.timeline == r.timeline
    && k.lease == Some(Lease(owner, r))
    && k.pending.Some? && k.pending.value.record == r
  }

  /** RetryGameArchive: give the lease back and keep the body. */
  function Retry(k: Redis, owner: Uuid, r: Record): Redis {
    if !HoldsLease(k, owner, r) then k
    else k.(lease := None, queued := true, pending := Some(k.pending.value.(attempts := if k.pending.value.attempts < 30 then k.pending.value.attempts + 1 else 30)))
  }

  /** BlockGameArchive: close the gate and keep the body. */
  function Block(k: Redis, owner: Uuid, r: Record): Redis {
    if !HoldsLease(k, owner, r) then k else Quarantined(k).(lease := None, queued := false)
  }

  /** AcknowledgeMemoryAutoSave: the snapshot has been stored. */
  function Flushed(k: Redis, b: Boundary): Redis {
    k.(boundaries := k.boundaries - {b})
  }

  // ---------------------------------------------------------------- control scripts

  datatype ControlResult = Done | Already | NotReady | WrongBranch | Contested | BadState

  predicate SameControl(k: Redis, id: Uuid, op: Operation) {
    k.control.Some? && k.control.value.op == id && k.control.value.image == op.image
  }

  predicate Holds(k: Redis, id: Uuid, op: Operation) {
    SameControl(k, id, op) && k.meta.Some? && k.meta.value.control == Some(id)
  }

  /** A finished receipt makes every later step of its operation a no-op. */
  function ReceiptReply(k: Redis, id: Uuid, op: Operation): ControlResult
    requires id in k.receipts
  {
    if k.receipts[id] == op.image then Already else Contested
  }

  function TargetPlay(op: Operation, status: PlayStatus): Play {
    Play(status, op.image.generation, op.image.turn)
  }

  function Initialize(k: Redis, id: Uuid, op: Operation): (Redis, ControlResult)
    requires op.target.Some?
  {
    if id in k.receipts then (k, ReceiptReply(k, id, op))
    else if !op.kind.StartOp? then (k, WrongBranch)
    else if SameControl(k, id, op) then (k, Already)
    else if k.control.Some? || k.meta.Some? || k.play.Some? then (k, WrongBranch)
    else (k.(play := Some(TargetPlay(op, Provisional)),
             meta := Some(Meta(op.target.value, 0, 0, op.image.targetRevision, Recovering, Some(id), None)),
             control := Some(Control(id, op.image, Fenced))), Done)
  }

  function AbortStart(k: Redis, id: Uuid, op: Operation): (Redis, ControlResult) {
    if id in k.receipts then (k, ReceiptReply(k, id, op))
    else if !op.kind.StartOp? || !Holds(k, id, op) then (k, WrongBranch)
    else if k.control.value.phase.StartAborted? then (k, Already)
    else if !k.control.value.phase.Fenced? || k.meta.value.head != 0 || k.meta.value.durable != 0 || k.pending.Some? then (k, WrongBranch)
    else (k.(play := None, meta := Some(k.meta.value.(state := Blocked)),
             control := Some(k.control.value.(phase := StartAborted))), Done)
  }

  /** `fence` is the generation that replaces the running one; a lost runtime is fenced only by a recovering load. */
  function Fence(k: Redis, id: Uuid, op: Operation, fence: Uuid, recovery: bool): (Redis, ControlResult)
    requires op.source.Some?
  {
    if id in k.receipts then (k, ReceiptReply(k, id, op))
    else if k.meta.None? || k.meta.value.state.Blocked? then (k, NotReady)
    else if Holds(k, id, op) then (k, Already)
    else if k.control.Some? && !k.control.value.phase.Finished? then (k, NotReady)
    else if k.meta.value.control.Some? || k.meta.value.timeline != op.source.value
         || k.meta.value.revision != op.image.sourceRevision then (k, WrongBranch)
    else if k.play.None? && (!recovery || !op.kind.LoadOp?) then (k, NotReady)
    else if k.play.Some? && (k.play.value.generation != op.sourceGeneration || k.play.value.status.Provisional?) then (k, WrongBranch)
    else
      (k.(play := Some(Play(Paused, fence, if k.play.Some? then k.play.value.turn else 0)),
          meta := Some(k.meta.value.(control := Some(id), state := Recovering)),
          control := Some(Control(id, op.image, Fenced))), Done)
  }

  /** The runtime keys allow installing (or reinstalling) the target image. */
  predicate ApplyAllowed(k: Redis, op: Operation, fence: Uuid, recovery: bool)
    requires k.control.Some?
  {
    || (recovery && k.play.None?)
    || (k.control.value.phase.Applied? && op.kind.StartOp? && recovery && k.play.Some?
        && k.play.value.generation == op.image.generation && k.play.value.status.Playing?)
    || (k.control.value.phase.Fenced? && k.play.Some?
        && if op.kind.StartOp? then k.play.value.generation == op.image.generation && k.play.value.status.Provisional?
           else k.play.value.generation == fence && k.play.value.status.Paused?)
  }

  predicate AlreadyApplied(k: Redis, op: Operation, recovery: bool)
    requires k.control.Some?
  {
    && k.control.value.phase.Applied?
    && (op.kind.EndOp?
        || (k.play.Some? && k.play.value.generation == op.image.generation && !k.play.value.status.Provisional?
            && !(op.kind.StartOp? && recovery && k.play.value.status.Playing?)))
  }

  function Install(k: Redis, op: Operation, recovery: bool): Redis
    requires k.meta.Some? && k.control.Some? && (!op.kind.EndOp? ==> op.target.Some?)
  {
    var c := Some(k.control.value.(phase := Applied));
    if op.kind.EndOp? then k.(control := c)
    else k.(control := c,
            play := Some(TargetPlay(op, if op.kind.StartOp? && !recovery then Playing else Paused)),
            meta := Some(k.meta.value.(timeline := op.target.value, head := op.image.position, durable := op.image.position,
                                       revision := op.image.targetRevision)))
  }

  function Apply(k: Redis, id: Uuid, op: Operation, fence: Uuid, recovery: bool): (Redis, ControlResult)
    requires !op.kind.EndOp? ==> op.target.Some?
  {
    if id in k.receipts then (k, ReceiptReply(k, id, op))
    else if k.meta.None? || k.meta.value.state.Blocked? then (k, NotReady)
    else if !Holds(k, id, op) then (k, WrongBranch)
    else if !k.control.value.phase.Fenced? && !k.control.value.phase.Applied? then (k, WrongBranch)
    else if k.meta.value.head != k.meta.value.durable || k.pending.Some? || k.boundaries != {} then (k, NotReady)
    else if AlreadyApplied(k, op, recovery) then (k, Already)
    else if !ApplyAllowed(k, op, fence, recovery) then (k, WrongBranch)
    else (Install(k, op, recovery), Done)
  }

  /** The target image is still in place: its generation, its turn, and a playable status. */
  predicate ImageInPlace(k: Redis, op: Operation) {
    && k.play.Some? && k.play.value.generation == op.image.generation && !k.play.value.status.Provisional?
    && k.play.value.turn == op.image.turn
  }

  function Closing(k: Redis, id: Uuid, op: Operation): Redis
    requires k.control.Some?
  {
    k.(control := Some(k.control.value.(phase := Finished)), receipts := k.receipts[id := op.image])
  }

  function FinishStart(k: Redis, id: Uuid, op: Operation): (Redis, ControlResult)
    requires k.meta.Some? && k.control.Some? && op.image.boundary.Some?
  {
    var m, r := k.meta.value, op.image.boundary.value;
    if !r.kind.Opening? || r.position != 1 || r.timeline != m.timeline || r.revision != m.revision
       || r.generation != op.image.generation then (k, BadState)
    else if k.pending.Some? && (k.pending.value.record != r || m.head != 1 || m.durable != 0) then (k, BadState)
    else if k.pending.None? && (m.head != 0 || m.durable != 0) then (k, BadState)
    else (Closing(k, id, op).(pending := if k.pending.Some? then k.pending else Some(Outbox(r, 0, false)),
                              queued := k.pending.None? || k.queued,
                              meta := Some(m.(head := 1, state := Pending, control := None))), Done)
  }

  function Finish(k: Redis, id: Uuid, op: Operation): (Redis, ControlResult)
    requires op.kind.StartOp? ==> op.image.boundary.Some?
    requires !op.kind.EndOp? ==> op.target.Some?
  {
    if id in k.receipts then (k, ReceiptReply(k, id, op))
    else if k.meta.None? || k.meta.value.state.Blocked? then (k, NotReady)
    else if !Holds(k, id, op) || !k.control.value.phase.Applied? then (k, WrongBranch)
    else if !op.kind.EndOp? && !ImageInPlace(k, op) then (k, NotReady)
    else if op.kind.StartOp? then FinishStart(k, id, op)
    else if k.meta.value.head != k.meta.value.durable || k.pending.Some? || k.boundaries != {} then (k, NotReady)
    else if op.kind.LoadOp? && (k.meta.value.timeline != op.target.value || k.meta.value.revision != op.image.targetRevision) then (k, WrongBranch)
    else (Closing(k, id, op).(meta := Some(k.meta.value.(state := Ready, control := None)),
                              play := if op.kind.EndOp? then None else k.play), Done)
  }

  // ---------------------------------------------------------------- play status and expiry

  /** Pausing needs no gate and always fences in-flight work with a new generation. */
  function Pause(k: Redis, generation: Uuid): Redis {
    if k.play.None? || k.play.value.status.Provisional? then k
    else k.(play := Some(k.play.value.(status := Paused, generation := generation)))
  }

  function Resume(k: Redis, generation: Uuid): Redis {
    if !GateOpen(k) || k.play.None? || !k.play.value.status.Paused? then k
    else k.(play := Some(k.play.value.(status := Playing, generation := generation)))
  }
}
