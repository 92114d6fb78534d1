/**
 The MySQL side of control operations: the capability row of a room, the operation journal
 and the transactions over them.  A transaction that fails changes nothing.
 */
module Journal {
  import opened MemoryModel
  import opened Ledger
  import opened History

  datatype MemoryStatus = Initializing | ReadyState | RecoveringState | BlockedState | EndedState

  datatype StateRow = StateRow(active: Option<Uuid>, status: MemoryStatus, revision: nat, operation: Option<Uuid>)

  datatype OpKind = StartOp | LoadOp | EndOp

  datatype Phase = PreparedPhase | RedisApplied | Completed | AbortedPhase | BlockedPhase

  /** The persisted target snapshot; `boundary` is the opening or imported baseline it implies. */
  datatype Image = Image(sourceRevision: nat, targetRevision: nat, generation: Uuid, position: nat, turn: nat,
                         boundary: Option<Record>, round: nat, owner: nat, solo: bool)

  datatype Operation = Operation(kind: OpKind, source: Option<Uuid>, sourceGeneration: Uuid, target: Option<Uuid>,
                                 targetSave: Option<nat>, fingerprint: nat, image: Image, phase: Phase)

  datatype SavePoint = SavePoint(timeline: Option<Uuid>, position: Option<nat>, round: nat)

  datatype Store = Store(tables: Tables, state: Option<StateRow>, ops: map<Uuid, Operation>, saves: map<nat, SavePoint>)

  const EMPTY: Store := Store(Tables(map[], map[]), None, map[], map[])

  // ---------------------------------------------------------------- prepare

  predicate OperationSealed(op: Operation) {
    match op.kind
    case StartOp => op.source.None? && op.target.Some? && op.targetSave.None?
    case LoadOp => op.source.Some? && op.target.Some? && op.targetSave.Some?
    case EndOp => op.source.Some? && op.target.None? && op.targetSave.None?
  }

  predicate TargetShapeOk(op: Operation, target: Option<Timeline>) {
    && (op.target.Some? <==> target.Some?)
    && (target.Some? ==> target.value.durable == target.value.fork && target.value.originSave == op.targetSave)
    && (op.kind.StartOp? && target.Some? ==> target.value.parent.None? && target.value.fork == 0 && target.value.complete)
  }

  predicate SameOperation(a: Operation, b: Operation) {
    a == b.(phase := a.phase)
  }

  predicate SameTimeline(a: Timeline, b: Timeline) {
    a.parent == b.parent && a.fork == b.fork && a.originSave == b.originSave && a.complete == b.complete
  }

  /** Preparing an operation that already exists succeeds only for the identical intent. */
  function Reprepared(s: Store, id: Uuid, op: Operation, target: Option<Timeline>): Result<Operation>
    requires id in s.ops
  {
    if !SameOperation(s.ops[id], op) then Err(Conflict)
    else if target.Some? && (op.target.None? || op.target.value !in s.tables.timelines) then Err(NotFound)
    else if target.Some? && !SameTimeline(s.tables.timelines[op.target.value], target.value) then Err(Conflict)
    else Ok(s.ops[id])
  }

  function BranchError(s: Store, op: Operation, target: Timeline): Option<Error> {
    var ts := s.tables.timelines;
    if target.parent.None? then
      if target.fork != 0 || (op.kind.LoadOp? && target.complete) then Some(Branch) else None
    else if target.parent.value !in ts then Some(NotFound)
    else if !Resolves(ts, target.parent.value, target.fork, MAX_DEPTH) then Some(Branch)
    else if |Segments(ts, target.parent.value, target.fork, MAX_DEPTH)| >= MAX_DEPTH then Some(Branch)
    else if target.complete != ts[target.parent.value].complete then Some(Branch)
    else None
  }

  /** A load must fork exactly where its save stands; a legacy save has no position at all. */
  function SaveError(s: Store, op: Operation, target: Timeline): Option<Error> {
    if !op.kind.LoadOp? || op.targetSave.None? then None
    else if op.targetSave.value !in s.saves then Some(NotFound)
    else
      var save := s.saves[op.targetSave.value];
      if target.parent.None? then
        if save.timeline.Some? || save.position.Some? then Some(Branch) else None
      else if save.timeline != target.parent || save.position != Some(target.fork) then Some(Branch) else None
  }

  function CapabilityError(s: Store, op: Operation, revision: nat): Option<Error> {
    if op.kind.StartOp? then if s.state.Some? then Some(Busy) else None
    else if s.state.None? then Some(NotFound)
    else
      var st := s.state.value;
      if !st.status.ReadyState? || st.operation.Some? || st.active != op.source then Some(Busy)
      else if revision != 0 && st.revision != revision then Some(Conflict)
      else None
  }

  function OccupiedState(s: Store, id: Uuid, op: Operation): StateRow
    requires op.kind.StartOp? || s.state.Some?
  {
    if op.kind.StartOp? then StateRow(None, Initializing, 1, Some(id))
    else s.state.value.(status := RecoveringState, operation := Some(id), revision := s.state.value.revision + 1)
  }

  /** PrepareOperation: persist the intent and its branch together, or nothing. */
  function Prepare(s: Store, id: Uuid, op: Operation, target: Option<Timeline>, revision: nat): (Store, Result<Operation>) {
    if !OperationSealed(op) || !TargetShapeOk(op, target) then (s, Err(Invalid))
    else if id in s.ops then (s, Reprepared(s, id, op, target))
    else if CapabilityError(s, op, revision).Some? then (s, Err(CapabilityError(s, op, revision).value))
    else if target.Some? && BranchError(s, op, target.value).Some? then (s, Err(BranchError(s, op, target.value).value))
    else if target.Some? && SaveError(s, op, target.value).Some? then (s, Err(SaveError(s, op, target.value).value))
    else if target.Some? && op.target.value in s.tables.timelines then (s, Err(Conflict))
    else
      var row := op.(phase := PreparedPhase);
      (Store(if target.Some? then WithBranch(s.tables, op.target.value, target.value.(status := Prepared)) else s.tables,
             Some(OccupiedState(s, id, op)), s.ops[id := row], s.saves), Ok(row))
  }

  // ---------------------------------------------------------------- advance

  predicate AdvanceAllowed(from: Phase, to: Phase) {
    || (from.PreparedPhase? && (to.RedisApplied? || to.AbortedPhase? || to.BlockedPhase?))
    || (from.RedisApplied? && (to.Completed? || to.BlockedPhase?))
  }

  function AdvancedState(st: StateRow, op: Operation, to: Phase): StateRow
    requires to.Completed? && !op.kind.EndOp? ==> op.target.Some?
  {
    var bumped := st.(revision := st.revision + 1);
    match to
    case Completed =>
      if op.kind.EndOp? then bumped.(operation := None, status := EndedState)
      else bumped.(operation := None, status := ReadyState, active := op.target)
    case AbortedPhase => bumped.(operation := None, status := if op.kind.StartOp? then BlockedState else ReadyState)
    case BlockedPhase => bumped.(status := BlockedState)
    case _ => bumped
  }

  function AdvancedTables(l: Tables, op: Operation, to: Phase): Tables {
    if op.target.None? then l
    else if to.Completed? && !op.kind.EndOp? then WithStatus(l, op.target.value, Active)
    else if to.AbortedPhase? then WithStatus(l, op.target.value, Aborted)
    else l
  }

  /** AdvanceOperation: compare-and-set on the phase; a phase already reached is a success that changes nothing. */
  function Advance(s: Store, id: Uuid, from: Phase, to: Phase): (Store, Option<Error>) {
    if !AdvanceAllowed(from, to) then (s, Some(Invalid))
    else if id !in s.ops then (s, Some(NotFound))
    else
      var op := s.ops[id];
      if op.phase == to then (s, None)
      else if op.phase != from then (s, Some(Busy))
      else if s.state.None? then (s, Some(NotFound))
      else if s.state.value.operation != Some(id) then (s, Some(Busy))
      else if to.Completed? && !op.kind.EndOp?
           && (op.target.None? || op.target.value !in s.tables.timelines || !s.tables.timelines[op.target.value].status.Prepared?)
      then (s, Some(Branch))
      else (s.(state := Some(AdvancedState(s.state.value, op, to)), tables := AdvancedTables(s.tables, op, to),
               ops := s.ops[id := op.(phase := to)]), None)
  }

  // ---------------------------------------------------------------- archive with advance

  /** A prepared load or end may drain a record committed before it fenced the room. */
  predicate DrainAllowed(s: Store, r: Record) {
    && s.state.Some?
    && var st := s.state.value;
       && st.status.RecoveringState? && st.operation.Some? && r.revision < MAX_UINT64 && st.revision == r.revision + 1
       && st.operation.value in s.ops
       && var op := s.ops[st.operation.value];
          && op.source == Some(r.timeline) && !op.kind.StartOp? && (op.phase.PreparedPhase? || op.phase.RedisApplied?)
  }

  predicate OrdinaryAllowed(s: Store, r: Record) {
    && s.state.Some?
    && s.state.value.status.ReadyState? && s.state.value.revision == r.revision && s.state.value.operation.None?
  }

  function CapabilityArchiveError(s: Store, r: Record): Option<Error> {
    if s.state.None? then Some(NotFound)
    else if s.state.value.active != Some(r.timeline) then Some(Branch)
    else if OrdinaryAllowed(s, r) || DrainAllowed(s, r) then None
    else if s.state.value.status.RecoveringState? && s.state.value.operation.Some? && r.revision < MAX_UINT64
         && s.state.value.revision == r.revision + 1 && s.state.value.operation.value !in s.ops then Some(NotFound)
    else Some(Branch)
  }

  function ArchiveAndAdvance(s: Store, r: Record): (Store, Result<bool>) {
    if !Sealed(r) then (s, Err(Invalid))
    else if CapabilityArchiveError(s, r).Some? then (s, Err(CapabilityArchiveError(s, r).value))
    else (s.(tables := Archived(s.tables, r).0), Archived(s.tables, r).1)
  }

  // ---------------------------------------------------------------- the row players see

  datatype RoomStatus = WaitingRoom | PlayingRoom | PausedRoom | EndedRoom

  /** The game_rooms row: it follows the ledger and the operations and decides nothing about them but one thing, see Completed. */
  datatype RoomRow = RoomRow(owner: nat, solo: bool, status: RoomStatus, turn: nat, round: nat)

  predicate InPlay(row: RoomRow) {
    row.status.PlayingRoom? || row.status.PausedRoom?
  }

  function Greatest(a: nat, b: nat): nat {
    if a < b then b else a
  }

  /** Archiving moves the row forward, never back, and not at all while a record is only drained. */
  function ArchivedRow(s: Store, row: RoomRow, r: Record): RoomRow {
    if ArchiveAndAdvance(s, r).1.Ok? && OrdinaryAllowed(s, r) && InPlay(row)
    then row.(turn := Greatest(row.turn, r.turnAfter), round := Greatest(row.round, r.roundAfter)) else row
  }

  /** What a completing processor says about the row; the image stands for its hash. */
  datatype Progress = Progress(turn: nat, round: nat, image: Image)

  predicate ProgressFits(row: RoomRow, op: Operation, p: Progress) {
    op.image == p.image && row.owner == p.image.owner && row.solo == p.image.solo && InPlay(row)
  }

  function ProgressedRow(row: RoomRow, kind: OpKind, p: Progress): RoomRow {
    row.(turn := p.turn, round := p.round,
         status := if kind.LoadOp? then PausedRoom else if kind.EndOp? then EndedRoom else row.status)
  }

  /** CompleteOperationAndProgress: the row and the operation change together, and only for a room in play. */
  function CompletedWith(s: Store, row: RoomRow, id: Uuid, p: Progress): (Store, RoomRow, Option<Error>) {
    if id !in s.ops then (s, row, Some(NotFound))
    else if s.ops[id].phase.Completed? then (s, row, if s.ops[id].image != p.image then Some(Conflict) else None)
    else if !s.ops[id].phase.RedisApplied? then (s, row, Some(Busy))
    else if !ProgressFits(row, s.ops[id], p) then (s, row, Some(Conflict))
    else
      var (n, failed) := Advance(s, id, RedisApplied, Completed);
      (n, if failed.None? then ProgressedRow(row, s.ops[id].kind, p) else row, failed)
  }

  /** PauseOperationRoom: a recovered start is paused while it owns the room, or right after it has published it. */
  predicate MayPause(s: Store, row: RoomRow, id: Uuid, revision: nat) {
    && id in s.ops && s.state.Some? && s.ops[id].kind.StartOp? && InPlay(row)
    && var (st, op) := (s.state.value, s.ops[id]);
       || (st.operation == Some(id) && (op.phase.PreparedPhase? || op.phase.RedisApplied?))
       || (op.phase.Completed? && st.status.ReadyState? && st.operation.None? && st.active.Some? && st.active == op.target
           && st.revision == revision)
  }

  /** A completed load leaves the room paused at its image's turn, a completed end leaves it ended; neither is undone by archiving. */
  lemma ProgressLasts(s: Store, row: RoomRow, id: Uuid, p: Progress, r: Record)
    requires CompletedWith(s, row, id, p).2.None? && id in s.ops && !s.ops[id].phase.Completed?
    ensures var (n, m, _) := CompletedWith(s, row, id, p);
      && m == ProgressedRow(row, s.ops[id].kind, p)
      && n == Advance(s, id, RedisApplied, Completed).0 && id in n.ops && n.ops[id].phase.Completed?
      && ArchivedRow(n, m, r).status == m.status && m.turn <= ArchivedRow(n, m, r).turn
      && (m.status.EndedRoom? ==> ArchivedRow(n, m, r) == m)
  {
  }
}
