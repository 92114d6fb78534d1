/**
 The Redis repository of one room: one object holding the keys, one method per script.
 Each method changes keys in the order its script does, after every check that could refuse it.
 */
module RuntimeStore {
  import opened MemoryModel
  import opened Journal
  import opened Runtime

  class RedisGameStateRepo {
    var meta: Option<Meta>
    var pending: Option<Outbox>
    var lease: Option<Lease>
    var queued: bool
    var control: Option<Control>
    var receipts: map<Uuid, Image>
    var play: Option<Play>
    var boundaries: set<Boundary>

    function Keys(): Redis
      reads this
    {
      Redis(meta, pending, lease, queued, control, receipts, play, boundaries)
    }

    constructor ()
      ensures Keys() == NO_KEYS
    {
      meta, pending, lease, queued, control, receipts, play, boundaries := None, None, None, false, None, map[], None, {};
    }

    /** The body, the metadata and the durable mark belong together. */
    predicate BodyFits()
      reads this
    {
      && meta.Some? && pending.Some? && pending.value.record.timeline == meta.value.timeline
      && pending.value.record.position == meta.value.head && meta.value.head == meta.value.durable + 1
      && pending.value.record.revision == meta.value.revision
    }

    /** The operation holds the room's token, with this very image. */
    predicate Held(id: Uuid, op: Operation)
      reads this
    {
      control.Some? && control.value.op == id && control.value.image == op.image && meta.Some? && meta.value.control == Some(id)
    }

    /** The token is held over a room with nothing left to archive or to save. */
    predicate MayInstall(id: Uuid, op: Operation)
      reads this
    {
      && Held(id, op) && !meta.value.state.Blocked? && (control.value.phase.Fenced? || control.value.phase.Applied?)
      && meta.value.head == meta.value.durable && pending.None? && boundaries == {}
    }

    /** The image's opening is the first record of the branch, not yet handed over or waiting. */
    predicate OpeningFits(op: Operation)
      requires meta.Some? && op.image.boundary.Some?
      reads this
    {
      var r := op.image.boundary.value;
      && r.kind.Opening? && r.position == 1 && r.timeline == meta.value.timeline && r.revision == meta.value.revision
      && r.generation == op.image.generation && meta.value.durable == 0
      && (if pending.Some? then pending.value.record == r && meta.value.head == 1 else meta.value.head == 0)
    }

    method CommitAction(r: Record, boundary: bool) returns (admitted: bool)
      modifies this
      ensures admitted == CommitAdmitted(old(Keys()), r) && Keys() == Commit(old(Keys()), r, boundary)
      ensures admitted <==>
                && old(meta).Some? && old(meta).value.state.Ready? && old(meta).value.control.None? && old(pending).None?
                && old(meta).value.head == old(meta).value.durable && Sealed(r) && !r.kind.Opening? && !r.kind.LegacyBaseline?
                && old(play).Some? && old(play).value == Play(Playing, r.generation, r.turnBefore) && r.turnAfter == r.turnBefore + 1
                && r.timeline == old(meta).value.timeline && r.revision == old(meta).value.revision
                && r.position == old(meta).value.head + 1 <= MAX_REDIS_POSITION
      ensures admitted ==>
                && pending == Some(Outbox(r, 0, boundary)) && queued && meta == Some(old(meta).value.(head := r.position, state := Pending))
                && play == Some(old(play).value.(turn := r.turnAfter))
                && Keys() == old(Keys()).(pending := pending, queued := true, meta := meta, play := play)
      ensures !admitted ==> Keys() == old(Keys())
    {
      if meta.None? || !meta.value.state.Ready? || meta.value.control.Some? || meta.value.head != meta.value.durable || pending.Some? {
        return false;
      }
      if play.None? || !play.value.status.Playing? || r.generation != play.value.generation || r.turnBefore != play.value.turn || r.turnAfter != r.turnBefore + 1 {
        return false;
      }
      if r.timeline != meta.value.timeline || r.position != meta.value.head + 1 || r.position > MAX_REDIS_POSITION || r.revision != meta.value.revision {
        return false;
      }
      if !Sealed(r) || r.kind.Opening? || r.kind.LegacyBaseline? {
        return false;
      }
      meta := Some(meta.value.(head := r.position, state := Pending));
      pending := Some(Outbox(r, 0, boundary));
      queued := true;
      play := Some(play.value.(turn := r.turnAfter));
      return true;
    }

    method ClaimGameArchive(owner: Uuid) returns (result: ClaimResult)
      modifies this
      ensures (Keys(), result) == Claim(old(Keys()), owner)
      ensures result.Claimed? <==>
                && old(BodyFits()) && (old(meta).value.state.Pending? || old(meta).value.state.Recovering?)
                && (old(lease).None? || old(lease).value == Lease(owner, old(pending).value.record))
      ensures result.LeaseTaken? <==>
                && old(BodyFits()) && (old(meta).value.state.Pending? || old(meta).value.state.Recovering?)
                && old(lease).Some? && old(lease).value != Lease(owner, old(pending).value.record)
      ensures result.Damaged? <==>
                && old(meta).Some? && !old(meta).value.state.Blocked?
                && if old(pending).None? then old(meta).value.head != old(meta).value.durable
                   else old(meta).value.state.Ready? || !old(BodyFits())
      ensures result.Closed? <==> old(meta).Some? && old(meta).value.state.Blocked?
      ensures result.Claimed? ==>
                && result.record == old(pending).value.record && lease == Some(Lease(owner, result.record))
                && Keys() == old(Keys()).(lease := lease, queued := true)
      ensures result.LeaseTaken? ==> Keys() == old(Keys())
      ensures result.Damaged? ==> Keys() == old(Keys()).(meta := Some(old(meta).value.(state := Blocked)), queued := false)
      ensures result.Closed? || result.Nothing? ==> Keys() == old(Keys()).(queued := false)
    {
      if meta.None? {
        queued := false;
        return Nothing;
      }
      if meta.value.state.Blocked? {
        queued := false;
        return Closed;
      }
      if pending.None? {
        queued := false;
        if meta.value.head != meta.value.durable {
          meta := Some(meta.value.(state := Blocked));
          return Damaged;
        }
        return Nothing;
      }
      var r := pending.value.record;
      if meta.value.state.Ready? || r.timeline != meta.value.timeline || r.position != meta.value.head
         || meta.value.head != meta.value.durable + 1 || r.revision != meta.value.revision {
        meta := Some(meta.value.(state := Blocked));
        queued := false;
        return Damaged;
      }
      if lease.Some? && (lease.value.owner != owner || lease.value.record != r) {
        return LeaseTaken;
      }
      lease := Some(Lease(owner, r));
      queued := true;
      return Claimed(r);
    }

    method AcknowledgeGameArchive(owner: Uuid, r: Record) returns (result: AckResult)
      modifies this
      ensures (Keys(), result) == Acknowledge(old(Keys()), owner, r)
      ensures result.Acked? <==>
                && old(pending).Some? && old(pending).value.record == r && old(lease) == Some(Lease(owner, r))
                && old(meta).Some? && old(meta).value.timeline == r.timeline && old(meta).value.head == r.position == old(meta).value.durable + 1
                && (old(meta).value.state.Pending? || old(meta).value.state.Recovering?)
                && (old(play).Some? && old(play).value.status.Playing? && old(meta).value.control.None? ==>
                      old(play).value == Play(Playing, r.generation, r.turnAfter))
      ensures result.Acked? ==>
                && boundaries == old(boundaries) +
                     (if old(pending).value.boundary then {Boundary(r.timeline, r.position, r.roundAfter)} else {})
                && meta == Some(old(meta).value.(durable := r.position, last := Some(Lease(owner, r)),
                                                 state := if old(meta).value.control.None? then Ready else Recovering))
                && Keys() == old(Keys()).(meta := meta, pending := None, lease := None, queued := false, boundaries := boundaries)
      ensures !result.Acked? ==> Keys() == old(Keys())
      ensures result.Duplicate? <==>
                && old(meta).Some? && old(meta).value.timeline == r.timeline && old(pending).None?
                && old(meta).value.last == Some(Lease(owner, r)) && old(meta).value.durable == r.position
      ensures result.Corrupt? ==> old(pending).Some? && old(lease) == Some(Lease(owner, r))
    {
      if meta.None? || meta.value.timeline != r.timeline {
        return BranchChanged;
      }
      if pending.None? {
        return if meta.value.last == Some(Lease(owner, r)) && meta.value.durable == r.position then Duplicate else LeaseLost;
      }
      if lease != Some(Lease(owner, r)) {
        return LeaseLost;
      }
      if pending.value.record != r || meta.value.head != r.position || meta.value.durable + 1 != meta.value.head
         || meta.value.state.Ready? || meta.value.state.Blocked? {
        return Corrupt;
      }
      var playing := play.Some? && play.value.status.Playing?;
      var resumes := playing && play.value.generation == r.generation && play.value.turn == r.turnAfter && meta.value.control.None?;
      if playing && meta.value.control.None? && !resumes {
        return Corrupt;
      }
      boundaries := boundaries + Waiting(pending.value);
      meta := Some(meta.value.(durable := r.position, state := if meta.value.control.None? then Ready else Recovering,
                               last := Some(Lease(owner, r))));
      pending, lease, queued := None, None, false;
      return Acked;
    }

    method RetryGameArchive(owner: Uuid, r: Record)
      modifies this
      ensures Keys() == Retry(old(Keys()), owner, r)
      ensures var mine := old(meta).Some? && old(meta).value.timeline == r.timeline && old(pending).Some? && old(pending).value.record == r
                          && old(lease) == Some(Lease(owner, r));
        && (!mine ==> Keys() == old(Keys()))
        && (mine ==>
              && lease.None? && queued && pending.Some? && pending.value.record == r && pending.value.boundary == old(pending).value.boundary
              && pending.value.attempts == (if old(pending).value.attempts < 30 then old(pending).value.attempts + 1 else 30)
              && Keys() == old(Keys()).(lease := None, queued := true, pending := pending))
    {
      if HoldsLease(Keys(), owner, r) {
        queued := true;
        var attempts := pending.value.attempts + 1;
        pending := Some(pending.value.(attempts := if attempts > 30 then 30 else attempts));
        lease := None;
      }
    }

    method BlockGameArchive(owner: Uuid, r: Record)
      modifies this
      ensures Keys() == Block(old(Keys()), owner, r)
      ensures var mine := old(meta).Some? && old(meta).value.timeline == r.timeline && old(pending).Some? && old(pending).value.record == r
                          && old(lease) == Some(Lease(owner, r));
        Keys() == if mine then old(Keys()).(meta := Some(old(meta).value.(state := Blocked)), lease := None, queued := false)
                  else old(Keys())
    {
      if HoldsLease(Keys(), owner, r) {
        meta := Some(meta.value.(state := Blocked));
        queued := false;
        lease := None;
      }
    }

    method AcknowledgeMemoryAutoSave(b: Boundary)
      modifies this`boundaries
      ensures Keys() == Flushed(old(Keys()), b)
      ensures b !in boundaries && forall o :: o != b ==> (o in boundaries <==> o in old(boundaries))
    {
      boundaries := boundaries - {b};
    }

    method InitializeMemoryStart(id: Uuid, op: Operation) returns (result: ControlResult)
      requires op.target.Some?
      modifies this
      ensures (Keys(), result) == Initialize(old(Keys()), id, op)
      ensures result.Done? <==>
                id !in old(receipts) && op.kind.StartOp? && old(control).None? && old(meta).None? && old(play).None?
      ensures result.Done? ==>
                && play == Some(Play(Provisional, op.image.generation, op.image.turn)) && control == Some(Control(id, op.image, Fenced))
                && meta == Some(Meta(op.target.value, 0, 0, op.image.targetRevision, Recovering, Some(id), None))
                && Keys() == old(Keys()).(play := play, meta := meta, control := control)
      ensures !result.Done? ==> Keys() == old(Keys())
      ensures result.Already? <==>
                if id in old(receipts) then old(receipts)[id] == op.image
                else op.kind.StartOp? && old(control).Some? && old(control).value.op == id && old(control).value.image == op.image
    {
      if id in receipts {
        return ReceiptReply(Keys(), id, op);
      }
      if !op.kind.StartOp? {
        return WrongBranch;
      }
      if SameControl(Keys(), id, op) {
        return Already;
      }
      if control.Some? || meta.Some? || play.Some? {
        return WrongBranch;
      }
      play := Some(Play(Provisional, op.image.generation, op.image.turn));
      meta := Some(Meta(op.target.value, 0, 0, op.image.targetRevision, Recovering, Some(id), None));
      control := Some(Control(id, op.image, Fenced));
      return Done;
    }

    method AbortMemoryStart(id: Uuid, op: Operation) returns (result: ControlResult)
      modifies this
      ensures (Keys(), result) == AbortStart(old(Keys()), id, op)
      ensures result.Done? <==>
                && id !in old(receipts) && op.kind.StartOp? && old(Held(id, op)) && old(control).value.phase.Fenced?
                && old(meta).value.head == old(meta).value.durable == 0 && old(pending).None?
      ensures result.Done? ==>
                Keys() == old(Keys()).(play := None, meta := Some(old(meta).value.(state := Blocked)),
                                       control := Some(old(control).value.(phase := StartAborted)))
      ensures !result.Done? ==> Keys() == old(Keys())
      ensures result.Already? <==>
                if id in old(receipts) then old(receipts)[id] == op.image
                else op.kind.StartOp? && old(Held(id, op)) && old(control).value.phase.StartAborted?
    {
      if id in receipts {
        return ReceiptReply(Keys(), id, op);
      }
      if !op.kind.StartOp? || !Holds(Keys(), id, op) {
        return WrongBranch;
      }
      if control.value.phase.StartAborted? {
        return Already;
      }
      if !control.value.phase.Fenced? || meta.value.head != 0 || meta.value.durable != 0 || pending.Some? {
        return WrongBranch;
      }
      play := None;
      meta := Some(meta.value.(state := Blocked));
      control := Some(control.value.(phase := StartAborted));
      return Done;
    }

    method FenceMemoryOperation(id: Uuid, op: Operation, fence: Uuid, recovery: bool) returns (result: ControlResult)
      requires op.source.Some?
      modifies this
      ensures (Keys(), result) == Fence(old(Keys()), id, op, fence, recovery)
      ensures result.Done? <==>
                && id !in old(receipts) && old(meta).Some? && !old(meta).value.state.Blocked? && old(meta).value.control.None?
                && (old(control).None? || old(control).value.phase.Finished?)
                && Some(old(meta).value.timeline) == op.source && old(meta).value.revision == op.image.sourceRevision
                && (if old(play).None? then recovery && op.kind.LoadOp?
                    else old(play).value.generation == op.sourceGeneration && !old(play).value.status.Provisional?)
      ensures result.Done? ==>
                && play == Some(Play(Paused, fence, if old(play).Some? then old(play).value.turn else 0))
                && control == Some(Control(id, op.image, Fenced))
                && Keys() == old(Keys()).(play := play, control := control,
                                          meta := Some(old(meta).value.(control := Some(id), state := Recovering)))
      ensures !result.Done? ==> Keys() == old(Keys())
      ensures result.Already? <==>
                if id in old(receipts) then old(receipts)[id] == op.image
                else old(Held(id, op)) && !old(meta).value.state.Blocked?
    {
      if id in receipts {
        return ReceiptReply(Keys(), id, op);
      }
      if meta.None? || meta.value.state.Blocked? {
        return NotReady;
      }
      if Holds(Keys(), id, op) {
        return Already;
      }
      if control.Some? && !control.value.phase.Finished? {
        return NotReady;
      }
      if meta.value.control.Some? || meta.value.timeline != op.source.value || meta.value.revision != op.image.sourceRevision {
        return WrongBranch;
      }
      var turn := 0;
      if play.None? {
        if !recovery || !op.kind.LoadOp? {
          return NotReady;
        }
      } else {
        if play.value.generation != op.sourceGeneration || play.value.status.Provisional? {
          return WrongBranch;
        }
        turn := play.value.turn;
      }
      play := Some(Play(Paused, fence, turn));
      meta := Some(meta.value.(control := Some(id), state := Recovering));
      control := Some(Control(id, op.image, Fenced));
      return Done;
    }

    method ApplyMemoryOperation(id: Uuid, op: Operation, fence: Uuid, recovery: bool) returns (result: ControlResult)
      requires !op.kind.EndOp? ==> op.target.Some?
      modifies this
      ensures (Keys(), result) == Apply(old(Keys()), id, op, fence, recovery)
      ensures result.Done? || result.Already? ==> id in old(receipts) || old(MayInstall(id, op))
      ensures result.Done? <==>
                && id !in old(receipts) && old(MayInstall(id, op))
                && (if old(control).value.phase.Applied? then
                      && !op.kind.EndOp?
                      && (if old(play).None? then recovery
                          else op.kind.StartOp? && recovery && old(play).value.generation == op.image.generation && old(play).value.status.Playing?)
                    else if old(play).None? then recovery
                    else if op.kind.StartOp? then old(play).value.generation == op.image.generation && old(play).value.status.Provisional?
                    else old(play).value.generation == fence && old(play).value.status.Paused?)
      ensures result.Done? && op.kind.EndOp? ==> Keys() == old(Keys()).(control := Some(old(control).value.(phase := Applied)))
      ensures result.Done? && !op.kind.EndOp? ==>
                && play == Some(Play(if op.kind.StartOp? && !recovery then Playing else Paused, op.image.generation, op.image.turn))
                && meta == Some(old(meta).value.(timeline := op.target.value, head := op.image.position, durable := op.image.position,
                                                 revision := op.image.targetRevision))
                && Keys() == old(Keys()).(play := play, meta := meta, control := Some(old(control).value.(phase := Applied)))
      ensures !result.Done? ==> Keys() == old(Keys())
      ensures result.Already? <==>
                if id in old(receipts) then old(receipts)[id] == op.image
                else old(MayInstall(id, op)) && old(control).value.phase.Applied?
                     && (op.kind.EndOp?
                         || (old(play).Some? && old(play).value.generation == op.image.generation && !old(play).value.status.Provisional?
                             && !(op.kind.StartOp? && recovery && old(play).value.status.Playing?)))
    {
      if id in receipts {
        return ReceiptReply(Keys(), id, op);
      }
      if meta.None? || meta.value.state.Blocked? {
        return NotReady;
      }
      if !Holds(Keys(), id, op) {
        return WrongBranch;
      }
      if !control.value.phase.Fenced? && !control.value.phase.Applied? {
        return WrongBranch;
      }
      if meta.value.head != meta.value.durable || pending.Some? || boundaries != {} {
        return NotReady;
      }
      var lost := play.None?;
      if control.value.phase.Applied? {
        if op.kind.EndOp? {
          return Already;
        }
        if !lost && play.value.generation == op.image.generation && !play.value.status.Provisional? {
          if !(op.kind.StartOp? && recovery && play.value.status.Playing?) {
            return Already;
          }
        } else if !recovery || !lost {
          return WrongBranch;
        }
      } else if op.kind.StartOp? {
        if !(!lost && play.value.generation == op.image.generation && play.value.status.Provisional?) && !(recovery && lost) {
          return WrongBranch;
        }
      } else if lost || play.value.generation != fence || !play.value.status.Paused? {
        if !recovery || !lost {
          return WrongBranch;
        }
      }
      if !op.kind.EndOp? {
        play := Some(Play(if op.kind.StartOp? && !recovery then Playing else Paused, op.image.generation, op.image.turn));
        meta := Some(meta.value.(timeline := op.target.value, head := op.image.position, durable := op.image.position,
                                 revision := op.image.targetRevision));
      }
      control := Some(control.value.(phase := Applied));
      return Done;
    }

    method FinishMemoryOperation(id: Uuid, op: Operation) returns (result: ControlResult)
      requires op.kind.StartOp? ==> op.image.boundary.Some?
      requires !op.kind.EndOp? ==> op.target.Some?
      modifies this
      ensures (Keys(), result) == Finish(old(Keys()), id, op)
      ensures result.Done? <==>
                && id !in old(receipts) && old(Held(id, op)) && !old(meta).value.state.Blocked? && old(control).value.phase.Applied?
                && (!op.kind.EndOp? ==>
                      && old(play).Some? && old(play).value.generation == op.image.generation && old(play).value.turn == op.image.turn
                      && !old(play).value.status.Provisional?)
                && (if op.kind.StartOp? then old(OpeningFits(op))
                    else old(pending).None? && old(boundaries) == {} && old(meta).value.head == old(meta).value.durable)
                && (op.kind.LoadOp? ==>
                      Some(old(meta).value.timeline) == op.target && old(meta).value.revision == op.image.targetRevision)
      ensures result.Done? ==>
                && receipts == old(receipts)[id := op.image] && control == Some(old(control).value.(phase := Finished))
                && lease == old(lease) && boundaries == old(boundaries)
                && (op.kind.StartOp? ==>
                      && pending.Some? && pending.value.record == op.image.boundary.value && queued == (old(pending).None? || old(queued))
                      && (old(pending).None? ==> pending.value.attempts == 0 && !pending.value.boundary)
                      && (old(pending).Some? ==> pending == old(pending))
                      && meta == Some(old(meta).value.(head := 1, state := Pending, control := None)) && play == old(play))
                && (!op.kind.StartOp? ==>
                      && pending == old(pending) && queued == old(queued)
                      && meta == Some(old(meta).value.(state := Ready, control := None))
                      && play == if op.kind.EndOp? then None else old(play))
      ensures !result.Done? ==> Keys() == old(Keys())
      ensures result.Already? <==> id in old(receipts) && old(receipts)[id] == op.image
    {
      if id in receipts {
        return ReceiptReply(Keys(), id, op);
      }
      if meta.None? || meta.value.state.Blocked? {
        return NotReady;
      }
      if !Holds(Keys(), id, op) || !control.value.phase.Applied? {
        return WrongBranch;
      }
      if !op.kind.EndOp? && (play.None? || play.value.generation != op.image.generation || play.value.status.Provisional?
                             || play.value.turn != op.image.turn) {
        return NotReady;
      }
      if op.kind.StartOp? {
        var r := op.image.boundary.value;
        if !r.kind.Opening? || r.position != 1 || r.timeline != meta.value.timeline || r.revision != meta.value.revision
           || r.generation != op.image.generation {
          return BadState;
        }
        if pending.Some? {
          if pending.value.record != r || meta.value.head != 1 || meta.value.durable != 0 {
            return BadState;
          }
        } else if meta.value.head == 0 && meta.value.durable == 0 {
          pending := Some(Outbox(r, 0, false));
          meta := Some(meta.value.(head := 1));
          queued := true;
        } else {
          return BadState;
        }
        meta := Some(meta.value.(state := Pending, control := None));
      } else {
        if meta.value.head != meta.value.durable || pending.Some? || boundaries != {} {
          return NotReady;
        }
        if op.kind.LoadOp? && (meta.value.timeline != op.target.value || meta.value.revision != op.image.targetRevision) {
          return WrongBranch;
        }
        if op.kind.EndOp? {
          play := None;
        }
        meta := Some(meta.value.(state := Ready, control := None));
      }
      control := Some(control.value.(phase := Finished));
      receipts := receipts[id := op.image];
      return Done;
    }
  }
}
