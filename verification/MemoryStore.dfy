/**
 The MySQL repository: one object holding a room's rows, one method per transaction.
 A transaction checks everything it reads before its final write, or leaves every row alone.
 */
module MemoryStore {
  import opened MemoryModel
  import opened Ledger
  import H = History
  import opened Journal

  class GameMemoryRepo {
    var timelines: map<Uuid, Timeline>
    var records: map<(Uuid, nat), Record>
    var state: Option<StateRow>
    var operations: map<Uuid, Operation>
    var saves: map<nat, SavePoint>
    var row: RoomRow

    function Contents(): Store
      reads this
    {
      Store(Tables(timelines, records), state, operations, saves)
    }

    ghost predicate Valid()
      reads this
    {
      H.Inv(Contents().tables)
    }

    constructor (row: RoomRow)
      ensures Valid() && Contents() == EMPTY && this.row == row
    {
      timelines, records, state, operations, saves := map[], map[], None, map[], map[];
      this.row := row;
    }

    /** PrepareOperation: the capability is occupied, the branch row and the intent are created together. */
    method PrepareOperation(id: Uuid, op: Operation, target: Option<Timeline>, revision: nat) returns (r: Result<Operation>)
      requires Valid()
      modifies this
      ensures Valid() && row == old(row)
      ensures (Contents(), r) == Prepare(old(Contents()), id, op, target, revision)
      ensures r.Ok? <==> if id in old(operations) then Repeats(old(Contents()), id, op, target)
                         else WellFormed(op, target) && Vacant(old(state), op, revision) && Forkable(old(Contents()), op, target)
      ensures r.Ok? && id !in old(operations) ==> Opened(old(Contents()), Contents(), id, op, target)
      ensures r.Ok? ==> r.value == operations[id]
      ensures r.Err? || id in old(operations) ==> Contents() == old(Contents())
      ensures r == Err(Invalid) <==> !WellFormed(op, target)
      ensures r == Err(Busy) <==>
                && WellFormed(op, target) && id !in old(operations) && old(state).Some?
                && (op.kind.StartOp? || !old(state).value.status.ReadyState? || old(state).value.operation.Some? || old(state).value.active != op.source)
    {
      if !OperationSealed(op) || !TargetShapeOk(op, target) {
        return Err(Invalid);
      }
      if id in operations {
        return Reprepared(Contents(), id, op, target);
      }
      var occupied: StateRow;
      if op.kind.StartOp? {
        if state.Some? {
          return Err(Busy);
        }
        occupied := StateRow(None, Initializing, 1, Some(id));
      } else {
        if state.None? {
          return Err(NotFound);
        }
        var st := state.value;
        if !st.status.ReadyState? || st.operation.Some? || st.active != op.source {
          return Err(Busy);
        }
        if revision != 0 && st.revision != revision {
          return Err(Conflict);
        }
        occupied := st.(status := RecoveringState, operation := Some(id), revision := st.revision + 1);
      }
      if target.Some? {
        var refused := CheckBranch(op, target.value);
        if refused.Some? {
          return Err(refused.value);
        }
        if op.target.value in timelines {
          return Err(Conflict);
        }
      }
      ghost var before := Contents();
      if target.Some? {
        timelines := timelines[op.target.value := target.value.(status := Prepared)];
        AdmittedBranch(before, op, target.value);
      }
      state := Some(occupied);
      operations := operations[id := op.(phase := PreparedPhase)];
      return Ok(op.(phase := PreparedPhase));
    }

    /** The checks PrepareOperation makes on a new branch: its ancestry, its completeness and its save. */
    method CheckBranch(op: Operation, target: Timeline) returns (refused: Option<Error>)
      requires Valid()
      ensures refused == (if BranchError(Contents(), op, target).Some? then BranchError(Contents(), op, target)
                          else SaveError(Contents(), op, target))
    {
      if target.parent.None? {
        if target.fork != 0 || (op.kind.LoadOp? && target.complete) {
          return Some(Branch);
        }
      } else {
        var path := ResolveVisiblePath(timelines, target.parent.value, target.fork);
        if path.Err? {
          NoDangling(Contents().tables);
          return Some(path.error);
        }
        if |path.value| >= MAX_DEPTH || target.complete != timelines[target.parent.value].complete {
          return Some(Branch);
        }
      }
      return SaveError(Contents(), op, target);
    }

    /** AdvanceOperation: a compare-and-set on the phase; completing also publishes the branch. */
    method AdvanceOperation(id: Uuid, from: Phase, to: Phase) returns (failed: Option<Error>)
      requires Valid()
      modifies this
      ensures Valid() && row == old(row)
      ensures (Contents(), failed) == Advance(old(Contents()), id, from, to)
      ensures failed.None? <==>
                && MayFollow(from, to) && id in old(operations)
                && (old(operations)[id].phase == to || (old(operations)[id].phase == from && Owns(old(Contents()), id, to)))
      ensures failed.None? && old(operations)[id].phase != to ==> Moved(old(Contents()), Contents(), id, to)
      ensures failed.Some? || old(operations)[id].phase == to ==> Contents() == old(Contents())
      ensures failed == Some(Invalid) <==> !MayFollow(from, to)
      ensures failed == Some(Busy) <==>
                && MayFollow(from, to) && id in old(operations) && old(operations)[id].phase != to
                && (old(operations)[id].phase != from || (old(state).Some? && old(state).value.operation != Some(id)))
    {
      if !AdvanceAllowed(from, to) {
        return Some(Invalid);
      }
      if id !in operations {
        return Some(NotFound);
      }
      var op := operations[id];
      if op.phase == to {
        return None;
      }
      if op.phase != from {
        return Some(Busy);
      }
      if state.None? {
        return Some(NotFound);
      }
      var st := state.value;
      if st.operation != Some(id) {
        return Some(Busy);
      }
      st := st.(revision := st.revision + 1);
      ghost var before := timelines;
      match to {
      case Completed =>
        if op.kind.EndOp? {
          st := st.(operation := None, status := EndedState);
        } else {
          if op.target.None? || op.target.value !in timelines || !timelines[op.target.value].status.Prepared? {
            return Some(Branch);
          }
          timelines := timelines[op.target.value := timelines[op.target.value].(status := Active)];
          st := st.(operation := None, status := ReadyState, active := op.target);
        }
      case AbortedPhase =>
        st := st.(operation := None, status := if op.kind.StartOp? then BlockedState else ReadyState);
        if op.target.Some? && op.target.value in timelines && timelines[op.target.value].status.Prepared? {
          timelines := timelines[op.target.value := timelines[op.target.value].(status := Aborted)];
        }
      case BlockedPhase =>
        st := st.(status := BlockedState);
      case _ =>
      }
      if op.target.Some? {
        H.SettleKeepsInv(Tables(before, records), op.target.value, Active);
        H.SettleKeepsInv(Tables(before, records), op.target.value, Aborted);
      }
      state := Some(st);
      operations := operations[id := op.(phase := to)];
      return None;
    }

    /** The point a new save row stands at; what else the row holds is the business of Autosaves. */
    method AddSave(n: nat, point: SavePoint)
      requires Valid() && n !in saves
      modifies this`saves
      ensures Valid() && Contents() == old(Contents()).(saves := old(saves)[n := point])
    {
      saves := saves[n := point];
    }

    /** CompleteOperationAndProgress: the row is checked first and written with the phase. */
    method CompleteOperationAndProgress(id: Uuid, p: Progress) returns (failed: Option<Error>)
      requires Valid()
      modifies this
      ensures Valid()
      ensures (Contents(), row, failed) == CompletedWith(old(Contents()), old(row), id, p)
      ensures failed.None? <==>
                && id in old(operations) && old(operations)[id].image == p.image
                && (old(operations)[id].phase.Completed?
                    || (old(operations)[id].phase.RedisApplied? && Owns(old(Contents()), id, Completed)
                        && old(row).owner == p.image.owner && old(row).solo == p.image.solo
                        && (old(row).status.PlayingRoom? || old(row).status.PausedRoom?)))
      ensures failed.None? && old(operations)[id].phase.RedisApplied? ==>
                && Moved(old(Contents()), Contents(), id, Completed)
                && row == RoomRow(old(row).owner, old(row).solo,
                                  match old(operations)[id].kind
                                  case LoadOp => PausedRoom
                                  case EndOp => EndedRoom
                                  case StartOp => old(row).status, p.turn, p.round)
      ensures failed.Some? || old(operations)[id].phase.Completed? ==> Contents() == old(Contents()) && row == old(row)
    {
      if id !in operations {
        return Some(NotFound);
      }
      var op := operations[id];
      if op.phase.Completed? {
        return if op.image != p.image then Some(Conflict) else None;
      }
      if !op.phase.RedisApplied? {
        return Some(Busy);
      }
      if op.image != p.image || row.owner != p.image.owner || row.solo != p.image.solo
         || !(row.status.PlayingRoom? || row.status.PausedRoom?) {
        return Some(Conflict);
      }
      failed := AdvanceOperation(id, RedisApplied, Completed);
      if failed.None? {
        row := row.(turn := p.turn, round := p.round);
        if op.kind.LoadOp? {
          row := row.(status := PausedRoom);
        } else if op.kind.EndOp? {
          row := row.(status := EndedRoom);
        }
      }
    }

    method PauseOperationRoom(id: Uuid, revision: nat) returns (ok: bool)
      modifies this`row
      ensures ok == MayPause(Contents(), old(row), id, revision)
      ensures ok <==>
                && id in operations && operations[id].kind.StartOp? && state.Some?
                && (old(row).status.PlayingRoom? || old(row).status.PausedRoom?)
                && ((state.value.operation == Some(id) && (operations[id].phase.PreparedPhase? || operations[id].phase.RedisApplied?))
                    || (operations[id].phase.Completed? && state.value.status.ReadyState? && state.value.operation.None?
                        && state.value.revision == revision && state.value.active.Some? && state.value.active == operations[id].target))
      ensures row == if ok then old(row).(status := PausedRoom) else old(row)
    {
      if id !in operations || state.None? {
        return false;
      }
      var op, st := operations[id], state.value;
      var owned := st.operation == Some(id) && (op.phase.PreparedPhase? || op.phase.RedisApplied?);
      var published := op.phase.Completed? && st.status.ReadyState? && st.operation.None? && st.active.Some? && op.target.Some?
                       && st.active == op.target && st.revision == revision;
      if !op.kind.StartOp? || (!owned && !published) || !InPlay(row) {
        return false;
      }
      row := row.(status := PausedRoom);
      return true;
    }

    /** TransitionRoomStatus: a row in another status is left alone. */
    method TransitionRoomStatus(owner: nat, from: set<RoomStatus>, next: RoomStatus) returns (changed: bool)
      modifies this`row
      ensures changed == (old(row).owner == owner && old(row).status in from)
      ensures row == if changed then old(row).(status := next) else old(row)
    {
      changed := row.owner == owner && row.status in from;
      if changed {
        row := row.(status := next);
      }
    }

    /** ArchiveAndAdvance: the capability check comes first, under the same transaction. */
    method ArchiveAndAdvance(record: Record) returns (r: Result<bool>)
      requires Valid()
      modifies this
      ensures Valid()
      ensures (Contents(), r) == Journal.ArchiveAndAdvance(old(Contents()), record)
      ensures row == ArchivedRow(old(Contents()), old(row), record)
      ensures r.Ok? <==> Entitled(old(Contents()), record) && Accepts(old(Contents().tables), record)
      ensures r.Ok? ==> r.value == Absent(old(Contents().tables), record)
      ensures Contents().tables == if r == Ok(true) then Extended(old(Contents().tables), record) else old(Contents().tables)
      ensures state == old(state) && operations == old(operations) && saves == old(saves)
      ensures row == old(row).(turn := row.turn, round := row.round)
      ensures r.Ok? && state.value.operation.None? && InPlay(old(row)) ==>
                && row.turn == (if old(row).turn < record.turnAfter then record.turnAfter else old(row).turn)
                && row.round == (if old(row).round < record.roundAfter then record.roundAfter else old(row).round)
      ensures r.Err? || state.value.operation.Some? || !InPlay(old(row)) ==> row == old(row)
    {
      if !Sealed(record) {
        return Err(Invalid);
      }
      if state.None? {
        return Err(NotFound);
      }
      var st := state.value;
      if st.active != Some(record.timeline) {
        return Err(Branch);
      }
      if !st.status.ReadyState? || st.revision != record.revision || st.operation.Some? {
        if !st.status.RecoveringState? || st.operation.None? || record.revision >= MAX_UINT64 || st.revision != record.revision + 1 {
          return Err(Branch);
        }
        if st.operation.value !in operations {
          return Err(NotFound);
        }
        var op := operations[st.operation.value];
        if op.source != Some(record.timeline) || op.kind.StartOp? || !(op.phase.PreparedPhase? || op.phase.RedisApplied?) {
          return Err(Branch);
        }
      }
      var ordinary := st.status.ReadyState? && st.revision == record.revision && st.operation.None?;
      r := Archive(record);
      if r.Ok? && ordinary && InPlay(row) {
        row := row.(turn := Greatest(row.turn, record.turnAfter), round := Greatest(row.round, record.roundAfter));
      }
    }

    /** Archive: only the next continuous position is accepted, and a replay must match exactly. */
    method Archive(record: Record) returns (r: Result<bool>)
      requires Valid()
      modifies this`timelines, this`records
      ensures Valid()
      ensures (Contents().tables, r) == H.Archived(old(Contents().tables), record)
      ensures r.Ok? <==> Accepts(old(Contents().tables), record)
      ensures r.Ok? ==> r.value == Absent(old(Contents().tables), record)
      ensures Contents().tables == if r == Ok(true) then Extended(old(Contents().tables), record) else old(Contents().tables)
    {
      H.ArchiveKeepsInv(Contents().tables, record);
      ArchivedAccepts(Contents().tables, record);
      if !Sealed(record) {
        return Err(Invalid);
      }
      if record.timeline !in timelines {
        return Err(NotFound);
      }
      var t := timelines[record.timeline];
      if !t.status.Active? {
        return Err(Branch);
      }
      var existing := set k | k in records && H.SameIdentity(records[k], record);
      if existing != {} {
        ghost var was := Contents().tables;
        assert forall k :: k in was.records && H.SameIdentity(was.records[k], record) <==> k in existing;
        OneMatch(was, record, existing);
        if |existing| != 1 || exists k :: k in existing && records[k] != record {
          return Err(Conflict);
        }
        if record.position > t.durable {
          return Err(Gap);
        }
        return Ok(false);
      }
      assert forall k :: k in records && H.SameIdentity(records[k], record) ==> k in existing;
      if record.kind.LegacyBaseline? {
        if t.parent.Some? || t.complete || t.durable != 0 {
          return Err(Branch);
        }
      } else if record.position != t.durable + 1 {
        return Err(Gap);
      }
      if record.kind.Opening? && (t.parent.Some? || !t.complete || record.position != 1) {
        return Err(Branch);
      }
      if t.parent.None? && t.complete && record.position == 1 && !record.kind.Opening? {
        return Err(Branch);
      }
      if !t.complete && t.parent.None? && record.position == 1 && (record.timeline, 0) !in records {
        return Err(Gap);
      }
      if record.kind.Action? && (|record.payload.events| > MAX_EVENTS || "" in record.payload.events) {
        return Err(Invalid);
      }
      if (record.timeline, record.position) in records {
        return Err(Conflict);
      }
      records := records[(record.timeline, record.position) := record];
      if record.position > 0 {
        timelines := timelines[record.timeline := t.(durable := record.position)];
      }
      return Ok(true);
    }
  }

  // ---------------------------------------------------------------- what the transactions demand and write

  /** An intent names its source, target and save as its kind demands, and its branch starts at its own fork. */
  ghost predicate WellFormed(op: Operation, target: Option<Timeline>) {
    && (op.source.Some? <==> !op.kind.StartOp?) && (op.target.Some? <==> !op.kind.EndOp?) && (op.targetSave.Some? <==> op.kind.LoadOp?)
    && (target.Some? <==> op.target.Some?)
    && (target.Some? ==> target.value.durable == target.value.fork && target.value.originSave == op.targetSave)
    && (target.Some? && op.kind.StartOp? ==> target.value.parent.None? && target.value.fork == 0 && target.value.complete)
  }

  /** A start needs a room without any state; a load or an end an idle ready one on its source, at the revision named. */
  ghost predicate Vacant(state: Option<StateRow>, op: Operation, revision: nat) {
    if op.kind.StartOp? then state.None?
    else
      && state.Some? && state.value.status.ReadyState? && state.value.operation.None? && state.value.active == op.source
      && (revision == 0 || state.value.revision == revision)
  }

  /** The new branch hangs on a sound path with room for one more, and a load forks exactly where its save stands. */
  ghost predicate Forkable(s: Store, op: Operation, target: Option<Timeline>) {
    target.Some? && op.target.Some? ==>
      var t, ts := target.value, s.tables.timelines;
      && op.target.value !in ts
      && (if t.parent.None? then t.fork == 0 && (op.kind.LoadOp? ==> !t.complete)
          else && t.parent.value in ts && ts[t.parent.value].complete == t.complete
               && Resolves(ts, t.parent.value, t.fork, MAX_DEPTH) && |Segments(ts, t.parent.value, t.fork, MAX_DEPTH)| < MAX_DEPTH)
      && (op.kind.LoadOp? && op.targetSave.Some? ==>
            && op.targetSave.value in s.saves
            && var save := s.saves[op.targetSave.value];
               if t.parent.None? then save.timeline.None? && save.position.None?
               else save.timeline == t.parent && save.position == Some(t.fork))
  }

  /** The stored intent is this one in whatever phase, and its branch row is the one it was created with. */
  ghost predicate Repeats(s: Store, id: Uuid, op: Operation, target: Option<Timeline>)
    requires id in s.ops
  {
    && WellFormed(op, target) && s.ops[id].(phase := op.phase) == op
    && (target.Some? && op.target.Some? ==>
          && op.target.value in s.tables.timelines
          && var t := s.tables.timelines[op.target.value];
             t.parent == target.value.parent && t.fork == target.value.fork
             && t.originSave == target.value.originSave && t.complete == target.value.complete)
  }

  /** The intent, its prepared branch and the occupied room appear together; nothing else changes. */
  ghost predicate Opened(s: Store, n: Store, id: Uuid, op: Operation, target: Option<Timeline>) {
    && n.ops == s.ops[id := op.(phase := PreparedPhase)] && n.saves == s.saves && n.tables.records == s.tables.records
    && n.tables.timelines == (if target.Some? && op.target.Some?
                              then s.tables.timelines[op.target.value := target.value.(status := Prepared)] else s.tables.timelines)
    && n.state.Some?
    && (if op.kind.StartOp? then n.state.value == StateRow(None, Initializing, 1, Some(id))
        else s.state.Some? && n.state.value == StateRow(s.state.value.active, RecoveringState, s.state.value.revision + 1, Some(id)))
  }

  ghost predicate MayFollow(from: Phase, to: Phase) {
    || (from == PreparedPhase && to in {RedisApplied, AbortedPhase, BlockedPhase})
    || (from == RedisApplied && to in {Completed, BlockedPhase})
  }

  /** The room is held by the intent, and a branch to be published is still waiting for that. */
  ghost predicate Owns(s: Store, id: Uuid, to: Phase)
    requires id in s.ops
  {
    && s.state.Some? && s.state.value.operation == Some(id)
    && (to.Completed? && !s.ops[id].kind.EndOp? ==>
          && s.ops[id].target.Some? && s.ops[id].target.value in s.tables.timelines
          && s.tables.timelines[s.ops[id].target.value].status.Prepared?)
  }

  /** One phase further: the revision counts it, the room is let go at the end, the branch is published or abandoned. */
  ghost predicate Moved(s: Store, n: Store, id: Uuid, to: Phase) {
    && id in s.ops && n.ops == s.ops[id := s.ops[id].(phase := to)] && n.saves == s.saves && n.tables.records == s.tables.records
    && var op := s.ops[id];
    && s.state.Some? && n.state.Some? && n.state.value.revision == s.state.value.revision + 1
    && n.state.value.operation == (if to.Completed? || to.AbortedPhase? then None else s.state.value.operation)
    && n.state.value.active == (if to.Completed? && !op.kind.EndOp? then op.target else s.state.value.active)
    && n.state.value.status == (match to
                                case Completed => if op.kind.EndOp? then EndedState else ReadyState
                                case AbortedPhase => if op.kind.StartOp? then BlockedState else ReadyState
                                case BlockedPhase => BlockedState
                                case _ => s.state.value.status)
    && (forall o :: o in n.tables.timelines <==> o in s.tables.timelines)
    && (forall o :: o in s.tables.timelines ==>
          n.tables.timelines[o] ==
            if Some(o) == op.target && s.tables.timelines[o].status.Prepared?
               && ((to.Completed? && !op.kind.EndOp?) || to.AbortedPhase?)
            then s.tables.timelines[o].(status := if to.Completed? then Active else Aborted)
            else s.tables.timelines[o])
  }

  /** A ready idle room at the record's revision, or a load or an end draining the branch it is about to leave. */
  ghost predicate Entitled(s: Store, r: Record) {
    && s.state.Some? && s.state.value.active == Some(r.timeline)
    && var st := s.state.value;
    || (st.status.ReadyState? && st.operation.None? && st.revision == r.revision)
    || (st.status.RecoveringState? && st.operation.Some? && st.revision == r.revision + 1 && r.revision < MAX_UINT64
        && st.operation.value in s.ops && s.ops[st.operation.value].source == Some(r.timeline) && !s.ops[st.operation.value].kind.StartOp?
        && (s.ops[st.operation.value].phase.PreparedPhase? || s.ops[st.operation.value].phase.RedisApplied?))
  }

  /** No stored record carries this commit or this request. */
  ghost predicate Absent(l: Tables, r: Record) {
    forall k {:trigger l.records[k]} :: k in l.records ==>
      l.records[k].commit != r.commit && (l.records[k].namespace != r.namespace || l.records[k].request != r.request)
  }

  /** A new record continues an active branch without a gap; a known one must stand there unaltered. */
  ghost predicate Accepts(l: Tables, r: Record) {
    && r.revision != 0 && r.turnBefore <= r.turnAfter && r.roundBefore <= r.roundAfter && r.position <= MAX_UINT64
    && r.actor != Some(0) && (r.kind.Action? || r.kind.SkipManual? ==> r.actor.Some?)
    && r.namespace == (match r.kind case Opening => OpeningRequests case SkipTimeout => TimeoutRequests
                       case LegacyBaseline => LegacyRequests case _ => ClientRequests)
    && (r.kind.LegacyBaseline? <==> r.position == 0)
    && r.timeline in l.timelines && l.timelines[r.timeline].status.Active?
    && var t := l.timelines[r.timeline];
       if !Absent(l, r) then (r.timeline, r.position) in l.records && l.records[(r.timeline, r.position)] == r
       else if r.kind.LegacyBaseline? then t.parent.None? && !t.complete && t.durable == 0 && (r.timeline, 0) !in l.records
       else
         && r.position == t.durable + 1
         && (r.kind.Opening? ==> t.parent.None? && t.complete && r.position == 1)
         && (t.parent.None? && r.position == 1 ==> if t.complete then r.kind.Opening? else (r.timeline, 0) in l.records)
         && (r.kind.Action? ==> |r.payload.events| <= 8 && "" !in r.payload.events)
  }

  ghost function Extended(l: Tables, r: Record): Tables
    requires r.timeline in l.timelines
  {
    Tables(if r.position == 0 then l.timelines else l.timelines[r.timeline := l.timelines[r.timeline].(durable := r.position)],
           l.records[(r.timeline, r.position) := r])
  }

  /** On rows that carry their own keys the transaction does what the table above says. */
  lemma ArchivedAccepts(l: Tables, r: Record)
    requires H.Inv(l)
    ensures H.Archived(l, r).1.Ok? <==> Accepts(l, r)
    ensures H.Archived(l, r).1.Ok? ==> H.Archived(l, r).1.value == Absent(l, r)
    ensures H.Archived(l, r).0 == if H.Archived(l, r).1 == Ok(true) then Extended(l, r) else l
  {
    assert H.Unused(l, r) <==> Absent(l, r) by {
      AbsentIsUnused(l, r);
    }
    if (r.timeline, r.position) in l.records {
      assert H.RowOk(l, r.timeline, r.position);
    }
    if !Absent(l, r) {
      ReplayStands(l, r);
    }
  }

  lemma AbsentIsUnused(l: Tables, r: Record)
    ensures H.Unused(l, r) <==> Absent(l, r)
  {
    if H.Unused(l, r) {
      forall k | k in l.records
        ensures l.records[k].commit != r.commit && (l.records[k].namespace != r.namespace || l.records[k].request != r.request)
      {
        assert !H.SameIdentity(l.records[k], r);
      }
    }
  }

  lemma ReplayStands(l: Tables, r: Record)
    requires H.Inv(l) && !Absent(l, r)
    ensures H.ReplayOf(l, r) <==> InLedger(l, r)
  {
    AbsentIsUnused(l, r);
    var k :| k in l.records && H.SameIdentity(l.records[k], r);
    assert H.RowOk(l, k.0, k.1);
    if InLedger(l, r) {
      assert H.SameIdentity(l.records[(r.timeline, r.position)], r);
    }
  }

  lemma NoDangling(l: Tables)
    requires H.Inv(l)
    ensures forall id :: !Dangling(l.timelines, id)
  {
    forall id | id in l.timelines ensures !Dangling(l.timelines, id) {
      assert H.TimelineOk(l, id);
    }
  }

  lemma AdmittedBranch(s: Store, op: Operation, target: Timeline)
    requires H.Inv(s.tables) && op.target.Some? && op.target.value !in s.tables.timelines
    requires TargetShapeOk(op, Some(target)) && BranchError(s, op, target).None?
    ensures var m := s.tables.(timelines := s.tables.timelines[op.target.value := target.(status := Prepared)]);
      H.Inv(m) && m == H.WithBranch(s.tables, op.target.value, target.(status := Prepared))
  {
    assert H.BranchAdmitted(s.tables, op.target.value, target.(status := Prepared));
    H.BranchKeepsInv(s.tables, op.target.value, target.(status := Prepared));
  }

  /** Stored rows carry their own key, so at most one of them equals the incoming record. */
  lemma OneMatch(l: Tables, r: Record, existing: set<(Uuid, nat)>)
    requires H.Inv(l) && existing != {}
    requires forall k :: k in l.records && H.SameIdentity(l.records[k], r) <==> k in existing
    ensures !H.Unused(l, r)
    ensures H.ReplayOf(l, r) <==> |existing| == 1 && forall k :: k in existing ==> l.records[k] == r
  {
    var a :| a in existing;
    if H.ReplayOf(l, r) {
      assert H.RowOk(l, a.0, a.1);
      forall k | k in existing ensures k == a {
        assert H.RowOk(l, k.0, k.1);
      }
      assert existing == {a};
    }
  }
}
