/**
 The turn scripts as they run: one object holding a room's runtime keys and its queue entries.
 */
module TurnStore {
  import opened MemoryModel
  import R = Runtime
  import opened TurnMachine

  class TurnRepo {
    var status: Status
    var generation: Uuid
    var turn: nat
    var order: seq<nat>
    var deadline: Option<nat>
    var lease: Option<ActionLease>
    var results: map<Uuid, Answer>
    var queue: map<(Uuid, nat), nat>
    var gate: Option<Gate>
    ghost var base: nat
    ghost var consumed: set<(Uuid, nat)>
    ghost var known: set<Uuid>

    ghost function Contents(): Room
      reads this
    {
      Room(status, generation, turn, order, deadline, lease, results, queue, gate, base, consumed, known)
    }

    predicate GateOpen()
      reads this
    {
      gate.Some? ==> gate.value.state.Ready? && gate.value.control.None? && gate.value.pending.None?
    }

    /** The caller names the branch being played and its archive takes a commit. */
    predicate OpenFor(timeline: Option<Uuid>)
      reads this
    {
      if gate.None? then timeline.None? else timeline == Some(gate.value.timeline) && GateOpen()
    }

    /** It is this user's turn, and the request was made for it. */
    predicate IsTurnOf(q: Request, user: nat)
      reads this
    {
      status.Playing? && generation == q.generation && turn == q.turn && |order| >= 2 && order[turn % |order|] == user
    }

    predicate Leased(q: Request)
      reads this
    {
      && lease.Some? && lease.value.generation == q.generation && lease.value.turn == q.turn && lease.value.user == q.user
      && lease.value.request == q.request && lease.value.fingerprint == q.fingerprint
    }

    /** The request brings the record that follows the branch's last one, for this actor and round. */
    predicate Brings(q: Request, actor: nat)
      requires |order| > 0
      reads this
    {
      gate.Some? ==>
        && q.archive.Some? && q.archive.value.position == gate.value.head + 1 && q.archive.value.revision == gate.value.revision
        && q.archive.value.actor == actor && q.archive.value.rounds == (turn / |order|, (turn + 1) / |order|)
    }

    /** The cache holds the answer to this very request, archived with this very record. */
    predicate Answers(q: Request)
      reads this
    {
      && q.request in results && generation == q.generation
      && (if gate.None? then q.archive.None?
          else q.archive.Some? && q.archive.value.timeline == gate.value.timeline
               && results[q.request].archived == Some((gate.value.timeline, q.archive.value.commit)))
    }

    /** The turn after `q`'s is on, its answer is cached, and either the archive or the timer has to move next. */
    ghost predicate MovedOn(was: Room, q: Request, next: nat)
      reads this
    {
      && turn == was.turn + 1 && generation == was.generation && status == was.status && order == was.order
      && q.request in results && results[q.request].fingerprint == q.fingerprint
      && results[q.request].archived == (if q.archive.Some? then Some((q.archive.value.timeline, q.archive.value.commit)) else None)
      && results.Keys == was.results.Keys + {q.request} && (forall r :: r in was.results && r != q.request ==> results[r] == was.results[r])
      && (generation, was.turn) !in queue
      && (forall e :: e != (generation, was.turn) && e != (generation, turn) ==>
            (e in queue <==> e in was.queue) && (e in queue ==> queue[e] == was.queue[e]))
      && (was.gate.None? ==> gate.None? && deadline == Some(next) && (generation, turn) in queue && queue[(generation, turn)] == next)
      && (was.gate.Some? ==> gate.Some? && deadline.None? && gate.value.state.Pending? && gate.value.pending == Some((generation, turn))
                             && gate.value.head == was.gate.value.head + 1 && gate.value.timeline == was.gate.value.timeline
                             && gate.value.revision == was.gate.value.revision && gate.value.control.None?)
    }

    constructor (generation: Uuid, order: seq<nat>, archive: Option<(Uuid, nat)>)
      ensures Contents() == Initialized(generation, order, archive)
    {
      status, this.generation, turn, this.order := Provisional, generation, 0, order;
      deadline, lease, results, queue := None, None, map[], map[];
      gate := if archive.Some? then Some(Gate(archive.value.0, 0, archive.value.1, R.Recovering, Some(Control(true, None)), None)) else None;
      base, consumed, known := 0, {}, {generation};
    }

    /** archive_gate, by its reply code. */
    method CheckGate(timeline: Option<Uuid>, replay: bool) returns (code: nat)
      ensures code == 0 <==> GateAdmits(Contents(), timeline, replay)
    {
      if gate.None? {
        return if timeline.Some? then 91 else 0;
      }
      if timeline.None? || gate.value.timeline != timeline.value {
        return 91;
      }
      if !replay && !GateOpen() {
        return 90;
      }
      return 0;
    }

    /** archive_prepare, as far as the record it compares is concerned. */
    method CheckFact(q: Request, actor: nat) returns (ok: bool)
      requires |order| > 0
      ensures ok == Fits(Contents(), q, actor)
    {
      var code := CheckGate(BranchOf(q), false);
      if code != 0 {
        return false;
      }
      if gate.None? {
        return true;
      }
      var f := q.archive.value;
      if f.position != gate.value.head + 1 || f.revision != gate.value.revision || f.actor != actor {
        return false;
      }
      return f.rounds == (turn / |order|, (turn + 1) / |order|);
    }

    /** archive_replay and the generation check behind it. */
    method Repeat(q: Request) returns (reply: Reply)
      requires q.request in results
      ensures reply == Repeated(Contents(), q)
    {
      var code := CheckGate(BranchOf(q), true);
      if code != 0 {
        return Refused;
      }
      if gate.Some? {
        var archived := results[q.request].archived;
        if archived.None? || archived.value.0 != gate.value.timeline || archived.value.1 != q.archive.value.commit {
          return Refused;
        }
      }
      return if generation == q.generation then Replayed(results[q.request].fingerprint) else Refused;
    }

    method AcquireMultiplayerAction(q: Request, timeline: Option<Uuid>, now: nat) returns (reply: Reply)
      modifies this
      ensures (Contents(), reply) == Acquire(old(Contents()), q, timeline, now)
      ensures reply.Success? <==>
                && old(OpenFor(timeline)) && q.request !in old(results) && old(IsTurnOf(q, q.user))
                && old(lease).None? && old(deadline).Some? && now <= old(deadline).value
      ensures reply.Success? ==>
                && lease == Some(ActionLease(q.generation, q.turn, q.user, q.request, q.fingerprint, now)) && deadline.None?
                && queue == old(queue)[(q.generation, q.turn) := now + 300000]
                && Contents() == old(Contents()).(lease := lease, deadline := None, queue := queue)
      ensures !reply.Success? ==> Contents() == old(Contents())
      ensures reply.Replayed? <==>
                && q.request in old(results) && old(generation) == q.generation
                && (if old(gate).None? then timeline.None?
                    else timeline == Some(old(gate).value.timeline) && old(results)[q.request].archived.Some?
                         && timeline == Some(old(results)[q.request].archived.value.0))
      ensures reply.Replayed? ==> reply.fingerprint == old(results)[q.request].fingerprint
    {
      var code := CheckGate(timeline, true);
      if code != 0 {
        return Refused;
      }
      if q.request in results {
        var answer := results[q.request];
        if gate.Some? && (answer.archived.None? || answer.archived.value.0 != gate.value.timeline) {
          return Refused;
        }
        return if generation == q.generation then Replayed(answer.fingerprint) else Refused;
      }
      if !GateOpen() || !status.Playing? || |order| < 2 || generation != q.generation || turn != q.turn {
        return Refused;
      }
      if order[turn % |order|] != q.user || lease.Some? {
        return Refused;
      }
      if deadline.None? || now > deadline.value {
        return Refused;
      }
      lease := Some(ActionLease(generation, turn, q.user, q.request, q.fingerprint, now));
      deadline := None;
      queue := queue[(q.generation, q.turn) := now + RECOVERY_MS];
      return Success;
    }

    method ReleaseMultiplayerAction(q: Request, renewed: nat) returns (reply: Reply)
      modifies this
      ensures (Contents(), reply) == Release(old(Contents()), q, renewed)
      ensures reply.Success? <==>
                && old(GateOpen()) && old(status).Playing? && old(generation) == q.generation && old(turn) == q.turn
                && old(Leased(q))
      ensures reply.Success? ==>
                && lease.None? && deadline == Some(renewed) && queue == old(queue)[(q.generation, q.turn) := renewed]
                && Contents() == old(Contents()).(lease := None, deadline := deadline, queue := queue)
      ensures !reply.Success? ==> reply.Refused? && Contents() == old(Contents())
    {
      if !GateOpen() || !status.Playing? || generation != q.generation || turn != q.turn {
        return Refused;
      }
      if lease.None? || lease.value.generation != q.generation || lease.value.turn != q.turn || lease.value.user != q.user
         || lease.value.request != q.request || lease.value.fingerprint != q.fingerprint {
        return Refused;
      }
      lease := None;
      deadline := Some(renewed);
      queue := queue[(q.generation, q.turn) := renewed];
      return Success;
    }

    /** The writes shared by a commit and a skip. */
    method MoveOn(q: Request, next: nat)
      requires generation == q.generation && turn == q.turn
      modifies this
      ensures Contents() == Advanced(old(Contents()), q, next)
    {
      consumed := consumed + {(generation, turn)};
      turn := turn + 1;
      results := results[q.request := AnswerTo(q)];
      queue := queue - {(q.generation, q.turn)};
      if gate.Some? {
        deadline := None;
        gate := Some(gate.value.(head := gate.value.head + 1, state := R.Pending, control := None, pending := Some((generation, turn))));
      } else {
        deadline := Some(next);
        queue := queue[(q.generation, q.turn + 1) := next];
      }
    }

    method CommitMultiplayerAction(q: Request, next: nat, applies: bool) returns (reply: Reply)
      modifies this
      ensures (Contents(), reply) == Commit(old(Contents()), q, next, applies)
      ensures reply.Success? <==>
                && q.request !in old(results) && old(IsTurnOf(q, q.user)) && old(Leased(q))
                && old(OpenFor(BranchOf(q))) && old(Brings(q, q.user)) && applies
      ensures reply.Success? ==> lease.None? && MovedOn(old(Contents()), q, next)
      ensures !reply.Success? ==> Contents() == old(Contents())
      ensures reply.Replayed? <==> old(Answers(q))
      ensures reply.Replayed? ==> reply.fingerprint == old(results)[q.request].fingerprint
    {
      if q.request in results {
        reply := Repeat(q);
        return;
      }
      if !status.Playing? || generation != q.generation || |order| < 2 || turn != q.turn || order[turn % |order|] != q.user {
        return Refused;
      }
      if lease.None? || lease.value.generation != q.generation || lease.value.turn != q.turn || lease.value.user != q.user
         || lease.value.request != q.request || lease.value.fingerprint != q.fingerprint {
        return Refused;
      }
      var fits := CheckFact(q, q.user);
      if !fits || !applies {
        return Refused;
      }
      MoveOn(q, next);
      lease := None;
      return Success;
    }

    method SkipMultiplayerTurn(q: Request, timeout: bool, now: nat, next: nat) returns (reply: Reply)
      modifies this
      ensures (Contents(), reply) == Skip(old(Contents()), q, timeout, now, next)
      ensures reply.Success? <==>
                && q.request !in old(results) && old(OpenFor(BranchOf(q)))
                && old(status).Playing? && old(generation) == q.generation && old(turn) == q.turn && |old(order)| >= 2
                && old(lease).None? && old(deadline).Some?
                && (if timeout then now >= old(deadline).value else old(order)[old(turn) % |old(order)|] == q.user)
                && old(Brings(q, order[turn % |order|]))
      ensures reply.Success? ==> lease.None? && MovedOn(old(Contents()), q, next)
      ensures !reply.Success? ==>
                && Contents() == old(Contents()).(queue := queue)
                && queue == if q.request !in old(results) && old(OpenFor(BranchOf(q)))
                               && (!old(status).Playing? || old(generation) != q.generation
                                   || (old(lease).None? && (old(turn) != q.turn || |old(order)| < 2 || old(deadline).None?)))
                            then old(queue) - {(q.generation, q.turn)} else old(queue)
      ensures reply.Replayed? <==> old(Answers(q))
      ensures reply.Replayed? ==> reply.fingerprint == old(results)[q.request].fingerprint
    {
      if q.request in results {
        reply := Repeat(q);
        return;
      }
      var code := CheckGate(BranchOf(q), false);
      if code != 0 {
        return Refused;
      }
      if !status.Playing? || generation != q.generation {
        queue := queue - {(q.generation, q.turn)};
        return Refused;
      }
      if lease.Some? {
        return Refused;
      }
      if turn != q.turn || |order| < 2 || deadline.None? {
        queue := queue - {(q.generation, q.turn)};
        return Refused;
      }
      if timeout {
        if now < deadline.value {
          return Refused;
        }
      } else if order[turn % |order|] != q.user {
        return Refused;
      }
      var fits := CheckFact(q, order[turn % |order|]);
      if !fits {
        return Refused;
      }
      MoveOn(q, next);
      return Success;
    }

    method DiscardMultiplayerDeadline(entry: (Uuid, nat))
      modifies this
      ensures Contents() == Discard(old(Contents()), entry.0, entry.1)
      ensures entry in queue <==> entry in old(queue) && status.Playing? && generation == entry.0 && turn == entry.1
      ensures Contents() == old(Contents()).(queue := queue) && forall e :: e != entry ==>
                (e in queue <==> e in old(queue)) && (e in queue ==> queue[e] == old(queue)[e])
    {
      if !(status.Playing? && generation == entry.0 && turn == entry.1) {
        queue := queue - {entry};
      }
    }

    method TransitionMultiplayerRoom(from: Status, expected: Uuid, to: Status, next: Uuid, limit: nat, timeline: Option<Uuid>, saving: bool)
      returns (done: bool)
      modifies this
      ensures (Contents(), done) == Transition(old(Contents()), from, expected, to, next, limit, timeline, saving)
      ensures done <==>
                && (from.Playing? || from.Paused?) && !to.Provisional?
                && old(status) == from && old(generation) == expected && |old(order)| >= 2
                && (to.Playing? ==> old(lease).None?)
                && (old(gate).Some? && !to.Paused? ==> old(OpenFor(timeline)) && !to.Ended? && !saving)
      ensures done ==>
                && status == to && generation == next && lease.None?
                && turn == old(turn) && order == old(order) && results == old(results) && gate == old(gate)
                && deadline == (if to.Playing? then Some(limit) else None)
                && queue == (if to.Playing? then (old(queue) - {(expected, turn)})[(next, turn) := limit] else old(queue) - {(expected, turn)})
      ensures !done ==> Contents() == old(Contents())
    {
      if !(from.Playing? || from.Paused?) || to.Provisional? {
        return false;
      }
      if gate.Some? && !to.Paused? {
        var code := CheckGate(timeline, false);
        if code != 0 || to.Ended? || saving {
          return false;
        }
      }
      if status != from || generation != expected || |order| < 2 {
        return false;
      }
      if to.Playing? {
        if lease.Some? {
          return false;
        }
        deadline := Some(limit);
        queue := queue - {(expected, turn)};
        queue := queue[(next, turn) := limit];
      } else {
        deadline := None;
        queue := queue - {(expected, turn)};
        lease := None;
      }
      status := to;
      generation, known := next, known + {next};
      return true;
    }
  }
}
