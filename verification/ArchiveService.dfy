/**
 The worker that moves a committed record from the outbox into MySQL, and its retry schedule.
 The method runs one undisturbed pass; the state machine covers every interleaving of its calls.
 */
module ArchiveService {
  import opened MemoryModel
  import opened Ledger
  import H = History
  import opened Journal
  import opened Runtime
  import opened Protocol
  import opened ProtocolInvariant
  import opened ProtocolTheorems
  import opened MemoryStore
  import opened RuntimeStore

  datatype Outcome = Idle | Refused(error: ClaimResult) | Delivered(reply: AckResult) | Postponed | Quarantine

  /** The stores hold exactly what the system state says they hold. */
  ghost predicate Mirrors(runtime: RedisGameStateRepo, store: GameMemoryRepo, s: System)
    reads runtime, store
  {
    runtime.Keys() == s.redis && store.Contents() == s.store
  }

  /** A body waits that fits the metadata, the gate is not closed, and nobody else holds the lease. */
  ghost predicate Claimable(k: Redis, owner: Uuid) {
    && k.meta.Some? && k.pending.Some? && (k.meta.value.state.Pending? || k.meta.value.state.Recovering?)
    && k.pending.value.record.timeline == k.meta.value.timeline && k.pending.value.record.revision == k.meta.value.revision
    && k.pending.value.record.position == k.meta.value.head == k.meta.value.durable + 1
    && (k.lease.Some? ==> k.lease.value == Lease(owner, k.pending.value.record))
  }

  class GameArchiveService {
    const runtime: RedisGameStateRepo
    const store: GameMemoryRepo
    const retryBase: nat
    const retryMax: nat

    constructor (runtime: RedisGameStateRepo, store: GameMemoryRepo, retryBase: nat, retryMax: nat)
      ensures this.runtime == runtime && this.store == store && this.retryBase == retryBase && this.retryMax == retryMax
    {
      this.runtime, this.store, this.retryBase, this.retryMax := runtime, store, retryBase, retryMax;
    }

    /**
     process: claim, archive in MySQL, claim again, acknowledge; on failure block for good or give
     the lease back.  Undisturbed, its calls are exactly the worker steps of the state machine.
     */
    method Process(owner: Uuid, ghost s: System) returns (outcome: Outcome)
      requires Mirrors(runtime, store, s) && store.Valid() && owner !in s.workers
      modifies runtime, store
      ensures store.Valid() && Mirrors(runtime, store, Worked(s, owner))
      ensures outcome == OutcomeOf(s, owner)
      ensures store.row == RowAfter(s, old(store.row), owner)
    {
      ghost var a := Next(s, ClaimOutbox(owner));
      ghost var b := Next(a, ArchiveClaimed(owner, false));
      var claim := runtime.ClaimGameArchive(owner);
      if !claim.Claimed? {
        return if claim.Nothing? then Idle else Refused(claim);
      }
      var r := claim.record;
      assert a.workers[owner] == Holding(r);
      var failed := ArchiveHeld(owner, r, a);
      if failed.None? {
        var reply: AckResult;
        failed, reply := Confirm(owner, r, b);
        if failed.None? {
          return Delivered(reply);
        }
      }
      assert Mirrors(runtime, store, Pass(s, owner)) && Pass(s, owner).workers[owner] == Failed(r, failed.value);
      if failed.value {
        runtime.BlockGameArchive(owner, r);
        return Quarantine;
      }
      runtime.RetryGameArchive(owner, r);
      return Postponed;
    }

    /** The MySQL transaction over a claimed record. */
    method ArchiveHeld(owner: Uuid, r: Record, ghost a: System) returns (failed: Option<bool>)
      requires Mirrors(runtime, store, a) && store.Valid() && owner in a.workers && a.workers[owner] == Holding(r)
      modifies store
      ensures var b := Next(a, ArchiveClaimed(owner, false));
        && store.Valid() && Mirrors(runtime, store, b)
        && owner in b.workers && b.workers[owner] == (if failed.None? then Stored(r) else Failed(r, failed.value))
      ensures store.row == ArchivedRow(a.store, old(store.row), r)
    {
      var archived := store.ArchiveAndAdvance(r);
      failed := if archived.Ok? then None else Some(PermanentError(archived.error));
    }

    /** After the MySQL transaction: ownership must still hold before the record is acknowledged. */
    method Confirm(owner: Uuid, r: Record, ghost b: System) returns (failed: Option<bool>, reply: AckResult)
      requires Mirrors(runtime, store, b) && owner in b.workers && b.workers[owner] == Stored(r)
      modifies runtime
      ensures var d := Next(Next(b, ReclaimOutbox(owner)), AcknowledgeStored(owner, false));
        && Mirrors(runtime, store, d)
        && (failed.None? <==> owner !in d.workers)
        && (failed.Some? ==> d.workers[owner] == Failed(r, failed.value))
      ensures failed.None? ==> reply == Acknowledge(Next(b, ReclaimOutbox(owner)).redis, owner, r).1
    {
      var again := runtime.ClaimGameArchive(owner);
      if again != Claimed(r) {
        return Some(again.Damaged?), LeaseLost;
      }
      assert Next(b, ReclaimOutbox(owner)).workers[owner] == Confirmed(r);
      reply := runtime.AcknowledgeGameArchive(owner, r);
      failed := if reply.Acked? || reply.Duplicate? then None else Some(reply.Corrupt?);
    }

    /** What a caller gets from a reachable room: the body is stored for good, or the gate closes with the body kept. */
    method ArchivePending(owner: Uuid, ghost s: System) returns (outcome: Outcome)
      requires Inv(s) && Mirrors(runtime, store, s) && MayClaim(s, owner)
      modifies runtime, store
      ensures Mirrors(runtime, store, Worked(s, owner))
      ensures Storable(s.store, s.redis.pending.value.record) ==>
                outcome == Delivered(Acked) && Drained(s, Worked(s, owner))
      ensures !Storable(s.store, s.redis.pending.value.record) ==>
                outcome == Quarantine && ClosedOver(s, Worked(s, owner)) && store.row == old(store.row)
      ensures var r := s.redis.pending.value.record;
        Storable(s.store, r) && OrdinaryAllowed(s.store, r) && InPlay(old(store.row)) ==>
          && store.row.turn == (if old(store.row.turn) < r.turnAfter then r.turnAfter else old(store.row.turn))
          && store.row.round == (if old(store.row.round) < r.roundAfter then r.roundAfter else old(store.row.round))
    {
      PassDrainsIff(s, owner);
      PassOutcome(s, owner);
      PendingArchivableIff(s);
      outcome := Process(owner, s);
    }

    /** retryDelay doubles per attempt and saturates. */
    method RetryDelay(attempts: nat) returns (delay: nat)
      ensures delay == Backoff(retryBase, retryMax, attempts)
    {
      delay := retryBase;
      var left := attempts;
      while left > 0 && delay < retryMax
        invariant 0 <= left <= attempts
        invariant delay == Doubled(retryBase, attempts - left)
      {
        delay := delay * 2;
        left := left - 1;
      }
      if left > 0 {
        DoublingGrows(retryBase, attempts - left, attempts);
      }
      if delay > retryMax {
        delay := retryMax;
      }
    }
  }

  /** The room row moves with the MySQL transaction alone, whatever becomes of the acknowledgement. */
  function RowAfter(s: System, row: RoomRow, owner: Uuid): RoomRow {
    var claim := Claim(s.redis, owner).1;
    if claim.Claimed? then ArchivedRow(s.store, row, claim.record) else row
  }

  /** The reply of an undisturbed pass, read off the state machine. */
  function OutcomeOf(s: System, owner: Uuid): Outcome
    requires owner !in s.workers
  {
    var claim := Claim(s.redis, owner).1;
    var c := Next(Next(Next(s, ClaimOutbox(owner)), ArchiveClaimed(owner, false)), ReclaimOutbox(owner));
    var d := Pass(s, owner);
    if claim.Nothing? then Idle
    else if !claim.Claimed? then Refused(claim)
    else if owner in d.workers then if d.workers[owner] == Failed(claim.record, true) then Quarantine else Postponed
    else Delivered(Acknowledge(c.redis, owner, claim.record).1)
  }

  /** From any state of the stores: nothing is claimed unless a fitting body waits and nobody else leases it. */
  lemma NothingClaimed(s: System, owner: Uuid)
    requires owner !in s.workers
    ensures OutcomeOf(s, owner).Idle? || OutcomeOf(s, owner).Refused? <==> !Claimable(s.redis, owner)
    ensures !Claimable(s.redis, owner) ==>
              Worked(s, owner) == s.(redis := Worked(s, owner).redis)
              && Worked(s, owner).redis.pending == s.redis.pending && Worked(s, owner).redis.lease == s.redis.lease
  {
    var a := Next(s, ClaimOutbox(owner));
    if !Claimable(s.redis, owner) {
      assert owner !in a.workers;
      assert Pass(s, owner) == a;
    }
  }

  /** A claimed body leaves the outbox only into the ledger, and one the ledger refuses closes the gate; the lease is given up. */
  lemma ClaimedPass(s: System, owner: Uuid)
    requires H.Inv(s.store.tables) && owner !in s.workers && Claimable(s.redis, owner)
    ensures var (r, outcome, n) := (s.redis.pending.value.record, OutcomeOf(s, owner), Worked(s, owner));
      && n.redis.lease.None?
      && (outcome.Delivered? ==> n.redis.pending.None? && InLedger(n.store.tables, r))
      && (!outcome.Delivered? ==> n.redis.pending.Some? && n.redis.pending.value.record == r)
      && (!(Entitled(s.store, r) && Accepts(s.store.tables, r)) ==>
            outcome.Quarantine? && n.store == s.store && n.redis.meta.Some? && n.redis.meta.value.state.Blocked?)
  {
    var r := s.redis.pending.value.record;
    var b := Archiving(s, owner);
    ClaimedIsStoredIff(s, owner);
    if b.workers[owner].Stored? {
      ConfirmedPass(b, owner, r);
    } else {
      RefusedBody(b, owner, r);
    }
  }

  /** A body the ledger takes is delivered if play, where it goes on, goes on from the record. */
  lemma ClaimedDelivers(s: System, owner: Uuid)
    requires H.Inv(s.store.tables) && owner !in s.workers && Claimable(s.redis, owner)
    requires Entitled(s.store, s.redis.pending.value.record) && Accepts(s.store.tables, s.redis.pending.value.record)
    requires var r := s.redis.pending.value.record;
      s.redis.play.Some? && s.redis.play.value.status.Playing? && s.redis.meta.value.control.None? ==>
        s.redis.play.value == Play(Playing, r.generation, r.turnAfter)
    ensures var n := Worked(s, owner);
      && n.redis.pending.None? && InLedger(n.store.tables, s.redis.pending.value.record)
      && n.redis.meta.Some? && n.redis.meta.value.head == n.redis.meta.value.durable == s.redis.meta.value.head
      && (s.redis.meta.value.control.None? ==> n.redis.meta.value.state.Ready?)
  {
    var r, b := s.redis.pending.value.record, Archiving(s, owner);
    ClaimedIsStoredIff(s, owner);
    StoredDelivers(b, owner, r);
  }

  lemma StoredDelivers(b: System, owner: Uuid, r: Record)
    requires owner in b.workers && b.workers[owner] == Stored(r) && InLedger(b.store.tables, r)
    requires Claimable(b.redis, owner) && b.redis.pending.value.record == r && b.redis.lease.Some?
    requires b.redis.play.Some? && b.redis.play.value.status.Playing? && b.redis.meta.value.control.None? ==>
               b.redis.play.value == Play(Playing, r.generation, r.turnAfter)
    ensures var d := Next(Next(b, ReclaimOutbox(owner)), AcknowledgeStored(owner, false));
            var n := Next(d, Step.CleanUp(owner));
      && owner !in d.workers && n == d && n.store == b.store && n.redis.pending.None?
      && n.redis.meta.Some? && n.redis.meta.value.head == n.redis.meta.value.durable == b.redis.meta.value.head
      && (b.redis.meta.value.control.None? ==> n.redis.meta.value.state.Ready?)
  {
    var c := Next(b, ReclaimOutbox(owner));
    assert c.redis.pending == b.redis.pending && c.redis.lease == b.redis.lease && c.redis.meta == b.redis.meta && c.redis.play == b.redis.play;
    assert c.workers[owner] == Confirmed(r);
  }

  lemma ClaimedIsStoredIff(s: System, owner: Uuid)
    requires H.Inv(s.store.tables) && owner !in s.workers && Claimable(s.redis, owner)
    ensures var (r, b) := (s.redis.pending.value.record, Archiving(s, owner));
      && b.redis == s.redis.(lease := Some(Lease(owner, r)), queued := true)
      && owner in b.workers
      && (Entitled(s.store, r) && Accepts(s.store.tables, r) ==> b.workers[owner] == Stored(r) && InLedger(b.store.tables, r))
      && (!(Entitled(s.store, r) && Accepts(s.store.tables, r)) ==> b.workers[owner] == Failed(r, true) && b.store == s.store)
  {
    ArchivedAccepts(s.store.tables, s.redis.pending.value.record);
  }

  lemma RefusedBody(b: System, owner: Uuid, r: Record)
    requires owner in b.workers && b.workers[owner] == Failed(r, true)
    requires Claimable(b.redis, owner) && b.redis.pending.value.record == r && b.redis.lease.Some?
    ensures var d := Next(Next(b, ReclaimOutbox(owner)), AcknowledgeStored(owner, false));
            var n := Next(d, Step.CleanUp(owner));
      && d == b && n.store == b.store && n.redis.lease.None? && n.redis.pending == b.redis.pending
      && n.redis.meta.Some? && n.redis.meta.value.state.Blocked?
  {
  }

  lemma ConfirmedPass(b: System, owner: Uuid, r: Record)
    requires owner in b.workers && b.workers[owner] == Stored(r) && InLedger(b.store.tables, r)
    requires Claimable(b.redis, owner) && b.redis.pending.value.record == r && b.redis.lease.Some?
    ensures var c := Next(b, ReclaimOutbox(owner));
            var d := Next(c, AcknowledgeStored(owner, false));
            var n := Next(d, Step.CleanUp(owner));
      && n.store == b.store && n.redis.lease.None?
      && (owner !in d.workers ==> n.redis.pending.None?)
      && (owner in d.workers ==> n.redis.pending.Some? && n.redis.pending.value.record == r)
  {
  }

  lemma PassOutcome(s: System, owner: Uuid)
    requires Inv(s) && MayClaim(s, owner)
    ensures OutcomeOf(s, owner) == if Storable(s.store, s.redis.pending.value.record) then Delivered(Acked) else Quarantine
  {
    if Storable(s.store, s.redis.pending.value.record) {
      StorableOutcome(s, owner);
    } else {
      RefusedOutcome(s, owner);
    }
  }

  lemma StorableOutcome(s: System, owner: Uuid)
    requires Inv(s) && MayClaim(s, owner) && Storable(s.store, s.redis.pending.value.record)
    ensures OutcomeOf(s, owner) == Delivered(Acked)
  {
    PassArchives(s, owner);
    StorablePass(s, owner);
    StoredIsAcked(Archiving(s, owner), owner);
  }

  lemma RefusedOutcome(s: System, owner: Uuid)
    requires Inv(s) && MayClaim(s, owner) && !Storable(s.store, s.redis.pending.value.record)
    ensures OutcomeOf(s, owner) == Quarantine
  {
    PassArchives(s, owner);
    RefusedPass(Next(s, ClaimOutbox(owner)), Archiving(s, owner), owner);
  }

  lemma StoredIsAcked(s: System, owner: Uuid)
    requires Inv(s) && owner in s.workers && s.workers[owner].Stored?
    requires s.redis.lease == Some(Lease(owner, s.workers[owner].record))
    requires s.redis.meta.Some? && !s.redis.meta.value.state.Blocked?
    ensures Acknowledge(Next(s, ReclaimOutbox(owner)).redis, owner, s.workers[owner].record).1 == Acked
  {
    assert Next(s, ReclaimOutbox(owner)).redis == s.redis;
    LeaseHolderIsAcked(s.redis, owner, s.workers[owner].record);
  }

  lemma LeaseHolderIsAcked(k: Redis, owner: Uuid, r: Record)
    requires OutboxOk(k) && k.meta.Some? && !k.meta.value.state.Blocked? && k.lease == Some(Lease(owner, r))
    ensures Acknowledge(k, owner, r).1.Acked?
  {
  }

  function Doubled(base: nat, times: nat): nat {
    if times == 0 then base else 2 * Doubled(base, times - 1)
  }

  /** The smaller of the ceiling and base * 2^attempts. */
  function Backoff(base: nat, max: nat, attempts: nat): nat {
    if Doubled(base, attempts) < max then Doubled(base, attempts) else max
  }

  /** Without a failed attempt the base, and twice as long after every further one, but never beyond the ceiling. */
  lemma BackoffDoubles(base: nat, max: nat, attempts: nat)
    ensures Backoff(base, max, 0) == if base < max then base else max
    ensures var before := Backoff(base, max, attempts);
      Backoff(base, max, attempts + 1) == if 2 * before < max then 2 * before else max
  {
    assert Doubled(base, attempts + 1) == 2 * Doubled(base, attempts);
  }

  lemma {:induction false} DoublingGrows(base: nat, a: nat, b: nat)
    requires a <= b
    ensures Doubled(base, a) <= Doubled(base, b)
    decreases b
  {
    if a < b {
      DoublingGrows(base, a, b - 1);
    }
  }
}
