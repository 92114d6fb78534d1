/**
 Committed records that can never be archived: what strands them, and that it lasts for ever.
 */
module Stranding {
  import opened MemoryModel
  import opened Ledger
  import H = History
  import opened Journal
  import opened Runtime
  import opened Protocol
  import opened ProtocolInvariant
  import opened ProtocolTheorems

  /** The body waits, is not in MySQL, and an intent was given up or another record of the room has its identity. */
  ghost predicate Stranded(s: System, r: Record) {
    && s.redis.pending.Some? && s.redis.pending.value.record == r
    && !InLedger(s.store.tables, r)
    && (CapabilityBlocked(s.store) || !H.Unused(s.store.tables, r))
  }

  /** A blocked room stays blocked: no operation can be prepared in it and none of its operations can advance. */
  lemma BlockedStays(s: System, step: Step)
    requires Inv(s) && CapabilityBlocked(s.store)
    ensures CapabilityBlocked(Next(s, step).store)
  {
    if step.PrepareIntent? {
      BlockedRefusesPrepare(s, step.id, step.op, step.target);
    } else if step.BlockIntent? || step.AbortIntent? || step.RecordApplied? || step.CompleteIntent? {
      BlockedRefusesAdvance(s, step);
    } else {
      CapabilityKept(s, step);
    }
  }

  lemma BlockedRefusesPrepare(s: System, id: Uuid, op: Operation, target: Option<Timeline>)
    requires Inv(s) && CapabilityBlocked(s.store)
    ensures Next(s, PrepareIntent(id, op, target)).store == s.store
  {
    PrepareChanges(s, id, op, target);
  }

  lemma BlockedRefusesAdvance(s: System, step: Step)
    requires Inv(s) && CapabilityBlocked(s.store)
    requires step.BlockIntent? || step.AbortIntent? || step.RecordApplied? || step.CompleteIntent?
    ensures Next(s, step).store == s.store
  {
    OccupierBlocked(s, step.id);
    AdvancesRefused(s, step);
  }

  lemma OccupierBlocked(s: System, id: Uuid)
    requires Inv(s) && CapabilityBlocked(s.store)
    ensures Occupied(s.store, id)
  {
  }

  predicate Occupied(s: Store, id: Uuid) {
    s.state.Some? && (id in s.ops && s.state.value.operation == Some(id) ==> s.ops[id].phase.BlockedPhase?)
  }

  lemma AdvancesRefused(s: System, step: Step)
    requires step.BlockIntent? || step.AbortIntent? || step.RecordApplied? || step.CompleteIntent?
    requires Occupied(s.store, step.id)
    ensures Next(s, step).store == s.store
  {
    if step.id in s.store.ops {
      var id, at := step.id, s.store.ops[step.id].phase;
      AdvanceRefused(s.store, id, at, BlockedPhase);
      AdvanceRefused(s.store, id, PreparedPhase, AbortedPhase);
      AdvanceRefused(s.store, id, PreparedPhase, RedisApplied);
      AdvanceRefused(s.store, id, RedisApplied, Completed);
    }
  }

  lemma AdvanceRefused(s: Store, id: Uuid, from: Phase, to: Phase)
    requires Occupied(s, id)
    ensures Advance(s, id, from, to).0 == s
  {
  }

  lemma CapabilityKept(s: System, step: Step)
    requires !step.PrepareIntent? && !step.BlockIntent? && !step.AbortIntent? && !step.RecordApplied? && !step.CompleteIntent?
    ensures Next(s, step).store.state == s.store.state
  {
  }

  /** The transaction under which records are archived is closed to everything but an imported baseline. */
  lemma BlockedLedger(s: System, step: Step, k: (Uuid, nat))
    requires Inv(s) && CapabilityBlocked(s.store) && k in Next(s, step).store.tables.records && k !in s.store.tables.records
    ensures k.1 == 0
  {
    if step.ArchiveBaseline? {
      BaselineChanges(s, step.id);
      BaselineIsZero(s, step.id);
    } else {
      RecordsKept(s, step);
    }
  }

  lemma RecordsKept(s: System, step: Step)
    requires Inv(s) && CapabilityBlocked(s.store) && !step.ArchiveBaseline?
    ensures Next(s, step).store.tables.records == s.store.tables.records
  {
    if step.PrepareIntent? {
      BlockedRefusesPrepare(s, step.id, step.op, step.target);
    } else if step.ArchiveClaimed? {
      BlockedRefusesArchive(s, step.owner, step.responseLost);
    } else if step.BlockIntent? || step.AbortIntent? || step.RecordApplied? || step.CompleteIntent? {
      BlockedRefusesAdvance(s, step);
    } else {
      RowsKept(s, step);
    }
  }

  lemma BlockedRefusesArchive(s: System, owner: Uuid, lost: bool)
    requires CapabilityBlocked(s.store)
    ensures Next(s, ArchiveClaimed(owner, lost)).store == s.store
  {
    if owner in s.workers && s.workers[owner].Holding? {
      assert ArchiveAndAdvance(s.store, s.workers[owner].record).1.Err?;
    }
  }

  lemma RowsKept(s: System, step: Step)
    requires !step.PrepareIntent? && !step.ArchiveClaimed? && !step.ArchiveBaseline?
    requires !step.BlockIntent? && !step.AbortIntent? && !step.RecordApplied? && !step.CompleteIntent?
    ensures Next(s, step).store.tables == s.store.tables
  {
  }

  lemma StrandedStays(s: System, step: Step, r: Record)
    requires Inv(s) && Stranded(s, r)
    ensures Stranded(Next(s, step), r)
  {
    var n := Next(s, step);
    BodyKept(s, step);
    LedgerGrows(s, step);
    NextKeeps(s, step);
    if CapabilityBlocked(s.store) {
      BlockedStays(s, step);
      if InLedger(n.store.tables, r) {
        BlockedLedger(s, step, (r.timeline, r.position));
      }
    } else {
      IdentityStays(s.store.tables, n.store.tables, r);
    }
  }

  /** An identity once used elsewhere keeps the record out for good. */
  lemma IdentityStays(l: Tables, m: Tables, r: Record)
    requires H.Grows(l, m) && H.Inv(m) && !H.Unused(l, r) && !InLedger(l, r)
    ensures !H.Unused(m, r) && !InLedger(m, r)
  {
    var k :| k in l.records && H.SameIdentity(l.records[k], r);
    assert k in m.records && m.records[k] == l.records[k];
    if InLedger(m, r) {
      OneRowPerIdentity(m, k, r);
    }
  }

  lemma OneRowPerIdentity(m: Tables, k: (Uuid, nat), r: Record)
    requires H.UniqueIdentities(m) && k in m.records && H.SameIdentity(m.records[k], r) && InLedger(m, r)
    ensures k == (r.timeline, r.position)
  {
    var j := (r.timeline, r.position);
    assert H.SameIdentity(m.records[k], m.records[j]);
  }

  /** A stranded record is stranded for ever, and every worker that claims it closes the gate over it. */
  lemma {:induction false} StrandedForEver(s: System, later: seq<Step>, r: Record)
    requires Inv(s) && Stranded(s, r)
    ensures Inv(Run(s, later)) && Stranded(Run(s, later), r)
    ensures forall owner :: MayClaim(Run(s, later), owner) ==> ClosedOver(Run(s, later), Worked(Run(s, later), owner))
    decreases |later|
  {
    if later != [] {
      NextKeeps(s, later[0]);
      StrandedStays(s, later[0], r);
      StrandedForEver(Next(s, later[0]), later[1..], r);
    } else {
      forall owner | MayClaim(s, owner) ensures ClosedOver(s, Worked(s, owner)) {
        PassDrainsIff(s, owner);
      }
    }
  }

  /** Being stranded is what keeps a worker from emptying the outbox, and nothing else does. */
  lemma StrandedIff(s: System, owner: Uuid)
    requires Inv(s) && MayClaim(s, owner) && !InLedger(s.store.tables, s.redis.pending.value.record)
    ensures Drained(s, Worked(s, owner)) <==> !Stranded(s, s.redis.pending.value.record)
  {
    PassDrainsIff(s, owner);
  }
}
