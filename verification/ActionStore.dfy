/**
 A player's action as one script commits it: the turn moves on, the record waits for the archive and every
 player's effects are written together, or nothing at all happens.
 */
module ActionStore {
  import opened MemoryModel
  import I = Inventory
  import opened TurnMachine
  import opened TurnStore

  /** Every mutated player takes part once, has a character, and can pay for what the action takes. */
  predicate Applies(order: seq<nat>, e: I.Effects, ms: seq<I.Mutation>) {
    && I.DistinctUsers(ms)
    && (forall m :: m in ms ==> m.user in order && I.Known(e, m.user))
    && I.AppliedInTurn(e, ms).Some?
  }

  /** The same, player by player: each one's bag alone decides whether it can be paid. */
  ghost predicate Payable(order: seq<nat>, e: I.Effects, ms: seq<I.Mutation>) {
    && (forall i, j {:trigger ms[i], ms[j]} :: 0 <= i < j < |ms| ==> ms[i].user != ms[j].user)
    && (forall m :: m in ms ==>
          && m.user in order && m.user in e.bags && m.user in e.states && m.user in e.buffs
          && I.Planned(e.bags[m.user], m.items).Some?)
  }

  lemma PayableApplies(order: seq<nat>, e: I.Effects, ms: seq<I.Mutation>)
    ensures Applies(order, e, ms) <==> Payable(order, e, ms)
  {
    if I.DistinctUsers(ms) && forall m :: m in ms ==> I.Known(e, m.user) {
      I.AllPlansOrNone(e, ms);
    }
  }

  class ActionRepo {
    const turns: TurnRepo
    const effects: I.EffectStore

    constructor (turns: TurnRepo, effects: I.EffectStore)
      ensures this.turns == turns && this.effects == effects
    {
      this.turns, this.effects := turns, effects;
    }

    /** The checks over the mutations: membership, the players' keys, and a plan for every bag. */
    method CheckEffects(ms: seq<I.Mutation>) returns (ok: bool)
      ensures ok == Applies(turns.order, effects.Contents(), ms)
    {
      if !I.DistinctUsers(ms) {
        return false;
      }
      for i := 0 to |ms|
        invariant forall j :: 0 <= j < i ==> ms[j].user in turns.order && I.Known(effects.Contents(), ms[j].user)
      {
        if ms[i].user !in turns.order || !I.Known(effects.Contents(), ms[i].user) {
          return false;
        }
      }
      I.AllPlansOrNone(effects.Contents(), ms);
      var plans := effects.PlanAll(ms);
      return plans.Some?;
    }

    /** The commit script: every check over turn, archive and effects comes before the first write. */
    method CommitAction(q: Request, next: nat, ms: seq<I.Mutation>) returns (reply: Reply)
      modifies turns, effects
      ensures (turns.Contents(), reply) == Commit(old(turns.Contents()), q, next, Applies(old(turns.order), old(effects.Contents()), ms))
      ensures (turns.Contents(), reply) == Commit(old(turns.Contents()), q, next, Payable(old(turns.order), old(effects.Contents()), ms))
      ensures reply.Success? ==> I.AppliedInTurn(old(effects.Contents()), ms) == Some(effects.Contents())
      ensures reply.Success? ==>
                && Payable(old(turns.order), old(effects.Contents()), ms)
                && forall i {:trigger ms[i]} :: 0 <= i < |ms| ==> I.Settled(old(effects.Contents()), ms[i], effects.Contents())
      ensures !reply.Success? ==> effects.Contents() == old(effects.Contents())
    {
      var applies := CheckEffects(ms);
      reply := turns.CommitMultiplayerAction(q, next, applies);
      PayableApplies(turns.order, effects.Contents(), ms);
      if reply.Success? {
        var written := effects.CommitEffects(ms);
        assert written;
      }
    }
  }
}
