/**
 The effects of a multiplayer action: every player's inventory is planned from the stored one first,
 and only if no running quantity goes negative is anything written.
 */
module Inventory {
  import opened MemoryModel

  /** Quantities are positive: an item whose quantity reaches zero is gone. */
  datatype Holding = Holding(quantity: nat, description: string)

  type Bag = map<string, Holding>

  datatype ItemChange = ItemChange(name: string, delta: int, description: string)

  datatype Mutation = Mutation(user: nat, state: map<string, string>, items: seq<ItemChange>, buffs: seq<(string, nat)>)

  predicate BagOk(bag: Bag) {
    forall n :: n in bag ==> bag[n].quantity > 0
  }

  function Quantity(bag: Bag, name: string): int {
    if name in bag then bag[name].quantity else 0
  }

  /** One change: refused below zero, removed at zero, otherwise stored with the new text or the one it had. */
  function Changed(bag: Bag, c: ItemChange): Option<Bag> {
    var quantity := Quantity(bag, c.name) + c.delta;
    if quantity < 0 then None
    else if quantity == 0 then Some(bag - {c.name})
    else
      var description := if c.description == "" && c.name in bag then bag[c.name].description else c.description;
      Some(bag[c.name := Holding(quantity, description)])
  }

  function Planned(bag: Bag, changes: seq<ItemChange>): Option<Bag> {
    if changes == [] then Some(bag)
    else
      var front := Planned(bag, changes[..|changes| - 1]);
      if front.None? then None else Changed(front.value, changes[|changes| - 1])
  }

  /** How much the changes move one item altogether. */
  function Sum(changes: seq<ItemChange>, name: string): int {
    if changes == [] then 0
    else Sum(changes[..|changes| - 1], name) + (if changes[|changes| - 1].name == name then changes[|changes| - 1].delta else 0)
  }

  /** No prefix of the changes takes any item below zero. */
  ghost predicate NeverNegative(bag: Bag, changes: seq<ItemChange>) {
    forall k, n :: 0 <= k <= |changes| ==> Quantity(bag, n) + Sum(changes[..k], n) >= 0
  }

  /**
   A plan exists exactly when no running quantity goes negative, and then every quantity is the old
   one plus the sum of its changes, with the names left being those of positive quantity.
   */
  lemma {:induction false} PlanIsSum(bag: Bag, changes: seq<ItemChange>)
    requires BagOk(bag)
    ensures Planned(bag, changes).Some? <==> NeverNegative(bag, changes)
    ensures Planned(bag, changes).Some? ==>
              var planned := Planned(bag, changes).value;
              BagOk(planned) && forall n :: Quantity(planned, n) == Quantity(bag, n) + Sum(changes, n)
    decreases |changes|
  {
    if changes == [] {
      assert changes[..0] == [];
    } else {
      var front, last := changes[..|changes| - 1], changes[|changes| - 1];
      PlanIsSum(bag, front);
      LastDecides(bag, changes);
      if Planned(bag, front).Some? {
        ChangeIsDelta(Planned(bag, front).value, last);
      }
    }
  }

  lemma ChangeIsDelta(bag: Bag, c: ItemChange)
    requires BagOk(bag)
    ensures Changed(bag, c).Some? <==> Quantity(bag, c.name) + c.delta >= 0
    ensures Changed(bag, c).Some? ==> BagOk(Changed(bag, c).value)
    ensures Changed(bag, c).Some? ==>
              forall n :: Quantity(Changed(bag, c).value, n) == Quantity(bag, n) + (if n == c.name then c.delta else 0)
  {
  }

  /** `now` is `was` after one change: one quantity moved, a text replaced only by another one, nothing kept at zero. */
  ghost predicate ChangedBy(was: Bag, c: ItemChange, now: Bag) {
    var quantity: int := (if c.name in was then was[c.name].quantity else 0) + c.delta;
    && (forall n :: n != c.name ==> (n in now <==> n in was) && (n in now ==> now[n] == was[n]))
    && (c.name in now <==> quantity > 0)
    && (c.name in now ==>
          && now[c.name].quantity == quantity
          && now[c.name].description == if c.description != "" then c.description else if c.name in was then was[c.name].description else "")
  }

  /** A plan is made change by change and fails with the first one that would take a quantity below zero. */
  lemma PlanGrows(bag: Bag, changes: seq<ItemChange>, c: ItemChange)
    ensures Planned(bag, []) == Some(bag)
    ensures Planned(bag, changes).None? ==> Planned(bag, changes + [c]).None?
    ensures Planned(bag, changes).Some? ==>
              var was, next := Planned(bag, changes).value, Planned(bag, changes + [c]);
              && (next.None? <==> (if c.name in was then was[c.name].quantity else 0) + c.delta < 0)
              && (next.Some? ==> ChangedBy(was, c, next.value))
  {
    assert (changes + [c])[..|changes|] == changes;
  }

  /** Going on without going negative depends on the last change alone. */
  lemma LastDecides(bag: Bag, changes: seq<ItemChange>)
    requires changes != []
    ensures var front, n := changes[..|changes| - 1], changes[|changes| - 1].name;
      NeverNegative(bag, changes) <==> NeverNegative(bag, front) && Quantity(bag, n) + Sum(changes, n) >= 0
  {
    var front, last := changes[..|changes| - 1], changes[|changes| - 1];
    assert forall k :: 0 <= k <= |front| ==> changes[..k] == front[..k];
    assert changes[..|changes|] == changes && front[..|front|] == front;
    if NeverNegative(bag, changes) {
      assert Quantity(bag, last.name) + Sum(changes[..|changes|], last.name) >= 0;
      forall k, n | 0 <= k <= |front| ensures Quantity(bag, n) + Sum(front[..k], n) >= 0 {
        assert Quantity(bag, n) + Sum(changes[..k], n) >= 0;
      }
    }
    if NeverNegative(bag, front) && Quantity(bag, last.name) + Sum(changes, last.name) >= 0 {
      forall k, n | 0 <= k <= |changes| ensures Quantity(bag, n) + Sum(changes[..k], n) >= 0 {
        if k < |changes| {
          assert Quantity(bag, n) + Sum(front[..k], n) >= 0;
        } else if n != last.name {
          assert Quantity(bag, n) + Sum(front[..|front|], n) >= 0;
        }
      }
    }
  }

  // ---------------------------------------------------------------- the stored effects of all players

  datatype Effects = Effects(bags: map<nat, Bag>, states: map<nat, map<string, string>>, buffs: map<nat, map<string, nat>>)

  function BuffsSet(buffs: map<string, nat>, changes: seq<(string, nat)>): map<string, nat> {
    if changes == [] then buffs
    else BuffsSet(buffs, changes[..|changes| - 1])[changes[|changes| - 1].0 := changes[|changes| - 1].1]
  }

  predicate Mentions(changes: seq<(string, nat)>, name: string) {
    exists i :: 0 <= i < |changes| && changes[i].0 == name
  }

  /** The last change that names it says so. */
  predicate SaidLast(changes: seq<(string, nat)>, name: string, value: nat) {
    exists i :: 0 <= i < |changes| && changes[i] == (name, value) && forall j :: i < j < |changes| ==> changes[j].0 != name
  }

  /** The last word on each name counts; names nobody mentions keep what they had. */
  ghost predicate LastWord(was: map<string, nat>, changes: seq<(string, nat)>, now: map<string, nat>) {
    forall n ::
      if Mentions(changes, n) then n in now && SaidLast(changes, n, now[n])
      else (n in now <==> n in was) && (n in now ==> now[n] == was[n])
  }

  lemma StillSaid(front: seq<(string, nat)>, c: (string, nat), name: string)
    ensures Mentions(front + [c], name) <==> c.0 == name || Mentions(front, name)
    ensures c.0 == name ==> SaidLast(front + [c], name, c.1)
    ensures c.0 != name ==> forall v: nat :: SaidLast(front, name, v) ==> SaidLast(front + [c], name, v)
  {
    var all := front + [c];
    assert all[|front|] == c;
    if Mentions(front, name) {
      var i :| 0 <= i < |front| && front[i].0 == name;
      assert all[i].0 == name;
    }
    forall v: nat | c.0 != name && SaidLast(front, name, v) ensures SaidLast(all, name, v) {
      var i :| 0 <= i < |front| && front[i] == (name, v) && forall j :: i < j < |front| ==> front[j].0 != name;
      assert all[i] == (name, v);
    }
  }

  lemma {:induction false} LastWordOn(buffs: map<string, nat>, changes: seq<(string, nat)>, n: string)
    ensures var now := BuffsSet(buffs, changes);
      if Mentions(changes, n) then n in now && SaidLast(changes, n, now[n])
      else (n in now <==> n in buffs) && (n in now ==> now[n] == buffs[n])
    decreases |changes|
  {
    if changes != [] {
      var front, last := changes[..|changes| - 1], changes[|changes| - 1];
      assert changes == front + [last];
      LastWordOn(buffs, front, n);
      StillSaid(front, last, n);
    }
  }

  lemma BuffsAreLastWord(buffs: map<string, nat>, changes: seq<(string, nat)>)
    ensures LastWord(buffs, changes, BuffsSet(buffs, changes))
  {
    forall n | true
      ensures if Mentions(changes, n) then n in BuffsSet(buffs, changes) && SaidLast(changes, n, BuffsSet(buffs, changes)[n])
              else (n in BuffsSet(buffs, changes) <==> n in buffs) && (n in BuffsSet(buffs, changes) ==> BuffsSet(buffs, changes)[n] == buffs[n])
    {
      LastWordOn(buffs, changes, n);
    }
  }

  predicate Known(e: Effects, user: nat) {
    user in e.bags && user in e.states && user in e.buffs
  }

  /** One player's mutation applied on its own. */
  function Applied(e: Effects, m: Mutation): Option<Effects>
    requires Known(e, m.user)
  {
    var bag := Planned(e.bags[m.user], m.items);
    if bag.None? then None
    else Some(Effects(e.bags[m.user := bag.value], e.states[m.user := e.states[m.user] + m.state],
                      e.buffs[m.user := BuffsSet(e.buffs[m.user], m.buffs)]))
  }

  /** All mutations, one after the other; a failure anywhere leaves nothing. */
  function AppliedInTurn(e: Effects, ms: seq<Mutation>): (r: Option<Effects>)
    requires forall m :: m in ms ==> Known(e, m.user)
    ensures r.Some? ==> forall u :: Known(e, u) ==> Known(r.value, u)
  {
    if ms == [] then Some(e)
    else
      var front := AppliedInTurn(e, ms[..|ms| - 1]);
      if front.None? then None else Applied(front.value, ms[|ms| - 1])
  }

  predicate DistinctUsers(ms: seq<Mutation>) {
    forall i, j :: 0 <= i < j < |ms| ==> ms[i].user != ms[j].user
  }

  /** With one mutation per player, each plan made from the stored bag is the one sequential application uses. */
  lemma {:induction false} OthersUntouched(e: Effects, ms: seq<Mutation>, user: nat)
    requires (forall m :: m in ms ==> Known(e, m.user)) && Known(e, user)
    requires forall m :: m in ms ==> m.user != user
    requires AppliedInTurn(e, ms).Some?
    ensures var r := AppliedInTurn(e, ms).value; r.bags[user] == e.bags[user] && r.states[user] == e.states[user] && r.buffs[user] == e.buffs[user]
    decreases |ms|
  {
    if ms != [] {
      OthersUntouched(e, ms[..|ms| - 1], user);
    }
  }

  lemma {:induction false} AllPlansOrNone(e: Effects, ms: seq<Mutation>)
    requires (forall m :: m in ms ==> Known(e, m.user)) && DistinctUsers(ms)
    ensures AppliedInTurn(e, ms).Some? <==> forall m :: m in ms ==> Planned(e.bags[m.user], m.items).Some?
    decreases |ms|
  {
    if ms != [] {
      var front, last := ms[..|ms| - 1], ms[|ms| - 1];
      AllPlansOrNone(e, front);
      assert forall m :: m in ms <==> m in front || m == last;
      if AppliedInTurn(e, front).Some? {
        OthersUntouched(e, front, last.user);
      }
    }
  }

  /** What a committed mutation leaves of its player: the plan, the state fields replaced, the buffs set. */
  ghost predicate Settled(e: Effects, m: Mutation, n: Effects)
    requires Known(e, m.user)
  {
    && Known(n, m.user)
    && Planned(e.bags[m.user], m.items) == Some(n.bags[m.user])
    && (forall f :: f in n.states[m.user] <==> f in m.state || f in e.states[m.user])
    && (forall f :: f in n.states[m.user] ==> n.states[m.user][f] == if f in m.state then m.state[f] else e.states[m.user][f])
    && LastWord(e.buffs[m.user], m.buffs, n.buffs[m.user])
  }

  lemma AppliedSettles(e: Effects, m: Mutation)
    requires Known(e, m.user) && Applied(e, m).Some?
    ensures Settled(e, m, Applied(e, m).value)
  {
    BuffsAreLastWord(e.buffs[m.user], m.buffs);
  }

  lemma {:induction false} EachSettled(e: Effects, ms: seq<Mutation>, i: nat)
    requires (forall m :: m in ms ==> Known(e, m.user)) && DistinctUsers(ms) && i < |ms|
    requires AppliedInTurn(e, ms).Some?
    ensures Settled(e, ms[i], AppliedInTurn(e, ms).value)
    decreases |ms|
  {
    var k := |ms| - 1;
    var front := ms[..k];
    var here := AppliedInTurn(e, front).value;
    if i == k {
      OthersUntouched(e, front, ms[k].user);
      AppliedSettles(here, ms[k]);
    } else {
      EachSettled(e, front, i);
      assert front[i] == ms[i];
    }
  }

  class EffectStore {
    var bags: map<nat, Bag>
    var states: map<nat, map<string, string>>
    var buffs: map<nat, map<string, nat>>

    function Contents(): Effects
      reads this
    {
      Effects(bags, states, buffs)
    }

    constructor (e: Effects)
      ensures Contents() == e
    {
      bags, states, buffs := e.bags, e.states, e.buffs;
    }

    /** The planning pass over one player's changes. */
    method Plan(bag: Bag, changes: seq<ItemChange>) returns (inventory: Option<Bag>)
      ensures inventory == Planned(bag, changes)
    {
      var running := bag;
      for i := 0 to |changes|
        invariant Planned(bag, changes[..i]) == Some(running)
      {
        var c := changes[i];
        assert changes[..i + 1][..i] == changes[..i];
        var quantity: int := if c.name in running then running[c.name].quantity else 0;
        quantity := quantity + c.delta;
        if quantity < 0 {
          NoPlanBeyond(bag, changes, i + 1);
          return None;
        }
        if quantity == 0 {
          running := running - {c.name};
        } else {
          var description := c.description;
          if description == "" && c.name in running {
            description := running[c.name].description;
          }
          running := running[c.name := Holding(quantity, description)];
        }
      }
      assert changes[..|changes|] == changes;
      return Some(running);
    }

    method PlanAll(ms: seq<Mutation>) returns (plans: Option<seq<Bag>>)
      requires forall m :: m in ms ==> m.user in bags
      ensures plans.Some? <==> forall m :: m in ms ==> Planned(bags[m.user], m.items).Some?
      ensures plans.Some? ==> |plans.value| == |ms|
      ensures plans.Some? ==> forall j :: 0 <= j < |ms| ==> Planned(bags[ms[j].user], ms[j].items) == Some(plans.value[j])
    {
      var done: seq<Bag> := [];
      for i := 0 to |ms|
        invariant |done| == i
        invariant forall j :: 0 <= j < i ==> Planned(bags[ms[j].user], ms[j].items) == Some(done[j])
      {
        var plan := Plan(bags[ms[i].user], ms[i].items);
        if plan.None? {
          return None;
        }
        done := done + [plan.value];
      }
      return Some(done);
    }

    /** Plan every player, then write every player: all or nothing, and the same as one after the other. */
    method CommitEffects(ms: seq<Mutation>) returns (ok: bool)
      requires (forall m :: m in ms ==> Known(Contents(), m.user)) && DistinctUsers(ms)
      modifies this
      ensures ok <==> AppliedInTurn(old(Contents()), ms).Some?
      ensures ok ==> Contents() == AppliedInTurn(old(Contents()), ms).value
      ensures !ok ==> Contents() == old(Contents())
      ensures ok <==> forall m :: m in ms ==> Planned(old(bags)[m.user], m.items).Some?
      ensures ok ==> forall i {:trigger ms[i]} :: 0 <= i < |ms| ==> Settled(old(Contents()), ms[i], Contents())
      ensures ok ==> forall u :: Known(old(Contents()), u) && (forall m :: m in ms ==> m.user != u) ==>
                && Known(Contents(), u)
                && bags[u] == old(bags)[u] && states[u] == old(states)[u] && buffs[u] == old(buffs)[u]
    {
      AllPlansOrNone(Contents(), ms);
      var plans := PlanAll(ms);
      if plans.None? {
        return false;
      }
      ghost var before := Contents();
      for i := 0 to |ms|
        invariant AppliedInTurn(before, ms[..i]) == Some(Contents())
      {
        ghost var here := Contents();
        var m := ms[i];
        WritesPlan(before, ms, i, plans.value[i]);
        bags := bags[m.user := plans.value[i]];
        states := states[m.user := states[m.user] + m.state];
        buffs := buffs[m.user := BuffsSet(buffs[m.user], m.buffs)];
      }
      assert ms[..|ms|] == ms;
      AllSettled(before, ms);
      return true;
    }
  }

  lemma AllSettled(e: Effects, ms: seq<Mutation>)
    requires (forall m :: m in ms ==> Known(e, m.user)) && DistinctUsers(ms) && AppliedInTurn(e, ms).Some?
    ensures var n := AppliedInTurn(e, ms).value;
      && (forall i {:trigger ms[i]} :: 0 <= i < |ms| ==> Settled(e, ms[i], n))
      && (forall u :: Known(e, u) && (forall m :: m in ms ==> m.user != u) ==>
            && Known(n, u) && n.bags[u] == e.bags[u] && n.states[u] == e.states[u] && n.buffs[u] == e.buffs[u])
  {
    forall i | 0 <= i < |ms| ensures Settled(e, ms[i], AppliedInTurn(e, ms).value) {
      EachSettled(e, ms, i);
    }
    forall u | Known(e, u) && forall m :: m in ms ==> m.user != u
      ensures var n := AppliedInTurn(e, ms).value; n.bags[u] == e.bags[u] && n.states[u] == e.states[u] && n.buffs[u] == e.buffs[u]
    {
      OthersUntouched(e, ms, u);
    }
  }

  /** Writing the plan made at the start is what applying the mutation at its turn does. */
  lemma WritesPlan(e: Effects, ms: seq<Mutation>, i: nat, plan: Bag)
    requires (forall m :: m in ms ==> Known(e, m.user)) && DistinctUsers(ms) && i < |ms|
    requires AppliedInTurn(e, ms[..i]).Some? && Planned(e.bags[ms[i].user], ms[i].items) == Some(plan)
    ensures var here, m := AppliedInTurn(e, ms[..i]).value, ms[i];
      && Known(here, m.user)
      && AppliedInTurn(e, ms[..i + 1]) ==
           Some(Effects(here.bags[m.user := plan], here.states[m.user := here.states[m.user] + m.state],
                        here.buffs[m.user := BuffsSet(here.buffs[m.user], m.buffs)]))
  {
    assert ms[..i + 1][..i] == ms[..i];
    OthersUntouched(e, ms[..i], ms[i].user);
  }

  lemma {:induction false} NoPlanBeyond(bag: Bag, changes: seq<ItemChange>, n: nat)
    requires n <= |changes| && Planned(bag, changes[..n]).None?
    ensures Planned(bag, changes).None?
    decreases |changes| - n
  {
    if n < |changes| {
      assert changes[..n + 1][..n] == changes[..n];
      NoPlanBeyond(bag, changes, n + 1);
    } else {
      assert changes[..n] == changes;
    }
  }
}
