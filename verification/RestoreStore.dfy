/**
 The restore script's walk over its argument list: one running index, one loop per counted part.
 Proved on the very lists the snapshot writer produces.
 */
module RestoreStore {
  import opened MemoryModel
  import opened RestoreCodec

  /** The arguments from `index` on are `part` and then `rest`. */
  ghost predicate At<A>(arguments: seq<A>, index: nat, part: seq<A>, rest: seq<A>) {
    index <= |arguments| && arguments[index..] == part + rest
  }

  lemma AtNext<A>(arguments: seq<A>, index: nat, part: seq<A>, rest: seq<A>, k: nat)
    requires At(arguments, index, part, rest) && k <= |part|
    ensures At(arguments, index + k, part[k..], rest)
    ensures forall i :: 0 <= i < |part| ==> index + i < |arguments| && arguments[index + i] == part[i]
  {
    assert arguments[index..][k..] == arguments[index + k..];
    assert (part + rest)[k..] == part[k..] + rest;
    forall i | 0 <= i < |part| ensures index + i < |arguments| && arguments[index + i] == part[i] {
      assert arguments[index..][i] == (part + rest)[i];
    }
  }

  // ---------------------------------------------------------------- the counted loops

  method ReadUsers(arguments: seq<Argument>, start: nat, count: nat, ghost order: seq<nat>, ghost rest: seq<Argument>)
    returns (users: seq<nat>, index: nat)
    requires count == |order| && At(arguments, start, UserArguments(order), rest)
    ensures users == order && At(arguments, index, [], rest)
  {
    users, index := [], start;
    for k := 0 to count
      invariant At(arguments, index, UserArguments(order[k..]), rest)
      invariant users == order[..k]
    {
      AtNext(arguments, index, UserArguments(order[k..]), rest, 1);
      assert order[k..][1..] == order[k + 1..];
      users := users + [arguments[index].n];
      index := index + 1;
    }
    assert order[..count] == order;
  }

  /** LPUSH one message after the other. */
  method PushMessages(arguments: seq<Argument>, start: nat, count: nat, ghost messages: seq<Message>, ghost rest: seq<Argument>)
    returns (rounds: seq<Message>, index: nat)
    requires count == |messages| && At(arguments, start, MessageArguments(messages), rest)
    ensures rounds == Pushed(messages) && At(arguments, index, [], rest)
  {
    rounds, index := [], start;
    for k := 0 to count
      invariant At(arguments, index, MessageArguments(messages[k..]), rest)
      invariant rounds == Pushed(messages[..k])
    {
      AtNext(arguments, index, MessageArguments(messages[k..]), rest, 1);
      assert messages[k..][1..] == messages[k + 1..];
      assert messages[..k + 1][..k] == messages[..k];
      rounds := [arguments[index].message] + rounds;
      index := index + 1;
    }
    assert messages[..count] == messages;
  }

  function FieldMap(fields: seq<string>, state: map<string, string>, hash: map<string, Argument>): map<string, Argument>
    requires forall f :: f in fields ==> f in state
  {
    if fields == [] then hash
    else FieldMap(fields[..|fields| - 1], state, hash)[fields[|fields| - 1] := Text(state[fields[|fields| - 1]])]
  }

  /** Whatever the order of the fields, the hash ends up with every one of them over what it held before. */
  lemma {:induction false} FieldMapIs(fields: seq<string>, state: map<string, string>, hash: map<string, Argument>)
    requires forall f :: f in fields ==> f in state
    ensures var m := FieldMap(fields, state, hash);
      && (forall f :: f in m <==> f in hash || f in fields)
      && (forall f :: f in fields ==> m[f] == Text(state[f]))
      && (forall f :: f in hash && f !in fields ==> m[f] == hash[f])
    decreases |fields|
  {
    if fields != [] {
      FieldMapIs(fields[..|fields| - 1], state, hash);
    }
  }

  lemma FieldsFillHash(p: Player, fields: seq<string>)
    requires Lists(fields, p.state)
    ensures FieldMap(fields, p.state, map[CHARACTER := Number(p.character)]) == StateHash(p)
  {
    FieldMapIs(fields, p.state, map[CHARACTER := Number(p.character)]);
  }

  /** HSET one field after the other, over whatever the hash holds already. */
  method SetFields(arguments: seq<Argument>, start: nat, count: nat, hash: map<string, Argument>,
                   ghost fields: seq<string>, ghost state: map<string, string>, ghost rest: seq<Argument>)
    returns (filled: map<string, Argument>, index: nat)
    requires count == |fields| && (forall f :: f in fields ==> f in state)
    requires At(arguments, start, Pairs(fields, state), rest)
    ensures filled == FieldMap(fields, state, hash) && At(arguments, index, [], rest)
  {
    filled, index := hash, start;
    for k := 0 to count
      invariant At(arguments, index, Pairs(fields[k..], state), rest)
      invariant filled == FieldMap(fields[..k], state, hash)
    {
      ghost var part := Pairs(fields[k..], state);
      AtNext(arguments, index, part, rest, 2);
      assert fields[k..][1..] == fields[k + 1..];
      assert part[2..] == Pairs(fields[k + 1..], state);
      assert fields[..k + 1][..k] == fields[..k];
      filled := filled[arguments[index].s := arguments[index + 1]];
      index := index + 2;
    }
    assert fields[..count] == fields;
  }

  method AddItems(arguments: seq<Argument>, start: nat, count: nat, ghost items: seq<Item>, ghost rest: seq<Argument>)
    returns (stored: set<Item>, index: nat)
    requires count == |items| && At(arguments, start, ItemArguments(items), rest)
    ensures stored == (set i | i in items) && At(arguments, index, [], rest)
  {
    stored, index := {}, start;
    for k := 0 to count
      invariant At(arguments, index, ItemArguments(items[k..]), rest)
      invariant stored == set i | i in items[..k]
    {
      AtNext(arguments, index, ItemArguments(items[k..]), rest, 1);
      assert items[k..][1..] == items[k + 1..];
      assert forall i :: i in items[..k + 1] <==> i in items[..k] || i == items[k];
      stored := stored + {arguments[index].item};
      index := index + 1;
    }
    assert items[..count] == items;
  }

  method SetBuffs(arguments: seq<Argument>, start: nat, count: nat, ghost buffs: seq<Buff>, ghost rest: seq<Argument>)
    returns (stored: map<string, nat>, index: nat)
    requires count == |buffs| && At(arguments, start, BuffArguments(buffs), rest)
    ensures stored == BuffMap(buffs) && At(arguments, index, [], rest)
  {
    stored, index := map[], start;
    for k := 0 to count
      invariant At(arguments, index, BuffArguments(buffs[k..]), rest)
      invariant stored == BuffMap(buffs[..k])
    {
      ghost var part := BuffArguments(buffs[k..]);
      AtNext(arguments, index, part, rest, 2);
      assert buffs[k..][1..] == buffs[k + 1..];
      assert part[2..] == BuffArguments(buffs[k + 1..]);
      assert buffs[..k + 1][..k] == buffs[..k];
      stored := stored[arguments[index].s := arguments[index + 1].n];
      index := index + 2;
    }
    assert buffs[..count] == buffs;
  }

  // ---------------------------------------------------------------- one player, all players, the room

  lemma AtSplit(arguments: seq<Argument>, index: nat, part: seq<Argument>, a: seq<Argument>, b: seq<Argument>, rest: seq<Argument>)
    requires At(arguments, index, part, rest) && part == a + b
    ensures At(arguments, index, a, b + rest)
  {
    assert part + rest == a + (b + rest);
  }

  lemma AtRest(arguments: seq<Argument>, index: nat, a: seq<Argument>, rest: seq<Argument>)
    requires At(arguments, index, [], a + rest)
    ensures At(arguments, index, a, rest)
  {
  }

  /** The counted parts of one player's arguments. */
  function StatePart(p: Player, fields: seq<string>): seq<Argument>
    requires forall f :: f in fields ==> f in p.state
  {
    [Number(p.user), Number(p.character), Number(|fields|)] + Pairs(fields, p.state)
  }

  function ItemPart(p: Player): seq<Argument> {
    [Number(|p.items|)] + ItemArguments(p.items)
  }

  function BuffPart(p: Player): seq<Argument> {
    [Number(|p.buffs|)] + BuffArguments(p.buffs)
  }

  lemma PlayerParts(p: Player, fields: seq<string>)
    requires forall f :: f in fields ==> f in p.state
    ensures PlayerArguments(p, fields) == StatePart(p, fields) + (ItemPart(p) + BuffPart(p))
  {
  }

  method RestoreState(arguments: seq<Argument>, start: nat, ghost p: Player, ghost fields: seq<string>, ghost rest: seq<Argument>)
    returns (hash: map<string, Argument>, index: nat)
    requires Lists(fields, p.state) && At(arguments, start, StatePart(p, fields), rest)
    ensures hash == StateHash(p) && At(arguments, index, [], rest)
  {
    AtNext(arguments, start, StatePart(p, fields), rest, 3);
    assert StatePart(p, fields)[3..] == Pairs(fields, p.state);
    var count := arguments[start + 2].n;
    hash := map[CHARACTER := arguments[start + 1]];
    hash, index := SetFields(arguments, start + 3, count, hash, fields, p.state, rest);
    FieldsFillHash(p, fields);
  }

  method RestoreItems(arguments: seq<Argument>, start: nat, ghost p: Player, ghost rest: seq<Argument>)
    returns (items: set<Item>, index: nat)
    requires At(arguments, start, [], ItemPart(p) + rest)
    ensures items == (set i | i in p.items) && At(arguments, index, [], rest)
  {
    AtRest(arguments, start, ItemPart(p), rest);
    AtNext(arguments, start, ItemPart(p), rest, 1);
    assert ItemPart(p)[1..] == ItemArguments(p.items);
    items, index := AddItems(arguments, start + 1, arguments[start].n, p.items, rest);
  }

  method RestoreBuffs(arguments: seq<Argument>, start: nat, ghost p: Player, ghost rest: seq<Argument>)
    returns (buffs: map<string, nat>, index: nat)
    requires At(arguments, start, [], BuffPart(p) + rest)
    ensures buffs == BuffMap(p.buffs) && At(arguments, index, [], rest)
  {
    AtRest(arguments, start, BuffPart(p), rest);
    AtNext(arguments, start, BuffPart(p), rest, 1);
    assert BuffPart(p)[1..] == BuffArguments(p.buffs);
    buffs, index := SetBuffs(arguments, start + 1, arguments[start].n, p.buffs, rest);
  }

  method RestorePlayer(arguments: seq<Argument>, start: nat, ghost p: Player, ghost fields: seq<string>, ghost rest: seq<Argument>)
    returns (keys: PlayerKeys, index: nat)
    requires Lists(fields, p.state) && At(arguments, start, PlayerArguments(p, fields), rest)
    ensures keys == Stored(p) && At(arguments, index, [], rest)
  {
    PlayerParts(p, fields);
    AtSplit(arguments, start, PlayerArguments(p, fields), StatePart(p, fields), ItemPart(p) + BuffPart(p), rest);
    var hash, next := RestoreState(arguments, start, p, fields, ItemPart(p) + BuffPart(p) + rest);
    assert ItemPart(p) + BuffPart(p) + rest == ItemPart(p) + (BuffPart(p) + rest);
    var items, after := RestoreItems(arguments, next, p, BuffPart(p) + rest);
    var buffs: map<string, nat>;
    buffs, index := RestoreBuffs(arguments, after, p, rest);
    keys := PlayerKeys(hash, items, buffs);
  }

  ghost predicate FieldsOf(players: seq<Player>, fields: seq<seq<string>>) {
    |fields| == |players| && forall i :: 0 <= i < |players| ==> Lists(fields[i], players[i].state)
  }

  ghost function PlayersArguments(players: seq<Player>, fields: seq<seq<string>>): seq<Argument>
    requires FieldsOf(players, fields)
  {
    if players == [] then [] else PlayerArguments(players[0], fields[0]) + PlayersArguments(players[1..], fields[1..])
  }

  ghost predicate KeysUpTo(order: seq<nat>, players: seq<Player>, keys: map<nat, PlayerKeys>, k: nat)
    requires k <= |order| == |players|
  {
    && (forall u :: u in keys <==> u in order[..k])
    && (forall i {:trigger order[i]} :: 0 <= i < k ==> order[i] in keys && keys[order[i]] == Stored(players[i]))
  }

  lemma KeysGrow(order: seq<nat>, players: seq<Player>, keys: map<nat, PlayerKeys>, k: nat)
    requires k < |order| == |players| && KeysUpTo(order, players, keys, k)
    requires forall i, j :: 0 <= i < j < |order| ==> order[i] != order[j]
    ensures KeysUpTo(order, players, keys[order[k] := Stored(players[k])], k + 1)
  {
    assert order[..k + 1] == order[..k] + [order[k]];
  }

  /** One block after the other, each into the keys named after the user at the same place in the turn order. */
  method RestorePlayers(arguments: seq<Argument>, start: nat, order: seq<nat>, ghost players: seq<Player>,
                        ghost fields: seq<seq<string>>, ghost rest: seq<Argument>)
    returns (keys: map<nat, PlayerKeys>)
    requires |players| == |order| && FieldsOf(players, fields)
    requires forall i, j :: 0 <= i < j < |order| ==> order[i] != order[j]
    requires At(arguments, start, PlayersArguments(players, fields), rest)
    ensures forall u :: u in keys <==> u in order
    ensures forall i :: 0 <= i < |order| ==> order[i] in keys && keys[order[i]] == Stored(players[i])
  {
    keys := map[];
    var index := start;
    for k := 0 to |order|
      invariant At(arguments, index, PlayersArguments(players[k..], fields[k..]), rest)
      invariant KeysUpTo(order, players, keys, k)
    {
      assert players[k..][1..] == players[k + 1..] && fields[k..][1..] == fields[k + 1..];
      ghost var more := PlayersArguments(players[k + 1..], fields[k + 1..]);
      AtSplit(arguments, index, PlayersArguments(players[k..], fields[k..]), PlayerArguments(players[k], fields[k]), more, rest);
      var player: PlayerKeys;
      player, index := RestorePlayer(arguments, index, players[k], fields[k], more + rest);
      AtRest(arguments, index, more, rest);
      KeysGrow(order, players, keys, k);
      keys := keys[order[k] := player];
    }
    assert order[..|order|] == order;
  }

  function TalkPart(messages: seq<Message>): seq<Argument> {
    [Number(|messages|)] + MessageArguments(messages)
  }

  /** The arguments of a whole snapshot, as the repository builds them. */
  ghost function SnapshotArguments(s: Snapshot, fields: seq<seq<string>>): seq<Argument>
    requires Valid(s) && FieldsOf(Ordered(s), fields)
  {
    [Number(s.generation), Number(s.turn), Text(s.summary), Number(|s.order|)]
    + (UserArguments(s.order) + (TalkPart(s.messages) + PlayersArguments(Ordered(s), fields)))
  }

  method RestoreTalk(arguments: seq<Argument>, start: nat, ghost messages: seq<Message>, ghost rest: seq<Argument>)
    returns (rounds: seq<Message>, index: nat)
    requires At(arguments, start, [], TalkPart(messages) + rest)
    ensures rounds == Pushed(messages) && At(arguments, index, [], rest)
  {
    AtRest(arguments, start, TalkPart(messages), rest);
    AtNext(arguments, start, TalkPart(messages), rest, 1);
    assert TalkPart(messages)[1..] == MessageArguments(messages);
    rounds, index := PushMessages(arguments, start + 1, arguments[start].n, messages, rest);
  }

  /** Everything after the four leading values. */
  method RestoreLists(arguments: seq<Argument>, count: nat, ghost users: seq<nat>, ghost messages: seq<Message>,
                      ghost players: seq<Player>, ghost fields: seq<seq<string>>)
    returns (order: seq<nat>, rounds: seq<Message>, keys: map<nat, PlayerKeys>)
    requires count == |users| == |players| && FieldsOf(players, fields)
    requires forall i, j :: 0 <= i < j < |users| ==> users[i] != users[j]
    requires At(arguments, 4, UserArguments(users), TalkPart(messages) + PlayersArguments(players, fields))
    ensures order == users && rounds == Pushed(messages)
    ensures forall u :: u in keys <==> u in users
    ensures forall i :: 0 <= i < |users| ==> users[i] in keys && keys[users[i]] == Stored(players[i])
  {
    ghost var blocks := PlayersArguments(players, fields);
    var index: nat;
    order, index := ReadUsers(arguments, 4, count, users, TalkPart(messages) + blocks);
    rounds, index := RestoreTalk(arguments, index, messages, blocks);
    assert blocks == blocks + [];
    AtRest(arguments, index, blocks, []);
    keys := RestorePlayers(arguments, index, order, players, fields, []);
  }

  lemma PlayersStored(s: Snapshot, keys: map<nat, PlayerKeys>)
    requires Valid(s)
    requires forall u :: u in keys <==> u in s.order
    requires forall i :: 0 <= i < |s.order| ==> s.order[i] in keys && keys[s.order[i]] == Stored(Ordered(s)[i])
    ensures keys == StoredRuntime(s, false).players
  {
    forall u | u in s.order ensures u in StoredRuntime(s, false).players && keys[u] == StoredRuntime(s, false).players[u] {
      PlayerOfIs(s, u);
      var i :| 0 <= i < |s.order| && s.order[i] == u;
      assert Ordered(s)[i] == PlayerOf(s, s.order[i]);
    }
  }

  /** The restore script stores exactly the snapshot's runtime. */
  method RestoreRoom(arguments: seq<Argument>, leased: bool, ghost s: Snapshot, ghost fields: seq<seq<string>>)
    returns (keys: RuntimeKeys)
    requires Valid(s) && FieldsOf(Ordered(s), fields) && arguments == SnapshotArguments(s, fields)
    ensures keys == StoredRuntime(s, leased)
  {
    assert arguments[4..] == UserArguments(s.order) + (TalkPart(s.messages) + PlayersArguments(Ordered(s), fields));
    var order, rounds, players := RestoreLists(arguments, arguments[3].n, s.order, s.messages, Ordered(s), fields);
    PlayersStored(s, players);
    keys := RuntimeKeys(arguments[0].n, arguments[1].n, order, arguments[2].s, rounds, order, players, leased);
  }

  // ---------------------------------------------------------------- decoding one player

  /** What HGETALL and SMEMBERS return for one player: every entry once, in any order. */
  ghost predicate Enumerates(k: PlayerKeys, fields: seq<(string, Argument)>, items: seq<Item>, buffs: seq<(string, nat)>) {
    && (forall e :: e in fields <==> e.0 in k.state && k.state[e.0] == e.1)
    && EnumeratesItems(items, k.items)
    && (forall e :: e in buffs <==> e.0 in k.buffs && k.buffs[e.0] == e.1)
    && (forall i, j :: 0 <= i < j < |buffs| ==> buffs[i].0 != buffs[j].0)
  }

  function HashOf(fields: seq<(string, Argument)>): map<string, Argument> {
    if fields == [] then map[] else HashOf(fields[..|fields| - 1])[fields[|fields| - 1].0 := fields[|fields| - 1].1]
  }

  lemma {:induction false} HashHolds(fields: seq<(string, Argument)>)
    ensures forall f :: f in HashOf(fields) ==> (f, HashOf(fields)[f]) in fields
    ensures forall e :: e in fields ==> e.0 in HashOf(fields)
    decreases |fields|
  {
    if fields != [] {
      HashHolds(fields[..|fields| - 1]);
    }
  }

  lemma HashBack(fields: seq<(string, Argument)>, hash: map<string, Argument>)
    requires forall e :: e in fields <==> e.0 in hash && hash[e.0] == e.1
    ensures HashOf(fields) == hash
  {
    HashHolds(fields);
    forall f | f in hash ensures f in HashOf(fields) {
      assert (f, hash[f]) in fields;
    }
  }

  /** decodeMultiplayerPlayers on one entry: three loops over what Redis returned. */
  method DecodePlayer(user: nat, fields: seq<(string, Argument)>, items: seq<Item>, buffs: seq<(string, nat)>, ghost k: PlayerKeys)
    returns (r: Option<Player>)
    requires Enumerates(k, fields, items, buffs)
    ensures r.Some? <==> Readable(k)
    ensures r.Some? ==> DecodesTo(k, user, r.value)
    ensures r.Some? <==>
              && (exists e :: e in fields && e.0 == "character_id" && ParseUint(e.1).Some? && ParseUint(e.1).value != 0)
              && (forall i :: i in items ==> i.name != "" && i.quantity != 0)
              && (forall b :: b in buffs ==> b.0 != "" && b.1 != 0)
    ensures r.Some? ==>
              && r.value.user == user && ("character_id", k.state["character_id"]) in fields
              && ParseUint(k.state["character_id"]) == Some(r.value.character) && r.value.items == items
              && (forall f :: f in r.value.state <==> f in k.state && f != "character_id")
              && (forall f, t :: (f, Text(t)) in fields && f != "character_id" ==> r.value.state[f] == t)
              && |r.value.buffs| == |buffs| && forall i :: 0 <= i < |buffs| ==> r.value.buffs[i] == Buff(buffs[i].0, buffs[i].1)
  {
    var hash: map<string, Argument> := map[];
    for i := 0 to |fields|
      invariant hash == HashOf(fields[..i])
    {
      assert fields[..i + 1][..i] == fields[..i];
      hash := hash[fields[i].0 := fields[i].1];
    }
    assert fields[..|fields|] == fields;
    HashBack(fields, k.state);
    var character := if CHARACTER in hash then ParseUint(hash[CHARACTER]) else None;
    if character.None? || character.value == 0 {
      return None;
    }
    for i := 0 to |items|
      invariant forall j :: 0 <= j < i ==> items[j].name != "" && items[j].quantity > 0
    {
      if items[i].name == "" || items[i].quantity == 0 {
        assert items[i] in k.items;
        return None;
      }
    }
    var kept: seq<Buff> := [];
    for i := 0 to |buffs|
      invariant |kept| == i && forall j :: 0 <= j < i ==> kept[j] == Buff(buffs[j].0, buffs[j].1) && kept[j].name != "" && kept[j].duration > 0
    {
      if buffs[i].0 == "" || buffs[i].1 == 0 {
        assert buffs[i] in buffs;
        return None;
      }
      kept := kept + [Buff(buffs[i].0, buffs[i].1)];
    }
    BuffsKept(k.buffs, buffs, kept);
    assert (CHARACTER, hash[CHARACTER]) in fields;
    return Some(Player(user, character.value, StateOf(hash), items, kept));
  }

  lemma BuffsKept(stored: map<string, nat>, buffs: seq<(string, nat)>, kept: seq<Buff>)
    requires forall e :: e in buffs <==> e.0 in stored && stored[e.0] == e.1
    requires forall i, j :: 0 <= i < j < |buffs| ==> buffs[i].0 != buffs[j].0
    requires |kept| == |buffs| && forall j :: 0 <= j < |buffs| ==> kept[j] == Buff(buffs[j].0, buffs[j].1) && kept[j].name != "" && kept[j].duration > 0
    ensures EnumeratesBuffs(kept, stored)
    ensures forall n :: n in stored ==> n != "" && stored[n] > 0
  {
    forall b | b in kept ensures b.name in stored && stored[b.name] == b.duration {
      var j :| 0 <= j < |kept| && kept[j] == b;
      assert buffs[j] in buffs;
    }
    forall b: Buff | b.name in stored && stored[b.name] == b.duration ensures b in kept {
      assert (b.name, b.duration) in buffs;
      var j :| 0 <= j < |buffs| && buffs[j] == (b.name, b.duration);
      assert kept[j] in kept;
    }
    forall n | n in stored ensures n != "" && stored[n] > 0 {
      assert (n, stored[n]) in buffs;
      var j :| 0 <= j < |buffs| && buffs[j] == (n, stored[n]);
      assert kept[j].name != "";
    }
  }
}
