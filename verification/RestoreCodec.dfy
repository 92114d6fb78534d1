/**
 Restoring a multiplayer save: the snapshot is flattened into one argument list with counts in front
 of every repeated part, the restore script walks it with a running index and writes the runtime keys,
 and reading the room back decodes those keys.  Hashes and sets come back in any order.
 */
module RestoreCodec {
  import opened MemoryModel

  datatype Message = Message(role: string, content: string)
  datatype Item = Item(name: string, quantity: nat, description: string)
  datatype Buff = Buff(name: string, duration: nat)

  datatype Player = Player(user: nat, character: nat, state: map<string, string>, items: seq<Item>, buffs: seq<Buff>)

  datatype Snapshot = Snapshot(generation: Uuid, turn: nat, order: seq<nat>, players: seq<Player>,
                               summary: string, messages: seq<Message>)

  /** One script argument: a decimal number, a plain text, or the JSON text of an item or message. */
  datatype Argument = Number(n: nat) | Text(s: string) | ItemJson(item: Item) | MessageJson(message: Message)

  const CHARACTER: string := "character_id"

  /** The keys of one player: a hash, a set and a hash. */
  datatype PlayerKeys = PlayerKeys(state: map<string, Argument>, items: set<Item>, buffs: map<string, nat>)

  datatype RuntimeKeys = RuntimeKeys(generation: Uuid, turn: nat, order: seq<nat>, summary: string,
                                     rounds: seq<Message>, listed: seq<nat>, players: map<nat, PlayerKeys>, leased: bool)

  // ---------------------------------------------------------------- validity

  predicate PlayerValid(p: Player) {
    && p.user != 0 && p.character != 0
    && (forall i :: i in p.items ==> i.name != "" && i.quantity > 0)
    && (forall b :: b in p.buffs ==> b.name != "" && b.duration > 0)
  }

  /** validateMultiplayerSnapshot, for a paused room. */
  ghost predicate Valid(s: Snapshot) {
    && |s.order| >= 2 && |s.players| == |s.order|
    && 1 <= |s.messages| <= 10
    && (forall m :: m in s.messages ==> m.role != "" && m.content != "")
    && (forall p :: p in s.players ==> PlayerValid(p))
    && (forall i, j :: 0 <= i < j < |s.players| ==> s.players[i].user != s.players[j].user)
    && (forall i, j :: 0 <= i < j < |s.order| ==> s.order[i] != s.order[j])
    && (forall i :: 0 <= i < |s.order| ==> exists p :: p in s.players && p.user == s.order[i])
  }

  /** playersByID[user]. */
  ghost function PlayerOf(s: Snapshot, user: nat): Player
    requires exists p :: p in s.players && p.user == user
  {
    var p :| p in s.players && p.user == user;
    p
  }

  /** The players in turn order. */
  ghost function Ordered(s: Snapshot): seq<Player>
    requires Valid(s)
  {
    seq(|s.order|, i requires 0 <= i < |s.order| => PlayerOf(s, s.order[i]))
  }

  // ---------------------------------------------------------------- flattening

  /** The fields of a hash in some order; the program sorts them. */
  ghost predicate Lists(fields: seq<string>, m: map<string, string>) {
    && (forall f :: f in fields <==> f in m)
    && (forall i, j :: 0 <= i < j < |fields| ==> fields[i] != fields[j])
  }

  function Pairs(fields: seq<string>, m: map<string, string>): seq<Argument>
    requires forall f :: f in fields ==> f in m
  {
    if fields == [] then [] else [Text(fields[0]), Text(m[fields[0]])] + Pairs(fields[1..], m)
  }

  function ItemArguments(items: seq<Item>): seq<Argument> {
    if items == [] then [] else [ItemJson(items[0])] + ItemArguments(items[1..])
  }

  function BuffArguments(buffs: seq<Buff>): seq<Argument> {
    if buffs == [] then [] else [Text(buffs[0].name), Number(buffs[0].duration)] + BuffArguments(buffs[1..])
  }

  function UserArguments(order: seq<nat>): seq<Argument> {
    if order == [] then [] else [Number(order[0])] + UserArguments(order[1..])
  }

  function MessageArguments(messages: seq<Message>): seq<Argument> {
    if messages == [] then [] else [MessageJson(messages[0])] + MessageArguments(messages[1..])
  }

  function PlayerArguments(p: Player, fields: seq<string>): seq<Argument>
    requires forall f :: f in fields ==> f in p.state
  {
    [Number(p.user), Number(p.character), Number(|fields|)] + Pairs(fields, p.state)
    + [Number(|p.items|)] + ItemArguments(p.items)
    + [Number(|p.buffs|)] + BuffArguments(p.buffs)
  }

  // ---------------------------------------------------------------- what the script stores

  function BuffMap(buffs: seq<Buff>): map<string, nat> {
    if buffs == [] then map[] else BuffMap(buffs[..|buffs| - 1])[buffs[|buffs| - 1].name := buffs[|buffs| - 1].duration]
  }

  /** The character is written first, so a state field of the same name replaces it. */
  function StateHash(p: Player): map<string, Argument> {
    map[CHARACTER := Number(p.character)] + map f | f in p.state :: Text(p.state[f])
  }

  function Stored(p: Player): PlayerKeys {
    PlayerKeys(StateHash(p), (set i | i in p.items), BuffMap(p.buffs))
  }

  /** A list pushed from the left holds its elements in reverse. */
  function Pushed<T>(s: seq<T>): (r: seq<T>)
    ensures |r| == |s|
    ensures forall i :: 0 <= i < |s| ==> r[i] == s[|s| - 1 - i]
  {
    if s == [] then [] else [s[|s| - 1]] + Pushed(s[..|s| - 1])
  }

  ghost function StoredRuntime(s: Snapshot, leased: bool): RuntimeKeys
    requires Valid(s)
  {
    RuntimeKeys(s.generation, s.turn, s.order, s.summary, Pushed(s.messages), s.order,
                map u | u in s.order :: Stored(PlayerOf(s, u)), leased)
  }

  // ---------------------------------------------------------------- reading the room back

  function Digit(c: char): Option<nat> {
    if '0' <= c <= '9' then Some((c - '0') as nat) else None
  }

  function Decimal(s: string): Option<nat> {
    if s == "" then None
    else
      var last := Digit(s[|s| - 1]);
      var front := if |s| == 1 then Some(0) else Decimal(s[..|s| - 1]);
      if last.None? || front.None? then None else Some(10 * front.value + last.value)
  }

  /** A number is read digit by digit; anything else in the text makes it unreadable. */
  lemma DecimalReads(s: string, c: char)
    requires s != ""
    ensures Decimal("") == None
    ensures Decimal([c]) == if '0' <= c <= '9' then Some((c - '0') as nat) else None
    ensures Decimal(s + [c]) ==
              if '0' <= c <= '9' && Decimal(s).Some? then Some(10 * Decimal(s).value + (c - '0') as nat) else None
  {
    assert (s + [c])[..|s|] == s;
  }

  /** strconv.ParseUint on what the hash holds. */
  function ParseUint(a: Argument): Option<nat> {
    match a
    case Number(n) => Some(n)
    case Text(s) => Decimal(s)
    case _ => None
  }

  function AsText(a: Argument): string {
    if a.Text? then a.s else ""
  }

  ghost predicate EnumeratesItems(items: seq<Item>, stored: set<Item>) {
    && (forall i :: i in items <==> i in stored)
    && (forall i, j :: 0 <= i < j < |items| ==> items[i] != items[j])
  }

  ghost predicate EnumeratesBuffs(buffs: seq<Buff>, stored: map<string, nat>) {
    && (forall b :: b in buffs <==> b.name in stored && stored[b.name] == b.duration)
    && (forall i, j :: 0 <= i < j < |buffs| ==> buffs[i].name != buffs[j].name)
  }

  function Character(k: PlayerKeys): Option<nat> {
    if CHARACTER in k.state then ParseUint(k.state[CHARACTER]) else None
  }

  ghost predicate Readable(k: PlayerKeys) {
    && Character(k).Some? && Character(k).value != 0
    && (forall i :: i in k.items ==> i.name != "" && i.quantity > 0)
    && (forall n :: n in k.buffs ==> n != "" && k.buffs[n] > 0)
  }

  function StateOf(hash: map<string, Argument>): map<string, string> {
    map f | f in hash && f != CHARACTER :: AsText(hash[f])
  }

  /** decodeMultiplayerPlayers on one player, whatever order the hash and set entries came in. */
  ghost predicate DecodesTo(k: PlayerKeys, user: nat, p: Player) {
    && Readable(k)
    && p.user == user && p.character == Character(k).value && p.state == StateOf(k.state)
    && EnumeratesItems(p.items, k.items) && EnumeratesBuffs(p.buffs, k.buffs)
  }

  /** decodeMultiplayerRuntimeSnapshot on a paused room; a leftover lease belongs to another generation and is refused. */
  ghost predicate ReadBack(k: RuntimeKeys, r: Option<Snapshot>) {
    if k.leased || (exists u :: u in k.listed && (u !in k.players || !Readable(k.players[u]))) then r.None?
    else
      && r.Some?
      && r.value.generation == k.generation && r.value.turn == k.turn && r.value.order == k.order && r.value.summary == k.summary
      && r.value.messages == Pushed(k.rounds)
      && |r.value.players| == |k.listed|
      && forall i :: 0 <= i < |k.listed| ==> k.listed[i] in k.players && DecodesTo(k.players[k.listed[i]], k.listed[i], r.value.players[i])
  }

  // ---------------------------------------------------------------- the round trip

  /** Items and buffs compare as sets. */
  predicate SamePlayer(a: Player, b: Player) {
    && a.user == b.user && a.character == b.character && a.state == b.state
    && (set i | i in a.items) == (set i | i in b.items)
    && (set x | x in a.buffs) == (set x | x in b.buffs)
  }

  /** Players compare in turn order. */
  ghost predicate SameSnapshot(a: Snapshot, b: Snapshot)
    requires Valid(b)
  {
    && a.generation == b.generation && a.turn == b.turn && a.order == b.order && a.summary == b.summary && a.messages == b.messages
    && |a.players| == |b.order|
    && forall i :: 0 <= i < |b.order| ==> SamePlayer(a.players[i], PlayerOf(b, b.order[i]))
  }

  predicate BuffsAgree(buffs: seq<Buff>) {
    forall a, b :: a in buffs && b in buffs && a.name == b.name ==> a == b
  }

  predicate Representable(p: Player) {
    CHARACTER !in p.state && BuffsAgree(p.buffs)
  }

  lemma {:induction false} PushedTwice<T>(s: seq<T>)
    ensures Pushed(Pushed(s)) == s
  {
  }

  lemma {:induction false} BuffMapOf(buffs: seq<Buff>)
    ensures forall n :: n in BuffMap(buffs) <==> exists b :: b in buffs && b.name == n
    ensures forall n :: n in BuffMap(buffs) ==> Buff(n, BuffMap(buffs)[n]) in buffs
    decreases |buffs|
  {
    if buffs != [] {
      var front, last := buffs[..|buffs| - 1], buffs[|buffs| - 1];
      BuffMapOf(front);
      assert forall b :: b in buffs <==> b in front || b == last;
    }
  }

  lemma BuffsBack(buffs: seq<Buff>, back: seq<Buff>)
    requires EnumeratesBuffs(back, BuffMap(buffs))
    ensures (set x | x in back) == (set x | x in buffs) <==> BuffsAgree(buffs)
  {
    BuffMapOf(buffs);
    if BuffsAgree(buffs) {
      forall b | b in buffs ensures b in back {
        assert Buff(b.name, BuffMap(buffs)[b.name]) in buffs;
      }
    } else {
      var a, b :| a in buffs && b in buffs && a.name == b.name && a != b;
      var before, after := set x | x in buffs, set x | x in back;
      assert a in before && b in before;
      assert !(a in after && b in after);
    }
  }

  lemma StoredReadable(p: Player)
    requires PlayerValid(p)
    ensures CHARACTER !in p.state ==> Readable(Stored(p)) && Character(Stored(p)) == Some(p.character) && StateOf(Stored(p).state) == p.state
    ensures CHARACTER in p.state ==> StateOf(Stored(p).state) != p.state
  {
    BuffMapOf(p.buffs);
    if CHARACTER !in p.state {
      assert StateOf(Stored(p).state) == p.state;
    } else {
      assert CHARACTER !in StateOf(Stored(p).state);
    }
  }

  /** A stored player comes back the same exactly when its state and its buffs can be represented. */
  lemma PlayerBackIff(p: Player, r: Player)
    requires PlayerValid(p) && DecodesTo(Stored(p), p.user, r)
    ensures SamePlayer(r, p) <==> Representable(p)
  {
    StoredReadable(p);
    BuffsBack(p.buffs, r.buffs);
    assert (set i | i in r.items) == (set i | i in p.items);
  }

  lemma PlayerOfIs(s: Snapshot, user: nat)
    requires Valid(s) && user in s.order
    ensures exists p :: p in s.players && p.user == user
    ensures PlayerOf(s, user) in s.players && PlayerOf(s, user).user == user && PlayerValid(PlayerOf(s, user))
  {
    var i :| 0 <= i < |s.order| && s.order[i] == user;
  }

  ghost predicate AllRepresentable(s: Snapshot)
    requires Valid(s)
  {
    forall u :: u in s.order ==> (exists p :: p in s.players && p.user == u) && Representable(PlayerOf(s, u))
  }

  lemma ReadableOfRepresentable(s: Snapshot, u: nat)
    requires Valid(s) && u in s.order && AllRepresentable(s)
    ensures u in StoredRuntime(s, false).players && Readable(StoredRuntime(s, false).players[u])
  {
    PlayerOfIs(s, u);
    StoredReadable(PlayerOf(s, u));
  }

  lemma PlayersBackIff(s: Snapshot, leased: bool, r: Snapshot)
    requires Valid(s) && ReadBack(StoredRuntime(s, leased), Some(r))
    ensures SameSnapshot(r, s) <==> AllRepresentable(s)
  {
    PushedTwice(s.messages);
    forall i | 0 <= i < |s.order|
      ensures SamePlayer(r.players[i], PlayerOf(s, s.order[i])) <==> Representable(PlayerOf(s, s.order[i]))
      ensures exists p :: p in s.players && p.user == s.order[i]
    {
      PlayerOfIs(s, s.order[i]);
      PlayerBackIff(PlayerOf(s, s.order[i]), r.players[i]);
    }
  }

  /**
   For every valid paused snapshot, whatever order hashes and sets are enumerated in: restoring it and
   reading the room back gives the same snapshot, players in turn order, items and buffs as sets and
   messages in their order, if and only if no action lease was left behind, no player has a state field
   called character_id, and buffs of one player that share a name share their duration.
   */
  lemma RoundTripIff(s: Snapshot, leased: bool, r: Option<Snapshot>)
    requires Valid(s) && ReadBack(StoredRuntime(s, leased), r)
    ensures (r.Some? && SameSnapshot(r.value, s)) <==> !leased && AllRepresentable(s)
  {
    if r.Some? {
      PlayersBackIff(s, leased, r.value);
    } else if !leased && AllRepresentable(s) {
      forall u | u in s.order ensures u in StoredRuntime(s, false).players && Readable(StoredRuntime(s, false).players[u]) {
        ReadableOfRepresentable(s, u);
      }
    }
  }

  /** A field called character_id takes the place of the character and then disappears from the state. */
  lemma CharacterFieldReplacesCharacter()
    ensures var p := Player(1, 5, map[CHARACTER := "9"], [], []);
      DecodesTo(Stored(p), 1, Player(1, 9, map[], [], []))
  {
    var p := Player(1, 5, map[CHARACTER := "9"], [], []);
    assert StateHash(p)[CHARACTER] == Text("9");
    assert StateOf(StateHash(p)) == map[];
  }
}
