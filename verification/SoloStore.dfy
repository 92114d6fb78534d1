/**
 The solo codec as it runs: the loops that check and copy a snapshot, the restore script's walk over
 its arguments, and the loops that decode a captured reply.
 */
module SoloStore {
  import opened MemoryModel
  import RestoreCodec
  import opened SoloText
  import opened SoloCodec
  import opened RestoreStore

  // ---------------------------------------------------------------- checking and copying

  /** Every field once, in whatever order the map is ranged over. */
  ghost predicate Ranges(fields: seq<string>, state: map<string, string>) {
    && (forall f :: f in fields <==> f in state)
    && (forall i, j :: 0 <= i < j < |fields| ==> fields[i] != fields[j])
  }

  /** A field that cannot be copied makes the whole state invalid. */
  lemma FieldRefused(seen: map<string, string>, copy: map<string, string>, state: map<string, string>, f: string, other: map<string, string>)
    requires StateEntries(seen, copy) && seen.Keys <= state.Keys && f in state && f !in seen
    requires !FieldValid(Trim(f), Trim(state[f])) || Trim(f) in copy
    ensures !StateEntries(state, other)
  {
    if FieldValid(Trim(f), Trim(state[f])) {
      assert Comes(seen, Trim(f));
      var g :| g in seen && Trim(g) == Trim(f);
      assert SameName(g, f);
    } else {
      assert !EntryOk(state, other, f);
    }
  }

  /** The copy made of the first fields in the order they are met. */
  function CopyFields(fields: seq<string>, state: map<string, string>): Option<map<string, string>>
    requires forall f :: f in fields ==> f in state
  {
    if fields == [] then Some(map[])
    else
      var rest, last := CopyFields(fields[..|fields| - 1], state), fields[|fields| - 1];
      if rest.None? || !FieldValid(Trim(last), Trim(state[last])) || Trim(last) in rest.value then None
      else Some(rest.value[Trim(last) := Trim(state[last])])
  }

  function Restricted(fields: seq<string>, state: map<string, string>): map<string, string>
    requires forall f :: f in fields ==> f in state
  {
    map f | f in fields :: state[f]
  }

  lemma {:induction false} CopyFieldsIs(fields: seq<string>, state: map<string, string>)
    requires (forall f :: f in fields ==> f in state) && forall i, j :: 0 <= i < j < |fields| ==> fields[i] != fields[j]
    ensures CopyFields(fields, state).Some? ==> StateEntries(Restricted(fields, state), CopyFields(fields, state).value)
    ensures CopyFields(fields, state).None? ==> forall other :: !StateEntries(state, other)
    decreases |fields|
  {
    if fields != [] {
      var front, last := fields[..|fields| - 1], fields[|fields| - 1];
      CopyFieldsIs(front, state);
      assert fields == front + [last];
      if CopyFields(front, state).Some? {
        var seen, copy := Restricted(front, state), CopyFields(front, state).value;
        if CopyFields(fields, state).Some? {
          OneMoreField(seen, copy, last, state[last]);
          assert Restricted(fields, state) == seen[last := state[last]];
        } else {
          forall other ensures !StateEntries(state, other) {
            FieldRefused(seen, copy, state, last, other);
          }
        }
      }
    }
  }

  lemma {:induction false} CopyStaysFailed(fields: seq<string>, state: map<string, string>, i: nat)
    requires (forall f :: f in fields ==> f in state) && i <= |fields| && CopyFields(fields[..i], state).None?
    ensures CopyFields(fields, state).None?
    decreases |fields| - i
  {
    if i < |fields| {
      assert fields[..i + 1][..i] == fields[..i];
      CopyStaysFailed(fields, state, i + 1);
    } else {
      assert fields[..i] == fields;
    }
  }

  /** The loop over the fields of a map. */
  method CopyState(state: map<string, string>, fields: seq<string>) returns (clean: Option<map<string, string>>)
    requires forall f :: f in fields ==> f in state
    ensures clean == CopyFields(fields, state)
  {
    var copy: map<string, string> := map[];
    for i := 0 to |fields|
      invariant CopyFields(fields[..i], state) == Some(copy)
    {
      assert fields[..i + 1][..i] == fields[..i];
      var field, value := Trim(fields[i]), Trim(state[fields[i]]);
      if !FieldValid(field, value) || field in copy {
        CopyStaysFailed(fields, state, i + 1);
        return None;
      }
      copy := copy[field := value];
    }
    assert fields[..|fields|] == fields;
    return Some(copy);
  }

  /** normalizePlayerState. */
  method NormalizePlayerState(state: map<string, string>, fields: seq<string>) returns (clean: Option<map<string, string>>)
    requires Ranges(fields, state)
    ensures clean.Some? ==> state != map[] && StateEntries(state, clean.value)
    ensures clean.None? ==> state == map[] || forall other :: !StateEntries(state, other)
  {
    if |state| == 0 {
      return None;
    }
    clean := CopyState(state, fields);
    CopyFieldsIs(fields, state);
    assert Restricted(fields, state) == state;
  }

  /** `names` are those of the first `i` entries, no two of which share one. */
  predicate NamesOf<T>(all: seq<Named<T>>, i: nat, names: set<string>)
    requires i <= |all|
  {
    && (forall j :: 0 <= j < i ==> all[j].name in names)
    && (forall n :: n in names ==> exists j :: 0 <= j < i && all[j].name == n)
    && forall j, k :: 0 <= j < k < i ==> all[j].name != all[k].name
  }

  predicate ItemsChecked(all: seq<Item>, i: nat) {
    i <= |all| && forall j :: 0 <= j < i ==> ItemValid(all[j])
  }

  lemma ItemRefused(all: seq<Item>, i: nat, names: set<string>)
    requires i < |all| && NamesOf(all, i, names) && (!ItemValid(all[i]) || all[i].name in names)
    ensures !ItemsValid(all)
  {
  }

  lemma ItemAccepted(all: seq<Item>, i: nat, names: set<string>)
    requires i < |all| && ItemsChecked(all, i) && NamesOf(all, i, names)
    requires ItemValid(all[i]) && all[i].name !in names
    ensures ItemsChecked(all, i + 1) && NamesOf(all, i + 1, names + {all[i].name})
  {
  }

  lemma OneMore<T>(all: seq<T>, i: nat)
    requires i < |all|
    ensures all[..i + 1] == all[..i] + [all[i]]
  {
  }

  lemma AllItems(all: seq<Item>, names: set<string>)
    requires |all| <= MAX_COLLECTION && ItemsChecked(all, |all|) && NamesOf(all, |all|, names)
    ensures ItemsValid(all)
  {
  }

  /** The loop over items, with the names seen so far. */
  method CopyItems(items: seq<Item>) returns (r: Option<seq<Item>>)
    requires |items| <= MAX_COLLECTION
    ensures r.Some? <==> ItemsValid(CleanItems(items))
    ensures r.Some? ==> r.value == CleanItems(items)
  {
    ghost var all := CleanItems(items);
    var copy: seq<Item> := [];
    var names: set<string> := {};
    for i := 0 to |items|
      invariant copy == all[..i] && ItemsChecked(all, i) && NamesOf(all, i, names)
    {
      var item := CleanItem(items[i]);
      assert all[i] == item;
      if !ItemValid(item) || item.name in names {
        ItemRefused(all, i, names);
        return None;
      }
      ItemAccepted(all, i, names);
      OneMore(all, i);
      copy, names := copy + [item], names + {item.name};
    }
    AllItems(all, names);
    assert copy == all;
    return Some(copy);
  }

  predicate BuffsChecked(all: seq<Buff>, i: nat) {
    i <= |all| && forall j :: 0 <= j < i ==> BuffValid(all[j])
  }

  lemma BuffRefused(all: seq<Buff>, i: nat, names: set<string>)
    requires i < |all| && NamesOf(all, i, names) && (!BuffValid(all[i]) || all[i].name in names)
    ensures !BuffsValid(all)
  {
  }

  lemma BuffAccepted(all: seq<Buff>, i: nat, names: set<string>)
    requires i < |all| && BuffsChecked(all, i) && NamesOf(all, i, names)
    requires BuffValid(all[i]) && all[i].name !in names
    ensures BuffsChecked(all, i + 1) && NamesOf(all, i + 1, names + {all[i].name})
  {
  }

  method CopyBuffs(buffs: seq<Buff>) returns (r: Option<seq<Buff>>)
    requires |buffs| <= MAX_COLLECTION
    ensures r.Some? <==> BuffsValid(CleanBuffs(buffs))
    ensures r.Some? ==> r.value == CleanBuffs(buffs)
  {
    ghost var all := CleanBuffs(buffs);
    var copy: seq<Buff> := [];
    var names: set<string> := {};
    for i := 0 to |buffs|
      invariant copy == all[..i] && BuffsChecked(all, i) && NamesOf(all, i, names)
    {
      var buff := CleanBuff(buffs[i]);
      assert all[i] == buff;
      if !BuffValid(buff) || buff.name in names {
        BuffRefused(all, i, names);
        return None;
      }
      BuffAccepted(all, i, names);
      copy, names := copy + [buff], names + {buff.name};
    }
    return Some(copy);
  }

  method CopyMessages(messages: seq<Message>) returns (r: Option<seq<Message>>)
    requires 0 < |messages| <= MAX_MESSAGES
    ensures r.Some? <==> MessagesValid(CleanMessages(messages))
    ensures r.Some? ==> r.value == CleanMessages(messages)
  {
    ghost var all := CleanMessages(messages);
    var copy: seq<Message> := [];
    for i := 0 to |messages|
      invariant copy == all[..i]
      invariant forall j :: 0 <= j < i ==> MessageValid(all[j], j)
    {
      var message := CleanMessage(messages[i]);
      assert all[i] == message;
      if !MessageValid(message, i) {
        return None;
      }
      copy := copy + [message];
    }
    return Some(copy);
  }

  lemma NotNormal(s: Snapshot)
    requires forall n :: !NormalForm(s, n)
    ensures Normalize(s) == Err(Invalid)
  {
  }

  /** normalizeSoloRuntimeSnapshot. */
  method NormalizeSolo(s: Snapshot, fields: seq<string>) returns (r: Result<Snapshot>)
    requires Ranges(fields, s.state)
    ensures r == Normalize(s)
  {
    if !HeaderValid(s) || |s.messages| == 0 || |s.messages| > MAX_MESSAGES || |s.items| > MAX_COLLECTION || |s.buffs| > MAX_COLLECTION {
      NotNormal(s);
      return Err(Invalid);
    }
    var state := NormalizePlayerState(s.state, fields);
    if state.None? || |state.value| > MAX_COLLECTION {
      forall n ensures !StateNormal(s.state, n) {
        if state.Some? && StateEntries(s.state, n) {
          StateUnique(s.state, n, state.value);
        }
      }
      NotNormal(s);
      return Err(Invalid);
    }
    var messages := CopyMessages(s.messages);
    var items := CopyItems(s.items);
    var buffs := CopyBuffs(s.buffs);
    if messages.None? || items.None? || buffs.None? {
      NotNormal(s);
      return Err(Invalid);
    }
    var n := s.(state := state.value, summary := Trim(s.summary), messages := messages.value,
                items := Sort(items.value), buffs := Sort(buffs.value));
    NormalizeIs(s, n);
    return Ok(n);
  }

  // ---------------------------------------------------------------- decoding a reply

  method UnpackAll(values: seq<string>) returns (items: Option<seq<Item>>)
    ensures items == UnpackItems(values)
  {
    var list: seq<Item> := [];
    for i := 0 to |values|
      invariant UnpackItems(values[..i]) == Some(list)
    {
      assert values[..i + 1][..i] == values[..i];
      var item := UnpackItem(values[i]);
      if item.None? {
        ItemFailsAll(values, i + 1);
        return None;
      }
      list := list + [item.value];
    }
    assert values[..|values|] == values;
    return Some(list);
  }

  lemma {:induction false} ItemFailsAll(values: seq<string>, i: nat)
    requires i <= |values| && UnpackItems(values[..i]).None?
    ensures UnpackItems(values).None?
    decreases |values| - i
  {
    if i < |values| {
      assert values[..i + 1][..i] == values[..i];
      ItemFailsAll(values, i + 1);
    } else {
      assert values[..i] == values;
    }
  }

  function FieldNames(pairs: seq<(string, string)>): seq<string> {
    seq(|pairs|, i requires 0 <= i < |pairs| => pairs[i].0)
  }

  lemma {:induction false} HashRanges(pairs: seq<(string, string)>)
    requires UnpackHash(pairs).Some?
    ensures Ranges(FieldNames(pairs), UnpackHash(pairs).value)
    decreases |pairs|
  {
    if pairs != [] {
      HashRanges(pairs[..|pairs| - 1]);
      assert FieldNames(pairs) == FieldNames(pairs[..|pairs| - 1]) + [pairs[|pairs| - 1].0];
    }
  }

  /** decodeSoloRuntimeSnapshot. */
  method DecodeSolo(room: nat, user: Uint, reply: Reply) returns (r: Result<Snapshot>)
    ensures r == Decode(room, user, reply)
  {
    var turn := ParseInt(reply.turn);
    if turn.None? || turn.value < 0 {
      return Err(Invalid);
    }
    var order := UnpackOrder(reply.order);
    var state := UnpackHash(reply.player);
    if order.None? || state.None? {
      return Err(Invalid);
    }
    var items := UnpackAll(reply.items);
    var buffs := UnpackBuffs(reply.buffs);
    if items.None? || buffs.None? {
      return Err(Invalid);
    }
    HashRanges(reply.player);
    r := NormalizeSolo(Snapshot(SNAPSHOT_VERSION, room, user, StatusOf(reply.status), turn.value, order.value, state.value,
                                items.value, buffs.value, reply.summary, reply.rounds), FieldNames(reply.player));
  }

  // ---------------------------------------------------------------- the restore script

  /** A script argument: a text or the JSON of a message. */
  datatype Word = Word(text: string) | Line(message: Message)

  function Words(texts: seq<string>): seq<Word> {
    seq(|texts|, i requires 0 <= i < |texts| => Word(texts[i]))
  }

  function Lines(messages: seq<Message>): seq<Word> {
    seq(|messages|, i requires 0 <= i < |messages| => Line(messages[i]))
  }

  /** field, value, field, value, ... */
  function Pairs(pairs: seq<(string, string)>): seq<Word> {
    if pairs == [] then [] else [Word(pairs[0].0), Word(pairs[0].1)] + Pairs(pairs[1..])
  }

  function Packed(items: seq<Item>): seq<string>
    requires forall i :: 0 <= i < |items| ==> ItemValid(items[i])
  {
    seq(|items|, i requires 0 <= i < |items| && ItemValid(items[i]) => Pack(items[i]))
  }

  function BuffPairs(buffs: seq<Buff>): seq<(string, string)>
    requires forall i :: 0 <= i < |buffs| ==> BuffValid(buffs[i])
  {
    seq(|buffs|, i requires 0 <= i < |buffs| && BuffValid(buffs[i]) => (buffs[i].name, Digits(buffs[i].body)))
  }

  function StatePairs(fields: seq<string>, state: map<string, string>): seq<(string, string)>
    requires forall i :: 0 <= i < |fields| ==> fields[i] in state
  {
    seq(|fields|, i requires 0 <= i < |fields| => (fields[i], state[fields[i]]))
  }

  /** The counted parts of the argument list, in order. */
  function Tail(order: seq<string>, rounds: seq<Message>, player: seq<(string, string)>, items: seq<string>,
                buffs: seq<(string, string)>): seq<Word> {
    [Word(Digits(|order|))] + Words(order)
    + ([Word(Digits(|rounds|))] + Lines(rounds)
       + ([Word(Digits(|player|))] + Pairs(player)
          + ([Word(Digits(|items|))] + Words(items)
             + ([Word(Digits(|buffs|))] + Pairs(buffs)))))
  }

  /** One count and what follows it. */
  method ReadCount(arguments: seq<Word>, index: nat, ghost count: nat, ghost part: seq<Word>, ghost rest: seq<Word>)
    returns (n: nat, next: nat)
    requires At(arguments, index, [Word(Digits(count))] + part, rest)
    ensures n == count && At(arguments, next, part, rest)
  {
    AtNext(arguments, index, [Word(Digits(count))] + part, rest, 1);
    DecimalDigits(count);
    assert ([Word(Digits(count))] + part)[1..] == part;
    n, next := RestoreCodec.Decimal(arguments[index].text).value, index + 1;
  }

  /** RPUSH or SADD one text after the other. */
  method ReadTexts(arguments: seq<Word>, start: nat, count: nat, ghost texts: seq<string>, ghost rest: seq<Word>)
    returns (read: seq<string>, index: nat)
    requires count == |texts| && At(arguments, start, Words(texts), rest)
    ensures read == texts && At(arguments, index, [], rest)
  {
    read, index := [], start;
    for k := 0 to count
      invariant At(arguments, index, Words(texts[k..]), rest)
      invariant read == texts[..k]
    {
      AtNext(arguments, index, Words(texts[k..]), rest, 1);
      assert Words(texts[k..])[1..] == Words(texts[k + 1..]);
      read := read + [arguments[index].text];
      index := index + 1;
    }
  }

  method ReadLines(arguments: seq<Word>, start: nat, count: nat, ghost messages: seq<Message>, ghost rest: seq<Word>)
    returns (read: seq<Message>, index: nat)
    requires count == |messages| && At(arguments, start, Lines(messages), rest)
    ensures read == messages && At(arguments, index, [], rest)
  {
    read, index := [], start;
    for k := 0 to count
      invariant At(arguments, index, Lines(messages[k..]), rest)
      invariant read == messages[..k]
    {
      AtNext(arguments, index, Lines(messages[k..]), rest, 1);
      assert Lines(messages[k..])[1..] == Lines(messages[k + 1..]);
      read := read + [arguments[index].message];
      index := index + 1;
    }
  }

  /** What HSET makes of a list of pairs. */
  function HashOf(pairs: seq<(string, string)>): map<string, string> {
    if pairs == [] then map[] else HashOf(pairs[..|pairs| - 1])[pairs[|pairs| - 1].0 := pairs[|pairs| - 1].1]
  }

  method ReadHash(arguments: seq<Word>, start: nat, count: nat, ghost pairs: seq<(string, string)>, ghost rest: seq<Word>)
    returns (hash: map<string, string>, index: nat)
    requires count == |pairs| && At(arguments, start, Pairs(pairs), rest)
    ensures hash == HashOf(pairs) && At(arguments, index, [], rest)
  {
    hash, index := map[], start;
    for k := 0 to count
      invariant At(arguments, index, Pairs(pairs[k..]), rest)
      invariant hash == HashOf(pairs[..k])
    {
      ghost var part := Pairs(pairs[k..]);
      AtNext(arguments, index, part, rest, 2);
      assert pairs[k..][1..] == pairs[k + 1..];
      assert part[2..] == Pairs(pairs[k + 1..]);
      assert pairs[..k + 1][..k] == pairs[..k];
      hash := hash[arguments[index].text := arguments[index + 1].text];
      index := index + 2;
    }
    assert pairs[..count] == pairs;
  }

  /** The script from its first count on. */
  method RestoreTail(arguments: seq<Word>, ghost order: seq<string>, ghost rounds: seq<Message>, ghost player: seq<(string, string)>,
                     ghost items: seq<string>, ghost buffs: seq<(string, string)>)
    returns (users: seq<string>, log: seq<Message>, state: map<string, string>, bag: set<string>, effects: map<string, string>)
    requires arguments == Tail(order, rounds, player, items, buffs)
    ensures users == order && log == rounds && state == HashOf(player) && bag == (set x | x in items) && effects == HashOf(buffs)
  {
    ghost var last := [Word(Digits(|buffs|))] + Pairs(buffs);
    ghost var fourth := [Word(Digits(|items|))] + Words(items) + last;
    ghost var third := [Word(Digits(|player|))] + Pairs(player) + fourth;
    ghost var second := [Word(Digits(|rounds|))] + Lines(rounds) + third;
    assert arguments[0..] == ([Word(Digits(|order|))] + Words(order)) + second;
    var n, index := ReadCount(arguments, 0, |order|, Words(order), second);
    users, index := ReadTexts(arguments, index, n, order, second);
    n, index := ReadCount(arguments, index, |rounds|, Lines(rounds), third);
    log, index := ReadLines(arguments, index, n, rounds, third);
    n, index := ReadCount(arguments, index, |player|, Pairs(player), fourth);
    state, index := ReadHash(arguments, index, n, player, fourth);
    n, index := ReadCount(arguments, index, |items|, Words(items), last);
    var list;
    list, index := ReadTexts(arguments, index, n, items, last);
    bag := set x | x in list;
    assert last + [] == last;
    n, index := ReadCount(arguments, index, |buffs|, Pairs(buffs), []);
    effects, index := ReadHash(arguments, index, n, buffs, []);
  }

  lemma {:induction false} HashOfIs(pairs: seq<(string, string)>)
    requires forall i, j :: 0 <= i < j < |pairs| ==> pairs[i].0 != pairs[j].0
    ensures forall i :: 0 <= i < |pairs| ==> pairs[i].0 in HashOf(pairs) && HashOf(pairs)[pairs[i].0] == pairs[i].1
    ensures forall f :: f in HashOf(pairs) ==> exists i :: 0 <= i < |pairs| && pairs[i].0 == f
    decreases |pairs|
  {
    if pairs != [] {
      var front := pairs[..|pairs| - 1];
      HashOfIs(front);
      forall f | f in HashOf(pairs) ensures exists i :: 0 <= i < |pairs| && pairs[i].0 == f {
        if f != pairs[|pairs| - 1].0 {
          var i :| 0 <= i < |front| && front[i].0 == f;
          assert pairs[i].0 == f;
        }
      }
    }
  }

  lemma StateStored(fields: seq<string>, state: map<string, string>)
    requires Ranges(fields, state) && forall i :: 0 <= i < |fields| ==> fields[i] in state
    ensures HashOf(StatePairs(fields, state)) == state
  {
    var pairs := StatePairs(fields, state);
    HashOfIs(pairs);
    forall f | f in state ensures f in HashOf(pairs) && HashOf(pairs)[f] == state[f] {
      var i :| 0 <= i < |fields| && fields[i] == f;
      assert pairs[i].0 == f;
    }
    forall f | f in HashOf(pairs) ensures f in state {
      var i :| 0 <= i < |pairs| && pairs[i].0 == f;
    }
  }

  lemma {:induction false} BuffsStored(buffs: seq<Buff>)
    requires forall i :: 0 <= i < |buffs| ==> BuffValid(buffs[i])
    ensures HashOf(BuffPairs(buffs)) == BuffHash(buffs)
    decreases |buffs|
  {
    if buffs != [] {
      BuffsStored(buffs[..|buffs| - 1]);
      assert BuffPairs(buffs)[..|buffs| - 1] == BuffPairs(buffs[..|buffs| - 1]);
    }
  }

  lemma StoredIs(n: Snapshot, fields: seq<string>)
    requires Normal(n) && Ranges(fields, n.state) && forall i :: 0 <= i < |fields| ==> fields[i] in n.state
    ensures Stored(n) == SoloKeys(StatusText(n.status), n.turn, [Digits(n.user)], n.summary, n.messages,
                                  HashOf(StatePairs(fields, n.state)), (set x | x in Packed(n.items)), HashOf(BuffPairs(n.buffs)))
  {
    StateStored(fields, n.state);
    BuffsStored(n.buffs);
    BagIs(n.items);
  }

  lemma BagIs(items: seq<Item>)
    requires ItemsValid(items)
    ensures (set x | x in Packed(items)) == set i | 0 <= i < |items| :: Pack(items[i])
  {
    forall i | 0 <= i < |items| ensures Pack(items[i]) in Packed(items) {
      assert Packed(items)[i] == Pack(items[i]);
    }
  }

  /** The argument list of a normalised snapshot, and the script that reads it back into keys. */
  method WriteSolo(n: Snapshot, fields: seq<string>) returns (keys: SoloKeys)
    requires Normal(n) && Ranges(fields, n.state)
    ensures keys == Stored(n)
  {
    assert forall i :: 0 <= i < |fields| ==> fields[i] in fields;
    StoredIs(n, fields);
    var order, player, items, buffs := [Digits(n.user)], StatePairs(fields, n.state), Packed(n.items), BuffPairs(n.buffs);
    var users, log, state, bag, effects :=
      RestoreTail(Tail(order, n.messages, player, items, buffs), order, n.messages, player, items, buffs);
    keys := SoloKeys(StatusText(n.status), n.turn, users, n.summary, log, state, bag, effects);
  }

  /** A map hands out its fields in any order, each once. */
  method FieldsOf(state: map<string, string>) returns (fields: seq<string>)
    ensures Ranges(fields, state)
  {
    fields := [];
    var left := state.Keys;
    while left != {}
      invariant left <= state.Keys && (forall f :: f in fields <==> f in state && f !in left)
      invariant forall i, j :: 0 <= i < j < |fields| ==> fields[i] != fields[j]
    {
      var f :| f in left;
      fields, left := fields + [f], left - {f};
    }
  }

  /** RestoreSoloRoom: any snapshot is normalised first, and refused exactly when it has no normal form. */
  method RestoreSolo(s: Snapshot) returns (r: Result<SoloKeys>)
    ensures r.Ok? <==> Normalize(s).Ok?
    ensures r.Ok? ==> Normal(Normalize(s).value) && r.value == Stored(Normalize(s).value)
    ensures r.Err? ==> r.error == Invalid
  {
    var fields := FieldsOf(s.state);
    var normalized := NormalizeSolo(s, fields);
    if normalized.Err? {
      return Err(normalized.error);
    }
    NormalizeTwice(s, normalized.value);
    fields := FieldsOf(normalized.value.state);
    var keys := WriteSolo(normalized.value, fields);
    return Ok(keys);
  }
}
