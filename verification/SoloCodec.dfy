/**
 Restoring and capturing a solo runtime: a snapshot is normalised, written to Redis keys, and read
 back in whatever order hashes and sets are enumerated.  Load reconciliation compares the two for equality.
 */
module SoloCodec {
  import opened MemoryModel
  import RestoreCodec
  import opened SoloText

  type Message = RestoreCodec.Message

  datatype Status = Playing | Paused | Unknown

  datatype Stack = Stack(quantity: Int64, description: string)

  type Item = Named<Stack>
  type Buff = Named<Int64>

  type Uint = n: nat | n <= MAX_UINT64

  datatype Snapshot = Snapshot(version: nat, room: nat, user: Uint, status: Status, turn: Int64, order: seq<nat>,
                               state: map<string, string>, items: seq<Item>, buffs: seq<Buff>, summary: string,
                               messages: seq<Message>)

  const SNAPSHOT_VERSION: nat := 1
  const MAX_SUMMARY_BYTES: nat := 65535
  const MAX_COLLECTION: nat := 512
  const MAX_MESSAGES: nat := 10
  const MAX_CONTENT_BYTES: nat := 65536
  const NUMERIC: set<string> := {"hp", "max_hp", "mp", "max_mp", "san", "ac", "level"}

  // ---------------------------------------------------------------- normalising

  predicate ItemValid(i: Item) {
    && i.name != "" && '|' !in i.name && i.body.quantity > 0
    && |i.name| <= 200 && |i.body.description| <= 1000
  }

  function CleanItem(i: Item): Item {
    Named(Trim(i.name), Stack(i.body.quantity, Trim(i.body.description)))
  }

  predicate BuffValid(b: Buff) {
    b.name != "" && b.body > 0 && |b.name| <= 200
  }

  function CleanBuff(b: Buff): Buff {
    Named(Trim(b.name), b.body)
  }

  function CleanItems(items: seq<Item>): seq<Item> {
    seq(|items|, i requires 0 <= i < |items| => CleanItem(items[i]))
  }

  function CleanBuffs(buffs: seq<Buff>): seq<Buff> {
    seq(|buffs|, i requires 0 <= i < |buffs| => CleanBuff(buffs[i]))
  }

  predicate ItemsValid(items: seq<Item>) {
    |items| <= MAX_COLLECTION && Distinct(items) && forall i :: 0 <= i < |items| ==> ItemValid(items[i])
  }

  predicate BuffsValid(buffs: seq<Buff>) {
    |buffs| <= MAX_COLLECTION && Distinct(buffs) && forall i :: 0 <= i < |buffs| ==> BuffValid(buffs[i])
  }

  function CleanMessage(m: Message): Message {
    RestoreCodec.Message(Trim(m.role), Trim(m.content))
  }

  /** Narration and actions alternate. */
  predicate MessageValid(m: Message, index: nat) {
    && m.role == (if index % 2 == 1 then "user" else "assistant")
    && m.content != "" && Bytes(m.content) <= MAX_CONTENT_BYTES
  }

  function CleanMessages(messages: seq<Message>): seq<Message> {
    seq(|messages|, i requires 0 <= i < |messages| => CleanMessage(messages[i]))
  }

  predicate MessagesValid(messages: seq<Message>) {
    0 < |messages| <= MAX_MESSAGES && forall i :: 0 <= i < |messages| ==> MessageValid(messages[i], i)
  }

  predicate FieldValid(field: string, value: string) {
    && field != "" && Bytes(field) <= 64 && Bytes(value) <= 8192
    && (field in NUMERIC ==> ParseInt(value).Some?)
  }

  predicate EntryOk(state: map<string, string>, clean: map<string, string>, f: string)
    requires f in state
  {
    Trim(f) in clean && clean[Trim(f)] == Trim(state[f]) && FieldValid(Trim(f), Trim(state[f]))
  }

  predicate Comes(state: map<string, string>, g: string) {
    exists f :: f in state && Trim(f) == g
  }

  predicate SameName(f: string, g: string) {
    Trim(f) == Trim(g)
  }

  /** Every field is copied under its trimmed name, no two of them under the same. */
  ghost predicate StateEntries(state: map<string, string>, clean: map<string, string>) {
    && (forall f {:trigger EntryOk(state, clean, f)} :: f in state ==> EntryOk(state, clean, f))
    && (forall f, g {:trigger SameName(f, g)} :: f in state && g in state && SameName(f, g) ==> f == g)
    && (forall g {:trigger Comes(state, g)} :: g in clean ==> Comes(state, g))
  }

  /** normalizePlayerState makes `clean` of `state`. */
  ghost predicate StateNormal(state: map<string, string>, clean: map<string, string>) {
    state != map[] && |clean| <= MAX_COLLECTION && StateEntries(state, clean)
  }

  predicate HeaderValid(s: Snapshot) {
    && s.version == SNAPSHOT_VERSION && s.room != 0 && s.user != 0 && s.turn >= 0 && !s.status.Unknown?
    && s.order == [s.user] && Bytes(s.summary) <= MAX_SUMMARY_BYTES
  }

  /** normalizeSoloRuntimeSnapshot succeeds with `n`; otherwise it refuses. */
  ghost predicate NormalForm(s: Snapshot, n: Snapshot) {
    && HeaderValid(s) && ItemsValid(CleanItems(s.items)) && BuffsValid(CleanBuffs(s.buffs)) && MessagesValid(CleanMessages(s.messages))
    && StateNormal(s.state, n.state)
    && n == s.(state := n.state, summary := Trim(s.summary), messages := CleanMessages(s.messages),
               items := Sort(CleanItems(s.items)), buffs := Sort(CleanBuffs(s.buffs)))
  }

  ghost function Normalize(s: Snapshot): Result<Snapshot> {
    if exists n :: NormalForm(s, n) then
      var n :| NormalForm(s, n);
      Ok(n)
    else Err(Invalid)
  }

  lemma StateUnique(state: map<string, string>, a: map<string, string>, b: map<string, string>)
    requires StateEntries(state, a) && StateEntries(state, b)
    ensures a == b
  {
    forall g | g in a ensures g in b && b[g] == a[g] {
      assert Comes(state, g);
      var f :| f in state && Trim(f) == g;
      assert EntryOk(state, a, f) && EntryOk(state, b, f);
    }
    forall g | g in b ensures g in a {
      assert Comes(state, g);
      var f :| f in state && Trim(f) == g;
      assert EntryOk(state, a, f);
    }
  }

  lemma NormalizeIs(s: Snapshot, n: Snapshot)
    ensures Normalize(s) == Ok(n) <==> NormalForm(s, n)
  {
    if NormalForm(s, n) {
      StateUnique(s.state, n.state, Normalize(s).value.state);
    }
  }

  // ---------------------------------------------------------------- what is already normal

  /** A snapshot normalising would leave as it is. */
  ghost predicate Normal(n: Snapshot) {
    && HeaderValid(n) && ItemsValid(n.items) && BuffsValid(n.buffs) && MessagesValid(n.messages)
    && Ordered(n.items) && Ordered(n.buffs)
    && CleanItems(n.items) == n.items && CleanBuffs(n.buffs) == n.buffs && CleanMessages(n.messages) == n.messages
    && StateNormal(n.state, n.state) && Trimmed(n.summary)
  }

  lemma CleanTwice(items: seq<Item>, buffs: seq<Buff>, messages: seq<Message>)
    ensures CleanItems(CleanItems(items)) == CleanItems(items)
    ensures CleanBuffs(CleanBuffs(buffs)) == CleanBuffs(buffs)
    ensures CleanMessages(CleanMessages(messages)) == CleanMessages(messages)
  {
    forall s: string ensures Trim(Trim(s)) == Trim(s) {
      TrimIs(s);
      TrimIs(Trim(s));
    }
  }

  lemma SortedItems(items: seq<Item>)
    requires ItemsValid(items) && CleanItems(items) == items
    ensures ItemsValid(Sort(items)) && CleanItems(Sort(items)) == Sort(items) && Ordered(Sort(items))
  {
    SortIs(items);
    var sorted := Sort(items);
    forall i | 0 <= i < |sorted| ensures ItemValid(sorted[i]) && CleanItem(sorted[i]) == sorted[i] {
      SortHas(items, sorted[i]);
      var k :| 0 <= k < |items| && items[k] == sorted[i];
      assert CleanItems(items)[k] == items[k];
    }
    OrderedIsDistinct(sorted);
  }

  lemma SortedBuffs(buffs: seq<Buff>)
    requires BuffsValid(buffs) && CleanBuffs(buffs) == buffs
    ensures BuffsValid(Sort(buffs)) && CleanBuffs(Sort(buffs)) == Sort(buffs) && Ordered(Sort(buffs))
  {
    SortIs(buffs);
    var sorted := Sort(buffs);
    forall i | 0 <= i < |sorted| ensures BuffValid(sorted[i]) && CleanBuff(sorted[i]) == sorted[i] {
      SortHas(buffs, sorted[i]);
      var k :| 0 <= k < |buffs| && buffs[k] == sorted[i];
      assert CleanBuffs(buffs)[k] == buffs[k];
    }
    OrderedIsDistinct(sorted);
  }

  lemma OrderedIsDistinct<T>(s: seq<Named<T>>)
    requires Ordered(s)
    ensures Distinct(s)
  {
    forall i, j | 0 <= i < j < |s| ensures s[i].name != s[j].name {
      LessTotal(s[i].name, s[j].name);
    }
  }

  lemma StateTwice(state: map<string, string>, clean: map<string, string>)
    requires StateNormal(state, clean)
    ensures StateNormal(clean, clean)
  {
    var some :| some in state;
    assert EntryOk(state, clean, some);
    forall g | g in clean ensures Trim(g) == g && EntryOk(clean, clean, g) && Comes(clean, g) {
      assert Comes(state, g);
      var f :| f in state && Trim(f) == g;
      assert EntryOk(state, clean, f);
      TrimIs(f);
      TrimIs(g);
      TrimIs(state[f]);
      TrimIs(clean[g]);
    }
  }

  /** Normalising gives something normal, and normalising that again changes nothing. */
  lemma NormalizeTwice(s: Snapshot, n: Snapshot)
    requires Normalize(s) == Ok(n)
    ensures Normal(n) && Normalize(n) == Ok(n)
  {
    NormalizeIs(s, n);
    CleanTwice(s.items, s.buffs, s.messages);
    SortedItems(CleanItems(s.items));
    SortedBuffs(CleanBuffs(s.buffs));
    StateTwice(s.state, n.state);
    TrimIs(s.summary);
    NormalIsFixed(n);
  }

  lemma NormalIsFixed(n: Snapshot)
    requires Normal(n)
    ensures Normalize(n) == Ok(n)
  {
    SortedAgain(n.items);
    SortedAgain(n.buffs);
    TrimIs(n.summary);
    NormalizeIs(n, n);
  }

  lemma SortedAgain<T>(s: seq<Named<T>>)
    requires Ordered(s)
    ensures Sort(s) == s
  {
    OrderedIsDistinct(s);
    Resorted(s, s);
  }

  /** The same entries in any order sort to the same list. */
  lemma Resorted<T>(s: seq<Named<T>>, sorted: seq<Named<T>>)
    requires Distinct(s) && Ordered(sorted) && forall y :: y in s <==> y in sorted
    ensures Sort(s) == sorted
  {
    SortIs(s);
    forall y ensures y in Sort(s) <==> y in sorted {
      SortHas(s, y);
    }
    OrderIsUnique(Sort(s), sorted);
  }

  // ---------------------------------------------------------------- what normalising accepts and makes

  /** The trimmed names of a state. */
  ghost function Names(state: map<string, string>): set<string> {
    set f | f in state :: Trim(f)
  }

  ghost predicate HeaderFits(s: Snapshot) {
    && s.version == 1 && s.room != 0 && s.user != 0 && s.turn >= 0 && (s.status.Playing? || s.status.Paused?)
    && |s.order| == 1 && s.order[0] == s.user && Bytes(s.summary) <= 65535
  }

  /** Narration first, then in turns, none empty or too long. */
  ghost predicate TalkFits(messages: seq<Message>) {
    && 1 <= |messages| <= 10
    && forall i {:trigger messages[i]} :: 0 <= i < |messages| ==>
         && Trim(messages[i].role) == (if i % 2 == 0 then "assistant" else "user")
         && Trim(messages[i].content) != "" && Bytes(Trim(messages[i].content)) <= 65536
  }

  ghost predicate BagFits(items: seq<Item>) {
    && |items| <= 512
    && (forall i {:trigger items[i]} :: 0 <= i < |items| ==>
          && Trim(items[i].name) != "" && '|' !in Trim(items[i].name) && |Trim(items[i].name)| <= 200
          && items[i].body.quantity >= 1 && |Trim(items[i].body.description)| <= 1000)
    && (forall i, j {:trigger items[i], items[j]} :: 0 <= i < j < |items| ==> Trim(items[i].name) != Trim(items[j].name))
  }

  ghost predicate EffectsFit(buffs: seq<Buff>) {
    && |buffs| <= 512
    && (forall i {:trigger buffs[i]} :: 0 <= i < |buffs| ==>
          Trim(buffs[i].name) != "" && |Trim(buffs[i].name)| <= 200 && buffs[i].body >= 1)
    && (forall i, j {:trigger buffs[i], buffs[j]} :: 0 <= i < j < |buffs| ==> Trim(buffs[i].name) != Trim(buffs[j].name))
  }

  /** A field's trimmed name and value. */
  ghost predicate Fitting(name: string, value: string) {
    name != "" && Bytes(name) <= 64 && Bytes(value) <= 8192 && (name in NUMERIC ==> ParseInt(value).Some?)
  }

  /** At least one field and at most 512, under names that stay different, with numbers where numbers belong. */
  ghost predicate StateFits(state: map<string, string>) {
    && state != map[] && |Names(state)| <= 512
    && (forall f {:trigger state[f]} :: f in state ==> Fitting(Trim(f), Trim(state[f])))
    && (forall f, g {:trigger SameName(f, g)} :: f in state && g in state && Trim(f) == Trim(g) ==> f == g)
  }

  lemma StateFitsIff(state: map<string, string>)
    ensures StateFits(state) <==> exists clean :: StateNormal(state, clean)
  {
    if StateFits(state) {
      var clean := CopyOf(state, state.Keys);
      assert (map f | f in state.Keys :: state[f]) == state;
      NamesCounted(state, clean);
      assert StateNormal(state, clean);
    }
    if clean :| StateNormal(state, clean) {
      NormalStateFits(state, clean);
    }
  }

  /** Copying one more field. */
  lemma OneMoreField(seen: map<string, string>, copy: map<string, string>, f: string, v: string)
    requires StateEntries(seen, copy) && f !in seen && FieldValid(Trim(f), Trim(v)) && Trim(f) !in copy
    ensures StateEntries(seen[f := v], copy[Trim(f) := Trim(v)])
  {
    var state, clean := seen[f := v], copy[Trim(f) := Trim(v)];
    forall g | g in state ensures EntryOk(state, clean, g) {
      assert g != f ==> EntryOk(seen, copy, g);
    }
    forall g, h | g in state && h in state && SameName(g, h) ensures g == h {
      assert g in seen ==> EntryOk(seen, copy, g);
      assert h in seen ==> EntryOk(seen, copy, h);
    }
    forall n | n in clean ensures Comes(state, n) {
      if n == Trim(f) {
        assert f in state;
      } else {
        assert Comes(seen, n);
        var g :| g in seen && Trim(g) == n;
        assert g in state;
      }
    }
  }

  /** A copy of the fields named, one after the other. */
  lemma {:induction false} CopyOf(state: map<string, string>, fields: set<string>) returns (clean: map<string, string>)
    requires StateFits(state) && fields <= state.Keys
    ensures StateEntries(map f | f in fields :: state[f], clean)
    decreases |fields|
  {
    if fields == {} {
      clean := map[];
    } else {
      var f :| f in fields;
      var seen := map g | g in fields - {f} :: state[g];
      clean := CopyOf(state, fields - {f});
      FieldCopied(state, seen, clean, f);
      OneMoreOf(state, fields, f);
      clean := clean[Trim(f) := Trim(state[f])];
    }
  }

  lemma OneMoreOf(state: map<string, string>, fields: set<string>, f: string)
    requires fields <= state.Keys && f in fields
    ensures (map g | g in fields :: state[g]) == (map g | g in fields - {f} :: state[g])[f := state[f]]
  {
  }

  lemma FieldCopied(state: map<string, string>, seen: map<string, string>, clean: map<string, string>, f: string)
    requires StateFits(state) && f in state && f !in seen && (forall g :: g in seen ==> g in state)
    requires StateEntries(seen, clean)
    ensures StateEntries(seen[f := state[f]], clean[Trim(f) := Trim(state[f])])
  {
    assert Fitting(Trim(f), Trim(state[f]));
    forall g | g in seen ensures Trim(g) != Trim(f) {
      assert SameName(f, g) <==> Trim(f) == Trim(g);
    }
    assert !Comes(seen, Trim(f));
    OneMoreField(seen, clean, f, state[f]);
  }

  lemma NormalStateFits(state: map<string, string>, clean: map<string, string>)
    requires StateNormal(state, clean)
    ensures StateFits(state)
  {
    NamesCounted(state, clean);
    forall f {:trigger state[f]} | f in state ensures Fitting(Trim(f), Trim(state[f])) {
      FieldFits(state, clean, f);
    }
    forall f, g | f in state && g in state && Trim(f) == Trim(g) ensures f == g {
      assert SameName(f, g);
    }
  }

  lemma FieldFits(state: map<string, string>, clean: map<string, string>, f: string)
    requires StateEntries(state, clean) && f in state
    ensures Fitting(Trim(f), Trim(state[f]))
  {
    assert EntryOk(state, clean, f);
  }

  lemma NamesCounted(state: map<string, string>, clean: map<string, string>)
    requires StateEntries(state, clean)
    ensures |Names(state)| == |clean|
  {
    NamesAreKeys(state, clean);
  }

  lemma NamesAreKeys(state: map<string, string>, clean: map<string, string>)
    requires StateEntries(state, clean)
    ensures Names(state) == clean.Keys
  {
    forall f | f in state ensures Trim(f) in clean {
      assert EntryOk(state, clean, f);
    }
    forall g | g in clean ensures g in Names(state) {
      assert Comes(state, g);
    }
  }

  /** A snapshot has a normal form exactly when each of its parts fits. */
  lemma NormalizesIff(s: Snapshot)
    ensures Normalize(s).Ok? <==>
              HeaderFits(s) && TalkFits(s.messages) && BagFits(s.items) && EffectsFit(s.buffs) && StateFits(s.state)
  {
    StateFitsIff(s.state);
    PartsFit(s);
    if HeaderFits(s) && TalkFits(s.messages) && BagFits(s.items) && EffectsFit(s.buffs) && StateFits(s.state) {
      var clean :| StateNormal(s.state, clean);
      assert NormalForm(s, s.(state := clean, summary := Trim(s.summary), messages := CleanMessages(s.messages),
                              items := Sort(CleanItems(s.items)), buffs := Sort(CleanBuffs(s.buffs))));
    }
  }

  lemma PartsFit(s: Snapshot)
    ensures HeaderValid(s) <==> HeaderFits(s)
    ensures MessagesValid(CleanMessages(s.messages)) <==> TalkFits(s.messages)
    ensures ItemsValid(CleanItems(s.items)) <==> BagFits(s.items)
    ensures BuffsValid(CleanBuffs(s.buffs)) <==> EffectsFit(s.buffs)
  {
    MessagesFit(s.messages);
    ItemsFit(s.items);
    BuffsFit(s.buffs);
  }

  lemma MessagesFit(messages: seq<Message>)
    ensures MessagesValid(CleanMessages(messages)) <==> TalkFits(messages)
  {
    var all := CleanMessages(messages);
    assert forall i {:trigger messages[i]} {:trigger all[i]} :: 0 <= i < |messages| ==> all[i] == CleanMessage(messages[i]);
  }

  lemma ItemsFit(items: seq<Item>)
    ensures ItemsValid(CleanItems(items)) <==> BagFits(items)
  {
    var all := CleanItems(items);
    assert forall i {:trigger items[i]} {:trigger all[i]} :: 0 <= i < |items| ==> all[i] == CleanItem(items[i]);
  }

  lemma BuffsFit(buffs: seq<Buff>)
    ensures BuffsValid(CleanBuffs(buffs)) <==> EffectsFit(buffs)
  {
    var all := CleanBuffs(buffs);
    assert forall i {:trigger buffs[i]} {:trigger all[i]} :: 0 <= i < |buffs| ==> all[i] == CleanBuff(buffs[i]);
  }

  /** In name order, and the same entries under trimmed names. */
  ghost predicate ItemsCopied(items: seq<Item>, sorted: seq<Item>) {
    && |sorted| == |items|
    && (forall i, j {:trigger sorted[i], sorted[j]} :: 0 <= i < j < |sorted| ==> Less(sorted[i].name, sorted[j].name))
    && (forall k {:trigger items[k]} :: 0 <= k < |items| ==>
          Named(Trim(items[k].name), Stack(items[k].body.quantity, Trim(items[k].body.description))) in sorted)
  }

  ghost predicate BuffsCopied(buffs: seq<Buff>, sorted: seq<Buff>) {
    && |sorted| == |buffs|
    && (forall i, j {:trigger sorted[i], sorted[j]} :: 0 <= i < j < |sorted| ==> Less(sorted[i].name, sorted[j].name))
    && (forall k {:trigger buffs[k]} :: 0 <= k < |buffs| ==> Named(Trim(buffs[k].name), buffs[k].body) in sorted)
  }

  /** The normal form: everything trimmed, state, bag and effects under their trimmed names, the last two in name order. */
  lemma NormalMeans(s: Snapshot, n: Snapshot)
    requires Normalize(s) == Ok(n)
    ensures n == s.(state := n.state, items := n.items, buffs := n.buffs, summary := Trim(s.summary), messages := n.messages)
    ensures |n.messages| == |s.messages|
    ensures forall i {:trigger n.messages[i]} :: 0 <= i < |s.messages| ==>
              n.messages[i].role == Trim(s.messages[i].role) && n.messages[i].content == Trim(s.messages[i].content)
    ensures n.state.Keys == Names(s.state) && forall f {:trigger s.state[f]} :: f in s.state ==> n.state[Trim(f)] == Trim(s.state[f])
    ensures ItemsCopied(s.items, n.items) && BuffsCopied(s.buffs, n.buffs)
  {
    NormalizeIs(s, n);
    TalkMeans(s.messages);
    StateMeans(s.state, n.state);
    ItemsSorted(s.items);
    BuffsSorted(s.buffs);
  }

  lemma TalkMeans(messages: seq<Message>)
    ensures |CleanMessages(messages)| == |messages|
    ensures forall i {:trigger CleanMessages(messages)[i]} :: 0 <= i < |messages| ==>
              CleanMessages(messages)[i].role == Trim(messages[i].role) && CleanMessages(messages)[i].content == Trim(messages[i].content)
  {
  }

  lemma StateMeans(state: map<string, string>, clean: map<string, string>)
    requires StateEntries(state, clean)
    ensures clean.Keys == Names(state) && forall f {:trigger state[f]} :: f in state ==> clean[Trim(f)] == Trim(state[f])
  {
    NamesAreKeys(state, clean);
    forall f | f in state ensures Trim(f) in clean && clean[Trim(f)] == Trim(state[f]) {
      assert EntryOk(state, clean, f);
    }
  }

  lemma ItemsSorted(items: seq<Item>)
    requires Distinct(CleanItems(items))
    ensures ItemsCopied(items, Sort(CleanItems(items)))
  {
    SortIs(CleanItems(items));
    forall k | 0 <= k < |items| ensures CleanItem(items[k]) in Sort(CleanItems(items)) {
      assert CleanItems(items)[k] == CleanItem(items[k]);
      SortHas(CleanItems(items), CleanItem(items[k]));
    }
  }

  lemma BuffsSorted(buffs: seq<Buff>)
    requires Distinct(CleanBuffs(buffs))
    ensures BuffsCopied(buffs, Sort(CleanBuffs(buffs)))
  {
    SortIs(CleanBuffs(buffs));
    forall k | 0 <= k < |buffs| ensures CleanBuff(buffs[k]) in Sort(CleanBuffs(buffs)) {
      assert CleanBuffs(buffs)[k] == CleanBuff(buffs[k]);
      SortHas(CleanBuffs(buffs), CleanBuff(buffs[k]));
    }
  }

  // ---------------------------------------------------------------- the Redis keys

  datatype SoloKeys = SoloKeys(status: string, turn: nat, order: seq<string>, summary: string, rounds: seq<Message>,
                               player: map<string, string>, items: set<string>, buffs: map<string, string>)

  function StatusText(s: Status): string {
    match s
    case Playing => "playing"
    case Paused => "paused"
    case Unknown => ""
  }

  function StatusOf(text: string): Status {
    if text == "playing" then Playing else if text == "paused" then Paused else Unknown
  }

  /** name|quantity|description */
  function Pack(i: Item): string
    requires i.body.quantity >= 0
  {
    Join(i.name, Digits(i.body.quantity), i.body.description)
  }

  ghost function Stored(n: Snapshot): SoloKeys
    requires Normal(n)
  {
    SoloKeys(StatusText(n.status), n.turn, [Digits(n.user)], n.summary, n.messages, n.state,
             set i | 0 <= i < |n.items| :: Pack(n.items[i]),
             BuffHash(n.buffs))
  }

  function BuffHash(buffs: seq<Buff>): map<string, string>
    requires forall i :: 0 <= i < |buffs| ==> BuffValid(buffs[i])
  {
    if buffs == [] then map[]
    else
      var last := buffs[|buffs| - 1];
      assert BuffValid(last);
      BuffHash(buffs[..|buffs| - 1])[last.name := Digits(last.body)]
  }

  lemma {:induction false} BuffHashIs(buffs: seq<Buff>)
    requires (forall i :: 0 <= i < |buffs| ==> BuffValid(buffs[i])) && Distinct(buffs)
    ensures forall i :: 0 <= i < |buffs| ==> buffs[i].name in BuffHash(buffs) && BuffHash(buffs)[buffs[i].name] == Digits(buffs[i].body)
    ensures forall f :: f in BuffHash(buffs) ==> exists i :: 0 <= i < |buffs| && buffs[i].name == f
    decreases |buffs|
  {
    if buffs != [] {
      var front := buffs[..|buffs| - 1];
      BuffHashIs(front);
      forall f | f in BuffHash(buffs) ensures exists i :: 0 <= i < |buffs| && buffs[i].name == f {
        if f != buffs[|buffs| - 1].name {
          var i :| 0 <= i < |front| && front[i].name == f;
          assert buffs[i].name == f;
        }
      }
    }
  }

  // ---------------------------------------------------------------- reading them back

  /** One reply of the capture script: hashes and sets in the order the server gives them. */
  datatype Reply = Reply(status: string, turn: string, order: seq<string>, summary: string, rounds: seq<Message>,
                         player: seq<(string, string)>, items: seq<string>, buffs: seq<(string, string)>)

  ghost predicate ListsHash(pairs: seq<(string, string)>, hash: map<string, string>) {
    && (forall i :: 0 <= i < |pairs| ==> pairs[i].0 in hash && hash[pairs[i].0] == pairs[i].1)
    && (forall i, j :: 0 <= i < j < |pairs| ==> pairs[i].0 != pairs[j].0)
    && (forall f :: f in hash ==> (f, hash[f]) in pairs)
  }

  ghost predicate ListsSet(values: seq<string>, stored: set<string>) {
    && (forall x :: x in values <==> x in stored)
    && (forall i, j :: 0 <= i < j < |values| ==> values[i] != values[j])
  }

  ghost predicate Replies(k: SoloKeys, r: Reply) {
    && r.status == k.status && LuaShows(k.turn, r.turn) && r.order == k.order && r.summary == k.summary && r.rounds == k.rounds
    && ListsHash(r.player, k.player) && ListsSet(r.items, k.items) && ListsHash(r.buffs, k.buffs)
  }

  function UnpackItem(text: string): Option<Item> {
    var parts := Split(text);
    if parts.None? then None
    else
      var quantity := ParseInt(parts.value.1);
      if quantity.None? then None else Some(Named(parts.value.0, Stack(quantity.value, parts.value.2)))
  }

  function UnpackItems(values: seq<string>): Option<seq<Item>> {
    if values == [] then Some([])
    else
      var rest, last := UnpackItems(values[..|values| - 1]), UnpackItem(values[|values| - 1]);
      if rest.None? || last.None? then None else Some(rest.value + [last.value])
  }

  function UnpackBuffs(pairs: seq<(string, string)>): Option<seq<Buff>> {
    if pairs == [] then Some([])
    else
      var rest, duration := UnpackBuffs(pairs[..|pairs| - 1]), ParseInt(pairs[|pairs| - 1].1);
      if rest.None? || duration.None? then None else Some(rest.value + [Named(pairs[|pairs| - 1].0, duration.value)])
  }

  /** A repeated field is refused. */
  function UnpackHash(pairs: seq<(string, string)>): Option<map<string, string>> {
    if pairs == [] then Some(map[])
    else
      var rest, last := UnpackHash(pairs[..|pairs| - 1]), pairs[|pairs| - 1];
      if rest.None? || last.0 in rest.value then None else Some(rest.value[last.0 := last.1])
  }

  function UnpackOrder(values: seq<string>): Option<seq<nat>> {
    if values == [] then Some([])
    else
      var rest, user := UnpackOrder(values[..|values| - 1]), RestoreCodec.Decimal(values[|values| - 1]);
      if rest.None? || user.None? || user.value == 0 || user.value > MAX_UINT64 then None else Some(rest.value + [user.value])
  }

  /** decodeSoloRuntimeSnapshot. */
  ghost function Decode(room: nat, user: Uint, r: Reply): Result<Snapshot> {
    var turn, order, state, items, buffs :=
      ParseInt(r.turn), UnpackOrder(r.order), UnpackHash(r.player), UnpackItems(r.items), UnpackBuffs(r.buffs);
    if turn.None? || turn.value < 0 || order.None? || state.None? || items.None? || buffs.None? then Err(Invalid)
    else Normalize(Snapshot(SNAPSHOT_VERSION, room, user, StatusOf(r.status), turn.value, order.value, state.value,
                            items.value, buffs.value, r.summary, r.rounds))
  }

  // ---------------------------------------------------------------- what decoding accepts

  predicate ItemText(text: string) {
    Split(text).Some? && ParseInt(Split(text).value.1).Some?
  }

  lemma {:induction false} ItemsReadIff(values: seq<string>)
    ensures UnpackItems(values).Some? <==> forall i :: 0 <= i < |values| ==> ItemText(values[i])
    ensures UnpackItems(values).Some? ==>
              && |UnpackItems(values).value| == |values|
              && forall i {:trigger values[i]} :: 0 <= i < |values| ==>
                   ItemText(values[i])
                   && UnpackItems(values).value[i] ==
                        Named(Split(values[i]).value.0, Stack(ParseInt(Split(values[i]).value.1).value, Split(values[i]).value.2))
    decreases |values|
  {
    if values != [] {
      ItemsReadIff(values[..|values| - 1]);
    }
  }

  lemma {:induction false} BuffsReadIff(pairs: seq<(string, string)>)
    ensures UnpackBuffs(pairs).Some? <==> forall i :: 0 <= i < |pairs| ==> ParseInt(pairs[i].1).Some?
    ensures UnpackBuffs(pairs).Some? ==>
              && |UnpackBuffs(pairs).value| == |pairs|
              && forall i {:trigger pairs[i]} :: 0 <= i < |pairs| ==>
                   UnpackBuffs(pairs).value[i].name == pairs[i].0 && Some(UnpackBuffs(pairs).value[i].body as int) == ParseInt(pairs[i].1)
    decreases |pairs|
  {
    if pairs != [] {
      BuffsReadIff(pairs[..|pairs| - 1]);
    }
  }

  lemma {:induction false} HashReadIff(pairs: seq<(string, string)>)
    ensures UnpackHash(pairs).Some? <==> forall i, j :: 0 <= i < j < |pairs| ==> pairs[i].0 != pairs[j].0
    ensures UnpackHash(pairs).Some? ==>
              && (forall f :: f in UnpackHash(pairs).value <==> exists i :: 0 <= i < |pairs| && pairs[i].0 == f)
              && (forall i {:trigger pairs[i]} :: 0 <= i < |pairs| ==> UnpackHash(pairs).value[pairs[i].0] == pairs[i].1)
    decreases |pairs|
  {
    if pairs != [] {
      var n := |pairs| - 1;
      var front := pairs[..n];
      HashReadIff(front);
      if UnpackHash(front).Some? && pairs[n].0 in UnpackHash(front).value {
        var i :| 0 <= i < |front| && front[i].0 == pairs[n].0;
        assert pairs[i].0 == pairs[n].0;
      }
      if UnpackHash(front).None? {
        var i, j :| 0 <= i < j < |front| && front[i].0 == front[j].0;
        assert pairs[i].0 == pairs[j].0;
      }
      if UnpackHash(pairs).Some? {
        HashBack(pairs);
      }
    }
  }

  predicate IsUser(text: string) {
    RestoreCodec.Decimal(text).Some? && 1 <= RestoreCodec.Decimal(text).value <= 18446744073709551615
  }

  lemma {:induction false} OrderReadIff(values: seq<string>)
    ensures UnpackOrder(values).Some? <==> forall i :: 0 <= i < |values| ==> IsUser(values[i])
    ensures UnpackOrder(values).Some? ==>
              && |UnpackOrder(values).value| == |values|
              && forall i {:trigger values[i]} :: 0 <= i < |values| ==> Some(UnpackOrder(values).value[i]) == RestoreCodec.Decimal(values[i])
    decreases |values|
  {
    if values != [] {
      OrderReadIff(values[..|values| - 1]);
    }
  }

  /** A reply is decoded exactly when each part can be read and the snapshot they make has a normal form, which is the answer. */
  lemma DecodesIff(room: nat, user: Uint, r: Reply)
    ensures Decode(room, user, r).Ok? <==>
              && ParseInt(r.turn).Some? && ParseInt(r.turn).value >= 0
              && (forall i :: 0 <= i < |r.order| ==> IsUser(r.order[i]))
              && (forall i, j :: 0 <= i < j < |r.player| ==> r.player[i].0 != r.player[j].0)
              && (forall i :: 0 <= i < |r.items| ==> ItemText(r.items[i]))
              && (forall i :: 0 <= i < |r.buffs| ==> ParseInt(r.buffs[i].1).Some?)
              && Normalize(Read(room, user, r)).Ok?
    ensures Decode(room, user, r).Ok? ==> Decode(room, user, r) == Normalize(Read(room, user, r))
  {
    ItemsReadIff(r.items);
    BuffsReadIff(r.buffs);
    HashReadIff(r.player);
    OrderReadIff(r.order);
  }

  /** The parts of a readable reply put together; unreadable ones count as empty. */
  function Read(room: nat, user: Uint, r: Reply): Snapshot {
    var turn, order, state, items, buffs :=
      ParseInt(r.turn), UnpackOrder(r.order), UnpackHash(r.player), UnpackItems(r.items), UnpackBuffs(r.buffs);
    Snapshot(1, room, user, if r.status == "playing" then Playing else if r.status == "paused" then Paused else Unknown,
             if turn.Some? then turn.value else 0, if order.Some? then order.value else [], if state.Some? then state.value else map[],
             if items.Some? then items.value else [], if buffs.Some? then buffs.value else [], r.summary, r.rounds)
  }

  // ---------------------------------------------------------------- the round trip

  lemma UnpackPack(i: Item)
    requires ItemValid(i)
    ensures UnpackItem(Pack(i)) == Some(i)
  {
    SplitJoin(i.name, Digits(i.body.quantity), i.body.description);
    ParseDigits(i.body.quantity);
  }

  lemma {:induction false} ItemsBack(values: seq<string>)
    requires forall i :: 0 <= i < |values| ==> UnpackItem(values[i]).Some?
    ensures var r := UnpackItems(values);
      r.Some? && |r.value| == |values| && forall i :: 0 <= i < |values| ==> Some(r.value[i]) == UnpackItem(values[i])
    decreases |values|
  {
    if values != [] {
      ItemsBack(values[..|values| - 1]);
    }
  }

  /** Any enumeration of the item set unpacks to the same items in another order. */
  lemma ItemSetBack(items: seq<Item>, values: seq<string>)
    requires ItemsValid(items) && ListsSet(values, set i | 0 <= i < |items| :: Pack(items[i]))
    ensures UnpackItems(values).Some? && Distinct(UnpackItems(values).value)
    ensures forall y :: y in UnpackItems(values).value <==> y in items
  {
    forall k | 0 <= k < |values| ensures exists i :: 0 <= i < |items| && values[k] == Pack(items[i]) && UnpackItem(values[k]) == Some(items[i]) {
      assert values[k] in values;
      var i :| 0 <= i < |items| && values[k] == Pack(items[i]);
      UnpackPack(items[i]);
    }
    ItemsBack(values);
    var back := UnpackItems(values).value;
    forall a, b | 0 <= a < b < |back| ensures back[a].name != back[b].name {
      var i :| 0 <= i < |items| && values[a] == Pack(items[i]) && UnpackItem(values[a]) == Some(items[i]);
      var j :| 0 <= j < |items| && values[b] == Pack(items[j]) && UnpackItem(values[b]) == Some(items[j]);
      assert i != j;
    }
    forall y | y in items ensures y in back {
      var i :| 0 <= i < |items| && items[i] == y;
      assert Pack(items[i]) in values;
      UnpackPack(items[i]);
      var k :| 0 <= k < |values| && values[k] == Pack(items[i]);
      assert back[k] == y;
    }
  }

  lemma {:induction false} BuffsBack(pairs: seq<(string, string)>)
    requires forall i :: 0 <= i < |pairs| ==> ParseInt(pairs[i].1).Some?
    ensures var r := UnpackBuffs(pairs);
      && r.Some? && |r.value| == |pairs|
      && forall i :: 0 <= i < |pairs| ==> r.value[i].name == pairs[i].0 && Some(r.value[i].body as int) == ParseInt(pairs[i].1)
    decreases |pairs|
  {
    if pairs != [] {
      BuffsBack(pairs[..|pairs| - 1]);
    }
  }

  lemma BuffHashBack(buffs: seq<Buff>, pairs: seq<(string, string)>)
    requires BuffsValid(buffs) && ListsHash(pairs, BuffHash(buffs))
    ensures UnpackBuffs(pairs).Some? && Distinct(UnpackBuffs(pairs).value)
    ensures forall y :: y in UnpackBuffs(pairs).value <==> y in buffs
  {
    BuffHashIs(buffs);
    forall k | 0 <= k < |pairs|
      ensures exists i :: 0 <= i < |buffs| && buffs[i].name == pairs[k].0 && ParseInt(pairs[k].1) == Some(buffs[i].body as int)
    {
      assert pairs[k].0 in BuffHash(buffs);
      var i :| 0 <= i < |buffs| && buffs[i].name == pairs[k].0;
      assert BuffValid(buffs[i]);
      ParseDigits(buffs[i].body);
    }
    BuffsBack(pairs);
    var back := UnpackBuffs(pairs).value;
    forall y | y in back ensures y in buffs {
      var k :| 0 <= k < |back| && back[k] == y;
      var i :| 0 <= i < |buffs| && buffs[i].name == pairs[k].0 && ParseInt(pairs[k].1) == Some(buffs[i].body as int);
      assert buffs[i] == y;
    }
    forall y | y in buffs ensures y in back {
      var i :| 0 <= i < |buffs| && buffs[i] == y;
      assert (y.name, Digits(y.body)) in pairs;
      var k :| 0 <= k < |pairs| && pairs[k] == (y.name, Digits(y.body));
      ParseDigits(y.body);
      assert back[k] == y;
    }
  }

  lemma {:induction false} HashBack(pairs: seq<(string, string)>)
    requires forall i, j :: 0 <= i < j < |pairs| ==> pairs[i].0 != pairs[j].0
    ensures var r := UnpackHash(pairs);
      && r.Some?
      && (forall i :: 0 <= i < |pairs| ==> pairs[i].0 in r.value && r.value[pairs[i].0] == pairs[i].1)
      && (forall f :: f in r.value ==> exists i :: 0 <= i < |pairs| && pairs[i].0 == f)
    decreases |pairs|
  {
    if pairs != [] {
      HashBack(pairs[..|pairs| - 1]);
    }
  }

  lemma HashListedBack(pairs: seq<(string, string)>, hash: map<string, string>)
    requires ListsHash(pairs, hash)
    ensures UnpackHash(pairs) == Some(hash)
  {
    HashBack(pairs);
    var back := UnpackHash(pairs).value;
    forall f | f in hash ensures f in back && back[f] == hash[f] {
      assert (f, hash[f]) in pairs;
    }
    assert back == hash;
  }

  lemma TurnBack(turn: Int64, shown: string)
    requires turn >= 0 && LuaShows(turn, shown)
    ensures ParseInt(shown) == if turn < LUA_DIGITS then Some(turn as int) else None
  {
    if turn < LUA_DIGITS {
      ParseDigits(turn);
    } else {
      LetterRefused(shown);
    }
  }

  lemma OrderBack(user: nat)
    requires 0 < user <= MAX_UINT64
    ensures UnpackOrder([Digits(user)]) == Some([user])
  {
    DecimalDigits(user);
    var one := [Digits(user)];
    assert one[..|one| - 1] == [] && UnpackOrder(one[..|one| - 1]) == Some([]);
    assert [] + [user] == [user];
  }

  lemma ItemsNormalize(sorted: seq<Item>, items: seq<Item>)
    requires ItemsValid(sorted) && Ordered(sorted) && CleanItems(sorted) == sorted
    requires Distinct(items) && forall y :: y in items <==> y in sorted
    ensures CleanItems(items) == items && ItemsValid(items) && Sort(items) == sorted
  {
    Resorted(items, sorted);
    SortIs(items);
    forall k | 0 <= k < |items| ensures ItemValid(items[k]) && CleanItem(items[k]) == items[k] {
      assert items[k] in sorted;
      var j :| 0 <= j < |sorted| && sorted[j] == items[k];
      assert CleanItems(sorted)[j] == sorted[j];
    }
  }

  lemma BuffsNormalize(sorted: seq<Buff>, buffs: seq<Buff>)
    requires BuffsValid(sorted) && Ordered(sorted) && CleanBuffs(sorted) == sorted
    requires Distinct(buffs) && forall y :: y in buffs <==> y in sorted
    ensures CleanBuffs(buffs) == buffs && BuffsValid(buffs) && Sort(buffs) == sorted
  {
    Resorted(buffs, sorted);
    SortIs(buffs);
    forall k | 0 <= k < |buffs| ensures BuffValid(buffs[k]) && CleanBuff(buffs[k]) == buffs[k] {
      assert buffs[k] in sorted;
      var j :| 0 <= j < |sorted| && sorted[j] == buffs[k];
      assert CleanBuffs(sorted)[j] == sorted[j];
    }
  }

  /** What was unpacked normalises to what was stored. */
  lemma UnpackedNormalizes(n: Snapshot, items: seq<Item>, buffs: seq<Buff>)
    requires Normal(n) && Distinct(items) && Distinct(buffs)
    requires (forall y :: y in items <==> y in n.items) && (forall y :: y in buffs <==> y in n.buffs)
    ensures Normalize(n.(items := items, buffs := buffs)) == Ok(n)
  {
    ItemsNormalize(n.items, items);
    BuffsNormalize(n.buffs, buffs);
    TrimIs(n.summary);
    NormalizeIs(n.(items := items, buffs := buffs), n);
  }

  /** Each part of the reply decodes to the part it came from. */
  lemma PartsBack(n: Snapshot, r: Reply)
    requires Normal(n) && Replies(Stored(n), r)
    ensures ParseInt(r.turn) == if n.turn < LUA_DIGITS then Some(n.turn as int) else None
    ensures UnpackOrder(r.order) == Some(n.order) && UnpackHash(r.player) == Some(n.state)
    ensures UnpackItems(r.items).Some? && Distinct(UnpackItems(r.items).value)
    ensures UnpackBuffs(r.buffs).Some? && Distinct(UnpackBuffs(r.buffs).value)
    ensures forall y :: y in UnpackItems(r.items).value <==> y in n.items
    ensures forall y :: y in UnpackBuffs(r.buffs).value <==> y in n.buffs
    ensures StatusOf(r.status) == n.status && r.summary == n.summary && r.rounds == n.messages
  {
    TurnBack(n.turn, r.turn);
    OrderBack(n.user);
    HashListedBack(r.player, n.state);
    ItemSetBack(n.items, r.items);
    BuffHashBack(n.buffs, r.buffs);
  }

  /**
   For every snapshot that can be restored, and every order in which the hashes and the set come back:
   capturing gives exactly the normalised snapshot if its turn is below 10^14, and is refused otherwise,
   because the capture script prints the turn as a Lua number.
   */
  lemma SoloRoundTripIff(s: Snapshot, n: Snapshot, r: Reply)
    requires Normalize(s) == Ok(n)
    ensures Normal(n)
    ensures Replies(Stored(n), r) ==> Decode(n.room, n.user, r) == if n.turn < LUA_DIGITS then Ok(n) else Err(Invalid)
  {
    NormalizeTwice(s, n);
    if Replies(Stored(n), r) {
      PartsBack(n, r);
      UnpackedNormalizes(n, UnpackItems(r.items).value, UnpackBuffs(r.buffs).value);
    }
  }
}
