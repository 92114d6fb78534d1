/**
 Saves on a branch.  Storing the snapshot of a round boundary is idempotent: however often it is
 flushed, and whatever is archived, loaded or summarised in between, one row exists per branch and
 round, holding the summary that was visible at the first flush.
 */
module Autosaves {
  import opened MemoryModel
  import opened Ledger
  import H = History
  import opened Summaries
  import opened SummaryInvariant

  /** What both hashes are taken over: everything of a save but its name and its automatic flag. */
  datatype Body = Body(timeline: Uuid, position: nat, round: nat, complete: bool, runtime: string,
                       messages: seq<string>, text: string)

  datatype Metadata = Metadata(timeline: Uuid, version: nat, through: nat)

  /** memorySaveHash: an injective function of the body and, once there is any, the summary metadata. */
  datatype Hash = Hash(body: Body, summary: Option<Metadata>)

  /** `origin` names the summary the three columns point at, with the records it covers. */
  datatype Frozen = Frozen(origin: Summary, input: Hash, content: Hash)

  datatype GameSave = GameSave(body: Body, auto: bool, frozen: Option<Frozen>)

  /** The save rows beside the rows the summary lookup reads. */
  datatype Store = Store(room: Room, rows: map<nat, GameSave>)

  function MetadataOf(x: Summary): Metadata {
    Metadata(x.timeline, x.version, x.through)
  }

  function HashOf(save: GameSave): Hash {
    Hash(save.body, if save.frozen.Some? then Some(MetadataOf(save.frozen.value.origin)) else None)
  }

  /** validateSummarySave. */
  function Validated(save: GameSave): Option<Error> {
    if save.frozen.None? then None
    else if save.frozen.value.origin.through > save.body.position then Some(Invalid)
    else if HashOf(save) != save.frozen.value.content then Some(Conflict)
    else None
  }

  /** What a later flush is compared with. */
  function InputHash(save: GameSave): Hash {
    if save.frozen.Some? then save.frozen.value.input else HashOf(save)
  }

  function Stamped(input: GameSave, x: Summary): GameSave {
    var body := input.body.(text := x.content);
    GameSave(body, input.auto, Some(Frozen(x, HashOf(input), Hash(body, Some(MetadataOf(x))))))
  }

  /** The key the table keeps unique among automatic saves. */
  predicate SameRound(a: GameSave, b: GameSave) {
    a.auto && b.auto && a.body.timeline == b.body.timeline && a.body.round == b.body.round
  }

  ghost predicate Taken(s: Store, save: GameSave) {
    exists k {:trigger s.rows[k]} :: k in s.rows && SameRound(s.rows[k], save)
  }

  ghost function RowFor(s: Store, save: GameSave): nat
    requires Taken(s, save)
  {
    var k {:trigger s.rows[k]} :| k in s.rows && SameRound(s.rows[k], save);
    k
  }

  function Inserted(s: Store, n: nat, save: GameSave): Store
    requires save.frozen.Some?
  {
    Store(s.room.(saves := s.room.saves[n := Save(Some(save.body.timeline), Some(save.body.position), Some(save.frozen.value.origin))]),
          s.rows[n := save])
  }

  /** The checks before the row is written. */
  function Refused(s: Store, input: GameSave): Option<Error> {
    var ts, b := s.room.tables.timelines, input.body;
    if b.timeline !in ts then Some(NotFound)
    else if !ts[b.timeline].status.Active? || !(ts[b.timeline].fork <= b.position <= ts[b.timeline].durable) then Some(Gap)
    else if Validated(input).Some? then Validated(input)
    else if b.complete != ts[b.timeline].complete then Some(Branch)
    else None
  }

  function Prepared(s: Store, input: GameSave): (save: GameSave)
    ensures save.frozen.Some? && save.auto == input.auto
    ensures save.body.timeline == input.body.timeline && save.body.round == input.body.round
  {
    if input.frozen.Some? then input
    else Stamped(input, SummaryAt(s.room, input.body.timeline, input.body.position, MAX_DEPTH))
  }

  /** createMemorySave: `n` is the fresh row id.  Ok says whether a row was inserted and which row the caller now holds. */
  ghost function CreateMemorySave(s: Store, n: nat, input: GameSave): (Store, Result<(bool, GameSave)>) {
    if Refused(s, input).Some? then (s, Err(Refused(s, input).value))
    else if Taken(s, input) then
      var row := s.rows[RowFor(s, input)];
      if Validated(row).Some? then (s, Err(Validated(row).value))
      else if InputHash(row) != InputHash(input) then (s, Err(Conflict))
      else (s, Ok((false, row)))
    else (Inserted(s, n, Prepared(s, input)), Ok((true, Prepared(s, input))))
  }

  // ---------------------------------------------------------------- runs

  datatype Change = Other(step: Step) | Create(n: nat, input: GameSave)

  /** A caller brings a save it built itself, or one an earlier call has handed back. */
  ghost predicate Brought(s: Store, input: GameSave) {
    input.frozen.None? || exists k {:trigger s.rows[k]} :: k in s.rows && s.rows[k] == input
  }

  ghost function After(s: Store, change: Change): Store
    requires Inv(s.room)
  {
    match change
    case Other(step) => s.(room := Next(s.room, step))
    case Create(n, input) =>
      if n in s.room.saves || !Brought(s, input) then s else CreateMemorySave(s, n, input).0
  }

  ghost predicate RowOk(s: Store, n: nat)
    requires n in s.rows
  {
    var row := s.rows[n];
    && row.frozen.Some? && Validated(row).None?
    && n in s.room.saves
    && s.room.saves[n] == Save(Some(row.body.timeline), Some(row.body.position), Some(row.frozen.value.origin))
    && row.body.text == row.frozen.value.origin.content
    && row.frozen.value.input.summary.None?
    && row.frozen.value.input.body.(text := row.body.text) == row.body
    && row.body.timeline in s.room.tables.timelines
    && row.body.complete == s.room.tables.timelines[row.body.timeline].complete
  }

  ghost predicate OneRowPerRound(s: Store) {
    forall a, b {:trigger SameRound(s.rows[a], s.rows[b])} :: a in s.rows && b in s.rows && SameRound(s.rows[a], s.rows[b]) ==> a == b
  }

  ghost predicate StoreInv(s: Store) {
    && Inv(s.room)
    && (forall n {:trigger RowOk(s, n)} :: n in s.rows ==> RowOk(s, n))
    && OneRowPerRound(s)
  }

  /** The ledger only grows, and no save row is touched again. */
  ghost predicate Later(s: Store, t: Store) {
    && H.Grows(s.room.tables, t.room.tables)
    && Kept(s.room.saves, t.room.saves) && Kept(s.rows, t.rows)
  }

  predicate Kept<V(==)>(a: map<nat, V>, b: map<nat, V>) {
    forall k :: k in a ==> k in b && b[k] == a[k]
  }

  lemma RoomGrows(s: Room, step: Step)
    requires Inv(s)
    ensures H.Grows(s.tables, Next(s, step).tables)
    ensures Kept(s.saves, Next(s, step).saves)
  {
    match step
    case Archive(r) => H.ArchiveKeepsInv(s.tables, r);
    case Open(id, t) =>
      if MayOpen(s, id, t) {
        OpenedGrows(s.tables, id, t);
      }
    case Complete(key, w, candidate, fits, live) => CompletionAddsNoSave(s, key, w, candidate, fits, live);
    case Claim(trigger, key, owner, due) => ClaimAddsNoSave(s, trigger, key, owner, due);
    case CreateSave(n, id, position) => FreezeAddsOne(s, n, id, position);
    case Reopen(_, _) =>
    case ImportSave(_) =>
    case Retry(_, _) =>
  }

  lemma FreezeAddsOne(s: Room, n: nat, id: Uuid, position: nat)
    ensures Freeze(s, n, id, position).tables == s.tables && Kept(s.saves, Freeze(s, n, id, position).saves)
  {
  }

  lemma CompletionAddsNoSave(s: Room, key: Uuid, w: Work, candidate: string, fits: bool, live: bool)
    requires H.Inv(s.tables)
    ensures Summaries.CompleteSummary(s, key, w, candidate, fits, live).0.tables == s.tables
    ensures Summaries.CompleteSummary(s, key, w, candidate, fits, live).0.saves == s.saves
  {
    if Summaries.CompleteSummary(s, key, w, candidate, fits, live).1.None? {
      CompletionPublishes(s, key, w, candidate, fits, live);
    }
  }

  lemma ClaimAddsNoSave(s: Room, trigger: nat, key: Uuid, owner: Uuid, due: bool)
    ensures Summaries.ClaimSummary(s, trigger, key, owner, due).tables == s.tables
    ensures Summaries.ClaimSummary(s, trigger, key, owner, due).saves == s.saves
  {
    if Claimable(s) {
      DecisionAddsNoSave(s, Planned(s, s.active.value, trigger), key, owner, due);
    }
  }

  lemma DecisionAddsNoSave(s: Room, plan: Plan, key: Uuid, owner: Uuid, due: bool)
    requires Claimable(s)
    ensures Decided(s, plan, key, owner, due).tables == s.tables && Decided(s, plan, key, owner, due).saves == s.saves
  {
  }

  lemma OtherKeeps(s: Store, step: Step)
    requires StoreInv(s)
    ensures StoreInv(After(s, Other(step))) && Later(s, After(s, Other(step)))
  {
    var t := After(s, Other(step));
    NextKeeps(s.room, step);
    RoomGrows(s.room, step);
    forall n | n in t.rows ensures RowOk(t, n) {
      assert RowOk(s, n);
    }
    forall a, b | a in t.rows && b in t.rows && SameRound(t.rows[a], t.rows[b]) ensures a == b {
      assert SameRound(s.rows[a], s.rows[b]);
    }
  }

  /** The row about to be inserted holds a summary that covers exactly what its branch shows up to its watermark. */
  lemma PreparedOk(s: Store, input: GameSave)
    requires StoreInv(s) && Refused(s, input).None? && Brought(s, input)
    ensures var row := Prepared(s, input);
      && SaveOk(s.room.tables, Save(Some(row.body.timeline), Some(row.body.position), Some(row.frozen.value.origin)))
      && Validated(row).None? && row.body.text == row.frozen.value.origin.content
      && row.frozen.value.input.summary.None? && row.frozen.value.input.body.(text := row.body.text) == row.body
  {
    if input.frozen.Some? {
      var k :| k in s.rows && s.rows[k] == input;
      assert RowOk(s, k) && SaveOk(s.room.tables, s.room.saves[k]);
    } else {
      H.ActiveResolves(s.room.tables, input.body.timeline, input.body.position);
      SummaryAtCovers(s.room, input.body.timeline, input.body.position);
    }
  }

  lemma UniqueWith(rows: map<nat, GameSave>, n: nat, row: GameSave)
    requires forall a, b {:trigger SameRound(rows[a], rows[b])} :: a in rows && b in rows && SameRound(rows[a], rows[b]) ==> a == b
    requires n !in rows && forall k {:trigger rows[k]} :: k in rows ==> !SameRound(rows[k], row)
    ensures var m := rows[n := row];
      forall a, b {:trigger SameRound(m[a], m[b])} :: a in m && b in m && SameRound(m[a], m[b]) ==> a == b
  {
    var m := rows[n := row];
    forall a, b | a in m && b in m && SameRound(m[a], m[b]) ensures a == b {
      if a != n && b != n {
        assert SameRound(rows[a], rows[b]);
      }
    }
  }

  lemma RoomWithSave(s: Room, n: nat, save: Save)
    requires Inv(s) && n !in s.saves && SaveOk(s.tables, save)
    ensures Inv(s.(saves := s.saves[n := save]))
  {
    SavedFrames(s, n, save);
    FramedKeeps(s, s.(saves := s.saves[n := save]));
  }

  lemma RowsWith(s: Store, t: Store, n: nat)
    requires forall k {:trigger RowOk(s, k)} :: k in s.rows ==> RowOk(s, k)
    requires t.room.tables == s.room.tables && Kept(s.room.saves, t.room.saves) && n in t.rows && RowOk(t, n)
    requires forall k :: k in t.rows && k != n ==> k in s.rows && t.rows[k] == s.rows[k]
    ensures forall k {:trigger RowOk(t, k)} :: k in t.rows ==> RowOk(t, k)
  {
    forall k | k in t.rows ensures RowOk(t, k) {
      assert k != n ==> RowOk(s, k);
    }
  }

  lemma InsertedKeeps(s: Store, n: nat, input: GameSave)
    requires StoreInv(s) && n !in s.room.saves && Brought(s, input) && Refused(s, input).None? && !Taken(s, input)
    ensures StoreInv(Inserted(s, n, Prepared(s, input))) && Later(s, Inserted(s, n, Prepared(s, input)))
  {
    var row := Prepared(s, input);
    var t := Inserted(s, n, row);
    PreparedOk(s, input);
    assert n !in s.rows by {
      assert n in s.rows ==> RowOk(s, n);
    }
    RoomWithSave(s.room, n, t.room.saves[n]);
    RowsWith(s, t, n);
    assert forall k {:trigger s.rows[k]} :: k in s.rows && SameRound(s.rows[k], row) ==> SameRound(s.rows[k], input);
    UniqueWith(s.rows, n, row);
  }

  lemma AfterKeeps(s: Store, change: Change)
    requires StoreInv(s)
    ensures StoreInv(After(s, change)) && Later(s, After(s, change))
  {
    match change
    case Other(step) => OtherKeeps(s, step);
    case Create(n, input) =>
      if n !in s.room.saves && Brought(s, input) && Refused(s, input).None? && !Taken(s, input) {
        InsertedKeeps(s, n, input);
      }
  }

  ghost function History(s: Store, changes: seq<Change>): Store
    requires StoreInv(s)
    decreases |changes|
  {
    if changes == [] then s
    else
      AfterKeeps(s, changes[0]);
      History(After(s, changes[0]), changes[1..])
  }

  /** Whatever happens, rows are never changed and there is one per branch and round. */
  lemma {:induction false} RowsStand(s: Store, changes: seq<Change>)
    requires StoreInv(s)
    ensures StoreInv(History(s, changes)) && Later(s, History(s, changes))
    decreases |changes|
  {
    if changes != [] {
      AfterKeeps(s, changes[0]);
      var t := After(s, changes[0]);
      RowsStand(t, changes[1..]);
      LaterStill(s, t, History(t, changes[1..]));
    }
  }

  lemma LaterStill(s: Store, t: Store, u: Store)
    requires Later(s, t) && Later(t, u)
    ensures Later(s, u)
  {
  }

  // ---------------------------------------------------------------- idempotence

  /** After a flush that succeeded there is a row for its round; the caller holds it, and it came from this very snapshot. */
  lemma FlushedIsRow(s: Store, n: nat, input: GameSave)
    requires StoreInv(s) && n !in s.room.saves && Brought(s, input) && CreateMemorySave(s, n, input).1.Ok?
    ensures var (t, r) := CreateMemorySave(s, n, input);
      && Refused(t, input).None?
      && (input.auto ==> Taken(t, input) && t.rows[RowFor(t, input)] == r.value.1)
      && (input.frozen.None? ==> r.value.1.frozen.Some? && r.value.1.frozen.value.input == HashOf(input))
      && StoreInv(t)
  {
    var (t, r) := CreateMemorySave(s, n, input);
    AfterKeeps(s, Create(n, input));
    assert t == After(s, Create(n, input));
    if input.auto {
      if !Taken(s, input) {
        assert t.rows[n] == r.value.1 && SameRound(t.rows[n], input);
      }
      var k := RowFor(t, input);
      assert t == s || SameRound(t.rows[k], t.rows[n]);
    }
    if Taken(s, input) {
      assert RowOk(s, RowFor(s, input));
    }
  }

  /**
   Idempotence over whole runs.  Once a boundary has been flushed, then whatever happens next, flushing
   any unstamped snapshot of the same branch and round changes nothing; it succeeds, handing back the
   first row, exactly when the snapshot is the one first flushed.
   */
  lemma FlushAgain(s: Store, n: nat, input: GameSave, changes: seq<Change>, m: nat, again: GameSave)
    requires StoreInv(s) && n !in s.room.saves && CreateMemorySave(s, n, input).1.Ok?
    requires input.frozen.None? && again.frozen.None? && SameRound(input, again)
    ensures StoreInv(CreateMemorySave(s, n, input).0)
    ensures var (first, r) := CreateMemorySave(s, n, input);
            var later := History(first, changes);
            var (end, repeat) := CreateMemorySave(later, m, again);
      && end == later
      && (repeat.Ok? <==> again.body == input.body)
      && (repeat.Ok? ==> repeat.value == (false, r.value.1))
  {
    FlushedIsRow(s, n, input);
    var (first, r) := CreateMemorySave(s, n, input);
    RowsStand(first, changes);
    StillTaken(first, History(first, changes), input, again);
  }

  /** In a later state the row for the round is still the same one, and the snapshot is still admissible. */
  lemma StillTaken(first: Store, later: Store, input: GameSave, again: GameSave)
    requires StoreInv(first) && StoreInv(later) && Later(first, later) && Taken(first, input) && SameRound(input, again)
    requires Refused(first, input).None? && input.frozen.None? && again.frozen.None?
    ensures Taken(later, again) && later.rows[RowFor(later, again)] == first.rows[RowFor(first, input)]
    ensures Validated(later.rows[RowFor(later, again)]).None?
    ensures Refused(later, input).None?
  {
    var k := RowFor(first, input);
    assert later.rows[k] == first.rows[k] && SameRound(later.rows[k], again);
    var j := RowFor(later, again);
    assert SameRound(later.rows[k], later.rows[j]);
    assert RowOk(later, j);
    assert H.TimelineOk(later.room.tables, input.body.timeline);
  }

  /** A caller that retries with the row it was handed back gets that row again. */
  lemma RetryWithTheRow(s: Store, k: nat, changes: seq<Change>, m: nat)
    requires StoreInv(s) && k in s.rows && s.rows[k].auto
    ensures var later := History(s, changes);
      CreateMemorySave(later, m, s.rows[k]) == (later, Ok((false, s.rows[k])))
  {
    var later, row := History(s, changes), s.rows[k];
    RowsStand(s, changes);
    assert RowOk(later, k) && later.rows[k] == row && SaveOk(later.room.tables, later.room.saves[k]);
    assert SameRound(later.rows[k], row);
    assert SameRound(later.rows[RowFor(later, row)], later.rows[k]);
  }

  /**
   The frozen summary is the one visible when the row was first written, and over every run it covers
   exactly what the branch shows up to its watermark, which lies at or below the saved position.
   */
  lemma FirstVisibleIsKept(s: Store, n: nat, input: GameSave, changes: seq<Change>)
    requires StoreInv(s) && n !in s.room.saves && input.frozen.None?
    requires CreateMemorySave(s, n, input).1.Ok? && CreateMemorySave(s, n, input).1.value.0
    ensures StoreInv(CreateMemorySave(s, n, input).0)
    ensures var later := History(CreateMemorySave(s, n, input).0, changes);
            var b := input.body;
      && n in later.rows && later.rows[n].frozen.Some?
      && var x := later.rows[n].frozen.value.origin;
         && x == SummaryAt(s.room, b.timeline, b.position, MAX_DEPTH)
         && later.rows[n].body == b.(text := x.content)
         && x.through <= b.position
         && Covers(later.room.tables, b.timeline, x)
  {
    FlushedIsRow(s, n, input);
    var first := CreateMemorySave(s, n, input).0;
    RowsStand(first, changes);
    var later := History(first, changes);
    assert later.rows[n] == first.rows[n];
    assert RowOk(later, n) && SaveOk(later.room.tables, later.room.saves[n]);
  }
}
