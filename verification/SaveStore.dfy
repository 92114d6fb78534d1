/**
 The save table and the pending automatic saves as objects, and the loop that moves one to the other.
 */
module SaveStore {
  import opened MemoryModel
  import opened Ledger
  import H = History
  import opened Summaries
  import opened SummaryInvariant
  import opened SummaryStore
  import opened Autosaves

  class GameRepo {
    var room: Room
    var rows: map<nat, GameSave>
    var nextId: nat

    function Contents(): Store
      reads this
    {
      Store(room, rows)
    }

    /** Row ids are handed out in order. */
    ghost predicate Valid()
      reads this
    {
      StoreInv(Contents()) && forall k :: k in room.saves ==> k < nextId
    }

    constructor (room: Room)
      requires Inv(room) && room.saves == map[]
      ensures Valid() && Contents() == Store(room, map[])
    {
      this.room, rows, nextId := room, map[], 0;
    }

    /**
     createMemorySave: one transaction; the caller's save is replaced by the row it now stands for.  A stamped
     save is only checked against its own hash, so the table keeps its invariant when the stamp is a real one.
     */
    method CreateMemorySave(input: GameSave) returns (r: Result<(bool, GameSave)>)
      requires Valid()
      modifies this
      ensures Later(old(Contents()), Contents())
      ensures Brought(old(Contents()), input) || r.Err? ==> Valid()
      ensures (Contents(), r) == Autosaves.CreateMemorySave(old(Contents()), old(nextId), input)
      ensures r.Ok? <==> Admissible(old(Contents()), input) && forall k :: k in old(rows) && ForRound(old(rows)[k], input) ==> FromSame(old(rows)[k], input)
      ensures r.Ok? ==> (r.value.0 <==> forall k :: k in old(rows) ==> !ForRound(old(rows)[k], input))
      ensures r.Ok? && r.value.0 ==>
                && rows == old(rows)[old(nextId) := r.value.1] && IsStamped(old(room), input, r.value.1)
                && room == old(room).(saves := old(room).saves[old(nextId) :=
                     Save(Some(input.body.timeline), Some(input.body.position), Some(r.value.1.frozen.value.origin))])
      ensures r.Ok? && !r.value.0 ==> exists k :: k in old(rows) && ForRound(old(rows)[k], input) && r.value.1 == old(rows)[k]
      ensures (r.Ok? && r.value.0) || Contents() == old(Contents())
    {
      CreationMeans(Contents(), nextId, input);
      ghost var s := Contents();
      AfterKeeps(s, Create(nextId, input));
      RowsHaveSaves(s);
      var ts, b := room.tables.timelines, input.body;
      if b.timeline !in ts {
        return Err(NotFound);
      }
      var t := ts[b.timeline];
      if !t.status.Active? || b.position < t.fork || b.position > t.durable {
        return Err(Gap);
      }
      var issue := Validated(input);
      if issue.Some? {
        return Err(issue.value);
      }
      if b.complete != t.complete {
        return Err(Branch);
      }
      var hash, copy := InputHash(input), input;
      if input.frozen.None? {
        OriginsKept(room);
        NoOriginMissing(room, b.timeline, b.position, MAX_DEPTH);
        H.ActiveResolves(room.tables, b.timeline, b.position);
        var summary := FindSummary(room, b.timeline, b.position);
        copy := Stamped(input, summary.value);
      }
      var taken := FindRound(input);
      if taken.Some? {
        var row := rows[taken.value];
        issue := Validated(row);
        if issue.Some? {
          return Err(issue.value);
        }
        return if InputHash(row) != hash then Err(Conflict) else Ok((false, row));
      }
      Insert(copy);
      return Ok((true, copy));
    }

    /** The automatic row of the same branch and round, if there is one. */
    method FindRound(save: GameSave) returns (found: Option<nat>)
      requires Valid()
      ensures found == if Taken(Contents(), save) then Some(RowFor(Contents(), save)) else None
    {
      var taken := set k | k in rows && SameRound(rows[k], save);
      if taken == {} {
        assert forall k :: k in rows && SameRound(rows[k], save) ==> k in taken;
        return None;
      }
      var k :| k in taken;
      assert SameRound(rows[k], save) && SameRound(rows[RowFor(Contents(), save)], rows[k]);
      return Some(k);
    }

    method Insert(save: GameSave)
      requires save.frozen.Some? && nextId !in room.saves && nextId !in rows
      modifies this
      ensures Contents() == Inserted(old(Contents()), old(nextId), save) && nextId == old(nextId) + 1
      ensures Later(old(Contents()), Contents())
    {
      rows := rows[nextId := save];
      room := room.(saves := room.saves[nextId := Save(Some(save.body.timeline), Some(save.body.position), Some(save.frozen.value.origin))]);
      nextId := nextId + 1;
    }
  }

  // ---------------------------------------------------------------- what a save is refused for, and what is stored

  /** The branch is published and has the position; a stamped save has not been altered since, and covers no later record. */
  ghost predicate Admissible(s: Store, input: GameSave) {
    var (b, ts) := (input.body, s.room.tables.timelines);
    && b.timeline in ts && ts[b.timeline].status.Active? && ts[b.timeline].fork <= b.position <= ts[b.timeline].durable
    && b.complete == ts[b.timeline].complete
    && (input.frozen.Some? ==>
          var x := input.frozen.value.origin;
          x.through <= b.position && input.frozen.value.content == Hash(b, Some(Metadata(x.timeline, x.version, x.through))))
  }

  /** Both are automatic saves of one branch and round. */
  ghost predicate ForRound(row: GameSave, input: GameSave) {
    row.auto && input.auto && row.body.timeline == input.body.timeline && row.body.round == input.body.round
  }

  /** The row was made from this very snapshot, or from the one this stamped save was made from. */
  ghost predicate FromSame(row: GameSave, input: GameSave) {
    row.frozen.Some? && row.frozen.value.input == if input.frozen.Some? then input.frozen.value.input else Hash(input.body, None)
  }

  /** The nearest summary gives the text and is frozen with the row; a stamped save is stored as it came. */
  ghost predicate IsStamped(s: Room, input: GameSave, row: GameSave) {
    if input.frozen.Some? then row == input
    else
      var x := SummaryAt(s, input.body.timeline, input.body.position, MAX_DEPTH);
      var body := input.body.(text := x.content);
      row == GameSave(body, input.auto, Some(Frozen(x, Hash(input.body, None), Hash(body, Some(Metadata(x.timeline, x.version, x.through))))))
  }

  lemma CreationMeans(s: Store, n: nat, input: GameSave)
    requires StoreInv(s)
    ensures var (t, r) := Autosaves.CreateMemorySave(s, n, input);
      && (r.Ok? <==> Admissible(s, input) && forall k :: k in s.rows && ForRound(s.rows[k], input) ==> FromSame(s.rows[k], input))
      && (r.Ok? ==> (r.value.0 <==> forall k :: k in s.rows ==> !ForRound(s.rows[k], input)))
      && (r.Ok? && r.value.0 ==>
            && t.rows == s.rows[n := r.value.1] && IsStamped(s.room, input, r.value.1)
            && t.room == s.room.(saves := s.room.saves[n :=
                 Save(Some(input.body.timeline), Some(input.body.position), Some(r.value.1.frozen.value.origin))]))
      && (r.Ok? && !r.value.0 ==> exists k :: k in s.rows && ForRound(s.rows[k], input) && r.value.1 == s.rows[k])
      && ((r.Ok? && r.value.0) || t == s)
  {
    if Taken(s, input) {
      var k := RowFor(s, input);
      assert Autosaves.RowOk(s, k) && ForRound(s.rows[k], input);
      forall j | j in s.rows && ForRound(s.rows[j], input) ensures j == k {
        assert SameRound(s.rows[j], s.rows[k]);
      }
    } else {
      forall k | k in s.rows ensures !ForRound(s.rows[k], input) {
        assert !SameRound(s.rows[k], input);
      }
    }
  }

  lemma RowsHaveSaves(s: Store)
    requires StoreInv(s)
    ensures forall k :: k in s.rows ==> k in s.room.saves
  {
    forall k | k in s.rows ensures k in s.room.saves {
      assert Autosaves.RowOk(s, k);
    }
  }

  // ---------------------------------------------------------------- pending boundaries

  /** Branch, position and round, as the field name spells them. */
  type Field = (Uuid, nat, nat)

  /** A boundary snapshot as the commit script took it; `sound` abstracts the decoder's shape checks. */
  datatype Snapshot = Snapshot(timeline: Uuid, position: nat, round: nat, runtime: string, messages: seq<string>, text: string, sound: bool)

  const MAX_SAVE_POSITION: nat := 9007199254740990

  /** memoryBoundarySave: `period` is 10 turns alone and 5 rounds together. */
  function BoundarySave(field: Field, x: Snapshot, complete: bool, period: nat): Option<GameSave>
    requires period > 0
  {
    if field.1 == 0 || field.1 > MAX_SAVE_POSITION || !x.sound || (x.timeline, x.position, x.round) != field
       || x.round == 0 || x.round % period != 0 then None
    else Some(GameSave(Body(x.timeline, x.position, x.round, complete, x.runtime, x.messages, x.text), true, None))
  }

  class PendingAutoSaves {
    var pending: map<Field, Snapshot>

    constructor (pending: map<Field, Snapshot>)
      ensures this.pending == pending
    {
      this.pending := pending;
    }

    /** AcknowledgeMemoryAutoSave: removes the entry unless another snapshot has taken its place. */
    method Acknowledge(field: Field, x: Snapshot) returns (ok: bool)
      modifies this
      ensures ok <==> (field in old(pending) ==> old(pending)[field] == x)
      ensures pending == if ok then old(pending) - {field} else old(pending)
    {
      if field in pending && pending[field] != x {
        return false;
      }
      pending := pending - {field};
      return true;
    }
  }

  /** Some row of the branch and round was written from this very snapshot. */
  ghost predicate Stored(s: Store, field: Field, x: Snapshot) {
    exists k {:trigger s.rows[k]} :: k in s.rows && HoldsSnapshot(s.rows[k], field, x)
  }

  predicate HoldsSnapshot(row: GameSave, field: Field, x: Snapshot) {
    && row.auto && row.frozen.Some? && row.body.timeline == field.0 && row.body.round == field.2
    && var input := row.frozen.value.input.body;
       (input.timeline, input.position, input.round, input.runtime, input.messages, input.text)
         == (x.timeline, x.position, x.round, x.runtime, x.messages, x.text)
  }

  lemma StoredStays(s: Store, t: Store, field: Field, x: Snapshot)
    requires Later(s, t) && Stored(s, field, x)
    ensures Stored(t, field, x)
  {
    var k :| k in s.rows && HoldsSnapshot(s.rows[k], field, x);
    assert t.rows[k] == s.rows[k];
  }

  lemma FlushedIsStored(s: Store, n: nat, input: GameSave, field: Field, x: Snapshot, complete: bool, period: nat)
    requires StoreInv(s) && n !in s.room.saves && period > 0 && BoundarySave(field, x, complete, period) == Some(input)
    requires Autosaves.CreateMemorySave(s, n, input).1.Ok?
    ensures Stored(Autosaves.CreateMemorySave(s, n, input).0, field, x)
  {
    FlushedIsRow(s, n, input);
    var t := Autosaves.CreateMemorySave(s, n, input).0;
    var k := RowFor(t, input);
    assert Autosaves.RowOk(t, k) && HoldsSnapshot(t.rows[k], field, x);
  }

  /** What is no longer pending is stored. */
  ghost predicate NoneLost(before: map<Field, Snapshot>, pending: map<Field, Snapshot>, s: Store) {
    && pending.Keys <= before.Keys
    && (forall f :: f in before && f !in pending ==> Stored(s, f, before[f]))
    && (forall f :: f in pending ==> pending[f] == before[f])
  }

  lemma NoneLostLater(before: map<Field, Snapshot>, pending: map<Field, Snapshot>, s: Store, t: Store)
    requires NoneLost(before, pending, s) && Later(s, t)
    ensures NoneLost(before, pending, t)
  {
    forall f | f in before && f !in pending ensures Stored(t, f, before[f]) {
      StoredStays(s, t, f, before[f]);
    }
  }

  lemma AcknowledgedIsKept(before: map<Field, Snapshot>, pending: map<Field, Snapshot>, s: Store, f: Field)
    requires NoneLost(before, pending, s) && (f in before ==> Stored(s, f, before[f]))
    ensures NoneLost(before, pending - {f}, s)
  {
  }

  /**
   A well-formed snapshot under its own name, at a boundary of the period, on a published branch that has the
   position; a row of that branch and round must have been made from this very snapshot.
   */
  ghost predicate Flushable(s: Store, field: Field, x: Snapshot, period: nat)
    requires period > 0
  {
    && x.sound && (x.timeline, x.position, x.round) == field
    && 0 < x.position <= MAX_SAVE_POSITION && 0 < x.round && x.round % period == 0
    && x.timeline in s.room.tables.timelines
    && var t := s.room.tables.timelines[x.timeline];
    && t.status.Active? && t.fork <= x.position <= t.durable
    && forall k {:trigger s.rows[k]} :: k in s.rows && s.rows[k].auto && s.rows[k].body.timeline == x.timeline && s.rows[k].body.round == x.round ==>
         s.rows[k].frozen.Some?
         && s.rows[k].frozen.value.input == Hash(Body(x.timeline, x.position, x.round, t.complete, x.runtime, x.messages, x.text), None)
  }

  /** At most rows of this branch and round have been added. */
  ghost predicate OnlyForRound(s: Store, t: Store, field: Field) {
    && t.room.tables == s.room.tables
    && forall k {:trigger t.rows[k]} :: k in t.rows && k !in s.rows ==> t.rows[k].body.timeline == field.0 && t.rows[k].body.round == field.2
  }

  lemma FlushableStays(s: Store, t: Store, field: Field, x: Snapshot, period: nat, other: Field)
    requires period > 0 && Flushable(s, field, x, period) && OnlyForRound(s, t, other) && Later(s, t)
    requires field.0 != other.0 || field.2 != other.2
    ensures Flushable(t, field, x, period)
  {
    assert forall k {:trigger t.rows[k]} :: k in t.rows && t.rows[k].body.timeline == x.timeline && t.rows[k].body.round == x.round ==>
      k in s.rows && t.rows[k] == s.rows[k];
  }

  /** One pending boundary becomes a row, or finds its row already there. */
  method StoreBoundary(games: GameRepo, field: Field, x: Snapshot, period: nat) returns (failed: Option<Error>)
    requires games.Valid() && period > 0
    modifies games
    ensures games.Valid() && Later(old(games.Contents()), games.Contents())
    ensures failed.None? ==> Stored(games.Contents(), field, x)
    ensures failed.None? <==> Flushable(old(games.Contents()), field, x, period)
    ensures OnlyForRound(old(games.Contents()), games.Contents(), field)
  {
    var ts := games.room.tables.timelines;
    if field.0 !in ts {
      return Some(NotFound);
    }
    if !ts[field.0].status.Active? || field.1 > ts[field.0].durable {
      return Some(Gap);
    }
    var save := BoundarySave(field, x, ts[field.0].complete, period);
    if save.None? {
      return Some(Invalid);
    }
    ghost var s, n := games.Contents(), games.nextId;
    var created := games.CreateMemorySave(save.value);
    if created.Err? {
      return Some(created.error);
    }
    FlushedIsStored(s, n, save.value, field, x, ts[field.0].complete, period);
    return None;
  }

  /** Store one boundary, then acknowledge it; with fewer than two calls left the process dies on the way. */
  method FlushEntry(games: GameRepo, runtime: PendingAutoSaves, field: Field, x: Snapshot, period: nat, calls: nat,
                    ghost before: map<Field, Snapshot>) returns (failed: Option<Error>)
    requires games.Valid() && period > 0 && NoneLost(before, runtime.pending, games.Contents())
    requires field in before ==> before[field] == x
    modifies games, runtime
    ensures games.Valid() && Later(old(games.Contents()), games.Contents())
    ensures NoneLost(before, runtime.pending, games.Contents())
    ensures runtime.pending == old(runtime.pending) || runtime.pending == old(runtime.pending) - {field}
    ensures failed.None? ==> field !in runtime.pending
    ensures OnlyForRound(old(games.Contents()), games.Contents(), field)
    ensures failed.None? <==> calls >= 2 && Flushable(old(games.Contents()), field, x, period)
                              && (field in old(runtime.pending) ==> old(runtime.pending)[field] == x)
  {
    if calls == 0 {
      return Some(Busy);
    }
    failed := StoreBoundary(games, field, x, period);
    NoneLostLater(before, runtime.pending, old(games.Contents()), games.Contents());
    if failed.Some? {
      return;
    }
    if calls == 1 {
      return Some(Busy);
    }
    AcknowledgedIsKept(before, runtime.pending, games.Contents(), field);
    var acknowledged := runtime.Acknowledge(field, x);
    return if acknowledged then None else Some(Conflict);
  }

  predicate Lists(listing: seq<(Field, Snapshot)>, pending: map<Field, Snapshot>) {
    && (forall e :: e in listing ==> e.0 in pending && pending[e.0] == e.1)
    && (forall f :: f in pending ==> (f, pending[f]) in listing)
  }

  /** Every entry can be stored, and no two compete for a row. */
  ghost predicate Smooth(s: Store, listing: seq<(Field, Snapshot)>, i: nat, period: nat)
    requires period > 0 && i <= |listing|
  {
    && (forall j {:trigger listing[j]} :: i <= j < |listing| ==> Flushable(s, listing[j].0, listing[j].1, period))
    && (forall j, k {:trigger listing[j], listing[k]} :: i <= j < k < |listing| ==>
          listing[j].0.0 != listing[k].0.0 || listing[j].0.2 != listing[k].0.2)
  }

  lemma SmoothOn(s: Store, t: Store, listing: seq<(Field, Snapshot)>, i: nat, period: nat)
    requires period > 0 && i < |listing| && Smooth(s, listing, i, period)
    requires OnlyForRound(s, t, listing[i].0) && Later(s, t)
    ensures Smooth(t, listing, i + 1, period)
  {
    forall j | i + 1 <= j < |listing| ensures Flushable(t, listing[j].0, listing[j].1, period) {
      FlushableStays(s, t, listing[j].0, listing[j].1, period, listing[i].0);
    }
  }

  /**
   FlushAutoSaves: every pending boundary is stored before it is acknowledged.  `calls` is how many
   remote calls the process lives to make, so the loop may stop between any two; wherever it does, no
   boundary is lost and no stored row is changed.  With calls enough and no entry refused it empties the list.
   */
  method FlushAutoSaves(games: GameRepo, runtime: PendingAutoSaves, listing: seq<(Field, Snapshot)>, period: nat, calls: nat)
    returns (failed: Option<Error>)
    requires games.Valid() && period > 0 && Lists(listing, runtime.pending)
    modifies games, runtime
    ensures games.Valid() && Later(old(games.Contents()), games.Contents())
    ensures NoneLost(old(runtime.pending), runtime.pending, games.Contents())
    ensures failed.None? ==> runtime.pending == map[]
    ensures 2 * |listing| <= calls && Smooth(old(games.Contents()), listing, 0, period) ==> failed.None?
  {
    ghost var before, start := runtime.pending, games.Contents();
    ghost var smooth := 2 * |listing| <= calls && Smooth(start, listing, 0, period);
    var left := calls;
    for i := 0 to |listing|
      invariant games.Valid() && Later(start, games.Contents())
      invariant NoneLost(before, runtime.pending, games.Contents())
      invariant Gone(listing, i, runtime.pending)
      invariant smooth ==> 2 * (|listing| - i) <= left && Smooth(games.Contents(), listing, i, period)
    {
      assert listing[i] in listing;
      failed := FlushItem(games, runtime, listing, i, period, left, before, start, smooth);
      if failed.Some? {
        return;
      }
      left := if left < 2 then 0 else left - 2;
    }
    AllFlushed(listing, before, runtime.pending);
    return None;
  }

  /** One turn of the loop. */
  method FlushItem(games: GameRepo, runtime: PendingAutoSaves, listing: seq<(Field, Snapshot)>, i: nat, period: nat, calls: nat,
                   ghost before: map<Field, Snapshot>, ghost start: Store, ghost smooth: bool) returns (failed: Option<Error>)
    requires i < |listing| && games.Valid() && period > 0 && Later(start, games.Contents())
    requires NoneLost(before, runtime.pending, games.Contents()) && listing[i].0 in before && before[listing[i].0] == listing[i].1
    requires smooth ==> 2 * (|listing| - i) <= calls && Smooth(games.Contents(), listing, i, period)
    modifies games, runtime
    ensures games.Valid() && Later(start, games.Contents()) && Later(old(games.Contents()), games.Contents())
    ensures NoneLost(before, runtime.pending, games.Contents()) && runtime.pending.Keys <= old(runtime.pending.Keys)
    ensures old(Gone(listing, i, runtime.pending)) && failed.None? ==> Gone(listing, i + 1, runtime.pending)
    ensures smooth ==> failed.None? && Smooth(games.Contents(), listing, i + 1, period)
  {
    var (field, x) := listing[i];
    ghost var s := games.Contents();
    failed := FlushEntry(games, runtime, field, x, period, calls, before);
    LaterStill(start, s, games.Contents());
    if smooth {
      SmoothOn(s, games.Contents(), listing, i, period);
    }
  }

  ghost predicate Gone(listing: seq<(Field, Snapshot)>, i: nat, pending: map<Field, Snapshot>)
    requires i <= |listing|
  {
    forall j {:trigger listing[j]} :: 0 <= j < i ==> listing[j].0 !in pending
  }

  lemma AllFlushed(listing: seq<(Field, Snapshot)>, before: map<Field, Snapshot>, pending: map<Field, Snapshot>)
    requires Lists(listing, before) && pending.Keys <= before.Keys
    requires Gone(listing, |listing|, pending)
    ensures pending == map[]
  {
    forall f | f in before ensures f !in pending {
      var j :| 0 <= j < |listing| && listing[j] == (f, before[f]);
      assert listing[j].0 !in pending;
    }
    assert pending.Keys == {};
  }
}
