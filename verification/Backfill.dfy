/**
 Repairing the key-event index of a timeline from its immutable records, in bounded batches that can
 be repeated after a lost response and interleaved with archiving.
 */
module Backfill {
  import opened MemoryModel
  import opened Ledger
  import H = History

  datatype KeyEvent = KeyEvent(timeline: Uuid, position: nat, text: string)

  /** Rows are keyed by source commit and index. */
  type Index = map<(Uuid, nat), KeyEvent>

  /** keyEventsFromRecord: the simple definition the index must agree with. */
  function Derived(r: Record): Result<seq<KeyEvent>> {
    if !H.EventsOk(r) then Err(Invalid)
    else if !r.kind.Action? then Ok([])
    else Ok(Listed(r, |r.payload.events|))
  }

  function Listed(r: Record, n: nat): (events: seq<KeyEvent>)
    requires n <= |r.payload.events|
    ensures |events| == n
    ensures forall i :: 0 <= i < n ==> events[i] == KeyEvent(r.timeline, r.position, r.payload.events[i])
  {
    if n == 0 then [] else Listed(r, n - 1) + [KeyEvent(r.timeline, r.position, r.payload.events[n - 1])]
  }

  /** The rows of one record's commit are among those derived from it. */
  ghost predicate Consistent(index: Index, r: Record) {
    && Derived(r).Ok?
    && forall k {:trigger k in index} :: k in index && k.0 == r.commit ==> k.1 < |Derived(r).value| && index[k] == Derived(r).value[k.1]
  }

  /** They are exactly those. */
  ghost predicate Exact(index: Index, r: Record) {
    && Consistent(index, r)
    && forall i :: 0 <= i < |Derived(r).value| ==> (r.commit, i) in index
  }

  /** An action has at most eight events, none empty, and every row of its commit is one of them; others have no rows. */
  ghost predicate Agrees(index: Index, r: Record) {
    && (r.kind.Action? ==> |r.payload.events| <= 8 && "" !in r.payload.events)
    && forall k {:trigger k in index} :: k in index && k.0 == r.commit ==>
         r.kind.Action? && k.1 < |r.payload.events| && index[k] == KeyEvent(r.timeline, r.position, r.payload.events[k.1])
  }

  /** And every event of the action has its row. */
  ghost predicate Indexed(index: Index, r: Record) {
    && Agrees(index, r)
    && (r.kind.Action? ==> forall i :: 0 <= i < |r.payload.events| ==> (r.commit, i) in index)
  }

  /** Being exact is having one row per event of the payload, at the record's own place. */
  lemma ExactIsIndexed(index: Index, r: Record)
    ensures Consistent(index, r) <==> Agrees(index, r)
    ensures Exact(index, r) <==> Indexed(index, r)
  {
  }

  function WithRows(index: Index, commit: Uuid, events: seq<KeyEvent>): Index {
    if events == [] then index
    else WithRows(index, commit, events[..|events| - 1])[(commit, |events| - 1) := events[|events| - 1]]
  }

  function Repaired(index: Index, r: Record): Index {
    if Derived(r).Ok? then WithRows(index, r.commit, Derived(r).value) else index
  }

  /** How many derived rows are not there. */
  function Missing(index: Index, commit: Uuid, n: nat): nat {
    if n == 0 then 0 else Missing(index, commit, n - 1) + (if (commit, n - 1) in index then 0 else 1)
  }

  function Lacks(index: Index, r: Record): nat {
    if Derived(r).Ok? then Missing(index, r.commit, |Derived(r).value|) else 0
  }

  lemma {:induction false} NoneMissing(index: Index, commit: Uuid, n: nat)
    ensures Missing(index, commit, n) == 0 <==> forall i :: 0 <= i < n ==> (commit, i) in index
  {
    if n > 0 {
      NoneMissing(index, commit, n - 1);
    }
  }

  lemma {:induction false} MissingSame(a: Index, b: Index, commit: Uuid, n: nat)
    requires forall i :: 0 <= i < n ==> ((commit, i) in a <==> (commit, i) in b)
    ensures Missing(a, commit, n) == Missing(b, commit, n)
  {
    if n > 0 {
      MissingSame(a, b, commit, n - 1);
    }
  }

  lemma {:induction false} WithRowsIs(index: Index, commit: Uuid, events: seq<KeyEvent>)
    ensures var m := WithRows(index, commit, events);
      && (forall k :: k in m <==> k in index || (k.0 == commit && k.1 < |events|))
      && (forall k :: k in index && (k.0 != commit || k.1 >= |events|) ==> m[k] == index[k])
      && (forall i :: 0 <= i < |events| ==> m[(commit, i)] == events[i])
    decreases |events|
  {
    if events != [] {
      WithRowsIs(index, commit, events[..|events| - 1]);
    }
  }

  predicate Extends(a: Index, b: Index) {
    forall k {:trigger k in b} {:trigger k in a} :: k in a ==> k in b && b[k] == a[k]
  }

  /** Repair only adds rows of the record's own commit, and makes them exact. */
  lemma RepairedIs(index: Index, r: Record)
    requires Consistent(index, r)
    ensures Exact(Repaired(index, r), r) && Extends(index, Repaired(index, r))
    ensures forall k :: k in Repaired(index, r) && k !in index ==> k.0 == r.commit
    ensures Exact(index, r) ==> Repaired(index, r) == index
  {
    WithRowsIs(index, r.commit, Derived(r).value);
  }

  // ---------------------------------------------------------------- a run of records

  ghost predicate Repairable(index: Index, records: seq<Record>) {
    forall i {:trigger records[i]} :: 0 <= i < |records| ==> Consistent(index, records[i])
  }

  ghost predicate AllExact(index: Index, records: seq<Record>) {
    forall i {:trigger records[i]} :: 0 <= i < |records| ==> Exact(index, records[i])
  }

  predicate DistinctCommits(records: seq<Record>) {
    forall i, j :: 0 <= i < j < |records| ==> records[i].commit != records[j].commit
  }

  function RepairedAll(index: Index, records: seq<Record>): Index {
    if records == [] then index else Repaired(RepairedAll(index, records[..|records| - 1]), records[|records| - 1])
  }

  function LacksAll(index: Index, records: seq<Record>): nat {
    if records == [] then 0 else LacksAll(index, records[..|records| - 1]) + Lacks(index, records[|records| - 1])
  }

  predicate OfCommits(k: (Uuid, nat), records: seq<Record>) {
    exists i :: 0 <= i < |records| && records[i].commit == k.0
  }

  /** Repairing a run keeps every row there was and adds none but its own. */
  lemma {:induction false} RepairedAllAdds(index: Index, records: seq<Record>)
    requires DistinctCommits(records) && Repairable(index, records)
    ensures Extends(index, RepairedAll(index, records))
    ensures forall k :: k in RepairedAll(index, records) && k !in index ==> OfCommits(k, records)
    decreases |records|
  {
    if records != [] {
      var front, last := records[..|records| - 1], records[|records| - 1];
      RepairedAllAdds(index, front);
      StillConsistent(index, RepairedAll(index, front), front, last);
      RepairedIs(RepairedAll(index, front), last);
      forall k | k in RepairedAll(index, records) && k !in index ensures OfCommits(k, records) {
        if k in RepairedAll(index, front) {
          var i :| 0 <= i < |front| && front[i].commit == k.0;
          assert records[i].commit == k.0;
        } else {
          assert records[|records| - 1].commit == k.0;
        }
      }
    }
  }

  /** Rows added for other commits do not concern a record. */
  lemma StillConsistent(index: Index, more: Index, records: seq<Record>, r: Record)
    requires Extends(index, more) && (forall k :: k in more && k !in index ==> OfCommits(k, records))
    requires forall i :: 0 <= i < |records| ==> records[i].commit != r.commit
    ensures forall k: (Uuid, nat) :: k.0 == r.commit ==> (k in more <==> k in index)
    ensures Consistent(more, r) <==> Consistent(index, r)
    ensures Exact(more, r) <==> Exact(index, r)
    ensures Lacks(more, r) == Lacks(index, r)
  {
    forall k: (Uuid, nat) | k.0 == r.commit ensures k in more <==> k in index {
    }
    if Derived(r).Ok? {
      MissingSame(more, index, r.commit, |Derived(r).value|);
    }
  }

  lemma FrontStaysExact(before: Index, after: Index, front: seq<Record>, commit: Uuid)
    requires AllExact(before, front) && Extends(before, after)
    requires forall k :: k in after && k !in before ==> k.0 == commit
    requires forall i :: 0 <= i < |front| ==> front[i].commit != commit
    ensures AllExact(after, front)
  {
    forall i | 0 <= i < |front| ensures Exact(after, front[i]) {
      StaysExact(before, after, front[i], commit);
    }
  }

  /** And it makes every record of the run exact. */
  lemma {:induction false} RepairedAllExact(index: Index, records: seq<Record>)
    requires DistinctCommits(records) && Repairable(index, records)
    ensures AllExact(RepairedAll(index, records), records)
    decreases |records|
  {
    if records != [] {
      var front, last := records[..|records| - 1], records[|records| - 1];
      var before := RepairedAll(index, front);
      RepairedAllExact(index, front);
      LastIsConsistent(index, records);
      RepairedIs(before, last);
      FrontStaysExact(before, Repaired(before, last), front, last.commit);
    }
  }

  lemma LastIsConsistent(index: Index, records: seq<Record>)
    requires records != [] && DistinctCommits(records) && Repairable(index, records)
    ensures Consistent(RepairedAll(index, records[..|records| - 1]), records[|records| - 1])
  {
    var front, last := records[..|records| - 1], records[|records| - 1];
    RepairedAllAdds(index, front);
    StillConsistent(index, RepairedAll(index, front), front, last);
  }

  lemma StaysExact(a: Index, b: Index, r: Record, commit: Uuid)
    requires Exact(a, r) && Extends(a, b) && r.commit != commit
    requires forall k :: k in b && k !in a ==> k.0 == commit
    ensures Exact(b, r)
  {
  }

  /** A run lacks nothing exactly when it is exact, and then repairing it changes nothing. */
  lemma {:induction false} NothingLacking(index: Index, records: seq<Record>)
    requires Repairable(index, records)
    ensures LacksAll(index, records) == 0 <==> AllExact(index, records)
    ensures AllExact(index, records) ==> RepairedAll(index, records) == index
    decreases |records|
  {
    if records != [] {
      var front, last := records[..|records| - 1], records[|records| - 1];
      NothingLacking(index, front);
      NoneMissing(index, last.commit, |Derived(last).value|);
      if AllExact(index, records) {
        assert AllExact(index, front);
        RepairedIs(index, last);
      }
    }
  }

  lemma {:induction false} RowsCounted(index: Index, commit: Uuid, events: seq<KeyEvent>)
    ensures |WithRows(index, commit, events)| == |index| + Missing(index, commit, |events|)
    decreases |events|
  {
    if events != [] {
      var n := |events| - 1;
      var before := WithRows(index, commit, events[..n]);
      RowsCounted(index, commit, events[..n]);
      WithRowsIs(index, commit, events[..n]);
      if (commit, n) in index {
        assert before[(commit, n) := events[n]].Keys == before.Keys;
      } else {
        assert before[(commit, n) := events[n]].Keys == before.Keys + {(commit, n)};
      }
    }
  }

  /** What a run lacks is what repairing it adds. */
  lemma {:induction false} LackIsGrowth(index: Index, records: seq<Record>)
    requires DistinctCommits(records) && Repairable(index, records)
    ensures |RepairedAll(index, records)| == |index| + LacksAll(index, records)
    decreases |records|
  {
    if records != [] {
      var front, last := records[..|records| - 1], records[|records| - 1];
      LackIsGrowth(index, front);
      RepairedAllAdds(index, front);
      StillConsistent(index, RepairedAll(index, front), front, last);
      RowsCounted(RepairedAll(index, front), last.commit, Derived(last).value);
    }
  }

  // ---------------------------------------------------------------- a batch

  datatype Batch = Batch(next: nat, through: nat, missing: nat, inserted: nat, done: bool)

  /** The range a request stands for, if it is a valid one. */
  function Range(l: Tables, id: Uuid, after: nat, through: Option<nat>): Option<(nat, nat)> {
    if id !in l.timelines then None
    else
      var t := l.timelines[id];
      var upper := if through.Some? then through.value else t.durable;
      var from := if after < t.fork then t.fork else after;
      if from > upper || upper > t.durable || upper < t.fork then None else Some((from, upper))
  }

  function End(from: nat, upper: nat, limit: nat): nat {
    if from + limit < upper then from + limit else upper
  }

  /** The records of a timeline in (from, end]. */
  function Between(l: Tables, id: Uuid, from: nat, end: nat): (rows: seq<Record>)
    requires from <= end && forall p :: from < p <= end ==> (id, p) in l.records
    ensures |rows| == end - from && forall i {:trigger rows[i]} :: 0 <= i < |rows| ==> rows[i] == l.records[(id, from + 1 + i)]
  {
    seq(end - from, i requires 0 <= i < end - from => l.records[(id, from + 1 + i)])
  }

  lemma RangePresent(l: Tables, id: Uuid, after: nat, through: Option<nat>)
    requires H.Inv(l) && Range(l, id, after, through).Some?
    ensures var (from, upper) := Range(l, id, after, through).value;
      from <= upper && forall p :: from < p <= upper ==> (id, p) in l.records
  {
    assert H.OwnRecordsOk(l, id);
  }

  lemma BetweenDistinct(l: Tables, id: Uuid, from: nat, end: nat)
    requires H.Inv(l) && from <= end && forall p :: from < p <= end ==> (id, p) in l.records
    ensures DistinctCommits(Between(l, id, from, end))
  {
    var rows := Between(l, id, from, end);
    forall i, j | 0 <= i < j < |rows| ensures rows[i].commit != rows[j].commit {
      var same := H.SameIdentity(l.records[(id, from + 1 + i)], l.records[(id, from + 1 + j)]);
    }
  }

  /** The records one batch covers. */
  ghost function Scanned(l: Tables, id: Uuid, after: nat, through: Option<nat>, limit: nat): seq<Record>
    requires H.Inv(l) && Range(l, id, after, through).Some?
  {
    RangePresent(l, id, after, through);
    var (from, upper) := Range(l, id, after, through).value;
    Between(l, id, from, End(from, upper, limit))
  }

  predicate Contradicts(rows: Index, k: (Uuid, nat), r: Record, expected: seq<KeyEvent>)
    requires k in rows
  {
    k.0 == r.commit && (k.1 >= |expected| || rows[k] != expected[k.1])
  }

  /** One record: refuse a row that is not derived from it, add the derived rows that are missing. */
  method RepairRecord(rows: Index, r: Record, apply: bool) returns (repaired: Option<Index>, missing: nat)
    ensures repaired.Some? <==> Consistent(rows, r)
    ensures repaired.Some? ==> repaired.value == (if apply then Repaired(rows, r) else rows) && missing == Lacks(rows, r)
  {
    var expected := Derived(r);
    if expected.Err? || exists k :: k in rows && Contradicts(rows, k, r, expected.value) {
      return None, 0;
    }
    var filled := rows;
    missing := 0;
    for i := 0 to |expected.value|
      invariant filled == if apply then WithRows(rows, r.commit, expected.value[..i]) else rows
      invariant missing == Missing(rows, r.commit, i)
    {
      OneRow(rows, r, expected.value, i);
      if (r.commit, i) !in filled {
        missing := missing + 1;
        if apply {
          filled := filled[(r.commit, i) := expected.value[i]];
        }
      }
    }
    assert expected.value[..|expected.value|] == expected.value;
    return Some(filled), missing;
  }

  lemma OneRow(rows: Index, r: Record, events: seq<KeyEvent>, i: nat)
    requires Consistent(rows, r) && Derived(r) == Ok(events) && i < |events|
    ensures var before, after := WithRows(rows, r.commit, events[..i]), WithRows(rows, r.commit, events[..i + 1]);
      && ((r.commit, i) in before <==> (r.commit, i) in rows)
      && after == before[(r.commit, i) := events[i]]
      && ((r.commit, i) in rows ==> after == before)
  {
    WithRowsIs(rows, r.commit, events[..i]);
    assert events[..i + 1][..i] == events[..i];
  }

  /** The loop over the records of a batch. */
  method RepairRecords(index: Index, records: seq<Record>, apply: bool) returns (repaired: Option<Index>, missing: nat)
    requires DistinctCommits(records)
    ensures repaired.Some? <==> Repairable(index, records)
    ensures repaired.Some? ==> repaired.value == (if apply then RepairedAll(index, records) else index)
                               && missing == LacksAll(index, records)
  {
    var rows := index;
    missing := 0;
    for i := 0 to |records|
      invariant Repairable(index, records[..i])
      invariant rows == if apply then RepairedAll(index, records[..i]) else index
      invariant missing == LacksAll(index, records[..i])
    {
      NextRecord(index, rows, records, i, apply);
      var next, lacking := RepairRecord(rows, records[i], apply);
      if next.None? {
        return None, 0;
      }
      rows, missing := next.value, missing + lacking;
    }
    assert records[..|records|] == records;
    return Some(rows), missing;
  }

  lemma NextRecord(index: Index, rows: Index, records: seq<Record>, i: nat, apply: bool)
    requires i < |records| && DistinctCommits(records) && Repairable(index, records[..i])
    requires rows == if apply then RepairedAll(index, records[..i]) else index
    ensures Consistent(rows, records[i]) <==> Consistent(index, records[i])
    ensures Lacks(rows, records[i]) == Lacks(index, records[i])
    ensures Consistent(index, records[i]) ==> Repairable(index, records[..i + 1])
    ensures !Consistent(index, records[i]) ==> !Repairable(index, records)
    ensures records[..i + 1][..i] == records[..i]
  {
    RepairedAllAdds(index, records[..i]);
    StillConsistent(index, RepairedAll(index, records[..i]), records[..i], records[i]);
  }

  /** The position `n` full batches after `from`. */
  function Advanced(from: nat, n: nat, limit: nat): nat {
    if n == 0 then from else Advanced(from, n - 1, limit) + limit
  }

  class KeyEventRepo {
    var tables: Tables
    var index: Index

    constructor (tables: Tables, index: Index)
      ensures this.tables == tables && this.index == index
    {
      this.tables, this.index := tables, index;
    }

    /** BackfillKeyEvents: one bounded batch, committed as a whole or not at all. */
    method BackfillKeyEvents(id: Uuid, after: nat, through: Option<nat>, limit: nat, apply: bool) returns (r: Result<Batch>)
      requires H.Inv(tables)
      modifies this`index
      ensures r.Err? ==> index == old(index)
      ensures r.Ok? <==> 1 <= limit <= 100 && Range(tables, id, after, through).Some?
                         && Repairable(old(index), Scanned(tables, id, after, through, limit))
      ensures r.Ok? ==>
                var (from, upper) := Range(tables, id, after, through).value;
                var records := Scanned(tables, id, after, through, limit);
                && index == (if apply then RepairedAll(old(index), records) else old(index))
                && r.value == Batch(End(from, upper, limit), upper, LacksAll(old(index), records),
                                    if apply then LacksAll(old(index), records) else 0, End(from, upper, limit) == upper)
      ensures r.Ok? <==> 1 <= limit <= 100 && InRange(tables, id, after, through)
                         && RowsAgree(tables, old(index), id, Lower(tables, id, after), Stop(tables, id, after, through, limit))
      ensures r.Ok? ==>
                && r.value.next == Stop(tables, id, after, through, limit) && r.value.through == Upper(tables, id, through)
                && (r.value.done <==> r.value.next == r.value.through)
                && Filled(tables, id, Lower(tables, id, after), r.value.next, apply, old(index), index)
                && r.value.inserted == |index| - |old(index)| && (apply ==> r.value.missing == r.value.inserted)
    {
      BatchMeans(tables, index, id, after, through, limit, apply);
      if limit < 1 || limit > 100 {
        return Err(Invalid);
      }
      var range := Range(tables, id, after, through);
      if range.None? {
        return Err(if id in tables.timelines then Invalid else NotFound);
      }
      RangePresent(tables, id, after, through);
      var (from, upper) := range.value;
      var end := End(from, upper, limit);
      BetweenDistinct(tables, id, from, end);
      var rows, missing := RepairRecords(index, Between(tables, id, from, end), apply);
      if rows.None? {
        return Err(Conflict);
      }
      index := rows.value;
      return Ok(Batch(end, upper, missing, if apply then missing else 0, end == upper));
    }

    /** One turn of the loop, from the checkpoint of the last one. */
    method NextBatch(id: Uuid, ghost after: nat, ghost through: Option<nat>, checkpoint: nat, bound: Option<nat>, limit: nat,
                     ghost start: nat, ghost upper: nat) returns (r: Result<Batch>)
      requires H.Inv(tables) && 1 <= limit <= 100
      requires Range(tables, id, checkpoint, bound) == Some((start, upper))
      requires Range(tables, id, after, through).Some? && Range(tables, id, after, through).value.1 == upper
      requires ExactUpTo(tables, index, id, after, through, start)
      modifies this`index
      ensures Extends(old(index), index)
      ensures r.Ok? ==>
                && r.value.through == upper && r.value.next == End(start, upper, limit) && (r.value.done <==> r.value.next == upper)
                && Range(tables, id, r.value.next, Some(upper)) == Some((r.value.next, upper))
                && ExactUpTo(tables, index, id, after, through, r.value.next)
                && (RowsAgree(tables, old(index), id, start, upper) ==> RowsAgree(tables, index, id, r.value.next, upper))
      ensures RowsAgree(tables, old(index), id, start, upper) ==> r.Ok?
    {
      ghost var before := index;
      RangeIs(tables, id, checkpoint, bound);
      r := BackfillKeyEvents(id, checkpoint, bound, limit, true);
      if r.Ok? {
        CheckpointMoves(tables, before, index, id, after, through, checkpoint, bound, limit);
        if RowsAgree(tables, before, id, start, upper) {
          AgreementStays(tables, id, start, r.value.next, upper, before, index);
        }
      }
    }

    /**
     The command's loop: batches from a checkpoint until done, a conflict, or the last batch allowed.
     Whatever happens no row is lost, and once done every record of the range is exact; a range whose rows
     agree with their records is never refused.
     */
    method Backfill(id: Uuid, after: nat, through: Option<nat>, limit: nat, batches: nat) returns (r: Result<Batch>)
      requires H.Inv(tables) && batches > 0
      modifies this`index
      ensures Extends(old(index), index)
      ensures r.Ok? ==> Range(tables, id, after, through).Some?
      ensures r.Ok? ==> ExactUpTo(tables, index, id, after, through, r.value.next)
      ensures r.Ok? && r.value.done ==> r.value.next == Range(tables, id, after, through).value.1
      ensures r.Ok? && !r.value.done ==> r.value.next >= Advanced(after, batches, limit)
      ensures r.Ok? ==> InRange(tables, id, after, through) && 1 <= limit <= 100
      ensures InRange(tables, id, after, through) && RowsAgree(tables, old(index), id, Lower(tables, id, after), Upper(tables, id, through)) ==>
                (r.Ok? <==> 1 <= limit <= 100)
    {
      RangeIs(tables, id, after, through);
      var range := Range(tables, id, after, through);
      if range.None? || limit < 1 || limit > 100 {
        return Err(Invalid);
      }
      var (from, upper) := range.value;
      NothingDone(tables, index, id, after, through);
      ghost var first, start := index, from;
      ghost var smooth := RowsAgree(tables, index, id, from, upper);
      var checkpoint, bound := after, through;
      r := Err(Invalid);
      for i := 0 to batches
        invariant Extends(first, index)
        invariant Range(tables, id, checkpoint, bound) == Some((start, upper))
        invariant from <= start && start >= Advanced(after, i, limit)
        invariant ExactUpTo(tables, index, id, after, through, start)
        invariant i > 0 ==> r.Ok? && !r.value.done && r.value.next == start
        invariant smooth ==> RowsAgree(tables, index, id, start, upper)
      {
        r := NextBatch(id, after, through, checkpoint, bound, limit, start, upper);
        if r.Err? {
          return;
        }
        checkpoint, bound := r.value.next, Some(r.value.through);
        if r.value.done {
          return;
        }
        start := checkpoint;
      }
    }
  }

  /** A batch starts after the checkpoint, or after the fork for an earlier one. */
  ghost function Lower(l: Tables, id: Uuid, after: nat): nat
    requires id in l.timelines
  {
    if after < l.timelines[id].fork then l.timelines[id].fork else after
  }

  ghost function Upper(l: Tables, id: Uuid, through: Option<nat>): nat
    requires id in l.timelines
  {
    if through.Some? then through.value else l.timelines[id].durable
  }

  ghost function Stop(l: Tables, id: Uuid, after: nat, through: Option<nat>, limit: nat): nat
    requires InRange(l, id, after, through)
  {
    var from, upper := Lower(l, id, after), Upper(l, id, through);
    if upper - from > limit then from + limit else upper
  }

  ghost predicate InRange(l: Tables, id: Uuid, after: nat, through: Option<nat>) {
    id in l.timelines && Lower(l, id, after) <= Upper(l, id, through)
    && l.timelines[id].fork <= Upper(l, id, through) <= l.timelines[id].durable
  }

  ghost predicate RowsAgree(l: Tables, rows: Index, id: Uuid, from: nat, end: nat) {
    forall p {:trigger l.records[(id, p)]} {:trigger (id, p) in l.records} :: from < p <= end ==>
      (id, p) in l.records && Agrees(rows, l.records[(id, p)])
  }

  lemma BatchMeans(l: Tables, index: Index, id: Uuid, after: nat, through: Option<nat>, limit: nat, apply: bool)
    requires H.Inv(l)
    ensures Range(l, id, after, through).Some? <==> InRange(l, id, after, through)
    ensures InRange(l, id, after, through) ==>
              var rows, from, stop := Scanned(l, id, after, through, limit), Lower(l, id, after), Stop(l, id, after, through, limit);
              && Range(l, id, after, through) == Some((from, Upper(l, id, through)))
              && (Repairable(index, rows) <==> RowsAgree(l, index, id, from, stop))
              && (Repairable(index, rows) ==>
                    && Filled(l, id, from, stop, apply, index, if apply then RepairedAll(index, rows) else index)
                    && |RepairedAll(index, rows)| == |index| + LacksAll(index, rows))
  {
    RangeIs(l, id, after, through);
    if InRange(l, id, after, through) {
      ScannedIs(l, id, after, through, limit);
      SpanMeans(l, index, id, Lower(l, id, after), Stop(l, id, after, through, limit), apply);
    }
  }

  lemma RangeIs(l: Tables, id: Uuid, after: nat, through: Option<nat>)
    ensures Range(l, id, after, through) ==
              if InRange(l, id, after, through) then Some((Lower(l, id, after), Upper(l, id, through))) else None
  {
  }

  lemma ScannedIs(l: Tables, id: Uuid, after: nat, through: Option<nat>, limit: nat)
    requires H.Inv(l) && InRange(l, id, after, through)
    ensures Range(l, id, after, through).Some?
    ensures var from, stop := Lower(l, id, after), Stop(l, id, after, through, limit);
      && from <= stop && (forall p :: from < p <= stop ==> (id, p) in l.records)
      && Scanned(l, id, after, through, limit) == Between(l, id, from, stop)
  {
    RangeIs(l, id, after, through);
    RangePresent(l, id, after, through);
  }

  lemma SpanMeans(l: Tables, index: Index, id: Uuid, from: nat, stop: nat, apply: bool)
    requires H.Inv(l) && from <= stop && forall p :: from < p <= stop ==> (id, p) in l.records
    ensures var rows := Between(l, id, from, stop);
      && (Repairable(index, rows) <==> RowsAgree(l, index, id, from, stop))
      && (Repairable(index, rows) ==>
            && Filled(l, id, from, stop, apply, index, if apply then RepairedAll(index, rows) else index)
            && |RepairedAll(index, rows)| == |index| + LacksAll(index, rows))
  {
    RepairableIff(l, index, id, from, stop);
    BetweenDistinct(l, id, from, stop);
    if Repairable(index, Between(l, id, from, stop)) {
      BatchFills(l, index, id, from, stop, apply);
      LackIsGrowth(index, Between(l, id, from, stop));
    }
  }

  /** No row is changed; an applied batch leaves every record covered with exactly its rows and adds rows of these only. */
  ghost predicate Filled(l: Tables, id: Uuid, from: nat, end: nat, apply: bool, before: Index, after: Index) {
    && (!apply ==> after == before)
    && (forall k :: k in before ==> k in after && after[k] == before[k])
    && (apply ==> forall p {:trigger l.records[(id, p)]} :: from < p <= end ==> (id, p) in l.records && Indexed(after, l.records[(id, p)]))
    && (forall k :: k in after && k !in before ==> exists p :: from < p <= end && (id, p) in l.records && l.records[(id, p)].commit == k.0)
  }

  /** Rows added for one stretch do not concern the records after it. */
  lemma AgreementStays(l: Tables, id: Uuid, from: nat, end: nat, upper: nat, before: Index, after: Index)
    requires H.Inv(l) && from <= end && Filled(l, id, from, end, true, before, after) && RowsAgree(l, before, id, from, upper)
    ensures RowsAgree(l, after, id, end, upper)
  {
    forall p | end < p <= upper ensures (id, p) in l.records && Agrees(after, l.records[(id, p)]) {
      assert (id, p) in l.records;
      var r := l.records[(id, p)];
      assert Agrees(before, r);
      forall k | k in after && k.0 == r.commit ensures k in before {
        if k !in before {
          var q :| from < q <= end && (id, q) in l.records && l.records[(id, q)].commit == k.0;
          assert H.SameIdentity(l.records[(id, q)], r);
        }
      }
    }
  }

  lemma RepairableIff(l: Tables, index: Index, id: Uuid, from: nat, end: nat)
    requires from <= end && forall p :: from < p <= end ==> (id, p) in l.records
    ensures Repairable(index, Between(l, id, from, end)) <==>
              forall p {:trigger l.records[(id, p)]} :: from < p <= end ==> Agrees(index, l.records[(id, p)])
  {
    var rows := Between(l, id, from, end);
    forall i | 0 <= i < |rows| ensures Consistent(index, rows[i]) <==> Agrees(index, rows[i]) {
      ExactIsIndexed(index, rows[i]);
    }
    forall p | from < p <= end ensures l.records[(id, p)] == rows[p - from - 1] {
    }
  }

  lemma BatchFills(l: Tables, index: Index, id: Uuid, from: nat, end: nat, apply: bool)
    requires from <= end && forall p :: from < p <= end ==> (id, p) in l.records
    requires DistinctCommits(Between(l, id, from, end)) && Repairable(index, Between(l, id, from, end))
    ensures var rows := Between(l, id, from, end);
            var after := if apply then RepairedAll(index, rows) else index;
      && Filled(l, id, from, end, apply, index, after)
      && |after| == |index| + if apply then LacksAll(index, rows) else 0
  {
    var rows := Between(l, id, from, end);
    RepairedAllExact(index, rows);
    RepairedAllAdds(index, rows);
    LackIsGrowth(index, rows);
    var after := RepairedAll(index, rows);
    forall p | from < p <= end ensures Indexed(after, l.records[(id, p)]) {
      assert rows[p - from - 1] == l.records[(id, p)];
      ExactIsIndexed(after, rows[p - from - 1]);
    }
    forall k | k in after && k !in index ensures exists p :: from < p <= end && (id, p) in l.records && l.records[(id, p)].commit == k.0 {
      var i :| 0 <= i < |rows| && rows[i].commit == k.0;
      assert l.records[(id, from + 1 + i)].commit == k.0;
    }
  }

  /** Every record of the requested range up to `checkpoint` has exactly its rows. */
  ghost predicate ExactUpTo(l: Tables, index: Index, id: Uuid, after: nat, through: Option<nat>, checkpoint: nat)
    requires H.Inv(l) && Range(l, id, after, through).Some?
  {
    var (from, upper) := Range(l, id, after, through).value;
    RangePresent(l, id, after, through);
    from <= checkpoint <= upper && AllExact(index, Between(l, id, from, checkpoint))
  }

  lemma NothingDone(l: Tables, index: Index, id: Uuid, after: nat, through: Option<nat>)
    requires H.Inv(l) && Range(l, id, after, through).Some?
    ensures ExactUpTo(l, index, id, after, through, Range(l, id, after, through).value.0)
  {
    RangePresent(l, id, after, through);
  }

  /** A batch from a checkpoint makes the range exact up to the next one. */
  lemma CheckpointMoves(l: Tables, before: Index, after: Index, id: Uuid, first: nat, through: Option<nat>,
                        checkpoint: nat, bound: Option<nat>, limit: nat)
    requires H.Inv(l) && Range(l, id, first, through).Some? && Range(l, id, checkpoint, bound).Some?
    requires Range(l, id, checkpoint, bound).value.1 == Range(l, id, first, through).value.1
    requires ExactUpTo(l, before, id, first, through, Range(l, id, checkpoint, bound).value.0)
    requires Repairable(before, Scanned(l, id, checkpoint, bound, limit))
    requires after == RepairedAll(before, Scanned(l, id, checkpoint, bound, limit))
    ensures Extends(before, after)
    ensures var (start, upper) := Range(l, id, checkpoint, bound).value;
      && ExactUpTo(l, after, id, first, through, End(start, upper, limit))
      && Range(l, id, End(start, upper, limit), Some(upper)) == Some((End(start, upper, limit), upper))
  {
    RangePresent(l, id, first, through);
    RangePresent(l, id, checkpoint, bound);
    var (from, upper) := Range(l, id, first, through).value;
    var start := Range(l, id, checkpoint, bound).value.0;
    ExactGrows(l, before, after, id, from, start, End(start, upper, limit), upper);
  }

  /** What was exact up to the checkpoint is exact up to the next one. */
  lemma ExactGrows(l: Tables, before: Index, after: Index, id: Uuid, from: nat, start: nat, next: nat, upper: nat)
    requires H.Inv(l) && from <= start <= next <= upper && forall p :: from < p <= upper ==> (id, p) in l.records
    requires Repairable(before, Between(l, id, start, next)) && after == RepairedAll(before, Between(l, id, start, next))
    requires AllExact(before, Between(l, id, from, start))
    ensures AllExact(after, Between(l, id, from, next)) && Extends(before, after)
  {
    var records, done, all := Between(l, id, start, next), Between(l, id, from, start), Between(l, id, from, next);
    BetweenDistinct(l, id, from, next);
    BetweenDistinct(l, id, start, next);
    RepairedAllAdds(before, records);
    RepairedAllExact(before, records);
    forall i | 0 <= i < |all| ensures Exact(after, all[i]) {
      if i < |done| {
        assert all[i] == done[i];
        forall j | 0 <= j < |records| ensures records[j].commit != all[i].commit {
          assert records[j] == all[|done| + j];
        }
        StillConsistent(before, after, records, all[i]);
      } else {
        assert all[i] == records[i - |done|];
      }
    }
  }

  // ---------------------------------------------------------------- repetition and interleaving

  /** Repeating a batch after a lost response changes nothing and reports nothing missing. */
  lemma BatchRepeats(index: Index, records: seq<Record>)
    requires DistinctCommits(records) && Repairable(index, records)
    ensures var once := RepairedAll(index, records);
      Repairable(once, records) && RepairedAll(once, records) == once && LacksAll(once, records) == 0
  {
    RepairedAllExact(index, records);
    var once := RepairedAll(index, records);
    forall i | 0 <= i < |records| ensures Consistent(once, records[i]) {
      assert Exact(once, records[i]);
    }
    NothingLacking(once, records);
  }

  /** Archiving, which adds the rows of a new commit together with its record, disturbs no record already repaired. */
  lemma ArchivingDisturbsNothing(index: Index, records: seq<Record>, r: Record)
    requires AllExact(index, records) && Derived(r).Ok?
    requires forall i :: 0 <= i < |records| ==> records[i].commit != r.commit
    requires forall k :: k in index ==> k.0 != r.commit
    ensures AllExact(Repaired(index, r), records) && Exact(Repaired(index, r), r)
  {
    RepairedIs(index, r);
    FrontStaysExact(index, Repaired(index, r), records, r.commit);
  }
}
