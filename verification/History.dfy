/**
 The append-only history of the forest: which record a branch sees at each position, how
 records are archived, and why nothing a branch sees ever changes.
 */
module History {
  import opened MemoryModel
  import opened Ledger

  // ---------------------------------------------------------------- what a branch sees

  /** The record at `p` as seen from `id`: its own record above the fork, else the parent's. */
  function RecordAt(l: Tables, id: Uuid, p: nat, levels: nat): Option<Record>
    decreases levels, id
  {
    if levels == 0 || id !in l.timelines then None
    else if l.timelines[id].parent.Some? && p <= l.timelines[id].fork then
      RecordAt(l, l.timelines[id].parent.value, p, levels - 1)
    else if (id, p) in l.records then Some(l.records[(id, p)])
    else None
  }

  ghost predicate TimelineOk(l: Tables, id: Uuid)
    requires id in l.timelines
  {
    var t := l.timelines[id];
    && t.fork <= t.durable <= MAX_UINT64
    && (!t.status.Active? ==> t.durable == t.fork)
    && (t.parent.None? ==> t.fork == 0)
    && (t.parent.Some? ==>
          && Resolves(l.timelines, t.parent.value, t.fork, MAX_DEPTH - 1)
          && l.timelines[t.parent.value].complete == t.complete)
  }

  ghost predicate RowOk(l: Tables, id: Uuid, p: nat)
    requires (id, p) in l.records
  {
    && id in l.timelines
    && l.records[(id, p)].timeline == id
    && l.records[(id, p)].position == p
    && Sealed(l.records[(id, p)])
    && (l.timelines[id].fork < p <= l.timelines[id].durable
        || (p == 0 && l.timelines[id].parent.None? && !l.timelines[id].complete))
  }

  /** A timeline owns exactly the positions (fork, durable], and its first record is of the right kind. */
  ghost predicate OwnRecordsOk(l: Tables, id: Uuid)
    requires id in l.timelines
  {
    var t := l.timelines[id];
    && (forall p :: t.fork < p <= t.durable ==> (id, p) in l.records)
    && (t.parent.None? && t.durable > 0 ==>
          if t.complete then (id, 1) in l.records && l.records[(id, 1)].kind.Opening? else (id, 0) in l.records)
  }

  predicate SameIdentity(a: Record, b: Record) {
    a.commit == b.commit || (a.namespace == b.namespace && a.request == b.request)
  }

  ghost predicate UniqueIdentities(l: Tables) {
    forall a, b {:trigger SameIdentity(l.records[a], l.records[b])} ::
      a in l.records && b in l.records && SameIdentity(l.records[a], l.records[b]) ==> a == b
  }

  ghost predicate Inv(l: Tables) {
    && (forall id {:trigger TimelineOk(l, id)} :: id in l.timelines ==> TimelineOk(l, id))
    && (forall id {:trigger OwnRecordsOk(l, id)} :: id in l.timelines ==> OwnRecordsOk(l, id))
    && (forall id, p {:trigger RowOk(l, id, p)} :: (id, p) in l.records ==> RowOk(l, id, p))
    && UniqueIdentities(l)
  }

  /** Every active timeline resolves at every position from its fork to its durable mark. */
  lemma ActiveResolves(l: Tables, id: Uuid, through: nat)
    requires Inv(l) && id in l.timelines && l.timelines[id].status.Active?
    requires l.timelines[id].fork <= through <= l.timelines[id].durable
    ensures Resolves(l.timelines, id, through, MAX_DEPTH)
  {
    assert TimelineOk(l, id);
  }

  /** No gap: a resolving path shows a record at every position from 1 up. */
  lemma {:induction false} SeenEverywhere(l: Tables, id: Uuid, through: nat, levels: nat, p: nat)
    requires Inv(l) && Resolves(l.timelines, id, through, levels)
    requires 0 < p <= through
    ensures RecordAt(l, id, p, levels).Some?
    ensures RecordAt(l, id, p, levels).value.position == p
    decreases levels
  {
    var t := l.timelines[id];
    assert TimelineOk(l, id) && OwnRecordsOk(l, id);
    if t.parent.Some? && p <= t.fork {
      SeenEverywhere(l, t.parent.value, t.fork, levels - 1, p);
    } else {
      assert (id, p) in l.records && RowOk(l, id, p);
    }
  }

  /** Allowing more levels than a path needs shows the same records. */
  lemma {:induction false} SeenFuel(l: Tables, id: Uuid, through: nat, p: nat, a: nat, b: nat)
    requires Resolves(l.timelines, id, through, a) && Resolves(l.timelines, id, through, b)
    ensures RecordAt(l, id, p, a) == RecordAt(l, id, p, b)
    decreases a
  {
    var t := l.timelines[id];
    if t.parent.Some? {
      SeenFuel(l, t.parent.value, t.fork, p, a - 1, b - 1);
    }
  }

  // ---------------------------------------------------------------- reading a path

  /** The rows a query for one segment returns, in position order. */
  function SegmentRows(l: Tables, s: Segment): seq<Record>
    requires forall p :: s.lower < p <= s.upper ==> (s.timeline, p) in l.records
  {
    (if s.includeZero && (s.timeline, 0) in l.records then [l.records[(s.timeline, 0)]] else [])
    + (if s.lower < s.upper
       then seq(s.upper - s.lower, i requires 0 <= i < s.upper - s.lower => l.records[(s.timeline, s.lower + 1 + i)])
       else [])
  }

  ghost predicate Readable(l: Tables, ss: seq<Segment>) {
    forall s, p :: s in ss && s.lower < p <= s.upper ==> (s.timeline, p) in l.records
  }

  ghost function Read(l: Tables, ss: seq<Segment>): seq<Record>
    requires Readable(l, ss)
  {
    if ss == [] then [] else Read(l, ss[..|ss| - 1]) + SegmentRows(l, ss[|ss| - 1])
  }

  ghost function Baseline(l: Tables, id: Uuid, levels: nat): seq<Record> {
    if RecordAt(l, id, 0, levels).Some? then [RecordAt(l, id, 0, levels).value] else []
  }

  ghost predicate Seen(l: Tables, id: Uuid, through: nat, levels: nat) {
    forall p :: 0 < p <= through ==> RecordAt(l, id, p, levels).Some?
  }

  /** The numbered part of a view. */
  ghost function Numbered(l: Tables, id: Uuid, through: nat, levels: nat): (r: seq<Record>)
    requires Seen(l, id, through, levels)
  {
    seq(through, i requires 0 <= i < through => RecordAt(l, id, i + 1, levels).value)
  }

  /** The recursive view: the imported baseline if there is one, then what is seen at 1, 2, ..., through. */
  ghost function View(l: Tables, id: Uuid, through: nat, levels: nat): seq<Record>
    requires Seen(l, id, through, levels)
  {
    Baseline(l, id, levels) + Numbered(l, id, through, levels)
  }

  lemma PathReadable(l: Tables, id: Uuid, through: nat, levels: nat)
    requires Inv(l) && Resolves(l.timelines, id, through, levels)
    ensures Readable(l, Segments(l.timelines, id, through, levels))
    ensures Seen(l, id, through, levels)
  {
    var ss := Segments(l.timelines, id, through, levels);
    PathTiles(l.timelines, id, through, levels);
    forall s, p | s in ss && s.lower < p <= s.upper ensures (s.timeline, p) in l.records {
      var i :| 0 <= i < |ss| && ss[i] == s;
      SegmentPrefix(l.timelines, id, through, levels, i);
      SegmentsLength(l.timelines, s.timeline, s.upper, levels);
      assert ss[..i + 1][i] == s;
      assert s == OwnSegment(l.timelines, s.timeline, s.upper);
      assert OwnRecordsOk(l, s.timeline);
    }
    forall p | 0 < p <= through ensures RecordAt(l, id, p, levels).Some? {
      SeenEverywhere(l, id, through, levels, p);
    }
  }

  lemma RootView(l: Tables, id: Uuid, through: nat, levels: nat)
    requires Inv(l) && Resolves(l.timelines, id, through, levels) && l.timelines[id].parent.None?
    requires Readable(l, [OwnSegment(l.timelines, id, through)])
    requires Seen(l, id, through, levels)
    ensures SegmentRows(l, OwnSegment(l.timelines, id, through)) == View(l, id, through, levels)
  {
    if (id, 0) in l.records {
      assert RowOk(l, id, 0);
    }
  }

  lemma ChildView(l: Tables, id: Uuid, parent: Uuid, fork: nat, through: nat, levels: nat)
    requires levels > 0 && id in l.timelines && l.timelines[id].parent == Some(parent) && l.timelines[id].fork == fork <= through
    requires Seen(l, id, through, levels) && Seen(l, parent, fork, levels - 1)
    requires forall p :: fork < p <= through ==> (id, p) in l.records
    ensures View(l, id, through, levels) == View(l, parent, fork, levels - 1) + SegmentRows(l, Segment(id, fork, through, false))
  {
    var rows := SegmentRows(l, Segment(id, fork, through, false));
    var all, up := Numbered(l, id, through, levels), Numbered(l, parent, fork, levels - 1);
    forall i | 0 <= i < through ensures all[i] == (up + rows)[i] {
      if i < fork {
        assert RecordAt(l, id, i + 1, levels) == RecordAt(l, parent, i + 1, levels - 1);
      } else {
        assert rows[i - fork] == l.records[(id, i + 1)];
      }
    }
    assert all == up + rows;
  }

  /** Concatenating the segments' rows gives exactly the recursive view. */
  lemma {:induction false} PathReadsView(l: Tables, id: Uuid, through: nat, levels: nat)
    requires Inv(l) && Resolves(l.timelines, id, through, levels)
    ensures Readable(l, Segments(l.timelines, id, through, levels))
    ensures Seen(l, id, through, levels)
    ensures Read(l, Segments(l.timelines, id, through, levels)) == View(l, id, through, levels)
    decreases levels
  {
    var t := l.timelines[id];
    var ss := Segments(l.timelines, id, through, levels);
    PathReadable(l, id, through, levels);
    var own := OwnSegment(l.timelines, id, through);
    assert ss[|ss| - 1] == own;
    assert Readable(l, [own]);
    if t.parent.Some? {
      var p := t.parent.value;
      PathReadsView(l, p, t.fork, levels - 1);
      assert ss[..|ss| - 1] == Segments(l.timelines, p, t.fork, levels - 1);
      ChildView(l, id, p, t.fork, through, levels);
    } else {
      assert ss[..|ss| - 1] == [];
      assert Read(l, []) == [];
      RootView(l, id, through, levels);
    }
  }

  // ---------------------------------------------------------------- transactions

  predicate Unused(l: Tables, r: Record) {
    forall k :: k in l.records ==> !SameIdentity(l.records[k], r)
  }

  predicate ReplayOf(l: Tables, r: Record) {
    forall k :: k in l.records && SameIdentity(l.records[k], r) ==> l.records[k] == r
  }

  /** Key events are derived when the record is archived: at most eight, none of them empty. */
  predicate EventsOk(r: Record) {
    r.kind.Action? ==> |r.payload.events| <= MAX_EVENTS && "" !in r.payload.events
  }

  predicate FitsBaseline(l: Tables, r: Record)
    requires r.timeline in l.timelines
  {
    var t := l.timelines[r.timeline];
    t.parent.None? && !t.complete && t.durable == 0
  }

  predicate FitsRoot(l: Tables, r: Record)
    requires r.timeline in l.timelines
  {
    var t := l.timelines[r.timeline];
    && (r.kind.Opening? ==> t.parent.None? && t.complete && r.position == 1)
    && (t.parent.None? && t.complete && r.position == 1 ==> r.kind.Opening?)
  }

  function Insert(l: Tables, r: Record): Tables
    requires r.timeline in l.timelines
  {
    var t := l.timelines[r.timeline];
    Tables(if r.position > 0 then l.timelines[r.timeline := t.(durable := r.position)] else l.timelines,
           l.records[(r.timeline, r.position) := r])
  }

  /** The archive transaction: `Ok(true)` inserted, `Ok(false)` replayed, otherwise nothing changed. */
  function Archived(l: Tables, r: Record): (Tables, Result<bool>) {
    if !Sealed(r) then (l, Err(Invalid))
    else if r.timeline !in l.timelines then (l, Err(NotFound))
    else if !l.timelines[r.timeline].status.Active? then (l, Err(Branch))
    else if !Unused(l, r) then
      (l, if !ReplayOf(l, r) then Err(Conflict)
          else if r.position > l.timelines[r.timeline].durable then Err(Gap) else Ok(false))
    else if r.kind.LegacyBaseline? && !FitsBaseline(l, r) then (l, Err(Branch))
    else if !r.kind.LegacyBaseline? && r.position != l.timelines[r.timeline].durable + 1 then (l, Err(Gap))
    else if !FitsRoot(l, r) then (l, Err(Branch))
    else if r.position == 1 && l.timelines[r.timeline].parent.None? && !l.timelines[r.timeline].complete
         && (r.timeline, 0) !in l.records then (l, Err(Gap))
    else if !EventsOk(r) then (l, Err(Invalid))
    else if (r.timeline, r.position) in l.records then (l, Err(Conflict))
    else (Insert(l, r), Ok(true))
  }

  /** What a new branch must satisfy before its prepared row is created. */
  predicate BranchAdmitted(l: Tables, id: Uuid, t: Timeline) {
    && id !in l.timelines
    && t.status.Prepared? && t.durable == t.fork
    && (t.parent.None? ==> t.fork == 0)
    && (t.parent.Some? ==>
          && Resolves(l.timelines, t.parent.value, t.fork, MAX_DEPTH)
          && |Segments(l.timelines, t.parent.value, t.fork, MAX_DEPTH)| < MAX_DEPTH
          && l.timelines[t.parent.value].complete == t.complete)
  }

  function WithBranch(l: Tables, id: Uuid, t: Timeline): Tables {
    if BranchAdmitted(l, id, t) then l.(timelines := l.timelines[id := t]) else l
  }

  function WithStatus(l: Tables, id: Uuid, to: TimelineStatus): Tables {
    if id in l.timelines && l.timelines[id].status.Prepared?
    then l.(timelines := l.timelines[id := l.timelines[id].(status := to)]) else l
  }

  datatype Step =
    | AddBranch(id: Uuid, branch: Timeline)
    | Settle(id: Uuid, to: TimelineStatus)
    | Archive(record: Record)

  function Next(l: Tables, s: Step): Tables {
    match s
    case AddBranch(id, t) => WithBranch(l, id, t)
    case Settle(id, to) => WithStatus(l, id, to)
    case Archive(r) => Archived(l, r).0
  }

  function Run(l: Tables, steps: seq<Step>): Tables
    decreases |steps|
  {
    if steps == [] then l else Run(Next(l, steps[0]), steps[1..])
  }

  // ---------------------------------------------------------------- growth

  /** `m` keeps everything `l` has: rows are immutable, active timelines only gain records. */
  ghost predicate Grows(l: Tables, m: Tables) {
    && (forall k :: k in l.records ==> k in m.records && m.records[k] == l.records[k])
    && (forall id :: id in l.timelines ==> id in m.timelines && TimelineGrows(l.timelines[id], m.timelines[id]))
  }

  predicate TimelineGrows(a: Timeline, b: Timeline) {
    && b == a.(durable := b.durable, status := b.status)
    && a.durable <= b.durable
    && (a.status.Active? ==> b.status.Active?)
  }

  lemma {:induction false} ResolvesGrows(l: Tables, m: Tables, id: Uuid, through: nat, levels: nat)
    requires Grows(l, m) && Resolves(l.timelines, id, through, levels)
    ensures Resolves(m.timelines, id, through, levels)
    ensures Segments(m.timelines, id, through, levels) == Segments(l.timelines, id, through, levels)
    decreases levels
  {
    if l.timelines[id].parent.Some? {
      ResolvesGrows(l, m, l.timelines[id].parent.value, l.timelines[id].fork, levels - 1);
    }
  }

  /** What a branch has seen at a position it sees for ever. */
  lemma {:induction false} SeenGrows(l: Tables, m: Tables, id: Uuid, through: nat, p: nat, levels: nat)
    requires Grows(l, m) && Resolves(l.timelines, id, through, levels) && RecordAt(l, id, p, levels).Some?
    ensures RecordAt(m, id, p, levels) == RecordAt(l, id, p, levels)
    decreases levels
  {
    if l.timelines[id].parent.Some? && p <= l.timelines[id].fork {
      SeenGrows(l, m, l.timelines[id].parent.value, l.timelines[id].fork, p, levels - 1);
    }
  }

  lemma TimelineKept(l: Tables, m: Tables, id: Uuid)
    requires Inv(l) && Grows(l, m) && id in l.timelines
    requires m.timelines[id].durable == l.timelines[id].durable
    ensures TimelineOk(m, id) && OwnRecordsOk(m, id)
  {
    assert TimelineOk(l, id) && OwnRecordsOk(l, id);
    var t := l.timelines[id];
    if t.parent.Some? {
      ResolvesGrows(l, m, t.parent.value, t.fork, MAX_DEPTH - 1);
      assert m.timelines[t.parent.value].complete == l.timelines[t.parent.value].complete;
    }
  }

  lemma RowKept(l: Tables, m: Tables, id: Uuid, p: nat)
    requires Inv(l) && Grows(l, m) && (id, p) in l.records
    ensures RowOk(m, id, p)
  {
    assert RowOk(l, id, p);
  }

  lemma NoNewRowsKeepInv(l: Tables, m: Tables)
    requires Inv(l) && Grows(l, m) && m.records == l.records
    requires forall o :: o in l.timelines ==> m.timelines[o].durable == l.timelines[o].durable
    requires forall o :: o in m.timelines && o !in l.timelines ==> TimelineOk(m, o) && OwnRecordsOk(m, o)
    ensures Inv(m)
  {
    forall o | o in m.timelines ensures TimelineOk(m, o) && OwnRecordsOk(m, o) {
      if o in l.timelines {
        TimelineKept(l, m, o);
      }
    }
    forall o, p | (o, p) in m.records ensures RowOk(m, o, p) {
      RowKept(l, m, o, p);
    }
  }

  lemma NewBranchOk(l: Tables, id: Uuid, t: Timeline)
    requires Inv(l) && BranchAdmitted(l, id, t)
    requires Grows(l, WithBranch(l, id, t))
    ensures TimelineOk(WithBranch(l, id, t), id) && OwnRecordsOk(WithBranch(l, id, t), id)
  {
    if t.parent.Some? {
      SegmentsFuel(l.timelines, t.parent.value, t.fork, MAX_DEPTH, MAX_DEPTH - 1);
      ResolvesGrows(l, WithBranch(l, id, t), t.parent.value, t.fork, MAX_DEPTH - 1);
      assert TimelineOk(l, t.parent.value);
    } else {
      assert t.durable == 0;
    }
  }

  lemma BranchKeepsInv(l: Tables, id: Uuid, t: Timeline)
    requires Inv(l)
    ensures Inv(WithBranch(l, id, t)) && Grows(l, WithBranch(l, id, t))
  {
    var m := WithBranch(l, id, t);
    assert Grows(l, m);
    if BranchAdmitted(l, id, t) {
      NewBranchOk(l, id, t);
    }
    NoNewRowsKeepInv(l, m);
  }

  lemma SettleKeepsInv(l: Tables, id: Uuid, to: TimelineStatus)
    requires Inv(l)
    ensures Inv(WithStatus(l, id, to)) && Grows(l, WithStatus(l, id, to))
  {
    var m := WithStatus(l, id, to);
    assert Grows(l, m);
    NoNewRowsKeepInv(l, m);
  }

  lemma InsertGrows(l: Tables, r: Record)
    requires Inv(l) && Archived(l, r).1 == Ok(true)
    ensures Archived(l, r).0 == Insert(l, r) && Grows(l, Insert(l, r))
  {
    assert TimelineOk(l, r.timeline);
  }

  lemma InsertKeepsOwner(l: Tables, r: Record)
    requires Inv(l) && Archived(l, r).1 == Ok(true) && r.position != 0
    ensures TimelineOk(Insert(l, r), r.timeline) && OwnRecordsOk(Insert(l, r), r.timeline)
  {
    var m, o := Insert(l, r), r.timeline;
    InsertGrows(l, r);
    assert TimelineOk(l, o) && OwnRecordsOk(l, o);
    var t := l.timelines[o];
    assert m.timelines[o] == t.(durable := t.durable + 1);
    if t.parent.Some? {
      ResolvesGrows(l, m, t.parent.value, t.fork, MAX_DEPTH - 1);
      assert TimelineOk(m, o);
    }
    if t.durable == 0 && t.parent.None? {
      assert r.position == 1;
    }
  }

  lemma InsertKeepsTimelines(l: Tables, r: Record, o: Uuid)
    requires Inv(l) && Archived(l, r).1 == Ok(true) && o in l.timelines
    ensures TimelineOk(Insert(l, r), o) && OwnRecordsOk(Insert(l, r), o)
  {
    InsertGrows(l, r);
    if o == r.timeline && r.position != 0 {
      InsertKeepsOwner(l, r);
    } else {
      TimelineKept(l, Insert(l, r), o);
    }
  }

  lemma InsertKeepsRows(l: Tables, r: Record, o: Uuid, p: nat)
    requires Inv(l) && Archived(l, r).1 == Ok(true) && (o, p) in Insert(l, r).records
    ensures RowOk(Insert(l, r), o, p)
  {
    InsertGrows(l, r);
    assert TimelineOk(l, r.timeline);
    if (o, p) in l.records {
      RowKept(l, Insert(l, r), o, p);
    }
  }

  lemma InsertKeepsIdentities(l: Tables, r: Record)
    requires UniqueIdentities(l) && r.timeline in l.timelines && Unused(l, r) && (r.timeline, r.position) !in l.records
    ensures UniqueIdentities(Insert(l, r))
  {
  }

  lemma ArchiveKeepsInv(l: Tables, r: Record)
    requires Inv(l)
    ensures Inv(Archived(l, r).0) && Grows(l, Archived(l, r).0)
  {
    var m := Archived(l, r).0;
    if Archived(l, r).1 == Ok(true) {
      InsertGrows(l, r);
      forall o | o in m.timelines ensures TimelineOk(m, o) && OwnRecordsOk(m, o) {
        InsertKeepsTimelines(l, r, o);
      }
      forall o, p | (o, p) in m.records ensures RowOk(m, o, p) {
        InsertKeepsRows(l, r, o, p);
      }
      InsertKeepsIdentities(l, r);
    }
  }

  lemma NextKeepsInv(l: Tables, s: Step)
    requires Inv(l)
    ensures Inv(Next(l, s)) && Grows(l, Next(l, s))
  {
    match s
    case AddBranch(id, t) => BranchKeepsInv(l, id, t);
    case Settle(id, to) => SettleKeepsInv(l, id, to);
    case Archive(r) => ArchiveKeepsInv(l, r);
  }

  /** Over every run the forest stays well formed and only grows. */
  lemma {:induction false} RunKeepsInv(l: Tables, steps: seq<Step>)
    requires Inv(l)
    ensures Inv(Run(l, steps)) && Grows(l, Run(l, steps))
    decreases |steps|
  {
    if steps != [] {
      NextKeepsInv(l, steps[0]);
      RunKeepsInv(Next(l, steps[0]), steps[1..]);
    }
  }

  /**
   Branch isolation: whatever is archived, forked, published or aborted later, anywhere in the
   forest, an active branch keeps resolving and keeps seeing the same record at every position.
   */
  lemma BranchIsolation(l: Tables, steps: seq<Step>, id: Uuid, through: nat, p: nat)
    requires Inv(l)
    requires id in l.timelines && l.timelines[id].status.Active?
    requires l.timelines[id].fork <= through <= l.timelines[id].durable
    requires RecordAt(l, id, p, MAX_DEPTH).Some?
    ensures var m := Run(l, steps);
      && Resolves(m.timelines, id, through, MAX_DEPTH)
      && Resolves(l.timelines, id, through, MAX_DEPTH)
      && Segments(m.timelines, id, through, MAX_DEPTH) == Segments(l.timelines, id, through, MAX_DEPTH)
      && RecordAt(m, id, p, MAX_DEPTH) == RecordAt(l, id, p, MAX_DEPTH)
  {
    ActiveResolves(l, id, through);
    RunKeepsInv(l, steps);
    ResolvesGrows(l, Run(l, steps), id, through, MAX_DEPTH);
    SeenGrows(l, Run(l, steps), id, through, p, MAX_DEPTH);
  }

  // ---------------------------------------------------------------- views under growth

  /** The baseline exists wherever a path would include it. */
  ghost predicate Whole(l: Tables, s: Segment) {
    s.includeZero ==> (s.timeline, 0) in l.records
  }

  lemma {:induction false} BaselinePosition(l: Tables, id: Uuid, levels: nat)
    requires Inv(l) && RecordAt(l, id, 0, levels).Some?
    ensures RecordAt(l, id, 0, levels).value.position == 0
    decreases levels
  {
    if l.timelines[id].parent.Some? {
      BaselinePosition(l, l.timelines[id].parent.value, levels - 1);
    } else {
      assert RowOk(l, id, 0);
    }
  }

  lemma {:induction false} BaselineAtRoot(l: Tables, id: Uuid, through: nat, levels: nat)
    requires Resolves(l.timelines, id, through, levels)
    ensures var root := Segments(l.timelines, id, through, levels)[0].timeline;
      RecordAt(l, id, 0, levels) == if (root, 0) in l.records then Some(l.records[(root, 0)]) else None
    decreases levels
  {
    if l.timelines[id].parent.Some? {
      BaselineAtRoot(l, l.timelines[id].parent.value, l.timelines[id].fork, levels - 1);
    }
  }

  /** A baseline row only ever exists where its path asks for it. */
  lemma BaselineWanted(l: Tables, id: Uuid, through: nat, levels: nat)
    requires Inv(l) && Resolves(l.timelines, id, through, levels)
    ensures var root := Segments(l.timelines, id, through, levels)[0]; (root.timeline, 0) in l.records ==> root.includeZero
  {
    PathTiles(l.timelines, id, through, levels);
    var root := Segments(l.timelines, id, through, levels)[0];
    if (root.timeline, 0) in l.records {
      assert RowOk(l, root.timeline, 0);
    }
  }

  lemma BaselineKept(l: Tables, m: Tables, id: Uuid, through: nat, levels: nat)
    requires Inv(l) && Inv(m) && Grows(l, m)
    requires Resolves(l.timelines, id, through, levels)
    requires Whole(l, Segments(l.timelines, id, through, levels)[0])
    ensures Baseline(m, id, levels) == Baseline(l, id, levels)
  {
    ResolvesGrows(l, m, id, through, levels);
    BaselineAtRoot(l, id, through, levels);
    BaselineAtRoot(m, id, through, levels);
    BaselineWanted(m, id, through, levels);
  }

  /** A view that has its baseline is frozen: growth never changes it. */
  lemma ViewKept(l: Tables, m: Tables, id: Uuid, through: nat, levels: nat)
    requires Inv(l) && Inv(m) && Grows(l, m)
    requires Resolves(l.timelines, id, through, levels) && Seen(l, id, through, levels)
    requires Whole(l, Segments(l.timelines, id, through, levels)[0])
    ensures Resolves(m.timelines, id, through, levels) && Seen(m, id, through, levels)
    ensures View(m, id, through, levels) == View(l, id, through, levels)
  {
    ResolvesGrows(l, m, id, through, levels);
    BaselineKept(l, m, id, through, levels);
    forall p | 0 < p <= through ensures RecordAt(m, id, p, levels) == RecordAt(l, id, p, levels) {
      SeenGrows(l, m, id, through, p, levels);
    }
    assert Numbered(m, id, through, levels) == Numbered(l, id, through, levels);
  }
}
