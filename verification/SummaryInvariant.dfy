/**
 What the summary chain keeps over every run: each summary covers exactly the view up to its
 watermark, versions rise by one and watermarks rise, and an open job continues the chain's end.
 */
module SummaryInvariant {
  import opened MemoryModel
  import opened Ledger
  import H = History
  import opened Summaries

  // ---------------------------------------------------------------- the invariant

  /** The summary a branch starts from: all that is visible at its fork. */
  function Below(s: Room, id: Uuid): Summary
    requires id in s.tables.timelines
  {
    if Inherited(s, id).Some? then Inherited(s, id).value
    else if s.tables.timelines[id].parent.Some? then
      var up := Nearest(s, s.tables.timelines[id].parent.value, s.tables.timelines[id].fork, MAX_DEPTH - 1);
      if up.Some? then up.value else Initial(s.tables, id, MAX_DEPTH)
    else Initial(s.tables, id, MAX_DEPTH)
  }

  /** The end of a branch's chain. */
  function Last(s: Room, id: Uuid): Summary
    requires id in s.tables.timelines
  {
    if Rows(s, id) == [] then Below(s, id) else Rows(s, id)[|Rows(s, id)| - 1]
  }

  /** A text that covers exactly what the branch shows up to its watermark. */
  ghost predicate Covers(l: Tables, id: Uuid, x: Summary) {
    H.Seen(l, id, x.through, MAX_DEPTH) && x.covered == CoveredTo(l, id, x.through, MAX_DEPTH)
  }

  /** `b` is the next summary after `a`. */
  predicate Succeeds(a: Summary, b: Summary) {
    b.version == a.version + 1 && a.through < b.through
  }

  predicate Chained(rows: seq<Summary>) {
    forall i {:trigger rows[i]} :: 0 < i < |rows| ==> Succeeds(rows[i - 1], rows[i])
  }

  ghost predicate RowOk(l: Tables, id: Uuid, x: Summary)
    requires id in l.timelines
  {
    x.timeline == id && 0 < x.through <= l.timelines[id].durable && Covers(l, id, x)
  }

  ghost predicate RowsOk(s: Room, id: Uuid)
    requires id in s.tables.timelines
  {
    var rows := Rows(s, id);
    && (forall i {:trigger rows[i]} :: 0 <= i < |rows| ==> RowOk(s.tables, id, rows[i]))
    && Chained(rows)
    && (rows != [] ==> s.tables.timelines[id].status.Active? && Succeeds(Below(s, id), rows[0]))
  }

  ghost predicate SaveOk(l: Tables, save: Save) {
    save.summary.Some? ==>
      && save.timeline.Some? && save.position.Some? && save.timeline.value in l.timelines
      && var t := l.timelines[save.timeline.value];
         && t.status.Active? && t.fork <= save.position.value <= t.durable
         && save.summary.value.through <= save.position.value
         && Covers(l, save.timeline.value, save.summary.value)
  }

  /** A branch stands at the save it was loaded from, and an inherited history is never without its baseline. */
  ghost predicate BranchOk(s: Room, id: Uuid)
    requires id in s.tables.timelines
  {
    var t := s.tables.timelines[id];
    && (t.originSave.Some? ==> t.originSave.value in s.saves)
    && (Inherited(s, id).Some? ==>
          && t.parent.Some?
          && s.saves[t.originSave.value].timeline == t.parent && s.saves[t.originSave.value].position == Some(t.fork))
    && (t.parent.Some? ==> Based(s.tables, id))
  }

  /** A job holds exactly the records between its watermarks, at most a page of them, and their text. */
  ghost predicate WorkShape(l: Tables, w: Work) {
    && w.timeline in l.timelines && l.timelines[w.timeline].status.Active?
    && w.from < w.through <= l.timelines[w.timeline].durable
    && H.Seen(l, w.timeline, w.through, MAX_DEPTH)
    && w.source == Between(l, w.timeline, w.from, w.through, MAX_DEPTH) && |w.source| <= SOURCE_LIMIT
    && Messages(w.source) == Ok(w.messages) && w.messages != []
  }

  /** A finished job lies behind the end of its branch's chain; an open one continues from that end. */
  ghost predicate WorkOk(s: Room, w: Work) {
    && WorkShape(s.tables, w)
    && (if w.status.Done? then w.expected < Last(s, w.timeline).version
        else Continues(w, Last(s, w.timeline)))
  }

  predicate Continues(w: Work, x: Summary) {
    w.expected == x.version && w.from == x.through && w.previous == x.content
  }

  ghost predicate UniqueWorks(s: Room) {
    forall a, b {:trigger s.works[a], s.works[b]} :: a in s.works && b in s.works ==>
      s.works[a].timeline == s.works[b].timeline && s.works[a].expected == s.works[b].expected ==> a == b
  }

  /** The active branch is a leaf: loading always moves on to a new branch. */
  ghost predicate ActiveOk(s: Room) {
    s.active.Some? ==>
      && s.active.value in s.tables.timelines && s.tables.timelines[s.active.value].status.Active?
      && Leaf(s.tables, s.active.value)
  }

  ghost predicate Leaf(l: Tables, id: Uuid) {
    forall o :: o in l.timelines ==> l.timelines[o].parent != Some(id)
  }

  ghost predicate Inv(s: Room) {
    && H.Inv(s.tables)
    && (forall id {:trigger RowsOk(s, id)} :: id in s.tables.timelines ==> RowsOk(s, id))
    && (forall id :: id in s.summaries ==> id in s.tables.timelines)
    && (forall n {:trigger SaveOk(s.tables, s.saves[n])} :: n in s.saves ==> SaveOk(s.tables, s.saves[n]))
    && (forall id {:trigger BranchOk(s, id)} :: id in s.tables.timelines ==> BranchOk(s, id))
    && (forall key {:trigger WorkOk(s, s.works[key])} :: key in s.works ==> WorkOk(s, s.works[key]))
    && UniqueWorks(s) && ActiveOk(s)
  }

  // ---------------------------------------------------------------- what summaryAt finds

  lemma {:induction false} HighestSound(rows: seq<Summary>, upper: nat)
    ensures Highest(rows, upper).Some? ==> Highest(rows, upper).value in rows && Highest(rows, upper).value.through <= upper
  {
    if rows != [] {
      HighestSound(rows[..|rows| - 1], upper);
    }
  }

  /** In a chain the newest row has both the highest version and the highest watermark. */
  lemma {:induction false} ChainEnd(rows: seq<Summary>, upper: nat)
    requires Chained(rows) && rows != []
    ensures Latest(rows) == Some(rows[|rows| - 1])
    ensures rows[|rows| - 1].through <= upper ==> Highest(rows, upper) == Some(rows[|rows| - 1])
  {
    var front := rows[..|rows| - 1];
    if front != [] {
      ChainEnd(front, upper);
      HighestSound(front, upper);
      if Highest(front, upper).Some? {
        ChainBelowEnd(rows, Highest(front, upper).value);
      }
    }
  }

  lemma {:induction false} ChainBelowEnd(rows: seq<Summary>, x: Summary)
    requires Chained(rows) && rows != [] && x in rows[..|rows| - 1]
    ensures x.through < rows[|rows| - 1].through && x.version < rows[|rows| - 1].version
  {
    var front := rows[..|rows| - 1];
    if x != front[|front| - 1] {
      assert x in front[..|front| - 1];
      ChainBelowEnd(front, x);
    }
    assert rows[|rows| - 1 - 1] == front[|front| - 1];
  }

  /** Seen through a parent, the same records below the fork. */
  lemma ParentShows(l: Tables, id: Uuid, t: nat, a: nat, b: nat)
    requires a > 0 && id in l.timelines && l.timelines[id].parent.Some? && t <= l.timelines[id].fork
    requires Resolves(l.timelines, l.timelines[id].parent.value, l.timelines[id].fork, a - 1)
    requires Resolves(l.timelines, l.timelines[id].parent.value, l.timelines[id].fork, b)
    requires H.Seen(l, l.timelines[id].parent.value, t, b)
    ensures H.Seen(l, id, t, a) && CoveredTo(l, id, t, a) == CoveredTo(l, l.timelines[id].parent.value, t, b)
  {
    var parent, fork := l.timelines[id].parent.value, l.timelines[id].fork;
    forall p | 0 <= p <= t ensures H.RecordAt(l, id, p, a) == H.RecordAt(l, parent, p, b) {
      H.SeenFuel(l, parent, fork, p, a - 1, b);
    }
    assert H.Numbered(l, id, t, a) == H.Numbered(l, parent, t, b);
  }

  lemma LevelsShow(l: Tables, id: Uuid, upper: nat, t: nat, a: nat, b: nat)
    requires Resolves(l.timelines, id, upper, a) && Resolves(l.timelines, id, upper, b) && H.Seen(l, id, t, b)
    ensures H.Seen(l, id, t, a) && CoveredTo(l, id, t, a) == CoveredTo(l, id, t, b)
  {
    forall p | 0 <= p <= t ensures H.RecordAt(l, id, p, a) == H.RecordAt(l, id, p, b) {
      H.SeenFuel(l, id, upper, p, a, b);
    }
    assert H.Numbered(l, id, t, a) == H.Numbered(l, id, t, b);
  }

  /** Whatever summaryAt finds lies at or below the mark and covers exactly the view up to its own. */
  lemma {:induction false} NearestCovers(s: Room, id: Uuid, upper: nat, levels: nat)
    requires Inv(s) && Resolves(s.tables.timelines, id, upper, levels)
    ensures var x := Nearest(s, id, upper, levels);
      x.Some? ==>
        && x.value.through <= upper && H.Seen(s.tables, id, x.value.through, levels)
        && x.value.covered == CoveredTo(s.tables, id, x.value.through, levels)
    decreases levels
  {
    var l := s.tables;
    var t := l.timelines[id];
    H.ActiveResolves(l, id, upper);
    if Highest(Rows(s, id), upper).Some? {
      var x := Highest(Rows(s, id), upper).value;
      HighestSound(Rows(s, id), upper);
      assert RowsOk(s, id);
      LevelsShow(l, id, upper, x.through, levels, MAX_DEPTH);
    } else if Inherited(s, id).Some? {
      assert BranchOk(s, id) && SaveOk(l, s.saves[t.originSave.value]);
      H.ActiveResolves(l, t.parent.value, t.fork);
      ParentShows(l, id, Inherited(s, id).value.through, levels, MAX_DEPTH);
    } else if t.parent.Some? {
      NearestCovers(s, t.parent.value, t.fork, levels - 1);
      var x := Nearest(s, t.parent.value, t.fork, levels - 1);
      if x.Some? {
        ParentShows(l, id, x.value.through, levels, levels - 1);
      }
    }
  }

  lemma SummaryAtCovers(s: Room, id: Uuid, upper: nat)
    requires Inv(s) && Resolves(s.tables.timelines, id, upper, MAX_DEPTH)
    ensures SummaryAt(s, id, upper, MAX_DEPTH).through <= upper
    ensures Covers(s.tables, id, SummaryAt(s, id, upper, MAX_DEPTH))
  {
    NearestCovers(s, id, upper, MAX_DEPTH);
  }

  /** At any mark that reaches the end of the chain, summaryAt finds that end. */
  lemma SummaryAtEnd(s: Room, id: Uuid, upper: nat)
    requires Inv(s) && id in s.tables.timelines
    requires Last(s, id).through <= upper
    ensures SummaryAt(s, id, upper, MAX_DEPTH) == Last(s, id)
    ensures BaseVersion(s, id, Last(s, id)) == Last(s, id).version
  {
    var rows := Rows(s, id);
    assert RowsOk(s, id);
    if rows != [] {
      ChainEnd(rows, upper);
    }
  }

  // ---------------------------------------------------------------- the ledger grows

  lemma BasedOnceArchived(s: Room, id: Uuid)
    requires Inv(s) && id in s.tables.timelines && s.tables.timelines[id].durable > 0
    ensures Based(s.tables, id)
  {
    assert BranchOk(s, id) && H.OwnRecordsOk(s.tables, id);
  }

  lemma BasedIsWhole(l: Tables, id: Uuid, through: nat)
    requires Based(l, id) && Resolves(l.timelines, id, through, MAX_DEPTH)
    ensures H.Whole(l, Segments(l.timelines, id, through, MAX_DEPTH)[0])
  {
    PathTiles(l.timelines, id, through, MAX_DEPTH);
    H.BaselineAtRoot(l, id, through, MAX_DEPTH);
  }

  predicate SameRecords(l: Tables, m: Tables, id: Uuid, upper: nat, levels: nat) {
    forall p :: 0 <= p <= upper ==> H.RecordAt(m, id, p, levels) == H.RecordAt(l, id, p, levels)
  }

  lemma RecordsKeptAt(l: Tables, m: Tables, id: Uuid, mark: nat, levels: nat)
    requires H.Inv(l) && H.Inv(m) && H.Grows(l, m) && Resolves(l.timelines, id, mark, levels)
    requires H.Whole(l, Segments(l.timelines, id, mark, levels)[0])
    ensures SameRecords(l, m, id, mark, levels)
  {
    H.BaselineKept(l, m, id, mark, levels);
    forall p | 0 <= p <= mark ensures H.RecordAt(m, id, p, levels) == H.RecordAt(l, id, p, levels) {
      if p > 0 {
        H.SeenEverywhere(l, id, mark, levels, p);
        H.SeenGrows(l, m, id, mark, p, levels);
      }
    }
  }

  /** An active branch that has its baseline shows the same record at every position for ever. */
  lemma RecordsKept(l: Tables, m: Tables, id: Uuid)
    requires H.Inv(l) && H.Inv(m) && H.Grows(l, m)
    requires id in l.timelines && l.timelines[id].status.Active? && Based(l, id)
    ensures SameRecords(l, m, id, l.timelines[id].durable, MAX_DEPTH) && Based(m, id)
  {
    var mark := l.timelines[id].durable;
    assert H.TimelineOk(l, id);
    H.ActiveResolves(l, id, mark);
    BasedIsWhole(l, id, mark);
    RecordsKeptAt(l, m, id, mark, MAX_DEPTH);
    assert H.RecordAt(m, id, 0, MAX_DEPTH) == H.RecordAt(l, id, 0, MAX_DEPTH);
  }

  lemma SameCoverage(l: Tables, m: Tables, id: Uuid, upper: nat, t: nat)
    requires SameRecords(l, m, id, upper, MAX_DEPTH) && t <= upper && H.Seen(l, id, t, MAX_DEPTH)
    ensures H.Seen(m, id, t, MAX_DEPTH) && CoveredTo(m, id, t, MAX_DEPTH) == CoveredTo(l, id, t, MAX_DEPTH)
    ensures forall a :: 0 <= a <= t ==> Between(m, id, a, t, MAX_DEPTH) == Between(l, id, a, t, MAX_DEPTH)
  {
    assert H.Numbered(m, id, t, MAX_DEPTH) == H.Numbered(l, id, t, MAX_DEPTH);
  }

  /** Only the ledger differs, and it has grown. */
  ghost predicate Grown(s: Room, n: Room) {
    && n.summaries == s.summaries && n.works == s.works && n.saves == s.saves
    && H.Inv(s.tables) && H.Inv(n.tables) && H.Grows(s.tables, n.tables)
  }

  lemma {:induction false} NearestGrown(s: Room, n: Room, id: Uuid, upper: nat, levels: nat)
    requires Grown(s, n) && id in s.tables.timelines
    ensures Nearest(n, id, upper, levels) == Nearest(s, id, upper, levels)
    decreases levels
  {
    assert H.TimelineOk(s.tables, id);
    if levels > 0 && s.tables.timelines[id].parent.Some? {
      NearestGrown(s, n, s.tables.timelines[id].parent.value, s.tables.timelines[id].fork, levels - 1);
    }
  }

  lemma BelowGrown(s: Room, n: Room, id: Uuid)
    requires Grown(s, n) && id in s.tables.timelines && s.tables.timelines[id].status.Active? && Based(s.tables, id)
    ensures Below(n, id) == Below(s, id)
  {
    RecordsKept(s.tables, n.tables, id);
    assert H.TimelineOk(s.tables, id);
    if s.tables.timelines[id].parent.Some? {
      NearestGrown(s, n, s.tables.timelines[id].parent.value, s.tables.timelines[id].fork, MAX_DEPTH - 1);
    }
    InitialKept(s.tables, n.tables, id);
  }

  lemma InitialKept(l: Tables, m: Tables, id: Uuid)
    requires H.RecordAt(m, id, 0, MAX_DEPTH) == H.RecordAt(l, id, 0, MAX_DEPTH)
    ensures Initial(m, id, MAX_DEPTH) == Initial(l, id, MAX_DEPTH)
  {
  }

  lemma GrownRows(s: Room, n: Room, id: Uuid)
    requires Inv(s) && Grown(s, n) && id in s.tables.timelines
    ensures RowsOk(n, id)
  {
    var rows := Rows(s, id);
    assert RowsOk(s, id);
    if rows != [] {
      assert RowOk(s.tables, id, rows[0]);
      BasedOnceArchived(s, id);
      BelowGrown(s, n, id);
      RecordsKept(s.tables, n.tables, id);
      forall i | 0 <= i < |rows| ensures RowOk(n.tables, id, rows[i]) {
        assert RowOk(s.tables, id, rows[i]);
        SameCoverage(s.tables, n.tables, id, s.tables.timelines[id].durable, rows[i].through);
      }
    }
  }

  lemma GrownSave(s: Room, n: Room, k: nat)
    requires Inv(s) && Grown(s, n) && k in s.saves
    ensures SaveOk(n.tables, s.saves[k])
  {
    var save := s.saves[k];
    assert SaveOk(s.tables, save);
    if save.summary.Some? && save.summary.value.through > 0 {
      BasedOnceArchived(s, save.timeline.value);
      RecordsKept(s.tables, n.tables, save.timeline.value);
      SameCoverage(s.tables, n.tables, save.timeline.value, s.tables.timelines[save.timeline.value].durable, save.summary.value.through);
    }
  }

  lemma GrownBranch(s: Room, n: Room, id: Uuid)
    requires Inv(s) && Grown(s, n) && id in s.tables.timelines
    ensures BranchOk(n, id)
  {
    assert BranchOk(s, id);
    if s.tables.timelines[id].parent.Some? && !s.tables.timelines[id].complete {
      BasedGrows(s.tables, n.tables, id, MAX_DEPTH);
    }
  }

  lemma {:induction false} BasedGrows(l: Tables, m: Tables, id: Uuid, levels: nat)
    requires H.Inv(l) && H.Grows(l, m) && id in l.timelines && H.RecordAt(l, id, 0, levels).Some?
    ensures H.RecordAt(m, id, 0, levels) == H.RecordAt(l, id, 0, levels)
    decreases levels
  {
    assert H.TimelineOk(l, id);
    if l.timelines[id].parent.Some? {
      BasedGrows(l, m, l.timelines[id].parent.value, levels - 1);
    }
  }

  lemma GrownWork(s: Room, n: Room, key: Uuid)
    requires Inv(s) && Grown(s, n) && key in s.works
    ensures WorkOk(n, s.works[key])
  {
    var w := s.works[key];
    assert WorkOk(s, w);
    BasedOnceArchived(s, w.timeline);
    BelowGrown(s, n, w.timeline);
    RecordsKept(s.tables, n.tables, w.timeline);
    SameCoverage(s.tables, n.tables, w.timeline, s.tables.timelines[w.timeline].durable, w.through);
  }

  lemma GrownKeeps(s: Room, n: Room)
    requires Inv(s) && Grown(s, n) && ActiveOk(n)
    requires forall id :: id in n.tables.timelines && id !in s.tables.timelines ==> RowsOk(n, id) && BranchOk(n, id)
    ensures Inv(n)
  {
    forall id | id in n.tables.timelines ensures RowsOk(n, id) && BranchOk(n, id) {
      if id in s.tables.timelines {
        GrownRows(s, n, id);
        GrownBranch(s, n, id);
      }
    }
    forall k | k in n.saves ensures SaveOk(n.tables, n.saves[k]) {
      GrownSave(s, n, k);
    }
    forall key | key in n.works ensures WorkOk(n, n.works[key]) {
      GrownWork(s, n, key);
    }
  }

  lemma ArchiveKeeps(s: Room, r: Record)
    requires Inv(s)
    ensures Inv(Next(s, Archive(r)))
  {
    H.ArchiveKeepsInv(s.tables, r);
    GrownKeeps(s, Next(s, Archive(r)));
  }

  // ---------------------------------------------------------------- a new branch

  lemma OpenedGrows(l: Tables, id: Uuid, t: Timeline)
    requires H.Inv(l) && H.BranchAdmitted(l, id, t)
    ensures var m := Opened(l, id, t);
      && H.Inv(m) && H.Grows(l, m) && m.records == l.records
      && m.timelines == l.timelines[id := t.(status := Active)]
  {
    var b := H.WithBranch(l, id, t);
    H.BranchKeepsInv(l, id, t);
    H.SettleKeepsInv(b, id, Active);
    assert Opened(l, id, t).timelines == l.timelines[id := t.(status := Active)];
  }

  lemma OpenedBased(l: Tables, id: Uuid, t: Timeline)
    requires H.Inv(l) && H.BranchAdmitted(l, id, t) && t.parent.Some? && Based(l, t.parent.value)
    ensures Based(Opened(l, id, t), id)
  {
    OpenedGrows(l, id, t);
    var m := Opened(l, id, t);
    if !t.complete {
      var parent, levels := t.parent.value, MAX_DEPTH - 1;
      SegmentsFuel(l.timelines, parent, t.fork, MAX_DEPTH, levels);
      H.SeenFuel(l, parent, t.fork, 0, MAX_DEPTH, levels);
      BasedGrows(l, m, parent, levels);
      assert H.RecordAt(m, id, 0, MAX_DEPTH) == H.RecordAt(m, parent, 0, levels);
    }
  }

  lemma OpenedLeaf(l: Tables, id: Uuid, t: Timeline)
    requires H.Inv(l) && H.BranchAdmitted(l, id, t)
    ensures Leaf(Opened(l, id, t), id)
  {
    OpenedGrows(l, id, t);
    forall o | o in l.timelines ensures l.timelines[o].parent != Some(id) {
      assert H.TimelineOk(l, o);
    }
  }

  lemma OpenKeeps(s: Room, id: Uuid, t: Timeline)
    requires Inv(s)
    ensures Inv(Next(s, Open(id, t)))
  {
    if MayOpen(s, id, t) {
      var n := Next(s, Open(id, t));
      OpenedGrows(s.tables, id, t);
      OpenedLeaf(s.tables, id, t);
      if t.parent.Some? {
        OpenedBased(s.tables, id, t);
      }
      GrownKeeps(s, n);
    }
  }

  // ---------------------------------------------------------------- summaries, jobs and saves change

  /** The ledger and what branches inherit are the same; at most one leaf's own rows differ. */
  ghost predicate Framed(s: Room, n: Room, changed: Option<Uuid>) {
    && n.tables == s.tables
    && (forall id {:trigger Inherited(n, id)} :: id in s.tables.timelines ==> Inherited(n, id) == Inherited(s, id))
    && (forall id: Uuid {:trigger Rows(n, id)} :: Some(id) != changed ==> Rows(n, id) == Rows(s, id))
    && (changed.Some? ==> Leaf(s.tables, changed.value))
  }

  lemma {:induction false} NearestFramed(s: Room, n: Room, changed: Option<Uuid>, id: Uuid, upper: nat, levels: nat)
    requires Framed(s, n, changed) && Some(id) != changed
    ensures Nearest(n, id, upper, levels) == Nearest(s, id, upper, levels)
    decreases levels
  {
    if levels > 0 && id in s.tables.timelines && s.tables.timelines[id].parent.Some? {
      NearestFramed(s, n, changed, s.tables.timelines[id].parent.value, s.tables.timelines[id].fork, levels - 1);
    }
  }

  lemma BelowFramed(s: Room, n: Room, changed: Option<Uuid>, id: Uuid)
    requires Framed(s, n, changed) && id in s.tables.timelines
    ensures Below(n, id) == Below(s, id)
    ensures Some(id) != changed ==> Last(n, id) == Last(s, id)
  {
    var t := s.tables.timelines[id];
    if t.parent.Some? {
      NearestFramed(s, n, changed, t.parent.value, t.fork, MAX_DEPTH - 1);
    }
  }

  lemma FramedKeeps(s: Room, n: Room)
    requires Inv(s) && Framed(s, n, None) && n.summaries == s.summaries && n.active == s.active
    requires forall k :: k in s.saves ==> k in n.saves
    requires forall k {:trigger n.saves[k]} :: k in n.saves ==> SaveOk(n.tables, n.saves[k]) && (k in s.saves ==> n.saves[k] == s.saves[k])
    requires UniqueWorks(n)
    requires forall key {:trigger n.works[key]} :: key in n.works ==> WorkOk(s, n.works[key])
    ensures Inv(n)
  {
    forall id | id in n.tables.timelines ensures RowsOk(n, id) && BranchOk(n, id) {
      assert RowsOk(s, id) && BranchOk(s, id);
      BelowFramed(s, n, None, id);
    }
    forall key | key in n.works ensures WorkOk(n, n.works[key]) {
      assert WorkOk(s, n.works[key]);
      BelowFramed(s, n, None, n.works[key].timeline);
    }
  }

  lemma SavedFrames(s: Room, k: nat, save: Save)
    requires Inv(s) && k !in s.saves
    ensures Framed(s, s.(saves := s.saves[k := save]), None)
  {
    var n := s.(saves := s.saves[k := save]);
    forall id | id in s.tables.timelines ensures Inherited(n, id) == Inherited(s, id) {
      assert BranchOk(s, id);
    }
  }

  lemma FreezeKeeps(s: Room, k: nat, id: Uuid, position: nat)
    requires Inv(s)
    ensures Inv(Next(s, CreateSave(k, id, position)))
  {
    var n := Next(s, CreateSave(k, id, position));
    if n != s {
      SavedFrames(s, k, n.saves[k]);
      H.ActiveResolves(s.tables, id, position);
      SummaryAtCovers(s, id, position);
      FramedKeeps(s, n);
    }
  }

  lemma ImportKeeps(s: Room, k: nat)
    requires Inv(s)
    ensures Inv(Next(s, ImportSave(k)))
  {
    var n := Next(s, ImportSave(k));
    if n != s {
      SavedFrames(s, k, n.saves[k]);
      FramedKeeps(s, n);
    }
  }

  lemma ReopenKeeps(s: Room, ready: bool, revision: nat)
    requires Inv(s)
    ensures Inv(Next(s, Reopen(ready, revision)))
  {
    FramedKeeps(s, Next(s, Reopen(ready, revision)));
  }

  /** Status (short of completion), owner and revision are no part of what a job promises. */
  lemma JobRelabelled(s: Room, w: Work, status: WorkStatus, owner: Uuid, revision: nat)
    requires WorkOk(s, w) && !w.status.Done? && !status.Done?
    ensures WorkOk(s, w.(status := status, owner := owner, revision := revision))
  {
  }

  lemma LeasedKeeps(s: Room, key: Uuid, owner: Uuid)
    requires Inv(s) && key in s.works && !s.works[key].status.Done?
    ensures Inv(Leased(s, key, s.works[key], owner))
  {
    assert WorkOk(s, s.works[key]);
    JobRelabelled(s, s.works[key], Running, owner, s.revision);
    FramedKeeps(s, Leased(s, key, s.works[key], owner));
  }

  lemma RetryKeeps(s: Room, key: Uuid, owner: Uuid)
    requires Inv(s)
    ensures Inv(Next(s, Retry(key, owner)))
  {
    var n := Next(s, Retry(key, owner));
    if n != s {
      assert WorkOk(s, s.works[key]);
      JobRelabelled(s, s.works[key], Waiting, 0, s.works[key].revision);
      FramedKeeps(s, n);
    }
  }

  // ---------------------------------------------------------------- the chain gets longer

  /** Every other job of the branch is finished business once its chain moves on. */
  ghost predicate PastJob(s: Room, w: Work) {
    WorkShape(s.tables, w) && w.status.Done? && w.expected <= Last(s, w.timeline).version
  }

  lemma AppendedRows(s: Room, n: Room, x: Summary)
    requires Inv(s) && s.active == Some(x.timeline) && n.tables == s.tables && n.saves == s.saves
    requires n.summaries == s.summaries[x.timeline := Rows(s, x.timeline) + [x]]
    requires RowOk(s.tables, x.timeline, x) && Succeeds(Last(s, x.timeline), x)
    ensures Framed(s, n, Some(x.timeline)) && RowsOk(n, x.timeline) && Last(n, x.timeline) == x
  {
    var rows := Rows(s, x.timeline);
    assert RowsOk(s, x.timeline);
    BelowFramed(s, n, Some(x.timeline), x.timeline);
    forall i | 0 < i < |rows + [x]| ensures Succeeds((rows + [x])[i - 1], (rows + [x])[i]) {
      if i < |rows| {
        assert Succeeds(rows[i - 1], rows[i]);
      }
    }
  }

  lemma AppendedKeeps(s: Room, n: Room, x: Summary)
    requires Inv(s) && s.active == Some(x.timeline) == n.active && n.tables == s.tables && n.saves == s.saves
    requires n.summaries == s.summaries[x.timeline := Rows(s, x.timeline) + [x]]
    requires RowOk(s.tables, x.timeline, x) && Succeeds(Last(s, x.timeline), x)
    requires UniqueWorks(n)
    requires forall key {:trigger n.works[key]} :: key in n.works ==>
      if n.works[key].timeline == x.timeline then PastJob(s, n.works[key]) else WorkOk(s, n.works[key])
    ensures Inv(n)
  {
    AppendedRows(s, n, x);
    forall id | id in n.tables.timelines ensures RowsOk(n, id) && BranchOk(n, id) {
      assert RowsOk(s, id) && BranchOk(s, id);
      BelowFramed(s, n, Some(x.timeline), id);
    }
    forall key | key in n.works ensures WorkOk(n, n.works[key]) {
      if n.works[key].timeline != x.timeline {
        BelowFramed(s, n, Some(x.timeline), n.works[key].timeline);
      }
    }
  }

  // ---------------------------------------------------------------- what a claim plans

  lemma EndWithinMark(s: Room, id: Uuid)
    requires Inv(s) && id in s.tables.timelines && s.tables.timelines[id].status.Active?
    ensures var mark := s.tables.timelines[id].durable;
      && Resolves(s.tables.timelines, id, mark, MAX_DEPTH) && H.Seen(s.tables, id, mark, MAX_DEPTH)
      && Last(s, id).through <= mark && Covers(s.tables, id, Last(s, id))
      && SummaryAt(s, id, mark, MAX_DEPTH) == Last(s, id)
      && BaseVersion(s, id, Last(s, id)) == Last(s, id).version
  {
    var mark := s.tables.timelines[id].durable;
    assert H.TimelineOk(s.tables, id) && RowsOk(s, id);
    H.ActiveResolves(s.tables, id, mark);
    H.PathReadable(s.tables, id, mark, MAX_DEPTH);
    if Rows(s, id) == [] {
      SummaryAtCovers(s, id, mark);
    } else {
      assert RowOk(s.tables, id, Last(s, id));
    }
    SummaryAtEnd(s, id, mark);
  }

  /** A nonempty start of what follows a watermark, reaching past the baseline, is what lies up to its last position. */
  lemma PrefixOfBetween(l: Tables, id: Uuid, from: nat, mark: nat, k: nat, levels: nat)
    requires H.Inv(l) && Resolves(l.timelines, id, mark, levels) && H.Seen(l, id, mark, levels) && from <= mark
    requires 0 < k <= |Between(l, id, from, mark, levels)|
    requires !Between(l, id, from, mark, levels)[k - 1].kind.LegacyBaseline?
    ensures var chosen := Between(l, id, from, mark, levels)[..k];
            var through := chosen[k - 1].position;
      from < through <= mark && H.Seen(l, id, through, levels) && chosen == Between(l, id, from, through, levels)
  {
    var all, base := Between(l, id, from, mark, levels), if from == 0 then H.Baseline(l, id, levels) else [];
    if k <= |base| {
      BaselineKind(l, id, levels);
    } else {
      var through := from + k - |base|;
      H.SeenEverywhere(l, id, mark, levels, through);
      assert all[k - 1] == H.Numbered(l, id, mark, levels)[through - 1];
      assert all[..k] == base + H.Numbered(l, id, through, levels)[from..];
    }
  }

  lemma {:induction false} BaselineKind(l: Tables, id: Uuid, levels: nat)
    requires H.Inv(l) && H.RecordAt(l, id, 0, levels).Some?
    ensures H.RecordAt(l, id, 0, levels).value.kind.LegacyBaseline?
    decreases levels
  {
    if l.timelines[id].parent.Some? {
      BaselineKind(l, l.timelines[id].parent.value, levels - 1);
    } else {
      assert H.RowOk(l, id, 0);
    }
  }

  /** A baseline stands first, so a choice that ends in it is the baseline alone. */
  lemma BaselineIsFirst(l: Tables, id: Uuid, from: nat, mark: nat, k: nat, levels: nat)
    requires H.Inv(l) && Resolves(l.timelines, id, mark, levels) && H.Seen(l, id, mark, levels) && from <= mark
    requires 0 < k <= |Between(l, id, from, mark, levels)|
    requires Between(l, id, from, mark, levels)[k - 1].kind.LegacyBaseline?
    ensures k == 1
  {
    var all, base := Between(l, id, from, mark, levels), if from == 0 then H.Baseline(l, id, levels) else [];
    if k > |base| {
      var p := from + k - |base|;
      H.SeenEverywhere(l, id, mark, levels, p);
      assert all[k - 1] == H.RecordAt(l, id, p, levels).value;
      PositionKind(l, id, mark, p, levels);
    }
  }

  lemma {:induction false} PositionKind(l: Tables, id: Uuid, mark: nat, p: nat, levels: nat)
    requires H.Inv(l) && Resolves(l.timelines, id, mark, levels) && 0 < p <= mark && H.RecordAt(l, id, p, levels).Some?
    ensures !H.RecordAt(l, id, p, levels).value.kind.LegacyBaseline?
    decreases levels
  {
    if l.timelines[id].parent.Some? && p <= l.timelines[id].fork {
      PositionKind(l, l.timelines[id].parent.value, l.timelines[id].fork, p, levels - 1);
    } else {
      assert H.RowOk(l, id, p);
    }
  }

  lemma ChosenReaches(records: seq<Record>, trigger: nat)
    requires trigger > 0
    ensures Chosen(records, trigger) <= |records|
    ensures records != [] ==> Chosen(records, trigger) > 0
    ensures Actions(records[..Chosen(records, trigger)]) < trigger ==> Chosen(records, trigger) == |records|
  {
    if !(exists n :: 0 < n <= |records| && Actions(records[..n]) >= trigger) {
      assert records[..|records|] == records;
    }
  }

  /** The baseline alone never makes a job: it is no action, and a full page has more than it. */
  lemma NotTheBaselineAlone(records: seq<Record>, trigger: nat)
    requires trigger > 0 && records != []
    requires var k := Chosen(records, trigger); Actions(records[..k]) >= trigger || |records| == SOURCE_LIMIT
    ensures records[0].kind.LegacyBaseline? ==> Chosen(records, trigger) > 1
  {
    ChosenReaches(records, trigger);
    assert records[..1][..0] == [];
    assert Actions(records[..1]) == if records[0].kind.Action? then 1 else 0;
  }

  function Page(all: seq<Record>): seq<Record> {
    if |all| > SOURCE_LIMIT then all[..SOURCE_LIMIT] else all
  }

  predicate Enough(all: seq<Record>, trigger: nat) {
    |all| > SOURCE_LIMIT || Actions(Page(all)[..Chosen(Page(all), trigger)]) >= trigger
  }

  lemma ChoiceIsPrefix(all: seq<Record>, trigger: nat)
    requires trigger > 0 && Enough(all, trigger)
    ensures var k := Chosen(Page(all), trigger);
      && 0 < k <= |all| && k <= SOURCE_LIMIT && Page(all)[..k] == all[..k]
      && (k == 1 ==> !all[0].kind.LegacyBaseline?)
  {
    ChosenReaches(Page(all), trigger);
    if Page(all) != [] {
      NotTheBaselineAlone(Page(all), trigger);
    }
  }

  /** The first `k` of `all` are exactly what lies between `from` and the position they end at. */
  ghost predicate LinkOk(l: Tables, id: Uuid, from: nat, mark: nat, all: seq<Record>, k: nat, levels: nat) {
    && 0 < k <= |all| && k <= SOURCE_LIMIT
    && var through := all[k - 1].position;
       && from < through <= mark && H.Seen(l, id, through, levels) && H.Seen(l, id, from, levels)
       && all[..k] == Between(l, id, from, through, levels)
       && CoveredTo(l, id, from, levels) + all[..k] == CoveredTo(l, id, through, levels)
  }

  /** What a claim that has enough chooses is everything between its two watermarks. */
  lemma ChoiceIsBetween(l: Tables, id: Uuid, from: nat, mark: nat, trigger: nat, levels: nat)
    requires H.Inv(l) && Resolves(l.timelines, id, mark, levels) && H.Seen(l, id, mark, levels) && from <= mark && trigger > 0
    requires Enough(Between(l, id, from, mark, levels), trigger)
    ensures LinkOk(l, id, from, mark, Between(l, id, from, mark, levels), Chosen(Page(Between(l, id, from, mark, levels)), trigger), levels)
  {
    var all := Between(l, id, from, mark, levels);
    var k := Chosen(Page(all), trigger);
    ChoiceIsPrefix(all, trigger);
    if all[k - 1].kind.LegacyBaseline? {
      BaselineIsFirst(l, id, from, mark, k, levels);
    }
    PrefixOfBetween(l, id, from, mark, k, levels);
    CoverageExtends(l, id, from, all[k - 1].position, levels);
  }

  /** What a plan is made of, whatever the records are. */
  lemma PlanShape(id: Uuid, revision: nat, last: Summary, all: seq<Record>, trigger: nat)
    requires trigger > 0
    ensures var plan, k := PlanOf(id, revision, last.version, last, Page(all), |all| > SOURCE_LIMIT, trigger), Chosen(Page(all), trigger);
      plan.Carry? || plan.Job? ==>
        && Enough(all, trigger) && 0 < k <= |all| && Page(all)[..k] == all[..k]
        && (plan.Carry? ==> plan.summary == Summary(id, last.version + 1, all[k - 1].position, last.content, last.covered + all[..k]))
        && (plan.Job? ==>
              && Messages(all[..k]).Ok? && Messages(all[..k]).value != []
              && plan.work == Work(id, revision, last.version, last.through, all[k - 1].position, last.content, all[..k],
                                   Messages(all[..k]).value, Waiting, 0))
  {
    if Enough(all, trigger) {
      ChoiceIsPrefix(all, trigger);
    }
  }

  ghost predicate PlanSound(l: Tables, id: Uuid, last: Summary, plan: Plan)
    requires id in l.timelines
  {
    && (plan.Carry? ==> plan.summary.timeline == id && RowOk(l, id, plan.summary) && Succeeds(last, plan.summary)
                        && plan.summary.content == last.content)
    && (plan.Job? ==> plan.work.timeline == id && plan.work.status.Waiting? && WorkShape(l, plan.work) && Continues(plan.work, last))
  }

  /** A plan made of such records leads from a summary covering its own watermark to one covering the next. */
  lemma PlanFits(l: Tables, id: Uuid, revision: nat, last: Summary, all: seq<Record>, trigger: nat)
    requires id in l.timelines && trigger > 0 && Covers(l, id, last)
    requires l.timelines[id].status.Active?
    requires Enough(all, trigger) ==> LinkOk(l, id, last.through, l.timelines[id].durable, all, Chosen(Page(all), trigger), MAX_DEPTH)
    ensures PlanSound(l, id, last, PlanOf(id, revision, last.version, last, Page(all), |all| > SOURCE_LIMIT, trigger))
  {
    PlanShape(id, revision, last, all, trigger);
  }

  /** What a claim plans is the next link of the chain. */
  lemma PlanContinues(s: Room, id: Uuid, trigger: nat)
    requires Inv(s) && s.active == Some(id) && trigger > 0 && id in s.tables.timelines
    requires H.Seen(s.tables, id, s.tables.timelines[id].durable, MAX_DEPTH)
    ensures PlanSound(s.tables, id, Last(s, id), Planned(s, id, trigger))
  {
    EndWithinMark(s, id);
    var last, mark := Last(s, id), s.tables.timelines[id].durable;
    var all := Between(s.tables, id, last.through, mark, MAX_DEPTH);
    if Enough(all, trigger) {
      ChoiceIsBetween(s.tables, id, last.through, mark, trigger, MAX_DEPTH);
    }
    PlanFits(s.tables, id, s.revision, last, all, trigger);
  }

  lemma NoOpenJob(s: Room, id: Uuid, key: Uuid)
    requires Inv(s) && id in s.tables.timelines && WorkFor(s, id, Last(s, id).version).None?
    requires key in s.works && s.works[key].timeline == id
    ensures PastJob(s, s.works[key])
  {
    assert WorkOk(s, s.works[key]);
    assert !IsWork(s, key, id, Last(s, id).version);
  }

  lemma CarryKeeps(s: Room, x: Summary)
    requires Inv(s) && s.active == Some(x.timeline) && WorkFor(s, x.timeline, Last(s, x.timeline).version).None?
    requires RowOk(s.tables, x.timeline, x) && Succeeds(Last(s, x.timeline), x)
    ensures Inv(Appended(s, x))
  {
    forall key | key in s.works ensures if s.works[key].timeline == x.timeline then PastJob(s, s.works[key]) else WorkOk(s, s.works[key]) {
      if s.works[key].timeline == x.timeline {
        NoOpenJob(s, x.timeline, key);
      }
    }
    AppendedKeeps(s, Appended(s, x), x);
  }

  lemma JobKeeps(s: Room, key: Uuid, w: Work, owner: Uuid)
    requires Inv(s) && key !in s.works && WorkOk(s, w) && !w.status.Done? && WorkFor(s, w.timeline, Last(s, w.timeline).version).None?
    ensures Inv(Leased(s, key, w, owner))
  {
    var n := Leased(s, key, w, owner);
    JobRelabelled(s, w, Running, owner, s.revision);
    forall a | a in s.works ensures s.works[a].timeline == w.timeline ==> s.works[a].expected != w.expected {
      assert !IsWork(s, a, w.timeline, w.expected);
    }
    FramedKeeps(s, n);
  }

  lemma DecidedKeeps(s: Room, plan: Plan, key: Uuid, owner: Uuid, due: bool)
    requires Inv(s) && Claimable(s)
    requires PlanSound(s.tables, s.active.value, Last(s, s.active.value), plan)
    ensures Inv(Decided(s, plan, key, owner, due))
  {
    var id := s.active.value;
    EndWithinMark(s, id);
    var found := WorkFor(s, id, Last(s, id).version);
    if found.Some? {
      if !s.works[found.value].status.Done? {
        LeasedKeeps(s, found.value, owner);
      }
    } else if plan.Carry? {
      CarryKeeps(s, plan.summary);
    } else if plan.Job? && key !in s.works {
      JobKeeps(s, key, plan.work, owner);
    }
  }

  lemma ClaimKeeps(s: Room, trigger: nat, key: Uuid, owner: Uuid, due: bool)
    requires Inv(s)
    ensures Inv(Next(s, Claim(trigger, key, owner, due)))
  {
    if trigger > 0 && Claimable(s) {
      PlanContinues(s, s.active.value, trigger);
      DecidedKeeps(s, Planned(s, s.active.value, trigger), key, owner, due);
    }
  }

  // ---------------------------------------------------------------- completing a job

  /** What an accepted completion adds. */
  ghost function Published(s: Room, w: Work, candidate: string): Summary {
    var previous := SummaryAt(s, w.timeline, w.from, MAX_DEPTH);
    Summary(w.timeline, w.expected + 1, w.through, candidate, previous.covered + w.source)
  }

  lemma PublishedContinues(s: Room, key: Uuid, w: Work, candidate: string)
    requires Inv(s) && key in s.works && s.works[key].status.Running? && SameJob(w, s.works[key])
    requires Resolves(s.tables.timelines, w.timeline, w.from, MAX_DEPTH)
    requires SummaryAt(s, w.timeline, w.from, MAX_DEPTH).through == w.from
    ensures RowOk(s.tables, w.timeline, Published(s, w, candidate))
    ensures Succeeds(Last(s, w.timeline), Published(s, w, candidate))
  {
    assert WorkOk(s, s.works[key]);
    SummaryAtCovers(s, w.timeline, w.from);
    CoverageExtends(s.tables, w.timeline, w.from, w.through, MAX_DEPTH);
  }

  lemma CompletionPublishes(s: Room, key: Uuid, w: Work, candidate: string, fits: bool, live: bool)
    requires H.Inv(s.tables)
    requires CompleteSummary(s, key, w, candidate, fits, live).1.None?
    ensures key in s.works && s.works[key].status.Running? && SameJob(w, s.works[key]) && s.active == Some(w.timeline)
    ensures w.timeline in s.tables.timelines && Resolves(s.tables.timelines, w.timeline, w.from, MAX_DEPTH)
    ensures SummaryAt(s, w.timeline, w.from, MAX_DEPTH).through == w.from
    ensures CompleteSummary(s, key, w, candidate, fits, live).0 == Settled(s, key, w, candidate)
  {
  }

  lemma OtherJobsPast(s: Room, key: Uuid, o: Uuid)
    requires Inv(s) && key in s.works && !s.works[key].status.Done? && o in s.works && o != key
    ensures s.works[o].timeline == s.works[key].timeline ==> PastJob(s, s.works[o])
    ensures WorkOk(s, s.works[o])
  {
    assert WorkOk(s, s.works[o]) && WorkOk(s, s.works[key]);
  }

  ghost function Settled(s: Room, key: Uuid, w: Work, candidate: string): Room
    requires key in s.works
  {
    Appended(s, Published(s, w, candidate)).(works := s.works[key := s.works[key].(status := Done, owner := 0)])
  }

  lemma SettledKeeps(s: Room, key: Uuid, w: Work, candidate: string)
    requires Inv(s) && key in s.works && s.works[key].status.Running? && SameJob(w, s.works[key]) && s.active == Some(w.timeline)
    requires RowOk(s.tables, w.timeline, Published(s, w, candidate))
    requires Succeeds(Last(s, w.timeline), Published(s, w, candidate))
    ensures Inv(Settled(s, key, w, candidate))
  {
    var x, n := Published(s, w, candidate), Settled(s, key, w, candidate);
    assert WorkOk(s, s.works[key]);
    forall o | o in n.works ensures if n.works[o].timeline == x.timeline then PastJob(s, n.works[o]) else WorkOk(s, n.works[o]) {
      if o != key {
        OtherJobsPast(s, key, o);
      }
    }
    AppendedKeeps(s, n, x);
  }

  lemma CompleteKeeps(s: Room, key: Uuid, w: Work, candidate: string, fits: bool, live: bool)
    requires Inv(s)
    ensures Inv(Next(s, Complete(key, w, candidate, fits, live)))
  {
    if CompleteSummary(s, key, w, candidate, fits, live).1.None? {
      CompletionPublishes(s, key, w, candidate, fits, live);
      PublishedContinues(s, key, w, candidate);
      SettledKeeps(s, key, w, candidate);
    } else {
      assert CompleteSummary(s, key, w, candidate, fits, live).0 == s;
    }
  }

  // ---------------------------------------------------------------- every step, every run

  lemma NextKeeps(s: Room, step: Step)
    requires Inv(s)
    ensures Inv(Next(s, step))
  {
    match step
    case Archive(r) => ArchiveKeeps(s, r);
    case Open(id, t) => OpenKeeps(s, id, t);
    case Reopen(ready, revision) => ReopenKeeps(s, ready, revision);
    case ImportSave(n) => ImportKeeps(s, n);
    case CreateSave(n, id, position) => FreezeKeeps(s, n, id, position);
    case Claim(trigger, key, owner, due) => ClaimKeeps(s, trigger, key, owner, due);
    case Complete(key, w, candidate, fits, live) => CompleteKeeps(s, key, w, candidate, fits, live);
    case Retry(key, owner) => RetryKeeps(s, key, owner);
  }

  ghost function Run(s: Room, steps: seq<Step>): Room
    requires Inv(s)
    decreases |steps|
  {
    if steps == [] then s
    else
      NextKeeps(s, steps[0]);
      Run(Next(s, steps[0]), steps[1..])
  }

  lemma {:induction false} RunKeeps(s: Room, steps: seq<Step>)
    requires Inv(s)
    ensures Inv(Run(s, steps))
    decreases |steps|
  {
    if steps != [] {
      NextKeeps(s, steps[0]);
      RunKeeps(Next(s, steps[0]), steps[1..]);
    }
  }

  lemma {:induction false} RunAppend(s: Room, steps: seq<Step>, step: Step)
    requires Inv(s)
    ensures Inv(Run(s, steps)) && Run(s, steps + [step]) == Next(Run(s, steps), step)
    decreases |steps|
  {
    RunKeeps(s, steps);
    if steps == [] {
      assert [step][1..] == [];
    } else {
      NextKeeps(s, steps[0]);
      assert (steps + [step])[1..] == steps[1..] + [step];
      RunAppend(Next(s, steps[0]), steps[1..], step);
    }
  }

  const EMPTY_ROOM: Room := Room(Tables(map[], map[]), None, false, 0, map[], map[], map[])

  lemma EmptyOk()
    ensures Inv(EMPTY_ROOM)
  {
  }
}
