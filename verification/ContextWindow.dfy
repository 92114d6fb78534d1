/**
 The memory handed to the storyteller: the branch's summary and a bounded window of its newest
 records, overlapping the summary by ten.
 */
module ContextWindow {
  import opened MemoryModel
  import opened Ledger
  import H = History
  import opened Summaries
  import opened SummaryInvariant
  import opened SummaryStore

  const RECENT: nat := 10

  datatype MemoryContext = MemoryContext(summary: Summary, records: seq<Record>, degraded: bool)

  function Minus(a: nat, b: nat): nat {
    if a > b then a - b else 0
  }

  function Min(a: nat, b: nat): nat {
    if a < b then a else b
  }

  function Max(a: nat, b: nat): nat {
    if a > b then a else b
  }

  /**
   The summary nearest to the durable mark; every record from ten before the mark, or from the summary's own
   mark if that is earlier, when these are at most a hundred, else the newest hundred above the summary, counted
   as if there were no baseline.
   */
  ghost predicate Windowed(s: Room, id: Uuid, durable: nat, c: MemoryContext)
    requires id in s.tables.timelines
  {
    && WindowRead(s.tables, id, c.summary.through, durable, c.records, Overflows(s.tables, id, c.summary.through, durable))
    && (c.degraded <==> Overflows(s.tables, id, c.summary.through, durable) || !s.tables.timelines[id].complete)
    && Resolves(s.tables.timelines, id, durable, MAX_DEPTH)
    && (var path := Segments(s.tables.timelines, id, durable, MAX_DEPTH);
        NearestOn(s, path, Some(c.summary)) || (NearestOn(s, path, None) && c.summary.through == 0))
  }

  /** Where the first read begins. */
  ghost function Near(covered: nat, durable: nat): nat {
    var recent := if durable > 10 then durable - 10 else 0;
    if covered < recent then covered else recent
  }

  ghost predicate Overflows(l: Tables, id: Uuid, covered: nat, durable: nat) {
    var near := Near(covered, durable);
    (if near == 0 && H.RecordAt(l, id, 0, MAX_DEPTH).Some? then 1 else 0) + durable - near > 100
  }

  ghost predicate WindowRead(l: Tables, id: Uuid, covered: nat, durable: nat, records: seq<Record>, overflow: bool) {
    var newest := if durable > 100 && durable - 100 > covered then durable - 100 else covered;
    if !overflow then FollowsMark(l, id, Near(covered, durable), durable, 100, records, false)
    else FollowsMark(l, id, newest, durable, 100, records, false) || FollowsMark(l, id, newest, durable, 100, records, true)
  }

  /** LoadMemoryContext, as far as the choice of records goes. */
  method LoadMemoryContext(s: Room, timeline: Uuid) returns (r: Result<MemoryContext>)
    requires Inv(s)
    ensures r.Ok? <==> s.ready && s.active == Some(timeline)
    ensures r.Ok? ==> Served(s, timeline, r.value)
    ensures r.Ok? ==> timeline in s.tables.timelines && Windowed(s, timeline, s.tables.timelines[timeline].durable, r.value)
  {
    if !s.ready || s.active != Some(timeline) {
      return Err(Error.Cursor);
    }
    EndWithinMark(s, timeline);
    var durable := s.tables.timelines[timeline].durable;
    OriginsKept(s);
    var summary := FindSummary(s, timeline, durable);
    if summary.Err? {
      return Err(Branch);
    }
    var read := ReadWindow(s.tables, timeline, summary.value.through, durable);
    if read.Err? {
      return Err(Branch);
    }
    var (records, more) := read.value;
    ReadingIsWindow(s.tables, timeline, summary.value.through, durable);
    return Ok(MemoryContext(summary.value, records, more || !s.tables.timelines[timeline].complete));
  }

  /** One read, and a second one when the first does not reach the mark. */
  method ReadWindow(l: Tables, timeline: Uuid, covered: nat, durable: nat) returns (r: Result<(seq<Record>, bool)>)
    requires H.Inv(l) && Resolves(l.timelines, timeline, durable, MAX_DEPTH)
    ensures r.Ok? && H.Seen(l, timeline, durable, MAX_DEPTH)
    ensures var (first, more) := Reading(l, timeline, Min(covered, Minus(durable, RECENT)), durable, SOURCE_LIMIT);
      && r.value.1 == more
      && r.value.0 == (if more then Reading(l, timeline, Max(covered, Minus(durable, SOURCE_LIMIT)), durable, SOURCE_LIMIT).0 else first)
  {
    var after := covered;
    var recentAfter := 0;
    if durable > RECENT {
      recentAfter := durable - RECENT;
    }
    if recentAfter < after {
      after := recentAfter;
    }
    r := ReadSummaryRecords(l, timeline, after, durable, SOURCE_LIMIT);
    if r.Ok? && r.value.1 {
      var latest := covered;
      if durable > SOURCE_LIMIT && durable - SOURCE_LIMIT > latest {
        latest := durable - SOURCE_LIMIT;
      }
      var again := ReadSummaryRecords(l, timeline, latest, durable, SOURCE_LIMIT);
      if again.Err? {
        return Err(Branch);
      }
      r := Ok((again.value.0, true));
    }
  }

  lemma ReadingIsWindow(l: Tables, id: Uuid, covered: nat, durable: nat)
    requires H.Seen(l, id, durable, MAX_DEPTH) && covered <= durable
    ensures var (first, more) := Reading(l, id, Min(covered, Minus(durable, RECENT)), durable, SOURCE_LIMIT);
      && more == Overflows(l, id, covered, durable)
      && WindowRead(l, id, covered, durable,
                    if more then Reading(l, id, Max(covered, Minus(durable, SOURCE_LIMIT)), durable, SOURCE_LIMIT).0 else first, more)
  {
    ReadingFollowsMark(l, id, Min(covered, Minus(durable, RECENT)), durable, SOURCE_LIMIT);
    ReadingFollowsMark(l, id, Max(covered, Minus(durable, SOURCE_LIMIT)), durable, SOURCE_LIMIT);
  }

  // ---------------------------------------------------------------- what the window is

  /** The first position of the window, less one, for a history without an imported baseline. */
  function WindowStart(durable: nat, covered: nat): nat {
    Max(Min(covered, Minus(durable, RECENT)), Minus(durable, SOURCE_LIMIT))
  }

  lemma WindowStartIs(durable: nat, covered: nat)
    ensures var recent := if durable > 10 then durable - 10 else 0;
            var near := if covered < recent then covered else recent;
      WindowStart(durable, covered) == if durable > 100 && durable - 100 > near then durable - 100 else near
  {
  }

  /** The two reads, put as one choice. */
  ghost predicate Served(s: Room, id: Uuid, c: MemoryContext) {
    && id in s.tables.timelines
    && var durable := s.tables.timelines[id].durable;
       && H.Seen(s.tables, id, durable, MAX_DEPTH)
       && c.summary == Last(s, id) && c.summary.through <= durable
       && var after := Min(c.summary.through, Minus(durable, RECENT));
          var (first, more) := Reading(s.tables, id, after, durable, SOURCE_LIMIT);
          && c.records == (if more then Reading(s.tables, id, Max(c.summary.through, Minus(durable, SOURCE_LIMIT)), durable, SOURCE_LIMIT).0
                           else first)
          && c.degraded == (more || !s.tables.timelines[id].complete)
  }

  /** A complete history has no baseline row at all. */
  lemma CompleteHasNoBaseline(s: Room, id: Uuid)
    requires Inv(s) && id in s.tables.timelines && s.tables.timelines[id].status.Active? && s.tables.timelines[id].complete
    ensures H.Baseline(s.tables, id, MAX_DEPTH) == []
  {
    var mark := s.tables.timelines[id].durable;
    assert H.TimelineOk(s.tables, id);
    H.ActiveResolves(s.tables, id, mark);
    PathTiles(s.tables.timelines, id, mark, MAX_DEPTH);
    H.BaselineAtRoot(s.tables, id, mark, MAX_DEPTH);
    H.BaselineWanted(s.tables, id, mark, MAX_DEPTH);
  }

  /**
   For a complete history with durable mark D and summary watermark S, the context holds exactly the
   records in (max(min(S, D-10), D-100), D], subtraction stopping at 0, and it is called degraded
   exactly when summary and window together leave something of the view out.
   */
  lemma CompleteWindow(s: Room, id: Uuid, c: MemoryContext)
    requires Inv(s) && Served(s, id, c)
    requires s.tables.timelines[id].status.Active? && s.tables.timelines[id].complete
    ensures var durable := s.tables.timelines[id].durable;
            var start := WindowStart(durable, c.summary.through);
      && start <= durable
      && c.records == H.View(s.tables, id, durable, MAX_DEPTH)[start..]
      && |c.records| <= SOURCE_LIMIT
      && (c.degraded <==> c.summary.through < start)
      && (!c.degraded ==> c.summary.covered + c.records[c.summary.through - start..] == H.View(s.tables, id, durable, MAX_DEPTH))
  {
    var durable, covered := s.tables.timelines[id].durable, c.summary.through;
    CompleteHasNoBaseline(s, id);
    EndWithinMark(s, id);
    WindowFits(s.tables, id, durable, covered, c);
    if !c.degraded {
      SummaryAndWindow(s.tables, id, durable, c.summary, WindowStart(durable, covered));
    }
  }

  /** Without a baseline a summary covers the beginning of the view, and a window that reaches back to it covers the rest. */
  lemma SummaryAndWindow(l: Tables, id: Uuid, durable: nat, x: Summary, start: nat)
    requires start <= x.through <= durable && H.Seen(l, id, durable, MAX_DEPTH) && H.Baseline(l, id, MAX_DEPTH) == []
    requires Covers(l, id, x)
    ensures var view := H.View(l, id, durable, MAX_DEPTH);
      |view| == durable && x.covered + view[start..][x.through - start..] == view
  {
    SummaryIsPrefix(l, id, durable, x);
    Overlap(H.View(l, id, durable, MAX_DEPTH), x.through, start);
  }

  lemma SummaryIsPrefix(l: Tables, id: Uuid, durable: nat, x: Summary)
    requires x.through <= durable && H.Seen(l, id, durable, MAX_DEPTH) && H.Baseline(l, id, MAX_DEPTH) == []
    requires Covers(l, id, x)
    ensures |H.View(l, id, durable, MAX_DEPTH)| == durable && x.covered == H.View(l, id, durable, MAX_DEPTH)[..x.through]
  {
    var view := H.View(l, id, durable, MAX_DEPTH);
    assert view == H.Numbered(l, id, durable, MAX_DEPTH);
    assert H.View(l, id, x.through, MAX_DEPTH) == H.Numbered(l, id, x.through, MAX_DEPTH);
    assert H.Numbered(l, id, x.through, MAX_DEPTH) == view[..x.through];
  }

  lemma Overlap<T>(view: seq<T>, through: nat, start: nat)
    requires start <= through <= |view|
    ensures view[..through] + view[start..][through - start..] == view
  {
    assert view[start..][through - start..] == view[through..];
  }

  lemma WindowFits(l: Tables, id: Uuid, durable: nat, covered: nat, c: MemoryContext)
    requires covered <= durable && H.Seen(l, id, durable, MAX_DEPTH) && H.Baseline(l, id, MAX_DEPTH) == []
    requires var (first, more) := Reading(l, id, Min(covered, Minus(durable, RECENT)), durable, SOURCE_LIMIT);
      && c.records == (if more then Reading(l, id, Max(covered, Minus(durable, SOURCE_LIMIT)), durable, SOURCE_LIMIT).0 else first)
      && c.degraded == more
    ensures var start := WindowStart(durable, covered);
      && start <= durable && |c.records| <= SOURCE_LIMIT
      && c.records == H.View(l, id, durable, MAX_DEPTH)[start..]
      && (c.degraded <==> covered < start)
  {
    var rows := H.Numbered(l, id, durable, MAX_DEPTH);
    assert H.View(l, id, durable, MAX_DEPTH) == rows;
    assert forall a :: 0 <= a <= durable ==> Between(l, id, a, durable, MAX_DEPTH) == rows[a..];
  }

  // ---------------------------------------------------------------- imported histories

  /** The newest record is the last one of the context. */
  ghost predicate HasNewest(s: Room, id: Uuid, c: MemoryContext)
    requires id in s.tables.timelines
  {
    c.records != [] && c.records[|c.records| - 1].position == s.tables.timelines[id].durable
  }

  /**
   A history that starts from an imported baseline reads that record as well.  The newest record is in
   the context in every case but one: no summary yet and exactly a hundred records after the baseline.
   */
  lemma NewestServedIff(s: Room, id: Uuid, c: MemoryContext)
    requires Inv(s) && Served(s, id, c) && s.tables.timelines[id].status.Active? && s.tables.timelines[id].durable > 0
    ensures HasNewest(s, id, c) <==>
              !(H.Baseline(s.tables, id, MAX_DEPTH) != [] && c.summary.through == 0 && s.tables.timelines[id].durable == SOURCE_LIMIT)
  {
    var l, durable, covered := s.tables, s.tables.timelines[id].durable, c.summary.through;
    EndWithinMark(s, id);
    var rows, base := H.Numbered(l, id, durable, MAX_DEPTH), H.Baseline(l, id, MAX_DEPTH);
    LastPositions(l, id, durable, MAX_DEPTH);
    NewestRead(rows, base, durable, covered, c.records);
  }

  lemma LastPositions(l: Tables, id: Uuid, durable: nat, levels: nat)
    requires H.Inv(l) && Resolves(l.timelines, id, durable, levels) && H.Seen(l, id, durable, levels)
    ensures forall i :: 0 <= i < durable ==> H.Numbered(l, id, durable, levels)[i].position == i + 1
  {
    forall i | 0 <= i < durable ensures H.Numbered(l, id, durable, levels)[i].position == i + 1 {
      H.SeenEverywhere(l, id, durable, levels, i + 1);
    }
  }

  /** The two reads over a baseline and numbered rows, as plain sequences. */
  lemma NewestRead(rows: seq<Record>, base: seq<Record>, durable: nat, covered: nat, records: seq<Record>)
    requires |rows| == durable > 0 && covered <= durable && |base| <= 1
    requires forall i :: 0 <= i < durable ==> rows[i].position == i + 1
    requires var first := Above(rows, base, Min(covered, Minus(durable, RECENT)));
      records == if |first| > SOURCE_LIMIT then Cut(Above(rows, base, Max(covered, Minus(durable, SOURCE_LIMIT)))) else first
    ensures (records != [] && records[|records| - 1].position == durable) <==> !(base != [] && covered == 0 && durable == SOURCE_LIMIT)
  {
  }

  function Above(rows: seq<Record>, base: seq<Record>, after: nat): seq<Record>
    requires after <= |rows|
  {
    (if after == 0 then base else []) + rows[after..]
  }

  function Cut(all: seq<Record>): seq<Record> {
    if |all| > SOURCE_LIMIT then all[..SOURCE_LIMIT] else all
  }

  // ---------------------------------------------------------------- an imported game of a hundred records

  /** The record at a position of an imported game. */
  function Plain(position: nat): Record {
    Record(position, 1, position, if position == 0 then LegacyBaseline else Action, Some(1),
           if position == 0 then LegacyRequests else ClientRequests, position, 1, 3, 0, 0, 0, 0, Payload(["text"], "", "", []))
  }

  const LEGACY_ROOT: Timeline := Timeline(None, 0, 0, Some(1), false, Prepared)

  /** A save without a timeline is loaded, its baseline archived, and so many records are played. */
  function Importing(played: nat): seq<Step> {
    if played == 0 then [ImportSave(1), Open(1, LEGACY_ROOT), Reopen(true, 6), Step.Archive(Plain(0))]
    else Importing(played - 1) + [Step.Archive(Plain(played))]
  }

  function Imported(played: nat): Room {
    Room(Tables(map[1 := LEGACY_ROOT.(status := Active, durable := played)], map p: nat | p <= played :: (1, p) := Plain(p)),
         Some(1), true, 6, map[], map[], map[1 := Save(None, None, None)])
  }

  lemma Loads(s: Room)
    requires s == EMPTY_ROOM.(saves := map[1 := Save(None, None, None)])
    ensures Next(s, Open(1, LEGACY_ROOT)) ==
            s.(tables := Tables(map[1 := LEGACY_ROOT.(status := Active)], map[]), active := Some(1))
  {
    assert H.BranchAdmitted(s.tables, 1, LEGACY_ROOT) && MayOpen(s, 1, LEGACY_ROOT);
    assert map[1 := LEGACY_ROOT][1 := LEGACY_ROOT.(status := Active)] == map[1 := LEGACY_ROOT.(status := Active)];
  }

  lemma Begins()
    ensures Run(EMPTY_ROOM, Importing(0)) == Imported(0)
  {
    var save := EMPTY_ROOM.(saves := map[1 := Save(None, None, None)]);
    var loaded := save.(tables := Tables(map[1 := LEGACY_ROOT.(status := Active)], map[]), active := Some(1));
    EmptyOk();
    assert Importing(0) == [] + [ImportSave(1)] + [Open(1, LEGACY_ROOT)] + [Reopen(true, 6)] + [Step.Archive(Plain(0))];
    RunAppend(EMPTY_ROOM, [], ImportSave(1));
    RunAppend(EMPTY_ROOM, [] + [ImportSave(1)], Open(1, LEGACY_ROOT));
    RunAppend(EMPTY_ROOM, [] + [ImportSave(1)] + [Open(1, LEGACY_ROOT)], Reopen(true, 6));
    RunAppend(EMPTY_ROOM, [] + [ImportSave(1)] + [Open(1, LEGACY_ROOT)] + [Reopen(true, 6)], Step.Archive(Plain(0)));
    assert Next(EMPTY_ROOM, ImportSave(1)) == save;
    Loads(save);
    assert Next(loaded, Reopen(true, 6)) == loaded.(ready := true, revision := 6);
    ImportsBaseline(loaded.tables);
  }

  lemma ImportsBaseline(l: Tables)
    requires l == Tables(map[1 := LEGACY_ROOT.(status := Active)], map[])
    ensures H.Archived(l, Plain(0)).0 == Imported(0).tables
  {
    assert H.Archived(l, Plain(0)).1 == Ok(true);
    assert H.Insert(l, Plain(0)).records == Imported(0).tables.records;
  }

  lemma Admitted(played: nat)
    requires played < MAX_UINT64
    ensures H.Archived(Imported(played).tables, Plain(played + 1)) == (H.Insert(Imported(played).tables, Plain(played + 1)), Ok(true))
  {
    var l, r := Imported(played).tables, Plain(played + 1);
    assert H.Unused(l, r);
    assert H.Archived(l, r).1 == Ok(true);
  }

  lemma Plays(played: nat)
    requires played < MAX_UINT64
    ensures H.Archived(Imported(played).tables, Plain(played + 1)).0 == Imported(played + 1).tables
  {
    Admitted(played);
    InsertedNext(played);
  }

  lemma InsertedNext(played: nat)
    ensures H.Insert(Imported(played).tables, Plain(played + 1)) == Imported(played + 1).tables
  {
    var l, m := Imported(played).tables, Imported(played + 1).tables;
    assert l.records[(1, played + 1) := Plain(played + 1)] == m.records;
    assert l.timelines[1 := LEGACY_ROOT.(status := Active, durable := played + 1)] == m.timelines;
  }

  lemma PlaysOn(s: Room, played: nat)
    requires played < MAX_UINT64 && s == Imported(played) && Inv(s)
    ensures Next(s, Step.Archive(Plain(played + 1))) == Imported(played + 1)
  {
    Plays(played);
  }

  lemma {:induction false} ImportedIsReached(played: nat)
    requires played <= MAX_UINT64
    ensures Run(EMPTY_ROOM, Importing(played)) == Imported(played) && Inv(Imported(played))
  {
    EmptyOk();
    if played == 0 {
      Begins();
      RunKeeps(EMPTY_ROOM, Importing(0));
    } else {
      ImportedIsReached(played - 1);
      ImportedGoesOn(played - 1);
    }
  }

  lemma ImportedGoesOn(played: nat)
    requires played < MAX_UINT64 && Run(EMPTY_ROOM, Importing(played)) == Imported(played) && Inv(Imported(played))
    ensures Run(EMPTY_ROOM, Importing(played + 1)) == Imported(played + 1) && Inv(Imported(played + 1))
  {
    EmptyOk();
    RunAppend(EMPTY_ROOM, Importing(played), Step.Archive(Plain(played + 1)));
    PlaysOn(Imported(played), played);
    NextKeeps(Imported(played), Step.Archive(Plain(played + 1)));
  }

  lemma ImportedShows(played: nat, levels: nat)
    requires levels > 0
    ensures H.Seen(Imported(played).tables, 1, played, levels)
    ensures H.Numbered(Imported(played).tables, 1, played, levels) == seq(played, i requires 0 <= i < played => Plain(i + 1))
    ensures H.Baseline(Imported(played).tables, 1, levels) == [Plain(0)]
    ensures Nearest(Imported(played), 1, played, levels).None?
  {
    var l := Imported(played).tables;
    assert forall p: nat :: p <= played ==> (1, p) in l.records && l.records[(1, p)] == Plain(p);
  }

  /**
   A game imported with its baseline and played for a hundred records, no summary stored yet: the
   context served for it ends at record 99.
   */
  lemma BaselineHidesNewest() returns (c: MemoryContext)
    ensures var s := Run(EMPTY_ROOM, Importing(SOURCE_LIMIT));
      && Inv(s) && s.ready && s.active == Some(1) && 1 in s.tables.timelines && s.tables.timelines[1].durable == SOURCE_LIMIT
      && Served(s, 1, c) && |c.records| == SOURCE_LIMIT && c.records[SOURCE_LIMIT - 1] == Plain(SOURCE_LIMIT - 1)
      && !HasNewest(s, 1, c)
  {
    var s := Imported(SOURCE_LIMIT);
    ImportedIsReached(SOURCE_LIMIT);
    ImportedShows(SOURCE_LIMIT, MAX_DEPTH);
    var records := Reading(s.tables, 1, 0, SOURCE_LIMIT, SOURCE_LIMIT).0;
    assert Between(s.tables, 1, 0, SOURCE_LIMIT, MAX_DEPTH) == [Plain(0)] + H.Numbered(s.tables, 1, SOURCE_LIMIT, MAX_DEPTH);
    c := MemoryContext(Last(s, 1), records, true);
  }
}
