/**
 Reading a branch page by page.  A cursor freezes the branch, its mark and its path at the first
 page, so archives between pages neither move nor repeat a record.
 */
module Paging {
  import opened MemoryModel
  import opened Ledger
  import H = History
  import opened Journal
  import opened MemoryStore

  /** `path` stands for the hash of the segments the first page resolved. */
  datatype VisibleRecordCursor = VisibleRecordCursor(timeline: Uuid, through: nat, path: seq<Segment>, last: Option<nat>)

  datatype Page = Page(records: seq<Record>, next: Option<VisibleRecordCursor>)

  function Take<T>(s: seq<T>, n: nat): seq<T> {
    if |s| <= n then s else s[..n]
  }

  /** The records that come after the last one already delivered. */
  function After(rows: seq<Record>, last: Option<nat>): seq<Record> {
    if rows == [] then []
    else if last.Some? && rows[0].position <= last.value then After(rows[1..], last)
    else [rows[0]] + After(rows[1..], last)
  }

  lemma {:induction false} AfterJoin(a: seq<Record>, b: seq<Record>, last: Option<nat>)
    ensures After(a + b, last) == After(a, last) + After(b, last)
  {
    if a == [] {
      assert a + b == b;
    } else {
      assert (a + b)[1..] == a[1..] + b;
      AfterJoin(a[1..], b, last);
    }
  }

  // ---------------------------------------------------------------- the query for one segment

  /** SELECT ... position BETWEEN from AND to ORDER BY position LIMIT n. */
  function Select(l: Tables, id: Uuid, from: nat, upper: nat, n: nat): seq<Record>
    decreases upper + 1 - from
  {
    if from > upper || n == 0 then []
    else if (id, from) in l.records then [l.records[(id, from)]] + Select(l, id, from + 1, upper, n - 1)
    else Select(l, id, from + 1, upper, n)
  }

  /** The lowest position of a segment that is still to be delivered. */
  function Resume(s: Segment, last: Option<nat>): nat {
    if last.Some? && last.value >= First(s) then last.value + 1 else First(s)
  }

  ghost predicate Filled(l: Tables, id: Uuid, from: nat, upper: nat) {
    forall p :: from <= p <= upper ==> (id, p) in l.records && l.records[(id, p)].position == p
  }

  /** With no row missing, the query returns a consecutive run and stops only at the limit or the end. */
  lemma {:induction false} SelectConsecutive(l: Tables, id: Uuid, from: nat, upper: nat, n: nat)
    requires Filled(l, id, from, upper)
    ensures var r := Select(l, id, from, upper, n);
      && |r| == (if from > upper then 0 else if upper + 1 - from <= n then upper + 1 - from else n)
      && (forall i :: 0 <= i < |r| ==> r[i] == l.records[(id, from + i)])
    decreases upper + 1 - from
  {
    if from <= upper && n > 0 {
      SelectConsecutive(l, id, from + 1, upper, n - 1);
    }
  }

  lemma {:induction false} AfterSegment(rows: seq<Record>, from: nat, last: Option<nat>)
    requires forall i :: 0 <= i < |rows| ==> rows[i].position == from + i
    ensures After(rows, last) ==
      if last.Some? && last.value >= from then (if last.value + 1 - from <= |rows| then rows[last.value + 1 - from..] else []) else rows
    decreases |rows|
  {
    if rows != [] {
      AfterSegment(rows[1..], from + 1, last);
    }
  }

  /** Every row the segment names is in the table, and at its own position. */
  ghost predicate SegmentPresent(l: Tables, s: Segment) {
    && s.lower <= s.upper && (s.includeZero ==> s.lower == 0)
    && (forall p {:trigger (s.timeline, p) in l.records} :: s.lower < p <= s.upper ==>
          (s.timeline, p) in l.records && l.records[(s.timeline, p)].position == p)
    && ((s.timeline, 0) in l.records ==> l.records[(s.timeline, 0)].position == 0)
  }

  function First(s: Segment): nat {
    if s.includeZero then s.lower else s.lower + 1
  }

  /** A whole segment's rows are exactly the positions First, First + 1, ..., upper. */
  ghost predicate Run(l: Tables, s: Segment, rows: seq<Record>) {
    && Filled(l, s.timeline, First(s), s.upper)
    && |rows| == s.upper + 1 - First(s)
    && forall i {:trigger rows[i]} :: 0 <= i < |rows| ==> rows[i] == l.records[(s.timeline, First(s) + i)] && rows[i].position == First(s) + i
  }

  lemma SegmentRun(l: Tables, s: Segment)
    requires SegmentPresent(l, s) && H.Whole(l, s)
    ensures Run(l, s, H.SegmentRows(l, s))
  {
    var rows := H.SegmentRows(l, s);
    assert |rows| == s.upper + 1 - First(s);
    forall i | 0 <= i < |rows| ensures rows[i] == l.records[(s.timeline, First(s) + i)] {
    }
  }

  lemma TakeBy<T>(part: seq<T>, rest: seq<T>, n: nat)
    requires |part| == (if |rest| <= n then |rest| else n)
    requires forall i :: 0 <= i < |part| ==> part[i] == rest[i]
    ensures part == Take(rest, n)
  {
  }

  lemma QueryOfRun(l: Tables, s: Segment, rows: seq<Record>, last: Option<nat>, n: nat)
    requires Run(l, s, rows)
    ensures Select(l, s.timeline, Resume(s, last), s.upper, n) == Take(After(rows, last), n)
  {
    var from := Resume(s, last);
    var rest := if from - First(s) <= |rows| then rows[from - First(s)..] else [];
    AfterSegment(rows, First(s), last);
    SelectConsecutive(l, s.timeline, from, s.upper, n);
    TakeBy(Select(l, s.timeline, from, s.upper, n), rest, n);
  }

  // ---------------------------------------------------------------- one page

  /** What is still to be delivered, one page of it, and where the next page resumes. */
  function PageFrom(view: seq<Record>, c: VisibleRecordCursor, limit: nat): Page
    requires limit > 0
  {
    var rest := After(view, c.last);
    if |rest| > limit then Page(rest[..limit], Some(c.(last := Some(rest[limit - 1].position)))) else Page(rest, None)
  }

  /** The cursor a request stands for: its own, or a fresh one at the branch's durable mark. */
  function Opened(ts: map<Uuid, Timeline>, timeline: Uuid, cursor: Option<VisibleRecordCursor>): VisibleRecordCursor
    requires timeline in ts
  {
    if cursor.Some? then cursor.value else VisibleRecordCursor(timeline, ts[timeline].durable, [], None)
  }

  ghost function Listed(s: Store, timeline: Uuid, cursor: Option<VisibleRecordCursor>, limit: int): Result<Page>
    requires H.Inv(s.tables)
  {
    var ts := s.tables.timelines;
    if limit < 1 || limit > 100 then Err(Invalid)
    else if s.state.None? then Err(NotFound)
    else if s.state.value.active != Some(timeline) then Err(Error.Cursor)
    else if !(s.state.value.status.ReadyState? || s.state.value.status.EndedState?) then Err(Busy)
    else if timeline !in ts then Err(NotFound)
    else if cursor.Some? && cursor.value.timeline != timeline then Err(Error.Cursor)
    else
      var c := Opened(ts, timeline, cursor);
      if !Resolves(ts, timeline, c.through, MAX_DEPTH) then Err(Branch)
      else
        var path := Segments(ts, timeline, c.through, MAX_DEPTH);
        if cursor.Some? && c.path != path then Err(Error.Cursor)
        else if c.last.None? && !H.Whole(s.tables, path[0]) then Err(Gap)
        else
          H.PathReadable(s.tables, timeline, c.through, MAX_DEPTH);
          Ok(PageFrom(H.View(s.tables, timeline, c.through, MAX_DEPTH), c.(path := path), limit))
  }

  lemma TakeJoin<T>(a: seq<T>, b: seq<T>, n: nat)
    ensures |Take(a, n)| == n ==> Take(a + b, n) == Take(a, n)
    ensures |Take(a, n)| < n ==> Take(a, n) == a && Take(a + b, n) == a + Take(b, n - |a|)
  {
    if |Take(a, n)| < n && |a + b| > n {
      assert (a + b)[..n] == a + b[..n - |a|];
    }
  }

  /** A path's shape as far as reading it goes. */
  predicate Shaped(path: seq<Segment>) {
    && |path| > 0
    && (forall i {:trigger path[i]} :: 0 < i < |path| ==> !path[i].includeZero)
  }

  /** Every row a segment of the path names is in the table. */
  ghost predicate Present(l: Tables, path: seq<Segment>) {
    forall i {:trigger path[i]} :: 0 <= i < |path| ==> SegmentPresent(l, path[i])
  }

  /** The rows of the first `i` segments. */
  ghost function ReadTo(l: Tables, path: seq<Segment>, i: nat): seq<Record>
    requires i <= |path| && Present(l, path)
  {
    if i == 0 then [] else ReadTo(l, path, i - 1) + H.SegmentRows(l, path[i - 1])
  }

  lemma {:induction false} ReadToIsRead(l: Tables, path: seq<Segment>, i: nat)
    requires i <= |path| && Present(l, path)
    ensures H.Readable(l, path[..i]) && ReadTo(l, path, i) == H.Read(l, path[..i])
  {
    if i > 0 {
      ReadToIsRead(l, path, i - 1);
      assert path[..i][..i - 1] == path[..i - 1];
      assert forall s :: s in path[..i] ==> s in path[..i - 1] || s == path[i - 1];
    }
  }

  lemma {:induction false} ReadToGrows(l: Tables, path: seq<Segment>, i: nat, j: nat)
    requires i <= j <= |path| && Present(l, path)
    ensures ReadTo(l, path, i) <= ReadTo(l, path, j)
    decreases j
  {
    if i < j {
      ReadToGrows(l, path, i, j - 1);
    }
  }

  /** A segment whose baseline is missing reads the same as one that does not ask for it, once past position 0. */
  lemma QueryPastZero(l: Tables, s: Segment, last: Option<nat>, n: nat)
    requires SegmentPresent(l, s) && (H.Whole(l, s) || last.Some?)
    ensures Filled(l, s.timeline, Resume(s, last), s.upper)
    ensures Select(l, s.timeline, Resume(s, last), s.upper, n) == Take(After(H.SegmentRows(l, s), last), n)
  {
    var t := if H.Whole(l, s) then s else s.(includeZero := false);
    SegmentRun(l, t);
    QueryOfRun(l, t, H.SegmentRows(l, t), last, n);
    assert H.SegmentRows(l, t) == H.SegmentRows(l, s);
  }

  predicate Consecutive(rows: seq<Record>, from: nat) {
    forall j :: 0 <= j < |rows| ==> rows[j].position == from + j
  }

  /** A root whose baseline is missing never passes the gap checks of a first page. */
  lemma MissingBaseline(l: Tables, s: Segment, n: nat)
    requires SegmentPresent(l, s) && !H.Whole(l, s) && n > 0
    ensures var part := Select(l, s.timeline, Resume(s, None), s.upper, n);
      part == [] || !Consecutive(part, Resume(s, None))
  {
    var part := Select(l, s.timeline, 1, s.upper, n);
    SelectConsecutive(l, s.timeline, 1, s.upper, n);
    assert Select(l, s.timeline, 0, s.upper, n) == part;
    if part != [] {
      assert part[0] == l.records[(s.timeline, 1)];
    }
  }

  /** Otherwise the rows of a segment are consecutive, and short only at the segment's end. */
  lemma PresentRows(l: Tables, s: Segment, last: Option<nat>, n: nat)
    requires SegmentPresent(l, s) && (H.Whole(l, s) || last.Some?)
    ensures var part := Select(l, s.timeline, Resume(s, last), s.upper, n);
      && Consecutive(part, Resume(s, last)) && |part| <= n
      && (|part| < n ==> Resume(s, last) + |part| > s.upper)
      && part == Take(After(H.SegmentRows(l, s), last), n)
  {
    QueryPastZero(l, s, last, n);
    SelectConsecutive(l, s.timeline, Resume(s, last), s.upper, n);
  }

  lemma FullPage(a: seq<Record>, all: seq<Record>, last: Option<nat>, n: nat)
    requires a <= all && |Take(After(a, last), n)| == n
    ensures Take(After(all, last), n) == Take(After(a, last), n)
  {
    assert all == a + all[|a|..];
    AfterJoin(a, all[|a|..], last);
    TakeJoin(After(a, last), After(all[|a|..], last), n);
  }

  /** The inner loop: every row must sit exactly where the one before left off. */
  method CheckRows(part: seq<Record>, from: nat) returns (contiguous: bool, expected: nat)
    ensures contiguous <==> Consecutive(part, from)
    ensures contiguous ==> expected == from + |part|
  {
    expected := from;
    for j := 0 to |part|
      invariant expected == from + j && Consecutive(part[..j], from)
    {
      if part[j].position != expected {
        return false, expected;
      }
      expected := expected + 1;
    }
    assert part[..|part|] == part;
    return true, expected;
  }

  lemma SegmentInPlace(l: Tables, s: Segment)
    requires H.Inv(l) && s.lower <= s.upper && (s.includeZero ==> s.lower == 0)
    requires forall p :: s.lower < p <= s.upper ==> (s.timeline, p) in l.records
    ensures SegmentPresent(l, s)
  {
    forall p | (s.timeline, p) in l.records ensures l.records[(s.timeline, p)].position == p {
      assert H.RowOk(l, s.timeline, p);
    }
  }

  lemma PathShape(l: Tables, id: Uuid, through: nat, levels: nat)
    requires H.Inv(l) && Resolves(l.timelines, id, through, levels)
    ensures var path := Segments(l.timelines, id, through, levels);
      && Shaped(path) && Present(l, path) && H.Seen(l, id, through, levels)
      && ReadTo(l, path, |path|) == H.View(l, id, through, levels)
  {
    var path := Segments(l.timelines, id, through, levels);
    PathTiles(l.timelines, id, through, levels);
    H.PathReadsView(l, id, through, levels);
    forall i | 0 <= i < |path| ensures SegmentPresent(l, path[i]) {
      assert path[i] in path;
      SegmentInPlace(l, path[i]);
    }
    ReadToIsRead(l, path, |path|);
    assert path[..|path|] == path;
  }

  /** The room is readable on this branch, and a cursor is one handed out for it while its path was the same. */
  ghost predicate MayList(s: Store, timeline: Uuid, cursor: Option<VisibleRecordCursor>, limit: int) {
    && 1 <= limit <= 100 && timeline in s.tables.timelines
    && s.state.Some? && s.state.value.active == Some(timeline) && (s.state.value.status.ReadyState? || s.state.value.status.EndedState?)
    && var through := if cursor.Some? then cursor.value.through else s.tables.timelines[timeline].durable;
    && Resolves(s.tables.timelines, timeline, through, MAX_DEPTH)
    && var path := Segments(s.tables.timelines, timeline, through, MAX_DEPTH);
    && (cursor.Some? ==> cursor.value.timeline == timeline && cursor.value.path == path)
    && ((cursor.Some? && cursor.value.last.Some?) || |path| == 0 || !path[0].includeZero || (path[0].timeline, 0) in s.tables.records)
  }

  /** The records the branch shows from the next position on, one page of them, and a cursor where they go on. */
  ghost predicate PageShows(l: Tables, id: Uuid, through: nat, last: Option<nat>, limit: nat, page: Page, levels: nat) {
    && Resolves(l.timelines, id, through, levels)
    && var path := Segments(l.timelines, id, through, levels);
       var from := if last.Some? then last.value + 1 else if |path| > 0 && path[0].includeZero then 0 else 1;
       var left := if from <= through then through + 1 - from else 0;
    && |page.records| == (if left > limit then limit else left)
    && (forall i {:trigger page.records[i]} :: 0 <= i < |page.records| ==> Some(page.records[i]) == H.RecordAt(l, id, from + i, levels))
    && (page.next.Some? <==> left > limit)
    && (page.next.Some? ==>
          && page.next.value.timeline == id && page.next.value.through == through && page.next.value.path == path
          && page.next.value.last.Some? && page.next.value.last.value + 1 == from + limit)
  }

  lemma ListedMeans(s: Store, timeline: Uuid, cursor: Option<VisibleRecordCursor>, limit: int)
    requires H.Inv(s.tables)
    ensures Listed(s, timeline, cursor, limit).Ok? <==> MayList(s, timeline, cursor, limit)
    ensures MayList(s, timeline, cursor, limit) ==>
              var c := Opened(s.tables.timelines, timeline, cursor);
              PageShows(s.tables, timeline, c.through, c.last, limit, Listed(s, timeline, cursor, limit).value, MAX_DEPTH)
  {
    if MayList(s, timeline, cursor, limit) {
      var c := Opened(s.tables.timelines, timeline, cursor);
      H.PathReadable(s.tables, timeline, c.through, MAX_DEPTH);
      SegmentsLength(s.tables.timelines, timeline, c.through, MAX_DEPTH);
      PageIs(s.tables, timeline, c.through, c.last, limit, MAX_DEPTH);
    }
  }

  lemma PageIs(l: Tables, id: Uuid, through: nat, last: Option<nat>, limit: nat, levels: nat)
    requires H.Inv(l) && Resolves(l.timelines, id, through, levels) && H.Seen(l, id, through, levels) && limit > 0
    requires |Segments(l.timelines, id, through, levels)| > 0
    requires last.Some? || H.Whole(l, Segments(l.timelines, id, through, levels)[0])
    ensures var c := VisibleRecordCursor(id, through, Segments(l.timelines, id, through, levels), last);
      PageShows(l, id, through, last, limit, PageFrom(H.View(l, id, through, levels), c, limit), levels)
  {
    var view := H.View(l, id, through, levels);
    var first := FirstShown(l, id, through, levels);
    var c := VisibleRecordCursor(id, through, Segments(l.timelines, id, through, levels), last);
    var page := PageFrom(view, c, limit);
    var start := if last.Some? && last.value >= first then last.value + 1 - first else 0;
    ViewPositions(l, id, through, levels);
    PageOf(view, first, c, limit);
    ViewRecords(l, id, through, levels);
    forall i | 0 <= i < |page.records| ensures Some(page.records[i]) == H.RecordAt(l, id, first + start + i, levels) {
      assert page.records[i] == view[start + i];
    }
  }

  /** The first position a branch shows: its imported baseline's, where it has one. */
  lemma FirstShown(l: Tables, id: Uuid, through: nat, levels: nat) returns (first: nat)
    requires H.Inv(l) && Resolves(l.timelines, id, through, levels)
    requires |Segments(l.timelines, id, through, levels)| > 0
    ensures var root := Segments(l.timelines, id, through, levels)[0];
      && first == 1 - |H.Baseline(l, id, levels)| && first <= 1
      && (first == 0 ==> root.includeZero) && (first == 1 && root.includeZero ==> (root.timeline, 0) !in l.records)
  {
    H.BaselineAtRoot(l, id, through, levels);
    H.BaselineWanted(l, id, through, levels);
    first := 1 - |H.Baseline(l, id, levels)|;
  }

  lemma ViewRecords(l: Tables, id: Uuid, through: nat, levels: nat)
    requires H.Seen(l, id, through, levels)
    ensures var view, base := H.View(l, id, through, levels), H.Baseline(l, id, levels);
      |base| <= 1 && forall i {:trigger view[i]} :: 0 <= i < |view| ==> Some(view[i]) == H.RecordAt(l, id, i + 1 - |base|, levels)
  {
    var view, base := H.View(l, id, through, levels), H.Baseline(l, id, levels);
    forall i | 0 <= i < |view| ensures Some(view[i]) == H.RecordAt(l, id, i + 1 - |base|, levels) {
      assert i >= |base| ==> view[i] == H.Numbered(l, id, through, levels)[i - |base|];
    }
  }

  /** A page of consecutively numbered rows. */
  lemma PageOf(view: seq<Record>, first: nat, c: VisibleRecordCursor, limit: nat)
    requires limit > 0 && forall i :: 0 <= i < |view| ==> view[i].position == first + i
    ensures var page := PageFrom(view, c, limit);
            var start := if c.last.Some? && c.last.value >= first then c.last.value + 1 - first else 0;
            var left := if start <= |view| then |view| - start else 0;
      && |page.records| == (if left > limit then limit else left)
      && (forall i {:trigger page.records[i]} :: 0 <= i < |page.records| ==> page.records[i] == view[start + i])
      && (page.next.Some? <==> left > limit)
      && (page.next.Some? ==> page.next.value == c.(last := page.next.value.last) && page.next.value.last.Some?
                              && page.next.value.last.value + 1 == first + start + limit)
  {
    AfterSegment(view, first, c.last);
  }

  lemma ViewPositions(l: Tables, id: Uuid, through: nat, levels: nat)
    requires H.Inv(l) && Resolves(l.timelines, id, through, levels) && H.Seen(l, id, through, levels)
    ensures var view, base := H.View(l, id, through, levels), H.Baseline(l, id, levels);
      |base| <= 1 && |view| == through + |base| && forall i :: 0 <= i < |view| ==> view[i].position == i + 1 - |base|
  {
    var view, base := H.View(l, id, through, levels), H.Baseline(l, id, levels);
    forall i | 0 <= i < |view| ensures view[i].position == i + 1 - |base| {
      if i < |base| {
        H.BaselinePosition(l, id, levels);
      } else {
        H.SeenEverywhere(l, id, through, levels, i + 1 - |base|);
      }
    }
  }

  method ListVisibleRecords(store: GameMemoryRepo, timeline: Uuid, cursor: Option<VisibleRecordCursor>, limit: int)
    returns (r: Result<Page>)
    requires store.Valid()
    ensures r == Listed(store.Contents(), timeline, cursor, limit)
    ensures r.Ok? <==> MayList(store.Contents(), timeline, cursor, limit)
    ensures r.Ok? ==>
              var (through, last) := if cursor.Some? then (cursor.value.through, cursor.value.last) else (store.timelines[timeline].durable, None);
              PageShows(store.Contents().tables, timeline, through, last, limit, r.value, MAX_DEPTH)
  {
    ListedMeans(store.Contents(), timeline, cursor, limit);
    if limit < 1 || limit > 100 {
      return Err(Invalid);
    }
    if store.state.None? {
      return Err(NotFound);
    }
    if store.state.value.active != Some(timeline) {
      return Err(Error.Cursor);
    }
    if !store.state.value.status.ReadyState? && !store.state.value.status.EndedState? {
      return Err(Busy);
    }
    if timeline !in store.timelines {
      return Err(NotFound);
    }
    var current := VisibleRecordCursor(timeline, store.timelines[timeline].durable, [], None);
    if cursor.Some? {
      if cursor.value.timeline != timeline {
        return Err(Error.Cursor);
      }
      current := cursor.value;
    }
    ghost var l := store.Contents().tables;
    NoDangling(l);
    var path := ResolveVisiblePath(store.timelines, timeline, current.through);
    if path.Err? {
      return Err(path.error);
    }
    if cursor.Some? && current.path != path.value {
      return Err(Error.Cursor);
    }
    current := current.(path := path.value);
    PathShape(l, timeline, current.through, MAX_DEPTH);
    r := ReadPage(store.Contents().tables, current, limit);
  }

  /** One segment's part of a page; None reports a gap. */
  method ReadSegment(l: Tables, s: Segment, last: Option<nat>, n: nat) returns (rows: Option<seq<Record>>)
    requires SegmentPresent(l, s) && n > 0
    ensures rows == if last.None? && !H.Whole(l, s) then None else Some(Take(After(H.SegmentRows(l, s), last), n))
  {
    var part := Select(l, s.timeline, Resume(s, last), s.upper, n);
    var contiguous, expected := CheckRows(part, Resume(s, last));
    if last.None? && !H.Whole(l, s) {
      MissingBaseline(l, s, n);
    } else {
      PresentRows(l, s, last, n);
    }
    if !contiguous {
      return None;
    }
    if |part| < n && expected <= s.upper {
      return None;
    }
    return Some(part);
  }

  lemma PageAdvances(l: Tables, path: seq<Segment>, i: nat, last: Option<nat>, n: nat, records: seq<Record>)
    requires Present(l, path) && i < |path| && |records| < n
    requires records == Take(After(ReadTo(l, path, i), last), n)
    ensures records + Take(After(H.SegmentRows(l, path[i]), last), n - |records|) == Take(After(ReadTo(l, path, i + 1), last), n)
  {
    AfterJoin(ReadTo(l, path, i), H.SegmentRows(l, path[i]), last);
    TakeJoin(After(ReadTo(l, path, i), last), After(H.SegmentRows(l, path[i]), last), n);
  }

  /** The loop over segments reads one record more than a page holds, or fails at a missing baseline. */
  method ReadRecords(l: Tables, path: seq<Segment>, last: Option<nat>, n: nat) returns (r: Option<seq<Record>>)
    requires n > 0 && Shaped(path) && Present(l, path)
    ensures r == if last.None? && !H.Whole(l, path[0]) then None else Some(Take(After(ReadTo(l, path, |path|), last), n))
  {
    var records: seq<Record> := [];
    var i := 0;
    while i < |path| && |records| < n
      invariant 0 <= i <= |path| && |records| <= n
      invariant i > 0 ==> last.Some? || H.Whole(l, path[0])
      invariant records == Take(After(ReadTo(l, path, i), last), n)
    {
      PageAdvances(l, path, i, last, n, records);
      var part := ReadSegment(l, path[i], last, n - |records|);
      if part.None? {
        return None;
      }
      records := records + part.value;
      i := i + 1;
    }
    if i < |path| {
      ReadToGrows(l, path, i, |path|);
      FullPage(ReadTo(l, path, i), ReadTo(l, path, |path|), last, n);
    }
    return Some(records);
  }

  method ReadPage(l: Tables, current: VisibleRecordCursor, limit: nat) returns (r: Result<Page>)
    requires limit > 0 && Shaped(current.path) && Present(l, current.path)
    ensures r == if current.last.None? && !H.Whole(l, current.path[0]) then Err(Gap)
                 else Ok(PageFrom(ReadTo(l, current.path, |current.path|), current, limit))
  {
    var read := ReadRecords(l, current.path, current.last, limit + 1);
    if read.None? {
      return Err(Gap);
    }
    var records := read.value;
    if |records| > limit {
      ghost var rest := After(ReadTo(l, current.path, |current.path|), current.last);
      assert rest[..limit + 1][..limit] == rest[..limit];
      records := records[..limit];
      return Ok(Page(records, Some(current.(last := Some(records[|records| - 1].position)))));
    }
    return Ok(Page(records, None));
  }

  // ---------------------------------------------------------------- following cursors to the end

  predicate Ascending(rows: seq<Record>) {
    forall i, j :: 0 <= i < j < |rows| ==> rows[i].position < rows[j].position
  }

  lemma ViewAscending(l: Tables, id: Uuid, through: nat, levels: nat)
    requires H.Inv(l) && Resolves(l.timelines, id, through, levels) && H.Seen(l, id, through, levels)
    ensures Ascending(H.View(l, id, through, levels))
  {
    ViewPositions(l, id, through, levels);
  }

  /** Resuming after the record at index `i` delivers exactly what follows it. */
  lemma {:induction false} AfterIndex(rows: seq<Record>, i: nat)
    requires Ascending(rows) && i < |rows|
    ensures After(rows, Some(rows[i].position)) == rows[i + 1..]
  {
    if i == 0 {
      AfterAll(rows[1..], Some(rows[0].position));
    } else {
      AfterIndex(rows[1..], i - 1);
      assert rows[1..][i..] == rows[i + 1..];
    }
  }

  lemma {:induction false} AfterAll(rows: seq<Record>, last: Option<nat>)
    requires last.Some? ==> forall r :: r in rows ==> r.position > last.value
    ensures After(rows, last) == rows
  {
    if rows != [] {
      AfterAll(rows[1..], last);
    }
  }

  datatype Delivery = Complete(rows: seq<Record>) | Partial(rows: seq<Record>) | Failed(error: Error)

  function Prepended(rows: seq<Record>, d: Delivery): Delivery {
    match d
    case Complete(more) => Complete(rows + more)
    case Partial(more) => Partial(rows + more)
    case Failed(e) => Failed(e)
  }

  /** A reader asks for one page per store state until a page carries no cursor. */
  ghost function Follow(states: seq<Store>, timeline: Uuid, cursor: Option<VisibleRecordCursor>, limits: seq<int>): Delivery
    requires |states| == |limits| && forall s :: s in states ==> H.Inv(s.tables)
    decreases |states|
  {
    if states == [] then Partial([])
    else
      match Listed(states[0], timeline, cursor, limits[0])
      case Err(e) => Failed(e)
      case Ok(page) =>
        if page.next.None? then Complete(page.records)
        else
          Prepended(page.records, Follow(states[1..], timeline, page.next, limits[1..]))
  }

  function Total(limits: seq<int>): int {
    if limits == [] then 0 else limits[0] + Total(limits[1..])
  }

  /** The room stays readable on `timeline` while its tables only grow; page sizes are the ones accepted. */
  ghost predicate Readers(states: seq<Store>, timeline: Uuid, limits: seq<int>) {
    && |states| == |limits|
    && (forall i {:trigger states[i]} :: 0 <= i < |states| ==>
          && H.Inv(states[i].tables) && states[i].state.Some? && states[i].state.value.active == Some(timeline)
          && (states[i].state.value.status.ReadyState? || states[i].state.value.status.EndedState?))
    && (forall i, j {:trigger states[i], states[j]} :: 0 <= i < j < |states| ==> H.Grows(states[i].tables, states[j].tables))
    && (forall i {:trigger limits[i]} :: 0 <= i < |limits| ==> 1 <= limits[i] <= 100)
  }

  /** What a cursor promises: the view at the first page, which every later state still shows. */
  ghost predicate Promises(s: Store, c: VisibleRecordCursor, levels: nat, view: seq<Record>) {
    && Resolves(s.tables.timelines, c.timeline, c.through, levels)
    && c.path == Segments(s.tables.timelines, c.timeline, c.through, levels)
    && H.Seen(s.tables, c.timeline, c.through, levels)
    && H.View(s.tables, c.timeline, c.through, levels) == view
    && H.Whole(s.tables, c.path[0])
  }

  lemma PromiseKept(s: Store, n: Store, c: VisibleRecordCursor, levels: nat, view: seq<Record>)
    requires H.Inv(s.tables) && H.Inv(n.tables) && H.Grows(s.tables, n.tables)
    requires Promises(s, c, levels, view)
    ensures Promises(n, c, levels, view)
  {
    H.ResolvesGrows(s.tables, n.tables, c.timeline, c.through, levels);
    H.ViewKept(s.tables, n.tables, c.timeline, c.through, levels);
  }

  lemma ListedPage(s: Store, c: VisibleRecordCursor, limit: int, view: seq<Record>)
    requires H.Inv(s.tables) && Promises(s, c, MAX_DEPTH, view) && 1 <= limit <= 100
    requires s.state.Some? && s.state.value.active == Some(c.timeline)
    requires s.state.value.status.ReadyState? || s.state.value.status.EndedState?
    ensures Listed(s, c.timeline, Some(c), limit) == Ok(PageFrom(view, c, limit))
    ensures c.last.None? && c.through == s.tables.timelines[c.timeline].durable ==>
              Listed(s, c.timeline, None, limit) == Ok(PageFrom(view, c, limit))
  {
  }

  /** What is left after a page is what the next page starts from. */
  lemma {:induction false} AfterSuffix(rows: seq<Record>, last: Option<nat>)
    requires Ascending(rows)
    ensures |After(rows, last)| <= |rows| && After(rows, last) == rows[|rows| - |After(rows, last)|..]
  {
    if rows != [] {
      if last.Some? && rows[0].position <= last.value {
        AfterSuffix(rows[1..], last);
      } else {
        AfterAll(rows, last);
      }
    }
  }

  lemma NextPageStarts(view: seq<Record>, last: Option<nat>, limit: nat)
    requires Ascending(view) && 0 < limit <= |After(view, last)|
    ensures After(view, Some(After(view, last)[limit - 1].position)) == After(view, last)[limit..]
  {
    AfterSuffix(view, last);
    AfterIndex(view, |view| - |After(view, last)| + limit - 1);
  }

  lemma TotalPositive(limits: seq<int>)
    requires forall i {:trigger limits[i]} :: 0 <= i < |limits| ==> 1 <= limits[i]
    ensures Total(limits) >= |limits|
  {
    if limits != [] {
      TotalPositive(limits[1..]);
    }
  }

  /** Everything if the pages asked for have room for it, otherwise as much as they hold. */
  function Expected(rest: seq<Record>, room: nat): Delivery {
    if |rest| <= room then Complete(rest) else Partial(rest[..room])
  }

  lemma ExpectedJoin(rest: seq<Record>, limit: nat, room: nat)
    requires limit < |rest|
    ensures Expected(rest, limit + room) == Prepended(rest[..limit], Expected(rest[limit..], room))
  {
    assert rest == rest[..limit] + rest[limit..];
    if |rest| > limit + room {
      assert rest[..limit + room] == rest[..limit] + rest[limit..][..room];
    }
  }

  lemma {:induction false} FollowFrom(states: seq<Store>, c: VisibleRecordCursor, limits: seq<int>, view: seq<Record>)
    requires |states| > 0 && Readers(states, c.timeline, limits)
    requires Promises(states[0], c, MAX_DEPTH, view) && Ascending(view)
    ensures Total(limits) >= 0
    ensures Follow(states, c.timeline, Some(c), limits) == Expected(After(view, c.last), Total(limits))
    decreases |states|, 0, 1
  {
    TotalPositive(limits);
    ListedPage(states[0], c, limits[0], view);
    FollowRest(states, c, limits, view);
  }

  lemma TailReads(states: seq<Store>, c: VisibleRecordCursor, limits: seq<int>, view: seq<Record>)
    requires |states| > 1 && Readers(states, c.timeline, limits) && Promises(states[0], c, MAX_DEPTH, view)
    ensures Readers(states[1..], c.timeline, limits[1..]) && Promises(states[1], c, MAX_DEPTH, view)
  {
    PromiseKept(states[0], states[1], c, MAX_DEPTH, view);
  }

  /** The first page is as expected; the rest follows its cursor through the later states. */
  lemma {:induction false} FollowRest(states: seq<Store>, c: VisibleRecordCursor, limits: seq<int>, view: seq<Record>)
    requires |states| > 0 && Readers(states, c.timeline, limits)
    requires Promises(states[0], c, MAX_DEPTH, view) && Ascending(view)
    ensures Total(limits) >= 0
    ensures var page := PageFrom(view, c, limits[0]);
      Expected(After(view, c.last), Total(limits)) ==
        if page.next.None? then Complete(page.records)
        else Prepended(page.records, Follow(states[1..], c.timeline, page.next, limits[1..]))
    decreases |states|, 0, 0
  {
    TotalPositive(limits);
    TotalPositive(limits[1..]);
    var rest, limit := After(view, c.last), limits[0];
    if |rest| > limit {
      NextPageStarts(view, c.last, limit);
      var next := c.(last := Some(rest[limit - 1].position));
      FollowTail(states, next, limits, view);
      ExpectedJoin(rest, limit, Total(limits[1..]));
    }
  }

  lemma {:induction false} FollowTail(states: seq<Store>, c: VisibleRecordCursor, limits: seq<int>, view: seq<Record>)
    requires |states| > 0 && Readers(states, c.timeline, limits)
    requires Promises(states[0], c, MAX_DEPTH, view) && Ascending(view)
    requires After(view, c.last) != []
    ensures Total(limits[1..]) >= 0
    ensures Follow(states[1..], c.timeline, Some(c), limits[1..]) == Expected(After(view, c.last), Total(limits[1..]))
    decreases |states| - 1, 1, 0
  {
    TotalPositive(limits[1..]);
    if |states| > 1 {
      TailReads(states, c, limits, view);
      FollowFrom(states[1..], c, limits[1..], view);
    }
  }

  /**
   Following cursors from the first page delivers, in order, without gap or repetition, the branch
   view frozen at that page, for every choice of page sizes and whatever is archived in between;
   a root that lost its imported baseline is reported as a gap at once.
   */
  lemma PagesDeliverFrozenView(states: seq<Store>, timeline: Uuid, limits: seq<int>)
    requires |states| > 0 && Readers(states, timeline, limits)
    requires timeline in states[0].tables.timelines && states[0].tables.timelines[timeline].status.Active?
    ensures var l, mark := states[0].tables, states[0].tables.timelines[timeline].durable;
      && Resolves(l.timelines, timeline, mark, MAX_DEPTH) && H.Seen(l, timeline, mark, MAX_DEPTH)
      && Total(limits) >= |limits|
      && Follow(states, timeline, None, limits) ==
           if H.Whole(l, Segments(l.timelines, timeline, mark, MAX_DEPTH)[0])
           then Expected(H.View(l, timeline, mark, MAX_DEPTH), Total(limits))
           else Failed(Gap)
  {
    var l, mark := states[0].tables, states[0].tables.timelines[timeline].durable;
    assert H.TimelineOk(l, timeline);
    H.ActiveResolves(l, timeline, mark);
    H.PathReadable(l, timeline, mark, MAX_DEPTH);
    TotalPositive(limits);
    var path := Segments(l.timelines, timeline, mark, MAX_DEPTH);
    if H.Whole(l, path[0]) {
      var view := H.View(l, timeline, mark, MAX_DEPTH);
      var c := VisibleRecordCursor(timeline, mark, path, None);
      ViewAscending(l, timeline, mark, MAX_DEPTH);
      AfterAll(view, None);
      ListedPage(states[0], c, limits[0], view);
      FollowRest(states, c, limits, view);
    }
  }

  /** A reader that asks for as many pages as there are records has seen them all. */
  lemma PagingTerminates(states: seq<Store>, timeline: Uuid, limits: seq<int>)
    requires |states| > 0 && Readers(states, timeline, limits)
    requires timeline in states[0].tables.timelines && states[0].tables.timelines[timeline].status.Active?
    requires H.Seen(states[0].tables, timeline, states[0].tables.timelines[timeline].durable, MAX_DEPTH)
    requires |states| >= |H.View(states[0].tables, timeline, states[0].tables.timelines[timeline].durable, MAX_DEPTH)|
    ensures !Follow(states, timeline, None, limits).Partial?
  {
    PagesDeliverFrozenView(states, timeline, limits);
  }
}
