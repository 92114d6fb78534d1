/**
 The summary transactions as they run: the walk that finds a branch's summary, the loop that reads
 the records after it, the loop that gathers one job's worth of them, and the two transactions.
 */
module SummaryStore {
  import opened MemoryModel
  import opened Ledger
  import H = History
  import opened Paging
  import M = MemoryStore
  import opened Summaries
  import opened SummaryInvariant

  // ---------------------------------------------------------------- finding the summary

  /** Each segment of a path belongs to the parent of the next one, cut at its fork. */
  lemma PathStep(ts: map<Uuid, Timeline>, id: Uuid, through: nat, levels: nat, i: nat)
    requires Resolves(ts, id, through, levels) && 0 < i <= |Segments(ts, id, through, levels)|
    ensures var path := Segments(ts, id, through, levels);
      && path[i - 1].timeline in ts
      && (i == 1 <==> ts[path[i - 1].timeline].parent.None?)
      && (i > 1 ==> ts[path[i - 1].timeline].parent == Some(path[i - 2].timeline)
                    && ts[path[i - 1].timeline].fork == path[i - 2].upper)
  {
    var path := Segments(ts, id, through, levels);
    var t := path[i - 1].timeline;
    SegmentPrefix(ts, id, through, levels, i - 1);
    var own := Segments(ts, t, path[i - 1].upper, levels);
    assert own == path[..i];
    if ts[t].parent.Some? {
      var up := Segments(ts, ts[t].parent.value, ts[t].fork, levels - 1);
      SegmentsLength(ts, ts[t].parent.value, ts[t].fork, levels - 1);
      assert own[..i - 1] == up;
      assert up[|up| - 1] == OwnSegment(ts, ts[t].parent.value, ts[t].fork);
    }
  }

  lemma PathEnd(ts: map<Uuid, Timeline>, id: Uuid, through: nat, levels: nat)
    requires Resolves(ts, id, through, levels)
    ensures var path := Segments(ts, id, through, levels);
      0 < |path| <= levels && path[|path| - 1].timeline == id && path[|path| - 1].upper == through
  {
    SegmentsLength(ts, id, through, levels);
  }

  /** The save a branch was loaded from is never deleted. */
  ghost predicate OriginsPresent(s: Room) {
    forall id {:trigger s.tables.timelines[id]} :: id in s.tables.timelines && s.tables.timelines[id].originSave.Some? ==>
      s.tables.timelines[id].originSave.value in s.saves
  }

  lemma OriginsKept(s: Room)
    requires Inv(s)
    ensures OriginsPresent(s)
  {
    forall id | id in s.tables.timelines && s.tables.timelines[id].originSave.Some?
      ensures s.tables.timelines[id].originSave.value in s.saves
    {
      assert BranchOk(s, id);
    }
  }

  /** On the way to the nearest summary the walk meets a branch whose save is gone. */
  predicate OriginMissing(s: Room, id: Uuid, upper: nat, levels: nat)
    decreases levels, id
  {
    && levels > 0 && id in s.tables.timelines && Highest(Rows(s, id), upper).None?
    && var t := s.tables.timelines[id];
       || (t.originSave.Some? && t.originSave.value !in s.saves)
       || (Inherited(s, id).None? && t.parent.Some? && OriginMissing(s, t.parent.value, t.fork, levels - 1))
  }

  lemma {:induction false} NoOriginMissing(s: Room, id: Uuid, upper: nat, levels: nat)
    requires OriginsPresent(s)
    ensures !OriginMissing(s, id, upper, levels)
    decreases levels
  {
    if levels > 0 && id in s.tables.timelines {
      var t := s.tables.timelines[id];
      if t.parent.Some? {
        NoOriginMissing(s, t.parent.value, t.fork, levels - 1);
      }
    }
  }

  /** A stored summary of the segment's own branch that does not pass the segment's end. */
  ghost predicate Eligible(s: Room, g: Segment, x: Summary) {
    g.timeline in s.summaries && x in s.summaries[g.timeline] && x.through <= g.upper
  }

  /** The save the segment's branch was loaded from froze this summary. */
  ghost predicate FrozenFor(s: Room, g: Segment, x: Summary) {
    && g.timeline in s.tables.timelines && s.tables.timelines[g.timeline].originSave.Some?
    && s.tables.timelines[g.timeline].originSave.value in s.saves
    && s.saves[s.tables.timelines[g.timeline].originSave.value].summary == Some(x)
  }

  ghost predicate NoneEligible(s: Room, g: Segment) {
    forall x :: !Eligible(s, g, x)
  }

  /** The furthest of its own summaries, or without any the one its save froze. */
  ghost predicate Answers(s: Room, g: Segment, x: Summary) {
    || (Eligible(s, g, x) && forall y :: Eligible(s, g, y) ==> Beyond(x, y))
    || (NoneEligible(s, g) && FrozenFor(s, g, x))
  }

  ghost predicate Silent(s: Room, g: Segment) {
    NoneEligible(s, g) && forall x :: !FrozenFor(s, g, x)
  }

  /** The last segment that has any answer gives it; without one every segment is silent. */
  ghost predicate NearestOn(s: Room, path: seq<Segment>, found: Option<Summary>) {
    if found.None? then forall j :: 0 <= j < |path| ==> Silent(s, path[j])
    else exists i :: 0 <= i < |path| && Answers(s, path[i], found.value) && forall j :: i < j < |path| ==> Silent(s, path[j])
  }

  lemma SegmentAnswers(s: Room, g: Segment)
    ensures var own := Highest(Rows(s, g.timeline), g.upper);
      && (own.Some? ==> Answers(s, g, own.value))
      && (own.None? ==> NoneEligible(s, g))
      && (own.None? && g.timeline in s.tables.timelines ==>
            if Inherited(s, g.timeline).Some? then Answers(s, g, Inherited(s, g.timeline).value) else Silent(s, g))
  {
    HighestIsFurthest(Rows(s, g.timeline), g.upper);
    var own := Highest(Rows(s, g.timeline), g.upper);
    if own.Some? {
      assert Eligible(s, g, own.value);
    }
  }

  lemma {:induction false} NearestIsOnPath(s: Room, id: Uuid, through: nat, levels: nat)
    requires Resolves(s.tables.timelines, id, through, levels)
    ensures NearestOn(s, Segments(s.tables.timelines, id, through, levels), Nearest(s, id, through, levels))
    decreases levels
  {
    var ts := s.tables.timelines;
    var path, own := Segments(ts, id, through, levels), OwnSegment(ts, id, through);
    PathEnd(ts, id, through, levels);
    SegmentAnswers(s, own);
    assert path[|path| - 1] == own;
    if Silent(s, own) && ts[id].parent.Some? {
      NearestIsOnPath(s, ts[id].parent.value, ts[id].fork, levels - 1);
      var up := Segments(ts, ts[id].parent.value, ts[id].fork, levels - 1);
      assert path == up + [own];
      SilentChild(s, up, own, Nearest(s, ts[id].parent.value, ts[id].fork, levels - 1));
    }
  }

  lemma SilentChild(s: Room, up: seq<Segment>, own: Segment, found: Option<Summary>)
    requires NearestOn(s, up, found) && Silent(s, own)
    ensures NearestOn(s, up + [own], found)
  {
    var path := up + [own];
    if found.Some? {
      var i :| 0 <= i < |up| && Answers(s, up[i], found.value) && forall j :: i < j < |up| ==> Silent(s, up[j]);
      assert Answers(s, path[i], found.value);
    }
  }

  /** The loop of summaryAt: nearest segment first, its own rows before the save it was loaded from. */
  method SearchPath(s: Room, path: seq<Segment>, ghost id: Uuid, ghost through: nat, ghost levels: nat)
    returns (found: Result<Option<Summary>>)
    requires Resolves(s.tables.timelines, id, through, levels) && path == Segments(s.tables.timelines, id, through, levels)
    ensures found == if OriginMissing(s, id, through, levels) then Err(NotFound) else Ok(Nearest(s, id, through, levels))
  {
    PathEnd(s.tables.timelines, id, through, levels);
    var i := |path|;
    while i > 0
      invariant 0 <= i <= |path| <= levels
      invariant Nearest(s, id, through, levels) ==
                  if i == 0 then None else Nearest(s, path[i - 1].timeline, path[i - 1].upper, levels - (|path| - i))
      invariant OriginMissing(s, id, through, levels) <==>
                  i > 0 && OriginMissing(s, path[i - 1].timeline, path[i - 1].upper, levels - (|path| - i))
    {
      PathStep(s.tables.timelines, id, through, levels, i);
      var segment := path[i - 1];
      var own := Highest(Rows(s, segment.timeline), segment.upper);
      if own.Some? {
        return Ok(own);
      }
      var origin := s.tables.timelines[segment.timeline].originSave;
      if origin.Some? {
        if origin.value !in s.saves {
          return Err(NotFound);
        }
        if s.saves[origin.value].summary.Some? {
          return Ok(s.saves[origin.value].summary);
        }
      }
      i := i - 1;
    }
    return Ok(None);
  }

  /** summaryAt. */
  method FindSummary(s: Room, timeline: Uuid, through: nat) returns (r: Result<Summary>)
    requires H.Inv(s.tables)
    ensures r.Ok? <==> Resolves(s.tables.timelines, timeline, through, MAX_DEPTH) && !OriginMissing(s, timeline, through, MAX_DEPTH)
    ensures r.Ok? ==> r.value == SummaryAt(s, timeline, through, MAX_DEPTH)
    ensures OriginsPresent(s) ==> (r.Ok? <==> Resolves(s.tables.timelines, timeline, through, MAX_DEPTH))
    ensures r.Ok? ==>
              var path := Segments(s.tables.timelines, timeline, through, MAX_DEPTH);
              || NearestOn(s, path, Some(r.value))
              || (NearestOn(s, path, None) && |path| > 0
                  && r.value == if (path[0].timeline, 0) in s.tables.records
                                then Summary(path[0].timeline, 0, 0, s.tables.records[(path[0].timeline, 0)].payload.summary, [])
                                else Summary(timeline, 0, 0, "", []))
    ensures r.Err? && timeline in s.tables.timelines ==>
              r.error == if Resolves(s.tables.timelines, timeline, through, MAX_DEPTH) then NotFound else Branch
  {
    M.NoDangling(s.tables);
    var path := ResolveVisiblePath(s.tables.timelines, timeline, through);
    if path.Err? {
      return Err(path.error);
    }
    NearestIsOnPath(s, timeline, through, MAX_DEPTH);
    if OriginsPresent(s) {
      NoOriginMissing(s, timeline, through, MAX_DEPTH);
    }
    var found := SearchPath(s, path.value, timeline, through, MAX_DEPTH);
    if found.Err? {
      return Err(found.error);
    }
    if found.value.Some? {
      return Ok(found.value.value);
    }
    PathEnd(s.tables.timelines, timeline, through, MAX_DEPTH);
    H.BaselineAtRoot(s.tables, timeline, through, MAX_DEPTH);
    var root := path.value[0].timeline;
    if (root, 0) in s.tables.records {
      var baseline := s.tables.records[(root, 0)];
      assert H.RowOk(s.tables, root, 0);
      return Ok(Summary(baseline.timeline, 0, 0, baseline.payload.summary, []));
    }
    return Ok(Summary(timeline, 0, 0, "", []));
  }

  // ---------------------------------------------------------------- reading what follows it

  /** The path without its baseline, which this reader fetches by itself. */
  function Numberless(path: seq<Segment>): seq<Segment> {
    seq(|path|, i requires 0 <= i < |path| => path[i].(includeZero := false))
  }

  lemma NumberlessPresent(l: Tables, id: Uuid, through: nat, levels: nat)
    requires H.Inv(l) && Resolves(l.timelines, id, through, levels)
    ensures var path := Numberless(Segments(l.timelines, id, through, levels)); Shaped(path) && Present(l, path)
    ensures H.Seen(l, id, through, levels)
  {
    var full := Segments(l.timelines, id, through, levels);
    var path := Numberless(full);
    PathShape(l, id, through, levels);
    forall i | 0 <= i < |path| ensures SegmentPresent(l, path[i]) {
      assert SegmentPresent(l, full[i]);
    }
  }

  /** The numbered rows of a path are the numbered part of the view. */
  lemma {:induction false} NumberedIsRead(l: Tables, id: Uuid, through: nat, levels: nat)
    requires H.Inv(l) && Resolves(l.timelines, id, through, levels)
    ensures var path := Numberless(Segments(l.timelines, id, through, levels));
      && Shaped(path) && Present(l, path) && H.Seen(l, id, through, levels)
      && ReadTo(l, path, |path|) == H.Numbered(l, id, through, levels)
    decreases levels
  {
    var path := Numberless(Segments(l.timelines, id, through, levels));
    var own := Segment(id, l.timelines[id].fork, through, false);
    NumberlessPresent(l, id, through, levels);
    assert path[|path| - 1] == own && SegmentPresent(l, own);
    assert ReadTo(l, path, |path|) == ReadTo(l, path, |path| - 1) + H.SegmentRows(l, own);
    if l.timelines[id].parent.Some? {
      var parent, fork := l.timelines[id].parent.value, l.timelines[id].fork;
      var up := Numberless(Segments(l.timelines, parent, fork, levels - 1));
      NumberedIsRead(l, parent, fork, levels - 1);
      assert path[..|path| - 1] == up;
      ReadToPrefix(l, up, path, |up|);
      NumberedChild(l, id, through, levels);
    } else {
      NumberedRoot(l, id, through, levels);
    }
  }

  lemma NumberedRoot(l: Tables, id: Uuid, through: nat, levels: nat)
    requires levels > 0 && id in l.timelines && l.timelines[id].parent.None? && l.timelines[id].fork == 0
    requires H.Seen(l, id, through, levels)
    ensures forall p :: 0 < p <= through ==> (id, p) in l.records
    ensures H.SegmentRows(l, Segment(id, 0, through, false)) == H.Numbered(l, id, through, levels)
  {
    forall p | 0 < p <= through ensures (id, p) in l.records {
      assert H.RecordAt(l, id, p, levels).Some?;
    }
  }

  lemma {:induction false} ReadToPrefix(l: Tables, a: seq<Segment>, b: seq<Segment>, i: nat)
    requires i <= |a| <= |b| && a == b[..|a|] && Present(l, a) && Present(l, b)
    ensures ReadTo(l, a, i) == ReadTo(l, b, i)
  {
    if i > 0 {
      ReadToPrefix(l, a, b, i - 1);
    }
  }

  lemma NumberedChild(l: Tables, id: Uuid, through: nat, levels: nat)
    requires levels > 0 && id in l.timelines && l.timelines[id].parent.Some? && l.timelines[id].fork <= through
    requires H.Seen(l, id, through, levels) && H.Seen(l, l.timelines[id].parent.value, l.timelines[id].fork, levels - 1)
    requires forall p :: l.timelines[id].fork < p <= through ==> (id, p) in l.records
    ensures H.Numbered(l, id, through, levels) ==
              H.Numbered(l, l.timelines[id].parent.value, l.timelines[id].fork, levels - 1)
              + H.SegmentRows(l, Segment(id, l.timelines[id].fork, through, false))
  {
    var parent, fork := l.timelines[id].parent.value, l.timelines[id].fork;
    var rows := H.SegmentRows(l, Segment(id, fork, through, false));
    var all, up := H.Numbered(l, id, through, levels), H.Numbered(l, parent, fork, levels - 1);
    forall i | 0 <= i < through ensures all[i] == (up + rows)[i] {
      if i < fork {
        assert H.RecordAt(l, id, i + 1, levels) == H.RecordAt(l, parent, i + 1, levels - 1);
      } else {
        assert rows[i - fork] == l.records[(id, i + 1)];
      }
    }
    assert all == up + rows;
  }

  /** Skipping what lies at or below a watermark. */
  lemma AfterMark(l: Tables, id: Uuid, after: nat, through: nat, levels: nat)
    requires H.Inv(l) && Resolves(l.timelines, id, through, levels) && H.Seen(l, id, through, levels)
    ensures After(H.Numbered(l, id, through, levels), Some(after)) ==
              if after <= through then H.Numbered(l, id, through, levels)[after..] else []
  {
    var rows := H.Numbered(l, id, through, levels);
    forall i | 0 <= i < |rows| ensures rows[i].position == 1 + i {
      H.SeenEverywhere(l, id, through, levels, 1 + i);
    }
    AfterSegment(rows, 1, Some(after));
  }

  /** One segment's records above the watermark, none missing. */
  method ReadAbove(l: Tables, s: Segment, after: nat, n: nat) returns (rows: Option<seq<Record>>)
    requires SegmentPresent(l, s) && !s.includeZero && n > 0
    ensures rows == Some(Take(After(H.SegmentRows(l, s), Some(after)), n))
  {
    PresentRows(l, s, Some(after), n);
    var lower := s.lower;
    if after > lower {
      lower := after;
    }
    if lower >= s.upper {
      return Some([]);
    }
    var part := Select(l, s.timeline, lower + 1, s.upper, n);
    var contiguous, expected := CheckRows(part, lower + 1);
    if !contiguous || (|part| < n && expected <= s.upper) {
      return None;
    }
    return Some(part);
  }

  /** The first `i` parts joined. */
  ghost function Flat<T>(parts: seq<seq<T>>, i: nat): seq<T>
    requires i <= |parts|
  {
    if i == 0 then [] else Flat(parts, i - 1) + parts[i - 1]
  }

  lemma {:induction false} FlatSplit<T>(parts: seq<seq<T>>, i: nat, j: nat) returns (rest: seq<T>)
    requires i <= j <= |parts|
    ensures Flat(parts, j) == Flat(parts, i) + rest
    decreases j
  {
    if i == j {
      rest := [];
    } else {
      var up := FlatSplit(parts, i, j - 1);
      rest := up + parts[j - 1];
    }
  }

  /** Each segment's rows above the watermark. */
  ghost predicate PartsOf(l: Tables, path: seq<Segment>, after: nat, parts: seq<seq<Record>>)
    requires Present(l, path)
  {
    |parts| == |path| && forall i {:trigger parts[i]} :: 0 <= i < |path| ==> parts[i] == After(H.SegmentRows(l, path[i]), Some(after))
  }

  lemma {:induction false} FlatIsAfter(l: Tables, path: seq<Segment>, after: nat, parts: seq<seq<Record>>, i: nat)
    requires Present(l, path) && PartsOf(l, path, after, parts) && i <= |path|
    ensures Flat(parts, i) == After(ReadTo(l, path, i), Some(after))
  {
    if i > 0 {
      FlatIsAfter(l, path, after, parts, i - 1);
      AfterJoin(ReadTo(l, path, i - 1), H.SegmentRows(l, path[i - 1]), Some(after));
    }
  }

  /** Fetching one row too many tells whether the page overflows, and fills it. */
  lemma OneTooMany<T>(a: seq<T>, b: seq<T>, rest: seq<T>, limit: nat)
    requires |a| <= limit
    ensures var part := Take(b, limit + 1 - |a|);
      if |a + part| > limit then |a + b + rest| > limit && (a + part)[..limit] == (a + b + rest)[..limit] else part == b
  {
    var part := Take(b, limit + 1 - |a|);
    if |a + part| > limit {
      assert forall k :: 0 <= k < limit ==> (a + part)[k] == (a + b + rest)[k];
    }
  }

  function Bounded<T>(all: seq<T>, limit: nat): (seq<T>, bool) {
    if |all| > limit then (all[..limit], true) else (all, false)
  }

  /** One turn of the loop: either the page is full now, or the whole part has been taken. */
  lemma PageGrows<T>(first: seq<T>, parts: seq<seq<T>>, i: nat, records: seq<T>, part: seq<T>, limit: nat)
    requires i < |parts| && |records| <= limit && records == first + Flat(parts, i)
    requires part == Take(parts[i], limit + 1 - |records|)
    ensures if |records + part| > limit then Bounded(first + Flat(parts, |parts|), limit) == ((records + part)[..limit], true)
            else records + part == first + Flat(parts, i + 1)
  {
    var rest := FlatSplit(parts, i + 1, |parts|);
    OneTooMany(records, parts[i], rest, limit);
    assert first + Flat(parts, |parts|) == records + parts[i] + rest;
  }

  /** The loop over segments, after the baseline has been put in front. */
  method ReadNumbered(l: Tables, path: seq<Segment>, after: nat, first: seq<Record>, limit: nat, ghost parts: seq<seq<Record>>)
    returns (r: Option<(seq<Record>, bool)>)
    requires Present(l, path) && (forall i {:trigger path[i]} :: 0 <= i < |path| ==> !path[i].includeZero)
    requires PartsOf(l, path, after, parts) && |first| <= limit
    ensures r == Some(Bounded(first + Flat(parts, |parts|), limit))
  {
    var records := first;
    var i := 0;
    while i < |path|
      invariant 0 <= i <= |path|
      invariant |records| <= limit && records == first + Flat(parts, i)
    {
      var part := ReadAbove(l, path[i], after, limit + 1 - |records|);
      if part.None? {
        return None;
      }
      PageGrows(first, parts, i, records, part.value, limit);
      records := records + part.value;
      if |records| > limit {
        return Some((records[..limit], true));
      }
      i := i + 1;
    }
    return Some((records, false));
  }

  /** The records after a watermark, as the reader meets them: the root's baseline, then part after part. */
  lemma BetweenByParts(l: Tables, id: Uuid, after: nat, through: nat, levels: nat) returns (parts: seq<seq<Record>>)
    requires H.Inv(l) && Resolves(l.timelines, id, through, levels)
    ensures var path := Segments(l.timelines, id, through, levels);
      && Present(l, Numberless(path)) && PartsOf(l, Numberless(path), after, parts)
      && H.Seen(l, id, through, levels)
      && Between(l, id, after, through, levels) ==
           (if after == 0 && (path[0].timeline, 0) in l.records then [l.records[(path[0].timeline, 0)]] else []) + Flat(parts, |parts|)
  {
    var rows := Numberless(Segments(l.timelines, id, through, levels));
    NumberedIsRead(l, id, through, levels);
    AfterMark(l, id, after, through, levels);
    H.BaselineAtRoot(l, id, through, levels);
    parts := PartsAfter(l, rows, after);
    FlatIsAfter(l, rows, after, parts, |rows|);
  }

  lemma PartsAfter(l: Tables, path: seq<Segment>, after: nat) returns (parts: seq<seq<Record>>)
    requires Present(l, path)
    ensures PartsOf(l, path, after, parts)
  {
    parts := seq(|path|, i requires 0 <= i < |path| && Present(l, path) => After(H.SegmentRows(l, path[i]), Some(after)));
  }

  /**
   The records the branch shows after a watermark, position by position, with the baseline in front when nothing
   precedes it; `more` says that the limit cut them off.
   */
  ghost predicate FollowsMark(l: Tables, id: Uuid, after: nat, through: nat, limit: nat, records: seq<Record>, more: bool) {
    var base := if after == 0 && H.RecordAt(l, id, 0, MAX_DEPTH).Some? then 1 else 0;
    var total := base + if after < through then through - after else 0;
    && |records| == (if total > limit then limit else total) && (more <==> total > limit)
    && (base == 1 && |records| > 0 ==> Some(records[0]) == H.RecordAt(l, id, 0, MAX_DEPTH))
    && forall i {:trigger records[i]} :: base <= i < |records| ==> Some(records[i]) == H.RecordAt(l, id, after + 1 + i - base, MAX_DEPTH)
  }

  lemma ReadingFollowsMark(l: Tables, id: Uuid, after: nat, through: nat, limit: nat)
    requires H.Seen(l, id, through, MAX_DEPTH)
    ensures FollowsMark(l, id, after, through, limit, Reading(l, id, after, through, limit).0, Reading(l, id, after, through, limit).1)
  {
    var base := if after == 0 && H.RecordAt(l, id, 0, MAX_DEPTH).Some? then 1 else 0;
    var all := Between(l, id, after, through, MAX_DEPTH);
    assert base == 1 ==> Some(all[0]) == H.RecordAt(l, id, 0, MAX_DEPTH);
    forall i | base <= i < |all| ensures Some(all[i]) == H.RecordAt(l, id, after + 1 + i - base, MAX_DEPTH) {
      assert all[i] == H.Numbered(l, id, through, MAX_DEPTH)[after + i - base];
    }
  }

  /** readSummaryRecords. */
  method ReadSummaryRecords(l: Tables, timeline: Uuid, after: nat, through: nat, limit: nat) returns (r: Result<(seq<Record>, bool)>)
    requires H.Inv(l) && limit > 0
    ensures r.Ok? <==> Resolves(l.timelines, timeline, through, MAX_DEPTH)
    ensures r.Ok? ==> H.Seen(l, timeline, through, MAX_DEPTH) && r.value == Reading(l, timeline, after, through, limit)
    ensures r.Err? && timeline in l.timelines ==> r.error == Branch
    ensures r.Ok? ==> FollowsMark(l, timeline, after, through, limit, r.value.0, r.value.1)
  {
    M.NoDangling(l);
    var path := ResolveVisiblePath(l.timelines, timeline, through);
    if path.Err? {
      return Err(path.error);
    }
    ghost var parts := BetweenByParts(l, timeline, after, through, MAX_DEPTH);
    var records: seq<Record> := [];
    var root := path.value[0].timeline;
    if after == 0 && (root, 0) in l.records {
      records := [l.records[(root, 0)]];
    }
    var read := ReadNumbered(l, Numberless(path.value), after, records, limit, parts);
    ReadingFollowsMark(l, timeline, after, through, limit);
    return Ok(read.value);
  }
}
