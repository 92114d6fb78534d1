/**
 The timeline forest and its append-only records (the MySQL tables of one room).
 Loading a save forks a timeline at a frozen position; a branch sees its own records
 and its ancestors' records up to each fork.
 */
module Ledger {
  import opened MemoryModel

  datatype TimelineStatus = Prepared | Active | Aborted

  datatype Timeline = Timeline(parent: Option<Uuid>, fork: nat, durable: nat,
                               originSave: Option<nat>, complete: bool, status: TimelineStatus)

  datatype Segment = Segment(timeline: Uuid, lower: nat, upper: nat, includeZero: bool)

  /** Rows of game_timelines and game_action_records; (timeline, position) is a unique key. */
  datatype Tables = Tables(timelines: map<Uuid, Timeline>, records: map<(Uuid, nat), Record>)

  /** The record stands in the ledger under its own key. */
  predicate InLedger(l: Tables, r: Record) {
    (r.timeline, r.position) in l.records && l.records[(r.timeline, r.position)] == r
  }

  // ---------------------------------------------------------------- visible path

  predicate LinkOk(ts: map<Uuid, Timeline>, id: Uuid, through: nat) {
    && id in ts
    && ts[id].status.Active?
    && ts[id].fork <= through <= ts[id].durable
    && (ts[id].parent.None? ==> ts[id].fork == 0)
  }

  /** The ancestor walk from `id` reaches a root within `levels` timelines and every link is sound. */
  predicate Resolves(ts: map<Uuid, Timeline>, id: Uuid, through: nat, levels: nat)
    decreases levels, id
  {
    && levels > 0
    && LinkOk(ts, id, through)
    && (ts[id].parent.Some? ==>
          && Resolves(ts, ts[id].parent.value, ts[id].fork, levels - 1)
          && ts[ts[id].parent.value].complete == ts[id].complete)
  }

  function OwnSegment(ts: map<Uuid, Timeline>, id: Uuid, through: nat): Segment
    requires id in ts
  {
    Segment(id, ts[id].fork, through, ts[id].parent.None? && !ts[id].complete)
  }

  function Segments(ts: map<Uuid, Timeline>, id: Uuid, through: nat, levels: nat): seq<Segment>
    requires Resolves(ts, id, through, levels)
    decreases levels, id
  {
    (if ts[id].parent.None? then [] else Segments(ts, ts[id].parent.value, ts[id].fork, levels - 1))
    + [OwnSegment(ts, id, through)]
  }

  lemma {:induction false} SegmentsLength(ts: map<Uuid, Timeline>, id: Uuid, through: nat, levels: nat)
    requires Resolves(ts, id, through, levels)
    ensures 0 < |Segments(ts, id, through, levels)| <= levels
    decreases levels
  {
    if ts[id].parent.Some? {
      SegmentsLength(ts, ts[id].parent.value, ts[id].fork, levels - 1);
    }
  }

  /** The path does not depend on how many levels were allowed, and needs no more than its length. */
  lemma {:induction false} SegmentsFuel(ts: map<Uuid, Timeline>, id: Uuid, through: nat, a: nat, b: nat)
    requires Resolves(ts, id, through, a)
    requires |Segments(ts, id, through, a)| <= b
    ensures Resolves(ts, id, through, b) && Segments(ts, id, through, b) == Segments(ts, id, through, a)
    decreases a
  {
    if ts[id].parent.Some? {
      SegmentsLength(ts, ts[id].parent.value, ts[id].fork, a - 1);
      SegmentsFuel(ts, ts[id].parent.value, ts[id].fork, a - 1, b - 1);
    }
  }

  /** The length of the path is a property of the timeline, not of the position asked for. */
  lemma {:induction false} SegmentCountFixed(ts: map<Uuid, Timeline>, id: Uuid, p: nat, q: nat, a: nat, b: nat)
    requires Resolves(ts, id, p, a) && Resolves(ts, id, q, b)
    ensures |Segments(ts, id, p, a)| == |Segments(ts, id, q, b)|
    decreases a
  {
    if ts[id].parent.Some? {
      SegmentCountFixed(ts, ts[id].parent.value, ts[id].fork, ts[id].fork, a - 1, b - 1);
    }
  }

  predicate Tiles(ss: seq<Segment>, through: nat) {
    && |ss| > 0
    && ss[0].lower == 0
    && ss[|ss| - 1].upper == through
    && (forall i :: 0 <= i < |ss| ==> ss[i].lower <= ss[i].upper)
    && (forall i :: 0 < i < |ss| ==> ss[i - 1].upper == ss[i].lower)
  }

  /** Segments start at 0, abut, end at the position asked for, and never revisit a timeline. */
  lemma {:induction false} PathTiles(ts: map<Uuid, Timeline>, id: Uuid, through: nat, levels: nat)
    requires Resolves(ts, id, through, levels)
    ensures Tiles(Segments(ts, id, through, levels), through)
    ensures |Segments(ts, id, through, levels)| <= levels
    ensures var ss := Segments(ts, id, through, levels);
            forall i, j :: 0 <= i < j < |ss| ==> ss[i].timeline != ss[j].timeline
    ensures var ss := Segments(ts, id, through, levels);
            forall i :: 0 <= i < |ss| ==>
              && ss[i].timeline in ts && ts[ss[i].timeline].status.Active?
              && ts[ss[i].timeline].complete == ts[id].complete
              && ss[i].includeZero == (i == 0 && !ts[id].complete)
    decreases levels
  {
    if ts[id].parent.Some? {
      var p := ts[id].parent.value;
      PathTiles(ts, p, ts[id].fork, levels - 1);
      var up := Segments(ts, p, ts[id].fork, levels - 1);
      forall i | 0 <= i < |up| ensures up[i].timeline != id {
        if up[i].timeline == id {
          SegmentPrefix(ts, p, ts[id].fork, levels - 1, i);
          SegmentCountFixed(ts, id, up[i].upper, through, levels - 1, levels);
        }
      }
    }
  }

  /** Every prefix of a path is itself the path of the timeline it ends in. */
  lemma {:induction false} SegmentPrefix(ts: map<Uuid, Timeline>, id: Uuid, through: nat, levels: nat, i: nat)
    requires Resolves(ts, id, through, levels)
    requires i < |Segments(ts, id, through, levels)|
    ensures var ss := Segments(ts, id, through, levels);
            Resolves(ts, ss[i].timeline, ss[i].upper, levels) && Segments(ts, ss[i].timeline, ss[i].upper, levels) == ss[..i + 1]
    decreases levels
  {
    var ss := Segments(ts, id, through, levels);
    if i == |ss| - 1 {
      assert ss[..i + 1] == ss;
    } else {
      var p := ts[id].parent.value;
      var up := Segments(ts, p, ts[id].fork, levels - 1);
      SegmentPrefix(ts, p, ts[id].fork, levels - 1, i);
      SegmentsLength(ts, up[i].timeline, up[i].upper, levels - 1);
      SegmentsFuel(ts, up[i].timeline, up[i].upper, levels - 1, levels);
      assert ss[..i + 1] == up[..i + 1];
    }
  }

  // ---------------------------------------------------------------- the walk itself

  function Reversed<T>(s: seq<T>): (r: seq<T>)
    ensures |r| == |s|
  {
    if s == [] then [] else Reversed(s[1..]) + [s[0]]
  }

  lemma {:induction false} ReversedAt<T>(s: seq<T>, k: nat)
    requires k < |s|
    ensures Reversed(s)[k] == s[|s| - 1 - k]
  {
    if k < |s| - 1 {
      ReversedAt(s[1..], k);
    }
  }

  lemma {:induction false} ReversedAppend<T>(s: seq<T>, x: T)
    ensures Reversed(s + [x]) == [x] + Reversed(s)
  {
    if s != [] {
      ReversedAppend(s[1..], x);
      assert (s + [x])[1..] == s[1..] + [x];
    }
  }

  method ReverseInPlace(input: seq<Segment>) returns (segments: seq<Segment>)
    ensures segments == Reversed(input)
  {
    segments := input;
    var i, j := 0, |segments| - 1;
    while i < j
      invariant |segments| == |input| && 0 <= i && i + j == |input| - 1 && j >= i - 1
      invariant forall k :: 0 <= k < i ==> segments[k] == input[|input| - 1 - k]
      invariant forall k :: j < k < |input| ==> segments[k] == input[|input| - 1 - k]
      invariant forall k :: i <= k <= j ==> segments[k] == input[k]
    {
      segments := segments[i := segments[j]][j := segments[i]];
      i, j := i + 1, j - 1;
    }
    forall k | 0 <= k < |input| ensures segments[k] == Reversed(input)[k] {
      ReversedAt(input, k);
    }
  }

  function TimelinesOf(segments: seq<Segment>): set<Uuid> {
    set s | s in segments :: s.timeline
  }

  /** What the walk has established after collecting `segments` (child first) and reaching `id`. */
  ghost predicate WalkState(max: nat, ts: map<Uuid, Timeline>, start: Uuid, from: nat, id: Uuid, through: nat,
                            childComplete: Option<bool>, segments: seq<Segment>)
  {
    && |segments| <= max
    && (Resolves(ts, start, from, max) <==>
          && Resolves(ts, id, through, max - |segments|)
          && (childComplete.Some? ==> ts[id].complete == childComplete.value))
    && (Resolves(ts, start, from, max) ==>
          Segments(ts, start, from, max) == Segments(ts, id, through, max - |segments|) + Reversed(segments))
    && (Resolves(ts, start, from, max) ==>
          forall j :: 0 <= j < |segments| ==> TrailOk(max, ts, segments, j, |Segments(ts, start, from, max)|))
  }

  ghost predicate TrailOk(max: nat, ts: map<Uuid, Timeline>, segments: seq<Segment>, j: nat, total: nat)
    requires j < |segments| <= max
  {
    && Resolves(ts, segments[j].timeline, segments[j].upper, max - j)
    && |Segments(ts, segments[j].timeline, segments[j].upper, max - j)| + j == total
  }

  /** A revisited timeline has no finite path: the cycle check never rejects a sound ancestry. */
  lemma RevisitNeverResolves(max: nat, ts: map<Uuid, Timeline>, start: Uuid, from: nat, id: Uuid, through: nat,
                             childComplete: Option<bool>, segments: seq<Segment>, j: nat)
    requires WalkState(max, ts, start, from, id, through, childComplete, segments)
    requires j < |segments| && segments[j].timeline == id
    ensures !Resolves(ts, start, from, max)
  {
    if Resolves(ts, start, from, max) {
      assert TrailOk(max, ts, segments, j, |Segments(ts, start, from, max)|);
      SegmentCountFixed(ts, id, segments[j].upper, through, max - j, max - |segments|);
    }
  }

  lemma WalkAdvances(max: nat, ts: map<Uuid, Timeline>, start: Uuid, from: nat, id: Uuid, through: nat,
                     childComplete: Option<bool>, segments: seq<Segment>)
    requires WalkState(max, ts, start, from, id, through, childComplete, segments)
    requires |segments| < max && LinkOk(ts, id, through) && ts[id].parent.Some?
    requires childComplete.Some? ==> childComplete.value == ts[id].complete
    ensures WalkState(max, ts, start, from, ts[id].parent.value, ts[id].fork, Some(ts[id].complete), segments + [OwnSegment(ts, id, through)])
  {
    var own := OwnSegment(ts, id, through);
    var next := segments + [own];
    ReversedAppend(segments, own);
    if Resolves(ts, start, from, max) {
      var total := |Segments(ts, start, from, max)|;
      assert Segments(ts, id, through, max - |segments|)
          == Segments(ts, ts[id].parent.value, ts[id].fork, max - |next|) + [own];
      forall j | 0 <= j < |next| ensures TrailOk(max, ts, next, j, total) {
        if j < |segments| {
          assert TrailOk(max, ts, segments, j, total);
        }
      }
    }
  }

  ghost predicate Dangling(ts: map<Uuid, Timeline>, id: Uuid) {
    id in ts && ts[id].parent.Some? && ts[id].parent.value !in ts
  }

  /**
   The ancestor walk over any table contents, sound or damaged: it succeeds exactly on ancestries
   that reach a root within MAX_DEPTH sound links, and then returns the root-first path.
   */
  method ResolveVisiblePath(ts: map<Uuid, Timeline>, timeline: Uuid, position: nat) returns (r: Result<seq<Segment>>)
    ensures r.Ok? <==> Resolves(ts, timeline, position, MAX_DEPTH)
    ensures r.Ok? ==> r.value == Segments(ts, timeline, position, MAX_DEPTH)
    ensures r.Err? ==> r.error == Branch || r.error == NotFound
    ensures timeline !in ts ==> r == Err(NotFound)
    ensures r == Err(NotFound) && timeline in ts ==> exists id :: Dangling(ts, id)
  {
    var visited: set<Uuid> := {};
    var segments: seq<Segment> := [];
    var childComplete: Option<bool> := None;
    var id: Uuid, through: nat := timeline, position;
    while true
      invariant WalkState(MAX_DEPTH, ts, timeline, position, id, through, childComplete, segments)
      invariant visited == TimelinesOf(segments)
      invariant segments == [] ==> id == timeline
      invariant segments != [] ==> timeline in ts
      invariant segments != [] && id !in ts ==> exists o :: Dangling(ts, o)
      decreases MAX_DEPTH - |segments|
    {
      if |segments| >= MAX_DEPTH || id in visited {
        if id in visited {
          ghost var j :| 0 <= j < |segments| && segments[j].timeline == id;
          RevisitNeverResolves(MAX_DEPTH, ts, timeline, position, id, through, childComplete, segments, j);
        }
        return Err(Branch);
      }
      visited := visited + {id};
      if id !in ts {
        return Err(NotFound);
      }
      var t := ts[id];
      if !t.status.Active? || t.durable < t.fork || through > t.durable || through < t.fork {
        return Err(Branch);
      }
      if childComplete.Some? && childComplete.value != t.complete {
        return Err(Branch);
      }
      if t.parent.Some? {
        WalkAdvances(MAX_DEPTH, ts, timeline, position, id, through, childComplete, segments);
      }
      ghost var before := segments;
      childComplete := Some(t.complete);
      segments := segments + [Segment(id, t.fork, through, t.parent.None? && !t.complete)];
      if t.parent.None? {
        if t.fork != 0 {
          return Err(Branch);
        }
        ReversedAppend(before, segments[|segments| - 1]);
        break;
      }
      assert t.parent.value !in ts ==> Dangling(ts, id);
      id, through := t.parent.value, t.fork;
    }
    segments := ReverseInPlace(segments);
    return Ok(segments);
  }
}
