/**
 Versioned summaries of a branch: how one is found, which records the next one is made from,
 and the transactions that schedule and publish it.
 */
module Summaries {
  import opened MemoryModel
  import opened Ledger
  import H = History

  /**
   A stored or frozen summary.  `covered` is a history variable: the records whose facts went
   into the text, in order, through all the summaries it was built on.
   */
  datatype Summary = Summary(timeline: Uuid, version: nat, through: nat, content: string, covered: seq<Record>)

  datatype Save = Save(timeline: Option<Uuid>, position: Option<nat>, summary: Option<Summary>)

  datatype WorkStatus = Waiting | Running | Done

  /** `source` stands for the source hash: an injective function of the previous text and the records. */
  datatype Work = Work(timeline: Uuid, revision: nat, expected: nat, from: nat, through: nat, previous: string,
                       source: seq<Record>, messages: seq<string>, status: WorkStatus, owner: Uuid)

  /**
   The rows the summary transactions touch.  `active` is the branch the room's capability names,
   `ready` that no control operation holds it.  Rows of a timeline are kept in insertion order.
   */
  datatype Room = Room(tables: Tables, active: Option<Uuid>, ready: bool, revision: nat,
                       summaries: map<Uuid, seq<Summary>>, works: map<Uuid, Work>, saves: map<nat, Save>)

  const SOURCE_LIMIT: nat := 100

  // ---------------------------------------------------------------- the summary a branch stands on

  function Rows(s: Room, id: Uuid): seq<Summary> {
    if id in s.summaries then s.summaries[id] else []
  }

  /** ORDER BY version DESC LIMIT 1. */
  function Latest(rows: seq<Summary>): Option<Summary> {
    if rows == [] then None
    else
      var rest := Latest(rows[..|rows| - 1]);
      var x := rows[|rows| - 1];
      if rest.Some? && rest.value.version > x.version then rest else Some(x)
  }

  /** WHERE through_position <= upper ORDER BY through_position DESC, version DESC LIMIT 1. */
  function Highest(rows: seq<Summary>, upper: nat): Option<Summary> {
    if rows == [] then None
    else
      var rest := Highest(rows[..|rows| - 1], upper);
      var x := rows[|rows| - 1];
      if x.through > upper then rest
      else if rest.Some? && (rest.value.through > x.through || (rest.value.through == x.through && rest.value.version > x.version)) then rest
      else Some(x)
  }

  /** The row of the greatest version, if there is any row. */
  lemma {:induction false} LatestIsNewest(rows: seq<Summary>)
    ensures Latest(rows).None? <==> rows == []
    ensures Latest(rows).Some? ==> Latest(rows).value in rows && forall x :: x in rows ==> x.version <= Latest(rows).value.version
    decreases |rows|
  {
    if rows != [] {
      LatestIsNewest(rows[..|rows| - 1]);
      assert rows == rows[..|rows| - 1] + [rows[|rows| - 1]];
    }
  }

  /** `x` reaches further than `y`, or as far under a version at least as great. */
  predicate Beyond(x: Summary, y: Summary) {
    y.through < x.through || (y.through == x.through && y.version <= x.version)
  }

  /** The row that reaches furthest without passing `upper`, if any stays below it. */
  lemma {:induction false} HighestIsFurthest(rows: seq<Summary>, upper: nat)
    ensures Highest(rows, upper).None? <==> forall x :: x in rows ==> x.through > upper
    ensures Highest(rows, upper).Some? ==>
              var best := Highest(rows, upper).value;
              best in rows && best.through <= upper && forall x :: x in rows && x.through <= upper ==> Beyond(best, x)
    decreases |rows|
  {
    if rows != [] {
      HighestIsFurthest(rows[..|rows| - 1], upper);
      assert rows == rows[..|rows| - 1] + [rows[|rows| - 1]];
    }
  }

  /** The summary frozen in the save a branch was loaded from. */
  function Inherited(s: Room, id: Uuid): Option<Summary>
    requires id in s.tables.timelines
  {
    var origin := s.tables.timelines[id].originSave;
    if origin.Some? && origin.value in s.saves then s.saves[origin.value].summary else None
  }

  /** The nearest summary at or below `upper`: the branch's own, the one its save froze, else the parent's below the fork. */
  function Nearest(s: Room, id: Uuid, upper: nat, levels: nat): Option<Summary>
    decreases levels, id
  {
    if levels == 0 || id !in s.tables.timelines then None
    else if Highest(Rows(s, id), upper).Some? then Highest(Rows(s, id), upper)
    else if Inherited(s, id).Some? then Inherited(s, id)
    else if s.tables.timelines[id].parent.Some? then
      Nearest(s, s.tables.timelines[id].parent.value, s.tables.timelines[id].fork, levels - 1)
    else None
  }

  /** Before any summary: the text of the imported baseline, or nothing, covering no record yet. */
  function Initial(l: Tables, id: Uuid, levels: nat): Summary {
    var base := H.RecordAt(l, id, 0, levels);
    if base.Some? then Summary(base.value.timeline, 0, 0, base.value.payload.summary, [])
    else Summary(id, 0, 0, "", [])
  }

  function SummaryAt(s: Room, id: Uuid, through: nat, levels: nat): Summary {
    if Nearest(s, id, through, levels).Some? then Nearest(s, id, through, levels).value
    else Initial(s.tables, id, levels)
  }

  // ---------------------------------------------------------------- the records between two watermarks

  /** The view above `after`, with the baseline when nothing precedes it. */
  ghost function Between(l: Tables, id: Uuid, after: nat, through: nat, levels: nat): seq<Record>
    requires H.Seen(l, id, through, levels)
  {
    (if after == 0 then H.Baseline(l, id, levels) else [])
    + (if after <= through then H.Numbered(l, id, through, levels)[after..] else [])
  }

  /** What a summary at this watermark must have been built from. */
  ghost function CoveredTo(l: Tables, id: Uuid, through: nat, levels: nat): seq<Record>
    requires H.Seen(l, id, through, levels)
  {
    if through == 0 then [] else H.View(l, id, through, levels)
  }

  lemma CoverageExtends(l: Tables, id: Uuid, after: nat, through: nat, levels: nat)
    requires after < through && H.Seen(l, id, through, levels) && H.Seen(l, id, after, levels)
    ensures CoveredTo(l, id, after, levels) + Between(l, id, after, through, levels) == CoveredTo(l, id, through, levels)
  {
    var all := H.Numbered(l, id, through, levels);
    assert all[..after] == H.Numbered(l, id, after, levels);
    assert all == all[..after] + all[after..];
  }

  /** The text of a record; an action without any is malformed. */
  function RecordMessages(r: Record): Result<seq<string>> {
    if !(r.kind.Action? || r.kind.Opening? || r.kind.LegacyBaseline?) then Ok([])
    else if r.payload.messages != [] then Ok(r.payload.messages)
    else if r.kind.LegacyBaseline? then Ok([])
    else if r.payload.narrative == "" then Err(Invalid)
    else Ok([r.payload.narrative])
  }

  function Messages(records: seq<Record>): Result<seq<string>> {
    if records == [] then Ok([])
    else
      var rest := Messages(records[..|records| - 1]);
      var last := RecordMessages(records[|records| - 1]);
      if rest.Err? then rest else if last.Err? then last else Ok(rest.value + last.value)
  }

  function Actions(records: seq<Record>): nat {
    if records == [] then 0
    else Actions(records[..|records| - 1]) + (if records[|records| - 1].kind.Action? then 1 else 0)
  }

  // ---------------------------------------------------------------- what the text and the count are

  /** An action or opening that says nothing; no job can be made of it. */
  predicate Textless(r: Record) {
    (r.kind.Action? || r.kind.Opening?) && r.payload.messages == [] && r.payload.narrative == ""
  }

  /** Exactly this record's own text: all its messages, or its one narrative; a skip has none. */
  predicate Own(r: Record, part: seq<string>) {
    part == if r.kind.SkipManual? || r.kind.SkipTimeout? then []
            else if r.payload.messages != [] then r.payload.messages
            else if r.kind.LegacyBaseline? then []
            else [r.payload.narrative]
  }

  predicate OwnBetween(r: Record, text: seq<string>, a: nat, b: nat) {
    a <= b <= |text| && Own(r, text[a..b])
  }

  /** The text of record i stands between at[i] and at[i + 1]. */
  predicate TextAt(records: seq<Record>, text: seq<string>, at: seq<nat>) {
    && |at| == |records| + 1 && at[0] == 0 && at[|records|] == |text|
    && forall i {:trigger records[i]} :: 0 <= i < |records| ==> OwnBetween(records[i], text, at[i], at[i + 1])
  }

  /** The text holds every record's own, in order, with nothing missing or added. */
  ghost predicate TextOf(records: seq<Record>, text: seq<string>) {
    exists at :: TextAt(records, text, at)
  }

  /** How many of the first `n` records are actions. */
  ghost function ActionsAmong(records: seq<Record>, n: nat): nat
    requires n <= |records|
  {
    |set i | 0 <= i < n && records[i].kind.Action?|
  }

  lemma {:induction false} ActionsCount(records: seq<Record>, n: nat)
    requires n <= |records|
    ensures Actions(records[..n]) == ActionsAmong(records, n)
    decreases n
  {
    var upto := set i | 0 <= i < n && records[i].kind.Action?;
    if n > 0 {
      ActionsCount(records, n - 1);
      var before := set i | 0 <= i < n - 1 && records[i].kind.Action?;
      assert records[..n][..n - 1] == records[..n - 1];
      assert upto == before + (if records[n - 1].kind.Action? then {n - 1} else {});
    } else {
      assert upto == {};
    }
  }

  lemma {:induction false} MessagesFailIff(records: seq<Record>)
    ensures Messages(records).Err? <==> exists i :: 0 <= i < |records| && Textless(records[i])
    decreases |records|
  {
    if records != [] {
      MessagesFailIff(records[..|records| - 1]);
    }
  }

  lemma {:induction false} MessagesAreText(records: seq<Record>) returns (at: seq<nat>)
    requires Messages(records).Ok?
    ensures TextAt(records, Messages(records).value, at)
    decreases |records|
  {
    if records == [] {
      at := [0];
    } else {
      var front, last := records[..|records| - 1], records[|records| - 1];
      var before := MessagesAreText(front);
      var head, text := Messages(front).value, Messages(records).value;
      at := before + [|text|];
      forall i | 0 <= i < |records| ensures OwnBetween(records[i], text, at[i], at[i + 1]) {
        if i < |front| {
          assert front[i] == records[i];
          LongerText(records[i], head, text, before[i], before[i + 1]);
        } else {
          assert text[|head|..] == RecordMessages(last).value;
        }
      }
    }
  }

  lemma LongerText(r: Record, head: seq<string>, text: seq<string>, a: nat, b: nat)
    requires head <= text && OwnBetween(r, head, a, b)
    ensures OwnBetween(r, text, a, b)
  {
    assert text[a..b] == head[a..b];
  }

  /** The records a job takes: up to and including the one that reaches the trigger, or all of them. */
  function Chosen(records: seq<Record>, trigger: nat): nat {
    if exists n :: 0 < n <= |records| && Actions(records[..n]) >= trigger then
      FirstReaching(records, trigger, 1)
    else |records|
  }

  function FirstReaching(records: seq<Record>, trigger: nat, n: nat): (k: nat)
    requires 0 < n && exists m :: n <= m <= |records| && Actions(records[..m]) >= trigger
    ensures n <= k <= |records| && Actions(records[..k]) >= trigger
    ensures forall m :: n <= m < k ==> Actions(records[..m]) < trigger
    decreases |records| - n
  {
    if Actions(records[..n]) >= trigger then n else FirstReaching(records, trigger, n + 1)
  }

  // ---------------------------------------------------------------- transactions

  /** readSummaryRecords: at most `limit` records, and whether there are more. */
  ghost function Reading(l: Tables, id: Uuid, after: nat, through: nat, limit: nat): (seq<Record>, bool)
    requires H.Seen(l, id, through, MAX_DEPTH)
  {
    var all := Between(l, id, after, through, MAX_DEPTH);
    if |all| > limit then (all[..limit], true) else (all, false)
  }

  ghost predicate IsWork(s: Room, key: Uuid, id: Uuid, version: nat) {
    key in s.works && s.works[key].timeline == id && s.works[key].expected == version
  }

  ghost function WorkFor(s: Room, id: Uuid, version: nat): Option<Uuid> {
    if exists key :: IsWork(s, key, id, version) then
      var key :| IsWork(s, key, id, version);
      Some(key)
    else None
  }

  /** The version the next summary of a branch builds on. */
  function BaseVersion(s: Room, id: Uuid, previous: Summary): nat {
    if Latest(Rows(s, id)).Some? then Latest(Rows(s, id)).value.version else previous.version
  }

  function Appended(s: Room, x: Summary): Room {
    s.(summaries := s.summaries[x.timeline := Rows(s, x.timeline) + [x]])
  }

  /** What claiming without an existing job decides from the records after the last watermark. */
  datatype Plan = TooFew | Broken | Carry(summary: Summary) | Job(work: Work)

  function PlanOf(id: Uuid, revision: nat, version: nat, previous: Summary, records: seq<Record>, more: bool, trigger: nat): Plan {
    var chosen := records[..Chosen(records, trigger)];
    if Messages(chosen).Err? then Broken
    else if Actions(chosen) < trigger && !more then TooFew
    else
      var through := if chosen == [] then previous.through else chosen[|chosen| - 1].position;
      if Messages(chosen).value == [] then
        Carry(Summary(id, version + 1, through, previous.content, previous.covered + chosen))
      else Job(Work(id, revision, version, previous.through, through, previous.content, chosen, Messages(chosen).value, Waiting, 0))
  }

  ghost function Planned(s: Room, id: Uuid, trigger: nat): Plan
    requires id in s.tables.timelines && H.Seen(s.tables, id, s.tables.timelines[id].durable, MAX_DEPTH)
  {
    var durable := s.tables.timelines[id].durable;
    var previous := SummaryAt(s, id, durable, MAX_DEPTH);
    var (records, more) := Reading(s.tables, id, previous.through, durable, SOURCE_LIMIT);
    PlanOf(id, s.revision, BaseVersion(s, id, previous), previous, records, more, trigger)
  }

  function Leased(s: Room, key: Uuid, w: Work, owner: Uuid): Room {
    s.(works := s.works[key := w.(status := Running, owner := owner, revision := s.revision)])
  }

  /** The active branch can be read at its durable mark. */
  ghost predicate Claimable(s: Room) {
    && s.ready && s.active.Some? && s.active.value in s.tables.timelines
    && var mark := s.tables.timelines[s.active.value].durable;
       Resolves(s.tables.timelines, s.active.value, mark, MAX_DEPTH) && H.Seen(s.tables, s.active.value, mark, MAX_DEPTH)
  }

  /** An existing job for the next version is leased when due; otherwise the plan is carried out. */
  ghost function Decided(s: Room, plan: Plan, key: Uuid, owner: Uuid, due: bool): Room
    requires Claimable(s)
  {
    var id := s.active.value;
    var found := WorkFor(s, id, BaseVersion(s, id, SummaryAt(s, id, s.tables.timelines[id].durable, MAX_DEPTH)));
    if found.Some? then
      var w := s.works[found.value];
      if w.status.Done? || !due then s else Leased(s, found.value, w, owner)
    else
      match plan
      case TooFew => s
      case Broken => s
      case Carry(x) => Appended(s, x)
      case Job(w) => if key in s.works then s else Leased(s, key, w, owner)
  }

  /** ClaimSummary: `key` and `owner` are fresh; `due` says an existing job's retry time and lease have passed. */
  ghost function ClaimSummary(s: Room, trigger: nat, key: Uuid, owner: Uuid, due: bool): Room {
    if !Claimable(s) then s else Decided(s, Planned(s, s.active.value, trigger), key, owner, due)
  }

  /** RetrySummary gives the lease back to nobody in particular. */
  function RetrySummary(s: Room, key: Uuid, owner: Uuid): Room {
    if key in s.works && s.works[key].status.Running? && s.works[key].owner == owner
    then s.(works := s.works[key := s.works[key].(status := Waiting, owner := 0)]) else s
  }

  /** Only the holder of the lease gives it back; the job then waits with everything else about it as it was. */
  lemma RetryFrees(s: Room, key: Uuid, owner: Uuid)
    ensures if key in s.works && s.works[key].status.Running? && s.works[key].owner == owner
            then RetrySummary(s, key, owner) == s.(works := s.works[key := s.works[key].(status := Waiting, owner := 0)])
            else RetrySummary(s, key, owner) == s
  {
  }

  /** The job the caller holds is the stored one, apart from status and owner. */
  predicate SameJob(w: Work, current: Work) {
    w == current.(status := w.status, owner := w.owner)
  }

  /**
   CompleteSummary: `fits` says the candidate's length is accepted, `live` that the stored lease has
   not expired.  Everything the job claims is recomputed from the tables first.
   */
  ghost function CompleteSummary(s: Room, key: Uuid, w: Work, candidate: string, fits: bool, live: bool): (Room, Option<Error>)
    requires H.Inv(s.tables)
  {
    var ts := s.tables.timelines;
    if !fits then (s, Some(Invalid))
    else if !s.ready || s.active != Some(w.timeline) || s.revision != w.revision then (s, Some(Error.Cursor))
    else if key !in s.works then (s, Some(NotFound))
    else if !s.works[key].status.Running? || s.works[key].owner != w.owner || !live then (s, Some(Busy))
    else if s.works[key].timeline != w.timeline then (s, Some(Conflict))
    else if w.timeline !in ts then (s, Some(NotFound))
    else if !Resolves(ts, w.timeline, w.from, MAX_DEPTH) then (s, Some(Branch))
    else
      var previous := SummaryAt(s, w.timeline, w.from, MAX_DEPTH);
      if BaseVersion(s, w.timeline, previous) != w.expected then (s, Some(Conflict))
      else if previous.content != w.previous || previous.through != w.from || !SameJob(w, s.works[key]) then (s, Some(Conflict))
      else if !Resolves(ts, w.timeline, w.through, MAX_DEPTH) then (s, Some(Branch))
      else
        H.PathReadable(s.tables, w.timeline, w.through, MAX_DEPTH);
        var (records, more) := Reading(s.tables, w.timeline, w.from, w.through, SOURCE_LIMIT);
        if more || records != w.source then (s, Some(Conflict))
        else if Messages(records).Err? then (s, Some(Invalid))
        else if Messages(records).value != w.messages then (s, Some(Conflict))
        else
          var x := Summary(w.timeline, w.expected + 1, w.through, candidate, previous.covered + records);
          (Appended(s, x).(works := s.works[key := s.works[key].(status := Done, owner := 0)]), None)
  }

  /** createMemorySave freezes the summary visible at the saved position. */
  function Freeze(s: Room, n: nat, id: Uuid, position: nat): Room {
    if n in s.saves || id !in s.tables.timelines || !s.tables.timelines[id].status.Active?
       || !(s.tables.timelines[id].fork <= position <= s.tables.timelines[id].durable) then s
    else s.(saves := s.saves[n := Save(Some(id), Some(position), Some(SummaryAt(s, id, position, MAX_DEPTH)))])
  }

  // ---------------------------------------------------------------- the room around them

  /**
   A start or load publishes a new branch and makes it the active one.  A branch is loaded from a save
   of its parent at the fork; the parent's history has its baseline by then, because an imported root
   archives it before the room can commit or save anything on it.
   */
  ghost predicate MayOpen(s: Room, id: Uuid, t: Timeline) {
    && H.BranchAdmitted(s.tables, id, t)
    && (t.parent.Some? ==> Based(s.tables, t.parent.value))
    && (t.originSave.Some? ==>
          && t.originSave.value in s.saves
          && var save := s.saves[t.originSave.value];
             if t.parent.Some? then save.timeline == t.parent && save.position == Some(t.fork)
             else save.timeline.None? && save.summary.None?)
  }

  ghost predicate Based(l: Tables, id: Uuid) {
    id in l.timelines && (l.timelines[id].complete || H.RecordAt(l, id, 0, MAX_DEPTH).Some?)
  }

  function Opened(l: Tables, id: Uuid, t: Timeline): Tables {
    H.WithStatus(H.WithBranch(l, id, t), id, Active)
  }

  datatype Step =
    | Archive(record: Record)
    | Open(id: Uuid, branch: Timeline)
    | Reopen(ready: bool, revision: nat)
    | ImportSave(n: nat)
    | CreateSave(n: nat, id: Uuid, position: nat)
    | Claim(trigger: nat, key: Uuid, owner: Uuid, due: bool)
    | Complete(key: Uuid, work: Work, candidate: string, fits: bool, live: bool)
    | Retry(key: Uuid, owner: Uuid)

  ghost function Next(s: Room, step: Step): Room
    requires H.Inv(s.tables)
  {
    match step
    case Archive(r) => s.(tables := H.Archived(s.tables, r).0)
    case Open(id, t) => if MayOpen(s, id, t) then s.(tables := Opened(s.tables, id, t), active := Some(id)) else s
    case Reopen(ready, revision) => s.(ready := ready, revision := revision)
    case ImportSave(n) => if n in s.saves then s else s.(saves := s.saves[n := Save(None, None, None)])
    case CreateSave(n, id, position) => Freeze(s, n, id, position)
    case Claim(trigger, key, owner, due) => if trigger == 0 then s else ClaimSummary(s, trigger, key, owner, due)
    case Complete(key, w, candidate, fits, live) => CompleteSummary(s, key, w, candidate, fits, live).0
    case Retry(key, owner) => RetrySummary(s, key, owner)
  }
}
