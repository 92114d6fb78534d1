/**
 What the summary transactions promise over whole runs, and exactly when a job can be completed.
 */
module SummaryTheorems {
  import opened MemoryModel
  import opened Ledger
  import H = History
  import opened Summaries
  import opened SummaryInvariant

  /**
   Provenance of stored summaries: the i-th summary of a branch has the i-th version after the one
   the branch started from, a watermark above all earlier ones, and is built, each record once and in
   order, from exactly what the branch shows up to that watermark.
   */
  lemma SummariesCoverTheirBranch(s: Room, steps: seq<Step>, id: Uuid, i: nat)
    requires Inv(s)
    requires id in Run(s, steps).tables.timelines && i < |Rows(Run(s, steps), id)|
    ensures var n := Run(s, steps);
            var x := Rows(n, id)[i];
      && x.version == Below(n, id).version + 1 + i
      && (if i == 0 then Below(n, id) else Rows(n, id)[i - 1]).through < x.through <= n.tables.timelines[id].durable
      && H.Seen(n.tables, id, x.through, MAX_DEPTH)
      && x.covered == H.View(n.tables, id, x.through, MAX_DEPTH)
  {
    var n := Run(s, steps);
    RunKeeps(s, steps);
    assert RowsOk(n, id) && RowOk(n.tables, id, Rows(n, id)[i]);
    VersionsCount(Rows(n, id), Below(n, id), i);
  }

  lemma {:induction false} VersionsCount(rows: seq<Summary>, start: Summary, i: nat)
    requires Chained(rows) && i < |rows| && Succeeds(start, rows[0])
    ensures rows[i].version == start.version + 1 + i
    ensures (if i == 0 then start else rows[i - 1]).through < rows[i].through
  {
    if i > 0 {
      VersionsCount(rows, start, i - 1);
      assert Succeeds(rows[i - 1], rows[i]);
    }
  }

  /** Provenance of frozen summaries: a save never holds facts beyond its position or from elsewhere. */
  lemma SavesCoverTheirBranch(s: Room, steps: seq<Step>, k: nat)
    requires Inv(s)
    requires k in Run(s, steps).saves && Run(s, steps).saves[k].summary.Some?
    ensures var n := Run(s, steps);
            var save := n.saves[k];
      && save.timeline.Some? && save.position.Some? && save.timeline.value in n.tables.timelines
      && save.summary.value.through <= save.position.value
      && H.Seen(n.tables, save.timeline.value, save.summary.value.through, MAX_DEPTH)
      && save.summary.value.covered == CoveredTo(n.tables, save.timeline.value, save.summary.value.through, MAX_DEPTH)
  {
    var n := Run(s, steps);
    RunKeeps(s, steps);
    assert SaveOk(n.tables, n.saves[k]);
  }

  // ---------------------------------------------------------------- which jobs can finish

  /** The worker holds the stored job, its lease is live and the room is as it was when it was leased. */
  ghost predicate HoldsJob(s: Room, key: Uuid, w: Work) {
    && key in s.works && s.works[key] == w && w.status.Running?
    && s.ready && s.active == Some(w.timeline) && s.revision == w.revision
  }

  lemma JobRereads(s: Room, key: Uuid)
    requires Inv(s) && key in s.works
    ensures var w := s.works[key];
      && H.Seen(s.tables, w.timeline, w.through, MAX_DEPTH)
      && Reading(s.tables, w.timeline, w.from, w.through, SOURCE_LIMIT) == (w.source, false)
  {
    assert WorkOk(s, s.works[key]);
  }

  lemma EndIsFound(s: Room, key: Uuid)
    requires Inv(s) && key in s.works && !s.works[key].status.Done?
    requires var w := s.works[key]; w.timeline in s.tables.timelines && s.tables.timelines[w.timeline].fork <= w.from
    ensures var w := s.works[key];
      && Resolves(s.tables.timelines, w.timeline, w.from, MAX_DEPTH)
      && Resolves(s.tables.timelines, w.timeline, w.through, MAX_DEPTH)
      && SummaryAt(s, w.timeline, w.from, MAX_DEPTH) == Last(s, w.timeline) && Continues(w, Last(s, w.timeline))
      && BaseVersion(s, w.timeline, Last(s, w.timeline)) == w.expected
  {
    var w := s.works[key];
    assert WorkOk(s, w);
    H.ActiveResolves(s.tables, w.timeline, w.from);
    H.ActiveResolves(s.tables, w.timeline, w.through);
    SummaryAtEnd(s, w.timeline, w.from);
  }

  /**
   A worker that holds a live job and brings a text of accepted length is served exactly when the job
   starts at or above its branch's fork; a job that starts from a summary inherited from below the fork
   is refused, because looking up that summary again is not possible at such a position.
   */
  lemma JobCompletesIff(s: Room, key: Uuid, w: Work, candidate: string)
    requires Inv(s) && HoldsJob(s, key, w) && w.timeline in s.tables.timelines
    ensures CompleteSummary(s, key, w, candidate, true, true).1.None? <==> s.tables.timelines[w.timeline].fork <= w.from
    ensures w.from < s.tables.timelines[w.timeline].fork ==> CompleteSummary(s, key, w, candidate, true, true) == (s, Some(Branch))
  {
    assert WorkOk(s, w);
    JobRereads(s, key);
    if s.tables.timelines[w.timeline].fork <= w.from {
      EndIsFound(s, key);
    }
  }

  /** The branch's next summary is promised to a job that starts below its fork. */
  ghost predicate Stuck(s: Room, key: Uuid) {
    && key in s.works && !s.works[key].status.Done?
    && s.works[key].timeline in s.tables.timelines
    && s.works[key].from < s.tables.timelines[s.works[key].timeline].fork
  }

  /** The same job, on the same branch, with no summary added. */
  ghost predicate StillStuck(s: Room, n: Room, key: Uuid)
    requires Stuck(s, key)
  {
    && Stuck(n, key) && n.works[key].timeline == s.works[key].timeline && n.works[key].from == s.works[key].from
    && Rows(n, s.works[key].timeline) == Rows(s, s.works[key].timeline)
  }

  lemma StuckStaysOnTables(s: Room, n: Room, key: Uuid)
    requires Stuck(s, key) && H.Grows(s.tables, n.tables) && n.works == s.works && n.summaries == s.summaries
    ensures StillStuck(s, n, key)
  {
  }

  /** On its own branch the open job is the one every claim finds. */
  lemma OwnClaimFindsIt(s: Room, key: Uuid)
    requires Inv(s) && Stuck(s, key) && s.active == Some(s.works[key].timeline)
    ensures WorkFor(s, s.works[key].timeline, Last(s, s.works[key].timeline).version) == Some(key)
  {
    var id := s.works[key].timeline;
    assert WorkOk(s, s.works[key]);
    assert IsWork(s, key, id, Last(s, id).version);
  }

  lemma ClaimOfFound(s: Room, id: Uuid, trigger: nat, k: Uuid, owner: Uuid, due: bool)
    requires Inv(s) && s.active == Some(id) && s.ready && trigger > 0 && Claimable(s)
    requires id in s.tables.timelines && WorkFor(s, id, Last(s, id).version).Some?
    ensures var found := WorkFor(s, id, Last(s, id).version).value;
      && found in s.works
      && (Next(s, Claim(trigger, k, owner, due)) == s || Next(s, Claim(trigger, k, owner, due)) == Leased(s, found, s.works[found], owner))
  {
    EndWithinMark(s, id);
  }

  lemma StuckStaysOnClaim(s: Room, key: Uuid, trigger: nat, k: Uuid, owner: Uuid, due: bool)
    requires Inv(s) && Stuck(s, key)
    ensures StillStuck(s, Next(s, Claim(trigger, k, owner, due)), key)
  {
    if trigger > 0 && s.ready && s.active.Some? {
      var id := s.active.value;
      EndWithinMark(s, id);
      if id == s.works[key].timeline {
        OwnClaimFindsIt(s, key);
        ClaimOfFound(s, id, trigger, k, owner, due);
      } else {
        PlanContinuesIfAny(s, id, trigger);
        OtherClaimSparesIt(s, key, Planned(s, id, trigger), k, owner, due);
      }
    }
  }

  lemma OtherClaimSparesIt(s: Room, key: Uuid, plan: Plan, k: Uuid, owner: Uuid, due: bool)
    requires Stuck(s, key) && Claimable(s) && s.active.value != s.works[key].timeline
    requires plan.Carry? ==> plan.summary.timeline == s.active.value
    ensures StillStuck(s, Decided(s, plan, k, owner, due), key)
  {
  }

  lemma PlanContinuesIfAny(s: Room, id: Uuid, trigger: nat)
    requires Inv(s) && s.active == Some(id) && trigger > 0
    requires id in s.tables.timelines && H.Seen(s.tables, id, s.tables.timelines[id].durable, MAX_DEPTH)
    ensures Planned(s, id, trigger).Carry? ==> Planned(s, id, trigger).summary.timeline == id
  {
    PlanContinues(s, id, trigger);
  }

  lemma StuckStaysOnComplete(s: Room, key: Uuid, k: Uuid, w: Work, candidate: string, fits: bool, live: bool)
    requires Inv(s) && Stuck(s, key)
    ensures StillStuck(s, Next(s, Complete(k, w, candidate, fits, live)), key)
  {
    if CompleteSummary(s, k, w, candidate, fits, live).1.None? {
      CompletionPublishes(s, k, w, candidate, fits, live);
      assert WorkOk(s, s.works[key]) && WorkOk(s, s.works[k]);
    } else {
      assert CompleteSummary(s, k, w, candidate, fits, live).0 == s;
    }
  }

  lemma StuckStays(s: Room, key: Uuid, step: Step)
    requires Inv(s) && Stuck(s, key)
    ensures StillStuck(s, Next(s, step), key)
  {
    match step
    case Archive(r) =>
      H.ArchiveKeepsInv(s.tables, r);
      StuckStaysOnTables(s, Next(s, step), key);
    case Open(id, t) =>
      if MayOpen(s, id, t) {
        OpenedGrows(s.tables, id, t);
        StuckStaysOnTables(s, Next(s, step), key);
      }
    case Claim(trigger, k, owner, due) => StuckStaysOnClaim(s, key, trigger, k, owner, due);
    case Complete(k, w, candidate, fits, live) => StuckStaysOnComplete(s, key, k, w, candidate, fits, live);
    case _ =>
  }

  /**
   Once such a job exists its branch never gets another summary: the job can never be completed, and
   as long as it is open no other job or carried summary can take its place.
   */
  lemma {:induction false} StuckForEver(s: Room, key: Uuid, steps: seq<Step>)
    requires Inv(s) && Stuck(s, key)
    ensures StillStuck(s, Run(s, steps), key)
    decreases |steps|
  {
    if steps != [] {
      StuckStays(s, key, steps[0]);
      NextKeeps(s, steps[0]);
      StuckForEver(Next(s, steps[0]), key, steps[1..]);
    }
  }

  /** Every job a freshly loaded branch starts with is of that kind exactly when the save's summary lags behind the save. */
  lemma FirstJobStuckIff(s: Room, id: Uuid, trigger: nat)
    requires Inv(s) && s.active == Some(id) && trigger > 0 && id in s.tables.timelines
    requires H.Seen(s.tables, id, s.tables.timelines[id].durable, MAX_DEPTH)
    requires Rows(s, id) == [] && Planned(s, id, trigger).Job?
    ensures Planned(s, id, trigger).work.from < s.tables.timelines[id].fork <==> Below(s, id).through != s.tables.timelines[id].fork
  {
    var fork := s.tables.timelines[id].fork;
    PlanContinues(s, id, trigger);
    assert H.TimelineOk(s.tables, id);
    H.ActiveResolves(s.tables, id, fork);
    SummaryAtCovers(s, id, fork);
  }

  // ---------------------------------------------------------------- a load that leaves a job stuck

  const OPENING: Record := Record(1, 1, 1, Opening, None, OpeningRequests, 1, 1, 3, 0, 0, 0, 0, Payload(["begin"], "", "", []))
  const ACTION: Record := Record(2, 1, 2, Action, Some(5), ClientRequests, 7, 1, 3, 0, 1, 0, 0, Payload(["answer"], "", "", []))
  const ROOT: Timeline := Timeline(None, 0, 0, None, true, Prepared)
  const BRANCH: Timeline := Timeline(Some(1), 2, 2, Some(1), true, Prepared)

  const BEGUN: Room := EMPTY_ROOM.(tables := Tables(map[1 := ROOT.(status := Active)], map[]), active := Some(1))
  const PLAYED: Room := BEGUN.(
    tables := Tables(map[1 := ROOT.(status := Active, durable := 2)], map[(1, 1) := OPENING, (1, 2) := ACTION]))
  const SAVED: Room := PLAYED.(saves := map[1 := Save(Some(1), Some(2), Some(Summary(1, 0, 0, "", [])))])
  const LOADED: Room := SAVED.(
    tables := SAVED.tables.(timelines := SAVED.tables.timelines[2 := BRANCH.(status := Active)]), active := Some(2))
  const READY: Room := LOADED.(ready := true, revision := 6)

  lemma StartsAndPlays()
    ensures Next(EMPTY_ROOM, Open(1, ROOT)) == BEGUN
    ensures Next(Next(BEGUN, Archive(OPENING)), Archive(ACTION)) == PLAYED
  {
    assert H.BranchAdmitted(EMPTY_ROOM.tables, 1, ROOT);
    assert map[1 := ROOT][1 := ROOT.(status := Active)] == BEGUN.tables.timelines;
    var one := Tables(map[1 := ROOT.(status := Active, durable := 1)], map[(1, 1) := OPENING]);
    assert H.Archived(BEGUN.tables, OPENING).1 == Ok(true) && H.Insert(BEGUN.tables, OPENING) == one;
    assert H.Unused(one, ACTION) && H.Archived(one, ACTION).1 == Ok(true);
    assert H.Insert(one, ACTION) == PLAYED.tables;
  }

  lemma SavesAndLoads()
    ensures Next(PLAYED, CreateSave(1, 1, 2)) == SAVED
    ensures Next(SAVED, Open(2, BRANCH)) == LOADED
  {
    var ts := SAVED.tables.timelines;
    assert H.RecordAt(PLAYED.tables, 1, 0, MAX_DEPTH).None?;
    assert SummaryAt(PLAYED, 1, 2, MAX_DEPTH) == Summary(1, 0, 0, "", []);
    assert Resolves(ts, 1, 2, MAX_DEPTH) && |Segments(ts, 1, 2, MAX_DEPTH)| == 1;
    assert MayOpen(SAVED, 2, BRANCH);
    assert ts[2 := BRANCH][2 := BRANCH.(status := Active)] == LOADED.tables.timelines;
  }

  lemma LoadedShows()
    ensures H.Seen(READY.tables, 2, 2, MAX_DEPTH) && Between(READY.tables, 2, 0, 2, MAX_DEPTH) == [OPENING, ACTION]
  {
    var l := READY.tables;
    assert H.RecordAt(l, 2, 1, MAX_DEPTH) == H.RecordAt(l, 1, 1, MAX_DEPTH - 1) == Some(OPENING);
    assert H.RecordAt(l, 2, 2, MAX_DEPTH) == H.RecordAt(l, 1, 2, MAX_DEPTH - 1) == Some(ACTION);
    assert H.RecordAt(l, 2, 0, MAX_DEPTH) == H.RecordAt(l, 1, 0, MAX_DEPTH - 1) == None;
    assert H.Numbered(l, 2, 2, MAX_DEPTH) == [OPENING, ACTION];
  }

  /** The plan made from those two records under a trigger of one action. */
  lemma PlanOfTwo(previous: Summary)
    ensures var plan := PlanOf(2, 6, 0, previous, [OPENING, ACTION], false, 1);
      plan.Job? && plan.work.timeline == 2 && plan.work.from == previous.through
  {
    var records := [OPENING, ACTION];
    assert records[..1] == [OPENING] && records[..2] == records && records[..2][..1] == [OPENING] && [OPENING][..0] == [];
    assert Actions([OPENING]) == 0 && Actions(records) == 1;
    assert Messages([OPENING]).Ok? && RecordMessages(ACTION) == Ok(["answer"]);
    assert Messages(records).Ok? && Messages(records).value[|Messages(records).value| - 1] == "answer";
  }

  lemma SavedOk()
    ensures Inv(SAVED)
  {
    EmptyOk();
    StartsAndPlays();
    SavesAndLoads();
    NextKeeps(EMPTY_ROOM, Open(1, ROOT));
    NextKeeps(BEGUN, Archive(OPENING));
    NextKeeps(Next(BEGUN, Archive(OPENING)), Archive(ACTION));
    NextKeeps(PLAYED, CreateSave(1, 1, 2));
  }

  lemma ReadyOk()
    ensures Inv(READY)
  {
    SavedOk();
    SavesAndLoads();
    NextKeeps(SAVED, Open(2, BRANCH));
    NextKeeps(LOADED, Reopen(true, 6));
  }

  const SAVING: seq<Step> := [Open(1, ROOT), Archive(OPENING), Archive(ACTION), CreateSave(1, 1, 2)]
  const LOADING: seq<Step> := SAVING + [Open(2, BRANCH)] + [Reopen(true, 6)]

  lemma SavedIsReached()
    ensures Run(EMPTY_ROOM, SAVING) == SAVED
  {
    EmptyOk();
    StartsAndPlays();
    SavesAndLoads();
    var none: seq<Step> := [];
    assert SAVING == none + [Open(1, ROOT)] + [Archive(OPENING)] + [Archive(ACTION)] + [CreateSave(1, 1, 2)];
    RunAppend(EMPTY_ROOM, none, Open(1, ROOT));
    RunAppend(EMPTY_ROOM, none + [Open(1, ROOT)], Archive(OPENING));
    RunAppend(EMPTY_ROOM, none + [Open(1, ROOT)] + [Archive(OPENING)], Archive(ACTION));
    RunAppend(EMPTY_ROOM, none + [Open(1, ROOT)] + [Archive(OPENING)] + [Archive(ACTION)], CreateSave(1, 1, 2));
  }

  lemma ReadyIsReached()
    ensures Run(EMPTY_ROOM, LOADING) == READY
  {
    EmptyOk();
    SavedIsReached();
    SavesAndLoads();
    RunAppend(EMPTY_ROOM, SAVING, Open(2, BRANCH));
    RunAppend(EMPTY_ROOM, SAVING + [Open(2, BRANCH)], Reopen(true, 6));
  }

  /** A claim that finds no job stores and leases the one it plans. */
  lemma PlannedJobIsStuck(s: Room, plan: Plan, key: Uuid, owner: Uuid)
    requires Claimable(s) && s.works == map[] && plan.Job? && plan.work.timeline == s.active.value
    requires plan.work.from < s.tables.timelines[s.active.value].fork
    ensures Stuck(Decided(s, plan, key, owner, true), key)
  {
  }

  lemma ReadyPlan() returns (plan: Plan)
    ensures Claimable(READY) && plan.Job? && plan.work.timeline == 2 && plan.work.from == 0
    ensures ClaimSummary(READY, 1, 1, 1, true) == Decided(READY, plan, 1, 1, true)
  {
    ReadyOk();
    LoadedShows();
    EndWithinMark(READY, 2);
    PlanOfTwo(Below(READY, 2));
    plan := Planned(READY, 2, 1);
  }

  /**
   A save made before any summary existed, loaded two records into the game: the first summary job of
   the loaded branch starts at 0, below the fork at 2, so the branch will never have a summary.
   */
  lemma LoadLeavesJobStuck()
    ensures Stuck(ClaimSummary(Run(EMPTY_ROOM, LOADING), 1, 1, 1, true), 1)
  {
    ReadyIsReached();
    var plan := ReadyPlan();
    PlannedJobIsStuck(READY, plan, 1, 1);
  }
}
