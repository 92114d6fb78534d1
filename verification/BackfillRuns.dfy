/**
 A repair job over a whole timeline, while the room goes on archiving, branches come and go, other jobs
 repair whatever they like, and any response may be lost: the job's checkpoint never runs ahead of the index.
 */
module BackfillRuns {
  import opened MemoryModel
  import opened Ledger
  import H = History
  import opened Backfill

  /** What a batch asks for. */
  datatype Request = Request(timeline: Uuid, after: nat, through: Option<nat>, limit: nat, apply: bool)

  /** What a response reports: the next checkpoint, the frozen end of the range, and whether they meet. */
  datatype Response = Response(next: nat, through: nat, done: bool)

  /** `last` is the last response the job received; every response may be lost. */
  datatype Repair = Repair(tables: Tables, index: Index, last: Option<Response>)

  datatype Step =
    | ArchiveRecord(record: Record)
    | ChangeBranch(change: H.Step)
    | OwnBatch(responseLost: bool)
    | OtherBatch(other: Request)

  /** The batch commits: the request is in range and no stored row contradicts the records it covers. */
  ghost predicate Commits(l: Tables, index: Index, q: Request)
    requires H.Inv(l)
  {
    && 1 <= q.limit <= 100 && Range(l, q.timeline, q.after, q.through).Some?
    && Repairable(index, Scanned(l, q.timeline, q.after, q.through, q.limit))
  }

  ghost function Batched(l: Tables, index: Index, q: Request): Index
    requires H.Inv(l)
  {
    if Commits(l, index, q) && q.apply then RepairedAll(index, Scanned(l, q.timeline, q.after, q.through, q.limit)) else index
  }

  /** Archive: the record and its events are inserted together, or neither when a row of that commit exists. */
  function Stored(s: Repair, r: Record): Repair {
    var (l, result) := H.Archived(s.tables, r);
    if result != Ok(true) || exists k :: k in s.index && k.0 == r.commit && Clashes(k, r) then s
    else s.(tables := l, index := Repaired(s.index, r))
  }

  predicate Clashes(k: (Uuid, nat), r: Record) {
    Derived(r).Ok? && k.1 < |Derived(r).value|
  }

  function Asked(s: Repair, job: Request): Request {
    if s.last.None? then job.(apply := true)
    else job.(after := s.last.value.next, through := Some(s.last.value.through), apply := true)
  }

  /** One batch of the job itself; without a response it will ask for the same batch again. */
  ghost function Worked(s: Repair, job: Request, lost: bool): Repair
    requires H.Inv(s.tables)
  {
    var q := Asked(s, job);
    if !Commits(s.tables, s.index, q) then s
    else
      var (from, upper) := Range(s.tables, q.timeline, q.after, q.through).value;
      var end := End(from, upper, q.limit);
      s.(index := Batched(s.tables, s.index, q), last := if lost then s.last else Some(Response(end, upper, end == upper)))
  }

  ghost function Next(s: Repair, job: Request, step: Step): Repair
    requires H.Inv(s.tables)
  {
    match step
    case ArchiveRecord(r) => Stored(s, r)
    case ChangeBranch(change) => if change.Archive? then s else s.(tables := H.Next(s.tables, change))
    case OwnBatch(lost) => Worked(s, job, lost)
    case OtherBatch(q) => s.(index := Batched(s.tables, s.index, q))
  }

  lemma NextTables(s: Repair, job: Request, step: Step)
    requires H.Inv(s.tables)
    ensures H.Inv(Next(s, job, step).tables) && H.Grows(s.tables, Next(s, job, step).tables)
  {
    assert H.Grows(s.tables, s.tables);
    match step
    case ArchiveRecord(r) => H.ArchiveKeepsInv(s.tables, r);
    case ChangeBranch(change) => H.NextKeepsInv(s.tables, change);
    case _ =>
  }

  ghost function Run(s: Repair, job: Request, steps: seq<Step>): Repair
    requires H.Inv(s.tables)
    decreases |steps|
  {
    if steps == [] then s
    else
      NextTables(s, job, steps[0]);
      Run(Next(s, job, steps[0]), job, steps[1..])
  }

  // ---------------------------------------------------------------- exact rows stay exact

  lemma SameCommitSameRecord(l: Tables, a: Record, b: Record)
    requires H.Inv(l) && InLedger(l, a) && InLedger(l, b) && a.commit == b.commit
    ensures a == b
  {
    assert H.SameIdentity(l.records[(a.timeline, a.position)], l.records[(b.timeline, b.position)]);
  }

  lemma ScannedStand(l: Tables, q: Request)
    requires H.Inv(l) && Range(l, q.timeline, q.after, q.through).Some?
    ensures var records := Scanned(l, q.timeline, q.after, q.through, q.limit);
      DistinctCommits(records) && forall i {:trigger records[i]} :: 0 <= i < |records| ==> InLedger(l, records[i])
  {
    RangePresent(l, q.timeline, q.after, q.through);
    var (from, upper) := Range(l, q.timeline, q.after, q.through).value;
    var end := End(from, upper, q.limit);
    BetweenDistinct(l, q.timeline, from, end);
    forall p | from < p <= end ensures InLedger(l, l.records[(q.timeline, p)]) {
      assert H.RowOk(l, q.timeline, p);
    }
  }

  /** No batch, whoever asks for it, touches the rows of a record that has exactly its own. */
  lemma BatchKeepsExact(l: Tables, index: Index, q: Request, r: Record)
    requires H.Inv(l) && InLedger(l, r) && Exact(index, r)
    ensures Exact(Batched(l, index, q), r) && Extends(index, Batched(l, index, q))
  {
    if Commits(l, index, q) && q.apply {
      var records := Scanned(l, q.timeline, q.after, q.through, q.limit);
      ScannedStand(l, q);
      RepairedAllAdds(index, records);
      RepairedAllExact(index, records);
      if i :| 0 <= i < |records| && records[i].commit == r.commit {
        SameCommitSameRecord(l, records[i], r);
        assert Exact(RepairedAll(index, records), records[i]);
      } else {
        StillConsistent(index, RepairedAll(index, records), records, r);
      }
    }
  }

  lemma BatchExtends(l: Tables, index: Index, q: Request)
    requires H.Inv(l)
    ensures Extends(index, Batched(l, index, q))
  {
    if Commits(l, index, q) && q.apply {
      ScannedStand(l, q);
      RepairedAllAdds(index, Scanned(l, q.timeline, q.after, q.through, q.limit));
    }
  }

  /** A record archived later has another commit, so its events are other rows. */
  lemma ArchiveKeepsExact(s: Repair, more: Record, r: Record)
    requires H.Inv(s.tables) && InLedger(s.tables, r) && Exact(s.index, r)
    ensures Exact(Stored(s, more).index, r) && Extends(s.index, Stored(s, more).index)
  {
    ArchiveExtends(s, more);
    if H.Archived(s.tables, more).1 == Ok(true) {
      assert !H.SameIdentity(s.tables.records[(r.timeline, r.position)], more);
      if Stored(s, more) != s {
        StaysExact(s.index, Stored(s, more).index, r, more.commit);
      }
    }
  }

  lemma ArchiveExtends(s: Repair, more: Record)
    ensures var n := Stored(s, more).index;
      Extends(s.index, n) && forall k :: k in n && k !in s.index ==> k.0 == more.commit
  {
    if Derived(more).Ok? {
      WithRowsIs(s.index, more.commit, Derived(more).value);
    }
  }

  // ---------------------------------------------------------------- the job

  /** Every record of the timeline in (from, end] has exactly the rows derived from it. */
  ghost predicate Indexed(l: Tables, index: Index, id: Uuid, from: nat, end: nat) {
    forall p :: from < p <= end ==> (id, p) in l.records && Exact(index, l.records[(id, p)])
  }

  /** The lowest position the job has to look at. */
  function Start(l: Tables, job: Request): nat
    requires job.timeline in l.timelines
  {
    if job.after < l.timelines[job.timeline].fork then l.timelines[job.timeline].fork else job.after
  }

  /** Everything up to the checkpoint the job has heard of is indexed. */
  ghost predicate Sound(s: Repair, job: Request) {
    && job.timeline in s.tables.timelines
    && (s.last.Some? ==>
          var (next, through) := (s.last.value.next, s.last.value.through);
          && Start(s.tables, job) <= next <= through <= s.tables.timelines[job.timeline].durable
          && (job.through.Some? ==> through == job.through.value)
          && (s.last.value.done <==> next == through)
          && Indexed(s.tables, s.index, job.timeline, Start(s.tables, job), next))
  }

  lemma IndexedStays(s: Repair, job: Request, step: Step, id: Uuid, from: nat, end: nat)
    requires H.Inv(s.tables) && Indexed(s.tables, s.index, id, from, end)
    ensures Indexed(Next(s, job, step).tables, Next(s, job, step).index, id, from, end)
  {
    var n := Next(s, job, step);
    NextTables(s, job, step);
    forall p | from < p <= end ensures (id, p) in n.tables.records && Exact(n.index, n.tables.records[(id, p)]) {
      var r := s.tables.records[(id, p)];
      assert H.RowOk(s.tables, id, p) && InLedger(s.tables, r);
      ExactStays(s, job, step, r);
    }
  }

  /** Once a record has exactly its rows, no step takes that away. */
  lemma ExactStays(s: Repair, job: Request, step: Step, r: Record)
    requires H.Inv(s.tables) && InLedger(s.tables, r) && Exact(s.index, r)
    ensures Exact(Next(s, job, step).index, r)
  {
    match step
    case ArchiveRecord(more) => ArchiveKeepsExact(s, more, r);
    case ChangeBranch(_) =>
    case OwnBatch(_) => BatchKeepsExact(s.tables, s.index, Asked(s, job), r);
    case OtherBatch(q) => BatchKeepsExact(s.tables, s.index, q, r);
  }

  lemma IndexGrows(s: Repair, job: Request, step: Step)
    requires H.Inv(s.tables)
    ensures Extends(s.index, Next(s, job, step).index)
  {
    match step
    case ArchiveRecord(more) => ArchiveExtends(s, more);
    case ChangeBranch(_) =>
    case OwnBatch(_) => BatchExtends(s.tables, s.index, Asked(s, job));
    case OtherBatch(q) => BatchExtends(s.tables, s.index, q);
  }

  /** A batch that commits indexes everything it covers. */
  lemma BatchIndexes(l: Tables, index: Index, q: Request)
    requires H.Inv(l) && Commits(l, index, q) && q.apply
    ensures var (from, upper) := Range(l, q.timeline, q.after, q.through).value;
      Indexed(l, Batched(l, index, q), q.timeline, from, End(from, upper, q.limit))
  {
    var (from, upper) := Range(l, q.timeline, q.after, q.through).value;
    var records := Scanned(l, q.timeline, q.after, q.through, q.limit);
    RangePresent(l, q.timeline, q.after, q.through);
    ScannedStand(l, q);
    RepairedAllExact(index, records);
    forall p | from < p <= End(from, upper, q.limit) ensures Exact(Batched(l, index, q), l.records[(q.timeline, p)]) {
      assert records[p - from - 1] == l.records[(q.timeline, p)];
    }
  }

  lemma OwnKeepsSound(s: Repair, job: Request, lost: bool)
    requires H.Inv(s.tables) && Sound(s, job)
    ensures Sound(Next(s, job, OwnBatch(lost)), job)
  {
    var q := Asked(s, job);
    if s.last.Some? {
      IndexedStays(s, job, OwnBatch(lost), job.timeline, Start(s.tables, job), s.last.value.next);
    }
    if Commits(s.tables, s.index, q) {
      BatchIndexes(s.tables, s.index, q);
    }
  }

  lemma NextKeepsSound(s: Repair, job: Request, step: Step)
    requires H.Inv(s.tables) && Sound(s, job)
    ensures Sound(Next(s, job, step), job)
  {
    NextTables(s, job, step);
    if step.OwnBatch? {
      OwnKeepsSound(s, job, step.responseLost);
    } else if s.last.Some? {
      IndexedStays(s, job, step, job.timeline, Start(s.tables, job), s.last.value.next);
    }
  }

  /** A job without a bound gets the durable mark of its first batch, so it leaves nothing out that stood before. */
  ghost predicate Reaches(s: Repair, job: Request, mark: nat) {
    && job.timeline in s.tables.timelines && mark <= s.tables.timelines[job.timeline].durable
    && (job.through.None? && s.last.Some? ==> mark <= s.last.value.through)
  }

  lemma {:induction false} RunKeeps(s: Repair, job: Request, mark: nat, steps: seq<Step>)
    requires H.Inv(s.tables) && Sound(s, job) && Reaches(s, job, mark)
    ensures var n := Run(s, job, steps);
      H.Inv(n.tables) && Sound(n, job) && Reaches(n, job, mark) && H.Grows(s.tables, n.tables) && Extends(s.index, n.index)
    decreases |steps|
  {
    if steps == [] {
      assert H.Grows(s.tables, s.tables);
    } else {
      NextTables(s, job, steps[0]);
      NextKeepsSound(s, job, steps[0]);
      IndexGrows(s, job, steps[0]);
      RunKeeps(Next(s, job, steps[0]), job, mark, steps[1..]);
    }
  }

  /**
   Whatever the room archives, other jobs repair and responses get lost meanwhile: once a job is told that
   it is done, the rows of its range are exactly the derived events, and no row there was has changed.
   */
  lemma DoneMeansIndexed(l: Tables, index: Index, job: Request, steps: seq<Step>)
    requires H.Inv(l) && job.timeline in l.timelines
    ensures var n := Run(Repair(l, index, None), job, steps);
      && Extends(index, n.index)
      && (n.last.Some? && n.last.value.done ==>
            && Indexed(n.tables, n.index, job.timeline, Start(l, job), n.last.value.through)
            && if job.through.Some? then n.last.value.through == job.through.value
               else l.timelines[job.timeline].durable <= n.last.value.through)
  {
    var s := Repair(l, index, None);
    RunKeeps(s, job, l.timelines[job.timeline].durable, steps);
    assert Start(Run(s, job, steps).tables, job) == Start(l, job);
  }

  /** Where the job asks from next. */
  function Checkpoint(s: Repair, job: Request): (nat, Option<nat>) {
    if s.last.Some? then (s.last.value.next, Some(s.last.value.through)) else (job.after, job.through)
  }

  /** A batch that is answered moves the checkpoint by its limit or to the end; one whose answer is lost does the same work. */
  lemma OwnBatchMoves(s: Repair, job: Request)
    requires H.Inv(s.tables) && 1 <= job.limit <= 100
    requires var (after, through) := Checkpoint(s, job);
      && InRange(s.tables, job.timeline, after, through)
      && RowsAgree(s.tables, s.index, job.timeline, Lower(s.tables, job.timeline, after), Stop(s.tables, job.timeline, after, through, job.limit))
    ensures var (after, through) := Checkpoint(s, job);
            var (from, stop, upper) := (Lower(s.tables, job.timeline, after), Stop(s.tables, job.timeline, after, through, job.limit),
                                        Upper(s.tables, job.timeline, through));
            var n := Next(s, job, OwnBatch(false));
      && n.last == Some(Response(stop, upper, stop == upper)) && n.tables == s.tables
      && (stop == upper || stop == from + job.limit)
      && Filled(s.tables, job.timeline, from, stop, true, s.index, n.index)
      && Next(s, job, OwnBatch(true)) == n.(last := s.last)
  {
    var (after, through) := Checkpoint(s, job);
    AskedCommits(s.tables, s.index, job.(after := after, through := through, apply := true));
  }

  lemma AskedCommits(l: Tables, index: Index, q: Request)
    requires H.Inv(l) && 1 <= q.limit <= 100 && q.apply && InRange(l, q.timeline, q.after, q.through)
    requires RowsAgree(l, index, q.timeline, Lower(l, q.timeline, q.after), Stop(l, q.timeline, q.after, q.through, q.limit))
    ensures Commits(l, index, q)
    ensures var (from, upper) := (Lower(l, q.timeline, q.after), Upper(l, q.timeline, q.through));
      && Range(l, q.timeline, q.after, q.through) == Some((from, upper))
      && End(from, upper, q.limit) == Stop(l, q.timeline, q.after, q.through, q.limit)
      && Filled(l, q.timeline, from, End(from, upper, q.limit), true, index, Batched(l, index, q))
  {
    BatchMeans(l, index, q.timeline, q.after, q.through, q.limit, true);
  }

  /** A record archived for the first time comes with exactly its rows. */
  lemma ArchiveIndexes(s: Repair, job: Request, r: Record)
    requires H.Inv(s.tables) && H.Archived(s.tables, r).1 == Ok(true) && forall k :: k in s.index ==> k.0 != r.commit
    ensures var n := Next(s, job, ArchiveRecord(r));
      && n.tables == H.Archived(s.tables, r).0 && Backfill.Indexed(n.index, r) && Extends(s.index, n.index)
      && forall k :: k in n.index && k !in s.index ==> k.0 == r.commit
  {
    RepairedIs(s.index, r);
    ExactIsIndexed(Repaired(s.index, r), r);
  }

  // ---------------------------------------------------------------- no conflicts of its own making

  /** Every row belongs to a record and contradicts none. */
  ghost predicate Clean(l: Tables, index: Index) {
    && (forall p {:trigger l.records[p]} :: p in l.records ==> Consistent(index, l.records[p]))
    && (forall k {:trigger k in index} :: k in index ==> HasSource(l, k.0))
  }

  ghost predicate HasSource(l: Tables, commit: Uuid) {
    exists p {:trigger l.records[p]} :: p in l.records && l.records[p].commit == commit
  }

  lemma CleanCommits(l: Tables, index: Index, q: Request)
    requires H.Inv(l) && Clean(l, index)
    ensures Commits(l, index, q) <==> 1 <= q.limit <= 100 && Range(l, q.timeline, q.after, q.through).Some?
  {
    if Range(l, q.timeline, q.after, q.through).Some? {
      ScannedStand(l, q);
      var records := Scanned(l, q.timeline, q.after, q.through, q.limit);
      forall i | 0 <= i < |records| ensures Consistent(index, records[i]) {
        assert InLedger(l, records[i]);
      }
    }
  }

  lemma BatchKeepsClean(l: Tables, index: Index, q: Request)
    requires H.Inv(l) && Clean(l, index)
    ensures Clean(l, Batched(l, index, q))
  {
    var m := Batched(l, index, q);
    if Commits(l, index, q) && q.apply {
      var records := Scanned(l, q.timeline, q.after, q.through, q.limit);
      ScannedStand(l, q);
      RepairedAllAdds(index, records);
      RepairedAllExact(index, records);
      forall p | p in l.records ensures Consistent(m, l.records[p]) {
        OneStaysConsistent(l, index, records, p);
      }
      forall k | k in m ensures HasSource(l, k.0) {
        if k !in index {
          var i :| 0 <= i < |records| && records[i].commit == k.0;
          assert InLedger(l, records[i]);
        }
      }
    }
  }

  lemma OneStaysConsistent(l: Tables, index: Index, records: seq<Record>, p: (Uuid, nat))
    requires H.Inv(l) && Clean(l, index) && p in l.records
    requires DistinctCommits(records) && forall i {:trigger records[i]} :: 0 <= i < |records| ==> InLedger(l, records[i])
    requires Repairable(index, records) && AllExact(RepairedAll(index, records), records)
    ensures Consistent(RepairedAll(index, records), l.records[p])
  {
    var r := l.records[p];
    assert H.RowOk(l, p.0, p.1);
    if i :| 0 <= i < |records| && records[i].commit == r.commit {
      SameCommitSameRecord(l, records[i], r);
      assert Exact(RepairedAll(index, records), records[i]);
    } else {
      RepairedAllAdds(index, records);
      StillConsistent(index, RepairedAll(index, records), records, r);
    }
  }

  lemma ArchiveKeepsClean(s: Repair, r: Record)
    requires H.Inv(s.tables) && Clean(s.tables, s.index)
    ensures Clean(Stored(s, r).tables, Stored(s, r).index)
  {
    var n := Stored(s, r);
    ArchiveExtends(s, r);
    if n != s {
      var l := s.tables;
      assert H.Archived(l, r).1 == Ok(true) && n.tables == H.Insert(l, r);
      NoRowsBefore(l, s.index, r);
      RepairedIs(s.index, r);
      forall p | p in n.tables.records ensures Consistent(n.index, n.tables.records[p]) {
        if p in l.records {
          assert !H.SameIdentity(l.records[p], r);
          OtherRowsKept(s.index, n.index, l.records[p], r.commit);
        }
      }
      SourcesKept(l, s.index, n.index, r);
    }
  }

  lemma SourcesKept(l: Tables, before: Index, after: Index, r: Record)
    requires r.timeline in l.timelines && (r.timeline, r.position) !in l.records
    requires (forall k :: k in before ==> HasSource(l, k.0)) && forall k :: k in after && k !in before ==> k.0 == r.commit
    ensures forall k :: k in after ==> HasSource(H.Insert(l, r), k.0)
  {
    var m := H.Insert(l, r);
    forall k | k in after ensures HasSource(m, k.0) {
      if k in before {
        SourceKept(l, m, k.0);
      } else {
        assert m.records[(r.timeline, r.position)].commit == k.0;
      }
    }
  }

  lemma SourceKept(l: Tables, m: Tables, commit: Uuid)
    requires HasSource(l, commit) && forall k :: k in l.records ==> k in m.records && m.records[k] == l.records[k]
    ensures HasSource(m, commit)
  {
    var p :| p in l.records && l.records[p].commit == commit;
    assert m.records[p].commit == commit;
  }

  /** A new commit has no rows yet, so all of them are consistent with the record about to be stored. */
  lemma NoRowsBefore(l: Tables, index: Index, r: Record)
    requires Clean(l, index) && H.Unused(l, r) && Derived(r).Ok?
    ensures Consistent(index, r)
  {
    forall k | k in index ensures k.0 != r.commit {
      SourceIsOther(l, r, k.0);
    }
  }

  lemma SourceIsOther(l: Tables, r: Record, commit: Uuid)
    requires HasSource(l, commit) && H.Unused(l, r)
    ensures commit != r.commit
  {
    var p :| p in l.records && l.records[p].commit == commit;
    assert !H.SameIdentity(l.records[p], r);
  }

  lemma OtherRowsKept(a: Index, b: Index, r: Record, commit: Uuid)
    requires Consistent(a, r) && Extends(a, b) && r.commit != commit
    requires forall k :: k in b && k !in a ==> k.0 == commit
    ensures Consistent(b, r)
  {
  }

  lemma NextKeepsClean(s: Repair, job: Request, step: Step)
    requires H.Inv(s.tables) && Clean(s.tables, s.index)
    ensures Clean(Next(s, job, step).tables, Next(s, job, step).index)
  {
    match step
    case ArchiveRecord(r) => ArchiveKeepsClean(s, r);
    case ChangeBranch(change) =>
    case OwnBatch(_) => BatchKeepsClean(s.tables, s.index, Asked(s, job));
    case OtherBatch(q) => BatchKeepsClean(s.tables, s.index, q);
  }

  /** In a room whose rows contradict nothing, no batch ever conflicts: each one asked for in range commits. */
  lemma {:induction false} NeverConflicts(s: Repair, job: Request, steps: seq<Step>, q: Request)
    requires H.Inv(s.tables) && Clean(s.tables, s.index)
    ensures var n := Run(s, job, steps);
      H.Inv(n.tables) && (Commits(n.tables, n.index, q) <==> 1 <= q.limit <= 100 && Range(n.tables, q.timeline, q.after, q.through).Some?)
    decreases |steps|
  {
    if steps == [] {
      CleanCommits(s.tables, s.index, q);
    } else {
      NextTables(s, job, steps[0]);
      NextKeepsClean(s, job, steps[0]);
      NeverConflicts(Next(s, job, steps[0]), job, steps[1..], q);
    }
  }
}
