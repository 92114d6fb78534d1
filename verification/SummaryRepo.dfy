/**
 The summary repository of one room: an object holding its rows, one method per transaction.
 */
module SummaryRepo {
  import opened MemoryModel
  import opened Ledger
  import H = History
  import opened Summaries
  import opened SummaryInvariant
  import opened SummaryStore

  // ---------------------------------------------------------------- gathering one job's records

  lemma {:induction false} MessagesFailEarly(records: seq<Record>, n: nat, k: nat)
    requires n <= k <= |records| && Messages(records[..n]).Err?
    ensures Messages(records[..k]).Err?
    decreases k
  {
    if n < k {
      MessagesFailEarly(records, n, k - 1);
      assert records[..k][..k - 1] == records[..k - 1];
    }
  }

  lemma OneMore(records: seq<Record>, n: nat)
    requires n < |records|
    ensures Actions(records[..n + 1]) == Actions(records[..n]) + (if records[n].kind.Action? then 1 else 0)
    ensures Messages(records[..n]).Ok? ==>
              Messages(records[..n + 1]) ==
                if RecordMessages(records[n]).Err? then RecordMessages(records[n])
                else Ok(Messages(records[..n]).value + RecordMessages(records[n]).value)
  {
    assert records[..n + 1][..n] == records[..n];
  }

  predicate NotYet(records: seq<Record>, trigger: nat, n: nat)
    requires n <= |records|
  {
    forall m :: 0 < m <= n ==> Actions(records[..m]) < trigger
  }

  lemma ChosenIs(records: seq<Record>, trigger: nat, k: nat)
    requires k <= |records| && trigger > 0
    requires k > 0 ==> NotYet(records, trigger, k - 1)
    requires if k < |records| then k > 0 && Actions(records[..k]) >= trigger
             else k == 0 || Actions(records[..k]) >= trigger || NotYet(records, trigger, k)
    ensures Chosen(records, trigger) == k
  {
  }

  lemma ChosenBeyond(records: seq<Record>, trigger: nat, n: nat)
    requires n < |records| && NotYet(records, trigger, n) && trigger > 0
    ensures n < Chosen(records, trigger) <= |records|
  {
  }

  /** The shortest beginning that holds enough actions, or all there is. */
  ghost predicate JobSize(records: seq<Record>, trigger: nat, n: nat) {
    && n <= |records|
    && (n < |records| ==> ActionsAmong(records, n) >= trigger)
    && (forall m :: 0 <= m < n ==> ActionsAmong(records, m) < trigger)
  }

  lemma JobSizeUnique(records: seq<Record>, trigger: nat, a: nat, b: nat)
    requires JobSize(records, trigger, a) && JobSize(records, trigger, b)
    ensures a == b
  {
  }

  lemma ChosenIsJobSize(records: seq<Record>, trigger: nat)
    requires trigger > 0
    ensures JobSize(records, trigger, Chosen(records, trigger))
  {
    var n := Chosen(records, trigger);
    ActionsCount(records, n);
    forall m | 0 <= m < n ensures ActionsAmong(records, m) < trigger {
      ActionsCount(records, m);
      assert records[..0] == [];
    }
  }

  ghost predicate FailsWithin(records: seq<Record>, n: nat)
    requires n <= |records|
  {
    exists i :: 0 <= i < n && Textless(records[i])
  }

  ghost predicate Silent(records: seq<Record>, n: nat)
    requires n <= |records|
  {
    forall i :: 0 <= i < n ==> Own(records[i], [])
  }

  lemma {:induction false} NoText(records: seq<Record>)
    requires Messages(records).Ok?
    ensures Messages(records).value == [] <==> Silent(records, |records|)
    decreases |records|
  {
    if records != [] {
      var front, last := records[..|records| - 1], records[|records| - 1];
      NoText(front);
      assert forall i :: 0 <= i < |front| ==> front[i] == records[i];
      assert Own(last, RecordMessages(last).value);
    }
  }

  /** The first `n` records as one text. */
  lemma TextOfFirst(records: seq<Record>, n: nat)
    requires n <= |records|
    ensures Messages(records[..n]).Err? <==> FailsWithin(records, n)
    ensures Messages(records[..n]).Ok? ==>
              TextOf(records[..n], Messages(records[..n]).value) && (Messages(records[..n]).value == [] <==> Silent(records, n))
  {
    var first := records[..n];
    MessagesFailIff(first);
    FirstAlike(records, n);
    if Messages(first).Ok? {
      var at := MessagesAreText(first);
      NoText(first);
    }
  }

  lemma FirstAlike(records: seq<Record>, n: nat)
    requires n <= |records|
    ensures FailsWithin(records[..n], n) <==> FailsWithin(records, n)
    ensures Silent(records[..n], n) <==> Silent(records, n)
  {
    var first := records[..n];
    assert forall i {:trigger first[i]} {:trigger records[i]} :: 0 <= i < n ==> first[i] == records[i];
  }

  /** The loop that takes records until the trigger is reached; fails on the first record without text. */
  method Gather(records: seq<Record>, trigger: nat) returns (taken: nat, messages: seq<string>, count: nat, failed: bool)
    requires trigger > 0
    ensures forall n :: JobSize(records, trigger, n) ==> (failed <==> FailsWithin(records, n)) && (!failed ==> taken == n)
    ensures !failed ==> JobSize(records, trigger, taken) && count == ActionsAmong(records, taken) && TextOf(records[..taken], messages)
    ensures failed <==> Messages(records[..Chosen(records, trigger)]).Err?
    ensures !failed ==> taken == Chosen(records, trigger) <= |records|
    ensures !failed ==> Messages(records[..taken]) == Ok(messages) && count == Actions(records[..taken])
  {
    taken, messages, count, failed := 0, [], 0, false;
    while taken < |records| && count < trigger
      invariant 0 <= taken <= |records|
      invariant Messages(records[..taken]) == Ok(messages) && count == Actions(records[..taken])
      invariant taken > 0 ==> NotYet(records, trigger, taken - 1)
      invariant count < trigger ==> NotYet(records, trigger, taken)
    {
      OneMore(records, taken);
      var part := RecordMessages(records[taken]);
      if part.Err? {
        ChosenBeyond(records, trigger, taken);
        MessagesFailEarly(records, taken + 1, Chosen(records, trigger));
        ChosenIsJobSize(records, trigger);
        TextOfFirst(records, Chosen(records, trigger));
        return taken, messages, count, true;
      }
      messages := messages + part.value;
      if records[taken].kind.Action? {
        count := count + 1;
      }
      taken := taken + 1;
    }
    ChosenIs(records, trigger, taken);
    ChosenIsJobSize(records, trigger);
    TextOfFirst(records, taken);
    ActionsCount(records, taken);
  }

  /** What to do with the records read: nothing yet, carry the old text forward, or ask for a new one. */
  method Schedule(id: Uuid, revision: nat, version: nat, previous: Summary, records: seq<Record>, more: bool, trigger: nat)
    returns (plan: Plan)
    requires trigger > 0
    ensures plan == PlanOf(id, revision, version, previous, records, more, trigger)
  {
    var taken, messages, count, failed := Gather(records, trigger);
    if failed {
      return Broken;
    }
    if count < trigger && !more {
      return TooFew;
    }
    var through := if taken == 0 then previous.through else records[taken - 1].position;
    if messages == [] {
      return Carry(Summary(id, version + 1, through, previous.content, previous.covered + records[..taken]));
    }
    return Job(Work(id, revision, version, previous.through, through, previous.content, records[..taken], messages, Waiting, 0));
  }

  // ---------------------------------------------------------------- the repository

  class GameSummaryRepo {
    var tables: Tables
    var active: Option<Uuid>
    var ready: bool
    var revision: nat
    var summaries: map<Uuid, seq<Summary>>
    var works: map<Uuid, Work>
    var saves: map<nat, Save>

    function Contents(): Room
      reads this
    {
      Room(tables, active, ready, revision, summaries, works, saves)
    }

    constructor (room: Room)
      ensures Contents() == room
    {
      tables, active, ready, revision := room.tables, room.active, room.ready, room.revision;
      summaries, works, saves := room.summaries, room.works, room.saves;
    }

    /** ClaimSummary: schedule the next job of the active branch or take up the one that is due. */
    method ClaimSummary(trigger: nat, key: Uuid, owner: Uuid, due: bool) returns (leased: Option<Uuid>)
      requires Inv(Contents()) && trigger > 0 && key !in works
      modifies this`summaries, this`works
      ensures Contents() == Summaries.ClaimSummary(old(Contents()), trigger, key, owner, due)
      ensures leased.Some? ==>
                && leased.value in works && works[leased.value].status.Running? && works[leased.value].owner == owner
                && works[leased.value].revision == revision && works == old(works)[leased.value := works[leased.value]]
      ensures leased.None? ==> works == old(works)
      ensures !ready || active.None? ==> leased.None? && Contents() == old(Contents())
    {
      if !ready || active.None? {
        return None;
      }
      ghost var s := Contents();
      var id := active.value;
      EndWithinMark(s, id);
      var mark := tables.timelines[id].durable;
      OriginsKept(s);
      var own := Latest(Rows(Contents(), id));
      NoOriginMissing(Contents(), id, mark, MAX_DEPTH);
      var previous := FindSummary(Contents(), id, mark);
      if previous.Err? {
        return None;
      }
      var version := if own.Some? then own.value.version else previous.value.version;
      var open := set k | k in works && works[k].timeline == id && works[k].expected == version;
      FoundIsOpen(s, id, version, open);
      if open != {} {
        var k :| k in open;
        if works[k].status.Done? || !due {
          return None;
        }
        works := works[k := works[k].(status := Running, owner := owner, revision := revision)];
        return Some(k);
      }
      var read := ReadSummaryRecords(tables, id, previous.value.through, mark, SOURCE_LIMIT);
      if read.Err? {
        return None;
      }
      var (records, more) := read.value;
      var plan := Schedule(id, revision, version, previous.value, records, more, trigger);
      leased := CarryOut(plan, key, owner);
    }

    method CarryOut(plan: Plan, key: Uuid, owner: Uuid) returns (leased: Option<Uuid>)
      modifies this`summaries, this`works
      ensures leased == if plan.Job? then Some(key) else None
      ensures Contents() == match plan
                            case TooFew => old(Contents())
                            case Broken => old(Contents())
                            case Carry(x) => Appended(old(Contents()), x)
                            case Job(w) => Leased(old(Contents()), key, w, owner)
    {
      match plan {
        case TooFew => return None;
        case Broken => return None;
        case Carry(carried) =>
          summaries := summaries[carried.timeline := Rows(Contents(), carried.timeline) + [carried]];
          return None;
        case Job(work) =>
          works := works[key := work.(status := Running, owner := owner, revision := revision)];
          return Some(key);
      }
    }

    /** CompleteSummary: fence lease, branch, revision and version, re-read the source, publish. */
    method CompleteSummary(key: Uuid, work: Work, candidate: string, fits: bool, live: bool) returns (failed: Option<Error>)
      requires Inv(Contents())
      modifies this`summaries, this`works
      ensures (Contents(), failed) == Summaries.CompleteSummary(old(Contents()), key, work, candidate, fits, live)
      ensures failed.Some? ==> Contents() == old(Contents())
      ensures failed.None? ==>
                && fits && live && ready && active == Some(work.timeline) && revision == work.revision
                && key in old(works) && old(works)[key].status.Running? && old(works)[key].owner == work.owner
                && works == old(works)[key := old(works)[key].(status := Done, owner := 0)]
                && summaries == old(summaries)[work.timeline := old(Rows(Contents(), work.timeline)) + [
                     Summary(work.timeline, work.expected + 1, work.through, candidate,
                             SummaryAt(old(Contents()), work.timeline, work.from, MAX_DEPTH).covered + work.source)]]
    {
      if !fits {
        return Some(Invalid);
      }
      if !ready || active != Some(work.timeline) || revision != work.revision {
        return Some(Error.Cursor);
      }
      if key !in works {
        return Some(NotFound);
      }
      var current := works[key];
      if !current.status.Running? || current.owner != work.owner || !live {
        return Some(Busy);
      }
      if current.timeline != work.timeline {
        return Some(Conflict);
      }
      ghost var s := Contents();
      OriginsKept(s);
      var own := Latest(Rows(Contents(), work.timeline));
      NoOriginMissing(Contents(), work.timeline, work.from, MAX_DEPTH);
      var previous := FindSummary(Contents(), work.timeline, work.from);
      if previous.Err? {
        return Some(previous.error);
      }
      var version := if own.Some? then own.value.version else previous.value.version;
      if version != work.expected {
        return Some(Conflict);
      }
      if previous.value.content != work.previous || previous.value.through != work.from || !SameJob(work, current) {
        return Some(Conflict);
      }
      var read := ReadSummaryRecords(tables, work.timeline, work.from, work.through, SOURCE_LIMIT);
      if read.Err? {
        return Some(read.error);
      }
      var (records, more) := read.value;
      if more || records != work.source {
        return Some(Conflict);
      }
      var messages := Messages(records);
      if messages.Err? {
        return Some(Invalid);
      }
      if messages.value != work.messages {
        return Some(Conflict);
      }
      var summary := Summary(work.timeline, work.expected + 1, work.through, candidate, previous.value.covered + records);
      summaries := summaries[work.timeline := Rows(Contents(), work.timeline) + [summary]];
      works := works[key := current.(status := Done, owner := 0)];
      return None;
    }
  }

  /** A job over these records after that summary, leased to `owner`. */
  ghost predicate LeasedJob(w: Work, id: Uuid, revision: nat, last: Summary, records: seq<Record>, owner: Uuid) {
    && w.timeline == id && w.revision == revision && w.expected == last.version && w.from == last.through && w.previous == last.content
    && w.source == records && records != [] && w.through == records[|records| - 1].position
    && TextOf(records, w.messages) && w.status.Running? && w.owner == owner
  }

  lemma SizeIsChosen(records: seq<Record>, trigger: nat, n: nat)
    requires trigger > 0 && JobSize(records, trigger, n)
    ensures Chosen(records, trigger) == n
  {
    ChosenIsJobSize(records, trigger);
    JobSizeUnique(records, trigger, n, Chosen(records, trigger));
  }

  lemma SizeIsPositive(records: seq<Record>, trigger: nat, n: nat)
    requires trigger > 0 && JobSize(records, trigger, n) && records != []
    ensures n > 0
  {
    ActionsCount(records, 0);
    assert records[..0] == [];
  }

  lemma PlanMeans(id: Uuid, revision: nat, last: Summary, records: seq<Record>, more: bool, trigger: nat, n: nat, owner: Uuid)
    requires trigger > 0 && JobSize(records, trigger, n) && (more ==> records != [])
    ensures var plan := PlanOf(id, revision, last.version, last, records, more, trigger);
      if FailsWithin(records, n) || (ActionsAmong(records, n) < trigger && !more) then plan.TooFew? || plan.Broken?
      else if Silent(records, n) then
        n > 0 && plan == Carry(Summary(id, last.version + 1, records[n - 1].position, last.content, last.covered + records[..n]))
      else plan.Job? && LeasedJob(plan.work.(status := Running, owner := owner, revision := revision), id, revision, last, records[..n], owner)
  {
    SizeIsChosen(records, trigger, n);
    if records != [] {
      SizeIsPositive(records, trigger, n);
    }
    PlanOver(id, revision, last, records, more, trigger, n, owner);
  }

  lemma PlanOver(id: Uuid, revision: nat, last: Summary, records: seq<Record>, more: bool, trigger: nat, n: nat, owner: Uuid)
    requires n == Chosen(records, trigger) <= |records| && trigger > 0 && (n == 0 ==> !more)
    ensures var plan := PlanOf(id, revision, last.version, last, records, more, trigger);
      if FailsWithin(records, n) || (ActionsAmong(records, n) < trigger && !more) then plan.TooFew? || plan.Broken?
      else if Silent(records, n) then
        n > 0 && plan == Carry(Summary(id, last.version + 1, records[n - 1].position, last.content, last.covered + records[..n]))
      else plan.Job? && LeasedJob(plan.work.(status := Running, owner := owner, revision := revision), id, revision, last, records[..n], owner)
  {
    var first := records[..n];
    TextOfFirst(records, n);
    ActionsCount(records, n);
    if n > 0 {
      assert first[|first| - 1] == records[n - 1];
    } else {
      assert ActionsAmong(records, 0) == Actions([]) == 0;
    }
  }

  /** The records after the last summary, a page of them, and whether there are more. */
  ghost function PageAfter(s: Room, id: Uuid): (seq<Record>, bool)
    requires id in s.tables.timelines && H.Seen(s.tables, id, s.tables.timelines[id].durable, MAX_DEPTH)
  {
    Reading(s.tables, id, Last(s, id).through, s.tables.timelines[id].durable, SOURCE_LIMIT)
  }

  lemma ClaimDecides(s: Room, trigger: nat, key: Uuid, owner: Uuid, due: bool)
    requires Inv(s) && s.ready && s.active.Some?
    requires s.active.value in s.tables.timelines && H.Seen(s.tables, s.active.value, s.tables.timelines[s.active.value].durable, MAX_DEPTH)
    ensures Claimable(s)
    ensures var id := s.active.value;
      && Summaries.ClaimSummary(s, trigger, key, owner, due) ==
           Decided(s, PlanOf(id, s.revision, Last(s, id).version, Last(s, id), PageAfter(s, id).0, PageAfter(s, id).1, trigger), key, owner, due)
      && BaseVersion(s, id, SummaryAt(s, id, s.tables.timelines[id].durable, MAX_DEPTH)) == Last(s, id).version
  {
    EndWithinMark(s, s.active.value);
  }

  predicate NextJob(s: Room, k: Uuid, id: Uuid, version: nat) {
    k in s.works && s.works[k].timeline == id && s.works[k].expected == version
  }

  /** The job that is there for the next version is taken over when it is due, and nothing else happens. */
  lemma ClaimTakesOver(s: Room, trigger: nat, key: Uuid, owner: Uuid, due: bool, k: Uuid)
    requires Inv(s) && s.ready && s.active.Some?
    requires s.active.value in s.tables.timelines && H.Seen(s.tables, s.active.value, s.tables.timelines[s.active.value].durable, MAX_DEPTH)
    requires NextJob(s, k, s.active.value, Last(s, s.active.value).version)
    ensures Summaries.ClaimSummary(s, trigger, key, owner, due) ==
              if s.works[k].status.Done? || !due then s
              else s.(works := s.works[k := s.works[k].(status := Running, owner := owner, revision := s.revision)])
  {
    var id := s.active.value;
    ClaimDecides(s, trigger, key, owner, due);
    var open := set j | j in s.works && s.works[j].timeline == id && s.works[j].expected == Last(s, id).version;
    FoundIsOpen(s, id, Last(s, id).version, open);
    assert k in open;
  }

  lemma NothingFound(s: Room, id: Uuid, version: nat)
    requires UniqueWorks(s) && forall k :: !NextJob(s, k, id, version)
    ensures WorkFor(s, id, version).None?
  {
    var open := set j | j in s.works && s.works[j].timeline == id && s.works[j].expected == version;
    FoundIsOpen(s, id, version, open);
    assert forall j :: j in open ==> NextJob(s, j, id, version);
  }

  lemma DecidedWithout(s: Room, plan: Plan, key: Uuid, owner: Uuid, due: bool)
    requires Claimable(s) && key !in s.works
    requires var id := s.active.value;
      WorkFor(s, id, BaseVersion(s, id, SummaryAt(s, id, s.tables.timelines[id].durable, MAX_DEPTH))).None?
    ensures var t := Decided(s, plan, key, owner, due);
      && (plan.TooFew? || plan.Broken? ==> t == s)
      && (plan.Carry? ==> t == s.(summaries := s.summaries[plan.summary.timeline := Rows(s, plan.summary.timeline) + [plan.summary]]))
      && (plan.Job? ==> key in t.works && t.works[key] == plan.work.(status := Running, owner := owner, revision := s.revision)
                        && t == s.(works := s.works[key := t.works[key]]))
  {
  }

  /**
   Without such a job, the shortest beginning of the records after the last summary that holds enough actions,
   or a full page, becomes a job with exactly its text, or is carried over when it has none.
   */
  lemma ClaimSchedules(s: Room, trigger: nat, key: Uuid, owner: Uuid, due: bool, n: nat)
    requires Inv(s) && trigger > 0 && key !in s.works && s.ready && s.active.Some?
    requires s.active.value in s.tables.timelines && H.Seen(s.tables, s.active.value, s.tables.timelines[s.active.value].durable, MAX_DEPTH)
    requires forall k :: !NextJob(s, k, s.active.value, Last(s, s.active.value).version)
    requires JobSize(PageAfter(s, s.active.value).0, trigger, n)
    ensures var id, t := s.active.value, Summaries.ClaimSummary(s, trigger, key, owner, due);
            var last, (page, more) := Last(s, id), PageAfter(s, id);
      if FailsWithin(page, n) || (ActionsAmong(page, n) < trigger && !more) then t == s
      else if Silent(page, n) then
        n > 0 && t == s.(summaries := s.summaries[id := Rows(s, id) + [
          Summary(id, last.version + 1, page[n - 1].position, last.content, last.covered + page[..n])]])
      else
        key in t.works && t == s.(works := s.works[key := t.works[key]])
        && LeasedJob(t.works[key], id, s.revision, last, page[..n], owner)
  {
    var id := s.active.value;
    ClaimDecides(s, trigger, key, owner, due);
    var last, page, more := Last(s, id), PageAfter(s, id).0, PageAfter(s, id).1;
    NothingFound(s, id, last.version);
    DecidedWithout(s, PlanOf(id, s.revision, last.version, last, page, more, trigger), key, owner, due);
    PlanMeans(id, s.revision, last, page, more, trigger, n, owner);
  }

  /** At most one job is scheduled per branch and version, so a query finds the one there is. */
  lemma FoundIsOpen(s: Room, id: Uuid, version: nat, open: set<Uuid>)
    requires UniqueWorks(s) && open == set k | k in s.works && s.works[k].timeline == id && s.works[k].expected == version
    ensures open == {} ==> WorkFor(s, id, version).None?
    ensures forall k :: k in open ==> WorkFor(s, id, version) == Some(k)
  {
    forall k | k in open ensures WorkFor(s, id, version) == Some(k) {
      assert IsWork(s, k, id, version);
    }
    if WorkFor(s, id, version).Some? {
      assert WorkFor(s, id, version).value in open;
    }
  }
}
