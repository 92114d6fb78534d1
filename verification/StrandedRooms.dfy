/**
 Two rooms, each reached from an empty one by a list of steps, whose committed record can never be archived:
 one whose load was given up, and one whose player sent a request id again after a load.
 */
module StrandedRooms {
  import opened MemoryModel
  import opened Ledger
  import H = History
  import opened Journal
  import opened Runtime
  import opened Protocol
  import opened ProtocolInvariant
  import opened ProtocolTheorems
  import opened Stranding

  const NOTHING: Payload := Payload([], "", "", [])
  const OPENING: Record := Record(1, 1, 1, Opening, None, OpeningRequests, 1, 11, 3, 0, 0, 0, 0, NOTHING)
  const FIRST: Record := Record(2, 1, 2, Action, Some(5), ClientRequests, 7, 11, 3, 0, 1, 0, 0, NOTHING)
  /** Committed while the load is only prepared in MySQL. */
  const LATE: Record := Record(4, 1, 3, Action, Some(5), ClientRequests, 8, 11, 3, 1, 2, 0, 0, NOTHING)
  /** The first action on the loaded branch, under the request id of FIRST. */
  const SECOND: Record := Record(3, 2, 2, Action, Some(5), ClientRequests, 7, 44, 6, 0, 1, 0, 0, NOTHING)

  const START: Operation := Operation(StartOp, None, 0, Some(1), None, 0, Image(0, 3, 11, 0, 0, Some(OPENING), 0, 5, true), PreparedPhase)
  const ROOT: Timeline := Timeline(None, 0, 0, None, true, Prepared)
  const LOAD: Operation := Operation(LoadOp, Some(1), 11, Some(2), Some(1), 0, Image(3, 6, 22, 1, 0, None, 0, 5, true), PreparedPhase)
  const BRANCH: Timeline := Timeline(Some(1), 1, 1, Some(1), true, Prepared)
  const SAVE: SavePoint := SavePoint(Some(1), Some(1), 0)

  // ---------------------------------------------------------------- the runs

  /** A room is started, plays its first action, saves its opening and prepares to load it. */
  const STARTING: seq<Step> := [PrepareIntent(1, START, Some(ROOT)), InitializeStart(1), ApplyImage(1, 0, false), RecordApplied(1)]
  const COMPLETING: seq<Step> := [InspectControl(1), CompleteIntent(1), FinishControl(1), ClaimOutbox(1)]
  const PLAYING: seq<Step> := [ArchiveClaimed(1, false), ReclaimOutbox(1), AcknowledgeStored(1, false), CommitAction(FIRST, false)]
  const ARCHIVING: seq<Step> := [ClaimOutbox(2), ArchiveClaimed(2, false), ReclaimOutbox(2), AcknowledgeStored(2, false)]
  const LOADING: seq<Step> := [AddSave(1, SAVE), PrepareIntent(2, LOAD, Some(BRANCH))]

  /** An action is still admitted, a pause takes the generation away, the fence is refused and the load given up. */
  const GIVING_UP: seq<Step> := [CommitAction(LATE, false), PausePlay(55), FenceRoom(2, 33, true), BlockIntent(2)]

  /** The load runs through, play goes on and the request id comes again. */
  const FENCING: seq<Step> := [FenceRoom(2, 33, false), ApplyImage(2, 33, false), RecordApplied(2), InspectControl(2)]
  const REPEATING: seq<Step> := [CompleteIntent(2), FinishControl(2), ResumePlay(44), CommitAction(SECOND, false)]

  const GIVEN_UP_RUN: seq<Step> := STARTING + COMPLETING + PLAYING + ARCHIVING + LOADING + GIVING_UP
  const REPEATED_RUN: seq<Step> := STARTING + COMPLETING + PLAYING + ARCHIVING + LOADING + FENCING + REPEATING

  // ---------------------------------------------------------------- running a list

  lemma {:induction false} RunConcat(s: System, a: seq<Step>, b: seq<Step>)
    ensures Run(s, a + b) == Run(Run(s, a), b)
    decreases |a|
  {
    if a == [] {
      assert a + b == b;
    } else {
      assert (a + b)[1..] == a[1..] + b;
      RunConcat(Next(s, a[0]), a[1..], b);
    }
  }

  lemma RunTwo(s: System, a: Step, b: Step)
    ensures Run(s, [a, b]) == Next(Next(s, a), b)
  {
    assert [a, b] == [] + [a] + [b];
    RunAppend(s, [] + [a], b);
    RunAppend(s, [], a);
  }

  lemma RunFour(s: System, a: Step, b: Step, c: Step, d: Step)
    ensures Run(s, [a, b, c, d]) == Next(Next(Next(Next(s, a), b), c), d)
  {
    assert [a, b, c, d] == [a, b] + [c, d];
    RunConcat(s, [a, b], [c, d]);
    RunTwo(s, a, b);
    RunTwo(Next(Next(s, a), b), c, d);
  }

  function Keys(meta: Option<Meta>, pending: Option<Outbox>, lease: Option<Lease>, control: Option<Control>,
                receipts: map<Uuid, Image>, play: Option<Play>): Redis {
    Redis(meta, pending, lease, pending.Some?, control, receipts, play, {})
  }

  const LEDGER_NEW: Tables := Tables(map[1 := ROOT], map[])
  const LEDGER_STARTED: Tables := Tables(map[1 := ROOT.(status := Active)], map[])
  const LEDGER_OF_ONE: Tables := Tables(map[1 := ROOT.(status := Active, durable := 1)], map[(1, 1) := OPENING])
  const LEDGER_OF_TWO: Tables :=
    Tables(map[1 := ROOT.(status := Active, durable := 2)], map[(1, 1) := OPENING, (1, 2) := FIRST])
  const LEDGER_FORKED: Tables :=
    Tables(map[1 := ROOT.(status := Active, durable := 2), 2 := BRANCH], map[(1, 1) := OPENING, (1, 2) := FIRST])
  const LEDGER_LOADED: Tables :=
    Tables(map[1 := ROOT.(status := Active, durable := 2), 2 := BRANCH.(status := Active)], map[(1, 1) := OPENING, (1, 2) := FIRST])

  const READY_ON_ROOT: Option<StateRow> := Some(StateRow(Some(1), ReadyState, 3, None))
  const START_DONE: map<Uuid, Operation> := map[1 := START.(phase := Completed)]
  const START_FINISHED: Option<Control> := Some(Control(1, START.image, Finished))
  const START_RECEIPT: map<Uuid, Image> := map[1 := START.image]
  const BOTH_RECEIPTS: map<Uuid, Image> := map[1 := START.image, 2 := LOAD.image]

  function LoadAt(phase: Phase): map<Uuid, Operation> {
    map[1 := START.(phase := Completed), 2 := LOAD.(phase := phase)]
  }

  // ---------------------------------------------------------------- start

  const PREPARED: System := System(
    Store(LEDGER_NEW, Some(StateRow(None, Initializing, 1, Some(1))), map[1 := START], map[]),
    NO_KEYS,
    map[1 := []], map[], Learned({}, {}, {}))

  const INITIALIZED: System := System(
    Store(LEDGER_NEW, Some(StateRow(None, Initializing, 1, Some(1))), map[1 := START], map[]),
    Keys(Some(Meta(1, 0, 0, 3, Recovering, Some(1), None)), None, None,
         Some(Control(1, START.image, Fenced)), map[], Some(Play(Provisional, 11, 0))),
    map[1 := []], map[], Learned({}, {}, {}))

  const INSTALLED: System := System(
    Store(LEDGER_NEW, Some(StateRow(None, Initializing, 1, Some(1))), map[1 := START], map[]),
    Keys(Some(Meta(1, 0, 0, 3, Recovering, Some(1), None)), None, None,
         Some(Control(1, START.image, Applied)), map[], Some(Play(Playing, 11, 0))),
    map[1 := []], map[], Learned({1}, {}, {}))

  const RECORDED: System := System(
    Store(LEDGER_NEW, Some(StateRow(None, Initializing, 2, Some(1))), map[1 := START.(phase := RedisApplied)], map[]),
    Keys(Some(Meta(1, 0, 0, 3, Recovering, Some(1), None)), None, None,
         Some(Control(1, START.image, Applied)), map[], Some(Play(Playing, 11, 0))),
    map[1 := []], map[], Learned({1}, {}, {}))

  lemma PreparesStart()
    ensures Next(INITIAL, PrepareIntent(1, START, Some(ROOT))) == PREPARED
  {
  }

  lemma Initializes()
    ensures Next(PREPARED, InitializeStart(1)) == INITIALIZED
  {
  }

  lemma InstallsStart()
    ensures Next(INITIALIZED, ApplyImage(1, 0, false)) == INSTALLED
  {
  }

  lemma RecordsStart()
    ensures Next(INSTALLED, RecordApplied(1)) == RECORDED
  {
  }

  lemma Starting()
    ensures Run(INITIAL, STARTING) == RECORDED
  {
    RunFour(INITIAL, PrepareIntent(1, START, Some(ROOT)), InitializeStart(1), ApplyImage(1, 0, false), RecordApplied(1));
    PreparesStart();
    Initializes();
    InstallsStart();
    RecordsStart();
  }

  const INSPECTED: System := System(
    Store(LEDGER_NEW, Some(StateRow(None, Initializing, 2, Some(1))), map[1 := START.(phase := RedisApplied)], map[]),
    Keys(Some(Meta(1, 0, 0, 3, Recovering, Some(1), None)), None, None,
         Some(Control(1, START.image, Applied)), map[], Some(Play(Playing, 11, 0))),
    map[1 := []], map[], Learned({1}, {1}, {}))

  const STARTED: System := System(
    Store(LEDGER_STARTED, READY_ON_ROOT, START_DONE, map[]),
    Keys(Some(Meta(1, 0, 0, 3, Recovering, Some(1), None)), None, None,
         Some(Control(1, START.image, Applied)), map[], Some(Play(Playing, 11, 0))),
    map[1 := []], map[], Learned({1}, {1}, {}))

  const OPENED: System := System(
    Store(LEDGER_STARTED, READY_ON_ROOT, START_DONE, map[]),
    Keys(Some(Meta(1, 1, 0, 3, Pending, None, None)), Some(Outbox(OPENING, 0, false)), None,
         START_FINISHED, START_RECEIPT, Some(Play(Playing, 11, 0))),
    map[1 := [OPENING]], map[], Learned({1}, {1}, {}))

  const OPENING_HELD: System := System(
    Store(LEDGER_STARTED, READY_ON_ROOT, START_DONE, map[]),
    Keys(Some(Meta(1, 1, 0, 3, Pending, None, None)), Some(Outbox(OPENING, 0, false)), Some(Lease(1, OPENING)),
         START_FINISHED, START_RECEIPT, Some(Play(Playing, 11, 0))),
    map[1 := [OPENING]], map[1 := Holding(OPENING)], Learned({1}, {1}, {}))

  lemma InspectsStart()
    ensures Next(RECORDED, InspectControl(1)) == INSPECTED
  {
  }

  lemma CompletesStart()
    ensures Next(INSPECTED, CompleteIntent(1)) == STARTED
  {
  }

  lemma FinishesStart()
    ensures Next(STARTED, FinishControl(1)) == OPENED
  {
    assert [] + [OPENING] == [OPENING];
  }

  lemma ClaimsOpening()
    ensures Next(OPENED, ClaimOutbox(1)) == OPENING_HELD
  {
  }

  lemma Completing()
    ensures Run(RECORDED, COMPLETING) == OPENING_HELD
  {
    RunFour(RECORDED, InspectControl(1), CompleteIntent(1), FinishControl(1), ClaimOutbox(1));
    InspectsStart();
    CompletesStart();
    FinishesStart();
    ClaimsOpening();
  }

  // ---------------------------------------------------------------- play

  const OPENING_STORED: System := System(
    Store(LEDGER_OF_ONE, READY_ON_ROOT, START_DONE, map[]),
    Keys(Some(Meta(1, 1, 0, 3, Pending, None, None)), Some(Outbox(OPENING, 0, false)), Some(Lease(1, OPENING)),
         START_FINISHED, START_RECEIPT, Some(Play(Playing, 11, 0))),
    map[1 := [OPENING]], map[1 := Stored(OPENING)], Learned({1}, {1}, {}))

  const OPENING_CONFIRMED: System := System(
    Store(LEDGER_OF_ONE, READY_ON_ROOT, START_DONE, map[]),
    Keys(Some(Meta(1, 1, 0, 3, Pending, None, None)), Some(Outbox(OPENING, 0, false)), Some(Lease(1, OPENING)),
         START_FINISHED, START_RECEIPT, Some(Play(Playing, 11, 0))),
    map[1 := [OPENING]], map[1 := Confirmed(OPENING)], Learned({1}, {1}, {}))

  const OPEN_GATE: System := System(
    Store(LEDGER_OF_ONE, READY_ON_ROOT, START_DONE, map[]),
    Keys(Some(Meta(1, 1, 1, 3, Ready, None, Some(Lease(1, OPENING)))), None, None,
         START_FINISHED, START_RECEIPT, Some(Play(Playing, 11, 0))),
    map[1 := [OPENING]], map[], Learned({1}, {1}, {}))

  const PLAYED: System := System(
    Store(LEDGER_OF_ONE, READY_ON_ROOT, START_DONE, map[]),
    Keys(Some(Meta(1, 2, 1, 3, Pending, None, Some(Lease(1, OPENING)))), Some(Outbox(FIRST, 0, false)), None,
         START_FINISHED, START_RECEIPT, Some(Play(Playing, 11, 1))),
    map[1 := [OPENING, FIRST]], map[], Learned({1}, {1}, {}))

  lemma ArchivesOpening()
    ensures Next(OPENING_HELD, ArchiveClaimed(1, false)) == OPENING_STORED
  {
  }

  lemma ReclaimsOpening()
    ensures Next(OPENING_STORED, ReclaimOutbox(1)) == OPENING_CONFIRMED
  {
  }

  lemma AcknowledgesOpening()
    ensures Next(OPENING_CONFIRMED, AcknowledgeStored(1, false)) == OPEN_GATE
  {
  }

  lemma CommitsFirst()
    ensures Next(OPEN_GATE, CommitAction(FIRST, false)) == PLAYED
  {
    assert [OPENING] + [FIRST] == [OPENING, FIRST];
  }

  lemma FirstAction()
    ensures Run(OPENING_HELD, PLAYING) == PLAYED
  {
    RunFour(OPENING_HELD, ArchiveClaimed(1, false), ReclaimOutbox(1), AcknowledgeStored(1, false), CommitAction(FIRST, false));
    ArchivesOpening();
    ReclaimsOpening();
    AcknowledgesOpening();
    CommitsFirst();
  }

  const FIRST_HELD: System := System(
    Store(LEDGER_OF_ONE, READY_ON_ROOT, START_DONE, map[]),
    Keys(Some(Meta(1, 2, 1, 3, Pending, None, Some(Lease(1, OPENING)))), Some(Outbox(FIRST, 0, false)), Some(Lease(2, FIRST)),
         START_FINISHED, START_RECEIPT, Some(Play(Playing, 11, 1))),
    map[1 := [OPENING, FIRST]], map[2 := Holding(FIRST)], Learned({1}, {1}, {}))

  const FIRST_STORED: System := System(
    Store(LEDGER_OF_TWO, READY_ON_ROOT, START_DONE, map[]),
    Keys(Some(Meta(1, 2, 1, 3, Pending, None, Some(Lease(1, OPENING)))), Some(Outbox(FIRST, 0, false)), Some(Lease(2, FIRST)),
         START_FINISHED, START_RECEIPT, Some(Play(Playing, 11, 1))),
    map[1 := [OPENING, FIRST]], map[2 := Stored(FIRST)], Learned({1}, {1}, {}))

  const FIRST_CONFIRMED: System := System(
    Store(LEDGER_OF_TWO, READY_ON_ROOT, START_DONE, map[]),
    Keys(Some(Meta(1, 2, 1, 3, Pending, None, Some(Lease(1, OPENING)))), Some(Outbox(FIRST, 0, false)), Some(Lease(2, FIRST)),
         START_FINISHED, START_RECEIPT, Some(Play(Playing, 11, 1))),
    map[1 := [OPENING, FIRST]], map[2 := Confirmed(FIRST)], Learned({1}, {1}, {}))

  const ARCHIVED: System := System(
    Store(LEDGER_OF_TWO, READY_ON_ROOT, START_DONE, map[]),
    Keys(Some(Meta(1, 2, 2, 3, Ready, None, Some(Lease(2, FIRST)))), None, None,
         START_FINISHED, START_RECEIPT, Some(Play(Playing, 11, 1))),
    map[1 := [OPENING, FIRST]], map[], Learned({1}, {1}, {}))

  lemma ClaimsFirst()
    ensures Next(PLAYED, ClaimOutbox(2)) == FIRST_HELD
  {
  }

  lemma ArchivesFirst()
    ensures Next(FIRST_HELD, ArchiveClaimed(2, false)) == FIRST_STORED
  {
  }

  lemma ReclaimsFirst()
    ensures Next(FIRST_STORED, ReclaimOutbox(2)) == FIRST_CONFIRMED
  {
  }

  lemma AcknowledgesFirst()
    ensures Next(FIRST_CONFIRMED, AcknowledgeStored(2, false)) == ARCHIVED
  {
  }

  lemma FirstIsArchived()
    ensures Run(PLAYED, ARCHIVING) == ARCHIVED
  {
    RunFour(PLAYED, ClaimOutbox(2), ArchiveClaimed(2, false), ReclaimOutbox(2), AcknowledgeStored(2, false));
    ClaimsFirst();
    ArchivesFirst();
    ReclaimsFirst();
    AcknowledgesFirst();
  }

  const SAVED: System := System(
    Store(LEDGER_OF_TWO, READY_ON_ROOT, START_DONE, map[1 := SAVE]),
    Keys(Some(Meta(1, 2, 2, 3, Ready, None, Some(Lease(2, FIRST)))), None, None,
         START_FINISHED, START_RECEIPT, Some(Play(Playing, 11, 1))),
    map[1 := [OPENING, FIRST]], map[], Learned({1}, {1}, {}))

  const LOAD_PREPARED: System := System(
    Store(LEDGER_FORKED, Some(StateRow(Some(1), RecoveringState, 4, Some(2))), LoadAt(PreparedPhase), map[1 := SAVE]),
    Keys(Some(Meta(1, 2, 2, 3, Ready, None, Some(Lease(2, FIRST)))), None, None,
         START_FINISHED, START_RECEIPT, Some(Play(Playing, 11, 1))),
    map[1 := [OPENING, FIRST], 2 := []], map[], Learned({1}, {1}, {}))

  lemma SavesOpening()
    ensures Next(ARCHIVED, AddSave(1, SAVE)) == SAVED
  {
  }

  lemma PreparesLoad()
    ensures Next(SAVED, PrepareIntent(2, LOAD, Some(BRANCH))) == LOAD_PREPARED
  {
  }

  lemma Loading()
    ensures Run(ARCHIVED, LOADING) == LOAD_PREPARED
  {
    RunTwo(ARCHIVED, AddSave(1, SAVE), PrepareIntent(2, LOAD, Some(BRANCH)));
    SavesOpening();
    PreparesLoad();
  }

  // ---------------------------------------------------------------- a load that was given up

  const LATE_COMMITTED: System := System(
    Store(LEDGER_FORKED, Some(StateRow(Some(1), RecoveringState, 4, Some(2))), LoadAt(PreparedPhase), map[1 := SAVE]),
    Keys(Some(Meta(1, 3, 2, 3, Pending, None, Some(Lease(2, FIRST)))), Some(Outbox(LATE, 0, false)), None,
         START_FINISHED, START_RECEIPT, Some(Play(Playing, 11, 2))),
    map[1 := [OPENING, FIRST, LATE], 2 := []], map[], Learned({1}, {1}, {}))

  const PAUSED: System := System(
    Store(LEDGER_FORKED, Some(StateRow(Some(1), RecoveringState, 4, Some(2))), LoadAt(PreparedPhase), map[1 := SAVE]),
    Keys(Some(Meta(1, 3, 2, 3, Pending, None, Some(Lease(2, FIRST)))), Some(Outbox(LATE, 0, false)), None,
         START_FINISHED, START_RECEIPT, Some(Play(Paused, 55, 2))),
    map[1 := [OPENING, FIRST, LATE], 2 := []], map[], Learned({1}, {1}, {}))

  const GIVEN_UP: System := System(
    Store(LEDGER_FORKED, Some(StateRow(Some(1), BlockedState, 5, Some(2))), LoadAt(BlockedPhase), map[1 := SAVE]),
    Keys(Some(Meta(1, 3, 2, 3, Pending, None, Some(Lease(2, FIRST)))), Some(Outbox(LATE, 0, false)), None,
         START_FINISHED, START_RECEIPT, Some(Play(Paused, 55, 2))),
    map[1 := [OPENING, FIRST, LATE], 2 := []], map[], Learned({1}, {1}, {}))

  lemma CommitsLate()
    ensures Next(LOAD_PREPARED, CommitAction(LATE, false)) == LATE_COMMITTED
  {
    assert [OPENING, FIRST] + [LATE] == [OPENING, FIRST, LATE];
  }

  lemma Pauses()
    ensures Next(LATE_COMMITTED, PausePlay(55)) == PAUSED
  {
  }

  lemma FenceIsRefused()
    ensures Next(PAUSED, FenceRoom(2, 33, true)) == PAUSED
  {
  }

  lemma GivesUp()
    ensures Next(PAUSED, BlockIntent(2)) == GIVEN_UP
  {
  }

  lemma GivingUp()
    ensures Run(LOAD_PREPARED, GIVING_UP) == GIVEN_UP
  {
    RunFour(LOAD_PREPARED, CommitAction(LATE, false), PausePlay(55), FenceRoom(2, 33, true), BlockIntent(2));
    CommitsLate();
    Pauses();
    FenceIsRefused();
    GivesUp();
  }

  // ---------------------------------------------------------------- a request id that came again

  const FENCED: System := System(
    Store(LEDGER_FORKED, Some(StateRow(Some(1), RecoveringState, 4, Some(2))), LoadAt(PreparedPhase), map[1 := SAVE]),
    Keys(Some(Meta(1, 2, 2, 3, Recovering, Some(2), Some(Lease(2, FIRST)))), None, None,
         Some(Control(2, LOAD.image, Fenced)), START_RECEIPT, Some(Play(Paused, 33, 1))),
    map[1 := [OPENING, FIRST], 2 := []], map[], Learned({1}, {1}, {}))

  const LOADED: System := System(
    Store(LEDGER_FORKED, Some(StateRow(Some(1), RecoveringState, 4, Some(2))), LoadAt(PreparedPhase), map[1 := SAVE]),
    Keys(Some(Meta(2, 1, 1, 6, Recovering, Some(2), Some(Lease(2, FIRST)))), None, None,
         Some(Control(2, LOAD.image, Applied)), START_RECEIPT, Some(Play(Paused, 22, 0))),
    map[1 := [OPENING, FIRST], 2 := []], map[], Learned({1, 2}, {1}, {}))

  const LOAD_RECORDED: System := System(
    Store(LEDGER_FORKED, Some(StateRow(Some(1), RecoveringState, 5, Some(2))), LoadAt(RedisApplied), map[1 := SAVE]),
    Keys(Some(Meta(2, 1, 1, 6, Recovering, Some(2), Some(Lease(2, FIRST)))), None, None,
         Some(Control(2, LOAD.image, Applied)), START_RECEIPT, Some(Play(Paused, 22, 0))),
    map[1 := [OPENING, FIRST], 2 := []], map[], Learned({1, 2}, {1}, {}))

  const LOAD_INSPECTED: System := System(
    Store(LEDGER_FORKED, Some(StateRow(Some(1), RecoveringState, 5, Some(2))), LoadAt(RedisApplied), map[1 := SAVE]),
    Keys(Some(Meta(2, 1, 1, 6, Recovering, Some(2), Some(Lease(2, FIRST)))), None, None,
         Some(Control(2, LOAD.image, Applied)), START_RECEIPT, Some(Play(Paused, 22, 0))),
    map[1 := [OPENING, FIRST], 2 := []], map[], Learned({1, 2}, {1, 2}, {}))

  lemma Fences()
    ensures Next(LOAD_PREPARED, FenceRoom(2, 33, false)) == FENCED
  {
  }

  lemma InstallsLoad()
    ensures Next(FENCED, ApplyImage(2, 33, false)) == LOADED
  {
  }

  lemma RecordsLoad()
    ensures Next(LOADED, RecordApplied(2)) == LOAD_RECORDED
  {
  }

  lemma InspectsLoad()
    ensures Next(LOAD_RECORDED, InspectControl(2)) == LOAD_INSPECTED
  {
  }

  lemma Fencing()
    ensures Run(LOAD_PREPARED, FENCING) == LOAD_INSPECTED
  {
    RunFour(LOAD_PREPARED, FenceRoom(2, 33, false), ApplyImage(2, 33, false), RecordApplied(2), InspectControl(2));
    Fences();
    InstallsLoad();
    RecordsLoad();
    InspectsLoad();
  }

  const ON_BRANCH: System := System(
    Store(LEDGER_LOADED, Some(StateRow(Some(2), ReadyState, 6, None)), LoadAt(Completed), map[1 := SAVE]),
    Keys(Some(Meta(2, 1, 1, 6, Recovering, Some(2), Some(Lease(2, FIRST)))), None, None,
         Some(Control(2, LOAD.image, Applied)), START_RECEIPT, Some(Play(Paused, 22, 0))),
    map[1 := [OPENING, FIRST], 2 := []], map[], Learned({1, 2}, {1, 2}, {}))

  const LOAD_FINISHED: System := System(
    Store(LEDGER_LOADED, Some(StateRow(Some(2), ReadyState, 6, None)), LoadAt(Completed), map[1 := SAVE]),
    Keys(Some(Meta(2, 1, 1, 6, Ready, None, Some(Lease(2, FIRST)))), None, None,
         Some(Control(2, LOAD.image, Finished)), BOTH_RECEIPTS, Some(Play(Paused, 22, 0))),
    map[1 := [OPENING, FIRST], 2 := []], map[], Learned({1, 2}, {1, 2}, {}))

  const RESUMED: System := System(
    Store(LEDGER_LOADED, Some(StateRow(Some(2), ReadyState, 6, None)), LoadAt(Completed), map[1 := SAVE]),
    Keys(Some(Meta(2, 1, 1, 6, Ready, None, Some(Lease(2, FIRST)))), None, None,
         Some(Control(2, LOAD.image, Finished)), BOTH_RECEIPTS, Some(Play(Playing, 44, 0))),
    map[1 := [OPENING, FIRST], 2 := []], map[], Learned({1, 2}, {1, 2}, {}))

  const REPEATED: System := System(
    Store(LEDGER_LOADED, Some(StateRow(Some(2), ReadyState, 6, None)), LoadAt(Completed), map[1 := SAVE]),
    Keys(Some(Meta(2, 2, 1, 6, Pending, None, Some(Lease(2, FIRST)))), Some(Outbox(SECOND, 0, false)), None,
         Some(Control(2, LOAD.image, Finished)), BOTH_RECEIPTS, Some(Play(Playing, 44, 1))),
    map[1 := [OPENING, FIRST], 2 := [SECOND]], map[], Learned({1, 2}, {1, 2}, {}))

  lemma CompletesLoad()
    ensures Next(LOAD_INSPECTED, CompleteIntent(2)) == ON_BRANCH
  {
  }

  lemma FinishesLoad()
    ensures Next(ON_BRANCH, FinishControl(2)) == LOAD_FINISHED
  {
  }

  lemma Resumes()
    ensures Next(LOAD_FINISHED, ResumePlay(44)) == RESUMED
  {
  }

  lemma CommitsAgain()
    ensures Next(RESUMED, CommitAction(SECOND, false)) == REPEATED
  {
    assert [] + [SECOND] == [SECOND];
  }

  lemma Repeating()
    ensures Run(LOAD_INSPECTED, REPEATING) == REPEATED
  {
    RunFour(LOAD_INSPECTED, CompleteIntent(2), FinishControl(2), ResumePlay(44), CommitAction(SECOND, false));
    CompletesLoad();
    FinishesLoad();
    Resumes();
    CommitsAgain();
  }

  // ---------------------------------------------------------------- the two rooms

  lemma LoadIsPrepared()
    ensures Run(INITIAL, STARTING + COMPLETING + PLAYING + ARCHIVING + LOADING) == LOAD_PREPARED
  {
    RunConcat(INITIAL, STARTING, COMPLETING);
    RunConcat(INITIAL, STARTING + COMPLETING, PLAYING);
    RunConcat(INITIAL, STARTING + COMPLETING + PLAYING, ARCHIVING);
    RunConcat(INITIAL, STARTING + COMPLETING + PLAYING + ARCHIVING, LOADING);
    Starting();
    Completing();
    FirstAction();
    FirstIsArchived();
    Loading();
  }

  /** A record with an identity of its own, committed before the fence, is stranded when the load is given up. */
  lemma GivenUpLoadStrands()
    ensures var s := Run(INITIAL, GIVEN_UP_RUN);
      && Stranded(s, LATE) && CapabilityBlocked(s.store) && H.Unused(s.store.tables, LATE)
      && MayClaim(s, 3) && ClosedOver(s, Worked(s, 3))
  {
    var setup := STARTING + COMPLETING + PLAYING + ARCHIVING + LOADING;
    LoadIsPrepared();
    RunConcat(INITIAL, setup, GIVING_UP);
    GivingUp();
    Reachable(GIVEN_UP_RUN);
    PassDrainsIff(GIVEN_UP, 3);
  }

  /** A request id sent again after a load strands its record although the room is ready. */
  lemma RepeatedRequestStrands()
    ensures var s := Run(INITIAL, REPEATED_RUN);
      && Stranded(s, SECOND) && !CapabilityBlocked(s.store) && s.store.state.Some? && s.store.state.value.status.ReadyState?
      && MayClaim(s, 3) && ClosedOver(s, Worked(s, 3))
  {
    var setup := STARTING + COMPLETING + PLAYING + ARCHIVING + LOADING;
    LoadIsPrepared();
    RunConcat(INITIAL, setup, FENCING);
    RunConcat(INITIAL, setup + FENCING, REPEATING);
    Fencing();
    Repeating();
    Reachable(REPEATED_RUN);
    assert H.SameIdentity(REPEATED.store.tables.records[(1, 2)], SECOND);
    PassDrainsIff(REPEATED, 3);
  }
}
