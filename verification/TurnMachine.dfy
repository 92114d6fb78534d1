/**
 The turn of a multiplayer room: a deadline while nobody acts, an action lease while somebody does,
 and one entry in the timer queue that will move the game on in either case.  Each function is one script.
 */
module TurnMachine {
  import opened MemoryModel
  import R = Runtime

  const RECOVERY_MS: nat := 300000

  datatype Status = Provisional | Playing | Paused | Ended

  datatype ActionLease = ActionLease(generation: Uuid, turn: nat, user: nat, request: Uuid, fingerprint: nat, claimedAt: nat)

  /** A start or load in progress; `installed` is the generation and turn its image has been installed with. */
  datatype Control = Control(starts: bool, installed: Option<(Uuid, nat)>)

  /** The archive metadata as far as turns are concerned; `pending` names the committed record's generation and turn. */
  datatype Gate = Gate(timeline: Uuid, head: nat, revision: nat, state: R.ArchiveState, control: Option<Control>,
                       pending: Option<(Uuid, nat)>)

  /** What a commit or a skip brings for the archive, beyond what its request says; `commit` is its id and payload hash. */
  datatype Fact = Fact(timeline: Uuid, position: nat, revision: nat, actor: nat, rounds: (nat, nat), commit: Uuid)

  /** A cached answer remembers the branch and the commit it was archived with. */
  datatype Answer = Answer(fingerprint: nat, archived: Option<(Uuid, Uuid)>)

  /**
   The runtime keys of one room and its entries in the shared timer queue.  The rest is history: `base` is the
   turn at which the result cache was last empty, `consumed` every slot ever played, `known` every generation
   the room ever had.
   */
  datatype Room = Room(status: Status, generation: Uuid, turn: nat, order: seq<nat>, deadline: Option<nat>,
                       lease: Option<ActionLease>, results: map<Uuid, Answer>, queue: map<(Uuid, nat), nat>,
                       gate: Option<Gate>, base: nat, consumed: set<(Uuid, nat)>, known: set<Uuid>)

  /** Commits are possible as far as the archive is concerned; a room without metadata has no such gate. */
  predicate Open(k: Room) {
    k.gate.Some? ==> k.gate.value.state.Ready? && k.gate.value.control.None? && k.gate.value.pending.None?
  }

  function Actor(k: Room): nat
    requires |k.order| > 0
  {
    k.order[k.turn % |k.order|]
  }

  function Slot(k: Room): (Uuid, nat) {
    (k.generation, k.turn)
  }

  datatype Reply = Success | Replayed(fingerprint: nat) | Refused

  /** What a client sends with every request; `archive` is the record a commit or a skip brings along. */
  datatype Request = Request(generation: Uuid, turn: nat, user: nat, request: Uuid, fingerprint: nat, archive: Option<Fact>)

  function BranchOf(q: Request): Option<Uuid> {
    if q.archive.Some? then Some(q.archive.value.timeline) else None
  }

  /** archive_gate: the caller names the branch being played, and commits, unlike replays, need the gate open. */
  predicate GateAdmits(k: Room, timeline: Option<Uuid>, replay: bool) {
    if k.gate.None? then timeline.None? else timeline == Some(k.gate.value.timeline) && (replay || Open(k))
  }

  /** archive_prepare: the record continues the branch at this very turn. */
  predicate Fits(k: Room, q: Request, actor: nat)
    requires |k.order| > 0
  {
    && GateAdmits(k, BranchOf(q), false)
    && (k.gate.Some? ==>
          var f := q.archive.value;
          && f.position == k.gate.value.head + 1 && f.revision == k.gate.value.revision && f.actor == actor
          && f.rounds == (k.turn / |k.order|, (k.turn + 1) / |k.order|))
  }

  /** A request already answered is answered again from the cache, under its own generation and branch only. */
  function Cached(k: Room, q: Request): Reply
    requires q.request in k.results
  {
    var answer := k.results[q.request];
    if k.gate.Some? && (answer.archived.None? || answer.archived.value.0 != k.gate.value.timeline) then Refused
    else if k.generation == q.generation then Replayed(answer.fingerprint) else Refused
  }

  /** archive_replay: a commit or skip is repeated only with the very record it was archived with. */
  function Repeated(k: Room, q: Request): Reply
    requires q.request in k.results
  {
    if !GateAdmits(k, BranchOf(q), true) then Refused
    else if k.gate.Some? && k.results[q.request].archived != Some((k.gate.value.timeline, q.archive.value.commit)) then Refused
    else if k.generation == q.generation then Replayed(k.results[q.request].fingerprint) else Refused
  }

  predicate CurrentTurn(k: Room, q: Request) {
    k.status.Playing? && k.generation == q.generation && k.turn == q.turn && |k.order| >= 2
  }

  /** `timeline` is the branch the caller expects, if any. */
  function Acquire(k: Room, q: Request, timeline: Option<Uuid>, now: nat): (Room, Reply) {
    if !GateAdmits(k, timeline, true) then (k, Refused)
    else if q.request in k.results then (k, Cached(k, q))
    else if !Open(k) || !CurrentTurn(k, q) || Actor(k) != q.user || k.lease.Some? then (k, Refused)
    else if k.deadline.None? || now > k.deadline.value then (k, Refused)
    else (k.(lease := Some(ActionLease(q.generation, q.turn, q.user, q.request, q.fingerprint, now)), deadline := None,
             queue := k.queue[(q.generation, q.turn) := now + RECOVERY_MS]), Success)
  }

  predicate HoldsAction(k: Room, q: Request) {
    && k.lease.Some?
    && k.lease.value == ActionLease(q.generation, q.turn, q.user, q.request, q.fingerprint, k.lease.value.claimedAt)
  }

  function Release(k: Room, q: Request, deadline: nat): (Room, Reply) {
    if !Open(k) || !k.status.Playing? || k.generation != q.generation || k.turn != q.turn || !HoldsAction(k, q) then (k, Refused)
    else (k.(lease := None, deadline := Some(deadline), queue := k.queue[(q.generation, q.turn) := deadline]), Success)
  }

  function AnswerTo(q: Request): Answer {
    Answer(q.fingerprint, if q.archive.Some? then Some((q.archive.value.timeline, q.archive.value.commit)) else None)
  }

  /** The turn moves on: with an archive the next deadline waits for the acknowledgement. */
  function Advanced(k: Room, q: Request, next: nat): Room {
    var passed := k.queue - {(q.generation, q.turn)};
    k.(turn := k.turn + 1, results := k.results[q.request := AnswerTo(q)],
       deadline := if k.gate.Some? then None else Some(next),
       queue := if k.gate.Some? then passed else passed[(q.generation, q.turn + 1) := next],
       gate := if k.gate.Some? then Some(k.gate.value.(head := k.gate.value.head + 1, state := R.Pending, control := None,
                                                       pending := Some((q.generation, k.turn + 1)))) else None,
       consumed := k.consumed + {(q.generation, q.turn)})
  }

  /** `applies` says that the inventory plan of the action succeeds. */
  function Commit(k: Room, q: Request, next: nat, applies: bool): (Room, Reply) {
    if q.request in k.results then (k, Repeated(k, q))
    else if !CurrentTurn(k, q) || Actor(k) != q.user || !HoldsAction(k, q) || !Fits(k, q, q.user) || !applies then (k, Refused)
    else (Advanced(k, q, next).(lease := None), Success)
  }

  function Forgotten(k: Room, generation: Uuid, turn: nat): Room {
    k.(queue := k.queue - {(generation, turn)})
  }

  /** Skipping by timeout needs the deadline to have passed; skipping by hand needs to be the actor. */
  function Skip(k: Room, q: Request, timeout: bool, now: nat, next: nat): (Room, Reply) {
    if q.request in k.results then (k, Repeated(k, q))
    else if !GateAdmits(k, BranchOf(q), false) then (k, Refused)
    else if !k.status.Playing? || k.generation != q.generation then (Forgotten(k, q.generation, q.turn), Refused)
    else if k.lease.Some? then (k, Refused)
    else if k.turn != q.turn || |k.order| < 2 || k.deadline.None? then (Forgotten(k, q.generation, q.turn), Refused)
    else if (if timeout then now < k.deadline.value else Actor(k) != q.user) then (k, Refused)
    else if !Fits(k, q, Actor(k)) then (k, Refused)
    else (Advanced(k, q, next), Success)
  }

  /** A queue entry that names no current turn may be dropped. */
  function Discard(k: Room, generation: Uuid, turn: nat): Room {
    if k.status.Playing? && k.generation == generation && k.turn == turn then k else Forgotten(k, generation, turn)
  }

  // ---------------------------------------------------------------- life cycle

  function Activate(k: Room, generation: Uuid, deadline: nat): Room {
    if k.gate.Some? || k.generation != generation || !k.status.Provisional? then k
    else k.(status := Playing, deadline := Some(deadline), queue := k.queue[(generation, 0) := deadline])
  }

  /** The emergency pause keeps generation and lease. */
  function EmergencyPause(k: Room, generation: Uuid): Room {
    if k.generation != generation || k.status.Ended? then k
    else k.(status := Paused, deadline := None, queue := k.queue - {(generation, 0)})
  }

  /** Every change of status moves to a fresh generation, so nothing in flight can still be committed. */
  function Transition(k: Room, from: Status, generation: Uuid, to: Status, next: Uuid, deadline: nat, timeline: Option<Uuid>, saving: bool): (Room, bool) {
    if !(from.Playing? || from.Paused?) || to.Provisional? then (k, false)
    else if k.gate.Some? && !to.Paused? && (!GateAdmits(k, timeline, false) || to.Ended? || saving) then (k, false)
    else if k.status != from || k.generation != generation || |k.order| < 2 then (k, false)
    else if to.Playing? then
      if k.lease.Some? then (k, false)
      else (k.(status := Playing, generation := next, known := k.known + {next}, deadline := Some(deadline),
               queue := (k.queue - {(generation, k.turn)})[(next, k.turn) := deadline]), true)
    else (k.(status := to, generation := next, known := k.known + {next}, deadline := None, lease := None,
             queue := k.queue - {(generation, k.turn)}), true)
  }

  /** Restoring a save replaces a paused runtime and empties the result cache; it leaves the lease key alone. */
  function Restore(k: Room, generation: Uuid, next: Uuid, turn: nat, order: seq<nat>): Room {
    if k.gate.Some? || !k.status.Paused? || k.generation != generation || |order| < 2 then k
    else k.(generation := next, known := k.known + {next}, turn := turn, order := order, deadline := None, results := map[],
            queue := k.queue - {(generation, k.turn)}, base := turn)
  }

  // ---------------------------------------------------------------- the archive's share

  /** Acknowledging the pending record opens the gate and, if play goes on where it left off, sets the deadline. */
  function Acknowledge(k: Room, deadline: nat): Room {
    if k.gate.None? || k.gate.value.pending.None? || k.gate.value.state.Blocked? then k
    else
      var g := k.gate.value;
      var resumes := k.status.Playing? && Slot(k) == g.pending.value && g.control.None?;
      if k.status.Playing? && g.control.None? && !resumes then k
      else
        var stored := k.(gate := Some(g.(state := if g.control.None? then R.Ready else R.Recovering, pending := None)));
        if resumes then stored.(deadline := Some(deadline), queue := k.queue[Slot(k) := deadline]) else stored
  }

  function Quarantine(k: Room): Room {
    if k.gate.None? then k else k.(gate := Some(k.gate.value.(state := R.Blocked)))
  }

  /** A load fences the room: paused, generation replaced, timers and lease gone. */
  function Fence(k: Room, fence: Uuid): Room {
    if k.gate.None? || k.gate.value.state.Blocked? || k.gate.value.control.Some? || k.status.Provisional? || k.status.Ended? then k
    else k.(status := Paused, generation := fence, known := k.known + {fence}, deadline := None, lease := None, queue := k.queue - {Slot(k)},
            gate := Some(k.gate.value.(state := R.Recovering, control := Some(Control(false, None)))))
  }

  /** The branch, position and revision of a target image. */
  datatype Target = Target(timeline: Uuid, position: nat, revision: nat)

  /** Installing the target image: a fresh start plays at once, a load or a recovered start waits to be resumed. */
  function Apply(k: Room, next: Uuid, turn: nat, order: seq<nat>, target: Target, recovery: bool): Room {
    if k.gate.None? || k.gate.value.control.None? || k.gate.value.pending.Some? || k.gate.value.state.Blocked? || |order| < 2 then k
    else
      var c := k.gate.value.control.value;
      k.(status := if c.starts && !recovery then Playing else Paused, generation := next, known := k.known + {next}, turn := turn, order := order,
         deadline := None, lease := None, results := map[], queue := k.queue - {Slot(k)}, base := turn,
         gate := Some(k.gate.value.(timeline := target.timeline, head := target.position, revision := target.revision,
                                     control := Some(c.(installed := Some((next, turn)))))))
  }

  /** A start leaves its opening pending at the installed turn; a load opens the gate. */
  function Finish(k: Room): Room {
    if k.gate.None? || k.gate.value.control.None? || k.gate.value.pending.Some? || k.gate.value.state.Blocked? then k
    else if k.gate.value.control.value.installed != Some(Slot(k)) || !(k.status.Playing? || k.status.Paused?) then k
    else if k.gate.value.control.value.starts then k.(gate := Some(k.gate.value.(head := 1, state := R.Pending, control := None, pending := Some(Slot(k)))))
    else k.(gate := Some(k.gate.value.(state := R.Ready, control := None, pending := None)))
  }

  // ---------------------------------------------------------------- runs

  datatype Step =
    | AcquireAction(q: Request, timeline: Option<Uuid>, now: nat)
    | ReleaseAction(q: Request, deadline: nat)
    | CommitAction(q: Request, next: nat, applies: bool)
    | SkipTurn(q: Request, timeout: bool, now: nat, next: nat)
    | DiscardEntry(generation: Uuid, turn: nat)
    | ActivateRoom(generation: Uuid, deadline: nat)
    | PauseRoom(generation: Uuid)
    | TransitionRoom(from: Status, generation: Uuid, to: Status, renewed: Uuid, deadline: nat, timeline: Option<Uuid>, saving: bool)
    | RestoreRoom(generation: Uuid, renewed: Uuid, turn: nat, order: seq<nat>)
    | AcknowledgeRecord(deadline: nat)
    | BlockArchive
    | FenceRoom(renewed: Uuid)
    | ApplyImage(renewed: Uuid, turn: nat, order: seq<nat>, target: Target, recovery: bool)
    | FinishControl

  /** Generations are random identifiers: a new one has never been the room's. */
  predicate Fresh(k: Room, g: Uuid) {
    g !in k.known
  }

  /** A start's image carries the generation it was initialised with, and installing an image again repeats its own. */
  predicate ImageGeneration(k: Room, g: Uuid, turn: nat) {
    || (k.status.Provisional? && g == k.generation)
    || (k.gate.Some? && k.gate.value.control.Some? && k.gate.value.control.value.installed == Some((g, turn)))
  }

  predicate GenerationOk(k: Room, step: Step) {
    match step
    case TransitionRoom(_, _, _, g, _, _, _) => Fresh(k, g)
    case RestoreRoom(_, g, _, _) => Fresh(k, g)
    case FenceRoom(g) => Fresh(k, g)
    case ApplyImage(g, turn, _, _, _) => Fresh(k, g) || ImageGeneration(k, g, turn)
    case _ => true
  }

  function Next(k: Room, step: Step): Room {
    if !GenerationOk(k, step) then k
    else match step
    case AcquireAction(q, timeline, now) => Acquire(k, q, timeline, now).0
    case ReleaseAction(q, deadline) => Release(k, q, deadline).0
    case CommitAction(q, next, applies) => Commit(k, q, next, applies).0
    case SkipTurn(q, timeout, now, next) => Skip(k, q, timeout, now, next).0
    case DiscardEntry(generation, turn) => Discard(k, generation, turn)
    case ActivateRoom(generation, deadline) => Activate(k, generation, deadline)
    case PauseRoom(generation) => EmergencyPause(k, generation)
    case TransitionRoom(from, generation, to, g, deadline, timeline, saving) => Transition(k, from, generation, to, g, deadline, timeline, saving).0
    case RestoreRoom(generation, g, turn, order) => Restore(k, generation, g, turn, order)
    case AcknowledgeRecord(deadline) => Acknowledge(k, deadline)
    case BlockArchive => Quarantine(k)
    case FenceRoom(g) => Fence(k, g)
    case ApplyImage(g, turn, order, target, recovery) => Apply(k, g, turn, order, target, recovery)
    case FinishControl => Finish(k)
  }

  function Run(k: Room, steps: seq<Step>): Room
    decreases |steps|
  {
    if steps == [] then k else Run(Next(k, steps[0]), steps[1..])
  }

  /** A room as its initialize script leaves it; `archive` is the branch and revision of a start operation, if there is one. */
  function Initialized(generation: Uuid, order: seq<nat>, archive: Option<(Uuid, nat)>): Room {
    Room(Provisional, generation, 0, order, None, None, map[], map[],
         if archive.Some? then Some(Gate(archive.value.0, 0, archive.value.1, R.Recovering, Some(Control(true, None)), None)) else None,
         0, {}, {generation})
  }
}
