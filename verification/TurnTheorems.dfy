/**
 No turn is lost, none is played twice, and nothing computed for an earlier runtime gets through.
 */
module TurnTheorems {
  import opened MemoryModel
  import R = Runtime
  import opened TurnMachine

  /** Somebody will move the room on: the deadline and its queue entry, or a lease and its recovery time. */
  predicate Timed(k: Room) {
    && (k.deadline.Some? <==> k.lease.None?)
    && Slot(k) in k.queue
    && k.queue[Slot(k)] == (if k.deadline.Some? then k.deadline.value else k.lease.value.claimedAt + RECOVERY_MS)
    && (k.lease.Some? ==> k.lease.value.generation == k.generation && k.lease.value.turn == k.turn)
  }

  predicate GateOk(k: Room)
    requires k.gate.Some?
  {
    var g := k.gate.value;
    && (g.state.Ready? ==> g.control.None? && g.pending.None?)
    && (g.state.Pending? ==> g.control.None? && g.pending.Some?)
    && (g.state.Recovering? ==> g.control.Some?)
    && (k.status.Playing? && g.pending.Some? && g.control.None? ==> g.pending.value == Slot(k))
    && (g.control.Some? && !g.control.value.starts ==> !k.status.Playing? && !k.status.Provisional?)
    && (g.control.Some? && g.control.value.installed.Some? ==>
          !k.status.Provisional? && NeverPlayed(k, g.control.value.installed.value.0))
  }

  predicate NeverPlayed(k: Room, generation: Uuid) {
    forall slot :: slot in k.consumed ==> slot.0 != generation
  }

  predicate Inv(k: Room) {
    && (k.status.Playing? && Open(k) ==> Timed(k))
    && (k.status.Playing? && !Open(k) && !k.gate.value.state.Blocked? ==> k.deadline.None? && k.lease.None?)
    && (!k.status.Playing? ==> k.deadline.None?)
    && (k.status.Provisional? ==> k.lease.None? && k.turn == 0 && NeverPlayed(k, k.generation))
    && (k.gate.Some? ==> GateOk(k))
    && |k.order| >= 2
    && k.turn == k.base + |k.results|
    && (forall slot :: slot in k.consumed && slot.0 == k.generation ==> slot.1 < k.turn)
    && Remembered(k)
  }

  /** Whatever names a generation names one the room has had. */
  predicate Remembered(k: Room) {
    && k.generation in k.known
    && (forall slot :: slot in k.consumed ==> slot.0 in k.known)
    && (forall slot :: slot in k.queue ==> slot.0 in k.known)
    && (k.gate.Some? && k.gate.value.control.Some? && k.gate.value.control.value.installed.Some? ==>
          k.gate.value.control.value.installed.value.0 in k.known)
  }

  lemma InitializedOk(generation: Uuid, order: seq<nat>, archive: Option<(Uuid, nat)>)
    requires |order| >= 2
    ensures Inv(Initialized(generation, order, archive))
  {
  }

  lemma LeaseKeeps(k: Room, step: Step)
    requires Inv(k) && (step.AcquireAction? || step.ReleaseAction? || step.DiscardEntry?)
    ensures Inv(Next(k, step))
  {
  }

  /** The slot just played is out of the queue, and the new one is in it unless the archive still has to answer. */
  lemma AdvancedTimed(k: Room, q: Request, next: nat)
    requires k.status.Playing? && Open(k) && k.generation == q.generation && k.turn == q.turn
    ensures var n := Advanced(k, q, next).(lease := None);
      && (Open(n) ==> Timed(n)) && (!Open(n) ==> n.deadline.None?) && (n.gate.Some? ==> GateOk(n) && !Open(n))
  {
  }

  lemma AdvancedCounts(k: Room, q: Request, next: nat)
    requires Inv(k) && k.generation == q.generation && k.turn == q.turn && q.request !in k.results
    ensures var n := Advanced(k, q, next);
      n.turn == n.base + |n.results| && (forall slot :: slot in n.consumed && slot.0 == n.generation ==> slot.1 < n.turn)
  {
  }

  lemma AdvancedKeeps(k: Room, q: Request, next: nat)
    requires Inv(k) && k.status.Playing? && Open(k) && k.generation == q.generation && k.turn == q.turn && q.request !in k.results
    ensures Inv(Advanced(k, q, next).(lease := None))
  {
    AdvancedTimed(k, q, next);
    AdvancedCounts(k, q, next);
  }

  lemma CommitKeeps(k: Room, q: Request, next: nat, applies: bool)
    requires Inv(k)
    ensures Inv(Next(k, CommitAction(q, next, applies)))
  {
    if Commit(k, q, next, applies).1.Success? {
      AdvancedKeeps(k, q, next);
    }
  }

  lemma ForgottenKeeps(k: Room, generation: Uuid, turn: nat)
    requires Inv(k) && !(k.status.Playing? && Slot(k) == (generation, turn))
    ensures Inv(Forgotten(k, generation, turn))
  {
  }

  lemma SkipKeeps(k: Room, q: Request, timeout: bool, now: nat, next: nat)
    requires Inv(k)
    ensures Inv(Next(k, SkipTurn(q, timeout, now, next)))
  {
    var (n, reply) := Skip(k, q, timeout, now, next);
    if reply.Success? {
      AdvancedKeeps(k, q, next);
      assert n == Advanced(k, q, next).(lease := None);
    } else if n != k {
      ForgottenKeeps(k, q.generation, q.turn);
    }
  }

  lemma LifeCycleKeeps(k: Room, step: Step)
    requires Inv(k) && (step.ActivateRoom? || step.PauseRoom? || step.TransitionRoom? || step.RestoreRoom?)
    ensures Inv(Next(k, step))
  {
  }

  lemma AcknowledgeKeeps(k: Room, deadline: nat)
    requires Inv(k)
    ensures Inv(Acknowledge(k, deadline))
  {
  }

  lemma FenceKeeps(k: Room, fence: Uuid)
    requires Inv(k) && Fresh(k, fence)
    ensures Inv(Fence(k, fence))
  {
  }

  lemma ApplyKeeps(k: Room, next: Uuid, turn: nat, order: seq<nat>, target: Target, recovery: bool)
    requires Inv(k) && (Fresh(k, next) || ImageGeneration(k, next, turn))
    ensures Inv(Apply(k, next, turn, order, target, recovery))
  {
  }

  lemma FinishKeeps(k: Room)
    requires Inv(k)
    ensures Inv(Finish(k)) && Inv(Quarantine(k))
  {
  }

  lemma ArchiveKeeps(k: Room, step: Step)
    requires Inv(k) && (step.AcknowledgeRecord? || step.BlockArchive? || step.FenceRoom? || step.ApplyImage? || step.FinishControl?)
    ensures Inv(Next(k, step))
  {
    match step
    case AcknowledgeRecord(deadline) => AcknowledgeKeeps(k, deadline);
    case BlockArchive => FinishKeeps(k);
    case FenceRoom(g) => if Fresh(k, g) { FenceKeeps(k, g); }
    case ApplyImage(g, turn, order, target, recovery) => if GenerationOk(k, step) { ApplyKeeps(k, g, turn, order, target, recovery); }
    case FinishControl => FinishKeeps(k);
  }

  lemma NextKeeps(k: Room, step: Step)
    requires Inv(k)
    ensures Inv(Next(k, step))
  {
    if step.AcquireAction? || step.ReleaseAction? || step.DiscardEntry? {
      LeaseKeeps(k, step);
    } else if step.CommitAction? {
      CommitKeeps(k, step.q, step.next, step.applies);
    } else if step.SkipTurn? {
      SkipKeeps(k, step.q, step.timeout, step.now, step.next);
    } else if step.ActivateRoom? || step.PauseRoom? || step.TransitionRoom? || step.RestoreRoom? {
      LifeCycleKeeps(k, step);
    } else {
      ArchiveKeeps(k, step);
    }
  }

  lemma {:induction false} RunKeeps(k: Room, steps: seq<Step>)
    requires Inv(k)
    ensures Inv(Run(k, steps))
    decreases |steps|
  {
    if steps != [] {
      NextKeeps(k, steps[0]);
      RunKeeps(Next(k, steps[0]), steps[1..]);
    }
  }

  // ---------------------------------------------------------------- no turn is lost

  /**
   In every reachable playing room whose archive is ready and uncontrolled, exactly one of deadline and
   action lease is set, and the timer queue holds the entry of the current generation and turn, due at
   the deadline or at claim time plus the recovery timeout.
   */
  lemma NoTurnIsLost(generation: Uuid, order: seq<nat>, archive: Option<(Uuid, nat)>, steps: seq<Step>)
    requires |order| >= 2
    ensures var k := Run(Initialized(generation, order, archive), steps);
      k.status.Playing? && Open(k) ==>
        && (k.deadline.Some? <==> k.lease.None?)
        && (k.generation, k.turn) in k.queue
        && k.queue[(k.generation, k.turn)] == (if k.deadline.Some? then k.deadline.value else k.lease.value.claimedAt + RECOVERY_MS)
  {
    InitializedOk(generation, order, archive);
    RunKeeps(Initialized(generation, order, archive), steps);
  }

  function ReplyOf(k: Room, step: Step): Reply
    requires step.AcquireAction? || step.ReleaseAction? || step.CommitAction? || step.SkipTurn?
  {
    match step
    case AcquireAction(q, timeline, now) => Acquire(k, q, timeline, now).1
    case ReleaseAction(q, deadline) => Release(k, q, deadline).1
    case CommitAction(q, next, applies) => Commit(k, q, next, applies).1
    case SkipTurn(q, timeout, now, next) => Skip(k, q, timeout, now, next).1
  }

  /** Nothing but old queue entries may differ, and the entry of the running turn may not. */
  predicate Untouched(k: Room, n: Room) {
    && n == k.(queue := n.queue)
    && (forall slot :: slot in n.queue ==> slot in k.queue && n.queue[slot] == k.queue[slot])
    && (k.status.Playing? && Open(k) ==> Slot(k) in n.queue && n.queue[Slot(k)] == k.queue[Slot(k)])
  }

  /** A request that does not succeed, replayed, stale, out of turn or in conflict, changes nothing that matters. */
  lemma UnsuccessfulTouchesNothing(k: Room, step: Step)
    requires Inv(k)
    requires step.AcquireAction? || step.ReleaseAction? || step.CommitAction? || step.SkipTurn?
    requires !ReplyOf(k, step).Success?
    ensures Untouched(k, Next(k, step))
  {
    if step.AcquireAction? {
      assert Acquire(k, step.q, step.timeline, step.now).0 == k;
    } else if step.ReleaseAction? {
      assert Release(k, step.q, step.deadline).0 == k;
    } else if step.CommitAction? {
      assert Commit(k, step.q, step.next, step.applies).0 == k;
    } else {
      RefusedSkip(k, step.q, step.timeout, step.now, step.next);
    }
  }

  /** A skip that is refused drops at most the entry it was made for, and never the running turn's. */
  lemma RefusedSkip(k: Room, q: Request, timeout: bool, now: nat, next: nat)
    requires Inv(k) && !Skip(k, q, timeout, now, next).1.Success?
    ensures Untouched(k, Skip(k, q, timeout, now, next).0)
  {
  }

  /** Dropping a queue entry never drops the one that keeps the running turn alive. */
  lemma DiscardTouchesNothing(k: Room, generation: Uuid, turn: nat)
    requires Inv(k)
    ensures Untouched(k, Discard(k, generation, turn))
  {
  }

  /** A request computed under a superseded generation never succeeds and never alters the runtime. */
  lemma SupersededIsFenced(k: Room, step: Step)
    requires Inv(k)
    requires step.AcquireAction? || step.ReleaseAction? || step.CommitAction? || step.SkipTurn?
    requires step.q.generation != k.generation
    ensures !ReplyOf(k, step).Success? && Untouched(k, Next(k, step))
  {
    UnsuccessfulTouchesNothing(k, step);
  }

  // ---------------------------------------------------------------- generations are superseded for good

  /** An operation in progress has installed its image under this generation, and may have to install it again. */
  predicate InHand(k: Room, g: Uuid) {
    k.gate.Some? && k.gate.value.control.Some? && k.gate.value.control.value.installed.Some?
    && k.gate.value.control.value.installed.value.0 == g
  }

  /** The room had the generation once, has another now, and no operation will bring it back. */
  predicate Former(k: Room, g: Uuid) {
    g in k.known && g != k.generation && !InHand(k, g)
  }

  lemma FormerStays(k: Room, step: Step, g: Uuid)
    requires Inv(k) && Former(k, g)
    ensures Former(Next(k, step), g)
  {
    if step.TransitionRoom? || step.RestoreRoom? || step.FenceRoom? || step.ApplyImage? {
      RenewalKeepsFormer(k, step, g);
    } else {
      OthersKeepGeneration(k, step);
    }
  }

  lemma RenewalKeepsFormer(k: Room, step: Step, g: Uuid)
    requires Inv(k) && Former(k, g)
    requires step.TransitionRoom? || step.RestoreRoom? || step.FenceRoom? || step.ApplyImage?
    ensures Former(Next(k, step), g)
  {
  }

  lemma OthersKeepGeneration(k: Room, step: Step)
    requires !step.TransitionRoom? && !step.RestoreRoom? && !step.FenceRoom? && !step.ApplyImage?
    ensures var n := Next(k, step);
      && n.generation == k.generation && n.known == k.known
      && (n.gate.Some? && n.gate.value.control.Some? ==> k.gate.Some? && n.gate.value.control == k.gate.value.control)
  {
  }

  lemma {:induction false} FormerForEver(k: Room, steps: seq<Step>, g: Uuid)
    requires Inv(k) && Former(k, g)
    ensures Inv(Run(k, steps)) && Former(Run(k, steps), g)
    decreases |steps|
  {
    if steps != [] {
      NextKeeps(k, steps[0]);
      FormerStays(k, steps[0], g);
      FormerForEver(Next(k, steps[0]), steps[1..], g);
    }
  }

  /**
   A transition that takes effect puts the room into the asked-for status under exactly the new generation,
   keeps turn, players and answers, and times the new generation's turn or nothing.
   */
  lemma TransitionRenews(k: Room, from: Status, to: Status, next: Uuid, deadline: nat, timeline: Option<Uuid>, saving: bool)
    requires Inv(k)
    requires Next(k, TransitionRoom(from, k.generation, to, next, deadline, timeline, saving)) != k
    ensures var n := Next(k, TransitionRoom(from, k.generation, to, next, deadline, timeline, saving));
      && k.status == from && n.status == to && n.generation == next && next !in k.known
      && n.turn == k.turn && n.order == k.order && n.results == k.results && n.gate == k.gate && n.lease.None?
      && (k.generation, k.turn) !in n.queue
      && (to.Playing? ==> n.deadline == Some(deadline) && (next, n.turn) in n.queue && n.queue[(next, n.turn)] == deadline)
      && (!to.Playing? ==> n.deadline.None? && forall slot :: slot in n.queue ==> slot.0 != next)
  {
  }

  /**
   Everything computed under the generation a transition has ended is refused over any later run, unless an
   operation in progress had installed that very generation.
   */
  lemma EndedGenerationIsRefused(k: Room, from: Status, to: Status, next: Uuid, deadline: nat, timeline: Option<Uuid>, saving: bool,
                                 later: seq<Step>, step: Step)
    requires Inv(k) && !InHand(k, k.generation)
    requires Next(k, TransitionRoom(from, k.generation, to, next, deadline, timeline, saving)) != k
    requires step.AcquireAction? || step.ReleaseAction? || step.CommitAction? || step.SkipTurn?
    requires step.q.generation == k.generation
    ensures var m := Run(Next(k, TransitionRoom(from, k.generation, to, next, deadline, timeline, saving)), later);
      m.generation != k.generation && ReplyOf(m, step).Refused? && Untouched(m, Next(m, step))
  {
    var n := Next(k, TransitionRoom(from, k.generation, to, next, deadline, timeline, saving));
    NextKeeps(k, TransitionRoom(from, k.generation, to, next, deadline, timeline, saving));
    TransitionRenews(k, from, to, next, deadline, timeline, saving);
    FormerForEver(n, later, k.generation);
    UnsuccessfulTouchesNothing(Run(n, later), step);
  }

  /** In that one case the generation does come back: the image is installed again as it was. */
  lemma InstalledGenerationReturns(k: Room, g: Uuid, order: seq<nat>, target: Target, recovery: bool)
    requires Inv(k) && InHand(k, g) && k.gate.value.pending.None? && !k.gate.value.state.Blocked? && |order| >= 2
    ensures Next(k, ApplyImage(g, k.gate.value.control.value.installed.value.1, order, target, recovery)).generation == g
  {
  }

  /** Nothing computed for another branch is committed or answered, whatever generation and turn it names. */
  lemma OtherBranchIsFenced(k: Room, step: Step)
    requires Inv(k) && (step.CommitAction? || step.SkipTurn?) && k.gate.Some? && BranchOf(step.q) != Some(k.gate.value.timeline)
    ensures ReplyOf(k, step).Refused? && Untouched(k, Next(k, step))
  {
    UnsuccessfulTouchesNothing(k, step);
  }

  // ---------------------------------------------------------------- turns are conserved

  /**
   A successful commit or skip plays a slot nobody has played, answers a request nobody has answered,
   and moves the turn by one.
   */
  lemma SlotPlayedOnce(k: Room, step: Step)
    requires Inv(k) && (step.CommitAction? || step.SkipTurn?) && ReplyOf(k, step).Success?
    ensures var n := Next(k, step);
      && Slot(k) !in k.consumed && n.consumed == k.consumed + {Slot(k)}
      && step.q.request !in k.results && n.results == k.results[step.q.request := AnswerTo(step.q)]
      && n.turn == k.turn + 1 && n.generation == k.generation && n.base == k.base
  {
  }

  /** Slots ever played stay played, over every run. */
  lemma {:induction false} ConsumedGrows(k: Room, steps: seq<Step>)
    ensures k.consumed <= Run(k, steps).consumed
    decreases |steps|
  {
    if steps != [] {
      ConsumedGrowsOnce(k, steps[0]);
      ConsumedGrows(Next(k, steps[0]), steps[1..]);
    }
  }

  lemma ConsumedGrowsOnce(k: Room, step: Step)
    ensures k.consumed <= Next(k, step).consumed
  {
  }

  /** No slot is played twice: whatever happens between two successful turns, they are different slots. */
  lemma NeverPlayedTwice(k: Room, first: Step, between: seq<Step>, second: Step)
    requires Inv(k) && (first.CommitAction? || first.SkipTurn?) && ReplyOf(k, first).Success?
    requires second.CommitAction? || second.SkipTurn?
    requires ReplyOf(Run(Next(k, first), between), second).Success?
    ensures Slot(k) != Slot(Run(Next(k, first), between))
  {
    SlotPlayedOnce(k, first);
    NextKeeps(k, first);
    RunKeeps(Next(k, first), between);
    ConsumedGrows(Next(k, first), between);
    SlotPlayedOnce(Run(Next(k, first), between), second);
  }

  /** Between restores the turn counts exactly the answered requests. */
  lemma TurnsAreAnswers(generation: Uuid, order: seq<nat>, archive: Option<(Uuid, nat)>, steps: seq<Step>)
    requires |order| >= 2
    ensures var k := Run(Initialized(generation, order, archive), steps); k.turn - k.base == |k.results|
  {
    InitializedOk(generation, order, archive);
    RunKeeps(Initialized(generation, order, archive), steps);
  }

  /** The record that a skip must bring now; `commit` is its new identity. */
  function FactNow(k: Room, commit: Uuid): Option<Fact>
    requires |k.order| > 0
  {
    if k.gate.None? then None
    else Some(Fact(k.gate.value.timeline, k.gate.value.head + 1, k.gate.value.revision, Actor(k),
                   (k.turn / |k.order|, (k.turn + 1) / |k.order|), commit))
  }

  /**
   The clock alone gets a playing room unstuck: a due entry without a lease leads to a skipped turn exactly
   when the skip brings the record that continues the branch now, and a due entry with one to a released lease.
   */
  lemma TimerMovesOn(k: Room, q: Request, now: nat, next: nat)
    requires Inv(k) && k.status.Playing? && Open(k)
    requires now >= k.queue[Slot(k)] && q.generation == k.generation && q.turn == k.turn && q.request !in k.results
    ensures k.lease.None? ==>
              (Skip(k, q, true, now, next).1.Success? <==> q.archive == FactNow(k, if q.archive.Some? then q.archive.value.commit else 0))
    ensures k.lease.Some? ==>
              var held := Request(k.generation, k.turn, k.lease.value.user, k.lease.value.request, k.lease.value.fingerprint, q.archive);
              && Release(k, held, next).1.Success?
              && Release(k, held, next).0.deadline == Some(next) && Release(k, held, next).0.queue[Slot(k)] == next
  {
  }

  lemma SuccessFits(k: Room, step: Step)
    requires (step.CommitAction? || step.SkipTurn?) && ReplyOf(k, step).Success? && |k.order| > 0
    ensures Fits(k, step.q, Actor(k)) && CurrentTurn(k, step.q)
    ensures Next(k, step) == Advanced(k, step.q, step.next).(lease := Next(k, step).lease)
  {
  }

  lemma FittingFact(k: Room, q: Request)
    requires |k.order| > 0 && Fits(k, q, Actor(k)) && k.gate.Some?
    ensures q.archive.Some? && q.archive == FactNow(k, q.archive.value.commit) && Open(k)
  {
  }

  /** A commit or a skip leaves the branch one record further, waiting under the generation and turn play goes on with. */
  lemma SuccessIsArchived(k: Room, step: Step)
    requires |k.order| > 0 && (step.CommitAction? || step.SkipTurn?) && ReplyOf(k, step).Success? && k.gate.Some?
    ensures var g, n := k.gate.value, Next(k, step);
      && step.q.archive.Some? && step.q.archive == FactNow(k, step.q.archive.value.commit)
      && n.gate.Some? && n.gate.value.timeline == g.timeline && n.gate.value.head == g.head + 1 && n.gate.value.pending == Some(Slot(n))
      && !Open(n)
  {
    SuccessFits(k, step);
    FittingFact(k, step.q);
  }

  // ---------------------------------------------------------------- what the other scripts leave

  /** Acknowledging the pending record opens the gate and, in a room that plays on, starts the clock of the next turn. */
  lemma AcknowledgedPlaysOn(k: Room, deadline: nat)
    requires Inv(k) && k.gate.Some? && k.gate.value.pending.Some? && k.gate.value.control.None? && !k.gate.value.state.Blocked?
    ensures var n := Next(k, AcknowledgeRecord(deadline));
      && n.gate == Some(k.gate.value.(state := n.gate.value.state, pending := None)) && n.gate.value.state.Ready?
      && n.status == k.status && n.generation == k.generation && n.turn == k.turn && n.results == k.results && n.lease == k.lease
      && (k.status.Playing? ==> n.deadline == Some(deadline) && (k.generation, k.turn) in n.queue && n.queue[(k.generation, k.turn)] == deadline)
      && (!k.status.Playing? ==> n.deadline == k.deadline && n.queue == k.queue)
  {
  }

  /** A fenced room is paused under the fence's generation, with nothing timed and nobody acting. */
  lemma FencedStands(k: Room, fence: Uuid)
    requires Inv(k) && fence !in k.known
    requires k.gate.Some? && !k.gate.value.state.Blocked? && k.gate.value.control.None? && (k.status.Playing? || k.status.Paused?)
    ensures var n := Next(k, FenceRoom(fence));
      && n.status.Paused? && n.generation == fence && fence !in k.known && n.turn == k.turn && n.results == k.results
      && n.deadline.None? && n.lease.None? && (k.generation, k.turn) !in n.queue && !Open(n)
  {
  }

  /** An installed image is the room's: its generation, turn and players, and no answer of the old branch is left. */
  lemma InstalledStands(k: Room, g: Uuid, turn: nat, order: seq<nat>, target: Target, recovery: bool)
    requires Inv(k) && k.gate.Some? && k.gate.value.control.Some? && k.gate.value.pending.None? && !k.gate.value.state.Blocked?
    requires |order| >= 2 && GenerationOk(k, ApplyImage(g, turn, order, target, recovery))
    ensures var n := Next(k, ApplyImage(g, turn, order, target, recovery));
      && n.generation == g && n.turn == turn && n.order == order && n.results == map[] && n.deadline.None? && n.lease.None?
      && (n.status.Playing? <==> k.gate.value.control.value.starts && !recovery) && (n.status.Playing? || n.status.Paused?)
      && n.gate.Some? && n.gate.value.timeline == target.timeline && n.gate.value.head == target.position
      && n.gate.value.revision == target.revision && !Open(n)
  {
  }

  /** Finishing lets the room go: a load ready to be resumed, a start with its opening to be archived first. */
  lemma FinishedStands(k: Room)
    requires Inv(k) && k.gate.Some? && k.gate.value.control.Some? && k.gate.value.pending.None? && !k.gate.value.state.Blocked?
    requires k.gate.value.control.value.installed == Some((k.generation, k.turn)) && (k.status.Playing? || k.status.Paused?)
    ensures var n := Next(k, FinishControl);
      && n == k.(gate := n.gate) && n.gate.Some? && n.gate.value.control.None? && n.gate.value.timeline == k.gate.value.timeline
      && (if k.gate.value.control.value.starts then n.gate.value.head == 1 && n.gate.value.pending == Some((k.generation, k.turn)) && !Open(n)
          else n.gate.value.head == k.gate.value.head && Open(n))
  {
  }

  /** The branch, its marks and a record still pending are those the room was fenced with. */
  lemma FencedKeepsBranch(k: Room, fence: Uuid)
    ensures var n := Next(k, FenceRoom(fence));
      && (k.gate.None? ==> n == k)
      && (k.gate.Some? ==> n.gate == Some(k.gate.value.(state := n.gate.value.state, control := n.gate.value.control)))
      && (k.gate.Some? && (k.gate.value.state.Blocked? || k.gate.value.control.Some?) ==> n == k)
      && n.turn == k.turn && n.order == k.order && n.results == k.results
  {
  }

  /** Without an archive a start plays at once, timed, and a restored save waits at its own turn with no answer cached. */
  lemma UnarchivedRooms(k: Room, g: Uuid, deadline: nat, turn: nat, order: seq<nat>)
    requires Inv(k) && k.gate.None?
    ensures k.status.Provisional? ==>
              Next(k, ActivateRoom(k.generation, deadline)) ==
                k.(status := Playing, deadline := Some(deadline), queue := k.queue[(k.generation, 0) := deadline])
    ensures !k.status.Provisional? || g != k.generation ==> Next(k, ActivateRoom(g, deadline)) == k
    ensures k.status.Paused? && g !in k.known && |order| >= 2 ==>
              var n := Next(k, RestoreRoom(k.generation, g, turn, order));
              && n.status.Paused? && n.generation == g && n.turn == turn && n.order == order && n.results == map[] && n.deadline.None?
              && n.lease == k.lease && n.gate.None? && (k.generation, k.turn) !in n.queue
    ensures !k.status.Paused? ==> Next(k, RestoreRoom(k.generation, g, turn, order)) == k
  {
  }

  /** The emergency pause stops the clock and nothing else, a closed gate keeps what it holds. */
  lemma StoppedRooms(k: Room)
    ensures var n := Next(k, PauseRoom(k.generation));
      if k.status.Ended? then n == k
      else && n.status.Paused? && n.deadline.None?
           && n == k.(status := Paused, deadline := None, queue := k.queue - {(k.generation, 0)})
    ensures forall g :: g != k.generation ==> Next(k, PauseRoom(g)) == k
    ensures var n := Next(k, BlockArchive);
      && (k.gate.None? ==> n == k)
      && (k.gate.Some? ==> !Open(n) && n.gate.Some? && n.gate.value.state.Blocked?
                           && n == k.(gate := Some(k.gate.value.(state := R.Blocked))))
  {
  }
}
