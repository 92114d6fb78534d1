/**
 The bounded event log of a room: numbered by a counter, trimmed to a capacity, replayed to clients
 that reconnect with the number of the last event they saw.  Counter and log expire together when
 nothing is published for a day, and then numbering starts again.
 */
module RoomLog {

  /** An event for everybody has no addressee. */
  datatype Event = Event(number: nat, addressee: nat, payload: string)

  datatype Replay = Replay(events: seq<Event>, next: nat, snapshotRequired: bool)

  /**
   `published` and `base` are history variables: every event of the room, trimmed or expired or not, and
   how many of them were published before numbering last started.
   */
  datatype Log = Log(counter: nat, kept: seq<Event>, capacity: nat, published: seq<Event>, base: nat)

  predicate Addressed(e: Event, user: nat) {
    e.addressee == 0 || e.addressee == user
  }

  function For(events: seq<Event>, user: nat): seq<Event> {
    if events == [] then []
    else For(events[..|events| - 1], user) + (if Addressed(events[|events| - 1], user) then [events[|events| - 1]] else [])
  }

  lemma {:induction false} ForJoin(a: seq<Event>, b: seq<Event>, user: nat)
    ensures For(a + b, user) == For(a, user) + For(b, user)
    decreases |b|
  {
    if b == [] {
      assert a + b == a;
    } else {
      assert (a + b)[..|a + b| - 1] == a + b[..|b| - 1];
      ForJoin(a, b[..|b| - 1], user);
    }
  }

  /** `got` are the events at the indexes `at`: in order, each once, and all those for everybody or for this user. */
  predicate Picks(events: seq<Event>, user: nat, at: seq<nat>, got: seq<Event>) {
    && |at| == |got|
    && (forall i {:trigger at[i]} :: 0 <= i < |at| ==>
          at[i] < |events| && got[i] == events[at[i]] && (got[i].addressee == 0 || got[i].addressee == user))
    && (forall i, j {:trigger at[i], at[j]} :: 0 <= i < j < |at| ==> at[i] < at[j])
    && (forall k {:trigger events[k]} :: 0 <= k < |events| && (events[k].addressee == 0 || events[k].addressee == user) ==> k in at)
  }

  lemma {:induction false} ForPicks(events: seq<Event>, user: nat) returns (at: seq<nat>)
    ensures Picks(events, user, at, For(events, user))
    decreases |events|
  {
    if events == [] {
      at := [];
    } else {
      var n := |events| - 1;
      at := ForPicks(events[..n], user);
      if Addressed(events[n], user) {
        at := at + [n];
        assert n in at;
      }
    }
  }

  /** Exactly the events addressed to the user, each once and in order. */
  ghost predicate ExactlyFor(events: seq<Event>, user: nat, got: seq<Event>) {
    exists at :: Picks(events, user, at, got)
  }

  function Tail<T>(s: seq<T>, n: nat): seq<T> {
    if |s| <= n then s else s[|s| - n..]
  }

  /** INCR, RPUSH, LTRIM. */
  function Publish(l: Log, addressee: nat, payload: string): Log {
    var e := Event(l.counter + 1, addressee, payload);
    Log(l.counter + 1, Tail(l.kept + [e], l.capacity), l.capacity, l.published + [e], l.base)
  }

  /** Both keys run out. */
  function Expire(l: Log): Log {
    Log(0, [], l.capacity, l.published, |l.published|)
  }

  /** Events are numbered 1, 2, 3, ... since the start of numbering; the log holds the last of them, as many as fit. */
  predicate Inv(l: Log) {
    && l.capacity > 0
    && l.base <= |l.published| && l.counter == |l.published| - l.base
    && (forall i :: l.base <= i < |l.published| ==> l.published[i].number == i - l.base + 1)
    && l.kept == Tail(l.published[l.base..], l.capacity)
  }

  lemma PublishKeeps(l: Log, addressee: nat, payload: string)
    requires Inv(l)
    ensures Inv(Publish(l, addressee, payload))
  {
    var e, now := Event(l.counter + 1, addressee, payload), l.published[l.base..];
    assert (l.published + [e])[l.base..] == now + [e];
    assert Tail(Tail(now, l.capacity) + [e], l.capacity) == Tail(now + [e], l.capacity);
  }

  /** What a client at `since` is owed. */
  function Missed(l: Log, user: nat, since: nat): seq<Event>
    requires l.base + since <= |l.published|
  {
    For(l.published[l.base + since..], user)
  }

  /** Some event the client has not seen is gone from the log. */
  predicate Trimmed(l: Log, since: nat) {
    since < l.counter && l.counter > |l.kept| + since
  }

  // ---------------------------------------------------------------- the bus

  class Bus {
    var counter: nat
    var kept: seq<Event>
    const capacity: nat
    ghost var published: seq<Event>
    ghost var base: nat

    ghost function Contents(): Log
      reads this
    {
      Log(counter, kept, capacity, published, base)
    }

    constructor (capacity: nat)
      requires capacity > 0
      ensures Inv(Contents()) && this.capacity == capacity && published == []
    {
      counter, kept, published, base := 0, [], [], 0;
      this.capacity := capacity;
    }

    method PublishRoom(addressee: nat, payload: string) returns (number: nat)
      requires Inv(Contents())
      modifies this
      ensures Contents() == Publish(old(Contents()), addressee, payload)
      ensures Inv(Contents()) && number == counter == old(counter) + 1
      ensures published == old(published) + [Event(number, addressee, payload)] && base == old(base)
      ensures |kept| == (if counter < capacity then counter else capacity) && kept == published[|published| - |kept|..]
    {
      PublishedEnd(Contents(), addressee, payload);
      counter := counter + 1;
      var event := Event(counter, addressee, payload);
      kept := Tail(kept + [event], capacity);
      published := published + [event];
      return counter;
    }

    /** The keys' time to live runs out. */
    method ExpireRoom()
      requires Inv(Contents())
      modifies this
      ensures Contents() == Expire(old(Contents())) && Inv(Contents())
      ensures counter == 0 && kept == [] && published == old(published) && base == |published|
    {
      counter, kept, base := 0, [], |published|;
    }

    /**
     ReplayRoom asks for a snapshot exactly when the client's mark is ahead of the room or an event it
     lacks has been trimmed, and otherwise delivers exactly the events after the mark addressed to it.
     */
    method ReplayRoom(user: nat, since: nat) returns (r: Replay)
      requires Inv(Contents())
      ensures r.next == counter
      ensures r.snapshotRequired <==> since > counter || Trimmed(Contents(), since)
      ensures r.snapshotRequired <==> since > counter || since + |kept| < counter
      ensures !r.snapshotRequired ==> r.events == Missed(Contents(), user, since)
      ensures !r.snapshotRequired ==>
                base + since <= |published| && ExactlyFor(published[base + since..], user, r.events)
      ensures r.snapshotRequired ==> r.events == []
    {
      if since <= counter {
        ghost var at := ForPicks(published[base + since..], user);
      }
      ReplayFacts(Contents(), user, since);
      var events, first := Collect(kept, since, user);
      var snapshotRequired := since > counter || (since < counter && (first == 0 || since + 1 < first));
      if snapshotRequired {
        events := [];
      }
      return Replay(events, counter, snapshotRequired);
    }
  }

  /** The loop over the log: the first number in it, and what the client is to get. */
  method Collect(kept: seq<Event>, since: nat, user: nat) returns (events: seq<Event>, first: nat)
    requires forall i :: 0 <= i < |kept| ==> kept[i].number > 0
    ensures events == For(Since(kept, since), user)
    ensures first == if kept == [] then 0 else kept[0].number
  {
    events, first := [], 0;
    for i := 0 to |kept|
      invariant first == if i == 0 then 0 else kept[0].number
      invariant events == For(Since(kept[..i], since), user)
    {
      OneEvent(kept, i, since, user);
      if first == 0 {
        first := kept[i].number;
      }
      if kept[i].number > since && (kept[i].addressee == 0 || kept[i].addressee == user) {
        events := events + [kept[i]];
      }
    }
    assert kept[..|kept|] == kept;
  }

  /** The log is the end of what has been published. */
  lemma KeptIs(l: Log)
    requires Inv(l)
    ensures |l.kept| <= l.counter && (l.kept == [] <==> l.counter == 0)
    ensures l.kept == l.published[l.base + l.counter - |l.kept|..]
  {
    var now := l.published[l.base..];
    TailIs(now, l.capacity);
    SuffixOfSuffix(l.published, l.base, |now| - |l.kept|);
  }

  lemma TailIs<T>(s: seq<T>, n: nat)
    ensures |Tail(s, n)| <= |s| && Tail(s, n) == s[|s| - |Tail(s, n)|..] && (n > 0 && s != [] ==> Tail(s, n) != [])
  {
  }

  lemma PublishedEnd(l: Log, addressee: nat, payload: string)
    requires Inv(l)
    ensures var n := Publish(l, addressee, payload);
      && Inv(n) && |n.kept| == (if n.counter < l.capacity then n.counter else l.capacity)
      && n.kept == n.published[|n.published| - |n.kept|..]
  {
    PublishKeeps(l, addressee, payload);
    KeptIs(Publish(l, addressee, payload));
  }

  lemma KeptNumbers(l: Log)
    requires Inv(l)
    ensures forall i :: 0 <= i < |l.kept| ==> l.kept[i].number == l.counter - |l.kept| + i + 1
  {
    KeptIs(l);
  }

  lemma ReplayFacts(l: Log, user: nat, since: nat)
    requires Inv(l)
    ensures forall i :: 0 <= i < |l.kept| ==> l.kept[i].number == l.counter - |l.kept| + i + 1
    ensures (l.kept == [] <==> l.counter == 0) && |l.kept| <= l.counter
    ensures since <= l.counter && !Trimmed(l, since) ==> For(Since(l.kept, since), user) == Missed(l, user, since)
  {
    KeptIs(l);
    KeptNumbers(l);
    if since <= l.counter && !Trimmed(l, since) {
      KeptIsOwed(l, since);
    }
  }

  lemma KeptIsOwed(l: Log, since: nat)
    requires Inv(l) && since <= l.counter && !Trimmed(l, since)
    ensures Since(l.kept, since) == l.published[l.base + since..]
  {
    KeptIs(l);
    KeptNumbers(l);
    SinceIsOwed(l.published, l.kept, l.base + l.counter - |l.kept|, l.counter - |l.kept|, since);
  }

  lemma SinceIsOwed(published: seq<Event>, kept: seq<Event>, from: nat, dropped: nat, since: nat)
    requires from <= |published| && kept == published[from..]
    requires forall j :: 0 <= j < |kept| ==> kept[j].number == dropped + j + 1
    requires dropped <= since <= dropped + |kept|
    ensures Since(kept, since) == published[from + (since - dropped)..]
  {
    SinceIsSuffix(kept, dropped, since);
    SuffixOfSuffix(published, from, since - dropped);
  }

  lemma SuffixOfSuffix(s: seq<Event>, a: nat, b: nat)
    requires a + b <= |s|
    ensures s[a..][b..] == s[a + b..]
  {
  }

  function Since(events: seq<Event>, since: nat): (r: seq<Event>) {
    if events == [] then []
    else Since(events[..|events| - 1], since) + (if events[|events| - 1].number > since then [events[|events| - 1]] else [])
  }

  /** Over consecutively numbered events, those after a mark are a suffix. */
  lemma {:induction false} SinceIsSuffix(kept: seq<Event>, base: nat, since: nat)
    requires forall j :: 0 <= j < |kept| ==> kept[j].number == base + j + 1
    requires base <= since <= base + |kept|
    ensures Since(kept, since) == kept[since - base..]
    decreases |kept|
  {
    if kept != [] {
      var front := kept[..|kept| - 1];
      if since < base + |kept| {
        SinceIsSuffix(front, base, since);
        assert kept[since - base..] == front[since - base..] + [kept[|kept| - 1]];
      } else {
        NothingSince(kept, since);
      }
    }
  }

  lemma {:induction false} NothingSince(kept: seq<Event>, since: nat)
    requires forall j :: 0 <= j < |kept| ==> kept[j].number <= since
    ensures Since(kept, since) == []
    decreases |kept|
  {
    if kept != [] {
      NothingSince(kept[..|kept| - 1], since);
    }
  }

  /** One turn of the replay loop. */
  lemma OneEvent(kept: seq<Event>, i: nat, since: nat, user: nat)
    requires i < |kept|
    ensures For(Since(kept[..i + 1], since), user) ==
              For(Since(kept[..i], since), user) + (if kept[i].number > since && Addressed(kept[i], user) then [kept[i]] else [])
  {
    assert kept[..i + 1][..i] == kept[..i];
    var more := if kept[i].number > since then [kept[i]] else [];
    assert Since(kept[..i + 1], since) == Since(kept[..i], since) + more;
    if kept[i].number > since {
      ForJoin(Since(kept[..i], since), [kept[i]], user);
      assert For([kept[i]], user) == if Addressed(kept[i], user) then [kept[i]] else [] by {
        assert [kept[i]][..0] == [];
      }
    } else {
      assert Since(kept[..i], since) + [] == Since(kept[..i], since);
    }
  }

  // ---------------------------------------------------------------- a client that keeps reconnecting

  /**
   `mark` is the number of the last event the client knows of.  The rest is history: `received` is what has
   been delivered since its last snapshot, `start` and `seen` how much had been published at that snapshot
   and when the client last caught up.
   */
  datatype Client = Client(user: nat, mark: nat, start: nat, seen: nat, received: seq<Event>)

  datatype Step = PublishEvent(addressee: nat, payload: string) | ExpireKeys | Reconnect

  predicate SnapshotRequired(l: Log, since: nat) {
    since > l.counter || Trimmed(l, since)
  }

  function Served(l: Log, c: Client): Client
    requires Inv(l)
  {
    if SnapshotRequired(l, c.mark) then Client(c.user, l.counter, |l.published|, |l.published|, [])
    else c.(mark := l.counter, seen := |l.published|, received := c.received + Missed(l, c.user, c.mark))
  }

  function Next(l: Log, c: Client, step: Step): (Log, Client)
    requires Inv(l)
  {
    match step
    case PublishEvent(addressee, payload) => (Publish(l, addressee, payload), c)
    case ExpireKeys => (Expire(l), c)
    case Reconnect => (l, Served(l, c))
  }

  lemma NextKeeps(l: Log, c: Client, step: Step)
    requires Inv(l)
    ensures Inv(Next(l, c, step).0)
  {
    if step.PublishEvent? {
      PublishKeeps(l, step.addressee, step.payload);
    }
  }

  function Run(l: Log, c: Client, steps: seq<Step>): (Log, Client)
    requires Inv(l)
    decreases |steps|
  {
    if steps == [] then (l, c)
    else
      NextKeeps(l, c, steps[0]);
      var (m, d) := Next(l, c, steps[0]);
      Run(m, d, steps[1..])
  }

  /** The client has exactly what was addressed to it between its snapshot and the time it last caught up. */
  predicate Followed(l: Log, c: Client) {
    && Inv(l) && c.start <= c.seen <= |l.published| && c.seen <= l.base + c.mark
    && c.received == For(l.published[c.start..c.seen], c.user)
  }

  /** The client's mark counts from the same start of numbering as the room's. */
  predicate SameNumbering(l: Log, c: Client) {
    c.seen == l.base + c.mark
  }

  lemma CutTwice<T>(s: seq<T>, i: nat, j: nat, k: nat)
    requires i <= j <= k <= |s|
    ensures s[i..] == s[i..j] + s[j..k] + s[k..]
  {
  }

  lemma ForThree(s: seq<Event>, i: nat, j: nat, k: nat, user: nat)
    requires i <= j <= k <= |s|
    ensures For(s[i..], user) == For(s[i..j], user) + For(s[j..k], user) + For(s[k..], user)
  {
    CutTwice(s, i, j, k);
    ForJoin(s[i..j], s[j..k], user);
    ForJoin(s[i..j] + s[j..k], s[k..], user);
  }

  lemma ReplayJoins(l: Log, c: Client)
    requires Followed(l, c) && !SnapshotRequired(l, c.mark)
    ensures l.base + c.mark <= |l.published|
    ensures var skipped := For(l.published[c.seen..l.base + c.mark], c.user);
      && For(l.published[c.start..], c.user) == c.received + skipped + Missed(l, c.user, c.mark)
      && Served(l, c).received == c.received + Missed(l, c.user, c.mark)
  {
    ForThree(l.published, c.start, c.seen, l.base + c.mark, c.user);
  }

  /**
   A reconnection gives the client what it lacks exactly when a snapshot is demanded or nothing addressed to
   it lies between what it has seen and its mark read as a number of today.  Under the same numbering there
   is nothing in between; after an expiry, everything the room has published again up to that number is.
   */
  lemma ReconnectFollowsIff(l: Log, c: Client)
    requires Followed(l, c)
    ensures Followed(l, Served(l, c)) <==>
              SnapshotRequired(l, c.mark) || For(l.published[c.seen..l.base + c.mark], c.user) == []
    ensures SameNumbering(l, c) ==> Followed(l, Served(l, c))
  {
    assert l.published[|l.published|..|l.published|] == [];
    assert l.published[c.start..|l.published|] == l.published[c.start..];
    if !SnapshotRequired(l, c.mark) {
      ReplayJoins(l, c);
      if SameNumbering(l, c) {
        assert l.published[c.seen..l.base + c.mark] == [];
      }
    }
  }

  lemma OthersFollow(l: Log, c: Client, step: Step)
    requires Followed(l, c) && !step.Reconnect?
    ensures Followed(Next(l, c, step).0, c)
    ensures step.PublishEvent? && SameNumbering(l, c) ==> SameNumbering(Next(l, c, step).0, c)
  {
    var m := Next(l, c, step).0;
    NextKeeps(l, c, step);
    assert m.published[c.start..c.seen] == l.published[c.start..c.seen];
  }

  /** Whenever the client comes back its mark counts from the room's own start, or is told to take a snapshot. */
  predicate ReturnsInTime(l: Log, c: Client, steps: seq<Step>)
    requires Inv(l)
    decreases |steps|
  {
    steps == [] ||
      (NextKeeps(l, c, steps[0]);
       var (m, d) := Next(l, c, steps[0]);
       (steps[0].Reconnect? ==> SameNumbering(l, c) || SnapshotRequired(l, c.mark)) && ReturnsInTime(m, d, steps[1..]))
  }

  /**
   However publishing, expiry and reconnecting interleave, a client that returns in time has received, since
   the snapshot it last took, exactly the events addressed to it, each once and in order.
   */
  lemma {:induction false} ClientSeesEachEventOnce(l: Log, c: Client, steps: seq<Step>)
    requires Followed(l, c) && ReturnsInTime(l, c, steps)
    ensures var (m, d) := Run(l, c, steps);
      && d.start <= d.seen <= |m.published| && d.received == For(m.published[d.start..d.seen], d.user)
      && ExactlyFor(m.published[d.start..d.seen], d.user, d.received)
    ensures Followed(Run(l, c, steps).0, Run(l, c, steps).1)
    decreases |steps|
  {
    if steps != [] {
      if steps[0].Reconnect? {
        ReconnectFollowsIff(l, c);
      } else {
        OthersFollow(l, c, steps[0]);
      }
      var (m, d) := Next(l, c, steps[0]);
      ClientSeesEachEventOnce(m, d, steps[1..]);
    } else {
      var at := ForPicks(l.published[c.start..c.seen], c.user);
    }
  }

  /** Without an expiry every client returns in time. */
  lemma {:induction false} NoExpiryInTime(l: Log, c: Client, steps: seq<Step>)
    requires Followed(l, c) && SameNumbering(l, c) && ExpireKeys !in steps
    ensures ReturnsInTime(l, c, steps)
    decreases |steps|
  {
    if steps != [] {
      if steps[0].Reconnect? {
        ReconnectFollowsIff(l, c);
      } else {
        OthersFollow(l, c, steps[0]);
      }
      var (m, d) := Next(l, c, steps[0]);
      NoExpiryInTime(m, d, steps[1..]);
    }
  }

  /** One event, seen; the keys expire; two more events: the client is handed the second and never learns of the first. */
  lemma ExpiryHidesEvents()
    ensures var l := Log(0, [], 256, [], 0);
            var c := Client(1, 0, 0, 0, []);
            var steps := [PublishEvent(0, "a"), Reconnect, ExpireKeys, PublishEvent(0, "b"), PublishEvent(0, "c"), Reconnect];
      && Inv(l) && Followed(l, c) && SameNumbering(l, c)
      && Run(l, c, steps).1.received == [Event(1, 0, "a"), Event(2, 0, "c")]
      && For(Run(l, c, steps).0.published, 1) == [Event(1, 0, "a"), Event(1, 0, "b"), Event(2, 0, "c")]
  {
  }
}
