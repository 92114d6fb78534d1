/**
 What the version fence, the roles and the message sequence give over whole runs of a group.
 */
module GroupTheorems {
  import opened MemoryModel
  import opened Groups

  // ---------------------------------------------------------------- history

  /** Messages are only appended, the version and every read mark only rise, and nobody's row disappears. */
  predicate Follows(g: Group, n: Group) {
    && g.messages <= n.messages
    && g.version <= n.version
    && forall u :: u in g.readers ==> u in n.readers && g.readers[u].lastRead <= n.readers[u].lastRead
  }

  lemma {:induction false} AnnouncementsFollow(g: Group, actor: nat, kind: EventKind, targets: seq<nat>)
    ensures Follows(g, AllAnnounced(g, actor, kind, targets))
    decreases |targets|
  {
    if targets != [] {
      AnnouncementsFollow(g, actor, kind, targets[..|targets| - 1]);
    }
  }

  lemma EnteredFollows(g: Group, actor: nat, joining: seq<nat>)
    ensures Follows(g, Entered(g, actor, joining))
  {
    var n := Joint(g, joining);
    AdmittedIs(g.members, g.readers, joining);
    AnnouncementsFollow(n, actor, Joined, joining);
  }

  predicate SameGroup(g: Group, n: Group) {
    n.owner == g.owner && n.members == g.members && n.name == g.name && n.avatar == g.avatar
  }

  function Expected(q: Request): Option<nat> {
    match q
    case UpdateGroup(_, expected, _, _) => Some(expected)
    case InviteMembers(_, _, expected, _) => Some(expected)
    case SetMemberRole(_, _, _, expected) => Some(expected)
    case RemoveMember(_, _, expected) => Some(expected)
    case TransferOwner(_, _, expected) => Some(expected)
    case Send(_, _, _) => None
    case Mark(_, _) => None
  }

  lemma {:induction false} AnnouncementsKeepGroup(g: Group, actor: nat, kind: EventKind, targets: seq<nat>)
    ensures SameGroup(g, AllAnnounced(g, actor, kind, targets)) && AllAnnounced(g, actor, kind, targets).version == g.version
    decreases |targets|
  {
    if targets != [] {
      AnnouncementsKeepGroup(g, actor, kind, targets[..|targets| - 1]);
    }
  }

  /** The version names the state of the group: a request leaves both as they are, or was made for it and raises it by one. */
  predicate Guarded(g: Group, n: Group, expected: Option<nat>) {
    if n.version == g.version then SameGroup(g, n) else n.version == g.version + 1 && expected == Some(g.version)
  }

  lemma UpdateMoves(g: Group, actor: nat, expected: nat, name: Option<string>, avatar: Option<string>)
    ensures var n := Update(g, actor, expected, name, avatar).0;
      Follows(g, n) && Guarded(g, n, Some(expected)) && n.owner == g.owner
  {
  }

  lemma EnteredMoves(g: Group, n: Group, actor: nat, joining: seq<nat>, expected: nat)
    requires n == g || (n == Entered(g, actor, joining) && g.version == expected)
    ensures Follows(g, n) && Guarded(g, n, Some(expected)) && n.owner == g.owner
  {
    EnteredFollows(g, actor, joining);
    AnnouncementsKeepGroup(Joint(g, joining), actor, Joined, joining);
  }

  lemma InviteMoves(g: Group, actor: nat, targets: seq<nat>, expected: nat, friends: set<nat>)
    ensures var n := Invite(g, actor, targets, expected, friends).0;
      Follows(g, n) && Guarded(g, n, Some(expected)) && n.owner == g.owner
  {
    InviteEnters(g, actor, targets, expected, friends);
    EnteredMoves(g, Invite(g, actor, targets, expected, friends).0, actor, Newcomers(g, Arranged(targets)), expected);
  }

  lemma SetRoleMoves(g: Group, actor: nat, target: nat, role: Role, expected: nat)
    ensures var n := SetRole(g, actor, target, role, expected).0;
      Follows(g, n) && Guarded(g, n, Some(expected)) && n.owner == g.owner
  {
  }

  lemma RemoveMoves(g: Group, actor: nat, target: nat, expected: nat)
    ensures var n := Remove(g, actor, target, expected).0;
      Follows(g, n) && Guarded(g, n, Some(expected)) && n.owner == g.owner
  {
  }

  lemma TransferMoves(g: Group, actor: nat, target: nat, expected: nat)
    ensures var n := Transfer(g, actor, target, expected).0;
      && Follows(g, n) && Guarded(g, n, Some(expected))
      && (n.owner != g.owner ==> n.owner == target && expected == g.version && Active(g, actor) && g.members[actor].role.Owner? && Active(n, target))
  {
  }

  lemma ChatMoves(g: Group, user: nat, id: string, content: string, requested: nat)
    ensures var n := SendMessage(g, user, id, content).0; Follows(g, n) && SameGroup(g, n) && n.version == g.version
    ensures var n := MarkRead(g, user, requested).0; Follows(g, n) && SameGroup(g, n) && n.version == g.version
  {
  }

  lemma NextMoves(g: Group, q: Request)
    ensures Follows(g, Next(g, q)) && Guarded(g, Next(g, q), Expected(q))
    ensures !q.TransferOwner? ==> Next(g, q).owner == g.owner
  {
    match q
    case UpdateGroup(actor, expected, name, avatar) => UpdateMoves(g, actor, expected, name, avatar);
    case InviteMembers(actor, targets, expected, friends) => InviteMoves(g, actor, targets, expected, friends);
    case SetMemberRole(actor, target, role, expected) => SetRoleMoves(g, actor, target, role, expected);
    case RemoveMember(actor, target, expected) => RemoveMoves(g, actor, target, expected);
    case TransferOwner(actor, target, expected) => TransferMoves(g, actor, target, expected);
    case Send(actor, id, content) => ChatMoves(g, actor, id, content, 0);
    case Mark(actor, requested) => ChatMoves(g, actor, "", "", requested);
  }

  lemma {:induction false} RunFollows(g: Group, requests: seq<Request>)
    requires Inv(g)
    ensures Inv(Run(g, requests)) && Follows(g, Run(g, requests))
    decreases |requests|
  {
    if requests != [] {
      NextKeeps(g, requests[0]);
      NextMoves(g, requests[0]);
      RunFollows(Next(g, requests[0]), requests[1..]);
    }
  }

  /** A message keeps its number and its text for ever. */
  lemma MessagesStand(g: Group, requests: seq<Request>, i: nat)
    requires Inv(g) && i < |g.messages|
    ensures i < |Run(g, requests).messages| && Run(g, requests).messages[i] == g.messages[i]
    ensures g.messages[i].number == i + 1
  {
    RunFollows(g, requests);
  }

  lemma FindUnique(messages: seq<Message>, m: Message)
    requires NoRepeats(messages) && m in messages
    ensures Find(messages, m.sender, m.id) == Some(m)
  {
    var found := Find(messages, m.sender, m.id);
    var i :| 0 <= i < |messages| && messages[i] == m;
    var j :| 0 <= j < |messages| && messages[j] == found.value;
    assert messages[i] == messages[j];
  }

  /**
   Sending is idempotent: once a message was accepted, then whatever happens next, sending under the
   same client id changes nothing; while its author is still in the group, the same text gives back the
   very message first stored and another text is refused.
   */
  lemma SentOnce(g: Group, user: nat, id: string, content: string, requests: seq<Request>, again: string)
    requires Inv(g) && SendMessage(g, user, id, content).1.Done?
    ensures var (sent, answer) := SendMessage(g, user, id, content);
            var later := Run(sent, requests);
            var (end, repeat) := SendMessage(later, user, id, again);
      && end == later
      && (Active(later, user) ==> repeat == if again == content then Done((answer.value.0, true)) else Refused(IdempotencyConflict))
  {
    var (sent, answer) := SendMessage(g, user, id, content);
    SendKeeps(g, user, id, content);
    assert answer.value.0 in sent.messages;
    RunFollows(sent, requests);
    var later := Run(sent, requests);
    assert answer.value.0 in later.messages;
    FindUnique(later.messages, answer.value.0);
  }

  // ---------------------------------------------------------------- the version fence

  /** Of all the requests made for one version, at most one ever changes the group. */
  lemma OneChangePerVersion(g: Group, q: Request, requests: seq<Request>, late: Request)
    requires Inv(g) && Next(g, q).version != g.version
    requires Expected(late) == Expected(q)
    ensures Next(Run(Next(g, q), requests), late) == Run(Next(g, q), requests)
  {
    NextMoves(g, q);
    NextKeeps(g, q);
    RunFollows(Next(g, q), requests);
  }

  /** How often the group changed is its version. */
  function Changes(g: Group, requests: seq<Request>): nat
    decreases |requests|
  {
    if requests == [] then 0
    else (if SameGroup(g, Next(g, requests[0])) && Next(g, requests[0]).version == g.version then 0 else 1)
         + Changes(Next(g, requests[0]), requests[1..])
  }

  lemma {:induction false} VersionCountsChanges(g: Group, requests: seq<Request>)
    ensures Run(g, requests).version == g.version + Changes(g, requests)
    decreases |requests|
  {
    if requests != [] {
      NextMoves(g, requests[0]);
      VersionCountsChanges(Next(g, requests[0]), requests[1..]);
    }
  }

  // ---------------------------------------------------------------- roles

  lemma AllMirrored(g: Group)
    requires Inv(g)
    ensures forall u :: !Unmirrored(g, u)
  {
  }

  /** The mirror can always be found: no request on a reachable group is refused for drift. */
  lemma NeverDrifts(g: Group, actor: nat, target: nat, role: Role, expected: nat, name: Option<string>, avatar: Option<string>)
    requires Inv(g)
    ensures Update(g, actor, expected, name, avatar).1 != Refused(Drift)
    ensures SetRole(g, actor, target, role, expected).1 != Refused(Drift)
    ensures Remove(g, actor, target, expected).1 != Refused(Drift)
    ensures Transfer(g, actor, target, expected).1 != Refused(Drift)
  {
    AllMirrored(g);
    assert !Unmirrored(g, actor) && !Unmirrored(g, target);
  }

  lemma InviteNeverDrifts(g: Group, actor: nat, targets: seq<nat>, expected: nat, friends: set<nat>)
    requires Inv(g)
    ensures Invite(g, actor, targets, expected, friends).1 != Refused(Drift)
  {
    AllMirrored(g);
    assert !Unmirrored(g, actor);
  }

  function Rank(role: Role): nat {
    match role
    case Owner => 2
    case Admin => 1
    case Member => 0
  }

  /** Removal follows rank: one may leave unless one owns the group, and remove exactly those ranked below. */
  lemma RemovalFollowsRank(g: Group, actor: nat, target: nat)
    requires Inv(g) && Active(g, actor) && Active(g, target) && Room(g, 1)
    ensures var (n, answer) := Remove(g, actor, target, g.version);
      && (answer == Done(true) <==>
            if target == actor then actor != g.owner else Rank(g.members[actor].role) > Rank(g.members[target].role))
      && (answer == Done(true) ==> n.members == g.members[target := Membership(Member, false)])
      && (answer != Done(true) ==> n == g)
  {
    assert Mirrored(g, actor) && Mirrored(g, target);
  }

  /** Ownership moves only when the owner hands it to an active member. */
  lemma OwnerMovesByTransfer(g: Group, q: Request)
    requires Inv(g) && Next(g, q).owner != g.owner
    ensures q == TransferOwner(g.owner, Next(g, q).owner, g.version)
    ensures Active(Next(g, q), Next(g, q).owner)
  {
    NextMoves(g, q);
    TransferMoves(g, q.actor, q.target, q.expected);
  }

  /** What an invitation that takes effect does to the members: the outsiders among the requested users are let in. */
  ghost predicate LetIn(g: Group, n: Group, targets: seq<nat>) {
    && (forall u :: u in n.members <==> u in g.members || u in targets)
    && (forall u :: u in n.members ==> n.members[u] == if u in targets && !Active(g, u) then Membership(Member, true) else g.members[u])
  }

  /** An invitation lets in every requested user who was out, or nobody, whatever the list looks like. */
  lemma InvitationIsWhole(g: Group, actor: nat, targets: seq<nat>, expected: nat, friends: set<nat>)
    requires Inv(g)
    ensures var (n, answer) := Invite(g, actor, targets, expected, friends);
      if answer == Done(true) then
        && LetIn(g, n, targets)
        && n.lastSeq == g.lastSeq + |Newcomers(g, Arranged(targets))|
        && (Distinct(targets) ==> n.lastSeq == g.lastSeq + |ActiveMembers(n)| - |ActiveMembers(g)|)
      else n == g
  {
    var joining := Newcomers(g, Arranged(targets));
    InviteEnters(g, actor, targets, expected, friends);
    if Invite(g, actor, targets, expected, friends).1 == Done(true) {
      NewcomersAre(g, Arranged(targets));
      WholeEntry(g, actor, joining, targets);
      if Distinct(targets) {
        ArrangedIncreasing(targets);
      }
    }
  }

  lemma WholeEntry(g: Group, actor: nat, joining: seq<nat>, targets: seq<nat>)
    requires Inv(g) && forall u :: u in joining <==> u in targets && !Active(g, u)
    requires |ActiveMembers(g)| + |joining| <= MAX_MEMBERS
    ensures var n := Entered(g, actor, joining);
      && LetIn(g, n, targets) && n.lastSeq == g.lastSeq + |joining|
      && (Increasing(joining) ==> |ActiveMembers(n)| == |ActiveMembers(g)| + |joining|)
  {
    var n := Joint(g, joining);
    AdmittedIs(g.members, g.readers, joining);
    JoinedKeeps(g, joining);
    AllAnnouncedKeeps(n, actor, Joined, joining);
    AnnouncementsKeepGroup(n, actor, Joined, joining);
  }

  /** The places at which the list names somebody who is not an active member. */
  ghost function Outsiders(g: Group, targets: seq<nat>): set<nat> {
    set i | 0 <= i < |targets| && !Active(g, targets[i])
  }

  lemma {:induction false} NewcomersJoin(g: Group, a: seq<nat>, b: seq<nat>)
    ensures Newcomers(g, a + b) == Newcomers(g, a) + Newcomers(g, b)
    decreases |b|
  {
    if b == [] {
      assert a + b == a;
    } else {
      assert (a + b)[..|a + b| - 1] == a + b[..|b| - 1];
      NewcomersJoin(g, a, b[..|b| - 1]);
    }
  }

  lemma {:induction false} InsertedCounts(g: Group, order: seq<nat>, x: nat)
    ensures |Newcomers(g, Inserted(order, x))| == |Newcomers(g, order)| + if Active(g, x) then 0 else 1
    decreases |order|
  {
    assert [x][..0] == [] && Newcomers(g, [x]) == if Active(g, x) then [] else [x];
    if order == [] {
      assert Inserted(order, x) == [x];
    } else if x <= order[0] {
      NewcomersJoin(g, [x], order);
    } else {
      InsertedCounts(g, order[1..], x);
      NewcomersJoin(g, [order[0]], Inserted(order[1..], x));
      NewcomersJoin(g, [order[0]], order[1..]);
      assert [order[0]] + order[1..] == order;
    }
  }

  lemma {:induction false} ArrangedCounts(g: Group, targets: seq<nat>)
    ensures |Newcomers(g, Arranged(targets))| == |Outsiders(g, targets)|
    decreases |targets|
  {
    if targets == [] {
      assert Outsiders(g, targets) == {};
    } else {
      var front, last := targets[..|targets| - 1], targets[|targets| - 1];
      ArrangedCounts(g, front);
      InsertedCounts(g, Arranged(front), last);
      OneMoreOutsider(g, targets);
      assert Arranged(targets) == Inserted(Arranged(front), last);
    }
  }

  lemma OneMoreOutsider(g: Group, targets: seq<nat>)
    requires targets != []
    ensures |Outsiders(g, targets)| ==
              |Outsiders(g, targets[..|targets| - 1])| + if Active(g, targets[|targets| - 1]) then 0 else 1
  {
    var front, last := targets[..|targets| - 1], |targets| - 1;
    assert Outsiders(g, targets) == Outsiders(g, front) + if Active(g, targets[last]) then {} else {last};
    assert last !in Outsiders(g, front);
  }

  /** Every member on the list is known to the conversation in the same role. */
  ghost predicate MembersKnown(g: Group, targets: seq<nat>) {
    forall u {:trigger u in targets} :: u in targets && u in g.members && g.members[u].active ==>
      u in g.readers && g.readers[u].active && g.readers[u].role == g.members[u].role
  }

  ghost predicate OutsidersAmong(g: Group, targets: seq<nat>, friends: set<nat>) {
    forall u {:trigger u in targets} :: u in targets && !(u in g.members && g.members[u].active) ==> u in friends
  }

  /**
   An invitation takes effect exactly when an owner or admin makes it for the current version, it names somebody
   from outside, every member it names is known to the conversation in the same role, everybody from outside is
   a friend, and there is room for all of them among the members and in the numbering.
   */
  lemma InvitationAcceptedIff(g: Group, actor: nat, targets: seq<nat>, expected: nat, friends: set<nat>)
    ensures Invite(g, actor, targets, expected, friends).1 == Done(true) <==>
      && g.version == expected && actor in g.members && g.members[actor].active && !g.members[actor].role.Member?
      && actor in g.readers && g.readers[actor].active && g.readers[actor].role == g.members[actor].role
      && Outsiders(g, targets) != {} && MembersKnown(g, targets) && OutsidersAmong(g, targets, friends)
      && |ActiveMembers(g)| + |Outsiders(g, targets)| <= 50 && g.lastSeq + |Outsiders(g, targets)| <= MAX_UINT64
  {
    AdmissionIff(g, actor, Arranged(targets), friends);
    ArrangedCounts(g, targets);
    ListKnown(g, targets);
    ListFriends(g, targets, friends);
    assert |Newcomers(g, Arranged(targets))| == 0 <==> Outsiders(g, targets) == {};
  }

  lemma ListKnown(g: Group, targets: seq<nat>)
    ensures (exists i :: 0 <= i < |Arranged(targets)| && Unmirrored(g, Arranged(targets)[i])) <==> !MembersKnown(g, targets)
  {
    var order := Arranged(targets);
    if MembersKnown(g, targets) {
      forall i | 0 <= i < |order| ensures !Unmirrored(g, order[i]) {
        assert order[i] in targets;
      }
    } else {
      var u :| u in targets && Unmirrored(g, u);
      assert u in order;
      var i :| 0 <= i < |order| && order[i] == u;
      assert Unmirrored(g, Arranged(targets)[i]);
    }
  }

  lemma ListFriends(g: Group, targets: seq<nat>, friends: set<nat>)
    ensures (forall u :: u in Newcomers(g, Arranged(targets)) ==> u in friends) <==> OutsidersAmong(g, targets, friends)
  {
    NewcomersAre(g, Arranged(targets));
  }

  lemma AdmissionIff(g: Group, actor: nat, order: seq<nat>, friends: set<nat>)
    ensures Admission(g, actor, order, friends).1 == Done(true) <==>
      && !(exists i :: 0 <= i < |order| && Unmirrored(g, order[i]))
      && |ActiveMembers(g)| + |Newcomers(g, order)| <= 50 && g.lastSeq + |Newcomers(g, order)| <= MAX_UINT64
      && Newcomers(g, order) != [] && forall u :: u in Newcomers(g, order) ==> u in friends
  {
  }

  /** One event per place, in the order of the list and under the version it carries. */
  predicate EachAnnounced(g: Group, n: Group, actor: nat, joining: seq<nat>, version: nat) {
    && |n.messages| == |g.messages| + |joining| && g.messages <= n.messages
    && forall i :: 0 <= i < |joining| ==>
         n.messages[|g.messages| + i] ==
           Message(g.lastSeq + 1 + i, actor, Generated(g.lastSeq + 1 + i), Event(Joined, joining[i], version))
  }

  /** Who joins reads from where they had left off, and nobody but the author reads on. */
  predicate ReadsOn(g: Group, n: Group, actor: nat, joining: seq<nat>) {
    && n.readers.Keys == g.readers.Keys + (set u | u in joining)
    && (forall u :: u in joining && u in n.readers ==>
          n.readers[u].active && n.readers[u].role.Member? && n.readers[u].lastRead == if u in g.readers then g.readers[u].lastRead else 0)
    && (forall u :: u in g.readers && u in n.readers && u !in joining && u != actor ==> n.readers[u] == g.readers[u])
  }

  /** Each of them is announced under the next version and number, in ascending order, and keeps or gets a read mark. */
  lemma InvitationAnnounces(g: Group, actor: nat, targets: seq<nat>, expected: nat, friends: set<nat>) returns (joining: seq<nat>)
    requires Invite(g, actor, targets, expected, friends).1 == Done(true)
    ensures Ascending(joining) && |joining| == |Outsiders(g, targets)|
    ensures forall u :: u in joining <==> u in targets && !(u in g.members && g.members[u].active)
    ensures var n := Invite(g, actor, targets, expected, friends).0;
      && n.version == g.version + 1 && n.owner == g.owner && n.name == g.name && n.avatar == g.avatar
      && EachAnnounced(g, n, actor, joining, g.version + 1) && ReadsOn(g, n, actor, joining)
  {
    joining := Newcomers(g, Arranged(targets));
    InviteEnters(g, actor, targets, expected, friends);
    JoiningListed(g, targets);
    EnteredAnnounces(g, actor, joining);
  }

  lemma JoiningListed(g: Group, targets: seq<nat>)
    ensures var joining := Newcomers(g, Arranged(targets));
      && Ascending(joining) && |joining| == |Outsiders(g, targets)|
      && forall u :: u in joining <==> u in targets && !(u in g.members && g.members[u].active)
  {
    NewcomersAre(g, Arranged(targets));
    ArrangedCounts(g, targets);
    NewcomersAscending(g, Arranged(targets));
  }

  lemma EnteredAnnounces(g: Group, actor: nat, joining: seq<nat>)
    requires actor !in joining
    ensures var n := Entered(g, actor, joining);
      && n.version == g.version + 1 && n.owner == g.owner && n.name == g.name && n.avatar == g.avatar
      && EachAnnounced(g, n, actor, joining, g.version + 1) && ReadsOn(g, n, actor, joining)
  {
    AnnouncedEach(Joint(g, joining), actor, joining);
    EnteredReads(g, actor, joining);
  }

  lemma EnteredReads(g: Group, actor: nat, joining: seq<nat>)
    requires actor !in joining
    ensures ReadsOn(g, Entered(g, actor, joining), actor, joining)
  {
    AdmittedIs(g.members, g.readers, joining);
    AnnouncedEach(Joint(g, joining), actor, joining);
  }

  lemma {:induction false} NewcomersAscending(g: Group, order: seq<nat>)
    requires Ascending(order)
    ensures Ascending(Newcomers(g, order))
    decreases |order|
  {
    if order != [] {
      var front, last := order[..|order| - 1], order[|order| - 1];
      NewcomersAscending(g, front);
      NewcomersAre(g, front);
      forall i | 0 <= i < |Newcomers(g, front)| ensures Newcomers(g, front)[i] <= last {
        assert Newcomers(g, front)[i] in Newcomers(g, front);
      }
    }
  }

  lemma {:induction false} AnnouncedEach(g: Group, actor: nat, joining: seq<nat>)
    ensures var n := AllAnnounced(g, actor, Joined, joining);
      && n.version == g.version && n.owner == g.owner && n.name == g.name && n.avatar == g.avatar
      && n.lastSeq == g.lastSeq + |joining| && EachAnnounced(g, n, actor, joining, g.version)
      && n.readers.Keys == g.readers.Keys && (forall u :: u in n.readers && u != actor ==> n.readers[u] == g.readers[u])
    decreases |joining|
  {
    if joining != [] {
      AnnouncedEach(g, actor, joining[..|joining| - 1]);
    }
  }

  /** As the service sends it, with repetitions dropped, an invitation announces each person let in exactly once. */
  lemma RequestedOnce(g: Group, actor: nat, targets: seq<nat>, expected: nat, friends: set<nat>)
    requires Inv(g)
    ensures var (n, answer) := RequestInvite(g, actor, targets, expected, friends);
      && Inv(n)
      && (answer == Done(true) ==>
            LetIn(g, n, targets) && n.lastSeq == g.lastSeq + |ActiveMembers(n)| - |ActiveMembers(g)| && n.version == g.version + 1)
      && (answer != Done(true) ==> n == g)
      && (!InvitationValid(actor, targets, expected) ==> answer == Refused(BadRequest))
  {
    InvitationIsWhole(g, actor, Unique(targets), expected, friends);
    InviteKeeps(g, actor, Unique(targets), expected, friends);
    InviteMoves(g, actor, Unique(targets), expected, friends);
    InviteEnters(g, actor, Unique(targets), expected, friends);
  }

  // ---------------------------------------------------------------- from the beginning

  /** Every group that was ever created keeps its shape, through any requests. */
  lemma CreatedKeeps(owner: nat, name: string, avatar: string, requests: seq<Request>)
    ensures var g := Run(Create(owner, name, avatar), requests);
      && Inv(g) && Follows(Create(owner, name, avatar), g)
      && g.version == 1 + Changes(Create(owner, name, avatar), requests)
  {
    CreateOk(owner, name, avatar);
    RunFollows(Create(owner, name, avatar), requests);
    VersionCountsChanges(Create(owner, name, avatar), requests);
  }
}
