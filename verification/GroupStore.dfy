/**
 The tables of one group as an object.  Each transaction works on what it has read and commits its
 result as a whole; a refusal leaves every table as it was.
 */
module GroupStore {
  import opened MemoryModel
  import opened Groups

  lemma NewcomersStep(g: Group, order: seq<nat>, i: nat)
    requires i < |order|
    ensures Newcomers(g, order[..i + 1]) ==
              if Active(g, order[i]) then Newcomers(g, order[..i]) else Newcomers(g, order[..i]) + [order[i]]
  {
    assert order[..i + 1][..i] == order[..i];
  }

  /** Taking one more user into both tables. */
  lemma OneEnters(members: map<nat, Membership>, readers: map<nat, Reader>, users: seq<nat>, u: nat)
    ensures Admitted(members, users + [u]) == Admitted(members, users)[u := Membership(Member, true)]
    ensures AllWelcomed(readers, users + [u]) == Welcomed(AllWelcomed(readers, users), u)
  {
    assert (users + [u])[..|users|] == users;
  }

  lemma OneMoreAnnounced(g: Group, actor: nat, users: seq<nat>, u: nat)
    ensures AllAnnounced(g, actor, Joined, users + [u]) == Announced(AllAnnounced(g, actor, Joined, users), actor, Joined, u)
  {
    assert (users + [u])[..|users|] == users;
  }

  lemma {:induction false} AnnouncedCount(g: Group, actor: nat, users: seq<nat>)
    ensures AllAnnounced(g, actor, Joined, users).lastSeq == g.lastSeq + |users|
    decreases |users|
  {
    if users != [] {
      AnnouncedCount(g, actor, users[..|users| - 1]);
    }
  }

  lemma {:induction false} NewcomersCount(g: Group, order: seq<nat>, i: nat)
    requires i <= |order|
    ensures |Newcomers(g, order[..i])| <= |Newcomers(g, order)|
    decreases |order| - i
  {
    if i < |order| {
      NewcomersStep(g, order, i);
      NewcomersCount(g, order, i + 1);
    } else {
      assert order[..i] == order;
    }
  }

  /** The sort of the requested users. */
  method Arrange(targets: seq<nat>) returns (order: seq<nat>)
    ensures order == Arranged(targets)
  {
    order := [];
    for i := 0 to |targets|
      invariant order == Arranged(targets[..i])
    {
      assert targets[..i + 1][..i] == targets[..i];
      order := Inserted(order, targets[i]);
    }
    assert targets[..|targets|] == targets;
  }

  /** First pass: who has to be added, and whether everybody else's mirror is sound. */
  method CountNewcomers(g: Group, order: seq<nat>) returns (toAdd: nat, drift: bool)
    ensures drift <==> exists i :: 0 <= i < |order| && Unmirrored(g, order[i])
    ensures !drift ==> toAdd == |Newcomers(g, order)|
  {
    toAdd, drift := 0, false;
    for i := 0 to |order|
      invariant toAdd == |Newcomers(g, order[..i])|
      invariant forall j :: 0 <= j < i ==> !Unmirrored(g, order[j])
    {
      if Unmirrored(g, order[i]) {
        return toAdd, true;
      }
      NewcomersStep(g, order, i);
      toAdd := if Active(g, order[i]) then toAdd else toAdd + 1;
    }
    assert order[..|order|] == order;
  }

  /** Second pass: every newcomer must exist and be a friend of the actor. */
  method CheckFriends(g: Group, order: seq<nat>, friends: set<nat>) returns (ok: bool)
    ensures ok <==> forall u :: u in Newcomers(g, order) ==> u in friends
  {
    NewcomersAre(g, order);
    for i := 0 to |order|
      invariant forall j :: 0 <= j < i ==> Active(g, order[j]) || order[j] in friends
    {
      if !Active(g, order[i]) && order[i] !in friends {
        return false;
      }
    }
    return true;
  }

  /** Third pass: a row in both tables for every newcomer. */
  method AddMembers(g: Group, order: seq<nat>) returns (members: map<nat, Membership>, readers: map<nat, Reader>)
    ensures members == Admitted(g.members, Newcomers(g, order))
    ensures readers == AllWelcomed(g.readers, Newcomers(g, order))
  {
    members, readers := g.members, g.readers;
    for i := 0 to |order|
      invariant members == Admitted(g.members, Newcomers(g, order[..i]))
      invariant readers == AllWelcomed(g.readers, Newcomers(g, order[..i]))
    {
      NewcomersStep(g, order, i);
      if !Active(g, order[i]) {
        OneEnters(g.members, g.readers, Newcomers(g, order[..i]), order[i]);
        members := members[order[i] := Membership(Member, true)];
        readers := readers[order[i] := Reader(Member, true, if order[i] in readers then readers[order[i]].lastRead else 0)];
      }
    }
    assert order[..|order|] == order;
  }

  /** Fourth pass: one system message per newcomer, unless the sequence runs out. */
  method AnnounceNewcomers(g: Group, was: Group, actor: nat, order: seq<nat>) returns (n: Group, exhausted: bool)
    ensures exhausted <==> !Room(g, |Newcomers(was, order)|) && Newcomers(was, order) != []
    ensures !exhausted ==> n == AllAnnounced(g, actor, Joined, Newcomers(was, order))
  {
    n, exhausted := g, false;
    for i := 0 to |order|
      invariant n == AllAnnounced(g, actor, Joined, Newcomers(was, order[..i]))
      invariant Newcomers(was, order[..i]) == [] || Room(g, |Newcomers(was, order[..i])|)
    {
      NewcomersStep(was, order, i);
      if !Active(was, order[i]) {
        AnnouncedCount(g, actor, Newcomers(was, order[..i]));
        if n.lastSeq >= MAX_UINT64 {
          NewcomersCount(was, order, i + 1);
          return n, true;
        }
        OneMoreAnnounced(g, actor, Newcomers(was, order[..i]), order[i]);
        n := Announced(n, actor, Joined, order[i]);
      }
    }
    assert order[..|order|] == order;
  }

  /** The four passes over the requested users, in one transaction. */
  method Admit(g: Group, actor: nat, order: seq<nat>, friends: set<nat>) returns (n: Group, answer: Answer<bool>)
    ensures (n, answer) == Admission(g, actor, order, friends)
  {
    var toAdd, drift := CountNewcomers(g, order);
    if drift {
      return g, Refused(Drift);
    }
    if |ActiveMembers(g)| + toAdd > MAX_MEMBERS {
      return g, Refused(MemberLimit);
    }
    var friendly := CheckFriends(g, order, friends);
    if !friendly {
      return g, Refused(FriendshipRequired);
    }
    if toAdd == 0 {
      return g, Done(false);
    }
    var members, readers := AddMembers(g, order);
    var exhausted;
    n, exhausted := AnnounceNewcomers(g.(members := members, readers := readers, version := g.version + 1), g, actor, order);
    if exhausted {
      return g, Refused(Exhausted);
    }
    answer := Done(true);
  }

  /** One event under the next version, read by its author; names and everybody else's marks stay. */
  predicate Announces(was: Group, n: Group, actor: nat, kind: EventKind, target: nat) {
    && n.version == was.version + 1 && n.lastSeq == was.lastSeq + 1 && n.name == was.name && n.avatar == was.avatar
    && n.messages == was.messages + [Message(n.lastSeq, actor, Generated(n.lastSeq), Event(kind, target, n.version))]
    && n.readers.Keys == was.readers.Keys
    && forall u :: u in n.readers ==>
         n.readers[u].lastRead == if u == actor && was.readers[u].lastRead < n.lastSeq then n.lastSeq else was.readers[u].lastRead
  }

  /** Nobody but these two changes role or leaves. */
  predicate OthersStay(was: Group, n: Group, a: nat, b: nat) {
    && n.members.Keys == was.members.Keys && n.readers.Keys == was.readers.Keys
    && (forall u :: u in n.members && u != a && u != b ==> n.members[u] == was.members[u])
    && (forall u :: u in n.readers && u != a && u != b ==>
          n.readers[u].role == was.readers[u].role && n.readers[u].active == was.readers[u].active)
  }

  /** The new profile under the next version, with one event for each of name and avatar that changed, read by their author. */
  predicate Renewed(was: Group, n: Group, actor: nat, name: Option<string>, avatar: Option<string>) {
    var renamed, repainted := name.Some? && name.value != was.name, avatar.Some? && avatar.value != was.avatar;
    && n.version == was.version + 1 && n.owner == was.owner && n.members == was.members && n.readers.Keys == was.readers.Keys
    && (forall u :: u in n.readers ==>
          n.readers[u] == if u == actor && was.readers[u].lastRead < n.lastSeq then was.readers[u].(lastRead := n.lastSeq) else was.readers[u])
    && n.name == (if name.Some? then name.value else was.name) && n.avatar == (if avatar.Some? then avatar.value else was.avatar)
    && n.lastSeq == was.lastSeq + (if renamed && repainted then 2 else 1)
    && n.messages == was.messages
         + (if renamed then [Message(was.lastSeq + 1, actor, Generated(was.lastSeq + 1), Event(NameChanged, 0, n.version))] else [])
         + (if repainted then [Message(n.lastSeq, actor, Generated(n.lastSeq), Event(AvatarChanged, 0, n.version))] else [])
  }

  lemma UpdateRenews(g: Group, actor: nat, expected: nat, name: Option<string>, avatar: Option<string>)
    ensures var (n, answer) := Groups.Update(g, actor, expected, name, avatar);
      if answer == Done(true) then Renewed(g, n, actor, name, avatar) else n == g
  {
  }

  lemma RemovalLeaves(g: Group, actor: nat, target: nat, expected: nat)
    ensures var (n, answer) := Groups.Remove(g, actor, target, expected);
      if answer == Done(true) then Gone(g, n, actor, target) else n == g
  {
  }

  /** The target is an inactive plain member on both sides; nobody else is touched. */
  predicate Gone(was: Group, n: Group, actor: nat, target: nat) {
    && target in n.members && n.members[target] == Membership(Member, false)
    && target in n.readers && !n.readers[target].active && n.readers[target].role.Member?
    && n.owner == was.owner && OthersStay(was, n, target, target)
    && Announces(was, n, actor, if target == actor then Left else Removed, target)
  }

  lemma TransferHandsOver(g: Group, actor: nat, target: nat, expected: nat)
    requires Groups.Transfer(g, actor, target, expected).1 == Done(true)
    ensures var n := Groups.Transfer(g, actor, target, expected).0;
      && n.owner == target && target in n.members && n.members[target] == Membership(Owner, true)
      && actor in n.members && n.members[actor] == Membership(Member, true)
      && target in n.readers && n.readers[target].role.Owner? && n.readers[target].active
      && actor in n.readers && n.readers[actor].role.Member? && n.readers[actor].active
      && OthersStay(g, n, actor, target) && Announces(g, n, actor, Transferred, target)
  {
  }

  class GroupRepo {
    var owner: nat
    var version: nat
    var name: string
    var avatar: string
    var members: map<nat, Membership>
    var readers: map<nat, Reader>
    var lastSeq: nat
    var messages: seq<Message>

    function Contents(): Group
      reads this
    {
      Group(owner, version, name, avatar, members, readers, lastSeq, messages)
    }

    constructor (ownerId: nat, groupName: string, groupAvatar: string)
      ensures Contents() == Create(ownerId, groupName, groupAvatar)
      ensures owner == ownerId && version == 1 && name == groupName && avatar == groupAvatar
      ensures members == map[ownerId := Membership(Owner, true)] && readers == map[ownerId := Reader(Owner, true, 1)]
      ensures lastSeq == 1 && messages == [Message(1, ownerId, Generated(1), Event(Created, 0, 1))]
    {
      owner, version, name, avatar := ownerId, 1, groupName, groupAvatar;
      members := map[ownerId := Membership(Owner, true)];
      readers := map[ownerId := Reader(Owner, true, 1)];
      lastSeq, messages := 1, [Message(1, ownerId, Generated(1), Event(Created, 0, 1))];
    }

    /** A mutation is let in: the version is the current one and the actor an active member with a matching mirror. */
    predicate Admits(actor: nat, expected: nat)
      reads this
    {
      && version == expected && actor in members && members[actor].active
      && actor in readers && readers[actor].active && readers[actor].role == members[actor].role
    }

    /** A member the conversation knows in the same role. */
    predicate InStep(user: nat)
      reads this
    {
      user in members && members[user].active && user in readers && readers[user].active && readers[user].role == members[user].role
    }

    /** The version, then the actor's own membership and its mirror. */
    method Enter(actor: nat, expected: nat) returns (issue: Option<Refusal>)
      ensures issue == Fenced(Contents(), actor, expected)
    {
      if version != expected {
        return Some(VersionConflict);
      }
      if actor !in members || !members[actor].active {
        return Some(Missing);
      }
      if actor !in readers || !readers[actor].active || readers[actor].role != members[actor].role {
        return Some(Drift);
      }
      return None;
    }

    method Announce(actor: nat, kind: EventKind, target: nat)
      modifies this`lastSeq, this`messages, this`readers
      ensures Contents() == Announced(old(Contents()), actor, kind, target)
    {
      lastSeq := lastSeq + 1;
      messages := messages + [Message(lastSeq, actor, Generated(lastSeq), Event(kind, target, version))];
      if actor in readers && readers[actor].lastRead < lastSeq {
        readers := readers[actor := readers[actor].(lastRead := lastSeq)];
      }
    }

    method Update(actor: nat, expected: nat, newName: Option<string>, newAvatar: Option<string>) returns (answer: Answer<bool>)
      modifies this
      ensures (Contents(), answer) == Groups.Update(old(Contents()), actor, expected, newName, newAvatar)
      ensures var renamed, repainted := newName.Some? && newName.value != old(name), newAvatar.Some? && newAvatar.value != old(avatar);
        && (answer == Done(true) <==>
              && old(Admits(actor, expected)) && old(members)[actor].role.Owner? && (renamed || repainted)
              && old(lastSeq) + (if renamed && repainted then 2 else 1) <= MAX_UINT64)
        && (answer == Done(false) <==> old(Admits(actor, expected)) && old(members)[actor].role.Owner? && !renamed && !repainted)
        && (answer == Done(true) ==> Renewed(old(Contents()), Contents(), actor, newName, newAvatar))
        && (answer != Done(true) ==> Contents() == old(Contents()))
    {
      UpdateRenews(Contents(), actor, expected, newName, newAvatar);
      var issue := Enter(actor, expected);
      if issue.Some? {
        return Refused(issue.value);
      }
      if members[actor].role != Owner {
        return Refused(PermissionDenied);
      }
      var renamed, repainted := newName.Some? && newName.value != name, newAvatar.Some? && newAvatar.value != avatar;
      if !renamed && !repainted {
        return Done(false);
      }
      if lastSeq + (if renamed && repainted then 2 else 1) > MAX_UINT64 {
        return Refused(Exhausted);
      }
      version := version + 1;
      if newName.Some? {
        name := newName.value;
      }
      if newAvatar.Some? {
        avatar := newAvatar.value;
      }
      if renamed {
        Announce(actor, NameChanged, 0);
      }
      if repainted {
        Announce(actor, AvatarChanged, 0);
      }
      return Done(true);
    }

    method Invite(actor: nat, targets: seq<nat>, expected: nat, friends: set<nat>) returns (answer: Answer<bool>)
      modifies this
      ensures (Contents(), answer) == Groups.Invite(old(Contents()), actor, targets, expected, friends)
    {
      var issue := Enter(actor, expected);
      if issue.Some? {
        return Refused(issue.value);
      }
      if members[actor].role.Member? {
        return Refused(PermissionDenied);
      }
      var order := Arrange(targets);
      var n;
      n, answer := Admit(Contents(), actor, order, friends);
      owner, version, name, avatar := n.owner, n.version, n.name, n.avatar;
      members, readers, lastSeq, messages := n.members, n.readers, n.lastSeq, n.messages;
    }

    method SetRole(actor: nat, target: nat, role: Role, expected: nat) returns (answer: Answer<bool>)
      modifies this
      ensures (Contents(), answer) == Groups.SetRole(old(Contents()), actor, target, role, expected)
      ensures answer == Done(true) <==>
                && !role.Owner? && old(Admits(actor, expected)) && old(members)[actor].role.Owner? && target != actor
                && old(InStep(target)) && !old(members)[target].role.Owner? && old(members)[target].role != role && old(lastSeq) < MAX_UINT64
      ensures answer == Done(false) <==>
                && !role.Owner? && old(Admits(actor, expected)) && old(members)[actor].role.Owner? && target != actor
                && old(InStep(target)) && old(members)[target].role == role
      ensures answer == Done(true) ==>
                && members[target] == Membership(role, true) && readers[target].role == role && readers[target].active
                && owner == old(owner) && OthersStay(old(Contents()), Contents(), target, target) && Announces(old(Contents()), Contents(), actor, RoleChanged, target)
      ensures answer != Done(true) ==> Contents() == old(Contents())
    {
      if role.Owner? {
        return Refused(BadRequest);
      }
      var issue := Enter(actor, expected);
      if issue.Some? {
        return Refused(issue.value);
      }
      if members[actor].role != Owner || target == actor {
        return Refused(PermissionDenied);
      }
      if target !in members || !members[target].active {
        return Refused(Missing);
      }
      if members[target].role.Owner? {
        return Refused(OwnerConflict);
      }
      if target !in readers || !readers[target].active || readers[target].role != members[target].role {
        return Refused(Drift);
      }
      if members[target].role == role {
        return Done(false);
      }
      if lastSeq >= MAX_UINT64 {
        return Refused(Exhausted);
      }
      members := members[target := members[target].(role := role)];
      readers := readers[target := readers[target].(role := role)];
      version := version + 1;
      Announce(actor, RoleChanged, target);
      return Done(true);
    }

    method Remove(actor: nat, target: nat, expected: nat) returns (answer: Answer<bool>)
      modifies this
      ensures (Contents(), answer) == Groups.Remove(old(Contents()), actor, target, expected)
      ensures answer == Done(true) <==>
                && old(Admits(actor, expected)) && target in old(members) && old(members)[target].active
                && (if target == actor then !old(members)[actor].role.Owner?
                    else (old(members)[actor].role.Owner? && !old(members)[target].role.Owner?)
                         || (old(members)[actor].role.Admin? && old(members)[target].role.Member?))
                && target in old(readers) && old(readers)[target].active && old(lastSeq) < MAX_UINT64
      ensures answer == Done(false) <==>
                && old(Admits(actor, expected))
                && if target in old(members) then !old(members)[target].active else !old(members)[actor].role.Member?
      ensures answer == Done(true) ==> Gone(old(Contents()), Contents(), actor, target)
      ensures answer != Done(true) ==> Contents() == old(Contents())
    {
      RemovalLeaves(Contents(), actor, target, expected);
      var issue := Enter(actor, expected);
      if issue.Some? {
        return Refused(issue.value);
      }
      if target !in members {
        if target != actor && (members[actor].role.Owner? || members[actor].role.Admin?) {
          return Done(false);
        }
        return Refused(Missing);
      }
      if !members[target].active {
        return Done(false);
      }
      if target == actor {
        if members[target].role.Owner? {
          return Refused(OwnerConflict);
        }
      } else {
        match members[actor].role {
          case Owner =>
            if members[target].role.Owner? {
              return Refused(OwnerConflict);
            }
          case Admin =>
            if members[target].role != Member {
              return Refused(PermissionDenied);
            }
          case Member => return Refused(PermissionDenied);
        }
      }
      if target !in readers || !readers[target].active {
        return Refused(Drift);
      }
      if lastSeq >= MAX_UINT64 {
        return Refused(Exhausted);
      }
      members := members[target := Membership(Member, false)];
      readers := readers[target := readers[target].(role := Member, active := false)];
      version := version + 1;
      Announce(actor, if target == actor then Left else Removed, target);
      return Done(true);
    }

    method Transfer(actor: nat, target: nat, expected: nat) returns (answer: Answer<bool>)
      modifies this
      ensures (Contents(), answer) == Groups.Transfer(old(Contents()), actor, target, expected)
      ensures answer == Done(true) <==>
                && old(Admits(actor, expected)) && old(members)[actor].role.Owner? && target != actor && old(InStep(target))
                && old(lastSeq) < MAX_UINT64
      ensures answer == Done(false) <==> old(Admits(actor, expected)) && old(members)[actor].role.Owner? && target == actor
      ensures answer == Done(true) ==>
                && owner == target && members[target] == Membership(Owner, true) && members[actor] == Membership(Member, true)
                && readers[target].role.Owner? && readers[actor].role.Member? && readers[target].active && readers[actor].active
                && OthersStay(old(Contents()), Contents(), actor, target) && Announces(old(Contents()), Contents(), actor, Transferred, target)
      ensures answer != Done(true) ==> Contents() == old(Contents())
    {
      ghost var was := Contents();
      var issue := Enter(actor, expected);
      if issue.Some? {
        return Refused(issue.value);
      }
      if members[actor].role != Owner {
        return Refused(PermissionDenied);
      }
      if target == actor {
        return Done(false);
      }
      if target !in members || !members[target].active {
        return Refused(OwnerConflict);
      }
      if target !in readers || !readers[target].active || readers[target].role != members[target].role {
        return Refused(Drift);
      }
      if lastSeq >= MAX_UINT64 {
        return Refused(Exhausted);
      }
      members := members[actor := members[actor].(role := Member)];
      members := members[target := members[target].(role := Owner)];
      readers := readers[actor := readers[actor].(role := Member)];
      readers := readers[target := readers[target].(role := Owner)];
      owner, version := target, version + 1;
      Announce(actor, Transferred, target);
      TransferHandsOver(was, actor, target, expected);
      return Done(true);
    }

    method SendMessage(user: nat, id: string, content: string) returns (answer: Answer<(Message, bool)>)
      modifies this`lastSeq, this`messages, this`readers
      ensures (Contents(), answer) == Groups.SendMessage(old(Contents()), user, id, content)
      ensures answer.Done? && !answer.value.1 ==>
                && (forall m :: m in old(messages) ==> m.sender != user || m.id != Chosen(id))
                && old(lastSeq) < MAX_UINT64 && lastSeq == old(lastSeq) + 1
                && answer.value.0 == Message(lastSeq, user, Chosen(id), Text(content)) && messages == old(messages) + [answer.value.0]
                && readers.Keys == old(readers).Keys
                && (forall u :: u in readers && u != user ==> readers[u] == old(readers)[u])
                && (user in readers ==> readers[user] == old(readers)[user].(lastRead := readers[user].lastRead)
                                        && readers[user].lastRead == if old(readers)[user].lastRead < lastSeq then lastSeq else old(readers)[user].lastRead)
      ensures answer.Done? && answer.value.1 ==>
                answer.value.0 in messages && answer.value.0.sender == user && answer.value.0.id == Chosen(id) && answer.value.0.body == Text(content)
      ensures !(answer.Done? && !answer.value.1) ==> Contents() == old(Contents())
      ensures answer.Done? ==> user in old(members) && old(members)[user].active && user in old(readers) && old(readers)[user].active
      ensures (user in old(members) && old(members)[user].active && user in old(readers) && old(readers)[user].active
               && old(lastSeq) < MAX_UINT64 && forall m :: m in old(messages) ==> m.sender != user || m.id != Chosen(id)) ==> answer.Done?
    {
      if user !in members || !members[user].active || user !in readers || !readers[user].active {
        return Refused(Missing);
      }
      var existing := Find(messages, user, Chosen(id));
      if existing.Some? {
        if existing.value.body != Text(content) {
          return Refused(IdempotencyConflict);
        }
        return Done((existing.value, true));
      }
      if lastSeq >= MAX_UINT64 {
        return Refused(Exhausted);
      }
      var message := Message(lastSeq + 1, user, Chosen(id), Text(content));
      messages, lastSeq := messages + [message], message.number;
      if readers[user].lastRead < message.number {
        readers := readers[user := readers[user].(lastRead := message.number)];
      }
      return Done((message, false));
    }

    method MarkRead(user: nat, requested: nat) returns (answer: Answer<nat>)
      modifies this`readers
      ensures (Contents(), answer) == Groups.MarkRead(old(Contents()), user, requested)
      ensures answer.Done? <==> requested <= lastSeq && user in old(readers) && old(readers)[user].active
      ensures answer.Done? ==>
                var mark := if old(readers)[user].lastRead < requested then requested else old(readers)[user].lastRead;
                answer == Done(mark) && readers == old(readers)[user := old(readers)[user].(lastRead := mark)]
      ensures !answer.Done? ==> readers == old(readers)
    {
      if requested > lastSeq {
        return Refused(ReadConflict);
      }
      if user !in readers || !readers[user].active {
        return Refused(Missing);
      }
      if requested > readers[user].lastRead {
        readers := readers[user := readers[user].(lastRead := requested)];
      }
      return Done(readers[user].lastRead);
    }
  }

  class GroupService {
    const groups: GroupRepo

    constructor (groups: GroupRepo)
      ensures this.groups == groups
    {
      this.groups := groups;
    }

    /** The request is checked and repetitions are dropped before the repository sees it. */
    method Invite(actor: nat, targets: seq<nat>, expected: nat, friends: set<nat>) returns (answer: Answer<bool>)
      modifies groups
      ensures (groups.Contents(), answer) == RequestInvite(old(groups.Contents()), actor, targets, expected, friends)
      ensures answer == Refused(BadRequest) <==>
                actor == 0 || expected == 0 || |targets| == 0 || |targets| > 20 || 0 in targets || actor in targets
    {
      if actor == 0 || expected == 0 || targets == [] || |targets| > MAX_INVITED {
        return Refused(BadRequest);
      }
      var seen: set<nat>, unique: seq<nat> := {}, [];
      for i := 0 to |targets|
        invariant unique == Unique(targets[..i]) && forall u :: u in seen <==> u in unique
        invariant 0 !in targets[..i] && actor !in targets[..i]
      {
        if targets[i] == 0 || targets[i] == actor {
          return Refused(BadRequest);
        }
        assert targets[..i + 1][..i] == targets[..i];
        if targets[i] !in seen {
          seen, unique := seen + {targets[i]}, unique + [targets[i]];
        }
      }
      assert targets[..|targets|] == targets;
      answer := groups.Invite(actor, unique, expected, friends);
    }
  }
}
