/**
 A chat group, its conversation mirror and the numbered messages: every mutation is fenced by the
 group's version, membership is written twice, and user and system messages share one sequence.
 */
module Groups {
  import opened MemoryModel

  datatype Role = Owner | Admin | Member

  datatype Membership = Membership(role: Role, active: bool)

  /** A conversation member: the mirror of a membership, and how far the user has read. */
  datatype Reader = Reader(role: Role, active: bool, lastRead: nat)

  /** A client names its own messages; a system message gets a UUID nobody else uses. */
  datatype MessageId = Chosen(text: string) | Generated(serial: nat)

  datatype EventKind = Created | NameChanged | AvatarChanged | Joined | RoleChanged | Removed | Left | Transferred

  datatype Body = Text(content: string) | Event(kind: EventKind, target: nat, version: nat)

  datatype Message = Message(number: nat, sender: nat, id: MessageId, body: Body)

  datatype Group = Group(owner: nat, version: nat, name: string, avatar: string, members: map<nat, Membership>,
                         readers: map<nat, Reader>, lastSeq: nat, messages: seq<Message>)

  datatype Refusal = BadRequest | Missing | VersionConflict | PermissionDenied | OwnerConflict | MemberLimit
                   | FriendshipRequired | Drift | Exhausted | IdempotencyConflict | ReadConflict

  datatype Answer<+T> = Done(value: T) | Refused(why: Refusal)

  const MAX_MEMBERS: nat := 50
  const MAX_INVITED: nat := 20

  predicate Active(g: Group, user: nat) {
    user in g.members && g.members[user].active
  }

  /** requireConversationMember. */
  predicate Mirrored(g: Group, user: nat)
    requires user in g.members
  {
    user in g.readers && g.readers[user].active && g.readers[user].role == g.members[user].role
  }

  predicate Unmirrored(g: Group, user: nat) {
    Active(g, user) && !Mirrored(g, user)
  }

  function ActiveMembers(g: Group): set<nat> {
    set u | u in g.members && g.members[u].active
  }

  // ---------------------------------------------------------------- messages

  /** GREATEST(last_read_seq, seq) on the sender's row. */
  function Read(readers: map<nat, Reader>, user: nat, mark: nat): map<nat, Reader> {
    if user in readers && readers[user].lastRead < mark then readers[user := readers[user].(lastRead := mark)] else readers
  }

  function Posted(g: Group, sender: nat, id: MessageId, body: Body): Group {
    g.(lastSeq := g.lastSeq + 1, messages := g.messages + [Message(g.lastSeq + 1, sender, id, body)],
       readers := Read(g.readers, sender, g.lastSeq + 1))
  }

  /** appendGroupSystemMessage. */
  function Announced(g: Group, actor: nat, kind: EventKind, target: nat): Group {
    Posted(g, actor, Generated(g.lastSeq + 1), Event(kind, target, g.version))
  }

  /** One announcement per target, in order. */
  function AllAnnounced(g: Group, actor: nat, kind: EventKind, targets: seq<nat>): Group {
    if targets == [] then g
    else Announced(AllAnnounced(g, actor, kind, targets[..|targets| - 1]), actor, kind, targets[|targets| - 1])
  }

  predicate Room(g: Group, count: nat) {
    g.lastSeq + count <= MAX_UINT64
  }

  function Create(owner: nat, name: string, avatar: string): Group {
    Announced(Group(owner, 1, name, avatar, map[owner := Membership(Owner, true)], map[owner := Reader(Owner, true, 0)], 0, []),
              owner, Created, 0)
  }

  // ---------------------------------------------------------------- mutations

  /** What every mutation checks first: the version, and that the actor is an active, mirrored member. */
  function Fenced(g: Group, actor: nat, expected: nat): Option<Refusal> {
    if g.version != expected then Some(VersionConflict)
    else if !Active(g, actor) then Some(Missing)
    else if !Mirrored(g, actor) then Some(Drift)
    else None
  }

  /** What an update really changes. */
  function Profile(g: Group, name: Option<string>, avatar: Option<string>): (Group, seq<EventKind>) {
    (g.(name := if name.Some? then name.value else g.name, avatar := if avatar.Some? then avatar.value else g.avatar),
     (if name.Some? && name.value != g.name then [NameChanged] else []) + (if avatar.Some? && avatar.value != g.avatar then [AvatarChanged] else []))
  }

  function Update(g: Group, actor: nat, expected: nat, name: Option<string>, avatar: Option<string>): (Group, Answer<bool>) {
    if Fenced(g, actor, expected).Some? then (g, Refused(Fenced(g, actor, expected).value))
    else if g.members[actor].role != Owner then (g, Refused(PermissionDenied))
    else
      var (updated, kinds) := Profile(g, name, avatar);
      if kinds == [] then (g, Done(false))
      else if !Room(g, |kinds|) then (g, Refused(Exhausted))
      else
        var n := updated.(version := g.version + 1);
        var first := Announced(n, actor, kinds[0], 0);
        (if |kinds| == 1 then first else Announced(first, actor, kinds[1], 0), Done(true))
  }

  /** One insertion of the sort. */
  function Inserted(order: seq<nat>, x: nat): (r: seq<nat>)
    ensures |r| == |order| + 1 && forall y :: y in r <==> y == x || y in order
  {
    if order == [] then [x]
    else if x <= order[0] then [x] + order
    else [order[0]] + Inserted(order[1..], x)
  }

  predicate Ascending(order: seq<nat>) {
    forall i, j :: 0 <= i < j < |order| ==> order[i] <= order[j]
  }

  predicate Increasing(order: seq<nat>) {
    forall i, j :: 0 <= i < j < |order| ==> order[i] < order[j]
  }

  lemma {:induction false} InsertedAscending(order: seq<nat>, x: nat)
    requires Ascending(order)
    ensures Ascending(Inserted(order, x))
    decreases |order|
  {
    if order != [] && x > order[0] {
      var rest := Inserted(order[1..], x);
      InsertedAscending(order[1..], x);
      forall k | 0 <= k < |rest| ensures order[0] <= rest[k] {
        assert rest[k] in rest;
      }
    }
  }

  lemma {:induction false} InsertedIncreasing(order: seq<nat>, x: nat)
    requires Increasing(order) && x !in order
    ensures Increasing(Inserted(order, x))
    decreases |order|
  {
    if order != [] && x > order[0] {
      var rest := Inserted(order[1..], x);
      InsertedIncreasing(order[1..], x);
      forall k | 0 <= k < |rest| ensures order[0] < rest[k] {
        assert rest[k] in rest;
      }
    }
  }

  /** The requested users in order, as often as they were named. */
  function Arranged(targets: seq<nat>): (r: seq<nat>)
    ensures |r| == |targets| && Ascending(r) && forall y :: y in r <==> y in targets
  {
    if targets == [] then []
    else
      InsertedAscending(Arranged(targets[..|targets| - 1]), targets[|targets| - 1]);
      Inserted(Arranged(targets[..|targets| - 1]), targets[|targets| - 1])
  }

  predicate Distinct(targets: seq<nat>) {
    forall i, j :: 0 <= i < j < |targets| ==> targets[i] != targets[j]
  }

  lemma {:induction false} ArrangedIncreasing(targets: seq<nat>)
    requires Distinct(targets)
    ensures Increasing(Arranged(targets))
    decreases |targets|
  {
    if targets != [] {
      ArrangedIncreasing(targets[..|targets| - 1]);
      InsertedIncreasing(Arranged(targets[..|targets| - 1]), targets[|targets| - 1]);
    }
  }

  /** Those of them who are not active members. */
  function Newcomers(g: Group, order: seq<nat>): seq<nat> {
    if order == [] then []
    else
      var last := order[|order| - 1];
      Newcomers(g, order[..|order| - 1]) + (if Active(g, last) then [] else [last])
  }

  lemma {:induction false} NewcomersAre(g: Group, order: seq<nat>)
    ensures forall y :: y in Newcomers(g, order) <==> y in order && !Active(g, y)
    ensures Increasing(order) ==> Increasing(Newcomers(g, order))
    decreases |order|
  {
    if order != [] {
      var front := order[..|order| - 1];
      var rest := Newcomers(g, front);
      NewcomersAre(g, front);
      assert order == front + [order[|order| - 1]];
      if Increasing(order) {
        forall k | 0 <= k < |rest| ensures rest[k] < order[|order| - 1] {
          assert rest[k] in rest && rest[k] in front;
        }
      }
    }
  }

  function Admitted(members: map<nat, Membership>, users: seq<nat>): map<nat, Membership> {
    if users == [] then members
    else Admitted(members, users[..|users| - 1])[users[|users| - 1] := Membership(Member, true)]
  }

  /** Somebody who comes back keeps the read mark. */
  function Welcomed(readers: map<nat, Reader>, user: nat): map<nat, Reader> {
    readers[user := Reader(Member, true, if user in readers then readers[user].lastRead else 0)]
  }

  function AllWelcomed(readers: map<nat, Reader>, users: seq<nat>): map<nat, Reader> {
    if users == [] then readers else Welcomed(AllWelcomed(readers, users[..|users| - 1]), users[|users| - 1])
  }

  function Joint(g: Group, joining: seq<nat>): Group {
    g.(members := Admitted(g.members, joining), readers := AllWelcomed(g.readers, joining), version := g.version + 1)
  }

  function Entered(g: Group, actor: nat, joining: seq<nat>): Group {
    AllAnnounced(Joint(g, joining), actor, Joined, joining)
  }

  /** All newcomers enter, or nobody does. */
  function Admission(g: Group, actor: nat, order: seq<nat>, friends: set<nat>): (Group, Answer<bool>) {
    var joining := Newcomers(g, order);
    if exists i :: 0 <= i < |order| && Unmirrored(g, order[i]) then (g, Refused(Drift))
    else if |ActiveMembers(g)| + |joining| > MAX_MEMBERS then (g, Refused(MemberLimit))
    else if exists u :: u in joining && u !in friends then (g, Refused(FriendshipRequired))
    else if joining == [] then (g, Done(false))
    else if !Room(g, |joining|) then (g, Refused(Exhausted))
    else (Entered(g, actor, joining), Done(true))
  }

  /**
   The repository's invitation.  `friends` are the existing users with whom the actor has an accepted
   friendship; an actor among the targets is an active member like any other.
   */
  function Invite(g: Group, actor: nat, targets: seq<nat>, expected: nat, friends: set<nat>): (Group, Answer<bool>) {
    if Fenced(g, actor, expected).Some? then (g, Refused(Fenced(g, actor, expected).value))
    else if g.members[actor].role.Member? then (g, Refused(PermissionDenied))
    else Admission(g, actor, Arranged(targets), friends)
  }

  /** The first mention of every user. */
  function Unique(targets: seq<nat>): (r: seq<nat>)
    ensures Distinct(r) && |r| <= |targets| && forall y :: y in r <==> y in targets
  {
    if targets == [] then []
    else
      var front, last := Unique(targets[..|targets| - 1]), targets[|targets| - 1];
      if last in front then front else front + [last]
  }

  predicate InvitationValid(actor: nat, targets: seq<nat>, expected: nat) {
    actor != 0 && expected != 0 && 0 < |targets| <= MAX_INVITED && 0 !in targets && actor !in targets
  }

  /** What the service makes of an invitation. */
  function RequestInvite(g: Group, actor: nat, targets: seq<nat>, expected: nat, friends: set<nat>): (Group, Answer<bool>) {
    if !InvitationValid(actor, targets, expected) then (g, Refused(BadRequest))
    else Invite(g, actor, Unique(targets), expected, friends)
  }

  function SetRole(g: Group, actor: nat, target: nat, role: Role, expected: nat): (Group, Answer<bool>) {
    if role.Owner? then (g, Refused(BadRequest))
    else if Fenced(g, actor, expected).Some? then (g, Refused(Fenced(g, actor, expected).value))
    else if g.members[actor].role != Owner || target == actor then (g, Refused(PermissionDenied))
    else if !Active(g, target) then (g, Refused(Missing))
    else if g.members[target].role.Owner? then (g, Refused(OwnerConflict))
    else if !Mirrored(g, target) then (g, Refused(Drift))
    else if g.members[target].role == role then (g, Done(false))
    else if !Room(g, 1) then (g, Refused(Exhausted))
    else
      (Announced(g.(members := g.members[target := Membership(role, true)],
                    readers := g.readers[target := g.readers[target].(role := role)], version := g.version + 1),
                 actor, RoleChanged, target), Done(true))
  }

  /** Why an active target may not be removed. */
  function Kept(g: Group, actor: nat, target: nat): Option<Refusal>
    requires Active(g, actor) && Active(g, target)
  {
    var mine, theirs := g.members[actor].role, g.members[target].role;
    if target == actor then (if theirs.Owner? then Some(OwnerConflict) else None)
    else if mine.Owner? then (if theirs.Owner? then Some(OwnerConflict) else None)
    else if mine.Admin? then (if theirs.Member? then None else Some(PermissionDenied))
    else Some(PermissionDenied)
  }

  function Remove(g: Group, actor: nat, target: nat, expected: nat): (Group, Answer<bool>) {
    if Fenced(g, actor, expected).Some? then (g, Refused(Fenced(g, actor, expected).value))
    else if target !in g.members then
      (g, if g.members[actor].role.Member? then Refused(Missing) else Done(false))
    else if !g.members[target].active then (g, Done(false))
    else if Kept(g, actor, target).Some? then (g, Refused(Kept(g, actor, target).value))
    else if target !in g.readers || !g.readers[target].active then (g, Refused(Drift))
    else if !Room(g, 1) then (g, Refused(Exhausted))
    else
      (Announced(g.(members := g.members[target := Membership(Member, false)],
                    readers := g.readers[target := g.readers[target].(role := Member, active := false)],
                    version := g.version + 1),
                 actor, if target == actor then Left else Removed, target), Done(true))
  }

  function Transfer(g: Group, actor: nat, target: nat, expected: nat): (Group, Answer<bool>) {
    if Fenced(g, actor, expected).Some? then (g, Refused(Fenced(g, actor, expected).value))
    else if g.members[actor].role != Owner then (g, Refused(PermissionDenied))
    else if target == actor then (g, Done(false))
    else if !Active(g, target) then (g, Refused(OwnerConflict))
    else if !Mirrored(g, target) then (g, Refused(Drift))
    else if !Room(g, 1) then (g, Refused(Exhausted))
    else
      (Announced(g.(owner := target,
                    members := g.members[actor := Membership(Member, true)][target := Membership(Owner, true)],
                    readers := g.readers[actor := g.readers[actor].(role := Member)][target := g.readers[target].(role := Owner)],
                    version := g.version + 1),
                 actor, Transferred, target), Done(true))
  }

  // ---------------------------------------------------------------- chatting

  predicate IsFrom(m: Message, user: nat, id: MessageId) {
    m.sender == user && m.id == id
  }

  function Find(messages: seq<Message>, user: nat, id: MessageId): (r: Option<Message>)
    ensures r.Some? ==> r.value in messages && IsFrom(r.value, user, id)
    ensures r.None? ==> forall m :: m in messages ==> !IsFrom(m, user, id)
  {
    if messages == [] then None
    else if IsFrom(messages[0], user, id) then Some(messages[0])
    else Find(messages[1..], user, id)
  }

  /** SendMessage: the answer holds the message and whether it had been sent before. */
  function SendMessage(g: Group, user: nat, id: string, content: string): (Group, Answer<(Message, bool)>) {
    if !Active(g, user) || user !in g.readers || !g.readers[user].active then (g, Refused(Missing))
    else
      var existing := Find(g.messages, user, Chosen(id));
      if existing.Some? then
        (g, if existing.value.body == Text(content) then Done((existing.value, true)) else Refused(IdempotencyConflict))
      else if !Room(g, 1) then (g, Refused(Exhausted))
      else (Posted(g, user, Chosen(id), Text(content)), Done((Message(g.lastSeq + 1, user, Chosen(id), Text(content)), false)))
  }

  /** MarkRead: the answer is the read mark afterwards. */
  function MarkRead(g: Group, user: nat, requested: nat): (Group, Answer<nat>) {
    if requested > g.lastSeq then (g, Refused(ReadConflict))
    else if user !in g.readers || !g.readers[user].active then (g, Refused(Missing))
    else
      var n := g.(readers := Read(g.readers, user, requested));
      (n, Done(n.readers[user].lastRead))
  }

  datatype Request =
    | UpdateGroup(actor: nat, expected: nat, name: Option<string>, avatar: Option<string>)
    | InviteMembers(actor: nat, targets: seq<nat>, expected: nat, friends: set<nat>)
    | SetMemberRole(actor: nat, target: nat, role: Role, expected: nat)
    | RemoveMember(actor: nat, target: nat, expected: nat)
    | TransferOwner(actor: nat, target: nat, expected: nat)
    | Send(actor: nat, id: string, content: string)
    | Mark(actor: nat, requested: nat)

  function Next(g: Group, q: Request): Group {
    match q
    case UpdateGroup(actor, expected, name, avatar) => Update(g, actor, expected, name, avatar).0
    case InviteMembers(actor, targets, expected, friends) => Invite(g, actor, targets, expected, friends).0
    case SetMemberRole(actor, target, role, expected) => SetRole(g, actor, target, role, expected).0
    case RemoveMember(actor, target, expected) => Remove(g, actor, target, expected).0
    case TransferOwner(actor, target, expected) => Transfer(g, actor, target, expected).0
    case Send(actor, id, content) => SendMessage(g, actor, id, content).0
    case Mark(actor, requested) => MarkRead(g, actor, requested).0
  }

  function Run(g: Group, requests: seq<Request>): Group
    decreases |requests|
  {
    if requests == [] then g else Run(Next(g, requests[0]), requests[1..])
  }

  // ---------------------------------------------------------------- the invariant

  /** Exactly one active owner, the one the group names. */
  predicate OneOwner(members: map<nat, Membership>, owner: nat) {
    && owner in members && members[owner] == Membership(Owner, true)
    && forall u :: u in members && u != owner ==> !members[u].role.Owner?
  }

  /** Both tables hold the same users with the same status and role. */
  predicate SameMembers(members: map<nat, Membership>, readers: map<nat, Reader>) {
    && members.Keys == readers.Keys
    && forall u :: u in members ==> members[u].role == readers[u].role && members[u].active == readers[u].active
  }

  predicate Numbered(messages: seq<Message>, last: nat) {
    && |messages| == last
    && forall i :: 0 <= i < |messages| ==> messages[i].number == i + 1 && (messages[i].id.Generated? ==> messages[i].id.serial == i + 1)
  }

  predicate MarksWithin(readers: map<nat, Reader>, last: nat) {
    forall u :: u in readers ==> readers[u].lastRead <= last
  }

  predicate NoRepeats(messages: seq<Message>) {
    forall i, j {:trigger messages[i], messages[j]} :: 0 <= i < j < |messages| ==> !IsFrom(messages[j], messages[i].sender, messages[i].id)
  }

  predicate Inv(g: Group) {
    && OneOwner(g.members, g.owner)
    && SameMembers(g.members, g.readers)
    && |ActiveMembers(g)| <= MAX_MEMBERS
    && Numbered(g.messages, g.lastSeq)
    && MarksWithin(g.readers, g.lastSeq)
    && NoRepeats(g.messages)
  }

  lemma CreateOk(owner: nat, name: string, avatar: string)
    ensures Inv(Create(owner, name, avatar))
  {
    assert ActiveMembers(Create(owner, name, avatar)) == {owner};
  }

  /** Posting a message nobody has sent keeps everything. */
  lemma PostedKeeps(g: Group, sender: nat, id: MessageId, body: Body)
    requires Inv(g) && (id.Generated? ==> id.serial == g.lastSeq + 1)
    requires id.Chosen? ==> forall m :: m in g.messages ==> !IsFrom(m, sender, id)
    ensures Inv(Posted(g, sender, id, body))
  {
    var n := Posted(g, sender, id, body);
    assert ActiveMembers(n) == ActiveMembers(g);
    forall i, j | 0 <= i < j < |n.messages| ensures !IsFrom(n.messages[j], n.messages[i].sender, n.messages[i].id) {
      if j == |g.messages| {
        assert g.messages[i] in g.messages;
      }
    }
  }

  lemma {:induction false} AllAnnouncedKeeps(g: Group, actor: nat, kind: EventKind, targets: seq<nat>)
    requires Inv(g)
    ensures Inv(AllAnnounced(g, actor, kind, targets))
    ensures AllAnnounced(g, actor, kind, targets).lastSeq == g.lastSeq + |targets|
    ensures AllAnnounced(g, actor, kind, targets).version == g.version
    ensures g.messages <= AllAnnounced(g, actor, kind, targets).messages
    decreases |targets|
  {
    if targets != [] {
      AllAnnouncedKeeps(g, actor, kind, targets[..|targets| - 1]);
      var before := AllAnnounced(g, actor, kind, targets[..|targets| - 1]);
      PostedKeeps(before, actor, Generated(before.lastSeq + 1), Event(kind, targets[|targets| - 1], before.version));
    }
  }

  lemma {:induction false} AdmittedIs(members: map<nat, Membership>, readers: map<nat, Reader>, users: seq<nat>)
    ensures var m := Admitted(members, users);
      && (forall u :: u in m <==> u in members || u in users)
      && (forall u :: u in m ==> m[u] == if u in users then Membership(Member, true) else members[u])
    ensures var r := AllWelcomed(readers, users);
      && (forall u :: u in r <==> u in readers || u in users)
      && (forall u :: u in r ==> r[u] == if u in users then Reader(Member, true, if u in readers then readers[u].lastRead else 0) else readers[u])
    decreases |users|
  {
    if users != [] {
      AdmittedIs(members, readers, users[..|users| - 1]);
    }
  }

  lemma {:induction false} SetOf(users: seq<nat>) returns (s: set<nat>)
    ensures |s| <= |users| && forall u :: u in s <==> u in users
    ensures Increasing(users) ==> |s| == |users|
    decreases |users|
  {
    if users == [] {
      s := {};
    } else {
      var last := users[|users| - 1];
      var front := SetOf(users[..|users| - 1]);
      assert Increasing(users) ==> last !in front;
      s := front + {last};
    }
  }

  lemma JoinedCount(g: Group, joining: seq<nat>)
    requires forall u :: u in joining ==> !Active(g, u)
    ensures |ActiveMembers(Joint(g, joining))| <= |ActiveMembers(g)| + |joining|
    ensures Increasing(joining) ==> |ActiveMembers(Joint(g, joining))| == |ActiveMembers(g)| + |joining|
  {
    AdmittedIs(g.members, g.readers, joining);
    var s := SetOf(joining);
    assert ActiveMembers(Joint(g, joining)) == ActiveMembers(g) + s;
    assert ActiveMembers(g) !! s;
  }

  /** The joined group: everybody who joined counts once, however often named. */
  lemma JoinedKeeps(g: Group, joining: seq<nat>)
    requires Inv(g) && (forall u :: u in joining ==> !Active(g, u))
    requires |ActiveMembers(g)| + |joining| <= MAX_MEMBERS
    ensures Inv(Joint(g, joining))
    ensures Increasing(joining) ==> |ActiveMembers(Joint(g, joining))| == |ActiveMembers(g)| + |joining|
  {
    AdmittedIs(g.members, g.readers, joining);
    JoinedCount(g, joining);
    assert Active(g, g.owner);
  }

  /** Changing one membership and its mirror, when the owner stays. */
  lemma ChangedKeeps(g: Group, target: nat, role: Role, active: bool)
    requires Inv(g) && Active(g, target) && target != g.owner && !role.Owner?
    ensures Inv(g.(members := g.members[target := Membership(role, active)],
                   readers := g.readers[target := g.readers[target].(role := role, active := active)], version := g.version + 1))
  {
    var n := g.(members := g.members[target := Membership(role, active)],
                readers := g.readers[target := g.readers[target].(role := role, active := active)], version := g.version + 1);
    assert ActiveMembers(n) == if active then ActiveMembers(g) else ActiveMembers(g) - {target};
  }

  lemma TransferredKeeps(g: Group, target: nat)
    requires Inv(g) && Active(g, target) && target != g.owner
    ensures Inv(g.(owner := target,
                   members := g.members[g.owner := Membership(Member, true)][target := Membership(Owner, true)],
                   readers := g.readers[g.owner := g.readers[g.owner].(role := Member)][target := g.readers[target].(role := Owner)],
                   version := g.version + 1))
  {
    var n := g.(owner := target,
                members := g.members[g.owner := Membership(Member, true)][target := Membership(Owner, true)],
                readers := g.readers[g.owner := g.readers[g.owner].(role := Member)][target := g.readers[target].(role := Owner)],
                version := g.version + 1);
    assert ActiveMembers(n) == ActiveMembers(g);
  }

  lemma ProfileKeeps(g: Group, name: string, avatar: string)
    requires Inv(g)
    ensures Inv(g.(name := name, avatar := avatar, version := g.version + 1))
  {
    assert ActiveMembers(g.(name := name, avatar := avatar, version := g.version + 1)) == ActiveMembers(g);
  }

  lemma AnnouncedKeeps(g: Group, actor: nat, kind: EventKind, target: nat)
    requires Inv(g)
    ensures Inv(Announced(g, actor, kind, target))
  {
    PostedKeeps(g, actor, Generated(g.lastSeq + 1), Event(kind, target, g.version));
  }

  lemma UpdateKeeps(g: Group, actor: nat, expected: nat, name: Option<string>, avatar: Option<string>)
    requires Inv(g)
    ensures Inv(Update(g, actor, expected, name, avatar).0)
  {
    var (updated, kinds) := Profile(g, name, avatar);
    ProfileKeeps(g, updated.name, updated.avatar);
    forall m: Group, kind | Inv(m) ensures Inv(Announced(m, actor, kind, 0)) {
      AnnouncedKeeps(m, actor, kind, 0);
    }
  }

  lemma InviteKeeps(g: Group, actor: nat, targets: seq<nat>, expected: nat, friends: set<nat>)
    requires Inv(g)
    ensures Inv(Invite(g, actor, targets, expected, friends).0)
  {
    NewcomersAre(g, Arranged(targets));
    var joining := Newcomers(g, Arranged(targets));
    if |ActiveMembers(g)| + |joining| <= MAX_MEMBERS {
      EnteredKeeps(g, actor, joining);
    }
    InviteEnters(g, actor, targets, expected, friends);
  }

  lemma EnteredKeeps(g: Group, actor: nat, joining: seq<nat>)
    requires Inv(g) && (forall u :: u in joining ==> !Active(g, u))
    requires |ActiveMembers(g)| + |joining| <= MAX_MEMBERS
    ensures Inv(Entered(g, actor, joining))
  {
    JoinedKeeps(g, joining);
    AllAnnouncedKeeps(Joint(g, joining), actor, Joined, joining);
  }

  /** An invitation either changes nothing or lets in all newcomers. */
  lemma InviteEnters(g: Group, actor: nat, targets: seq<nat>, expected: nat, friends: set<nat>)
    ensures var joining := Newcomers(g, Arranged(targets));
      var (n, answer) := Invite(g, actor, targets, expected, friends);
      if answer == Done(true) then n == Entered(g, actor, joining) && |ActiveMembers(g)| + |joining| <= MAX_MEMBERS && joining != []
                                   && g.version == expected
      else n == g
  {
  }

  lemma SetRoleKeeps(g: Group, actor: nat, target: nat, role: Role, expected: nat)
    requires Inv(g)
    ensures Inv(SetRole(g, actor, target, role, expected).0)
  {
    if SetRole(g, actor, target, role, expected).0 != g {
      ChangedKeeps(g, target, role, true);
      AnnouncedKeeps(g.(members := g.members[target := Membership(role, true)],
                        readers := g.readers[target := g.readers[target].(role := role)], version := g.version + 1),
                     actor, RoleChanged, target);
    }
  }

  lemma RemoveKeeps(g: Group, actor: nat, target: nat, expected: nat)
    requires Inv(g)
    ensures Inv(Remove(g, actor, target, expected).0)
  {
    if Remove(g, actor, target, expected).0 != g {
      ChangedKeeps(g, target, Member, false);
      AnnouncedKeeps(g.(members := g.members[target := Membership(Member, false)],
                        readers := g.readers[target := g.readers[target].(role := Member, active := false)],
                        version := g.version + 1),
                     actor, if target == actor then Left else Removed, target);
    }
  }

  lemma TransferKeeps(g: Group, actor: nat, target: nat, expected: nat)
    requires Inv(g)
    ensures Inv(Transfer(g, actor, target, expected).0)
  {
    if Transfer(g, actor, target, expected).0 != g {
      assert actor == g.owner;
      TransferredKeeps(g, target);
      AnnouncedKeeps(g.(owner := target,
                        members := g.members[actor := Membership(Member, true)][target := Membership(Owner, true)],
                        readers := g.readers[actor := g.readers[actor].(role := Member)][target := g.readers[target].(role := Owner)],
                        version := g.version + 1),
                     actor, Transferred, target);
    }
  }

  lemma SendKeeps(g: Group, user: nat, id: string, content: string)
    requires Inv(g)
    ensures Inv(SendMessage(g, user, id, content).0)
  {
    if Find(g.messages, user, Chosen(id)).None? {
      PostedKeeps(g, user, Chosen(id), Text(content));
    }
  }

  lemma MarkKeeps(g: Group, user: nat, requested: nat)
    requires Inv(g)
    ensures Inv(MarkRead(g, user, requested).0)
  {
    assert ActiveMembers(MarkRead(g, user, requested).0) == ActiveMembers(g);
  }

  lemma NextKeeps(g: Group, q: Request)
    requires Inv(g)
    ensures Inv(Next(g, q))
  {
    match q
    case UpdateGroup(actor, expected, name, avatar) => UpdateKeeps(g, actor, expected, name, avatar);
    case InviteMembers(actor, targets, expected, friends) => InviteKeeps(g, actor, targets, expected, friends);
    case SetMemberRole(actor, target, role, expected) => SetRoleKeeps(g, actor, target, role, expected);
    case RemoveMember(actor, target, expected) => RemoveKeeps(g, actor, target, expected);
    case TransferOwner(actor, target, expected) => TransferKeeps(g, actor, target, expected);
    case Send(actor, id, content) => SendKeeps(g, actor, id, content);
    case Mark(actor, requested) => MarkKeeps(g, actor, requested);
  }

  /**
   Over every run: one active owner, the one the group names; both membership tables agree; at most
   fifty active members; messages numbered 1, 2, ... without a gap; no read mark beyond the last one.
   */
  lemma {:induction false} RunKeeps(g: Group, requests: seq<Request>)
    requires Inv(g)
    ensures Inv(Run(g, requests))
    decreases |requests|
  {
    if requests != [] {
      NextKeeps(g, requests[0]);
      RunKeeps(Next(g, requests[0]), requests[1..]);
    }
  }
}
