/**
 * The session registry. The four tables of the Java component are the value
 * `Registry`; the functions `AddUser`, `AddClient`, `Remove` and the send
 * functions say what each operation does to them, and the class
 * `ConnectionManager` holds the tables as fields and is proved against those
 * functions. A `CopyOnWriteArraySet` is a duplicate-free sequence in insertion
 * order; a `ConcurrentHashMap` is a map. Every operation is atomic.
 */
module Connections {
  import opened Wrappers
  import opened ChatMessages

  type UserId = string

  /** The query string of the URI a connection was opened with. */
  datatype Uri = Uri(query: Option<string>)

  /** One WebSocket connection. Identity is object identity; the two
      mutable fields are the entries of its attribute bag. */
  class Session {
    const uri: Option<Uri>
    var username: Option<string>
    var lastHeartbeat: Option<int>

    constructor (uri: Option<Uri>)
      ensures this.uri == uri && username.None? && lastHeartbeat.None?
    {
      this.uri := uri;
      username := None;
      lastHeartbeat := None;
    }
  }

  datatype Role = UserRole | ClientRole

  function RoleName(r: Role): (n: string)
    ensures n in {CLIENT_TYPE_USER, CLIENT_TYPE_CLIENT}
  {
    match r
    case UserRole => CLIENT_TYPE_USER
    case ClientRole => CLIENT_TYPE_CLIENT
  }

  /** The transport, as far as a write sees it: `isOpen()` holds for the
      sessions in `open`, and a write to a session in `broken` throws. */
  datatype Network = Network(open: set<Session>, broken: set<Session>)

  predicate Writable(net: Network, s: Session) {
    s in net.open && s !in net.broken
  }

  predicate WriteFails(net: Network, s: Session) {
    s in net.open && s in net.broken
  }

  /** One frame written to one session. */
  datatype Delivery = Delivery(to: Session, msg: ChatMessage)

  // ------------------------------------------------------ ordered sets

  predicate NoDup(xs: seq<Session>) {
    forall i, j :: 0 <= i < j < |xs| ==> xs[i] != xs[j]
  }

  /** `CopyOnWriteArraySet.add`: appends when absent. */
  function Insert(xs: seq<Session>, x: Session): (r: seq<Session>)
    ensures x in r
    ensures forall y :: y in r ==> y in xs || y == x
    ensures forall y :: y in xs ==> y in r
    ensures NoDup(xs) ==> NoDup(r)
  {
    if x in xs then xs else xs + [x]
  }

  /** `CopyOnWriteArraySet.remove`: drops the element, keeping the order of the rest. */
  function Delete(xs: seq<Session>, x: Session): (r: seq<Session>)
    ensures forall y :: y in r ==> y in xs && y != x
    ensures forall y :: y in xs && y != x ==> y in r
    ensures |r| <= |xs|
    ensures x !in xs ==> r == xs
    ensures NoDup(xs) ==> NoDup(r)
  {
    if xs == [] then []
    else if xs[0] == x then Delete(xs[1..], x)
    else
      var d := Delete(xs[1..], x);
      assert NoDup(xs) ==> xs[0] !in xs[1..];
      [xs[0]] + d
  }

  // ------------------------------------------------------------ tables

  datatype Registry = Registry(
    userSessions: map<UserId, seq<Session>>,
    clientSessions: seq<Session>,
    sessionToUser: map<Session, UserId>,
    sessionTypes: map<Session, Role>)
  {
    function SessionsOf(u: UserId): seq<Session> {
      if u in userSessions then userSessions[u] else []
    }

    function UserConnectionCount(): nat {
      |userSessions|
    }

    function ClientConnectionCount(): nat {
      |clientSessions|
    }

    predicate HasUserConnections(u: UserId) {
      u in userSessions && |userSessions[u]| > 0
    }

    predicate HasClientConnections() {
      |clientSessions| > 0
    }

    function UserIdBySession(s: Session): Option<UserId> {
      if s in sessionToUser then Some(sessionToUser[s]) else None
    }

    function SessionType(s: Session): Option<Role> {
      if s in sessionTypes then Some(sessionTypes[s]) else None
    }

    /** `s` appears in none of the four tables. */
    predicate Untracked(s: Session) {
      && s !in sessionToUser
      && s !in sessionTypes
      && s !in clientSessions
      && (forall u :: u in userSessions ==> s !in userSessions[u])
    }
  }

  const EMPTY: Registry := Registry(map[], [], map[], map[])

  /**
   * The consistency the tables keep as long as every session is registered
   * at most once: the user sets are non-empty and duplicate-free, the
   * reverse maps agree with them, and the client set holds exactly the
   * sessions typed "client".
   */
  ghost predicate Wf(r: Registry) {
    UserSetsOk(r) && NoDup(r.clientSessions) && IndexOk(r) && ReverseOk(r) && UserTypesOk(r) && ClientTypesOk(r)
  }

  ghost predicate UserSetsOk(r: Registry) {
    forall u :: u in r.userSessions ==> NoDup(r.userSessions[u]) && |r.userSessions[u]| > 0
  }

  /** Every session in a user's set maps back to that user. */
  ghost predicate IndexOk(r: Registry) {
    forall u, s :: u in r.userSessions && s in r.userSessions[u] ==> s in r.sessionToUser && r.sessionToUser[s] == u
  }

  /** Every session-to-user entry is in that user's set. */
  ghost predicate ReverseOk(r: Registry) {
    forall s :: s in r.sessionToUser ==> r.sessionToUser[s] in r.userSessions && s in r.userSessions[r.sessionToUser[s]]
  }

  /** The sessions typed "user" are exactly those with a user. */
  ghost predicate UserTypesOk(r: Registry) {
    && (forall s :: s in r.sessionToUser ==> s in r.sessionTypes && r.sessionTypes[s] == UserRole)
    && (forall s :: s in r.sessionTypes && r.sessionTypes[s] == UserRole ==> s in r.sessionToUser)
  }

  /** The sessions typed "client" are exactly the client set. */
  ghost predicate ClientTypesOk(r: Registry) {
    && (forall s :: s in r.clientSessions ==> s in r.sessionTypes && r.sessionTypes[s] == ClientRole)
    && (forall s :: s in r.sessionTypes && r.sessionTypes[s] == ClientRole ==> s in r.clientSessions)
  }

  /** `addUserSession` (set semantics on the user's set). */
  function AddUser(r: Registry, u: UserId, s: Session): Registry {
    r.(userSessions := r.userSessions[u := Insert(r.SessionsOf(u), s)],
       sessionToUser := r.sessionToUser[s := u],
       sessionTypes := r.sessionTypes[s := UserRole])
  }

  /** `addClientSession`. */
  function AddClient(r: Registry, s: Session): Registry {
    r.(clientSessions := Insert(r.clientSessions, s),
       sessionTypes := r.sessionTypes[s := ClientRole])
  }

  /**
   * `removeSession`: both reverse entries go; then the session leaves its
   * user's set (dropping the user when the set empties) if it was typed
   * "user", or the client set if it was typed "client".
   */
  function Remove(r: Registry, s: Session): Registry {
    var userId := r.UserIdBySession(s);
    var typ := r.SessionType(s);
    var r1 := r.(sessionToUser := r.sessionToUser - {s}, sessionTypes := r.sessionTypes - {s});
    if typ == Some(UserRole) && userId.Some? then
      if userId.value in r.userSessions then
        var rest := Delete(r.userSessions[userId.value], s);
        if |rest| == 0 then r1.(userSessions := r.userSessions - {userId.value})
        else r1.(userSessions := r.userSessions[userId.value := rest])
      else r1
    else if typ == Some(ClientRole) then r1.(clientSessions := Delete(r.clientSessions, s))
    else r1
  }

  /** The frames a fan-out over `targets` writes: one per writable target, in order. */
  function Delivered(targets: seq<Session>, m: ChatMessage, net: Network): seq<Delivery> {
    if targets == [] then []
    else
      var last := targets[|targets| - 1];
      Delivered(targets[..|targets| - 1], m, net) + (if Writable(net, last) then [Delivery(last, m)] else [])
  }

  /** The registry after a fan-out over `targets`: each target whose write fails is removed. */
  function EvictFailed(r: Registry, targets: seq<Session>, net: Network): Registry {
    if targets == [] then r
    else
      var last := targets[|targets| - 1];
      var r' := EvictFailed(r, targets[..|targets| - 1], net);
      if WriteFails(net, last) then Remove(r', last) else r'
  }

  /** The registry together with every frame written so far. */
  datatype RelayState = RelayState(reg: Registry, out: seq<Delivery>)

  /** `sendMessage` to each of `targets` in turn, evicting on failure. */
  function Send(w: RelayState, targets: seq<Session>, m: ChatMessage, net: Network): RelayState {
    RelayState(EvictFailed(w.reg, targets, net), w.out + Delivered(targets, m, net))
  }

  /** Every session of the users in `order`, user by user. */
  function Flatten(r: Registry, order: seq<UserId>): seq<Session> {
    if order == [] then [] else Flatten(r, order[..|order| - 1]) + r.SessionsOf(order[|order| - 1])
  }

  /** `order` lists every key of `keys` exactly once: an iteration order of the map. */
  predicate Enumerates(order: seq<UserId>, keys: set<UserId>) {
    (forall i, j :: 0 <= i < j < |order| ==> order[i] != order[j])
    && (forall u :: u in order ==> u in keys)
    && (forall u :: u in keys ==> u in order)
  }

  // ----------------------------------------------- properties: adding

  /** Adding the same (user, session) pair twice leaves all four tables as adding it once. */
  lemma AddUserIdempotent(r: Registry, u: UserId, s: Session)
    ensures AddUser(AddUser(r, u, s), u, s) == AddUser(r, u, s)
  {
  }

  lemma AddUserQueries(r: Registry, u: UserId, s: Session)
    ensures AddUser(r, u, s).UserIdBySession(s) == Some(u)
    ensures AddUser(r, u, s).SessionType(s) == Some(UserRole)
    ensures AddUser(r, u, s).HasUserConnections(u)
    ensures s in AddUser(r, u, s).SessionsOf(u)
  {
  }

  /** `addClientSession` touches neither the user sets nor the session-to-user map. */
  lemma AddClientFrame(r: Registry, s: Session)
    ensures AddClient(r, s).userSessions == r.userSessions
    ensures AddClient(r, s).sessionToUser == r.sessionToUser
    ensures s in AddClient(r, s).clientSessions
    ensures AddClient(r, s).SessionType(s) == Some(ClientRole)
    ensures AddClient(r, s).HasClientConnections()
  {
  }

  lemma AddClientIdempotent(r: Registry, s: Session)
    ensures AddClient(AddClient(r, s), s) == AddClient(r, s)
  {
  }

  /** A user registration keeps the tables consistent when the session is new
      or is already registered under the same user. */
  lemma AddUserPreservesWf(r: Registry, u: UserId, s: Session)
    requires Wf(r)
    requires r.SessionType(s).None? || (r.SessionType(s) == Some(UserRole) && r.UserIdBySession(s) == Some(u))
    ensures Wf(AddUser(r, u, s))
  {
    assert r.UserIdBySession(s).None? || r.UserIdBySession(s) == Some(u);
    AddUserKeepsIndex(r, u, s);
    AddUserKeepsReverse(r, u, s);
    AddUserKeepsTypes(r, u, s);
  }

  lemma AddUserKeepsIndex(r: Registry, u: UserId, s: Session)
    requires IndexOk(r)
    requires r.UserIdBySession(s).None? || r.UserIdBySession(s) == Some(u)
    ensures IndexOk(AddUser(r, u, s))
  {
    var r' := AddUser(r, u, s);
    forall v, t | v in r'.userSessions && t in r'.userSessions[v]
      ensures t in r'.sessionToUser && r'.sessionToUser[t] == v
    {
      if t != s {
        if v == u {
          assert t in r.SessionsOf(u);
        } else {
          assert t in r.userSessions[v];
        }
      }
    }
  }

  lemma AddUserKeepsReverse(r: Registry, u: UserId, s: Session)
    requires ReverseOk(r)
    ensures ReverseOk(AddUser(r, u, s))
  {
    var r' := AddUser(r, u, s);
    forall t | t in r'.sessionToUser
      ensures r'.sessionToUser[t] in r'.userSessions && t in r'.userSessions[r'.sessionToUser[t]]
    {
      if t != s && r.sessionToUser[t] == u {
        assert t in r.SessionsOf(u);
      }
    }
  }

  lemma AddUserKeepsTypes(r: Registry, u: UserId, s: Session)
    requires UserSetsOk(r) && UserTypesOk(r) && ClientTypesOk(r)
    requires r.SessionType(s).None? || r.SessionType(s) == Some(UserRole)
    ensures UserSetsOk(AddUser(r, u, s)) && UserTypesOk(AddUser(r, u, s)) && ClientTypesOk(AddUser(r, u, s))
  {
    var r' := AddUser(r, u, s);
    assert s !in r.clientSessions;
    assert UserSetsOk(r') by {
      forall v | v in r'.userSessions ensures NoDup(r'.userSessions[v]) && |r'.userSessions[v]| > 0 {
        if v == u {
          assert NoDup(r.SessionsOf(u));
        }
      }
    }
  }

  lemma AddClientPreservesWf(r: Registry, s: Session)
    requires Wf(r)
    requires r.SessionType(s) != Some(UserRole)
    ensures Wf(AddClient(r, s))
  {
  }

  // --------------------------------------------- properties: removing

  /** Removal is idempotent: a close after a transport error changes nothing more. */
  lemma RemoveIdempotent(r: Registry, s: Session)
    ensures Remove(Remove(r, s), s) == Remove(r, s)
  {
  }

  /** Removing a session the registry never saw is a no-op. */
  lemma RemoveUnknown(r: Registry, s: Session)
    requires s !in r.sessionToUser && s !in r.sessionTypes
    ensures Remove(r, s) == r
  {
  }

  /** Removal leaves every other session's entries as they were. */
  lemma RemoveFrame(r: Registry, s: Session, t: Session, v: UserId)
    requires t != s
    ensures Remove(r, s).UserIdBySession(t) == r.UserIdBySession(t)
    ensures Remove(r, s).SessionType(t) == r.SessionType(t)
    ensures t in Remove(r, s).clientSessions <==> t in r.clientSessions
    ensures t in Remove(r, s).SessionsOf(v) <==> t in r.SessionsOf(v)
  {
  }

  /** No user key ever maps to an empty set, so the user count is the number
      of users with at least one session. */
  lemma NonEmptySetsPreserved(r: Registry, s: Session, u: UserId)
    requires forall v :: v in r.userSessions ==> |r.userSessions[v]| > 0
    ensures forall v :: v in Remove(r, s).userSessions ==> |Remove(r, s).userSessions[v]| > 0
    ensures forall v :: v in AddUser(r, u, s).userSessions ==> |AddUser(r, u, s).userSessions[v]| > 0
    ensures forall v :: v in AddClient(r, s).userSessions ==> |AddClient(r, s).userSessions[v]| > 0
  {
  }

  lemma UserCountCountsConnectedUsers(r: Registry)
    requires forall v :: v in r.userSessions ==> |r.userSessions[v]| > 0
    ensures r.UserConnectionCount() == |set u | u in r.userSessions && r.HasUserConnections(u)|
  {
    assert (set u | u in r.userSessions && r.HasUserConnections(u)) == r.userSessions.Keys;
  }

  /** On consistent tables removal erases every trace of the session and keeps the tables consistent. */
  lemma RemoveErases(r: Registry, s: Session)
    requires Wf(r)
    ensures Remove(r, s).Untracked(s)
    ensures Wf(Remove(r, s))
  {
    if r.SessionType(s) == Some(UserRole) {
      RemoveUserErases(r, s);
    } else if r.SessionType(s) == Some(ClientRole) {
      RemoveClientErases(r, s);
    } else {
      assert Remove(r, s) == r;
    }
  }

  lemma RemoveUserErases(r: Registry, s: Session)
    requires Wf(r)
    requires r.SessionType(s) == Some(UserRole)
    ensures Remove(r, s).Untracked(s)
    ensures Wf(Remove(r, s))
  {
    var u := r.sessionToUser[s];
    var rest := Delete(r.userSessions[u], s);
    var base := r.(sessionToUser := r.sessionToUser - {s}, sessionTypes := r.sessionTypes - {s});
    if |rest| == 0 {
      assert Remove(r, s) == base.(userSessions := r.userSessions - {u});
      RemoveUserCase(r, s, u, base.(userSessions := r.userSessions - {u}));
    } else {
      assert Remove(r, s) == base.(userSessions := r.userSessions[u := rest]);
      RemoveUserCase(r, s, u, base.(userSessions := r.userSessions[u := rest]));
    }
  }

  /** `r'` differs from consistent `r` only in dropping user session `s` of
      `u` from `u`'s set (and the key when the set empties) and from the
      reverse maps. */
  ghost predicate DropsUserSession(r: Registry, s: Session, u: UserId, r': Registry) {
    && Wf(r)
    && s in r.sessionToUser && r.sessionToUser[s] == u
    && r'.clientSessions == r.clientSessions
    && r'.sessionToUser == r.sessionToUser - {s}
    && r'.sessionTypes == r.sessionTypes - {s}
    && (forall v :: v in r'.userSessions ==> v in r.userSessions)
    && (forall v :: v in r.userSessions && v != u ==> v in r'.userSessions && r'.userSessions[v] == r.userSessions[v])
    && (u in r'.userSessions ==> r'.userSessions[u] == Delete(r.userSessions[u], s))
    && (u in r'.userSessions <==> Delete(r.userSessions[u], s) != [])
  }

  lemma RemoveUserCase(r: Registry, s: Session, u: UserId, r': Registry)
    requires DropsUserSession(r, s, u, r')
    ensures r'.Untracked(s)
    ensures Wf(r')
  {
    DropKeepsIndex(r, s, u, r');
    DropKeepsReverse(r, s, u, r');
    DropKeepsSets(r, s, u, r');
    DropKeepsTypes(r, s, u, r');
    DropUntracks(r, s, u, r');
  }

  lemma DropKeepsSets(r: Registry, s: Session, u: UserId, r': Registry)
    requires DropsUserSession(r, s, u, r')
    ensures UserSetsOk(r') && NoDup(r'.clientSessions)
  {
    forall v | v in r'.userSessions ensures NoDup(r'.userSessions[v]) && |r'.userSessions[v]| > 0 {
    }
  }

  lemma DropKeepsTypes(r: Registry, s: Session, u: UserId, r': Registry)
    requires DropsUserSession(r, s, u, r')
    ensures UserTypesOk(r') && ClientTypesOk(r')
  {
    assert s !in r.clientSessions;
  }

  lemma DropUntracks(r: Registry, s: Session, u: UserId, r': Registry)
    requires DropsUserSession(r, s, u, r')
    ensures r'.Untracked(s)
  {
    forall v | v in r'.userSessions ensures s !in r'.userSessions[v] {
      if v != u {
        assert s !in r.userSessions[v];
      }
    }
  }

  lemma DropKeepsIndex(r: Registry, s: Session, u: UserId, r': Registry)
    requires DropsUserSession(r, s, u, r')
    ensures forall v, t | v in r'.userSessions && t in r'.userSessions[v] ::
      t in r'.sessionToUser && r'.sessionToUser[t] == v
  {
    forall v, t | v in r'.userSessions && t in r'.userSessions[v]
      ensures t in r'.sessionToUser && r'.sessionToUser[t] == v
    {
      if v == u {
        assert t in r.userSessions[u] && t != s;
      } else {
        assert r'.userSessions[v] == r.userSessions[v];
      }
      assert r.sessionToUser[t] == v;
    }
  }

  lemma DropKeepsReverse(r: Registry, s: Session, u: UserId, r': Registry)
    requires DropsUserSession(r, s, u, r')
    ensures forall t | t in r'.sessionToUser ::
      r'.sessionToUser[t] in r'.userSessions && t in r'.userSessions[r'.sessionToUser[t]]
  {
    forall t | t in r'.sessionToUser
      ensures r'.sessionToUser[t] in r'.userSessions && t in r'.userSessions[r'.sessionToUser[t]]
    {
      var v := r.sessionToUser[t];
      if v == u {
        assert t in Delete(r.userSessions[u], s);
      }
    }
  }

  lemma RemoveClientErases(r: Registry, s: Session)
    requires Wf(r)
    requires r.SessionType(s) == Some(ClientRole)
    ensures Remove(r, s).Untracked(s)
    ensures Wf(Remove(r, s))
  {
    assert s !in r.sessionToUser;
    var r' := Remove(r, s);
    assert r'.userSessions == r.userSessions;
    assert r'.sessionToUser == r.sessionToUser - {s} == r.sessionToUser;
    assert r'.sessionTypes == r.sessionTypes - {s};
    assert r'.clientSessions == Delete(r.clientSessions, s);
    RemoveClientKeepsUsers(r, s, r');
    RemoveClientKeepsTypes(r, s, r');
    RemoveClientUntracked(r, s, r');
  }

  lemma RemoveClientKeepsUsers(r: Registry, s: Session, r': Registry)
    requires UserSetsOk(r) && NoDup(r.clientSessions) && IndexOk(r) && ReverseOk(r)
    requires r'.userSessions == r.userSessions && r'.sessionToUser == r.sessionToUser
    requires r'.clientSessions == Delete(r.clientSessions, s)
    ensures UserSetsOk(r') && NoDup(r'.clientSessions) && IndexOk(r') && ReverseOk(r')
  {
  }

  lemma RemoveClientKeepsTypes(r: Registry, s: Session, r': Registry)
    requires UserTypesOk(r) && ClientTypesOk(r) && s !in r.sessionToUser
    requires r'.sessionToUser == r.sessionToUser
    requires r'.sessionTypes == r.sessionTypes - {s} && r'.clientSessions == Delete(r.clientSessions, s)
    ensures UserTypesOk(r') && ClientTypesOk(r')
  {
  }

  lemma RemoveClientUntracked(r: Registry, s: Session, r': Registry)
    requires IndexOk(r) && s !in r.sessionToUser
    requires r'.userSessions == r.userSessions && r'.sessionToUser == r.sessionToUser
    requires r'.sessionTypes == r.sessionTypes - {s} && r'.clientSessions == Delete(r.clientSessions, s)
    ensures r'.Untracked(s)
  {
    forall u | u in r'.userSessions ensures s !in r'.userSessions[u] {
      assert s in r.userSessions[u] ==> s in r.sessionToUser;
    }
    assert s !in r'.clientSessions;
  }


  /** In consistent tables a session is a client or a user session, never both. */
  lemma RolesExclusive(r: Registry, s: Session, u: UserId)
    requires Wf(r)
    requires s in r.clientSessions
    ensures s !in r.SessionsOf(u) && s !in r.sessionToUser
  {
  }

  /**
   * A session that authenticates as a user and then as a client ends up typed
   * "client"; removing it then clears only the client set, and it stays in its
   * user's set for good.
   */
  lemma UserThenClientLeaks(u: UserId, s: Session)
    ensures var r := Remove(AddClient(AddUser(EMPTY, u, s), s), s);
      && s in r.SessionsOf(u)
      && r.HasUserConnections(u)
      && r.UserConnectionCount() == 1
      && r.UserIdBySession(s).None? && r.SessionType(s).None?
  {
    var r0 := AddUser(EMPTY, u, s);
    assert Insert([], s) == [s];
    assert r0.userSessions == map[u := [s]];
    var r1 := AddClient(r0, s);
    assert r1.clientSessions == [s] && r1.SessionType(s) == Some(ClientRole);
    var r := Remove(r1, s);
    assert r.userSessions == map[u := [s]];
  }

  // -------------------------------------------- properties: fan-out

  lemma {:induction false} DeliveredSpec(targets: seq<Session>, m: ChatMessage, net: Network)
    ensures forall d :: d in Delivered(targets, m, net) ==> d.msg == m && d.to in targets && Writable(net, d.to)
    ensures forall t :: t in targets && Writable(net, t) ==> Delivery(t, m) in Delivered(targets, m, net)
    ensures |Delivered(targets, m, net)| <= |targets|
  {
    if targets != [] {
      var init := targets[..|targets| - 1];
      DeliveredSpec(init, m, net);
      assert targets == init + [targets[|targets| - 1]];
    }
  }

  lemma {:induction false} DeliveredAllWritable(targets: seq<Session>, m: ChatMessage, net: Network)
    requires forall t :: t in targets ==> Writable(net, t)
    ensures Delivered(targets, m, net) == seq(|targets|, i requires 0 <= i < |targets| => Delivery(targets[i], m))
  {
    if targets != [] {
      DeliveredAllWritable(targets[..|targets| - 1], m, net);
    }
  }

  lemma {:induction false} DeliveredConcat(a: seq<Session>, b: seq<Session>, m: ChatMessage, net: Network)
    ensures Delivered(a + b, m, net) == Delivered(a, m, net) + Delivered(b, m, net)
  {
    if b != [] {
      DeliveredConcat(a, b[..|b| - 1], m, net);
      assert (a + b)[..|a + b| - 1] == a + b[..|b| - 1];
    } else {
      assert a + b == a;
    }
  }

  /** A fan-out to targets that all accept their write changes no table. */
  lemma {:induction false} EvictFailedNoFailures(r: Registry, targets: seq<Session>, net: Network)
    requires forall t :: t in targets ==> !WriteFails(net, t)
    ensures EvictFailed(r, targets, net) == r
  {
    if targets != [] {
      EvictFailedNoFailures(r, targets[..|targets| - 1], net);
    }
  }

  /** A fan-out on consistent tables keeps them consistent and leaves no
      trace of any target whose write failed. */
  lemma {:induction false} EvictFailedErases(r: Registry, targets: seq<Session>, net: Network)
    requires Wf(r)
    ensures Wf(EvictFailed(r, targets, net))
    ensures forall t :: t in targets && WriteFails(net, t) ==> EvictFailed(r, targets, net).Untracked(t)
  {
    if targets != [] {
      var init := targets[..|targets| - 1];
      var last := targets[|targets| - 1];
      EvictFailedErases(r, init, net);
      var r0 := EvictFailed(r, init, net);
      if WriteFails(net, last) {
        RemoveErases(r0, last);
        forall t | t in targets && WriteFails(net, t)
          ensures Remove(r0, last).Untracked(t)
        {
          if t != last {
            assert t in init;
            UntrackedAfterRemove(r0, last, t);
          }
        }
      } else {
        forall t | t in targets && WriteFails(net, t) ensures r0.Untracked(t) {
          assert t in init;
        }
      }
    }
  }

  /** Removal never brings back a session that was already gone. */
  lemma UntrackedAfterRemove(r: Registry, s: Session, t: Session)
    requires r.Untracked(t)
    ensures Remove(r, s).Untracked(t)
  {
  }

  /** A fan-out to a single session writes at most that one frame, and
      changes the tables only by removing that session. */
  lemma SendToOne(w: RelayState, s: Session, m: ChatMessage, net: Network)
    ensures Writable(net, s) ==> Send(w, [s], m, net) == RelayState(w.reg, w.out + [Delivery(s, m)])
    ensures WriteFails(net, s) ==> Send(w, [s], m, net) == RelayState(Remove(w.reg, s), w.out)
    ensures s !in net.open ==> Send(w, [s], m, net) == w
  {
    assert [s][..0] == [];
    assert Delivered([s], m, net) == (if Writable(net, s) then [Delivery(s, m)] else []);
    assert EvictFailed(w.reg, [s], net) == (if WriteFails(net, s) then Remove(w.reg, s) else w.reg);
  }

  // ----------------------------------------------------------- the class

  class ConnectionManager {
    var userSessions: map<UserId, seq<Session>>
    var clientSessions: seq<Session>
    var sessionToUser: map<Session, UserId>
    var sessionTypes: map<Session, Role>
    /** Every frame written to any session so far, in order. */
    var outbox: seq<Delivery>

    function Tables(): Registry
      reads this
    {
      Registry(userSessions, clientSessions, sessionToUser, sessionTypes)
    }

    function State(): RelayState
      reads this
    {
      RelayState(Tables(), outbox)
    }

    predicate HasClients()
      reads this
    {
      clientSessions != []
    }

    constructor ()
      ensures Tables() == EMPTY && outbox == []
    {
      userSessions, clientSessions, sessionToUser, sessionTypes := map[], [], map[], map[];
      outbox := [];
    }

    method AddUserSession(userId: UserId, session: Session)
      modifies this
      ensures Tables() == AddUser(old(Tables()), userId, session)
      ensures outbox == old(outbox)
    {
      var sessions := if userId in userSessions then userSessions[userId] else [];
      userSessions := userSessions[userId := Insert(sessions, session)];
      sessionToUser := sessionToUser[session := userId];
      sessionTypes := sessionTypes[session := UserRole];
    }

    method AddClientSession(session: Session)
      modifies this
      ensures Tables() == AddClient(old(Tables()), session)
      ensures outbox == old(outbox)
    {
      clientSessions := Insert(clientSessions, session);
      sessionTypes := sessionTypes[session := ClientRole];
    }

    method RemoveSession(session: Session)
      modifies this
      ensures Tables() == Remove(old(Tables()), session)
      ensures outbox == old(outbox)
    {
      var userId: Option<UserId> := None;
      if session in sessionToUser {
        userId := Some(sessionToUser[session]);
        sessionToUser := sessionToUser - {session};
      }
      var sessionType: Option<Role> := None;
      if session in sessionTypes {
        sessionType := Some(sessionTypes[session]);
        sessionTypes := sessionTypes - {session};
      }
      if sessionType == Some(UserRole) && userId.Some? {
        if userId.value in userSessions {
          var sessions := Delete(userSessions[userId.value], session);
          if |sessions| == 0 {
            userSessions := userSessions - {userId.value};
          } else {
            userSessions := userSessions[userId.value := sessions];
          }
        }
      } else if sessionType == Some(ClientRole) {
        clientSessions := Delete(clientSessions, session);
      }
    }

    /** The private `sendMessage`: writes to an open session; a failed write evicts it. */
    method SendMessage(session: Session, message: ChatMessage, net: Network)
      modifies this
      ensures State() == Send(old(State()), [session], message, net)
    {
      SendToOne(State(), session, message, net);
      if session in net.open {
        if session in net.broken {
          RemoveSession(session);
        } else {
          outbox := outbox + [Delivery(session, message)];
        }
      }
    }

    /** Writes to each of `targets` in order; the loop every fan-out shares. */
    method SendEach(targets: seq<Session>, message: ChatMessage, net: Network)
      modifies this
      ensures State() == Send(old(State()), targets, message, net)
    {
      var i := 0;
      while i < |targets|
        invariant 0 <= i <= |targets|
        invariant State() == Send(old(State()), targets[..i], message, net)
      {
        assert targets[..i + 1] == targets[..i] + [targets[i]];
        SendComposes(old(State()), targets[..i], [targets[i]], message, net);
        SendMessage(targets[i], message, net);
        i := i + 1;
      }
      assert targets[..i] == targets;
    }

    method SendMessageToUser(userId: UserId, message: ChatMessage, net: Network)
      modifies this
      ensures State() == Send(old(State()), old(Tables()).SessionsOf(userId), message, net)
    {
      if userId in userSessions {
        SendEach(userSessions[userId], message, net);
      }
    }

    method SendMessageToClients(message: ChatMessage, net: Network)
      modifies this
      ensures State() == Send(old(State()), old(clientSessions), message, net)
    {
      SendEach(clientSessions, message, net);
    }

    method SendMessageToSession(session: Session, message: ChatMessage, net: Network)
      modifies this
      ensures State() == Send(old(State()), [session], message, net)
    {
      SendMessage(session, message, net);
    }

    /** Writes to every session of every user; `order` is the order in which
        the map's iteration visits the users, which Java leaves unspecified. */
    method BroadcastToAllUsers(message: ChatMessage, net: Network) returns (ghost order: seq<UserId>)
      modifies this
      ensures Enumerates(order, old(userSessions).Keys)
      ensures State() == Send(old(State()), Flatten(old(Tables()), order), message, net)
    {
      var snapshot := Tables();
      var remaining := userSessions.Keys;
      order := [];
      while remaining != {}
        invariant remaining <= snapshot.userSessions.Keys
        invariant Visiting(snapshot.userSessions.Keys, remaining, order)
        invariant State() == Send(old(State()), Flatten(snapshot, order), message, net)
        decreases remaining
      {
        var u :| u in remaining;
        SendEach(snapshot.userSessions[u], message, net);
        BroadcastStep(old(State()), snapshot, order, u, message, net);
        VisitStep(snapshot.userSessions.Keys, remaining, order, u);
        order := order + [u];
        remaining := remaining - {u};
      }
      VisitDone(snapshot.userSessions.Keys, order);
    }
  }

  lemma {:induction false} EvictFailedConcat(r: Registry, a: seq<Session>, b: seq<Session>, net: Network)
    ensures EvictFailed(r, a + b, net) == EvictFailed(EvictFailed(r, a, net), b, net)
  {
    if b != [] {
      EvictFailedConcat(r, a, b[..|b| - 1], net);
      assert (a + b)[..|a + b| - 1] == a + b[..|b| - 1];
    } else {
      assert a + b == a;
    }
  }

  /** Part way through an iteration over `keys`: `order` is what has been
      visited, without repeats, and `remaining` is the rest. */
  ghost predicate Visiting(keys: set<UserId>, remaining: set<UserId>, order: seq<UserId>) {
    && (forall u :: u in order ==> u !in remaining)
    && (forall u :: u in keys <==> u in remaining || u in order)
    && (forall i, j :: 0 <= i < j < |order| ==> order[i] != order[j])
  }

  lemma VisitStep(keys: set<UserId>, remaining: set<UserId>, order: seq<UserId>, u: UserId)
    requires Visiting(keys, remaining, order) && u in remaining
    ensures Visiting(keys, remaining - {u}, order + [u])
  {
  }

  lemma VisitDone(keys: set<UserId>, order: seq<UserId>)
    requires Visiting(keys, {}, order)
    ensures Enumerates(order, keys)
  {
  }

  /** One more user's sessions after the users of `order` is the fan-out over `order + [u]`. */
  lemma BroadcastStep(w: RelayState, r: Registry, order: seq<UserId>, u: UserId, m: ChatMessage, net: Network)
    requires u in r.userSessions
    ensures Send(Send(w, Flatten(r, order), m, net), r.userSessions[u], m, net) == Send(w, Flatten(r, order + [u]), m, net)
  {
    SendComposes(w, Flatten(r, order), r.SessionsOf(u), m, net);
    assert (order + [u])[..|order|] == order;
  }

  /** Two fan-outs in a row are one fan-out over both target lists. */
  lemma SendComposes(w: RelayState, a: seq<Session>, b: seq<Session>, m: ChatMessage, net: Network)
    ensures Send(Send(w, a, m, net), b, m, net) == Send(w, a + b, m, net)
  {
    EvictFailedConcat(w.reg, a, b, net);
    DeliveredConcat(a, b, m, net);
  }
}
