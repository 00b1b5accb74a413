/** Pieces of runs for the counterexamples: two users on one node, Redis unavailable,
    MySQL at work. Each piece continues a run that starts in the initial state. */
module Scenario {
  import opened Basics
  import opened Store
  import opened Cluster
  import opened Paths
  import UserCache
  import Conversations

  const START :=
    World(0, EMPTY, map[], map[], map[], [Node("a", map[], 0, ZERO, 0, None, false, 0, map[])], [], [], [], [], {},
          map[])

  /** The run so far ends in `w`. */
  ghost predicate EndsIn(path: seq<World>, acts: seq<Action>, w: World) {
    Path(START, path, acts) && path[|acts|] == w
  }

  const NO_REDIS := UserCache.Faults(UserCache.ReadFails, true, UserCache.BothFail)
  const NO_CACHE := Conversations.Faults(Conversations.CheckFaults(false, true, true, false), true, false, true, true)

  lemma Takes(path: seq<World>, acts: seq<Action>, w: World, a: Action) returns (path': seq<World>, acts': seq<Action>)
    requires EndsIn(path, acts, w) && Enabled(w, a)
    ensures EndsIn(path', acts', Step(w, a)) && path' == path + [Step(w, a)] && acts' == acts + [a]
  {
    path', acts' := Extend(START, path, acts, a);
  }

  // ------------------------------------------------------------- the accounts

  /** Users 1 and 2 exist and the node is up. */
  predicate Base(w: World) {
    && |w.nodes| == 1 && !w.nodes[0].crashed
    && 1 in w.db.users && w.db.users[1].id == 1 && 2 in w.db.users && w.db.users[2].id == 2
  }

  lemma SignsUp() returns (path: seq<World>, acts: seq<Action>, w: World)
    ensures Init(START) && EndsIn(path, acts, w) && Base(w)
    ensures w == START.(db := w.db) && w.db == EMPTY.(users := w.db.users, nextUser := 3) && 3 !in w.db.users
  {
    path, acts := [START], [];
    path, acts := Takes(path, acts, START, Env(SignUp("u", "", "", "")));
    path, acts := Takes(path, acts, path[|acts|], Env(SignUp("v", "", "", "")));
    w := path[|acts|];
  }

  // ------------------------------------------------------------ a connection

  /** Nothing but connections, and what registering one writes on its node. */
  predicate SameData(w: World, w': World) {
    && w' == w.(clients := w'.clients, nodes := w'.nodes, presence := w'.presence)
    && |w'.nodes| == 1 && |w.nodes| == 1 && w'.nodes[0].crashed == w.nodes[0].crashed
    && w'.nodes[0].name == w.nodes[0].name
  }

  predicate Added(w: World, w': World, u: nat, pc: ConnectPc, listen: ListenPc) {
    var c := |w.clients|;
    && |w'.clients| == c + 1 && w'.clients[..c] == w.clients
    && w'.clients[c] == NewClient(u, 0).(pc := pc, listen := listen)
  }

  lemma Registers(path: seq<World>, acts: seq<Action>, w: World, u: nat, setOk: bool)
    returns (path': seq<World>, acts': seq<Action>, w': World)
    requires EndsIn(path, acts, w) && Base(w)
    ensures EndsIn(path', acts', w') && SameData(w, w') && Added(w, w', u, Announced, NotStarted)
    ensures w'.nodes[0].registry == w.nodes[0].registry[u := |w.clients|]
    ensures w'.presence == if setOk then w.presence[u := Lease(w.nodes[0].name, w.now + PRESENCE_TTL)] else w.presence
  {
    var c := |w.clients|;
    path', acts' := Takes(path, acts, w, Env(Connect(u, 0)));
    path', acts' := Takes(path', acts', path'[|acts'|], Conn(c, RegisterMap));
    path', acts' := Takes(path', acts', path'[|acts'|], Conn(c, RegisterPresence(setOk)));
    w' := path'[|acts'|];
    assert w'.clients[..c] == w.clients;
  }

  /** A connection comes up; its backlog query fails. */
  lemma Joins(path: seq<World>, acts: seq<Action>, w: World, u: nat, setOk: bool)
    returns (path': seq<World>, acts': seq<Action>, w': World)
    requires EndsIn(path, acts, w) && Base(w)
    ensures EndsIn(path', acts', w') && SameData(w, w') && Added(w, w', u, Delivering, Reading)
    ensures w'.nodes[0].registry == w.nodes[0].registry[u := |w.clients|]
    ensures w'.presence == if setOk then w.presence[u := Lease(w.nodes[0].name, w.now + PRESENCE_TTL)] else w.presence
  {
    var c := |w.clients|;
    var w1: World;
    path', acts', w1 := Registers(path, acts, w, u, setOk);
    path', acts' := Takes(path', acts', w1, Conn(c, RegisterGauge));
    path', acts' := Takes(path', acts', path'[|acts'|], Conn(c, QueryBacklog(false)));
    path', acts' := Takes(path', acts', path'[|acts'|], Conn(c, StartLoops));
    w' := path'[|acts'|];
    assert w'.clients[..c] == w1.clients[..c];
  }

  // ------------------------------------------------------------------- a chat

  /** Client `c` of user `u` reads frames. */
  predicate Reads(w: World, c: nat, u: nat, pc: ListenPc) {
    c < |w.clients| && w.clients[c].user == u && w.clients[c].node == 0 && w.clients[c].listen == pc
  }

  /** Only the handler of `c` moved. */
  predicate OnlyListen(w: World, c: nat, w': World) {
    && |w'.clients| == |w.clients|
    && forall d :: 0 <= d < |w.clients| ==>
         w'.clients[d] == if d == c then w.clients[c].(listen := w'.clients[c].listen) else w.clients[d]
  }

  lemma Opens(path: seq<World>, acts: seq<Action>, w: World, c: nat, u: nat, m: Chat)
    returns (path': seq<World>, acts': seq<Action>, w': World)
    requires EndsIn(path, acts, w) && Base(w) && Reads(w, c, u, Reading) && (m.to == 1 || m.to == 2)
    ensures EndsIn(path', acts', w') && Reads(w', c, u, Resolve(m, m.to)) && OnlyListen(w, c, w')
    ensures w' == w.(clients := w'.clients, claims := w'.claims)
  {
    path', acts' := Takes(path, acts, w, Listen(c, Receive(ChatFrame(m))));
    var w1 := path'[|acts'|];
    path', acts' := Takes(path', acts', w1, Listen(c, DoFindUser(NO_REDIS)));
    w' := path'[|acts'|];
  }

  /** The two users share conversation 1, or nobody shares anything yet. */
  predicate Pair(db: Db) {
    |db.convs| == 1 && |db.members| == 2 && db.convs[0].ctype == Conversations.SINGLE
    && db.members[0].conv == 1 && db.members[1].conv == 1
    && db.members[0].user == 1 && db.members[1].user == 2
  }

  lemma ResolveOfTwo(db: Db, cache: Conversations.Cache, u: nat, v: nat, now: nat)
    requires (u == 1 && v == 2) || (u == 2 && v == 1)
    requires Pair(db) || (db.convs == [] && db.members == [] && u == 1)
    ensures var (db', cache', r) := Conversations.Resolve(db, cache, u, v, now, NO_CACHE);
            && r == Ok(1) && Pair(db') && db' == db.(convs := db'.convs, members := db'.members)
            && (Pair(db) ==> db' == db)
            && (!Pair(db) ==> db'.members[0].lastRead == 0 && db'.members[1].lastRead == 0 && db'.convs[0].last.None?)
  {
    if Pair(db) {
      Conversations.GroupedExactly(db.members, u, v, 1);
      Conversations.JoinsIsMember(db.members, 1, u);
      Conversations.JoinsIsMember(db.members, 1, v);
      assert db.members[0].conv == 1 && db.members[1].conv == 1;
    }
  }

  lemma Resolves(path: seq<World>, acts: seq<Action>, w: World, c: nat, u: nat, m: Chat)
    returns (path': seq<World>, acts': seq<Action>, w': World)
    requires EndsIn(path, acts, w) && Base(w) && Reads(w, c, u, Resolve(m, m.to))
    requires (u == 1 && m.to == 2) || (u == 2 && m.to == 1)
    requires Pair(w.db) || (w.db.convs == [] && w.db.members == [] && u == 1)
    ensures EndsIn(path', acts', w') && Reads(w', c, u, Persist(m, 1)) && OnlyListen(w, c, w') && Pair(w'.db)
    ensures w'.db == w.db.(convs := w'.db.convs, members := w'.db.members)
    ensures Pair(w.db) ==> w'.db == w.db
    ensures !Pair(w.db) ==>
              w'.db.members[0].lastRead == 0 && w'.db.members[1].lastRead == 0 && w'.db.convs[0].last.None?
    ensures w' == w.(clients := w'.clients, db := w'.db, convCache := w'.convCache)
  {
    ResolveOfTwo(w.db, w.convCache, u, m.to, w.now);
    path', acts' := Takes(path, acts, w, Listen(c, DoResolve(NO_CACHE)));
    w' := path'[|acts'|];
  }

  /** From the read to the insert. */
  lemma Addresses(path: seq<World>, acts: seq<Action>, w: World, c: nat, u: nat, m: Chat)
    returns (path': seq<World>, acts': seq<Action>, w': World)
    requires EndsIn(path, acts, w) && Base(w) && Reads(w, c, u, Reading)
    requires (u == 1 && m.to == 2) || (u == 2 && m.to == 1)
    requires Pair(w.db) || (w.db.convs == [] && w.db.members == [] && u == 1)
    ensures EndsIn(path', acts', w') && Reads(w', c, u, Persist(m, 1)) && OnlyListen(w, c, w') && Pair(w'.db)
    ensures w'.db == w.db.(convs := w'.db.convs, members := w'.db.members)
    ensures Pair(w.db) ==> w'.db == w.db
    ensures !Pair(w.db) ==>
              w'.db.members[0].lastRead == 0 && w'.db.members[1].lastRead == 0 && w'.db.convs[0].last.None?
    ensures w' == w.(clients := w'.clients, db := w'.db, convCache := w'.convCache, claims := w'.claims)
  {
    var w1: World;
    path', acts', w1 := Opens(path, acts, w, c, u, m);
    path', acts', w' := Resolves(path', acts', w1, c, u, m);
  }

  function RowOf(w: World, u: nat, m: Chat): Message {
    Message(w.db.nextMsg, 1, u, m.content, m.clientId, w.now)
  }

  lemma Stores(path: seq<World>, acts: seq<Action>, w: World, c: nat, u: nat, m: Chat)
    returns (path': seq<World>, acts': seq<Action>, w': World)
    requires EndsIn(path, acts, w) && Base(w) && Reads(w, c, u, Persist(m, 1))
    requires forall x :: x in w.db.msgs ==> x.clientId != m.clientId
    ensures EndsIn(path', acts', w') && Reads(w', c, u, Publish(m, 1, RowOf(w, u, m))) && OnlyListen(w, c, w')
    ensures w'.db == w.db.(msgs := w.db.msgs + [RowOf(w, u, m)], nextMsg := w.db.nextMsg + 1)
    ensures w' == w.(clients := w'.clients, db := w'.db, nodes := w'.nodes) && |w'.nodes| == 1
    ensures w'.nodes == [w.nodes[0].(metrics := w'.nodes[0].metrics)]
  {
    path', acts' := Takes(path, acts, w, Listen(c, DoPersist(NoFault)));
    w' := path'[|acts'|];
    assert FindByClientId(w.db.msgs, m.clientId).None?;
    assert w'.nodes == [w'.nodes[0]];
  }

  /** The update goes to the queue; the own cursor moves if its statement works. */
  lemma Announces(path: seq<World>, acts: seq<Action>, w: World, c: nat, u: nat, m: Chat, row: Message, markOk: bool)
    returns (path': seq<World>, acts': seq<Action>, w': World)
    requires EndsIn(path, acts, w) && Base(w) && Reads(w, c, u, Publish(m, 1, row))
    ensures EndsIn(path', acts', w') && Reads(w', c, u, FindLocal(m, Payload(u, 1, m.content, row.id, m.clientId)))
    ensures OnlyListen(w, c, w')
    ensures w'.db == if markOk then UpdateLastRead(w.db, Cursor(1, u, row.id)) else w.db
    ensures w' ==
              w.(clients := w'.clients, db := w'.db, handed := w.handed + [MqMessage(1, row)], cursors := w'.cursors)
  {
    path', acts' := Takes(path, acts, w, Listen(c, DoPublish(false, false)));
    path', acts' := Takes(path', acts', path'[|acts'|], Listen(c, DoMarkOwn(markOk)));
    w' := path'[|acts'|];
  }

  /** The target is not here and Redis does not answer. */
  lemma Misses(path: seq<World>, acts: seq<Action>, w: World, c: nat, u: nat, m: Chat, p: Payload)
    returns (path': seq<World>, acts': seq<Action>, w': World)
    requires EndsIn(path, acts, w) && Base(w) && Reads(w, c, u, FindLocal(m, p)) && m.to !in w.nodes[0].registry
    ensures EndsIn(path', acts', w') && Reads(w', c, u, Reading) && OnlyListen(w, c, w')
    ensures w' == w.(clients := w'.clients, nodes := w'.nodes) && |w'.nodes| == 1
    ensures w'.nodes == [w.nodes[0].(metrics := w'.nodes[0].metrics)]
  {
    path', acts' := Takes(path, acts, w, Listen(c, DoFindLocal));
    path', acts' := Takes(path', acts', path'[|acts'|], Listen(c, DoFindNode(false)));
    w' := path'[|acts'|];
    assert w'.nodes == [w'.nodes[0]];
  }

  /** What a whole message from user 1 to user 2, who is not connected, changes. */
  ghost predicate Sent(w: World, c: nat, m: Chat, w': World) {
    && Base(w') && Reads(w', c, 1, Reading) && OnlyListen(w, c, w') && Pair(w'.db)
    && w'.db == w.db.(convs := w'.db.convs, members := w'.db.members, msgs := w.db.msgs + [RowOf(w, 1, m)],
                      nextMsg := w.db.nextMsg + 1)
    && (Pair(w.db) ==> w'.db.convs == w.db.convs && w'.db.members == w.db.members)
    && (!Pair(w.db) ==>
          w'.db.members[0].lastRead == 0 && w'.db.members[1].lastRead == 0 && w'.db.convs[0].last.None?)
    && w'.handed == w.handed + [MqMessage(1, RowOf(w, 1, m))] && w'.unregs == w.unregs
    && |w'.nodes| == 1 == |w.nodes| && w'.nodes[0].registry == w.nodes[0].registry && w'.now == w.now
  }

  /** A whole message from user 1 to user 2, who is not connected. */
  lemma SendsToAbsent(path: seq<World>, acts: seq<Action>, w: World, c: nat, m: Chat)
    returns (path': seq<World>, acts': seq<Action>, w': World)
    requires EndsIn(path, acts, w) && Base(w) && Reads(w, c, 1, Reading) && m.to == 2 && 2 !in w.nodes[0].registry
    requires Pair(w.db) || (w.db.convs == [] && w.db.members == [])
    requires forall x :: x in w.db.msgs ==> x.clientId != m.clientId
    ensures EndsIn(path', acts', w') && Sent(w, c, m, w')
  {
    var w1: World;
    path', acts', w1 := Begins(path, acts, w, c, m);
    path', acts', w' := Finishes(path', acts', w1, c, m, RowOf(w, 1, m));
  }

  /** Up to the insert. */
  lemma Begins(path: seq<World>, acts: seq<Action>, w: World, c: nat, m: Chat)
    returns (path': seq<World>, acts': seq<Action>, w': World)
    requires EndsIn(path, acts, w) && Base(w) && Reads(w, c, 1, Reading) && m.to == 2
    requires Pair(w.db) || (w.db.convs == [] && w.db.members == [])
    requires forall x :: x in w.db.msgs ==> x.clientId != m.clientId
    ensures EndsIn(path', acts', w') && Reads(w', c, 1, Publish(m, 1, RowOf(w, 1, m))) && OnlyListen(w, c, w')
    ensures Pair(w'.db)
    ensures w'.db ==
              w.db.(convs := w'.db.convs, members := w'.db.members, msgs := w.db.msgs + [RowOf(w, 1, m)],
                    nextMsg := w.db.nextMsg + 1)
    ensures Pair(w.db) ==> w'.db.convs == w.db.convs && w'.db.members == w.db.members
    ensures !Pair(w.db) ==>
              w'.db.members[0].lastRead == 0 && w'.db.members[1].lastRead == 0 && w'.db.convs[0].last.None?
    ensures w'.handed == w.handed && w'.unregs == w.unregs && w'.now == w.now
    ensures |w.nodes| == 1 == |w'.nodes| && w'.nodes == [w.nodes[0].(metrics := w'.nodes[0].metrics)]
  {
    var w1: World;
    path', acts', w1 := Addresses(path, acts, w, c, 1, m);
    path', acts', w' := Stores(path', acts', w1, c, 1, m);
  }

  /** The rest of the handler, the recipient being away. */
  lemma Finishes(path: seq<World>, acts: seq<Action>, w: World, c: nat, m: Chat, row: Message)
    returns (path': seq<World>, acts': seq<Action>, w': World)
    requires EndsIn(path, acts, w) && Base(w) && Reads(w, c, 1, Publish(m, 1, row)) && m.to !in w.nodes[0].registry
    ensures EndsIn(path', acts', w') && Reads(w', c, 1, Reading) && OnlyListen(w, c, w')
    ensures w' ==
              w.(clients := w'.clients, nodes := w'.nodes, handed := w.handed + [MqMessage(1, row)],
                 cursors := w'.cursors)
    ensures |w'.nodes| == 1 && w'.nodes == [w.nodes[0].(metrics := w'.nodes[0].metrics)]
  {
    var w1: World;
    path', acts', w1 := Announces(path, acts, w, c, 1, m, row, false);
    path', acts', w' := Misses(path', acts', w1, c, 1, m, Payload(1, 1, m.content, row.id, m.clientId));
  }
}
