/** Runs from the initial state that end in the states the guarantees exclude. */
module Counterexamples {
  import opened Basics
  import opened Store
  import opened Cluster
  import opened Paths
  import opened Scenario
  import opened AtLeastOnce
  import Summaries
  import Race
  import NoGap
  import UserCache

  const FIRST := Chat(2, "one", "x")
  const SECOND := Chat(2, "two", "y")
  const REPLY := Chat(1, "three", "z")

  /** User 1 is connected as client 0. */
  lemma OneOnline() returns (path: seq<World>, acts: seq<Action>, w: World)
    ensures Init(START) && EndsIn(path, acts, w) && Base(w) && Reads(w, 0, 1, Reading) && |w.clients| == 1
    ensures w.db == EMPTY.(users := w.db.users, nextUser := 3) && w.handed == [] && w.unregs == [] && w.now == 0
    ensures w.userCache == map[] && 3 !in w.db.users
    ensures w.nodes[0].registry == map[1 := 0] && w.clients[0] == NewClient(1, 0).(pc := Delivering, listen := Reading)
  {
    var w1: World;
    path, acts, w1 := SignsUp();
    path, acts, w := Joins(path, acts, w1, 1, false);
    assert w1.clients == [];
  }

  /** Two messages are handed over in order and consumed in reverse: the summary goes from
      the second back to the first. */
  lemma SummaryCanGoBack() returns (path: seq<World>, acts: seq<Action>, n: nat)
    ensures Run(path, acts) && |acts| == n + 2
    ensures acts[n] == Env(ConsumeUpdate(1, true)) && acts[n + 1] == Env(ConsumeUpdate(0, true))
    ensures LastId(path[n + 1].db, 1) == 2 && LastId(path[n + 2].db, 1) == 1
    ensures Summaries.Regresses(path[n + 1], acts[n + 1], 1)
  {
    var w: World, w1: World, w2: World;
    path, acts, w := OneOnline();
    path, acts, w1 := SendsToAbsent(path, acts, w, 0, FIRST);
    path, acts, w2 := SendsToAbsent(path, acts, w1, 0, SECOND);
    n := |acts|;
    assert w2.handed[0].row.id == 1 && w2.handed[1].row.id == 2;
    path, acts := Takes(path, acts, w2, Env(ConsumeUpdate(1, true)));
    path, acts := Takes(path, acts, path[|acts|], Env(ConsumeUpdate(0, true)));
    PathIsRun(START, path, acts);
  }

  /** Nobody has written anything to a socket. */
  predicate Silent(w: World) {
    forall c :: 0 <= c < |w.clients| ==> w.clients[c].written == []
  }

  lemma LostForTwo(w: World, m: Message)
    requires Silent(w) && m in w.db.msgs && m.conv == 1 && m.sender != 2 && Pair(w.db)
    requires m.id <= w.db.members[1].lastRead
    ensures !Safe(w, 2)
  {
    assert w.db.members[1].conv == 1 && w.db.members[1].user == 2;
    assert HasMember(w.db, 1, 2);
    UnreadExactly(w.db, w.db.msgs, 2, m);
  }

  /** User 2 was away for a message, comes back with a failed backlog query, and answers:
      the cursor update of the own send drops the message, which no socket ever saw. */
  lemma OwnSendCanSkip() returns (path: seq<World>, acts: seq<Action>, n: nat, m: Message)
    ensures Run(path, acts) && |acts| == n + 1 && acts[n] == Listen(1, DoMarkOwn(true))
    ensures m in Unread(path[n].db, 2) && m !in Unread(path[n + 1].db, 2)
    ensures m.sender != 2 && m in path[n + 1].db.msgs && !Received(path[n + 1], 2, m) && !Safe(path[n + 1], 2)
  {
    var w: World, w1: World, w2: World, w3: World, w4: World;
    path, acts, w := OneOnline();
    path, acts, w1 := SendsToAbsent(path, acts, w, 0, FIRST);
    m := RowOf(w, 1, FIRST);
    path, acts, w2 := Joins(path, acts, w1, 2, false);
    path, acts, w3 := Addresses(path, acts, w2, 1, 2, REPLY);
    path, acts, w4 := Stores(path, acts, w3, 1, 2, REPLY);
    path, acts := Takes(path, acts, w4, Listen(1, DoPublish(false, false)));
    n := |acts|;
    ReplyMarks(path[n], RowOf(w3, 2, REPLY), m);
    path, acts := Takes(path, acts, path[n], Listen(1, DoMarkOwn(true)));
    PathIsRun(START, path, acts);
  }

  lemma ReplyMarks(w: World, row: Message, m: Message)
    requires ListenEnabled(w, 1, DoMarkOwn(true)) && w.clients[1].listen == MarkOwn(REPLY, 1, row)
    requires w.clients[1].user == 2
    requires Silent(w) && Pair(w.db) && w.db.members[1].lastRead == 0 && m in w.db.msgs && m.conv == 1 && m.sender == 1
    requires 1 <= m.id <= row.id
    ensures m in Unread(w.db, 2) && m !in Unread(MarkOwnStep(w, 1, true).db, 2)
    ensures m in MarkOwnStep(w, 1, true).db.msgs && !Received(MarkOwnStep(w, 1, true), 2, m)
    ensures !Safe(MarkOwnStep(w, 1, true), 2)
  {
    var w' := MarkOwnStep(w, 1, true);
    UnreadExactly(w.db, w.db.msgs, 2, m);
    assert Leaves(w.db.members[1], m, 2);
    AckRemovesExactly(w.db, Cursor(1, 2, row.id), 2, m);
    assert w'.db.members[1].lastRead == row.id;
    LostForTwo(w', m);
  }

  /** The conversation exists without a message; user 2 acknowledges id 100 there. Nothing
      is lost yet, but the next message of user 1 is read before it is written. */
  lemma AckAheadLosesNext() returns (path: seq<World>, acts: seq<Action>, n: nat, k: nat)
    ensures Run(path, acts) && |acts| == n + 1 && acts[n] == Listen(0, DoPersist(NoFault))
    ensures k < n && acts[k] == Listen(1, DoAck(true)) && Executes(path[k], acts[k]) == Some(Cursor(1, 2, 100))
    ensures Unread(path[k].db, 2) == [] && Safe(path[k], 2) && Safe(path[k + 1], 2) && !Safe(path[n + 1], 2)
  {
    var w: World, w1: World, w2: World, w3: World, w5: World, w6: World;
    path, acts, w := OneOnline();
    path, acts, w1 := Addresses(path, acts, w, 0, 1, FIRST);
    path, acts := Takes(path, acts, w1, Listen(0, DoPersist(InsertFails)));
    w2 := path[|acts|];
    path, acts, w3 := Joins(path, acts, w2, 2, false);
    path, acts := Takes(path, acts, w3, Listen(1, Receive(AckFrame(1, 100))));
    k := |acts|;
    NoMessagesSafe(path[k]);
    path, acts := Takes(path, acts, path[k], Listen(1, DoAck(true)));
    ghost var prefix := path;
    w5 := path[k + 1];
    NoMessagesSafe(w5);
    path, acts, w6 := AddressesKept(path, acts, w5, FIRST);
    n := |acts|;
    path, acts := Takes(path, acts, w6, Listen(0, DoPersist(NoFault)));
    PathIsRun(START, path, acts);
    AheadIsLost(w6);
  }

  lemma NoMessagesSafe(w: World)
    requires w.db.msgs == []
    ensures Unread(w.db, 2) == [] && Safe(w, 2)
  {
  }

  /** `Addresses` for client 0, with the run so far kept in view. */
  lemma AddressesKept(path: seq<World>, acts: seq<Action>, w: World, m: Chat)
    returns (path': seq<World>, acts': seq<Action>, w': World)
    requires EndsIn(path, acts, w) && Base(w) && Reads(w, 0, 1, Reading) && m.to == 2 && Pair(w.db)
    ensures EndsIn(path', acts', w') && Reads(w', 0, 1, Persist(m, 1)) && OnlyListen(w, 0, w') && w'.db == w.db
    ensures w'.nodes == w.nodes
    ensures path <= path' && acts <= acts'
  {
    path', acts' := Takes(path, acts, w, Listen(0, Receive(ChatFrame(m))));
    var w1 := path'[|acts'|];
    path', acts' := Takes(path', acts', w1, Listen(0, DoFindUser(NO_REDIS)));
    var w2 := path'[|acts'|];
    ResolveOfTwo(w2.db, w2.convCache, 1, 2, w2.now);
    path', acts' := Takes(path', acts', w2, Listen(0, DoResolve(NO_CACHE)));
    w' := path'[|acts'|];
  }

  lemma AheadIsLost(w: World)
    requires ListenEnabled(w, 0, DoPersist(NoFault)) && Reads(w, 0, 1, Persist(FIRST, 1)) && Silent(w)
    requires Pair(w.db) && w.db.members[1].lastRead == 100 && w.db.msgs == [] && w.db.nextMsg == 1
    ensures !Safe(PersistStep(w, 0, NoFault), 2)
  {
    var w' := PersistStep(w, 0, NoFault);
    assert w'.db.msgs[0] == RowOf(w, 1, FIRST);
    LostForTwo(w', RowOf(w, 1, FIRST));
  }

  /** The state from which the send on a closed channel is reached occurs. */
  lemma RaceIsReached() returns (path: seq<World>, acts: seq<Action>)
    ensures Run(path, acts) && Race.Racing(path[|acts|], 0, 1, Reading)
  {
    var w: World, w1: World, w2: World, w3: World, w4: World;
    path, acts, w := OneOnline();
    path, acts, w1 := Joins(path, acts, w, 2, false);
    path, acts, w2 := Addresses(path, acts, w1, 0, 1, FIRST);
    path, acts, w3 := Stores(path, acts, w2, 0, 1, FIRST);
    path, acts, w4 := Announces(path, acts, w3, 0, 1, FIRST, RowOf(w2, 1, FIRST), true);
    path, acts := Takes(path, acts, w4, Listen(0, DoFindLocal));
    PathIsRun(START, path, acts);
  }

  /** A whole run to the panic: the push of client 0 finds the channel of client 1 closed. */
  lemma PanicIsReached() returns (path: seq<World>, acts: seq<Action>)
    ensures Run(path, acts) && Enabled(path[|acts|], Listen(0, DoPushClosed))
  {
    var before, taken := RaceIsReached();
    var tail, rest := Race.PushCanPanic(before[|taken|], 0, 1);
    path, acts := before + tail[1..], taken + rest;
    forall k | 0 <= k < |acts|
      ensures StepAt(path, acts, k)
    {
      if k < |taken| { assert StepAt(before, taken, k); }
      else { assert StepAt(tail, rest, k - |taken|); }
    }
  }

  /** A user reconnects between the locked region of the old connection's teardown and its
      DEL: the new connection holds the slot and the user reads as offline. */
  lemma ReconnectIsHidden() returns (path: seq<World>, acts: seq<Action>, n: nat)
    ensures Run(path, acts) && |acts| == n + 1 && acts[n] == UnregDelete(0, true)
    ensures PresenceOf(path[n], 1) == Some("a") && NoGap.HasSlot(path[n + 1], 0, 1, 1) && Race.Hidden(path[n + 1], 1)
  {
    var w: World, w1: World, w2: World, w3: World;
    path, acts, w := SignsUp();
    path, acts, w1 := Joins(path, acts, w, 1, true);
    assert w.clients == [];
    path, acts := Takes(path, acts, w1, Listen(0, ReadFails));
    path, acts := Takes(path, acts, path[|acts|], UnregCheck(0));
    w2 := path[|acts|];
    path, acts, w3 := Registers(path, acts, w2, 1, true);
    n := |acts|;
    path, acts := Takes(path, acts, w3, UnregDelete(0, true));
    PathIsRun(START, path, acts);
  }

  const TO_NOBODY := Chat(3, "four", "w")
  const TORN := UserCache.Faults(UserCache.ReadWorks, true, UserCache.HSetOnly)

  /** User 1 wrote to the free id 3 while the write-back was cut: the entry never expires.
      Then the id is taken, and `t` ticks later every lookup that reads the cache still says
      that there is no such user. */
  lemma RegisteredUserIsDenied(t: nat) returns (path: seq<World>, acts: seq<Action>)
    ensures Run(path, acts)
    ensures var w := path[|acts|];
            && 3 in w.db.users && w.now == w.db.users[3].createdAt + t
            && forall f: UserCache.Faults :: f.read.ReadWorks? ==>
                 UserCache.Lookup(w.db.users, w.userCache, 3, w.now, f).1 == Ok(None)
  {
    var w: World;
    path, acts, w := OneOnline();
    path, acts := Takes(path, acts, w, Listen(0, Receive(ChatFrame(TO_NOBODY))));
    path, acts := Takes(path, acts, path[|acts|], Listen(0, DoFindUser(TORN)));
    assert path[|acts|].userCache == map[3 := UserCache.Entry(None, None)];
    path, acts := Takes(path, acts, path[|acts|], Env(SignUp("w", "", "", "")));
    path, acts, w := TimePasses(path, acts, path[|acts|], t);
    PathIsRun(START, path, acts);
  }

  const NEGATIVE := UserCache.Faults(UserCache.ReadWorks, true, UserCache.BothWork)
  const STRETCHED := UserCache.Faults(UserCache.ReadFails, true, UserCache.ExpireOnly)

  /** The negative entry for the free id 3 was written as meant. The id is taken, the next
      lookup misses the cache, its HSET is refused and its EXPIRE works: for five hours every
      lookup that reads the cache says that there is no such user. */
  lemma RegisteredUserIsDeniedForHours(t: nat) returns (path: seq<World>, acts: seq<Action>)
    requires t < 18000
    ensures Run(path, acts)
    ensures var w := path[|acts|];
            && 3 in w.db.users && w.now == w.db.users[3].createdAt + t
            && forall f: UserCache.Faults :: f.read.ReadWorks? ==>
                 UserCache.Lookup(w.db.users, w.userCache, 3, w.now, f).1 == Ok(None)
  {
    var w: World;
    path, acts, w := OneOnline();
    path, acts := Takes(path, acts, w, Listen(0, Receive(ChatFrame(TO_NOBODY))));
    path, acts := Takes(path, acts, path[|acts|], Listen(0, DoFindUser(NEGATIVE)));
    path, acts := Takes(path, acts, path[|acts|], Env(SignUp("w", "", "", "")));
    path, acts := Takes(path, acts, path[|acts|], Listen(0, Receive(ChatFrame(TO_NOBODY))));
    path, acts := Takes(path, acts, path[|acts|], Listen(0, DoFindUser(STRETCHED)));
    assert path[|acts|].userCache == map[3 := UserCache.Entry(None, Some(UserCache.POSITIVE_TTL))];
    path, acts, w := TimePasses(path, acts, path[|acts|], t);
    PathIsRun(START, path, acts);
  }

  lemma TimePasses(path: seq<World>, acts: seq<Action>, w: World, t: nat)
    returns (path': seq<World>, acts': seq<Action>, w': World)
    requires EndsIn(path, acts, w)
    ensures EndsIn(path', acts', w') && w' == w.(now := w.now + t)
  {
    path', acts', w' := path, acts, w;
    for i := 0 to t
      invariant EndsIn(path', acts', w') && w' == w.(now := w.now + i)
    {
      path', acts' := Takes(path', acts', w', Env(Tick));
      w' := path'[|acts'|];
    }
  }
}
