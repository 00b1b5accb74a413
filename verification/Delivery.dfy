/** No misdelivery: whatever reaches a client's `Send` or socket, by local push,
    forward or backlog, belongs to a conversation of that client's user. The proof
    joins the registry keys, the user cache, the conversation cache and the tables. */
module Delivery {
  import opened Basics
  import opened Store
  import opened Cluster
  import opened Frames
  import Conversations
  import UserCache
  import Lifecycle
  import Socket
  import Tables

  // ----------------------------------------------------------- assumptions

  /** Resolve-or-create is one step that does not stop half way, chats are between
      two users, and a client id is used again only for the same sender and target. */
  predicate Clean(w: World, a: Action) {
    && Socket.NoSelfChat(w, a)
    && (a.Listen? && a.listen.DoResolve? && a.client < |w.clients| && w.clients[a.client].listen.Resolve? ==>
          !Conversations.HalfMade(w.db, w.convCache, w.clients[a.client].user, w.clients[a.client].listen.target, w.now,
                                  a.listen.convFaults))
    && (a.Listen? && a.listen.Receive? && a.listen.frame.ChatFrame? && a.client < |w.clients| ==>
          var m := a.listen.frame.chat;
          m.clientId in w.claims ==> w.claims[m.clientId] == (w.clients[a.client].user, m.to))
  }

  // ------------------------------------------------------------- invariant

  /** The payload is about a stored message of a conversation of `u`. */
  ghost predicate Addressed(db: Db, p: Payload, u: nat) {
    && HasMember(db, p.conv, u)
    && exists i ::
         0 <= i < |db.msgs| && db.msgs[i].id == p.msgId && db.msgs[i].conv == p.conv && db.msgs[i].sender == p.sender
  }

  ghost predicate ConvOf(db: Db, k: nat, a: nat, b: nat)
    requires Conversations.Paired(db)
  {
    ConvExists(db, k) && Conversations.PairAt(db, k - 1) == Conversations.Key(a, b)
  }

  /** Each stored message is in the conversation of the sender and target that first
      used its client id. */
  ghost predicate RowClaimed(db: Db, claims: map<string, (nat, nat)>, m: Message)
    requires Conversations.Paired(db)
  {
    m.clientId in claims && claims[m.clientId].0 == m.sender && ConvOf(db, m.conv, m.sender, claims[m.clientId].1)
  }

  predicate Chatting(pc: ListenPc) {
    pc.FindUser? || pc.Resolve? || pc.Persist? || Routing(pc)
  }

  ghost predicate HandlerOk(db: Db, claims: map<string, (nat, nat)>, u: nat, pc: ListenPc)
    requires Conversations.Paired(db)
  {
    && (Chatting(pc) ==> pc.chat.clientId in claims && claims[pc.chat.clientId] == (u, pc.chat.to))
    && (pc.Resolve? ==> pc.target == pc.chat.to)
    && (pc.Persist? || pc.Publish? || pc.MarkOwn? ==> ConvOf(db, pc.conv, u, pc.chat.to))
    && (pc.Publish? || pc.MarkOwn? ==> pc.row in db.msgs && pc.row.conv == pc.conv && pc.row.sender == u)
    && (pc.FindLocal? || pc.FindNode? || pc.Forward? || pc.Push? ==> Addressed(db, pc.payload, pc.chat.to))
  }

  ghost predicate FramesOk(db: Db, cl: Client) {
    && (forall i :: 0 <= i < |cl.send| ==> Addressed(db, cl.send[i], cl.user))
    && (forall i :: 0 <= i < |cl.written| ==> Addressed(db, cl.written[i], cl.user))
    && (cl.backlog.Some? ==>
          forall i :: 0 <= i < |cl.backlog.value| ==> Addressed(db, BacklogFrame(cl.backlog.value[i]), cl.user))
    && (cl.pc.Writing? ==> Addressed(db, cl.pc.payload, cl.user))
  }

  ghost predicate PairsOk(w: World) {
    Conversations.Paired(w.db) && Conversations.Agrees(w.db, w.convCache)
  }

  ghost predicate Inv(w: World) {
    && PairsOk(w)
    && (forall i :: 0 <= i < |w.db.msgs| ==> RowClaimed(w.db, w.claims, w.db.msgs[i]))
    && (forall c :: 0 <= c < |w.clients| ==>
          HandlerOk(w.db, w.claims, w.clients[c].user, w.clients[c].listen) && FramesOk(w.db, w.clients[c]))
    && (forall f :: 0 <= f < |w.forwards| ==> Addressed(w.db, w.forwards[f].payload, w.forwards[f].user))
    && (forall h :: 0 <= h < |w.handed| ==> w.handed[h].row.conv == w.handed[h].conv)
  }

  // ------------------------------------------------------------ growing tables

  lemma AddressedGrows(db: Db, db': Db, p: Payload, u: nat)
    requires Tables.DbGrows(db, db') && Addressed(db, p, u)
    ensures Addressed(db', p, u)
  {
    var i :| 0 <= i < |db.msgs| && db.msgs[i].id == p.msgId && db.msgs[i].conv == p.conv
        && db.msgs[i].sender == p.sender;
    assert db'.msgs[i] == db.msgs[i];
    var j :| 0 <= j < |db.members| && db.members[j].conv == p.conv && db.members[j].user == u;
    assert db'.members[j].conv == p.conv && db'.members[j].user == u;
  }

  lemma ConvOfGrows(db: Db, db': Db, k: nat, a: nat, b: nat)
    requires Conversations.Paired(db) && Conversations.Paired(db') && Tables.DbGrows(db, db') && ConvOf(db, k, a, b)
    ensures ConvOf(db', k, a, b)
  {
    var x, y := 2 * (k - 1), 2 * (k - 1) + 1;
    assert db'.members[x].user == db.members[x].user && db'.members[y].user == db.members[y].user;
  }

  lemma HandlerGrows(w: World, w': World, u: nat, pc: ListenPc)
    requires PairsOk(w) && PairsOk(w') && Tables.DbGrows(w.db, w'.db) && HandlerOk(w.db, w.claims, u, pc)
    requires forall id :: id in w.claims ==> id in w'.claims && w'.claims[id] == w.claims[id]
    ensures HandlerOk(w'.db, w'.claims, u, pc)
  {
    if pc.Persist? || pc.Publish? || pc.MarkOwn? { ConvOfGrows(w.db, w'.db, pc.conv, u, pc.chat.to); }
    if pc.Publish? || pc.MarkOwn? {
      var i :| 0 <= i < |w.db.msgs| && w.db.msgs[i] == pc.row;
      assert w'.db.msgs[i] == pc.row;
    }
    if pc.FindLocal? || pc.FindNode? || pc.Forward? || pc.Push? { AddressedGrows(w.db, w'.db, pc.payload, pc.chat.to); }
  }

  lemma FramesGrow(db: Db, db': Db, cl: Client)
    requires Tables.DbGrows(db, db') && FramesOk(db, cl)
    ensures FramesOk(db', cl)
  {
    forall i | 0 <= i < |cl.send|
      ensures Addressed(db', cl.send[i], cl.user)
    {
      AddressedGrows(db, db', cl.send[i], cl.user);
    }
    forall i | 0 <= i < |cl.written|
      ensures Addressed(db', cl.written[i], cl.user)
    {
      AddressedGrows(db, db', cl.written[i], cl.user);
    }
    if cl.backlog.Some? {
      forall i | 0 <= i < |cl.backlog.value|
        ensures Addressed(db', BacklogFrame(cl.backlog.value[i]), cl.user)
      {
        AddressedGrows(db, db', BacklogFrame(cl.backlog.value[i]), cl.user);
      }
    }
    if cl.pc.Writing? { AddressedGrows(db, db', cl.pc.payload, cl.user); }
  }

  /** A conversation of two users has both as members. */
  lemma ConvOfMembers(db: Db, k: nat, a: nat, b: nat)
    requires Conversations.Paired(db) && ConvOf(db, k, a, b)
    ensures HasMember(db, k, a) && HasMember(db, k, b)
  {
    var x, y := db.members[2 * (k - 1)], db.members[2 * (k - 1) + 1];
    assert x.conv == k && y.conv == k;
    assert (x.user == a && y.user == b) || (x.user == b && y.user == a);
  }

  // ---------------------------------------------------------- preservation

  lemma PairsStep(w: World, a: Action)
    requires PairsOk(w) && Enabled(w, a) && Tables.StoreOk(w) && Clean(w, a)
    ensures PairsOk(Step(w, a))
  {
    StepFrame(w, a);
    match a
    case Env(e) => EnvPairs(w, e);
    case Listen(c, e) => if e.DoResolve? { ResolvePairs(w, c, e.convFaults); } else { ListenPairs(w, c, e); }
    case _ =>
  }

  lemma EnvPairs(w: World, e: EnvAct)
    requires PairsOk(w) && EnvEnabled(w, e)
    ensures PairsOk(EnvStep(w, e))
  {
    var w' := EnvStep(w, e);
    assert forall i :: 0 <= i < |w.db.convs| ==> Conversations.PairAt(w'.db, i) == Conversations.PairAt(w.db, i);
  }

  lemma ResolvePairs(w: World, c: nat, f: Conversations.Faults)
    requires PairsOk(w) && ListenEnabled(w, c, DoResolve(f)) && Tables.StoreOk(w) && Clean(w, Listen(c, DoResolve(f)))
    ensures PairsOk(ResolveStep(w, c, f))
    ensures var pc := ResolveStep(w, c, f).clients[c].listen;
            pc.Persist? ==> ConvOf(ResolveStep(w, c, f).db, pc.conv, w.clients[c].user, w.clients[c].listen.target)
  {
    Conversations.ResolveKeepsPairedExactly(w.db, w.convCache, w.clients[c].user, w.clients[c].listen.target, w.now, f);
  }

  lemma SameMembersPaired(db: Db, db': Db, cache: Conversations.Cache)
    requires Conversations.Paired(db) && Conversations.Agrees(db, cache)
    requires |db'.convs| == |db.convs| && |db'.members| == |db.members|
    requires forall i :: 0 <= i < |db.members| ==>
               db'.members[i].conv == db.members[i].conv && db'.members[i].user == db.members[i].user
    ensures Conversations.Paired(db') && Conversations.Agrees(db', cache)
  {
    assert forall i :: 0 <= i < |db.convs| ==> Conversations.PairAt(db', i) == Conversations.PairAt(db, i);
  }

  lemma ListenPairs(w: World, c: nat, e: ListenAct)
    requires PairsOk(w) && ListenEnabled(w, c, e) && !e.DoResolve?
    ensures PairsOk(ListenStep(w, c, e))
  {
    ListenFrame(w, c, e);
    SameMembers(w, c, e);
    SameMembersPaired(w.db, ListenStep(w, c, e).db, w.convCache);
  }

  lemma SameMembers(w: World, c: nat, e: ListenAct)
    requires ListenEnabled(w, c, e) && !e.DoResolve?
    ensures var db, db' := w.db, ListenStep(w, c, e).db;
            && |db'.convs| == |db.convs| && |db'.members| == |db.members|
            && forall i :: 0 <= i < |db.members| ==>
                 db'.members[i].conv == db.members[i].conv && db'.members[i].user == db.members[i].user
  {
  }

  /** The insert returns a row of this conversation and sender, new or replayed. */
  lemma PersistReturns(w: World, c: nat, f: InsertFault)
    requires Inv(w) && ListenEnabled(w, c, DoPersist(f))
    requires Tables.Inv(w)
    ensures var pc, pc' := w.clients[c].listen, PersistStep(w, c, f).clients[c].listen;
            pc'.Publish? ==>
              pc'.row.conv == pc.conv && pc'.row.sender == w.clients[c].user && pc'.row in PersistStep(w, c, f).db.msgs
  {
    var cl := w.clients[c];
    var pc := cl.listen;
    assert HandlerOk(w.db, w.claims, cl.user, pc);
    assert Tables.HandlerOk(w.db, pc);
    CreateMessageKeepsValid(w.db, Draft(pc.conv, cl.user, pc.chat.content, pc.chat.clientId, w.now), f);
    ReplayedRow(w, cl.user, pc);
  }

  /** A stored row under a handler's client id is of its conversation and sender. */
  lemma ReplayedRow(w: World, u: nat, pc: ListenPc)
    requires Inv(w) && HandlerOk(w.db, w.claims, u, pc) && pc.Persist?
    ensures var r := FindByClientId(w.db.msgs, pc.chat.clientId);
            r.Some? ==> r.value.conv == pc.conv && r.value.sender == u
  {
    var r := FindByClientId(w.db.msgs, pc.chat.clientId);
    if r.Some? {
      var i :| 0 <= i < |w.db.msgs| && w.db.msgs[i] == r.value;
      assert RowClaimed(w.db, w.claims, w.db.msgs[i]);
    }
  }

  lemma ResolveTarget(w: World, c: nat, f: UserCache.Faults)
    requires ListenEnabled(w, c, DoFindUser(f)) && Tables.StoreOk(w)
    ensures var pc' := FindUserStep(w, c, f).clients[c].listen;
            pc'.Resolve? ==> pc'.chat == w.clients[c].listen.chat && pc'.target == pc'.chat.to
  {
  }

  /** The frame built from a stored row is addressed to the target. */
  lemma MarkOwnAddresses(w: World, c: nat, ok: bool)
    requires Inv(w) && ListenEnabled(w, c, DoMarkOwn(ok))
    ensures var pc' := MarkOwnStep(w, c, ok).clients[c].listen;
            pc'.FindLocal? && Addressed(w.db, pc'.payload, pc'.chat.to)
  {
    var cl := w.clients[c];
    assert HandlerOk(w.db, w.claims, cl.user, cl.listen);
    ConvOfMembers(w.db, cl.listen.conv, cl.user, cl.listen.chat.to);
    var i :| 0 <= i < |w.db.msgs| && w.db.msgs[i] == cl.listen.row;
  }

  /** The handler's part of the invariant after one of its own steps. */
  ghost predicate HandlerKept(w': World, c: nat) {
    PairsOk(w') && c < |w'.clients| && HandlerOk(w'.db, w'.claims, w'.clients[c].user, w'.clients[c].listen)
  }

  lemma FindUserHandler(w: World, c: nat, f: UserCache.Faults)
    requires Inv(w) && ListenEnabled(w, c, DoFindUser(f)) && Tables.StoreOk(w)
    ensures HandlerKept(FindUserStep(w, c, f), c)
  {
    assert HandlerOk(w.db, w.claims, w.clients[c].user, w.clients[c].listen);
    ResolveTarget(w, c, f);
  }

  lemma ResolveHandler(w: World, c: nat, f: Conversations.Faults)
    requires Inv(w) && ListenEnabled(w, c, DoResolve(f)) && Tables.StoreOk(w) && Clean(w, Listen(c, DoResolve(f)))
    ensures HandlerKept(ResolveStep(w, c, f), c)
  {
    assert HandlerOk(w.db, w.claims, w.clients[c].user, w.clients[c].listen);
    ResolvePairs(w, c, f);
  }

  lemma PersistHandler(w: World, c: nat, f: InsertFault)
    requires Inv(w) && ListenEnabled(w, c, DoPersist(f)) && Tables.Inv(w)
    requires PairsOk(PersistStep(w, c, f)) && Tables.DbGrows(w.db, PersistStep(w, c, f).db)
    ensures HandlerKept(PersistStep(w, c, f), c)
  {
    var cl := w.clients[c];
    assert HandlerOk(w.db, w.claims, cl.user, cl.listen);
    PersistReturns(w, c, f);
    ConvOfGrows(w.db, PersistStep(w, c, f).db, cl.listen.conv, cl.user, cl.listen.chat.to);
  }

  lemma PublishHandler(w: World, c: nat, direct: bool, ok: bool)
    requires Inv(w) && ListenEnabled(w, c, DoPublish(direct, ok))
    requires PairsOk(PublishStep(w, c, direct, ok)) && Tables.DbGrows(w.db, PublishStep(w, c, direct, ok).db)
    ensures HandlerKept(PublishStep(w, c, direct, ok), c)
  {
    var cl := w.clients[c];
    assert HandlerOk(w.db, w.claims, cl.user, cl.listen);
    HandlerGrows(w, PublishStep(w, c, direct, ok), cl.user, cl.listen);
  }

  lemma MarkOwnHandler(w: World, c: nat, ok: bool)
    requires Inv(w) && ListenEnabled(w, c, DoMarkOwn(ok))
    requires PairsOk(MarkOwnStep(w, c, ok)) && Tables.DbGrows(w.db, MarkOwnStep(w, c, ok).db)
    ensures HandlerKept(MarkOwnStep(w, c, ok), c)
  {
    var cl, w' := w.clients[c], MarkOwnStep(w, c, ok);
    assert HandlerOk(w.db, w.claims, cl.user, cl.listen);
    MarkOwnAddresses(w, c, ok);
    AddressedGrows(w.db, w'.db, w'.clients[c].listen.payload, cl.listen.chat.to);
  }

  lemma ReceiveHandler(w: World, c: nat, frame: Inbound)
    requires Inv(w) && ListenEnabled(w, c, Receive(frame)) && Clean(w, Listen(c, Receive(frame)))
    ensures HandlerKept(ReceiveStep(w, c, frame), c)
  {
  }

  /** The remaining steps keep the payload in hand or end the handler. */
  lemma OtherHandler(w: World, c: nat, e: ListenAct)
    requires Inv(w) && ListenEnabled(w, c, e)
    requires !e.DoFindUser? && !e.DoResolve? && !e.DoPersist? && !e.DoPublish? && !e.DoMarkOwn? && !e.Receive?
    ensures var w' := ListenStep(w, c, e);
            c < |w'.clients| && w'.clients[c].user == w.clients[c].user
            && HandlerOk(w.db, w.claims, w.clients[c].user, w'.clients[c].listen)
  {
    if e.DoFindLocal? || e.DoFindNode? {
      LookupHandler(w, c, e);
    } else {
      assert HandlerOk(w.db, w.claims, w.clients[c].user, w.clients[c].listen);
    }
  }

  lemma LookupHandler(w: World, c: nat, e: ListenAct)
    requires Inv(w) && ListenEnabled(w, c, e) && (e.DoFindLocal? || e.DoFindNode?)
    ensures var w' := ListenStep(w, c, e);
            c < |w'.clients| && w'.clients[c].user == w.clients[c].user
            && HandlerOk(w.db, w.claims, w.clients[c].user, w'.clients[c].listen)
  {
    assert HandlerOk(w.db, w.claims, w.clients[c].user, w.clients[c].listen);
  }

  lemma HandlerStep(w: World, c: nat, e: ListenAct)
    requires Inv(w) && ListenEnabled(w, c, e) && Tables.Inv(w) && Clean(w, Listen(c, e))
    requires PairsOk(ListenStep(w, c, e)) && Tables.DbGrows(w.db, ListenStep(w, c, e).db)
    ensures HandlerKept(ListenStep(w, c, e), c)
  {
    match e
    case Receive(frame) => ReceiveHandler(w, c, frame);
    case DoFindUser(f) => FindUserHandler(w, c, f);
    case DoResolve(f) => ResolveHandler(w, c, f);
    case DoPersist(f) => PersistHandler(w, c, f);
    case DoPublish(direct, ok) => PublishHandler(w, c, direct, ok);
    case DoMarkOwn(ok) => MarkOwnHandler(w, c, ok);
    case _ => OtherHandlerKept(w, c, e);
  }

  lemma OtherHandlerKept(w: World, c: nat, e: ListenAct)
    requires Inv(w) && ListenEnabled(w, c, e) && PairsOk(ListenStep(w, c, e))
    requires Tables.DbGrows(w.db, ListenStep(w, c, e).db)
    requires !e.DoFindUser? && !e.DoResolve? && !e.DoPersist? && !e.DoPublish? && !e.DoMarkOwn? && !e.Receive?
    ensures HandlerKept(ListenStep(w, c, e), c)
  {
    ListenFrame(w, c, e);
    OtherHandler(w, c, e);
    HandlerGrows(w, ListenStep(w, c, e), w.clients[c].user, ListenStep(w, c, e).clients[c].listen);
  }

  // ---------------------------------------------------------- rows and records

  lemma RowsStep(w: World, a: Action, w': World)
    requires Inv(w) && Frame(w, a, w') && PairsOk(w') && Tables.DbGrows(w.db, w'.db)
    requires forall id :: id in w.claims ==> id in w'.claims && w'.claims[id] == w.claims[id]
    requires forall i :: |w.db.msgs| <= i < |w'.db.msgs| ==> RowClaimed(w'.db, w'.claims, w'.db.msgs[i])
    ensures forall i :: 0 <= i < |w'.db.msgs| ==> RowClaimed(w'.db, w'.claims, w'.db.msgs[i])
  {
    forall i | 0 <= i < |w.db.msgs|
      ensures RowClaimed(w'.db, w'.claims, w'.db.msgs[i])
    {
      var m := w.db.msgs[i];
      assert RowClaimed(w.db, w.claims, m) && w'.db.msgs[i] == m;
      ConvOfGrows(w.db, w'.db, m.conv, m.sender, w.claims[m.clientId].1);
    }
  }

  lemma NewRow(w: World, c: nat, f: InsertFault)
    requires Inv(w) && ListenEnabled(w, c, DoPersist(f)) && PairsOk(PersistStep(w, c, f))
    requires Tables.DbGrows(w.db, PersistStep(w, c, f).db)
    ensures var w' := PersistStep(w, c, f);
            forall i :: |w.db.msgs| <= i < |w'.db.msgs| ==> RowClaimed(w'.db, w'.claims, w'.db.msgs[i])
  {
    var cl := w.clients[c];
    assert HandlerOk(w.db, w.claims, cl.user, cl.listen);
    ConvOfGrows(w.db, PersistStep(w, c, f).db, cl.listen.conv, cl.user, cl.listen.chat.to);
  }

  lemma ClaimsGrow(w: World, a: Action)
    requires Enabled(w, a)
    ensures forall id :: id in w.claims ==> id in Step(w, a).claims && Step(w, a).claims[id] == w.claims[id]
    ensures !(a.Listen? && a.listen.DoPersist?) ==> Step(w, a).db.msgs == w.db.msgs
  {
    StepFrame(w, a);
    if a.Listen? && TouchesDb(a) && !a.listen.DoPersist? { MessagesSame(w, a.client, a.listen); }
  }

  lemma MessagesSame(w: World, c: nat, e: ListenAct)
    requires ListenEnabled(w, c, e) && (e.DoResolve? || e.DoPublish? || e.DoMarkOwn? || e.DoAck?)
    ensures ListenStep(w, c, e).db.msgs == w.db.msgs
  {
  }

  lemma RecordsStep(w: World, a: Action)
    requires Inv(w) && Enabled(w, a) && Tables.DbGrows(w.db, Step(w, a).db)
    ensures var w' := Step(w, a);
            && (forall f :: 0 <= f < |w'.forwards| ==> Addressed(w'.db, w'.forwards[f].payload, w'.forwards[f].user))
            && (forall h :: 0 <= h < |w'.handed| ==> w'.handed[h].row.conv == w'.handed[h].conv)
  {
    var w' := Step(w, a);
    StepFrame(w, a);
    if a.Listen? {
      assert HandlerOk(w.db, w.claims, w.clients[a.client].user, w.clients[a.client].listen);
      ListenRecords(w, a.client, a.listen);
    } else {
      QuietRecords(w, a);
    }
    forall f | 0 <= f < |w'.forwards|
      ensures Addressed(w'.db, w'.forwards[f].payload, w'.forwards[f].user)
    {
      if f < |w.forwards| { AddressedGrows(w.db, w'.db, w.forwards[f].payload, w.forwards[f].user); }
    }
  }

  lemma QuietRecords(w: World, a: Action)
    requires Enabled(w, a) && !a.Listen?
    ensures Step(w, a).forwards == w.forwards && Step(w, a).handed == w.handed
  {
    if a.Conn? { ConnRecords(w, a.client, a.conn); }
    if a.SubPush? { assert SubPushStep(w, a.node).forwards == w.forwards; }
  }

  lemma ConnRecords(w: World, c: nat, e: ConnectAct)
    requires ConnEnabled(w, c, e)
    ensures ConnStep(w, c, e).forwards == w.forwards && ConnStep(w, c, e).handed == w.handed
  {
  }

  lemma ListenRecords(w: World, c: nat, e: ListenAct)
    requires Inv(w) && ListenEnabled(w, c, e) && HandlerOk(w.db, w.claims, w.clients[c].user, w.clients[c].listen)
    ensures var w' := ListenStep(w, c, e);
            && (forall f :: |w.forwards| <= f < |w'.forwards| ==>
                  w'.db == w.db && Addressed(w.db, w'.forwards[f].payload, w'.forwards[f].user))
            && (forall h :: |w.handed| <= h < |w'.handed| ==> w'.handed[h].row.conv == w'.handed[h].conv)
            && w.handed <= w'.handed
  {
  }

  // -------------------------------------------------------------- frames

  ghost predicate AllFramesOk(w: World, w': World) {
    |w.clients| <= |w'.clients| && forall d :: 0 <= d < |w.clients| ==> FramesOk(w.db, w'.clients[d])
  }

  /** What a push leaves in the frames of any connection. */
  lemma OfferFrames(db: Db, x: Client, y: Client, p: Payload)
    requires FramesOk(db, x) && Addressed(db, p, x.user)
    requires y == x || Offered(x, y, p)
    ensures FramesOk(db, y)
  {
  }

  lemma PushFrames(w: World, c: nat)
    requires Inv(w) && ListenEnabled(w, c, DoPush) && Lifecycle.Inv(w)
    ensures AllFramesOk(w, PushStep(w, c))
  {
    var pc, w' := w.clients[c].listen, PushStep(w, c);
    assert HandlerOk(w.db, w.claims, w.clients[c].user, pc);
    assert Lifecycle.ClientOk(w, c);
    PushFrame(w, c);
    forall d | 0 <= d < |w.clients|
      ensures FramesOk(w.db, w'.clients[d])
    {
      assert FramesOk(w.db, w.clients[d]);
      PushTargets(w, c, d);
      var y := w'.clients[d].(listen := w.clients[d].listen);
      if d == pc.client { OfferFrames(w.db, w.clients[d], y, pc.payload); }
      assert FramesOk(w.db, y);
    }
  }

  lemma PushTargets(w: World, c: nat, d: nat)
    requires ListenEnabled(w, c, DoPush) && d < |w.clients|
    ensures d < |PushStep(w, c).clients|
    ensures var x, y := w.clients[d], PushStep(w, c).clients[d].(listen := w.clients[d].listen);
            if d == w.clients[c].listen.client then Offered(x, y, w.clients[c].listen.payload) else y == x
  {
  }

  lemma SubPushFrames(w: World, n: nat)
    requires Inv(w) && SubHolds(w, n) && Lifecycle.Inv(w)
    ensures AllFramesOk(w, SubPushStep(w, n))
  {
    var h, w' := w.nodes[n].held.value, SubPushStep(w, n);
    assert Lifecycle.NodeOk(w, n);
    SubPushFrame(w, n);
    forall d | 0 <= d < |w.clients|
      ensures FramesOk(w.db, w'.clients[d])
    {
      assert FramesOk(w.db, w.clients[d]);
      SubPushTargets(w, n, d);
      if d == h.client { OfferFrames(w.db, w.clients[d], w'.clients[d], w.forwards[h.forward].payload); }
    }
  }

  lemma SubPushTargets(w: World, n: nat, d: nat)
    requires SubHolds(w, n) && d < |w.clients|
    ensures d < |SubPushStep(w, n).clients|
    ensures var x, y, h := w.clients[d], SubPushStep(w, n).clients[d], w.nodes[n].held.value;
            if d == h.client then Offered(x, y, w.forwards[h.forward].payload) else y == x
  {
  }

  /** The writer moves frames that are addressed already; the query adds rows of
      the user's own conversations. */
  lemma ConnFrames(w: World, c: nat, e: ConnectAct)
    requires Inv(w) && ConnEnabled(w, c, e) && FramesOk(w.db, w.clients[c])
    ensures c < |ConnStep(w, c, e).clients| && FramesOk(w.db, ConnStep(w, c, e).clients[c])
  {
    if e.QueryBacklog? { QueryFrames(w, c, e.ok); }
  }

  lemma QueryFrames(w: World, c: nat, ok: bool)
    requires ConnEnabled(w, c, QueryBacklog(ok)) && FramesOk(w.db, w.clients[c])
    ensures FramesOk(w.db, QueryBacklogStep(w, c, ok).clients[c])
  {
    var cl := QueryBacklogStep(w, c, ok).clients[c];
    forall i | ok && 0 <= i < |cl.backlog.value|
      ensures Addressed(w.db, BacklogFrame(cl.backlog.value[i]), cl.user)
    {
      var m := cl.backlog.value[i];
      assert m in Unread(w.db, cl.user);
      UnreadExactly(w.db, w.db.msgs, cl.user, m);
    }
  }

  lemma ListenKeepsFrames(w: World, c: nat, e: ListenAct)
    requires ListenEnabled(w, c, e) && !e.DoPush? && FramesOk(w.db, w.clients[c])
    ensures c < |ListenStep(w, c, e).clients| && FramesOk(w.db, ListenStep(w, c, e).clients[c])
  {
    Socket.QuietListen(w, c, e);
  }

  lemma FramesStep(w: World, a: Action)
    requires Inv(w) && Enabled(w, a) && Lifecycle.Inv(w)
    ensures AllFramesOk(w, Step(w, a))
  {
    match a
    case Listen(c, e) => if e.DoPush? { PushFrames(w, c); } else { ListenKeepsFrames(w, c, e); QuietFrames(w, a); }
    case Conn(c, e) => ConnFrames(w, c, e); QuietFrames(w, a);
    case SubPush(n) => SubPushFrames(w, n);
    case _ => QuietFrames(w, a);
  }

  lemma QuietFrames(w: World, a: Action)
    requires Inv(w) && Enabled(w, a) && !Pushes(a)
    requires 0 <= Mover(a) ==> Mover(a) < |Step(w, a).clients| && FramesOk(w.db, Step(w, a).clients[Mover(a)])
    ensures AllFramesOk(w, Step(w, a))
  {
    StepFrame(w, a);
    QuietAllFrames(w, a, Step(w, a));
  }

  lemma QuietAllFrames(w: World, a: Action, w': World)
    requires Inv(w) && Frame(w, a, w') && !Pushes(a)
    requires 0 <= Mover(a) < |w'.clients| ==> FramesOk(w.db, w'.clients[Mover(a)])
    ensures AllFramesOk(w, w')
  {
  }

  // ----------------------------------------------------------------- runs

  lemma ClientsStep(w: World, a: Action, w': World)
    requires Inv(w) && Frame(w, a, w') && PairsOk(w') && Tables.DbGrows(w.db, w'.db)
    requires forall id :: id in w.claims ==> id in w'.claims && w'.claims[id] == w.claims[id]
    requires AllFramesOk(w, w')
    requires a.Listen? ==> HandlerKept(w', a.client)
    requires a.Conn? ==>
               a.client < |w.clients|
               && (w'.clients[a.client].listen == w.clients[a.client].listen || w'.clients[a.client].listen == Reading)
    ensures forall d :: 0 <= d < |w'.clients| ==>
              HandlerOk(w'.db, w'.claims, w'.clients[d].user, w'.clients[d].listen) && FramesOk(w'.db, w'.clients[d])
  {
    forall d | 0 <= d < |w'.clients|
      ensures HandlerOk(w'.db, w'.claims, w'.clients[d].user, w'.clients[d].listen) && FramesOk(w'.db, w'.clients[d])
    {
      if d < |w.clients| {
        HandlerGrows(w, w', w.clients[d].user, w.clients[d].listen);
        FramesGrow(w.db, w'.db, w'.clients[d]);
        if d != Mover(a) { assert OnlyOffered(w.clients[d], w'.clients[d]); }
      }
    }
  }

  lemma InvStep(w: World, a: Action)
    requires Inv(w) && Enabled(w, a) && Lifecycle.Inv(w) && Tables.Inv(w) && Clean(w, a)
    ensures Inv(Step(w, a))
  {
    var w' := Step(w, a);
    StepFrame(w, a);
    Tables.InvStep(w, a);
    PairsStep(w, a);
    ClaimsGrow(w, a);
    RecordsStep(w, a);
    FramesStep(w, a);
    if a.Conn? { Tables.ConnKeepsListen(w, a.client, a.conn); }
    if a.Listen? {
      HandlerStep(w, a.client, a.listen);
      if a.listen.DoPersist? { NewRow(w, a.client, a.listen.insertFault); }
    }
    RowsStep(w, a, w');
    ClientsStep(w, a, w');
  }

  lemma {:induction false} InvHolds(tr: seq<World>, acts: seq<Action>, k: nat)
    requires Run(tr, acts) && k < |tr|
    requires forall j :: 0 <= j < k ==> Clean(tr[j], acts[j])
    ensures Inv(tr[k])
  {
    if k > 0 {
      assert StepAt(tr, acts, k - 1);
      InvHolds(tr, acts, k - 1);
      Lifecycle.InvHolds(tr, acts, k - 1);
      Tables.InvHolds(tr, acts, k - 1);
      InvStep(tr[k - 1], acts[k - 1]);
    }
  }

  // --------------------------------------------------------------- theorems

  /** In every reachable state of a clean run, each frame in any client's `Send` or
      already on its socket is about a stored message, names its sender and
      conversation truly, and the client's user is a member of that conversation. */
  lemma NoMisdelivery(tr: seq<World>, acts: seq<Action>, k: nat, c: nat, p: Payload)
    requires Run(tr, acts) && k < |tr| && c < |tr[k].clients|
    requires forall j :: 0 <= j < k ==> Clean(tr[j], acts[j])
    requires p in tr[k].clients[c].send || p in tr[k].clients[c].written
    ensures HasMember(tr[k].db, p.conv, tr[k].clients[c].user)
    ensures exists m :: m in tr[k].db.msgs && m.id == p.msgId && m.conv == p.conv && m.sender == p.sender
  {
    InvHolds(tr, acts, k);
    var w := tr[k];
    assert FramesOk(w.db, w.clients[c]);
    assert Addressed(w.db, p, w.clients[c].user);
    var i :| 0 <= i < |w.db.msgs| && w.db.msgs[i].id == p.msgId && w.db.msgs[i].conv == p.conv
        && w.db.msgs[i].sender == p.sender;
    assert w.db.msgs[i] in w.db.msgs;
  }

  /** In every reachable state of a clean run the cached lookup refines the tables:
      whatever Redis does, it answers unless a statement it needs fails, and the answer is the
      one conversation the pair shares, or 0. */
  lemma ConversationLookupTheorem(tr: seq<World>, acts: seq<Action>, k: nat, a: nat, b: nat,
                                  f: Conversations.CheckFaults)
    requires Run(tr, acts) && k < |tr| && a != b
    requires forall j :: 0 <= j < k ==> Clean(tr[j], acts[j])
    ensures var r :=
              Conversations.CheckConversationExist(tr[k].db, tr[k].convCache, a, b, Conversations.SINGLE, tr[k].now,
                                                   f).1;
            && (r.Ok? <==> Conversations.CacheAnswers(tr[k].convCache, a, b, tr[k].now, f)
                           || (f.groupWorks && (Conversations.ShareOne(tr[k].db, a, b) ==> f.firstWorks)))
            && (r.Ok? ==> forall conv :: Conversations.Shared(tr[k].db, conv, a, b) <==> conv == r.value && conv != 0)
    ensures forall key :: key in tr[k].convCache ==> tr[k].convCache[key].id != 0
  {
    InvHolds(tr, acts, k);
    Tables.InvHolds(tr, acts, k);
    Conversations.CheckIsExact(tr[k].db, tr[k].convCache, a, b, tr[k].now, f);
    Conversations.CheckAnswersExactly(tr[k].db, tr[k].convCache, a, b, tr[k].now, f);
  }

  /** In a clean run a conversation's summary comes from one of its own messages. */
  lemma SummaryIsOwn(tr: seq<World>, acts: seq<Action>, k: nat, conv: nat)
    requires Run(tr, acts) && k < |tr| && ConvExists(tr[k].db, conv) && tr[k].db.convs[conv - 1].last.Some?
    requires forall j :: 0 <= j < k ==> Clean(tr[j], acts[j])
    ensures exists m :: m in tr[k].db.msgs && m.conv == conv && Shows(tr[k].db.convs[conv - 1], m)
  {
    InvHolds(tr, acts, k);
    Tables.SummaryProvenance(tr, acts, k, conv);
    var m :| m in tr[k].db.msgs && MqMessage(conv, m) in tr[k].handed
        && Shows(tr[k].db.convs[conv - 1], m);
    var h :| 0 <= h < |tr[k].handed| && tr[k].handed[h] == MqMessage(conv, m);
  }
}
