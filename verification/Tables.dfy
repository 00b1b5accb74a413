/** Nothing falls out of storage: what every run of the protocol keeps true of the
    tables, and what it says about a message a user has not read. */
module Tables {
  import opened Basics
  import opened Store
  import opened Cluster
  import opened Frames
  import Conversations
  import UserCache

  // ------------------------------------------------------------- invariant

  predicate Stored(db: Db, id: nat) {
    exists i :: 0 <= i < |db.msgs| && db.msgs[i].id == id
  }

  /** A cursor that left 0 was put there by an executed ack or own-send update. */
  ghost predicate CursorsLogged(db: Db, log: set<Cursor>) {
    forall i :: 0 <= i < |db.members| ==>
      db.members[i].lastRead == 0 || Cursor(db.members[i].conv, db.members[i].user, db.members[i].lastRead) in log
  }

  ghost predicate HandedStored(db: Db, handed: seq<MqMessage>) {
    forall i :: 0 <= i < |handed| ==> handed[i].row in db.msgs
  }

  /** The three summary columns come from one message handed over for that conversation. */
  ghost predicate Provenance(db: Db, handed: seq<MqMessage>) {
    forall k :: 0 <= k < |db.convs| && db.convs[k].last.Some? ==>
      exists i :: 0 <= i < |handed| && handed[i].conv == k + 1 && db.convs[k].last.value == SummaryOf(handed[i].row)
  }

  /** Accounts are keyed by ids already handed out, and cached accounts are current. */
  ghost predicate Accounts(db: Db, cache: UserCache.Cache, now: nat) {
    && (forall u :: u in db.users ==> u < db.nextUser)
    && UserCache.UsersOk(db.users, now)
    && UserCache.PositiveOk(db.users, cache)
  }

  ghost predicate StoreOk(w: World) {
    && Accounts(w.db, w.userCache, w.now)
    && Valid(w.db)
    && Conversations.Sane(w.db, w.convCache)
    && CursorsLogged(w.db, w.cursors)
    && HandedStored(w.db, w.handed)
    && Provenance(w.db, w.handed)
  }

  /** A handler works on an existing conversation and, once past the insert, on a stored row. */
  ghost predicate HandlerOk(db: Db, pc: ListenPc) {
    && (pc.Persist? || pc.Publish? || pc.MarkOwn? ==> ConvExists(db, pc.conv))
    && (pc.Publish? || pc.MarkOwn? ==> pc.row in db.msgs)
    && (Routing(pc) ==> Stored(db, MessageOf(pc)))
  }

  ghost predicate Handlers(w: World) {
    forall c :: 0 <= c < |w.clients| ==> HandlerOk(w.db, w.clients[c].listen)
  }

  ghost predicate Inv(w: World) {
    StoreOk(w) && Handlers(w)
  }

  /** Rows are only added, and a cursor only moves up. */
  ghost predicate DbGrows(db: Db, db': Db) {
    && db.msgs <= db'.msgs
    && |db.convs| <= |db'.convs|
    && |db.members| <= |db'.members|
    && (forall i :: 0 <= i < |db.members| ==>
          && db'.members[i].(lastRead := db.members[i].lastRead) == db.members[i]
          && db.members[i].lastRead <= db'.members[i].lastRead)
    && db.nextMsg <= db'.nextMsg
    && (forall u :: u in db.users ==> u in db'.users && db'.users[u] == db.users[u])
  }

  // ------------------------------------------- the statements that write tables

  lemma UpdateConversationKeeps(db: Db, cache: Conversations.Cache, handed: seq<MqMessage>, cursors: set<Cursor>,
                                i: nat, ok: bool)
    requires Valid(db) && Conversations.Sane(db, cache) && CursorsLogged(db, cursors)
    requires HandedStored(db, handed) && Provenance(db, handed) && i < |handed|
    ensures var db' := UpdateConversation(db, handed[i].conv, handed[i].row, ok).0;
            && DbGrows(db, db') && Valid(db') && Conversations.Sane(db', cache) && CursorsLogged(db', cursors)
            && HandedStored(db', handed) && Provenance(db', handed)
  {
  }

  lemma UpdateLastReadKeeps(db: Db, cache: Conversations.Cache, handed: seq<MqMessage>, cursors: set<Cursor>, a: Cursor,
                            ok: bool)
    requires Valid(db) && Conversations.Sane(db, cache) && CursorsLogged(db, cursors)
    requires HandedStored(db, handed) && Provenance(db, handed)
    ensures var db' := if ok then UpdateLastRead(db, a) else db;
            var cursors' := if ok then cursors + {a} else cursors;
            && DbGrows(db, db') && Valid(db') && Conversations.Sane(db', cache) && CursorsLogged(db', cursors')
            && HandedStored(db', handed) && Provenance(db', handed)
  {
  }

  lemma CreateMessageKeeps(db: Db, cache: Conversations.Cache, handed: seq<MqMessage>, cursors: set<Cursor>, d: Draft,
                           f: InsertFault)
    requires Valid(db) && Conversations.Sane(db, cache) && CursorsLogged(db, cursors)
    requires HandedStored(db, handed) && Provenance(db, handed) && ConvExists(db, d.conv)
    ensures var (db', r) := CreateMessage(db, d, f);
            && DbGrows(db, db') && Valid(db') && Conversations.Sane(db', cache) && CursorsLogged(db', cursors)
            && HandedStored(db', handed) && Provenance(db', handed)
            && (r.Ok? ==> r.value in db'.msgs && Stored(db', r.value.id))
  {
    CreateMessageKeepsValid(db, d, f);
    var (db', r) := CreateMessage(db, d, f);
    if r.Ok? {
      var i :| 0 <= i < |db'.msgs| && db'.msgs[i] == r.value;
    }
  }

  lemma ResolveKeeps(db: Db, cache: Conversations.Cache, handed: seq<MqMessage>, cursors: set<Cursor>, a: nat, b: nat,
                     now: nat, f: Conversations.Faults)
    requires Valid(db) && Conversations.Sane(db, cache) && CursorsLogged(db, cursors)
    requires HandedStored(db, handed) && Provenance(db, handed)
    ensures var (db', cache', r) := Conversations.Resolve(db, cache, a, b, now, f);
            && DbGrows(db, db') && Valid(db') && Conversations.Sane(db', cache') && CursorsLogged(db', cursors)
            && HandedStored(db', handed) && Provenance(db', handed)
            && (r.Ok? ==> ConvExists(db', r.value))
  {
    Conversations.ResolveKeepsSane(db, cache, a, b, now, f);
    Conversations.ResolveAdds(db, cache, a, b, now, f);
  }

  // ---------------------------------------------------------- preservation

  ghost predicate Kept(w: World, w': World) {
    StoreOk(w') && DbGrows(w.db, w'.db)
  }

  lemma EnvKeeps(w: World, e: EnvAct)
    requires StoreOk(w) && EnvEnabled(w, e)
    ensures Kept(w, EnvStep(w, e))
  {
    if e.ConsumeUpdate? {
      UpdateConversationKeeps(w.db, w.convCache, w.handed, w.cursors, e.update, e.ok);
    }
  }

  lemma FindUserKeeps(w: World, c: nat, f: UserCache.Faults)
    requires StoreOk(w) && Awake(w, c) && w.clients[c].listen.FindUser?
    ensures Kept(w, FindUserStep(w, c, f))
    ensures HandlerOk(FindUserStep(w, c, f).db, FindUserStep(w, c, f).clients[c].listen)
  {
    UserCache.LookupKeepsPositive(w.db.users, w.userCache, w.clients[c].listen.chat.to, w.now, f);
  }

  lemma ResolveStepKeeps(w: World, c: nat, f: Conversations.Faults)
    requires StoreOk(w) && Awake(w, c) && w.clients[c].listen.Resolve?
    ensures Kept(w, ResolveStep(w, c, f)) && HandlerOk(ResolveStep(w, c, f).db, ResolveStep(w, c, f).clients[c].listen)
  {
    var u, t := w.clients[c].user, w.clients[c].listen.target;
    ResolveKeeps(w.db, w.convCache, w.handed, w.cursors, u, t, w.now, f);
    Conversations.ResolveKeepsSane(w.db, w.convCache, u, t, w.now, f);
  }

  lemma PersistKeeps(w: World, c: nat, f: InsertFault)
    requires StoreOk(w) && Awake(w, c) && w.clients[c].listen.Persist? && HandlerOk(w.db, w.clients[c].listen)
    ensures Kept(w, PersistStep(w, c, f)) && HandlerOk(PersistStep(w, c, f).db, PersistStep(w, c, f).clients[c].listen)
  {
    var pc := w.clients[c].listen;
    CreateMessageKeeps(w.db, w.convCache, w.handed, w.cursors,
                       Draft(pc.conv, w.clients[c].user, pc.chat.content, pc.chat.clientId, w.now), f);
  }

  lemma HandingKeeps(db: Db, handed: seq<MqMessage>, x: MqMessage)
    requires HandedStored(db, handed) && Provenance(db, handed) && x.row in db.msgs
    ensures HandedStored(db, handed + [x]) && Provenance(db, handed + [x])
  {
    forall k | 0 <= k < |db.convs| && db.convs[k].last.Some?
      ensures exists i ::
                0 <= i < |handed + [x]| && (handed + [x])[i].conv == k + 1
                && db.convs[k].last.value == SummaryOf((handed + [x])[i].row)
    {
      var i :| 0 <= i < |handed| && handed[i].conv == k + 1 && db.convs[k].last.value == SummaryOf(handed[i].row);
      assert (handed + [x])[i] == handed[i];
    }
  }

  lemma PublishKeeps(w: World, c: nat, direct: bool, ok: bool)
    requires StoreOk(w) && Awake(w, c) && w.clients[c].listen.Publish? && HandlerOk(w.db, w.clients[c].listen)
    ensures Kept(w, PublishStep(w, c, direct, ok))
    ensures HandlerOk(PublishStep(w, c, direct, ok).db, PublishStep(w, c, direct, ok).clients[c].listen)
  {
    var pc := w.clients[c].listen;
    var handed := w.handed + [MqMessage(pc.conv, pc.row)];
    HandingKeeps(w.db, w.handed, MqMessage(pc.conv, pc.row));
    if direct {
      UpdateConversationKeeps(w.db, w.convCache, handed, w.cursors, |w.handed|, ok);
    }
  }

  lemma MarkOwnKeeps(w: World, c: nat, ok: bool)
    requires StoreOk(w) && Awake(w, c) && w.clients[c].listen.MarkOwn? && HandlerOk(w.db, w.clients[c].listen)
    ensures Kept(w, MarkOwnStep(w, c, ok))
    ensures HandlerOk(MarkOwnStep(w, c, ok).db, MarkOwnStep(w, c, ok).clients[c].listen)
  {
    var pc := w.clients[c].listen;
    UpdateLastReadKeeps(w.db, w.convCache, w.handed, w.cursors, Cursor(pc.conv, w.clients[c].user, pc.row.id), ok);
  }

  lemma AckKeeps(w: World, c: nat, ok: bool)
    requires StoreOk(w) && Awake(w, c) && w.clients[c].listen.Acking?
    ensures Kept(w, AckStep(w, c, ok)) && HandlerOk(AckStep(w, c, ok).db, AckStep(w, c, ok).clients[c].listen)
  {
    var cl := w.clients[c];
    UpdateLastReadKeeps(w.db, w.convCache, w.handed, w.cursors, Cursor(cl.listen.conv, cl.user, cl.listen.msgId), ok);
  }

  /** A statement that writes no table leaves its handler where the tables back it. */
  lemma OthersKeepHandler(w: World, c: nat, e: ListenAct)
    requires ListenEnabled(w, c, e) && HandlerOk(w.db, w.clients[c].listen)
    requires !e.DoResolve? && !e.DoPersist? && !e.DoPublish? && !e.DoMarkOwn?
    ensures c < |ListenStep(w, c, e).clients| && HandlerOk(w.db, ListenStep(w, c, e).clients[c].listen)
  {
  }

  lemma HandlerStays(db: Db, db': Db, pc: ListenPc)
    requires DbGrows(db, db') && HandlerOk(db, pc)
    ensures HandlerOk(db', pc)
  {
    if Routing(pc) {
      var i :| 0 <= i < |db.msgs| && db.msgs[i].id == MessageOf(pc);
      assert db'.msgs[i] == db.msgs[i];
    }
    if pc.Publish? || pc.MarkOwn? {
      var i :| 0 <= i < |db.msgs| && db.msgs[i] == pc.row;
      assert db'.msgs[i] == db.msgs[i];
    }
  }

  lemma StoreStays(w: World, a: Action, w': World)
    requires StoreOk(w) && Frame(w, a, w')
    requires !a.Env? && !TouchesDb(a) && !(a.Listen? && a.listen.DoFindUser?)
    ensures Kept(w, w')
  {
  }

  lemma ListenStore(w: World, c: nat, e: ListenAct)
    requires StoreOk(w) && ListenEnabled(w, c, e) && HandlerOk(w.db, w.clients[c].listen)
    ensures Kept(w, ListenStep(w, c, e))
    ensures c < |ListenStep(w, c, e).clients|
    ensures HandlerOk(ListenStep(w, c, e).db, ListenStep(w, c, e).clients[c].listen)
  {
    match e
    case DoFindUser(f) => FindUserKeeps(w, c, f);
    case DoResolve(f) => ResolveStepKeeps(w, c, f);
    case DoPersist(f) => PersistKeeps(w, c, f);
    case DoPublish(direct, ok) => PublishKeeps(w, c, direct, ok);
    case DoMarkOwn(ok) => MarkOwnKeeps(w, c, ok);
    case DoAck(ok) => AckKeeps(w, c, ok);
    case _ => OtherStore(w, c, e);
  }

  lemma OtherStore(w: World, c: nat, e: ListenAct)
    requires StoreOk(w) && ListenEnabled(w, c, e) && HandlerOk(w.db, w.clients[c].listen)
    requires !TouchesDb(Listen(c, e)) && !e.DoFindUser?
    ensures Kept(w, ListenStep(w, c, e))
    ensures c < |ListenStep(w, c, e).clients|
    ensures HandlerOk(ListenStep(w, c, e).db, ListenStep(w, c, e).clients[c].listen)
  {
    ListenFrame(w, c, e);
    StoreStays(w, Listen(c, e), ListenStep(w, c, e));
    OthersKeepHandler(w, c, e);
  }

  lemma StoreStep(w: World, a: Action)
    requires Inv(w) && Enabled(w, a)
    ensures Kept(w, Step(w, a))
    ensures a.Listen? ==>
              a.client < |Step(w, a).clients| && HandlerOk(Step(w, a).db, Step(w, a).clients[a.client].listen)
  {
    match a
    case Env(e) => EnvKeeps(w, e);
    case Listen(c, e) => ListenStore(w, c, e);
    case _ => QuietStore(w, a);
  }

  lemma QuietStore(w: World, a: Action)
    requires StoreOk(w) && Enabled(w, a) && !a.Env? && !a.Listen?
    ensures Kept(w, Step(w, a))
  {
    StepFrame(w, a);
    StoreStays(w, a, Step(w, a));
  }

  lemma InvStep(w: World, a: Action)
    requires Inv(w) && Enabled(w, a)
    ensures Inv(Step(w, a)) && DbGrows(w.db, Step(w, a).db)
  {
    StepFrame(w, a);
    StoreStep(w, a);
    if a.Conn? { ConnKeepsListen(w, a.client, a.conn); }
    HandlersKeep(w, a, Step(w, a));
  }

  lemma ConnKeepsListen(w: World, c: nat, e: ConnectAct)
    requires ConnEnabled(w, c, e)
    ensures c < |ConnStep(w, c, e).clients|
    ensures ConnStep(w, c, e).clients[c].listen == w.clients[c].listen
            || ConnStep(w, c, e).clients[c].listen == Reading
  {
  }

  lemma HandlersKeep(w: World, a: Action, w': World)
    requires Handlers(w) && Frame(w, a, w') && DbGrows(w.db, w'.db)
    requires a.Listen? ==> a.client < |w'.clients| && HandlerOk(w'.db, w'.clients[a.client].listen)
    requires a.Conn? ==>
               a.client < |w.clients|
               && (w'.clients[a.client].listen == w.clients[a.client].listen || w'.clients[a.client].listen == Reading)
    ensures Handlers(w')
  {
    forall d | 0 <= d < |w'.clients|
      ensures HandlerOk(w'.db, w'.clients[d].listen)
    {
      if d < |w.clients| {
        HandlerStays(w.db, w'.db, w.clients[d].listen);
        if d != Mover(a) { assert OnlyOffered(w.clients[d], w'.clients[d]); }
      }
    }
  }

  lemma {:induction false} InvHolds(tr: seq<World>, acts: seq<Action>, k: nat)
    requires Run(tr, acts) && k < |tr|
    ensures Inv(tr[k])
  {
    if k > 0 {
      assert StepAt(tr, acts, k - 1);
      InvHolds(tr, acts, k - 1);
      InvStep(tr[k - 1], acts[k - 1]);
    }
  }

  // --------------------------------------------------------------- theorems

  /** Nothing falls out of storage. In every reachable state, whatever the live path
      did, a stored message of a conversation with member `u` is either returned by
      the backlog query or at or below a cursor update executed for `u` there. */
  lemma NothingFallsOut(tr: seq<World>, acts: seq<Action>, k: nat, m: Message, u: nat)
    requires Run(tr, acts) && k < |tr|
    requires m in tr[k].db.msgs && HasMember(tr[k].db, m.conv, u)
    ensures m in Unread(tr[k].db, u) || exists a ::
              a in tr[k].cursors && a.conv == m.conv && a.user == u && m.id <= a.id
  {
    InvHolds(tr, acts, k);
    var db := tr[k].db;
    UnreadExactly(db, db.msgs, u, m);
    var i :| 0 <= i < |db.members| && db.members[i].conv == m.conv && db.members[i].user == u;
    if !Leaves(db.members[i], m, u) {
      assert Cursor(m.conv, u, db.members[i].lastRead) in tr[k].cursors;
    }
  }

  /** In every reachable state message ids ascend and client ids are unique. */
  lemma TableTheorem(tr: seq<World>, acts: seq<Action>, k: nat)
    requires Run(tr, acts) && k < |tr|
    ensures Ascending(tr[k].db.msgs)
    ensures forall i, j :: 0 <= i < j < |tr[k].db.msgs| ==> tr[k].db.msgs[i].clientId != tr[k].db.msgs[j].clientId
  {
    InvHolds(tr, acts, k);
  }

  /** In every reachable state the three summary columns of a conversation were
      copied from one stored message handed to the queue for that conversation. */
  lemma SummaryProvenance(tr: seq<World>, acts: seq<Action>, k: nat, conv: nat)
    requires Run(tr, acts) && k < |tr| && ConvExists(tr[k].db, conv)
    requires tr[k].db.convs[conv - 1].last.Some?
    ensures exists m ::
              m in tr[k].db.msgs && MqMessage(conv, m) in tr[k].handed
              && Shows(tr[k].db.convs[conv - 1], m)
  {
    InvHolds(tr, acts, k);
    var w := tr[k];
    var i :| 0 <= i < |w.handed| && w.handed[i].conv == conv
        && w.db.convs[conv - 1].last.value == SummaryOf(w.handed[i].row);
    assert w.handed[i] == MqMessage(conv, w.handed[i].row) && Shows(w.db.convs[conv - 1], w.handed[i].row);
  }
}
