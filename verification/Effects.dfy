/** What one statement of a goroutine achieves, and what the other goroutines can do to
    it while it waits: the rules by which `Goroutines` is proved. */
module Effects {
  import opened Basics
  import opened Store
  import opened Cluster
  import opened Frames
  import UserCache
  import Conversations
  import Lifecycle
  import Tables
  import Socket
  import NoGap
  import Slots

  // ------------------------------------------------------ what only ever grows

  ghost predicate Onward(w: World, w': World) {
    && Grows(w, w')
    && Tables.DbGrows(w.db, w'.db)
    && w.handed <= w'.handed
    && w.cursors <= w'.cursors
    && (forall d :: 0 <= d < |w.clients| ==>
          w.clients[d].offered <= w'.clients[d].offered && w.clients[d].accepted <= w'.clients[d].accepted)
    && (forall d :: Slots.Out(w, d) ==> Slots.Out(w', d))
  }

  lemma StepOnward(w: World, a: Action)
    requires Tables.Inv(w) && Enabled(w, a)
    ensures Onward(w, Step(w, a))
  {
    StepFrame(w, a);
    Tables.InvStep(w, a);
    if a.Listen? && (a.listen.DoPublish? || a.listen.DoMarkOwn? || a.listen.DoAck?) { LogsGrow(w, a.client, a.listen); }
    forall d | Slots.Out(w, d)
      ensures Slots.Out(Step(w, a), d)
    {
      Slots.OutStep(w, a, d);
    }
  }

  lemma LogsGrow(w: World, c: nat, e: ListenAct)
    requires ListenEnabled(w, c, e) && (e.DoPublish? || e.DoMarkOwn? || e.DoAck?)
    ensures w.handed <= ListenStep(w, c, e).handed && w.cursors <= ListenStep(w, c, e).cursors
  {
  }

  lemma OnwardTwice(x: World, y: World, z: World)
    requires Onward(x, y) && Onward(y, z)
    ensures Onward(x, z)
  {
  }

  /** Along a run. */
  lemma {:induction false} OnwardAlong(tr: seq<World>, acts: seq<Action>, i: nat, j: nat)
    requires Run(tr, acts) && i <= j < |tr|
    ensures Onward(tr[i], tr[j])
    decreases j - i
  {
    if i == j {
      OnwardRefl(tr[i]);
    } else {
      assert StepAt(tr, acts, j - 1);
      OnwardAlong(tr, acts, i, j - 1);
      Tables.InvHolds(tr, acts, j - 1);
      StepOnward(tr[j - 1], acts[j - 1]);
      OnwardTwice(tr[i], tr[j - 1], tr[j]);
    }
  }

  lemma RowStays(w: World, w': World, m: Message)
    requires Onward(w, w') && m in w.db.msgs
    ensures m in w'.db.msgs
  {
    var i :| 0 <= i < |w.db.msgs| && w.db.msgs[i] == m;
    assert w'.db.msgs[i] == m;
  }

  lemma HandedStays(w: World, w': World, x: MqMessage)
    requires Onward(w, w') && x in w.handed
    ensures x in w'.handed
  {
    var i :| 0 <= i < |w.handed| && w.handed[i] == x;
    assert w'.handed[i] == x;
  }

  lemma RunExtends(tr: seq<World>, acts: seq<Action>, a: Action)
    requires Run(tr, acts) && Enabled(tr[|acts|], a)
    ensures Run(tr + [Step(tr[|acts|], a)], acts + [a])
  {
    var tr', acts' := tr + [Step(tr[|acts|], a)], acts + [a];
    forall k | 0 <= k < |acts'|
      ensures StepAt(tr', acts', k)
    {
      if k < |acts| { assert StepAt(tr, acts, k); }
    }
  }

  // -------------------------------------------------------- one goroutine waits

  datatype Self = Reader(client: nat) | Writer(client: nat) | Unregistering(unreg: nat) | Subscriber(node: nat)

  predicate Exists(w: World, self: Self) {
    match self
    case Reader(c) => c < |w.clients| && !w.clients[c].listen.NotStarted?
    case Writer(c) => c < |w.clients|
    case Unregistering(k) => k < |w.unregs|
    case Subscriber(n) => n < |w.nodes|
  }

  /** The process of the goroutine has not crashed. */
  predicate Alive(w: World, self: Self)
    requires Exists(w, self)
  {
    match self
    case Reader(c) => Awake(w, c)
    case Writer(c) => Awake(w, c)
    case Unregistering(k) => Up(w, w.unregs[k].node)
    case Subscriber(n) => Up(w, n)
  }

  /** The statements of this goroutine. */
  predicate OwnedBy(a: Action, self: Self) {
    match self
    case Reader(c) => a.Listen? && a.client == c
    case Writer(c) => a.Conn? && a.client == c
    case Unregistering(k) => UnregMover(a) == k
    case Subscriber(n) => a == SubReceive(n) || a == SubLose(n) || a == SubPush(n) || a == SubPushClosed(n)
  }

  /** One step of a run with the states around it. */
  datatype Move = Move(from: World, act: Action, to: World)

  /** What a goroutine has done in a run: its own steps, in order. */
  ghost function Own(tr: seq<World>, acts: seq<Action>, self: Self): seq<Move>
    requires |tr| == |acts| + 1
    decreases |acts|
  {
    if acts == [] then []
    else
      var n := |acts| - 1;
      Own(tr[..n + 1], acts[..n], self) + if OwnedBy(acts[n], self) then [Move(tr[n], acts[n], tr[n + 1])] else []
  }

  lemma OwnAppend(tr: seq<World>, acts: seq<Action>, a: Action, w: World, self: Self)
    requires |tr| == |acts| + 1
    ensures Own(tr + [w], acts + [a], self) ==
            if OwnedBy(a, self) then Own(tr, acts, self) + [Move(tr[|acts|], a, w)] else Own(tr, acts, self)
  {
    assert (acts + [a])[..|acts|] == acts && (tr + [w])[..|acts| + 1] == tr;
  }

  /** These steps execute exactly these statements. */
  predicate Follows(ms: seq<Move>, text: seq<Action>) {
    |ms| == |text| && forall i :: 0 <= i < |ms| ==> ms[i].act == text[i]
  }

  lemma FollowsBoth(ms: seq<Move>, text: seq<Action>, ms': seq<Move>, text': seq<Action>)
    requires Follows(ms, text) && Follows(ms', text')
    ensures Follows(ms + ms', text + text')
  {
  }

  /** The reader runs its own `Unregister`; a kick has a goroutine to itself. */
  predicate Mine(w: World, self: Self, a: Action)
    requires Exists(w, self)
  {
    OwnedBy(a, self) || (Inner(w, self).Some? && OwnedBy(a, Inner(w, self).value))
  }

  /** The `Unregister` that a reader is running in its teardown. */
  function Inner(w: World, self: Self): Option<Self>
    requires Exists(w, self)
  {
    if self.Reader? && w.clients[self.client].listen.Leaving?
    then Some(Unregistering(w.clients[self.client].listen.unreg)) else None
  }

  predicate SameClient(w: World, c: nat, w': World) {
    c < |w.clients| && c < |w'.clients| && w'.clients[c].user == w.clients[c].user
    && w'.clients[c].node == w.clients[c].node
  }

  /** What a goroutine finds unchanged when it resumes. */
  ghost predicate Undisturbed(w: World, w': World, self: Self) {
    Exists(w, self) && Exists(w', self) &&
    match self
    case Reader(c) =>
      SameClient(w, c, w') && w'.clients[c].listen == w.clients[c].listen
      && (w.clients[c].listen.Leaving? && w.clients[c].listen.unreg < |w.unregs| ==>
            w.clients[c].listen.unreg < |w'.unregs|
            && w'.unregs[w.clients[c].listen.unreg] == w.unregs[w.clients[c].listen.unreg])
    case Writer(c) =>
      var x, y := w.clients[c], w'.clients[c];
      SameClient(w, c, w') && y.pc == x.pc && y.backlog == x.backlog && y.pushed == x.pushed && y.sent == x.sent
      && y.dropped == x.dropped && y.written == x.written
      && (x.broken ==> y.broken) && (Lifecycle.Starting(x.pc) ==> y.broken == x.broken)
    case Unregistering(k) => w'.unregs[k] == w.unregs[k]
    case Subscriber(n) => w'.nodes[n].held == w.nodes[n].held && w'.nodes[n].read == w.nodes[n].read
  }

  lemma OthersDisturbNot(w: World, a: Action, self: Self)
    requires Enabled(w, a) && Lifecycle.Inv(w) && Exists(w, self) && !Mine(w, self, a)
    ensures Undisturbed(w, Step(w, a), self)
  {
    StepFrame(w, a);
    match self {
      case Reader(c) =>
        assert Lifecycle.ClientOk(w, c);
        if a.Conn? && a.client == c { WriterKeepsReader(w, c, a.conn); }
      case Writer(c) =>
        if a.Listen? && a.client == c { assert Lifecycle.ClientOk(w, c); ReaderKeepsWriter(w, c, a.listen); }
      case _ =>
    }
    FrameUndisturbed(w, a, Step(w, a), self);
  }

  lemma FrameUndisturbed(w: World, a: Action, w': World, self: Self)
    requires Frame(w, a, w') && Exists(w, self) && !Mine(w, self, a)
    requires self.Reader? && Mover(a) == self.client ==> w'.clients[self.client].listen == w.clients[self.client].listen
    requires self.Writer? && Mover(a) == self.client ==> Undisturbed(w, w', self)
    ensures Undisturbed(w, w', self)
  {
    match self
    case Reader(c) => if Mover(a) != c { assert OnlyOffered(w.clients[c], w'.clients[c]); }
    case Writer(c) => if Mover(a) != c { assert OnlyOffered(w.clients[c], w'.clients[c]); }
    case _ =>
  }

  lemma WriterKeepsReader(w: World, c: nat, e: ConnectAct)
    requires ConnEnabled(w, c, e) && !Lifecycle.Starting(w.clients[c].pc)
    ensures c < |ConnStep(w, c, e).clients| && ConnStep(w, c, e).clients[c].listen == w.clients[c].listen
  {
  }

  lemma ReaderKeepsWriter(w: World, c: nat, e: ListenAct)
    requires ListenEnabled(w, c, e) && Lifecycle.ClientOk(w, c)
    ensures Undisturbed(w, ListenStep(w, c, e), Writer(c))
  {
    if e.DoPush? { Socket.PushIsOffer(w, c); } else { Socket.QuietListen(w, c, e); }
  }

  // --------------------------------------------- what one statement achieves

  /** Where `WsConnect` stands after a statement, and what the statement has done. */
  ghost predicate WriterEffect(w: World, c: nat, e: ConnectAct, w': World)
    requires ConnEnabled(w, c, e)
  {
    SameClient(w, c, w') && Awake(w', c) &&
    var x, y, n := w.clients[c], w'.clients[c], w.clients[c].node;
    match e
    case RegisterMap => y.pc.Mapped? && y.broken == x.broken && TookSlot(w, c, w')
    case RegisterPresence(ok) => y.pc.Announced? && y.broken == x.broken && SetKey(w, c, ok, w')
    case RegisterGauge => y.pc.Counted? && y.broken == x.broken && CountedUp(w, c, w')
    case QueryBacklog(ok) =>
      y.pc.Pushing? && y.broken == x.broken && y.backlog == if ok then Some(Unread(w.db, x.user)) else None
    case WriteBacklog(ok) => y == if ok then x.(pushed := x.pushed + 1, written := y.written) else x.(broken := true)
    case StartLoops => y == x.(pc := Delivering, listen := Reading)
    case TakeSend => y.pc.Writing? && y.backlog == x.backlog && y.sent == x.sent && y.dropped == x.dropped
    case WriteSend(ok) =>
      y.backlog == x.backlog && if ok then y.pc.Delivering? && y.sent == x.sent + 1 && y.dropped == x.dropped
                          else y.pc.Stopped? && y.broken && y.sent == x.sent && |y.dropped| == |x.dropped| + 1
    case SendDrained =>
      y.pc.Stopped? && y.backlog == x.backlog && y.send == [] && y.closes > 0 && y.sent == x.sent
      && y.dropped == x.dropped
  }

  /** What happens around the server: time, evictions, registrations, new sockets and the
      consumers of the queue, each exactly. */
  predicate EnvEffect(w: World, e: EnvAct, w': World)
    requires EnvEnabled(w, e)
  {
    match e
    case Tick => w' == w.(now := w.now + 1)
    case EvictUser(u) => w' == w.(userCache := w'.userCache) && w'.userCache.Keys == w.userCache.Keys - {u}
                         && w'.userCache.Items <= w.userCache.Items
    case EvictConv(key) => w' == w.(convCache := w'.convCache) && w'.convCache.Keys == w.convCache.Keys - {key}
                           && w'.convCache.Items <= w.convCache.Items
    case EvictPresence(u) => w' == w.(presence := w'.presence) && w'.presence.Keys == w.presence.Keys - {u}
                             && w'.presence.Items <= w.presence.Items
    case SignUp(name, nickname, avatar, password) =>
      var u := w.db.nextUser;
      && w' == w.(db := w.db.(users := w'.db.users, nextUser := u + 1))
      && w'.db.users == w.db.users[u := User(u, name, nickname, avatar, w.now, password)]
    case Connect(u, n) =>
      && w' == w.(clients := w'.clients) && |w'.clients| == |w.clients| + 1 && w.clients <= w'.clients
      && w'.clients[|w.clients|].user == u && w'.clients[|w.clients|].node == n && w'.clients[|w.clients|].pc.Upgraded?
    case ConsumeUpdate(i, ok) =>
      && w' == w.(db := w'.db) && (!ok ==> w'.db == w.db)
      && (ok ==> Showing(w'.db, w.handed[i].conv, w.handed[i].row))
  }

  lemma EnvHasEffect(w: World, e: EnvAct)
    requires EnvEnabled(w, e)
    ensures EnvEffect(w, e, EnvStep(w, e))
  {
  }

  /** A record Pub/Sub loses for one node is gone for that node, uncounted, and nothing else
      changes; another node can still read it. */
  lemma LossIsSilent(w: World, n: nat)
    requires SubIdle(w, n)
    ensures var w' := SubLoseStep(w, n);
            && w' == w.(nodes := w'.nodes) && |w'.nodes| == |w.nodes|
            && w'.nodes[n] == w.nodes[n].(read := w.nodes[n].read + 1)
            && forall i :: 0 <= i < |w.nodes| && i != n ==> w'.nodes[i] == w.nodes[i]
  {
  }

  /** The connection holds its user's slot. */
  predicate TookSlot(w: World, c: nat, w': World) {
    && c < |w.clients| && NoGap.HasSlot(w', w.clients[c].node, w.clients[c].user, c)
    && w.clients[c].node < |w.nodes|
    && w'.nodes[w.clients[c].node].registry == w.nodes[w.clients[c].node].registry[w.clients[c].user := c]
  }

  /** The user's key names this node for 90 seconds, if the command worked. */
  predicate SetKey(w: World, c: nat, ok: bool, w': World) {
    && Awake(w, c)
    && w'.presence == if ok then w.presence[w.clients[c].user := Lease(w.nodes[w.clients[c].node].name, w.now + 90)]
                      else w.presence
  }

  predicate CountedUp(w: World, c: nat, w': World) {
    Awake(w, c) && w.clients[c].node < |w'.nodes|
    && w'.nodes[w.clients[c].node].gauge == w.nodes[w.clients[c].node].gauge + 1
  }

  lemma WriterStep(w: World, c: nat, e: ConnectAct)
    requires ConnEnabled(w, c, e)
    ensures WriterEffect(w, c, e, ConnStep(w, c, e))
  {
    if e.RegisterMap? || e.RegisterPresence? || e.RegisterGauge? { RegisterStep(w, c, e); }
  }

  lemma RegisterStep(w: World, c: nat, e: ConnectAct)
    requires ConnEnabled(w, c, e) && (e.RegisterMap? || e.RegisterPresence? || e.RegisterGauge?)
    ensures WriterEffect(w, c, e, ConnStep(w, c, e))
  {
  }

  /** The frame `handleChatMsg` builds. */
  function ChatFrameOf(u: nat, chat: Chat, conv: nat, row: Message): Payload {
    Payload(u, conv, chat.content, row.id, chat.clientId)
  }

  /** Nothing of that conversation up to `id` is in the user's backlog any more. */
  ghost predicate ReadUpTo(db: Db, k: nat, u: nat, id: nat) {
    forall m :: m in Unread(db, u) && m.conv == k ==> id < m.id
  }

  lemma CursorReads(db: Db, k: nat, u: nat, id: nat)
    ensures ReadUpTo(UpdateLastRead(db, Cursor(k, u, id)), k, u, id)
  {
    forall m | m in Unread(UpdateLastRead(db, Cursor(k, u, id)), u) && m.conv == k
      ensures id < m.id
    {
      AckRemovesExactly(db, Cursor(k, u, id), u, m);
    }
  }

  /** Where a frame goes after the message is stored. */
  datatype Route = Local(client: nat) | ChanFull(client: nat) | LookupFailed | Offline | GhostOnline
                 | CrossInstance(node: string) | ForwardFailed(node: string)

  /** The counters that belong to a route. */
  function Counting(m: Metrics, route: Route): Metrics {
    match route
    case Local(_) => m.(local := m.local + 1)
    case ChanFull(_) => m.(chanFull := m.chanFull + 1)
    case LookupFailed => m.(lookupFailed := m.lookupFailed + 1)
    case Offline => m.(offline := m.offline + 1)
    case GhostOnline => m.(ghostOnline := m.ghostOnline + 1)
    case CrossInstance(_) => m.(crossInstance := m.crossInstance + 1, forwardPublished := m.forwardPublished + 1)
    case ForwardFailed(_) => m.(forwardFailed := m.forwardFailed + 1)
  }

  /** The step moved the counters of this route on the node of `c`, and no other. */
  predicate Tallied(w: World, c: nat, route: Route, w': World) {
    && Awake(w, c) && |w'.nodes| == |w.nodes|
    && w'.nodes[w.clients[c].node].metrics == Counting(w.nodes[w.clients[c].node].metrics, route)
  }

  /** A frame offered to `t` enters its `Send` if fewer than 256 are queued there; otherwise
      nothing is queued and a kick of the connection starts. */
  predicate OfferEffect(w: World, t: nat, p: Payload, w': World) {
    && t < |w.clients| == |w'.clients| && w'.clients[t].offered == w.clients[t].offered + [p]
    && if |w.clients[t].send| < 256 then
         && w'.clients[t].send == w.clients[t].send + [p]
         && w'.clients[t].accepted == w.clients[t].accepted + [p]
         && w'.unregs == w.unregs
       else
         && w'.clients[t].send == w.clients[t].send
         && w'.clients[t].accepted == w.clients[t].accepted
         && w'.unregs == w.unregs + [Unreg(t, w.clients[t].user, w.clients[t].node, Checking)]
  }

  /** What a push does, and the route that says which. */
  predicate PushEffect(w: World, c: nat, route: Route, w': World)
    requires ListenEnabled(w, c, DoPush)
  {
    var t, p := w.clients[c].listen.client, w.clients[c].listen.payload;
    && route == (if |w.clients[t].send| < 256 then Local(t) else ChanFull(t)) && Tallied(w, c, route, w')
    && OfferEffect(w, t, p, w')
  }

  function PushRoute(w: World, c: nat): Route
    requires ListenEnabled(w, c, DoPush)
  {
    var t := w.clients[c].listen.client;
    if HasRoom(w, t) then Local(t) else ChanFull(t)
  }

  /** The route when Redis named no other node. */
  function AnswerRoute(w: World, c: nat, ok: bool): Route
    requires Awake(w, c) && w.clients[c].listen.FindNode?
  {
    if !ok then LookupFailed else if PresenceOf(w, w.clients[c].listen.chat.to).None? then Offline else GhostOnline
  }

  function ForwardRoute(ok: bool, node: string): Route {
    if ok then CrossInstance(node) else ForwardFailed(node)
  }

  /** A pong renews the key of the user for 90 seconds if it is live and the command
      works; it revives no expired key and touches no other. */
  predicate PongEffect(w: World, c: nat, ok: bool, w': World)
    requires c < |w.clients|
  {
    var u := w.clients[c].user;
    w'.presence == if ok && KeyLive(w, u) then w.presence[u := Lease(w.presence[u].node, w.now + 90)]
                   else w.presence
  }

  /** The lookup of user `u` finds an account: there is one, and the entry that is read says
      so, or no live entry is read and the select works. */
  predicate Finds(w: World, u: nat, f: UserCache.Faults) {
    u in w.db.users
    && if f.read.ReadWorks? && UserCache.Live(w.userCache, u, w.now) then w.userCache[u].user.Some? else f.selectWorks
  }

  /** The insert works, and the select too if the client id was stored before. */
  ghost predicate Persists(w: World, clientId: string, f: InsertFault) {
    !f.InsertFails? && (HasClientId(w.db, clientId) ==> !f.SelectFails?)
  }

  /** The row the handler goes on with: the one stored before under the client id, or a new
      one with its own conversation, user, text and client id. It counts as persisted. */
  ghost predicate PersistEffect(w: World, c: nat, row: Message, w': World)
    requires ListenEnabled(w, c, DoPersist(NoFault))
  {
    var pc := w.clients[c].listen;
    && row in w'.db.msgs && row.clientId == pc.chat.clientId && PersistTally(w, c, 1, 0, w')
    && if HasClientId(w.db, pc.chat.clientId) then row in w.db.msgs && w'.db.msgs == w.db.msgs
       else && w'.db.msgs == w.db.msgs + [row] && row.id == w.db.nextMsg && row.conv == pc.conv
            && row.sender == w.clients[c].user && row.content == pc.chat.content && row.createdAt == w.now
  }

  /** These two counters of the node moved by so much, and no other. */
  predicate PersistTally(w: World, c: nat, stored: nat, failed: nat, w': World)
    requires Awake(w, c)
  {
    var n := w.clients[c].node;
    && |w'.nodes| == |w.nodes|
    && var m, m' := w.nodes[n].metrics, w'.nodes[n].metrics;
       m' == m.(persisted := m.persisted + stored, persistFailed := m.persistFailed + failed)
  }

  /** If the conversation exists, its summary shows this message. */
  predicate Showing(db: Db, conv: nat, row: Message) {
    ConvExists(db, conv) ==> Shows(db.convs[conv - 1], row)
  }

  /** Where the handler stands after a statement, and what it has put where. */
  ghost predicate ReaderEffect(w: World, c: nat, e: ListenAct, w': World)
    requires c < |w.clients| && c < |w'.clients| && ListenEnabled(w, c, e)
  {
    var u, x, y := w.clients[c].user, w.clients[c].listen, w'.clients[c].listen;
    SameClient(w, c, w') && (Awake(w', c) <==> !e.DoPushClosed?) &&
    match e
    case Receive(f) =>
      (f.ChatFrame? ==> y == FindUser(f.chat)) && (f.AckFrame? ==> y == Acking(f.conv, f.msgId))
      && (f.OtherFrame? ==> y.Reading?)
    case Pong(ok) => y == x && PongEffect(w, c, ok, w')
    case DoFindUser(f) =>
      if Finds(w, x.chat.to, f) then y == Resolve(x.chat, x.chat.to) && x.chat.to in w'.db.users else y.Reading?
    case DoResolve(f) =>
      if Conversations.Resolves(w.db, w.convCache, u, x.target, w.now, f)
      then y.Persist? && y.chat == x.chat && ConvExists(w'.db, y.conv) else y.Reading?
    case DoPersist(f) =>
      if Persists(w, x.chat.clientId, f)
      then y.Publish? && PersistEffect(w, c, y.row, w') && y == Publish(x.chat, x.conv, y.row)
      else y.Reading? && w'.db.msgs == w.db.msgs && PersistTally(w, c, 0, 1, w')
    case DoPublish(direct, ok) =>
      y == MarkOwn(x.chat, x.conv, x.row) && MqMessage(x.conv, x.row) in w'.handed
      && w'.handed == w.handed + [MqMessage(x.conv, x.row)]
      && if direct && ok then Showing(w'.db, x.conv, x.row) else w'.db == w.db
    case DoMarkOwn(ok) =>
      y == FindLocal(x.chat, ChatFrameOf(u, x.chat, x.conv, x.row))
      && (ok ==> Cursor(x.conv, u, x.row.id) in w'.cursors && ReadUpTo(w'.db, x.conv, u, x.row.id))
    case DoFindLocal =>
      var registry := w.nodes[w.clients[c].node].registry;
      if x.chat.to in registry then y == Push(x.chat, x.payload, registry[x.chat.to])
      else y == FindNode(x.chat, x.payload)
    case DoFindNode(ok) =>
      if ForwardsTo(w, c, ok).Some? then y == Forward(x.chat, x.payload, ForwardsTo(w, c, ok).value)
      else y.Reading? && SamePresence(w, w') && Tallied(w, c, AnswerRoute(w, c, ok), w')
    case DoForward(ok, reached) =>
      && y.Reading? && Tallied(w, c, ForwardRoute(ok, x.node), w')
      && w'.forwards == w.forwards + if reached then [ForwardMsg(x.chat.to, x.node, x.payload)] else []
    case DoPush => y.Reading? && PushEffect(w, c, PushRoute(w, c), w')
    case DoPushClosed => y == x
    case DoAck(ok) =>
      y.Reading? && (ok ==> Cursor(x.conv, u, x.msgId) in w'.cursors && ReadUpTo(w'.db, x.conv, u, x.msgId))
    case ReadFails =>
      y == Leaving(|w.unregs|) && w'.unregs == w.unregs + [Unreg(c, u, w.clients[c].node, Checking)]
    case CloseConn => y.Closing? && w'.clients[c].broken
    case CloseSend => y.Finished? && w'.clients[c].closes == w.clients[c].closes + 1
  }

  predicate SamePresence(w: World, w': World) {
    w'.presence == w.presence && w'.now == w.now
  }

  /** The statement a reader can execute next, whatever the others do before. */
  predicate Ready(pc: ListenPc, e: ListenAct) {
    match e
    case Receive(_) => pc.Reading?
    case Pong(_) => pc.Reading?
    case ReadFails => pc.Reading?
    case DoFindUser(_) => pc.FindUser?
    case DoResolve(_) => pc.Resolve?
    case DoPersist(_) => pc.Persist?
    case DoPublish(_, _) => pc.Publish?
    case DoMarkOwn(_) => pc.MarkOwn?
    case DoFindLocal => pc.FindLocal?
    case DoFindNode(_) => pc.FindNode?
    case DoForward(ok, reached) => pc.Forward? && (ok ==> reached)
    case DoAck(_) => pc.Acking?
    case CloseSend => pc.Closing?
    case _ => false
  }

  predicate ReadyToRegister(pc: ConnectPc, e: ConnectAct) {
    match e
    case RegisterMap => pc.Upgraded?
    case RegisterPresence(_) => pc.Mapped?
    case RegisterGauge => pc.Announced?
    case QueryBacklog(_) => pc.Counted?
    case _ => false
  }

  /** Redis answered with the name of another node. */
  function ForwardsTo(w: World, c: nat, ok: bool): Option<string>
    requires Awake(w, c) && w.clients[c].listen.FindNode?
  {
    var at := PresenceOf(w, w.clients[c].listen.chat.to);
    if ok && at.Some? && at != Some(w.nodes[w.clients[c].node].name) then at else None
  }

  lemma ReaderStep(w: World, c: nat, e: ListenAct)
    requires ListenEnabled(w, c, e) && Tables.StoreOk(w)
    ensures c < |ListenStep(w, c, e).clients| && ReaderEffect(w, c, e, ListenStep(w, c, e))
  {
    match e
    case DoFindUser(f) => FindUserReader(w, c, f);
    case DoResolve(f) => ResolveReader(w, c, f);
    case DoFindLocal => FindLocalReader(w, c);
    case DoFindNode(ok) => FindNodeReader(w, c, ok);
    case DoPersist(f) => PersistReader(w, c, f);
    case DoPublish(direct, ok) => PublishReader(w, c, direct, ok);
    case DoMarkOwn(ok) => CursorReader(w, c, e);
    case DoAck(ok) => CursorReader(w, c, e);
    case DoForward(ok, reached) => ForwardReader(w, c, ok, reached);
    case DoPush => PushReader(w, c);
    case _ => LifeReader(w, c, e);
  }

  lemma FindNodeReader(w: World, c: nat, ok: bool)
    requires ListenEnabled(w, c, DoFindNode(ok))
    ensures c < |FindNodeStep(w, c, ok).clients| && ReaderEffect(w, c, DoFindNode(ok), FindNodeStep(w, c, ok))
  {
  }

  lemma FindUserReader(w: World, c: nat, f: UserCache.Faults)
    requires ListenEnabled(w, c, DoFindUser(f)) && Tables.StoreOk(w)
    ensures c < |FindUserStep(w, c, f).clients| && ReaderEffect(w, c, DoFindUser(f), FindUserStep(w, c, f))
  {
  }

  lemma FindLocalReader(w: World, c: nat)
    requires ListenEnabled(w, c, DoFindLocal)
    ensures c < |FindLocalStep(w, c).clients| && ReaderEffect(w, c, DoFindLocal, FindLocalStep(w, c))
  {
  }

  lemma ResolveReader(w: World, c: nat, f: Conversations.Faults)
    requires ListenEnabled(w, c, DoResolve(f)) && Tables.StoreOk(w)
    ensures c < |ResolveStep(w, c, f).clients| && ReaderEffect(w, c, DoResolve(f), ResolveStep(w, c, f))
  {
    var u, target := w.clients[c].user, w.clients[c].listen.target;
    Conversations.ResolveKeepsSane(w.db, w.convCache, u, target, w.now, f);
    Conversations.ResolveAnswersExactly(w.db, w.convCache, u, target, w.now, f);
  }

  lemma PersistReader(w: World, c: nat, f: InsertFault)
    requires ListenEnabled(w, c, DoPersist(f))
    ensures c < |PersistStep(w, c, f).clients| && ReaderEffect(w, c, DoPersist(f), PersistStep(w, c, f))
  {
  }

  lemma PublishReader(w: World, c: nat, direct: bool, ok: bool)
    requires ListenEnabled(w, c, DoPublish(direct, ok))
    ensures c < |PublishStep(w, c, direct, ok).clients|
    ensures ReaderEffect(w, c, DoPublish(direct, ok), PublishStep(w, c, direct, ok))
  {
    var pc := w.clients[c].listen;
    assert PublishStep(w, c, direct, ok).handed[|w.handed|] == MqMessage(pc.conv, pc.row);
  }

  lemma CursorReader(w: World, c: nat, e: ListenAct)
    requires ListenEnabled(w, c, e) && (e.DoMarkOwn? || e.DoAck?)
    ensures c < |ListenStep(w, c, e).clients| && ReaderEffect(w, c, e, ListenStep(w, c, e))
  {
    var pc := w.clients[c].listen;
    CursorReads(w.db, pc.conv, w.clients[c].user, if e.DoMarkOwn? then pc.row.id else pc.msgId);
  }

  lemma ForwardReader(w: World, c: nat, ok: bool, reached: bool)
    requires ListenEnabled(w, c, DoForward(ok, reached))
    ensures c < |ForwardStep(w, c, ok, reached).clients|
    ensures ReaderEffect(w, c, DoForward(ok, reached), ForwardStep(w, c, ok, reached))
  {
  }

  lemma PushReader(w: World, c: nat)
    requires ListenEnabled(w, c, DoPush)
    ensures c < |PushStep(w, c).clients| && ReaderEffect(w, c, DoPush, PushStep(w, c))
  {
  }

  lemma LifeReader(w: World, c: nat, e: ListenAct)
    requires ListenEnabled(w, c, e)
    requires e.Receive? || e.Pong? || e.ReadFails? || e.DoPushClosed? || e.CloseConn? || e.CloseSend?
    ensures c < |ListenStep(w, c, e).clients| && ReaderEffect(w, c, e, ListenStep(w, c, e))
  {
  }

  // ------------------------------------------------------------- Unregister

  predicate Holder(w: World, k: nat) {
    k < |w.unregs| && NoGap.HasSlot(w, w.unregs[k].node, w.unregs[k].user, w.unregs[k].client)
  }

  /** The locked check: the holder of the slot leaves the registry, anybody else changes
      nothing; the connection is out for good. */
  ghost predicate CheckEffect(w: World, k: nat, w': World) {
    && k < |w.unregs| == |w'.unregs| && w'.unregs[k].(pc := w.unregs[k].pc) == w.unregs[k]
    && (if Holder(w, k)
        then w'.unregs[k].pc.Deleting? && w.unregs[k].node < |w'.nodes|
             && w'.nodes[w.unregs[k].node].registry == w.nodes[w.unregs[k].node].registry - {w.unregs[k].user}
             && w'.presence == w.presence
        else w'.unregs[k].pc.Gone? && w'.nodes == w.nodes && w'.presence == w.presence)
    && Slots.Out(w', w.unregs[k].client)
    && (forall i :: 0 <= i < |w.nodes| ==> Up(w, i) ==> Up(w', i))
  }

  lemma CheckHasEffect(w: World, k: nat)
    requires UnregEnabled(w, k, Checking) && Lifecycle.Inv(w)
    ensures CheckEffect(w, k, UnregCheckStep(w, k))
  {
    assert Lifecycle.UnregOk(w, w.unregs[k]);
    Slots.CheckOutcome(w, k);
    if !Holder(w, k) { Lifecycle.StaleCheckIsInert(w, k); }
  }

  /** The key of the user is gone, if the command worked. */
  predicate DeletedKey(w: World, k: nat, ok: bool, w': World) {
    k < |w.unregs| && w'.presence == if ok then w.presence - {w.unregs[k].user} else w.presence
  }

  predicate CountedDown(w: World, k: nat, w': World) {
    && k < |w.unregs| && w.unregs[k].node < |w.nodes| == |w'.nodes|
    && w'.nodes[w.unregs[k].node].gauge == w.nodes[w.unregs[k].node].gauge - 1
  }

  lemma ReleaseHasEffect(w: World, k: nat, ok: bool)
    requires k < |w.unregs| && Up(w, w.unregs[k].node)
    ensures UnregEnabled(w, k, Deleting) ==>
              var w' := UnregDeleteStep(w, k, ok);
              DeletedKey(w, k, ok, w') && w'.unregs[k] == w.unregs[k].(pc := Decrementing) && Up(w', w.unregs[k].node)
    ensures UnregEnabled(w, k, Decrementing) ==>
              var w' := UnregDecrementStep(w, k);
              CountedDown(w, k, w') && w'.unregs[k] == w.unregs[k].(pc := Gone) && Up(w', w.unregs[k].node)
  {
  }

  /** Moving an `Unregister` on leaves every reader where it was. */
  lemma UnregKeepsReaders(w: World, k: nat, a: Action)
    requires Enabled(w, a) && UnregMover(a) == k
    ensures Step(w, a).clients == w.clients
  {
  }

  lemma OnwardRefl(w: World)
    ensures Onward(w, w)
  {
  }

  /** Out of every registry, socket closed, `Send` closed exactly once. */
  ghost predicate TornDown(w: World, c: nat)
    requires c < |w.clients|
  {
    && w.clients[c].listen.Finished? && w.clients[c].closes == 1
    && forall n, u :: 0 <= n < |w.nodes| && u in w.nodes[n].registry ==> w.nodes[n].registry[u] != c
  }

  lemma FinishedIsOut(w: World, c: nat)
    requires Lifecycle.Inv(w) && c < |w.clients| && w.clients[c].listen.Finished?
    ensures TornDown(w, c)
  {
    assert Lifecycle.ClientOk(w, c);
    forall n, u | 0 <= n < |w.nodes| && u in w.nodes[n].registry
      ensures w.nodes[n].registry[u] != c
    {
      assert Lifecycle.SlotOk(w, n, u, w.nodes[n].registry[u]);
    }
  }
}
