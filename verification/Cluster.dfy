/** The message delivery protocol as a state machine: several server processes that
    share MySQL and Redis, every goroutine with its own program counter, and one
    transition per SQL statement, Redis command, locked region, channel operation
    or socket operation. Failures are chosen by the action.

    Fields marked `history` record what happened for the theorems; no transition
    reads them. */
module Cluster {
  import opened Basics
  import opened Store
  import UserCache
  import Conversations

  const SEND_BUFFER_SIZE: nat := 256
  const PRESENCE_TTL: nat := 90

  /** The JSON a client receives. Backlog frames carry no client id. */
  datatype Payload = Payload(sender: nat, conv: nat, content: string, msgId: nat, clientId: string)

  datatype Chat = Chat(to: nat, content: string, clientId: string)

  datatype Inbound = ChatFrame(chat: Chat) | AckFrame(conv: nat, msgId: nat) | OtherFrame

  /** The goroutine of `WsConnect`, which ends as the writer loop. */
  datatype ConnectPc =
    | Upgraded            // before the locked insert of Register
    | Mapped              // before the presence SET
    | Announced           // before the gauge increment
    | Counted             // before the backlog query
    | Pushing             // writing the backlog
    | Delivering          // waiting on Send
    | Writing(payload: Payload)
    | Stopped

  /** The reader goroutine of a connection. */
  datatype ListenPc =
    | NotStarted
    | Reading
    | FindUser(chat: Chat)
    | Resolve(chat: Chat, target: nat)
    | Persist(chat: Chat, conv: nat)
    | Publish(chat: Chat, conv: nat, row: Message)
    | MarkOwn(chat: Chat, conv: nat, row: Message)
    | FindLocal(chat: Chat, payload: Payload)
    | FindNode(chat: Chat, payload: Payload)
    | Forward(chat: Chat, payload: Payload, node: string)
    | Push(chat: Chat, payload: Payload, client: nat)
    | Acking(conv: nat, msgId: nat)
    | Leaving(unreg: nat)
    | Closing
    | Finished

  datatype Client = Client(
    user: nat,
    node: nat,
    pc: ConnectPc,
    listen: ListenPc,
    send: seq<Payload>,
    closes: nat,                    // how often Send was closed
    broken: bool,                   // socket writes fail from here on
    backlog: Option<seq<Message>>,  // rows of the backlog query, if it succeeded
    pushed: nat,                    // backlog rows written
    sent: nat,                      // history: Send messages written
    offered: seq<Payload>,          // history: pushes attempted on Send
    accepted: seq<Payload>,         // history: pushes that entered Send
    dropped: seq<Payload>,          // history: taken from Send, write failed
    written: seq<Payload>)          // history: frames written to the socket

  function NewClient(u: nat, n: nat): Client {
    Client(u, n, Upgraded, NotStarted, [], 0, false, None, 0, 0, [], [], [], [])
  }

  /** A goroutine inside `Unregister`: the teardown of its own connection or a kick. */
  datatype UnregPc = Checking | Deleting | Decrementing | Gone
  datatype Unreg = Unreg(client: nat, user: nat, node: nat, pc: UnregPc)

  /** One record of the shared Pub/Sub channel. */
  datatype ForwardMsg = ForwardMsg(user: nat, node: string, payload: Payload)

  datatype Metrics = Metrics(
    persisted: nat, persistFailed: nat,
    local: nat, crossInstance: nat, offline: nat,
    lookupFailed: nat, ghostOnline: nat, forwardFailed: nat, chanFull: nat,
    forwardPublished: nat, forwardReceived: nat)

  const ZERO := Metrics(0, 0, 0, 0, 0, 0, 0, 0, 0, 0, 0)

  /** What the subscriber goroutine holds between its registry lookup and its push. */
  datatype Held = Held(client: nat, forward: nat)

  datatype Node = Node(
    name: string,
    registry: map<nat, nat>,   // user -> client
    gauge: int,
    metrics: Metrics,
    read: nat,                 // records of the channel consumed
    held: Option<Held>,
    crashed: bool,
    takeovers: nat,            // history: registrations that replaced another
    taken: map<nat, nat>)      // history: forward -> client it was handed to

  datatype Lease = Lease(node: string, expiry: nat)

  datatype MqMessage = MqMessage(conv: nat, row: Message)

  datatype World = World(
    now: nat,
    db: Db,
    userCache: UserCache.Cache,
    convCache: Conversations.Cache,
    presence: map<nat, Lease>,
    nodes: seq<Node>,
    clients: seq<Client>,
    unregs: seq<Unreg>,
    forwards: seq<ForwardMsg>,
    handed: seq<MqMessage>,               // history: given to PublishWithFallback
    cursors: set<Cursor>,                 // history: cursor updates executed
    claims: map<string, (nat, nat)>)      // history: client id -> sender, target of its first use

  ghost predicate Init(w: World) {
    && w.db == EMPTY && w.userCache == map[] && w.convCache == map[] && w.presence == map[]
    && w.clients == [] && w.unregs == [] && w.forwards == [] && w.handed == [] && w.cursors == {} && w.claims == map[]
    && forall n :: 0 <= n < |w.nodes| ==> w.nodes[n] == Node(w.nodes[n].name, map[], 0, ZERO, 0, None, false, 0, map[])
  }

  // -------------------------------------------------------------- actions

  datatype EnvAct =
    | Tick
    | EvictUser(user: nat)
    | EvictConv(key: (nat, nat))
    | EvictPresence(user: nat)
    | SignUp(name: string, nickname: string, avatar: string, password: string)
    | Connect(user: nat, node: nat)
    | ConsumeUpdate(update: nat, ok: bool)   // some consumer applies an update handed to the queue

  datatype ConnectAct =
    | RegisterMap | RegisterPresence(ok: bool) | RegisterGauge
    | QueryBacklog(ok: bool) | WriteBacklog(ok: bool) | StartLoops
    | TakeSend | WriteSend(ok: bool) | SendDrained

  datatype ListenAct =
    | Receive(frame: Inbound)
    | Pong(ok: bool)
    | ReadFails
    | DoFindUser(userFaults: UserCache.Faults)
    | DoResolve(convFaults: Conversations.Faults)
    | DoPersist(insertFault: InsertFault)
    | DoPublish(direct: bool, ok: bool)      // direct: the fallback write was taken
    | DoMarkOwn(ok: bool)
    | DoFindLocal
    | DoFindNode(ok: bool)
    | DoForward(ok: bool, reached: bool)     // an errored PUBLISH may still have reached Redis
    | DoPush
    | DoPushClosed                           // the channel was closed in between: panic
    | DoAck(ok: bool)
    | CloseConn
    | CloseSend

  datatype Action =
    | Env(env: EnvAct)
    | Conn(client: nat, conn: ConnectAct)
    | Listen(client: nat, listen: ListenAct)
    | UnregCheck(unreg: nat)
    | UnregDelete(unreg: nat, ok: bool)
    | UnregDecrement(unreg: nat)
    | SubReceive(node: nat)
    | SubLose(node: nat)
    | SubPush(node: nat)
    | SubPushClosed(node: nat)

  // -------------------------------------------------------------- helpers

  predicate KeyLive(w: World, u: nat) {
    u in w.presence && w.now < w.presence[u].expiry
  }

  /** `GetOnlineNode`: an empty value reads as offline. */
  function PresenceOf(w: World, u: nat): Option<string> {
    if KeyLive(w, u) && w.presence[u].node != "" then Some(w.presence[u].node) else None
  }

  function BacklogOf(c: Client): seq<Payload> {
    if c.backlog.None? then []
    else seq(|c.backlog.value|, i requires 0 <= i < |c.backlog.value| => BacklogFrame(c.backlog.value[i]))
  }

  function BacklogFrame(m: Message): Payload {
    Payload(m.sender, m.conv, m.content, m.id, "")
  }

  function SetClient(w: World, c: nat, client: Client): World
    requires c < |w.clients|
  {
    w.(clients := w.clients[c := client])
  }

  function SetListen(w: World, c: nat, pc: ListenPc): World
    requires c < |w.clients|
  {
    SetClient(w, c, w.clients[c].(listen := pc))
  }

  function SetNode(w: World, n: nat, node: Node): World
    requires n < |w.nodes|
  {
    w.(nodes := w.nodes[n := node])
  }

  function SetMetrics(w: World, n: nat, m: Metrics): World
    requires n < |w.nodes|
  {
    SetNode(w, n, w.nodes[n].(metrics := m))
  }

  predicate Up(w: World, n: nat) {
    n < |w.nodes| && !w.nodes[n].crashed
  }

  predicate Awake(w: World, c: nat) {
    c < |w.clients| && Up(w, w.clients[c].node)
  }

  /** A chat handler between a successful insert and its last statement. */
  predicate Routing(pc: ListenPc) {
    pc.Publish? || pc.MarkOwn? || pc.FindLocal? || pc.FindNode? || pc.Forward? || pc.Push?
  }

  function MessageOf(pc: ListenPc): nat
    requires Routing(pc)
  {
    if pc.Publish? || pc.MarkOwn? then pc.row.id else pc.payload.msgId
  }

  // ----------------------------------------------------------- environment

  predicate EnvEnabled(w: World, a: EnvAct) {
    match a
    case Connect(_, n) => Up(w, n)
    case ConsumeUpdate(i, _) => i < |w.handed|
    case _ => true
  }

  function EnvStep(w: World, a: EnvAct): World
    requires EnvEnabled(w, a)
  {
    match a
    case Tick => w.(now := w.now + 1)
    case EvictUser(u) => w.(userCache := w.userCache - {u})
    case EvictConv(key) => w.(convCache := w.convCache - {key})
    case EvictPresence(u) => w.(presence := w.presence - {u})
    case SignUp(name, nickname, avatar, password) => w.(db := CreateUser(w.db, name, nickname, avatar, password, w.now))
    case Connect(u, n) => w.(clients := w.clients + [NewClient(u, n)])
    case ConsumeUpdate(i, ok) => w.(db := UpdateConversation(w.db, w.handed[i].conv, w.handed[i].row, ok).0)
  }

  // ------------------------------------------------- connection and writer

  predicate ConnEnabled(w: World, c: nat, a: ConnectAct) {
    Awake(w, c) &&
    var cl := w.clients[c];
    match a
    case RegisterMap => cl.pc.Upgraded?
    case RegisterPresence(_) => cl.pc.Mapped?
    case RegisterGauge => cl.pc.Announced?
    case QueryBacklog(_) => cl.pc.Counted?
    case WriteBacklog(ok) => cl.pc.Pushing? && !cl.broken && cl.pushed < |BacklogOf(cl)|
    case StartLoops => cl.pc.Pushing? && (cl.broken || cl.pushed == |BacklogOf(cl)|)
    case TakeSend => cl.pc.Delivering? && cl.send != []
    case WriteSend(ok) => cl.pc.Writing? && (ok ==> !cl.broken)
    case SendDrained => cl.pc.Delivering? && cl.send == [] && cl.closes > 0
  }

  /** The locked region of `Register`: the newest connection takes the user's slot. */
  function RegisterNode(node: Node, u: nat, c: nat): Node {
    node.(registry := node.registry[u := c],
          takeovers := node.takeovers + if u in node.registry then 1 else 0)
  }

  function RegisterMapStep(w: World, c: nat): World
    requires Awake(w, c)
  {
    var cl := w.clients[c];
    SetClient(SetNode(w, cl.node, RegisterNode(w.nodes[cl.node], cl.user, c)), c, cl.(pc := Mapped))
  }

  function RegisterPresenceStep(w: World, c: nat, ok: bool): World
    requires Awake(w, c)
  {
    var cl := w.clients[c];
    SetClient(w, c, cl.(pc := Announced))
    .(presence := if ok then w.presence[cl.user := Lease(w.nodes[cl.node].name, w.now + PRESENCE_TTL)] else w.presence)
  }

  function RegisterGaugeStep(w: World, c: nat): World
    requires Awake(w, c)
  {
    var cl := w.clients[c];
    SetClient(SetNode(w, cl.node, w.nodes[cl.node].(gauge := w.nodes[cl.node].gauge + 1)), c, cl.(pc := Counted))
  }

  function QueryBacklogStep(w: World, c: nat, ok: bool): World
    requires Awake(w, c)
  {
    var cl := w.clients[c];
    SetClient(w, c, cl.(pc := Pushing, backlog := if ok then Some(Unread(w.db, cl.user)) else None))
  }

  function WriteBacklogStep(w: World, c: nat, ok: bool): World
    requires Awake(w, c) && w.clients[c].pushed < |BacklogOf(w.clients[c])|
  {
    var cl := w.clients[c];
    SetClient(w, c, if ok then cl.(pushed := cl.pushed + 1, written := cl.written + [BacklogOf(cl)[cl.pushed]])
                    else cl.(broken := true))
  }

  function TakeSendStep(w: World, c: nat): World
    requires Awake(w, c) && w.clients[c].send != []
  {
    var cl := w.clients[c];
    SetClient(w, c, cl.(pc := Writing(cl.send[0]), send := cl.send[1..]))
  }

  function WriteSendStep(w: World, c: nat, ok: bool): World
    requires Awake(w, c) && w.clients[c].pc.Writing?
  {
    var cl := w.clients[c];
    SetClient(w, c, if ok then cl.(pc := Delivering, sent := cl.sent + 1, written := cl.written + [cl.pc.payload])
                    else cl.(pc := Stopped, broken := true, dropped := cl.dropped + [cl.pc.payload]))
  }

  function ConnStep(w: World, c: nat, a: ConnectAct): World
    requires ConnEnabled(w, c, a)
  {
    match a
    case RegisterMap => RegisterMapStep(w, c)
    case RegisterPresence(ok) => RegisterPresenceStep(w, c, ok)
    case RegisterGauge => RegisterGaugeStep(w, c)
    case QueryBacklog(ok) => QueryBacklogStep(w, c, ok)
    case WriteBacklog(ok) => WriteBacklogStep(w, c, ok)
    case StartLoops => SetClient(w, c, w.clients[c].(pc := Delivering, listen := Reading))
    case TakeSend => TakeSendStep(w, c)
    case WriteSend(ok) => WriteSendStep(w, c, ok)
    case SendDrained => SetClient(w, c, w.clients[c].(pc := Stopped))
  }

  // -------------------------------------------------------------- reader

  predicate ListenEnabled(w: World, c: nat, a: ListenAct) {
    Awake(w, c) &&
    var pc := w.clients[c].listen;
    match a
    case Receive(_) => pc.Reading?
    case Pong(_) => pc.Reading?
    case ReadFails => pc.Reading?
    case DoFindUser(_) => pc.FindUser?
    case DoResolve(_) => pc.Resolve?
    case DoPersist(_) => pc.Persist?
    case DoPublish(_, _) => pc.Publish?
    case DoMarkOwn(_) => pc.MarkOwn?
    case DoFindLocal => pc.FindLocal?
    case DoFindNode(_) => pc.FindNode?
    case DoForward(ok, reached) => pc.Forward? && (ok ==> reached)
    case DoPush => pc.Push? && pc.client < |w.clients| && w.clients[pc.client].closes == 0
    case DoPushClosed => pc.Push? && pc.client < |w.clients| && w.clients[pc.client].closes > 0
    case DoAck(_) => pc.Acking?
    case CloseConn => pc.Leaving? && pc.unreg < |w.unregs| && w.unregs[pc.unreg].pc.Gone?
    case CloseSend => pc.Closing?
  }

  function AdvanceCursor(w: World, a: Cursor, ok: bool): World {
    w.(db := if ok then UpdateLastRead(w.db, a) else w.db, cursors := if ok then w.cursors + {a} else w.cursors)
  }

  predicate HasRoom(w: World, t: nat)
    requires t < |w.clients|
  {
    |w.clients[t].send| < SEND_BUFFER_SIZE
  }

  /** `DeliverTotalMsg` on an open channel: enqueue, or kick the connection. */
  function Offer(w: World, t: nat, p: Payload): World
    requires t < |w.clients|
  {
    var cl := w.clients[t];
    var room := HasRoom(w, t);
    w.(clients := w.clients[t := cl.(
           offered := cl.offered + [p],
           send := if room then cl.send + [p] else cl.send,
           accepted := if room then cl.accepted + [p] else cl.accepted)],
       unregs := if room then w.unregs else w.unregs + [Unreg(t, cl.user, cl.node, Checking)])
  }

  /** A send on a closed channel panics and takes the process down. */
  function Crash(w: World, n: nat): World
    requires n < |w.nodes|
  {
    SetNode(w, n, w.nodes[n].(crashed := true))
  }

  function ReceiveStep(w: World, c: nat, frame: Inbound): World
    requires c < |w.clients|
  {
    var pc := match frame
      case ChatFrame(m) => FindUser(m)
      case AckFrame(k, id) => Acking(k, id)
      case OtherFrame => Reading;
    SetListen(w, c, pc)
    .(claims := if frame.ChatFrame? && frame.chat.clientId !in w.claims
                then w.claims[frame.chat.clientId := (w.clients[c].user, frame.chat.to)] else w.claims)
  }

  function FindUserStep(w: World, c: nat, f: UserCache.Faults): World
    requires Awake(w, c) && w.clients[c].listen.FindUser?
  {
    var m := w.clients[c].listen.chat;
    var (cache, r) := UserCache.Lookup(w.db.users, w.userCache, m.to, w.now, f);
    SetListen(w, c, if r.Ok? && r.value.Some? then Resolve(m, r.value.value.id) else Reading).(userCache := cache)
  }

  function ResolveStep(w: World, c: nat, f: Conversations.Faults): World
    requires Awake(w, c) && w.clients[c].listen.Resolve?
  {
    var pc := w.clients[c].listen;
    var (db, cache, r) := Conversations.Resolve(w.db, w.convCache, w.clients[c].user, pc.target, w.now, f);
    SetListen(w, c, if r.Ok? then Persist(pc.chat, r.value) else Reading).(db := db, convCache := cache)
  }

  function PersistStep(w: World, c: nat, fault: InsertFault): World
    requires Awake(w, c) && w.clients[c].listen.Persist?
  {
    var pc, n := w.clients[c].listen, w.clients[c].node;
    var ms := w.nodes[n].metrics;
    var (db, r) :=
      CreateMessage(w.db, Draft(pc.conv, w.clients[c].user, pc.chat.content, pc.chat.clientId, w.now), fault);
    SetListen(SetMetrics(w, n, if r.Ok? then ms.(persisted := ms.persisted + 1)
                               else ms.(persistFailed := ms.persistFailed + 1)),
              c, if r.Ok? then Publish(pc.chat, pc.conv, r.value) else Reading)
    .(db := db)
  }

  function PublishStep(w: World, c: nat, direct: bool, ok: bool): World
    requires Awake(w, c) && w.clients[c].listen.Publish?
  {
    var pc := w.clients[c].listen;
    SetListen(w, c, MarkOwn(pc.chat, pc.conv, pc.row))
    .(handed := w.handed + [MqMessage(pc.conv, pc.row)],
      db := if direct then UpdateConversation(w.db, pc.conv, pc.row, ok).0 else w.db)
  }

  function MarkOwnStep(w: World, c: nat, ok: bool): World
    requires Awake(w, c) && w.clients[c].listen.MarkOwn?
  {
    var pc, u := w.clients[c].listen, w.clients[c].user;
    SetListen(AdvanceCursor(w, Cursor(pc.conv, u, pc.row.id), ok), c,
              FindLocal(pc.chat, Payload(u, pc.conv, pc.chat.content, pc.row.id, pc.chat.clientId)))
  }

  function FindLocalStep(w: World, c: nat): World
    requires Awake(w, c) && w.clients[c].listen.FindLocal?
  {
    var pc := w.clients[c].listen;
    var registry := w.nodes[w.clients[c].node].registry;
    SetListen(w, c, if pc.chat.to in registry then Push(pc.chat, pc.payload, registry[pc.chat.to])
                    else FindNode(pc.chat, pc.payload))
  }

  function FindNodeStep(w: World, c: nat, ok: bool): World
    requires Awake(w, c) && w.clients[c].listen.FindNode?
  {
    var pc, n := w.clients[c].listen, w.clients[c].node;
    var ms := w.nodes[n].metrics;
    var target := PresenceOf(w, pc.chat.to);
    var counted := if !ok then ms.(lookupFailed := ms.lookupFailed + 1)
                   else if target.None? then ms.(offline := ms.offline + 1)
                   else if target.value == w.nodes[n].name then ms.(ghostOnline := ms.ghostOnline + 1)
                   else ms;
    SetListen(SetMetrics(w, n, counted), c,
              if ok && target.Some? && target.value != w.nodes[n].name then Forward(pc.chat, pc.payload, target.value)
              else Reading)
  }

  function ForwardStep(w: World, c: nat, ok: bool, reached: bool): World
    requires Awake(w, c) && w.clients[c].listen.Forward?
  {
    var pc, n := w.clients[c].listen, w.clients[c].node;
    var ms := w.nodes[n].metrics;
    var counted := if ok then ms.(crossInstance := ms.crossInstance + 1, forwardPublished := ms.forwardPublished + 1)
                   else ms.(forwardFailed := ms.forwardFailed + 1);
    SetListen(SetMetrics(w, n, counted), c, Reading)
    .(forwards := if reached then w.forwards + [ForwardMsg(pc.chat.to, pc.node, pc.payload)] else w.forwards)
  }

  function PushStep(w: World, c: nat): World
    requires Awake(w, c) && w.clients[c].listen.Push? && w.clients[c].listen.client < |w.clients|
  {
    var pc, n := w.clients[c].listen, w.clients[c].node;
    var ms := w.nodes[n].metrics;
    var counted := if HasRoom(w, pc.client) then ms.(local := ms.local + 1) else ms.(chanFull := ms.chanFull + 1);
    SetListen(SetMetrics(Offer(w, pc.client, pc.payload), n, counted), c, Reading)
  }

  function AckStep(w: World, c: nat, ok: bool): World
    requires Awake(w, c) && w.clients[c].listen.Acking?
  {
    var cl := w.clients[c];
    SetListen(AdvanceCursor(w, Cursor(cl.listen.conv, cl.user, cl.listen.msgId), ok), c, Reading)
  }

  /** `refreshOnlineTTL`: EXPIRE revives no expired key. */
  function PongStep(w: World, c: nat, ok: bool): World
    requires Awake(w, c)
  {
    var u := w.clients[c].user;
    w.(presence := if ok && KeyLive(w, u)
                   then w.presence[u := Lease(w.presence[u].node, w.now + PRESENCE_TTL)] else w.presence)
  }

  /** The deferred teardown begins with `Unregister`. */
  function ReadFailsStep(w: World, c: nat): World
    requires Awake(w, c)
  {
    var cl := w.clients[c];
    SetListen(w, c, Leaving(|w.unregs|)).(unregs := w.unregs + [Unreg(c, cl.user, cl.node, Checking)])
  }

  function CloseConnStep(w: World, c: nat): World
    requires Awake(w, c)
  {
    SetClient(w, c, w.clients[c].(listen := Closing, broken := true))
  }

  function CloseSendStep(w: World, c: nat): World
    requires Awake(w, c)
  {
    SetClient(w, c, w.clients[c].(listen := Finished, closes := w.clients[c].closes + 1))
  }

  function ListenStep(w: World, c: nat, a: ListenAct): World
    requires ListenEnabled(w, c, a)
  {
    match a
    case Receive(frame) => ReceiveStep(w, c, frame)
    case Pong(ok) => PongStep(w, c, ok)
    case ReadFails => ReadFailsStep(w, c)
    case DoFindUser(f) => FindUserStep(w, c, f)
    case DoResolve(f) => ResolveStep(w, c, f)
    case DoPersist(f) => PersistStep(w, c, f)
    case DoPublish(direct, ok) => PublishStep(w, c, direct, ok)
    case DoMarkOwn(ok) => MarkOwnStep(w, c, ok)
    case DoFindLocal => FindLocalStep(w, c)
    case DoFindNode(ok) => FindNodeStep(w, c, ok)
    case DoForward(ok, reached) => ForwardStep(w, c, ok, reached)
    case DoPush => PushStep(w, c)
    case DoPushClosed => Crash(w, w.clients[c].node)
    case DoAck(ok) => AckStep(w, c, ok)
    case CloseConn => CloseConnStep(w, c)
    case CloseSend => CloseSendStep(w, c)
  }

  // ------------------------------------------------------------ Unregister

  predicate UnregEnabled(w: World, k: nat, pc: UnregPc) {
    k < |w.unregs| && Up(w, w.unregs[k].node) && w.unregs[k].pc == pc
  }

  predicate HoldsSlot(w: World, t: Unreg)
    requires t.node < |w.nodes|
  {
    t.user in w.nodes[t.node].registry && w.nodes[t.node].registry[t.user] == t.client
  }

  /** The locked region of `Unregister`: only the connection that still holds the
      slot gives it up. */
  function UnregCheckStep(w: World, k: nat): World
    requires UnregEnabled(w, k, Checking)
  {
    var t := w.unregs[k];
    var node := w.nodes[t.node];
    SetNode(w, t.node, node.(registry := if HoldsSlot(w, t) then node.registry - {t.user} else node.registry))
    .(unregs := w.unregs[k := t.(pc := if HoldsSlot(w, t) then Deleting else Gone)])
  }

  function UnregDeleteStep(w: World, k: nat, ok: bool): World
    requires UnregEnabled(w, k, Deleting)
  {
    var t := w.unregs[k];
    w.(unregs := w.unregs[k := t.(pc := Decrementing)], presence := if ok then w.presence - {t.user} else w.presence)
  }

  function UnregDecrementStep(w: World, k: nat): World
    requires UnregEnabled(w, k, Decrementing)
  {
    var t := w.unregs[k];
    SetNode(w, t.node, w.nodes[t.node].(gauge := w.nodes[t.node].gauge - 1)).(unregs := w.unregs[k := t.(pc := Gone)])
  }

  // ------------------------------------------------------------ subscriber

  predicate SubIdle(w: World, n: nat) {
    Up(w, n) && w.nodes[n].held.None? && w.nodes[n].read < |w.forwards|
  }

  /** `handlerForwardMsg` up to the registry lookup: records for other nodes are dropped. */
  function SubReceiveStep(w: World, n: nat): World
    requires SubIdle(w, n)
  {
    var node := w.nodes[n];
    var k := node.read;
    var f := w.forwards[k];
    var counted := node.(read := k + 1, metrics := node.metrics.(forwardReceived := node.metrics.forwardReceived + 1));
    var mine := f.node == node.name && f.user in node.registry;
    SetNode(w, n, counted.(
              held := if mine then Some(Held(node.registry[f.user], k)) else None,
              taken := if mine then node.taken[k := node.registry[f.user]] else node.taken))
  }

  function SubLoseStep(w: World, n: nat): World
    requires SubIdle(w, n)
  {
    SetNode(w, n, w.nodes[n].(read := w.nodes[n].read + 1))
  }

  predicate SubHolds(w: World, n: nat) {
    && Up(w, n) && w.nodes[n].held.Some?
    && w.nodes[n].held.value.client < |w.clients| && w.nodes[n].held.value.forward < |w.forwards|
  }

  function SubPushStep(w: World, n: nat): World
    requires SubHolds(w, n)
  {
    var h := w.nodes[n].held.value;
    SetNode(Offer(w, h.client, w.forwards[h.forward].payload), n, w.nodes[n].(held := None))
  }

  // ------------------------------------------------------------------ runs

  predicate Enabled(w: World, a: Action) {
    match a
    case Env(e) => EnvEnabled(w, e)
    case Conn(c, e) => ConnEnabled(w, c, e)
    case Listen(c, e) => ListenEnabled(w, c, e)
    case UnregCheck(k) => UnregEnabled(w, k, Checking)
    case UnregDelete(k, _) => UnregEnabled(w, k, Deleting)
    case UnregDecrement(k) => UnregEnabled(w, k, Decrementing)
    case SubReceive(n) => SubIdle(w, n)
    case SubLose(n) => SubIdle(w, n)
    case SubPush(n) => SubHolds(w, n) && w.clients[w.nodes[n].held.value.client].closes == 0
    case SubPushClosed(n) => SubHolds(w, n) && w.clients[w.nodes[n].held.value.client].closes > 0
  }

  function Step(w: World, a: Action): World
    requires Enabled(w, a)
  {
    match a
    case Env(e) => EnvStep(w, e)
    case Conn(c, e) => ConnStep(w, c, e)
    case Listen(c, e) => ListenStep(w, c, e)
    case UnregCheck(k) => UnregCheckStep(w, k)
    case UnregDelete(k, ok) => UnregDeleteStep(w, k, ok)
    case UnregDecrement(k) => UnregDecrementStep(w, k)
    case SubReceive(n) => SubReceiveStep(w, n)
    case SubLose(n) => SubLoseStep(w, n)
    case SubPush(n) => SubPushStep(w, n)
    case SubPushClosed(n) => Crash(w, n)
  }

  ghost predicate StepAt(tr: seq<World>, acts: seq<Action>, k: nat)
    requires k < |acts| && k + 1 < |tr|
  {
    Enabled(tr[k], acts[k]) && tr[k + 1] == Step(tr[k], acts[k])
  }

  /** `tr` is the sequence of states of a run taking the steps `acts`. */
  ghost predicate Run(tr: seq<World>, acts: seq<Action>) {
    && |tr| == |acts| + 1
    && Init(tr[0])
    && forall k :: 0 <= k < |acts| ==> StepAt(tr, acts, k)
  }
}
