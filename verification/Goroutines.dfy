/** The goroutines of a server as sequential code over the shared state of the cluster:
    every statement is one step of the machine in `Cluster`, and between any two
    statements the other goroutines take whatever steps a schedule gives them. What
    these methods build is a run, so every theorem about runs is about them.

    Each method returns, as a ghost, the steps of that run which its own goroutine took:
    the contracts say exactly which statements those are and what they did. A method
    gives up only when its process has crashed. */
module Goroutines {
  import opened Basics
  import opened Store
  import opened Cluster
  import opened Effects
  import UserCache
  import Conversations
  import Lifecycle
  import NoGap
  import Slots
  import Socket
  import Tables

  /** How the statements of one `handleChatMsg` turn out. */
  datatype Chances = Chances(userFaults: UserCache.Faults, convFaults: Conversations.Faults, insertFault: InsertFault,
                             direct: bool, summaryOk: bool, markOk: bool, lookupOk: bool, forwardOk: bool,
                             reached: bool)

  /** `Died`: the process crashed under the goroutine. */
  datatype Outcome = NoTarget | NoConversation | NotStored | Handled(conv: nat, row: Message, route: Route) | Died

  /** What the reader gets off the socket: a frame, or a pong that renews the key. */
  datatype Incoming = Incoming(frame: Inbound, chances: Chances) | Heartbeat(renewOk: bool)
  datatype Done = Chatted(out: Outcome) | Acked | Ignored | Renewed

  // -------------------------------------------------------- the program texts

  function Storing(c: nat, ch: Chances): seq<Action> {
    [Listen(c, DoFindUser(ch.userFaults)), Listen(c, DoResolve(ch.convFaults)), Listen(c, DoPersist(ch.insertFault))]
  }

  function Announcing(c: nat, ch: Chances): seq<Action> {
    [Listen(c, DoPublish(ch.direct, ch.summaryOk)), Listen(c, DoMarkOwn(ch.markOk))]
  }

  function Looking(c: nat, ch: Chances): Action {
    Listen(c, DoFindNode(ch.lookupOk))
  }

  function Forwarding(c: nat, ch: Chances): Action {
    Listen(c, DoForward(ch.forwardOk, ch.forwardOk || ch.reached))
  }

  predicate Pushed(route: Route) {
    route.Local? || route.ChanFull?
  }

  predicate Forwarded(route: Route) {
    route.CrossInstance? || route.ForwardFailed?
  }

  /** After the lookup in the registry. */
  function RouteText(c: nat, ch: Chances, route: Route): seq<Action> {
    if Pushed(route) then [Listen(c, DoPush)]
    else if Forwarded(route) then [Looking(c, ch), Forwarding(c, ch)]
    else [Looking(c, ch)]
  }

  /** Which statements a `handleChatMsg` with this outcome has executed, in order. */
  function ChatText(c: nat, ch: Chances, out: Outcome): seq<Action> {
    match out
    case NoTarget => Storing(c, ch)[..1]
    case NoConversation => Storing(c, ch)[..2]
    case NotStored => Storing(c, ch)
    case Handled(_, _, route) => Storing(c, ch) + Announcing(c, ch) + [Listen(c, DoFindLocal)] + RouteText(c, ch, route)
    case Died => []
  }

  /** The statements from one read to the next. */
  function FrameText(c: nat, x: Incoming, done: Done): seq<Action> {
    if x.Heartbeat? then [Listen(c, Pong(x.renewOk))]
    else
      [Listen(c, Receive(x.frame))] +
      match done
      case Chatted(out) => ChatText(c, x.chances, out)
      case Acked => [Listen(c, DoAck(x.chances.markOk))]
      case _ => []
  }

  function TeardownText(c: nat): seq<Action> {
    [Listen(c, ReadFails), Listen(c, CloseConn), Listen(c, CloseSend)]
  }

  // ---------------------------------------------------- what has been achieved

  /** The frame is where its route says. */
  ghost predicate Routed(w: World, c: nat, chat: Chat, p: Payload, route: Route)
    requires c < |w.clients|
  {
    && (Pushed(route) ==>
          && route.client < |w.clients| && w.clients[route.client].user == chat.to
          && w.clients[route.client].node == w.clients[c].node
          && p in w.clients[route.client].offered
          && (route.Local? ==> p in w.clients[route.client].accepted))
    && (route.CrossInstance? ==> ForwardMsg(chat.to, route.node, p) in w.forwards)
  }

  /** The lookup of the target decided whether the handler goes on. */
  predicate FindTaken(m: Move, c: nat, ch: Chances, chat: Chat, went: bool) {
    && m.act == Listen(c, DoFindUser(ch.userFaults)) && ListenEnabled(m.from, c, DoFindUser(ch.userFaults))
    && m.from.clients[c].listen.chat == chat && (went <==> Finds(m.from, chat.to, ch.userFaults))
  }

  ghost predicate ResolveTaken(m: Move, c: nat, ch: Chances, went: bool) {
    && m.act == Listen(c, DoResolve(ch.convFaults)) && ListenEnabled(m.from, c, DoResolve(ch.convFaults))
    && (went <==> Conversations.Resolves(m.from.db, m.from.convCache, m.from.clients[c].user,
                                         m.from.clients[c].listen.target, m.from.now, ch.convFaults))
  }

  /** The insert decided it: the handler goes on with this row and counts it, or it counts
      a failure. */
  ghost predicate PersistTaken(m: Move, c: nat, ch: Chances, chat: Chat, row: Option<Message>) {
    && m.act == Listen(c, DoPersist(ch.insertFault)) && ListenEnabled(m.from, c, DoPersist(ch.insertFault))
    && m.from.clients[c].listen.chat == chat
    && (row.Some? <==> Persists(m.from, chat.clientId, ch.insertFault))
    && if row.Some? then PersistEffect(m.from, c, row.value, m.to)
       else m.to.db.msgs == m.from.db.msgs && PersistTally(m.from, c, 0, 1, m.to)
  }

  /** From the `i`-th step on: the conversation was resolved and the row stored. */
  ghost predicate RowStored(ms: seq<Move>, i: nat, c: nat, ch: Chances, chat: Chat, row: Message) {
    i + 1 < |ms| && ResolveTaken(ms[i], c, ch, true) && PersistTaken(ms[i + 1], c, ch, chat, Some(row))
  }

  /** From the `i`-th step on: why there is no row. */
  ghost predicate RowRefused(ms: seq<Move>, i: nat, c: nat, ch: Chances, chat: Chat, out: Outcome) {
    i < |ms| &&
    if out.NoConversation? then ResolveTaken(ms[i], c, ch, false)
    else i + 1 < |ms| && ResolveTaken(ms[i], c, ch, true) && PersistTaken(ms[i + 1], c, ch, chat, None)
  }

  /** From the `i`-th step on: each early end of the handler has its one reason, and without
      it the handler goes on with the row of its message. */
  ghost predicate StoreTaken(ms: seq<Move>, i: nat, c: nat, ch: Chances, chat: Chat, out: Outcome) {
    match out
    case Died => true
    case NoTarget => i < |ms| && FindTaken(ms[i], c, ch, chat, false)
    case Handled(_, row, _) => i < |ms| && FindTaken(ms[i], c, ch, chat, true) && RowStored(ms, i + 1, c, ch, chat, row)
    case _ => i < |ms| && FindTaken(ms[i], c, ch, chat, true) && RowRefused(ms, i + 1, c, ch, chat, out)
  }

  lemma {:induction false} ThenRefused(first: seq<Move>, ms: seq<Move>, c: nat, ch: Chances, chat: Chat, out: Outcome)
    requires Follows(first, Storing(c, ch)[..1]) && FindTaken(first[0], c, ch, chat, true)
    requires (out.NoConversation? || out.NotStored?) && RowRefused(ms, 0, c, ch, chat, out)
    requires Follows(ms, if out.NoConversation? then Storing(c, ch)[1..2] else Storing(c, ch)[1..])
    ensures Follows(first + ms, ChatText(c, ch, out)) && StoreTaken(first + ms, 0, c, ch, chat, out)
  {
    assert (first + ms)[0] == first[0] && (first + ms)[1] == ms[0];
    if out.NotStored? { assert (first + ms)[2] == ms[1]; }
  }

  lemma {:induction false} ThenStored(first: seq<Move>, ms: seq<Move>, c: nat, ch: Chances, chat: Chat, row: Message)
    requires Follows(first, Storing(c, ch)[..1]) && FindTaken(first[0], c, ch, chat, true)
    requires RowStored(ms, 0, c, ch, chat, row) && Follows(ms, Storing(c, ch)[1..])
    ensures Follows(first + ms, Storing(c, ch)) && FindTaken((first + ms)[0], c, ch, chat, true)
    ensures RowStored(first + ms, 1, c, ch, chat, row)
  {
    assert (first + ms)[0] == first[0] && (first + ms)[1] == ms[0] && (first + ms)[2] == ms[1];
  }

  lemma {:induction false} StoreMoves(first: seq<Move>, ms: seq<Move>, c: nat, ch: Chances, chat: Chat, out: Outcome)
    requires StoreTaken(ms, 0, c, ch, chat, out)
    ensures StoreTaken(first + ms, |first|, c, ch, chat, out)
  {
    assert forall i :: 0 <= i < |ms| ==> (first + ms)[|first| + i] == ms[i];
  }

  /** The steps after the row was stored do not touch how it was. */
  lemma {:induction false} StoredFirst(ms: seq<Move>, more: seq<Move>, c: nat, ch: Chances, chat: Chat, conv: nat,
                                       row: Message, route: Route)
    requires |ms| > 0 && FindTaken(ms[0], c, ch, chat, true) && RowStored(ms, 1, c, ch, chat, row)
    ensures StoreTaken(ms + more, 0, c, ch, chat, Handled(conv, row, route))
  {
    assert forall i :: 0 <= i < |ms| ==> (ms + more)[i] == ms[i];
  }

  /** The push decided between the two: the frame is queued and counted as delivered, or
      there was no room, the connection is being kicked and it counts as a failure. */
  predicate PushTaken(m: Move, c: nat, route: Route) {
    m.act == Listen(c, DoPush) && ListenEnabled(m.from, c, DoPush) && PushEffect(m.from, c, route, m.to)
  }

  /** What Redis answered to this lookup is what the route says and what was counted. */
  predicate AnswerTaken(m: Move, c: nat, ch: Chances, route: Route) {
    && m.act == Looking(c, ch) && Awake(m.from, c) && m.from.clients[c].listen.FindNode?
    && ForwardsTo(m.from, c, ch.lookupOk).None?
    && route == AnswerRoute(m.from, c, ch.lookupOk) && Tallied(m.from, c, route, m.to)
  }

  /** The lookup named another node; the route says whether the publish to it worked, and
      so does the counter. */
  predicate ForwardTaken(look: Move, m: Move, c: nat, ch: Chances, route: Route) {
    && look.act == Looking(c, ch) && Awake(look.from, c) && look.from.clients[c].listen.FindNode?
    && ForwardsTo(look.from, c, ch.lookupOk).Some?
    && m.act == Forwarding(c, ch)
    && route == ForwardRoute(ch.forwardOk, ForwardsTo(look.from, c, ch.lookupOk).value)
    && Tallied(m.from, c, route, m.to)
  }

  /** The last statements of a handler determine its route, one way or the other. */
  predicate RouteTaken(ms: seq<Move>, c: nat, ch: Chances, route: Route) {
    var n := |ms|;
    n > 0 &&
    if Pushed(route) then PushTaken(ms[n - 1], c, route)
    else if Forwarded(route) then n > 1 && ForwardTaken(ms[n - 2], ms[n - 1], c, ch, route)
    else AnswerTaken(ms[n - 1], c, ch, route)
  }

  lemma {:induction false} TakenIn(ms: seq<Move>, more: seq<Move>, c: nat, ch: Chances, route: Route)
    requires RouteTaken(more, c, ch, route)
    ensures RouteTaken(ms + more, c, ch, route)
  {
  }

  lemma {:induction false} RouteSteps(ms: seq<Move>, more: seq<Move>, c: nat, ch: Chances, route: Route)
    requires Follows(ms, [Listen(c, DoFindLocal)]) && Follows(more, RouteText(c, ch, route))
    requires RouteTaken(more, c, ch, route)
    ensures Follows(ms + more, [Listen(c, DoFindLocal)] + RouteText(c, ch, route))
    ensures RouteTaken(ms + more, c, ch, route)
  {
    FollowsBoth(ms, [Listen(c, DoFindLocal)], more, RouteText(c, ch, route));
    TakenIn(ms, more, c, ch, route);
  }

  /** Storing, then passing on, is the whole text of a handled message. */
  lemma {:induction false} ChatFollows(ms: seq<Move>, more: seq<Move>, c: nat, ch: Chances, conv: nat, row: Message,
                                       route: Route)
    requires Follows(ms, Storing(c, ch)) && RouteTaken(more, c, ch, route)
    requires Follows(more, Announcing(c, ch) + [Listen(c, DoFindLocal)] + RouteText(c, ch, route))
    ensures Follows(ms + more, ChatText(c, ch, Handled(conv, row, route))) && RouteTaken(ms + more, c, ch, route)
  {
    var text := Announcing(c, ch) + [Listen(c, DoFindLocal)] + RouteText(c, ch, route);
    FollowsBoth(ms, Storing(c, ch), more, text);
    assert Storing(c, ch) + text == ChatText(c, ch, Handled(conv, row, route));
    TakenIn(ms, more, c, ch, route);
  }

  /** A lookup that named another node, then the publish to it. */
  lemma {:induction false} ForwardSteps(first: seq<Move>, more: seq<Move>, c: nat, ch: Chances, route: Route)
    requires |first| == 1 && |more| == 1 && Forwarded(route) && ForwardTaken(first[0], more[0], c, ch, route)
    ensures Follows(first + more, RouteText(c, ch, route)) && RouteTaken(first + more, c, ch, route)
  {
    assert (first + more)[0] == first[0] && (first + more)[1] == more[0];
  }

  /** Two routes that the same steps account for are the same route. */
  lemma {:induction false} RouteIsDetermined(ms: seq<Move>, c: nat, ch: Chances, route: Route, route': Route)
    requires RouteTaken(ms, c, ch, route) && RouteTaken(ms, c, ch, route')
    ensures route == route'
  {
  }

  /** What a finished handler leaves behind, whatever ran in between: the message is
      stored, its summary update handed over, the sender's own cursor moved. */
  ghost predicate Delivered(w: World, c: nat, chat: Chat, ch: Chances, out: Outcome)
    requires c < |w.clients|
  {
    out.Handled? ==>
      && chat.to in w.db.users
      && out.row in w.db.msgs && out.row.clientId == chat.clientId
      && MqMessage(out.conv, out.row) in w.handed
      && (ch.markOk ==> Cursor(out.conv, w.clients[c].user, out.row.id) in w.cursors)
      && Routed(w, c, chat, ChatFrameOf(w.clients[c].user, chat, out.conv, out.row), out.route)
  }

  lemma {:induction false} PersistedStays(w: World, w': World, conv: nat, row: Message)
    requires Onward(w, w') && row in w.db.msgs && MqMessage(conv, row) in w.handed
    ensures row in w'.db.msgs && MqMessage(conv, row) in w'.handed
  {
    RowStays(w, w', row);
    HandedStays(w, w', MqMessage(conv, row));
  }

  lemma {:induction false} RoutedStays(w: World, w': World, c: nat, chat: Chat, p: Payload, route: Route)
    requires c < |w.clients| && Onward(w, w') && Routed(w, c, chat, p, route)
    ensures c < |w'.clients| && Routed(w', c, chat, p, route)
  {
    if Pushed(route) {
      NoGap.OffersOnlyGrow(w.clients[route.client].offered, w'.clients[route.client].offered, p);
    }
    if route.Local? {
      NoGap.OffersOnlyGrow(w.clients[route.client].accepted, w'.clients[route.client].accepted, p);
    }
    if route.CrossInstance? {
      var f :| 0 <= f < |w.forwards| && w.forwards[f] == ForwardMsg(chat.to, route.node, p);
      assert w'.forwards[f] == ForwardMsg(chat.to, route.node, p);
    }
  }

  lemma {:induction false} DeliveredStays(w: World, w': World, c: nat, chat: Chat, ch: Chances, out: Outcome)
    requires c < |w.clients| && Onward(w, w') && Delivered(w, c, chat, ch, out)
    ensures c < |w'.clients| && Delivered(w', c, chat, ch, out)
  {
    if out.Handled? {
      PersistedStays(w, w', out.conv, out.row);
      RoutedStays(w, w', c, chat, ChatFrameOf(w.clients[c].user, chat, out.conv, out.row), out.route);
    }
  }

  /** What one frame has led to. */
  ghost predicate FrameDone(w: World, c: nat, x: Incoming, done: Done)
    requires c < |w.clients|
  {
    match x
    case Heartbeat(_) => done.Renewed?
    case Incoming(ChatFrame(m), ch) => done.Chatted? && !done.out.Died? && Delivered(w, c, m, ch, done.out)
    case Incoming(AckFrame(k, id), ch) => done.Acked? && (ch.markOk ==> Cursor(k, w.clients[c].user, id) in w.cursors)
    case Incoming(OtherFrame, _) => done.Ignored?
  }

  /** The steps taken for one frame: the statements of its kind, a route they account for,
      and for a pong the key renewed. */
  ghost predicate FrameSteps(ms: seq<Move>, c: nat, x: Incoming, done: Done) {
    && Follows(ms, FrameText(c, x, done))
    && (x.Incoming? && x.frame.ChatFrame? && done.Chatted? ==>
          StoreTaken(ms, 1, c, x.chances, x.frame.chat, done.out))
    && (x.Incoming? && done.Chatted? && done.out.Handled? ==> RouteTaken(ms, c, x.chances, done.out.route))
    && (x.Heartbeat? ==> c < |ms[0].from.clients| && PongEffect(ms[0].from, c, x.renewOk, ms[0].to))
  }

  lemma {:induction false} ChatSteps(ms: seq<Move>, more: seq<Move>, c: nat, x: Incoming, out: Outcome)
    requires x.Incoming? && Follows(ms, [Listen(c, Receive(x.frame))]) && Follows(more, ChatText(c, x.chances, out))
    requires out.Handled? ==> RouteTaken(more, c, x.chances, out.route)
    requires x.frame.ChatFrame? && StoreTaken(more, 0, c, x.chances, x.frame.chat, out)
    ensures FrameSteps(ms + more, c, x, Chatted(out))
  {
    FollowsBoth(ms, [Listen(c, Receive(x.frame))], more, ChatText(c, x.chances, out));
    StoreMoves(ms, more, c, x.chances, x.frame.chat, out);
    if out.Handled? { TakenIn(ms, more, c, x.chances, out.route); }
  }

  /** What a reader has handled so far, with the steps it took for each frame. */
  datatype Log = Opened | Then(before: Log, x: Incoming, done: Done, ms: seq<Move>)

  function Heard(log: Log): seq<Incoming> {
    if log.Opened? then [] else Heard(log.before) + [log.x]
  }

  function StepsOf(log: Log): seq<Move> {
    if log.Opened? then [] else StepsOf(log.before) + log.ms
  }

  lemma {:induction false} StepsThen(base: seq<Move>, log: Log, x: Incoming, d: Done, ms: seq<Move>)
    ensures base + StepsOf(Then(log, x, d, ms)) + [] == base + StepsOf(log) + ms
  {
    assert base + (StepsOf(log) + ms) == base + StepsOf(log) + ms;
  }

  /** Every frame was handled by its own steps, and what it led to still holds. */
  ghost predicate LogDone(w: World, c: nat, log: Log)
    requires c < |w.clients|
  {
    log.Then? ==>
      LogDone(w, c, log.before) && FrameDone(w, c, log.x, log.done) && FrameSteps(log.ms, c, log.x, log.done)
  }

  lemma {:induction false} FrameDoneStays(w: World, w': World, c: nat, x: Incoming, d: Done)
    requires c < |w.clients| && Onward(w, w') && FrameDone(w, c, x, d)
    ensures c < |w'.clients| && FrameDone(w', c, x, d)
  {
    if x.Incoming? && x.frame.ChatFrame? { DeliveredStays(w, w', c, x.frame.chat, x.chances, d.out); }
  }

  lemma {:induction false} LogDoneStays(w: World, w': World, c: nat, log: Log)
    requires c < |w.clients| && c < |w'.clients| && Onward(w, w') && LogDone(w, c, log)
    ensures LogDone(w', c, log)
  {
    if log.Then? {
      LogDoneStays(w, w', c, log.before);
      FrameDoneStays(w, w', c, log.x, log.done);
    }
  }

  /** Slot, presence key and gauge, in this order. */
  predicate RegisterDone(ms: seq<Move>, c: nat, setOk: bool) {
    && Follows(ms, [Conn(c, RegisterMap), Conn(c, RegisterPresence(setOk)), Conn(c, RegisterGauge)])
    && TookSlot(ms[0].from, c, ms[0].to) && SetKey(ms[1].from, c, setOk, ms[1].to) && CountedUp(ms[2].from, c, ms[2].to)
  }

  /** The locked check alone if another connection has the slot; otherwise out of the
      registry, key deleted, counted down. */
  ghost predicate UnregisterDone(ms: seq<Move>, k: nat, delOk: bool) {
    && |ms| > 0 && ms[0].act == UnregCheck(k) && CheckEffect(ms[0].from, k, ms[0].to)
    && if Holder(ms[0].from, k) then ReleaseDone(ms[1..], k, delOk) else |ms| == 1
  }

  predicate ReleaseDone(ms: seq<Move>, k: nat, delOk: bool) {
    && Follows(ms, [UnregDelete(k, delOk), UnregDecrement(k)])
    && DeletedKey(ms[0].from, k, delOk, ms[0].to) && CountedDown(ms[1].from, k, ms[1].to)
  }

  /** The backlog was read by a query among these steps. */
  ghost predicate Queried(ms: seq<Move>, c: nat, ok: bool, backlog: Option<seq<Message>>) {
    |ms| > 0 && ms[0].act == Conn(c, QueryBacklog(ok)) && c < |ms[0].from.clients|
    && backlog == if ok then Some(Unread(ms[0].from.db, ms[0].from.clients[c].user)) else None
  }

  lemma {:induction false} OpeningStays(ms: seq<Move>, more: seq<Move>, c: nat, setOk: bool, queryOk: bool,
                                        backlog: Option<seq<Message>>)
    requires |ms| > 3 && RegisterDone(ms[..3], c, setOk) && Queried(ms[3..], c, queryOk, backlog)
    ensures RegisterDone((ms + more)[..3], c, setOk) && Queried((ms + more)[3..], c, queryOk, backlog)
  {
    assert (ms + more)[..3] == ms[..3] && (ms + more)[3..] == ms[3..] + more;
  }

  /** Why a writer is where it is: it stops when a write fails, or when the channel is
      closed and empty. */
  predicate StoppedFor(cl: Client) {
    cl.pc.Delivering? || (cl.pc.Stopped? && (cl.dropped != [] || (cl.send == [] && cl.closes > 0)))
  }

  predicate IdleAt(w: World, c: nat) {
    c < |w.clients| && w.clients[c].send == []
  }

  /** One statement of the reader, just executed. */
  ghost predicate Executed(ms: seq<Move>, c: nat, e: ListenAct, w: World) {
    && |ms| == 1 && ms[0].act == Listen(c, e) && ms[0].to == w
    && ListenEnabled(ms[0].from, c, e) && SameClient(ms[0].from, c, w) && ReaderEffect(ms[0].from, c, e, w)
  }

  /** One statement of `WsConnect`, just executed. */
  ghost predicate Performed(ms: seq<Move>, c: nat, e: ConnectAct, w: World) {
    && |ms| == 1 && ms[0].act == Conn(c, e) && ms[0].to == w
    && ConnEnabled(ms[0].from, c, e) && WriterEffect(ms[0].from, c, e, w)
  }

  lemma {:induction false} ReadyIsEnabled(w: World, c: nat, e: ListenAct)
    requires Awake(w, c) && Ready(w.clients[c].listen, e)
    ensures ListenEnabled(w, c, e)
  {
  }

  lemma {:induction false} OneMoreHeard(frames: seq<Incoming>, n: nat)
    requires n < |frames|
    ensures frames[..n] + [frames[n]] == frames[..n + 1]
  {
  }

  lemma InARow(start: seq<Move>, between: seq<Move>, end: seq<Move>, ms: seq<Move>, more: seq<Move>)
    requires between == start + ms && end == between + more
    ensures end == start + (ms + more)
  {
  }

  /** One record of the channel was read and counted as received, whomever it is for. */
  predicate ReceivedOne(w: World, n: nat, w': World) {
    && n < |w.nodes| == |w'.nodes| && w'.nodes[n].read == w.nodes[n].read + 1
    && w'.nodes[n].metrics == w.nodes[n].metrics.(forwardReceived := w.nodes[n].metrics.forwardReceived + 1)
  }

  class Server {
    var w: World
    /** What the rest of the cluster attempts during the `n`-th pause. */
    const sched: nat -> seq<Action>
    var pause: nat
    ghost var tr: seq<World>
    ghost var acts: seq<Action>
    ghost var did: Self -> seq<Move>   // per goroutine, its own steps of the run

    ghost predicate Valid()
      reads this
    {
      Run(tr, acts) && w == tr[|acts|] && forall g {:trigger Own(tr, acts, g)} :: did(g) == Own(tr, acts, g)
    }

    constructor (names: seq<string>, sched: nat -> seq<Action>)
      ensures Valid() && |w.nodes| == |names| && acts == []
    {
      w := World(0, EMPTY, map[], map[], map[],
                 seq(|names|, n requires 0 <= n < |names| => Node(names[n], map[], 0, ZERO, 0, None, false, 0, map[])),
                 [], [], [], [], {}, map[]);
      this.sched, pause := sched, 0;
      new;
      tr, acts, did := [w], [], (g: Self) => [];
    }

    /** One statement. */
    method Do(a: Action)
      requires Valid() && Enabled(w, a)
      modifies this`w, this`tr, this`acts, this`did
      ensures Valid() && w == Step(old(w), a) && tr == old(tr) + [w]
      ensures forall g :: did(g) == if OwnedBy(a, g) then old(did)(g) + [Move(old(w), a, w)] else old(did)(g)
    {
      RunExtends(tr, acts, a);
      ghost var before, m := did, Move(w, a, Step(w, a));
      forall g: Self
        ensures Own(tr + [m.to], acts + [a], g) == if OwnedBy(a, g) then before(g) + [m] else before(g)
      {
        OwnAppend(tr, acts, a, m.to, g);
      }
      w := Step(w, a);
      tr, acts := tr + [w], acts + [a];
      did := (g: Self) => if OwnedBy(a, g) then before(g) + [m] else before(g);
    }

    method Read(c: nat, e: ListenAct) returns (ghost m: Move)
      requires Valid() && ListenEnabled(w, c, e)
      modifies this`w, this`tr, this`acts, this`did
      ensures Valid() && tr == old(tr) + [w] && c < |w.clients| && ReaderEffect(old(w), c, e, w)
      ensures m == Move(old(w), Listen(c, e), w) && did(Reader(c)) == old(did)(Reader(c)) + [m]
    {
      Tables.InvHolds(tr, acts, |acts|);
      ReaderStep(w, c, e);
      m := Move(w, Listen(c, e), ListenStep(w, c, e));
      Do(Listen(c, e));
    }

    method Write(c: nat, e: ConnectAct) returns (ghost m: Move)
      requires Valid() && ConnEnabled(w, c, e)
      modifies this`w, this`tr, this`acts, this`did
      ensures Valid() && tr == old(tr) + [w] && WriterEffect(old(w), c, e, w)
      ensures m == Move(old(w), Conn(c, e), w) && did(Writer(c)) == old(did)(Writer(c)) + [m]
    {
      WriterStep(w, c, e);
      m := Move(w, Conn(c, e), ConnStep(w, c, e));
      Do(Conn(c, e));
    }

    /** A pause: the others run. The process may crash meanwhile. */
    method Others(self: Self) returns (alive: bool)
      requires Valid() && Exists(w, self)
      modifies this`w, this`tr, this`acts, this`did, this`pause
      ensures Valid() && old(tr) <= tr && Undisturbed(old(w), w, self)
      ensures did(self) == old(did)(self)
      ensures Inner(old(w), self).Some? ==> did(Inner(old(w), self).value) == old(did)(Inner(old(w), self).value)
      ensures alive <==> Alive(w, self)
    {
      var todo, i := sched(pause), 0;
      pause := pause + 1;
      while i < |todo|
        invariant Valid() && old(tr) <= tr && Undisturbed(old(w), w, self)
        invariant did(self) == old(did)(self)
        invariant Inner(old(w), self).Some? ==> did(Inner(old(w), self).value) == old(did)(Inner(old(w), self).value)
      {
        if Enabled(w, todo[i]) && !Mine(w, self, todo[i]) {
          Lifecycle.InvHolds(tr, acts, |acts|);
          OthersDisturbNot(w, todo[i], self);
          Do(todo[i]);
        }
        i := i + 1;
      }
      alive := Alive(w, self);
    }

    /** A pause, then the reader's next statement. */
    method Next(c: nat, e: ListenAct) returns (alive: bool, ghost ms: seq<Move>)
      requires Valid() && c < |w.clients| && Ready(w.clients[c].listen, e)
      modifies this`w, this`tr, this`acts, this`did, this`pause
      ensures Valid() && old(tr) <= tr && did(Reader(c)) == old(did)(Reader(c)) + ms
      ensures SameClient(old(w), c, w) && (alive <==> Awake(w, c))
      ensures if alive then Executed(ms, c, e, w) && ms[0].from.clients[c].listen == old(w.clients[c].listen)
              else ms == []
    {
      ms := [];
      alive := Pause(c);
      if alive {
        ReadyIsEnabled(w, c, e);
        ghost var m := Read(c, e);
        ms := [m];
      }
    }

    /** The rest of the cluster goes on while the reader of `c` is between two statements. */
    method Pause(c: nat) returns (alive: bool)
      requires Valid() && c < |w.clients| && !w.clients[c].listen.NotStarted?
      modifies this`w, this`tr, this`acts, this`did, this`pause
      ensures Valid() && old(tr) <= tr && did(Reader(c)) == old(did)(Reader(c))
      ensures SameClient(old(w), c, w) && w.clients[c].listen == old(w.clients[c].listen) && (alive <==> Awake(w, c))
    {
      alive := Others(Reader(c));
    }

    // ------------------------------------------------------- handleChatMsg

    /** Up to the insert: the target, the conversation, the row. `None` goes on. */
    method StoreChat(c: nat, chances: Chances) returns (out: Option<Outcome>, ghost ms: seq<Move>)
      requires Valid() && c < |w.clients| && w.clients[c].listen.FindUser?
      modifies this`w, this`tr, this`acts, this`did, this`pause
      ensures Valid() && old(tr) <= tr && did(Reader(c)) == old(did)(Reader(c)) + ms
      ensures SameClient(old(w), c, w) && (out == Some(Died) <==> !Awake(w, c))
      ensures out.Some? && !out.value.Died? ==>
                && w.clients[c].listen.Reading? && !out.value.Handled? && Follows(ms, ChatText(c, chances, out.value))
                && StoreTaken(ms, 0, c, chances, old(w.clients[c].listen.chat), out.value)
      ensures out.None? ==>
                var pc := w.clients[c].listen;
                && pc.Publish? && pc.chat.to in w.db.users && pc.chat == old(w.clients[c].listen.chat)
                && pc.row in w.db.msgs && pc.row.clientId == pc.chat.clientId
                && Follows(ms, Storing(c, chances)) && FindTaken(ms[0], c, chances, pc.chat, true)
                && RowStored(ms, 1, c, chances, pc.chat, pc.row)
    {
      ghost var more, start := [], did(Reader(c));
      var alive;
      alive, ms := FindTarget(c, chances);
      if !alive { return Some(Died), ms; }
      if w.clients[c].listen.Reading? { return Some(NoTarget), ms; }
      ghost var i, before, between := |acts|, ms, did(Reader(c));
      out, more := StoreRow(c, chances);
      ms := before + more;
      InARow(start, between, did(Reader(c)), before, more);
      ghost var chat := old(w.clients[c].listen.chat);
      if out.None? {
        ThenStored(before, more, c, chances, chat, w.clients[c].listen.row);
      } else if !out.value.Died? {
        ThenRefused(before, more, c, chances, chat, out.value);
      }
      UserKept(i, chat.to);
    }

    method FindTarget(c: nat, chances: Chances) returns (alive: bool, ghost ms: seq<Move>)
      requires Valid() && c < |w.clients| && w.clients[c].listen.FindUser?
      modifies this`w, this`tr, this`acts, this`did, this`pause
      ensures Valid() && old(tr) <= tr && did(Reader(c)) == old(did)(Reader(c)) + ms
      ensures SameClient(old(w), c, w) && (alive <==> Awake(w, c))
      ensures alive ==>
                var chat, pc := old(w.clients[c].listen.chat), w.clients[c].listen;
                && Follows(ms, Storing(c, chances)[..1])
                && FindTaken(ms[0], c, chances, chat, !pc.Reading?)
                && (!pc.Reading? ==> pc == Resolve(chat, chat.to) && chat.to in w.db.users)
    {
      alive, ms := Next(c, DoFindUser(chances.userFaults));
    }

    /** The conversation and the row. */
    method StoreRow(c: nat, chances: Chances) returns (out: Option<Outcome>, ghost ms: seq<Move>)
      requires Valid() && c < |w.clients| && w.clients[c].listen.Resolve?
      modifies this`w, this`tr, this`acts, this`did, this`pause
      ensures Valid() && old(tr) <= tr && did(Reader(c)) == old(did)(Reader(c)) + ms
      ensures SameClient(old(w), c, w) && (out == Some(Died) <==> !Awake(w, c))
      ensures out.Some? && !out.value.Died? ==>
                && w.clients[c].listen.Reading? && (out.value.NoConversation? || out.value.NotStored?)
                && Follows(ms, if out.value.NoConversation? then Storing(c, chances)[1..2]
                               else Storing(c, chances)[1..])
                && RowRefused(ms, 0, c, chances, old(w.clients[c].listen.chat), out.value)
      ensures out.None? ==>
                var pc := w.clients[c].listen;
                && pc.Publish? && pc.chat == old(w.clients[c].listen.chat)
                && pc.row in w.db.msgs && pc.row.clientId == pc.chat.clientId
                && Follows(ms, Storing(c, chances)[1..]) && RowStored(ms, 0, c, chances, pc.chat, pc.row)
    {
      ghost var more, start := [], did(Reader(c));
      var alive;
      alive, ms := FindConversation(c, chances);
      if !alive { return Some(Died), ms; }
      if w.clients[c].listen.Reading? { return Some(NoConversation), ms; }
      ghost var before, between := ms, did(Reader(c));
      alive, more := Insert(c, chances);
      ms := before + more;
      InARow(start, between, did(Reader(c)), before, more);
      if !alive { return Some(Died), ms; }
      if w.clients[c].listen.Reading? { return Some(NotStored), ms; }
      out := None;
    }

    method FindConversation(c: nat, chances: Chances) returns (alive: bool, ghost ms: seq<Move>)
      requires Valid() && c < |w.clients| && w.clients[c].listen.Resolve?
      modifies this`w, this`tr, this`acts, this`did, this`pause
      ensures Valid() && old(tr) <= tr && did(Reader(c)) == old(did)(Reader(c)) + ms
      ensures SameClient(old(w), c, w) && (alive <==> Awake(w, c))
      ensures alive ==>
                var pc := w.clients[c].listen;
                && Follows(ms, [Listen(c, DoResolve(chances.convFaults))])
                && ResolveTaken(ms[0], c, chances, !pc.Reading?)
                && (!pc.Reading? ==> pc.Persist? && pc.chat == old(w.clients[c].listen.chat))
    {
      alive, ms := Next(c, DoResolve(chances.convFaults));
    }

    method Insert(c: nat, chances: Chances) returns (alive: bool, ghost ms: seq<Move>)
      requires Valid() && c < |w.clients| && w.clients[c].listen.Persist?
      modifies this`w, this`tr, this`acts, this`did, this`pause
      ensures Valid() && old(tr) <= tr && did(Reader(c)) == old(did)(Reader(c)) + ms
      ensures SameClient(old(w), c, w) && (alive <==> Awake(w, c))
      ensures alive ==>
                var chat, pc := old(w.clients[c].listen.chat), w.clients[c].listen;
                && Follows(ms, [Listen(c, DoPersist(chances.insertFault))])
                && (pc.Reading? || pc.Publish?)
                && PersistTaken(ms[0], c, chances, chat, if pc.Publish? then Some(pc.row) else None)
                && (pc.Publish? ==> pc.chat == chat && pc.row in w.db.msgs && pc.row.clientId == chat.clientId)
    {
      alive, ms := Next(c, DoPersist(chances.insertFault));
    }

    /** From the stored row to the lookup: hand the summary over, move the own cursor. */
    method AnnounceChat(c: nat, chances: Chances) returns (alive: bool, ghost ms: seq<Move>)
      requires Valid() && c < |w.clients| && w.clients[c].listen.Publish?
      modifies this`w, this`tr, this`acts, this`did, this`pause
      ensures Valid() && old(tr) <= tr && did(Reader(c)) == old(did)(Reader(c)) + ms
      ensures SameClient(old(w), c, w) && (alive <==> Awake(w, c))
      ensures alive ==>
                var pc, u := old(w.clients[c].listen), w.clients[c].user;
                && w.clients[c].listen == FindLocal(pc.chat, ChatFrameOf(u, pc.chat, pc.conv, pc.row))
                && MqMessage(pc.conv, pc.row) in w.handed
                && (chances.markOk ==>
                      Cursor(pc.conv, u, pc.row.id) in w.cursors && ReadUpTo(w.db, pc.conv, u, pc.row.id))
                && Follows(ms, Announcing(c, chances))
    {
      ghost var more, pc, start := [], w.clients[c].listen, did(Reader(c));
      alive, ms := Next(c, DoPublish(chances.direct, chances.summaryOk));
      if !alive { return; }
      ghost var i, before, between := |acts|, ms, did(Reader(c));
      alive, more := Next(c, DoMarkOwn(chances.markOk));
      ms := before + more;
      InARow(start, between, did(Reader(c)), before, more);
      if !alive { return; }
      HandedKept(i, MqMessage(pc.conv, pc.row));
    }

    /** The local push: the client may have closed its channel since the lookup. */
    method PushChat(c: nat) returns (route: Option<Route>, ghost ms: seq<Move>)
      requires Valid() && c < |w.clients| && w.clients[c].listen.Push?
      modifies this`w, this`tr, this`acts, this`did, this`pause
      ensures Valid() && old(tr) <= tr && did(Reader(c)) == old(did)(Reader(c)) + ms
      ensures SameClient(old(w), c, w) && (route.None? <==> !Awake(w, c))
      ensures route.Some? ==>
                var pc := old(w.clients[c].listen);
                && w.clients[c].listen.Reading?
                && (route == Some(Local(pc.client)) || route == Some(ChanFull(pc.client)))
                && pc.client < |w.clients| && w.clients[pc.client].user == pc.chat.to
                && w.clients[pc.client].node == w.clients[c].node
                && pc.payload in w.clients[pc.client].offered
                && (route.value.Local? ==> pc.payload in w.clients[pc.client].accepted)
                && Follows(ms, [Listen(c, DoPush)]) && PushTaken(ms[0], c, route.value)
    {
      ms := [];
      var alive := Others(Reader(c));
      if !alive { return None, ms; }
      ghost var i := |acts|;
      Lifecycle.InvHolds(tr, acts, i);
      assert Lifecycle.ClientOk(w, c);
      var t := w.clients[c].listen.client;
      if w.clients[t].closes > 0 {
        ghost var m := Read(c, DoPushClosed);
        return None, [m];
      }
      var room := HasRoom(w, t);
      ghost var m, n, k := Move(w, Listen(c, DoPush), w), |w.clients[t].offered|, |w.clients[t].accepted|;
      m := Read(c, DoPush);
      ms := [m];
      OnwardAlong(tr, acts, i, |acts|);
      assert w.clients[t].offered[n] == m.from.clients[c].listen.payload;
      assert room ==> w.clients[t].accepted[k] == m.from.clients[c].listen.payload;
      route := Some(if room then Local(t) else ChanFull(t));
    }

    method LookLocally(c: nat) returns (alive: bool, ghost ms: seq<Move>)
      requires Valid() && c < |w.clients| && w.clients[c].listen.FindLocal?
      modifies this`w, this`tr, this`acts, this`did, this`pause
      ensures Valid() && old(tr) <= tr && did(Reader(c)) == old(did)(Reader(c)) + ms
      ensures SameClient(old(w), c, w) && (alive <==> Awake(w, c))
      ensures alive ==>
                var pc, pc' := old(w.clients[c].listen), w.clients[c].listen;
                && Follows(ms, [Listen(c, DoFindLocal)])
                && (pc' == FindNode(pc.chat, pc.payload) || (pc'.Push? && pc' == Push(pc.chat, pc.payload, pc'.client)))
    {
      alive, ms := Next(c, DoFindLocal);
    }

    /** The Redis path: offline, on this node without a connection, or forwarded. */
    method ForwardChat(c: nat, chances: Chances) returns (route: Option<Route>, ghost ms: seq<Move>)
      requires Valid() && c < |w.clients| && w.clients[c].listen.FindNode?
      modifies this`w, this`tr, this`acts, this`did, this`pause
      ensures Valid() && old(tr) <= tr && did(Reader(c)) == old(did)(Reader(c)) + ms
      ensures SameClient(old(w), c, w) && (route.None? <==> !Awake(w, c))
      ensures route.Some? ==>
                && w.clients[c].listen.Reading? && !Pushed(route.value)
                && RouteTaken(ms, c, chances, route.value) && Follows(ms, RouteText(c, chances, route.value))
      ensures route.Some? && route.value.CrossInstance? ==>
                var pc := old(w.clients[c].listen);
                ForwardMsg(pc.chat.to, route.value.node, pc.payload) in w.forwards
    {
      ghost var more, start := [], did(Reader(c));
      var alive;
      alive, route, ms := AskNode(c, chances);
      if !alive || route.Some? { return; }
      ghost var first, between := ms, did(Reader(c));
      route, more := PublishForward(c, chances);
      ms := first + more;
      InARow(start, between, did(Reader(c)), first, more);
      if route.Some? { ForwardSteps(first, more, c, chances, route.value); }
    }

    /** Redis is asked for the node of the target; a route is an answer that ends the handler. */
    method AskNode(c: nat, chances: Chances) returns (alive: bool, route: Option<Route>, ghost ms: seq<Move>)
      requires Valid() && c < |w.clients| && w.clients[c].listen.FindNode?
      modifies this`w, this`tr, this`acts, this`did, this`pause
      ensures Valid() && old(tr) <= tr && did(Reader(c)) == old(did)(Reader(c)) + ms
      ensures SameClient(old(w), c, w) && (alive <==> Awake(w, c)) && (route.Some? ==> alive)
      ensures alive ==> |ms| == 1 && ms[0].act == Looking(c, chances)
      ensures route.Some? ==> w.clients[c].listen.Reading? && AnswerTaken(ms[0], c, chances, route.value)
      ensures alive && route.None? ==>
                var pc, pc', look := old(w.clients[c].listen), w.clients[c].listen, ms[0].from;
                && pc'.Forward? && pc' == Forward(pc.chat, pc.payload, pc'.node)
                && Awake(look, c) && look.clients[c].listen.FindNode?
                && ForwardsTo(look, c, chances.lookupOk) == Some(pc'.node)
    {
      var chat := w.clients[c].listen.chat;
      route := None;
      alive, ms := Next(c, DoFindNode(chances.lookupOk));
      if alive && w.clients[c].listen.Reading? {
        route := Some(if !chances.lookupOk then LookupFailed
                      else if PresenceOf(w, chat.to).None? then Offline else GhostOnline);
      }
    }

    method PublishForward(c: nat, chances: Chances) returns (route: Option<Route>, ghost ms: seq<Move>)
      requires Valid() && c < |w.clients| && w.clients[c].listen.Forward?
      modifies this`w, this`tr, this`acts, this`did, this`pause
      ensures Valid() && old(tr) <= tr && did(Reader(c)) == old(did)(Reader(c)) + ms
      ensures SameClient(old(w), c, w) && (route.None? <==> !Awake(w, c))
      ensures route.Some? ==>
                var pc := old(w.clients[c].listen);
                && w.clients[c].listen.Reading?
                && route.value == (if chances.forwardOk then CrossInstance(pc.node) else ForwardFailed(pc.node))
                && (chances.forwardOk ==> ForwardMsg(pc.chat.to, pc.node, pc.payload) in w.forwards)
                && Follows(ms, [Forwarding(c, chances)]) && Tallied(ms[0].from, c, route.value, ms[0].to)
    {
      var alive, node := true, w.clients[c].listen.node;
      alive, ms := Next(c, DoForward(chances.forwardOk, chances.forwardOk || chances.reached));
      if !alive { return None, ms; }
      route := Some(if chances.forwardOk then CrossInstance(node) else ForwardFailed(node));
    }

    /** The lookup in the local registry decides between the two. */
    method RouteChat(c: nat, chances: Chances) returns (route: Option<Route>, ghost ms: seq<Move>)
      requires Valid() && c < |w.clients| && w.clients[c].listen.FindLocal?
      modifies this`w, this`tr, this`acts, this`did, this`pause
      ensures Valid() && old(tr) <= tr && did(Reader(c)) == old(did)(Reader(c)) + ms
      ensures SameClient(old(w), c, w) && (route.None? <==> !Awake(w, c))
      ensures route.Some? ==>
                w.clients[c].listen.Reading?
                && Routed(w, c, old(w.clients[c].listen.chat), old(w.clients[c].listen.payload), route.value)
      ensures route.Some? ==>
                Follows(ms, [Listen(c, DoFindLocal)] + RouteText(c, chances, route.value))
                && RouteTaken(ms, c, chances, route.value)
    {
      ghost var more, start := [], did(Reader(c));
      var alive;
      alive, ms := LookLocally(c);
      if !alive { return None, ms; }
      ghost var before, between := ms, did(Reader(c));
      if w.clients[c].listen.Push? {
        route, more := PushChat(c);
      } else {
        route, more := ForwardChat(c, chances);
      }
      ms := before + more;
      InARow(start, between, did(Reader(c)), before, more);
      if route.Some? { RouteSteps(before, more, c, chances, route.value); }
    }

    method HandleChatMsg(c: nat, chances: Chances) returns (out: Outcome, ghost ms: seq<Move>)
      requires Valid() && c < |w.clients| && w.clients[c].listen.FindUser?
      modifies this`w, this`tr, this`acts, this`did, this`pause
      ensures Valid() && old(tr) <= tr && did(Reader(c)) == old(did)(Reader(c)) + ms
      ensures SameClient(old(w), c, w) && (out.Died? <==> !Awake(w, c))
      ensures !out.Died? ==> w.clients[c].listen.Reading? && Follows(ms, ChatText(c, chances, out))
      ensures Delivered(w, c, old(w.clients[c].listen.chat), chances, out)
      ensures StoreTaken(ms, 0, c, chances, old(w.clients[c].listen.chat), out)
      ensures out.Handled? ==> RouteTaken(ms, c, chances, out.route)
    {
      ghost var more, start := [], did(Reader(c));
      var stop, route;
      stop, ms := StoreChat(c, chances);
      if stop.Some? { return stop.value, ms; }
      ghost var i, before, between := |acts|, ms, did(Reader(c));
      var conv, row := w.clients[c].listen.conv, w.clients[c].listen.row;
      route, more := PassOn(c, chances);
      ms := before + more;
      InARow(start, between, did(Reader(c)), before, more);
      if route.None? { return Died, ms; }
      ChatFollows(before, more, c, chances, conv, row, route.value);
      StoredFirst(before, more, c, chances, old(w.clients[c].listen.chat), conv, row, route.value);
      RowKept(i, row);
      UserKept(i, old(w.clients[c].listen.chat.to));
      out := Handled(conv, row, route.value);
    }

    /** From the stored row to the end of the handler. */
    method PassOn(c: nat, chances: Chances) returns (route: Option<Route>, ghost ms: seq<Move>)
      requires Valid() && c < |w.clients| && w.clients[c].listen.Publish?
      modifies this`w, this`tr, this`acts, this`did, this`pause
      ensures Valid() && old(tr) <= tr && did(Reader(c)) == old(did)(Reader(c)) + ms
      ensures SameClient(old(w), c, w) && (route.None? <==> !Awake(w, c))
      ensures route.Some? ==>
                var pc, u := old(w.clients[c].listen), w.clients[c].user;
                && w.clients[c].listen.Reading?
                && MqMessage(pc.conv, pc.row) in w.handed
                && (chances.markOk ==> Cursor(pc.conv, u, pc.row.id) in w.cursors)
                && Routed(w, c, pc.chat, ChatFrameOf(u, pc.chat, pc.conv, pc.row), route.value)
                && Follows(ms, Announcing(c, chances) + [Listen(c, DoFindLocal)] + RouteText(c, chances, route.value))
                && RouteTaken(ms, c, chances, route.value)
    {
      ghost var more, pc, start := [], w.clients[c].listen, did(Reader(c));
      var alive;
      alive, ms := AnnounceChat(c, chances);
      if !alive { return None, ms; }
      ghost var i, before, between := |acts|, ms, did(Reader(c));
      route, more := RouteChat(c, chances);
      ms := before + more;
      InARow(start, between, did(Reader(c)), before, more);
      if route.None? { return; }
      FollowsBoth(before, Announcing(c, chances), more, [Listen(c, DoFindLocal)] + RouteText(c, chances, route.value));
      TakenIn(before, more, c, chances, route.value);
      HandedKept(i, MqMessage(pc.conv, pc.row));
      if chances.markOk { CursorKept(i, Cursor(pc.conv, w.clients[c].user, pc.row.id)); }
    }

    method HandleACKMsg(c: nat, ok: bool) returns (alive: bool, ghost ms: seq<Move>)
      requires Valid() && c < |w.clients| && w.clients[c].listen.Acking?
      modifies this`w, this`tr, this`acts, this`did, this`pause
      ensures Valid() && old(tr) <= tr && did(Reader(c)) == old(did)(Reader(c)) + ms
      ensures SameClient(old(w), c, w) && (alive <==> Awake(w, c))
      ensures alive ==> w.clients[c].listen.Reading? && Follows(ms, [Listen(c, DoAck(ok))])
      ensures alive && ok ==> var pc, u := old(w.clients[c].listen), w.clients[c].user;
                Cursor(pc.conv, u, pc.msgId) in w.cursors && ReadUpTo(w.db, pc.conv, u, pc.msgId)
    {
      alive, ms := Next(c, DoAck(ok));
    }

    // ----------------------------------------------------- Register, Unregister

    method Register(c: nat, setOk: bool) returns (alive: bool, ghost ms: seq<Move>)
      requires Valid() && c < |w.clients| && w.clients[c].pc.Upgraded?
      modifies this`w, this`tr, this`acts, this`did, this`pause
      ensures Valid() && old(tr) <= tr && did(Writer(c)) == old(did)(Writer(c)) + ms
      ensures SameClient(old(w), c, w) && (alive <==> Awake(w, c))
      ensures alive ==>
                w.clients[c].pc.Counted? && w.clients[c].broken == old(w.clients[c]).broken
                && RegisterDone(ms, c, setOk)
    {
      ghost var first, more, start := [], [], did(Writer(c));
      alive, first := NextToRegister(c, RegisterMap);
      ms := first;
      if !alive { return; }
      ghost var between := did(Writer(c));
      alive, more := AnnounceAndCount(c, setOk);
      ms := first + more;
      InARow(start, between, did(Writer(c)), first, more);
    }

    method AnnounceAndCount(c: nat, setOk: bool) returns (alive: bool, ghost ms: seq<Move>)
      requires Valid() && c < |w.clients| && w.clients[c].pc.Mapped?
      modifies this`w, this`tr, this`acts, this`did, this`pause
      ensures Valid() && old(tr) <= tr && did(Writer(c)) == old(did)(Writer(c)) + ms
      ensures SameClient(old(w), c, w) && (alive <==> Awake(w, c))
      ensures alive ==>
                && w.clients[c].pc.Counted? && w.clients[c].broken == old(w.clients[c]).broken
                && Follows(ms, [Conn(c, RegisterPresence(setOk)), Conn(c, RegisterGauge)])
                && SetKey(ms[0].from, c, setOk, ms[0].to) && CountedUp(ms[1].from, c, ms[1].to)
    {
      ghost var first, more, start := [], [], did(Writer(c));
      alive, first := NextToRegister(c, RegisterPresence(setOk));
      ms := first;
      if !alive { return; }
      ghost var between := did(Writer(c));
      alive, more := NextToRegister(c, RegisterGauge);
      ms := first + more;
      InARow(start, between, did(Writer(c)), first, more);
    }

    /** A pause, then the next statement of `WsConnect`. */
    method NextToRegister(c: nat, e: ConnectAct) returns (alive: bool, ghost ms: seq<Move>)
      requires Valid() && c < |w.clients| && ReadyToRegister(w.clients[c].pc, e)
      modifies this`w, this`tr, this`acts, this`did, this`pause
      ensures Valid() && old(tr) <= tr && did(Writer(c)) == old(did)(Writer(c)) + ms
      ensures SameClient(old(w), c, w) && (alive <==> Awake(w, c))
      ensures if alive then Performed(ms, c, e, w) && w.clients[c].broken == old(w.clients[c]).broken else ms == []
    {
      ms := [];
      alive := Others(Writer(c));
      if alive {
        ghost var m := Write(c, e);
        ms := [m];
      }
    }

    /** Runs in the deferred teardown of its connection or as a kick of its own. The
        connection is registered nowhere afterwards, and never will be again. */
    method Unregister(self: Self, k: nat, delOk: bool) returns (alive: bool, ghost ms: seq<Move>)
      requires Valid() && Exists(w, self) && k < |w.unregs| && w.unregs[k].pc.Checking?
      requires self == Unregistering(k) || (self.Reader? && w.clients[self.client].listen == Leaving(k))
      modifies this`w, this`tr, this`acts, this`did, this`pause
      ensures Valid() && old(tr) <= tr && did(Unregistering(k)) == old(did)(Unregistering(k)) + ms
      ensures k < |w.unregs| && (alive <==> Up(w, w.unregs[k].node))
      ensures alive ==> w.unregs[k].pc.Gone? && UnregisterDone(ms, k, delOk) && Slots.Out(w, w.unregs[k].client)
      ensures w.unregs[k].(pc := Gone) == old(w.unregs[k]).(pc := Gone)
      ensures self.Reader? ==>
                SameClient(old(w), self.client, w) && w.clients[self.client].listen == Leaving(k)
                && did(self) == old(did)(self)
    {
      ghost var more;
      alive, ms := CheckSlot(self, k);
      if !alive || w.unregs[k].pc.Gone? { return; }
      ghost var i, first := |acts|, ms;
      alive, more := GiveUpPresence(self, k, delOk);
      ms := first + more;
      assert ms[1..] == more;
      OnwardAlong(tr, acts, i, |acts|);
    }

    /** The locked region. */
    method CheckSlot(self: Self, k: nat) returns (alive: bool, ghost ms: seq<Move>)
      requires Valid() && Exists(w, self) && k < |w.unregs| && w.unregs[k].pc.Checking?
      requires self == Unregistering(k) || (self.Reader? && w.clients[self.client].listen == Leaving(k))
      modifies this`w, this`tr, this`acts, this`did, this`pause
      ensures Valid() && old(tr) <= tr && did(Unregistering(k)) == old(did)(Unregistering(k)) + ms
      ensures k < |w.unregs| && (alive <==> Up(w, w.unregs[k].node))
      ensures w.unregs[k].(pc := Gone) == old(w.unregs[k]).(pc := Gone)
      ensures alive ==> |ms| == 1 && ms[0].act == UnregCheck(k) && CheckEffect(ms[0].from, k, ms[0].to) && ms[0].to == w
      ensures Exists(w, self)
      ensures self.Reader? ==>
                SameClient(old(w), self.client, w) && w.clients[self.client].listen == Leaving(k)
                && did(self) == old(did)(self)
    {
      ms := [];
      alive := Others(self);
      if !Up(w, w.unregs[k].node) { return false, ms; }
      Lifecycle.InvHolds(tr, acts, |acts|);
      CheckHasEffect(w, k);
      UnregKeepsReaders(w, k, UnregCheck(k));
      ms := [Move(w, UnregCheck(k), UnregCheckStep(w, k))];
      Do(UnregCheck(k));
      alive := true;
    }

    /** After the locked region of the connection that held the slot. */
    method GiveUpPresence(self: Self, k: nat, delOk: bool) returns (alive: bool, ghost ms: seq<Move>)
      requires Valid() && Exists(w, self) && k < |w.unregs| && w.unregs[k].pc.Deleting?
      requires self == Unregistering(k) || (self.Reader? && w.clients[self.client].listen == Leaving(k))
      modifies this`w, this`tr, this`acts, this`did, this`pause
      ensures Valid() && old(tr) <= tr && did(Unregistering(k)) == old(did)(Unregistering(k)) + ms
      ensures k < |w.unregs| && (alive <==> Up(w, w.unregs[k].node))
      ensures alive ==> w.unregs[k].pc.Gone? && ReleaseDone(ms, k, delOk)
      ensures w.unregs[k].(pc := Gone) == old(w.unregs[k]).(pc := Gone)
      ensures self.Reader? ==>
                SameClient(old(w), self.client, w) && w.clients[self.client].listen == Leaving(k)
                && did(self) == old(did)(self)
    {
      ghost var more;
      alive, ms := NextRelease(self, k, UnregDelete(k, delOk));
      if !alive { return; }
      alive, more := NextRelease(self, k, UnregDecrement(k));
      ms := ms + more;
    }

    /** A pause, then one of the two statements after the locked region. */
    method NextRelease(self: Self, k: nat, a: Action) returns (alive: bool, ghost ms: seq<Move>)
      requires Valid() && Exists(w, self) && k < |w.unregs|
      requires self == Unregistering(k) || (self.Reader? && w.clients[self.client].listen == Leaving(k))
      requires if a.UnregDelete? then a.unreg == k && w.unregs[k].pc.Deleting?
               else a == UnregDecrement(k) && w.unregs[k].pc.Decrementing?
      modifies this`w, this`tr, this`acts, this`did, this`pause
      ensures Valid() && old(tr) <= tr && did(Unregistering(k)) == old(did)(Unregistering(k)) + ms
      ensures k < |w.unregs| && (alive <==> Up(w, w.unregs[k].node))
      ensures w.unregs[k].(pc := Gone) == old(w.unregs[k]).(pc := Gone)
      ensures alive ==> |ms| == 1 && ms[0].act == a && ms[0].to == w
      ensures alive && a.UnregDelete? ==> DeletedKey(ms[0].from, k, a.ok, w) && w.unregs[k].pc.Decrementing?
      ensures alive && a.UnregDecrement? ==> CountedDown(ms[0].from, k, w) && w.unregs[k].pc.Gone?
      ensures Exists(w, self)
      ensures self.Reader? ==>
                SameClient(old(w), self.client, w) && w.clients[self.client].listen == Leaving(k)
                && did(self) == old(did)(self)
    {
      ms := [];
      alive := Others(self);
      alive := Up(w, w.unregs[k].node);
      if alive {
        ghost var m := Release(k, a);
        ms := [m];
      }
    }

    /** One of the two statements after the locked region. */
    method Release(k: nat, a: Action) returns (ghost m: Move)
      requires Valid() && Enabled(w, a) && (a == UnregDecrement(k) || (a.UnregDelete? && a.unreg == k))
      modifies this`w, this`tr, this`acts, this`did
      ensures Valid() && tr == old(tr) + [w] && m == Move(old(w), a, w) && w.clients == old(w).clients
      ensures forall g :: did(g) == if OwnedBy(a, g) then old(did)(g) + [m] else old(did)(g)
      ensures k < |w.unregs| && Up(w, w.unregs[k].node) && w.unregs[k].(pc := Gone) == old(w.unregs[k]).(pc := Gone)
      ensures a.UnregDelete? ==> DeletedKey(m.from, k, a.ok, m.to) && w.unregs[k].pc.Decrementing?
      ensures a.UnregDecrement? ==> CountedDown(m.from, k, m.to) && w.unregs[k].pc.Gone?
    {
      ReleaseHasEffect(w, k, a.UnregDelete? && a.ok);
      UnregKeepsReaders(w, k, a);
      m := Move(w, a, Step(w, a));
      Do(a);
    }

    // -------------------------------------------------------------- ListenMsg

    /** One frame or pong, from the read to the next read. */
    method HandleFrame(c: nat, x: Incoming) returns (alive: bool, done: Done, ghost ms: seq<Move>)
      requires Valid() && c < |w.clients| && w.clients[c].listen.Reading?
      modifies this`w, this`tr, this`acts, this`did, this`pause
      ensures Valid() && old(tr) <= tr && did(Reader(c)) == old(did)(Reader(c)) + ms
      ensures SameClient(old(w), c, w) && (alive <==> Awake(w, c))
      ensures alive ==> w.clients[c].listen.Reading? && FrameDone(w, c, x, done) && FrameSteps(ms, c, x, done)
    {
      match x {
        case Heartbeat(ok) =>
          alive, ms := Next(c, Pong(ok));
          done := Renewed;
        case Incoming(ChatFrame(_), _) => alive, done, ms := HandleChat(c, x);
        case Incoming(AckFrame(_, _), _) => alive, ms := HandleACK(c, x); done := Acked;
        case Incoming(OtherFrame, _) =>
          alive, ms := Next(c, Receive(x.frame));
          done := Ignored;
      }
    }

    method HandleChat(c: nat, x: Incoming) returns (alive: bool, done: Done, ghost ms: seq<Move>)
      requires Valid() && c < |w.clients| && w.clients[c].listen.Reading? && x.Incoming? && x.frame.ChatFrame?
      modifies this`w, this`tr, this`acts, this`did, this`pause
      ensures Valid() && old(tr) <= tr && did(Reader(c)) == old(did)(Reader(c)) + ms
      ensures SameClient(old(w), c, w) && (alive <==> Awake(w, c))
      ensures alive ==> w.clients[c].listen.Reading? && FrameDone(w, c, x, done) && FrameSteps(ms, c, x, done)
    {
      ghost var more, start := [], did(Reader(c));
      var out;
      done := Ignored;
      alive, ms := Next(c, Receive(x.frame));
      if !alive { return; }
      ghost var before, between := ms, did(Reader(c));
      out, more := HandleChatMsg(c, x.chances);
      alive, done, ms := !out.Died?, Chatted(out), before + more;
      InARow(start, between, did(Reader(c)), before, more);
      if alive { ChatSteps(before, more, c, x, out); }
    }

    method HandleACK(c: nat, x: Incoming) returns (alive: bool, ghost ms: seq<Move>)
      requires Valid() && c < |w.clients| && w.clients[c].listen.Reading? && x.Incoming? && x.frame.AckFrame?
      modifies this`w, this`tr, this`acts, this`did, this`pause
      ensures Valid() && old(tr) <= tr && did(Reader(c)) == old(did)(Reader(c)) + ms
      ensures SameClient(old(w), c, w) && (alive <==> Awake(w, c))
      ensures alive ==> w.clients[c].listen.Reading? && FrameDone(w, c, x, Acked) && FrameSteps(ms, c, x, Acked)
    {
      ghost var more;
      alive, ms := Next(c, Receive(x.frame));
      if !alive { return; }
      ghost var before := ms;
      alive, more := HandleACKMsg(c, x.chances.markOk);
      ms := before + more;
    }

    /** Handles frames and pongs until the read fails, then tears the connection down. Every
        one was handled in order, by the statements of its kind, and what it led to still
        holds; the connection is in no registry and its channel was closed exactly once. */
    method ListenMsg(c: nat, frames: seq<Incoming>, delOk: bool)
      returns (alive: bool, ghost log: Log, ghost last: seq<Move>)
      requires Valid() && c < |w.clients| && w.clients[c].listen.Reading?
      modifies this`w, this`tr, this`acts, this`did, this`pause
      ensures Valid() && old(tr) <= tr && did(Reader(c)) == old(did)(Reader(c)) + StepsOf(log) + last
      ensures SameClient(old(w), c, w) && (alive <==> Awake(w, c))
      ensures alive ==> Heard(log) == frames && LogDone(w, c, log)
      ensures alive ==> TornDown(w, c) && Follows(last, TeardownText(c)) && Slots.Out(last[1].from, c)
    {
      alive, log, last := ReadLoop(c, frames);
      if !alive { return; }
      ghost var i := |acts|;
      alive, last := Teardown(c, delOk);
      if alive { StillDone(i, c, log); }
    }

    ghost method StillDone(i: nat, c: nat, log: Log)
      requires Valid() && i <= |acts| && c < |tr[i].clients| && LogDone(tr[i], c, log)
      ensures c < |w.clients| && LogDone(w, c, log)
    {
      OnwardAlong(tr, acts, i, |acts|);
      LogDoneStays(tr[i], w, c, log);
    }

    /** The loop itself; `cut` are the steps of a frame during which the process died. */
    method ReadLoop(c: nat, frames: seq<Incoming>) returns (alive: bool, ghost log: Log, ghost cut: seq<Move>)
      requires Valid() && c < |w.clients| && w.clients[c].listen.Reading?
      modifies this`w, this`tr, this`acts, this`did, this`pause
      ensures Valid() && old(tr) <= tr && did(Reader(c)) == old(did)(Reader(c)) + StepsOf(log) + cut
      ensures SameClient(old(w), c, w) && (!alive ==> !Awake(w, c))
      ensures alive ==> w.clients[c].listen.Reading? && Heard(log) == frames && LogDone(w, c, log) && cut == []
    {
      var n := 0;
      ghost var base := did(Reader(c));
      alive, log, cut := true, Opened, [];
      while n < |frames|
        invariant n <= |frames| && alive && cut == [] && Heard(log) == frames[..n]
        invariant Valid() && old(tr) <= tr && did(Reader(c)) == base + StepsOf(log)
        invariant SameClient(old(w), c, w) && w.clients[c].listen.Reading? && LogDone(w, c, log)
      {
        alive, log, cut := ReadOne(c, frames[n], log, base);
        if !alive { return; }
        OneMoreHeard(frames, n);
        n := n + 1;
      }
    }

    /** One frame more; `base` is what the reader had done before the loop. */
    method ReadOne(c: nat, x: Incoming, ghost log: Log, ghost base: seq<Move>)
      returns (alive: bool, ghost log': Log, ghost cut: seq<Move>)
      requires Valid() && c < |w.clients| && w.clients[c].listen.Reading? && LogDone(w, c, log)
      requires did(Reader(c)) == base + StepsOf(log)
      modifies this`w, this`tr, this`acts, this`did, this`pause
      ensures Valid() && old(tr) <= tr && did(Reader(c)) == base + StepsOf(log') + cut
      ensures SameClient(old(w), c, w) && (alive <==> Awake(w, c))
      ensures alive ==>
                w.clients[c].listen.Reading? && LogDone(w, c, log') && cut == [] && Heard(log') == Heard(log) + [x]
    {
      ghost var i, d, ms := |acts|, Ignored, [];
      alive, d, ms := HandleFrame(c, x);
      log', cut := log, ms;
      if alive {
        StillDone(i, c, log);
        StepsThen(base, log, x, d, ms);
        log', cut := Then(log, x, d, ms), [];
      }
    }

    /** The deferred function: out of the registry first, then the socket, then `Send`. */
    method Teardown(c: nat, delOk: bool) returns (alive: bool, ghost ms: seq<Move>)
      requires Valid() && c < |w.clients| && w.clients[c].listen.Reading?
      modifies this`w, this`tr, this`acts, this`did, this`pause
      ensures Valid() && old(tr) <= tr && did(Reader(c)) == old(did)(Reader(c)) + ms
      ensures SameClient(old(w), c, w) && (alive <==> Awake(w, c))
      ensures alive ==> TornDown(w, c) && Follows(ms, TeardownText(c)) && Slots.Out(ms[1].from, c)
    {
      ghost var more, start := [], did(Reader(c));
      alive, ms := LeaveRegistry(c, delOk);
      if !alive { return; }
      ghost var first, between := ms, did(Reader(c));
      alive, more := CloseDown(c);
      ms := first + more;
      InARow(start, between, did(Reader(c)), first, more);
    }

    /** The read fails and the connection unregisters itself. */
    method LeaveRegistry(c: nat, delOk: bool) returns (alive: bool, ghost ms: seq<Move>)
      requires Valid() && c < |w.clients| && w.clients[c].listen.Reading?
      modifies this`w, this`tr, this`acts, this`did, this`pause
      ensures Valid() && old(tr) <= tr && did(Reader(c)) == old(did)(Reader(c)) + ms
      ensures SameClient(old(w), c, w) && (alive <==> Awake(w, c))
      ensures alive ==> ListenEnabled(w, c, CloseConn) && Follows(ms, [Listen(c, ReadFails)]) && Slots.Out(w, c)
    {
      alive, ms := Next(c, ReadFails);
      if !alive { return; }
      OwnUnregister(c);
      ghost var more;
      alive, more := Unregister(Reader(c), w.clients[c].listen.unreg, delOk);
    }

    ghost method OwnUnregister(c: nat)
      requires Valid() && c < |w.clients| && w.clients[c].listen.Leaving?
      ensures var k := w.clients[c].listen.unreg;
              k < |w.unregs| && w.unregs[k].client == c && w.unregs[k].node == w.clients[c].node
    {
      Lifecycle.InvHolds(tr, acts, |acts|);
      assert Lifecycle.ClientOk(w, c) && Lifecycle.UnregOk(w, w.unregs[w.clients[c].listen.unreg]);
    }

    // What the run had once, it still has.

    ghost method UserKept(i: nat, u: nat)
      requires Valid() && i < |tr| && u in tr[i].db.users
      ensures u in w.db.users
    {
      OnwardAlong(tr, acts, i, |acts|);
    }

    ghost method RowKept(i: nat, row: Message)
      requires Valid() && i < |tr| && row in tr[i].db.msgs
      ensures row in w.db.msgs
    {
      OnwardAlong(tr, acts, i, |acts|);
      RowStays(tr[i], w, row);
    }

    ghost method HandedKept(i: nat, x: MqMessage)
      requires Valid() && i < |tr| && x in tr[i].handed
      ensures x in w.handed
    {
      OnwardAlong(tr, acts, i, |acts|);
      HandedStays(tr[i], w, x);
    }

    ghost method CursorKept(i: nat, a: Cursor)
      requires Valid() && i < |tr| && a in tr[i].cursors
      ensures a in w.cursors
    {
      OnwardAlong(tr, acts, i, |acts|);
    }

    ghost method Ended(c: nat)
      requires Valid() && c < |w.clients| && w.clients[c].listen.Finished?
      ensures TornDown(w, c)
    {
      Lifecycle.InvHolds(tr, acts, |acts|);
      FinishedIsOut(w, c);
    }

    method CloseSocket(c: nat) returns (ghost ms: seq<Move>)
      requires Valid() && ListenEnabled(w, c, CloseConn)
      modifies this`w, this`tr, this`acts, this`did
      ensures Valid() && old(tr) <= tr && did(Reader(c)) == old(did)(Reader(c)) + ms
      ensures SameClient(old(w), c, w) && w.clients[c].listen.Closing?
      ensures Follows(ms, [Listen(c, CloseConn)]) && ms[0].from == old(w)
    {
      ghost var m := Read(c, CloseConn);
      ms := [m];
    }

    /** The connection closes its socket and its channel. */
    method CloseDown(c: nat) returns (alive: bool, ghost ms: seq<Move>)
      requires Valid() && ListenEnabled(w, c, CloseConn)
      modifies this`w, this`tr, this`acts, this`did, this`pause
      ensures Valid() && old(tr) <= tr && did(Reader(c)) == old(did)(Reader(c)) + ms
      ensures SameClient(old(w), c, w) && (alive <==> Awake(w, c))
      ensures |ms| > 0 && ms[0].from == old(w)
      ensures alive ==> TornDown(w, c) && Follows(ms, [Listen(c, CloseConn), Listen(c, CloseSend)])
    {
      ghost var more, start := [], did(Reader(c));
      ghost var first := CloseSocket(c);
      ghost var between := did(Reader(c));
      alive, more := Next(c, CloseSend);
      ms := first + more;
      InARow(start, between, did(Reader(c)), first, more);
      FollowsBoth(first, [Listen(c, CloseConn)], more, if alive then [Listen(c, CloseSend)] else []);
      if alive { Ended(c); }
    }

    // -------------------------------------------------------------- WsConnect

    /** Pushes the backlog until a write fails. Whatever runs meanwhile, the socket has
        then seen in order the whole backlog the query found, or some write failed. */
    method DeliverUnreadMsg(c: nat, queryOk: bool, writeOk: nat -> bool) returns (alive: bool, ghost ms: seq<Move>)
      requires Valid() && c < |w.clients| && w.clients[c].pc.Counted? && !w.clients[c].broken
      modifies this`w, this`tr, this`acts, this`did, this`pause
      ensures Valid() && old(tr) <= tr && did(Writer(c)) == old(did)(Writer(c)) + ms
      ensures SameClient(old(w), c, w) && (alive <==> Awake(w, c))
      ensures alive ==> w.clients[c].pc.Pushing? && Queried(ms, c, queryOk, w.clients[c].backlog)
      ensures alive ==> if w.clients[c].broken then exists i :: 0 <= i < |BacklogOf(w.clients[c])| && !writeOk(i)
                        else w.clients[c].written == BacklogOf(w.clients[c]) && Socket.TellsAll(w.clients[c])
    {
      ghost var more;
      alive, ms := NextToRegister(c, QueryBacklog(queryOk));
      if !alive { return; }
      ghost var backlog := w.clients[c].backlog;
      Socket.PrefixesHold(tr, acts, |acts|);
      assert Socket.SocketOk(w.clients[c]);
      var busy := true;
      while busy
        invariant Valid() && old(tr) <= tr && SameClient(old(w), c, w) && did(Writer(c)) == old(did)(Writer(c)) + ms
        invariant (alive <==> Awake(w, c)) && (alive ==> w.clients[c].pc.Pushing? && w.clients[c].backlog == backlog)
        invariant Queried(ms, c, queryOk, backlog)
        invariant busy ==> alive && w.clients[c].pushed <= |BacklogOf(w.clients[c])|
        invariant alive && !busy ==> w.clients[c].broken || w.clients[c].written == BacklogOf(w.clients[c])
        invariant alive && w.clients[c].broken ==> exists i :: 0 <= i < |BacklogOf(w.clients[c])| && !writeOk(i)
        decreases busy, !w.clients[c].broken, |BacklogOf(w.clients[c])| - w.clients[c].pushed
      {
        alive, busy, more := PushOne(c, writeOk);
        ms := ms + more;
      }
      if alive && !w.clients[c].broken { Socket.InFrontTells(w.clients[c]); }
    }

    /** One row of the backlog, if there is one left and the socket still works. */
    method PushOne(c: nat, writeOk: nat -> bool) returns (alive: bool, busy: bool, ghost ms: seq<Move>)
      requires Valid() && c < |w.clients| && w.clients[c].pc.Pushing?
      modifies this`w, this`tr, this`acts, this`did, this`pause
      ensures Valid() && old(tr) <= tr && did(Writer(c)) == old(did)(Writer(c)) + ms
      ensures SameClient(old(w), c, w) && (alive <==> Awake(w, c)) && (busy ==> alive)
      ensures alive ==> w.clients[c].pc.Pushing? && w.clients[c].backlog == old(w.clients[c]).backlog
      ensures alive && !busy ==> w.clients[c].broken || w.clients[c].written == BacklogOf(w.clients[c])
      ensures alive && w.clients[c].broken && !old(w.clients[c]).broken ==>
                exists i :: 0 <= i < |BacklogOf(w.clients[c])| && !writeOk(i)
      ensures busy ==> w.clients[c].pushed <= |BacklogOf(w.clients[c])|
      ensures busy ==>
                if old(w.clients[c]).pushed < w.clients[c].pushed then old(w.clients[c]).broken ==> w.clients[c].broken
                       else w.clients[c].broken && !old(w.clients[c]).broken
    {
      busy, ms := false, [];
      alive := Others(Writer(c));
      if !alive { return; }
      Socket.PrefixesHold(tr, acts, |acts|);
      assert Socket.SocketOk(w.clients[c]);
      var cl := w.clients[c];
      if cl.broken || cl.pushed == |BacklogOf(cl)| { return; }
      ghost var m := Write(c, WriteBacklog(writeOk(cl.pushed)));
      ms := [m];
      busy := true;
    }

    /** Drains `Send` for `turns` rounds, or until it stops for good. Each round writes one
        frame, or found nothing queued in the state of the run that `idle` records. */
    method DeliverMsg(c: nat, turns: nat, writeOk: nat -> bool)
      returns (alive: bool, took: nat, ghost idle: seq<nat>, ghost ms: seq<Move>)
      requires Valid() && c < |w.clients| && w.clients[c].pc.Delivering?
      modifies this`w, this`tr, this`acts, this`did, this`pause
      ensures Valid() && old(tr) <= tr && did(Writer(c)) == old(did)(Writer(c)) + ms
      ensures SameClient(old(w), c, w) && (alive <==> Awake(w, c))
      ensures alive ==>
                StoppedFor(w.clients[c])
                && w.clients[c].sent + |w.clients[c].dropped| == old(w.clients[c].sent + |w.clients[c].dropped|) + took
      ensures alive && w.clients[c].pc.Delivering? ==> took + |idle| == turns
      ensures forall i :: 0 <= i < |idle| ==> |old(acts)| <= idle[i] < |tr| && IdleAt(tr[idle[i]], c)
      ensures w.clients[c].backlog == old(w.clients[c]).backlog
      ensures var cl := w.clients[c];
              && cl.pushed <= |BacklogOf(cl)| && cl.sent <= |cl.accepted|
              && cl.written == BacklogOf(cl)[..cl.pushed] + cl.accepted[..cl.sent]
    {
      ghost var more;
      var i := 0;
      alive, took, idle, ms := true, 0, [], [];
      Lifecycle.InvHolds(tr, acts, |acts|);
      if !Awake(w, c) { alive := false; }
      while i < turns && alive && w.clients[c].pc.Delivering?
        invariant i <= turns && Valid() && old(tr) <= tr && did(Writer(c)) == old(did)(Writer(c)) + ms
        invariant SameClient(old(w), c, w) && w.clients[c].backlog == old(w.clients[c]).backlog
        invariant (alive <==> Awake(w, c))
        invariant alive ==>
                    StoppedFor(w.clients[c])
                    && w.clients[c].sent + |w.clients[c].dropped| == old(w.clients[c].sent + |w.clients[c].dropped|)
                    + took
        invariant alive && w.clients[c].pc.Delivering? ==> took + |idle| == i
        invariant forall j :: 0 <= j < |idle| ==> |old(acts)| <= idle[j] < |tr| && IdleAt(tr[idle[j]], c)
      {
        ghost var at;
        var wrote;
        alive, wrote, at, more := DeliverOne(c, writeOk(i));
        ms := ms + more;
        if alive && !wrote { idle := idle + [at]; }
        took, i := if wrote then took + 1 else took, i + 1;
      }
      Socket.PrefixesHold(tr, acts, |acts|);
      assert Socket.SocketOk(w.clients[c]);
    }

    /** One round of the writer loop; `at` is when it found nothing queued. */
    method DeliverOne(c: nat, writeOk: bool) returns (alive: bool, wrote: bool, ghost at: nat, ghost ms: seq<Move>)
      requires Valid() && c < |w.clients| && w.clients[c].pc.Delivering?
      modifies this`w, this`tr, this`acts, this`did, this`pause
      ensures Valid() && old(tr) <= tr && did(Writer(c)) == old(did)(Writer(c)) + ms
      ensures SameClient(old(w), c, w) && (alive <==> Awake(w, c))
      ensures alive ==>
                StoppedFor(w.clients[c])
                && w.clients[c].sent + |w.clients[c].dropped| == old(w.clients[c].sent + |w.clients[c].dropped|)
                + if wrote then 1 else 0
      ensures w.clients[c].backlog == old(w.clients[c]).backlog
      ensures alive && !wrote ==> |old(acts)| <= at < |tr| && IdleAt(tr[at], c)
    {
      ghost var m: Move;
      wrote, ms, at := false, [], 0;
      alive := Others(Writer(c));
      if !alive { return; }
      at := |acts|;
      if w.clients[c].send == [] {
        // the loop over the channel blocks, or ends once it is closed
        if w.clients[c].closes > 0 {
          m := Write(c, SendDrained);
          ms := [m];
        }
        return;
      }
      m := Write(c, TakeSend);
      ms := [m];
      alive := Others(Writer(c));
      if !alive { return; }
      m := Write(c, WriteSend(writeOk && !w.clients[c].broken));
      ms := ms + [m];
      wrote := true;
    }

    /** Register, backlog, reader, writer, in this order. */
    method WsConnect(c: nat, setOk: bool, queryOk: bool, turns: nat, writeOk: nat -> bool)
      returns (alive: bool, ghost ms: seq<Move>)
      requires Valid() && c < |w.clients| && w.clients[c].pc.Upgraded? && !w.clients[c].broken
      modifies this`w, this`tr, this`acts, this`did, this`pause
      ensures Valid() && old(tr) <= tr && did(Writer(c)) == old(did)(Writer(c)) + ms
      ensures SameClient(old(w), c, w) && (alive <==> Awake(w, c))
      ensures alive ==>
                |ms| > 4 && RegisterDone(ms[..3], c, setOk) && Queried(ms[3..], c, queryOk, w.clients[c].backlog)
      ensures alive ==>
                StoppedFor(w.clients[c]) && (w.clients[c].broken || BacklogOf(w.clients[c]) <= w.clients[c].written)
      ensures alive && !w.clients[c].broken ==> Socket.TellsAll(w.clients[c])
    {
      ghost var more, start := [], did(Writer(c));
      alive, ms := Open(c, setOk, queryOk, writeOk);
      if !alive { return; }
      ghost var before, between := ms, did(Writer(c));
      alive, more := Serve(c, turns, writeOk);
      ms := before + more;
      InARow(start, between, did(Writer(c)), before, more);
      if alive { OpeningStays(before, more, c, setOk, queryOk, w.clients[c].backlog); }
      if alive && !w.clients[c].broken { Socket.InFrontTells(w.clients[c]); }
    }

    /** Registration and backlog. */
    method Open(c: nat, setOk: bool, queryOk: bool, writeOk: nat -> bool) returns (alive: bool, ghost ms: seq<Move>)
      requires Valid() && c < |w.clients| && w.clients[c].pc.Upgraded? && !w.clients[c].broken
      modifies this`w, this`tr, this`acts, this`did, this`pause
      ensures Valid() && old(tr) <= tr && did(Writer(c)) == old(did)(Writer(c)) + ms
      ensures SameClient(old(w), c, w) && (alive <==> Awake(w, c))
      ensures alive ==>
                |ms| > 3 && RegisterDone(ms[..3], c, setOk) && Queried(ms[3..], c, queryOk, w.clients[c].backlog)
      ensures alive ==>
                w.clients[c].pc.Pushing? && (w.clients[c].broken || w.clients[c].written == BacklogOf(w.clients[c]))
    {
      ghost var more, start := [], did(Writer(c));
      alive, ms := Register(c, setOk);
      if !alive { return; }
      ghost var before, between := ms, did(Writer(c));
      alive, more := DeliverUnreadMsg(c, queryOk, writeOk);
      ms := before + more;
      InARow(start, between, did(Writer(c)), before, more);
      assert ms[..|before|] == before && ms[|before|..] == more;
    }

    /** The reader is started, then the writer loop runs. What the socket saw of the
        backlog stays in front. */
    method Serve(c: nat, turns: nat, writeOk: nat -> bool) returns (alive: bool, ghost ms: seq<Move>)
      requires Valid() && Awake(w, c) && w.clients[c].pc.Pushing?
      requires w.clients[c].broken || w.clients[c].written == BacklogOf(w.clients[c])
      modifies this`w, this`tr, this`acts, this`did, this`pause
      ensures Valid() && old(tr) <= tr && did(Writer(c)) == old(did)(Writer(c)) + ms
      ensures SameClient(old(w), c, w) && (alive <==> Awake(w, c)) && w.clients[c].backlog == old(w.clients[c]).backlog
      ensures ms != []
      ensures alive ==>
                StoppedFor(w.clients[c]) && (w.clients[c].broken || BacklogOf(w.clients[c]) <= w.clients[c].written)
    {
      ghost var rest, idle;
      var took;
      PushedAll(c);
      ghost var m := Write(c, StartLoops);
      alive, took, idle, rest := DeliverMsg(c, turns, writeOk);
      ms := [m] + rest;
      InFront(c);
    }

    ghost method PushedAll(c: nat)
      requires Valid() && c < |w.clients| && w.clients[c].pc.Pushing?
      requires w.clients[c].broken || w.clients[c].written == BacklogOf(w.clients[c])
      ensures w.clients[c].broken || w.clients[c].pushed == |BacklogOf(w.clients[c])|
    {
      Socket.PrefixesHold(tr, acts, |acts|);
      assert Socket.SocketOk(w.clients[c]);
    }

    ghost method InFront(c: nat)
      requires Valid() && c < |w.clients|
      ensures !Lifecycle.Starting(w.clients[c].pc) ==>
                w.clients[c].broken || BacklogOf(w.clients[c]) <= w.clients[c].written
    {
      Socket.PrefixesHold(tr, acts, |acts|);
      assert Socket.SocketOk(w.clients[c]);
      if !Lifecycle.Starting(w.clients[c].pc) { Socket.BacklogInFront(w.clients[c]); }
    }

    // ------------------------------------------------------------- subscriber

    /** One record of the channel: a connection of its target registered on the node it
        names is offered the payload; any other record is skipped. It is consumed either
        way, even if the process then dies on a closed channel. */
    method HandlerForwardMsg(n: nat) returns (alive: bool, ghost ms: seq<Move>)
      requires Valid() && SubIdle(w, n)
      modifies this`w, this`tr, this`acts, this`did, this`pause
      ensures Valid() && old(tr) <= tr && did(Subscriber(n)) == old(did)(Subscriber(n)) + ms
      ensures n < |w.nodes| && w.nodes[n].read == old(w.nodes[n].read) + 1
      ensures (alive <==> Up(w, n)) && (alive ==> w.nodes[n].held.None?)
      ensures var f := old(w.forwards[w.nodes[n].read]);
              if f.node == old(w.nodes[n].name) && f.user in old(w.nodes[n].registry) then
                alive ==> Follows(ms, [SubReceive(n), SubPush(n)]) && OfferedTo(w, old(w.nodes[n].registry)[f.user], f)
                          && OfferEffect(ms[1].from, old(w.nodes[n].registry)[f.user], f.payload, ms[1].to)
              else alive && Follows(ms, [SubReceive(n)])
      ensures ms != [] && ReceivedOne(ms[0].from, n, ms[0].to)
    {
      ghost var from, f := |acts|, w.forwards[w.nodes[n].read];
      ghost var m := Move(w, SubReceive(n), SubReceiveStep(w, n));
      Do(SubReceive(n));
      ms := [m];
      if w.nodes[n].held.None? { return true, ms; }
      ghost var more, before := [], ms;
      alive, more := PushForward(n);
      ms := before + more;
      OnwardAlong(tr, acts, from, |acts|);
    }

    /** The record in hand goes to the connection that the lookup found. */
    method PushForward(n: nat) returns (alive: bool, ghost ms: seq<Move>)
      requires Valid() && n < |w.nodes| && w.nodes[n].held.Some?
      modifies this`w, this`tr, this`acts, this`did, this`pause
      ensures Valid() && old(tr) <= tr && did(Subscriber(n)) == old(did)(Subscriber(n)) + ms
      ensures n < |w.nodes| && w.nodes[n].read == old(w.nodes[n]).read && (alive <==> Up(w, n))
      ensures alive ==>
                var h := old(w.nodes[n].held.value);
                && w.nodes[n].held.None? && Follows(ms, [SubPush(n)])
                && h.forward < |w.forwards| && OfferedTo(w, h.client, w.forwards[h.forward])
                && OfferEffect(ms[0].from, h.client, w.forwards[h.forward].payload, ms[0].to)
    {
      ms := [];
      alive := Others(Subscriber(n));
      if !alive { return; }
      Lifecycle.InvHolds(tr, acts, |acts|);
      assert Lifecycle.NodeOk(w, n);
      var h := w.nodes[n].held.value;
      if w.clients[h.client].closes > 0 {
        ms := [Move(w, SubPushClosed(n), Crash(w, n))];
        Do(SubPushClosed(n));
        return false, ms;
      }
      ghost var k := |w.clients[h.client].offered|;
      ms := [Move(w, SubPush(n), SubPushStep(w, n))];
      Do(SubPush(n));
      assert w.clients[h.client].offered[k] == w.forwards[h.forward].payload;
    }
  }

  /** The connection is the addressee's and was offered the payload. */
  predicate OfferedTo(w: World, t: nat, f: ForwardMsg) {
    t < |w.clients| && w.clients[t].user == f.user && f.payload in w.clients[t].offered
  }
}
