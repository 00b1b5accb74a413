/** What a single step can touch. Each invariant of the protocol looks at a few
    fields; these lemmas reduce its preservation to the actions that write them. */
module Frames {
  import opened Store
  import opened Cluster
  import UserCache
  import Conversations

  /** The connection whose goroutine takes the step, or -1. */
  function Mover(a: Action): int {
    match a
    case Conn(c, _) => c
    case Listen(c, _) => c
    case _ => -1
  }

  /** The unregister goroutine that takes the step, or -1. */
  function UnregMover(a: Action): int {
    match a
    case UnregCheck(k) => k
    case UnregDelete(k, _) => k
    case UnregDecrement(k) => k
    case _ => -1
  }

  /** The only thing another goroutine can do to a connection is push a frame: it
      enters `Send` if there is room and changes nothing else otherwise. */
  predicate OnlyOffered(x: Client, y: Client) {
    || y == x
    || (y.offered != [] && Offered(x, y, y.offered[|y.offered| - 1]))
  }

  predicate Offered(x: Client, y: Client, p: Payload) {
    || (|x.send| < SEND_BUFFER_SIZE
        && y == x.(offered := x.offered + [p], send := x.send + [p], accepted := x.accepted + [p]))
    || y == x.(offered := x.offered + [p])
  }

  /** Identities never change: clients, unregister goroutines and published records
      keep their place, no connection registers twice, and no process appears or
      vanishes. */
  ghost predicate Grows(w: World, w': World) {
    && |w'.nodes| == |w.nodes|
    && |w.clients| <= |w'.clients|
    && (forall c :: 0 <= c < |w.clients| ==>
          && w'.clients[c].user == w.clients[c].user && w'.clients[c].node == w.clients[c].node
          && (w'.clients[c].pc.Upgraded? ==> w.clients[c].pc.Upgraded?))
    && |w.unregs| <= |w'.unregs|
    && (forall k :: 0 <= k < |w.unregs| ==> w'.unregs[k].(pc := w.unregs[k].pc) == w.unregs[k])
    && w.forwards <= w'.forwards
    && (forall n :: 0 <= n < |w.nodes| ==> w'.nodes[n].name == w.nodes[n].name && w.nodes[n].read <= w'.nodes[n].read)
  }

  ghost predicate ClientFrame(w: World, w': World, mover: int) {
    && |w.clients| <= |w'.clients|
    && (forall d :: 0 <= d < |w.clients| ==>
          && w.clients[d].offered <= w'.clients[d].offered
          && w.clients[d].accepted <= w'.clients[d].accepted
          && w.clients[d].written <= w'.clients[d].written)
    && (forall d :: 0 <= d < |w.clients| && d != mover ==> OnlyOffered(w.clients[d], w'.clients[d]))
    && (forall d :: |w.clients| <= d < |w'.clients| ==>
          Up(w, w'.clients[d].node) && w'.clients[d] == NewClient(w'.clients[d].user, w'.clients[d].node))
  }

  predicate Pushes(a: Action) {
    a.SubPush? || (a.Listen? && a.listen.DoPush?)
  }

  /** Without a push no other connection changes at all. */
  ghost predicate QuietFrame(w: World, w': World, a: Action) {
    && |w.clients| <= |w'.clients|
    && (!Pushes(a) ==> forall d :: 0 <= d < |w.clients| && d != Mover(a) ==> w'.clients[d] == w.clients[d])
  }

  ghost predicate NodeFrame(w: World, w': World, a: Action)
  {
    && |w'.nodes| == |w.nodes|
    && forall n :: 0 <= n < |w.nodes| ==>
         && (!(a.Conn? && a.conn.RegisterMap?) && !a.UnregCheck? ==> w'.nodes[n].registry == w.nodes[n].registry)
         && (!(a.Conn? && a.conn.RegisterMap?) ==> w'.nodes[n].takeovers == w.nodes[n].takeovers)
         && (!(a.Conn? && a.conn.RegisterGauge?) && !a.UnregDecrement? ==> w'.nodes[n].gauge == w.nodes[n].gauge)
         && (a != SubReceive(n) && a != SubLose(n) ==>
               w'.nodes[n].read == w.nodes[n].read && w'.nodes[n].taken == w.nodes[n].taken)
         && (a != SubReceive(n) && a != SubPush(n) ==> w'.nodes[n].held == w.nodes[n].held)
         && (!a.Listen? && a != SubReceive(n) ==> w'.nodes[n].metrics == w.nodes[n].metrics)
  }

  /** Only a teardown and a refused push start an unregister goroutine. */
  ghost predicate UnregFrame(w: World, w': World, mover: int) {
    && |w.unregs| <= |w'.unregs|
    && (forall k :: 0 <= k < |w.unregs| && k != mover ==> w'.unregs[k] == w.unregs[k])
    && forall k :: |w.unregs| <= k < |w'.unregs| ==>
         && w'.unregs[k].client < |w.clients|
         && w'.unregs[k] ==
              Unreg(w'.unregs[k].client, w.clients[w'.unregs[k].client].user, w.clients[w'.unregs[k].client].node,
                    Checking)
  }

  predicate TouchesDb(a: Action) {
    || (a.Env? && (a.env.SignUp? || a.env.ConsumeUpdate?))
    || (a.Listen?
        && (a.listen.DoResolve? || a.listen.DoPersist? || a.listen.DoPublish? || a.listen.DoMarkOwn?
            || a.listen.DoAck?))
  }

  ghost predicate DataFrame(w: World, w': World, a: Action) {
    && (!TouchesDb(a) ==> w'.db == w.db)
    && (!(a.Listen? && a.listen.DoResolve?) && !(a.Env? && a.env.EvictConv?) ==> w'.convCache == w.convCache)
    && (!(a.Listen? && a.listen.DoFindUser?) && !(a.Env? && a.env.EvictUser?) ==> w'.userCache == w.userCache)
    && (!(a.Listen? && a.listen.DoPublish?) ==> w'.handed == w.handed)
    && (!(a.Listen? && (a.listen.DoMarkOwn? || a.listen.DoAck?)) ==> w'.cursors == w.cursors)
    && (!(a.Listen? && a.listen.Receive?) ==> w'.claims == w.claims)
    && (!(a.Env? && a.env.Tick?) ==> w'.now == w.now)
  }

  ghost predicate Frame(w: World, a: Action, w': World) {
    DataFrame(w, w', a) && QuietFrame(w, w', a) && Grows(w, w') && ClientFrame(w, w', Mover(a)) && NodeFrame(w, w', a)
    && UnregFrame(w, w', UnregMover(a))
  }

  lemma StepFrame(w: World, a: Action)
    requires Enabled(w, a)
    ensures Frame(w, a, Step(w, a))
  {
    match a
    case Env(e) => EnvFrame(w, e);
    case Conn(c, e) => ConnFrame(w, c, e);
    case Listen(c, e) => ListenFrame(w, c, e);
    case UnregCheck(k) => UnregCheckFrame(w, k);
    case UnregDelete(k, ok) => UnregDeleteFrame(w, k, ok);
    case UnregDecrement(k) => UnregDecrementFrame(w, k);
    case SubReceive(n) => SubReceiveFrame(w, n);
    case SubLose(n) => SubLoseFrame(w, n);
    case SubPush(n) => SubPushFrame(w, n);
    case SubPushClosed(n) => CrashFrame(w, a, n);
  }

  lemma ConnFrame(w: World, c: nat, e: ConnectAct)
    requires ConnEnabled(w, c, e)
    ensures Frame(w, Conn(c, e), ConnStep(w, c, e))
  {
    match e
    case RegisterMap => RegisterMapFrame(w, c);
    case RegisterPresence(ok) => RegisterPresenceFrame(w, c, ok);
    case RegisterGauge => RegisterGaugeFrame(w, c);
    case WriteBacklog(ok) => WriteBacklogFrame(w, c, ok);
    case TakeSend => TakeSendFrame(w, c);
    case WriteSend(ok) => WriteSendFrame(w, c, ok);
    case QueryBacklog(ok) => QueryBacklogFrame(w, c, ok);
    case _ => LoopsFrame(w, c, e);
  }

  lemma QueryBacklogFrame(w: World, c: nat, ok: bool)
    requires Awake(w, c)
    ensures Frame(w, Conn(c, QueryBacklog(ok)), QueryBacklogStep(w, c, ok))
  {
  }

  lemma TakeSendFrame(w: World, c: nat)
    requires Awake(w, c) && w.clients[c].send != []
    ensures Frame(w, Conn(c, TakeSend), TakeSendStep(w, c))
  {
  }

  lemma LoopsFrame(w: World, c: nat, e: ConnectAct)
    requires ConnEnabled(w, c, e) && (e.StartLoops? || e.SendDrained?)
    ensures Frame(w, Conn(c, e), ConnStep(w, c, e))
  {
  }

  lemma ListenFrame(w: World, c: nat, e: ListenAct)
    requires ListenEnabled(w, c, e)
    ensures Frame(w, Listen(c, e), ListenStep(w, c, e))
  {
    match e
    case Receive(frame) => ReceiveFrame(w, c, frame);
    case Pong(ok) => PongFrame(w, c, ok);
    case ReadFails => ReadFailsFrame(w, c);
    case DoFindUser(f) => FindUserFrame(w, c, f);
    case DoResolve(f) => ResolveFrame(w, c, f);
    case DoPersist(f) => PersistFrame(w, c, f);
    case DoPublish(direct, ok) => PublishFrame(w, c, direct, ok);
    case DoMarkOwn(ok) => MarkOwnFrame(w, c, ok);
    case DoFindLocal => FindLocalFrame(w, c);
    case DoFindNode(ok) => FindNodeFrame(w, c, ok);
    case DoForward(ok, reached) => ForwardFrame(w, c, ok, reached);
    case DoPush => PushFrame(w, c);
    case DoPushClosed => CrashFrame(w, Listen(c, e), w.clients[c].node);
    case DoAck(ok) => AckFrameHolds(w, c, ok);
    case CloseConn => CloseConnFrame(w, c);
    case CloseSend => CloseSendFrame(w, c);
  }

  lemma EnvFrame(w: World, e: EnvAct)
    requires EnvEnabled(w, e)
    ensures Frame(w, Env(e), EnvStep(w, e))
  {
  }

  lemma RegisterMapFrame(w: World, c: nat)
    requires Awake(w, c)
    ensures Frame(w, Conn(c, RegisterMap), RegisterMapStep(w, c))
  {
  }

  lemma RegisterPresenceFrame(w: World, c: nat, ok: bool)
    requires Awake(w, c)
    ensures Frame(w, Conn(c, RegisterPresence(ok)), RegisterPresenceStep(w, c, ok))
  {
  }

  lemma RegisterGaugeFrame(w: World, c: nat)
    requires Awake(w, c)
    ensures Frame(w, Conn(c, RegisterGauge), RegisterGaugeStep(w, c))
  {
  }

  lemma WriteBacklogFrame(w: World, c: nat, ok: bool)
    requires Awake(w, c) && w.clients[c].pushed < |BacklogOf(w.clients[c])|
    ensures Frame(w, Conn(c, WriteBacklog(ok)), WriteBacklogStep(w, c, ok))
  {
  }

  lemma WriteSendFrame(w: World, c: nat, ok: bool)
    requires Awake(w, c) && w.clients[c].pc.Writing?
    ensures Frame(w, Conn(c, WriteSend(ok)), WriteSendStep(w, c, ok))
  {
  }

  lemma ReceiveFrame(w: World, c: nat, frame: Inbound)
    requires Awake(w, c)
    ensures Frame(w, Listen(c, Receive(frame)), ReceiveStep(w, c, frame))
  {
  }

  lemma PongFrame(w: World, c: nat, ok: bool)
    requires Awake(w, c)
    ensures Frame(w, Listen(c, Pong(ok)), PongStep(w, c, ok))
  {
  }

  lemma ReadFailsFrame(w: World, c: nat)
    requires Awake(w, c)
    ensures Frame(w, Listen(c, ReadFails), ReadFailsStep(w, c))
  {
  }

  lemma FindUserFrame(w: World, c: nat, f: UserCache.Faults)
    requires Awake(w, c) && w.clients[c].listen.FindUser?
    ensures Frame(w, Listen(c, DoFindUser(f)), FindUserStep(w, c, f))
  {
  }

  lemma ResolveFrame(w: World, c: nat, f: Conversations.Faults)
    requires Awake(w, c) && w.clients[c].listen.Resolve?
    ensures Frame(w, Listen(c, DoResolve(f)), ResolveStep(w, c, f))
  {
  }

  lemma PersistFrame(w: World, c: nat, f: InsertFault)
    requires Awake(w, c) && w.clients[c].listen.Persist?
    ensures Frame(w, Listen(c, DoPersist(f)), PersistStep(w, c, f))
  {
  }

  lemma PublishFrame(w: World, c: nat, direct: bool, ok: bool)
    requires Awake(w, c) && w.clients[c].listen.Publish?
    ensures Frame(w, Listen(c, DoPublish(direct, ok)), PublishStep(w, c, direct, ok))
  {
  }

  lemma MarkOwnFrame(w: World, c: nat, ok: bool)
    requires Awake(w, c) && w.clients[c].listen.MarkOwn?
    ensures Frame(w, Listen(c, DoMarkOwn(ok)), MarkOwnStep(w, c, ok))
  {
  }

  lemma FindLocalFrame(w: World, c: nat)
    requires Awake(w, c) && w.clients[c].listen.FindLocal?
    ensures Frame(w, Listen(c, DoFindLocal), FindLocalStep(w, c))
  {
  }

  lemma FindNodeFrame(w: World, c: nat, ok: bool)
    requires Awake(w, c) && w.clients[c].listen.FindNode?
    ensures Frame(w, Listen(c, DoFindNode(ok)), FindNodeStep(w, c, ok))
  {
  }

  lemma ForwardFrame(w: World, c: nat, ok: bool, reached: bool)
    requires Awake(w, c) && w.clients[c].listen.Forward?
    ensures Frame(w, Listen(c, DoForward(ok, reached)), ForwardStep(w, c, ok, reached))
  {
  }

  lemma AckFrameHolds(w: World, c: nat, ok: bool)
    requires Awake(w, c) && w.clients[c].listen.Acking?
    ensures Frame(w, Listen(c, DoAck(ok)), AckStep(w, c, ok))
  {
  }

  lemma CloseConnFrame(w: World, c: nat)
    requires Awake(w, c)
    ensures Frame(w, Listen(c, CloseConn), CloseConnStep(w, c))
  {
  }

  lemma CloseSendFrame(w: World, c: nat)
    requires Awake(w, c)
    ensures Frame(w, Listen(c, CloseSend), CloseSendStep(w, c))
  {
  }

  lemma PushFrame(w: World, c: nat)
    requires Awake(w, c) && w.clients[c].listen.Push? && w.clients[c].listen.client < |w.clients|
    ensures Frame(w, Listen(c, DoPush), PushStep(w, c))
  {
    var w' := PushStep(w, c);
    assert Grows(w, w') && NodeFrame(w, w', Listen(c, DoPush)) && UnregFrame(w, w', -1);
    PushClients(w, c);
  }

  lemma PushClients(w: World, c: nat)
    requires Awake(w, c) && w.clients[c].listen.Push? && w.clients[c].listen.client < |w.clients|
    ensures ClientFrame(w, PushStep(w, c), c)
  {
  }

  lemma CrashFrame(w: World, a: Action, n: nat)
    requires n < |w.nodes|
    ensures Frame(w, a, Crash(w, n))
  {
  }

  lemma UnregCheckFrame(w: World, k: nat)
    requires UnregEnabled(w, k, Checking)
    ensures Frame(w, UnregCheck(k), UnregCheckStep(w, k))
  {
  }

  lemma UnregDeleteFrame(w: World, k: nat, ok: bool)
    requires UnregEnabled(w, k, Deleting)
    ensures Frame(w, UnregDelete(k, ok), UnregDeleteStep(w, k, ok))
  {
  }

  lemma UnregDecrementFrame(w: World, k: nat)
    requires UnregEnabled(w, k, Decrementing)
    ensures Frame(w, UnregDecrement(k), UnregDecrementStep(w, k))
  {
  }

  lemma SubReceiveFrame(w: World, n: nat)
    requires SubIdle(w, n)
    ensures Frame(w, SubReceive(n), SubReceiveStep(w, n))
  {
  }

  lemma SubLoseFrame(w: World, n: nat)
    requires SubIdle(w, n)
    ensures Frame(w, SubLose(n), SubLoseStep(w, n))
  {
  }

  lemma SubPushFrame(w: World, n: nat)
    requires SubHolds(w, n)
    ensures Frame(w, SubPush(n), SubPushStep(w, n))
  {
  }
}
