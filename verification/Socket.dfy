/** What a connection writes to its socket, and in which order. */
module Socket {
  import opened Store
  import opened Cluster
  import opened Frames
  import Conversations
  import Lifecycle
  import Tables

  // ------------------------------------------------------------- invariant

  function InHand(cl: Client): seq<Payload> {
    if cl.pc.Writing? then [cl.pc.payload] else []
  }

  /** Frames written are a prefix of the backlog followed by a prefix of what entered
      `Send`; the rest of what entered is lost in a failed write, in hand, or queued. */
  ghost predicate SocketOk(cl: Client) {
    && |cl.send| <= SEND_BUFFER_SIZE
    && cl.pushed <= |BacklogOf(cl)|
    && cl.sent <= |cl.accepted|
    && cl.written == BacklogOf(cl)[..cl.pushed] + cl.accepted[..cl.sent]
    && cl.accepted[cl.sent..] == cl.dropped + InHand(cl) + cl.send
    && (cl.dropped != [] ==> cl.pc.Stopped? && |cl.dropped| == 1)
    && (cl.sent > 0 ==> cl.pushed == |BacklogOf(cl)|)
    && (Lifecycle.Starting(cl.pc) ==> cl.sent == 0)
    && (Lifecycle.Starting(cl.pc) && !cl.pc.Pushing? ==> cl.pushed == 0 && cl.backlog.None?)
    && (!Lifecycle.Starting(cl.pc) && cl.pushed < |BacklogOf(cl)| ==> cl.broken)
  }

  ghost predicate BacklogAscends(cl: Client) {
    cl.backlog.Some? ==> Ascending(cl.backlog.value)
  }

  ghost predicate Prefixes(w: World) {
    forall c :: 0 <= c < |w.clients| ==> SocketOk(w.clients[c])
  }

  ghost predicate Ascends(w: World) {
    OneRowEach(w.db) && forall c :: 0 <= c < |w.clients| ==> BacklogAscends(w.clients[c])
  }

  /** The chats this run resolves are between two different users. */
  predicate NoSelfChat(w: World, a: Action) {
    a.Listen? && a.listen.DoResolve? && a.client < |w.clients| && w.clients[a.client].listen.Resolve?
    ==> w.clients[a.client].listen.target != w.clients[a.client].user
  }

  // ---------------------------------------------------------- preservation

  lemma OfferKeepsSocket(x: Client, y: Client)
    requires SocketOk(x) && OnlyOffered(x, y)
    ensures SocketOk(y)
  {
    if y != x {
      var p := y.offered[|y.offered| - 1];
      if y.accepted != x.accepted {
        assert y.accepted[..y.sent] == x.accepted[..x.sent];
        assert y.accepted[y.sent..] == x.accepted[x.sent..] + [p];
      }
    }
  }

  /** A goroutine of the connection itself: only these fields, and the client being
      offered its own message when it writes to itself. */
  lemma ListenKeepsSocket(w: World, c: nat, e: ListenAct)
    requires ListenEnabled(w, c, e) && SocketOk(w.clients[c]) && !Lifecycle.Starting(w.clients[c].pc)
    ensures c < |ListenStep(w, c, e).clients| && SocketOk(ListenStep(w, c, e).clients[c])
    ensures ListenStep(w, c, e).clients[c].backlog == w.clients[c].backlog
  {
    if e.DoPush? { PushKeepsSocket(w, c); } else { QuietListen(w, c, e); }
  }

  lemma QuietListen(w: World, c: nat, e: ListenAct)
    requires ListenEnabled(w, c, e) && !e.DoPush?
    ensures c < |ListenStep(w, c, e).clients|
    ensures var x, y := w.clients[c], ListenStep(w, c, e).clients[c];
            y == x.(listen := y.listen, closes := y.closes, broken := y.broken) && (x.broken ==> y.broken)
  {
  }

  lemma PushKeepsSocket(w: World, c: nat)
    requires ListenEnabled(w, c, DoPush) && SocketOk(w.clients[c])
    ensures c < |PushStep(w, c).clients| && SocketOk(PushStep(w, c).clients[c])
    ensures PushStep(w, c).clients[c].backlog == w.clients[c].backlog
  {
    PushIsOffer(w, c);
    var x, y := w.clients[c], PushStep(w, c).clients[c];
    OfferKeepsSocket(x, y.(listen := x.listen));
  }

  lemma PushIsOffer(w: World, c: nat)
    requires ListenEnabled(w, c, DoPush)
    ensures c < |PushStep(w, c).clients|
    ensures OnlyOffered(w.clients[c], PushStep(w, c).clients[c].(listen := w.clients[c].listen))
  {
    var x, y := w.clients[c], PushStep(w, c).clients[c];
    if w.clients[c].listen.client == c {
      assert y.offered[|x.offered|] == w.clients[c].listen.payload;
    }
  }

  lemma ConnKeepsSocket(w: World, c: nat, e: ConnectAct)
    requires ConnEnabled(w, c, e) && SocketOk(w.clients[c])
    ensures c < |ConnStep(w, c, e).clients| && SocketOk(ConnStep(w, c, e).clients[c])
  {
    match e
    case WriteBacklog(ok) => WriteBacklogSocket(w, c, ok);
    case TakeSend => TakeSendSocket(w, c);
    case WriteSend(ok) => WriteSendSocket(w, c, ok);
    case QueryBacklog(ok) => QuerySocket(w, c, ok);
    case _ => QuietConnSocket(w, c, e);
  }

  lemma QuietConnSocket(w: World, c: nat, e: ConnectAct)
    requires ConnEnabled(w, c, e) && SocketOk(w.clients[c])
    requires !e.WriteBacklog? && !e.TakeSend? && !e.WriteSend? && !e.QueryBacklog?
    ensures c < |ConnStep(w, c, e).clients| && SocketOk(ConnStep(w, c, e).clients[c])
  {
    var x, y := w.clients[c], ConnStep(w, c, e).clients[c];
    assert y == x.(pc := y.pc, listen := y.listen);
    PcMoves(x, y);
  }

  lemma PcMoves(x: Client, y: Client)
    requires SocketOk(x) && y == x.(pc := y.pc, listen := y.listen) && !x.pc.Writing? && !y.pc.Writing?
    requires Lifecycle.Starting(y.pc) ==> Lifecycle.Starting(x.pc) && !x.pc.Pushing? && !y.pc.Pushing?
    requires !Lifecycle.Starting(y.pc) && Lifecycle.Starting(x.pc) ==> x.broken || x.pushed == |BacklogOf(x)|
    requires x.dropped == []
    ensures SocketOk(y)
  {
  }

  lemma QuerySocket(w: World, c: nat, ok: bool)
    requires ConnEnabled(w, c, QueryBacklog(ok)) && SocketOk(w.clients[c])
    ensures SocketOk(QueryBacklogStep(w, c, ok).clients[c])
  {
  }

  lemma WriteBacklogSocket(w: World, c: nat, ok: bool)
    requires ConnEnabled(w, c, WriteBacklog(ok)) && SocketOk(w.clients[c])
    ensures SocketOk(WriteBacklogStep(w, c, ok).clients[c])
  {
    var b, i := BacklogOf(w.clients[c]), w.clients[c].pushed;
    assert b[..i + 1] == b[..i] + [b[i]];
  }

  lemma TakeKeeps(cl: Client)
    requires SocketOk(cl) && cl.pc.Delivering? && cl.send != []
    ensures SocketOk(cl.(pc := Writing(cl.send[0]), send := cl.send[1..]))
  {
    assert cl.send == [cl.send[0]] + cl.send[1..];
  }

  lemma WriteKeeps(cl: Client)
    requires SocketOk(cl) && cl.pc.Writing? && !cl.broken
    ensures SocketOk(cl.(pc := Delivering, sent := cl.sent + 1, written := cl.written + [cl.pc.payload]))
  {
    var rest := cl.accepted[cl.sent..];
    assert rest == [cl.pc.payload] + cl.send;
    assert cl.accepted[cl.sent] == rest[0] == cl.pc.payload;
    assert cl.accepted[..cl.sent + 1] == cl.accepted[..cl.sent] + [cl.pc.payload];
    assert cl.accepted[cl.sent + 1..] == rest[1..];
    assert cl.written + [cl.pc.payload] == BacklogOf(cl)[..cl.pushed] + cl.accepted[..cl.sent + 1];
  }

  lemma WriteFailsKeeps(cl: Client)
    requires SocketOk(cl) && cl.pc.Writing?
    ensures SocketOk(cl.(pc := Stopped, broken := true, dropped := cl.dropped + [cl.pc.payload]))
  {
  }

  lemma TakeSendSocket(w: World, c: nat)
    requires ConnEnabled(w, c, TakeSend) && SocketOk(w.clients[c])
    ensures SocketOk(TakeSendStep(w, c).clients[c])
  {
    TakeKeeps(w.clients[c]);
  }

  lemma WriteSendSocket(w: World, c: nat, ok: bool)
    requires ConnEnabled(w, c, WriteSend(ok)) && SocketOk(w.clients[c])
    ensures SocketOk(WriteSendStep(w, c, ok).clients[c])
  {
    WriteOneSocket(w.clients[c], ok);
  }

  lemma WriteOneSocket(cl: Client, ok: bool)
    requires SocketOk(cl) && cl.pc.Writing? && (ok ==> !cl.broken)
    ensures ok ==> SocketOk(cl.(pc := Delivering, sent := cl.sent + 1, written := cl.written + [cl.pc.payload]))
    ensures !ok ==> SocketOk(cl.(pc := Stopped, broken := true, dropped := cl.dropped + [cl.pc.payload]))
  {
    if ok { WriteKeeps(cl); } else { WriteFailsKeeps(cl); }
  }

  lemma ConnKeepsAscending(w: World, c: nat, e: ConnectAct)
    requires ConnEnabled(w, c, e) && Valid(w.db) && OneRowEach(w.db) && BacklogAscends(w.clients[c])
    ensures c < |ConnStep(w, c, e).clients| && BacklogAscends(ConnStep(w, c, e).clients[c])
  {
    UnreadAscends(w.db, w.db.msgs, w.clients[c].user);
  }

  lemma PrefixStep(w: World, a: Action)
    requires Prefixes(w) && Enabled(w, a) && Lifecycle.Inv(w)
    ensures Prefixes(Step(w, a))
  {
    StepFrame(w, a);
    match a {
      case Conn(c, e) => ConnKeepsSocket(w, c, e);
      case Listen(c, e) => assert Lifecycle.ClientOk(w, c); ListenKeepsSocket(w, c, e);
      case _ =>
    }
    OthersKeepPrefix(w, a, Step(w, a));
  }

  lemma OthersKeepPrefix(w: World, a: Action, w': World)
    requires Prefixes(w) && Frame(w, a, w')
    requires Mover(a) >= 0 ==> Mover(a) < |w'.clients| && SocketOk(w'.clients[Mover(a)])
    ensures Prefixes(w')
  {
    forall c | 0 <= c < |w'.clients|
      ensures SocketOk(w'.clients[c])
    {
      if c < |w.clients| && c != Mover(a) { OfferKeepsSocket(w.clients[c], w'.clients[c]); }
    }
  }

  lemma AscendStep(w: World, a: Action)
    requires Prefixes(w) && Ascends(w) && Enabled(w, a) && Lifecycle.Inv(w) && Tables.Inv(w) && NoSelfChat(w, a)
    ensures Ascends(Step(w, a))
  {
    StepFrame(w, a);
    match a {
      case Conn(c, e) => ConnKeepsAscending(w, c, e);
      case Listen(c, e) => assert Lifecycle.ClientOk(w, c); ListenKeepsSocket(w, c, e);
      case _ =>
    }
    RowsKeep(w, a);
    OthersKeepAscending(w, a, Step(w, a));
  }

  lemma OthersKeepAscending(w: World, a: Action, w': World)
    requires Ascends(w) && OneRowEach(w'.db) && Frame(w, a, w')
    requires Mover(a) >= 0 ==> Mover(a) < |w'.clients| && BacklogAscends(w'.clients[Mover(a)])
    ensures Ascends(w')
  {
    forall c | 0 <= c < |w'.clients|
      ensures BacklogAscends(w'.clients[c])
    {
      if c < |w.clients| && c != Mover(a) { assert OnlyOffered(w.clients[c], w'.clients[c]); }
    }
  }

  lemma RowsKeep(w: World, a: Action)
    requires OneRowEach(w.db) && Enabled(w, a) && Tables.StoreOk(w) && NoSelfChat(w, a)
    ensures OneRowEach(Step(w, a).db)
  {
    StepFrame(w, a);
    if a.Listen? && TouchesDb(a) { ListenRows(w, a.client, a.listen); }
  }

  lemma ListenRows(w: World, c: nat, e: ListenAct)
    requires OneRowEach(w.db) && ListenEnabled(w, c, e) && Tables.StoreOk(w) && NoSelfChat(w, Listen(c, e))
    requires e.DoResolve? || e.DoPersist? || e.DoPublish? || e.DoMarkOwn? || e.DoAck?
    ensures OneRowEach(ListenStep(w, c, e).db)
  {
    if e.DoResolve? {
      Conversations.ResolveOneRowExactly(w.db, w.convCache, w.clients[c].user, w.clients[c].listen.target, w.now,
                                         e.convFaults);
    }
  }

  lemma {:induction false} PrefixesHold(tr: seq<World>, acts: seq<Action>, k: nat)
    requires Run(tr, acts) && k < |tr|
    ensures Prefixes(tr[k])
  {
    if k > 0 {
      assert StepAt(tr, acts, k - 1);
      PrefixesHold(tr, acts, k - 1);
      Lifecycle.InvHolds(tr, acts, k - 1);
      PrefixStep(tr[k - 1], acts[k - 1]);
    }
  }

  lemma {:induction false} AscendsHold(tr: seq<World>, acts: seq<Action>, k: nat)
    requires Run(tr, acts) && k < |tr|
    requires forall j :: 0 <= j < k ==> NoSelfChat(tr[j], acts[j])
    ensures Ascends(tr[k])
  {
    if k > 0 {
      AscendsHold(tr, acts, k - 1);
      AscendAt(tr, acts, k - 1);
    }
  }

  lemma AscendAt(tr: seq<World>, acts: seq<Action>, k: nat)
    requires Run(tr, acts) && k < |acts| && Ascends(tr[k]) && NoSelfChat(tr[k], acts[k])
    ensures Ascends(tr[k + 1])
  {
    assert StepAt(tr, acts, k);
    PrefixesHold(tr, acts, k);
    Lifecycle.InvHolds(tr, acts, k);
    Tables.InvHolds(tr, acts, k);
    AscendStep(tr[k], acts[k]);
  }

  /** Past the backlog push the whole backlog is in front, or the socket is broken. */
  lemma BacklogInFront(cl: Client)
    requires SocketOk(cl) && !Lifecycle.Starting(cl.pc)
    ensures cl.broken || BacklogOf(cl) <= cl.written
  {
  }

  /** A frame that tells a stored message: its id, conversation, sender and text. */
  predicate Tells(p: Payload, m: Message) {
    p.msgId == m.id && p.conv == m.conv && p.sender == m.sender && p.content == m.content
  }

  /** The frames in front tell, one by one, the rows the backlog query returned, without a
      client id. */
  ghost predicate TellsBacklog(cl: Client)
    requires cl.backlog.Some?
  {
    && cl.pushed <= |cl.backlog.value| && cl.pushed <= |cl.written|
    && forall i :: 0 <= i < cl.pushed ==> Tells(cl.written[i], cl.backlog.value[i]) && cl.written[i].clientId == ""
  }

  lemma PrefixTells(cl: Client)
    requires SocketOk(cl) && cl.backlog.Some?
    ensures TellsBacklog(cl)
  {
  }

  /** The whole backlog is in front, told row by row. */
  ghost predicate TellsAll(cl: Client) {
    cl.backlog.Some? ==>
      && |cl.backlog.value| <= |cl.written|
      && forall i :: 0 <= i < |cl.backlog.value| ==>
           Tells(cl.written[i], cl.backlog.value[i]) && cl.written[i].clientId == ""
  }

  lemma InFrontTells(cl: Client)
    requires BacklogOf(cl) <= cl.written
    ensures TellsAll(cl)
  {
  }

  // -------------------------------------------------------------- theorems

  /** In every reachable state a connection has written a prefix of its backlog, then a
      prefix of what entered `Send`, in enqueue order, starting the second only after
      all of the first; at most 256 frames are queued. Frame by frame the backlog part tells
      the rows of the query. */
  lemma SocketOrder(tr: seq<World>, acts: seq<Action>, k: nat, c: nat)
    requires Run(tr, acts) && k < |tr| && c < |tr[k].clients|
    ensures var cl := tr[k].clients[c];
            && cl.pushed <= |BacklogOf(cl)| && cl.sent <= |cl.accepted|
            && cl.written == BacklogOf(cl)[..cl.pushed] + cl.accepted[..cl.sent]
            && (cl.sent > 0 ==> cl.pushed == |BacklogOf(cl)|)
            && |cl.send| <= 256
    ensures tr[k].clients[c].backlog.Some? ==> TellsBacklog(tr[k].clients[c])
  {
    PrefixesHold(tr, acts, k);
  }

  /** Unless some user chats with themself, the backlog part has strictly ascending ids. */
  lemma BacklogOrder(tr: seq<World>, acts: seq<Action>, k: nat, c: nat)
    requires Run(tr, acts) && k < |tr| && c < |tr[k].clients|
    requires forall j :: 0 <= j < k ==> NoSelfChat(tr[j], acts[j])
    ensures var b := BacklogOf(tr[k].clients[c]);
            forall i, j :: 0 <= i < j < |b| ==> b[i].msgId < b[j].msgId
  {
    AscendsHold(tr, acts, k);
  }
}
