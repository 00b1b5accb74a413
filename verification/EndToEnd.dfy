/** From the insert to the socket: the offer of `NoGap` and the order of `Socket` together. */
module EndToEnd {
  import opened Basics
  import opened Store
  import opened Cluster
  import opened Frames
  import opened NoGap
  import Keys
  import Socket

  // ------------------------------------------------- the backlog of a connection

  lemma BacklogStep(w: World, a: Action, c: nat)
    requires Enabled(w, a) && c < |w.clients| && 4 <= Stage(w.clients[c].pc)
    ensures c < |Step(w, a).clients| && Step(w, a).clients[c].backlog == w.clients[c].backlog
  {
    if a.Conn? && a.client == c {
      ConnBacklog(w, c, a.conn);
    } else if a.Listen? && a.client == c {
      ListenBacklog(w, c, a.listen);
    } else {
      StepFrame(w, a);
      OtherBacklog(w, a, Step(w, a), c);
    }
  }

  lemma ConnBacklog(w: World, c: nat, e: ConnectAct)
    requires ConnEnabled(w, c, e) && 4 <= Stage(w.clients[c].pc)
    ensures c < |ConnStep(w, c, e).clients| && ConnStep(w, c, e).clients[c].backlog == w.clients[c].backlog
  {
  }

  lemma ListenBacklog(w: World, c: nat, e: ListenAct)
    requires ListenEnabled(w, c, e)
    ensures c < |ListenStep(w, c, e).clients| && ListenStep(w, c, e).clients[c].backlog == w.clients[c].backlog
  {
  }

  lemma OtherBacklog(w: World, a: Action, w': World, c: nat)
    requires Frame(w, a, w') && Mover(a) != c < |w.clients|
    ensures c < |w'.clients| && w'.clients[c].backlog == w.clients[c].backlog
  {
    assert OnlyOffered(w.clients[c], w'.clients[c]);
  }

  lemma {:induction false} BacklogAlong(tr: seq<World>, acts: seq<Action>, i: nat, j: nat, c: nat)
    requires Run(tr, acts) && i <= j < |tr| && c < |tr[i].clients| && 4 <= Stage(tr[i].clients[c].pc)
    ensures c < |tr[j].clients| && tr[j].clients[c].backlog == tr[i].clients[c].backlog
    decreases j - i
  {
    if i < j {
      assert StepAt(tr, acts, j - 1);
      BacklogAlong(tr, acts, i, j - 1, c);
      StageAlong(tr, acts, i, j - 1, c);
      BacklogStep(tr[j - 1], acts[j - 1], c);
    }
  }

  // ---------------------------------------------------------- on the socket

  /** The frame of this chat as user `u` sent it: text, client id and sender are theirs, the
      id is that of the stored message. */
  predicate Carries(p: Payload, u: nat, chat: Chat, id: nat) {
    p.sender == u && p.content == chat.content && p.clientId == chat.clientId && p.msgId == id
  }

  ghost predicate Sent(cl: Client, u: nat, chat: Chat, id: nat) {
    exists i :: 0 <= i < |cl.written| && Carries(cl.written[i], u, chat, id)
  }

  /** Some frame on the socket tells this message, text and all. */
  ghost predicate Told(cl: Client, m: Message) {
    exists i :: 0 <= i < |cl.written| && Socket.Tells(cl.written[i], m)
  }

  /** The writer waits with nothing to do: no push was refused, and no write failed. */
  predicate Settled(cl: Client) {
    cl.pc.Delivering? && cl.send == [] && !cl.broken && cl.accepted == cl.offered
  }

  lemma OneIsSomewhere(cl: Client, p: Payload)
    requires Socket.SocketOk(cl) && p in cl.accepted
    ensures p in cl.written || p in cl.dropped || p in Socket.InHand(cl) || p in cl.send
  {
    var i :| 0 <= i < |cl.accepted| && cl.accepted[i] == p;
    if i < cl.sent {
      assert cl.written[cl.pushed + i] == p;
    } else {
      assert cl.accepted[cl.sent..][i - cl.sent] == p;
    }
  }

  lemma OfferedIsWritten(cl: Client, p: Payload)
    requires Socket.SocketOk(cl) && Settled(cl) && p in cl.offered
    ensures p in cl.written
  {
    OneIsSomewhere(cl, p);
  }

  lemma BacklogIsWritten(cl: Client, m: Message)
    requires Socket.SocketOk(cl) && Settled(cl) && cl.backlog.Some? && m in cl.backlog.value
    ensures Told(cl, m)
  {
    Socket.PrefixTells(cl);
    var i :| 0 <= i < |cl.backlog.value| && cl.backlog.value[i] == m;
    assert Socket.Tells(cl.written[i], m);
  }

  /** What the query returned is on the socket once the connection has settled. */
  lemma SeenIsWritten(tr: seq<World>, acts: seq<Action>, query: nat, later: nat, c: nat, m: Message)
    requires Run(tr, acts) && query < |acts| && later < |tr| && acts[query] == Conn(c, QueryBacklog(true))
    requires SeenByQuery(tr, query, c, m) && c < |tr[later].clients| && Settled(tr[later].clients[c])
    ensures Told(tr[later].clients[c], m) || BelowCursor(tr[query].db, m, tr[query].clients[c].user)
  {
    if BelowCursor(tr[query].db, m, tr[query].clients[c].user) { return; }
    QueryStores(tr, acts, query, c);
    assert StepAt(tr, acts, query);
    StageStep(tr[query], acts[query], c);
    if later <= query { StageAlong(tr, acts, later, query, c); }
    BacklogAlong(tr, acts, query + 1, later, c);
    Socket.PrefixesHold(tr, acts, later);
    BacklogIsWritten(tr[later].clients[c], m);
  }

  lemma PushedIsWritten(tr: seq<World>, acts: seq<Action>, later: nat, c: nat, p: Payload)
    requires Run(tr, acts) && later < |tr| && c < |tr[later].clients| && Settled(tr[later].clients[c])
    requires p in tr[later].clients[c].offered
    ensures p in tr[later].clients[c].written
  {
    Socket.PrefixesHold(tr, acts, later);
    OfferedIsWritten(tr[later].clients[c], p);
  }

  // -------------------------------------------------- what a handler sends

  /** A handler with a frame in hand has built it from its own chat. */
  predicate Own(u: nat, pc: ListenPc) {
    pc.FindLocal? || pc.FindNode? || pc.Forward? || pc.Push? ==> Carries(pc.payload, u, pc.chat, pc.payload.msgId)
  }

  lemma OwnStep(w: World, a: Action, s: nat)
    requires Enabled(w, a) && s < |w.clients| && Own(w.clients[s].user, w.clients[s].listen)
    ensures s < |Step(w, a).clients| && Own(Step(w, a).clients[s].user, Step(w, a).clients[s].listen)
  {
    if a.Conn? && a.client == s {
      ConnOwn(w, s, a.conn);
    } else if a.Listen? && a.client == s {
      ListenOwn(w, s, a.listen);
    } else {
      StepFrame(w, a);
      OtherOwn(w, a, Step(w, a), s);
    }
  }

  lemma ConnOwn(w: World, s: nat, e: ConnectAct)
    requires ConnEnabled(w, s, e) && Own(w.clients[s].user, w.clients[s].listen)
    ensures s < |ConnStep(w, s, e).clients|
    ensures Own(ConnStep(w, s, e).clients[s].user, ConnStep(w, s, e).clients[s].listen)
  {
  }

  lemma ListenOwn(w: World, s: nat, e: ListenAct)
    requires ListenEnabled(w, s, e) && Own(w.clients[s].user, w.clients[s].listen)
    ensures s < |ListenStep(w, s, e).clients|
    ensures Own(ListenStep(w, s, e).clients[s].user, ListenStep(w, s, e).clients[s].listen)
  {
  }

  lemma OtherOwn(w: World, a: Action, w': World, s: nat)
    requires Frame(w, a, w') && Mover(a) != s < |w.clients| && Own(w.clients[s].user, w.clients[s].listen)
    ensures s < |w'.clients| && Own(w'.clients[s].user, w'.clients[s].listen)
  {
    assert OnlyOffered(w.clients[s], w'.clients[s]);
  }

  /** In every reachable state a frame in a handler's hand carries what its user sent. */
  lemma {:induction false} HandlerSendsOwn(tr: seq<World>, acts: seq<Action>, k: nat, s: nat)
    requires Run(tr, acts) && k < |tr| && s < |tr[k].clients|
    ensures Own(tr[k].clients[s].user, tr[k].clients[s].listen)
  {
    if k > 0 {
      if s < |tr[k - 1].clients| { HandlerSendsOwn(tr, acts, k - 1, s); }
      OwnAt(tr, acts, k - 1, s);
    }
  }

  lemma OwnAt(tr: seq<World>, acts: seq<Action>, k: nat, s: nat)
    requires Run(tr, acts) && k < |acts| && s < |tr[k + 1].clients|
    requires s < |tr[k].clients| ==> Own(tr[k].clients[s].user, tr[k].clients[s].listen)
    ensures Own(tr[k + 1].clients[s].user, tr[k + 1].clients[s].listen)
  {
    assert StepAt(tr, acts, k);
    if s < |tr[k].clients| { OwnStep(tr[k], acts[k], s); } else { NewIsOwn(tr[k], acts[k], s); }
  }

  lemma NewIsOwn(w: World, a: Action, s: nat)
    requires Enabled(w, a) && |w.clients| <= s < |Step(w, a).clients|
    ensures Own(Step(w, a).clients[s].user, Step(w, a).clients[s].listen)
  {
    StepFrame(w, a);
    var w' := Step(w, a);
    assert w'.clients[s] == NewClient(w'.clients[s].user, w'.clients[s].node);
  }

  // --------------------------------------------------------------- theorems

  /** In every reachable state what entered a connection's `Send` is, in order and each frame
      once: on the socket behind the backlog, lost in the one write that failed, in the
      writer's hand, or queued. */
  lemma AcceptedIsSomewhere(tr: seq<World>, acts: seq<Action>, k: nat, c: nat) returns (onSocket: seq<Payload>)
    requires Run(tr, acts) && k < |tr| && c < |tr[k].clients|
    ensures var cl := tr[k].clients[c];
            && cl.accepted == onSocket + cl.dropped + Socket.InHand(cl) + cl.send
            && cl.pushed <= |BacklogOf(cl)| && cl.written == BacklogOf(cl)[..cl.pushed] + onSocket
            && |cl.dropped| <= 1 && (cl.dropped != [] ==> cl.pc.Stopped? && Socket.InHand(cl) == [])
  {
    Socket.PrefixesHold(tr, acts, k);
    var cl := tr[k].clients[c];
    onSocket := cl.accepted[..cl.sent];
    assert cl.accepted == onSocket + cl.accepted[cl.sent..];
  }

  /** One node, under the hypotheses of `NoGapOnOneNode`, at any later moment at which the
      recipient's connection has settled. If the lookup came before its query, some frame on
      its socket tells the stored message, text and all, or the recipient's cursor was past it
      when the backlog was read; if it came after and the handler is past its push, the frame
      the sender's chat asked for is on that socket. */
  lemma ArrivesOnOneNode(tr: seq<World>, acts: seq<Action>, reg: nat, query: nat, look: nat, c: nat, s: nat, later: nat)
    returns (m: Message)
    requires Run(tr, acts) && reg < |acts| && query < |acts| && look < later < |tr|
    requires acts[reg] == Conn(c, RegisterMap)
    requires acts[query] == Conn(c, QueryBacklog(true))
    requires acts[look] == Listen(s, DoFindLocal)
    requires c < |tr[reg].clients| && s < |tr[look].clients| && tr[look].clients[s].listen.FindLocal?
    requires tr[look].clients[s].node == tr[reg].clients[c].node
    requires tr[look].clients[s].listen.chat.to == tr[reg].clients[c].user
    requires query < look ==>
               && (forall k :: reg < k <= look ==> HasSlot(tr[k], tr[reg].clients[c].node, tr[reg].clients[c].user, c))
               && s < |tr[later].clients| && !tr[later].clients[s].listen.Push?
    requires c < |tr[later].clients| && Settled(tr[later].clients[c])
    ensures m in tr[look].db.msgs && m.id == tr[look].clients[s].listen.payload.msgId
    ensures HasMember(tr[look].db, m.conv, tr[reg].clients[c].user) && look < query ==>
              Told(tr[later].clients[c], m) || BelowCursor(tr[query].db, m, tr[reg].clients[c].user)
    ensures query <= look ==>
              Sent(tr[later].clients[c], tr[look].clients[s].user, tr[look].clients[s].listen.chat, m.id)
  {
    m := NoGapOnOneNode(tr, acts, reg, query, look, c, s, later);
    QueryAfterRegister(tr, acts, reg, query, c);
    if look < query {
      if HasMember(tr[look].db, m.conv, tr[reg].clients[c].user) { SeenIsWritten(tr, acts, query, later, c, m); }
    } else {
      var p := tr[look].clients[s].listen.payload;
      LookIsNotQuery(acts, look, query, s, c);
      PushedIsWritten(tr, acts, later, c, p);
      HandlerSendsOwn(tr, acts, look, s);
      var i :| 0 <= i < |tr[later].clients[c].written| && tr[later].clients[c].written[i] == p;
    }
  }

  /** Two nodes. A lookup before the recipient's query needs nothing more: offline, failed or
      forwarded elsewhere, the message comes with the backlog, text and all. For one after it, what
      `NoGapAcrossNodes` asks of the presence key is asked of the steps here: the registration
      at `set'` is the latest of the user, nothing removed the key, and it was refreshed in
      time; and at `later` the subscriber of `q` is past its push. Then the frame the sender's
      chat asked for is on the socket. */
  lemma ArrivesAcrossNodes(tr: seq<World>, acts: seq<Action>, reg: nat, set': nat, query: nat, find: nat, ok: bool,
                           fwd: nat, recv: nat, c: nat, q: nat, u: nat, s: nat, later: nat)
    returns (m: Message)
    requires Run(tr, acts) && reg < |acts| && query < |acts| && find < |acts| && later < |tr|
    requires acts[reg] == Conn(c, RegisterMap) && acts[query] == Conn(c, QueryBacklog(true))
    requires acts[find] == Listen(s, DoFindNode(ok))
    requires c < |tr[reg].clients| && tr[reg].clients[c].user == u && tr[reg].clients[c].node == q
    requires s < |tr[find].clients| && tr[find].clients[s].listen.FindNode? && tr[find].clients[s].listen.chat.to == u
    requires query < find ==>
               && RecordTravels(tr, acts, find, fwd, recv, q, s) && recv < later
               && tr[find].nodes[q].name != ""
               && Keys.Latest(tr, acts, set', find, u, tr[find].nodes[q].name) && Keys.Kept(tr, acts, set', find, u)
               && (forall k :: reg < k <= recv ==> HasSlot(tr[k], q, u, c))
               && q < |tr[later].nodes| && tr[later].nodes[q].held != Some(Held(c, |tr[fwd].forwards|))
    requires c < |tr[later].clients| && Settled(tr[later].clients[c])
    ensures m in tr[find].db.msgs && m.id == tr[find].clients[s].listen.payload.msgId
    ensures HasMember(tr[find].db, m.conv, u) && find < query ==>
              Told(tr[later].clients[c], m) || BelowCursor(tr[query].db, m, u)
    ensures query <= find ==>
              Sent(tr[later].clients[c], tr[find].clients[s].user, tr[find].clients[s].listen.chat, m.id)
  {
    if query < find { Keys.NamesExactly(tr, acts, find, u, tr[find].nodes[q].name); }
    m := NoGapAcrossNodes(tr, acts, reg, query, find, ok, fwd, recv, c, q, u, s, later);
    QueryAfterRegister(tr, acts, reg, query, c);
    if find < query {
      if HasMember(tr[find].db, m.conv, u) { SeenIsWritten(tr, acts, query, later, c, m); }
    } else {
      var p := tr[find].clients[s].listen.payload;
      LookIsNotQuery(acts, find, query, s, c);
      PushedIsWritten(tr, acts, later, c, p);
      HandlerSendsOwn(tr, acts, find, s);
      var i :| 0 <= i < |tr[later].clients[c].written| && tr[later].clients[c].written[i] == p;
    }
  }
}
