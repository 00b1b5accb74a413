/** No gap at reconnect. The sender stores the message before it looks the recipient
    up; the recipient registers before it queries its backlog. Under every
    interleaving one of the two sees the other. */
module NoGap {
  import opened Basics
  import opened Store
  import opened Cluster
  import opened Frames
  import Lifecycle
  import Tables

  // ------------------------------------------------------------ time lemmas

  lemma {:induction false} DbGrowsAlong(tr: seq<World>, acts: seq<Action>, i: nat, j: nat)
    requires Run(tr, acts) && i <= j < |tr|
    ensures Tables.DbGrows(tr[i].db, tr[j].db)
    decreases j - i
  {
    if i < j {
      DbGrowsAlong(tr, acts, i, j - 1);
      DbGrowsAt(tr, acts, j - 1);
    }
  }

  lemma DbGrowsAt(tr: seq<World>, acts: seq<Action>, k: nat)
    requires Run(tr, acts) && k < |acts|
    ensures Tables.DbGrows(tr[k].db, tr[k + 1].db)
  {
    assert StepAt(tr, acts, k);
    Tables.InvHolds(tr, acts, k);
    Tables.InvStep(tr[k], acts[k]);
  }

  lemma {:induction false} GrowsAlong(tr: seq<World>, acts: seq<Action>, i: nat, j: nat)
    requires Run(tr, acts) && i <= j < |tr|
    ensures Grows(tr[i], tr[j])
    decreases j - i
  {
    if i < j {
      assert StepAt(tr, acts, j - 1);
      GrowsAlong(tr, acts, i, j - 1);
      StepFrame(tr[j - 1], acts[j - 1]);
    }
  }

  /** How far the goroutine of `WsConnect` has come. */
  function Stage(pc: ConnectPc): nat {
    match pc
    case Upgraded => 0
    case Mapped => 1
    case Announced => 2
    case Counted => 3
    case Pushing => 4
    case _ => 5
  }

  lemma StageStep(w: World, a: Action, c: nat)
    requires Enabled(w, a) && c < |w.clients|
    ensures c < |Step(w, a).clients| && Stage(w.clients[c].pc) <= Stage(Step(w, a).clients[c].pc)
    ensures a == Conn(c, QueryBacklog(true)) ==> Stage(Step(w, a).clients[c].pc) == 4
  {
    if a.Conn? && a.client == c {
      ConnStage(w, c, a.conn);
    } else if a.Listen? && a.client == c {
      ListenStage(w, c, a.listen);
    } else {
      StepFrame(w, a);
      OtherStage(w, a, Step(w, a), c);
    }
  }

  lemma OtherStage(w: World, a: Action, w': World, c: nat)
    requires Frame(w, a, w') && Mover(a) != c < |w.clients|
    ensures c < |w'.clients| && w'.clients[c].pc == w.clients[c].pc
  {
    assert OnlyOffered(w.clients[c], w'.clients[c]);
  }

  lemma ConnStage(w: World, c: nat, e: ConnectAct)
    requires ConnEnabled(w, c, e)
    ensures c < |ConnStep(w, c, e).clients| && Stage(w.clients[c].pc) <= Stage(ConnStep(w, c, e).clients[c].pc)
    ensures e == QueryBacklog(true) ==> Stage(ConnStep(w, c, e).clients[c].pc) == 4
  {
  }

  lemma ListenStage(w: World, c: nat, e: ListenAct)
    requires ListenEnabled(w, c, e)
    ensures c < |ListenStep(w, c, e).clients| && ListenStep(w, c, e).clients[c].pc == w.clients[c].pc
  {
  }

  lemma {:induction false} StageAlong(tr: seq<World>, acts: seq<Action>, i: nat, j: nat, c: nat)
    requires Run(tr, acts) && i <= j < |tr| && c < |tr[i].clients|
    ensures c < |tr[j].clients| && Stage(tr[i].clients[c].pc) <= Stage(tr[j].clients[c].pc)
    decreases j - i
  {
    if i < j {
      assert StepAt(tr, acts, j - 1);
      StageAlong(tr, acts, i, j - 1, c);
      StageStep(tr[j - 1], acts[j - 1], c);
    }
  }

  /** A step of `WsConnect` that comes later in the program comes later in the run. */
  lemma ProgramOrder(tr: seq<World>, acts: seq<Action>, i: nat, j: nat, c: nat)
    requires Run(tr, acts) && i < |acts| && j < |acts|
    requires c < |tr[i].clients| && c < |tr[j].clients|
    requires Stage(tr[i].clients[c].pc) < Stage(tr[j].clients[c].pc)
    ensures i < j
  {
    if j <= i { StageAlong(tr, acts, j, i, c); }
  }

  // ---------------------------------------------------------- what was seen

  /** Every member row of `u` in the conversation of `m` has a cursor at or above it. */
  ghost predicate BelowCursor(db: Db, m: Message, u: nat) {
    forall i :: 0 <= i < |db.members| && db.members[i].conv == m.conv && db.members[i].user == u ==>
      m.id <= db.members[i].lastRead
  }

  /** A query that runs after the message was stored returns it, unless it was read. */
  lemma LaterQuerySees(tr: seq<World>, acts: seq<Action>, stored: nat, query: nat, m: Message, u: nat)
    requires Run(tr, acts) && stored <= query < |tr|
    requires m in tr[stored].db.msgs && HasMember(tr[stored].db, m.conv, u)
    ensures m in Unread(tr[query].db, u) || BelowCursor(tr[query].db, m, u)
  {
    DbGrowsAlong(tr, acts, stored, query);
    Tables.InvHolds(tr, acts, query);
    var db, db' := tr[stored].db, tr[query].db;
    var x :| 0 <= x < |db.msgs| && db.msgs[x] == m;
    assert db'.msgs[x] == m;
    UnreadExactly(db', db'.msgs, u, m);
    if !BelowCursor(db', m, u) {
      var i :| 0 <= i < |db'.members| && db'.members[i].conv == m.conv && db'.members[i].user == u
          && m.id > db'.members[i].lastRead;
      assert Leaves(db'.members[i], m, u);
    }
  }

  /** Connection `c` received `m` with its backlog, or had read it before. */
  ghost predicate SeenByQuery(tr: seq<World>, query: nat, c: nat, m: Message)
    requires query + 1 < |tr|
  {
    c < |tr[query].clients| && c < |tr[query + 1].clients|
    && ((tr[query + 1].clients[c].backlog.Some? && m in tr[query + 1].clients[c].backlog.value)
        || BelowCursor(tr[query].db, m, tr[query].clients[c].user))
  }

  lemma QueryStores(tr: seq<World>, acts: seq<Action>, query: nat, c: nat)
    requires Run(tr, acts) && query < |acts| && acts[query] == Conn(c, QueryBacklog(true))
    ensures c < |tr[query].clients| && c < |tr[query + 1].clients| && tr[query].clients[c].pc.Counted?
    ensures tr[query + 1].clients[c].backlog == Some(Unread(tr[query].db, tr[query].clients[c].user))
  {
    assert StepAt(tr, acts, query);
  }

  lemma RegisterIsFirst(tr: seq<World>, acts: seq<Action>, reg: nat, c: nat)
    requires Run(tr, acts) && reg < |acts| && acts[reg] == Conn(c, RegisterMap)
    ensures c < |tr[reg].clients| && tr[reg].clients[c].pc.Upgraded?
  {
    assert StepAt(tr, acts, reg);
  }

  /** The handler of connection `s` has `p` in hand for `c` and pushes it next, or has
      pushed it to `c`'s `Send`. */
  ghost predicate OfferedBy(w: World, s: nat, c: nat, chat: Chat, p: Payload) {
    s < |w.clients| && c < |w.clients| && (w.clients[s].listen == Push(chat, p, c) || p in w.clients[c].offered)
  }

  lemma PushStepOffers(w: World, s: nat)
    requires ListenEnabled(w, s, DoPush)
    ensures var pc := w.clients[s].listen;
            pc.client < |PushStep(w, s).clients| && pc.payload in PushStep(w, s).clients[pc.client].offered
  {
    var pc := w.clients[s].listen;
    var before, after := w.clients[pc.client].offered, PushStep(w, s).clients[pc.client].offered;
    assert after[|before|] == pc.payload;
  }

  lemma OffersOnlyGrow(x: seq<Payload>, y: seq<Payload>, p: Payload)
    requires x <= y && p in x
    ensures p in y
  {
    var i :| 0 <= i < |x| && x[i] == p;
    assert y[i] == p;
  }

  lemma OfferedStep(w: World, a: Action, s: nat, c: nat, chat: Chat, p: Payload)
    requires Enabled(w, a) && OfferedBy(w, s, c, chat, p) && Lifecycle.Inv(w)
    ensures OfferedBy(Step(w, a), s, c, chat, p)
  {
    StepFrame(w, a);
    if p in w.clients[c].offered || Mover(a) != s {
      OfferStays(w, a, Step(w, a), s, c, chat, p);
    } else if a.Listen? {
      PusherMoves(w, s, a.listen);
    } else {
      assert Lifecycle.ClientOk(w, s);
      ConnKeepsPusher(w, s, a.conn);
    }
  }

  lemma OfferStays(w: World, a: Action, w': World, s: nat, c: nat, chat: Chat, p: Payload)
    requires Frame(w, a, w') && OfferedBy(w, s, c, chat, p)
    requires p in w.clients[c].offered || Mover(a) != s
    ensures OfferedBy(w', s, c, chat, p)
  {
    if p in w.clients[c].offered {
      OffersOnlyGrow(w.clients[c].offered, w'.clients[c].offered, p);
    } else {
      assert OnlyOffered(w.clients[s], w'.clients[s]);
    }
  }

  lemma PusherMoves(w: World, s: nat, e: ListenAct)
    requires ListenEnabled(w, s, e) && w.clients[s].listen.Push?
    ensures s < |ListenStep(w, s, e).clients| && w.clients[s].listen.client < |ListenStep(w, s, e).clients|
    ensures ListenStep(w, s, e).clients[s].listen == w.clients[s].listen
            || w.clients[s].listen.payload in ListenStep(w, s, e).clients[w.clients[s].listen.client].offered
  {
    if e.DoPush? { PushStepOffers(w, s); }
  }

  lemma ConnKeepsPusher(w: World, s: nat, e: ConnectAct)
    requires ConnEnabled(w, s, e) && w.clients[s].listen.Push? && !Lifecycle.Starting(w.clients[s].pc)
    ensures s < |ConnStep(w, s, e).clients| && ConnStep(w, s, e).clients[s].listen == w.clients[s].listen
  {
  }

  lemma {:induction false} OfferedAlong(tr: seq<World>, acts: seq<Action>, i: nat, j: nat, s: nat, c: nat, chat: Chat,
                                        p: Payload)
    requires Run(tr, acts) && i <= j < |tr| && OfferedBy(tr[i], s, c, chat, p)
    ensures OfferedBy(tr[j], s, c, chat, p)
    decreases j - i
  {
    if i < j {
      OfferedAlong(tr, acts, i, j - 1, s, c, chat, p);
      OfferedAt(tr, acts, j - 1, s, c, chat, p);
    }
  }

  lemma OfferedAt(tr: seq<World>, acts: seq<Action>, k: nat, s: nat, c: nat, chat: Chat, p: Payload)
    requires Run(tr, acts) && k < |acts| && OfferedBy(tr[k], s, c, chat, p)
    ensures OfferedBy(tr[k + 1], s, c, chat, p)
  {
    assert StepAt(tr, acts, k);
    Lifecycle.InvHolds(tr, acts, k);
    OfferedStep(tr[k], acts[k], s, c, chat, p);
  }

  // --------------------------------------------------------------- theorems

  /** The sender's half of the argument: a handler past the insert carries the id of a
      message that is stored, the only one with that id. */
  lemma StoredAtLookup(tr: seq<World>, acts: seq<Action>, look: nat, s: nat) returns (m: Message)
    requires Run(tr, acts) && look < |tr| && s < |tr[look].clients| && Routing(tr[look].clients[s].listen)
    ensures m in tr[look].db.msgs && m.id == MessageOf(tr[look].clients[s].listen)
    ensures forall x :: x in tr[look].db.msgs && x.id == m.id ==> x == m
  {
    Tables.InvHolds(tr, acts, look);
    var db := tr[look].db;
    assert Tables.HandlerOk(db, tr[look].clients[s].listen);
    var i :| 0 <= i < |db.msgs| && db.msgs[i].id == MessageOf(tr[look].clients[s].listen);
    m := db.msgs[i];
    forall x | x in db.msgs && x.id == m.id
      ensures x == m
    {
      var j :| 0 <= j < |db.msgs| && db.msgs[j] == x;
      assert i == j;
    }
  }

  /** The recipient's half of the argument, for any lookup that comes before the query: the
      message is stored at the lookup, so a member's connection gets it with its backlog, or
      its user had read it. What the lookup finds, or whether it works, plays no part. */
  lemma LookupThenQuery(tr: seq<World>, acts: seq<Action>, look: nat, query: nat, c: nat, m: Message)
    requires Run(tr, acts) && look < query < |acts| && acts[query] == Conn(c, QueryBacklog(true))
    requires c < |tr[query].clients| && m in tr[look].db.msgs
    requires HasMember(tr[look].db, m.conv, tr[query].clients[c].user)
    ensures SeenByQuery(tr, query, c, m)
  {
    QueryStores(tr, acts, query, c);
    LaterQuerySees(tr, acts, look, query, m, tr[query].clients[c].user);
  }

  /** One node. Connection `c` of the recipient registers at step `reg` and queries its
      backlog successfully at `query`; the handler of `s` looks the recipient up at `look`.
      There is a stored message `m` with the id of the handler's frame, and if the recipient
      is a member of its conversation at the lookup: when the lookup comes before the query,
      `c` gets `m` with its backlog, or its user had read `m`; when it comes after, and `c`
      has kept its slot, the handler has pushed `m` to `c`'s `Send` or holds it to do so, at
      every later moment. */
  lemma NoGapOnOneNode(tr: seq<World>, acts: seq<Action>, reg: nat, query: nat, look: nat, c: nat, s: nat, later: nat)
    returns (m: Message)
    requires Run(tr, acts) && reg < |acts| && query < |acts| && look < later < |tr|
    requires acts[reg] == Conn(c, RegisterMap)
    requires acts[query] == Conn(c, QueryBacklog(true))
    requires acts[look] == Listen(s, DoFindLocal)
    requires c < |tr[reg].clients| && s < |tr[look].clients| && tr[look].clients[s].listen.FindLocal?
    requires tr[look].clients[s].node == tr[reg].clients[c].node
    requires tr[look].clients[s].listen.chat.to == tr[reg].clients[c].user
    requires query < look ==>
               forall k :: reg < k <= look ==> HasSlot(tr[k], tr[reg].clients[c].node, tr[reg].clients[c].user, c)
    ensures m in tr[look].db.msgs && m.id == tr[look].clients[s].listen.payload.msgId
    ensures HasMember(tr[look].db, m.conv, tr[reg].clients[c].user) && look < query ==> SeenByQuery(tr, query, c, m)
    ensures query <= look ==>
              OfferedBy(tr[later], s, c, tr[look].clients[s].listen.chat, tr[look].clients[s].listen.payload)
  {
    m := StoredAtLookup(tr, acts, look, s);
    QueryAfterRegister(tr, acts, reg, query, c);
    if look < query {
      if HasMember(tr[look].db, m.conv, tr[reg].clients[c].user) { LookupThenQuery(tr, acts, look, query, c, m); }
    } else {
      LookIsNotQuery(acts, look, query, s, c);
      assert HasSlot(tr[look], tr[reg].clients[c].node, tr[reg].clients[c].user, c);
      LookupHits(tr, acts, look, s, c);
      OfferedAlong(tr, acts, look + 1, later, s, c, tr[look].clients[s].listen.chat,
                   tr[look].clients[s].listen.payload);
    }
  }

  lemma LookIsNotQuery(acts: seq<Action>, look: nat, query: nat, s: nat, c: nat)
    requires look < |acts| && query < |acts| && acts[query] == Conn(c, QueryBacklog(true))
    requires acts[look].Listen?
    ensures look != query
  {
  }

  predicate HasSlot(w: World, n: nat, u: nat, c: nat) {
    n < |w.nodes| && u in w.nodes[n].registry && w.nodes[n].registry[u] == c
  }

  lemma QueryAfterRegister(tr: seq<World>, acts: seq<Action>, reg: nat, query: nat, c: nat)
    requires Run(tr, acts) && reg < |acts| && query < |acts|
    requires acts[reg] == Conn(c, RegisterMap) && acts[query] == Conn(c, QueryBacklog(true))
    ensures reg < query && c < |tr[reg].clients| && c < |tr[query].clients| && c < |tr[query + 1].clients|
    ensures tr[query].clients[c].user == tr[reg].clients[c].user && tr[query].clients[c].node == tr[reg].clients[c].node
    ensures tr[query + 1].clients[c].backlog == Some(Unread(tr[query].db, tr[query].clients[c].user))
  {
    QueryStores(tr, acts, query, c);
    RegisterIsFirst(tr, acts, reg, c);
    ProgramOrder(tr, acts, reg, query, c);
    GrowsAlong(tr, acts, reg, query);
  }

  lemma LookupHits(tr: seq<World>, acts: seq<Action>, look: nat, s: nat, c: nat)
    requires Run(tr, acts) && look < |acts| && acts[look] == Listen(s, DoFindLocal)
    requires s < |tr[look].clients| && tr[look].clients[s].listen.FindLocal?
    requires HasSlot(tr[look], tr[look].clients[s].node, tr[look].clients[s].listen.chat.to, c)
    ensures OfferedBy(tr[look + 1], s, c, tr[look].clients[s].listen.chat, tr[look].clients[s].listen.payload)
  {
    assert StepAt(tr, acts, look);
    Lifecycle.InvHolds(tr, acts, look);
    assert Lifecycle.SlotOk(tr[look], tr[look].clients[s].node, tr[look].clients[s].listen.chat.to, c);
  }

  // ------------------------------------------------------------ across nodes

  /** The subscriber of node `q` has record `x` in hand for `c` and pushes it next, or
      its payload has been pushed to `c`'s `Send`. */
  ghost predicate HandedBy(w: World, q: nat, c: nat, x: nat, p: Payload) {
    && q < |w.nodes| && c < |w.clients| && x < |w.forwards| && w.forwards[x].payload == p
    && (w.nodes[q].held == Some(Held(c, x)) || p in w.clients[c].offered)
  }

  lemma SubPushOffers(w: World, q: nat)
    requires SubHolds(w, q)
    ensures var h := w.nodes[q].held.value;
            h.client < |SubPushStep(w, q).clients|
            && w.forwards[h.forward].payload in SubPushStep(w, q).clients[h.client].offered
  {
    var h := w.nodes[q].held.value;
    var before, after := w.clients[h.client].offered, SubPushStep(w, q).clients[h.client].offered;
    assert after[|before|] == w.forwards[h.forward].payload;
  }

  lemma HandedStep(w: World, a: Action, q: nat, c: nat, x: nat, p: Payload)
    requires Enabled(w, a) && HandedBy(w, q, c, x, p)
    ensures HandedBy(Step(w, a), q, c, x, p)
  {
    StepFrame(w, a);
    if p in w.clients[c].offered {
      OffersOnlyGrow(w.clients[c].offered, Step(w, a).clients[c].offered, p);
    } else if a == SubPush(q) {
      SubPushOffers(w, q);
    }
  }

  lemma {:induction false} HandedAlong(tr: seq<World>, acts: seq<Action>, i: nat, j: nat, q: nat, c: nat, x: nat,
                                       p: Payload)
    requires Run(tr, acts) && i <= j < |tr| && HandedBy(tr[i], q, c, x, p)
    ensures HandedBy(tr[j], q, c, x, p)
    decreases j - i
  {
    if i < j {
      assert StepAt(tr, acts, j - 1);
      HandedAlong(tr, acts, i, j - 1, q, c, x, p);
      HandedStep(tr[j - 1], acts[j - 1], q, c, x, p);
    }
  }

  lemma FindNodeForwards(tr: seq<World>, acts: seq<Action>, find: nat, s: nat, name: string)
    requires Run(tr, acts) && find < |acts| && acts[find] == Listen(s, DoFindNode(true))
    requires s < |tr[find].clients| && tr[find].clients[s].listen.FindNode?
    requires tr[find].clients[s].node < |tr[find].nodes|
    requires PresenceOf(tr[find], tr[find].clients[s].listen.chat.to) == Some(name)
    requires name != tr[find].nodes[tr[find].clients[s].node].name
    ensures s < |tr[find + 1].clients|
    ensures var pc := tr[find].clients[s].listen;
            tr[find + 1].clients[s].listen == Forward(pc.chat, pc.payload, name)
  {
    assert StepAt(tr, acts, find);
  }

  lemma ForwardPublishes(tr: seq<World>, acts: seq<Action>, fwd: nat, s: nat)
    requires Run(tr, acts) && fwd < |acts| && acts[fwd] == Listen(s, DoForward(true, true))
    requires s < |tr[fwd].clients| && tr[fwd].clients[s].listen.Forward?
    ensures var pc := tr[fwd].clients[s].listen;
            tr[fwd + 1].forwards == tr[fwd].forwards + [ForwardMsg(pc.chat.to, pc.node, pc.payload)]
  {
    assert StepAt(tr, acts, fwd);
  }

  lemma ReceiveHands(tr: seq<World>, acts: seq<Action>, recv: nat, q: nat, u: nat, c: nat, p: Payload)
    requires Run(tr, acts) && recv < |acts| && acts[recv] == SubReceive(q)
    requires q < |tr[recv].nodes| && tr[recv].nodes[q].read < |tr[recv].forwards|
    requires tr[recv].forwards[tr[recv].nodes[q].read] == ForwardMsg(u, tr[recv].nodes[q].name, p)
    requires HasSlot(tr[recv], q, u, c) && c < |tr[recv].clients|
    ensures HandedBy(tr[recv + 1], q, c, tr[recv].nodes[q].read, p)
  {
    assert StepAt(tr, acts, recv);
  }

  /** The path of a record: the handler of `s`, told at `find` that the recipient is on `q`,
      publishes at `fwd` as its next step, and `q` consumes that record at `recv`. */
  ghost predicate RecordTravels(tr: seq<World>, acts: seq<Action>, find: nat, fwd: nat, recv: nat, q: nat, s: nat)
    requires |tr| == |acts| + 1
  {
    && find < fwd < recv < |acts|
    && acts[find] == Listen(s, DoFindNode(true)) && acts[fwd] == Listen(s, DoForward(true, true))
    && acts[recv] == SubReceive(q)
    && s < |tr[find].clients| && s < |tr[find + 1].clients| && s < |tr[fwd].clients|
    && tr[fwd].clients[s].listen == tr[find + 1].clients[s].listen
    && q < |tr[find].nodes| && tr[find].clients[s].node < |tr[find].nodes|
    && tr[find].nodes[tr[find].clients[s].node].name != tr[find].nodes[q].name
    && q < |tr[recv].nodes| && tr[recv].nodes[q].read == |tr[fwd].forwards|
  }

  /** The record published at `fwd` is the one node `q` consumes at `recv`, and names it. */
  lemma RecordReaches(tr: seq<World>, acts: seq<Action>, find: nat, fwd: nat, recv: nat, q: nat, u: nat, s: nat)
    requires Run(tr, acts) && RecordTravels(tr, acts, find, fwd, recv, q, s)
    requires tr[find].clients[s].listen.FindNode? && tr[find].clients[s].listen.chat.to == u
    requires PresenceOf(tr[find], u) == Some(tr[find].nodes[q].name)
    ensures q < |tr[recv].nodes| && |tr[fwd].forwards| < |tr[recv].forwards|
    ensures tr[recv].forwards[|tr[fwd].forwards|] ==
            ForwardMsg(u, tr[recv].nodes[q].name, tr[find].clients[s].listen.payload)
  {
    FindNodeForwards(tr, acts, find, s, tr[find].nodes[q].name);
    ForwardPublishes(tr, acts, fwd, s);
    GrowsAlong(tr, acts, find, recv);
    GrowsAlong(tr, acts, fwd + 1, recv);
  }

  /** Two nodes. The handler of `s` asks Redis for the recipient's node at `find`; connection
      `c` of the recipient, on node `q`, registers at `reg` and queries its backlog at `query`.
      A stored message `m` has the id of the frame, and if the recipient is a member at the
      lookup: when the lookup comes before the query, whatever Redis answers and also if it
      fails, `c` gets `m` with its backlog, or its user had read `m`; when it comes after,
      works, and meets the key of `q`, and the record travels while `c` keeps its slot, `q`
      has pushed `m` to `c`'s `Send` or holds it to do so, at every later moment. */
  lemma NoGapAcrossNodes(tr: seq<World>, acts: seq<Action>, reg: nat, query: nat, find: nat, ok: bool, fwd: nat,
                         recv: nat, c: nat, q: nat, u: nat, s: nat, later: nat)
    returns (m: Message)
    requires Run(tr, acts) && reg < |acts| && query < |acts| && find < |acts|
    requires acts[reg] == Conn(c, RegisterMap) && acts[query] == Conn(c, QueryBacklog(true))
    requires acts[find] == Listen(s, DoFindNode(ok))
    requires c < |tr[reg].clients| && tr[reg].clients[c].user == u && tr[reg].clients[c].node == q
    requires s < |tr[find].clients| && tr[find].clients[s].listen.FindNode? && tr[find].clients[s].listen.chat.to == u
    requires query < find ==>
               && RecordTravels(tr, acts, find, fwd, recv, q, s) && recv < later < |tr|
               && PresenceOf(tr[find], u) == Some(tr[find].nodes[q].name)
               && forall k :: reg < k <= recv ==> HasSlot(tr[k], q, u, c)
    ensures m in tr[find].db.msgs && m.id == tr[find].clients[s].listen.payload.msgId
    ensures HasMember(tr[find].db, m.conv, u) && find < query ==> SeenByQuery(tr, query, c, m)
    ensures query <= find ==>
              && recv < later < |tr|
              && HandedBy(tr[later], q, c, |tr[fwd].forwards|, tr[find].clients[s].listen.payload)
  {
    m := StoredAtLookup(tr, acts, find, s);
    QueryAfterRegister(tr, acts, reg, query, c);
    if find < query {
      if HasMember(tr[find].db, m.conv, u) { LookupThenQuery(tr, acts, find, query, c, m); }
    } else {
      LookIsNotQuery(acts, find, query, s, c);
      GrowsAlong(tr, acts, reg, recv);
      assert HasSlot(tr[recv], q, u, c);
      RecordReaches(tr, acts, find, fwd, recv, q, u, s);
      ReceiveHands(tr, acts, recv, q, u, c, tr[find].clients[s].listen.payload);
      HandedAlong(tr, acts, recv + 1, later, q, c, |tr[fwd].forwards|, tr[find].clients[s].listen.payload);
    }
  }
}
