/** At-least-once delivery to clients that acknowledge without gaps. */
module AtLeastOnce {
  import opened Basics
  import opened Store
  import opened Cluster
  import opened Frames
  import Conversations
  import Tables

  /** Some connection of `u` wrote this message to its socket. */
  predicate Received(w: World, u: nat, m: Message) {
    exists c, j :: 0 <= c < |w.clients| && 0 <= j < |w.clients[c].written| && WroteAt(w, c, j, u, m)
  }

  predicate WroteAt(w: World, c: nat, j: nat, u: nat, m: Message)
    requires c < |w.clients| && j < |w.clients[c].written|
  {
    w.clients[c].user == u && w.clients[c].written[j].msgId == m.id && w.clients[c].written[j].conv == m.conv
  }

  /** The cursor update a step executes, if any. */
  function Executes(w: World, a: Action): Option<Cursor> {
    if !a.Listen? || a.client >= |w.clients| then None
    else
      var cl := w.clients[a.client];
      match a.listen
      case DoAck(ok) => if ok && cl.listen.Acking? then Some(Cursor(cl.listen.conv, cl.user, cl.listen.msgId)) else None
      case DoMarkOwn(ok) =>
        if ok && cl.listen.MarkOwn? then Some(Cursor(cl.listen.conv, cl.user, cl.listen.row.id)) else None
      case _ => None
  }

  /** A cursor is moved to an id that was handed out, after every message of others up
      to it was received. */
  ghost predicate GapFree(w: World, a: Action) {
    Executes(w, a).Some? ==>
      var x := Executes(w, a).value;
      x.id < w.db.nextMsg
      && forall m :: m in w.db.msgs && m.conv == x.conv && m.sender != x.user && m.id <= x.id ==> Received(w, x.user, m)
  }

  /** What lies at or below a cursor has been received. */
  ghost predicate Inv(w: World) {
    && (forall i :: 0 <= i < |w.db.members| ==> w.db.members[i].lastRead < w.db.nextMsg)
    && (forall i, m :: 0 <= i < |w.db.members| && m in w.db.msgs && RowCovers(w.db.members[i], m) ==>
          Received(w, w.db.members[i].user, m))
  }

  predicate RowCovers(r: Member, m: Message) {
    r.conv == m.conv && r.user != m.sender && m.id <= r.lastRead
  }

  // ---------------------------------------------------------- preservation

  lemma ReceivedGrows(w: World, a: Action, w': World, u: nat, m: Message)
    requires Frame(w, a, w') && Received(w, u, m)
    ensures Received(w', u, m)
  {
    var c, j :| 0 <= c < |w.clients| && 0 <= j < |w.clients[c].written| && WroteAt(w, c, j, u, m);
    assert w'.clients[c].written[j] == w.clients[c].written[j];
    assert WroteAt(w', c, j, u, m);
  }

  /** How one step may change messages and cursors: cursors by the executed update
      only, and a new row of either table starts beyond the other. */
  ghost predicate CursorEffect(w: World, a: Action, w': World) {
    && w.db.nextMsg <= w'.db.nextMsg
    && (forall m :: m in w'.db.msgs ==> m in w.db.msgs || m.id >= w.db.nextMsg)
    && |w.db.members| <= |w'.db.members|
    && (forall i :: |w.db.members| <= i < |w'.db.members| ==> w'.db.members[i].lastRead == 0)
    && (forall i :: 0 <= i < |w.db.members| ==>
          w'.db.members[i] == if Executes(w, a).Some? then Bump(w.db.members[i], Executes(w, a).value)
                              else w.db.members[i])
  }

  lemma ListenCursorEffect(w: World, c: nat, e: ListenAct)
    requires Tables.StoreOk(w) && ListenEnabled(w, c, e)
    requires e.DoResolve? || e.DoPersist? || e.DoPublish? || e.DoMarkOwn? || e.DoAck?
    ensures CursorEffect(w, Listen(c, e), ListenStep(w, c, e))
  {
    match e
    case DoResolve(f) => ResolveCursorEffect(w, c, f);
    case DoPersist(f) => PersistCursorEffect(w, c, f);
    case DoPublish(direct, ok) =>
    case DoMarkOwn(ok) =>
    case DoAck(ok) =>
  }

  lemma ResolveCursorEffect(w: World, c: nat, f: Conversations.Faults)
    requires Tables.StoreOk(w) && Awake(w, c) && w.clients[c].listen.Resolve?
    ensures CursorEffect(w, Listen(c, DoResolve(f)), ResolveStep(w, c, f))
  {
    var u, t := w.clients[c].user, w.clients[c].listen.target;
    Conversations.ResolveKeepsSane(w.db, w.convCache, u, t, w.now, f);
    Conversations.ResolveAdds(w.db, w.convCache, u, t, w.now, f);
  }

  lemma PersistCursorEffect(w: World, c: nat, f: InsertFault)
    requires Tables.StoreOk(w) && Awake(w, c) && w.clients[c].listen.Persist?
    ensures CursorEffect(w, Listen(c, DoPersist(f)), PersistStep(w, c, f))
  {
  }

  lemma StepCursorEffect(w: World, a: Action)
    requires Tables.StoreOk(w) && Enabled(w, a)
    ensures CursorEffect(w, a, Step(w, a))
  {
    if a.Listen? && TouchesDb(a) {
      ListenCursorEffect(w, a.client, a.listen);
    } else if a.Env? && TouchesDb(a) {
      EnvCursorEffect(w, a.env);
    } else {
      StepFrame(w, a);
      QuietCursorEffect(w, a, Step(w, a));
    }
  }

  lemma EnvCursorEffect(w: World, e: EnvAct)
    requires EnvEnabled(w, e)
    ensures CursorEffect(w, Env(e), EnvStep(w, e))
  {
  }

  lemma QuietCursorEffect(w: World, a: Action, w': World)
    requires Frame(w, a, w') && !TouchesDb(a)
    ensures CursorEffect(w, a, w')
  {
  }

  lemma EffectKeeps(w: World, a: Action, w': World)
    requires Inv(w) && GapFree(w, a) && Frame(w, a, w') && CursorEffect(w, a, w')
    requires Tables.StoreOk(w) && Tables.StoreOk(w')
    ensures Inv(w')
  {
    forall i, m | 0 <= i < |w'.db.members| && m in w'.db.msgs && RowCovers(w'.db.members[i], m)
      ensures Received(w', w'.db.members[i].user, m)
    {
      assert i < |w.db.members| && m in w.db.msgs;
      if !RowCovers(w.db.members[i], m) {
        assert w'.db.members[i].lastRead == Executes(w, a).value.id;
      }
      ReceivedGrows(w, a, w', w.db.members[i].user, m);
    }
  }

  lemma InvStep(w: World, a: Action)
    requires Inv(w) && Enabled(w, a) && GapFree(w, a) && Tables.Inv(w)
    ensures Inv(Step(w, a))
  {
    Tables.InvStep(w, a);
    StepFrame(w, a);
    StepCursorEffect(w, a);
    EffectKeeps(w, a, Step(w, a));
  }

  lemma {:induction false} InvHolds(tr: seq<World>, acts: seq<Action>, k: nat)
    requires Run(tr, acts) && k < |tr|
    requires forall j :: 0 <= j < k ==> GapFree(tr[j], acts[j])
    ensures Inv(tr[k])
  {
    if k > 0 {
      assert StepAt(tr, acts, k - 1);
      InvHolds(tr, acts, k - 1);
      Tables.InvHolds(tr, acts, k - 1);
      InvStep(tr[k - 1], acts[k - 1]);
    }
  }

  // --------------------------------------------------------------- theorem

  /** If every cursor update so far was gap-free, each stored message addressed to `u`
      has been written to one of the user's sockets or is still in the backlog. */
  lemma AtLeastOnceDelivery(tr: seq<World>, acts: seq<Action>, k: nat, m: Message, u: nat)
    requires Run(tr, acts) && k < |tr|
    requires forall j :: 0 <= j < k ==> GapFree(tr[j], acts[j])
    requires m in tr[k].db.msgs && HasMember(tr[k].db, m.conv, u) && m.sender != u
    ensures Received(tr[k], u, m) || m in Unread(tr[k].db, u)
  {
    InvHolds(tr, acts, k);
    Tables.InvHolds(tr, acts, k);
    var db := tr[k].db;
    UnreadExactly(db, db.msgs, u, m);
    var i :| 0 <= i < |db.members| && db.members[i].conv == m.conv && db.members[i].user == u;
    if !Leaves(db.members[i], m, u) { assert RowCovers(db.members[i], m); }
  }

  // ------------------------------------------ what one cursor update may cost

  /** Every message to `u` was received or will be pushed again. */
  ghost predicate Safe(w: World, u: nat) {
    forall m :: m in w.db.msgs && HasMember(w.db, m.conv, u) && m.sender != u ==>
      Received(w, u, m) || m in Unread(w.db, u)
  }

  /** No cursor of `u` has reached an id that is still to be handed out, so that the
      next message to `u` will be unread as well. */
  ghost predicate Behind(db: Db, u: nat) {
    forall i :: 0 <= i < |db.members| && db.members[i].user == u ==> db.members[i].lastRead < db.nextMsg
  }

  ghost predicate Secure(w: World, u: nat) {
    Safe(w, u) && Behind(w.db, u)
  }

  /** The update passes over this message of somebody else. */
  predicate Skips(x: Cursor, m: Message) {
    m.conv == x.conv && m.id <= x.id && m.sender != x.user
  }

  /** The update stays below the next id, unless it finds no row to update, and skips no
      unread message of others that was never written to a socket of its user. */
  ghost predicate Harmless(w: World, x: Cursor) {
    && (HasMember(w.db, x.conv, x.user) ==> x.id < w.db.nextMsg)
    && (forall m :: m in Unread(w.db, x.user) && Skips(x, m) ==> Received(w, x.user, m))
  }

  /** What a step that executes `x` leaves: the tables but for the cursors, the sockets. */
  ghost predicate Advanced(w: World, x: Cursor, w': World) {
    && w'.db == UpdateLastRead(w.db, x)
    && |w'.clients| == |w.clients|
    && forall d :: 0 <= d < |w.clients| ==>
         w'.clients[d].written == w.clients[d].written && w'.clients[d].user == w.clients[d].user
  }

  lemma ExecutesAdvances(w: World, a: Action)
    requires Enabled(w, a) && Executes(w, a).Some?
    ensures Advanced(w, Executes(w, a).value, Step(w, a))
  {
    match a.listen
    case DoAck(ok) => assert Step(w, a) == AckStep(w, a.client, ok);
    case DoMarkOwn(ok) => assert Step(w, a) == MarkOwnStep(w, a.client, ok);
  }

  lemma AdvanceSame(w: World, x: Cursor, w': World, m: Message)
    requires Advanced(w, x, w')
    ensures Received(w', x.user, m) <==> Received(w, x.user, m)
    ensures HasMember(w'.db, m.conv, x.user) <==> HasMember(w.db, m.conv, x.user)
    ensures m in Unread(w'.db, x.user) <==> m in Unread(w.db, x.user) && !(m.conv == x.conv && m.id <= x.id)
  {
    AckRemovesExactly(w.db, x, x.user, m);
    assert forall d, j :: 0 <= d < |w.clients| && 0 <= j < |w.clients[d].written| ==>
      WroteAt(w', d, j, x.user, m) == WroteAt(w, d, j, x.user, m);
    assert forall i :: 0 <= i < |w.db.members| ==>
             w'.db.members[i].conv == w.db.members[i].conv && w'.db.members[i].user == w.db.members[i].user;
  }

  lemma AdvanceBehind(w: World, x: Cursor, w': World)
    requires Advanced(w, x, w') && Behind(w.db, x.user)
    ensures Behind(w'.db, x.user) <==> (HasMember(w.db, x.conv, x.user) ==> x.id < w.db.nextMsg)
  {
    assert forall i :: 0 <= i < |w.db.members| ==> w'.db.members[i] == Bump(w.db.members[i], x);
    if HasMember(w.db, x.conv, x.user) && x.id >= w.db.nextMsg {
      var i :| 0 <= i < |w.db.members| && w.db.members[i].conv == x.conv && w.db.members[i].user == x.user;
      assert w'.db.members[i].lastRead == x.id;
    }
  }

  lemma AdvanceSafe(w: World, x: Cursor, w': World)
    requires Advanced(w, x, w') && Safe(w, x.user)
    ensures Safe(w', x.user) <==> forall m :: m in Unread(w.db, x.user) && Skips(x, m) ==> Received(w, x.user, m)
  {
    forall m
      ensures Received(w', x.user, m) <==> Received(w, x.user, m)
      ensures HasMember(w'.db, m.conv, x.user) <==> HasMember(w.db, m.conv, x.user)
      ensures m in Unread(w'.db, x.user) <==> m in Unread(w.db, x.user) && !(m.conv == x.conv && m.id <= x.id)
    {
      AdvanceSame(w, x, w', m);
    }
    if Safe(w', x.user) {
      forall m | m in Unread(w.db, x.user) && Skips(x, m)
        ensures Received(w, x.user, m)
      {
        UnreadExactly(w.db, w.db.msgs, x.user, m);
      }
    }
  }

  /** The exact price of one cursor update, ack or own send: it keeps every message to
      its user, stored or still to come, safe if and only if it is harmless. */
  lemma UpdateIsSafeExactly(w: World, a: Action)
    requires Enabled(w, a) && Executes(w, a).Some? && Secure(w, Executes(w, a).value.user)
    ensures Secure(Step(w, a), Executes(w, a).value.user) <==> Harmless(w, Executes(w, a).value)
  {
    var x := Executes(w, a).value;
    ExecutesAdvances(w, a);
    AdvanceBehind(w, x, Step(w, a));
    AdvanceSafe(w, x, Step(w, a));
  }

  /** This step is no cursor update of `u`, or a harmless one. */
  ghost predicate Spares(w: World, a: Action, u: nat) {
    Executes(w, a).Some? && Executes(w, a).value.user == u ==> Harmless(w, Executes(w, a).value)
  }

  lemma EffectKeepsSecure(w: World, a: Action, w': World, u: nat)
    requires Secure(w, u) && Frame(w, a, w') && CursorEffect(w, a, w') && Tables.StoreOk(w) && Tables.StoreOk(w')
    requires Executes(w, a).Some? ==> Executes(w, a).value.user != u
    ensures Secure(w', u)
  {
    forall m | m in w'.db.msgs && HasMember(w'.db, m.conv, u) && m.sender != u
      ensures Received(w', u, m) || m in Unread(w'.db, u)
    {
      UnreadExactly(w'.db, w'.db.msgs, u, m);
      var i :| 0 <= i < |w'.db.members| && w'.db.members[i].conv == m.conv && w'.db.members[i].user == u;
      if !Leaves(w'.db.members[i], m, u) {
        KeptMessage(w, a, w', u, m, i);
      }
    }
  }

  /** A message a row covers after the step was covered by that row before. */
  lemma KeptMessage(w: World, a: Action, w': World, u: nat, m: Message, i: nat)
    requires Secure(w, u) && Frame(w, a, w') && CursorEffect(w, a, w') && Tables.StoreOk(w) && Tables.StoreOk(w')
    requires Executes(w, a).Some? ==> Executes(w, a).value.user != u
    requires i < |w'.db.members| && w'.db.members[i].conv == m.conv && w'.db.members[i].user == u
    requires m.id <= w'.db.members[i].lastRead
    requires m in w'.db.msgs && m.sender != u
    ensures Received(w', u, m) || m in Unread(w'.db, u)
  {
    assert i < |w.db.members| && w.db.members[i] == w'.db.members[i] && m in w.db.msgs;
    assert HasMember(w.db, m.conv, u);
    if Received(w, u, m) { ReceivedGrows(w, a, w', u, m); } else { StaysUnread(w, a, w', u, m); }
  }

  lemma StaysUnread(w: World, a: Action, w': World, u: nat, m: Message)
    requires CursorEffect(w, a, w') && Tables.StoreOk(w') && m in Unread(w.db, u) && m in w'.db.msgs
    requires Executes(w, a).Some? ==> Executes(w, a).value.user != u
    ensures m in Unread(w'.db, u)
  {
    UnreadExactly(w.db, w.db.msgs, u, m);
    UnreadExactly(w'.db, w'.db.msgs, u, m);
    var j :| 0 <= j < |w.db.members| && Leaves(w.db.members[j], m, u);
    assert Leaves(w'.db.members[j], m, u);
  }

  lemma SecureStep(w: World, a: Action, u: nat)
    requires Enabled(w, a) && Tables.Inv(w) && Secure(w, u)
    ensures Secure(Step(w, a), u) <==> Spares(w, a, u)
  {
    if Executes(w, a).Some? && Executes(w, a).value.user == u {
      UpdateIsSafeExactly(w, a);
    } else {
      Tables.InvStep(w, a);
      StepFrame(w, a);
      StepCursorEffect(w, a);
      EffectKeepsSecure(w, a, Step(w, a), u);
    }
  }

  lemma SecureAt(tr: seq<World>, acts: seq<Action>, i: nat, u: nat)
    requires Run(tr, acts) && i < |acts| && Secure(tr[i], u)
    ensures Secure(tr[i + 1], u) <==> Spares(tr[i], acts[i], u)
  {
    assert StepAt(tr, acts, i);
    Tables.InvHolds(tr, acts, i);
    SecureStep(tr[i], acts[i], u);
  }

  /** At-least-once delivery to one user, exactly: along a run every message to `u` is at
      all times written to one of the user's sockets or in the backlog, with no cursor
      ahead of the messages, if and only if every cursor update of `u` in it is
      harmless when it is executed. */
  lemma {:induction false} AtLeastOnceExactly(tr: seq<World>, acts: seq<Action>, k: nat, u: nat)
    requires Run(tr, acts) && k < |tr|
    ensures (forall i :: 0 <= i <= k ==> Secure(tr[i], u)) <==> (forall i :: 0 <= i < k ==> Spares(tr[i], acts[i], u))
  {
    if k > 0 {
      AtLeastOnceExactly(tr, acts, k - 1, u);
      if forall i :: 0 <= i <= k - 1 ==> Secure(tr[i], u) { SecureAt(tr, acts, k - 1, u); }
    }
  }
}
