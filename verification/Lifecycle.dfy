/** Connection lifecycle over all interleavings of register, takeover, kick and
    teardown: who may be in a registry, when `Send` is closed, and what the online
    gauge counts. */
module Lifecycle {
  import opened Cluster
  import opened Frames

  // ------------------------------------------------------------- invariant

  /** Not yet past the locked region of its own teardown. */
  predicate Entitled(w: World, cl: Client) {
    match cl.listen
    case Leaving(k) => k < |w.unregs| && w.unregs[k].pc.Checking?
    case Closing => false
    case Finished => false
    case _ => true
  }

  ghost predicate SlotOk(w: World, n: nat, u: nat, c: nat) {
    && c < |w.clients|
    && w.clients[c].user == u
    && w.clients[c].node == n
    && !w.clients[c].pc.Upgraded?
    && Entitled(w, w.clients[c])
  }

  predicate Starting(pc: ConnectPc) {
    pc.Upgraded? || pc.Mapped? || pc.Announced? || pc.Counted? || pc.Pushing?
  }

  ghost predicate ClientOk(w: World, c: nat)
    requires c < |w.clients|
  {
    var cl := w.clients[c];
    && cl.node < |w.nodes|
    && (Starting(cl.pc) <==> cl.listen.NotStarted?)
    && cl.closes == (if cl.listen.Finished? then 1 else 0)
    && (cl.listen.Leaving? ==> cl.listen.unreg < |w.unregs| && w.unregs[cl.listen.unreg].client == c)
    && (cl.listen.Push? ==> cl.listen.client < |w.clients| && w.clients[cl.listen.client].user == cl.listen.chat.to
                            && w.clients[cl.listen.client].node == cl.node && !w.clients[cl.listen.client].pc.Upgraded?)
  }

  ghost predicate UnregOk(w: World, t: Unreg) {
    && t.client < |w.clients|
    && w.clients[t.client].user == t.user
    && w.clients[t.client].node == t.node
    && t.node < |w.nodes|
    && !w.clients[t.client].pc.Upgraded?
  }

  ghost predicate NodeOk(w: World, n: nat)
    requires n < |w.nodes|
  {
    var node := w.nodes[n];
    && node.read <= |w.forwards|
    && (node.held.Some? ==>
          && node.held.value.forward < |w.forwards|
          && node.held.value.client < |w.clients|
          && w.clients[node.held.value.client].user == w.forwards[node.held.value.forward].user
          && w.clients[node.held.value.client].node == n
          && !w.clients[node.held.value.client].pc.Upgraded?)
  }

  ghost predicate Slots(w: World) {
    forall n, u :: 0 <= n < |w.nodes| && u in w.nodes[n].registry ==> SlotOk(w, n, u, w.nodes[n].registry[u])
  }

  ghost predicate Clients(w: World) {
    forall c :: 0 <= c < |w.clients| ==> ClientOk(w, c)
  }

  ghost predicate Unregs(w: World) {
    forall k :: 0 <= k < |w.unregs| ==> UnregOk(w, w.unregs[k])
  }

  ghost predicate Nodes(w: World) {
    forall n :: 0 <= n < |w.nodes| ==> NodeOk(w, n)
  }

  ghost predicate Inv(w: World) {
    Slots(w) && Clients(w) && Unregs(w) && Nodes(w)
  }

  // ---------------------------------------------------------- preservation

  lemma {:induction false} InvHolds(tr: seq<World>, acts: seq<Action>, k: nat)
    requires Run(tr, acts) && k < |tr|
    ensures Inv(tr[k])
  {
    if k > 0 {
      assert StepAt(tr, acts, k - 1);
      InvHolds(tr, acts, k - 1);
      InvStep(tr[k - 1], acts[k - 1]);
    }
  }

  lemma InvStep(w: World, a: Action)
    requires Inv(w) && Enabled(w, a)
    ensures Inv(Step(w, a))
  {
    StepFrame(w, a);
    var w' := Step(w, a);
    match a {
      case Conn(c, e) => ConnMoverKeeps(w, c, e);
      case Listen(c, e) => ListenMoverKeeps(w, c, e);
      case _ =>
    }
    forall d | 0 <= d < |w'.clients|
      ensures ClientOk(w', d)
    {
      if d != Mover(a) { ClientStays(w, a, w', d); }
    }
    NewUnregs(w, a);
    forall k | 0 <= k < |w'.unregs|
      ensures UnregOk(w', w'.unregs[k])
    {
      UnregStays(w, a, w', k);
    }
    forall n | 0 <= n < |w'.nodes|
      ensures NodeOk(w', n)
    {
      if a == SubReceive(n) { SubReceiveKeeps(w, n); }
      else if a == SubPush(n) { SubPushKeeps(w, n); }
      else if a == SubLose(n) { SubLoseKeeps(w, n); }
      else { NodeStays(w, a, w', n); }
    }
    SlotsKeep(w, a);
  }

  lemma ClientStays(w: World, a: Action, w': World, d: nat)
    requires Frame(w, a, w') && Clients(w) && d < |w'.clients| && d != Mover(a)
    ensures ClientOk(w', d)
  {
    if d < |w.clients| {
      assert ClientOk(w, d);
      assert OnlyOffered(w.clients[d], w'.clients[d]);
    }
  }

  /** A teardown or a kick starts only for a connection that has registered. */
  ghost predicate NewUnregsOk(w: World, w': World) {
    forall k :: |w.unregs| <= k < |w'.unregs| ==>
      w'.unregs[k].client < |w.clients| && !w.clients[w'.unregs[k].client].pc.Upgraded?
  }

  lemma NewUnregs(w: World, a: Action)
    requires Inv(w) && Enabled(w, a)
    ensures NewUnregsOk(w, Step(w, a))
  {
    match a
    case Listen(c, e) => assert ClientOk(w, c); ListenUnregs(w, c, e);
    case SubPush(n) => assert NodeOk(w, n); SubPushUnregs(w, n);
    case _ => QuietUnregs(w, a);
  }

  lemma ListenUnregs(w: World, c: nat, e: ListenAct)
    requires ListenEnabled(w, c, e) && ClientOk(w, c)
    ensures NewUnregsOk(w, ListenStep(w, c, e))
  {
  }

  lemma SubPushUnregs(w: World, n: nat)
    requires SubHolds(w, n) && NodeOk(w, n)
    ensures NewUnregsOk(w, SubPushStep(w, n))
  {
  }

  lemma QuietUnregs(w: World, a: Action)
    requires Enabled(w, a) && !a.Listen? && !a.SubPush?
    ensures |Step(w, a).unregs| == |w.unregs|
  {
    if a.Conn? { ConnUnregs(w, a.client, a.conn); }
  }

  lemma ConnUnregs(w: World, c: nat, e: ConnectAct)
    requires ConnEnabled(w, c, e)
    ensures ConnStep(w, c, e).unregs == w.unregs
  {
  }

  lemma UnregStays(w: World, a: Action, w': World, k: nat)
    requires Frame(w, a, w') && Clients(w) && Unregs(w) && k < |w'.unregs| && NewUnregsOk(w, w')
    ensures UnregOk(w', w'.unregs[k])
  {
    if k < |w.unregs| {
      assert UnregOk(w, w.unregs[k]);
      assert w'.unregs[k].(pc := w.unregs[k].pc) == w.unregs[k];
    } else {
      assert ClientOk(w, w'.unregs[k].client);
    }
  }

  lemma NodeStays(w: World, a: Action, w': World, n: nat)
    requires Frame(w, a, w') && Nodes(w) && n < |w'.nodes|
    requires a != SubReceive(n) && a != SubPush(n) && a != SubLose(n)
    ensures NodeOk(w', n)
  {
    assert NodeOk(w, n);
  }

  lemma ConnMoverKeeps(w: World, c: nat, e: ConnectAct)
    requires Inv(w) && ConnEnabled(w, c, e)
    ensures ClientOk(ConnStep(w, c, e), c)
  {
    assert ClientOk(w, c);
  }

  lemma ListenMoverKeeps(w: World, c: nat, e: ListenAct)
    requires Inv(w) && ListenEnabled(w, c, e)
    ensures ClientOk(ListenStep(w, c, e), c)
  {
    match e
    case DoFindLocal => FindLocalKeeps(w, c);
    case DoPush => PushKeeps(w, c);
    case _ => OtherListenKeeps(w, c, e);
  }

  lemma FindLocalKeeps(w: World, c: nat)
    requires Inv(w) && ListenEnabled(w, c, DoFindLocal)
    ensures ClientOk(FindLocalStep(w, c), c)
  {
    assert ClientOk(w, c);
    var cl := w.clients[c];
    if cl.listen.chat.to in w.nodes[cl.node].registry {
      assert SlotOk(w, cl.node, cl.listen.chat.to, w.nodes[cl.node].registry[cl.listen.chat.to]);
    }
  }

  lemma PushKeeps(w: World, c: nat)
    requires Inv(w) && ListenEnabled(w, c, DoPush)
    ensures ClientOk(PushStep(w, c), c)
  {
    assert ClientOk(w, c);
  }

  lemma OtherListenKeeps(w: World, c: nat, e: ListenAct)
    requires Inv(w) && ListenEnabled(w, c, e) && !e.DoFindLocal? && !e.DoPush?
    ensures ClientOk(ListenStep(w, c, e), c)
  {
    assert ClientOk(w, c);
  }

  lemma SubReceiveKeeps(w: World, n: nat)
    requires Inv(w) && SubIdle(w, n)
    ensures NodeOk(SubReceiveStep(w, n), n)
  {
    var f := w.forwards[w.nodes[n].read];
    if f.user in w.nodes[n].registry {
      assert SlotOk(w, n, f.user, w.nodes[n].registry[f.user]);
    }
  }

  lemma SubPushKeeps(w: World, n: nat)
    requires Inv(w) && SubHolds(w, n)
    ensures NodeOk(SubPushStep(w, n), n)
  {
    assert NodeOk(w, n);
  }

  lemma SubLoseKeeps(w: World, n: nat)
    requires Inv(w) && SubIdle(w, n)
    ensures NodeOk(SubLoseStep(w, n), n)
  {
    assert NodeOk(w, n);
  }

  // ------------------------------------------------------------- registries

  lemma SlotsKeep(w: World, a: Action)
    requires Inv(w) && Enabled(w, a)
    ensures Slots(Step(w, a))
  {
    StepFrame(w, a);
    match a
    case Conn(c, e) =>
      if e.RegisterMap? { RegisterMapSlots(w, c); } else { ConnEntitled(w, c, e); SlotsStay(w, a, ConnStep(w, c, e)); }
    case Listen(c, e) => ListenEntitled(w, c, e); SlotsStay(w, a, ListenStep(w, c, e));
    case UnregCheck(k) => UnregCheckSlots(w, k);
    case _ => SlotsStay(w, a, Step(w, a));
  }

  lemma SlotStays(w: World, a: Action, w': World, n: nat, u: nat)
    requires Inv(w) && Frame(w, a, w')
    requires !(a.Conn? && a.conn.RegisterMap?) && !a.UnregCheck?
    requires UnregMover(a) >= 0 ==> UnregMover(a) < |w.unregs| && !w.unregs[UnregMover(a)].pc.Checking?
    requires Mover(a) >= 0 ==> Mover(a) < |w.clients| && StaysEntitled(w, w', Mover(a))
    requires n < |w'.nodes| && u in w'.nodes[n].registry
    ensures SlotOk(w', n, u, w'.nodes[n].registry[u])
  {
    var c := w.nodes[n].registry[u];
    assert SlotOk(w, n, u, c);
    if c != Mover(a) {
      assert OnlyOffered(w.clients[c], w'.clients[c]);
    }
  }

  /** No other step removes an entitlement that a registry relies on. */
  lemma SlotsStay(w: World, a: Action, w': World)
    requires Inv(w) && Frame(w, a, w')
    requires !(a.Conn? && a.conn.RegisterMap?) && !a.UnregCheck?
    requires UnregMover(a) >= 0 ==> UnregMover(a) < |w.unregs| && !w.unregs[UnregMover(a)].pc.Checking?
    requires Mover(a) >= 0 ==> Mover(a) < |w.clients| && StaysEntitled(w, w', Mover(a))
    ensures Slots(w')
  {
    forall n, u | 0 <= n < |w'.nodes| && u in w'.nodes[n].registry
      ensures SlotOk(w', n, u, w'.nodes[n].registry[u])
    {
      SlotStays(w, a, w', n, u);
    }
  }

  predicate StaysEntitled(w: World, w': World, c: nat) {
    c < |w.clients| && c < |w'.clients| &&
    (Entitled(w, w.clients[c]) && !w.clients[c].pc.Upgraded? ==>
       Entitled(w', w'.clients[c]) && !w'.clients[c].pc.Upgraded?)
  }

  lemma ConnEntitled(w: World, c: nat, e: ConnectAct)
    requires Inv(w) && ConnEnabled(w, c, e)
    ensures StaysEntitled(w, ConnStep(w, c, e), c)
  {
    assert ClientOk(w, c);
  }

  lemma ListenEntitled(w: World, c: nat, e: ListenAct)
    requires Inv(w) && ListenEnabled(w, c, e)
    ensures StaysEntitled(w, ListenStep(w, c, e), c)
  {
    assert ClientOk(w, c);
  }

  lemma RegisterMapSlots(w: World, c: nat)
    requires Inv(w) && ConnEnabled(w, c, RegisterMap)
    ensures Slots(RegisterMapStep(w, c))
  {
    var w' := RegisterMapStep(w, c);
    assert ClientOk(w, c);
    forall n, u | 0 <= n < |w'.nodes| && u in w'.nodes[n].registry
      ensures SlotOk(w', n, u, w'.nodes[n].registry[u])
    {
      if w'.nodes[n].registry[u] != c {
        assert SlotOk(w, n, u, w.nodes[n].registry[u]);
      }
    }
  }

  /** After the locked check the connection is in no registry, whatever it found. */
  lemma UnregCheckSlots(w: World, k: nat)
    requires Inv(w) && UnregEnabled(w, k, Checking)
    ensures Slots(UnregCheckStep(w, k))
  {
    var w' := UnregCheckStep(w, k);
    assert UnregOk(w, w.unregs[k]);
    forall n, u | 0 <= n < |w'.nodes| && u in w'.nodes[n].registry
      ensures SlotOk(w', n, u, w'.nodes[n].registry[u])
    {
      var c := w.nodes[n].registry[u];
      assert SlotOk(w, n, u, c);
      assert ClientOk(w, c);
    }
  }

  // --------------------------------------------------------------- theorems

  /** In every reachable state: `Send` is closed at most once, a connection whose
      `Send` is closed is in no registry, and each registry slot holds a connection
      of that user on that node. */
  lemma RegistryTheorem(tr: seq<World>, acts: seq<Action>, k: nat)
    requires Run(tr, acts) && k < |tr|
    ensures forall c :: 0 <= c < |tr[k].clients| ==> tr[k].clients[c].closes <= 1
    ensures forall n, u :: 0 <= n < |tr[k].nodes| && u in tr[k].nodes[n].registry ==>
              var c := tr[k].nodes[n].registry[u];
              c < |tr[k].clients| && tr[k].clients[c].user == u && tr[k].clients[c].node == n
              && tr[k].clients[c].closes == 0
  {
    InvHolds(tr, acts, k);
    var w := tr[k];
    forall c | 0 <= c < |w.clients|
      ensures w.clients[c].closes <= 1
    {
      assert ClientOk(w, c);
    }
    forall n, u | 0 <= n < |w.nodes| && u in w.nodes[n].registry
      ensures var c := w.nodes[n].registry[u];
              c < |w.clients| && w.clients[c].user == u && w.clients[c].node == n && w.clients[c].closes == 0
    {
      var c := w.nodes[n].registry[u];
      assert SlotOk(w, n, u, c);
      assert ClientOk(w, c);
    }
  }

  /** One check that does not find its connection in the slot changes nothing. */
  lemma StaleCheckIsInert(w: World, k: nat)
    requires UnregEnabled(w, k, Checking) && !HoldsSlot(w, w.unregs[k])
    ensures var w' := UnregCheckStep(w, k);
            w'.nodes == w.nodes && w'.presence == w.presence && w'.unregs[k].pc.Gone?
  {
    var w', n := UnregCheckStep(w, k), w.unregs[k].node;
    assert w'.nodes[n] == w.nodes[n];
    assert forall i :: 0 <= i < |w.nodes| ==> w'.nodes[i] == w.nodes[i];
    assert w'.nodes == w.nodes;
  }
}
