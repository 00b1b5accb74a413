/** What the presence keys can be trusted for: not that the user is connected, but that
    the node they name has accepted a connection of that user. Forwards inherit it. */
module Addressing {
  import opened Cluster
  import opened Frames

  /** A connection of `u` was opened on the node called `name`. */
  ghost predicate Served(w: World, u: nat, name: string) {
    exists c :: 0 <= c < |w.clients| && ServedBy(w, c, u, name)
  }

  predicate ServedBy(w: World, c: nat, u: nat, name: string)
    requires c < |w.clients|
  {
    w.clients[c].user == u && w.clients[c].node < |w.nodes| && w.nodes[w.clients[c].node].name == name
  }

  ghost predicate Inv(w: World) {
    && (forall u :: u in w.presence ==> Served(w, u, w.presence[u].node))
    && (forall c :: 0 <= c < |w.clients| && w.clients[c].listen.Forward? ==>
          Served(w, w.clients[c].listen.chat.to, w.clients[c].listen.node))
    && (forall f :: 0 <= f < |w.forwards| ==> Served(w, w.forwards[f].user, w.forwards[f].node))
  }

  lemma ServedGrows(w: World, w': World, u: nat, name: string)
    requires Grows(w, w') && Served(w, u, name)
    ensures Served(w', u, name)
  {
    var c :| 0 <= c < |w.clients| && ServedBy(w, c, u, name);
    assert ServedBy(w', c, u, name);
  }

  /** Where the keys after a step come from. */
  ghost predicate KeysFrom(w: World, w': World) {
    forall u :: u in w'.presence ==>
      || (u in w.presence && w'.presence[u].node == w.presence[u].node)
      || Served(w, u, w'.presence[u].node)
  }

  lemma KeysStep(w: World, a: Action)
    requires Enabled(w, a)
    ensures KeysFrom(w, Step(w, a))
  {
    match a
    case Conn(c, e) => ConnKeys(w, c, e);
    case Listen(c, e) => ListenKeys(w, c, e);
    case _ =>
  }

  lemma ConnKeys(w: World, c: nat, e: ConnectAct)
    requires ConnEnabled(w, c, e)
    ensures KeysFrom(w, ConnStep(w, c, e))
  {
    assert ServedBy(w, c, w.clients[c].user, w.nodes[w.clients[c].node].name);
  }

  lemma ListenKeys(w: World, c: nat, e: ListenAct)
    requires ListenEnabled(w, c, e)
    ensures KeysFrom(w, ListenStep(w, c, e))
  {
  }

  /** Only a live key lets a handler forward, and only a handler in `Forward` publishes. */
  ghost predicate ForwardsFrom(w: World, c: nat, w': World) {
    && c < |w.clients| && c < |w'.clients|
    && (w'.clients[c].listen.Forward? ==>
          var pc := w'.clients[c].listen;
          w.clients[c].listen == pc || (pc.chat.to in w.presence && pc.node == w.presence[pc.chat.to].node))
    && forall f :: |w.forwards| <= f < |w'.forwards| ==>
         w.clients[c].listen.Forward? && w'.forwards[f].user == w.clients[c].listen.chat.to
         && w'.forwards[f].node == w.clients[c].listen.node
  }

  lemma ListenForwards(w: World, c: nat, e: ListenAct)
    requires ListenEnabled(w, c, e)
    ensures ForwardsFrom(w, c, ListenStep(w, c, e))
  {
  }

  lemma ConnForwards(w: World, c: nat, e: ConnectAct)
    requires ConnEnabled(w, c, e)
    ensures ForwardsFrom(w, c, ConnStep(w, c, e)) && ConnStep(w, c, e).forwards == w.forwards
  {
  }

  lemma QuietForwards(w: World, a: Action)
    requires Enabled(w, a) && Mover(a) < 0
    ensures Step(w, a).forwards == w.forwards
  {
    match a
    case Env(e) => EnvForwards(w, e);
    case _ =>
  }

  lemma EnvForwards(w: World, e: EnvAct)
    requires EnvEnabled(w, e)
    ensures EnvStep(w, e).forwards == w.forwards
  {
  }

  lemma InvStep(w: World, a: Action)
    requires Inv(w) && Enabled(w, a)
    ensures Inv(Step(w, a))
  {
    StepFrame(w, a);
    KeysStep(w, a);
    match a {
      case Conn(c, e) => ConnForwards(w, c, e);
      case Listen(c, e) => ListenForwards(w, c, e);
      case _ => QuietForwards(w, a);
    }
    Keeps(w, a, Step(w, a));
  }

  lemma Keeps(w: World, a: Action, w': World)
    requires Inv(w) && Frame(w, a, w') && KeysFrom(w, w')
    requires Mover(a) >= 0 ==> ForwardsFrom(w, Mover(a), w')
    requires Mover(a) < 0 ==> w'.forwards == w.forwards
    ensures Inv(w')
  {
    forall u | u in w'.presence
      ensures Served(w', u, w'.presence[u].node)
    {
      ServedGrows(w, w', u, w'.presence[u].node);
    }
    forall c | 0 <= c < |w'.clients| && w'.clients[c].listen.Forward?
      ensures Served(w', w'.clients[c].listen.chat.to, w'.clients[c].listen.node)
    {
      if c != Mover(a) { assert OnlyOffered(w.clients[c], w'.clients[c]); }
      ServedGrows(w, w', w'.clients[c].listen.chat.to, w'.clients[c].listen.node);
    }
    forall f | 0 <= f < |w'.forwards|
      ensures Served(w', w'.forwards[f].user, w'.forwards[f].node)
    {
      ServedGrows(w, w', w'.forwards[f].user, w'.forwards[f].node);
    }
  }

  lemma {:induction false} InvHolds(tr: seq<World>, acts: seq<Action>, k: nat)
    requires Run(tr, acts) && k < |tr|
    ensures Inv(tr[k])
  {
    if k > 0 {
      assert StepAt(tr, acts, k - 1);
      InvHolds(tr, acts, k - 1);
      InvStep(tr[k - 1], acts[k - 1]);
    }
  }

  /** In every reachable state a presence key, and every record ever published to the
      channel, names a node on which its user has opened a connection. */
  lemma AddressingTheorem(tr: seq<World>, acts: seq<Action>, k: nat)
    requires Run(tr, acts) && k < |tr|
    ensures forall u :: u in tr[k].presence ==> Served(tr[k], u, tr[k].presence[u].node)
    ensures forall f :: 0 <= f < |tr[k].forwards| ==> Served(tr[k], tr[k].forwards[f].user, tr[k].forwards[f].node)
  {
    InvHolds(tr, acts, k);
  }
}
