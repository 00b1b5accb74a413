/** Two races the registry invariant does not prevent: between a push and the teardown
    of its target, whose closed channel makes the sender panic, and between two
    connections of one user over the presence key. */
module Race {
  import opened Cluster
  import opened Paths
  import Lifecycle

  /** In every reachable state a handler about to push panics exactly when the reader of
      its target has finished its teardown. */
  lemma PushPanicsExactly(tr: seq<World>, acts: seq<Action>, k: nat, s: nat)
    requires Run(tr, acts) && k < |tr| && Awake(tr[k], s) && tr[k].clients[s].listen.Push?
    ensures var t := tr[k].clients[s].listen.client;
            && t < |tr[k].clients|
            && (Enabled(tr[k], Listen(s, DoPushClosed)) <==> tr[k].clients[t].listen.Finished?)
            && (Enabled(tr[k], Listen(s, DoPush)) <==> !tr[k].clients[t].listen.Finished?)
  {
    Lifecycle.InvHolds(tr, acts, k);
    assert Lifecycle.ClientOk(tr[k], s);
    assert Lifecycle.ClientOk(tr[k], tr[k].clients[s].listen.client);
  }

  /** Handler `s` holds `t`, whose reader has come to `pc`; both processes are up. */
  predicate Racing(w: World, s: nat, t: nat, pc: ListenPc) {
    && Awake(w, s) && Awake(w, t) && s != t
    && w.clients[s].listen.Push? && w.clients[s].listen.client == t
    && w.clients[t].listen == pc
  }

  predicate Unregs(w: World, t: nat, k: nat, pc: UnregPc)
    requires t < |w.clients|
  {
    k < |w.unregs| && w.unregs[k] == Unreg(t, w.clients[t].user, w.clients[t].node, pc)
  }

  lemma CheckStep(w: World, s: nat, t: nat, k: nat) returns (pc: UnregPc)
    requires Racing(w, s, t, Leaving(k)) && Unregs(w, t, k, Checking)
    ensures UnregEnabled(w, k, Checking) && Racing(UnregCheckStep(w, k), s, t, Leaving(k))
    ensures (pc.Gone? || pc.Deleting?) && Unregs(UnregCheckStep(w, k), t, k, pc)
  {
    pc := UnregCheckStep(w, k).unregs[k].pc;
  }

  lemma DeleteStep(w: World, s: nat, t: nat, k: nat)
    requires Racing(w, s, t, Leaving(k)) && Unregs(w, t, k, Deleting)
    ensures UnregEnabled(w, k, Deleting)
    ensures Racing(UnregDeleteStep(w, k, true), s, t, Leaving(k))
    ensures Unregs(UnregDeleteStep(w, k, true), t, k, Decrementing)
  {
  }

  lemma DecrementStep(w: World, s: nat, t: nat, k: nat)
    requires Racing(w, s, t, Leaving(k)) && Unregs(w, t, k, Decrementing)
    ensures UnregEnabled(w, k, Decrementing)
    ensures Racing(UnregDecrementStep(w, k), s, t, Leaving(k)) && Unregs(UnregDecrementStep(w, k), t, k, Gone)
  {
  }

  lemma CloseSteps(w: World, s: nat, t: nat, k: nat)
    requires Racing(w, s, t, Leaving(k)) && Unregs(w, t, k, Gone)
    ensures ListenEnabled(w, t, CloseConn) && Racing(CloseConnStep(w, t), s, t, Closing)
    ensures var w' := CloseConnStep(w, t);
            ListenEnabled(w', t, CloseSend) && Racing(CloseSendStep(w', t), s, t, Finished)
            && Enabled(CloseSendStep(w', t), Listen(s, DoPushClosed))
  {
  }

  lemma TeardownPath(w: World, s: nat, t: nat) returns (path: seq<World>, acts: seq<Action>)
    requires Racing(w, s, t, Reading)
    ensures Path(w, path, acts)
    ensures Racing(path[|acts|], s, t, Leaving(|w.unregs|)) && Unregs(path[|acts|], t, |w.unregs|, Gone)
  {
    path, acts := [w], [];
    var k := |w.unregs|;
    path, acts := Extend(w, path, acts, Listen(t, ReadFails));
    var pc := CheckStep(path[|acts|], s, t, k);
    path, acts := Extend(w, path, acts, UnregCheck(k));
    if pc.Deleting? {
      path, acts := ReleasePath(w, path, acts, s, t, k);
    }
  }

  lemma ReleasePath(w: World, path: seq<World>, acts: seq<Action>, s: nat, t: nat, k: nat)
    returns (path': seq<World>, acts': seq<Action>)
    requires Path(w, path, acts) && Racing(path[|acts|], s, t, Leaving(k)) && Unregs(path[|acts|], t, k, Deleting)
    ensures Path(w, path', acts') && Racing(path'[|acts'|], s, t, Leaving(k)) && Unregs(path'[|acts'|], t, k, Gone)
  {
    DeleteStep(path[|acts|], s, t, k);
    path', acts' := Extend(w, path, acts, UnregDelete(k, true));
    DecrementStep(path'[|acts'|], s, t, k);
    path', acts' := Extend(w, path', acts', UnregDecrement(k));
  }

  /** The registry invariant does not prevent it: from every state in which a handler
      holds a client that is still reading, the cluster can reach one in which that
      push panics, which takes the process down. */
  lemma PushCanPanic(w: World, s: nat, t: nat) returns (path: seq<World>, acts: seq<Action>)
    requires Racing(w, s, t, Reading)
    ensures Path(w, path, acts) && Enabled(path[|acts|], Listen(s, DoPushClosed))
  {
    path, acts := TeardownPath(w, s, t);
    CloseSteps(path[|acts|], s, t, |w.unregs|);
    path, acts := Extend(w, path, acts, Listen(t, CloseConn));
    path, acts := Extend(w, path, acts, Listen(t, CloseSend));
  }

  // ------------------------------------------------------------ presence key

  /** Some node has a connection of `u` in its registry. */
  ghost predicate Registered(w: World, u: nat) {
    exists n :: 0 <= n < |w.nodes| && u in w.nodes[n].registry
  }

  /** The user is connected, yet every other node would count a message as offline. */
  ghost predicate Hidden(w: World, u: nat) {
    Registered(w, u) && PresenceOf(w, u).None?
  }

  /** The teardown's DEL looks only at the user, not at who set the key. It leaves `u`
      connected yet reading as offline exactly when it works on the key of `u` while some
      node has `u` registered, or `u` was hidden before. */
  lemma DeleteHidesExactly(w: World, k: nat, ok: bool, u: nat)
    requires UnregEnabled(w, k, Deleting)
    ensures Hidden(UnregDeleteStep(w, k, ok), u) <==>
            Hidden(w, u) || (ok && u == w.unregs[k].user && Registered(w, u))
  {
    var w' := UnregDeleteStep(w, k, ok);
    assert w'.nodes == w.nodes;
  }
}
