/** Which node a user's presence key names, over whole runs: what registrations, pongs,
    teardowns and evictions have left of it. */
module Keys {
  import opened Basics
  import opened Cluster

  function KeyOf(w: World, u: nat): Option<Lease> {
    if u in w.presence then Some(w.presence[u]) else None
  }

  /** The key of `u` can be read and names `name`. */
  predicate Names(w: World, u: nat, name: string) {
    KeyLive(w, u) && w.presence[u].node == name
  }

  /** What a step does to the key of one user. */
  datatype Effect = Untouched | Set(name: string) | Renewed | Removed

  function EffectOn(w: World, a: Action, u: nat): Effect {
    match a
    case Conn(c, RegisterPresence(true)) =>
      if c < |w.clients| && w.clients[c].user == u && w.clients[c].node < |w.nodes|
      then Set(w.nodes[w.clients[c].node].name) else Untouched
    case Listen(c, Pong(true)) => if c < |w.clients| && w.clients[c].user == u then Renewed else Untouched
    case UnregDelete(k, true) => if k < |w.unregs| && w.unregs[k].user == u then Removed else Untouched
    case Env(EvictPresence(v)) => if v == u then Removed else Untouched
    case _ => Untouched
  }

  /** EXPIRE renews a live key and does nothing to a missing one. */
  function After(key: Option<Lease>, e: Effect, now: nat): Option<Lease> {
    match e
    case Untouched => key
    case Set(name) => Some(Lease(name, now + PRESENCE_TTL))
    case Renewed => if key.Some? && now < key.value.expiry then Some(Lease(key.value.node, now + PRESENCE_TTL)) else key
    case Removed => None
  }

  lemma KeyStep(w: World, a: Action, u: nat)
    requires Enabled(w, a)
    ensures KeyOf(Step(w, a), u) == After(KeyOf(w, u), EffectOn(w, a, u), w.now)
    ensures w.now <= Step(w, a).now && (!EffectOn(w, a, u).Untouched? ==> Step(w, a).now == w.now)
  {
    match a
    case Conn(c, e) => ConnKey(w, c, e, u);
    case Listen(c, e) => ListenKey(w, c, e, u);
    case _ => QuietKey(w, a, u);
  }

  lemma ConnKey(w: World, c: nat, e: ConnectAct, u: nat)
    requires ConnEnabled(w, c, e)
    ensures KeyOf(ConnStep(w, c, e), u) == After(KeyOf(w, u), EffectOn(w, Conn(c, e), u), w.now)
    ensures ConnStep(w, c, e).now == w.now
  {
  }

  lemma ListenKey(w: World, c: nat, e: ListenAct, u: nat)
    requires ListenEnabled(w, c, e)
    ensures KeyOf(ListenStep(w, c, e), u) == After(KeyOf(w, u), EffectOn(w, Listen(c, e), u), w.now)
    ensures ListenStep(w, c, e).now == w.now
  {
  }

  lemma QuietKey(w: World, a: Action, u: nat)
    requires Enabled(w, a) && !a.Conn? && !a.Listen?
    ensures KeyOf(Step(w, a), u) == After(KeyOf(w, u), EffectOn(w, a, u), w.now)
    ensures w.now <= Step(w, a).now && (!a.Env? || !a.env.Tick? ==> Step(w, a).now == w.now)
  {
  }

  // ------------------------------------------------------------ over a run

  /** Step `i` is the latest registration of `u` that reached Redis before `j`, on a node
      called `name`, and nothing has removed the key since. */
  ghost predicate Latest(tr: seq<World>, acts: seq<Action>, i: nat, j: nat, u: nat, name: string)
    requires |tr| == |acts| + 1 && j < |tr|
  {
    i < j && EffectOn(tr[i], acts[i], u) == Set(name)
    && forall k :: i < k < j ==> !EffectOn(tr[k], acts[k], u).Set? && !EffectOn(tr[k], acts[k], u).Removed?
  }

  /** The registration at `i`, or a pong after it, is less than 90 seconds old at `t`. */
  ghost predicate Fresh(tr: seq<World>, acts: seq<Action>, i: nat, t: nat, u: nat)
    requires |tr| == |acts| + 1 && t < |tr|
  {
    exists r :: i <= r < t && Refreshed(tr, acts, i, r, t, u)
  }

  ghost predicate Refreshed(tr: seq<World>, acts: seq<Action>, i: nat, r: nat, t: nat, u: nat)
    requires |tr| == |acts| + 1 && r < t < |tr|
  {
    (r == i || EffectOn(tr[r], acts[r], u).Renewed?) && tr[t].now < tr[r].now + 90
  }

  /** Between `i` and `j` the lease never ran out. */
  ghost predicate Kept(tr: seq<World>, acts: seq<Action>, i: nat, j: nat, u: nat)
    requires |tr| == |acts| + 1 && j < |tr|
  {
    forall t :: i < t <= j ==> Fresh(tr, acts, i, t, u)
  }

  lemma KeyAt(tr: seq<World>, acts: seq<Action>, k: nat, u: nat)
    requires Run(tr, acts) && k < |acts|
    ensures KeyOf(tr[k + 1], u) == After(KeyOf(tr[k], u), EffectOn(tr[k], acts[k], u), tr[k].now)
    ensures tr[k].now <= tr[k + 1].now && (!EffectOn(tr[k], acts[k], u).Untouched? ==> tr[k + 1].now == tr[k].now)
  {
    assert StepAt(tr, acts, k);
    KeyStep(tr[k], acts[k], u);
  }

  /** A live key goes back to its registration, and its expiry to one refresh. */
  lemma {:induction false} FromRegistration(tr: seq<World>, acts: seq<Action>, j: nat, u: nat) returns (i: nat, r: nat)
    requires Run(tr, acts) && j < |tr| && KeyLive(tr[j], u)
    ensures i <= r < j && Latest(tr, acts, i, j, u, tr[j].presence[u].node) && Kept(tr, acts, i, j, u)
    ensures (r == i || EffectOn(tr[r], acts[r], u).Renewed?) && tr[j].presence[u].expiry == tr[r].now + PRESENCE_TTL
  {
    KeyAt(tr, acts, j - 1, u);
    if EffectOn(tr[j - 1], acts[j - 1], u).Set? {
      i, r := j - 1, j - 1;
    } else {
      assert KeyOf(tr[j - 1], u).Some?;
      i, r := FromRegistration(tr, acts, j - 1, u);
      if EffectOn(tr[j - 1], acts[j - 1], u).Renewed? { r := j - 1; }
    }
    assert Refreshed(tr, acts, i, r, j, u);
  }

  /** While the lease is kept, the key is there, names the node, and expires no earlier
      than 90 seconds after every refresh. */
  lemma {:induction false} FromRefreshes(tr: seq<World>, acts: seq<Action>, i: nat, j: nat, u: nat, name: string)
    requires Run(tr, acts) && j < |tr| && Latest(tr, acts, i, j, u, name) && Kept(tr, acts, i, j, u)
    ensures Names(tr[j], u, name)
    ensures forall r :: i <= r < j && (r == i || EffectOn(tr[r], acts[r], u).Renewed?) ==>
              tr[r].now <= tr[j].now && tr[r].now + PRESENCE_TTL <= tr[j].presence[u].expiry
    decreases j
  {
    KeyAt(tr, acts, j - 1, u);
    if i < j - 1 {
      FromRefreshes(tr, acts, i, j - 1, u, name);
      assert KeyOf(tr[j - 1], u).Some?;
    }
    assert KeyOf(tr[j], u).Some?;
    assert Fresh(tr, acts, i, j, u);
    var r :| i <= r < j && Refreshed(tr, acts, i, r, j, u);
  }

  /** In every reachable state a user's key names a node exactly if the latest registration
      of that user to reach Redis was on a node of that name, no teardown or eviction has
      removed the key since, and at no moment since was the last refresh 90 seconds old. */
  lemma NamesExactly(tr: seq<World>, acts: seq<Action>, j: nat, u: nat, name: string)
    requires Run(tr, acts) && j < |tr|
    ensures Names(tr[j], u, name) <==>
              exists i :: 0 <= i < j && Latest(tr, acts, i, j, u, name) && Kept(tr, acts, i, j, u)
  {
    if Names(tr[j], u, name) {
      var i, _ := FromRegistration(tr, acts, j, u);
    }
    if i :| 0 <= i < j && Latest(tr, acts, i, j, u, name) && Kept(tr, acts, i, j, u) {
      FromRefreshes(tr, acts, i, j, u, name);
    }
  }
}
