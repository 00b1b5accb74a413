/** The timed reader of `Presence` inside the runs of `Cluster`: a connection whose backlog
    push and handlers keep to their budget keeps its user's presence key. */
module Budget {
  import opened Cluster
  import Keys
  import NoGap
  import Presence

  /** What a step is for the reader of `c`; `extra` frames come off the socket with the one
      that is read. A frame that is not handled further is done at once. */
  function EventsOf(w: World, a: Action, w': World, c: nat, extra: nat): seq<Presence.Event>
  {
    if c >= |w.clients| || c >= |w'.clients| then []
    else match a
    case Env(Tick) => [Presence.Tick]
    case Conn(d, StartLoops) => if d == c then [Presence.StartReading] else []
    case Listen(d, Pong(_)) => if d == c then [Presence.Pong(extra)] else []
    case Listen(d, Receive(_)) =>
      if d != c then []
      else [Presence.Message(extra)] + if w'.clients[c].listen.Reading? then [Presence.HandlerDone] else []
    case Listen(d, ReadFails) => if d == c then [Presence.Timeout] else []
    case Listen(d, _) =>
      if d == c && !w.clients[c].listen.Reading? && w'.clients[c].listen.Reading? then [Presence.HandlerDone] else []
    case _ => []
  }

  /** Step `k` makes of the reader's life so far, `life(k)`, what it has become. The run is
      timely there: a read respects its deadline, the backlog push and the handlers keep to
      `bd`, no read fails, and an EXPIRE works. */
  ghost predicate LivesOn(tr: seq<World>, acts: seq<Action>, k: nat, c: nat, extra: nat -> nat,
                          life: nat -> seq<Presence.Event>, bd: Presence.Bounds)
    requires |tr| == |acts| + 1 && k < |acts|
  {
    && life(k + 1) == life(k) + EventsOf(tr[k], acts[k], tr[k + 1], c, extra(k))
    && Presence.Possible(life(k + 1), bd)
    && acts[k] != Listen(c, Pong(false)) && acts[k] != Listen(c, ReadFails)
  }

  /** `life(t)` is the life of the reader of `c` from its registration at step `i` to state
      `t`, and the run is timely for it up to state `j`. */
  ghost predicate Timely(tr: seq<World>, acts: seq<Action>, i: nat, j: nat, c: nat, extra: nat -> nat,
                         life: nat -> seq<Presence.Event>, bd: Presence.Bounds)
    requires |tr| == |acts| + 1 && i < j < |tr|
  {
    life(i + 1) == [] && forall k :: i < k < j ==> LivesOn(tr, acts, k, c, extra, life, bd)
  }

  predicate Fits(bd: Presence.Bounds) {
    bd.b + (bd.f + 1) * bd.h <= 30 && bd.b < 30
  }

  /** The state of the timed reader agrees with the run: the same time since the
      registration, and its last refresh is a step of the run. */
  ghost predicate Agrees(tr: seq<World>, acts: seq<Action>, i: nat, t: nat, u: nat, x: Presence.Link)
    requires |tr| == |acts| + 1 && i < t < |tr|
  {
    && tr[t].now == tr[i].now + x.now && !x.phase.Left?
    && exists r :: i <= r < t && RefreshAt(tr, acts, i, r, u, x)
  }

  ghost predicate RefreshAt(tr: seq<World>, acts: seq<Action>, i: nat, r: nat, u: nat, x: Presence.Link)
    requires |tr| == |acts| + 1 && i < |tr| && r < |acts|
  {
    (r == i || Keys.EffectOn(tr[r], acts[r], u).Renewed?) && tr[r].now == tr[i].now + x.refreshed
  }

  /** The reader after `more` events. */
  function Over(x: Presence.Link, more: seq<Presence.Event>): Presence.Link {
    if more == [] then x else Presence.Next(Over(x, more[..|more| - 1]), more[|more| - 1])
  }

  lemma {:induction false} AfterIsOver(evs: seq<Presence.Event>, more: seq<Presence.Event>)
    ensures Presence.After(evs + more) == Over(Presence.After(evs), more)
  {
    if more == [] {
      assert evs + more == evs;
    } else {
      AfterIsOver(evs, more[..|more| - 1]);
      assert (evs + more)[..|evs + more| - 1] == evs + more[..|more| - 1];
    }
  }

  /** One step of the run is none, one or two events of the reader. */
  lemma EventsEffect(w: World, a: Action, w': World, c: nat, extra: nat, x: Presence.Link)
    requires !x.phase.Left? && Presence.KeyLive(x) && c < |w.clients| && c < |w'.clients|
    requires a != Listen(c, Pong(false)) && a != Listen(c, ReadFails)
    ensures var y := Over(x, EventsOf(w, a, w', c, extra));
            && !y.phase.Left? && y.now == x.now + (if a == Env(Tick) then 1 else 0)
            && y.refreshed == if a == Listen(c, Pong(true)) then x.now else x.refreshed
  {
    OverTwo(x, EventsOf(w, a, w', c, extra));
  }

  lemma OverTwo(x: Presence.Link, more: seq<Presence.Event>)
    ensures |more| == 1 ==> Over(x, more) == Presence.Next(x, more[0])
    ensures |more| == 2 ==> Over(x, more) == Presence.Next(Presence.Next(x, more[0]), more[1])
  {
    if |more| == 2 { assert more[..1] == [more[0]]; }
  }

  lemma AgreesStep(tr: seq<World>, acts: seq<Action>, i: nat, k: nat, c: nat, u: nat, evs: seq<Presence.Event>,
                   extra: nat)
    requires Run(tr, acts) && i < k < |acts| && c < |tr[k].clients| && c < |tr[k + 1].clients|
    requires tr[k].clients[c].user == u
    requires Agrees(tr, acts, i, k, u, Presence.After(evs)) && Presence.KeyLive(Presence.After(evs))
    requires acts[k] != Listen(c, Pong(false)) && acts[k] != Listen(c, ReadFails)
    ensures Agrees(tr, acts, i, k + 1, u, Presence.After(evs + EventsOf(tr[k], acts[k], tr[k + 1], c, extra)))
  {
    var more, x := EventsOf(tr[k], acts[k], tr[k + 1], c, extra), Presence.After(evs);
    AfterIsOver(evs, more);
    EventsEffect(tr[k], acts[k], tr[k + 1], c, extra, x);
    TimeMoves(tr, acts, k);
    RefreshMoves(tr, acts, i, k, c, u, x, Over(x, more));
  }

  lemma RefreshMoves(tr: seq<World>, acts: seq<Action>, i: nat, k: nat, c: nat, u: nat, x: Presence.Link,
                     y: Presence.Link)
    requires |tr| == |acts| + 1 && i < k < |acts| && c < |tr[k].clients| && tr[k].clients[c].user == u
    requires Agrees(tr, acts, i, k, u, x)
    requires y.refreshed == if acts[k] == Listen(c, Pong(true)) then x.now else x.refreshed
    ensures exists r :: i <= r < k + 1 && RefreshAt(tr, acts, i, r, u, y)
  {
    var r :| i <= r < k && RefreshAt(tr, acts, i, r, u, x);
    assert RefreshAt(tr, acts, i, if acts[k] == Listen(c, Pong(true)) then k else r, u, y);
  }

  lemma TimeMoves(tr: seq<World>, acts: seq<Action>, k: nat)
    requires Run(tr, acts) && k < |acts|
    ensures tr[k + 1].now == tr[k].now + if acts[k] == Env(Tick) then 1 else 0
  {
    assert StepAt(tr, acts, k);
    NowStep(tr[k], acts[k]);
  }

  lemma NowStep(w: World, a: Action)
    requires Enabled(w, a)
    ensures Step(w, a).now == w.now + if a == Env(Tick) then 1 else 0
  {
    match a
    case Conn(c, e) => ConnNow(w, c, e);
    case Listen(c, e) => ListenNow(w, c, e);
    case _ =>
  }

  lemma ConnNow(w: World, c: nat, e: ConnectAct)
    requires ConnEnabled(w, c, e)
    ensures ConnStep(w, c, e).now == w.now
  {
  }

  lemma ListenNow(w: World, c: nat, e: ListenAct)
    requires ListenEnabled(w, c, e)
    ensures ListenStep(w, c, e).now == w.now
  {
  }

  lemma AgreesFirst(tr: seq<World>, acts: seq<Action>, i: nat, c: nat, u: nat)
    requires Run(tr, acts) && i < |acts| && acts[i] == Conn(c, RegisterPresence(true))
    ensures Agrees(tr, acts, i, i + 1, u, Presence.START)
  {
    TimeMoves(tr, acts, i);
    assert RefreshAt(tr, acts, i, i, u, Presence.START);
  }

  lemma AgreesNext(tr: seq<World>, acts: seq<Action>, i: nat, k: nat, j: nat, c: nat, u: nat, extra: nat -> nat,
                   life: nat -> seq<Presence.Event>, bd: Presence.Bounds)
    requires Run(tr, acts) && i < k < j < |tr| && c < |tr[i].clients| && tr[i].clients[c].user == u && Fits(bd)
    requires Agrees(tr, acts, i, k, u, Presence.After(life(k))) && Presence.KeyLive(Presence.After(life(k)))
    requires Timely(tr, acts, i, j, c, extra, life, bd)
    ensures Agrees(tr, acts, i, k + 1, u, Presence.After(life(k + 1)))
    ensures Presence.KeyLive(Presence.After(life(k + 1)))
  {
    assert LivesOn(tr, acts, k, c, extra, life, bd);
    NoGap.GrowsAlong(tr, acts, i, k);
    NoGap.GrowsAlong(tr, acts, k, k + 1);
    AgreesStep(tr, acts, i, k, c, u, life(k), extra(k));
    Presence.LiveUntilLeft(bd);
  }

  lemma {:induction false} AgreesAlong(tr: seq<World>, acts: seq<Action>, i: nat, t: nat, j: nat, c: nat, u: nat,
                                       extra: nat -> nat, life: nat -> seq<Presence.Event>, bd: Presence.Bounds)
    requires Run(tr, acts) && i < t <= j < |tr| && Fits(bd)
    requires acts[i] == Conn(c, RegisterPresence(true)) && c < |tr[i].clients| && tr[i].clients[c].user == u
    requires Timely(tr, acts, i, j, c, extra, life, bd)
    ensures Agrees(tr, acts, i, t, u, Presence.After(life(t))) && Presence.KeyLive(Presence.After(life(t)))
    decreases t
  {
    if t == i + 1 {
      AgreesFirst(tr, acts, i, c, u);
    } else {
      AgreesAlong(tr, acts, i, t - 1, j, c, u, extra, life, bd);
      AgreesNext(tr, acts, i, t - 1, j, c, u, extra, life, bd);
    }
  }

  // --------------------------------------------------------------- theorem

  /** If the backlog push and the handlers of all frames of one read fit in 30 seconds
      together, the push alone less, then between its registration in Redis at `i` and any
      state `j` before its reader leaves a timely connection keeps the lease from running
      out; and if no other step has set or removed the key, it names the connection's node. */
  lemma KeptWithinBudget(tr: seq<World>, acts: seq<Action>, i: nat, j: nat, c: nat, u: nat, extra: nat -> nat,
                         life: nat -> seq<Presence.Event>, bd: Presence.Bounds)
    requires Run(tr, acts) && i < j < |tr| && Fits(bd)
    requires acts[i] == Conn(c, RegisterPresence(true)) && c < |tr[i].clients| && tr[i].clients[c].user == u
    requires Timely(tr, acts, i, j, c, extra, life, bd)
    ensures Keys.Kept(tr, acts, i, j, u)
    ensures forall name :: Keys.Latest(tr, acts, i, j, u, name) ==> Keys.Names(tr[j], u, name)
  {
    forall t | i < t <= j
      ensures Keys.Fresh(tr, acts, i, t, u)
    {
      FreshAt(tr, acts, i, t, j, c, u, extra, life, bd);
    }
    forall name | Keys.Latest(tr, acts, i, j, u, name)
      ensures Keys.Names(tr[j], u, name)
    {
      Keys.NamesExactly(tr, acts, j, u, name);
    }
  }

  lemma FreshAt(tr: seq<World>, acts: seq<Action>, i: nat, t: nat, j: nat, c: nat, u: nat, extra: nat -> nat,
                life: nat -> seq<Presence.Event>, bd: Presence.Bounds)
    requires Run(tr, acts) && i < t <= j < |tr| && Fits(bd)
    requires acts[i] == Conn(c, RegisterPresence(true)) && c < |tr[i].clients| && tr[i].clients[c].user == u
    requires Timely(tr, acts, i, j, c, extra, life, bd)
    ensures Keys.Fresh(tr, acts, i, t, u)
  {
    AgreesAlong(tr, acts, i, t, j, c, u, extra, life, bd);
    Presence.SilentKeyExpires(life(t));
    var r :| i <= r < t && RefreshAt(tr, acts, i, r, u, Presence.After(life(t)));
    assert Keys.Refreshed(tr, acts, i, r, t, u);
  }
}
