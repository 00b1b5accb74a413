/** What the online gauge counts, and where a persisted message is accounted. */
module Accounting {
  import opened Basics
  import opened Store
  import opened Cluster
  import opened Frames
  import Lifecycle

  // ------------------------------------------------------------ online gauge

  /** In the registry, increment still to come. */
  function PendingInc(n: nat): Client -> bool {
    (c: Client) => c.node == n && (c.pc.Mapped? || c.pc.Announced?)
  }

  /** Out of the registry, decrement still to come. */
  function PendingDec(n: nat): Unreg -> bool {
    (t: Unreg) => t.node == n && (t.pc.Deleting? || t.pc.Decrementing?)
  }

  ghost predicate GaugeLaw(w: World, n: nat)
    requires n < |w.nodes|
  {
    w.nodes[n].gauge + CountIf(PendingInc(n), w.clients) - CountIf(PendingDec(n), w.unregs)
    == |w.nodes[n].registry| + w.nodes[n].takeovers
  }

  /** The books move together: what this step adds on one side it adds on the other. */
  ghost predicate GaugeBalance(w: World, a: Action, w': World, n: nat)
    requires n < |w.nodes| == |w'.nodes|
  {
    var x, y := w.nodes[n], w'.nodes[n];
    y.gauge - x.gauge + At(PendingInc(n), w'.clients, Mover(a)) - At(PendingInc(n), w.clients, Mover(a))
    - At(PendingDec(n), w'.unregs, UnregMover(a)) + At(PendingDec(n), w.unregs, UnregMover(a))
    == |y.registry| - |x.registry| + y.takeovers - x.takeovers
  }

  lemma IncMoves(w: World, a: Action, w': World, n: nat)
    requires Frame(w, a, w') && Mover(a) < |w.clients|
    ensures CountIf(PendingInc(n), w'.clients) + At(PendingInc(n), w.clients, Mover(a)) ==
            CountIf(PendingInc(n), w.clients) + At(PendingInc(n), w'.clients, Mover(a))
  {
    forall j | 0 <= j < |w.clients| && j != Mover(a)
      ensures PendingInc(n)(w.clients[j]) == PendingInc(n)(w'.clients[j])
    {
      assert OnlyOffered(w.clients[j], w'.clients[j]);
    }
    CountMoves(PendingInc(n), w.clients, w'.clients, Mover(a));
  }

  lemma BalanceKeepsLaw(w: World, a: Action, w': World, n: nat)
    requires Frame(w, a, w') && n < |w.nodes|
    requires Mover(a) < |w.clients| && UnregMover(a) < |w.unregs|
    requires GaugeLaw(w, n) && GaugeBalance(w, a, w', n)
    ensures GaugeLaw(w', n)
  {
    IncMoves(w, a, w', n);
    CountMoves(PendingDec(n), w.unregs, w'.unregs, UnregMover(a));
  }

  lemma StepBalances(w: World, a: Action, n: nat)
    requires Enabled(w, a) && n < |w.nodes|
    ensures |Step(w, a).nodes| == |w.nodes| && GaugeBalance(w, a, Step(w, a), n)
  {
    StepFrame(w, a);
    match a
    case Conn(c, e) => ConnBalances(w, c, e, n);
    case Listen(c, e) => ListenBalances(w, c, e, n);
    case UnregCheck(k) => UnregCheckBalances(w, k, n);
    case UnregDelete(k, ok) => UnregDeleteBalances(w, k, ok, n);
    case UnregDecrement(k) => UnregDecrementBalances(w, k, n);
    case _ =>
  }

  lemma ConnBalances(w: World, c: nat, e: ConnectAct, n: nat)
    requires ConnEnabled(w, c, e) && n < |w.nodes|
    ensures |ConnStep(w, c, e).nodes| == |w.nodes| && GaugeBalance(w, Conn(c, e), ConnStep(w, c, e), n)
  {
    PutSize(w.nodes[n].registry, w.clients[c].user, c);
  }

  lemma ListenBalances(w: World, c: nat, e: ListenAct, n: nat)
    requires ListenEnabled(w, c, e) && n < |w.nodes|
    ensures |ListenStep(w, c, e).nodes| == |w.nodes| && GaugeBalance(w, Listen(c, e), ListenStep(w, c, e), n)
  {
    ListenFrame(w, c, e);
    ReaderCountsNothing(w, c, e, n);
  }

  lemma ReaderCountsNothing(w: World, c: nat, e: ListenAct, n: nat)
    requires ListenEnabled(w, c, e)
    ensures c < |ListenStep(w, c, e).clients|
    ensures PendingInc(n)(ListenStep(w, c, e).clients[c]) == PendingInc(n)(w.clients[c])
  {
  }

  lemma UnregCheckBalances(w: World, k: nat, n: nat)
    requires UnregEnabled(w, k, Checking) && n < |w.nodes|
    ensures GaugeBalance(w, UnregCheck(k), UnregCheckStep(w, k), n)
  {
    var t, w' := w.unregs[k], UnregCheckStep(w, k);
    assert w'.clients == w.clients && w'.unregs[k].node == t.node;
    if n != t.node {
      assert w'.nodes[n] == w.nodes[n];
    } else if HoldsSlot(w, t) {
      DropSize(w.nodes[t.node].registry, t.user);
    }
  }

  lemma UnregDeleteBalances(w: World, k: nat, ok: bool, n: nat)
    requires UnregEnabled(w, k, Deleting) && n < |w.nodes|
    ensures GaugeBalance(w, UnregDelete(k, ok), UnregDeleteStep(w, k, ok), n)
  {
  }

  lemma UnregDecrementBalances(w: World, k: nat, n: nat)
    requires UnregEnabled(w, k, Decrementing) && n < |w.nodes|
    ensures GaugeBalance(w, UnregDecrement(k), UnregDecrementStep(w, k), n)
  {
  }

  lemma GaugeLawStep(w: World, a: Action, n: nat)
    requires Enabled(w, a) && n < |w.nodes| && GaugeLaw(w, n)
    ensures n < |Step(w, a).nodes| && GaugeLaw(Step(w, a), n)
  {
    StepFrame(w, a);
    StepBalances(w, a, n);
    BalanceKeepsLaw(w, a, Step(w, a), n);
  }

  lemma SameNodes(tr: seq<World>, acts: seq<Action>, k: nat)
    requires Run(tr, acts) && 0 < k < |tr|
    ensures |tr[k].nodes| == |tr[k - 1].nodes|
  {
    assert StepAt(tr, acts, k - 1);
    StepFrame(tr[k - 1], acts[k - 1]);
  }

  /** Over every run: gauge plus pending increments minus pending decrements is the
      number of registered connections plus the number of takeovers so far. */
  lemma {:induction false} GaugeTheorem(tr: seq<World>, acts: seq<Action>, k: nat, n: nat)
    requires Run(tr, acts) && k < |tr| && n < |tr[k].nodes|
    ensures GaugeLaw(tr[k], n)
  {
    if k > 0 {
      assert StepAt(tr, acts, k - 1);
      SameNodes(tr, acts, k);
      GaugeTheorem(tr, acts, k - 1, n);
      GaugeLawStep(tr[k - 1], acts[k - 1], n);
    }
  }

  /** With no update pending the gauge is exact if and only if no connection of the
      node was ever displaced. */
  lemma GaugeExactWithoutTakeover(tr: seq<World>, acts: seq<Action>, k: nat, n: nat)
    requires Run(tr, acts) && k < |tr| && n < |tr[k].nodes|
    requires forall c :: 0 <= c < |tr[k].clients| ==> !PendingInc(n)(tr[k].clients[c])
    requires forall t :: 0 <= t < |tr[k].unregs| ==> !PendingDec(n)(tr[k].unregs[t])
    ensures tr[k].nodes[n].gauge == |tr[k].nodes[n].registry| <==> tr[k].nodes[n].takeovers == 0
  {
    GaugeTheorem(tr, acts, k, n);
    CountZero(PendingInc(n), tr[k].clients);
    CountZero(PendingDec(n), tr[k].unregs);
  }

  // -------------------------------------------------------- routing counters

  /** A stored message whose handler has not finished yet. */
  function RoutingOn(n: nat): Client -> bool {
    (c: Client) => c.node == n && Routing(c.listen)
  }

  function Settled(m: Metrics): nat {
    m.local + m.crossInstance + m.offline + m.lookupFailed + m.ghostOnline + m.forwardFailed + m.chanFull
  }

  ghost predicate RoutingLaw(w: World, n: nat)
    requires n < |w.nodes|
  {
    var m := w.nodes[n].metrics;
    m.persisted == Settled(m) + CountIf(RoutingOn(n), w.clients) && m.forwardPublished == m.crossInstance
  }

  ghost predicate RoutingBalance(w: World, a: Action, w': World, n: nat)
    requires n < |w.nodes| == |w'.nodes|
  {
    var x, y := w.nodes[n].metrics, w'.nodes[n].metrics;
    && y.persisted - x.persisted
       == Settled(y) - Settled(x) + At(RoutingOn(n), w'.clients, Mover(a)) - At(RoutingOn(n), w.clients, Mover(a))
    && y.forwardPublished - x.forwardPublished == y.crossInstance - x.crossInstance
  }

  lemma RoutingBalanceKeepsLaw(w: World, a: Action, w': World, n: nat)
    requires Frame(w, a, w') && n < |w.nodes| && Mover(a) < |w.clients|
    requires RoutingLaw(w, n) && RoutingBalance(w, a, w', n)
    ensures RoutingLaw(w', n)
  {
    forall j | 0 <= j < |w.clients| && j != Mover(a)
      ensures RoutingOn(n)(w.clients[j]) == RoutingOn(n)(w'.clients[j])
    {
      assert OnlyOffered(w.clients[j], w'.clients[j]);
    }
    CountMoves(RoutingOn(n), w.clients, w'.clients, Mover(a));
  }

  lemma StepRouting(w: World, a: Action, n: nat)
    requires Enabled(w, a) && n < |w.nodes| && Lifecycle.Inv(w)
    ensures |Step(w, a).nodes| == |w.nodes| && RoutingBalance(w, a, Step(w, a), n)
  {
    match a
    case Conn(c, e) => ConnRouting(w, c, e, n);
    case Listen(c, e) => ListenRouting(w, c, e, n);
    case SubReceive(m) => SubReceiveRouting(w, m, n);
    case _ => QuietRouting(w, a, n);
  }

  lemma QuietRouting(w: World, a: Action, n: nat)
    requires Enabled(w, a) && n < |w.nodes| && !a.Conn? && !a.Listen? && !a.SubReceive?
    ensures |Step(w, a).nodes| == |w.nodes| && RoutingBalance(w, a, Step(w, a), n)
  {
    StepFrame(w, a);
    FrameRouting(w, a, Step(w, a), n);
  }

  lemma FrameRouting(w: World, a: Action, w': World, n: nat)
    requires Frame(w, a, w') && n < |w.nodes| && !a.Conn? && !a.Listen? && !a.SubReceive?
    ensures |w'.nodes| == |w.nodes| && RoutingBalance(w, a, w', n)
  {
  }

  lemma ConnRouting(w: World, c: nat, e: ConnectAct, n: nat)
    requires ConnEnabled(w, c, e) && n < |w.nodes| && Lifecycle.Inv(w)
    ensures |ConnStep(w, c, e).nodes| == |w.nodes| && RoutingBalance(w, Conn(c, e), ConnStep(w, c, e), n)
  {
    assert Lifecycle.ClientOk(w, c);
  }

  lemma SubReceiveRouting(w: World, m: nat, n: nat)
    requires SubIdle(w, m) && n < |w.nodes|
    ensures RoutingBalance(w, SubReceive(m), SubReceiveStep(w, m), n)
  {
  }

  lemma ListenRouting(w: World, c: nat, e: ListenAct, n: nat)
    requires ListenEnabled(w, c, e) && n < |w.nodes|
    ensures |ListenStep(w, c, e).nodes| == |w.nodes| && RoutingBalance(w, Listen(c, e), ListenStep(w, c, e), n)
  {
    match e
    case DoPersist(f) => PersistRouting(w, c, f, n);
    case DoFindNode(ok) => FindNodeRouting(w, c, ok, n);
    case DoForward(ok, reached) => ForwardRouting(w, c, ok, reached, n);
    case DoPush => PushRouting(w, c, n);
    case _ => OtherRouting(w, c, e, n);
  }

  lemma OtherRouting(w: World, c: nat, e: ListenAct, n: nat)
    requires ListenEnabled(w, c, e) && n < |w.nodes|
    requires !e.DoPersist? && !e.DoFindNode? && !e.DoForward? && !e.DoPush?
    ensures |ListenStep(w, c, e).nodes| == |w.nodes|
    ensures ListenStep(w, c, e).nodes[n].metrics == w.nodes[n].metrics
    ensures c < |ListenStep(w, c, e).clients| && ListenStep(w, c, e).clients[c].node == w.clients[c].node
    ensures Routing(ListenStep(w, c, e).clients[c].listen) == Routing(w.clients[c].listen)
  {
    if e.DoFindUser? || e.DoResolve? || e.DoPublish? || e.DoMarkOwn? || e.DoFindLocal? {
      HandlerRouting(w, c, e);
    } else {
      ReaderRouting(w, c, e);
    }
  }

  lemma HandlerRouting(w: World, c: nat, e: ListenAct)
    requires ListenEnabled(w, c, e)
    requires e.DoFindUser? || e.DoResolve? || e.DoPublish? || e.DoMarkOwn? || e.DoFindLocal?
    ensures ListenStep(w, c, e).nodes == w.nodes
    ensures c < |ListenStep(w, c, e).clients| && ListenStep(w, c, e).clients[c].node == w.clients[c].node
    ensures Routing(ListenStep(w, c, e).clients[c].listen) == Routing(w.clients[c].listen)
  {
  }

  lemma ReaderRouting(w: World, c: nat, e: ListenAct)
    requires ListenEnabled(w, c, e)
    requires e.Receive? || e.Pong? || e.ReadFails? || e.DoPushClosed? || e.DoAck? || e.CloseConn? || e.CloseSend?
    ensures |ListenStep(w, c, e).nodes| == |w.nodes|
    ensures forall n :: 0 <= n < |w.nodes| ==> ListenStep(w, c, e).nodes[n].metrics == w.nodes[n].metrics
    ensures c < |ListenStep(w, c, e).clients| && ListenStep(w, c, e).clients[c].node == w.clients[c].node
    ensures Routing(ListenStep(w, c, e).clients[c].listen) == Routing(w.clients[c].listen)
  {
  }

  lemma PersistRouting(w: World, c: nat, f: InsertFault, n: nat)
    requires Awake(w, c) && w.clients[c].listen.Persist? && n < |w.nodes|
    ensures RoutingBalance(w, Listen(c, DoPersist(f)), PersistStep(w, c, f), n)
  {
  }

  lemma FindNodeRouting(w: World, c: nat, ok: bool, n: nat)
    requires Awake(w, c) && w.clients[c].listen.FindNode? && n < |w.nodes|
    ensures RoutingBalance(w, Listen(c, DoFindNode(ok)), FindNodeStep(w, c, ok), n)
  {
  }

  lemma ForwardRouting(w: World, c: nat, ok: bool, reached: bool, n: nat)
    requires Awake(w, c) && w.clients[c].listen.Forward? && n < |w.nodes|
    ensures RoutingBalance(w, Listen(c, DoForward(ok, reached)), ForwardStep(w, c, ok, reached), n)
  {
  }

  lemma PushRouting(w: World, c: nat, n: nat)
    requires Awake(w, c) && w.clients[c].listen.Push? && w.clients[c].listen.client < |w.clients| && n < |w.nodes|
    ensures RoutingBalance(w, Listen(c, DoPush), PushStep(w, c), n)
  {
  }

  /** A local push counts as delivered exactly when it entered `Send`; otherwise it is
      a failure and starts a kick of that connection. */
  lemma PushCounts(w: World, c: nat)
    requires ListenEnabled(w, c, DoPush)
    ensures var n, t, p := w.clients[c].node, w.clients[c].listen.client, w.clients[c].listen.payload;
            var x, w' := w.nodes[n].metrics, PushStep(w, c);
            var y := w'.nodes[n].metrics;
            && (y == x.(local := x.local + 1) <==> w'.clients[t].send == w.clients[t].send + [p])
            && (y == x.(chanFull := x.chanFull + 1) <==>
                  w'.clients[t].send == w.clients[t].send
                  && w'.unregs == w.unregs + [Unreg(t, w.clients[t].user, w.clients[t].node, Checking)])
            && (y == x.(local := x.local + 1) || y == x.(chanFull := x.chanFull + 1))
  {
  }

  lemma RoutingLawStep(w: World, a: Action, n: nat)
    requires Enabled(w, a) && n < |w.nodes| && Lifecycle.Inv(w) && RoutingLaw(w, n)
    ensures n < |Step(w, a).nodes| && RoutingLaw(Step(w, a), n)
  {
    StepFrame(w, a);
    StepRouting(w, a, n);
    RoutingBalanceKeepsLaw(w, a, Step(w, a), n);
  }

  /** Over every run each stored message is settled by exactly one counter, or its
      handler is still running. */
  lemma {:induction false} RoutingTheorem(tr: seq<World>, acts: seq<Action>, k: nat, n: nat)
    requires Run(tr, acts) && k < |tr| && n < |tr[k].nodes|
    ensures RoutingLaw(tr[k], n)
  {
    if k > 0 {
      assert StepAt(tr, acts, k - 1);
      SameNodes(tr, acts, k);
      RoutingTheorem(tr, acts, k - 1, n);
      Lifecycle.InvHolds(tr, acts, k - 1);
      RoutingLawStep(tr[k - 1], acts[k - 1], n);
    }
  }

  /** The books of one process balance exactly when none of its handlers is running. */
  lemma RoutingSettledExactly(tr: seq<World>, acts: seq<Action>, k: nat, n: nat)
    requires Run(tr, acts) && k < |tr| && n < |tr[k].nodes|
    ensures tr[k].nodes[n].metrics.persisted == Settled(tr[k].nodes[n].metrics) <==>
            forall c :: 0 <= c < |tr[k].clients| && tr[k].clients[c].node == n ==> !Routing(tr[k].clients[c].listen)
  {
    RoutingTheorem(tr, acts, k, n);
    CountZero(RoutingOn(n), tr[k].clients);
  }

  // ------------------------------------------------ what the lookups answered

  /** What Redis said when a handler of a node asked where its target is. */
  datatype Answer = Failed | NoKey | OwnNode | OtherNode

  /** The answer this step gets on node `n`, if it asks there. */
  function AnswerOn(w: World, a: Action, n: nat): Option<Answer>
    requires n < |w.nodes|
  {
    if a.Listen? && a.listen.DoFindNode? && a.client < |w.clients|
       && w.clients[a.client].node == n && w.clients[a.client].listen.FindNode? then
      var u := w.clients[a.client].listen.chat.to;
      Some(if !a.listen.ok then Failed
           else if !KeyLive(w, u) || w.presence[u].node == "" then NoKey
           else if w.presence[u].node == w.nodes[n].name then OwnNode
           else OtherNode)
    else None
  }

  /** How often the first `k` steps of a run got the answer `x` on node `n`. */
  ghost function Answers(tr: seq<World>, acts: seq<Action>, k: nat, n: nat, x: Answer): nat
    requires k <= |acts| && |tr| == |acts| + 1 && forall i :: 0 <= i < |tr| ==> n < |tr[i].nodes|
  {
    if k == 0 then 0
    else Answers(tr, acts, k - 1, n, x) + if AnswerOn(tr[k - 1], acts[k - 1], n) == Some(x) then 1 else 0
  }

  /** A handler that got the name of another node and has not published yet. */
  function ForwardingOn(n: nat): Client -> bool {
    (c: Client) => c.node == n && c.listen.Forward?
  }

  function Got(w: World, a: Action, n: nat, x: Answer): nat
    requires n < |w.nodes|
  {
    if AnswerOn(w, a, n) == Some(x) then 1 else 0
  }

  ghost predicate AnswerBalance(w: World, a: Action, w': World, n: nat)
    requires n < |w.nodes| == |w'.nodes|
  {
    var x, y := w.nodes[n].metrics, w'.nodes[n].metrics;
    && y.lookupFailed == x.lookupFailed + Got(w, a, n, Failed)
    && y.offline == x.offline + Got(w, a, n, NoKey)
    && y.ghostOnline == x.ghostOnline + Got(w, a, n, OwnNode)
    && y.crossInstance + y.forwardFailed + At(ForwardingOn(n), w'.clients, Mover(a))
       == x.crossInstance + x.forwardFailed + At(ForwardingOn(n), w.clients, Mover(a)) + Got(w, a, n, OtherNode)
  }

  lemma ConnAnswers(w: World, c: nat, e: ConnectAct, n: nat)
    requires ConnEnabled(w, c, e) && n < |w.nodes| && Lifecycle.Inv(w)
    ensures |ConnStep(w, c, e).nodes| == |w.nodes| && AnswerBalance(w, Conn(c, e), ConnStep(w, c, e), n)
  {
    assert Lifecycle.ClientOk(w, c);
  }

  lemma FindNodeAnswers(w: World, c: nat, ok: bool, n: nat)
    requires ListenEnabled(w, c, DoFindNode(ok)) && n < |w.nodes|
    ensures AnswerBalance(w, Listen(c, DoFindNode(ok)), FindNodeStep(w, c, ok), n)
  {
  }

  lemma ForwardAnswers(w: World, c: nat, ok: bool, reached: bool, n: nat)
    requires ListenEnabled(w, c, DoForward(ok, reached)) && n < |w.nodes|
    ensures AnswerBalance(w, Listen(c, DoForward(ok, reached)), ForwardStep(w, c, ok, reached), n)
  {
  }

  lemma PushAnswers(w: World, c: nat, n: nat)
    requires ListenEnabled(w, c, DoPush) && n < |w.nodes|
    ensures AnswerBalance(w, Listen(c, DoPush), PushStep(w, c), n)
  {
  }

  lemma HandlerAnswers(w: World, c: nat, e: ListenAct, n: nat)
    requires ListenEnabled(w, c, e) && n < |w.nodes|
    requires e.DoFindUser? || e.DoResolve? || e.DoPersist? || e.DoPublish? || e.DoMarkOwn? || e.DoFindLocal?
    ensures |ListenStep(w, c, e).nodes| == |w.nodes| && AnswerBalance(w, Listen(c, e), ListenStep(w, c, e), n)
  {
  }

  lemma ReaderAnswers(w: World, c: nat, e: ListenAct, n: nat)
    requires ListenEnabled(w, c, e) && n < |w.nodes|
    requires e.Receive? || e.Pong? || e.ReadFails? || e.DoPushClosed? || e.DoAck? || e.CloseConn? || e.CloseSend?
    ensures |ListenStep(w, c, e).nodes| == |w.nodes| && AnswerBalance(w, Listen(c, e), ListenStep(w, c, e), n)
  {
  }

  lemma QuietAnswers(w: World, a: Action, n: nat)
    requires Enabled(w, a) && n < |w.nodes| && !a.Conn? && !a.Listen?
    ensures |Step(w, a).nodes| == |w.nodes| && AnswerBalance(w, a, Step(w, a), n)
  {
    if a.SubReceive? {
      SubReceiveAnswers(w, a.node, n);
    } else {
      StepFrame(w, a);
      FrameAnswers(w, a, Step(w, a), n);
    }
  }

  lemma FrameAnswers(w: World, a: Action, w': World, n: nat)
    requires Frame(w, a, w') && n < |w.nodes| && !a.Conn? && !a.Listen? && !a.SubReceive?
    ensures AnswerBalance(w, a, w', n)
  {
  }

  lemma SubReceiveAnswers(w: World, m: nat, n: nat)
    requires SubIdle(w, m) && n < |w.nodes|
    ensures AnswerBalance(w, SubReceive(m), SubReceiveStep(w, m), n)
  {
  }

  lemma StepAnswers(w: World, a: Action, n: nat)
    requires Enabled(w, a) && n < |w.nodes| && Lifecycle.Inv(w)
    ensures |Step(w, a).nodes| == |w.nodes| && AnswerBalance(w, a, Step(w, a), n)
  {
    match a
    case Conn(c, e) => ConnAnswers(w, c, e, n);
    case Listen(c, e) => ListenAnswers(w, c, e, n);
    case _ => QuietAnswers(w, a, n);
  }

  lemma ListenAnswers(w: World, c: nat, e: ListenAct, n: nat)
    requires ListenEnabled(w, c, e) && n < |w.nodes|
    ensures |ListenStep(w, c, e).nodes| == |w.nodes| && AnswerBalance(w, Listen(c, e), ListenStep(w, c, e), n)
  {
    match e
    case DoFindNode(ok) => FindNodeAnswers(w, c, ok, n);
    case DoForward(ok, reached) => ForwardAnswers(w, c, ok, reached, n);
    case DoPush => PushAnswers(w, c, n);
    case _ =>
      if e.DoFindUser? || e.DoResolve? || e.DoPersist? || e.DoPublish? || e.DoMarkOwn? || e.DoFindLocal? {
        HandlerAnswers(w, c, e, n);
      } else {
        ReaderAnswers(w, c, e, n);
      }
  }

  lemma OthersForward(w: World, a: Action, w': World, n: nat)
    requires Frame(w, a, w') && Mover(a) < |w.clients|
    ensures CountIf(ForwardingOn(n), w'.clients) + At(ForwardingOn(n), w.clients, Mover(a))
            == CountIf(ForwardingOn(n), w.clients) + At(ForwardingOn(n), w'.clients, Mover(a))
  {
    forall j | 0 <= j < |w.clients| && j != Mover(a)
      ensures ForwardingOn(n)(w.clients[j]) == ForwardingOn(n)(w'.clients[j])
    {
      assert OnlyOffered(w.clients[j], w'.clients[j]);
    }
    CountMoves(ForwardingOn(n), w.clients, w'.clients, Mover(a));
  }

  lemma MoverExists(w: World, a: Action)
    requires Enabled(w, a)
    ensures Mover(a) < |w.clients|
  {
  }

  lemma LookupStep(w: World, a: Action, n: nat)
    requires Enabled(w, a) && n < |w.nodes| && Lifecycle.Inv(w)
    ensures |Step(w, a).nodes| == |w.nodes| && LookupDelta(w, a, Step(w, a), n)
  {
    StepAnswers(w, a, n);
    StepFrame(w, a);
    MoverExists(w, a);
    OthersForward(w, a, Step(w, a), n);
  }

  ghost predicate LookupDelta(w: World, a: Action, w': World, n: nat)
    requires n < |w.nodes| == |w'.nodes|
  {
    var x, y := w.nodes[n].metrics, w'.nodes[n].metrics;
    && y.lookupFailed == x.lookupFailed + Got(w, a, n, Failed)
    && y.offline == x.offline + Got(w, a, n, NoKey)
    && y.ghostOnline == x.ghostOnline + Got(w, a, n, OwnNode)
    && y.crossInstance + y.forwardFailed + CountIf(ForwardingOn(n), w'.clients)
       == x.crossInstance + x.forwardFailed + CountIf(ForwardingOn(n), w.clients) + Got(w, a, n, OtherNode)
  }

  lemma LookupAt(tr: seq<World>, acts: seq<Action>, k: nat, n: nat)
    requires Run(tr, acts) && k < |acts| && n < |tr[k].nodes|
    ensures |tr[k + 1].nodes| == |tr[k].nodes| && LookupDelta(tr[k], acts[k], tr[k + 1], n)
  {
    assert StepAt(tr, acts, k);
    Lifecycle.InvHolds(tr, acts, k);
    LookupStep(tr[k], acts[k], n);
  }

  lemma {:induction false} AllNodes(tr: seq<World>, acts: seq<Action>, k: nat)
    requires Run(tr, acts) && k < |tr|
    ensures |tr[k].nodes| == |tr[0].nodes|
  {
    if k > 0 {
      SameNodes(tr, acts, k);
      AllNodes(tr, acts, k - 1);
    }
  }

  /** The routing counters are the history of the lookups. In every reachable state
      `redis_lookup_failed`, `offline` and `ghost_online` of a node are the numbers of
      lookups so far that failed, that found no live key, and that found the node's own
      name; the lookups that found another node's name are those whose forward was
      published, failed, or is still to come. */
  lemma {:induction false} LookupCounters(tr: seq<World>, acts: seq<Action>, k: nat, n: nat)
    requires Run(tr, acts) && k < |tr| && forall i :: 0 <= i < |tr| ==> n < |tr[i].nodes|
    ensures var m := tr[k].nodes[n].metrics;
            && m.lookupFailed == Answers(tr, acts, k, n, Failed)
            && m.offline == Answers(tr, acts, k, n, NoKey)
            && m.ghostOnline == Answers(tr, acts, k, n, OwnNode)
            && m.crossInstance + m.forwardFailed
            + CountIf(ForwardingOn(n), tr[k].clients) == Answers(tr, acts, k, n, OtherNode)
  {
    if k > 0 {
      LookupCounters(tr, acts, k - 1, n);
      LookupAt(tr, acts, k - 1, n);
    }
  }

  // --------------------------------------------------------- published forwards

  /** What a node took from the channel was addressed to its name and handed to a
      connection of the addressee. */
  ghost predicate TakenOk(w: World, n: nat)
    requires n < |w.nodes|
  {
    var node := w.nodes[n];
    && (forall f :: f in node.taken ==>
          && f < node.read <= |w.forwards|
          && w.forwards[f].node == node.name
          && node.taken[f] < |w.clients|
          && w.clients[node.taken[f]].user == w.forwards[f].user
          && w.clients[node.taken[f]].node == n)
    && (node.held.Some? ==>
          node.held.value.forward in node.taken && node.taken[node.held.value.forward] == node.held.value.client)
  }

  lemma TakenStep(w: World, a: Action, n: nat)
    requires Enabled(w, a) && n < |w.nodes| && Lifecycle.Inv(w) && TakenOk(w, n)
    ensures n < |Step(w, a).nodes| && TakenOk(Step(w, a), n)
  {
    StepFrame(w, a);
    assert Lifecycle.NodeOk(w, n);
    if a == SubReceive(n) { SubReceiveTaken(w, n); }
    else if a == SubPush(n) { SubPushTaken(w, n); }
    else { TakenStays(w, a, Step(w, a), n); }
  }

  lemma TakenStays(w: World, a: Action, w': World, n: nat)
    requires Frame(w, a, w') && n < |w.nodes| && w.nodes[n].read <= |w.forwards| && TakenOk(w, n)
    requires a != SubReceive(n) && a != SubPush(n)
    requires a == SubLose(n) ==> w'.nodes[n].taken == w.nodes[n].taken && w'.nodes[n].read <= |w.forwards|
    ensures TakenOk(w', n)
  {
  }

  lemma SubReceiveTaken(w: World, n: nat)
    requires SubIdle(w, n) && Lifecycle.Inv(w) && TakenOk(w, n)
    ensures TakenOk(SubReceiveStep(w, n), n)
  {
    var f := w.forwards[w.nodes[n].read];
    if f.user in w.nodes[n].registry {
      assert Lifecycle.SlotOk(w, n, f.user, w.nodes[n].registry[f.user]);
    }
  }

  lemma SubPushTaken(w: World, n: nat)
    requires SubHolds(w, n) && TakenOk(w, n)
    ensures TakenOk(SubPushStep(w, n), n)
  {
  }

  lemma {:induction false} TakenHolds(tr: seq<World>, acts: seq<Action>, k: nat, n: nat)
    requires Run(tr, acts) && k < |tr| && n < |tr[k].nodes|
    ensures TakenOk(tr[k], n)
  {
    if k > 0 {
      assert StepAt(tr, acts, k - 1);
      SameNodes(tr, acts, k);
      TakenHolds(tr, acts, k - 1, n);
      Lifecycle.InvHolds(tr, acts, k - 1);
      TakenStep(tr[k - 1], acts[k - 1], n);
    }
  }

  /** With distinct node names a published forward is accepted by at most one node. */
  lemma ForwardTakenOnce(tr: seq<World>, acts: seq<Action>, k: nat, n: nat, n': nat, f: nat)
    requires Run(tr, acts) && k < |tr|
    requires forall i, j :: 0 <= i < j < |tr[k].nodes| ==> tr[k].nodes[i].name != tr[k].nodes[j].name
    requires n < |tr[k].nodes| && n' < |tr[k].nodes| && f in tr[k].nodes[n].taken && f in tr[k].nodes[n'].taken
    ensures n == n' && f < |tr[k].forwards|
  {
    TakenHolds(tr, acts, k, n);
    TakenHolds(tr, acts, k, n');
  }

  /** Step `i` of the run is the subscriber push of record `f` on node `n`. */
  ghost predicate PushOf(tr: seq<World>, acts: seq<Action>, i: nat, n: nat, f: nat)
    requires i < |acts| && i < |tr|
  {
    acts[i] == SubPush(n) && n < |tr[i].nodes| && tr[i].nodes[n].held.Some? && tr[i].nodes[n].held.value.forward == f
  }

  /** Node `n` has consumed record `f` and does not hold it any more. */
  ghost predicate Passed(w: World, n: nat, f: nat) {
    n < |w.nodes| && f < w.nodes[n].read && (w.nodes[n].held.Some? ==> w.nodes[n].held.value.forward != f)
  }

  lemma PassedStep(w: World, a: Action, n: nat, f: nat)
    requires Enabled(w, a) && Passed(w, n, f)
    ensures Passed(Step(w, a), n, f)
  {
    StepFrame(w, a);
    if a == SubReceive(n) { assert Passed(SubReceiveStep(w, n), n, f); }
    if a == SubPush(n) { assert Passed(SubPushStep(w, n), n, f); }
  }

  lemma {:induction false} PassedAlong(tr: seq<World>, acts: seq<Action>, i: nat, j: nat, n: nat, f: nat)
    requires Run(tr, acts) && i <= j < |tr| && Passed(tr[i], n, f)
    ensures Passed(tr[j], n, f)
    decreases j - i
  {
    if i < j {
      assert StepAt(tr, acts, j - 1);
      PassedAlong(tr, acts, i, j - 1, n, f);
      PassedStep(tr[j - 1], acts[j - 1], n, f);
    }
  }

  /** A push offers its record to one connection, which is the addressee's and on that
      node; afterwards the node has passed the record. */
  lemma PushOffers(tr: seq<World>, acts: seq<Action>, i: nat, n: nat, f: nat)
    requires Run(tr, acts) && i < |acts| && PushOf(tr, acts, i, n, f)
    ensures f < |tr[i].forwards| && tr[i].forwards[f].node == tr[i].nodes[n].name && Passed(tr[i + 1], n, f)
    ensures var t := tr[i].nodes[n].held.value.client;
            && t < |tr[i].clients| && t < |tr[i + 1].clients|
            && tr[i].clients[t].user == tr[i].forwards[f].user && tr[i].clients[t].node == n
            && tr[i + 1].clients[t].offered == tr[i].clients[t].offered + [tr[i].forwards[f].payload]
  {
    assert StepAt(tr, acts, i);
    TakenHolds(tr, acts, i, n);
  }

  lemma NamesStay(tr: seq<World>, acts: seq<Action>, i: nat, j: nat, n: nat)
    requires Run(tr, acts) && i <= j < |tr| && n < |tr[i].nodes|
    ensures n < |tr[j].nodes| && tr[j].nodes[n].name == tr[i].nodes[n].name && tr[i].forwards <= tr[j].forwards
    decreases j - i
  {
    if i < j {
      assert StepAt(tr, acts, j - 1);
      NamesStay(tr, acts, i, j - 1, n);
      StepFrame(tr[j - 1], acts[j - 1]);
    }
  }

  /** With distinct node names each published forward is offered at most once: no two
      steps of a run, on whatever nodes, push the same record. */
  lemma ForwardOfferedOnce(tr: seq<World>, acts: seq<Action>, i: nat, j: nat, n: nat, n': nat, f: nat)
    requires Run(tr, acts) && i < |acts| && j < |acts|
    requires forall x, y :: 0 <= x < y < |tr[0].nodes| ==> tr[0].nodes[x].name != tr[0].nodes[y].name
    requires PushOf(tr, acts, i, n, f) && PushOf(tr, acts, j, n', f)
    ensures i == j && n == n'
  {
    if j < i {
      ForwardOfferedOnce(tr, acts, j, i, n', n, f);
    } else {
      PushOffers(tr, acts, i, n, f);
      PushOffers(tr, acts, j, n', f);
      AllNodes(tr, acts, i);
      AllNodes(tr, acts, j);
      NamesStay(tr, acts, 0, i, n);
      NamesStay(tr, acts, 0, j, n');
      NamesStay(tr, acts, i, j, n);
      if i < j { PassedAlong(tr, acts, i + 1, j, n, f); }
    }
  }
}
