/** The durable queue of conversation updates and its consumers, over every run of
    enqueues, deliveries, settlements and channel failures. */
module Broker {
  import opened Basics
  import opened Store

  /** A message body: an update, or bytes that do not decode. */
  datatype Body = Update(conv: nat, row: Message) | Garbage

  datatype Status = Unacked | Acked | DeadLettered | Requeued

  /** A delivery is identified by its index; `channel` is the consumer's channel. */
  datatype Delivery = Delivery(body: Body, channel: nat, status: Status)

  /** The goroutine of one consumer. `settle` carries whether it will ack or nack. */
  datatype WorkerPc = Idle | Updating(tag: nat) | Settling(tag: nat, ack: bool)
  datatype Worker = Worker(open: bool, local: seq<nat>, pc: WorkerPc)

  datatype Queue = Queue(
    db: Db,
    ready: multiset<Body>,
    deliveries: seq<Delivery>,
    workers: seq<Worker>,
    enqueued: multiset<Body>,   // history
    applied: set<Body>,         // history: updates some consumer wrote to the table
    direct: set<Body>)          // history: updates a sender wrote itself

  datatype Action =
    | Enqueue(sender: nat, body: Body)
    | Start                         // StartConversationUpdateConsumer
    | Deliver(worker: nat, body: Body)
    | Take(worker: nat)
    | Apply(worker: nat, ok: bool)
    | Settle(worker: nat, ok: bool)
    | CloseChannel(worker: nat)
    | Direct(sender: nat, body: Body, ok: bool)  // a sender falls back to the table

  predicate Has(q: Queue, w: nat) {
    w < |q.workers|
  }

  predicate Enabled(q: Queue, a: Action) {
    match a
    case Enqueue(_, _) => true
    case Start => true
    case Deliver(w, b) => Has(q, w) && q.workers[w].open && b in q.ready
    case Take(w) =>
      Has(q, w) && q.workers[w].pc.Idle? && q.workers[w].local != [] && q.workers[w].local[0] < |q.deliveries|
    case Apply(w, _) => Has(q, w) && q.workers[w].pc.Updating? && q.workers[w].pc.tag < |q.deliveries|
                        && q.deliveries[q.workers[w].pc.tag].body.Update?
    case Settle(w, ok) => Has(q, w) && q.workers[w].pc.Settling? && q.workers[w].pc.tag < |q.deliveries|
    case CloseChannel(w) => Has(q, w) && q.workers[w].open
    case Direct(_, b, _) => b.Update?
  }

  function SetWorker(q: Queue, w: nat, worker: Worker): Queue
    requires Has(q, w)
  {
    q.(workers := q.workers[w := worker])
  }

  /** A body that does not decode is rejected without touching the table. */
  function TakeStep(q: Queue, w: nat): Queue
    requires Enabled(q, Take(w))
  {
    var x := q.workers[w];
    var tag := x.local[0];
    var pc := if q.deliveries[tag].body.Update? then Updating(tag) else Settling(tag, false);
    SetWorker(q, w, x.(local := x.local[1..], pc := pc))
  }

  /** Ack after a successful update, reject without requeue after an error. */
  function ApplyStep(q: Queue, w: nat, ok: bool): Queue
    requires Enabled(q, Apply(w, ok))
  {
    var x := q.workers[w];
    var b := q.deliveries[x.pc.tag].body;
    var (db, r) := UpdateConversation(q.db, b.conv, b.row, ok);
    SetWorker(q, w, x.(pc := Settling(x.pc.tag, r.Ok?)))
    .(db := db, applied := if r.Ok? then q.applied + {b} else q.applied)
  }

  /** The broker honours a settlement that arrives on an open channel. */
  function SettleStep(q: Queue, w: nat, ok: bool): Queue
    requires Enabled(q, Settle(w, ok))
  {
    var x := q.workers[w];
    var d := q.deliveries[x.pc.tag];
    SetWorker(q, w, x.(pc := Idle))
    .(deliveries := if ok && x.open
                    then q.deliveries[x.pc.tag := d.(status := if x.pc.ack then Acked else DeadLettered)]
                    else q.deliveries)
  }

  function DirectStep(q: Queue, b: Body, ok: bool): Queue
    requires b.Update?
  {
    var (db, r) := UpdateConversation(q.db, b.conv, b.row, ok);
    q.(db := db, direct := if r.Ok? then q.direct + {b} else q.direct)
  }

  predicate OnChannel(d: Delivery, w: nat) {
    d.channel == w && d.status.Unacked?
  }

  function Requeue(ds: seq<Delivery>, w: nat): seq<Delivery> {
    seq(|ds|, i requires 0 <= i < |ds| => if OnChannel(ds[i], w) then ds[i].(status := Requeued) else ds[i])
  }

  /** The bodies of deliveries in one state. */
  function Bodies(ds: seq<Delivery>, p: Delivery -> bool): multiset<Body> {
    if ds == [] then multiset{}
    else
      var n := |ds| - 1;
      Bodies(ds[..n], p) + if p(ds[n]) then multiset{ds[n].body} else multiset{}
  }

  function InState(s: Status): Delivery -> bool {
    (d: Delivery) => d.status == s
  }

  function UnackedOn(w: nat): Delivery -> bool {
    (d: Delivery) => OnChannel(d, w)
  }

  function Step(q: Queue, a: Action): Queue
    requires Enabled(q, a)
  {
    match a
    case Enqueue(_, b) => q.(ready := q.ready + multiset{b}, enqueued := q.enqueued + multiset{b})
    case Start => q.(workers := q.workers + [Worker(true, [], Idle)])
    case Deliver(w, b) =>
      SetWorker(q, w, q.workers[w].(local := q.workers[w].local + [|q.deliveries|]))
      .(ready := q.ready - multiset{b}, deliveries := q.deliveries + [Delivery(b, w, Unacked)])
    case Take(w) => TakeStep(q, w)
    case Apply(w, ok) => ApplyStep(q, w, ok)
    case Settle(w, ok) => SettleStep(q, w, ok)
    case CloseChannel(w) =>
      SetWorker(q, w, q.workers[w].(open := false))
      .(ready := q.ready + Bodies(q.deliveries, UnackedOn(w)), deliveries := Requeue(q.deliveries, w))
    case Direct(_, b, ok) => DirectStep(q, b, ok)
  }

  ghost predicate Init(q: Queue) {
    q.ready == multiset{} && q.deliveries == [] && q.workers == [] && q.enqueued == multiset{} && q.applied == {}
    && q.direct == {}
    && forall k :: 0 <= k < |q.db.convs| ==> q.db.convs[k].last.None?
  }

  ghost predicate StepAt(tr: seq<Queue>, acts: seq<Action>, k: nat)
    requires k < |acts| && k + 1 < |tr|
  {
    Enabled(tr[k], acts[k]) && tr[k + 1] == Step(tr[k], acts[k])
  }

  ghost predicate Run(tr: seq<Queue>, acts: seq<Action>) {
    |tr| == |acts| + 1 && Init(tr[0]) && forall k :: 0 <= k < |acts| ==> StepAt(tr, acts, k)
  }

  lemma RunExtends(tr: seq<Queue>, acts: seq<Action>, a: Action)
    requires Run(tr, acts) && Enabled(tr[|acts|], a)
    ensures Run(tr + [Step(tr[|acts|], a)], acts + [a])
  {
    var tr', acts' := tr + [Step(tr[|acts|], a)], acts + [a];
    forall k | 0 <= k < |acts'|
      ensures StepAt(tr', acts', k)
    {
      if k < |acts| { assert StepAt(tr, acts, k); }
    }
  }

  // ------------------------------------------------------------- invariant

  /** Enqueued is ready plus unacked plus acked plus dead-lettered. */
  ghost predicate Conserved(q: Queue) {
    q.enqueued == q.ready + Bodies(q.deliveries, InState(Unacked)) + Bodies(q.deliveries, InState(Acked))
                  + Bodies(q.deliveries, InState(DeadLettered))
  }

  function Holding(x: Worker): seq<nat> {
    (if x.pc.Idle? then [] else [x.pc.tag]) + x.local
  }

  /** What a consumer has in hand came over its own channel, each delivery once, and is
      still unsettled while the channel is open. */
  ghost predicate WorkerOk(q: Queue, w: nat)
    requires Has(q, w)
  {
    var x := q.workers[w];
    && (forall i :: 0 <= i < |Holding(x)| ==>
          && Holding(x)[i] < |q.deliveries|
          && q.deliveries[Holding(x)[i]].channel == w
          && (x.open ==> q.deliveries[Holding(x)[i]].status.Unacked?)
          && (!x.open ==> !q.deliveries[Holding(x)[i]].status.Unacked?))
    && (forall i, j :: 0 <= i < j < |Holding(x)| ==> Holding(x)[i] != Holding(x)[j])
    && (x.pc.Updating? ==> x.pc.tag < |q.deliveries| && q.deliveries[x.pc.tag].body.Update?)
    && (x.pc.Settling? && x.pc.ack ==> x.pc.tag < |q.deliveries| && q.deliveries[x.pc.tag].body in q.applied)
  }

  ghost predicate DeliveryOk(q: Queue, d: Delivery) {
    && d.channel < |q.workers|
    && (d.status.Unacked? ==> q.workers[d.channel].open)
    && (d.status.Acked? ==> d.body in q.applied)
    && d.body in q.enqueued
  }

  /** The summary of conversation `conv` is what `b` wrote there. */
  predicate Explains(row: Conversation, b: Body, conv: nat) {
    b.Update? && b.conv == conv && Shows(row, b.row)
  }

  ghost predicate SummariesOk(q: Queue) {
    && (forall b :: b in q.applied ==> b in q.enqueued && b.Update?)
    && (forall b :: b in q.direct ==> b.Update?)
    && (forall b :: b in q.ready ==> b in q.enqueued)
    && (forall k :: 0 <= k < |q.db.convs| && q.db.convs[k].last.Some? ==>
          exists b :: b in q.applied + q.direct && Explains(q.db.convs[k], b, k + 1))
  }

  /** Everything but conservation. */
  ghost predicate Local(q: Queue) {
    WorkersOk(q) && DeliveriesOk(q) && SummariesOk(q)
  }

  ghost predicate Inv(q: Queue) {
    Conserved(q) && Local(q)
  }

  // ---------------------------------------------------------- conservation

  lemma EnqueueConserves(q: Queue, s: nat, b: Body)
    requires Conserved(q)
    ensures Conserved(Step(q, Enqueue(s, b)))
  {
    EnterReady(q.enqueued, q.ready, multiset{b}, Bodies(q.deliveries, InState(Unacked)),
               Bodies(q.deliveries, InState(Acked)), Bodies(q.deliveries, InState(DeadLettered)));
  }

  lemma EnterReady(e: multiset<Body>, r: multiset<Body>, x: multiset<Body>, u: multiset<Body>, a: multiset<Body>,
                   d: multiset<Body>)
    requires e == r + u + a + d
    ensures e + x == (r + x) + u + a + d
  {
  }

  lemma DeliverConserves(q: Queue, w: nat, b: Body)
    requires Conserved(q) && Enabled(q, Deliver(w, b))
    ensures Conserved(Step(q, Deliver(w, b)))
  {
    var d := Delivery(b, w, Unacked);
    BodiesAppend(q.deliveries, d, InState(Unacked));
    BodiesAppend(q.deliveries, d, InState(Acked));
    BodiesAppend(q.deliveries, d, InState(DeadLettered));
    MoveToUnacked(q.enqueued, q.ready, multiset{b}, Bodies(q.deliveries, InState(Unacked)),
                  Bodies(q.deliveries, InState(Acked)), Bodies(q.deliveries, InState(DeadLettered)));
  }

  lemma MoveToUnacked(e: multiset<Body>, r: multiset<Body>, x: multiset<Body>, u: multiset<Body>, a: multiset<Body>,
                      d: multiset<Body>)
    requires e == r + u + a + d && x <= r
    ensures e == (r - x) + (u + x) + a + d
  {
  }

  lemma SettleConserves(q: Queue, w: nat, ok: bool)
    requires Conserved(q) && Local(q) && Enabled(q, Settle(w, ok))
    ensures Conserved(SettleStep(q, w, ok))
  {
    var x := q.workers[w];
    var t := x.pc.tag;
    if ok && x.open {
      assert WorkerOk(q, w) && Holding(x)[0] == t;
      SettleOne(q.deliveries, t, x.pc.ack);
      var ds, ds' := q.deliveries, SettleStep(q, w, ok).deliveries;
      MovesOne(q.enqueued, q.ready, multiset{ds[t].body},
               Bodies(ds, InState(Unacked)), Bodies(ds, InState(Acked)), Bodies(ds, InState(DeadLettered)),
               Bodies(ds', InState(Unacked)), Bodies(ds', InState(Acked)), Bodies(ds', InState(DeadLettered)),
               x.pc.ack);
    }
  }

  lemma SettleOne(ds: seq<Delivery>, t: nat, ack: bool)
    requires t < |ds| && ds[t].status.Unacked?
    ensures var ds', b := ds[t := ds[t].(status := if ack then Acked else DeadLettered)], multiset{ds[t].body};
            && Bodies(ds', InState(Unacked)) + b == Bodies(ds, InState(Unacked))
            && Bodies(ds', InState(Acked)) ==
                 (if ack then Bodies(ds, InState(Acked)) + b else Bodies(ds, InState(Acked)))
            && Bodies(ds', InState(DeadLettered)) ==
                 (if ack then Bodies(ds, InState(DeadLettered)) else Bodies(ds, InState(DeadLettered)) + b)
  {
    var s := if ack then Acked else DeadLettered;
    var ds', none := ds[t := ds[t].(status := s)], multiset{};
    BodiesUpdate(ds, t, s, InState(Unacked));
    BodiesUpdate(ds, t, s, InState(Acked));
    BodiesUpdate(ds, t, s, InState(DeadLettered));
    assert forall m: multiset<Body> :: m + none == m;
  }

  lemma MovesOne(e: multiset<Body>, r: multiset<Body>, x: multiset<Body>,
                 u: multiset<Body>, a: multiset<Body>, d: multiset<Body>,
                 u': multiset<Body>, a': multiset<Body>, d': multiset<Body>, ack: bool)
    requires e == r + u + a + d
    requires u' + x == u
    requires a' == if ack then a + x else a
    requires d' == if ack then d else d + x
    ensures e == r + u' + a' + d'
  {
  }

  lemma CloseConserves(q: Queue, w: nat)
    requires Conserved(q) && Enabled(q, CloseChannel(w))
    ensures Conserved(Step(q, CloseChannel(w)))
  {
    RequeueMoves(q.deliveries, w);
    var ds, ds' := q.deliveries, Requeue(q.deliveries, w);
    ReturnsToReady(q.enqueued, q.ready, Bodies(ds, UnackedOn(w)), Bodies(ds, InState(Unacked)),
                   Bodies(ds', InState(Unacked)),
                   Bodies(ds, InState(Acked)), Bodies(ds, InState(DeadLettered)));
  }

  lemma ReturnsToReady(e: multiset<Body>, r: multiset<Body>, x: multiset<Body>, u: multiset<Body>, u': multiset<Body>,
                       a: multiset<Body>, d: multiset<Body>)
    requires e == r + u + a + d && u == u' + x
    ensures e == (r + x) + u' + a + d
  {
  }

  // ---------------------------------------------------------- preservation

  lemma BodiesAppend(ds: seq<Delivery>, d: Delivery, p: Delivery -> bool)
    ensures Bodies(ds + [d], p) == if p(d) then Bodies(ds, p) + multiset{d.body} else Bodies(ds, p)
  {
    assert (ds + [d])[..|ds|] == ds;
  }

  lemma SameLast(b: multiset<Body>, x: multiset<Body>, c: multiset<Body>, y: multiset<Body>, l: multiset<Body>)
    requires b + x == c + y
    ensures b + l + x == c + l + y
  {
    assert b + l + x == (b + x) + l;
    assert c + l + y == (c + y) + l;
  }

  lemma {:induction false} BodiesUpdate(ds: seq<Delivery>, t: nat, s: Status, p: Delivery -> bool)
    requires t < |ds|
    ensures var d, d' := ds[t], ds[t].(status := s);
            Bodies(ds[t := d'], p) + (if p(d) then multiset{d.body} else multiset{})
            == Bodies(ds, p) + if p(d') then multiset{d.body} else multiset{}
  {
    var n, d' := |ds| - 1, ds[t].(status := s);
    if t == n {
      assert ds[t := d'][..n] == ds[..n];
    } else {
      assert ds[t := d'][..n] == ds[..n][t := d'];
      BodiesUpdate(ds[..n], t, s, p);
      SameLast(Bodies(ds[..n][t := d'], p), if p(ds[t]) then multiset{ds[t].body} else multiset{},
               Bodies(ds[..n], p), if p(d') then multiset{ds[t].body} else multiset{},
               if p(ds[n]) then multiset{ds[n].body} else multiset{});
    }
  }

  /** Closing a channel moves its unacked bodies and no others. */
  lemma {:induction false} RequeueMoves(ds: seq<Delivery>, w: nat)
    ensures Bodies(ds, InState(Unacked)) == Bodies(Requeue(ds, w), InState(Unacked)) + Bodies(ds, UnackedOn(w))
    ensures Bodies(Requeue(ds, w), InState(Acked)) == Bodies(ds, InState(Acked))
    ensures Bodies(Requeue(ds, w), InState(DeadLettered)) == Bodies(ds, InState(DeadLettered))
  {
    if ds != [] {
      var n := |ds| - 1;
      assert Requeue(ds, w)[..n] == Requeue(ds[..n], w);
      RequeueMoves(ds[..n], w);
    }
  }

  lemma {:induction false} BodiesAreEnqueued(ds: seq<Delivery>, p: Delivery -> bool, all: multiset<Body>)
    requires forall t :: 0 <= t < |ds| ==> ds[t].body in all
    ensures forall b :: b in Bodies(ds, p) ==> b in all
  {
    if ds != [] { BodiesAreEnqueued(ds[..|ds| - 1], p, all); }
  }

  /** A worker keeps its part of the invariant while others act. */
  lemma WorkerStays(q: Queue, q': Queue, v: nat)
    requires Has(q, v) && Has(q', v) && q'.workers[v] == q.workers[v] && WorkerOk(q, v)
    requires |q.deliveries| <= |q'.deliveries| && q.applied <= q'.applied
    requires forall t :: 0 <= t < |q.deliveries| && q.deliveries[t].channel == v ==> q'.deliveries[t] == q.deliveries[t]
    ensures WorkerOk(q', v)
  {
    var x := q.workers[v];
    if !x.pc.Idle? { assert Holding(x)[0] == x.pc.tag; }
  }

  lemma DeliveryStays(q: Queue, q': Queue, d: Delivery)
    requires DeliveryOk(q, d) && |q.workers| <= |q'.workers| && q'.workers[d.channel].open == q.workers[d.channel].open
    requires q.enqueued <= q'.enqueued && q.applied <= q'.applied
    ensures DeliveryOk(q', d)
  {
  }

  ghost predicate WorkersOk(q: Queue) {
    forall w :: 0 <= w < |q.workers| ==> WorkerOk(q, w)
  }

  ghost predicate DeliveriesOk(q: Queue) {
    forall t :: 0 <= t < |q.deliveries| ==> DeliveryOk(q, q.deliveries[t])
  }

  // Deliver

  lemma DeliverWorker(q: Queue, w: nat, b: Body)
    requires Local(q) && Enabled(q, Deliver(w, b))
    ensures WorkerOk(Step(q, Deliver(w, b)), w)
  {
    var q' := Step(q, Deliver(w, b));
    assert WorkerOk(q, w);
    assert Holding(q'.workers[w]) == Holding(q.workers[w]) + [|q.deliveries|];
  }

  lemma DeliverWorkers(q: Queue, w: nat, b: Body)
    requires Local(q) && Enabled(q, Deliver(w, b))
    ensures WorkersOk(Step(q, Deliver(w, b)))
  {
    var q' := Step(q, Deliver(w, b));
    DeliverWorker(q, w, b);
    forall v | 0 <= v < |q'.workers|
      ensures WorkerOk(q', v)
    {
      if v != w { WorkerStays(q, q', v); }
    }
  }

  lemma DeliverDeliveries(q: Queue, w: nat, b: Body)
    requires Local(q) && Enabled(q, Deliver(w, b))
    ensures DeliveriesOk(Step(q, Deliver(w, b)))
  {
    var q' := Step(q, Deliver(w, b));
    forall t | 0 <= t < |q'.deliveries|
      ensures DeliveryOk(q', q'.deliveries[t])
    {
      if t < |q.deliveries| { DeliveryStays(q, q', q.deliveries[t]); }
    }
  }

  // Take

  lemma TakeWorkers(q: Queue, w: nat)
    requires Local(q) && Enabled(q, Take(w))
    ensures WorkersOk(TakeStep(q, w))
  {
    var q' := TakeStep(q, w);
    forall v | 0 <= v < |q'.workers|
      ensures WorkerOk(q', v)
    {
      if v == w { TakeWorker(q, w); } else { WorkerStays(q, q', v); }
    }
  }

  lemma TakeWorker(q: Queue, w: nat)
    requires Local(q) && Enabled(q, Take(w))
    ensures WorkerOk(TakeStep(q, w), w)
  {
    assert WorkerOk(q, w);
    assert Holding(TakeStep(q, w).workers[w]) == Holding(q.workers[w]);
  }

  // Apply

  lemma ApplyWorker(q: Queue, w: nat, ok: bool)
    requires Local(q) && Enabled(q, Apply(w, ok))
    ensures WorkerOk(ApplyStep(q, w, ok), w)
  {
    assert WorkerOk(q, w);
    assert Holding(ApplyStep(q, w, ok).workers[w]) == Holding(q.workers[w]);
  }

  lemma ApplyWorkers(q: Queue, w: nat, ok: bool)
    requires Local(q) && Enabled(q, Apply(w, ok))
    ensures WorkersOk(ApplyStep(q, w, ok))
  {
    var q' := ApplyStep(q, w, ok);
    forall v | 0 <= v < |q'.workers|
      ensures WorkerOk(q', v)
    {
      if v == w { ApplyWorker(q, w, ok); } else { WorkerStays(q, q', v); }
    }
  }

  lemma ApplyDeliveries(q: Queue, w: nat, ok: bool)
    requires Local(q) && Enabled(q, Apply(w, ok))
    ensures DeliveriesOk(ApplyStep(q, w, ok))
  {
    var q' := ApplyStep(q, w, ok);
    forall t | 0 <= t < |q'.deliveries|
      ensures DeliveryOk(q', q'.deliveries[t])
    {
      DeliveryStays(q, q', q.deliveries[t]);
    }
  }

  lemma ApplySummaries(q: Queue, w: nat, ok: bool)
    requires Local(q) && Enabled(q, Apply(w, ok))
    ensures SummariesOk(ApplyStep(q, w, ok))
  {
    assert WorkerOk(q, w) && Holding(q.workers[w])[0] == q.workers[w].pc.tag;
    var b := q.deliveries[q.workers[w].pc.tag].body;
    assert DeliveryOk(q, q.deliveries[q.workers[w].pc.tag]);
    SummaryWritten(q, ApplyStep(q, w, ok), b, ok);
  }

  /** Writing `b` to the table keeps the summaries explained. */
  lemma SummaryWritten(q: Queue, q': Queue, b: Body, ok: bool)
    requires SummariesOk(q) && b.Update? && q'.ready == q.ready && q'.enqueued == q.enqueued
    requires var (db, r) := UpdateConversation(q.db, b.conv, b.row, ok);
             && q'.db == db
             && (r.Err? ==> q'.applied == q.applied && q'.direct == q.direct)
             && (r.Ok? ==> (b in q.enqueued && q'.applied == q.applied + {b} && q'.direct == q.direct)
                           || (q'.applied == q.applied && q'.direct == q.direct + {b}))
    ensures SummariesOk(q')
  {
    forall k | 0 <= k < |q'.db.convs| && q'.db.convs[k].last.Some?
      ensures exists x :: x in q'.applied + q'.direct && Explains(q'.db.convs[k], x, k + 1)
    {
      if q'.db.convs[k] == q.db.convs[k] {
        var x :| x in q.applied + q.direct && Explains(q.db.convs[k], x, k + 1);
        assert x in q'.applied + q'.direct;
      } else {
        assert b in q'.applied + q'.direct && Explains(q'.db.convs[k], b, k + 1);
      }
    }
  }

  // Settle

  lemma SettleWorker(q: Queue, w: nat, ok: bool)
    requires Local(q) && Enabled(q, Settle(w, ok))
    ensures WorkerOk(SettleStep(q, w, ok), w)
  {
    var q', x := SettleStep(q, w, ok), q.workers[w];
    assert WorkerOk(q, w) && Holding(x)[0] == x.pc.tag;
    assert Holding(q'.workers[w]) == x.local;
    SettleKeepsOthers(q, w);
    forall i | 0 <= i < |x.local|
      ensures x.local[i] < |q.deliveries| && q'.deliveries[x.local[i]] == q.deliveries[x.local[i]]
    {
      assert x.local[i] != x.pc.tag;
    }
  }

  /** What a worker holds besides the delivery it is settling. */
  lemma SettleKeepsOthers(q: Queue, w: nat)
    requires Has(q, w) && WorkerOk(q, w) && q.workers[w].pc.Settling?
    ensures var x := q.workers[w];
            && (forall i :: 0 <= i < |x.local| ==>
                  && x.local[i] < |q.deliveries| && x.local[i] != x.pc.tag && q.deliveries[x.local[i]].channel == w
                  && (q.deliveries[x.local[i]].status.Unacked? <==> x.open))
            && (forall i, j :: 0 <= i < j < |x.local| ==> x.local[i] != x.local[j])
  {
    var x := q.workers[w];
    assert Holding(x) == [x.pc.tag] + x.local;
    forall i | 0 <= i < |x.local|
      ensures && x.local[i] < |q.deliveries| && x.local[i] != x.pc.tag && q.deliveries[x.local[i]].channel == w
              && (q.deliveries[x.local[i]].status.Unacked? <==> x.open)
    {
      assert Holding(x)[i + 1] == x.local[i] && Holding(x)[0] == x.pc.tag;
    }
    forall i, j | 0 <= i < j < |x.local|
      ensures x.local[i] != x.local[j]
    {
      assert Holding(x)[i + 1] == x.local[i] && Holding(x)[j + 1] == x.local[j];
    }
  }

  lemma SettleWorkers(q: Queue, w: nat, ok: bool)
    requires Local(q) && Enabled(q, Settle(w, ok))
    ensures WorkersOk(SettleStep(q, w, ok))
  {
    var q', x := SettleStep(q, w, ok), q.workers[w];
    assert WorkerOk(q, w) && Holding(x)[0] == x.pc.tag;
    forall v | 0 <= v < |q'.workers|
      ensures WorkerOk(q', v)
    {
      if v == w { SettleWorker(q, w, ok); } else { WorkerStays(q, q', v); }
    }
  }

  lemma SettleDeliveries(q: Queue, w: nat, ok: bool)
    requires Local(q) && Enabled(q, Settle(w, ok))
    ensures DeliveriesOk(SettleStep(q, w, ok))
  {
    var q', x := SettleStep(q, w, ok), q.workers[w];
    assert WorkerOk(q, w) && Holding(x)[0] == x.pc.tag;
    assert DeliveryOk(q, q.deliveries[x.pc.tag]);
    forall t | 0 <= t < |q'.deliveries|
      ensures DeliveryOk(q', q'.deliveries[t])
    {
      if t != x.pc.tag { DeliveryStays(q, q', q.deliveries[t]); }
    }
  }

  // CloseChannel

  lemma CloseWorker(q: Queue, w: nat)
    requires Local(q) && Enabled(q, CloseChannel(w))
    ensures WorkerOk(Step(q, CloseChannel(w)), w)
  {
    assert WorkerOk(q, w);
    assert Holding(Step(q, CloseChannel(w)).workers[w]) == Holding(q.workers[w]);
  }

  lemma CloseWorkers(q: Queue, w: nat)
    requires Local(q) && Enabled(q, CloseChannel(w))
    ensures WorkersOk(Step(q, CloseChannel(w)))
  {
    var q' := Step(q, CloseChannel(w));
    forall v | 0 <= v < |q'.workers|
      ensures WorkerOk(q', v)
    {
      if v == w { CloseWorker(q, w); } else { WorkerStays(q, q', v); }
    }
  }

  lemma CloseDeliveries(q: Queue, w: nat)
    requires Local(q) && Enabled(q, CloseChannel(w))
    ensures DeliveriesOk(Step(q, CloseChannel(w)))
  {
    var q' := Step(q, CloseChannel(w));
    forall t | 0 <= t < |q'.deliveries|
      ensures DeliveryOk(q', q'.deliveries[t])
    {
      assert DeliveryOk(q, q.deliveries[t]);
    }
  }

  lemma CloseSummaries(q: Queue, w: nat)
    requires Local(q) && Enabled(q, CloseChannel(w))
    ensures SummariesOk(Step(q, CloseChannel(w)))
  {
    forall t | 0 <= t < |q.deliveries|
      ensures q.deliveries[t].body in q.enqueued
    {
      assert DeliveryOk(q, q.deliveries[t]);
    }
    BodiesAreEnqueued(q.deliveries, UnackedOn(w), q.enqueued);
  }

  // Enqueue, Start and the direct write

  lemma QuietKeeps(q: Queue, q': Queue)
    requires Local(q) && |q.workers| <= |q'.workers| && q'.deliveries == q.deliveries && q'.applied == q.applied
    requires q.enqueued <= q'.enqueued && forall w :: 0 <= w < |q.workers| ==> q'.workers[w] == q.workers[w]
    requires forall w :: |q.workers| <= w < |q'.workers| ==> q'.workers[w] == Worker(true, [], Idle)
    ensures WorkersOk(q') && DeliveriesOk(q')
  {
    forall v | 0 <= v < |q'.workers|
      ensures WorkerOk(q', v)
    {
      if v < |q.workers| { WorkerStays(q, q', v); }
    }
    forall t | 0 <= t < |q'.deliveries|
      ensures DeliveryOk(q', q'.deliveries[t])
    {
      assert DeliveryOk(q, q.deliveries[t]);
      DeliveryStays(q, q', q.deliveries[t]);
    }
  }

  lemma LocalStep(q: Queue, a: Action)
    requires Local(q) && Enabled(q, a)
    ensures Local(Step(q, a))
  {
    match a
    case Enqueue(_, b) => QuietKeeps(q, Step(q, a));
    case Start => QuietKeeps(q, Step(q, a));
    case Deliver(w, b) => DeliverLocal(q, w, b);
    case Take(w) => TakeWorkers(q, w);
    case Apply(w, ok) => ApplyLocal(q, w, ok);
    case Settle(w, ok) => SettleLocal(q, w, ok);
    case CloseChannel(w) => CloseLocal(q, w);
    case Direct(_, b, ok) => QuietKeeps(q, DirectStep(q, b, ok)); SummaryWritten(q, DirectStep(q, b, ok), b, ok);
  }

  lemma DeliverLocal(q: Queue, w: nat, b: Body)
    requires Local(q) && Enabled(q, Deliver(w, b))
    ensures Local(Step(q, Deliver(w, b)))
  {
    DeliverWorkers(q, w, b);
    DeliverDeliveries(q, w, b);
  }

  lemma ApplyLocal(q: Queue, w: nat, ok: bool)
    requires Local(q) && Enabled(q, Apply(w, ok))
    ensures Local(ApplyStep(q, w, ok))
  {
    ApplyWorkers(q, w, ok);
    ApplyDeliveries(q, w, ok);
    ApplySummaries(q, w, ok);
  }

  lemma SettleLocal(q: Queue, w: nat, ok: bool)
    requires Local(q) && Enabled(q, Settle(w, ok))
    ensures Local(SettleStep(q, w, ok))
  {
    SettleWorkers(q, w, ok);
    SettleDeliveries(q, w, ok);
  }

  lemma CloseLocal(q: Queue, w: nat)
    requires Local(q) && Enabled(q, CloseChannel(w))
    ensures Local(Step(q, CloseChannel(w)))
  {
    CloseWorkers(q, w);
    CloseDeliveries(q, w);
    CloseSummaries(q, w);
  }

  lemma ConservedStep(q: Queue, a: Action)
    requires Conserved(q) && Local(q) && Enabled(q, a)
    ensures Conserved(Step(q, a))
  {
    match a
    case Enqueue(s, b) => EnqueueConserves(q, s, b);
    case Deliver(w, b) => DeliverConserves(q, w, b);
    case Settle(w, ok) => SettleConserves(q, w, ok);
    case CloseChannel(w) => CloseConserves(q, w);
    case _ =>
  }

  lemma {:induction false} InvHolds(tr: seq<Queue>, acts: seq<Action>, k: nat)
    requires Run(tr, acts) && k < |tr|
    ensures Inv(tr[k])
  {
    if k > 0 {
      assert StepAt(tr, acts, k - 1);
      InvHolds(tr, acts, k - 1);
      LocalStep(tr[k - 1], acts[k - 1]);
      ConservedStep(tr[k - 1], acts[k - 1]);
    }
  }

  // --------------------------------------------------------------- theorems

  /** Over every run no update is lost or duplicated by the queue: what was enqueued
      is ready, unacked, acked or dead-lettered; and an acked update was written. */
  lemma ConservationTheorem(tr: seq<Queue>, acts: seq<Action>, k: nat)
    requires Run(tr, acts) && k < |tr|
    ensures Conserved(tr[k])
    ensures forall t :: 0 <= t < |tr[k].deliveries| && tr[k].deliveries[t].status.Acked? ==>
              tr[k].deliveries[t].body in tr[k].applied
  {
    InvHolds(tr, acts, k);
    forall t | 0 <= t < |tr[k].deliveries| && tr[k].deliveries[t].status.Acked?
      ensures tr[k].deliveries[t].body in tr[k].applied
    {
      assert DeliveryOk(tr[k], tr[k].deliveries[t]);
    }
  }

  /** A delivery is settled at most once: once acked, dead-lettered or requeued, it
      keeps that status in every later state. */
  lemma {:induction false} SettledOnce(tr: seq<Queue>, acts: seq<Action>, i: nat, j: nat, t: nat)
    requires Run(tr, acts) && i <= j < |tr| && t < |tr[i].deliveries| && !tr[i].deliveries[t].status.Unacked?
    ensures t < |tr[j].deliveries| && tr[j].deliveries[t] == tr[i].deliveries[t]
    decreases j - i
  {
    if i < j {
      SettledOnce(tr, acts, i, j - 1, t);
      SettledAt(tr, acts, j - 1, t);
    }
  }

  lemma SettledAt(tr: seq<Queue>, acts: seq<Action>, k: nat, t: nat)
    requires Run(tr, acts) && k < |acts| && t < |tr[k].deliveries| && !tr[k].deliveries[t].status.Unacked?
    ensures t < |tr[k + 1].deliveries| && tr[k + 1].deliveries[t] == tr[k].deliveries[t]
  {
    assert StepAt(tr, acts, k);
    InvHolds(tr, acts, k);
    SettledStays(tr[k], acts[k], t);
  }

  lemma SettledStays(q: Queue, a: Action, t: nat)
    requires Inv(q) && Enabled(q, a) && t < |q.deliveries| && !q.deliveries[t].status.Unacked?
    ensures t < |Step(q, a).deliveries| && Step(q, a).deliveries[t] == q.deliveries[t]
  {
    if a.Settle? {
      assert WorkerOk(q, a.worker);
      assert Holding(q.workers[a.worker])[0] == q.workers[a.worker].pc.tag;
    }
  }

  /** Summary provenance at the consumer: what stands in a conversation's three summary
      columns was copied whole from one update for that conversation, which was enqueued or
      written directly by its sender. */
  lemma SummaryFromQueue(tr: seq<Queue>, acts: seq<Action>, k: nat, conv: nat)
    requires Run(tr, acts) && k < |tr| && ConvExists(tr[k].db, conv) && tr[k].db.convs[conv - 1].last.Some?
    ensures exists m ::
              (Update(conv, m) in tr[k].enqueued || Update(conv, m) in tr[k].direct)
              && Shows(tr[k].db.convs[conv - 1], m)
  {
    InvHolds(tr, acts, k);
    var q := tr[k];
    var b :| b in q.applied + q.direct && Explains(q.db.convs[conv - 1], b, conv);
    assert b == Update(conv, b.row);
  }

  /** The update this step writes, if it has one and the statement works. */
  function Writes(q: Queue, a: Action): Option<Body> {
    match a
    case Apply(w, true) =>
      if w < |q.workers| && q.workers[w].pc.Updating? && q.workers[w].pc.tag < |q.deliveries|
      then Some(q.deliveries[q.workers[w].pc.tag].body) else None
    case Direct(_, b, true) => Some(b)
    case _ => None
  }

  /** The latest update for `conv` written before state `k`. */
  function LatestWrite(tr: seq<Queue>, acts: seq<Action>, k: nat, conv: nat): Option<Message>
    requires k <= |acts| < |tr|
  {
    if k == 0 then None
    else
      var b := Writes(tr[k - 1], acts[k - 1]);
      if b.Some? && b.value.Update? && b.value.conv == conv then Some(b.value.row)
      else LatestWrite(tr, acts, k - 1, conv)
  }

  /** In every reachable state the summary of a conversation shows the update written last,
      by a consumer or by its sender, and is empty if none was. */
  lemma {:induction false} SummaryIsLatest(tr: seq<Queue>, acts: seq<Action>, k: nat, conv: nat)
    requires Run(tr, acts) && k < |tr| && ConvExists(tr[k].db, conv)
    ensures |tr[k].db.convs| == |tr[0].db.convs|
    ensures match LatestWrite(tr, acts, k, conv)
            case None => tr[k].db.convs[conv - 1].last.None?
            case Some(m) => Shows(tr[k].db.convs[conv - 1], m)
  {
    if k > 0 {
      assert StepAt(tr, acts, k - 1);
      WriteShows(tr[k - 1], acts[k - 1], conv);
      SummaryIsLatest(tr, acts, k - 1, conv);
    }
  }

  lemma WriteShows(q: Queue, a: Action, conv: nat)
    requires Enabled(q, a)
    ensures var q', b := Step(q, a), Writes(q, a);
            && |q'.db.convs| == |q.db.convs|
            && (ConvExists(q.db, conv) ==>
                  if b.Some? && b.value.Update? && b.value.conv == conv then Shows(q'.db.convs[conv - 1], b.value.row)
                  else q'.db.convs[conv - 1] == q.db.convs[conv - 1])
  {
    match a
    case Apply(w, ok) => UpdateShows(q.db, q.deliveries[q.workers[w].pc.tag].body, ok);
    case Direct(_, b, ok) => UpdateShows(q.db, b, ok);
    case _ =>
  }

  lemma UpdateShows(db: Db, b: Body, ok: bool)
    requires b.Update?
    ensures var db' := UpdateConversation(db, b.conv, b.row, ok).0;
            && |db'.convs| == |db.convs|
            && (ok && ConvExists(db, b.conv) ==> Shows(db'.convs[b.conv - 1], b.row))
            && (!ok ==> db' == db)
            && forall i :: 0 <= i < |db.convs| && i != b.conv - 1 ==> db'.convs[i] == db.convs[i]
  {
    UpdateConversationExactly(db, b.conv, b.row, ok);
  }

  /** The statement works, the conversation exists, and some column changes: MySQL
      reports no changed row for a row that already holds these values. */
  predicate Changes(db: Db, b: Body, ok: bool) {
    b.Update? && ok && ConvExists(db, b.conv) && !Shows(db.convs[b.conv - 1], b.row)
  }

  /** One application of an update: the worker will ack it exactly when it changed a row. */
  lemma AckedExactly(q: Queue, w: nat, ok: bool)
    requires Enabled(q, Apply(w, ok))
    ensures ApplyStep(q, w, ok).workers[w].pc ==
            Settling(q.workers[w].pc.tag, Changes(q.db, q.deliveries[q.workers[w].pc.tag].body, ok))
  {
  }
}
