/** Publishing a conversation update with confirms, bounded retry and a direct write as
    the last resort. The sender runs beside the watcher, which rebuilds the client, and
    beside the consumers of the queue. */
module Publisher {
  import opened Basics
  import opened Store
  import opened Broker
  import opened Reconnect

  predicate Retryable(r: Published) {
    r.NotSent? || r.TimedOut?
  }

  function CopiesOf(r: Published): nat {
    match r
    case NotSent => 0
    case Confirmed => 1
    case Panics(e) => if e then 1 else 0
    case TimedOut(e) => if e then 1 else 0
    case Nacked(e) => if e then 1 else 0
  }

  /** The publish went out over an open channel and the queue took it. */
  predicate Reaches(x: Client, o: Outcome) {
    && x.publishCh.Some? && x.publishCh.value < |x.channels| && x.channels[x.publishCh.value].open
    && (o.Ack? || ((o.Nack? || o.NoAnswer?) && o.enqueued))
  }

  /** A call leaves a copy exactly if its publish reached the queue, and not more than one. */
  lemma CopyExactly(x: Client, o: Outcome)
    ensures CopiesOf(PublishOn(x, o)) == if Reaches(x, o) then 1 else 0
  {
  }

  function Pow2(n: nat): nat {
    if n == 0 then 1 else 2 * Pow2(n - 1)
  }

  function Backoff(attempt: nat): nat
    requires 1 <= attempt
  {
    100 * Pow2(attempt - 1)
  }

  // ------------------------------------------------------- a list of attempts

  /** The attempts made so far, each with the client it met and how it ended. */
  datatype Attempts = NoAttempt | Then(before: Attempts, seen: Client, result: Published)

  function Made(rs: Attempts): nat {
    if rs.NoAttempt? then 0 else Made(rs.before) + 1
  }

  /** Copies the attempts put in the queue. */
  function Copies(rs: Attempts): nat {
    if rs.NoAttempt? then 0 else Copies(rs.before) + CopiesOf(rs.result)
  }

  /** Milliseconds slept between the attempts when at most `n` are allowed. */
  function Sleep(rs: Attempts, n: nat): nat {
    if rs.NoAttempt? then 0
    else Sleep(rs.before, n) + if Retryable(rs.result) && Made(rs) < n then Backoff(Made(rs)) else 0
  }

  predicate AllRetryable(rs: Attempts) {
    rs.Then? ==> Retryable(rs.result) && AllRetryable(rs.before)
  }

  /** Each attempt ended as the client and the broker of that moment have it. */
  predicate Met(rs: Attempts, outcomes: nat -> Outcome) {
    rs.Then? ==> Met(rs.before, outcomes) && rs.result == PublishOn(rs.seen, outcomes(Made(rs.before)))
  }

  /** How the loop may go: every attempt but the last failed retryably, and fewer than `n`
      were made only because the last one did not. */
  predicate Attempted(rs: Attempts, n: nat) {
    && Made(rs) <= n
    && (rs.Then? ==> AllRetryable(rs.before))
    && (Made(rs) < n ==> rs.Then? && !Retryable(rs.result))
  }

  predicate Ended(rs: Attempts) {
    rs.Then? && (rs.result.Confirmed? || rs.result.Panics?)
  }

  // ------------------------------------------------- the steps of one sender

  predicate By(a: Action, me: nat) {
    match a
    case Enqueue(s, _) => s == me
    case Direct(s, _, _) => s == me
    case _ => false
  }

  /** What sender `me` did among `acts`, in order. */
  function Own(acts: seq<Action>, me: nat): seq<Action> {
    if acts == [] then []
    else
      var n := |acts| - 1;
      Own(acts[..n], me) + if By(acts[n], me) then [acts[n]] else []
  }

  lemma OwnAppend(acts: seq<Action>, a: Action, me: nat)
    ensures Own(acts + [a], me) == Own(acts, me) + if By(a, me) then [a] else []
  {
    assert (acts + [a])[..|acts|] == acts;
  }

  /** What sender `me` does to the queue and the table. */
  function Plan(me: nat, b: Body, rs: Attempts, writeWorks: bool): seq<Action> {
    Enqueues(me, b, Copies(rs)) + if Ended(rs) then [] else [Direct(me, b, writeWorks)]
  }

  function Enqueues(me: nat, b: Body, n: nat): seq<Action> {
    seq(n, _ => Enqueue(me, b))
  }

  predicate IsCopy(a: Action) {
    a.Enqueue?
  }

  predicate IsWrite(a: Action) {
    a.Direct?
  }

  lemma {:induction false} CopiesOnly(me: nat, b: Body, n: nat)
    ensures CountIf(IsCopy, Enqueues(me, b, n)) == n && CountIf(IsWrite, Enqueues(me, b, n)) == 0
  {
    if n > 0 {
      CopiesOnly(me, b, n - 1);
      assert Enqueues(me, b, n)[..n - 1] == Enqueues(me, b, n - 1);
    }
  }

  /** At most one copy per attempt, and one direct write unless the last attempt was
      confirmed or panicked. */
  lemma PlanCounts(did: seq<Action>, me: nat, b: Body, rs: Attempts, n: nat, writeWorks: bool)
    requires Attempted(rs, n)
    ensures var plan := Plan(me, b, rs, writeWorks);
            && CountIf(IsCopy, did + plan) == CountIf(IsCopy, did) + Copies(rs) <= CountIf(IsCopy, did) + n
            && CountIf(IsWrite, did + plan) == CountIf(IsWrite, did) + if Ended(rs) then 0 else 1
  {
    var plan, copies := Plan(me, b, rs, writeWorks), Enqueues(me, b, Copies(rs));
    var rest := if Ended(rs) then [] else [Direct(me, b, writeWorks)];
    CopiesOnly(me, b, Copies(rs));
    CopiesBounded(rs);
    CountConcat(IsCopy, copies, rest);
    CountConcat(IsWrite, copies, rest);
    CountConcat(IsCopy, did, plan);
    CountConcat(IsWrite, did, plan);
  }

  lemma OneMore(did: seq<Action>, me: nat, b: Body, n: nat, m: nat)
    ensures did + Enqueues(me, b, n) + Enqueues(me, b, m) == did + Enqueues(me, b, n + m)
  {
  }

  lemma PlanDone(did: seq<Action>, me: nat, b: Body, rs: Attempts, writeWorks: bool)
    ensures Ended(rs) ==> did + Enqueues(me, b, Copies(rs)) == did + Plan(me, b, rs, writeWorks)
    ensures !Ended(rs) ==>
              did + Enqueues(me, b, Copies(rs)) + [Direct(me, b, writeWorks)] == did + Plan(me, b, rs, writeWorks)
  {
  }

  /** What may happen to the client while the sender sleeps or waits: the peer drops the
      connection, or the watcher gets one step further with a reconnection. */
  datatype Event =
    | Dropped
    | Redialled(ok: bool)
    | Declared(a: Attempt)
    | PublisherMade(a: Attempt)
    | ConsumerMade(a: Attempt)

  class Publisher {
    const me: nat                // every handler sends under a number of its own
    const link: Amqp
    const events: nat -> seq<Event>
    const sched: nat -> seq<Action>
    var q: Queue
    var slept: nat               // milliseconds
    var pause: nat
    ghost var tr: seq<Queue>
    ghost var acts: seq<Action>

    ghost predicate Valid()
      reads this, link
    {
      link.Valid() && Run(tr, acts) && q == tr[|acts|]
    }

    /** The steps of this sender, in order. */
    ghost function Did(): seq<Action>
      reads this
    {
      Own(acts, me)
    }

    constructor (me: nat, link: Amqp, db: Db, sched: nat -> seq<Action>, events: nat -> seq<Event>)
      requires link.Valid() && forall k :: 0 <= k < |db.convs| ==> db.convs[k].last.None?
      ensures Valid() && this.me == me && this.link == link && q.db == db && acts == [] && slept == 0
    {
      q := Queue(db, multiset{}, [], [], multiset{}, {}, {});
      this.me, this.link, this.sched, this.events, slept, pause := me, link, sched, events, 0, 0;
      new;
      tr, acts := [q], [];
    }

    method Do(a: Action)
      requires Valid() && Enabled(q, a)
      modifies this`q, this`tr, this`acts
      ensures Valid() && q == Step(old(q), a)
      ensures tr == old(tr) + [q] && acts == old(acts) + [a]
      ensures Did() == old(Did()) + if By(a, me) then [a] else []
    {
      RunExtends(tr, acts, a);
      OwnAppend(acts, a, me);
      q := Step(q, a);
      tr, acts := tr + [q], acts + [a];
    }

    method Others()
      requires Valid()
      modifies this`q, this`tr, this`acts, this`pause
      ensures Valid() && old(tr) <= tr && old(acts) <= acts && Did() == old(Did())
    {
      var todo, i := sched(pause), 0;
      pause := pause + 1;
      while i < |todo|
        invariant Valid() && old(tr) <= tr && old(acts) <= acts && Did() == old(Did())
      {
        if Enabled(q, todo[i]) && !By(todo[i], me) {
          Do(todo[i]);
        }
        i := i + 1;
      }
    }

    method Watcher()
      requires link.Valid()
      modifies link
      ensures link.Valid()
    {
      var todo, i := events(pause), 0;
      while i < |todo|
        invariant link.Valid()
      {
        match todo[i] {
          case Dropped => link.Drop();
          case Redialled(ok) => var _ := link.Reconnect(ok);
          case Declared(a) => var _ := link.DeclareTopology(a);
          case PublisherMade(a) => var _ := link.InitPublisher(a);
          case ConsumerMade(a) => var _ := link.StartConversationUpdateConsumer(a);
        }
        i := i + 1;
      }
    }

    /** One attempt, while everybody else goes on. */
    method Attempt(b: Body, outcome: Outcome) returns (r: Published, ghost seen: Client)
      requires Valid()
      modifies this`q, this`tr, this`acts, this`pause, link
      ensures Valid() && old(tr) <= tr && old(acts) <= acts && r == PublishOn(seen, outcome) && seen == link.Now()
      ensures Did() == old(Did()) + Enqueues(me, b, CopiesOf(r))
    {
      Others();
      Watcher();
      seen := link.Now();
      r := link.PublishMessageSent(outcome);
      if CopiesOf(r) > 0 {
        Do(Enqueue(me, b));
      }
    }

    /** At most `maxRetries` calls of `PublishMessageSent`, each on the client as it is at
        that moment. What the sender itself does is one copy for each call that reached the
        queue and, unless the last call was confirmed or panicked, one direct write. */
    method PublishWithFallback(b: Body, maxRetries: nat, outcomes: nat -> Outcome, writeWorks: bool)
      returns (ghost rs: Attempts)
      requires Valid() && b.Update?
      modifies this`q, this`tr, this`acts, this`pause, this`slept, link
      ensures Valid() && old(tr) <= tr && old(acts) <= acts
      ensures Attempted(rs, maxRetries) && Met(rs, outcomes)
      ensures Did() == old(Did()) + Plan(me, b, rs, writeWorks)
      ensures CountIf(IsCopy, Did()) <= CountIf(IsCopy, old(Did())) + maxRetries
      ensures CountIf(IsWrite, Did()) == CountIf(IsWrite, old(Did())) + if Ended(rs) then 0 else 1
      ensures slept == old(slept) + Sleep(rs, maxRetries)
    {
      ghost var did := Did();
      rs := SendOrWrite(b, maxRetries, outcomes, writeWorks);
      PlanCounts(did, me, b, rs, maxRetries, writeWorks);
    }

    /** The loop over the attempts and what follows it. */
    method SendOrWrite(b: Body, maxRetries: nat, outcomes: nat -> Outcome, writeWorks: bool)
      returns (ghost rs: Attempts)
      requires Valid() && b.Update?
      modifies this`q, this`tr, this`acts, this`pause, this`slept, link
      ensures Valid() && old(tr) <= tr && old(acts) <= acts
      ensures Attempted(rs, maxRetries) && Met(rs, outcomes)
      ensures Did() == old(Did()) + Plan(me, b, rs, writeWorks)
      ensures slept == old(slept) + Sleep(rs, maxRetries)
    {
      ghost var did := Did();
      rs := NoAttempt;
      var attempt := 1;
      while attempt <= maxRetries
        invariant 1 <= attempt <= maxRetries + 1 && Made(rs) == attempt - 1
        invariant Valid() && old(tr) <= tr && old(acts) <= acts
        invariant AllRetryable(rs) && Met(rs, outcomes)
        invariant Did() == did + Enqueues(me, b, Copies(rs)) && slept == old(slept) + Sleep(rs, maxRetries)
      {
        var r, now := Attempt(b, outcomes(attempt - 1));
        OneMore(did, me, b, Copies(rs), CopiesOf(r));
        rs := Then(rs, now, r);
        PlanDone(did, me, b, rs, writeWorks);
        if r.Confirmed? || r.Panics? {
          return;
        }
        if r.Nacked? {
          break;
        }
        if attempt < maxRetries {
          slept := slept + Backoff(attempt);
        }
        attempt := attempt + 1;
      }
      PlanDone(did, me, b, rs, writeWorks);
      WriteDirectly(b, writeWorks);
    }

    method WriteDirectly(b: Body, writeWorks: bool)
      requires Valid() && b.Update?
      modifies this`q, this`tr, this`acts, this`pause
      ensures Valid() && old(tr) <= tr && old(acts) <= acts && Did() == old(Did()) + [Direct(me, b, writeWorks)]
    {
      Others();
      Do(Direct(me, b, writeWorks));
    }
  }

  // ================================================================== laws

  lemma {:induction false} Pow2Grows(i: nat, n: nat)
    requires i <= n
    ensures 1 <= Pow2(i) <= Pow2(n)
    decreases n
  {
    if i < n { Pow2Grows(i, n - 1); } else if i > 0 { Pow2Grows(i - 1, n - 1); }
  }

  lemma {:induction false} RetriesSleep(rs: Attempts, n: nat)
    requires Made(rs) < n && AllRetryable(rs)
    ensures Sleep(rs, n) == 100 * (Pow2(Made(rs)) - 1)
  {
    if rs.Then? { RetriesSleep(rs.before, n); }
  }

  lemma {:induction false} CopiesBounded(rs: Attempts)
    ensures Copies(rs) <= Made(rs)
  {
    if rs.Then? { CopiesBounded(rs.before); }
  }

  /** For any retry limit: at most one copy per attempt; a confirm leaves a copy; and the
      sleep is determined by the number of attempts, whatever made them fail. */
  lemma AttemptsLaw(rs: Attempts, n: nat)
    requires Attempted(rs, n)
    ensures Copies(rs) <= Made(rs) <= n
    ensures rs.Then? && rs.result.Confirmed? ==> Copies(rs) >= 1
    ensures Sleep(rs, n) == if rs.NoAttempt? then 0 else 100 * (Pow2(Made(rs) - 1) - 1)
  {
    CopiesBounded(rs);
    if rs.Then? {
      RetriesSleep(rs.before, n);
    }
  }

  /** With the program's limit of three the sender waits at most 300 milliseconds. */
  lemma ThreeAttempts(rs: Attempts)
    requires Attempted(rs, 3)
    ensures Sleep(rs, 3) <= 300 && Copies(rs) <= 3
  {
    AttemptsLaw(rs, 3);
    Pow2Grows(if rs.Then? then Made(rs) - 1 else 0, 2);
    assert Pow2(2) == 4;
  }

  // ------------------------------------------- what becomes of an update

  ghost predicate AllHealthy(rs: Attempts) {
    rs.Then? ==> IsHealthy(rs.seen) && AllHealthy(rs.before)
  }

  /** The copy is where the queue can account for it, and an acked one was applied. */
  ghost predicate Accounted(q: Queue, b: Body) {
    b in q.ready || exists t :: 0 <= t < |q.deliveries| && AccountsFor(q, q.deliveries[t], b)
  }

  ghost predicate AccountsFor(q: Queue, d: Delivery, b: Body) {
    d.body == b && !d.status.Requeued? && (d.status.Acked? ==> b in q.applied)
  }

  lemma {:induction false} InBodies(ds: seq<Delivery>, p: Delivery -> bool, b: Body) returns (t: nat)
    requires b in Bodies(ds, p)
    ensures t < |ds| && p(ds[t]) && ds[t].body == b
  {
    t := |ds| - 1;
    if !(p(ds[t]) && ds[t].body == b) { t := InBodies(ds[..|ds| - 1], p, b); }
  }

  lemma EnqueuedIsAccounted(q: Queue, b: Body)
    requires Inv(q) && b in q.enqueued
    ensures Accounted(q, b)
  {
    var t: nat;
    if b in Bodies(q.deliveries, InState(Unacked)) {
      t := InBodies(q.deliveries, InState(Unacked), b);
    } else if b in Bodies(q.deliveries, InState(Acked)) {
      t := InBodies(q.deliveries, InState(Acked), b);
      assert DeliveryOk(q, q.deliveries[t]);
    } else if b in Bodies(q.deliveries, InState(DeadLettered)) {
      t := InBodies(q.deliveries, InState(DeadLettered), b);
    } else {
      assert b in q.ready;
      return;
    }
    assert AccountsFor(q, q.deliveries[t], b);
  }

  lemma {:induction false} HistoryGrows(tr: seq<Queue>, acts: seq<Action>, i: nat, k: nat)
    requires Run(tr, acts) && i <= k < |tr|
    ensures tr[i].enqueued <= tr[k].enqueued && tr[i].direct <= tr[k].direct
    decreases k - i
  {
    if i < k {
      assert StepAt(tr, acts, k - 1);
      HistoryGrows(tr, acts, i, k - 1);
    }
  }

  /** How many copies of `b` the queue accounts for. */
  function Held(q: Queue, b: Body): nat {
    q.ready[b] + Bodies(q.deliveries, InState(Unacked))[b] + Bodies(q.deliveries, InState(Acked))[b]
    + Bodies(q.deliveries, InState(DeadLettered))[b]
  }

  lemma CopiesEnter(tr: seq<Queue>, acts: seq<Action>, me: nat, i: nat, j: nat, b: Body)
    requires Run(tr, acts) && i <= j < |tr|
    requires forall x :: i <= x < j && By(acts[x], me) && acts[x].Enqueue? ==> acts[x].body == b
    ensures tr[i].enqueued[b] + CountIf(IsCopy, Own(acts[..j], me)) <= tr[j].enqueued[b]
            + CountIf(IsCopy, Own(acts[..i], me))
    decreases j - i
  {
    if i < j {
      CopiesEnter(tr, acts, me, i, j - 1, b);
      assert StepAt(tr, acts, j - 1);
      OwnAt(acts, me, j - 1);
      CountConcat(IsCopy, Own(acts[..j - 1], me), if By(acts[j - 1], me) then [acts[j - 1]] else []);
    }
  }

  lemma OwnAt(acts: seq<Action>, me: nat, j: nat)
    requires j < |acts|
    ensures Own(acts[..j + 1], me) == Own(acts[..j], me) + if By(acts[j], me) then [acts[j]] else []
  {
    assert acts[..j + 1] == acts[..j] + [acts[j]];
    OwnAppend(acts[..j], acts[j], me);
  }

  /** What `me` added between `i` and `j`, step by step. */
  lemma {:induction false} OwnBetween(acts: seq<Action>, me: nat, i: nat, j: nat, x: nat)
    requires i <= x < j <= |acts| && By(acts[x], me)
    ensures Own(acts[..i], me) <= Own(acts[..j], me)
    ensures acts[x] in Own(acts[..j], me)[|Own(acts[..i], me)|..]
    decreases j
  {
    OwnGrows(acts, me, i, j - 1);
    OwnAt(acts, me, j - 1);
    var own, own', n := Own(acts[..j - 1], me), Own(acts[..j], me), |Own(acts[..i], me)|;
    if x < j - 1 {
      OwnBetween(acts, me, i, j - 1, x);
      assert own'[n..] == own[n..] + own'[|own|..];
    } else {
      assert own'[n..][|own| - n] == acts[x];
    }
  }

  lemma {:induction false} OwnGrows(acts: seq<Action>, me: nat, i: nat, j: nat)
    requires i <= j <= |acts|
    ensures Own(acts[..i], me) <= Own(acts[..j], me)
    decreases j
  {
    if i < j {
      OwnGrows(acts, me, i, j - 1);
      OwnAt(acts, me, j - 1);
    }
  }

  /** The last of them is some step in between. */
  lemma {:induction false} LastOwn(acts: seq<Action>, me: nat, i: nat, j: nat) returns (x: nat)
    requires i <= j <= |acts| && |Own(acts[..i], me)| < |Own(acts[..j], me)|
    ensures i <= x < j && acts[x] == Own(acts[..j], me)[|Own(acts[..j], me)| - 1]
    decreases j
  {
    OwnAt(acts, me, j - 1);
    x := j - 1;
    if !By(acts[x], me) { x := LastOwn(acts, me, i, j - 1); }
  }

  /** The direct write works exactly when it changes a row. */
  lemma DirectIsWritten(tr: seq<Queue>, acts: seq<Action>, me: nat, i: nat, k: nat, b: Body, ok: bool)
    requires Run(tr, acts) && i < k < |tr| && acts[i] == Direct(me, b, ok) && Changes(tr[i].db, b, ok)
    ensures b in tr[k].direct
  {
    assert StepAt(tr, acts, i);
    HistoryGrows(tr, acts, i + 1, k);
  }

  lemma {:induction false} HealthyNeverPanics(rs: Attempts, outcomes: nat -> Outcome)
    requires Met(rs, outcomes) && AllHealthy(rs)
    ensures rs.Then? ==> !rs.result.Panics?
  {
    if rs.Then? { HealthyPublishes(rs.seen, outcomes(Made(rs.before))); }
  }

  ghost predicate WroteItself(tr: seq<Queue>, acts: seq<Action>, me: nat, i: nat, k: nat, b: Body, ok: bool)
    requires i < |acts| < |tr| && k < |tr|
  {
    acts[i] == Direct(me, b, ok) && (Changes(tr[i].db, b, ok) ==> b in tr[k].direct)
  }

  /** No update is dropped in silence. Between `i` and `j` of some run sender `me` took the
      steps planned for its attempts. At every later moment `k` the queue accounts for each of
      its copies, besides those it had before, and an acked one was applied; unless the last
      attempt was confirmed or panicked, the sender wrote the update itself, which works if it
      changes a row. Only a panic before any copy leaves nothing at all. */
  lemma UpdateIsAccounted(tr: seq<Queue>, acts: seq<Action>, me: nat, i: nat, j: nat, k: nat, b: Body, rs: Attempts,
                          n: nat, writeWorks: bool)
    requires Run(tr, acts) && i <= j <= k < |tr| && Attempted(rs, n)
    requires Own(acts[..j], me) == Own(acts[..i], me) + Plan(me, b, rs, writeWorks)
    ensures tr[i].enqueued[b] + Copies(rs) <= Held(tr[k], b)
    ensures Copies(rs) > 0 ==> Accounted(tr[k], b)
    ensures !Ended(rs) ==> exists x :: i <= x < j && WroteItself(tr, acts, me, x, k, b, writeWorks)
    ensures Own(acts[..j], me) == Own(acts[..i], me) <==> rs.Then? && rs.result.Panics? && Copies(rs) == 0
  {
    AttemptsLaw(rs, n);
    PlanCounts(Own(acts[..i], me), me, b, rs, n, writeWorks);
    forall x | i <= x < j && By(acts[x], me) && acts[x].Enqueue?
      ensures acts[x].body == b
    {
      OwnBetween(acts, me, i, j, x);
      assert Own(acts[..j], me)[|Own(acts[..i], me)|..] == Plan(me, b, rs, writeWorks);
    }
    CopiesEnter(tr, acts, me, i, j, b);
    HistoryGrows(tr, acts, j, k);
    InvHolds(tr, acts, k);
    if Copies(rs) > 0 { EnqueuedIsAccounted(tr[k], b); }
    if !Ended(rs) {
      var x := LastOwn(acts, me, i, j);
      if Changes(tr[x].db, b, writeWorks) { DirectIsWritten(tr, acts, me, x, k, b, writeWorks); }
      assert WroteItself(tr, acts, me, x, k, b, writeWorks);
    }
  }
}
