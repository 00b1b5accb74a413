/** The consumer goroutine as sequential code over the queue machine of `Broker`:
    between its statements publishers, other consumers and the broker take any steps. */
module Consumer {
  import opened Basics
  import opened Store
  import opened Broker

  // ------------------------------------------------------ what only ever grows

  ghost predicate Onward(q: Queue, q': Queue) {
    && |q.deliveries| <= |q'.deliveries| && |q.workers| <= |q'.workers|
    && (forall t :: 0 <= t < |q.deliveries| ==> q'.deliveries[t].body == q.deliveries[t].body)
    && (forall t :: 0 <= t < |q.deliveries| && !q.deliveries[t].status.Unacked? ==> q'.deliveries[t] == q.deliveries[t])
    && (forall v :: 0 <= v < |q.workers| && !q.workers[v].open ==> !q'.workers[v].open)
    && q.applied <= q'.applied
  }

  lemma StepOnward(q: Queue, a: Action)
    requires Inv(q) && Enabled(q, a)
    ensures Onward(q, Step(q, a))
  {
    forall t | 0 <= t < |q.deliveries| && !q.deliveries[t].status.Unacked?
      ensures t < |Step(q, a).deliveries| && Step(q, a).deliveries[t] == q.deliveries[t]
    {
      SettledStays(q, a, t);
    }
    BodiesStay(q, a);
    ChannelsStay(q, a);
  }

  lemma BodiesStay(q: Queue, a: Action)
    requires Inv(q) && Enabled(q, a)
    ensures |q.deliveries| <= |Step(q, a).deliveries|
    ensures forall t :: 0 <= t < |q.deliveries| ==> Step(q, a).deliveries[t].body == q.deliveries[t].body
  {
  }

  lemma ChannelsStay(q: Queue, a: Action)
    requires Enabled(q, a)
    ensures |q.workers| <= |Step(q, a).workers| && q.applied <= Step(q, a).applied
    ensures forall v :: 0 <= v < |q.workers| && !q.workers[v].open ==> !Step(q, a).workers[v].open
  {
  }

  lemma OnwardTwice(x: Queue, y: Queue, z: Queue)
    requires Onward(x, y) && Onward(y, z)
    ensures Onward(x, z)
  {
  }

  /** The statements of worker `w`; deliveries and closures come from the broker. */
  predicate Mine(w: nat, a: Action) {
    a == Take(w) || (a.Apply? && a.worker == w) || (a.Settle? && a.worker == w)
  }

  ghost predicate Undisturbed(q: Queue, q': Queue, w: nat) {
    && Has(q, w) && Has(q', w)
    && q'.workers[w].pc == q.workers[w].pc
    && q.workers[w].local <= q'.workers[w].local
    && (q'.workers[w].open ==> q.workers[w].open)
  }

  lemma OthersDisturbNot(q: Queue, a: Action, w: nat)
    requires Enabled(q, a) && Has(q, w) && !Mine(w, a)
    ensures Undisturbed(q, Step(q, a), w)
  {
  }

  /** What became of a delivery: acked, rejected to the dead-letter queue, or left to
      the broker because the channel closed or the settlement did not get through. */
  datatype Verdict = WasAcked | WasRejected | NotSettled

  ghost predicate VerdictHolds(q: Queue, t: nat, v: Verdict) {
    && t < |q.deliveries|
    && (v.WasAcked? ==> q.deliveries[t].status.Acked? && q.deliveries[t].body in q.applied)
    && (v.WasRejected? ==> q.deliveries[t].status.DeadLettered?)
  }

  /** Some step of the run applied delivery `t` through worker `w`, and `ack` says whether
      it changed a row. */
  ghost predicate AppliedAs(tr: seq<Queue>, acts: seq<Action>, w: nat, t: nat, ok: bool, ack: bool)
    requires |tr| == |acts| + 1
  {
    exists i :: 0 <= i < |acts| && AppliedAt(tr[i], acts[i], w, t, ok, ack)
  }

  ghost predicate AppliedAt(q: Queue, a: Action, w: nat, t: nat, ok: bool, ack: bool) {
    && a == Apply(w, ok) && Has(q, w) && q.workers[w].pc == Updating(t) && t < |q.deliveries|
    && ack == Changes(q.db, q.deliveries[t].body, ok)
  }

  /** A verdict rests on the update alone: acked if it changed a row, rejected if it did
      not or the body does not decode. */
  ghost predicate Deserved(tr: seq<Queue>, acts: seq<Action>, w: nat, t: nat, ok: bool, v: Verdict)
    requires |tr| == |acts| + 1
  {
    && (v.WasAcked? ==> AppliedAs(tr, acts, w, t, ok, true))
    && (v.WasRejected? ==>
          AppliedAs(tr, acts, w, t, ok, false)
          || (t < |tr[|acts|].deliveries| && !tr[|acts|].deliveries[t].body.Update?))
  }

  /** The verdict holds, is deserved, and is missing only for want of a way to settle. */
  ghost predicate SettledAs(tr: seq<Queue>, acts: seq<Action>, w: nat, t: nat, ok: bool, settleOk: bool, v: Verdict)
    requires |tr| == |acts| + 1
  {
    var q := tr[|acts|];
    && Has(q, w) && VerdictHolds(q, t, v) && Deserved(tr, acts, w, t, ok, v)
    && (v.NotSettled? ==> !settleOk || !q.workers[w].open)
  }

  /** Each delivery of `tags` has its verdict. */
  ghost predicate Settled(tr: seq<Queue>, acts: seq<Action>, w: nat, tags: seq<nat>, ok: nat -> bool,
                          settleOk: nat -> bool, verdicts: seq<Verdict>)
    requires |tr| == |acts| + 1
  {
    && |verdicts| == |tags|
    && forall i :: 0 <= i < |tags| ==> SettledAs(tr, acts, w, tags[i], ok(i), settleOk(i), verdicts[i])
  }

  lemma DeservedStays(tr: seq<Queue>, acts: seq<Action>, tr': seq<Queue>, acts': seq<Action>, w: nat, t: nat, ok: bool,
                      v: Verdict)
    requires |tr| == |acts| + 1 && |tr'| == |acts'| + 1 && tr <= tr' && acts <= acts'
    requires Deserved(tr, acts, w, t, ok, v) && Onward(tr[|acts|], tr'[|acts'|])
    ensures Deserved(tr', acts', w, t, ok, v)
  {
    forall ack | AppliedAs(tr, acts, w, t, ok, ack)
      ensures AppliedAs(tr', acts', w, t, ok, ack)
    {
      AppliedStays(tr, acts, tr', acts', w, t, ok, ack);
    }
  }

  lemma AppliedStays(tr: seq<Queue>, acts: seq<Action>, tr': seq<Queue>, acts': seq<Action>, w: nat, t: nat, ok: bool,
                     ack: bool)
    requires |tr| == |acts| + 1 && |tr'| == |acts'| + 1 && tr <= tr' && acts <= acts'
    requires AppliedAs(tr, acts, w, t, ok, ack)
    ensures AppliedAs(tr', acts', w, t, ok, ack)
  {
    var i :| 0 <= i < |acts| && AppliedAt(tr[i], acts[i], w, t, ok, ack);
    assert AppliedAt(tr'[i], acts'[i], w, t, ok, ack);
  }

  class Consumer {
    var q: Queue
    const sched: nat -> seq<Action>
    var pause: nat
    ghost var tr: seq<Queue>
    ghost var acts: seq<Action>

    ghost predicate Valid()
      reads this
    {
      Run(tr, acts) && q == tr[|acts|]
    }

    constructor (db: Db, sched: nat -> seq<Action>)
      requires forall k :: 0 <= k < |db.convs| ==> db.convs[k].last.None?
      ensures Valid() && acts == []
    {
      q := Queue(db, multiset{}, [], [], multiset{}, {}, {});
      this.sched, pause := sched, 0;
      new;
      tr, acts := [q], [];
    }

    method Do(a: Action, ghost start: Queue)
      requires Valid() && Enabled(q, a) && Onward(start, q)
      modifies this`q, this`tr, this`acts
      ensures Valid() && q == Step(old(q), a) && Onward(old(q), q) && Onward(start, q)
      ensures tr == old(tr) + [q] && acts == old(acts) + [a]
    {
      RunExtends(tr, acts, a);
      InvHolds(tr, acts, |acts|);
      StepOnward(q, a);
      OnwardTwice(start, q, Step(q, a));
      q := Step(q, a);
      tr, acts := tr + [q], acts + [a];
    }

    method Others(w: nat, ghost start: Queue)
      requires Valid() && Has(q, w) && Onward(start, q)
      modifies this`q, this`tr, this`acts, this`pause
      ensures Valid() && Onward(old(q), q) && Onward(start, q) && Undisturbed(old(q), q, w)
      ensures old(tr) <= tr && old(acts) <= acts
    {
      var todo, i := sched(pause), 0;
      pause := pause + 1;
      while i < |todo|
        invariant Valid() && Onward(old(q), q) && Undisturbed(old(q), q, w)
        invariant old(tr) <= tr && old(acts) <= acts
      {
        if Enabled(q, todo[i]) && !Mine(w, todo[i]) {
          OthersDisturbNot(q, todo[i], w);
          Do(todo[i], old(q));
        }
        i := i + 1;
      }
      OnwardTwice(start, old(q), q);
    }

    /** One turn of the loop. The next delivery is settled once, on the strength of the
        table update alone: acked if and only if the update changed a row. */
    method HandleDelivery(w: nat, updateOk: bool, settleOk: bool) returns (t: nat, v: Verdict)
      requires Valid() && Has(q, w) && q.workers[w].pc.Idle? && q.workers[w].local != []
      modifies this`q, this`tr, this`acts, this`pause
      ensures Valid() && Onward(old(q), q) && old(tr) <= tr && old(acts) <= acts
      ensures Has(q, w) && q.workers[w].pc.Idle? && old(q.workers[w].local)[1..] <= q.workers[w].local
      ensures t == old(q.workers[w].local)[0] && SettledAs(tr, acts, w, t, updateOk, settleOk, v)
    {
      ghost var start := q;
      t := Decide(w, updateOk);
      ghost var settling, tr2, acts2 := q, tr, acts;
      v := Settle(w, settleOk);
      if !v.NotSettled? { DeservedStays(tr2, acts2, tr, acts, w, t, updateOk, v); }
      OnwardTwice(start, settling, q);
    }

    /** Decodes the delivery and applies the update; what to answer the broker is settled then. */
    method Decide(w: nat, updateOk: bool) returns (t: nat)
      requires Valid() && Has(q, w) && q.workers[w].pc.Idle? && q.workers[w].local != []
      modifies this`q, this`tr, this`acts, this`pause
      ensures Valid() && Onward(old(q), q) && old(tr) <= tr && old(acts) <= acts
      ensures Has(q, w) && q.workers[w].pc.Settling? && q.workers[w].pc.tag == t
      ensures t == old(q.workers[w].local)[0] && old(q.workers[w].local)[1..] <= q.workers[w].local
      ensures Deserved(tr, acts, w, t, updateOk, if q.workers[w].pc.ack then WasAcked else WasRejected)
    {
      ghost var start := q;
      t := Take(w, start);
      Others(w, start);
      if q.workers[w].pc.Updating? {
        Update(w, updateOk, start);
      }
    }

    method Update(w: nat, updateOk: bool, ghost start: Queue)
      requires Valid() && Has(q, w) && q.workers[w].pc.Updating? && Onward(start, q)
      modifies this`q, this`tr, this`acts, this`pause
      ensures Valid() && Onward(start, q) && old(tr) <= tr && old(acts) <= acts
      ensures Has(q, w) && q.workers[w].pc.Settling? && q.workers[w].pc.tag == old(q.workers[w].pc.tag)
      ensures AppliedAs(tr, acts, w, old(q.workers[w].pc.tag), updateOk, q.workers[w].pc.ack)
      ensures old(q.workers[w].local) <= q.workers[w].local
    {
      ghost var t := q.workers[w].pc.tag;
      ghost var ack := Apply(w, updateOk, start);
      ghost var tr1, acts1 := tr, acts;
      Others(w, start);
      AppliedStays(tr1, acts1, tr, acts, w, t, updateOk, ack);
    }

    /** A body that does not decode is settled at once. */
    method Take(w: nat, ghost start: Queue) returns (t: nat)
      requires Valid() && Has(q, w) && q.workers[w].pc.Idle? && q.workers[w].local != [] && Onward(start, q)
      modifies this`q, this`tr, this`acts
      ensures Valid() && Onward(start, q) && t == old(q.workers[w].local)[0]
      ensures old(tr) <= tr && old(acts) <= acts && t < |q.deliveries|
      ensures Has(q, w) && q.workers[w].pc == if q.deliveries[t].body.Update? then Updating(t) else Settling(t, false)
      ensures q.workers[w].local == old(q.workers[w].local)[1..]
    {
      InvHolds(tr, acts, |acts|);
      assert WorkerOk(q, w) && Holding(q.workers[w])[0] == q.workers[w].local[0];
      t := q.workers[w].local[0];
      Do(Broker.Take(w), start);
    }

    method Apply(w: nat, updateOk: bool, ghost start: Queue) returns (ghost ack: bool)
      requires Valid() && Has(q, w) && q.workers[w].pc.Updating? && Onward(start, q)
      modifies this`q, this`tr, this`acts
      ensures Valid() && Onward(start, q)
      ensures old(tr) <= tr && old(acts) <= acts
      ensures Has(q, w) && q.workers[w].pc == Settling(old(q.workers[w].pc.tag), ack)
      ensures AppliedAs(tr, acts, w, old(q.workers[w].pc.tag), updateOk, ack)
      ensures q.workers[w].local == old(q.workers[w].local)
    {
      InvHolds(tr, acts, |acts|);
      assert WorkerOk(q, w);
      var i, t := |acts|, q.workers[w].pc.tag;
      ack := Changes(q.db, q.deliveries[t].body, updateOk);
      AckedExactly(q, w, updateOk);
      assert AppliedAt(q, Broker.Apply(w, updateOk), w, t, updateOk, ack);
      Do(Broker.Apply(w, updateOk), start);
      assert AppliedAt(tr[i], acts[i], w, t, updateOk, ack);
    }

    method Settle(w: nat, settleOk: bool) returns (v: Verdict)
      requires Valid() && Has(q, w) && q.workers[w].pc.Settling?
      modifies this`q, this`tr, this`acts
      ensures Valid() && Onward(old(q), q) && old(tr) <= tr && old(acts) <= acts
      ensures Has(q, w) && q.workers[w].pc.Idle? && q.workers[w].local == old(q.workers[w].local)
      ensures q.workers[w].open == old(q.workers[w].open)
      ensures VerdictHolds(q, old(q.workers[w].pc.tag), v)
      ensures v.NotSettled? <==> !(settleOk && q.workers[w].open)
      ensures !v.NotSettled? ==> (v.WasAcked? <==> old(q.workers[w].pc.ack))
    {
      InvHolds(tr, acts, |acts|);
      var x := q.workers[w];
      assert WorkerOk(q, w) && Holding(x)[0] == x.pc.tag;
      Do(Broker.Settle(w, settleOk), q);
      v := if !settleOk || !x.open then NotSettled else if x.pc.ack then WasAcked else WasRejected;
    }

    /** The loop over the deliveries, for at most `turns` of them, in the order in which
        they came. Every verdict is deserved and final: it still holds when the loop stops,
        whatever happened since. */
    method StartConversationUpdateConsumer(w: nat, turns: nat, updateOk: nat -> bool, settleOk: nat -> bool)
      returns (tags: seq<nat>, verdicts: seq<Verdict>)
      requires Valid() && Has(q, w) && q.workers[w].pc.Idle?
      modifies this`q, this`tr, this`acts, this`pause
      ensures Valid() && Has(q, w) && q.workers[w].pc.Idle?
      ensures |tags| <= turns && old(q.workers[w].local) <= tags + q.workers[w].local
      ensures Settled(tr, acts, w, tags, updateOk, settleOk, verdicts)
      ensures |tags| < turns ==> q.workers[w].local == []
    {
      tags, verdicts := [], [];
      while |tags| < turns
        invariant Valid() && Has(q, w) && q.workers[w].pc.Idle?
        invariant |tags| <= turns && old(q.workers[w].local) <= tags + q.workers[w].local
        invariant Settled(tr, acts, w, tags, updateOk, settleOk, verdicts)
      {
        ghost var q0, tr0, acts0 := q, tr, acts;
        var t, v := Turn(w, updateOk(|tags|), settleOk(|tags|));
        AllSettled(tr0, acts0, tr, acts, w, tags, updateOk, settleOk, verdicts);
        if t.None? { return; }
        InOrder(old(q.workers[w].local), q0.workers[w].local, q.workers[w].local, tags, t.value);
        OneMore(tr, acts, w, tags, updateOk, settleOk, verdicts, t.value, v);
        tags, verdicts := tags + [t.value], verdicts + [v];
      }
    }

    /** Waits for the next delivery and handles it; `None` if there is none yet. */
    method Turn(w: nat, updateOk: bool, settleOk: bool) returns (t: Option<nat>, v: Verdict)
      requires Valid() && Has(q, w) && q.workers[w].pc.Idle?
      modifies this`q, this`tr, this`acts, this`pause
      ensures Valid() && Onward(old(q), q) && old(tr) <= tr && old(acts) <= acts
      ensures Has(q, w) && q.workers[w].pc.Idle?
      ensures t.None? ==> q.workers[w].local == [] && old(q.workers[w].local) == []
      ensures t.Some? ==> old(q.workers[w].local) <= [t.value] + q.workers[w].local
      ensures t.Some? ==> SettledAs(tr, acts, w, t.value, updateOk, settleOk, v)
    {
      ghost var before := q;
      Others(w, before);
      ghost var turn := q;
      if q.workers[w].local == [] { return None, NotSettled; }
      var tag;
      tag, v := HandleDelivery(w, updateOk, settleOk);
      OnwardTwice(before, turn, q);
      assert turn.workers[w].local == [tag] + turn.workers[w].local[1..];
      t := Some(tag);
    }
  }

  lemma AllSettled(tr: seq<Queue>, acts: seq<Action>, tr': seq<Queue>, acts': seq<Action>, w: nat, tags: seq<nat>,
                   ok: nat -> bool, settleOk: nat -> bool, verdicts: seq<Verdict>)
    requires |tr| == |acts| + 1 && |tr'| == |acts'| + 1 && tr <= tr' && acts <= acts'
    requires Onward(tr[|acts|], tr'[|acts'|]) && Settled(tr, acts, w, tags, ok, settleOk, verdicts)
    ensures Settled(tr', acts', w, tags, ok, settleOk, verdicts)
  {
    forall i | 0 <= i < |tags|
      ensures SettledAs(tr', acts', w, tags[i], ok(i), settleOk(i), verdicts[i])
    {
      assert SettledAs(tr, acts, w, tags[i], ok(i), settleOk(i), verdicts[i]);
      DeservedStays(tr, acts, tr', acts', w, tags[i], ok(i), verdicts[i]);
    }
  }

  lemma OneMore(tr: seq<Queue>, acts: seq<Action>, w: nat, tags: seq<nat>, ok: nat -> bool, settleOk: nat -> bool,
                verdicts: seq<Verdict>, t: nat, v: Verdict)
    requires |tr| == |acts| + 1 && Settled(tr, acts, w, tags, ok, settleOk, verdicts)
    requires SettledAs(tr, acts, w, t, ok(|tags|), settleOk(|tags|), v)
    ensures Settled(tr, acts, w, tags + [t], ok, settleOk, verdicts + [v])
  {
  }

  lemma InOrder(start: seq<nat>, before: seq<nat>, after: seq<nat>, tags: seq<nat>, t: nat)
    requires start <= tags + before && before <= [t] + after
    ensures start <= (tags + [t]) + after
  {
    assert (tags + [t]) + after == tags + ([t] + after);
  }
}
