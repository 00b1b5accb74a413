/** What becomes of a delivery, over whole runs of the queue, and of an update that is
    delivered again after it was applied. */
module Redelivery {
  import opened Basics
  import opened Store
  import opened Broker
  import Consumer

  lemma SettlingStays(q: Queue, a: Action, w: nat)
    requires Enabled(q, a) && Has(q, w) && q.workers[w].pc.Settling? && !(a.Settle? && a.worker == w)
    ensures Has(Step(q, a), w) && Step(q, a).workers[w].pc == q.workers[w].pc
  {
    Consumer.OthersDisturbNot(q, a, w);
  }

  lemma BodyStays(q: Queue, a: Action, t: nat)
    requires Inv(q) && Enabled(q, a) && t < |q.deliveries|
    ensures t < |Step(q, a).deliveries| && Step(q, a).deliveries[t].body == q.deliveries[t].body
  {
    Consumer.BodiesStay(q, a);
  }

  lemma {:induction false} SettlingAlong(tr: seq<Queue>, acts: seq<Action>, i: nat, j: nat, w: nat)
    requires Run(tr, acts) && i <= j < |tr| && Has(tr[i], w) && tr[i].workers[w].pc.Settling?
    requires forall x :: i <= x < j ==> !(acts[x].Settle? && acts[x].worker == w)
    ensures Has(tr[j], w) && tr[j].workers[w].pc == tr[i].workers[w].pc
    decreases j - i
  {
    if i < j {
      assert StepAt(tr, acts, j - 1);
      SettlingAlong(tr, acts, i, j - 1, w);
      SettlingStays(tr[j - 1], acts[j - 1], w);
    }
  }

  lemma {:induction false} BodyAlong(tr: seq<Queue>, acts: seq<Action>, i: nat, j: nat, t: nat)
    requires Run(tr, acts) && i <= j < |tr| && t < |tr[i].deliveries|
    ensures t < |tr[j].deliveries| && tr[j].deliveries[t].body == tr[i].deliveries[t].body
    ensures tr[i].applied <= tr[j].applied
    decreases j - i
  {
    if i < j {
      BodyAlong(tr, acts, i, j - 1, t);
      BodyAt(tr, acts, j - 1, t);
    }
  }

  lemma BodyAt(tr: seq<Queue>, acts: seq<Action>, k: nat, t: nat)
    requires Run(tr, acts) && k < |acts| && t < |tr[k].deliveries|
    ensures t < |tr[k + 1].deliveries| && tr[k + 1].deliveries[t].body == tr[k].deliveries[t].body
    ensures tr[k].applied <= tr[k + 1].applied
  {
    assert StepAt(tr, acts, k);
    InvHolds(tr, acts, k);
    BodyStays(tr[k], acts[k], t);
    Consumer.ChannelsStay(tr[k], acts[k]);
  }

  /** The fate of a delivery, exactly. A worker applies delivery `t` at step `i` and its
      next settlement, at step `j`, reaches the broker on an open channel. Whatever else
      happened, the delivery is then acked if the update changed a row at step `i`, and
      dead-lettered if it did not. */
  lemma FateExactly(tr: seq<Queue>, acts: seq<Action>, i: nat, j: nat, w: nat, ok: bool)
    requires Run(tr, acts) && i < j < |acts| && acts[i] == Apply(w, ok) && acts[j] == Settle(w, true)
    requires forall x :: i < x < j ==> !(acts[x].Settle? && acts[x].worker == w)
    requires Has(tr[j], w) && tr[j].workers[w].open
    requires Has(tr[i], w) && tr[i].workers[w].pc.Updating? && tr[i].workers[w].pc.tag < |tr[i].deliveries|
    ensures var t := tr[i].workers[w].pc.tag;
            && t < |tr[j + 1].deliveries| && tr[j + 1].deliveries[t].body == tr[i].deliveries[t].body
            && tr[j + 1].deliveries[t].status == if Changes(tr[i].db, tr[i].deliveries[t].body, ok) then Acked
                                                 else DeadLettered
  {
    var t := tr[i].workers[w].pc.tag;
    assert StepAt(tr, acts, i) && StepAt(tr, acts, j);
    AckedExactly(tr[i], w, ok);
    SettlingAlong(tr, acts, i + 1, j, w);
    BodyAlong(tr, acts, i, j, t);
  }

  /** A redelivered update: `t` carries an update that some consumer applied before and
      whose values the row still holds. When it is applied again, with a working
      statement, and settled, it ends dead-lettered although it was written. */
  lemma RedeliveredIsDeadLettered(tr: seq<Queue>, acts: seq<Action>, i: nat, j: nat, w: nat)
    requires Run(tr, acts) && i < j < |acts| && acts[i] == Apply(w, true) && acts[j] == Settle(w, true)
    requires forall x :: i < x < j ==> !(acts[x].Settle? && acts[x].worker == w)
    requires Has(tr[j], w) && tr[j].workers[w].open
    requires Has(tr[i], w) && tr[i].workers[w].pc.Updating? && tr[i].workers[w].pc.tag < |tr[i].deliveries|
    requires var b := tr[i].deliveries[tr[i].workers[w].pc.tag].body;
             b.Update? && b in tr[i].applied && ConvExists(tr[i].db, b.conv)
             && tr[i].db.convs[b.conv - 1].last == Some(SummaryOf(b.row))
    ensures var t := tr[i].workers[w].pc.tag;
            t < |tr[j + 1].deliveries| && tr[j + 1].deliveries[t].status.DeadLettered?
            && tr[j + 1].deliveries[t].body in tr[j + 1].applied
  {
    FateExactly(tr, acts, i, j, w, true);
    BodyAlong(tr, acts, i, j + 1, tr[i].workers[w].pc.tag);
  }

  // ---------------------------------------------------------------- a run of it

  const START := Queue(EMPTY.(convs := [Conversation(1, 1, None)]), multiset{}, [], [], multiset{}, {}, {})

  lemma Takes(tr: seq<Queue>, acts: seq<Action>, a: Action) returns (tr': seq<Queue>, acts': seq<Action>)
    requires Run(tr, acts) && Enabled(tr[|acts|], a)
    ensures Run(tr', acts') && tr' == tr + [Step(tr[|acts|], a)] && acts' == acts + [a]
  {
    tr', acts' := tr + [Step(tr[|acts|], a)], acts + [a];
    RunExtends(tr, acts, a);
  }

  /** The first consumer applies the update and loses its channel before the ack. */
  lemma AppliedThenClosed(m: Message) returns (tr: seq<Queue>, acts: seq<Action>)
    ensures Run(tr, acts)
    ensures var q, b := tr[|acts|], Update(1, m);
            && |q.workers| == 2 && q.workers[1] == Worker(true, [], Idle) && !q.workers[0].open
            && |q.deliveries| == 1 && q.deliveries[0] == Delivery(b, 0, Requeued)
            && b in q.ready && b in q.applied && ConvExists(q.db, 1) && q.db.convs[0].last == Some(SummaryOf(m))
  {
    tr, acts := OneDelivered(m);
    tr, acts := Takes(tr, acts, Take(0));
    tr, acts := Takes(tr, acts, Apply(0, true));
    tr, acts := Closes(tr, acts, Update(1, m));
  }

  lemma OneDelivered(m: Message) returns (tr: seq<Queue>, acts: seq<Action>)
    ensures Run(tr, acts)
    ensures var q := tr[|acts|];
            && |q.workers| == 2 && q.workers[0] == Worker(true, [0], Idle) && q.workers[1] == Worker(true, [], Idle)
            && q.deliveries == [Delivery(Update(1, m), 0, Unacked)] && q.db == START.db
  {
    tr, acts := TwoConsumers();
    tr, acts := Takes(tr, acts, Enqueue(0, Update(1, m)));
    tr, acts := Takes(tr, acts, Deliver(0, Update(1, m)));
  }

  lemma TwoConsumers() returns (tr: seq<Queue>, acts: seq<Action>)
    ensures Run(tr, acts)
    ensures var q := tr[|acts|];
            q.workers == [Worker(true, [], Idle), Worker(true, [], Idle)] && q == START.(workers := q.workers)
  {
    tr, acts := [START], [];
    tr, acts := Takes(tr, acts, Start);
    tr, acts := Takes(tr, acts, Start);
  }

  lemma Closes(tr: seq<Queue>, acts: seq<Action>, b: Body) returns (tr': seq<Queue>, acts': seq<Action>)
    requires Run(tr, acts)
    requires var q := tr[|acts|];
             |q.workers| == 2 && q.workers[0].open && |q.deliveries| == 1 && q.deliveries[0] == Delivery(b, 0, Unacked)
    ensures Run(tr', acts')
    ensures var q, q' := tr[|acts|], tr'[|acts'|];
            && |q'.workers| == 2 && q'.workers[1] == q.workers[1] && !q'.workers[0].open && q'.db == q.db
            && q'.applied == q.applied
            && |q'.deliveries| == 1 && q'.deliveries[0] == Delivery(b, 0, Requeued) && b in q'.ready
  {
    var q := tr[|acts|];
    assert q.deliveries == [q.deliveries[0]] && q.deliveries[..0] == [];
    assert Bodies(q.deliveries, UnackedOn(0)) == Bodies(q.deliveries[..0], UnackedOn(0)) + multiset{b};
    tr', acts' := Takes(tr, acts, CloseChannel(0));
  }

  /** An update that was written ends in the dead-letter queue. */
  lemma AppliedYetDeadLettered(m: Message) returns (tr: seq<Queue>, acts: seq<Action>)
    ensures Run(tr, acts)
    ensures var q := tr[|acts|];
            |q.deliveries| == 2 && q.deliveries[1].status.DeadLettered? && q.deliveries[1].body == Update(1, m)
            && Update(1, m) in q.applied
            && q.deliveries[0] == Delivery(Update(1, m), 0, Requeued)
  {
    tr, acts := AppliedThenClosed(m);
    tr, acts := Takes(tr, acts, Deliver(1, Update(1, m)));
    tr, acts := Takes(tr, acts, Take(1));
    tr, acts := Takes(tr, acts, Apply(1, true));
    tr, acts := Takes(tr, acts, Settle(1, true));
  }
}
