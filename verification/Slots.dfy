/** A connection takes its slot in the registry once and loses it once. From this follow
    the laws of `Unregister` over whole runs: of a displaced or kicked connection it is
    inert, and of any connection at most one call gives anything up. */
module Slots {
  import opened Cluster
  import opened Frames
  import opened NoGap
  import Lifecycle

  // ------------------------------------------------------------ out is for good

  /** Past registration and not in the slot of its user on its node. */
  ghost predicate Out(w: World, c: nat) {
    c < |w.clients| && Stage(w.clients[c].pc) > 0 && !HasSlot(w, w.clients[c].node, w.clients[c].user, c)
  }

  lemma OutStep(w: World, a: Action, c: nat)
    requires Enabled(w, a) && Out(w, c)
    ensures Out(Step(w, a), c)
  {
    StepFrame(w, a);
    StageStep(w, a, c);
    if a.Conn? && a.conn.RegisterMap? { RegisterKeepsOut(w, a.client, c); }
    if a.UnregCheck? { UnregKeepsOut(w, a.unreg, c); }
  }

  lemma RegisterKeepsOut(w: World, d: nat, c: nat)
    requires ConnEnabled(w, d, RegisterMap) && Out(w, c)
    ensures !HasSlot(RegisterMapStep(w, d), w.clients[c].node, w.clients[c].user, c)
  {
  }

  lemma UnregKeepsOut(w: World, k: nat, c: nat)
    requires UnregEnabled(w, k, Checking) && Out(w, c)
    ensures !HasSlot(UnregCheckStep(w, k), w.clients[c].node, w.clients[c].user, c)
  {
  }

  /** Once displaced, kicked or torn down, a connection is never registered again. */
  lemma {:induction false} OutForever(tr: seq<World>, acts: seq<Action>, i: nat, j: nat, c: nat)
    requires Run(tr, acts) && i <= j < |tr| && Out(tr[i], c)
    ensures Out(tr[j], c)
    decreases j - i
  {
    if i < j {
      assert StepAt(tr, acts, j - 1);
      OutForever(tr, acts, i, j - 1, c);
      OutStep(tr[j - 1], acts[j - 1], c);
    }
  }

  // ----------------------------------------------------- progress of Unregister

  function Rank(pc: UnregPc): nat {
    match pc
    case Checking => 0
    case Deleting => 1
    case Decrementing => 2
    case Gone => 3
  }

  lemma RankStep(w: World, a: Action, k: nat)
    requires Enabled(w, a) && k < |w.unregs|
    ensures k < |Step(w, a).unregs| && Rank(w.unregs[k].pc) <= Rank(Step(w, a).unregs[k].pc)
    ensures UnregMover(a) != k ==> Step(w, a).unregs[k] == w.unregs[k]
    ensures UnregMover(a) == k ==> Rank(w.unregs[k].pc) < Rank(Step(w, a).unregs[k].pc)
  {
    StepFrame(w, a);
  }

  lemma {:induction false} RankAlong(tr: seq<World>, acts: seq<Action>, i: nat, j: nat, k: nat)
    requires Run(tr, acts) && i <= j < |tr| && k < |tr[i].unregs|
    ensures k < |tr[j].unregs| && Rank(tr[i].unregs[k].pc) <= Rank(tr[j].unregs[k].pc)
    decreases j - i
  {
    if i < j {
      assert StepAt(tr, acts, j - 1);
      RankAlong(tr, acts, i, j - 1, k);
      RankStep(tr[j - 1], acts[j - 1], k);
    }
  }

  /** Step `i` deletes the presence key, or decrements the gauge, for goroutine `k`. */
  predicate DeletesFor(a: Action, k: nat) {
    a.UnregDelete? && a.unreg == k
  }

  predicate DecrementsFor(a: Action, k: nat) {
    a == UnregDecrement(k)
  }

  predicate Releases(a: Action, k: nat) {
    DeletesFor(a, k) || DecrementsFor(a, k)
  }

  lemma ReleaseRank(tr: seq<World>, acts: seq<Action>, i: nat, k: nat)
    requires Run(tr, acts) && i < |acts| && Releases(acts[i], k)
    ensures k < |tr[i].unregs| && Rank(tr[i].unregs[k].pc) == (if DeletesFor(acts[i], k) then 1 else 2)
    ensures k < |tr[i + 1].unregs| && Rank(tr[i].unregs[k].pc) < Rank(tr[i + 1].unregs[k].pc)
  {
    assert StepAt(tr, acts, i);
    RankStep(tr[i], acts[i], k);
  }

  /** The locked check of goroutine `k` at step `i` finds its connection in the slot. */
  ghost predicate TakesOut(tr: seq<World>, acts: seq<Action>, i: nat, k: nat)
    requires i < |acts| && i < |tr|
  {
    acts[i] == UnregCheck(k) && k < |tr[i].unregs|
    && HasSlot(tr[i], tr[i].unregs[k].node, tr[i].unregs[k].user, tr[i].unregs[k].client)
  }

  lemma CheckOutcome(w: World, k: nat)
    requires UnregEnabled(w, k, Checking)
    ensures k < |UnregCheckStep(w, k).unregs|
    ensures UnregCheckStep(w, k).unregs[k].pc == if HasSlot(w, w.unregs[k].node, w.unregs[k].user, w.unregs[k].client)
                                                 then Deleting else Gone
  {
  }

  /** Whoever is about to delete or decrement took its connection out of the slot. */
  lemma {:induction false} ReleaseHasTakenOut(tr: seq<World>, acts: seq<Action>, i: nat, k: nat) returns (j: nat)
    requires Run(tr, acts) && i < |tr| && k < |tr[i].unregs|
    requires (tr[i].unregs[k].pc.Deleting? || tr[i].unregs[k].pc.Decrementing?)
    ensures j < i && TakesOut(tr, acts, j, k)
  {
    assert StepAt(tr, acts, i - 1);
    StepFrame(tr[i - 1], acts[i - 1]);
    if acts[i - 1] == UnregCheck(k) {
      CheckOutcome(tr[i - 1], k);
      j := i - 1;
    } else {
      NewUnregsCheck(tr[i - 1], acts[i - 1], k);
      j := ReleaseHasTakenOut(tr, acts, i - 1, k);
    }
  }

  lemma NewUnregsCheck(w: World, a: Action, k: nat)
    requires Enabled(w, a) && k < |Step(w, a).unregs| && a != UnregCheck(k)
    requires Step(w, a).unregs[k].pc.Deleting? || Step(w, a).unregs[k].pc.Decrementing?
    ensures k < |w.unregs| && (w.unregs[k].pc.Deleting? || w.unregs[k].pc.Decrementing?)
  {
    StepFrame(w, a);
    if k < |w.unregs| { RankStep(w, a, k); }
  }

  lemma TakingOutLeavesOut(tr: seq<World>, acts: seq<Action>, i: nat, k: nat)
    requires Run(tr, acts) && i < |acts| && TakesOut(tr, acts, i, k)
    ensures Out(tr[i + 1], tr[i].unregs[k].client)
  {
    assert StepAt(tr, acts, i);
    Lifecycle.InvHolds(tr, acts, i);
    var t := tr[i].unregs[k];
    assert Lifecycle.UnregOk(tr[i], t);
    assert Lifecycle.SlotOk(tr[i], t.node, t.user, t.client);
  }

  lemma UnregsStay(tr: seq<World>, acts: seq<Action>, i: nat, j: nat, k: nat)
    requires Run(tr, acts) && i <= j < |tr| && k < |tr[i].unregs|
    ensures k < |tr[j].unregs| && tr[j].unregs[k].client == tr[i].unregs[k].client
    ensures tr[i].unregs[k].client < |tr[i].clients| <= |tr[j].clients|
    ensures tr[j].unregs[k].node == tr[j].clients[tr[i].unregs[k].client].node
            && tr[j].unregs[k].user == tr[j].clients[tr[i].unregs[k].client].user
  {
    GrowsAlong(tr, acts, i, j);
    Lifecycle.InvHolds(tr, acts, i);
    Lifecycle.InvHolds(tr, acts, j);
    assert Lifecycle.UnregOk(tr[i], tr[i].unregs[k]) && Lifecycle.UnregOk(tr[j], tr[j].unregs[k]);
    assert tr[j].unregs[k].(pc := tr[i].unregs[k].pc) == tr[i].unregs[k];
  }

  // --------------------------------------------------------------- theorems

  /** If a connection is past registration and out of its slot at some moment `i` of a
      run, displaced by a newer one or kicked, then every later `Unregister` of it, by
      whichever goroutine `k`, changes neither a registry nor a presence key nor a gauge:
      not at its check, and it takes no further step. */
  lemma StaleUnregisterIsInert(tr: seq<World>, acts: seq<Action>, i: nat, j: nat, c: nat, k: nat)
    requires Run(tr, acts) && i <= j < |acts| && Out(tr[i], c)
    requires acts[j] == UnregCheck(k) && k < |tr[j].unregs| && tr[j].unregs[k].client == c
    ensures tr[j + 1].nodes == tr[j].nodes && tr[j + 1].presence == tr[j].presence
    ensures forall x :: 0 <= x < |acts| ==> !Releases(acts[x], k)
  {
    OutForever(tr, acts, i, j, c);
    assert StepAt(tr, acts, j);
    UnregsStay(tr, acts, j, j, k);
    Lifecycle.StaleCheckIsInert(tr[j], k);
    CheckOutcome(tr[j], k);
    forall x | 0 <= x < |acts|
      ensures !Releases(acts[x], k)
    {
      if Releases(acts[x], k) {
        ReleaseRank(tr, acts, x, k);
        if x <= j { RankAlong(tr, acts, x, j, k); } else { RankAlong(tr, acts, j + 1, x, k); }
      }
    }
  }

  /** Two goroutines that both took the same connection out are one. */
  lemma TakenOutOnce(tr: seq<World>, acts: seq<Action>, i: nat, j: nat, k: nat, k': nat)
    requires Run(tr, acts) && i <= j < |acts| && TakesOut(tr, acts, i, k) && TakesOut(tr, acts, j, k')
    requires tr[i].unregs[k].client == tr[j].unregs[k'].client
    ensures i == j && k == k'
  {
    if i < j {
      TakingOutLeavesOut(tr, acts, i, k);
      OutForever(tr, acts, i + 1, j, tr[i].unregs[k].client);
      UnregsStay(tr, acts, j, j, k');
    }
  }

  lemma SameGoroutine(tr: seq<World>, acts: seq<Action>, i: nat, j: nat, k: nat, k': nat)
    requires Run(tr, acts) && i < |acts| && j < |acts| && Releases(acts[i], k) && Releases(acts[j], k')
    requires k < |tr[i].unregs| && k' < |tr[j].unregs| && tr[i].unregs[k].client == tr[j].unregs[k'].client
    ensures k == k'
  {
    ReleaseRank(tr, acts, i, k);
    ReleaseRank(tr, acts, j, k');
    var x := ReleaseHasTakenOut(tr, acts, i, k);
    var y := ReleaseHasTakenOut(tr, acts, j, k');
    UnregsStay(tr, acts, x, i, k);
    UnregsStay(tr, acts, y, j, k');
    if x <= y { TakenOutOnce(tr, acts, x, y, k, k'); } else { TakenOutOnce(tr, acts, y, x, k', k); }
  }

  /** However often a connection is kicked and torn down, a run deletes a presence key
      for it at most once and decrements the gauge for it at most once. */
  lemma ReleasedOnce(tr: seq<World>, acts: seq<Action>, i: nat, j: nat, k: nat, k': nat)
    requires Run(tr, acts) && i < |acts| && j < |acts|
    requires (DeletesFor(acts[i], k) && DeletesFor(acts[j], k'))
             || (DecrementsFor(acts[i], k) && DecrementsFor(acts[j], k'))
    requires k < |tr[i].unregs| && k' < |tr[j].unregs| && tr[i].unregs[k].client == tr[j].unregs[k'].client
    ensures i == j && k == k'
  {
    SameGoroutine(tr, acts, i, j, k, k');
    ReleaseRank(tr, acts, i, k);
    ReleaseRank(tr, acts, j, k);
    if i < j { RankAlong(tr, acts, i + 1, j, k); }
    if j < i { RankAlong(tr, acts, j + 1, i, k); }
  }
}
