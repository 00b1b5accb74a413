/** When the summary of a conversation runs backwards, over whole runs. */
module Summaries {
  import opened Basics
  import opened Store
  import opened Cluster
  import opened Frames
  import Conversations
  import Tables

  /** The update this step writes to the conversations table, if its statement works: by
      a consumer of the queue, or by a sender that fell back to the direct write. */
  function Writes(w: World, a: Action): Option<MqMessage> {
    match a
    case Env(ConsumeUpdate(i, true)) => if i < |w.handed| then Some(w.handed[i]) else None
    case Listen(c, DoPublish(true, true)) =>
      if c < |w.clients| && w.clients[c].listen.Publish?
      then Some(MqMessage(w.clients[c].listen.conv, w.clients[c].listen.row)) else None
    case _ => None
  }

  /** This step writes a message to conversation `k` that is older than the stored one. */
  predicate Regresses(w: World, a: Action, k: nat) {
    Writes(w, a).Some? && Writes(w, a).value.conv == k && Writes(w, a).value.row.id < LastId(w.db, k)
  }

  /** The summary of conversation `k`, if there is one. */
  function LastOf(db: Db, k: nat): Option<Summary> {
    if ConvExists(db, k) then db.convs[k - 1].last else None
  }

  /** The summary shows what the latest write put there, and nothing else moves it. */
  ghost predicate Follows(w: World, a: Action, w': World, k: nat) {
    if Writes(w, a).Some? && Writes(w, a).value.conv == k && ConvExists(w.db, k)
    then ConvExists(w'.db, k) && Shows(w'.db.convs[k - 1], Writes(w, a).value.row)
    else LastOf(w'.db, k) == LastOf(w.db, k)
  }

  lemma EnvFollows(w: World, e: EnvAct, k: nat)
    requires EnvEnabled(w, e)
    ensures Follows(w, Env(e), EnvStep(w, e), k)
  {
  }

  lemma ResolveFollows(w: World, c: nat, f: Conversations.Faults, k: nat)
    requires ListenEnabled(w, c, DoResolve(f)) && Tables.StoreOk(w)
    ensures Follows(w, Listen(c, DoResolve(f)), ResolveStep(w, c, f), k)
  {
    var u, t := w.clients[c].user, w.clients[c].listen.target;
    Conversations.ResolveKeepsSane(w.db, w.convCache, u, t, w.now, f);
    Conversations.ResolveAdds(w.db, w.convCache, u, t, w.now, f);
  }

  lemma PublishFollows(w: World, c: nat, direct: bool, ok: bool, k: nat)
    requires ListenEnabled(w, c, DoPublish(direct, ok))
    ensures Follows(w, Listen(c, DoPublish(direct, ok)), PublishStep(w, c, direct, ok), k)
  {
  }

  lemma OtherFollows(w: World, c: nat, e: ListenAct, k: nat)
    requires ListenEnabled(w, c, e) && (e.DoPersist? || e.DoMarkOwn? || e.DoAck?)
    ensures Follows(w, Listen(c, e), ListenStep(w, c, e), k)
  {
  }

  lemma StepFollows(w: World, a: Action, k: nat)
    requires Enabled(w, a) && Tables.StoreOk(w)
    ensures Follows(w, a, Step(w, a), k)
  {
    match a
    case Env(e) => EnvFollows(w, e, k);
    case Listen(c, e) => ListenFollows(w, c, e, k);
    case _ => QuietFollows(w, a, k);
  }

  lemma QuietFollows(w: World, a: Action, k: nat)
    requires Enabled(w, a) && !a.Env? && !a.Listen?
    ensures Follows(w, a, Step(w, a), k)
  {
    StepFrame(w, a);
  }

  lemma ListenFollows(w: World, c: nat, e: ListenAct, k: nat)
    requires ListenEnabled(w, c, e) && Tables.StoreOk(w)
    ensures Follows(w, Listen(c, e), ListenStep(w, c, e), k)
  {
    match e
    case DoResolve(f) => ResolveFollows(w, c, f, k);
    case DoPublish(direct, ok) => PublishFollows(w, c, direct, ok, k);
    case DoPersist(_) => OtherFollows(w, c, e, k);
    case DoMarkOwn(_) => OtherFollows(w, c, e, k);
    case DoAck(_) => OtherFollows(w, c, e, k);
    case _ => QuietListenFollows(w, c, e, k);
  }

  lemma QuietListenFollows(w: World, c: nat, e: ListenAct, k: nat)
    requires ListenEnabled(w, c, e) && !TouchesDb(Listen(c, e))
    ensures Follows(w, Listen(c, e), ListenStep(w, c, e), k)
  {
    ListenFrame(w, c, e);
  }

  lemma FollowsAt(tr: seq<World>, acts: seq<Action>, x: nat, k: nat)
    requires Run(tr, acts) && x < |acts|
    ensures Follows(tr[x], acts[x], tr[x + 1], k)
  {
    assert StepAt(tr, acts, x);
    Tables.InvHolds(tr, acts, x);
    StepFollows(tr[x], acts[x], k);
  }

  /** The latest update for conversation `k` written before state `x`. */
  function LatestWrite(tr: seq<World>, acts: seq<Action>, x: nat, k: nat): Option<Message>
    requires x <= |acts| < |tr|
  {
    if x == 0 then None
    else
      var m := Writes(tr[x - 1], acts[x - 1]);
      if m.Some? && m.value.conv == k && ConvExists(tr[x - 1].db, k) then Some(m.value.row)
      else LatestWrite(tr, acts, x - 1, k)
  }

  /** In every reachable state the summary of a conversation shows, in all three columns, the
      message written last, by a consumer or by a sender, and is empty if none was. */
  lemma {:induction false} SummaryIsLatest(tr: seq<World>, acts: seq<Action>, x: nat, k: nat)
    requires Run(tr, acts) && x < |tr|
    ensures match LatestWrite(tr, acts, x, k)
            case None => LastOf(tr[x].db, k).None?
            case Some(m) => ConvExists(tr[x].db, k) && Shows(tr[x].db.convs[k - 1], m)
  {
    if x > 0 {
      SummaryIsLatest(tr, acts, x - 1, k);
      FollowsAt(tr, acts, x - 1, k);
    }
  }

  /** From state `i` to state `j` of a run `last_msg_id` of conversation `k` never goes
      down. */
  ghost predicate Monotone(tr: seq<World>, i: nat, j: nat, k: nat)
    requires j < |tr|
  {
    forall x, y :: i <= x <= y <= j ==> LastId(tr[x].db, k) <= LastId(tr[y].db, k)
  }

  lemma {:induction false} RisesWithout(tr: seq<World>, acts: seq<Action>, x: nat, y: nat, k: nat)
    requires Run(tr, acts) && x <= y < |tr|
    requires forall z :: x <= z < y ==> !Regresses(tr[z], acts[z], k)
    ensures LastId(tr[x].db, k) <= LastId(tr[y].db, k)
    decreases y - x
  {
    if x < y {
      RisesWithout(tr, acts, x, y - 1, k);
      FollowsAt(tr, acts, y - 1, k);
    }
  }

  /** Over any stretch of any run, `last_msg_id` of a conversation never goes down if and
      only if no write in it carries a message older than the stored one. */
  lemma SummaryMonotoneExactly(tr: seq<World>, acts: seq<Action>, i: nat, j: nat, k: nat)
    requires Run(tr, acts) && i <= j < |tr|
    ensures Monotone(tr, i, j, k) <==> forall z :: i <= z < j ==> !Regresses(tr[z], acts[z], k)
  {
    if forall z :: i <= z < j ==> !Regresses(tr[z], acts[z], k) {
      forall x, y | i <= x <= y <= j
        ensures LastId(tr[x].db, k) <= LastId(tr[y].db, k)
      {
        RisesWithout(tr, acts, x, y, k);
      }
    } else {
      var z :| i <= z < j && Regresses(tr[z], acts[z], k);
      FollowsAt(tr, acts, z, k);
      assert LastId(tr[z + 1].db, k) < LastId(tr[z].db, k);
    }
  }
}
