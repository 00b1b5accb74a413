/** How stale the user cache can be, over every run. */
module Staleness {
  import opened Cluster
  import opened Frames
  import Conversations
  import UserCache
  import Tables

  /** The pipeline of this step, if it has one, spoils no negative entry. */
  predicate Unspoilt(w: World, a: Action) {
    a.Listen? && a.listen.DoFindUser? && a.client < |w.clients| && w.clients[a.client].listen.FindUser? ==>
      !UserCache.SpoilsNegative(w.db.users, w.userCache, w.clients[a.client].listen.chat.to, w.now, a.listen.userFaults)
  }

  ghost predicate Inv(w: World) {
    UserCache.NegativeOk(w.db.users, w.userCache, w.now)
  }

  lemma SignUpKeeps(w: World, e: EnvAct)
    requires Inv(w) && Tables.StoreOk(w) && EnvEnabled(w, e)
    ensures Inv(EnvStep(w, e))
  {
    if e.SignUp? {
      UserCache.RegistrationKeepsCache(w.db, w.userCache, e.name, e.nickname, e.avatar, e.password, w.now);
    }
  }

  lemma FindUserKeeps(w: World, c: nat, f: UserCache.Faults)
    requires Inv(w) && Tables.StoreOk(w) && Awake(w, c) && w.clients[c].listen.FindUser?
    requires Unspoilt(w, Listen(c, DoFindUser(f)))
    ensures Inv(FindUserStep(w, c, f))
  {
    UserCache.LookupKeepsNegativeExactly(w.db.users, w.userCache, w.clients[c].listen.chat.to, w.now, f);
  }

  lemma UsersSame(w: World, c: nat, e: ListenAct)
    requires Tables.StoreOk(w) && ListenEnabled(w, c, e)
    requires e.DoResolve? || e.DoPersist? || e.DoPublish? || e.DoMarkOwn? || e.DoAck?
    ensures ListenStep(w, c, e).db.users == w.db.users
  {
    if e.DoResolve? {
      Conversations.ResolveKeepsSane(w.db, w.convCache, w.clients[c].user, w.clients[c].listen.target, w.now,
                                     e.convFaults);
    }
  }

  lemma InvStep(w: World, a: Action)
    requires Inv(w) && Tables.StoreOk(w) && Enabled(w, a) && Unspoilt(w, a)
    ensures Inv(Step(w, a))
  {
    StepFrame(w, a);
    match a
    case Env(e) => SignUpKeeps(w, e);
    case Listen(c, e) =>
      if e.DoFindUser? { FindUserKeeps(w, c, e.userFaults); }
      else if TouchesDb(a) { UsersSame(w, c, e); }
    case _ =>
  }

  lemma {:induction false} InvHolds(tr: seq<World>, acts: seq<Action>, k: nat)
    requires Run(tr, acts) && k < |tr|
    requires forall j :: 0 <= j < k ==> Unspoilt(tr[j], acts[j])
    ensures Inv(tr[k])
  {
    if k > 0 {
      assert StepAt(tr, acts, k - 1);
      InvHolds(tr, acts, k - 1);
      Tables.InvHolds(tr, acts, k - 1);
      InvStep(tr[k - 1], acts[k - 1]);
    }
  }

  /** A step that spoils a negative entry leaves one that lives longer than five minutes. */
  lemma SpoiltStep(w: World, a: Action)
    requires Inv(w) && Tables.StoreOk(w) && Enabled(w, a) && !Unspoilt(w, a)
    ensures !Inv(Step(w, a))
  {
    var c, f := a.client, a.listen.userFaults;
    UserCache.LookupKeepsNegativeExactly(w.db.users, w.userCache, w.clients[c].listen.chat.to, w.now, f);
    assert Step(w, a) == FindUserStep(w, c, f);
  }

  /** Over a whole stretch of a run from its start: the bound on negative entries holds at
      every state up to `k` exactly when no step before `k` spoils a negative entry. */
  lemma BoundedExactly(tr: seq<World>, acts: seq<Action>, k: nat)
    requires Run(tr, acts) && k < |tr|
    ensures (forall j :: 0 <= j <= k ==> Inv(tr[j])) <==> (forall j :: 0 <= j < k ==> Unspoilt(tr[j], acts[j]))
  {
    if forall j :: 0 <= j < k ==> Unspoilt(tr[j], acts[j]) {
      forall j | 0 <= j <= k
        ensures Inv(tr[j])
      {
        InvHolds(tr, acts, j);
      }
    } else {
      var j :| 0 <= j < k && !Unspoilt(tr[j], acts[j]);
      if Inv(tr[j]) {
        assert StepAt(tr, acts, j);
        Tables.InvHolds(tr, acts, j);
        SpoiltStep(tr[j], acts[j]);
        assert !Inv(tr[j + 1]);
      }
    }
  }

  /** In every reachable state, whatever Redis does to this lookup: a user that is
      returned is the stored row on every cached field, and "no such user" means the
      id was free at some moment of the last five minutes. */
  lemma StalenessBound(tr: seq<World>, acts: seq<Action>, k: nat, uid: nat, f: UserCache.Faults)
    requires Run(tr, acts) && k < |tr|
    requires forall j :: 0 <= j < k ==> Unspoilt(tr[j], acts[j])
    ensures var users := tr[k].db.users;
            var r := UserCache.Lookup(users, tr[k].userCache, uid, tr[k].now, f).1;
            && (r.Ok? <==> (f.read.ReadWorks? && UserCache.Live(tr[k].userCache, uid, tr[k].now)) || f.selectWorks)
            && (r.Ok? && uid in users ==>
                  (r.value.None? <==> f.read.ReadWorks? && UserCache.Live(tr[k].userCache, uid, tr[k].now)
                                      && tr[k].userCache[uid].user.None?))
            && (r.Ok? && r.value.Some? ==>
                  uid in users && UserCache.Cached(r.value.value) == UserCache.Cached(users[uid]))
            && (r.Ok? && r.value.None? ==> UserCache.AbsentSince(users, uid, tr[k].now - 300))
  {
    InvHolds(tr, acts, k);
    Tables.InvHolds(tr, acts, k);
    UserCache.LookupIsFresh(tr[k].db.users, tr[k].userCache, uid, tr[k].now, f);
    UserCache.LookupAnswersExactly(tr[k].db.users, tr[k].userCache, uid, tr[k].now, f);
    if UserCache.Lookup(tr[k].db.users, tr[k].userCache, uid, tr[k].now, f).1.Ok? {
      UserCache.LookupFindsExactly(tr[k].db.users, tr[k].userCache, uid, tr[k].now, f);
    }
  }
}
