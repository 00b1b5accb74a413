/** The repository layer: the tables and caches as mutable state, and one method per
    exported function, issuing its SQL statements and Redis commands in order. Each
    method is proved against the functions of `Store`, `UserCache` and
    `Conversations`, whose laws carry the guarantees. */
module Repository {
  import opened Basics
  import opened Store
  import UserCache
  import Conversations

  class Repository {
    // MySQL
    var users: map<nat, User>
    var convs: seq<Conversation>
    var members: seq<Member>
    var msgs: seq<Message>
    var nextUser: nat
    var nextMsg: nat
    // Redis
    var userCache: UserCache.Cache
    var convCache: Conversations.Cache

    var now: nat

    ghost function Tables(): Db
      reads this
    {
      Db(users, convs, members, msgs, nextUser, nextMsg)
    }

    constructor ()
      ensures Tables() == EMPTY && userCache == map[] && convCache == map[] && now == 0
    {
      users, convs, members, msgs, nextUser, nextMsg := map[], [], [], [], 1, 1;
      userCache, convCache, now := map[], map[], 0;
    }

    // ------------------------------------------------------- Redis commands

    method HSet(uid: nat, user: Option<User>)
      modifies this`userCache
      ensures userCache == UserCache.Write(old(userCache), uid, user, 0, now, UserCache.HSetOnly)
    {
      var expiry := None;
      if UserCache.Live(userCache, uid, now) {
        expiry := userCache[uid].expiry;
      }
      userCache := userCache[uid := UserCache.Entry(user, expiry)];
    }

    /** EXPIRE on a key that is gone does nothing. */
    method Expire(uid: nat, ttl: nat)
      modifies this`userCache
      ensures userCache == if UserCache.Live(old(userCache), uid, now)
                           then old(userCache)[uid := UserCache.Entry(old(userCache)[uid].user, Some(now + ttl))]
                           else old(userCache)
    {
      if UserCache.Live(userCache, uid, now) {
        userCache := userCache[uid := UserCache.Entry(userCache[uid].user, Some(now + ttl))];
      }
    }

    /** HSET then EXPIRE in one round trip; each can fail alone. */
    method Pipelined(uid: nat, user: Option<User>, ttl: nat, p: UserCache.Pipeline)
      modifies this`userCache
      ensures userCache == UserCache.Write(old(userCache), uid, user, ttl, now, p)
    {
      if p.HSetOnly? || p.BothWork? {
        HSet(uid, user);
      }
      if p.ExpireOnly? || p.BothWork? {
        Expire(uid, ttl);
      }
    }

    method Set(key: (nat, nat), id: nat, ttl: nat, works: bool)
      modifies this`convCache
      ensures convCache == Conversations.Put(old(convCache), key, id, now + ttl, works)
    {
      if works {
        convCache := convCache[key := Conversations.Entry(id, now + ttl)];
      }
    }

    // ----------------------------------------------------------------- users

    method CreateUser(name: string, nickname: string, avatar: string, password: string) returns (id: nat)
      modifies this`users, this`nextUser
      ensures id == old(nextUser) && id in users
      ensures Tables() == Store.CreateUser(old(Tables()), name, nickname, avatar, password, now)
      ensures users == old(users)[id := users[id]] && users[id].id == id && users[id].name == name
      ensures users[id].nickname == nickname && users[id].avatar == avatar && users[id].password == password
      ensures users[id].createdAt == now && nextUser == id + 1
    {
      id := nextUser;
      users := users[id := User(id, name, nickname, avatar, now, password)];
      nextUser := nextUser + 1;
    }

    method GetUserByUserID(uid: nat, f: UserCache.Faults) returns (r: Result<Option<User>>)
      modifies this`userCache
      ensures (userCache, r) == UserCache.Lookup(users, old(userCache), uid, now, f)
      ensures r.Ok? <==> (f.read.ReadWorks? && old(UserCache.Live(userCache, uid, now))) || f.selectWorks
      ensures old(UserCache.PositiveOk(users, userCache)) && r.Ok? ==>
                && (r.value.None? <==> uid !in users || (f.read.ReadWorks? && old(UserCache.Live(userCache, uid, now)
                                                                                  && userCache[uid].user.None?)))
                && (r.value.Some? ==> r.value.value.id == users[uid].id)
      ensures old(UserCache.PositiveOk(users, userCache) && UserCache.NegativeOk(users, userCache, now)
                  && UserCache.UsersOk(users, now)) ==>
                && (r.Ok? && r.value.Some? ==>
                      uid in users && UserCache.Cached(r.value.value) == UserCache.Cached(users[uid]))
                && (r.Ok? && r.value.None? ==> UserCache.AbsentSince(users, uid, now - 300))
    {
      if f.read.ReadWorks? && UserCache.Live(userCache, uid, now) {
        return Ok(userCache[uid].user);
      }
      if !f.selectWorks {
        return Err;
      }
      if uid !in users {
        Pipelined(uid, None, UserCache.NEGATIVE_TTL, f.pipeline);
        return Ok(None);
      }
      Pipelined(uid, Some(UserCache.Cached(users[uid])), UserCache.POSITIVE_TTL, f.pipeline);
      r := Ok(Some(users[uid]));
    }

    // -------------------------------------------------------------- messages

    /** A row stored under the client id comes back, and nothing else changes. */
    method CreateMessage(d: Draft, fault: InsertFault) returns (r: Result<Message>)
      modifies this`msgs, this`nextMsg
      ensures (Tables(), r) == Store.CreateMessage(old(Tables()), d, fault)
      ensures old(Valid(Tables()) && ConvExists(Tables(), d.conv)) ==> Valid(Tables())
      ensures r.Ok? <==> !fault.InsertFails? && (old(HasClientId(Tables(), d.clientId)) ==> !fault.SelectFails?)
      ensures r.Ok? ==> r.value in msgs && r.value.clientId == d.clientId
      ensures r.Err? || old(HasClientId(Tables(), d.clientId)) ==> msgs == old(msgs)
      ensures r.Ok? && !old(HasClientId(Tables(), d.clientId)) ==>
                && msgs == old(msgs) + [r.value] && r.value.id == old(nextMsg) && r.value.conv == d.conv
                && r.value.sender == d.sender && r.value.content == d.content && r.value.createdAt == d.createdAt
    {
      CreateMessageStoresExactly(Tables(), d, fault);
      if Valid(Tables()) && ConvExists(Tables(), d.conv) {
        CreateMessageKeepsValid(Tables(), d, fault);
      }
      if fault.InsertFails? {
        return Err;
      }
      var existing := FindByClientId(msgs, d.clientId);
      var row := Message(nextMsg, d.conv, d.sender, d.content, d.clientId, d.createdAt);
      nextMsg := nextMsg + 1;
      if existing.Some? {
        // the unique key rejected the row: look the stored one up
        if fault.SelectFails? {
          return Err;
        }
        return Ok(existing.value);
      }
      msgs := msgs + [row];
      r := Ok(row);
    }

    // ------------------------------------------------- read cursor and backlog

    /** Each row of `user` in the conversation ends at the maximum, no other row moves. */
    method UpdateLastReadMsgID(conv: nat, user: nat, id: nat, works: bool) returns (r: Result<()>)
      modifies this`members
      ensures r.Ok? <==> works
      ensures Tables() == if works then UpdateLastRead(old(Tables()), Cursor(conv, user, id)) else old(Tables())
      ensures |members| == |old(members)|
      ensures forall i :: 0 <= i < |members| ==>
                members[i] == if works && old(members)[i].conv == conv && old(members)[i].user == user
                              then old(members)[i].(lastRead := Max(old(members)[i].lastRead, id)) else old(members)[i]
    {
      if !works {
        return Err;
      }
      var rows := members;
      members := seq(|rows|, i requires 0 <= i < |rows| => Bump(rows[i], Cursor(conv, user, id)));
      r := Ok(());
    }

    /** Exactly the messages above a cursor of the user, oldest first. */
    method GetUnreadConversationMsgByUserID(user: nat, works: bool) returns (r: Result<seq<Message>>)
      ensures r.Ok? <==> works
      ensures r.Ok? ==> r.value == Unread(Tables(), user)
      ensures r.Ok? ==> forall m :: m in r.value <==>
                m in msgs && ConvExists(Tables(), m.conv) && exists i ::
                  0 <= i < |members| && Leaves(members[i], m, user)
      ensures r.Ok? && Valid(Tables()) && OneRowEach(Tables()) ==> Ascending(r.value)
    {
      if !works {
        return Err;
      }
      r := Ok(Unread(Db(users, convs, members, msgs, nextUser, nextMsg), user));
      forall m ensures m in r.value <==>
        m in msgs && ConvExists(Tables(), m.conv) && exists i :: 0 <= i < |members| && Leaves(members[i], m, user) {
        UnreadExactly(Tables(), msgs, user, m);
      }
      if Valid(Tables()) && OneRowEach(Tables()) {
        UnreadAscends(Tables(), msgs, user);
      }
    }

    // --------------------------------------------------------- conversations

    method CheckConversationExist(a: nat, b: nat, ctype: nat, f: Conversations.CheckFaults) returns (r: Result<nat>)
      modifies this`convCache
      ensures (convCache, r) == Conversations.CheckConversationExist(Tables(), old(convCache), a, b, ctype, now, f)
      ensures old(Conversations.Paired(Tables()) && Conversations.Agrees(Tables(), convCache)
                  && Conversations.Sane(Tables(), convCache))
              && a != b && ctype == Conversations.SINGLE && r.Ok? ==>
                forall k :: Conversations.Shared(Tables(), k, a, b) <==> k == r.value && k != 0
      ensures old(Conversations.Sane(Tables(), convCache)) && ctype == Conversations.SINGLE ==>
                (r.Ok? <==> old(Conversations.CacheAnswers(convCache, a, b, now, f))
                            || (f.groupWorks && (Conversations.ShareOne(Tables(), a, b) ==> f.firstWorks)))
    {
      if Conversations.Sane(Tables(), convCache) {
        Conversations.CheckAnswersExactly(Tables(), convCache, a, b, now, f);
      }
      if Conversations.Paired(Tables()) && Conversations.Agrees(Tables(), convCache)
          && Conversations.Sane(Tables(), convCache) && a != b {
        Conversations.CheckIsExact(Tables(), convCache, a, b, now, f);
      }
      var minID, maxID := a, b;
      if minID > maxID {
        minID, maxID := b, a;
      }
      var key := (minID, maxID);
      if f.getWorks && Conversations.Live(convCache, key, now) {
        var id := convCache[key].id;
        if id < Conversations.PARSE_LIMIT {
          return Ok(id);
        }
      }
      if !f.groupWorks {
        return Err;
      }
      var k := Conversations.Grouped(members, a, b, |convs|);
      if k == 0 {
        return Ok(0);
      }
      if !f.firstWorks {
        return Err;
      }
      if !(1 <= k <= |convs|) || convs[k - 1].ctype != ctype {
        Set(key, 0, Conversations.ABSENT_TTL, f.setWorks);
        return Ok(0);
      }
      Set(key, k, Conversations.FOUND_TTL, f.setWorks);
      r := Ok(k);
    }

    method CreateConversation(ctype: nat, creator: nat, works: bool) returns (r: Result<nat>)
      modifies this`convs
      ensures r.Ok? <==> works
      ensures r.Ok? ==> (Tables(), r.value) == Conversations.CreateConversation(old(Tables()), ctype, creator)
      ensures r.Ok? ==> convs == old(convs) + [Conversation(ctype, creator, None)] && r.value == |convs|
      ensures r.Err? ==> convs == old(convs)
    {
      if !works {
        return Err;
      }
      convs := convs + [Conversation(ctype, creator, None)];
      r := Ok(|convs|);
    }

    method CacheConversationID(a: nat, b: nat, id: nat, works: bool)
      modifies this`convCache
      ensures convCache ==
                Conversations.Put(old(convCache), Conversations.Key(a, b), id, now + Conversations.CREATED_TTL, works)
      ensures works ==>
                convCache == old(convCache)[if a <= b then (a, b) else (b, a) := Conversations.Entry(id, now + 300)]
      ensures !works ==> convCache == old(convCache)
    {
      var minID, maxID := a, b;
      if minID > maxID {
        minID, maxID := b, a;
      }
      Set((minID, maxID), id, Conversations.CREATED_TTL, works);
    }

    method AddMember(conv: nat, user: nat, works: bool) returns (r: Result<()>)
      modifies this`members
      ensures r.Ok? <==> works
      ensures Tables() == Conversations.AddMember(old(Tables()), conv, user, works)
      ensures members == if works then old(members) + [Member(conv, user, 0)] else old(members)
    {
      if !works {
        return Err;
      }
      members := members + [Member(conv, user, 0)];
      r := Ok(());
    }

    /** Row, cache entry, then the two members; a failure leaves what was done so far. */
    method CreatePair(sender: nat, target: nat, f: Conversations.Faults) returns (r: Result<nat>)
      modifies this`convCache, this`convs, this`members
      ensures (Tables(), convCache, r) == if !f.createWorks then (old(Tables()), old(convCache), Err)
                                          else Conversations.Create(old(Tables()), old(convCache), sender, target, now,
                                                                    f)
    {
      r := CreateConversation(Conversations.SINGLE, sender, f.createWorks);
      if r.Err? {
        return;
      }
      CacheConversationID(sender, target, r.value, f.cacheWorks);
      var added := AddMember(r.value, sender, f.addSenderWorks);
      if added.Err? {
        return Err;
      }
      added := AddMember(r.value, target, f.addTargetWorks);
      if added.Err? {
        return Err;
      }
    }

    /** The block of `handleChatMsg` from the lookup to the second member row. The pair
        shares exactly one conversation afterwards, unless the creation stops half way. */
    method ResolveConversation(sender: nat, target: nat, f: Conversations.Faults) returns (r: Result<nat>)
      modifies this`convCache, this`convs, this`members
      ensures (Tables(), convCache, r) == Conversations.Resolve(old(Tables()), old(convCache), sender, target, now, f)
      ensures old(Valid(Tables()) && Conversations.Sane(Tables(), convCache) && Conversations.Paired(Tables())
                  && Conversations.Agrees(Tables(), convCache))
              && sender != target ==>
                && (Conversations.Paired(Tables()) && Conversations.Agrees(Tables(), convCache)
                    <==> !old(Conversations.HalfMade(Tables(), convCache, sender, target, now, f)))
                && (r.Ok? ==> forall k :: Conversations.Shared(Tables(), k, sender, target) <==> k == r.value)
      ensures old(Conversations.Sane(Tables(), convCache)) ==>
                (r.Ok? <==> old(Conversations.Resolves(Tables(), convCache, sender, target, now, f)))
    {
      ghost var db, cache := Tables(), convCache;
      if Conversations.Sane(db, cache) { Conversations.ResolveAnswersExactly(db, cache, sender, target, now, f); }
      r := CheckConversationExist(sender, target, Conversations.SINGLE, f.check);
      if r.Ok? && r.value == 0 {
        r := CreatePair(sender, target, f);
      }
      if Valid(db) && Conversations.Sane(db, cache) && Conversations.Paired(db) && Conversations.Agrees(db, cache)
          && sender != target {
        Conversations.ResolvesToShared(db, cache, sender, target, now, f);
      }
    }

    /** All three summary columns come from `m`, or the row is untouched and it is an error. */
    method UpdateConversation(conv: nat, m: Message, works: bool) returns (r: Result<()>)
      modifies this`convs
      ensures (Tables(), r) == Store.UpdateConversation(old(Tables()), conv, m, works)
      ensures r.Ok? ==> 1 <= conv <= |convs| && Shows(convs[conv - 1], m)
      ensures r.Ok? <==> works && 1 <= conv <= |convs| && !Shows(old(convs)[conv - 1], m)
      ensures r.Err? <==> convs == old(convs)
      ensures forall k :: 0 <= k < |convs| && k != conv - 1 ==> k < |old(convs)| && convs[k] == old(convs)[k]
    {
      if !works {
        return Err;
      }
      var rowsAffected := 0;
      if 1 <= conv <= |convs| && convs[conv - 1].last != Some(SummaryOf(m)) {
        convs := convs[conv - 1 := convs[conv - 1].(last := Some(SummaryOf(m)))];
        rowsAffected := 1;
      }
      if rowsAffected == 0 {
        return Err;
      }
      r := Ok(());
    }
  }
}
