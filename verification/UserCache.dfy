/** The read-through user cache (`user:<id>` hashes) with negative entries.

    The write-back is a pipeline of two Redis commands, HSET then EXPIRE. A
    pipeline is not a transaction, so each of the two can fail alone: `HSetOnly` leaves
    the lifetime of the key as it was, `ExpireOnly` its content. */
module UserCache {
  import opened Basics
  import opened Store

  const NEGATIVE_TTL: nat := 5 * 60
  const POSITIVE_TTL: nat := 5 * 60 * 60

  /** `user == None` is the hash whose `id` field is "0". `expiry == None` is a key
      without a time to live. */
  datatype Entry = Entry(user: Option<User>, expiry: Option<nat>)

  type Cache = map<nat, Entry>

  predicate Live(cache: Cache, uid: nat, now: nat) {
    uid in cache && (cache[uid].expiry.Some? ==> now < cache[uid].expiry.value)
  }

  datatype Read = ReadWorks | ReadFails | ScanFails
  datatype Pipeline = BothFail | HSetOnly | ExpireOnly | BothWork
  datatype Faults = Faults(read: Read, selectWorks: bool, pipeline: Pipeline)

  /** The password column is excluded from the hash. */
  function Cached(user: User): User {
    user.(password := "")
  }

  function Write(cache: Cache, uid: nat, user: Option<User>, ttl: nat, now: nat, p: Pipeline): Cache {
    match p
    case BothFail => cache
    case HSetOnly => cache[uid := Entry(user, if Live(cache, uid, now) then cache[uid].expiry else None)]
    case ExpireOnly =>
      if Live(cache, uid, now) then cache[uid := Entry(cache[uid].user, Some(now + ttl))] else cache
    case BothWork => cache[uid := Entry(user, Some(now + ttl))]
  }

  /** `GetUserByUserID`: the cache, then the table, then the write-back. */
  function Lookup(users: map<nat, User>, cache: Cache, uid: nat, now: nat, f: Faults): (Cache, Result<Option<User>>) {
    if f.read.ReadWorks? && Live(cache, uid, now) then
      (cache, Ok(cache[uid].user))
    else if !f.selectWorks then
      (cache, Err)
    else if uid !in users then
      (Write(cache, uid, None, NEGATIVE_TTL, now, f.pipeline), Ok(None))
    else
      (Write(cache, uid, Some(Cached(users[uid])), POSITIVE_TTL, now, f.pipeline), Ok(Some(users[uid])))
  }

  /** The pipeline was cut between the two commands while writing a negative entry. */
  predicate TearsNegative(users: map<nat, User>, cache: Cache, uid: nat, now: nat, f: Faults) {
    && !(f.read.ReadWorks? && Live(cache, uid, now))
    && f.selectWorks
    && uid !in users
    && f.pipeline.HSetOnly?
    && !Live(cache, uid, now)
  }

  /** HSET was refused when the row of a user was to replace a live negative entry, and
      EXPIRE gave that entry the lifetime meant for the row. */
  predicate StretchesNegative(users: map<nat, User>, cache: Cache, uid: nat, now: nat, f: Faults) {
    && !(f.read.ReadWorks? && Live(cache, uid, now))
    && f.selectWorks
    && uid in users
    && f.pipeline.ExpireOnly?
    && Live(cache, uid, now) && cache[uid].user.None?
  }

  predicate SpoilsNegative(users: map<nat, User>, cache: Cache, uid: nat, now: nat, f: Faults) {
    TearsNegative(users, cache, uid, now, f) || StretchesNegative(users, cache, uid, now, f)
  }

  /** Rows are keyed by their id, and were created in the past. */
  ghost predicate UsersOk(users: map<nat, User>, now: nat) {
    forall uid :: uid in users ==> users[uid].id == uid && users[uid].createdAt <= now
  }

  /** The user did not exist at some moment after `t`, or still does not. */
  predicate AbsentSince(users: map<nat, User>, uid: nat, t: int) {
    uid !in users || t <= users[uid].createdAt
  }

  /** A live positive entry is the stored row without its password. */
  ghost predicate PositiveOk(users: map<nat, User>, cache: Cache) {
    forall uid :: uid in cache && cache[uid].user.Some? ==> uid in users && cache[uid].user.value == Cached(users[uid])
  }

  /** A negative entry dates from a moment when the user was absent, at most
      `NEGATIVE_TTL` before it expires. */
  ghost predicate NegativeOk(users: map<nat, User>, cache: Cache, now: nat) {
    forall uid :: uid in cache && cache[uid].user.None? ==>
      && cache[uid].expiry.Some?
      && cache[uid].expiry.value <= now + NEGATIVE_TTL
      && AbsentSince(users, uid, cache[uid].expiry.value - NEGATIVE_TTL)
  }

  // ================================================================== laws

  lemma LookupKeepsPositive(users: map<nat, User>, cache: Cache, uid: nat, now: nat, f: Faults)
    requires PositiveOk(users, cache)
    ensures PositiveOk(users, Lookup(users, cache, uid, now, f).0)
  {
    var cache' := Lookup(users, cache, uid, now, f).0;
    forall v | v in cache' && cache'[v].user.Some?
      ensures v in users && cache'[v].user.value == Cached(users[v])
    {
      assert v != uid ==> v in cache && cache'[v] == cache[v];
    }
  }

  /** The negative entries stay bounded exactly when no pipeline that writes one loses its
      EXPIRE, and none that replaces one loses its HSET alone. */
  lemma LookupKeepsNegativeExactly(users: map<nat, User>, cache: Cache, uid: nat, now: nat, f: Faults)
    requires PositiveOk(users, cache) && NegativeOk(users, cache, now)
    ensures NegativeOk(users, Lookup(users, cache, uid, now, f).0, now) <==> !SpoilsNegative(users, cache, uid, now, f)
  {
    var cache' := Lookup(users, cache, uid, now, f).0;
    if TearsNegative(users, cache, uid, now, f) {
      assert cache'[uid] == Entry(None, None);
    } else if StretchesNegative(users, cache, uid, now, f) {
      assert cache'[uid] == Entry(None, Some(now + POSITIVE_TTL));
    } else {
      forall v | v in cache' && cache'[v].user.None?
        ensures cache'[v].expiry.Some? && cache'[v].expiry.value <= now + NEGATIVE_TTL
        ensures AbsentSince(users, v, cache'[v].expiry.value - NEGATIVE_TTL)
      {
        assert v != uid ==> v in cache && cache'[v] == cache[v];
      }
    }
  }

  /** A registration keeps both invariants: the new row is younger than every
      negative entry for its id. */
  lemma RegistrationKeepsCache(db: Db, cache: Cache, name: string, nickname: string, avatar: string, pw: string,
                               now: nat)
    requires PositiveOk(db.users, cache) && NegativeOk(db.users, cache, now) && UsersOk(db.users, now)
    requires db.nextUser !in db.users
    ensures var users' := CreateUser(db, name, nickname, avatar, pw, now).users;
            PositiveOk(users', cache) && NegativeOk(users', cache, now) && UsersOk(users', now)
  {
  }

  /** Staleness bound of one lookup: it answers unless the cache has no live entry to read
      and the select fails; a stored user is found unless a live negative entry is read; a
      user that is returned is the stored row up to the password, and "no such user" means
      the user was absent at some moment of the last five minutes. */
  lemma LookupIsFresh(users: map<nat, User>, cache: Cache, uid: nat, now: nat, f: Faults)
    requires PositiveOk(users, cache) && NegativeOk(users, cache, now) && UsersOk(users, now)
    ensures var r := Lookup(users, cache, uid, now, f).1;
            && (r.Ok? <==> (f.read.ReadWorks? && Live(cache, uid, now)) || f.selectWorks)
            && (r.Ok? && uid in users ==>
                  (r.value.None? <==> f.read.ReadWorks? && Live(cache, uid, now) && cache[uid].user.None?))
            && (r.Ok? && r.value.Some? ==>
                  uid in users && r.value.value.id == uid && Cached(r.value.value) == Cached(users[uid]))
            && (r.Ok? && r.value.None? ==> AbsentSince(users, uid, now - 300))
  {
  }

  /** A lookup answers exactly when it reads a live entry or the select works. */
  lemma LookupAnswersExactly(users: map<nat, User>, cache: Cache, uid: nat, now: nat, f: Faults)
    ensures Lookup(users, cache, uid, now, f).1.Ok? <==>
            (f.read.ReadWorks? && Live(cache, uid, now)) || f.selectWorks
  {
  }

  /** An answer is "no such user" exactly when the user is not stored or a live negative
      entry was read; otherwise it is the stored user, column by column, the password only
      if it comes from the table. */
  lemma LookupFindsExactly(users: map<nat, User>, cache: Cache, uid: nat, now: nat, f: Faults)
    requires PositiveOk(users, cache) && Lookup(users, cache, uid, now, f).1.Ok?
    ensures var r, hit := Lookup(users, cache, uid, now, f).1.value, f.read.ReadWorks? && Live(cache, uid, now);
            && (r.None? <==> uid !in users || (hit && cache[uid].user.None?))
            && (r.Some? ==>
                  && r.value.id == users[uid].id && r.value.name == users[uid].name
                  && r.value.nickname == users[uid].nickname && r.value.avatar == users[uid].avatar
                  && r.value.createdAt == users[uid].createdAt
                  && r.value.password == if hit then "" else users[uid].password)
  {
  }

  /** What a lookup remembers. It asked the table, and both commands of its write-back
      worked: without the table a later lookup gives the same answer, up to the password,
      for 300 seconds if there was no such user and for 18000 seconds if there was, and for
      not one second longer. */
  lemma LookupIsRememberedExactly(users: map<nat, User>, cache: Cache, uid: nat, now: nat, f: Faults,
                                  later: map<nat, User>, then': nat, f': Faults)
    requires !(f.read.ReadWorks? && Live(cache, uid, now)) && f.selectWorks && f.pipeline.BothWork?
    requires f'.read.ReadWorks? && !f'.selectWorks
    ensures var (cache', r) := Lookup(users, cache, uid, now, f);
            var r' := Lookup(later, cache', uid, then', f').1;
            && (r'.Ok? <==> then' < now + if uid in users then 18000 else 300)
            && (r'.Ok? ==>
                  (r'.value.None? <==> uid !in users) && (uid in users ==> r'.value == Some(Cached(users[uid]))))
            && (forall v :: v != uid ==> (v in cache' <==> v in cache) && (v in cache ==> cache'[v] == cache[v]))
  {
  }

  /** A stretched entry denies a user who is in the table, to every lookup that reads the
      cache during the next five hours. */
  lemma StretchedEntryDenies(users: map<nat, User>, cache: Cache, uid: nat, now: nat, f: Faults,
                             later: map<nat, User>, then': nat, f': Faults)
    requires StretchesNegative(users, cache, uid, now, f)
    requires f'.read.ReadWorks? && then' < now + 18000
    ensures var stretched := Lookup(users, cache, uid, now, f).0;
            uid in users && Lookup(later, stretched, uid, then', f') == (stretched, Ok(None))
  {
  }

  /** The bound fails once a negative write is torn: whatever the tables hold later and
      however much time passes, every lookup that reads the cache denies the user. */
  lemma TornNegativeEntryDeniesForEver(users: map<nat, User>, cache: Cache, uid: nat, now: nat, f: Faults,
                                       later: map<nat, User>, then': nat, f': Faults)
    requires TearsNegative(users, cache, uid, now, f)
    requires f'.read.ReadWorks?
    ensures var torn := Lookup(users, cache, uid, now, f).0;
            Lookup(later, torn, uid, then', f') == (torn, Ok(None))
  {
  }
}
