/** Finding the conversation of two users: a Redis cache in front of a group-by
    query, and creation on a miss. */
module Conversations {
  import opened Basics
  import opened Store

  const SINGLE: nat := 1
  const CREATED_TTL: nat := 5 * 60
  const FOUND_TTL: nat := 60 * 60
  const ABSENT_TTL: nat := 5 * 60

  /** `strconv.ParseUint(val, 10, 32)` rejects larger values. */
  const PARSE_LIMIT: nat := 0x1_0000_0000

  datatype Entry = Entry(id: nat, expiry: nat)

  type Cache = map<(nat, nat), Entry>

  /** The smaller id first, so both directions share one key. */
  function Key(a: nat, b: nat): (nat, nat) {
    if a > b then (b, a) else (a, b)
  }

  predicate Live(cache: Cache, key: (nat, nat), now: nat) {
    key in cache && now < cache[key].expiry
  }

  datatype CheckFaults = CheckFaults(getWorks: bool, groupWorks: bool, firstWorks: bool, setWorks: bool)
  datatype Faults = Faults(check: CheckFaults, createWorks: bool, cacheWorks: bool, addSenderWorks: bool,
                           addTargetWorks: bool)

  function Put(cache: Cache, key: (nat, nat), id: nat, expiry: nat, works: bool): Cache {
    if works then cache[key := Entry(id, expiry)] else cache
  }

  predicate Joins(members: seq<Member>, k: nat, u: nat) {
    members != [] &&
    ((members[|members| - 1].conv == k && members[|members| - 1].user == u) || Joins(members[..|members| - 1], k, u))
  }

  /** The group-by over member rows of `a` and `b`: the first conversation up to
      `k` with two distinct users among them, or 0. */
  function Grouped(members: seq<Member>, a: nat, b: nat, k: nat): nat {
    if k == 0 then 0
    else if Grouped(members, a, b, k - 1) != 0 then Grouped(members, a, b, k - 1)
    else if a != b && Joins(members, k, a) && Joins(members, k, b) then k
    else 0
  }

  function CheckConversationExist(db: Db, cache: Cache, a: nat, b: nat, ctype: nat, now: nat,
                                  f: CheckFaults): (Cache, Result<nat>) {
    var key := Key(a, b);
    if f.getWorks && Live(cache, key, now) && cache[key].id < PARSE_LIMIT then
      (cache, Ok(cache[key].id))
    else if !f.groupWorks then
      (cache, Err)
    else
      var k := Grouped(db.members, a, b, |db.convs|);
      if k == 0 then (cache, Ok(0))
      else if !f.firstWorks then (cache, Err)
      else if !ConvExists(db, k) || db.convs[k - 1].ctype != ctype then
        (Put(cache, key, 0, now + ABSENT_TTL, f.setWorks), Ok(0))
      else (Put(cache, key, k, now + FOUND_TTL, f.setWorks), Ok(k))
  }

  function CreateConversation(db: Db, ctype: nat, creator: nat): (Db, nat) {
    (db.(convs := db.convs + [Conversation(ctype, creator, None)]), |db.convs| + 1)
  }

  function AddMember(db: Db, k: nat, u: nat, works: bool): Db {
    if works then db.(members := db.members + [Member(k, u, 0)]) else db
  }

  /** The creation half: conversation row, cache entry, then one row per user. */
  function Create(db: Db, cache: Cache, a: nat, b: nat, now: nat, f: Faults): (Db, Cache, Result<nat>) {
    var (db2, k) := CreateConversation(db, SINGLE, a);
    var cache2 := Put(cache, Key(a, b), k, now + CREATED_TTL, f.cacheWorks);
    if !f.addSenderWorks then (db2, cache2, Err)
    else
      var db3 := AddMember(db2, k, a, true);
      if !f.addTargetWorks then (db3, cache2, Err)
      else (AddMember(db3, k, b, true), cache2, Ok(k))
  }

  /** The block of `handleChatMsg` that finds or creates the conversation. */
  function Resolve(db: Db, cache: Cache, a: nat, b: nat, now: nat, f: Faults): (Db, Cache, Result<nat>) {
    var (cache1, found) := CheckConversationExist(db, cache, a, b, SINGLE, now, f.check);
    if found.Err? then (db, cache1, Err)
    else if found.value != 0 then (db, cache1, found)
    else if !f.createWorks then (db, cache1, Err)
    else Create(db, cache1, a, b, now, f)
  }

  // ============================================================ invariants

  /** Conversation `k` is the one these two users share. */
  ghost predicate Shared(db: Db, k: nat, a: nat, b: nat) {
    ConvExists(db, k) && HasMember(db, k, a) && HasMember(db, k, b)
  }

  /** What holds of every run, whatever fails: cached ids and rows refer to
      single-chat conversations that exist. */
  ghost predicate Sane(db: Db, cache: Cache) {
    && (forall key :: key in cache ==> ConvExists(db, cache[key].id))
    && (forall k :: 0 <= k < |db.convs| ==> db.convs[k].ctype == SINGLE)
  }

  /** Every cached conversation really holds the two users of its key. */
  ghost predicate Honest(db: Db, cache: Cache) {
    forall key :: key in cache ==> Shared(db, cache[key].id, key.0, key.1)
  }

  function PairAt(db: Db, i: nat): (nat, nat)
    requires 2 * i + 1 < |db.members|
  {
    Key(db.members[2 * i].user, db.members[2 * i + 1].user)
  }

  /** Without failed `AddMember` calls and chats with oneself, members come in
      pairs: conversation `i + 1` holds rows `2i` and `2i + 1`, and no two
      conversations hold the same pair. */
  ghost predicate Paired(db: Db) {
    && |db.members| == 2 * |db.convs|
    && (forall i :: 0 <= i < |db.convs| ==>
          && db.members[2 * i].conv == i + 1 == db.members[2 * i + 1].conv
          && db.members[2 * i].user != db.members[2 * i + 1].user)
    && (forall i, j :: 0 <= i < j < |db.convs| ==> PairAt(db, i) != PairAt(db, j))
  }

  /** Each cache key is the pair of the conversation it names. */
  ghost predicate Agrees(db: Db, cache: Cache)
    requires |db.members| == 2 * |db.convs|
  {
    forall key :: key in cache ==> ConvExists(db, cache[key].id) && key == PairAt(db, cache[key].id - 1)
  }

  /** The creation reached the cache although one of the two rows is missing. */
  predicate CachesHalfMade(db: Db, cache: Cache, a: nat, b: nat, now: nat, f: Faults) {
    && CheckConversationExist(db, cache, a, b, SINGLE, now, f.check).1 == Ok(0)
    && f.createWorks && f.cacheWorks && !(f.addSenderWorks && f.addTargetWorks)
  }

  /** The creation stopped half way, cached or not. */
  predicate HalfMade(db: Db, cache: Cache, a: nat, b: nat, now: nat, f: Faults) {
    && CheckConversationExist(db, cache, a, b, SINGLE, now, f.check).1 == Ok(0)
    && f.createWorks && !(f.addSenderWorks && f.addTargetWorks)
  }

  // ================================================================== laws

  lemma {:induction false} JoinsIsMember(members: seq<Member>, k: nat, u: nat)
    ensures Joins(members, k, u) <==> exists i :: 0 <= i < |members| && members[i].conv == k && members[i].user == u
  {
    if members != [] {
      var n := |members| - 1;
      JoinsIsMember(members[..n], k, u);
      assert forall i :: 0 <= i < n ==> members[..n][i] == members[i];
    }
  }

  /** The group-by finds a conversation exactly when two distinct users share one. */
  lemma {:induction false} GroupedExactly(members: seq<Member>, a: nat, b: nat, k: nat)
    ensures var g := Grouped(members, a, b, k);
            && g <= k
            && (g != 0 ==> a != b && Joins(members, g, a) && Joins(members, g, b))
            && (g == 0 ==> forall j :: 1 <= j <= k ==> a == b || !Joins(members, j, a) || !Joins(members, j, b))
  {
    if k != 0 {
      GroupedExactly(members, a, b, k - 1);
    }
  }

  lemma {:induction false} GroupedSymmetric(members: seq<Member>, a: nat, b: nat, k: nat)
    ensures Grouped(members, a, b, k) == Grouped(members, b, a, k)
  {
    if k != 0 {
      GroupedSymmetric(members, a, b, k - 1);
    }
  }

  /** The lookup does not depend on who asks: same answer, same cache. */
  lemma CheckSymmetric(db: Db, cache: Cache, a: nat, b: nat, ctype: nat, now: nat, f: CheckFaults)
    ensures CheckConversationExist(db, cache, a, b, ctype, now, f) ==
              CheckConversationExist(db, cache, b, a, ctype, now, f)
  {
    GroupedSymmetric(db.members, a, b, |db.convs|);
  }

  /** Two users share at most one conversation. */
  lemma PairedIsUnique(db: Db, a: nat, b: nat, j: nat, k: nat)
    requires Paired(db) && a != b
    requires Shared(db, j, a, b) && Shared(db, k, a, b)
    ensures j == k && PairAt(db, j - 1) == Key(a, b)
  {
    SharedIsPair(db, a, b, j);
    SharedIsPair(db, a, b, k);
  }

  lemma SharedIsPair(db: Db, a: nat, b: nat, k: nat)
    requires Paired(db) && a != b && ConvExists(db, k)
    ensures Shared(db, k, a, b) <==> PairAt(db, k - 1) == Key(a, b)
  {
    var x, y := 2 * (k - 1), 2 * (k - 1) + 1;
    assert db.members[x].conv == k && db.members[y].conv == k;
    forall i | 0 <= i < |db.members| && db.members[i].conv == k
      ensures i == x || i == y
    {
      var h := i / 2;
      assert db.members[2 * h].conv == h + 1 == db.members[2 * h + 1].conv;
      assert i == 2 * h || i == 2 * h + 1;
    }
  }

  /** The cached lookup refines the tables: whatever Redis does, an answer is the
      one conversation the pair shares, or 0 when it shares none. */
  lemma CheckIsExact(db: Db, cache: Cache, a: nat, b: nat, now: nat, f: CheckFaults)
    requires Paired(db) && Agrees(db, cache) && Sane(db, cache) && a != b
    ensures var r := CheckConversationExist(db, cache, a, b, SINGLE, now, f).1;
            && (r.Ok? <==> CacheAnswers(cache, a, b, now, f) || (f.groupWorks && (ShareOne(db, a, b) ==> f.firstWorks)))
            && (r.Ok? ==> forall k :: Shared(db, k, a, b) <==> k == r.value && k != 0)
  {
    CheckAnswersExactly(db, cache, a, b, now, f);
    var r := CheckConversationExist(db, cache, a, b, SINGLE, now, f).1;
    var g := Grouped(db.members, a, b, |db.convs|);
    GroupedExactly(db.members, a, b, |db.convs|);
    if r.Ok? {
      forall k: nat
        ensures Shared(db, k, a, b) <==> k == r.value && k != 0
      {
        JoinsIsMember(db.members, k, a);
        JoinsIsMember(db.members, k, b);
        if ConvExists(db, k) { SharedIsPair(db, a, b, k); }
        if ConvExists(db, r.value) {
          SharedIsPair(db, a, b, r.value);
          JoinsIsMember(db.members, r.value, a);
          JoinsIsMember(db.members, r.value, b);
          if Shared(db, k, a, b) && Shared(db, r.value, a, b) { PairedIsUnique(db, a, b, k, r.value); }
        }
      }
    }
  }

  /** What a lookup can do to the cache: nothing, or store the conversation it found. */
  lemma CheckEffect(db: Db, cache: Cache, a: nat, b: nat, now: nat, f: CheckFaults)
    requires Valid(db) && Sane(db, cache)
    ensures var (cache', r) := CheckConversationExist(db, cache, a, b, SINGLE, now, f);
            var g := Grouped(db.members, a, b, |db.convs|);
            && (cache' == cache || (ConvExists(db, g) && cache' == cache[Key(a, b) := Entry(g, now + FOUND_TTL)]))
            && (r == Ok(0) ==> cache' == cache)
            && (r.Ok? && r.value != 0 ==>
                  (r.value == g && ConvExists(db, g)) || (Key(a, b) in cache && r.value == cache[Key(a, b)].id))
  {
    GroupedExactly(db.members, a, b, |db.convs|);
  }

  /** The cache can be asked and has a live entry for the two users that parses. */
  predicate CacheAnswers(cache: Cache, a: nat, b: nat, now: nat, f: CheckFaults) {
    var key := if a <= b then (a, b) else (b, a);
    f.getWorks && key in cache && now < cache[key].expiry && cache[key].id < 0x1_0000_0000
  }

  ghost predicate ShareOne(db: Db, a: nat, b: nat) {
    a != b && exists k :: Shared(db, k, a, b)
  }

  lemma GroupedIsShared(db: Db, a: nat, b: nat)
    ensures Grouped(db.members, a, b, |db.convs|) != 0 <==> ShareOne(db, a, b)
    ensures Grouped(db.members, a, b, |db.convs|) != 0 ==> Shared(db, Grouped(db.members, a, b, |db.convs|), a, b)
  {
    var g := Grouped(db.members, a, b, |db.convs|);
    GroupedExactly(db.members, a, b, |db.convs|);
    if g != 0 {
      JoinsIsMember(db.members, g, a);
      JoinsIsMember(db.members, g, b);
      assert Shared(db, g, a, b);
    }
    if ShareOne(db, a, b) {
      var k :| Shared(db, k, a, b);
      JoinsIsMember(db.members, k, a);
      JoinsIsMember(db.members, k, b);
    }
  }

  /** The lookup answers exactly when the cache does, or the group-by works and, when the two
      share a conversation, the select after it works too. The cache's answer is its entry,
      any other a conversation they share, or 0 if there is none. */
  lemma CheckAnswersExactly(db: Db, cache: Cache, a: nat, b: nat, now: nat, f: CheckFaults)
    requires Sane(db, cache)
    ensures var r, hit := CheckConversationExist(db, cache, a, b, SINGLE, now, f).1, CacheAnswers(cache, a, b, now, f);
            && (r.Ok? <==> hit || (f.groupWorks && (ShareOne(db, a, b) ==> f.firstWorks)))
            && (hit ==> r.value == cache[if a <= b then (a, b) else (b, a)].id)
            && (r.Ok? && !hit ==> if ShareOne(db, a, b) then Shared(db, r.value, a, b) else r.value == 0)
  {
    GroupedIsShared(db, a, b);
  }

  /** What a lookup remembers. The tables were asked, they had a conversation in common and
      the SET worked: without the tables a later lookup, in either direction, gives the same
      answer for 3600 seconds, or 300 if the conversation was not of the asked type, and for
      not one second longer. */
  lemma CheckIsRememberedExactly(db: Db, cache: Cache, a: nat, b: nat, ctype: nat, now: nat, f: CheckFaults,
                                 later: Db, then': nat, f': CheckFaults)
    requires !CacheAnswers(cache, a, b, now, f) && f.groupWorks && f.firstWorks && f.setWorks && ShareOne(db, a, b)
    requires f'.getWorks && !f'.groupWorks && |db.convs| < 0x1_0000_0000
    ensures var (cache', r) := CheckConversationExist(db, cache, a, b, ctype, now, f);
            && r.Ok?
            && CheckConversationExist(later, cache', a, b, ctype, then', f').1 ==
               (if then' < now + (if r.value == 0 then 300 else 3600) then r else Err)
            && CheckConversationExist(later, cache', b, a, ctype, then', f').1 ==
               (if then' < now + (if r.value == 0 then 300 else 3600) then r else Err)
  {
    GroupedIsShared(db, a, b);
  }

  /** The block of `handleChatMsg` goes on exactly when the cache answers, or the group-by
      works and then either the select of the shared conversation, or, if they share none,
      the three inserts that create one. */
  lemma ResolveAnswersExactly(db: Db, cache: Cache, a: nat, b: nat, now: nat, f: Faults)
    requires Sane(db, cache)
    ensures Resolve(db, cache, a, b, now, f).2.Ok? <==> Resolves(db, cache, a, b, now, f)
  {
    CheckAnswersExactly(db, cache, a, b, now, f.check);
  }

  ghost predicate Resolves(db: Db, cache: Cache, a: nat, b: nat, now: nat, f: Faults) {
    CacheAnswers(cache, a, b, now, f.check)
    || (f.check.groupWorks && if ShareOne(db, a, b) then f.check.firstWorks
                              else f.createWorks && f.addSenderWorks && f.addTargetWorks)
  }

  /** The tables are asked, have no conversation in common, and the first insert works. */
  ghost predicate Makes(db: Db, cache: Cache, a: nat, b: nat, now: nat, f: Faults) {
    !CacheAnswers(cache, a, b, now, f.check) && f.check.groupWorks && !ShareOne(db, a, b) && f.createWorks
  }

  /** What the block writes. Only a miss without a shared conversation creates one: a row of
      type 1 by `a` without a summary, then the entry for 300 seconds, then the rows of `a`
      and of `b` with cursor 0, each as far as its statement works; a failed row stops it. */
  lemma ResolveWritesExactly(db: Db, cache: Cache, a: nat, b: nat, now: nat, f: Faults)
    requires Sane(db, cache)
    ensures var (db', cache', r) := Resolve(db, cache, a, b, now, f);
            var k, made := |db.convs| + 1, Makes(db, cache, a, b, now, f);
            && db' == db.(convs := db'.convs, members := db'.members)
            && db'.convs == (if made then db.convs + [Conversation(1, a, None)] else db.convs)
            && db'.members == db.members
                              + (if made && f.addSenderWorks then [Member(k, a, 0)] else [])
                              + (if made && f.addSenderWorks && f.addTargetWorks then [Member(k, b, 0)] else [])
            && (made ==> cache' == if f.cacheWorks then cache[Key(a, b) := Entry(k, now + 300)] else cache)
            && (made && r.Ok? ==> r.value == k)
  {
    CheckAnswersExactly(db, cache, a, b, now, f.check);
    GroupedIsShared(db, a, b);
    assert Makes(db, cache, a, b, now, f) <==>
           CheckConversationExist(db, cache, a, b, SINGLE, now, f.check).1 == Ok(0) && f.createWorks;
  }

  /** Whatever fails, the tables only grow and the cache never holds 0. */
  lemma ResolveKeepsSane(db: Db, cache: Cache, a: nat, b: nat, now: nat, f: Faults)
    requires Valid(db) && Sane(db, cache)
    ensures var (db', cache', r) := Resolve(db, cache, a, b, now, f);
            && Valid(db') && Sane(db', cache')
            && db'.msgs == db.msgs && db'.users == db.users && db'.nextMsg == db.nextMsg && db'.nextUser == db.nextUser
            && db.members <= db'.members && db.convs <= db'.convs
            && (r.Ok? ==> ConvExists(db', r.value))
  {
    CheckEffect(db, cache, a, b, now, f.check);
    CreateKeepsSane(db, cache, a, b, now, f);
  }

  lemma ConversationKeepsValid(db: Db, a: nat)
    requires Valid(db)
    ensures Valid(CreateConversation(db, SINGLE, a).0)
  {
    var db' := CreateConversation(db, SINGLE, a).0;
    forall i | 0 <= i < |db.msgs|
      ensures ConvExists(db', db.msgs[i].conv)
    {
      assert ConvExists(db, db.msgs[i].conv);
    }
  }

  lemma MemberKeepsValid(db: Db, k: nat, u: nat)
    requires Valid(db) && ConvExists(db, k)
    ensures Valid(AddMember(db, k, u, true))
  {
    var db' := AddMember(db, k, u, true);
    forall i | 0 <= i < |db.msgs|
      ensures ConvExists(db', db.msgs[i].conv)
    {
      assert ConvExists(db, db.msgs[i].conv);
    }
  }

  lemma CreateKeepsSane(db: Db, cache: Cache, a: nat, b: nat, now: nat, f: Faults)
    requires Valid(db) && Sane(db, cache)
    ensures var (db', cache', r) := Create(db, cache, a, b, now, f);
            && Valid(db') && Sane(db', cache')
            && db'.msgs == db.msgs && db'.users == db.users && db'.nextMsg == db.nextMsg && db'.nextUser == db.nextUser
            && db.members <= db'.members && db.convs <= db'.convs
            && (r.Ok? ==> ConvExists(db', r.value))
  {
    ConversationKeepsValid(db, a);
    var (db2, k) := CreateConversation(db, SINGLE, a);
    MemberKeepsValid(db2, k, a);
    MemberKeepsValid(AddMember(db2, k, a, true), k, b);
  }

  /** New rows start unread, new conversations without a summary. */
  lemma ResolveAdds(db: Db, cache: Cache, a: nat, b: nat, now: nat, f: Faults)
    requires Valid(db) && Sane(db, cache)
    ensures var db' := Resolve(db, cache, a, b, now, f).0;
            && (forall i :: |db.members| <= i < |db'.members| ==> db'.members[i].lastRead == 0)
            && (forall k :: |db.convs| <= k < |db'.convs| ==> db'.convs[k].last.None?)
  {
  }

  /** A user gets a second row in one conversation exactly when a chat with oneself
      creates its conversation completely. */
  lemma ResolveOneRowExactly(db: Db, cache: Cache, a: nat, b: nat, now: nat, f: Faults)
    requires Valid(db) && OneRowEach(db)
    ensures OneRowEach(Resolve(db, cache, a, b, now, f).0) <==>
            !(a == b && CheckConversationExist(db, cache, a, b, SINGLE, now, f.check).1 == Ok(0)
              && f.createWorks && f.addSenderWorks && f.addTargetWorks)
  {
    var db' := Resolve(db, cache, a, b, now, f).0;
    var n := |db.members|;
    if |db'.members| == n + 2 && a == b {
      assert db'.members[n] == db'.members[n + 1];
    }
  }

  /** The group-by never finds a chat with oneself, so each lookup the cache does not
      answer says that there is none. */
  lemma SelfChatIsNeverFound(db: Db, cache: Cache, a: nat, now: nat, f: CheckFaults)
    ensures var (cache', r) := CheckConversationExist(db, cache, a, a, SINGLE, now, f);
            cache' == cache && (r.Ok? && r.value != 0 ==> Live(cache, (a, a), now) && r.value == cache[(a, a)].id)
  {
    GroupedExactly(db.members, a, a, |db.convs|);
  }

  lemma HasMemberGrows(db: Db, db': Db, k: nat, u: nat)
    requires db.members <= db'.members && HasMember(db, k, u)
    ensures HasMember(db', k, u)
  {
    var i :| 0 <= i < |db.members| && db.members[i].conv == k && db.members[i].user == u;
    assert db'.members[i] == db.members[i];
  }

  /** A step leaves a cache entry for a conversation that lacks one of its users
      exactly when `AddMember` fails after the id was cached. */
  lemma ResolveKeepsHonestExactly(db: Db, cache: Cache, a: nat, b: nat, now: nat, f: Faults)
    requires Valid(db) && Sane(db, cache) && Honest(db, cache) && a != b
    ensures var (db', cache', _) := Resolve(db, cache, a, b, now, f);
            Honest(db', cache') <==> !CachesHalfMade(db, cache, a, b, now, f)
  {
    CheckEffect(db, cache, a, b, now, f.check);
    var g := Grouped(db.members, a, b, |db.convs|);
    GroupedExactly(db.members, a, b, |db.convs|);
    JoinsIsMember(db.members, g, a);
    JoinsIsMember(db.members, g, b);
    CreateKeepsHonestExactly(db, cache, a, b, now, f);
  }

  lemma CreateKeepsHonestExactly(db: Db, cache: Cache, a: nat, b: nat, now: nat, f: Faults)
    requires Valid(db) && Sane(db, cache) && Honest(db, cache) && a != b
    ensures var (db', cache', _) := Create(db, cache, a, b, now, f);
            Honest(db', cache') <==> !(f.cacheWorks && !(f.addSenderWorks && f.addTargetWorks))
  {
    var (db', cache', _) := Create(db, cache, a, b, now, f);
    CreateKeepsSane(db, cache, a, b, now, f);
    var n := |db.convs| + 1;
    if f.cacheWorks && !(f.addSenderWorks && f.addTargetWorks) {
      var missing := if f.addSenderWorks then b else a;
      assert cache'[Key(a, b)].id == n;
      assert !HasMember(db', n, missing);
    } else {
      if f.addSenderWorks && f.addTargetWorks {
        assert db'.members[|db.members|] == Member(n, a, 0);
        assert db'.members[|db.members| + 1] == Member(n, b, 0);
      }
      forall key | key in cache'
        ensures Shared(db', cache'[key].id, key.0, key.1)
      {
        if key in cache && cache'[key] == cache[key] {
          HasMemberGrows(db, db', cache[key].id, key.0);
          HasMemberGrows(db, db', cache[key].id, key.1);
        }
      }
    }
  }

  /** Resolving keeps members paired and the cache in agreement with them exactly
      when no creation stops half way; an answer is then the pair's conversation. */
  lemma ResolveKeepsPairedExactly(db: Db, cache: Cache, a: nat, b: nat, now: nat, f: Faults)
    requires Valid(db) && Sane(db, cache) && Paired(db) && Agrees(db, cache) && a != b
    ensures var (db', cache', r) := Resolve(db, cache, a, b, now, f);
            && (Paired(db') && Agrees(db', cache') <==> !HalfMade(db, cache, a, b, now, f))
            && (r.Ok? ==> ConvExists(db', r.value) && Paired(db') && PairAt(db', r.value - 1) == Key(a, b))
  {
    CheckIsExact(db, cache, a, b, now, f.check);
    CheckKeepsAgreement(db, cache, a, b, now, f.check);
    var r := CheckConversationExist(db, cache, a, b, SINGLE, now, f.check).1;
    if r == Ok(0) {
      CreateKeepsPairedExactly(db, cache, a, b, now, f);
    }
  }

  /** A successful resolution names the one conversation the two users share. */
  lemma ResolvesToShared(db: Db, cache: Cache, a: nat, b: nat, now: nat, f: Faults)
    requires Valid(db) && Sane(db, cache) && Paired(db) && Agrees(db, cache) && a != b
    ensures var (db', cache', r) := Resolve(db, cache, a, b, now, f);
            && (Paired(db') && Agrees(db', cache') <==> !HalfMade(db, cache, a, b, now, f))
            && (r.Ok? ==> forall k :: Shared(db', k, a, b) <==> k == r.value)
  {
    var (db', _, r) := Resolve(db, cache, a, b, now, f);
    ResolveKeepsPairedExactly(db, cache, a, b, now, f);
    if r.Ok? {
      SharedIsPair(db', a, b, r.value);
      forall k | Shared(db', k, a, b)
        ensures k == r.value
      {
        PairedIsUnique(db', a, b, k, r.value);
      }
    }
  }

  lemma CheckKeepsAgreement(db: Db, cache: Cache, a: nat, b: nat, now: nat, f: CheckFaults)
    requires Valid(db) && Sane(db, cache) && Paired(db) && Agrees(db, cache) && a != b
    ensures var (cache', r) := CheckConversationExist(db, cache, a, b, SINGLE, now, f);
            && Agrees(db, cache')
            && (r == Ok(0) ==> cache' == cache)
            && (r.Ok? && r.value != 0 ==> ConvExists(db, r.value) && PairAt(db, r.value - 1) == Key(a, b))
  {
    CheckEffect(db, cache, a, b, now, f);
    var g := Grouped(db.members, a, b, |db.convs|);
    if ConvExists(db, g) {
      GroupedIsPair(db, a, b);
      AgreesWith(db, cache, Key(a, b), Entry(g, now + FOUND_TTL));
    }
  }

  lemma AgreesWith(db: Db, cache: Cache, key: (nat, nat), e: Entry)
    requires |db.members| == 2 * |db.convs| && Agrees(db, cache)
    requires ConvExists(db, e.id) && PairAt(db, e.id - 1) == key
    ensures Agrees(db, cache[key := e])
  {
  }

  lemma GroupedIsPair(db: Db, a: nat, b: nat)
    requires Paired(db) && a != b && ConvExists(db, Grouped(db.members, a, b, |db.convs|))
    ensures PairAt(db, Grouped(db.members, a, b, |db.convs|) - 1) == Key(a, b)
  {
    GroupedIsShared(db, a, b);
    SharedIsPair(db, a, b, Grouped(db.members, a, b, |db.convs|));
  }

  /** Two member rows of a new pair, appended for a new conversation, keep the pairing. */
  lemma PairAppended(db: Db, db': Db, x: Member, y: Member)
    requires Paired(db) && |db'.convs| == |db.convs| + 1 && db'.members == db.members + [x, y]
    requires x.conv == y.conv == |db.convs| + 1 && x.user != y.user
    requires forall i :: 0 <= i < |db.convs| ==> PairAt(db, i) != Key(x.user, y.user)
    ensures Paired(db') && PairAt(db', |db.convs|) == Key(x.user, y.user)
    ensures forall i :: 0 <= i < |db.convs| ==> PairAt(db', i) == PairAt(db, i)
  {
    var n := |db.convs|;
    assert db'.members[2 * n] == x && db'.members[2 * n + 1] == y;
    forall i | 0 <= i < n
      ensures db'.members[2 * i] == db.members[2 * i] && db'.members[2 * i + 1] == db.members[2 * i + 1]
      ensures PairAt(db', i) == PairAt(db, i)
    {
    }
  }

  lemma CompleteKeepsPaired(db: Db, cache: Cache, a: nat, b: nat, now: nat, f: Faults)
    requires Valid(db) && Sane(db, cache) && Paired(db) && Agrees(db, cache) && a != b
    requires (forall k :: !Shared(db, k, a, b)) && f.addSenderWorks && f.addTargetWorks
    ensures var (db', cache', r) := Create(db, cache, a, b, now, f);
            && Paired(db') && Agrees(db', cache') && ConvExists(db', r.value) && PairAt(db', r.value - 1) == Key(a, b)
  {
    var (db', cache', r) := Create(db, cache, a, b, now, f);
    var n := |db.convs|;
    forall i | 0 <= i < n
      ensures PairAt(db, i) != Key(a, b)
    {
      SharedIsPair(db, a, b, i + 1);
    }
    assert db'.members == db.members + [Member(n + 1, a, 0), Member(n + 1, b, 0)];
    PairAppended(db, db', Member(n + 1, a, 0), Member(n + 1, b, 0));
  }

  lemma CreateKeepsPairedExactly(db: Db, cache: Cache, a: nat, b: nat, now: nat, f: Faults)
    requires Valid(db) && Sane(db, cache) && Paired(db) && Agrees(db, cache) && a != b
    requires forall k :: !Shared(db, k, a, b)
    ensures var (db', cache', r) := Create(db, cache, a, b, now, f);
            && (Paired(db') && Agrees(db', cache') <==> f.addSenderWorks && f.addTargetWorks)
            && (r.Ok? ==> ConvExists(db', r.value) && Paired(db') && PairAt(db', r.value - 1) == Key(a, b))
  {
    if f.addSenderWorks && f.addTargetWorks { CompleteKeepsPaired(db, cache, a, b, now, f); }
  }

  /** Uniqueness needs resolve-or-create to be one step. Whenever two handlers of a pair
      both look the conversation up before either creates one, and both creations go
      through, the pair has two conversations, whatever else the tables and the cache
      hold; the cache keeps the second if its write works. */
  lemma InterleavedCreationDuplicates(db: Db, cache: Cache, a: nat, b: nat, now: nat, f: Faults, f': Faults)
    requires CheckConversationExist(db, cache, a, b, SINGLE, now, f.check).1 == Ok(0)
    requires CheckConversationExist(db, cache, b, a, SINGLE, now, f'.check).1 == Ok(0)
    requires f.addSenderWorks && f.addTargetWorks && f'.addSenderWorks && f'.addTargetWorks
    ensures var cache0 :=
              CheckConversationExist(db, CheckConversationExist(db, cache, a, b, SINGLE, now, f.check).0, b, a, SINGLE,
                                     now, f'.check).0;
            var (db1, cache1, r1) := Create(db, cache0, a, b, now, f);
            var (db2, cache2, r2) := Create(db1, cache1, b, a, now, f');
            && r1.Ok? && r2.Ok? && r1.value != r2.value
            && Shared(db2, r1.value, a, b) && Shared(db2, r2.value, a, b)
            && (f'.cacheWorks ==> Key(a, b) in cache2 && cache2[Key(a, b)].id == r2.value)
  {
    var n, k := |db.members|, |db.convs| + 1;
    var db1 := AddMember(AddMember(CreateConversation(db, SINGLE, a).0, k, a, true), k, b, true);
    var db2 := AddMember(AddMember(CreateConversation(db1, SINGLE, b).0, k + 1, b, true), k + 1, a, true);
    assert db2.members[n] == Member(k, a, 0) && db2.members[n + 1] == Member(k, b, 0);
    assert db2.members[n + 2] == Member(k + 1, b, 0) && db2.members[n + 3] == Member(k + 1, a, 0);
    assert Shared(db2, k, a, b) && Shared(db2, k + 1, a, b);
  }
}
