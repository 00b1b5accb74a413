/** The MySQL tables the server works on, one function per SQL statement, and the
    laws of the two statements the delivery guarantee rests on: the idempotent
    message insert and the guarded cursor update.

    Every statement is atomic. Tables are sequences in primary-key order;
    conversation `k` is `convs[k - 1]`. */
module Store {
  import opened Basics

  datatype User = User(id: nat, name: string, nickname: string, avatar: string, createdAt: nat, password: string)
  datatype Message = Message(id: nat, conv: nat, sender: nat, content: string, clientId: string, createdAt: nat)
  datatype Summary = Summary(msgId: nat, content: string, time: nat)
  datatype Conversation = Conversation(ctype: nat, creator: nat, last: Option<Summary>)
  datatype Member = Member(conv: nat, user: nat, lastRead: nat)

  /** `nextUser` and `nextMsg` are the auto-increment counters. */
  datatype Db = Db(
    users: map<nat, User>,
    convs: seq<Conversation>,
    members: seq<Member>,
    msgs: seq<Message>,
    nextUser: nat,
    nextMsg: nat)

  const EMPTY := Db(map[], [], [], [], 1, 1)

  predicate ConvExists(db: Db, k: nat) {
    1 <= k <= |db.convs|
  }

  ghost predicate HasMember(db: Db, k: nat, u: nat) {
    exists i :: 0 <= i < |db.members| && db.members[i].conv == k && db.members[i].user == u
  }

  /** What every statement of the program keeps: ids ascend and were handed out,
      client ids are unique, and rows refer to conversations that exist. */
  ghost predicate Valid(db: Db) {
    && 1 <= db.nextMsg
    && (forall i :: 0 <= i < |db.msgs| ==> 1 <= db.msgs[i].id < db.nextMsg && ConvExists(db, db.msgs[i].conv))
    && (forall i, j :: 0 <= i < j < |db.msgs| ==> db.msgs[i].id < db.msgs[j].id)
    && (forall i, j :: 0 <= i < j < |db.msgs| ==> db.msgs[i].clientId != db.msgs[j].clientId)
    && (forall i :: 0 <= i < |db.members| ==> ConvExists(db, db.members[i].conv))
  }

  // ---------------------------------------------------------------- users

  function CreateUser(db: Db, name: string, nickname: string, avatar: string, password: string, now: nat): Db {
    db.(users := db.users[db.nextUser := User(db.nextUser, name, nickname, avatar, now, password)],
        nextUser := db.nextUser + 1)
  }

  // -------------------------------------------------------------- messages

  /** What the caller fills in before an insert; the id comes from the database. */
  datatype Draft = Draft(conv: nat, sender: nat, content: string, clientId: string, createdAt: nat)

  datatype InsertFault = NoFault | InsertFails | SelectFails

  function FindByClientId(msgs: seq<Message>, clientId: string): (r: Option<Message>)
    ensures r.Some? ==> r.value in msgs && r.value.clientId == clientId
    ensures r.None? ==> forall m :: m in msgs ==> m.clientId != clientId
  {
    if msgs == [] then None
    else if msgs[0].clientId == clientId then Some(msgs[0])
    else FindByClientId(msgs[1..], clientId)
  }

  ghost predicate HasClientId(db: Db, clientId: string) {
    exists m :: m in db.msgs && m.clientId == clientId
  }

  function NewRow(db: Db, d: Draft): Message {
    Message(db.nextMsg, d.conv, d.sender, d.content, d.clientId, d.createdAt)
  }

  /** The insert under a unique key on `client_msg_id`. A rejected duplicate still
      consumes an auto-increment value. */
  function CreateMessage(db: Db, d: Draft, fault: InsertFault): (Db, Result<Message>) {
    if fault.InsertFails? then (db, Err)
    else match FindByClientId(db.msgs, d.clientId)
      case None => (db.(msgs := db.msgs + [NewRow(db, d)], nextMsg := db.nextMsg + 1), Ok(NewRow(db, d)))
      case Some(existing) =>
        (db.(nextMsg := db.nextMsg + 1), if fault.SelectFails? then Err else Ok(existing))
  }

  /** A sequence of sends and replays, with whatever faults hit them. */
  function CreateAll(db: Db, calls: seq<(Draft, InsertFault)>): Db {
    if calls == [] then db
    else
      var n := |calls| - 1;
      CreateMessage(CreateAll(db, calls[..n]), calls[n].0, calls[n].1).0
  }

  // ------------------------------------------------- read cursor and backlog

  datatype Cursor = Cursor(conv: nat, user: nat, id: nat)

  predicate Concerns(a: Cursor, r: Member) {
    r.user == a.user && r.conv == a.conv
  }

  function Bump(r: Member, a: Cursor): Member {
    if Concerns(a, r) && r.lastRead < a.id then r.(lastRead := a.id) else r
  }

  function UpdateLastRead(db: Db, a: Cursor): Db {
    db.(members := seq(|db.members|, i requires 0 <= i < |db.members| => Bump(db.members[i], a)))
  }

  /** A run of cursor updates, oldest first. */
  function UpdateAll(db: Db, log: seq<Cursor>): Db {
    if log == [] then db else UpdateLastRead(UpdateAll(db, log[..|log| - 1]), log[|log| - 1])
  }

  predicate Leaves(r: Member, m: Message, u: nat) {
    r.user == u && r.conv == m.conv && m.id > r.lastRead
  }

  /** One joined row per member row that leaves `m` unread. */
  function Joined(members: seq<Member>, m: Message, u: nat): seq<Message> {
    if members == [] then []
    else
      var n := |members| - 1;
      Joined(members[..n], m, u) + if Leaves(members[n], m, u) then [m] else []
  }

  function UnreadIn(db: Db, msgs: seq<Message>, u: nat): seq<Message> {
    if msgs == [] then []
    else
      var m := msgs[|msgs| - 1];
      UnreadIn(db, msgs[..|msgs| - 1], u) + if ConvExists(db, m.conv) then Joined(db.members, m, u) else []
  }

  /** The three-way join behind the backlog, in message-id order. */
  function Unread(db: Db, u: nat): seq<Message> {
    UnreadIn(db, db.msgs, u)
  }

  ghost predicate OneRowEach(db: Db) {
    forall i, j :: 0 <= i < j < |db.members| ==>
      db.members[i].conv != db.members[j].conv || db.members[i].user != db.members[j].user
  }

  ghost predicate Ascending(ms: seq<Message>) {
    forall i, j :: 0 <= i < j < |ms| ==> ms[i].id < ms[j].id
  }

  // ---------------------------------------------------- conversation summary

  function SummaryOf(m: Message): Summary {
    Summary(m.id, m.content, m.createdAt)
  }

  /** The unguarded summary update. MySQL counts changed rows, so writing the
      values a row already holds affects no row and is reported as an error. */
  function UpdateConversation(db: Db, k: nat, m: Message, ok: bool): (Db, Result<()>) {
    if !ok || !ConvExists(db, k) || db.convs[k - 1].last == Some(SummaryOf(m)) then (db, Err)
    else (db.(convs := db.convs[k - 1 := db.convs[k - 1].(last := Some(SummaryOf(m)))]), Ok(()))
  }

  // ================================================================== laws

  /** Any run of sends and replays keeps the table well formed: ids strictly
      increase and there is at most one row per client id; rows never change. */
  lemma {:induction false} CreateAllKeepsTable(db: Db, calls: seq<(Draft, InsertFault)>)
    requires Valid(db)
    requires forall i :: 0 <= i < |calls| ==> ConvExists(db, calls[i].0.conv)
    ensures Valid(CreateAll(db, calls))
    ensures db.msgs <= CreateAll(db, calls).msgs
    ensures CreateAll(db, calls).members == db.members && CreateAll(db, calls).convs == db.convs
  {
    if calls != [] {
      var n := |calls| - 1;
      CreateAllKeepsTable(db, calls[..n]);
      CreateMessageKeepsValid(CreateAll(db, calls[..n]), calls[n].0, calls[n].1);
    }
  }

  lemma {:induction false} CreateMessageKeepsValid(db: Db, d: Draft, fault: InsertFault)
    requires Valid(db) && ConvExists(db, d.conv)
    ensures Valid(CreateMessage(db, d, fault).0)
    ensures db.msgs <= CreateMessage(db, d, fault).0.msgs
    ensures CreateMessage(db, d, fault).1.Ok? ==>
              CreateMessage(db, d, fault).1.value in CreateMessage(db, d, fault).0.msgs
  {
    var (db', r) := CreateMessage(db, d, fault);
    if !fault.InsertFails? && FindByClientId(db.msgs, d.clientId).None? {
      assert db'.msgs[|db.msgs|] == NewRow(db, d);
      forall i | 0 <= i < |db.msgs|
        ensures db'.msgs[i].clientId != d.clientId
      {
        assert db.msgs[i] in db.msgs;
      }
    }
  }

  /** An insert is answered exactly when the statement works and, if the client id was stored
      before, the select that looks the row up works too. */
  lemma CreateMessageAnswersExactly(db: Db, d: Draft, fault: InsertFault)
    ensures CreateMessage(db, d, fault).1.Ok? <==>
            !fault.InsertFails? && (HasClientId(db, d.clientId) ==> !fault.SelectFails?)
  {
  }

  /** A replay returns a row stored before under its client id and stores nothing; a new
      client id gets a row of its own, column by column; an error stores nothing. Every
      insert that reached the table used up an id. */
  lemma CreateMessageStoresExactly(db: Db, d: Draft, fault: InsertFault)
    ensures var (db', r) := CreateMessage(db, d, fault);
            && db' == db.(msgs := db'.msgs, nextMsg := db'.nextMsg)
            && db'.nextMsg == db.nextMsg + (if fault.InsertFails? then 0 else 1)
            && (r.Err? || HasClientId(db, d.clientId) ==> db'.msgs == db.msgs)
            && (r.Ok? && HasClientId(db, d.clientId) ==> r.value in db.msgs && r.value.clientId == d.clientId)
            && (r.Ok? && !HasClientId(db, d.clientId) ==>
                  && db'.msgs == db.msgs + [r.value]
                  && r.value.id == db.nextMsg && r.value.conv == d.conv && r.value.sender == d.sender
                  && r.value.content == d.content && r.value.clientId == d.clientId
                  && r.value.createdAt == d.createdAt)
  {
  }

  /** A registration adds one row under the next id, column by column. */
  lemma CreateUserStoresExactly(db: Db, name: string, nickname: string, avatar: string, password: string, now: nat)
    ensures var db', u := CreateUser(db, name, nickname, avatar, password, now), db.nextUser;
            && db' == db.(users := db'.users, nextUser := u + 1) && u in db'.users
            && (forall v :: v != u ==>
                  (v in db'.users <==> v in db.users) && (v in db.users ==> db'.users[v] == db.users[v]))
            && db'.users[u].id == u && db'.users[u].name == name && db'.users[u].nickname == nickname
            && db'.users[u].avatar == avatar && db'.users[u].createdAt == now && db'.users[u].password == password
  {
  }

  /** A send whose client id was stored before, however many sends ago, returns
      the stored row and adds nothing to anyone's backlog. */
  lemma {:induction false} ReplayReturnsStored(db: Db, d0: Draft, between: seq<(Draft, InsertFault)>, d1: Draft)
    requires Valid(db) && ConvExists(db, d0.conv)
    requires forall i :: 0 <= i < |between| ==> ConvExists(db, between[i].0.conv)
    requires d1.clientId == d0.clientId
    ensures var (db1, first) := CreateMessage(db, d0, NoFault);
            var db2 := CreateAll(db1, between);
            var (db3, again) := CreateMessage(db2, d1, NoFault);
            first.Ok? && again == first && db3.msgs == db2.msgs && forall u: nat :: Unread(db3, u) == Unread(db2, u)
  {
    var (db1, first) := CreateMessage(db, d0, NoFault);
    CreateMessageKeepsValid(db, d0, NoFault);
    CreateAllKeepsTable(db1, between);
    var db2 := CreateAll(db1, between);
    var (db3, again) := CreateMessage(db2, d1, NoFault);
    assert first.value in db2.msgs;
    var i :| 0 <= i < |db2.msgs| && db2.msgs[i] == first.value;
    if FindByClientId(db2.msgs, d1.clientId).Some? {
      var m := FindByClientId(db2.msgs, d1.clientId).value;
      var j :| 0 <= j < |db2.msgs| && db2.msgs[j] == m;
      assert i == j;
    }
    forall u: nat
      ensures Unread(db3, u) == Unread(db2, u)
    {
      UnreadInFrame(db2, db3, db2.msgs, u);
    }
  }

  lemma {:induction false} FoundIsTheOne(db: Db, clientId: string, m: Message)
    requires Valid(db) && m in db.msgs && m.clientId == clientId
    ensures FindByClientId(db.msgs, clientId) == Some(m)
  {
    var found := FindByClientId(db.msgs, clientId).value;
    var i :| 0 <= i < |db.msgs| && db.msgs[i] == m;
    var j :| 0 <= j < |db.msgs| && db.msgs[j] == found;
    assert i == j;
  }

  /** A reused client id returns a message of another conversation or sender exactly
      when such a message is stored under it; the caller then goes on with that row. */
  lemma {:induction false} ReuseReturnsForeignRowExactly(db: Db, d: Draft)
    requires Valid(db)
    ensures var r := CreateMessage(db, d, NoFault).1;
            r.Ok? && (r.value.conv == d.conv && r.value.sender == d.sender <==>
                      forall m :: m in db.msgs && m.clientId == d.clientId ==> m.conv == d.conv && m.sender == d.sender)
  {
    forall m | m in db.msgs && m.clientId == d.clientId
      ensures FindByClientId(db.msgs, d.clientId) == Some(m)
    {
      FoundIsTheOne(db, d.clientId, m);
    }
  }

  /** The frame pushed to the recipient carries the text of this send, the backlog that
      of the stored row. The two agree exactly when no row with another text is stored
      under the client id. */
  lemma {:induction false} ReplayKeepsTextExactly(db: Db, d: Draft)
    requires Valid(db)
    ensures var r := CreateMessage(db, d, NoFault).1;
            r.Ok? && (r.value.content == d.content <==>
                      forall m :: m in db.msgs && m.clientId == d.clientId ==> m.content == d.content)
  {
    forall m | m in db.msgs && m.clientId == d.clientId
      ensures FindByClientId(db.msgs, d.clientId) == Some(m)
    {
      FoundIsTheOne(db, d.clientId, m);
    }
  }

  lemma {:induction false} UnreadInFrame(db: Db, db': Db, msgs: seq<Message>, u: nat)
    requires db'.members == db.members && |db'.convs| == |db.convs|
    ensures UnreadIn(db', msgs, u) == UnreadIn(db, msgs, u)
  {
    if msgs != [] {
      UnreadInFrame(db, db', msgs[..|msgs| - 1], u);
    }
  }

  // ------------------------------------------------------- the backlog query

  lemma {:induction false} JoinedRows(members: seq<Member>, m: Message, u: nat)
    ensures forall x :: x in Joined(members, m, u) ==> x == m
    ensures m in Joined(members, m, u) <==> exists i :: 0 <= i < |members| && Leaves(members[i], m, u)
  {
    if members != [] {
      var n := |members| - 1;
      JoinedRows(members[..n], m, u);
      assert forall i :: 0 <= i < n ==> members[..n][i] == members[i];
    }
  }

  /** A message is in the backlog of `u` exactly when some member row of `u` in
      its conversation has a cursor below it. */
  lemma {:induction false} UnreadExactly(db: Db, msgs: seq<Message>, u: nat, m: Message)
    ensures m in UnreadIn(db, msgs, u) <==>
            m in msgs && ConvExists(db, m.conv) && exists i :: 0 <= i < |db.members| && Leaves(db.members[i], m, u)
  {
    if msgs != [] {
      var n := |msgs| - 1;
      UnreadExactly(db, msgs[..n], u, m);
      JoinedRows(db.members, msgs[n], u);
      assert msgs == msgs[..n] + [msgs[n]];
    }
  }

  lemma {:induction false} JoinedOnce(members: seq<Member>, m: Message, u: nat)
    requires forall i, j :: 0 <= i < j < |members| ==>
               members[i].conv != members[j].conv || members[i].user != members[j].user
    ensures |Joined(members, m, u)| <= 1
  {
    if members != [] {
      var n := |members| - 1;
      JoinedOnce(members[..n], m, u);
      JoinedRows(members[..n], m, u);
      var head := Joined(members[..n], m, u);
      if head != [] {
        assert head[0] in head;
        var i :| 0 <= i < n && Leaves(members[..n][i], m, u);
        assert Leaves(members[i], m, u);
      }
    }
  }

  /** With one member row per user and conversation the backlog is strictly
      ascending: every unread message once, oldest first. */
  lemma {:induction false} UnreadAscends(db: Db, msgs: seq<Message>, u: nat)
    requires OneRowEach(db)
    requires Ascending(msgs)
    ensures Ascending(UnreadIn(db, msgs, u))
  {
    if msgs != [] {
      var n := |msgs| - 1;
      var head, m := UnreadIn(db, msgs[..n], u), msgs[n];
      UnreadAscends(db, msgs[..n], u);
      JoinedOnce(db.members, m, u);
      JoinedRows(db.members, m, u);
      forall i | 0 <= i < |head|
        ensures head[i].id < m.id
      {
        UnreadExactly(db, msgs[..n], u, head[i]);
        var j :| 0 <= j < n && msgs[..n][j] == head[i];
        assert msgs[j].id < m.id;
      }
      var tail := Joined(db.members, m, u);
      assert tail != [] ==> tail[0] in tail;
    }
  }

  // ------------------------------------------------------------ cursor laws

  /** The cursor a row ends at: the largest id addressed to it, or its start. */
  function Top(r: Member, log: seq<Cursor>): nat {
    if log == [] then r.lastRead
    else
      var a := log[|log| - 1];
      var t := Top(r, log[..|log| - 1]);
      if Concerns(a, r) then Max(t, a.id) else t
  }

  lemma {:induction false} TopIsMaximum(r: Member, log: seq<Cursor>)
    ensures r.lastRead <= Top(r, log)
    ensures forall a :: a in log && Concerns(a, r) ==> a.id <= Top(r, log)
    ensures Top(r, log) == r.lastRead || exists a :: a in log && Concerns(a, r) && a.id == Top(r, log)
  {
    if log != [] {
      var n := |log| - 1;
      TopIsMaximum(r, log[..n]);
      assert log == log[..n] + [log[n]];
    }
  }

  lemma {:induction false} UpdateAllIsTop(db: Db, log: seq<Cursor>)
    ensures |UpdateAll(db, log).members| == |db.members|
    ensures forall i :: 0 <= i < |db.members| ==>
              UpdateAll(db, log).members[i] == db.members[i].(lastRead := Top(db.members[i], log))
    ensures UpdateAll(db, log).(members := db.members) == db
  {
    if log != [] {
      UpdateAllIsTop(db, log[..|log| - 1]);
    }
  }

  /** The cursor is a join: two runs of acks and own-send updates with the same
      elements, in any order and any number of times, leave the same tables. */
  lemma {:induction false} CursorIsJoin(db: Db, log: seq<Cursor>, log': seq<Cursor>)
    requires forall a :: a in log <==> a in log'
    ensures UpdateAll(db, log) == UpdateAll(db, log')
  {
    UpdateAllIsTop(db, log);
    UpdateAllIsTop(db, log');
    forall i | 0 <= i < |db.members|
      ensures Top(db.members[i], log) == Top(db.members[i], log')
    {
      TopIsMaximum(db.members[i], log);
      TopIsMaximum(db.members[i], log');
    }
    assert UpdateAll(db, log).members == UpdateAll(db, log').members;
  }

  /** What one cursor update takes out of the backlog, exactly: every message of that
      user and conversation up to its id, pushed or not. */
  lemma {:induction false} AckRemovesExactly(db: Db, a: Cursor, u: nat, m: Message)
    ensures m in Unread(UpdateLastRead(db, a), u) <==>
            m in Unread(db, u) && !(a.conv == m.conv && a.user == u && m.id <= a.id)
  {
    var db' := UpdateLastRead(db, a);
    UnreadExactly(db, db.msgs, u, m);
    UnreadExactly(db', db.msgs, u, m);
    assert forall i :: 0 <= i < |db.members| ==> db'.members[i] == Bump(db.members[i], a);
    if m in Unread(db, u) && !(a.conv == m.conv && a.user == u && m.id <= a.id) {
      var i :| 0 <= i < |db.members| && Leaves(db.members[i], m, u);
      assert Leaves(db'.members[i], m, u);
    }
  }

  /** Draining, exactly: with no new messages, acknowledgements empty the backlog
      of `u` if and only if each unread message has one at or above it. */
  lemma {:induction false} DrainedExactly(db: Db, acks: seq<Cursor>, u: nat)
    requires Valid(db)
    ensures Unread(UpdateAll(db, acks), u) == [] <==>
            forall m :: m in Unread(db, u) ==>
              exists a :: a in acks && a.conv == m.conv && a.user == u && m.id <= a.id
  {
    var db' := UpdateAll(db, acks);
    UpdateAllIsTop(db, acks);
    if Unread(db', u) == [] {
      forall m | m in Unread(db, u)
        ensures exists a :: a in acks && a.conv == m.conv && a.user == u && m.id <= a.id
      {
        UnreadExactly(db, db.msgs, u, m);
        UnreadExactly(db', db.msgs, u, m);
        var i :| 0 <= i < |db.members| && Leaves(db.members[i], m, u);
        TopIsMaximum(db.members[i], acks);
        assert !Leaves(db'.members[i], m, u);
      }
    } else {
      var m := Unread(db', u)[0];
      UnreadExactly(db', db.msgs, u, m);
      UnreadExactly(db, db.msgs, u, m);
      var i :| 0 <= i < |db.members| && Leaves(db'.members[i], m, u);
      TopIsMaximum(db.members[i], acks);
      assert Leaves(db.members[i], m, u);
      assert m in Unread(db, u);
      if exists a :: a in acks && a.conv == m.conv && a.user == u && m.id <= a.id {
        var a :| a in acks && a.conv == m.conv && a.user == u && m.id <= a.id;
        assert Concerns(a, db.members[i]);
        assert false;
      }
    }
  }

  /** A fully pushed backlog acknowledged message by message, in any order and
      with any repetition, leaves nothing for the next connection to push. */
  lemma {:induction false} AckedBacklogIsDrained(db: Db, acks: seq<Cursor>, u: nat)
    requires Valid(db)
    requires forall m :: m in Unread(db, u) ==> Cursor(m.conv, u, m.id) in acks
    ensures Unread(UpdateAll(db, acks), u) == []
  {
    DrainedExactly(db, acks, u);
    forall m | m in Unread(db, u)
      ensures exists a :: a in acks && a.conv == m.conv && a.user == u && m.id <= a.id
    {
      assert Cursor(m.conv, u, m.id) in acks;
    }
  }

  /** The `last_msg_id` of a conversation, 0 while it is NULL. */
  function LastId(db: Db, k: nat): nat {
    if ConvExists(db, k) && db.convs[k - 1].last.Some? then db.convs[k - 1].last.value.msgId else 0
  }

  /** The summary of a conversation shows this message: its id, its text, its time. */
  predicate Shows(row: Conversation, m: Message) {
    && row.last.Some? && row.last.value.msgId == m.id && row.last.value.content == m.content
    && row.last.value.time == m.createdAt
  }

  /** The update works exactly when the statement does, the conversation exists, and its
      summary does not show the message already. Then it does; nothing else changes. */
  lemma UpdateConversationExactly(db: Db, k: nat, m: Message, ok: bool)
    ensures var (db', r) := UpdateConversation(db, k, m, ok);
            && (r.Ok? <==> ok && 1 <= k <= |db.convs| && !Shows(db.convs[k - 1], m))
            && (r.Err? ==> db' == db)
            && (r.Ok? ==>
                  && db' == db.(convs := db'.convs) && |db'.convs| == |db.convs| && Shows(db'.convs[k - 1], m)
                  && db'.convs[k - 1].ctype == db.convs[k - 1].ctype
                  && db'.convs[k - 1].creator == db.convs[k - 1].creator
                  && forall i :: 0 <= i < |db.convs| && i != k - 1 ==> db'.convs[i] == db.convs[i])
  {
  }

  /** The summary update carries no order: it lowers `last_msg_id` of a conversation
      exactly when it works, is for that conversation, and its message is older than the
      one already there. */
  lemma {:induction false} SummaryGoesDownExactly(db: Db, k: nat, m: Message, ok: bool, conv: nat)
    ensures LastId(UpdateConversation(db, k, m, ok).0, conv) < LastId(db, conv) <==>
            ok && k == conv && m.id < LastId(db, conv)
  {
  }
}
