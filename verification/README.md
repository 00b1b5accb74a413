# Message delivery of the IM server

This project models how a chat message travels through the server and proves what
that journey guarantees. Several server processes share MySQL (users, conversations,
members, messages), Redis (user cache, conversation cache, presence keys, one Pub/Sub
channel) and a RabbitMQ queue for conversation summaries. The server never pushes a
message again on its own: a message is stored, offered once to a live connection of
the recipient, and otherwise waits for the backlog query of the next connection; the
client moves its read cursor by acknowledging. Everything therefore rests on the order
of a few statements in concurrent goroutines.

How the files fit together:

- `Store`, `UserCache`, `Conversations`: the tables and caches, one function per
  statement, and the laws of each: idempotent insert, cursor as a join, draining,
  cache staleness, resolve-or-create.
- `Cluster`: the protocol as a state machine. Every goroutine has a program counter;
  every SQL statement, Redis command, locked region, channel operation and socket
  operation is one transition, and any of them may fail. `Run(tr, acts)` is a run.
- `Frames`: what one transition can touch. `Lifecycle`, `Slots`, `Race`, `Keys`,
  `Accounting`, `Addressing`, `Tables`, `Summaries`, `NoGap`, `AtLeastOnce`, `Socket`,
  `EndToEnd`, `Delivery`, `Staleness`: theorems about every run and every reachable state.
- `Paths`, `Scenario`, `Counterexamples`: runs from the initial state that end in the
  states the guarantees exclude.
- `Effects`, `Goroutines`: `WsConnect`, `ListenMsg`, `handleChatMsg`, `Unregister` and the
  subscriber as sequential methods whose statements are transitions of `Cluster`, with
  arbitrary transitions of the other goroutines between any two statements. Each
  contract names the statements its goroutine executed, in order, and what they did; a
  method gives up exactly when its process has crashed.
- `Repository`, `Manager`: the repository layer and the connection registry as classes
  over mutable tables, caches and client objects.
- `Broker`, `Redelivery`, `Consumer`, `Publisher`, `Reconnect`: the summary queue as a
  machine, what becomes of a delivery over whole runs, the consumer goroutine,
  publishing with fallback over the client that `Reconnect` rebuilds, into the queue of
  `Broker`, and reconnecting.
- `Presence`, `Budget`: the presence key against the read deadline, in discrete seconds, and
  the same inside the runs of `Cluster`.

What the code does not guarantee is stated as the exact condition under which it does,
or as a lemma with the state in which it does not:

- A later acknowledgement, or a message the user sends, skips earlier messages
  (`Store.AckRemovesExactly`). Every message to a user stays safe along a run exactly if
  each cursor update is harmless when it is executed: it stays below the next id and skips
  no message of others that was never written (`AtLeastOnce.AtLeastOnceExactly`). Both ways
  to break it occur (`Counterexamples.OwnSendCanSkip`, `Counterexamples.AckAheadLosesNext`).
- `last_msg_id` never goes down exactly as long as no write carries an older message than
  the stored one (`Summaries.SummaryMonotoneExactly`); it can (`Counterexamples.SummaryCanGoBack`).
- A comment at `internal/repository/user.go:85` says the pipeline makes HSET and EXPIRE
  happen together. A pipeline is not a transaction; a negative entry whose EXPIRE is
  lost denies the user for ever, and one whose replacement loses only its HSET for five
  hours (`UserCache.StretchedEntryDenies`, `UserCache.TornNegativeEntryDeniesForEver`,
  `Counterexamples.RegisteredUserIsDenied`), and the five-minute bound holds exactly
  without such writes (`Staleness.BoundedExactly`).
- `UpdateConversation` reports an update that changes no column value as an error, so an
  update that is delivered again after it was applied is dead-lettered
  (`Redelivery.RedeliveredIsDeadLettered`).
- The conversation id is cached before the members are added; a failing `AddMember`
  leaves a cached conversation that lacks a member (`Conversations.ResolveKeepsHonestExactly`).
- Two first messages that interleave between check and creation give the pair two
  conversations (`Conversations.InterleavedCreationDuplicates`).
- The DEL of a teardown ignores who set the key; it hides a user exactly when some node has
  the user registered (`Race.DeleteHidesExactly`, `Counterexamples.ReconnectIsHidden`).
- A send on a channel that was closed after the lookup panics (`Counterexamples.PanicIsReached`).
- After a failed rebuild `publishCh` can be nil or not in confirm mode, and the next publish
  panics (`Reconnect.Amqp.PublishMessageSent`); over a healthy client none does.
- A replay with another text pushes that text, while the backlog carries the stored one
  (`Store.ReplayKeepsTextExactly`).
- The presence key can expire under a live connection unless the backlog push and the
  handlers of all frames of one read fit in 30 seconds (`Presence.LiveUntilLeft`).
- The gauge keeps counting displaced connections (`Accounting.GaugeExactWithoutTakeover`).

Assumptions about the outside. `client_msg_id` is unique in MySQL and the duplicate-key
branch of `CreateMessage` is taken as meant, although the schema is not in the
repository and gorm is opened without error translation. Statements are atomic and
message ids follow commit order. JSON is an injective encoding. The names of nodes are
fixed while the cluster runs.

## Model

| member | source | states |
|---|---|---|
| `Store.CreateMessageKeepsValid` | internal/repository/message.go:11-26 | an insert or replay keeps ids ascending and client ids unique, never changes a row, and returns a stored row |
| `Store.CreateAllKeepsTable` | internal/repository/message.go:11-26 | so does any sequence of sends and replays with any faults |
| `Store.CreateMessageAnswersExactly` | internal/repository/message.go:11-26 | an insert is answered iff the statement works and, for a client id stored before, the select works too |
| `Store.CreateMessageStoresExactly` | internal/repository/message.go:11-26 | a replay returns the row stored before and stores nothing; a new client id gets one row with its own columns; an error stores nothing |
| `Store.CreateUserStoresExactly` | internal/repository/user.go:20-23 | a registration adds one row under the next id, column by column, and changes nothing else |
| `Store.ReplayReturnsStored` | internal/repository/message.go:11-26 | a replay, however many sends later, returns the stored message and adds nothing to anyone's backlog |
| `Store.ReuseReturnsForeignRowExactly` | internal/ws/client.go:213-214 | a reused client id hands the caller a row of another conversation or sender iff such a row is stored under it |
| `Store.ReplayKeepsTextExactly` | internal/ws/client.go:213-243 | the pushed text is the stored one iff no row with another text is stored under the client id |
| `Store.UnreadExactly` | internal/repository/conversationMember.go:151-164 | a message is in the backlog iff a member row of the user in its conversation has a cursor below it |
| `Store.UnreadAscends` | internal/repository/conversationMember.go:151-164 | with one member row each, the backlog holds every message once, oldest first |
| `Store.UpdateAllIsTop` | internal/repository/conversationMember.go:60-68 | after any log of cursor updates each row stands at the largest id addressed to it and nothing else changed |
| `Store.CursorIsJoin` | internal/repository/conversationMember.go:60-68 | reordering or repeating acks and own-send updates changes nothing |
| `Store.AckRemovesExactly` | internal/repository/conversationMember.go:60-68 | one cursor update takes out of the backlog exactly that user's messages of the conversation up to its id |
| `Store.DrainedExactly` | internal/repository/conversationMember.go:60-68 | acks empty the backlog iff each unread message has one at or above it |
| `Store.AckedBacklogIsDrained` | internal/ws/client.go:393-436 | a fully pushed backlog acknowledged in any order leaves the next push nothing to write |
| `Store.SummaryGoesDownExactly` | internal/repository/conversation.go:60-75 | one write lowers a conversation's `last_msg_id` iff it works, is for that conversation, and its message is older than the stored one |
| `Store.UpdateConversationExactly` | internal/repository/conversation.go:60-75 | the update works iff the statement does, the conversation exists and does not show the message already; then id, text and time are the message's and nothing else changes |
| `Summaries.SummaryMonotoneExactly` | internal/repository/conversation.go:60-75 | over any stretch of any run `last_msg_id` never goes down iff no consumer or fallback write in it carries a message older than the stored one |
| `Summaries.SummaryIsLatest` | internal/repository/conversation.go:60-75 | in every reachable state a summary shows id, text and time of the message written last, or is empty if none was |
| `Counterexamples.SummaryCanGoBack` | internal/mq/consumer.go:30-51 | a run from the initial state in which the second message is consumed before the first |
| `UserCache.LookupKeepsPositive` | internal/repository/user.go:40-99 | cached users stay equal to their rows, whatever fails |
| `UserCache.LookupKeepsNegativeExactly` | internal/repository/user.go:64-91 | negative entries stay bounded by five minutes iff the lookup neither loses the EXPIRE of a negative write nor, replacing a live negative entry, its HSET alone |
| `UserCache.RegistrationKeepsCache` | internal/repository/user.go:20-23 | a registration invalidates no cached statement |
| `UserCache.LookupIsFresh` | internal/repository/user.go:40-99 | answered iff a live entry is read or the select works; a stored user is found unless a live negative entry is read; a returned user is the stored row; "none" means absent at some moment of the last five minutes |
| `UserCache.LookupFindsExactly` | internal/repository/user.go:40-99 | an answer is "none" iff the user is not stored or a live negative entry was read; otherwise the stored user, column by column, without the password if it came from the cache |
| `UserCache.LookupIsRememberedExactly` | internal/repository/user.go:70-99 | after a write-back that worked, lookups give the same answer without the table for exactly five minutes (no such user) or five hours (a user) |
| `UserCache.TornNegativeEntryDeniesForEver` | internal/repository/user.go:70-74 | once a negative write is torn, for any user and cache, every lookup that reads the cache denies that user, whatever is registered later |
| `UserCache.StretchedEntryDenies` | internal/repository/user.go:85-91 | once the HSET that replaces a negative entry is refused and its EXPIRE works, every lookup that reads the cache denies a registered user for five hours |
| `Conversations.GroupedExactly` | internal/repository/conversationMember.go:106-113 | the group-by finds a conversation iff two distinct users share one |
| `Conversations.CheckSymmetric` | internal/repository/conversationMember.go:70-80 | answer and cache effect do not depend on which of the two users asks |
| `Conversations.PairedIsUnique` | internal/ws/client.go:177-208 | two users share at most one conversation |
| `Conversations.CheckIsExact` | internal/repository/conversationMember.go:70-136 | answered iff the cache answers, or the group-by works and the select after it when the pair shares a conversation; the answer is the pair's one conversation, or 0 |
| `Conversations.CheckAnswersExactly` | internal/repository/conversationMember.go:70-136 | the same on any tables: the answer is the cache's entry, else a conversation the two share, or 0 iff they share none |
| `Conversations.CheckIsRememberedExactly` | internal/repository/conversationMember.go:111-136 | once found and cached, either direction of the pair gets the same answer without the tables for exactly an hour, or five minutes if the type did not match |
| `Conversations.ResolveAnswersExactly` | internal/ws/client.go:166-208 | the handler has a conversation to go on with iff no statement it needed failed |
| `Conversations.ResolveWritesExactly` | internal/ws/client.go:178-208 | only a miss without a shared conversation creates one: type 1, the sender as creator, no summary, cached for five minutes, then the sender's row and the target's, each as far as its statement works |
| `Conversations.ResolveKeepsSane` | internal/ws/client.go:166-208 | whatever fails, tables only grow and the cache only names existing conversations, never 0 |
| `Conversations.ResolveOneRowExactly` | internal/ws/client.go:166-208 | a user gets a second member row in one conversation iff a chat with oneself creates its conversation completely |
| `Conversations.SelfChatIsNeverFound` | internal/repository/conversationMember.go:106-116 | only a cache entry can answer for a chat with oneself; the tables never do |
| `Conversations.ResolveKeepsHonestExactly` | internal/ws/client.go:191-207 | a cached conversation lacks a member iff `AddMember` failed after the id was cached |
| `Conversations.ResolveKeepsPairedExactly` | internal/ws/client.go:166-208 | members stay paired, pairs unique and the cache in agreement iff no creation stops half way |
| `Conversations.ResolvesToShared` | internal/ws/client.go:166-208 | a successful resolution names the one conversation the two users share |
| `Conversations.InterleavedCreationDuplicates` | internal/ws/client.go:166-208 | whenever two handlers of a pair both check before either creates, and both creations go through, the pair has two conversations, whatever tables and cache hold |
| `Lifecycle.RegistryTheorem` | internal/ws/manager.go:46-89 | in every reachable state `Send` was closed at most once, no registered connection is closed, and each slot holds a connection of its user on that node |
| `Slots.OutForever` | internal/ws/manager.go:46-76 | a connection past registration that is out of its slot never holds it again, in any run |
| `Slots.StaleUnregisterIsInert` | internal/ws/manager.go:66-89 | every later unregister of a displaced or kicked connection, by whichever goroutine, changes no registry, key or gauge, at its check or ever after |
| `Slots.ReleasedOnce` | internal/ws/manager.go:66-89 | however often a connection is kicked and torn down, a run deletes a key for it and decrements the gauge for it at most once |
| `Race.PushPanicsExactly` | internal/ws/client.go:291-292 | a push panics iff the reader of its target has finished its teardown |
| `Race.PushCanPanic` | internal/ws/client.go:79-85 | from every state in which a handler holds a reading client such a panic is reachable |
| `Race.DeleteHidesExactly` | internal/ws/manager.go:77-83 | a DEL leaves a connected user reading as offline iff it works on that user's key while some node has the user registered, or the user was hidden before |
| `Keys.NamesExactly` | internal/ws/manager.go:52-83 | in every reachable state a user's live key names a node iff the latest registration to reach Redis was there, no DEL or eviction came after it, and at no moment since was the last refresh 90 s old |
| `Counterexamples.RaceIsReached` | internal/ws/client.go:251-292 | a run from the initial state to a handler that holds a reading client |
| `Counterexamples.PanicIsReached` | internal/ws/client.go:79-85 | a run from the initial state to a push on a closed channel |
| `Counterexamples.ReconnectIsHidden` | internal/ws/manager.go:75-83 | a run from the initial state in which a reconnecting user holds a slot and reads as offline |
| `Addressing.AddressingTheorem` | internal/ws/client.go:256-278 | in every reachable state each presence key and each published forward names a node that accepted a connection of its user |
| `Accounting.GaugeTheorem` | internal/ws/manager.go:46-89 | in every reachable state gauge plus pending increments minus pending decrements is registered connections plus takeovers so far |
| `Accounting.GaugeExactWithoutTakeover` | internal/ws/manager.go:62-88 | with nothing pending the gauge is exact iff no connection was ever displaced |
| `Accounting.RoutingTheorem` | internal/ws/client.go:214-299 | in every reachable state each stored message is in exactly one outcome counter or its handler still runs; forward_published equals delivered cross_instance |
| `Accounting.RoutingSettledExactly` | internal/ws/client.go:214-299 | a node's books balance iff none of its handlers is running |
| `Accounting.LookupCounters` | internal/ws/client.go:255-287 | in every reachable state `redis_lookup_failed`, `offline` and `ghost_online` are the numbers of lookups so far that failed, found no live key, found the node's own name; those that found another node are the forwards published, failed, or still to come |
| `Accounting.PushCounts` | internal/ws/client.go:291-299 | a push counts as local iff it entered `Send`, as chan_full iff it started a kick instead |
| `Accounting.TakenHolds` | internal/router/subscribe.go:32-47 | a node takes only forwards that name it, each for a connection of the addressee |
| `Accounting.ForwardTakenOnce` | internal/router/subscribe.go:32-47 | with distinct names a forward is accepted by at most one node |
| `Accounting.PushOffers` | internal/ws/manager.go:123-130 | a subscriber push offers a record that names its node to one connection, which is the addressee's and on that node |
| `Accounting.ForwardOfferedOnce` | internal/router/subscribe.go:32-47 | with distinct names no two steps of a run, on whatever nodes, push the same forward |
| `Tables.InvStep` | internal/ws/client.go:213-239 | every transition keeps the tables well formed, adds rows only, moves cursors only up, and leaves every handler past the insert with a stored row |
| `Tables.TableTheorem` | internal/repository/message.go:11-26 | in every reachable state ids ascend and client ids are unique |
| `Tables.NothingFallsOut` | internal/ws/client.go:213-300 | in every reachable state a stored message is in the member's backlog or at or below a cursor update executed for that member |
| `Tables.SummaryProvenance` | internal/repository/conversation.go:60-75 | in every reachable state a summary shows id, text and time of one stored message handed over for that conversation |
| `NoGap.ProgramOrder` | internal/handler/user.go:38-49 | a later statement of `WsConnect` comes later in every run, whatever is interleaved |
| `NoGap.LaterQuerySees` | internal/repository/conversationMember.go:151-164 | a backlog query after the insert returns the message unless it was read |
| `NoGap.StoredAtLookup` | internal/ws/client.go:213-256 | a handler past the insert carries the id of exactly one stored message |
| `NoGap.LookupThenQuery` | internal/ws/client.go:213-256 | a lookup before the recipient's backlog query leaves no gap whatever it finds, fails or not: the query returns the message, or its user had read it |
| `NoGap.NoGapOnOneNode` | internal/ws/client.go:213-292 | the message of the handler's frame is stored at its lookup; a member's connection gets it with its backlog, or had read it, if the lookup comes before its query, and has it offered to its `Send` if the lookup comes after and it kept its slot |
| `NoGap.NoGapAcrossNodes` | internal/ws/client.go:255-287 | the same for the lookup in Redis: before the recipient's query the backlog has the message, be the answer offline, failed, stale or not forwarded; after it, a lookup that works and meets the key leads to the offer once the record is published and consumed |
| `EndToEnd.ArrivesOnOneNode` | internal/ws/client.go:213-436 | from insert to socket: once the recipient's writer waits with an empty `Send`, no refused push and no failed write, the socket tells the stored message, text and all, or its user had read it, if the lookup came before the query; and the frame with the sender's text if it came after and the handler is past its push |
| `EndToEnd.ArrivesAcrossNodes` | internal/ws/client.go:213-436 | the same across nodes, with no condition on a lookup before the recipient's query; after it the key's part is stated by the steps on it: the latest SET, no DEL or eviction, refreshed in time |
| `EndToEnd.AcceptedIsSomewhere` | internal/ws/client.go:315-391 | in every reachable state what entered `Send` is, in order and each frame once, on the socket behind the backlog, in the one failed write, in the writer's hand, or queued |
| `EndToEnd.HandlerSendsOwn` | internal/ws/client.go:242-248 | in every reachable state a frame in a handler's hand carries text, client id and sender of the handler's own chat |
| `Publisher.CopyExactly` | internal/mq/publisher.go:47-74 | a call of `PublishMessageSent` leaves one copy iff its publish went out over an open channel and the queue took it |
| `AtLeastOnce.AtLeastOnceDelivery` | internal/ws/client.go:302-313 | if cursors move only over received messages, every message to a user was written to one of the user's sockets or is unread |
| `AtLeastOnce.UpdateIsSafeExactly` | internal/repository/conversationMember.go:60-68 | one cursor update, ack or own send, keeps every message to its user safe, stored or to come, iff it is harmless |
| `AtLeastOnce.AtLeastOnceExactly` | internal/ws/client.go:234-239 | along a run every message to a user is at all times written or unread, with no cursor ahead of the messages, iff every cursor update of the user is harmless when executed |
| `Counterexamples.OwnSendCanSkip` | internal/ws/client.go:234-239 | a run in which a user's own send drops an unread message that no socket ever saw |
| `Counterexamples.AckAheadLosesNext` | internal/ws/client.go:302-313 | a run in which an ack ahead of the ids loses nothing at once and the next message when it is stored |
| `Socket.SocketOrder` | internal/ws/client.go:375-436 | in every reachable state a socket carries a prefix of the backlog, frame by frame the id, conversation, sender and text of the rows the query returned, then a prefix of what entered `Send` in order; at most 256 queued |
| `Socket.BacklogOrder` | internal/ws/client.go:405-435 | the backlog part has strictly ascending ids, unless some user chats with themself |
| `Delivery.NoMisdelivery` | internal/ws/client.go:147-292 | in clean runs every frame queued for or written to a client is about a stored message of a conversation of that client's user, true in sender and conversation |
| `Delivery.ConversationLookupTheorem` | internal/repository/conversationMember.go:70-136 | in every reachable state of a clean run the lookup answers iff no statement it needs fails, and the answer is the one conversation the pair shares, or 0; 0 is never cached |
| `Delivery.SummaryIsOwn` | internal/mq/consumer.go:40-48 | in a clean run a summary shows id, text and time of a message of its own conversation |
| `Staleness.StalenessBound` | internal/repository/user.go:40-99 | in every reachable state of a run in which no pipeline spoils a negative entry a lookup answers unless nothing can be read, finds a stored user unless a live negative entry is read, and is fresh |
| `Staleness.BoundedExactly` | internal/repository/user.go:66-91 | over a run, negative entries stay bounded by five minutes at every state exactly as long as no step loses the EXPIRE of a negative write or the HSET alone that replaces one |
| `Counterexamples.RegisteredUserIsDenied` | internal/repository/user.go:66-78 | a run from the initial state in which, any time after a user registered, every lookup that reads the cache denies the user |
| `Counterexamples.RegisteredUserIsDeniedForHours` | internal/repository/user.go:85-91 | a run from the initial state in which, at any time in the five hours after registration, every lookup that reads the cache denies the user |
| `Presence.LiveWhileReading` | internal/ws/client.go:86-98 | while a connection waits for input its key is live in every run iff the backlog push and the handlers of the frames one read can leave buffered together take at most 30 s |
| `Presence.LiveUntilLeft` | internal/ws/client.go:71-108 | the key is live until the reader leaves iff the push and the handlers of all frames of one read, buffered ones included, together take at most 30 s, the push less |
| `Presence.SilentKeyExpires` | internal/ws/client.go:341-350 | the key is live exactly until 90 s after its last refresh |
| `Budget.KeptWithinBudget` | internal/ws/client.go:71-117 | in every run the key of a connection whose push and handlers fit the 30 s never runs out before its reader leaves, and names its node unless another step set or removed it |
| `Goroutines.Server.HandleChatMsg` | internal/ws/client.go:119-300 | it ends with the process crashed or back at the read, having executed exactly the statements of its outcome; no target, no conversation and not stored each have their one reason, and without it the handler goes on with the row of its message; a stored message is handed over, the own cursor moved; its last steps determine the route, and with it where the frame is and which counter moved |
| `Goroutines.RouteIsDetermined` | internal/ws/client.go:255-299 | the same steps account for one route only |
| `Goroutines.Server.StoreChat` | internal/ws/client.go:146-222 | exactly the statements up to the insert: it stops iff the target is not found, a statement for the conversation fails, or the insert is not answered, and counts a failure only then; otherwise it goes on with the row stored before under the client id, or a new one with its own columns, counted as persisted |
| `Goroutines.Server.AnnounceChat` | internal/ws/client.go:230-248 | hands the update over, then moves the own cursor, after which nothing up to the message is in the sender's backlog |
| `Goroutines.Server.RouteChat` | internal/ws/client.go:250-299 | the registry lookup, then the statements of the route; `local` and `chan_full`, `cross_instance` and `forward_failed`, offline, failed lookup and ghost are told apart by what those steps met and counted |
| `Goroutines.Server.PushChat` | internal/ws/client.go:291-299 | `local` iff the buffer had room: the frame entered `Send`; otherwise `chan_full`, `Send` as before and one kick of that connection started; or the process died on a closed channel |
| `Goroutines.Server.ForwardChat` | internal/ws/client.go:255-289 | each outcome is what Redis answered to this lookup; `cross_instance` iff the publish that followed worked, `forward_failed` iff it did not, each with its counter |
| `Goroutines.Server.PublishForward` | internal/router/publish.go:11-20 | success iff the publish worked; then the record with target, node and payload is in the channel, and the counter of the outcome moved |
| `Goroutines.Server.HandleACKMsg` | internal/ws/client.go:302-313 | an executed ack leaves nothing of the conversation up to its id in the user's backlog |
| `Goroutines.Server.Register` | internal/ws/manager.go:46-64 | the connection takes its slot, then sets the key for 90 s if the command works, then counts itself, and nothing else |
| `Goroutines.Server.Unregister` | internal/ws/manager.go:66-89 | the check alone if another connection has the slot, else out of the registry, key deleted, counted down; the connection is registered nowhere afterwards and never again |
| `Goroutines.Server.HandleFrame` | internal/ws/client.go:94-113 | a frame is read and handled completely, with the statements and results of its kind, or a pong renews a live key for 90 s, and the reader returns to its read |
| `Goroutines.Server.ListenMsg` | internal/ws/client.go:78-117 | every frame and pong was handled in order, with the steps and the result of each, which still holds; then exactly the teardown, after which the connection is in no registry and its channel was closed once |
| `Goroutines.Server.Teardown` | internal/ws/client.go:79-85 | read error, unregister, socket, channel, in this order: the connection is out of the registry before its socket closes |
| `Goroutines.Server.DeliverUnreadMsg` | internal/ws/client.go:393-436 | the query is the first statement, and the socket has then told in order, text and all, every message it found, or some write failed |
| `Goroutines.Server.DeliverMsg` | internal/ws/client.go:375-391 | each round writes one frame or met an empty queue; it stops early only after a failed write or on a closed empty channel; the socket holds the backlog prefix and then a prefix of what entered `Send` |
| `Goroutines.Server.WsConnect` | internal/handler/user.go:38-49 | first registration, then the backlog query, then the loops; the backlog is in front on the socket, told row by row |
| `Goroutines.Server.HandlerForwardMsg` | internal/router/subscribe.go:32-47 | consumes and counts one record; pushes it to the addressee's connection iff it names this node and the addressee is registered, into `Send` iff fewer than 256 are queued |
| `Repository.Repository.CreateUser` | internal/repository/user.go:20-23 | one new row under the next id, column by column, nothing else |
| `Repository.Repository.GetUserByUserID` | internal/repository/user.go:40-99 | refines the specified lookup; answers iff a live entry is read or the select works; "none" iff not stored or a live negative entry was read; fresh when the cache is sound |
| `Repository.Repository.Pipelined` | internal/repository/user.go:70-91 | HSET and EXPIRE together have the specified effect for each of the four ways the two can end |
| `Repository.Repository.CreateMessage` | internal/repository/message.go:11-26 | answered iff the insert works and, for a stored client id, the select; a replay returns the stored row and adds none, a new client id adds one row with its own columns, an error adds none |
| `Repository.Repository.UpdateLastReadMsgID` | internal/repository/conversationMember.go:60-68 | each matching row ends at the maximum, no other row moves |
| `Repository.Repository.GetUnreadConversationMsgByUserID` | internal/repository/conversationMember.go:151-164 | exactly the messages above a cursor of the user, ascending when rows are unique |
| `Repository.Repository.CheckConversationExist` | internal/repository/conversationMember.go:70-136 | refines the specified lookup; answers iff the cache does or the statements it needs work; exact when cache and tables agree |
| `Repository.Repository.CreateConversation` | internal/repository/conversation.go:16-30 | a new row with the next id and no summary, or nothing |
| `Repository.Repository.CacheConversationID` | internal/repository/conversation.go:32-45 | the entry is stored for five minutes under the key shared by both directions |
| `Repository.Repository.AddMember` | internal/repository/conversationMember.go:20-24 | one new row with cursor 0, or nothing |
| `Repository.Repository.ResolveConversation` | internal/ws/client.go:166-208 | succeeds iff no statement it needed failed; afterwards the pair shares exactly the returned conversation, and the agreement survives iff no creation stopped half way |
| `Repository.Repository.UpdateConversation` | internal/repository/conversation.go:60-75 | id, text and time from one message and no error iff the conversation exists and did not show them already; else an error and no change |
| `Manager.ConnManager.Register` | internal/ws/manager.go:46-64 | the newest connection has the slot, the key names this node, the gauge is one up, the registry stays valid |
| `Manager.ConnManager.Unregister` | internal/ws/manager.go:66-89 | by identity: the holder gives up slot, key and count, anyone else changes nothing; the client is registered nowhere afterwards |
| `Manager.ConnManager.GetClientByUserID` | internal/ws/manager.go:133-138 | returns the registered connection of the user, or none iff none is registered; it belongs to the user and is not closed |
| `Manager.ConnManager.DeliverTotalMsg` | internal/ws/client.go:315-325 | enqueues iff open and not full; a full buffer starts a kick and drops the message; a closed channel panics |
| `Manager.ConnManager.DeliverTotalMsgByUserID` | internal/ws/manager.go:123-130 | true iff the user's buffer took the message; no other queue moves |
| `Manager.ConnManager.HandlerForwardMsg` | internal/router/subscribe.go:32-47 | every record counts as received; only one that decodes and names this node is pushed, only to its target |
| `Manager.ConnManager.RunKick` | internal/ws/client.go:322 | a kick removes only the connection it was started for |
| `Manager.ConnManager.Teardown` | internal/ws/client.go:79-85 | the registry stays valid because the client leaves it before its channel closes |
| `Manager.ConnManager.CloseAll` | internal/ws/manager.go:91-119 | every registered socket is closed and every key deleted; registry, queues and gauge are left to the teardowns |
| `Manager.ConnManager.Takeover` | internal/ws/manager.go:46-89 | after a takeover and the teardown of the displaced connection the second holds slot and key, and the gauge stays one up for every connection displaced |
| `Broker.ConservationTheorem` | internal/mq/consumer.go:28-53 | over every run enqueued equals ready plus unacked plus acked plus dead-lettered, and an acked update was written |
| `Broker.SettledOnce` | internal/mq/consumer.go:28-53 | a settled delivery keeps its status for ever |
| `Broker.SummaryFromQueue` | internal/repository/conversation.go:60-75 | a summary shows id, text and time of one update for that conversation, enqueued or written directly by its sender |
| `Broker.SummaryIsLatest` | internal/mq/consumer.go:40-47 | in every reachable state of the queue a summary shows the update written last, by a consumer or its sender, or is empty if none was |
| `Redelivery.FateExactly` | internal/mq/consumer.go:30-51 | a delivery whose settlement reaches the broker is acked if its update changed a row when it was applied, and dead-lettered if it did not |
| `Redelivery.RedeliveredIsDeadLettered` | internal/mq/consumer.go:40-47 | an update applied before whose values the row still holds ends dead-lettered when it is applied again |
| `Redelivery.AppliedYetDeadLettered` | internal/mq/consumer.go:28-53 | a run in which the channel closes before the ack and the redelivered, written update is dead-lettered |
| `Consumer.Consumer.HandleDelivery` | internal/mq/consumer.go:30-51 | the next delivery is settled once: acked iff its update changed a row, rejected iff it did not or does not decode; unsettled only if the settlement failed or the channel closed |
| `Consumer.Consumer.StartConversationUpdateConsumer` | internal/mq/consumer.go:28-53 | deliveries are handled in the order they came, each verdict rests on its own update, and it still holds when the loop stops |
| `Publisher.AttemptsLaw` | internal/mq/publisher.go:77-106 | for any limit n and however the attempts end: at most one copy per attempt and n attempts, a confirm leaves a copy, and m attempts sleep exactly 100·(2^(m−1)−1) ms |
| `Publisher.ThreeAttempts` | internal/mq/publisher.go:78-79 | with the limit of three at most three copies and 300 ms |
| `Reconnect.Amqp.PublishMessageSent` | internal/mq/publisher.go:40-74 | panics iff `publishCh` is nil, or open without confirm mode and the send works; confirmed iff it is open in confirm mode and the broker acks; not sent over a closed one |
| `Publisher.Publisher.PublishWithFallback` | internal/mq/publisher.go:77-106 | each attempt is one `PublishMessageSent` on the client as the watcher left it; all but the last failed retryably; among all steps of the run those of this sender grow by one copy per call that reached the queue, at most one per attempt, and by exactly one direct write iff the last call was neither confirmed nor panicked |
| `Publisher.UpdateIsAccounted` | internal/mq/publisher.go:77-106 | in every run in which a sender made these steps, and at every later moment, the queue accounts for each of its copies besides the earlier ones, an acked one was applied, and an unconfirmed update was written directly if that changes a row; nothing at all is left exactly after a panic without a copy |
| `Publisher.HealthyNeverPanics` | internal/mq/publisher.go:40-74 | while every attempt meets a healthy client no publish panics |
| `Reconnect.Amqp.Reconnect` | pkg/rabbitmq/rabbitmq.go:16-32 | the old connection and every channel on it are dead, so publishing can panic only on a nil channel; success is a new open connection, a failed dial leaves none |
| `Reconnect.Amqp.GetChannel` | pkg/rabbitmq/rabbitmq.go:41-48 | a channel on the current connection iff there is an open one |
| `Reconnect.Amqp.DeclareTopology` | internal/mq/topology.go:8-57 | leaves no channel of its own open on any path |
| `Reconnect.Amqp.InitPublisher` | internal/mq/publisher.go:27-38 | success leaves a fresh channel in confirm mode; publishing can panic afterwards iff it failed |
| `Reconnect.Amqp.StartConversationUpdateConsumer` | internal/mq/consumer.go:12-27 | success starts one consumer on a channel of its own |
| `Reconnect.Amqp.RebuildAll` | internal/mq/reconnect.go:72-83 | success means healthy: one confirming publisher channel and one running consumer, both on the newest connection, everything else dead |
| `Reconnect.Amqp.ReconnectWithBackoff` | internal/mq/reconnect.go:42-69 | succeeds iff some attempt of the list works throughout, at the first such attempt; then healthy on a new connection, whatever earlier attempts left half built; every failed attempt waited |
| `Reconnect.Amqp.WatchAndReconnect` | internal/mq/reconnect.go:14-39 | gives up iff a connection is lost with all six attempts failing before any shutdown of our own, having waited 1, 2, 4, 8, 16 and 30 s after them; it waited once more than it recovered, healthy at each wait and on a newer connection each time |

## Left out

- `NoGap.NoGapOnOneNode`: ends with the push offered to `Send`; `EndToEnd` follows the frame to the socket, and what the network does with a written frame is not modelled.
- `Delivery.NoMisdelivery`: assumes a client id is reused only for the same sender and target, chats between two users, and creations that do not stop half way; a replay under another target goes on with a foreign row (`Store.ReuseReturnsForeignRowExactly`).
- `Staleness.StalenessBound`: excludes pipelines that spoil a negative entry, for which the bound is false.
- `Goroutines.Server.ListenMsg`: the frames and pongs to read are a given finite list, since the loop of the source ends only with the connection.
- `Goroutines.Server.DeliverMsg`: observed for a given number of turns, for the same reason.
- `Consumer.Consumer.StartConversationUpdateConsumer`: observed for a given number of deliveries, for the same reason.
- `Presence.LiveUntilLeft`: one connection in whole seconds with Redis commands that succeed at once; deletion by another connection is in `Race` and `Keys`.
- `Budget.KeptWithinBudget`: a run in which an EXPIRE of the connection fails is not timely.
- `Publisher.Publisher.PublishWithFallback`: in `Cluster` the handler's publish is one step with its outcome; the attempts, the panic and the client it runs on are here.
- Resolve-or-create, and a user lookup with its write-back, are one transition each in `Cluster`; the statements inside are separate in `Repository`, and the interleaving that breaks uniqueness is a lemma.
- Distinct users in a chat: the group-by never finds a conversation with oneself, so such a chat creates a new conversation whenever the cache does not answer (`Conversations.SelfChatIsNeverFound`).
- Order in the ready queue: the queue is a multiset, so the proofs hold for any delivery order.
- Restart of a process after a crash; a crashed process takes no further steps.
- `CloseAll` and shutdown inside runs of `Cluster`; `Manager.ConnManager.CloseAll` is on its own.
- Widths of ids: unbounded here, except the 32-bit parse of the cached conversation id.
- The duplicate branch of `CreateConversation`, which no unique key of the shown schema can reach.
- Data races on the package variable `publishCh`, and the window before a close notification is registered again.
- Ping frames, write deadlines and the JSON, gorm, go-redis, gorilla and AMQP libraries: each call is one atomic step with a possible failure.
- HTTP handlers other than `WsConnect`, login, password hashing, tokens, configuration, logging, sampling of metrics, the load generator.
- `GetConversationsByUserID`, `CheckUnreadMessage`, `GetConversationByID`: not called.
- Group conversations: nothing in the source creates one.
