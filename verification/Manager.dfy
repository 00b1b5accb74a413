/** One server process: the connection registry, its clients as objects compared by
    identity, and the presence keys in Redis. Each method runs here without
    interruption; `Cluster` splits the same methods into steps. */
module Manager {
  import opened Basics
  import opened Cluster

  class Redis {
    var presence: map<nat, Lease>
    var now: nat

    constructor ()
      ensures presence == map[] && now == 0
    {
      presence, now := map[], 0;
    }

    method Set(u: nat, node: string, works: bool)
      modifies this`presence
      ensures presence == if works then old(presence)[u := Lease(node, now + PRESENCE_TTL)] else old(presence)
    {
      if works {
        presence := presence[u := Lease(node, now + PRESENCE_TTL)];
      }
    }

    method Del(us: set<nat>, works: bool)
      modifies this`presence
      ensures presence == if works then old(presence) - us else old(presence)
    {
      if works {
        presence := presence - us;
      }
    }
  }

  class Client {
    const user: nat
    var send: seq<Payload>
    var closes: nat       // how often Send was closed
    var connOpen: bool

    constructor (user: nat)
      ensures this.user == user && send == [] && closes == 0 && connOpen
    {
      this.user, send, closes, connOpen := user, [], 0, true;
    }
  }

  datatype Delivered = Enqueued | Kicked | Panicked

  class ConnManager {
    const node: string
    const redis: Redis
    var clients: map<nat, Client>
    var gauge: int
    var kicks: seq<Client>        // Unregister goroutines started and not run yet
    var received: nat             // records taken from the channel
    ghost var takeovers: nat

    /** Each key maps to a connection of that user whose `Send` is open, nothing more
        than one full buffer is queued there, and the gauge counts the registered
        connections and the displaced ones. */
    ghost predicate Valid()
      reads this, clients.Values
    {
      && (forall u :: u in clients ==>
            clients[u].user == u && clients[u].closes == 0 && |clients[u].send| <= SEND_BUFFER_SIZE)
      && gauge == |clients| + takeovers
    }

    constructor (node: string, redis: Redis)
      ensures Valid() && clients == map[] && kicks == [] && gauge == 0 && received == 0
      ensures this.node == node && this.redis == redis
    {
      this.node, this.redis := node, redis;
      clients, gauge, kicks, received, takeovers := map[], 0, [], 0, 0;
    }

    /** The newest connection takes the user's slot. */
    method Register(c: Client, setWorks: bool)
      requires Valid() && c.closes == 0 && |c.send| <= SEND_BUFFER_SIZE
      modifies this`clients, this`gauge, this`takeovers, redis`presence
      ensures Valid()
      ensures clients == old(clients)[c.user := c]
      ensures gauge == old(gauge) + 1
      ensures takeovers == old(takeovers) + if c.user in old(clients) then 1 else 0
      ensures redis.presence == if setWorks then old(redis.presence)[c.user := Lease(node, redis.now + 90)]
                                else old(redis.presence)
    {
      PutSize(clients, c.user, c);
      takeovers := takeovers + if c.user in clients then 1 else 0;
      clients := clients[c.user := c];
      redis.Set(c.user, node, setWorks);
      gauge := gauge + 1;
    }

    /** A displaced or kicked connection changes nothing; the holder of the slot gives
        it up. Either way `c` is not registered afterwards. */
    method Unregister(c: Client, delWorks: bool)
      requires Valid()
      modifies this`clients, this`gauge, redis`presence
      ensures Valid()
      ensures forall u :: u in clients ==> clients[u] != c
      ensures if c in old(clients).Values
              then clients == old(clients) - {c.user} && gauge == old(gauge) - 1
                   && redis.presence == if delWorks then old(redis.presence) - {c.user} else old(redis.presence)
              else clients == old(clients) && gauge == old(gauge) && redis.presence == old(redis.presence)
    {
      if c.user !in clients || clients[c.user] != c {
        return;
      }
      DropSize(clients, c.user);
      clients := clients - {c.user};
      redis.Del({c.user}, delWorks);
      gauge := gauge - 1;
    }

    method GetClientByUserID(u: nat) returns (c: Option<Client>)
      requires Valid()
      ensures c.Some? <==> u in clients
      ensures c.Some? ==> c.value == clients[u] && c.value.user == u && c.value.closes == 0
    {
      if u !in clients {
        return None;
      }
      c := Some(clients[u]);
    }

    /** A full buffer never blocks: it starts a kick and drops the message. */
    method DeliverTotalMsg(c: Client, p: Payload) returns (r: Delivered)
      requires Valid() && |c.send| <= SEND_BUFFER_SIZE
      modifies this`kicks, c`send
      ensures Valid() && |c.send| <= SEND_BUFFER_SIZE
      ensures r.Panicked? <==> c.closes > 0
      ensures r.Enqueued? <==> c.closes == 0 && |old(c.send)| < 256
      ensures c.send == if r.Enqueued? then old(c.send) + [p] else old(c.send)
      ensures kicks == if r.Kicked? then old(kicks) + [c] else old(kicks)
    {
      if c.closes > 0 {
        return Panicked;
      }
      if |c.send| == SEND_BUFFER_SIZE {
        kicks := kicks + [c];
        return Kicked;
      }
      c.send := c.send + [p];
      r := Enqueued;
    }

    /** A registered client never panics the sender. */
    method DeliverTotalMsgByUserID(u: nat, p: Payload) returns (ok: bool)
      requires Valid()
      modifies this`kicks, clients.Values`send
      ensures Valid()
      ensures ok <==> u in clients && |old(clients[u].send)| < 256
      ensures ok ==> clients[u].send == old(clients[u].send) + [p]
      ensures forall v :: v in clients && (v != u || !ok) ==> clients[v].send == old(clients[v].send)
      ensures kicks == if u in clients && !ok then old(kicks) + [clients[u]] else old(kicks)
    {
      if u !in clients {
        return false;
      }
      var r := DeliverTotalMsg(clients[u], p);
      ok := r.Enqueued?;
    }

    /** Every record counts as received. One that decodes and names this node is pushed to
        a local connection of its target; any other changes nothing. */
    method HandlerForwardMsg(record: Option<ForwardMsg>) returns (ok: bool)
      requires Valid()
      modifies this`kicks, this`received, clients.Values`send
      ensures Valid() && received == old(received) + 1
      ensures ok <==> record.Some? && record.value.node == node && record.value.user in clients
                      && |old(clients[record.value.user].send)| < 256
      ensures ok ==> clients[record.value.user].send == old(clients[record.value.user].send) + [record.value.payload]
      ensures forall v :: v in clients && !(ok && v == record.value.user) ==> clients[v].send == old(clients[v].send)
      ensures kicks == if record.Some? && record.value.node == node && record.value.user in clients && !ok
                       then old(kicks) + [clients[record.value.user]] else old(kicks)
    {
      received := received + 1;
      if record.None? || record.value.node != node {
        return false;
      }
      ok := DeliverTotalMsgByUserID(record.value.user, record.value.payload);
    }

    /** A kick that runs takes only the connection it was started for out of the map. */
    method RunKick(delWorks: bool)
      requires Valid() && kicks != []
      modifies this`clients, this`gauge, this`kicks, redis`presence
      ensures Valid() && kicks == old(kicks[1..])
      ensures clients == if old(kicks[0]) in old(clients).Values then old(clients) - {old(kicks[0]).user}
                         else old(clients)
    {
      var c := kicks[0];
      kicks := kicks[1..];
      Unregister(c, delWorks);
    }

    /** The deferred teardown of `ListenMsg`: out of the registry before `Send` closes. */
    method Teardown(c: Client, delWorks: bool)
      requires Valid() && c.closes == 0
      modifies this`clients, this`gauge, redis`presence, c`connOpen, c`closes
      ensures Valid() && c.closes == 1 && !c.connOpen
      ensures forall u :: u in clients ==> clients[u] != c
      ensures clients == if c in old(clients).Values then old(clients) - {c.user} else old(clients)
      ensures redis.presence == if c in old(clients).Values && delWorks then old(redis.presence) - {c.user}
                                else old(redis.presence)
    {
      Unregister(c, delWorks);
      c.connOpen := false;
      c.closes := c.closes + 1;
    }

    /** Shutdown closes every registered connection and deletes its presence key. The
        registry and the gauge are left to the teardowns this provokes. */
    method CloseAll(delWorks: bool)
      requires Valid()
      modifies redis`presence, clients.Values`connOpen
      ensures Valid()
      ensures forall u :: u in clients ==> !clients[u].connOpen
      ensures redis.presence == if delWorks then old(redis.presence) - clients.Keys else old(redis.presence)
    {
      if |clients| == 0 {
        assert clients.Keys == {} && old(redis.presence) - clients.Keys == old(redis.presence);
        return;
      }
      var keys: set<nat>, conns: seq<Client>, todo := {}, [], clients.Keys;
      while todo != {}
        invariant todo <= clients.Keys && keys == clients.Keys - todo
        invariant forall c :: c in conns ==> c in clients.Values
        invariant forall u :: u in keys ==> clients[u] in conns
        decreases todo
      {
        var u :| u in todo;
        todo, keys, conns := todo - {u}, keys + {u}, conns + [clients[u]];
      }
      redis.Del(keys, delWorks);
      var i := 0;
      while i < |conns|
        invariant i <= |conns|
        invariant forall j :: 0 <= j < i ==> !conns[j].connOpen
        invariant Valid()
        modifies clients.Values`connOpen
      {
        conns[i].connOpen := false;
        i := i + 1;
      }
    }

    /** Two connections of one user: the second displaces the first, whose teardown then
        leaves registry and presence as the second left them. The gauge keeps counting
        every displaced connection for good. */
    method Takeover(first: Client, second: Client, setWorks: bool, delWorks: bool)
      requires Valid() && first != second && first.user == second.user
      requires first.closes == 0 && second.closes == 0 && |first.send| <= SEND_BUFFER_SIZE
      requires |second.send| <= SEND_BUFFER_SIZE
      modifies this`clients, this`gauge, this`takeovers, redis`presence, first`connOpen, first`closes
      ensures Valid() && clients == old(clients)[second.user := second]
      ensures gauge == old(gauge) + 2 && |clients| == |old(clients)| + if first.user in old(clients) then 0 else 1
      ensures setWorks ==> second.user in redis.presence && redis.presence[second.user].node == node
    {
      Register(first, setWorks);
      Register(second, setWorks);
      Teardown(first, delWorks);
      PutSize(old(clients), second.user, second);
    }
  }
}
