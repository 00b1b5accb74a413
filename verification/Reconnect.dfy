/** RabbitMQ connection generations: reconnecting with backoff and rebuilding the
    topology, the publisher channel and the consumer on the newest connection. */
module Reconnect {
  import opened Basics

  const BACKOFFS: seq<nat> := [1, 2, 4, 8, 16, 30]

  /** A channel lives on one connection; `open` is false once it or its connection closed. */
  datatype Channel = Channel(conn: nat, open: bool, confirm: bool)

  /** Which calls of one attempt succeed, in program order. */
  datatype Attempt = Attempt(dial: bool, topologyChannel: bool, declare: bool, publisherChannel: bool,
                             confirm: bool, consumerChannel: bool, consume: bool)

  /** What the broker does with one publish over an open channel, and what comes back. */
  datatype Outcome = SendFails | Nack(enqueued: bool) | NoAnswer(enqueued: bool) | Ack

  /** How one publish ends for its caller. Without an answer, and after a panic, it is open
      whether the queue holds a copy. */
  datatype Published = Panics(enqueued: bool) | NotSent | TimedOut(enqueued: bool) | Nacked(enqueued: bool) | Confirmed

  predicate Works(a: Attempt) {
    a.dial && a.topologyChannel && a.declare && a.publisherChannel && a.confirm && a.consumerChannel && a.consume
  }

  function CloseOn(channels: seq<Channel>, conn: nat): (r: seq<Channel>)
    ensures |r| == |channels|
    ensures forall i :: 0 <= i < |r| ==> r[i] == channels[i].(open := channels[i].open && channels[i].conn != conn)
  {
    seq(|channels|, i requires 0 <= i < |channels| =>
      if channels[i].conn == conn then channels[i].(open := false) else channels[i])
  }

  function Total(waits: seq<nat>): nat {
    if waits == [] then 0 else Total(waits[..|waits| - 1]) + waits[|waits| - 1]
  }

  /** The state of the client between two calls. */
  datatype Client = Client(conns: seq<bool>, conn: Option<nat>, channels: seq<Channel>, publishCh: Option<nat>,
                           consumers: seq<nat>)

  predicate Runs(x: Client, i: nat) {
    i < |x.consumers| && x.consumers[i] < |x.channels| && x.channels[x.consumers[i]].open
  }

  /** The publisher channel is in confirm mode and exactly one consumer runs, both on
      the newest connection, and every other channel is dead. */
  predicate IsHealthy(x: Client) {
    var n, k := |x.conns| - 1, |x.consumers| - 1;
    && n >= 0 && x.conn == Some(n) && x.conns[n]
    && x.publishCh.Some? && x.publishCh.value < |x.channels| && x.channels[x.publishCh.value] == Channel(n, true, true)
    && k >= 0 && Runs(x, k) && x.channels[x.consumers[k]].conn == n && x.consumers[k] != x.publishCh.value
    && (forall i :: 0 <= i < k ==> !Runs(x, i))
    && (forall i :: 0 <= i < |x.channels| && x.channels[i].open ==> i == x.publishCh.value || i == x.consumers[k])
  }

  function Stored(o: Outcome): bool {
    match o
    case SendFails => false
    case Nack(e) => e
    case NoAnswer(e) => e
    case Ack => true
  }

  /** One publish over the channel the client has at that moment: without confirm mode
      there is no confirmation object to wait for. */
  function PublishOn(x: Client, o: Outcome): Published {
    match x.publishCh
    case None => Panics(false)
    case Some(i) =>
      if i >= |x.channels| || !x.channels[i].open || o.SendFails? then NotSent
      else if !x.channels[i].confirm then Panics(Stored(o))
      else match o
        case Nack(e) => Nacked(e)
        case NoAnswer(e) => TimedOut(e)
        case _ => Confirmed
  }

  /** Over a healthy client a publish never panics, and the broker decides how it ends. */
  lemma HealthyPublishes(x: Client, o: Outcome)
    requires IsHealthy(x)
    ensures !PublishOn(x, o).Panics?
    ensures (PublishOn(x, o).NotSent? <==> o.SendFails?) && (PublishOn(x, o).TimedOut? <==> o.NoAnswer?)
    ensures (PublishOn(x, o).Nacked? <==> o.Nack?) && (PublishOn(x, o).Confirmed? <==> o.Ack?)
  {
  }

  /** The first attempt in which every call succeeds, or the length of the list. */
  function FirstWorking(turns: seq<Attempt>): (n: nat)
    ensures n <= |turns| && (n < |turns| ==> Works(turns[n]))
    ensures forall i :: 0 <= i < n ==> !Works(turns[i])
  {
    if turns == [] then 0 else if Works(turns[0]) then 0 else 1 + FirstWorking(turns[1..])
  }

  /** One close notification: our own shutdown, or a lost connection with the attempts
      that will be made to come back. */
  type Close = Option<seq<Attempt>>

  predicate Recovers(c: Close) {
    c.Some? && FirstWorking(c.value) < |c.value|
  }

  /** How many notifications the watcher recovers from before it stops. */
  function Recovered(closes: seq<Close>): (n: nat)
    ensures n <= |closes| && (n < |closes| ==> !Recovers(closes[n]))
    ensures forall i :: 0 <= i < n ==> Recovers(closes[i])
  {
    if closes == [] || !Recovers(closes[0]) then 0 else 1 + Recovered(closes[1..])
  }

  /** The client is healthy each time it waits for a notification, on a connection newer
      than at the wait before. */
  predicate Renewed(waits: seq<Client>) {
    && (forall i :: 0 <= i < |waits| ==> IsHealthy(waits[i]))
    && (forall i :: 0 < i < |waits| ==> |waits[i].conns| > |waits[i - 1].conns|)
  }

  lemma RenewedAgain(waits: seq<Client>, x: Client)
    requires waits != [] && Renewed(waits) && IsHealthy(x) && |x.conns| > |waits[|waits| - 1].conns|
    ensures Renewed(waits + [x])
  {
  }

  /** Seconds spent between the attempts of the first `k` closes, with waits of 1, 2, 4, 8, 16
      and 30 seconds after the failed attempts of each. */
  function Waited(closes: seq<Close>, k: nat): nat
    requires k <= |closes| && forall i :: 0 <= i < |closes| && closes[i].Some? ==> |closes[i].value| == 6
  {
    if k == 0 then 0
    else
      Waited(closes, k - 1)
      + if closes[k - 1].Some? then [0, 1, 3, 7, 15, 31, 61][FirstWorking(closes[k - 1].value)] else 0
  }

  lemma WaitsAddUp(n: nat)
    requires n <= 6
    ensures |BACKOFFS| == 6 && Total(BACKOFFS[..n]) == [0, 1, 3, 7, 15, 31, 61][n]
  {
    if n > 0 {
      assert BACKOFFS[..n][..n - 1] == BACKOFFS[..n - 1];
      WaitsAddUp(n - 1);
    }
  }

  class Amqp {
    var conns: seq<bool>           // every connection ever dialled: still open?
    var conn: Option<nat>          // the package variable Conn
    var channels: seq<Channel>     // every channel ever opened
    var publishCh: Option<nat>     // the package variable publishCh
    var consumers: seq<nat>        // channels of the consumer goroutines started
    var slept: nat                 // seconds

    /** Only the current connection can be open, and a channel dies with its connection. */
    ghost predicate Valid()
      reads this
    {
      && (conn.Some? ==> conn.value < |conns|)
      && (forall c :: 0 <= c < |conns| && conns[c] ==> conn == Some(c))
      && (forall i :: 0 <= i < |channels| ==>
            channels[i].conn < |conns| && (channels[i].open ==> conns[channels[i].conn]))
      && (publishCh.Some? ==> publishCh.value < |channels|)
      && (forall i :: 0 <= i < |consumers| ==> consumers[i] < |channels|)
    }

    predicate Connected()
      reads this
    {
      conn.Some? && conn.value < |conns| && conns[conn.value]
    }

    /** `publishCh` is nil, or an open channel that never entered confirm mode and so
        returns no confirmation to wait for. On a closed channel the publish fails. */
    predicate PublishPanics()
      reads this
    {
      match publishCh
      case None => true
      case Some(i) => i < |channels| && channels[i].open && !channels[i].confirm
    }

    ghost predicate NothingOpen()
      reads this
    {
      forall i :: 0 <= i < |channels| ==> !channels[i].open
    }

    /** The client as it is now. */
    ghost function Now(): Client
      reads this
    {
      Client(conns, conn, channels, publishCh, consumers)
    }

    ghost predicate Healthy()
      reads this
    {
      IsHealthy(Now())
    }

    constructor ()
      ensures Valid() && NothingOpen() && slept == 0
    {
      conns, conn, channels, publishCh, consumers, slept := [], None, [], None, [], 0;
    }

    /** Close the old connection if it is still open, then dial; a failed dial leaves Conn nil. */
    method Reconnect(works: bool) returns (ok: bool)
      requires Valid()
      modifies this
      ensures Valid() && NothingOpen() && ok == works
      ensures PublishPanics() <==> publishCh.None?
      ensures ok ==> |conns| == |old(conns)| + 1 && conn == Some(|conns| - 1) && conns[|conns| - 1]
      ensures !ok ==> |conns| == |old(conns)| && conn.None?
      ensures publishCh == old(publishCh) && consumers == old(consumers) && slept == old(slept)
      ensures |channels| == |old(channels)|
    {
      if conn.Some? && conns[conn.value] {
        channels := CloseOn(channels, conn.value);
        conns := conns[conn.value := false];
      }
      ok := works;
      conn := if works then Some(|conns|) else None;
      conns := if works then conns + [true] else conns;
    }

    method GetChannel(works: bool) returns (ch: Option<nat>)
      requires Valid()
      modifies this`channels
      ensures Valid()
      ensures ch.Some? <==> works && conn.Some? && conns[conn.value]
      ensures ch.Some? ==> ch.value == |old(channels)| && channels == old(channels) + [Channel(conn.value, true, false)]
      ensures ch.None? ==> channels == old(channels)
    {
      if conn.None? || !conns[conn.value] || !works {
        return None;
      }
      ch := Some(|channels|);
      channels := channels + [Channel(conn.value, true, false)];
    }

    /** Opens a channel of its own and closes it on every path. */
    method DeclareTopology(a: Attempt) returns (ok: bool)
      requires Valid()
      modifies this`channels
      ensures Valid() && ok == (Connected() && a.topologyChannel && a.declare)
      ensures |old(channels)| <= |channels| && channels[..|old(channels)|] == old(channels)
      ensures forall i :: |old(channels)| <= i < |channels| ==> !channels[i].open
    {
      var ch := GetChannel(a.topologyChannel);
      if ch.None? {
        return false;
      }
      ok := a.declare;
      channels := channels[ch.value := channels[ch.value].(open := false)];
    }

    /** `publishCh` is overwritten even when no channel could be opened. */
    method InitPublisher(a: Attempt) returns (ok: bool)
      requires Valid()
      modifies this`channels, this`publishCh
      ensures Valid() && ok == (Connected() && a.publisherChannel && a.confirm)
      ensures ok <==> !PublishPanics()
      ensures |old(channels)| <= |channels| && channels[..|old(channels)|] == old(channels)
      ensures ok ==> publishCh == Some(|old(channels)|) && channels == old(channels) + [Channel(conn.value, true, true)]
    {
      publishCh := GetChannel(a.publisherChannel);
      if publishCh.None? {
        return false;
      }
      if !a.confirm {
        return false;
      }
      channels := channels[publishCh.value := channels[publishCh.value].(confirm := true)];
      ok := true;
    }

    /** One publish. Exactly after a rebuild that left the publisher half made can it
        panic, and then it does unless the send itself fails; it is confirmed only over an
        open channel in confirm mode; and over a closed one nothing is enqueued. */
    method PublishMessageSent(outcome: Outcome) returns (r: Published)
      requires Valid()
      ensures r == PublishOn(Now(), outcome)
      ensures r.Panics? <==> PublishPanics() && (publishCh.Some? ==> !outcome.SendFails?)
      ensures r.Confirmed? <==> !PublishPanics() && channels[publishCh.value].open && outcome.Ack?
      ensures r.NotSent? <==> publishCh.Some? && (!channels[publishCh.value].open || outcome.SendFails?)
    {
      if publishCh.None? {
        return Panics(false);
      }
      if !channels[publishCh.value].open || outcome.SendFails? {
        return NotSent;
      }
      if !channels[publishCh.value].confirm {
        return Panics(Stored(outcome));
      }
      match outcome
      case Nack(e) => r := Nacked(e);
      case NoAnswer(e) => r := TimedOut(e);
      case _ => r := Confirmed;
    }

    method StartConversationUpdateConsumer(a: Attempt) returns (ok: bool)
      requires Valid()
      modifies this`channels, this`consumers
      ensures Valid() && ok == (Connected() && a.consumerChannel && a.consume)
      ensures |old(channels)| <= |channels| && channels[..|old(channels)|] == old(channels)
      ensures ok ==>
                channels == old(channels) + [Channel(conn.value, true, false)]
                && consumers == old(consumers) + [|old(channels)|]
      ensures !ok ==> consumers == old(consumers)
    {
      var ch := GetChannel(a.consumerChannel);
      if ch.None? || !a.consume {
        return false;
      }
      consumers := consumers + [ch.value];
      ok := true;
    }

    method RebuildAll(a: Attempt) returns (ok: bool)
      requires Valid() && NothingOpen() && |conns| > 0 && conn == Some(|conns| - 1) && conns[|conns| - 1]
      modifies this`channels, this`publishCh, this`consumers
      ensures Valid()
      ensures ok ==
                (a.topologyChannel && a.declare && a.publisherChannel && a.confirm && a.consumerChannel && a.consume)
      ensures ok ==> Healthy()
    {
      ok := DeclareTopology(a);
      if !ok { return; }
      assert NothingOpen() by {
        forall i | 0 <= i < |channels|
          ensures !channels[i].open
        {
          if i < |old(channels)| { assert channels[i] == channels[..|old(channels)|][i]; }
        }
      }
      ok := InitPublisher(a);
      if !ok { return; }
      ok := StartConversationUpdateConsumer(a);
    }

    /** Success exactly when some attempt of the list has every call succeed; then the
        first such attempt leaves the client healthy, whatever the failed attempts
        before it left open. Every failed attempt is followed by its wait. */
    method ReconnectWithBackoff(backoffs: seq<nat>, turns: seq<Attempt>) returns (ok: bool, tried: nat)
      requires Valid() && |turns| == |backoffs|
      modifies this
      ensures Valid()
      ensures ok <==> exists i :: 0 <= i < |turns| && Works(turns[i])
      ensures tried == FirstWorking(turns) && slept == old(slept) + Total(backoffs[..tried])
      ensures ok ==> !PublishPanics()
      ensures ok ==> Healthy() && tried < |turns|
      ensures |conns| >= |old(conns)| + if ok then 1 else 0
    {
      tried := 0;
      while tried < |backoffs|
        invariant Valid() && tried <= |backoffs|
        invariant forall i :: 0 <= i < tried ==> !Works(turns[i])
        invariant slept == old(slept) + Total(backoffs[..tried]) && |conns| >= |old(conns)|
      {
        var a, wait := turns[tried], backoffs[tried];
        assert backoffs[..tried + 1][..tried] == backoffs[..tried];
        ok := Reconnect(a.dial);
        if ok {
          ok := RebuildAll(a);
          if ok { return; }
        }
        slept := slept + wait;
        tried := tried + 1;
      }
      ok := false;
    }

    /** The peer drops the connection: everything on it dies. */
    method Drop()
      requires Valid()
      modifies this`conns, this`channels
      ensures Valid() && NothingOpen() && (PublishPanics() <==> publishCh.None?) && |conns| == |old(conns)|
    {
      if conn.Some? {
        channels := CloseOn(channels, conn.value);
        conns := conns[conn.value := false];
      }
    }

    /** Six attempts at most; the waits between them add up to 61 seconds. */
    method Recover(turns: seq<Attempt>) returns (ok: bool)
      requires Valid() && |turns| == 6
      modifies this
      ensures Valid() && (ok <==> Recovers(Some(turns)))
      ensures ok ==> Healthy() && |conns| > |old(conns)|
      ensures slept == old(slept) + [0, 1, 3, 7, 15, 31, 61][FirstWorking(turns)]
    {
      Drop();
      WaitsAddUp(FirstWorking(turns));
      var tried;
      ok, tried := ReconnectWithBackoff(BACKOFFS, turns);
    }

    /** The watcher recovers from one lost connection after the other. It stops at our own
        shutdown, or gives up at the first connection for which every attempt fails. Each
        time it waits for the next notification the client is healthy, on a connection
        newer than at the wait before. */
    method WatchAndReconnect(closes: seq<Close>) returns (gaveUp: bool, ghost waits: seq<Client>)
      requires Valid() && Healthy()
      requires forall i :: 0 <= i < |closes| && closes[i].Some? ==> |closes[i].value| == 6
      modifies this
      ensures Valid()
      ensures gaveUp <==> Recovered(closes) < |closes| && closes[Recovered(closes)].Some?
      ensures |waits| == Recovered(closes) + 1 && waits[0] == old(Now()) && Renewed(waits)
      ensures !gaveUp ==> Now() == waits[|waits| - 1]
      ensures slept == old(slept) + Waited(closes, Recovered(closes) + if gaveUp then 1 else 0)
    {
      var k := 0;
      waits := [Now()];
      while k < |closes|
        invariant k <= Recovered(closes) && Valid() && Healthy()
        invariant slept == old(slept) + Waited(closes, k)
        invariant |waits| == k + 1 && waits[0] == old(Now()) && waits[k] == Now() && Renewed(waits)
      {
        if closes[k].None? {
          return false, waits;
        }
        var ok := Recover(closes[k].value);
        if !ok {
          return true, waits;
        }
        RenewedAgain(waits, Now());
        waits := waits + [Now()];
        k := k + 1;
      }
      gaveUp := false;
    }
  }
}
