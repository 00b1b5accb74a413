/** Does the presence key outlive the connection that refreshes it? One connection in
    discrete seconds: the key is set on registration and refreshed by pongs, the read
    deadline is set when reading starts and by pongs, and neither moves while the
    reader is busy pushing the backlog or handling a message. One read from the socket
    can bring several frames into the reader's buffer; buffered frames are returned
    without another look at the deadline. */
module Presence {
  import Cluster

  const PONG_WAIT: nat := 60
  const SLACK: nat := Cluster.PRESENCE_TTL - PONG_WAIT

  datatype Phase = Pushing | Reading | Handling | Left

  /** `since` is when the phase began, `refreshed` when the key was last set or renewed. */
  datatype Link = Link(now: nat, refreshed: nat, expiry: nat, deadline: nat, phase: Phase, since: nat, buffered: nat)

  /** `extra` frames come into the buffer together with the one that is read. */
  datatype Event = Tick | StartReading | Pong(extra: nat) | Message(extra: nat) | HandlerDone | Timeout

  const START := Link(0, 0, Cluster.PRESENCE_TTL, 0, Pushing, 0, 0)

  /** The backlog push takes at most `b` seconds and each handler at most `h`; one read
      leaves at most `f` frames in the buffer. */
  datatype Bounds = Bounds(b: nat, h: nat, f: nat)

  predicate KeyLive(x: Link) {
    x.now < x.expiry
  }

  /** The reader is blocked in a read that has not timed out. */
  predicate Waiting(x: Link) {
    x.phase.Reading? && x.buffered == 0 && x.now < x.deadline
  }

  /** A frame comes out of the buffer, or off the socket before the deadline. */
  predicate Arrives(x: Link, extra: nat, bd: Bounds) {
    x.phase.Reading? && if x.buffered > 0 then extra == 0 else x.now < x.deadline && extra <= bd.f
  }

  predicate Can(x: Link, e: Event, bd: Bounds) {
    match e
    case Tick =>
      (x.phase.Pushing? && x.now < x.since + bd.b) || (x.phase.Reading? && x.buffered == 0 && x.now < x.deadline)
                 || (x.phase.Handling? && x.now < x.since + bd.h) || x.phase.Left?
    case StartReading => x.phase.Pushing?
    case Pong(extra) => Arrives(x, extra, bd)
    case Message(extra) => Arrives(x, extra, bd)
    case HandlerDone => x.phase.Handling?
    case Timeout => x.phase.Reading? && x.buffered == 0 && x.deadline <= x.now
  }

  function Takes(x: Link, extra: nat): Link {
    x.(buffered := if x.buffered > 0 then x.buffered - 1 else extra)
  }

  function Next(x: Link, e: Event): Link {
    match e
    case Tick => x.(now := x.now + 1)
    case StartReading => x.(phase := Reading, since := x.now, deadline := x.now + PONG_WAIT)
    case Pong(extra) =>
      if KeyLive(x)
      then Takes(x, extra).(deadline := x.now + PONG_WAIT, refreshed := x.now, expiry := x.now + Cluster.PRESENCE_TTL)
      else Takes(x, extra).(deadline := x.now + PONG_WAIT)
    case Message(extra) => Takes(x, extra).(phase := Handling, since := x.now)
    case HandlerDone => x.(phase := Reading, since := x.now)
    case Timeout => x.(phase := Left, since := x.now)
  }

  function After(evs: seq<Event>): Link {
    if evs == [] then START else Next(After(evs[..|evs| - 1]), evs[|evs| - 1])
  }

  ghost predicate Possible(evs: seq<Event>, bd: Bounds) {
    forall i :: 0 <= i < |evs| ==> Can(After(evs[..i]), evs[i], bd)
  }

  lemma {:induction false} PossiblePrefix(evs: seq<Event>, n: nat, bd: Bounds)
    requires Possible(evs, bd) && n <= |evs|
    ensures Possible(evs[..n], bd)
  {
    forall i | 0 <= i < n
      ensures Can(After(evs[..n][..i]), evs[..n][i], bd)
    {
      assert evs[..n][..i] == evs[..i];
    }
  }

  lemma {:induction false} Extends(evs: seq<Event>, e: Event, bd: Bounds) returns (run: seq<Event>)
    requires Possible(evs, bd) && Can(After(evs), e, bd)
    ensures Possible(run, bd) && After(run) == Next(After(evs), e)
  {
    run := evs + [e];
    assert run[..|evs|] == evs;
    forall i | 0 <= i < |run|
      ensures Can(After(run[..i]), run[i], bd)
    {
      if i < |evs| { assert run[..i] == evs[..i]; }
    }
  }

  // ------------------------------------------------------------- invariant

  /** How long `n` handlers may take. */
  function Work(n: nat, h: nat): nat {
    if n == 0 then 0 else Work(n - 1, h) + h
  }

  lemma {:induction false} WorkGrows(m: nat, n: nat, h: nat)
    requires m <= n
    ensures Work(m, h) <= Work(n, h)
  {
    if m < n { WorkGrows(m, n - 1, h); }
  }

  lemma {:induction false} WorkIsProduct(n: nat, h: nat)
    ensures Work(n, h) == n * h
  {
    if n > 0 {
      WorkIsProduct(n - 1, h);
      assert (n - 1) * h + h == n * h;
    }
  }

  /** The last second at which frames that came in before the deadline are still being
      handled, when nothing was refreshed meanwhile. */
  function Limit(x: Link, bd: Bounds): int {
    x.refreshed + PONG_WAIT + bd.b - 1 + Work(bd.f + 1, bd.h)
  }

  ghost predicate Inv(x: Link, bd: Bounds) {
    && x.since <= x.now
    && x.expiry == x.refreshed + Cluster.PRESENCE_TTL
    && x.refreshed <= x.now
    && x.buffered <= bd.f
    && (x.phase.Pushing? ==> x.refreshed == x.since == x.buffered == 0 && x.now <= bd.b)
    && (x.phase.Reading? || x.phase.Handling? ==> x.deadline <= x.refreshed + PONG_WAIT + bd.b)
    && (x.phase.Handling? ==> x.since + Work(x.buffered + 1, bd.h) <= Limit(x, bd) && x.now <= x.since + bd.h)
    && (x.phase.Reading? ==> (x.buffered == 0 && x.now <= x.deadline) || x.now + Work(x.buffered, bd.h) <= Limit(x, bd))
  }

  lemma {:induction false} InvHolds(evs: seq<Event>, bd: Bounds)
    requires Possible(evs, bd) && bd.b + Work(bd.f, bd.h) <= SLACK
    ensures Inv(After(evs), bd)
  {
    if evs != [] {
      var n := |evs| - 1;
      PossiblePrefix(evs, n, bd);
      InvHolds(evs[..n], bd);
      InvStep(After(evs[..n]), evs[n], bd);
    }
  }

  lemma {:induction false} InvStep(x: Link, e: Event, bd: Bounds)
    requires Inv(x, bd) && Can(x, e, bd) && bd.b + Work(bd.f, bd.h) <= SLACK
    ensures Inv(Next(x, e), bd)
  {
    match e
    case Pong(extra) => PongKeeps(x, extra, bd);
    case Message(extra) => MessageKeeps(x, extra, bd);
    case _ =>
  }

  /** A pong that is read finds the key alive. */
  lemma {:induction false} PongKeeps(x: Link, extra: nat, bd: Bounds)
    requires Inv(x, bd) && Arrives(x, extra, bd) && bd.b + Work(bd.f, bd.h) <= SLACK
    ensures KeyLive(x) && Inv(Next(x, Pong(extra)), bd)
  {
    WorkGrows(Takes(x, extra).buffered, bd.f + 1, bd.h);
    if x.buffered > 0 { WorkGrows(1, x.buffered, bd.h); }
  }

  lemma {:induction false} MessageKeeps(x: Link, extra: nat, bd: Bounds)
    requires Inv(x, bd) && Arrives(x, extra, bd)
    ensures Inv(Next(x, Message(extra)), bd)
  {
    WorkGrows(extra, bd.f, bd.h);
    WorkGrows(Takes(x, extra).buffered + 1, bd.f + 1, bd.h);
  }

  // ------------------------------------------------------------- worst cases

  /** `n` seconds pass. */
  lemma {:induction false} Wait(evs: seq<Event>, n: nat, bd: Bounds) returns (run: seq<Event>)
    requires Possible(evs, bd)
    requires forall t :: After(evs).now <= t < After(evs).now + n ==> Can(After(evs).(now := t), Tick, bd)
    ensures Possible(run, bd) && After(run) == After(evs).(now := After(evs).now + n)
  {
    if n == 0 {
      run := evs;
    } else {
      run := Wait(evs, n - 1, bd);
      run := Extends(run, Tick, bd);
    }
  }

  lemma {:induction false} ReadingFor(n: nat, bd: Bounds) returns (run: seq<Event>)
    requires n <= PONG_WAIT
    ensures Possible(run, bd)
    ensures After(run) == Link(bd.b + n, 0, Cluster.PRESENCE_TTL, bd.b + PONG_WAIT, Reading, bd.b, 0)
  {
    run := Wait([], bd.b, bd);
    run := Extends(run, StartReading, bd);
    run := Wait(run, n, bd);
  }

  /** In the last second before the deadline a read brings `f + 1` frames, and the first
      `n` handlers take as long as they may. */
  lemma {:induction false} BusyFor(n: nat, bd: Bounds) returns (run: seq<Event>)
    requires 1 <= n <= bd.f + 1
    ensures Possible(run, bd)
    ensures After(run).phase.Handling? && After(run).now == bd.b + PONG_WAIT - 1 + Work(n, bd.h)
    ensures After(run).buffered == bd.f + 1 - n && After(run).expiry == Cluster.PRESENCE_TTL
  {
    if n == 1 {
      run := ReadingFor(PONG_WAIT - 1, bd);
      run := Extends(run, Message(bd.f), bd);
    } else {
      run := BusyFor(n - 1, bd);
      run := Extends(run, HandlerDone, bd);
      run := Extends(run, Message(0), bd);
    }
    run := Wait(run, bd.h, bd);
  }

  // --------------------------------------------------------------- theorems

  /** While the connection waits for input the key is live in every run, for any pongs,
      if and only if the backlog push and the handlers of the frames one read can leave in
      the buffer together take at most 30 seconds. */
  lemma {:induction false} LiveWhileReading(bd: Bounds)
    ensures (forall evs :: Possible(evs, bd) && Waiting(After(evs)) ==> KeyLive(After(evs)))
            <==> bd.b + bd.f * bd.h <= 30
  {
    WorkIsProduct(bd.f, bd.h);
    if bd.b + bd.f * bd.h <= SLACK {
      forall evs | Possible(evs, bd) && Waiting(After(evs))
        ensures KeyLive(After(evs))
      {
        InvHolds(evs, bd);
      }
    } else if bd.b > SLACK {
      var run := ReadingFor(PONG_WAIT - 1, bd);
      assert !KeyLive(After(run));
    } else {
      var run := BusyFor(bd.f, bd);
      run := Extends(run, HandlerDone, bd);
      run := Extends(run, Pong(0), bd);
      assert !KeyLive(After(run));
    }
  }

  /** The key is live until the connection leaves, also inside handlers and at the
      deadline itself, if and only if the backlog push and the handlers of all frames of
      one read together take at most 30 seconds and the push alone less. Each staying
      under 30 seconds is not enough. */
  lemma {:induction false} LiveUntilLeft(bd: Bounds)
    ensures (forall evs :: Possible(evs, bd) && !After(evs).phase.Left? ==> KeyLive(After(evs)))
            <==> bd.b + (bd.f + 1) * bd.h <= 30 && bd.b < 30
  {
    WorkIsProduct(bd.f + 1, bd.h);
    WorkGrows(bd.f, bd.f + 1, bd.h);
    if bd.b + (bd.f + 1) * bd.h <= SLACK && bd.b < SLACK {
      forall evs | Possible(evs, bd) && !After(evs).phase.Left?
        ensures KeyLive(After(evs))
      {
        InvHolds(evs, bd);
        WorkGrows(1, After(evs).buffered + 1, bd.h);
      }
    } else if SLACK <= bd.b {
      var run := ReadingFor(PONG_WAIT, bd);
      assert !KeyLive(After(run));
    } else {
      var run := BusyFor(bd.f + 1, bd);
      assert !KeyLive(After(run));
    }
  }

  /** A key that is no longer refreshed is gone 90 seconds after its last refresh. */
  lemma {:induction false} SilentKeyExpires(evs: seq<Event>)
    ensures After(evs).refreshed <= After(evs).now && After(evs).expiry == After(evs).refreshed + 90
    ensures KeyLive(After(evs)) <==> After(evs).now < After(evs).refreshed + 90
  {
    if evs != [] { SilentKeyExpires(evs[..|evs| - 1]); }
  }
}
