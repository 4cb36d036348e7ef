/** The heartbeat clock of a session's active end: `refreshActiveTime` and `tickActiveEnd`. Times are
    nanoseconds since 1970. */
module KeepAlive {
  import opened SessionConfig

  /** `attempt` and `tick` remember the latest heartbeat attempt and tick, at first the start; the program
      keeps neither. A `heartbeat` of 0 stands for none. */
  datatype Clock = Clock(active: int, heartbeat: int, attempt: int, tick: int)

  datatype Event = Refresh(time: int) | Tick(time: int)

  function Started(t: int): Clock {
    Clock(t, 0, t, t)
  }

  /** Whether a tick at `now` sends a heartbeat. */
  predicate Due(c: Clock, now: int, timeout: int) {
    now - c.active >= timeout && (c.heartbeat == 0 || now - c.heartbeat >= timeout)
  }

  function Apply(c: Clock, e: Event, timeout: int): Clock {
    match e
    case Refresh(t) => if c.active >= t then c else c.(active := t)
    case Tick(now) =>
      var c1 := c.(tick := now);
      if now - c.active < timeout then c1.(heartbeat := 0)
      else if c.heartbeat != 0 && now - c.heartbeat < timeout then c1
      else c1.(heartbeat := now, attempt := now)
  }

  function Play(c: Clock, events: seq<Event>, timeout: int): Clock
    decreases |events|
  {
    if events == [] then c else Play(Apply(c, events[0], timeout), events[1..], timeout)
  }

  /** The two fields of the session, stepped as the program does. */
  class Heart {
    var lastActiveTime: int
    var lastHeartbeatTime: int
    var heartbeatTimeout: int

    ghost function View(attempt: int, tick: int): Clock
      reads this
    {
      Clock(lastActiveTime, lastHeartbeatTime, attempt, tick)
    }

    constructor (startedAt: int, timeout: int)
      ensures View(startedAt, startedAt) == Started(startedAt) && heartbeatTimeout == timeout
    {
      lastActiveTime, lastHeartbeatTime, heartbeatTimeout := startedAt, 0, timeout;
    }

    /** With no competitor the compare-and-swap loop swaps at most once. */
    method RefreshActiveTime(now: int, ghost attempt: int, ghost tick: int)
      modifies this
      ensures View(attempt, tick) == Apply(old(View(attempt, tick)), Refresh(now), heartbeatTimeout)
      ensures heartbeatTimeout == old(heartbeatTimeout)
    {
      if lastActiveTime < now { lastActiveTime := now; }
    }

    method TickActiveEnd(now: int, ghost attempt: int, ghost tick: int) returns (sent: bool)
      modifies this
      ensures heartbeatTimeout == old(heartbeatTimeout)
      ensures sent <==> Due(old(View(attempt, tick)), now, heartbeatTimeout)
      ensures View(if sent then now else attempt, now) == Apply(old(View(attempt, tick)), Tick(now), heartbeatTimeout)
    {
      if now - lastActiveTime < heartbeatTimeout {
        lastHeartbeatTime := 0;
        return false;
      }
      if lastHeartbeatTime != 0 && now - lastHeartbeatTime < heartbeatTimeout { return false; }
      lastHeartbeatTime := now;
      return true;
    }
  }

  function Max(a: int, b: int): int {
    if a < b then b else a
  }

  predicate Inv(c: Clock, timeout: int) {
    && (c.heartbeat != 0 ==> c.heartbeat == c.attempt)
    && c.tick - Max(c.active, c.attempt) < timeout
  }

  lemma {:induction false} PlayInv(c: Clock, events: seq<Event>, timeout: int)
    requires Inv(c, timeout) && 0 < timeout
    ensures Inv(Play(c, events, timeout), timeout)
    decreases |events|
  {
    if events != [] { PlayInv(Apply(c, events[0], timeout), events[1..], timeout); }
  }

  /** The keep-alive bound: under an accepted configuration, after any mix of refreshes and ticks and as long
      as the next tick is not overdue, the time since the latest activity or heartbeat attempt stays below
      the heartbeat timeout plus one tick interval, that is below 5/6 of the read-write timeout. */
  lemma KeepAliveBound(c: Settings, startedAt: int, events: seq<Event>, now: int)
    requires Acceptable(c)
    ensures var d := Completed(c);
            var k := Play(Started(startedAt), events, d.heartbeatTimeout);
            now - k.tick <= d.tickInterval ==>
              && now - Max(k.active, k.attempt) < d.heartbeatTimeout + d.tickInterval
              && 6 * (now - Max(k.active, k.attempt)) < 5 * d.readWriteTimeout
  {
    AcceptedBounds(c);
    PlayInv(Started(startedAt), events, Completed(c).heartbeatTimeout);
  }

  /** Clock readings that never go back, from `from` on. */
  predicate Ordered(events: seq<Event>, from: int)
    decreases |events|
  {
    events != [] ==> from <= events[0].time && Ordered(events[1..], events[0].time)
  }

  /** After every attempt, either it is remembered or there has been activity since. */
  predicate Spaced(c: Clock, now: int) {
    && 0 < c.attempt <= now && c.active <= now
    && (c.heartbeat == 0 ==> c.attempt <= c.active)
    && (c.heartbeat != 0 ==> c.heartbeat == c.attempt)
  }

  function Latest(events: seq<Event>, from: int): int {
    if events == [] then from else events[|events| - 1].time
  }

  lemma {:induction false} PlaySpaced(c: Clock, events: seq<Event>, timeout: int, now: int)
    requires 0 < timeout && Spaced(c, now) && Ordered(events, now)
    requires c.heartbeat != 0 ==> c.active <= c.attempt - timeout || c.attempt <= c.active
    ensures var k := Play(c, events, timeout);
            && Spaced(k, Latest(events, now))
            && (k.heartbeat != 0 ==> k.active <= k.attempt - timeout || k.attempt <= k.active)
    decreases |events|
  {
    if events != [] {
      PlaySpaced(Apply(c, events[0], timeout), events[1..], timeout, events[0].time);
    }
  }

  lemma {:induction false} PlayLast(c: Clock, events: seq<Event>, e: Event, timeout: int)
    ensures Play(c, events + [e], timeout) == Apply(Play(c, events, timeout), e, timeout)
    decreases |events|
  {
    if events == [] {
      assert [] + [e] == [e] && [e][1..] == [];
      assert Play(Apply(c, e, timeout), [], timeout) == Apply(c, e, timeout);
    } else {
      assert (events + [e])[1..] == events[1..] + [e];
      PlayLast(Apply(c, events[0], timeout), events[1..], e, timeout);
    }
  }

  /** After a tick a heartbeat is on record exactly if there has been no activity for the heartbeat timeout. */
  lemma OnRecordExactlyWhenSilent(startedAt: int, events: seq<Event>, timeout: int, now: int)
    requires now != 0
    ensures var k := Play(Started(startedAt), events + [Tick(now)], timeout);
            k.heartbeat != 0 <==> now - k.active >= timeout
  {
    PlayLast(Started(startedAt), events, Tick(now), timeout);
  }

  /** Heartbeats are not sent too often either: two attempts are never less than the heartbeat timeout apart,
      the first one never less than that from the start. */
  lemma AttemptsAreApart(startedAt: int, events: seq<Event>, timeout: int, now: int)
    requires 0 < timeout && 0 < startedAt && Ordered(events, startedAt) && Latest(events, startedAt) <= now
    ensures var k := Play(Started(startedAt), events, timeout);
            Due(k, now, timeout) ==> now - k.attempt >= timeout
  {
    PlaySpaced(Started(startedAt), events, timeout, startedAt);
  }
}
