/** `SessionConfig.init`: defaults filled in, limits checked, in source order. Durations are nanoseconds. */
module SessionConfig {
  const MAX_INT32 := 0x7fff_ffff
  const MILLISECOND := 1_000_000

  datatype Settings = Settings(
    pendingPacketQueueSize: int,
    maxPacketLength: int,
    readBufSize: int,
    writeBufSize: int,
    readWriteTimeout: int,
    batchWriteLimit: int,
    batchWriteTimeLimit: int,
    tickInterval: int,
    heartbeatTimeout: int,
    inactiveTimeout: int)

  function OrDefault(x: int, default: int): int {
    if x <= 0 then default else x
  }

  /** What a caller can check beforehand. */
  predicate Acceptable(c: Settings) {
    && 0 < c.maxPacketLength < MAX_INT32
    && 0 < c.readBufSize && 0 < c.writeBufSize && 0 < c.readWriteTimeout
    && c.tickInterval <= c.readWriteTimeout / 3
    && c.heartbeatTimeout <= c.readWriteTimeout / 2
    && OrDefault(c.tickInterval, c.readWriteTimeout / 3) < OrDefault(c.heartbeatTimeout, c.readWriteTimeout / 2)
    && c.readWriteTimeout < c.inactiveTimeout
  }

  function Completed(c: Settings): Settings
    requires c.readWriteTimeout > 0
  {
    c.(pendingPacketQueueSize := OrDefault(c.pendingPacketQueueSize, 100),
       batchWriteLimit := OrDefault(c.batchWriteLimit, 10),
       batchWriteTimeLimit := OrDefault(c.batchWriteTimeLimit, MILLISECOND),
       tickInterval := OrDefault(c.tickInterval, c.readWriteTimeout / 3),
       heartbeatTimeout := OrDefault(c.heartbeatTimeout, c.readWriteTimeout / 2))
  }

  class Config {
    var pendingPacketQueueSize: int
    var maxPacketLength: int
    var readBufSize: int
    var writeBufSize: int
    var readWriteTimeout: int
    var batchWriteLimit: int
    var batchWriteTimeLimit: int
    var tickInterval: int
    var heartbeatTimeout: int
    var inactiveTimeout: int

    ghost function View(): Settings
      reads this
    {
      Settings(pendingPacketQueueSize, maxPacketLength, readBufSize, writeBufSize, readWriteTimeout, batchWriteLimit,
               batchWriteTimeLimit, tickInterval, heartbeatTimeout, inactiveTimeout)
    }

    method Init() returns (ok: bool)
      modifies `pendingPacketQueueSize, `batchWriteLimit, `batchWriteTimeLimit, `tickInterval, `heartbeatTimeout
      ensures ok <==> Acceptable(old(View()))
      ensures ok ==> View() == Completed(old(View()))
      // A refused configuration may have been completed in part.
      ensures pendingPacketQueueSize == OrDefault(old(pendingPacketQueueSize), 100)
      ensures batchWriteLimit in {old(batchWriteLimit), OrDefault(old(batchWriteLimit), 10)}
      ensures batchWriteTimeLimit in {old(batchWriteTimeLimit), OrDefault(old(batchWriteTimeLimit), MILLISECOND)}
      ensures tickInterval in {old(tickInterval), OrDefault(old(tickInterval), readWriteTimeout / 3)}
      ensures heartbeatTimeout in {old(heartbeatTimeout), OrDefault(old(heartbeatTimeout), readWriteTimeout / 2)}
    {
      if pendingPacketQueueSize <= 0 { pendingPacketQueueSize := 100; }
      if maxPacketLength <= 0 || maxPacketLength >= MAX_INT32 { return false; }
      if readBufSize <= 0 { return false; }
      if writeBufSize <= 0 { return false; }
      if readWriteTimeout <= 0 { return false; }
      if batchWriteLimit <= 0 { batchWriteLimit := 10; }
      if batchWriteTimeLimit <= 0 { batchWriteTimeLimit := MILLISECOND; }
      if tickInterval <= 0 { tickInterval := readWriteTimeout / 3; }
      else if tickInterval > readWriteTimeout / 3 { return false; }
      if heartbeatTimeout <= 0 { heartbeatTimeout := readWriteTimeout / 2; }
      else if heartbeatTimeout > readWriteTimeout / 2 { return false; }
      if tickInterval >= heartbeatTimeout { return false; }
      if inactiveTimeout <= readWriteTimeout { return false; }
      return true;
    }
  }

  /** What the rest of the session relies on. */
  lemma AcceptedBounds(c: Settings)
    requires Acceptable(c)
    ensures var d := Completed(c);
            && 0 <= d.tickInterval < d.heartbeatTimeout
            && 6 * (d.heartbeatTimeout + d.tickInterval) <= 5 * d.readWriteTimeout
            && d.readWriteTimeout < d.inactiveTimeout
            && 0 < d.pendingPacketQueueSize && 0 < d.batchWriteLimit && 0 < d.batchWriteTimeLimit
            && Acceptable(d) && Completed(d) == d
  {
  }

  /** Accepted is what, once completed, ticks at least three times and beats at least twice within the read-write
      timeout, ticks more often than it beats, and counts as inactive later than as timed out; the sizes being positive,
      and the packet length short of 2^31 - 1. */
  lemma AcceptedExactlyWhen(c: Settings)
    requires 0 < c.readWriteTimeout
    ensures var d := Completed(c);
            Acceptable(c) <==>
              && 0 < c.maxPacketLength < 0x7fff_ffff && 0 < c.readBufSize && 0 < c.writeBufSize
              && 3 * d.tickInterval <= d.readWriteTimeout && 2 * d.heartbeatTimeout <= d.readWriteTimeout
              && d.tickInterval < d.heartbeatTimeout && d.readWriteTimeout < d.inactiveTimeout
  {
  }

  /** What is given stays; what is not comes to 100 packets, 10 fragments a batch, a millisecond, a third and a half
      of the read-write timeout. */
  lemma Defaults(c: Settings)
    requires 0 < c.readWriteTimeout
    ensures var d := Completed(c);
            && d == c.(pendingPacketQueueSize := d.pendingPacketQueueSize, batchWriteLimit := d.batchWriteLimit,
                       batchWriteTimeLimit := d.batchWriteTimeLimit, tickInterval := d.tickInterval,
                       heartbeatTimeout := d.heartbeatTimeout)
            && (0 < c.pendingPacketQueueSize ==> d.pendingPacketQueueSize == c.pendingPacketQueueSize)
            && (0 < c.batchWriteLimit ==> d.batchWriteLimit == c.batchWriteLimit)
            && (0 < c.batchWriteTimeLimit ==> d.batchWriteTimeLimit == c.batchWriteTimeLimit)
            && (0 < c.tickInterval ==> d.tickInterval == c.tickInterval)
            && (0 < c.heartbeatTimeout ==> d.heartbeatTimeout == c.heartbeatTimeout)
    ensures Completed(Settings(0, 1, 1, 1, 12, 0, 0, 0, 0, 13)) == Settings(100, 1, 1, 1, 12, 10, 1_000_000, 4, 6, 13)
  {
  }

  /** "An accepted configuration has a positive tick interval", which starting the tick timer demands, fails
      for exactly one family: no interval given and a read-write timeout of two nanoseconds. */
  lemma TickIntervalIsPositiveUnless(c: Settings)
    requires Acceptable(c)
    ensures 0 < Completed(c).tickInterval <==> !(c.tickInterval <= 0 && c.readWriteTimeout == 2)
  {
  }

  lemma ZeroTickIntervalIsAccepted()
    ensures exists c: Settings :: Acceptable(c) && Completed(c).tickInterval == 0
  {
    assert Acceptable(Settings(0, 1, 1, 1, 2, 0, 0, 0, 0, 3));
  }
}
