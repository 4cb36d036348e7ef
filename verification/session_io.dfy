/** `sessionPacketReadWriter`: packets through bounded read and write buffers, over a connection that
    delivers and accepts bytes in pieces of its own choosing and may fail at any point. */
module SessionIo {
  import opened Wrappers
  import opened Packets

  /** A byte FIFO of fixed capacity that takes and gives as much as it can. */
  class FixedBuffer {
    const capacity: nat
    var contents: seq<Byte>

    constructor (capacity: nat)
      ensures this.capacity == capacity && contents == []
    {
      this.capacity := capacity;
      contents := [];
    }

    /** `full` reports that not all of `p` fitted. */
    method Write(p: seq<Byte>) returns (n: nat, full: bool)
      requires |contents| <= capacity
      modifies this
      ensures n == (if |p| <= capacity - old(|contents|) then |p| else capacity - old(|contents|))
      ensures full <==> n < |p|
      ensures contents == old(contents) + p[..n] && |contents| <= capacity
    {
      n := if |p| <= capacity - |contents| then |p| else capacity - |contents|;
      full := n < |p|;
      contents := contents + p[..n];
    }

    /** Reads into `p` from index `i` on; `eof` when there was nothing to read. */
    method Read(p: array<Byte>, i: nat) returns (n: nat, eof: bool)
      requires i <= p.Length && |contents| <= capacity
      modifies this, p
      ensures n == (if p.Length - i <= old(|contents|) then p.Length - i else old(|contents|))
      ensures eof <==> old(contents) == []
      ensures p[..i] == old(p[..i]) && p[i..i + n] == old(contents)[..n]
      ensures contents == old(contents)[n..] && |contents| <= capacity
    {
      n := if p.Length - i <= |contents| then p.Length - i else |contents|;
      eof := contents == [];
      for k := 0 to n
        invariant contents == old(contents)
        invariant p[..i] == old(p[..i]) && p[i..i + k] == contents[..k]
      {
        p[i + k] := contents[k];
      }
      contents := contents[n..];
    }
  }

  /** The receiving end of a connection: `pending` is all that will ever arrive before an error. */
  class ConnReader {
    var pending: seq<Byte>

    constructor (bytes: seq<Byte>)
      ensures pending == bytes
    {
      pending := bytes;
    }

    method Read(room: nat) returns (chunk: seq<Byte>, ok: bool)
      requires 0 < room
      modifies this
      ensures old(pending) == chunk + pending
      ensures ok <==> old(pending) != []
      ensures ok ==> 0 < |chunk| <= room
      ensures !ok ==> chunk == []
    {
      if pending == [] { return [], false; }
      var k :| 0 < k <= room && k <= |pending|;
      chunk, ok := pending[..k], true;
      pending := pending[k..];
    }
  }

  /** The sending end. `failed` remembers whether it has ever reported an error, `deadlines` how many deadlines it has
      been given. */
  class ConnWriter {
    var sent: seq<Byte>
    ghost var failed: bool
    ghost var deadlines: nat

    constructor ()
      ensures sent == [] && !failed
    {
      sent, failed, deadlines := [], false, 0;
    }

    method SetDeadline() returns (ok: bool)
      modifies this`failed, this`deadlines
      ensures failed == (old(failed) || !ok) && deadlines == old(deadlines) + 1
    {
      ok := *;
      failed, deadlines := failed || !ok, deadlines + 1;
    }

    method Write(p: seq<Byte>) returns (n: nat, ok: bool)
      requires p != []
      modifies this`sent, this`failed
      ensures n <= |p| && sent == old(sent) + p[..n]
      ensures ok ==> 0 < n
      ensures failed == (old(failed) || !ok)
    {
      n :| 0 <= n <= |p|;
      ok := *;
      ok := ok && 0 < n;
      sent := sent + p[..n];
      failed := failed || !ok;
    }
  }

  /** Part of `p` goes behind what is sent and held. */
  lemma PutOver(sent: seq<Byte>, held: seq<Byte>, p: seq<Byte>, n: nat)
    requires n <= |p|
    ensures sent + (held + p[..n]) + p[n..] == sent + held + p
    ensures sent + held <= sent + (held + p[..n])
  {
    assert p == p[..n] + p[n..];
    assert sent + (held + p[..n]) == (sent + held) + p[..n];
  }

  lemma MoveOver(done: seq<Byte>, held: seq<Byte>, n: nat, pending: seq<Byte>)
    requires n <= |held|
    ensures done + held[..n] + (held[n..] + pending) == done + (held + pending)
  {
    assert held == held[..n] + held[n..];
  }

  function Concat(pieces: seq<seq<Byte>>): seq<Byte> {
    if pieces == [] then [] else Concat(pieces[..|pieces| - 1]) + pieces[|pieces| - 1]
  }

  class PacketReadWriter {
    const readBuffer: FixedBuffer
    const writeBuffer: FixedBuffer
    const maxPacketLength: nat
    const batchWriteLimit: nat
    const batchWriteTimeLimit: int
    var batchWriteCount: nat
    var batchWriteStart: Option<int>
    ghost var unflushed: seq<seq<Byte>>  // the ends of fragments completed since the last flush

    ghost predicate Valid()
      reads this, readBuffer, writeBuffer
    {
      && readBuffer != writeBuffer
      && 0 < readBuffer.capacity && 0 < writeBuffer.capacity && 0 < batchWriteLimit
      && maxPacketLength < 0x7fff_ffff
      && |readBuffer.contents| <= readBuffer.capacity && |writeBuffer.contents| <= writeBuffer.capacity
    }

    /** The write buffer holds the ends of exactly `batchWriteCount` fragments. */
    ghost predicate Tallied()
      reads this, writeBuffer
    {
      && writeBuffer.contents == Concat(unflushed) && |unflushed| == batchWriteCount
      && (forall i :: 0 <= i < |unflushed| ==> unflushed[i] != [])
    }

    /** Fewer than the limit. */
    ghost predicate Batched()
      reads this, writeBuffer
    {
      Tallied() && batchWriteCount < batchWriteLimit
    }

    /** Everything written so far, on the wire or still in the buffer. */
    ghost function Flow(cw: ConnWriter): seq<Byte>
      reads this, writeBuffer, cw
    {
      cw.sent + writeBuffer.contents
    }

    /** Everything still to be read. */
    ghost function Stream(cr: ConnReader): seq<Byte>
      reads this, readBuffer, cr
    {
      readBuffer.contents + cr.pending
    }

    constructor (readBufSize: nat, writeBufSize: nat, maxPacketLength: nat, limit: nat, timeLimit: int)
      requires 0 < readBufSize && 0 < writeBufSize && 0 < limit && maxPacketLength < 0x7fff_ffff
      ensures Valid() && Batched() && fresh(readBuffer) && fresh(writeBuffer)
      ensures readBuffer.contents == [] && writeBuffer.contents == [] && this.maxPacketLength == maxPacketLength
    {
      readBuffer := new FixedBuffer(readBufSize);
      writeBuffer := new FixedBuffer(writeBufSize);
      this.maxPacketLength, batchWriteLimit, batchWriteTimeLimit := maxPacketLength, limit, timeLimit;
      batchWriteCount, batchWriteStart, unflushed := 0, None, [];
    }

    // ---------- Writing ----------

    /** Flushes: on success the buffer is empty; in any case no byte is lost or added. It fails exactly if the
        connection does, and sets one deadline. */
    method WriteFromBuffer(cw: ConnWriter) returns (ok: bool)
      requires Valid()
      modifies this, writeBuffer, cw
      ensures Valid() && Flow(cw) == old(Flow(cw)) && old(cw.sent) <= cw.sent
      ensures ok ==> Batched() && writeBuffer.contents == [] && batchWriteCount == 0 && batchWriteStart == None
      ensures cw.failed == (old(cw.failed) || !ok) && cw.deadlines == old(cw.deadlines) + 1
    {
      ok := cw.SetDeadline();
      if !ok { return false; }
      while |writeBuffer.contents| > 0
        invariant cw.deadlines == old(cw.deadlines) + 1
        invariant Valid() && Flow(cw) == old(Flow(cw)) && old(cw.sent) <= cw.sent && cw.failed == old(cw.failed)
        decreases |writeBuffer.contents|
      {
        var n, sent := cw.Write(writeBuffer.contents);
        writeBuffer.contents := writeBuffer.contents[n..];
        if !sent { return false; }
      }
      batchWriteCount, batchWriteStart, unflushed := 0, None, [];
      return true;
    }

    /** When the batch began, or begins now. */
    function BatchStart(now: int): int
      reads this`batchWriteStart
    {
      if batchWriteStart.Some? then batchWriteStart.value else now
    }

    /** Whether a fragment of `n` bytes that begins at `began` and is in the buffer at `done` can wait there. */
    predicate CanWait(n: nat, began: int, done: int)
      reads this, writeBuffer
    {
      && |writeBuffer.contents| + n <= writeBuffer.capacity
      && batchWriteCount + 1 < batchWriteLimit && done - BatchStart(began) < batchWriteTimeLimit
    }

    /** As much of `p` as there is room for; the last of a fragment is tallied. */
    method PutSome(ghost cw: ConnWriter, p: seq<Byte>) returns (rest: seq<Byte>, full: bool)
      requires Valid() && Batched() && p != []
      modifies `batchWriteCount, `unflushed, writeBuffer
      ensures Valid() && (!full ==> Tallied())
      ensures full == (rest != []) == (writeBuffer.capacity < |old(writeBuffer.contents)| + |p|)
      ensures Flow(cw) + rest == old(Flow(cw)) + p && old(Flow(cw)) <= Flow(cw)
      ensures !full ==> batchWriteCount == old(batchWriteCount) + 1
      ensures !full ==> writeBuffer.contents == old(writeBuffer.contents) + p
      ensures |rest| < |p| || (rest == p && old(writeBuffer.contents) != [])
    {
      var n;
      ghost var held := writeBuffer.contents;
      n, full := writeBuffer.Write(p);
      rest := p[n..];
      PutOver(cw.sent, held, p, n);
      if n > 0 && |rest| == 0 {
        batchWriteCount := batchWriteCount + 1;
        unflushed := unflushed + [p];
        assert unflushed[..|unflushed| - 1] + [p] == unflushed;
      }
    }

    /** One round: either all of `p` stays in the buffer, or the buffer is flushed. */
    method PutOrFlush(cw: ConnWriter, p: seq<Byte>, now: int) returns (rest: seq<Byte>, ok: bool)
      requires Valid() && Batched() && p != []
      modifies this, writeBuffer, cw
      ensures Valid() && old(cw.sent) <= cw.sent && cw.failed == (old(cw.failed) || !ok)
      ensures Flow(cw) + rest == old(Flow(cw)) + p && old(Flow(cw)) <= Flow(cw)
      ensures ok ==> Batched() && (|rest| < |p| || (rest == p && old(writeBuffer.contents) != []))
      ensures if old(batchWriteStart).Some? && old(CanWait(|p|, now, now)) then
                && ok && rest == [] && cw.sent == old(cw.sent) && writeBuffer.contents == old(writeBuffer.contents) + p
                && batchWriteStart == old(batchWriteStart) && batchWriteCount == old(batchWriteCount) + 1
              else ok ==> writeBuffer.contents == [] && batchWriteStart.None?
    {
      var full;
      rest, full := PutSome(cw, p);
      ok := true;
      if full {
        ok := WriteFromBuffer(cw);
      } else {
        // A start forgotten by a flush in mid-fragment counts as long past.
        var timeUp := batchWriteStart.None? || now - batchWriteStart.value >= batchWriteTimeLimit;
        if batchWriteCount >= batchWriteLimit || timeUp { ok := WriteFromBuffer(cw); }
      }
    }

    /** One fragment, through as many flushes as it takes. Every round shortens what is left of it, or empties
        the full buffer. A flush before its end forgets when the batch began, so that a fragment the buffer had no
        room for is flushed at once when it is complete. Reading `clock(0)` is taken at the start, reading
        `clock(i)` in round `i`: the fragment stays in the buffer exactly if it can wait, and goes out otherwise,
        with all before it. Writing fails exactly if the connection does. */
    method WriteFull(cw: ConnWriter, fragment: seq<Byte>, clock: nat -> int) returns (ok: bool)
      requires Valid() && Batched()
      modifies this, writeBuffer, cw
      ensures Valid() && old(cw.sent) <= cw.sent
      ensures ok ==> Batched() && Flow(cw) == old(Flow(cw)) + fragment
      ensures old(Flow(cw)) <= Flow(cw) <= old(Flow(cw)) + fragment
      ensures cw.failed == (old(cw.failed) || !ok)
      ensures fragment != [] && old(CanWait(|fragment|, clock(0), clock(1))) ==>
                && ok && cw.sent == old(cw.sent) && writeBuffer.contents == old(writeBuffer.contents) + fragment
                && batchWriteCount == old(batchWriteCount) + 1 && batchWriteStart == Some(old(BatchStart(clock(0))))
      ensures fragment != [] && !old(CanWait(|fragment|, clock(0), clock(1))) && ok ==> writeBuffer.contents == []
    {
      ghost var waits := CanWait(|fragment|, clock(0), clock(1));
      if batchWriteStart.None? { batchWriteStart := Some(clock(0)); }
      ghost var start := batchWriteStart;
      var p := fragment;
      var i: nat := 0;
      while |p| > 0
        invariant Valid() && Batched() && old(cw.sent) <= cw.sent && cw.failed == old(cw.failed)
        invariant Flow(cw) + p == old(Flow(cw)) + fragment && old(Flow(cw)) <= Flow(cw)
        invariant i == 0 ==> p == fragment && writeBuffer.contents == old(writeBuffer.contents)
        invariant waits || i == 0 ==>
                    && cw.sent == old(cw.sent) && batchWriteStart == start
                    && batchWriteCount == old(batchWriteCount) + (if i == 0 then 0 else 1)
        invariant waits && i != 0 ==> p == [] && writeBuffer.contents == old(writeBuffer.contents) + fragment
        invariant !waits && i != 0 ==> writeBuffer.contents == [] && batchWriteStart.None?
        decreases |p|, |writeBuffer.contents|
      {
        i := i + 1;
        p, ok := PutOrFlush(cw, p, clock(i));
        if !ok { return false; }
      }
      return true;
    }

    method MakeHead(pt: Byte, n: nat) returns (bytes: seq<Byte>)
      requires n < TWO_32
      ensures bytes == Head(pt, n)
    {
      var head := new Byte[HEAD_LENGTH](_ => 0);
      SetProtoType(head, pt);
      SetPayloadLen(head, n);
      bytes := head[..];
    }

    /** Whether both parts of its frame can. */
    predicate PacketCanWait(p: Packet, clock: nat -> nat -> int)
      reads this, writeBuffer
    {
      && CanWait(HEAD_LENGTH, clock(0)(0), clock(0)(1))
      && (|p.Data()| % TWO_32 > 0 ==>
            && |writeBuffer.contents| + HEAD_LENGTH + |p.Data()| <= writeBuffer.capacity
            && batchWriteCount + 2 < batchWriteLimit
            && clock(1)(1) - BatchStart(clock(0)(0)) < batchWriteTimeLimit)
    }

    /** The head, then the payload. */
    method WriteFrame(cw: ConnWriter, packet: Packet, clock: nat -> nat -> int) returns (ok: bool)
      requires Valid() && Batched()
      modifies this, writeBuffer, cw
      ensures Valid() && old(cw.sent) <= cw.sent && (ok ==> Batched())
      ensures old(Flow(cw)) <= Flow(cw) <= old(Flow(cw)) + Frame(packet)
      ensures ok ==> Flow(cw) == old(Flow(cw)) + Frame(packet)
      ensures cw.failed == (old(cw.failed) || !ok)
      ensures old(PacketCanWait(packet, clock)) ==> ok && cw.sent == old(cw.sent)
    {
      var payload := packet.Data();
      var payloadLen := |payload| % TWO_32;
      var head := MakeHead(packet.ProtoType(), payloadLen);
      ghost var before := Flow(cw);
      ok := WriteFull(cw, head, clock(0));
      if ok && payloadLen > 0 {
        assert before + head + payload == before + Frame(packet);
        ok := WriteFull(cw, payload, clock(1));
      }
    }

    /** A whole frame; with no packet following at once, all of it, and all before it, goes out; with one following it
        all stays in the buffer if both its parts can wait. `clock(0)` are the readings for the head, `clock(1)` for
        the payload. Writing fails exactly if the connection does. */
    method SessionWritePacket(cw: ConnWriter, packet: Packet, more: bool, clock: nat -> nat -> int) returns (ok: bool)
      requires Valid() && Batched()
      modifies this, writeBuffer, cw
      ensures Valid()
      ensures ok ==> Batched()
      ensures Wrote(old(cw.sent), old(writeBuffer.contents), packet, more, cw.sent, writeBuffer.contents, ok)
      ensures cw.failed == (old(cw.failed) || !ok)
      ensures more && old(PacketCanWait(packet, clock)) ==> ok && cw.sent == old(cw.sent)
    {
      ok := WriteFrame(cw, packet, clock);
      if ok && !more && |writeBuffer.contents| > 0 { ok := WriteFromBuffer(cw); }
    }

    // ---------- Reading ----------

    /** Fills `p`, or runs into the end of what arrives. */
    method ReadFull(cr: ConnReader, p: array<Byte>) returns (ok: bool)
      requires Valid()
      modifies readBuffer, cr, p
      ensures Valid()
      ensures ok <==> p.Length <= |old(Stream(cr))|
      ensures ok ==> p[..] == old(Stream(cr))[..p.Length] && Stream(cr) == old(Stream(cr))[p.Length..]
    {
      var i := 0;
      while i < p.Length
        invariant Valid()
        invariant 0 <= i <= p.Length && p[..i] + Stream(cr) == old(Stream(cr))
        decreases p.Length - i, |cr.pending|
      {
        ghost var done, held := p[..i], readBuffer.contents;
        var n, eof := readBuffer.Read(p, i);
        assert p[..i + n] == done + held[..n];
        MoveOver(done, held, n, cr.pending);
        i := i + n;
        if eof {
          var chunk, arrived := cr.Read(readBuffer.capacity);
          readBuffer.contents := chunk;
          if !arrived { return false; }
        }
      }
      assert p[..i] == p[..];
      return true;
    }

    /** What a read returns and leaves is what the frame format makes of the bytes still to come, however they
        are cut up on the way. */
    method SessionReadPacket(cr: ConnReader) returns (r: Option<Packet>)
      requires Valid()
      modifies readBuffer, cr
      ensures Valid()
      ensures match Parse(old(Stream(cr)), maxPacketLength)
              case Got(p, rest) => r == Some(p) && Stream(cr) == rest
              case Bad(rest) => r == None && Stream(cr) == rest
              case Short => r == None
    {
      ghost var stream := Stream(cr);
      var head := new Byte[HEAD_LENGTH];
      var ok := ReadFull(cr, head);
      if !ok { return None; }
      ghost var body := Stream(cr);
      var pt, n := HeadType(head[..]), HeadPayloadLen(head[..]);
      assert Parse(stream, maxPacketLength) == Body(pt, n, body, maxPacketLength);
      if pt == HEARTBEAT {
        if n != 1 { return None; }
        var payload := new Byte[1];
        ok := ReadFull(cr, payload);
        return if ok then Some(Heartbeat(payload[0])) else None;
      } else if pt == CLOSE_REQ {
        return if n != 0 then None else Some(CloseReq);
      } else if pt == CLOSE_RESP {
        if n != 1 { return None; }
        var payload := new Byte[1];
        ok := ReadFull(cr, payload);
        return if ok then Some(CloseResp(payload[0])) else None;
      } else if pt == RAW {
        if n > maxPacketLength { return None; }
        var payload := new Byte[n];
        ok := ReadFull(cr, payload);
        return if ok then Some(Raw(payload[..])) else None;
      } else {
        return None;
      }
    }
  }

  /** End to end: one side writes `ps` with the given `more` flags, the other reads until it can read no
      more. Whatever the buffer sizes, the batch limits and the cutting of the stream, and wherever the
      connection breaks, the reader gets the first packets in order and nothing else; and it gets them all if the
      connection did not fail. */
  method Transfer(ps: seq<Packet>, more: seq<bool>, w: PacketReadWriter, cw: ConnWriter, r: PacketReadWriter)
    returns (sentAll: bool, got: seq<Packet>)
    requires w != r && {w.readBuffer, w.writeBuffer} !! {r.readBuffer, r.writeBuffer}
    requires w.Valid() && w.Batched() && w.writeBuffer.contents == []
    requires r.Valid() && r.readBuffer.contents == []
    requires |more| == |ps| && (ps != [] ==> !more[|more| - 1])
    requires AllFit(ps, r.maxPacketLength) && cw.sent == [] && !cw.failed
    modifies w, w.writeBuffer, cw, r.readBuffer
    ensures got <= ps
    ensures sentAll == !cw.failed
    ensures !cw.failed ==> got == ps
  {
    sentAll := SendAll(ps, more, w, cw);
    var cr := new ConnReader(cw.sent);
    ReadAllOfPart(cw.sent, ps, r.maxPacketLength);
    assert r.Stream(cr) == cw.sent;
    got := ReceiveAll(r, cr);
  }

  method ReceiveAll(r: PacketReadWriter, cr: ConnReader) returns (got: seq<Packet>)
    requires r.Valid()
    modifies r.readBuffer, cr
    ensures got == ReadAll(old(r.Stream(cr)), r.maxPacketLength)
  {
    got := [];
    while true
      invariant r.Valid()
      invariant got + ReadAll(r.Stream(cr), r.maxPacketLength) == ReadAll(old(r.Stream(cr)), r.maxPacketLength)
      decreases |r.Stream(cr)|
    {
      ReadAllStep(r.Stream(cr), r.maxPacketLength);
      ParseConsumes(r.Stream(cr), r.maxPacketLength);
      var p := r.SessionReadPacket(cr);
      if p.None? { return; }
      got := got + [p.value];
    }
  }

  lemma FramesNext(ps: seq<Packet>, i: nat)
    requires i < |ps|
    ensures Frames(ps[..i + 1]) == Frames(ps[..i]) + Frame(ps[i])
  {
    var q := ps[..i];
    FramesAppend(q, ps[i]);
    assert ps[..i + 1] == q + [ps[i]];
  }

  lemma PrefixOfSum(a: seq<Byte>, b: seq<Byte>, c: seq<Byte>, d: seq<Byte>)
    requires a + b <= c <= d
    ensures a <= d
  {
    assert (a + b)[..|a|] == a;
    assert c[..|a|] == a;
  }

  /** With the frames of the first `i` packets out or held back, the next packet is written. */
  lemma WroteNext(ps: seq<Packet>, i: nat, sent: seq<Byte>, held: seq<Byte>, more: bool,
                  sent': seq<Byte>, held': seq<Byte>, ok: bool)
    requires i < |ps| && sent + held == Frames(ps[..i]) && Wrote(sent, held, ps[i], more, sent', held', ok)
    ensures sent' <= Frames(ps)
    ensures ok ==> sent' + held' == Frames(ps[..i + 1])
    ensures ok && !more ==> held' == []
  {
    FramesNext(ps, i);
    FramesPrefix(ps, i + 1);
    PrefixOfSum(sent', held', Frames(ps[..i + 1]), Frames(ps));
  }

  method SendAll(ps: seq<Packet>, more: seq<bool>, w: PacketReadWriter, cw: ConnWriter) returns (ok: bool)
    requires w.Valid() && w.Batched() && w.writeBuffer.contents == [] && cw.sent == []
    requires |more| == |ps| && (ps != [] ==> !more[|more| - 1])
    modifies w, w.writeBuffer, cw
    ensures cw.sent <= Frames(ps)
    ensures ok ==> cw.sent == Frames(ps) && w.writeBuffer.contents == []
    ensures cw.failed == (old(cw.failed) || !ok)
  {
    for i := 0 to |ps|
      invariant w.Valid() && w.Batched() && cw.sent + w.writeBuffer.contents == Frames(ps[..i])
      invariant cw.sent <= Frames(ps) && cw.failed == old(cw.failed)
      invariant i == |ps| ==> w.writeBuffer.contents == []
    {
      ghost var sent, held := cw.sent, w.writeBuffer.contents;
      var clock: nat -> nat -> int := *;
      ok := w.SessionWritePacket(cw, ps[i], more[i], clock);
      WroteNext(ps, i, sent, held, more[i], cw.sent, w.writeBuffer.contents, ok);
      if !ok { return; }
    }
    assert ps[..|ps|] == ps;
    return true;
  }
}
