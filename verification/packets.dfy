/** The packets of a session and their frames: a six-byte head (type, a spare byte, the payload length in
    big-endian order) and the payload. */
module Packets {
  type Byte = x: int | 0 <= x < 256

  const HEARTBEAT: Byte := 10
  const CLOSE_REQ: Byte := 11
  const CLOSE_RESP: Byte := 12
  const RAW: Byte := 20

  const HEAD_LENGTH := 6
  const TWO_32 := 0x1_0000_0000

  datatype Packet = Heartbeat(b: Byte) | CloseReq | CloseResp(b: Byte) | Raw(data: seq<Byte>) {
    function ProtoType(): Byte {
      match this
      case Heartbeat(_) => HEARTBEAT
      case CloseReq => CLOSE_REQ
      case CloseResp(_) => CLOSE_RESP
      case Raw(_) => RAW
    }

    function Data(): seq<Byte> {
      match this
      case Heartbeat(b) => [b]
      case CloseReq => []
      case CloseResp(b) => [b]
      case Raw(data) => data
    }
  }

  // ---------- The head ----------

  function BigEndian(n: nat): seq<Byte>
    requires n < TWO_32
  {
    [n / 0x100_0000, n / 0x1_0000 % 256, n / 0x100 % 256, n % 256]
  }

  function FromBigEndian(b: seq<Byte>): nat
    requires |b| == 4
  {
    var b0: int := b[0];
    ((b0 * 256 + b[1]) * 256 + b[2]) * 256 + b[3]
  }

  lemma BigEndianRoundTrip(n: nat)
    requires n < TWO_32
    ensures FromBigEndian(BigEndian(n)) == n
  {
    var a, b, c := n / 0x100, n / 0x1_0000, n / 0x100_0000;
    assert a / 0x100 == b && b / 0x100 == c;
    assert a % 256 == a - 256 * b && b % 256 == b - 256 * c && n % 256 == n - 256 * a;
  }

  /** The type byte is read as a signed one. */
  function HeadType(head: seq<Byte>): int
    requires |head| == HEAD_LENGTH
  {
    var h: int := head[0];
    if h < 128 then h else h - 256
  }

  function HeadPayloadLen(head: seq<Byte>): nat
    requires |head| == HEAD_LENGTH
  {
    FromBigEndian(head[2..])
  }

  function Head(pt: Byte, n: nat): seq<Byte>
    requires n < TWO_32
  {
    [pt, 0] + BigEndian(n)
  }

  lemma HeadRoundTrip(pt: Byte, n: nat)
    requires n < TWO_32
    ensures |Head(pt, n)| == HEAD_LENGTH
    ensures HeadPayloadLen(Head(pt, n)) == n
    ensures HeadType(Head(pt, n)) == pt <==> pt < 128
  {
    BigEndianRoundTrip(n);
    assert Head(pt, n)[2..] == BigEndian(n);
  }

  method SetProtoType(head: array<Byte>, pt: Byte)
    requires head.Length == HEAD_LENGTH
    modifies head
    ensures head[..] == old(head[..])[0 := pt]
  {
    head[0] := pt;
  }

  method SetPayloadLen(head: array<Byte>, n: nat)
    requires head.Length == HEAD_LENGTH && n < TWO_32
    modifies head
    ensures head[..] == old(head[..])[..2] + BigEndian(n)
  {
    head[2] := n / 0x100_0000;
    head[3] := n / 0x1_0000 % 256;
    head[4] := n / 0x100 % 256;
    head[5] := n % 256;
  }

  // ---------- Frames ----------

  /** The length field has 32 bits, and a payload whose length looks like zero there is left out. */
  function Frame(p: Packet): seq<Byte> {
    var n := |p.Data()| % TWO_32;
    Head(p.ProtoType(), n) + (if n > 0 then p.Data() else [])
  }

  function Frames(ps: seq<Packet>): seq<Byte> {
    if ps == [] then [] else Frame(ps[0]) + Frames(ps[1..])
  }

  /** What writing one packet may make of the bytes sent and the bytes held back: it adds the packet's frame, or
      when it fails some of it; and with no packet following it holds nothing back. */
  predicate Wrote(sent: seq<Byte>, held: seq<Byte>, p: Packet, more: bool, sent': seq<Byte>, held': seq<Byte>,
                  ok: bool) {
    && sent <= sent'
    && sent + held <= sent' + held' <= sent + held + Frame(p)
    && (ok ==> sent' + held' == sent + held + Frame(p))
    && (ok && !more ==> held' == [])
  }

  /** What one read makes of the bytes still to come: a packet, a refusal after the head, or not enough. */
  datatype Parsed = Got(p: Packet, rest: seq<Byte>) | Bad(rest: seq<Byte>) | Short

  function Body(pt: int, n: nat, body: seq<Byte>, maxLength: nat): Parsed {
    if pt == HEARTBEAT then
      if n != 1 then Bad(body) else if |body| < 1 then Short else Got(Heartbeat(body[0]), body[1..])
    else if pt == CLOSE_REQ then
      if n != 0 then Bad(body) else Got(CloseReq, body)
    else if pt == CLOSE_RESP then
      if n != 1 then Bad(body) else if |body| < 1 then Short else Got(CloseResp(body[0]), body[1..])
    else if pt == RAW then
      if n > maxLength then Bad(body) else if |body| < n then Short else Got(Raw(body[..n]), body[n..])
    else Bad(body)
  }

  function Parse(s: seq<Byte>, maxLength: nat): Parsed {
    if |s| < HEAD_LENGTH then Short
    else
      var head := s[..HEAD_LENGTH];
      Body(HeadType(head), HeadPayloadLen(head), s[HEAD_LENGTH..], maxLength)
  }

  predicate Fits(p: Packet, maxLength: nat) {
    p.Raw? ==> |p.data| <= maxLength
  }

  lemma FrameSplits(p: Packet, rest: seq<Byte>)
    ensures var s, n := Frame(p) + rest, |p.Data()| % TWO_32;
            && |s| >= HEAD_LENGTH
            && HeadType(s[..HEAD_LENGTH]) == p.ProtoType() && HeadPayloadLen(s[..HEAD_LENGTH]) == n
            && s[HEAD_LENGTH..] == (if n > 0 then p.Data() else []) + rest
  {
    var n := |p.Data()| % TWO_32;
    HeadRoundTrip(p.ProtoType(), n);
    assert (Frame(p) + rest)[..HEAD_LENGTH] == Head(p.ProtoType(), n);
  }

  lemma BodyRoundTrip(p: Packet, body: seq<Byte>, rest: seq<Byte>, maxLength: nat)
    requires maxLength < TWO_32
    requires body == (if |p.Data()| % TWO_32 > 0 then p.Data() else []) + rest
    ensures Body(p.ProtoType(), |p.Data()| % TWO_32, body, maxLength) == Got(p, rest) <==> Fits(p, maxLength)
  {
    if Fits(p, maxLength) {
      var n := |p.Data()|;
      assert n % TWO_32 == n;
      assert body[..n] == p.Data() && body[n..] == rest;
    }
  }

  /** A frame is read back as the packet it was made from, whatever follows it, exactly when the packet fits
      the reader's limit. */
  lemma FrameRoundTrip(p: Packet, rest: seq<Byte>, maxLength: nat)
    requires maxLength < TWO_32
    ensures Parse(Frame(p) + rest, maxLength) == Got(p, rest) <==> Fits(p, maxLength)
  {
    FrameSplits(p, rest);
    BodyRoundTrip(p, (Frame(p) + rest)[HEAD_LENGTH..], rest, maxLength);
  }

  /** The bytes themselves, as other implementations of the protocol have to produce them. */
  lemma FramesOnTheWire(b: Byte, data: seq<Byte>)
    requires |data| == 0x0102_0304
    ensures Frame(Heartbeat(b)) == [10, 0, 0, 0, 0, 1, b]
    ensures Frame(CloseReq) == [11, 0, 0, 0, 0, 0]
    ensures Frame(CloseResp(b)) == [12, 0, 0, 0, 0, 1, b]
    ensures Frame(Raw(data)) == [20, 0, 1, 2, 3, 4] + data
  {
    assert BigEndian(1) == [0, 0, 0, 1] && BigEndian(0) == [0, 0, 0, 0] && BigEndian(0x0102_0304) == [1, 2, 3, 4];
    assert Heartbeat(b).Data() == [b] && CloseResp(b).Data() == [b] && CloseReq.Data() == [];
    assert Head(RAW, 0x0102_0304) == [20, 0, 1, 2, 3, 4];
  }

  lemma HeadIsRebuilt(head: seq<Byte>)
    requires |head| == HEAD_LENGTH && 0 <= HeadType(head)
    ensures Head(head[0], HeadPayloadLen(head)) == head[1 := 0]
  {
    var b := head[2..];
    var n := FromBigEndian(b);
    var b0: int := b[0];
    var x, y := b0 * 256 + b[1], (b0 * 256 + b[1]) * 256 + b[2];
    assert n / 0x100 == y && y / 0x100 == x && x / 0x100 == b0;
    assert n / 0x1_0000 == x && n / 0x100_0000 == b0;
    assert BigEndian(n) == b;
    assert [head[0], 0] + b == head[1 := 0];
  }

  lemma BodyIsData(pt: int, n: nat, body: seq<Byte>, maxLength: nat)
    requires Body(pt, n, body, maxLength).Got?
    ensures var p, rest := Body(pt, n, body, maxLength).p, Body(pt, n, body, maxLength).rest;
            p.ProtoType() == pt && |p.Data()| == n && body == p.Data() + rest && Fits(p, maxLength)
  {
  }

  lemma FrameOfHead(head: seq<Byte>, p: Packet)
    requires |head| == HEAD_LENGTH && HeadType(head) == p.ProtoType() && HeadPayloadLen(head) == |p.Data()|
    ensures Frame(p) == head[1 := 0] + p.Data()
  {
    var n := HeadPayloadLen(head);
    HeadIsRebuilt(head);
    assert n < TWO_32 && n % TWO_32 == n;
    if n == 0 { assert p.Data() == []; }
  }

  /** The other way round: whatever is read was the frame of what it was read as, but for the spare byte. */
  lemma ReadIsAFrame(s: seq<Byte>, maxLength: nat)
    requires Parse(s, maxLength).Got?
    ensures s[1 := 0] == Frame(Parse(s, maxLength).p) + Parse(s, maxLength).rest
    ensures Fits(Parse(s, maxLength).p, maxLength)
  {
    var head, body := s[..HEAD_LENGTH], s[HEAD_LENGTH..];
    var p, rest := Parse(s, maxLength).p, Parse(s, maxLength).rest;
    BodyIsData(HeadType(head), HeadPayloadLen(head), body, maxLength);
    FrameOfHead(head, p);
    SpareByteCleared(s);
    Regroup(head[1 := 0], p.Data(), rest);
  }

  lemma SpareByteCleared(s: seq<Byte>)
    requires |s| >= HEAD_LENGTH
    ensures s[1 := 0] == s[..HEAD_LENGTH][1 := 0] + s[HEAD_LENGTH..]
  {
  }

  lemma Regroup(a: seq<Byte>, b: seq<Byte>, c: seq<Byte>)
    ensures (a + b) + c == a + (b + c)
  {
  }

  lemma BodyIsStable(pt: int, n: nat, body: seq<Byte>, more: seq<Byte>, maxLength: nat)
    ensures match Body(pt, n, body, maxLength)
            case Got(p, rest) => Body(pt, n, body + more, maxLength) == Got(p, rest + more)
            case Bad(rest) => Body(pt, n, body + more, maxLength) == Bad(rest + more)
            case Short => true
  {
    if |body| >= 1 { assert (body + more)[1..] == body[1..] + more; }
    if |body| >= n { assert (body + more)[..n] == body[..n] && (body + more)[n..] == body[n..] + more; }
  }

  /** More bytes never change what has already been read, so the reader may be fed in any pieces. */
  lemma ParseIsStable(s: seq<Byte>, more: seq<Byte>, maxLength: nat)
    ensures Parse(s, maxLength).Got? ==>
              Parse(s + more, maxLength) == Got(Parse(s, maxLength).p, Parse(s, maxLength).rest + more)
    ensures Parse(s, maxLength).Bad? ==> Parse(s + more, maxLength) == Bad(Parse(s, maxLength).rest + more)
  {
    if |s| >= HEAD_LENGTH {
      var head, body := s[..HEAD_LENGTH], s[HEAD_LENGTH..];
      assert (s + more)[..HEAD_LENGTH] == head && (s + more)[HEAD_LENGTH..] == body + more;
      BodyIsStable(HeadType(head), HeadPayloadLen(head), body, more, maxLength);
    }
  }

  lemma ParseConsumes(s: seq<Byte>, maxLength: nat)
    ensures Parse(s, maxLength).Got? ==> |Parse(s, maxLength).rest| < |s|
  {
  }

  /** Every packet a reader gets out of a stream before it is refused or runs short. */
  function ReadAll(s: seq<Byte>, maxLength: nat): seq<Packet>
    decreases |s|
  {
    ParseConsumes(s, maxLength);
    match Parse(s, maxLength)
    case Got(p, rest) => [p] + ReadAll(rest, maxLength)
    case _ => []
  }

  predicate AllFit(ps: seq<Packet>, maxLength: nat) {
    forall i :: 0 <= i < |ps| ==> Fits(ps[i], maxLength)
  }

  /** What comes out of part of the frames of some packets: the first of them, or nothing yet; a cut stream is
      never misread. */
  lemma ParseOfPart(s: seq<Byte>, ps: seq<Packet>, maxLength: nat)
    requires maxLength < TWO_32 && AllFit(ps, maxLength) && s <= Frames(ps)
    ensures !Parse(s, maxLength).Bad?
    ensures Parse(s, maxLength).Got? ==>
              ps != [] && Parse(s, maxLength).p == ps[0] && Parse(s, maxLength).rest <= Frames(ps[1..])
    ensures s == Frames(ps) && ps != [] ==> Parse(s, maxLength) == Got(ps[0], Frames(ps[1..]))
  {
    if ps != [] {
      FrameRoundTrip(ps[0], Frames(ps[1..]), maxLength);
      var more := Frames(ps)[|s|..];
      assert s + more == Frames(ps);
      ParseIsStable(s, more, maxLength);
    }
  }

  /** Reading undoes writing, and reading part of what was written gives part of the packets, in order. */
  lemma {:induction false} ReadAllOfPart(s: seq<Byte>, ps: seq<Packet>, maxLength: nat)
    requires maxLength < TWO_32 && AllFit(ps, maxLength) && s <= Frames(ps)
    ensures ReadAll(s, maxLength) <= ps
    ensures s == Frames(ps) ==> ReadAll(s, maxLength) == ps
    decreases |s|
  {
    ParseOfPart(s, ps, maxLength);
    ParseConsumes(s, maxLength);
    ReadAllStep(s, maxLength);
    if Parse(s, maxLength).Got? {
      var rest := Parse(s, maxLength).rest;
      assert AllFit(ps[1..], maxLength);
      ReadAllOfPart(rest, ps[1..], maxLength);
      assert ps == [ps[0]] + ps[1..];
    }
  }

  lemma ReadAllStep(s: seq<Byte>, maxLength: nat)
    ensures ReadAll(s, maxLength) == (match Parse(s, maxLength)
                                      case Got(p, rest) => [p] + ReadAll(rest, maxLength)
                                      case _ => [])
  {
  }

  lemma {:induction false} FramesAppend(ps: seq<Packet>, p: Packet)
    ensures Frames(ps + [p]) == Frames(ps) + Frame(p)
  {
    if ps == [] {
      assert ps + [p] == [p] && Frames([p]) == Frame(p) + Frames([p][1..]);
    } else {
      assert (ps + [p])[1..] == ps[1..] + [p];
      FramesAppend(ps[1..], p);
    }
  }

  lemma {:induction false} FramesPrefix(ps: seq<Packet>, i: nat)
    requires i <= |ps|
    ensures Frames(ps[..i]) <= Frames(ps)
  {
    if 0 < i {
      assert ps[..i][1..] == ps[1..][..i - 1];
      FramesPrefix(ps[1..], i - 1);
    }
  }
}
