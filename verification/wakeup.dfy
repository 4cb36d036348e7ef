/** The hand-over from any number of senders to the one goroutine that writes a session's packets. */
module Wakeup {
  import opened Packets

  /** Where a call of `sendDirect` stands. */
  datatype Sender =
    | Enqueue(p: Packet)
    | ReadFlag       // after the enqueue
    | Notify         // the flag was up: try to put a token
    | Sent
    | Refused

  /** Where `SessionPendingPacket` stands, or its caller, which writes the packet it was given. */
  datatype Consumer =
    | Outside
    | FirstTry
    | RaiseFlag
    | SecondTry
    | Parked
    | LowerFlag(p: Packet)
    | MeasureRest(p: Packet)
    | Writing(p: Packet)
    | Broken                 // a write failed; the session closes
    | Stopped

  /** A bounded queue, a "waiting" flag, a channel with room for one token, and what the writing goroutine has put on
      the wire or holds back. */
  datatype Queue = Queue(
    capacity: nat,
    items: seq<Packet>,
    waiting: bool,
    token: bool,
    closed: bool,
    senders: seq<Sender>,
    consumer: Consumer,
    more: bool,              // what the last return said
    wire: seq<Byte>,         // every byte ever sent
    held: seq<Byte>,         // bytes written and not sent yet
    accepted: seq<Packet>,   // every packet ever enqueued, in order
    delivered: seq<Packet>)  // every packet ever returned, in order

  datatype Label =
    | Call(p: Packet)
    | Send(i: nat, accept: bool)
    | Take
    | Consume(byToken: bool)
    | Write(wire: seq<Byte>, held: seq<Byte>, ok: bool)
    | Close

  function Initial(capacity: nat): Queue {
    Queue(capacity, [], false, false, false, [], Outside, false, [], [], [], [])
  }

  function SetSender(s: Queue, i: nat, x: Sender): Queue
    requires i < |s.senders|
  {
    s.(senders := s.senders[i := x])
  }

  /** A queue with room accepts, a full one refuses; a closed one may do either. */
  function SendStep(s: Queue, i: nat, accept: bool): Queue
    requires i < |s.senders|
  {
    match s.senders[i]
    case Enqueue(p) =>
      if |s.items| < s.capacity && (accept || !s.closed)
      then SetSender(s.(items := s.items + [p], accepted := s.accepted + [p]), i, ReadFlag)
      else SetSender(s, i, Refused)
    case ReadFlag => SetSender(s, i, if s.waiting then Notify else Sent)
    case Notify => SetSender(s.(token := true), i, Sent)
    case Sent => s
    case Refused => s
  }

  function Dequeue(s: Queue, empty: Consumer): Queue {
    if s.items == [] then s.(consumer := empty)
    else s.(items := s.items[1..], consumer := LowerFlag(s.items[0]))
  }

  /** The consumer's statements; parked, it may go on by a token or by the close, whichever `byToken` picks
      when both are there. */
  function ConsumeStep(s: Queue, byToken: bool): Queue {
    match s.consumer
    case Outside => s
    case FirstTry => Dequeue(s, RaiseFlag)
    case RaiseFlag => s.(waiting := true, consumer := SecondTry)
    case SecondTry => Dequeue(s, Parked)
    case Parked =>
      if s.token && (byToken || !s.closed) then s.(token := false, consumer := FirstTry)
      else if s.closed then s.(consumer := Stopped)
      else s
    case LowerFlag(p) => s.(waiting := false, consumer := MeasureRest(p))
    case MeasureRest(p) => s.(more := s.items != [], delivered := s.delivered + [p], consumer := Writing(p))
    case Writing(_) => s
    case Broken => s
    case Stopped => s
  }

  /** The packet is written as `SessionWritePacket` writes it, with the `more` that came with it. */
  function WriteStep(s: Queue, wire: seq<Byte>, held: seq<Byte>, ok: bool): Queue {
    if s.consumer.Writing? && Wrote(s.wire, s.held, s.consumer.p, s.more, wire, held, ok)
    then s.(wire := wire, held := held, consumer := if ok then Outside else Broken)
    else s
  }

  function Step(s: Queue, a: Label): Queue {
    match a
    case Call(p) => s.(senders := s.senders + [Enqueue(p)])
    case Send(i, accept) => if i < |s.senders| then SendStep(s, i, accept) else s
    case Take => if s.consumer.Outside? then s.(consumer := FirstTry) else s
    case Consume(byToken) => ConsumeStep(s, byToken)
    case Write(wire, held, ok) => WriteStep(s, wire, held, ok)
    case Close => s.(closed := true)
  }

  function Run(s: Queue, labels: seq<Label>): Queue
    decreases |labels|
  {
    if labels == [] then s else Run(Step(s, labels[0]), labels[1..])
  }

  // ---------- What every step keeps ----------

  /** A sender between its enqueue and the end of its notification. */
  predicate OnItsWay(x: Sender) {
    x.ReadFlag? || x.Notify?
  }

  ghost predicate SomeOnItsWay(s: Queue) {
    exists i: nat :: i < |s.senders| && OnItsWay(s.senders[i])
  }

  function InHand(c: Consumer): seq<Packet> {
    if c.LowerFlag? || c.MeasureRest? then [c.p] else []
  }

  /** The packets whose writing has been finished, or broken off. */
  function Written(s: Queue): seq<Packet> {
    if s.consumer.Writing? && s.delivered != [] then s.delivered[..|s.delivered| - 1] else s.delivered
  }

  predicate FlowOk(s: Queue) {
    && (s.consumer.Writing? ==> s.delivered != [] && s.consumer.p == s.delivered[|s.delivered| - 1])
    && (if s.consumer.Broken? then s.wire + s.held <= Frames(s.delivered) else s.wire + s.held == Frames(Written(s)))
    && (s.held != [] && !s.consumer.Writing? && !s.consumer.Broken? ==> s.more)
  }

  ghost predicate Inv(s: Queue) {
    && s.accepted == s.delivered + InHand(s.consumer) + s.items
    && |s.items| <= s.capacity
    && (s.consumer.SecondTry? || s.consumer.Parked? ==> s.waiting)
    && (s.consumer.Parked? && s.items != [] ==> s.token || SomeOnItsWay(s))
    && ((s.consumer.RaiseFlag? || s.consumer.SecondTry? || s.consumer.Parked? || s.consumer.Stopped?) ==> !s.more)
    && (s.more && (s.consumer.Outside? || s.consumer.FirstTry? || s.consumer.Writing?) ==> s.items != [])
    && (s.waiting ==> MayWait(s.consumer))
    && (s.consumer.Stopped? ==> s.closed)
  }

  /** From its first look at an empty queue until it has found the next packet. */
  predicate MayWait(c: Consumer) {
    c.FirstTry? || c.RaiseFlag? || c.SecondTry? || c.Parked? || c.LowerFlag? || c.Stopped?
  }

  lemma StillOnItsWay(s: Queue, s': Queue, i: nat)
    requires i < |s.senders| && i < |s'.senders| && OnItsWay(s'.senders[i])
    ensures SomeOnItsWay(s')
  {
  }

  /** A sender's step: it adds to the queue's end and is then on its way, or leaves the queue alone; it stops being on
      its way only with the flag down or a token put; and it touches nothing of the consumer's. */
  lemma SendKeeps(s: Queue, i: nat, accept: bool)
    requires i < |s.senders|
    ensures var s' := SendStep(s, i, accept);
            && s'.consumer == s.consumer && s'.delivered == s.delivered && s'.more == s.more
            && s'.wire == s.wire && s'.held == s.held
            && s'.capacity == s.capacity && s'.waiting == s.waiting && (s.token ==> s'.token)
            && |s'.senders| == |s.senders| && s'.senders == s.senders[i := s'.senders[i]]
            && (|| (s'.items == s.items && s'.accepted == s.accepted)
                || (&& |s.items| < s.capacity && s'.senders[i].ReadFlag?
                    && s'.items == s.items + [s.senders[i].p] && s'.accepted == s.accepted + [s.senders[i].p]))
            && (OnItsWay(s.senders[i]) && !OnItsWay(s'.senders[i]) ==> s'.token || !s.waiting)
  {
  }

  lemma SendInv(s: Queue, i: nat, accept: bool)
    requires Inv(s) && i < |s.senders|
    ensures var s' := SendStep(s, i, accept); Inv(s')
  {
    var s' := SendStep(s, i, accept);
    SendKeeps(s, i, accept);
    if s.consumer.Parked? && s'.items != [] && !s'.token {
      if OnItsWay(s'.senders[i]) {
        StillOnItsWay(s, s', i);
      } else {
        var j: nat :| j < |s.senders| && OnItsWay(s.senders[j]);
        assert j != i;
        StillOnItsWay(s, s', j);
      }
    }
  }

  lemma CallInv(s: Queue, p: Packet)
    requires Inv(s)
    ensures Inv(Step(s, Call(p)))
  {
    var s' := Step(s, Call(p));
    if SomeOnItsWay(s) {
      var j: nat :| j < |s.senders| && OnItsWay(s.senders[j]);
      assert s'.senders[j] == s.senders[j];
    }
  }

  lemma ConsumeInv(s: Queue, byToken: bool)
    requires Inv(s)
    ensures Inv(ConsumeStep(s, byToken))
  {
    if s.items != [] { assert s.items == [s.items[0]] + s.items[1..]; }
  }

  lemma WriteInv(s: Queue, wire: seq<Byte>, held: seq<Byte>, ok: bool)
    requires Inv(s)
    ensures Inv(WriteStep(s, wire, held, ok))
  {
  }

  lemma StepInv(s: Queue, a: Label)
    requires Inv(s)
    ensures Inv(Step(s, a))
  {
    match a {
      case Call(p) => CallInv(s, p);
      case Send(i, accept) => if i < |s.senders| { SendInv(s, i, accept); }
      case Consume(byToken) => ConsumeInv(s, byToken);
      case Write(wire, held, ok) => WriteInv(s, wire, held, ok);
      case _ => assert SomeOnItsWay(s) ==> SomeOnItsWay(Step(s, a));
    }
  }

  lemma {:induction false} RunInv(s: Queue, labels: seq<Label>)
    requires Inv(s)
    ensures Inv(Run(s, labels))
    decreases |labels|
  {
    if labels != [] {
      StepInv(s, labels[0]);
      RunInv(Step(s, labels[0]), labels[1..]);
    }
  }

  lemma ConsumeFlow(s: Queue, byToken: bool)
    requires Inv(s) && FlowOk(s)
    ensures FlowOk(ConsumeStep(s, byToken))
  {
    if s.consumer.MeasureRest? { DeliveryFlow(s, byToken); }
  }

  lemma DeliveryFlow(s: Queue, byToken: bool)
    requires FlowOk(s) && s.consumer.MeasureRest?
    ensures FlowOk(ConsumeStep(s, byToken))
  {
    assert Written(ConsumeStep(s, byToken)) == s.delivered;
  }

  lemma WriteFlow(s: Queue, wire: seq<Byte>, held: seq<Byte>, ok: bool)
    requires FlowOk(s)
    ensures FlowOk(WriteStep(s, wire, held, ok))
  {
    if s.consumer.Writing? {
      FramesAppend(Written(s), s.consumer.p);
      assert Written(s) + [s.consumer.p] == s.delivered;
    }
  }

  lemma SameFlow(s: Queue, s': Queue)
    requires FlowOk(s) && s'.consumer == s.consumer && s'.delivered == s.delivered && s'.more == s.more
    requires s'.wire == s.wire && s'.held == s.held
    ensures FlowOk(s')
  {
  }

  lemma StepFlow(s: Queue, a: Label)
    requires Inv(s) && FlowOk(s)
    ensures FlowOk(Step(s, a))
  {
    match a {
      case Call(_) => SameFlow(s, Step(s, a));
      case Send(i, accept) =>
        if i < |s.senders| {
          SendKeeps(s, i, accept);
          SameFlow(s, Step(s, a));
        }
      case Take =>
      case Consume(byToken) => ConsumeFlow(s, byToken);
      case Write(wire, held, ok) => WriteFlow(s, wire, held, ok);
      case Close => SameFlow(s, Step(s, a));
    }
  }

  lemma {:induction false} RunFlow(s: Queue, labels: seq<Label>)
    requires Inv(s) && FlowOk(s)
    ensures Inv(Run(s, labels)) && FlowOk(Run(s, labels))
    decreases |labels|
  {
    if labels != [] {
      StepInv(s, labels[0]);
      StepFlow(s, labels[0]);
      RunFlow(Step(s, labels[0]), labels[1..]);
    }
  }

  // ---------- What it means ----------

  /** No wake-up is lost: whatever the interleaving, a parked consumer facing a non-empty queue has a token
      waiting for it or a sender about to leave one; and a token or a close gets it going again. */
  lemma NoLostWakeup(capacity: nat, labels: seq<Label>, byToken: bool)
    ensures var s := Run(Initial(capacity), labels);
            s.consumer.Parked? ==>
              && (s.items != [] ==> s.token || SomeOnItsWay(s))
              && (s.token || s.closed ==> !ConsumeStep(s, byToken).consumer.Parked?)
              && (ConsumeStep(s, byToken).consumer.FirstTry? <==> s.token && (byToken || !s.closed))
  {
    RunInv(Initial(capacity), labels);
  }

  /** A close gets it going too: a parked consumer stops at its next step unless there is a token for it. */
  lemma CloseReleases(capacity: nat, labels: seq<Label>, byToken: bool)
    ensures var s := Run(Initial(capacity), labels);
            s.consumer.Parked? ==>
              var s' := Step(Step(s, Close), Consume(byToken));
              if s.token && byToken then s'.consumer.FirstTry? else s'.consumer.Stopped?
  {
  }

  /** That sender does leave one: while the consumer stays parked, each of its steps brings the token nearer,
      and the second at the latest puts it there. */
  lemma SenderWakes(capacity: nat, labels: seq<Label>, i: nat, accept: bool)
    ensures var s := Run(Initial(capacity), labels);
            s.consumer.Parked? && i < |s.senders| && OnItsWay(s.senders[i]) ==>
              var s1 := Step(s, Send(i, accept));
              s1.token || Step(s1, Send(i, accept)).token
  {
    RunInv(Initial(capacity), labels);
    var s := Run(Initial(capacity), labels);
    if s.consumer.Parked? && i < |s.senders| && OnItsWay(s.senders[i]) { SenderPuts(s, i, accept); }
  }

  lemma SenderPuts(s: Queue, i: nat, accept: bool)
    requires s.waiting && i < |s.senders| && OnItsWay(s.senders[i])
    ensures var s1 := Step(s, Send(i, accept)); s1.token || Step(s1, Send(i, accept)).token
  {
  }

  /** When everything has come to rest with the consumer parked, everything accepted has been delivered. */
  lemma RestMeansDelivered(capacity: nat, labels: seq<Label>)
    ensures var s := Run(Initial(capacity), labels);
            s.consumer.Parked? && !s.token && !SomeOnItsWay(s) ==> s.delivered == s.accepted
  {
    RunInv(Initial(capacity), labels);
  }

  /** Packets leave in the order in which they were enqueued, none twice, and none is ever lost: what has
      been accepted is what was delivered, the one in hand, and the queue. */
  lemma InOrder(capacity: nat, labels: seq<Label>)
    ensures var s := Run(Initial(capacity), labels);
            && s.delivered <= s.accepted
            && s.accepted[|s.delivered|..] == InHand(s.consumer) + s.items
            && |s.items| <= capacity
  {
    RunInv(Initial(capacity), labels);
    CapacityFixed(Initial(capacity), labels);
    var s := Run(Initial(capacity), labels);
    assert s.accepted == s.delivered + (InHand(s.consumer) + s.items);
  }

  lemma {:induction false} CapacityFixed(s: Queue, labels: seq<Label>)
    ensures Run(s, labels).capacity == s.capacity
    decreases |labels|
  {
    if labels != [] { CapacityFixed(Step(s, labels[0]), labels[1..]); }
  }

  /** Having said that more packets follow, the consumer finds one at once: it is never about to park, parked
      or stopped with its last answer `more`, so the writer may keep bytes back on that answer. */
  lemma MoreIsKept(capacity: nat, labels: seq<Label>, byToken: bool)
    ensures var s := Run(Initial(capacity), labels);
            && (s.consumer.RaiseFlag? || s.consumer.SecondTry? || s.consumer.Parked? || s.consumer.Stopped? ==> !s.more)
            && (s.more && s.consumer.FirstTry? ==> ConsumeStep(s, byToken).consumer.LowerFlag?)
  {
    RunInv(Initial(capacity), labels);
  }

  /** The consumer answers `more` exactly when more has been accepted than delivered, what it answers with included. */
  lemma MoreExactlyWhenQueued(capacity: nat, labels: seq<Label>, byToken: bool)
    ensures var s := Run(Initial(capacity), labels);
            s.consumer.MeasureRest? ==>
              var s' := Step(s, Consume(byToken));
              && s'.consumer == Writing(s.consumer.p) && s'.delivered == s.delivered + [s.consumer.p]
              && (s'.more <==> |s'.accepted| > |s'.delivered|)
  {
    RunInv(Initial(capacity), labels);
  }

  /** A packet is accepted exactly when fewer than `capacity` lie between those accepted and those taken off the queue;
      only once the session has closed may it be refused all the same. */
  lemma AcceptedExactlyWhenRoom(capacity: nat, labels: seq<Label>, i: nat, accept: bool)
    ensures var s := Run(Initial(capacity), labels);
            i < |s.senders| && s.senders[i].Enqueue? ==>
              var s' := Step(s, Send(i, accept));
              var queued := |s.accepted| - |s.delivered| - |InHand(s.consumer)|;
              && |s'.senders| == |s.senders| && (s'.senders[i].ReadFlag? || s'.senders[i].Refused?)
              && s'.accepted == (if s'.senders[i].Refused? then s.accepted else s.accepted + [s.senders[i].p])
              && (s'.senders[i].ReadFlag? <==> queued < capacity && (!s.closed || accept))
  {
    RunInv(Initial(capacity), labels);
    CapacityFixed(Initial(capacity), labels);
  }

  /** A busy consumer is left alone: while it has a packet in hand, is writing one or is away, no sender puts a token;
      and it stops for nothing but a close. */
  lemma OnlyTheWaitingAreWoken(capacity: nat, labels: seq<Label>, i: nat, accept: bool)
    ensures var s := Run(Initial(capacity), labels);
            && (!MayWait(s.consumer) && i < |s.senders| && s.senders[i].ReadFlag? ==>
                  Step(s, Send(i, accept)) == SetSender(s, i, Sent))
            && (s.consumer.Stopped? ==> s.closed)
  {
    RunInv(Initial(capacity), labels);
  }

  /** How far the consumer can get by itself. */
  function Restlessness(s: Queue): nat {
    var place := match s.consumer
      case Outside => 0
      case FirstTry => 6
      case RaiseFlag => 5
      case SecondTry => 4
      case Parked => 3
      case LowerFlag(_) => 2
      case MeasureRest(_) => 1
      case Writing(_) => 0
      case Broken => 0
      case Stopped => 0;
    place + if s.token then 6 else 0
  }

  /** It does not spin: left to itself it comes to wait, or to return, within twelve steps, since every wake-up costs
      a token. */
  lemma ConsumerDoesNotSpin(s: Queue, byToken: bool)
    ensures Restlessness(s) <= 12
    ensures ConsumeStep(s, byToken) == s || Restlessness(ConsumeStep(s, byToken)) < Restlessness(s)
    ensures s.consumer.Parked? ==>
              (ConsumeStep(s, byToken).consumer.FirstTry? ==> s.token) && (ConsumeStep(s, byToken) == s ==> !s.token)
  {
  }

  /** No byte is stranded: bytes held back, with the consumer outside or at its first try, mean that another packet
      is queued, whose writing will take them along; and once it is about to park, parked or stopped there are none. */
  lemma NoStrandedBytes(capacity: nat, labels: seq<Label>)
    ensures var s := Run(Initial(capacity), labels);
            && (s.held != [] && (s.consumer.Outside? || s.consumer.FirstTry?) ==> s.items != [])
            && (s.consumer.RaiseFlag? || s.consumer.SecondTry? || s.consumer.Parked? || s.consumer.Stopped? ==>
                  s.held == [])
  {
    RunFlow(Initial(capacity), labels);
  }

  /** What is on the wire is always a beginning of the frames of what was accepted, in order; and when everything
      has come to rest with the consumer parked it is all of them. */
  lemma RestMeansWritten(capacity: nat, labels: seq<Label>)
    ensures var s := Run(Initial(capacity), labels);
            && s.wire <= Frames(s.accepted)
            && (s.consumer.Parked? && !s.token && !SomeOnItsWay(s) ==> s.wire == Frames(s.accepted) && s.held == [])
  {
    RunFlow(Initial(capacity), labels);
    var s := Run(Initial(capacity), labels);
    var n := |Written(s)|;
    assert s.delivered[..|s.delivered|] == s.delivered;
    assert s.accepted[..n] == Written(s) && s.accepted[..|s.delivered|] == s.delivered;
    FramesPrefix(s.accepted, n);
    FramesPrefix(s.accepted, |s.delivered|);
  }

  /** From sender to reader: whatever the interleaving, the batching and the failures, the other end reads a
      beginning of what was accepted here, in order; and all of it once everything has come to rest. */
  lemma ReaderGetsWhatWasAccepted(capacity: nat, labels: seq<Label>, maxLength: nat)
    ensures var s := Run(Initial(capacity), labels);
            maxLength < TWO_32 && AllFit(s.accepted, maxLength) ==>
              && ReadAll(s.wire, maxLength) <= s.accepted
              && (s.consumer.Parked? && !s.token && !SomeOnItsWay(s) ==> ReadAll(s.wire, maxLength) == s.accepted)
  {
    RestMeansWritten(capacity, labels);
    var s := Run(Initial(capacity), labels);
    if maxLength < TWO_32 && AllFit(s.accepted, maxLength) { ReadAllOfPart(s.wire, s.accepted, maxLength); }
  }

  // ---------- Everything can be written ----------

  ghost predicate SomeNotifies(s: Queue) {
    exists i: nat :: i < |s.senders| && s.senders[i].Notify?
  }

  /** How far it is, at most, until the consumer waits with nothing left to do. */
  ghost function Distance(s: Queue): nat {
    var place := match s.consumer
      case LowerFlag(_) => 20
      case MeasureRest(_) => 19
      case Writing(_) => 18
      case Outside => 17
      case FirstTry => 16
      case RaiseFlag => 15
      case SecondTry => 14
      case Parked => if s.items != [] && !s.token then if SomeNotifies(s) then 24 else 25 else 13
      case Broken => 0
      case Stopped => 0;
    30 * |s.items| + place + if s.token then 10 else 0
  }

  predicate AtRest(s: Queue) {
    s.consumer.Parked? && s.items == [] && !s.token
  }

  /** The next step of whoever has to move: a sender with the token the consumer waits for, or the consumer itself. */
  lemma Nearer(s: Queue) returns (a: Label)
    requires Inv(s) && !s.closed && !s.consumer.Broken? && !AtRest(s)
    ensures Distance(Step(s, a)) < Distance(s)
    ensures !Step(s, a).closed && !Step(s, a).consumer.Broken? && Step(s, a).accepted == s.accepted
  {
    if s.consumer.Outside? {
      a := Take;
    } else if s.consumer.Writing? {
      var wire := s.wire + s.held + Frame(s.consumer.p);
      assert s.wire + s.held + Frame(s.consumer.p) == s.wire + (s.held + Frame(s.consumer.p));
      assert s.wire <= wire && s.wire + s.held <= wire && wire + [] == wire;
      a := Write(wire, [], true);
    } else if s.consumer.Parked? && !s.token {
      a := SenderNearer(s);
    } else {
      a := Consume(true);
    }
  }

  lemma SenderNearer(s: Queue) returns (a: Label)
    requires Inv(s) && !s.closed && s.consumer.Parked? && !s.token && s.items != []
    ensures Distance(Step(s, a)) < Distance(s)
    ensures !Step(s, a).closed && !Step(s, a).consumer.Broken? && Step(s, a).accepted == s.accepted
  {
    if SomeNotifies(s) {
      var i: nat :| i < |s.senders| && s.senders[i].Notify?;
      a := Send(i, true);
    } else {
      var i: nat :| i < |s.senders| && OnItsWay(s.senders[i]);
      a := Send(i, true);
      assert Step(s, a).senders[i].Notify?;
    }
  }

  lemma {:induction false} Drains(s: Queue) returns (labels: seq<Label>)
    requires Inv(s) && FlowOk(s) && !s.closed && !s.consumer.Broken?
    ensures var s' := Run(s, labels);
            AtRest(s') && s'.accepted == s.accepted && Inv(s') && FlowOk(s')
    decreases Distance(s)
  {
    if AtRest(s) { return []; }
    var a := Nearer(s);
    StepInv(s, a);
    StepFlow(s, a);
    var rest := Drains(Step(s, a));
    labels := [a] + rest;
    assert labels[1..] == rest;
  }

  /** Nothing stays behind for good: from every state an open session can come to, the goroutines there are can go on
      until all that has been accepted is delivered and on the wire. */
  lemma AllCanBeWritten(capacity: nat, labels: seq<Label>)
    ensures var s := Run(Initial(capacity), labels);
            !s.closed && !s.consumer.Broken? ==>
              exists more: seq<Label> ::
                var s' := Run(s, more);
                s'.consumer.Parked? && s'.delivered == s'.accepted == s.accepted && s'.wire == Frames(s.accepted)
  {
    RunFlow(Initial(capacity), labels);
    var s := Run(Initial(capacity), labels);
    if !s.closed && !s.consumer.Broken? {
      var more := Drains(s);
      var s' := Run(s, more);
      assert s'.held == [] && s'.wire + [] == s'.wire;
    }
  }
}
