/** Two nodes that may dial each other at the same moment, and what their handshakes and two decisions lead to. */
module TwoNodes {
  import opened Wrappers
  import opened NodeIds
  import opened Establish

  datatype Msg = Apply(time: int) | Accepted | Rejected | Completed | CompletedAck

  /** Where the goroutine that dials stands; the statement it is about to execute. */
  datatype Dialer =
    | NotStarted
    | Guard           // look for a session once more
    | Dial
    | Handshake       // startActiveHandshake
    | SendApply
    | AwaitResponse
    | AboutToSucceed  // activeAboutSuccess
    | SendCompleted
    | AwaitAck
    | Succeeding      // activeSuccess, and perhaps establishEnd
    | Failing         // activeFail, and perhaps establishEnd
    | Finished

  /** Where the goroutine that serves the incoming connection stands. */
  datatype Acceptor =
    | AwaitApply
    | Fetch(time: int)     // session check and getOrCreateEstablishment
    | Starting(time: int)  // startPassive
    | PassiveGuard
    | SendAccepted
    | AwaitReply
    | SendAck
    | PassiveSucceeding    // passiveSuccess, and perhaps establishEnd
    | Refusing
    | Refused
    | Served

  datatype Conn = Conn(toAcceptor: seq<Msg>, toDialer: seq<Msg>, closedBy: set<nat>)

  /** A session is named by the connection it owns. */
  datatype Node = Node(es: Est, dialer: Dialer, acceptor: Acceptor)

  /** Connection `i` is the one node `i` dials; it carries one FIFO queue of handshake messages each way. Nothing fails
      and no session closes. */
  datatype World = World(ids: seq<NodeId>, nodes: seq<Node>, conns: seq<Conn>)

  datatype Action =
    | Connect(node: nat, time: int)
    | Dialing(node: nat)
    | Accepting(node: nat)

  function Initial(a: NodeId, b: NodeId): World {
    var n := Node(FRESH, NotStarted, AwaitApply);
    var c := Conn([], [], {});
    World([a, b], [n, n], [c, c])
  }

  function Peer(i: nat): nat
    requires i < 2
  {
    1 - i
  }

  predicate Shaped(w: World) {
    |w.ids| == 2 && |w.nodes| == 2 && |w.conns| == 2
  }

  predicate Tie(w: World, i: nat)
    requires Shaped(w) && i < 2
  {
    Less(w.ids[i], w.ids[Peer(i)])
  }

  /** What node `i` works on: its own state, the connection it dials and the one it is dialed on. */
  datatype View = View(node: Node, out: Conn, inc: Conn)

  function ViewOf(w: World, i: nat): View
    requires Shaped(w) && i < 2
  {
    View(w.nodes[i], w.conns[i], w.conns[Peer(i)])
  }

  function PutBack(w: World, i: nat, v: View): World
    requires Shaped(w) && i < 2
  {
    w.(nodes := w.nodes[i := v.node], conns := w.conns[i := v.out][Peer(i) := v.inc])
  }

  predicate Published(n: Node) {
    n.es.IsEnd() && n.es.session.Some?
  }

  function At(v: View, es: Est, d: Dialer): View {
    v.(node := v.node.(es := es, dialer := d))
  }

  function AtAcceptor(v: View, es: Est, a: Acceptor): View {
    v.(node := v.node.(es := es, acceptor := a))
  }

  /** Node `i` closes connection `c`. */
  function Close(v: View, i: nat, c: Option<nat>): View {
    if c == Some(i) then v.(out := v.out.(closedBy := v.out.closedBy + {i}))
    else if c.Some? then v.(inc := v.inc.(closedBy := v.inc.closedBy + {i}))
    else v
  }

  /** `establishEnd` at node `i`, once `side` has just finished: nothing while the other direction is
      still under way, else the decision, its closing of the loser, and the published session. */
  function MaybeEnd(v: View, i: nat, side: Side, tie: bool): View {
    var es := v.node.es;
    if es.IsEstablishing(side.Other()) || es.IsEnd() then v
    else
      var d := es.Decide(tie);
      var v1 := Close(v, i, d.drop);
      v1.(node := v1.node.(es := if d.err.Some? then es.Finish(None, d.err) else es.Finish(d.conn, None)))
  }

  function DialStep(v: View, i: nat, tie: bool): View {
    var es := v.node.es;
    match v.node.dialer
    case NotStarted => v
    case Guard =>
      if Published(v.node) then At(v, es.Finish(es.session, None), Finished) else At(v, es, Dial)
    case Dial => At(v, es, Handshake)
    case Handshake =>
      var o := es.StartActiveHandshake();
      At(v, o.es, if o.ok then SendApply else Finished)
    case SendApply =>
      var t := if es.active.Some? then es.active.value.startTime else 0;
      At(v, es, AwaitResponse).(out := v.out.(toAcceptor := v.out.toAcceptor + [Apply(t)]))
    case AwaitResponse =>
      if v.out.toDialer == [] then v
      else At(v, es, if v.out.toDialer[0].Accepted? then AboutToSucceed else Failing)
           .(out := v.out.(toDialer := v.out.toDialer[1..]))
    case AboutToSucceed => At(v, es.AboutSuccess().es, SendCompleted)
    case SendCompleted =>
      At(v, es, AwaitAck).(out := v.out.(toAcceptor := v.out.toAcceptor + [Completed]))
    case AwaitAck =>
      if v.out.toDialer == [] then v
      else At(v, es, if v.out.toDialer[0].CompletedAck? then Succeeding else Failing)
           .(out := v.out.(toDialer := v.out.toDialer[1..]))
    case Succeeding =>
      var o := es.Succeed(Active, i);
      if o.ok then MaybeEnd(At(v, o.es, Finished), i, Active, tie)
      else Close(At(v, es, Finished), i, Some(i))
    case Failing =>
      var o := es.Fail(Active, HandshakeRejected);
      var v1 := Close(At(v, o.es, Finished), i, Some(i));
      if o.ok then MaybeEnd(v1, i, Active, tie) else v1
    case Finished => v
  }

  function AcceptStep(v: View, i: nat, tie: bool): View
    requires i < 2
  {
    var es := v.node.es;
    match v.node.acceptor
    case AwaitApply =>
      if v.inc.toAcceptor == [] || !v.inc.toAcceptor[0].Apply? then v
      else AtAcceptor(v, es, Fetch(v.inc.toAcceptor[0].time)).(inc := v.inc.(toAcceptor := v.inc.toAcceptor[1..]))
    case Fetch(t) => AtAcceptor(v, es, if Published(v.node) then Refusing else Starting(t))
    case Starting(t) =>
      var o := es.Start(Passive, t);
      AtAcceptor(v, o.es, if o.ok then PassiveGuard else Refusing)
    case PassiveGuard =>
      if Published(v.node) then AtAcceptor(v, es.Finish(es.session, None), Served)
      else AtAcceptor(v, es, SendAccepted)
    case SendAccepted =>
      AtAcceptor(v, es, AwaitReply).(inc := v.inc.(toDialer := v.inc.toDialer + [Accepted]))
    case AwaitReply =>
      if v.inc.toAcceptor == [] then v
      else
        var v1 := v.(inc := v.inc.(toAcceptor := v.inc.toAcceptor[1..]));
        if v.inc.toAcceptor[0].Completed? then AtAcceptor(v1, es, SendAck)
        else
          var o := es.Fail(Passive, ReadHandshakeResp);
          var v2 := Close(AtAcceptor(v1, o.es, Served), i, Some(Peer(i)));
          if o.ok then MaybeEnd(v2, i, Passive, tie) else v2
    case SendAck =>
      AtAcceptor(v, es, PassiveSucceeding).(inc := v.inc.(toDialer := v.inc.toDialer + [CompletedAck]))
    case PassiveSucceeding =>
      var o := es.Succeed(Passive, Peer(i));
      if o.ok then MaybeEnd(AtAcceptor(v, o.es, Served), i, Passive, tie)
      else AtAcceptor(v, es, Served)
    case Refusing =>
      Close(AtAcceptor(v, es, Refused).(inc := v.inc.(toDialer := v.inc.toDialer + [Rejected])), i, Some(Peer(i)))
    case Refused => v
    case Served => v
  }

  function ConnectStep(v: View, t: int): View {
    if v.node.dialer.NotStarted? then
      var o := v.node.es.Start(Active, t);
      At(v, o.es, if o.ok then Guard else NotStarted)
    else v
  }

  function Step(w: World, a: Action): World
    requires Shaped(w)
  {
    if 2 <= a.node then w
    else
      var v := ViewOf(w, a.node);
      PutBack(w, a.node,
              match a
              case Connect(_, t) => ConnectStep(v, t)
              case Dialing(i) => DialStep(v, i, Tie(w, i))
              case Accepting(i) => AcceptStep(v, i, Tie(w, i)))
  }

  // ---------- What every step keeps ----------

  /** How far the direction is while its goroutine stands at `d`. */
  function ReachedAt(d: Dialer): nat {
    match d
    case Guard => CONNECT
    case Dial => CONNECT
    case Handshake => CONNECT
    case SendCompleted => ABOUT_SUCCESS
    case AwaitAck => ABOUT_SUCCESS
    case Succeeding => ABOUT_SUCCESS
    case _ => HANDSHAKE
  }

  /** The direction a node's dialer has reached in its own establishment. */
  predicate DialerMatches(n: Node, i: nat) {
    if n.dialer.NotStarted? then n.es.active.None?
    else if n.dialer.Finished? then
      || (n.es.IsSuccess(Active) && n.es.Conn(Active) == Some(i))
      || (n.es.IsFail(Active) && n.es.Err(Active) == Some(HandshakeRejected))
    else n.es.IsEstablishing(Active) && n.es.active.value.state == ReachedAt(n.dialer)
  }

  /** Likewise for the acceptor; an accepted attempt carries the dialer's own start time. */
  predicate AcceptorMatches(n: Node, k: nat, dialed: Est) {
    match n.acceptor
    case AwaitApply => n.es.passive.None?
    case Fetch(_) => n.es.passive.None?
    case Starting(_) => n.es.passive.None?
    case Refusing => n.es.passive.None?
    case Refused => n.es.passive.None?
    case Served => n.es.IsSuccess(Passive) && n.es.Conn(Passive) == Some(k) && SameTime(n, dialed)
    case _ => n.es.IsEstablishing(Passive) && SameTime(n, dialed)
  }

  predicate SameTime(n: Node, dialed: Est) {
    dialed.active.Some? && n.es.passive.Some? && n.es.passive.value.startTime == dialed.active.value.startTime
  }

  /** Connection `c` between the dialer `d` and the acceptor `a` of the other node. */
  predicate ConnMatches(d: Node, a: Node, c: Conn) {
    var idle := c.toAcceptor == [] && c.toDialer == [];
    match d.dialer
    case AwaitResponse =>
      d.es.active.Some? &&
      var t := d.es.active.value.startTime;
      || (c.toAcceptor == [Apply(t)] && c.toDialer == [] && a.acceptor.AwaitApply?)
      || (idle && (a.acceptor == Fetch(t) || a.acceptor == Starting(t) || a.acceptor.PassiveGuard?
                   || a.acceptor.SendAccepted? || a.acceptor.Refusing?))
      || (c.toAcceptor == [] && c.toDialer == [Accepted] && a.acceptor.AwaitReply?)
      || (c.toAcceptor == [] && c.toDialer == [Rejected] && a.acceptor.Refused?)
    case AboutToSucceed => idle && a.acceptor.AwaitReply?
    case SendCompleted => idle && a.acceptor.AwaitReply?
    case AwaitAck =>
      || (c.toAcceptor == [Completed] && c.toDialer == [] && a.acceptor.AwaitReply?)
      || (idle && a.acceptor.SendAck?)
      || (c.toAcceptor == [] && c.toDialer == [CompletedAck] && AcceptorDone(a))
    case Succeeding => idle && AcceptorDone(a)
    case Failing => idle && a.acceptor.Refused?
    case Finished => idle && (if d.es.IsSuccess(Active) then AcceptorDone(a) else a.acceptor.Refused?)
    case _ => idle && a.acceptor.AwaitApply?
  }

  predicate AcceptorDone(a: Node) {
    a.acceptor.PassiveSucceeding? || a.acceptor.Served?
  }

  /** A node has ended exactly when it started and neither direction is under way, and then it keeps
      what the decision kept. */
  predicate EndMatches(n: Node, tie: bool) {
    && n.es.state == (if n.es.active.None? && n.es.passive.None? then 0
                      else if n.es.IsEstablishing(Active) || n.es.IsEstablishing(Passive) then STARTED
                      else END)
    && (n.es.IsEnd() ==> n.es.err == None && n.es.session.Some? && n.es.session == n.es.Decide(tie).conn)
    && n.es.signals == (if n.es.IsEnd() then 1 else 0)
  }

  /** Only a node that has already settled on its own connection refuses the other one. */
  predicate RefusalMatches(n: Node) {
    n.acceptor.Refusing? || n.acceptor.Refused? ==> n.es.IsEnd() && n.es.IsSuccess(Active)
  }

  /** Node `i` closed connection `k` exactly for a reason: it refused it, was refused on it, or ended with the other one
      when both had gone through. */
  predicate ClosedMatches(n: Node, i: nat, k: nat, c: Conn) {
    i in c.closedBy <==>
      || (i != k && n.acceptor.Refused?)
      || (i == k && n.dialer.Finished? && n.es.IsFail(Active))
      || (n.es.IsEnd() && n.es.session != Some(k) && n.es.IsSuccess(if i == k then Active else Passive))
  }

  /** All of this for node `i`, given its peer. */
  predicate NodeOk(v: View, peer: Node, i: nat, tie: bool)
    requires i < 2
  {
    && DialerMatches(v.node, i)
    && AcceptorMatches(v.node, Peer(i), peer.es)
    && ConnMatches(v.node, peer, v.out)
    && EndMatches(v.node, tie)
    && RefusalMatches(v.node)
    && ClosedMatches(v.node, i, i, v.out)
    && ClosedMatches(v.node, i, Peer(i), v.inc)
  }

  /** The same seen from the peer's side. */
  function Mirror(v: View, peer: Node): View {
    View(peer, v.inc, v.out)
  }

  predicate BothOk(v: View, peer: Node, i: nat, tie: bool, peerTie: bool)
    requires i < 2
  {
    && NodeOk(v, peer, i, tie)
    && NodeOk(Mirror(v, peer), v.node, Peer(i), peerTie)
  }

  predicate Inv(w: World) {
    Shaped(w) && BothOk(ViewOf(w, 0), w.nodes[1], 0, Tie(w, 0), Tie(w, 1))
  }

  lemma InitialInv(a: NodeId, b: NodeId)
    ensures var w := Initial(a, b); Inv(w)
  {
  }

  /** When a node's own dialer fails, its incoming connection has been accepted: the two never refuse
      each other. */
  lemma NoMutualRefusal(v: View, peer: Node, i: nat, tie: bool, peerTie: bool)
    requires i < 2 && BothOk(v, peer, i, tie, peerTie)
    requires v.node.dialer.Failing? || v.node.es.IsFail(Active)
    ensures AcceptorDone(v.node)
  {
  }

  /** The moment one direction of node `i` has just finished, before `establishEnd` looks at it: all of
      the above, except that the node has yet to end. */
  predicate JustFinished(v: View, peer: Node, i: nat, side: Side, tie: bool, peerTie: bool)
    requires i < 2
  {
    && DialerMatches(v.node, i)
    && AcceptorMatches(v.node, Peer(i), peer.es)
    && ConnMatches(v.node, peer, v.out)
    && RefusalMatches(v.node)
    && ClosedMatches(v.node, i, i, v.out)
    && ClosedMatches(v.node, i, Peer(i), v.inc)
    && NodeOk(Mirror(v, peer), v.node, Peer(i), peerTie)
    && v.node.es.state == STARTED && v.node.es.signals == 0
    && (v.node.es.IsSuccess(side) || (v.node.es.IsFail(side) && v.node.es.IsStarted(side.Other())))
    && !v.node.es.IsFail(Passive)
  }

  /** What `establishEnd` does to the node itself. */
  lemma MaybeEndSettles(v: View, i: nat, side: Side, tie: bool)
    requires i < 2
    requires v.node.es.state == STARTED && v.node.es.signals == 0
    requires v.node.es.IsSuccess(side) || (v.node.es.IsFail(side) && v.node.es.IsStarted(side.Other()))
    requires v.node.es.active.Some? ==>
               v.node.es.active.value.state in {CONNECT, HANDSHAKE, ABOUT_SUCCESS, SUCCESS, FAIL}
    requires v.node.es.passive.Some? ==> v.node.es.passive.value.state in {CONNECT, HANDSHAKE, ABOUT_SUCCESS, SUCCESS}
    requires v.node.es.IsSuccess(Active) ==> v.node.es.Conn(Active) == Some(i)
    requires v.node.es.IsSuccess(Passive) ==> v.node.es.Conn(Passive) == Some(Peer(i))
    requires ClosedMatches(v.node, i, i, v.out) && ClosedMatches(v.node, i, Peer(i), v.inc)
    ensures var v' := MaybeEnd(v, i, side, tie);
            && EndMatches(v'.node, tie)
            && ClosedMatches(v'.node, i, i, v'.out) && ClosedMatches(v'.node, i, Peer(i), v'.inc)
            && v'.node.es.active == v.node.es.active && v'.node.es.passive == v.node.es.passive
            && v'.node.dialer == v.node.dialer && v'.node.acceptor == v.node.acceptor
            && v'.out == v.out.(closedBy := v'.out.closedBy) && v'.inc == v.inc.(closedBy := v'.inc.closedBy)
            && v'.out.closedBy - {i} == v.out.closedBy - {i} && v'.inc.closedBy - {i} == v.inc.closedBy - {i}
  {
  }

  /** The peer's half speaks of this node's start time, acceptor and queues only. */
  lemma PeerUnaffected(v: View, v': View, peer: Node, i: nat, peerTie: bool)
    requires i < 2
    requires NodeOk(Mirror(v, peer), v.node, Peer(i), peerTie)
    requires v'.node.es.active == v.node.es.active && v'.node.acceptor == v.node.acceptor
    requires v'.out == v.out.(closedBy := v'.out.closedBy) && v'.inc == v.inc.(closedBy := v'.inc.closedBy)
    requires v'.out.closedBy - {i} == v.out.closedBy - {i} && v'.inc.closedBy - {i} == v.inc.closedBy - {i}
    ensures NodeOk(Mirror(v', peer), v'.node, Peer(i), peerTie)
  {
    assert Peer(i) in v'.out.closedBy - {i} <==> Peer(i) in v.out.closedBy - {i};
    assert Peer(i) in v'.inc.closedBy - {i} <==> Peer(i) in v.inc.closedBy - {i};
    assert ConnMatches(peer, v'.node, v'.inc) == ConnMatches(peer, v.node, v.inc);
  }

  lemma MaybeEndInv(v: View, peer: Node, i: nat, side: Side, tie: bool, peerTie: bool)
    requires i < 2 && JustFinished(v, peer, i, side, tie, peerTie)
    ensures var v' := MaybeEnd(v, i, side, tie); BothOk(v', peer, i, tie, peerTie)
  {
    var v' := MaybeEnd(v, i, side, tie);
    MaybeEndSettles(v, i, side, tie);
    PeerUnaffected(v, v', peer, i, peerTie);
    assert ConnMatches(v'.node, peer, v'.out) == ConnMatches(v.node, peer, v.out);
  }

  lemma ConnectStepInv(v: View, peer: Node, i: nat, t: int, tie: bool, peerTie: bool)
    requires i < 2 && BothOk(v, peer, i, tie, peerTie)
    ensures var v' := ConnectStep(v, t); BothOk(v', peer, i, tie, peerTie)
  {
  }

  lemma DialBeginInv(v: View, peer: Node, i: nat, tie: bool, peerTie: bool)
    requires i < 2 && BothOk(v, peer, i, tie, peerTie)
    requires v.node.dialer.Guard? || v.node.dialer.Dial? || v.node.dialer.Handshake? || v.node.dialer.SendApply?
    ensures var v' := DialStep(v, i, tie); BothOk(v', peer, i, tie, peerTie)
  {
  }

  lemma DialAwaitResponseInv(v: View, peer: Node, i: nat, tie: bool, peerTie: bool)
    requires i < 2 && BothOk(v, peer, i, tie, peerTie)
    requires v.node.dialer.AwaitResponse?
    ensures var v' := DialStep(v, i, tie); BothOk(v', peer, i, tie, peerTie)
  {
  }

  lemma DialAboutInv(v: View, peer: Node, i: nat, tie: bool, peerTie: bool)
    requires i < 2 && BothOk(v, peer, i, tie, peerTie)
    requires v.node.dialer.AboutToSucceed? || v.node.dialer.SendCompleted?
    ensures var v' := DialStep(v, i, tie); BothOk(v', peer, i, tie, peerTie)
  {
  }

  lemma DialAwaitAckInv(v: View, peer: Node, i: nat, tie: bool, peerTie: bool)
    requires i < 2 && BothOk(v, peer, i, tie, peerTie)
    requires v.node.dialer.AwaitAck?
    ensures var v' := DialStep(v, i, tie); BothOk(v', peer, i, tie, peerTie)
  {
  }

  lemma DialSucceedingInv(v: View, peer: Node, i: nat, tie: bool, peerTie: bool)
    requires i < 2 && BothOk(v, peer, i, tie, peerTie)
    requires v.node.dialer.Succeeding?
    ensures var v' := DialStep(v, i, tie); BothOk(v', peer, i, tie, peerTie)
  {
    var o := v.node.es.Succeed(Active, i);
    MaybeEndInv(At(v, o.es, Finished), peer, i, Active, tie, peerTie);
  }

  lemma DialFailingInv(v: View, peer: Node, i: nat, tie: bool, peerTie: bool)
    requires i < 2 && BothOk(v, peer, i, tie, peerTie)
    requires v.node.dialer.Failing?
    ensures var v' := DialStep(v, i, tie); BothOk(v', peer, i, tie, peerTie)
  {
    NoMutualRefusal(v, peer, i, tie, peerTie);
    var o := v.node.es.Fail(Active, HandshakeRejected);
    MaybeEndInv(Close(At(v, o.es, Finished), i, Some(i)), peer, i, Active, tie, peerTie);
  }

  lemma AcceptApplyInv(v: View, peer: Node, i: nat, tie: bool, peerTie: bool)
    requires i < 2 && BothOk(v, peer, i, tie, peerTie)
    requires v.node.acceptor.AwaitApply? || v.node.acceptor.Fetch?
    ensures var v' := AcceptStep(v, i, tie); BothOk(v', peer, i, tie, peerTie)
  {
  }

  lemma AcceptStartInv(v: View, peer: Node, i: nat, tie: bool, peerTie: bool)
    requires i < 2 && BothOk(v, peer, i, tie, peerTie)
    requires v.node.acceptor.Starting?
    ensures var v' := AcceptStep(v, i, tie); BothOk(v', peer, i, tie, peerTie)
  {
  }

  lemma AcceptGuardInv(v: View, peer: Node, i: nat, tie: bool, peerTie: bool)
    requires i < 2 && BothOk(v, peer, i, tie, peerTie)
    requires v.node.acceptor.PassiveGuard? || v.node.acceptor.SendAccepted?
    ensures var v' := AcceptStep(v, i, tie); BothOk(v', peer, i, tie, peerTie)
  {
  }

  lemma AcceptReplyInv(v: View, peer: Node, i: nat, tie: bool, peerTie: bool)
    requires i < 2 && BothOk(v, peer, i, tie, peerTie)
    requires v.node.acceptor.AwaitReply?
    ensures var v' := AcceptStep(v, i, tie); BothOk(v', peer, i, tie, peerTie)
  {
  }

  lemma AcceptAckInv(v: View, peer: Node, i: nat, tie: bool, peerTie: bool)
    requires i < 2 && BothOk(v, peer, i, tie, peerTie)
    requires v.node.acceptor.SendAck?
    ensures var v' := AcceptStep(v, i, tie); BothOk(v', peer, i, tie, peerTie)
  {
  }

  lemma AcceptSucceedingInv(v: View, peer: Node, i: nat, tie: bool, peerTie: bool)
    requires i < 2 && BothOk(v, peer, i, tie, peerTie)
    requires v.node.acceptor.PassiveSucceeding?
    ensures var v' := AcceptStep(v, i, tie); BothOk(v', peer, i, tie, peerTie)
  {
    var o := v.node.es.Succeed(Passive, Peer(i));
    MaybeEndInv(AtAcceptor(v, o.es, Served), peer, i, Passive, tie, peerTie);
  }

  lemma AcceptRefusingInv(v: View, peer: Node, i: nat, tie: bool, peerTie: bool)
    requires i < 2 && BothOk(v, peer, i, tie, peerTie)
    requires v.node.acceptor.Refusing?
    ensures var v' := AcceptStep(v, i, tie); BothOk(v', peer, i, tie, peerTie)
  {
  }

  lemma DialStepInv(v: View, peer: Node, i: nat, tie: bool, peerTie: bool)
    requires i < 2 && BothOk(v, peer, i, tie, peerTie)
    ensures var v' := DialStep(v, i, tie); BothOk(v', peer, i, tie, peerTie)
  {
    match v.node.dialer {
      case NotStarted =>
      case Finished =>
      case AwaitResponse => DialAwaitResponseInv(v, peer, i, tie, peerTie);
      case AboutToSucceed => DialAboutInv(v, peer, i, tie, peerTie);
      case SendCompleted => DialAboutInv(v, peer, i, tie, peerTie);
      case AwaitAck => DialAwaitAckInv(v, peer, i, tie, peerTie);
      case Succeeding => DialSucceedingInv(v, peer, i, tie, peerTie);
      case Failing => DialFailingInv(v, peer, i, tie, peerTie);
      case _ => DialBeginInv(v, peer, i, tie, peerTie);
    }
  }

  lemma AcceptStepInv(v: View, peer: Node, i: nat, tie: bool, peerTie: bool)
    requires i < 2 && BothOk(v, peer, i, tie, peerTie)
    ensures var v' := AcceptStep(v, i, tie); BothOk(v', peer, i, tie, peerTie)
  {
    match v.node.acceptor {
      case AwaitApply => AcceptApplyInv(v, peer, i, tie, peerTie);
      case Fetch(_) => AcceptApplyInv(v, peer, i, tie, peerTie);
      case Starting(_) => AcceptStartInv(v, peer, i, tie, peerTie);
      case PassiveGuard => AcceptGuardInv(v, peer, i, tie, peerTie);
      case SendAccepted => AcceptGuardInv(v, peer, i, tie, peerTie);
      case AwaitReply => AcceptReplyInv(v, peer, i, tie, peerTie);
      case SendAck => AcceptAckInv(v, peer, i, tie, peerTie);
      case PassiveSucceeding => AcceptSucceedingInv(v, peer, i, tie, peerTie);
      case Refusing => AcceptRefusingInv(v, peer, i, tie, peerTie);
      case _ =>
    }
  }

  /** The invariant may be read from either node. */
  lemma InvFromNode(w: World, i: nat)
    requires Shaped(w) && i < 2
    ensures Inv(w) <==> BothOk(ViewOf(w, i), w.nodes[Peer(i)], i, Tie(w, i), Tie(w, Peer(i)))
  {
    if i == 1 {
      assert Mirror(ViewOf(w, 0), w.nodes[1]) == ViewOf(w, 1);
      assert Mirror(ViewOf(w, 1), w.nodes[0]) == ViewOf(w, 0);
    }
  }

  lemma PutBackInv(w: World, i: nat, v: View)
    requires Shaped(w) && i < 2
    requires BothOk(v, w.nodes[Peer(i)], i, Tie(w, i), Tie(w, Peer(i)))
    ensures var w' := PutBack(w, i, v); Inv(w')
  {
    InvFromNode(PutBack(w, i, v), i);
    assert ViewOf(PutBack(w, i, v), i) == v;
  }

  lemma StepInv(w: World, a: Action)
    requires Inv(w)
    ensures var w' := Step(w, a); Inv(w') && w'.ids == w.ids
  {
    if a.node < 2 {
      var i := a.node;
      var v, peer := ViewOf(w, i), w.nodes[Peer(i)];
      var tie, peerTie := Tie(w, i), Tie(w, Peer(i));
      InvFromNode(w, i);
      match a {
        case Connect(_, t) =>
          ConnectStepInv(v, peer, i, t, tie, peerTie);
          PutBackInv(w, i, ConnectStep(v, t));
        case Dialing(_) =>
          DialStepInv(v, peer, i, tie, peerTie);
          PutBackInv(w, i, DialStep(v, i, tie));
        case Accepting(_) =>
          AcceptStepInv(v, peer, i, tie, peerTie);
          PutBackInv(w, i, AcceptStep(v, i, tie));
      }
    }
  }

  // ---------- Runs ----------

  function Run(w: World, actions: seq<Action>): (w': World)
    requires Shaped(w)
    ensures Shaped(w')
    decreases |actions|
  {
    if actions == [] then w else Run(Step(w, actions[0]), actions[1..])
  }

  lemma {:induction false} RunInv(w: World, actions: seq<Action>)
    requires Inv(w)
    ensures var w' := Run(w, actions); Inv(w') && w'.ids == w.ids
    decreases |actions|
  {
    if actions != [] {
      StepInv(w, actions[0]);
      RunInv(Step(w, actions[0]), actions[1..]);
    }
  }

  /** `newSession`'s activeEnd at node `i`. */
  predicate IsActiveEnd(w: World, i: nat)
    requires Shaped(w) && i < 2
  {
    w.nodes[i].es.Decide(Tie(w, i)).active
  }

  lemma AgreementOfInv(w: World)
    requires Inv(w) && w.ids[0] != w.ids[1]
    requires Published(w.nodes[0]) && Published(w.nodes[1])
    ensures exists k: nat :: k < 2 && KeptByBoth(w, k)
  {
    LessIsTotal(w.ids[0], w.ids[1]);
    var n, m := w.nodes[0].es, w.nodes[1].es;
    assert n.session == Some(0) || n.session == Some(1);
    var k := n.session.value;
    assert KeptByBoth(w, k);
  }

  /** Both nodes hold a session over connection `k`, the one that dialed it as the active end and the
      other as the passive end, and neither has closed it. */
  predicate KeptByBoth(w: World, k: nat)
    requires Shaped(w) && k < 2
  {
    && w.nodes[0].es.session == Some(k) && w.nodes[1].es.session == Some(k)
    && IsActiveEnd(w, k) && !IsActiveEnd(w, Peer(k))
    && 0 !in w.conns[k].closedBy && 1 !in w.conns[k].closedBy
  }

  /** Agreement: however the two dials interleave and whatever their start times, once both ends hold a
      session it is over the same connection. */
  lemma Agreement(a: NodeId, b: NodeId, actions: seq<Action>)
    requires a != b
    ensures var w := Run(Initial(a, b), actions);
            Published(w.nodes[0]) && Published(w.nodes[1]) ==>
              exists k: nat :: k < 2 && KeptByBoth(w, k)
  {
    InitialInv(a, b);
    RunInv(Initial(a, b), actions);
    var w := Run(Initial(a, b), actions);
    if Published(w.nodes[0]) && Published(w.nodes[1]) {
      AgreementOfInv(w);
    }
  }

  /** Which connection is kept: one whose dial was accepted rather than one whose dial was refused, and of two
      accepted the one dialed earlier, or at the same time by the node with the smaller id. */
  lemma WhichIsKept(a: NodeId, b: NodeId, actions: seq<Action>)
    requires a != b
    ensures var w := Run(Initial(a, b), actions);
            var n, m := w.nodes[0].es, w.nodes[1].es;
            Published(w.nodes[0]) && Published(w.nodes[1]) ==>
              && n.session == m.session
              && (n.session == Some(0) || n.session == Some(1))
              && (n.IsSuccess(Active) || m.IsSuccess(Active))
              && (n.session == Some(0) <==>
                    n.IsSuccess(Active) &&
                    (m.IsSuccess(Active) ==>
                       var t, u := n.active.value.startTime, m.active.value.startTime;
                       t < u || (t == u && Less(a, b))))
  {
    InitialInv(a, b);
    RunInv(Initial(a, b), actions);
    LessIsTotal(a, b);
    var w := Run(Initial(a, b), actions);
    if Published(w.nodes[0]) && Published(w.nodes[1]) { KeptOfInv(w); }
  }

  lemma KeptOfInv(w: World)
    requires Inv(w) && Published(w.nodes[0]) && Published(w.nodes[1]) && Tie(w, 0) != Tie(w, 1)
    ensures var n, m := w.nodes[0].es, w.nodes[1].es;
            && n.session == m.session && (n.session == Some(0) || n.session == Some(1))
            && (n.IsSuccess(Active) || m.IsSuccess(Active))
            && (n.session == Some(0) <==>
                  n.IsSuccess(Active) &&
                  (m.IsSuccess(Active) ==>
                     var t, u := n.active.value.startTime, m.active.value.startTime;
                     t < u || (t == u && Tie(w, 0))))
  {
  }

  // ---------- What the first success decides ----------

  /** Ends, start times and successes stay. */
  predicate Persists(a: Est, b: Est) {
    && (a.IsEnd() ==> b.IsEnd() && b.session == a.session)
    && forall side: Side ::
         && (a.Of(side).Some? ==> b.Of(side).Some? && b.Of(side).value.startTime == a.Of(side).value.startTime)
         && (a.IsSuccess(side) ==> b.IsSuccess(side))
  }

  lemma MaybeEndPersists(v: View, i: nat, side: Side, tie: bool)
    ensures Persists(v.node.es, MaybeEnd(v, i, side, tie).node.es)
  {
  }

  lemma FailPersists(es: Est, side: Side, err: Error)
    requires es.IsEstablishing(side)
    ensures Persists(es, es.Fail(side, err).es)
  {
  }

  lemma DialPersists(v: View, peer: Node, i: nat, tie: bool)
    requires i < 2 && NodeOk(v, peer, i, tie)
    ensures Persists(v.node.es, DialStep(v, i, tie).node.es)
  {
    var es := v.node.es;
    if v.node.dialer.Succeeding? {
      MaybeEndPersists(At(v, es.Succeed(Active, i).es, Finished), i, Active, tie);
    } else if v.node.dialer.Failing? {
      FailPersists(es, Active, HandshakeRejected);
      MaybeEndPersists(Close(At(v, es.Fail(Active, HandshakeRejected).es, Finished), i, Some(i)), i, Active, tie);
    }
  }

  lemma AcceptPersists(v: View, peer: Node, i: nat, tie: bool)
    requires i < 2 && NodeOk(v, peer, i, tie)
    ensures Persists(v.node.es, AcceptStep(v, i, tie).node.es)
  {
    var es := v.node.es;
    if v.node.acceptor.PassiveSucceeding? {
      MaybeEndPersists(AtAcceptor(v, es.Succeed(Passive, Peer(i)).es, Served), i, Passive, tie);
    } else if v.node.acceptor.AwaitReply? && v.inc.toAcceptor != [] {
      var v1 := v.(inc := v.inc.(toAcceptor := v.inc.toAcceptor[1..]));
      FailPersists(es, Passive, ReadHandshakeResp);
      MaybeEndPersists(Close(AtAcceptor(v1, es.Fail(Passive, ReadHandshakeResp).es, Served), i, Some(Peer(i))), i,
                       Passive, tie);
    }
  }

  lemma StepPersists(w: World, a: Action, i: nat)
    requires Inv(w) && i < 2
    ensures Persists(w.nodes[i].es, Step(w, a).nodes[i].es)
  {
    if a.node == i {
      DialPersists(ViewOf(w, i), w.nodes[Peer(i)], i, Tie(w, i));
      AcceptPersists(ViewOf(w, i), w.nodes[Peer(i)], i, Tie(w, i));
    }
  }

  lemma {:induction false} RunPersists(w: World, actions: seq<Action>, i: nat)
    requires Inv(w) && i < 2
    ensures Persists(w.nodes[i].es, Run(w, actions).nodes[i].es)
    decreases |actions|
  {
    if actions != [] {
      StepInv(w, actions[0]);
      StepPersists(w, actions[0], i);
      RunPersists(Step(w, actions[0]), actions[1..], i);
    }
  }

  /** Attempt `mine` started before `other`, or at the same time at the node with the smaller id. */
  predicate Precedes(mine: Attempt, other: Attempt, tie: bool) {
    mine.startTime < other.startTime || (mine.startTime == other.startTime && tie)
  }

  /** A dial that node `i` accepts goes through, and what decides is which of the two is the earlier. */
  lemma AcceptedGoesThrough(w: World, i: nat)
    requires Inv(w) && i < 2 && w.ids[0] != w.ids[1] && Published(w.nodes[0]) && Published(w.nodes[1])
    requires w.nodes[i].es.IsSuccess(Active) && w.nodes[i].es.passive.Some?
    ensures w.nodes[Peer(i)].es.IsSuccess(Active)
    ensures KeptByBoth(w, i) <==> Precedes(w.nodes[i].es.active.value, w.nodes[i].es.passive.value, Tie(w, i))
  {
    LessIsTotal(w.ids[0], w.ids[1]);
  }

  /** A node that has no other dial to think of ends with its own as soon as that succeeds. */
  lemma AloneItEnds(w: World, i: nat)
    requires Inv(w) && i < 2 && w.nodes[i].es.IsSuccess(Active) && w.nodes[i].es.passive.None?
    ensures w.nodes[i].es.IsEnd() && w.nodes[i].es.session == Some(i)
  {
  }

  /** When a dial has succeeded, one look at its node tells whether it will be kept: exactly if the node has not taken
      up the other's dial, or that one started later. */
  lemma SuccessIsKeptExactlyWhen(a: NodeId, b: NodeId, before: seq<Action>, i: nat, after: seq<Action>)
    requires a != b && i < 2
    ensures var v := Run(Initial(a, b), before);
            var w, es := Run(v, after), v.nodes[i].es;
            es.IsSuccess(Active) && Published(w.nodes[0]) && Published(w.nodes[1]) ==>
              (KeptByBoth(w, i) <==>
                 es.passive.None? || Precedes(es.active.value, es.passive.value, Tie(v, i)))
  {
    InitialInv(a, b);
    RunInv(Initial(a, b), before);
    var v := Run(Initial(a, b), before);
    RunInv(v, after);
    RunPersists(v, after, i);
    var w := Run(v, after);
    if v.nodes[i].es.IsSuccess(Active) && Published(w.nodes[0]) && Published(w.nodes[1]) {
      if v.nodes[i].es.passive.None? {
        AloneItEnds(v, i);
        AgreementOfInv(w);
      } else {
        AcceptedGoesThrough(w, i);
      }
    }
  }

  /** Connection `k` has succeeded at both its ends. */
  predicate Succeeded(w: World, k: nat)
    requires Shaped(w) && k < 2
  {
    w.nodes[k].es.IsSuccess(Active) && w.nodes[Peer(k)].es.IsSuccess(Passive)
  }

  /** "The first to succeed is kept", decided at the moment it succeeds: connection `i` has done so at both ends and the
      other at neither. It is kept exactly if its dialer has ended, or the other was dialed later. */
  lemma FirstToSucceedIsKeptExactlyWhen(a: NodeId, b: NodeId, before: seq<Action>, i: nat, after: seq<Action>)
    requires a != b && i < 2
    ensures var v := Run(Initial(a, b), before);
            var w, n, m := Run(v, after), v.nodes[i].es, v.nodes[Peer(i)].es;
            Succeeded(v, i) && !n.IsSuccess(Passive) && !m.IsSuccess(Active)
            && Published(w.nodes[0]) && Published(w.nodes[1]) ==>
              (KeptByBoth(w, i) <==>
                 n.IsEnd() || (m.active.Some? && Precedes(n.active.value, m.active.value, Tie(v, i))))
  {
    SuccessIsKeptExactlyWhen(a, b, before, i, after);
    InitialInv(a, b);
    RunInv(Initial(a, b), before);
    var v := Run(Initial(a, b), before);
    if v.nodes[i].es.IsSuccess(Active) && v.nodes[i].es.passive.None? { AloneItEnds(v, i); }
  }

  /** Nothing is published between a direction's start and its second look for a session, which therefore finds none. */
  lemma SecondLookFindsNothing(a: NodeId, b: NodeId, actions: seq<Action>, i: nat)
    requires i < 2
    ensures var n := Run(Initial(a, b), actions).nodes[i];
            n.dialer.Guard? || n.acceptor.PassiveGuard? ==> !Published(n)
  {
    InitialInv(a, b);
    RunInv(Initial(a, b), actions);
    assert NodeOk(ViewOf(Run(Initial(a, b), actions), i), Run(Initial(a, b), actions).nodes[Peer(i)], i,
                  Tie(Run(Initial(a, b), actions), i));
  }

  // ---------- A node that has been dialed ----------

  /** Node `i` has been dialed and has not dialed. */
  predicate OnlyDialed(w: World, i: nat)
    requires Shaped(w) && i < 2
  {
    w.nodes[i].es.passive.Some? && w.nodes[i].es.active.None?
  }

  lemma DialedAccepting(v: View, peer: Node, i: nat, tie: bool)
    requires i < 2 && NodeOk(v, peer, i, tie) && v.node.es.active.None?
    ensures AcceptStep(v, i, tie).node.es.active.None? && AcceptStep(v, i, tie).node.dialer == v.node.dialer
  {
  }

  lemma DialedStep(w: World, a: Action, i: nat)
    requires Inv(w) && i < 2 && OnlyDialed(w, i)
    ensures OnlyDialed(Step(w, a), i)
  {
    StepPersists(w, a, i);
    assert NodeOk(ViewOf(w, i), w.nodes[Peer(i)], i, Tie(w, i));
    if a.node == i {
      match a {
        case Connect(_, t) => DialedIsRefused(ViewOf(w, i), w.nodes[Peer(i)], i, Tie(w, i), t);
        case Dialing(_) =>
        case Accepting(_) => DialedAccepting(ViewOf(w, i), w.nodes[Peer(i)], i, Tie(w, i));
      }
    }
  }

  lemma DialedIsRefused(v: View, peer: Node, i: nat, tie: bool, t: int)
    requires i < 2 && NodeOk(v, peer, i, tie) && v.node.es.passive.Some? && v.node.es.active.None?
    ensures !v.node.es.Start(Active, t).ok && ConnectStep(v, t).node.es.active.None?
  {
  }

  lemma {:induction false} DialedRun(w: World, actions: seq<Action>, i: nat)
    requires Inv(w) && i < 2 && OnlyDialed(w, i)
    ensures Inv(Run(w, actions)) && OnlyDialed(Run(w, actions), i)
    decreases |actions|
  {
    if actions != [] {
      StepInv(w, actions[0]);
      DialedStep(w, actions[0], i);
      DialedRun(Step(w, actions[0]), actions[1..], i);
    }
  }

  /** A node that has been dialed before it dialed never dials, whatever calls of `Connect` are made there; and the
      session it comes to have is over the other node's connection. */
  lemma OnceDialedNeverDials(a: NodeId, b: NodeId, before: seq<Action>, i: nat, after: seq<Action>)
    requires a != b && i < 2
    ensures var v := Run(Initial(a, b), before);
            OnlyDialed(v, i) ==>
              var w := Run(v, after);
              && w.nodes[i].es.active.None? && w.nodes[i].dialer.NotStarted?
              && (Published(w.nodes[0]) && Published(w.nodes[1]) ==> KeptByBoth(w, Peer(i)))
  {
    InitialInv(a, b);
    RunInv(Initial(a, b), before);
    var v := Run(Initial(a, b), before);
    if OnlyDialed(v, i) {
      RunInv(v, after);
      DialedRun(v, after, i);
      var w := Run(v, after);
      assert NodeOk(ViewOf(w, i), w.nodes[Peer(i)], i, Tie(w, i));
      if Published(w.nodes[0]) && Published(w.nodes[1]) { AgreementOfInv(w); }
    }
  }

  // ---------- Progress ----------

  function DialerRank(d: Dialer): nat {
    match d
    case NotStarted => 22
    case Guard => 20
    case Dial => 18
    case Handshake => 16
    case SendApply => 14
    case AwaitResponse => 12
    case AboutToSucceed => 10
    case SendCompleted => 8
    case AwaitAck => 6
    case Succeeding => 4
    case Failing => 4
    case Finished => 0
  }

  function AcceptorRank(a: Acceptor): nat {
    match a
    case AwaitApply => 20
    case Fetch(_) => 18
    case Starting(_) => 16
    case PassiveGuard => 14
    case SendAccepted => 12
    case AwaitReply => 10
    case SendAck => 8
    case Refusing => 8
    case PassiveSucceeding => 6
    case Refused => 0
    case Served => 0
  }

  function ConnRank(c: Conn): nat {
    |c.toAcceptor| + |c.toDialer|
  }

  /** What is left to do: the statements still ahead of the four goroutines and the messages in flight. */
  function Measure(w: World): nat
    requires Shaped(w)
  {
    DialerRank(w.nodes[0].dialer) + DialerRank(w.nodes[1].dialer)
    + AcceptorRank(w.nodes[0].acceptor) + AcceptorRank(w.nodes[1].acceptor)
    + ConnRank(w.conns[0]) + ConnRank(w.conns[1])
  }

  function ViewMeasure(v: View): nat {
    DialerRank(v.node.dialer) + AcceptorRank(v.node.acceptor) + ConnRank(v.out) + ConnRank(v.inc)
  }

  lemma MaybeEndMeasure(v: View, i: nat, side: Side, tie: bool)
    ensures ViewMeasure(MaybeEnd(v, i, side, tie)) == ViewMeasure(v)
  {
  }

  lemma DialDecreases(v: View, i: nat, tie: bool)
    ensures DialStep(v, i, tie) == v || ViewMeasure(DialStep(v, i, tie)) < ViewMeasure(v)
  {
    var es := v.node.es;
    match v.node.dialer {
      case Succeeding => MaybeEndMeasure(At(v, es.Succeed(Active, i).es, Finished), i, Active, tie);
      case Failing =>
        MaybeEndMeasure(Close(At(v, es.Fail(Active, HandshakeRejected).es, Finished), i, Some(i)), i, Active, tie);
      case _ => DialMovesDecrease(v, i, tie);
    }
  }

  lemma DialMovesDecrease(v: View, i: nat, tie: bool)
    requires !v.node.dialer.Succeeding? && !v.node.dialer.Failing?
    ensures DialStep(v, i, tie) == v || ViewMeasure(DialStep(v, i, tie)) < ViewMeasure(v)
  {
  }

  lemma AcceptDecreases(v: View, i: nat, tie: bool)
    requires i < 2
    ensures AcceptStep(v, i, tie) == v || ViewMeasure(AcceptStep(v, i, tie)) < ViewMeasure(v)
  {
    var es := v.node.es;
    match v.node.acceptor {
      case PassiveSucceeding =>
        MaybeEndMeasure(AtAcceptor(v, es.Succeed(Passive, Peer(i)).es, Served), i, Passive, tie);
      case AwaitReply =>
        if v.inc.toAcceptor != [] {
          var v1 := v.(inc := v.inc.(toAcceptor := v.inc.toAcceptor[1..]));
          var o := es.Fail(Passive, ReadHandshakeResp);
          MaybeEndMeasure(Close(AtAcceptor(v1, o.es, Served), i, Some(Peer(i))), i, Passive, tie);
        }
      case _ => AcceptMovesDecrease(v, i, tie);
    }
  }

  lemma AcceptMovesDecrease(v: View, i: nat, tie: bool)
    requires i < 2 && !v.node.acceptor.PassiveSucceeding? && !v.node.acceptor.AwaitReply?
    ensures AcceptStep(v, i, tie) == v || ViewMeasure(AcceptStep(v, i, tie)) < ViewMeasure(v)
  {
  }

  lemma PutBackMeasure(w: World, i: nat, v: View)
    requires Shaped(w) && i < 2
    ensures Measure(PutBack(w, i, v)) - Measure(w) == ViewMeasure(v) - ViewMeasure(ViewOf(w, i))
  {
  }

  /** Every step that changes anything leaves less to do. */
  lemma StepDecreases(w: World, a: Action)
    requires Inv(w)
    ensures Step(w, a) == w || Measure(Step(w, a)) < Measure(w)
  {
    if a.node < 2 {
      var i := a.node;
      var v := ViewOf(w, i);
      assert PutBack(w, i, v) == w;
      match a {
        case Connect(_, t) => PutBackMeasure(w, i, ConnectStep(v, t));
        case Dialing(_) =>
          DialDecreases(v, i, Tie(w, i));
          PutBackMeasure(w, i, DialStep(v, i, Tie(w, i)));
        case Accepting(_) =>
          AcceptDecreases(v, i, Tie(w, i));
          PutBackMeasure(w, i, AcceptStep(v, i, Tie(w, i)));
      }
    }
  }

  /** No goroutine that has started can take a step. */
  predicate Quiescent(w: World)
    requires Shaped(w)
  {
    forall i: nat :: i < 2 ==> Step(w, Dialing(i)) == w && Step(w, Accepting(i)) == w
  }

  lemma QuiescentView(w: World, i: nat)
    requires Shaped(w) && i < 2 && Quiescent(w)
    ensures DialStep(ViewOf(w, i), i, Tie(w, i)) == ViewOf(w, i)
    ensures AcceptStep(ViewOf(w, i), i, Tie(w, i)) == ViewOf(w, i)
  {
    assert Step(w, Dialing(i)) == w && Step(w, Accepting(i)) == w;
    var v := DialStep(ViewOf(w, i), i, Tie(w, i));
    assert ViewOf(PutBack(w, i, v), i) == v;
    var u := AcceptStep(ViewOf(w, i), i, Tie(w, i));
    assert ViewOf(PutBack(w, i, u), i) == u;
  }

  lemma StuckNodeIsDone(v: View, peer: Node, i: nat, tie: bool, peerTie: bool)
    requires i < 2 && BothOk(v, peer, i, tie, peerTie)
    requires DialStep(v, i, tie) == v && AcceptStep(v, i, tie) == v
    requires AcceptStep(Mirror(v, peer), Peer(i), peerTie) == Mirror(v, peer)
    ensures v.node.dialer.NotStarted? || v.node.dialer.Finished?
    ensures v.node.dialer.Finished? ==> peer.acceptor.Served? || peer.acceptor.Refused?
  {
  }

  /** Progress: from any reachable state every run stops after at most `Measure` effective steps
      (StepDecreases), and where it stops, one node having dialed is enough for both to hold a session:
      no two ends wait for, or refuse, each other for ever. */
  lemma Progress(a: NodeId, b: NodeId, actions: seq<Action>)
    ensures var w := Run(Initial(a, b), actions);
            Quiescent(w) && (exists i: nat :: i < 2 && !w.nodes[i].dialer.NotStarted?) ==>
              Published(w.nodes[0]) && Published(w.nodes[1])
  {
    InitialInv(a, b);
    RunInv(Initial(a, b), actions);
    var w := Run(Initial(a, b), actions);
    if Quiescent(w) {
      QuiescentView(w, 0);
      QuiescentView(w, 1);
      StuckNodeIsDone(ViewOf(w, 0), w.nodes[1], 0, Tie(w, 0), Tie(w, 1));
      StuckNodeIsDone(ViewOf(w, 1), w.nodes[0], 1, Tie(w, 1), Tie(w, 0));
    }
  }

  /** And where it stops only one connection is left: of two that were dialed both nodes have closed the one not kept.
      */
  lemma OtherIsClosed(a: NodeId, b: NodeId, actions: seq<Action>, k: nat)
    requires a != b && k < 2
    ensures var w := Run(Initial(a, b), actions);
            Quiescent(w) && Published(w.nodes[0]) && Published(w.nodes[1]) && w.nodes[k].es.session == Some(k) ==>
              && KeptByBoth(w, k)
              && (w.nodes[Peer(k)].es.active.Some? ==>
                    0 in w.conns[Peer(k)].closedBy && 1 in w.conns[Peer(k)].closedBy)
  {
    InitialInv(a, b);
    RunInv(Initial(a, b), actions);
    var w := Run(Initial(a, b), actions);
    if Quiescent(w) && Published(w.nodes[0]) && Published(w.nodes[1]) {
      AgreementOfInv(w);
      QuiescentView(w, 0);
      QuiescentView(w, 1);
      StuckNodeIsDone(ViewOf(w, 0), w.nodes[1], 0, Tie(w, 0), Tie(w, 1));
      StuckNodeIsDone(ViewOf(w, 1), w.nodes[0], 1, Tie(w, 1), Tie(w, 0));
    }
  }

  /** Every action changes something. */
  predicate Effective(w: World, actions: seq<Action>)
    requires Shaped(w)
    decreases |actions|
  {
    actions != [] ==> Step(w, actions[0]) != w && Effective(Step(w, actions[0]), actions[1..])
  }

  lemma {:induction false} EffectiveIsShort(w: World, actions: seq<Action>)
    requires Inv(w) && Effective(w, actions)
    ensures |actions| + Measure(Run(w, actions)) <= Measure(w)
    decreases |actions|
  {
    if actions != [] {
      StepInv(w, actions[0]);
      StepDecreases(w, actions[0]);
      EffectiveIsShort(Step(w, actions[0]), actions[1..]);
    }
  }

  /** Both properties together: no schedule takes more than 84 effective steps, and where one can go no
      further, a single call of `Connect` at either node is enough for both to have kept the same connection. */
  lemma {:induction false} SettledWithinBound(a: NodeId, b: NodeId, actions: seq<Action>)
    requires a != b && Effective(Initial(a, b), actions)
    ensures |actions| <= 84
    ensures var w := Run(Initial(a, b), actions);
            Quiescent(w) && (exists i: nat :: i < 2 && !w.nodes[i].dialer.NotStarted?) ==>
              exists k: nat :: k < 2 && KeptByBoth(w, k)
  {
    InitialInv(a, b);
    EffectiveIsShort(Initial(a, b), actions);
    Progress(a, b, actions);
    Agreement(a, b, actions);
  }
}
