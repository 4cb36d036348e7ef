/** One node: its service state, its published sessions, its establishments, and any number of
    goroutines running `Connect` and `onPassiveConn` against any number of remotes, with `Close` and
    session closes at any moment. Every critical section is one step and so is every I/O call, whose
    outcome is the label's choice. A run is a list of labels. */
module NodeModel {
  import opened Wrappers
  import opened NodeIds
  import opened Establish

  datatype ServiceState = Init | Started | Closed

  /** `session.state`, and how far the one goroutine that won the switch to closed has got in the body of
      `closeBaseLocked`: Closing, then core (connection) closed, then taken out of the session map. */
  datatype Phase = Live | Closing | CoreClosed | Gone

  /** A session's write lock: free, taken by the handler of a close request, or left behind by that handler because
      another closer had won. While `establishEnd` holds it, its goroutine stands at Publish. */
  datatype Lock = Unlocked | Taken | LeftBehind

  datatype Session = Session(
    remote: NodeId, conn: nat, activeEnd: bool, phase: Phase, published: bool, es: nat, lock: Lock)

  /** `es` is the establishment a connection has been handed to, `opener` the goroutine it came to; the
      program keeps neither. */
  datatype Connection = Connection(closed: bool, es: Option<nat>, opener: nat)

  /** An establishment with its remote and the holder of its mutex. `dialer` and `acceptor` remember which
      goroutine started each direction; the program has no such fields. */
  datatype Slot = Slot(remote: NodeId, es: Est, mutex: Option<nat>, dialer: Option<nat>, acceptor: Option<nat>) {
    function Runner(side: Side): Option<nat> {
      if side.Active? then dialer else acceptor
    }

    function SetRunner(side: Side, t: nat): Slot {
      if side.Active? then this.(dialer := Some(t)) else this.(acceptor := Some(t))
    }
  }

  /** The I/O calls of the handshake. */
  datatype Stage = SendApply | AwaitResponse | SendCompleted | AwaitAck
                 | SendAccepted | AwaitReply | SendAck

  function StageSide(g: Stage): Side {
    if g.SendAccepted? || g.AwaitReply? || g.SendAck? then Passive else Active
  }

  /** The statement a goroutine is about to execute. From GiveUp to Signal it is inside `establishEnd`,
      holding the establishment's mutex. */
  datatype Pc =
    | CheckSession(remote: NodeId)
    | FetchActive(remote: NodeId)
    | ReadApply(conn: nat)
    | FetchPassive(remote: NodeId, conn: nat, time: int)
    | StartActive(e: nat)
    | StartPassive(e: nat, conn: nat, time: int)
    | Guard(e: nat, side: Side, oc: Option<nat>)
    | Exit(e: nat, side: Side, sid: nat)
    | Dialing(e: nat)
    | Handshaking(e: nat, conn: nat)
    | Io(e: nat, conn: nat, stage: Stage)
    | AboutToSucceed(e: nat, conn: nat)
    | Succeeding(e: nat, side: Side, conn: nat)
    | Failing(e: nat, side: Side, oc: Option<nat>, err: Error)
    | GiveUp(e: nat, side: Side, err: Error)
    | Forget(e: nat, side: Side)
    | CreateSession(e: nat, side: Side, conn: nat, activeEnd: bool)
    | LockSession(e: nat, side: Side, sid: nat)
    | Publish(e: nat, side: Side, sid: nat)
    | Abort(e: nat, side: Side, sid: nat)
    | Signal(e: nat, side: Side, sid: nat)
    | Wait(e: nat, side: Side)
    | Recheck(remote: NodeId, err: Error)
    | Returned(session: Option<nat>, failure: Option<Error>)
    | Served

  /** `Close` ranging over the session map. */
  datatype Closer =
    | Idle
    | Ranging(visited: set<NodeId>)
    | Closing(remote: NodeId, sid: nat, visited: set<NodeId>)
    | Deleting(remote: NodeId, sid: nat, visited: set<NodeId>)
    | Done

  datatype Node = Node(
    self: NodeId,
    service: ServiceState,
    sessions: map<NodeId, nat>,
    establishments: map<NodeId, nat>,
    slots: seq<Slot>,
    built: seq<Session>,
    conns: seq<Connection>,
    threads: seq<Pc>,
    closer: Closer)

  /** Everything a step may depend on besides the state. */
  datatype Choice = Choice(ok: bool, time: int, err: Error, remote: NodeId)

  datatype Label =
    | StartService
    | CallConnect(remote: NodeId)
    | Incoming
    | Thread(t: nat, choice: Choice)
    | CloseSession(sid: nat)   // any closer winning the compare-and-swap
    | CloseCore(sid: nat)
    | Unpublish(sid: nat)
    | LockToClose(sid: nat)    // a close request arrives and its handler takes the write lock
    | LetGo(sid: nat)          // the session is not inactive: the handler unlocks it again
    | CloseLocked(sid: nat)    // the handler closes it, or finds it closed and leaves the lock taken
    | CloseService
    | RangeNext(remote: NodeId)
    | RangeClose
    | RangeDelete
    | RangeEnd

  function Initial(self: NodeId): Node {
    Node(self, Init, map[], map[], [], [], [], [], Idle)
  }

  /** `GetSession`: the published session, unless the service is not running or `keepActive` finds the
      session closed. */
  function GetSession(s: Node, r: NodeId): Option<nat> {
    if s.service.Started? && r in s.sessions && s.sessions[r] < |s.built| && s.built[s.sessions[r]].phase.Live?
    then Some(s.sessions[r]) else None
  }

  /** The error `lockState` reports to a caller that needs the service running. */
  function NotRunning(state: ServiceState): Error {
    if state.Init? then ServiceNotStarted else ServiceClosed
  }

  function Goto(s: Node, t: nat, pc: Pc): Node
    requires t < |s.threads|
  {
    s.(threads := s.threads[t := pc])
  }

  function SetSlot(s: Node, e: nat, slot: Slot): Node
    requires e < |s.slots|
  {
    s.(slots := s.slots[e := slot])
  }

  function SetEs(s: Node, e: nat, es: Est): Node
    requires e < |s.slots|
  {
    SetSlot(s, e, s.slots[e].(es := es))
  }

  function CloseConn(s: Node, c: Option<nat>): Node {
    if c.Some? && c.value < |s.conns| then s.(conns := s.conns[c.value := s.conns[c.value].(closed := true)]) else s
  }

  function SetPhase(s: Node, sid: nat, p: Phase): Node
    requires sid < |s.built|
  {
    s.(built := s.built[sid := s.built[sid].(phase := p)])
  }

  function GetOrCreate(s: Node, r: NodeId): (Node, nat) {
    if r in s.establishments then (s, s.establishments[r])
    else (s.(slots := s.slots + [Slot(r, FRESH, None, None, None)],
             establishments := s.establishments[r := |s.slots|]), |s.slots|)
  }

  /** `establishEnd` acting on its choice, the mutex kept: close the losing connection, then give up or
      build a session. */
  function Conclude(s: Node, t: nat, e: nat, side: Side, d: Decision): Node
    requires t < |s.threads| && e < |s.slots|
  {
    var s1 := SetSlot(CloseConn(s, d.drop), e, s.slots[e].(mutex := Some(t)));
    Goto(s1, t, if d.err.Some? then GiveUp(e, side, d.err.value)
                else if d.conn.Some? then CreateSession(e, side, d.conn.value, d.active)
                else GiveUp(e, side, UnknownEndStatus))
  }

  /** What follows in the critical section of the goroutine whose `side` has just finished: nothing while
      the other direction is under way or if the establishment has ended, else `establishEnd`. */
  function MaybeEnd(s: Node, t: nat, e: nat, side: Side): Node
    requires t < |s.threads| && e < |s.slots|
  {
    var slot := s.slots[e];
    if slot.es.IsEstablishing(side.Other()) || slot.es.IsEnd() then Goto(s, t, Wait(e, side))
    else Conclude(s, t, e, side, slot.es.Decide(Less(s.self, slot.remote)))
  }

  /** The error an I/O call reports; reading the response may also find it rejected or wrong. */
  function StageError(g: Stage, cause: Error): Error {
    match g
    case SendApply => RequestHandshake
    case AwaitResponse => if cause.HandshakeRejected? || cause.RemoteIdOrTokenWrong? then cause else ReadHandshakeResp
    case SendCompleted => ReplyHandshake
    case AwaitAck => ReadHandshakeResp
    case SendAccepted => ReplyHandshake
    case AwaitReply => if cause.HandshakeRejected? then cause else ReadHandshakeResp
    case SendAck => ReplyHandshake
  }

  function AfterStage(e: nat, c: nat, g: Stage): Pc {
    match g
    case SendApply => Io(e, c, AwaitResponse)
    case AwaitResponse => AboutToSucceed(e, c)
    case SendCompleted => Io(e, c, AwaitAck)
    case AwaitAck => Succeeding(e, Active, c)
    case SendAccepted => Io(e, c, AwaitReply)
    case AwaitReply => Io(e, c, SendAck)
    case SendAck => Succeeding(e, Passive, c)
  }

  /** Before an establishment is involved: the steps of `Connect` and `onPassiveConn` that look it up. */
  function LookupStep(s: Node, t: nat, o: Choice): Node
    requires t < |s.threads|
  {
    match s.threads[t]
    case CheckSession(r) =>
      var found := GetSession(s, r);
      Goto(s, t, if found.Some? then Returned(found, None) else FetchActive(r))
    case FetchActive(r) =>
      if !s.service.Started? then Goto(s, t, Returned(None, Some(NotRunning(s.service))))
      else
        var (s1, e) := GetOrCreate(s, r);
        Goto(s1, t, StartActive(e))
    case ReadApply(c) =>
      if o.ok then Goto(s, t, FetchPassive(o.remote, c, o.time))
      else Goto(CloseConn(s, Some(c)), t, Served)
    case FetchPassive(r, c, time) =>
      if !s.service.Started? || r == s.self || GetSession(s, r).Some? then Goto(CloseConn(s, Some(c)), t, Served)
      else
        var (s1, e) := GetOrCreate(s, r);
        Goto(s1, t, StartPassive(e, c, time))
    case Recheck(r, err) =>
      var found := GetSession(s, r);
      Goto(s, t, Returned(found, if found.Some? then None else Some(err)))
    case _ => s
  }

  /** The steps of one direction of an establishment, up to its outcome. */
  function RunnerStep(s: Node, t: nat, o: Choice): Node
    requires t < |s.threads|
  {
    match s.threads[t]
    case StartActive(e) =>
      if |s.slots| <= e || s.slots[e].mutex.Some? then s
      else
        var r := s.slots[e].es.Start(Active, o.time);
        if r.ok then Goto(SetSlot(s, e, s.slots[e].(es := r.es).SetRunner(Active, t)), t, Guard(e, Active, None))
        else Goto(SetEs(s, e, r.es), t, Wait(e, Active))
    case StartPassive(e, c, time) =>
      if |s.slots| <= e || |s.conns| <= c || s.slots[e].mutex.Some? then s
      else
        var r := s.slots[e].es.Start(Passive, time);
        if r.ok then
          var s1 := SetSlot(s, e, s.slots[e].(es := r.es).SetRunner(Passive, t));
          Goto(s1.(conns := s1.conns[c := s1.conns[c].(es := Some(e))]), t, Guard(e, Passive, Some(c)))
        else Goto(CloseConn(SetEs(s, e, r.es), Some(c)), t, Served)
    case Guard(e, side, oc) =>
      if |s.slots| <= e then s
      else
        var found := GetSession(s, s.slots[e].remote);
        Goto(s, t, if found.Some? then Exit(e, side, found.value)
                   else if side.Passive? && oc.Some? then Io(e, oc.value, SendAccepted)
                   else Dialing(e))
    case Exit(e, side, sid) =>
      if |s.slots| <= e || s.slots[e].mutex.Some? then s
      else Goto(SetEs(s, e, s.slots[e].es.Finish(Some(sid), None)), t, Wait(e, side))
    case Dialing(e) =>
      if o.ok then Goto(s.(conns := s.conns + [Connection(false, Some(e), t)]), t, Handshaking(e, |s.conns|))
      else Goto(s, t, Failing(e, Active, None, ConnectRemote))
    case Handshaking(e, c) =>
      if |s.slots| <= e || s.slots[e].mutex.Some? then s
      else
        var r := s.slots[e].es.StartActiveHandshake();
        Goto(SetEs(s, e, r.es), t, if r.ok then Io(e, c, SendApply) else Wait(e, Active))
    case Io(e, c, g) =>
      Goto(s, t, if o.ok then AfterStage(e, c, g) else Failing(e, StageSide(g), Some(c), StageError(g, o.err)))
    case AboutToSucceed(e, c) =>
      if |s.slots| <= e || s.slots[e].mutex.Some? then s
      else Goto(SetEs(s, e, s.slots[e].es.AboutSuccess().es), t, Io(e, c, SendCompleted))
    case Succeeding(e, side, c) =>
      if |s.slots| <= e || s.slots[e].mutex.Some? then s
      else
        var r := s.slots[e].es.Succeed(side, c);
        if r.ok then MaybeEnd(SetEs(s, e, r.es), t, e, side)
        else Goto(if side.Active? then CloseConn(s, Some(c)) else s, t, Wait(e, side))
    case Failing(e, side, oc, err) =>
      if |s.slots| <= e || s.slots[e].mutex.Some? then s
      else
        var r := s.slots[e].es.Fail(side, err);
        var s1 := CloseConn(SetEs(s, e, r.es), oc);
        if r.ok then MaybeEnd(s1, t, e, side) else Goto(s1, t, Wait(e, side))
    case _ => s
  }

  /** The rest of `establishEnd`, the mutex held, and what waiting for the end then returns. */
  function EndStep(s: Node, t: nat, o: Choice): Node
    requires t < |s.threads|
  {
    match s.threads[t]
    case GiveUp(e, side, err) =>
      if |s.slots| <= e then s
      else Goto(SetEs(s, e, s.slots[e].es.Finish(None, Some(err))), t, Forget(e, side))
    case Forget(e, side) =>
      if |s.slots| <= e then s
      else
        var s1 := s.(establishments := CompareAndDelete(s.establishments, s.slots[e].remote, e));
        Goto(SetSlot(s1, e, s.slots[e].(mutex := None)), t, Wait(e, side))
    case CreateSession(e, side, c, activeEnd) =>
      if |s.slots| <= e then s
      else if o.ok then
        var s1 := s.(built := s.built + [Session(s.slots[e].remote, c, activeEnd, Live, false, e, Unlocked)]);
        Goto(s1, t, LockSession(e, side, |s.built|))
      else
        var s1 := s.(built := s.built + [Session(s.slots[e].remote, c, activeEnd, Gone, false, e, Unlocked)]);
        Goto(CloseConn(s1, Some(c)), t, GiveUp(e, side, CoreStart))
    case LockSession(e, side, sid) =>
      if |s.built| <= sid || !s.built[sid].lock.Unlocked? then s
      else Goto(s, t, if s.built[sid].phase.Live? then Publish(e, side, sid) else GiveUp(e, side, SessionClosed))
    case Publish(e, side, sid) =>
      if |s.slots| <= e || |s.built| <= sid then s
      else if !s.service.Started? then Goto(s, t, Abort(e, side, sid))
      else
        var r := s.slots[e].remote;
        var s1 := s.(sessions := s.sessions[r := sid],
                     built := s.built[sid := s.built[sid].(published := true)],
                     establishments := CompareAndDelete(s.establishments, r, e));
        Goto(s1, t, Signal(e, side, sid))
    case Abort(e, side, sid) =>
      if |s.built| <= sid then s
      else if s.built[sid].phase.Live? then
        Goto(CloseConn(SetPhase(s, sid, Gone), Some(s.built[sid].conn)), t, GiveUp(e, side, ServiceClosed))
      else Goto(s, t, GiveUp(e, side, ServiceClosed))
    case Signal(e, side, sid) =>
      if |s.slots| <= e then s
      else
        var slot := s.slots[e];
        Goto(SetSlot(s, e, slot.(es := slot.es.Finish(Some(sid), None), mutex := None)), t, Wait(e, side))
    case Wait(e, side) =>
      if |s.slots| <= e || !s.slots[e].es.IsEnd() then s
      else
        var es := s.slots[e].es;
        Goto(s, t, if side.Passive? then Served
                   else if es.err.None? then Returned(es.session, None)
                   else Recheck(s.slots[e].remote, es.err.value))
    case _ => s
  }

  function ThreadStep(s: Node, t: nat, o: Choice): Node
    requires t < |s.threads|
  {
    match s.threads[t]
    case CheckSession(_) => LookupStep(s, t, o)
    case FetchActive(_) => LookupStep(s, t, o)
    case ReadApply(_) => LookupStep(s, t, o)
    case FetchPassive(_, _, _) => LookupStep(s, t, o)
    case Recheck(_, _) => LookupStep(s, t, o)
    case Returned(_, _) => s
    case Served => s
    case _ => if IsEnding(s.threads[t]) || s.threads[t].Wait? then EndStep(s, t, o) else RunnerStep(s, t, o)
  }

  predicate IsEnding(pc: Pc) {
    pc.GiveUp? || pc.Forget? || pc.CreateSession? || pc.LockSession? || pc.Publish? || pc.Abort? || pc.Signal?
  }

  /** A session closes; its connection and its map entry follow. */
  function CloseStep(s: Node, a: Label): Node {
    match a
    case CloseSession(sid) => if sid < |s.built| && s.built[sid].phase.Live? then SetPhase(s, sid, Phase.Closing) else s
    case CloseCore(sid) =>
      if sid < |s.built| && s.built[sid].phase.Closing?
      then CloseConn(SetPhase(s, sid, CoreClosed), Some(s.built[sid].conn)) else s
    case Unpublish(sid) =>
      if sid < |s.built| && s.built[sid].phase.CoreClosed?
      then SetPhase(s, sid, Gone).(sessions := CompareAndDelete(s.sessions, s.built[sid].remote, sid)) else s
    case _ => s
  }

  function SetLock(s: Node, sid: nat, lock: Lock): Node
    requires sid < |s.built|
  {
    s.(built := s.built[sid := s.built[sid].(lock := lock)])
  }

  /** Whether the goroutine that built the session holds its write lock. */
  predicate EnderHolds(s: Node, sid: nat)
    requires sid < |s.built|
  {
    s.built[sid].es < |s.slots| &&
    var m := s.slots[s.built[sid].es].mutex;
    m.Some? && m.value < |s.threads| && s.threads[m.value].Publish? && s.threads[m.value].sid == sid
  }

  /** The handler of a close request: it needs the session started and its write lock; then it either unlocks it, or
      closes it, which unlocks it only if no other closer has won meanwhile. */
  function HandlerStep(s: Node, a: Label): Node {
    match a
    case LockToClose(sid) =>
      if sid < |s.built| && s.built[sid].phase.Live? && s.built[sid].lock.Unlocked? && !EnderHolds(s, sid)
      then SetLock(s, sid, Taken) else s
    case LetGo(sid) => if sid < |s.built| && s.built[sid].lock.Taken? then SetLock(s, sid, Unlocked) else s
    case CloseLocked(sid) =>
      if sid < |s.built| && s.built[sid].lock.Taken? then
        if s.built[sid].phase.Live? then SetPhase(SetLock(s, sid, Unlocked), sid, Phase.Closing)
        else SetLock(s, sid, LeftBehind)
      else s
    case _ => s
  }

  /** `Service.Close`, entry by entry. */
  function ShutdownStep(s: Node, a: Label): Node {
    match a
    case CloseService => if s.service.Started? then s.(service := Closed, closer := Ranging({})) else s
    case RangeNext(r) =>
      if s.closer.Ranging? && r in s.sessions && r !in s.closer.visited
      then s.(closer := Closer.Closing(r, s.sessions[r], s.closer.visited)) else s
    case RangeClose =>
      if s.closer.Closing? then
        var c := s.closer;
        var s1 := if c.sid < |s.built| && s.built[c.sid].phase.Live? then SetPhase(s, c.sid, Phase.Closing) else s;
        s1.(closer := Deleting(c.remote, c.sid, c.visited))
      else s
    case RangeDelete =>
      if s.closer.Deleting? then
        var c := s.closer;
        s.(sessions := CompareAndDelete(s.sessions, c.remote, c.sid), closer := Ranging(c.visited + {c.remote}))
      else s
    case RangeEnd => if s.closer.Ranging? && s.sessions.Keys <= s.closer.visited then s.(closer := Done) else s
    case _ => s
  }

  function Step(s: Node, a: Label): Node {
    match a
    case StartService => if s.service.Init? then s.(service := Started) else s
    case CallConnect(r) => if r != s.self then s.(threads := s.threads + [CheckSession(r)]) else s
    case Incoming =>
      s.(conns := s.conns + [Connection(false, None, |s.threads|)], threads := s.threads + [ReadApply(|s.conns|)])
    case Thread(t, o) => if t < |s.threads| then ThreadStep(s, t, o) else s
    case CloseSession(_) => CloseStep(s, a)
    case CloseCore(_) => CloseStep(s, a)
    case Unpublish(_) => CloseStep(s, a)
    case LockToClose(_) => HandlerStep(s, a)
    case LetGo(_) => HandlerStep(s, a)
    case CloseLocked(_) => HandlerStep(s, a)
    case _ => ShutdownStep(s, a)
  }

  function Run(s: Node, labels: seq<Label>): Node
    decreases |labels|
  {
    if labels == [] then s else Run(Step(s, labels[0]), labels[1..])
  }

  lemma RunOne(s: Node, a: Label)
    ensures Run(s, [a]) == Step(s, a)
  {
    assert [a][1..] == [];
    assert Run(Step(s, a), []) == Step(s, a);
  }

  lemma RunThree(s: Node, a: Label, b: Label, c: Label)
    ensures Run(s, [a, b, c]) == Step(Step(Step(s, a), b), c)
  {
    assert [a, b, c][1..] == [b, c] && [b, c][1..] == [c];
    RunOne(Step(Step(s, a), b), c);
  }

  /** A run goes on where another has stopped. */
  lemma {:induction false} RunConcat(s: Node, a: seq<Label>, b: seq<Label>)
    ensures Run(s, a + b) == Run(Run(s, a), b)
    decreases |a|
  {
    if a == [] {
      assert a + b == b;
    } else {
      assert (a + b)[1..] == a[1..] + b;
      RunConcat(Step(s, a[0]), a[1..], b);
    }
  }

  lemma RunAppend(s: Node, labels: seq<Label>, a: Label)
    ensures Run(s, labels + [a]) == Step(Run(s, labels), a)
  {
    RunConcat(s, labels, [a]);
    RunOne(Run(s, labels), a);
  }
}
