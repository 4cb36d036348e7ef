/** Two runs that show what decides which connection is kept: neither the order in which the two dials succeed
    nor, by itself, the order in which they start. */
module TwoNodesRuns {
  import opened Wrappers
  import opened NodeIds
  import opened Establish
  import opened TwoNodes

  const QUIET := Conn([], [], {})

  /** One more action, with its world. */
  lemma Take(actions: seq<Action>, w0: World, w: World, a: Action) returns (actions': seq<Action>, w': World)
    requires Shaped(w0) && Shaped(w) && Run(w0, actions) == w
    ensures actions' == actions + [a] && w' == Step(w, a) && Shaped(w') && Run(w0, actions') == w'
  {
    RunAppend(w0, actions, a);
    actions', w' := actions + [a], Step(w, a);
  }

  lemma {:induction false} RunAppend(w: World, actions: seq<Action>, a: Action)
    requires Shaped(w)
    ensures Run(w, actions + [a]) == Step(Run(w, actions), a)
    decreases |actions|
  {
    if actions != [] {
      RunAppend(Step(w, actions[0]), actions[1..], a);
      assert (actions + [a])[1..] == actions[1..] + [a];
    } else {
      assert [a][1..] == [];
      assert Run(Step(w, a), []) == Step(w, a);
    }
  }

  /** An empty queue sends and receives one message; an open connection is closed once. */
  lemma OneMessage()
    ensures forall m: Msg :: [] + [m] == [m] && [m][1..] == []
    ensures forall i: nat :: {} + {i} == {i}
  {
  }

  function Begun(state: nat, time: int): Option<Attempt> {
    Some(Attempt(state, time, None, None))
  }

  function Won(time: int, conn: nat): Option<Attempt> {
    Some(Attempt(SUCCESS, time, Some(conn), None))
  }

  function Open(active: Option<Attempt>, passive: Option<Attempt>): Est {
    Est(STARTED, active, passive, None, None, 0)
  }

  function Ended(active: Option<Attempt>, passive: Option<Attempt>, conn: nat): Est {
    Est(END, active, passive, Some(conn), None, 1)
  }

  function Pair(a: NodeId, b: NodeId, m: Node, n: Node, out: Conn, inc: Conn): World {
    World([a, b], [m, n], [out, inc])
  }

  /** Node 0 dials at 10; nobody has dialed it yet. */
  function Caller(state: nat, d: Dialer): Node {
    Node(Open(Begun(state, 10), None), d, AwaitApply)
  }

  /** Node 1 is about to dial, since 5, and is dialed meanwhile. */
  function Callee(passive: Option<Attempt>, k: Acceptor): Node {
    Node(Open(Begun(CONNECT, 5), passive), Guard, k)
  }

  lemma ZeroDials(a: NodeId, b: NodeId) returns (l: seq<Action>, w: World)
    ensures Run(Initial(a, b), l) == w
    ensures w == Pair(a, b, Caller(HANDSHAKE, SendApply), Callee(None, AwaitApply), QUIET, QUIET)
  {
    var w0 := Initial(a, b);
    l, w := [], w0;
    l, w := Take(l, w0, w, Connect(0, 10));
    l, w := Take(l, w0, w, Connect(1, 5));
    l, w := Take(l, w0, w, Dialing(0));
    assert w == Pair(a, b, Caller(CONNECT, Dial), Callee(None, AwaitApply), QUIET, QUIET);
    l, w := Take(l, w0, w, Dialing(0));
    l, w := Take(l, w0, w, Dialing(0));
  }

  lemma ZeroApplies(a: NodeId, b: NodeId) returns (l: seq<Action>, w: World)
    ensures Run(Initial(a, b), l) == w
    ensures w == Pair(a, b, Caller(HANDSHAKE, AwaitResponse), Callee(Begun(HANDSHAKE, 10), PassiveGuard), QUIET, QUIET)
  {
    OneMessage();
    l, w := ZeroDials(a, b);
    l, w := Take(l, Initial(a, b), w, Dialing(0));
    assert w == Pair(a, b, Caller(HANDSHAKE, AwaitResponse), Callee(None, AwaitApply), Conn([Apply(10)], [], {}),
                     QUIET);
    l, w := Take(l, Initial(a, b), w, Accepting(1));
    l, w := Take(l, Initial(a, b), w, Accepting(1));
    assert w == Pair(a, b, Caller(HANDSHAKE, AwaitResponse), Callee(None, Starting(10)), QUIET, QUIET);
    l, w := Take(l, Initial(a, b), w, Accepting(1));
  }

  lemma OneAccepts(a: NodeId, b: NodeId) returns (l: seq<Action>, w: World)
    ensures Run(Initial(a, b), l) == w
    ensures w == Pair(a, b, Caller(HANDSHAKE, AboutToSucceed), Callee(Begun(HANDSHAKE, 10), AwaitReply), QUIET, QUIET)
  {
    OneMessage();
    l, w := ZeroApplies(a, b);
    l, w := Take(l, Initial(a, b), w, Accepting(1));
    l, w := Take(l, Initial(a, b), w, Accepting(1));
    assert w == Pair(a, b, Caller(HANDSHAKE, AwaitResponse), Callee(Begun(HANDSHAKE, 10), AwaitReply),
                     Conn([], [Accepted], {}), QUIET);
    l, w := Take(l, Initial(a, b), w, Dialing(0));
  }

  lemma ZeroCompletes(a: NodeId, b: NodeId) returns (l: seq<Action>, w: World)
    ensures Run(Initial(a, b), l) == w
    ensures w == Pair(a, b, Caller(ABOUT_SUCCESS, AwaitAck), Callee(Begun(HANDSHAKE, 10), SendAck), QUIET, QUIET)
  {
    OneMessage();
    l, w := OneAccepts(a, b);
    l, w := Take(l, Initial(a, b), w, Dialing(0));
    l, w := Take(l, Initial(a, b), w, Dialing(0));
    assert w == Pair(a, b, Caller(ABOUT_SUCCESS, AwaitAck), Callee(Begun(HANDSHAKE, 10), AwaitReply),
                     Conn([Completed], [], {}), QUIET);
    l, w := Take(l, Initial(a, b), w, Accepting(1));
  }

  /** Connection 0 has gone through, but for its dialer recording it; node 1 waits for its own dial. */
  lemma ConnectionZeroIsReady(a: NodeId, b: NodeId) returns (l: seq<Action>, w: World)
    ensures Run(Initial(a, b), l) == w
    ensures w == Pair(a, b, Caller(ABOUT_SUCCESS, Succeeding), Callee(Won(10, 0), Served), QUIET, QUIET)
  {
    OneMessage();
    l, w := ZeroCompletes(a, b);
    l, w := Take(l, Initial(a, b), w, Accepting(1));
    assert w == Pair(a, b, Caller(ABOUT_SUCCESS, AwaitAck), Callee(Begun(HANDSHAKE, 10), PassiveSucceeding),
                     Conn([], [CompletedAck], {}), QUIET);
    l, w := Take(l, Initial(a, b), w, Accepting(1));
    assert w == Pair(a, b, Caller(ABOUT_SUCCESS, AwaitAck), Callee(Won(10, 0), Served),
                     Conn([], [CompletedAck], {}), QUIET);
    l, w := Take(l, Initial(a, b), w, Dialing(0));
  }

  // ---------- The later dial is kept ----------

  /** Node 1 has been dialed and accepted, and goes on with its own dial. */
  function Redialer(state: nat, d: Dialer): Node {
    Node(Open(Begun(state, 5), Won(10, 0)), d, Served)
  }

  /** Node 0 has settled on its own connection. */
  function Settled(k: Acceptor): Node {
    Node(Ended(Won(10, 0), None, 0), Finished, k)
  }

  lemma ZeroSettles(a: NodeId, b: NodeId) returns (l: seq<Action>, w: World)
    ensures Run(Initial(a, b), l) == w
    ensures w == Pair(a, b, Settled(AwaitApply), Redialer(CONNECT, Handshake), QUIET, QUIET)
  {
    OneMessage();
    l, w := ConnectionZeroIsReady(a, b);
    l, w := Take(l, Initial(a, b), w, Dialing(0));
    assert w == Pair(a, b, Settled(AwaitApply), Redialer(CONNECT, Guard), QUIET, QUIET);
    l, w := Take(l, Initial(a, b), w, Dialing(1));
    assert w == Pair(a, b, Settled(AwaitApply), Redialer(CONNECT, Dial), QUIET, QUIET);
    l, w := Take(l, Initial(a, b), w, Dialing(1));
  }

  lemma OneApplies(a: NodeId, b: NodeId) returns (l: seq<Action>, w: World)
    ensures Run(Initial(a, b), l) == w
    ensures w == Pair(a, b, Settled(Fetch(5)), Redialer(HANDSHAKE, AwaitResponse), QUIET, QUIET)
  {
    OneMessage();
    l, w := ZeroSettles(a, b);
    l, w := Take(l, Initial(a, b), w, Dialing(1));
    l, w := Take(l, Initial(a, b), w, Dialing(1));
    assert w == Pair(a, b, Settled(AwaitApply), Redialer(HANDSHAKE, AwaitResponse), QUIET, Conn([Apply(5)], [], {}));
    l, w := Take(l, Initial(a, b), w, Accepting(0));
  }

  lemma ZeroRefuses(a: NodeId, b: NodeId) returns (l: seq<Action>, w: World)
    ensures Run(Initial(a, b), l) == w
    ensures w == Pair(a, b, Settled(Refused), Redialer(HANDSHAKE, Failing), QUIET, Conn([], [], {0}))
  {
    OneMessage();
    l, w := OneApplies(a, b);
    l, w := Take(l, Initial(a, b), w, Accepting(0));
    assert w == Pair(a, b, Settled(Refusing), Redialer(HANDSHAKE, AwaitResponse), QUIET, QUIET);
    l, w := Take(l, Initial(a, b), w, Accepting(0));
    assert w == Pair(a, b, Settled(Refused), Redialer(HANDSHAKE, AwaitResponse), QUIET, Conn([], [Rejected], {0}));
    l, w := Take(l, Initial(a, b), w, Dialing(1));
  }

  /** Node 1 dialed first, at 5 against 10, and yet connection 0 is kept: it had gone through before node 1's
      application arrived, which was refused. */
  lemma LaterDialMayWin(a: NodeId, b: NodeId)
    ensures exists l: seq<Action> ::
              var w := Run(Initial(a, b), l);
              && w.nodes[0].es.session == w.nodes[1].es.session == Some(0)
              && w.nodes[0].es.active.Some? && w.nodes[1].es.active.Some?
              && w.nodes[1].es.active.value.startTime < w.nodes[0].es.active.value.startTime
  {
    var l, w := ZeroRefuses(a, b);
    l, w := Take(l, Initial(a, b), w, Dialing(1));
    assert w.nodes[1].es.session == Some(0);
  }

  // ---------- The first to succeed is dropped ----------

  /** Node 0 has been dialed too. */
  function Called(active: Option<Attempt>, d: Dialer, k: Acceptor): Node {
    Node(Open(active, Begun(HANDSHAKE, 5)), d, k)
  }

  lemma OneDialsInTime(a: NodeId, b: NodeId) returns (l: seq<Action>, w: World)
    ensures Run(Initial(a, b), l) == w
    ensures w == Pair(a, b, Caller(ABOUT_SUCCESS, Succeeding), Redialer(HANDSHAKE, SendApply), QUIET, QUIET)
  {
    OneMessage();
    l, w := ConnectionZeroIsReady(a, b);
    l, w := Take(l, Initial(a, b), w, Dialing(1));
    l, w := Take(l, Initial(a, b), w, Dialing(1));
    assert w == Pair(a, b, Caller(ABOUT_SUCCESS, Succeeding), Redialer(CONNECT, Handshake), QUIET, QUIET);
    l, w := Take(l, Initial(a, b), w, Dialing(1));
  }

  lemma OneAppliesInTime(a: NodeId, b: NodeId) returns (l: seq<Action>, w: World)
    ensures Run(Initial(a, b), l) == w
    ensures w == Pair(a, b, Called(Begun(ABOUT_SUCCESS, 10), Succeeding, PassiveGuard),
                      Redialer(HANDSHAKE, AwaitResponse), QUIET, QUIET)
  {
    OneMessage();
    l, w := OneDialsInTime(a, b);
    l, w := Take(l, Initial(a, b), w, Dialing(1));
    l, w := Take(l, Initial(a, b), w, Accepting(0));
    l, w := Take(l, Initial(a, b), w, Accepting(0));
    l, w := Take(l, Initial(a, b), w, Accepting(0));
  }

  lemma ZeroAccepts(a: NodeId, b: NodeId) returns (l: seq<Action>, w: World)
    ensures Run(Initial(a, b), l) == w
    ensures w == Pair(a, b, Called(Begun(ABOUT_SUCCESS, 10), Succeeding, AwaitReply),
                      Redialer(HANDSHAKE, AboutToSucceed), QUIET, QUIET)
  {
    OneMessage();
    l, w := OneAppliesInTime(a, b);
    l, w := Take(l, Initial(a, b), w, Accepting(0));
    l, w := Take(l, Initial(a, b), w, Accepting(0));
    assert w == Pair(a, b, Called(Begun(ABOUT_SUCCESS, 10), Succeeding, AwaitReply),
                     Redialer(HANDSHAKE, AwaitResponse), QUIET,
                     Conn([], [Accepted], {}));
    l, w := Take(l, Initial(a, b), w, Dialing(1));
  }

  /** Connection 0 has succeeded at both ends, connection 1 at neither. */
  lemma ZeroSucceedsFirst(a: NodeId, b: NodeId) returns (l: seq<Action>, w: World)
    ensures Run(Initial(a, b), l) == w
    ensures w == Pair(a, b, Called(Won(10, 0), Finished, AwaitReply), Redialer(HANDSHAKE, AboutToSucceed), QUIET,
                      QUIET)
  {
    OneMessage();
    l, w := ZeroAccepts(a, b);
    l, w := Take(l, Initial(a, b), w, Dialing(0));
  }

  lemma OneCompletes(a: NodeId, b: NodeId) returns (l: seq<Action>, rest: seq<Action>, v: World, w: World)
    ensures Shaped(v) && Shaped(w) && Run(Initial(a, b), l) == v && Run(v, rest) == w
    ensures v == Pair(a, b, Called(Won(10, 0), Finished, AwaitReply), Redialer(HANDSHAKE, AboutToSucceed), QUIET,
                      QUIET)
    ensures w == Pair(a, b, Called(Won(10, 0), Finished, SendAck), Redialer(ABOUT_SUCCESS, AwaitAck), QUIET, QUIET)
  {
    OneMessage();
    l, v := ZeroSucceedsFirst(a, b);
    rest, w := [], v;
    rest, w := Take(rest, v, w, Dialing(1));
    rest, w := Take(rest, v, w, Dialing(1));
    assert w == Pair(a, b, Called(Won(10, 0), Finished, AwaitReply), Redialer(ABOUT_SUCCESS, AwaitAck), QUIET,
                     Conn([Completed], [], {}));
    rest, w := Take(rest, v, w, Accepting(0));
  }

  lemma ZeroChoosesOne(a: NodeId, b: NodeId) returns (l: seq<Action>, rest: seq<Action>, v: World, w: World)
    ensures Shaped(v) && Shaped(w) && Run(Initial(a, b), l) == v && Run(v, rest) == w
    ensures v == Pair(a, b, Called(Won(10, 0), Finished, AwaitReply), Redialer(HANDSHAKE, AboutToSucceed), QUIET,
                      QUIET)
    ensures w == Pair(a, b, Node(Ended(Won(10, 0), Won(5, 1), 1), Finished, Served), Redialer(ABOUT_SUCCESS, AwaitAck),
                      Conn([], [], {0}), Conn([], [CompletedAck], {}))
  {
    OneMessage();
    l, rest, v, w := OneCompletes(a, b);
    rest, w := Take(rest, v, w, Accepting(0));
    assert w == Pair(a, b, Called(Won(10, 0), Finished, PassiveSucceeding), Redialer(ABOUT_SUCCESS, AwaitAck), QUIET,
                     Conn([], [CompletedAck], {}));
    rest, w := Take(rest, v, w, Accepting(0));
  }

  lemma BothChooseOne(a: NodeId, b: NodeId) returns (l: seq<Action>, rest: seq<Action>, v: World, w: World)
    ensures Shaped(v) && Shaped(w) && Run(Initial(a, b), l) == v && Run(v, rest) == w
    ensures v == Pair(a, b, Called(Won(10, 0), Finished, AwaitReply), Redialer(HANDSHAKE, AboutToSucceed), QUIET,
                      QUIET)
    ensures w.nodes == [Node(Ended(Won(10, 0), Won(5, 1), 1), Finished, Served),
                        Node(Ended(Won(5, 1), Won(10, 0), 1), Finished, Served)]
  {
    OneMessage();
    l, rest, v, w := ZeroChoosesOne(a, b);
    rest, w := Take(rest, v, w, Dialing(1));
    assert w == Pair(a, b, Node(Ended(Won(10, 0), Won(5, 1), 1), Finished, Served),
                     Redialer(ABOUT_SUCCESS, Succeeding),
                     Conn([], [], {0}), QUIET);
    rest, w := Take(rest, v, w, Dialing(1));
  }

  /** "Whichever succeeds first is kept" is false: here connection 0 succeeds at both of its ends while connection 1
      has succeeded at neither, and both nodes go on to keep connection 1. */
  lemma FirstToSucceedMayLose(a: NodeId, b: NodeId)
    ensures exists first: seq<Action>, rest: seq<Action> ::
              var v := Run(Initial(a, b), first);
              var w := Run(v, rest);
              && v.nodes[0].es.IsSuccess(Active) && v.nodes[1].es.IsSuccess(Passive)
              && !v.nodes[0].es.IsSuccess(Passive) && !v.nodes[1].es.IsSuccess(Active)
              && w.nodes[0].es.session == w.nodes[1].es.session == Some(1)
  {
    var first, rest, v, w := BothChooseOne(a, b);
  }
}
