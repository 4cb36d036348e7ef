/** The entry a late `Connect` leaves behind: when it appears, that it never goes away, and a run in which
    `Connect` therefore hands out a closed session. */
module NodeStaleEntry {
  import opened Wrappers
  import opened NodeIds
  import opened Establish
  import opened NodeModel
  import opened NodeInvariant
  import opened NodeTheorems

  /** An ended establishment stays in the map exactly when its dialer took the early exit. */
  lemma StaysExactlyAfterEarlyExit(self: NodeId, labels: seq<Label>, e: nat)
    ensures var s := Run(Initial(self), labels);
            e < |s.slots| && s.slots[e].es.IsEnd() && s.slots[e].mutex.None? ==>
              (Mapped(s, e) <==> ExitedEarly(s.slots[e].es))
  {
    Reachable(self, labels);
    var s := Run(Initial(self), labels);
    if e < |s.slots| { assert SlotOk(s, e); }
  }

  predicate Stale(s: Node, e: nat) {
    Mapped(s, e) && ExitedEarly(s.slots[e].es) && s.slots[e].mutex.None?
  }

  /** Slot `e` is as stale as it was, and still the entry. */
  predicate StaysStale(s: Node, s': Node, e: nat)
    requires e < |s.slots|
  {
    && e < |s'.slots| && s'.slots[e].remote == s.slots[e].remote
    && s'.slots[e].mutex.None? && s'.slots[e].es.active == s.slots[e].es.active
    && (s.slots[e].es.IsSuccess(Passive) ==> s'.slots[e].es.passive == s.slots[e].es.passive)
    && SameEnd(s.slots[e].es, s'.slots[e].es)
    && Mapped(s', e)
  }

  lemma ConcludeElsewhere(s: Node, t: nat, x: nat, side: Side, d: Decision)
    requires t < |s.threads| && x < |s.slots|
    ensures var s' := Conclude(s, t, x, side, d);
            && |s'.slots| == |s.slots| && s'.establishments == s.establishments
            && s'.slots == s.slots[x := s.slots[x].(mutex := Some(t))]
  {
  }

  /** The end of a direction of another establishment, or of this one's passive direction, which finds the
      active one for ever under way. */
  lemma StaleThroughMaybeEnd(s: Node, s1: Node, t: nat, x: nat, side: Side, e: nat)
    requires t < |s1.threads| && Stale(s, e) && x < |s1.slots| && |s1.slots| == |s.slots|
    requires s1.establishments == s.establishments && s1.slots == s.slots[x := s1.slots[x]]
    requires s1.slots[x].remote == s.slots[x].remote && s1.slots[x].mutex == s.slots[x].mutex
    requires x == e ==>
               && side.Passive? && !s.slots[e].es.IsSuccess(Passive)
               && s1.slots[e].es.active == s.slots[e].es.active && SameEnd(s.slots[e].es, s1.slots[e].es)
    ensures StaysStale(s, MaybeEnd(s1, t, x, side), e)
  {
    if x == e {
      assert s1.slots[e].es.IsEstablishing(Active);
    } else {
      ConcludeElsewhere(s1, t, x, side, s1.slots[x].es.Decide(Less(s1.self, s1.slots[x].remote)));
    }
  }

  lemma StaleThroughSuccess(s: Node, t: nat, o: Choice, e: nat)
    requires t < |s.threads| && ThreadOk(s, t) && Stale(s, e) && s.threads[t].Succeeding?
    ensures StaysStale(s, RunnerStep(s, t, o), e)
  {
    var pc := s.threads[t];
    if s.slots[pc.e].mutex.None? {
      StaleThroughMaybeEnd(s, SetEs(s, pc.e, s.slots[pc.e].es.Succeed(pc.side, pc.conn).es), t, pc.e, pc.side, e);
    }
  }

  lemma StaleThroughFailure(s: Node, t: nat, o: Choice, e: nat)
    requires t < |s.threads| && ThreadOk(s, t) && Stale(s, e) && s.threads[t].Failing?
    ensures StaysStale(s, RunnerStep(s, t, o), e)
  {
    var pc := s.threads[t];
    if s.slots[pc.e].mutex.None? {
      var s1 := CloseConn(SetEs(s, pc.e, s.slots[pc.e].es.Fail(pc.side, pc.err).es), pc.oc);
      StaleThroughMaybeEnd(s, s1, t, pc.e, pc.side, e);
    }
  }

  lemma StaleThroughStart(s: Node, t: nat, o: Choice, e: nat)
    requires t < |s.threads| && ThreadOk(s, t) && Stale(s, e)
    requires s.threads[t].StartActive? || s.threads[t].StartPassive?
    ensures StaysStale(s, RunnerStep(s, t, o), e)
  {
  }

  lemma StaleThroughMove(s: Node, t: nat, o: Choice, e: nat)
    requires t < |s.threads| && ThreadOk(s, t) && Stale(s, e) && RunnerSide(s.threads[t]).Some?
    requires !s.threads[t].Succeeding? && !s.threads[t].Failing?
    ensures StaysStale(s, RunnerStep(s, t, o), e)
  {
  }

  lemma StaleThroughRunner(s: Node, t: nat, o: Choice, e: nat)
    requires t < |s.threads| && ThreadOk(s, t) && Stale(s, e) && IsRunning(s.threads[t])
    ensures StaysStale(s, RunnerStep(s, t, o), e)
  {
    if s.threads[t].Succeeding? { StaleThroughSuccess(s, t, o, e); }
    else if s.threads[t].Failing? { StaleThroughFailure(s, t, o, e); }
    else if RunnerSide(s.threads[t]).Some? { StaleThroughMove(s, t, o, e); }
    else { StaleThroughStart(s, t, o, e); }
  }

  lemma StaleThroughEnd(s: Node, t: nat, o: Choice, e: nat)
    requires t < |s.threads| && ThreadOk(s, t) && Stale(s, e) && (IsEnding(s.threads[t]) || s.threads[t].Wait?)
    ensures StaysStale(s, EndStep(s, t, o), e)
  {
    if IsEnding(s.threads[t]) {
      assert s.threads[t].e != e;
      assert !s.threads[t].Signal? ==> s.slots[s.threads[t].e].remote != s.slots[e].remote;
    }
  }

  lemma StaleThroughLookup(s: Node, t: nat, o: Choice, e: nat)
    requires t < |s.threads| && Stale(s, e)
    ensures StaysStale(s, LookupStep(s, t, o), e)
  {
  }

  lemma StaleThroughThread(s: Node, t: nat, o: Choice, e: nat)
    requires t < |s.threads| && ThreadOk(s, t) && Stale(s, e)
    ensures StaysStale(s, ThreadStep(s, t, o), e)
  {
    if IsRunning(s.threads[t]) { StaleThroughRunner(s, t, o, e); }
    else if IsEnding(s.threads[t]) || s.threads[t].Wait? { StaleThroughEnd(s, t, o, e); }
    else { StaleThroughLookup(s, t, o, e); }
  }

  lemma StaleThroughOther(s: Node, a: Label, e: nat)
    requires Stale(s, e) && !a.Thread?
    ensures StaysStale(s, Step(s, a), e)
  {
  }

  lemma StaleStep(s: Node, a: Label, e: nat)
    requires Inv(s) && Stale(s, e)
    ensures StaysStale(s, Step(s, a), e)
  {
    if !a.Thread? {
      StaleThroughOther(s, a, e);
    } else if a.t < |s.threads| {
      assert ThreadOk(s, a.t);
      StaleThroughThread(s, a.t, a.choice, e);
    }
  }

  lemma StaleBlocksPublishing(s: Node, a: Label, e: nat, sid: nat)
    requires Inv(s) && Stale(s, e) && Publishes(s, Step(s, a), sid)
    ensures sid < |s.built| && s.built[sid].remote != s.slots[e].remote
  {
    PublishedBy(s, a, sid);
    assert ThreadOk(s, a.t);
  }

  /** A stale entry is for ever, and no session is ever published for its remote again. */
  lemma {:induction false} StaleForEver(s: Node, labels: seq<Label>, e: nat, sid: nat)
    requires Inv(s) && Stale(s, e)
    ensures var s' := Run(s, labels);
            && StaysStale(s, s', e)
            && (PublishedFor(s', s.slots[e].remote, sid) ==> PublishedFor(s, s.slots[e].remote, sid))
    decreases |labels|
  {
    if labels != [] {
      var s1 := Step(s, labels[0]);
      StepInv(s, labels[0]);
      StaleStep(s, labels[0], e);
      StaleForEver(s1, labels[1..], e, sid);
      if Publishes(s, s1, sid) {
        StaleBlocksPublishing(s, labels[0], e, sid);
        RemotesKept(s, labels[0]);
      } else if PublishedFor(s1, s.slots[e].remote, sid) {
        RemotesKept(s, labels[0]);
      }
    }
  }

  // ---------- A run that leaves one ----------

  const ME: NodeId := "a"
  const PEER: NodeId := "b"

  function Go(t: nat): Label {
    Thread(t, Choice(true, 0, CoreStart, PEER))
  }

  /** One more label, with its state. */
  lemma Take(labels: seq<Label>, s: Node, a: Label) returns (labels': seq<Label>, s': Node)
    requires Run(Initial(ME), labels) == s
    ensures labels' == labels + [a] && s' == Step(s, a) && Run(Initial(ME), labels') == s'
  {
    RunAppend(Initial(ME), labels, a);
    labels', s' := labels + [a], Step(s, a);
  }

  /** Before any establishment. */
  function Calling(threads: seq<Pc>): Node {
    Node(ME, Started, map[], map[], [], [], [], threads, Idle)
  }

  function Dialer(state: nat, conn: Option<nat>): Option<Attempt> {
    Some(Attempt(state, 0, conn, None))
  }

  /** Call 0 under way, call 1 past its first look at the session map. */
  function Trying(state: nat, conns: seq<Connection>, pc: Pc): Node {
    Node(ME, Started, map[], map[PEER := 0],
         [Slot(PEER, Est(STARTED, Dialer(state, None), None, None, None, 0), None, Some(0), None)],
         [], conns, [pc, FetchActive(PEER)], Idle)
  }

  const LINK: seq<Connection> := [Connection(false, Some(0), 0)]

  /** Call 0 inside `establishEnd`. */
  function Ending(ests: map<NodeId, nat>, sessions: map<NodeId, nat>, built: seq<Session>, pc: Pc): Node {
    Node(ME, Started, sessions, ests,
         [Slot(PEER, Est(STARTED, Dialer(SUCCESS, Some(0)), None, None, None, 0), Some(0), Some(0), None)],
         built, LINK, [pc, FetchActive(PEER)], Idle)
  }

  function Built(published: bool, phase: Phase): seq<Session> {
    [Session(PEER, 0, true, phase, published, 0, Unlocked)]
  }

  /** Session 0 published; call 1 at work on the establishment it created too late. */
  function Late(es: Est, dialer: Option<nat>, phase: Phase, threads: seq<Pc>): Node {
    Node(ME, Started, map[PEER := 0], map[PEER := 1],
         [Slot(PEER, Est(END, Dialer(SUCCESS, Some(0)), None, Some(0), None, 1), None, Some(0), None),
          Slot(PEER, es, None, dialer, None)],
         Built(true, phase), LINK, threads, Idle)
  }

  const MINE: Pc := Returned(Some(0), None)
  const EXITED: Est := Est(END, Dialer(CONNECT, None), None, Some(0), None, 1)

  lemma CallsArrive() returns (labels: seq<Label>, s: Node)
    ensures Run(Initial(ME), labels) == s && s == Calling([FetchActive(PEER), FetchActive(PEER)])
  {
    s := Initial(ME);
    labels := [];
    labels, s := Take(labels, s, StartService);
    assert s == Calling([]);
    labels, s := Take(labels, s, CallConnect(PEER));
    assert s == Calling([CheckSession(PEER)]);
    labels, s := Take(labels, s, CallConnect(PEER));
    assert s == Calling([CheckSession(PEER), CheckSession(PEER)]);
    labels, s := Take(labels, s, Go(1));
    assert s == Calling([CheckSession(PEER), FetchActive(PEER)]);
    labels, s := Take(labels, s, Go(0));
    assert s == Calling([FetchActive(PEER), FetchActive(PEER)]);
  }

  lemma FirstStarts() returns (labels: seq<Label>, s: Node)
    ensures Run(Initial(ME), labels) == s && s == Trying(CONNECT, [], Guard(0, Active, None))
  {
    labels, s := CallsArrive();
    labels, s := Take(labels, s, Go(0));
    assert s == Node(ME, Started, map[], map[PEER := 0], [Slot(PEER, FRESH, None, None, None)], [], [],
                     [StartActive(0), FetchActive(PEER)], Idle);
    labels, s := Take(labels, s, Go(0));
    assert s == Trying(CONNECT, [], Guard(0, Active, None));
  }

  lemma FirstDials() returns (labels: seq<Label>, s: Node)
    ensures Run(Initial(ME), labels) == s && s == Trying(CONNECT, LINK, Handshaking(0, 0))
  {
    labels, s := FirstStarts();
    labels, s := Take(labels, s, Go(0));
    assert s == Trying(CONNECT, [], Dialing(0));
    labels, s := Take(labels, s, Go(0));
    assert s == Trying(CONNECT, LINK, Handshaking(0, 0));
  }

  lemma FirstSends() returns (labels: seq<Label>, s: Node)
    ensures Run(Initial(ME), labels) == s && s == Trying(HANDSHAKE, LINK, Io(0, 0, AwaitResponse))
  {
    labels, s := FirstDials();
    labels, s := Take(labels, s, Go(0));
    assert s == Trying(HANDSHAKE, LINK, Io(0, 0, SendApply));
    labels, s := Take(labels, s, Go(0));
    assert s == Trying(HANDSHAKE, LINK, Io(0, 0, AwaitResponse));
  }

  lemma FirstApplies() returns (labels: seq<Label>, s: Node)
    ensures Run(Initial(ME), labels) == s && s == Trying(ABOUT_SUCCESS, LINK, Io(0, 0, SendCompleted))
  {
    labels, s := FirstSends();
    labels, s := Take(labels, s, Go(0));
    assert s == Trying(HANDSHAKE, LINK, AboutToSucceed(0, 0));
    labels, s := Take(labels, s, Go(0));
    assert s == Trying(ABOUT_SUCCESS, LINK, Io(0, 0, SendCompleted));
  }

  lemma FirstTalks() returns (labels: seq<Label>, s: Node)
    ensures Run(Initial(ME), labels) == s && s == Trying(ABOUT_SUCCESS, LINK, Succeeding(0, Active, 0))
  {
    labels, s := FirstApplies();
    labels, s := Take(labels, s, Go(0));
    assert s == Trying(ABOUT_SUCCESS, LINK, Io(0, 0, AwaitAck));
    labels, s := Take(labels, s, Go(0));
    assert s == Trying(ABOUT_SUCCESS, LINK, Succeeding(0, Active, 0));
  }

  lemma FirstDecides() returns (labels: seq<Label>, s: Node)
    ensures Run(Initial(ME), labels) == s && s == Ending(map[PEER := 0], map[], [], CreateSession(0, Active, 0, true))
  {
    labels, s := FirstTalks();
    labels, s := Take(labels, s, Go(0));
    assert s == Ending(map[PEER := 0], map[], [], CreateSession(0, Active, 0, true));
  }

  lemma FirstBuilds() returns (labels: seq<Label>, s: Node)
    ensures Run(Initial(ME), labels) == s
    ensures s == Ending(map[PEER := 0], map[], Built(false, Live), LockSession(0, Active, 0))
  {
    labels, s := FirstDecides();
    labels, s := Take(labels, s, Go(0));
    assert s == Ending(map[PEER := 0], map[], Built(false, Live), LockSession(0, Active, 0));
  }

  lemma FirstPublishes() returns (labels: seq<Label>, s: Node)
    ensures Run(Initial(ME), labels) == s && s == Ending(map[], map[PEER := 0], Built(true, Live), Signal(0, Active, 0))
  {
    labels, s := FirstBuilds();
    labels, s := Take(labels, s, Go(0));
    assert s == Ending(map[PEER := 0], map[], Built(false, Live), Publish(0, Active, 0));
    labels, s := Take(labels, s, Go(0));
    assert s == Ending(map[], map[PEER := 0], Built(true, Live), Signal(0, Active, 0));
  }

  lemma FirstReturns() returns (labels: seq<Label>, s: Node)
    ensures Run(Initial(ME), labels) == s && s == Late(FRESH, None, Live, [MINE, StartActive(1)])
  {
    labels, s := FirstPublishes();
    labels, s := Take(labels, s, Go(0));
    assert s == Ending(map[], map[PEER := 0], Built(true, Live), Wait(0, Active))
                .(slots := [Slot(PEER, Est(END, Dialer(SUCCESS, Some(0)), None, Some(0), None, 1), None, Some(0),
                                 None)]);
    labels, s := Take(labels, s, Go(0));
    assert s == Ending(map[], map[PEER := 0], Built(true, Live), MINE)
                .(slots := [Slot(PEER, Est(END, Dialer(SUCCESS, Some(0)), None, Some(0), None, 1), None, Some(0),
                                 None)]);
    labels, s := Take(labels, s, Go(1));
    assert s == Late(FRESH, None, Live, [MINE, StartActive(1)]);
  }

  lemma SecondGuards() returns (labels: seq<Label>, s: Node)
    ensures Run(Initial(ME), labels) == s
    ensures s == Late(Est(STARTED, Dialer(CONNECT, None), None, None, None, 0), Some(1), Live,
                      [MINE, Exit(1, Active, 0)])
  {
    labels, s := FirstReturns();
    labels, s := Take(labels, s, Go(1));
    assert s == Late(Est(STARTED, Dialer(CONNECT, None), None, None, None, 0), Some(1), Live,
                     [MINE, Guard(1, Active, None)]);
    labels, s := Take(labels, s, Go(1));
    assert s == Late(Est(STARTED, Dialer(CONNECT, None), None, None, None, 0), Some(1), Live,
                     [MINE, Exit(1, Active, 0)]);
  }

  lemma SecondExits() returns (labels: seq<Label>, s: Node)
    ensures Run(Initial(ME), labels) == s && s == Late(EXITED, Some(1), Live, [MINE, MINE])
  {
    labels, s := SecondGuards();
    labels, s := Take(labels, s, Go(1));
    assert s == Late(EXITED, Some(1), Live, [MINE, Wait(1, Active)]);
    labels, s := Take(labels, s, Go(1));
    assert s == Late(EXITED, Some(1), Live, [MINE, MINE]);
  }

  lemma ThirdCalls() returns (labels: seq<Label>, s: Node)
    ensures Run(Initial(ME), labels) == s
    ensures s == Late(EXITED, Some(1), Phase.Closing, [MINE, MINE, FetchActive(PEER)])
  {
    labels, s := SecondExits();
    labels, s := Take(labels, s, CloseSession(0));
    assert s == Late(EXITED, Some(1), Phase.Closing, [MINE, MINE]);
    labels, s := Take(labels, s, CallConnect(PEER));
    assert s == Late(EXITED, Some(1), Phase.Closing, [MINE, MINE, CheckSession(PEER)]);
    labels, s := Take(labels, s, Go(2));
    assert s == Late(EXITED, Some(1), Phase.Closing, [MINE, MINE, FetchActive(PEER)]);
  }

  lemma ThirdGetsDead() returns (labels: seq<Label>, s: Node)
    ensures Run(Initial(ME), labels) == s && s == Late(EXITED, Some(1), Phase.Closing, [MINE, MINE, MINE])
  {
    labels, s := ThirdCalls();
    labels, s := Take(labels, s, Go(2));
    assert s == Late(EXITED, Some(1), Phase.Closing, [MINE, MINE, StartActive(1)]);
    labels, s := Take(labels, s, Go(2));
    assert s == Late(EXITED, Some(1), Phase.Closing, [MINE, MINE, Wait(1, Active)]);
    labels, s := Take(labels, s, Go(2));
    assert s == Late(EXITED, Some(1), Phase.Closing, [MINE, MINE, MINE]);
  }

  /** "Connect returns a live session" is false: in this run a call made after the session has closed
      returns that closed session and no error. */
  lemma ConnectMayReturnClosedSession()
    ensures exists labels: seq<Label> ::
              var s := Run(Initial(ME), labels);
              |s.threads| == 3 && s.threads[2] == Returned(Some(0), None) && !IsLive(s, 0) && Stale(s, 1)
  {
    var labels, s := ThirdGetsDead();
    assert Stale(s, 1);
  }
}
