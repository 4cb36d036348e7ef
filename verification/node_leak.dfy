/** A connection nobody closes: that it stays open for ever, and a run that leaves one. */
module NodeLeak {
  import opened Wrappers
  import opened NodeIds
  import opened Establish
  import opened NodeModel
  import opened NodeInvariant
  import opened NodeTheorems
  import opened NodeConnections
  import opened NodeOwnership
  import opened NodeStaleEntry
  import opened NodeRest

  lemma {:induction false} StrandedStays(s: Node, labels: seq<Label>, e: nat, c: nat)
    requires Inv(s) && Owners(s) && e < |s.slots| && s.slots[e].mutex.None? && Stranded(s.slots[e].es, c)
    ensures var s' := Run(s, labels);
            e < |s'.slots| && s'.slots[e].mutex.None? && Stranded(s'.slots[e].es, c) && Held(s', e, Passive, c)
    decreases |labels|
  {
    if labels == [] {
      assert InUse(s, e, Passive, c) && UsesHeld(s, e);
    } else {
      assert SlotOk(s, e);
      StepInv(s, labels[0]);
      StepOwners(s, labels[0]);
      StaleStep(s, labels[0], e);
      StrandedStays(Step(s, labels[0]), labels[1..], e, c);
    }
  }

  /** A stranded connection is never closed, whatever follows. */
  lemma StrandedForEver(self: NodeId, before: seq<Label>, after: seq<Label>, e: nat, c: nat)
    ensures var s := Run(Initial(self), before);
            var s' := Run(s, after);
            e < |s.slots| && s.slots[e].mutex.None? && Stranded(s.slots[e].es, c) ==>
              c < |s'.conns| && !s'.conns[c].closed && e < |s'.slots| && Stranded(s'.slots[e].es, c)
  {
    InitialInv(self);
    RunOwners(Initial(self), before);
    var s := Run(Initial(self), before);
    if e < |s.slots| && s.slots[e].mutex.None? && Stranded(s.slots[e].es, c) { StrandedStays(s, after, e, c); }
  }

  // ---------- A run that leaves one ----------

  /** Session 0 closed meanwhile; call 1 about to exit early, or past it; the peer's connection 1 with goroutine 2. */
  function Left(es: Est, acceptor: Option<nat>, taken: Option<nat>, threads: seq<Pc>): Node {
    Node(ME, Started, map[PEER := 0], map[PEER := 1],
         [Slot(PEER, Est(END, Dialer(SUCCESS, Some(0)), None, Some(0), None, 1), None, Some(0), None),
          Slot(PEER, es, None, Some(1), acceptor)],
         Built(true, Phase.Closing), LINK + [Connection(false, taken, 2)], threads, Idle)
  }

  const EXITING: Pc := Exit(1, Active, 0)
  const DIALED: Est := Est(STARTED, Dialer(CONNECT, None), None, None, None, 0)

  function Accepted(state: nat, conn: Option<nat>): Option<Attempt> {
    Some(Attempt(state, 0, conn, None))
  }

  /** The establishment of call 1 after its early exit. */
  function Over(passive: Option<Attempt>): Est {
    Est(END, Dialer(CONNECT, None), passive, Some(0), None, 1)
  }

  lemma PeerArrives() returns (labels: seq<Label>, s: Node)
    ensures Run(Initial(ME), labels) == s && s == Left(DIALED, None, None, [MINE, EXITING, ReadApply(1)])
  {
    labels, s := SecondGuards();
    labels, s := Take(labels, s, CloseSession(0));
    assert s == Late(DIALED, Some(1), Phase.Closing, [MINE, EXITING]);
    labels, s := Take(labels, s, Incoming);
    assert s.threads == [MINE, EXITING, ReadApply(1)];
  }

  lemma PeerIsFetched() returns (labels: seq<Label>, s: Node)
    ensures Run(Initial(ME), labels) == s && s == Left(DIALED, None, None, [MINE, EXITING, StartPassive(1, 1, 0)])
  {
    labels, s := PeerArrives();
    labels, s := Take(labels, s, Go(2));
    assert s == Left(DIALED, None, None, [MINE, EXITING, FetchPassive(PEER, 1, 0)]);
    labels, s := Take(labels, s, Go(2));
    assert s.threads == [MINE, EXITING, StartPassive(1, 1, 0)];
  }

  lemma PeerStarts() returns (labels: seq<Label>, s: Node)
    ensures Run(Initial(ME), labels) == s
    ensures s == Left(DIALED.(passive := Accepted(HANDSHAKE, None)), Some(2), Some(1),
                      [MINE, EXITING, Guard(1, Passive, Some(1))])
  {
    labels, s := PeerIsFetched();
    labels, s := Take(labels, s, Go(2));
    assert s.threads == [MINE, EXITING, Guard(1, Passive, Some(1))];
  }

  lemma PeerIsAccepted() returns (labels: seq<Label>, s: Node)
    ensures Run(Initial(ME), labels) == s
    ensures s == Left(DIALED.(passive := Accepted(HANDSHAKE, None)), Some(2), Some(1),
                      [MINE, EXITING, Io(1, 1, SendAccepted)])
  {
    labels, s := PeerStarts();
    labels, s := Take(labels, s, Go(2));
    assert s.threads == [MINE, EXITING, Io(1, 1, SendAccepted)];
  }

  lemma CallExits() returns (labels: seq<Label>, s: Node)
    ensures Run(Initial(ME), labels) == s
    ensures s == Left(Over(Accepted(HANDSHAKE, None)), Some(2), Some(1), [MINE, MINE, Io(1, 1, SendAccepted)])
  {
    labels, s := PeerIsAccepted();
    labels, s := Take(labels, s, Go(1));
    assert s == Left(Over(Accepted(HANDSHAKE, None)), Some(2), Some(1),
                     [MINE, Wait(1, Active), Io(1, 1, SendAccepted)]);
    labels, s := Take(labels, s, Go(1));
    assert s.threads == [MINE, MINE, Io(1, 1, SendAccepted)];
  }

  lemma PeerAnswers() returns (labels: seq<Label>, s: Node)
    ensures Run(Initial(ME), labels) == s
    ensures s == Left(Over(Accepted(HANDSHAKE, None)), Some(2), Some(1), [MINE, MINE, Io(1, 1, AwaitReply)])
  {
    labels, s := CallExits();
    labels, s := Take(labels, s, Go(2));
    assert s == Left(Over(Accepted(HANDSHAKE, None)), Some(2), Some(1), [MINE, MINE, Io(1, 1, AwaitReply)]);
  }

  lemma PeerCompletes() returns (labels: seq<Label>, s: Node)
    ensures Run(Initial(ME), labels) == s
    ensures s == Left(Over(Accepted(HANDSHAKE, None)), Some(2), Some(1), [MINE, MINE, Succeeding(1, Passive, 1)])
  {
    labels, s := PeerAnswers();
    labels, s := Take(labels, s, Go(2));
    assert s == Left(Over(Accepted(HANDSHAKE, None)), Some(2), Some(1), [MINE, MINE, Io(1, 1, SendAck)]);
    labels, s := Take(labels, s, Go(2));
    assert s.threads == [MINE, MINE, Succeeding(1, Passive, 1)];
  }

  lemma PeerIsServed() returns (labels: seq<Label>, s: Node)
    ensures Run(Initial(ME), labels) == s
    ensures s == Left(Over(Accepted(SUCCESS, Some(1))), Some(2), Some(1), [MINE, MINE, Served])
  {
    labels, s := PeerCompletes();
    labels, s := Take(labels, s, Go(2));
    assert s == Left(Over(Accepted(SUCCESS, Some(1))), Some(2), Some(1), [MINE, MINE, Wait(1, Passive)]);
    labels, s := Take(labels, s, Go(2));
    assert s.threads == [MINE, MINE, Served];
  }

  /** In this run every goroutine has finished and a connection handed to an ended establishment is open without
      a session to it, and (StrandedForEver) stays so. */
  lemma ConnectionMayLeak()
    ensures exists labels: seq<Label> ::
              var s := Run(Initial(ME), labels);
              && (forall t: nat :: t < |s.threads| ==> IsFinished(s.threads[t]))
              && |s.slots| == 2 && s.slots[1].mutex.None? && Stranded(s.slots[1].es, 1)
              && |s.conns| == 2 && s.conns[1].es == Some(1) && !s.conns[1].closed && !Owned(s, 1, 1)
  {
    var labels, s := PeerIsServed();
    assert Stranded(s.slots[1].es, 1);
    assert !Owned(s, 1, 1);
  }
}
