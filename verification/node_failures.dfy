/** Which failure an establishment records, and that whatever fails leaves nothing open behind. */
module NodeFailures {
  import opened Wrappers
  import opened NodeIds
  import opened Establish
  import opened NodeModel
  import opened NodeInvariant
  import opened NodeTheorems
  import opened NodeConnections
  import opened NodeOutcome

  /** The goroutine whose direction has failed records its error once nobody holds the mutex, closing its connection. */
  lemma FailingRecords(s: Node, t: nat, o: Choice)
    requires Inv(s) && t < |s.threads| && s.threads[t].Failing? && s.threads[t].e < |s.slots|
    requires s.slots[s.threads[t].e].mutex.None?
    ensures var s', pc := RunnerStep(s, t, o), s.threads[t];
            && pc.e < |s'.slots| && s'.slots[pc.e].es.IsFail(pc.side) && s'.slots[pc.e].es.Err(pc.side) == Some(pc.err)
            && (pc.oc.Some? && pc.oc.value < |s.conns| ==> pc.oc.value < |s'.conns| && s'.conns[pc.oc.value].closed)
  {
    var pc := s.threads[t];
    assert ThreadOk(s, t) && SlotOk(s, pc.e);
    FailingIs(s, t, o);
    assert s.slots[pc.e].es.Fail(pc.side, pc.err).ok;
    FailureIsKept(s, t, pc.e, pc.side, s.slots[pc.e].es.Fail(pc.side, pc.err).es, pc.oc);
  }

  lemma FailureIsKept(s: Node, t: nat, e: nat, side: Side, es: Est, oc: Option<nat>)
    requires t < |s.threads| && e < |s.slots| && s.slots[e].mutex.None?
    ensures var s' := MaybeEnd(CloseConn(SetEs(s, e, es), oc), t, e, side);
            && e < |s'.slots| && s'.slots[e].es == es
            && (oc.Some? && oc.value < |s.conns| ==> oc.value < |s'.conns| && s'.conns[oc.value].closed)
  {
    var s1 := CloseConn(SetEs(s, e, es), oc);
    MaybeEndKeeps(s1, t, e, side);
    ConcludeWork(s1, t, e, side, DecisionOf(s1, e));
  }

  /** An I/O call that fails ends its direction with the error that says at which stage: asking, answering, or reading
      an answer; unless that answer was a rejection, or came from the wrong node. Its connection is closed. */
  lemma StageIsRecorded(self: NodeId, labels: seq<Label>, t: nat, o: Choice, o': Choice)
    ensures var s := Run(Initial(self), labels);
            t < |s.threads| && s.threads[t].Io? && !o.ok ==>
              var e, c, g := s.threads[t].e, s.threads[t].conn, s.threads[t].stage;
              var s' := Step(Step(s, Thread(t, o)), Thread(t, o'));
              var side := if g.SendAccepted? || g.AwaitReply? || g.SendAck? then Passive else Active;
              e < |s.slots| && s.slots[e].mutex.None? ==>
                && e < |s'.slots| && s'.slots[e].es.IsFail(side)
                && (c < |s.conns| ==> c < |s'.conns| && s'.conns[c].closed)
                && (g.SendApply? ==> s'.slots[e].es.Err(side) == Some(RequestHandshake))
                && (g.SendCompleted? || g.SendAccepted? || g.SendAck? ==>
                      s'.slots[e].es.Err(side) == Some(ReplyHandshake))
                && (g.AwaitAck? ==> s'.slots[e].es.Err(side) == Some(ReadHandshakeResp))
                && (g.AwaitResponse? || g.AwaitReply? ==>
                      s'.slots[e].es.Err(side) == Some(if o.err.HandshakeRejected? then HandshakeRejected
                                                       else if g.AwaitResponse? && o.err.RemoteIdOrTokenWrong?
                                                            then RemoteIdOrTokenWrong
                                                       else ReadHandshakeResp))
  {
    Reachable(self, labels);
    var s := Run(Initial(self), labels);
    if t < |s.threads| && s.threads[t].Io? && !o.ok {
      var s1 := Step(s, Thread(t, o));
      StepInv(s, Thread(t, o));
      StageFails(s, t, o);
      if s.threads[t].e < |s.slots| && s.slots[s.threads[t].e].mutex.None? { FailingRecords(s1, t, o'); }
    }
  }

  lemma StageFails(s: Node, t: nat, o: Choice)
    requires t < |s.threads| && s.threads[t].Io? && !o.ok
    ensures var s', pc := RunnerStep(s, t, o), s.threads[t];
            && s'.slots == s.slots && s'.conns == s.conns && t < |s'.threads|
            && s'.threads[t] == Failing(pc.e, StageSide(pc.stage), Some(pc.conn), StageError(pc.stage, o.err))
  {
  }

  /** So does a dial that fails. */
  lemma FailedDialIsRecorded(self: NodeId, labels: seq<Label>, t: nat, o: Choice, o': Choice)
    ensures var s := Run(Initial(self), labels);
            t < |s.threads| && s.threads[t].Dialing? && !o.ok ==>
              var e, s' := s.threads[t].e, Step(Step(s, Thread(t, o)), Thread(t, o'));
              e < |s.slots| && s.slots[e].mutex.None? ==>
                e < |s'.slots| && s'.slots[e].es.IsFail(Active) && s'.slots[e].es.Err(Active) == Some(ConnectRemote)
  {
    Reachable(self, labels);
    var s := Run(Initial(self), labels);
    if t < |s.threads| && s.threads[t].Dialing? && !o.ok {
      var s1 := Step(s, Thread(t, o));
      StepInv(s, Thread(t, o));
      if s.threads[t].e < |s.slots| && s.slots[s.threads[t].e].mutex.None? { FailingRecords(s1, t, o'); }
    }
  }

  /** A session whose core does not start: the establishment ends with that error, off the map, the connection closed.
      */
  lemma FailedStartIsRecorded(self: NodeId, labels: seq<Label>, t: nat, o: Choice)
    ensures var s := Run(Initial(self), labels);
            t < |s.threads| && s.threads[t].CreateSession? && !o.ok ==>
              var e, c := s.threads[t].e, s.threads[t].conn;
              var s' := Run(s, [Thread(t, o), Thread(t, o), Thread(t, o)]);
              && e < |s'.slots| && s'.slots[e].es.IsEnd() && s'.slots[e].es.err == Some(CoreStart)
              && s'.slots[e].mutex.None? && !Mapped(s', e)
              && (c < |s.conns| ==> c < |s'.conns| && s'.conns[c].closed)
  {
    Reachable(self, labels);
    var s := Run(Initial(self), labels);
    if t < |s.threads| && s.threads[t].CreateSession? && !o.ok {
      assert ThreadOk(s, t);
      var s1 := Step(s, Thread(t, o));
      assert s1.threads[t] == GiveUp(s.threads[t].e, s.threads[t].side, CoreStart) && s1.slots == s.slots;
      GivesUp(s, s1, t, o);
    }
  }

  /** A session closed before it could be locked: likewise, with its own error. */
  lemma ClosedSessionIsRecorded(self: NodeId, labels: seq<Label>, t: nat, o: Choice)
    ensures var s := Run(Initial(self), labels);
            t < |s.threads| && s.threads[t].LockSession? && !IsLive(s, s.threads[t].sid) && !Blocked(s, t) ==>
              var e, s' := s.threads[t].e, Run(s, [Thread(t, o), Thread(t, o), Thread(t, o)]);
              && e < |s'.slots| && s'.slots[e].es.IsEnd() && s'.slots[e].es.err == Some(SessionClosed)
              && s'.slots[e].mutex.None? && !Mapped(s', e) && s'.sessions == s.sessions
  {
    Reachable(self, labels);
    var s := Run(Initial(self), labels);
    if t < |s.threads| && s.threads[t].LockSession? && !IsLive(s, s.threads[t].sid) && !Blocked(s, t) {
      assert ThreadOk(s, t);
      var s1 := Step(s, Thread(t, o));
      assert s1 == Goto(s, t, GiveUp(s.threads[t].e, s.threads[t].side, SessionClosed));
      GivesUp(s, s1, t, o);
    }
  }

  /** And a service closed before the session could be published: the session closes too. */
  lemma ClosedServiceIsRecorded(self: NodeId, labels: seq<Label>, t: nat, o: Choice)
    ensures var s := Run(Initial(self), labels);
            t < |s.threads| && s.threads[t].Publish? && !s.service.Started? ==>
              var e, s1 := s.threads[t].e, Step(s, Thread(t, o));
              var s' := Run(s1, [Thread(t, o), Thread(t, o), Thread(t, o)]);
              && e < |s'.slots| && s'.slots[e].es.IsEnd() && s'.slots[e].es.err == Some(ServiceClosed)
              && s'.slots[e].mutex.None? && !Mapped(s', e) && !IsLive(s', s.threads[t].sid)
  {
    Reachable(self, labels);
    var s := Run(Initial(self), labels);
    if t < |s.threads| && s.threads[t].Publish? && !s.service.Started? {
      assert ThreadOk(s, t);
      var s1 := Step(s, Thread(t, o));
      assert s1 == Goto(s, t, Abort(s.threads[t].e, s.threads[t].side, s.threads[t].sid));
      Aborts(s1, t, o);
      GivesUp(s1, Step(s1, Thread(t, o)), t, o);
    }
  }

  lemma Aborts(s: Node, t: nat, o: Choice)
    requires t < |s.threads| && s.threads[t].Abort? && s.threads[t].sid < |s.built|
    ensures var s', pc := Step(s, Thread(t, o)), s.threads[t];
            && t < |s'.threads| && s'.threads[t] == GiveUp(pc.e, pc.side, ServiceClosed)
            && s'.slots == s.slots && !IsLive(s', pc.sid)
  {
  }

  lemma GivesUp(s: Node, s1: Node, t: nat, o: Choice)
    requires t < |s.threads| && s1 == Step(s, Thread(t, o)) && t < |s1.threads| && s1.threads[t].GiveUp?
    requires s1.threads[t].e < |s1.slots| && s1.slots[s1.threads[t].e].es.state < END
    ensures var e := s1.threads[t].e;
            var s' := Run(s, [Thread(t, o), Thread(t, o), Thread(t, o)]);
            && |s'.slots| == |s1.slots| && s'.slots[e].es.IsEnd() && s'.slots[e].es.err == Some(s1.threads[t].err)
            && s'.slots[e].mutex.None? && !Mapped(s', e)
            && s'.sessions == s1.sessions && s'.conns == s1.conns && s'.built == s1.built
  {
    RunThree(s, Thread(t, o), Thread(t, o), Thread(t, o));
    GivesUpAndForgets(s1, t, o);
  }

  lemma GivesUpAndForgets(s: Node, t: nat, o: Choice)
    requires t < |s.threads| && s.threads[t].GiveUp? && s.threads[t].e < |s.slots|
    requires s.slots[s.threads[t].e].es.state < END
    ensures var e, s' := s.threads[t].e, Step(Step(s, Thread(t, o)), Thread(t, o));
            && |s'.slots| == |s.slots| && s'.slots[e].es.IsEnd() && s'.slots[e].es.err == Some(s.threads[t].err)
            && s'.slots[e].mutex.None? && !Mapped(s', e)
            && s'.sessions == s.sessions && s'.conns == s.conns && s'.built == s.built
  {
    var s1 := Step(s, Thread(t, o));
    assert s1.threads[t] == Forget(s.threads[t].e, s.threads[t].side);
  }
}
