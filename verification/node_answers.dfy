/** What `Connect` and an incoming connection are answered, seen from the sessions published and live. */
module NodeAnswers {
  import opened Wrappers
  import opened NodeIds
  import opened Establish
  import opened NodeModel
  import opened NodeInvariant
  import opened NodeTheorems
  import opened NodeConnections
  import opened NodeConnect
  import opened NodeOwnership
  import opened NodeClosedSession

  /** `sid` can be handed out to callers for `r`. */
  predicate LiveFor(s: Node, r: NodeId, sid: nat) {
    PublishedFor(s, r, sid) && IsLive(s, sid)
  }

  /** Looking a session up finds the live one published for the remote, if there is one. */
  lemma FindsTheLiveOne(s: Node, r: NodeId, sid: nat)
    requires Inv(s) && s.service.Started? && LiveFor(s, r, sid)
    ensures GetSession(s, r) == Some(sid)
  {
    assert SessionOk(s, sid);
  }

  lemma FindsOnlyLive(s: Node, r: NodeId)
    requires Inv(s)
    ensures GetSession(s, r).Some? ==> s.service.Started? && LiveFor(s, r, GetSession(s, r).value)
  {
    FoundIsPublished(s, r);
  }

  // ---------- Connect ----------

  /** A call made while the service runs and a live session is published for the remote returns that session at its
      first step, and touches nothing. */
  lemma ConnectReturnsTheLiveOne(self: NodeId, before: seq<Label>, r: NodeId, sid: nat, o: Choice)
    requires r != self
    ensures var s := Run(Initial(self), before);
            s.service.Started? && LiveFor(s, r, sid) ==>
              Step(Step(s, CallConnect(r)), Thread(|s.threads|, o)) ==
              s.(threads := s.threads + [Returned(Some(sid), None)])
  {
    Reachable(self, before);
    SelfIsFixed(Initial(self), before);
    var s := Run(Initial(self), before);
    if s.service.Started? && LiveFor(s, r, sid) {
      var s1 := Step(s, CallConnect(r));
      assert GetSession(s1, r) == GetSession(s, r);
      FindsTheLiveOne(s, r, sid);
      assert (s.threads + [CheckSession(r)])[|s.threads| := Returned(Some(sid), None)] ==
             s.threads + [Returned(Some(sid), None)];
    }
  }

  /** A call that finds the service not running is told so, and leaves nothing behind. */
  lemma ConnectNeedsTheService(self: NodeId, before: seq<Label>, r: NodeId, o: Choice, o': Choice)
    requires r != self
    ensures var s, t := Run(Initial(self), before), |Run(Initial(self), before).threads|;
            !s.service.Started? ==>
              Step(Step(Step(s, CallConnect(r)), Thread(t, o)), Thread(t, o')) ==
              s.(threads := s.threads + [Returned(None, Some(if s.service.Init? then ServiceNotStarted
                                                             else ServiceClosed))])
  {
    SelfIsFixed(Initial(self), before);
    var s, t := Run(Initial(self), before), |Run(Initial(self), before).threads|;
    if !s.service.Started? {
      var err := if s.service.Init? then ServiceNotStarted else ServiceClosed;
      var s1 := Step(s, CallConnect(r));
      var s2 := Step(s1, Thread(t, o));
      assert s2 == s.(threads := s.threads + [FetchActive(r)]) by {
        assert (s.threads + [CheckSession(r)])[t := FetchActive(r)] == s.threads + [FetchActive(r)];
      }
      assert (s.threads + [FetchActive(r)])[t := Returned(None, Some(err))] ==
             s.threads + [Returned(None, Some(err))];
    }
  }

  /** The step with which a goroutine comes to return without a session. */
  lemma ReturnsNone(s: Node, t: nat, o: Choice, r: NodeId)
    requires Inv(s) && ConnectsTo(s, t, r) && !s.threads[t].Returned?
    requires var s' := ThreadStep(s, t, o); t < |s'.threads| && s'.threads[t].Returned? && s'.threads[t].session.None?
    ensures GetSession(s, r).None?
    ensures var pc, pc' := s.threads[t], ThreadStep(s, t, o).threads[t];
            || (pc == FetchActive(r) && !s.service.Started? && pc' == Returned(None, Some(NotRunning(s.service))))
            || (pc.Recheck? && pc' == Returned(None, Some(pc.err)))
  {
    assert ThreadOk(s, t);
    if IsRunning(s.threads[t]) {
      RunnerGoesOn(s, t, o);
    } else if IsEnding(s.threads[t]) {
      EnderStays(s, t, o);
    } else if s.threads[t].Wait? {
      assert SlotOk(s, s.threads[t].e);
      WaitReturns(s, t, o);
    } else {
      LookupReturns(s, t, o);
    }
  }

  lemma LookupReturns(s: Node, t: nat, o: Choice)
    requires t < |s.threads| && EsOf(s.threads[t]).None? && !s.threads[t].Returned?
    ensures var s', pc := LookupStep(s, t, o), s.threads[t];
            && t < |s'.threads|
            && (s'.threads[t].Returned? && s'.threads[t].session.None? ==>
                  || (pc.FetchActive? && !s.service.Started?
                      && s'.threads[t] == Returned(None, Some(NotRunning(s.service))))
                  || (pc.Recheck? && GetSession(s, pc.remote).None? && s'.threads[t] == Returned(None, Some(pc.err))))
  {
  }

  /** No live session is overlooked: whenever a call of `Connect` comes to return an error while the service runs, none
      is published for its remote at that moment. */
  lemma ErrorOnlyWithoutLiveSession(self: NodeId, before: seq<Label>, r: NodeId, after: seq<Label>, o: Choice, sid: nat)
    requires r != self
    ensures var s, t := Run(Step(Run(Initial(self), before), CallConnect(r)), after),
                        |Run(Initial(self), before).threads|;
            var s' := Step(s, Thread(t, o));
            && t < |s.threads| && t < |s'.threads|
            && (s.service.Started? && !s.threads[t].Returned?
                && s'.threads[t].Returned? && s'.threads[t].session.None? ==>
                  !LiveFor(s, r, sid))
  {
    var s, t := CallIsUnderWay(self, before, r, after);
    ThreadStepEffect(s, t, o);
    var s' := Step(s, Thread(t, o));
    if s.service.Started? && !s.threads[t].Returned? && s'.threads[t].Returned? && s'.threads[t].session.None? {
      ReturnsNone(s, t, o, r);
      if LiveFor(s, r, sid) { FindsTheLiveOne(s, r, sid); }
    }
  }

  lemma CallIsUnderWay(self: NodeId, before: seq<Label>, r: NodeId, after: seq<Label>) returns (s: Node, t: nat)
    requires r != self
    ensures s == Run(Step(Run(Initial(self), before), CallConnect(r)), after)
    ensures t == |Run(Initial(self), before).threads|
    ensures Inv(s) && ConnectsTo(s, t, r)
  {
    Reachable(self, before);
    SelfIsFixed(Initial(self), before);
    var s0 := Run(Initial(self), before);
    t := |s0.threads|;
    StepInv(s0, CallConnect(r));
    RunConnects(Step(s0, CallConnect(r)), after, t, r);
    s := Run(Step(s0, CallConnect(r)), after);
  }

  // ---------- Why it fails ----------

  /** `err` is what an establishment for `r` ended with, or says that the service is not running. */
  ghost predicate Excused(s: Node, r: NodeId, err: Error) {
    || err.ServiceNotStarted?
    || (err.ServiceClosed? && s.service.Closed?)
    || exists e: nat ::
         e < |s.slots| && s.slots[e].remote == r && s.slots[e].es.IsEnd() && s.slots[e].es.err == Some(err)
  }

  lemma StillExcused(s: Node, a: Label, r: NodeId, err: Error)
    requires Excused(s, r, err)
    ensures Excused(Step(s, a), r, err)
  {
    EndKeptByStep(s, a);
    if s.service.Closed? { ServiceStaysClosed(s, a); }
    if e: nat :| e < |s.slots| && s.slots[e].remote == r && s.slots[e].es.IsEnd() && s.slots[e].es.err == Some(err) {
      assert Step(s, a).slots[e].es.err == Some(err);
    }
  }

  /** What a call has been told, or is about to say, is so. */
  ghost predicate Honest(s: Node, t: nat, r: NodeId) {
    && ConnectsTo(s, t, r)
    && (s.threads[t].Recheck? ==> Excused(s, r, s.threads[t].err))
    && (s.threads[t].Returned? && s.threads[t].session.None? ==>
          s.threads[t].failure.Some? && Excused(s, r, s.threads[t].failure.value))
  }

  lemma ComesToRecheck(s: Node, t: nat, o: Choice, r: NodeId)
    requires Inv(s) && ConnectsTo(s, t, r) && !s.threads[t].Recheck?
    requires var s' := ThreadStep(s, t, o); t < |s'.threads| && s'.threads[t].Recheck?
    ensures Excused(s, r, ThreadStep(s, t, o).threads[t].err)
  {
    assert ThreadOk(s, t);
    if IsRunning(s.threads[t]) {
      RunnerGoesOn(s, t, o);
    } else if IsEnding(s.threads[t]) {
      EnderStays(s, t, o);
    } else if s.threads[t].Wait? {
      WaitRechecks(s, t, o);
    } else {
      LookupNeverRechecks(s, t, o);
    }
  }

  lemma WaitRechecks(s: Node, t: nat, o: Choice)
    requires t < |s.threads| && s.threads[t].Wait? && s.threads[t].e < |s.slots|
    ensures var s', e := EndStep(s, t, o), s.threads[t].e;
            && t < |s'.threads|
            && (s'.threads[t].Recheck? ==> s.slots[e].es.IsEnd() && s.slots[e].es.err == Some(s'.threads[t].err))
  {
  }

  lemma LookupNeverRechecks(s: Node, t: nat, o: Choice)
    requires t < |s.threads| && EsOf(s.threads[t]).None? && !s.threads[t].Recheck?
    ensures t < |LookupStep(s, t, o).threads| && !LookupStep(s, t, o).threads[t].Recheck?
  {
  }

  lemma HonestStep(s: Node, a: Label, t: nat, r: NodeId)
    requires Inv(s) && Honest(s, t, r)
    ensures Honest(Step(s, a), t, r)
  {
    var s' := Step(s, a);
    StepConnects(s, a, t, r);
    if !a.Thread? { OthersMoveNobody(s, a, t); } else if a.t < |s.threads| { ThreadStepEffect(s, a.t, a.choice); }
    if s'.threads[t] == s.threads[t] {
      UnmovedStaysHonest(s, a, t, r);
    } else if s'.threads[t].Recheck? {
      ComesToRecheck(s, t, a.choice, r);
      StillExcused(s, a, r, s'.threads[t].err);
    } else if s'.threads[t].Returned? && s'.threads[t].session.None? {
      ReturnsNone(s, t, a.choice, r);
      assert Excused(s, r, s'.threads[t].failure.value);
      StillExcused(s, a, r, s'.threads[t].failure.value);
    }
  }

  lemma UnmovedStaysHonest(s: Node, a: Label, t: nat, r: NodeId)
    requires Honest(s, t, r) && ConnectsTo(Step(s, a), t, r) && Step(s, a).threads[t] == s.threads[t]
    ensures Honest(Step(s, a), t, r)
  {
    if s.threads[t].Recheck? { StillExcused(s, a, r, s.threads[t].err); }
    if s.threads[t].Returned? && s.threads[t].session.None? { StillExcused(s, a, r, s.threads[t].failure.value); }
  }

  lemma {:induction false} HonestRun(s: Node, labels: seq<Label>, t: nat, r: NodeId)
    requires Inv(s) && Honest(s, t, r)
    ensures Honest(Run(s, labels), t, r)
    decreases |labels|
  {
    if labels != [] {
      StepInv(s, labels[0]);
      HonestStep(s, labels[0], t, r);
      HonestRun(Step(s, labels[0]), labels[1..], t, r);
    }
  }

  /** The error a call of `Connect` for `r` returns is the one an establishment with `r` ended with, or else says that
      the service has been closed, or was not started as the call came. */
  lemma ConnectFailsForAReason(self: NodeId, before: seq<Label>, r: NodeId, after: seq<Label>)
    requires r != self
    ensures var s', t := Run(Step(Run(Initial(self), before), CallConnect(r)), after),
                         |Run(Initial(self), before).threads|;
            && t < |s'.threads|
            && (s'.threads[t].Returned? && s'.threads[t].session.None? ==>
                  s'.threads[t].failure.Some? && Excused(s', r, s'.threads[t].failure.value))
  {
    var _, t := CallIsUnderWay(self, before, r, []);
    var s0 := Run(Initial(self), before);
    var s1 := Step(s0, CallConnect(r));
    Reachable(self, before);
    StepInv(s0, CallConnect(r));
    assert Run(s1, []) == s1;
    HonestRun(s1, after, t, r);
  }
}
