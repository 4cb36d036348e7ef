/** What an establishment comes to: its connection or its error; and that it never dials once dialed. */
module NodeOutcome {
  import opened Wrappers
  import opened NodeIds
  import opened Establish
  import opened NodeModel
  import opened NodeInvariant
  import opened NodeTheorems
  import opened NodeConnections
  import opened NodeConnect
  import opened NodeClosedSession

  // ---------- Once dialed ----------

  /** `e` has been dialed and has not dialed. */
  predicate OnlyDialed(s: Node, e: nat) {
    e < |s.slots| && s.slots[e].es.passive.Some? && s.slots[e].es.active.None?
  }

  lemma DialedThroughFinish(s: Node, t: nat, o: Choice, e: nat)
    requires AtWork(s, t, e) && (s.threads[t].Succeeding? || s.threads[t].Failing?) && OnlyDialed(s, e)
    ensures OnlyDialed(RunnerStep(s, t, o), e)
  {
    var pc := s.threads[t];
    if pc.Succeeding? {
      MaybeEndEnds(SetEs(s, e, s.slots[e].es.Succeed(pc.side, pc.conn).es), t, e, pc.side);
    } else {
      MaybeEndEnds(CloseConn(SetEs(s, e, s.slots[e].es.Fail(pc.side, pc.err).es), pc.oc), t, e, pc.side);
    }
  }

  lemma DialedThroughMove(s: Node, t: nat, o: Choice, e: nat)
    requires AtWork(s, t, e) && Moving(s.threads[t]) && OnlyDialed(s, e)
    ensures OnlyDialed(RunnerStep(s, t, o), e)
  {
    if s.threads[t].StartActive? { StartsExactlyWhen(s.slots[e].es, Active, o.time); }
  }

  lemma DialedThroughEnd(s: Node, t: nat, o: Choice, e: nat)
    requires AtWork(s, t, e) && (IsEnding(s.threads[t]) || s.threads[t].Wait?) && OnlyDialed(s, e)
    ensures OnlyDialed(EndStep(s, t, o), e)
  {
  }

  lemma DialedThroughWork(s: Node, t: nat, o: Choice, e: nat)
    requires AtWork(s, t, e) && OnlyDialed(s, e)
    ensures OnlyDialed(ThreadStep(s, t, o), e)
  {
    if !IsRunning(s.threads[t]) { DialedThroughEnd(s, t, o, e); }
    else if Moving(s.threads[t]) { DialedThroughMove(s, t, o, e); }
    else { DialedThroughFinish(s, t, o, e); }
  }

  /** Steps of nobody at work on `e` leave it as it is. */
  lemma OthersLeave(s: Node, a: Label, e: nat)
    requires Inv(s) && PendingsOk(s) && e < |s.slots|
    requires a.Thread? && a.t < |s.threads| ==> EsOf(s.threads[a.t]) != Some(e)
    ensures e < |Step(s, a).slots| && Step(s, a).slots[e] == s.slots[e]
  {
    if a.Thread? && a.t < |s.threads| {
      assert ThreadOk(s, a.t) && PendingOk(s, a.t);
      if EsOf(s.threads[a.t]).Some? {
        assert SlotOk(s, s.threads[a.t].e);
        ThreadWork(s, a.t, a.choice, s.threads[a.t].e);
      } else {
        var _, _, _ := LookupShape(s, a.t, a.choice);
      }
    }
  }

  lemma DialedStep(s: Node, a: Label, e: nat)
    requires Inv(s) && PendingsOk(s) && OnlyDialed(s, e)
    ensures OnlyDialed(Step(s, a), e)
  {
    if a.Thread? && a.t < |s.threads| && EsOf(s.threads[a.t]) == Some(e) {
      assert ThreadOk(s, a.t) && SlotOk(s, e);
      DialedThroughWork(s, a.t, a.choice, e);
    } else {
      OthersLeave(s, a, e);
    }
  }

  lemma {:induction false} DialedRun(s: Node, labels: seq<Label>, e: nat)
    requires Inv(s) && ConnsOk(s) && PendingsOk(s) && OnlyDialed(s, e)
    ensures Inv(Run(s, labels)) && OnlyDialed(Run(s, labels), e)
    decreases |labels|
  {
    if labels != [] {
      StepInv(s, labels[0]);
      StepConns(s, labels[0]);
      DialedStep(s, labels[0], e);
      DialedRun(Step(s, labels[0]), labels[1..], e);
    }
  }

  lemma ReachableConns(self: NodeId, labels: seq<Label>)
    ensures var s := Run(Initial(self), labels); Inv(s) && ConnsOk(s) && PendingsOk(s)
  {
    InitialInv(self);
    RunPendings(Initial(self), labels);
  }

  lemma {:induction false} RunPendings(s: Node, labels: seq<Label>)
    requires Inv(s) && ConnsOk(s) && PendingsOk(s)
    ensures Inv(Run(s, labels)) && ConnsOk(Run(s, labels)) && PendingsOk(Run(s, labels))
    decreases |labels|
  {
    if labels != [] {
      StepInv(s, labels[0]);
      StepConns(s, labels[0]);
      RunPendings(Step(s, labels[0]), labels[1..]);
    }
  }

  /** Once dialed, a node never dials: an establishment whose passive direction was started first never has an active
      one, on any continuation, and no goroutine ever is at work on one. */
  lemma OnceDialedNeverDials(self: NodeId, before: seq<Label>, e: nat, after: seq<Label>, t: nat)
    ensures var s := Run(Initial(self), before);
            OnlyDialed(s, e) ==>
              var s' := Run(s, after);
              && e < |s'.slots| && s'.slots[e].es.active.None?
              && (t < |s'.threads| && EsOf(s'.threads[t]) == Some(e) ==> RunnerSide(s'.threads[t]) != Some(Active))
  {
    ReachableConns(self, before);
    var s := Run(Initial(self), before);
    if OnlyDialed(s, e) {
      DialedRun(s, after, e);
      var s' := Run(s, after);
      if t < |s'.threads| { assert ThreadOk(s', t); }
    }
  }

  // ---------- What has been decided ----------

  /** The decision over `e`, as often as it is looked at. */
  function DecisionOf(s: Node, e: nat): Decision
    requires e < |s.slots|
  {
    s.slots[e].es.Decide(Less(s.self, s.slots[e].remote))
  }

  predicate IsBuildError(err: Error) {
    err.CoreStart? || err.SessionClosed? || err.ServiceClosed?
  }

  /** `err` is the error decided for, or a connection was and no session came of it. */
  predicate Justified(d: Decision, err: Error) {
    if d.err.Some? then err == d.err.value else IsBuildError(err)
  }

  /** The goroutine inside `establishEnd` does what was decided. */
  predicate InHandOk(pc: Pc, d: Decision) {
    && (pc.GiveUp? ==> Justified(d, pc.err))
    && (pc.CreateSession? ==> d.err.None? && d.conn == Some(pc.conn) && d.active == pc.activeEnd)
    && (pc.LockSession? || pc.Publish? || pc.Abort? ==> d.err.None?)
  }

  predicate OutcomeOk(s: Node, e: nat)
    requires e < |s.slots|
  {
    var slot := s.slots[e];
    && (slot.mutex.Some? && slot.mutex.value < |s.threads| ==> InHandOk(s.threads[slot.mutex.value], DecisionOf(s, e)))
    && (slot.es.IsEnd() && slot.es.err.Some? ==> Quiet(slot.es) && Justified(DecisionOf(s, e), slot.es.err.value))
  }

  /** A session is over the connection decided for, and it stays decided. */
  predicate BuiltOk(s: Node, sid: nat)
    requires sid < |s.built|
  {
    var x := s.built[sid];
    && x.es < |s.slots| && Quiet(s.slots[x.es].es)
    && (s.slots[x.es].mutex.Some? || s.slots[x.es].es.IsEnd())
    && DecisionOf(s, x.es).err.None? && DecisionOf(s, x.es).conn == Some(x.conn)
    && DecisionOf(s, x.es).active == x.activeEnd
  }

  ghost predicate OutcomesOk(s: Node) {
    && (forall e: nat :: e < |s.slots| ==> OutcomeOk(s, e))
    && (forall sid: nat :: sid < |s.built| ==> BuiltOk(s, sid))
  }

  /** What a step of `t` on `e` has to keep of `e` itself. */
  predicate KeepsOutcome(s: Node, s': Node, e: nat) {
    && e < |s.slots| && e < |s'.slots| && OutcomeOk(s', e)
    && |s.built| <= |s'.built|
    && (forall sid: nat :: sid < |s.built| && s.built[sid].es == e ==>
          s'.built[sid].es == e && s'.built[sid].conn == s.built[sid].conn
          && s'.built[sid].activeEnd == s.built[sid].activeEnd)
    && (forall sid: nat :: |s.built| <= sid < |s'.built| ==> s'.built[sid].es == e)
    && (forall sid: nat :: sid < |s'.built| && s'.built[sid].es == e ==> BuiltOk(s', sid))
  }

  lemma WorkOutcomes(s: Node, s': Node, t: nat, e: nat)
    requires Inv(s) && OutcomesOk(s) && t < |s.threads| && e < |s.slots| && EsOf(s.threads[t]) == Some(e)
    requires WorkEffect(s, s', t, e) && s'.self == s.self && KeepsOutcome(s, s', e)
    ensures OutcomesOk(s')
  {
    forall x: nat | x < |s'.slots| ensures OutcomeOk(s', x) {
      if x != e {
        assert SlotOk(s, x) && OutcomeOk(s, x);
        assert s'.slots[x] == s.slots[x];
      }
    }
    forall sid: nat | sid < |s'.built| ensures BuiltOk(s', sid) {
      if s'.built[sid].es != e {
        assert BuiltOk(s, sid);
        assert s'.built[sid] == s.built[sid];
      }
    }
  }

  // ---------- A direction under way ----------

  lemma NobodyElseBuilt(s: Node, t: nat, e: nat)
    requires AtWork(s, t, e) && OutcomesOk(s) && RunnerSide(s.threads[t]).Some?
    ensures forall sid: nat :: sid < |s.built| ==> s.built[sid].es != e
    ensures s.slots[e].es.IsEnd() ==> s.slots[e].es.err.None?
  {
    forall sid: nat | sid < |s.built| ensures s.built[sid].es != e { assert BuiltOk(s, sid); }
    assert OutcomeOk(s, e);
  }

  /** Inside `establishEnd` by way of MaybeEnd, or waiting. */
  lemma FinishOutcome(s1: Node, t: nat, e: nat, side: Side)
    requires t < |s1.threads| && e < |s1.slots| && s1.slots[e].mutex.None?
    requires s1.slots[e].es.IsEnd() ==> s1.slots[e].es.err.None?
    requires var s' := MaybeEnd(s1, t, e, side); t < |s'.threads| && ThreadOk(s', t)
    ensures e < |MaybeEnd(s1, t, e, side).slots| && OutcomeOk(MaybeEnd(s1, t, e, side), e)
  {
    MaybeEndKeeps(s1, t, e, side);
  }

  lemma MaybeEndKeeps(s1: Node, t: nat, e: nat, side: Side)
    requires t < |s1.threads| && e < |s1.slots| && s1.slots[e].mutex.None?
    ensures var s', d := MaybeEnd(s1, t, e, side), DecisionOf(s1, e);
            && e < |s'.slots| && t < |s'.threads| && s'.self == s1.self
            && s'.slots[e].es == s1.slots[e].es && s'.slots[e].remote == s1.slots[e].remote
            && (s'.slots[e].mutex.None? || (s'.slots[e].mutex == Some(t) && !s1.slots[e].es.IsEnd()))
            && (s'.slots[e].mutex.Some? ==>
                  s'.threads[t] == (if d.err.Some? then GiveUp(e, side, d.err.value)
                                    else if d.conn.Some? then CreateSession(e, side, d.conn.value, d.active)
                                    else GiveUp(e, side, UnknownEndStatus)))
  {
  }

  lemma FinisherOutcome(s: Node, t: nat, o: Choice, e: nat)
    requires Inv(s) && AtWork(s, t, e) && OutcomesOk(s) && (s.threads[t].Succeeding? || s.threads[t].Failing?)
    requires RunnerStep(s, t, o) != s
    ensures e < |RunnerStep(s, t, o).slots| && OutcomeOk(RunnerStep(s, t, o), e)
  {
    var pc := s.threads[t];
    var s1 := if pc.Succeeding? then SetEs(s, e, s.slots[e].es.Succeed(pc.side, pc.conn).es)
              else CloseConn(SetEs(s, e, s.slots[e].es.Fail(pc.side, pc.err).es), pc.oc);
    NobodyElseBuilt(s, t, e);
    RunnerStepLocal(s, t, o);
    if pc.Failing? { FailingIs(s, t, o); }
    FinishOutcome(s1, t, e, pc.side);
  }

  lemma MoverOutcome(s: Node, t: nat, o: Choice, e: nat)
    requires AtWork(s, t, e) && OutcomesOk(s) && Moving(s.threads[t]) && RunnerSide(s.threads[t]).Some?
    ensures e < |RunnerStep(s, t, o).slots| && OutcomeOk(RunnerStep(s, t, o), e)
  {
    NobodyElseBuilt(s, t, e);
    MoverEnds(s, t, o, e);
  }

  lemma MoverEnds(s: Node, t: nat, o: Choice, e: nat)
    requires AtWork(s, t, e) && Moving(s.threads[t]) && RunnerSide(s.threads[t]).Some?
    requires s.slots[e].es.IsEnd() ==> s.slots[e].es.err.None?
    ensures var s' := RunnerStep(s, t, o);
            && e < |s'.slots| && (s'.slots[e].es.IsEnd() ==> s'.slots[e].es.err.None?)
            && (s' == s || s.slots[e].mutex.None? || s'.slots[e] == s.slots[e])
            && (s'.slots[e].mutex == s.slots[e].mutex)
            && (s.slots[e].mutex.Some? ==> s.slots[e].mutex.value != t)
  {
  }

  /** Nothing begins where it has been decided. */
  predicate Begins(s: Node, s': Node, t: nat, e: nat) {
    && e < |s.slots| && e < |s'.slots|
    && s'.slots[e].mutex == s.slots[e].mutex && s'.slots[e].remote == s.slots[e].remote
    && (s'.slots[e].es == s.slots[e].es || (s.slots[e].mutex.None? && !s.slots[e].es.IsEnd()
                                            && !s'.slots[e].es.IsEnd()))
    && t < |s'.threads| && (s.slots[e].mutex.Some? ==> s.slots[e].mutex.value != t)
  }

  lemma DialerBegins(s: Node, t: nat, o: Choice, e: nat)
    requires AtWork(s, t, e) && s.threads[t].StartActive?
    ensures Begins(s, RunnerStep(s, t, o), t, e)
  {
    StartsExactlyWhen(s.slots[e].es, Active, o.time);
  }

  lemma AcceptorBegins(s: Node, t: nat, o: Choice, e: nat)
    requires AtWork(s, t, e) && s.threads[t].StartPassive?
    ensures Begins(s, RunnerStep(s, t, o), t, e)
  {
    StartsExactlyWhen(s.slots[e].es, Passive, s.threads[t].time);
  }

  lemma RunnerOutcome(s: Node, t: nat, o: Choice, e: nat)
    requires Inv(s) && AtWork(s, t, e) && OutcomesOk(s) && IsRunning(s.threads[t]) && RunnerStep(s, t, o) != s
    requires WorkEffect(s, RunnerStep(s, t, o), t, e)
    ensures KeepsOutcome(s, RunnerStep(s, t, o), e)
  {
    var s' := RunnerStep(s, t, o);
    RunnerStepEffect(s, t, o);
    if RunnerSide(s.threads[t]).Some? {
      NobodyElseBuilt(s, t, e);
      if Moving(s.threads[t]) { MoverStays(s, t, o, e); } else { FinisherOutcome(s, t, o, e); }
    } else {
      if s.threads[t].StartActive? { DialerBegins(s, t, o, e); } else { AcceptorBegins(s, t, o, e); }
      assert OutcomeOk(s, e);
      forall sid: nat | sid < |s'.built| && s'.built[sid].es == e ensures BuiltOk(s', sid) {
        assert BuiltOk(s, sid);
      }
    }
  }

  lemma MoverStays(s: Node, t: nat, o: Choice, e: nat)
    requires AtWork(s, t, e) && OutcomesOk(s) && Moving(s.threads[t]) && RunnerSide(s.threads[t]).Some?
    ensures e < |RunnerStep(s, t, o).slots| && OutcomeOk(RunnerStep(s, t, o), e)
  {
    MoverOutcome(s, t, o, e);
  }

  // ---------- Inside establishEnd ----------

  /** The decision is the same, and so is whoever is to act on it. */
  predicate SameDecision(s: Node, s': Node, e: nat) {
    && e < |s.slots| && e < |s'.slots| && s'.self == s.self && s'.slots[e].remote == s.slots[e].remote
    && s'.slots[e].es.active == s.slots[e].es.active && s'.slots[e].es.passive == s.slots[e].es.passive
  }

  lemma DecisionStays(s: Node, s': Node, e: nat)
    requires SameDecision(s, s', e)
    ensures DecisionOf(s', e) == DecisionOf(s, e) && Quiet(s'.slots[e].es) == Quiet(s.slots[e].es)
  {
  }

  /** What the goroutine inside `establishEnd` does next, given what was decided. */
  lemma EnderGoes(s: Node, t: nat, o: Choice, e: nat)
    requires AtWork(s, t, e) && IsEnding(s.threads[t]) && InHandOk(s.threads[t], DecisionOf(s, e))
    ensures var s', pc, d := EndStep(s, t, o), s.threads[t], DecisionOf(s, e);
            && SameDecision(s, s', e) && t < |s'.threads| && InHandOk(s'.threads[t], d)
            && (s'.slots[e].mutex == Some(t) || (s'.slots[e].mutex.None? && s'.slots[e].es.IsEnd()))
            && (s'.slots[e].es.IsEnd() && s'.slots[e].es.err.Some? ==>
                  (s.slots[e].es.IsEnd() && s'.slots[e].es.err == s.slots[e].es.err)
                  || Justified(d, s'.slots[e].es.err.value))
  {
    if s.threads[t].CreateSession? || s.threads[t].LockSession? { BuilderGoes(s, t, o, e); }
    else if s.threads[t].Publish? || s.threads[t].Abort? { SettlerGoes(s, t, o, e); }
  }

  lemma BuilderGoes(s: Node, t: nat, o: Choice, e: nat)
    requires AtWork(s, t, e) && (s.threads[t].CreateSession? || s.threads[t].LockSession?)
    requires InHandOk(s.threads[t], DecisionOf(s, e))
    ensures var s' := EndStep(s, t, o);
            && SameDecision(s, s', e) && t < |s'.threads| && InHandOk(s'.threads[t], DecisionOf(s, e))
            && s'.slots[e] == s.slots[e]
  {
  }

  lemma SettlerGoes(s: Node, t: nat, o: Choice, e: nat)
    requires AtWork(s, t, e) && (s.threads[t].Publish? || s.threads[t].Abort?)
    requires InHandOk(s.threads[t], DecisionOf(s, e))
    ensures var s' := EndStep(s, t, o);
            && SameDecision(s, s', e) && t < |s'.threads| && InHandOk(s'.threads[t], DecisionOf(s, e))
            && s'.slots[e] == s.slots[e]
  {
  }

  /** The sessions built on `e` stay what they are; a new one is over the connection decided for. */
  lemma EnderBuilds(s: Node, t: nat, o: Choice, e: nat)
    requires AtWork(s, t, e) && IsEnding(s.threads[t])
    ensures var s', pc := EndStep(s, t, o), s.threads[t];
            && |s.built| <= |s'.built| && (|s'.built| != |s.built| ==> pc.CreateSession?)
            && (forall sid: nat :: sid < |s.built| ==>
                  s'.built[sid].es == s.built[sid].es && s'.built[sid].conn == s.built[sid].conn
                  && s'.built[sid].activeEnd == s.built[sid].activeEnd)
            && (forall sid: nat :: |s.built| <= sid < |s'.built| ==>
                  pc.CreateSession? && s'.built[sid].es == e && s'.built[sid].conn == pc.conn
                  && s'.built[sid].activeEnd == pc.activeEnd)
  {
    if s.threads[t].CreateSession? { CreatorBuildsOne(s, t, o, e); }
    else if s.threads[t].Publish? || s.threads[t].Abort? { SettlerBuildsNone(s, t, o, e); }
  }

  lemma CreatorBuildsOne(s: Node, t: nat, o: Choice, e: nat)
    requires AtWork(s, t, e) && s.threads[t].CreateSession?
    ensures var s', pc := EndStep(s, t, o), s.threads[t];
            && |s'.built| == |s.built| + 1 && s'.built[..|s.built|] == s.built
            && s'.built[|s.built|].es == e && s'.built[|s.built|].conn == pc.conn
            && s'.built[|s.built|].activeEnd == pc.activeEnd
  {
  }

  lemma SettlerBuildsNone(s: Node, t: nat, o: Choice, e: nat)
    requires AtWork(s, t, e) && (s.threads[t].Publish? || s.threads[t].Abort?)
    ensures var s' := EndStep(s, t, o);
            && |s'.built| == |s.built|
            && (forall sid: nat :: sid < |s.built| ==>
                  s'.built[sid].es == s.built[sid].es && s'.built[sid].conn == s.built[sid].conn
                  && s'.built[sid].activeEnd == s.built[sid].activeEnd)
  {
  }

  lemma EnderOutcome(s: Node, t: nat, o: Choice, e: nat)
    requires AtWork(s, t, e) && OutcomesOk(s) && IsEnding(s.threads[t])
    ensures KeepsOutcome(s, EndStep(s, t, o), e)
  {
    var s' := EndStep(s, t, o);
    assert OutcomeOk(s, e);
    EnderGoes(s, t, o, e);
    EnderBuilds(s, t, o, e);
    DecisionStays(s, s', e);
    forall sid: nat | sid < |s'.built| && s'.built[sid].es == e ensures BuiltOk(s', sid) {
      if sid < |s.built| { assert BuiltOk(s, sid); }
    }
  }

  lemma WaiterOutcome(s: Node, t: nat, o: Choice, e: nat)
    requires AtWork(s, t, e) && OutcomesOk(s) && s.threads[t].Wait?
    ensures KeepsOutcome(s, EndStep(s, t, o), e)
  {
    var s' := EndStep(s, t, o);
    assert OutcomeOk(s, e);
    assert s'.slots == s.slots && s'.built == s.built && s'.self == s.self;
    forall sid: nat | sid < |s'.built| && s'.built[sid].es == e ensures BuiltOk(s', sid) { assert BuiltOk(s, sid); }
  }

  lemma ThreadOutcomes(s: Node, t: nat, o: Choice, e: nat)
    requires Inv(s) && AtWork(s, t, e) && PendingOk(s, t) && OutcomesOk(s)
    ensures OutcomesOk(ThreadStep(s, t, o))
  {
    var s' := ThreadStep(s, t, o);
    ThreadWork(s, t, o, e);
    ThreadStepEffect(s, t, o);
    if s' != s {
      if IsRunning(s.threads[t]) { RunnerOutcome(s, t, o, e); }
      else if s.threads[t].Wait? { WaiterOutcome(s, t, o, e); }
      else { EnderOutcome(s, t, o, e); }
      WorkOutcomes(s, s', t, e);
    }
  }

  // ---------- Everybody else ----------

  /** Slots, and goroutines at work on them, as they were; sessions over the same connections. */
  predicate Aloof(s: Node, s': Node) {
    && s'.self == s.self && |s.threads| <= |s'.threads|
    && (forall u: nat :: u < |s.threads| && EsOf(s.threads[u]).Some? ==> s'.threads[u] == s.threads[u])
    && |s.slots| <= |s'.slots| && (forall x: nat :: x < |s.slots| ==> s'.slots[x] == s.slots[x])
    && (forall x: nat :: |s.slots| <= x < |s'.slots| ==> s'.slots[x].mutex.None? && s'.slots[x].es == FRESH)
    && |s'.built| == |s.built|
    && (forall sid: nat :: sid < |s.built| ==>
          s'.built[sid].es == s.built[sid].es && s'.built[sid].conn == s.built[sid].conn
          && s'.built[sid].activeEnd == s.built[sid].activeEnd)
  }

  lemma AloofOutcomes(s: Node, s': Node)
    requires Inv(s) && OutcomesOk(s) && Aloof(s, s')
    ensures OutcomesOk(s')
  {
    forall e: nat | e < |s'.slots| ensures OutcomeOk(s', e) {
      if e < |s.slots| { assert OutcomeOk(s, e) && SlotOk(s, e); }
    }
    forall sid: nat | sid < |s'.built| ensures BuiltOk(s', sid) { assert BuiltOk(s, sid); }
  }

  lemma LookupAloof(s: Node, t: nat, o: Choice)
    requires t < |s.threads| && EsOf(s.threads[t]).None?
    ensures Aloof(s, LookupStep(s, t, o))
  {
    var _, _, _ := LookupShape(s, t, o);
    LookupAside(s, t, o);
  }

  lemma OtherAloof(s: Node, a: Label)
    requires !a.Thread?
    ensures Aloof(s, Step(s, a))
  {
    match a {
      case CloseSession(_) => CloserAloof(s, a);
      case CloseCore(_) => CloserAloof(s, a);
      case Unpublish(_) => CloserAloof(s, a);
      case LockToClose(_) => HandlerAloof(s, a);
      case LetGo(_) => HandlerAloof(s, a);
      case CloseLocked(_) => HandlerAloof(s, a);
      case StartService =>
      case CallConnect(_) =>
      case Incoming =>
      case _ => ShutdownAloof(s, a);
    }
  }

  lemma CloserAloof(s: Node, a: Label)
    ensures Aloof(s, CloseStep(s, a))
  {
  }

  lemma HandlerAloof(s: Node, a: Label)
    ensures Aloof(s, HandlerStep(s, a))
  {
  }

  lemma ShutdownAloof(s: Node, a: Label)
    ensures Aloof(s, ShutdownStep(s, a))
  {
  }

  lemma StepOutcomes(s: Node, a: Label)
    requires Inv(s) && PendingsOk(s) && OutcomesOk(s)
    ensures OutcomesOk(Step(s, a))
  {
    if !a.Thread? {
      OtherAloof(s, a);
      AloofOutcomes(s, Step(s, a));
    } else if a.t < |s.threads| {
      assert ThreadOk(s, a.t) && PendingOk(s, a.t);
      if EsOf(s.threads[a.t]).Some? {
        assert SlotOk(s, s.threads[a.t].e);
        ThreadOutcomes(s, a.t, a.choice, s.threads[a.t].e);
      } else {
        LookupAloof(s, a.t, a.choice);
        AloofOutcomes(s, Step(s, a));
      }
    }
  }

  lemma {:induction false} RunOutcomes(s: Node, labels: seq<Label>)
    requires Inv(s) && ConnsOk(s) && PendingsOk(s) && OutcomesOk(s)
    ensures Inv(Run(s, labels)) && OutcomesOk(Run(s, labels))
    decreases |labels|
  {
    if labels != [] {
      StepInv(s, labels[0]);
      StepConns(s, labels[0]);
      StepOutcomes(s, labels[0]);
      RunOutcomes(Step(s, labels[0]), labels[1..]);
    }
  }

  // ---------- What it comes to ----------

  /** Attempts as the invariant keeps them. */
  lemma DecidedShape(s: Node, e: nat)
    requires Inv(s) && e < |s.slots| && Quiet(s.slots[e].es) && s.slots[e].es.state != 0
    ensures var es := s.slots[e].es;
            && es.WellFormed() && (es.IsStarted(Active) || es.IsStarted(Passive))
            && !es.IsEstablishing(Active) && !es.IsEstablishing(Passive)
  {
    assert SlotOk(s, e);
    var es := s.slots[e].es;
    assert es.active == es.Of(Active) && es.passive == es.Of(Passive);
  }

  /** An establishment that ends with an error ends with that of a direction that failed, the only one if one alone was
      started; or a direction had succeeded and no session came of its connection. */
  lemma EndsWithItsOwnError(self: NodeId, labels: seq<Label>, e: nat)
    ensures var s := Run(Initial(self), labels);
            e < |s.slots| && s.slots[e].es.IsEnd() && s.slots[e].es.err.Some? ==>
              var es := s.slots[e].es;
              if es.IsSuccess(Active) || es.IsSuccess(Passive) then IsBuildError(es.err.value)
              else
                && (exists side: Side :: es.IsFail(side) && es.err == es.Err(side))
                && (forall side: Side :: es.Of(side.Other()).None? ==> es.err == es.Err(side))
                && (es.active.Some? && es.passive.Some? ==>
                      var a, p := es.active.value, es.passive.value;
                      es.err == if a.startTime < p.startTime
                                   || (a.startTime == p.startTime && Less(self, s.slots[e].remote))
                                then a.err else p.err)
  {
    InitialInv(self);
    RunOutcomes(Initial(self), labels);
    SelfIsFixed(Initial(self), labels);
    var s := Run(Initial(self), labels);
    if e < |s.slots| && s.slots[e].es.IsEnd() && s.slots[e].es.err.Some? {
      var es, tie := s.slots[e].es, Less(self, s.slots[e].remote);
      assert OutcomeOk(s, e);
      DecidedShape(s, e);
      DecideTotal(es, tie);
      ErrorIsAFailures(es, tie);
      assert es.active == es.Of(Active) && es.passive == es.Of(Passive);
      if es.active.Some? && es.passive.Some? { EarlierWins(es, tie); }
    }
  }

  /** A session is over the connection of a direction of its establishment that went through: the one that did if only
      one did, and else the one started first, ties going to the node with the smaller id. */
  lemma BuiltOnTheRightConnection(self: NodeId, labels: seq<Label>, sid: nat)
    ensures var s := Run(Initial(self), labels);
            sid < |s.built| ==>
              var x := s.built[sid];
              && x.es < |s.slots|
              && var es := s.slots[x.es].es;
                 && es.IsSuccess(if x.activeEnd then Active else Passive)
                 && es.Conn(if x.activeEnd then Active else Passive) == Some(x.conn)
                 && (es.IsSuccess(Active) && es.IsSuccess(Passive) ==>
                       var a, p := es.active.value, es.passive.value;
                       x.activeEnd <==>
                         a.startTime < p.startTime || (a.startTime == p.startTime && Less(self, x.remote)))
  {
    InitialInv(self);
    RunOutcomes(Initial(self), labels);
    SelfIsFixed(Initial(self), labels);
    var s := Run(Initial(self), labels);
    if sid < |s.built| {
      var x := s.built[sid];
      assert BuiltOk(s, sid) && SessionOk(s, sid) && SlotOk(s, x.es);
      var es, tie := s.slots[x.es].es, Less(self, x.remote);
      DecidedShape(s, x.es);
      DecideTotal(es, tie);
      assert es.active == es.Of(Active) && es.passive == es.Of(Passive);
      if es.active.Some? && es.passive.Some? { EarlierWins(es, tie); }
    }
  }
}
