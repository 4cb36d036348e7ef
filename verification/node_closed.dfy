/** When `Connect` hands out a session that had closed before the call began: exactly when. */
module NodeClosedSession {
  import opened Wrappers
  import opened NodeIds
  import opened Establish
  import opened NodeModel
  import opened NodeInvariant
  import opened NodeTheorems
  import opened NodeConnections
  import opened NodeOwnership
  import opened NodeConnect
  import opened NodeStaleEntry

  /** A goroutine that is about to record `x` as the outcome of `e`. */
  predicate Records(pc: Pc, e: nat, x: nat) {
    (pc.Exit? || pc.Publish? || pc.Signal?) && pc.e == e && pc.sid == x
  }

  /** `e` has `x` for its outcome, or will have. */
  ghost predicate Yields(s: Node, e: nat, x: nat) {
    || (e < |s.slots| && s.slots[e].es.IsEnd() && s.slots[e].es.session == Some(x))
    || exists u: nat :: u < |s.threads| && Records(s.threads[u], e, x)
  }

  // ---------- How an establishment comes to its end ----------

  /** What a goroutine standing at `pc` may make of an establishment that has not ended. */
  predicate EndedBy(pc: Pc, e: nat, es: Est) {
    es.IsEnd() ==>
      || ((pc.Exit? || pc.Signal?) && pc.e == e && es.session == Some(pc.sid))
      || (pc.GiveUp? && pc.e == e && es.session.None?)
  }

  lemma MaybeEndEnds(s: Node, t: nat, e: nat, side: Side)
    requires t < |s.threads| && e < |s.slots|
    ensures e < |MaybeEnd(s, t, e, side).slots| && MaybeEnd(s, t, e, side).slots[e].es == s.slots[e].es
  {
  }

  lemma FinisherEnds(s: Node, t: nat, o: Choice, e: nat)
    requires AtWork(s, t, e) && (s.threads[t].Succeeding? || s.threads[t].Failing?) && !s.slots[e].es.IsEnd()
    ensures e < |RunnerStep(s, t, o).slots| && !RunnerStep(s, t, o).slots[e].es.IsEnd()
  {
    var pc := s.threads[t];
    if pc.Succeeding? {
      MaybeEndEnds(SetEs(s, e, s.slots[e].es.Succeed(pc.side, pc.conn).es), t, e, pc.side);
    } else {
      MaybeEndEnds(CloseConn(SetEs(s, e, s.slots[e].es.Fail(pc.side, pc.err).es), pc.oc), t, e, pc.side);
    }
  }

  lemma StarterEnds(s: Node, t: nat, o: Choice, e: nat)
    requires AtWork(s, t, e) && (s.threads[t].StartActive? || s.threads[t].StartPassive?) && !s.slots[e].es.IsEnd()
    ensures e < |RunnerStep(s, t, o).slots| && !RunnerStep(s, t, o).slots[e].es.IsEnd()
  {
  }

  lemma TalkerEnds(s: Node, t: nat, o: Choice, e: nat)
    requires AtWork(s, t, e) && RunnerSide(s.threads[t]).Some? && !s.threads[t].Succeeding? && !s.threads[t].Failing?
    requires !s.slots[e].es.IsEnd()
    ensures e < |RunnerStep(s, t, o).slots| && EndedBy(s.threads[t], e, RunnerStep(s, t, o).slots[e].es)
  {
  }

  lemma RunnerEnds(s: Node, t: nat, o: Choice, e: nat)
    requires AtWork(s, t, e) && IsRunning(s.threads[t]) && !s.slots[e].es.IsEnd()
    ensures e < |RunnerStep(s, t, o).slots| && EndedBy(s.threads[t], e, RunnerStep(s, t, o).slots[e].es)
  {
    var pc := s.threads[t];
    if pc.Succeeding? || pc.Failing? { FinisherEnds(s, t, o, e); }
    else if pc.StartActive? || pc.StartPassive? { StarterEnds(s, t, o, e); }
    else { TalkerEnds(s, t, o, e); }
  }

  lemma EnderEnds(s: Node, t: nat, o: Choice, e: nat)
    requires AtWork(s, t, e) && (IsEnding(s.threads[t]) || s.threads[t].Wait?) && !s.slots[e].es.IsEnd()
    ensures e < |EndStep(s, t, o).slots| && EndedBy(s.threads[t], e, EndStep(s, t, o).slots[e].es)
  {
  }

  // ---------- How a goroutine comes to record an outcome ----------

  /** Where a goroutine that reaches `pc'` stood, and what it saw there. */
  predicate ReachedFrom(s: Node, pc: Pc, pc': Pc) {
    && (pc'.Exit? ==>
          pc.Guard? && pc.e == pc'.e && pc.e < |s.slots| && GetSession(s, s.slots[pc.e].remote) == Some(pc'.sid))
    && (pc'.Publish? ==> pc.LockSession? && pc.e == pc'.e && pc.sid == pc'.sid && IsLive(s, pc.sid))
    && (pc'.Signal? ==> pc.Publish? && pc.e == pc'.e && pc.sid == pc'.sid)
    && (pc'.Forget? ==> pc.GiveUp? && pc.e == pc'.e)
  }

  lemma FinisherReaches(s: Node, t: nat, o: Choice, e: nat)
    requires AtWork(s, t, e) && (s.threads[t].Succeeding? || s.threads[t].Failing?) && RunnerStep(s, t, o) != s
    ensures t < |RunnerStep(s, t, o).threads| && ReachedFrom(s, s.threads[t], RunnerStep(s, t, o).threads[t])
  {
    var pc := s.threads[t];
    if pc.Succeeding? {
      MaybeEndReaches(SetEs(s, e, s.slots[e].es.Succeed(pc.side, pc.conn).es), t, e, pc.side);
    } else {
      MaybeEndReaches(CloseConn(SetEs(s, e, s.slots[e].es.Fail(pc.side, pc.err).es), pc.oc), t, e, pc.side);
    }
  }

  lemma MaybeEndReaches(s: Node, t: nat, e: nat, side: Side)
    requires t < |s.threads| && e < |s.slots|
    ensures var ths := MaybeEnd(s, t, e, side).threads;
            t < |ths| && (ths[t].Wait? || ths[t].GiveUp? || ths[t].CreateSession?)
  {
  }

  lemma StarterReaches(s: Node, t: nat, o: Choice)
    requires t < |s.threads| && (s.threads[t].StartActive? || s.threads[t].StartPassive?) && RunnerStep(s, t, o) != s
    ensures t < |RunnerStep(s, t, o).threads| && ReachedFrom(s, s.threads[t], RunnerStep(s, t, o).threads[t])
  {
  }

  lemma GuardReaches(s: Node, t: nat, o: Choice)
    requires t < |s.threads| && s.threads[t].Guard? && RunnerStep(s, t, o) != s
    ensures t < |RunnerStep(s, t, o).threads| && ReachedFrom(s, s.threads[t], RunnerStep(s, t, o).threads[t])
  {
  }

  lemma IoReaches(s: Node, t: nat, o: Choice)
    requires t < |s.threads| && s.threads[t].Io?
    ensures t < |RunnerStep(s, t, o).threads| && ReachedFrom(s, s.threads[t], RunnerStep(s, t, o).threads[t])
  {
  }

  lemma ChangerReaches(s: Node, t: nat, o: Choice)
    requires t < |s.threads| && RunnerStep(s, t, o) != s
    requires s.threads[t].Exit? || s.threads[t].Dialing? || s.threads[t].Handshaking? || s.threads[t].AboutToSucceed?
    ensures t < |RunnerStep(s, t, o).threads| && ReachedFrom(s, s.threads[t], RunnerStep(s, t, o).threads[t])
  {
  }

  lemma RunnerReaches(s: Node, t: nat, o: Choice, e: nat)
    requires AtWork(s, t, e) && IsRunning(s.threads[t]) && RunnerStep(s, t, o) != s
    ensures t < |RunnerStep(s, t, o).threads| && ReachedFrom(s, s.threads[t], RunnerStep(s, t, o).threads[t])
  {
    var pc := s.threads[t];
    if pc.Succeeding? || pc.Failing? { FinisherReaches(s, t, o, e); }
    else if pc.StartActive? || pc.StartPassive? { StarterReaches(s, t, o); }
    else if pc.Guard? { GuardReaches(s, t, o); }
    else if pc.Io? { IoReaches(s, t, o); }
    else { ChangerReaches(s, t, o); }
  }

  lemma EnderReaches(s: Node, t: nat, o: Choice)
    requires t < |s.threads| && (IsEnding(s.threads[t]) || s.threads[t].Wait?) && EndStep(s, t, o) != s
    ensures t < |EndStep(s, t, o).threads| && ReachedFrom(s, s.threads[t], EndStep(s, t, o).threads[t])
  {
  }

  lemma LookupReaches(s: Node, t: nat, o: Choice)
    requires t < |s.threads| && EsOf(s.threads[t]).None?
    ensures t < |LookupStep(s, t, o).threads|
    ensures LookupStep(s, t, o) == s || ReachedFrom(s, s.threads[t], LookupStep(s, t, o).threads[t])
  {
    LookupStartsNothing(s, t, o);
  }

  // ---------- Every step ----------

  /** What any step makes of ends and entries: an establishment ends by the goroutine whose statement says so, a new
      one has not ended, and the only new entries are for new ones. */
  ghost predicate Evolves(s: Node, s': Node, pc: Option<Pc>) {
    && |s.slots| <= |s'.slots| && EndsKept(s, s')
    && (forall e: nat :: e < |s.slots| && !s.slots[e].es.IsEnd() ==>
          if pc.Some? then EndedBy(pc.value, e, s'.slots[e].es) else !s'.slots[e].es.IsEnd())
    && (forall e: nat :: |s.slots| <= e < |s'.slots| ==> !s'.slots[e].es.IsEnd())
    && (forall r :: r in s'.establishments ==>
          (r in s.establishments && s'.establishments[r] == s.establishments[r]) || |s.slots| <= s'.establishments[r])
    && (forall e: nat :: e < |s.slots| && s.slots[e].mutex.Some? && s'.slots[e].mutex.None? ==> !Mapped(s', e))
  }

  /** What a goroutine inside `establishEnd` leaves of slots and entries. */
  predicate SlotsAfter(s: Node, s': Node, e: nat)
    requires e < |s.slots|
  {
    && |s'.slots| == |s.slots| && (forall x: nat :: x < |s.slots| && x != e ==> s'.slots[x] == s.slots[x])
    && (forall r :: r in s'.establishments ==> r in s.establishments && s'.establishments[r] == s.establishments[r])
    && (s.slots[e].mutex.Some? && s'.slots[e].mutex.None? ==> !Mapped(s', e))
  }

  lemma EnderSlots(s: Node, t: nat, o: Choice, e: nat)
    requires AtWork(s, t, e) && (IsEnding(s.threads[t]) || s.threads[t].Wait?)
    ensures SlotsAfter(s, EndStep(s, t, o), e)
  {
    var pc := s.threads[t];
    if pc.Forget? || pc.Signal? { SignallerSlots(s, t, o, e); }
    else if pc.GiveUp? || pc.Wait? { WaiterSlots(s, t, o, e); }
    else { BuilderSlots(s, t, o, e); }
  }

  lemma SignallerSlots(s: Node, t: nat, o: Choice, e: nat)
    requires AtWork(s, t, e) && (s.threads[t].Forget? || s.threads[t].Signal?)
    ensures SlotsAfter(s, EndStep(s, t, o), e)
  {
  }

  lemma WaiterSlots(s: Node, t: nat, o: Choice, e: nat)
    requires AtWork(s, t, e) && (s.threads[t].GiveUp? || s.threads[t].Wait?)
    ensures SlotsAfter(s, EndStep(s, t, o), e)
  {
  }

  lemma BuilderSlots(s: Node, t: nat, o: Choice, e: nat)
    requires AtWork(s, t, e) && IsEnding(s.threads[t])
    requires s.threads[t].CreateSession? || s.threads[t].LockSession? || s.threads[t].Publish? || s.threads[t].Abort?
    ensures SlotsAfter(s, EndStep(s, t, o), e)
  {
  }

  lemma LookupEvolves(s: Node, t: nat, o: Choice)
    requires t < |s.threads| && MapsOk(s)
    ensures Evolves(s, LookupStep(s, t, o), Some(s.threads[t]))
  {
    var s1, r, c := LookupShape(s, t, o);
    LookupStepEffect(s, t, o);
  }

  lemma RunnerEvolves(s: Node, t: nat, o: Choice, e: nat)
    requires AtWork(s, t, e) && IsRunning(s.threads[t]) && MapsOk(s)
    ensures Evolves(s, RunnerStep(s, t, o), Some(s.threads[t]))
  {
    RunnerStepEffect(s, t, o);
    RunnerStepLocal(s, t, o);
    if !s.slots[e].es.IsEnd() { RunnerEnds(s, t, o, e); }
  }

  lemma EnderEvolves(s: Node, t: nat, o: Choice, e: nat)
    requires AtWork(s, t, e) && (IsEnding(s.threads[t]) || s.threads[t].Wait?)
    ensures Evolves(s, EndStep(s, t, o), Some(s.threads[t]))
  {
    EndStepEffect(s, t, o);
    EnderSlots(s, t, o, e);
    if !s.slots[e].es.IsEnd() { EnderEnds(s, t, o, e); }
  }

  lemma ThreadEvolves(s: Node, t: nat, o: Choice)
    requires Inv(s) && t < |s.threads|
    ensures Evolves(s, ThreadStep(s, t, o), Some(s.threads[t]))
  {
    var pc := s.threads[t];
    assert ThreadOk(s, t);
    if IsRunning(pc) {
      assert SlotOk(s, pc.e);
      RunnerEvolves(s, t, o, pc.e);
    } else if IsEnding(pc) || pc.Wait? {
      assert SlotOk(s, pc.e);
      EnderEvolves(s, t, o, pc.e);
    } else {
      LookupEvolves(s, t, o);
    }
  }

  lemma OtherEvolves(s: Node, a: Label)
    requires !a.Thread?
    ensures Evolves(s, Step(s, a), None)
  {
    EndKeptByStep(s, a);
  }

  lemma ThreadReaches(s: Node, t: nat, o: Choice)
    requires Inv(s) && t < |s.threads| && ThreadStep(s, t, o) != s
    ensures t < |ThreadStep(s, t, o).threads| && ReachedFrom(s, s.threads[t], ThreadStep(s, t, o).threads[t])
  {
    var pc := s.threads[t];
    assert ThreadOk(s, t);
    if IsRunning(pc) {
      assert SlotOk(s, pc.e);
      RunnerReaches(s, t, o, pc.e);
    } else if IsEnding(pc) || pc.Wait? {
      EnderReaches(s, t, o);
    } else {
      LookupReaches(s, t, o);
    }
  }

  // ---------- What is recorded while a session may be found ----------

  /** Looking for a session with `r` finds `x` or nothing. */
  predicate OnlyFinds(s: Node, r: NodeId, x: nat) {
    GetSession(s, r).None? || GetSession(s, r) == Some(x)
  }

  predicate ExitOk(s: Node, t: nat)
    requires t < |s.threads|
  {
    var pc := s.threads[t];
    && (pc.Exit? && pc.e < |s.slots| ==> OnlyFinds(s, s.slots[pc.e].remote, pc.sid))
    && (pc.Forget? && pc.e < |s.slots| ==> s.slots[pc.e].es.session.None?)
  }

  predicate EntryOk(s: Node, e: nat)
    requires e < |s.slots|
  {
    Mapped(s, e) && s.slots[e].es.IsEnd() ==>
      if s.slots[e].es.session.Some? then OnlyFinds(s, s.slots[e].remote, s.slots[e].es.session.value)
      else s.slots[e].mutex.Some?
  }

  ghost predicate RecordsOk(s: Node) {
    && (forall t: nat :: t < |s.threads| ==> ExitOk(s, t))
    && (forall e: nat :: e < |s.slots| ==> EntryOk(s, e))
  }

  /** Only publishing makes a session found that was not. */
  lemma FoundBefore(s: Node, a: Label, r: NodeId, y: nat)
    requires Inv(s) && GetSession(Step(s, a), r) == Some(y) && !s.service.Init?
    ensures GetSession(s, r) == Some(y) || Publishes(s, Step(s, a), y)
  {
    var s' := Step(s, a);
    StepInv(s, a);
    RemotesKept(s, a);
    assert PublishedFor(s', r, y);
    if y < |s.built| && s.built[y].published {
      assert SessionOk(s, y);
      ServiceKept(s, a);
    }
  }

  lemma ServiceKept(s: Node, a: Label)
    requires !s.service.Init?
    ensures Step(s, a).service.Started? ==> s.service.Started?
  {
    if s.service.Closed? { ServiceStaysClosed(s, a); }
  }

  /** Nothing is published for a remote while its entry is anything but about to publish. */
  lemma PublishesElsewhere(s: Node, a: Label, e: nat, y: nat)
    requires Inv(s) && Mapped(s, e) && (s.slots[e].es.IsEnd() || s.slots[e].mutex.None?)
    ensures Publishes(s, Step(s, a), y) ==> !PublishedFor(Step(s, a), s.slots[e].remote, y)
  {
    if Publishes(s, Step(s, a), y) {
      RemotesKept(s, a);
      PublishedBy(s, a, y);
      assert ThreadOk(s, a.t);
    }
  }

  lemma StillOnlyFinds(s: Node, a: Label, e: nat, x: nat)
    requires Inv(s) && Mapped(s, e) && OnlyFinds(s, s.slots[e].remote, x)
    requires s.slots[e].es.IsEnd() || s.slots[e].mutex.None?
    ensures OnlyFinds(Step(s, a), s.slots[e].remote, x)
  {
    var r := s.slots[e].remote;
    var found := GetSession(Step(s, a), r);
    if found.Some? {
      StepInv(s, a);
      FoundIsPublished(Step(s, a), r);
      PublishesElsewhere(s, a, e, found.value);
      FoundBefore(s, a, r, found.value);
    }
  }

  /** A direction under way: its establishment is the entry, and nobody is ending it. */
  lemma RunnersEntry(s: Node, t: nat)
    requires Inv(s) && t < |s.threads| && RunnerSide(s.threads[t]).Some?
    ensures var e := s.threads[t].e; e < |s.slots| && Mapped(s, e) && s.slots[e].mutex.None?
  {
    assert ThreadOk(s, t);
    assert SlotOk(s, s.threads[t].e);
  }

  lemma EvolvesBy(s: Node, a: Label)
    requires Inv(s)
    ensures Evolves(s, Step(s, a), if a.Thread? && a.t < |s.threads| then Some(s.threads[a.t]) else None)
  {
    if !a.Thread? { OtherEvolves(s, a); } else if a.t < |s.threads| { ThreadEvolves(s, a.t, a.choice); }
  }

  /** A goroutine that does not move, and one that does. */
  lemma UnmovedExitOk(s: Node, a: Label, t: nat)
    requires Inv(s) && t < |s.threads| && ExitOk(s, t)
    requires t < |Step(s, a).threads| && Step(s, a).threads[t] == s.threads[t]
    ensures ExitOk(Step(s, a), t)
  {
    var pc := s.threads[t];
    EvolvesBy(s, a);
    assert ThreadOk(s, t);
    if pc.Exit? {
      RunnersEntry(s, t);
      StillOnlyFinds(s, a, pc.e, pc.sid);
    }
  }

  lemma MovedExitOk(s: Node, t: nat, o: Choice)
    requires Inv(s) && t < |s.threads| && ThreadStep(s, t, o) != s
    ensures t < |ThreadStep(s, t, o).threads| && ExitOk(ThreadStep(s, t, o), t)
  {
    var s' := ThreadStep(s, t, o);
    assert s' == Step(s, Thread(t, o));
    ThreadReaches(s, t, o);
    ThreadEvolves(s, t, o);
    StepInv(s, Thread(t, o));
    var pc := s'.threads[t];
    assert ThreadOk(s', t) && ThreadOk(s, t);
    if pc.Exit? {
      RunnersEntry(s, t);
      StillOnlyFinds(s, Thread(t, o), pc.e, pc.sid);
    }
  }

  lemma EntryOkAfter(s: Node, a: Label, e: nat)
    requires Inv(s) && RecordsOk(s) && e < |Step(s, a).slots|
    ensures EntryOk(Step(s, a), e)
  {
    var s' := Step(s, a);
    EvolvesBy(s, a);
    if Mapped(s', e) && s'.slots[e].es.IsEnd() {
      assert Mapped(s, e);
      if s.slots[e].es.IsEnd() {
        assert EntryOk(s, e);
        if s.slots[e].es.session.Some? { StillOnlyFinds(s, a, e, s.slots[e].es.session.value); }
      } else {
        assert ThreadOk(s, a.t) && ExitOk(s, a.t);
        if s.threads[a.t].Exit? {
          RunnersEntry(s, a.t);
          StillOnlyFinds(s, a, e, s.threads[a.t].sid);
        }
      }
    }
  }

  lemma StepRecords(s: Node, a: Label)
    requires Inv(s) && RecordsOk(s)
    ensures RecordsOk(Step(s, a))
  {
    var s' := Step(s, a);
    forall t: nat | t < |s'.threads| ensures ExitOk(s', t) {
      if t < |s.threads| {
        assert ExitOk(s, t);
        if a.Thread? && a.t < |s.threads| { ThreadStepEffect(s, a.t, a.choice); }
        if !a.Thread? { OthersMoveNobody(s, a, t); }
        if s'.threads[t] == s.threads[t] { UnmovedExitOk(s, a, t); } else { MovedExitOk(s, t, a.choice); }
      } else {
        NewcomerIsNew(s, a, t);
      }
    }
    forall e: nat | e < |s'.slots| ensures EntryOk(s', e) { EntryOkAfter(s, a, e); }
  }

  lemma NewcomerIsNew(s: Node, a: Label, t: nat)
    requires |s.threads| <= t < |Step(s, a).threads|
    ensures Step(s, a).threads[t].CheckSession? || Step(s, a).threads[t].ReadApply?
  {
    if a.Thread? && a.t < |s.threads| { ThreadStepEffect(s, a.t, a.choice); }
  }

  lemma {:induction false} RunRecords(s: Node, labels: seq<Label>)
    requires Inv(s) && RecordsOk(s)
    ensures Inv(Run(s, labels)) && RecordsOk(Run(s, labels))
    decreases |labels|
  {
    if labels != [] {
      StepInv(s, labels[0]);
      StepRecords(s, labels[0]);
      RunRecords(Step(s, labels[0]), labels[1..]);
    }
  }

  // ---------- When a closed session is handed out ----------

  /** What decides it when the call begins: the service runs, and the entry for the remote is one that has ended with
      `x` and stayed, or whose goroutine inside `establishEnd` is past its last look at `x`, or whose dialer is
      about to exit early with `x`. */
  predicate HandsOut(s: Node, r: NodeId, x: nat) {
    && s.service.Started? && r in s.establishments && s.establishments[r] < |s.slots|
    && var e := s.establishments[r];
       var slot := s.slots[e];
       || (Stale(s, e) && slot.es.session == Some(x))
       || (slot.mutex.Some? && slot.mutex.value < |s.threads|
           && s.threads[slot.mutex.value].Publish? && Records(s.threads[slot.mutex.value], e, x))
       || (slot.dialer.Some? && slot.dialer.value < |s.threads|
           && s.threads[slot.dialer.value].Exit? && Records(s.threads[slot.dialer.value], e, x))
  }

  lemma HandsOutYields(s: Node, r: NodeId, x: nat)
    requires HandsOut(s, r, x)
    ensures Yields(s, s.establishments[r], x)
  {
  }

  lemma RecordedIsUnlocked(s: Node, e: nat)
    requires Inv(s) && RecordsOk(s) && e < |s.slots| && s.slots[e].es.IsEnd()
    ensures s.slots[e].es.session.Some? ==> s.slots[e].mutex.None?
  {
    assert SlotOk(s, e);
    if s.slots[e].mutex.Some? { assert ExitOk(s, s.slots[e].mutex.value); }
  }

  lemma YieldsKnown(s: Node, e: nat, x: nat)
    requires ThreadsOk(s) && Yields(s, e, x)
    ensures e < |s.slots|
  {
    if !(e < |s.slots| && s.slots[e].es.IsEnd() && s.slots[e].es.session == Some(x)) {
      var u: nat :| u < |s.threads| && Records(s.threads[u], e, x);
      assert ThreadOk(s, u);
    }
  }

  lemma YieldsHandsOut(s: Node, r: NodeId, x: nat)
    requires Inv(s) && RecordsOk(s) && s.service.Started? && r in s.establishments && Yields(s, s.establishments[r], x)
    ensures HandsOut(s, r, x)
  {
    var e := s.establishments[r];
    assert SlotOk(s, e);
    if s.slots[e].es.IsEnd() && s.slots[e].es.session == Some(x) {
      RecordedIsUnlocked(s, e);
    } else {
      var u: nat :| u < |s.threads| && Records(s.threads[u], e, x);
      assert ThreadOk(s, u);
    }
  }

  lemma RecordsBack(s: Node, a: Label, u: nat, e: nat, x: nat)
    requires Inv(s) && x < |s.built| && !IsLive(s, x) && u < |Step(s, a).threads|
    requires Records(Step(s, a).threads[u], e, x)
    ensures u < |s.threads| && Records(s.threads[u], e, x)
  {
    if |s.threads| <= u { NewcomerIsNew(s, a, u); }
    else if !a.Thread? { OthersMoveNobody(s, a, u); }
    else if a.t < |s.threads| {
      ThreadStepEffect(s, a.t, a.choice);
      if Step(s, a) != s { ThreadReaches(s, a.t, a.choice); }
    }
  }

  /** No step makes an establishment yield a session that is closed already. */
  lemma YieldsBack(s: Node, a: Label, e: nat, x: nat)
    requires Inv(s) && x < |s.built| && !IsLive(s, x) && Yields(Step(s, a), e, x)
    ensures e < |s.slots| && Yields(s, e, x)
  {
    var s' := Step(s, a);
    if e < |s'.slots| && s'.slots[e].es.IsEnd() && s'.slots[e].es.session == Some(x) {
      EvolvesBy(s, a);
      if !s.slots[e].es.IsEnd() { assert Records(s.threads[a.t], e, x); }
    } else {
      var u: nat :| u < |s'.threads| && Records(s'.threads[u], e, x);
      RecordsBack(s, a, u, e, x);
      assert ThreadOk(s, u);
    }
  }

  lemma HandsOutBack(s: Node, a: Label, r: NodeId, x: nat)
    requires Inv(s) && RecordsOk(s) && x < |s.built| && !IsLive(s, x) && HandsOut(Step(s, a), r, x)
    ensures HandsOut(s, r, x)
  {
    var s' := Step(s, a);
    HandsOutYields(s', r, x);
    YieldsBack(s, a, s'.establishments[r], x);
    EvolvesBy(s, a);
    ServiceKept(s, a);
    YieldsHandsOut(s, r, x);
  }

  /** Call `t` of `Connect` for `r` will not return `x`, which is closed. */
  ghost predicate WillNotReturn(s: Node, t: nat, r: NodeId, x: nat) {
    && x < |s.built| && !IsLive(s, x) && ConnectsTo(s, t, r)
    && var pc := s.threads[t];
       && (pc.CheckSession? || pc.FetchActive? ==> !HandsOut(s, r, x))
       && (EsOf(pc).Some? ==> !Yields(s, pc.e, x))
       && (pc.Returned? ==> pc.session != Some(x))
  }

  lemma ClosedStays(s: Node, a: Label, x: nat)
    requires x < |s.built| && !IsLive(s, x)
    ensures x < |Step(s, a).built| && !IsLive(Step(s, a), x)
  {
    RemotesKept(s, a);
  }

  lemma OthersWillNot(s: Node, a: Label, t: nat, r: NodeId, x: nat)
    requires Inv(s) && RecordsOk(s) && WillNotReturn(s, t, r, x)
    requires t < |Step(s, a).threads| && Step(s, a).threads[t] == s.threads[t]
    ensures WillNotReturn(Step(s, a), t, r, x)
  {
    var pc := s.threads[t];
    StepConnects(s, a, t, r);
    ClosedStays(s, a, x);
    if HandsOut(Step(s, a), r, x) { HandsOutBack(s, a, r, x); }
    if EsOf(pc).Some? && Yields(Step(s, a), pc.e, x) { YieldsBack(s, a, pc.e, x); }
  }

  /** Where a call may go from here. */
  predicate GoesOnFrom(s: Node, pc: Pc, pc': Pc) {
    && (EsOf(pc).Some? ==> EsOf(pc') == EsOf(pc) || (pc.Wait? && pc.e < |s.slots| && EsOf(pc').None?))
    && !pc'.CheckSession?
    && (pc'.FetchActive? ==> pc.CheckSession?)
    && (pc.FetchActive? && EsOf(pc').Some? ==>
          s.service.Started? && (pc.remote in s.establishments ==> pc'.e == s.establishments[pc.remote])
          && (pc.remote !in s.establishments ==> pc'.e == |s.slots|))
    && (EsOf(pc').Some? ==> EsOf(pc).Some? || pc.FetchActive?)
    && (pc'.Returned? && pc'.session.Some? ==>
          || ((pc.CheckSession? || pc.Recheck?) && GetSession(s, pc.remote) == pc'.session)
          || (pc.Wait? && pc.e < |s.slots| && s.slots[pc.e].es.IsEnd() && s.slots[pc.e].es.session == pc'.session))
  }

  lemma LookupGoesOn(s: Node, t: nat, o: Choice)
    requires t < |s.threads| && EsOf(s.threads[t]).None? && Role(s.threads[t]).Active? && LookupStep(s, t, o) != s
    ensures t < |LookupStep(s, t, o).threads| && GoesOnFrom(s, s.threads[t], LookupStep(s, t, o).threads[t])
  {
  }

  lemma RunnerGoesOn(s: Node, t: nat, o: Choice)
    requires t < |s.threads| && ThreadOk(s, t) && IsRunning(s.threads[t]) && Role(s.threads[t]).Active?
    ensures t < |RunnerStep(s, t, o).threads| && GoesOnFrom(s, s.threads[t], RunnerStep(s, t, o).threads[t])
  {
    RunnerRole(s, t, o);
  }

  lemma EnderGoesOn(s: Node, t: nat, o: Choice)
    requires t < |s.threads| && (IsEnding(s.threads[t]) || s.threads[t].Wait?)
    ensures t < |EndStep(s, t, o).threads| && GoesOnFrom(s, s.threads[t], EndStep(s, t, o).threads[t])
  {
    if s.threads[t].GiveUp? || s.threads[t].Forget? || s.threads[t].Signal? || s.threads[t].Wait? {
      SignallerGoesOn(s, t, o);
    } else {
      BuilderGoesOn(s, t, o);
    }
  }

  lemma SignallerGoesOn(s: Node, t: nat, o: Choice)
    requires t < |s.threads|
    requires s.threads[t].GiveUp? || s.threads[t].Forget? || s.threads[t].Signal? || s.threads[t].Wait?
    ensures t < |EndStep(s, t, o).threads| && GoesOnFrom(s, s.threads[t], EndStep(s, t, o).threads[t])
  {
  }

  lemma BuilderGoesOn(s: Node, t: nat, o: Choice)
    requires t < |s.threads|
    requires s.threads[t].CreateSession? || s.threads[t].LockSession? || s.threads[t].Publish? || s.threads[t].Abort?
    ensures t < |EndStep(s, t, o).threads| && GoesOnFrom(s, s.threads[t], EndStep(s, t, o).threads[t])
  {
  }

  lemma CallGoesOn(s: Node, t: nat, o: Choice)
    requires Inv(s) && t < |s.threads| && Role(s.threads[t]).Active? && ThreadStep(s, t, o) != s
    ensures t < |ThreadStep(s, t, o).threads| && GoesOnFrom(s, s.threads[t], ThreadStep(s, t, o).threads[t])
  {
    assert ThreadOk(s, t);
    if IsRunning(s.threads[t]) { RunnerGoesOn(s, t, o); }
    else if EsOf(s.threads[t]).Some? { EnderGoesOn(s, t, o); }
    else { LookupGoesOn(s, t, o); }
  }

  /** A fetched entry does not yield what the remote's entry would not hand out. */
  lemma FetchedWillNot(s: Node, t: nat, r: NodeId, x: nat, e: nat)
    requires Inv(s) && RecordsOk(s) && WillNotReturn(s, t, r, x) && s.threads[t].FetchActive? && s.service.Started?
    requires e == if r in s.establishments then s.establishments[r] else |s.slots|
    ensures !Yields(s, e, x)
  {
    if Yields(s, e, x) {
      YieldsKnown(s, e, x);
      YieldsHandsOut(s, r, x);
    }
  }

  lemma CallWillNot(s: Node, t: nat, o: Choice, r: NodeId, x: nat)
    requires Inv(s) && RecordsOk(s) && WillNotReturn(s, t, r, x) && ThreadStep(s, t, o) != s
    ensures WillNotReturn(ThreadStep(s, t, o), t, r, x)
  {
    var a := Thread(t, o);
    var s' := Step(s, a);
    CallGoesOn(s, t, o);
    StepConnects(s, a, t, r);
    ClosedStays(s, a, x);
    var pc' := s'.threads[t];
    if HandsOut(s', r, x) { HandsOutBack(s, a, r, x); }
    if EsOf(pc').Some? {
      if s.threads[t].FetchActive? { FetchedWillNot(s, t, r, x, pc'.e); }
      if Yields(s', pc'.e, x) { YieldsBack(s, a, pc'.e, x); }
    }
  }

  lemma {:induction false} RunWillNot(s: Node, labels: seq<Label>, t: nat, r: NodeId, x: nat)
    requires Inv(s) && RecordsOk(s) && WillNotReturn(s, t, r, x)
    ensures WillNotReturn(Run(s, labels), t, r, x)
    decreases |labels|
  {
    if labels != [] {
      var a := labels[0];
      StepInv(s, a);
      StepRecords(s, a);
      if a.Thread? && a.t == t {
        if Step(s, a) != s { CallWillNot(s, t, a.choice, r, x); }
      } else {
        if !a.Thread? { OthersMoveNobody(s, a, t); } else if a.t < |s.threads| { ThreadStepEffect(s, a.t, a.choice); }
        OthersWillNot(s, a, t, r, x);
      }
      RunWillNot(Step(s, a), labels[1..], t, r, x);
    }
  }

  // ---------- How it is handed out ----------

  /** Goroutine `u` takes a step in which every I/O call succeeds. */
  function Then(s: Node, u: nat): Label {
    Thread(u, Choice(true, 0, CoreStart, s.self))
  }

  /** `e` has ended with `x`, and nobody is at work ending it. */
  predicate EndedWith(s: Node, e: nat, x: nat) {
    e < |s.slots| && s.slots[e].mutex.None? && s.slots[e].es.IsEnd() && s.slots[e].es.session == Some(x)
  }

  /** A call that finds no session fetches the entry for its remote. */
  lemma CallFetches(s: Node, t: nat, r: NodeId) returns (labels: seq<Label>, s': Node)
    requires t < |s.threads| && s.threads[t] == CheckSession(r) && GetSession(s, r).None?
    requires s.service.Started? && r in s.establishments
    ensures Run(s, labels) == s' && s' == Goto(s, t, StartActive(s.establishments[r]))
  {
    var s1 := Step(s, Then(s, t));
    assert s1 == Goto(s, t, FetchActive(r));
    s' := Step(s1, Then(s, t));
    assert s' == Goto(s, t, StartActive(s.establishments[r]));
    labels := [Then(s, t)] + [Then(s, t)];
    RunAppend(s, [Then(s, t)], Then(s, t));
    RunOne(s, Then(s, t));
  }

  /** A call that finds the establishment ended with `x` returns it. */
  lemma CallReturns(s: Node, t: nat, e: nat, x: nat) returns (labels: seq<Label>, s': Node)
    requires t < |s.threads| && s.threads[t] == StartActive(e)
    requires EndedWith(s, e, x) && s.slots[e].es.err.None?
    ensures Run(s, labels) == s' && t < |s'.threads| && s'.threads[t] == Returned(Some(x), None)
  {
    var s1 := Step(s, Then(s, t));
    assert s1 == Goto(s, t, Wait(e, Active));
    s' := Step(s1, Then(s, t));
    assert s'.threads[t] == Returned(Some(x), None);
    labels := [Then(s, t)] + [Then(s, t)];
    RunAppend(s, [Then(s, t)], Then(s, t));
    RunOne(s, Then(s, t));
  }

  /** The goroutine about to record `x` records it. */
  lemma RecorderRecords(s: Node, u: nat, e: nat, x: nat) returns (labels: seq<Label>, s': Node)
    requires Inv(s) && u < |s.threads| && Records(s.threads[u], e, x) && !s.threads[u].Signal? && s.service.Started?
    ensures Run(s, labels) == s' && |s'.threads| == |s.threads|
    ensures forall t: nat :: t < |s.threads| && t != u ==> s'.threads[t] == s.threads[t]
    ensures EndedWith(s', e, x)
  {
    assert ThreadOk(s, u);
    labels := [Then(s, u)];
    s' := Step(s, Then(s, u));
    RunOne(s, Then(s, u));
    if s.threads[u].Exit? {
      RunnersEntry(s, u);
      assert SlotOk(s, e);
      ExitRecords(s, u, Then(s, u).choice, e, x);
    } else {
      PublishSignals(s, u, Then(s, u).choice, e, x);
      SignalRecords(s', u, Then(s, u).choice, e, x);
      RunAppend(s, labels, Then(s, u));
      labels, s' := labels + [Then(s, u)], Step(s', Then(s, u));
    }
  }

  lemma ExitRecords(s: Node, u: nat, o: Choice, e: nat, x: nat)
    requires u < |s.threads| && s.threads[u].Exit? && Records(s.threads[u], e, x) && e < |s.slots|
    requires s.slots[e].es.state < END && s.slots[e].mutex.None?
    ensures var s' := RunnerStep(s, u, o);
            s'.threads == s.threads[u := Wait(e, s.threads[u].side)] && EndedWith(s', e, x)
  {
  }

  lemma PublishSignals(s: Node, u: nat, o: Choice, e: nat, x: nat)
    requires u < |s.threads| && ThreadOk(s, u) && s.threads[u].Publish? && Records(s.threads[u], e, x)
    requires s.service.Started?
    ensures var s' := EndStep(s, u, o);
            && s'.threads == s.threads[u := Signal(e, s.threads[u].side, x)]
            && s'.slots == s.slots && e < |s.slots| && s.slots[e].es.state < END && s'.self == s.self
  {
  }

  lemma SignalRecords(s: Node, u: nat, o: Choice, e: nat, x: nat)
    requires u < |s.threads| && s.threads[u].Signal? && Records(s.threads[u], e, x) && e < |s.slots|
    requires s.slots[e].es.state < END
    ensures var s' := EndStep(s, u, o);
            s'.threads == s.threads[u := Wait(e, s.threads[u].side)] && EndedWith(s', e, x)
  {
  }

  /** The entry that will hand out `x` hides nothing else. */
  lemma NothingElseFound(s: Node, r: NodeId, x: nat)
    requires Inv(s) && RecordsOk(s) && HandsOut(s, r, x) && !IsLive(s, x)
    ensures GetSession(s, r).None?
  {
    var e := s.establishments[r];
    var slot := s.slots[e];
    assert EntryOk(s, e);
    if slot.mutex.Some? && slot.mutex.value < |s.threads| { assert ThreadOk(s, slot.mutex.value); }
    if slot.dialer.Some? && slot.dialer.value < |s.threads| { assert ExitOk(s, slot.dialer.value); }
  }

  lemma IsHandedOut(s: Node, t: nat, r: NodeId, x: nat) returns (labels: seq<Label>)
    requires Inv(s) && RecordsOk(s) && t < |s.threads| && s.threads[t] == CheckSession(r)
    requires HandsOut(s, r, x) && !IsLive(s, x)
    ensures var s' := Run(s, labels); t < |s'.threads| && s'.threads[t] == Returned(Some(x), None)
  {
    var e := s.establishments[r];
    NothingElseFound(s, r, x);
    var l1, s1 := CallFetches(s, t, r);
    NodeInvariant.RunInv(s, l1);
    var l2, s2 := [], s1;
    if !EndedWith(s, e, x) {
      var u := RecorderOf(s, r, x);
      l2, s2 := RecorderRecords(s1, u, e, x);
    }
    NodeInvariant.RunInv(s1, l2);
    assert SlotOk(s2, e);
    var l3, s3 := CallReturns(s2, t, e, x);
    RunConcat(s, l1, l2);
    RunConcat(s, l1 + l2, l3);
    labels := l1 + l2 + l3;
  }

  lemma RecorderOf(s: Node, r: NodeId, x: nat) returns (u: nat)
    requires HandsOut(s, r, x) && !EndedWith(s, s.establishments[r], x)
    ensures u < |s.threads| && Records(s.threads[u], s.establishments[r], x) && !s.threads[u].Signal?
  {
    var e := s.establishments[r];
    var slot := s.slots[e];
    if slot.mutex.Some? && slot.mutex.value < |s.threads|
       && s.threads[slot.mutex.value].Publish? && Records(s.threads[slot.mutex.value], e, x) {
      u := slot.mutex.value;
    } else {
      u := slot.dialer.value;
    }
  }

  lemma ReachableRecords(self: NodeId, labels: seq<Label>)
    ensures Inv(Run(Initial(self), labels)) && RecordsOk(Run(Initial(self), labels))
    ensures Run(Initial(self), labels).self == self
  {
    InitialInv(self);
    RunRecords(Initial(self), labels);
    SelfIsFixed(Initial(self), labels);
  }

  /** "`Connect` never returns a session that was closed before it was called" fails for exactly one family: some
      continuation of a call for `r` returns the closed session `x` if and only if the service runs and, as the call
      begins, the entry for `r` hands `x` out. */
  lemma ClosedSessionReturnedExactlyWhen(self: NodeId, before: seq<Label>, r: NodeId, x: nat)
    requires r != self
    ensures var s := Run(Initial(self), before);
            x < |s.built| && !IsLive(s, x) ==>
              (HandsOut(s, r, x) <==>
               exists after: seq<Label> ::
                 var s' := Run(Step(s, CallConnect(r)), after);
                 && |s.threads| < |s'.threads| && s'.threads[|s.threads|].Returned?
                 && s'.threads[|s.threads|].session == Some(x))
  {
    ReachableRecords(self, before);
    var s := Run(Initial(self), before);
    if x < |s.built| && !IsLive(s, x) {
      var s1, t := Step(s, CallConnect(r)), |s.threads|;
      StepInv(s, CallConnect(r));
      StepRecords(s, CallConnect(r));
      if HandsOut(s, r, x) {
        assert HandsOut(s1, r, x) && !IsLive(s1, x);
        var after := IsHandedOut(s1, t, r, x);
        assert Run(s1, after).threads[t].session == Some(x);
      } else {
        assert WillNotReturn(s1, t, r, x);
        forall after: seq<Label>
          ensures var s' := Run(s1, after); !(t < |s'.threads| && s'.threads[t].Returned? &&
                                              s'.threads[t].session == Some(x))
        {
          RunWillNot(s1, after, t, r, x);
        }
      }
    }
  }

  // ---------- What a stale entry answers ----------

  /** Where a call for the remote of the stale entry `e` can stand. */
  predicate Answered(s: Node, t: nat, e: nat, x: nat) {
    && t < |s.threads| && Stale(s, e) && s.slots[e].es.session == Some(x)
    && s.threads[t] in {CheckSession(s.slots[e].remote), FetchActive(s.slots[e].remote), StartActive(e),
                        Wait(e, Active),
                        Returned(Some(x), None), Returned(None, Some(ServiceClosed))}
  }

  lemma AnswerStep(s: Node, t: nat, o: Choice, e: nat, x: nat)
    requires Inv(s) && RecordsOk(s) && Answered(s, t, e, x)
    ensures t < |ThreadStep(s, t, o).threads|
    ensures ThreadStep(s, t, o).threads[t] in
              {CheckSession(s.slots[e].remote), FetchActive(s.slots[e].remote), StartActive(e), Wait(e, Active),
               Returned(Some(x), None), Returned(None, Some(ServiceClosed))}
  {
    assert EntryOk(s, e) && SlotOk(s, e);
  }

  lemma {:induction false} RunAnswers(s: Node, labels: seq<Label>, t: nat, e: nat, x: nat)
    requires Inv(s) && RecordsOk(s) && Answered(s, t, e, x)
    ensures Answered(Run(s, labels), t, e, x)
    decreases |labels|
  {
    if labels != [] {
      var a := labels[0];
      StepInv(s, a);
      StepRecords(s, a);
      StaleStep(s, a, e);
      if !a.Thread? { OthersMoveNobody(s, a, t); }
      else if a.t == t { AnswerStep(s, t, a.choice, e, x); }
      else if a.t < |s.threads| { ThreadStepEffect(s, a.t, a.choice); }
      RunAnswers(Step(s, a), labels[1..], t, e, x);
    }
  }

  /** From the moment an early exit has left its entry behind, every call of `Connect` for that remote answers with
      the session recorded then, live or not, or, once the service has been closed, with ServiceClosed. */
  lemma StaleEntryAnswers(self: NodeId, before: seq<Label>, e: nat, after: seq<Label>)
    ensures var s := Run(Initial(self), before);
            Stale(s, e) && s.slots[e].remote != self ==>
              && s.slots[e].es.session.Some?
              && var s', t := Run(Step(s, CallConnect(s.slots[e].remote)), after), |s.threads|;
                 && t < |s'.threads|
                 && (s'.threads[t].Returned? ==>
                       s'.threads[t] == Returned(s.slots[e].es.session, None)
                       || s'.threads[t] == Returned(None, Some(ServiceClosed)))
  {
    ReachableRecords(self, before);
    var s := Run(Initial(self), before);
    if Stale(s, e) && s.slots[e].remote != self {
      assert EntryOk(s, e);
      var a := CallConnect(s.slots[e].remote);
      StepInv(s, a);
      StepRecords(s, a);
      RunAnswers(Step(s, a), after, |s.threads|, e, s.slots[e].es.session.value);
    }
  }
}
