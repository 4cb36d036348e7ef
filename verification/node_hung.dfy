/** An establishment that a session's write lock holds up: when for ever, and who hangs on it. */
module NodeHung {
  import opened Wrappers
  import opened NodeIds
  import opened Establish
  import opened NodeModel
  import opened NodeInvariant
  import opened NodeTheorems
  import opened NodeConnect
  import opened NodeStaleEntry
  import opened NodeClosedSession
  import opened NodeRest

  /** The lock `e` is held up by has been left behind. */
  predicate HungUp(s: Node, e: nat) {
    HeldUp(s, e) && s.built[s.threads[s.slots[e].mutex.value].sid].lock.LeftBehind?
  }

  /** Goroutines that work for another establishment, or for none, leave `e` as it is. */
  lemma OthersLeaveSlot(s: Node, t: nat, o: Choice, e: nat)
    requires Inv(s) && t < |s.threads| && e < |s.slots| && EsOf(s.threads[t]) != Some(e)
    ensures e < |ThreadStep(s, t, o).slots| && ThreadStep(s, t, o).slots[e] == s.slots[e]
  {
    if IsRunning(s.threads[t]) {
      RunnerPlain(s, t, o);
    } else if EsOf(s.threads[t]).Some? {
      assert ThreadOk(s, t) && SlotOk(s, s.threads[t].e);
      EnderSlots(s, t, o, s.threads[t].e);
    } else {
      var _, _, _ := LookupShape(s, t, o);
    }
  }

  lemma HungStays(s: Node, a: Label, e: nat)
    requires Inv(s) && HungUp(s, e) && a.Thread? && a.t < |s.threads| && EsOf(s.threads[a.t]) == Some(e)
    ensures Step(s, a) == s
  {
    assert ThreadOk(s, a.t) && SlotOk(s, e) && ThreadOk(s, s.slots[e].mutex.value);
    HeldUpStays(s, a.t, a.choice, e);
  }

  /** `s'` makes no difference to `e`, or to those who work for it or wait for it. */
  ghost predicate Leaves(s: Node, s': Node, e: nat)
    requires e < |s.slots|
  {
    && e < |s'.slots| && s'.slots[e] == s.slots[e] && |s.threads| <= |s'.threads|
    && forall t: nat :: t < |s.threads| && EsOf(s.threads[t]) == Some(e) ==> s'.threads[t] == s.threads[t]
  }

  lemma ThreadLeaves(s: Node, t: nat, o: Choice, e: nat)
    requires Inv(s) && HungUp(s, e) && t < |s.threads|
    ensures Leaves(s, ThreadStep(s, t, o), e)
  {
    ThreadStepEffect(s, t, o);
    if EsOf(s.threads[t]) == Some(e) { HungStays(s, Thread(t, o), e); } else { OthersLeaveSlot(s, t, o, e); }
  }

  lemma OtherLeaves(s: Node, a: Label, e: nat)
    requires e < |s.slots| && !a.Thread?
    ensures Leaves(s, Step(s, a), e)
  {
  }

  lemma StillHung(s: Node, s': Node, e: nat)
    requires Inv(s) && HungUp(s, e) && Leaves(s, s', e) && KeepsRemotes(s, s')
    ensures HungUp(s', e)
  {
    assert SlotOk(s, e);
  }

  /** An establishment that hangs goes on hanging. */
  lemma HungStep(s: Node, a: Label, e: nat)
    requires Inv(s) && HungUp(s, e)
    ensures HungUp(Step(s, a), e) && Leaves(s, Step(s, a), e)
  {
    RemotesKept(s, a);
    if !a.Thread? { OtherLeaves(s, a, e); } else if a.t < |s.threads| { ThreadLeaves(s, a.t, a.choice, e); }
    StillHung(s, Step(s, a), e);
  }

  lemma {:induction false} HungRun(s: Node, labels: seq<Label>, e: nat, t: nat)
    requires Inv(s) && HungUp(s, e) && t < |s.threads| && EsOf(s.threads[t]) == Some(e)
    ensures var s' := Run(s, labels);
            && HungUp(s', e) && s'.slots[e] == s.slots[e]
            && t < |s'.threads| && s'.threads[t] == s.threads[t]
    decreases |labels|
  {
    if labels != [] {
      StepInv(s, labels[0]);
      HungStep(s, labels[0], e);
      HungRun(Step(s, labels[0]), labels[1..], e, t);
    }
  }

  /** Once the lock is left behind, whoever works for the establishment or waits for it stays where it is, whatever
      follows. */
  lemma HangsForEver(self: NodeId, before: seq<Label>, after: seq<Label>, e: nat, t: nat)
    ensures var s := Run(Initial(self), before);
            var s' := Run(s, after);
            HungUp(s, e) && t < |s.threads| && EsOf(s.threads[t]) == Some(e) ==>
              HungUp(s', e) && t < |s'.threads| && s'.threads[t] == s.threads[t] && !IsFinished(s'.threads[t])
  {
    Reachable(self, before);
    var s := Run(Initial(self), before);
    if HungUp(s, e) && t < |s.threads| && EsOf(s.threads[t]) == Some(e) { HungRun(s, after, e, t); }
  }

  /** A lock that is only taken can still be let go. */
  lemma HolderLetsGo(s: Node, e: nat)
    requires HeldUp(s, e) && !HungUp(s, e)
    ensures !HeldUp(Run(s, [LetGo(s.threads[s.slots[e].mutex.value].sid)]), e)
  {
    RunOne(s, LetGo(s.threads[s.slots[e].mutex.value].sid));
  }

  /** An establishment that is held up is so for ever, on every continuation, if and only if the lock has been left
      behind. */
  lemma ForEverExactlyWhenLeftBehind(self: NodeId, before: seq<Label>, e: nat)
    ensures var s := Run(Initial(self), before);
            HeldUp(s, e) ==> (HungUp(s, e) <==> forall after: seq<Label> :: HeldUp(Run(s, after), e))
  {
    Reachable(self, before);
    var s := Run(Initial(self), before);
    if HungUp(s, e) {
      assert SlotOk(s, e);
      forall after: seq<Label> ensures HeldUp(Run(s, after), e) { HungRun(s, after, e, s.slots[e].mutex.value); }
    } else if HeldUp(s, e) {
      HolderLetsGo(s, e);
    }
  }

  // ---------- How a lock comes to be left behind ----------

  predicate IsHandlers(a: Label) {
    a.LockToClose? || a.LetGo? || a.CloseLocked?
  }

  /** Nobody but a close request's handler changes a session's lock as the model keeps it. */
  lemma LocksKept(s: Node, a: Label)
    requires !IsHandlers(a)
    ensures |s.built| <= |Step(s, a).built|
    ensures forall sid: nat :: sid < |s.built| ==> Step(s, a).built[sid].lock == s.built[sid].lock
  {
    if a.Thread? && a.t < |s.threads| {
      ThreadStepEffect(s, a.t, a.choice);
      if IsEnding(s.threads[a.t]) { EnderKeepsLocks(s, a.t, a.choice); }
    }
  }

  lemma EnderKeepsLocks(s: Node, t: nat, o: Choice)
    requires t < |s.threads| && IsEnding(s.threads[t])
    ensures |s.built| <= |EndStep(s, t, o).built|
    ensures forall sid: nat :: sid < |s.built| ==> EndStep(s, t, o).built[sid].lock == s.built[sid].lock
  {
  }

  /** The handler of a close request takes the lock of a live session only, leaves it behind exactly if somebody else
      has closed the session meanwhile, and otherwise gives it back, having closed the session or not. */
  lemma LeftBehindExactlyByLosers(s: Node, a: Label, sid: nat)
    requires sid < |s.built|
    ensures var s' := Step(s, a);
            && sid < |s'.built|
            && (s'.built[sid].lock.LeftBehind? && !s.built[sid].lock.LeftBehind? <==>
                a == CloseLocked(sid) && s.built[sid].lock.Taken? && !IsLive(s, sid))
            && (s'.built[sid].lock.Taken? && !s.built[sid].lock.Taken? ==>
                  IsLive(s, sid) && s.built[sid].lock.Unlocked?)
            && (a == CloseLocked(sid) && s.built[sid].lock.Taken? && IsLive(s, sid) ==>
                  s'.built[sid].lock.Unlocked? && !IsLive(s', sid))
            && (a == LetGo(sid) && s.built[sid].lock.Taken? ==>
                  s'.built[sid].lock.Unlocked? && (IsLive(s', sid) <==> IsLive(s, sid)))
  {
    if !IsHandlers(a) { LocksKept(s, a); }
  }

  /** The goroutine publishing a session has its write lock to itself. */
  ghost predicate Exclusive(s: Node) {
    forall sid: nat :: sid < |s.built| && EnderHolds(s, sid) ==> s.built[sid].lock.Unlocked?
  }

  lemma HandlerExcludes(s: Node, a: Label)
    requires Exclusive(s) && IsHandlers(a)
    ensures Exclusive(HandlerStep(s, a))
  {
    var s' := HandlerStep(s, a);
    forall sid: nat | sid < |s'.built| && EnderHolds(s', sid) ensures s'.built[sid].lock.Unlocked? {
      assert EnderHolds(s, sid);
    }
  }

  lemma OtherExcludes(s: Node, a: Label)
    requires Inv(s) && Exclusive(s) && !IsHandlers(a)
    ensures Exclusive(Step(s, a))
  {
    var s' := Step(s, a);
    StepInv(s, a);
    LocksKept(s, a);
    forall sid: nat | sid < |s'.built| && EnderHolds(s', sid) ensures s'.built[sid].lock.Unlocked? {
      var u := s'.slots[s'.built[sid].es].mutex.value;
      if u < |s.threads| && s'.threads[u] == s.threads[u] {
        assert ThreadOk(s, u);
        assert EnderHolds(s, sid);
      } else {
        ComesToPublish(s, a, u);
      }
    }
  }

  lemma ComesToPublish(s: Node, a: Label, u: nat)
    requires Inv(s) && u < |Step(s, a).threads| && Step(s, a).threads[u].Publish?
    requires u < |s.threads| ==> Step(s, a).threads[u] != s.threads[u]
    ensures u < |s.threads| && s.threads[u].LockSession? && s.threads[u].sid == Step(s, a).threads[u].sid
    ensures s.threads[u].sid < |s.built| && s.built[s.threads[u].sid].lock.Unlocked?
  {
    if |s.threads| <= u { NewcomerIsNew(s, a, u); }
    else if !a.Thread? { OthersMoveNobody(s, a, u); }
    else if a.t < |s.threads| {
      ThreadStepEffect(s, a.t, a.choice);
      ThreadReaches(s, a.t, a.choice);
      assert ThreadOk(s, u);
      assert EndStep(s, u, a.choice) == Step(s, a);
    }
  }

  lemma {:induction false} RunExcludes(s: Node, labels: seq<Label>)
    requires Inv(s) && Exclusive(s)
    ensures Exclusive(Run(s, labels))
    decreases |labels|
  {
    if labels != [] {
      StepInv(s, labels[0]);
      if IsHandlers(labels[0]) { HandlerExcludes(s, labels[0]); } else { OtherExcludes(s, labels[0]); }
      RunExcludes(Step(s, labels[0]), labels[1..]);
    }
  }

  /** A session is never published while a close request's handler has its lock. */
  lemma PublishedUnderItsLock(self: NodeId, labels: seq<Label>, t: nat)
    ensures var s := Run(Initial(self), labels);
            t < |s.threads| && s.threads[t].Publish? && s.threads[t].sid < |s.built| ==>
              s.built[s.threads[t].sid].lock.Unlocked?
  {
    Reachable(self, labels);
    RunExcludes(Initial(self), labels);
    var s := Run(Initial(self), labels);
    if t < |s.threads| && s.threads[t].Publish? && s.threads[t].sid < |s.built| {
      assert ThreadOk(s, t);
      assert EnderHolds(s, s.threads[t].sid);
    }
  }

  // ---------- Whoever comes later ----------

  /** Goroutine `t` is a call for `r`, or serves a connection of `r`'s: it is on its way to `e`, or has been turned away
      because the service has closed. */
  predicate HeadsFor(s: Node, t: nat, r: NodeId, e: nat) {
    t < |s.threads| &&
    match s.threads[t]
    case CheckSession(x) => x == r
    case FetchActive(x) => x == r
    case FetchPassive(x, _, _) => x == r
    case StartActive(x) => x == e
    case StartPassive(x, _, _) => x == e
    case Returned(found, err) => found.None? && err == Some(ServiceClosed) && s.service.Closed?
    case Served => s.service.Closed?
    case _ => false
  }

  /** An establishment that hangs is the entry for its remote, and hides no session. */
  lemma HungIsEntry(s: Node, e: nat)
    requires Inv(s) && HungUp(s, e)
    ensures Mapped(s, e) && GetSession(s, s.slots[e].remote).None? && !s.service.Init?
  {
    assert SlotOk(s, e);
    assert ThreadOk(s, s.slots[e].mutex.value);
  }

  lemma LookupHeadsFor(s: Node, t: nat, o: Choice, r: NodeId, e: nat)
    requires HeadsFor(s, t, r, e) && EsOf(s.threads[t]).None? && r != s.self && !s.service.Init?
    requires Mapped(s, e) && s.slots[e].remote == r && GetSession(s, r).None?
    ensures HeadsFor(LookupStep(s, t, o), t, r, e)
  {
  }

  lemma StaysHeading(s: Node, s': Node, t: nat, r: NodeId, e: nat)
    requires HeadsFor(s, t, r, e) && t < |s'.threads| && s'.threads[t] == s.threads[t]
    requires s.service.Closed? ==> s'.service.Closed?
    ensures HeadsFor(s', t, r, e)
  {
  }

  lemma StepHeadsFor(s: Node, a: Label, t: nat, r: NodeId, e: nat)
    requires Inv(s) && HungUp(s, e) && s.slots[e].remote == r && r != s.self && HeadsFor(s, t, r, e)
    ensures HeadsFor(Step(s, a), t, r, e)
  {
    if s.service.Closed? { ServiceStaysClosed(s, a); }
    if !a.Thread? {
      OthersMoveNobody(s, a, t);
      StaysHeading(s, Step(s, a), t, r, e);
    } else if a.t == t {
      HungIsEntry(s, e);
      if EsOf(s.threads[t]).Some? { HungStays(s, a, e); }
      else { LookupHeadsFor(s, t, a.choice, r, e); }
    } else if a.t < |s.threads| {
      ThreadStepEffect(s, a.t, a.choice);
      StaysHeading(s, Step(s, a), t, r, e);
    }
  }

  lemma {:induction false} RunHeadsFor(s: Node, labels: seq<Label>, t: nat, r: NodeId, e: nat)
    requires Inv(s) && HungUp(s, e) && s.slots[e].remote == r && r != s.self && HeadsFor(s, t, r, e)
    ensures HeadsFor(Run(s, labels), t, r, e)
    decreases |labels|
  {
    if labels != [] {
      StepInv(s, labels[0]);
      SelfKept(s, labels[0]);
      HungStep(s, labels[0], e);
      StepHeadsFor(s, labels[0], t, r, e);
      RunHeadsFor(Step(s, labels[0]), labels[1..], t, r, e);
    }
  }

  /** No call for that remote made from then on ever gets a session: it hangs too, or the service closes before it comes
      to the establishment. */
  lemma LaterCallsHang(self: NodeId, before: seq<Label>, r: NodeId, e: nat, after: seq<Label>)
    requires r != self
    ensures var s := Run(Initial(self), before);
            var s', t := Run(Step(s, CallConnect(r)), after), |s.threads|;
            HungUp(s, e) && s.slots[e].remote == r ==>
              && t < |s'.threads|
              && (s'.threads[t].Returned? ==>
                    s'.service.Closed? && s'.threads[t] == Returned(None, Some(ServiceClosed)))
  {
    ReachableRecords(self, before);
    var s := Run(Initial(self), before);
    if HungUp(s, e) && s.slots[e].remote == r {
      var s1 := Step(s, CallConnect(r));
      StepInv(s, CallConnect(r));
      HungStep(s, CallConnect(r), e);
      RunHeadsFor(s1, after, |s.threads|, r, e);
    }
  }

  /** Call 0 holds the establishment's mutex and waits for session 0's lock; call 1 is about to look it up. */
  function Hanging(lock: Lock, phase: Phase): Node {
    Ending(map[PEER := 0], map[], [Session(PEER, 0, true, phase, false, 0, lock)], LockSession(0, Active, 0))
  }

  lemma RequestArrives() returns (labels: seq<Label>, s: Node)
    ensures Run(Initial(ME), labels) == s && s == Hanging(Taken, Phase.Closing)
  {
    labels, s := FirstBuilds();
    labels, s := Take(labels, s, LockToClose(0));
    assert s == Hanging(Taken, Live);
    labels, s := Take(labels, s, CloseSession(0));
    assert s == Hanging(Taken, Phase.Closing);
  }

  lemma CallsHang() returns (labels: seq<Label>, s: Node)
    ensures Run(Initial(ME), labels) == s
    ensures s == Hanging(LeftBehind, Phase.Closing).(threads := [LockSession(0, Active, 0), StartActive(0)])
  {
    labels, s := RequestArrives();
    labels, s := Take(labels, s, CloseLocked(0));
    assert s == Hanging(LeftBehind, Phase.Closing);
    labels, s := Take(labels, s, Go(1));
    assert s.threads == [LockSession(0, Active, 0), StartActive(0)];
  }

  /** In this run, once nobody can move any more, two calls of `Connect` have not returned. */
  lemma CallsMayHang()
    ensures exists labels: seq<Label> ::
              var s := Run(Initial(ME), labels);
              && AtRest(s) && HungUp(s, 0) && |s.threads| == 2
              && !IsFinished(s.threads[0]) && !IsFinished(s.threads[1])
  {
    var labels, s := CallsHang();
    Reachable(ME, labels);
    HeldUpRests(s, 0, 0);
    HeldUpRests(s, 1, 0);
  }
}
