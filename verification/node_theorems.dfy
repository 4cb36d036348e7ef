/** What holds of a node over every run: any number of establishments with any number of remotes, failures,
    closes and stale calls included. */
module NodeTheorems {
  import opened Wrappers
  import opened NodeIds
  import opened Establish
  import opened NodeModel
  import opened NodeInvariant

  predicate IsLive(s: Node, sid: nat) {
    sid < |s.built| && s.built[sid].phase.Live?
  }

  lemma Reachable(self: NodeId, labels: seq<Label>)
    ensures Inv(Run(Initial(self), labels))
  {
    InitialInv(self);
    RunInv(Initial(self), labels);
  }

  // ---------- What a goroutine's step can change ----------

  /** How many more statements a goroutine can execute. */
  function Rank(pc: Pc): nat {
    match pc
    case ReadApply(_) => 31
    case CheckSession(_) => 31
    case FetchActive(_) => 30
    case FetchPassive(_, _, _) => 30
    case StartActive(_) => 29
    case StartPassive(_, _, _) => 29
    case Guard(_, _, _) => 28
    case Dialing(_) => 27
    case Handshaking(_, _) => 26
    case Io(_, _, g) => IoRank(g)
    case AboutToSucceed(_, _) => 23
    case Exit(_, _, _) => 20
    case Succeeding(_, _, _) => 20
    case Failing(_, _, _, _) => 19
    case CreateSession(_, _, _, _) => 15
    case LockSession(_, _, _) => 14
    case Publish(_, _, _) => 13
    case Abort(_, _, _) => 12
    case Signal(_, _, _) => 11
    case GiveUp(_, _, _) => 11
    case Forget(_, _) => 10
    case Wait(_, _) => 2
    case Recheck(_, _) => 1
    case Returned(_, _) => 0
    case Served => 0
  }

  function IoRank(g: Stage): nat {
    match g
    case SendApply => 25
    case AwaitResponse => 24
    case SendCompleted => 22
    case AwaitAck => 21
    case SendAccepted => 27
    case AwaitReply => 26
    case SendAck => 25
  }

  predicate SameEnd(a: Est, b: Est) {
    b.state == a.state && b.session == a.session && b.err == a.err && b.signals == a.signals
  }

  predicate EndsKept(s: Node, s': Node) {
    && |s.slots| <= |s'.slots|
    && forall e: nat :: e < |s.slots| ==>
         && s'.slots[e].remote == s.slots[e].remote
         && (s.slots[e].es.IsEnd() ==> SameEnd(s.slots[e].es, s'.slots[e].es))
  }

  /** Goroutine `t` moves strictly down, or nothing happens; ends stay as recorded. */
  predicate Descends(s: Node, s': Node, t: nat)
    requires t < |s.threads|
  {
    && |s'.threads| == |s.threads| && s'.threads == s.threads[t := s'.threads[t]]
    && (s' == s || Rank(s'.threads[t]) < Rank(s.threads[t]))
    && s'.service == s.service && s'.self == s.self
    && EndsKept(s, s')
  }

  predicate RunnerEffect(s: Node, s': Node, t: nat)
    requires t < |s.threads|
  {
    Descends(s, s', t) && s'.built == s.built
  }

  lemma ConcludeEffect(s: Node, t: nat, e: nat, side: Side, d: Decision)
    requires t < |s.threads| && e < |s.slots|
    ensures var s' := Conclude(s, t, e, side, d);
            && |s'.threads| == |s.threads| && s'.threads == s.threads[t := s'.threads[t]] && Rank(s'.threads[t]) <= 15
            && s'.service == s.service && s'.self == s.self && s'.built == s.built && EndsKept(s, s')
  {
  }

  lemma MaybeEndEffect(s: Node, t: nat, e: nat, side: Side)
    requires t < |s.threads| && e < |s.slots|
    ensures var s' := MaybeEnd(s, t, e, side);
            && |s'.threads| == |s.threads| && s'.threads == s.threads[t := s'.threads[t]] && Rank(s'.threads[t]) <= 15
            && s'.service == s.service && s'.self == s.self && s'.built == s.built && EndsKept(s, s')
  {
    ConcludeEffect(s, t, e, side, s.slots[e].es.Decide(Less(s.self, s.slots[e].remote)));
  }

  lemma AfterFinish(s: Node, s1: Node, s': Node, t: nat, e: nat, side: Side)
    requires t < |s.threads| && e < |s1.slots| && Rank(s.threads[t]) > 15
    requires s1.threads == s.threads && s1.service == s.service && s1.self == s.self && s1.built == s.built
    requires EndsKept(s, s1)
    requires s' == MaybeEnd(s1, t, e, side)
    ensures RunnerEffect(s, s', t)
  {
    MaybeEndEffect(s1, t, e, side);
  }

  lemma SucceedingEffect(s: Node, t: nat, o: Choice)
    requires t < |s.threads| && s.threads[t].Succeeding?
    ensures RunnerEffect(s, RunnerStep(s, t, o), t)
  {
    var pc := s.threads[t];
    var s' := RunnerStep(s, t, o);
    if pc.e < |s.slots| && s.slots[pc.e].mutex.None? && s.slots[pc.e].es.Succeed(pc.side, pc.conn).ok {
      var s1 := SetEs(s, pc.e, s.slots[pc.e].es.Succeed(pc.side, pc.conn).es);
      AfterFinish(s, s1, s', t, pc.e, pc.side);
    }
  }

  lemma FailingEffect(s: Node, t: nat, o: Choice)
    requires t < |s.threads| && s.threads[t].Failing?
    ensures RunnerEffect(s, RunnerStep(s, t, o), t)
  {
    var pc := s.threads[t];
    if pc.e < |s.slots| && s.slots[pc.e].mutex.None? {
      var r := s.slots[pc.e].es.Fail(pc.side, pc.err);
      var s1 := CloseConn(SetEs(s, pc.e, r.es), pc.oc);
      FailingIs(s, t, o);
      FailedEnds(s, pc.e, pc.side, pc.err, pc.oc);
      if r.ok { AfterFinish(s, s1, RunnerStep(s, t, o), t, pc.e, pc.side); }
    }
  }

  lemma FailedEnds(s: Node, e: nat, side: Side, err: Error, oc: Option<nat>)
    requires e < |s.slots|
    ensures var s1 := CloseConn(SetEs(s, e, s.slots[e].es.Fail(side, err).es), oc);
            && s1.threads == s.threads && s1.service == s.service && s1.self == s.self && s1.built == s.built
            && |s1.slots| == |s.slots| && EndsKept(s, s1)
  {
  }

  lemma StartEffect(s: Node, t: nat, o: Choice)
    requires t < |s.threads| && (s.threads[t].StartActive? || s.threads[t].StartPassive?)
    ensures RunnerEffect(s, RunnerStep(s, t, o), t)
  {
    if s.threads[t].StartActive? { StartActiveEffect(s, t, o); } else { StartPassiveEffect(s, t, o); }
  }

  lemma StartActiveEffect(s: Node, t: nat, o: Choice)
    requires t < |s.threads| && s.threads[t].StartActive?
    ensures RunnerEffect(s, RunnerStep(s, t, o), t)
  {
  }

  lemma StartPassiveEffect(s: Node, t: nat, o: Choice)
    requires t < |s.threads| && s.threads[t].StartPassive?
    ensures RunnerEffect(s, RunnerStep(s, t, o), t)
  {
  }

  lemma ExitEffect(s: Node, t: nat, o: Choice)
    requires t < |s.threads| && (s.threads[t].Guard? || s.threads[t].Exit? || s.threads[t].Dialing?)
    ensures RunnerEffect(s, RunnerStep(s, t, o), t)
  {
  }

  lemma TalkEffect(s: Node, t: nat, o: Choice)
    requires t < |s.threads| && (s.threads[t].Handshaking? || s.threads[t].Io? || s.threads[t].AboutToSucceed?)
    ensures RunnerEffect(s, RunnerStep(s, t, o), t)
  {
  }

  lemma RunnerStepEffect(s: Node, t: nat, o: Choice)
    requires t < |s.threads| && IsRunning(s.threads[t])
    ensures RunnerEffect(s, RunnerStep(s, t, o), t)
  {
    match s.threads[t] {
      case Succeeding(_, _, _) => SucceedingEffect(s, t, o);
      case Failing(_, _, _, _) => FailingEffect(s, t, o);
      case StartActive(_) => StartEffect(s, t, o);
      case StartPassive(_, _, _) => StartEffect(s, t, o);
      case Guard(_, _, _) => ExitEffect(s, t, o);
      case Exit(_, _, _) => ExitEffect(s, t, o);
      case Dialing(_) => ExitEffect(s, t, o);
      case _ => TalkEffect(s, t, o);
    }
  }

  lemma EndStepEffect(s: Node, t: nat, o: Choice)
    requires t < |s.threads| && (IsEnding(s.threads[t]) || s.threads[t].Wait?)
    ensures Descends(s, EndStep(s, t, o), t)
    ensures s.threads[t].Wait? ==> EndStep(s, t, o).built == s.built
  {
    var pc := s.threads[t];
    if pc.Wait? { WaitEffect(s, t, o); }
    else if pc.GiveUp? || pc.Forget? || pc.Signal? { SignalEffect(s, t, o); }
    else { BuildEffect(s, t, o); }
  }

  lemma WaitEffect(s: Node, t: nat, o: Choice)
    requires t < |s.threads| && s.threads[t].Wait?
    ensures Descends(s, EndStep(s, t, o), t) && EndStep(s, t, o).built == s.built
  {
  }

  lemma SignalEffect(s: Node, t: nat, o: Choice)
    requires t < |s.threads| && (s.threads[t].GiveUp? || s.threads[t].Forget? || s.threads[t].Signal?)
    ensures Descends(s, EndStep(s, t, o), t)
  {
  }

  lemma BuildEffect(s: Node, t: nat, o: Choice)
    requires t < |s.threads|
    requires s.threads[t].CreateSession? || s.threads[t].LockSession? || s.threads[t].Publish? || s.threads[t].Abort?
    ensures Descends(s, EndStep(s, t, o), t)
  {
    if s.threads[t].CreateSession? { CreateEffect(s, t, o); }
  }

  lemma CreateEffect(s: Node, t: nat, o: Choice)
    requires t < |s.threads| && s.threads[t].CreateSession?
    ensures Descends(s, EndStep(s, t, o), t)
  {
  }

  lemma LookupStepEffect(s: Node, t: nat, o: Choice)
    requires t < |s.threads|
    ensures RunnerEffect(s, LookupStep(s, t, o), t)
  {
    var _, _, _ := LookupShape(s, t, o);
    LookupDescends(s, t, o);
  }

  lemma LookupDescends(s: Node, t: nat, o: Choice)
    requires t < |s.threads|
    ensures var s' := LookupStep(s, t, o);
            t < |s'.threads| && (s' == s || Rank(s'.threads[t]) < Rank(s.threads[t]))
  {
    if s.threads[t].ReadApply? || s.threads[t].FetchPassive? { PassiveLookupDescends(s, t, o); }
  }

  lemma PassiveLookupDescends(s: Node, t: nat, o: Choice)
    requires t < |s.threads| && (s.threads[t].ReadApply? || s.threads[t].FetchPassive?)
    ensures var s' := LookupStep(s, t, o);
            t < |s'.threads| && Rank(s'.threads[t]) < Rank(s.threads[t])
  {
  }

  /** A goroutine's own steps lead strictly downwards, so each takes at most 31. */
  lemma ThreadStepEffect(s: Node, t: nat, o: Choice)
    requires t < |s.threads|
    ensures Descends(s, ThreadStep(s, t, o), t)
    ensures !IsEnding(s.threads[t]) ==> ThreadStep(s, t, o).built == s.built
  {
    if IsRunning(s.threads[t]) { RunnerStepEffect(s, t, o); }
    else if IsEnding(s.threads[t]) || s.threads[t].Wait? { EndStepEffect(s, t, o); }
    else { LookupStepEffect(s, t, o); }
  }

  /** Labels that are nobody's step leave every goroutine where it is. */
  lemma OthersMoveNobody(s: Node, a: Label, t: nat)
    requires !a.Thread? && t < |s.threads|
    ensures t < |Step(s, a).threads| && Step(s, a).threads[t] == s.threads[t]
  {
  }

  // ---------- One live session per remote ----------

  /** In every reachable state at most one published session per remote is live, and it is the one the
      session map holds: a close that comes late never evicts a replacement. */
  lemma OneLiveSession(self: NodeId, labels: seq<Label>, x: nat, y: nat)
    ensures var s := Run(Initial(self), labels);
            IsLive(s, x) && s.built[x].published ==>
              && s.built[x].remote in s.sessions && s.sessions[s.built[x].remote] == x
              && (IsLive(s, y) && s.built[y].published && s.built[y].remote == s.built[x].remote ==> x == y)
  {
    Reachable(self, labels);
    var s := Run(Initial(self), labels);
    if IsLive(s, x) && s.built[x].published {
      assert SessionOk(s, x);
      if IsLive(s, y) { assert SessionOk(s, y); }
    }
  }

  predicate Publishes(s: Node, s': Node, sid: nat) {
    sid < |s'.built| && s'.built[sid].published && !(sid < |s.built| && s.built[sid].published)
  }

  /** Only `Publish` publishes, and only what its goroutine has in hand. */
  lemma PublishedBy(s: Node, a: Label, sid: nat)
    requires Publishes(s, Step(s, a), sid)
    ensures a.Thread? && a.t < |s.threads| && s.threads[a.t].Publish? && s.threads[a.t].sid == sid
    ensures s.service.Started? && s.threads[a.t].e < |s.slots| && sid < |s.built|
  {
    match a {
      case Thread(t, o) =>
        if t < |s.threads| && !IsEnding(s.threads[t]) { ThreadStepEffect(s, t, o); }
        if t < |s.threads| && IsEnding(s.threads[t]) && !s.threads[t].Publish? { EnderPublishesNone(s, t, o); }
      case _ =>
    }
  }

  lemma EnderPublishesNone(s: Node, t: nat, o: Choice)
    requires t < |s.threads| && IsEnding(s.threads[t]) && !s.threads[t].Publish?
    ensures var s' := EndStep(s, t, o);
            forall sid: nat :: !Publishes(s, s', sid)
  {
  }

  /** Every session published for a remote has been closed before the next one for it is published. */
  lemma ClosedBeforeNext(self: NodeId, labels: seq<Label>, a: Label, sid: nat, earlier: nat)
    ensures var s := Run(Initial(self), labels);
            Publishes(s, Step(s, a), sid) && sid < |s.built| && earlier < |s.built|
            && s.built[earlier].published && s.built[earlier].remote == s.built[sid].remote ==>
              !IsLive(s, earlier)
  {
    Reachable(self, labels);
    var s := Run(Initial(self), labels);
    if Publishes(s, Step(s, a), sid) {
      PublishedBy(s, a, sid);
      assert ThreadOk(s, a.t);
      if earlier < |s.built| { assert SessionOk(s, earlier); }
    }
  }

  /** Sessions stay for the remote they were built for, published if they are, closed if they are, and locked if their
      lock has been left behind. */
  predicate KeepsRemotes(s: Node, s': Node) {
    && |s.built| <= |s'.built|
    && forall x: nat :: x < |s.built| ==>
         && s'.built[x].remote == s.built[x].remote
         && (s.built[x].published ==> s'.built[x].published)
         && (s'.built[x].phase.Live? ==> s.built[x].phase.Live?)
         && (s.built[x].lock.LeftBehind? ==> s'.built[x].lock.LeftBehind?)
  }

  lemma EndKeepsRemotes(s: Node, t: nat, o: Choice)
    requires t < |s.threads|
    ensures KeepsRemotes(s, EndStep(s, t, o))
  {
    var pc := s.threads[t];
    if pc.CreateSession? || pc.Publish? || pc.Abort? { BuildKeepsRemotes(s, t, o); }
  }

  lemma BuildKeepsRemotes(s: Node, t: nat, o: Choice)
    requires t < |s.threads| && (s.threads[t].CreateSession? || s.threads[t].Publish? || s.threads[t].Abort?)
    ensures KeepsRemotes(s, EndStep(s, t, o))
  {
  }

  lemma OthersKeepRemotes(s: Node, a: Label)
    requires !a.Thread?
    ensures KeepsRemotes(s, Step(s, a))
  {
  }

  lemma RemotesKept(s: Node, a: Label)
    ensures KeepsRemotes(s, Step(s, a))
  {
    if !a.Thread? {
      OthersKeepRemotes(s, a);
    } else if a.t < |s.threads| {
      ThreadStepEffect(s, a.t, a.choice);
      EndKeepsRemotes(s, a.t, a.choice);
    }
  }

  // ---------- Shutdown ----------

  /** Once `Close` has returned, every session ever published is closed. */
  lemma ShutdownIsComplete(self: NodeId, labels: seq<Label>, sid: nat)
    ensures var s := Run(Initial(self), labels);
            s.closer.Done? && sid < |s.built| && s.built[sid].published ==> !IsLive(s, sid)
  {
    Reachable(self, labels);
    var s := Run(Initial(self), labels);
    if sid < |s.built| { assert SessionOk(s, sid); }
  }

  lemma ServiceStaysClosed(s: Node, a: Label)
    requires s.service.Closed?
    ensures Step(s, a).service.Closed?
  {
    match a {
      case Thread(t, o) => if t < |s.threads| { ThreadStepEffect(s, t, o); }
      case _ =>
    }
  }

  /** From the moment `Close` has switched the state, nothing is published any more. */
  lemma {:induction false} NothingPublishedOnceClosed(s: Node, labels: seq<Label>, sid: nat)
    requires s.service.Closed?
    ensures !Publishes(s, Run(s, labels), sid)
    decreases |labels|
  {
    if labels != [] {
      var s1 := Step(s, labels[0]);
      ServiceStaysClosed(s, labels[0]);
      NothingPublishedOnceClosed(s1, labels[1..], sid);
      if Publishes(s, s1, sid) { PublishedBy(s, labels[0], sid); }
    }
  }

  /** A session whose establishment has ended is published or closed: what an establishment in flight
      built and could not publish is closed before its waiters are released. */
  lemma BuiltIsPublishedOrClosed(self: NodeId, labels: seq<Label>, sid: nat)
    ensures var s := Run(Initial(self), labels);
            sid < |s.built| ==>
              && s.built[sid].es < |s.slots|
              && (s.slots[s.built[sid].es].es.IsEnd() ==> s.built[sid].published || !IsLive(s, sid))
  {
    Reachable(self, labels);
    var s := Run(Initial(self), labels);
    if sid < |s.built| {
      assert SessionOk(s, sid);
      var e := s.built[sid].es;
      assert SlotOk(s, e);
    }
  }

  // ---------- Every establishment ends, once ----------

  predicate WorksFor(pc: Pc, e: nat) {
    EsOf(pc) == Some(e) && (RunnerSide(pc).Some? || IsEnding(pc))
  }

  /** A goroutine waiting for the write lock of the session it has built. */
  predicate Blocked(s: Node, t: nat)
    requires t < |s.threads|
  {
    var pc := s.threads[t];
    pc.LockSession? && pc.sid < |s.built| && !s.built[pc.sid].lock.Unlocked?
  }

  /** `e` is held up by such a goroutine, which has its mutex. */
  predicate HeldUp(s: Node, e: nat) {
    && e < |s.slots| && s.slots[e].mutex.Some? && s.slots[e].mutex.value < |s.threads|
    && Blocked(s, s.slots[e].mutex.value)
  }

  /** The last finisher ends it: an establishment that has started and not ended has a goroutine running one of its
      directions or ending it that is not stuck, unless a session's write lock holds it up. */
  lemma LastFinisherEnds(self: NodeId, labels: seq<Label>, e: nat)
    ensures var s := Run(Initial(self), labels);
            e < |s.slots| && s.slots[e].es.state != 0 && !s.slots[e].es.IsEnd() ==>
              ((exists t: nat :: t < |s.threads| && WorksFor(s.threads[t], e) && CanMove(s, t)) <==> !HeldUp(s, e))
  {
    Reachable(self, labels);
    var s := Run(Initial(self), labels);
    if e < |s.slots| && s.slots[e].es.state != 0 && !s.slots[e].es.IsEnd() {
      if HeldUp(s, e) {
        forall t: nat | t < |s.threads| && WorksFor(s.threads[t], e) ensures !CanMove(s, t) {
          HeldUpRests(s, t, e);
        }
      } else {
        SomebodyWorks(s, e);
      }
    }
  }

  lemma SomebodyWorks(s: Node, e: nat)
    requires Inv(s) && e < |s.slots| && s.slots[e].es.state != 0 && !s.slots[e].es.IsEnd() && !HeldUp(s, e)
    ensures exists t: nat :: t < |s.threads| && WorksFor(s.threads[t], e) && CanMove(s, t)
  {
    assert SlotOk(s, e);
    var slot := s.slots[e];
    var t := if slot.mutex.Some? then slot.mutex.value
             else if slot.es.IsEstablishing(Active) then slot.dialer.value
             else slot.acceptor.value;
    assert ThreadOk(s, t);
    var o := Choice(true, 0, CoreStart, s.self);
    WorkerMoves(s, t, o, e);
    assert Step(s, Thread(t, o)) != s;
    assert CanMove(s, t);
  }

  /** Nobody at work on an establishment that is held up, or waiting for it, can move. */
  lemma HeldUpRests(s: Node, t: nat, e: nat)
    requires Inv(s) && HeldUp(s, e) && t < |s.threads| && EsOf(s.threads[t]) == Some(e)
    ensures !CanMove(s, t)
  {
    assert ThreadOk(s, t) && SlotOk(s, e) && ThreadOk(s, s.slots[e].mutex.value);
    forall o: Choice ensures Step(s, Thread(t, o)) == s {
      HeldUpStays(s, t, o, e);
    }
  }

  lemma HeldUpStays(s: Node, t: nat, o: Choice, e: nat)
    requires HeldUp(s, e) && t < |s.threads| && EsOf(s.threads[t]) == Some(e) && ThreadOk(s, t) && SlotOk(s, e)
    requires ThreadOk(s, s.slots[e].mutex.value)
    ensures ThreadStep(s, t, o) == s
  {
    if IsRunning(s.threads[t]) { HeldUpStarter(s, t, o, e); } else { HeldUpEnder(s, t, o, e); }
  }

  lemma HeldUpStarter(s: Node, t: nat, o: Choice, e: nat)
    requires HeldUp(s, e) && t < |s.threads| && EsOf(s.threads[t]) == Some(e) && ThreadOk(s, t) && SlotOk(s, e)
    requires IsRunning(s.threads[t])
    ensures RunnerStep(s, t, o) == s
  {
    assert s.threads[t].StartActive? || s.threads[t].StartPassive?;
  }

  lemma HeldUpEnder(s: Node, t: nat, o: Choice, e: nat)
    requires HeldUp(s, e) && t < |s.threads| && EsOf(s.threads[t]) == Some(e) && ThreadOk(s, t) && SlotOk(s, e)
    requires ThreadOk(s, s.slots[e].mutex.value) && !IsRunning(s.threads[t])
    ensures EndStep(s, t, o) == s
  {
    assert s.threads[t].Wait? || t == s.slots[e].mutex.value;
  }

  ghost predicate CanMove(s: Node, t: nat) {
    exists o: Choice :: Step(s, Thread(t, o)) != s
  }

  lemma WorkerMoves(s: Node, t: nat, o: Choice, e: nat)
    requires t < |s.threads| && ThreadOk(s, t) && WorksFor(s.threads[t], e)
    requires e < |s.slots| && (IsEnding(s.threads[t]) || s.slots[e].mutex.None?) && !Blocked(s, t)
    ensures ThreadStep(s, t, o).threads != s.threads
  {
    if IsEnding(s.threads[t]) { EnderMoves(s, t, o); }
    else if s.threads[t].Succeeding? || s.threads[t].Failing? { FinisherMoves(s, t, o, e); }
    else { RunnerMoves(s, t, o, e); }
  }

  lemma EnderMoves(s: Node, t: nat, o: Choice)
    requires t < |s.threads| && ThreadOk(s, t) && IsEnding(s.threads[t]) && !Blocked(s, t)
    ensures EndStep(s, t, o).threads != s.threads
  {
    assert EndStep(s, t, o).threads[t] != s.threads[t];
  }

  lemma FinisherMoves(s: Node, t: nat, o: Choice, e: nat)
    requires t < |s.threads| && WorksFor(s.threads[t], e) && (s.threads[t].Succeeding? || s.threads[t].Failing?)
    requires e < |s.slots| && s.slots[e].mutex.None?
    ensures RunnerStep(s, t, o).threads != s.threads
  {
    if s.threads[t].Succeeding? { SucceedingMoves(s, t, o, e); } else { FailingMoves(s, t, o, e); }
  }

  lemma SucceedingMoves(s: Node, t: nat, o: Choice, e: nat)
    requires t < |s.threads| && WorksFor(s.threads[t], e) && s.threads[t].Succeeding?
    requires e < |s.slots| && s.slots[e].mutex.None?
    ensures RunnerStep(s, t, o).threads != s.threads
  {
    var pc := s.threads[t];
    MaybeEndEffect(SetEs(s, e, s.slots[e].es.Succeed(pc.side, pc.conn).es), t, e, pc.side);
    assert Rank(RunnerStep(s, t, o).threads[t]) < Rank(pc);
  }

  lemma FailingMoves(s: Node, t: nat, o: Choice, e: nat)
    requires t < |s.threads| && WorksFor(s.threads[t], e) && s.threads[t].Failing?
    requires e < |s.slots| && s.slots[e].mutex.None?
    ensures RunnerStep(s, t, o).threads != s.threads
  {
    var pc := s.threads[t];
    MaybeEndEffect(CloseConn(SetEs(s, e, s.slots[e].es.Fail(pc.side, pc.err).es), pc.oc), t, e, pc.side);
    assert Rank(RunnerStep(s, t, o).threads[t]) < Rank(pc);
  }

  lemma RunnerMoves(s: Node, t: nat, o: Choice, e: nat)
    requires t < |s.threads| && WorksFor(s.threads[t], e) && RunnerSide(s.threads[t]).Some?
    requires !s.threads[t].Succeeding? && !s.threads[t].Failing?
    requires e < |s.slots| && s.slots[e].mutex.None?
    ensures RunnerStep(s, t, o).threads != s.threads
  {
    assert RunnerStep(s, t, o).threads[t] != s.threads[t];
  }

  /** The end channel is closed once, exactly when the state is End; what is recorded then is exactly one of
      a published session for the right remote and an error, never the default arm's. */
  lemma EndIsWellFormed(self: NodeId, labels: seq<Label>, e: nat)
    ensures var s := Run(Initial(self), labels);
            e < |s.slots| ==>
              var es := s.slots[e].es;
              && es.signals == (if es.IsEnd() then 1 else 0)
              && (es.IsEnd() ==> es.session.Some? != es.err.Some?)
              && (es.IsEnd() && es.session.Some? ==> PublishedFor(s, s.slots[e].remote, es.session.value))
              && es.err != Some(UnknownEndStatus)
  {
    Reachable(self, labels);
    var s := Run(Initial(self), labels);
    if e < |s.slots| { assert SlotOk(s, e); }
  }

  lemma EndKeptByStep(s: Node, a: Label)
    ensures EndsKept(s, Step(s, a))
  {
    match a {
      case Thread(t, o) => if t < |s.threads| { ThreadStepEffect(s, t, o); }
      case _ =>
    }
  }

  /** Once recorded, the end never changes: every waiter sees the same session or error. */
  lemma {:induction false} EndIsFinal(s: Node, labels: seq<Label>, e: nat)
    requires e < |s.slots| && s.slots[e].es.IsEnd()
    ensures e < |Run(s, labels).slots| && SameEnd(s.slots[e].es, Run(s, labels).slots[e].es)
    decreases |labels|
  {
    if labels != [] {
      EndKeptByStep(s, labels[0]);
      EndIsFinal(Step(s, labels[0]), labels[1..], e);
    }
  }

  // ---------- The early exits ----------

  /** The dialer found a session already published and ended the establishment on the spot. */
  predicate ExitedEarly(es: Est) {
    es.IsEnd() && es.active.Some? && es.active.value.state == CONNECT
  }

  /** A passive attempt never finds a session it did not find when it looked up its establishment, so its
      "already established" exit, which would leave the connection open, is never taken. */
  lemma PassiveNeverExitsEarly(self: NodeId, labels: seq<Label>, t: nat)
    ensures var s := Run(Initial(self), labels);
            t < |s.threads| && s.threads[t].Exit? ==> s.threads[t].side.Active?
  {
    Reachable(self, labels);
    var s := Run(Initial(self), labels);
    if t < |s.threads| { assert ThreadOk(s, t); }
  }

  /** Whether the transition a goroutine is about to attempt takes place. */
  predicate Takes(s: Node, t: nat)
    requires t < |s.threads|
  {
    match s.threads[t]
    case Handshaking(e, _) => e < |s.slots| && s.slots[e].es.StartActiveHandshake().ok
    case AboutToSucceed(e, _) => e < |s.slots| && s.slots[e].es.AboutSuccess().ok
    case Succeeding(e, side, c) => e < |s.slots| && s.slots[e].es.Succeed(side, c).ok
    case Failing(e, side, _, err) => e < |s.slots| && s.slots[e].es.Fail(side, err).ok
    case _ => true
  }

  /** Once started, a direction is never refused a transition: the early returns after
      `startActiveHandshake`, `activeSuccess` and the others, the first of which would leave the dialed
      connection open, are never taken. */
  lemma NoTransitionIsRefused(self: NodeId, labels: seq<Label>, t: nat)
    ensures var s := Run(Initial(self), labels);
            t < |s.threads| ==> Takes(s, t)
  {
    Reachable(self, labels);
    var s := Run(Initial(self), labels);
    if t < |s.threads| { assert ThreadOk(s, t); }
  }
}
