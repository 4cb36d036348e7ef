/** Where the goroutines of a node come to: each of them finishes, in a bounded number of steps. */
module NodeRest {
  import opened Wrappers
  import opened NodeIds
  import opened Establish
  import opened NodeModel
  import opened NodeInvariant
  import opened NodeTheorems

  predicate IsFinished(pc: Pc) {
    pc.Returned? || pc.Served?
  }

  /** No goroutine can take a step. */
  ghost predicate AtRest(s: Node) {
    forall t: nat :: t < |s.threads| ==> !CanMove(s, t)
  }

  lemma Moves(s: Node, t: nat, o: Choice)
    requires t < |s.threads| && ThreadStep(s, t, o).threads != s.threads
    ensures CanMove(s, t)
  {
    assert Step(s, Thread(t, o)) != s;
  }

  lemma LookupMoves(s: Node, t: nat, o: Choice)
    requires t < |s.threads| && EsOf(s.threads[t]).None? && !IsFinished(s.threads[t])
    ensures ThreadStep(s, t, o).threads != s.threads
  {
    var _, _, _ := LookupShape(s, t, o);
    LookupLeaves(s, t, o);
  }

  lemma LookupLeaves(s: Node, t: nat, o: Choice)
    requires t < |s.threads| && EsOf(s.threads[t]).None? && !IsFinished(s.threads[t])
    ensures t < |LookupStep(s, t, o).threads| && LookupStep(s, t, o).threads[t] != s.threads[t]
  {
    LookupDescends(s, t, o);
  }

  lemma StartMoves(s: Node, t: nat, o: Choice)
    requires t < |s.threads| && ThreadOk(s, t) && (s.threads[t].StartActive? || s.threads[t].StartPassive?)
    requires s.threads[t].e < |s.slots| && s.slots[s.threads[t].e].mutex.None?
    ensures RunnerStep(s, t, o).threads != s.threads
  {
    assert RunnerStep(s, t, o).threads[t] != s.threads[t];
  }

  lemma WaiterMoves(s: Node, t: nat, o: Choice)
    requires t < |s.threads| && s.threads[t].Wait? && s.threads[t].e < |s.slots|
    requires s.slots[s.threads[t].e].es.IsEnd()
    ensures EndStep(s, t, o).threads != s.threads
  {
    assert EndStep(s, t, o).threads[t] != s.threads[t];
  }

  /** A goroutine kept from going on by a session's write lock: it waits for that lock, or for the establishment whose
      mutex its holder keeps meanwhile. */
  predicate KeptWaiting(s: Node, t: nat)
    requires t < |s.threads|
  {
    EsOf(s.threads[t]).Some? && HeldUp(s, EsOf(s.threads[t]).value)
  }

  /** Somebody can move as long as somebody has neither finished nor is kept waiting so: the goroutine itself, or
      whoever holds the mutex or runs a direction of its establishment. */
  lemma SomebodyMoves(s: Node, t: nat)
    requires Inv(s) && t < |s.threads| && !IsFinished(s.threads[t]) && !KeptWaiting(s, t)
    ensures exists u: nat :: u < |s.threads| && CanMove(s, u)
  {
    var pc := s.threads[t];
    var o := Choice(true, 0, CoreStart, s.self);
    assert ThreadOk(s, t);
    if EsOf(pc).None? {
      LookupMoves(s, t, o);
      Moves(s, t, o);
    } else {
      WorkerOrHolderMoves(s, t, o, pc.e);
    }
  }

  lemma WorkerOrHolderMoves(s: Node, t: nat, o: Choice, e: nat)
    requires Inv(s) && t < |s.threads| && EsOf(s.threads[t]) == Some(e) && e < |s.slots| && !HeldUp(s, e)
    ensures exists u: nat :: u < |s.threads| && CanMove(s, u)
  {
    var pc := s.threads[t];
    assert ThreadOk(s, t) && SlotOk(s, e);
    if pc.Wait? && !s.slots[e].es.IsEnd() {
      SomebodyWorks(s, e);
    } else if pc.Wait? {
      WaiterMoves(s, t, o);
      Moves(s, t, o);
    } else if s.slots[e].mutex.Some? {
      var u := s.slots[e].mutex.value;
      assert ThreadOk(s, u);
      EnderMoves(s, u, o);
      Moves(s, u, o);
    } else {
      if pc.StartActive? || pc.StartPassive? { StartMoves(s, t, o); } else { WorkerMoves(s, t, o, e); }
      Moves(s, t, o);
    }
  }

  // ---------- How long it takes ----------

  /** The statements still ahead of all goroutines together. */
  function Ahead(threads: seq<Pc>): nat {
    if threads == [] then 0 else Ahead(threads[..|threads| - 1]) + Rank(threads[|threads| - 1])
  }

  lemma {:induction false} AheadFalls(threads: seq<Pc>, t: nat, pc: Pc)
    requires t < |threads| && Rank(pc) < Rank(threads[t])
    ensures Ahead(threads[t := pc]) < Ahead(threads)
  {
    var n := |threads| - 1;
    if t < n {
      AheadFalls(threads[..n], t, pc);
      assert threads[t := pc][..n] == threads[..n][t := pc];
    } else {
      assert threads[t := pc][..n] == threads[..n];
    }
  }

  lemma {:induction false} AheadIsBounded(threads: seq<Pc>)
    ensures Ahead(threads) <= 31 * |threads|
  {
    if threads != [] { AheadIsBounded(threads[..|threads| - 1]); }
  }

  /** Steps of goroutines, each of which changes something. */
  predicate Work(s: Node, labels: seq<Label>)
    decreases |labels|
  {
    labels != [] ==> labels[0].Thread? && Step(s, labels[0]) != s && Work(Step(s, labels[0]), labels[1..])
  }

  lemma WorkStep(s: Node, a: Label)
    requires a.Thread? && Step(s, a) != s
    ensures Ahead(Step(s, a).threads) < Ahead(s.threads) && |Step(s, a).threads| == |s.threads|
  {
    ThreadStepEffect(s, a.t, a.choice);
    AheadFalls(s.threads, a.t, Step(s, a).threads[a.t]);
  }

  lemma {:induction false} WorkIsShort(s: Node, labels: seq<Label>)
    requires Inv(s) && Work(s, labels)
    ensures |labels| + Ahead(Run(s, labels).threads) <= Ahead(s.threads)
    ensures Inv(Run(s, labels)) && |Run(s, labels).threads| == |s.threads|
    decreases |labels|
  {
    if labels != [] {
      WorkStep(s, labels[0]);
      StepInv(s, labels[0]);
      WorkIsShort(Step(s, labels[0]), labels[1..]);
    }
  }

  lemma {:induction false} RestIsReached(s: Node) returns (labels: seq<Label>)
    requires Inv(s)
    ensures Work(s, labels) && AtRest(Run(s, labels))
    decreases Ahead(s.threads)
  {
    if AtRest(s) { return []; }
    var t: nat :| t < |s.threads| && CanMove(s, t);
    var o: Choice :| Step(s, Thread(t, o)) != s;
    var a := Thread(t, o);
    WorkStep(s, a);
    StepInv(s, a);
    var rest := RestIsReached(Step(s, a));
    labels := [a] + rest;
    assert labels[1..] == rest;
  }

  /** How often goroutine `t` moves in a run in which anything else may happen too. */
  function OwnSteps(s: Node, labels: seq<Label>, t: nat): nat
    decreases |labels|
  {
    if labels == [] then 0
    else
      var own := labels[0].Thread? && labels[0].t == t && Step(s, labels[0]) != s;
      OwnSteps(Step(s, labels[0]), labels[1..], t) + if own then 1 else 0
  }

  /** At most 31 times, whatever the others do, and however many more of them there come to be. */
  lemma {:induction false} OwnStepsAreFew(s: Node, labels: seq<Label>, t: nat)
    requires t < |s.threads|
    ensures t < |Run(s, labels).threads|
    ensures OwnSteps(s, labels, t) + Rank(Run(s, labels).threads[t]) <= Rank(s.threads[t]) <= 31
    decreases |labels|
  {
    if labels != [] {
      var a := labels[0];
      if !a.Thread? { OthersMoveNobody(s, a, t); }
      else if a.t < |s.threads| { ThreadStepEffect(s, a.t, a.choice); }
      OwnStepsAreFew(Step(s, a), labels[1..], t);
    }
  }

  /** Who is left behind: whatever has happened, once no goroutine can move, those calls of `Connect` have not returned,
      and those incoming connections have not been served, that a session's write lock keeps waiting; no others. */
  lemma NobodyElseIsLeftBehind(self: NodeId, labels: seq<Label>, t: nat)
    ensures var s := Run(Initial(self), labels);
            AtRest(s) && t < |s.threads| ==> (!IsFinished(s.threads[t]) <==> KeptWaiting(s, t))
  {
    Reachable(self, labels);
    RestIsExact(Run(Initial(self), labels), t);
  }

  lemma RestIsExact(s: Node, t: nat)
    requires Inv(s)
    ensures AtRest(s) && t < |s.threads| ==> (!IsFinished(s.threads[t]) <==> KeptWaiting(s, t))
  {
    if t < |s.threads| && !IsFinished(s.threads[t]) && !KeptWaiting(s, t) { SomebodyMoves(s, t); }
  }

  /** Every call finishes that no write lock keeps waiting: from any reachable state the goroutines there are take at
      most 31 steps each, in whatever order, and can come to rest; and when they do, all the others have finished. */
  lemma EveryCallFinishes(self: NodeId, before: seq<Label>, work: seq<Label>, t: nat)
    ensures var s := Run(Initial(self), before);
            Work(s, work) ==>
              && |work| <= 31 * |s.threads|
              && (AtRest(Run(s, work)) && t < |Run(s, work).threads| ==>
                    (!IsFinished(Run(s, work).threads[t]) <==> KeptWaiting(Run(s, work), t)))
    ensures exists work': seq<Label> ::
              Work(Run(Initial(self), before), work') && AtRest(Run(Run(Initial(self), before), work'))
  {
    Reachable(self, before);
    var s := Run(Initial(self), before);
    var _ := RestIsReached(s);
    if Work(s, work) {
      WorkIsShort(s, work);
      AheadIsBounded(s.threads);
      RestIsExact(Run(s, work), t);
    }
  }

  // ---------- Closing the service ----------

  /** The statements `Close` still has ahead of it: three for every session it will come to, and the last. */
  function CloserRank(s: Node): nat {
    match s.closer
    case Idle => 0
    case Ranging(_) => 3 * |s.sessions.Keys| + 1
    case Closing(r, _, _) => 3 * |s.sessions.Keys - {r}| + 3
    case Deleting(r, _, _) => 3 * |s.sessions.Keys - {r}| + 2
    case Done => 0
  }

  predicate IsClosers(a: Label) {
    a.RangeNext? || a.RangeClose? || a.RangeDelete? || a.RangeEnd?
  }

  lemma SmallerIsFewer(a: set<NodeId>, b: set<NodeId>)
    requires a <= b
    ensures |a| <= |b|
  {
    assert b == a + (b - a);
  }

  lemma RunnerPlain(s: Node, t: nat, o: Choice)
    requires Inv(s) && t < |s.threads| && IsRunning(s.threads[t])
    ensures var s', e := RunnerStep(s, t, o), s.threads[t].e;
            e < |s.slots| && (s' == s || Plain(s, s', t, e))
  {
    assert ThreadOk(s, t);
    assert SlotOk(s, s.threads[t].e);
    RunnerStepLocal(s, t, o);
  }

  lemma ThreadAddsNone(s: Node, t: nat, o: Choice)
    requires Inv(s) && t < |s.threads| && !s.service.Started?
    ensures var s' := ThreadStep(s, t, o); s'.sessions == s.sessions && s'.closer == s.closer
  {
    if IsRunning(s.threads[t]) {
      RunnerPlain(s, t, o);
    } else if IsEnding(s.threads[t]) || s.threads[t].Wait? {
      EnderAddsNone(s, t, o);
    } else {
      var _, _, _ := LookupShape(s, t, o);
    }
  }

  lemma EnderAddsNone(s: Node, t: nat, o: Choice)
    requires t < |s.threads| && !s.service.Started?
    ensures var s' := EndStep(s, t, o); s'.sessions == s.sessions && s'.closer == s.closer
  {
  }

  lemma CloseStepAddsNone(s: Node, a: Label)
    ensures CloseStep(s, a).closer == s.closer && CloseStep(s, a).sessions.Keys <= s.sessions.Keys
  {
  }

  lemma NobodyAdds(s: Node, a: Label)
    requires Inv(s) && s.service.Closed? && !IsClosers(a)
    ensures Step(s, a).closer == s.closer && Step(s, a).sessions.Keys <= s.sessions.Keys
  {
    match a {
      case Thread(t, o) => if t < |s.threads| { ThreadAddsNone(s, t, o); }
      case CloseSession(_) => CloseStepAddsNone(s, a);
      case CloseCore(_) => CloseStepAddsNone(s, a);
      case Unpublish(_) => CloseStepAddsNone(s, a);
      case LockToClose(_) => HandlerStepBackground(s, a);
      case LetGo(_) => HandlerStepBackground(s, a);
      case CloseLocked(_) => HandlerStepBackground(s, a);
      case _ =>
    }
  }

  lemma FewerRank(s: Node, s': Node)
    requires s'.closer == s.closer && s'.sessions.Keys <= s.sessions.Keys
    ensures CloserRank(s') <= CloserRank(s)
  {
    if s.closer.Closing? || s.closer.Deleting? {
      SmallerIsFewer(s'.sessions.Keys - {s.closer.remote}, s.sessions.Keys - {s.closer.remote});
    } else {
      SmallerIsFewer(s'.sessions.Keys, s.sessions.Keys);
    }
  }

  /** While the service closes, nobody gives `Close` more to do. */
  lemma OthersAddNone(s: Node, a: Label)
    requires Inv(s) && s.service.Closed? && !IsClosers(a)
    ensures CloserRank(Step(s, a)) <= CloserRank(s)
  {
    NobodyAdds(s, a);
    FewerRank(s, Step(s, a));
  }

  lemma NextDescends(s: Node, r: NodeId)
    requires ShutdownStep(s, RangeNext(r)) != s
    ensures CloserRank(ShutdownStep(s, RangeNext(r))) < CloserRank(s)
  {
    assert |s.sessions.Keys| == |s.sessions.Keys - {r}| + 1;
  }

  lemma RangeCloseDescends(s: Node)
    requires ShutdownStep(s, RangeClose) != s
    ensures CloserRank(ShutdownStep(s, RangeClose)) < CloserRank(s)
  {
    var s' := ShutdownStep(s, RangeClose);
    assert s'.sessions == s.sessions && s'.closer.Deleting? && s'.closer.remote == s.closer.remote;
  }

  lemma DeleteDescends(s: Node, s': Node)
    requires s.closer.Deleting? && s'.closer.Ranging?
    requires s'.sessions.Keys == s.sessions.Keys - {s.closer.remote}
    ensures CloserRank(s') < CloserRank(s)
  {
  }

  lemma DeleteLeaves(s: Node)
    requires CloserOk(s) && s.closer.Deleting?
    ensures var s' := ShutdownStep(s, RangeDelete);
            s'.closer.Ranging? && s'.sessions.Keys == s.sessions.Keys - {s.closer.remote}
  {
    var r, sid := s.closer.remote, s.closer.sid;
    assert r in s.sessions ==> s.sessions[r] == sid;
    assert CompareAndDelete(s.sessions, r, sid).Keys == s.sessions.Keys - {r};
  }

  lemma CloserDescends(s: Node, a: Label)
    requires CloserOk(s) && IsClosers(a) && ShutdownStep(s, a) != s
    ensures CloserRank(ShutdownStep(s, a)) < CloserRank(s)
  {
    if a.RangeNext? {
      NextDescends(s, a.remote);
    } else if a.RangeClose? {
      RangeCloseDescends(s);
    } else if a.RangeDelete? {
      DeleteLeaves(s);
      DeleteDescends(s, ShutdownStep(s, a));
    }
  }

  lemma CloserMoves(s: Node)
    requires Inv(s) && s.service.Closed? && !s.closer.Done?
    ensures exists a: Label :: IsClosers(a) && Step(s, a) != s
  {
    var a := if s.closer.Closing? then RangeClose
             else if s.closer.Deleting? then RangeDelete
             else if s.sessions == map[] then RangeEnd
             else var r :| r in s.sessions; RangeNext(r);
    assert Step(s, a) != s;
  }

  /** How often `Close` moves in a run in which anything else may happen too. */
  function ClosersSteps(s: Node, labels: seq<Label>): nat
    decreases |labels|
  {
    if labels == [] then 0
    else
      var own := IsClosers(labels[0]) && Step(s, labels[0]) != s;
      ClosersSteps(Step(s, labels[0]), labels[1..]) + if own then 1 else 0
  }

  lemma {:induction false} ClosersStepsAreFew(s: Node, labels: seq<Label>)
    requires Inv(s) && s.service.Closed?
    ensures ClosersSteps(s, labels) + CloserRank(Run(s, labels)) <= CloserRank(s)
    ensures Inv(Run(s, labels)) && Run(s, labels).service.Closed?
    decreases |labels|
  {
    if labels != [] {
      var a := labels[0];
      StepInv(s, a);
      ServiceStaysClosed(s, a);
      if !IsClosers(a) { OthersAddNone(s, a); } else if Step(s, a) != s { CloserDescends(s, a); }
      ClosersStepsAreFew(Step(s, a), labels[1..]);
    }
  }

  lemma ClosingReturns(s: Node, labels: seq<Label>)
    requires Inv(s) && s.closer.Ranging?
    ensures ClosersSteps(s, labels) <= 3 * |s.sessions| + 1
    ensures var s' := Run(s, labels); s'.closer.Done? <==> forall a: Label :: IsClosers(a) ==> Step(s', a) == s'
  {
    ClosersStepsAreFew(s, labels);
    if !Run(s, labels).closer.Done? { CloserMoves(Run(s, labels)); }
    assert |s.sessions.Keys| == |s.sessions|;
  }

  /** `Close` returns, whatever the others do meanwhile: it takes at most three steps for each session filed as it
      begins and one more, none of which can be kept from it, and it is done where it has none left. */
  lemma CloseReturns(self: NodeId, before: seq<Label>, after: seq<Label>)
    ensures var s := Run(Initial(self), before);
            s.service.Started? ==>
              var s1 := Step(s, CloseService);
              var s' := Run(s1, after);
              && ClosersSteps(s1, after) <= 3 * |s.sessions| + 1
              && (s'.closer.Done? <==> forall a: Label :: IsClosers(a) ==> Step(s', a) == s')
  {
    Reachable(self, before);
    var s := Run(Initial(self), before);
    if s.service.Started? {
      StepInv(s, CloseService);
      ClosingReturns(Step(s, CloseService), after);
    }
  }
}
