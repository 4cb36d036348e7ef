/** What a call of `Connect` can return, over every run of a node. */
module NodeConnect {
  import opened Wrappers
  import opened NodeIds
  import opened Establish
  import opened NodeModel
  import opened NodeInvariant
  import opened NodeTheorems
  import opened NodeOwnership

  /** Goroutine `t` is a call of `Connect` for `r`, or has returned from one. */
  predicate ConnectsTo(s: Node, t: nat, r: NodeId) {
    t < |s.threads| &&
    var pc := s.threads[t];
    && Role(pc).Active?
    && (pc.CheckSession? || pc.FetchActive? || pc.Recheck? ==> pc.remote == r)
    && (EsOf(pc).Some? ==> EsOf(pc).value < |s.slots| && s.slots[EsOf(pc).value].remote == r)
    && (pc.Returned? && pc.session.Some? ==> PublishedFor(s, r, pc.session.value))
  }

  lemma StaysConnecting(s: Node, s': Node, t: nat, r: NodeId)
    requires ConnectsTo(s, t, r) && t < |s'.threads| && s'.threads[t] == s.threads[t]
    requires EndsKept(s, s') && KeepsRemotes(s, s')
    ensures ConnectsTo(s', t, r)
  {
  }

  lemma LookupConnects(s: Node, t: nat, o: Choice, r: NodeId)
    requires MapsOk(s) && ConnectsTo(s, t, r) && EsOf(s.threads[t]).None?
    ensures ConnectsTo(LookupStep(s, t, o), t, r)
  {
  }

  lemma RunnerConnects(s: Node, t: nat, o: Choice, r: NodeId)
    requires ConnectsTo(s, t, r) && ThreadOk(s, t) && IsRunning(s.threads[t])
    ensures ConnectsTo(RunnerStep(s, t, o), t, r)
  {
    RunnerRole(s, t, o);
    RunnerStepEffect(s, t, o);
  }

  lemma EndConnects(s: Node, t: nat, o: Choice, r: NodeId)
    requires ConnectsTo(s, t, r) && (IsEnding(s.threads[t]) || s.threads[t].Wait?) && SlotOk(s, s.threads[t].e)
    ensures ConnectsTo(EndStep(s, t, o), t, r)
  {
    EndRole(s, t, o);
    EndStepEffect(s, t, o);
    if s.threads[t].Wait? { WaitReturns(s, t, o); } else { EnderStays(s, t, o); }
  }

  lemma EnderStays(s: Node, t: nat, o: Choice)
    requires t < |s.threads| && IsEnding(s.threads[t])
    ensures t < |EndStep(s, t, o).threads| && EsOf(EndStep(s, t, o).threads[t]) == EsOf(s.threads[t])
  {
  }

  lemma WaitReturns(s: Node, t: nat, o: Choice)
    requires t < |s.threads| && s.threads[t].Wait? && s.threads[t].e < |s.slots|
    ensures var s', e := EndStep(s, t, o), s.threads[t].e;
            && t < |s'.threads| && s'.built == s.built
            && var pc := s'.threads[t];
               || s' == s || pc.Served?
               || (pc.Returned? && s.slots[e].es.IsEnd() && pc.session == s.slots[e].es.session)
               || (pc.Recheck? && pc.remote == s.slots[e].remote)
  {
  }

  lemma StepConnects(s: Node, a: Label, t: nat, r: NodeId)
    requires Inv(s) && ConnectsTo(s, t, r)
    ensures ConnectsTo(Step(s, a), t, r)
  {
    RemotesKept(s, a);
    EndKeptByStep(s, a);
    if !a.Thread? {
      OthersMoveNobody(s, a, t);
      StaysConnecting(s, Step(s, a), t, r);
    } else if a.t == t {
      assert ThreadOk(s, t);
      if IsRunning(s.threads[t]) { RunnerConnects(s, t, a.choice, r); }
      else if EsOf(s.threads[t]).Some? { assert SlotOk(s, s.threads[t].e); EndConnects(s, t, a.choice, r); }
      else { LookupConnects(s, t, a.choice, r); }
    } else if a.t < |s.threads| {
      ThreadStepEffect(s, a.t, a.choice);
      StaysConnecting(s, Step(s, a), t, r);
    }
  }

  lemma {:induction false} RunConnects(s: Node, labels: seq<Label>, t: nat, r: NodeId)
    requires Inv(s) && ConnectsTo(s, t, r)
    ensures ConnectsTo(Run(s, labels), t, r) && Inv(Run(s, labels))
    decreases |labels|
  {
    if labels != [] {
      StepInv(s, labels[0]);
      StepConnects(s, labels[0], t, r);
      RunConnects(Step(s, labels[0]), labels[1..], t, r);
    }
  }

  /** A call of `Connect` for `r`, whatever happens before, during and after it, returns a session published for
      `r` or an error. */
  lemma ConnectReturnsItsOwn(self: NodeId, before: seq<Label>, r: NodeId, after: seq<Label>)
    requires r != self
    ensures var s := Run(Initial(self), before);
            var s', t := Run(Step(s, CallConnect(r)), after), |s.threads|;
            && t < |s'.threads| && Role(s'.threads[t]).Active?
            && (s'.threads[t].Returned? ==>
                  if s'.threads[t].session.Some?
                  then PublishedFor(s', r, s'.threads[t].session.value) && s'.threads[t].failure.None?
                  else s'.threads[t].failure.Some?)
  {
    Reachable(self, before);
    SelfIsFixed(Initial(self), before);
    var s := Run(Initial(self), before);
    var t := |s.threads|;
    StepInv(s, CallConnect(r));
    RunConnects(Step(s, CallConnect(r)), after, t, r);
    assert ThreadOk(Run(Step(s, CallConnect(r)), after), t);
  }

  lemma {:induction false} SelfIsFixed(s: Node, labels: seq<Label>)
    ensures Run(s, labels).self == s.self
    decreases |labels|
  {
    if labels != [] {
      SelfKept(s, labels[0]);
      SelfIsFixed(Step(s, labels[0]), labels[1..]);
    }
  }

  lemma SelfKept(s: Node, a: Label)
    ensures Step(s, a).self == s.self
  {
    if a.Thread? && a.t < |s.threads| { ThreadStepEffect(s, a.t, a.choice); }
  }
}
