/** When a session leaves the session map: once it is through with closing, unless it was so when it was published. */
module NodeFiled {
  import opened Wrappers
  import opened NodeIds
  import opened Establish
  import opened NodeModel
  import opened NodeInvariant
  import opened NodeTheorems
  import opened NodeStaleEntry

  predicate IsFiled(s: Node, sid: nat) {
    sid < |s.built| && s.built[sid].remote in s.sessions && s.sessions[s.built[sid].remote] == sid
  }

  predicate IsGone(s: Node, sid: nat) {
    sid < |s.built| && s.built[sid].phase.Gone?
  }

  /** Published, and off the map if through with closing. */
  predicate TidilyPublished(s: Node, sid: nat) {
    sid < |s.built| && s.built[sid].published && (IsGone(s, sid) ==> !IsFiled(s, sid))
  }

  lemma EnderTidies(s: Node, t: nat, o: Choice, sid: nat)
    requires Inv(s) && t < |s.threads| && IsEnding(s.threads[t]) && TidilyPublished(s, sid)
    ensures TidilyPublished(EndStep(s, t, o), sid)
  {
    assert ThreadOk(s, t);
    if s.threads[t].Publish? { PublisherTidies(s, t, o, sid); }
    else if s.threads[t].Abort? { AborterTidies(s, t, o, sid); }
    else { BuilderTidies(s, t, o, sid); }
  }

  lemma PublisherTidies(s: Node, t: nat, o: Choice, sid: nat)
    requires t < |s.threads| && ThreadOk(s, t) && s.threads[t].Publish? && TidilyPublished(s, sid)
    ensures TidilyPublished(EndStep(s, t, o), sid)
  {
    assert s.threads[t].sid != sid;
  }

  lemma AborterTidies(s: Node, t: nat, o: Choice, sid: nat)
    requires t < |s.threads| && ThreadOk(s, t) && s.threads[t].Abort? && TidilyPublished(s, sid)
    ensures TidilyPublished(EndStep(s, t, o), sid)
  {
    assert s.threads[t].sid != sid;
  }

  lemma BuilderTidies(s: Node, t: nat, o: Choice, sid: nat)
    requires t < |s.threads| && IsEnding(s.threads[t]) && !s.threads[t].Publish? && !s.threads[t].Abort?
    requires TidilyPublished(s, sid)
    ensures TidilyPublished(EndStep(s, t, o), sid)
  {
  }

  lemma RunnerSessions(s: Node, t: nat, o: Choice)
    requires Inv(s) && t < |s.threads| && !IsEnding(s.threads[t])
    ensures ThreadStep(s, t, o).sessions == s.sessions && ThreadStep(s, t, o).built == s.built
  {
    assert ThreadOk(s, t);
    ThreadStepEffect(s, t, o);
    if IsRunning(s.threads[t]) {
      assert SlotOk(s, s.threads[t].e);
      RunnerStepLocal(s, t, o);
    } else if s.threads[t].Wait? {
      WaitGoes(s, t, o);
    } else {
      var _, _, _ := LookupShape(s, t, o);
    }
  }

  lemma OtherTidies(s: Node, a: Label, sid: nat)
    requires !a.Thread? && TidilyPublished(s, sid)
    ensures TidilyPublished(Step(s, a), sid)
  {
  }

  lemma StepTidies(s: Node, a: Label, sid: nat)
    requires Inv(s) && TidilyPublished(s, sid)
    ensures TidilyPublished(Step(s, a), sid)
  {
    if !a.Thread? {
      OtherTidies(s, a, sid);
    } else if a.t < |s.threads| {
      assert ThreadOk(s, a.t);
      if IsEnding(s.threads[a.t]) { EnderTidies(s, a.t, a.choice, sid); } else { RunnerSessions(s, a.t, a.choice); }
    }
  }

  lemma {:induction false} RunTidies(s: Node, labels: seq<Label>, sid: nat)
    requires Inv(s) && TidilyPublished(s, sid)
    ensures TidilyPublished(Run(s, labels), sid)
    decreases |labels|
  {
    if labels != [] {
      StepInv(s, labels[0]);
      StepTidies(s, labels[0], sid);
      RunTidies(Step(s, labels[0]), labels[1..], sid);
    }
  }

  lemma PublishFiles(s: Node, t: nat, o: Choice, sid: nat)
    requires Inv(s) && t < |s.threads| && s.threads[t].Publish? && s.threads[t].sid == sid && s.service.Started?
    ensures var s' := ThreadStep(s, t, o);
            && sid < |s.built| && sid < |s'.built| && s'.built[sid] == s.built[sid].(published := true)
            && IsFiled(s', sid)
  {
    assert ThreadOk(s, t);
  }

  lemma FiledAtOnce(s: Node, sid: nat)
    requires IsGone(s, sid) && IsFiled(s, sid)
    ensures exists after: seq<Label> :: IsGone(Run(s, after), sid) && IsFiled(Run(s, after), sid)
  {
    var none: seq<Label> := [];
    assert Run(s, none) == s;
  }

  /** "A session that is through with closing is off the session map" holds, from its publication on, exactly unless
      it was through with closing already as it was published. */
  lemma ClosedIsUnfiledUnless(self: NodeId, before: seq<Label>, a: Label, sid: nat)
    ensures var s := Run(Initial(self), before);
            var s1 := Step(s, a);
            Publishes(s, s1, sid) ==>
              (!IsGone(s, sid) <==>
               forall after: seq<Label> :: IsGone(Run(s1, after), sid) ==> !IsFiled(Run(s1, after), sid))
  {
    Reachable(self, before);
    var s := Run(Initial(self), before);
    var s1 := Step(s, a);
    if Publishes(s, s1, sid) {
      PublishedBy(s, a, sid);
      PublishFiles(s, a.t, a.choice, sid);
      StepInv(s, a);
      if IsGone(s, sid) {
        FiledAtOnce(s1, sid);
        var after: seq<Label> :| IsGone(Run(s1, after), sid) && IsFiled(Run(s1, after), sid);
        assert !(forall after: seq<Label> :: IsGone(Run(s1, after), sid) ==> !IsFiled(Run(s1, after), sid));
      } else {
        forall after: seq<Label> ensures IsGone(Run(s1, after), sid) ==> !IsFiled(Run(s1, after), sid) {
          RunTidies(s1, after, sid);
        }
      }
    }
  }

  lemma EnderKeepsFiled(s: Node, t: nat, o: Choice, sid: nat)
    requires Inv(s) && t < |s.threads| && IsEnding(s.threads[t]) && IsGone(s, sid) && IsFiled(s, sid)
    requires s.threads[t].Publish? && s.threads[t].e < |s.slots| && s.service.Started? ==>
               s.slots[s.threads[t].e].remote != s.built[sid].remote
    ensures IsGone(EndStep(s, t, o), sid) && IsFiled(EndStep(s, t, o), sid)
  {
    assert ThreadOk(s, t);
  }

  lemma OtherKeepsFiled(s: Node, a: Label, sid: nat)
    requires !a.Thread? && !a.RangeDelete? && IsGone(s, sid) && IsFiled(s, sid)
    ensures IsGone(Step(s, a), sid) && IsFiled(Step(s, a), sid)
  {
  }

  /** A session filed so stays on the map through every step but two: another one is published for its remote, or the
      closing service takes it off. */
  lemma DeadStaysFiled(s: Node, a: Label, sid: nat)
    requires Inv(s) && IsGone(s, sid) && IsFiled(s, sid) && !a.RangeDelete?
    requires forall x: nat :: Publishes(s, Step(s, a), x) && x < |s.built| ==> s.built[x].remote != s.built[sid].remote
    ensures IsGone(Step(s, a), sid) && IsFiled(Step(s, a), sid)
  {
    if !a.Thread? {
      OtherKeepsFiled(s, a, sid);
    } else if a.t < |s.threads| {
      assert ThreadOk(s, a.t);
      if !IsEnding(s.threads[a.t]) {
        RunnerSessions(s, a.t, a.choice);
      } else {
        if s.threads[a.t].Publish? && s.service.Started? { PublishFiles(s, a.t, a.choice, s.threads[a.t].sid); }
        EnderKeepsFiled(s, a.t, a.choice, sid);
      }
    }
  }

  function Dead(published: bool, phase: Phase): seq<Session> {
    [Session(PEER, 0, true, phase, published, 0, Unlocked)]
  }

  const DEAD_LINK: seq<Connection> := [Connection(true, Some(0), 0)]

  lemma FirstLocks() returns (labels: seq<Label>, s: Node)
    ensures Run(Initial(ME), labels) == s
    ensures s == Ending(map[PEER := 0], map[], Dead(false, Phase.Closing), Publish(0, Active, 0))
  {
    labels, s := FirstBuilds();
    labels, s := Take(labels, s, Go(0));
    assert s == Ending(map[PEER := 0], map[], Dead(false, Live), Publish(0, Active, 0));
    labels, s := Take(labels, s, CloseSession(0));
    assert s == Ending(map[PEER := 0], map[], Dead(false, Phase.Closing), Publish(0, Active, 0));
  }

  lemma FirstCloses() returns (labels: seq<Label>, s: Node)
    ensures Run(Initial(ME), labels) == s
    ensures s == Ending(map[PEER := 0], map[], Dead(false, Gone), Publish(0, Active, 0)).(conns := DEAD_LINK)
  {
    labels, s := FirstLocks();
    labels, s := Take(labels, s, CloseCore(0));
    assert s == Ending(map[PEER := 0], map[], Dead(false, CoreClosed), Publish(0, Active, 0)).(conns := DEAD_LINK);
    labels, s := Take(labels, s, Unpublish(0));
    assert s == Ending(map[PEER := 0], map[], Dead(false, Gone), Publish(0, Active, 0)).(conns := DEAD_LINK);
  }

  /** Such a run: a session that has closed completely between the two locks is filed all the same, and nobody is left
      to take it off the map. */
  lemma DeadSessionMayBeFiled()
    ensures exists labels: seq<Label> :: var s := Run(Initial(ME), labels); IsGone(s, 0) && IsFiled(s, 0)
  {
    var labels, s := FirstCloses();
    labels, s := Take(labels, s, Go(0));
    assert s.built == Dead(true, Gone) && s.sessions == map[PEER := 0];
  }
}
