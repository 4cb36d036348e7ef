/** What becomes of an incoming connection: when it is taken up, and that otherwise it is closed. */
module NodeIncoming {
  import opened Wrappers
  import opened NodeIds
  import opened Establish
  import opened NodeModel
  import opened NodeInvariant
  import opened NodeTheorems
  import opened NodeConnections
  import opened NodeConnect
  import opened NodeAnswers

  /** An incoming connection from `r` is led to the entry for `r` exactly if the service runs, `r` is another node and
      no live session is published for it; else it is closed and its goroutine has finished. */
  lemma TakenUpExactlyWithoutLiveSession(self: NodeId, before: seq<Label>, t: nat, o: Choice)
    ensures var s := Run(Initial(self), before);
            var s' := Step(s, Thread(t, o));
            t < |s.threads| && s.threads[t].FetchPassive? ==>
              var pc := s.threads[t];
              && t < |s'.threads| && pc.conn < |s'.conns|
              && if s.service.Started? && pc.remote != self && (forall sid: nat :: !LiveFor(s, pc.remote, sid)) then
                   && s'.threads[t].StartPassive? && s'.threads[t].conn == pc.conn && s'.threads[t].time == pc.time
                   && Mapped(s', s'.threads[t].e) && s'.slots[s'.threads[t].e].remote == pc.remote
                   && s'.conns == s.conns
                 else s'.threads[t].Served? && s'.conns[pc.conn].closed && s'.slots == s.slots
  {
    Reachable(self, before);
    SelfIsFixed(Initial(self), before);
    var s := Run(Initial(self), before);
    if t < |s.threads| && s.threads[t].FetchPassive? {
      var r := s.threads[t].remote;
      assert ThreadOk(s, t);
      FindsOnlyLive(s, r);
      if s.service.Started? && exists sid: nat :: LiveFor(s, r, sid) {
        var sid: nat :| LiveFor(s, r, sid);
        FindsTheLiveOne(s, r, sid);
      }
      Fetches(s, t, o);
    }
  }

  lemma Fetches(s: Node, t: nat, o: Choice)
    requires MapsOk(s) && t < |s.threads| && s.threads[t].FetchPassive? && s.threads[t].conn < |s.conns|
    ensures var s', pc := LookupStep(s, t, o), s.threads[t];
            && t < |s'.threads| && pc.conn < |s'.conns|
            && if s.service.Started? && pc.remote != s.self && GetSession(s, pc.remote).None? then
                 && s'.threads[t].StartPassive? && s'.threads[t].conn == pc.conn && s'.threads[t].time == pc.time
                 && Mapped(s', s'.threads[t].e) && s'.slots[s'.threads[t].e].remote == pc.remote
                 && s'.conns == s.conns
               else s'.threads[t].Served? && s'.conns[pc.conn].closed && s'.slots == s.slots
  {
  }

  /** There, once nobody holds the mutex, it becomes the establishment's accepted direction, with the time its dialer
      sent, exactly if that has neither ended nor one already; else it is closed and its goroutine has finished. */
  lemma AcceptedExactlyIfFirst(self: NodeId, before: seq<Label>, t: nat, o: Choice)
    ensures var s := Run(Initial(self), before);
            var s' := Step(s, Thread(t, o));
            t < |s.threads| && s.threads[t].StartPassive? && s.threads[t].e < |s.slots|
            && s.slots[s.threads[t].e].mutex.None? ==>
              var pc := s.threads[t];
              var es := s.slots[pc.e].es;
              && t < |s'.threads| && pc.conn < |s'.conns| && pc.e < |s'.slots|
              && s'.slots[pc.e].es.active == es.active
              && if !es.IsEnd() && es.passive.None? then
                   && s'.threads[t] == Guard(pc.e, Passive, Some(pc.conn))
                   && s'.slots[pc.e].es.passive == Some(Attempt(HANDSHAKE, pc.time, None, None))
                   && s'.conns[pc.conn] == s.conns[pc.conn].(es := Some(pc.e))
                 else s'.threads[t].Served? && s'.conns[pc.conn].closed && s'.slots[pc.e].es == es
  {
    Reachable(self, before);
    var s := Run(Initial(self), before);
    if t < |s.threads| && s.threads[t].StartPassive? && s.threads[t].e < |s.slots| {
      assert ThreadOk(s, t) && SlotOk(s, s.threads[t].e);
    }
  }

  /** What its dialer said counts: the node it named, and the time it gave. */
  lemma ApplyIsTakenAtItsWord(s: Node, t: nat, o: Choice, o': Choice)
    requires MapsOk(s) && t < |s.threads| && s.threads[t].ReadApply? && s.threads[t].conn < |s.conns|
    ensures var s', c := Step(Step(s, Thread(t, o)), Thread(t, o')), s.threads[t].conn;
            && t < |s'.threads|
            && (s'.threads[t].StartPassive? ==>
                  && o.ok && s'.threads[t].conn == c && s'.threads[t].time == o.time
                  && s'.threads[t].e < |s'.slots| && s'.slots[s'.threads[t].e].remote == o.remote)
  {
    var s1 := Step(s, Thread(t, o));
    if o.ok {
      assert s1 == Goto(s, t, FetchPassive(o.remote, s.threads[t].conn, o.time));
      Fetches(s1, t, o');
    }
  }

  /** A call of `Connect`, once nobody holds its establishment's mutex, dials, from the time its clock shows, exactly
      if the establishment has not ended and nobody has dialed, either way; else it waits. */
  lemma DialsExactlyIfFirst(self: NodeId, before: seq<Label>, t: nat, o: Choice)
    ensures var s := Run(Initial(self), before);
            var s' := Step(s, Thread(t, o));
            t < |s.threads| && s.threads[t].StartActive? && s.threads[t].e < |s.slots|
            && s.slots[s.threads[t].e].mutex.None? ==>
              var e := s.threads[t].e;
              var es := s.slots[e].es;
              && t < |s'.threads| && e < |s'.slots|
              && if !es.IsEnd() && es.active.None? && es.passive.None? then
                   && s'.threads[t] == Guard(e, Active, None) && s'.slots[e].es.passive.None?
                   && s'.slots[e].es.active == Some(Attempt(CONNECT, o.time, None, None))
                 else s'.threads[t] == Wait(e, Active) && s'.slots[e].es == es
  {
    Reachable(self, before);
    var s := Run(Initial(self), before);
    if t < |s.threads| && s.threads[t].StartActive? && s.threads[t].e < |s.slots| {
      assert ThreadOk(s, t) && SlotOk(s, s.threads[t].e);
    }
  }

  // ---------- None is left open ----------

  /** An open connection that has not been handed to an establishment is with the goroutine it came to. */
  predicate Attended(s: Node, c: nat)
    requires c < |s.conns|
  {
    || s.conns[c].closed || s.conns[c].es.Some?
    || (s.conns[c].opener < |s.threads| && Pending(s.threads[s.conns[c].opener]) == Some(c))
  }

  predicate AllAttended(s: Node) {
    forall c: nat :: c < |s.conns| ==> Attended(s, c)
  }

  lemma WorkAttends(s: Node, t: nat, o: Choice, e: nat)
    requires AtWork(s, t, e) && PendingOk(s, t) && AllAttended(s)
    ensures AllAttended(ThreadStep(s, t, o))
  {
    var s' := ThreadStep(s, t, o);
    ThreadWork(s, t, o, e);
    if s.threads[t].StartPassive? { HandOver(s, t, o, e); }
    forall c: nat | c < |s'.conns| ensures Attended(s', c) {
      if c < |s.conns| { assert Attended(s, c); }
    }
  }

  lemma LookupKeeps(s: Node, t: nat, o: Choice)
    requires t < |s.threads| && Pending(s.threads[t]).Some? && EsOf(s.threads[t]).None?
    requires Pending(s.threads[t]).value < |s.conns|
    ensures var s', c := LookupStep(s, t, o), Pending(s.threads[t]).value;
            t < |s'.threads| && c < |s'.conns| && (Pending(s'.threads[t]) == Some(c) || s'.conns[c].closed)
  {
  }

  lemma LookupAttends(s: Node, t: nat, o: Choice)
    requires t < |s.threads| && EsOf(s.threads[t]).None? && PendingOk(s, t) && AllAttended(s)
    ensures AllAttended(LookupStep(s, t, o))
  {
    var s' := LookupStep(s, t, o);
    var s1, r, x := LookupShape(s, t, o);
    LookupAside(s, t, o);
    LookupHolds(s, t, o);
    if Pending(s.threads[t]).Some? { LookupKeeps(s, t, o); }
    forall c: nat | c < |s'.conns| ensures Attended(s', c) {
      assert c < |s.conns| && Attended(s, c);
    }
  }

  lemma OtherAttends(s: Node, a: Label)
    requires !a.Thread? && AllAttended(s)
    ensures AllAttended(Step(s, a))
  {
    var s' := Step(s, a);
    assert forall u: nat :: u < |s.threads| ==> s'.threads[u] == s.threads[u];
    forall c: nat | c < |s'.conns| ensures Attended(s', c) {
      if c < |s.conns| { assert Attended(s, c); }
    }
  }

  lemma {:induction false} RunAttends(s: Node, labels: seq<Label>)
    requires Inv(s) && ConnsOk(s) && PendingsOk(s) && AllAttended(s)
    ensures AllAttended(Run(s, labels))
    decreases |labels|
  {
    if labels != [] {
      var a := labels[0];
      StepInv(s, a);
      StepConns(s, a);
      if !a.Thread? {
        OtherAttends(s, a);
      } else if a.t < |s.threads| {
        assert PendingOk(s, a.t) && ThreadOk(s, a.t);
        if EsOf(s.threads[a.t]).Some? {
          assert SlotOk(s, s.threads[a.t].e);
          WorkAttends(s, a.t, a.choice, s.threads[a.t].e);
        } else {
          LookupAttends(s, a.t, a.choice);
        }
      }
      RunAttends(Step(s, a), labels[1..]);
    }
  }

  /** No connection is forgotten on the way to its establishment: an open one that has not been handed to any is still
      in the hands of the goroutine it came to. */
  lemma RefusedIsClosed(self: NodeId, labels: seq<Label>, c: nat)
    ensures var s := Run(Initial(self), labels);
            c < |s.conns| && s.conns[c].es.None? && !s.conns[c].closed ==>
              s.conns[c].opener < |s.threads| && Pending(s.threads[s.conns[c].opener]) == Some(c)
  {
    InitialInv(self);
    RunAttends(Initial(self), labels);
    var s := Run(Initial(self), labels);
    if c < |s.conns| { assert Attended(s, c); }
  }

  // ---------- No establishment with itself ----------

  predicate Elsewhere(s: Node) {
    && (forall e: nat :: e < |s.slots| ==> s.slots[e].remote != s.self)
    && (forall t: nat :: t < |s.threads| && (s.threads[t].CheckSession? || s.threads[t].FetchActive?) ==>
          s.threads[t].remote != s.self)
  }

  lemma WorkElsewhere(s: Node, t: nat, o: Choice, e: nat)
    requires AtWork(s, t, e) && PendingOk(s, t) && Elsewhere(s)
    ensures Elsewhere(ThreadStep(s, t, o))
  {
    ThreadWork(s, t, o, e);
    ThreadStepEffect(s, t, o);
  }

  lemma LookupElsewhere(s: Node, t: nat, o: Choice)
    requires t < |s.threads| && EsOf(s.threads[t]).None? && Elsewhere(s) && MapsOk(s)
    ensures Elsewhere(LookupStep(s, t, o))
  {
    if s.threads[t].ReadApply? || s.threads[t].FetchPassive? { IncomingElsewhere(s, t, o); }
  }

  lemma IncomingElsewhere(s: Node, t: nat, o: Choice)
    requires t < |s.threads| && (s.threads[t].ReadApply? || s.threads[t].FetchPassive?) && Elsewhere(s) && MapsOk(s)
    ensures Elsewhere(LookupStep(s, t, o))
  {
  }

  lemma OtherElsewhere(s: Node, a: Label)
    requires !a.Thread? && Elsewhere(s)
    ensures Elsewhere(Step(s, a))
  {
  }

  lemma {:induction false} RunElsewhere(s: Node, labels: seq<Label>)
    requires Inv(s) && ConnsOk(s) && PendingsOk(s) && Elsewhere(s)
    ensures Elsewhere(Run(s, labels))
    decreases |labels|
  {
    if labels != [] {
      var a := labels[0];
      StepInv(s, a);
      StepConns(s, a);
      if !a.Thread? {
        OtherElsewhere(s, a);
      } else if a.t < |s.threads| {
        assert PendingOk(s, a.t) && ThreadOk(s, a.t);
        if EsOf(s.threads[a.t]).Some? {
          assert SlotOk(s, s.threads[a.t].e);
          WorkElsewhere(s, a.t, a.choice, s.threads[a.t].e);
        } else {
          LookupElsewhere(s, a.t, a.choice);
        }
      }
      RunElsewhere(Step(s, a), labels[1..]);
    }
  }

  /** Whatever node ids incoming connections claim, a node never establishes anything with itself. */
  lemma NeverWithItself(self: NodeId, labels: seq<Label>, e: nat)
    ensures var s := Run(Initial(self), labels);
            e < |s.slots| ==> s.slots[e].remote != self
  {
    InitialInv(self);
    RunElsewhere(Initial(self), labels);
    SelfIsFixed(Initial(self), labels);
  }
}
