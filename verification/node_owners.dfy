/** Who uses a connection, over every run of a node: nobody uses one that has been closed, or that another
    attempt or session uses. */
module NodeOwnership {
  import opened Wrappers
  import opened NodeIds
  import opened Establish
  import opened NodeModel
  import opened NodeInvariant
  import opened NodeTheorems
  import opened NodeConnections

  /** Which direction a goroutine serves, from its first statement to its last. */
  function Role(pc: Pc): Side {
    if RunnerSide(pc).Some? then RunnerSide(pc).value
    else if IsEnding(pc) || pc.Wait? then pc.side
    else if pc.ReadApply? || pc.FetchPassive? || pc.StartPassive? || pc.Served? then Passive
    else Active
  }

  function SideOf(activeEnd: bool): Side {
    if activeEnd then Active else Passive
  }

  /** An open connection handed to `e`, dialed or accepted by a goroutine serving `side`. */
  predicate Held(s: Node, e: nat, side: Side, c: nat) {
    && c < |s.conns| && !s.conns[c].closed && s.conns[c].es == Some(e)
    && s.conns[c].opener < |s.threads| && Role(s.threads[s.conns[c].opener]) == side
  }

  predicate ChosenAs(s: Node, e: nat, side: Side, c: nat)
    requires e < |s.slots|
  {
    Chosen(s, e, c) && SideOf(s.threads[s.slots[e].mutex.value].activeEnd) == side
  }

  /** `side` has succeeded with `c`, which waits for the decision, or for ever. */
  predicate SetAside(slot: Slot, side: Side, c: nat) {
    Parked(slot, side, c) || (side.Passive? && Stranded(slot.es, c))
  }

  /** `e` has `c` in use for `side`, short of building a session on it. */
  predicate InUse(s: Node, e: nat, side: Side, c: nat)
    requires e < |s.slots|
  {
    Carried(s, e, side, c) || SetAside(s.slots[e], side, c) || ChosenAs(s, e, side, c)
  }

  ghost predicate UsesHeld(s: Node, e: nat)
    requires e < |s.slots|
  {
    forall side: Side, c: nat :: InUse(s, e, side, c) ==> Held(s, e, side, c)
  }

  /** `e` is past the point where it builds a session. */
  predicate Spent(s: Node, e: nat)
    requires e < |s.slots|
  {
    || s.slots[e].es.IsEnd()
    || (s.slots[e].mutex.Some? && s.slots[e].mutex.value < |s.threads| &&
        !s.threads[s.slots[e].mutex.value].CreateSession?)
  }

  predicate OwnsCore(x: Session) {
    x.phase.Live? || x.phase.Closing?
  }

  predicate SessionHeld(s: Node, sid: nat)
    requires sid < |s.built|
  {
    var x := s.built[sid];
    && x.es < |s.slots| && Quiet(s.slots[x.es].es) && Spent(s, x.es)
    && (OwnsCore(x) ==> Held(s, x.es, SideOf(x.activeEnd), x.conn))
  }

  predicate OnePerEstablishment(s: Node) {
    forall x: nat, y: nat :: x < |s.built| && y < |s.built| && s.built[x].es == s.built[y].es ==> x == y
  }

  predicate PendingOpen(s: Node, t: nat)
    requires t < |s.threads|
  {
    PendingOk(s, t) && (Pending(s.threads[t]).Some? ==> !s.conns[Pending(s.threads[t]).value].closed)
  }

  ghost predicate Owners(s: Node) {
    && (forall e: nat :: e < |s.slots| ==> UsesHeld(s, e))
    && (forall sid: nat :: sid < |s.built| ==> SessionHeld(s, sid))
    && OnePerEstablishment(s)
    && (forall t: nat :: t < |s.threads| ==> PendingOpen(s, t))
  }

  // ---------- Roles never change ----------

  /** `t` is still there, in its role and, if it was running a direction, at work on its establishment. */
  predicate SameRole(s: Node, s': Node, t: nat)
    requires t < |s.threads|
  {
    && t < |s'.threads| && Role(s'.threads[t]) == Role(s.threads[t])
    && (IsRunning(s.threads[t]) && !s'.threads[t].Served? ==> EsOf(s'.threads[t]) == EsOf(s.threads[t]))
  }

  lemma RunnerRole(s: Node, t: nat, o: Choice)
    requires t < |s.threads| && ThreadOk(s, t) && IsRunning(s.threads[t])
    ensures SameRole(s, RunnerStep(s, t, o), t)
  {
    var pc := s.threads[t];
    if pc.Succeeding? { SucceedingRole(s, t, o); }
    else if pc.Failing? { FailingRole(s, t, o); }
    else if pc.StartActive? || pc.StartPassive? { StartRole(s, t, o); }
    else if pc.Guard? || pc.Io? { TalkRole(s, t, o); }
    else { ChangeRole(s, t, o); }
  }

  lemma StartRole(s: Node, t: nat, o: Choice)
    requires t < |s.threads| && (s.threads[t].StartActive? || s.threads[t].StartPassive?)
    ensures SameRole(s, RunnerStep(s, t, o), t)
  {
  }

  lemma TalkRole(s: Node, t: nat, o: Choice)
    requires t < |s.threads| && (s.threads[t].Guard? || s.threads[t].Io?) && Equipped(s, s.threads[t])
    ensures SameRole(s, RunnerStep(s, t, o), t)
  {
  }

  lemma ChangeRole(s: Node, t: nat, o: Choice)
    requires t < |s.threads|
    requires s.threads[t].Exit? || s.threads[t].Dialing? || s.threads[t].Handshaking? || s.threads[t].AboutToSucceed?
    ensures SameRole(s, RunnerStep(s, t, o), t)
  {
  }

  lemma DecidedRole(s: Node, t: nat, e: nat, side: Side)
    requires t < |s.threads| && e < |s.slots|
    ensures var ths := MaybeEnd(s, t, e, side).threads;
            t < |ths| && Role(ths[t]) == side && EsOf(ths[t]) == Some(e)
  {
  }

  lemma SucceedingRole(s: Node, t: nat, o: Choice)
    requires t < |s.threads| && s.threads[t].Succeeding?
    ensures SameRole(s, RunnerStep(s, t, o), t)
  {
    var pc := s.threads[t];
    if pc.e < |s.slots| { DecidedRole(SetEs(s, pc.e, s.slots[pc.e].es.Succeed(pc.side, pc.conn).es), t, pc.e,
                                      pc.side); }
  }

  lemma FailingRole(s: Node, t: nat, o: Choice)
    requires t < |s.threads| && s.threads[t].Failing?
    ensures SameRole(s, RunnerStep(s, t, o), t)
  {
    var pc := s.threads[t];
    if pc.e < |s.slots| {
      DecidedRole(CloseConn(SetEs(s, pc.e, s.slots[pc.e].es.Fail(pc.side, pc.err).es), pc.oc), t, pc.e, pc.side);
    }
  }

  lemma EndRole(s: Node, t: nat, o: Choice)
    requires t < |s.threads| && (IsEnding(s.threads[t]) || s.threads[t].Wait?)
    ensures SameRole(s, EndStep(s, t, o), t)
  {
    if s.threads[t].CreateSession? || s.threads[t].LockSession? || s.threads[t].Publish? || s.threads[t].Abort? {
      BuildRole(s, t, o);
    }
  }

  lemma BuildRole(s: Node, t: nat, o: Choice)
    requires t < |s.threads|
    requires s.threads[t].CreateSession? || s.threads[t].LockSession? || s.threads[t].Publish? || s.threads[t].Abort?
    ensures SameRole(s, EndStep(s, t, o), t)
  {
  }

  lemma LookupRole(s: Node, t: nat, o: Choice)
    requires t < |s.threads|
    ensures SameRole(s, LookupStep(s, t, o), t)
  {
    if s.threads[t].ReadApply? || s.threads[t].FetchPassive? { PassiveLookupRole(s, t, o); }
  }

  lemma PassiveLookupRole(s: Node, t: nat, o: Choice)
    requires t < |s.threads| && (s.threads[t].ReadApply? || s.threads[t].FetchPassive?)
    ensures SameRole(s, LookupStep(s, t, o), t)
  {
  }

  // ---------- What a step leaves to others ----------

  /** Goroutine `t`, at work on `e`, leaves the connections handed to other establishments, and those that
      came to other goroutines, as they are. */
  predicate Spares(s: Node, s': Node, t: nat, e: nat)
    requires t < |s.threads|
  {
    && |s'.threads| == |s.threads| && (forall u: nat :: u < |s.threads| && u != t ==> s'.threads[u] == s.threads[u])
    && SameRole(s, s', t) && (EsOf(s'.threads[t]).Some? ==> EsOf(s'.threads[t]) == Some(e))
    && |s'.slots| == |s.slots| && (forall x: nat :: x < |s.slots| && x != e ==> s'.slots[x] == s.slots[x])
    && OtherSessionsKept(s, s', e)
    && |s.conns| <= |s'.conns|
    && (forall c: nat :: c < |s.conns| && s.conns[c].es.Some? && s.conns[c].es != Some(e) ==> s'.conns[c] == s.conns[c])
    && (forall c: nat :: c < |s.conns| && s.conns[c].es.None? && s.conns[c].opener != t ==> s'.conns[c] == s.conns[c])
  }

  lemma HeldElsewhere(s: Node, s': Node, t: nat, e: nat, x: nat, side: Side, c: nat)
    requires t < |s.threads| && Spares(s, s', t, e) && x != e && Held(s, x, side, c)
    ensures Held(s', x, side, c)
  {
    var u := s.conns[c].opener;
    assert u != t ==> s'.threads[u] == s.threads[u];
  }

  lemma UsedElsewhere(s: Node, s': Node, t: nat, e: nat, x: nat)
    requires t < |s.threads| && Spares(s, s', t, e) && x < |s.slots| && x != e && UsesHeld(s, x)
    ensures UsesHeld(s', x)
  {
    forall side: Side, c: nat | InUse(s', x, side, c) ensures Held(s', x, side, c) {
      assert InUse(s, x, side, c);
      HeldElsewhere(s, s', t, e, x, side, c);
    }
  }

  lemma SessionElsewhere(s: Node, s': Node, t: nat, e: nat, sid: nat)
    requires t < |s.threads| && EsOf(s.threads[t]) == Some(e) && Spares(s, s', t, e)
    requires sid < |s.built| && s.built[sid].es != e && SessionHeld(s, sid) && SlotOk(s, s.built[sid].es)
    ensures SessionHeld(s', sid)
  {
    var x := s.built[sid];
    assert s'.built[sid] == x && s'.slots[x.es] == s.slots[x.es];
    if OwnsCore(x) { HeldElsewhere(s, s', t, e, x.es, SideOf(x.activeEnd), x.conn); }
  }

  lemma PendingElsewhere(s: Node, s': Node, t: nat, e: nat, u: nat)
    requires t < |s.threads| && Spares(s, s', t, e) && u < |s.threads| && u != t && PendingOpen(s, u)
    ensures PendingOpen(s', u)
  {
    assert s'.threads[u] == s.threads[u];
  }

  /** What remains to be seen about `e` itself. */
  ghost predicate Settles(s': Node, t: nat, e: nat) {
    && e < |s'.slots| && UsesHeld(s', e)
    && (forall sid: nat :: sid < |s'.built| && s'.built[sid].es == e ==> SessionHeld(s', sid))
    && t < |s'.threads| && PendingOpen(s', t)
  }

  lemma WorkOwners(s: Node, s': Node, t: nat, e: nat)
    requires SlotsOk(s) && Owners(s) && t < |s.threads| && EsOf(s.threads[t]) == Some(e) && e < |s.slots|
    requires Spares(s, s', t, e) && Settles(s', t, e) && OnePerEstablishment(s')
    requires forall sid: nat :: |s.built| <= sid < |s'.built| ==> s'.built[sid].es == e
    requires forall sid: nat :: sid < |s.built| ==> s'.built[sid].es == s.built[sid].es
    ensures Owners(s')
  {
    forall x: nat | x < |s'.slots| ensures UsesHeld(s', x) {
      if x != e { UsedElsewhere(s, s', t, e, x); }
    }
    forall sid: nat | sid < |s'.built| ensures SessionHeld(s', sid) {
      if s'.built[sid].es != e {
        assert SessionHeld(s, sid);
        SessionElsewhere(s, s', t, e, sid);
      }
    }
    forall u: nat | u < |s'.threads| ensures PendingOpen(s', u) {
      if u != t {
        assert PendingOpen(s, u);
        PendingElsewhere(s, s', t, e, u);
      }
    }
  }

  // ---------- Steps that touch no connection ----------

  /** With connections untouched and nothing newly in use, nothing is used that is not held. */
  lemma StillHeld(s: Node, s': Node, t: nat, e: nat)
    requires t < |s.threads| && Spares(s, s', t, e) && s'.conns == s.conns && e < |s.slots| && UsesHeld(s, e)
    requires forall side: Side, c: nat :: InUse(s', e, side, c) ==> InUse(s, e, side, c)
    ensures UsesHeld(s', e)
  {
    forall side: Side, c: nat | InUse(s', e, side, c) ensures Held(s', e, side, c) {
      assert Held(s, e, side, c);
      var u := s.conns[c].opener;
      assert u != t ==> s'.threads[u] == s.threads[u];
    }
  }

  ghost predicate SessionsHeld(s: Node) {
    forall sid: nat :: sid < |s.built| ==> SessionHeld(s, sid)
  }

  /** A running direction has no session yet. */
  lemma NoSessionYet(s: Node, t: nat, e: nat, side: Side)
    requires t < |s.threads| && RunnerOk(s, t, e, side) && SessionsHeld(s)
    ensures forall sid: nat :: sid < |s.built| ==> s.built[sid].es != e
  {
    forall sid: nat | sid < |s.built| ensures s.built[sid].es != e {
      assert SessionHeld(s, sid);
    }
  }

  /** All there is to show of a step of `t` on `e`. */
  ghost predicate Done(s: Node, s': Node, t: nat, e: nat)
    requires t < |s.threads|
  {
    Spares(s, s', t, e) && Settles(s', t, e)
  }

  lemma TalkUses(s: Node, t: nat, o: Choice, e: nat)
    requires AtWork(s, t, e) && (s.threads[t].Guard? || s.threads[t].Io?)
    ensures var s' := RunnerStep(s, t, o);
            && s' == Goto(s, t, s'.threads[t]) && SameRole(s, s', t)
            && EsOf(s'.threads[t]) == Some(e) && Pending(s'.threads[t]).None? && !s'.threads[t].CreateSession?
            && (ConnOf(s'.threads[t]).Some? ==>
                  ConnOf(s'.threads[t]) == ConnOf(s.threads[t]) &&
                  RunnerSide(s'.threads[t]) == RunnerSide(s.threads[t]))
  {
    TalkRole(s, t, o);
  }

  /** Only what the goroutine carries may be in use that was not. */
  lemma GotoUses(s: Node, t: nat, e: nat, pc: Pc, side: Side, c: nat)
    requires t < |s.threads| && e < |s.slots| && RunnerSide(s.threads[t]).Some? && EsOf(s.threads[t]) == Some(e)
    requires s.slots[e].mutex != Some(t) && InUse(Goto(s, t, pc), e, side, c)
    requires ConnOf(pc).Some? ==> ConnOf(pc) == ConnOf(s.threads[t]) && RunnerSide(pc) == RunnerSide(s.threads[t])
    ensures InUse(s, e, side, c)
  {
  }

  lemma TalkDone(s: Node, t: nat, o: Choice, e: nat)
    requires AtWork(s, t, e) && (s.threads[t].Guard? || s.threads[t].Io?) && UsesHeld(s, e) && SessionsHeld(s)
    ensures Done(s, RunnerStep(s, t, o), t, e)
  {
    var s' := RunnerStep(s, t, o);
    TalkUses(s, t, o, e);
    NoSessionYet(s, t, e, RunnerSide(s.threads[t]).value);
    assert s.slots[e].mutex != Some(t);
    forall side: Side, c: nat | InUse(s', e, side, c) ensures InUse(s, e, side, c) {
      GotoUses(s, t, e, s'.threads[t], side, c);
    }
    StillHeld(s, s', t, e);
  }

  lemma ChangeUses(s: Node, t: nat, o: Choice, e: nat)
    requires AtWork(s, t, e)
    requires s.threads[t].Exit? || s.threads[t].Handshaking? || s.threads[t].AboutToSucceed?
    ensures var s' := RunnerStep(s, t, o);
            && s'.threads == s.threads[t := s'.threads[t]] && s'.slots == s.slots[e := s'.slots[e]]
            && s'.conns == s.conns && s'.built == s.built
            && EsOf(s'.threads[t]) == Some(e) && Pending(s'.threads[t]).None? && !s'.threads[t].CreateSession?
            && (ConnOf(s'.threads[t]).Some? ==>
                  ConnOf(s'.threads[t]) == ConnOf(s.threads[t]) &&
                  RunnerSide(s'.threads[t]) == RunnerSide(s.threads[t]))
            && s'.slots[e].dialer == s.slots[e].dialer && s'.slots[e].acceptor == s.slots[e].acceptor
            && s'.slots[e].mutex == s.slots[e].mutex
            && forall side: Side, c: nat :: SetAside(s'.slots[e], side, c) ==> SetAside(s.slots[e], side, c)
  {
  }

  lemma ChangeDone(s: Node, t: nat, o: Choice, e: nat)
    requires AtWork(s, t, e) && UsesHeld(s, e) && SessionsHeld(s)
    requires s.threads[t].Exit? || s.threads[t].Handshaking? || s.threads[t].AboutToSucceed?
    ensures Done(s, RunnerStep(s, t, o), t, e)
  {
    var s' := RunnerStep(s, t, o);
    ChangeUses(s, t, o, e);
    ChangeRole(s, t, o);
    NoSessionYet(s, t, e, RunnerSide(s.threads[t]).value);
    forall side: Side, c: nat | InUse(s', e, side, c) ensures InUse(s, e, side, c) {
    }
    StillHeld(s, s', t, e);
  }

  lemma DialingDone(s: Node, t: nat, o: Choice, e: nat)
    requires AtWork(s, t, e) && s.threads[t].Dialing? && UsesHeld(s, e) && SessionsHeld(s)
    ensures Done(s, RunnerStep(s, t, o), t, e)
  {
    var s' := RunnerStep(s, t, o);
    ChangeRole(s, t, o);
    NoSessionYet(s, t, e, Active);
    forall side: Side, c: nat | InUse(s', e, side, c) ensures Held(s', e, side, c) {
      if !(side.Active? && s'.threads[t] == Handshaking(e, c)) {
        assert InUse(s, e, side, c);
        assert Held(s, e, side, c);
      }
    }
  }

  lemma NoSessionBefore(s: Node, e: nat)
    requires e < |s.slots| && !s.slots[e].es.IsEnd() && s.slots[e].mutex.None? && SessionsHeld(s)
    ensures forall sid: nat :: sid < |s.built| ==> s.built[sid].es != e
  {
    forall sid: nat | sid < |s.built| ensures s.built[sid].es != e {
      assert SessionHeld(s, sid);
    }
  }

  /** What is known where a direction is started. */
  ghost predicate AtStart(s: Node, t: nat, e: nat) {
    AtWork(s, t, e) && s.slots[e].mutex.None? && UsesHeld(s, e) && SessionsHeld(s) && PendingOpen(s, t)
  }

  lemma StartActiveShape(s: Node, t: nat, o: Choice, e: nat)
    requires AtWork(s, t, e) && s.threads[t].StartActive? && s.slots[e].mutex.None?
    ensures var s' := RunnerStep(s, t, o);
            && s'.threads == s.threads[t := s'.threads[t]] && s'.slots == s.slots[e := s'.slots[e]]
            && s'.conns == s.conns && s'.built == s.built
            && EsOf(s'.threads[t]) == Some(e) && ConnOf(s'.threads[t]).None? && !s'.threads[t].CreateSession?
            && s'.slots[e].acceptor == s.slots[e].acceptor && s'.slots[e].mutex.None?
            && Pending(s'.threads[t]).None?
            && (s'.slots[e] == s.slots[e] || (s'.slots[e].dialer == Some(t) && !s.slots[e].es.IsEnd()))
            && forall side: Side, c: nat :: SetAside(s'.slots[e], side, c) ==> SetAside(s.slots[e], side, c)
  {
  }

  lemma StartActiveDone(s: Node, t: nat, o: Choice, e: nat)
    requires AtStart(s, t, e) && s.threads[t].StartActive?
    ensures Done(s, RunnerStep(s, t, o), t, e)
  {
    var s' := RunnerStep(s, t, o);
    StartActiveShape(s, t, o, e);
    StartRole(s, t, o);
    if s'.slots[e] != s.slots[e] { NoSessionBefore(s, e); }
    forall side: Side, c: nat | InUse(s', e, side, c) ensures InUse(s, e, side, c) {
    }
    StillHeld(s, s', t, e);
    forall sid: nat | sid < |s'.built| && s'.built[sid].es == e ensures SessionHeld(s', sid) {
      assert SessionHeld(s, sid) && s'.slots[e] == s.slots[e];
      assert OwnsCore(s.built[sid]) ==> Held(s', e, SideOf(s.built[sid].activeEnd), s.built[sid].conn);
    }
  }

  lemma StartPassiveShape(s: Node, t: nat, o: Choice, e: nat)
    requires AtWork(s, t, e) && s.threads[t].StartPassive? && s.slots[e].mutex.None?
    ensures var s', c := RunnerStep(s, t, o), s.threads[t].conn;
            && s'.threads == s.threads[t := s'.threads[t]] && s'.slots == s.slots[e := s'.slots[e]]
            && |s'.conns| == |s.conns| && s'.conns == s.conns[c := s'.conns[c]] && s'.built == s.built
            && Pending(s'.threads[t]).None? && !s'.threads[t].CreateSession? && s'.slots[e].mutex.None?
            && s'.slots[e].dialer == s.slots[e].dialer
            && (|| (s'.slots[e] == s.slots[e] && s'.threads[t].Served?)
                || (s'.slots[e].acceptor == Some(t) && !s.slots[e].es.IsEnd() &&
                    s'.threads[t] == Guard(e, Passive, Some(c))
                    && s'.conns[c] == s.conns[c].(es := Some(e))))
            && forall side: Side, x: nat :: SetAside(s'.slots[e], side, x) ==> SetAside(s.slots[e], side, x)
  {
    HandOver(s, t, o, e);
    StartPassiveSlot(s, t, o, e);
  }

  lemma StartPassiveSlot(s: Node, t: nat, o: Choice, e: nat)
    requires AtWork(s, t, e) && s.threads[t].StartPassive? && s.slots[e].mutex.None?
    ensures var s' := RunnerStep(s, t, o);
            && s' != s && e < |s'.slots| && t < |s'.threads|
            && s'.slots[e].mutex.None? && s'.slots[e].dialer == s.slots[e].dialer
            && (if s'.threads[t].Guard? then !s.slots[e].es.IsEnd() else s'.slots[e] == s.slots[e])
            && forall side: Side, x: nat :: SetAside(s'.slots[e], side, x) ==> SetAside(s.slots[e], side, x)
  {
    assert RunnerStep(s, t, o).threads[t] != s.threads[t];
  }

  lemma StartPassiveDone(s: Node, t: nat, o: Choice, e: nat)
    requires AtStart(s, t, e) && s.threads[t].StartPassive?
    ensures Done(s, RunnerStep(s, t, o), t, e)
  {
    var s', c0 := RunnerStep(s, t, o), s.threads[t].conn;
    StartPassiveShape(s, t, o, e);
    StartRole(s, t, o);
    if s'.slots[e] != s.slots[e] { NoSessionBefore(s, e); }
    forall side: Side, c: nat | InUse(s', e, side, c) ensures Held(s', e, side, c) {
      if !(side.Passive? && s'.threads[t] == Guard(e, Passive, Some(c))) {
        assert InUse(s, e, side, c);
        assert Held(s, e, side, c) && c != c0;
      }
    }
    forall sid: nat | sid < |s'.built| && s'.built[sid].es == e ensures SessionHeld(s', sid) {
      assert SessionHeld(s, sid) && s'.slots[e] == s.slots[e];
      assert OwnsCore(s.built[sid]) ==> s.built[sid].conn != c0;
    }
  }

  // ---------- The end of a direction ----------

  /** `side` of `e` ends with `a`: with the connection its goroutine carries, or closing it. */
  predicate EndsWith(s: Node, s1: Node, t: nat, e: nat, side: Side, a: Attempt) {
    && AtWork(s, t, e) && RunnerOk(s, t, e, side) && NoRival(s, e) && s.slots[e].mutex.None?
    && RunnerSide(s.threads[t]) == Some(side) && a.IsEnd() && AttemptOk(Some(a))
    && s1 == SetEs(s, e, s.slots[e].es.With(side, a)).(conns := s1.conns)
    && (if a.IsSuccess() then a.conn == ConnOf(s.threads[t]) && s1.conns == s.conns
        else s1.conns == CloseConn(s, ConnOf(s.threads[t])).conns)
  }

  /** The other direction's connection is not the one this direction ends with. */
  lemma OtherStays(s: Node, s1: Node, t: nat, e: nat, side: Side, a: Attempt, x: Side, c: nat)
    requires EndsWith(s, s1, t, e, side, a) && UsesHeld(s, e) && InUse(s, e, x, c) && (x != side || a.IsSuccess())
    ensures Held(s1, e, x, c)
  {
    assert Held(s, e, x, c);
    var oc := ConnOf(s.threads[t]);
    if oc.Some? {
      assert InUse(s, e, side, oc.value);
      assert Held(s, e, side, oc.value);
    }
  }

  /** While the other direction is under way, only its connection and the one just parked are in use. */
  lemma WaitUses(s: Node, s1: Node, t: nat, e: nat, side: Side, a: Attempt, x: Side, c: nat)
    requires EndsWith(s, s1, t, e, side, a) && InUse(Goto(s1, t, Wait(e, side)), e, x, c)
    ensures InUse(s, e, x, c) && (x != side || a.IsSuccess())
  {
    var s' := Goto(s1, t, Wait(e, side));
    var es := s1.slots[e].es;
    assert es.Of(side) == Some(a) && es.Of(side.Other()) == s.slots[e].es.Of(side.Other());
    if Carried(s', e, x, c) {
      assert x != side;
      assert Carried(s, e, x, c);
    } else if x == side {
      assert Carried(s, e, x, c);
    } else {
      assert SetAside(s.slots[e], x, c);
    }
  }

  lemma EndsSparing(s: Node, s1: Node, s': Node, t: nat, e: nat, side: Side, a: Attempt)
    requires EndsWith(s, s1, t, e, side, a) && UsesHeld(s, e) && |s'.conns| == |s1.conns|
    requires |s'.threads| == |s1.threads| && |s'.slots| == |s1.slots|
    requires s'.threads == s1.threads[t := s'.threads[t]] && Role(s'.threads[t]) == side
    requires EsOf(s'.threads[t]) == Some(e)
    requires s'.slots == s1.slots[e := s'.slots[e]] && s'.built == s1.built
    requires forall c: nat :: c < |s1.conns| && s1.conns[c].es != Some(e) ==> s'.conns[c] == s1.conns[c]
    ensures Spares(s, s', t, e)
  {
    var oc := ConnOf(s.threads[t]);
    if oc.Some? {
      assert InUse(s, e, side, oc.value);
      assert Held(s, e, side, oc.value);
    }
  }

  lemma WaitDone(s: Node, s1: Node, t: nat, e: nat, side: Side, a: Attempt)
    requires EndsWith(s, s1, t, e, side, a) && UsesHeld(s, e) && SessionsHeld(s)
    ensures Done(s, Goto(s1, t, Wait(e, side)), t, e)
  {
    var s' := Goto(s1, t, Wait(e, side));
    EndsSparing(s, s1, s', t, e, side, a);
    NoSessionYet(s, t, e, side);
    forall x: Side, c: nat | InUse(s', e, x, c) ensures Held(s', e, x, c) {
      WaitUses(s, s1, t, e, side, a, x, c);
      OtherStays(s, s1, t, e, side, a, x, c);
    }
  }

  /** The choice is between connections in use, and what it drops is not what it keeps. */
  lemma ChoiceUses(s: Node, s1: Node, t: nat, e: nat, side: Side, a: Attempt, tie: bool)
    requires EndsWith(s, s1, t, e, side, a) && !s.slots[e].es.IsEstablishing(side.Other()) && !s.slots[e].es.IsEnd()
    ensures var d := s1.slots[e].es.Decide(tie);
            && d.err != Some(UnknownEndStatus) && d.conn.Some? != d.err.Some?
            && (d.conn.Some? ==>
                  InUse(s, e, SideOf(d.active), d.conn.value) && (SideOf(d.active) == side ==> a.IsSuccess()))
            && (d.drop.Some? ==> d.conn.Some? && a.IsSuccess() && InUse(s, e, SideOf(d.active).Other(), d.drop.value))
  {
    var es := s1.slots[e].es;
    assert es.Of(side) == Some(a) && es.Of(side.Other()) == s.slots[e].es.Of(side.Other());
    assert es.active == es.Of(Active) && es.passive == es.Of(Passive);
    assert es.WellFormed();
    DecideTotal(es, tie);
    assert ConnOf(s.threads[t]).None? || Carried(s, e, side, ConnOf(s.threads[t]).value);
    assert forall c: nat :: es.IsSuccess(side.Other()) && es.Conn(side.Other()) == Some(c) ==>
        SetAside(s.slots[e], side.Other(), c);
  }

  /** Once the last direction has ended nobody carries a connection. */
  lemma NoneCarried(s: Node, s': Node, t: nat, e: nat, side: Side, x: Side, c: nat)
    requires AtWork(s, t, e) && RunnerOk(s, t, e, side) && ThreadsOk(s) && !s.slots[e].es.IsEstablishing(side.Other())
    requires |s'.threads| == |s.threads| && s'.threads == s.threads[t := s'.threads[t]]
    requires RunnerSide(s'.threads[t]).None?
    requires |s'.slots| == |s.slots| && s'.slots[e].dialer == s.slots[e].dialer
    requires s'.slots[e].acceptor == s.slots[e].acceptor
    ensures !Carried(s', e, x, c)
  {
    var r := s.slots[e].Runner(x);
    assert s'.slots[e].Runner(x) == r;
    if r.Some? && r.value < |s.threads| { assert ThreadOk(s, r.value); }
  }

  lemma DecideUses(s: Node, s1: Node, t: nat, e: nat, side: Side, d: Decision, x: Side, c: nat)
    requires AtWork(s, t, e) && RunnerOk(s, t, e, side) && ThreadsOk(s) && RunnerSide(s.threads[t]) == Some(side)
    requires !s.slots[e].es.IsEstablishing(side.Other())
    requires s1.threads == s.threads && |s1.slots| == |s.slots| && !s1.slots[e].es.IsEnd()
    requires s1.slots[e].dialer == s.slots[e].dialer && s1.slots[e].acceptor == s.slots[e].acceptor
    requires InUse(Conclude(s1, t, e, side, d), e, x, c)
    ensures d.conn == Some(c) && SideOf(d.active) == x && d.err.None?
  {
    var s' := Conclude(s1, t, e, side, d);
    NoneCarried(s, s', t, e, side, x, c);
    assert ChosenAs(s', e, x, c);
  }

  lemma DecideSpares(s: Node, s1: Node, t: nat, e: nat, side: Side, a: Attempt, d: Decision)
    requires EndsWith(s, s1, t, e, side, a) && UsesHeld(s, e)
    requires d.drop.Some? ==> a.IsSuccess() && InUse(s, e, SideOf(d.active).Other(), d.drop.value)
    ensures Spares(s, Conclude(s1, t, e, side, d), t, e)
  {
    if d.drop.Some? { OtherStays(s, s1, t, e, side, a, SideOf(d.active).Other(), d.drop.value); }
    EndsSparing(s, s1, Conclude(s1, t, e, side, d), t, e, side, a);
  }

  /** The connection chosen stays open: what is dropped was opened for the other direction. */
  lemma ChosenStays(s: Node, s1: Node, t: nat, e: nat, side: Side, a: Attempt, d: Decision)
    requires EndsWith(s, s1, t, e, side, a) && UsesHeld(s, e) && d.conn.Some? && d.err.None?
    requires InUse(s, e, SideOf(d.active), d.conn.value) && (SideOf(d.active) == side ==> a.IsSuccess())
    requires d.drop.Some? ==> a.IsSuccess() && InUse(s, e, SideOf(d.active).Other(), d.drop.value)
    ensures Held(Conclude(s1, t, e, side, d), e, SideOf(d.active), d.conn.value)
  {
    OtherStays(s, s1, t, e, side, a, SideOf(d.active), d.conn.value);
    if d.drop.Some? { OtherStays(s, s1, t, e, side, a, SideOf(d.active).Other(), d.drop.value); }
  }

  lemma DecideDone(s: Node, s1: Node, t: nat, e: nat, side: Side, a: Attempt, tie: bool)
    requires EndsWith(s, s1, t, e, side, a) && ThreadsOk(s) && UsesHeld(s, e) && SessionsHeld(s)
    requires !s.slots[e].es.IsEstablishing(side.Other()) && !s.slots[e].es.IsEnd()
    ensures Done(s, Conclude(s1, t, e, side, s1.slots[e].es.Decide(tie)), t, e)
  {
    var d := s1.slots[e].es.Decide(tie);
    var s' := Conclude(s1, t, e, side, d);
    ChoiceUses(s, s1, t, e, side, a, tie);
    DecideSpares(s, s1, t, e, side, a, d);
    NoSessionYet(s, t, e, side);
    if d.conn.Some? { ChosenStays(s, s1, t, e, side, a, d); }
    forall x: Side, c: nat | InUse(s', e, x, c) ensures Held(s', e, x, c) {
      DecideUses(s, s1, t, e, side, d, x, c);
    }
  }

  lemma FinishDone(s: Node, s1: Node, t: nat, e: nat, side: Side, a: Attempt)
    requires EndsWith(s, s1, t, e, side, a) && ThreadsOk(s) && UsesHeld(s, e) && SessionsHeld(s)
    ensures Done(s, MaybeEnd(s1, t, e, side), t, e)
  {
    var es := s1.slots[e].es;
    assert es.Of(side.Other()) == s.slots[e].es.Of(side.Other());
    if es.IsEstablishing(side.Other()) || es.IsEnd() {
      WaitDone(s, s1, t, e, side, a);
    } else {
      DecideDone(s, s1, t, e, side, a, Less(s1.self, s1.slots[e].remote));
    }
  }

  lemma SucceedingDone(s: Node, t: nat, o: Choice, e: nat)
    requires AtWork(s, t, e) && s.threads[t].Succeeding? && s.slots[e].mutex.None?
    requires ThreadsOk(s) && UsesHeld(s, e) && SessionsHeld(s)
    ensures Done(s, RunnerStep(s, t, o), t, e)
  {
    var pc := s.threads[t];
    var a := s.slots[e].es.Of(pc.side).value.ChangeState(SUCCESS).(conn := Some(pc.conn));
    var s1 := SetEs(s, e, s.slots[e].es.With(pc.side, a));
    assert s1 == s1.(conns := s.conns);
    FinishDone(s, s1, t, e, pc.side, a);
  }

  lemma FailingDone(s: Node, t: nat, o: Choice, e: nat)
    requires AtWork(s, t, e) && s.threads[t].Failing? && s.slots[e].mutex.None?
    requires ThreadsOk(s) && UsesHeld(s, e) && SessionsHeld(s)
    ensures Done(s, RunnerStep(s, t, o), t, e)
  {
    var pc := s.threads[t];
    var a := s.slots[e].es.Of(pc.side).value.ChangeState(FAIL).(err := Some(pc.err));
    var s1 := CloseConn(SetEs(s, e, s.slots[e].es.With(pc.side, a)), pc.oc);
    assert s1 == SetEs(s, e, s.slots[e].es.With(pc.side, a)).(conns := s1.conns);
    FinishDone(s, s1, t, e, pc.side, a);
  }

  // ---------- Inside establishEnd ----------

  ghost predicate AtEnd(s: Node, t: nat, e: nat) {
    AtWork(s, t, e) && IsEnding(s.threads[t]) && ThreadsOk(s) && UsesHeld(s, e) && SessionsHeld(s)
  }

  /** The goroutine inside `establishEnd` moves on there, or leaves it with the establishment ended. */
  predicate EndShape(s: Node, s': Node, t: nat, e: nat)
    requires t < |s.threads| && e < |s.slots|
  {
    && |s'.threads| == |s.threads| && s'.threads == s.threads[t := s'.threads[t]]
    && |s'.slots| == |s.slots| && s'.slots == s.slots[e := s'.slots[e]]
    && RunnerSide(s'.threads[t]).None? && Pending(s'.threads[t]).None? && !s'.threads[t].CreateSession?
    && EsOf(s'.threads[t]) == Some(e)
    && s'.slots[e].dialer == s.slots[e].dialer && s'.slots[e].acceptor == s.slots[e].acceptor
    && s'.slots[e].es.active == s.slots[e].es.active && s'.slots[e].es.passive == s.slots[e].es.passive
    && (if s'.slots[e].mutex.None? then s'.slots[e].es.IsEnd() else s'.slots[e].mutex == Some(t))
  }

  /** Nothing is in use there any more. */
  lemma EndUses(s: Node, s': Node, t: nat, e: nat)
    requires AtEnd(s, t, e) && EndShape(s, s', t, e)
    ensures UsesHeld(s', e)
  {
    forall x: Side, c: nat ensures !InUse(s', e, x, c) {
      UnusedAtEnd(s, s', t, e, x, c);
    }
  }

  lemma UnusedAtEnd(s: Node, s': Node, t: nat, e: nat, x: Side, c: nat)
    requires AtEnd(s, t, e) && EndShape(s, s', t, e)
    ensures !InUse(s', e, x, c)
  {
    var r := s.slots[e].Runner(x);
    assert s'.slots[e].Runner(x) == r;
    if r.Some? && r.value < |s.threads| { assert ThreadOk(s, r.value); }
  }

  lemma PassEndShape(s: Node, t: nat, o: Choice, e: nat)
    requires AtWork(s, t, e)
    requires s.threads[t].GiveUp? || s.threads[t].Forget? || s.threads[t].Signal? || s.threads[t].LockSession?
    ensures EndShape(s, EndStep(s, t, o), t, e)
    ensures EndStep(s, t, o).conns == s.conns && EndStep(s, t, o).built == s.built
  {
    if s.threads[t].LockSession? { LockShape(s, t, o, e); }
  }

  lemma LockShape(s: Node, t: nat, o: Choice, e: nat)
    requires AtWork(s, t, e) && s.threads[t].LockSession?
    ensures EndShape(s, EndStep(s, t, o), t, e)
    ensures EndStep(s, t, o).conns == s.conns && EndStep(s, t, o).built == s.built
  {
  }

  lemma PublishShape(s: Node, t: nat, o: Choice, e: nat)
    requires AtWork(s, t, e) && s.threads[t].Publish?
    ensures EndShape(s, EndStep(s, t, o), t, e) && EndStep(s, t, o).conns == s.conns
    ensures var s' := EndStep(s, t, o);
            && |s'.built| == |s.built|
            && forall sid: nat :: sid < |s.built| ==>
                 && (s.built[sid].es != e ==> s'.built[sid] == s.built[sid])
                 && s'.built[sid] == s.built[sid].(published := s'.built[sid].published)
  {
  }

  /** A session stays as it is held, its connection being left alone. */
  lemma SessionStays(s: Node, s': Node, t: nat, e: nat, sid: nat)
    requires AtEnd(s, t, e) && EndShape(s, s', t, e) && Spares(s, s', t, e)
    requires sid < |s.built| && sid < |s'.built| && s.built[sid].es == e
    requires s'.built[sid] == s.built[sid].(published := s'.built[sid].published)
    requires s.built[sid].conn < |s.conns| ==> s'.conns[s.built[sid].conn] == s.conns[s.built[sid].conn]
    ensures SessionHeld(s', sid)
  {
    assert SessionHeld(s, sid);
  }

  lemma PassEndDone(s: Node, t: nat, o: Choice, e: nat)
    requires AtEnd(s, t, e) && !s.threads[t].CreateSession? && !s.threads[t].Abort?
    ensures Done(s, EndStep(s, t, o), t, e) && |EndStep(s, t, o).built| == |s.built|
    ensures forall sid: nat :: sid < |s.built| ==> EndStep(s, t, o).built[sid].es == s.built[sid].es
  {
    var s' := EndStep(s, t, o);
    EndRole(s, t, o);
    if s.threads[t].Publish? { PublishShape(s, t, o, e); } else { PassEndShape(s, t, o, e); }
    assert Spares(s, s', t, e);
    EndUses(s, s', t, e);
    forall sid: nat | sid < |s'.built| && s'.built[sid].es == e ensures SessionHeld(s', sid) {
      SessionStays(s, s', t, e, sid);
    }
  }

  lemma WaitingDone(s: Node, t: nat, o: Choice, e: nat)
    requires AtWork(s, t, e) && s.threads[t].Wait? && UsesHeld(s, e) && SessionsHeld(s)
    ensures Done(s, EndStep(s, t, o), t, e) && EndStep(s, t, o).built == s.built
  {
    var s' := EndStep(s, t, o);
    EndRole(s, t, o);
    assert s' == Goto(s, t, s'.threads[t]);
    forall x: Side, c: nat | InUse(s', e, x, c) ensures InUse(s, e, x, c) {
    }
    StillHeld(s, s', t, e);
    forall sid: nat | sid < |s'.built| && s'.built[sid].es == e ensures SessionHeld(s', sid) {
      assert SessionHeld(s, sid);
    }
  }

  // ---------- Building a session, or closing one unpublished ----------

  lemma CreateShape(s: Node, t: nat, o: Choice, e: nat)
    requires AtWork(s, t, e) && s.threads[t].CreateSession?
    ensures var s', pc := EndStep(s, t, o), s.threads[t];
            && EndShape(s, s', t, e) && s'.slots == s.slots && |s'.built| == |s.built| + 1
            && s'.built == s.built + [s'.built[|s.built|]]
            && var x := s'.built[|s.built|];
               && x.es == e && x.conn == pc.conn && x.activeEnd == pc.activeEnd
               && (OwnsCore(x) ==> s'.conns == s.conns)
               && (forall c: nat :: c < |s.conns| && c != pc.conn ==>
                     |s'.conns| == |s.conns| && s'.conns[c] == s.conns[c])
               && |s'.conns| == |s.conns|
  {
  }

  /** At this point `e` has no session. */
  lemma FirstSession(s: Node, t: nat, e: nat)
    requires AtEnd(s, t, e) && s.threads[t].CreateSession?
    ensures forall sid: nat :: sid < |s.built| ==> s.built[sid].es != e
  {
    forall sid: nat | sid < |s.built| ensures s.built[sid].es != e {
      assert SessionHeld(s, sid);
    }
  }

  lemma CreateDone(s: Node, t: nat, o: Choice, e: nat)
    requires AtEnd(s, t, e) && s.threads[t].CreateSession? && OnePerEstablishment(s)
    ensures Done(s, EndStep(s, t, o), t, e) && OnePerEstablishment(EndStep(s, t, o))
  {
    var s', pc := EndStep(s, t, o), s.threads[t];
    EndRole(s, t, o);
    CreateShape(s, t, o, e);
    FirstSession(s, t, e);
    assert ChosenAs(s, e, SideOf(pc.activeEnd), pc.conn);
    assert Held(s, e, SideOf(pc.activeEnd), pc.conn);
    assert Spares(s, s', t, e);
    EndUses(s, s', t, e);
    NewSessionHeld(s, s', t, e);
  }

  lemma NewSessionHeld(s: Node, s': Node, t: nat, e: nat)
    requires AtEnd(s, t, e) && EndShape(s, s', t, e) && SameRole(s, s', t) && s'.slots == s.slots
    requires |s'.built| == |s.built| + 1 && |s'.conns| == |s.conns|
    requires var x := s'.built[|s.built|];
             x.es == e && (OwnsCore(x) ==> s'.conns == s.conns && Held(s, e, SideOf(x.activeEnd), x.conn))
    ensures SessionHeld(s', |s.built|)
  {
  }

  lemma AbortShape(s: Node, t: nat, o: Choice, e: nat)
    requires AtWork(s, t, e) && s.threads[t].Abort?
    ensures var s', sid := EndStep(s, t, o), s.threads[t].sid;
            && EndShape(s, s', t, e) && sid < |s.built| && s.built[sid].es == e
            && |s'.conns| == |s.conns| && |s'.built| == |s.built|
            && s'.built == s.built[sid := s.built[sid].(phase := s'.built[sid].phase)]
            && (if s.built[sid].phase.Live? then
                  && s'.built[sid].phase.Gone?
                  && forall c: nat :: c < |s.conns| && c != s.built[sid].conn ==> s'.conns[c] == s.conns[c]
                else s'.built == s.built && s'.conns == s.conns)
  {
  }

  lemma AbortDone(s: Node, t: nat, o: Choice, e: nat)
    requires AtEnd(s, t, e) && s.threads[t].Abort? && OnePerEstablishment(s)
    ensures Done(s, EndStep(s, t, o), t, e) && |EndStep(s, t, o).built| == |s.built|
    ensures forall sid: nat :: sid < |s.built| ==> EndStep(s, t, o).built[sid].es == s.built[sid].es
  {
    var s', sid := EndStep(s, t, o), s.threads[t].sid;
    EndRole(s, t, o);
    AbortShape(s, t, o, e);
    assert SessionHeld(s, sid);
    assert Spares(s, s', t, e);
    EndUses(s, s', t, e);
    forall y: nat | y < |s'.built| && s'.built[y].es == e ensures SessionHeld(s', y) {
      assert y == sid;
    }
  }

  // ---------- Every step ----------

  lemma RunnerDone(s: Node, t: nat, o: Choice, e: nat)
    requires ThreadsOk(s) && AtWork(s, t, e) && IsRunning(s.threads[t]) && Owners(s) && RunnerStep(s, t, o) != s
    ensures Done(s, RunnerStep(s, t, o), t, e)
  {
    assert UsesHeld(s, e) && PendingOpen(s, t);
    match s.threads[t] {
      case StartActive(_) => StartActiveDone(s, t, o, e);
      case StartPassive(_, _, _) => StartPassiveDone(s, t, o, e);
      case Guard(_, _, _) => TalkDone(s, t, o, e);
      case Io(_, _, _) => TalkDone(s, t, o, e);
      case Dialing(_) => DialingDone(s, t, o, e);
      case Succeeding(_, _, _) => SucceedingDone(s, t, o, e);
      case Failing(_, _, _, _) => FailingDone(s, t, o, e);
      case _ => ChangeDone(s, t, o, e);
    }
  }

  lemma RunnerOwners(s: Node, t: nat, o: Choice, e: nat)
    requires ThreadsOk(s) && SlotsOk(s) && Owners(s) && AtWork(s, t, e) && IsRunning(s.threads[t])
    ensures Owners(RunnerStep(s, t, o))
  {
    var s' := RunnerStep(s, t, o);
    if s' != s {
      RunnerStepEffect(s, t, o);
      RunnerDone(s, t, o, e);
      WorkOwners(s, s', t, e);
    }
  }

  lemma ThreadOwners(s: Node, t: nat, o: Choice, e: nat)
    requires Inv(s) && Owners(s) && t < |s.threads| && EsOf(s.threads[t]) == Some(e)
    ensures Owners(ThreadStep(s, t, o))
  {
    assert ThreadOk(s, t) && SlotOk(s, e);
    if IsRunning(s.threads[t]) {
      RunnerOwners(s, t, o, e);
    } else {
      EndOwners(s, t, o, e);
      WorkOwners(s, EndStep(s, t, o), t, e);
    }
  }

  lemma EndOwners(s: Node, t: nat, o: Choice, e: nat)
    requires ThreadsOk(s) && Owners(s) && AtWork(s, t, e) && !IsRunning(s.threads[t])
    ensures var s' := EndStep(s, t, o);
            && Done(s, s', t, e) && OnePerEstablishment(s') && |s.built| <= |s'.built|
            && (forall sid: nat :: |s.built| <= sid < |s'.built| ==> s'.built[sid].es == e)
            && (forall sid: nat :: sid < |s.built| ==> s'.built[sid].es == s.built[sid].es)
  {
    assert UsesHeld(s, e);
    if s.threads[t].Wait? {
      WaitingDone(s, t, o, e);
    } else if s.threads[t].CreateSession? {
      CreateDone(s, t, o, e);
      CreateShape(s, t, o, e);
    } else if s.threads[t].Abort? {
      AbortDone(s, t, o, e);
    } else {
      PassEndDone(s, t, o, e);
    }
  }

  // ---------- Everything else ----------

  /** Nothing handed to an establishment is touched, except that session `gone` may close its own core. */
  predicate Bystands(s: Node, s': Node, gone: Option<nat>) {
    && |s.threads| <= |s'.threads| && |s.slots| <= |s'.slots| && |s'.built| == |s.built| && |s.conns| <= |s'.conns|
    && (forall u: nat :: u < |s.threads| ==> Role(s'.threads[u]) == Role(s.threads[u]))
    && (forall u: nat :: u < |s'.threads| ==>
          || (u < |s.threads| && s'.threads[u] == s.threads[u])
          || (RunnerSide(s'.threads[u]).None? && (u < |s.threads| ==> EsOf(s.threads[u]).None?)))
    && (forall x: nat :: x < |s.slots| ==> s'.slots[x] == s.slots[x])
    && (forall x: nat :: |s.slots| <= x < |s'.slots| ==>
          s'.slots[x] == Slot(s'.slots[x].remote, FRESH, None, None, None))
    && (forall sid: nat :: sid < |s.built| ==>
          && s'.built[sid] == s.built[sid].(phase := s'.built[sid].phase, lock := s'.built[sid].lock)
          && (OwnsCore(s'.built[sid]) ==> OwnsCore(s.built[sid]) && gone != Some(sid)))
    && (gone.Some? ==> gone.value < |s.built| && OwnsCore(s.built[gone.value]))
    && (forall c: nat :: c < |s.conns| && s.conns[c].es.Some? ==>
          s'.conns[c] == s.conns[c] || (gone.Some? && c == s.built[gone.value].conn))
  }

  /** An establishment that has built its session has no other connection in use. */
  lemma SpentUnused(s: Node, sid: nat, x: Side, c: nat)
    requires ThreadsOk(s) && sid < |s.built| && SessionHeld(s, sid)
    ensures !InUse(s, s.built[sid].es, x, c)
  {
    var slot := s.slots[s.built[sid].es];
    var r := slot.Runner(x);
    if r.Some? && r.value < |s.threads| { assert ThreadOk(s, r.value); }
    if slot.mutex.Some? && slot.mutex.value < |s.threads| { assert ThreadOk(s, slot.mutex.value); }
  }

  lemma BystandHeld(s: Node, s': Node, gone: Option<nat>, e: nat, side: Side, c: nat)
    requires Bystands(s, s', gone) && Held(s, e, side, c) && (gone.Some? ==> c != s.built[gone.value].conn)
    ensures Held(s', e, side, c)
  {
  }

  lemma BystandUses(s: Node, s': Node, gone: Option<nat>, e: nat)
    requires ThreadsOk(s) && SlotsOk(s) && Owners(s) && Bystands(s, s', gone) && e < |s'.slots|
    ensures UsesHeld(s', e)
  {
    forall side: Side, c: nat | InUse(s', e, side, c) ensures Held(s', e, side, c) {
      assert e < |s.slots|;
      assert SlotOk(s, e);
      assert InUse(s, e, side, c);
      assert UsesHeld(s, e) && Held(s, e, side, c);
      if gone.Some? {
        assert SessionHeld(s, gone.value);
        SpentUnused(s, gone.value, side, c);
      }
      BystandHeld(s, s', gone, e, side, c);
    }
  }

  lemma BystandSession(s: Node, s': Node, gone: Option<nat>, sid: nat)
    requires SlotsOk(s) && Owners(s) && Bystands(s, s', gone) && sid < |s.built|
    ensures SessionHeld(s', sid)
  {
    assert SessionHeld(s, sid) && SlotOk(s, s.built[sid].es);
    var x := s.built[sid];
    if OwnsCore(s'.built[sid]) {
      if gone.Some? { assert SessionHeld(s, gone.value); }
      BystandHeld(s, s', gone, x.es, SideOf(x.activeEnd), x.conn);
    }
  }

  lemma BystandOwners(s: Node, s': Node, gone: Option<nat>)
    requires Inv(s) && Owners(s) && Bystands(s, s', gone)
    requires forall u: nat :: u < |s'.threads| ==> PendingOpen(s', u)
    ensures Owners(s')
  {
    forall x: nat | x < |s'.slots| ensures UsesHeld(s', x) { BystandUses(s, s', gone, x); }
    forall sid: nat | sid < |s'.built| ensures SessionHeld(s', sid) { BystandSession(s, s', gone, sid); }
  }

  lemma LookupBystands(s: Node, t: nat, o: Choice)
    requires t < |s.threads| && EsOf(s.threads[t]).None? && PendingOpen(s, t)
    ensures Bystands(s, LookupStep(s, t, o), None)
  {
    var s1, r, c := LookupShape(s, t, o);
    LookupRole(s, t, o);
    LookupStartsNothing(s, t, o);
  }

  lemma LookupStartsNothing(s: Node, t: nat, o: Choice)
    requires t < |s.threads| && t < |LookupStep(s, t, o).threads| && EsOf(s.threads[t]).None?
    ensures RunnerSide(LookupStep(s, t, o).threads[t]).None?
  {
    if s.threads[t].ReadApply? || s.threads[t].FetchPassive? { PassiveLookupStartsNothing(s, t, o); }
  }

  lemma PassiveLookupStartsNothing(s: Node, t: nat, o: Choice)
    requires t < |s.threads| && (s.threads[t].ReadApply? || s.threads[t].FetchPassive?)
    ensures t < |LookupStep(s, t, o).threads| && RunnerSide(LookupStep(s, t, o).threads[t]).None?
  {
  }

  lemma LookupPendingOpen(s: Node, t: nat, o: Choice, u: nat)
    requires t < |s.threads| && u < |s.threads| && PendingOpen(s, t) && PendingOpen(s, u)
    ensures u < |LookupStep(s, t, o).threads| && PendingOpen(LookupStep(s, t, o), u)
  {
    var s1, r, c := LookupShape(s, t, o);
    LookupHolds(s, t, o);
  }

  lemma LookupOwners(s: Node, t: nat, o: Choice)
    requires Inv(s) && Owners(s) && t < |s.threads| && EsOf(s.threads[t]).None?
    ensures Owners(LookupStep(s, t, o))
  {
    assert PendingOpen(s, t);
    LookupBystands(s, t, o);
    var s1, r, c := LookupShape(s, t, o);
    forall u: nat | u < |s.threads| ensures PendingOpen(LookupStep(s, t, o), u) {
      assert PendingOpen(s, u);
      LookupPendingOpen(s, t, o, u);
    }
    BystandOwners(s, LookupStep(s, t, o), None);
  }

  lemma ArrivalOwners(s: Node, a: Label)
    requires Inv(s) && Owners(s) && (a.StartService? || a.CallConnect? || a.Incoming?)
    ensures Owners(Step(s, a))
  {
    var s' := Step(s, a);
    forall u: nat | u < |s'.threads| ensures PendingOpen(s', u) {
      if u < |s.threads| { assert PendingOpen(s, u); }
    }
    BystandOwners(s, s', None);
  }

  /** The session whose core this label closes. */
  function Closes(s: Node, a: Label): Option<nat> {
    if a.CloseCore? && a.sid < |s.built| && s.built[a.sid].phase.Closing? then Some(a.sid) else None
  }

  lemma CloseBystands(s: Node, a: Label)
    ensures Bystands(s, CloseStep(s, a), Closes(s, a)) && CloseStep(s, a).threads == s.threads
    ensures forall c: nat :: c < |s.conns| && (Closes(s, a).None? || c != s.built[Closes(s, a).value].conn) ==>
              CloseStep(s, a).conns[c] == s.conns[c]
  {
  }

  lemma ShutdownBystands(s: Node, a: Label)
    ensures Bystands(s, ShutdownStep(s, a), None)
    ensures ShutdownStep(s, a).threads == s.threads && ShutdownStep(s, a).conns == s.conns
  {
  }

  lemma CloseOwners(s: Node, a: Label)
    requires Inv(s) && Owners(s)
    ensures Owners(CloseStep(s, a))
  {
    var s', gone := CloseStep(s, a), Closes(s, a);
    CloseBystands(s, a);
    forall u: nat | u < |s'.threads| ensures PendingOpen(s', u) {
      assert PendingOpen(s, u);
      if gone.Some? { assert SessionHeld(s, gone.value); }
    }
    BystandOwners(s, s', gone);
  }

  lemma HandlerBystands(s: Node, a: Label)
    ensures Bystands(s, HandlerStep(s, a), None)
    ensures HandlerStep(s, a).threads == s.threads && HandlerStep(s, a).conns == s.conns
  {
  }

  lemma HandlerOwners(s: Node, a: Label)
    requires Inv(s) && Owners(s)
    ensures Owners(HandlerStep(s, a))
  {
    HandlerBystands(s, a);
    forall u: nat | u < |s.threads| ensures PendingOpen(HandlerStep(s, a), u) {
      assert PendingOpen(s, u);
    }
    BystandOwners(s, HandlerStep(s, a), None);
  }

  lemma ShutdownOwners(s: Node, a: Label)
    requires Inv(s) && Owners(s)
    ensures Owners(ShutdownStep(s, a))
  {
    ShutdownBystands(s, a);
    forall u: nat | u < |s.threads| ensures PendingOpen(ShutdownStep(s, a), u) {
      assert PendingOpen(s, u);
    }
    BystandOwners(s, ShutdownStep(s, a), None);
  }

  lemma StepOwners(s: Node, a: Label)
    requires Inv(s) && Owners(s)
    ensures Owners(Step(s, a))
  {
    match a {
      case Thread(t, o) =>
        if t < |s.threads| {
          if EsOf(s.threads[t]).Some? { ThreadOwners(s, t, o, EsOf(s.threads[t]).value); }
          else { LookupOwners(s, t, o); }
        }
      case StartService => ArrivalOwners(s, a);
      case CallConnect(_) => ArrivalOwners(s, a);
      case Incoming => ArrivalOwners(s, a);
      case CloseSession(_) => CloseOwners(s, a);
      case CloseCore(_) => CloseOwners(s, a);
      case Unpublish(_) => CloseOwners(s, a);
      case LockToClose(_) => HandlerOwners(s, a);
      case LetGo(_) => HandlerOwners(s, a);
      case CloseLocked(_) => HandlerOwners(s, a);
      case _ => ShutdownOwners(s, a);
    }
  }

  lemma {:induction false} RunOwners(s: Node, labels: seq<Label>)
    requires Inv(s) && Owners(s)
    ensures Inv(Run(s, labels)) && Owners(Run(s, labels))
    decreases |labels|
  {
    if labels != [] {
      StepInv(s, labels[0]);
      StepOwners(s, labels[0]);
      RunOwners(Step(s, labels[0]), labels[1..]);
    }
  }

  // ---------- What it means ----------

  /** A session that has not closed its core has a connection of its own: it is open, it was handed to the
      establishment that built the session, no other session that has not closed its core has it, and this
      node dialed it exactly if it is the active end. */
  lemma SessionKeepsItsConnection(self: NodeId, labels: seq<Label>, sid: nat, other: nat)
    ensures var s := Run(Initial(self), labels);
            sid < |s.built| && OwnsCore(s.built[sid]) ==>
              var x := s.built[sid];
              && x.conn < |s.conns| && !s.conns[x.conn].closed && s.conns[x.conn].es == Some(x.es)
              && s.conns[x.conn].opener < |s.threads|
              && (Role(s.threads[s.conns[x.conn].opener]).Active? <==> x.activeEnd)
              && (other < |s.built| && OwnsCore(s.built[other]) && s.built[other].conn == x.conn ==> other == sid)
  {
    InitialInv(self);
    RunOwners(Initial(self), labels);
    var s := Run(Initial(self), labels);
    if sid < |s.built| { assert SessionHeld(s, sid); }
    if other < |s.built| { assert SessionHeld(s, other); }
  }

  /** An establishment builds at most one session. */
  lemma AtMostOneSession(self: NodeId, labels: seq<Label>, x: nat, y: nat)
    ensures var s := Run(Initial(self), labels);
            x < |s.built| && y < |s.built| && s.built[x].es == s.built[y].es ==> x == y
  {
    InitialInv(self);
    RunOwners(Initial(self), labels);
  }

  /** What is open of the connections handed to an ended establishment: that of the session it built, while this
      has not closed its core; and if its dialer exited early, the one its acceptor is still at work with, or
      has been left with. The three exclude one another. */
  lemma WhatSurvives(self: NodeId, labels: seq<Label>, e: nat, c: nat)
    ensures var s := Run(Initial(self), labels);
            e < |s.slots| && s.slots[e].es.IsEnd() && s.slots[e].mutex.None?
            && c < |s.conns| && s.conns[c].es == Some(e) ==>
              && (!s.conns[c].closed <==> Owned(s, e, c) || Carried(s, e, Passive, c) || Stranded(s.slots[e].es, c))
              && !(Owned(s, e, c) && Carried(s, e, Passive, c))
              && !(Owned(s, e, c) && Stranded(s.slots[e].es, c))
              && !(Carried(s, e, Passive, c) && Stranded(s.slots[e].es, c))
  {
    InitialInv(self);
    RunOwners(Initial(self), labels);
    var s := Run(Initial(self), labels);
    if e < |s.slots| && s.slots[e].es.IsEnd() && s.slots[e].mutex.None? && c < |s.conns| && s.conns[c].es == Some(e) {
      ConnectionsAreAccountedFor(self, labels, e, c);
      assert UsesHeld(s, e);
      assert InUse(s, e, Passive, c) ==> Held(s, e, Passive, c);
      if Owned(s, e, c) {
        var sid: nat :| OwnedBy(s, e, c, sid);
        assert SessionHeld(s, sid);
        SpentUnused(s, sid, Passive, c);
      }
      var r := s.slots[e].acceptor;
      if r.Some? && r.value < |s.threads| { assert ThreadOk(s, r.value); }
    }
  }

  /** Exactly one connection survives an ended establishment whose dialer did not exit early: the open one is
      that of the session it built, while this has not closed its core; and none is if there is no such session. */
  lemma ExactlyOneSurvives(self: NodeId, labels: seq<Label>, e: nat, c: nat)
    ensures var s := Run(Initial(self), labels);
            e < |s.slots| && s.slots[e].es.IsEnd() && s.slots[e].mutex.None? && !ExitedEarly(s.slots[e].es)
            && c < |s.conns| && s.conns[c].es == Some(e) ==>
              (!s.conns[c].closed <==> Owned(s, e, c))
  {
    Reachable(self, labels);
    var s := Run(Initial(self), labels);
    if e < |s.slots| && s.slots[e].es.IsEnd() && s.slots[e].mutex.None? && !ExitedEarly(s.slots[e].es) {
      assert SlotOk(s, e);
      WhatSurvives(self, labels, e, c);
      QuietCarriesNothing(s, e, c);
    }
  }

  /** "Every connection is closed or has an owner" fails for exactly one family: a connection handed to an ended
      establishment is open with neither a session nor a goroutine to it if and only if the dialer exited early
      and the acceptor succeeded with it. */
  lemma LeakedExactlyIfStranded(self: NodeId, labels: seq<Label>, e: nat, c: nat)
    ensures var s := Run(Initial(self), labels);
            e < |s.slots| && s.slots[e].es.IsEnd() && s.slots[e].mutex.None?
            && c < |s.conns| && s.conns[c].es == Some(e) ==>
              (!s.conns[c].closed && !Owned(s, e, c) && !Carried(s, e, Active, c) && !Carried(s, e, Passive, c)
               <==> Stranded(s.slots[e].es, c))
  {
    Reachable(self, labels);
    WhatSurvives(self, labels, e, c);
    var s := Run(Initial(self), labels);
    if e < |s.slots| && s.slots[e].es.IsEnd() { ActiveIsOver(s, e, c); }
  }

  /** The connection a goroutine talks on is open and its own, until it closes it itself. */
  lemma TalksOnAnOpenConnection(self: NodeId, labels: seq<Label>, t: nat)
    ensures var s := Run(Initial(self), labels);
            t < |s.threads| && s.threads[t].Io? ==>
              Held(s, s.threads[t].e, StageSide(s.threads[t].stage), s.threads[t].conn)
  {
    InitialInv(self);
    RunOwners(Initial(self), labels);
    var s := Run(Initial(self), labels);
    if t < |s.threads| && s.threads[t].Io? {
      var pc := s.threads[t];
      assert ThreadOk(s, t);
      assert UsesHeld(s, pc.e);
      assert InUse(s, pc.e, StageSide(pc.stage), pc.conn);
    }
  }
}
