/** Where every connection handed to an establishment is, over every run of a node. */
module NodeConnections {
  import opened Wrappers
  import opened NodeIds
  import opened Establish
  import opened NodeModel
  import opened NodeInvariant
  import opened NodeTheorems

  function ConnOf(pc: Pc): Option<nat> {
    match pc
    case Guard(_, _, oc) => oc
    case Handshaking(_, c) => Some(c)
    case Io(_, c, _) => Some(c)
    case AboutToSucceed(_, c) => Some(c)
    case Succeeding(_, _, c) => Some(c)
    case Failing(_, _, oc, _) => oc
    case _ => None
  }

  /** The goroutine running `side` of `e` has it. */
  predicate Carried(s: Node, e: nat, side: Side, c: nat)
    requires e < |s.slots|
  {
    InFlight(s, e, side) && ConnOf(s.threads[s.slots[e].Runner(side).value]) == Some(c)
  }

  /** `side` has succeeded with it and waits for the other direction. */
  predicate Parked(slot: Slot, side: Side, c: nat) {
    slot.mutex.None? && !slot.es.IsEnd() && slot.es.IsSuccess(side) && slot.es.Conn(side) == Some(c)
  }

  /** `establishEnd` is about to build a session on it. */
  predicate Chosen(s: Node, e: nat, c: nat)
    requires e < |s.slots|
  {
    s.slots[e].mutex.Some? && s.slots[e].mutex.value < |s.threads| &&
    var pc := s.threads[s.slots[e].mutex.value];
    pc.CreateSession? && pc.e == e && pc.conn == c
  }

  /** A session that has not closed its core owns it. */
  predicate OwnedBy(s: Node, e: nat, c: nat, sid: nat) {
    sid < |s.built| && s.built[sid].conn == c && s.built[sid].es == e
    && (s.built[sid].phase.Live? || s.built[sid].phase.Closing?)
  }

  ghost predicate Owned(s: Node, e: nat, c: nat) {
    exists sid: nat :: OwnedBy(s, e, c, sid)
  }

  /** The dialer ended `e` by its early exit; the acceptor's handshake has gone through all the same, and nobody
      will look at its connection again. */
  predicate Stranded(es: Est, c: nat) {
    ExitedEarly(es) && es.IsSuccess(Passive) && es.Conn(Passive) == Some(c)
  }

  ghost predicate Accounted(s: Node, e: nat, c: nat) {
    e < |s.slots| &&
    (|| Carried(s, e, Active, c) || Carried(s, e, Passive, c)
     || Parked(s.slots[e], Active, c) || Parked(s.slots[e], Passive, c)
     || Chosen(s, e, c)
     || Owned(s, e, c)
     || Stranded(s.slots[e].es, c))
  }

  ghost predicate ConnOk(s: Node, c: nat)
    requires c < |s.conns|
  {
    s.conns[c].closed || s.conns[c].es.None? || Accounted(s, s.conns[c].es.value, c)
  }

  ghost predicate ConnsOk(s: Node) {
    forall c: nat :: c < |s.conns| ==> ConnOk(s, c)
  }

  /** The connection of a goroutine still looking up its establishment. */
  function Pending(pc: Pc): Option<nat> {
    match pc
    case ReadApply(c) => Some(c)
    case FetchPassive(_, c, _) => Some(c)
    case StartPassive(_, c, _) => Some(c)
    case _ => None
  }

  /** It came to that goroutine and has not been handed to any establishment. */
  predicate PendingOk(s: Node, t: nat)
    requires t < |s.threads|
  {
    Pending(s.threads[t]).Some? ==>
      var c := Pending(s.threads[t]).value;
      c < |s.conns| && s.conns[c].opener == t && s.conns[c].es.None?
  }

  predicate PendingsOk(s: Node) {
    forall t: nat :: t < |s.threads| ==> PendingOk(s, t)
  }

  // ---------- Connections of other establishments ----------

  predicate ConnsGrow(s: Node, s': Node) {
    && |s.conns| <= |s'.conns|
    && forall c: nat :: c < |s.conns| ==>
         && (s.conns[c].closed ==> s'.conns[c].closed)
         && (s.conns[c].es.Some? ==> s'.conns[c].es == s.conns[c].es)
         && s'.conns[c].opener == s.conns[c].opener
  }

  predicate OtherSessionsKept(s: Node, s': Node, e: nat) {
    |s.built| <= |s'.built| &&
    forall sid: nat :: sid < |s.built| && s.built[sid].es != e ==> s'.built[sid] == s.built[sid]
  }

  lemma OwnedElsewhere(s: Node, s': Node, e: nat, x: nat, c: nat)
    requires OtherSessionsKept(s, s', e) && x != e && Owned(s, x, c)
    ensures Owned(s', x, c)
  {
    var sid :| OwnedBy(s, x, c, sid);
    assert OwnedBy(s', x, c, sid);
  }

  lemma AccountedElsewhere(s: Node, s': Node, t: nat, e: nat, x: nat, c: nat)
    requires t < |s.threads| && e < |s.slots| && EsOf(s.threads[t]) == Some(e) && x != e
    requires |s'.threads| == |s.threads|
    requires forall u: nat :: u < |s.threads| && u != t ==> s'.threads[u] == s.threads[u]
    requires |s'.slots| == |s.slots| && (forall y: nat :: y < |s.slots| && y != e ==> s'.slots[y] == s.slots[y])
    requires OtherSessionsKept(s, s', e)
    requires Accounted(s, x, c)
    ensures Accounted(s', x, c)
  {
    assert s'.slots[x] == s.slots[x];
    if Owned(s, x, c) { OwnedElsewhere(s, s', e, x, c); }
  }

  // ---------- Connections of the establishment at work ----------

  lemma CarriedKept(s: Node, s': Node, t: nat, e: nat, side: Side, c: nat)
    requires t < |s.threads| && e < |s.slots| && Frame(s, s', t, e)
    requires Carried(s, e, side, c) && s.slots[e].Runner(side) != Some(t)
    ensures Carried(s', e, side, c)
  {
    var u := s.slots[e].Runner(side).value;
    assert s'.threads[u] == s.threads[u];
  }

  lemma OwnedKept(s: Node, s': Node, e: nat, c: nat)
    requires Owned(s, e, c) && |s.built| <= |s'.built|
    requires forall sid: nat :: sid < |s.built| ==>
               s'.built[sid].conn == s.built[sid].conn && s'.built[sid].es == s.built[sid].es
                                                    && s'.built[sid].phase == s.built[sid].phase
    ensures Owned(s', e, c)
  {
    var sid :| OwnedBy(s, e, c, sid);
    assert OwnedBy(s', e, c, sid);
  }

  ghost predicate Settled(s: Node, e: nat, c: nat) {
    c < |s.conns| && (s.conns[c].closed || Accounted(s, e, c))
  }

  /** A plain step of `t` on `e`: only what `t` carried, or what waited for the decision, needs a look. */
  lemma PlainKeeps(s: Node, s': Node, t: nat, e: nat, c: nat)
    requires t < |s.threads| && e < |s.slots| && Plain(s, s', t, e) && c < |s'.conns|
    requires Accounted(s, e, c)
    requires forall side :: Carried(s, e, side, c) && s.slots[e].Runner(side) == Some(t) ==> Settled(s', e, c)
    requires forall side :: Parked(s.slots[e], side, c) ==> Settled(s', e, c)
    requires Chosen(s, e, c) ==> Settled(s', e, c)
    requires Stranded(s.slots[e].es, c) ==> Settled(s', e, c)
    ensures Settled(s', e, c)
  {
    PlainMaps(s, s', t, e);
    if Carried(s, e, Active, c) && s.slots[e].Runner(Active) != Some(t) { CarriedKept(s, s', t, e, Active, c); }
    if Carried(s, e, Passive, c) && s.slots[e].Runner(Passive) != Some(t) { CarriedKept(s, s', t, e, Passive, c); }
    if Owned(s, e, c) { OwnedKept(s, s', e, c); }
  }

  /** `establishEnd` keeps the connection of a direction that succeeded, or closes it. */
  lemma DecisionSettles(s: Node, t: nat, e: nat, side: Side, x: Side, c: nat)
    requires t < |s.threads| && e < |s.slots| && c < |s.conns|
    requires s.slots[e].es.WellFormed() && s.slots[e].es.IsStarted(side) && !s.slots[e].es.IsEnd()
    requires !s.slots[e].es.IsEstablishing(side) && !s.slots[e].es.IsEstablishing(side.Other())
    requires s.slots[e].es.IsSuccess(x) && s.slots[e].es.Conn(x) == Some(c)
    ensures Settled(MaybeEnd(s, t, e, side), e, c)
  {
    var es := s.slots[e].es;
    var d := es.Decide(Less(s.self, s.slots[e].remote));
    DecideTotal(es, Less(s.self, s.slots[e].remote));
    var s' := MaybeEnd(s, t, e, side);
    assert d.conn == Some(c) || d.drop == Some(c);
    if d.conn == Some(c) { assert Chosen(s', e, c); }
  }

  /** One direction ends with `a`, the connections being as in `s1` by then. */
  predicate Finishing(s: Node, s1: Node, t: nat, e: nat, side: Side, a: Attempt, c: nat) {
    && t < |s.threads| && RunnerOk(s, t, e, side) && NoRival(s, e) && SlotOk(s, e) && s.slots[e].mutex.None?
    && EsOf(s.threads[t]) == Some(e) && RunnerSide(s.threads[t]) == Some(side)
    && a.IsEnd() && AttemptOk(Some(a)) && |s.conns| == |s1.conns| && c < |s.conns|
    && s1 == SetEs(s, e, s.slots[e].es.With(side, a)).(conns := s1.conns)
    && (s1.conns[c].closed || (a.IsSuccess() && a.conn == ConnOf(s.threads[t])) || ConnOf(s.threads[t]) != Some(c))
  }

  /** The end of one direction, whatever it carried and whatever waited for it. */
  lemma FinishSettles(s: Node, s1: Node, t: nat, e: nat, side: Side, a: Attempt, c: nat)
    requires Finishing(s, s1, t, e, side, a, c) && Accounted(s, e, c)
    ensures Settled(MaybeEnd(s1, t, e, side), e, c)
  {
    if s1.conns[c].closed {
      assert MaybeEnd(s1, t, e, side).conns[c].closed;
    } else if s.slots[e].es.IsEstablishing(side.Other()) {
      WaitSettles(s, s1, t, e, side, a, c);
    } else {
      DecideSettles(s, s1, t, e, side, a, c);
    }
  }

  lemma WaitSettles(s: Node, s1: Node, t: nat, e: nat, side: Side, a: Attempt, c: nat)
    requires Finishing(s, s1, t, e, side, a, c) && Accounted(s, e, c)
    requires !s1.conns[c].closed && s.slots[e].es.IsEstablishing(side.Other())
    ensures Settled(MaybeEnd(s1, t, e, side), e, c)
  {
    var es := s1.slots[e].es;
    var s' := MaybeEnd(s1, t, e, side);
    assert es.Of(side) == Some(a) && es.Of(side.Other()) == s.slots[e].es.Of(side.Other());
    assert es.active == es.Of(Active) && es.passive == es.Of(Passive);
    FinishWaits(s, t, e, side, a, s1.conns);
    assert s' == Goto(s1, t, Wait(e, side));
    PlainKeeps(s, s', t, e, c);
  }

  lemma DecideSettles(s: Node, s1: Node, t: nat, e: nat, side: Side, a: Attempt, c: nat)
    requires Finishing(s, s1, t, e, side, a, c) && Accounted(s, e, c)
    requires !s1.conns[c].closed && !s.slots[e].es.IsEstablishing(side.Other())
    ensures Settled(MaybeEnd(s1, t, e, side), e, c)
  {
    var es := s1.slots[e].es;
    assert es.Of(side) == Some(a) && es.Of(side.Other()) == s.slots[e].es.Of(side.Other());
    assert es.active == es.Of(Active) && es.passive == es.Of(Passive);
    NotEndedYet(s, t, e, side);
    FinishDecides(s, t, e, side, a, s1.conns);
    assert es.WellFormed();
    if Parked(s.slots[e], side.Other(), c) { DecisionSettles(s1, t, e, side, side.Other(), c); }
    if a.IsSuccess() && a.conn == Some(c) { DecisionSettles(s1, t, e, side, side, c); }
    PlainKeeps(s, MaybeEnd(s1, t, e, side), t, e, c);
  }

  // ---------- Every step ----------

  predicate AtWork(s: Node, t: nat, e: nat) {
    t < |s.threads| && EsOf(s.threads[t]) == Some(e) && e < |s.slots| && ThreadOk(s, t) && SlotOk(s, e)
  }

  lemma SucceedingSettles(s: Node, t: nat, o: Choice, e: nat, c: nat)
    requires AtWork(s, t, e) && s.threads[t].Succeeding? && c < |s.conns| && Accounted(s, e, c)
    ensures Settled(RunnerStep(s, t, o), e, c)
  {
    var pc := s.threads[t];
    if s.slots[e].mutex.None? {
      var a := s.slots[e].es.Of(pc.side).value.ChangeState(SUCCESS).(conn := Some(pc.conn));
      var s1 := SetEs(s, e, s.slots[e].es.With(pc.side, a));
      assert s1 == s1.(conns := s1.conns);
      FinishSettles(s, s1, t, e, pc.side, a, c);
    }
  }

  lemma FailingSettles(s: Node, t: nat, o: Choice, e: nat, c: nat)
    requires AtWork(s, t, e) && s.threads[t].Failing? && c < |s.conns| && Accounted(s, e, c)
    ensures Settled(RunnerStep(s, t, o), e, c)
  {
    var pc := s.threads[t];
    if s.slots[e].mutex.None? {
      var a := s.slots[e].es.Of(pc.side).value.ChangeState(FAIL).(err := Some(pc.err));
      var s1 := CloseConn(SetEs(s, e, s.slots[e].es.With(pc.side, a)), pc.oc);
      assert s1 == SetEs(s, e, s.slots[e].es.With(pc.side, a)).(conns := s1.conns);
      FinishSettles(s, s1, t, e, pc.side, a, c);
    }
  }

  predicate Moving(pc: Pc) {
    IsRunning(pc) && !pc.Succeeding? && !pc.Failing?
  }

  predicate Obliged(s: Node, s': Node, t: nat, o: Choice, e: nat, c: nat) {
    AtWork(s, t, e) && c < |s.conns| && s' == RunnerStep(s, t, o) && s' != s
  }

  lemma StartObligations(s: Node, s': Node, t: nat, o: Choice, e: nat, c: nat)
    requires Obliged(s, s', t, o, e, c) && (s.threads[t].StartActive? || s.threads[t].StartPassive?)
    ensures forall side :: !(Carried(s, e, side, c) && s.slots[e].Runner(side) == Some(t))
    ensures forall side :: Parked(s.slots[e], side, c) ==> Parked(s'.slots[e], side, c) && |s'.conns| == |s.conns|
    ensures !Chosen(s, e, c)
    ensures Stranded(s.slots[e].es, c) ==> Stranded(s'.slots[e].es, c) && |s'.conns| == |s.conns|
  {
  }

  lemma TalkObligations(s: Node, s': Node, t: nat, o: Choice, e: nat, c: nat)
    requires Obliged(s, s', t, o, e, c) && (s.threads[t].Guard? || s.threads[t].Dialing? || s.threads[t].Io?)
    requires ThreadOk(s', t)
    ensures s'.slots == s.slots && |s.conns| <= |s'.conns|
    ensures forall side :: Carried(s, e, side, c) && s.slots[e].Runner(side) == Some(t) ==> Carried(s', e, side, c)
    ensures Chosen(s, e, c) ==> Chosen(s', e, c)
  {
  }

  lemma ChangeObligations(s: Node, s': Node, t: nat, o: Choice, e: nat, c: nat)
    requires Obliged(s, s', t, o, e, c)
    requires s.threads[t].Exit? || s.threads[t].Handshaking? || s.threads[t].AboutToSucceed?
    ensures s'.conns == s.conns && !Chosen(s, e, c)
    ensures forall side :: Carried(s, e, side, c) && s.slots[e].Runner(side) == Some(t) ==> Carried(s', e, side, c)
    ensures forall side :: Parked(s.slots[e], side, c) ==> Parked(s'.slots[e], side, c) || Stranded(s'.slots[e].es, c)
    ensures !Stranded(s.slots[e].es, c)
  {
  }

  lemma MoveSettles(s: Node, t: nat, o: Choice, e: nat, c: nat)
    requires AtWork(s, t, e) && Moving(s.threads[t]) && MapsOk(s) && c < |s.conns| && Accounted(s, e, c)
    ensures Settled(RunnerStep(s, t, o), e, c)
  {
    RunnerStepLocal(s, t, o);
    var s' := RunnerStep(s, t, o);
    if s' != s {
      match s.threads[t] {
        case StartActive(_) => StartSettles(s, s', t, o, e, c);
        case StartPassive(_, _, _) => StartSettles(s, s', t, o, e, c);
        case Guard(_, _, _) => TalkSettles(s, s', t, o, e, c);
        case Dialing(_) => TalkSettles(s, s', t, o, e, c);
        case Io(_, _, _) => TalkSettles(s, s', t, o, e, c);
        case _ => ChangeSettles(s, s', t, o, e, c);
      }
    }
  }

  lemma StartSettles(s: Node, s': Node, t: nat, o: Choice, e: nat, c: nat)
    requires Obliged(s, s', t, o, e, c) && (s.threads[t].StartActive? || s.threads[t].StartPassive?)
    requires Plain(s, s', t, e) && Accounted(s, e, c)
    ensures Settled(s', e, c)
  {
    StartObligations(s, s', t, o, e, c);
    PlainKeeps(s, s', t, e, c);
  }

  lemma TalkSettles(s: Node, s': Node, t: nat, o: Choice, e: nat, c: nat)
    requires Obliged(s, s', t, o, e, c) && (s.threads[t].Guard? || s.threads[t].Dialing? || s.threads[t].Io?)
    requires Plain(s, s', t, e) && ThreadOk(s', t) && Accounted(s, e, c)
    ensures Settled(s', e, c)
  {
    TalkObligations(s, s', t, o, e, c);
    PlainKeeps(s, s', t, e, c);
  }

  lemma ChangeSettles(s: Node, s': Node, t: nat, o: Choice, e: nat, c: nat)
    requires Obliged(s, s', t, o, e, c)
    requires s.threads[t].Exit? || s.threads[t].Handshaking? || s.threads[t].AboutToSucceed?
    requires Plain(s, s', t, e) && Accounted(s, e, c)
    ensures Settled(s', e, c)
  {
    ChangeObligations(s, s', t, o, e, c);
    PlainKeeps(s, s', t, e, c);
  }

  lemma EndSettles(s: Node, t: nat, o: Choice, e: nat, c: nat)
    requires AtWork(s, t, e) && (s.threads[t].GiveUp? || s.threads[t].Signal? || s.threads[t].Wait?)
    requires c < |s.conns| && Accounted(s, e, c)
    ensures Settled(EndStep(s, t, o), e, c)
  {
    var s' := EndStep(s, t, o);
    EndsPlainlyLocal(s, t, o);
    assert Chosen(s, e, c) ==> Chosen(s', e, c);
    PlainKeeps(s, s', t, e, c);
  }

  predicate Concluding(pc: Pc) {
    pc.Forget? || pc.CreateSession? || pc.LockSession? || pc.Publish? || pc.Abort?
  }

  lemma BuildOwners(s: Node, t: nat, o: Choice, e: nat, c: nat, sid: nat)
    requires AtWork(s, t, e) && Concluding(s.threads[t]) && c < |s.conns|
    ensures c < |EndStep(s, t, o).conns|
    ensures OwnedBy(s, e, c, sid) ==> EndStep(s, t, o).conns[c].closed || OwnedBy(EndStep(s, t, o), e, c, sid)
  {
  }

  lemma BuildChoice(s: Node, t: nat, o: Choice, e: nat, c: nat)
    requires AtWork(s, t, e) && Concluding(s.threads[t]) && c < |s.conns|
    ensures var s' := EndStep(s, t, o);
            && |s'.slots| == |s.slots| && s'.slots[e].es == s.slots[e].es
            && (Chosen(s, e, c) ==> c < |s'.conns| && (s'.conns[c].closed || OwnedBy(s', e, c, |s.built|)))
  {
  }

  lemma BuildSettles(s: Node, t: nat, o: Choice, e: nat, c: nat)
    requires AtWork(s, t, e) && Concluding(s.threads[t])
    requires MapsOk(s) && c < |s.conns| && Accounted(s, e, c)
    ensures Settled(EndStep(s, t, o), e, c)
  {
    BuildFrame(s, t, o, e);
    BuildChoice(s, t, o, e, c);
    SettledBuild(s, EndStep(s, t, o), t, o, e, c);
  }

  lemma SettledBuild(s: Node, s': Node, t: nat, o: Choice, e: nat, c: nat)
    requires AtWork(s, t, e) && Concluding(s.threads[t]) && Frame(s, s', t, e)
    requires c < |s.conns| && Accounted(s, e, c) && s' == EndStep(s, t, o) && s'.slots[e].es == s.slots[e].es
    requires Chosen(s, e, c) ==> s'.conns[c].closed || OwnedBy(s', e, c, |s.built|)
    ensures Settled(s', e, c)
  {
    if Carried(s, e, Active, c) { CarriedKept(s, s', t, e, Active, c); }
    if Carried(s, e, Passive, c) { CarriedKept(s, s', t, e, Passive, c); }
    if Owned(s, e, c) {
      var sid :| OwnedBy(s, e, c, sid);
      BuildOwners(s, t, o, e, c, sid);
    }
  }

  lemma BuildFrame(s: Node, t: nat, o: Choice, e: nat)
    requires AtWork(s, t, e) && Concluding(s.threads[t]) && MapsOk(s)
    ensures Frame(s, EndStep(s, t, o), t, e)
  {
    match s.threads[t] {
      case Forget(_, _) => ForgetFrame(s, t, o);
      case Publish(_, _, _) => PublishFrame(s, t, o);
      case _ => BuilderFrame(s, t, o);
    }
  }

  lemma WorkSettles(s: Node, t: nat, o: Choice, e: nat, c: nat)
    requires AtWork(s, t, e) && MapsOk(s) && c < |s.conns| && Accounted(s, e, c)
    ensures Settled(ThreadStep(s, t, o), e, c)
  {
    var pc := s.threads[t];
    if pc.Succeeding? { SucceedingSettles(s, t, o, e, c); }
    else if pc.Failing? { FailingSettles(s, t, o, e, c); }
    else if IsRunning(pc) { MoveSettles(s, t, o, e, c); }
    else if Concluding(pc) { BuildSettles(s, t, o, e, c); }
    else { EndSettles(s, t, o, e, c); }
  }

  /** What a goroutine's step does to the connections and to other establishments. */
  ghost predicate WorkEffect(s: Node, s': Node, t: nat, e: nat)
    requires t < |s.threads|
  {
    && |s'.threads| == |s.threads| && (forall u: nat :: u < |s.threads| && u != t ==> s'.threads[u] == s.threads[u])
    && |s'.slots| == |s.slots| && (forall y: nat :: y < |s.slots| && y != e ==> s'.slots[y] == s.slots[y])
    && OtherSessionsKept(s, s', e)
    && ConnsGrow(s, s') && (forall c: nat :: |s.conns| <= c < |s'.conns| ==> s'.conns[c].es.Some?)
    && (Pending(s'.threads[t]).Some? ==> s'.threads[t] == s.threads[t] && s'.conns == s.conns)
    && (forall c: nat :: c < |s.conns| && s.conns[c].es.None? && s'.conns[c].es.Some? ==> s.conns[c].opener == t)
    && (forall c: nat :: c < |s'.conns| && (c < |s.conns| ==> s.conns[c].es.None?) && s'.conns[c].es.Some? ==>
          s'.conns[c].closed || (s'.conns[c].es == Some(e) && Accounted(s', e, c)))
  }

  lemma NewlyCarried(s: Node, s': Node, t: nat, e: nat, side: Side, c: nat)
    requires t < |s'.threads| && e < |s'.slots| && s'.slots[e].Runner(side) == Some(t)
    requires EsOf(s'.threads[t]) == Some(e) && RunnerSide(s'.threads[t]) == Some(side)
    requires ConnOf(s'.threads[t]) == Some(c)
    ensures Accounted(s', e, c)
  {
    assert Carried(s', e, side, c);
  }

  lemma ConcludeWork(s: Node, t: nat, e: nat, side: Side, d: Decision)
    requires t < |s.threads| && e < |s.slots|
    ensures WorkEffect(s, Conclude(s, t, e, side, d), t, e)
  {
  }

  lemma FinishWork(s: Node, s1: Node, s': Node, t: nat, e: nat, side: Side)
    requires t < |s.threads| && e < |s.slots| && e < |s1.slots|
    requires s1.threads == s.threads && s1.built == s.built && |s1.slots| == |s.slots|
    requires forall y: nat :: y < |s.slots| && y != e ==> s1.slots[y] == s.slots[y]
    requires ConnsGrow(s, s1) && |s1.conns| == |s.conns|
    requires forall c: nat :: c < |s.conns| ==> s1.conns[c].es == s.conns[c].es
    requires s' == MaybeEnd(s1, t, e, side)
    ensures WorkEffect(s, s', t, e)
  {
    ConcludeWork(s1, t, e, side, s1.slots[e].es.Decide(Less(s1.self, s1.slots[e].remote)));
  }

  lemma SucceedingWork(s: Node, t: nat, o: Choice, e: nat)
    requires t < |s.threads| && e < |s.slots| && s.threads[t].Succeeding? && s.threads[t].e == e
    ensures WorkEffect(s, RunnerStep(s, t, o), t, e)
  {
    var pc := s.threads[t];
    if s.slots[e].mutex.None? && s.slots[e].es.Succeed(pc.side, pc.conn).ok {
      FinishWork(s, SetEs(s, e, s.slots[e].es.Succeed(pc.side, pc.conn).es), RunnerStep(s, t, o), t, e, pc.side);
    }
  }

  /** A failing direction closes at most its own connection. */
  lemma FailedState(s: Node, e: nat, es: Est, oc: Option<nat>)
    requires e < |s.slots|
    ensures var s1 := CloseConn(SetEs(s, e, es), oc);
            && s1.threads == s.threads && s1.built == s.built && |s1.slots| == |s.slots|
            && (forall y: nat :: y < |s.slots| && y != e ==> s1.slots[y] == s.slots[y])
            && ConnsGrow(s, s1) && |s1.conns| == |s.conns|
            && forall c: nat :: c < |s.conns| ==> s1.conns[c].es == s.conns[c].es
  {
  }

  lemma FailingWork(s: Node, t: nat, o: Choice, e: nat)
    requires t < |s.threads| && e < |s.slots| && s.threads[t].Failing? && s.threads[t].e == e
    requires s.slots[e].mutex.None? ==> s.slots[e].es.Fail(s.threads[t].side, s.threads[t].err).ok
    ensures WorkEffect(s, RunnerStep(s, t, o), t, e)
  {
    var pc := s.threads[t];
    if s.slots[e].mutex.None? {
      var es := s.slots[e].es.Fail(pc.side, pc.err).es;
      FailingIs(s, t, o);
      FailedState(s, e, es, pc.oc);
      FinishWork(s, CloseConn(SetEs(s, e, es), pc.oc), RunnerStep(s, t, o), t, e, pc.side);
    }
  }

  lemma StartPassiveWork(s: Node, t: nat, o: Choice, e: nat)
    requires AtWork(s, t, e) && s.threads[t].StartPassive? && PendingOk(s, t)
    ensures WorkEffect(s, RunnerStep(s, t, o), t, e)
  {
    var s', c := RunnerStep(s, t, o), s.threads[t].conn;
    HandOver(s, t, o, e);
    if s'.threads[t].Guard? { NewlyCarried(s, s', t, e, Passive, c); }
  }

  /** The connection is handed over, or closed, or the goroutine has to wait for the mutex. */
  lemma HandOver(s: Node, t: nat, o: Choice, e: nat)
    requires AtWork(s, t, e) && s.threads[t].StartPassive?
    ensures var s', c := RunnerStep(s, t, o), s.threads[t].conn;
            && s'.threads == s.threads[t := s'.threads[t]] && s'.slots == s.slots[e := s'.slots[e]]
            && |s'.conns| == |s.conns| && s'.conns == s.conns[c := s'.conns[c]] && s'.built == s.built
            && (|| s' == s
                || (s'.threads[t].Served? && s'.conns[c] == s.conns[c].(closed := true))
                || (s'.threads[t] == Guard(e, Passive, Some(c)) && s'.conns[c] == s.conns[c].(es := Some(e))
                    && s'.slots[e].acceptor == Some(t)))
  {
  }

  lemma DialingWork(s: Node, t: nat, o: Choice, e: nat)
    requires AtWork(s, t, e) && s.threads[t].Dialing?
    ensures WorkEffect(s, RunnerStep(s, t, o), t, e)
  {
    var s' := RunnerStep(s, t, o);
    if o.ok { NewlyCarried(s, s', t, e, Active, |s.conns|); }
  }

  lemma MoveWork(s: Node, t: nat, o: Choice, e: nat)
    requires AtWork(s, t, e) && Moving(s.threads[t]) && !s.threads[t].StartPassive? && !s.threads[t].Dialing?
    ensures WorkEffect(s, RunnerStep(s, t, o), t, e)
  {
    if s.threads[t].Guard? || s.threads[t].Io? { TalkWork(s, t, o, e); } else { ChangeWork(s, t, o, e); }
  }

  lemma TalkWork(s: Node, t: nat, o: Choice, e: nat)
    requires AtWork(s, t, e) && (s.threads[t].Guard? || s.threads[t].Io?)
    ensures WorkEffect(s, RunnerStep(s, t, o), t, e)
  {
  }

  lemma ChangeWork(s: Node, t: nat, o: Choice, e: nat)
    requires AtWork(s, t, e)
    requires s.threads[t].StartActive? || s.threads[t].Exit? || s.threads[t].Handshaking? ||
             s.threads[t].AboutToSucceed?
    ensures WorkEffect(s, RunnerStep(s, t, o), t, e)
  {
  }

  lemma EndWork(s: Node, t: nat, o: Choice, e: nat)
    requires AtWork(s, t, e)
    requires s.threads[t].GiveUp? || s.threads[t].Signal? || s.threads[t].Wait? || s.threads[t].Forget?
    ensures WorkEffect(s, EndStep(s, t, o), t, e)
  {
  }

  lemma BuildWork(s: Node, t: nat, o: Choice, e: nat)
    requires AtWork(s, t, e) && Concluding(s.threads[t]) && !s.threads[t].Forget?
    ensures WorkEffect(s, EndStep(s, t, o), t, e)
  {
    if s.threads[t].Abort? || s.threads[t].Publish? { SettleWork(s, t, o, e); } else { CreateWork(s, t, o, e); }
  }

  lemma SettleWork(s: Node, t: nat, o: Choice, e: nat)
    requires AtWork(s, t, e) && (s.threads[t].Abort? || s.threads[t].Publish?)
    ensures WorkEffect(s, EndStep(s, t, o), t, e)
  {
  }

  lemma CreateWork(s: Node, t: nat, o: Choice, e: nat)
    requires AtWork(s, t, e) && (s.threads[t].CreateSession? || s.threads[t].LockSession?)
    ensures WorkEffect(s, EndStep(s, t, o), t, e)
  {
  }

  lemma ThreadWork(s: Node, t: nat, o: Choice, e: nat)
    requires AtWork(s, t, e) && PendingOk(s, t)
    ensures WorkEffect(s, ThreadStep(s, t, o), t, e)
  {
    var pc := s.threads[t];
    if pc.Succeeding? { SucceedingWork(s, t, o, e); }
    else if pc.Failing? { FailingWork(s, t, o, e); }
    else if pc.StartPassive? { StartPassiveWork(s, t, o, e); }
    else if pc.Dialing? { DialingWork(s, t, o, e); }
    else if IsRunning(pc) { MoveWork(s, t, o, e); }
    else if Concluding(pc) && !pc.Forget? { BuildWork(s, t, o, e); }
    else { EndWork(s, t, o, e); }
  }

  lemma ThreadConns(s: Node, t: nat, o: Choice, e: nat)
    requires Inv(s) && ConnsOk(s) && PendingsOk(s) && t < |s.threads| && EsOf(s.threads[t]) == Some(e)
    ensures ConnsOk(ThreadStep(s, t, o)) && PendingsOk(ThreadStep(s, t, o))
  {
    assert ThreadOk(s, t) && SlotOk(s, e) && PendingOk(s, t);
    ThreadWork(s, t, o, e);
    var s' := ThreadStep(s, t, o);
    forall c: nat | c < |s'.conns| ensures ConnOk(s', c) {
      if c < |s.conns| && s.conns[c].es.Some? && !s.conns[c].closed {
        assert ConnOk(s, c);
        var x := s.conns[c].es.value;
        if x == e { WorkSettles(s, t, o, e, c); } else { AccountedElsewhere(s, s', t, e, x, c); }
      }
    }
    forall u: nat | u < |s'.threads| ensures PendingOk(s', u) {
      assert PendingOk(s, u);
    }
  }

  /** Steps of nobody at work on an establishment: what carries, awaits or owns a connection stays. */
  predicate Aside(s: Node, s': Node) {
    && |s.threads| <= |s'.threads|
    && (forall u: nat :: u < |s.threads| && EsOf(s.threads[u]).Some? ==> s'.threads[u] == s.threads[u])
    && |s.slots| <= |s'.slots| && (forall x: nat :: x < |s.slots| ==> s'.slots[x] == s.slots[x])
    && |s.built| == |s'.built|
    && (forall sid: nat :: sid < |s.built| ==>
          && s'.built[sid].conn == s.built[sid].conn && s'.built[sid].es == s.built[sid].es
          && ((s.built[sid].phase.Live? || s.built[sid].phase.Closing?) ==>
                (s'.built[sid].phase.Live? || s'.built[sid].phase.Closing?
                 || (s.built[sid].conn < |s'.conns| ==> s'.conns[s.built[sid].conn].closed))))
    && ConnsGrow(s, s')
    && (forall c: nat :: c < |s'.conns| && s'.conns[c].es.Some? ==> c < |s.conns| && s.conns[c].es.Some?)
  }

  lemma AsideConns(s: Node, s': Node)
    requires ConnsOk(s) && Aside(s, s')
    ensures ConnsOk(s')
  {
    forall c: nat | c < |s'.conns| ensures ConnOk(s', c) {
      if c < |s.conns| && s.conns[c].es.Some? && !s'.conns[c].closed {
        assert ConnOk(s, c);
        var x := s.conns[c].es.value;
        if Owned(s, x, c) {
          var sid :| OwnedBy(s, x, c, sid);
          assert OwnedBy(s', x, c, sid);
        }
      }
    }
  }

  lemma GotoAside(s: Node, s1: Node, t: nat, pc: Pc)
    requires Aside(s, s1) && s1.threads == s.threads && t < |s.threads| && EsOf(s.threads[t]).None?
    ensures Aside(s, Goto(s1, t, pc))
  {
  }

  lemma GetOrCreateAside(s: Node, r: NodeId)
    ensures Aside(s, GetOrCreate(s, r).0) && GetOrCreate(s, r).0.threads == s.threads
  {
  }

  lemma CloseConnAside(s: Node, c: nat)
    ensures Aside(s, CloseConn(s, Some(c))) && CloseConn(s, Some(c)).threads == s.threads
  {
  }

  lemma LookupAside(s: Node, t: nat, o: Choice)
    requires t < |s.threads| && EsOf(s.threads[t]).None?
    ensures Aside(s, LookupStep(s, t, o))
  {
    var s1, r, c := LookupShape(s, t, o);
    GetOrCreateAside(s, r);
    CloseConnAside(s, c);
    GotoAside(s, s1, t, LookupStep(s, t, o).threads[t]);
  }

  /** A goroutine looking up its establishment keeps its connection or lets go of it. */
  lemma LookupHolds(s: Node, t: nat, o: Choice)
    requires t < |s.threads|
    ensures var ths := LookupStep(s, t, o).threads;
            |ths| == |s.threads| && ths == s.threads[t := ths[t]]
            && (Pending(ths[t]).Some? ==> Pending(ths[t]) == Pending(s.threads[t]))
  {
    var _, _, _ := LookupShape(s, t, o);
    LookupHoldsAt(s, t, o);
  }

  lemma LookupHoldsAt(s: Node, t: nat, o: Choice)
    requires t < |s.threads| && t < |LookupStep(s, t, o).threads|
    ensures var pc := LookupStep(s, t, o).threads[t];
            Pending(pc).Some? ==> Pending(pc) == Pending(s.threads[t])
  {
  }

  lemma LookupPending(s: Node, t: nat, o: Choice, u: nat)
    requires t < |s.threads| && u < |s.threads| && PendingOk(s, u)
    requires Aside(s, LookupStep(s, t, o))
    ensures u < |LookupStep(s, t, o).threads| && PendingOk(LookupStep(s, t, o), u)
  {
    LookupHolds(s, t, o);
  }

  lemma LookupConns(s: Node, t: nat, o: Choice)
    requires ConnsOk(s) && PendingsOk(s) && t < |s.threads| && EsOf(s.threads[t]).None?
    ensures ConnsOk(LookupStep(s, t, o)) && PendingsOk(LookupStep(s, t, o))
  {
    LookupAside(s, t, o);
    AsideConns(s, LookupStep(s, t, o));
    LookupHolds(s, t, o);
    forall u: nat | u < |s.threads| ensures PendingOk(LookupStep(s, t, o), u) {
      assert PendingOk(s, u);
      LookupPending(s, t, o, u);
    }
  }

  lemma ArrivalAside(s: Node, a: Label)
    requires a.StartService? || a.CallConnect? || a.Incoming?
    ensures Aside(s, Step(s, a))
    ensures PendingsOk(s) ==> PendingsOk(Step(s, a))
  {
    var s' := Step(s, a);
    if PendingsOk(s) {
      forall u: nat | u < |s'.threads| ensures PendingOk(s', u) {
        if u < |s.threads| { assert PendingOk(s, u); }
      }
    }
  }

  /** Once something is handed over it stays so: pending connections are none of these steps' business. */
  lemma PendingsKept(s: Node, s': Node)
    requires PendingsOk(s) && Aside(s, s') && s'.threads == s.threads
    ensures PendingsOk(s')
  {
    forall u: nat | u < |s'.threads| ensures PendingOk(s', u) {
      assert PendingOk(s, u);
    }
  }

  lemma CloseAside(s: Node, a: Label)
    ensures Aside(s, CloseStep(s, a)) && CloseStep(s, a).threads == s.threads
  {
  }

  lemma HandlerAside(s: Node, a: Label)
    ensures Aside(s, HandlerStep(s, a)) && HandlerStep(s, a).threads == s.threads
  {
  }

  lemma ShutdownAside(s: Node, a: Label)
    ensures Aside(s, ShutdownStep(s, a)) && ShutdownStep(s, a).threads == s.threads
  {
  }

  lemma AsideKeeps(s: Node, s': Node)
    requires ConnsOk(s) && PendingsOk(s) && Aside(s, s') && s'.threads == s.threads
    ensures ConnsOk(s') && PendingsOk(s')
  {
    AsideConns(s, s');
    PendingsKept(s, s');
  }

  lemma StepConns(s: Node, a: Label)
    requires Inv(s) && ConnsOk(s) && PendingsOk(s)
    ensures ConnsOk(Step(s, a)) && PendingsOk(Step(s, a))
  {
    if a.Thread? {
      if a.t < |s.threads| {
        if EsOf(s.threads[a.t]).Some? {
          ThreadConns(s, a.t, a.choice, EsOf(s.threads[a.t]).value);
        } else {
          LookupConns(s, a.t, a.choice);
        }
      }
    } else if a.StartService? || a.CallConnect? || a.Incoming? {
      ArrivalAside(s, a);
      AsideConns(s, Step(s, a));
    } else if a.CloseSession? || a.CloseCore? || a.Unpublish? {
      CloseAside(s, a);
      AsideKeeps(s, CloseStep(s, a));
    } else if a.LockToClose? || a.LetGo? || a.CloseLocked? {
      HandlerAside(s, a);
      AsideKeeps(s, HandlerStep(s, a));
    } else {
      ShutdownAside(s, a);
      AsideKeeps(s, ShutdownStep(s, a));
    }
  }

  lemma {:induction false} RunConns(s: Node, labels: seq<Label>)
    requires Inv(s) && ConnsOk(s) && PendingsOk(s)
    ensures ConnsOk(Run(s, labels))
    decreases |labels|
  {
    if labels != [] {
      StepInv(s, labels[0]);
      StepConns(s, labels[0]);
      RunConns(Step(s, labels[0]), labels[1..]);
    }
  }

  lemma QuietCarriesNothing(s: Node, e: nat, c: nat)
    requires Inv(s) && e < |s.slots| && Quiet(s.slots[e].es)
    ensures !Carried(s, e, Active, c) && !Carried(s, e, Passive, c)
  {
    var slot := s.slots[e];
    if slot.dialer.Some? && slot.dialer.value < |s.threads| { assert ThreadOk(s, slot.dialer.value); }
    if slot.acceptor.Some? && slot.acceptor.value < |s.threads| { assert ThreadOk(s, slot.acceptor.value); }
  }

  /** Connection accounting: once an establishment has ended, every connection it was handed is closed, or
      belongs to a session it built that has not closed its core yet, which if live is the published one; or else
      its dialer exited early, and the connection is still with its acceptor or stranded. */
  lemma ConnectionsAreAccountedFor(self: NodeId, labels: seq<Label>, e: nat, c: nat)
    ensures var s := Run(Initial(self), labels);
            e < |s.slots| && s.slots[e].es.IsEnd() && s.slots[e].mutex.None?
            && c < |s.conns| && s.conns[c].es == Some(e) && !s.conns[c].closed ==>
              || (exists sid: nat :: OwnedBy(s, e, c, sid) && (IsLive(s, sid) ==> s.built[sid].published))
              || (ExitedEarly(s.slots[e].es) && Carried(s, e, Passive, c))
              || Stranded(s.slots[e].es, c)
  {
    Reachable(self, labels);
    RunConns(Initial(self), labels);
    var s := Run(Initial(self), labels);
    if e < |s.slots| && s.slots[e].es.IsEnd() && s.slots[e].mutex.None?
       && c < |s.conns| && s.conns[c].es == Some(e) && !s.conns[c].closed {
      assert SlotOk(s, e) && ConnOk(s, c);
      if Owned(s, e, c) {
        var sid: nat :| OwnedBy(s, e, c, sid);
        BuiltIsPublishedOrClosed(self, labels, sid);
      } else if !ExitedEarly(s.slots[e].es) {
        QuietCarriesNothing(s, e, c);
      } else {
        ActiveIsOver(s, e, c);
      }
    }
  }

  /** The dialer of an ended establishment carries nothing. */
  lemma ActiveIsOver(s: Node, e: nat, c: nat)
    requires Inv(s) && e < |s.slots| && s.slots[e].es.IsEnd()
    ensures !Carried(s, e, Active, c)
  {
    var r := s.slots[e].dialer;
    if r.Some? && r.value < |s.threads| { assert ThreadOk(s, r.value); }
  }
}
