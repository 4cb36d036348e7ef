/** What every step of a node keeps. Goroutines: each has, in its establishment, the state its statement presupposes
    (ThreadsOk). Establishments: one that has started and not ended has somebody at work on it, and only by ending
    does it leave the map (SlotsOk). Sessions: a live one is the published one for its remote, or still in the hands of
    the goroutine that built it (SessionsOk). The proof goes statement by statement: what a step does to its own
    goroutine and establishment first (LocalStep, FramedStep), then what it leaves to all others. */
module NodeInvariant {
  import opened Wrappers
  import opened NodeIds
  import opened Establish
  import opened NodeModel

  predicate Mapped(s: Node, e: nat) {
    e < |s.slots| && s.slots[e].remote in s.establishments && s.establishments[s.slots[e].remote] == e
  }

  /** While `e` is the entry for its remote, no live session is published for that remote. */
  predicate NoRival(s: Node, e: nat) {
    e < |s.slots| && (Mapped(s, e) ==> GetSession(s, s.slots[e].remote).None?)
  }

  /** The establishment a goroutine works for. */
  function EsOf(pc: Pc): Option<nat> {
    match pc
    case StartActive(e) => Some(e)
    case StartPassive(e, _, _) => Some(e)
    case Guard(e, _, _) => Some(e)
    case Exit(e, _, _) => Some(e)
    case Dialing(e) => Some(e)
    case Handshaking(e, _) => Some(e)
    case Io(e, _, _) => Some(e)
    case AboutToSucceed(e, _) => Some(e)
    case Succeeding(e, _, _) => Some(e)
    case Failing(e, _, _, _) => Some(e)
    case GiveUp(e, _, _) => Some(e)
    case Forget(e, _) => Some(e)
    case CreateSession(e, _, _, _) => Some(e)
    case LockSession(e, _, _) => Some(e)
    case Publish(e, _, _) => Some(e)
    case Abort(e, _, _) => Some(e)
    case Signal(e, _, _) => Some(e)
    case Wait(e, _) => Some(e)
    case _ => None
  }

  /** The direction a goroutine is running, from its start to its outcome. */
  function RunnerSide(pc: Pc): Option<Side> {
    match pc
    case Guard(_, side, _) => Some(side)
    case Exit(_, side, _) => Some(side)
    case Dialing(_) => Some(Active)
    case Handshaking(_, _) => Some(Active)
    case Io(_, _, g) => Some(StageSide(g))
    case AboutToSucceed(_, _) => Some(Active)
    case Succeeding(_, side, _) => Some(side)
    case Failing(_, side, _, _) => Some(side)
    case _ => None
  }

  /** How far the direction is while its goroutine stands at `pc`. */
  function ReachedAt(pc: Pc): nat {
    match pc
    case Guard(_, side, _) => if side.Active? then CONNECT else HANDSHAKE
    case Exit(_, _, _) => CONNECT
    case Dialing(_) => CONNECT
    case Handshaking(_, _) => CONNECT
    case Io(_, _, g) => if g.SendCompleted? || g.AwaitAck? then ABOUT_SUCCESS else HANDSHAKE
    case Succeeding(_, side, _) => if side.Active? then ABOUT_SUCCESS else HANDSHAKE
    case _ => HANDSHAKE
  }

  /** A failing direction may be anywhere short of its end. */
  predicate StateAt(pc: Pc, state: nat) {
    if pc.Failing? then CONNECT <= state <= ABOUT_SUCCESS else state == ReachedAt(pc)
  }

  predicate RunnerOk(s: Node, t: nat, e: nat, side: Side)
    requires t < |s.threads|
  {
    && e < |s.slots|
    && s.slots[e].Runner(side) == Some(t)
    && s.slots[e].es.IsEstablishing(side)
    && StateAt(s.threads[t], s.slots[e].es.Of(side).value.state)
    && (side.Active? ==> !s.slots[e].es.IsEnd())
    && (side.Passive? ==> NoRival(s, e))
  }

  predicate EndingOk(s: Node, t: nat, e: nat)
    requires t < |s.threads|
  {
    && e < |s.slots|
    && s.slots[e].mutex == Some(t)
    && s.slots[e].es.state == (if s.threads[t].Forget? then END else STARTED)
    && s.threads[t].Signal? == !Mapped(s, e)
    && NoRival(s, e)
  }

  predicate InHand(s: Node, e: nat, sid: nat, published: bool) {
    && e < |s.slots| && sid < |s.built|
    && s.built[sid].es == e && s.built[sid].remote == s.slots[e].remote
    && s.built[sid].published == published
  }

  predicate PublishedFor(s: Node, r: NodeId, sid: nat) {
    sid < |s.built| && s.built[sid].published && s.built[sid].remote == r
  }

  /** At work on a direction, no session having been found at its start. */
  predicate PastGuard(pc: Pc) {
    RunnerSide(pc).Some? && !pc.Guard? && !pc.Exit?
  }

  /** What the statement `pc` finds as it needs it. */
  predicate Equipped(s: Node, pc: Pc) {
    && (pc.StartActive? ==> pc.e < |s.slots|)
    && (pc.ReadApply? || pc.FetchPassive? || pc.StartPassive? ==> pc.conn < |s.conns|)
    && (pc.StartPassive? || PastGuard(pc) ==> NoRival(s, pc.e))
    && (pc.Guard? ==> pc.oc.Some? == pc.side.Passive?)
    && (pc.Exit? ==> pc.side.Active? && pc.e < |s.slots| && PublishedFor(s, s.slots[pc.e].remote, pc.sid))
    && (pc.Failing? || pc.GiveUp? ==> !pc.err.UnknownEndStatus?)
    && (pc.LockSession? || pc.Publish? || pc.Abort? || pc.Signal? ==> InHand(s, pc.e, pc.sid, pc.Signal?))
    && (pc.Wait? ==> pc.e < |s.slots| && s.slots[pc.e].es.state >= STARTED)
    && (pc.Returned? ==>
          && (pc.session.Some? ==> pc.session.value < |s.built| && s.built[pc.session.value].published)
          && pc.session.Some? != pc.failure.Some?)
  }

  predicate ThreadOk(s: Node, t: nat)
    requires t < |s.threads|
  {
    var pc := s.threads[t];
    && (RunnerSide(pc).Some? ==> RunnerOk(s, t, pc.e, RunnerSide(pc).value))
    && (IsEnding(pc) ==> EndingOk(s, t, pc.e))
    && Equipped(s, pc)
  }

  predicate AttemptOk(a: Option<Attempt>) {
    a.Some? ==>
      && CONNECT <= a.value.state <= FAIL
      && (a.value.IsSuccess() ==> a.value.conn.Some?)
      && (a.value.IsFail() ==> a.value.err.Some? && a.value.err != Some(UnknownEndStatus))
  }

  predicate Quiet(es: Est) {
    !es.IsEstablishing(Active) && !es.IsEstablishing(Passive)
  }

  predicate InFlight(s: Node, e: nat, side: Side)
    requires e < |s.slots|
  {
    s.slots[e].Runner(side).Some? &&
    var t := s.slots[e].Runner(side).value;
    t < |s.threads| && EsOf(s.threads[t]) == Some(e) && RunnerSide(s.threads[t]) == Some(side)
  }

  /** The establishment by itself. */
  predicate SlotShape(slot: Slot) {
    var es := slot.es;
    && AttemptOk(es.active) && AttemptOk(es.passive)
    && (es.passive.Some? ==> HANDSHAKE <= es.passive.value.state)
    && (es.active.Some? <==> slot.dialer.Some?) && (es.passive.Some? <==> slot.acceptor.Some?)
    && (es.active.Some? || es.passive.Some? <==> es.state != 0)
    && es.state <= END
    && es.signals == (if es.IsEnd() then 1 else 0)
    && (es.IsEnd() ==> es.session.Some? != es.err.Some?)
    && (es.err != Some(UnknownEndStatus))
    && (slot.mutex.None? && es.state == STARTED ==> !Quiet(es))
    && (slot.mutex.Some? ==> Quiet(es) && es.state != 0)
  }

  predicate SlotOk(s: Node, e: nat)
    requires e < |s.slots|
  {
    var slot := s.slots[e];
    var es := slot.es;
    && SlotShape(slot)
    && (es.IsEnd() && es.session.Some? ==> PublishedFor(s, slot.remote, es.session.value))
    && (slot.mutex.Some? ==>
          && slot.mutex.value < |s.threads|
          && IsEnding(s.threads[slot.mutex.value]) && EsOf(s.threads[slot.mutex.value]) == Some(e)
          && (es.IsEnd() ==> s.threads[slot.mutex.value].Forget?))
    && (!es.IsEnd() ==> (es.IsEstablishing(Active) ==> InFlight(s, e, Active))
                        && (es.IsEstablishing(Passive) ==> InFlight(s, e, Passive)))
    // It leaves the map by ending, and only one way of ending does not take it out: the dialer finding a
    // session already published.
    && (!Mapped(s, e) ==> Quiet(es) && (es.IsEnd() || (slot.mutex.Some? && s.threads[slot.mutex.value].Signal?)))
    && (Mapped(s, e) && es.IsEnd() && slot.mutex.None? ==> es.active.Some? && es.active.value.state == CONNECT)
  }

  predicate SessionOk(s: Node, sid: nat)
    requires sid < |s.built|
  {
    var x := s.built[sid];
    && x.es < |s.slots| && x.remote == s.slots[x.es].remote
    && (x.phase.Live? && x.published ==> x.remote in s.sessions && s.sessions[x.remote] == sid)
    && (x.phase.Live? && !x.published ==> Holds(s, x.es, sid))
  }

  /** The goroutine ending `e` still has `sid` in hand. */
  predicate Holds(s: Node, e: nat, sid: nat)
    requires e < |s.slots|
  {
    s.slots[e].mutex.Some? && s.slots[e].mutex.value < |s.threads| &&
    var pc := s.threads[s.slots[e].mutex.value];
    (pc.LockSession? || pc.Publish? || pc.Abort?) && pc.sid == sid
  }

  predicate MapsOk(s: Node) {
    && (forall r :: r in s.sessions ==> PublishedFor(s, r, s.sessions[r]))
    && (forall r :: r in s.establishments ==>
          s.establishments[r] < |s.slots| && s.slots[s.establishments[r]].remote == r)
  }

  predicate CloserOk(s: Node) {
    match s.closer
    case Idle => !s.service.Closed?
    case Ranging(visited) => s.service.Closed? && visited !! s.sessions.Keys
    case Closing(r, sid, visited) =>
      s.service.Closed? && visited !! s.sessions.Keys && sid < |s.built| && (r in s.sessions ==> s.sessions[r] == sid)
    case Deleting(r, sid, visited) =>
      && s.service.Closed? && visited !! s.sessions.Keys && sid < |s.built| &&
         (r in s.sessions ==> s.sessions[r] == sid)
      && !s.built[sid].phase.Live?
    case Done => s.service.Closed? && s.sessions == map[]
  }

  predicate ThreadsOk(s: Node) {
    forall t: nat :: t < |s.threads| ==> ThreadOk(s, t)
  }

  predicate SlotsOk(s: Node) {
    forall e: nat :: e < |s.slots| ==> SlotOk(s, e)
  }

  predicate SessionsOk(s: Node) {
    forall sid: nat :: sid < |s.built| ==> SessionOk(s, sid)
  }

  predicate Inv(s: Node) {
    && ThreadsOk(s) && SlotsOk(s) && SessionsOk(s) && MapsOk(s) && CloserOk(s)
    && (s.service.Init? ==> |s.slots| == 0 && |s.built| == 0)
  }

  lemma InitialInv(self: NodeId)
    ensures var s' := Initial(self); Inv(s')
  {
  }

  // ---------- What one goroutine's step leaves to the others ----------

  /** Sessions keep their identity, stay published and stay closed. */
  predicate SessionsGrow(s: Node, s': Node) {
    && |s.built| <= |s'.built|
    && forall sid: nat :: sid < |s.built| ==>
         && s'.built[sid].remote == s.built[sid].remote && s'.built[sid].es == s.built[sid].es
         && (s.built[sid].published ==> s'.built[sid].published)
         && (s'.built[sid].phase.Live? ==> s.built[sid].phase.Live?)
  }

  /** Goroutine `t`, working for `e`, took a step: everybody else's part of `e` is as it was. */
  predicate Frame(s: Node, s': Node, t: nat, e: nat)
    requires e < |s.slots| && t < |s.threads|
  {
    && |s'.threads| == |s.threads| && (forall u: nat :: u < |s.threads| && u != t ==> s'.threads[u] == s.threads[u])
    && |s'.slots| == |s.slots| && (forall x: nat :: x < |s.slots| && x != e ==> s'.slots[x] == s.slots[x])
    && |s.conns| <= |s'.conns|
    && SlotFrame(s.slots[e], s'.slots[e], t)
    && SessionsGrow(s, s')
    && (forall sid: nat :: sid < |s.built| && s'.built[sid].published && !s.built[sid].published ==>
          s.built[sid].es == e && s.slots[e].mutex == Some(t))
    && (forall x: nat :: x < |s.slots| ==> (Mapped(s', x) ==> Mapped(s, x)))
    && (forall x: nat :: x < |s.slots| && (x != e || s.slots[e].mutex != Some(t)) ==>
          (Mapped(s, x) ==> Mapped(s', x)))
    && (forall x: nat :: x < |s.slots| && NoRival(s, x) ==> NoRival(s', x))
  }

  predicate SlotFrame(a: Slot, b: Slot, t: nat) {
    b == a ||
    (&& b.remote == a.remote
     && (a.dialer.Some? && a.dialer != Some(t) ==> b.dialer == a.dialer && b.es.active == a.es.active)
     && (a.acceptor.Some? && a.acceptor != Some(t) ==> b.acceptor == a.acceptor && b.es.passive == a.es.passive)
     && (a.mutex.Some? ==> a.mutex == Some(t))
     && a.es.state <= b.es.state
     && (!a.es.IsEnd() && b.es.IsEnd() && a.es.IsEstablishing(Active) ==> a.dialer == Some(t)))
  }

  lemma OtherRunnerOk(s: Node, s': Node, t: nat, e: nat, u: nat, x: nat, side: Side)
    requires e < |s.slots| && t < |s.threads| && Frame(s, s', t, e)
    requires u < |s.threads| && u != t && RunnerOk(s, u, x, side)
    ensures RunnerOk(s', u, x, side)
  {
    assert s'.threads[u] == s.threads[u];
    assert NoRival(s, x) ==> NoRival(s', x);
    if x != e { assert s'.slots[x] == s.slots[x]; }
  }

  lemma OtherEndingOk(s: Node, s': Node, t: nat, e: nat, u: nat, x: nat)
    requires e < |s.slots| && t < |s.threads| && Frame(s, s', t, e)
    requires u < |s.threads| && u != t && EndingOk(s, u, x)
    ensures EndingOk(s', u, x)
  {
    assert s'.threads[u] == s.threads[u];
    assert NoRival(s', x);
    if x != e { assert s'.slots[x] == s.slots[x]; }
    assert s'.slots[x] == s.slots[x];
    assert Mapped(s, x) ==> Mapped(s', x);
  }

  lemma OtherThreadOk(s: Node, s': Node, t: nat, e: nat, u: nat)
    requires e < |s.slots| && t < |s.threads| && Frame(s, s', t, e)
    requires u < |s.threads| && u != t && ThreadOk(s, u)
    ensures ThreadOk(s', u)
  {
    var pc := s.threads[u];
    assert s'.threads[u] == pc;
    if RunnerSide(pc).Some? {
      OtherRunnerOk(s, s', t, e, u, EsOf(pc).value, RunnerSide(pc).value);
    } else if IsEnding(pc) {
      OtherEndingOk(s, s', t, e, u, EsOf(pc).value);
    }
    if EsOf(pc).Some? {
      var x := EsOf(pc).value;
      assert NoRival(s, x) ==> NoRival(s', x);
      if x != e { assert s'.slots[x] == s.slots[x]; }
    }
  }

  lemma OtherSlotOk(s: Node, s': Node, t: nat, e: nat, x: nat)
    requires e < |s.slots| && t < |s.threads| && Frame(s, s', t, e)
    requires EsOf(s.threads[t]) == Some(e)
    requires x < |s.slots| && x != e && SlotOk(s, x)
    ensures SlotOk(s', x)
  {
    assert s'.slots[x] == s.slots[x];
    assert Mapped(s', x) == Mapped(s, x);
  }

  /** A step that changes only the goroutine, its establishment and connections. */
  predicate Plain(s: Node, s': Node, t: nat, e: nat)
    requires e < |s.slots| && t < |s.threads|
  {
    && |s'.threads| == |s.threads| && |s'.slots| == |s.slots| && |s.conns| <= |s'.conns|
    && s' == s.(threads := s.threads[t := s'.threads[t]], slots := s.slots[e := s'.slots[e]], conns := s'.conns)
    && SlotFrame(s.slots[e], s'.slots[e], t)
  }

  lemma PlainMaps(s: Node, s': Node, t: nat, e: nat)
    requires e < |s.slots| && t < |s.threads| && Plain(s, s', t, e)
    ensures forall x: nat :: x < |s.slots| ==> s'.slots[x].remote == s.slots[x].remote
    ensures forall x: nat :: x < |s.slots| ==> Mapped(s', x) == Mapped(s, x)
    ensures forall x: nat :: x < |s.slots| ==> NoRival(s', x) == NoRival(s, x)
    ensures Frame(s, s', t, e)
  {
  }

  lemma PlainInv(s: Node, s': Node, t: nat, e: nat)
    requires Inv(s) && t < |s.threads| && e < |s.slots| && EsOf(s.threads[t]) == Some(e)
    requires Plain(s, s', t, e)
    requires !s.threads[t].LockSession? && !s.threads[t].Publish? && !s.threads[t].Abort?
    requires ThreadOk(s', t) && SlotOk(s', e)
    ensures Inv(s')
  {
    PlainMaps(s, s', t, e);
    forall u: nat | u < |s'.threads| ensures ThreadOk(s', u) {
      if u != t { OtherThreadOk(s, s', t, e, u); }
    }
    forall x: nat | x < |s'.slots| ensures SlotOk(s', x) {
      if x != e { OtherSlotOk(s, s', t, e, x); }
    }
    forall sid: nat | sid < |s'.built| ensures SessionOk(s', sid) {
      PlainSessionOk(s, s', t, e, sid);
    }
    assert s.slots != [];
  }

  lemma PlainSessionOk(s: Node, s': Node, t: nat, e: nat, sid: nat)
    requires Inv(s) && t < |s.threads| && e < |s.slots| && EsOf(s.threads[t]) == Some(e)
    requires Plain(s, s', t, e)
    requires !s.threads[t].LockSession? && !s.threads[t].Publish? && !s.threads[t].Abort?
    requires sid < |s.built|
    ensures SessionOk(s', sid)
  {
    assert SessionOk(s, sid);
    var x := s.built[sid].es;
    if Holds(s, x, sid) {
      var u := s.slots[x].mutex.value;
      assert u != t;
      assert SlotOk(s, x);
      assert s'.slots[x] == s.slots[x];
    }
  }

  // ---------- The steps of one direction ----------

  lemma PlainAt(s: Node, s': Node, t: nat, e: nat)
    requires e < |s.slots| && t < |s.threads| && Plain(s, s', t, e)
    ensures Mapped(s', e) == Mapped(s, e) && NoRival(s', e) == NoRival(s, e)
  {
  }

  /** The part of the invariant a goroutine and its establishment make up. */
  predicate LocalOk(s: Node, t: nat, e: nat)
    requires t < |s.threads| && e < |s.slots|
  {
    ThreadOk(s, t) && SlotOk(s, e)
  }

  predicate LocalStep(s: Node, s': Node, t: nat, e: nat)
    requires t < |s.threads| && e < |s.slots|
  {
    Plain(s, s', t, e) && LocalOk(s', t, e)
  }

  /** `establishEnd` may follow the end of `side` with attempt `a`. */
  lemma DecidableAfter(slot: Slot, side: Side, a: Attempt, tie: bool)
    requires SlotShape(slot) && slot.es.IsEstablishing(side) && !slot.es.IsEstablishing(side.Other())
    requires a.IsEnd() && AttemptOk(Some(a)) && !slot.es.IsEnd()
    ensures var es := slot.es.With(side, a);
            var d := es.Decide(tie);
            && d.err != Some(UnknownEndStatus) && d.conn.Some? != d.err.Some?
            && forall t: nat :: SlotShape(slot.(es := es, mutex := Some(t)))
  {
    var es := slot.es.With(side, a);
    assert es.Of(side) == Some(a) && es.Of(side.Other()) == slot.es.Of(side.Other());
    assert es.WellFormed();
    DecideTotal(es, tie);
  }

  predicate AtFinish(s: Node, t: nat, e: nat, side: Side, a: Attempt, conns: seq<Connection>) {
    && t < |s.threads| && RunnerOk(s, t, e, side) && NoRival(s, e) && SlotOk(s, e)
    && EsOf(s.threads[t]) == Some(e)
    && s.slots[e].mutex.None? && a.IsEnd() && AttemptOk(Some(a)) && |s.conns| <= |conns|
  }

  /** The end of one direction while the other is still under way. */
  lemma FinishWaits(s: Node, t: nat, e: nat, side: Side, a: Attempt, conns: seq<Connection>)
    requires AtFinish(s, t, e, side, a, conns)
    requires s.slots[e].es.IsEstablishing(side.Other())
    ensures var s' := MaybeEnd(SetEs(s, e, s.slots[e].es.With(side, a)).(conns := conns), t, e, side);
            LocalStep(s, s', t, e)
  {
    var slot := s.slots[e];
    var es := slot.es.With(side, a);
    var s' := MaybeEnd(SetEs(s, e, es).(conns := conns), t, e, side);
    assert es.Of(side.Other()) == slot.es.Of(side.Other());
    assert Plain(s, s', t, e);
    PlainAt(s, s', t, e);
    assert !slot.es.IsEnd() ==> InFlight(s, e, side.Other());
    assert !slot.es.IsEnd() ==> InFlight(s', e, side.Other());
  }

  /** A direction whose opposite is over, or never started, cannot have been overtaken by the end. */
  lemma NotEndedYet(s: Node, t: nat, e: nat, side: Side)
    requires t < |s.threads| && RunnerOk(s, t, e, side) && SlotOk(s, e) && s.slots[e].mutex.None?
    requires !s.slots[e].es.IsEstablishing(side.Other())
    ensures !s.slots[e].es.IsEnd() && Mapped(s, e)
  {
  }

  /** The goroutine enters `establishEnd` with the mutex. */
  lemma EnterEnd(s: Node, t: nat, e: nat, slot: Slot, pc: Pc, conns: seq<Connection>)
    requires t < |s.threads| && e < |s.slots| && NoRival(s, e) && Mapped(s, e) && |s.conns| <= |conns|
    requires s.slots[e].mutex.None? && SlotFrame(s.slots[e], slot, t)
    requires SlotShape(slot) && slot.mutex == Some(t) && slot.es.state == STARTED && !slot.es.IsEnd()
    requires (pc.GiveUp? && !pc.err.UnknownEndStatus?) || pc.CreateSession?
    requires pc.e == e
    ensures var s' := s.(threads := s.threads[t := pc], slots := s.slots[e := slot], conns := conns);
            LocalStep(s, s', t, e)
  {
    var s' := s.(threads := s.threads[t := pc], slots := s.slots[e := slot], conns := conns);
    assert Plain(s, s', t, e);
    PlainAt(s, s', t, e);
    assert EndingOk(s', t, e);
  }

  /** The end of one direction when the other is over, or never started. */
  lemma FinishDecides(s: Node, t: nat, e: nat, side: Side, a: Attempt, conns: seq<Connection>)
    requires AtFinish(s, t, e, side, a, conns)
    requires !s.slots[e].es.IsEstablishing(side.Other())
    ensures var s' := MaybeEnd(SetEs(s, e, s.slots[e].es.With(side, a)).(conns := conns), t, e, side);
            LocalStep(s, s', t, e)
  {
    var slot := s.slots[e];
    var es := slot.es.With(side, a);
    var d := es.Decide(Less(s.self, slot.remote));
    NotEndedYet(s, t, e, side);
    DecidableAfter(slot, side, a, Less(s.self, slot.remote));
    assert es.Of(side.Other()) == slot.es.Of(side.Other());
    var s1 := SetEs(s, e, es).(conns := conns);
    var s' := MaybeEnd(s1, t, e, side);
    var slot' := slot.(es := es, mutex := Some(t));
    var pc := if d.err.Some? then GiveUp(e, side, d.err.value) else CreateSession(e, side, d.conn.value, d.active);
    EnterEnd(s, t, e, slot', pc, CloseConn(s1, d.drop).conns);
    assert s' == s.(threads := s.threads[t := pc], slots := s.slots[e := slot'], conns := s'.conns);
  }

  lemma SucceedingLocal(s: Node, t: nat, o: Choice)
    requires t < |s.threads| && s.threads[t].Succeeding? && s.threads[t].e < |s.slots|
    requires LocalOk(s, t, s.threads[t].e) && s.slots[s.threads[t].e].mutex.None?
    ensures var s', e := RunnerStep(s, t, o), s.threads[t].e;
            LocalStep(s, s', t, e)
  {
    var pc := s.threads[t];
    var a := s.slots[pc.e].es.Of(pc.side).value.ChangeState(SUCCESS).(conn := Some(pc.conn));
    var s1 := SetEs(s, pc.e, s.slots[pc.e].es.With(pc.side, a));
    assert s1 == s1.(conns := s.conns);
    if s.slots[pc.e].es.IsEstablishing(pc.side.Other()) { FinishWaits(s, t, pc.e, pc.side, a, s.conns); }
    else { FinishDecides(s, t, pc.e, pc.side, a, s.conns); }
  }

  /** What a direction that fails does, as one expression. */
  lemma FailingIs(s: Node, t: nat, o: Choice)
    requires t < |s.threads| && s.threads[t].Failing? && s.threads[t].e < |s.slots|
    requires s.slots[s.threads[t].e].mutex.None?
    ensures var pc := s.threads[t];
            var r := s.slots[pc.e].es.Fail(pc.side, pc.err);
            var s1 := CloseConn(SetEs(s, pc.e, r.es), pc.oc);
            RunnerStep(s, t, o) == if r.ok then MaybeEnd(s1, t, pc.e, pc.side) else Goto(s1, t, Wait(pc.e, pc.side))
  {
  }

  lemma FailingLocal(s: Node, t: nat, o: Choice)
    requires t < |s.threads| && s.threads[t].Failing? && s.threads[t].e < |s.slots|
    requires LocalOk(s, t, s.threads[t].e) && s.slots[s.threads[t].e].mutex.None?
    ensures var s', e := RunnerStep(s, t, o), s.threads[t].e;
            LocalStep(s, s', t, e)
  {
    var pc := s.threads[t];
    var a := s.slots[pc.e].es.Of(pc.side).value.ChangeState(FAIL).(err := Some(pc.err));
    var s1 := SetEs(s, pc.e, s.slots[pc.e].es.With(pc.side, a));
    var s2 := CloseConn(s1, pc.oc);
    assert s2 == s1.(conns := s2.conns);
    if s.slots[pc.e].es.IsEstablishing(pc.side.Other()) { FinishWaits(s, t, pc.e, pc.side, a, s2.conns); }
    else { FinishDecides(s, t, pc.e, pc.side, a, s2.conns); }
  }

  lemma StartActiveLocal(s: Node, t: nat, o: Choice)
    requires t < |s.threads| && s.threads[t].StartActive? && s.threads[t].e < |s.slots|
    requires LocalOk(s, t, s.threads[t].e) && s.slots[s.threads[t].e].mutex.None?
    ensures var s', e := RunnerStep(s, t, o), s.threads[t].e;
            LocalStep(s, s', t, e)
  {
    if s.slots[s.threads[t].e].es.Start(Active, o.time).ok { StartActiveBegins(s, t, o); }
    else { StartActiveRefused(s, t, o); }
  }

  lemma StartActiveBegins(s: Node, t: nat, o: Choice)
    requires t < |s.threads| && s.threads[t].StartActive? && s.threads[t].e < |s.slots|
    requires LocalOk(s, t, s.threads[t].e) && s.slots[s.threads[t].e].mutex.None?
    requires s.slots[s.threads[t].e].es.Start(Active, o.time).ok
    ensures var s', e := RunnerStep(s, t, o), s.threads[t].e;
            LocalStep(s, s', t, e)
  {
    var e := s.threads[t].e;
    var s' := RunnerStep(s, t, o);
    assert s'.slots[e].es.passive == s.slots[e].es.passive && s.slots[e].es.active.None?;
    assert SlotShape(s'.slots[e]);
    assert Plain(s, s', t, e);
    PlainAt(s, s', t, e);
  }

  lemma StartActiveRefused(s: Node, t: nat, o: Choice)
    requires t < |s.threads| && s.threads[t].StartActive? && s.threads[t].e < |s.slots|
    requires LocalOk(s, t, s.threads[t].e) && s.slots[s.threads[t].e].mutex.None?
    requires !s.slots[s.threads[t].e].es.Start(Active, o.time).ok
    ensures var s', e := RunnerStep(s, t, o), s.threads[t].e;
            LocalStep(s, s', t, e)
  {
    var e := s.threads[t].e;
    var s' := RunnerStep(s, t, o);
    assert s'.slots[e] == s.slots[e];
    assert Plain(s, s', t, e);
    PlainAt(s, s', t, e);
  }

  lemma StartPassiveLocal(s: Node, t: nat, o: Choice)
    requires t < |s.threads| && s.threads[t].StartPassive? && s.threads[t].e < |s.slots|
    requires LocalOk(s, t, s.threads[t].e) && s.slots[s.threads[t].e].mutex.None?
    ensures var s', e := RunnerStep(s, t, o), s.threads[t].e;
            LocalStep(s, s', t, e)
  {
    var ok := s.slots[s.threads[t].e].es.Start(Passive, s.threads[t].time).ok;
    if ok { StartPassiveBegins(s, t, o); } else { StartPassiveRefused(s, t, o); }
  }

  lemma StartPassiveBegins(s: Node, t: nat, o: Choice)
    requires t < |s.threads| && s.threads[t].StartPassive? && s.threads[t].e < |s.slots|
    requires LocalOk(s, t, s.threads[t].e) && s.slots[s.threads[t].e].mutex.None?
    requires s.slots[s.threads[t].e].es.Start(Passive, s.threads[t].time).ok
    ensures var s', e := RunnerStep(s, t, o), s.threads[t].e;
            LocalStep(s, s', t, e)
  {
    var e := s.threads[t].e;
    var s' := RunnerStep(s, t, o);
    assert s'.slots[e].es.active == s.slots[e].es.active && s.slots[e].es.passive.None?;
    assert SlotShape(s'.slots[e]);
    assert Plain(s, s', t, e);
    PlainAt(s, s', t, e);
  }

  lemma StartPassiveRefused(s: Node, t: nat, o: Choice)
    requires t < |s.threads| && s.threads[t].StartPassive? && s.threads[t].e < |s.slots|
    requires LocalOk(s, t, s.threads[t].e) && s.slots[s.threads[t].e].mutex.None?
    requires !s.slots[s.threads[t].e].es.Start(Passive, s.threads[t].time).ok
    ensures var s', e := RunnerStep(s, t, o), s.threads[t].e;
            LocalStep(s, s', t, e)
  {
    var e := s.threads[t].e;
    var s' := RunnerStep(s, t, o);
    assert s'.slots[e] == s.slots[e];
    assert Plain(s, s', t, e);
    PlainAt(s, s', t, e);
  }

  lemma GuardLocal(s: Node, t: nat, o: Choice)
    requires t < |s.threads| && (s.threads[t].Guard?) && s.threads[t].e < |s.slots|
    requires LocalOk(s, t, s.threads[t].e) && MapsOk(s)
    ensures var s', e := RunnerStep(s, t, o), s.threads[t].e;
            LocalStep(s, s', t, e)
  {
    var e := s.threads[t].e;
    var s' := RunnerStep(s, t, o);
    assert Plain(s, s', t, e);
    PlainAt(s, s', t, e);
  }

  lemma ExitLocal(s: Node, t: nat, o: Choice)
    requires t < |s.threads| && (s.threads[t].Exit?) && s.threads[t].e < |s.slots|
    requires LocalOk(s, t, s.threads[t].e) && s.slots[s.threads[t].e].mutex.None?
    ensures var s', e := RunnerStep(s, t, o), s.threads[t].e;
            LocalStep(s, s', t, e)
  {
    var e := s.threads[t].e;
    var s' := RunnerStep(s, t, o);
    assert Plain(s, s', t, e);
    PlainAt(s, s', t, e);
  }

  lemma DialingLocal(s: Node, t: nat, o: Choice)
    requires t < |s.threads| && (s.threads[t].Dialing?) && s.threads[t].e < |s.slots|
    requires LocalOk(s, t, s.threads[t].e)
    ensures var s', e := RunnerStep(s, t, o), s.threads[t].e;
            LocalStep(s, s', t, e)
  {
    var e := s.threads[t].e;
    var s' := RunnerStep(s, t, o);
    assert Plain(s, s', t, e);
    PlainAt(s, s', t, e);
  }

  lemma IoLocal(s: Node, t: nat, o: Choice)
    requires t < |s.threads| && (s.threads[t].Io?) && s.threads[t].e < |s.slots|
    requires LocalOk(s, t, s.threads[t].e)
    ensures var s', e := RunnerStep(s, t, o), s.threads[t].e;
            LocalStep(s, s', t, e)
  {
    var e := s.threads[t].e;
    var s' := RunnerStep(s, t, o);
    assert Plain(s, s', t, e);
    PlainAt(s, s', t, e);
  }

  lemma HandshakingLocal(s: Node, t: nat, o: Choice)
    requires t < |s.threads| && (s.threads[t].Handshaking?) && s.threads[t].e < |s.slots|
    requires LocalOk(s, t, s.threads[t].e) && s.slots[s.threads[t].e].mutex.None?
    ensures var s', e := RunnerStep(s, t, o), s.threads[t].e;
            LocalStep(s, s', t, e)
  {
    var e := s.threads[t].e;
    var s' := RunnerStep(s, t, o);
    assert Plain(s, s', t, e);
    PlainAt(s, s', t, e);
  }

  lemma AboutToSucceedLocal(s: Node, t: nat, o: Choice)
    requires t < |s.threads| && (s.threads[t].AboutToSucceed?) && s.threads[t].e < |s.slots|
    requires LocalOk(s, t, s.threads[t].e) && s.slots[s.threads[t].e].mutex.None?
    ensures var s', e := RunnerStep(s, t, o), s.threads[t].e;
            LocalStep(s, s', t, e)
  {
    var e := s.threads[t].e;
    var s' := RunnerStep(s, t, o);
    assert Plain(s, s', t, e);
    PlainAt(s, s', t, e);
  }

  predicate IsRunning(pc: Pc) {
    pc.StartActive? || pc.StartPassive? || RunnerSide(pc).Some?
  }

  lemma RunnerStepLocal(s: Node, t: nat, o: Choice)
    requires t < |s.threads| && IsRunning(s.threads[t]) && s.threads[t].e < |s.slots|
    requires LocalOk(s, t, s.threads[t].e) && MapsOk(s)
    ensures RunnerStep(s, t, o) == s || LocalStep(s, RunnerStep(s, t, o), t, s.threads[t].e)
  {
    var pc := s.threads[t];
    if s.slots[pc.e].mutex.None? || pc.Guard? || pc.Dialing? || pc.Io? {
      match pc {
        case StartActive(_) => StartActiveLocal(s, t, o);
        case StartPassive(_, _, _) => StartPassiveLocal(s, t, o);
        case Guard(_, _, _) => GuardLocal(s, t, o);
        case Exit(_, _, _) => ExitLocal(s, t, o);
        case Dialing(_) => DialingLocal(s, t, o);
        case Handshaking(_, _) => HandshakingLocal(s, t, o);
        case Io(_, _, _) => IoLocal(s, t, o);
        case AboutToSucceed(_, _) => AboutToSucceedLocal(s, t, o);
        case Succeeding(_, _, _) => SucceedingLocal(s, t, o);
        case Failing(_, _, _, _) => FailingLocal(s, t, o);
      }
    }
  }

  lemma RunnerStepInv(s: Node, t: nat, o: Choice)
    requires Inv(s) && t < |s.threads| && IsRunning(s.threads[t])
    ensures var s' := RunnerStep(s, t, o); Inv(s')
  {
    var e := s.threads[t].e;
    assert ThreadOk(s, t) && SlotOk(s, e);
    RunnerStepLocal(s, t, o);
    if RunnerStep(s, t, o) != s {
      PlainInv(s, RunnerStep(s, t, o), t, e);
    }
  }

  // ---------- The rest of establishEnd ----------

  predicate HoldsSession(pc: Pc, sid: nat) {
    (pc.LockSession? || pc.Publish? || pc.Abort?) && pc.sid == sid
  }

  /** A session the step leaves alone and its goroutine does not have in hand. */
  lemma OtherSessionOk(s: Node, s': Node, t: nat, e: nat, sid: nat)
    requires t < |s.threads| && e < |s.slots| && Frame(s, s', t, e)
    requires sid < |s.built| && SessionOk(s, sid) && s'.built[sid] == s.built[sid]
    requires !HoldsSession(s.threads[t], sid)
    requires var x := s.built[sid];
             x.phase.Live? && x.published ==> x.remote in s'.sessions && s'.sessions[x.remote] == sid
    ensures SessionOk(s', sid)
  {
    var x := s.built[sid].es;
    if x != e { assert s'.slots[x] == s.slots[x]; }
    if s.built[sid].phase.Live? && !s.built[sid].published {
      var u := s.slots[x].mutex.value;
      assert u != t;
      assert s'.threads[u] == s.threads[u];
    }
  }

  lemma FrameInv(s: Node, s': Node, t: nat, e: nat)
    requires ThreadsOk(s) && SlotsOk(s) && t < |s.threads| && e < |s.slots| && EsOf(s.threads[t]) == Some(e)
    requires Frame(s, s', t, e)
    requires ThreadOk(s', t) && SlotOk(s', e)
    requires SessionsOk(s') && MapsOk(s') && CloserOk(s') && !s'.service.Init?
    ensures Inv(s')
  {
    forall u: nat | u < |s'.threads| ensures ThreadOk(s', u) {
      if u != t { OtherThreadOk(s, s', t, e, u); }
    }
    forall x: nat | x < |s'.slots| ensures SlotOk(s', x) {
      if x != e { OtherSlotOk(s, s', t, e, x); }
    }
  }

  lemma GiveUpLocal(s: Node, t: nat, o: Choice)
    requires t < |s.threads| && s.threads[t].GiveUp? && s.threads[t].e < |s.slots| && LocalOk(s, t, s.threads[t].e)
    ensures var s', e := EndStep(s, t, o), s.threads[t].e;
            LocalStep(s, s', t, e)
  {
    var e := s.threads[t].e;
    var s' := EndStep(s, t, o);
    assert Plain(s, s', t, e);
    PlainAt(s, s', t, e);
  }

  lemma SignalLocal(s: Node, t: nat, o: Choice)
    requires t < |s.threads| && s.threads[t].Signal? && s.threads[t].e < |s.slots| && LocalOk(s, t, s.threads[t].e)
    ensures var s', e := EndStep(s, t, o), s.threads[t].e;
            LocalStep(s, s', t, e)
  {
    var e := s.threads[t].e;
    var s' := EndStep(s, t, o);
    assert Plain(s, s', t, e);
    PlainAt(s, s', t, e);
  }

  lemma WaitLocal(s: Node, t: nat, o: Choice)
    requires t < |s.threads| && s.threads[t].Wait? && s.threads[t].e < |s.slots| && LocalOk(s, t, s.threads[t].e)
    ensures var s', e := EndStep(s, t, o), s.threads[t].e;
            LocalStep(s, s', t, e)
  {
    WaitGoes(s, t, o);
    WaiterLeaves(s, t, s.threads[t].e, EndStep(s, t, o).threads[t]);
  }

  lemma WaiterLeaves(s: Node, t: nat, e: nat, pc: Pc)
    requires t < |s.threads| && e < |s.slots| && LocalOk(s, t, e) && s.threads[t].Wait? && Equipped(s, pc)
    requires pc.Wait? || pc.Served? || pc.Recheck? || pc.Returned?
    ensures LocalStep(s, Goto(s, t, pc), t, e)
  {
    PlainAt(s, Goto(s, t, pc), t, e);
  }

  /** A waiter moves on by itself, with what it needs. */
  lemma WaitGoes(s: Node, t: nat, o: Choice)
    requires t < |s.threads| && s.threads[t].Wait? && s.threads[t].e < |s.slots| && LocalOk(s, t, s.threads[t].e)
    ensures var s' := EndStep(s, t, o);
            && |s'.threads| == |s.threads| && s' == Goto(s, t, s'.threads[t])
            && (s'.threads[t] == s.threads[t] || s'.threads[t].Served? || s'.threads[t].Recheck? ||
                s'.threads[t].Returned?)
            && Equipped(s, s'.threads[t])
  {
  }

  /** A step of `t` that may also touch the maps and the sessions. */
  predicate FramedStep(s: Node, s': Node, t: nat, e: nat)
    requires t < |s.threads| && e < |s.slots|
  {
    Frame(s, s', t, e) && LocalOk(s', t, e)
  }

  predicate SameMapping(s: Node, s': Node) {
    && |s'.slots| == |s.slots| && s'.establishments == s.establishments
    && forall x: nat :: x < |s.slots| ==> s'.slots[x].remote == s.slots[x].remote
  }

  lemma KeepsMapping(s: Node, s': Node)
    requires SameMapping(s, s')
    ensures forall x: nat :: x < |s.slots| ==> Mapped(s', x) == Mapped(s, x)
  {
  }

  lemma ForgetsMapping(s: Node, s': Node, e: nat)
    requires e < |s.slots| && Mapped(s, e)
    requires SameMapping(s, s'.(establishments := s.establishments))
    requires s'.establishments == CompareAndDelete(s.establishments, s.slots[e].remote, e)
    ensures !Mapped(s', e)
    ensures forall x: nat :: x < |s.slots| && x != e ==> Mapped(s', x) == Mapped(s, x)
  {
  }

  lemma ForgetFrame(s: Node, t: nat, o: Choice)
    requires t < |s.threads| && s.threads[t].Forget? && s.threads[t].e < |s.slots| && LocalOk(s, t, s.threads[t].e)
    ensures var s', e := EndStep(s, t, o), s.threads[t].e;
            FramedStep(s, s', t, e)
  {
    var e := s.threads[t].e;
    var s' := EndStep(s, t, o);
    assert s'.threads == s.threads[t := Wait(e, s.threads[t].side)];
    assert s'.slots == s.slots[e := s.slots[e].(mutex := None)];
    ForgetsMapping(s, s', e);
    assert SlotShape(s'.slots[e]);
    assert SlotFrame(s.slots[e], s'.slots[e], t);
  }

  /** A step that builds a session or closes an unpublished one. */
  predicate Building(s: Node, s': Node, t: nat)
    requires t < |s.threads|
  {
    && |s'.threads| == |s.threads| && |s.conns| <= |s'.conns|
    && s' == s.(threads := s.threads[t := s'.threads[t]], built := s'.built, conns := s'.conns)
    && SessionsGrow(s, s')
    && (forall sid: nat :: sid < |s.built| ==> s'.built[sid].published == s.built[sid].published)
  }

  lemma BuildingFrame(s: Node, s': Node, t: nat, e: nat)
    requires t < |s.threads| && e < |s.slots| && MapsOk(s) && Building(s, s', t)
    ensures Frame(s, s', t, e)
    ensures Mapped(s', e) == Mapped(s, e) && (NoRival(s, e) ==> NoRival(s', e))
  {
    KeepsMapping(s, s');
    forall x: nat | x < |s.slots| && NoRival(s, x) ensures NoRival(s', x) {
      var r := s.slots[x].remote;
      assert r in s.sessions ==> PublishedFor(s, r, s.sessions[r]);
    }
  }

  lemma BuildingRest(s: Node, s': Node, t: nat)
    requires t < |s.threads| && Building(s, s', t) && MapsOk(s) && CloserOk(s)
    ensures MapsOk(s') && CloserOk(s')
  {
    forall r | r in s'.sessions ensures PublishedFor(s', r, s'.sessions[r]) {
      assert PublishedFor(s, r, s.sessions[r]);
    }
  }

  /** Goroutine `t` is at a statement of `establishEnd` short of the end, with what it needs. */
  predicate GoesOn(s: Node, t: nat, e: nat)
    requires t < |s.threads|
  {
    var pc := s.threads[t];
    EsOf(pc) == Some(e) && (pc.GiveUp? || pc.LockSession? || pc.Publish? || pc.Abort?) && Equipped(s, pc)
  }

  lemma StillEnding(s: Node, s': Node, t: nat, e: nat)
    requires t < |s.threads| && e < |s.slots| && LocalOk(s, t, e) && MapsOk(s) && Building(s, s', t)
    requires EndingOk(s, t, e) && !s.threads[t].Forget? && !s.threads[t].Signal? && GoesOn(s', t, e)
    ensures FramedStep(s, s', t, e)
  {
    BuildingFrame(s, s', t, e);
    assert EndingOk(s', t, e);
  }

  /** At work on the session itself. */
  predicate Builds(pc: Pc) {
    pc.CreateSession? || pc.LockSession? || pc.Abort?
  }

  lemma BuilderFrame(s: Node, t: nat, o: Choice)
    requires t < |s.threads| && Builds(s.threads[t]) && s.threads[t].e < |s.slots| && LocalOk(s, t, s.threads[t].e)
    requires MapsOk(s)
    ensures var s', e := EndStep(s, t, o), s.threads[t].e;
            Building(s, s', t) && FramedStep(s, s', t, e)
  {
    BuilderBuilds(s, t, o);
    StillEnding(s, EndStep(s, t, o), t, s.threads[t].e);
  }

  lemma BuilderBuilds(s: Node, t: nat, o: Choice)
    requires t < |s.threads| && Builds(s.threads[t]) && s.threads[t].e < |s.slots| && ThreadOk(s, t)
    ensures var s', e := EndStep(s, t, o), s.threads[t].e;
            Building(s, s', t) && GoesOn(s', t, e)
  {
    if s.threads[t].CreateSession? { CreatorBuilds(s, t, o); }
  }

  lemma CreatorBuilds(s: Node, t: nat, o: Choice)
    requires t < |s.threads| && s.threads[t].CreateSession? && s.threads[t].e < |s.slots| && ThreadOk(s, t)
    ensures var s', e := EndStep(s, t, o), s.threads[t].e;
            Building(s, s', t) && GoesOn(s', t, e)
  {
  }

  lemma PublishFrame(s: Node, t: nat, o: Choice)
    requires t < |s.threads| && s.threads[t].Publish? && s.threads[t].e < |s.slots| && LocalOk(s, t, s.threads[t].e)
    ensures var s', e := EndStep(s, t, o), s.threads[t].e;
            FramedStep(s, s', t, e)
  {
    if s.service.Started? { PublishFrameOpen(s, t, o); } else { PublishFrameClosed(s, t, o); }
  }

  lemma PublishFrameOpen(s: Node, t: nat, o: Choice)
    requires t < |s.threads| && s.threads[t].Publish? && s.threads[t].e < |s.slots| && LocalOk(s, t, s.threads[t].e)
    requires s.service.Started?
    ensures var s', e := EndStep(s, t, o), s.threads[t].e;
            FramedStep(s, s', t, e)
  {
    ForgetsMapping(s, EndStep(s, t, o), s.threads[t].e);
  }

  lemma PublishFrameClosed(s: Node, t: nat, o: Choice)
    requires t < |s.threads| && s.threads[t].Publish? && s.threads[t].e < |s.slots| && LocalOk(s, t, s.threads[t].e)
    requires !s.service.Started?
    ensures var s', e := EndStep(s, t, o), s.threads[t].e;
            FramedStep(s, s', t, e)
  {
    var s' := EndStep(s, t, o);
    assert s' == Goto(s, t, Abort(s.threads[t].e, s.threads[t].side, s.threads[t].sid));
    KeepsMapping(s, s');
  }

  /** The sessions after a step inside `establishEnd`. */
  lemma BuilderSessions(s: Node, t: nat, o: Choice)
    requires t < |s.threads| && Builds(s.threads[t]) && s.threads[t].e < |s.slots|
    requires ThreadOk(s, t) && SessionsOk(s)
    requires var s', e := EndStep(s, t, o), s.threads[t].e; FramedStep(s, s', t, e)
    ensures var s' := EndStep(s, t, o); SessionsOk(s')
  {
    var s' := EndStep(s, t, o);
    forall sid: nat | sid < |s'.built| ensures SessionOk(s', sid) {
      if sid < |s.built| { BuilderKeepsSession(s, t, o, sid); }
    }
  }

  lemma BuilderKeepsSession(s: Node, t: nat, o: Choice, sid: nat)
    requires t < |s.threads| && Builds(s.threads[t]) && s.threads[t].e < |s.slots|
    requires ThreadOk(s, t) && SessionsOk(s) && sid < |s.built|
    requires var s', e := EndStep(s, t, o), s.threads[t].e; FramedStep(s, s', t, e)
    ensures sid < |EndStep(s, t, o).built| && SessionOk(EndStep(s, t, o), sid)
  {
    assert SessionOk(s, sid);
    if !HoldsSession(s.threads[t], sid) { OtherSessionOk(s, EndStep(s, t, o), t, s.threads[t].e, sid); }
  }

  lemma UnmapperSessions(s: Node, t: nat, o: Choice)
    requires t < |s.threads| && (s.threads[t].Forget? || s.threads[t].Publish?) && s.threads[t].e < |s.slots|
    requires ThreadOk(s, t) && SessionsOk(s)
    requires var s', e := EndStep(s, t, o), s.threads[t].e; FramedStep(s, s', t, e)
    ensures var s' := EndStep(s, t, o); SessionsOk(s')
  {
    var s' := EndStep(s, t, o);
    forall sid: nat | sid < |s'.built| ensures SessionOk(s', sid) {
      if sid < |s.built| {
        assert SessionOk(s, sid);
        if !HoldsSession(s.threads[t], sid) { OtherSessionOk(s, s', t, s.threads[t].e, sid); }
      }
    }
  }

  lemma BuilderInv(s: Node, t: nat, o: Choice)
    requires Inv(s) && t < |s.threads| && Builds(s.threads[t])
    ensures var s' := EndStep(s, t, o); Inv(s')
  {
    assert ThreadOk(s, t) && SlotOk(s, s.threads[t].e);
    BuilderFrame(s, t, o);
    BuilderSessions(s, t, o);
    BuildingRest(s, EndStep(s, t, o), t);
    FrameInv(s, EndStep(s, t, o), t, s.threads[t].e);
  }

  lemma UnmapperInv(s: Node, t: nat, o: Choice)
    requires Inv(s) && t < |s.threads| && (s.threads[t].Forget? || s.threads[t].Publish?)
    ensures var s' := EndStep(s, t, o); Inv(s')
  {
    assert ThreadOk(s, t) && SlotOk(s, s.threads[t].e);
    if s.threads[t].Forget? { ForgetFrame(s, t, o); } else { PublishFrame(s, t, o); }
    UnmapperSessions(s, t, o);
    FrameInv(s, EndStep(s, t, o), t, s.threads[t].e);
  }

  lemma EndStepInv(s: Node, t: nat, o: Choice)
    requires Inv(s) && t < |s.threads| && (IsEnding(s.threads[t]) || s.threads[t].Wait?)
    ensures var s' := EndStep(s, t, o); Inv(s')
  {
    var pc := s.threads[t];
    if Builds(pc) { BuilderInv(s, t, o); }
    else if pc.Forget? || pc.Publish? { UnmapperInv(s, t, o); }
    else { EndsPlainly(s, t, o); }
  }

  lemma EndsPlainly(s: Node, t: nat, o: Choice)
    requires Inv(s) && t < |s.threads| && (s.threads[t].GiveUp? || s.threads[t].Signal? || s.threads[t].Wait?)
    ensures var s' := EndStep(s, t, o); Inv(s')
  {
    assert ThreadOk(s, t) && SlotOk(s, s.threads[t].e);
    EndsPlainlyLocal(s, t, o);
    PlainInv(s, EndStep(s, t, o), t, s.threads[t].e);
  }

  lemma EndsPlainlyLocal(s: Node, t: nat, o: Choice)
    requires t < |s.threads| && (s.threads[t].GiveUp? || s.threads[t].Signal? || s.threads[t].Wait?)
    requires s.threads[t].e < |s.slots| && LocalOk(s, t, s.threads[t].e)
    ensures var s', e := EndStep(s, t, o), s.threads[t].e;
            LocalStep(s, s', t, e)
  {
    if s.threads[t].GiveUp? { GiveUpLocal(s, t, o); }
    else if s.threads[t].Signal? { SignalLocal(s, t, o); }
    else { WaitLocal(s, t, o); }
  }

  // ---------- Looking up, arriving, closing ----------

  /** Slots, goroutines and establishments as they were; lookups find no more than before. */
  predicate Background(s: Node, s': Node) {
    && s'.slots == s.slots && s'.threads == s.threads && s'.establishments == s.establishments
    && |s'.built| == |s.built| && |s.conns| <= |s'.conns|
    && SessionsGrow(s, s')
    && (forall sid: nat :: sid < |s.built| ==> s'.built[sid].published == s.built[sid].published)
    && (s'.service == s.service || s'.service.Closed?)
    && s'.sessions.Keys <= s.sessions.Keys && (forall r :: r in s'.sessions ==> s'.sessions[r] == s.sessions[r])
  }

  lemma BackgroundNoRival(s: Node, s': Node, e: nat)
    requires Background(s, s') && MapsOk(s) && NoRival(s, e)
    ensures NoRival(s', e)
  {
    var r := s.slots[e].remote;
    assert r in s.sessions ==> PublishedFor(s, r, s.sessions[r]);
  }

  lemma BackgroundThreadOk(s: Node, s': Node, t: nat)
    requires Background(s, s') && MapsOk(s) && t < |s.threads| && ThreadOk(s, t)
    ensures ThreadOk(s', t)
  {
    var pc := s.threads[t];
    if EsOf(pc).Some? && EsOf(pc).value < |s.slots| && NoRival(s, EsOf(pc).value) {
      BackgroundNoRival(s, s', EsOf(pc).value);
    }
  }

  lemma BackgroundInv(s: Node, s': Node)
    requires Inv(s) && Background(s, s') && SessionsOk(s') && CloserOk(s')
    ensures Inv(s')
  {
    forall t: nat | t < |s'.threads| ensures ThreadOk(s', t) {
      assert ThreadOk(s, t);
      BackgroundThreadOk(s, s', t);
    }
    forall e: nat | e < |s'.slots| ensures SlotOk(s', e) {
      assert SlotOk(s, e);
    }
    assert MapsOk(s') by {
      forall r | r in s'.sessions ensures PublishedFor(s', r, s'.sessions[r]) {
        assert PublishedFor(s, r, s.sessions[r]);
      }
    }
  }

  lemma CloseStepBackground(s: Node, a: Label)
    ensures Background(s, CloseStep(s, a))
  {
  }

  lemma CloseStepCloserOk(s: Node, a: Label)
    requires MapsOk(s) && CloserOk(s)
    ensures CloserOk(CloseStep(s, a))
  {
  }

  lemma CloseStepSessionOk(s: Node, a: Label, sid: nat)
    requires CloserOk(s) && sid < |s.built| && SessionOk(s, sid)
    ensures sid < |CloseStep(s, a).built| && SessionOk(CloseStep(s, a), sid)
  {
  }

  lemma CloseStepInv(s: Node, a: Label)
    requires Inv(s)
    ensures var s' := CloseStep(s, a); Inv(s')
  {
    CloseStepBackground(s, a);
    CloseStepCloserOk(s, a);
    forall sid: nat | sid < |s.built| ensures SessionOk(CloseStep(s, a), sid) {
      assert SessionOk(s, sid);
      CloseStepSessionOk(s, a, sid);
    }
    BackgroundInv(s, CloseStep(s, a));
  }

  lemma HandlerStepBackground(s: Node, a: Label)
    ensures Background(s, HandlerStep(s, a)) && HandlerStep(s, a).closer == s.closer
  {
  }

  lemma HandlerStepSessionOk(s: Node, a: Label, sid: nat)
    requires sid < |s.built| && SessionOk(s, sid)
    ensures sid < |HandlerStep(s, a).built| && SessionOk(HandlerStep(s, a), sid)
  {
  }

  lemma HandlerStepInv(s: Node, a: Label)
    requires Inv(s)
    ensures var s' := HandlerStep(s, a); Inv(s')
  {
    HandlerStepBackground(s, a);
    forall sid: nat | sid < |s.built| ensures SessionOk(HandlerStep(s, a), sid) {
      assert SessionOk(s, sid);
      HandlerStepSessionOk(s, a, sid);
    }
    BackgroundInv(s, HandlerStep(s, a));
  }

  lemma ShutdownStepBackground(s: Node, a: Label)
    requires MapsOk(s) && CloserOk(s)
    ensures Background(s, ShutdownStep(s, a)) && CloserOk(ShutdownStep(s, a))
  {
  }

  lemma ShutdownStepSessionOk(s: Node, a: Label, sid: nat)
    requires CloserOk(s) && sid < |s.built| && SessionOk(s, sid)
    ensures sid < |ShutdownStep(s, a).built| && SessionOk(ShutdownStep(s, a), sid)
  {
  }

  lemma ShutdownStepInv(s: Node, a: Label)
    requires Inv(s)
    ensures var s' := ShutdownStep(s, a); Inv(s')
  {
    ShutdownStepBackground(s, a);
    forall sid: nat | sid < |s.built| ensures SessionOk(ShutdownStep(s, a), sid) {
      assert SessionOk(s, sid);
      ShutdownStepSessionOk(s, a, sid);
    }
    BackgroundInv(s, ShutdownStep(s, a));
  }

  /** Goroutines `s'.threads` extend or move on from `s.threads`, but none that works for an
      establishment is touched. */
  predicate IdleMoves(s: Node, s': Node) {
    && s' == s.(threads := s'.threads) && |s.threads| <= |s'.threads|
    && forall u: nat :: u < |s.threads| && EsOf(s.threads[u]).Some? ==> s'.threads[u] == s.threads[u]
  }

  lemma IdleThreadOk(s: Node, s': Node, u: nat)
    requires IdleMoves(s, s') && u < |s.threads| && s'.threads[u] == s.threads[u] && ThreadOk(s, u)
    ensures ThreadOk(s', u)
  {
  }

  lemma IdleSlotOk(s: Node, s': Node, e: nat)
    requires IdleMoves(s, s') && e < |s.slots| && SlotOk(s, e)
    ensures SlotOk(s', e)
  {
  }

  lemma IdleSessionOk(s: Node, s': Node, sid: nat)
    requires IdleMoves(s, s') && sid < |s.built| && SessionOk(s, sid)
    ensures SessionOk(s', sid)
  {
  }

  lemma IdleInv(s: Node, s': Node)
    requires Inv(s) && IdleMoves(s, s')
    requires forall u: nat :: u < |s'.threads| && (u < |s.threads| ==> s'.threads[u] != s.threads[u]) ==>
               ThreadOk(s', u)
    ensures Inv(s')
  {
    forall u: nat | u < |s'.threads| ensures ThreadOk(s', u) {
      if u < |s.threads| && s'.threads[u] == s.threads[u] {
        assert ThreadOk(s, u);
        IdleThreadOk(s, s', u);
      }
    }
    forall e: nat | e < |s'.slots| ensures SlotOk(s', e) {
      assert SlotOk(s, e);
      IdleSlotOk(s, s', e);
    }
    forall sid: nat | sid < |s'.built| ensures SessionOk(s', sid) {
      assert SessionOk(s, sid);
      IdleSessionOk(s, s', sid);
    }
  }

  /** A goroutine not yet, or no longer, at work on an establishment moves on. */
  lemma GotoInv(s: Node, t: nat, pc: Pc)
    requires Inv(s) && t < |s.threads| && EsOf(s.threads[t]).None? && ThreadOk(Goto(s, t, pc), t)
    ensures var s' := Goto(s, t, pc); Inv(s')
  {
    IdleInv(s, Goto(s, t, pc));
  }

  lemma ConnsInv(s: Node, conns: seq<Connection>)
    requires Inv(s) && |s.conns| <= |conns|
    ensures var s' := s.(conns := conns); Inv(s')
  {
    var s' := s.(conns := conns);
    forall sid: nat | sid < |s'.built| ensures SessionOk(s', sid) {
      assert SessionOk(s, sid);
    }
    BackgroundInv(s, s');
  }

  lemma SpawnInv(s: Node, pc: Pc)
    requires Inv(s) && (pc.CheckSession? || (pc.ReadApply? && pc.conn < |s.conns|))
    ensures var s' := s.(threads := s.threads + [pc]); Inv(s')
  {
    IdleInv(s, s.(threads := s.threads + [pc]));
  }

  lemma StartServiceInv(s: Node)
    requires Inv(s) && s.service.Init?
    ensures var s' := s.(service := Started); Inv(s')
  {
    var s' := s.(service := Started);
    forall t: nat | t < |s.threads| ensures ThreadOk(s', t) {
      assert ThreadOk(s, t);
    }
  }

  lemma CreatedThreadOk(s: Node, r: NodeId, t: nat)
    requires t < |s.threads| && ThreadOk(s, t) && r !in s.establishments
    ensures ThreadOk(GetOrCreate(s, r).0, t)
  {
    var s' := GetOrCreate(s, r).0;
    assert forall x: nat :: x < |s.slots| ==> s'.slots[x] == s.slots[x];
    assert forall x: nat :: x < |s.slots| ==> Mapped(s', x) == Mapped(s, x);
  }

  lemma GetOrCreateInv(s: Node, r: NodeId)
    requires Inv(s) && s.service.Started?
    ensures var (s', e) := GetOrCreate(s, r);
            && Inv(s') && s'.threads == s.threads && e < |s'.slots| && s'.slots[e].remote == r
            && s'.service == s.service && s'.sessions == s.sessions && s'.built == s.built && s'.conns == s.conns
  {
    var (s', e) := GetOrCreate(s, r);
    if r !in s.establishments {
      forall u: nat | u < |s'.threads| ensures ThreadOk(s', u) {
        assert ThreadOk(s, u);
        CreatedThreadOk(s, r, u);
      }
      forall x: nat | x < |s'.slots| ensures SlotOk(s', x) {
        if x < |s.slots| {
          assert SlotOk(s, x);
          assert s'.slots[x] == s.slots[x];
          assert Mapped(s', x) == Mapped(s, x);
        } else {
          assert Mapped(s', x);
        }
      }
      forall sid: nat | sid < |s'.built| ensures SessionOk(s', sid) {
        assert SessionOk(s, sid);
      }
    }
  }

  lemma ActiveEntryInv(s: Node, t: nat, r: NodeId)
    requires Inv(s) && t < |s.threads| && EsOf(s.threads[t]).None? && s.service.Started?
    ensures var (s1, e) := GetOrCreate(s, r); t < |s1.threads| && Inv(Goto(s1, t, StartActive(e)))
  {
    GetOrCreateInv(s, r);
    var (s1, e) := GetOrCreate(s, r);
    GotoInv(s1, t, StartActive(e));
  }

  lemma PassiveEntryInv(s: Node, t: nat, r: NodeId, c: nat, time: int)
    requires Inv(s) && t < |s.threads| && EsOf(s.threads[t]).None? && s.service.Started?
    requires c < |s.conns| && GetSession(s, r).None?
    ensures var (s1, e) := GetOrCreate(s, r); t < |s1.threads| && Inv(Goto(s1, t, StartPassive(e, c, time)))
  {
    GetOrCreateInv(s, r);
    var (s1, e) := GetOrCreate(s, r);
    assert GetSession(s1, r) == GetSession(s, r);
    GotoInv(s1, t, StartPassive(e, c, time));
  }

  /** A lookup fetches an establishment, or closes a connection, or neither, and moves on. */
  lemma LookupShape(s: Node, t: nat, o: Choice) returns (s1: Node, r: NodeId, c: nat)
    requires t < |s.threads|
    ensures t < |LookupStep(s, t, o).threads| && s1.threads == s.threads
    ensures LookupStep(s, t, o) == Goto(s1, t, LookupStep(s, t, o).threads[t])
    ensures || s1 == s || s1 == GetOrCreate(s, r).0
            || (&& (s.threads[t].ReadApply? || s.threads[t].FetchPassive?) && s.threads[t].conn == c
                && s1 == CloseConn(s, Some(c)) && LookupStep(s, t, o).threads[t].Served?)
  {
    s1, r, c := s, s.self, 0;
    match s.threads[t] {
      case FetchActive(r') =>
        if s.service.Started? { r, s1 := r', GetOrCreate(s, r').0; }
      case ReadApply(c') =>
        if !o.ok { c, s1 := c', CloseConn(s, Some(c')); }
      case FetchPassive(r', c', _) =>
        if LookupStep(s, t, o).threads[t].Served? { c, s1 := c', CloseConn(s, Some(c')); }
        else { r, s1 := r', GetOrCreate(s, r').0; }
      case _ =>
    }
  }

  lemma LookupStepInv(s: Node, t: nat, o: Choice)
    requires Inv(s) && t < |s.threads|
    ensures var s' := LookupStep(s, t, o); Inv(s')
  {
    var pc := s.threads[t];
    if pc.ReadApply? || pc.FetchPassive? {
      PassiveLookupInv(s, t, o);
    } else if pc.CheckSession? || pc.FetchActive? || pc.Recheck? {
      ActiveLookupInv(s, t, o);
    }
  }

  lemma ActiveLookupInv(s: Node, t: nat, o: Choice)
    requires Inv(s) && t < |s.threads|
    requires s.threads[t].CheckSession? || s.threads[t].FetchActive? || s.threads[t].Recheck?
    ensures var s' := LookupStep(s, t, o); Inv(s')
  {
    if s.threads[t].FetchActive? {
      FetchInv(s, t, o);
    } else {
      CheckLeads(s, t, o);
      GotoInv(s, t, LookupStep(s, t, o).threads[t]);
    }
  }

  lemma FetchInv(s: Node, t: nat, o: Choice)
    requires Inv(s) && t < |s.threads| && s.threads[t].FetchActive?
    ensures var s' := LookupStep(s, t, o); Inv(s')
  {
    if s.service.Started? { ActiveEntryInv(s, t, s.threads[t].remote); }
    else { GotoInv(s, t, Returned(None, Some(NotRunning(s.service)))); }
  }

  lemma CheckLeads(s: Node, t: nat, o: Choice)
    requires MapsOk(s) && t < |s.threads| && (s.threads[t].CheckSession? || s.threads[t].Recheck?)
    ensures var s' := LookupStep(s, t, o);
            && |s'.threads| == |s.threads| && s' == Goto(s, t, s'.threads[t])
            && EsOf(s'.threads[t]).None? && ThreadOk(s', t)
  {
    FoundIsPublished(s, s.threads[t].remote);
  }

  lemma PassiveLookupInv(s: Node, t: nat, o: Choice)
    requires Inv(s) && t < |s.threads| && (s.threads[t].ReadApply? || s.threads[t].FetchPassive?)
    ensures var s' := LookupStep(s, t, o); Inv(s')
  {
    assert ThreadOk(s, t);
    var pc := s.threads[t];
    if LookupStep(s, t, o).threads[t].Served? {
      DropInv(s, t, pc.conn);
    } else if pc.ReadApply? {
      GotoInv(s, t, FetchPassive(o.remote, pc.conn, o.time));
    } else {
      PassiveEntryInv(s, t, pc.remote, pc.conn, pc.time);
    }
  }

  lemma FoundIsPublished(s: Node, r: NodeId)
    requires MapsOk(s)
    ensures GetSession(s, r).Some? ==> PublishedFor(s, r, GetSession(s, r).value)
  {
  }

  lemma DropInv(s: Node, t: nat, c: nat)
    requires Inv(s) && t < |s.threads| && EsOf(s.threads[t]).None?
    ensures var s' := Goto(CloseConn(s, Some(c)), t, Served); Inv(s')
  {
    ConnsInv(s, CloseConn(s, Some(c)).conns);
    GotoInv(CloseConn(s, Some(c)), t, Served);
  }

  lemma ThreadStepInv(s: Node, t: nat, o: Choice)
    requires Inv(s) && t < |s.threads|
    ensures var s' := ThreadStep(s, t, o); Inv(s')
  {
    if IsRunning(s.threads[t]) {
      RunnerStepInv(s, t, o);
    } else if IsEnding(s.threads[t]) || s.threads[t].Wait? {
      EndStepInv(s, t, o);
    } else {
      LookupStepInv(s, t, o);
    }
  }

  lemma StepInv(s: Node, a: Label)
    requires Inv(s)
    ensures var s' := Step(s, a); Inv(s')
  {
    match a {
      case StartService =>
        if s.service.Init? { StartServiceInv(s); }
      case CallConnect(r) => SpawnInv(s, CheckSession(r));
      case Incoming =>
        ConnsInv(s, s.conns + [Connection(false, None, |s.threads|)]);
        SpawnInv(s.(conns := s.conns + [Connection(false, None, |s.threads|)]), ReadApply(|s.conns|));
      case Thread(t, o) => if t < |s.threads| { ThreadStepInv(s, t, o); }
      case CloseSession(_) => CloseStepInv(s, a);
      case CloseCore(_) => CloseStepInv(s, a);
      case Unpublish(_) => CloseStepInv(s, a);
      case LockToClose(_) => HandlerStepInv(s, a);
      case LetGo(_) => HandlerStepInv(s, a);
      case CloseLocked(_) => HandlerStepInv(s, a);
      case _ => ShutdownStepInv(s, a);
    }
  }

  lemma {:induction false} RunInv(s: Node, labels: seq<Label>)
    requires Inv(s)
    ensures Inv(NodeModel.Run(s, labels))
    decreases |labels|
  {
    if labels != [] {
      StepInv(s, labels[0]);
      RunInv(Step(s, labels[0]), labels[1..]);
    }
  }
}
