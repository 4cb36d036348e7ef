/** One attempt to establish a session: `establishing` is one direction of it, `establishment` both. */
module Establish {
  import opened Wrappers

  // The states of one direction; they only ever grow.
  const CONNECT := 1
  const HANDSHAKE := 2
  const ABOUT_SUCCESS := 3
  const SUCCESS := 4
  const FAIL := 5

  // The states of the whole establishment.
  const STARTED := 1
  const END := 2

  datatype Error =
    | ConnectRemote
    | RequestHandshake
    | ReplyHandshake
    | ReadHandshakeResp
    | HandshakeRejected
    | RemoteIdOrTokenWrong
    | CoreStart
    | SessionClosed
    | ServiceNotStarted
    | ServiceClosed
    | UnknownEndStatus

  datatype Side = Active | Passive {
    function Other(): Side {
      if Active? then Passive else Active
    }
  }

  // First as values, with the transitions the rest of the project reasons about; then, further down, as the mutable
  // objects of net/service_establish.go, proved to follow them.

  /** One direction. `conn` is a connection handle. */
  datatype Attempt = Attempt(state: nat, startTime: int, conn: Option<nat>, err: Option<Error>) {
    predicate IsStarted() { state > 0 }
    predicate IsEnd() { state > ABOUT_SUCCESS }
    predicate IsEstablishing() { IsStarted() && !IsEnd() }
    predicate IsSuccess() { state == SUCCESS }
    predicate IsFail() { state == FAIL }

    function ChangeState(to: nat): Attempt {
      if to <= state then this else this.(state := to)
    }
  }

  const NO_ATTEMPT := Attempt(0, 0, None, None)

  /** What a transition leaves behind, and whether it took place. */
  datatype Outcome = Outcome(es: Est, ok: bool)

  /** Both directions. `signals` counts how often the end channel has been closed; closing a channel
      twice would be fatal. */
  datatype Est = Est(
    state: nat,
    active: Option<Attempt>,
    passive: Option<Attempt>,
    session: Option<nat>,
    err: Option<Error>,
    signals: nat)
  {
    predicate IsEnd() { state == END }

    function Of(side: Side): Option<Attempt> {
      if side.Active? then active else passive
    }

    function With(side: Side, a: Attempt): Est {
      if side.Active? then this.(active := Some(a)) else this.(passive := Some(a))
    }

    predicate IsStarted(side: Side) { Of(side).Some? && Of(side).value.IsStarted() }
    predicate IsEstablishing(side: Side) { Of(side).Some? && Of(side).value.IsEstablishing() }
    predicate IsSuccess(side: Side) { Of(side).Some? && Of(side).value.IsSuccess() }
    predicate IsFail(side: Side) { Of(side).Some? && Of(side).value.IsFail() }

    function Conn(side: Side): Option<nat> {
      if Of(side).Some? then Of(side).value.conn else None
    }

    function Err(side: Side): Option<Error> {
      if Of(side).Some? then Of(side).value.err else None
    }

    function ChangeState(to: nat): Est {
      if to <= state then this else this.(state := to)
    }

    /** `startActive` and `startPassive`: a dial is refused once the other end has dialed us, an
        incoming connection only by the end of the establishment or by an earlier one. */
    function Start(side: Side, t: int): Outcome {
      if IsEnd() || (side.Active? && IsStarted(Passive)) then
        Outcome(this, false)
      else
        var es := ChangeState(STARTED);
        var a := if Of(side).Some? then Of(side).value else NO_ATTEMPT;
        var first := if side.Active? then CONNECT else HANDSHAKE;
        if first <= a.state then
          Outcome(es.With(side, a), false)
        else
          Outcome(es.With(side, a.ChangeState(first).(startTime := t)), true)
    }

    /** `startActiveHandshake` */
    function StartActiveHandshake(): Outcome {
      if IsEnd() || active.None? || HANDSHAKE <= active.value.state then
        Outcome(this, false)
      else
        Outcome(With(Active, active.value.ChangeState(HANDSHAKE)), true)
    }

    /** `activeAboutSuccess` */
    function AboutSuccess(): Outcome {
      if active.None? || ABOUT_SUCCESS <= active.value.state then
        Outcome(this, false)
      else
        Outcome(With(Active, active.value.ChangeState(ABOUT_SUCCESS)), true)
    }

    /** `activeSuccess` and `passiveSuccess` */
    function Succeed(side: Side, conn: nat): Outcome {
      if Of(side).None? || SUCCESS <= Of(side).value.state then
        Outcome(this, false)
      else
        Outcome(With(side, Of(side).value.ChangeState(SUCCESS).(conn := Some(conn))), true)
    }

    /** `activeFail` and `passiveFail` */
    function Fail(side: Side, e: Error): Outcome {
      if Of(side).None? || FAIL <= Of(side).value.state then
        Outcome(this, false)
      else
        Outcome(With(side, Of(side).value.ChangeState(FAIL).(err := Some(e))), true)
    }

    /** `end` */
    function Finish(s: Option<nat>, e: Option<Error>): Est {
      if END <= state then this
      else this.(state := END, session := s, err := e, signals := signals + 1)
    }

    /** `whichStartEarlier(tie) == 1` */
    predicate ActiveEarlier(tie: bool) {
      IsStarted(Active) &&
      (IsStarted(Passive) ==>
         || active.value.startTime < passive.value.startTime
         || (active.value.startTime == passive.value.startTime && tie))
    }

    /** The choice `establishEnd` makes among its arms. */
    function Decide(tie: bool): Decision {
      if IsSuccess(Active) && (!IsStarted(Passive) || IsFail(Passive)) then
        Decision(Conn(Active), true, None, None)
      else if IsSuccess(Passive) && (!IsStarted(Active) || IsFail(Active)) then
        Decision(Conn(Passive), false, None, None)
      else if IsSuccess(Active) && IsSuccess(Passive) then
        if ActiveEarlier(tie) then Decision(Conn(Active), true, Conn(Passive), None)
        else Decision(Conn(Passive), false, Conn(Active), None)
      else if IsFail(Active) && !IsStarted(Passive) then
        Decision(None, false, None, Err(Active))
      else if IsFail(Passive) && !IsStarted(Active) then
        Decision(None, false, None, Err(Passive))
      else if IsFail(Active) && IsFail(Passive) then
        Decision(None, false, None, if ActiveEarlier(tie) then Err(Active) else Err(Passive))
      else
        Decision(None, false, None, Some(UnknownEndStatus))
    }

    /** Attempts hold what their state promises. */
    predicate WellFormed() {
      forall side :: Of(side).Some? ==>
        var a := Of(side).value;
        && CONNECT <= a.state <= FAIL
        && (a.IsSuccess() ==> a.conn.Some?)
        && (a.IsFail() ==> a.err.Some? && a.err != Some(UnknownEndStatus))
    }
  }

  /** `conn` nil with `err` set means giving up; `drop` is the losing connection, closed on the spot. */
  datatype Decision = Decision(conn: Option<nat>, active: bool, drop: Option<nat>, err: Option<Error>)

  const FRESH := Est(0, None, None, None, None, 0)

  /** When neither direction is still under way the decision is total: it misses the default arm and
      yields exactly one of a connection and an error; it keeps a connection exactly when some direction
      succeeded, and drops one exactly when both did. */
  lemma DecideTotal(es: Est, tie: bool)
    requires es.WellFormed()
    requires es.IsStarted(Active) || es.IsStarted(Passive)
    requires !es.IsEstablishing(Active) && !es.IsEstablishing(Passive)
    ensures var d := es.Decide(tie);
            && d.err != Some(UnknownEndStatus)
            && d.conn.Some? != d.err.Some?
            && (d.conn.Some? <==> es.IsSuccess(Active) || es.IsSuccess(Passive))
            && (d.conn.Some? ==> d.conn == es.Conn(if d.active then Active else Passive)
                                 && es.IsSuccess(if d.active then Active else Passive))
            && (d.drop.Some? <==> es.IsSuccess(Active) && es.IsSuccess(Passive))
            && (d.drop.Some? ==> d.drop == es.Conn(if d.active then Passive else Active))
  {
    assert forall side :: es.Of(side).Some? ==>
        es.Of(side).value.state in {CONNECT, HANDSHAKE, ABOUT_SUCCESS, SUCCESS, FAIL};
    assert es.active == es.Of(Active) && es.passive == es.Of(Passive);
  }

  /** Between two directions that ended alike the one that started earlier wins, or counts, ties going the
      way `tie` says; otherwise the one that succeeded does. */
  lemma EarlierWins(es: Est, tie: bool)
    requires es.WellFormed() && es.active.Some? && es.passive.Some?
    requires !es.IsEstablishing(Active) && !es.IsEstablishing(Passive)
    ensures var d := es.Decide(tie);
            var a, p := es.active.value, es.passive.value;
            var first := if a.startTime < p.startTime || (a.startTime == p.startTime && tie) then Active else Passive;
            && (a.IsSuccess() && p.IsSuccess() ==>
                  d.active == first.Active? && d.conn == es.Conn(first) && d.drop == es.Conn(first.Other()))
            && (a.IsFail() && p.IsFail() ==> d.err == es.Err(first))
            && (a.IsSuccess() != p.IsSuccess() ==> d.active == a.IsSuccess())
  {
    assert es.active == es.Of(Active) && es.passive == es.Of(Passive);
  }

  /** An error that ends it is one a direction has failed with: the only one there was, or by EarlierWins the first. */
  lemma ErrorIsAFailures(es: Est, tie: bool)
    requires es.WellFormed()
    requires es.IsStarted(Active) || es.IsStarted(Passive)
    requires !es.IsEstablishing(Active) && !es.IsEstablishing(Passive)
    ensures var d := es.Decide(tie);
            d.err.Some? ==>
              && (exists side: Side :: es.IsFail(side) && d.err == es.Err(side))
              && forall side: Side :: es.IsStarted(side) && !es.IsStarted(side.Other()) ==> d.err == es.Err(side)
  {
    DecideTotal(es, tie);
    assert es.active == es.Of(Active) && es.passive == es.Of(Passive);
    assert forall side :: es.Of(side).Some? ==>
        es.Of(side).value.state in {CONNECT, HANDSHAKE, ABOUT_SUCCESS, SUCCESS, FAIL};
    var d := es.Decide(tie);
    if d.err.Some? {
      if es.IsFail(Active) && d.err == es.Err(Active) {
        assert es.IsFail(Active) && d.err == es.Err(Active);
      } else {
        assert es.IsFail(Passive) && d.err == es.Err(Passive);
      }
    }
  }

  /** The first statements of either direction leave no attempt short of them. */
  predicate Begun(es: Est) {
    && (es.active.Some? ==> CONNECT <= es.active.value.state)
    && (es.passive.Some? ==> HANDSHAKE <= es.passive.value.state)
  }

  /** A direction starts once, and not after the end; one that dials moreover only as long as the other end has not.
      What has been started is never undone by a refusal. */
  lemma StartsExactlyWhen(es: Est, side: Side, t: int)
    requires Begun(es)
    ensures var o := es.Start(side, t);
            && (o.ok <==> !es.IsEnd() && !es.IsStarted(side) && (side.Active? ==> !es.IsStarted(Passive)))
            && o.es.Of(side.Other()) == es.Of(side.Other())
            && (if o.ok then o.es.IsEstablishing(side) && o.es.Of(side).value.startTime == t
                else o.es.Of(side) == es.Of(side))
            && (o.es.IsEnd() <==> es.IsEnd())
  {
    assert es.active == es.Of(Active) && es.passive == es.Of(Passive);
  }

  /** Once ended, nothing begins any more, and a dial in progress does not reach the handshake. */
  lemma NothingBeginsOnceEnded(es: Est, side: Side, t: int)
    requires es.IsEnd()
    ensures es.Start(side, t) == Outcome(es, false) && es.StartActiveHandshake() == Outcome(es, false)
  {
  }

  /** `establishing` */
  class Establishing {
    var state: nat
    var startTime: int
    var conn: Option<nat>
    var err: Option<Error>

    constructor ()
      ensures View() == NO_ATTEMPT
    {
      state, startTime, conn, err := 0, 0, None, None;
    }

    ghost function View(): Attempt
      reads this
    {
      Attempt(state, startTime, conn, err)
    }

    method ChangeState(to: nat) returns (ok: bool)
      modifies this`state
      ensures ok == (old(state) < to)
      ensures View() == old(View()).ChangeState(to)
    {
      if to <= state { return false; }
      state := to;
      return true;
    }

    method Success(c: nat) returns (ok: bool)
      modifies this
      ensures ok == (old(state) < SUCCESS)
      ensures View() == if ok then old(View()).ChangeState(SUCCESS).(conn := Some(c)) else old(View())
    {
      ok := ChangeState(SUCCESS);
      if ok { conn := Some(c); }
    }

    method Fail(e: Error) returns (ok: bool)
      modifies this
      ensures ok == (old(state) < FAIL)
      ensures View() == if ok then old(View()).ChangeState(FAIL).(err := Some(e)) else old(View())
    {
      ok := ChangeState(FAIL);
      if ok { err := Some(e); }
    }
  }

  /** `establishment`; its mutex makes every method below one atomic step of the state machines. */
  class Establishment {
    var state: nat
    var active: Establishing?
    var passive: Establishing?
    var session: Option<nat>
    var err: Option<Error>
    var signals: nat  // closes of chEnd

    ghost predicate Valid()
      reads this
    {
      active != null ==> active != passive
    }

    ghost function Repr(): set<object>
      reads this
    {
      {this} + (if active == null then {} else {active}) + (if passive == null then {} else {passive})
    }

    ghost function View(): Est
      reads this, active, passive
    {
      Est(state,
          if active == null then None else Some(active.View()),
          if passive == null then None else Some(passive.View()),
          session, err, signals)
    }

    constructor ()
      ensures Valid() && fresh(Repr()) && View() == FRESH
    {
      state, active, passive, session, err, signals := 0, null, null, None, None, 0;
    }

    method IsEstablishing(side: Side) returns (b: bool)
      requires Valid()
      ensures b == View().IsEstablishing(side)
    {
      var a := if side.Active? then active else passive;
      b := a != null && 0 < a.state <= ABOUT_SUCCESS;
    }

    method StartActive(t: int) returns (ok: bool)
      requires Valid()
      modifies Repr()
      ensures Valid() && fresh(Repr() - old(Repr()))
      ensures Outcome(View(), ok) == old(View()).Start(Active, t)
    {
      if state == END || (passive != null && passive.state > 0) { return false; }
      if state < STARTED { state := STARTED; }
      if active == null { active := new Establishing(); }
      ok := active.ChangeState(CONNECT);
      if ok { active.startTime := t; }
    }

    method StartPassive(t: int) returns (ok: bool)
      requires Valid()
      modifies Repr()
      ensures Valid() && fresh(Repr() - old(Repr()))
      ensures Outcome(View(), ok) == old(View()).Start(Passive, t)
    {
      if state == END { return false; }
      if state < STARTED { state := STARTED; }
      if passive == null { passive := new Establishing(); }
      ok := passive.ChangeState(HANDSHAKE);
      if ok { passive.startTime := t; }
    }

    method StartActiveHandshake() returns (ok: bool)
      requires Valid()
      modifies Repr()
      ensures Valid() && Repr() == old(Repr())
      ensures Outcome(View(), ok) == old(View()).StartActiveHandshake()
    {
      if state == END || active == null { return false; }
      ok := active.ChangeState(HANDSHAKE);
    }

    method ActiveAboutSuccess() returns (ok: bool)
      requires Valid()
      modifies Repr()
      ensures Valid() && Repr() == old(Repr())
      ensures Outcome(View(), ok) == old(View()).AboutSuccess()
    {
      if active == null { return false; }
      ok := active.ChangeState(ABOUT_SUCCESS);
    }

    method Succeed(side: Side, conn: nat) returns (ok: bool)
      requires Valid()
      modifies Repr()
      ensures Valid() && Repr() == old(Repr())
      ensures Outcome(View(), ok) == old(View()).Succeed(side, conn)
    {
      var a := if side.Active? then active else passive;
      if a == null { return false; }
      ok := a.Success(conn);
    }

    method Fail(side: Side, e: Error) returns (ok: bool)
      requires Valid()
      modifies Repr()
      ensures Valid() && Repr() == old(Repr())
      ensures Outcome(View(), ok) == old(View()).Fail(side, e)
    {
      var a := if side.Active? then active else passive;
      if a == null { return false; }
      ok := a.Fail(e);
    }

    method End(s: Option<nat>, e: Option<Error>)
      requires Valid()
      modifies this
      ensures Valid() && Repr() == old(Repr())
      ensures View() == old(View()).Finish(s, e)
    {
      if END <= state { return; }
      state := END;
      session, err := s, e;
      signals := signals + 1;
    }

    /** The arms of `establishEnd`, in source order. */
    method ChooseEnd(tie: bool) returns (d: Decision)
      requires Valid()
      ensures d == View().Decide(tie)
    {
      var aState := if active == null then 0 else active.state;
      var pState := if passive == null then 0 else passive.state;
      var aConn := if active == null then None else active.conn;
      var pConn := if passive == null then None else passive.conn;
      var aErr := if active == null then None else active.err;
      var pErr := if passive == null then None else passive.err;
      var earlier := aState > 0 && (pState > 0 ==>
        active.startTime < passive.startTime || (active.startTime == passive.startTime && tie));
      if aState == SUCCESS && (pState == 0 || pState == FAIL) {
        d := Decision(aConn, true, None, None);
      } else if pState == SUCCESS && (aState == 0 || aState == FAIL) {
        d := Decision(pConn, false, None, None);
      } else if aState == SUCCESS && pState == SUCCESS {
        d := if earlier then Decision(aConn, true, pConn, None) else Decision(pConn, false, aConn, None);
      } else if aState == FAIL && pState == 0 {
        d := Decision(None, false, None, aErr);
      } else if pState == FAIL && aState == 0 {
        d := Decision(None, false, None, pErr);
      } else if aState == FAIL && pState == FAIL {
        d := Decision(None, false, None, if earlier then aErr else pErr);
      } else {
        d := Decision(None, false, None, Some(UnknownEndStatus));
      }
    }
  }
}
