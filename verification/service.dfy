/** The service's own objects: its state gate, the map of published sessions and the map of establishments. */
module ServiceObjects {
  import opened Wrappers
  import opened NodeIds
  import opened Establish
  import Model = NodeModel

  // Each method below is one critical section, or one pass when nothing else runs, and is proved to do what a run of
  // NodeModel does; what holds when they interleave is proved there.

  const INIT := 0
  const RUNNING := 1
  const CLOSED := 2

  type State = x: int | INIT <= x <= CLOSED

  datatype StateError = NotStarted | AlreadyStarted | AlreadyClosed | NoListener

  /** The error that names the state one is in. */
  function Naming(s: State): StateError {
    if s == INIT then NotStarted else if s == RUNNING then AlreadyStarted else AlreadyClosed
  }

  /** `sid` is its number in the model. */
  class Session {
    const remote: NodeId
    const sid: nat
    var state: State
    var lastActiveTime: int

    constructor (remote: NodeId, sid: nat)
      ensures this.remote == remote && this.sid == sid && state == INIT
    {
      this.remote, this.sid := remote, sid;
      state, lastActiveTime := INIT, 0;
    }

    method Start(now: int) returns (err: Option<StateError>)
      modifies this
      ensures err == if old(state) == INIT then None else Some(Naming(old(state)))
      ensures state == if err.None? then RUNNING else old(state)
      ensures lastActiveTime == if err.None? && old(lastActiveTime) < now then now else old(lastActiveTime)
    {
      if state != INIT { return Some(Naming(state)); }
      if lastActiveTime < now { lastActiveTime := now; }
      state := RUNNING;
      return None;
    }

    method KeepActive(now: int) returns (err: Option<StateError>)
      modifies this`lastActiveTime
      ensures err == if state == RUNNING then None else Some(Naming(state))
      ensures lastActiveTime ==
              if state == RUNNING && old(lastActiveTime) < now then now else old(lastActiveTime)
    {
      if state != RUNNING { return Some(Naming(state)); }
      if lastActiveTime < now { lastActiveTime := now; }
      return None;
    }
  }

  // ---------- The runs of the model they follow ----------

  /** Only sessions, connections and the closer's position differ. */
  predicate SameEstablishments(n: Model.Node, n': Model.Node) {
    n'.service == n.service && n'.establishments == n.establishments && n'.slots == n.slots && n'.threads == n.threads
  }

  function Closing(sid: nat): seq<Model.Label> {
    [Model.CloseSession(sid), Model.CloseCore(sid), Model.Unpublish(sid)]
  }

  lemma RunAfter(n: Model.Node, a: Model.Label, rest: seq<Model.Label>)
    ensures Model.Run(n, [a] + rest) == Model.Run(Model.Step(n, a), rest)
  {
    assert ([a] + rest)[1..] == rest;
  }

  /** Closing begins. */
  lemma ServiceCloses(n: Model.Node)
    requires n.service.Started?
    ensures Model.Step(n, Model.CloseService) == n.(service := Model.Closed, closer := Model.Ranging({}))
  {
  }

  lemma ClosingSteps(n: Model.Node, sid: nat)
    requires sid < |n.built| && n.built[sid].phase.Live?
    ensures var n1 := Model.Step(n, Model.CloseSession(sid));
            var n' := Model.Step(Model.Step(n1, Model.CloseCore(sid)), Model.Unpublish(sid));
            && n'.built == n.built[sid := n.built[sid].(phase := Model.Gone)]
            && n'.sessions == CompareAndDelete(n.sessions, n.built[sid].remote, sid)
            && SameEstablishments(n, n') && n'.closer == n.closer
  {
    var n1 := Model.Step(n, Model.CloseSession(sid));
    assert n1.built == n.built[sid := n.built[sid].(phase := Model.Phase.Closing)];
    var n2 := Model.Step(n1, Model.CloseCore(sid));
    assert n2.built == n.built[sid := n.built[sid].(phase := Model.CoreClosed)];
  }

  /** A live session closes in one go. */
  lemma ClosingRun(n: Model.Node, sid: nat)
    requires sid < |n.built| && n.built[sid].phase.Live?
    ensures var n' := Model.Run(n, Closing(sid));
            && n'.built == n.built[sid := n.built[sid].(phase := Model.Gone)]
            && n'.sessions == CompareAndDelete(n.sessions, n.built[sid].remote, sid)
            && SameEstablishments(n, n') && n'.closer == n.closer
  {
    Model.RunThree(n, Model.CloseSession(sid), Model.CloseCore(sid), Model.Unpublish(sid));
    ClosingSteps(n, sid);
  }

  /** One entry of the session map is visited: found and closed, then gone. */
  function Visiting(r: NodeId, sid: nat): seq<Model.Label> {
    ([Model.RangeNext(r)] + [Model.RangeClose]) + [Model.CloseCore(sid), Model.Unpublish(sid), Model.RangeDelete]
  }

  lemma VisitBegins(n: Model.Node, r: NodeId)
    requires n.closer.Ranging? && r in n.sessions && r !in n.closer.visited && n.sessions[r] < |n.built|
    ensures var sid := n.sessions[r];
            var n' := Model.Step(Model.Step(n, Model.RangeNext(r)), Model.RangeClose);
            && n'.sessions == n.sessions && |n'.built| == |n.built|
            && n'.built == n.built[sid := n.built[sid].(phase := n'.built[sid].phase)] && !n'.built[sid].phase.Live?
            && n'.closer == Model.Deleting(r, sid, n.closer.visited) && SameEstablishments(n, n')
  {
  }

  lemma CoreCloses(n: Model.Node, sid: nat)
    requires sid < |n.built| && !n.built[sid].phase.Live?
    ensures var n' := Model.Step(n, Model.CloseCore(sid));
            && |n'.built| == |n.built|
            && n'.built == n.built[sid := n.built[sid].(phase := n'.built[sid].phase)] && !n'.built[sid].phase.Live?
            && n'.sessions == n.sessions && n'.closer == n.closer && SameEstablishments(n, n')
  {
  }

  lemma Unpublishes(n: Model.Node, sid: nat)
    requires sid < |n.built| && !n.built[sid].phase.Live?
    ensures var n' := Model.Step(n, Model.Unpublish(sid));
            && (n'.sessions == n.sessions || n'.sessions == CompareAndDelete(n.sessions, n.built[sid].remote, sid))
            && |n'.built| == |n.built|
            && n'.built == n.built[sid := n.built[sid].(phase := n'.built[sid].phase)] && !n'.built[sid].phase.Live?
            && n'.closer == n.closer && SameEstablishments(n, n')
  {
  }

  lemma VisitEnds(n: Model.Node, r: NodeId, sid: nat)
    requires n.closer.Deleting? && n.closer.remote == r && n.closer.sid == sid && sid < |n.built|
    requires !n.built[sid].phase.Live? && r in n.sessions && n.sessions[r] == sid && n.built[sid].remote == r
    ensures var n1 := Model.Step(n, Model.CloseCore(sid));
            var n' := Model.Step(Model.Step(n1, Model.Unpublish(sid)), Model.RangeDelete);
            && n'.sessions == n.sessions - {r} && |n'.built| == |n.built|
            && n'.built == n.built[sid := n.built[sid].(phase := n'.built[sid].phase)] && !n'.built[sid].phase.Live?
            && n'.closer == Model.Ranging(n.closer.visited + {r}) && SameEstablishments(n, n')
  {
    var n1 := Model.Step(n, Model.CloseCore(sid));
    CoreCloses(n, sid);
    Unpublishes(n1, sid);
    RangeDeletes(Model.Step(n1, Model.Unpublish(sid)));
  }

  lemma RangeDeletes(n: Model.Node)
    requires n.closer.Deleting?
    ensures Model.Step(n, Model.RangeDelete) ==
            n.(sessions := CompareAndDelete(n.sessions, n.closer.remote, n.closer.sid),
               closer := Model.Ranging(n.closer.visited + {n.closer.remote}))
  {
  }

  lemma VisitingRun(n: Model.Node, r: NodeId)
    requires n.closer.Ranging? && r in n.sessions && r !in n.closer.visited && n.sessions[r] < |n.built|
    requires n.built[n.sessions[r]].remote == r
    ensures var sid := n.sessions[r];
            var n' := Model.Run(n, Visiting(r, sid));
            && n'.sessions == n.sessions - {r} && |n'.built| == |n.built|
            && n'.built == n.built[sid := n.built[sid].(phase := n'.built[sid].phase)] && !n'.built[sid].phase.Live?
            && n'.closer == Model.Ranging(n.closer.visited + {r}) && SameEstablishments(n, n')
  {
    var sid := n.sessions[r];
    var n2 := Model.Step(Model.Step(n, Model.RangeNext(r)), Model.RangeClose);
    VisitBegins(n, r);
    VisitEnds(n2, r, sid);
    Model.RunConcat(n, [Model.RangeNext(r)], [Model.RangeClose]);
    Model.RunOne(n, Model.RangeNext(r));
    Model.RunOne(Model.Step(n, Model.RangeNext(r)), Model.RangeClose);
    Model.RunConcat(n, [Model.RangeNext(r)] + [Model.RangeClose],
          [Model.CloseCore(sid), Model.Unpublish(sid), Model.RangeDelete]);
    Model.RunThree(n2, Model.CloseCore(sid), Model.Unpublish(sid), Model.RangeDelete);
  }

  /** Sessions are filed under their remotes. */
  predicate Filed(n: Model.Node) {
    forall r :: r in n.sessions ==> n.sessions[r] < |n.built| && n.built[n.sessions[r]].remote == r
  }

  predicate IsFiled(n: Model.Node, i: nat)
    requires i < |n.built|
  {
    n.built[i].remote in n.sessions && n.sessions[n.built[i].remote] == i
  }

  /** Nothing is filed any more, and what was is closed; nothing else has changed. */
  predicate AllClosed(n: Model.Node, m: Model.Node) {
    && m.closer == Model.Done && m.sessions == map[] && SameEstablishments(n, m) && |m.built| == |n.built|
    && forall i: nat :: i < |n.built| ==>
         && m.built[i].remote == n.built[i].remote
         && (m.built[i].phase.Live? <==> n.built[i].phase.Live? && !IsFiled(n, i))
  }

  /** The model's closer goes through the whole map. */
  lemma {:induction false} RangeRun(n: Model.Node) returns (labels: seq<Model.Label>)
    requires n.closer.Ranging? && n.closer.visited !! n.sessions.Keys && Filed(n)
    ensures AllClosed(n, Model.Run(n, labels))
    decreases |n.sessions|
  {
    if n.sessions == map[] {
      labels := [Model.RangeEnd];
      Model.RunOne(n, Model.RangeEnd);
    } else {
      var r :| r in n.sessions;
      var sid := n.sessions[r];
      VisitingRun(n, r);
      var n' := Model.Run(n, Visiting(r, sid));
      assert |n'.sessions| < |n.sessions|;
      var rest := RangeRun(n');
      Model.RunConcat(n, Visiting(r, sid), rest);
      labels := Visiting(r, sid) + rest;
      VisitedThenAll(n, n', r, Model.Run(n', rest));
    }
  }

  lemma VisitedThenAll(n: Model.Node, n': Model.Node, r: NodeId, m: Model.Node)
    requires Filed(n) && r in n.sessions && AllClosed(n', m) && SameEstablishments(n, n')
    requires n'.sessions == n.sessions - {r} && |n'.built| == |n.built|
    requires var sid := n.sessions[r];
             n'.built == n.built[sid := n.built[sid].(phase := n'.built[sid].phase)] && !n'.built[sid].phase.Live?
    ensures AllClosed(n, m)
  {
    forall i: nat | i < |n.built|
      ensures && m.built[i].remote == n.built[i].remote
              && (m.built[i].phase.Live? <==> n.built[i].phase.Live? && !IsFiled(n, i))
    {
      if i != n.sessions[r] { assert IsFiled(n', i) <==> IsFiled(n, i); }
    }
  }

  // ---------- Publishing ----------

  function Go(t: nat, self: NodeId): Model.Label {
    Model.Thread(t, Model.Choice(true, 0, CoreStart, self))
  }

  /** A goroutine inside `establishEnd` with a session in hand that is not filed. */
  predicate AboutToPublish(n: Model.Node, t: nat, e: nat, side: Side, sid: nat) {
    && t < |n.threads| && n.threads[t] == Model.LockSession(e, side, sid)
    && sid < |n.built| && n.built[sid].lock.Unlocked?
    && e < |n.slots| && sid < |n.built| && n.built[sid].remote == n.slots[e].remote && !IsFiled(n, sid)
    && n.slots[e].es.state < END
  }

  /** What the goroutine has come to, the establishment ended with `found` or `err`. */
  predicate HasEnded(n: Model.Node, m: Model.Node, t: nat, e: nat, found: Option<nat>, err: Option<Error>)
    requires e < |n.slots|
  {
    && |m.threads| == |n.threads| && t < |m.threads| && m.threads[t].Wait?
    && |m.slots| == |n.slots| && m.slots[e].es == n.slots[e].es.Finish(found, err) && m.slots[e].mutex.None?
    && m.establishments == CompareAndDelete(n.establishments, n.slots[e].remote, e)
    && m.service == n.service && |m.built| == |n.built|
    && forall i: nat :: i < |n.built| ==> m.built[i].remote == n.built[i].remote
  }

  lemma Locks(n: Model.Node, t: nat, e: nat, side: Side, sid: nat)
    requires AboutToPublish(n, t, e, side, sid)
    ensures Model.Step(n, Go(t, n.self)) ==
            Model.Goto(n, t, if n.built[sid].phase.Live? then Model.Publish(e, side, sid)
                       else Model.GiveUp(e, side, SessionClosed))
  {
  }

  /** `m` is `n` but for what is given. */
  predicate Moved(n: Model.Node, m: Model.Node, t: nat, pc: Model.Pc)
    requires t < |n.threads|
  {
    m.threads == n.threads[t := pc] && m.slots == n.slots && m.service == n.service && m.self == n.self
  }

  lemma Publishes(n: Model.Node, t: nat, e: nat, side: Side, sid: nat)
    requires t < |n.threads| && n.threads[t] == Model.Publish(e, side, sid) && e < |n.slots| && sid < |n.built|
    ensures var m, r := Model.Step(n, Go(t, n.self)), n.slots[e].remote;
            if n.service.Started? then
              && Moved(n, m, t, Model.Signal(e, side, sid)) && m.sessions == n.sessions[r := sid]
              && m.built == n.built[sid := n.built[sid].(published := true)]
              && m.establishments == CompareAndDelete(n.establishments, r, e)
            else m == Model.Goto(n, t, Model.Abort(e, side, sid))
  {
  }

  lemma Signals(n: Model.Node, t: nat, e: nat, side: Side, sid: nat)
    requires t < |n.threads| && n.threads[t] == Model.Signal(e, side, sid) && e < |n.slots|
    ensures var m := Model.Step(n, Go(t, n.self));
            && m == n.(threads := n.threads[t := Model.Wait(e, side)], slots := m.slots) && |m.slots| == |n.slots|
            && m.slots[e].es == n.slots[e].es.Finish(Some(sid), None) && m.slots[e].mutex.None?
  {
  }

  lemma Aborting(n: Model.Node, t: nat, e: nat, side: Side, sid: nat)
    requires t < |n.threads| && n.threads[t] == Model.Abort(e, side, sid) && e < |n.slots|
    requires sid < |n.built| && n.built[sid].phase.Live?
    ensures var m := Model.Step(n, Go(t, n.self));
            && Moved(n, m, t, Model.GiveUp(e, side, ServiceClosed))
            && m.sessions == n.sessions && m.establishments == n.establishments
            && m.built == n.built[sid := n.built[sid].(phase := Model.Gone)]
  {
  }

  lemma GivingUp(n: Model.Node, t: nat, e: nat, side: Side, err: Error)
    requires t < |n.threads| && n.threads[t] == Model.GiveUp(e, side, err) && e < |n.slots|
    ensures var m := Model.Step(Model.Step(n, Go(t, n.self)), Go(t, n.self));
            HasEnded(n, m, t, e, None, Some(err)) && m.sessions == n.sessions && m.built == n.built
  {
    var n1 := Model.Step(n, Go(t, n.self));
    assert n1.threads[t] == Model.Forget(e, side) && n1.slots[e].es == n.slots[e].es.Finish(None, Some(err));
  }

  lemma PublishRun(n: Model.Node, t: nat, e: nat, side: Side, sid: nat)
    requires AboutToPublish(n, t, e, side, sid) && n.built[sid].phase.Live? && n.service.Started?
    ensures var m := Model.Run(n, [Go(t, n.self), Go(t, n.self), Go(t, n.self)]);
            && HasEnded(n, m, t, e, Some(sid), None) && m.sessions == n.sessions[n.slots[e].remote := sid]
            && forall i: nat :: i < |n.built| ==> m.built[i].phase == n.built[i].phase
  {
    Model.RunThree(n, Go(t, n.self), Go(t, n.self), Go(t, n.self));
    Locks(n, t, e, side, sid);
    var n1 := Model.Goto(n, t, Model.Publish(e, side, sid));
    Publishes(n1, t, e, side, sid);
    Signals(Model.Step(n1, Go(t, n.self)), t, e, side, sid);
  }

  lemma ClosedSessionRun(n: Model.Node, t: nat, e: nat, side: Side, sid: nat)
    requires AboutToPublish(n, t, e, side, sid) && !n.built[sid].phase.Live?
    ensures var m := Model.Run(n, [Go(t, n.self), Go(t, n.self), Go(t, n.self)]);
            HasEnded(n, m, t, e, None, Some(SessionClosed)) && m.sessions == n.sessions && m.built == n.built
  {
    Model.RunThree(n, Go(t, n.self), Go(t, n.self), Go(t, n.self));
    Locks(n, t, e, side, sid);
    GivingUp(Model.Goto(n, t, Model.GiveUp(e, side, SessionClosed)), t, e, side, SessionClosed);
  }

  lemma ClosedServiceRun(n: Model.Node, t: nat, e: nat, side: Side, sid: nat)
    requires AboutToPublish(n, t, e, side, sid) && n.built[sid].phase.Live? && !n.service.Started?
    ensures var a := Go(t, n.self);
            var m := Model.Run(n, [a, a, a] + ([a] + [a]));
            && HasEnded(n, m, t, e, None, Some(ServiceClosed)) && m.sessions == n.sessions
            && forall i: nat :: i < |n.built| ==> (m.built[i].phase.Live? <==> n.built[i].phase.Live? && i != sid)
  {
    var a := Go(t, n.self);
    Abandoning(n, t, e, side, sid);
    var n3 := Model.Run(n, [a, a, a]);
    GivingUp(n3, t, e, side, ServiceClosed);
    Model.RunConcat(n, [a, a, a], [a] + [a]);
    Model.RunConcat(n3, [a], [a]);
    Model.RunOne(n3, a);
    Model.RunOne(Model.Step(n3, a), a);
  }

  lemma Abandoning(n: Model.Node, t: nat, e: nat, side: Side, sid: nat)
    requires AboutToPublish(n, t, e, side, sid) && n.built[sid].phase.Live? && !n.service.Started?
    ensures var m := Model.Run(n, [Go(t, n.self), Go(t, n.self), Go(t, n.self)]);
            && Moved(n, m, t, Model.GiveUp(e, side, ServiceClosed))
            && m.sessions == n.sessions && m.establishments == n.establishments
            && m.built == n.built[sid := n.built[sid].(phase := Model.Gone)]
  {
    Model.RunThree(n, Go(t, n.self), Go(t, n.self), Go(t, n.self));
    Locks(n, t, e, side, sid);
    Publishes(Model.Goto(n, t, Model.Publish(e, side, sid)), t, e, side, sid);
    assert Model.Goto(Model.Goto(n, t, Model.Publish(e, side, sid)), t, Model.Abort(e, side, sid)) ==
           Model.Goto(n, t, Model.Abort(e, side, sid));
    Aborting(Model.Goto(n, t, Model.Abort(e, side, sid)), t, e, side, sid);
  }

  /** How `establishEndCreateSession` ends: by which session, or why without. */
  function OutcomeOf(live: bool, running: bool, sid: nat): (Option<nat>, Option<Error>) {
    if !live then (None, Some(SessionClosed))
    else if !running then (None, Some(ServiceClosed))
    else (Some(sid), None)
  }

  predicate Concluded(n: Model.Node, m: Model.Node, t: nat, e: nat, sid: nat)
    requires e < |n.slots| && sid < |n.built|
  {
    var outcome := OutcomeOf(n.built[sid].phase.Live?, n.service.Started?, sid);
    HasEnded(n, m, t, e, outcome.0, outcome.1) && SessionSettled(n, m, sid, n.service.Started?)
  }

  /** The session in hand is filed, or closed. */
  predicate SessionSettled(n: Model.Node, m: Model.Node, sid: nat, running: bool)
    requires sid < |n.built|
  {
    && m.sessions == (if n.built[sid].phase.Live? && running then n.sessions[n.built[sid].remote := sid]
                      else n.sessions)
    && |m.built| == |n.built|
    && forall i: nat :: i < |n.built| ==>
         && m.built[i].remote == n.built[i].remote
         && (m.built[i].phase.Live? <==> n.built[i].phase.Live? && (i == sid ==> running))
  }

  lemma ConcludingRun(n: Model.Node, t: nat, e: nat, side: Side, sid: nat) returns (labels: seq<Model.Label>)
    requires AboutToPublish(n, t, e, side, sid)
    ensures Concluded(n, Model.Run(n, labels), t, e, sid)
  {
    var a := Go(t, n.self);
    labels := [a, a, a];
    if !n.built[sid].phase.Live? {
      ClosedSessionRun(n, t, e, side, sid);
    } else if !n.service.Started? {
      ClosedServiceRun(n, t, e, side, sid);
      labels := [a, a, a] + ([a] + [a]);
    } else {
      PublishRun(n, t, e, side, sid);
    }
  }

  class SessionMap {
    var entries: map<NodeId, Session>
    ghost var built: seq<Session>  // every session there is, by number

    /** Every session is filed under the node it leads to. */
    ghost predicate Valid()
      reads this
    {
      && (forall i :: 0 <= i < |built| ==> built[i].sid == i)
      && (forall r :: r in entries ==>
            entries[r].remote == r && entries[r].sid < |built| && built[entries[r].sid] == entries[r])
    }

    /** The sessions of `n` are these. */
    ghost predicate Shows(n: Model.Node)
      reads this, built
    {
      && Valid() && |n.built| == |built|
      && (forall i :: 0 <= i < |built| ==>
            && n.built[i].remote == built[i].remote
            && built[i].state == (if n.built[i].phase.Live? then RUNNING else CLOSED))
      && n.sessions.Keys == entries.Keys && (forall r :: r in entries ==> n.sessions[r] == entries[r].sid)
    }

    constructor ()
      ensures Valid() && entries == map[] && built == []
    {
      entries, built := map[], [];
    }

    method Get(r: NodeId) returns (s: Option<Session>)
      ensures s == if r in entries then Some(entries[r]) else None
    {
      s := if r in entries then Some(entries[r]) else None;
    }

    method Add(s: Session)
      requires Valid() && s.sid < |built| && built[s.sid] == s
      modifies this`entries
      ensures Valid() && entries == old(entries)[s.remote := s]
    {
      entries := entries[s.remote := s];
    }

    method Remove(s: Session) returns (deleted: bool)
      requires Valid()
      modifies this`entries
      ensures Valid() && deleted == (s in old(entries.Values))
      ensures entries == CompareAndDelete(old(entries), s.remote, s)
    {
      deleted := s.remote in entries && entries[s.remote] == s;
      if deleted { entries := entries - {s.remote}; }
    }

    /** A closing session switches its state once, then takes itself out of the map. */
    method CloseOnce(s: Session)
      requires Valid()
      modifies this`entries, s`state
      ensures Valid() && s.state == CLOSED
      ensures entries == if old(s.state) == CLOSED then old(entries) else CompareAndDelete(old(entries), s.remote, s)
    {
      if s.state == CLOSED { return; }
      s.state := CLOSED;
      var _ := Remove(s);
    }

    /** As a live session of the model closes, closes its core and is unpublished. */
    method CloseSession(s: Session, ghost n: Model.Node) returns (ghost labels: seq<Model.Label>)
      requires Shows(n) && s.sid < |built| && built[s.sid] == s
      modifies this`entries, s`state
      ensures Shows(Model.Run(n, labels)) && SameEstablishments(n, Model.Run(n, labels)) && s.state == CLOSED
      ensures labels == if n.built[s.sid].phase.Live? then Closing(s.sid) else []
    {
      if n.built[s.sid].phase.Live? { ClosingRun(n, s.sid); }
      labels := if n.built[s.sid].phase.Live? then Closing(s.sid) else [];
      CloseOnce(s);
    }

    /** A session that still runs is filed if the service does too, else closed. */
    method Settle(s: Session, running: bool, ghost n: Model.Node, ghost m: Model.Node) returns (err: Option<Error>)
      requires Shows(n) && s.sid < |built| && s == built[s.sid] && !IsFiled(n, s.sid)
      requires SessionSettled(n, m, s.sid, running)
      modifies this`entries, s`state
      ensures Shows(m) && err == OutcomeOf(n.built[s.sid].phase.Live?, running, s.sid).1
    {
      if s.state != RUNNING { return Some(SessionClosed); }
      if !running {
        CloseOnce(s);
        return Some(ServiceClosed);
      }
      Add(s);
      return None;
    }

    /** Ranges over the map in any order, closing and removing: every session it held is closed, no other is
        touched, and nothing is left; as after a run of the model's closer. */
    method Close(ghost n: Model.Node) returns (ghost labels: seq<Model.Label>)
      requires Shows(n) && n.closer == Model.Ranging({})
      modifies this`entries, entries.Values`state
      ensures AllClosed(n, Model.Run(n, labels)) && Shows(Model.Run(n, labels))
      ensures entries == map[] && forall s: Session :: s in old(entries.Values) ==> s.state == CLOSED
    {
      CloseAll();
      labels := RangeRun(n);
    }

    method CloseAll()
      requires Valid()
      modifies this`entries, entries.Values`state
      ensures Valid() && entries == map[] && built == old(built)
      ensures forall s: Session :: s in old(entries.Values) ==> s.state == CLOSED
    {
      ghost var before := entries;
      var todo := entries.Keys;
      while todo != {}
        invariant Valid() && entries.Keys == todo <= before.Keys
        invariant forall r :: r in entries ==> entries[r] == before[r]
        invariant forall r :: r in before && r !in todo ==> before[r].state == CLOSED
        decreases todo
      {
        var r :| r in todo;
        todo := todo - {r};
        var s := entries[r];
        CloseOnce(s);
        entries := CompareAndDelete(entries, r, s);
      }
    }
  }

  class Service {
    var state: State
    const sessions: SessionMap
    var establishments: map<NodeId, Establishment>
    ghost var slots: seq<Establishment>  // every establishment there is, by number

    /** The service is in the state `n` describes. */
    ghost predicate Represents(n: Model.Node)
      reads this, sessions, sessions.built
    {
      && n.service == (if state == INIT then Model.Init else if state == RUNNING then Model.Started else Model.Closed)
      && sessions.Shows(n) && Lists(n.establishments, |n.slots|)
    }

    /** The entries are these, among `count` establishments there are. */
    ghost predicate Lists(entries: map<NodeId, nat>, count: nat)
      reads this
    {
      && count == |slots| && (forall i, j :: 0 <= i < j < |slots| ==> slots[i] != slots[j])
      && entries.Keys == establishments.Keys
      && (forall r :: r in establishments ==> entries[r] < |slots| && slots[entries[r]] == establishments[r])
    }

    constructor (self: NodeId)
      ensures state == INIT && Represents(Model.Initial(self))
    {
      state, establishments, slots := INIT, map[], [];
      sessions := new SessionMap();
    }

    /** `lockState`: the caller goes on exactly in the state it needs. */
    method LockState(need: State) returns (err: Option<StateError>)
      ensures err.None? <==> state == need
      ensures err.Some? ==> err.value == Naming(state)
    {
      if state == need { return None; }
      if state == INIT { return Some(NotStarted); }
      if state == RUNNING { return Some(AlreadyStarted); }
      return Some(AlreadyClosed);
    }

    /** Starting works from the initial state, if there is a listener to be had. */
    method Start(listens: bool, ghost n: Model.Node) returns (err: Option<StateError>)
      requires Represents(n)
      modifies this`state
      ensures err == if old(state) != INIT then Some(Naming(old(state))) else if listens then None else Some(NoListener)
      ensures Represents(if err.None? then Model.Step(n, Model.StartService) else n)
    {
      err := LockState(INIT);
      if err.Some? { return; }
      if !listens { return Some(NoListener); }
      state := RUNNING;
    }

    /** Closing works once, from the running state, as a run of the model that closes the service and then every
        session filed. */
    method Close(ghost n: Model.Node) returns (err: Option<StateError>, ghost labels: seq<Model.Label>)
      requires Represents(n) && (n.service.Started? ==> n.closer.Idle?)
      modifies this`state, sessions`entries, sessions.entries.Values`state
      ensures err == if old(state) == RUNNING then None else Some(Naming(old(state)))
      ensures Represents(Model.Run(n, labels))
      ensures err.None? ==> AllClosed(Model.Step(n, Model.CloseService), Model.Run(n, labels))
    {
      labels := [];
      err := LockState(RUNNING);
      if err.Some? { return; }
      state := CLOSED;
      ServiceCloses(n);
      labels := sessions.Close(n.(service := Model.Closed, closer := Model.Ranging({})));
      RunAfter(n, Model.CloseService, labels);
      labels := [Model.CloseService] + labels;
    }

    /** Finds what the model's `GetSession` finds; finding it counts as activity. */
    method GetSession(r: NodeId, now: int, ghost n: Model.Node) returns (found: Option<Session>)
      requires Represents(n)
      modifies sessions.entries.Values`lastActiveTime
      ensures Represents(n)
      ensures Model.GetSession(n, r) == if found.Some? then Some(found.value.sid) else None
      ensures found.Some? ==>
                sessions.built[found.value.sid] == found.value && now <= found.value.lastActiveTime
      ensures forall s :: s in sessions.entries.Values && found != Some(s) ==> s.lastActiveTime == old(s.lastActiveTime)
    {
      var err := LockState(RUNNING);
      if err.Some? { return None; }
      found := sessions.Get(r);
      if found.Some? {
        var inactive := found.value.KeepActive(now);
        if inactive.Some? { found := None; }
      }
    }

    /** The establishment on file for a node, or else a new one put on file, as in the model. */
    method GetOrCreateEstablishment(r: NodeId, ghost n: Model.Node) returns (es: Establishment)
      requires Represents(n)
      modifies this`establishments, this`slots
      ensures Represents(Model.GetOrCreate(n, r).0)
      ensures Model.GetOrCreate(n, r).1 < |slots| && slots[Model.GetOrCreate(n, r).1] == es && old(slots) <= slots
      ensures r !in old(establishments) ==> fresh(es) && es.Valid() && es.View() == FRESH
    {
      if r in establishments { return establishments[r]; }
      es := new Establishment();
      establishments := establishments[r := es];
      slots := slots + [es];
    }

    /** The end of an establishment with a session in hand, as the model's goroutine comes to it: the session is
        published if it still runs and so does the service, else it ends up closed and unpublished. */
    method Publish(es: Establishment, session: Session, ghost n: Model.Node, ghost t: nat, ghost e: nat,
                   ghost side: Side)
      returns (ghost labels: seq<Model.Label>)
      requires Represents(n) && AboutToPublish(n, t, e, side, session.sid)
      requires es.Valid() && slots[e] == es && n.slots[e].es == es.View()
      requires session == sessions.built[session.sid]
      modifies this`establishments, sessions`entries, session`state, es
      ensures var m := Model.Run(n, labels);
              && Represents(m) && Concluded(n, m, t, e, session.sid)
              && es.Valid() && m.slots[e].es == es.View()
    {
      labels := ConcludingRun(n, t, e, side, session.sid);
      ConcludeAs(es, session, n, Model.Run(n, labels), e);
    }

    method ConcludeAs(es: Establishment, session: Session, ghost n: Model.Node, ghost m: Model.Node, ghost e: nat)
      requires Represents(n) && session.sid < |n.built| && session == sessions.built[session.sid]
      requires es.Valid() && e < |slots| && slots[e] == es && n.slots[e].es == es.View()
      requires !IsFiled(n, session.sid) && SessionSettled(n, m, session.sid, n.service.Started?)
      requires m.service == n.service && |m.slots| == |n.slots|
      requires m.establishments == CompareAndDelete(n.establishments, session.remote, e)
      requires var outcome := OutcomeOf(n.built[session.sid].phase.Live?, n.service.Started?, session.sid);
               m.slots[e].es == n.slots[e].es.Finish(outcome.0, outcome.1)
      modifies this`establishments, sessions`entries, session`state, es
      ensures Represents(m) && es.Valid() && m.slots[e].es == es.View()
    {
      var err := sessions.Settle(session, state == RUNNING, n, m);
      EndAs(es, session.remote, if err.None? then Some(session.sid) else None, err, n.establishments, e);
    }

    /** The establishment ends, and is off file. */
    method EndAs(es: Establishment, r: NodeId, found: Option<nat>, err: Option<Error>,
                 ghost entries: map<NodeId, nat>, ghost e: nat)
      requires Lists(entries, |slots|) && e < |slots| && slots[e] == es && es.Valid()
      modifies this`establishments, es
      ensures Lists(CompareAndDelete(entries, r, e), |slots|)
      ensures es.Valid() && es.View() == old(es.View()).Finish(found, err)
    {
      TakeOff(r, es, entries, e);
      es.End(found, err);
    }

    /** The establishment is taken off file, if it still is on. */
    method TakeOff(r: NodeId, es: Establishment, ghost entries: map<NodeId, nat>, ghost e: nat)
      requires Lists(entries, |slots|) && e < |slots| && slots[e] == es
      modifies this`establishments
      ensures Lists(CompareAndDelete(entries, r, e), |slots|)
    {
      establishments := CompareAndDelete(establishments, r, es);
    }
  }
}
