/** A timer heap at work: calls of all kinds, from any number of goroutines, in any order whatever. */
module TimerScript {
  import opened TimerOrder
  import opened TimerCatchUp
  import opened Timers

  /** One critical section. StartTimer is two of them, Draw and Start, and so is the loop: Receive and its rounds. */
  datatype Call =
    | Draw
    | Start(id: nat, delay: Nano, periodic: bool, now: Nano)
    | Stop(id: nat)
    | Tick
    | Receive
    | Round(now: Nano)

  /** What a call came to. */
  datatype Event =
    | Idle
    | Drew(id: nat)
    | Started(id: nat, rec: Rec)
    | Stopped(id: nat)
    | Ticked
    | Received
    | Rang(shot: Shot)
    | Left

  /** The timers as the events leave them. */
  function Running(trace: seq<Event>): map<nat, Rec> {
    if trace == [] then map[]
    else
      var m := Running(trace[..|trace| - 1]);
      match trace[|trace| - 1]
      case Started(id, rec) => m[id := rec]
      case Stopped(id) => m - {id}
      case Rang(shot) => if shot.id in m then Fired(m, shot.id) else m
      case _ => m
  }

  /** Those that have been stopped, or have fired and were not periodic. */
  function Over(trace: seq<Event>): set<nat> {
    if trace == [] then {}
    else
      var before := trace[..|trace| - 1];
      match trace[|trace| - 1]
      case Stopped(id) => Over(before) + {id}
      case Rang(shot) => Over(before) + (if shot.id in Running(before) && !Running(before)[shot.id].periodic
                                         then {shot.id} else {})
      case _ => Over(before)
  }

  /** The ids drawn by calls that have yet to start their timer. */
  function Waiting(trace: seq<Event>): set<nat> {
    if trace == [] then {}
    else
      var w := Waiting(trace[..|trace| - 1]);
      match trace[|trace| - 1]
      case Drew(id) => w + {id}
      case Started(id, _) => w - {id}
      case _ => w
  }

  /** Whether the loop is inside update. */
  function Updating(trace: seq<Event>): bool {
    if trace == [] then false
    else if trace[|trace| - 1].Received? then true
    else if trace[|trace| - 1].Left? then false
    else Updating(trace[..|trace| - 1])
  }

  /** The system timer has just gone off, if it was armed. */
  predicate JustTicked(trace: seq<Event>) {
    trace != [] && trace[|trace| - 1].Ticked?
  }

  predicate IsDue(m: map<nat, Rec>, now: int) {
    exists id :: id in m && m[id].expireAt <= now
  }

  /** The right answer to a call, after what has gone before. */
  predicate Answers(before: seq<Event>, call: Call, event: Event) {
    var m := Running(before);
    match call
    case Draw => event.Drew? && event.id !in m && event.id !in Over(before) && event.id !in Waiting(before)
    case Start(id, delay, periodic, now) =>
      event == if id in Waiting(before) then Started(id, Rec(now + delay, delay, periodic)) else Idle
    case Stop(id) => event == if id in m then Stopped(id) else Idle
    case Tick => event == Ticked
    case Receive =>
      if Updating(before) then event == Idle
      else event == Received || (event == Idle && (m == map[] || !JustTicked(before)))
    case Round(now) =>
      if !Updating(before) then event == Idle
      else if !IsDue(m, now) then event == Left
      else
        && event.Rang? && First(m, event.shot.id)
        && event.shot == Shot(event.shot.id, m[event.shot.id].expireAt, now) && event.shot.expireAt <= now
  }

  predicate Proper(script: seq<Call>, trace: seq<Event>) {
    |trace| == |script| && forall i :: 0 <= i < |trace| ==> Answers(trace[..i], script[i], trace[i])
  }

  /** No delay exceeds `longest`, and no clock reading comes so near to the end of 64 bits that one would not fit. */
  predicate Fits(c: Call, longest: Nano) {
    && (c.Start? ==> 0 < c.delay <= longest)
    && (c.Start? || c.Round? ==> c.now + longest <= MAX_INT64)
  }

  ghost predicate Shows(th: TimerHeap, trace: seq<Event>, longest: Nano)
    reads th, th.heap, th.heap.items
  {
    && th.Valid() && th.View() == Running(trace) && th.retired == Over(trace) && th.drawn == Waiting(trace)
    && th.updating == Updating(trace) && (JustTicked(trace) && !th.updating && th.View() != map[] ==> th.pending)
    && forall id :: id in th.View() ==> th.View()[id].delay <= longest
  }

  lemma Last(trace: seq<Event>, e: Event)
    ensures (trace + [e])[..|trace|] == trace && (trace + [e])[|trace|] == e
  {
  }

  method TakeRound(th: TimerHeap, now: Nano, ghost trace: seq<Event>, ghost longest: Nano) returns (event: Event)
    requires Shows(th, trace, longest) && now + longest <= MAX_INT64
    modifies th, th.heap, th.heap.Members()
    ensures Answers(trace, Round(now), event) && Shows(th, trace + [event], longest)
    ensures th.heap.Members() <= old(th.heap.Members())
  {
    event := Idle;
    if th.updating {
      var fired := th.UpdateOnce(now);
      event := if fired.Some? then Rang(fired.value) else Left;
    }
    Last(trace, event);
  }

  method TakeStart(th: TimerHeap, call: Call, waiting: set<nat>, ghost trace: seq<Event>, ghost longest: Nano)
    returns (event: Event)
    requires Shows(th, trace, longest) && Fits(call, longest) && waiting == Waiting(trace) && call.Start?
    modifies th, th.heap, th.heap.Members()
    ensures Answers(trace, call, event) && Shows(th, trace + [event], longest)
    ensures fresh(th.heap.Members() - old(th.heap.Members()))
  {
    event := Idle;
    if call.id in waiting {
      th.StartDrawn(call.id, call.delay, call.periodic, call.now);
      event := Started(call.id, Rec(call.now + call.delay, call.delay, call.periodic));
    }
    Last(trace, event);
  }

  method TakeStop(th: TimerHeap, id: nat, ghost trace: seq<Event>, ghost longest: Nano) returns (event: Event)
    requires Shows(th, trace, longest)
    modifies th, th.heap, th.heap.Members()
    ensures Answers(trace, Stop(id), event) && Shows(th, trace + [event], longest)
    ensures th.heap.Members() <= old(th.heap.Members())
  {
    event := if id in th.timerMap then Stopped(id) else Idle;
    th.StopTimer(id);
    Last(trace, event);
  }

  /** One call. */
  method Take(th: TimerHeap, call: Call, waiting: set<nat>, ghost trace: seq<Event>, ghost longest: Nano)
    returns (event: Event)
    requires Shows(th, trace, longest) && Fits(call, longest) && waiting == Waiting(trace)
    modifies th, th.heap, th.heap.Members()
    ensures Answers(trace, call, event) && Shows(th, trace + [event], longest)
    ensures fresh(th.heap.Members() - old(th.heap.Members()))
  {
    event := Idle;
    match call {
      case Draw =>
        var id := th.GenTimerId();
        event := Drew(id);
      case Start(_, _, _, _) =>
        event := TakeStart(th, call, waiting, trace, longest);
      case Stop(id) =>
        event := TakeStop(th, id, trace, longest);
      case Tick =>
        th.Tick();
        event := Ticked;
      case Receive =>
        if th.pending && !th.updating {
          th.Receive();
          event := Received;
        }
      case Round(now) =>
        event := TakeRound(th, now, trace, longest);
    }
    Last(trace, event);
  }

  /** Whatever is called in whatever order, the heap answers as it should: a timer is started once, fires first among
      those due and no more once it is over, and the heap is as it was to be. */
  method Play(script: seq<Call>, ghost longest: Nano) returns (th: TimerHeap, trace: seq<Event>)
    requires forall i :: 0 <= i < |script| ==> Fits(script[i], longest)
    ensures fresh(th) && th.Valid() && th.View() == Running(trace) && Proper(script, trace)
  {
    th := new TimerHeap();
    trace := [];
    var waiting: set<nat> := {};
    for i := 0 to |script|
      invariant fresh(th) && fresh(th.heap) && fresh(th.heap.Members())
      invariant |trace| == i && Shows(th, trace, longest) && waiting == Waiting(trace)
      invariant forall j :: 0 <= j < i ==> Answers(trace[..j], script[j], trace[j])
    {
      var event := Take(th, script[i], waiting, trace, longest);
      Last(trace, event);
      waiting := if event.Drew? then waiting + {event.id} else if event.Started? then waiting - {event.id} else waiting;
      assert forall j :: 0 <= j < i ==> (trace + [event])[..j] == trace[..j];
      trace := trace + [event];
    }
  }

  // ---------- What such an answer is worth ----------

  predicate Apart(trace: seq<Event>) {
    && Running(trace).Keys !! Over(trace) && Running(trace).Keys !! Waiting(trace) && Over(trace) !! Waiting(trace)
  }

  lemma {:induction false} ProperIsApart(script: seq<Call>, trace: seq<Event>)
    requires Proper(script, trace)
    ensures Apart(trace)
  {
    if trace != [] {
      var n := |trace| - 1;
      ProperPrefix(script, trace, n);
      ProperIsApart(script[..n], trace[..n]);
      assert Answers(trace[..n], script[n], trace[n]);
    }
  }

  lemma ProperPrefix(script: seq<Call>, trace: seq<Event>, n: nat)
    requires Proper(script, trace) && n <= |trace|
    ensures Proper(script[..n], trace[..n])
  {
    assert forall i :: 0 <= i < n ==> trace[..n][..i] == trace[..i];
  }

  lemma {:induction false} OverStays(trace: seq<Event>, i: nat, j: nat)
    requires i <= j <= |trace|
    ensures Over(trace[..i]) <= Over(trace[..j])
    decreases j - i
  {
    if i < j {
      OverStays(trace, i, j - 1);
      assert trace[..j][..j - 1] == trace[..j - 1];
    }
  }

  /** Once over, for good: a timer that has been stopped, or has fired its one time, never fires again. */
  lemma NeverOnceOver(script: seq<Call>, trace: seq<Event>, i: nat, j: nat, id: nat)
    requires Proper(script, trace) && i <= j < |trace| && id in Over(trace[..i])
    ensures trace[j].Rang? ==> trace[j].shot.id != id
    ensures trace[j].Started? ==> trace[j].id != id
  {
    OverStays(trace, i, j);
    ProperPrefix(script, trace, j);
    ProperIsApart(script[..j], trace[..j]);
    assert Answers(trace[..j], script[j], trace[j]);
  }

  /** `id` was started at `i` and has not been stopped since. */
  predicate StartedAt(trace: seq<Event>, i: nat, id: nat) {
    && i < |trace| && trace[i].Started? && trace[i].id == id
    && forall k :: i < k < |trace| ==> trace[k] != Stopped(id)
  }

  /** What is running was started so. */
  lemma {:induction false} RunningWasStarted(trace: seq<Event>, id: nat) returns (i: nat)
    requires id in Running(trace)
    ensures StartedAt(trace, i, id)
    ensures var rec, now := trace[i].rec, Running(trace)[id];
            now == rec.(expireAt := now.expireAt) && (!rec.periodic ==> now == rec)
  {
    var n := |trace| - 1;
    if trace[n].Started? && trace[n].id == id { return n; }
    i := RunningWasStarted(trace[..n], id);
  }

  /** Whatever fires was started before, has not been stopped since, and is due; a one-shot at the expiry it was
      started for. */
  lemma FiresWhileRunning(script: seq<Call>, trace: seq<Event>, j: nat) returns (i: nat)
    requires Proper(script, trace) && j < |trace| && trace[j].Rang?
    ensures StartedAt(trace[..j], i, trace[j].shot.id) && trace[j].shot.expireAt <= trace[j].shot.at
    ensures !trace[i].rec.periodic ==> trace[j].shot.expireAt == trace[i].rec.expireAt
  {
    assert Answers(trace[..j], script[j], trace[j]);
    i := RunningWasStarted(trace[..j], trace[j].shot.id);
  }
}
