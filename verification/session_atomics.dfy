/** The two compare-and-swap loops of a session under any number of threads: refreshing the time of last
    activity, and closing, with or without the session's write lock held. */
module SessionAtomics {
  import opened Wrappers

  datatype Thread =
    // refreshActiveTime
    | ReadClock
    | LoadTime(t: int)
    | SwapTime(t: int, seen: int)
    | Refreshed(t: int)
    // closeBaseLocked
    | Acquire                              // lockState first: the write lock, if still started
    | LoadState(locked: bool)
    | SwapState(locked: bool, seen: int)
    | Body(locked: bool)                   // won: runs the close logic, the lock released
    | Closed(locked: bool)
    | Lost(locked: bool)                   // another closer had won; `locked` if the lock was held

  const STARTED := 1
  const CLOSED := 2

  datatype Session = Session(state: nat, lastActive: int, lock: Option<nat>, threads: seq<Thread>)

  datatype Label = Refresh | Close(locked: bool) | Run(i: nat, now: int)

  function Initial(startedAt: int): Session {
    Session(STARTED, startedAt, None, [])
  }

  function Set(s: Session, i: nat, x: Thread): Session
    requires i < |s.threads|
  {
    s.(threads := s.threads[i := x])
  }

  function ThreadStep(s: Session, i: nat, now: int): Session
    requires i < |s.threads|
  {
    match s.threads[i]
    case ReadClock => Set(s, i, LoadTime(now))
    case LoadTime(t) => Set(s, i, if s.lastActive >= t then Refreshed(t) else SwapTime(t, s.lastActive))
    case SwapTime(t, seen) =>
      if s.lastActive == seen then Set(s.(lastActive := t), i, Refreshed(t)) else Set(s, i, LoadTime(t))
    case Refreshed(_) => s
    case Acquire =>
      if s.lock.None? then
        if s.state == STARTED then Set(s.(lock := Some(i)), i, LoadState(true)) else Set(s, i, Lost(false))
      else s
    case LoadState(locked) => Set(s, i, if s.state == CLOSED then Lost(locked) else SwapState(locked, s.state))
    case SwapState(locked, seen) =>
      if s.state == seen then Set(s.(state := CLOSED, lock := if locked then None else s.lock), i, Body(locked))
      else Set(s, i, LoadState(locked))
    case Body(locked) => Set(s, i, Closed(locked))
    case Closed(_) => s
    case Lost(_) => s
  }

  function Step(s: Session, a: Label): Session {
    match a
    case Refresh => s.(threads := s.threads + [ReadClock])
    case Close(locked) => s.(threads := s.threads + [if locked then Acquire else LoadState(false)])
    case Run(i, now) => if i < |s.threads| then ThreadStep(s, i, now) else s
  }

  function RunAll(s: Session, labels: seq<Label>): Session
    decreases |labels|
  {
    if labels == [] then s else RunAll(Step(s, labels[0]), labels[1..])
  }

  predicate Won(x: Thread) {
    x.Body? || x.Closed?
  }

  /** A locked closer on its way, or one that lost. */
  predicate HoldsLock(x: Thread) {
    (x.LoadState? || x.SwapState? || x.Lost?) && x.locked
  }

  predicate ThreadOk(s: Session, i: nat)
    requires i < |s.threads|
  {
    var x := s.threads[i];
    && (x.Refreshed? ==> x.t <= s.lastActive)
    && (x.SwapTime? ==> x.seen < x.t)
    && (x.SwapState? ==> x.seen == STARTED)
    && (x.Lost? ==> s.state == CLOSED)
    && (Won(x) ==> s.state == CLOSED)
    && (HoldsLock(x) <==> s.lock == Some(i))
  }

  ghost predicate Inv(s: Session) {
    && (s.state == STARTED || s.state == CLOSED)
    && (forall i: nat :: i < |s.threads| ==> ThreadOk(s, i))
    && (forall i: nat, j: nat :: i < |s.threads| && j < |s.threads| && Won(s.threads[i]) && Won(s.threads[j]) ==>
          i == j)
    && (s.state == CLOSED ==> exists i: nat :: i < |s.threads| && Won(s.threads[i]))
    && (s.lock.Some? ==> s.lock.value < |s.threads|)
  }

  lemma OthersOk(s: Session, i: nat, now: int, j: nat)
    requires Inv(s) && i < |s.threads| && j < |s.threads|
    ensures ThreadOk(ThreadStep(s, i, now), j)
  {
    assert ThreadOk(s, i) && ThreadOk(s, j);
  }

  /** The state only goes from started to closed, and the time of last activity only up; a thread wins only by
      closing. */
  lemma ThreadStepEffect(s: Session, i: nat, now: int)
    requires i < |s.threads| && ThreadOk(s, i)
    ensures var s' := ThreadStep(s, i, now);
            && |s'.threads| == |s.threads| && s'.threads == s.threads[i := s'.threads[i]]
            && s.lastActive <= s'.lastActive
            && (if Won(s'.threads[i]) && !Won(s.threads[i]) then s.state == STARTED && s'.state == CLOSED
                else s'.state == s.state && Won(s'.threads[i]) == Won(s.threads[i]))
            && (s'.lock.Some? ==> s'.lock == s.lock || s'.lock == Some(i))
  {
  }

  lemma ThreadStepInv(s: Session, i: nat, now: int)
    requires Inv(s) && i < |s.threads|
    ensures Inv(ThreadStep(s, i, now)) && s.lastActive <= ThreadStep(s, i, now).lastActive
  {
    var s' := ThreadStep(s, i, now);
    assert ThreadOk(s, i);
    ThreadStepEffect(s, i, now);
    forall j: nat | j < |s'.threads| ensures ThreadOk(s', j) {
      OthersOk(s, i, now, j);
    }
    if s.state == CLOSED {
      var w: nat :| w < |s.threads| && Won(s.threads[w]);
      assert Won(s'.threads[w]);
    } else {
      forall j: nat | j < |s.threads| ensures !Won(s.threads[j]) {
        assert ThreadOk(s, j);
      }
      assert s'.state == CLOSED ==> Won(s'.threads[i]);
    }
  }

  lemma StepInv(s: Session, a: Label)
    requires Inv(s)
    ensures Inv(Step(s, a)) && s.lastActive <= Step(s, a).lastActive
  {
    if a.Run? {
      if a.i < |s.threads| { ThreadStepInv(s, a.i, a.now); }
    } else {
      var s' := Step(s, a);
      forall j: nat | j < |s'.threads| ensures ThreadOk(s', j) {
        if j < |s.threads| { assert ThreadOk(s, j); }
      }
      if s.state == CLOSED {
        var w: nat :| w < |s.threads| && Won(s.threads[w]);
        assert Won(s'.threads[w]);
      }
    }
  }

  lemma {:induction false} RunInv(s: Session, labels: seq<Label>)
    requires Inv(s)
    ensures Inv(RunAll(s, labels)) && s.lastActive <= RunAll(s, labels).lastActive
    decreases |labels|
  {
    if labels != [] {
      StepInv(s, labels[0]);
      RunInv(Step(s, labels[0]), labels[1..]);
    }
  }

  /** The time of last activity never goes back, and no completed refresh is lost: it is at least every clock
      reading a finished refresher took. */
  lemma ActiveTimeIsMonotone(startedAt: int, before: seq<Label>, after: seq<Label>, i: nat)
    ensures var s := RunAll(Initial(startedAt), before);
            && s.lastActive <= RunAll(s, after).lastActive
            && (i < |s.threads| && s.threads[i].Refreshed? ==> s.threads[i].t <= RunAll(s, after).lastActive)
  {
    RunInv(Initial(startedAt), before);
    var s := RunAll(Initial(startedAt), before);
    RunInv(s, after);
    if i < |s.threads| { assert ThreadOk(s, i); }
  }

  /** Neither the time of last activity nor a reading about to become it is later than `limit`. */
  ghost predicate NotAhead(s: Session, limit: int) {
    && s.lastActive <= limit
    && forall i: nat :: i < |s.threads| ==>
         (s.threads[i].LoadTime? || s.threads[i].SwapTime? ==> s.threads[i].t <= limit)
  }

  predicate ReadsUpTo(labels: seq<Label>, limit: int) {
    forall k :: 0 <= k < |labels| && labels[k].Run? ==> labels[k].now <= limit
  }

  lemma {:induction false} RunNotAhead(s: Session, labels: seq<Label>, limit: int)
    requires NotAhead(s, limit) && ReadsUpTo(labels, limit)
    ensures NotAhead(RunAll(s, labels), limit)
    decreases |labels|
  {
    if labels != [] {
      if labels[0].Run? && labels[0].i < |s.threads| { StepNotAhead(s, labels[0].i, labels[0].now, limit); }
      RunNotAhead(Step(s, labels[0]), labels[1..], limit);
    }
  }

  lemma StepNotAhead(s: Session, i: nat, now: int, limit: int)
    requires NotAhead(s, limit) && i < |s.threads| && now <= limit
    ensures NotAhead(ThreadStep(s, i, now), limit)
  {
  }

  /** And it never runs ahead: it is never later than the latest reading of the clock. */
  lemma ActiveTimeWasRead(startedAt: int, labels: seq<Label>, limit: int)
    requires startedAt <= limit && ReadsUpTo(labels, limit)
    ensures RunAll(Initial(startedAt), labels).lastActive <= limit
  {
    RunNotAhead(Initial(startedAt), labels, limit);
  }

  /** Of any number of concurrent closers exactly one runs the close body: never two, and when any closer has
      come back, or gone on to the body, there is one. */
  lemma OneCloserWins(startedAt: int, labels: seq<Label>, i: nat, j: nat)
    ensures var s := RunAll(Initial(startedAt), labels);
            i < |s.threads| && j < |s.threads| && (Won(s.threads[i]) || s.threads[i].Lost?) ==>
              && (exists w: nat :: w < |s.threads| && Won(s.threads[w]))
              && (Won(s.threads[i]) && Won(s.threads[j]) ==> i == j)
              && s.state == CLOSED
  {
    RunInv(Initial(startedAt), labels);
    var s := RunAll(Initial(startedAt), labels);
    if i < |s.threads| { assert ThreadOk(s, i); }
  }

  /** A closer that came with the write lock leaves it locked exactly when it lost the race. */
  lemma LockIsLeftExactlyByLosers(startedAt: int, labels: seq<Label>, i: nat)
    ensures var s := RunAll(Initial(startedAt), labels);
            i < |s.threads| && (s.threads[i] == Closed(true) || s.threads[i] == Lost(true)) ==>
              (s.lock == Some(i) <==> s.threads[i].Lost?)
  {
    RunInv(Initial(startedAt), labels);
    var s := RunAll(Initial(startedAt), labels);
    if i < |s.threads| { assert ThreadOk(s, i); }
  }

  /** And such a run exists: a closer holding the lock is overtaken between its state check and its swap; the
      lock is then never released. */
  lemma LockCanBeLeftBehind(startedAt: int)
    ensures exists labels: seq<Label> ::
              var s := RunAll(Initial(startedAt), labels);
              |s.threads| == 2 && s.threads[0] == Lost(true) && s.lock == Some(0)
  {
    var s0 := Initial(startedAt);
    var s1 := Step(s0, Close(true));
    var s2 := Step(s1, Run(0, 0));
    var s3 := Step(s2, Close(false));
    var s4 := Step(s3, Run(1, 0));
    var s5 := Step(s4, Run(1, 0));
    var s6 := Step(s5, Run(0, 0));
    var rest3 := [Run(1, 0), Run(1, 0), Run(0, 0)];
    assert RunAll(s5, [Run(0, 0)]) == s6 by { assert [Run(0, 0)][1..] == []; }
    assert RunAll(s4, [Run(1, 0), Run(0, 0)]) == s6 by { assert [Run(1, 0), Run(0, 0)][1..] == [Run(0, 0)]; }
    assert RunAll(s3, rest3) == s6 by { assert rest3[1..] == [Run(1, 0), Run(0, 0)]; }
    assert RunAll(s2, [Close(false)] + rest3) == s6 by { assert ([Close(false)] + rest3)[1..] == rest3; }
    var rest5 := [Run(0, 0)] + ([Close(false)] + rest3);
    assert RunAll(s1, rest5) == s6 by { assert rest5[1..] == [Close(false)] + rest3; }
    assert RunAll(s0, [Close(true)] + rest5) == s6 by { assert ([Close(true)] + rest5)[1..] == rest5; }
  }
}
