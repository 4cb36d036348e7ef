/** What the rounds of one `update` come to, on plain values: which timers fire, how often, and in what order. */
module TimerCatchUp {
  import opened TimerOrder

  /** What a running timer comes to. */
  datatype Rec = Rec(expireAt: int, delay: int, periodic: bool)

  function KeyIn(m: map<nat, Rec>, id: nat): Key
    requires id in m
  {
    Key(m[id].expireAt, id)
  }

  /** `id` is the first to expire. */
  predicate First(m: map<nat, Rec>, id: nat) {
    id in m && forall x :: x in m ==> !Before(KeyIn(m, x), KeyIn(m, id))
  }

  /** The first of some timers is the first of fewer, if it is among them. */
  lemma FirstAmongMore(m: map<nat, Rec>, more: map<nat, Rec>, x: nat, y: nat)
    requires First(m, x) && First(more, y) && y in m && x in more
    requires forall id :: id in m && id in more ==> m[id] == more[id]
    ensures x == y
  {
    assert KeyIn(m, x) == KeyIn(more, x) && KeyIn(m, y) == KeyIn(more, y);
  }

  /** A timer fires: a periodic one is put off by its delay, any other is gone. */
  function Fired(m: map<nat, Rec>, id: nat): map<nat, Rec>
    requires id in m
  {
    if m[id].periodic then m[id := m[id].(expireAt := m[id].expireAt + m[id].delay)] else m - {id}
  }

  /** One call of a callback: the timer, the expiry it was for, and the clock reading that let it through. */
  datatype Shot = Shot(id: nat, expireAt: int, at: int)

  function KeyOf(s: Shot): Key {
    Key(s.expireAt, s.id)
  }

  function Count(log: seq<Shot>, id: nat): nat {
    if log == [] then 0
    else Count(log[..|log| - 1], id) + if log[|log| - 1].id == id then 1 else 0
  }

  predicate Delayed(m: map<nat, Rec>) {
    forall id :: id in m ==> 0 < m[id].delay
  }

  /** How often a timer is due by `now`. */
  function Due(r: Rec, now: int): nat
    requires 0 < r.delay
  {
    if now < r.expireAt then 0 else if r.periodic then (now - r.expireAt) / r.delay + 1 else 1
  }

  /** The timers left once everything due by `now` has fired. */
  function Advanced(m: map<nat, Rec>, now: int): map<nat, Rec>
    requires Delayed(m)
  {
    map id | id in m && (m[id].periodic || now < m[id].expireAt)
      :: m[id].(expireAt := m[id].expireAt + Due(m[id], now) * m[id].delay)
  }

  /** Every callback was due when called, for the expiry that was next, and in the order of the timers. */
  predicate Orderly(m0: map<nat, Rec>, log: seq<Shot>, now: int) {
    && (forall i :: 0 <= i < |log| ==>
          && log[i].id in m0
          && log[i].expireAt == m0[log[i].id].expireAt + Count(log[..i], log[i].id) * m0[log[i].id].delay
          && log[i].expireAt <= log[i].at <= now)
    && Sorted(log)
  }

  predicate Sorted(log: seq<Shot>) {
    forall i, j :: 0 <= i < j < |log| ==> Before(KeyOf(log[i]), KeyOf(log[j])) && log[i].at <= log[j].at
  }

  /** A timer that stood at `r` and has fired `k` times by `now`. */
  predicate Standing(r: Rec, k: nat, now: int, m: map<nat, Rec>, id: nat) {
    if r.periodic then
      && id in m && m[id] == r.(expireAt := r.expireAt + k * r.delay)
      && (k > 0 ==> r.expireAt + (k - 1) * r.delay <= now)
    else if k == 0 then id in m && m[id] == r
    else k == 1 && id !in m && r.expireAt <= now
  }

  /** The timers `m0` have come to `m` by firing `log`. */
  predicate Reached(m0: map<nat, Rec>, m: map<nat, Rec>, log: seq<Shot>, now: int) {
    && Delayed(m0) && m.Keys <= m0.Keys
    && (forall id :: id in m0 ==> Standing(m0[id], Count(log, id), now, m, id))
    && Orderly(m0, log, now)
    && (forall i, x :: 0 <= i < |log| && x in m ==> Before(KeyOf(log[i]), KeyIn(m, x)))
  }

  /** `log` is what has to fire by `now`, no more and no less. */
  predicate Complete(m0: map<nat, Rec>, log: seq<Shot>, now: int)
    requires Delayed(m0)
  {
    && Orderly(m0, log, now)
    && forall id :: id in m0 ==> Count(log, id) == Due(m0[id], now)
  }

  lemma ReachedAtFirst(m: map<nat, Rec>, now: int)
    requires Delayed(m)
    ensures Reached(m, m, [], now)
  {
  }

  lemma {:induction false} LaterReading(m0: map<nat, Rec>, m: map<nat, Rec>, log: seq<Shot>, now: int, later: int)
    requires Reached(m0, m, log, now) && now <= later
    ensures Reached(m0, m, log, later)
  {
  }

  lemma StandingStep(r: Rec, k: nat, now: int, m: map<nat, Rec>, id: nat)
    requires Standing(r, k, now, m, id) && id in m && m[id].expireAt <= now
    ensures Standing(r, k + 1, now, Fired(m, id), id)
  {
    assert r.expireAt + (k + 1) * r.delay == r.expireAt + k * r.delay + r.delay;
  }

  lemma OrderlyStep(m0: map<nat, Rec>, m: map<nat, Rec>, log: seq<Shot>, now: int, s: Shot)
    requires Reached(m0, m, log, now) && s.id in m && s.expireAt == m[s.id].expireAt <= now == s.at
    ensures Orderly(m0, log + [s], now)
  {
    var log' := log + [s];
    assert Standing(m0[s.id], Count(log, s.id), now, m, s.id);
    assert s.expireAt == m0[s.id].expireAt + Count(log, s.id) * m0[s.id].delay by {
      if !m0[s.id].periodic { assert Count(log, s.id) == 0; }
    }
    forall i | 0 <= i < |log'|
      ensures && log'[i].id in m0
              && log'[i].expireAt == m0[log'[i].id].expireAt + Count(log'[..i], log'[i].id) * m0[log'[i].id].delay
              && log'[i].expireAt <= log'[i].at <= now
    {
      if i < |log| { assert log'[..i] == log[..i] && log'[i] == log[i]; } else { assert log'[..i] == log; }
    }
    forall i, j | 0 <= i < j < |log'|
      ensures Before(KeyOf(log'[i]), KeyOf(log'[j])) && log'[i].at <= log'[j].at
    {
      if j == |log| { assert log'[i] == log[i] && KeyOf(s) == KeyIn(m, s.id); }
    }
  }

  lemma AheadStep(m: map<nat, Rec>, log: seq<Shot>, s: Shot)
    requires Delayed(m) && First(m, s.id) && KeyOf(s) == KeyIn(m, s.id)
    requires forall i, x :: 0 <= i < |log| && x in m ==> Before(KeyOf(log[i]), KeyIn(m, x))
    ensures forall i, x :: 0 <= i < |log + [s]| && x in Fired(m, s.id)
              ==> Before(KeyOf((log + [s])[i]), KeyIn(Fired(m, s.id), x))
  {
    forall i, x | 0 <= i < |log + [s]| && x in Fired(m, s.id)
      ensures Before(KeyOf((log + [s])[i]), KeyIn(Fired(m, s.id), x))
    {
      assert x in m && !Before(KeyIn(m, x), KeyIn(m, s.id));
      if i < |log| { assert Before(KeyOf(log[i]), KeyIn(m, x)); }
    }
  }

  /** The first timer fires. */
  lemma ReachedStep(m0: map<nat, Rec>, m: map<nat, Rec>, log: seq<Shot>, now: int, id: nat)
    requires Reached(m0, m, log, now) && First(m, id) && m[id].expireAt <= now
    ensures Reached(m0, Fired(m, id), log + [Shot(id, m[id].expireAt, now)], now)
  {
    var s := Shot(id, m[id].expireAt, now);
    var log' := log + [s];
    assert log'[..|log|] == log;
    forall x | x in m0 ensures Standing(m0[x], Count(log', x), now, Fired(m, id), x) {
      if x == id { StandingStep(m0[id], Count(log, id), now, m, id); }
      assert Standing(m0[x], Count(log, x), now, m, x);
    }
    forall x | x in m ensures 0 < m[x].delay {
      assert Standing(m0[x], Count(log, x), now, m, x);
    }
    OrderlyStep(m0, m, log, now, s);
    AheadStep(m, log, s);
  }

  /** `k` firings are all that are due exactly when the one before is and the next is not. */
  lemma DueIsUnique(r: Rec, k: nat, now: int)
    requires 0 < r.delay && r.periodic
    ensures k == Due(r, now) <==>
              now < r.expireAt + k * r.delay && (k > 0 ==> r.expireAt + (k - 1) * r.delay <= now)
  {
    if r.expireAt <= now {
      var q, d := (now - r.expireAt) / r.delay, r.delay;
      var rest := (now - r.expireAt) % d;
      assert now - r.expireAt == q * d + rest && 0 <= rest < d;
      assert (q + 1) * d == q * d + d;
      if k <= q { TimesMonotone(k, q, d); }
      if k >= q + 2 { TimesMonotone(q + 1, k - 1, d); }
    } else if k > 0 {
      TimesMonotone(0, k - 1, r.delay);
    }
  }

  lemma TimesMonotone(a: int, b: int, d: int)
    requires a <= b && 0 < d
    ensures a * d <= b * d
  {
    assert b * d - a * d == (b - a) * d;
  }

  /** Once nothing is due, everything due has fired as often as it had to, and nothing has drifted. */
  lemma ReachedAtLast(m0: map<nat, Rec>, m: map<nat, Rec>, log: seq<Shot>, now: int)
    requires Reached(m0, m, log, now)
    requires forall id :: id in m ==> now < m[id].expireAt
    ensures Complete(m0, log, now) && m == Advanced(m0, now)
  {
    forall id | id in m0
      ensures Count(log, id) == Due(m0[id], now)
      ensures id in m <==> id in Advanced(m0, now)
      ensures id in m ==> m[id] == Advanced(m0, now)[id]
    {
      assert Standing(m0[id], Count(log, id), now, m, id);
      if m0[id].periodic { DueIsUnique(m0[id], Count(log, id), now); }
    }
  }

  /** How many firings are due by `now` among the ids up to `n`. */
  function Backlog(m: map<nat, Rec>, now: int, n: nat): nat
    requires Delayed(m)
  {
    if n == 0 then 0 else Backlog(m, now, n - 1) + if n in m then Due(m[n], now) else 0
  }

  lemma {:induction false} BacklogAside(m: map<nat, Rec>, m': map<nat, Rec>, now: int, n: nat)
    requires Delayed(m) && Delayed(m')
    requires forall x: nat :: 0 < x <= n ==> (x in m <==> x in m') && (x in m ==> m[x] == m'[x])
    ensures Backlog(m, now, n) == Backlog(m', now, n)
  {
    if 0 < n { BacklogAside(m, m', now, n - 1); }
  }

  lemma DueFalls(r: Rec, now: int)
    requires 0 < r.delay && r.periodic && r.expireAt <= now
    ensures Due(r.(expireAt := r.expireAt + r.delay), now) == Due(r, now) - 1
  {
    var k := Due(r, now);
    DueIsUnique(r, k, now);
    var r' := r.(expireAt := r.expireAt + r.delay);
    assert r'.expireAt + (k - 1) * r.delay == r.expireAt + k * r.delay by {
      assert (k - 1) * r.delay == k * r.delay - r.delay;
    }
    if k > 1 { assert (k - 1) * r.delay == (k - 2) * r.delay + r.delay; }
    DueIsUnique(r', k - 1, now);
  }

  /** Each round takes exactly one firing off the backlog. */
  lemma {:induction false} BacklogFalls(m: map<nat, Rec>, now: int, n: nat, id: nat)
    requires Delayed(m) && id in m && 0 < id <= n && m[id].expireAt <= now
    ensures Delayed(Fired(m, id)) && Backlog(Fired(m, id), now, n) == Backlog(m, now, n) - 1
  {
    if n == id {
      BacklogAside(m, Fired(m, id), now, n - 1);
      if m[id].periodic { DueFalls(m[id], now); }
    } else {
      BacklogFalls(m, now, n - 1, id);
    }
  }

  /** Expiries stay within 64 bits while nothing later than `horizon` is read. */
  predicate Within(m: map<nat, Rec>, horizon: int) {
    forall id :: id in m ==> horizon + m[id].delay <= MAX_INT64
  }

  /** After a round for each entry of `log`, at the readings of `clock`: what has fired and what is still to fire
      by the horizon together make what was to fire at first. */
  predicate Underway(m0: map<nat, Rec>, m: map<nat, Rec>, log: seq<Shot>, clock: nat -> int, horizon: int, n: nat) {
    && Reached(m0, m, log, clock(|log|)) && Delayed(m) && Within(m, horizon)
    && (forall i :: 0 <= i < |log| ==> log[i].at == clock(i))
    && (forall id :: id in m ==> 0 < id <= n)
    && |log| + Backlog(m, horizon, n) == Backlog(m0, horizon, n)
  }

  /** Readings that never fall and stay within the horizon. */
  ghost predicate Steady(clock: nat -> int, horizon: int) {
    && (forall i, j :: 0 <= i <= j ==> clock(i) <= clock(j))
    && (forall i :: 0 <= i ==> clock(i) <= horizon)
  }

  /** A round that fires. */
  lemma UnderwayStep(
    m0: map<nat, Rec>, m: map<nat, Rec>, log: seq<Shot>, clock: nat -> int, horizon: int, n: nat, s: Shot)
    requires Steady(clock, horizon) && Underway(m0, m, log, clock, horizon, n)
    requires First(m, s.id) && s.expireAt == m[s.id].expireAt <= s.at == clock(|log|)
    ensures Underway(m0, Fired(m, s.id), log + [s], clock, horizon, n)
    ensures Backlog(Fired(m, s.id), horizon, n) < Backlog(m, horizon, n)
  {
    ReachedStep(m0, m, log, clock(|log|), s.id);
    LaterReading(m0, Fired(m, s.id), log + [s], clock(|log|), clock(|log| + 1));
    BacklogFalls(m, horizon, n, s.id);
  }

  // ---------- What fires does not depend on the readings in between ----------

  /** A timer's firings in a complete log are for its first expiries, one delay apart. */
  lemma {:induction false} CountReaches(log: seq<Shot>, id: nat, k: nat)
    requires k < Count(log, id)
    ensures exists i :: 0 <= i < |log| && log[i].id == id && Count(log[..i], id) == k
  {
    var n := |log| - 1;
    if k == Count(log[..n], id) {
      assert log[n].id == id;
    } else {
      CountReaches(log[..n], id, k);
      var i :| 0 <= i < n && log[..n][i].id == id && Count(log[..n][..i], id) == k;
      assert log[..n][..i] == log[..i];
    }
  }

  lemma {:induction false} CountGrows(log: seq<Shot>, i: nat, id: nat)
    requires i < |log| && log[i].id == id
    ensures Count(log[..i], id) < Count(log, id)
  {
    var n := |log| - 1;
    if i < n {
      CountGrows(log[..n], i, id);
      assert log[..n][..i] == log[..i];
    } else {
      assert log[..i] == log[..n];
    }
  }

  /** Two complete logs hold the same firings. */
  lemma SameShots(m0: map<nat, Rec>, a: seq<Shot>, b: seq<Shot>, now: int, i: nat)
    requires Delayed(m0) && Complete(m0, a, now) && Complete(m0, b, now) && i < |a|
    ensures exists j :: 0 <= j < |b| && KeyOf(b[j]) == KeyOf(a[i])
  {
    var id := a[i].id;
    CountGrows(a, i, id);
    var k := Count(a[..i], id);
    CountReaches(b, id, k);
    var j :| 0 <= j < |b| && b[j].id == id && Count(b[..j], id) == k;
    assert KeyOf(b[j]) == KeyOf(a[i]);
  }

  predicate SameKeys(a: seq<Shot>, b: seq<Shot>, n: nat) {
    n <= |a| && n <= |b| && forall i :: 0 <= i < n ==> KeyOf(a[i]) == KeyOf(b[i])
  }

  /** What follows `n` common places in one sorted sequence is not among them in the other. */
  lemma NotAmongThem(a: seq<Shot>, b: seq<Shot>, n: nat, j: nat)
    requires Sorted(a) && SameKeys(a, b, n) && n < |a| && j < |b| && KeyOf(b[j]) == KeyOf(a[n])
    ensures n <= j
  {
  }

  /** Two sorted sequences that hold each other's next key agree on it. */
  lemma SamePlace(a: seq<Shot>, b: seq<Shot>, n: nat, j: nat, k: nat)
    requires Sorted(a) && Sorted(b) && n <= j < |b| && n <= k < |a|
    requires KeyOf(b[j]) == KeyOf(a[n]) && KeyOf(a[k]) == KeyOf(b[n])
    ensures KeyOf(a[n]) == KeyOf(b[n])
  {
  }

  lemma {:induction false} SameUpTo(m0: map<nat, Rec>, a: seq<Shot>, b: seq<Shot>, now: int, i: nat)
    requires Delayed(m0) && Complete(m0, a, now) && Complete(m0, b, now) && i <= |a|
    ensures SameKeys(a, b, i)
    decreases i
  {
    if 0 < i {
      var n := i - 1;
      SameUpTo(m0, a, b, now, n);
      SameShots(m0, a, b, now, n);
      var j: nat :| j < |b| && KeyOf(b[j]) == KeyOf(a[n]);
      NotAmongThem(a, b, n, j);
      SameShots(m0, b, a, now, n);
      var k: nat :| k < |a| && KeyOf(a[k]) == KeyOf(b[n]);
      NotAmongThem(b, a, n, k);
      SamePlace(a, b, n, j, k);
    }
  }

  /** Firings come in the order of the expiries they are for, and those for the same one in the order in which their
      timers were started, ids being drawn upwards. */
  lemma FiresInOrder(m0: map<nat, Rec>, log: seq<Shot>, now: int, i: nat, j: nat)
    requires Delayed(m0) && Complete(m0, log, now) && i < j < |log|
    ensures log[i].expireAt <= log[j].expireAt
    ensures log[i].expireAt == log[j].expireAt ==> log[i].id < log[j].id
  {
    assert Before(KeyOf(log[i]), KeyOf(log[j]));
  }

  /** Which firings take place, and their order, depend on the timers and the last reading alone. */
  lemma CompleteIsUnique(m0: map<nat, Rec>, a: seq<Shot>, b: seq<Shot>, now: int)
    requires Delayed(m0) && Complete(m0, a, now) && Complete(m0, b, now)
    ensures |a| == |b| && forall i :: 0 <= i < |a| ==> KeyOf(a[i]) == KeyOf(b[i])
  {
    SameUpTo(m0, a, b, now, |a|);
    SameUpTo(m0, b, a, now, |b|);
  }
}
