/** `TimerHeap`: an indexed heap of timers, the map of their ids, and one system timer. Every method of
    TimerHeap is a critical section, or a sequence of them. */
module Timers {
  import opened Wrappers
  import opened TimerOrder
  import opened TimerCatchUp

  class Timer {
    const id: nat
    const delay: Nano
    const periodic: bool
    var heapIndex: int
    var expireAt: Nano

    constructor (id: nat, delay: Nano, periodic: bool, expireAt: Nano)
      ensures this.id == id && this.delay == delay && this.periodic == periodic && this.expireAt == expireAt
      ensures heapIndex == -1
    {
      this.id, this.delay, this.periodic, this.expireAt := id, delay, periodic, expireAt;
      heapIndex := -1;
    }

    function KeyOf(): Key
      reads this
    {
      Key(expireAt, id)
    }

    method HeapLess(other: Timer) returns (b: bool)
      ensures b <==> Before(KeyOf(), other.KeyOf())
    {
      HeapLessOrders(KeyOf(), other.KeyOf());
      b := TimerOrder.HeapLess(KeyOf(), other.KeyOf());
    }
  }

  /** A binary heap that tells each timer where it is. */
  class Heap {
    var items: seq<Timer>

    ghost function Keys(): seq<Key>
      reads this, items
    {
      seq(|items|, i requires 0 <= i < |items| reads this, items => items[i].KeyOf())
    }

    ghost predicate Indexed()
      reads this, items
    {
      forall i :: 0 <= i < |items| ==> items[i].heapIndex == i
    }

    ghost predicate Valid()
      reads this, items
    {
      Indexed() && HeapOrdered(Keys())
    }

    ghost function Members(): set<Timer>
      reads this
    {
      set t | t in items
    }

    constructor ()
      ensures Valid() && items == []
    {
      items := [];
    }

    method Swap(i: nat, j: nat)
      requires i < |items| && j < |items| && Indexed()
      modifies this, Members()`heapIndex
      ensures Indexed() && |items| == old(|items|) && Members() == old(Members())
      ensures items == old(items[i := items[j]][j := items[i]])
      ensures Keys() == Swapped(old(Keys()), i, j)
    {
      var a, b := items[i], items[j];
      items := items[i := b][j := a];
      a.heapIndex := j;
      b.heapIndex := i;
      if i == j { a.heapIndex := i; }
      assert forall t :: t in items ==> t in old(items);
      assert items[i] == b && items[j] == a;
      forall t | t in old(items) ensures t in items {
        var k :| 0 <= k < |old(items)| && old(items)[k] == t;
        assert k == i || k == j || items[k] == t;
      }
    }

    method Up(start: nat)
      requires start < |items| && Indexed() && MayRise(Keys(), start)
      modifies this, Members()`heapIndex
      ensures Valid() && |items| == old(|items|) && Members() == old(Members())
    {
      var k: nat := start;
      while 0 < k
        invariant k < |items| == old(|items|) && Indexed() && MayRise(Keys(), k) && Members() == old(Members())
        decreases k
      {
        var p := Parent(k);
        var less := items[k].HeapLess(items[p]);
        if !less { break; }
        RiseStep(Keys(), k);
        Swap(k, p);
        k := p;
      }
      RisenIsOrdered(Keys(), k);
    }

    /** `c` is the lesser child of `k`. */
    method LesserChild(k: nat) returns (c: nat)
      requires 2 * k + 1 < |items| && Indexed()
      ensures LeastChild(Keys(), k, c)
    {
      c := 2 * k + 1;
      if c + 1 < |items| {
        var less := items[c + 1].HeapLess(items[c]);
        if less { c := c + 1; }
      }
      assert forall i: nat :: 0 < i < |items| && Parent(i) == k ==> i == 2 * k + 1 || i == 2 * k + 2;
    }

    /** One place down, unless neither child is smaller. */
    method SinkOnce(k: nat) returns (c: nat)
      requires 2 * k + 1 < |items| && Indexed() && MaySink(Keys(), k)
      modifies this, Members()`heapIndex
      ensures Indexed() && |items| == old(|items|) && Members() == old(Members())
      ensures k <= c < |items| && MaySink(Keys(), c)
      ensures c == k ==> HeapOrdered(Keys())
    {
      c := LesserChild(k);
      var less := items[c].HeapLess(items[k]);
      if !less {
        SunkIsOrdered(Keys(), k);
        return k;
      }
      SinkStep(Keys(), k, c);
      Swap(k, c);
    }

    method Down(start: nat)
      requires start < |items| && Indexed() && MaySink(Keys(), start)
      modifies this, Members()`heapIndex
      ensures Valid() && |items| == old(|items|) && Members() == old(Members())
    {
      var k: nat := start;
      while 2 * k + 1 < |items|
        invariant k < |items| == old(|items|) && Indexed() && MaySink(Keys(), k) && Members() == old(Members())
        decreases |items| - k
      {
        var c := SinkOnce(k);
        if c == k { return; }
        k := c;
      }
      SunkIsOrdered(Keys(), k);
    }

    /** Restores the order after the timer at `k` has changed its key. */
    method Fix(k: nat)
      requires k < |items| && Indexed() && MayMove(Keys(), k)
      modifies this, Members()`heapIndex
      ensures Valid() && |items| == old(|items|) && Members() == old(Members())
    {
      var sink := false;
      if 2 * k + 1 < |items| {
        var c := LesserChild(k);
        sink := items[c].HeapLess(items[k]);
        if sink { ShouldSink(Keys(), k, c); }
      }
      if sink {
        Down(k);
      } else {
        CannotSink(Keys(), k);
        Up(k);
      }
    }

    method Push(t: Timer)
      requires Valid() && t !in items
      modifies this, t`heapIndex, Members()`heapIndex
      ensures Valid() && |items| == old(|items|) + 1 && Members() == old(Members()) + {t}
    {
      ghost var ks := Keys();
      t.heapIndex := |items|;
      items := items + [t];
      assert Keys() == ks + [t.KeyOf()];
      PushedMayRise(ks, t.KeyOf());
      Up(|items| - 1);
    }

    method Remove(k: nat)
      requires Valid() && k < |items|
      modifies this, Members()`heapIndex
      ensures Valid() && |items| == old(|items|) - 1 && Members() == old(Members()) - {old(items[k])}
    {
      ghost var ks := Keys();
      var n := |items| - 1;
      var last := items[n];
      ghost var gone := items[k];
      if k < n {
        items := items[k := last][..n];
        last.heapIndex := k;
        assert Keys() == ks[k := ks[n]][..n];
        CutMayMove(ks, k, n);
        assert Members() == old(Members()) - {gone} by {
          forall t | t in old(Members()) - {gone} ensures t in items {
            var i :| 0 <= i <= n && old(items)[i] == t;
            assert i == n || items[i] == t;
            assert items[k] == last;
          }
          assert gone !in items;
        }
        Fix(k);
      } else {
        items := items[..n];
        assert Keys() == ks[..n];
        CutIsOrdered(ks, n);
        assert Members() == old(Members()) - {gone} by {
          forall t | t in old(Members()) - {gone} ensures t in items {
            var i :| 0 <= i <= n && old(items)[i] == t;
          }
        }
      }
    }
  }

  class TimerHeap {
    var timerIdGen: nat
    const heap: Heap
    var timerMap: map<nat, Timer>
    // The system timer: what it is armed for, and whether a tick lies in its channel.
    var armed: Option<int>
    var pending: bool
    // The loop: waiting for a tick, or inside update.
    var updating: bool
    ghost var drawn: set<nat>    // ids generated by calls of StartTimer that do not hold the lock yet
    ghost var retired: set<nat>  // ids that have been stopped or have fired for good

    /** The heap and the map hold the same timers, by distinct ids, each knowing its place. */
    ghost predicate Consistent()
      reads this, heap, heap.items
    {
      && heap.Valid()
      && (forall t :: t in heap.items ==> t.id in timerMap && timerMap[t.id] == t)
      && (forall id :: id in timerMap ==> timerMap[id] in heap.items && timerMap[id].id == id)
      && (forall id :: id in timerMap ==> 0 < id <= timerIdGen && 0 < timerMap[id].delay)
      && (forall id :: id in drawn ==> 0 < id <= timerIdGen && id !in timerMap && id !in retired)
      && (forall id :: id in retired ==> 0 < id <= timerIdGen && id !in timerMap)
    }

    /** With timers running and the loop waiting, a tick is due: it lies in the channel, or the system timer
        is armed for the first expiry. */
    ghost predicate Armed()
      reads this, heap, heap.items
    {
      && (armed.Some? ==> !pending)
      && (heap.items != [] && !updating ==> pending || armed == Some(heap.items[0].expireAt))
    }

    ghost predicate Valid()
      reads this, heap, heap.items
    {
      Consistent() && Armed()
    }

    ghost function View(): map<nat, Rec>
      reads this`timerMap, timerMap.Values
    {
      map id | id in timerMap :: Rec(timerMap[id].expireAt, timerMap[id].delay, timerMap[id].periodic)
    }

    constructor ()
      ensures Valid() && View() == map[] && fresh(heap) && heap.items == [] && armed == Some(0)
      ensures retired == {} && drawn == {} && !updating
    {
      timerIdGen, timerMap, drawn, retired := 0, map[], {}, {};
      heap := new Heap();
      armed, pending, updating := Some(0), false, false;
    }

    lemma TopIsFirst()
      requires Consistent() && heap.items != []
      ensures First(View(), heap.items[0].id)
    {
      forall x | x in timerMap ensures !Before(KeyIn(View(), x), KeyIn(View(), heap.items[0].id)) {
        var t := timerMap[x];
        assert heap.Indexed();
        var i: nat :| i < |heap.items| && heap.items[i] == t;
        TopIsLeast(heap.Keys(), i);
        assert heap.Keys()[i] == t.KeyOf() && heap.Keys()[0] == heap.items[0].KeyOf();
      }
    }

    /** The system timer is stopped, its tick drained, and armed afresh. */
    method ResetSysTimer(expireAt: int)
      requires armed.Some? ==> !pending
      modifies this`armed, this`pending
      ensures armed == Some(expireAt) && !pending
    {
      StopSysTimer();
      armed := Some(expireAt);
    }

    /** A system timer that had gone off already may have left a tick to drain. */
    method StopSysTimer()
      requires armed.Some? ==> !pending
      modifies this`armed, this`pending
      ensures armed == None && !pending
    {
      var running := armed.Some?;
      armed := None;
      if !running { pending := false; }
    }

    method GenTimerId() returns (id: nat)
      requires Valid()
      modifies this`timerIdGen, this`drawn
      ensures Valid() && View() == old(View())
      ensures id == timerIdGen == old(timerIdGen) + 1
      ensures drawn == old(drawn) + {id} && id !in old(drawn) && id !in timerMap && id !in retired
    {
      timerIdGen := timerIdGen + 1;
      drawn := drawn + {timerIdGen};
      return timerIdGen;
    }

    method AddTimer(t: Timer)
      requires Consistent() && t !in heap.items && 0 < t.delay && t.id in drawn
      modifies this`timerMap, this`drawn, heap, heap.Members()`heapIndex, t`heapIndex
      ensures Consistent() && timerMap == old(timerMap)[t.id := t] && drawn == old(drawn) - {t.id}
      ensures View() == old(View())[t.id := Rec(t.expireAt, t.delay, t.periodic)]
      ensures heap.Members() == old(heap.Members()) + {t}
    {
      heap.Push(t);
      drawn := drawn - {t.id};
      timerMap := timerMap[t.id := t];
      assert forall x :: x in heap.items <==> x in heap.Members();
      assert forall x :: x in heap.items <==> x in old(heap.items) || x == t;
    }

    method RemTimer(t: Timer)
      requires Consistent() && t in heap.items
      modifies this`timerMap, this`retired, heap, heap.Members()`heapIndex
      ensures Consistent() && timerMap == old(timerMap) - {t.id}
      ensures View() == old(View()) - {t.id} && retired == old(retired) + {t.id}
      ensures heap.Members() == old(heap.Members()) - {t}
    {
      ghost var k :| 0 <= k < |heap.items| && heap.items[k] == t;
      assert t.heapIndex == k;
      heap.Remove(t.heapIndex);
      timerMap := timerMap - {t.id};
      retired := retired + {t.id};
      assert forall x :: x in heap.items <==> x in heap.Members();
      assert forall x :: x in heap.items <==> x in old(heap.items) && x != t;
    }

    /** Adds a timer; unless it is now the first, the first is the same as before. */
    method AddAndLook(t: Timer) returns (top: bool)
      requires Consistent() && t !in heap.items && 0 < t.delay && t.id in drawn
      modifies this`timerMap, this`drawn, heap, heap.Members()`heapIndex, t`heapIndex
      ensures Consistent() && timerMap == old(timerMap)[t.id := t] && drawn == old(drawn) - {t.id}
      ensures View() == old(View())[t.id := Rec(t.expireAt, t.delay, t.periodic)]
      ensures heap.items != [] && top == (heap.items[0] == t)
      ensures !top ==> old(heap.items) != [] && heap.items[0] == old(heap.items[0])
      ensures heap.Members() == old(heap.Members()) + {t}
    {
      ghost var m := View();
      ghost var before := heap.items;
      if before != [] { TopIsFirst(); }
      AddTimer(t);
      assert timerMap[t.id] == t && t in heap.items;
      top := heap.items[0] == t;
      if !top {
        TopIsFirst();
        assert heap.items[0].id in m;
        FirstAmongMore(m, View(), before[0].id, heap.items[0].id);
      }
    }

    /** The critical section of StartTimer. */
    method AddAndArm(t: Timer)
      requires Valid() && t !in heap.items && 0 < t.delay && t.id in drawn
      modifies this, heap, heap.Members()`heapIndex, t`heapIndex
      ensures Valid() && updating == old(updating) && retired == old(retired) && timerIdGen == old(timerIdGen)
      ensures timerMap == old(timerMap)[t.id := t] && drawn == old(drawn) - {t.id}
      ensures View() == old(View())[t.id := Rec(t.expireAt, t.delay, t.periodic)]
      ensures heap.Members() == old(heap.Members()) + {t}
      ensures heap.items != []
      ensures if heap.items[0] == t then armed == Some(t.expireAt) && !pending
              else armed == old(armed) && pending == old(pending)
    {
      var top := AddAndLook(t);
      if top { ResetSysTimer(t.expireAt); }
    }

    /** StartTimer with an id drawn before: other calls may have drawn and started in between, in any order. */
    method StartDrawn(id: nat, delay: Nano, periodic: bool, now: Nano)
      requires Valid() && id in drawn && 0 < delay && now + delay <= MAX_INT64
      modifies this, heap, heap.Members()`heapIndex
      ensures Valid() && updating == old(updating) && retired == old(retired) && timerIdGen == old(timerIdGen)
      ensures drawn == old(drawn) - {id} && id !in old(View()) && id !in retired
      ensures View() == old(View())[id := Rec(now + delay, delay, periodic)]
      ensures fresh(heap.Members() - old(heap.Members()))
    {
      var t := new Timer(id, delay, periodic, now + delay);
      AddAndArm(t);
    }

    method StartTimer(delay: Nano, periodic: bool, now: Nano) returns (id: nat)
      requires Valid() && 0 < delay && now + delay <= MAX_INT64
      modifies this, heap, heap.Members()`heapIndex
      ensures Valid() && updating == old(updating) && retired == old(retired)
      ensures id !in old(View()) && id !in retired
      ensures View() == old(View())[id := Rec(now + delay, delay, periodic)]
    {
      id := GenTimerId();
      StartDrawn(id, delay, periodic, now);
    }

    /** Removes a timer; unless it was the first, the first is the same as before. */
    method RemAndLook(t: Timer) returns (top: bool)
      requires Consistent() && t in heap.items
      modifies this`timerMap, this`retired, heap, heap.Members()`heapIndex
      ensures Consistent() && timerMap == old(timerMap) - {t.id}
      ensures View() == old(View()) - {t.id} && retired == old(retired) + {t.id}
      ensures top == First(old(View()), t.id)
      ensures !top ==> heap.items != [] && heap.items[0] == old(heap.items[0])
      ensures heap.Members() <= old(heap.Members())
    {
      ghost var m := View();
      ghost var first := heap.items[0];
      TopIsFirst();
      top := heap.items[0] == t;
      assert timerMap[first.id] == first && timerMap[t.id] == t;
      if First(m, t.id) { FirstAmongMore(m, m, first.id, t.id); }
      RemTimer(t);
      if !top {
        assert first.id in View() && timerMap[first.id] == first;
        TopIsFirst();
        FirstAmongMore(View(), m, heap.items[0].id, first.id);
      }
    }

    /** After the first timer has gone. */
    method Rearm()
      requires Consistent() && (armed.Some? ==> !pending)
      modifies this`armed, this`pending
      ensures Valid() && !pending && armed == if View() == map[] then None else Some(heap.items[0].expireAt)
    {
      if |heap.items| == 0 {
        assert View() == map[];
        StopSysTimer();
      } else {
        assert heap.items[0].id in View();
        ResetSysTimer(heap.items[0].expireAt);
      }
    }

    method StopTimer(id: nat)
      requires Valid()
      modifies this, heap, heap.Members()`heapIndex
      ensures Valid() && updating == old(updating) && drawn == old(drawn) && heap.Members() <= old(heap.Members())
      ensures View() == old(View()) - {id}
      ensures retired == old(retired) + (if id in old(View()) then {id} else {})
      ensures if id !in old(View()) || !First(old(View()), id) then armed == old(armed) && pending == old(pending)
              else !pending && (armed.None? <==> View() == map[])
    {
      if id in timerMap { StopRunning(timerMap[id]); }
    }

    method StopRunning(t: Timer)
      requires Valid() && t in heap.items
      modifies this`timerMap, this`retired, this`armed, this`pending, heap, heap.Members()`heapIndex
      ensures Valid() && heap.Members() <= old(heap.Members())
      ensures View() == old(View()) - {t.id} && retired == old(retired) + {t.id}
      ensures if First(old(View()), t.id) then !pending && (armed.None? <==> View() == map[])
              else armed == old(armed) && pending == old(pending)
    {
      var top := RemAndLook(t);
      if top { Rearm(); }
    }

    /** The system timer goes off. */
    method Tick()
      requires Valid()
      modifies this`armed, this`pending
      ensures Valid() && View() == old(View())
      ensures armed == None && pending == (old(pending) || old(armed).Some?)
    {
      if armed.Some? { armed, pending := None, true; }
    }

    /** The loop takes the tick and enters update. */
    method Receive()
      requires Valid() && !updating && pending
      modifies this`pending, this`updating
      ensures Valid() && updating && !pending && View() == old(View())
    {
      pending, updating := false, true;
    }

    method PutOff(t: Timer)
      requires Consistent() && t in heap.items && t.expireAt + t.delay <= MAX_INT64
      modifies t`expireAt, heap, heap.Members()`heapIndex
      ensures Consistent() && heap.Members() == old(heap.Members())
      ensures View() == old(View())[t.id := Rec(old(t.expireAt) + t.delay, t.delay, t.periodic)]
    {
      ghost var k :| 0 <= k < |heap.items| && heap.items[k] == t;
      assert t.heapIndex == k;
      ghost var ks := heap.Keys();
      t.expireAt := t.expireAt + t.delay;
      assert heap.Keys() == ks[k := t.KeyOf()];
      ReplacedMayMove(ks, k, t.KeyOf());
      heap.Fix(t.heapIndex);
      assert forall x :: x in heap.items <==> x in heap.Members();
      assert forall x :: x in heap.items <==> x in old(heap.items);
    }

    /** One round of update: the critical section between two clock readings. It selects the first timer if
        that has expired, and otherwise leaves with the system timer armed. */
    method UpdateOnce(now: int) returns (fired: Option<Shot>)
      requires Valid() && updating
      requires forall id :: id in View() ==> now + View()[id].delay <= MAX_INT64
      modifies this, heap, heap.Members()
      ensures Valid() && updating == fired.Some? && heap.Members() <= old(heap.Members())
      ensures timerIdGen == old(timerIdGen) && drawn == old(drawn)
      ensures match fired
              case Some(s) =>
                && First(old(View()), s.id) && s.expireAt == old(View())[s.id].expireAt <= s.at == now
                && View() == Fired(old(View()), s.id)
                && s.id !in old(retired)
                && retired == old(retired) + (if old(View())[s.id].periodic then {} else {s.id})
              case None =>
                && View() == old(View()) && retired == old(retired)
                && forall id :: id in View() ==> now < View()[id].expireAt
    {
      if |heap.items| == 0 {
        updating := false;
        assert View() == map[];
        return None;
      }
      TopIsFirst();
      var t := heap.items[0];
      if t.expireAt > now {
        updating := false;
        ResetSysTimer(t.expireAt);
        return None;
      }
      assert t.id in View();
      fired := Some(Shot(t.id, t.expireAt, now));
      if t.periodic { PutOff(t); } else { RemTimer(t); }
    }

    /** `update`, undisturbed by other calls: round `i` reads the clock as `clock(i)`. Once it returns, every
        firing due by the last reading has taken place, and the timers stand at their next expiries. */
    method Update(clock: nat -> int, horizon: int) returns (log: seq<Shot>)
      requires Valid() && updating
      requires Steady(clock, horizon) && Within(View(), horizon)
      modifies this, heap, heap.Members()
      ensures Valid() && !updating
      ensures Delayed(old(View())) && Complete(old(View()), log, clock(|log|))
      ensures View() == Advanced(old(View()), clock(|log|))
      ensures forall id :: id in View() ==> clock(|log|) < View()[id].expireAt
      ensures forall i :: 0 <= i < |log| ==> log[i].at == clock(i)
      ensures |log| <= Backlog(old(View()), horizon, timerIdGen)
    {
      ghost var m0, m, n := View(), View(), timerIdGen;
      log := [];
      ReachedAtFirst(m0, clock(0));
      while true
        invariant Valid() && updating && heap.Members() <= old(heap.Members()) && timerIdGen == n
        invariant m == View() && Underway(m0, m, log, clock, horizon, n)
        decreases Backlog(m, horizon, n)
      {
        var now := clock(|log|);
        var round := UpdateOnce(now);
        if round.None? {
          ReachedAtLast(m0, m, log, now);
          return;
        }
        UnderwayStep(m0, m, log, clock, horizon, n, round.value);
        m := Fired(m, round.value.id);
        log := log + [round.value];
      }
    }
  }
}
