/** The order of timers, and binary heaps of their keys as plain sequences. */
module TimerOrder {
  const MAX_INT64 := 0x7fff_ffff_ffff_ffff
  const TWO_63 := 0x8000_0000_0000_0000
  const TWO_64 := 0x1_0000_0000_0000_0000

  /** Nanoseconds since 1970 that 64 bits can hold. */
  type Nano = x: int | 0 <= x <= MAX_INT64

  datatype Key = Key(expireAt: int, id: nat)

  /** Signed 64-bit arithmetic wraps around. */
  function Wrap64(n: int): int {
    (n + TWO_63) % TWO_64 - TWO_63
  }

  /** `HeapLess`, by subtraction. */
  predicate HeapLess(a: Key, b: Key) {
    var n := Wrap64(a.expireAt - b.expireAt);
    if n == 0 then a.id < b.id else n < 0
  }

  predicate Before(a: Key, b: Key) {
    a.expireAt < b.expireAt || (a.expireAt == b.expireAt && a.id < b.id)
  }

  predicate IsInt64(n: int) {
    -TWO_63 <= n <= MAX_INT64
  }

  /** The subtraction orders two keys by expiry and then id exactly when their difference fits 64 bits, as
      it does for all expiries since 1970. */
  lemma HeapLessOrders(a: Key, b: Key)
    requires IsInt64(a.expireAt) && IsInt64(b.expireAt)
    ensures (HeapLess(a, b) <==> Before(a, b)) <==> IsInt64(a.expireAt - b.expireAt)
    ensures 0 <= a.expireAt && 0 <= b.expireAt ==> IsInt64(a.expireAt - b.expireAt)
  {
    var d := a.expireAt - b.expireAt;
    if d > MAX_INT64 {
      assert (d + TWO_63) % TWO_64 == d + TWO_63 - TWO_64;
    } else if d < -TWO_63 {
      assert (d + TWO_63) % TWO_64 == d + TWO_63 + TWO_64;
    }
  }

  /** On such keys it is a strict total order. */
  lemma HeapLessIsStrictTotal(a: Key, b: Key, c: Key)
    requires 0 <= a.expireAt <= MAX_INT64 && 0 <= b.expireAt <= MAX_INT64 && 0 <= c.expireAt <= MAX_INT64
    ensures !HeapLess(a, a)
    ensures HeapLess(a, b) && HeapLess(b, c) ==> HeapLess(a, c)
    ensures a.id != b.id ==> HeapLess(a, b) != HeapLess(b, a)
  {
    HeapLessOrders(a, b);
    HeapLessOrders(b, c);
    HeapLessOrders(a, c);
    HeapLessOrders(b, a);
    HeapLessOrders(a, a);
  }

  /** The comparison by itself, on arbitrary 64-bit keys, need not even be transitive. No three running timers have
      these keys: their expiries are later than 1970. */
  lemma HeapLessCanCycle()
    ensures exists a: Key, b: Key, c: Key ::
              IsInt64(a.expireAt) && IsInt64(b.expireAt) && IsInt64(c.expireAt)
              && HeapLess(a, b) && HeapLess(b, c) && HeapLess(c, a)
  {
    var a, b, c := Key(-TWO_63, 1), Key(0, 2), Key(MAX_INT64, 3);
    HeapLessOrders(a, b);
    HeapLessOrders(b, c);
    HeapLessOrders(c, a);
    assert HeapLess(a, b) && HeapLess(b, c) && HeapLess(c, a);
  }

  /** An expiry wraps around exactly if it does not fit 64 bits, and a timer started with it is then due at once. */
  lemma ExpiryFitsOrIsDue(now: Nano, delay: Nano)
    requires 0 < delay
    ensures Wrap64(now + delay) == now + delay <==> now + delay <= MAX_INT64
    ensures Wrap64(now + delay) <= now <==> now + delay > MAX_INT64
  {
    if now + delay > MAX_INT64 { assert (now + delay + TWO_63) % TWO_64 == now + delay + TWO_63 - TWO_64; }
  }

  // ---------- Heaps ----------

  function Parent(i: nat): nat
    requires 0 < i
  {
    (i - 1) / 2
  }

  /** Entry `i` is in order with its parent. */
  predicate InOrder(ks: seq<Key>, i: nat)
    requires 0 < i < |ks|
  {
    !Before(ks[i], ks[Parent(i)])
  }

  predicate HeapOrdered(ks: seq<Key>) {
    forall i: nat :: 0 < i < |ks| ==> InOrder(ks, i)
  }

  /** The children of `k` are in order with its parent. */
  predicate Bridged(ks: seq<Key>, k: nat) {
    forall i: nat :: 0 < i < |ks| && Parent(i) == k && 0 < k ==> !Before(ks[i], ks[Parent(k)])
  }

  /** Only `k` may be too small for its place. */
  predicate MayRise(ks: seq<Key>, k: nat) {
    k < |ks| && Bridged(ks, k) && forall i: nat :: 0 < i < |ks| && i != k ==> InOrder(ks, i)
  }

  /** Only `k` may be too large for its place. */
  predicate MaySink(ks: seq<Key>, k: nat) {
    k < |ks| && Bridged(ks, k) && forall i: nat :: 0 < i < |ks| && Parent(i) != k ==> InOrder(ks, i)
  }

  /** Only `k` may be out of place, either way. */
  predicate MayMove(ks: seq<Key>, k: nat) {
    k < |ks| && Bridged(ks, k) && forall i: nat :: 0 < i < |ks| && i != k && Parent(i) != k ==> InOrder(ks, i)
  }

  function Swapped(ks: seq<Key>, i: nat, j: nat): seq<Key>
    requires i < |ks| && j < |ks|
  {
    ks[i := ks[j]][j := ks[i]]
  }

  lemma ReplacedMayMove(ks: seq<Key>, k: nat, x: Key)
    requires HeapOrdered(ks) && k < |ks|
    ensures MayMove(ks[k := x], k)
  {
    var r := ks[k := x];
    forall i: nat | 0 < i < |r| && i != k && Parent(i) != k ensures InOrder(r, i) {
      assert InOrder(ks, i);
    }
    forall i: nat | 0 < i < |r| && Parent(i) == k && 0 < k ensures !Before(r[i], r[Parent(k)]) {
      assert InOrder(ks, i) && InOrder(ks, k);
    }
  }

  lemma RiseStep(ks: seq<Key>, k: nat)
    requires MayRise(ks, k) && 0 < k && Before(ks[k], ks[Parent(k)])
    ensures MayRise(Swapped(ks, k, Parent(k)), Parent(k))
  {
    var p := Parent(k);
    var r := Swapped(ks, k, p);
    forall i: nat | 0 < i < |r| && i != p ensures InOrder(r, i) {
      if i != k { assert InOrder(ks, i); }
      if Parent(i) == k { assert !Before(ks[i], ks[p]); }
    }
    forall i: nat | 0 < i < |r| && Parent(i) == p && 0 < p ensures !Before(r[i], r[Parent(p)]) {
      assert InOrder(ks, p);
      if i != k { assert InOrder(ks, i); }
    }
  }

  lemma RisenIsOrdered(ks: seq<Key>, k: nat)
    requires MayRise(ks, k) && (k == 0 || !Before(ks[k], ks[Parent(k)]))
    ensures HeapOrdered(ks)
  {
    if 0 < k { assert InOrder(ks, k); }
  }

  /** `c` is the least child of `k`. */
  predicate LeastChild(ks: seq<Key>, k: nat, c: nat) {
    0 < c < |ks| && Parent(c) == k && forall i: nat :: 0 < i < |ks| && Parent(i) == k ==> !Before(ks[i], ks[c])
  }

  lemma SinkStep(ks: seq<Key>, k: nat, c: nat)
    requires MaySink(ks, k) && LeastChild(ks, k, c) && Before(ks[c], ks[k])
    ensures MaySink(Swapped(ks, k, c), c)
  {
    var r := Swapped(ks, k, c);
    forall i: nat | 0 < i < |r| && Parent(i) != c ensures InOrder(r, i) {
      if Parent(i) != k { assert InOrder(ks, i); }
      if i == k { assert !Before(ks[c], ks[Parent(k)]); }
    }
    forall i: nat | 0 < i < |r| && Parent(i) == c && 0 < c ensures !Before(r[i], r[Parent(c)]) {
      assert InOrder(ks, i);
    }
  }

  lemma SunkIsOrdered(ks: seq<Key>, k: nat)
    requires MaySink(ks, k)
    requires forall i: nat :: 0 < i < |ks| && Parent(i) == k ==> !Before(ks[i], ks[k])
    ensures HeapOrdered(ks)
  {
    forall i: nat | 0 < i < |ks| ensures InOrder(ks, i) {
    }
  }

  /** If it cannot sink it may rise. */
  lemma CannotSink(ks: seq<Key>, k: nat)
    requires MayMove(ks, k)
    requires forall i: nat :: 0 < i < |ks| && Parent(i) == k ==> !Before(ks[i], ks[k])
    ensures MayRise(ks, k)
  {
    forall i: nat | 0 < i < |ks| && i != k ensures InOrder(ks, i) {
    }
  }

  /** If it should sink it need not rise. */
  lemma ShouldSink(ks: seq<Key>, k: nat, i: nat)
    requires MayMove(ks, k) && 0 < i < |ks| && Parent(i) == k && Before(ks[i], ks[k])
    ensures MaySink(ks, k)
  {
    forall j: nat | 0 < j < |ks| && Parent(j) != k ensures InOrder(ks, j) {
      if j == k { assert !Before(ks[i], ks[Parent(k)]); }
    }
  }

  /** The top comes before every other key. */
  lemma {:induction false} TopIsLeast(ks: seq<Key>, i: nat)
    requires HeapOrdered(ks) && i < |ks|
    ensures !Before(ks[i], ks[0])
    decreases i
  {
    if 0 < i {
      assert InOrder(ks, i);
      TopIsLeast(ks, Parent(i));
    }
  }

  lemma PushedMayRise(ks: seq<Key>, x: Key)
    requires HeapOrdered(ks)
    ensures MayRise(ks + [x], |ks|)
  {
    var r := ks + [x];
    forall i: nat | 0 < i < |r| && i != |ks| ensures InOrder(r, i) {
      assert InOrder(ks, i);
    }
  }

  lemma CutIsOrdered(ks: seq<Key>, n: nat)
    requires HeapOrdered(ks) && n <= |ks|
    ensures HeapOrdered(ks[..n])
  {
    forall i: nat | 0 < i < n ensures InOrder(ks[..n], i) {
      assert InOrder(ks, i);
    }
  }

  lemma CutMayMove(ks: seq<Key>, k: nat, n: nat)
    requires HeapOrdered(ks) && k < n < |ks|
    ensures MayMove(ks[k := ks[n]][..n], k)
  {
    CutIsOrdered(ks, n);
    ReplacedMayMove(ks[..n], k, ks[n]);
    assert ks[..n][k := ks[n]] == ks[k := ks[n]][..n];
  }
}
