/** Node ids are strings, compared the way Go compares them. */
module NodeIds {
  type NodeId = string

  predicate Less(a: NodeId, b: NodeId) {
    b != [] && (a == [] || a[0] < b[0] || (a[0] == b[0] && Less(a[1..], b[1..])))
  }

  /** `a` and `b` agree up to place `k`, and there `a` has ended or has the lesser character. */
  predicate LessAt(a: NodeId, b: NodeId, k: nat) {
    k <= |a| && k < |b| && a[..k] == b[..k] && (k == |a| || a[k] < b[k])
  }

  /** What the order is: a proper prefix is smaller, and else the first place where two ids differ decides. */
  lemma {:induction false} LessIsLexicographic(a: NodeId, b: NodeId)
    ensures Less(a, b) <==> exists k: nat :: LessAt(a, b, k)
  {
    if a == [] || b == [] || a[0] != b[0] {
      if Less(a, b) { assert LessAt(a, b, 0); }
      if k: nat :| LessAt(a, b, k) && 0 < k { assert a[..k][0] == b[..k][0]; }
    } else {
      LessIsLexicographic(a[1..], b[1..]);
      if k: nat :| LessAt(a[1..], b[1..], k) {
        assert a[..k + 1] == [a[0]] + a[1..][..k] && b[..k + 1] == [b[0]] + b[1..][..k];
        assert LessAt(a, b, k + 1);
      }
      if k: nat :| LessAt(a, b, k) {
        assert 0 < k && a[1..][..k - 1] == a[..k][1..] && b[1..][..k - 1] == b[..k][1..];
        assert LessAt(a[1..], b[1..], k - 1);
      }
    }
  }

  /** Of two distinct ids exactly one is smaller: the tie-break never favours both ends or neither. */
  lemma {:induction false} LessIsTotal(a: NodeId, b: NodeId)
    ensures a != b ==> Less(a, b) != Less(b, a)
    ensures a == b ==> !Less(a, b)
  {
    if a != [] && b != [] && a[0] == b[0] {
      LessIsTotal(a[1..], b[1..]);
      assert a == [a[0]] + a[1..] && b == [b[0]] + b[1..];
    }
  }
}
