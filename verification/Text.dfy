/** The order of strings. */
module Text {
  /** Python's order on strings: by code point, a proper prefix first. */
  predicate LexLess(a: string, b: string) {
    b != [] && (a == [] || a[0] < b[0] || (a[0] == b[0] && LexLess(a[1..], b[1..])))
  }

  lemma {:induction false} LexOrder(a: string, b: string, c: string)
    ensures !LexLess(a, a)
    ensures LexLess(a, b) && LexLess(b, c) ==> LexLess(a, c)
    ensures LexLess(a, b) || LexLess(b, a) || a == b
  {
    if a != [] { LexOrder(a[1..], if b == [] then [] else b[1..], if c == [] then [] else c[1..]); }
    if a != [] && b != [] && a[0] == b[0] && a[1..] == b[1..] {
      assert a == [a[0]] + a[1..] && b == [b[0]] + b[1..];
    }
  }

  /** The strings agree up to `k`, and there `a` ends first or has the smaller character. */
  ghost predicate FirstSmaller(a: string, b: string, k: nat) {
    && k <= |a| && k < |b| && (forall i :: 0 <= i < k ==> a[i] == b[i])
    && (k == |a| || a[k] < b[k])
  }

  /** The order is decided by the first difference. */
  lemma {:induction false} LexMeans(a: string, b: string)
    ensures LexLess(a, b) <==> exists k: nat :: FirstSmaller(a, b, k)
  {
    if b == [] || a == [] || a[0] != b[0] {
      assert LexLess(a, b) ==> FirstSmaller(a, b, 0);
    } else {
      LexMeans(a[1..], b[1..]);
      if k: nat :| FirstSmaller(a[1..], b[1..], k) {
        assert forall i :: 1 <= i < k + 1 ==> a[i] == a[1..][i - 1] && b[i] == b[1..][i - 1];
        assert FirstSmaller(a, b, k + 1);
      }
      if k: nat :| FirstSmaller(a, b, k) { assert k > 0 && FirstSmaller(a[1..], b[1..], k - 1); }
    }
  }
}
