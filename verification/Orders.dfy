/** Strict total orders over finite sets. */
module Orders {
  /** A strict total order, read as "comes earlier in the list". */
  ghost predicate IsOrder<K(!new)>(before: (K, K) -> bool) {
    && (forall a, b :: !(before(a, b) && before(b, a)))
    && (forall a, b :: before(a, b) || before(b, a) || a == b)
    && (forall a, b, c :: before(a, b) && before(b, c) ==> before(a, c))
  }

  ghost predicate IsFirst<K(!new)>(before: (K, K) -> bool, s: set<K>, k: K) {
    k in s && forall x :: x in s && x != k ==> before(k, x)
  }

  lemma {:induction false} FirstExists<K(!new)>(before: (K, K) -> bool, s: set<K>) returns (k: K)
    requires IsOrder(before) && s != {}
    ensures IsFirst(before, s, k)
  {
    var x :| x in s;
    if s == {x} {
      k := x;
    } else {
      assert s - {x} != {} by { assert s == (s - {x}) + {x}; }
      var y := FirstExists(before, s - {x});
      k := if before(x, y) then x else y;
    }
  }
}
