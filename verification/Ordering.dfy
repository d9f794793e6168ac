// Greatest elements of finite sets of integers.
module Ordering {
  ghost predicate Greatest(s: set<int>, m: int) {
    m in s && forall x :: x in s ==> x <= m
  }

  lemma {:induction false} GreatestExists(s: set<int>, x: int)
    requires x in s
    ensures exists m :: Greatest(s, m)
    decreases s
  {
    if y :| y in s && x < y {
      var above := set z | z in s && x < z;
      assert x !in above && above < s;
      GreatestExists(above, y);
      var m :| Greatest(above, m);
      assert y in above;
      forall z | z in s ensures z <= m {
        if x < z { assert z in above; }
      }
      assert Greatest(s, m);
    } else {
      assert Greatest(s, x);
    }
  }

  /** The greatest element. */
  ghost function MaxOf(s: set<int>): (m: int)
    requires exists x :: x in s
    ensures Greatest(s, m)
  {
    var x :| x in s;
    GreatestExists(s, x);
    var m :| Greatest(s, m);
    m
  }
}
