/** Least and greatest members of finite sets of naturals. */
module Extremes {
  predicate IsLeast(m: nat, ids: set<nat>) {
    m in ids && forall i :: i in ids ==> m <= i
  }

  lemma {:induction false} LeastExists(ids: set<nat>)
    requires ids != {}
    ensures exists m :: IsLeast(m, ids)
  {
    var x :| x in ids;
    var rest := ids - {x};
    if rest == {} {
      forall i | i in ids ensures i == x {
        assert i in rest || i == x;
      }
      assert IsLeast(x, ids);
    } else {
      LeastExists(rest);
      var m :| IsLeast(m, rest);
      var least := if x < m then x else m;
      forall i | i in ids ensures least <= i {
        assert i == x || i in rest;
      }
      assert IsLeast(least, ids);
    }
  }

  function Least(ids: set<nat>): (m: nat)
    requires ids != {}
    ensures IsLeast(m, ids)
  {
    LeastExists(ids);
    var m :| IsLeast(m, ids);
    m
  }

  /** The greatest member, or zero when there is none. */
  predicate IsGreatest(m: nat, ids: set<nat>) {
    (m in ids || (m == 0 && ids == {})) && forall i :: i in ids ==> i <= m
  }

  lemma {:induction false} GreatestExists(ids: set<nat>)
    ensures exists m :: IsGreatest(m, ids)
  {
    if ids == {} {
      assert IsGreatest(0, ids);
    } else {
      var x :| x in ids;
      var rest := ids - {x};
      GreatestExists(rest);
      var m :| IsGreatest(m, rest);
      var most := if x > m then x else m;
      forall i | i in ids ensures i <= most {
        assert i == x || i in rest;
      }
      assert most in ids;
      assert IsGreatest(most, ids);
    }
  }

  function Greatest(ids: set<nat>): (m: nat)
    ensures IsGreatest(m, ids)
  {
    GreatestExists(ids);
    var m :| IsGreatest(m, ids);
    m
  }

  lemma GreatestUnique(m: nat, ids: set<nat>)
    requires IsGreatest(m, ids)
    ensures Greatest(ids) == m
  {
  }
}
