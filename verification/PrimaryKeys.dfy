/** The greatest key of a table. */
module PrimaryKeys {
  predicate IsGreatest(keys: set<int>, k: int) {
    k in keys && forall j :: j in keys ==> j <= k
  }

  lemma HasElement(keys: set<int>)
    ensures keys != {} ==> exists k :: k in keys
  {
    if forall k :: k !in keys { assert keys == {}; }
  }

  lemma {:induction false} GreatestExists(keys: set<int>)
    requires keys != {}
    ensures exists k :: IsGreatest(keys, k)
  {
    HasElement(keys);
    var k :| k in keys;
    var rest := keys - {k};
    assert forall j :: j in keys ==> j == k || j in rest;
    if rest == {} {
      assert IsGreatest(keys, k);
    } else {
      GreatestExists(rest);
      var m :| IsGreatest(rest, m);
      assert IsGreatest(keys, if m < k then k else m);
    }
  }

  ghost function Greatest(keys: set<int>): (k: int)
    requires keys != {}
    ensures IsGreatest(keys, k)
  {
    GreatestExists(keys);
    var k :| IsGreatest(keys, k);
    k
  }

  method SelectGreatest(keys: set<int>) returns (k: int)
    requires keys != {}
    ensures k == Greatest(keys)
  {
    HasElement(keys);
    k :| k in keys;
    var rest := keys - {k};
    while rest != {}
      invariant k in keys && rest <= keys
      invariant forall j :: j in keys && j !in rest ==> j <= k
    {
      HasElement(rest);
      var j :| j in rest;
      rest := rest - {j};
      if k < j {
        k := j;
      }
    }
    assert IsGreatest(keys, k);
  }
}
