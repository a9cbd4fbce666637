/** Ascending enumeration of finite sets, the order in which B-tree maps and sets are iterated. */
module Sorted {

  predicate Increasing(s: seq<nat>) {
    forall i, j :: 0 <= i < j < |s| ==> s[i] < s[j]
  }

  lemma {:induction false} LeastExists(s: set<nat>) returns (m: nat)
    requires s != {}
    ensures m in s && forall x :: x in s ==> m <= x
  {
    m :| m in s;
    if exists x :: x in s && x < m {
      var rest := s - {m};
      var x :| x in s && x < m;
      assert x in rest;
      var n := LeastExists(rest);
      assert forall y :: y in s ==> y == m || y in rest;
      m := n;
    }
  }

  function Least(s: set<nat>): (m: nat)
    requires s != {}
    ensures m in s && forall x :: x in s ==> m <= x
  {
    assert exists m :: m in s && forall x :: x in s ==> m <= x by {
      var m := LeastExists(s);
    }
    var m :| m in s && forall x :: x in s ==> m <= x;
    m
  }

  /** The elements of `s`, smallest first. */
  function Ascending(s: set<nat>): (r: seq<nat>)
    ensures |r| == |s|
    ensures forall x :: x in r <==> x in s
  {
    if s == {} then []
    else [Least(s)] + Ascending(s - {Least(s)})
  }

  lemma {:induction false} AscendingIncreases(s: set<nat>)
    ensures Increasing(Ascending(s))
  {
    if s != {} {
      var rest := Ascending(s - {Least(s)});
      AscendingIncreases(s - {Least(s)});
      forall j | 0 <= j < |rest| ensures Least(s) < rest[j] {
        assert rest[j] in rest;
      }
    }
  }
}
