/** In which order the pool serves its entries, whatever the shape of the tree they are kept in. */
module PoolServing {
  import opened PoolOrder

  // ---- Places in a list -------------------------------------------------

  /** The place of `x` in `xs`. */
  function Place(xs: seq<PendingTx>, x: PendingTx): (r: nat)
    requires x in xs
    ensures r < |xs| && xs[r] == x
  {
    if xs[0] == x then 0 else 1 + Place(xs[1..], x)
  }

  lemma PlaceAt(xs: seq<PendingTx>, i: nat)
    requires NoRepeats(xs) && i < |xs|
    ensures Place(xs, xs[i]) == i
  {
  }

  /** `x` comes before `y` in `xs`. */
  predicate Precedes(xs: seq<PendingTx>, x: PendingTx, y: PendingTx) {
    x in xs && y in xs && Place(xs, x) < Place(xs, y)
  }

  /** The entries of `s` stand in the order they have in `xs`. */
  predicate OrderedAs(s: seq<PendingTx>, xs: seq<PendingTx>) {
    && (forall i :: 0 <= i < |s| ==> s[i] in xs)
    && forall i, j :: 0 <= i < j < |s| ==> Precedes(xs, s[i], s[j])
  }

  lemma {:induction false} PlacesGrow(s: seq<PendingTx>, xs: seq<PendingTx>, i: nat)
    requires OrderedAs(s, xs) && i < |s|
    ensures i <= Place(xs, s[i])
  {
    if i > 0 {
      PlacesGrow(s, xs, i - 1);
      assert Precedes(xs, s[i - 1], s[i]);
    }
  }

  lemma {:induction false} PlacesBounded(s: seq<PendingTx>, xs: seq<PendingTx>, i: nat)
    requires OrderedAs(s, xs) && i < |s| == |xs|
    ensures Place(xs, s[i]) <= i
    decreases |s| - i
  {
    if i + 1 < |s| {
      PlacesBounded(s, xs, i + 1);
      assert Precedes(xs, s[i], s[i + 1]);
    }
  }

  lemma SameOrder(s: seq<PendingTx>, xs: seq<PendingTx>)
    requires OrderedAs(s, xs) && |s| == |xs|
    ensures s == xs
  {
    forall i | 0 <= i < |s| ensures s[i] == xs[i] {
      PlacesGrow(s, xs, i);
      PlacesBounded(s, xs, i);
    }
  }

  // ---- Every way of inserting -------------------------------------------

  /** Inserting `ys` into `s`, in that order, ends with `xs` whatever places the searches find. */
  ghost predicate AlwaysBecomes(s: seq<PendingTx>, ys: seq<PendingTx>, xs: seq<PendingTx>)
    decreases |ys|
  {
    if ys == [] then s == xs
    else forall p: nat :: p <= |s| && CanStand(s, ys[0], p) ==> AlwaysBecomes(InsertAt(s, ys[0], p), ys[1..], xs)
  }

  /** `states` are the contents of the set while `ys` are inserted into `s`. */
  predicate BuildsOn(s: seq<PendingTx>, ys: seq<PendingTx>, states: seq<seq<PendingTx>>) {
    && |states| == |ys| + 1 && states[0] == s
    && forall i :: 0 <= i < |ys| ==> IsInsertion(states[i], ys[i], states[i + 1])
  }

  lemma {:induction false} BecomesBuilt(s: seq<PendingTx>, ys: seq<PendingTx>, xs: seq<PendingTx>, states: seq<seq<PendingTx>>)
    requires AlwaysBecomes(s, ys, xs) && BuildsOn(s, ys, states)
    ensures states[|ys|] == xs
    decreases |ys|
  {
    hide CanStand, InsertAt;
    if ys != [] {
      assert IsInsertion(states[0], ys[0], states[1]);
      var p := PlaceFound(s, ys[0], states[1]);
      assert BuildsOn(states[1], ys[1..], states[1..]) by {
        forall i | 0 <= i < |ys[1..]| ensures IsInsertion(states[1..][i], ys[1..][i], states[1..][i + 1]) {
          assert IsInsertion(states[i + 1], ys[i + 1], states[i + 2]);
        }
      }
      BecomesBuilt(states[1], ys[1..], xs, states[1..]);
    }
  }

  lemma PlaceFound(s: seq<PendingTx>, x: PendingTx, t: seq<PendingTx>) returns (p: nat)
    requires IsInsertion(s, x, t)
    ensures CanStand(s, x, p) && p <= |s| && t == InsertAt(s, x, p)
  {
    p :| 0 <= p <= |s| && CanStand(s, x, p) && t == InsertAt(s, x, p);
  }

  /** Otherwise some places lead elsewhere. */
  lemma {:induction false} Misbuilt(s: seq<PendingTx>, ys: seq<PendingTx>, xs: seq<PendingTx>)
    returns (states: seq<seq<PendingTx>>)
    requires !AlwaysBecomes(s, ys, xs)
    ensures BuildsOn(s, ys, states) && states[|ys|] != xs
    decreases |ys|
  {
    hide CanStand, InsertAt;
    if ys == [] {
      states := [s];
    } else {
      var p: nat :| p <= |s| && CanStand(s, ys[0], p) && !AlwaysBecomes(InsertAt(s, ys[0], p), ys[1..], xs);
      StandsWithin(s, ys[0], p);
      var rest := Misbuilt(InsertAt(s, ys[0], p), ys[1..], xs);
      states := [s] + rest;
      forall i | 0 <= i < |ys| ensures IsInsertion(states[i], ys[i], states[i + 1]) {
        if i > 0 { assert IsInsertion(rest[i - 1], ys[1..][i - 1], rest[i]); }
      }
    }
  }

  lemma StandsWithin(s: seq<PendingTx>, x: PendingTx, p: nat)
    requires CanStand(s, x, p)
    ensures p <= |s| && IsInsertion(s, x, InsertAt(s, x, p))
  {
  }

  /** Whatever the tree, inserting `ys` in that order makes the pool serve `xs`. */
  ghost predicate Serves(ys: seq<PendingTx>, xs: seq<PendingTx>) {
    forall states :: Builds(ys, states) ==> states[|ys|] == xs
  }

  lemma ServesIff(ys: seq<PendingTx>, xs: seq<PendingTx>)
    ensures Serves(ys, xs) <==> AlwaysBecomes([], ys, xs)
  {
    hide AlwaysBecomes, IsInsertion;
    if AlwaysBecomes([], ys, xs) {
      forall states | Builds(ys, states) ensures states[|ys|] == xs {
        BecomesBuilt([], ys, xs, states);
      }
    } else {
      var states := Misbuilt([], ys, xs);
      assert Builds(ys, states) && states[|ys|] != xs;
    }
  }

  // ---- The first and the last place -------------------------------------

  /** A search from the front. */
  lemma FirstPlace(s: seq<PendingTx>, x: PendingTx) returns (p: nat)
    ensures CanStand(s, x, p) && forall k :: 0 <= k < p ==> !Before(x, s[k])
  {
    hide Before;
    p := 0;
    while p < |s| && !Before(x, s[p])
      invariant p <= |s| && forall k :: 0 <= k < p ==> !Before(x, s[k])
    {
      p := p + 1;
    }
  }

  /** A search from the back. */
  lemma LastPlace(s: seq<PendingTx>, x: PendingTx) returns (p: nat)
    ensures CanStand(s, x, p) && forall k :: p <= k < |s| ==> Before(x, s[k])
  {
    hide Before;
    p := |s|;
    while p > 0 && Before(x, s[p - 1])
      invariant p <= |s| && forall k :: p <= k < |s| ==> Before(x, s[k])
    {
      p := p - 1;
    }
  }

  // ---- When the order is certain ----------------------------------------

  /** `x` compares with every entry of `s` as the order of `xs` says. */
  predicate ComparesAs(x: PendingTx, s: seq<PendingTx>, xs: seq<PendingTx>) {
    forall k :: 0 <= k < |s| ==> (Before(x, s[k]) <==> Precedes(xs, x, s[k]))
  }

  /** Each entry compares with those inserted before it as the order of `xs` says. */
  predicate Agrees(ys: seq<PendingTx>, xs: seq<PendingTx>) {
    forall i, j :: 0 <= i < j < |ys| ==> (Before(ys[j], ys[i]) <==> Precedes(xs, ys[j], ys[i]))
  }

  /** Insertion moves nobody past anybody, so at every moment the entries stand as they will in the end. */
  lemma {:induction false} AlreadyOrdered(s: seq<PendingTx>, ys: seq<PendingTx>, xs: seq<PendingTx>)
    requires AlwaysBecomes(s, ys, xs) && NoRepeats(xs)
    ensures OrderedAs(s, xs)
    decreases |ys|
  {
    hide CanStand, Before, Place;
    if ys == [] {
      forall i, j | 0 <= i < j < |s| ensures Precedes(xs, s[i], s[j]) {
        PlaceAt(xs, i);
        PlaceAt(xs, j);
      }
    } else {
      var p := FirstPlace(s, ys[0]);
      StandsWithin(s, ys[0], p);
      var t := InsertAt(s, ys[0], p);
      AlreadyOrdered(t, ys[1..], xs);
      OrderedBefore(s, ys[0], p, xs);
    }
  }

  lemma OrderedBefore(s: seq<PendingTx>, x: PendingTx, p: nat, xs: seq<PendingTx>)
    requires p <= |s| && OrderedAs(InsertAt(s, x, p), xs)
    ensures OrderedAs(s, xs) && x in xs
    ensures forall k :: 0 <= k < p ==> Precedes(xs, s[k], x)
    ensures forall k :: p <= k < |s| ==> Precedes(xs, x, s[k])
  {
    hide Place;
    var t := InsertAt(s, x, p);
    assert t[p] == x;
    forall i | 0 <= i < |s| ensures s[i] == t[if i < p then i else i + 1] {
    }
  }

  lemma OrderedAfter(s: seq<PendingTx>, x: PendingTx, p: nat, xs: seq<PendingTx>)
    requires OrderedAs(s, xs) && x in xs && x !in s && ComparesAs(x, s, xs) && CanStand(s, x, p)
    ensures OrderedAs(InsertAt(s, x, p), xs)
  {
    hide Place, Before;
    var t := InsertAt(s, x, p);
    forall k | 0 <= k < p ensures Precedes(xs, s[k], x) {
      assert s[p - 1] != x && !Precedes(xs, x, s[p - 1]);
      assert Precedes(xs, s[p - 1], x);
      assert k < p - 1 ==> Precedes(xs, s[k], s[p - 1]);
    }
    forall k | p <= k < |s| ensures Precedes(xs, x, s[k]) {
      assert Precedes(xs, x, s[p]);
      assert p < k ==> Precedes(xs, s[p], s[k]);
    }
    forall i, j | 0 <= i < j < |t| ensures Precedes(xs, t[i], t[j]) {
      assert t[i] == if i < p then s[i] else if i == p then x else s[i - 1];
      assert t[j] == if j < p then s[j] else if j == p then x else s[j - 1];
    }
  }

  lemma NotBoth(xs: seq<PendingTx>, x: PendingTx, y: PendingTx)
    ensures !(Precedes(xs, x, y) && Precedes(xs, y, x))
  {
  }

  /** If the order is certain, the newcomer's first place is its last: it compares with everyone as it will stand. */
  lemma NewcomerCompares(s: seq<PendingTx>, ys: seq<PendingTx>, xs: seq<PendingTx>)
    requires ys != [] && AlwaysBecomes(s, ys, xs) && NoRepeats(xs)
    ensures ComparesAs(ys[0], s, xs)
  {
    hide CanStand, Before, Place;
    var x := ys[0];
    var p := FirstPlace(s, x);
    var q := LastPlace(s, x);
    StandsWithin(s, x, p);
    StandsWithin(s, x, q);
    AlreadyOrdered(InsertAt(s, x, p), ys[1..], xs);
    AlreadyOrdered(InsertAt(s, x, q), ys[1..], xs);
    OrderedBefore(s, x, p, xs);
    OrderedBefore(s, x, q, xs);
    forall k | 0 <= k < |s| ensures Before(x, s[k]) <==> Precedes(xs, x, s[k]) {
      NotBoth(xs, x, s[k]);
    }
  }

  /** Each of `ys` compares with `done` and with those before it as the order of `xs` says. */
  predicate AgreesFrom(done: seq<PendingTx>, ys: seq<PendingTx>, xs: seq<PendingTx>)
    decreases |ys|
  {
    ys == [] || (ComparesAs(ys[0], done, xs) && AgreesFrom(done + [ys[0]], ys[1..], xs))
  }

  /** The set holds `s` after `done` has been inserted, `ys` is still to come, and it is all of `xs`. */
  predicate Underway(s: seq<PendingTx>, done: seq<PendingTx>, ys: seq<PendingTx>, xs: seq<PendingTx>) {
    multiset(s) == multiset(done) && multiset(done + ys) == multiset(xs) && NoRepeats(done + ys)
  }

  lemma UnderwayStep(s: seq<PendingTx>, done: seq<PendingTx>, ys: seq<PendingTx>, xs: seq<PendingTx>, p: nat)
    requires Underway(s, done, ys, xs) && ys != [] && CanStand(s, ys[0], p)
    ensures p <= |s| && Underway(InsertAt(s, ys[0], p), done + [ys[0]], ys[1..], xs)
    ensures ys[0] !in s && ys[0] in xs
    ensures ComparesAs(ys[0], s, xs) <==> ComparesAs(ys[0], done, xs)
  {
    hide CanStand, Before, Precedes;
    var x := ys[0];
    StandsWithin(s, x, p);
    InsertionGrows(s, x, InsertAt(s, x, p));
    assert done + ys == done + [x] + ys[1..];
    SameElements(s, done);
    SameElements(done + ys, xs);
    assert (done + ys)[|done|] == x;
    assert x in done + ys;
    assert forall i :: 0 <= i < |done| ==> (done + ys)[i] == done[i] != x;
    SameComparisons(x, s, done, xs);
  }

  lemma SameComparisons(x: PendingTx, s: seq<PendingTx>, t: seq<PendingTx>, xs: seq<PendingTx>)
    requires forall y :: y in s <==> y in t
    ensures ComparesAs(x, s, xs) <==> ComparesAs(x, t, xs)
  {
    hide Before, Precedes;
    assert forall k :: 0 <= k < |s| ==> s[k] in t;
    assert forall k :: 0 <= k < |t| ==> t[k] in s;
  }

  lemma {:induction false} BecomesAgrees(s: seq<PendingTx>, done: seq<PendingTx>, ys: seq<PendingTx>, xs: seq<PendingTx>)
    requires Underway(s, done, ys, xs) && NoRepeats(xs) && AlwaysBecomes(s, ys, xs)
    ensures AgreesFrom(done, ys, xs)
    decreases |ys|
  {
    hide CanStand, Underway, ComparesAs, NoRepeats, InsertAt;
    if ys != [] {
      NewcomerCompares(s, ys, xs);
      var p := FirstPlace(s, ys[0]);
      UnderwayStep(s, done, ys, xs, p);
      BecomesAgrees(InsertAt(s, ys[0], p), done + [ys[0]], ys[1..], xs);
    }
  }

  lemma {:induction false} AgreesBecomes(s: seq<PendingTx>, done: seq<PendingTx>, ys: seq<PendingTx>, xs: seq<PendingTx>)
    requires Underway(s, done, ys, xs) && OrderedAs(s, xs) && AgreesFrom(done, ys, xs)
    ensures AlwaysBecomes(s, ys, xs)
    decreases |ys|
  {
    hide CanStand, ComparesAs, NoRepeats, InsertAt, OrderedAs;
    if ys == [] {
      assert done + ys == done;
      SameElements(s, xs);
      SameOrder(s, xs);
    } else {
      hide Underway;
      forall p: nat | p <= |s| && CanStand(s, ys[0], p) ensures AlwaysBecomes(InsertAt(s, ys[0], p), ys[1..], xs) {
        UnderwayStep(s, done, ys, xs, p);
        OrderedAfter(s, ys[0], p, xs);
        AgreesBecomes(InsertAt(s, ys[0], p), done + [ys[0]], ys[1..], xs);
      }
    }
  }

  lemma {:induction false} AgreesFromIff(done: seq<PendingTx>, ys: seq<PendingTx>, xs: seq<PendingTx>)
    ensures AgreesFrom(done, ys, xs) <==>
            forall j :: |done| <= j < |done + ys| ==> ComparesAs((done + ys)[j], (done + ys)[..j], xs)
    decreases |ys|
  {
    hide ComparesAs;
    if ys != [] {
      AgreesFromIff(done + [ys[0]], ys[1..], xs);
      assert done + [ys[0]] + ys[1..] == done + ys;
      assert (done + ys)[|done|] == ys[0] && (done + ys)[..|done|] == done;
    }
  }

  lemma AgreesIff(ys: seq<PendingTx>, xs: seq<PendingTx>)
    ensures Agrees(ys, xs) <==> forall j :: 0 <= j < |ys| ==> ComparesAs(ys[j], ys[..j], xs)
  {
    hide Before, Precedes;
    if forall j :: 0 <= j < |ys| ==> ComparesAs(ys[j], ys[..j], xs) {
      forall i, j | 0 <= i < j < |ys| ensures Before(ys[j], ys[i]) <==> Precedes(xs, ys[j], ys[i]) {
        assert ComparesAs(ys[j], ys[..j], xs) && ys[..j][i] == ys[i];
      }
    }
  }

  lemma RepeatsMatter(xs: seq<PendingTx>, i: nat, j: nat)
    requires i < j < |xs| && xs[i] == xs[j]
    ensures multiset(xs)[xs[i]] >= 2
  {
    assert xs == xs[..j] + xs[j..];
    assert xs[i] in xs[..j] && xs[j] == xs[j..][0];
    assert multiset(xs[..j])[xs[i]] >= 1 && multiset(xs[j..])[xs[i]] >= 1;
  }

  lemma {:induction false} OnlyOnce(xs: seq<PendingTx>, x: PendingTx)
    requires NoRepeats(xs)
    ensures multiset(xs)[x] <= 1
  {
    if xs != [] {
      OnlyOnce(xs[1..], x);
      assert xs == [xs[0]] + xs[1..];
      if x in xs[1..] {
        var i :| 0 <= i < |xs[1..]| && xs[1..][i] == x;
        assert xs[0] != xs[i + 1];
      }
    }
  }

  lemma SameRepeats(ys: seq<PendingTx>, xs: seq<PendingTx>)
    requires NoRepeats(ys) && multiset(ys) == multiset(xs)
    ensures NoRepeats(xs)
  {
    forall i, j | 0 <= i < j < |xs| ensures xs[i] != xs[j] {
      if xs[i] == xs[j] {
        RepeatsMatter(xs, i, j);
        OnlyOnce(ys, xs[i]);
      }
    }
  }

  /**
    The pool serves `xs`, whatever the shape of the tree, after `ys` have been inserted one after the other, if and
    only if every newcomer compares with everyone who is there already as the order of `xs` says.
   */
  lemma ServesExactly(ys: seq<PendingTx>, xs: seq<PendingTx>)
    requires NoRepeats(ys) && multiset(ys) == multiset(xs)
    ensures Serves(ys, xs) <==> Agrees(ys, xs)
  {
    hide Serves, AlwaysBecomes, Agrees, AgreesFrom, ComparesAs, NoRepeats;
    SameRepeats(ys, xs);
    ServesIff(ys, xs);
    AgreesIff(ys, xs);
    AgreesFromIff([], ys, xs);
    assert [] + ys == ys;
    if AlwaysBecomes([], ys, xs) { BecomesAgrees([], [], ys, xs); }
    if AgreesFrom([], ys, xs) { AgreesBecomes([], [], ys, xs); }
  }

  // ---- In order of insertion --------------------------------------------

  /** Nobody goes before anybody who was inserted earlier. */
  predicate NoneOvertakes(xs: seq<PendingTx>) {
    forall i, j :: 0 <= i < j < |xs| ==> !Before(xs[j], xs[i])
  }

  /** First come is first served, whatever the tree, if and only if nobody goes before anybody who came earlier. */
  lemma FirstServedIff(xs: seq<PendingTx>)
    requires NoRepeats(xs)
    ensures Serves(xs, xs) <==> NoneOvertakes(xs)
  {
    hide Serves, Before, Place;
    ServesExactly(xs, xs);
    forall i, j | 0 <= i < j < |xs| ensures !Precedes(xs, xs[j], xs[i]) {
      PlaceAt(xs, i);
      PlaceAt(xs, j);
    }
  }

  // ---- In any order of insertion ----------------------------------------

  function Backwards(xs: seq<PendingTx>): (r: seq<PendingTx>)
    ensures |r| == |xs| && multiset(r) == multiset(xs)
    ensures forall i :: 0 <= i < |xs| ==> r[i] == xs[|xs| - 1 - i]
  {
    if xs == [] then [] else assert xs == [xs[0]] + xs[1..]; Backwards(xs[1..]) + [xs[0]]
  }

  /** The pool serves `xs` in whatever order its entries are inserted. */
  ghost predicate ServesAnyhow(xs: seq<PendingTx>) {
    forall ys :: multiset(ys) == multiset(xs) ==> Serves(ys, xs)
  }

  /** The order of insertion does not matter, and neither does the tree, if and only if `xs` is in order, pair by pair. */
  lemma ServesAnyhowIff(xs: seq<PendingTx>)
    requires NoRepeats(xs)
    ensures ServesAnyhow(xs) <==> Ordered(xs)
  {
    hide Serves, Before, Place, Agrees;
    if ServesAnyhow(xs) {
      assert Serves(xs, xs) && Serves(Backwards(xs), xs);
      SameRepeats(xs, Backwards(xs));
      ServesExactly(Backwards(xs), xs);
      forall i, j | 0 <= i < j < |xs| ensures Before(xs[i], xs[j]) {
        AgreesOnPair(Backwards(xs), xs, |xs| - 1 - i, |xs| - 1 - j, i, j);
      }
    }
    if Ordered(xs) {
      forall ys | multiset(ys) == multiset(xs) ensures Serves(ys, xs) {
        SameRepeats(xs, ys);
        ServesExactly(ys, xs);
        OrderedAgrees(ys, xs);
      }
    }
  }

  lemma AgreesOnPair(ys: seq<PendingTx>, xs: seq<PendingTx>, a: nat, b: nat, i: nat, j: nat)
    requires NoRepeats(xs) && Agrees(ys, xs) && b < a < |ys| && i < j < |xs| && ys[a] == xs[i] && ys[b] == xs[j]
    ensures Before(xs[i], xs[j])
  {
    hide Before, Place, NoRepeats;
    PlaceAt(xs, i);
    PlaceAt(xs, j);
  }

  lemma OrderedAgrees(ys: seq<PendingTx>, xs: seq<PendingTx>)
    requires NoRepeats(ys) && NoRepeats(xs) && multiset(ys) == multiset(xs) && Ordered(xs)
    ensures Agrees(ys, xs)
  {
    hide Before;
    SameElements(ys, xs);
    forall i, j | 0 <= i < j < |ys| ensures Before(ys[j], ys[i]) <==> Precedes(xs, ys[j], ys[i]) {
      assert ys[i] in xs && ys[j] in xs && ys[i] != ys[j];
      var a, b := Place(xs, ys[i]), Place(xs, ys[j]);
      if a < b {
        assert Before(xs[a], xs[b]);
        Asymmetric(xs[a], xs[b]);
      }
    }
  }

  lemma Asymmetric(a: PendingTx, b: PendingTx)
    requires Before(a, b)
    ensures !Before(b, a)
  {
  }
}
