/** The order of pending transactions, and the ordered set that is built on it. */
module PoolOrder {
  import opened Sequences

  datatype TxId = TxId(sender: nat, nonce: nat)

  /** A pool entry; a lower `rank` comes first: the arrival number, or the negated tip. */
  datatype PendingTx = PendingTx(id: TxId, hash: nat, payload: nat, rank: int)

  datatype Ordering = Less | Greater

  function CompareValues(a: int, b: int): Ordering {
    if a < b then Less else Greater
  }

  /** Never equal: by nonce for one sender, otherwise by rank, and ties go to the end. */
  function Compare(a: PendingTx, b: PendingTx): Ordering {
    if a.id.sender == b.id.sender then CompareValues(a.id.nonce, b.id.nonce) else CompareValues(a.rank, b.rank)
  }

  predicate Before(a: PendingTx, b: PendingTx) {
    Compare(a, b).Less?
  }

  // ---- When the comparison is an order ----------------------------------

  predicate Transitive(s: set<PendingTx>) {
    forall a, b, c :: a in s && b in s && c in s && Before(a, b) && Before(b, c) ==> Before(a, c)
  }

  predicate Trichotomous(s: set<PendingTx>) {
    forall a, b :: a in s && b in s && a != b ==> (Before(a, b) <==> !Before(b, a))
  }

  predicate Irreflexive(s: set<PendingTx>) {
    forall a :: a in s ==> !Before(a, a)
  }

  predicate StrictTotalOrder(s: set<PendingTx>) {
    Irreflexive(s) && Trichotomous(s) && Transitive(s)
  }

  /** No two entries have the same rank, and none the same sender and nonce. */
  predicate Distinguished(s: set<PendingTx>) {
    forall a, b :: a in s && b in s && a != b ==> a.rank != b.rank && a.id != b.id
  }

  /** Two entries of one sender whose ranks contradict their nonces, with another sender's entry in between. */
  predicate Wedge(a: PendingTx, b: PendingTx, c: PendingTx) {
    a.id.sender == b.id.sender != c.id.sender && a.id.nonce < b.id.nonce && b.rank < c.rank < a.rank
  }

  predicate HasWedge(s: set<PendingTx>) {
    exists a, b, c :: a in s && b in s && c in s && Wedge(a, b, c)
  }

  /** On distinguishable entries the comparison is a strict total order exactly when there is no wedge. */
  lemma OrderIffNoWedge(s: set<PendingTx>)
    requires Distinguished(s)
    ensures StrictTotalOrder(s) <==> !HasWedge(s)
  {
    if HasWedge(s) {
      var a, b, c :| a in s && b in s && c in s && Wedge(a, b, c);
      assert Before(a, b) && Before(b, c) && !Before(a, c);
    } else {
      forall a, b, c | a in s && b in s && c in s && Before(a, b) && Before(b, c) ensures Before(a, c) {
        assert !Wedge(a, b, c) && !Wedge(b, c, a) && !Wedge(c, a, b);
      }
    }
  }

  /** The comparison is not transitive in general: a cycle of three. */
  lemma CompareCycle()
    ensures var a, b, c :=
              PendingTx(TxId(1, 0), 100, 0, 10), PendingTx(TxId(1, 1), 101, 0, 5), PendingTx(TxId(2, 0), 102, 0, 7);
            Before(a, b) && Before(b, c) && Before(c, a) && HasWedge({a, b, c})
  {
    var a, b, c :=
      PendingTx(TxId(1, 0), 100, 0, 10), PendingTx(TxId(1, 1), 101, 0, 5), PendingTx(TxId(2, 0), 102, 0, 7);
    assert Wedge(a, b, c);
  }

  /** Each sender's nonces increase with rank. */
  predicate NoncesFollowRanks(s: set<PendingTx>) {
    forall a, b :: a in s && b in s && a.id.sender == b.id.sender && a.rank < b.rank ==> a.id.nonce < b.id.nonce
  }

  /** Then the order is simply the order of the ranks. */
  lemma OrderIsRankOrder(s: set<PendingTx>)
    requires Distinguished(s) && NoncesFollowRanks(s)
    ensures StrictTotalOrder(s)
    ensures forall a, b :: a in s && b in s ==> (Before(a, b) <==> a.rank < b.rank)
  {
    forall a, b | a in s && b in s ensures Before(a, b) <==> a.rank < b.rank {
      if a != b { assert a.rank != b.rank; }
    }
  }

  // ---- Insertion --------------------------------------------------------

  predicate CanStand(s: seq<PendingTx>, x: PendingTx, p: nat) {
    && p <= |s|
    && (p > 0 ==> !Before(x, s[p - 1]))
    && (p < |s| ==> Before(x, s[p]))
  }

  function InsertAt(s: seq<PendingTx>, x: PendingTx, p: nat): seq<PendingTx>
    requires p <= |s|
  {
    s[..p] + [x] + s[p..]
  }

  /**
    `t` is `s` with `x` inserted by a tree search. Whatever the shape of the tree, the search compares `x` with
    both neighbours of the place where it puts it; it always finds one, as no comparison says equal.
   */
  predicate IsInsertion(s: seq<PendingTx>, x: PendingTx, t: seq<PendingTx>) {
    exists p :: 0 <= p <= |s| && CanStand(s, x, p) && t == InsertAt(s, x, p)
  }

  /** A search from the front. */
  method Insert(s: seq<PendingTx>, x: PendingTx) returns (t: seq<PendingTx>, p: nat)
    ensures CanStand(s, x, p) && t == InsertAt(s, x, p) && IsInsertion(s, x, t)
  {
    p := 0;
    while p < |s| && Compare(x, s[p]) == Greater
      invariant p <= |s|
      invariant p > 0 ==> !Before(x, s[p - 1])
    {
      p := p + 1;
    }
    t := InsertAt(s, x, p);
  }

  lemma InsertionGrows(s: seq<PendingTx>, x: PendingTx, t: seq<PendingTx>)
    requires IsInsertion(s, x, t)
    ensures |t| == |s| + 1 && multiset(t) == multiset(s) + multiset{x}
  {
    hide CanStand;
    var p :| 0 <= p <= |s| && CanStand(s, x, p) && t == InsertAt(s, x, p);
    InsertedElements(s[..p], x, s[p..]);
    assert s == s[..p] + s[p..];
  }

  lemma InsertedElements(a: seq<PendingTx>, x: PendingTx, b: seq<PendingTx>)
    ensures multiset(a + [x] + b) == multiset(a + b) + multiset{x}
  {
  }

  predicate Ordered(s: seq<PendingTx>) {
    forall i, j :: 0 <= i < j < |s| ==> Before(s[i], s[j])
  }

  function Elements(s: seq<PendingTx>): set<PendingTx> {
    set x | x in s
  }

  /** Insertion into an ordered list keeps it ordered, as long as the comparison is an order. */
  lemma InsertionOrdered(s: seq<PendingTx>, x: PendingTx, t: seq<PendingTx>)
    requires Ordered(s) && IsInsertion(s, x, t) && x !in s && StrictTotalOrder(Elements(s) + {x})
    ensures Ordered(t)
  {
    hide Before, StrictTotalOrder;
    var p :| 0 <= p <= |s| && CanStand(s, x, p) && t == InsertAt(s, x, p);
    StandsBetween(s, x, p);
    forall i, j | 0 <= i < j < |t| ensures Before(t[i], t[j]) {
      assert t[i] == if i < p then s[i] else if i == p then x else s[i - 1];
      assert t[j] == if j < p then s[j] else if j == p then x else s[j - 1];
    }
  }

  lemma StandsBetween(s: seq<PendingTx>, x: PendingTx, p: nat)
    requires Ordered(s) && x !in s && StrictTotalOrder(Elements(s) + {x}) && CanStand(s, x, p)
    ensures forall i :: 0 <= i < p ==> Before(s[i], x)
    ensures forall j :: p <= j < |s| ==> Before(x, s[j])
  {
    hide Before;
    var u := Elements(s) + {x};
    forall i | 0 <= i < p ensures Before(s[i], x) {
      assert s[p - 1] in u && s[i] in u && s[p - 1] != x;
      assert Before(s[p - 1], x);
    }
    forall j | p <= j < |s| ensures Before(x, s[j]) {
      assert s[p] in u && s[j] in u;
    }
  }

  // ---- Building a pool --------------------------------------------------

  /** `states` are the contents of the set while `xs` are inserted one after the other. */
  predicate Builds(xs: seq<PendingTx>, states: seq<seq<PendingTx>>) {
    && |states| == |xs| + 1 && states[0] == []
    && forall i :: 0 <= i < |xs| ==> IsInsertion(states[i], xs[i], states[i + 1])
  }

  predicate NoRepeats(xs: seq<PendingTx>) {
    forall i, j :: 0 <= i < j < |xs| ==> xs[i] != xs[j]
  }

  lemma {:induction false} BuiltContents(xs: seq<PendingTx>, states: seq<seq<PendingTx>>, n: nat)
    requires Builds(xs, states) && n <= |xs|
    ensures |states[n]| == n && multiset(states[n]) == multiset(xs[..n])
  {
    hide IsInsertion;
    if n > 0 {
      BuiltContents(xs, states, n - 1);
      InsertionGrows(states[n - 1], xs[n - 1], states[n]);
      assert xs[..n] == xs[..n - 1] + [xs[n - 1]];
    }
  }

  lemma SubsetOrder(s: set<PendingTx>, u: set<PendingTx>)
    requires StrictTotalOrder(u) && s <= u
    ensures StrictTotalOrder(s)
  {
    hide Before;
  }

  lemma {:induction false} BuiltOrdered(xs: seq<PendingTx>, states: seq<seq<PendingTx>>, n: nat)
    requires Builds(xs, states) && n <= |xs| && NoRepeats(xs) && StrictTotalOrder(Elements(xs))
    ensures Ordered(states[n])
  {
    hide IsInsertion, Before, StrictTotalOrder;
    if n > 0 {
      BuiltOrdered(xs, states, n - 1);
      BuiltContents(xs, states, n - 1);
      var s, x := states[n - 1], xs[n - 1];
      SameElements(s, xs[..n - 1]);
      assert x !in s;
      SubsetOrder(Elements(s) + {x}, Elements(xs));
      InsertionOrdered(s, x, states[n]);
    }
  }

  lemma SameElements(s: seq<PendingTx>, t: seq<PendingTx>)
    requires multiset(s) == multiset(t)
    ensures forall x :: x in s <==> x in t
    ensures |s| == |t|
  {
    forall x ensures x in s <==> x in t {
      assert x in s <==> x in multiset(s);
      assert x in t <==> x in multiset(t);
    }
    assert |multiset(s)| == |s| && |multiset(t)| == |t|;
  }

  lemma FirstsAgree(s: seq<PendingTx>, t: seq<PendingTx>)
    requires Ordered(s) && Ordered(t) && StrictTotalOrder(Elements(s))
    requires s != [] && t != [] && t[0] in s && s[0] in t
    ensures s[0] == t[0]
  {
    hide Before;
    assert s[0] in Elements(s) && t[0] in Elements(s);
  }

  lemma TailElements(s: seq<PendingTx>)
    requires s != []
    ensures multiset(s[1..]) == multiset(s) - multiset{s[0]}
  {
    assert s == [s[0]] + s[1..];
    assert multiset(s) == multiset([s[0]]) + multiset(s[1..]);
  }

  /** An ordered list is determined by its elements. */
  lemma {:induction false} OrderedUnique(s: seq<PendingTx>, t: seq<PendingTx>)
    requires Ordered(s) && Ordered(t) && multiset(s) == multiset(t) && StrictTotalOrder(Elements(s))
    ensures s == t
  {
    hide Before;
    SameElements(s, t);
    if s != [] {
      assert t[0] in s && s[0] in t && s[0] in Elements(s) && t[0] in Elements(s);
      FirstsAgree(s, t);
      TailElements(s);
      TailElements(t);
      SubsetOrder(Elements(s[1..]), Elements(s));
      OrderedUnique(s[1..], t[1..]);
    }
  }

  /** The pool enumerates the same list, in the one order there is, however its entries arrived. */
  lemma ArrivalIrrelevant(
      xs: seq<PendingTx>, states: seq<seq<PendingTx>>, ys: seq<PendingTx>, others: seq<seq<PendingTx>>)
    requires Builds(xs, states) && Builds(ys, others) && multiset(xs) == multiset(ys)
    requires NoRepeats(xs) && NoRepeats(ys) && StrictTotalOrder(Elements(xs))
    ensures states[|xs|] == others[|ys|] && Ordered(states[|xs|])
  {
    hide IsInsertion, Before, StrictTotalOrder, NoRepeats, Ordered;
    SameElements(xs, ys);
    assert Elements(xs) == Elements(ys);
    assert xs[..|xs|] == xs && ys[..|ys|] == ys;
    BuiltContents(xs, states, |xs|);
    BuiltContents(ys, others, |ys|);
    BuiltOrdered(xs, states, |xs|);
    BuiltOrdered(ys, others, |ys|);
    SameElements(states[|xs|], xs);
    assert Elements(states[|xs|]) == Elements(xs);
    OrderedUnique(states[|xs|], others[|ys|]);
  }

  /** With unique ranks that each sender's nonces follow, the pool enumerates by rank. */
  lemma EnumeratesByRank(xs: seq<PendingTx>, states: seq<seq<PendingTx>>)
    requires Builds(xs, states) && NoRepeats(xs) && Distinguished(Elements(xs)) && NoncesFollowRanks(Elements(xs))
    ensures var t := states[|xs|];
            multiset(t) == multiset(xs) && forall i, j :: 0 <= i < j < |t| ==> t[i].rank < t[j].rank
  {
    hide IsInsertion, Before, StrictTotalOrder, NoRepeats, Distinguished, NoncesFollowRanks;
    OrderIsRankOrder(Elements(xs));
    BuiltOrdered(xs, states, |xs|);
    BuiltContents(xs, states, |xs|);
    assert xs[..|xs|] == xs;
    SameElements(states[|xs|], xs);
    assert forall x :: x in states[|xs|] ==> x in Elements(xs);
  }

  /** Arrival numbers: each entry ranks after those before it, and no sender's nonces fall. */
  predicate ArrivalRanked(xs: seq<PendingTx>) {
    forall i, j :: 0 <= i < j < |xs| ==>
      && xs[i].rank < xs[j].rank
      && (xs[i].id.sender == xs[j].id.sender ==> xs[i].id.nonce <= xs[j].id.nonce)
  }

  /** An entry that goes before none of those present goes to the end. */
  lemma StandsLast(s: seq<PendingTx>, x: PendingTx, t: seq<PendingTx>)
    requires IsInsertion(s, x, t) && forall i :: 0 <= i < |s| ==> !Before(x, s[i])
    ensures t == s + [x]
  {
    hide Before;
    var p :| 0 <= p <= |s| && CanStand(s, x, p) && t == InsertAt(s, x, p);
    assert p == |s|;
  }

  lemma {:induction false} ServedSoFar(xs: seq<PendingTx>, states: seq<seq<PendingTx>>, n: nat)
    requires Builds(xs, states) && ArrivalRanked(xs) && n <= |xs|
    ensures states[n] == xs[..n]
  {
    hide IsInsertion;
    if n > 0 {
      ServedSoFar(xs, states, n - 1);
      StandsLast(states[n - 1], xs[n - 1], states[n]);
      assert xs[..n] == xs[..n - 1] + [xs[n - 1]];
    }
  }

  /** Then first come is first served. */
  lemma FirstComeFirstServed(xs: seq<PendingTx>, states: seq<seq<PendingTx>>)
    requires Builds(xs, states) && ArrivalRanked(xs)
    ensures states[|xs|] == xs
  {
    ServedSoFar(xs, states, |xs|);
    assert xs[..|xs|] == xs;
  }

  /** Hands out arrival numbers. */
  class FiFo {
    var nonce: nat

    constructor ()
      ensures nonce == 0
    {
      nonce := 0;
    }

    method Assign() returns (rank: nat)
      requires nonce < 0x1_0000_0000_0000_0000
      modifies this
      ensures rank == old(nonce)
      ensures nonce == (old(nonce) + 1) % 0x1_0000_0000_0000_0000
      ensures rank < nonce <==> rank + 1 < 0x1_0000_0000_0000_0000
    {
      rank := nonce;
      nonce := (nonce + 1) % 0x1_0000_0000_0000_0000;
    }
  }

  // ---- Tied ranks -------------------------------------------------------

  predicate DistinctSenders(xs: seq<PendingTx>) {
    forall i, j :: 0 <= i < j < |xs| ==> xs[i].id.sender != xs[j].id.sender
  }

  predicate RankSorted(s: seq<PendingTx>) {
    forall i, j :: 0 <= i < j < |s| ==> s[i].rank <= s[j].rank
  }

  function Ranked(x: PendingTx, r: int): seq<PendingTx> {
    if x.rank == r then [x] else []
  }

  /** The entries of rank `r`, in order. */
  function OfRank(s: seq<PendingTx>, r: int): seq<PendingTx> {
    if s == [] then [] else Ranked(s[0], r) + OfRank(s[1..], r)
  }

  /** `t` is `xs` sorted by rank, with entries of equal rank in their original order. */
  ghost predicate StableSort(xs: seq<PendingTx>, t: seq<PendingTx>) {
    RankSorted(t) && forall r :: OfRank(t, r) == OfRank(xs, r)
  }

  lemma {:induction false} OfRankConcat(s: seq<PendingTx>, t: seq<PendingTx>, r: int)
    ensures OfRank(s + t, r) == OfRank(s, r) + OfRank(t, r)
  {
    if s == [] {
      assert s + t == t;
    } else {
      hide *;
      OfRankConcat(s[1..], t, r);
      assert (s + t)[1..] == s[1..] + t;
      OfRankUnfold(s, r);
      OfRankUnfold(s + t, r);
      Associates(Ranked(s[0], r), OfRank(s[1..], r), OfRank(t, r));
    }
  }

  lemma OfRankUnfold(s: seq<PendingTx>, r: int)
    requires s != []
    ensures OfRank(s, r) == Ranked(s[0], r) + OfRank(s[1..], r)
  {
  }

  lemma {:induction false} OfRankNone(s: seq<PendingTx>, r: int)
    requires forall i :: 0 <= i < |s| ==> s[i].rank != r
    ensures OfRank(s, r) == []
  {
    if s != [] { OfRankNone(s[1..], r); }
  }

  lemma StandsAfterTies(s: seq<PendingTx>, x: PendingTx, p: nat)
    requires RankSorted(s) && CanStand(s, x, p)
    requires forall i :: 0 <= i < |s| ==> s[i].id.sender != x.id.sender
    ensures forall i :: 0 <= i < p ==> s[i].rank <= x.rank
    ensures forall j :: p <= j < |s| ==> x.rank < s[j].rank
  {
    if p > 0 { assert !Before(x, s[p - 1]) && s[p - 1].rank <= x.rank; }
    if p < |s| { assert Before(x, s[p]) && x.rank < s[p].rank; }
  }

  lemma StableStep(xs: seq<PendingTx>, s: seq<PendingTx>, x: PendingTx, t: seq<PendingTx>)
    requires StableSort(xs, s) && IsInsertion(s, x, t)
    requires forall i :: 0 <= i < |s| ==> s[i].id.sender != x.id.sender
    ensures StableSort(xs + [x], t)
  {
    hide OfRank, Before;
    var p :| 0 <= p <= |s| && CanStand(s, x, p) && t == InsertAt(s, x, p);
    StandsAfterTies(s, x, p);
    SortedInsert(s, x, p);
    forall r ensures OfRank(t, r) == OfRank(xs + [x], r) {
      OfRankInsert(s, x, p, r);
      OfRankConcat(xs, [x], r);
    }
  }

  lemma SortedInsert(s: seq<PendingTx>, x: PendingTx, p: nat)
    requires RankSorted(s) && p <= |s|
    requires forall i :: 0 <= i < p ==> s[i].rank <= x.rank
    requires forall j :: p <= j < |s| ==> x.rank < s[j].rank
    ensures RankSorted(InsertAt(s, x, p))
  {
    var t := InsertAt(s, x, p);
    forall i, j | 0 <= i < j < |t| ensures t[i].rank <= t[j].rank {
      assert t[i] == if i < p then s[i] else if i == p then x else s[i - 1];
      assert t[j] == if j < p then s[j] else if j == p then x else s[j - 1];
    }
  }

  lemma OfRankInsert(s: seq<PendingTx>, x: PendingTx, p: nat, r: int)
    requires p <= |s| && forall j :: p <= j < |s| ==> x.rank < s[j].rank
    ensures OfRank(InsertAt(s, x, p), r) == OfRank(s, r) + OfRank([x], r)
  {
    hide OfRank;
    OfRankConcat(s[..p] + [x], s[p..], r);
    OfRankConcat(s[..p], [x], r);
    OfRankConcat(s[..p], s[p..], r);
    assert s == s[..p] + s[p..];
    if x.rank == r {
      OfRankNone(s[p..], r);
    } else {
      OfRankNone([x], r);
    }
  }

  /** With distinct senders, insertion is a stable sort, whatever the ties. */
  lemma {:induction false} BuiltStable(xs: seq<PendingTx>, states: seq<seq<PendingTx>>, n: nat)
    requires Builds(xs, states) && n <= |xs| && DistinctSenders(xs)
    ensures StableSort(xs[..n], states[n])
  {
    hide IsInsertion, OfRank;
    if n > 0 {
      BuiltStable(xs, states, n - 1);
      BuiltContents(xs, states, n - 1);
      var s, x := states[n - 1], xs[n - 1];
      SameElements(s, xs[..n - 1]);
      forall i | 0 <= i < |s| ensures s[i].id.sender != x.id.sender {
        assert s[i] in xs[..n - 1];
      }
      StableStep(xs[..n - 1], s, x, states[n]);
      assert xs[..n] == xs[..n - 1] + [x];
    }
  }
}
