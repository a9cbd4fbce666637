/** The order of the pool through additions and removals. */
module PoolOrderRuns {
  import opened PoolOrder
  import opened PoolRuns
  import opened PoolServing

  // ---- Removal keeps the order ------------------------------------------

  predicate Rising(indices: seq<nat>) {
    forall i, j :: 0 <= i < j < |indices| ==> indices[i] < indices[j]
  }

  /** `t` is what stands in `s` at the rising `indices`. */
  predicate SelectedAt(t: seq<PendingTx>, s: seq<PendingTx>, indices: seq<nat>) {
    && |indices| == |t| && Rising(indices)
    && forall j :: 0 <= j < |t| ==> indices[j] < |s| && t[j] == s[indices[j]]
  }

  lemma {:induction false} RetainedConcat(s: seq<PendingTx>, t: seq<PendingTx>, hashes: set<nat>)
    ensures Retained(s + t, hashes) == Retained(s, hashes) + Retained(t, hashes)
  {
    if s == [] {
      assert s + t == t;
    } else {
      assert (s + t)[1..] == s[1..] + t;
      RetainedConcat(s[1..], t, hashes);
    }
  }

  lemma RetainedOne(x: PendingTx, hashes: set<nat>)
    ensures Retained([x], hashes) == if x.hash in hashes then [] else [x]
  {
    assert [x][1..] == [];
  }

  /** The entries whose hash is not listed, and only those, stay, in the order in which they stood. */
  lemma {:induction false} RetainedKeeps(s: seq<PendingTx>, hashes: set<nat>) returns (indices: seq<nat>)
    ensures SelectedAt(Retained(s, hashes), s, indices)
    ensures forall i: nat :: i < |s| ==> (i in indices <==> s[i].hash !in hashes)
  {
    if s == [] {
      indices := [];
    } else {
      var n := |s| - 1;
      var before, x := s[..n], s[n];
      var earlier := RetainedKeeps(before, hashes);
      hide Retained;
      assert s == before + [x];
      RetainedConcat(before, [x], hashes);
      RetainedOne(x, hashes);
      SelectedMore(Retained(before, hashes), before, earlier, x);
      indices := if x.hash in hashes then earlier else earlier + [n];
      assert Retained(before, hashes) + [] == Retained(before, hashes);
      forall i: nat | i < |s| ensures i in indices <==> s[i].hash !in hashes {
        if i < n { assert before[i] == s[i]; } else { NotYet(earlier, n); }
      }
    }
  }

  lemma SelectedMore(t: seq<PendingTx>, s: seq<PendingTx>, indices: seq<nat>, x: PendingTx)
    requires SelectedAt(t, s, indices)
    ensures SelectedAt(t, s + [x], indices) && SelectedAt(t + [x], s + [x], indices + [|s|])
    ensures forall i :: 0 <= i < |indices| ==> indices[i] < |s|
  {
  }

  lemma NotYet(indices: seq<nat>, n: nat)
    requires forall i :: 0 <= i < |indices| ==> indices[i] < n
    ensures n !in indices
  {
  }

  /** A part of an ordered list is ordered. */
  lemma SelectedOrdered(t: seq<PendingTx>, s: seq<PendingTx>, indices: seq<nat>)
    requires SelectedAt(t, s, indices) && Ordered(s)
    ensures Ordered(t)
  {
    hide Before;
    forall i, j | 0 <= i < j < |t| ensures Before(t[i], t[j]) {
      assert t[i] == s[indices[i]] && t[j] == s[indices[j]] && indices[i] < indices[j];
    }
  }

  lemma RetainedOrdered(s: seq<PendingTx>, hashes: set<nat>)
    requires Ordered(s)
    ensures Ordered(Retained(s, hashes))
  {
    hide Ordered, SelectedAt;
    var indices := RetainedKeeps(s, hashes);
    SelectedOrdered(Retained(s, hashes), s, indices);
  }

  lemma SelectedFrom(u: seq<PendingTx>, t: seq<PendingTx>, inner: seq<nat>, s: seq<PendingTx>, outer: seq<nat>)
    returns (indices: seq<nat>)
    requires SelectedAt(u, t, inner) && SelectedAt(t, s, outer)
    ensures SelectedAt(u, s, indices)
  {
    indices := seq(|u|, j requires 0 <= j < |u| && SelectedAt(u, t, inner) && SelectedAt(t, s, outer) => outer[inner[j]]);
  }

  // ---- Entries that are totally ordered ---------------------------------

  /** Everything that was ever inserted. */
  function InsertedSet(es: seq<Event>): set<PendingTx> {
    if es == [] then {} else InsertedSet(Earlier(es)) + (if Last(es).Insert? then {Last(es).tx} else {})
  }

  /** No entry is inserted while an equal one is there. */
  predicate NeverTwice(es: seq<Event>) {
    es == [] || (NeverTwice(Earlier(es)) && (Last(es).Insert? ==> Present(Earlier(es), Last(es).tx) == 0))
  }

  lemma {:induction false} InPoolInserted(es: seq<Event>, x: PendingTx)
    requires Run(es) && x in After(es).transactions
    ensures x in InsertedSet(es)
    decreases |es|
  {
    RunMatches(es);
    var txs := After(es).transactions;
    assert x in multiset(txs);
    assert multiset(txs)[x] == Present(es, x);
    PresentListed(es, x);
  }

  lemma {:induction false} PresentListed(es: seq<Event>, x: PendingTx)
    requires Present(es, x) > 0
    ensures x in InsertedSet(es)
  {
    if es != [] && Present(Earlier(es), x) > 0 { PresentListed(Earlier(es), x); }
  }

  lemma OrderedInsert(s: State, e: Event, inserted: set<PendingTx>)
    requires e.Insert? && Enabled(s, e) && Ordered(s.transactions) && e.tx !in s.transactions
    requires StrictTotalOrder(inserted) && e.tx in inserted && forall x :: x in s.transactions ==> x in inserted
    ensures Ordered(Step(s, e).transactions)
  {
    hide Before, StrictTotalOrder, Ordered, CanStand;
    assert IsInsertion(s.transactions, e.tx, Step(s, e).transactions) by { InsertionIs(s, e); }
    SubsetOrder(Elements(s.transactions) + {e.tx}, inserted);
    InsertionOrdered(s.transactions, e.tx, Step(s, e).transactions);
  }

  lemma InsertionIs(s: State, e: Event)
    requires e.Insert? && Enabled(s, e)
    ensures IsInsertion(s.transactions, e.tx, Step(s, e).transactions)
  {
  }

  lemma OtherSteps(s: State, e: Event)
    requires Enabled(s, e) && !e.Insert?
    ensures Step(s, e).transactions == if e.Remove? then Retained(s.transactions, e.hashes) else s.transactions
  {
    hide Retained, Delivered;
  }

  /**
    After every run whose inserted entries are totally ordered by the comparator, with removals anywhere in between,
    the pool is in order.
   */
  lemma {:induction false} PoolStaysOrdered(es: seq<Event>)
    requires Run(es) && NeverTwice(es) && StrictTotalOrder(InsertedSet(es))
    ensures Ordered(After(es).transactions)
  {
    hide Step, Enabled, InProtocol, StrictTotalOrder, Retained, Ordered;
    if es == [] {
      EmptyOrdered();
    } else {
      var s, e := After(Earlier(es)), Last(es);
      SubsetOrder(InsertedSet(Earlier(es)), InsertedSet(es));
      PoolStaysOrdered(Earlier(es));
      if e.Insert? {
        NotThere(Earlier(es), e.tx);
        forall x | x in s.transactions ensures x in InsertedSet(es) {
          InPoolInserted(Earlier(es), x);
        }
        OrderedInsert(s, e, InsertedSet(es));
      } else {
        OtherSteps(s, e);
        if e.Remove? { RetainedOrdered(s.transactions, e.hashes); }
      }
    }
  }

  lemma EmptyOrdered()
    ensures Ordered(EMPTY_POOL.transactions)
  {
  }

  lemma NotThere(es: seq<Event>, x: PendingTx)
    requires Run(es) && Present(es, x) == 0
    ensures x !in After(es).transactions
  {
    hide Run, After, Present;
    RunMatches(es);
    var txs := After(es).transactions;
    assert multiset(txs)[x] == Present(es, x);
    assert x in txs <==> x in multiset(txs);
  }

  /** So the pool enumerates what is in it in the one order there is: any two runs that leave the same entries agree. */
  lemma PoolsAgree(es: seq<Event>, fs: seq<Event>)
    requires Run(es) && NeverTwice(es) && StrictTotalOrder(InsertedSet(es))
    requires Run(fs) && NeverTwice(fs) && StrictTotalOrder(InsertedSet(fs))
    requires forall x :: Present(es, x) == Present(fs, x)
    ensures After(es).transactions == After(fs).transactions
  {
    hide Run, After, NeverTwice, StrictTotalOrder, InsertedSet, Present, Ordered;
    PoolStaysOrdered(es);
    PoolStaysOrdered(fs);
    RunMatches(es);
    RunMatches(fs);
    var s, t := After(es).transactions, After(fs).transactions;
    forall x ensures multiset(s)[x] == multiset(t)[x] {
      assert multiset(s)[x] == Present(es, x) && multiset(t)[x] == Present(fs, x);
    }
    forall x | x in Elements(s) ensures x in InsertedSet(es) {
      InPoolInserted(es, x);
    }
    SubsetOrder(Elements(s), InsertedSet(es));
    OrderedUnique(s, t);
  }

  /** The snapshot of every stream was in order. */
  lemma {:induction false} SnapshotsOrdered(es: seq<Event>, k: nat)
    requires Run(es) && NeverTwice(es) && StrictTotalOrder(InsertedSet(es)) && k in After(es).snapshots
    ensures Ordered(After(es).snapshots[k])
  {
    hide Step, Enabled, InProtocol, StrictTotalOrder, Ordered;
    if es == [] {
      NoSnapshots(k);
    } else {
      var s := After(Earlier(es));
      SubsetOrder(InsertedSet(Earlier(es)), InsertedSet(es));
      SnapshotIs(s, Last(es), k);
      if Last(es) == TakeSnapshot(k) {
        PoolStaysOrdered(Earlier(es));
      } else {
        SnapshotsOrdered(Earlier(es), k);
      }
    }
  }

  lemma NoSnapshots(k: nat)
    ensures k !in EMPTY_POOL.snapshots
  {
  }

  lemma SnapshotIs(s: State, e: Event, k: nat)
    requires Enabled(s, e) && k in Step(s, e).snapshots
    ensures if e == TakeSnapshot(k) then Step(s, e).snapshots[k] == s.transactions
            else k in s.snapshots && Step(s, e).snapshots[k] == s.snapshots[k]
  {
    hide Retained, Delivered, InsertAt, CanStand;
  }

  // ---- First come, first served -----------------------------------------

  /** Everything that was ever inserted, in order of insertion. */
  function InsertedList(es: seq<Event>): seq<PendingTx> {
    if es == [] then [] else InsertedList(Earlier(es)) + (if Last(es).Insert? then [Last(es).tx] else [])
  }

  lemma StandsAtEnd(s: seq<PendingTx>, x: PendingTx, p: nat)
    requires CanStand(s, x, p) && forall i :: 0 <= i < |s| ==> !Before(x, s[i])
    ensures p == |s| && InsertAt(s, x, p) == s + [x]
  {
    hide Before;
  }

  lemma ServedInsert(s: State, e: Event, all: seq<PendingTx>, indices: seq<nat>)
    requires e.Insert? && Enabled(s, e) && SelectedAt(s.transactions, all, indices) && NoneOvertakes(all + [e.tx])
    ensures SelectedAt(Step(s, e).transactions, all + [e.tx], indices + [|all|])
  {
    hide Before;
    forall i | 0 <= i < |s.transactions| ensures !Before(e.tx, s.transactions[i]) {
      assert s.transactions[i] == (all + [e.tx])[indices[i]] && (all + [e.tx])[|all|] == e.tx;
    }
    StandsAtEnd(s.transactions, e.tx, e.position);
    SelectedMore(s.transactions, all, indices, e.tx);
  }

  /**
    After every run in which nobody compares less than anybody inserted earlier, with removals anywhere in between, the
    pool holds what is left in the order in which it was inserted.
   */
  lemma {:induction false} FirstServedThroughRemovals(es: seq<Event>) returns (indices: seq<nat>)
    requires Run(es) && NoneOvertakes(InsertedList(es))
    ensures SelectedAt(After(es).transactions, InsertedList(es), indices)
  {
    hide Step, Enabled, InProtocol, Retained;
    if es == [] {
      indices := [];
    } else {
      var s, e, all := After(Earlier(es)), Last(es), InsertedList(Earlier(es));
      EarlierOvertakes(es);
      var before := FirstServedThroughRemovals(Earlier(es));
      if e.Insert? {
        ServedInsert(s, e, all, before);
        indices := before + [|all|];
      } else {
        OtherSteps(s, e);
        assert all + [] == all;
        indices := before;
        if e.Remove? {
          var inner := RetainedKeeps(s.transactions, e.hashes);
          indices := SelectedFrom(Retained(s.transactions, e.hashes), s.transactions, inner, all, before);
        }
      }
    }
  }

  lemma EarlierOvertakes(es: seq<Event>)
    requires es != [] && NoneOvertakes(InsertedList(es))
    ensures NoneOvertakes(InsertedList(Earlier(es)))
  {
    hide Before;
    var all, before := InsertedList(es), InsertedList(Earlier(es));
    forall i, j | 0 <= i < j < |before| ensures !Before(before[j], before[i]) {
      assert before[i] == all[i] && before[j] == all[j];
    }
  }
}
