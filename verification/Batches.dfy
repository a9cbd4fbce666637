/** Batches of transactions: flattening a queue, and executing a prefix of a batch. */
module Batches {
  import opened Blocks

  function Flatten<T>(s: seq<seq<T>>): seq<T> {
    if s == [] then [] else s[0] + Flatten(s[1..])
  }

  function ExecutedPrefix(txs: seq<Transaction>, outcomes: seq<Execution>): (r: seq<Executed>)
    requires |outcomes| <= |txs|
    ensures |r| == |outcomes|
    ensures forall i :: 0 <= i < |outcomes| ==> r[i] == Executed(txs[i], outcomes[i])
    decreases |outcomes|
  {
    if outcomes == [] then [] else [Executed(txs[0], outcomes[0])] + ExecutedPrefix(txs[1..], outcomes[1..])
  }

  lemma {:induction false} FlattenAppend<T>(s: seq<seq<T>>, t: seq<T>)
    ensures Flatten(s + [t]) == Flatten(s) + t
  {
    if s == [] {
      assert s + [t] == [t];
      assert Flatten([t]) == t + Flatten([t][1..]) == t;
    } else {
      assert (s + [t])[1..] == s[1..] + [t];
      FlattenAppend(s[1..], t);
    }
  }

  lemma FlattenPush<T>(s: seq<seq<T>>, t: seq<T>)
    ensures Flatten([t] + s) == t + Flatten(s)
  {
    assert ([t] + s)[1..] == s;
  }

  lemma PrefixTransactions(txs: seq<Transaction>, outcomes: seq<Execution>)
    requires |outcomes| <= |txs|
    ensures Transactions(ExecutedPrefix(txs, outcomes)) == txs[..|outcomes|]
  {
    hide *;
  }

  lemma TransactionsConcat(a: seq<Executed>, b: seq<Executed>)
    ensures Transactions(a + b) == Transactions(a) + Transactions(b)
  {
  }

  lemma SplitAppend<T>(a: seq<T>, b: seq<T>, k: nat)
    requires k <= |b|
    ensures a + b[..k] + b[k..] == a + b
    ensures k == |b| ==> a + b[..k] + [] == a + b
  {
  }
}
