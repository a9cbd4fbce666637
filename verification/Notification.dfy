/** The loop that sends a message on every channel of a list of senders and drops the senders of closed ones. */
module Notification {

  /** `v` without its element at `n`, whose place the last element takes. */
  function SwapRemove(v: seq<nat>, n: nat): (r: seq<nat>)
    requires n < |v|
    ensures |r| == |v| - 1
  {
    v[n := v[|v| - 1]][..|v| - 1]
  }

  lemma SwapRemoveKeeps(v: seq<nat>, n: nat)
    requires n < |v|
    ensures SwapRemove(v, n)[..n] == v[..n]
    ensures multiset(SwapRemove(v, n)[n..]) == multiset(v[n + 1..])
  {
    var r := SwapRemove(v, n);
    if n < |v| - 1 {
      var last := v[|v| - 1];
      assert v[n + 1..] == v[n + 1..|v| - 1] + [last];
      assert r[n..] == [last] + v[n + 1..|v| - 1];
    }
  }

  function AsSet(v: seq<nat>): set<nat> {
    set k | k in v
  }

  /** Every sender is listed once and has a channel. */
  ghost predicate Listed(v: seq<nat>, channels: nat) {
    forall k :: multiset(v)[k] <= if 0 <= k < channels then 1 else 0
  }

  /** `now` has exactly the senders of `before` whose channel is open. */
  ghost predicate Kept(now: seq<nat>, before: seq<nat>, open: set<nat>) {
    forall k: nat :: multiset(now)[k] == if k in open then multiset(before)[k] else 0
  }

  /** Exactly the channels of `senders` have been served, once each. */
  predicate Served<C(==)>(now: seq<C>, was: seq<C>, senders: seq<nat>, serve: C -> C) {
    |now| == |was| && forall k :: 0 <= k < |was| ==> now[k] == if k in senders then serve(was[k]) else was[k]
  }

  lemma NoneServed<C>(before: seq<nat>, was: seq<C>, open: set<nat>, serve: C -> C)
    ensures Kept(before[|before|..], before[|before|..], open) && Served(was, was, before[|before|..], serve)
  {
  }

  lemma ListedOnce(v: seq<nat>, n: nat, channels: nat)
    requires n < |v| && Listed(v, channels)
    ensures v[n] < channels && v[n] !in v[n + 1..]
  {
    assert v == v[..n] + [v[n]] + v[n + 1..];
    assert multiset(v)[v[n]] == multiset(v[..n])[v[n]] + 1 + multiset(v[n + 1..])[v[n]];
  }

  lemma ServedStep<C>(now: seq<C>, was: seq<C>, before: seq<nat>, n: nat, serve: C -> C)
    requires n < |before| && before[n] < |was| && before[n] !in before[n + 1..]
    requires Served(now, was, before[n + 1..], serve)
    ensures |now| == |was| && now[before[n]] == was[before[n]]
    ensures Served(now[before[n] := serve(was[before[n]])], was, before[n..], serve)
  {
    assert before[n..] == [before[n]] + before[n + 1..];
  }

  lemma KeptStep(v: seq<nat>, before: seq<nat>, n: nat, open: set<nat>)
    requires n < |v| && n < |before| && v[..n + 1] == before[..n + 1]
    requires Kept(v[n + 1..], before[n + 1..], open)
    ensures v[n] == before[n]
    ensures var r := SwapRemove(v, n);
            && n <= |r| && r[..n] == before[..n] && (r + [v[n]])[..n] == before[..n]
            && (v[n] in open ==> Kept((r + [v[n]])[n..], before[n..], open))
            && (v[n] !in open ==> Kept(r[n..], before[n..], open))
  {
    hide SwapRemove;
    var r, x := SwapRemove(v, n), v[n];
    SwapRemoveKeeps(v, n);
    assert v[..n + 1][n] == before[..n + 1][n];
    assert v[..n] == v[..n + 1][..n] && before[..n] == before[..n + 1][..n];
    assert before[n..] == [x] + before[n + 1..];
    assert (r + [x])[n..] == r[n..] + [x];
    assert (r + [x])[..n] == r[..n];
  }

  /** After the loop exactly the open channels are left, and each sender's channel has been served. */
  lemma AllServed<C>(now: seq<nat>, channels: seq<C>, before: seq<nat>, was: seq<C>, open: set<nat>, serve: C -> C)
    requires Kept(now[0..], before[0..], open) && Served(channels, was, before[0..], serve)
    requires Listed(before, |was|)
    ensures Kept(now, before, open) && Listed(now, |channels|) && Served(channels, was, before, serve)
    ensures AsSet(now) == AsSet(before) * open
  {
    assert now[0..] == now && before[0..] == before;
    forall k: nat ensures k in now <==> k in before && k in open {
      assert k in now <==> multiset(now)[k] > 0;
      assert k in before <==> multiset(before)[k] > 0;
    }
  }
}
