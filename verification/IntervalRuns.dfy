/** Runs of the interval producer, put together and taken apart. */
module IntervalRuns {
  import opened Backend
  import opened Batches
  import opened Blocks
  import opened Interval
  import opened IntervalSafety
  import opened Outcomes

  // ---- Runs as relations ------------------------------------------------

  /** `es` is a guarded run from `s` to `t`. */
  predicate Reaches(c: Crypto, s: State, es: seq<Event>, t: State) {
    Possible(c, s, es) && Guarded(c, s, es) && After(c, s, es) == t
  }

  lemma ReachesNothing(c: Crypto, s: State)
    ensures Reaches(c, s, [], s)
  {
  }

  lemma {:induction false} ReachesConcat(c: Crypto, s: State, es: seq<Event>, t: State, fs: seq<Event>, u: State)
    requires Reaches(c, s, es, t) && Reaches(c, t, fs, u)
    ensures Reaches(c, s, es + fs, u)
    decreases |es|
  {
    hide Step, Enabled, Sane, LockOrder, NoOverlap;
    if es == [] {
      assert es + fs == fs;
    } else {
      ReachesConcat(c, Step(c, s, es[0]), es[1..], t, fs, u);
      assert (es + fs)[1..] == es[1..] + fs;
    }
  }

  lemma ReachesStep(c: Crypto, s: State, es: seq<Event>, t: State, e: Event)
    requires Reaches(c, s, es, t) && Allowed(t, e)
    ensures Reaches(c, s, es + [e], Step(c, t, e))
  {
    hide Step, Enabled, Sane, LockOrder, NoOverlap;
    var u := Step(c, t, e);
    assert [e][1..] == [];
    assert Possible(c, u, []) && Possible(c, t, [e]);
    assert Guarded(c, t, [e]) && After(c, t, [e]) == u;
    ReachesConcat(c, s, es, t, [e], u);
  }

  lemma StepReaches(c: Crypto, s: State, e: Event)
    requires Allowed(s, e)
    ensures Reaches(c, s, [e], Step(c, s, e))
  {
    hide Step, Enabled, Sane, LockOrder, NoOverlap, Reaches;
    ReachesNothing(c, s);
    ReachesStep(c, s, [], s, e);
    assert [] + [e] == [e];
  }

  /** Runs follow one another, guarded or not. */
  lemma {:induction false} RunConcat(c: Crypto, s: State, log: Log, es: seq<Event>, fs: seq<Event>)
    requires Possible(c, s, es) && Possible(c, After(c, s, es), fs)
    ensures Possible(c, s, es + fs) && After(c, s, es + fs) == After(c, After(c, s, es), fs)
    ensures LogAfter(c, s, log, es + fs) == LogAfter(c, After(c, s, es), LogAfter(c, s, log, es), fs)
    decreases |es|
  {
    hide Step, Enabled, Sane, Logged;
    if es == [] {
      assert es + fs == fs;
    } else {
      RunConcat(c, Step(c, s, es[0]), Logged(s, log, es[0]), es[1..], fs);
      assert (es + fs)[1..] == es[1..] + fs;
    }
  }

  // ---- Finished blocks --------------------------------------------------

  /** The outcomes of the blocks whose mining the run finishes. */
  function FinishedOutcomes(c: Crypto, s: State, es: seq<Event>): seq<Outcome>
    requires Possible(c, s, es)
    decreases |es|
  {
    if es == [] then []
    else Finishes(s, es[0]) + FinishedOutcomes(c, Step(c, s, es[0]), es[1..])
  }

  function Finishes(s: State, e: Event): seq<Outcome>
    requires Enabled(s, e)
  {
    if e.FinishMining? then [s.mining.value.stage.outcome] else []
  }

  lemma {:induction false} OutcomesConcat(c: Crypto, s: State, es: seq<Event>, t: State, fs: seq<Event>, u: State)
    requires Reaches(c, s, es, t) && Reaches(c, t, fs, u)
    ensures Reaches(c, s, es + fs, u)
    ensures FinishedOutcomes(c, s, es + fs) == FinishedOutcomes(c, s, es) + FinishedOutcomes(c, t, fs)
    decreases |es|
  {
    hide Step, Enabled, Sane, LockOrder, NoOverlap, Finishes;
    ReachesConcat(c, s, es, t, fs, u);
    if es == [] {
      assert es + fs == fs;
    } else {
      OutcomesConcat(c, Step(c, s, es[0]), es[1..], t, fs, u);
      assert (es + fs)[1..] == es[1..] + fs;
    }
  }

  lemma {:induction false} NoOutcomes(c: Crypto, s: State, es: seq<Event>)
    requires Possible(c, s, es) && forall i :: 0 <= i < |es| ==> !es[i].FinishMining?
    ensures FinishedOutcomes(c, s, es) == []
    decreases |es|
  {
    hide Step, Enabled, Sane;
    if es != [] { NoOutcomes(c, Step(c, s, es[0]), es[1..]); }
  }

  lemma NoneFinished(c: Crypto, s: State, es: seq<Event>, t: State)
    requires Reaches(c, s, es, t) && forall i :: 0 <= i < |es| ==> !es[i].FinishMining?
    ensures Possible(c, s, es) && FinishedOutcomes(c, s, es) == []
  {
    NoOutcomes(c, s, es);
  }

  /** Only the last part of a run finishes blocks. */
  lemma FinishedLater(c: Crypto, s: State, es: seq<Event>, t: State, fs: seq<Event>, u: State)
    requires Reaches(c, s, es, t) && (forall i :: 0 <= i < |es| ==> !es[i].FinishMining?)
    requires Reaches(c, t, fs, u)
    ensures Reaches(c, s, es + fs, u) && Possible(c, s, es + fs) && Possible(c, t, fs)
    ensures FinishedOutcomes(c, s, es + fs) == FinishedOutcomes(c, t, fs)
  {
    hide FinishedOutcomes;
    NoOutcomes(c, s, es);
    OutcomesConcat(c, s, es, t, fs, u);
    assert [] + FinishedOutcomes(c, t, fs) == FinishedOutcomes(c, t, fs);
  }

  lemma OneFinished(c: Crypto, s: State, es: seq<Event>, t: State, e: Event)
    requires Reaches(c, s, es, t) && Allowed(t, e) && e.FinishMining?
    requires Possible(c, s, es) && FinishedOutcomes(c, s, es) == []
    ensures Reaches(c, s, es + [e], Step(c, t, e)) && Possible(c, s, es + [e])
    ensures FinishedOutcomes(c, s, es + [e]) == [t.mining.value.stage.outcome]
  {
    hide Step, Sane, LockOrder, NoOverlap;
    var u := Step(c, t, e);
    StepReaches(c, t, e);
    OutcomesConcat(c, s, es, t, [e], u);
    assert [e][1..] == [];
    assert FinishedOutcomes(c, u, []) == [];
    assert FinishedOutcomes(c, t, [e]) == Finishes(t, e) + FinishedOutcomes(c, u, []);
  }

  // ---- The first batch of a new producer --------------------------------

  lemma InitialControl(c: Crypto, s: State, g: nat, n: nat)
    requires Initial(c, s, g, n)
    ensures Control(s)
  {
    hide PointsBack, WellFormed;
  }

  function StartedRun(batch: seq<Transaction>): seq<Event> {
    [Queue(batch), StartExecution]
  }

  function StartedState(s: State, batch: seq<Transaction>): State {
    s.(execution := Some(ExecutionTask(s.executor, batch, None)), timer := s.blockTime.Some?)
  }

  lemma FlattenOne<T>(batch: seq<T>)
    ensures Flatten([batch]) == batch
  {
    assert [batch][1..] == [];
    assert batch + [] == batch;
  }

  /** The first batch of a new producer has been handed to a task. */
  lemma StartReached(c: Crypto, s: State, g: nat, n: nat, batch: seq<Transaction>)
    requires Initial(c, s, g, n)
    ensures Reaches(c, s, StartedRun(batch), StartedState(s, batch))
  {
    hide Chain, Flatten, Reaches;
    InitialControl(c, s, g, n);
    var t := Step(c, s, Queue(batch));
    FlattenOne(batch);
    assert s.queued + [batch] == [batch];
    StepReaches(c, s, Queue(batch));
    ReachesStep(c, s, [Queue(batch)], t, StartExecution);
    assert [Queue(batch)] + [StartExecution] == StartedRun(batch);
  }
}
