/** The instant block producer: its polling code is a run of the transition system. */
module InstantProducer {
  import opened Backend
  import opened Batches
  import opened Blocks
  import opened Instant
  import opened MinedBlocks
  import opened Outcomes
  import opened StateDiff

  predicate Reaches(c: Crypto, s: State, es: seq<Event>, t: State) {
    Possible(c, s, es) && After(c, s, es) == t
  }

  lemma ReachesNothing(c: Crypto, s: State)
    ensures Reaches(c, s, [], s)
  {
  }

  lemma {:induction false} ReachesConcat(c: Crypto, s: State, es: seq<Event>, t: State, fs: seq<Event>, u: State)
    requires Reaches(c, s, es, t) && Reaches(c, t, fs, u)
    ensures Reaches(c, s, es + fs, u)
    decreases |es|
  {
    hide Step, Enabled;
    if es == [] {
      assert es + fs == fs;
    } else {
      ReachesConcat(c, Step(c, s, es[0]), es[1..], t, fs, u);
      assert (es + fs)[1..] == es[1..] + fs;
    }
  }

  lemma ReachesStep(c: Crypto, s: State, es: seq<Event>, t: State, e: Event)
    requires Reaches(c, s, es, t) && Enabled(t, e)
    ensures Reaches(c, s, es + [e], Step(c, t, e))
  {
    hide Step, Enabled;
    var u := Step(c, t, e);
    assert [e][1..] == [];
    assert Possible(c, u, []) && Possible(c, t, [e]);
    assert After(c, t, [e]) == u;
    ReachesConcat(c, s, es, t, [e], u);
  }

  /** A step of the mining task on the blocking pool. */
  datatype TaskStep = TakePermit | ExecuteAndMine(outcomes: seq<Execution>, updates: StateUpdates, now: nat, prices: nat) | UpdateValidator

  predicate OfTask(e: Event) {
    e.Lock? || e.Commit? || e.Release?
  }

  class InstantBlockProducer {
    const backend: Backend
    var queued: seq<seq<Transaction>>
    var blockMining: Option<MiningTask>
    var permitFree: bool
    var view: nat

    constructor (backend: Backend, now: nat, prices: nat)
      requires backend.blocks != map[]
      modifies backend`nextBlockStartTime, backend`timestampOffset
      ensures this.backend == backend && Valid() && backend.Contents() == old(backend.Contents())
      ensures forall g, n :: Chain(backend.crypto, backend.Contents(), g, n) ==>
                Initial(backend.crypto, Snapshot(), g, n)
    {
      hide PointsBack, WellFormed;
      this.backend := backend;
      queued, blockMining, permitFree := [], None, true;
      var latest := Latest(backend.Contents());
      var _ := backend.UpdateBlockEnv(backend.blocks[latest].header.env, now, prices);
      view := latest;
      new;
      forall g, n | Chain(backend.crypto, backend.Contents(), g, n)
        ensures Initial(backend.crypto, Snapshot(), g, n)
      {
        ChainLatest(backend.Contents(), g, n);
      }
    }

    function Snapshot(): State
      reads this, backend
    {
      State(queued, blockMining, permitFree, view, backend.Contents())
    }

    predicate Valid()
      reads this, backend
    {
      backend.blocks != map[]
    }

    method Queue(batch: seq<Transaction>)
      requires Valid()
      modifies this`queued
      ensures Valid() && Snapshot() == Step(backend.crypto, old(Snapshot()), Event.Queue(batch))
    {
      queued := queued + [batch];
    }

    /** Executes the batches on the latest state and mines whatever was executed; the rest is dropped. */
    method ExecuteAndMine(batches: seq<seq<Transaction>>, outcomes: seq<Execution>, updates: StateUpdates, now: nat, prices: nat)
      returns (outcome: Outcome, timestamp: nat)
      requires Valid() && |outcomes| <= |Flatten(batches)|
      modifies backend
      ensures Valid()
      ensures var work := Work(outcomes, updates, timestamp, prices);
              && backend.Contents() == Produced(backend.crypto, old(backend.Contents()), Flatten(batches), work)
              && outcome == OutcomeOf(old(backend.Contents()), Flatten(batches), work)
    {
      hide Mined, Latest, Flatten, ExecutedPrefix, Successes, Transactions, TxHashes;
      var transactions := Flatten(batches);
      var latest := Latest(backend.Contents());
      var env := backend.UpdateBlockEnv(backend.blocks[latest].header.env, now, prices);
      timestamp := env.timestamp;
      ProducedNotEmpty(backend.crypto, backend.Contents(), transactions, Work(outcomes, updates, timestamp, prices));
      var r := backend.DoMineBlock(env, Output(ExecutedPrefix(transactions, outcomes), updates));
      outcome := r.value;
    }

    /** Mines the queue at once, unless a block is being mined. */
    method ForceMine(outcomes: seq<Execution>, updates: StateUpdates, now: nat, prices: nat)
      returns (ghost work: Work)
      requires Valid() && (blockMining.None? ==> permitFree && |outcomes| <= |Flatten(queued)|)
      modifies this`queued, this`view, this`permitFree, backend
      ensures Valid() && Enabled(old(Snapshot()), Event.ForceMine(work))
      ensures Snapshot() == Step(backend.crypto, old(Snapshot()), Event.ForceMine(work))
    {
      hide Produced, OutcomeOf, Latest, Flatten;
      work := Work(outcomes, updates, 0, prices);
      if blockMining.None? {
        var batches := queued;
        queued := [];
        permitFree := false;
        var _, timestamp := ExecuteAndMine(batches, outcomes, updates, now, prices);
        view := Latest(backend.Contents());
        permitFree := true;
        work := Work(outcomes, updates, timestamp, prices);
      }
    }

    /** One step of the mining task, if it can be taken now. */
    method RunTask(step: TaskStep) returns (ghost ran: seq<Event>)
      requires Valid()
      modifies this`blockMining, this`permitFree, this`view, backend
      ensures Valid() && Reaches(backend.crypto, old(Snapshot()), ran, Snapshot())
      ensures forall i :: 0 <= i < |ran| ==> OfTask(ran[i])
      ensures blockMining.Some? == old(blockMining).Some?
    {
      hide Reaches, Produced, OutcomeOf, Latest, Flatten;
      ran := [];
      ReachesNothing(backend.crypto, Snapshot());
      if blockMining.Some? {
        var task := blockMining.value;
        match step
        case TakePermit =>
          if task.stage.Waiting? && permitFree {
            ran := [Lock];
            permitFree := false;
            blockMining := Some(task.(stage := Holding));
            StepReaches(backend.crypto, old(Snapshot()), Lock);
          }
        case ExecuteAndMine(outcomes, updates, now, prices) =>
          if task.stage.Holding? && |outcomes| <= |Flatten(task.batches)| {
            var outcome, timestamp := ExecuteAndMine(task.batches, outcomes, updates, now, prices);
            blockMining := Some(task.(stage := Sealed(outcome)));
            ghost var e := Commit(Work(outcomes, updates, timestamp, prices));
            ran := [e];
            StepReaches(backend.crypto, old(Snapshot()), e);
          }
        case UpdateValidator =>
          if task.stage.Sealed? {
            view := Latest(backend.Contents());
            permitFree := true;
            blockMining := Some(task.(stage := Done(task.stage.outcome)));
            ran := [Release];
            StepReaches(backend.crypto, old(Snapshot()), Release);
          }
      }
    }

    method RunTasks(steps: seq<TaskStep>) returns (ghost ran: seq<Event>)
      requires Valid()
      modifies this`blockMining, this`permitFree, this`view, backend
      ensures Valid() && Reaches(backend.crypto, old(Snapshot()), ran, Snapshot())
      ensures forall i :: 0 <= i < |ran| ==> OfTask(ran[i])
      ensures blockMining.Some? == old(blockMining).Some?
    {
      hide Reaches;
      ran := [];
      ReachesNothing(backend.crypto, Snapshot());
      for i := 0 to |steps|
        invariant Valid() && Reaches(backend.crypto, old(Snapshot()), ran, Snapshot())
        invariant forall j :: 0 <= j < |ran| ==> OfTask(ran[j])
        invariant blockMining.Some? == old(blockMining).Some?
      {
        ghost var before := Snapshot();
        ghost var more := RunTask(steps[i]);
        ReachesConcat(backend.crypto, old(Snapshot()), ran, before, more, Snapshot());
        ran := ran + more;
      }
    }

    /** Starts mining whatever is queued, unless a block is being mined, and returns the outcome of a block that is done. */
    method PollNext(steps: seq<TaskStep>, observed: bool) returns (r: Option<Outcome>, ghost trace: seq<Event>)
      requires Valid()
      modifies this, backend
      ensures Valid() && Reaches(backend.crypto, old(Snapshot()), trace, Snapshot())
      ensures old(queued) != [] && old(blockMining).None? ==> trace != [] && trace[0] == Start
      ensures forall i :: 0 <= i < |trace| ==> OfTask(trace[i]) || trace[i].Start? || trace[i].Finish?
      ensures r.Some? <==> trace != [] && trace[|trace| - 1].Finish?
      ensures r.None? ==> queued == [] || blockMining.Some?
      ensures r.None? && observed ==> !(blockMining.Some? && blockMining.value.stage.Done?)
    {
      hide Reaches, Step, Latest, Flatten;
      trace := [];
      ReachesNothing(backend.crypto, Snapshot());
      if queued != [] && blockMining.None? {
        StartMining();
        trace := [Start];
        StepReaches(backend.crypto, old(Snapshot()), Start);
      }
      ghost var started := Snapshot();
      ghost var ran := RunTasks(steps);
      ReachesConcat(backend.crypto, old(Snapshot()), trace, started, ran, Snapshot());
      trace := trace + ran;
      r := None;
      if observed && blockMining.Some? && blockMining.value.stage.Done? {
        ghost var before := Snapshot();
        r := FinishMining();
        StepReaches(backend.crypto, before, Finish);
        ReachesConcat(backend.crypto, old(Snapshot()), trace, before, [Finish], Snapshot());
        trace := trace + [Finish];
      }
    }

    method StartMining()
      requires Valid() && queued != [] && blockMining.None?
      modifies this`queued, this`blockMining
      ensures Valid() && Snapshot() == Step(backend.crypto, old(Snapshot()), Start)
      ensures queued == [] && blockMining.Some?
    {
      var transactions := queued;
      queued := [];
      blockMining := Some(MiningTask(transactions, Waiting));
    }

    method FinishMining() returns (r: Option<Outcome>)
      requires Valid() && blockMining.Some? && blockMining.value.stage.Done?
      modifies this`blockMining
      ensures Valid() && Snapshot() == Step(backend.crypto, old(Snapshot()), Finish)
      ensures r == Some(old(blockMining).value.stage.outcome)
    {
      r := Some(blockMining.value.stage.outcome);
      blockMining := None;
    }
  }

  lemma StepReaches(c: Crypto, s: State, e: Event)
    requires Enabled(s, e)
    ensures Reaches(c, s, [e], Step(c, s, e))
  {
    hide Step, Enabled, Reaches;
    ReachesNothing(c, s);
    ReachesStep(c, s, [], s, e);
    assert [] + [e] == [e];
  }
}
