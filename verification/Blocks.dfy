/** Transactions, execution outcomes, blocks and the block store. */
module Blocks {
  import opened Sequences
  import opened StateDiff

  datatype Transaction = Transaction(hash: nat, payload: nat)

  /** `events` is the number of events the transaction emitted. */
  datatype Receipt = Receipt(kind: nat, events: nat)

  datatype Execution = Success(receipt: Receipt, trace: nat) | Failed(error: nat)

  datatype Executed = Executed(tx: Transaction, outcome: Execution)

  datatype TypedTrace = TypedTrace(kind: nat, trace: nat)

  datatype HashedReceipt = HashedReceipt(txHash: nat, receipt: Receipt)

  datatype BlockEnv = BlockEnv(number: nat, timestamp: nat, sequencer: nat, prices: nat)

  datatype Output = Output(transactions: seq<Executed>, updates: StateUpdates)

  datatype Header = Header(
    env: BlockEnv, parentHash: nat,
    transactionCount: nat, eventsCount: nat, stateDiffLength: nat, roots: nat)

  datatype Block = Block(hash: nat, header: Header, body: seq<Transaction>, receipts: seq<Receipt>, traces: seq<TypedTrace>)

  /** The hash functions, left uninterpreted. */
  datatype Crypto = Crypto(
    roots: (map<nat, map<nat, nat>>, seq<Transaction>, seq<HashedReceipt>, StateUpdates) -> nat,
    hash: Header -> nat)

  /** Blocks by number, and the storage of every contract. */
  datatype Store = Store(blocks: map<nat, Block>, storage: map<nat, map<nat, nat>>)

  // ---- Successful executions --------------------------------------------

  /** The entry, if it succeeded. */
  function Kept(e: Executed): seq<Executed> {
    if e.outcome.Success? then [e] else []
  }

  /** The successful entries, in execution order. */
  function Successes(es: seq<Executed>): seq<Executed> {
    if es == [] then [] else Kept(es[0]) + Successes(es[1..])
  }

  predicate AllSucceeded(es: seq<Executed>) {
    forall i :: 0 <= i < |es| ==> es[i].outcome.Success?
  }

  lemma {:induction false} SuccessesSucceeded(es: seq<Executed>)
    ensures AllSucceeded(Successes(es))
  {
    if es != [] { SuccessesSucceeded(es[1..]); }
  }

  lemma NothingSucceeded()
    ensures Successes([]) == []
  {
  }

  lemma {:induction false} SuccessesConcat(a: seq<Executed>, b: seq<Executed>)
    ensures Successes(a + b) == Successes(a) + Successes(b)
  {
    if a == [] {
      assert a + b == b;
    } else {
      hide *;
      SuccessesConcat(a[1..], b);
      assert (a + b)[1..] == a[1..] + b;
      SuccessesUnfold(a);
      SuccessesUnfold(a + b);
      Associates(Kept(a[0]), Successes(a[1..]), Successes(b));
    }
  }

  lemma SuccessesUnfold(es: seq<Executed>)
    requires es != []
    ensures Successes(es) == Kept(es[0]) + Successes(es[1..])
  {
  }

  /** The transactions of a list of entries. */
  function Transactions(es: seq<Executed>): (r: seq<Transaction>)
    ensures |r| == |es|
    ensures forall i :: 0 <= i < |es| ==> r[i] == es[i].tx
  {
    if es == [] then [] else [es[0].tx] + Transactions(es[1..])
  }

  /** What a stored block says was executed, entry by entry. */
  function BlockEntries(b: Block): (r: seq<Executed>)
    requires |b.body| == |b.receipts| == |b.traces|
    ensures |r| == |b.body|
  {
    seq(|b.body|, i requires 0 <= i < |b.body| => Executed(b.body[i], Success(b.receipts[i], b.traces[i].trace)))
  }

  /** Transactions, receipts and traces line up. */
  predicate Aligned(b: Block) {
    && |b.body| == |b.receipts| == |b.traces|
    && forall i :: 0 <= i < |b.body| ==> b.traces[i].kind == b.receipts[i].kind
  }
}
