# Katana: a verified model

Katana is a Starknet sequencer. This project models its stateful core in Dafny and proves what that core is for,
over every input and every run.

- **Data availability** (`NumberTheory`, `Fourier`, `FourierInverse`, `Bits`, `BlsCertificate`, `RootCertificate`,
  `Blob`, `MetadataWord`, `Encoding`, `Layout`, `DecodeErrors`, `Codec`, `DataAvailability`). A state diff is packed
  into words, evaluated as a polynomial at bit-reversed roots of unity, and recovered by a radix-2 interpolation with
  Fermat inverses. Publishing and recovering a diff gives its normal form, and every word has the one place it can
  have. What the transform needs of the EIP-4844 parameters is proved of the actual numbers, by computation; Fermat's
  little theorem is proved from primality where a prime is assumed. The normal form is what the encoding keeps: it
  drops replaced and deprecated classes, zero nonces and empty storage maps.
- **State-diff commitment** (`StateDiff`, `StateDiffHash`, `Layout`, `Text`). The hashed list is uniquely parseable up
  to the border between deployments and replacements.
- **Block production** (`Blocks`, `Batches`, `Backend`, `BlockCommitments`, `MinedBlocks`, `MinedAccount`,
  `Interval*`, `Instant*`). The two producers are classes whose polls are shown to be runs of a transition system in
  which the producer's steps, the tasks on the blocking pool and the pool validator interleave freely. Over all
  instant runs, and all interval runs that keep the two guards below, the chain stays linked, every header commits to
  the one diff of its block, the block hash registry stays exact, and the validator never sees a state between a
  commit and the swap that follows. In interval mode no success is lost if the guards hold, and otherwise if and only
  if no overtaken execution and no overwritten block held one; in instant mode nothing is lost if and only if every
  executor has room for its batch.
- **Transaction pool** (`PoolOrder`, `PoolServing`, `PoolRuns`, `PoolOrderRuns`, `Notification`, `Pool`, `Streams`,
  `Service`, `MinedPool`, `Validator`, `Admission`). The comparator, the ordered set and the order in which it serves
  through additions and removals, the notification loop, the snapshot-then-subscribe streams and what they yield, the
  service that feeds the producer, the nonces the validator tracks, exactly when the pool serves in order of
  acceptance, and what it still holds of what was mined.
- **Settlement messages** (`Messaging`, `MessageDelivery`, `MessageAdmission`). Every message of the gathered blocks
  is delivered once and in order, and which of them the validator accepts is determined.
- **Genesis transactions** (`Genesis`, `GenesisLedger`). The built list replays on a ledger that checks it.

## How the model is set up

Words, felts, hashes and addresses are natural numbers; widths are written out where they matter (`u64` counters, `u32`
header counts, the Stark prime). B-tree maps and sets are finite maps enumerated in ascending order, except the pool's
set, whose comparator never says equal: it is a list, and insertion is any place whose two neighbours the search has
compared. Hash functions, contract addresses and account validation are function parameters. The executor is abstract:
it runs a prefix of a batch, and all of it unless it reports a full block. Executors, which the code shares by
reference, are indices into a list of executors. The clock, timer ticks, what the blocking pool does during a poll and
whether a finished task is seen yet are inputs.

Interval runs are restricted by two guards. An execution spawned before a block is taken gets the executor lock first,
which nothing in the code enforces. A block is forced only while no mining is in flight, as the method's comment says.
`IntervalRaces` shows what happens without either, and `IntervalLosses` when exactly, over all runs. A run ends at the
first error.

## Where code and comments differ

- `crates/pool/src/validation/stateful.rs:151-159`: validation is meant to be skipped for an invocation sent together
  with its account's deployment; that branch is unreachable (`Validator.NeverSkipped`).
- `crates/pool/src/ordering.rs:19`: the default ordering is called first come, first serve. It is so for one addition after
  the other if and only if no sender's accepted nonces fall (`Admission.AdmissionServedIff`, `Admission.StaleOvertakes`),
  and for additions that overlap exactly as `Admission.OverlappingServedIff` says.
- `crates/messaging/src/service.rs:72-79`: a gathered message is said to be always valid; it is refused when its nonce is
  ahead of its target's (`Validator.MessageLost`); `MessageAdmission.DeliveredAcceptedIff` says when none is, over a run.
- `crates/core/src/service/block_producer.rs:235-238`: the timer is said to run only once the open block has executed a
  transaction. It starts with the batch, before any of it is executed, so with a block time the sentence holds in every
  state only as long as no execution is started (`IntervalTimer.TimerEarnedIff`, `TimerBeforeFirstOutcome`). Read as
  "executed or about to be executed", it is broken exactly by a block forced while the timer runs and by an execution
  that leaves an empty block empty while it runs (`IntervalTimer.TimerBackedIff`, `TimerOutlivesForcedBlock`,
  `TimerAfterEmptyExecution`).
- `crates/core/src/service/block_producer.rs:192-195`: an instant block is said to hold all the transactions at hand; what
  does not fit is dropped without an error (`InstantSafety.LosslessWhenNeverFull`,
  `InstantSafety.TransactionDropped`).
- `crates/core/src/service/mod.rs:81-82`: mined transactions are said to be removed from the pool; those of a forced block
  are not (`MinedPool.PoolForgetsMinedIff`, `MinedPool.ForcedStillThere`).
- `crates/chain-spec/src/rollup/utils.rs:92-101`: declaring a class again is said to need nothing, but it uses up a nonce
  (`GenesisLedger.GenesisReplaysIff`, `GenesisLedger.SharedClassRefused`). It cannot happen in `build`, whose classes
  are constants read from different files.
- `crates/primitives/src/da/math.rs:35-70`: the interpolation is documented for any vector; it returns only for lengths
  2^k and 2^k + 1 (`Fourier.IfftReturnsIff`, `Fourier.IfftOfNothing`, `Fourier.IfftOfSix`), and drops the last word of
  the latter (`Blob.RecoverTransformExactly`).

## Model

| member | source | states |
|---|---|---|
| `NumberTheory.Fermat` | crates/primitives/src/da/math.rs:83-85 | Fermat's little theorem, the reason division works: for every prime p, b^(p-1) leaves remainder one exactly when p does not divide b |
| `NumberTheory.DivModTimes` | crates/primitives/src/da/math.rs:83-85 | `div_mod(a, b, p) * b` is congruent to `a` for every invertible b, reduced or not |
| `NumberTheory.DivModIs` | crates/primitives/src/da/math.rs:83-85 | the quotient is the only reduced number with that property |
| `NumberTheory.DivModPrime` | crates/primitives/src/da/math.rs:83-85 | for a prime p, division by b inverts multiplication for all numerators exactly when p does not divide b |
| `Fourier.Fft` | crates/primitives/src/da/math.rs:8-22 | the nested Horner loops compute the value of the polynomial at each of the first n points |
| `Fourier.Ifft` | crates/primitives/src/da/math.rs:35-70 | on every argument the recursion gives the specified result, or fails where the code indexes past a list, underflows or never ends |
| `Fourier.IfftReturnsIff` | crates/primitives/src/da/math.rs:35-70 | it returns if and only if the length is 2^k or 2^k + 1, there are enough points and no subtraction underflows; then it returns the interpolation |
| `Fourier.IfftOfNothing` | crates/primitives/src/da/math.rs:35-70 | on the empty list it never ends |
| `Fourier.IfftOfSix` | crates/primitives/src/da/math.rs:64-69 | on six values it merges past the end of a recursive result, whatever they are |
| `Fourier.TryFoldIs` | crates/primitives/src/da/math.rs:46-58 | the loop over the pairs completes if and only if the points suffice and no difference is too large; then it gives half sums, quotients and squares |
| `Fourier.FoldPairs` | crates/primitives/src/da/math.rs:41-58 | one pass over the pairs gives the half sums, the quotients of the half differences and the squared points, or fails at the pair where the code does |
| `Fourier.Interleave` | crates/primitives/src/da/math.rs:64-69 | the first n values of the two recursive results are merged alternately, or one of them is too short |
| `FourierInverse.FoldValues` | crates/primitives/src/da/math.rs:46-57 | folding the values of a polynomial gives the values of its even and odd parts at the squared points |
| `FourierInverse.UnfoldValues` | crates/primitives/src/da/math.rs:46-69 | conversely, merging two parts with those values gives a polynomial with the original values |
| `FourierInverse.RecoverCoefficients` | crates/primitives/src/da/math.rs:8-70 | `ifft(fft(e)) = e` on points that fold |
| `FourierInverse.RecoverValues` | crates/primitives/src/da/math.rs:8-70 | `fft(ifft(a)) = a` on points that fold |
| `FourierInverse.TransformsInverse` | crates/primitives/src/da/math.rs:8-70 | both inverse laws for every odd prime, every k and every list of 2^k nonzero points that are pairwise negatives at every squaring level |
| `Bits.ParseReversed` | crates/primitives/src/da/blob.rs:22-24 | printing an index in twelve binary digits, reversing and parsing gives the bit reversal |
| `Blob.PowersAreOpposites` | crates/primitives/src/da/blob.rs:20-26 | bit-reversed powers of a root with w^(2^(k-1)) = -1 are neighbouring negatives |
| `Blob.SquaredPowers` | crates/primitives/src/da/math.rs:46-57 | their even-indexed squares are the bit-reversed powers of the squared root for k - 1 |
| `Blob.PowersFold` | crates/primitives/src/da/blob.rs:20-26 | so they fold through the whole recursion |
| `BlsCertificate.TwoIsUnit` | crates/primitives/src/da/eip4844.rs:16-20 | 2 is invertible modulo the EIP-4844 modulus, by a computed power chain |
| `BlsCertificate.GeneratorHalfTurn` | crates/primitives/src/da/eip4844.rs:21-24 | the generator to the power 2048 is -1 modulo the modulus, by a computed power chain |
| `RootCertificate.GeneratorIsRoot` | crates/primitives/src/da/eip4844.rs:21-24 | the generator is seven to the power (p - 1) / 4096 modulo the modulus p, by a computed power chain |
| `Blob.PointIs` | crates/primitives/src/da/blob.rs:20-26 | the i-th evaluation point is the generator to the bit reversal of i |
| `Blob.FirstPointsFold` | crates/primitives/src/da/blob.rs:20-28 | every power-of-two prefix of the 4096 points folds |
| `Blob.Transform` | crates/primitives/src/da/blob.rs:31-41 | `transform` evaluates the data at the blob's points |
| `Blob.Recover` | crates/primitives/src/da/blob.rs:19-29 | `recover` interpolates the data at the blob's points, or fails with the interpolation |
| `Blob.RecoverTransform` | crates/primitives/src/da/blob.rs:19-41 | `recover(transform(d)) = d` for reduced data of power-of-two length, with no hypothesis left |
| `Blob.TransformRecover` | crates/primitives/src/da/blob.rs:19-41 | `transform(recover(v)) = v` likewise |
| `Blob.RecoverReturnsIff` | crates/primitives/src/da/blob.rs:19-29 | `recover` returns exactly for lengths 2^k and 2^k + 1 up to one past the blob's 4096, with neighbours that do not underflow |
| `Blob.RecoverTransformExactly` | crates/primitives/src/da/blob.rs:19-41 | for all data of at most 4096 words, the round trip gives the data back if and only if the length is a power of two and every word is reduced |
| `MetadataWord.EncodeMetadataIs` | crates/primitives/src/da/encoding.rs:242-256 | the ORed and shifted metadata word is flag * 2^128 + nonce * 2^64 + count |
| `MetadataWord.MetadataRoundTrip` | crates/primitives/src/da/encoding.rs:223-256 | unpacking the word by binary digit slices gives back the three fields, a zero nonce becoming absent |
| `Codec.CollectUpdates` | crates/primitives/src/da/encoding.rs:79-98 | the three merging loops build one entry for each touched contract |
| `Codec.EncodeStateUpdates` | crates/primitives/src/da/encoding.rs:78-119 | the filled buffer is the specified word list |
| `Codec.PushUpdate` | crates/primitives/src/da/encoding.rs:290-302 | the words of one contract: metadata, class hash if any, sorted entries |
| `Codec.ReadContract` | crates/primitives/src/da/encoding.rs:139-178 | reading one contract advances the words and the diff as specified, with the same error for each missing field |
| `Codec.DecodeStateUpdates` | crates/primitives/src/da/encoding.rs:128-193 | the counted loops over one iterator are the specified parser |
| `Encoding.RoundTrip` | crates/primitives/src/da/encoding.rs:78-193 | decoding an encoding followed by any words gives the normal form and leaves exactly those words |
| `Encoding.TruncationFails` | crates/primitives/src/da/encoding.rs:128-193 | every proper nonempty prefix of an encoding is refused |
| `Encoding.PrefixExtends` | crates/primitives/src/da/encoding.rs:128-193 | what a successful decoding consumes does not depend on what follows |
| `Encoding.EncodingInjective` | crates/primitives/src/da/encoding.rs:78-119 | diffs with the same encoding have the same normal form |
| `Layout.EncodingLaidIff` | crates/primitives/src/da/encoding.rs:78-119 | a list of words is the encoding if and only if it is laid out like this, section by section: counts, addresses in increasing order, metadata as one sum, class hash if deployed, keys in increasing order each before its value, class hashes in increasing order |
| `Layout.ContractsLaidIff` | crates/primitives/src/da/encoding.rs:290-301 | the same for the words of a list of contracts |
| `DecodeErrors.TruncationError` | crates/primitives/src/da/encoding.rs:128-193 | cut off anywhere, an encoding is refused with the error that names the missing word |
| `DecodeErrors.DecodedIsCanonical` | crates/primitives/src/da/encoding.rs:128-193 | whatever words are decoded, the result is in the range of its types, can be encoded and is its own normal form |
| `DecodeErrors.DecodeEncodeDecode` | crates/primitives/src/da/encoding.rs:78-193 | so encoding a decoded diff and decoding it again gives the same diff |
| `DataAvailability.EncodedReduced` | crates/primitives/src/da/encoding.rs:78-119 | every encoded word is below the blob modulus |
| `DataAvailability.PublishedDiffRecovers` | crates/primitives/src/da/encoding.rs:78-193 | encode, pad to a blob, transform, recover, decode is the normal form, for every diff with 64-bit nonces that fits |
| `StateDiffHash.Len` | crates/primitives/src/state.rs:35-49 | the accumulating loops count every changed entry |
| `StateDiffHash.ElementCount` | crates/primitives/src/state.rs:35-103 | the hashed list has eight words plus two for each entry, one for a deprecated class, two for each contract with storage |
| `StateDiffHash.ElementsParse` | crates/primitives/src/state.rs:61-103 | two diffs have the same hashed list if and only if all parts agree except where deployments end and replacements begin |
| `StateDiffHash.ElementsInjective` | crates/primitives/src/state.rs:61-103 | without replaced classes the list determines the diff |
| `StateDiffHash.ElementsCollide` | crates/primitives/src/state.rs:61-103 | with them it does not: a deployment and a replacement give the same list |
| `Layout.ElementsLaidIff` | crates/primitives/src/state.rs:61-103 | a list is the hashed one if and only if it consists of the prefix string, deployed before replaced contracts, declared and deprecated classes, a one and a zero, storage by contract, and nonces, each counted and in increasing order |
| `Backend.Backend.CollectSuccesses` | crates/core/src/backend/mod.rs:90-101 | the loop keeps exactly the successful executions, with hashes, receipts and traces in step |
| `Backend.Backend.RegisterBlockHash` | crates/core/src/backend/mod.rs:500-525 | the hash of the block ten back, or zero if it is not stored, is written to contract 0x1 |
| `Backend.Backend.DoMineBlock` | crates/core/src/backend/mod.rs:85-138 | the new store is the specified one, or nothing changes when there is no block yet; the outcome lists the mined hashes |
| `Backend.Backend.UpdateBlockEnv` | crates/core/src/backend/mod.rs:153-171 | the number moves by one; a set start time is used once and later clocks continue from it |
| `Backend.SealedAligned` | crates/core/src/backend/mod.rs:331-368 | the entries of a sealed block are the given executions, receipt by receipt and trace by trace |
| `Backend.MinedExtends` | crates/core/src/backend/mod.rs:85-138 | mining one past the tip extends a linked, consecutively numbered chain by a block holding exactly the successes |
| `Backend.MinedKeeps` | crates/core/src/backend/mod.rs:140-151 | and leaves every other block alone |
| `Backend.MinedRegistry` | crates/core/src/backend/mod.rs:500-540 | and keeps the registry exact |
| `Backend.GenesisRegistry` | crates/core/src/backend/mod.rs:500-540 | an empty registry is exact at genesis |
| `MinedBlocks.MinedEntriesStep` | crates/core/src/backend/mod.rs:94-104 | the entries of all mined blocks grow by exactly the successful part of the output |
| `BlockCommitments.MinedIs` | crates/core/src/backend/mod.rs:527-540 | mining on the tip: the storage changes cell by cell by one diff, which is what was executed and the hash of the block ten back; the header carries the executor's environment and commits to storage, body, receipts and that diff, with its length |
| `BlockCommitments.EventsAdd` | crates/core/src/backend/mod.rs:331-350 | the event count of a header adds up over the receipts |
| `BlockCommitments.EventsOfOne` | crates/core/src/backend/mod.rs:331-350 | one receipt counts its events |
| `IntervalProducer.IntervalBlockProducer.constructor` | crates/core/src/service/block_producer.rs:244-276 | a new producer is in the initial state on every chain |
| `IntervalProducer.IntervalBlockProducer.Queue` | crates/core/src/service/block_producer.rs:126-132 | queueing is the queue step |
| `IntervalProducer.IntervalBlockProducer.ExecuteTransactions` | crates/core/src/service/block_producer.rs:335-364 | a prefix is executed, only new successes are returned, the rest is handed back if the block is full |
| `IntervalProducer.IntervalBlockProducer.TakeAndMine` | crates/core/src/service/block_producer.rs:316-333 | the executor's output is taken and mined under its own environment |
| `IntervalProducer.IntervalBlockProducer.SwapExecutor` | crates/core/src/service/block_producer.rs:366-378 | the next executor is built on the tip and shown to the validator before the permit is freed |
| `IntervalProducer.IntervalBlockProducer.ForceMine` | crates/core/src/service/block_producer.rs:290-314 | forcing is one step: lock, mine, swap, unlock |
| `IntervalProducer.IntervalBlockProducer.CheckTimer` | crates/core/src/service/block_producer.rs:388-424 | mining starts on a tick or a full block when none is in flight |
| `IntervalProducer.IntervalBlockProducer.StartExecution` | crates/core/src/service/block_producer.rs:427-451 | everything queued is flattened into one task, and the timer starts if there is a block time |
| `IntervalProducer.IntervalBlockProducer.FinishExecution` | crates/core/src/service/block_producer.rs:454-471 | leftovers go to the front of the queue and mark the block full |
| `IntervalProducer.IntervalBlockProducer.FinishMining` | crates/core/src/service/block_producer.rs:491-517 | a mined block's outcome is returned and the next block opened |
| `IntervalProducer.IntervalBlockProducer.PollExecution` | crates/core/src/service/block_producer.rs:426-488 | one round of the loop is a run of steps, and repeats only while the backlog shrinks |
| `IntervalProducer.IntervalBlockProducer.PollExecutions` | crates/core/src/service/block_producer.rs:426-488 | the loop ends, as a run of steps, with the queue empty, a task in flight or the block full |
| `IntervalProducer.IntervalBlockProducer.PollMining` | crates/core/src/service/block_producer.rs:491-530 | a mined block that is seen is finished, and its outcome returned |
| `IntervalProducer.IntervalBlockProducer.PollNext` | crates/core/src/service/block_producer.rs:385-533 | a whole poll, with any task steps in between, is a run of the transition system; with no mining in flight it starts mining if and only if the block is full or its time is up; when it is pending, a waiting queue has a task in flight or a full block |
| `IntervalSafety.ControlStep` | crates/core/src/service/block_producer.rs:385-533 | every allowed step keeps the control invariant of timer, tasks, permit and executor |
| `IntervalSafety.ConservedStep` | crates/core/src/service/block_producer.rs:335-364 | every allowed step keeps executed, running and queued transactions equal to everything queued |
| `IntervalSafety.OrderKept` | crates/core/src/service/block_producer.rs:126-132 | over every run: executed log, running batch and flattened queue together are everything ever queued, in order |
| `IntervalSafety.BlocksHoldSuccesses` | crates/core/src/backend/mod.rs:94-104 | over every run: the mined blocks, then the pending block, hold exactly the successful part of the executed log, with receipts and traces |
| `IntervalSafety.ChainGrows` | crates/core/src/service/block_producer.rs:316-378 | over every run: block numbers are consecutive and each parent hash is the stored hash of the predecessor |
| `IntervalSafety.ViewIsCurrent` | crates/core/src/service/block_producer.rs:491-513 | over every run: while the permit is free the validator looks at the current executor, which is built on the tip |
| `IntervalSafety.TasksAreConfined` | crates/core/src/service/block_producer.rs:228-240 | over every run: a running timer means a block time and no mining; tasks work on the current executor; no execution is pending once its block is taken |
| `IntervalSafety.RegistryTracksChain` | crates/core/src/backend/mod.rs:500-540 | over every run: contract 0x1 holds key k exactly from max(g+1, 10) - 10 to ten below the tip, with the stored hash of block k or zero before genesis |
| `IntervalHeaders.HeadersCommit` | crates/core/src/backend/mod.rs:331-368 | over every guarded run of a new producer: that is so of every mined block |
| `IntervalHeaders.MinedDiffsAre` | crates/core/src/service/block_producer.rs:335-364 | over every guarded run: the diff a block is made from is that of the latest execution on it |
| `IntervalHeaders.EnvironmentsFollow` | crates/core/src/backend/mod.rs:153-172 | over every guarded run: each later block has the next number, the sequencer of the one before, and the clock reading and prices its executor was opened with |
| `IntervalHeaders.OutcomesAreBlocks` | crates/core/src/backend/mod.rs:103-137 | over every guarded run: each returned outcome names a mined block and the hashes of its transactions |
| `IntervalRaces.OvertakenLoss` | crates/core/src/service/block_producer.rs:335-364 | an execution that runs after its block was taken balances the books exactly when nothing in it succeeded |
| `IntervalRaces.OvertakingRunLoses` | crates/core/src/service/block_producer.rs:316-333 | from every reachable state with mining at the lock and an execution pending, mining first loses the batch's successes |
| `IntervalRaces.HoldingReached` | crates/core/src/service/block_producer.rs:388-451 | a guarded run of a new producer with a block time reaches such a state |
| `IntervalRaces.TransactionOvertaken` | crates/core/src/service/block_producer.rs:316-333 | so from a new producer a transaction can succeed and be in no block and not pending |
| `IntervalRaces.OverlapLoss` | crates/core/src/service/block_producer.rs:289-314 | a block forced while mining waits is overwritten by an empty block of the same number; nothing is lost exactly when it held no success |
| `IntervalRaces.WaitingReached` | crates/core/src/service/block_producer.rs:388-404 | a guarded run of a new producer with a block time reaches a waiting mining task with a success to mine |
| `IntervalRaces.BlockOverwritten` | crates/core/src/service/block_producer.rs:289-314 | so from a new producer the block forced for a transaction can end up empty |
| `IntervalRaces.TwiceSealed` | crates/core/src/backend/mod.rs:106-117 | sealing a number twice leaves a block that names its overwritten namesake as parent |
| `IntervalLosses.BooksBalanceIff` | crates/core/src/service/block_producer.rs:289-364 | over every run, guarded or not: block numbers stay consecutive, successes are in the books or lost, and the books balance, in order, if and only if no overtaken execution and no overwritten block held a success |
| `IntervalLosses.AnyStep` | crates/core/src/service/block_producer.rs:289-533 | every step of any run keeps that account, with its own loss |
| `IntervalLosses.GuardsSuffice` | crates/core/src/service/block_producer.rs:289-364 | runs that keep the two guards lose nothing |
| `IntervalTimer.BackedStep` | crates/core/src/service/block_producer.rs:388-451 | an allowed step keeps the timer backed by an executed or pending transaction unless it forces a block while the timer runs, or executes nothing on an empty block while it runs; then it does not |
| `IntervalTimer.BackedRun` | crates/core/src/service/block_producer.rs:235-238 | over every guarded run from a backed state: all states are backed if and only if no step is of that kind |
| `IntervalTimer.EarnedStep` | crates/core/src/service/block_producer.rs:388-451 | an allowed step keeps the sentence about the timer true unless it starts a batch on an empty block with a block time, or forces a block while the timer runs; then it does not |
| `IntervalTimer.TimerBackedIff` | crates/core/src/service/block_producer.rs:235-238 | the same for every guarded run of a new producer |
| `IntervalTimer.EarnedRun` | crates/core/src/service/block_producer.rs:235-238 | over every guarded run: the timer runs only for a block with an executed transaction if and only if no batch is started on an empty block with a block time and no block is forced while it runs |
| `IntervalTimer.TimerEarnedIff` | crates/core/src/service/block_producer.rs:235-238 | over every guarded run of a new producer that is so if and only if there is no block time or no execution is ever started |
| `IntervalTimer.TimerBeforeFirstOutcome` | crates/core/src/service/block_producer.rs:443-451 | a new producer's timer runs before the first transaction of its batch is executed |
| `IntervalTimer.TimerAfterEmptyExecution` | crates/core/src/service/block_producer.rs:454-471 | it goes on when nothing of the batch fitted |
| `IntervalTimer.TimerOutlivesForcedBlock` | crates/core/src/service/block_producer.rs:290-314 | it goes on after a forced block, although the next one is empty |
| `MinedAccount.MinedHashesAre` | crates/core/src/service/mod.rs:71-83 | over every guarded run: the mined transactions are those of finished, of forced and of waiting blocks, counted with repetitions |
| `MinedAccount.MinedLeaveIff` | crates/core/src/service/mod.rs:71-83 | over every guarded run: the pool is told of every mined transaction if and only if it is told of those in forced and waiting blocks |
| `MinedAccount.DistinctMinedLeaveIff` | crates/core/src/service/mod.rs:71-83 | when none is mined twice, if and only if no forced and no waiting block holds one |
| `MinedAccount.ForcedTransactionStays` | crates/core/src/service/block_producer.rs:290-314 | a new producer that is forced to mine a transaction never tells the pool |
| `InstantProducer.InstantBlockProducer.constructor` | crates/core/src/service/block_producer.rs:555-581 | a new producer is in the initial state on every chain |
| `InstantProducer.InstantBlockProducer.ExecuteAndMine` | crates/core/src/service/block_producer.rs:597-652 | a batch is executed on the latest state and the executed prefix mined as the next block |
| `InstantProducer.InstantBlockProducer.ForceMine` | crates/core/src/service/block_producer.rs:583-595 | forcing mines the queue at once, or does nothing while a block is being mined |
| `InstantProducer.InstantBlockProducer.PollNext` | crates/core/src/service/block_producer.rs:674-714 | a whole poll is a run of the transition system that starts mining whenever something is queued and nothing is mined |
| `InstantSafety.ChainGrows` | crates/core/src/service/block_producer.rs:597-667 | over every run: the chain stays linked and its new blocks hold exactly the successful executions, in order |
| `InstantSafety.ViewIsLatest` | crates/core/src/service/block_producer.rs:652-661 | over every run: while the permit is free the validator looks at the latest committed state |
| `InstantSafety.LosslessWhenNeverFull` | crates/executor/src/implementation/blockifier/mod.rs:197-259 | over every run: queue order is kept with nothing lost if and only if no executor ran out of room |
| `InstantSafety.LosslessIff` | crates/executor/src/implementation/blockifier/mod.rs:197-201 | equivalently, nothing has been left over by an executor |
| `InstantSafety.TransactionDropped` | crates/core/src/service/block_producer.rs:583-652 | from a new producer a queued transaction that does not fit is gone |
| `InstantSafety.RegistryTracksChain` | crates/core/src/backend/mod.rs:500-540 | the block hash registry stays exact over every run |
| `InstantHeaders.HeadersCommit` | crates/core/src/backend/mod.rs:331-368 | over every run: every mined block commits to the one diff by which the storage changes, and its environment follows the one before |
| `InstantHeaders.OutcomesAreBlocks` | crates/core/src/backend/mod.rs:103-137 | over every run: an outcome about to be returned names the tip and the hashes of its transactions |
| `PoolOrder.OrderIffNoWedge` | crates/pool/src/tx.rs:103-119 | on entries with distinct ranks and ids, the comparator is a strict total order if and only if no other sender's rank falls between two ranks that contradict their sender's nonces |
| `PoolOrder.CompareCycle` | crates/pool/src/tx.rs:103-119 | the comparator has a cycle of three otherwise |
| `PoolOrder.OrderIsRankOrder` | crates/pool/src/tx.rs:103-119 | with unique ranks that each sender's nonces follow, it is the order of the ranks |
| `PoolOrder.Insert` | crates/pool/src/tx.rs:98-119 | insertion always finds a place, between neighbours it compares greater and less to |
| `PoolOrder.InsertionGrows` | crates/pool/src/tx.rs:98-119 | and grows the set by exactly the new entry |
| `PoolOrder.InsertionOrdered` | crates/pool/src/tx.rs:98-119 | and keeps it ordered, whatever the shape of the tree, as long as the comparator is an order |
| `PoolOrder.ArrivalIrrelevant` | crates/pool/src/tx.rs:98-119 | the same entries in any order of arrival enumerate identically |
| `PoolOrder.EnumeratesByRank` | crates/pool/src/ordering.rs:29-68 | the set enumerates by priority under the stated hypotheses |
| `PoolOrder.FirstComeFirstServed` | crates/pool/src/ordering.rs:29-68 | with arrival numbers and nonces that never fall it enumerates in order of arrival |
| `PoolServing.ServesExactly` | crates/pool/src/tx.rs:98-119 | for every order of insertion and every list: all trees enumerate that list if and only if each newcomer compares with everyone already there as the list says, although the comparator need not be an order |
| `PoolServing.FirstServedIff` | crates/pool/src/tx.rs:98-119 | all trees enumerate in order of insertion if and only if nobody compares less than anybody inserted earlier |
| `PoolServing.ServesAnyhowIff` | crates/pool/src/tx.rs:98-119 | a list is enumerated for every order of insertion and every tree if and only if it is ordered pair by pair |
| `PoolOrder.FiFo.Assign` | crates/pool/src/ordering.rs:34-36 | arrival numbers increase until the counter wraps |
| `PoolOrder.BuiltStable` | crates/pool/src/tx.rs:98-102 | with distinct senders and any ties, insertion is a stable sort |
| `Notification.SwapRemoveKeeps` | crates/pool/src/pool.rs:96-97 | `swap_remove` leaves the front alone and permutes the rest without the removed element |
| `Notification.AllServed` | crates/pool/src/pool.rs:67-110 | the swap_remove/push loop serves each listed channel once and keeps exactly the senders of open ones |
| `Pool.Pool.AddListener` | crates/pool/src/pool.rs:208-213 | a new bounded channel with one sender |
| `Pool.Pool.NotifyListener` | crates/pool/src/pool.rs:67-90 | every listener with a free slot gets the hash once, and only closed ones are dropped |
| `Pool.Pool.NotifySubscribers` | crates/pool/src/pool.rs:93-110 | the swap_remove/push loop gives every live subscriber one copy and keeps exactly the live ones |
| `Pool.Pool.AddTransaction` | crates/pool/src/pool.rs:137-183 | a valid transaction is inserted and announced to listeners and subscribers; every other verdict is an error that changes nothing |
| `Pool.Pool.Subscribe` | crates/pool/src/pool.rs:118-123 | a new channel with one sender |
| `Pool.Pool.Receive` | crates/pool/src/subscription.rs:54-63 | taking from a channel is the receive step; it fails exactly when nothing is unread |
| `Pool.Pool.RemoveTransactions` | crates/pool/src/pool.rs:215-219 | exactly the entries with a listed hash go |
| `PoolOrderRuns.RetainedKeeps` | crates/pool/src/pool.rs:215-219 | and the others stay in the order in which they stood |
| `PoolOrderRuns.RetainedOrdered` | crates/pool/src/pool.rs:215-219 | an ordered pool stays ordered |
| `Pool.Pool.Get` | crates/pool/src/pool.rs:199-206 | finds an entry with the hash if and only if there is one |
| `PoolRuns.RunMatches` | crates/pool/src/pool.rs:93-155 | for every interleaving of additions, removals, new streams and polls, also of equal entries, pool, channels and snapshots hold each entry as often as the events say |
| `PoolOrderRuns.PoolStaysOrdered` | crates/pool/src/pool.rs:137-219 | after every run whose inserted entries the comparator totally orders, with removals anywhere, the pool is in order |
| `PoolOrderRuns.PoolsAgree` | crates/pool/src/pool.rs:137-219 | two such runs that leave the same entries leave the same list |
| `PoolOrderRuns.SnapshotsOrdered` | crates/pool/src/pool.rs:186-192 | and every snapshot was in order |
| `PoolOrderRuns.FirstServedThroughRemovals` | crates/pool/src/ordering.rs:29-68 | after every run in which nobody compares less than anybody inserted earlier, with removals anywhere, what is left is in order of insertion |
| `PoolRuns.CopiesReceived` | crates/pool/src/pool.rs:186-192 | a stream gets a copy for each one present at its snapshot and for each announcement after its subscription |
| `PoolRuns.NothingMissed` | crates/pool/src/pool.rs:137-192 | every completed addition reaches every open stream, except for copies removed before the snapshot, and nothing comes more than twice for each insertion |
| `PoolRuns.StreamConserves` | crates/pool/src/subscription.rs:39-70 | over every run: yielded, rest of the snapshot, drained and unread transactions of a stream are together its snapshot and everything sent to it |
| `PoolRuns.StreamYields` | crates/pool/src/pending.rs:29-36 | an exhausted open stream has yielded exactly those, so every completed addition but for copies removed before the snapshot |
| `PoolRuns.StreamYieldsOnce` | crates/pool/src/pending.rs:29-36 | an entry added once and not removed before the snapshot is yielded once, or twice exactly when it was in the snapshot and announced after the subscription |
| `PoolRuns.StreamYieldsAtMost` | crates/pool/src/pending.rs:29-36 | however far it was polled, a stream has yielded nothing else and nothing more often |
| `PoolRuns.OpenStreamLasts` | crates/pool/src/pool.rs:93-110 | the sender of an open stream is never dropped |
| `PoolRuns.LeadsRun` | crates/pool/src/pool.rs:137-192 | steps that lead on from a run in the order of the protocol extend the run |
| `Streams.Subscription.TakeOne` | crates/pool/src/subscription.rs:54-60 | one entry moves from the channel to its place in the set |
| `Streams.Subscription.Drain` | crates/pool/src/subscription.rs:54-63 | draining empties the channel into the set by insertion in order of receipt, as receive steps |
| `Streams.Subscription.PollNext` | crates/pool/src/subscription.rs:39-70 | yields the first of what is left over, looks at the channel only when nothing is, and ends only when the sender is gone |
| `Streams.PendingTransactions.constructor` | crates/pool/src/pool.rs:186-192 | subscribes before it takes the snapshot |
| `Streams.PendingTransactions.PollNext` | crates/pool/src/pending.rs:29-36 | the snapshot in order first, then the subscription; the pool's runs take the same steps |
| `Streams.TransactionMiner.Poll` | crates/core/src/service/mod.rs:122-134 | takes everything the stream offers, in the order it is offered, and leaves the stream exhausted |
| `Service.BlockProductionTask.PollOnce` | crates/core/src/service/mod.rs:71-92 | a finished block's transactions leave the pool |
| `Service.BlockProductionTask.Round` | crates/core/src/service/mod.rs:71-99 | one round polls the producer and feeds it everything the stream yields |
| `Service.BlockProductionTask.Poll` | crates/core/src/service/mod.rs:65-103 | with additions arriving in every round, the producer is fed exactly what the stream yields, in order; in the end the stream has yielded every completed addition of the pool's whole history, as above, and exactly the transactions of finished blocks were removed |
| `MinedPool.InPoolIff` | crates/pool/src/pool.rs:215-219 | over every history: an entry is in the pool if and only if it was inserted since its hash was last removed |
| `MinedPool.MinedFed` | crates/core/src/service/mod.rs:65-103 | every mined transaction is one the stream yielded to the producer |
| `MinedPool.MinedInserted` | crates/core/src/service/mod.rs:65-103 | and had been inserted into the pool |
| `MinedPool.ServicedStart` | crates/core/src/service/mod.rs:40-62 | a new producer and a new stream are a start |
| `MinedPool.ServicedOn` | crates/core/src/service/mod.rs:65-103 | polls of the service, forced blocks and other uses of the pool go on from there |
| `MinedPool.PoolHoldsMinedIff` | crates/core/src/service/mod.rs:80-82 | over every run: the pool holds nothing that was mined if and only if it holds nothing of forced and unseen blocks and nothing of a finished block was added again since its removal |
| `MinedPool.PoolForgetsMinedIff` | crates/core/src/service/mod.rs:80-82 | when nothing is added again after its removal: it holds nothing that was mined if and only if everything in forced and unseen blocks is in finished ones too; when nothing is mined twice, if and only if there is no such transaction |
| `MinedPool.ForcedStillThere` | crates/core/src/service/block_producer.rs:290-314 | a transaction that was yielded, executed and mined by a forced block is still in the pool |
| `Service.FedInOrder` | crates/core/src/service/mod.rs:65-134 | what was fed is executed in that order with nothing lost, over every run |
| `Validator.TxValidator.Validate` | crates/pool/src/validation/stateful.rs:118-179 | the verdict and the nonce update, branch by branch, with a failing class lookup |
| `Validator.ValidIff` | crates/pool/src/validation/stateful.rs:118-206 | valid if and only if the class is new, the nonce not ahead, and the account's validation passes unless it is a message |
| `Validator.InvalidIff` | crates/pool/src/validation/stateful.rs:118-206 | invalid, for each reason, if and only if a known class is declared or the account refuses |
| `Validator.DependentIff` | crates/pool/src/validation/stateful.rs:138-149 | dependent if and only if the class is new and the nonce ahead |
| `Validator.BrokenIff` | crates/pool/src/validation/stateful.rs:118-206 | an error if and only if the class cannot be looked up or the validation itself fails |
| `Validator.AcceptedPassed` | crates/pool/src/validation/stateful.rs:167-176 | at every point of every run: a nonce moves exactly when all these conditions are met, and otherwise nothing changes |
| `Validator.RefusedLeaveNoTrace` | crates/pool/src/validation/stateful.rs:118-179 | over every run: the state is the same as if refused transactions had never been seen |
| `Validator.TxValidator.PoolNonce` | crates/pool/src/validation/stateful.rs:78-84 | the nonce in the pool, or in the state |
| `Validator.TxValidator.Update` | crates/pool/src/validation/stateful.rs:67-71 | a new state leaves the pool's nonces |
| `Validator.NonceCountsAccepted` | crates/pool/src/validation/stateful.rs:138-176 | over every run of validations and updates: the pool nonce is the nonce at first acceptance plus the number accepted, in the field |
| `Validator.AcceptedAtMostCurrent` | crates/pool/src/validation/stateful.rs:138-149 | the i-th accepted nonce is at most the pool nonce at that moment |
| `Admission.AdmissionServedIff` | crates/pool/src/ordering.rs:29-68 | whatever the tree, the pool serves what a run of the validator accepts in order of acceptance if and only if no sender's accepted nonces fall |
| `Admission.AdmissionRankedIff` | crates/pool/src/ordering.rs:29-68 | that is when the arrival numbers rank it |
| `Admission.IncreasingIffInTurn` | crates/pool/src/validation/stateful.rs:138-176 | for a sender whose first accepted nonce is not stale they strictly increase if and only if each is exactly the pool nonce of its moment |
| `Admission.StaleOvertakes` | crates/pool/src/tx.rs:103-112 | then the last is served before the one with nonce one |
| `Admission.OverlappingServedIff` | crates/pool/src/pool.rs:141-150 | for additions whose validation, arrival number and insertion interleave in any way: all trees serve in order of acceptance if and only if different senders drew numbers in that order, each sender's accepted nonces never fall, and those that share a nonce were inserted in that order |
| `Admission.WedgeReached` | crates/pool/src/pool.rs:141-150 | overlapping additions of a new chain can draw one sender's numbers in the wrong order around another's |
| `Admission.WedgeUncertain` | crates/pool/src/tx.rs:103-119 | then the order served depends on the tree |
| `Admission.StaleAccepted` | crates/pool/src/validation/stateful.rs:188-192 | as the nonce check is off, nonces zero, one and zero can be accepted in that order |
| `Validator.NeverSkipped` | crates/pool/src/validation/stateful.rs:145-159 | the branch that skips validation next to an account deployment is never taken: such a transaction has been refused as dependent |
| `Validator.L1HandlerValidIff` | crates/pool/src/validation/stateful.rs:145-149 | a settlement message is accepted if and only if its nonce is not ahead of its target's |
| `Validator.MessageLost` | crates/messaging/src/service.rs:72-79 | so a gathered message can be refused, although the gatherer ignores the verdict because it should always be valid |
| `Messaging.FetchEvents` | crates/messaging/src/starknet.rs:35-76 | following continuation tokens collects every located event once, in order |
| `Messaging.MessagingService.GatherMessages` | crates/messaging/src/starknet.rs:84-134 | returns the chosen last block and exactly the readable messages up to it |
| `Messaging.RangeBounded` | crates/messaging/src/ethereum.rs:121-129 | wherever the cursor is, a gathering never passes the tip, spans at most max_blocks + 2 blocks, and is empty exactly when the cursor is past the tip |
| `Messaging.NoRegressIff` | crates/messaging/src/starknet.rs:105-115 | the cursor never falls back if and only if it is at most one past the tip |
| `Messaging.StartBlockForgotten` | crates/messaging/src/starknet.rs:102-105 | a start block beyond that is forgotten |
| `Messaging.Progress` | crates/messaging/src/service.rs:128-131 | each success moves at least max_blocks + 1 blocks until the tip is passed |
| `Messaging.ProgressExactly` | crates/messaging/src/service.rs:128-131 | in closed form: exactly max_blocks + 1 blocks with each success but the last |
| `Messaging.ReachesTip` | crates/messaging/src/service.rs:128-131 | with a fixed tip the cursor comes to rest at tip + 1 after finitely many successes |
| `Messaging.MessagingService.PollNext` | crates/messaging/src/service.rs:115-151 | at most one gathering runs; only a success moves the cursor |
| `Messaging.GatheredStep` | crates/messaging/src/service.rs:115-151 | every poll keeps the gathered blocks an interval from the start block to the cursor |
| `Messaging.DeliversExactlyOnce` | crates/messaging/src/service.rs:115-151 | over every mix of errors and retries with a tip that does not decrease, the messages of the blocks from the start to the cursor are delivered once each and in order |
| `MessageDelivery.LocatedEvents` | crates/messaging/src/starknet.rs:59-65 | fetched are exactly the events that are in a block, in order |
| `MessageDelivery.DeliversEveryMessage` | crates/messaging/src/service.rs:115-151 | over every such run: delivered are the messages of exactly the events, from the start block to the cursor, that are in a block and can be read, in the order of blocks and events |
| `MessageDelivery.DeliveredCount` | crates/messaging/src/service.rs:115-151 | so each message is delivered as often as it stands there |
| `MessageAdmission.MessageAcceptedIff` | crates/pool/src/validation/stateful.rs:138-149 | at any point of any run a message is accepted if and only if its nonce is at most the number of its target's accepted transactions, counted from the target's nonce at the first |
| `MessageAdmission.TakenIs` | crates/pool/src/validation/stateful.rs:138-176 | over every run: the accepted messages to a contract that only receives are those not ahead of its turn |
| `MessageAdmission.AllTakenIff` | crates/pool/src/validation/stateful.rs:138-176 | none is refused if and only if the k-th nonce is at most the turn plus k |
| `MessageAdmission.GapLosesRest` | crates/messaging/src/service.rs:72-79 | with increasing nonces everything from the first one that is ahead is lost |
| `MessageAdmission.DeliveredAcceptedIff` | crates/messaging/src/service.rs:72-79 | over every run of the service and the validator: the accepted messages follow from the gathered blocks, and all are accepted if and only if none is ahead of its turn |
| `Genesis.GenesisTransactionsBuilder.LegacyDeclare` | crates/chain-spec/src/rollup/utils.rs:61-90 | declares a legacy class once, without a nonce |
| `Genesis.GenesisTransactionsBuilder.Declare` | crates/chain-spec/src/rollup/utils.rs:92-130 | takes a nonce before it looks whether the class is known |
| `Genesis.GenesisTransactionsBuilder.Deploy` | crates/chain-spec/src/rollup/utils.rs:132-151 | a deployment by the master account, its arguments counted |
| `Genesis.GenesisTransactionsBuilder.Invoke` | crates/chain-spec/src/rollup/utils.rs:153-187 | takes the next master nonce |
| `Genesis.GenesisTransactionsBuilder.BuildMasterAccount` | crates/chain-spec/src/rollup/utils.rs:231-268 | declares and deploys the master account |
| `Genesis.GenesisTransactionsBuilder.BuildCoreContracts` | crates/chain-spec/src/rollup/utils.rs:270-289 | declares and deploys the universal deployer and the fee token |
| `Genesis.GenesisTransactionsBuilder.DeployAccountOf` | crates/chain-spec/src/rollup/utils.rs:189-229 | a dev account deploys itself, a plain one is deployed by the master account |
| `Genesis.GenesisTransactionsBuilder.TransferBalance` | crates/chain-spec/src/rollup/utils.rs:320-328 | a transfer with the amount in two halves |
| `Genesis.GenesisTransactionsBuilder.BuildAllocatedAccounts` | crates/chain-spec/src/rollup/utils.rs:291-318 | the account loop appends the specified list |
| `Genesis.GenesisTransactionsBuilder.Build` | crates/chain-spec/src/rollup/utils.rs:330-336 | the built list is the specified one for every list of accounts of the default class |
| `GenesisLedger.DeployArgsParse` | crates/chain-spec/src/rollup/utils.rs:141-147 | the counted deployment arguments read back as they were written |
| `GenesisLedger.CoreReplays` | crates/chain-spec/src/rollup/utils.rs:231-289 | the core transactions replay on a ledger that checks nonces, declarations, deployments and balances; the master account holds the whole supply |
| `GenesisLedger.AccountsReplay` | crates/chain-spec/src/rollup/utils.rs:291-328 | the account transactions replay exactly when the master nonce is right or no account needs the master account, and its balance covers all of them |
| `GenesisLedger.GenesisReplaysIff` | crates/chain-spec/src/rollup/utils.rs:330-336 | with distinct addresses the whole list replays if and only if the account class is not a legacy class or no account needs the master account, and the allocations together do not exceed the supply |
| `GenesisLedger.SharedClassRefused` | crates/chain-spec/src/rollup/utils.rs:92-101 | a setup whose account class is the master account's class, where the replay breaks off |
| `GenesisLedger.OverdrawnRefused` | crates/chain-spec/src/rollup/utils.rs:318-328 | two allocations that exceed the supply, where the second transfer fails |
| `GenesisLedger.GenesisAllocates` | crates/chain-spec/src/rollup/utils.rs:231-328 | afterwards exactly the core contracts and the accounts are deployed, each with its class, salt and arguments; every account holds its balance and the master account the rest of the supply of the named token |
| `GenesisLedger.GenesisLength` | crates/chain-spec/src/rollup/utils.rs:330-336 | seven transactions, one for each account, one for each account with a balance |
| `GenesisLedger.MasterNoncesConsecutive` | crates/chain-spec/src/rollup/utils.rs:92-187 | the master account's transactions carry the nonces 1, 2, 3 and so on after its deployment with nonce 0 |

## Left out

- Fourier.Ifft: a panic, an underflow and a recursion without end are one failure.
- Service.BlockProductionTask.Poll: only the interval producer is driven, and additions arrive between the steps of a round; finer interleavings are covered by PoolRuns.
- PoolOrder.FiFo.Assign: ranks after the 64-bit counter has wrapped are not ordered by arrival.
- Validator.TxValidator.Validate: a failing nonce lookup, on which the code panics; the permit is a step of the producers' runs.
- Error, panic and cancelled-task paths of the producers: a run ends there, and the permit may stay locked.
- Gas price oracle (`gas_oracle.rs`): a bounded window and its average, easy members only.
- Block commitments, state roots and `commit_parallel`: uninterpreted; the parallel form does not fix the order of events.
- Transaction execution, class compilation, tries and the database: external; the store is a map from numbers to blocks.
- Block environments seen by the validator: only which state it looks at is modelled.
- Genesis signatures and calldata wrapping: transactions carry the call and its arguments.
- RPC, command line, configuration, metrics, logging, fork fetching and task management: input, output and wiring.
