# pDoge bridge: the buffer, lock, verify and mint protocol

The bridge mints tokens on Solana for deposits made on Dogecoin. A relayer uploads the list
of mints of a finalized block into a pending-mint buffer and the list of output indices into
a TXO buffer. The bridge program locks the mint buffer, checks a proof of the new header and
both hashes, and loads the block into a backlog of at most eight blocks. The mints are then
claimed in groups of 24, in any order, tracked by a bitmap and a counter; the last group
unlocks the buffer, and the next block of the backlog is set up just in time. Manual
deposits, withdrawal requests and operator fees change the supply besides.

The project models these programs as one state machine over all accounts and proves what
holds over every run of it. The programs that update accounts in place are modelled as
classes whose methods are proved to do exactly the steps of the machine, down to the
roll-back of failed transactions.

| file | contents |
|---|---|
| Bytes, Mints | machine integers, byte strings, records, groups |
| MintBuffer, MintBufferRuns | the pending-mint buffer program, its in-place form, and what holds after any instructions |
| Commitment | the two-level commitment: client hash, bridge check, binding |
| TxoBuffer | the TXO buffer program, its in-place form, chunking and reassembly |
| Tracker, Backlog, MintManagers | bitmap and counter, backlog, and both in place |
| Bridge, System | the bridge's transitions, and all programs together with a history |
| Coupling, ExactlyOnce, Alignment, Runs | locks and tracker, mints made and owed, heights, and the theorems over every run |
| Drain, DrainRuns, FullCycle, Driver | when a backlog can be drained, a run that drains it, a block's whole way, the client's claim loop |
| Ledger, RecentBlocks | conservation of money, the ring of recent states and manual claims |
| Acceptance, ClaimAcceptance, Payments, Addresses | when each instruction of the bridge is accepted, exactly what it then does, and where buffers are |
| ProofDigests | the digests proofs are verified against, written out, and what they pin down |
| BridgeProgram | the bridge program in place, refining the state machine |
| PublicInputs, Merkle, AppendTree, Fees, TxoIndex | proof inputs, hash trees, fees, packed indices |

## How the model reads the code

- A transaction is one step; any error or abort undoes it. `System.Apply` and the `Process`
  methods say so.
- On-chain `+`, `-` and `*` wrap, as in the release build the programs are deployed from; the
  model writes the remainders out.
- SHA-256 is an arbitrary function `h` of byte strings into 32-byte strings. Binding results
  name the finite set of messages that are hashed and hold unless two of them collide. Where
  needed, `NeverZero` says no digest is all zero. The two default hashes are those of the two
  zero bytes and of the empty string, as the comments beside the constants say.
- The proof verifier is an arbitrary predicate. `System.Admissible` collects what is relied on
  besides the code: only the bridge signs as the bridge, proved heights stay below the largest
  u32, a proved reorganization moves the deposit index exactly if one of its blocks carries
  deposits, and nobody initializes the bridge again. `Coupling.ReorgCoupledIff` and
  `Runs.InitializeKeepsInvariantIff` show how much of the last two is needed; the theorems of
  `Runs` admit every initialization that meets the condition of the latter.
- A call into the token program names a mint account. Claiming a group and withdrawing fees
  compare that account with the bridge's mint; withdrawal requests, manual deposits and
  auto-advances do not. `supply` is the supply of the bridge's own token, `strayed` what the
  calls moved on other mints, `minted` the records of all claims and `paidOn` their mints.
- `Env.mintOf` gives the mint of the token account at a key, if there is one that the bridge can
  mint to; it does not change during a run. A claim or a manual deposit is paid only to
  token accounts of the mint named. Whatever else may stop a token call is its parameter `ok`.
- `Env.bufferOf` gives the mint-buffer address derived from a key. Set-up creates a buffer only
  at the address derived from its writer, with the canonical bump seed, so a block update
  accepts exactly that address whatever bump it is given. The TXO buffer derived from a key is
  found by that key.
- `History` in `System` records what happened. No program reads it; it states the theorems.
- Bytes exposed when an account grows are arbitrary parameters.
- In `AppendTree` and `Driver`, `ghost` parameters name the leaves or the groups claimed so
  far; they do not influence what is computed.

## Model

| member | source | states |
|---|---|---|
| Runs.EveryRun | programs/doge-bridge/src/processor.rs:212-708 | after every run of all programs from an initialized bridge, second initializations included as long as nothing is pending, the joint invariant holds: locks match the tracker, mints made and owed add up to the activated lists, the backlog is aligned with the committed heights, every activated list opens its commitment, every record was minted on the mint of its recipient's account, every TXO buffer is its owner's |
| Runs.StepKeepsInvariant | programs/doge-bridge/src/processor.rs:258-708 | each single operation but a second initialization, failed ones being rolled back, keeps that invariant |
| Runs.RunKeepsSystemInvariant | programs/doge-bridge/src/processor.rs:258-708 | so does every run of such operations from any state in which it holds |
| Runs.InitializeCoupledIff | programs/doge-bridge/src/processor.rs:212-256 | a second initialization keeps tracker and locks in step if and only if no block is active |
| Runs.InitializeKeepsInvariantIff | programs/doge-bridge/src/processor.rs:212-256 | it keeps the joint invariant if and only if no block is active, only empty ones are left, and the new finalized height is below the largest u32 and not below the last committed block |
| Runs.LongRunKeepsInvariant | programs/doge-bridge/src/processor.rs:212-708 | every run with second initializations under that condition keeps the invariant |
| Runs.InitialInvariant | libraries/psy-doge-solana-core/src/program_state/core.rs:78-105 | it holds of a freshly initialized bridge |
| Runs.TrackerMatchesLock | programs/doge-bridge/src/processor.rs:363-379 | after every run a buffer is locked by the bridge exactly if the tracker is non-empty and names it, and then it is complete and holds the list committed for the current backlog item; so at most one is locked |
| Runs.TrackerConsistentAlways | libraries/psy-doge-solana-core/src/program_state/mint_group.rs:15-56 | after every run the counter is the number of groups without a mark, only existing groups are marked, and the counter is zero exactly if all are |
| Runs.MintedAndOwed | programs/doge-bridge/src/processor.rs:515-551 | after every run the mints made plus those owed for the active block are, as multisets, the activated lists, and the committed blocks are in order of height the activated ones followed by those still waiting |
| Runs.BacklogHeights | libraries/psy-doge-solana-core/src/program_state/block_update.rs:318-384 | after every run that leaves blocks pending, item i of the backlog is the block at height start plus i: the last item is at the finalized height, the active one is the block activated last and has at least one mint, every later non-empty one is a committed block of that height |
| Runs.DrainedMintsExactlyOnce | programs/doge-bridge/src/processor.rs:515-551 | whenever the backlog is drained every committed block was activated exactly once and the mints made are a permutation of any lists that open the commitments, unless hashed messages collide |
| Runs.DrainedPaysInKind | programs/doge-bridge/src/cpi_impl.rs:57-100 | whenever the backlog is drained, each committed record was minted exactly once in the token of its recipient's account and in no other, so in the bridge's own token exactly those records whose recipients hold it |
| Runs.SingleUpdateRaisesHeightIff | libraries/psy-doge-solana-core/src/program_state/block_update.rs:151-158 | an accepted single-block update raises the finalized height exactly if it was below the largest u32, and always raises the tip height |
| Runs.HeightsRise | libraries/psy-doge-solana-core/src/program_state/block_update.rs:273-290 | over every run without a second initialization the header is only replaced by ones with larger finalized and larger tip height |
| Runs.HeightsSinceInitialize | programs/doge-bridge/src/processor.rs:212-256 | after a second initialization the header rises from the given one |
| Runs.InitializeCanLowerHeights | programs/doge-bridge/src/processor.rs:212-256 | an initialization that lowers the height of any bridge above height zero |
| Runs.OthersKeepHeader | programs/doge-bridge/src/processor.rs:470-708 | no operation but a block update and an initialization touches the header or the ring of recent blocks |
| System.CallsAreTransactions | programs/doge-bridge/src/processor.rs:363-379 | the bridge's lock and unlock calls are the buffer program's own transactions signed by the bridge |
| Coupling.BufferInstructionKeepsCoupled | programs/pending-mint-buffer/src/lib.rs:162-372 | no instruction of another signer breaks the match of tracker and locks or changes the locked buffer |
| Coupling.LockMeaning | programs/pending-mint-buffer/src/lib.rs:96-102 | a lock call that succeeds found an unlocked complete buffer, changes only its lock byte and leaves it the only locked one |
| Coupling.UnlockMeaning | programs/pending-mint-buffer/src/lib.rs:103-111 | the bridge can always release the buffer it locked; the buffer then announces no mints and is otherwise as it was, and the bridge holds no lock |
| Coupling.SingleLoads | libraries/psy-doge-solana-core/src/program_state/block_update.rs:216-241 | a single-block update with new deposits loads exactly its block, pointed at a complete buffer with the committed list, nothing claimed; without new deposits it leaves the backlog alone |
| Coupling.ReorgLoads | libraries/psy-doge-solana-core/src/program_state/block_update.rs:318-384 | a reorganization loads its blocks from the first non-empty one on, at the right start height, pointed at a complete buffer with that block's list |
| Coupling.BlockUpdateKeepsCoupled | programs/doge-bridge/src/processor.rs:454-465 | a single-block update keeps tracker and locks in step, including the unlock when no deposit is new |
| Coupling.ReorgCoupledIff | programs/doge-bridge/src/processor.rs:454-465 | a reorganization keeps them in step if and only if it moves the deposit index exactly when one of its blocks carries deposits |
| Coupling.SetupNextMeaning | libraries/psy-doge-solana-core/src/program_state/auto_mint.rs:249-335 | the set-up of the next block activates the first non-empty item from the index on, with the count read from the buffer, after all its checks |
| Coupling.AdvanceKeepsCoupled | programs/doge-bridge/src/processor.rs:609-660 | activating the next block and locking its buffer keeps tracker and locks in step |
| Coupling.AdvanceThenClaim | programs/doge-bridge/src/processor.rs:609-708 | an auto-advance is the activation of the next block followed by an ordinary claim |
| Coupling.ClaimKeepsCoupled | programs/doge-bridge/src/processor.rs:515-568 | a claim keeps them in step, releasing the buffer with the last group |
| ExactlyOnce.ReadMintsMeaning | programs/doge-bridge/src/processor.rs:545-551 | the mint loop succeeds exactly if every record's recipient is the account given for it, and mints exactly those records |
| ExactlyOnce.ClaimReadsGroup | libraries/psy-doge-solana-core/src/program_state/auto_mint.rs:14-19 | at the offset and size computed for group g of a complete buffer lie exactly the records of that group |
| ExactlyOnce.ClaimMintsGroup | programs/doge-bridge/src/processor.rs:515-551 | an accepted claim mints one unclaimed group of the active list to its recipients, all token accounts of the mint named, and marks that group |
| ExactlyOnce.ClaimPaysInKind | programs/doge-bridge/src/cpi_impl.rs:57-100 | a claim mints only on the mint of its recipients' accounts |
| ExactlyOnce.OwedAfter | libraries/psy-doge-solana-core/src/program_state/mint_group.rs:43-56 | claiming a group removes exactly its records from what is owed |
| ExactlyOnce.AllOwed | libraries/psy-doge-solana-core/src/program_state/mint_group.rs:147-188 | before the first claim the whole list is owed |
| ExactlyOnce.ClaimKeepsAccounted | programs/doge-bridge/src/processor.rs:515-551 | a claim moves exactly its group from the owed to the minted |
| ExactlyOnce.BlockUpdateKeepsAccounted | programs/doge-bridge/src/processor.rs:303-468 | a single-block update adds its list to both sides of the account of mints |
| ExactlyOnce.ReorgKeepsAccounted | programs/doge-bridge/src/processor.rs:303-468 | so does a reorganization |
| ExactlyOnce.AdvanceKeepsAccounted | programs/doge-bridge/src/processor.rs:609-660 | so does the activation of the next block |
| Alignment.OrderedMeans | libraries/psy-doge-solana-core/src/program_state/block_update.rs:273-290 | the committed log has strictly increasing heights below its bound |
| Alignment.LoadKeepsAligned | libraries/psy-doge-solana-core/src/program_state/block_update.rs:318-384 | loading new blocks on a drained backlog keeps: committed blocks = activated blocks + waiting blocks, last item at the finalized height, heights increasing |
| Alignment.BlockUpdateExtends | libraries/psy-doge-solana-core/src/program_state/block_update.rs:130-248 | what an accepted single-block update does to height, committed log, backlog and activations |
| Alignment.ReorgExtends | libraries/psy-doge-solana-core/src/program_state/block_update.rs:250-385 | the same for a reorganization |
| Alignment.MoveTakesFirstWaiting | libraries/psy-doge-solana-core/src/program_state/auto_mint.rs:249-335 | moving on to the next block takes exactly the first waiting block |
| Alignment.ClaimKeepsAligned | libraries/psy-doge-solana-core/src/program_state/mint_group.rs:128-137 | a claim, also the one that finishes a block, changes neither the waiting blocks nor their heights |
| Drain.EveryClaimLowers | libraries/psy-doge-solana-core/src/program_state/auto_mint.rs:21-79 | every accepted claim lowers the lexicographic measure (twice the blocks left less one if active, groups remaining) |
| Drain.StuckForever | libraries/psy-doge-solana-core/src/program_state/auto_mint.rs:269-272 | no run of any operations but a second initialization drains a backlog that ends in an empty block, whose active block has more than 6144 mints or an unclaimed group that no one mint can pay, or that waits for a block no list of claimable size and groups opens |
| Drain.EmptyEndIsStuck | libraries/psy-doge-solana-core/src/program_state/block_update.rs:318-384 | a reorganization whose last block is empty loads a backlog that is stuck from the start |
| Drain.ActivatedIsOpened | libraries/psy-doge-solana-core/src/program_state/auto_mint.rs:286-332 | an activated block of claimable size and groups was opened by the lists in its two buffers |
| DrainRuns.ClaimSucceedsIff | programs/doge-bridge/src/processor.rs:515-568 | while a block is active, claiming any claimable group to its own recipients with the right flag succeeds if and only if they are token accounts of the mint named |
| DrainRuns.ActiveRound | programs/doge-bridge/src/processor.rs:470-568 | while a block that is not stuck is active some claim is enabled and makes progress |
| DrainRuns.IdleRound | programs/doge-bridge/src/processor.rs:570-711 | between blocks, uploading the next block's lists, in growth steps the runtime allows, and auto-advancing succeeds and makes progress |
| DrainRuns.DrainRun | programs/doge-bridge/src/processor.rs:570-711 | a run that drains any backlog that is not stuck |
| DrainRuns.DrainableIff | libraries/psy-doge-solana-core/src/program_state/mint_group.rs:102-146 | a backlog can be drained by some run if and only if it is not stuck |
| FullCycle.BlockIsMinted | programs/doge-bridge/src/processor.rs:258-711 | from any drained state every block of at most 6144 mints that a proved header commits to, each group of it payable on one mint, can be brought in and minted by a signer through the buffers derived from its key: some run ends drained under that header and adds exactly the records of its list to the mints made |
| FullCycle.FirstBlockIsMinted | programs/doge-bridge/src/processor.rs:212-711 | the same from a bridge that was only just initialized, the signer setting up its own buffer first, so the runs the theorems speak of exist |
| FullCycle.UnpayableBlockIsStuck | programs/doge-bridge/src/processor.rs:454-551 | an accepted update is stuck at once if and only if some group of its list cannot be paid on one mint |
| FullCycle.ReorgIsMinted | programs/doge-bridge/src/processor.rs:258-711 | the same for a proved reorganization of up to eight blocks that ends in a non-empty block and whose blocks can be opened and paid: some run ends drained under its header and mints, for each block with deposits, one list that opens its commitment |
| FullCycle.MintedInBetween | programs/doge-bridge/src/processor.rs:303-711 | from one drained state to a later one exactly the lists activated in between were minted, and they open the blocks committed in between |
| FullCycle.UpdateSucceeds | programs/doge-bridge/src/processor.rs:303-468 | with both lists uploaded to the signer's own buffers, a drained backlog and a proved header that commits to them the update is accepted |
| Driver.CallAcceptedIff | programs/doge-bridge/src/processor.rs:515-533 | a claim of a claimable group to its own recipients is accepted exactly if its unlock flag says whether it is the last one left and they are token accounts of the bridge's mint |
| Driver.ClaimRemaining | clients/rust/src/api/mints.rs:14-149 | each of the two client loops completes exactly if nothing remained, or the last group was unclaimed in a block of at most 6144 mints whose unclaimed groups all go to token accounts of the bridge's mint; it then has minted all that was owed in order and released the buffer |
| Driver.Visit | clients/rust/src/api/mints.rs:38-69 | one round of the loop skips a claimed group or claims it; it fails only if the groups are more than 256, the last one was claimed already, or one goes to other accounts |
| Driver.NothingToSend | clients/rust/src/api/mints.rs:20-42 | with an empty list or nothing remaining the loop has nothing to send |
| Driver.IdleLoopNeverAdvances | clients/rust/src/api/mints.rs:82-149 | between two blocks the loop with auto-advances finds every group marked, sends nothing and never advances, although a backlog that is not stuck can be drained |
| Ledger.Conservation | libraries/psy-doge-solana-core/src/program_state/core.rs:106-111 | from every initialization, whatever happened before, to the next one, over every run whose accepted operations name the bridge's own mint or move nothing, supply, queued payouts and unwithdrawn fees make up claimed mints, gross manual deposits and the header's fees; in the program's own u64 counters exactly if the fee total fits 64 bits |
| Ledger.StepKeepsLedger | programs/doge-bridge/src/processor.rs:470-1029 | every operation but a second initialization, admissible or not, in any state, keeps the balance in which tokens moved on other mints are counted in, and keeps the counters right |
| Ledger.StepKeepsBalanceIff | programs/doge-bridge/src/processor.rs:470-1029 | in any state an operation keeps the balance of the bridge's own token if and only if it names the bridge's mint, fails, or is an auto-advance whose group's records add up to zero |
| Ledger.ForeignWithdrawalUnbalances | programs/doge-bridge/src/processor.rs:713-742 | a withdrawal request that names another mint is accepted like any other and upsets the balance by exactly its amount |
| Ledger.InitializeForgetsQueue | programs/doge-bridge/src/processor.rs:212-256 | a second initialization takes exactly the queued payouts out of the balance |
| Ledger.InitializeKeepsConservationIff | programs/doge-bridge/src/processor.rs:212-256 | the law in the program's own counters outlives a second initialization if and only if the queued payouts and the fees charged equal the fees withdrawn |
| Ledger.UnpaidFeesAreForgotten | libraries/psy-doge-solana-core/src/program_state/core.rs:78-111 | with nothing queued and fees charged but not withdrawn it breaks that law, although the balance stays |
| Ledger.ChainFeesArePaidAgain | libraries/psy-doge-solana-core/src/program_state/operator.rs:13-27 | after it the operator is paid the header's fees in full, however often they were paid before |
| Ledger.ConservationWithStrays | libraries/psy-doge-solana-core/src/program_state/core.rs:106-111 | from every initialization to the next the law holds exactly when the tokens moved on other mints are counted in; fees withdrawn and amounts requested are counted right |
| Ledger.DepositKeepsLedger | programs/doge-bridge/src/processor.rs:974-1029 | a manual deposit keeps that balance, whichever mint account it names; the scheduled fee is kept and exactly the rest is minted |
| Ledger.WithdrawKeepsLedger | programs/doge-bridge/src/processor.rs:713-742 | a withdrawal request keeps that balance, whichever mint account it names; the amount is burned, and the amount less the scheduled fee is queued for the given destination |
| Ledger.OperatorKeepsLedger | libraries/psy-doge-solana-core/src/program_state/operator.rs:13-27 | an operator fee withdrawal keeps the balance, and the withdrawn-fees counter never wraps |
| Ledger.FeeTotal | libraries/psy-doge-solana-core/src/program_state/core.rs:106-108 | the fee total of the program is the true total modulo 2^64 |
| RecentBlocks.RingHoldsLastEight | libraries/psy-doge-solana-core/src/program_state/block_update.rs:243-246 | after every run, second initializations included, the ring read from its oldest slot is the last eight states recorded by single-block updates since the last initialization, the state that one was given repeated before them |
| RecentBlocks.ManualClaimAcceptedIff | libraries/psy-doge-solana-core/src/program_state/core.rs:234-252 | a manual claim is accepted exactly if the first state with the claimed deposit root, header first and then slots in order, carries the block root, is high enough and valid, and the fee leaves something on both sides |
| RecentBlocks.ManualClaimRestsOnRecentState | libraries/psy-doge-solana-core/src/program_state/core.rs:218-252 | in every run, second initializations included, an accepted claim's two roots come from one state at least as high as the output's block: the current one or one of those last eight |
| RecentBlocks.ShadowedClaimFails | libraries/psy-doge-solana-core/src/program_state/core.rs:224-229 | a state in a later slot does not help when an earlier slot has the same deposit root with another block root |
| RecentBlocks.ScanSlots | libraries/psy-doge-solana-core/src/program_state/core.rs:224-231 | the scan loop finds the first slot with the root |
| Acceptance.BlockUpdateAcceptedIff | programs/doge-bridge/src/processor.rs:303-468 | a block update is accepted if and only if it comes with the signer's own buffers, the mint buffer can be locked, nothing is pending, the finalized height rises by one and the tip height rises, the deposit index moves up by at most 65535, the verifier accepts the proof for the digest of both headers, configuration and custodian written out, and either there are no new deposits and the list hash is that of the empty list, or the two buffers show exactly the lists the header commits to, for its height |
| Acceptance.BlockUpdateEffect | libraries/psy-doge-solana-core/src/program_state/block_update.rs:216-248 | an accepted one replaces the header and one ring slot, loads the new block with nothing claimed and keeps the buffer locked, or releases the buffer and leaves the backlog alone, and changes nothing else |
| Acceptance.ReorgAcceptedIff | libraries/psy-doge-solana-core/src/program_state/block_update.rs:250-385 | a reorganization is accepted if and only if the like holds, with as many extra blocks as the height rises less one, a proof whose digest covers all of them, and either no block carrying deposits or at most eight from the first such block on, whose lists the two buffers show for its height |
| Acceptance.ReorgEffect | libraries/psy-doge-solana-core/src/program_state/block_update.rs:318-384 | an accepted one replaces the header and loads exactly the blocks from the first that carries deposits on, at its height, with nothing claimed |
| Acceptance.ReorgBuffers | programs/doge-bridge/src/processor.rs:454-465 | and keeps the buffer locked if the deposit index moved, else releases it |
| Acceptance.EmptyBlockPasses | programs/doge-bridge/src/processor.rs:454-465 | with nothing pending and the owner's buffers ready, every proved block without deposits is accepted and leaves nothing pending, nothing locked and the buffers as ready as before |
| Acceptance.EmptyBlocksPass | programs/doge-bridge/src/processor.rs:258-279 | so any chain of proved blocks without deposits is accepted in a row, and the bridge ends at the last header |
| Addresses.BuffersStayHome | programs/pending-mint-buffer/src/lib.rs:191-203 | whatever operations are sent, every mint buffer sits at the address derived from its writer |
| Addresses.UpdatesUseOwnBuffers | programs/doge-bridge/src/processor.rs:328-341 | so an accepted update uses a mint buffer that its own signer wrote, unless another key derives the same address |
| ClaimAcceptance.MintGroupAcceptedIff | programs/doge-bridge/src/processor.rs:470-568 | claiming a group is accepted if and only if the operator asks, on the bridge's mint, for an unclaimed group below 256 of the active block, from the buffer the tracker names, with the unlock flag exactly on the last group and exactly the recipients of the group's records, all token accounts of the mint |
| ClaimAcceptance.ClaimAcceptedIff | programs/doge-bridge/src/processor.rs:515-568 | the same for the claim itself, whoever asks and whichever mint is named |
| ClaimAcceptance.ClaimEffect | programs/doge-bridge/src/processor.rs:515-568 | an accepted claim mints exactly the records of its group, closes the group, and with the last one moves to the next block and releases the buffer, which can be locked again at once; nothing else changes |
| ClaimAcceptance.AutoAdvanceAcceptedIff | programs/doge-bridge/src/processor.rs:570-711 | an auto-advance is accepted if and only if it claims an open group of the active block, or no block is active, the first pending block that carries deposits is shown by the two buffers for its height, the mint buffer can be locked, and the claim asks for one of its groups |
| Payments.DepositAcceptedIff | libraries/psy-doge-solana-core/src/program_state/core.rs:234-257 | a manual deposit is accepted if and only if it rests on a recent state, the deposit schedule takes a fee and leaves something, and the token program can pay the recipient |
| Payments.DepositEffect | libraries/psy-doge-solana-core/src/program_state/core.rs:253-268 | an accepted one mints the amount less the scheduled fee, appends exactly that deposit, adds the fee to the counter, and changes nothing else |
| Payments.WithdrawalAcceptedIff | libraries/psy-doge-solana-core/src/program_state/core.rs:151-162 | a withdrawal request is accepted if and only if the withdrawal schedule takes a fee and leaves something, and the burn succeeds |
| Payments.WithdrawalEffect | libraries/psy-doge-solana-core/src/program_state/core.rs:162-169 | an accepted one burns the amount, queues the amount less the scheduled fee for exactly the given destination, adds to both counters, and changes nothing else |
| Payments.FeePaymentAcceptedIff | programs/doge-bridge/src/processor.rs:925-972 | the operator is paid if and only if asking as the operator, on the bridge's mint, while some booked fee is unpaid and the token call succeeds |
| Payments.FeePaymentEffect | libraries/psy-doge-solana-core/src/program_state/operator.rs:13-27 | exactly the unpaid part of the booked fees is minted, the withdrawn-fees counter then equals the booked total, and asking again at once gets nothing |
| Payments.BooksAreRequests | libraries/psy-doge-solana-core/src/program_state/core.rs:151-170 | over every run without a second initialization the queue grows by exactly the entries of the accepted requests, in order, with their amounts and destinations; likewise the list of deposits; the fee schedules stay |
| Payments.QueueSinceInitialization | libraries/psy-doge-solana-core/src/program_state/core.rs:78-105 | whatever happened before the last initialization, queue and deposits hold exactly what was accepted since |
| ProofDigests.UpdateIsProved | libraries/psy-doge-solana-core/src/program_state/block_update.rs:183-194 | an accepted single-block transition carries a proof for the digest of old header, new header, fee configuration and custodian, written out |
| ProofDigests.ReorgIsProved | libraries/psy-doge-solana-core/src/program_state/block_update.rs:305-316 | an accepted reorganization carries one whose digest also chains all its extra blocks |
| ProofDigests.UpdateDigestBinding | libraries/psy-doge-solana-core/src/public_inputs/mod.rs:34-47 | equal single-block digests force the same old and new header, fee configuration and custodian, unless hashed messages collide |
| ProofDigests.ReorgDigestBinding | libraries/psy-doge-solana-core/src/public_inputs/mod.rs:65-85 | equal reorganization digests force the same headers, extra blocks, fee configuration and custodian, so a proof fixes what is loaded, unless hashed messages collide or hash to zero |
| ProofDigests.BacklogHashIsChain | libraries/psy-doge-solana-core/src/public_inputs/mod.rs:49-63 | the backlog hash is the chain of block digests, folded from the front |
| ProofDigests.ParseConfigBytes | libraries/psy-doge-solana-core/src/program_state/core.rs:22-34 | the six fee parameters stand at their places in the hashed 48 bytes |
| Headers.ParseHeaderBytes | libraries/psy-bridge-core/src/header.rs:83-109 | every field of the header stands at its place in the hashed bytes and is read back from there |
| MintBufferRuns.LockIffComplete | programs/pending-mint-buffer/src/lib.rs:96-102 | after any sequence of instructions a lock succeeds exactly if the account is an unlocked buffer of that locker in which every group was inserted at full size; its slots then hold the hashes of exactly those byte ranges |
| MintBufferRuns.NoGroupTwice | programs/pending-mint-buffer/src/lib.rs:133-156 | after any sequence of instructions an accepted insert names a group not inserted since the last reinitialization, so each group is inserted once |
| MintBufferRuns.CounterMeansEveryGroup | programs/pending-mint-buffer/src/lib.rs:133-156 | the counter equals the count exactly if every group was inserted at full size, and the buffer is then complete |
| MintBufferRuns.FullByCounting | programs/pending-mint-buffer/src/lib.rs:133-156 | the counting argument: inserts within their capacities sum to the count exactly if each is full |
| MintBufferRuns.RunKeepsInvariant | programs/pending-mint-buffer/src/lib.rs:162-372 | the invariant behind it over every run: inserted groups stay in place, their hashes in their slots, the length never exceeds the exact one, the counter is the sum of the inserts |
| MintBufferRuns.InsertGroupWrites | programs/pending-mint-buffer/src/lib.rs:133-156 | an accepted insert writes its own slot and records and nothing else |
| MintBufferRuns.LockedIsComplete | programs/pending-mint-buffer/src/lib.rs:96-102 | a locked buffer is complete |
| MintBufferRuns.FrozenWhileLocked | programs/pending-mint-buffer/src/lib.rs:72-111 | while locked no sequence of instructions, by any signers and whatever growth exposes, changes anything until the locker unlocks |
| MintBufferRuns.ZeroLockerIsNotFrozen | programs/pending-mint-buffer/src/lib.rs:77-79 | the one exception, exactly: a locked buffer whose locker is the all-zero key can be set up again |
| MintBufferRuns.UploadDelivers | clients/rust/src/buffer/pending_mint.rs:54-62 | a client upload of up to 14640 mints in the order of the groups, into any unlocked buffer, leaves exactly that list, ready to be locked |
| MintBufferRuns.UploadDeliversIff | programs/pending-mint-buffer/src/lib.rs:316-345 | an upload of any list in any order, with repetitions, leaves a buffer that can be locked if and only if the list has at most 65512 mints and every group found the body grown far enough when it was tried, and then it holds exactly the list; up to 7680 mints whatever growth exposes, beyond that if it exposes zeros |
| MintBufferRuns.InsertAcceptedIff | programs/pending-mint-buffer/src/lib.rs:133-156 | during an upload an insert of group g is accepted if and only if g is not in yet and the body, grown by one step, reaches the end of its records |
| MintBufferRuns.LastGroupFirstFails | programs/pending-mint-buffer/src/lib.rs:316-345 | tried first, the last group is refused exactly if the list needs more than one growth step |
| MintBuffer.WrappingGroupCountExact | programs/pending-mint-buffer/src/lib.rs:92 | the u16 group count of reinit is right exactly up to 65512 mints |
| MintBuffer.MemoryFields | programs/pending-mint-buffer/src/lib.rs:122-132 | the header fields other programs read from the raw bytes are the account's own |
| MintBufferRuns.ChangesAreAuthorized | programs/pending-mint-buffer/src/lib.rs:162-372 | an instruction changes an account only if it is a set-up of one without locker, or comes from its writer while unlocked, or is a lock or unlock by its locker |
| MintBufferRuns.UnlockEmpties | programs/pending-mint-buffer/src/lib.rs:103-111 | an accepted unlock clears count, groups, counter and lock byte and nothing else, and the locker can lock again at once |
| MintBufferRuns.ResizeGrows | programs/pending-mint-buffer/src/lib.rs:289-314 | a resize is accepted if and only if it comes from the writer of an unlocked buffer that is not too long, and brings the body one growth step closer to its full length |
| MintBufferAccount.BufferAccount.Setup | programs/pending-mint-buffer/src/lib.rs:72-88 | set-up in place does what the state machine says |
| MintBufferAccount.BufferAccount.Reinit | programs/pending-mint-buffer/src/lib.rs:245-287 | reinitialization in place, with growth, shrinking and clearing of the slots |
| MintBufferAccount.BufferAccount.Resize | programs/pending-mint-buffer/src/lib.rs:289-314 | resizing in place |
| MintBufferAccount.BufferAccount.Insert | programs/pending-mint-buffer/src/lib.rs:316-345 | an insert in place, with the growth before it |
| MintBufferAccount.BufferAccount.InsertPendingMints | programs/pending-mint-buffer/src/lib.rs:133-156 | the checks and the two writes of an insert |
| MintBufferAccount.BufferAccount.Lock | programs/pending-mint-buffer/src/lib.rs:96-102 | locking in place |
| MintBufferAccount.BufferAccount.Unlock | programs/pending-mint-buffer/src/lib.rs:103-111 | unlocking in place: count, groups, counter and lock byte are cleared, everything else stays |
| MintBufferAccount.BufferAccount.Process | programs/pending-mint-buffer/src/lib.rs:162-372 | a whole transaction, with the address check of set-up and the runtime's roll-back, is one step of the state machine |
| Commitment.CheckAcceptedIff | libraries/psy-doge-solana-core/src/program_state/block_update.rs:59-108 | the check of raw buffer memory accepts a count if and only if the first 32 bytes are the bridge's key, the two count fields agree with it, it is below 65535, all its records fit, and the hash from the count field over all group slots is the expected one |
| Commitment.ComputeMintsHash | clients/rust/src/bridge_client.rs:23-42 | the client's loop computes the two-level commitment of the list |
| Commitment.SerializeGroup | clients/rust/src/buffer/pending_mint.rs:54-62 | the client serializes exactly the records of the group |
| Commitment.CheckAcceptsExactlyItsList | libraries/psy-doge-solana-core/src/program_state/block_update.rs:59-108 | of a complete non-empty buffer of the bridge the check accepts exactly the client's hash of the list it holds, and reports its length |
| Commitment.AcceptedBuffer | libraries/psy-doge-solana-core/src/program_state/block_update.rs:59-108 | a complete buffer that is accepted belongs to the bridge and is committed as its list |
| Commitment.MintsHashBinding | clients/rust/src/bridge_client.rs:23-42 | lists with the same commitment are equal unless hashed messages collide |
| Mints.ParseMintListBytes | clients/rust/src/buffer/pending_mint.rs:54-62 | parsing the serialized list returns it |
| Mints.MintListBytesOfParse | clients/rust/src/buffer/pending_mint.rs:54-62 | serializing a parsed list returns the bytes |
| Tracker.ClaimKeepsConsistent | libraries/psy-doge-solana-core/src/program_state/mint_group.rs:43-56 | a claim adds its group to the marked ones, lowers the counter by one and keeps both in step |
| Tracker.RemainingZeroIffAllClaimed | libraries/psy-doge-solana-core/src/program_state/mint_group.rs:15-17 | the counter is zero exactly if every group is marked |
| Tracker.ClaimableGroups | libraries/psy-doge-solana-core/src/program_state/mint_group.rs:30-42 | a group can be claimed exactly if it exists, is unmarked and its index is below 256 |
| Tracker.SomeGroupClaimable | libraries/psy-doge-solana-core/src/program_state/mint_group.rs:30-42 | while anything remains of a block of at most 6144 mints some group can be claimed |
| Tracker.OversizedNeverDone | libraries/psy-doge-solana-core/src/program_state/mint_group.rs:30-42 | a block of more than 6144 mints never empties its tracker |
| Tracker.MaskIsShift | libraries/psy-doge-solana-core/src/program_state/mint_group.rs:18-22 | masks and shifts select the same bit |
| Backlog.GroupFormulasAgree | libraries/psy-doge-solana-core/src/program_state/block_update.rs:22-43 | all ways of counting groups agree on every u16 count, except the buffer program's, which agrees exactly up to 65512 |
| Backlog.GroupsPartition | clients/rust/src/buffer/pending_mint.rs:46-51 | the ranges of the groups partition the positions of the list |
| Backlog.GroupExtent | libraries/psy-doge-solana-core/src/program_state/auto_mint.rs:47-67 | the u16 size and offset of a group delimit exactly its records |
| Backlog.PrecheckAccepts | libraries/psy-doge-solana-core/src/program_state/auto_mint.rs:21-79 | of an active backlog the precheck accepts exactly the claimable groups of its own buffer |
| Backlog.PrecheckMeaning | libraries/psy-doge-solana-core/src/program_state/auto_mint.rs:21-79 | what an accepted precheck marks, whether it unlocks, and which records it delimits |
| Backlog.AppendNonEmpty | libraries/psy-doge-solana-core/src/program_state/mint_group.rs:147-188 | blocks that start with a non-empty one are loaded as they are, the first active |
| Backlog.FastForwardMeaning | libraries/psy-doge-solana-core/src/program_state/mint_group.rs:105-125 | fast-forwarding stops at the first non-empty item and changes nothing else that matters |
| Backlog.EmptyTailIsStuck | libraries/psy-doge-solana-core/src/program_state/auto_mint.rs:269-272 | with only empty blocks left no buffers set up another block |
| MintManagers.MintManager.MarkPendingMintsGroupClaimed | libraries/psy-doge-solana-core/src/program_state/mint_group.rs:128-137 | marking in place, with the index moving on after the last group |
| MintManagers.MintManager.FastForwardEmpty | libraries/psy-doge-solana-core/src/program_state/mint_group.rs:105-125 | the skip loop in place |
| MintManagers.MintManager.StandardAppendBlock | libraries/psy-doge-solana-core/src/program_state/mint_group.rs:147-188 | loading in place, with its copy loop |
| MintManagers.MintManager.RunAutoMintGroupPrecheck | libraries/psy-doge-solana-core/src/program_state/auto_mint.rs:21-79 | the precheck in place |
| MintManagers.MintManager.RunSetupNextPendingBuffer | libraries/psy-doge-solana-core/src/program_state/auto_mint.rs:249-335 | the set-up of the next block in place |
| BridgeProgram.Program.constructor | libraries/psy-doge-solana-core/src/program_state/core.rs:78-105 | the first initialization |
| BridgeProgram.Program.Initialize | programs/doge-bridge/src/processor.rs:212-256 | a later initialization overwrites the whole bridge state in place and touches nothing else |
| BridgeProgram.FirstWithDeposits | libraries/psy-doge-solana-core/src/program_state/block_update.rs:45-54 | the scan finds the first block with deposits |
| BridgeProgram.Program.MintRecords | programs/doge-bridge/src/processor.rs:545-551 | the mint loop mints exactly the records of the group on the mint account given, or fails |
| BridgeProgram.Program.ProcessMintGroup | programs/doge-bridge/src/processor.rs:470-568 | claiming a group in place, with the checks of buffer, mint and operator in order |
| BridgeProgram.Program.ProcessMintGroupAutoAdvance | programs/doge-bridge/src/processor.rs:570-711 | auto-advance in place, in the order set up, mark, lock, mint, unlock |
| BridgeProgram.Program.RunStandardSingleBlockTransition | libraries/psy-doge-solana-core/src/program_state/block_update.rs:130-248 | the single-block transition in place; when it succeeds, the proof verified against the digest of the old header, the new one, configuration and custodian |
| BridgeProgram.Program.RunBlockTransitionReorg | libraries/psy-doge-solana-core/src/program_state/block_update.rs:250-385 | the reorganization in place; when it succeeds, the proof verified against the digest that also covers all extra blocks |
| BridgeProgram.Program.ProcessBlockUpdate | programs/doge-bridge/src/processor.rs:258-280 | a single-block update from the signer's own buffers, with locking before and unlocking after, and a verified proof when it succeeds |
| BridgeProgram.Program.ProcessReorgBlocks | programs/doge-bridge/src/processor.rs:281-302 | a reorganization from the signer's own buffers, with locking before and unlocking after, and a verified proof of all its blocks when it succeeds |
| BridgeProgram.Program.ClaimManualDeposit | libraries/psy-doge-solana-core/src/program_state/core.rs:234-268 | a manual deposit in place: it appends exactly one entry, of the amount less the scheduled fee, and mints that |
| BridgeProgram.Program.ProcessRequestWithdrawal | libraries/psy-doge-solana-core/src/program_state/core.rs:151-170 | a withdrawal request in place: it queues exactly one entry, the amount less the scheduled fee for the given destination, and burns the amount |
| BridgeProgram.Program.OperatorWithdrawFees | libraries/psy-doge-solana-core/src/program_state/operator.rs:13-27 | an operator fee withdrawal in place: the counter then equals the booked fees and exactly its increase is minted |
| BridgeProgram.Program.Process | programs/doge-bridge/src/processor.rs:72-210 | one modelled transaction with roll-back of a failed one is one step of the state machine |
| BridgeProgram.Program.ProcessAll | programs/doge-bridge/src/processor.rs:72-210 | any sequence of such transactions leaves exactly the state of the run, so every theorem about runs holds of the program |
| TxoBuffer.ChangesAreAuthorized | programs/txo-buffer/src/lib.rs:125-199 | an instruction changes an account that exists only if it is signed by the owner's key |
| TxoBuffer.HeightStaysInBatch | programs/txo-buffer/src/lib.rs:125-199 | within a batch a height once set is never replaced by another |
| TxoBuffer.WriteAcceptedIff | programs/txo-buffer/src/lib.rs:176-199 | a write is accepted if and only if the owner sends it, in the open unfinalized batch or the next one, and it fits the body; it replaces exactly its bytes, raises the size to its end if that is larger, and reopens the next batch |
| TxoBuffer.SetLengthAcceptedIff | programs/txo-buffer/src/lib.rs:123-173 | setting the length is accepted if and only if the owner does it, in such a batch, for the height of an open batch that has one, and the body has or may take on the length; the exact header after it |
| TxoBuffer.FinalizedStep | programs/txo-buffer/src/lib.rs:46-56 | an instruction changes a finalized account exactly if it is accepted and names the next batch |
| TxoBuffer.FinalizedIsFrozen | programs/txo-buffer/src/lib.rs:46-56 | no sequence of instructions changes it before one does |
| TxoBuffer.UploadInAnyOrder | programs/txo-buffer/src/lib.rs:125-199 | set the length in steps the runtime allows, within an account of 10 MiB, write the pieces in any order and number, finalize: the body is the target |
| TxoBuffer.SingleOpenIff | programs/txo-buffer/src/lib.rs:22-44 | with a single length setting the upload succeeds if and only if the body need not grow by more than 10240 bytes and fits an account of 10 MiB |
| TxoIndices.ChunksArePieces | clients/rust/src/buffer/txo.rs:49-79 | the client's chunks in any order cover the data |
| TxoIndices.ParseIndexBytes | clients/rust/src/buffer/txo.rs:49-51 | parsing the little-endian list returns it |
| TxoIndices.AssembleTxoIndices | clients/rust/src/history.rs:1598-1622 | reassembly in any map order returns the list its chunks were cut from |
| TxoBufferAccount.OutputAccount.HandleBatchTransition | programs/txo-buffer/src/lib.rs:46-56 | the batch rule in place |
| TxoBufferAccount.OutputAccount.Process | programs/txo-buffer/src/lib.rs:61-205 | a whole transaction with roll-back, growth beyond the runtime's limits refused, is one step of the state machine |
| Bytes.LeastSignificantFirst | clients/rust/src/bridge_client.rs:31-48 | integers are written with the least significant byte first |
| PublicInputs.ComputeBacklogHash | libraries/psy-doge-solana-core/src/public_inputs/mod.rs:49-63 | the loop computes the chained hash of the backlog |
| PublicInputs.BacklogHashBinding | libraries/psy-doge-solana-core/src/public_inputs/mod.rs:49-63 | equal backlog hashes force equal lists of any lengths, unless messages collide or a digest is zero |
| PublicInputs.ReorgInputsBinding | libraries/psy-doge-solana-core/src/public_inputs/mod.rs:65-85 | equal reorganization inputs force equal headers' hashes, configuration, custodian and whole backlog, unless messages collide or a digest is zero |
| PublicInputs.ManualDepositBinding | libraries/psy-doge-solana-core/src/public_inputs/mod.rs:87-120 | equal manual-deposit inputs force all nine arguments equal, unless messages collide |
| PublicInputs.WithdrawalBinding | libraries/psy-doge-solana-core/src/public_inputs/mod.rs:11-32 | equal withdrawal inputs force equal arguments, unless messages collide |
| PublicInputs.DepositPlaces | libraries/psy-doge-solana-core/src/public_inputs/mod.rs:87-120 | the manual-deposit inputs are the hash of exactly the bytes in which every argument stands at its place |
| PublicInputs.WithdrawalPlaces | libraries/psy-doge-solana-core/src/public_inputs/mod.rs:11-32 | the withdrawal inputs likewise |
| Merkle.ComputeMerkleRoot | libraries/psy-bridge-core/src/crypto/hash/sha256_impl.rs:104-118 | the loop recomputes the root, and aborts exactly on more than 64 siblings or an index too large for them |
| Merkle.PathRecomputesRoot | libraries/psy-bridge-core/src/crypto/hash/sha256_impl.rs:104-118 | in a tree of any height over any leaves the path of position i recomputes the root |
| Merkle.RootBindsPath | libraries/psy-bridge-core/src/crypto/hash/sha256_impl.rs:104-118 | two paths of one index and length with the same root carry the same value and siblings unless messages collide |
| AppendTree.UpdateSiblings | libraries/psy-bridge-core/src/crypto/hash/merkle/append.rs:4-31 | the update loop turns the stored siblings of the old leaves into those of the new leaves and returns the root |
| AppendTree.Tree.constructor | libraries/psy-bridge-core/src/crypto/hash/merkle/fixed_append_tree.rs:79-85 | the empty tree stores what it needs of no leaves |
| AppendTree.Tree.Append | libraries/psy-bridge-core/src/crypto/hash/merkle/fixed_append_tree.rs:141-145 | after every append the tree stores what it needs of all leaves, its root is that of the padded tree over them as long as they fit, and its counter wraps after 2^64 - 1 |
| AppendTree.TopIsRoot | libraries/psy-bridge-core/src/crypto/hash/merkle/append.rs:4-31 | the root shown is that of the whole padded tree as long as the leaves fit |
| AppendTree.Tree.FromSiblings | libraries/psy-bridge-core/src/crypto/hash/merkle/fixed_append_tree.rs:101-114 | rebuilding from counter and stored siblings recomputes the root |
| AppendTree.SlotsGiveRoot | libraries/psy-bridge-core/src/crypto/hash/merkle/fixed_append_tree.rs:101-114 | the stored siblings are the path of the next free position |
| AppendTree.LostSiblings | libraries/psy-bridge-core/src/crypto/hash/merkle/fixed_append_tree.rs:32-54 | which stored siblings an earlier counter needs back |
| AppendTree.Tree.RevertToNextIndex | libraries/psy-bridge-core/src/crypto/hash/merkle/fixed_append_tree.rs:174-217 | going back with the lost siblings restores the earlier tree; the error cases exactly, with the abort on an earlier counter the tree has no room for |
| Fees.FeeMeaning | libraries/psy-doge-solana-core/src/utils/fees.rs:7-53 | when a fee is computed, fee plus net is the amount, and the fee is the scheduled one exactly if that fits 64 bits |
| Fees.FeeTruncates | libraries/psy-doge-solana-core/src/utils/fees.rs:7-29 | an input whose fee is truncated |
| Fees.NetIsMonotone | libraries/psy-doge-solana-core/src/utils/fees.rs:7-53 | the net never falls as the amount grows, for rates up to one |
| Fees.SplittingLowersFeeIff | libraries/psy-doge-solana-core/src/utils/fees.rs:7-53 | splitting lowers the scheduled fee exactly without a flat part when the roundings lose a whole unit |
| Fees.SplittingKeepsChargeIff | libraries/psy-doge-solana-core/src/utils/fees.rs:7-53 | with a flat part splitting does not lower the fee charged if and only if the fees of the parts overflow 64 bits together at most as often as the fee of the whole |
| Fees.SplittingCanLowerCharge | libraries/psy-doge-solana-core/src/utils/fees.rs:7-53 | a rate and an amount whose charge falls when it is split |
| TxoIndex.SeparateCombined | libraries/psy-bridge-core/src/txo_constants.rs:87-111 | unpacking a packed valid position returns it, below 2^53 |
| TxoIndex.CombineSeparated | libraries/psy-bridge-core/src/txo_constants.rs:100-111 | packing an unpacked number below 2^53 returns it |
| TxoIndex.CombineKeepsOrder | libraries/psy-bridge-core/src/txo_constants.rs:87-92 | packing keeps the lexicographic order, both ways |
| TxoIndex.HighBitsIgnored | libraries/psy-bridge-core/src/txo_constants.rs:100-105 | taking a number apart looks at its lower 53 bits only |
| TxoIndex.LeafAndBitSplit | libraries/psy-bridge-core/src/txo_constants.rs:154-158 | a packed number splits uniquely into a 45-bit leaf index and an 8-bit position |

## Left out

- RPC clients, monitors, command line, TypeScript clients, rate limiting, retries: network input and output around the modelled calls.
- The rest of `clients/rust/src/history.rs`: heuristics over fetched transactions; only the reassembly of chunks is modelled.
- ZK verifiers, secp256k1, SHA-256 and RIPEMD-160 internals: an arbitrary predicate and an arbitrary function.
- The derivation of addresses, rent, lamports, account ownership by programs: the derived addresses are an arbitrary function of the key; an account of the wrong program reads as missing.
- Processing, replaying and snapshotting withdrawals, the Wormhole message, pausing: they do not touch the modelled state.
- The trees of manual deposits and requested withdrawals appear in the bridge's state as the lists of their entries; the append tree itself is modelled on its own.
- `revert_to_index` and the remaining proof getters of the append tree: unused variants.
- `run_auto_mint_group` and `run_auto_mint_group_old`: near copies of the precheck the processor uses.
- `programs/generic-buffer`, `programs/noop-shim`, `programs/manual-claim`, configuration builders: only easy members.
- The encoding of withdrawal requests as tree leaves: an easy round trip.
- Error values of the bridge's own instructions: the classes agree with the state machine on success and state; of the library's and the buffers' methods also the error values agree.
- BridgeProgram.Program.Process: has no operations for processing, replaying and snapshotting withdrawals, which the dispatcher also offers; they change none of the modelled fields.
- BridgeProgram.Program.ProcessAll: covers sequences of the operations of Process, for the same reason.
- AppendTree.Tree.FromSiblings: is stated for a counter the tree has room for; with a larger one the source aborts.
- Driver.ClaimRemaining: takes no other signer to act between its calls, because the source reads the tracker only once, and nothing but the accounts of the recipients to stop a token call.
- DrainRuns.DrainableIff: is stated for a client with one buffer of the bridge, because every address might otherwise be taken, and with token accounts that neither appear nor vanish; its runs take nothing but the accounts of the recipients to stop a token call, such as a supply beyond 64 bits.
- DrainRuns.ActiveRound: the same of token accounts and token calls.
- DrainRuns.IdleRound: the same of token accounts and token calls.
- DrainRuns.DrainRun: the same of token accounts and token calls.
- FullCycle.BlockIsMinted: the same of token accounts and token calls.
- FullCycle.FirstBlockIsMinted: the same of token accounts and token calls.
- FullCycle.ReorgIsMinted: the same of token accounts and token calls.
- MintBufferRuns.UploadDeliversIff: beyond 7680 mints asks that growth exposes zeros, because stale bytes in a slot would be taken for a group's hash.
