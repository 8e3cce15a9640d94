# PayLink verification project

A Dafny 4.11 model of the PayLink chain and of two backend libraries beside it, with proofs.

The chain executes transactions on an in-memory state database: PayLinks are created, voted on by staked validators, settled once a quorum agrees on a payment proof, cancelled, failed or transferred; tokens are sent, staked, withdrawn, slashed, minted as fees and burned. One proposer executes a batch, keeps what succeeded and commits a signed block; followers re-execute and compare state roots; a restarted node replays its stored blocks. The two libraries are the idempotency-key store and the double-entry ledger.

The project has two layers. The *value layer* (`ChainState`, `Fees`, `Executor`, `Rules`, `Blocks`) says what every operation does to a state value, with 64-bit wrap-around written out; `Laws`, `Accounts`, `Staking`, `Ownership`, `Provenance` and `Announcements` say independently of its definitions what that means. The *object layer* (`Dicts`, `Tables`, `Slices`, `BankTables`, `LinkTables`, `StateDb`, `Distributor`, `TxExecutor`, `Mempool`, `ChainStore`, `Node`, `Producer`, `FullNode`) is the code as it works: maps and records behind pointers changed in place, slices that shift their backing arrays, a stack of snapshots, loops, buffers and early returns. Every method of the object layer is proved against the value layer, and the theorems about whole runs, chains and nodes are proved on the value layer.

Main results:

- **Authority.** Every kind of transaction commits if and only if a condition in the fields of the state and the transaction holds (`Laws.CommitsIff`), and every balance, validator record, PayLink, vote, operator and event after it is determined field by field (`Accounts.BalanceLaw`, `Staking.StakeLaw`, `Ownership.LinkLaw`, `Announcements.EventLaw`); the executor on the heap obeys these laws (`Safety.ExecuteLawfully`). Over whole runs: nobody but the sender of a transaction pays for it (`Accounts.OnlySenderPays`); a stake falls only by the administrator, the validator's own withdrawal, evidence that shows an offence or a wrap (`Staking.RunStakeFalls`, `Staking.CleanStake`); a PayLink moves only by whom its history entitles (`Provenance.TransferTraced`); a withdrawal is completed if and only if its request is a cooldown old, for exactly the amount asked (`Provenance.CompletionTraced`).
- **Agreement.** The successful transactions of a batch alone re-execute to the same state and events (`Blocks.WinnersReexecute`), so a follower accepts a proposed block if and only if the admin proposes and signs it (`Blocks.FollowerAgrees`). A leader and a follower that agree on chain and state agree after any number of rounds (`FullNode.PropagateAll`). Through any list of submitted transactions, received blocks, production rounds and crashes with restart, a node's chain only grows and its state is exactly the state of that chain (`FullNode.Drive`, `FullNode.Live`). The tip hash fixes the whole state (`Blocks.TipFixesState`).
- **Conservation.** Whatever the parameters, supply equals balances plus stakes along a run if and only if no committed withdrawal is overdrawn and no settlement fee drifts, which takes a mint in which the supply wraps and the credited balance does not, or the other way round (`Conservation.RunConservedIff`). Both happen from a conserved genesis: `Conservation.OverdraftExample`, `Conservation.GreedyFeeExample`. A fee that fits does not drift (`Conservation.FitNoDrift`), and with sound percentages and cap every fee fits (`Conservation.SoundFeesFit`). Over every run supply plus burned moves by the announced fees and what moved unannounced, modulo the word size, and exactly by the fees along orderly runs (`Books.RunBooks`, `Books.SupplyPlusBurned`).
- **Fee distribution.** What a distribution does is proved for every bank, fee and set of voters (`Payouts.DistributionIff`). It is meant to be all or nothing and is not: the exact condition under which it pays some voters and then fails is `Payouts.HalfwayIff`. This happens from a conserved genesis with percentages above 100 (`HalfPaid.HalfwayExample`) and, after an overdrawn withdrawal, with sound ones (`HalfPaid.OverdraftHalfwayExample`); with sound parameters no run pays half-way before a withdrawal is overdrawn (`Conservation.SoundRunsPayWhole`).
- **Settlement.** No PayLink settles twice and no proof settles two PayLinks (`Settlement.SettledOnce`); vote counts, rules and indexes are exact in every reachable state (`Lifecycle.RunKeepsLinks`, `Indexes.ReachableIndexed`); the announced transitions give exactly the statuses (`Machine.RunTracked`).
- **Isolation.** All fourteen collections of the state live on the mutable heap, and snapshots are untouched by later writes, in-place shifts of index slices included, and nest correctly (`StateDb.StateDB.Snapshot`, `StateDb.StateDB.Revert`, `Slices.SliceIndex.Remove`), so failed transactions and refused blocks leave no trace, and only events of committed blocks are published, in order.
- **Commitment.** The Merkle root is injective on duplicate-free leaves of any number, and equal state roots mean equal covered tables (`Merkle.RootInjective`, `StateRoot.RootIff`).
- **Around the chain.** Exact fee shares under wrap-around, the mempool's drain order, quorum intersection, idempotency under interleaving and expiry, and a ledger that always balances.

Where the code does less than its documentation says, the code is followed and the exact condition is proved: withdrawals completed after a slash (`Supply.CompleteConservesIff`), active validators below the minimum stake (`Validators.RunStakedIff`), duplicate or overflowing genesis entries (`Supply.GenesisConservedIff`), an administrator failing a PayLink that is no longer open (`Machine.FsmIff`), the quorum rounding and the first-vote rule (`Quorum.RoundsUpIff`, `Quorum.AcceptedIffFirst`, `Quorum.EveryOrderIff`), rules that pass creation but can never be met on their PayLink (`Meetable.RuleMeetableIff`, `Reachable.GetsVerifiedIff`), fee percentages above 100 (`Fees.FeeSplitExactIff`), fees paid half-way (`Payouts.HalfwayIff`, `Payouts.PlainHalfwayIff`), expiring reservations (`Idempotency.StepExclusiveIff`), a zero address that counts as approved while nobody is (`Provenance.TransferTraced`, `Provenance.ZeroAddressExample`) and nonces after a full cycle (`History.NoReplay`).

Conventions: addresses and hashes are natural numbers, ordered as their big-endian bytes are; hashes of structured data are symbolic, so equal hashes mean equal contents; `uint64` and `int64` are bounded types with explicit wrapping operations.

`dafny verify dfyconfig.toml` checks everything.

## Model

| member | source | states |
|---|---|---|
| `Blocks.WinnersReexecute` | paylink-chain/internal/chain/executor.go:871-892 | for every state, timestamp and list, the successful transactions alone re-execute with every verdict true, to the same state and the same events |
| `Blocks.WinnersAuthentic` | paylink-chain/internal/chain/executor.go:874-877 | only transactions with a valid signature succeed |
| `Blocks.WinnersExact` | paylink-chain/internal/consensus/block_producer.go:131-139 | the transactions kept for the block are exactly those with a success receipt, and none are kept exactly when all failed |
| `Blocks.FollowerAgrees` | paylink-chain/internal/chain/processor.go:50-77 | a follower on the same state and tip accepts a proposed block if and only if the proposer is the genesis admin and signs with the admin key, and then reaches the proposer's state and events |
| `Blocks.SignatureFixesBlock` | paylink-chain/internal/chain/processor.go:82-140 | one signature admits one block: two acceptable blocks with the same signature are equal in header, transactions and commit, whatever state and tip the followers are on |
| `Blocks.ChainHeights` | paylink-chain/internal/chain/blockchain.go:84-103 | every block of a valid chain stands at its height, carries the hash of its header, its true transaction root and its predecessor's hash |
| `Blocks.ChainExecutes` | paylink-chain/internal/chain/replay.go:38-45 | every stored block executes without a failed transaction on the state left by the blocks before it |
| `Blocks.TipRoot` | paylink-chain/internal/chain/replay.go:48-51 | the tip header holds the root of the state after the whole chain |
| `Blocks.TipFixesHeaders` | paylink-chain/internal/chain/blockchain.go:84-103 | two valid chains with equal tip hashes have the same length and the same headers |
| `Blocks.TipFixesState` | paylink-chain/internal/chain/blockchain.go:84-103 | with collision-free transaction hashes, equal tip hashes mean equal states and equal committed events, including the tables the state root leaves out |
| `Blocks.BlockIsRun` | paylink-chain/internal/chain/executor.go:871-892 | executing a block is running its transactions one by one |
| `Blocks.ChainIsRun` | paylink-chain/internal/chain/replay.go:29-46 | the state and events of a chain are those of one run over all its transactions |
| `Blocks.ComputeTxRoot` | paylink-chain/internal/chain/blockchain.go:211-220 | the loop computes the root over the ordered transaction hashes, the zero root for none |
| `ChainStore.Blockchain.Init` | paylink-chain/internal/chain/blockchain.go:31-55 | whatever the store holds: a recorded height loads the block at it, if any, and changes nothing; otherwise the genesis block starts the chain, or a failed write leaves the store as it was; a consistent store stays consistent |
| `ChainStore.Blockchain.CheckLinkage` | paylink-chain/internal/chain/blockchain.go:84-103 | accepts exactly the blocks that extend the tip and carry their true hash |
| `ChainStore.Blockchain.CommitBlock` | paylink-chain/internal/chain/blockchain.go:71-79 | succeeds exactly for linked blocks whose batch is written, with any receipts; then the chain grows by that block, and otherwise nothing changes |
| `ChainStore.Blockchain.StoreBlock` | paylink-chain/internal/chain/blockchain.go:224-259 | any block and receipts: block, hash index, height, receipts and tip change together or not at all; a next block keeps the indexes exact, and located receipts keep all receipts located |
| `ChainStore.Blockchain.StoreReceipts` | paylink-chain/internal/chain/blockchain.go:199-206 | any receipts are written one by one up to the first failed write; the chain is untouched |
| `ChainStore.Blockchain.GetBlock` | paylink-chain/internal/chain/blockchain.go:106-120 | a block is found by hash exactly when it is on the chain |
| `ChainStore.WithReceiptsLocate` | paylink-chain/internal/chain/blockchain.go:235-250 | writing receipts that locate their transactions keeps every stored success receipt naming the height and position of its transaction |
| `Node.CreateGenesisBlock` | paylink-chain/internal/chain/genesis.go:61-85 | the genesis block has height zero, no transactions and the root of the genesis state |
| `Node.BlockProcessor.Validate` | paylink-chain/internal/chain/processor.go:82-140 | passes exactly linked, properly signed blocks with the true hash and transaction root and only authentic transactions |
| `Node.BlockProcessor.Apply` | paylink-chain/internal/chain/processor.go:50-78 | commits exactly blocks that execute to the declared root and are linked; otherwise state, snapshot stack, chain and bus are as before |
| `Node.BlockProcessor.ProcessBlock` | paylink-chain/internal/chain/processor.go:36-79 | a block above the tip enters the chain exactly when it is acceptable and the store takes it; its events are published in order; a stale block is ignored and a refused one leaves no trace |
| `Node.Begin` | paylink-chain/internal/chain/processor.go:50-51 | the block is executed on top of a snapshot of the exact pre-block state |
| `Node.Abort` | paylink-chain/internal/chain/processor.go:54-55 | an aborted block restores the snapshot and the old snapshot depth, and drops its events |
| `Node.Seal` | paylink-chain/internal/chain/processor.go:76-77 | a committed block keeps its state, drops the snapshot and publishes its events |
| `Node.Replay` | paylink-chain/internal/chain/replay.go:20-55 | succeeds exactly when every stored block is present, re-executes without failure and leads to the tip's root; then the state is that of the whole chain |
| `Node.ReplayOne` | paylink-chain/internal/chain/replay.go:38-45 | re-executes one block and reports whether every transaction succeeded |
| `Node.ChainReplays` | paylink-chain/internal/chain/replay.go:29-46 | a valid chain re-executes from genesis without a failed transaction |
| `Node.ChainRebuilds` | paylink-chain/internal/chain/replay.go:20-55 | the stored blocks of a valid chain always replay from genesis to the tip's root |
| `Node.ChainGrows` | paylink-chain/internal/chain/processor.go:50-77 | a block that extends the tip and executes keeps the chain valid and moves the state accordingly |
| `Producer.CollectWinners` | paylink-chain/internal/consensus/block_producer.go:131-139 | the loop collects exactly the successful transactions in order |
| `Producer.WinnerAt` | paylink-chain/internal/consensus/block_producer.go:142-149 | the index tagged on a success receipt is the position of the transaction in the block |
| `Producer.Tag` | paylink-chain/internal/consensus/block_producer.go:142-149 | receipts carry the height, and successes their rank among the successes |
| `Producer.TaggedWinnersLocated` | paylink-chain/internal/consensus/block_producer.go:142-149 | every tagged success receipt locates its transaction in the committed block |
| `Producer.BlockProducer.Forge` | paylink-chain/internal/consensus/block_producer.go:170-216 | the signed block has next height, tip hash, state root and transaction root; without a usable key there is none |
| `Producer.BlockProducer.Propose` | paylink-chain/internal/consensus/block_producer.go:126-224 | a block is committed exactly when something succeeded, the key signs and the store takes it; otherwise state, snapshots, chain and bus are as before |
| `Producer.BlockProducer.ProduceBlock` | paylink-chain/internal/consensus/block_producer.go:97-224 | one round drains the first 500 transactions, commits the proposal or puts the successes back, so that an abort loses exactly the failures |
| `Producer.PutBack` | paylink-chain/internal/consensus/block_producer.go:161-168 | putting the successes of a drained batch back into the pool removes exactly the failures from it |
| `FullNode.Open` | paylink-chain/cmd/paylinkd/main.go:104-108 | a store with any content is opened: an existing one at its recorded tip, an empty one with the genesis block; a consistent store yields a valid chain |
| `FullNode.Boot` | paylink-chain/cmd/paylinkd/main.go:104-135 | a node starts on a store with any content: it is refused if and only if the recorded chain does not replay from genesis (or the genesis block cannot be written); on the store of a valid chain the database then holds the state of that chain and nothing has been published |
| `FullNode.Restart` | paylink-chain/internal/chain/replay.go:10-19 | after a crash, booting from the store brings back the same chain and the same state |
| `FullNode.FullNode.constructor` | paylink-chain/cmd/paylinkd/main.go:139-148 | wiring a booted node keeps it in step with its chain |
| `FullNode.FullNode.Receive` | paylink-chain/internal/chain/processor.go:36-79 | any received block leaves the chain valid and at most longer by that block, the state equal to the chain's, and the bus equal to the events committed since boot; new objects are fresh, so receptions compose |
| `FullNode.FullNode.Tick` | paylink-chain/internal/consensus/block_producer.go:97-224 | any production round does the same, with the chain longer by exactly the produced block |
| `FullNode.FullNode.Accept` | paylink-chain/internal/txpool/mempool.go:33-56 | a transaction for the pool leaves chain, state and bus alone |
| `FullNode.Do` | paylink-chain/cmd/paylinkd/main.go:104-148 | a transaction, a block, a production round or a crash with restart leaves a valid node on a chain that only grew |
| `FullNode.Reboot` | paylink-chain/cmd/paylinkd/main.go:104-148 | after a crash a new node on the old store has the chain and the state of the lost one |
| `FullNode.Drive` | paylink-chain/cmd/paylinkd/main.go:104-148 | after any list of such events, in any order, the node is valid and its chain extends the old one |
| `FullNode.Found` | paylink-chain/cmd/paylinkd/main.go:104-148 | a node on an empty store starts valid |
| `FullNode.Live` | paylink-chain/cmd/paylinkd/main.go:104-148 | from an empty store through any list of events: a valid chain and exactly its state |
| `FullNode.ProposalGrows` | paylink-chain/internal/consensus/block_producer.go:170-224 | the proposer's own block continues its chain, state and announcements whoever signs it |
| `FullNode.Propagate` | paylink-chain/internal/consensus/block_producer.go:97-233 | a leader and a follower that share nothing and agree on chain and state agree again, still sharing nothing, after a round of the leader and its delivery |
| `FullNode.PropagateAll` | paylink-chain/internal/consensus/block_producer.go:97-233 | they agree after any number of rounds, with any transactions reaching the leader in between |
| `FullNode.ProposalAccepted` | paylink-chain/internal/chain/processor.go:82-140 | the admin's proposal is acceptable to every follower on the same chain and state |
| `Safety.ChainStateSound` | paylink-chain/internal/chain/executor.go:105-161 | every chain from genesis leads to a state with sound PayLinks, proofs, indexes and roster |
| `Safety.ChainSettlesOnce` | paylink-chain/internal/chain/executor.go:288-320 | over a whole chain no PayLink settles twice and no proof settles two |
| `Safety.ChainConserves` | paylink-chain/internal/state/validator_state.go:148-183 | over every chain supply plus burned is genesis supply plus fees plus what moved unannounced, modulo the word size; from a conserved genesis without a slash below a pending withdrawal or a drifting fee tokens are conserved and only half-way payments move unannounced; if every due fee fits, the equation is exact if and only if the burn counter has not wrapped |
| `Safety.NodeStateSound` | paylink-chain/internal/chain/executor.go:105-161 | the state of a running node is sound after any mix of blocks |
| `Safety.RolledBack` | paylink-chain/internal/chain/processor.go:50-66 | executing any block and reverting it leaves the state, with its exact indexes, and the snapshot stack as they were |
| `Supply.HoldingsBound` | paylink-chain/internal/state/state.go:461-477 | no balance together with a stake exceeds the total held |
| `Supply.CreditExact` | paylink-chain/internal/state/account_state.go:94-103 | a credit within the word size raises balance and holdings by exactly the amount |
| `Supply.TransferConserves` | paylink-chain/internal/state/account_state.go:73-91 | a transfer conserves the supply and does not wrap the receiver |
| `Supply.StakeConserves` | paylink-chain/internal/state/validator_state.go:34-60 | staking moves value without wrapping the stake |
| `Supply.CompleteConservesIff` | paylink-chain/internal/state/validator_state.go:98-121 | completing a withdrawal conserves the supply if and only if the stake still covers it (or its own credit wraps) |
| `Supply.SlashConserves` | paylink-chain/internal/state/validator_state.go:152-183 | under conservation a slash destroys exactly its amount and the drift clamp is never taken |
| `Supply.MintConserves` | paylink-chain/internal/state/state.go:461-477 | under conservation a mint succeeds if and only if the supply stays under the cap or its wrapped sum does; it then conserves if and only if supply and credited balance wrap together, and is exact when the sum does not wrap |
| `Supply.MintGap` | paylink-chain/internal/state/state.go:461-477 | whatever the bank, a mint that succeeds moves holdings minus supply by one word per wrap the other side does not share |
| `Payouts.DistributionIff` | paylink-chain/internal/fee/distributor.go:28-104 | for every bank, fee and voters: without active stake or room under the cap (as the wrapped sum says) nothing happens; otherwise exactly the voters before the first share that takes the running supply over the cap are paid; if that is everybody, the payouts are the shares, the treasury gets its part, the supply grows by both and the burn share is recorded; if not, the distribution fails and what was paid stays |
| `Payouts.HalfwayIff` | paylink-chain/internal/fee/distributor.go:48-104 | a distribution is all or nothing unless it passes the first check, a share later takes the running supply over the cap, and a voter before it has a share that is not zero |
| `Payouts.PlainHalfwayIff` | paylink-chain/internal/fee/distributor.go:48-104 | for distinct voters, while supply and reward fit the word: a fee is paid half-way if and only if the first check passes although supply plus reward exceeds the cap, and supply plus the first non-zero share does not |
| `Payouts.SoundFeesWhole` | paylink-chain/internal/fee/distributor.go:48-54 | with shares of at most 100 together and a cap that leaves room for a fee, no settlement fee is paid half-way while all stakes together fit the word |
| `Payouts.SharesModular` | paylink-chain/internal/fee/distributor.go:70-89 | whatever wraps, the shares add up to the reward modulo the word size |
| `Payouts.PaidByStake` | paylink-chain/internal/fee/distributor.go:56-89 | the voters that are active validators are paid, in order of address, each the floor of its part of the reward by stake and the last what is left |
| `Payouts.DistributionBooks` | paylink-chain/internal/fee/distributor.go:28-104 | the supply moves by reward and treasury part, or by what a failed distribution minted, modulo the word size |
| `Payouts.DriftClosed` | paylink-chain/internal/fee/distributor.go:28-104 | the drift in closed form: how often the supply wraps under what is minted, minus how many receivers' balances do |
| `Conservation.SoundRunsPayWhole` | paylink-chain/internal/chain/executor.go:731-758 | with sound parameters no settlement of any run from a conserved state is paid half-way before a withdrawal is overdrawn |
| `HalfPaid.HalfwayExample` | paylink-chain/internal/chain/executor.go:752-758 | with shares of 90 and 20 a run of five transactions from a conserved genesis settles a PayLink, pays the first of two voters and announces no fee |
| `HalfPaid.OverdraftHalfwayExample` | paylink-chain/internal/chain/executor.go:752-758 | with sound parameters, after an overdrawn withdrawal left a wrapped stake, a run of ten transactions pays the first of three voters nearly three times the reward and the others nothing |
| `Supply.DistributionGap` | paylink-chain/internal/fee/distributor.go:28-104 | for every bank, fee and outcome, also half-way failures, a distribution moves holdings minus supply by its drift in words and leaves the validators alone |
| `Supply.MintAllExact` | paylink-chain/internal/fee/distributor.go:70-89 | minting a list that fits pays every listed address exactly its share and nobody else |
| `Supply.VoterStakeExact` | paylink-chain/internal/fee/distributor.go:34-48 | the wrapping stake sum is the true sum under conservation |
| `Supply.GenesisConservedIff` | paylink-chain/internal/state/state.go:147-154 | genesis is conserved if and only if the overwritten balances are the words lost to wrap-around and the rest fits under the cap; below one word: if and only if no entry replaces an earlier non-zero one and the sum fits |
| `Supply.TwiceListedExample` | paylink-chain/internal/state/state.go:147-154 | an address listed with 5 and then 7 leaves a supply of 12 and holdings of 7 |
| `Conservation.DispatchConservesIff` | paylink-chain/internal/chain/executor.go:105-161 | whatever the parameters, a handler conserves the supply if and only if it neither completes an overdrawn withdrawal nor collects a fee whose mints drift |
| `Conservation.RunConservedIff` | paylink-chain/internal/chain/executor.go:105-161 | whatever the parameters, along a run every state has supply equal to balances plus stakes, within the cap, if and only if no committed transaction completes an overdrawn withdrawal or settles with a drifting fee |
| `Conservation.FitNoDrift` | paylink-chain/internal/fee/distributor.go:51-54 | in a conserved state a fee whose parts sum to it and whose mints fit the word does not drift |
| `Conservation.SoundFeesFit` | paylink-chain/internal/fee/calculator.go:36-57 | with shares of at most 100 together and a cap that leaves room for a fee, every fee fits in every conserved state |
| `Conservation.RunWrapsNothing` | paylink-chain/internal/state/validator_state.go:34-183 | along a run without slashes below pending withdrawals and with fees that fit, no committed step wraps a balance, a stake or the supply, and no slash meets the supply clamp |
| `Conservation.DispatchCoveredIff` | paylink-chain/internal/state/validator_state.go:152-183 | a handler keeps pending withdrawals covered if and only if it does not slash a stake below its own pending withdrawal |
| `Conservation.SafeSlashesConserve` | paylink-chain/internal/state/validator_state.go:152-183 | while no slash does that and no fee drifts, every state is conserved and every withdrawal covered |
| `Books.RunBooks` | paylink-chain/internal/chain/executor.go:731-791 | over every run, from every state and with any parameters, supply and burn counter move by the announced fees and burns, by what half-way payments minted and by what slashes took beyond the supply, modulo the word size |
| `Books.OrderlyBooks` | paylink-chain/internal/chain/executor.go:731-791 | exactly by the announced fees and burns along a run without overdrawn withdrawals and with fees that fit |
| `Books.SafeUnbooked` | paylink-chain/internal/chain/executor.go:752-758 | along a conserving run something moves unannounced if and only if some committed settlement is paid half-way |
| `Books.SupplyPlusBurned` | paylink-chain/internal/chain/executor.go:731-791 | over every run supply plus burned is the earlier sum plus announced fees plus what moved unannounced, modulo the word size; along an orderly run it is exactly the initial supply plus the fees if and only if the burn counter has not wrapped |
| `Conservation.OverdraftExample` | paylink-chain/internal/state/validator_state.go:98-121 | a run of four transactions from a conserved genesis after which the supply no longer matches: stake, withdraw, be slashed, complete |
| `Conservation.GreedyFeeExample` | paylink-chain/internal/fee/calculator.go:36-57 | with shares of 90 and 20 a run of three transactions from the same genesis settles a PayLink, mints all but ten of a word for the treasury and breaks conservation |
| `Fees.FeeSplitExactIff` | paylink-chain/internal/fee/calculator.go:36-57 | the parts sum to the fee at every rate, minimum and amount if and only if validator and burn share sum to at most 100, wrapped products included |
| `Fees.FeeSplitModular` | paylink-chain/internal/fee/calculator.go:36-57 | the parts always sum to the fee modulo the word size |
| `Fees.FeeSplitSound` | paylink-chain/internal/fee/calculator.go:36-57 | with shares that sum to at most 100 no product of a settlement fee wraps and the split is exact |
| `Fees.SharesExact` | paylink-chain/internal/fee/distributor.go:70-89 | the shares sum to exactly the reward, even when reward times stake wraps |
| `Fees.SharesProRata` | paylink-chain/internal/fee/distributor.go:70-89 | without wrap every voter but the last gets the floor of its pro-rata part, and the last gets its floor plus less than one unit per other voter |
| `Fees.FeeAtRate` | paylink-chain/internal/fee/calculator.go:36-47 | the fee is the rate in hundredths of a percent of the amount, rounded down, or the minimum if that is more; a product past the word size wraps |
| `Fees.DefaultsKeepSettings` | paylink-chain/internal/state/state.go:119-135 | every fee setting left at zero takes its default (50, 70, 20 and 10), every other is kept, and nothing else changes |
| `Fees.DefaultFee` | paylink-chain/internal/state/state.go:119-135 | without fee settings a settlement costs half a percent: seventy parts of a hundred to the voters, ten burned, the rest to the treasury |
| `Distributor.CollectStakes` | paylink-chain/internal/fee/distributor.go:34-54 | the loop over voters collects the active stakes and their wrapping sum |
| `Distributor.PayVoters` | paylink-chain/internal/fee/distributor.go:70-89 | the minting loop pays exactly the specified shares in address order and stops at the first failed mint |
| `Distributor.Distribute` | paylink-chain/internal/fee/distributor.go:28-104 | the imperative distribution does what the value-level one does |
| `Distributor.CreditTreasury` | paylink-chain/internal/fee/distributor.go:91-101 | treasury mint and burn record after the payouts |
| `Rules.ValidateAll` | paylink-chain/internal/rules/validate.go:10-17 | a list is accepted at creation exactly when every rule is |
| `Rules.ValidateIff` | paylink-chain/internal/rules/validate.go:19-91 | creation accepts a rule field if and only if it is absent, or every rule is legible, locks and lists name something, quotas can be met by their approvers, bounds are ordered and limits allow a transfer |
| `Rules.EvaluateAll` | paylink-chain/internal/rules/engine.go:11-18 | a context passes a list exactly when it passes every rule |
| `Rules.EvaluateIff` | paylink-chain/internal/rules/engine.go:20-137 | a list that passed creation lets a context through if and only if it is inside every time window, has every quota of distinct approvals, and is within every list, bound and limit |
| `Rules.EvaluateFieldIff` | paylink-chain/internal/rules/engine.go:11-137 | any rule field, valid or not, lets a context through if and only if it is absent, or all its rules are legible and the context obeys them |
| `Rules.ValidRulesOnlyViolate` | paylink-chain/internal/rules/engine.go:11-37 | stored rules can only fail by violation, never as malformed |
| `Rules.CountDistinct` | paylink-chain/internal/rules/engine.go:64-72 | for distinct approvals the count is the size of the intersection with the approvers |
| `Rules.CountApprovalsLoop` | paylink-chain/internal/rules/engine.go:64-72 | the nested loops compute that count |
| `Rules.SettlementMeetsRules` | paylink-chain/internal/rules/engine.go:56-91 | a settlement that passes meets every approval quota and amount bound |
| `Rules.TransferMeetsRules` | paylink-chain/internal/rules/engine.go:109-137 | a transfer that passes is under every limit and goes to a listed receiver |
| `Lifecycle.ActsObeyRules` | paylink-chain/internal/chain/executor.go:90-99 | every committed cancellation, transfer and settlement obeys all rules attached to the PayLink |
| `Meetable.ActsPossible` | paylink-chain/internal/chain/executor.go:90-99 | in a consistent state every committed act has a context with the PayLink's own amount, and for settlement exactly the quorum of voters before expiry, that passes all its rules |
| `Meetable.PossibleHappens` | paylink-chain/internal/chain/executor.go:223-460 | every such context that passes the rules happens: some consistent state commits the act, and the vote settles the PayLink |
| `Meetable.CanHappenIff` | paylink-chain/internal/chain/executor.go:223-460 | an open PayLink, transferred before or not, can be settled, cancelled or transferred in some consistent state if and only if a possible context passes all its rules |
| `Reachable.ReachableIff` | paylink-chain/internal/chain/executor.go:165-460 | for every record creation can write: some run from genesis, with a funded and staked quorum, a committed creation and votes, commits a settlement, cancellation or transfer of it if and only if a possible context passes all its rules |
| `Reachable.GetsVerifiedIff` | paylink-chain/internal/chain/executor.go:165-323 | such a record is created and later VERIFIED in some run from genesis if and only if a possible settlement passes all its rules |
| `Meetable.UnmeetableNeverVerifies` | paylink-chain/internal/chain/executor.go:288-302 | a PayLink whose rules no possible settlement passes is not VERIFIED in any state of any run |
| `Meetable.RuleMeetableIff` | paylink-chain/internal/rules/validate.go:19-90 | a rule accepted at creation can be met on a given PayLink if and only if its window opens (for settlement by the expiry), its quota exceeds neither the distinct approvers nor the validator quorum, its bounds admit the PayLink's amount, it lists creator or owner where it guards cancellation, it lists a receiver other than the owner, and transfers are left |
| `Meetable.BlockedNeverVerifies` | paylink-chain/internal/chain/executor.go:288-302 | a PayLink with a settlement rule that cannot be met is not VERIFIED in any state of any run |
| `Reachable.RepeatedApproverExample` | paylink-chain/internal/rules/validate.go:31-42 | with an approver listed twice a creation is committed in some run, and the PayLink is VERIFIED in none |
| `Reachable.AboveQuorumExample` | paylink-chain/internal/rules/validate.go:31-42 | the same with five required approvals where three votes settle |
| `Reachable.OwnAmountExample` | paylink-chain/internal/rules/validate.go:44-52 | the same with a bound that excludes the PayLink's own amount, which also blocks cancellation and transfer |
| `Reachable.LateWindowExample` | paylink-chain/internal/rules/validate.go:21-29 | the same with a settlement window that opens after the expiry |
| `Lifecycle.StepKeepsLinks` | paylink-chain/internal/chain/executor.go:165-460 | every transaction keeps vote counts exact, rules binding and proofs unique |
| `Lifecycle.RunKeepsLinks` | paylink-chain/internal/chain/executor.go:223-323 | in every state of every run: the vote count is the number of distinct voters, CREATED has fewer than the quorum, VERIFIED exactly the quorum, owner and transfer count respect the rules, and used proofs are exactly those of settled PayLinks |
| `Lifecycle.SettleKeepsRecord` | paylink-chain/internal/chain/executor.go:253-320 | the vote that reaches the requirement fills the quorum exactly and meets the approval rules |
| `Lifecycle.TransferKeepsRecord` | paylink-chain/internal/chain/executor.go:397-460 | a permitted transfer leaves owner and count within the rules |
| `Settlement.SettledOnce` | paylink-chain/internal/chain/executor.go:288-320 | over every run no PayLink settles twice, no two settlements share a proof, and the used proofs are exactly those of the settlements |
| `Settlement.StepAnnounces` | paylink-chain/internal/chain/executor.go:223-323 | the settlements a transaction announces are exactly those it performs |
| `Settlement.RunExtends` | paylink-chain/internal/state/paylink_state.go:10-57 | along every run a PayLink never returns to CREATED, and used proofs, votes and creation terms are never lost |
| `Machine.FsmIff` | paylink-chain/internal/fsm/paylink_fsm.go:23-34 | a committed step announces at most one transition, truly, and changes no other status; the state machine has that transition if and only if the step does not fail a PayLink that is no longer CREATED |
| `Machine.RunTracked` | paylink-chain/internal/fsm/machine.go:46-59 | over every run, following the announced transitions gives exactly the statuses of all PayLinks, and the machine has all of them if and only if no committed step fails a closed PayLink |
| `Machine.FailedTwiceExample` | paylink-chain/internal/chain/executor.go:366-393 | create, fail, fail again: the third step commits and announces a transition the machine does not have |
| `Indexes.AppendExact` | paylink-chain/internal/state/paylink_state.go:10-26 | appending to an index keeps it exact |
| `Indexes.MoveExact` | paylink-chain/internal/state/paylink_state.go:40-67 | moving an id between buckets keeps an index exact |
| `Indexes.ReachableIndexed` | paylink-chain/internal/state/paylink_state.go:10-67 | in every reachable state the creator, receiver, status and owner indexes list, without repeats, exactly what a full scan finds |
| `History.StepNonces` | paylink-chain/internal/chain/executor.go:108-160 | a committed transaction carries its sender's nonce and advances that nonce alone |
| `History.RunNonces` | paylink-chain/internal/state/account_state.go:61-70 | an account's nonce counts its committed transactions, modulo the word size |
| `History.NoncesInOrder` | paylink-chain/internal/chain/executor.go:108-113 | from genesis a sender's committed nonces are 0, 1, 2, ... in chain order, modulo the word size |
| `History.NoReplay` | paylink-chain/internal/chain/executor.go:108-113 | two committed transactions of one sender share a nonce if and only if a whole number of full nonce cycles lies between them |
| `History.PunishedOnce` | paylink-chain/internal/chain/executor.go:833-844 | an offence is punished at most once over every run |
| `Laws.CommitsIff` | paylink-chain/internal/chain/executor.go:105-161 | every transaction of every kind commits if and only if it is authentic, carries its sender's nonce and meets a condition written in the fields of the state and the transaction: who sends it, balances, stakes, status, expiry, votes, proofs, owner, approved address, operators, rules, evidence |
| `Laws.PenaltyIs` | paylink-chain/internal/slashing/slashing.go:130-133 | half the stake for a double sign and a quarter for an equivocation, all of it where that rounds to nothing, never more than the stake |
| `Laws.RulesPassIff` | paylink-chain/internal/chain/executor.go:90-101 | the engine lets an act through if and only if the PayLink has no rules, or only legible ones that the act obeys |
| `Accounts.BalanceLaw` | paylink-chain/internal/chain/executor.go:105-161 | after every committed transaction every balance is the old one less what the address pays (only the sender pays, by sending, staking or rewarding) plus what it is paid (recipient, rewarded or withdrawing validator, parts of a fee), modulo the word size |
| `Accounts.SendIff` | paylink-chain/internal/chain/executor.go:522-548 | a transfer commits if and only if the nonce matches, the amount is positive, the recipient is not zero and the sender holds it; then the sender has that much less and the recipient that much more, and no other account, validator or PayLink changes |
| `Accounts.ExactBalances` | paylink-chain/internal/state/account_state.go:73-115 | in a conserved state with covered withdrawals and a fitting fee every balance moves by exactly what the address is paid and pays, without wrap |
| `Accounts.RunBalances` | paylink-chain/internal/chain/executor.go:105-161 | over every run a balance is what it was plus all that committed transactions paid the address less all it paid, modulo the word size |
| `Accounts.RunBalanceFalls` | paylink-chain/internal/chain/executor.go:105-161 | if a run leaves an address with less, the run holds a committed transaction of that address that pays, or a credit that wrapped its balance |
| `Accounts.OnlySenderPays` | paylink-chain/internal/chain/executor.go:105-161 | along every steady run from a conserved genesis no balance wraps, each committed transaction moves each balance by exactly what it pays and is paid, and it lowers nobody's balance but its sender's |
| `Accounts.FeeGoesToVoters` | paylink-chain/internal/fee/distributor.go:28-100 | whoever gets a part of a fee is the treasury or an active validator that voted for the PayLink |
| `Accounts.GenesisBalances` | paylink-chain/internal/state/state.go:146-155 | every address starts with the balance of its last genesis entry, or nothing, and nonce zero |
| `Staking.StakeLaw` | paylink-chain/internal/state/validator_state.go:34-196 | the record of every validator after every committed transaction, field by field: stake, pending amount, end of the cooldown, totals, key, activity, who joins the list; and the offences on record |
| `Staking.SlashIff` | paylink-chain/internal/chain/executor.go:652-688 | a slash commits if and only if the administrator sends it with its nonce against a validator whose stake covers it; nobody else's record and no balance or PayLink changes |
| `Staking.PunishedIff` | paylink-chain/internal/chain/executor.go:821-864 | evidence commits if and only if its fields show a new offence of a validator with stake; half, a quarter or all of that stake is burned and no other stake moves |
| `Staking.StakeFallsIff` | paylink-chain/internal/state/validator_state.go:98-183 | a stake falls by an amount if and only if the administrator slashes that amount, the validator completes a withdrawal of it, evidence that shows a new offence is accepted with that penalty, or staking wraps it |
| `Staking.RunStakes` | paylink-chain/internal/state/validator_state.go:34-183 | over every run a stake is what it was plus all its validator staked, less all that was slashed or taken back, modulo the word size |
| `Staking.RunStakeFalls` | paylink-chain/internal/state/validator_state.go:98-183 | if a run leaves a validator with less stake, one of these causes is at a committed position of the run |
| `Staking.CleanStake` | paylink-chain/internal/slashing/slashing.go:73-197 | a validator against whom no evidence of the run shows an offence loses stake only by the administrator, by its own withdrawal or by staking past the word size |
| `Ownership.LinkLaw` | paylink-chain/internal/state/paylink_state.go:10-259 | every PayLink, vote, proof and operator after every committed transaction, field by field, and which stay as they are |
| `Ownership.OwnerMovesIff` | paylink-chain/internal/chain/executor.go:397-460 | an owner changes if and only if a TransferPayLink to the new owner commits on an open PayLink, sent by the owner, the approved address or an operator of the owner; it clears the approved address |
| `Provenance.LastIs` | paylink-chain/internal/chain/executor.go:105-161 | the last committed transaction of a run that can set a claim is committed, sets it, and none after it does |
| `Provenance.OwnerTraced` | paylink-chain/internal/state/paylink_state.go:202-222 | in every run from genesis a PayLink belongs to whom it was last transferred to, or else to its creator |
| `Provenance.ApprovalTraced` | paylink-chain/internal/state/paylink_state.go:236-246 | in every run from genesis an approved address was set by an ApprovePayLink of the one who still owns the PayLink, and nothing has cleared it since |
| `Provenance.OperatorTraced` | paylink-chain/internal/state/paylink_state.go:249-259 | in every run from genesis an operator is in force if and only if the owner's last word about it was a grant |
| `Provenance.TransferTraced` | paylink-chain/internal/state/paylink_state.go:263-278 | in every run from genesis a transfer commits if and only if that history entitles its sender, and nonce, status, recipient and rules allow it |
| `Provenance.ZeroAddressExample` | paylink-chain/internal/state/paylink_state.go:274-276 | nobody is approved, and a transfer sent by the zero address commits |
| `Provenance.WithdrawalTraced` | paylink-chain/internal/state/validator_state.go:63-95 | in every run from genesis a pending withdrawal is the one its validator last asked for and has not completed, with that amount and the time of the request plus the cooldown |
| `Provenance.CompletionTraced` | paylink-chain/internal/state/validator_state.go:98-121 | in every run from genesis a validator completes a withdrawal if and only if its last committed act about withdrawals was a request whose cooldown is over; it is paid exactly the amount it asked for |
| `Provenance.CooldownKept` | paylink-chain/internal/state/validator_state.go:63-121 | every committed completion has a committed request of the same validator before it, at least the cooldown earlier, with no request or completion in between |
| `Provenance.KeyTraced` | paylink-chain/internal/state/validator_state.go:247-264 | in every run from genesis the VRF key of a validator is the one it registered last |
| `Provenance.RecordTraced` | paylink-chain/internal/state/paylink_state.go:82-93 | in every run from genesis a vote is on record if and only if that validator cast it, and an offence if and only if evidence of it was accepted |
| `Announcements.EventLaw` | paylink-chain/internal/chain/executor.go:165-864 | the events of every committed transaction are exactly those that describe the change from the state before to the state after it, fees with every payment included |
| `Blocks.ChainCommits` | paylink-chain/internal/chain/replay.go:29-46 | every transaction stored on a valid chain commits in the run of that chain, so what the run theorems say of committed positions holds of all of them |
| `Safety.ChainCooldown` | paylink-chain/internal/state/validator_state.go:63-121 | on every valid chain a completed withdrawal has its request in an earlier transaction, stamped a cooldown before, with nothing about withdrawals of that validator in between |
| `Safety.CommittedLawful` | paylink-chain/internal/chain/executor.go:871-892 | inside a block every committed transaction moves the balances, validators, PayLinks and offences by these laws and announces exactly that |
| `Safety.ExecuteLawfully` | paylink-chain/internal/chain/executor.go:873-889 | the executor on the heap commits exactly the allowed transactions, changes the database by these laws, and leaves it and the buffer alone otherwise |
| `History.SlashWithinStake` | paylink-chain/internal/slashing/slashing.go:130-133 | the slash amount is positive and never exceeds the stake, even when the product wraps |
| `History.EvidencePunishes` | paylink-chain/internal/slashing/slashing.go:73-197 | evidence slashes if and only if its own fields show an unpunished offence of a validator with stake (two different blocks, both signed, with the validator's key; two different valid proofs under its registered key); the stake drops by half, a quarter or all of it, nobody else's record changes, and the offence is recorded |
| `Validators.RunKeepsRoster` | paylink-chain/internal/state/validator_state.go:34-60 | every run keeps each validator under its own address and listed exactly once |
| `Validators.RunStakedIff` | paylink-chain/internal/state/validator_state.go:34-121 | over every run active validators always hold the minimum stake if and only if no committed step completes a withdrawal below it, or wraps a stake below it, while the validator is active |
| `Validators.OnlyWithdrawalsUnderstake` | paylink-chain/internal/state/validator_state.go:34-60 | in a conserved state only a withdrawal can do that |
| `Validators.UnderstakeExample` | paylink-chain/internal/state/validator_state.go:52-57 | from genesis: stake, withdraw everything, stake one token, complete: active with a stake of one |
| `Validators.ReachableRootIff` | paylink-chain/internal/state/merkle.go:14-26 | among reachable states equal roots mean exactly equal covered tables |
| `Tables.Clone` | paylink-chain/internal/state/state.go:281-310 | a deep copy: fresh pointers to equal records |
| `Tables.Table.Put` | paylink-chain/internal/state/account_state.go:17-26 | an in-place write changes one current record and no saved copy |
| `Tables.Table.Push` | paylink-chain/internal/state/state.go:160-184 | saving copies every record, sharing nothing |
| `Tables.Table.Restore` | paylink-chain/internal/state/state.go:187-216 | restoring brings back the saved records and drops the later copies |
| `Dicts.CloneDict` | paylink-chain/internal/state/state.go:312-342 | a fresh map object with the same entries |
| `Dicts.DictHistory.Put` | paylink-chain/internal/state/account_state.go:17-26 | a write to the current map object leaves every saved one as it was |
| `Dicts.DictHistory.Push` | paylink-chain/internal/state/state.go:312-342 | saving puts a fresh copy on the stack, sharing nothing |
| `Dicts.DictHistory.Restore` | paylink-chain/internal/state/state.go:187-216 | restoring makes a saved map object current and drops the later ones |
| `Slices.AppendTo` | paylink-chain/internal/state/paylink_state.go:18-24 | appends in place while the backing array has room, in a larger copy otherwise |
| `Slices.RemoveAt` | paylink-chain/internal/state/paylink_state.go:59-67 | closes a gap by shifting the shared backing array in place |
| `Slices.RemoveId` | paylink-chain/internal/state/paylink_state.go:59-67 | shifts the first occurrence of an id out of the slice and leaves the rest in order, or changes nothing |
| `Slices.SharedArrayExample` | paylink-chain/internal/state/paylink_state.go:59-67 | a second header on the same array sees the shift, which is why a snapshot must copy |
| `Slices.CloneAll` | paylink-chain/internal/state/state.go:350-368 | clones every slice of an index into a fresh array with the same contents |
| `Slices.SliceIndex.Append` | paylink-chain/internal/state/paylink_state.go:18-24 | appending to a bucket leaves every saved index as it was |
| `Slices.SliceIndex.Remove` | paylink-chain/internal/state/paylink_state.go:59-67 | shifting an id out of a bucket in place leaves every saved index as it was |
| `Slices.SliceIndex.Push` | paylink-chain/internal/state/state.go:350-368 | saving an index copies every slice, so that later shifts cannot reach it |
| `Slices.SliceIndex.Restore` | paylink-chain/internal/state/state.go:187-216 | restoring makes a saved index current, slices included, and drops the later ones |
| `BankTables.BankTables.Push` | paylink-chain/internal/state/state.go:160-184 | accounts, validators, validator list, keys and counters are saved together |
| `BankTables.BankTables.Restore` | paylink-chain/internal/state/state.go:187-216 | and come back together |
| `BankTables.BankTables.FundAll` | paylink-chain/internal/state/state.go:147-154 | the funding loop applies the balances in order |
| `BankTables.NewBank` | paylink-chain/internal/state/state.go:94-145 | an empty bank of disjoint tables |
| `LinkTables.IndexTables.Enter` | paylink-chain/internal/state/paylink_state.go:18-24 | a new PayLink enters all four indexes |
| `LinkTables.IndexTables.MoveStatus` | paylink-chain/internal/state/paylink_state.go:40-67 | an id moves between status buckets by an in-place removal and an append |
| `LinkTables.IndexTables.MoveOwner` | paylink-chain/internal/state/paylink_state.go:202-233 | an id moves between owner buckets in the same way |
| `LinkTables.LinkTables.Push` | paylink-chain/internal/state/state.go:160-184 | PayLinks, the four indexes, proofs, votes and operators are saved together |
| `LinkTables.LinkTables.Restore` | paylink-chain/internal/state/state.go:187-216 | and come back together |
| `LinkTables.NewLinks` | paylink-chain/internal/state/state.go:94-145 | empty PayLink tables, sharing nothing |
| `StateDb.NewStateDB` | paylink-chain/internal/state/state.go:94-157 | a new database holds the genesis state with defaults filled in |
| `StateDb.StateDB.Snapshot` | paylink-chain/internal/state/state.go:160-184 | pushes deep copies of all fourteen collections, so that the exact current state is saved and all older snapshots stay as they were |
| `StateDb.StateDB.Revert` | paylink-chain/internal/state/state.go:187-216 | restores exactly the saved state, index slices included, and the stack below it; an unknown position is an error that changes nothing |
| `StateDb.StateDB.DiscardSnapshot` | paylink-chain/internal/state/state.go:228-235 | drops a snapshot and all later ones without touching the state |
| `StateDb.StateDB.ComputeStateRoot` | paylink-chain/internal/state/merkle.go:14-26 | computes the root of the current state |
| `StateDb.StateDB.Transfer` | paylink-chain/internal/state/account_state.go:73-91 | moves tokens or reports the shortage, leaving snapshots alone |
| `StateDb.StateDB.AddBalance` | paylink-chain/internal/state/account_state.go:94-103 | wrapping credit of a possibly new account; every saved snapshot stays as it was |
| `StateDb.StateDB.SubBalance` | paylink-chain/internal/state/account_state.go:106-115 | debit of an existing, sufficient balance or an error; every saved snapshot stays as it was |
| `StateDb.StateDB.IncrementNonce` | paylink-chain/internal/state/account_state.go:61-70 | wrapping increment of a possibly new account; every saved snapshot stays as it was |
| `StateDb.StateDB.MintTokens` | paylink-chain/internal/state/state.go:461-477 | mints under the cap or reports an error; every saved snapshot stays as it was |
| `StateDb.StateDB.RecordBurn` | paylink-chain/internal/state/state.go:483-487 | adds to the burn counter; every saved snapshot stays as it was |
| `StateDb.StateDB.Stake` | paylink-chain/internal/state/validator_state.go:34-60 | adds to a possibly new validator's stake and activates it at the minimum; every saved snapshot stays as it was |
| `StateDb.StateDB.InitiateWithdrawal` | paylink-chain/internal/state/validator_state.go:63-95 | starts a withdrawal of the amount, withdrawable when the clock plus the cooldown has come, or reports which condition failed; every saved snapshot stays as it was |
| `StateDb.StateDB.CompleteWithdrawal` | paylink-chain/internal/state/validator_state.go:98-121 | completes after the cooldown, subtracting without a check; every saved snapshot stays as it was |
| `StateDb.StateDB.Slash` | paylink-chain/internal/state/validator_state.go:152-183 | reduces stake and supply, raises the burn counter, deactivates below the minimum; every saved snapshot stays as it was |
| `StateDb.StateDB.DistributeReward` | paylink-chain/internal/state/validator_state.go:186-197 | records a reward of an active validator; every saved snapshot stays as it was |
| `StateDb.StateDB.SetVrfPublicKey` | paylink-chain/internal/state/validator_state.go:247-264 | registers a key of an active validator in both places; every saved snapshot stays as it was |
| `StateDb.StateDB.GetVoters` | paylink-chain/internal/state/validator_state.go:304-318 | the voters of a PayLink in address order, whatever order the votes are visited in |
| `StateDb.StateDB.CreatePayLink` | paylink-chain/internal/state/paylink_state.go:10-26 | adds a new record to the table and all four indexes, or refuses a duplicate; every saved snapshot stays as it was |
| `StateDb.StateDB.SetPayLinkStatus` | paylink-chain/internal/state/paylink_state.go:40-67 | changes the status and moves the id between status buckets, shifting the old one in place; every saved snapshot stays as it was |
| `StateDb.StateDB.SetPayLinkOwner` | paylink-chain/internal/state/paylink_state.go:202-233 | changes the owner, clears the approval, counts the transfer and moves the id, shifting the old bucket in place; every saved snapshot stays as it was |
| `StateDb.StateDB.SetPayLinkApproval` | paylink-chain/internal/state/paylink_state.go:236-246 | sets the approved address of an existing PayLink; every saved snapshot stays as it was |
| `StateDb.StateDB.SetOperatorApproval` | paylink-chain/internal/state/paylink_state.go:249-259 | grants or revokes an operator; every saved snapshot stays as it was |
| `StateDb.StateDB.IncrementVoteCount` | paylink-chain/internal/state/paylink_state.go:70-79 | counts a vote of an existing PayLink; every saved snapshot stays as it was |
| `TxExecutor.TxExecutor.ExecuteTx` | paylink-chain/internal/chain/executor.go:105-161 | on success exactly the specified step with its events; on failure the same error |
| `TxExecutor.TxExecutor.ExecuteOne` | paylink-chain/internal/chain/executor.go:873-889 | a failed or forged transaction restores the exact prior state and snapshot stack and contributes no events |
| `TxExecutor.TxExecutor.ExecuteBlock` | paylink-chain/internal/chain/executor.go:871-892 | the block loop ends in the specified state, with the specified verdicts in order and only the events of committed transactions |
| `TxExecutor.TxExecutor.FlushEvents` | paylink-chain/internal/chain/executor.go:69-79 | publishes the buffered events in order with the block height, or drops them without a bus |
| `TxExecutor.TxExecutor.DiscardEvents` | paylink-chain/internal/chain/executor.go:83-86 | forgets pending and buffered events |
| `TxExecutor.TxExecutor.ExecuteCreate` | paylink-chain/internal/chain/executor.go:165-221 | creation as specified, with every refusal |
| `TxExecutor.TxExecutor.ExecuteVote` | paylink-chain/internal/chain/executor.go:223-323 | a vote as specified: checks, count, settlement and fees |
| `TxExecutor.TxExecutor.TrySettle` | paylink-chain/internal/chain/executor.go:288-302 | the rules decide about a full quorum; a refusal is an error |
| `TxExecutor.TxExecutor.SettlePayLink` | paylink-chain/internal/chain/executor.go:304-319 | marks VERIFIED, uses up the proof, charges the fees |
| `TxExecutor.TxExecutor.CollectAndDistribute` | paylink-chain/internal/chain/executor.go:731-791 | fees are charged and announced, and a failed distribution is not fatal |
| `TxExecutor.TxExecutor.ExecuteCancel` | paylink-chain/internal/chain/executor.go:325-364 | cancellation as specified |
| `TxExecutor.TxExecutor.ExecuteFail` | paylink-chain/internal/chain/executor.go:366-393 | administrator's fail as specified, without a status guard |
| `TxExecutor.TxExecutor.ExecuteTransferPayLink` | paylink-chain/internal/chain/executor.go:397-460 | transfer as specified; one that commits found an open PayLink and came from its owner, its approved address or an operator of its owner, and the new owner is the one named |
| `TxExecutor.TxExecutor.ExecuteApprove` | paylink-chain/internal/chain/executor.go:462-492 | approval as specified |
| `TxExecutor.TxExecutor.ExecuteSetOperator` | paylink-chain/internal/chain/executor.go:494-518 | operator approval as specified |
| `TxExecutor.TxExecutor.ExecuteSend` | paylink-chain/internal/chain/executor.go:522-548 | token transfer as specified; it commits if and only if the amount is positive, the recipient is not zero and the sender holds it, and then the sender has that much less and the recipient that much more |
| `TxExecutor.TxExecutor.ExecuteStake` | paylink-chain/internal/chain/executor.go:552-595 | staking as specified, with activation announced |
| `TxExecutor.TxExecutor.ExecuteInitiateUnstake` | paylink-chain/internal/chain/executor.go:597-631 | start of a withdrawal as specified; one that commits leaves the amount pending until the clock plus the cooldown |
| `TxExecutor.TxExecutor.ExecuteCompleteUnstake` | paylink-chain/internal/chain/executor.go:633-650 | completion of a withdrawal as specified; `Provenance.CompletionTraced` says when that is and what is paid |
| `TxExecutor.TxExecutor.Punish` | paylink-chain/internal/chain/executor.go:652-688 | slashing as specified, with deactivation announced; it succeeds if and only if the validator exists and holds the amount, and then its stake is that much lower |
| `TxExecutor.TxExecutor.ExecuteReward` | paylink-chain/internal/chain/executor.go:690-725 | reward as specified |
| `TxExecutor.TxExecutor.ExecuteRegisterKey` | paylink-chain/internal/chain/executor.go:795-817 | key registration as specified |
| `TxExecutor.TxExecutor.ExecuteEvidence` | paylink-chain/internal/chain/executor.go:821-864 | evidence as specified: it commits if and only if its fields show a new offence of a validator with stake, and then the stake drops by the penalty and the offence is on record |
| `Merkle.ComputeRoot` | paylink-chain/internal/state/merkle.go:154-174 | the pairing loop terminates and computes the recursive root |
| `Merkle.RootInjective` | paylink-chain/internal/state/merkle.go:154-174 | equal roots of duplicate-free leaf lists of any lengths mean equal lists, despite odd-level padding |
| `Merkle.RootOfHalves` | paylink-chain/internal/state/merkle.go:154-174 | over a perfect number of leaves the level-wise root pairs the root of the left half with the root of the right half |
| `Merkle.OddLeafTwice` | paylink-chain/internal/state/merkle.go:162-165 | an odd number of leaves counts the last one twice |
| `Merkle.PaddingCollides` | paylink-chain/internal/state/merkle.go:162-165 | with a repeated last leaf two different lists share a root |
| `Merkle.InnerLeavesCollide` | paylink-chain/internal/state/merkle.go:154-174 | with inner digests as leaves a list and the digest of its pair share a root |
| `StateRoot.KeysUnique` | paylink-chain/internal/state/merkle.go:29-54 | any two sorted enumerations of the same keys are equal |
| `StateRoot.ComputeTableRoot` | paylink-chain/internal/state/merkle.go:29-54 | visiting a table in any order and sorting its keys gives the one root of its contents |
| `StateRoot.TableRootInjective` | paylink-chain/internal/state/merkle.go:29-151 | equal roots mean equal tables |
| `StateRoot.ComputeStateRoot` | paylink-chain/internal/state/merkle.go:14-26 | the six roots combined |
| `StateRoot.RootIff` | paylink-chain/internal/state/merkle.go:14-26 | two states have the same root if and only if the six covered tables agree |
| `StateRoot.RootBlindSpot` | paylink-chain/internal/state/merkle.go:14-26 | votes, submitted proofs and the supply do not influence the root |
| `Collections.SortedUnique` | paylink-chain/internal/state/validator_state.go:304-318 | a sorted enumeration of addresses is determined by the set |
| `Collections.Enumerate` | paylink-chain/internal/state/validator_state.go:304-318 | collecting in any order and sorting gives that enumeration |
| `Mempool.Mempool.constructor` | paylink-chain/internal/txpool/mempool.go:21-30 | an empty pool with the given size, or 10000 |
| `Mempool.Mempool.Add` | paylink-chain/internal/txpool/mempool.go:33-56 | refuses exactly known hashes and a full pool; otherwise both indexes gain the transaction and the sender's queue stays nonce-sorted |
| `Mempool.Mempool.Remove` | paylink-chain/internal/txpool/mempool.go:59-81 | the transaction leaves both indexes and other senders are untouched |
| `Mempool.Mempool.DrainForBlock` | paylink-chain/internal/txpool/mempool.go:98-145 | returns exactly the first min(limit, count) of the address-ordered concatenation and leaves exactly the rest |
| `Mempool.Mempool.ReinsertAll` | paylink-chain/internal/txpool/mempool.go:163-167 | adds in order what fits and is not known |
| `Mempool.OrderedMembers` | paylink-chain/internal/txpool/mempool.go:98-145 | the drain order holds exactly the pending transactions |
| `Mempool.OrderedByNonce` | paylink-chain/internal/txpool/mempool.go:98-145 | senders come out by address, and every sender's transactions by non-decreasing nonce |
| `Mempool.OrderedDistinct` | paylink-chain/internal/txpool/mempool.go:98-145 | no transaction is drained twice |
| `Mempool.ReinsertLosesNone` | paylink-chain/internal/txpool/mempool.go:163-167 | putting back distinct transactions of a larger pool loses none |
| `Mempool.JoinedBack` | paylink-chain/internal/consensus/block_producer.go:161-168 | draining and putting some back removes exactly the others |
| `Quorum.RoundsUpIff` | paylink-chain/internal/consensus/quorum.go:101-107 | the added 0.999 rounds up if and only if the fractional part is zero or at least a thousandth, or one vote suffices |
| `Quorum.RoundingHarmless` | paylink-chain/internal/consensus/quorum.go:101-107 | for every fraction: a machine value close enough to the exact sum truncates to the same number of votes, unless the fractional part is exactly a thousandth |
| `Quorum.ThreeFifthsHarmless` | paylink-chain/internal/consensus/quorum.go:101-107 | at three fifths close enough is within a thousandth |
| `Quorum.RoundsDownExample` | paylink-chain/internal/consensus/quorum.go:101-107 | with a fraction of 0.5002 one of two members is enough, where rounding up asks for both |
| `Quorum.CheckQuorum` | paylink-chain/internal/consensus/quorum.go:25-98 | with the configured fraction, or three fifths outside (0, 1], accepts exactly when the members with a valid vote for the first valid vote's proof are enough; an empty committee is an error |
| `Quorum.Count` | paylink-chain/internal/consensus/quorum.go:54-95 | the loop counts each member once, for the first valid vote's proof only |
| `Quorum.CountsIff` | paylink-chain/internal/consensus/quorum.go:59-84 | a vote counts if and only if the committee's last entry for the voter has a key, the vote carries that key, verifies, and gives that member's output |
| `Quorum.AcceptanceIff` | paylink-chain/internal/consensus/quorum.go:34-98 | in the fields of committee and votes: a list is accepted if and only if it has a first vote that is a member's own, and enough distinct members voted like it with votes of their own |
| `Quorum.AcceptanceSound` | paylink-chain/internal/consensus/quorum.go:34-98 | acceptance shows the required number of distinct members with valid key-bound votes for one proof |
| `Quorum.ConflictNamesDoubleVoter` | paylink-chain/internal/consensus/quorum.go:34-107 | at three fifths, accepting two different proofs takes a member who validly voted for both |
| `Quorum.AcceptedIffFirst` | paylink-chain/internal/consensus/quorum.go:86-91 | where two quorums exceed the committee and nobody votes validly for two proofs, a proof with a quorum is accepted if and only if the first valid vote names it |
| `Quorum.SomeOrderIff` | paylink-chain/internal/consensus/quorum.go:86-91 | some order of the votes is accepted if and only if some proof has a quorum |
| `Quorum.EveryOrderIff` | paylink-chain/internal/consensus/quorum.go:86-91 | every order is accepted if and only if there is a valid vote and every validly voted proof has a quorum |
| `Quorum.StrayVoteExample` | paylink-chain/internal/consensus/quorum.go:86-91 | one stray first vote blocks a proof that has a quorum |
| `Idempotency.ReplaysAreReal` | linkmint-backend/idempotency-go/store.go:66-113 | in every interleaving, with expiry and failures, a replayed response is one stored for that key and fingerprint |
| `Idempotency.WritesAreOwned` | linkmint-backend/idempotency-go/store.go:110-116 | every stored response was written by a client that owned the key with that fingerprint |
| `Idempotency.StepExclusiveIff` | linkmint-backend/idempotency-go/store.go:66-81 | a step leads to two owners if and only if it reserves an owned key whose record has vanished |
| `Idempotency.OneOwner` | linkmint-backend/idempotency-go/store.go:66-81 | while a key's own record does not expire under its owner no two clients own that key, whatever happens to other keys |
| `Idempotency.ExpiryExample` | linkmint-backend/idempotency-go/store.go:66-81 | an expiry under the owner lets a second client in |
| `Idempotency.StoredOnce` | linkmint-backend/idempotency-go/store.go:66-123 | while a key's own record does not expire at most one response is ever stored for it, whatever fails, is released or expires elsewhere |
| `Idempotency.AnswersAgree` | linkmint-backend/idempotency-go/store.go:66-113 | and all replayed answers for it are equal |
| `Idempotency.ReplaysOrRefuses` | linkmint-backend/idempotency-go/store.go:66-107 | while a key's record does not expire, whoever tries for it after its response was written gets exactly that response for the same fingerprint and a refusal for another |
| `Idempotency.CompletedIsReplayed` | linkmint-backend/idempotency-go/store.go:110-116 | completing stores the response under the owner's fingerprint and touches no other key |
| `Idempotency.ReleaseFrees` | linkmint-backend/idempotency-go/store.go:121-123 | an owner that releases its key frees it, so that the next client to try owns it; if the deletion fails the pending record stays without an owner |
| `Idempotency.KeysApart` | linkmint-backend/idempotency-go/store.go:41-43 | keys of a service are kept apart when routes contain no colon |
| `Idempotency.KeysCollide` | linkmint-backend/idempotency-go/store.go:41-43 | with a colon in a route two keys can share a record |
| `Idempotency.Store.Begin` | linkmint-backend/idempotency-go/store.go:66-107 | under any steps of other clients, any expiries and any failing commands in between, the retry loop is a run of the machine that ends with its result, and the result says what the store holds |
| `Ledger.Validate` | linkmint-backend/ledger-go/entry.go:62-108 | accepts exactly well-formed postings with a debit and a credit, balanced per currency; malformed legs are reported before imbalance |
| `Ledger.Tally` | linkmint-backend/ledger-go/entry.go:71-97 | the loop checks every leg and adds up both sides per currency |
| `Ledger.TallyDecides` | linkmint-backend/ledger-go/entry.go:99-106 | comparing the sums of the currencies seen decides balance in every currency |
| `Ledger.Book.Post` | linkmint-backend/ledger-go/ledger.go:33-61 | writes all legs under one group or nothing, exactly for postable legs, and keeps every currency balanced |
| `Ledger.Book.Reverse` | linkmint-backend/ledger-go/ledger.go:66-89 | succeeds for every group in the table and takes exactly the group's effect off every account balance; the new rows are the group's legs flipped, with its first reference that is not empty |
| `Ledger.Book.IsBalanced` | linkmint-backend/ledger-go/ledger.go:147-156 | the global check always passes on a table built by postings and reversals |
| `Ledger.FlippedPostable` | linkmint-backend/ledger-go/ledger.go:75-89 | the flipped legs of a posting are a posting |
| `Ledger.ReversalEffect` | linkmint-backend/ledger-go/ledger.go:75-89 | flipped legs subtract the group's net effect |
| `Ledger.BooksBalance` | linkmint-backend/ledger-go/ledger.go:130-156 | the balances of all accounts in a currency sum to zero |
| `Ledger.BalancesAddUp` | linkmint-backend/ledger-go/ledger.go:130-143 | account balances sum to the net of the currency |

## Left out

- Cryptography: SHA-256, ECDSA and VRF are symbolic; whether a transaction, signature or VRF proof verifies is part of the input (`authentic`, `Signed`, `verifies`).
- JSON and storage encodings: payloads are datatypes with an undecodable case; the key-value store is a set of maps, a batch is one write that happens or not, and read errors do not occur.
- Block heights are natural numbers, so the wrap-around of a height after 2^64 blocks is not modelled.
- Locks and concurrency inside a node: operations on state, chain and mempool happen one after the other, as the commit lock arranges; transactions arriving between a drain and its reinsertion are not modelled.
- Aliasing inside a VRF key or a rule list: their bytes are values; everything that holds them is on the heap.
- Event details: sequence numbers, wall-clock times, transaction hashes and reason texts on events, the block-produced event, and the lossy delivery of the bus (publishing appends to a log).
- The transaction index of the store, RPC handlers, P2P gossip and sync, metrics, logging and configuration.
- Validator tiers, `CancelWithdrawal`, `DiscardSnapshots` and the lookup-only accessors: no transaction reaches them.
- Committee selection, VRF sortition and the validator and block state machines of the `fsm` package.
- Redis clocks: a record may expire at any step instead of after its time to live; `RedisDedupe` and `DbDedupe` are not modelled.
- The SQL of the ledger, row ids, creation times, the reporting queries with limits and the NUMERIC(38,0) range (a value out of range is a failed write).
- The Python services, SDKs, frontends and scripts of the repository.
- FullNode.FullNode.Receive: states what every received block preserves; when a block is accepted is stated by `Node.BlockProcessor.ProcessBlock`.
- FullNode.FullNode.Tick: states what every round preserves; when a round yields a block is stated by `Producer.BlockProducer.ProduceBlock`.
- Quorum.RoundsUpIff: the fraction is an exact rational; how far floating-point rounding may stray without changing the result is stated by `Quorum.RoundingHarmless`, and that it stays within that is not modelled.
- Mempool.Mempool.Add: the order among equal nonces of one sender is left open, because the source's sort is not stable.
- Blocks.TipFixesState: assumes that transaction hashes identify transactions, which the source gets from SHA-256.
- Meetable.RuleMeetableIff: the condition is per rule; several rules that can each be met may still exclude each other, and for them `Reachable.ReachableIff` only says that one context must pass all.
- Meetable.CanHappenIff: ranges over consistent states; that they are reached from genesis is stated by `Reachable.ReachableIff` for records as creation writes them, not for records that were transferred before.
- Meetable.PossibleHappens: the state is a consistent one, in the same sense.
- FullNode.Propagate: the block reaches the follower once and the follower's store takes it; lost, late or repeated deliveries are covered by `Node.BlockProcessor.ProcessBlock` only.
