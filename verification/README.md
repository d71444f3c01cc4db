# BlockCooker in Dafny

BlockCooker turns a history of token payments into banknotes of fixed value and executes the resulting
banknote transactions on a blockchain. Two engines do the work, and this project models both and proves
what they keep, separately and together.

**The block processor** (`chain/banknote_processor.go`) splits a batch of transactions by type and ledger. Every
peripheral ledger then runs four worker-pool phases, mint (BG), split (BS), transfer (BT) and recycle (BR), on a pool
of active notes that all ledgers share; a channel holds the split sources that were not in the pool yet, and a
separate goroutine nets the account changes. One ledger is a step machine here: each pool operation and each channel
operation is one step of the dispatcher, a worker, the main goroutine or the trie goroutine (`LedgerMachine`). A block
is all ledgers at work at once with no synchronisation between them (`BlockMachine`). The theorems are about every
interleaving of every block.

**The circulation simulator** (`tx_simulator.py`) keeps a list of notes for every address, pays with the notes of the
sender's list, splits, mints and recycles, and logs the transactions that the block processor executes. Two of its
loops remove from the list they walk through, so they skip the note after each removed one; an index into the live
list says so (`Simulator`, `TxSimulatorProgram`).

| files | subject |
|---|---|
| `BanknoteTypes`, `Sequences`, `MapSums`, `Arithmetic` | values, and facts about sequences, sums and division |
| `Lifecycle` | what a batch does in log order, and when it respects the life cycle of its notes |
| `Accounts`, `Netting`, `CoreLedger` | account states, the netting goroutine, sequential transfers |
| `LedgerMachine`, `Schedule`, `Progress`, `PoolInvariant`, `OwnerInvariant`, `RecordInvariant`, `LedgerInvariant` | one ledger as a step machine and what its steps keep |
| `RecipientInvariant` | who owns the notes that a block transfers several times |
| `BlockMachine`, `BlockOutcome`, `PhaseTheorem` | all ledgers of a block, what every run leaves, and when that is what the log-order run leaves |
| `CrossLedger`, `ScheduleIndependence` | why each note needs one ledger, and when all runs leave the same |
| `BlockBody`, `Replica`, `ReplicaAccounts` | the block made of a batch, and the peer that replays it |
| `Conservation` | value in notes and accounts |
| `BanknotePool` | the sharded pool as an object |
| `Simulator`, `TxSimulatorProgram`, `SimulatorTotals`, `Spending`, `Recycling` | the simulator: meaning, program, totals, spending, recycling |
| `SimulatorEffects`, `SimulatorHistory` | each event field by field, when each note was last touched, what a sweep logs |
| `SimulatorLog`, `SimulatorAccounts`, `SimulatedChain` | the simulator's log as input of the block processor: notes, owners, accounts |
| `TxPool`, `TxPoolMonitor`, `CsvReader`, `UpperBound` | the bounded transaction pool, the group reader, the key bound of a prefix |

A batch *respects the life cycle* when each note is produced at most once, before the block or in it, then transferred,
then consumed at most once, in log order. A *hazard* is a note, in the pool before the block or produced in it, that is
both transferred at the amount 100000000 and split in it: a transfer of an absent note at that amount creates the note
(lines 317-322), so after the split phase it brings the split note back. The phase theorem holds if and only if there is
no hazard (`PhaseTheorem.AllRunsAgreeIffHazardFree`). A hazard is a *race* when the note is neither in the pool before the
block nor minted in it, so that a split produces it, and the ledger that splits it has several workers: exactly then the
runs also differ from each other (`ScheduleIndependence.RunsAgreeIffNoRace`).

Where the code differs from what one might expect, the model follows the code:

- Transactions are routed to ledgers by their own hash (line 36) while the pool is keyed by note hash, and ledgers do
  not wait for each other. Theorems about whole blocks therefore ask that each note be touched by one ledger
  (`BlockOutcome.OneLedgerPerNote`); `CrossLedger.CrossLedgerBreaks` shows that a note consumed only
  in other ledgers than one that provides it breaks the phase theorem.
- Recyclings are executed but not put in the block (line 39), so a peer does not execute them. Leader and peer agree on
  a note exactly when the batch does not recycle it while it is there (`Replica.ReplicasHold`).
- `Deduct` refuses when the balance equals the amount, and its result is ignored (lines 147 and 421).
- The type numbers of the log differ from those of the block processor in their order: 3 is a split and 4 a recycling.
- The comment of `AddTxs2Pool_Head` (`txPool/txpool.go:77`) promises the caller's order. `TxPoolMonitor.HeadOrderCanBreak`
  gives a run that loses it. A call keeps it for certain exactly when all it adds fits into the room it finds on getting
  the lock, or is one transaction at most (`TxPoolMonitor.HeadOrderIff`).

A simulator state is *tidy* when every note is in its owner's list, once, hashes are unique and below the next one to be
drawn, denominations are positive, shards are in range, and no removal has failed (`Simulator.Tidy`). A note is *stale*
when it has been idle for longer than the threshold.

State tries are maps from address to account. Random hashes of the simulator are a supply of new numbers, random shards
an arbitrary function of them, and transaction hashes an arbitrary function of the log line. Its `current_block`
parameter is `global_block_count`, as in its only use (`tx_simulator.py:609`).

## Model

| member | source | states |
|---|---|---|
| Lifecycle.OutputsStored | chain/banknote_processor.go:262-300 | After a mint or split, whatever the pool held before, each output is in the pool with the value and owner the transaction gives it: the minter, the splitter for the first output, the recipient for the second, which wins when both have one hash. Only a split of an absent note that names that note as an output loses this output to the deferred removal. |
| Lifecycle.NamedOnly | chain/banknote_processor.go:306-361 | In log order a transfer changes the owner of its note only, or creates an absent one for the recipient exactly when the amount is 100000000; a recycling removes its note; no transaction changes a note that it does not name. |
| Lifecycle.LogSettled | chain/banknote_processor.go:260-361 | Executed one at a time in log order, a batch that respects the life cycle of its notes leaves exactly the notes that are not consumed and that were there, were produced, or were transferred at 100000000 while absent, each at the value it had, was given, or 100000000. |
| Lifecycle.SettledUnique | chain/banknote_processor.go:260-361 | That description fixes the hashes and values of the pool: two pools that meet it hold the same notes. |
| Accounts.AccountState.Decode | core/account.go:52-60 | Decoding a stored account and encoding it again gives the account back. |
| Accounts.AccountState.Deduct | core/account.go:27-33 | Succeeds exactly when the balance strictly exceeds the amount; then the balance falls by it, else nothing changes. |
| Accounts.AccountState.Deposit | core/account.go:36-38 | The balance rises by the amount, the nonce stays. |
| Accounts.Open | chain/banknote_processor.go:407-418 | A stored account as it is, an unknown one with nonce 0 and its own copy of the opening balance. |
| Netting.NetRecords | chain/banknote_processor.go:384-403 | The map gathered from the channel is the fold of the records in arrival order. |
| Netting.AdjustAccount | chain/banknote_processor.go:406-427 | One touched account is opened, debited or credited by its net amount, gets one more nonce and is stored; the rest of the trie stays. |
| Netting.ProcessStateTrie | chain/banknote_processor.go:377-428 | Whatever order the accounts are visited in, the trie ends with every touched account adjusted exactly once and every other one unchanged. |
| Netting.NetMeaning | chain/banknote_processor.go:385-403 | The map holds exactly the nonzero addresses that some record mentions, each with its credits minus its debits. |
| Netting.NetOrderFree | chain/banknote_processor.go:385-403 | Records that arrive in another order give the same map. |
| Netting.OneByOneCovered | core/account.go:27-38 | Applied one by one, records whose debits are covered by the balance change it by credits minus debits. |
| Netting.NettingMeaning | chain/banknote_processor.go:384-428 | When the opening balance exceeds the total debits, netting gives every account the balance of applying the records one by one in any order, and raises the nonce of each mentioned account by one and of no other. |
| Netting.NetAccount | chain/banknote_processor.go:384-428 | For any records, account by account: one that they mention changes by the sum of its credits and debits, unless that sum is a debit which its balance does not exceed, and by one nonce; any other, and the zero address, stays as it was. |
| Netting.NettingPositive | chain/banknote_processor.go:406-427 | Whatever the records, all balances stay strictly positive when they and the opening balance are. |
| Schedule.TxStepShape | chain/banknote_processor.go:260-355 | One step of a worker inside its loop body moves its transaction on within the points of its type, and sends exactly the message that the point calls for; a split defers its source at most once. |
| Schedule.WorkerWaits | chain/banknote_processor.go:262-355 | A worker inside its loop body waits exactly while it has an account record to send and that channel is full, or a source to defer and that channel is full. |
| Schedule.IdleWaits | chain/banknote_processor.go:222-240 | A worker at the head of its loop waits exactly while its phase channel is empty and open. The channels are closed in the order BG, BT, BS, BR, after the last dispatch. |
| Schedule.PhaseProcessed | chain/banknote_processor.go:275-363 | When the workers of a phase have all exited, every transaction of the phase is finished. |
| Schedule.StepKeeps | chain/banknote_processor.go:222-363 | Every step of dispatcher, workers, main goroutine or trie goroutine keeps the channel contents and order, what each worker holds, the channel bounds, the message counts, and that no transaction of a later phase has begun before all of the earlier phases are finished. |
| Progress.StepDecreases | chain/banknote_processor.go:210-375 | Every step of every goroutine decreases a measure of the ledger. |
| Progress.NeverStuck | chain/banknote_processor.go:210-306 | A ledger whose splits, transfers and recyclings each fit their channel has an enabled step in every reachable state until it is done. |
| Progress.BacklogKept | chain/banknote_processor.go:222-240 | In a ledger that does not fit, the dispatcher stays blocked and the mint phase stays open, for every step. |
| PoolInvariant.StepPoolInv | chain/banknote_processor.go:260-355 | Every single Get, Store or Delete of any worker keeps the exact description of what the pool holds under every hash, and of what each worker knows at its program point. |
| PoolInvariant.DrainPoolInv | chain/banknote_processor.go:359-361 | So does removing one deferred split source. |
| PoolInvariant.FramePoolInv | chain/banknote_processor.go:36-37 | So does any step of another ledger that touches other notes. |
| PoolInvariant.OutcomeAt | chain/banknote_processor.go:280-361 | When the ledger is done, the pool holds under each touched hash the surviving note at its value, or nothing, or a ghost: a split note that a transfer of 100000000 put back. |
| PoolInvariant.EarlyGone | chain/banknote_processor.go:285-294 | A split whose source was in the pool when the splits started has found and removed it, in every interleaving. |
| OwnerInvariant.StepOwners | chain/banknote_processor.go:262-331 | Every worker step keeps the owner of every note that at most one transaction transfers. |
| OwnerInvariant.OwnerAt | chain/banknote_processor.go:296-331 | At the end such a surviving note belongs to the recipient of its transfer, or else to the owner it had or was produced with. |
| RecordInvariant.RecordsOutcome | chain/banknote_processor.go:262-265 | The records received are exactly those of the batch, so the final trie is the netting of the batch whatever the arrival order. |
| LedgerInvariant.LedgerStep | chain/banknote_processor.go:195-375 | Every step of every goroutine keeps all facts about notes, owners, records and channels together, and changes the pool only under hashes its ledger touches. |
| LedgerInvariant.LedgerFrame | chain/banknote_processor.go:103-111 | The steps of the other ledgers, which touch other notes, keep them too. |
| LedgerInvariant.DoneComplete | chain/banknote_processor.go:363-375 | A finished ledger has processed every transaction, removed every deferred source, and holds the old trie with exactly its batch's records netted in, in spite of the order in which they arrived. |
| BlockMachine.RunSched | chain/banknote_processor.go:101-111 | In every reachable state of all ledgers together the channel, worker and phase invariants hold. |
| BlockMachine.RunsAreBounded | chain/banknote_processor.go:101-111 | No run is longer than the measure of the state it starts from. |
| BlockMachine.FinishesIffFits | chain/banknote_processor.go:210-306 | For all channel sizes, 0 included, a ledger finishes if and only if its splits, transfers and recyclings each fit PLedgerInnerChanSize: where nothing can move any more, exactly the ledgers that fit are done. |
| BlockOutcome.MoveInv | chain/banknote_processor.go:101-111 | Every move of every goroutine of every ledger keeps the invariants of all ledgers, given that each note is touched by one ledger. |
| BlockOutcome.NoteOutcome | chain/banknote_processor.go:222-363 | For every note, the finished block holds it exactly when it survives the batch, at the value of the batch, or is a ghost, at 100000000. |
| PhaseTheorem.ConcurrentExactly | chain/banknote_processor.go:222-363 | For every interleaving, a finished block differs from the log-order run of the batch exactly by the ghosts: split notes that were found, removed, and put back by a transfer of 100000000. |
| PhaseTheorem.AgreesIffNoGhost | chain/banknote_processor.go:222-363 | A run leaves the hashes and values of the log-order run if and only if it leaves no ghost. |
| PhaseTheorem.ConcurrentIsLog | chain/banknote_processor.go:222-363 | Without a note, present or produced, that is both transferred at 100000000 and split, every interleaving of the phases leaves the same hashes and values as the log-order run. |
| PhaseTheorem.SerialRunExists | chain/banknote_processor.go:210-375 | Every block whose ledgers fit can be run to its end with one transaction inside a loop body at a time. |
| PhaseTheorem.HazardRun | chain/banknote_processor.go:317-322 | With such a note some run ends differently from the log. |
| PhaseTheorem.AllRunsAgreeIffHazardFree | chain/banknote_processor.go:222-363 | All interleavings of a life-cycle-respecting batch agree with the log if and only if there is no such note. |
| PhaseTheorem.EarlyHazardAlwaysShows | chain/banknote_processor.go:285-322 | If such a note was in the pool before the block or is minted in it, every interleaving leaves it in the pool, although in a life-cycle-respecting batch the log-order run does not. |
| PhaseTheorem.HazardExample | chain/banknote_processor.go:317-322 | A concrete batch, a transfer of a pooled note of 100000000 followed by its split, respects the life cycle and is in hazard. |
| PhaseTheorem.HazardExampleShows | chain/banknote_processor.go:285-322 | On it every run that ends keeps the split note, unlike the log-order run. |
| PhaseTheorem.SplitsOutcome | chain/banknote_processor.go:280-306 | After any interleaving of splits and the deferred removals, the pool is the initial pool with all split outputs and without all split sources, even when a note is split before the split that creates it; it asks that outputs be fresh and produced once, and that each note be touched in one ledger, and nothing of the sources. |
| CrossLedger.RunAlone | chain/banknote_processor.go:103-111 | From every reachable state, a ledger that fits can run to its end while all others stand still. |
| CrossLedger.ConsumedBefore | chain/banknote_processor.go:222-363 | If a note is produced in one ledger, or created there by a transfer of 100000000, and consumed only in others, some complete run of the block keeps it. |
| CrossLedger.ConsumedWhileHeld | chain/banknote_processor.go:308-331 | The same for a pooled note that one ledger transfers and only others consume: they remove it while the transfer holds it, and the transfer puts it back. |
| CrossLedger.CrossLedgerBreaks | chain/banknote_processor.go:36-37 | What happens without one ledger per note: for every life-cycle-respecting batch that consumes a note only in other ledgers than one that produces it, creates it, or transfers it from the pool, some complete run does not end as the log-order run does. |
| CrossLedger.CrossExample | chain/banknote_processor.go:36-37 | A mint in one ledger and a split in another are such a batch, with no hazard. |
| ScheduleIndependence.StallStep | chain/banknote_processor.go:265-300 | In the split phase a second worker can stand still between receiving a split and storing its output, while the first goes on until another split has looked for that output in vain. |
| ScheduleIndependence.OvertakingRun | chain/banknote_processor.go:265-300 | So there is a complete run of the block in which that split misses its source. |
| ScheduleIndependence.OneWorkerHazardShows | chain/banknote_processor.go:265-322 | A hazard in a ledger of one worker leaves its ghost after every complete run. |
| ScheduleIndependence.RaceEnds | chain/banknote_processor.go:265-322 | A race has a complete run that keeps the note and one that does not. |
| ScheduleIndependence.RunsAgreeIffNoRace | chain/banknote_processor.go:222-363 | All complete runs of a life-cycle-respecting block whose ledgers fit leave the same notes at the same values if and only if there is no race. |
| ScheduleIndependence.RaceExample | chain/banknote_processor.go:265-322 | A block that splits a note into one of 100000000, transfers that and splits it: its complete runs all agree exactly when the ledger has one worker. |
| BlockBody.Partition | chain/banknote_processor.go:31-42 | One pass puts the NT transactions aside, gives each ledger its transactions in batch order, and leaves recyclings out of the block parts. |
| BlockBody.PartitionCounts | chain/banknote_processor.go:31-42 | Each list of the partition holds each of its transactions as often as the batch does: the NT ones, those routed to the ledger that are not NT, and of these all but the recyclings. |
| BlockBody.SortBanknoteTxs | banknoteChain/banknote_transaction.go:58-75 | Sorting in place through Swap gives a rearrangement of the slice in descending order of hash. |
| BlockBody.SortUnique | banknoteChain/banknote_transaction.go:58-75 | Transactions that their hashes tell apart have only one sorted order. |
| BlockBody.XorAssociates | chain/banknote_processor.go:84-94 | Bitwise exclusive or of numbers is associative. |
| BlockBody.XorAllBag | chain/banknote_processor.go:83-85 | The exclusive or of the hashes does not depend on their order. |
| BlockBody.XorDigest | chain/banknote_processor.go:78-95 | The two nested loops compute the exclusive or over ledgers of the exclusive or of each ledger's hashes. |
| BlockBody.XorBit | chain/banknote_processor.go:84-94 | Bit for bit, the exclusive or is set where exactly one of the numbers is. |
| BlockBody.DigestBit | chain/banknote_processor.go:78-95 | A bit of the digest input is set if and only if an odd number of the transaction hashes in the block have it set. |
| BlockBody.CountTxs | banknoteChain/banknote_block.go:45-50 | BanknoteTxCount is the number of NT transactions plus the lengths of all ledger parts. |
| BlockBody.RebuildBatch | chain/blockchain.go:167-172 | The peer's batch is C_ledger followed by the ledger parts in order. |
| BlockBody.PeerOrder | chain/blockchain.go:167-172 | In the rebuilt batch the NT transactions come first, and transaction `i` of ledger `l` stands after all of them, the lower ledgers' transactions and `i` more. |
| BlockBody.BodyCanonical | chain/banknote_processor.go:31-42 | With distinct transaction hashes, batches with the same entering transactions in any order get the same P_ledgers and the same digest input. |
| BlockBody.PeerPartition | chain/blockchain.go:166-173 | Partitioning the rebuilt batch gives each ledger exactly its part of the body, in the body's order. |
| BlockBody.BodyReproduced | chain/blockchain.go:166-173 | A peer that partitions and sorts the rebuilt batch gets the same body and the same digest input. |
| BlockBody.CountPlusRecycled | chain/banknote_processor.go:39-41 | BanknoteTxCount plus the number of recyclings is the length of the batch. |
| Replica.RecordsBag | chain/banknote_processor.go:262-265 | Reordering a batch only reorders its account records. |
| Replica.PeerBag | chain/blockchain.go:166-172 | The replayed batch is the leader's batch without its recyclings, in another order. |
| Replica.PeerOrderFree | chain/blockchain.go:166-173 | The replayed batch keeps every precondition of the leader's batch that does not depend on order, and adds no hazard. |
| Replica.ReplicasHold | chain/blockchain.go:166-174 | From equal pools and for any schedules, leader and peer agree on a note if and only if the batch does not recycle it while it is there; a note the leader holds is held by the peer at the same value. |
| Replica.ReplicasAgreeOnNotes | chain/blockchain.go:166-174 | Without recyclings, leader and peer end with the same pool hashes and values for any schedules. |
| Replica.ReplicasAgreeOnAccounts | chain/blockchain.go:166-174 | Without recyclings, they end with the same netted accounts in every ledger and the same core accounts. |
| ReplicaAccounts.NetsOf | chain/banknote_processor.go:39-41 | What leader and peer net for an account of a ledger: the leader recyclings less mints, the peer the mints only, each for exactly the accounts that such transactions name. |
| ReplicaAccounts.AccountOutcome | chain/banknote_processor.go:262-428 | After every complete run, an account of a ledger has changed by the amounts of the recyclings routed there that name it as recipient less those of the mints routed there that name it as sender, refused as a whole when it is a debit not covered, and by one nonce if any names it. |
| ReplicaAccounts.ReplicasHoldAccount | chain/blockchain.go:166-174 | With nonnegative amounts, for any schedules, leader and peer end with the same account of a ledger if and only if it has no recycling there, or it also pays for mints there and the recyclings give nothing, or the balance does not exceed the mints and either the recyclings give back just the mints or what remains is refused as well. |
| Replica.ReplicasAgreeOnOwners | chain/blockchain.go:166-174 | Owners agree too, for notes that are transferred at most once. |
| Replica.LogOwner | chain/banknote_processor.go:296-331 | The log-order run gives such a note the same owner. |
| Replica.ConcurrentOwnersAreLog | chain/banknote_processor.go:296-331 | So for every interleaving each note of the log-order run that is transferred at most once has the owner that the log-order run gives it. |
| RecipientInvariant.StepRecipients | chain/banknote_processor.go:308-355 | Every worker step keeps the owner of a note that transfers have touched among their recipients. |
| RecipientInvariant.RecipientOwns | chain/banknote_processor.go:308-331 | For every interleaving, a surviving note that the batch transfers, however often, belongs to the recipient of one of its transfers. |
| RecipientInvariant.LastRecipient | chain/banknote_processor.go:308-331 | In log order it belongs to the recipient of the last one. |
| CoreLedger.ProcessTx | chain/blockchain.go:210-255 | One payment through the account objects: the sender is stored before the receiver is read, so a self-payment sees its own debit. |
| CoreLedger.ProcessTxs | chain/blockchain.go:209-256 | The loop is the fold of the payments in order. |
| CoreLedger.PayAccount | chain/blockchain.go:210-255 | One payment, account by account: the payer loses the amount exactly when its balance exceeds it, the payee gains it in any case, each role raises the nonce by one, and every other account and its presence in the trie stay. |
| CoreLedger.RunAccount | chain/blockchain.go:209-256 | Over every run an account gains every payment to it, loses those of its own that its balance exceeded at their turn, and its nonce counts both. |
| CoreLedger.CorePays | chain/banknote_processor.go:129-169 | Each NT transaction of a batch is such a payment, from its sender to its recipient, made after those before it. |
| CoreLedger.PayTotals | chain/banknote_processor.go:131-167 | One payment raises the total above the opening balances by its amount exactly when its debit is refused, self-payments included, and the nonces by two. |
| CoreLedger.RunTotals | chain/blockchain.go:209-256 | Over every run the total grows exactly by the amounts whose debit was refused, and the nonces by two per transaction. |
| CoreLedger.RunPositive | core/account.go:27-38 | With nonnegative amounts and a positive opening balance, balances stay strictly positive. |
| CoreLedger.KeptIffAffordable | chain/blockchain.go:209-256 | With nonnegative amounts, the total above the opening balances is kept if and only if every payment is of nothing or below its payer's opening balance plus the plain credits minus debits of the payments before it. |
| Conservation.LogConserves | chain/banknote_processor.go:260-355 | In log order, circulating notes, untouched initial notes and what went into the accounts keep their total. |
| Conservation.NetTotal | chain/banknote_processor.go:385-403 | The netted amounts add up to the credits minus the debits of all records. |
| Conservation.NetChange | chain/banknote_processor.go:406-427 | The balances above the opening balance change by the sum of the netted amounts plus exactly the netted debits that are refused. |
| Conservation.NothingRefused | chain/banknote_processor.go:420-424 | The refused netted debits of a ledger are never negative, and are nothing if and only if every netted debit is below the balance. |
| Conservation.PartsTotal | chain/banknote_processor.go:36-37 | The ledgers together put into their accounts what the whole batch does. |
| Conservation.BlockConserves | chain/banknote_processor.go:101-111 | For every interleaving of a backed, hazard-free block whose notes are each in one ledger, the balances over all ledgers, the circulating notes and the untouched initial notes grow by exactly the netted debits that the ledgers refuse, so their total is kept if and only if every netted debit of every ledger is below the balance. |
| BanknotePool.Banknote.constructor | banknoteChain/banknote.go:20-29 | A new note has its hash, value and owner, the ledger of its hash and turnover 0. |
| BanknotePool.ActiveBanknotePool.constructor | banknoteChain/banknote_pool.go:15-25 | A new pool has one empty map per ledger. |
| BanknotePool.ActiveBanknotePool.InShard | banknoteChain/banknote_pool.go:46-56 | A hash is in the pool exactly when it is in the map it is routed to. |
| BanknotePool.ActiveBanknotePool.AddBanknote | banknoteChain/banknote_pool.go:27-31 | As one map from hash to note, the pool gains or replaces exactly the note's hash. |
| BanknotePool.ActiveBanknotePool.SetBanknote | banknoteChain/banknote_pool.go:33-37 | The same as adding. |
| BanknotePool.ActiveBanknotePool.RemoveBanknote | banknoteChain/banknote_pool.go:39-44 | Exactly this hash leaves the pool. |
| BanknotePool.ActiveBanknotePool.GetBanknote | banknoteChain/banknote_pool.go:46-56 | The note under the hash, or null when no map holds it. |
| BanknoteTypes.RoutedIff | banknoteChain/banknote.go:31-34 | A hash is routed to `id` if and only if `id` is below the number of ledgers and the hash is a multiple of 2 to the 64 plus a number below that which is a whole number of rounds through the ledgers plus `id`. |
| Simulator.RemoveHeld | tx_simulator.py:126-139 | Removing a held note takes it, and only it, out of its owner's list and lowers the count by one: no error branch is reached. |
| Simulator.TransferTidy | tx_simulator.py:203-240 | A transfer of a held note keeps the state tidy and replaces that note by its moved copy. |
| Simulator.SplitTidy | tx_simulator.py:279-333 | A split replaces a held note by its two pieces, of new hashes. |
| Simulator.RecycleTidy | tx_simulator.py:243-276 | A recycling removes a held note and nothing else. |
| Simulator.NewTidy | tx_simulator.py:162-200 | A mint adds one note of a new hash and a shard in range. |
| Simulator.InitializeTidy | tx_simulator.py:81-104 | The grants leave every other list as it is. |
| Simulator.TransferTurn | tx_simulator.py:366-378 | A turn of the spend loop brings its index closer to the end of the live list, also in a self-transfer, where the note goes to the end of the same list. |
| Simulator.RecycleTurn | tx_simulator.py:428-431 | So does a turn of the recycle loop. |
| Simulator.Spend | tx_simulator.py:364-390 | The spend loop ends and leaves a tidy state. |
| Simulator.FindExactFirst | tx_simulator.py:345-349 | The first loop finds the first note of exactly the amount, or there is none. |
| Simulator.ProcessTransfer | tx_simulator.py:335-396 | Every transfer, self-transfers included, ends in a tidy state. |
| Simulator.FinalizeBlock | tx_simulator.py:406-473 | So does every end of a block. |
| SimulatorEffects.GrantEffect | tx_simulator.py:81-104 | A new address gets one note of 100000000 per shard, with new hashes in shard order, its own creator, unused and last seen now; a known one gets nothing. |
| SimulatorEffects.SeenEffect | tx_simulator.py:339-340 | The payer is granted before the payee. |
| SimulatorEffects.RemoveEffect | tx_simulator.py:126-139 | What a removal does in any state, tidy or not: no list, an empty list, no such note, and the first of several. |
| SimulatorEffects.MintEffect | tx_simulator.py:162-200 | Every field of the new note and of its log line, which names the owner as sender, and that nothing else changes. |
| SimulatorEffects.TransferEffect | tx_simulator.py:203-240 | The note leaves its place and comes last in the new owner's list, also when that is its own list, with one turnover more and last seen now, its other fields kept; every field of the log line, and that nothing else changes. |
| SimulatorEffects.RecycleEffect | tx_simulator.py:243-276 | The note leaves its place; every field of the log line, which names the owner twice, and that nothing else changes. |
| SimulatorEffects.SplitEffect | tx_simulator.py:279-333 | Every field of the two pieces, which inherit shard, turnover and creator and are last seen now, and of the log line, which names the old owner twice, and that nothing else changes. |
| SimulatorHistory.StepSeen | tx_simulator.py:335-473 | A note that an event adds or changes is last seen in its block, and only transfer events do that. |
| SimulatorHistory.PayMints | tx_simulator.py:392-396 | What a payment mints is one note at the end of the receiver's list, made by the payer and charged to the receiver. |
| SimulatorHistory.LastSeenMeans | tx_simulator.py:81-333 | In every reachable state each note was last seen in the block of the transfer event that granted, minted, split off or transferred it last. |
| SimulatorTotals.RunInvariant | tx_simulator.py:81-155 | In every reachable state each note is in its owner's list only, hashes are unique, denominations positive, shards in range and no removal has failed; the active count is the total list length, ShardNumber times the addresses seen plus mints plus splits minus recyclings; and the value in circulation is all grants plus all logged mints minus all logged recyclings. |
| SimulatorTotals.SpendKeeps | tx_simulator.py:364-390 | The spend loop keeps the total value and the counters, self-transfers included. |
| SimulatorTotals.PayKeeps | tx_simulator.py:343-396 | A transfer raises the total value by what it mints and nothing else. |
| SimulatorTotals.SeenKeeps | tx_simulator.py:339-340 | Each address is granted DefaultBalance per shard once, also when both are the same. |
| Spending.EveryOther | tx_simulator.py:366-390 | The notes at even positions. |
| Spending.WholeIsLongest | tx_simulator.py:370-379 | The notes paid whole are the longest prefix of the even-position notes worth at most the amount. |
| Spending.SpendTakesEveryOther | tx_simulator.py:366-390 | The loop that removes from the list it walks through takes exactly every other note from the first: what it leaves, what it gives, what it pays and its counters are those of paying out of the even-position notes of the original list. |
| Spending.PayExact | tx_simulator.py:345-349 | With a note of exactly the amount, the first such note changes hands and nothing else happens. |
| Spending.PayEveryOther | tx_simulator.py:343-396 | Otherwise a note is minted if and only if the even-position notes sum to less than the amount; at most one note is split, never together with a mint; at most half of the notes, rounded up, are transferred; and both lists are determined. |
| Spending.ExactDelivery | tx_simulator.py:343-396 | The receiver gains exactly the amount, the sender loses at most it, all other lists stay, and the total value rises by exactly what the sender fell short of. |
| Spending.TransferDelivers | tx_simulator.py:335-396 | The same with first-time grants added to the total. |
| Spending.SelfTransfer | tx_simulator.py:335-396 | A transfer to oneself ends. It creates nothing when some note equals the amount; otherwise exactly what the walk around the list, skipping the note after each one paid, whose paid notes go to its end, falls short of the amount. |
| Spending.CircleOfEqual | tx_simulator.py:346-376 | When all notes are worth the same, that walk can pay with every one of them. |
| Recycling.SweptHalves | tx_simulator.py:428-431 | A sweep removes only stale notes from a list and leaves at most as many stale notes as it removes. |
| Recycling.SweptAllStale | tx_simulator.py:428-431 | Of a list that is stale throughout exactly half stays, rounded down. |
| Recycling.SweepOwnerSwept | tx_simulator.py:428-431 | The index loop over the shrinking list leaves what that description says, and touches no other list. |
| Recycling.FinalizeSweeps | tx_simulator.py:424-431 | At a block number divisible by the interval every list is swept, at any other none. |
| Recycling.FinalizeExactly | tx_simulator.py:424-431 | At the end of a block whose number is a multiple of 1000 exactly those notes go that have been idle for more than the threshold and stand at the front of their list or after a note that stays; at the end of any other block none goes. |
| Recycling.FreshStays | tx_simulator.py:428-431 | A note idle for no more than the threshold stays; one at the front of its list that has been idle for longer goes at such a block. |
| Recycling.QuietKeeps | tx_simulator.py:424-431 | A note outlasts any number of blocks until it has been idle for more than the threshold. |
| SimulatorHistory.FinalizeLogs | tx_simulator.py:424-431 | The lines of a sweep stand in the log owner by owner in the order in which the addresses were first seen, each owner's in list order. |
| Recycling.RoundsHalve | tx_simulator.py:424-431 | Without transfers and newly stale notes, k sweeps divide the stale notes of every owner by two to the k and keep all other notes. |
| Recycling.RoundsClear | tx_simulator.py:424-431 | So k sweeps clear fewer than two to the k stale notes. |
| Recycling.SweepsAllStale | tx_simulator.py:428-431 | The bound is reached: k sweeps of a list that is stale throughout leave its length divided by two to the k. |
| SimulatorLog.MirrorTransferred | chain/banknote_processor.go:317-322 | The rule for absent notes is sound on the log: an absent note that is transferred is an untouched grant of 100000000. |
| SimulatorLog.AppendRespects | tx_simulator.py:191-333 | A log line with new outputs and a held source keeps the log life-cycle-respecting. |
| SimulatorLog.CurrentStep | tx_simulator.py:335-473 | Every event keeps the log and the lists in agreement. |
| SimulatorLog.ForwardSimulation | tx_simulator.py:162-333 | After every run the log respects the life cycle, and replaying it in order from an empty pool gives exactly the active notes that appear in it at equal values; the other active notes are untouched grants of the default balance. |
| SimulatorLog.ForwardOwners | tx_simulator.py:191-333 | The replay also leaves each such note to its owner in the simulator. The one exception is the second note of a split, which the log gives to the payer until it is transferred. |
| SimulatorAccounts.MintLogged | chain/banknote_processor.go:262-270 | Executing the line of a mint gives the note to its owner and debits that owner. |
| SimulatorAccounts.TransferLogged | chain/banknote_processor.go:308-331 | Executing the line of a transfer gives the note to the new owner and leaves the accounts alone. |
| SimulatorAccounts.RecycleLogged | chain/banknote_processor.go:334-355 | Executing the line of a recycling removes the note and credits its owner. |
| SimulatorAccounts.SplitLogged | chain/banknote_processor.go:285-300 | Executing the line of a split gives both pieces to the owner of the note that is split and leaves the accounts alone. |
| SimulatorAccounts.PayCharges | tx_simulator.py:343-396 | Executing the lines of a payment debits the receiver by what is minted, and no other account. |
| SimulatorAccounts.FinalizeCredits | tx_simulator.py:424-431 | Executing the lines of the end of a block credits each account with what its recycled notes were worth. |
| SimulatorAccounts.PayWealth | tx_simulator.py:335-396 | A payment, also to oneself, moves from payer to receiver exactly the part of the amount that is not minted, when an address is worth its notes and what the log puts into its account. |
| SimulatorAccounts.RunWealth | tx_simulator.py:335-473 | So over every run with nonnegative amounts an address is worth its grants and what it received less what it paid, and recycling changes nothing about that. |
| SimulatedChain.ChainIsLog | chain/blockchain.go:160-177 | Any schedules of a chain of blocks leave the notes of the log-order replay of all of them, when no block is in hazard after the replay of the blocks before it and each note of a block is in one ledger. |
| SimulatedChain.ChainFollowsSimulator | tx_simulator.py:191-333 | The simulator's log, cut into blocks such that, after the replay of the log before it, none is in hazard and each note of a block is in one ledger, and executed concurrently from an empty pool under any schedules, leaves exactly the simulator's active notes that appear in the log, at equal values. |
| TxSimulatorProgram.TxSimulator.constructor | tx_simulator.py:31-66 | The simulator starts empty. |
| TxSimulatorProgram.TxSimulator.RemoveBanknoteFromOwner | tx_simulator.py:126-139 | The state after the branches of the removal, the one that deletes an empty list and the failed one included. |
| TxSimulatorProgram.TxSimulator.AddBanknoteToOwner | tx_simulator.py:145-155 | The note is appended to its owner's list, which is created when missing. |
| TxSimulatorProgram.TxSimulator.InitializeAddressIfNeeded | tx_simulator.py:81-104 | A new address gets one grant per shard, in shard order; a known one nothing. |
| TxSimulatorProgram.TxSimulator.NewBanknote | tx_simulator.py:162-200 | The state and log line of a mint. |
| TxSimulatorProgram.TxSimulator.TransferBanknote | tx_simulator.py:203-240 | The state and log line of a transfer. |
| TxSimulatorProgram.TxSimulator.RecycleBanknote | tx_simulator.py:243-276 | The state and log line of a recycling. |
| TxSimulatorProgram.TxSimulator.SplitBanknote | tx_simulator.py:279-333 | The state and log line of a split. |
| TxSimulatorProgram.TxSimulator.FindExactNote | tx_simulator.py:345-349 | The position of the first note of exactly the amount, if any. |
| TxSimulatorProgram.TxSimulator.SpendNotes | tx_simulator.py:364-396 | The loop over the live list and the mint refine the spending function about which delivery is proved. |
| TxSimulatorProgram.TxSimulator.ProcessTransfer | tx_simulator.py:335-396 | The whole transfer does. |
| TxSimulatorProgram.TxSimulator.SweepNotes | tx_simulator.py:428-431 | The loop over the live list refines the sweep function about which halving is proved. |
| TxSimulatorProgram.TxSimulator.FinalizeBlock | tx_simulator.py:424-473 | The end of a block sweeps all owners in insertion order at multiples of the interval, and counts the block. |
| TxSimulatorProgram.ProcessAll | tx_simulator.py:596-626 | The main loop is a run of events: one transfer per row, a block end after every 1000 rows and after a rest. |
| TxSimulatorProgram.EventsShape | tx_simulator.py:596-620 | Row `i` is event `i` plus the number of whole thousands before it, and after every 1000 rows a block ends. |
| TxPool.Pool.constructor | txPool/txpool.go:18-32 | A new pool is empty. |
| TxPool.Pool.PackTxs | txPool/txpool.go:89-112 | Takes the first min(length, max) transactions, leaves the rest, and broadcasts exactly when it takes any; otherwise nil. |
| TxPool.Pool.PackTxsWithBytes | txPool/txpool.go:116-148 | Takes the first min(length, bytes divided by the structure size) transactions, none for negative bytes. |
| TxPool.Pool.Append | txPool/txpool.go:48-51 | Past the wait loop the queue changes as in the adding step of a tail producer of the monitor, and stays within the capacity. |
| TxPool.Pool.Prepend | txPool/txpool.go:82-83 | Past the wait loop the queue changes as in the adding step of a head producer of the monitor, and stays within the capacity. |
| TxPool.FitsExactly | txPool/txpool.go:124-132 | The loop's stopping point is the number of structures that fit. |
| TxPoolMonitor.StepInv | txPool/txpool.go:36-148 | Every step keeps all of: only the holder has the lock; the queue is within capacity; it is full while anyone is parked unwoken; nothing is lost or invented; with tail producers only, packed then queued is arrival order; queued transactions of one caller are in its order. |
| TxPoolMonitor.RunInv | txPool/txpool.go:36-148 | So does every interleaving. |
| TxPoolMonitor.FirstInFirstOut | txPool/txpool.go:36-69 | With tail producers, what was packed followed by the queue is the arrival order, each producer's transactions in its own order, each once, and all of them when its call is done. |
| TxPoolMonitor.NoLostWakeup | txPool/txpool.go:41-46 | With the lock free and room in the queue, every unfinished call can take the lock. |
| TxPoolMonitor.HolderMoves | txPool/txpool.go:36-148 | Whoever holds the lock can go on. |
| TxPoolMonitor.RestOnlyAtFullQueue | txPool/txpool.go:108-109 | Producers are all stopped only at a full queue, and packing anything wakes them and makes room. |
| TxPoolMonitor.PackEffect | txPool/txpool.go:89-112 | A packing takes the first transactions, as many as it asks for or all there are; it wakes every parked call when it takes any, and none when it takes nothing. |
| TxPoolMonitor.ProducersRest | txPool/txpool.go:41-46 | Between packings the producers' steps decrease a measure, so they come to rest. |
| TxPoolMonitor.HeadOrderCanBreak | txPool/txpool.go:73-85 | The caller's order that the head variant's comment promises can be broken: a concrete run. |
| TxPoolMonitor.HeadOrderIff | txPool/txpool.go:73-85 | In the state in which a head call gets the lock: it keeps its order in what is packed and queued, whatever happens afterwards, if and only if it adds one transaction at most or all of them fit into the room it finds. |
| TxPoolMonitor.PackedEarlyIff | txPool/txpool.go:73-85 | In a given run, a head call that has added everything stands in its order if and only if none of it was packed before it added its last. |
| CsvReader.BanknoteDatasetBatchReader.constructor | txGenerator/banknote_dataset_csv_reader.go:46-61 | Opening drops the first line. |
| CsvReader.BanknoteDatasetBatchReader.ReadString | txGenerator/banknote_dataset_csv_reader.go:76-79 | A line up to its newline, or the rest at the end of the input. |
| CsvReader.BanknoteDatasetBatchReader.ReadBatch | txGenerator/banknote_dataset_csv_reader.go:67-117 | One read refines the scan of which the properties are proved. |
| CsvReader.NextGroup | txGenerator/banknote_dataset_csv_reader.go:67-117 | A read returns the next maximal run of lines without separators and leaves the later ones; with none left it returns nil and stays there. |
| CsvReader.ReadsGroups | txGenerator/banknote_dataset_csv_reader.go:67-117 | Repeated reads return exactly the groups of the newline-terminated lines in order, then nil forever. |
| CsvReader.LinesOfText | txGenerator/banknote_dataset_csv_reader.go:76-87 | An unterminated last line is lost. |
| CsvReader.RoundTrip | tx_simulator.py:604-612 | Groups of lines that do not begin with "~", written with a line that does after each, are read back in order, then nil forever. |
| CsvReader.ExtraSeparator | txGenerator/banknote_dataset_csv_reader.go:93-99 | A leading or repeated separator changes nothing. |
| CsvReader.LinesCounted | txGenerator/banknote_dataset_csv_reader.go:67-117 | After any number of reads the line number is the number of lines consumed, and one more from the end of the input on. |
| UpperBound.Compute | database/db.go:290-302 | The backward loop computes the bound. |
| UpperBound.BoundCons | database/db.go:290-302 | The same bound, read from the front of the prefix. |
| UpperBound.NoBoundIff | database/db.go:290-302 | There is no bound exactly for prefixes of 0xff bytes only, the empty one included. |
| UpperBound.PrefixIffInRange | database/db.go:290-302 | A key has the prefix if and only if it is at least the prefix and below the bound, if there is one. |
| UpperBound.BoundIsLeast | database/db.go:290-302 | The bound is the least key above every key with the prefix. |

## Left out

- LedgerMachine: an unbuffered channel is one slot that a send may use only while a receiver waits, so a message can lie in it for a moment. The worker number is a fixed constant of at least 1, although several ledgers rewrite it (lines 245-255).
- LedgerMachine: notes are objects in a shared heap that a transfer overwrites in place, but their turnover count and ledger number are not part of the machine, which never reads them.
- BlockBody.SortBanknoteTxs: `sort.Sort` is a library call; the model sorts by insertion through the same `Swap` and `Less`. The sort and the exclusive or share a slice; each is one atomic pass here.
- BlockBody.DigestInput: the Keccak hash of the exclusive or, the block hash, and the header fields are not modelled.
- BlockOutcome.OneLedgerPerNote: a note consumed only in other ledgers than one that provides it is proved harmful for every batch; that two ledgers which only transfer a note do no harm, and what a creating transfer does to a note that another ledger produces at another value, is not worked out.
- PhaseTheorem.AllRunsAgreeIffHazardFree: owners are not part of the agreement, as several transfers of one note in one block are not ordered; `Replica.ConcurrentOwnersAreLog` covers notes transferred at most once, and `RecipientInvariant.RecipientOwns` says what holds of the others.
- SimulatedChain.ChainFollowsSimulator: it is about the log itself; the reader drops the first line of each group (txGenerator/banknote_dataset_csv_reader.go:137), and a recycling line that stands first in its group is lost there.
- Conservation.BlockConserves: it asks that every transaction name a source in circulation, or an untouched initial note, at its value; the total of the balances is taken relative to the opening balance of each account, as accounts are opened on first use.
- CsvReader: a group is its list of lines; the header line that is put before it, the parsing of fields and read errors other than the end of the file are not modelled.
- Accounts: nonces do not wrap around at 2 to the 64, amounts are never nil, and the unused fields of AccountState are not modelled.
- BanknotePool: each map operation is atomic; the machine in LedgerMachine uses the single map that the class is proved to behave as.
- TxSimulatorProgram.TxSimulator: a note is a value in one list; the per-block counters, the map of modified accounts, the block statistics, flushing and the lines for raw payments and separators are not modelled.
- TxPool.Pool.Append: it starts where the wait loop has found room; waiting, waking and the lock are the steps of `TxPoolMonitor`.
- TxPool.Pool.Prepend: likewise.
- TxPool: time stamps, and the use of the lock from outside through GetLocked and GetUnlocked.
- AddBlock's height and parent checks, which only print; signatures, tries, storage, networking, configuration, USDT and random readers, result files.
